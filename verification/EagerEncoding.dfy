/** The immediate-data word and the metadata trailer of eager messages: how a posted send or active
    message is laid out (src/core/communicate.cpp) and how the receiver reads it back
    (src/core/progress.cpp). Words are bit vectors, as wide as in the source. */
module EagerEncoding {
  import opened Options

  // imm_data_msg_type_t
  const EAGER: bv32 := 0
  const RTS: bv32 := 1
  const RTR: bv32 := 2
  const FIN: bv32 := 3

  // ------------------------------------------------------- bit fields

  function Mask(width: bv32): bv32
    requires width <= 32
  {
    if width == 32 then 0xFFFF_FFFF else (1 << width) - 1
  }

  /** What the assertions of set_bits32 demand. */
  predicate FieldFits(val: bv32, width: bv32, offset: bv32) {
    width <= 32 && offset <= 32 && offset + width <= 32 && val <= Mask(width)
  }

  /** set_bits32 */
  function SetBits(flag: bv32, val: bv32, width: bv32, offset: bv32): bv32
    requires FieldFits(val, width, offset)
  {
    var flagMask := Mask(width) << offset;
    (flag & !flagMask) | ((val & Mask(width)) << offset)
  }

  /** get_bits32 */
  function GetBits(flag: bv32, width: bv32, offset: bv32): bv32
    requires FieldFits(0, width, offset)
  {
    (flag >> offset) & Mask(width)
  }

  /** A field reads back as written. */
  lemma GetSet(flag: bv32, val: bv32, width: bv32, offset: bv32)
    requires FieldFits(val, width, offset)
    ensures GetBits(SetBits(flag, val, width, offset), width, offset) == val
  {
  }

  // ------------------------------------------------------- words as bytes

  type Bytes = seq<bv8>

  function TagBytes(x: bv64): (b: Bytes)
    ensures |b| == 8
  {
    [(x & 0xff) as bv8, ((x >> 8) & 0xff) as bv8, ((x >> 16) & 0xff) as bv8, ((x >> 24) & 0xff) as bv8,
     ((x >> 32) & 0xff) as bv8, ((x >> 40) & 0xff) as bv8, ((x >> 48) & 0xff) as bv8, ((x >> 56) & 0xff) as bv8]
  }

  function BytesTag(b: Bytes): bv64
    requires |b| == 8
  {
    (b[0] as bv64) | ((b[1] as bv64) << 8) | ((b[2] as bv64) << 16) | ((b[3] as bv64) << 24)
    | ((b[4] as bv64) << 32) | ((b[5] as bv64) << 40) | ((b[6] as bv64) << 48) | ((b[7] as bv64) << 56)
  }

  function HandlerBytes(x: bv32): (b: Bytes)
    ensures |b| == 4
  {
    [(x & 0xff) as bv8, ((x >> 8) & 0xff) as bv8, ((x >> 16) & 0xff) as bv8, ((x >> 24) & 0xff) as bv8]
  }

  function BytesHandler(b: Bytes): bv32
    requires |b| == 4
  {
    (b[0] as bv32) | ((b[1] as bv32) << 8) | ((b[2] as bv32) << 16) | ((b[3] as bv32) << 24)
  }

  lemma BytesRoundTrip(tag: bv64, rhandler: bv32)
    ensures BytesTag(TagBytes(tag)) == tag && BytesHandler(HandlerBytes(rhandler)) == rhandler
  {
  }

  // ------------------------------------------------------- posting

  /** imm_nbits_tag and imm_nbits_rcomp; the runtime asserts that they add up to at most 31. */
  datatype Config = Config(nbitsTag: bv32, nbitsRcomp: bv32)

  predicate Accepted(c: Config) {
    c.nbitsTag <= 31 && c.nbitsRcomp <= 31 && c.nbitsTag + c.nbitsRcomp <= 31
  }

  /** A send or active message of host memory. */
  datatype Post = Post(tag: bv64, rhandler: bv32, payload: Bytes, mrIsEmpty: bool, memorySemantic: bool)

  datatype Traits = Traits(maxInject: nat, maxBcopy: nat)

  datatype Protocol = Inject | EagerBcopy(piggyback: bool) | EagerZcopy | Rendezvous

  datatype Wire = Wire(imm: bv32, bytes: Bytes)

  /** tag and handler fit the configured immediate-data fields (max_imm_tag, max_imm_rcomp) */
  predicate FitsImmediate(c: Config, p: Post)
    requires Accepted(c)
  {
    p.tag <= (1 << c.nbitsTag) - 1 && p.rhandler <= Mask(c.nbitsRcomp)
  }

  predicate NeedsMetadata(c: Config, p: Post)
    requires Accepted(c)
  {
    p.rhandler != 0 && !FitsImmediate(c, p)
  }

  const METADATA: nat := 12

  function ProtocolOf(c: Config, t: Traits, p: Post): Protocol
    requires Accepted(c)
  {
    var needs := NeedsMetadata(c, p);
    var size := |p.payload| + if needs then METADATA else 0;
    if size > t.maxBcopy then Rendezvous
    else if size <= t.maxInject && p.memorySemantic && !needs then Inject
    else if p.mrIsEmpty || needs then EagerBcopy(needs)
    else EagerZcopy
  }

  /** The fast-path word, or None where an assertion of set_bits32 stops the program. */
  function FastImmediate(c: Config, p: Post): Option<bv32>
    requires Accepted(c) && FitsImmediate(c, p)
  {
    if FieldFits(p.rhandler, c.nbitsRcomp, 16) then
      Some(SetBits(SetBits(SetBits(0, 1, 1, 31), (p.tag & 0xFFFF_FFFF) as bv32, c.nbitsTag, 0), p.rhandler,
                   c.nbitsRcomp, 16))
    else
      None
  }

  function Trailer(p: Post): Bytes {
    TagBytes(p.tag) + HandlerBytes(p.rhandler)
  }

  /** What goes on the wire on the eager paths. */
  function WireOf(c: Config, t: Traits, p: Post): Option<Wire>
    requires Accepted(c) && ProtocolOf(c, t, p) != Rendezvous && p.rhandler != 0
  {
    if !FitsImmediate(c, p) then
      Some(Wire(0, if ProtocolOf(c, t, p) == EagerBcopy(true) then p.payload + Trailer(p) else p.payload))
    else match FastImmediate(c, p)
      case None => None
      case Some(imm) => Some(Wire(imm, p.payload))
  }

  // ------------------------------------------------------- receiving

  datatype Message = Eager(tag: bv64, rhandler: bv32, payload: Bytes) | RtsMessage | RtrMessage | FinMessage | TooShort

  /** progress_recv up to its dispatch; an eager message shorter than its trailer has no meaning. */
  function Decode(w: Wire): Message {
    if GetBits(w.imm, 1, 31) != 0 then
      Eager(GetBits(w.imm, 16, 0) as bv64, GetBits(w.imm, 15, 16), w.bytes)
    else if GetBits(w.imm, 2, 29) == EAGER then
      if |w.bytes| < METADATA then TooShort else
        var atHandler := |w.bytes| - 4;
        var atTag := atHandler - 8;
        Eager(BytesTag(w.bytes[atTag..atTag + 8]), BytesHandler(w.bytes[atHandler..atHandler + 4]), w.bytes[..atTag])
    else if GetBits(w.imm, 2, 29) == RTS then RtsMessage
    else if GetBits(w.imm, 2, 29) == RTR then RtrMessage
    else FinMessage
  }

  // ------------------------------------------------------- the round trip

  /** The receiver recovers exactly what was posted, on whichever eager path was chosen. */
  ghost predicate RoundTrips(c: Config, t: Traits, p: Post)
    requires Accepted(c) && p.rhandler != 0
  {
    ProtocolOf(c, t, p) == Rendezvous
    || (WireOf(c, t, p).Some? && Decode(WireOf(c, t, p).value) == Eager(p.tag, p.rhandler, p.payload))
  }

  /** No bit of the tag, or of the handler, lies beyond its field. */
  predicate TagInField(tag: bv64, nbits: bv32)
    requires nbits <= 31
  {
    tag >> nbits == 0
  }

  predicate HandlerInField(rhandler: bv32, nbits: bv32)
    requires nbits <= 31
  {
    rhandler >> nbits == 0
  }

  /** No handler is called at the receiver, or tag and handler lie within their fields of the word. */
  predicate InWord(c: Config, p: Post)
    requires Accepted(c)
  {
    p.rhandler == 0 || (TagInField(p.tag, c.nbitsTag) && HandlerInField(p.rhandler, c.nbitsRcomp))
  }

  lemma FitsMeansInField(c: Config, p: Post)
    requires Accepted(c) && FitsImmediate(c, p)
    ensures TagInField(p.tag, c.nbitsTag) && HandlerInField(p.rhandler, c.nbitsRcomp)
  {
  }

  lemma InFieldMeansFits(c: Config, p: Post)
    requires Accepted(c) && TagInField(p.tag, c.nbitsTag) && HandlerInField(p.rhandler, c.nbitsRcomp)
    ensures FitsImmediate(c, p)
  {
  }

  lemma NoMetadataInWord(c: Config, p: Post)
    requires Accepted(c) && !NeedsMetadata(c, p)
    ensures InWord(c, p)
  {
    if p.rhandler != 0 {
      FitsMeansInField(c, p);
    }
  }

  lemma InWordNoMetadata(c: Config, p: Post)
    requires Accepted(c) && InWord(c, p)
    ensures !NeedsMetadata(c, p)
  {
    if p.rhandler != 0 {
      InFieldMeansFits(c, p);
    }
  }

  /** When each protocol is used. Zero copy leaves the buffer to the network, so it must be registered
      and the message must need no trailer; a plain copy is made only of unregistered memory; inject is
      for memory semantics and small messages without trailer; and a message goes by rendezvous exactly
      when it does not fit a packet together with the tag and handler that do not fit the word. */
  lemma ProtocolChoice(c: Config, t: Traits, p: Post)
    requires Accepted(c)
    ensures var protocol, n := ProtocolOf(c, t, p), |p.payload|;
            && (protocol == Rendezvous <==> (if InWord(c, p) then n else n + 12) > t.maxBcopy)
            && (protocol == Inject <==> p.memorySemantic && InWord(c, p) && n <= t.maxInject && n <= t.maxBcopy)
            && (protocol == EagerZcopy ==> !p.mrIsEmpty && InWord(c, p))
            && (protocol == EagerBcopy(false) ==> p.mrIsEmpty && InWord(c, p))
            && (protocol == EagerBcopy(true) <==> !InWord(c, p) && n + 12 <= t.maxBcopy)
  {
    if InWord(c, p) {
      InWordNoMetadata(c, p);
    } else if !NeedsMetadata(c, p) {
      NoMetadataInWord(c, p);
    }
  }

  /** Metadata that does not fit the word is always carried by a packet that has room for it. */
  lemma MetadataIsCarried(c: Config, t: Traits, p: Post)
    requires Accepted(c) && p.rhandler != 0 && ProtocolOf(c, t, p) != Rendezvous
    ensures (ProtocolOf(c, t, p) == EagerBcopy(true)) == !FitsImmediate(c, p)
    ensures WireOf(c, t, p).Some? ==> |WireOf(c, t, p).value.bytes| <= t.maxBcopy
  {
  }

  lemma TrailerRoundTrip(p: Post)
    ensures Decode(Wire(0, p.payload + Trailer(p))) == Eager(p.tag, p.rhandler, p.payload)
  {
    var bytes, n := p.payload + Trailer(p), |p.payload|;
    assert bytes[n..n + 8] == TagBytes(p.tag);
    assert bytes[n + 8..n + 12] == HandlerBytes(p.rhandler);
    assert bytes[..n] == p.payload;
    BytesRoundTrip(p.tag, p.rhandler);
  }

  // the three fields of the fast-path word, one at a time

  lemma FastFlag(c: Config, p: Post)
    requires c.nbitsTag <= 16 && c.nbitsRcomp <= 15 && FitsImmediate(c, p)
    ensures FastImmediate(c, p).Some? && GetBits(FastImmediate(c, p).value, 1, 31) == 1
  {
  }

  lemma FastTag(c: Config, p: Post)
    requires c.nbitsTag <= 16 && c.nbitsRcomp <= 15 && FitsImmediate(c, p)
    ensures FastImmediate(c, p).Some? && GetBits(FastImmediate(c, p).value, 16, 0) as bv64 == p.tag
  {
  }

  lemma FastHandler(c: Config, p: Post)
    requires c.nbitsTag <= 16 && c.nbitsRcomp <= 15 && FitsImmediate(c, p)
    ensures FastImmediate(c, p).Some? && GetBits(FastImmediate(c, p).value, 15, 16) == p.rhandler
  {
  }

  /** What the receiver reads out of the fast-path word. */
  lemma FastRoundTrip(c: Config, p: Post)
    requires c.nbitsTag <= 16 && c.nbitsRcomp <= 15 && FitsImmediate(c, p)
    ensures FastImmediate(c, p).Some?
    ensures Decode(Wire(FastImmediate(c, p).value, p.payload)) == Eager(p.tag, p.rhandler, p.payload)
  {
    FastFlag(c, p);
    FastTag(c, p);
    FastHandler(c, p);
  }

  lemma EagerRoundTrip(c: Config, t: Traits, p: Post)
    requires Accepted(c) && p.rhandler != 0 && ProtocolOf(c, t, p) != Rendezvous
    requires c.nbitsRcomp == 0 || (c.nbitsTag <= 16 && c.nbitsRcomp <= 15)
    ensures RoundTrips(c, t, p)
  {
    MetadataIsCarried(c, t, p);
    if FitsImmediate(c, p) {
      FastRoundTrip(c, p);
    } else {
      TrailerRoundTrip(p);
    }
  }

  /** On the network t, whatever is posted eagerly is recovered. */
  ghost predicate AlwaysRoundTrips(c: Config, t: Traits)
    requires Accepted(c)
  {
    forall p: Post :: p.rhandler != 0 ==> RoundTrips(c, t, p)
  }

  /** The runtime accepts every split of the 31 bits, but the layout of the word is fixed: on every
      network, messages always come through exactly when the tag field has at most 16 bits and the
      handler field at most 15 (or none, and then no handler uses the fast path). */
  lemma RoundTripIff(c: Config, t: Traits)
    requires Accepted(c)
    ensures AlwaysRoundTrips(c, t) <==> c.nbitsRcomp == 0 || (c.nbitsTag <= 16 && c.nbitsRcomp <= 15)
  {
    if c.nbitsRcomp == 0 || (c.nbitsTag <= 16 && c.nbitsRcomp <= 15) {
      forall p: Post | p.rhandler != 0 ensures RoundTrips(c, t, p) {
        if ProtocolOf(c, t, p) != Rendezvous {
          EagerRoundTrip(c, t, p);
        }
      }
    } else {
      WideFieldsFail(c, t);
    }
  }

  /** An empty message whose tag or handler needs the bit just past the fixed field. */
  function TooWide(c: Config): Post {
    if c.nbitsRcomp > 15 then Post(0, 0x8000, [], true, true) else Post(0x1_0000, 1, [], true, true)
  }

  /** It fits the configured fields, is eager on every network, and is not recovered. */
  lemma WideFieldsFail(c: Config, t: Traits)
    requires Accepted(c) && (c.nbitsRcomp > 15 || (c.nbitsTag > 16 && c.nbitsRcomp > 0))
    ensures FitsImmediate(c, TooWide(c)) && ProtocolOf(c, t, TooWide(c)) != Rendezvous
    ensures !RoundTrips(c, t, TooWide(c))
  {
    WideWord(c);
  }

  lemma WideWord(c: Config)
    requires Accepted(c) && (c.nbitsRcomp > 15 || (c.nbitsTag > 16 && c.nbitsRcomp > 0))
    ensures FitsImmediate(c, TooWide(c))
    ensures FastImmediate(c, TooWide(c)).Some? ==>
              var w := FastImmediate(c, TooWide(c)).value;
              if c.nbitsRcomp > 15 then GetBits(w, 15, 16) == 0 else GetBits(w, 16, 0) == 0
    ensures FastImmediate(c, TooWide(c)).Some? ==> GetBits(FastImmediate(c, TooWide(c)).value, 1, 31) == 1
  {
  }

  // ------------------------------------------------------- kinds

  /** The immediates of the rendezvous messages (rendezvous.hpp, communicate.cpp). */
  function ControlImmediate(kind: bv32): bv32
    requires kind <= 3
  {
    SetBits(0, kind, 2, 29)
  }

  /** The immediate of the last write of a rendezvous in writeimm mode: FIN and the archive tag. */
  function FinImmediate(tag: bv32, tagBits: bv32): bv32
    requires 0 < tagBits <= 16 && tag <= Mask(tagBits)
  {
    SetBits(ControlImmediate(FIN), tag, tagBits, 0)
  }

  /** The words of the control messages decode as what they are, whatever follows. */
  lemma ControlKinds(bytes: Bytes)
    ensures Decode(Wire(ControlImmediate(RTS), bytes)) == RtsMessage
    ensures Decode(Wire(ControlImmediate(RTR), bytes)) == RtrMessage
    ensures Decode(Wire(ControlImmediate(FIN), bytes)) == FinMessage
  {
  }

  /** The archive tag survives next to the FIN kind, and the word is not a fast-path word. */
  lemma FinCarriesTag(tag: bv32, tagBits: bv32)
    requires 0 < tagBits <= 16 && tag <= Mask(tagBits)
    ensures GetBits(FinImmediate(tag, tagBits), 1, 31) == 0
    ensures GetBits(FinImmediate(tag, tagBits), 2, 29) == FIN
    ensures GetBits(FinImmediate(tag, tagBits), tagBits, 0) == tag
  {
  }
}
