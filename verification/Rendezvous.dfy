/** The rendezvous protocol (src/core/rendezvous.hpp, src/core/progress.cpp): RTS, RTR, the chunked
    writes, and the completion by FIN message or by write-with-immediate through the tag archive
    (src/data_structure/imm_tag_archive.hpp). Any number of transfers to one receiver run at once. */
module Rendezvous {
  import opened Options
  import opened EagerEncoding
  import opened Modular

  // ------------------------------------------------------- the chunk loop

  datatype Chunk = Chunk(offset: nat, length: nat)

  /** The chunks follow each other without gap or overlap from `from` to `size`; none is empty. */
  predicate TilesFrom(chunks: seq<Chunk>, from: nat, size: nat) {
    if chunks == [] then from == size
    else chunks[0].offset == from && chunks[0].length > 0 && TilesFrom(chunks[1..], from + chunks[0].length, size)
  }

  lemma {:induction false} TilesSnoc(chunks: seq<Chunk>, from: nat, mid: nat, c: Chunk)
    requires TilesFrom(chunks, from, mid) && c.offset == mid && c.length > 0
    ensures TilesFrom(chunks + [c], from, mid + c.length)
    decreases |chunks|
  {
    if chunks == [] {
      assert (chunks + [c])[1..] == [];
    } else {
      TilesSnoc(chunks[1..], from + chunks[0].length, mid, c);
      assert (chunks + [c])[1..] == chunks[1..] + [c];
    }
  }

  predicate Covers(c: Chunk, b: nat) {
    c.offset <= b < c.offset + c.length
  }

  /** Chunks stay inside the buffer. */
  lemma {:induction false} TilesInside(chunks: seq<Chunk>, from: nat, size: nat)
    requires TilesFrom(chunks, from, size)
    ensures from <= size
    ensures forall k :: 0 <= k < |chunks| ==> from <= chunks[k].offset && chunks[k].offset + chunks[k].length <= size
    decreases |chunks|
  {
    if chunks != [] {
      var rest := chunks[1..];
      TilesInside(rest, from + chunks[0].length, size);
      forall k | 0 <= k < |chunks| ensures from <= chunks[k].offset && chunks[k].offset + chunks[k].length <= size {
        if k > 0 {
          assert chunks[k] == rest[k - 1];
        }
      }
    }
  }

  /** Every byte lies in a chunk. */
  lemma {:induction false} TilesCover(chunks: seq<Chunk>, from: nat, size: nat, b: nat) returns (k: nat)
    requires TilesFrom(chunks, from, size) && from <= b < size
    ensures k < |chunks| && Covers(chunks[k], b)
    decreases |chunks|
  {
    if b < chunks[0].offset + chunks[0].length {
      k := 0;
    } else {
      var k' := TilesCover(chunks[1..], from + chunks[0].length, size, b);
      k := k' + 1;
    }
  }

  /** No byte lies in two chunks. */
  lemma {:induction false} TilesDisjoint(chunks: seq<Chunk>, from: nat, size: nat, j: nat, k: nat)
    requires TilesFrom(chunks, from, size) && j < k < |chunks|
    ensures chunks[j].offset + chunks[j].length <= chunks[k].offset
    decreases |chunks|
  {
    var rest := chunks[1..];
    TilesInside(rest, from + chunks[0].length, size);
    assert chunks[k] == rest[k - 1];
    if j > 0 {
      TilesDisjoint(rest, from + chunks[0].length, size, j - 1, k - 1);
    }
  }

  /** ceil(size / max), counted off one chunk at a time */
  function ChunkCount(size: nat, max: nat): nat
    requires max > 0
  {
    if size == 0 then 0 else if size <= max then 1 else 1 + ChunkCount(size - max, max)
  }

  lemma {:induction false} ChunkCountBounds(size: nat, max: nat)
    requires max > 0 && size > 0
    ensures 0 <= size - 1 - (ChunkCount(size, max) - 1) * max < max
  {
    if size > max {
      ChunkCountBounds(size - max, max);
      assert (ChunkCount(size, max) - 1) * max == (ChunkCount(size - max, max) - 1) * max + max;
    }
  }

  method CeilDiv(size: nat, max: nat) returns (n: nat)
    requires max > 0
    ensures n == ChunkCount(size, max)
  {
    n := (size + max - 1) / max;
    ghost var q := if size == 0 then 0 else ChunkCount(size, max);
    ghost var r := if size == 0 then max - 1 else size - 1 - (ChunkCount(size, max) - 1) * max;
    if size > 0 {
      ChunkCountBounds(size, max);
      assert q * max == (q - 1) * max + max;
    }
    DivUnique(size + max - 1, q, r, max);
  }

  /** The loop of handle_rdv_rtr over a buffer of `size` bytes. immAt is the chunk that is posted
      with immediate data in writeimm mode. */
  method PostChunks(size: nat, max: nat) returns (signalCount: nat, chunks: seq<Chunk>, immAt: set<nat>)
    requires max > 0
    ensures |chunks| == signalCount && TilesFrom(chunks, 0, size)
    ensures forall k :: 0 <= k < |chunks| ==> chunks[k].length <= max
    ensures immAt == if size == 0 then {} else {|chunks| - 1}
  {
    signalCount := CeilDiv(size, max);
    chunks, immAt := [], {};
    var offset := 0;
    ghost var posted := 0;
    while offset < size
      invariant 0 <= posted <= offset && TilesFrom(chunks, 0, posted)
      invariant if offset < size then posted == offset else posted == size
      invariant |chunks| + ChunkCount(size - posted, max) == signalCount
      invariant forall k :: 0 <= k < |chunks| ==> chunks[k].length <= max
      invariant immAt == if posted == size && size > 0 then {|chunks| - 1} else {}
    {
      var length := if size - offset < max then size - offset else max;
      if offset + length >= size {
        immAt := immAt + {|chunks|};
      }
      TilesSnoc(chunks, 0, posted, Chunk(offset, length));
      chunks := chunks + [Chunk(offset, length)];
      posted := posted + length;
      offset := offset + max;
    }
  }

  // ------------------------------------------------------- the tag archive

  /** imm_tag_archive_t used by one thread at a time. */
  class ImmTagArchive {
    const slots: array<Option<nat>>
    var nextSlot: nat

    ghost predicate Valid()
      reads this
    {
      slots.Length > 0
    }

    constructor (size: nat)
      requires size > 0
      ensures Valid() && slots.Length == size && fresh(slots) && forall i :: 0 <= i < size ==> slots[i] == None
    {
      slots := new Option<nat>[size](_ => None);
      nextSlot := 0;
    }

    /** insert: it fails exactly when every slot is taken; otherwise the first free slot at or after
        the starting point, cyclically, becomes the tag. */
    method Insert(value: nat) returns (tag: Option<nat>)
      requires Valid()
      modifies this, slots
      ensures Valid() && nextSlot == old(nextSlot) + 1
      ensures tag.None? <==> forall i :: 0 <= i < slots.Length ==> old(slots[i]).Some?
      ensures tag.None? ==> slots[..] == old(slots[..])
      ensures tag.Some? ==> tag.value < slots.Length && old(slots[tag.value]) == None
                            && slots[..] == old(slots[..])[tag.value := Some(value)]
    {
      var size := slots.Length;
      var start := nextSlot % size;
      nextSlot := nextSlot + 1;
      var i := 0;
      while i < size
        invariant 0 <= i <= size && slots[..] == old(slots[..])
        invariant forall j :: start <= j < size && j < start + i ==> slots[j].Some?
        invariant forall j :: 0 <= j < start + i - size ==> slots[j].Some?
      {
        var idx := if start + i < size then start + i else start + i - size;
        if slots[idx] == None {
          slots[idx] := Some(value);
          return Some(idx);
        }
        i := i + 1;
      }
      tag := None;
    }

    /** remove: what insert stored under the tag; its assertion is the precondition. */
    method Remove(tag: nat) returns (value: nat)
      requires Valid() && tag < slots.Length && slots[tag].Some?
      modifies slots
      ensures old(slots[tag]) == Some(value) && slots[..] == old(slots[..])[tag := None]
    {
      value := slots[tag].value;
      slots[tag] := None;
    }
  }

  // ------------------------------------------------------- the protocol as steps

  /** writeImm: runtime attribute rdv_protocol. slots: capacity of the receiver's archive.
      data[i]: what transfer i sends; chunks[i]: what its chunk loop posts. */
  datatype Params = Params(writeImm: bool, slots: nat, data: seq<Bytes>, chunks: seq<seq<Chunk>>)

  ghost predicate ParamsOk(p: Params) {
    && p.slots > 0 && |p.chunks| == |p.data|
    && forall i :: 0 <= i < |p.data| ==> p.data[i] != [] && TilesFrom(p.chunks[i], 0, |p.data[i]|)
  }

  datatype SenderPhase = Fresh | AwaitingRtr | Writing
  datatype ReceiverPhase = Idle | Probing(start: nat, tried: nat) | Ready(tag: nat) | Exhausted

  /** One transfer. key is recv_ctx_or_key of the RTR it got; posted, landed and done are the chunks
      posted, written to the receive buffer and reported complete at the sender; signalCount is the
      counter in the extended context; the last two fields count completions signalled to the users. */
  datatype Transfer = Transfer(sender: SenderPhase, receiver: ReceiverPhase, key: nat, posted: nat, landed: set<nat>,
                               done: set<nat>, signalCount: int, buffer: Bytes, senderSignals: nat,
                               receiverSignals: nat)

  /** rts, rtr, fins, remoteWrites: messages and remote-write completions in flight. An RTR carries
      the send context and the key, a FIN the receive context, a remote write only its tag. */
  datatype State = State(transfers: seq<Transfer>, rts: set<nat>, rtr: set<(nat, nat)>, fins: multiset<nat>,
                         remoteWrites: multiset<nat>, archive: seq<Option<nat>>, nextSlot: nat)

  datatype Choice =
    | PostRts(i: nat) | HandleRts(i: nat) | Probe(i: nat) | HandleRtr(i: nat, key: nat) | PostChunk(i: nat)
    | Land(i: nat, k: nat) | LocalDone(i: nat, k: nat) | HandleFin(ctx: nat) | HandleRemoteWrite(tag: nat)

  predicate Shaped(p: Params, s: State) {
    && |s.transfers| == |p.data| == |p.chunks|
    && |s.archive| == p.slots > 0
    && (forall i :: 0 <= i < |p.data| ==> |s.transfers[i].buffer| == |p.data[i]|)
  }

  function SlotOf(start: nat, tried: nat, size: nat): nat {
    if start + tried < size then start + tried else if start + tried < 2 * size then start + tried - size else 0
  }

  predicate Enabled(p: Params, s: State, c: Choice)
    requires Shaped(p, s)
  {
    match c
    case PostRts(i) => i < |p.data| && s.transfers[i].sender == Fresh
    case HandleRts(i) => i < |p.data| && i in s.rts
    case Probe(i) => i < |p.data| && s.transfers[i].receiver.Probing?
    case HandleRtr(i, key) => i < |p.data| && (i, key) in s.rtr
    case PostChunk(i) => i < |p.data| && s.transfers[i].sender == Writing && s.transfers[i].posted < |p.chunks[i]|
    case Land(i, k) =>
      // with immediate data, the network applies the writes of one transfer in order
      && i < |p.data| && k < s.transfers[i].posted <= |p.chunks[i]| && k !in s.transfers[i].landed
      && p.chunks[i][k].offset + p.chunks[i][k].length <= |p.data[i]|
      && (p.writeImm ==> forall j :: 0 <= j < k ==> j in s.transfers[i].landed)
    case LocalDone(i, k) =>
      // a put is reported complete after its bytes have arrived
      i < |p.data| && s.transfers[i].sender == Writing && k in s.transfers[i].landed && k !in s.transfers[i].done
    case HandleFin(ctx) => ctx < |p.data| && s.fins[ctx] > 0
    case HandleRemoteWrite(tag) => tag < p.slots && s.remoteWrites[tag] > 0
  }

  function Splice(buffer: Bytes, data: Bytes, c: Chunk): (r: Bytes)
    requires |buffer| == |data| && c.offset + c.length <= |data|
    ensures |r| == |buffer|
  {
    buffer[..c.offset] + data[c.offset..c.offset + c.length] + buffer[c.offset + c.length..]
  }

  function SetTransfer(s: State, i: nat, t: Transfer): State
    requires i < |s.transfers|
  {
    s.(transfers := s.transfers[i := t])
  }

  /** handle_rdv_rts_common up to the archive insertion */
  function DoHandleRts(p: Params, s: State, i: nat): (s': State)
    requires Shaped(p, s) && i < |p.data|
    ensures Shaped(p, s')
  {
    var t := s.transfers[i];
    var s := s.(rts := s.rts - {i});
    if p.writeImm then
      SetTransfer(s.(nextSlot := if s.nextSlot + 1 == p.slots then 0 else s.nextSlot + 1), i,
                  t.(receiver := Probing(s.nextSlot, 0)))
    else
      SetTransfer(s.(rtr := s.rtr + {(i, i)}), i, t.(receiver := Ready(0)))
  }

  /** One compare-exchange of the archive's insert, and the RTR when it succeeds. */
  function DoProbe(p: Params, s: State, i: nat): (s': State)
    requires Shaped(p, s) && i < |p.data| && s.transfers[i].receiver.Probing?
    ensures Shaped(p, s')
  {
    var t := s.transfers[i];
    var Probing(start, tried) := t.receiver;
    var idx := SlotOf(start, tried, p.slots);
    if idx < p.slots && s.archive[idx] == None then
      SetTransfer(s.(archive := s.archive[idx := Some(i)], rtr := s.rtr + {(i, idx)}), i, t.(receiver := Ready(idx)))
    else
      SetTransfer(s, i, t.(receiver := if tried + 1 < p.slots then Probing(start, tried + 1) else Exhausted))
  }

  /** A write arrives; the last one of a transfer in writeimm mode also raises a completion that
      carries the tag it was posted with. */
  function DoLand(p: Params, s: State, i: nat, k: nat): (s': State)
    requires Shaped(p, s) && Enabled(p, s, Land(i, k))
    ensures Shaped(p, s')
  {
    var t := s.transfers[i];
    var s := if p.writeImm && k == |p.chunks[i]| - 1 then s.(remoteWrites := s.remoteWrites + multiset{t.key}) else s;
    SetTransfer(s, i, t.(landed := t.landed + {k}, buffer := Splice(t.buffer, p.data[i], p.chunks[i][k])))
  }

  /** progress_write on an extended context: the last completion sends FIN in write mode and signals
      the sender. */
  function DoLocalDone(p: Params, s: State, i: nat, k: nat): (s': State)
    requires Shaped(p, s) && i < |p.data|
    ensures Shaped(p, s')
  {
    var t := s.transfers[i].(done := s.transfers[i].done + {k}, signalCount := s.transfers[i].signalCount - 1);
    if t.signalCount > 0 then SetTransfer(s, i, t)
    else
      var s := if p.writeImm then s else s.(fins := s.fins + multiset{t.key});
      SetTransfer(s, i, t.(senderSignals := t.senderSignals + 1))
  }

  /** handle_rdv_remote_comp */
  function Signal(s: State, i: nat): State
    requires i < |s.transfers|
  {
    SetTransfer(s, i, s.transfers[i].(receiverSignals := s.transfers[i].receiverSignals + 1))
  }

  /** progress_remote_write: archive.remove gives the context back; an empty slot would be an
      assertion failure. */
  function DoRemoteWrite(p: Params, s: State, tag: nat): (s': State)
    requires Shaped(p, s) && tag < p.slots
    ensures Shaped(p, s')
  {
    match s.archive[tag]
    case Some(i) =>
      if i < |p.data| then
        Signal(s.(remoteWrites := s.remoteWrites - multiset{tag}, archive := s.archive[tag := None]), i)
      else s
    case None => s
  }

  /** handle_rdv_rtr up to its loop */
  function DoHandleRtr(p: Params, s: State, i: nat, key: nat): (s': State)
    requires Shaped(p, s) && i < |p.data|
    ensures Shaped(p, s')
  {
    SetTransfer(s.(rtr := s.rtr - {(i, key)}), i,
                s.transfers[i].(sender := Writing, key := key, posted := 0, signalCount := |p.chunks[i]|))
  }

  function Step(p: Params, s: State, c: Choice): (s': State)
    requires Shaped(p, s)
    ensures Shaped(p, s')
  {
    if !Enabled(p, s, c) then s else
      match c
      case PostRts(i) => SetTransfer(s.(rts := s.rts + {i}), i, s.transfers[i].(sender := AwaitingRtr))
      case HandleRts(i) => DoHandleRts(p, s, i)
      case Probe(i) => DoProbe(p, s, i)
      case HandleRtr(i, key) => DoHandleRtr(p, s, i, key)
      case PostChunk(i) => SetTransfer(s, i, s.transfers[i].(posted := s.transfers[i].posted + 1))
      case Land(i, k) => DoLand(p, s, i, k)
      case LocalDone(i, k) => DoLocalDone(p, s, i, k)
      case HandleFin(ctx) => Signal(s.(fins := s.fins - multiset{ctx}), ctx)
      case HandleRemoteWrite(tag) => DoRemoteWrite(p, s, tag)
  }

  ghost predicate Initial(p: Params, s: State) {
    && Shaped(p, s)
    && (forall i :: 0 <= i < |p.data| ==>
          s.transfers[i] == Transfer(Fresh, Idle, 0, 0, {}, {}, 0, s.transfers[i].buffer, 0, 0))
    && s.rts == {} && s.rtr == {} && s.fins == multiset{} && s.remoteWrites == multiset{}
    && (forall t :: 0 <= t < p.slots ==> s.archive[t] == None) && s.nextSlot == 0
  }

  ghost function Exec(p: Params, s0: State, trace: seq<Choice>): (s: State)
    requires Initial(p, s0)
    ensures Shaped(p, s)
  {
    if trace == [] then s0 else Step(p, Exec(p, s0, trace[..|trace| - 1]), trace[|trace| - 1])
  }
}
