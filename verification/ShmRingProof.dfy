/** Safety of the shared-memory ring over every interleaving. */
module ShmRingProof {
  import opened ShmRing
  import opened Modular

  // ------------------------------------------------------------- invariant

  ghost predicate Counters(s: Mem) {
    s.initial <= s.consumer <= s.producer <= MAXIMUM_POSITION
  }

  ghost predicate PhasesOk(s: Mem) {
    && (forall p :: p in s.phase <==> s.initial <= p < s.producer)
    && (forall p :: p in s.sent <==> s.initial <= p < s.producer)
    && (forall p :: p in s.phase ==> (p < s.consumer <==> !s.phase[p].Reserved? && !s.phase[p].Ready?))
    && (forall p :: p in s.phase && p + s.n < s.producer ==> s.phase[p].Released?)
    && (forall p :: p in s.sent ==> SendArgumentsOk(s, s.sent[p].rank, s.sent[p].data))
  }

  /** The slot of `pos` is free for `pos`. */
  ghost predicate Free(s: Mem, pos: nat) {
    pos < s.n || pos - s.n !in s.phase || s.phase[pos - s.n].Released?
  }

  /** The word that the next position `q` of a slot must find there. */
  ghost function ExpectedWord(s: Mem, q: nat): nat {
    if Free(s, q) then
      if q <= MAXIMUM_POSITION || q < s.n then EncodeSequence(q, Reusable) else EncodeSequence(q - s.n, Published)
    else EncodeSequence(q - s.n, if s.phase[q - s.n].Reserved? then Reusable else Published)
  }

  ghost predicate WordOk(s: Mem, q: nat)
    requires s.n > 0 && |s.slots| == s.n
  {
    At(s, q).sequence == ExpectedWord(s, q)
  }

  ghost predicate WordsOk(s: Mem)
    requires s.n > 0 && |s.slots| == s.n
  {
    forall q: nat :: s.producer <= q < s.producer + s.n ==> WordOk(s, q)
  }

  ghost predicate Holds(slot: Slot, m: Msg) {
    && slot.size == |m.data| && slot.imm == m.imm && slot.rank == m.rank
    && |m.data| <= |slot.bytes| && slot.bytes[..|m.data|] == m.data
  }

  /** Published and not yet released positions still hold exactly what was sent. */
  ghost predicate DataOk(s: Mem)
    requires s.n > 0 && |s.slots| == s.n
  {
    forall p :: p in s.phase && p in s.sent && !s.phase[p].Reserved? && !s.phase[p].Released? ==>
      Holds(At(s, p), s.sent[p])
  }

  ghost predicate Matches(v: View, m: Msg, n: nat)
    requires n > 0
  {
    v.rank == m.rank && v.imm == m.imm && v.size == |m.data| && v.slot == SlotAt(n, v.position)
  }

  ghost predicate ViewOk(s: Mem, i: nat, v: View)
    requires s.n > 0
  {
    Owns(s, v.position, Viewed(i)) && Matches(v, s.sent[v.position], s.n)
  }

  ghost predicate ViewsOk(s: Mem)
    requires s.n > 0
  {
    && (forall i :: i in s.views ==> ViewOk(s, i, s.views[i]))
    && (forall p :: p in s.phase && s.phase[p].Viewed? ==>
          s.phase[p].vid in s.views && s.views[s.phase[p].vid].position == p)
  }

  ghost predicate Owns(s: Mem, pos: nat, ph: Phase) {
    pos in s.phase && pos in s.sent && s.phase[pos] == ph
  }

  /** What a thread may rely on at each program point. */
  ghost predicate PcOk(s: Mem, t: nat, pc: Pc)
    requires s.n > 0 && |s.slots| == s.n
  {
    match pc
    case Idle => true
    case ResLoad(m, _) => SendArgumentsOk(s, m.rank, m.data)
    case ResSeq(m, _, pos) =>
      SendArgumentsOk(s, m.rank, m.data) && s.initial <= pos <= s.producer && pos < MAXIMUM_POSITION
    case ResRecheck(m, _, pos, word) =>
      && SendArgumentsOk(s, m.rank, m.data) && s.initial <= pos <= s.producer && pos < MAXIMUM_POSITION
      && (s.producer == pos ==> IsPreviousGeneration(s.n, word, pos))
    case ResCas(m, _, pos) =>
      && SendArgumentsOk(s, m.rank, m.data) && s.initial <= pos <= s.producer && pos < MAXIMUM_POSITION
      && (s.producer == pos ==> Free(s, pos))
    case PubCheck(m, pos) => Owns(s, pos, Reserved(t)) && s.sent[pos] == m
    case PubSize(m, pos) => Owns(s, pos, Reserved(t)) && s.sent[pos] == m
    case PubImm(m, pos) => Owns(s, pos, Reserved(t)) && s.sent[pos] == m && At(s, pos).size == |m.data|
    case PubRank(m, pos) =>
      && Owns(s, pos, Reserved(t)) && s.sent[pos] == m
      && At(s, pos).size == |m.data| && At(s, pos).imm == m.imm
    case PubCopy(m, pos, k) =>
      && Owns(s, pos, Reserved(t)) && s.sent[pos] == m
      && At(s, pos).size == |m.data| && At(s, pos).imm == m.imm && At(s, pos).rank == m.rank
      && k <= |m.data| && k <= |At(s, pos).bytes| && At(s, pos).bytes[..k] == m.data[..k]
    case PubStore(m, pos) => Owns(s, pos, Reserved(t)) && s.sent[pos] == m && Holds(At(s, pos), m)
    case PollLoad(_) => true
    case PollSeq(_, pos) => s.initial <= pos <= s.consumer
    case PollRecheck(_, pos, word) =>
      && s.initial <= pos <= s.consumer
      && (s.consumer == pos ==>
            word == EncodeSequence(pos, Reusable) || (s.n <= pos && word == EncodeSequence(pos - s.n, Published)))
    case PollCas(_, pos) =>
      s.initial <= pos <= s.consumer && (s.consumer == pos ==> Owns(s, pos, Ready))
    case PollMeta(pos) => Owns(s, pos, Claiming(t))
    case PollOut(pos) => Owns(s, pos, Claiming(t))
    case RelLoad(v) => Owns(s, v.position, Releasing(t)) && Matches(v, s.sent[v.position], s.n)
    case RelStore(v) => Owns(s, v.position, Releasing(t)) && Matches(v, s.sent[v.position], s.n)
    case AvailLoad => true
    case AvailProducer(c) => c <= s.consumer
    case Ret(o) => OutcomeOk(s, o)
  }

  /** The consistency exits are not taken; `fatal` from a reservation only at the last position. */
  ghost predicate OutcomeOk(s: Mem, o: Outcome) {
    && !o.FatalSequence? && !o.ThrowPublish? && !o.ThrowSequence? && !o.ThrowMetadata? && !o.ThrowRelease?
    && (o.FatalPosition? ==> s.producer == MAXIMUM_POSITION)
  }

  ghost predicate HasBeenDelivered(ph: Phase) { ph.Viewed? || ph.Releasing? || ph.Released? }

  ghost predicate IsDelivered(s: Mem, d: Delivery) {
    d.position in s.phase && d.position in s.sent && HasBeenDelivered(s.phase[d.position])
    && d.msg == s.sent[d.position]
  }

  /** Claims follow the positions in order; what was sent at a position is delivered exactly
      once from there on, and nothing else ever is. */
  ghost predicate HistoryOk(s: Mem) {
    && |s.claims| == s.consumer - s.initial
    && (forall i :: 0 <= i < |s.claims| ==> s.claims[i] == s.initial + i)
    && (forall d :: s.delivered[d] == if IsDelivered(s, d) then 1 else 0)
  }

  ghost predicate Core(s: Mem) {
    Geometry(s) && Counters(s) && PhasesOk(s) && WordsOk(s)
  }

  ghost predicate Shared(s: Mem) {
    Core(s) && DataOk(s) && ViewsOk(s) && HistoryOk(s)
  }

  ghost predicate Inv(s: State) {
    Shared(s.mem) && forall t :: 0 <= t < |s.threads| ==> PcOk(s.mem, t, s.threads[t])
  }

  // ---------------------------------------------------------- initial state

  /** initialize_at gives slot i the first position at or after `initial` that maps to it:
      (i - initial_slot) & mask is the distance to it. */
  function InitialPosition(n: nat, initial: nat, i: nat): nat
    requires n > 0 && i < n
  {
    initial + (i - initial % n) % n
  }

  ghost predicate Init(s: State) {
    && Geometry(s.mem)
    && s.mem.producer == s.mem.initial && s.mem.consumer == s.mem.initial
    && (forall i :: 0 <= i < s.mem.n ==>
          s.mem.slots[i].sequence == EncodeSequence(InitialPosition(s.mem.n, s.mem.initial, i), Reusable))
    && (forall t :: 0 <= t < |s.threads| ==> s.threads[t] == Idle)
    && s.mem.views == map[] && s.mem.phase == map[] && s.mem.sent == map[]
    && s.mem.claims == [] && s.mem.delivered == multiset{}
  }

  lemma {:induction false} SlotAtMod(n: nat, p: nat)
    requires n > 0
    ensures SlotAt(n, p) == p % n
    decreases p
  {
    if p < n { SmallMod(p, n); } else { SlotAtMod(n, p - n); AddModulus(p - n, n); }
  }

  /** Two positions less than a generation apart use different slots. */
  lemma SlotsDistinct(n: nat, p: nat, q: nat)
    requires n > 0 && p != q && p < q + n && q < p + n
    ensures SlotAt(n, p) != SlotAt(n, q)
  {
    SlotAtMod(n, p);
    SlotAtMod(n, q);
    ModDistinctAny(p, q, n);
  }

  lemma InitialPositionSound(n: nat, initial: nat, q: nat)
    requires n > 0 && initial <= q < initial + n
    ensures InitialPosition(n, initial, SlotAt(n, q)) == q
  {
    var d := q - initial;
    SlotAtMod(n, q);
    AddMod(initial, d, n);
    SmallMod(d, n);
    AddModulus(d - n, n);
  }

  /** initialize_at: afterwards the slot of each of the next n positions carries exactly that
      position, marked reusable; payload bytes are left as they were. */
  method InitializeAt(region: array<Slot>, initial: nat)
    requires 1 <= region.Length <= MAXIMUM_POSITION && initial <= MAXIMUM_POSITION - (region.Length - 1)
    modifies region
    ensures forall q: nat :: initial <= q < initial + region.Length ==>
              region[SlotAt(region.Length, q)].sequence == EncodeSequence(q, Reusable)
    ensures forall i :: 0 <= i < region.Length ==>
              region[i] == Slot(region[i].sequence, 0, 0, -1, old(region[i].bytes))
  {
    var n := region.Length;
    var initialSlot := initial % n;
    for i := 0 to n
      invariant forall j :: 0 <= j < i ==>
                  region[j] == Slot(EncodeSequence(InitialPosition(n, initial, j), Reusable), 0, 0, -1,
                                    old(region[j].bytes))
      invariant forall j :: i <= j < n ==> region[j] == old(region[j])
    {
      var delta := (i - initialSlot) % n;
      region[i] := Slot(EncodeSequence(initial + delta, Reusable), 0, 0, -1, region[i].bytes);
    }
    forall q: nat | initial <= q < initial + n
      ensures region[SlotAt(n, q)].sequence == EncodeSequence(q, Reusable) {
      InitialPositionSound(n, initial, q);
    }
  }

  lemma InitInv(s: State)
    requires Init(s)
    ensures Inv(s)
  {
    forall q: nat | s.mem.producer <= q < s.mem.producer + s.mem.n ensures WordOk(s.mem, q) {
      InitialPositionSound(s.mem.n, s.mem.initial, q);
    }
  }

  // ------------------------------------------------------------ consequences

  /** Two positions in use never share a slot. */
  lemma LivePositionsDistinct(s: Mem, p: nat, q: nat)
    requires Core(s)
    requires p in s.phase && q in s.phase && p != q
    requires !s.phase[p].Released? && !s.phase[q].Released?
    ensures SlotAt(s.n, p) != SlotAt(s.n, q)
  {
    SlotsDistinct(s.n, p, q);
  }

  /** The word in the slot of a live position tells published from reserved. */
  lemma LiveWord(s: Mem, p: nat)
    requires Core(s) && p in s.phase && !s.phase[p].Released?
    ensures At(s, p).sequence == EncodeSequence(p, if s.phase[p].Reserved? then Reusable else Published)
  {
    assert SlotAt(s.n, p + s.n) == SlotAt(s.n, p);
    assert WordOk(s, p + s.n);
  }

  // ---------------------------------------------- steps without shared effect

  lemma ReserveQuiet(s: Mem, t: nat, pc: Pc, spurious: bool)
    requires Core(s) && PcOk(s, t, pc) && !(pc.ResCas? && s.producer == pc.pos && !spurious)
    ensures var r := StepReserve(s, t, pc, spurious); r.0 == s && PcOk(s, t, r.1)
  {
    if pc.ResSeq? && s.producer == pc.pos { assert WordOk(s, pc.pos); }
  }

  lemma PublishQuiet(s: Mem, t: nat, pc: Pc)
    requires Core(s) && PcOk(s, t, pc) && (pc.PubCheck? || (pc.PubCopy? && |pc.m.data| <= pc.k))
    ensures var r := StepPublish(s, pc); r.0 == s && PcOk(s, t, r.1)
  {
    if pc.PubCheck? { LiveWord(s, pc.pos); }
  }

  lemma PollQuiet(s: Mem, t: nat, pc: Pc, spurious: bool, vid: nat)
    requires Core(s) && DataOk(s) && PcOk(s, t, pc)
    requires !(pc.PollCas? && s.consumer == pc.pos && !spurious) && !(pc.PollOut? && vid !in s.views)
    ensures var r := StepPoll(s, t, pc, spurious, vid); r.0 == s && PcOk(s, t, r.1)
  {
    if pc.PollSeq? && s.consumer == pc.pos {
      if pc.pos < s.producer { LiveWord(s, pc.pos); } else { assert WordOk(s, pc.pos); }
    }
  }

  lemma ReleaseQuiet(s: Mem, t: nat, pc: Pc)
    requires Core(s) && PcOk(s, t, pc) && !pc.RelStore?
    ensures var r := StepRelease(s, pc); r.0 == s && PcOk(s, t, r.1)
  {
    if pc.RelLoad? { LiveWord(s, pc.view.position); }
  }

  // -------------------------------------------------------- CAS on the producer

  lemma ReserveCore(s: Mem, t: nat, m: Msg, pos: nat)
    requires Core(s) && PcOk(s, t, ResCas(m, 0, pos)) && s.producer == pos
    ensures Core(Reserve(s, t, m, pos))
  {
    ReserveWords(s, t, m, pos);
  }

  lemma ReserveWords(s: Mem, t: nat, m: Msg, pos: nat)
    requires s.n > 0 && |s.slots| == s.n && WordsOk(s) && s.producer == pos <= MAXIMUM_POSITION && Free(s, pos)
    ensures WordsOk(Reserve(s, t, m, pos))
  {
    var s' := Reserve(s, t, m, pos);
    forall q: nat | s'.producer <= q < s'.producer + s'.n ensures WordOk(s', q) {
      assert SlotAt(s.n, pos + s.n) == SlotAt(s.n, pos);
      assert WordOk(s, if q == pos + s.n then pos else q);
    }
  }

  lemma ReserveData(s: Mem, t: nat, m: Msg, pos: nat)
    requires s.n > 0 && |s.slots| == s.n && PhasesOk(s) && s.producer == pos && DataOk(s) && ViewsOk(s)
    ensures var s' := Reserve(s, t, m, pos); DataOk(s') && ViewsOk(s')
  {
    ReserveKeepsData(s, t, m, pos);
    ReserveKeepsViews(s, t, m, pos);
  }

  lemma ReserveKeepsData(s: Mem, t: nat, m: Msg, pos: nat)
    requires s.n > 0 && |s.slots| == s.n && DataOk(s)
    ensures DataOk(Reserve(s, t, m, pos))
  {
    var s' := Reserve(s, t, m, pos);
    forall p | p in s'.phase && p in s'.sent && !s'.phase[p].Reserved? && !s'.phase[p].Released?
      ensures Holds(At(s', p), s'.sent[p]) {
      assert p in s.phase && p in s.sent && s'.phase[p] == s.phase[p] && s'.sent[p] == s.sent[p];
    }
  }

  lemma ReserveKeepsViews(s: Mem, t: nat, m: Msg, pos: nat)
    requires s.n > 0 && pos !in s.phase && ViewsOk(s)
    ensures ViewsOk(Reserve(s, t, m, pos))
  {
    var s' := Reserve(s, t, m, pos);
    forall i | i in s'.views ensures ViewOk(s', i, s'.views[i]) {
      assert ViewOk(s, i, s.views[i]);
    }
  }

  lemma ReserveHistory(s: Mem, t: nat, m: Msg, pos: nat)
    requires PhasesOk(s) && s.producer == pos && HistoryOk(s)
    ensures HistoryOk(Reserve(s, t, m, pos))
  {
    SameDeliveries(s, Reserve(s, t, m, pos));
  }

  /** Changes that deliver nothing and keep the claims keep the history. */
  lemma SameDeliveries(s: Mem, s': Mem)
    requires HistoryOk(s) && s'.claims == s.claims && s'.consumer == s.consumer && s'.initial == s.initial
    requires s'.delivered == s.delivered
    requires forall d :: IsDelivered(s', d) <==> IsDelivered(s, d)
    ensures HistoryOk(s')
  {
  }

  lemma ReserveStable(s: Mem, t: nat, m: Msg, pos: nat, u: nat, pc: Pc)
    requires Core(s) && s.producer == pos < MAXIMUM_POSITION && PcOk(s, u, pc) && u != t
    ensures PcOk(Reserve(s, t, m, pos), u, pc)
  {
  }

  // -------------------------------------------------------- writes by a publisher

  /** Writing fields of the slot of a reserved position, word untouched. */
  lemma WriteShared(s: Mem, p: nat, slot: Slot)
    requires Shared(s) && p in s.phase && s.phase[p].Reserved?
    requires slot.sequence == At(s, p).sequence && |slot.bytes| == s.cap
    ensures Shared(Put(s, p, slot))
  {
    var s' := Put(s, p, slot);
    forall q: nat | s'.producer <= q < s'.producer + s'.n ensures WordOk(s', q) {
      assert WordOk(s, q);
    }
    forall q | q in s'.phase && q in s'.sent && !s'.phase[q].Reserved? && !s'.phase[q].Released?
      ensures Holds(At(s', q), s'.sent[q]) {
      LivePositionsDistinct(s, p, q);
    }
  }

  /** No other thread's program point depends on the slot of a reserved position. */
  lemma WriteStable(s: Mem, t: nat, p: nat, slot: Slot, u: nat, pc: Pc)
    requires Core(s) && Owns(s, p, Reserved(t)) && PcOk(s, u, pc) && u != t
    ensures PcOk(Put(s, p, slot), u, pc)
  {
    if pc.PubImm? || pc.PubRank? || pc.PubCopy? || pc.PubStore? {
      LivePositionsDistinct(s, p, pc.pos);
    }
  }

  // ------------------------------------------- word stores (publish and release)

  lemma StoreCore(s: Mem, p: nat, word: nat, ph: Phase)
    requires Core(s) && p in s.phase && !s.phase[p].Released?
    requires ph.Reserved? || ph.Ready? <==> p >= s.consumer
    requires word == ExpectedWord(s.(phase := s.phase[p := ph]), p + s.n)
    requires p + s.n < s.producer ==> ph.Released?
    ensures Core(StoreWord(s, p, word, ph))
  {
    StoreWords(s, p, word, ph);
  }

  lemma StoreWords(s: Mem, p: nat, word: nat, ph: Phase)
    requires s.n > 0 && |s.slots| == s.n && WordsOk(s) && p < s.producer <= p + s.n
    requires word == ExpectedWord(s.(phase := s.phase[p := ph]), p + s.n)
    ensures WordsOk(StoreWord(s, p, word, ph))
  {
    var s' := StoreWord(s, p, word, ph);
    assert SlotAt(s.n, p + s.n) == SlotAt(s.n, p);
    forall q: nat | s'.producer <= q < s'.producer + s'.n ensures WordOk(s', q) {
      assert WordOk(s, q);
      if q == p + s.n {
        assert At(s', q).sequence == word;
      } else {
        SlotsDistinct(s.n, p + s.n, q);
        assert At(s', q) == At(s, q);
      }
    }
  }

  /** Every other live position keeps its message when the slot of a live position is rewritten. */
  lemma StoreData(s: Mem, p: nat, word: nat, ph: Phase)
    requires Core(s) && DataOk(s) && p in s.phase && p in s.sent && !s.phase[p].Released?
    requires ph.Released? || Holds(At(s, p), s.sent[p])
    ensures DataOk(StoreWord(s, p, word, ph))
  {
    var s' := StoreWord(s, p, word, ph);
    forall q | q in s'.phase && q in s'.sent && !s'.phase[q].Reserved? && !s'.phase[q].Released?
      ensures Holds(At(s', q), s'.sent[q]) {
      if q != p { LivePositionsDistinct(s, p, q); }
    }
  }

  lemma StoreHistory(s: Mem, p: nat, word: nat, ph: Phase)
    requires s.n > 0 && |s.slots| == s.n && p in s.phase && HistoryOk(s)
    requires HasBeenDelivered(ph) <==> HasBeenDelivered(s.phase[p])
    ensures HistoryOk(StoreWord(s, p, word, ph))
  {
    SameDeliveries(s, StoreWord(s, p, word, ph));
  }

  lemma StoreViews(s: Mem, p: nat, word: nat, ph: Phase)
    requires s.n > 0 && |s.slots| == s.n && ViewsOk(s) && p in s.phase && !ph.Viewed? && !s.phase[p].Viewed?
    ensures ViewsOk(StoreWord(s, p, word, ph))
  {
  }

  lemma StoreRest(s: Mem, p: nat, word: nat, ph: Phase)
    requires Core(s) && DataOk(s) && ViewsOk(s) && HistoryOk(s) && p in s.phase && p in s.sent
    requires !s.phase[p].Released? && !s.phase[p].Viewed? && !ph.Viewed?
    requires HasBeenDelivered(ph) <==> HasBeenDelivered(s.phase[p])
    requires ph.Released? || Holds(At(s, p), s.sent[p])
    ensures var s' := StoreWord(s, p, word, ph); DataOk(s') && ViewsOk(s') && HistoryOk(s')
  {
    StoreData(s, p, word, ph);
    StoreHistory(s, p, word, ph);
    StoreViews(s, p, word, ph);
  }

  lemma StoreReadyStable(s: Mem, t: nat, p: nat, word: nat, u: nat, pc: Pc)
    requires Core(s) && Owns(s, p, Reserved(t)) && PcOk(s, u, pc) && u != t
    ensures PcOk(StoreWord(s, p, word, Ready), u, pc)
  {
    if pc.PubImm? || pc.PubRank? || pc.PubCopy? || pc.PubStore? {
      LivePositionsDistinct(s, p, pc.pos);
    }
  }

  lemma ReleasedStable(s: Mem, t: nat, p: nat, word: nat, u: nat, pc: Pc)
    requires Core(s) && Owns(s, p, Releasing(t)) && PcOk(s, u, pc) && u != t
    ensures PcOk(StoreWord(s, p, word, Released), u, pc)
  {
    if pc.PubImm? || pc.PubRank? || pc.PubCopy? || pc.PubStore? {
      LivePositionsDistinct(s, p, pc.pos);
    }
  }

  /** Skipping the store at the end of the position space is storing the word that is there. */
  lemma SkippedStore(s: Mem, p: nat, ph: Phase)
    requires s.n > 0 && |s.slots| == s.n
    ensures s.(phase := s.phase[p := ph]) == StoreWord(s, p, At(s, p).sequence, ph)
  {
    assert s.slots[SlotAt(s.n, p) := At(s, p)] == s.slots;
  }

  // ------------------------------- changes of ownership of a published position

  /** A published position passes from one holder to the next; no slot changes. */
  lemma HandOverCore(s: Mem, s': Mem, p: nat, ph: Phase)
    requires Core(s) && p in s.phase && p + s.n >= s.producer
    requires !s.phase[p].Reserved? && !s.phase[p].Released?
    requires !ph.Reserved? && !ph.Released? && !ph.Ready?
    requires s' == s.(phase := s.phase[p := ph], consumer := s'.consumer, claims := s'.claims,
                      views := s'.views, delivered := s'.delivered)
    requires s'.consumer == if s.phase[p].Ready? then s.consumer + 1 else s.consumer
    requires s.phase[p].Ready? ==> p == s.consumer
    ensures Core(s')
  {
    forall q: nat | s'.producer <= q < s'.producer + s'.n ensures WordOk(s', q) {
      assert WordOk(s, q);
    }
  }

  lemma ClaimRest(s: Mem, t: nat, p: nat)
    requires Core(s) && DataOk(s) && ViewsOk(s) && HistoryOk(s) && Owns(s, p, Ready) && p == s.consumer
    ensures var s' := Claim(s, t, p); DataOk(s') && ViewsOk(s') && HistoryOk(s')
  {
    ClaimKeepsData(s, t, p);
    ClaimKeepsViews(s, t, p);
    ClaimKeepsHistory(s, t, p);
  }

  lemma ClaimKeepsData(s: Mem, t: nat, p: nat)
    requires s.n > 0 && |s.slots| == s.n && DataOk(s) && Owns(s, p, Ready)
    ensures DataOk(Claim(s, t, p))
  {
    var s' := Claim(s, t, p);
    forall q | q in s'.phase && q in s'.sent && !s'.phase[q].Reserved? && !s'.phase[q].Released?
      ensures Holds(At(s', q), s'.sent[q]) {
      assert !s.phase[q].Reserved? && !s.phase[q].Released?;
    }
  }

  lemma ClaimKeepsViews(s: Mem, t: nat, p: nat)
    requires s.n > 0 && ViewsOk(s) && Owns(s, p, Ready)
    ensures ViewsOk(Claim(s, t, p))
  {
    var s' := Claim(s, t, p);
    forall i | i in s'.views ensures ViewOk(s', i, s'.views[i]) {
      assert ViewOk(s, i, s.views[i]);
    }
  }

  lemma ClaimKeepsHistory(s: Mem, t: nat, p: nat)
    requires HistoryOk(s) && Owns(s, p, Ready) && s.initial <= p == s.consumer
    ensures HistoryOk(Claim(s, t, p))
  {
    var s' := Claim(s, t, p);
    assert forall d :: IsDelivered(s', d) == IsDelivered(s, d);
  }

  lemma ClaimStable(s: Mem, t: nat, p: nat, u: nat, pc: Pc)
    requires Core(s) && Owns(s, p, Ready) && p == s.consumer && PcOk(s, u, pc) && u != t
    ensures PcOk(Claim(s, t, p), u, pc)
  {
  }

  lemma HandOutData(s: Mem, t: nat, p: nat, vid: nat)
    requires Core(s) && DataOk(s) && Owns(s, p, Claiming(t))
    ensures At(s, p).size <= |At(s, p).bytes|
    ensures var s' := HandOut(s, p, vid);
            DataOk(s') && s'.delivered == s.delivered + multiset{Delivery(p, s.sent[p])}
  {
  }

  lemma HandOutViews(s: Mem, t: nat, p: nat, vid: nat)
    requires Core(s) && DataOk(s) && ViewsOk(s) && Owns(s, p, Claiming(t)) && vid !in s.views
    requires At(s, p).size <= |At(s, p).bytes|
    ensures ViewsOk(HandOut(s, p, vid))
  {
    var s' := HandOut(s, p, vid);
    assert Holds(At(s, p), s.sent[p]);
    forall i | i in s'.views ensures ViewOk(s', i, s'.views[i]) {
      assert i != vid ==> ViewOk(s, i, s.views[i]);
    }
  }

  lemma HandOutHistory(s: Mem, t: nat, p: nat, vid: nat)
    requires HistoryOk(s) && Owns(s, p, Claiming(t)) && p in s.sent && s.n > 0 && |s.slots| == s.n
    requires At(s, p).size <= |At(s, p).bytes|
    requires HandOut(s, p, vid).delivered == s.delivered + multiset{Delivery(p, s.sent[p])}
    ensures HistoryOk(HandOut(s, p, vid))
  {
    var s' := HandOut(s, p, vid);
    var d0 := Delivery(p, s.sent[p]);
    forall d ensures s'.delivered[d] == if IsDelivered(s', d) then 1 else 0 {
      assert d != d0 ==> IsDelivered(s', d) == IsDelivered(s, d);
    }
  }

  lemma HandOutRest(s: Mem, t: nat, p: nat, vid: nat)
    requires Core(s) && DataOk(s) && ViewsOk(s) && HistoryOk(s) && Owns(s, p, Claiming(t)) && vid !in s.views
    ensures At(s, p).size <= |At(s, p).bytes|
    ensures var s' := HandOut(s, p, vid); DataOk(s') && ViewsOk(s') && HistoryOk(s')
  {
    HandOutData(s, t, p, vid);
    HandOutViews(s, t, p, vid);
    HandOutHistory(s, t, p, vid);
  }

  lemma HandOutStable(s: Mem, t: nat, p: nat, vid: nat, u: nat, pc: Pc)
    requires Core(s) && DataOk(s) && Owns(s, p, Claiming(t)) && PcOk(s, u, pc) && u != t
    ensures At(s, p).size <= |At(s, p).bytes|
    ensures PcOk(HandOut(s, p, vid), u, pc)
  {
    ViewedStable(s, t, p, vid, u, pc);
  }

  lemma ViewedStable(s: Mem, t: nat, p: nat, vid: nat, u: nat, pc: Pc)
    requires s.n > 0 && |s.slots| == s.n && Owns(s, p, Claiming(t)) && PcOk(s, u, pc) && u != t
    ensures PcOk(s.(phase := s.phase[p := Viewed(vid)]), u, pc)
  {
  }

  lemma TakeBackRest(s: Mem, t: nat, vid: nat)
    requires Core(s) && DataOk(s) && ViewsOk(s) && HistoryOk(s) && vid in s.views
    ensures var s' := TakeBack(s, t, vid); DataOk(s') && ViewsOk(s') && HistoryOk(s')
  {
    var s' := TakeBack(s, t, vid);
    assert ViewOk(s, vid, s.views[vid]);
    assert HistoryOk(s') by { SameDeliveries(s, s'); }
    assert ViewsOk(s') by {
      forall i | i in s'.views ensures ViewOk(s', i, s'.views[i]) { assert ViewOk(s, i, s.views[i]); }
    }
  }

  lemma TakeBackStable(s: Mem, t: nat, vid: nat, u: nat, pc: Pc)
    requires Core(s) && ViewsOk(s) && vid in s.views && PcOk(s, u, pc) && u != t
    ensures PcOk(TakeBack(s, t, vid), u, pc)
  {
    assert ViewOk(s, vid, s.views[vid]);
  }

  // ------------------------------------------------------------ one step

  lemma ReservePreserves(s: Mem, t: nat, pc: Pc, spurious: bool)
    requires Shared(s) && PcOk(s, t, pc)
    ensures var r := StepReserve(s, t, pc, spurious); Shared(r.0) && PcOk(r.0, t, r.1)
  {
    if pc.ResCas? && s.producer == pc.pos && !spurious {
      ReserveCore(s, t, pc.m, pc.pos);
      ReserveData(s, t, pc.m, pc.pos);
      ReserveHistory(s, t, pc.m, pc.pos);
    } else {
      ReserveQuiet(s, t, pc, spurious);
    }
  }

  /** Each plain write of publish extends what its thread knows about the slot. */
  lemma WritePreserves(s: Mem, t: nat, pc: Pc)
    requires Shared(s) && PcOk(s, t, pc)
    requires pc.PubSize? || pc.PubImm? || pc.PubRank? || (pc.PubCopy? && pc.k < |pc.m.data|)
    ensures var r := StepPublish(s, pc); Shared(r.0) && PcOk(r.0, t, r.1)
  {
    var r := StepPublish(s, pc);
    var slot := At(r.0, pc.pos);
    assert |At(s, pc.pos).bytes| == s.cap;
    assert r.0 == Put(s, pc.pos, slot);
    WriteShared(s, pc.pos, slot);
  }

  lemma PublishPreserves(s: Mem, t: nat, pc: Pc)
    requires Shared(s) && PcOk(s, t, pc)
    ensures var r := StepPublish(s, pc); Shared(r.0) && PcOk(r.0, t, r.1)
  {
    if pc.PubStore? {
      StoreCore(s, pc.pos, EncodeSequence(pc.pos, Published), Ready);
      StoreRest(s, pc.pos, EncodeSequence(pc.pos, Published), Ready);
    } else if pc.PubCheck? || (pc.PubCopy? && |pc.m.data| <= pc.k) {
      PublishQuiet(s, t, pc);
    } else if pc.PubSize? || pc.PubImm? || pc.PubRank? || pc.PubCopy? {
      WritePreserves(s, t, pc);
    }
  }

  lemma ClaimPreserves(s: Mem, t: nat, pos: nat)
    requires Shared(s) && PcOk(s, t, PollCas(0, pos)) && s.consumer == pos
    ensures Shared(Claim(s, t, pos)) && PcOk(Claim(s, t, pos), t, PollMeta(pos))
  {
    HandOverCore(s, Claim(s, t, pos), pos, Claiming(t));
    ClaimRest(s, t, pos);
  }

  lemma HandOutPreserves(s: Mem, t: nat, pos: nat, vid: nat)
    requires Shared(s) && PcOk(s, t, PollOut(pos)) && vid !in s.views
    ensures At(s, pos).size <= |At(s, pos).bytes| && Shared(HandOut(s, pos, vid))
  {
    HandOutRest(s, t, pos, vid);
    HandOverCore(s, HandOut(s, pos, vid), pos, Viewed(vid));
  }

  lemma PollClaims(s: Mem, t: nat, pc: Pc, vid: nat)
    requires Shared(s) && PcOk(s, t, pc) && pc.PollCas? && s.consumer == pc.pos
    ensures var r := StepPoll(s, t, pc, false, vid); Shared(r.0) && PcOk(r.0, t, r.1)
  {
    ClaimPreserves(s, t, pc.pos);
  }

  lemma PollHandsOut(s: Mem, t: nat, pc: Pc, spurious: bool, vid: nat)
    requires Shared(s) && PcOk(s, t, pc) && pc.PollOut? && vid !in s.views
    ensures var r := StepPoll(s, t, pc, spurious, vid); Shared(r.0) && PcOk(r.0, t, r.1)
  {
    HandOutPreserves(s, t, pc.pos, vid);
  }

  lemma PollPreserves(s: Mem, t: nat, pc: Pc, spurious: bool, vid: nat)
    requires Shared(s) && PcOk(s, t, pc)
    ensures var r := StepPoll(s, t, pc, spurious, vid); Shared(r.0) && PcOk(r.0, t, r.1)
  {
    if pc.PollCas? && s.consumer == pc.pos && !spurious {
      PollClaims(s, t, pc, vid);
    } else if pc.PollOut? && vid !in s.views {
      PollHandsOut(s, t, pc, spurious, vid);
    } else {
      PollQuiet(s, t, pc, spurious, vid);
    }
  }

  lemma ReleaseStore(s: Mem, t: nat, v: View)
    requires Shared(s) && PcOk(s, t, RelStore(v))
    ensures Shared(StepRelease(s, RelStore(v)).0)
  {
    var p := v.position;
    LiveWord(s, p);
    SkippedStore(s, p, Released);
    var word := if p + s.n <= MAXIMUM_POSITION then EncodeSequence(p + s.n, Reusable) else At(s, p).sequence;
    StoreCore(s, p, word, Released);
    StoreRest(s, p, word, Released);
    ReleaseIsStore(s, v, word);
  }

  lemma ReleaseIsStore(s: Mem, v: View, word: nat)
    requires s.n > 0 && |s.slots| == s.n
    requires v.position + s.n <= MAXIMUM_POSITION ==> word == EncodeSequence(v.position + s.n, Reusable)
    requires v.position + s.n > MAXIMUM_POSITION ==>
             StoreWord(s, v.position, word, Released) == s.(phase := s.phase[v.position := Released])
    ensures StepRelease(s, RelStore(v)).0 == StoreWord(s, v.position, word, Released)
  {
  }

  lemma ReleasePreserves(s: Mem, t: nat, pc: Pc)
    requires Shared(s) && PcOk(s, t, pc)
    ensures var r := StepRelease(s, pc); Shared(r.0) && PcOk(r.0, t, r.1)
  {
    if pc.RelStore? { ReleaseStore(s, t, pc.view); } else { ReleaseQuiet(s, t, pc); }
  }

  lemma CallPreserves(s: Mem, t: nat, c: Choice)
    requires Shared(s)
    ensures var r := Call(s, t, c); Shared(r.0) && PcOk(r.0, t, r.1)
  {
    if c.CallRelease? && c.vid in s.views {
      var v := s.views[c.vid];
      assert ViewOk(s, c.vid, v);
      HandOverCore(s, TakeBack(s, t, c.vid), v.position, Releasing(t));
      TakeBackRest(s, t, c.vid);
    }
  }

  lemma PublishStable(s: Mem, t: nat, pc: Pc, u: nat, pcu: Pc)
    requires Core(s) && PcOk(s, t, pc) && PcOk(s, u, pcu) && u != t
    ensures PcOk(StepPublish(s, pc).0, u, pcu)
  {
    if pc.PubStore? {
      StoreReadyStable(s, t, pc.pos, EncodeSequence(pc.pos, Published), u, pcu);
    } else if StepPublish(s, pc).0 != s {
      WriteStable(s, t, pc.pos, At(StepPublish(s, pc).0, pc.pos), u, pcu);
      assert StepPublish(s, pc).0 == Put(s, pc.pos, At(StepPublish(s, pc).0, pc.pos));
    }
  }

  lemma PollStable(s: Mem, t: nat, pc: Pc, spurious: bool, vid: nat, u: nat, pcu: Pc)
    requires Core(s) && DataOk(s) && PcOk(s, t, pc) && PcOk(s, u, pcu) && u != t
    ensures PcOk(StepPoll(s, t, pc, spurious, vid).0, u, pcu)
  {
    if pc.PollCas? && s.consumer == pc.pos && !spurious {
      ClaimStable(s, t, pc.pos, u, pcu);
    } else if pc.PollOut? && vid !in s.views {
      HandOutStable(s, t, pc.pos, vid, u, pcu);
    } else {
      PollQuiet(s, t, pc, spurious, vid);
    }
  }

  lemma ReleaseStable(s: Mem, t: nat, pc: Pc, u: nat, pcu: Pc)
    requires Core(s) && PcOk(s, t, pc) && PcOk(s, u, pcu) && u != t
    ensures PcOk(StepRelease(s, pc).0, u, pcu)
  {
    if pc.RelStore? {
      var p := pc.view.position;
      SkippedStore(s, p, Released);
      ReleasedStable(s, t, p,
        if p + s.n <= MAXIMUM_POSITION then EncodeSequence(p + s.n, Reusable) else At(s, p).sequence, u, pcu);
    }
  }

  lemma CallStable(s: Mem, t: nat, c: Choice, u: nat, pcu: Pc)
    requires Core(s) && ViewsOk(s) && PcOk(s, u, pcu) && u != t
    ensures PcOk(Call(s, t, c).0, u, pcu)
  {
    if c.CallRelease? && c.vid in s.views { TakeBackStable(s, t, c.vid, u, pcu); }
  }

  lemma ReserveStepStable(s: Mem, t: nat, pc: Pc, spurious: bool, u: nat, pcu: Pc)
    requires Core(s) && PcOk(s, t, pc) && PcOk(s, u, pcu) && u != t
    ensures PcOk(StepReserve(s, t, pc, spurious).0, u, pcu)
  {
    if pc.ResCas? && s.producer == pc.pos && !spurious { ReserveStable(s, t, pc.m, pc.pos, u, pcu); }
  }

  /** The acting thread's step is harmless to every other thread. */
  lemma StepStable(s: Mem, t: nat, pc: Pc, c: Choice, u: nat, pcu: Pc)
    requires Shared(s) && PcOk(s, t, pc) && PcOk(s, u, pcu) && u != t
    ensures PcOk(Step(s, t, pc, c).0, u, pcu)
  {
    if pc.Idle? { CallStable(s, t, c, u, pcu); }
    else if pc.Ret? {}
    else if InReserve(pc) { ReserveStepStable(s, t, pc, c.Go? && c.spurious, u, pcu); }
    else if InPublish(pc) { PublishStable(s, t, pc, u, pcu); }
    else if InPoll(pc) { PollStable(s, t, pc, c.Go? && c.spurious, if c.Go? then c.out else 0, u, pcu); }
    else { ReleaseStable(s, t, pc, u, pcu); }
  }

  lemma StepPreserves(s: Mem, t: nat, pc: Pc, c: Choice)
    requires Shared(s) && PcOk(s, t, pc)
    ensures var r := Step(s, t, pc, c); Shared(r.0) && PcOk(r.0, t, r.1)
  {
    if pc.Idle? { CallPreserves(s, t, c); }
    else if pc.Ret? {}
    else if InReserve(pc) { ReservePreserves(s, t, pc, c.Go? && c.spurious); }
    else if InPublish(pc) { PublishPreserves(s, t, pc); }
    else if InPoll(pc) { PollPreserves(s, t, pc, c.Go? && c.spurious, if c.Go? then c.out else 0); }
    else { ReleasePreserves(s, t, pc); }
  }

  lemma DoPreserves(s: State, t: nat, c: Choice)
    requires Inv(s)
    ensures Inv(Do(s, t, c))
  {
    if t < |s.threads| {
      StepPreserves(s.mem, t, s.threads[t], c);
      var s' := Do(s, t, c);
      forall u | 0 <= u < |s'.threads| ensures PcOk(s'.mem, u, s'.threads[u]) {
        if u != t { StepStable(s.mem, t, s.threads[t], c, u, s.threads[u]); }
      }
    }
  }

  lemma {:induction false} ExecInv(s: State, trace: seq<(nat, Choice)>)
    requires Init(s)
    ensures Inv(Exec(s, trace))
    decreases |trace|
  {
    if trace == [] {
      InitInv(s);
    } else {
      ExecInv(s, trace[..|trace| - 1]);
      DoPreserves(Exec(s, trace[..|trace| - 1]), trace[|trace| - 1].0, trace[|trace| - 1].1);
    }
  }

  // ------------------------------------------------------------ main results

  /** In every reachable state the producer is at most one generation ahead of the consumer,
      and a consistency exit (fatal on a stable head, or one of the four throws) has not been
      taken by any thread; a reservation fails fatally only at the last position. */
  lemma RingStaysConsistent(s0: State, trace: seq<(nat, Choice)>, t: nat)
    requires Init(s0) && t < |Exec(s0, trace).threads|
    ensures var s := Exec(s0, trace).mem;
            s.initial <= s.consumer <= s.producer <= s.consumer + s.n && s.producer <= MAXIMUM_POSITION
    ensures var s := Exec(s0, trace);
            s.threads[t].Ret? ==>
              && s.threads[t].outcome !in {FatalSequence, ThrowPublish, ThrowSequence, ThrowMetadata, ThrowRelease}
              && (s.threads[t].outcome == FatalPosition ==> s.mem.producer == MAXIMUM_POSITION)
  {
    ExecInv(s0, trace);
    var s := Exec(s0, trace);
    assert PcOk(s.mem, t, s.threads[t]);
    OneGeneration(s.mem);
  }

  lemma OneGeneration(s: Mem)
    requires Core(s)
    ensures s.initial <= s.consumer <= s.producer <= s.consumer + s.n && s.producer <= MAXIMUM_POSITION
  {
    assert s.consumer < s.producer ==> s.consumer in s.phase;
  }

  /** Positions that are reserved, published, claimed or being released never share a slot. */
  lemma LiveSlotsDisjoint(s0: State, trace: seq<(nat, Choice)>, p: nat, q: nat)
    requires Init(s0)
    requires var s := Exec(s0, trace).mem;
             p in s.phase && q in s.phase && p != q && !s.phase[p].Released? && !s.phase[q].Released?
    ensures var s := Exec(s0, trace).mem; s.n > 0 && SlotAt(s.n, p) != SlotAt(s.n, q)
  {
    ExecInv(s0, trace);
    LivePositionsDistinct(Exec(s0, trace).mem, p, q);
  }

  lemma DeliveryFacts(s: Mem, d: Delivery, e: Delivery)
    requires Counters(s) && PhasesOk(s) && HistoryOk(s)
    ensures s.delivered[d] <= 1
    ensures d in s.delivered ==> d.position in s.sent && d.position in s.claims && d.msg == s.sent[d.position]
    ensures d in s.delivered && e in s.delivered && d.position == e.position ==> d == e
  {
    assert s.delivered[e] == if IsDelivered(s, e) then 1 else 0;
    if s.delivered[d] == 1 { assert s.claims[d.position - s.initial] == d.position; }
  }

  /** Claims follow the positions in order without gaps; every delivery is exactly the message
      reserved at its position; no position is delivered twice; and every claimed position whose
      poll has returned has been delivered. */
  lemma DeliveredExactlyOnceInOrder(s0: State, trace: seq<(nat, Choice)>, d: Delivery, e: Delivery, i: nat)
    requires Init(s0)
    ensures var s := Exec(s0, trace).mem;
            && s.initial + |s.claims| == s.consumer
            && (i < |s.claims| ==> s.claims[i] == s.initial + i)
            && s.delivered[d] <= 1
            && (d in s.delivered ==> d.position in s.sent && d.position in s.claims && d.msg == s.sent[d.position])
            && (d in s.delivered && e in s.delivered && d.position == e.position ==> d == e)
            && (s.initial <= i < s.consumer ==>
                  && i in s.phase && i in s.sent
                  && (!s.phase[i].Claiming? ==> Delivery(i, s.sent[i]) in s.delivered))
  {
    ExecInv(s0, trace);
    var s := Exec(s0, trace).mem;
    DeliveryFacts(s, d, e);
    if s.initial <= i < s.consumer {
      assert s.delivered[Delivery(i, s.sent[i])] == if IsDelivered(s, Delivery(i, s.sent[i])) then 1 else 0;
    }
  }

  /** A view keeps showing the whole message until it is released, whatever others do. */
  lemma ViewShowsMessage(s0: State, trace: seq<(nat, Choice)>, vid: nat)
    requires Init(s0) && vid in Exec(s0, trace).mem.views
    ensures var s := Exec(s0, trace).mem;
            var v := s.views[vid];
            && v.position in s.sent && v.slot < |s.slots| && v.size <= |s.slots[v.slot].bytes|
            && Msg(v.rank, v.imm, s.slots[v.slot].bytes[..v.size]) == s.sent[v.position]
  {
    ExecInv(s0, trace);
    var s := Exec(s0, trace).mem;
    assert ViewOk(s, vid, s.views[vid]);
  }

  /** A producer that loads the word of the next position goes on to its CAS exactly when the slot is
      free.  Otherwise it answers retry_nomem exactly when the position has not moved by the time of its
      second look, whatever happened in between. */
  lemma ReserveDecision(s: Mem, later: Mem, t: nat, m: Msg, attempt: nat)
    requires Shared(s) && s.producer < MAXIMUM_POSITION && later.n == s.n && |later.slots| == s.n
    ensures var pc := StepReserve(s, t, ResSeq(m, attempt, s.producer), false).1;
            && (pc.ResCas? <==> Free(s, s.producer))
            && (!Free(s, s.producer) ==>
                  && pc.ResRecheck?
                  && StepReserve(later, t, pc, false).1
                  == if later.producer == s.producer then Ret(RetryNomem) else ResLoad(m, attempt + 1))
  {
    assert WordOk(s, s.producer);
  }

  /** A consumer that loads the word of the next position goes on to its CAS exactly when that message
      is published.  Otherwise it reports an empty ring exactly when the position has not moved. */
  lemma PollDecision(s: Mem, later: Mem, t: nat, attempt: nat)
    requires Shared(s) && later.n == s.n && |later.slots| == s.n
    ensures var pc := StepPoll(s, t, PollSeq(attempt, s.consumer), false, 0).1;
            var ready := s.consumer in s.phase && s.phase[s.consumer].Ready?;
            && (pc.PollCas? <==> ready)
            && (!ready ==>
                  && pc.PollRecheck?
                  && StepPoll(later, t, pc, false, 0).1
                  == if later.consumer == s.consumer then Ret(PollFalse) else PollLoad(attempt + 1))
  {
    NextWord(s);
  }

  /** What the word of the next position to be polled says. */
  lemma NextWord(s: Mem)
    requires Shared(s)
    ensures var pos, word := s.consumer, At(s, s.consumer).sequence;
            if pos in s.phase && s.phase[pos].Ready? then word == EncodeSequence(pos, Published)
            else word != EncodeSequence(pos, Published)
                 && (word == EncodeSequence(pos, Reusable)
                     || (s.n <= pos && word == EncodeSequence(pos - s.n, Published)))
  {
    if s.consumer < s.producer { LiveWord(s, s.consumer); } else { assert WordOk(s, s.consumer); }
  }

  /** recv_available_approx never under-reports: its answer covers every position between the
      consumer and the producer at the time of its second load, and is exact if the consumer has not
      moved since the first. */
  lemma AvailableIsUpperBound(s: Mem, t: nat, c: nat)
    requires Shared(s) && PcOk(s, t, AvailProducer(c))
    ensures var o := StepRelease(s, AvailProducer(c)).1;
            && o.Ret? && o.outcome.Available? && s.producer - s.consumer <= o.outcome.count <= s.n
            && (c == s.consumer ==> o.outcome.count == s.producer - s.consumer)
  {
    assert s.consumer < s.producer ==> s.consumer in s.phase;
  }

  // ------------------------------------------------------------ undisturbed runs

  /** `k` steps of thread `t` alone, no CAS failing spuriously. */
  function Solo(s: State, t: nat, vid: nat, k: nat): State
    decreases k
  {
    if k == 0 then s else Solo(Do(s, t, Go(false, vid)), t, vid, k - 1)
  }

  ghost predicate CanWrite(s: Mem, m: Msg, pos: nat) {
    && s.n > 0 && |s.slots| == s.n && |m.data| <= |At(s, pos).bytes|
    && At(s, pos).sequence == EncodeSequence(pos, Reusable)
  }

  /** The history and the position words are as in `s`, with `pos` published. */
  ghost predicate PublishedAt(s: Mem, s': Mem, pos: nat) {
    && s'.phase == s.phase[pos := Ready] && s'.sent == s.sent
    && s'.consumer == s.consumer && s'.producer == s.producer
  }

  lemma {:induction false} SoloCopy(s: State, t: nat, m: Msg, pos: nat, k: nat)
    requires CanWrite(s.mem, m, pos) && t < |s.threads| && s.threads[t] == PubCopy(m, pos, k) && k <= |m.data|
    ensures var s' := Solo(s, t, 0, |m.data| - k + 2);
            t < |s'.threads| && s'.threads[t] == Ret(SendDone) && PublishedAt(s.mem, s'.mem, pos)
    decreases |m.data| - k
  {
    var s1 := Do(s, t, Go(false, 0));
    if k < |m.data| {
      SoloCopy(s1, t, m, pos, k + 1);
    } else {
      var s2 := Do(s1, t, Go(false, 0));
      assert Solo(s1, t, 0, 1) == s2;
      assert Solo(s, t, 0, 2) == s2;
    }
  }

  /** A send that is not disturbed succeeds whenever its slot is free, and publishes the message
      at the producer position. */
  lemma SoloSend(s: State, t: nat, m: Msg) returns (k: nat, s': State)
    requires Inv(s) && t < |s.threads| && s.threads[t] == ResLoad(m, 0)
    requires s.mem.producer < MAXIMUM_POSITION && Free(s.mem, s.mem.producer)
    ensures s' == Solo(s, t, 0, k)
    ensures t < |s'.threads| && s'.threads[t] == Ret(SendDone)
    ensures PublishedAt(Reserve(s.mem, t, m, s.mem.producer), s'.mem, s.mem.producer)
  {
    var pos := s.mem.producer;
    var mid := State(Reserve(s.mem, t, m, pos), s.threads[t := PubCheck(m, pos)]);
    var i := SoloReserve(s, t, m);
    FreeCanWrite(s.mem, t, m);
    k, s' := SoloRest(s, t, m, pos, i, mid);
  }

  /** A send that has reserved its position goes on to publish. */
  lemma SoloRest(s: State, t: nat, m: Msg, pos: nat, i: nat, mid: State) returns (k: nat, s': State)
    requires t < |s.threads| && s.threads[t] == ResLoad(m, 0) && mid.threads == s.threads[t := PubCheck(m, pos)]
    requires CanWrite(mid.mem, m, pos) && Solo(s, t, 0, i) == mid
    ensures s' == Solo(s, t, 0, k) && t < |s'.threads| && s'.threads[t] == Ret(SendDone)
    ensures PublishedAt(mid.mem, s'.mem, pos)
  {
    var j;
    j, s' := SoloPublish(mid, t, m, pos);
    SoloChain(s, t, 0, i, j, mid, s');
    k := i + j;
  }

  lemma SoloChain(s: State, t: nat, vid: nat, i: nat, j: nat, mid: State, s': State)
    requires mid == Solo(s, t, vid, i) && s' == Solo(mid, t, vid, j)
    ensures s' == Solo(s, t, vid, i + j)
  {
    SoloAdd(s, t, vid, i, j);
  }

  lemma FreeCanWrite(s: Mem, t: nat, m: Msg)
    requires Core(s) && s.producer < MAXIMUM_POSITION && Free(s, s.producer) && |m.data| <= s.cap
    ensures CanWrite(Reserve(s, t, m, s.producer), m, s.producer)
  {
    assert WordOk(s, s.producer);
  }

  lemma SoloPublish(s: State, t: nat, m: Msg, pos: nat) returns (k: nat, s': State)
    requires CanWrite(s.mem, m, pos) && t < |s.threads| && s.threads[t] == PubCheck(m, pos)
    ensures s' == Solo(s, t, 0, k)
    ensures t < |s'.threads| && s'.threads[t] == Ret(SendDone) && PublishedAt(s.mem, s'.mem, pos)
  {
    var i, s4 := SoloFields(s, t, m, pos);
    var j := |m.data| + 2;
    SoloCopy(s4, t, m, pos, 0);
    s' := Solo(s4, t, 0, j);
    SoloChain(s, t, 0, i, j, s4, s');
    k := i + j;
  }

  lemma {:induction false} SoloAdd(s: State, t: nat, vid: nat, j: nat, k: nat)
    ensures Solo(s, t, vid, j + k) == Solo(Solo(s, t, vid, j), t, vid, k)
    decreases j
  {
    if j > 0 { SoloAdd(Do(s, t, Go(false, vid)), t, vid, j - 1, k); }
  }

  lemma SoloReserve(s: State, t: nat, m: Msg) returns (k: nat)
    requires Inv(s) && t < |s.threads| && s.threads[t] == ResLoad(m, 0)
    requires s.mem.producer < MAXIMUM_POSITION && Free(s.mem, s.mem.producer)
    ensures Solo(s, t, 0, k) ==
            State(Reserve(s.mem, t, m, s.mem.producer), s.threads[t := PubCheck(m, s.mem.producer)])
    ensures |m.data| <= s.mem.cap
  {
    var pos := s.mem.producer;
    ReserveDecision(s.mem, s.mem, t, m, 0);
    assert PcOk(s.mem, t, s.threads[t]);
    var s1 := State(s.mem, s.threads[t := ResSeq(m, 0, pos)]);
    var s2 := State(s.mem, s.threads[t := ResCas(m, 0, pos)]);
    var s3 := State(Reserve(s.mem, t, m, pos), s.threads[t := PubCheck(m, pos)]);
    assert Do(s, t, Go(false, 0)) == s1 && Do(s1, t, Go(false, 0)) == s2 && Do(s2, t, Go(false, 0)) == s3;
    assert Solo(s2, t, 0, 1) == s3;
    assert Solo(s1, t, 0, 2) == s3;
    k := 3;
  }

  /** Two steps alone. */
  lemma SoloTwo(s: State, t: nat, vid: nat, s1: State, s2: State)
    requires s1 == Do(s, t, Go(false, vid)) && s2 == Do(s1, t, Go(false, vid))
    ensures Solo(s, t, vid, 2) == s2
  {
    assert Solo(s1, t, vid, 1) == s2;
  }

  lemma SoloHeader(s: State, t: nat, m: Msg, pos: nat) returns (s': State)
    requires CanWrite(s.mem, m, pos) && t < |s.threads| && s.threads[t] == PubCheck(m, pos)
    ensures s' == Solo(s, t, 0, 2) && t < |s'.threads| && s'.threads[t] == PubImm(m, pos)
    ensures CanWrite(s'.mem, m, pos) && SameWords(s.mem, s'.mem)
  {
    var s1 := Do(s, t, Go(false, 0));
    s' := Do(s1, t, Go(false, 0));
    SoloTwo(s, t, 0, s1, s');
  }

  lemma SoloTrailer(s: State, t: nat, m: Msg, pos: nat) returns (s': State)
    requires CanWrite(s.mem, m, pos) && t < |s.threads| && s.threads[t] == PubImm(m, pos)
    ensures s' == Solo(s, t, 0, 2) && t < |s'.threads| && s'.threads[t] == PubCopy(m, pos, 0)
    ensures CanWrite(s'.mem, m, pos) && SameWords(s.mem, s'.mem)
  {
    var s1 := Do(s, t, Go(false, 0));
    s' := Do(s1, t, Go(false, 0));
    SoloTwo(s, t, 0, s1, s');
  }

  ghost predicate SameWords(s: Mem, s': Mem) {
    s'.phase == s.phase && s'.sent == s.sent && s'.consumer == s.consumer && s'.producer == s.producer
  }

  lemma SoloFields(s: State, t: nat, m: Msg, pos: nat) returns (k: nat, s': State)
    requires CanWrite(s.mem, m, pos) && t < |s.threads| && s.threads[t] == PubCheck(m, pos)
    ensures s' == Solo(s, t, 0, k) && t < |s'.threads| && s'.threads[t] == PubCopy(m, pos, 0)
    ensures CanWrite(s'.mem, m, pos) && SameWords(s.mem, s'.mem)
  {
    var mid := SoloHeader(s, t, m, pos);
    s' := SoloTrailer(mid, t, m, pos);
    SoloChain(s, t, 0, 2, 2, mid, s');
    k := 4;
  }

  /** The next message is there to be taken. */
  ghost predicate CanTake(s: Mem, pos: nat, m: Msg, vid: nat) {
    && s.n > 0 && |s.slots| == s.n && s.consumerAttempts >= 1 && s.consumer == pos && vid !in s.views
    && At(s, pos).sequence == EncodeSequence(pos, Published) && Holds(At(s, pos), m)
    && |m.data| <= s.cap && 0 <= m.rank
  }

  /** Up to the compare-exchange: the position is claimed. */
  lemma SoloClaim(s: State, t: nat, pos: nat, m: Msg, vid: nat) returns (s': State)
    requires t < |s.threads| && s.threads[t] == PollLoad(0) && CanTake(s.mem, pos, m, vid)
    ensures s' == Solo(s, t, vid, 3) && s' == State(Claim(s.mem, t, pos), s.threads[t := PollMeta(pos)])
  {
    var s1 := Do(s, t, Go(false, vid));
    assert s1 == State(s.mem, s.threads[t := PollSeq(0, pos)]);
    var s2 := Do(s1, t, Go(false, vid));
    assert s2 == State(s.mem, s.threads[t := PollCas(0, pos)]);
    s' := Do(s2, t, Go(false, vid));
    SoloTwo(s1, t, vid, s2, s');
  }

  lemma SoloView(s: State, t: nat, pos: nat, vid: nat) returns (s': State)
    requires t < |s.threads| && s.threads[t] == PollMeta(pos) && s.mem.n > 0 && |s.mem.slots| == s.mem.n
    requires vid !in s.mem.views && At(s.mem, pos).size <= s.mem.cap && 0 <= At(s.mem, pos).rank
    requires At(s.mem, pos).size <= |At(s.mem, pos).bytes|
    ensures s' == Solo(s, t, vid, 2) && s' == State(HandOut(s.mem, pos, vid), s.threads[t := Ret(PollTrue)])
  {
    var s1 := Do(s, t, Go(false, vid));
    assert s1 == State(s.mem, s.threads[t := PollOut(pos)]);
    s' := Do(s1, t, Go(false, vid));
    SoloTwo(s, t, vid, s1, s');
  }

  lemma SoloTake(s: State, t: nat, pos: nat, m: Msg, vid: nat) returns (k: nat, s': State)
    requires t < |s.threads| && s.threads[t] == PollLoad(0) && CanTake(s.mem, pos, m, vid)
    ensures s' == Solo(s, t, vid, k) && t < |s'.threads| && s'.threads[t] == Ret(PollTrue)
    ensures s'.mem.delivered == s.mem.delivered + multiset{Delivery(pos, m)} && s'.mem.claims == s.mem.claims + [pos]
    ensures vid in s'.mem.views && s'.mem.views[vid].position == pos
  {
    var mid := SoloClaim(s, t, pos, m, vid);
    s' := SoloView(mid, t, pos, vid);
    SoloChain(s, t, vid, 3, 2, mid, s');
    k := 5;
  }

  /** A poll that is not disturbed hands out the next message whenever it is published. */
  lemma SoloPoll(s: State, t: nat, vid: nat) returns (k: nat, s': State)
    requires Inv(s) && t < |s.threads| && s.threads[t] == PollLoad(0) && vid !in s.mem.views
    requires s.mem.consumer in s.mem.phase && s.mem.phase[s.mem.consumer].Ready?
    ensures s' == Solo(s, t, vid, k) && t < |s'.threads| && s'.threads[t] == Ret(PollTrue)
            && s.mem.consumer in s.mem.sent
    ensures s'.mem.delivered == s.mem.delivered + multiset{Delivery(s.mem.consumer, s.mem.sent[s.mem.consumer])}
    ensures s'.mem.claims == s.mem.claims + [s.mem.consumer]
    ensures vid in s'.mem.views && s'.mem.views[vid].position == s.mem.consumer
  {
    TakeReady(s.mem, vid);
    k, s' := SoloTake(s, t, s.mem.consumer, s.mem.sent[s.mem.consumer], vid);
  }

  lemma TakeReady(s: Mem, vid: nat)
    requires Core(s) && DataOk(s) && vid !in s.views && s.consumer in s.phase && s.phase[s.consumer].Ready?
    ensures s.consumer in s.sent && CanTake(s, s.consumer, s.sent[s.consumer], vid)
  {
    LiveWord(s, s.consumer);
  }
}
