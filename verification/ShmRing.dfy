/** The shared-memory MPMC ring (src/shm/ring.cpp) as a step protocol.

    Any number of threads run post_send, poll, release and recv_available_approx
    against one ring.  Each step performs one atomic load, store or CAS, or one
    plain write of a slot field or payload byte.  `Exec` runs any interleaving.

    The fields `phase`, `sent`, `claims` and `delivered` are history: no branch of
    the protocol reads them. */
module ShmRing {

  const MAXIMUM_POSITION: nat := 0x7FFF_FFFF_FFFF_FFFF
  const WORD: nat := 0x1_0000_0000_0000_0000
  const UINT32: nat := 0x1_0000_0000

  type Byte = bv8

  datatype SlotState = Reusable | Published

  /** 64-bit wrap-around. */
  function Wrap(x: nat): (w: nat)
    ensures w < WORD
    decreases x
  {
    if x < WORD then x else Wrap(x - WORD)
  }

  /** ring_t::encode_sequence, on 64-bit words. */
  function EncodeSequence(position: nat, state: SlotState): (w: nat)
    ensures w < WORD
  {
    Wrap(2 * position + (if state.Published? then 1 else 0))
  }

  datatype Msg = Msg(rank: int, imm: nat, data: seq<Byte>)

  datatype Slot = Slot(sequence: nat, size: nat, imm: nat, rank: int, bytes: seq<Byte>)

  datatype View = View(rank: int, imm: nat, size: nat, slot: nat, position: nat)

  datatype Outcome =
    | SendDone | RetryLock | RetryNomem | FatalArguments | FatalPosition | FatalSequence
    | ThrowPublish
    | PollFalse | PollTrue | ThrowSequence | ThrowMetadata
    | ReleaseFalse | ReleaseTrue | ThrowRelease
    | Available(count: nat)

  datatype Pc =
    | Idle
    | ResLoad(m: Msg, attempt: nat)
    | ResSeq(m: Msg, attempt: nat, pos: nat)
    | ResRecheck(m: Msg, attempt: nat, pos: nat, word: nat)
    | ResCas(m: Msg, attempt: nat, pos: nat)
    | PubCheck(m: Msg, pos: nat)
    | PubSize(m: Msg, pos: nat)
    | PubImm(m: Msg, pos: nat)
    | PubRank(m: Msg, pos: nat)
    | PubCopy(m: Msg, pos: nat, k: nat)
    | PubStore(m: Msg, pos: nat)
    | PollLoad(attempt: nat)
    | PollSeq(attempt: nat, pos: nat)
    | PollRecheck(attempt: nat, pos: nat, word: nat)
    | PollCas(attempt: nat, pos: nat)
    | PollMeta(pos: nat)
    | PollOut(pos: nat)
    | RelLoad(view: View)
    | RelStore(view: View)
    | AvailLoad
    | AvailProducer(consumer: nat)
    | Ret(outcome: Outcome)

  /** Who is responsible for a reserved position (history). */
  datatype Phase =
    | Reserved(tid: nat)
    | Ready
    | Claiming(tid: nat)
    | Viewed(vid: nat)
    | Releasing(tid: nat)
    | Released

  datatype Delivery = Delivery(position: nat, msg: Msg)

  datatype Mem = Mem(
    n: nat, cap: nat, initial: nat, producerAttempts: nat, consumerAttempts: nat,
    producer: nat, consumer: nat, slots: seq<Slot>, views: map<nat, View>,
    phase: map<nat, Phase>, sent: map<nat, Msg>, claims: seq<nat>, delivered: multiset<Delivery>)

  datatype State = State(mem: Mem, threads: seq<Pc>)

  /** One scheduling choice.  `spurious` lets a weak CAS fail; `vid` names the
      caller's view object. */
  datatype Choice =
    | CallSend(rank: int, imm: nat, data: seq<Byte>)
    | CallPoll
    | CallRelease(vid: nat)
    | CallAvailable
    | Go(spurious: bool, out: nat)

  // ------------------------------------------------------------------ steps

  predicate Geometry(s: Mem) {
    && 1 <= s.n <= MAXIMUM_POSITION
    && s.cap < UINT32
    && s.initial <= MAXIMUM_POSITION - (s.n - 1)
    && 1 <= s.producerAttempts && 1 <= s.consumerAttempts
    && |s.slots| == s.n
    && (forall i :: 0 <= i < s.n ==> |s.slots[i].bytes| == s.cap)
  }

  /** slot_at: masking with slot_count - 1 is the remainder, slot_count being a power of two. */
  function SlotAt(n: nat, position: nat): (i: nat)
    requires n > 0
    ensures i < n
    decreases position
  {
    if position < n then position else SlotAt(n, position - n)
  }

  /** The slot of a position. */
  function At(s: Mem, position: nat): Slot
    requires s.n > 0 && |s.slots| == s.n
  {
    s.slots[SlotAt(s.n, position)]
  }

  function Put(s: Mem, position: nat, slot: Slot): Mem
    requires s.n > 0 && |s.slots| == s.n
  {
    s.(slots := s.slots[SlotAt(s.n, position) := slot])
  }

  predicate IsPreviousGeneration(n: nat, word: nat, position: nat) {
    && n <= position
    && (|| word == EncodeSequence(position - n, Reusable)
        || word == EncodeSequence(position - n, Published))
  }

  predicate SendArgumentsOk(s: Mem, rank: int, data: seq<Byte>) {
    0 <= rank && |data| <= s.cap
  }

  function Call(s: Mem, t: nat, c: Choice): (r: (Mem, Pc))
    ensures r.0.n == s.n && |r.0.slots| == |s.slots|
  {
    match c
    case CallSend(rank, imm, data) =>
      (s, if SendArgumentsOk(s, rank, data) then ResLoad(Msg(rank, imm, data), 0) else Ret(FatalArguments))
    case CallPoll => (s, PollLoad(0))
    case CallRelease(vid) =>
      if vid in s.views then
        (TakeBack(s, t, vid), RelLoad(s.views[vid]))
      else (s, Ret(ReleaseFalse))
    case CallAvailable => (s, AvailLoad)
    case Go(_, _) => (s, Idle)
  }

  /** The effect of a successful CAS on the producer position. */
  function Reserve(s: Mem, t: nat, m: Msg, pos: nat): Mem {
    s.(producer := pos + 1, phase := s.phase[pos := Reserved(t)], sent := s.sent[pos := m])
  }

  /** The effect of a successful CAS on the consumer position. */
  function Claim(s: Mem, t: nat, pos: nat): Mem {
    s.(consumer := pos + 1, phase := s.phase[pos := Claiming(t)], claims := s.claims + [pos])
  }

  function StoreWord(s: Mem, pos: nat, word: nat, ph: Phase): Mem
    requires s.n > 0 && |s.slots| == s.n
  {
    Put(s, pos, At(s, pos).(sequence := word)).(phase := s.phase[pos := ph])
  }

  function HandOut(s: Mem, pos: nat, vid: nat): Mem
    requires s.n > 0 && |s.slots| == s.n && At(s, pos).size <= |At(s, pos).bytes|
  {
    var slot := At(s, pos);
    s.(views := s.views[vid := View(slot.rank, slot.imm, slot.size, SlotAt(s.n, pos), pos)],
       phase := s.phase[pos := Viewed(vid)],
       delivered := s.delivered + multiset{Delivery(pos, Msg(slot.rank, slot.imm, slot.bytes[..slot.size]))})
  }

  function TakeBack(s: Mem, t: nat, vid: nat): Mem
    requires vid in s.views
  {
    s.(views := s.views - {vid}, phase := s.phase[s.views[vid].position := Releasing(t)])
  }

  /** reserve_impl */
  function StepReserve(s: Mem, t: nat, pc: Pc, spurious: bool): (r: (Mem, Pc))
    requires s.n > 0 && |s.slots| == s.n
    ensures r.0.n == s.n && |r.0.slots| == |s.slots|
  {
    match pc
    case ResLoad(m, attempt) =>
      (s, if s.producerAttempts <= attempt then Ret(RetryLock)
          else if MAXIMUM_POSITION <= s.producer then Ret(FatalPosition)
          else ResSeq(m, attempt, s.producer))
    case ResSeq(m, attempt, pos) =>
      var word := At(s, pos).sequence;
      (s, if word == EncodeSequence(pos, Reusable) then ResCas(m, attempt, pos)
          else ResRecheck(m, attempt, pos, word))
    case ResRecheck(m, attempt, pos, word) =>
      (s, if s.producer != pos then ResLoad(m, attempt + 1)
          else if IsPreviousGeneration(s.n, word, pos) then Ret(RetryNomem)
          else Ret(FatalSequence))
    case ResCas(m, attempt, pos) =>
      if s.producer == pos && !spurious then
        (Reserve(s, t, m, pos), PubCheck(m, pos))
      else (s, ResLoad(m, attempt + 1))
    case _ => (s, pc)
  }

  /** publish */
  function StepPublish(s: Mem, pc: Pc): (r: (Mem, Pc))
    requires s.n > 0 && |s.slots| == s.n
    ensures r.0.n == s.n && |r.0.slots| == |s.slots|
  {
    match pc
    case PubCheck(m, pos) =>
      (s, if At(s, pos).sequence != EncodeSequence(pos, Reusable) then Ret(ThrowPublish) else PubSize(m, pos))
    case PubSize(m, pos) => (Put(s, pos, At(s, pos).(size := |m.data| % UINT32)), PubImm(m, pos))
    case PubImm(m, pos) => (Put(s, pos, At(s, pos).(imm := m.imm)), PubRank(m, pos))
    case PubRank(m, pos) => (Put(s, pos, At(s, pos).(rank := m.rank)), PubCopy(m, pos, 0))
    case PubCopy(m, pos, k) =>
      var bytes := At(s, pos).bytes;
      if k < |m.data| && k < |bytes| then
        (Put(s, pos, At(s, pos).(bytes := bytes[k := m.data[k]])), PubCopy(m, pos, k + 1))
      else (s, PubStore(m, pos))
    case PubStore(m, pos) =>
      (StoreWord(s, pos, EncodeSequence(pos, Published), Ready), Ret(SendDone))
    case _ => (s, pc)
  }

  /** poll */
  function StepPoll(s: Mem, t: nat, pc: Pc, spurious: bool, vid: nat): (r: (Mem, Pc))
    requires s.n > 0 && |s.slots| == s.n
    ensures r.0.n == s.n && |r.0.slots| == |s.slots|
  {
    match pc
    case PollLoad(attempt) =>
      (s, if s.consumerAttempts <= attempt then Ret(PollFalse) else PollSeq(attempt, s.consumer))
    case PollSeq(attempt, pos) =>
      var word := At(s, pos).sequence;
      (s, if word == EncodeSequence(pos, Published) then PollCas(attempt, pos) else PollRecheck(attempt, pos, word))
    case PollRecheck(attempt, pos, word) =>
      (s, if s.consumer != pos then PollLoad(attempt + 1)
          else if word == EncodeSequence(pos, Reusable)
               || (s.n <= pos && word == EncodeSequence(pos - s.n, Published)) then Ret(PollFalse)
          else Ret(ThrowSequence))
    case PollCas(attempt, pos) =>
      if s.consumer == pos && !spurious then
        (Claim(s, t, pos), PollMeta(pos))
      else (s, PollLoad(attempt + 1))
    case PollMeta(pos) =>
      var slot := At(s, pos);
      if s.cap < slot.size || slot.rank < 0 then
        (if pos + s.n <= MAXIMUM_POSITION
         then Put(s, pos, slot.(sequence := EncodeSequence(pos + s.n, Reusable))) else s, Ret(ThrowMetadata))
      else (s, PollOut(pos))
    case PollOut(pos) =>
      var slot := At(s, pos);
      if vid in s.views || |slot.bytes| < slot.size then (s, pc)
      else (HandOut(s, pos, vid), Ret(PollTrue))
    case _ => (s, pc)
  }

  /** release, once the view has been handed over; and recv_available_approx */
  function StepRelease(s: Mem, pc: Pc): (r: (Mem, Pc))
    requires s.n > 0 && |s.slots| == s.n
    ensures r.0.n == s.n && |r.0.slots| == |s.slots|
  {
    match pc
    case RelLoad(v) =>
      (s, if v.slot != SlotAt(s.n, v.position) then Ret(ReleaseFalse)
          else if At(s, v.position).sequence != EncodeSequence(v.position, Published) then Ret(ThrowRelease)
          else RelStore(v))
    case RelStore(v) =>
      (if v.position + s.n <= MAXIMUM_POSITION
       then StoreWord(s, v.position, EncodeSequence(v.position + s.n, Reusable), Released)
       else s.(phase := s.phase[v.position := Released]), Ret(ReleaseTrue))
    case AvailLoad => (s, AvailProducer(s.consumer))
    case AvailProducer(c) =>
      var available := (s.producer - c) % WORD;
      (s, Ret(Available(if available < s.n then available else s.n)))
    case _ => (s, pc)
  }

  predicate InReserve(pc: Pc) { pc.ResLoad? || pc.ResSeq? || pc.ResRecheck? || pc.ResCas? }

  predicate InPublish(pc: Pc) {
    pc.PubCheck? || pc.PubSize? || pc.PubImm? || pc.PubRank? || pc.PubCopy? || pc.PubStore?
  }

  predicate InPoll(pc: Pc) {
    pc.PollLoad? || pc.PollSeq? || pc.PollRecheck? || pc.PollCas? || pc.PollMeta? || pc.PollOut?
  }

  /** One step of a thread; a finished call becomes idle again. */
  function Step(s: Mem, t: nat, pc: Pc, c: Choice): (r: (Mem, Pc))
    requires s.n > 0 && |s.slots| == s.n
    ensures r.0.n == s.n && |r.0.slots| == |s.slots|
  {
    if pc.Idle? then Call(s, t, c)
    else if pc.Ret? then (s, Idle)
    else if InReserve(pc) then StepReserve(s, t, pc, c.Go? && c.spurious)
    else if InPublish(pc) then StepPublish(s, pc)
    else if InPoll(pc) then StepPoll(s, t, pc, c.Go? && c.spurious, if c.Go? then c.out else 0)
    else StepRelease(s, pc)
  }

  /** Thread `t` takes one step. */
  function Do(s: State, t: nat, c: Choice): State {
    if t < |s.threads| && s.mem.n > 0 && |s.mem.slots| == s.mem.n then
      var (mem, pc) := Step(s.mem, t, s.threads[t], c);
      State(mem, s.threads[t := pc])
    else s
  }

  /** Runs an interleaving: a list of (thread, choice). */
  function Exec(s: State, trace: seq<(nat, Choice)>): State
    decreases |trace|
  {
    if trace == [] then s
    else Do(Exec(s, trace[..|trace| - 1]), trace[|trace| - 1].0, trace[|trace| - 1].1)
  }
}
