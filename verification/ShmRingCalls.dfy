/** The calls of the shared-memory ring, in every run: what is in the ring is what the callers passed,
    every position belongs to one send and is handed to one poll, and the answers say so. */
module ShmRingCalls {
  import opened ShmRing
  import opened ShmRingProof

  // ------------------------------------------------------- a log of the calls

  /** step: the number of steps so far. calls: who began what at which step. For each thread, call is the
      step at which its latest call began, begun the memory at that moment, and failures the number of
      spurious failures of its compare-exchange since then. senders and takers: the calls that reserved
      and claimed each position. */
  datatype Log = Log(step: nat, calls: map<nat, (nat, Choice)>, call: seq<nat>, begun: seq<Mem>, failures: seq<nat>,
                     senders: map<nat, nat>, takers: map<nat, nat>)

  predicate FailsSpuriously(pc: Pc, c: Choice) {
    (pc.ResCas? || pc.PollCas?) && c.Go? && c.spurious
  }

  function Note(l: Log, s: State, t: nat, c: Choice): Log
    requires t < |s.threads| == |l.call| == |l.begun| == |l.failures|
  {
    if s.threads[t].Idle? then
      l.(calls := l.calls[l.step := (t, c)], call := l.call[t := l.step], begun := l.begun[t := s.mem],
         failures := l.failures[t := 0])
    else if FailsSpuriously(s.threads[t], c) then l.(failures := l.failures[t := l.failures[t] + 1])
    else l
  }

  function Record(l: Log, s: State, t: nat, c: Choice): Log {
    if t < |s.threads| == |l.call| == |l.begun| == |l.failures| then
      var l1, s' := Note(l, s, t, c), Do(s, t, c).mem;
      l1.(step := l.step + 1,
          senders := if s'.producer != s.mem.producer then l.senders[s.mem.producer := l.call[t]] else l.senders,
          takers := if s'.consumer != s.mem.consumer then l.takers[s.mem.consumer := l.call[t]] else l.takers)
    else l.(step := l.step + 1)
  }

  function LogOf(s0: State, trace: seq<(nat, Choice)>): Log
    decreases |trace|
  {
    if trace == [] then
      var n := |s0.threads|;
      Log(0, map[], seq(n, _ => 0), seq(n, _ => s0.mem), seq(n, _ => 0), map[], map[])
    else
      var n := |trace| - 1;
      Record(LogOf(s0, trace[..n]), Exec(s0, trace[..n]), trace[n].0, trace[n].1)
  }

  // ------------------------------------------------------- phases only go forward

  function Stage(ph: Phase): nat {
    match ph
    case Reserved(_) => 0
    case Ready => 1
    case Claiming(_) => 2
    case Viewed(_) => 3
    case Releasing(_) => 4
    case Released => 5
  }

  ghost predicate Later(s: Mem, s': Mem) {
    && s'.producer >= s.producer && s'.consumer >= s.consumer && s'.n == s.n && s'.cap == s.cap
    && s'.producerAttempts == s.producerAttempts && s'.consumerAttempts == s.consumerAttempts
    && s'.initial == s.initial
    && forall p :: p in s.phase ==> p in s'.phase && Stage(s.phase[p]) <= Stage(s'.phase[p])
  }

  /** Nothing is reserved or claimed. */
  ghost predicate Calm(s: Mem, s': Mem) {
    s'.producer == s.producer && s'.consumer == s.consumer && s'.sent == s.sent && Later(s, s')
  }

  // ------------------------------------------------------- what a step of each kind does

  predicate Refusal(o: Outcome) {
    o.RetryLock? || o.RetryNomem? || o.FatalPosition? || o.FatalSequence?
  }

  predicate Unclaimed(pc: Pc) {
    pc.PollLoad? || pc.PollSeq? || pc.PollRecheck? || pc.PollCas?
  }

  predicate Claimed(pc: Pc) {
    pc.PollMeta? || pc.PollOut?
  }

  predicate Releases(pc: Pc) {
    pc.RelLoad? || pc.RelStore?
  }

  lemma ReserveEffect(s: Mem, t: nat, pc: Pc, spurious: bool)
    requires s.n > 0 && |s.slots| == s.n && InReserve(pc) && s.producer !in s.phase
    ensures var (s', pc') := StepReserve(s, t, pc, spurious);
            || (s' == s && ((InReserve(pc') && pc'.m == pc.m) || (pc'.Ret? && Refusal(pc'.outcome))))
            || (s' == Reserve(s, t, pc.m, s.producer) && pc' == PubCheck(pc.m, s.producer) && Later(s, s'))
  {
  }

  lemma PublishEffect(s: Mem, t: nat, pc: Pc)
    requires s.n > 0 && |s.slots| == s.n && InPublish(pc) && PcOk(s, t, pc)
    ensures var (s', pc') := StepPublish(s, pc);
            && Calm(s, s')
            && (|| (InPublish(pc') && pc'.m == pc.m && pc'.pos == pc.pos)
                || pc' == Ret(ThrowPublish)
                || (pc' == Ret(SendDone) && pc.pos in s'.phase && s'.phase[pc.pos] == Ready))
  {
  }

  lemma PollEffect(s: Mem, t: nat, pc: Pc, spurious: bool, vid: nat)
    requires s.n > 0 && |s.slots| == s.n && Unclaimed(pc) && PcOk(s, t, pc)
    ensures var (s', pc') := StepPoll(s, t, pc, spurious, vid);
            || (s' == s && (Unclaimed(pc') || pc' == Ret(PollFalse) || pc' == Ret(ThrowSequence)))
            || (s' == Claim(s, t, s.consumer) && pc' == PollMeta(s.consumer) && Later(s, s'))
  {
  }

  lemma ClaimedEffect(s: Mem, t: nat, pc: Pc, spurious: bool, vid: nat)
    requires s.n > 0 && |s.slots| == s.n && Claimed(pc) && PcOk(s, t, pc)
    ensures var (s', pc') := StepPoll(s, t, pc, spurious, vid);
            && Calm(s, s')
            && (|| (Claimed(pc') && pc'.pos == pc.pos)
                || pc' == Ret(ThrowMetadata)
                || (pc' == Ret(PollTrue) && pc.pos in s'.phase && s'.phase[pc.pos].Viewed?))
  {
  }

  lemma ReleaseEffect(s: Mem, t: nat, pc: Pc)
    requires s.n > 0 && |s.slots| == s.n && Releases(pc) && PcOk(s, t, pc)
    ensures var (s', pc') := StepRelease(s, pc);
            && Calm(s, s')
            && (|| pc' == RelStore(pc.view)
                || pc' == Ret(ThrowRelease)
                || (pc' == Ret(ReleaseTrue) && pc.view.position in s'.phase && s'.phase[pc.view.position].Released?))
  {
  }

  lemma CallEffect(s: Mem, t: nat, c: Choice)
    requires s.n > 0 && ViewsOk(s)
    ensures Calm(s, Call(s, t, c).0)
  {
    if c.CallRelease? && c.vid in s.views {
      assert ViewOk(s, c.vid, s.views[c.vid]);
    }
  }

  lemma StepEffect(s: Mem, t: nat, pc: Pc, c: Choice)
    requires Shared(s) && PcOk(s, t, pc)
    ensures Later(s, Step(s, t, pc, c).0)
    ensures !InReserve(pc) ==> Step(s, t, pc, c).0.producer == s.producer && Step(s, t, pc, c).0.sent == s.sent
    ensures Step(s, t, pc, c).0.consumer == s.consumer
            || (Unclaimed(pc) && Step(s, t, pc, c).0.consumer == s.consumer + 1)
  {
    if pc.Idle? {
      CallEffect(s, t, c);
    } else if InReserve(pc) {
      ReserveEffect(s, t, pc, c.Go? && c.spurious);
    } else if InPublish(pc) {
      PublishEffect(s, t, pc);
    } else if Unclaimed(pc) {
      PollEffect(s, t, pc, c.Go? && c.spurious, if c.Go? then c.out else 0);
    } else if Claimed(pc) {
      ClaimedEffect(s, t, pc, c.Go? && c.spurious, if c.Go? then c.out else 0);
    } else if Releases(pc) {
      ReleaseEffect(s, t, pc);
    }
  }

  // ------------------------------------------------------- the log of every run

  ghost predicate NotIn(i: nat, m: map<nat, nat>) {
    forall p :: p in m ==> m[p] != i
  }

  /** What thread t asked for last. */
  function Request(l: Log, t: nat): Choice
    requires t < |l.call|
  {
    if l.call[t] in l.calls then l.calls[l.call[t]].1 else CallPoll
  }

  predicate Asks(c: Choice, m: Msg) {
    c == CallSend(m.rank, m.imm, m.data)
  }

  predicate GoodSend(s: Mem, c: Choice) {
    c.CallSend? && 0 <= c.rank && |c.data| <= s.cap
  }

  /** The call reserved a position, and it has been published. */
  ghost predicate HasSent(s: Mem, l: Log, i: nat) {
    exists p :: p in l.senders && l.senders[p] == i && p in s.phase && Stage(s.phase[p]) >= 1
  }

  /** The call claimed a position, and its message has been handed out. */
  ghost predicate HasTaken(s: Mem, l: Log, i: nat) {
    exists p :: p in l.takers && l.takers[p] == i && p in s.phase && Stage(s.phase[p]) >= 3
  }

  ghost predicate Sized(s: State, l: Log) {
    |s.threads| == |l.call| == |l.begun| == |l.failures|
  }

  /** Each failed attempt of a send saw another reservation, or its exchange failed by itself. */
  ghost predicate Tried(s: Mem, begun: Mem, failures: nat, attempt: nat, pos: nat) {
    begun.producer <= pos <= s.producer && attempt <= pos - begun.producer + failures
  }

  ghost predicate TriedPoll(s: Mem, begun: Mem, failures: nat, attempt: nat, pos: nat) {
    begun.consumer <= pos <= s.consumer && attempt <= pos - begun.consumer + failures
  }

  ghost predicate ReserveLog(s: Mem, l: Log, i: nat, c: Choice, begun: Mem, failures: nat, pc: Pc)
    requires InReserve(pc)
  {
    && Asks(c, pc.m) && GoodSend(s, c) && NotIn(i, l.senders)
    && Tried(s, begun, failures, pc.attempt, if pc.ResLoad? then s.producer else pc.pos)
  }

  ghost predicate PublishLog(s: Mem, l: Log, i: nat, c: Choice, pc: Pc)
    requires InPublish(pc)
  {
    Asks(c, pc.m) && GoodSend(s, c) && pc.pos in l.senders && l.senders[pc.pos] == i
  }

  ghost predicate PollLog(s: Mem, l: Log, i: nat, c: Choice, begun: Mem, failures: nat, pc: Pc)
    requires InPoll(pc)
  {
    && c == CallPoll
    && if Claimed(pc) then pc.pos in l.takers && l.takers[pc.pos] == i
       else NotIn(i, l.takers)
            && TriedPoll(s, begun, failures, pc.attempt, if pc.PollLoad? then s.consumer else pc.pos)
  }

  ghost predicate ReleaseLog(c: Choice, begun: Mem, v: View) {
    c.CallRelease? && c.vid in begun.views && begun.views[c.vid] == v
  }

  ghost predicate Gone(s: Mem, pos: nat) {
    pos in s.phase && s.phase[pos].Released?
  }

  ghost predicate AnswerLog(s: Mem, l: Log, i: nat, c: Choice, begun: Mem, failures: nat, o: Outcome) {
    match o
    case SendDone => GoodSend(s, c) && HasSent(s, l, i)
    case RetryLock =>
      GoodSend(s, c) && NotIn(i, l.senders) && s.producerAttempts <= s.producer - begun.producer + failures
    case RetryNomem => GoodSend(s, c) && NotIn(i, l.senders)
    case FatalPosition => GoodSend(s, c) && NotIn(i, l.senders)
    case FatalArguments => c.CallSend? && !GoodSend(s, c) && NotIn(i, l.senders)
    case PollTrue => c == CallPoll && HasTaken(s, l, i)
    case PollFalse => c == CallPoll && NotIn(i, l.takers)
    case ReleaseTrue => c.CallRelease? && c.vid in begun.views && Gone(s, begun.views[c.vid].position)
    case ReleaseFalse => c.CallRelease? && c.vid !in begun.views
    case Available(count) =>
      c == CallAvailable && begun.producer - s.consumer <= count <= s.producer - begun.consumer
    case _ => true
  }

  /** What the log says about a thread at each program point. */
  ghost predicate PcLog(s: Mem, l: Log, i: nat, c: Choice, begun: Mem, failures: nat, pc: Pc) {
    if InReserve(pc) then ReserveLog(s, l, i, c, begun, failures, pc)
    else if InPublish(pc) then PublishLog(s, l, i, c, pc)
    else if InPoll(pc) then PollLog(s, l, i, c, begun, failures, pc)
    else match pc
      case RelLoad(v) => ReleaseLog(c, begun, v)
      case RelStore(v) => ReleaseLog(c, begun, v)
      case AvailLoad => c == CallAvailable
      case AvailProducer(consumer) => c == CallAvailable && begun.consumer <= consumer <= s.consumer
      case Ret(o) => AnswerLog(s, l, i, c, begun, failures, o)
      case _ => true
  }

  ghost predicate Sound(s: Mem) {
    s.consumer <= s.producer <= s.consumer + s.n
  }

  ghost predicate ThreadOk(s: State, l: Log, t: nat)
    requires Sized(s, l) && t < |s.threads|
  {
    s.threads[t].Idle?
    || (&& l.call[t] in l.calls && l.calls[l.call[t]].0 == t && Later(l.begun[t], s.mem) && Sound(l.begun[t])
        && PcLog(s.mem, l, l.call[t], Request(l, t), l.begun[t], l.failures[t], s.threads[t]))
  }

  /** What is in the ring is what the calls asked for, and no call has two positions. */
  ghost predicate SendersOk(s: Mem, l: Log) {
    && (forall p :: p in l.senders <==> p in s.sent)
    && (forall p :: p in l.senders ==>
          l.senders[p] in l.calls && p in s.sent && Asks(l.calls[l.senders[p]].1, s.sent[p]))
    && (forall p, q :: p in l.senders && q in l.senders && p != q ==> l.senders[p] != l.senders[q])
  }

  ghost predicate TakersOk(s: Mem, l: Log) {
    && (forall p :: p in l.takers <==> s.initial <= p < s.consumer)
    && (forall p :: p in l.takers ==> l.takers[p] in l.calls && l.calls[l.takers[p]].1 == CallPoll)
    && (forall p, q :: p in l.takers && q in l.takers && p != q ==> l.takers[p] != l.takers[q])
  }

  ghost predicate LogOk(s: State, l: Log) {
    && Sized(s, l)
    && (forall i :: i in l.calls ==> i < l.step)
    && SendersOk(s.mem, l) && TakersOk(s.mem, l)
    && (forall t :: 0 <= t < |s.threads| ==> ThreadOk(s, l, t))
  }

  // ------------------------------------------------------- each step keeps it

  /** The answers to earlier calls stay right while others go on. */
  lemma AnswerStays(s: Mem, s': Mem, l: Log, l': Log, i: nat, c: Choice, begun: Mem, failures: nat, o: Outcome)
    requires Later(s, s') && Later(begun, s) && AnswerLog(s, l, i, c, begun, failures, o)
    requires NotIn(i, l.senders) ==> NotIn(i, l'.senders)
    requires NotIn(i, l.takers) ==> NotIn(i, l'.takers)
    requires forall p :: p in l.senders ==> p in l'.senders && l'.senders[p] == l.senders[p]
    requires forall p :: p in l.takers ==> p in l'.takers && l'.takers[p] == l.takers[p]
    ensures AnswerLog(s', l', i, c, begun, failures, o)
  {
    match o
    case SendDone =>
      var p :| p in l.senders && l.senders[p] == i && p in s.phase && Stage(s.phase[p]) >= 1;
      assert p in l'.senders;
    case PollTrue =>
      var p :| p in l.takers && l.takers[p] == i && p in s.phase && Stage(s.phase[p]) >= 3;
      assert p in l'.takers;
    case _ =>
  }

  lemma PcStays(s: Mem, s': Mem, l: Log, l': Log, i: nat, c: Choice, begun: Mem, failures: nat, pc: Pc)
    requires Later(s, s') && Later(begun, s) && PcLog(s, l, i, c, begun, failures, pc)
    requires NotIn(i, l.senders) ==> NotIn(i, l'.senders)
    requires NotIn(i, l.takers) ==> NotIn(i, l'.takers)
    requires forall p :: p in l.senders ==> p in l'.senders && l'.senders[p] == l.senders[p]
    requires forall p :: p in l.takers ==> p in l'.takers && l'.takers[p] == l.takers[p]
    ensures PcLog(s', l', i, c, begun, failures, pc)
  {
    if pc.Ret? {
      AnswerStays(s, s', l, l', i, c, begun, failures, pc.outcome);
    }
  }

  lemma OwnSend(s: Mem, l: Log, i: nat, t: nat, c: Choice)
    requires c.CallSend? && NotIn(i, l.senders)
    ensures PcLog(Call(s, t, c).0, l, i, c, s, 0, Call(s, t, c).1)
  {
  }

  lemma OwnCall(s: Mem, l: Log, i: nat, t: nat, c: Choice)
    requires NotIn(i, l.senders) && NotIn(i, l.takers)
    ensures PcLog(Call(s, t, c).0, l, i, c, s, 0, Call(s, t, c).1)
  {
    if c.CallSend? {
      OwnSend(s, l, i, t, c);
    }
  }

  lemma OwnReserve(s: Mem, l: Log, i: nat, c: Choice, begun: Mem, failures: nat, t: nat, pc: Pc, spurious: bool)
    requires s.n > 0 && |s.slots| == s.n && InReserve(pc) && PcOk(s, t, pc) && s.producer !in s.phase
    requires ReserveLog(s, l, i, c, begun, failures, pc)
    ensures var (s', pc') := StepReserve(s, t, pc, spurious);
            var l' := if s'.producer != s.producer then l.(senders := l.senders[s.producer := i]) else l;
            PcLog(s', l', i, c, begun, if pc.ResCas? && spurious then failures + 1 else failures, pc')
  {
    ReserveEffect(s, t, pc, spurious);
  }

  lemma OwnPublish(s: Mem, l: Log, i: nat, c: Choice, begun: Mem, failures: nat, t: nat, pc: Pc)
    requires s.n > 0 && |s.slots| == s.n && InPublish(pc) && PcOk(s, t, pc) && PublishLog(s, l, i, c, pc)
    ensures var (s', pc') := StepPublish(s, pc); PcLog(s', l, i, c, begun, failures, pc')
  {
    PublishEffect(s, t, pc);
    var (s', pc') := StepPublish(s, pc);
    if pc' == Ret(SendDone) {
      assert HasSent(s', l, i);
    }
  }

  lemma OwnPoll(s: Mem, l: Log, i: nat, c: Choice, begun: Mem, failures: nat, t: nat, pc: Pc, spurious: bool, vid: nat)
    requires s.n > 0 && |s.slots| == s.n && Unclaimed(pc) && PcOk(s, t, pc)
    requires PollLog(s, l, i, c, begun, failures, pc)
    ensures var (s', pc') := StepPoll(s, t, pc, spurious, vid);
            var l' := if s'.consumer != s.consumer then l.(takers := l.takers[s.consumer := i]) else l;
            PcLog(s', l', i, c, begun, if pc.PollCas? && spurious then failures + 1 else failures, pc')
  {
    PollEffect(s, t, pc, spurious, vid);
  }

  lemma OwnClaimed(s: Mem, l: Log, i: nat, c: Choice, begun: Mem, failures: nat, t: nat, pc: Pc, spurious: bool,
                   vid: nat)
    requires s.n > 0 && |s.slots| == s.n && Claimed(pc) && PcOk(s, t, pc) && PollLog(s, l, i, c, begun, failures, pc)
    ensures var (s', pc') := StepPoll(s, t, pc, spurious, vid); PcLog(s', l, i, c, begun, failures, pc')
  {
    ClaimedEffect(s, t, pc, spurious, vid);
    var (s', pc') := StepPoll(s, t, pc, spurious, vid);
    if pc' == Ret(PollTrue) {
      assert HasTaken(s', l, i);
    }
  }

  lemma OwnRelease(s: Mem, l: Log, i: nat, c: Choice, begun: Mem, failures: nat, t: nat, pc: Pc)
    requires s.n > 0 && |s.slots| == s.n && (Releases(pc) || pc.AvailLoad?) && PcOk(s, t, pc) && Later(begun, s)
    requires PcLog(s, l, i, c, begun, failures, pc)
    ensures var (s', pc') := StepRelease(s, pc); PcLog(s', l, i, c, begun, failures, pc')
  {
    if Releases(pc) {
      ReleaseEffect(s, t, pc);
    }
  }

  lemma OwnAvailable(s: Mem, l: Log, i: nat, c: Choice, begun: Mem, failures: nat, t: nat, pc: Pc)
    requires Core(s) && pc.AvailProducer? && Later(begun, s) && Sound(begun)
    requires PcLog(s, l, i, c, begun, failures, pc)
    ensures var (s', pc') := StepRelease(s, pc); PcLog(s', l, i, c, begun, failures, pc')
  {
    OneGeneration(s);
  }

  /** Whatever a thread does next fits its call. */
  lemma OwnGoesOn(s: Mem, l: Log, i: nat, c: Choice, begun: Mem, failures: nat, t: nat, pc: Pc, e: Choice)
    requires Shared(s) && PcOk(s, t, pc) && !pc.Idle? && !pc.Ret? && Later(begun, s) && Sound(begun)
    requires PcLog(s, l, i, c, begun, failures, pc)
    ensures var (s', pc') := Step(s, t, pc, e);
            var l' := l.(senders := if s'.producer != s.producer then l.senders[s.producer := i] else l.senders,
                         takers := if s'.consumer != s.consumer then l.takers[s.consumer := i] else l.takers);
            PcLog(s', l', i, c, begun, if FailsSpuriously(pc, e) then failures + 1 else failures, pc')
  {
    StepEffect(s, t, pc, e);
    if InReserve(pc) {
      OwnReserve(s, l, i, c, begun, failures, t, pc, e.Go? && e.spurious);
    } else if InPublish(pc) {
      OwnPublish(s, l, i, c, begun, failures, t, pc);
    } else if Unclaimed(pc) {
      OwnPoll(s, l, i, c, begun, failures, t, pc, e.Go? && e.spurious, if e.Go? then e.out else 0);
    } else if Claimed(pc) {
      OwnClaimed(s, l, i, c, begun, failures, t, pc, e.Go? && e.spurious, if e.Go? then e.out else 0);
    } else if pc.AvailProducer? {
      OwnAvailable(s, l, i, c, begun, failures, t, pc);
    } else {
      OwnRelease(s, l, i, c, begun, failures, t, pc);
    }
  }

  /** The tickets that were given out stay; a new one goes to call i. */
  ghost predicate Extends(l: Log, l': Log, i: nat) {
    && (forall p :: p in l.senders ==> p in l'.senders && l'.senders[p] == l.senders[p])
    && (forall p :: p in l.takers ==> p in l'.takers && l'.takers[p] == l.takers[p])
    && (forall p :: p in l'.senders && p !in l.senders ==> l'.senders[p] == i)
    && (forall p :: p in l'.takers && p !in l.takers ==> l'.takers[p] == i)
  }

  lemma RecordExtends(s: State, l: Log, t: nat, c: Choice)
    requires t < |s.threads| && Sized(s, l) && s.mem.producer !in l.senders && s.mem.consumer !in l.takers
    ensures Extends(l, Record(l, s, t, c), l.call[t])
  {
  }

  lemma NextIsNew(s: State, l: Log)
    requires Inv(s) && LogOk(s, l)
    ensures s.mem.producer !in l.senders && s.mem.consumer !in l.takers && s.mem.producer !in s.mem.phase
  {
  }

  lemma NewCallIsNew(l: Log)
    requires forall i :: i in l.calls ==> i < l.step
    requires forall p :: p in l.senders ==> l.senders[p] in l.calls
    requires forall p :: p in l.takers ==> l.takers[p] in l.calls
    ensures NotIn(l.step, l.senders) && NotIn(l.step, l.takers)
  {
  }

  lemma OwnBegins(s: State, l: Log, t: nat, c: Choice)
    requires Inv(s) && LogOk(s, l) && t < |s.threads| && s.threads[t].Idle?
    ensures ThreadOk(Do(s, t, c), Record(l, s, t, c), t)
  {
    var s', l' := Do(s, t, c), Record(l, s, t, c);
    StepEffect(s.mem, t, s.threads[t], c);
    OneGeneration(s.mem);
    NewCallIsNew(l);
    OwnCall(s.mem, l, l.step, t, c);
    PcStays(s'.mem, s'.mem, l, l', l.step, c, s.mem, 0, s'.threads[t]);
  }

  lemma RecordOwn(s: State, l: Log, t: nat, c: Choice)
    requires t < |s.threads| && Sized(s, l) && !s.threads[t].Idle?
    ensures var l' := Record(l, s, t, c);
            && Sized(Do(s, t, c), l') && l'.call[t] == l.call[t] && l'.begun[t] == l.begun[t] && l'.calls == l.calls
            && l'.failures[t] == (if FailsSpuriously(s.threads[t], c) then l.failures[t] + 1 else l.failures[t])
  {
  }

  lemma OwnContinues(s: State, l: Log, t: nat, c: Choice)
    requires Inv(s) && Sized(s, l) && t < |s.threads| && ThreadOk(s, l, t)
    requires !s.threads[t].Idle? && !s.threads[t].Ret?
    ensures ThreadOk(Do(s, t, c), Record(l, s, t, c), t)
  {
    var s', l', i := Do(s, t, c), Record(l, s, t, c), l.call[t];
    assert PcOk(s.mem, t, s.threads[t]);
    StepEffect(s.mem, t, s.threads[t], c);
    RecordOwn(s, l, t, c);
    OwnGoesOn(s.mem, l, i, Request(l, t), l.begun[t], l.failures[t], t, s.threads[t], c);
    var l1 := l.(senders := l'.senders, takers := l'.takers);
    PcStays(s'.mem, s'.mem, l1, l', i, Request(l, t), l.begun[t], l'.failures[t], s'.threads[t]);
  }

  /** Nothing about thread u but the tickets differs. */
  ghost predicate Aside(s: State, l: Log, s': State, l': Log, u: nat) {
    && u < |s.threads| && Sized(s, l) && Sized(s', l') && |s'.threads| == |s.threads|
    && s'.threads[u] == s.threads[u] && l'.call[u] == l.call[u] && l'.begun[u] == l.begun[u]
    && l'.failures[u] == l.failures[u]
    && (l.call[u] in l.calls ==> l.call[u] in l'.calls && l'.calls[l.call[u]] == l.calls[l.call[u]])
  }

  lemma OthersAside(s: State, l: Log, t: nat, c: Choice, u: nat)
    requires t < |s.threads| && u < |s.threads| && u != t && Sized(s, l)
    requires l.call[u] in l.calls ==> l.call[u] < l.step
    ensures Aside(s, l, Do(s, t, c), Record(l, s, t, c), u)
  {
  }

  lemma AsideOk(s: State, l: Log, s': State, l': Log, u: nat, i: nat)
    requires Aside(s, l, s', l', u) && ThreadOk(s, l, u) && Later(s.mem, s'.mem) && Extends(l, l', i)
    requires !s.threads[u].Idle? ==> i != l.call[u]
    ensures ThreadOk(s', l', u)
  {
    if !s.threads[u].Idle? {
      PcStays(s.mem, s'.mem, l, l', l.call[u], Request(l, u), l.begun[u], l.failures[u], s.threads[u]);
    }
  }

  /** With no ticket given out, any thread will do as the one that got none. */
  lemma AsideIdle(s: State, l: Log, s': State, l': Log, u: nat)
    requires Aside(s, l, s', l', u) && ThreadOk(s, l, u) && Later(s.mem, s'.mem)
    requires l'.senders == l.senders && l'.takers == l.takers
    ensures ThreadOk(s', l', u)
  {
    AsideOk(s, l, s', l', u, l.call[u] + 1);
  }

  lemma OtherThread(s: State, l: Log, t: nat, c: Choice, u: nat)
    requires Inv(s) && LogOk(s, l) && t < |s.threads| && u < |s.threads| && u != t
    ensures ThreadOk(Do(s, t, c), Record(l, s, t, c), u)
  {
    assert ThreadOk(s, l, t) && ThreadOk(s, l, u) && PcOk(s.mem, t, s.threads[t]);
    StepEffect(s.mem, t, s.threads[t], c);
    OthersAside(s, l, t, c, u);
    if InReserve(s.threads[t]) || Unclaimed(s.threads[t]) {
      NextIsNew(s, l);
      RecordExtends(s, l, t, c);
      AsideOk(s, l, Do(s, t, c), Record(l, s, t, c), u, l.call[t]);
    } else {
      AsideIdle(s, l, Do(s, t, c), Record(l, s, t, c), u);
    }
  }

  ghost predicate MoreCalls(l: Log, l': Log) {
    forall i :: i in l.calls ==> i in l'.calls && l'.calls[i] == l.calls[i]
  }

  lemma SendersSame(s: Mem, s': Mem, l: Log, l': Log)
    requires SendersOk(s, l) && s'.sent == s.sent && l'.senders == l.senders && MoreCalls(l, l')
    ensures SendersOk(s', l')
  {
  }

  lemma SendersGrow(s: Mem, s': Mem, l: Log, l': Log, i: nat, m: Msg)
    requires SendersOk(s, l) && MoreCalls(l, l') && s.producer !in s.sent && i in l.calls && NotIn(i, l.senders)
    requires Asks(l.calls[i].1, m) && s'.sent == s.sent[s.producer := m] && l'.senders == l.senders[s.producer := i]
    ensures SendersOk(s', l')
  {
  }

  lemma TakersSame(s: Mem, s': Mem, l: Log, l': Log)
    requires TakersOk(s, l) && s'.initial == s.initial && s'.consumer == s.consumer && l'.takers == l.takers
    requires MoreCalls(l, l')
    ensures TakersOk(s', l')
  {
  }

  lemma TakersGrow(s: Mem, s': Mem, l: Log, l': Log, i: nat)
    requires TakersOk(s, l) && MoreCalls(l, l') && s.initial <= s.consumer && i in l.calls && NotIn(i, l.takers)
    requires l.calls[i].1 == CallPoll && s'.initial == s.initial && s'.consumer == s.consumer + 1
    requires l'.takers == l.takers[s.consumer := i]
    ensures TakersOk(s', l')
  {
  }

  lemma RecordMore(s: State, l: Log, t: nat, c: Choice)
    requires t < |s.threads| && Sized(s, l) && forall i :: i in l.calls ==> i < l.step
    ensures MoreCalls(l, Record(l, s, t, c)) && forall i :: i in Record(l, s, t, c).calls ==> i < l.step + 1
    ensures Record(l, s, t, c).step == l.step + 1 && Sized(Do(s, t, c), Record(l, s, t, c))
  {
  }

  lemma SendersStep(s: State, l: Log, t: nat, c: Choice)
    requires Inv(s) && LogOk(s, l) && t < |s.threads|
    ensures SendersOk(Do(s, t, c).mem, Record(l, s, t, c))
  {
    assert ThreadOk(s, l, t) && PcOk(s.mem, t, s.threads[t]);
    StepEffect(s.mem, t, s.threads[t], c);
    RecordMore(s, l, t, c);
    NextIsNew(s, l);
    if InReserve(s.threads[t]) {
      ReserveEffect(s.mem, t, s.threads[t], c.Go? && c.spurious);
    }
    if Do(s, t, c).mem.producer == s.mem.producer {
      SendersSame(s.mem, Do(s, t, c).mem, l, Record(l, s, t, c));
    } else {
      SendersGrow(s.mem, Do(s, t, c).mem, l, Record(l, s, t, c), l.call[t], s.threads[t].m);
    }
  }

  lemma TakersStep(s: State, l: Log, t: nat, c: Choice)
    requires Inv(s) && LogOk(s, l) && t < |s.threads|
    ensures TakersOk(Do(s, t, c).mem, Record(l, s, t, c))
  {
    assert ThreadOk(s, l, t) && PcOk(s.mem, t, s.threads[t]);
    StepEffect(s.mem, t, s.threads[t], c);
    RecordMore(s, l, t, c);
    if Do(s, t, c).mem.consumer == s.mem.consumer {
      TakersSame(s.mem, Do(s, t, c).mem, l, Record(l, s, t, c));
    } else {
      TakersGrow(s.mem, Do(s, t, c).mem, l, Record(l, s, t, c), l.call[t]);
    }
  }

  lemma OwnThread(s: State, l: Log, t: nat, c: Choice)
    requires Inv(s) && LogOk(s, l) && t < |s.threads|
    ensures ThreadOk(Do(s, t, c), Record(l, s, t, c), t)
  {
    assert ThreadOk(s, l, t);
    if s.threads[t].Idle? {
      OwnBegins(s, l, t, c);
    } else if !s.threads[t].Ret? {
      OwnContinues(s, l, t, c);
    }
  }

  lemma NobodyMoves(s: State, l: Log, t: nat, c: Choice)
    requires LogOk(s, l) && t >= |s.threads|
    ensures LogOk(Do(s, t, c), Record(l, s, t, c))
  {
    forall u | 0 <= u < |s.threads| ensures ThreadOk(Do(s, t, c), Record(l, s, t, c), u) {
      assert ThreadOk(s, l, u);
    }
  }

  lemma RecordKeeps(s: State, l: Log, t: nat, c: Choice)
    requires Inv(s) && LogOk(s, l)
    ensures LogOk(Do(s, t, c), Record(l, s, t, c))
  {
    if t < |s.threads| {
      SendersStep(s, l, t, c);
      TakersStep(s, l, t, c);
      RecordMore(s, l, t, c);
      OwnThread(s, l, t, c);
      forall u | 0 <= u < |s.threads| && u != t ensures ThreadOk(Do(s, t, c), Record(l, s, t, c), u) {
        OtherThread(s, l, t, c, u);
      }
    } else {
      NobodyMoves(s, l, t, c);
    }
  }

  lemma {:induction false} ExecLog(s0: State, trace: seq<(nat, Choice)>)
    requires Init(s0)
    ensures LogOk(Exec(s0, trace), LogOf(s0, trace)) && LogOf(s0, trace).step == |trace|
    decreases |trace|
  {
    if trace != [] {
      var n := |trace| - 1;
      ExecInv(s0, trace[..n]);
      ExecLog(s0, trace[..n]);
      RecordKeeps(Exec(s0, trace[..n]), LogOf(s0, trace[..n]), trace[n].0, trace[n].1);
    }
  }

  /** Entry i of the run is a call: its thread was idle. */
  ghost predicate IsCall(s0: State, trace: seq<(nat, Choice)>, i: nat) {
    i < |trace| && trace[i].0 < |Exec(s0, trace[..i]).threads| && Exec(s0, trace[..i]).threads[trace[i].0].Idle?
  }

  lemma RecordNew(s: State, l: Log, t: nat, c: Choice, i: nat)
    requires Sized(s, l) && i in Record(l, s, t, c).calls
    requires i !in l.calls || l.calls[i] != Record(l, s, t, c).calls[i]
    ensures i == l.step && Record(l, s, t, c).calls[i] == (t, c) && t < |s.threads| && s.threads[t].Idle?
  {
  }

  /** The log tells of the entries of the run. */
  lemma {:induction false} LogIsTrace(s0: State, trace: seq<(nat, Choice)>, i: nat)
    requires Init(s0) && i in LogOf(s0, trace).calls
    ensures IsCall(s0, trace, i) && LogOf(s0, trace).calls[i] == trace[i]
    decreases |trace|
  {
    var n := |trace| - 1;
    var before := trace[..n];
    var l, l' := LogOf(s0, before), LogOf(s0, trace);
    ExecLog(s0, before);
    if i in l.calls && l.calls[i] == l'.calls[i] {
      LogIsTrace(s0, before, i);
      assert before[..i] == trace[..i];
    } else {
      RecordNew(Exec(s0, before), l, trace[n].0, trace[n].1, i);
    }
  }

  lemma NoteStep(s: State, l: Log, u: nat, c: Choice, t: nat)
    requires Sized(s, l) && t < |s.threads| && (u == t || !s.threads[t].Idle?)
    ensures var l' := Record(l, s, u, c);
            && |l'.call| == |l'.begun| == |s.threads|
            && if s.threads[t].Idle? then l'.call[t] == l.step && l'.begun[t] == s.mem
               else l'.call[t] == l.call[t] && l'.begun[t] == l.begun[t]
  {
  }

  lemma OthersStay(s: State, u: nat, c: Choice, t: nat)
    requires t < |s.threads| && u != t
    ensures Do(s, u, c).threads[t] == s.threads[t]
  {
  }

  lemma BegunStep(s: State, l: Log, u: nat, c: Choice, t: nat)
    requires Sized(s, l) && t < |s.threads| && !Do(s, u, c).threads[t].Idle?
    ensures var l' := Record(l, s, u, c);
            && |l'.call| == |l'.begun| == |s.threads|
            && if s.threads[t].Idle? then l'.call[t] == l.step && l'.begun[t] == s.mem
               else l'.call[t] == l.call[t] && l'.begun[t] == l.begun[t]
  {
    if u != t {
      OthersStay(s, u, c, t);
    }
    NoteStep(s, l, u, c, t);
  }

  lemma {:induction false} BegunIsMoment(s0: State, trace: seq<(nat, Choice)>, t: nat)
    requires Init(s0) && t < |Exec(s0, trace).threads| && !Exec(s0, trace).threads[t].Idle?
    ensures var l := LogOf(s0, trace);
            t < |l.call| == |l.begun| && l.call[t] < |trace| && l.begun[t] == Exec(s0, trace[..l.call[t]]).mem
    decreases |trace|
  {
    var n := |trace| - 1;
    var before := trace[..n];
    ExecLog(s0, before);
    BegunStep(Exec(s0, before), LogOf(s0, before), trace[n].0, trace[n].1, t);
    if !Exec(s0, before).threads[t].Idle? {
      BegunIsMoment(s0, before, t);
      assert before[..LogOf(s0, before).call[t]] == trace[..LogOf(s0, before).call[t]];
    }
  }

  // ------------------------------------------------------- main results

  /** In every run, each message in the ring is rank, immediate data and bytes of one send that an idle
      thread began; different positions come from different calls. */
  lemma SentByCalls(s0: State, trace: seq<(nat, Choice)>, p: nat, q: nat)
    requires Init(s0) && p in Exec(s0, trace).mem.sent
    ensures var senders, m := LogOf(s0, trace).senders, Exec(s0, trace).mem.sent[p];
            && p in senders && IsCall(s0, trace, senders[p])
            && trace[senders[p]].1 == CallSend(m.rank, m.imm, m.data)
            && (q in senders && q != p ==> senders[q] != senders[p])
  {
    ExecLog(s0, trace);
    LogIsTrace(s0, trace, LogOf(s0, trace).senders[p]);
  }

  /** Each claimed position was claimed by one poll; different positions by different polls. */
  lemma TakenByCalls(s0: State, trace: seq<(nat, Choice)>, p: nat, q: nat)
    requires Init(s0) && Exec(s0, trace).mem.initial <= p < Exec(s0, trace).mem.consumer
    ensures var takers := LogOf(s0, trace).takers;
            && p in takers && IsCall(s0, trace, takers[p]) && trace[takers[p]].1 == CallPoll
            && (q in takers && q != p ==> takers[q] != takers[p])
  {
    ExecLog(s0, trace);
    LogIsTrace(s0, trace, LogOf(s0, trace).takers[p]);
  }

  /** What call i, which asked for c when the memory was begun, may answer. A send is done exactly when it
      has a position, where its message is published; it is fatal for its arguments exactly when they are
      bad; it gives up only when others have reserved as many positions since it began as it has attempts,
      failures of the exchange by itself apart. A poll is true exactly when it has claimed a position,
      whose message was handed out. A release is true exactly when the view was there, and its slot is free
      again. The number of available messages is between what was there all the time and what was there
      at any time. */
  ghost predicate AnswerIs(s: Mem, l: Log, i: nat, c: Choice, begun: Mem, failures: nat, o: Outcome) {
    match c
    case CallSend(rank, _, data) =>
      && (o == SendDone <==> !NotIn(i, l.senders)) && (o == SendDone ==> HasSent(s, l, i))
      && (o == FatalArguments <==> rank < 0 || |data| > s.cap)
      && (o == RetryLock ==> s.producerAttempts <= s.producer - begun.producer + failures)
      && (o == SendDone || o == FatalArguments || o == RetryLock || o == RetryNomem || o == FatalPosition)
    case CallPoll =>
      && (o == PollTrue <==> !NotIn(i, l.takers)) && (o == PollTrue ==> HasTaken(s, l, i))
      && (o == PollTrue || o == PollFalse)
    case CallRelease(vid) =>
      && o == (if vid in begun.views then ReleaseTrue else ReleaseFalse)
      && (vid in begun.views ==> Gone(s, begun.views[vid].position))
    case CallAvailable =>
      o.Available? && begun.producer - s.consumer <= o.count <= s.producer - begun.consumer
    case Go(_, _) => false
  }

  lemma LogAnswers(s: Mem, l: Log, i: nat, c: Choice, begun: Mem, failures: nat, o: Outcome)
    requires AnswerLog(s, l, i, c, begun, failures, o) && OutcomeOk(s, o)
    ensures AnswerIs(s, l, i, c, begun, failures, o)
  {
  }

  lemma ThreadAnswers(s: State, l: Log, t: nat, o: Outcome)
    requires Inv(s) && LogOk(s, l) && t < |s.threads| && s.threads[t] == Ret(o)
    ensures AnswerIs(s.mem, l, l.call[t], Request(l, t), l.begun[t], l.failures[t], o)
    ensures l.call[t] in l.calls && l.calls[l.call[t]].0 == t
  {
    assert ThreadOk(s, l, t) && PcOk(s.mem, t, s.threads[t]);
    LogAnswers(s.mem, l, l.call[t], Request(l, t), l.begun[t], l.failures[t], o);
  }

  /** In every run, a thread that returns from a call began it when it was idle, and what it returns is
      right. */
  lemma AnswersAreRight(s0: State, trace: seq<(nat, Choice)>, t: nat, o: Outcome)
    requires Init(s0) && t < |Exec(s0, trace).threads| && Exec(s0, trace).threads[t] == Ret(o)
    ensures var l := LogOf(s0, trace);
            && t < |l.call| == |l.failures| && IsCall(s0, trace, l.call[t]) && trace[l.call[t]].0 == t
            && AnswerIs(Exec(s0, trace).mem, l, l.call[t], trace[l.call[t]].1, Exec(s0, trace[..l.call[t]]).mem,
                        l.failures[t], o)
  {
    ExecLog(s0, trace);
    ExecInv(s0, trace);
    BegunIsMoment(s0, trace, t);
    ThreadAnswers(Exec(s0, trace), LogOf(s0, trace), t, o);
    LogIsTrace(s0, trace, LogOf(s0, trace).call[t]);
  }

  /** In every run, a poll that has failed k times since it began has seen k positions claimed by others,
      failures of the exchange by itself apart. */
  lemma PollRetries(s0: State, trace: seq<(nat, Choice)>, t: nat)
    requires Init(s0) && t < |Exec(s0, trace).threads| && Exec(s0, trace).threads[t].PollLoad?
    ensures var s, l := Exec(s0, trace), LogOf(s0, trace);
            && t < |l.call| == |l.failures| && IsCall(s0, trace, l.call[t]) && trace[l.call[t]] == (t, CallPoll)
            && s.threads[t].attempt <= s.mem.consumer - Exec(s0, trace[..l.call[t]]).mem.consumer + l.failures[t]
  {
    ExecLog(s0, trace);
    BegunIsMoment(s0, trace, t);
    var s, l := Exec(s0, trace), LogOf(s0, trace);
    assert ThreadOk(s, l, t);
    LogIsTrace(s0, trace, l.call[t]);
  }

  // ------------------------------------------------------- undisturbed calls

  predicate IdleThread(s: State, t: nat) {
    t < |s.threads| && s.threads[t].Idle?
  }

  /** Thread t makes a call and goes on alone for k steps. */
  function Alone(s: State, t: nat, c: Choice, vid: nat, k: nat): State {
    Solo(Do(s, t, c), t, vid, k)
  }

  /** An undisturbed send with good arguments into a free slot is done, and its message is published at
      the producer position. */
  lemma SendAlone(s: State, t: nat, rank: int, imm: nat, data: seq<Byte>) returns (k: nat)
    requires Inv(s) && IdleThread(s, t) && 0 <= rank && |data| <= s.mem.cap
    requires s.mem.producer < MAXIMUM_POSITION && Free(s.mem, s.mem.producer)
    ensures var s' := Alone(s, t, CallSend(rank, imm, data), 0, k);
            var pos := s.mem.producer;
            && t < |s'.threads| && s'.threads[t] == Ret(SendDone)
            && s'.mem.producer == pos + 1 && s'.mem.consumer == s.mem.consumer
            && s'.mem.sent == s.mem.sent[pos := Msg(rank, imm, data)] && s'.mem.phase == s.mem.phase[pos := Ready]
  {
    var c, m := CallSend(rank, imm, data), Msg(rank, imm, data);
    var s1 := Do(s, t, c);
    DoPreserves(s, t, c);
    var s';
    k, s' := SoloSend(s1, t, m);
  }

  /** An undisturbed poll hands out the next message, if it is published. */
  lemma PollAlone(s: State, t: nat, vid: nat) returns (k: nat)
    requires Inv(s) && IdleThread(s, t) && vid !in s.mem.views
    requires s.mem.consumer in s.mem.phase && s.mem.phase[s.mem.consumer].Ready?
    ensures var s' := Alone(s, t, CallPoll, vid, k);
            var pos := s.mem.consumer;
            && t < |s'.threads| && s'.threads[t] == Ret(PollTrue) && pos in s.mem.sent
            && s'.mem.delivered == s.mem.delivered + multiset{Delivery(pos, s.mem.sent[pos])}
            && s'.mem.claims == s.mem.claims + [pos] && vid in s'.mem.views && s'.mem.views[vid].position == pos
  {
    DoPreserves(s, t, CallPoll);
    var s';
    k, s' := SoloPoll(Do(s, t, CallPoll), t, vid);
  }

  /** An undisturbed poll of a ring without a published next message answers that there is none. */
  lemma PollAloneEmpty(s: State, t: nat, vid: nat)
    requires Inv(s) && IdleThread(s, t)
    requires s.mem.consumer !in s.mem.phase || s.mem.phase[s.mem.consumer].Reserved?
    ensures Alone(s, t, CallPoll, vid, 3) == State(s.mem, s.threads[t := Ret(PollFalse)])
  {
    var pos := s.mem.consumer;
    NextWord(s.mem);
    var s1 := Do(s, t, CallPoll);
    var s2 := Do(s1, t, Go(false, vid));
    assert s2 == State(s.mem, s.threads[t := PollSeq(0, pos)]);
    PollDecision(s.mem, s.mem, t, 0);
    var s3 := Do(s2, t, Go(false, vid));
    var s4 := Do(s3, t, Go(false, vid));
    assert s4 == State(s.mem, s.threads[t := Ret(PollFalse)]);
    SoloTwo(s2, t, vid, s3, s4);
  }

  /** An undisturbed send into a ring without a free slot answers that there is no memory. */
  lemma SendAloneFull(s: State, t: nat, rank: int, imm: nat, data: seq<Byte>)
    requires Inv(s) && IdleThread(s, t) && 0 <= rank && |data| <= s.mem.cap
    requires s.mem.producer < MAXIMUM_POSITION && !Free(s.mem, s.mem.producer)
    ensures Alone(s, t, CallSend(rank, imm, data), 0, 3) == State(s.mem, s.threads[t := Ret(RetryNomem)])
  {
    var m, pos := Msg(rank, imm, data), s.mem.producer;
    var s1 := Do(s, t, CallSend(rank, imm, data));
    var s2 := Do(s1, t, Go(false, 0));
    assert s2 == State(s.mem, s.threads[t := ResSeq(m, 0, pos)]);
    ReserveDecision(s.mem, s.mem, t, m, 0);
    var s3 := Do(s2, t, Go(false, 0));
    var s4 := Do(s3, t, Go(false, 0));
    assert s4 == State(s.mem, s.threads[t := Ret(RetryNomem)]);
    SoloTwo(s2, t, 0, s3, s4);
  }

  lemma ReleaseLoads(s: State, t: nat, vid: nat) returns (s2: State)
    requires Inv(s) && IdleThread(s, t) && vid in s.mem.views
    ensures s2 == Do(Do(s, t, CallRelease(vid)), t, Go(false, 0))
    ensures s2 == State(TakeBack(s.mem, t, vid), s.threads[t := RelStore(s.mem.views[vid])])
  {
    var v := s.mem.views[vid];
    DoPreserves(s, t, CallRelease(vid));
    var s1 := Do(s, t, CallRelease(vid));
    assert PcOk(s1.mem, t, s1.threads[t]);
    LiveWord(s1.mem, v.position);
    s2 := Do(s1, t, Go(false, 0));
    assert s2.threads == s.threads[t := RelStore(v)];
  }

  lemma AloneTwo(s: State, t: nat, c: Choice, s2: State)
    requires s2 == Do(Do(s, t, c), t, Go(false, 0))
    ensures Alone(s, t, c, 0, 2) == Do(s2, t, Go(false, 0))
  {
    SoloTwo(Do(s, t, c), t, 0, s2, Do(s2, t, Go(false, 0)));
  }

  /** The view is gone and its slot free for the position one generation later. */
  ghost predicate FreedAfter(s: Mem, s': Mem, vid: nat)
    requires vid in s.views
  {
    var pos := s.views[vid].position;
    && s'.views == s.views - {vid} && s'.phase == s.phase[pos := Released] && s'.producer == s.producer
    && s'.n == s.n && Free(s', pos + s.n)
  }

  lemma ReleaseFrees(s: Mem, s2: State, t: nat, vid: nat)
    requires s.n > 0 && |s.slots| == s.n && t < |s2.threads| && vid in s.views
    requires s2.mem == TakeBack(s, t, vid) && s2.threads[t] == RelStore(s.views[vid])
    ensures var s' := Do(s2, t, Go(false, 0));
            t < |s'.threads| && s'.threads[t] == Ret(ReleaseTrue) && FreedAfter(s, s'.mem, vid)
  {
  }

  /** An undisturbed release of a view frees its slot. */
  lemma ReleaseAlone(s: State, t: nat, vid: nat)
    requires Inv(s) && IdleThread(s, t) && vid in s.mem.views
    ensures var s' := Alone(s, t, CallRelease(vid), 0, 2);
            t < |s'.threads| && s'.threads[t] == Ret(ReleaseTrue) && FreedAfter(s.mem, s'.mem, vid)
  {
    var s2 := ReleaseLoads(s, t, vid);
    ReleaseFrees(s.mem, s2, t, vid);
    AloneTwo(s, t, CallRelease(vid), s2);
  }

  /** An undisturbed count is exact. */
  lemma AvailableAlone(s: State, t: nat)
    requires Inv(s) && IdleThread(s, t)
    ensures Alone(s, t, CallAvailable, 0, 2)
         == State(s.mem, s.threads[t := Ret(Available(s.mem.producer - s.mem.consumer))])
  {
    OneGeneration(s.mem);
    var s1 := Do(s, t, CallAvailable);
    var s2 := Do(s1, t, Go(false, 0));
    assert s2 == State(s.mem, s.threads[t := AvailProducer(s.mem.consumer)]);
    var s3 := Do(s2, t, Go(false, 0));
    assert s3 == State(s.mem, s.threads[t := Ret(Available(s.mem.producer - s.mem.consumer))]);
    SoloTwo(s1, t, 0, s2, s3);
  }

  /** A release of a view that is not there answers so and changes nothing. */
  lemma ReleaseAloneUnknown(s: State, t: nat, vid: nat)
    requires Inv(s) && IdleThread(s, t) && vid !in s.mem.views
    ensures Alone(s, t, CallRelease(vid), 0, 0) == State(s.mem, s.threads[t := Ret(ReleaseFalse)])
  {
  }

  // ------------------------------------------------------- calls are bounded

  function Less(a: nat, b: nat): nat {
    if b < a then a - b else 0
  }

  /** An upper bound on the steps that a thread has left in its call, whatever others do. */
  function StepsLeft(s: Mem, pc: Pc): nat {
    match pc
    case Idle => 0
    case ResLoad(m, attempt) => 4 * Less(s.producerAttempts, attempt) + |m.data| + 10
    case ResSeq(m, attempt, _) => 4 * Less(s.producerAttempts, attempt + 1) + |m.data| + 13
    case ResRecheck(m, attempt, _, _) => 4 * Less(s.producerAttempts, attempt + 1) + |m.data| + 12
    case ResCas(m, attempt, _) => 4 * Less(s.producerAttempts, attempt + 1) + |m.data| + 12
    case PubCheck(m, _) => |m.data| + 9
    case PubSize(m, _) => |m.data| + 8
    case PubImm(m, _) => |m.data| + 7
    case PubRank(m, _) => |m.data| + 6
    case PubCopy(m, _, k) => Less(|m.data|, k) + 3
    case PubStore(_, _) => 2
    case PollLoad(attempt) => 4 * Less(s.consumerAttempts, attempt) + 5
    case PollSeq(attempt, _) => 4 * Less(s.consumerAttempts, attempt + 1) + 8
    case PollRecheck(attempt, _, _) => 4 * Less(s.consumerAttempts, attempt + 1) + 7
    case PollCas(attempt, _) => 4 * Less(s.consumerAttempts, attempt + 1) + 7
    case PollMeta(_) => 4
    case PollOut(_) => 3
    case RelLoad(_) => 3
    case RelStore(_) => 2
    case AvailLoad => 3
    case AvailProducer(_) => 2
    case Ret(_) => 1
  }

  /** The caller names a view object that is free. */
  predicate NamesFreeView(s: Mem, pc: Pc, c: Choice) {
    pc.PollOut? ==> c.Go? && c.out !in s.views
  }

  lemma ReserveShrinks(s: Mem, t: nat, pc: Pc, spurious: bool)
    requires s.n > 0 && |s.slots| == s.n && InReserve(pc)
    ensures StepsLeft(s, StepReserve(s, t, pc, spurious).1) < StepsLeft(s, pc)
  {
  }

  lemma PublishShrinks(s: Mem, pc: Pc)
    requires s.n > 0 && |s.slots| == s.n && InPublish(pc)
    ensures StepsLeft(s, StepPublish(s, pc).1) < StepsLeft(s, pc)
  {
  }

  lemma PollShrinks(s: Mem, t: nat, pc: Pc, spurious: bool, vid: nat)
    requires s.n > 0 && |s.slots| == s.n && InPoll(pc) && PcOk(s, t, pc) && DataOk(s) && PhasesOk(s)
    requires pc.PollOut? ==> vid !in s.views
    ensures StepsLeft(s, StepPoll(s, t, pc, spurious, vid).1) < StepsLeft(s, pc)
  {
  }

  lemma ReleaseShrinks(s: Mem, t: nat, pc: Pc)
    requires s.n > 0 && |s.slots| == s.n && (Releases(pc) || pc.AvailLoad? || pc.AvailProducer?)
    ensures StepsLeft(s, StepRelease(s, pc).1) < StepsLeft(s, pc)
  {
  }

  /** Every step of a thread inside a call brings it nearer to its return by a measure that no other
      thread's step can raise: no call takes more steps of its own than its arguments and the numbers of
      attempts allow. */
  lemma CallsAreBounded(s: State, t: nat, c: Choice, u: nat)
    requires Inv(s) && t < |s.threads| && u < |s.threads| && NamesFreeView(s.mem, s.threads[t], c)
    ensures var s' := Do(s, t, c);
            && (!s.threads[t].Idle? ==> StepsLeft(s'.mem, s'.threads[t]) < StepsLeft(s.mem, s.threads[t]))
            && (u != t ==> StepsLeft(s'.mem, s'.threads[u]) == StepsLeft(s.mem, s.threads[u]))
  {
    var pc := s.threads[t];
    assert PcOk(s.mem, t, pc);
    StepEffect(s.mem, t, pc, c);
    if InReserve(pc) {
      ReserveShrinks(s.mem, t, pc, c.Go? && c.spurious);
    } else if InPublish(pc) {
      PublishShrinks(s.mem, pc);
    } else if InPoll(pc) {
      PollShrinks(s.mem, t, pc, c.Go? && c.spurious, if c.Go? then c.out else 0);
    } else if !pc.Idle? && !pc.Ret? {
      ReleaseShrinks(s.mem, t, pc);
    }
    SameLimits(s.mem, Do(s, t, c).mem, Do(s, t, c).threads[t]);
    SameLimits(s.mem, Do(s, t, c).mem, Do(s, t, c).threads[u]);
  }

  lemma SameLimits(s: Mem, s': Mem, pc: Pc)
    requires s'.producerAttempts == s.producerAttempts && s'.consumerAttempts == s.consumerAttempts
    ensures StepsLeft(s', pc) == StepsLeft(s, pc)
  {
  }
}
