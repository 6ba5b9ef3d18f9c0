/** The posts of the backlog, in every run: what a call does with its operation, and that it returns. */
module BacklogCalls {
  import opened Options
  import opened Backlog
  import opened BacklogProof

  // ------------------------------------------------------- a log of the calls

  /** step: the number of steps so far. calls: who began what at which step. For each thread: the step at
      which its latest call began, the number of entries that call read, and whether the backend was asked
      and took the operation. tickets: for each accepted operation the call that had it accepted. */
  datatype Log = Log(step: nat, calls: map<nat, (nat, Choice)>, call: seq<nat>, read: seq<int>, asked: seq<bool>,
                     took: seq<bool>, tickets: seq<nat>)

  predicate Sized(s: State, l: Log) {
    |s.pcs| == |l.call| == |l.read| == |l.asked| == |l.took|
  }

  predicate Begins(s: State, t: nat, c: Choice)
    requires t < |s.pcs|
  {
    s.pcs[t].Idle? && (c.Progress? || (c.Post? && c.rank < |s.nentries|))
  }

  function Note(l: Log, s: State, t: nat, c: Choice): Log
    requires t < |s.pcs| && Sized(s, l)
  {
    if Begins(s, t, c) then
      l.(calls := l.calls[l.step := (t, c)], call := l.call[t := l.step], read := l.read[t := 0],
         asked := l.asked[t := false], took := l.took[t := false])
    else if c.Go? && s.pcs[t].Check? then l.(read := l.read[t := Entries(s.nentries, s.pcs[t].op.rank)])
    else if c.Go? && s.pcs[t].Backend? then l.(asked := l.asked[t := true], took := l.took[t := c.ok])
    else l
  }

  function Record(l: Log, s: State, t: nat, c: Choice): (l': Log) {
    if t < |s.pcs| && Sized(s, l) then
      var more := |Step(s, t, c).accepted| > |s.accepted|;
      Note(l, s, t, c).(step := l.step + 1, tickets := if more then l.tickets + [l.call[t]] else l.tickets)
    else l.(step := l.step + 1)
  }

  ghost function LogOf(s0: State, trace: seq<(nat, Choice)>): Log
    requires Initial(s0)
    decreases |trace|
  {
    if trace == [] then
      var n := |s0.pcs|;
      Log(0, map[], seq(n, _ => 0), seq(n, _ => 0), seq(n, _ => false), seq(n, _ => false), [])
    else
      var n := |trace| - 1;
      Record(LogOf(s0, trace[..n]), Exec(s0, trace[..n]), trace[n].0, trace[n].1)
  }

  // ------------------------------------------------------- what the log says

  /** The call of thread t was a post of this operation, and has had nothing accepted yet. */
  ghost predicate Pending(l: Log, t: nat, op: Op, allowRetry: bool)
    requires t < |l.call|
  {
    && l.call[t] in l.calls && l.calls[l.call[t]] == (t, Post(op.rank, op.id, allowRetry)) && op.thread == t
    && l.call[t] !in l.tickets
  }

  /** A post that must not fail, in the backlog. */
  ghost predicate Settled(l: Log, t: nat)
    requires t < |l.call| == |l.read| == |l.asked| == |l.took|
  {
    && l.call[t] in l.calls && l.calls[l.call[t]].0 == t && l.calls[l.call[t]].1.Post?
    && !l.calls[l.call[t]].1.allowRetry && l.call[t] in l.tickets && (l.asked[t] <==> l.read[t] == 0) && !l.took[t]
  }

  /** What a post has done when it returns: its operation was accepted exactly when it must not fail or
      the backend took it, and the backend was asked exactly when no entry was counted for the rank. */
  ghost predicate Finished(l: Log, t: nat)
    requires t < |l.call| == |l.read| == |l.asked| == |l.took|
  {
    l.call[t] in l.calls && l.calls[l.call[t]].0 == t && l.calls[l.call[t]].1.Post? ==>
      && (l.call[t] in l.tickets <==> !l.calls[l.call[t]].1.allowRetry || l.took[t])
      && (l.asked[t] <==> l.read[t] == 0)
  }

  ghost predicate Progressing(l: Log, t: nat)
    requires t < |l.call|
  {
    l.call[t] in l.calls && l.calls[l.call[t]] == (t, Progress)
  }

  ghost predicate PcLog(l: Log, t: nat, pc: Pc)
    requires t < |l.call| == |l.read| == |l.asked| == |l.took|
  {
    match pc
    case Idle => Finished(l, t)
    case Check(op, allowRetry) => Pending(l, t, op, allowRetry) && !l.asked[t] && !l.took[t]
    case Backend(op, allowRetry) => Pending(l, t, op, allowRetry) && !l.took[t] && l.read[t] == 0
    case Count(op) => Pending(l, t, op, false) && (l.asked[t] <==> l.read[t] == 0) && !l.took[t]
    case WantLock(op) => Pending(l, t, op, false) && (l.asked[t] <==> l.read[t] == 0) && !l.took[t]
    case Push(op) => Pending(l, t, op, false) && (l.asked[t] <==> l.read[t] == 0) && !l.took[t]
    case ClearEmpty => Settled(l, t)
    case Unlock => Settled(l, t) || Progressing(l, t)
    case _ => Progressing(l, t)
  }

  ghost predicate TicketOk(s: State, l: Log, k: nat)
    requires k < |l.tickets| == |s.accepted|
  {
    && l.tickets[k] in l.calls && l.calls[l.tickets[k]].1.Post?
    && s.accepted[k] == Op(l.calls[l.tickets[k]].0, l.calls[l.tickets[k]].1.rank, l.calls[l.tickets[k]].1.id)
  }

  ghost predicate LogOk(s: State, l: Log) {
    && Sized(s, l)
    && (forall i :: i in l.calls ==> i < l.step)
    && |l.tickets| == |s.accepted|
    && (forall k :: 0 <= k < |l.tickets| ==> TicketOk(s, l, k))
    && Distinct(l.tickets)
    && (forall t :: 0 <= t < |s.pcs| ==> PcLog(l, t, s.pcs[t]))
  }

  // ------------------------------------------------------- each step keeps it

  /** The only new ticket goes to call i. */
  ghost predicate Extends(l: Log, l': Log, i: nat) {
    && (forall j :: j in l.calls ==> j in l'.calls && l'.calls[j] == l.calls[j])
    && (l'.tickets == l.tickets || l'.tickets == l.tickets + [i])
  }

  lemma RecordExtends(s: State, l: Log, t: nat, c: Choice)
    requires t < |s.pcs| && Sized(s, l) && forall i :: i in l.calls ==> i < l.step
    ensures var l' := Record(l, s, t, c);
            && Extends(l, l', l.call[t]) && Sized(Step(s, t, c), l') && l'.step == l.step + 1
            && (forall i :: i in l'.calls ==> i < l'.step)
            && (!Begins(s, t, c) ==> l'.calls == l.calls)
  {
  }

  lemma NewIsNew(s: State, l: Log)
    requires LogOk(s, l)
    ensures l.step !in l.tickets
  {
    forall k | 0 <= k < |l.tickets| ensures l.tickets[k] < l.step {
      assert TicketOk(s, l, k);
    }
  }

  lemma OwnBegins(s: State, l: Log, t: nat, c: Choice)
    requires t < |s.pcs| && Sized(s, l) && Begins(s, t, c) && l.step !in l.tickets
    ensures PcLog(Record(l, s, t, c), t, Step(s, t, c).pcs[t])
  {
  }

  lemma OwnPost(s: State, l: Log, t: nat, ok: bool)
    requires t < |s.pcs| && Sized(s, l) && Posting(s.pcs[t]) && !s.pcs[t].Unlock? && PcLog(l, t, s.pcs[t])
    ensures PcLog(Record(l, s, t, Go(ok)), t, Step(s, t, Go(ok)).pcs[t])
  {
    var l' := Record(l, s, t, Go(ok));
    assert l'.tickets == l.tickets || (l'.tickets == l.tickets + [l.call[t]] && l'.tickets[|l.tickets|] == l.call[t]);
  }

  lemma OwnProgress(s: State, l: Log, t: nat, ok: bool)
    requires t < |s.pcs| && Sized(s, l) && (!Posting(s.pcs[t]) || s.pcs[t].Unlock?) && PcLog(l, t, s.pcs[t])
    ensures PcLog(Record(l, s, t, Go(ok)), t, Step(s, t, Go(ok)).pcs[t])
  {
  }

  lemma OwnLog(s: State, l: Log, t: nat, c: Choice)
    requires LogOk(s, l) && t < |s.pcs|
    ensures PcLog(Record(l, s, t, c), t, Step(s, t, c).pcs[t])
  {
    assert PcLog(l, t, s.pcs[t]);
    if Begins(s, t, c) {
      NewIsNew(s, l);
      OwnBegins(s, l, t, c);
    } else if c.Go? {
      if Posting(s.pcs[t]) && !s.pcs[t].Unlock? {
        OwnPost(s, l, t, c.ok);
      } else {
        OwnProgress(s, l, t, c.ok);
      }
    }
  }

  lemma OthersStay(s: State, t: nat, c: Choice, u: nat)
    requires u < |s.pcs| && u != t
    ensures Step(s, t, c).pcs[u] == s.pcs[u]
  {
  }

  lemma OthersAside(s: State, l: Log, t: nat, c: Choice, u: nat)
    requires t < |s.pcs| && u < |s.pcs| && u != t && Sized(s, l)
    ensures var l' := Record(l, s, t, c);
            && |l'.call| == |l'.read| == |l'.asked| == |l'.took| == |l.call|
            && l'.call[u] == l.call[u] && l'.read[u] == l.read[u] && l'.asked[u] == l.asked[u]
            && l'.took[u] == l.took[u]
  {
  }

  lemma AsideOk(l: Log, l': Log, u: nat, pc: Pc, i: nat)
    requires u < |l.call| == |l.read| == |l.asked| == |l.took| == |l'.call| == |l'.read| == |l'.asked| == |l'.took|
    requires l'.call[u] == l.call[u] && l'.read[u] == l.read[u] && l'.asked[u] == l.asked[u] && l'.took[u] == l.took[u]
    requires Extends(l, l', i) && PcLog(l, u, pc)
    requires l.call[u] !in l.calls ==> l.call[u] !in l'.calls || l'.calls[l.call[u]].0 != u
    requires l.call[u] in l.calls && l.calls[l.call[u]].0 == u && l'.tickets != l.tickets ==> i != l.call[u]
    ensures PcLog(l', u, pc)
  {
  }

  lemma OtherLog(s: State, l: Log, t: nat, c: Choice, u: nat)
    requires LogOk(s, l) && t < |s.pcs| && u < |s.pcs| && u != t
    ensures PcLog(Record(l, s, t, c), u, Step(s, t, c).pcs[u])
  {
    assert PcLog(l, u, s.pcs[u]) && PcLog(l, t, s.pcs[t]);
    RecordExtends(s, l, t, c);
    OthersStay(s, t, c, u);
    OthersAside(s, l, t, c, u);
    AsideOk(l, Record(l, s, t, c), u, s.pcs[u], l.call[t]);
  }

  /** The operation is the one that the call of thread t posts. */
  ghost predicate Posts(l: Log, t: nat, op: Op)
    requires t < |l.call|
  {
    && l.call[t] in l.calls && l.calls[l.call[t]].1.Post? && l.call[t] !in l.tickets
    && op == Op(l.calls[l.call[t]].0, l.calls[l.call[t]].1.rank, l.calls[l.call[t]].1.id)
  }

  lemma TicketsGrow(s: State, l: Log, t: nat, c: Choice) returns (op: Op)
    requires t < |s.pcs| && Sized(s, l) && PcLog(l, t, s.pcs[t])
    ensures var s', l' := Step(s, t, c), Record(l, s, t, c);
            || (s'.accepted == s.accepted && l'.tickets == l.tickets)
            || (Posts(l, t, op) && s'.accepted == s.accepted + [op] && l'.tickets == l.tickets + [l.call[t]])
  {
    op := if s.pcs[t].Backend? || s.pcs[t].Push? then s.pcs[t].op else Op(0, 0, 0);
  }

  ghost predicate Distinct(a: seq<nat>) {
    forall j, k :: 0 <= j < k < |a| ==> a[j] != a[k]
  }

  lemma TicketsKeep(s: State, l: Log, s': State, l': Log, t: nat, op: Op)
    requires Distinct(l.tickets) && |l.tickets| == |s.accepted| && t < |l.call| && Extends(l, l', l.call[t])
    requires forall k :: 0 <= k < |l.tickets| ==> TicketOk(s, l, k)
    requires || (s'.accepted == s.accepted && l'.tickets == l.tickets)
             || (Posts(l, t, op) && s'.accepted == s.accepted + [op] && l'.tickets == l.tickets + [l.call[t]])
    ensures Distinct(l'.tickets) && |l'.tickets| == |s'.accepted|
    ensures forall k :: 0 <= k < |l'.tickets| ==> TicketOk(s', l', k)
  {
    forall k | 0 <= k < |l'.tickets| ensures TicketOk(s', l', k) {
      assert k < |l.tickets| ==> TicketOk(s, l, k);
    }
  }

  lemma RecordKeeps(s: State, l: Log, t: nat, c: Choice)
    requires LogOk(s, l)
    ensures LogOk(Step(s, t, c), Record(l, s, t, c))
  {
    var s', l' := Step(s, t, c), Record(l, s, t, c);
    if t < |s.pcs| {
      assert PcLog(l, t, s.pcs[t]);
      RecordExtends(s, l, t, c);
      var op := TicketsGrow(s, l, t, c);
      TicketsKeep(s, l, s', l', t, op);
      forall u | 0 <= u < |s'.pcs| ensures PcLog(l', u, s'.pcs[u]) {
        if u == t {
          OwnLog(s, l, t, c);
        } else {
          OtherLog(s, l, t, c, u);
        }
      }
    } else {
      StepOutside(s, l, t, c);
    }
  }

  lemma StepOutside(s: State, l: Log, t: nat, c: Choice)
    requires LogOk(s, l) && t >= |s.pcs|
    ensures LogOk(Step(s, t, c), Record(l, s, t, c))
  {
    var s', l' := Step(s, t, c), Record(l, s, t, c);
    forall u | 0 <= u < |s'.pcs| ensures PcLog(l', u, s'.pcs[u]) {
      assert PcLog(l, u, s.pcs[u]);
    }
    forall k | 0 <= k < |l'.tickets| ensures TicketOk(s', l', k) {
      assert TicketOk(s, l, k);
    }
  }

  lemma {:induction false} ExecLog(s0: State, trace: seq<(nat, Choice)>)
    requires Initial(s0)
    ensures LogOk(Exec(s0, trace), LogOf(s0, trace)) && LogOf(s0, trace).step == |trace|
    decreases |trace|
  {
    if trace != [] {
      var n := |trace| - 1;
      ExecLog(s0, trace[..n]);
      RecordKeeps(Exec(s0, trace[..n]), LogOf(s0, trace[..n]), trace[n].0, trace[n].1);
    }
  }

  /** Entry i of the run begins a call. */
  ghost predicate IsCall(s0: State, trace: seq<(nat, Choice)>, i: nat)
    requires Initial(s0)
  {
    i < |trace| && trace[i].0 < |s0.pcs| && Begins(Exec(s0, trace[..i]), trace[i].0, trace[i].1)
  }

  lemma RecordNew(s: State, l: Log, t: nat, c: Choice, i: nat)
    requires Sized(s, l) && i in Record(l, s, t, c).calls
    requires i !in l.calls || l.calls[i] != Record(l, s, t, c).calls[i]
    ensures i == l.step && Record(l, s, t, c).calls[i] == (t, c) && t < |s.pcs| && Begins(s, t, c)
  {
  }

  lemma {:induction false} LogIsTrace(s0: State, trace: seq<(nat, Choice)>, i: nat)
    requires Initial(s0) && i in LogOf(s0, trace).calls
    ensures IsCall(s0, trace, i) && LogOf(s0, trace).calls[i] == trace[i]
    decreases |trace|
  {
    var n := |trace| - 1;
    var before := trace[..n];
    var l, l' := LogOf(s0, before), LogOf(s0, trace);
    ExecLog(s0, before);
    if i in l.calls && l.calls[i] == l'.calls[i] {
      LogIsTrace(s0, before, i);
      assert before[..i] == trace[..i];
    } else {
      RecordNew(Exec(s0, before), l, trace[n].0, trace[n].1, i);
    }
  }

  // ------------------------------------------------------- main results

  /** In every run, every accepted operation is that of one post which its thread began, and no post has
      two. */
  lemma AcceptedByPosts(s0: State, trace: seq<(nat, Choice)>, j: nat, k: nat)
    requires Initial(s0) && k < |Exec(s0, trace).accepted|
    ensures var op, tickets := Exec(s0, trace).accepted[k], LogOf(s0, trace).tickets;
            && |tickets| == |Exec(s0, trace).accepted| && IsCall(s0, trace, tickets[k])
            && trace[tickets[k]].0 == op.thread && trace[tickets[k]].1.Post?
            && trace[tickets[k]].1.rank == op.rank && trace[tickets[k]].1.id == op.id
            && (j < |tickets| && j != k ==> tickets[j] != tickets[k])
  {
    ExecLog(s0, trace);
    var l := LogOf(s0, trace);
    assert TicketOk(Exec(s0, trace), l, k);
    LogIsTrace(s0, trace, l.tickets[k]);
  }

  /** In every run, when a thread has returned from a post: the operation was accepted exactly when
      retries were not allowed or the backend took it, and the backend was asked exactly when the call
      read that nothing is queued for the rank. */
  lemma PostAnswers(s0: State, trace: seq<(nat, Choice)>, t: nat)
    requires Initial(s0) && t < |s0.pcs| && Exec(s0, trace).pcs[t].Idle?
    ensures var l := LogOf(s0, trace);
            && t < |l.call| == |l.read| == |l.asked| == |l.took|
            && (l.call[t] in l.calls && l.calls[l.call[t]].0 == t ==>
                  && IsCall(s0, trace, l.call[t]) && trace[l.call[t]].0 == t
                  && (trace[l.call[t]].1.Post? ==>
                        && (l.call[t] in l.tickets <==> !trace[l.call[t]].1.allowRetry || l.took[t])
                        && (l.asked[t] <==> l.read[t] == 0)))
  {
    ExecLog(s0, trace);
    var l := LogOf(s0, trace);
    assert PcLog(l, t, Exec(s0, trace).pcs[t]);
    if l.call[t] in l.calls {
      LogIsTrace(s0, trace, l.call[t]);
    }
  }

  // ------------------------------------------------------- posts return

  /** Steps of its own before the thread is idle. */
  function Left(pc: Pc): nat {
    match pc
    case Idle => 0
    case Check(_, _) => 7
    case Backend(_, _) => 6
    case Count(_) => 5
    case WantLock(_) => 4
    case Push(_) => 3
    case ClearEmpty => 2
    case Unlock => 1
    case CheckEmpty => 7
    case TryLock => 6
    case Look => 5
    case SetEmpty => 2
    case Pop(_) => 4
    case Popped(_) => 3
    case UnlockPopped(_) => 2
    case Subtract(_) => 1
  }

  predicate Waits(s: State, t: nat)
    requires t < |s.pcs|
  {
    s.pcs[t].WantLock? && s.lock.Some?
  }

  /** A thread that does not wait for the lock comes nearer to its return, whatever the backend answers. */
  lemma ComesNearer(s: State, t: nat, ok: bool)
    requires Inv(s) && t < |s.pcs| && !s.pcs[t].Idle? && !Waits(s, t)
    ensures var s' := Step(s, t, Go(ok));
            Left(s'.pcs[t]) < Left(s.pcs[t]) && forall u :: 0 <= u < |s.pcs| && u != t ==> s'.pcs[u] == s.pcs[u]
  {
    assert PcOk(s, t);
  }

  /** whole goes on where trace ends, with no new calls; answers(k) is what the backend says at step k. */
  ghost predicate OnlyGo(trace: seq<(nat, Choice)>, whole: seq<(nat, Choice)>, answers: nat -> bool) {
    trace <= whole && forall k :: |trace| <= k < |whole| ==> whole[k].1 == Go(answers(k))
  }

  lemma OneMore(s0: State, trace: seq<(nat, Choice)>, t: nat, answers: nat -> bool) returns (whole: seq<(nat, Choice)>)
    requires Initial(s0)
    ensures OnlyGo(trace, whole, answers) && Exec(s0, whole) == Step(Exec(s0, trace), t, Go(answers(|trace|)))
  {
    Extend(s0, trace, t, Go(answers(|trace|)));
    whole := trace + [(t, Go(answers(|trace|)))];
  }

  lemma GoTransitive(a: seq<(nat, Choice)>, b: seq<(nat, Choice)>, c: seq<(nat, Choice)>, answers: nat -> bool)
    requires OnlyGo(a, b, answers) && OnlyGo(b, c, answers)
    ensures OnlyGo(a, c, answers)
  {
    forall k | |a| <= k < |c| ensures c[k].1 == Go(answers(k)) {
      assert k < |b| ==> c[k] == b[k];
    }
  }

  /** Whoever holds the lock gives it back. */
  lemma {:induction false} LockIsGivenBack(s0: State, trace: seq<(nat, Choice)>, u: nat, answers: nat -> bool)
    returns (whole: seq<(nat, Choice)>)
    requires Initial(s0) && u < |s0.pcs| && Exec(s0, trace).lock == Some(u)
    ensures OnlyGo(trace, whole, answers) && Exec(s0, whole).lock.None?
    ensures forall v :: 0 <= v < |s0.pcs| && v != u ==> Exec(s0, whole).pcs[v] == Exec(s0, trace).pcs[v]
    decreases Left(Exec(s0, trace).pcs[u])
  {
    var s, ok := Exec(s0, trace), answers(|trace|);
    ExecInv(s0, trace);
    assert PcOk(s, u);
    ComesNearer(s, u, ok);
    whole := OneMore(s0, trace, u, answers);
    if Exec(s0, whole).lock.Some? {
      StillHolds(s, u, ok);
      var middle := whole;
      whole := LockIsGivenBack(s0, middle, u, answers);
      GoTransitive(trace, middle, whole, answers);
    }
  }

  lemma StillHolds(s: State, u: nat, ok: bool)
    requires Inv(s) && u < |s.pcs| && s.lock == Some(u) && Step(s, u, Go(ok)).lock.Some?
    ensures Step(s, u, Go(ok)).lock == Some(u)
  {
    assert PcOk(s, u);
  }

  /** Every run can be continued until a thread returns from its call, by steps of that thread and of
      those that hold the lock, whatever the backend answers. */
  lemma {:induction false} CallsReturn(s0: State, trace: seq<(nat, Choice)>, t: nat, answers: nat -> bool)
    returns (whole: seq<(nat, Choice)>)
    requires Initial(s0) && t < |s0.pcs|
    ensures OnlyGo(trace, whole, answers) && Exec(s0, whole).pcs[t].Idle?
    decreases Left(Exec(s0, trace).pcs[t]), if Exec(s0, trace).lock.Some? then 1 else 0
  {
    var s := Exec(s0, trace);
    ExecInv(s0, trace);
    whole := trace;
    if !s.pcs[t].Idle? {
      if Waits(s, t) {
        assert PcOk(s, t) && PcOk(s, s.lock.value);
        whole := LockIsGivenBack(s0, trace, s.lock.value, answers);
      } else {
        ComesNearer(s, t, answers(|trace|));
        whole := OneMore(s0, trace, t, answers);
      }
      var middle := whole;
      whole := CallsReturn(s0, middle, t, answers);
      GoTransitive(trace, middle, whole, answers);
    }
  }
}
