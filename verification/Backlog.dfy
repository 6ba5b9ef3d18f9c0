/** The backlog queue (src/backlog_queue/backlog_queue_inline.hpp) and the posting decision that
    uses it (src/network/endpoint_inline.hpp). A thread's next atomic action is its program counter;
    the backend answers each attempt as it likes. */
module Backlog {
  import opened Options

  /** An operation that thread `thread` posts to destination `rank`. */
  datatype Op = Op(thread: nat, rank: nat, id: nat)

  datatype Pc =
    | Idle
    // post_*
    | Check(op: Op, allowRetry: bool) // load the number of backlogged entries of the rank
    | Backend(op: Op, allowRetry: bool) // hand it to the backend
    | Count(op: Op) // backlog_queue.push_*: raise the number
    | WantLock(op: Op)
    | Push(op: Op)
    | ClearEmpty
    | Unlock
    // backlog_queue.progress
    | CheckEmpty
    | TryLock
    | Look // lock held: post the front entry, if any
    | SetEmpty // lock held: the queue was found empty
    | Pop(op: Op) // lock held: the front entry was posted
    | Popped(op: Op) // lock held
    | UnlockPopped(op: Op)
    | Subtract(op: Op) // lower the number

  /** backend and accepted record, in order, what reached the backend and what the callers were
      told is accepted. */
  datatype State = State(queue: seq<Op>, nentries: seq<int>, empty: bool, lock: Option<nat>,
                         backend: seq<Op>, accepted: seq<Op>, pcs: seq<Pc>)

  /** Begin a post, begin progress, or go on; ok is the backend's answer where it is asked. */
  datatype Choice = Post(rank: nat, id: nat, allowRetry: bool) | Progress | Go(ok: bool)

  function SetPc(s: State, t: nat, pc: Pc): State
    requires t < |s.pcs|
  {
    s.(pcs := s.pcs[t := pc])
  }

  /** fetch_add on the counter of rank r */
  function Add(a: seq<int>, r: nat, d: int): seq<int> {
    if r < |a| then a[r := a[r] + d] else a
  }

  function Entries(a: seq<int>, r: nat): int {
    if r < |a| then a[r] else 0
  }

  /** post_*, and push_* where the operation must not fail. */
  function PostStep(s: State, t: nat, ok: bool): State
    requires t < |s.pcs|
  {
    match s.pcs[t]
    case Check(op, allowRetry) =>
      if Entries(s.nentries, op.rank) == 0 then SetPc(s, t, Backend(op, allowRetry))
      else SetPc(s, t, if allowRetry then Idle else Count(op))
    case Backend(op, allowRetry) =>
      if ok then SetPc(s.(backend := s.backend + [op], accepted := s.accepted + [op]), t, Idle)
      else SetPc(s, t, if allowRetry then Idle else Count(op))
    case Count(op) => SetPc(s.(nentries := Add(s.nentries, op.rank, 1)), t, WantLock(op))
    case WantLock(op) => if s.lock.None? then SetPc(s.(lock := Some(t)), t, Push(op)) else s
    case Push(op) => SetPc(s.(queue := s.queue + [op], accepted := s.accepted + [op]), t, ClearEmpty)
    case ClearEmpty => SetPc(s.(empty := false), t, Unlock)
    case Unlock => SetPc(s.(lock := None), t, Idle)
    case _ => s
  }

  function ProgressStep(s: State, t: nat, ok: bool): State
    requires t < |s.pcs|
  {
    match s.pcs[t]
    case CheckEmpty => SetPc(s, t, if s.empty then Idle else TryLock)
    case TryLock => if s.lock.None? then SetPc(s.(lock := Some(t)), t, Look) else SetPc(s, t, Idle)
    case Look =>
      if s.queue == [] then SetPc(s, t, SetEmpty)
      else if ok then SetPc(s.(backend := s.backend + [s.queue[0]]), t, Pop(s.queue[0]))
      else SetPc(s, t, Unlock)
    case SetEmpty => SetPc(s.(empty := true), t, Unlock)
    case Pop(op) => if s.queue == [] then s else SetPc(s.(queue := s.queue[1..]), t, Popped(op))
    case Popped(op) => SetPc(s.(empty := if s.queue == [] then true else s.empty), t, UnlockPopped(op))
    case UnlockPopped(op) => SetPc(s.(lock := None), t, Subtract(op))
    case Subtract(op) => SetPc(s.(nentries := Add(s.nentries, op.rank, -1)), t, Idle)
    case _ => s
  }

  predicate Posting(pc: Pc) {
    pc.Check? || pc.Backend? || pc.Count? || pc.WantLock? || pc.Push? || pc.ClearEmpty? || pc.Unlock?
  }

  function Step(s: State, t: nat, c: Choice): (s': State)
    ensures |s'.pcs| == |s.pcs| && |s'.nentries| == |s.nentries|
  {
    if t >= |s.pcs| then s else
      match c
      case Post(rank, id, allowRetry) =>
        if s.pcs[t].Idle? && rank < |s.nentries| then SetPc(s, t, Check(Op(t, rank, id), allowRetry)) else s
      case Progress => if s.pcs[t].Idle? then SetPc(s, t, CheckEmpty) else s
      case Go(ok) => if Posting(s.pcs[t]) then PostStep(s, t, ok) else ProgressStep(s, t, ok)
  }

  ghost predicate Initial(s: State) {
    && s.queue == [] && s.backend == [] && s.accepted == [] && s.empty && s.lock == None
    && (forall r :: 0 <= r < |s.nentries| ==> s.nentries[r] == 0)
    && (forall t :: 0 <= t < |s.pcs| ==> s.pcs[t] == Idle)
  }

  ghost function Exec(s0: State, trace: seq<(nat, Choice)>): (s: State)
    requires Initial(s0)
    ensures |s.pcs| == |s0.pcs| && |s.nentries| == |s0.nentries|
  {
    if trace == [] then s0 else
      var e := trace[|trace| - 1];
      Step(Exec(s0, trace[..|trace| - 1]), e.0, e.1)
  }

  // ------------------------------------------------------- views of a sequence of operations

  /** What thread t posted to rank r, in order. */
  function Of(ops: seq<Op>, t: nat, r: nat): seq<Op> {
    if ops == [] then []
    else
      var op := ops[|ops| - 1];
      Of(ops[..|ops| - 1], t, r) + if op.thread == t && op.rank == r then [op] else []
  }

  lemma {:induction false} OfConcat(a: seq<Op>, b: seq<Op>, t: nat, r: nat)
    ensures Of(a + b, t, r) == Of(a, t, r) + Of(b, t, r)
    decreases |b|
  {
    if b == [] {
      assert a + b == a;
    } else {
      OfConcat(a, b[..|b| - 1], t, r);
      assert (a + b)[..|a + b| - 1] == a + b[..|b| - 1];
    }
  }

  function RankCount(ops: seq<Op>, r: nat): nat {
    if ops == [] then 0 else RankCount(ops[..|ops| - 1], r) + if ops[|ops| - 1].rank == r then 1 else 0
  }

  lemma {:induction false} RankCountTail(ops: seq<Op>, r: nat)
    requires ops != []
    ensures RankCount(ops, r) == RankCount(ops[1..], r) + if ops[0].rank == r then 1 else 0
    decreases |ops|
  {
    var front := ops[..|ops| - 1];
    if front == [] {
      assert ops[1..] == [] && RankCount(front, r) == 0;
    } else {
      RankCountTail(front, r);
      assert ops[1..][..|ops| - 2] == front[1..];
    }
  }

  /** A thread with an entry for rank r is counted there. */
  lemma {:induction false} NoneOf(ops: seq<Op>, t: nat, r: nat)
    requires RankCount(ops, r) == 0
    ensures Of(ops, t, r) == []
    decreases |ops|
  {
    if ops != [] {
      NoneOf(ops[..|ops| - 1], t, r);
    }
  }
}
