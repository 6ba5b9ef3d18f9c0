/** Every run of posts and progress: per thread and destination, what is accepted reaches the
    backend once and in order. */
module BacklogProof {
  import opened Options
  import opened Sums
  import opened Backlog

  // ------------------------------------------------------- the invariant

  /** The entries that did not reach the backend yet. */
  function Rest(s: State): seq<Op> {
    if s.lock.Some? && s.lock.value < |s.pcs| && s.pcs[s.lock.value].Pop? && s.queue != [] then s.queue[1..]
    else s.queue
  }

  predicate HoldsLock(pc: Pc) {
    pc.Push? || pc.ClearEmpty? || pc.Unlock? || pc.Look? || pc.SetEmpty? || pc.Pop? || pc.Popped? || pc.UnlockPopped?
  }

  /** Counted for the rank of op though not in the queue: not pushed yet, or popped already. */
  function Extra(pc: Pc, r: nat): nat {
    match pc
    case WantLock(op) => if op.rank == r then 1 else 0
    case Push(op) => if op.rank == r then 1 else 0
    case Popped(op) => if op.rank == r then 1 else 0
    case UnlockPopped(op) => if op.rank == r then 1 else 0
    case Subtract(op) => if op.rank == r then 1 else 0
    case _ => 0
  }

  function Extras(pcs: seq<Pc>, r: nat): seq<nat> {
    seq(|pcs|, t requires 0 <= t < |pcs| => Extra(pcs[t], r))
  }

  ghost predicate CountOk(s: State, r: nat)
    requires r < |s.nentries|
  {
    s.nentries[r] == RankCount(s.queue, r) + Sum(Extras(s.pcs, r))
  }

  ghost predicate OrderOk(s: State, t: nat, r: nat) {
    Of(s.backend, t, r) + Of(Rest(s), t, r) == Of(s.accepted, t, r)
  }

  /** What thread t knows at its program counter. */
  ghost predicate PcOk(s: State, t: nat)
    requires t < |s.pcs|
  {
    && (s.lock == Some(t) <==> HoldsLock(s.pcs[t]))
    && match s.pcs[t]
       case Check(op, _) => op.thread == t && op.rank < |s.nentries|
       case Backend(op, _) => op.thread == t && op.rank < |s.nentries| && Of(Rest(s), t, op.rank) == []
       case Count(op) => op.thread == t && op.rank < |s.nentries|
       case WantLock(op) => op.thread == t && op.rank < |s.nentries|
       case Push(op) => op.thread == t && op.rank < |s.nentries| && s.empty == (s.queue == [])
       case ClearEmpty => s.queue != []
       case Unlock => s.empty == (s.queue == [])
       case Look => s.empty == (s.queue == [])
       case SetEmpty => s.queue == []
       case Pop(op) => s.queue != [] && s.queue[0] == op && !s.empty
       case Popped(op) => !s.empty && op.rank < |s.nentries|
       case UnlockPopped(op) => s.empty == (s.queue == []) && op.rank < |s.nentries|
       case Subtract(op) => op.rank < |s.nentries|
       case _ => true
  }

  ghost predicate Inv(s: State) {
    && (forall i :: 0 <= i < |s.queue| ==> s.queue[i].rank < |s.nentries|)
    && (s.lock.Some? ==> s.lock.value < |s.pcs|)
    && (s.lock.None? ==> s.empty == (s.queue == []))
    && (forall t :: 0 <= t < |s.pcs| ==> PcOk(s, t))
    && (forall r :: 0 <= r < |s.nentries| ==> CountOk(s, r))
    && (forall t: nat, r: nat :: OrderOk(s, t, r))
  }

  // ------------------------------------------------------- each step keeps it

  lemma ExtrasStep(pcs: seq<Pc>, t: nat, pc: Pc, r: nat)
    requires t < |pcs|
    ensures Sum(Extras(pcs[t := pc], r)) == Sum(Extras(pcs, r)) - Extra(pcs[t], r) + Extra(pc, r)
  {
    SumUpdate(Extras(pcs, r), t, Extra(pc, r));
    assert Extras(pcs[t := pc], r) == Extras(pcs, r)[t := Extra(pc, r)];
  }

  /** Most steps neither count nor move an entry. */
  lemma CountSame(s: State, s': State, t: nat, r: nat)
    requires t < |s.pcs| == |s'.pcs| && r < |s.nentries| && CountOk(s, r)
    requires s'.pcs == s.pcs[t := s'.pcs[t]] && s'.nentries == s.nentries && s'.queue == s.queue
    requires Extra(s'.pcs[t], r) == Extra(s.pcs[t], r)
    ensures CountOk(s', r)
  {
    ExtrasStep(s.pcs, t, s'.pcs[t], r);
  }

  lemma PostSame(s: State, t: nat, ok: bool, r: nat)
    requires t < |s.pcs| && Posting(s.pcs[t]) && !s.pcs[t].Push? && !s.pcs[t].Count?
    ensures var s' := PostStep(s, t, ok);
            && |s'.pcs| == |s.pcs| && s'.pcs == s.pcs[t := s'.pcs[t]] && s'.nentries == s.nentries
            && s'.queue == s.queue && Extra(s'.pcs[t], r) == Extra(s.pcs[t], r)
  {
  }

  lemma CountCounts(s: State, t: nat, ok: bool, r: nat)
    requires t < |s.pcs| && r < |s.nentries| && CountOk(s, r) && s.pcs[t].Count?
    ensures CountOk(PostStep(s, t, ok), r)
  {
    ExtrasStep(s.pcs, t, WantLock(s.pcs[t].op), r);
  }

  lemma PushCounts(s: State, t: nat, ok: bool, r: nat)
    requires t < |s.pcs| && r < |s.nentries| && CountOk(s, r) && s.pcs[t].Push?
    ensures CountOk(PostStep(s, t, ok), r)
  {
    ExtrasStep(s.pcs, t, ClearEmpty, r);
    RankCountSnoc(s.queue, s.pcs[t].op, r);
  }

  lemma CountPost(s: State, t: nat, ok: bool, r: nat)
    requires t < |s.pcs| && r < |s.nentries| && CountOk(s, r) && Posting(s.pcs[t])
    ensures CountOk(PostStep(s, t, ok), r)
  {
    if s.pcs[t].Count? {
      CountCounts(s, t, ok, r);
    } else if s.pcs[t].Push? {
      PushCounts(s, t, ok, r);
    } else {
      PostSame(s, t, ok, r);
      CountSame(s, PostStep(s, t, ok), t, r);
    }
  }

  lemma RankCountSnoc(ops: seq<Op>, op: Op, r: nat)
    ensures RankCount(ops + [op], r) == RankCount(ops, r) + if op.rank == r then 1 else 0
  {
    assert (ops + [op])[..|ops|] == ops;
  }

  lemma ProgressSame(s: State, t: nat, ok: bool, r: nat)
    requires t < |s.pcs| && !s.pcs[t].Pop? && !s.pcs[t].Subtract?
    ensures var s' := ProgressStep(s, t, ok);
            && |s'.pcs| == |s.pcs| && s'.pcs == s.pcs[t := s'.pcs[t]] && s'.nentries == s.nentries
            && s'.queue == s.queue && Extra(s'.pcs[t], r) == Extra(s.pcs[t], r)
  {
  }

  lemma PopCounts(s: State, t: nat, ok: bool, r: nat)
    requires t < |s.pcs| && r < |s.nentries| && CountOk(s, r) && PcOk(s, t) && s.pcs[t].Pop?
    ensures CountOk(ProgressStep(s, t, ok), r)
  {
    ExtrasStep(s.pcs, t, Popped(s.pcs[t].op), r);
    RankCountTail(s.queue, r);
  }

  lemma SubtractCounts(s: State, t: nat, ok: bool, r: nat)
    requires t < |s.pcs| && r < |s.nentries| && CountOk(s, r) && s.pcs[t].Subtract?
    ensures CountOk(ProgressStep(s, t, ok), r)
  {
    ExtrasStep(s.pcs, t, Idle, r);
  }

  lemma CountProgress(s: State, t: nat, ok: bool, r: nat)
    requires t < |s.pcs| && r < |s.nentries| && CountOk(s, r) && PcOk(s, t)
    ensures CountOk(ProgressStep(s, t, ok), r)
  {
    if s.pcs[t].Pop? {
      PopCounts(s, t, ok, r);
    } else if s.pcs[t].Subtract? {
      SubtractCounts(s, t, ok, r);
    } else {
      ProgressSame(s, t, ok, r);
      CountSame(s, ProgressStep(s, t, ok), t, r);
    }
  }

  lemma CountStep(s: State, t: nat, c: Choice, r: nat)
    requires t < |s.pcs| && r < |s.nentries| && CountOk(s, r) && PcOk(s, t)
    ensures CountOk(Step(s, t, c), r)
  {
    if c.Go? {
      if Posting(s.pcs[t]) {
        CountPost(s, t, c.ok, r);
      } else {
        CountProgress(s, t, c.ok, r);
      }
    } else {
      ExtrasStep(s.pcs, t, Step(s, t, c).pcs[t], r);
      assert Step(s, t, c).pcs == s.pcs[t := Step(s, t, c).pcs[t]];
    }
  }

  /** The queue without its first entry, as one thread and rank sees it. */
  lemma OfTail(ops: seq<Op>, t: nat, r: nat)
    requires ops != []
    ensures Of(ops, t, r) == Of([ops[0]], t, r) + Of(ops[1..], t, r)
  {
    OfConcat([ops[0]], ops[1..], t, r);
    assert ops == [ops[0]] + ops[1..];
  }

  lemma OfSnoc(ops: seq<Op>, op: Op, t: nat, r: nat)
    ensures Of(ops + [op], t, r) == Of(ops, t, r) + Of([op], t, r)
    ensures Of([op], t, r) == if op.thread == t && op.rank == r then [op] else []
  {
    OfConcat(ops, [op], t, r);
    assert [op][..0] == [];
  }

  /** Only a push and a successful post of the front entry change what is left to do. */
  lemma RestStep(s: State, t: nat, c: Choice)
    requires t < |s.pcs| && PcOk(s, t)
    ensures var s' := Step(s, t, c);
            if c.Go? && s.pcs[t].Push? then Rest(s) == s.queue && Rest(s') == s.queue + [s.pcs[t].op]
            else if c.Go? && s.pcs[t].Look? && s.queue != [] && c.ok then Rest(s) == s.queue && Rest(s') == s.queue[1..]
            else Rest(s') == Rest(s)
  {
  }

  lemma OrderDirect(backend: seq<Op>, rest: seq<Op>, accepted: seq<Op>, op: Op, u: nat, r: nat)
    requires Of(backend, u, r) + Of(rest, u, r) == Of(accepted, u, r)
    requires op.thread == u && op.rank == r ==> Of(rest, u, r) == []
    ensures Of(backend + [op], u, r) + Of(rest, u, r) == Of(accepted + [op], u, r)
  {
    OfSnoc(backend, op, u, r);
    OfSnoc(accepted, op, u, r);
  }

  lemma OrderPush(backend: seq<Op>, rest: seq<Op>, accepted: seq<Op>, op: Op, u: nat, r: nat)
    requires Of(backend, u, r) + Of(rest, u, r) == Of(accepted, u, r)
    ensures Of(backend, u, r) + Of(rest + [op], u, r) == Of(accepted + [op], u, r)
  {
    OfSnoc(rest, op, u, r);
    OfSnoc(accepted, op, u, r);
    Append(Of(backend, u, r), Of(rest, u, r), Of(accepted, u, r), Of([op], u, r), Of(rest + [op], u, r));
  }

  lemma Append(b: seq<Op>, rest: seq<Op>, accepted: seq<Op>, x: seq<Op>, more: seq<Op>)
    requires b + rest == accepted && more == rest + x
    ensures b + more == accepted + x
  {
  }

  lemma Regroup(b: seq<Op>, x: seq<Op>, tail: seq<Op>, rest: seq<Op>, accepted: seq<Op>, bx: seq<Op>)
    requires bx == b + x && rest == x + tail && b + rest == accepted
    ensures bx + tail == accepted
  {
  }

  lemma OrderFront(backend: seq<Op>, rest: seq<Op>, accepted: seq<Op>, u: nat, r: nat)
    requires rest != [] && Of(backend, u, r) + Of(rest, u, r) == Of(accepted, u, r)
    ensures Of(backend + [rest[0]], u, r) + Of(rest[1..], u, r) == Of(accepted, u, r)
  {
    var first, tail := [rest[0]], rest[1..];
    assert rest == first + tail;
    OfConcat(first, tail, u, r);
    OfConcat(backend, first, u, r);
    Regroup(Of(backend, u, r), Of(first, u, r), Of(tail, u, r), Of(rest, u, r), Of(accepted, u, r),
            Of(backend + first, u, r));
  }

  lemma OrderStep(s: State, t: nat, c: Choice, u: nat, r: nat)
    requires t < |s.pcs| && PcOk(s, t) && OrderOk(s, u, r)
    ensures OrderOk(Step(s, t, c), u, r)
  {
    RestStep(s, t, c);
    if c.Go? && s.pcs[t].Backend? && c.ok {
      OrderDirect(s.backend, Rest(s), s.accepted, s.pcs[t].op, u, r);
    } else if c.Go? && s.pcs[t].Push? {
      OrderPush(s.backend, Rest(s), s.accepted, s.pcs[t].op, u, r);
    } else if c.Go? && s.pcs[t].Look? && s.queue != [] && c.ok {
      OrderFront(s.backend, Rest(s), s.accepted, u, r);
    } else {
      LogsSame(s, t, c);
    }
  }

  lemma LogsSame(s: State, t: nat, c: Choice)
    requires t < |s.pcs|
    requires !(c.Go? && (s.pcs[t].Push? || ((s.pcs[t].Backend? || (s.pcs[t].Look? && s.queue != [])) && c.ok)))
    ensures Step(s, t, c).backend == s.backend && Step(s, t, c).accepted == s.accepted
  {
  }

  /** Thread t's own step leaves it where it should be. */
  lemma OwnStep(s: State, t: nat, c: Choice)
    requires Inv(s) && t < |s.pcs|
    ensures PcOk(Step(s, t, c), t)
  {
    assert PcOk(s, t);
    if s.pcs[t].Check? {
      var r := s.pcs[t].op.rank;
      assert CountOk(s, r);
      if s.nentries[r] == 0 {
        NoneLeft(s, t, r);
      }
    }
    OwnMove(s, t, c);
  }

  lemma OwnMove(s: State, t: nat, c: Choice)
    requires t < |s.pcs| && PcOk(s, t)
    requires forall i :: 0 <= i < |s.queue| ==> s.queue[i].rank < |s.nentries|
    requires s.lock.None? ==> s.empty == (s.queue == [])
    requires s.pcs[t].Check? && Entries(s.nentries, s.pcs[t].op.rank) == 0 ==> Of(Rest(s), t, s.pcs[t].op.rank) == []
    ensures PcOk(Step(s, t, c), t)
  {
    if c.Go? && Posting(s.pcs[t]) {
      OwnPost(s, t, c.ok);
    } else if c.Go? {
      OwnProgress(s, t, c.ok);
    }
  }

  lemma OwnPost(s: State, t: nat, ok: bool)
    requires t < |s.pcs| && PcOk(s, t) && Posting(s.pcs[t])
    requires s.lock.None? ==> s.empty == (s.queue == [])
    requires s.pcs[t].Check? && Entries(s.nentries, s.pcs[t].op.rank) == 0 ==> Of(Rest(s), t, s.pcs[t].op.rank) == []
    ensures PcOk(PostStep(s, t, ok), t)
  {
    RestStep(s, t, Go(ok));
  }

  lemma OwnProgress(s: State, t: nat, ok: bool)
    requires t < |s.pcs| && PcOk(s, t) && !Posting(s.pcs[t])
    requires forall i :: 0 <= i < |s.queue| ==> s.queue[i].rank < |s.nentries|
    requires s.lock.None? ==> s.empty == (s.queue == [])
    ensures PcOk(ProgressStep(s, t, ok), t)
  {
  }

  /** A zero counter means that no entry for the rank is left. */
  lemma NoneLeft(s: State, t: nat, r: nat)
    requires r < |s.nentries| && CountOk(s, r) && s.nentries[r] == 0
    ensures Of(Rest(s), t, r) == []
  {
    NoneOf(s.queue, t, r);
    if s.queue != [] {
      OfTail(s.queue, t, r);
    }
  }

  /** Nobody but the holder changes what the lock protects, and nobody takes it from the holder. */
  ghost predicate Protected(s: State, s': State, t: nat) {
    && t < |s.pcs| == |s'.pcs| && s'.pcs == s.pcs[t := s'.pcs[t]] && |s'.nentries| == |s.nentries|
    && (s'.lock == s.lock || s'.lock == None || s'.lock == Some(t))
    && (s.lock.Some? && s.lock != Some(t) ==> s'.lock == s.lock && s'.queue == s.queue && s'.empty == s.empty)
  }

  lemma PostProtects(s: State, t: nat, ok: bool)
    requires t < |s.pcs| && (s.lock == Some(t) <==> HoldsLock(s.pcs[t]))
    ensures Protected(s, PostStep(s, t, ok), t)
  {
  }

  lemma ProgressProtects(s: State, t: nat, ok: bool)
    requires t < |s.pcs| && (s.lock == Some(t) <==> HoldsLock(s.pcs[t]))
    ensures Protected(s, ProgressStep(s, t, ok), t)
  {
  }

  lemma CallProtects(s: State, t: nat, c: Choice)
    requires t < |s.pcs| && !c.Go?
    ensures Protected(s, Step(s, t, c), t)
  {
  }

  lemma LockProtects(s: State, t: nat, c: Choice)
    requires t < |s.pcs| && (s.lock == Some(t) <==> HoldsLock(s.pcs[t]))
    ensures Protected(s, Step(s, t, c), t)
  {
    if !c.Go? {
      CallProtects(s, t, c);
    } else if Posting(s.pcs[t]) {
      PostProtects(s, t, c.ok);
    } else {
      ProgressProtects(s, t, c.ok);
    }
  }

  /** No operation of thread u for rank r joins the rest while another thread moves. */
  lemma StillNone(s: State, t: nat, c: Choice, u: nat, r: nat)
    requires t < |s.pcs| && u != t && PcOk(s, t) && Of(Rest(s), u, r) == []
    ensures Of(Rest(Step(s, t, c)), u, r) == []
  {
    RestStep(s, t, c);
    if c.Go? && s.pcs[t].Push? {
      OfSnoc(s.queue, s.pcs[t].op, u, r);
    } else if c.Go? && s.pcs[t].Look? && s.queue != [] {
      OfTail(s.queue, u, r);
    }
  }

  /** Another thread's step does not disturb thread u. */
  lemma OtherStep(s: State, t: nat, c: Choice, u: nat)
    requires t < |s.pcs| && u < |s.pcs| && u != t && PcOk(s, t) && PcOk(s, u)
    ensures PcOk(Step(s, t, c), u)
  {
    LockProtects(s, t, c);
    if s.pcs[u].Backend? {
      StillNone(s, t, c, u, s.pcs[u].op.rank);
    }
    Undisturbed(s, Step(s, t, c), u);
  }

  lemma Undisturbed(s: State, s': State, u: nat)
    requires u < |s.pcs| && u < |s'.pcs| && PcOk(s, u) && s'.pcs[u] == s.pcs[u] && |s'.nentries| == |s.nentries|
    requires s.lock == Some(u) ==> s'.lock == s.lock && s'.queue == s.queue && s'.empty == s.empty
    requires s.lock != Some(u) ==> s'.lock != Some(u)
    requires s.pcs[u].Backend? ==> Of(Rest(s'), u, s.pcs[u].op.rank) == []
    ensures PcOk(s', u)
  {
  }

  lemma FlagStep(s: State, t: nat, c: Choice)
    requires Inv(s) && t < |s.pcs|
    ensures var s' := Step(s, t, c);
            && (s'.lock.Some? ==> s'.lock.value < |s'.pcs|)
            && (s'.lock.None? ==> s'.empty == (s'.queue == []))
            && (forall i :: 0 <= i < |s'.queue| ==> s'.queue[i].rank < |s'.nentries|)
  {
    assert PcOk(s, t);
  }

  lemma StepKeeps(s: State, t: nat, c: Choice)
    requires Inv(s)
    ensures Inv(Step(s, t, c))
  {
    if t < |s.pcs| {
      var s' := Step(s, t, c);
      assert PcOk(s, t);
      FlagStep(s, t, c);
      forall u | 0 <= u < |s.pcs| ensures PcOk(s', u) {
        assert PcOk(s, u);
        if u == t {
          OwnStep(s, t, c);
        } else {
          OtherStep(s, t, c, u);
        }
      }
      forall r | 0 <= r < |s.nentries| ensures CountOk(s', r) {
        assert CountOk(s, r);
        CountStep(s, t, c, r);
      }
      forall u: nat, r: nat ensures OrderOk(s', u, r) {
        assert OrderOk(s, u, r);
        OrderStep(s, t, c, u, r);
      }
    }
  }

  lemma {:induction false} ExecInv(s0: State, trace: seq<(nat, Choice)>)
    requires Initial(s0)
    ensures Inv(Exec(s0, trace))
  {
    if trace == [] {
      forall r | 0 <= r < |s0.nentries| ensures CountOk(s0, r) {
        SumZero(Extras(s0.pcs, r));
      }
    } else {
      var before, e := trace[..|trace| - 1], trace[|trace| - 1];
      ExecInv(s0, before);
      StepKeeps(Exec(s0, before), e.0, e.1);
    }
  }

  // ------------------------------------------------------- main results

  /** In every run, whatever the backend answers: the operations that thread t had accepted for rank
      r are, in acceptance order, those that reached the backend followed by those still queued. */
  lemma AcceptedOnceInOrder(s0: State, trace: seq<(nat, Choice)>, t: nat, r: nat)
    requires Initial(s0)
    ensures var s := Exec(s0, trace);
            && Of(s.backend, t, r) + Of(Rest(s), t, r) == Of(s.accepted, t, r)
            && Of(s.backend, t, r) <= Of(s.accepted, t, r)
  {
    ExecInv(s0, trace);
    assert OrderOk(Exec(s0, trace), t, r);
  }

  /** Whenever the lock is free, the empty flag tells whether the queue is empty. */
  lemma FlagTellsTruth(s0: State, trace: seq<(nat, Choice)>)
    requires Initial(s0)
    ensures var s := Exec(s0, trace); s.lock.None? ==> (s.empty <==> s.queue == [])
  {
    ExecInv(s0, trace);
  }

  /** When every call has returned and the queue is empty, everything accepted has reached the
      backend in order and every counter is zero, as the destructor demands. */
  lemma DrainedMeansDelivered(s0: State, trace: seq<(nat, Choice)>, t: nat, r: nat)
    requires Initial(s0) && r < |s0.nentries|
    requires Exec(s0, trace).queue == [] && forall u :: 0 <= u < |s0.pcs| ==> Exec(s0, trace).pcs[u] == Idle
    ensures var s := Exec(s0, trace);
            Of(s.backend, t, r) == Of(s.accepted, t, r) && s.nentries[r] == 0 && s.empty
  {
    ExecInv(s0, trace);
    var s := Exec(s0, trace);
    assert OrderOk(s, t, r) && CountOk(s, r);
    SumZero(Extras(s.pcs, r));
    assert s.lock.Some? ==> PcOk(s, s.lock.value);
  }

  // ------------------------------------------------------- progress empties the queue

  lemma Extend(s0: State, trace: seq<(nat, Choice)>, t: nat, c: Choice)
    requires Initial(s0)
    ensures Exec(s0, trace + [(t, c)]) == Step(Exec(s0, trace), t, c)
  {
    assert (trace + [(t, c)])[..|trace|] == trace;
  }

  /** Thread t goes on k times, and the backend takes what it is given. */
  function GoOn(s: State, t: nat, k: nat): State
    decreases k
  {
    if k == 0 then s else GoOn(Step(s, t, Go(true)), t, k - 1)
  }

  lemma {:induction false} GoOnIsRun(s0: State, trace: seq<(nat, Choice)>, t: nat, k: nat)
    returns (trace': seq<(nat, Choice)>)
    requires Initial(s0)
    ensures Exec(s0, trace') == GoOn(Exec(s0, trace), t, k) && ProgressOnly(trace, trace', t)
    decreases k
  {
    trace' := trace;
    if k > 0 {
      Extend(s0, trace, t, Go(true));
      trace' := GoOnIsRun(s0, trace + [(t, Go(true))], t, k - 1);
    }
  }

  /** trace' goes on where trace ends, with calls of progress by thread t alone. */
  ghost predicate ProgressOnly(trace: seq<(nat, Choice)>, trace': seq<(nat, Choice)>, t: nat) {
    && trace <= trace'
    && forall i :: |trace| <= i < |trace'| ==> trace'[i] == (t, Progress) || trace'[i] == (t, Go(true))
  }

  /** What one call of progress makes of a queue that is not empty. */
  function AfterProgress(s: State): State
    requires s.queue != []
  {
    s.(queue := s.queue[1..], backend := s.backend + [s.queue[0]], empty := s.empty || |s.queue| == 1,
       nentries := Add(s.nentries, s.queue[0].rank, -1))
  }

  lemma GoTwice(s: State, s1: State, s2: State, t: nat)
    requires Step(s, t, Go(true)) == s1 && Step(s1, t, Go(true)) == s2
    ensures GoOn(s, t, 2) == s2
  {
    assert GoOn(s, t, 2) == GoOn(s1, t, 1) == GoOn(s2, t, 0);
  }

  lemma ProgressTakesLock(s: State, t: nat)
    requires t < |s.pcs| && s.pcs[t].Idle? && s.lock.None? && !s.empty
    ensures GoOn(Step(s, t, Progress), t, 2) == SetPc(s.(lock := Some(t)), t, Look)
  {
    var s1, s2, s3 := SetPc(s, t, CheckEmpty), SetPc(s, t, TryLock), SetPc(s.(lock := Some(t)), t, Look);
    assert s1.pcs[t := TryLock] == s2.pcs && s2.pcs[t := Look] == s3.pcs;
    GoTwice(s1, s2, s3, t);
  }

  lemma ProgressPops(s: State, t: nat)
    requires t < |s.pcs| && s.pcs[t].Look? && s.queue != []
    ensures var op := s.queue[0];
            GoOn(s, t, 2) == SetPc(s.(queue := s.queue[1..], backend := s.backend + [op]), t, Popped(op))
  {
    var op := s.queue[0];
    var s1 := SetPc(s.(backend := s.backend + [op]), t, Pop(op));
    var s2 := SetPc(s.(queue := s.queue[1..], backend := s.backend + [op]), t, Popped(op));
    assert s1.pcs[t := Popped(op)] == s2.pcs;
    GoTwice(s, s1, s2, t);
  }

  lemma ProgressUnlocks(s: State, t: nat)
    requires t < |s.pcs| && s.pcs[t].UnlockPopped?
    ensures GoOn(s, t, 2) == SetPc(s.(lock := None, nentries := Add(s.nentries, s.pcs[t].op.rank, -1)), t, Idle)
  {
    var op := s.pcs[t].op;
    var s1 := SetPc(s.(lock := None), t, Subtract(op));
    assert Step(s, t, Go(true)) == s1;
    SubtractStep(s1, t);
    assert s1.pcs[t := Idle] == s.pcs[t := Idle];
    GoTwice(s, s1, Step(s1, t, Go(true)), t);
  }

  lemma SubtractStep(s: State, t: nat)
    requires t < |s.pcs| && s.pcs[t].Subtract?
    ensures Step(s, t, Go(true)) == SetPc(s.(nentries := Add(s.nentries, s.pcs[t].op.rank, -1)), t, Idle)
  {
  }

  lemma ProgressReturns(s: State, t: nat)
    requires t < |s.pcs| && s.pcs[t].Popped?
    ensures var op := s.pcs[t].op;
            GoOn(s, t, 3) == SetPc(s.(empty := s.empty || s.queue == [], lock := None,
                                      nentries := Add(s.nentries, op.rank, -1)), t, Idle)
  {
    var op := s.pcs[t].op;
    var s1 := SetPc(s.(empty := s.empty || s.queue == []), t, UnlockPopped(op));
    assert Step(s, t, Go(true)) == s1;
    assert GoOn(s, t, 3) == GoOn(s1, t, 2);
    ProgressUnlocks(s1, t);
    assert s1.pcs[t := Idle] == s.pcs[t := Idle];
  }

  lemma {:induction false} GoOnAdds(s: State, t: nat, a: nat, b: nat)
    ensures GoOn(GoOn(s, t, a), t, b) == GoOn(s, t, a + b)
    decreases a
  {
    if a > 0 {
      GoOnAdds(Step(s, t, Go(true)), t, a - 1, b);
    }
  }

  lemma ProgressOnce(s: State, t: nat)
    requires t < |s.pcs| && s.pcs[t].Idle? && s.lock.None? && !s.empty && s.queue != []
    ensures GoOn(Step(s, t, Progress), t, 7) == AfterProgress(s)
  {
    var s1 := Step(s, t, Progress);
    var s2 := SetPc(s.(lock := Some(t)), t, Look);
    var s3 := SetPc(s2.(queue := s.queue[1..], backend := s.backend + [s.queue[0]]), t, Popped(s.queue[0]));
    ProgressTakesLock(s, t);
    ProgressPops(s2, t);
    ProgressReturns(s3, t);
    GoOnAdds(s1, t, 2, 2);
    GoOnAdds(s1, t, 4, 3);
    assert s.pcs[t := Look][t := Popped(s.queue[0])][t := Idle] == s.pcs;
  }

  /** One call of progress, continuing a run. */
  lemma ProgressCall(s0: State, trace: seq<(nat, Choice)>, t: nat) returns (trace': seq<(nat, Choice)>)
    requires Initial(s0)
    requires var s := Exec(s0, trace); t < |s.pcs| && s.pcs[t].Idle? && s.lock.None? && s.queue != []
    ensures Exec(s0, trace') == AfterProgress(Exec(s0, trace)) && ProgressOnly(trace, trace', t)
  {
    FlagTellsTruth(s0, trace);
    Extend(s0, trace, t, Progress);
    ProgressOnce(Exec(s0, trace), t);
    trace' := GoOnIsRun(s0, trace + [(t, Progress)], t, 7);
  }

  lemma FirstThenRest(a: seq<Op>, b: seq<Op>)
    requires b != []
    ensures a + [b[0]] + b[1..] == a + b
  {
  }

  /** Any run in which the lock is free and thread t has no call under way can be continued, by calls
      of progress of that thread alone, until everything queued has reached the backend in order. */
  lemma {:induction false} ProgressDrains(s0: State, trace: seq<(nat, Choice)>, t: nat)
    returns (trace': seq<(nat, Choice)>)
    requires Initial(s0)
    requires var s := Exec(s0, trace); t < |s.pcs| && s.pcs[t].Idle? && s.lock.None?
    ensures ProgressOnly(trace, trace', t)
    ensures var s, s' := Exec(s0, trace), Exec(s0, trace');
            && s'.queue == [] && s'.backend == s.backend + s.queue && s'.accepted == s.accepted
            && s'.pcs == s.pcs && s'.lock.None? && s'.empty
    decreases |Exec(s0, trace).queue|
  {
    var s := Exec(s0, trace);
    FlagTellsTruth(s0, trace);
    trace' := trace;
    if s.queue != [] {
      trace' := ProgressCall(s0, trace, t);
      var middle := trace';
      trace' := ProgressDrains(s0, middle, t);
      FirstThenRest(s.backend, s.queue);
      Transitive(trace, middle, trace', t);
    } else {
      assert s.backend + s.queue == s.backend;
    }
  }

  lemma Transitive(a: seq<(nat, Choice)>, b: seq<(nat, Choice)>, c: seq<(nat, Choice)>, t: nat)
    requires ProgressOnly(a, b, t) && ProgressOnly(b, c, t)
    ensures ProgressOnly(a, c, t)
  {
    forall i | |a| <= i < |c| ensures c[i] == (t, Progress) || c[i] == (t, Go(true)) {
      assert i < |b| ==> c[i] == b[i];
    }
  }
}
