/** The runs in which an archive insertion fails although few transfers are live at a time: while the
    insertion goes round the slots, they are freed behind it and filled before it. */
module RendezvousInsertions {
  import opened Options
  import opened Rendezvous
  import opened RendezvousArchive
  import opened RendezvousEnds
  import opened RendezvousProof

  // ------------------------------------------------------- states of runs within the limit

  ghost predicate Reached(p: Params, s: State, limit: nat) {
    Inv(p, s) && exists s0, trace :: Initial(p, s0) && Exec(p, s0, trace) == s && Within(p, s0, trace, limit)
  }

  ghost function Beginning(p: Params): (s0: State)
    requires ParamsOk(p)
    ensures Initial(p, s0)
  {
    State(seq(|p.data|, i requires 0 <= i < |p.data| => Transfer(Fresh, Idle, 0, 0, {}, {}, 0, p.data[i], 0, 0)),
          {}, {}, multiset{}, multiset{}, seq(p.slots, _ => None), 0)
  }

  lemma BeginningReached(p: Params, limit: nat)
    requires ParamsOk(p)
    ensures Reached(p, Beginning(p), limit) && LiveSet(p, Beginning(p)) == {}
  {
    var s0 := Beginning(p);
    ExecInv(p, s0, []);
    assert LiveSet(p, s0) == {};
    assert Exec(p, s0, []) == s0 && Within(p, s0, [], limit);
  }

  lemma Reach(p: Params, s: State, c: Choice, limit: nat)
    requires ParamsOk(p) && Reached(p, s, limit) && |LiveSet(p, Step(p, s, c))| <= limit
    ensures Reached(p, Step(p, s, c), limit)
  {
    var s0, trace :| Initial(p, s0) && Exec(p, s0, trace) == s && Within(p, s0, trace, limit);
    ExecSnoc(p, s0, trace, c);
    ExecInv(p, s0, trace + [c]);
    WithinSnoc(p, s0, trace, c, limit);
  }

  lemma ReachedSmall(p: Params, s: State, limit: nat)
    requires Reached(p, s, limit)
    ensures |LiveSet(p, s)| <= limit
  {
  }

  /** A step that posts no RTS stays within the limit. */
  lemma ReachQuiet(p: Params, s: State, c: Choice, limit: nat)
    requires ParamsOk(p) && Reached(p, s, limit) && !c.PostRts?
    ensures Reached(p, Step(p, s, c), limit) && LiveSet(p, Step(p, s, c)) <= LiveSet(p, s)
    ensures |LiveSet(p, Step(p, s, c))| <= |LiveSet(p, s)|
  {
    ReachedSmall(p, s, limit);
    LiveShrinks(p, s, c);
    SubsetSize(LiveSet(p, Step(p, s, c)), LiveSet(p, s));
    Reach(p, s, c, limit);
  }

  // ------------------------------------------------------- one transfer at a time

  /** Nothing but transfer i differs. */
  ghost predicate Others(p: Params, s: State, s': State, i: nat)
    requires Shaped(p, s) && Shaped(p, s')
  {
    forall k: nat :: k < |p.data| && k != i ==> s'.transfers[k] == s.transfers[k]
  }

  function After(slot: nat, slots: nat): nat {
    if slot + 1 == slots then 0 else slot + 1
  }

  lemma BeginSteps(p: Params, s: State, m: nat)
    requires Inv(p, s) && p.writeImm && m < |p.data| && s.transfers[m].sender == Fresh
    ensures var s' := Step(p, Step(p, s, PostRts(m)), HandleRts(m));
            s'.transfers[m].receiver == Probing(s.nextSlot, 0) && s'.archive == s.archive
            && s'.nextSlot == After(s.nextSlot, p.slots) && Others(p, s, s', m)
  {
  }

  /** Transfer m begins. */
  lemma Begin(p: Params, s: State, limit: nat, m: nat) returns (s': State)
    requires ParamsOk(p) && p.writeImm && Reached(p, s, limit) && m < |p.data| && s.transfers[m].sender == Fresh
    requires |LiveSet(p, s)| < limit
    ensures Reached(p, s', limit) && |LiveSet(p, s')| <= |LiveSet(p, s)| + 1
    ensures s'.transfers[m].receiver == Probing(s.nextSlot, 0) && s'.archive == s.archive
    ensures s'.nextSlot == After(s.nextSlot, p.slots) && Others(p, s, s', m)
  {
    LiveGrows(p, s, m);
    SubsetSize(LiveSet(p, Step(p, s, PostRts(m))), LiveSet(p, s) + {m});
    Reach(p, s, PostRts(m), limit);
    ReachQuiet(p, Step(p, s, PostRts(m)), HandleRts(m), limit);
    BeginSteps(p, s, m);
    s' := Step(p, Step(p, s, PostRts(m)), HandleRts(m));
  }

  lemma Miss(p: Params, s: State, i: nat)
    requires Inv(p, s) && i < |p.data| && s.transfers[i].receiver.Probing?
    requires var slot := s.transfers[i].receiver.start + s.transfers[i].receiver.tried;
             slot < p.slots && s.archive[slot].Some?
    ensures var s', r := Step(p, s, Probe(i)), s.transfers[i].receiver;
            s'.transfers[i].receiver == (if r.tried + 1 < p.slots then Probing(r.start, r.tried + 1) else Exhausted)
            && s'.archive == s.archive && s'.nextSlot == s.nextSlot && Others(p, s, s', i)
  {
  }

  /** Receiver i finds all slots up to the n-th taken. */
  lemma {:induction false} Misses(p: Params, s: State, limit: nat, i: nat, start: nat, tried: nat, n: nat)
    returns (s': State)
    requires ParamsOk(p) && Reached(p, s, limit) && i < |p.data| && s.transfers[i].receiver == Probing(start, tried)
    requires tried <= n && tried < p.slots && start + n <= p.slots
    requires forall x: nat :: start + tried <= x < start + n ==> s.archive[x].Some?
    ensures Reached(p, s', limit) && |LiveSet(p, s')| <= |LiveSet(p, s)|
    ensures s'.transfers[i].receiver == if n < p.slots then Probing(start, n) else Exhausted
    ensures s'.archive == s.archive && s'.nextSlot == s.nextSlot && Others(p, s, s', i)
    decreases n - tried
  {
    s' := s;
    if tried < n {
      ReachQuiet(p, s, Probe(i), limit);
      Miss(p, s, i);
      s' := Step(p, s, Probe(i));
      if tried + 1 < p.slots {
        s' := Misses(p, s', limit, i, start, tried + 1, n);
      }
    }
  }

  lemma Take(p: Params, s: State, i: nat)
    requires Inv(p, s) && i < |p.data| && s.transfers[i].receiver.Probing?
    requires var slot := s.transfers[i].receiver.start + s.transfers[i].receiver.tried;
             slot < p.slots && s.archive[slot] == None
    ensures var s', r := Step(p, s, Probe(i)), s.transfers[i].receiver;
            s'.archive == s.archive[r.start + r.tried := Some(i)] && s'.nextSlot == s.nextSlot && Others(p, s, s', i)
  {
  }

  /** Receiver i finds its next slot free. */
  lemma Takes(p: Params, s: State, limit: nat, i: nat, start: nat, tried: nat) returns (s': State)
    requires ParamsOk(p) && Reached(p, s, limit) && i < |p.data| && s.transfers[i].receiver == Probing(start, tried)
    requires start + tried < p.slots && s.archive[start + tried] == None
    ensures Reached(p, s', limit) && |LiveSet(p, s')| <= |LiveSet(p, s)|
    ensures s'.archive == s.archive[start + tried := Some(i)] && s'.nextSlot == s.nextSlot && Others(p, s, s', i)
  {
    ReachQuiet(p, s, Probe(i), limit);
    Take(p, s, i);
    s' := Step(p, s, Probe(i));
  }

  /** Transfer m begins and is given the first free slot, n places from where it starts to look. */
  lemma Enters(p: Params, s: State, limit: nat, m: nat, n: nat) returns (s': State)
    requires ParamsOk(p) && p.writeImm && Reached(p, s, limit) && m < |p.data| && s.transfers[m].sender == Fresh
    requires |LiveSet(p, s)| < limit && s.nextSlot + n < p.slots
    requires forall x: nat :: s.nextSlot <= x < s.nextSlot + n ==> s.archive[x].Some?
    requires s.archive[s.nextSlot + n] == None
    ensures Reached(p, s', limit) && |LiveSet(p, s')| <= |LiveSet(p, s)| + 1
    ensures s'.archive == s.archive[s.nextSlot + n := Some(m)] && s'.nextSlot == After(s.nextSlot, p.slots)
    ensures Others(p, s, s', m)
  {
    var s1 := Begin(p, s, limit, m);
    var s2 := Misses(p, s1, limit, m, s.nextSlot, 0, n);
    s' := Takes(p, s2, limit, m, s.nextSlot, n);
  }

  // ------------------------------------------------------- a transfer runs to its end

  /** Slots of transfer i may have been given back; all others are as they were. */
  ghost predicate GivenBack(p: Params, s: State, s': State, i: nat)
    requires Shaped(p, s) && Shaped(p, s')
  {
    && (forall x: nat :: x < p.slots ==>
          s'.archive[x] == s.archive[x] || (s.archive[x] == Some(i) && s'.archive[x] == None))
    && s'.nextSlot == s.nextSlot && Others(p, s, s', i)
  }

  lemma MoveGivesBack(p: Params, s: State, i: nat, c: Choice)
    requires Inv(p, s) && p.writeImm && i < |p.data| && s.transfers[i].receiver.Ready?
    requires Moves(p, s, i, c) && !c.PostRts?
    ensures GivenBack(p, s, Step(p, s, c), i)
  {
    assert TransferOk(p, s, i);
  }

  lemma NextOf(p: Params, s: State, i: nat) returns (c: Choice)
    requires ParamsOk(p) && Inv(p, s) && p.writeImm && i < |p.data| && s.transfers[i].receiver.Ready?
    requires Live(s.transfers[i])
    ensures Moves(p, s, i, c) && !c.PostRts?
  {
    assert TransferOk(p, s, i);
    if s.transfers[i].senderSignals == 0 {
      c := SenderCanMove(p, s, i);
    } else {
      c := ReceiverCanMove(p, s, i);
    }
  }

  lemma {:induction false} Finishes(p: Params, s: State, limit: nat, i: nat) returns (s': State)
    requires ParamsOk(p) && p.writeImm && Reached(p, s, limit) && i < |p.data| && s.transfers[i].receiver.Ready?
    ensures Reached(p, s', limit) && LiveSet(p, s') <= LiveSet(p, s) && !Live(s'.transfers[i])
    ensures GivenBack(p, s, s', i)
    decreases TotalWork(p, s)
  {
    s' := s;
    if Live(s.transfers[i]) {
      var c := NextOf(p, s, i);
      MoveGivesBack(p, s, i, c);
      ReadyStays(p, s, c, i);
      StepShrinks(p, s, c);
      ReachQuiet(p, s, c, limit);
      s' := Finishes(p, Step(p, s, c), limit, i);
    }
  }

  /** The holder of a slot runs to its end. */
  lemma Frees(p: Params, s: State, limit: nat, slot: nat) returns (s': State)
    requires ParamsOk(p) && p.writeImm && Reached(p, s, limit) && slot < p.slots && s.archive[slot].Some?
    ensures Reached(p, s', limit) && |LiveSet(p, s')| < |LiveSet(p, s)|
    ensures s'.archive == s.archive[slot := None] && s'.nextSlot == s.nextSlot
    ensures s.archive[slot].value < |p.data| && Others(p, s, s', s.archive[slot].value)
  {
    assert TagOk(p, s, slot);
    var i := s.archive[slot].value;
    s' := Finishes(p, s, limit, i);
    SlotsAfter(p, s, s', slot);
    assert TransferOk(p, s, i);
    assert i in LiveSet(p, s);
    SubsetSize(LiveSet(p, s'), LiveSet(p, s) - {i});
  }

  lemma SlotsAfter(p: Params, s: State, s': State, slot: nat)
    requires Inv(p, s) && Inv(p, s') && p.writeImm && slot < p.slots && s.archive[slot].Some?
    requires s.archive[slot].value < |p.data|
    requires GivenBack(p, s, s', s.archive[slot].value) && !Live(s'.transfers[s.archive[slot].value])
    ensures s'.archive == s.archive[slot := None]
  {
    assert TagOk(p, s, slot);
    assert TagOk(p, s', slot);
    assert TransferOk(p, s', s.archive[slot].value);
    forall x: nat | x < p.slots ensures s'.archive[x] == s.archive[slot := None][x] {
      assert TagOk(p, s, x);
      assert TagOk(p, s', x);
    }
  }

  // ------------------------------------------------------- one round before the insertion

  /** Transfers before m have begun, and the first w of them hold the first slots. */
  ghost predicate Started(p: Params, s: State, m: nat, w: nat)
    requires Shaped(p, s)
  {
    && (forall x: nat :: x < p.slots ==> (s.archive[x].Some? <==> x < m && x < w))
    && (forall k: nat :: m <= k < |p.data| ==> s.transfers[k].sender == Fresh)
    && s.nextSlot == (if m == p.slots then 0 else m)
    && |LiveSet(p, s)| <= if m < w then m else w
  }

  lemma StartedMore(p: Params, s: State, s': State, m: nat, w: nat)
    requires Shaped(p, s) && Shaped(p, s') && m < p.slots && m < |p.data| && Started(p, s, m, w)
    requires Others(p, s, s', m) && s'.nextSlot == After(s.nextSlot, p.slots)
    requires s'.archive == s.archive[m := if m < w then Some(m) else None]
    requires |LiveSet(p, s')| <= if m < w then m + 1 else w
    ensures Started(p, s', m + 1, w)
  {
  }

  lemma StartsNext(p: Params, s: State, m: nat, w: nat) returns (s': State)
    requires ParamsOk(p) && p.writeImm && Reached(p, s, w + 1) && m < p.slots && m < |p.data| && Started(p, s, m, w)
    ensures Reached(p, s', w + 1) && |LiveSet(p, s')| <= |LiveSet(p, s)| + 1
    ensures s'.archive == s.archive[m := Some(m)] && s'.nextSlot == After(s.nextSlot, p.slots) && Others(p, s, s', m)
  {
    s' := Enters(p, s, w + 1, m, 0);
  }

  /** One of the first w transfers begins and stays. */
  lemma StartStays(p: Params, s: State, m: nat, w: nat) returns (s': State)
    requires ParamsOk(p) && p.writeImm && Reached(p, s, w + 1) && m < p.slots && m < |p.data| && Started(p, s, m, w)
    requires m < w
    ensures Reached(p, s', w + 1) && Started(p, s', m + 1, w)
  {
    s' := StartsNext(p, s, m, w);
    StartedMore(p, s, s', m, w);
  }

  /** A later transfer begins and runs to its end. */
  lemma StartEnds(p: Params, s: State, m: nat, w: nat) returns (s': State)
    requires ParamsOk(p) && p.writeImm && Reached(p, s, w + 1) && m < p.slots && m < |p.data| && Started(p, s, m, w)
    requires m >= w
    ensures Reached(p, s', w + 1) && Started(p, s', m + 1, w)
  {
    var s1 := StartsNext(p, s, m, w);
    s' := Frees(p, s1, w + 1, m);
    StartedMore(p, s, s', m, w);
  }

  lemma {:induction false} StartAll(p: Params, m: nat, w: nat) returns (s: State)
    requires ParamsOk(p) && p.writeImm && 0 < w <= p.slots && m <= p.slots && m < |p.data|
    ensures Reached(p, s, w + 1) && Started(p, s, m, w)
  {
    if m == 0 {
      s := Beginning(p);
      BeginningReached(p, w + 1);
    } else {
      s := StartAll(p, m - 1, w);
      if m <= w {
        s := StartStays(p, s, m - 1, w);
      } else {
        s := StartEnds(p, s, m - 1, w);
      }
    }
  }

  // ------------------------------------------------------- the insertion that fails

  /** The insertion of transfer number slots has found slots 0 .. t-1 taken; the last w of them still
      are. */
  ghost predicate Chased(p: Params, s: State, t: nat, w: nat)
    requires Shaped(p, s)
  {
    && w <= t <= p.slots < |p.data|
    && s.transfers[p.slots].receiver == (if t < p.slots then Probing(0, t) else Exhausted)
    && (forall x: nat :: x < p.slots ==> (s.archive[x].Some? <==> t - w <= x < t))
    && (forall k: nat :: p.slots + 1 + t - w <= k < |p.data| ==> s.transfers[k].sender == Fresh)
    && (t < p.slots ==> s.nextSlot == t - w + 1)
    && |LiveSet(p, s)| <= w + 1
  }

  lemma ChasedFirst(p: Params, s: State, s': State, w: nat)
    requires Shaped(p, s) && Shaped(p, s') && 0 < w <= p.slots < |p.data| && Started(p, s, p.slots, w)
    requires s'.transfers[p.slots].receiver == if w < p.slots then Probing(0, w) else Exhausted
    requires s'.archive == s.archive && s'.nextSlot == After(s.nextSlot, p.slots) && Others(p, s, s', p.slots)
    requires |LiveSet(p, s')| <= |LiveSet(p, s)| + 1
    ensures Chased(p, s', w, w)
  {
  }

  lemma ChaseBegins(p: Params, s: State, w: nat) returns (s': State)
    requires ParamsOk(p) && p.writeImm && 0 < w <= p.slots < |p.data|
    requires Reached(p, s, w + 1) && Started(p, s, p.slots, w)
    ensures Reached(p, s', w + 1) && Chased(p, s', w, w)
  {
    var s1 := Begin(p, s, w + 1, p.slots);
    s' := Misses(p, s1, w + 1, p.slots, 0, 0, w);
    ChasedFirst(p, s, s', w);
  }

  /** The window is one slot further on, and the insertion has not looked yet. */
  ghost predicate Moved(p: Params, s: State, t: nat, w: nat)
    requires Shaped(p, s)
  {
    && w <= t < p.slots < |p.data|
    && s.transfers[p.slots].receiver == Probing(0, t)
    && (forall x: nat :: x < p.slots ==> (s.archive[x].Some? <==> t - w < x <= t))
    && (forall k: nat :: p.slots + 2 + t - w <= k < |p.data| ==> s.transfers[k].sender == Fresh)
    && s.nextSlot == After(t - w + 1, p.slots)
    && |LiveSet(p, s)| <= w + 1
  }

  lemma WindowMoved(p: Params, s: State, s1: State, s': State, t: nat, w: nat)
    requires Inv(p, s) && p.writeImm && Shaped(p, s1) && Shaped(p, s') && Chased(p, s, t, w) && 0 < w && t < p.slots
    requires s.archive[t - w].Some? && s.archive[t - w].value < |p.data| && Others(p, s, s1, s.archive[t - w].value)
    requires s1.archive == s.archive[t - w := None] && s'.archive == s1.archive[t := Some(p.slots + 1 + t - w)]
    requires Others(p, s1, s', p.slots + 1 + t - w) && s'.nextSlot == After(s.nextSlot, p.slots)
    requires |LiveSet(p, s')| <= w + 1
    ensures Moved(p, s', t, w)
  {
    var i := s.archive[t - w].value;
    assert TagOk(p, s, t - w);
    assert TransferOk(p, s, i);
  }

  /** The next transfer is not the one whose slot is given back. */
  lemma NextIsFresh(p: Params, s: State, s1: State, t: nat, w: nat)
    requires Inv(p, s) && p.writeImm && Shaped(p, s1) && Chased(p, s, t, w) && 0 < w && t < p.slots
    requires p.slots + 1 + t - w < |p.data|
    requires s.archive[t - w].Some? && s.archive[t - w].value < |p.data| && Others(p, s, s1, s.archive[t - w].value)
    ensures s1.transfers[p.slots + 1 + t - w].sender == Fresh
  {
    assert TagOk(p, s, t - w);
    assert TransferOk(p, s, s.archive[t - w].value);
  }

  lemma HasHolder(p: Params, s: State, t: nat, w: nat)
    requires Shaped(p, s) && Chased(p, s, t, w) && 0 < w && t < p.slots
    ensures s.archive[t - w].Some? && |LiveSet(p, s)| <= w + 1
  {
  }

  lemma WindowFrees(p: Params, s: State, t: nat, w: nat) returns (s1: State)
    requires ParamsOk(p) && p.writeImm && Reached(p, s, w + 1) && Chased(p, s, t, w) && 0 < w && t < p.slots
    requires p.slots + 1 + t - w < |p.data|
    ensures Reached(p, s1, w + 1) && |LiveSet(p, s1)| <= w && s1.nextSlot == s.nextSlot
    ensures s.archive[t - w].Some? && s.archive[t - w].value < |p.data| && Others(p, s, s1, s.archive[t - w].value)
    ensures s1.archive == s.archive[t - w := None] && s1.transfers[p.slots + 1 + t - w].sender == Fresh
  {
    HasHolder(p, s, t, w);
    s1 := Frees(p, s, w + 1, t - w);
    NextIsFresh(p, s, s1, t, w);
  }

  /** The next transfer will be given slot t. */
  lemma WindowRoom(p: Params, s: State, s1: State, t: nat, w: nat)
    requires Shaped(p, s) && Shaped(p, s1) && Chased(p, s, t, w) && 0 < w && t < p.slots
    requires s1.archive == s.archive[t - w := None] && s1.nextSlot == s.nextSlot
    ensures s1.nextSlot + (w - 1) == t && s1.archive[t] == None
    ensures forall x: nat :: s1.nextSlot <= x < s1.nextSlot + (w - 1) ==> s1.archive[x].Some?
  {
  }

  lemma WindowEnters(p: Params, s1: State, t: nat, w: nat) returns (s': State)
    requires ParamsOk(p) && p.writeImm && Reached(p, s1, w + 1) && 0 < w <= t < p.slots
    requires p.slots + 1 + t - w < |p.data| && s1.transfers[p.slots + 1 + t - w].sender == Fresh
    requires |LiveSet(p, s1)| <= w && s1.nextSlot + (w - 1) == t && s1.archive[t] == None
    requires forall x: nat :: s1.nextSlot <= x < s1.nextSlot + (w - 1) ==> s1.archive[x].Some?
    ensures Reached(p, s', w + 1) && |LiveSet(p, s')| <= w + 1
    ensures s'.archive == s1.archive[t := Some(p.slots + 1 + t - w)] && s'.nextSlot == After(s1.nextSlot, p.slots)
    ensures Others(p, s1, s', p.slots + 1 + t - w)
  {
    s' := Enters(p, s1, w + 1, p.slots + 1 + t - w, w - 1);
  }

  /** The holder of the last slot of the window goes, and the next transfer takes the slot before it. */
  lemma WindowMoves(p: Params, s: State, t: nat, w: nat) returns (s': State)
    requires ParamsOk(p) && p.writeImm && Reached(p, s, w + 1) && Chased(p, s, t, w) && 0 < w && t < p.slots
    requires p.slots + 1 + t - w < |p.data|
    ensures Reached(p, s', w + 1) && Moved(p, s', t, w)
  {
    var s1 := WindowFrees(p, s, t, w);
    WindowRoom(p, s, s1, t, w);
    s' := WindowEnters(p, s1, t, w);
    WindowMoved(p, s, s1, s', t, w);
  }

  lemma {:induction false} Chase(p: Params, t: nat, w: nat) returns (s: State)
    requires ParamsOk(p) && p.writeImm && 0 < w <= t <= p.slots < |p.data| && p.slots + t - w < |p.data|
    ensures Reached(p, s, w + 1) && Chased(p, s, t, w)
  {
    if t == w {
      s := StartAll(p, p.slots, w);
      s := ChaseBegins(p, s, w);
    } else {
      s := Chase(p, t - 1, w);
      s := WindowMoves(p, s, t - 1, w);
      s := Misses(p, s, w + 1, p.slots, 0, t - 1, t);
    }
  }

  lemma {:induction false} WithinMore(p: Params, s0: State, trace: seq<Choice>, a: nat, b: nat)
    requires Initial(p, s0) && Within(p, s0, trace, a) && a <= b
    ensures Within(p, s0, trace, b)
    decreases |trace|
  {
    if trace != [] {
      WithinMore(p, s0, trace[..|trace| - 1], a, b);
    }
  }

  lemma RunTo(p: Params, s: State, limit: nat) returns (s0: State, trace: seq<Choice>)
    requires Reached(p, s, limit)
    ensures Initial(p, s0) && Exec(p, s0, trace) == s && Within(p, s0, trace, limit)
  {
    s0, trace :| Initial(p, s0) && Exec(p, s0, trace) == s && Within(p, s0, trace, limit);
  }

  /** How wide a window fits the limit and how often it must be moved on. */
  lemma WindowWidth(p: Params, limit: nat) returns (w: nat)
    requires !Roomy(p, limit) && p.slots > 0
    ensures p.writeImm && 0 < w <= p.slots < |p.data| && w + 1 <= limit && p.slots + p.slots - w < |p.data|
  {
    w := if limit <= p.slots then limit - 1 else p.slots;
  }

  lemma FailingState(p: Params, limit: nat) returns (s: State)
    requires ParamsOk(p) && !Roomy(p, limit)
    ensures Reached(p, s, limit) && p.slots < |p.data| && s.transfers[p.slots].receiver == Exhausted
  {
    var w := WindowWidth(p, limit);
    s := Chase(p, p.slots, w);
    ReachedMore(p, s, w + 1, limit);
  }

  lemma ReachedMore(p: Params, s: State, a: nat, b: nat)
    requires Reached(p, s, a) && a <= b
    ensures Reached(p, s, b)
  {
    var s0, trace := RunTo(p, s, a);
    WithinMore(p, s0, trace, a, b);
  }

  /** In an archive that is not roomy some run within the limit fails an insertion. */
  lemma InsertionCanFail(p: Params, limit: nat) returns (s0: State, trace: seq<Choice>)
    requires ParamsOk(p) && !Roomy(p, limit)
    ensures Initial(p, s0) && Within(p, s0, trace, limit)
    ensures p.slots < |p.data| && Exec(p, s0, trace).transfers[p.slots].receiver == Exhausted
  {
    var s := FailingState(p, limit);
    s0, trace := RunTo(p, s, limit);
  }

  // ------------------------------------------------------- exactly when insertions are safe

  /** No run with at most limit live transfers fails an insertion. */
  ghost predicate LimitedInsertionsNeverFail(p: Params, limit: nat) {
    forall s0: State, trace: seq<Choice>, i: nat :: Initial(p, s0) && i < |p.data| && Within(p, s0, trace, limit) ==>
      Exec(p, s0, trace).transfers[i].receiver != Exhausted
  }

  /** With at most limit transfers live at a time, archive insertions are safe exactly if the archive is
      roomy: write mode, no more transfers than slots, one at a time, or too few transfers in all to
      fill slots up again. */
  lemma LimitedInsertionsIff(p: Params, limit: nat)
    requires ParamsOk(p)
    ensures LimitedInsertionsNeverFail(p, limit) <==>
            !p.writeImm || |p.data| <= p.slots || limit <= 1 || |p.data| + limit <= 2 * p.slots + 1
  {
    if Roomy(p, limit) {
      forall s0: State, trace: seq<Choice>, i: nat
        | Initial(p, s0) && i < |p.data| && Within(p, s0, trace, limit)
        ensures Exec(p, s0, trace).transfers[i].receiver != Exhausted
      {
        NoInsertionFails(p, s0, trace, limit, i);
      }
    } else {
      var s0, trace := InsertionCanFail(p, limit);
    }
  }

  ghost predicate InsertionsNeverFail(p: Params) {
    forall s0: State, trace: seq<Choice>, i: nat :: Initial(p, s0) && i < |p.data| ==>
      Exec(p, s0, trace).transfers[i].receiver != Exhausted
  }

  /** Without a limit they are safe exactly in write mode or with at most as many transfers as slots. */
  lemma InsertionsNeverFailIff(p: Params)
    requires ParamsOk(p)
    ensures InsertionsNeverFail(p) <==> !p.writeImm || |p.data| <= p.slots
  {
    LimitedInsertionsIff(p, |p.data|);
    forall s0: State, trace: seq<Choice> | Initial(p, s0) ensures Within(p, s0, trace, |p.data|) {
      WithinAll(p, s0, trace);
    }
  }
}
