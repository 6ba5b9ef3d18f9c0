/** The calls of the array queue, in every run that does not overfill it: what is pushed is what the
    callers passed, what an undisturbed call does, and that a pop can always be brought to its end. */
module FaaQueueCalls {
  import opened Modular
  import opened FaaQueue
  import opened Sums

  // ------------------------------------------------------- pushes

  /** The steps at which an idle thread began a push, in order. */
  ghost function PushCalls(debug: bool, length: nat, s0: State, trace: seq<(nat, Choice)>): seq<nat>
    requires Shaped(length, s0)
    decreases |trace|
  {
    if trace == [] then [] else
      var before, e := trace[..|trace| - 1], trace[|trace| - 1];
      var s := Exec(debug, length, s0, before);
      PushCalls(debug, length, s0, before)
      + if e.0 < |s.pcs| && s.pcs[e.0].Idle? && e.1.Push? then [|trace| - 1] else []
  }

  lemma PushStepped(debug: bool, length: nat, s: State, t: nat, c: Choice)
    requires Shaped(length, s)
    ensures var s', begins := Step(debug, length, s, t, c), t < |s.pcs| && s.pcs[t].Idle? && c.Push?;
            && s'.top == (if begins then s.top + 1 else s.top)
            && s'.h.pushed == if begins then s.h.pushed[s.top := c.v] else s.h.pushed
  {
  }

  /** In every run, position p holds the value of the p-th push that was begun. */
  lemma {:induction false} PushedByCalls(debug: bool, length: nat, s0: State, trace: seq<(nat, Choice)>, p: nat)
    requires Initial(length, s0)
    ensures var s, calls := Exec(debug, length, s0, trace), PushCalls(debug, length, s0, trace);
            && |calls| == s.top && (p < s.top <==> p in s.h.pushed)
            && (p < s.top ==>
                  calls[p] < |trace| && trace[calls[p]].1.Push? && s.h.pushed[p] == trace[calls[p]].1.v)
    decreases |trace|
  {
    if trace != [] {
      var before, e := trace[..|trace| - 1], trace[|trace| - 1];
      PushedByCalls(debug, length, s0, before, p);
      PushStepped(debug, length, Exec(debug, length, s0, before), e.0, e.1);
    }
  }

  // ------------------------------------------------------- what a claim comes to

  /** A pop that has claimed position b and is not disturbed: if the position was filled it takes the value;
      if not, and the claim is the newest, it gives the claim back; otherwise it goes on looking. */
  lemma ClaimAlone(debug: bool, length: nat, s: State, t: nat, b: nat)
    requires Shaped(length, s) && t < |s.pcs| && s.pcs[t] == Claimed(b)
    ensures var x := Cell(b, length);
            var s1 := Step(debug, length, s, t, Go(false));
            var s2 := Step(debug, length, s1, t, Go(false));
            if s.tag[x] == b then
              s1 == SetPc(s, t, Taking(b)) && (debug ==> s2 == SetPc(s, t, Clearing(b, s.data[x])))
              && (!debug ==> s2 == SetPc(s.(h := Returned(s.h, b, s.data[x])), t, Idle))
            else if s.bot == b + 1 then
              s2 == SetPc(s.(bot := b, h := s.h.(claims := s.h.claims - {b})), t, Idle)
            else s2 == s
  {
    var s1 := Step(debug, length, s, t, Go(false));
    assert s1.pcs == s.pcs[t := s1.pcs[t]];
    assert s.pcs[t := Claimed(b)] == s.pcs;
  }

  // ------------------------------------------------------- pops return

  /** whole goes on where trace ends, without new calls, spurious failures or overfilling. */
  ghost predicate GoesOn(debug: bool, length: nat, s0: State, trace: seq<(nat, Choice)>, whole: seq<(nat, Choice)>)
    requires Shaped(length, s0)
  {
    && trace <= whole && NeverOverfills(debug, length, s0, whole)
    && forall k :: |trace| <= k < |whole| ==> whole[k].1 == Go(false)
  }

  lemma OneMore(debug: bool, length: nat, s0: State, trace: seq<(nat, Choice)>, u: nat)
    returns (whole: seq<(nat, Choice)>)
    requires Shaped(length, s0) && NeverOverfills(debug, length, s0, trace)
    requires !Overfills(length, Exec(debug, length, s0, trace), u, Go(false))
    ensures GoesOn(debug, length, s0, trace, whole)
    ensures Exec(debug, length, s0, whole) == Step(debug, length, Exec(debug, length, s0, trace), u, Go(false))
  {
    whole := trace + [(u, Go(false))];
    assert whole[..|trace|] == trace;
    forall i | 0 <= i < |whole|
      ensures !Overfills(length, Exec(debug, length, s0, whole[..i]), whole[i].0, whole[i].1)
    {
      assert whole[..i] == trace[..i];
    }
  }

  lemma GoesOnTwice(debug: bool, length: nat, s0: State, a: seq<(nat, Choice)>, b: seq<(nat, Choice)>,
                    c: seq<(nat, Choice)>)
    requires Shaped(length, s0) && GoesOn(debug, length, s0, a, b) && GoesOn(debug, length, s0, b, c)
    ensures GoesOn(debug, length, s0, a, c)
  {
    forall k | |a| <= k < |c| ensures c[k].1 == Go(false) {
      assert k < |b| ==> c[k] == b[k];
    }
  }

  /** Steps of its own before a thread is idle that need nothing of others. */
  function Left(pc: Pc): nat {
    match pc
    case Idle => 0
    case Writing(_, _) => 2
    case Tagging(_, _) => 1
    case Looking(_) => 2
    case Claiming => 1
    case Claimed(_) => 3
    case Retracting(_) => 4
    case Taking(_) => 2
    case Clearing(_, _) => 1
  }

  /** The thread can go on to its end by itself: its push does not overfill, its position is filled, or its
      claim is the newest and the position was not pushed. */
  ghost predicate CanEnd(length: nat, s: State, t: nat)
    requires Shaped(length, s) && t < |s.pcs|
  {
    match s.pcs[t]
    case Writing(p, _) => p < length || p - length in s.h.returned
    case Claimed(b) => s.tag[Cell(b, length)] == b
    case Retracting(b) => s.tag[Cell(b, length)] == b || s.bot == b + 1
    case Claiming => false
    case _ => true
  }

  lemma EndsStep(debug: bool, length: nat, s: State, t: nat)
    requires Inv(length, s) && t < |s.pcs| && !s.pcs[t].Idle? && CanEnd(length, s, t)
    requires !s.pcs[t].Looking?
    ensures !Overfills(length, s, t, Go(false))
    ensures var s' := Step(debug, length, s, t, Go(false));
            && s'.pcs == s.pcs[t := s'.pcs[t]] && Left(s'.pcs[t]) < Left(s.pcs[t])
            && (!s'.pcs[t].Idle? ==> CanEnd(length, s', t) && !s'.pcs[t].Looking?)
  {
  }

  lemma {:induction false} Drive(debug: bool, length: nat, s0: State, trace: seq<(nat, Choice)>, u: nat)
    returns (whole: seq<(nat, Choice)>)
    requires length >= 2 && Initial(length, s0) && NeverOverfills(debug, length, s0, trace)
    requires var s := Exec(debug, length, s0, trace);
             u < |s.pcs| && !s.pcs[u].Idle? && !s.pcs[u].Looking? && CanEnd(length, s, u)
    ensures GoesOn(debug, length, s0, trace, whole)
    ensures Exec(debug, length, s0, whole).pcs == Exec(debug, length, s0, trace).pcs[u := Idle]
    decreases Left(Exec(debug, length, s0, trace).pcs[u])
  {
    var s := Exec(debug, length, s0, trace);
    ExecInv(debug, length, s0, trace);
    EndsStep(debug, length, s, u);
    whole := OneMore(debug, length, s0, trace, u);
    if !Exec(debug, length, s0, whole).pcs[u].Idle? {
      var middle := whole;
      whole := Drive(debug, length, s0, middle, u);
      GoesOnTwice(debug, length, s0, trace, middle, whole);
    }
  }

  predicate Pending(s: State, q: nat) {
    q in s.h.claims || q in s.h.filling
  }

  lemma SmallestPending(s: State, b: nat) returns (q: nat)
    requires Pending(s, b)
    ensures q <= b && Pending(s, q) && forall p: nat :: p < q ==> !Pending(s, p)
  {
    q := 0;
    while !Pending(s, q)
      invariant q <= b && forall p: nat :: p < q ==> !Pending(s, p)
      decreases b - q
    {
      q := q + 1;
    }
  }

  /** The newest claim, for a position that was never pushed. */
  ghost predicate Superfluous(s: State, u: nat) {
    u < |s.pcs| && s.pcs[u].Claimed? && s.bot == s.pcs[u].b + 1 && s.top <= s.pcs[u].b
  }

  /** If a claim was made, some thread can go on to its end: the one that fills or has claimed the first
      position in question, or the one with the newest claim. */
  lemma SomeoneCanEnd(length: nat, s: State, b: nat) returns (u: nat)
    requires Inv(length, s) && b in s.h.claims
    ensures u < |s.pcs| && !s.pcs[u].Idle? && !s.pcs[u].Looking?
    ensures CanEnd(length, s, u) || Superfluous(s, u)
  {
    var q: nat := SmallestPending(s, b);
    assert PositionOk(length, s, q) && PositionOk(length, s, b);
    if q in s.h.filling {
      u := s.h.filling[q];
      if q >= length {
        var lap: nat := q - length;
        assert PositionOk(length, s, lap) && !Pending(s, lap);
      }
    } else if q < s.top {
      u := s.h.claims[q];
    } else {
      u := NewestClaim(length, s, q);
    }
  }

  lemma NewestClaim(length: nat, s: State, q: nat) returns (u: nat)
    requires Inv(length, s) && s.top <= q < s.bot
    ensures u < |s.pcs| && !s.pcs[u].Idle? && !s.pcs[u].Looking?
    ensures CanEnd(length, s, u) || Superfluous(s, u)
  {
    var newest: nat := s.bot - 1;
    assert PositionOk(length, s, newest);
    u := s.h.claims[newest];
    assert PcOk(length, s, u);
  }

  lemma SuperfluousStep(debug: bool, length: nat, s: State, u: nat)
    requires Inv(length, s) && Superfluous(s, u)
    ensures var s' := Step(debug, length, s, u, Go(false));
            s'.pcs == s.pcs[u := Retracting(s.pcs[u].b)] && CanEnd(length, s', u)
  {
    if s.tag[Cell(s.pcs[u].b, length)] == s.pcs[u].b {
      TagMeansStored(length, s, s.pcs[u].b);
    }
  }

  /** The newest claim is given back. */
  lemma GivesBack(debug: bool, length: nat, s0: State, trace: seq<(nat, Choice)>, u: nat)
    returns (whole: seq<(nat, Choice)>)
    requires length >= 2 && Initial(length, s0) && NeverOverfills(debug, length, s0, trace)
    requires Superfluous(Exec(debug, length, s0, trace), u)
    ensures GoesOn(debug, length, s0, trace, whole)
    ensures Exec(debug, length, s0, whole).pcs == Exec(debug, length, s0, trace).pcs[u := Idle]
  {
    var s := Exec(debug, length, s0, trace);
    ExecInv(debug, length, s0, trace);
    SuperfluousStep(debug, length, s, u);
    var middle := OneMore(debug, length, s0, trace, u);
    whole := Drive(debug, length, s0, middle, u);
    GoesOnTwice(debug, length, s0, trace, middle, whole);
    assert s.pcs[u := Retracting(s.pcs[u].b)][u := Idle] == s.pcs[u := Idle];
  }

  /** Whoever can end does. */
  lemma Helps(debug: bool, length: nat, s0: State, trace: seq<(nat, Choice)>, b: nat)
    returns (whole: seq<(nat, Choice)>, u: nat)
    requires length >= 2 && Initial(length, s0) && NeverOverfills(debug, length, s0, trace)
    requires b in Exec(debug, length, s0, trace).h.claims
    ensures GoesOn(debug, length, s0, trace, whole)
    ensures var s := Exec(debug, length, s0, trace);
            u < |s.pcs| && !s.pcs[u].Idle? && Exec(debug, length, s0, whole).pcs == s.pcs[u := Idle]
  {
    ExecInv(debug, length, s0, trace);
    u := SomeoneCanEnd(length, Exec(debug, length, s0, trace), b);
    if CanEnd(length, Exec(debug, length, s0, trace), u) {
      whole := Drive(debug, length, s0, trace, u);
    } else {
      whole := GivesBack(debug, length, s0, trace, u);
    }
  }

  function Busy(pcs: seq<Pc>): seq<nat> {
    seq(|pcs|, t requires 0 <= t < |pcs| => if pcs[t].Idle? then 0 else 1)
  }

  lemma OneLessBusy(pcs: seq<Pc>, u: nat)
    requires u < |pcs| && !pcs[u].Idle?
    ensures Sum(Busy(pcs[u := Idle])) < Sum(Busy(pcs))
  {
    SumUpdate(Busy(pcs), u, 0);
    assert Busy(pcs[u := Idle]) == Busy(pcs)[u := 0];
  }

  lemma SameBusy(pcs: seq<Pc>, u: nat, pc: Pc)
    requires u < |pcs| && !pcs[u].Idle? && !pc.Idle?
    ensures Sum(Busy(pcs[u := pc])) == Sum(Busy(pcs))
  {
    assert Busy(pcs[u := pc]) == Busy(pcs);
  }

  /** How far a pop is from its claim. */
  function BeforeClaim(pc: Pc): nat {
    if pc.Looking? then 2 else if pc.Claiming? then 1 else 0
  }

  lemma LooksOrClaims(debug: bool, length: nat, s: State, t: nat)
    requires Shaped(length, s) && t < |s.pcs| && (s.pcs[t].Looking? || s.pcs[t].Claiming?)
    ensures !Overfills(length, s, t, Go(false))
    ensures var s' := Step(debug, length, s, t, Go(false));
            && s'.pcs == s.pcs[t := s'.pcs[t]] && BeforeClaim(s'.pcs[t]) < BeforeClaim(s.pcs[t])
            && !s'.pcs[t].Writing? && !s'.pcs[t].Tagging?
  {
  }

  /** Every run that has not overfilled the queue can be continued until a pop returns, by steps of calls
      that are under way and without overfilling the queue. */
  lemma {:induction false} PopReturns(debug: bool, length: nat, s0: State, trace: seq<(nat, Choice)>, t: nat)
    returns (whole: seq<(nat, Choice)>)
    requires length >= 2 && Initial(length, s0) && NeverOverfills(debug, length, s0, trace)
    requires var s := Exec(debug, length, s0, trace); t < |s.pcs| && !s.pcs[t].Writing? && !s.pcs[t].Tagging?
    ensures GoesOn(debug, length, s0, trace, whole) && Exec(debug, length, s0, whole).pcs[t].Idle?
    decreases Sum(Busy(Exec(debug, length, s0, trace).pcs)), BeforeClaim(Exec(debug, length, s0, trace).pcs[t])
  {
    var s := Exec(debug, length, s0, trace);
    var pc := s.pcs[t];
    whole := trace;
    if pc.Looking? || pc.Claiming? {
      LooksOrClaims(debug, length, s, t);
      var middle := OneMore(debug, length, s0, trace, t);
      var pc' := Exec(debug, length, s0, middle).pcs[t];
      whole := middle;
      if !pc'.Idle? {
        SameBusy(s.pcs, t, pc');
        whole := PopReturns(debug, length, s0, middle, t);
        GoesOnTwice(debug, length, s0, trace, middle, whole);
      }
    } else if !pc.Idle? {
      ExecInv(debug, length, s0, trace);
      assert PcOk(length, s, t);
      var middle, u := Helps(debug, length, s0, trace, pc.b);
      whole := middle;
      if u != t {
        OneLessBusy(s.pcs, u);
        whole := PopReturns(debug, length, s0, middle, t);
        GoesOnTwice(debug, length, s0, trace, middle, whole);
      }
    }
  }
}
