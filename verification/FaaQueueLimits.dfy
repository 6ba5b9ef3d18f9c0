/** What pushers and poppers of the array queue must keep to: overfilling writes are exactly the
    harmful ones, and counting values protects against them exactly when at most one thread pops. */
module FaaQueueLimits {
  import opened Modular
  import opened FaaQueue

  // ------------------------------------------------------- overfilling is harmful

  /** Position x has been written and not been returned, but its value is not in its cell. */
  ghost predicate Misplaced(length: nat, s: State, x: nat)
    requires Shaped(length, s)
  {
    && x in s.h.pushed && x !in s.h.returned
    && (forall t :: 0 <= t < |s.pcs| && s.pcs[t].Writing? ==> s.pcs[t].p != x)
    && s.data[Cell(x, length)] != s.h.pushed[x]
  }

  /** In every run in which nothing overfills the queue, no value is misplaced. */
  lemma NothingMisplaced(debug: bool, length: nat, s0: State, trace: seq<(nat, Choice)>, x: nat)
    requires length >= 2 && Initial(length, s0) && NeverOverfills(debug, length, s0, trace)
    ensures !Misplaced(length, Exec(debug, length, s0, trace), x)
  {
    var s := Exec(debug, length, s0, trace);
    ExecInv(debug, length, s0, trace);
    assert PositionOk(length, s, x);
    if x in s.h.filling {
      assert PcOk(length, s, s.h.filling[x]);
    }
  }

  lemma OverfillStep(length: nat, s: State, t: nat) returns (x: nat, u: nat)
    requires Inv(length, s) && Overfills(length, s, t, Go(false))
    requires s.pcs[t].p - length in s.h.pushed && s.h.pushed[s.pcs[t].p - length] != s.pcs[t].v
    ensures u < |s.pcs|
    ensures var s' := PushStep(length, s, t);
            Misplaced(length, s', x) || (s'.pcs[u].Writing? && Misplaced(length, PushStep(length, s', u), x))
  {
    var p, v := s.pcs[t].p, s.pcs[t].v;
    var q := p - length;
    x, u := q, t;
    assert PcOk(length, s, t) && PositionOk(length, s, q) && PositionOk(length, s, p);
    CellLap(p, length);
    if q in s.h.filling {
      u := s.h.filling[q];
      assert PcOk(length, s, u);
      if s.pcs[u].Writing? {
        x := p;
        NotWriting(length, s, t, p);
      } else {
        NotWriting(length, s, u, q);
      }
    } else {
      NobodyFills(length, s, q);
    }
  }

  lemma NotWriting(length: nat, s: State, t: nat, p: nat)
    requires Inv(length, s) && t < |s.pcs| && Fills(s.pcs[t], p)
    ensures forall u :: 0 <= u < |s.pcs| && u != t ==> !Fills(s.pcs[u], p)
  {
    forall u | 0 <= u < |s.pcs| && u != t ensures !Fills(s.pcs[u], p) {
      assert PcOk(length, s, u) && PcOk(length, s, t);
    }
  }

  lemma NobodyFills(length: nat, s: State, p: nat)
    requires Inv(length, s) && p !in s.h.filling
    ensures forall u :: 0 <= u < |s.pcs| ==> !Fills(s.pcs[u], p)
  {
    forall u | 0 <= u < |s.pcs| ensures !Fills(s.pcs[u], p) {
      assert PcOk(length, s, u);
    }
  }

  lemma OneStepOn(debug: bool, length: nat, s0: State, trace: seq<(nat, Choice)>, t: nat)
    requires Shaped(length, s0)
    requires var s := Exec(debug, length, s0, trace); t < |s.pcs| && s.pcs[t].Writing?
    ensures Exec(debug, length, s0, trace + [(t, Go(false))]) == PushStep(length, Exec(debug, length, s0, trace), t)
  {
    ExecSnoc(debug, length, s0, trace, t, Go(false));
    GoIsPush(debug, length, Exec(debug, length, s0, trace), t);
  }

  lemma GoIsPush(debug: bool, length: nat, s: State, t: nat)
    requires Shaped(length, s) && t < |s.pcs| && s.pcs[t].Writing?
    ensures Step(debug, length, s, t, Go(false)) == PushStep(length, s, t)
  {
  }

  lemma ExecSnoc(debug: bool, length: nat, s0: State, trace: seq<(nat, Choice)>, t: nat, c: Choice)
    requires Shaped(length, s0)
    ensures Exec(debug, length, s0, trace + [(t, c)]) == Step(debug, length, Exec(debug, length, s0, trace), t, c)
  {
    assert (trace + [(t, c)])[..|trace|] == trace;
  }

  /** The first write of a run that overfills the queue with a different value misplaces a value: at
      once, or as soon as the thread that is still filling the other position goes on to its own write. */
  lemma OverfillMisplaces(debug: bool, length: nat, s0: State, trace: seq<(nat, Choice)>, t: nat)
    returns (x: nat, whole: seq<(nat, Choice)>)
    requires length >= 2 && Initial(length, s0) && NeverOverfills(debug, length, s0, trace)
    requires var s := Exec(debug, length, s0, trace);
             && Overfills(length, s, t, Go(false)) && s.pcs[t].p - length in s.h.pushed
             && s.h.pushed[s.pcs[t].p - length] != s.pcs[t].v
    ensures trace + [(t, Go(false))] <= whole && |whole| <= |trace| + 2
    ensures Misplaced(length, Exec(debug, length, s0, whole), x)
  {
    var u;
    ExecInv(debug, length, s0, trace);
    x, u := OverfillStep(length, Exec(debug, length, s0, trace), t);
    OneStepOn(debug, length, s0, trace, t);
    whole := trace + [(t, Go(false))];
    if !Misplaced(length, Exec(debug, length, s0, whole), x) {
      OneStepOn(debug, length, s0, whole, u);
      whole := whole + [(u, Go(false))];
    }
  }

  // ------------------------------------------------------- one popper

  /** Every push of the run starts while fewer values than the capacity are between bot and top. */
  ghost predicate PushesBelowCapacity(debug: bool, length: nat, s0: State, trace: seq<(nat, Choice)>)
    requires Shaped(length, s0)
  {
    forall i :: 0 <= i < |trace| && trace[i].1.Push? ==> HasRoom(length, Exec(debug, length, s0, trace[..i]))
  }

  predicate HasRoom(length: nat, s: State) {
    s.top - s.bot < length - 1
  }

  ghost predicate PopsOnlyBy(trace: seq<(nat, Choice)>, poppers: set<nat>) {
    forall i :: 0 <= i < |trace| && trace[i].1.Pop? ==> trace[i].0 in poppers
  }

  predicate HasClaim(pc: Pc) {
    pc.Claimed? || pc.Retracting? || pc.Taking? || pc.Clearing?
  }

  /** Only thread t0 pops; its claim is the position just below bot; and every push under way goes to
      a cell whose previous position was returned. */
  ghost predicate OnePopper(length: nat, s: State, t0: nat) {
    && (forall t :: 0 <= t < |s.pcs| && t != t0 ==> s.pcs[t].Idle? || s.pcs[t].Writing? || s.pcs[t].Tagging?)
    && (t0 < |s.pcs| && HasClaim(s.pcs[t0]) ==> s.pcs[t0].b + 1 == s.bot)
    && (forall t :: 0 <= t < |s.pcs| && s.pcs[t].Writing? && s.pcs[t].p >= length ==>
          s.pcs[t].p - length in s.h.returned)
  }

  lemma RoomMeansReturned(length: nat, s: State, t0: nat)
    requires Inv(length, s) && OnePopper(length, s, t0) && HasRoom(length, s) && s.top >= length
    ensures s.top - length in s.h.returned
  {
    var q := s.top - length;
    assert PositionOk(length, s, q);
    assert q in s.h.claims ==> HasClaim(s.pcs[s.h.claims[q]]);
  }

  lemma OnePopperPushes(debug: bool, length: nat, s: State, t: nat, v: Value, t0: nat)
    requires Inv(length, s) && OnePopper(length, s, t0) && HasRoom(length, s)
    ensures OnePopper(length, Step(debug, length, s, t, Push(v)), t0)
  {
    if s.top >= length {
      RoomMeansReturned(length, s, t0);
    }
  }

  lemma OnePopperPops(debug: bool, length: nat, s: State, t0: nat, spurious: bool)
    requires Shaped(length, s) && OnePopper(length, s, t0) && t0 < |s.pcs|
    ensures OnePopper(length, PopStep(debug, length, s, t0, spurious), t0)
  {
    var s' := PopStep(debug, length, s, t0, spurious);
    assert s'.h.returned.Keys >= s.h.returned.Keys;
    forall t | 0 <= t < |s.pcs| && t != t0 ensures s'.pcs[t] == s.pcs[t] {
    }
  }

  lemma OnePopperFills(length: nat, s: State, t: nat, t0: nat)
    requires Shaped(length, s) && OnePopper(length, s, t0) && t < |s.pcs|
    ensures OnePopper(length, PushStep(length, s, t), t0)
  {
  }

  lemma OnePopperStep(debug: bool, length: nat, s: State, t: nat, c: Choice, t0: nat)
    requires Inv(length, s) && OnePopper(length, s, t0)
    requires c.Push? ==> HasRoom(length, s)
    requires c.Pop? ==> t == t0
    ensures OnePopper(length, Step(debug, length, s, t, c), t0)
  {
    if c.Push? {
      OnePopperPushes(debug, length, s, t, c.v, t0);
    } else if t < |s.pcs| && c.Go? {
      OnePopperFills(length, s, t, t0);
      if t == t0 {
        OnePopperPops(debug, length, s, t0, c.spurious);
      }
    }
  }

  lemma Prefix(debug: bool, length: nat, s0: State, trace: seq<(nat, Choice)>)
    requires trace != [] && Shaped(length, s0) && PushesBelowCapacity(debug, length, s0, trace)
    ensures PushesBelowCapacity(debug, length, s0, trace[..|trace| - 1])
  {
    var before := trace[..|trace| - 1];
    forall i | 0 <= i < |before| && before[i].1.Push? ensures HasRoom(length, Exec(debug, length, s0, before[..i])) {
      assert before[..i] == trace[..i];
    }
  }

  lemma Extended(debug: bool, length: nat, s0: State, trace: seq<(nat, Choice)>)
    requires trace != [] && Shaped(length, s0) && NeverOverfills(debug, length, s0, trace[..|trace| - 1])
    requires var n := |trace| - 1; !Overfills(length, Exec(debug, length, s0, trace[..n]), trace[n].0, trace[n].1)
    ensures NeverOverfills(debug, length, s0, trace)
  {
    var before := trace[..|trace| - 1];
    forall i | 0 <= i < |trace|
      ensures !Overfills(length, Exec(debug, length, s0, trace[..i]), trace[i].0, trace[i].1)
    {
      assert i < |before| ==> before[..i] == trace[..i];
    }
  }

  lemma {:induction false} OnePopperRuns(debug: bool, length: nat, s0: State, trace: seq<(nat, Choice)>, t0: nat)
    requires length >= 2 && Initial(length, s0)
    requires PushesBelowCapacity(debug, length, s0, trace) && PopsOnlyBy(trace, {t0})
    ensures NeverOverfills(debug, length, s0, trace) && OnePopper(length, Exec(debug, length, s0, trace), t0)
  {
    if trace != [] {
      var n := |trace| - 1;
      var before := trace[..n];
      Prefix(debug, length, s0, trace);
      OnePopperRuns(debug, length, s0, before, t0);
      ExecInv(debug, length, s0, before);
      OnePopperStep(debug, length, Exec(debug, length, s0, before), trace[n].0, trace[n].1, t0);
      Extended(debug, length, s0, trace);
    }
  }

  /** With one popping thread, keeping within the capacity by count is enough, in both builds. */
  lemma OnePopperSuffices(debug: bool, length: nat, s0: State, trace: seq<(nat, Choice)>, t0: nat)
    requires length >= 2 && Initial(length, s0)
    requires PushesBelowCapacity(debug, length, s0, trace) && PopsOnlyBy(trace, {t0})
    ensures NeverOverfills(debug, length, s0, trace)
  {
    OnePopperRuns(debug, length, s0, trace, t0);
  }

  // ------------------------------------------------------- two poppers

  lemma Extend(debug: bool, length: nat, s0: State, trace: seq<(nat, Choice)>, t: nat, c: Choice, poppers: set<nat>)
    requires Shaped(length, s0) && PushesBelowCapacity(debug, length, s0, trace) && PopsOnlyBy(trace, poppers)
    requires c.Push? ==> HasRoom(length, Exec(debug, length, s0, trace))
    requires c.Pop? ==> t in poppers
    ensures Exec(debug, length, s0, trace + [(t, c)]) == Step(debug, length, Exec(debug, length, s0, trace), t, c)
    ensures PushesBelowCapacity(debug, length, s0, trace + [(t, c)]) && PopsOnlyBy(trace + [(t, c)], poppers)
  {
    var trace' := trace + [(t, c)];
    assert trace'[..|trace|] == trace;
    forall i | 0 <= i < |trace'| && trace'[i].1.Push? ensures HasRoom(length, Exec(debug, length, s0, trace'[..i])) {
      assert trace'[..i] == trace[..i];
    }
  }

  /** A run so far, which keeps to both rules. */
  ghost predicate Lawful(debug: bool, length: nat, s0: State, trace: seq<(nat, Choice)>, poppers: set<nat>)
    requires Shaped(length, s0)
  {
    PushesBelowCapacity(debug, length, s0, trace) && PopsOnlyBy(trace, poppers)
  }

  /** A push that nobody interrupts. */
  function AfterPush(length: nat, s: State, t: nat, v: Value): State
    requires Shaped(length, s) && t < |s.pcs|
  {
    var p, x := s.top, Cell(s.top, length);
    s.(top := p + 1, data := s.data[x := v], tag := s.tag[x := p],
       h := s.h.(pushed := s.h.pushed[p := v], filling := s.h.filling[p := t] - {p}, last := s.h.last[x := p]))
  }

  lemma PushGoes(debug: bool, length: nat, s: State, s1: State, t: nat, v: Value)
    requires Shaped(length, s) && t < |s.pcs| && s.pcs[t].Idle? && s1 == Step(debug, length, s, t, Push(v))
    ensures PushStep(length, PushStep(length, s1, t), t) == AfterPush(length, s, t, v)
    ensures PushStep(length, s1, t).pcs[t].Tagging?
  {
    assert s.pcs[t := Writing(s.top, v)][t := Tagging(s.top, v)][t := Idle] == s.pcs;
  }

  lemma PushCall(debug: bool, length: nat, s0: State, trace: seq<(nat, Choice)>, t: nat, v: Value, poppers: set<nat>)
    returns (trace': seq<(nat, Choice)>)
    requires Shaped(length, s0) && Lawful(debug, length, s0, trace, poppers)
    requires var s := Exec(debug, length, s0, trace); t < |s.pcs| && s.pcs[t].Idle? && HasRoom(length, s)
    ensures Lawful(debug, length, s0, trace', poppers)
    ensures Exec(debug, length, s0, trace') == AfterPush(length, Exec(debug, length, s0, trace), t, v)
  {
    var s := Exec(debug, length, s0, trace);
    Extend(debug, length, s0, trace, t, Push(v), poppers);
    trace' := trace + [(t, Push(v))];
    var s1 := Step(debug, length, s, t, Push(v));
    Extend(debug, length, s0, trace', t, Go(false), poppers);
    trace' := trace' + [(t, Go(false))];
    Extend(debug, length, s0, trace', t, Go(false), poppers);
    trace' := trace' + [(t, Go(false))];
    PushGoes(debug, length, s, s1, t, v);
  }

  /** A pop up to the point where it has claimed a value and is about to read it. */
  function AfterClaim(s: State, t: nat): State
    requires t < |s.pcs|
  {
    s.(bot := s.bot + 1, pcs := s.pcs[t := Taking(s.bot)], h := s.h.(claims := s.h.claims[s.bot := t]))
  }

  lemma ClaimGoes(debug: bool, length: nat, s: State, t: nat)
    requires Shaped(length, s) && t < |s.pcs| && s.tag[Cell(s.bot, length)] == s.bot
    ensures var s1 := Step(debug, length, SetPc(s, t, Claiming), t, Go(false));
            Step(debug, length, s1, t, Go(false)) == AfterClaim(s, t)
  {
    assert s.pcs[t := Claiming][t := Claimed(s.bot)][t := Taking(s.bot)] == s.pcs[t := Taking(s.bot)];
  }

  lemma LookGoes(debug: bool, length: nat, s: State, t: nat)
    requires Shaped(length, s) && t < |s.pcs| && s.pcs[t].Idle? && s.tag[Cell(s.bot, length)] == s.bot
    ensures var s1 := Step(debug, length, s, t, Pop); Step(debug, length, s1, t, Go(false)) == SetPc(s, t, Claiming)
  {
  }

  lemma LookCall(debug: bool, length: nat, s0: State, trace: seq<(nat, Choice)>, t: nat, poppers: set<nat>)
    returns (trace': seq<(nat, Choice)>)
    requires Shaped(length, s0) && Lawful(debug, length, s0, trace, poppers) && t in poppers
    requires var s := Exec(debug, length, s0, trace);
             t < |s.pcs| && s.pcs[t].Idle? && s.tag[Cell(s.bot, length)] == s.bot
    ensures Lawful(debug, length, s0, trace', poppers)
    ensures Exec(debug, length, s0, trace') == SetPc(Exec(debug, length, s0, trace), t, Claiming)
  {
    LookGoes(debug, length, Exec(debug, length, s0, trace), t);
    Extend(debug, length, s0, trace, t, Pop, poppers);
    trace' := trace + [(t, Pop)];
    Extend(debug, length, s0, trace', t, Go(false), poppers);
    trace' := trace' + [(t, Go(false))];
  }

  lemma ClaimCall(debug: bool, length: nat, s0: State, trace: seq<(nat, Choice)>, t: nat, poppers: set<nat>)
    returns (trace': seq<(nat, Choice)>)
    requires Shaped(length, s0) && Lawful(debug, length, s0, trace, poppers) && t in poppers
    requires var s := Exec(debug, length, s0, trace);
             t < |s.pcs| && s.pcs[t].Idle? && s.tag[Cell(s.bot, length)] == s.bot
    ensures Lawful(debug, length, s0, trace', poppers)
    ensures Exec(debug, length, s0, trace') == AfterClaim(Exec(debug, length, s0, trace), t)
  {
    ClaimGoes(debug, length, Exec(debug, length, s0, trace), t);
    trace' := LookCall(debug, length, s0, trace, t, poppers);
    Extend(debug, length, s0, trace', t, Go(false), poppers);
    trace' := trace' + [(t, Go(false))];
    Extend(debug, length, s0, trace', t, Go(false), poppers);
    trace' := trace' + [(t, Go(false))];
  }

  /** The claimed value is read and returned. */
  function AfterTake(debug: bool, length: nat, s: State, t: nat): State
    requires Shaped(length, s) && t < |s.pcs| && s.pcs[t].Taking?
  {
    var b := s.pcs[t].b;
    var s' := s.(h := Returned(s.h, b, s.data[Cell(b, length)]));
    SetPc(if debug then s'.(tag := s'.tag[Cell(b, length) := b + 1]) else s', t, Idle)
  }

  lemma ClearGoes(length: nat, s: State, t: nat)
    requires Shaped(length, s) && t < |s.pcs| && s.pcs[t].Taking?
    ensures var s1 := Step(true, length, s, t, Go(false));
            Step(true, length, s1, t, Go(false)) == AfterTake(true, length, s, t)
  {
  }

  lemma TakeCall(debug: bool, length: nat, s0: State, trace: seq<(nat, Choice)>, t: nat, poppers: set<nat>)
    returns (trace': seq<(nat, Choice)>)
    requires Shaped(length, s0) && Lawful(debug, length, s0, trace, poppers)
    requires var s := Exec(debug, length, s0, trace); t < |s.pcs| && s.pcs[t].Taking?
    ensures Lawful(debug, length, s0, trace', poppers)
    ensures Exec(debug, length, s0, trace') == AfterTake(debug, length, Exec(debug, length, s0, trace), t)
  {
    var s := Exec(debug, length, s0, trace);
    Extend(debug, length, s0, trace, t, Go(false), poppers);
    trace' := trace + [(t, Go(false))];
    if debug {
      Extend(debug, length, s0, trace', t, Go(false), poppers);
      trace' := trace' + [(t, Go(false))];
      ClearGoes(length, s, t);
    }
  }

  /** A thread finds the queue empty, pushes a value and pops it. */
  function AfterLap(debug: bool, length: nat, s: State, t: nat, v: Value): (s': State)
    requires Shaped(length, s) && t < |s.pcs| && s.top == s.bot
  {
    AfterTake(debug, length, AfterClaim(AfterPush(length, s, t, v), t), t)
  }

  lemma LapCall(debug: bool, length: nat, s0: State, trace: seq<(nat, Choice)>, t: nat, v: Value, poppers: set<nat>)
    returns (trace': seq<(nat, Choice)>)
    requires Shaped(length, s0) && Lawful(debug, length, s0, trace, poppers) && t in poppers
    requires var s := Exec(debug, length, s0, trace);
             t < |s.pcs| && s.pcs[t].Idle? && s.top == s.bot && HasRoom(length, s)
    ensures Lawful(debug, length, s0, trace', poppers)
    ensures Exec(debug, length, s0, trace') == AfterLap(debug, length, Exec(debug, length, s0, trace), t, v)
  {
    trace' := PushCall(debug, length, s0, trace, t, v, poppers);
    trace' := ClaimCall(debug, length, s0, trace', t, poppers);
    trace' := TakeCall(debug, length, s0, trace', t, poppers);
  }

  /** Thread b has claimed position 0 and not read it; positions 1 .. m were pushed and popped by a. */
  ghost predicate Lagging(s: State, f: nat -> Value, a: nat, b: nat, m: nat) {
    && a < |s.pcs| && b < |s.pcs| && s.pcs[a].Idle? && s.pcs[b] == Taking(0) && s.top == s.bot == m + 1
    && 0 !in s.h.returned
    && (forall i: nat :: i <= m ==> i in s.h.pushed && s.h.pushed[i] == f(i))
  }

  lemma LagsFirst(length: nat, s0: State, f: nat -> Value, a: nat, b: nat)
    requires length >= 2 && Initial(length, s0) && a < |s0.pcs| && b < |s0.pcs| && a != b
    ensures Lagging(AfterClaim(AfterPush(length, s0, a, f(0)), b), f, a, b, 0)
  {
  }

  lemma LagsNext(debug: bool, length: nat, s: State, f: nat -> Value, a: nat, b: nat, m: nat)
    requires Shaped(length, s) && Lagging(s, f, a, b, m) && a != b
    ensures Lagging(AfterLap(debug, length, s, a, f(m + 1)), f, a, b, m + 1)
  {
  }

  lemma LagStart(debug: bool, length: nat, s0: State, f: nat -> Value, a: nat, b: nat)
    returns (trace: seq<(nat, Choice)>)
    requires length >= 2 && Initial(length, s0) && a < |s0.pcs| && b < |s0.pcs| && a != b
    ensures Lawful(debug, length, s0, trace, {a, b}) && Lagging(Exec(debug, length, s0, trace), f, a, b, 0)
  {
    LagsFirst(length, s0, f, a, b);
    trace := PushCall(debug, length, s0, [], a, f(0), {a, b});
    trace := ClaimCall(debug, length, s0, trace, b, {a, b});
  }

  lemma LagMore(debug: bool, length: nat, s0: State, trace: seq<(nat, Choice)>, f: nat -> Value, a: nat, b: nat, m: nat)
    returns (trace': seq<(nat, Choice)>)
    requires length >= 2 && Shaped(length, s0) && Lawful(debug, length, s0, trace, {a, b}) && a != b
    requires Lagging(Exec(debug, length, s0, trace), f, a, b, m)
    ensures Lawful(debug, length, s0, trace', {a, b}) && Lagging(Exec(debug, length, s0, trace'), f, a, b, m + 1)
  {
    LagsNext(debug, length, Exec(debug, length, s0, trace), f, a, b, m);
    trace' := LapCall(debug, length, s0, trace, a, f(m + 1), {a, b});
  }

  lemma {:induction false} LagBehind(debug: bool, length: nat, s0: State, f: nat -> Value, a: nat, b: nat, m: nat)
    returns (trace: seq<(nat, Choice)>)
    requires length >= 2 && Initial(length, s0) && a < |s0.pcs| && b < |s0.pcs| && a != b
    ensures Lawful(debug, length, s0, trace, {a, b}) && Lagging(Exec(debug, length, s0, trace), f, a, b, m)
  {
    if m == 0 {
      trace := LagStart(debug, length, s0, f, a, b);
    } else {
      trace := LagBehind(debug, length, s0, f, a, b, m - 1);
      trace := LagMore(debug, length, s0, trace, f, a, b, m - 1);
    }
  }

  /** The value of a whole lap later is returned both by the popper that lagged and by the next pop. */
  lemma LagReturns(length: nat, s: State, f: nat -> Value, a: nat, b: nat)
    requires length >= 1 && Shaped(length, s) && Lagging(s, f, a, b, length - 1) && a != b
    ensures var s' := AfterTake(false, length, AfterPush(length, s, a, f(length)), b);
            var s2 := AfterTake(false, length, AfterClaim(s', a), a);
            && s'.pcs[a].Idle? && s'.bot == length && s'.tag[Cell(length, length)] == length
            && (forall i: nat :: i <= length ==> i in s2.h.pushed && s2.h.pushed[i] == f(i))
            && 0 in s2.h.returned && s2.h.returned[0] == f(length)
            && length in s2.h.returned && s2.h.returned[length] == f(length)
  {
    assert Cell(length, length) == Cell(0, length) == 0;
  }

  /** Two popping threads, any capacity, pushes that never exceed it by count: the slow popper gets the
      value of the next lap, which is then returned twice, and the value it should get is lost. */
  lemma TwoPoppersFail(length: nat, s0: State, f: nat -> Value, a: nat, b: nat) returns (trace: seq<(nat, Choice)>)
    requires length >= 2 && Initial(length, s0) && a < |s0.pcs| && b < |s0.pcs| && a != b
    ensures Lawful(false, length, s0, trace, {a, b})
    ensures var h := Exec(false, length, s0, trace).h;
            && (forall i: nat :: i <= length ==> i in h.pushed && h.pushed[i] == f(i))
            && 0 in h.returned && h.returned[0] == f(length) && length in h.returned && h.returned[length] == f(length)
  {
    trace := LagBehind(false, length, s0, f, a, b, length - 1);
    LagReturns(length, Exec(false, length, s0, trace), f, a, b);
    trace := PushCall(false, length, s0, trace, a, f(length), {a, b});
    trace := TakeCall(false, length, s0, trace, b, {a, b});
    trace := ClaimCall(false, length, s0, trace, a, {a, b});
    trace := TakeCall(false, length, s0, trace, a, {a, b});
  }

  /** The same in both builds: the push of the next lap overfills. */
  lemma TwoPoppersOverfill(debug: bool, length: nat, s0: State, a: nat, b: nat) returns (trace: seq<(nat, Choice)>)
    requires length >= 2 && Initial(length, s0) && a < |s0.pcs| && b < |s0.pcs| && a != b
    ensures Lawful(debug, length, s0, trace, {a, b}) && !NeverOverfills(debug, length, s0, trace)
  {
    var before := LagBehind(debug, length, s0, (i: nat) => i, a, b, length - 1);
    Extend(debug, length, s0, before, a, Push(0), {a, b});
    trace := before + [(a, Push(0))];
    var n := |trace|;
    Extend(debug, length, s0, trace, a, Go(false), {a, b});
    trace := trace + [(a, Go(false))];
    assert trace[..n] == before + [(a, Push(0))];
    assert Overfills(length, Exec(debug, length, s0, trace[..n]), trace[n].0, trace[n].1);
  }

  ghost predicate CountSuffices(debug: bool, length: nat, n: nat, poppers: set<nat>) {
    forall s0: State, trace: seq<(nat, Choice)> ::
      Initial(length, s0) && |s0.pcs| == n && Lawful(debug, length, s0, trace, poppers)
      ==> NeverOverfills(debug, length, s0, trace)
  }

  /** Keeping within the capacity by count protects the queue exactly when at most one thread pops. */
  lemma CountSufficesIff(debug: bool, length: nat, n: nat, poppers: set<nat>)
    requires length >= 2 && forall t :: t in poppers ==> t < n
    ensures CountSuffices(debug, length, n, poppers) <==> forall a, b :: a in poppers && b in poppers ==> a == b
  {
    if a, b :| a in poppers && b in poppers && a != b {
      var s0 := Beginning(length, n);
      var trace := TwoPoppersOverfill(debug, length, s0, a, b);
      assert PopsOnlyBy(trace, poppers);
    } else {
      forall s0: State, trace: seq<(nat, Choice)> |
        Initial(length, s0) && |s0.pcs| == n && Lawful(debug, length, s0, trace, poppers)
        ensures NeverOverfills(debug, length, s0, trace)
      {
        var t0 := if t :| t in poppers then t else 0;
        OnePopperSuffices(debug, length, s0, trace, t0);
      }
    }
  }

  ghost function Beginning(length: nat, n: nat): (s0: State)
    requires length >= 1
    ensures Initial(length, s0) && |s0.pcs| == n
  {
    State(0, 0, seq(length, _ => 0), seq(length, x => x - length + 1), seq(n, _ => Idle),
          History(map[], map[], map[], map[], seq(length, x => x - length)))
  }
}
