/** The fetch-and-add array queue (lct/data_structure/queue/queue_array_atomic_faa.hpp). One step is
    one atomic access; data accesses are steps of their own. */
module FaaQueue {
  import opened Modular

  type Value = nat

  datatype Pc =
    | Idle
    | Writing(p: nat, v: Value) // push: top was raised, the value goes into the cell
    | Tagging(p: nat, v: Value) // push: the tag follows
    | Looking(b: nat) // pop: bot was read, its cell's tag comes next
    | Claiming // pop: fetch_add on bot
    | Claimed(b: nat) // pop: loop, look at the tag
    | Retracting(b: nat) // pop: loop, try to take the claim back
    | Taking(b: nat) // pop: read the value
    | Clearing(b: nat, v: Value) // pop, debug build: store the emptied tag

  /** History: per position, the value a push brought, the value a pop returned, the thread that is
      still filling it and the thread that has claimed it; per cell, the position tagged last. */
  datatype History = History(pushed: map<nat, Value>, returned: map<nat, Value>, filling: map<nat, nat>,
                             claims: map<nat, nat>, last: seq<int>)

  datatype State = State(top: nat, bot: nat, data: seq<Value>, tag: seq<int>, pcs: seq<Pc>, h: History)

  /** A call or the next step of one; spurious lets the weak compare-exchange fail. */
  datatype Choice = Push(v: Value) | Pop | Go(spurious: bool)

  /** length is capacity + 1. */
  predicate Shaped(length: nat, s: State) {
    length >= 1 && |s.data| == |s.tag| == |s.h.last| == length
  }

  function SetPc(s: State, t: nat, pc: Pc): State
    requires t < |s.pcs|
  {
    s.(pcs := s.pcs[t := pc])
  }

  function PushStep(length: nat, s: State, t: nat): (s': State)
    requires Shaped(length, s) && t < |s.pcs|
    ensures Shaped(length, s') && |s'.pcs| == |s.pcs|
  {
    match s.pcs[t]
    case Writing(p, v) => SetPc(s.(data := s.data[Cell(p, length) := v]), t, Tagging(p, v))
    case Tagging(p, v) =>
      SetPc(s.(tag := s.tag[Cell(p, length) := p],
               h := s.h.(last := s.h.last[Cell(p, length) := p], filling := s.h.filling - {p})), t, Idle)
    case _ => s
  }

  function Returned(h: History, b: nat, v: Value): History {
    h.(returned := h.returned[b := v], claims := h.claims - {b})
  }

  function PopStep(debug: bool, length: nat, s: State, t: nat, spurious: bool): (s': State)
    requires Shaped(length, s) && t < |s.pcs|
    ensures Shaped(length, s') && |s'.pcs| == |s.pcs|
  {
    match s.pcs[t]
    case Looking(b) => SetPc(s, t, if s.tag[Cell(b, length)] == b then Claiming else Idle)
    case Claiming => SetPc(s.(bot := s.bot + 1, h := s.h.(claims := s.h.claims[s.bot := t])), t, Claimed(s.bot))
    case Claimed(b) => SetPc(s, t, if s.tag[Cell(b, length)] == b then Taking(b) else Retracting(b))
    case Retracting(b) =>
      if s.bot == b + 1 && !spurious then SetPc(s.(bot := b, h := s.h.(claims := s.h.claims - {b})), t, Idle)
      else SetPc(s, t, Claimed(b))
    case Taking(b) =>
      var v := s.data[Cell(b, length)];
      if debug then SetPc(s, t, Clearing(b, v)) else SetPc(s.(h := Returned(s.h, b, v)), t, Idle)
    case Clearing(b, v) =>
      SetPc(s.(tag := s.tag[Cell(b, length) := b + 1], h := Returned(s.h, b, v)), t, Idle)
    case _ => s
  }

  function Step(debug: bool, length: nat, s: State, t: nat, c: Choice): (s': State)
    requires Shaped(length, s)
    ensures Shaped(length, s') && |s'.pcs| == |s.pcs|
  {
    if t >= |s.pcs| then s else
      match c
      case Push(v) =>
        if s.pcs[t].Idle? then
          SetPc(s.(top := s.top + 1,
                   h := s.h.(pushed := s.h.pushed[s.top := v], filling := s.h.filling[s.top := t])),
                t, Writing(s.top, v))
        else s
      case Pop => if s.pcs[t].Idle? then SetPc(s, t, Looking(s.bot)) else s
      case Go(spurious) =>
        if s.pcs[t].Writing? || s.pcs[t].Tagging? then PushStep(length, s, t)
        else PopStep(debug, length, s, t, spurious)
  }

  ghost predicate Initial(length: nat, s: State) {
    && Shaped(length, s) && s.top == s.bot == 0 && s.h == History(map[], map[], map[], map[], s.h.last)
    && (forall x :: 0 <= x < length ==> s.tag[x] == x - length + 1 && s.h.last[x] == x - length)
    && (forall t :: 0 <= t < |s.pcs| ==> s.pcs[t] == Idle)
  }

  ghost function Exec(debug: bool, length: nat, s0: State, trace: seq<(nat, Choice)>): (s: State)
    requires Shaped(length, s0)
    ensures Shaped(length, s) && |s.pcs| == |s0.pcs|
  {
    if trace == [] then s0 else
      var e := trace[|trace| - 1];
      Step(debug, length, Exec(debug, length, s0, trace[..|trace| - 1]), e.0, e.1)
  }

  /** The step puts a value into a cell whose previous position was not popped to the end yet. */
  predicate Overfills(length: nat, s: State, t: nat, c: Choice) {
    t < |s.pcs| && c.Go? && s.pcs[t].Writing? && s.pcs[t].p >= length && s.pcs[t].p - length !in s.h.returned
  }

  /** No push of the run overfills the queue. */
  ghost predicate NeverOverfills(debug: bool, length: nat, s0: State, trace: seq<(nat, Choice)>)
    requires Shaped(length, s0)
  {
    forall i :: 0 <= i < |trace| ==> !Overfills(length, Exec(debug, length, s0, trace[..i]), trace[i].0, trace[i].1)
  }

  // ------------------------------------------------------- the invariant

  predicate Claims(pc: Pc, b: nat) {
    (pc.Claimed? || pc.Retracting? || pc.Taking? || pc.Clearing?) && pc.b == b
  }

  predicate Fills(pc: Pc, p: nat) {
    (pc.Writing? || pc.Tagging?) && pc.p == p
  }

  /** What a thread knows about the position it works on. */
  ghost predicate PcOk(length: nat, s: State, t: nat)
    requires Shaped(length, s) && t < |s.pcs|
  {
    var h := s.h;
    match s.pcs[t]
    case Writing(p, v) => p in h.filling && h.filling[p] == t && p in h.pushed && h.pushed[p] == v
    case Tagging(p, v) =>
      && p in h.filling && h.filling[p] == t && p in h.pushed && h.pushed[p] == v
      && s.data[Cell(p, length)] == v && (p >= length ==> p - length in h.returned)
    case Claimed(b) => b in h.claims && h.claims[b] == t
    case Retracting(b) => b in h.claims && h.claims[b] == t
    case Taking(b) => b in h.claims && h.claims[b] == t && b < s.top && b !in h.filling
    case Clearing(b, v) =>
      b in h.claims && h.claims[b] == t && b < s.top && b !in h.filling && b in h.pushed && v == h.pushed[b]
    case _ => true
  }

  ghost predicate TagOk(length: nat, s: State, x: nat)
    requires Shaped(length, s) && x < length
  {
    var last := s.h.last[x];
    && (s.tag[x] == last || s.tag[x] == last + 1)
    && Cell(last, length) == x && x - length <= last < s.top
    && (last < 0 ==> s.tag[x] == last + 1)
    && (last >= 0 ==> last !in s.h.filling)
  }

  /** The value of position p is in its cell for poppers to see. */
  ghost predicate Ready(length: nat, s: State, p: nat)
    requires Shaped(length, s)
  {
    && p in s.h.pushed
    && s.tag[Cell(p, length)] == s.h.last[Cell(p, length)] == p
    && s.data[Cell(p, length)] == s.h.pushed[p]
  }

  ghost predicate PositionOk(length: nat, s: State, p: nat)
    requires Shaped(length, s)
  {
    var h := s.h;
    && (p < s.top <==> p in h.pushed)
    && (p in h.filling ==> p < s.top && h.filling[p] < |s.pcs| && Fills(s.pcs[h.filling[p]], p))
    && (p in h.claims ==> p !in h.returned && h.claims[p] < |s.pcs| && Claims(s.pcs[h.claims[p]], p))
    && (p < s.bot <==> p in h.claims || p in h.returned)
    && (p in h.returned ==> p < s.top && p !in h.filling && h.returned[p] == h.pushed[p])
    && (p < s.top && p !in h.filling && p >= length ==> p - length in h.returned)
    && (p < s.top && p !in h.filling ==> p <= h.last[Cell(p, length)])
    && (p < s.top && p !in h.filling && p !in h.returned ==> Ready(length, s, p))
  }

  ghost predicate Inv(length: nat, s: State) {
    && length >= 2 && Shaped(length, s)
    && (forall t :: 0 <= t < |s.pcs| ==> PcOk(length, s, t))
    && (forall x :: 0 <= x < length ==> TagOk(length, s, x))
    && (forall p: nat :: PositionOk(length, s, p))
  }

  // ------------------------------------------------------- cells and laps

  /** Earlier positions of the same cell were returned before a later one could be written. */
  lemma {:induction false} LapsReturned(length: nat, s: State, q: nat, p: nat)
    requires Inv(length, s) && q in s.h.returned && p <= q && Cell(p, length) == Cell(q, length)
    ensures p in s.h.returned
    decreases q
  {
    if p < q {
      if q < p + length {
        CellDistinct(p, q, length);
      } else {
        assert PositionOk(length, s, q);
        LapsReturned(length, s, q - length, p);
      }
    }
  }

  /** While position q is being pushed after the overfill test, every other written position of its
      cell has been returned. */
  lemma CellOwned(length: nat, s: State, q: nat, p: nat)
    requires Inv(length, s) && Cell(p, length) == Cell(q, length) && p != q
    requires q in s.h.filling && (q >= length ==> q - length in s.h.returned)
    requires p >= length ==> p - length in s.h.returned
    ensures p in s.h.returned && p < q
  {
    assert PositionOk(length, s, q);
    if p < q + length && q < p + length {
      CellDistinct(p, q, length);
    } else if p < q {
      LapsReturned(length, s, q - length, p);
    } else {
      LapsReturned(length, s, p - length, q);
    }
  }

  // ------------------------------------------------------- each step keeps the invariant

  lemma BeginPushKeeps(debug: bool, length: nat, s: State, t: nat, v: Value)
    requires Inv(length, s) && t < |s.pcs| && s.pcs[t].Idle?
    ensures Inv(length, Step(debug, length, s, t, Push(v)))
  {
    var s' := Step(debug, length, s, t, Push(v));
    assert PositionOk(length, s, s.top);
    forall u | 0 <= u < |s.pcs| ensures PcOk(length, s', u) {
      assert PcOk(length, s, u);
    }
    forall x | 0 <= x < length ensures TagOk(length, s', x) {
      assert TagOk(length, s, x);
    }
    forall p: nat ensures PositionOk(length, s', p) {
      assert PositionOk(length, s, p);
    }
  }

  lemma WriteKeeps(length: nat, s: State, t: nat)
    requires Inv(length, s) && t < |s.pcs| && s.pcs[t].Writing? && !Overfills(length, s, t, Go(false))
    ensures Inv(length, PushStep(length, s, t))
  {
    var s', q := PushStep(length, s, t), s.pcs[t].p;
    assert PcOk(length, s, t);
    forall u | 0 <= u < |s.pcs| ensures PcOk(length, s', u) {
      assert PcOk(length, s, u);
      if u != t && s.pcs[u].Tagging? && Cell(s.pcs[u].p, length) == Cell(q, length) {
        assert PositionOk(length, s, s.pcs[u].p);
        CellOwned(length, s, q, s.pcs[u].p);
      }
    }
    forall x | 0 <= x < length ensures TagOk(length, s', x) {
      assert TagOk(length, s, x);
    }
    forall p: nat ensures PositionOk(length, s', p) {
      assert PositionOk(length, s, p);
      if p < s.top && p !in s.h.filling && Cell(p, length) == Cell(q, length) {
        CellOwned(length, s, q, p);
      }
    }
  }

  lemma TagKeeps(length: nat, s: State, t: nat)
    requires Inv(length, s) && t < |s.pcs| && s.pcs[t].Tagging?
    ensures Inv(length, PushStep(length, s, t))
  {
    var s', q := PushStep(length, s, t), s.pcs[t].p;
    assert PcOk(length, s, t) && PositionOk(length, s, q);
    forall u | 0 <= u < |s.pcs| ensures PcOk(length, s', u) {
      assert PcOk(length, s, u);
    }
    forall x | 0 <= x < length ensures TagOk(length, s', x) {
      assert TagOk(length, s, x);
    }
    forall p: nat ensures PositionOk(length, s', p) {
      assert PositionOk(length, s, p);
      if p < s.top && p !in s.h.filling && Cell(p, length) == Cell(q, length) {
        CellOwned(length, s, q, p);
      }
    }
  }

  /** A thread that finds its own number in the tag of a cell may take the value. */
  lemma TagMeansStored(length: nat, s: State, b: nat)
    requires Inv(length, s) && s.tag[Cell(b, length)] == b
    ensures b < s.top && b !in s.h.filling
  {
    assert TagOk(length, s, Cell(b, length));
    if s.h.last[Cell(b, length)] == b - 1 {
      CellDistinct(b - 1, b, length);
    }
  }

  lemma LookKeeps(debug: bool, length: nat, s: State, t: nat, spurious: bool)
    requires Inv(length, s) && t < |s.pcs|
    requires s.pcs[t].Looking? || s.pcs[t].Claimed? || (s.pcs[t].Retracting? && (spurious || s.bot != s.pcs[t].b + 1))
    ensures Inv(length, PopStep(debug, length, s, t, spurious))
  {
    var s' := PopStep(debug, length, s, t, spurious);
    assert PcOk(length, s, t);
    if s.pcs[t].Claimed? && s.tag[Cell(s.pcs[t].b, length)] == s.pcs[t].b {
      TagMeansStored(length, s, s.pcs[t].b);
    }
    forall u | 0 <= u < |s.pcs| ensures PcOk(length, s', u) {
      assert PcOk(length, s, u);
    }
    forall x | 0 <= x < length ensures TagOk(length, s', x) {
      assert TagOk(length, s, x);
    }
    forall p: nat ensures PositionOk(length, s', p) {
      assert PositionOk(length, s, p);
    }
  }

  lemma ClaimKeeps(debug: bool, length: nat, s: State, t: nat, spurious: bool)
    requires Inv(length, s) && t < |s.pcs|
    requires s.pcs[t].Claiming? || (s.pcs[t].Retracting? && !spurious && s.bot == s.pcs[t].b + 1)
    ensures Inv(length, PopStep(debug, length, s, t, spurious))
  {
    var s' := PopStep(debug, length, s, t, spurious);
    assert PcOk(length, s, t) && PositionOk(length, s, s.bot);
    forall u | 0 <= u < |s.pcs| ensures PcOk(length, s', u) {
      assert PcOk(length, s, u);
    }
    forall x | 0 <= x < length ensures TagOk(length, s', x) {
      assert TagOk(length, s, x);
    }
    forall p: nat ensures PositionOk(length, s', p) {
      assert PositionOk(length, s, p);
    }
  }

  lemma TakeKeeps(debug: bool, length: nat, s: State, t: nat)
    requires Inv(length, s) && t < |s.pcs| && (s.pcs[t].Taking? || s.pcs[t].Clearing?)
    ensures Inv(length, PopStep(debug, length, s, t, false))
  {
    var s', b := PopStep(debug, length, s, t, false), s.pcs[t].b;
    assert PcOk(length, s, t) && PositionOk(length, s, b);
    forall u | 0 <= u < |s.pcs| ensures PcOk(length, s', u) {
      assert PcOk(length, s, u);
    }
    forall x | 0 <= x < length ensures TagOk(length, s', x) {
      assert TagOk(length, s, x);
    }
    forall p: nat ensures PositionOk(length, s', p) {
      TakePosition(debug, length, s, t, p);
    }
  }

  lemma TakePosition(debug: bool, length: nat, s: State, t: nat, p: nat)
    requires Inv(length, s) && t < |s.pcs| && (s.pcs[t].Taking? || s.pcs[t].Clearing?)
    ensures PositionOk(length, PopStep(debug, length, s, t, false), p)
  {
    assert PcOk(length, s, t) && PositionOk(length, s, s.pcs[t].b) && PositionOk(length, s, p);
  }

  lemma StepKeeps(debug: bool, length: nat, s: State, t: nat, c: Choice)
    requires Inv(length, s) && !Overfills(length, s, t, c)
    ensures Inv(length, Step(debug, length, s, t, c))
  {
    if t < |s.pcs| {
      match c
      case Push(v) => if s.pcs[t].Idle? { BeginPushKeeps(debug, length, s, t, v); }
      case Pop => PopBegins(debug, length, s, t);
      case Go(spurious) =>
        match s.pcs[t]
        case Idle =>
        case Writing(_, _) => WriteKeeps(length, s, t);
        case Tagging(_, _) => TagKeeps(length, s, t);
        case Claiming => ClaimKeeps(debug, length, s, t, spurious);
        case Retracting(b) =>
          if !spurious && s.bot == b + 1 {
            ClaimKeeps(debug, length, s, t, spurious);
          } else {
            LookKeeps(debug, length, s, t, spurious);
          }
        case Looking(_) => LookKeeps(debug, length, s, t, spurious);
        case Claimed(_) => LookKeeps(debug, length, s, t, spurious);
        case Taking(_) => TakeKeeps(debug, length, s, t);
        case Clearing(_, _) => TakeKeeps(debug, length, s, t);
    }
  }

  lemma PopBegins(debug: bool, length: nat, s: State, t: nat)
    requires Inv(length, s) && t < |s.pcs|
    ensures Inv(length, Step(debug, length, s, t, Pop))
  {
    var s' := Step(debug, length, s, t, Pop);
    forall u | 0 <= u < |s.pcs| ensures PcOk(length, s', u) {
      assert PcOk(length, s, u);
    }
    forall x | 0 <= x < length ensures TagOk(length, s', x) {
      assert TagOk(length, s, x);
    }
    forall p: nat ensures PositionOk(length, s', p) {
      assert PositionOk(length, s, p);
    }
  }

  lemma {:induction false} ExecInv(debug: bool, length: nat, s0: State, trace: seq<(nat, Choice)>)
    requires length >= 2 && Initial(length, s0) && NeverOverfills(debug, length, s0, trace)
    ensures Inv(length, Exec(debug, length, s0, trace))
  {
    if trace == [] {
      forall x | 0 <= x < length ensures TagOk(length, s0, x) {
      }
    } else {
      var n := |trace| - 1;
      var before := trace[..n];
      forall i | 0 <= i < n ensures !Overfills(length, Exec(debug, length, s0, before[..i]), before[i].0, before[i].1) {
        assert before[..i] == trace[..i];
      }
      ExecInv(debug, length, s0, before);
      StepKeeps(debug, length, Exec(debug, length, s0, before), trace[n].0, trace[n].1);
    }
  }

  // ------------------------------------------------------- main results

  /** In every run that does not overfill the queue: what was returned from a position is what was
      pushed there, unresolved claims are distinct, and the positions below bot are exactly those
      that were returned once or are claimed by one thread, so that none is skipped. */
  lemma ReturnedOnceNoneSkipped(debug: bool, length: nat, s0: State, trace: seq<(nat, Choice)>, p: nat, t: nat, u: nat)
    requires length >= 2 && Initial(length, s0) && NeverOverfills(debug, length, s0, trace)
    ensures var s := Exec(debug, length, s0, trace);
            && (p in s.h.returned ==> p in s.h.pushed && s.h.returned[p] == s.h.pushed[p])
            && (t < |s.pcs| && Claims(s.pcs[t], p) ==> p < s.bot && p !in s.h.returned)
            && (t < |s.pcs| && u < |s.pcs| && Claims(s.pcs[t], p) && Claims(s.pcs[u], p) ==> t == u)
            && (p < s.bot ==> p in s.h.returned || exists w :: 0 <= w < |s.pcs| && Claims(s.pcs[w], p))
            && (p >= s.bot ==> p !in s.h.returned)
  {
    ExecInv(debug, length, s0, trace);
    var s := Exec(debug, length, s0, trace);
    assert PositionOk(length, s, p);
    if t < |s.pcs| {
      assert PcOk(length, s, t);
    }
    if u < |s.pcs| {
      assert PcOk(length, s, u);
    }
  }

  /** A step never returns from a position twice, and returns the value pushed there. */
  lemma PopsReturnDistinct(debug: bool, length: nat, s0: State, trace: seq<(nat, Choice)>, t: nat, c: Choice)
    requires length >= 2 && Initial(length, s0) && NeverOverfills(debug, length, s0, trace)
    ensures var s := Exec(debug, length, s0, trace);
            var s' := Step(debug, length, s, t, c);
            s'.h.returned != s.h.returned ==>
              exists b :: b !in s.h.returned && b in s.h.pushed && s'.h.returned == s.h.returned[b := s.h.pushed[b]]
  {
    ExecInv(debug, length, s0, trace);
    var s := Exec(debug, length, s0, trace);
    var s' := Step(debug, length, s, t, c);
    if s'.h.returned != s.h.returned {
      assert PcOk(length, s, t);
      var b := s.pcs[t].b;
      assert PositionOk(length, s, b);
      assert b !in s.h.returned && b in s.h.pushed && s'.h.returned == s.h.returned[b := s.h.pushed[b]];
    }
  }

  /** A claim is taken back only while it is the newest: every other claim is older. */
  lemma OnlyNewestRetracts(debug: bool, length: nat, s0: State, trace: seq<(nat, Choice)>, t: nat, c: Choice, u: nat,
                           b: nat)
    requires length >= 2 && Initial(length, s0) && NeverOverfills(debug, length, s0, trace)
    ensures var s := Exec(debug, length, s0, trace);
            var s' := Step(debug, length, s, t, c);
            s'.bot < s.bot ==>
              && t < |s.pcs| && Claims(s.pcs[t], s'.bot) && s'.bot + 1 == s.bot
              && (u < |s.pcs| && u != t && Claims(s.pcs[u], b) ==> b < s'.bot)
  {
    ExecInv(debug, length, s0, trace);
    var s := Exec(debug, length, s0, trace);
    if Step(debug, length, s, t, c).bot < s.bot {
      RetractStep(debug, length, s, t, c, u, b);
    }
  }

  lemma RetractStep(debug: bool, length: nat, s: State, t: nat, c: Choice, u: nat, b: nat)
    requires Inv(length, s) && Step(debug, length, s, t, c).bot < s.bot
    ensures var s' := Step(debug, length, s, t, c);
            && t < |s.pcs| && Claims(s.pcs[t], s'.bot) && s'.bot + 1 == s.bot
            && (u < |s.pcs| && u != t && Claims(s.pcs[u], b) ==> b < s'.bot)
  {
    if u < |s.pcs| && u != t && Claims(s.pcs[u], b) {
      assert PcOk(length, s, t) && PcOk(length, s, u) && PositionOk(length, s, b);
    }
  }

  // ------------------------------------------------------- what never overfilling means

  /** Debug build: a cell whose position was returned carries the emptied tag. */
  ghost predicate Emptied(length: nat, s: State)
    requires Shaped(length, s)
  {
    forall x :: 0 <= x < length && s.h.last[x] >= 0 && s.h.last[x] in s.h.returned ==> s.tag[x] == s.h.last[x] + 1
  }

  lemma StepKeepsEmptied(length: nat, s: State, t: nat, c: Choice)
    requires Inv(length, s) && Emptied(length, s)
    ensures Emptied(length, Step(true, length, s, t, c))
  {
    if t < |s.pcs| {
      var s' := Step(true, length, s, t, c);
      assert PcOk(length, s, t);
      if s.pcs[t].Clearing? {
        assert PositionOk(length, s, s.pcs[t].b);
      } else if s.pcs[t].Tagging? {
        assert PositionOk(length, s, s.pcs[t].p);
      }
      forall x | 0 <= x < length && s'.h.last[x] >= 0 && s'.h.last[x] in s'.h.returned
        ensures s'.tag[x] == s'.h.last[x] + 1 {
        assert TagOk(length, s, x);
      }
    }
  }

  lemma {:induction false} ExecEmptied(length: nat, s0: State, trace: seq<(nat, Choice)>)
    requires length >= 2 && Initial(length, s0) && NeverOverfills(true, length, s0, trace)
    ensures Emptied(length, Exec(true, length, s0, trace))
  {
    if trace != [] {
      var n := |trace| - 1;
      var before := trace[..n];
      forall i | 0 <= i < n ensures !Overfills(length, Exec(true, length, s0, before[..i]), before[i].0, before[i].1) {
        assert before[..i] == trace[..i];
      }
      ExecInv(true, length, s0, before);
      ExecEmptied(length, s0, before);
      StepKeepsEmptied(length, Exec(true, length, s0, before), trace[n].0, trace[n].1);
    }
  }

  /** The assertion in push of the debug build tests exactly this condition: it holds if and only if
      the value about to be written does not overfill the queue. */
  lemma AssertionIsOverfillTest(length: nat, s0: State, trace: seq<(nat, Choice)>, t: nat)
    requires length >= 2 && Initial(length, s0) && NeverOverfills(true, length, s0, trace)
    ensures var s := Exec(true, length, s0, trace);
            t < |s.pcs| && s.pcs[t].Writing? ==>
              (s.tag[Cell(s.pcs[t].p, length)] == s.pcs[t].p - length + 1 <==> !Overfills(length, s, t, Go(false)))
  {
    ExecInv(true, length, s0, trace);
    ExecEmptied(length, s0, trace);
    var s := Exec(true, length, s0, trace);
    if t < |s.pcs| && s.pcs[t].Writing? {
      EmptiedTag(length, s, t);
    }
  }

  lemma EmptiedTag(length: nat, s: State, t: nat)
    requires Inv(length, s) && Emptied(length, s) && t < |s.pcs| && s.pcs[t].Writing?
    ensures s.tag[Cell(s.pcs[t].p, length)] == s.pcs[t].p - length + 1 <==> !Overfills(length, s, t, Go(false))
  {
    var p := s.pcs[t].p;
    var x := Cell(p, length);
    var last := s.h.last[x];
    assert PcOk(length, s, t) && PositionOk(length, s, p) && TagOk(length, s, x);
    if s.tag[x] == p - length + 1 {
      TagNotNext(length, p, last);
      if p >= length {
        assert PositionOk(length, s, p - length);
      }
    } else if !Overfills(length, s, t, Go(false)) {
      LastBefore(length, s, p);
      assert false;
    }
  }

  lemma TagNotNext(length: nat, p: nat, last: int)
    requires length >= 2 && Cell(last, length) == Cell(p, length)
    ensures last != p - length + 1
  {
    if last == p - length + 1 {
      CellDistinct(p - length, last, length);
      CellLap(p, length);
    }
  }

  lemma CellLap(p: int, length: nat)
    requires length >= 1
    ensures Cell(p - length, length) == Cell(p, length)
  {
    CellIsRemainder(p - length, length);
    CellIsRemainder(p, length);
    AddModulus(p - length, length);
  }

  /** The cell of a position being pushed was last used by the position one lap before. */
  lemma LastBefore(length: nat, s: State, p: nat)
    requires Inv(length, s) && p in s.h.filling && (p >= length ==> p - length in s.h.returned)
    ensures s.h.last[Cell(p, length)] == p - length
  {
    var x := Cell(p, length);
    var last := s.h.last[x];
    assert TagOk(length, s, x) && PositionOk(length, s, p);
    if last >= 0 {
      assert PositionOk(length, s, last);
      CellOwned(length, s, p, last);
    }
    if p >= length {
      assert PositionOk(length, s, p - length);
      CellLap(p, length);
    }
    if last != p - length {
      if last < p && p - length < last {
        CellDistinct(last, p, length);
      }
      assert false;
    }
  }
}
