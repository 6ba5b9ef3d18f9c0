/** The packet pool: one growable circular deque per thread, with stealing
    (src/data_structure/mpmc_set.hpp). */
module PacketPool {
  import opened Options
  import opened Modular
  import opened Sums

  /** A packet pointer; 0 is the null pointer. */
  type Packet = nat
  const NULL: Packet := 0

  /** The remainder operator of C++, which truncates toward zero. */
  function TruncRem(a: int, b: int): int
    requires b > 0
  {
    if a >= 0 then a % b else -((-a) % b)
  }

  /** get_position: a slot number for any index, negative ones included. */
  function Position(idx: int, size: nat): int
    requires size > 0
  {
    TruncRem(TruncRem(idx, size) + size, size)
  }

  lemma NegativePosition(idx: int, size: nat)
    requires size > 0 && idx < 0
    ensures Position(idx, size) == idx % size
  {
    var q, r := (-idx) / size, (-idx) % size;
    DivMod(-idx, size);
    if r == 0 {
      assert idx == (-q) * size;
      DivUnique(idx, -q, 0, size);
      DivUnique(size, 1, 0, size);
    } else {
      assert idx == (-q - 1) * size + (size - r);
      DivUnique(idx, -q - 1, size - r, size);
      SmallMod(size - r, size);
    }
  }

  /** The truncating remainder, made positive, is the slot also for negative indices. */
  lemma PositionIsCell(idx: int, size: nat)
    requires size > 0
    ensures Position(idx, size) == Cell(idx, size)
  {
    CellIsRemainder(idx, size);
    if idx >= 0 {
      AddModulus(idx % size, size);
      SmallMod(idx % size, size);
    } else {
      NegativePosition(idx, size);
    }
  }

  /** The circular buffer holds the sequence c from index head on. */
  ghost predicate Stores(queue: seq<Packet>, head: int, c: seq<Packet>) {
    |c| < |queue| && forall i :: 0 <= i < |c| ==> c[i] == queue[Cell(head + i, |queue|)]
  }

  predicate NonNull(c: seq<Packet>) {
    forall i :: 0 <= i < |c| ==> c[i] != NULL
  }

  lemma StoresFront(queue: seq<Packet>, c: seq<Packet>)
    requires |c| < |queue| && queue[..|c|] == c
    ensures Stores(queue, 0, c)
  {
    forall i | 0 <= i < |c| ensures c[i] == queue[Cell(0 + i, |queue|)] {
      assert Cell(i, |queue|) == i;
      assert queue[..|c|][i] == queue[i];
    }
  }

  lemma StoresRest(queue: seq<Packet>, head: int, c: seq<Packet>, n: nat)
    requires Stores(queue, head, c) && n <= |c|
    ensures Stores(queue, head + n, c[n..])
  {
    forall i | 0 <= i < |c| - n ensures c[n..][i] == queue[Cell(head + n + i, |queue|)] {
      assert head + n + i == head + (n + i);
    }
  }

  lemma StoresBot(queue: seq<Packet>, head: int, c: seq<Packet>, p: Packet)
    requires Stores(queue, head, c) && |c| + 1 < |queue|
    ensures Stores(queue[Cell(head + |c|, |queue|) := p], head, c + [p])
  {
    var queue' := queue[Cell(head + |c|, |queue|) := p];
    forall i | 0 <= i < |c| + 1 ensures (c + [p])[i] == queue'[Cell(head + i, |queue|)] {
      if i < |c| {
        CellDistinct(head + i, head + |c|, |queue|);
      }
    }
  }

  lemma StoresTop(queue: seq<Packet>, head: int, c: seq<Packet>, p: Packet)
    requires Stores(queue, head, c) && |c| + 1 < |queue|
    ensures Stores(queue[Cell(head - 1, |queue|) := p], head - 1, [p] + c)
  {
    var queue' := queue[Cell(head - 1, |queue|) := p];
    forall i | 0 <= i < |c| + 1 ensures ([p] + c)[i] == queue'[Cell(head - 1 + i, |queue|)] {
      if i > 0 {
        CellDistinct(head - 1 + i, head - 1, |queue|);
        assert head - 1 + i == head + (i - 1);
      }
    }
  }

  /** local_set_t. queue is the circular buffer, head the index of the first element and tail the
      index after the last one; both may be negative. contents is what it holds, from the top. */
  class LocalSet {
    var queue: seq<Packet>
    var head: int
    var tail: int
    ghost var contents: seq<Packet>

    ghost predicate Valid()
      reads this
    {
      |queue| >= 2 && tail - head == |contents| && Stores(queue, head, contents) && NonNull(contents)
    }

    constructor (defaultSize: nat)
      requires defaultSize > 0
      ensures Valid() && contents == []
    {
      queue := seq(defaultSize + 1, _ => NULL);
      head, tail, contents := 0, 0, [];
    }

    method GetPosition(idx: int) returns (pos: nat)
      requires |queue| > 0
      ensures pos == Cell(idx, |queue|)
    {
      PositionIsCell(idx, |queue|);
      pos := Position(idx, |queue|);
    }

    /** copy_to_new: the first n packets, in order, to the front of another buffer. */
    method CopyToNew(newQueue: seq<Packet>, n: nat) returns (q: seq<Packet>)
      requires Valid() && n <= |contents| && n < |newQueue|
      modifies this`head, this`contents
      ensures Valid() && contents == old(contents)[n..]
      ensures |q| == |newQueue| && q[..n] == old(contents)[..n]
    {
      var headIdx := GetPosition(head);
      if headIdx + n <= |queue| {
        q := queue[headIdx..headIdx + n] + newQueue[n..];
      } else {
        var first := |queue| - headIdx;
        q := queue[headIdx..] + queue[..n - first] + newQueue[n..];
      }
      forall i | 0 <= i < n ensures q[i] == contents[i] {
        CellAdd(head, i, |queue|);
      }
      StoresRest(queue, head, contents, n);
      head := head + n;
      contents := contents[n..];
    }

    /** expand: twice the buffer, the same packets. */
    method Expand()
      requires Valid() && contents != []
      modifies this
      ensures Valid() && contents == old(contents) && |queue| == 2 * old(|queue|)
    {
      var currentSize := tail - head;
      var newQueue: seq<Packet> := seq(|queue| * 2, _ => NULL);
      newQueue := CopyToNew(newQueue, currentSize);
      head, tail, queue, contents := 0, currentSize, newQueue, old(contents);
      assert old(contents)[..currentSize] == old(contents);
      StoresFront(queue, contents);
    }

    method PushToBot(packet: Packet)
      requires Valid() && packet != NULL
      modifies this
      ensures Valid() && contents == old(contents) + [packet]
    {
      if tail - head == |queue| - 1 {
        Expand();
      }
      var pos := GetPosition(tail);
      StoresBot(queue, head, contents, packet);
      queue, tail, contents := queue[pos := packet], tail + 1, contents + [packet];
    }

    method PushToTop(packet: Packet)
      requires Valid() && packet != NULL
      modifies this
      ensures Valid() && contents == [packet] + old(contents)
    {
      if tail - head == |queue| - 1 {
        Expand();
      }
      var pos := GetPosition(head - 1);
      StoresTop(queue, head, contents, packet);
      queue, head, contents := queue[pos := packet], head - 1, [packet] + contents;
    }

    method PopFromTop() returns (packet: Packet)
      requires Valid()
      modifies this
      ensures Valid()
      ensures old(contents) == [] ==> packet == NULL && contents == []
      ensures old(contents) != [] ==> packet != NULL && old(contents) == [packet] + contents
    {
      if head == tail {
        return NULL;
      }
      var pos := GetPosition(head);
      assert head + 0 == head && contents[0] == queue[pos];
      packet := queue[pos];
      StoresRest(queue, head, contents, 1);
      head, contents := head + 1, contents[1..];
    }

    method PopFromBot() returns (packet: Packet)
      requires Valid()
      modifies this
      ensures Valid()
      ensures old(contents) == [] ==> packet == NULL && contents == []
      ensures old(contents) != [] ==> packet != NULL && old(contents) == contents + [packet]
    {
      if head == tail {
        return NULL;
      }
      var pos := GetPosition(tail - 1);
      assert tail - 1 == head + (|contents| - 1) && contents[|contents| - 1] == queue[pos];
      packet := queue[pos];
      tail, contents := tail - 1, contents[..|contents| - 1];
    }

    /** The loop of get_n: up to n packets from the bottom, the bottom one first. */
    method GetN(n: nat) returns (out: seq<Packet>)
      requires Valid()
      modifies this
      ensures Valid() && |out| == (if n < old(|contents|) then n else old(|contents|))
      ensures |contents| + |out| == old(|contents|) && contents == old(contents)[..|contents|]
      ensures forall i :: 0 <= i < |out| ==> out[i] == old(contents)[old(|contents|) - 1 - i]
    {
      out := [];
      for i := 0 to n
        invariant Valid() && |out| == i && |contents| + i == old(|contents|) && contents == old(contents)[..|contents|]
        invariant forall k :: 0 <= k < i ==> out[k] == old(contents)[old(|contents|) - 1 - k]
      {
        var packet := PopFromBot();
        if packet == NULL {
          return;
        }
        out := out + [packet];
      }
    }

    /** The body of steal_packets once both locks are held: the upper half, rounded up, of the
        victim moves to the empty local pool. */
    method StealFrom(victim: LocalSet, defaultSize: nat) returns (stolen: bool)
      requires Valid() && contents == [] && victim.Valid() && victim != this
      modifies this, victim
      ensures Valid() && victim.Valid() && stolen == (old(victim.contents) != [])
      ensures contents + victim.contents == old(victim.contents)
      ensures |victim.contents| <= |contents| <= |victim.contents| + 1
    {
      var sizeToSteal := (victim.tail - victim.head + 1) / 2;
      if sizeToSteal > 0 {
        var newSize := (if defaultSize > sizeToSteal * 2 then defaultSize else sizeToSteal * 2) + 1;
        var resized := if newSize <= |queue| then queue[..newSize] else queue + seq(newSize - |queue|, _ => NULL);
        queue := victim.CopyToNew(resized, sizeToSteal);
        tail, head := sizeToSteal, 0;
        contents := old(victim.contents)[..sizeToSteal];
        StoresFront(queue, contents);
      }
      stolen := sizeToSteal > 0;
    }
  }

  // ------------------------------------------------------- all threads together

  /** What a thread is in the middle of. Locked(n, got, maySteal): get_n holds the lock of the thread's own
      pool; n is how many more packets it wants, got what it has popped and maySteal whether it has found
      its pool empty so far. Stealing(v, n): it also holds the lock of the victim v. Carrying(n, stolen): the
      victim is unlocked again and the stolen packets are in the local buffer, whose head and tail are not
      set yet. Putting: put holds the lock of the own pool. */
  datatype Pc =
    | Idle
    | Locked(n: nat, got: seq<Packet>, maySteal: bool)
    | Stealing(victim: nat, n: nat)
    | Carrying(n: nat, stolen: seq<Packet>)
    | Putting(packet: Packet, toBot: bool)

  /** pools[i] is what the deque of thread i holds and lock[i] who holds its lock. held are the
      packets handed out: whoever has one may put it back. */
  datatype State = State(pools: seq<seq<Packet>>, lock: seq<Option<nat>>, held: multiset<Packet>, pcs: seq<Pc>)

  datatype Choice =
    | TryLock(n: nat)
    | LockVictim(v: nat)
    | Copy
    | Install
    | Pop
    | Unlock
    | LockForPut(packet: Packet, toBot: bool)
    | Push

  predicate Shaped(s: State) {
    |s.pools| == |s.lock| == |s.pcs|
  }

  predicate Enabled(s: State, t: nat, c: Choice)
    requires Shaped(s)
  {
    && t < |s.pcs|
    && var pc := s.pcs[t];
       match c
       case TryLock(_) => pc.Idle? && s.lock[t].None?
       case LockVictim(v) => pc.Locked? && pc.maySteal && s.pools[t] == [] && v < |s.pcs| && v != t && s.lock[v].None?
       case Copy => pc.Stealing? && pc.victim < |s.pcs|
       case Install => pc.Carrying?
       case Pop => pc.Locked? && pc.n > 0 && s.pools[t] != []
       case Unlock => pc.Locked? && (pc.n == 0 || s.pools[t] == [])
       case LockForPut(packet, _) => pc.Idle? && s.lock[t].None? && packet in s.held
       case Push => pc.Putting?
  }

  function Step(s: State, t: nat, c: Choice): (s': State)
    requires Shaped(s)
    ensures Shaped(s') && |s'.pcs| == |s.pcs|
  {
    if !Enabled(s, t, c) then s else
      var pc, pool := s.pcs[t], s.pools[t];
      match c
      case TryLock(n) => s.(lock := s.lock[t := Some(t)], pcs := s.pcs[t := Locked(n, [], true)])
      case LockVictim(v) => s.(lock := s.lock[v := Some(t)], pcs := s.pcs[t := Stealing(v, pc.n)])
      case Copy =>
        var victim := s.pools[pc.victim];
        var k := Half(|victim|);
        s.(pools := s.pools[pc.victim := victim[k..]], lock := s.lock[pc.victim := None],
           pcs := s.pcs[t := Carrying(pc.n, victim[..k])])
      case Install =>
        s.(pools := s.pools[t := if pc.stolen == [] then pool else pc.stolen],
           pcs := s.pcs[t := Locked(pc.n, [], pc.stolen == [])])
      case Pop =>
        s.(pools := s.pools[t := pool[..|pool| - 1]], held := s.held + multiset{pool[|pool| - 1]},
           pcs := s.pcs[t := Locked(pc.n - 1, pc.got + [pool[|pool| - 1]], false)])
      case Unlock => s.(lock := s.lock[t := None], pcs := s.pcs[t := Idle])
      case LockForPut(packet, toBot) =>
        s.(lock := s.lock[t := Some(t)], held := s.held - multiset{packet}, pcs := s.pcs[t := Putting(packet, toBot)])
      case Push =>
        s.(pools := s.pools[t := if pc.toBot then pool + [pc.packet] else [pc.packet] + pool],
           lock := s.lock[t := None], pcs := s.pcs[t := Idle])
  }

  ghost function Exec(s0: State, trace: seq<(nat, Choice)>): (s: State)
    requires Shaped(s0)
    ensures Shaped(s) && |s.pcs| == |s0.pcs|
  {
    if trace == [] then s0 else
      var e := trace[|trace| - 1];
      Step(Exec(s0, trace[..|trace| - 1]), e.0, e.1)
  }

  /** How often packet x is in thread i's pool or on the move with it. */
  function Share(s: State, i: nat, x: Packet): nat
    requires Shaped(s) && i < |s.pcs|
  {
    multiset(s.pools[i])[x] + Moving(s.pcs[i])[x]
  }

  function Moving(pc: Pc): multiset<Packet> {
    match pc
    case Carrying(_, stolen) => multiset(stolen)
    case Putting(packet, _) => multiset{packet}
    case _ => multiset{}
  }

  function Shares(s: State, x: Packet): seq<nat>
    requires Shaped(s)
  {
    seq(|s.pcs|, i requires 0 <= i < |s.pcs| => Share(s, i, x))
  }

  /** How many copies of packet x there are: in pools, on the move, and handed out. */
  function Copies(s: State, x: Packet): nat
    requires Shaped(s)
  {
    Sum(Shares(s, x)) + s.held[x]
  }

  /** Who may touch a pool: its lock is held by the thread that works on it, and by no other. */
  ghost predicate LocksOk(s: State, t: nat)
    requires Shaped(s) && t < |s.pcs|
  {
    match s.pcs[t]
    case Idle => s.lock[t] != Some(t)
    case Locked(_, _, _) => s.lock[t] == Some(t)
    case Stealing(v, _) => s.lock[t] == Some(t) && s.pools[t] == [] && v < |s.pcs| && v != t && s.lock[v] == Some(t)
    case Carrying(_, _) => s.lock[t] == Some(t) && s.pools[t] == []
    case Putting(_, _) => s.lock[t] == Some(t)
  }

  ghost predicate Inv(s: State) {
    Shaped(s) && forall t :: 0 <= t < |s.pcs| ==> LocksOk(s, t)
  }

  lemma StepKeepsLocks(s: State, t: nat, c: Choice)
    requires Inv(s)
    ensures Inv(Step(s, t, c))
  {
    if Enabled(s, t, c) {
      assert LocksOk(s, t);
      forall u | 0 <= u < |s.pcs| ensures LocksOk(Step(s, t, c), u) {
        assert LocksOk(s, u);
      }
    }
  }

  lemma SplitCount(c: seq<Packet>, k: nat, x: Packet)
    requires k <= |c|
    ensures multiset(c)[x] == multiset(c[..k])[x] + multiset(c[k..])[x]
  {
    assert c == c[..k] + c[k..];
  }

  lemma UntouchedShare(s: State, s': State, x: Packet, i: nat)
    requires Shaped(s) && Shaped(s') && i < |s.pcs| && i < |s'.pcs|
    requires s'.pools[i] == s.pools[i] && Moving(s'.pcs[i]) == Moving(s.pcs[i])
    ensures Share(s', i, x) == Share(s, i, x)
  {
  }

  /** What thread t and the packets handed out account for together. */
  function Reach(s: State, t: nat, x: Packet): nat
    requires Shaped(s) && t < |s.pcs|
  {
    Share(s, t, x) + s.held[x]
  }

  lemma PopShare(s: State, t: nat, x: Packet)
    requires Shaped(s) && Enabled(s, t, Pop)
    ensures Reach(Step(s, t, Pop), t, x) == Reach(s, t, x)
  {
    SplitCount(s.pools[t], |s.pools[t]| - 1, x);
  }

  lemma PushShare(s: State, t: nat, x: Packet)
    requires Shaped(s) && Enabled(s, t, Push)
    ensures Reach(Step(s, t, Push), t, x) == Reach(s, t, x)
  {
  }

  lemma TakeShare(s: State, t: nat, packet: Packet, toBot: bool, x: Packet)
    requires Shaped(s) && Enabled(s, t, LockForPut(packet, toBot))
    ensures Reach(Step(s, t, LockForPut(packet, toBot)), t, x) == Reach(s, t, x)
  {
  }

  lemma InstallShare(s: State, t: nat, x: Packet)
    requires Shaped(s) && Enabled(s, t, Install) && LocksOk(s, t)
    ensures Reach(Step(s, t, Install), t, x) == Reach(s, t, x)
  {
  }

  /** Every step but Copy moves packets within its thread's share or to and from those handed out. */
  lemma OwnShare(s: State, t: nat, c: Choice, x: Packet)
    requires Shaped(s) && Enabled(s, t, c) && LocksOk(s, t) && !c.Copy?
    ensures Reach(Step(s, t, c), t, x) == Reach(s, t, x)
  {
    match c
    case Pop => PopShare(s, t, x);
    case Push => PushShare(s, t, x);
    case LockForPut(packet, toBot) => TakeShare(s, t, packet, toBot, x);
    case Install => InstallShare(s, t, x);
    case TryLock(_) => UntouchedShare(s, Step(s, t, c), x, t);
    case LockVictim(_) => UntouchedShare(s, Step(s, t, c), x, t);
    case Unlock => UntouchedShare(s, Step(s, t, c), x, t);
  }

  lemma OtherShares(s: State, t: nat, c: Choice, x: Packet)
    requires Shaped(s) && Enabled(s, t, c) && !c.Copy?
    ensures Shares(Step(s, t, c), x) == Shares(s, x)[t := Share(Step(s, t, c), t, x)]
  {
    var s' := Step(s, t, c);
    forall i | 0 <= i < |s.pcs| && i != t ensures Share(s', i, x) == Share(s, i, x) {
      UntouchedShare(s, s', x, i);
    }
  }

  lemma CopyMoves(s: State, t: nat, x: Packet)
    requires Shaped(s) && Enabled(s, t, Copy) && LocksOk(s, t)
    ensures var s', v := Step(s, t, Copy), s.pcs[t].victim;
            Share(s', t, x) + Share(s', v, x) == Share(s, t, x) + Share(s, v, x)
  {
    var victim := s.pools[s.pcs[t].victim];
    SplitCount(victim, Half(|victim|), x);
  }

  lemma CopyShares(s: State, t: nat, x: Packet)
    requires Shaped(s) && Enabled(s, t, Copy) && LocksOk(s, t)
    ensures var s', v := Step(s, t, Copy), s.pcs[t].victim;
            Shares(s', x) == Shares(s, x)[t := Share(s', t, x)][v := Share(s', v, x)]
  {
    var s', v := Step(s, t, Copy), s.pcs[t].victim;
    forall i | 0 <= i < |s.pcs| && i != t && i != v ensures Share(s', i, x) == Share(s, i, x) {
      UntouchedShare(s, s', x, i);
    }
  }

  lemma CopyConserves(s: State, t: nat, x: Packet)
    requires Shaped(s) && Enabled(s, t, Copy) && LocksOk(s, t)
    ensures Copies(Step(s, t, Copy), x) == Copies(s, x)
  {
    var s', v := Step(s, t, Copy), s.pcs[t].victim;
    CopyMoves(s, t, x);
    CopyShares(s, t, x);
    SumUpdate(Shares(s, x), t, Share(s', t, x));
    SumUpdate(Shares(s, x)[t := Share(s', t, x)], v, Share(s', v, x));
  }

  lemma StepConserves(s: State, t: nat, c: Choice, x: Packet)
    requires Inv(s)
    ensures Copies(Step(s, t, c), x) == Copies(s, x)
  {
    if Enabled(s, t, c) {
      assert LocksOk(s, t);
      if c.Copy? {
        CopyConserves(s, t, x);
      } else {
        OwnShare(s, t, c, x);
        OtherShares(s, t, c, x);
        SumUpdate(Shares(s, x), t, Share(Step(s, t, c), t, x));
      }
    }
  }

  /** In every interleaving of gets, puts and steals, whichever thread puts a packet back, no packet is
      lost and none duplicated: pools, packets handed out and packets on the move together always hold
      the same number of copies of each packet. */
  lemma {:induction false} PacketsConserved(s0: State, trace: seq<(nat, Choice)>, x: Packet)
    requires Shaped(s0) && forall t :: 0 <= t < |s0.pcs| ==> s0.pcs[t] == Idle && s0.lock[t] == None
    ensures Inv(Exec(s0, trace))
    ensures Copies(Exec(s0, trace), x) == Copies(s0, x)
  {
    if trace != [] {
      var before, e := trace[..|trace| - 1], trace[|trace| - 1];
      PacketsConserved(s0, before, x);
      StepKeepsLocks(Exec(s0, before), e.0, e.1);
      StepConserves(Exec(s0, before), e.0, e.1, x);
    }
  }

  /** Thread t reads or writes the deque of thread v. */
  predicate WorksOn(s: State, t: nat, v: nat)
    requires Shaped(s)
  {
    t < |s.pcs| && !s.pcs[t].Idle? && (v == t || (s.pcs[t].Stealing? && s.pcs[t].victim == v))
  }

  /** No two threads ever work on the same deque, in spite of the unlocked look at the victim. */
  lemma OneThreadPerPool(s0: State, trace: seq<(nat, Choice)>, t: nat, u: nat, v: nat)
    requires Shaped(s0) && forall t :: 0 <= t < |s0.pcs| ==> s0.pcs[t] == Idle && s0.lock[t] == None
    ensures WorksOn(Exec(s0, trace), t, v) && WorksOn(Exec(s0, trace), u, v) ==> t == u
  {
    var s := Exec(s0, trace);
    PacketsConserved(s0, trace, NULL);
    if WorksOn(s, t, v) && WorksOn(s, u, v) {
      assert LocksOk(s, t) && LocksOk(s, u);
    }
  }

  // ------------------------------------------------------- what the calls do

  /** How many packets thread t asked for in its latest get_n. */
  ghost function Wanted(s0: State, trace: seq<(nat, Choice)>, t: nat): nat
    requires Shaped(s0)
    decreases |trace|
  {
    if trace == [] then 0 else
      var before, e := trace[..|trace| - 1], trace[|trace| - 1];
      if e.0 == t && e.1.TryLock? && Enabled(Exec(s0, before), t, e.1) then e.1.n else Wanted(s0, before, t)
  }

  /** What a get_n has and what it still wants add up to what it was asked for. */
  predicate Owes(pc: Pc, wanted: nat) {
    match pc
    case Locked(n, got, maySteal) => n + |got| == wanted && (maySteal ==> got == [])
    case Stealing(_, n) => n == wanted
    case Carrying(n, _) => n == wanted
    case _ => true
  }

  lemma OwesStep(s: State, u: nat, c: Choice, t: nat, wanted: nat)
    requires Shaped(s) && t < |s.pcs| && Owes(s.pcs[t], wanted)
    ensures Owes(Step(s, u, c).pcs[t], if u == t && c.TryLock? && Enabled(s, t, c) then c.n else wanted)
  {
  }

  lemma {:induction false} ExecOwes(s0: State, trace: seq<(nat, Choice)>, t: nat)
    requires Shaped(s0) && (forall i :: 0 <= i < |s0.pcs| ==> s0.pcs[i] == Idle) && t < |s0.pcs|
    ensures Owes(Exec(s0, trace).pcs[t], Wanted(s0, trace, t))
    decreases |trace|
  {
    if trace != [] {
      var before, e := trace[..|trace| - 1], trace[|trace| - 1];
      ExecOwes(s0, before, t);
      OwesStep(Exec(s0, before), e.0, e.1, t, Wanted(s0, before, t));
    }
  }

  /** In every run, a get_n returns as many packets as it was asked for, or leaves its pool empty. */
  lemma GetReturnsEnough(s0: State, trace: seq<(nat, Choice)>, t: nat)
    requires Shaped(s0) && forall i :: 0 <= i < |s0.pcs| ==> s0.pcs[i] == Idle && s0.lock[i] == None
    requires Enabled(Exec(s0, trace), t, Unlock)
    ensures var s := Exec(s0, trace);
            |s.pcs[t].got| == Wanted(s0, trace, t) || (|s.pcs[t].got| < Wanted(s0, trace, t) && s.pools[t] == [])
  {
    ExecOwes(s0, trace, t);
  }

  /** Thread t makes these choices one after the other, and nobody else does anything. */
  function Alone(s: State, t: nat, cs: seq<Choice>): (s': State)
    requires Shaped(s)
    ensures Shaped(s') && |s'.pcs| == |s.pcs|
    decreases |cs|
  {
    if cs == [] then s else Alone(Step(s, t, cs[0]), t, cs[1..])
  }

  lemma {:induction false} AloneConcat(s: State, t: nat, a: seq<Choice>, b: seq<Choice>)
    requires Shaped(s)
    ensures Alone(s, t, a + b) == Alone(Alone(s, t, a), t, b)
    decreases |a|
  {
    if a == [] {
      assert a + b == b;
    } else {
      AloneConcat(Step(s, t, a[0]), t, a[1..], b);
      assert (a + b)[0] == a[0] && (a + b)[1..] == a[1..] + b;
    }
  }

  lemma AloneFirst(s: State, t: nat, c: Choice, cs: seq<Choice>)
    requires Shaped(s)
    ensures Alone(s, t, [c] + cs) == Alone(Step(s, t, c), t, cs)
  {
    assert ([c] + cs)[0] == c && ([c] + cs)[1..] == cs;
  }

  /** The last k elements, the last one first. */
  function LastFirst(a: seq<Packet>, k: nat): (r: seq<Packet>)
    requires k <= |a|
    ensures |r| == k && forall i :: 0 <= i < k ==> r[i] == a[|a| - 1 - i]
  {
    seq(k, i requires 0 <= i < k => a[|a| - 1 - i])
  }

  /** The loop of get_n takes packets from the bottom until it has enough or the pool is empty. */
  lemma {:induction false} PopsAlone(s: State, t: nat, k: nat) returns (cs: seq<Choice>)
    requires Shaped(s) && t < |s.pcs| && s.pcs[t].Locked? && k <= s.pcs[t].n && k <= |s.pools[t]|
    ensures var s', pool := Alone(s, t, cs), s.pools[t];
            && s'.pools == s.pools[t := pool[..|pool| - k]] && s'.lock == s.lock
            && s'.pcs[t].Locked? && s'.pcs[t].n == s.pcs[t].n - k && s'.pcs[t].got == s.pcs[t].got + LastFirst(pool, k)
            && s'.pcs == s.pcs[t := s'.pcs[t]]
    decreases k
  {
    if k == 0 {
      cs := [];
      assert s.pools[t][..|s.pools[t]|] == s.pools[t];
    } else {
      var s1 := Step(s, t, Pop);
      var more := PopsAlone(s1, t, k - 1);
      cs := [Pop] + more;
      AloneFirst(s, t, Pop, more);
      var pool := s.pools[t];
      assert pool[..|pool| - 1][..|pool| - k] == pool[..|pool| - k];
      assert LastFirst(pool, k) == [pool[|pool| - 1]] + LastFirst(pool[..|pool| - 1], k - 1);
    }
  }

  function Least(a: nat, b: nat): nat {
    if a < b then a else b
  }

  /** An undisturbed get_n on a pool with packets takes the bottom ones, the last one first. */
  lemma GetAlone(s: State, t: nat, n: nat) returns (cs: seq<Choice>, got: seq<Packet>)
    requires Shaped(s) && t < |s.pcs| && s.pcs[t].Idle? && s.lock[t].None? && s.pools[t] != []
    ensures got == LastFirst(s.pools[t], Least(n, |s.pools[t]|))
    ensures var s1 := Alone(s, t, [TryLock(n)] + cs); s1.pcs[t].Locked? && s1.pcs[t].got == got
    ensures var s', pool := Alone(s, t, [TryLock(n)] + cs + [Unlock]), s.pools[t];
            s'.pools == s.pools[t := pool[..|pool| - |got|]] && s'.pcs == s.pcs && s'.lock == s.lock
  {
    var pool := s.pools[t];
    got := LastFirst(pool, Least(n, |pool|));
    var s1 := Step(s, t, TryLock(n));
    cs := PopsAlone(s1, t, Least(n, |pool|));
    AloneFirst(s, t, TryLock(n), cs);
    Unlocks(s, s1, t, Alone(s1, t, cs), Least(n, |pool|));
    AloneConcat(s, t, [TryLock(n)] + cs, [Unlock]);
    AloneFirst(Alone(s1, t, cs), t, Unlock, []);
    assert [Unlock] + [] == [Unlock] && [] + got == got;
  }

  lemma Unlocks(s: State, s1: State, t: nat, s2: State, k: nat)
    requires Shaped(s) && Shaped(s1) && Shaped(s2) && t < |s.pcs| && s.pcs[t].Idle? && s.lock[t].None?
    requires k <= |s.pools[t]| && s1.lock == s.lock[t := Some(t)] && |s1.pcs| == |s.pcs| && s2.lock == s1.lock
    requires s1.pcs == s.pcs[t := s1.pcs[t]] && |s2.pcs| == |s.pcs| && s2.pcs == s1.pcs[t := s2.pcs[t]]
    requires s2.pools == s.pools[t := s.pools[t][..|s.pools[t]| - k]]
    requires s2.pcs[t].Locked? && (s2.pcs[t].n == 0 || s2.pools[t] == [])
    ensures var s' := Step(s2, t, Unlock); s'.pools == s2.pools && s'.pcs == s.pcs && s'.lock == s.lock
  {
    assert s.lock[t := Some(t)][t := None] == s.lock;
    assert s.pcs[t := s1.pcs[t]][t := s2.pcs[t]][t := Idle] == s.pcs;
  }

  /** An undisturbed steal by a thread whose pool is empty: the upper half, rounded up, of the victim
      becomes its pool. */
  lemma StealAlone(s: State, t: nat, n: nat, v: nat)
    requires Shaped(s) && t < |s.pcs| && s.pcs[t].Idle? && s.lock[t].None? && s.pools[t] == []
    requires v < |s.pcs| && v != t && s.lock[v].None? && s.pools[v] != []
    ensures var s', k := Alone(s, t, [TryLock(n), LockVictim(v), Copy, Install]), (|s.pools[v]| + 1) / 2;
            && s'.pools == s.pools[v := s.pools[v][k..]][t := s.pools[v][..k]] && s'.lock == s.lock[t := Some(t)]
            && s'.pcs == s.pcs[t := Locked(n, [], false)]
  {
    var s1 := Step(s, t, TryLock(n));
    var s2 := Step(s1, t, LockVictim(v));
    var s3 := Step(s2, t, Copy);
    var s4 := Step(s3, t, Install);
    assert 2 * Half(|s.pools[v]|) <= |s.pools[v]| + 1;
    assert s3.lock == s.lock[t := Some(t)];
    assert s4.pcs == s.pcs[t := Locked(n, [], false)];
    AloneFirst(s3, t, Install, []);
    AloneFirst(s2, t, Copy, [Install]);
    AloneFirst(s1, t, LockVictim(v), [Copy, Install]);
    AloneFirst(s, t, TryLock(n), [LockVictim(v), Copy, Install]);
    assert [Install] + [] == [Install] && [Copy] + [Install] == [Copy, Install];
    assert [LockVictim(v)] + [Copy, Install] == [LockVictim(v), Copy, Install];
    assert [TryLock(n)] + [LockVictim(v), Copy, Install] == [TryLock(n), LockVictim(v), Copy, Install];
  }

  /** An undisturbed put adds the packet at the bottom or at the top of the thread's own pool. */
  lemma PutAlone(s: State, t: nat, packet: Packet, toBot: bool)
    requires Shaped(s) && t < |s.pcs| && s.pcs[t].Idle? && s.lock[t].None? && packet in s.held
    ensures Alone(s, t, [LockForPut(packet, toBot), Push])
         == s.(pools := s.pools[t := if toBot then s.pools[t] + [packet] else [packet] + s.pools[t]],
               held := s.held - multiset{packet})
  {
    var s1 := Step(s, t, LockForPut(packet, toBot));
    var s2 := Step(s1, t, Push);
    assert s2.lock == s.lock && s2.pcs == s.pcs;
    AloneFirst(s1, t, Push, []);
    AloneFirst(s, t, LockForPut(packet, toBot), [Push]);
    assert [Push] + [] == [Push] && [LockForPut(packet, toBot)] + [Push] == [LockForPut(packet, toBot), Push];
  }

  /** A packet that was put back at the bottom is the next one to be handed out. */
  lemma PutThenGet(s: State, t: nat, packet: Packet) returns (cs: seq<Choice>)
    requires Shaped(s) && t < |s.pcs| && s.pcs[t].Idle? && s.lock[t].None? && packet in s.held
    ensures var s1 := Alone(s, t, [LockForPut(packet, true), Push]);
            var s2 := Alone(s1, t, [TryLock(1)] + cs);
            && s2.pcs[t].Locked? && s2.pcs[t].got == [packet]
            && Alone(s1, t, [TryLock(1)] + cs + [Unlock]).pools == s.pools
  {
    PutAlone(s, t, packet, true);
    var s1 := Alone(s, t, [LockForPut(packet, true), Push]);
    var got;
    cs, got := GetAlone(s1, t, 1);
    var pool := s.pools[t] + [packet];
    assert got == [packet];
    assert pool[..|pool| - 1] == s.pools[t] && s.pools[t := pool][t := s.pools[t]] == s.pools;
  }
}
