/** Reduce (src/collective/reduce.cpp): the broadcast tree replayed backwards with the message
    direction reversed.  The operator only has to be associative. */
module TreeReduce {
  import opened Options
  import opened BinomialTree
  import opened Rounds
  import RoundsProof
  import TB = TreeBroadcast

  // ------------------------------------------------------- one rank

  datatype Buf = SendBuf | RecvBuf | TmpBuf | DataBuf

  /** The number of children from round k on. */
  ghost function SendsFrom(table: seq<TreeAction>, k: nat): nat
    decreases |table| - k
  {
    if k >= |table| then 0 else (if table[k].SendTo? then 1 else 0) + SendsFrom(table, k + 1)
  }

  lemma {:induction false} SendsSplit(table: seq<TreeAction>, k: nat)
    requires k <= |table|
    ensures Sends(table[..k]) + SendsFrom(table, k) == Sends(table)
    decreases |table| - k
  {
    if k == |table| {
      assert table[..k] == table;
    } else {
      SendsSplit(table, k + 1);
      assert table[..k + 1][..k] == table[..k];
    }
  }

  /** What the rank has accumulated once rounds |table|-1 .. k have been replayed: each child's
      contribution goes to the left of what is there already. */
  ghost function Gather<T>(table: seq<TreeAction>, op: (T, T) -> T, x: T, inbox: nat -> T, k: nat): T
    decreases |table| - k
  {
    if k >= |table| then x
    else if table[k].SendTo? then op(inbox(k), Gather(table, op, x, inbox, k + 1))
    else Gather(table, op, x, inbox, k + 1)
  }

  /** Round k is the last one in which the rank receives in the tree. */
  ghost predicate LastReceive(table: seq<TreeAction>, k: nat)
    requires k < |table|
  {
    table[k].RecvFrom? && forall l :: k < l < |table| ==> !table[l].RecvFrom?
  }

  /** The rank sends what it has gathered in the round in which it received in the tree; a root that has
      children ends with everything gathered in its receive buffer. */
  ghost predicate Replayed<T>(table: seq<TreeAction>, isRoot: bool, op: (T, T) -> T, mine: T, inbox: nat -> T,
                                    recvbuf: T, sent: Option<(nat, T)>)
  {
    && (sent.None? ==> forall k :: 0 <= k < |table| ==> !table[k].RecvFrom?)
    && (sent.Some? ==> exists k :: 0 <= k < |table| && LastReceive(table, k)
                                   && sent.value == (table[k].peer, Gather(table, op, mine, inbox, k + 1)))
    && (isRoot && sent.None? && Sends(table) > 0 ==> recvbuf == Gather(table, op, mine, inbox, 0))
  }

  /** reduce.cpp:71-146.  `inbox(k)` is what arrives from the child of round k.  Buffers may
      coincide: the root may reduce in place, and a rank with one child receives into its data
      buffer. */
  method Replay<T>(table: seq<TreeAction>, nchildren: nat, isRoot: bool, inPlace: bool,
                   op: (T, T) -> T, x: T, garbage: T, inbox: nat -> T)
    returns (recvbuf: T, sent: Option<(nat, T)>)
    requires nchildren == Sends(table)
    ensures Replayed(table, isRoot, op, x, inbox, recvbuf, sent)
  {
    sent := None;
    // sendbuf is the same memory as recvbuf when the root reduces in place
    var sendb := if isRoot && inPlace then RecvBuf else SendBuf;
    var mem: map<Buf, T> := map[SendBuf := garbage, RecvBuf := garbage, TmpBuf := garbage, DataBuf := garbage];
    mem := mem[sendb := x];
    var tmp, data;
    if isRoot {
      data := RecvBuf;
      if nchildren == 1 && sendb != RecvBuf {
        tmp := data;
      } else {
        tmp := TmpBuf;
      }
    } else {
      if nchildren == 1 {
        tmp := TmpBuf;
        data := tmp;
      } else {
        tmp := TmpBuf;
        data := DataBuf;
      }
    }
    var hasReceived := false;
    var i := |table|;
    while i > 0
      invariant 0 <= i <= |table| && sent.None?
      invariant mem.Keys == {SendBuf, RecvBuf, TmpBuf, DataBuf}
      invariant tmp != sendb && (tmp == data ==> nchildren == 1)
      invariant hasReceived <==> SendsFrom(table, i) > 0
      invariant mem[if hasReceived then data else sendb] == Gather(table, op, x, inbox, i)
      invariant forall l :: i <= l < |table| ==> !table[l].RecvFrom?
    {
      i := i - 1;
      match table[i]
      case Nothing =>
      case RecvFrom(target) =>
        var bufferToSend := sendb;
        if hasReceived {
          bufferToSend := data;
        }
        sent := Some((target, mem[bufferToSend]));
        assert LastReceive(table, i);
        break;
      case SendTo(target) =>
        SendsSplit(table, i);
        mem := mem[tmp := inbox(i)];
        var right := data;
        if !hasReceived {
          hasReceived := true;
          right := sendb;
        }
        mem := mem[data := op(mem[tmp], mem[right])];
    }
    if sent.None? { SendsSplit(table, 0); assert table[..0] == []; }
    recvbuf := mem[RecvBuf];
  }

  /** Breaking off the replay after the send loses nothing: before a rank gets the data it does
      nothing in the tree. */
  lemma BreakLosesNothing(n: nat, root: nat, a: nat, k: nat, i: nat)
    requires root < n && a < n && i < k && Action(n, root, a, k).RecvFrom?
    ensures Action(n, root, a, i) == Nothing
  {
    TB.HoldersGrow(n, root, a, k);
    TB.HoldersGrow(n, root, a, i);
    if Action(n, root, a, i).SendTo? { TB.HoldersStay(n, root, a, i, k); }
    if Action(n, root, a, i).RecvFrom? { TB.HoldersStay(n, root, a, i + 1, k); }
  }

  // ------------------------------------------------------- products

  ghost predicate Associative<T(!new)>(op: (T, T) -> T) {
    forall x, y, z :: op(op(x, y), z) == op(x, op(y, z))
  }

  /** f(hi-1) op ... op f(lo): descending distance from the root. */
  ghost function Product<T>(op: (T, T) -> T, f: nat -> T, lo: nat, hi: nat): T
    requires lo < hi
    decreases hi - lo
  {
    if lo + 1 == hi then f(lo) else op(Product(op, f, lo + 1, hi), f(lo))
  }

  lemma {:induction false} ProductSplit<T(!new)>(op: (T, T) -> T, f: nat -> T, lo: nat, mid: nat, hi: nat)
    requires Associative(op) && lo < mid < hi
    ensures op(Product(op, f, mid, hi), Product(op, f, lo, mid)) == Product(op, f, lo, hi)
    decreases mid - lo
  {
    if lo + 1 < mid { ProductSplit(op, f, lo + 1, mid, hi); }
  }

  ghost predicate SplitsAt<T(!new)>(op: (T, T) -> T, f: nat -> T, lo: nat, mid: nat, hi: nat) {
    lo < mid < hi ==> op(Product(op, f, mid, hi), Product(op, f, lo, mid)) == Product(op, f, lo, hi)
  }

  ghost predicate Splits<T(!new)>(op: (T, T) -> T, f: nat -> T) {
    forall lo: nat, mid: nat, hi: nat :: SplitsAt(op, f, lo, mid, hi)
  }

  lemma ProductSplits<T(!new)>(op: (T, T) -> T, f: nat -> T)
    requires Associative(op)
    ensures Splits(op, f)
  {
    forall lo: nat, mid: nat, hi: nat ensures SplitsAt(op, f, lo, mid, hi) {
      if lo < mid < hi {
        ProductSplit(op, f, lo, mid, hi);
      }
    }
  }

  // ------------------------------------------------------- the distributed run

  function Reversed(a: TreeAction): Op {
    match a
    case Nothing => Op(None, None)
    case SendTo(b) => Op(Some(b), None)
    case RecvFrom(b) => Op(None, Some(b))
  }

  function ReplayOp(rounds: nat, act: (nat, nat) -> TreeAction, r: nat, i: nat): Op {
    if i < rounds then Reversed(act(r, rounds - 1 - i)) else Op(None, None)
  }

  /** Replay step i is round rounds-1-i of the tree; a rank's value is what it has accumulated. */
  function Reduce<T>(n: nat, rounds: nat, act: (nat, nat) -> TreeAction, op: (T, T) -> T, x: nat -> T, eager: bool)
    : Sys<T, T>
  {
    Sys(n, _ => rounds, _ => 0,
        (r: nat, i: nat) => ReplayOp(rounds, act, r, i),
        x, (_, _, v) => v, (_, _, v, m) => op(m, v), eager)
  }

  lemma TablePairs<T(!new)>(n: nat, rounds: nat, act: (nat, nat) -> TreeAction, op: (T, T) -> T, x: nat -> T,
                            eager: bool)
    requires TB.Table(n, rounds, act)
    ensures WellPaired(Reduce(n, rounds, act, op, x, eager))
  {
    var sys := Reduce(n, rounds, act, op, x, eager);
    forall r: nat, i: nat | r < sys.n && i < sys.length(r)
      ensures SendPaired(sys, r, i) && RecvPaired(sys, r, i) && Independent(sys, r, i) {
      var k: nat := rounds - 1 - i;
      assert TB.Agrees(n, act, r, k);
      assert sys.op(r, i) == Reversed(act(r, k));
      if act(r, k) != Nothing {
        var b := act(r, k).peer;
        assert sys.op(b, i) == Reversed(act(b, k));
      }
    }
  }

  /** The schedules that the ranks replay fit together. */
  lemma ReducePairs<T(!new)>(n: nat, root: nat, op: (T, T) -> T, x: nat -> T, eager: bool)
    requires 2 <= n && root < n
    ensures WellPaired(Reduce(n, CeilLog2(n), TB.LocalActions(n, root), op, x, eager))
  {
    TB.LocalTable(n, root);
    TablePairs(n, CeilLog2(n), TB.LocalActions(n, root), op, x, eager);
  }

  /** The loop of `Replay`, fed with what its children send, computes the rank's value in the
      distributed run. */
  lemma {:induction false} ReplayIsTheRun<T(!new)>(
    n: nat, rounds: nat, act: (nat, nat) -> TreeAction, op: (T, T) -> T, x: nat -> T, eager: bool,
    table: seq<TreeAction>, r: nat, inbox: nat -> T, k: nat)
    requires TB.Table(n, rounds, act) && WellPaired(Reduce(n, rounds, act, op, x, eager))
    requires r < n && |table| == rounds && k <= rounds
    requires forall l: nat :: l < rounds ==> table[l] == act(r, l)
    requires forall l: nat :: l < rounds ==> Feeds(n, rounds, act, op, x, eager, r, inbox, l)
    ensures Gather(table, op, x(r), inbox, k) == Val(Reduce(n, rounds, act, op, x, eager), r, rounds - k)
    decreases rounds - k
  {
    var sys := Reduce(n, rounds, act, op, x, eager);
    if k < rounds {
      ReplayIsTheRun(n, rounds, act, op, x, eager, table, r, inbox, k + 1);
      var i: nat := rounds - k - 1;
      assert sys.op(r, i) == ReplayOp(rounds, act, r, i) == Reversed(act(r, k));
      assert Feeds(n, rounds, act, op, x, eager, r, inbox, k);
    }
  }

  /** inbox(k) is what the child of round k has accumulated when it sends. */
  ghost predicate Feeds<T(!new)>(n: nat, rounds: nat, act: (nat, nat) -> TreeAction, op: (T, T) -> T, x: nat -> T,
                                 eager: bool, r: nat, inbox: nat -> T, k: nat)
    requires WellPaired(Reduce(n, rounds, act, op, x, eager)) && k < rounds
  {
    act(r, k).SendTo? ==>
      act(r, k).peer < n && inbox(k) == Val(Reduce(n, rounds, act, op, x, eager), act(r, k).peer, rounds - 1 - k)
  }

  /** The segments behind a table: where rank r stands, whether it leads a segment in round k and
      where that segment ends. */
  datatype Shape = Shape(at: nat -> nat, leads: (nat, nat) -> bool, end: (nat, nat) -> nat)

  ghost predicate ShapeStep(act: (nat, nat) -> TreeAction, h: Shape, r: nat, k: nat) {
    match act(r, k)
    case Nothing => h.leads(r, k) ==> h.leads(r, k + 1) && h.end(r, k + 1) == h.end(r, k)
    case RecvFrom(_) => !h.leads(r, k)
    case SendTo(b) =>
      && h.leads(r, k + 1) && h.leads(b, k + 1)
      && h.at(r) < h.at(b) < h.end(r, k)
      && h.end(r, k + 1) == h.at(b) && h.end(b, k + 1) == h.end(r, k)
  }

  ghost predicate Shaped(n: nat, rounds: nat, act: (nat, nat) -> TreeAction, h: Shape) {
    && (forall r: nat, k: nat :: r < n && k < rounds ==> ShapeStep(act, h, r, k))
    && (forall r: nat :: r < n ==> h.end(r, rounds) == h.at(r) + 1)
  }

  /** A replay step: a parent puts what its child has to the left of what it has itself. */
  lemma ReduceStep<T(!new)>(n: nat, rounds: nat, act: (nat, nat) -> TreeAction, op: (T, T) -> T, x: nat -> T,
                            eager: bool, r: nat, i: nat)
    requires TB.Table(n, rounds, act) && WellPaired(Reduce(n, rounds, act, op, x, eager)) && r < n && i < rounds
    ensures var sys, a := Reduce(n, rounds, act, op, x, eager), act(r, rounds - 1 - i);
            if a.SendTo? then a.peer < n && Val(sys, r, i + 1) == op(Val(sys, a.peer, i), Val(sys, r, i))
            else Val(sys, r, i + 1) == Val(sys, r, i)
  {
    var sys, k := Reduce(n, rounds, act, op, x, eager), rounds - 1 - i;
    assert sys.op(r, i) == ReplayOp(rounds, act, r, i) == Reversed(act(r, k));
    assert TB.Agrees(n, act, r, k);
    RoundsProof.ValStep(sys, r, i);
  }

  /** Values that change as the replay says. */
  ghost predicate Accumulates<T(!new)>(act: (nat, nat) -> TreeAction, op: (T, T) -> T, val: (nat, nat) -> T,
                                       rounds: nat, r: nat, i: nat)
    requires i < rounds
  {
    var a := act(r, rounds - 1 - i);
    val(r, i + 1) == if a.SendTo? then op(val(a.peer, i), val(r, i)) else val(r, i)
  }

  lemma {:induction false} SegmentGathered<T(!new)>(
    n: nat, rounds: nat, act: (nat, nat) -> TreeAction, op: (T, T) -> T, val: (nat, nat) -> T,
    h: Shape, f: nat -> T, r: nat, i: nat)
    requires TB.Table(n, rounds, act) && Shaped(n, rounds, act, h) && Splits(op, f)
    requires forall u: nat, j: nat :: u < n && j < rounds ==> Accumulates(act, op, val, rounds, u, j)
    requires forall u: nat :: u < n ==> f(h.at(u)) == val(u, 0)
    requires r < n && i <= rounds && h.leads(r, rounds - i)
    ensures h.at(r) < h.end(r, rounds - i) && val(r, i) == Product(op, f, h.at(r), h.end(r, rounds - i))
    decreases i
  {
    if i > 0 {
      var k: nat := rounds - i;
      assert Accumulates(act, op, val, rounds, r, i - 1);
      assert ShapeStep(act, h, r, k) && TB.Agrees(n, act, r, k);
      SegmentGathered(n, rounds, act, op, val, h, f, r, i - 1);
      if act(r, k).SendTo? {
        var b := act(r, k).peer;
        SegmentGathered(n, rounds, act, op, val, h, f, b, i - 1);
        assert SplitsAt(op, f, h.at(r), h.at(b), h.end(r, k));
      }
    }
  }

  ghost function RunValue<T(!new)>(n: nat, rounds: nat, act: (nat, nat) -> TreeAction, op: (T, T) -> T, x: nat -> T,
                                   eager: bool)
    : (nat, nat) -> T
    requires WellPaired(Reduce(n, rounds, act, op, x, eager))
  {
    var sys := Reduce(n, rounds, act, op, x, eager);
    (r: nat, i: nat) => if r < n && i <= rounds then Val(sys, r, i) else x(r)
  }

  lemma RunAccumulates<T(!new)>(n: nat, rounds: nat, act: (nat, nat) -> TreeAction, op: (T, T) -> T, x: nat -> T,
                                eager: bool, r: nat, i: nat)
    requires TB.Table(n, rounds, act) && WellPaired(Reduce(n, rounds, act, op, x, eager)) && r < n && i < rounds
    ensures Accumulates(act, op, RunValue(n, rounds, act, op, x, eager), rounds, r, i)
  {
    ReduceStep(n, rounds, act, op, x, eager, r, i);
  }

  /** A rank that leads a segment has accumulated the product over that segment. */
  lemma ReduceValue<T(!new)>(
    n: nat, rounds: nat, act: (nat, nat) -> TreeAction, op: (T, T) -> T, x: nat -> T, eager: bool,
    h: Shape, f: nat -> T, r: nat, i: nat)
    requires TB.Table(n, rounds, act) && Shaped(n, rounds, act, h) && Splits(op, f)
    requires WellPaired(Reduce(n, rounds, act, op, x, eager))
    requires forall u: nat :: u < n ==> f(h.at(u)) == x(u)
    requires r < n && i <= rounds && h.leads(r, rounds - i)
    ensures h.at(r) < h.end(r, rounds - i)
    ensures Val(Reduce(n, rounds, act, op, x, eager), r, i) == Product(op, f, h.at(r), h.end(r, rounds - i))
  {
    var val := RunValue(n, rounds, act, op, x, eager);
    forall u: nat, j: nat | u < n && j < rounds ensures Accumulates(act, op, val, rounds, u, j) {
      RunAccumulates(n, rounds, act, op, x, eager, u, j);
    }
    SegmentGathered(n, rounds, act, op, val, h, f, r, i);
  }

  function TreeShape(n: nat, root: nat): Shape
    requires root < n
  {
    Shape((r: nat) => if r < n then Dist(n, root, r) else 0,
          (r: nat, k: nat) => r < n && Seg(n, Dist(n, root, r), k).first == Dist(n, root, r),
          (r: nat, k: nat) => if r < n then Seg(n, Dist(n, root, r), k).end else 0)
  }

  lemma TreeShapeStep(n: nat, root: nat, r: nat, k: nat)
    requires root < n && r < n
    ensures ShapeStep(TB.LocalActions(n, root), TreeShape(n, root), r, k)
  {
    var act, h := TB.LocalActions(n, root), TreeShape(n, root);
    var a := Action(n, root, r, k);
    assert act(r, k) == a;
    TB.PeersAreRanks(n, root, r, k);
    if a.SendTo? {
      ChildSegment(n, root, r, k);
    } else {
      QuietSegment(n, root, r, k);
    }
  }

  /** A send splits the segment between sender and receiver. */
  lemma ChildSegment(n: nat, root: nat, r: nat, k: nat)
    requires root < n && r < n && Action(n, root, r, k).SendTo? && Action(n, root, r, k).peer < n
    ensures var d, e := Dist(n, root, r), Dist(n, root, Action(n, root, r, k).peer);
            && d < e < Seg(n, d, k).end
            && Seg(n, d, k + 1) == Segment(d, e) && Seg(n, e, k + 1) == Segment(e, Seg(n, d, k).end)
  {
    var d, e := Dist(n, root, r), Dist(n, root, Action(n, root, r, k).peer);
    SegmentAgreed(n, d, e, k);
  }

  lemma QuietSegment(n: nat, root: nat, r: nat, k: nat)
    requires root < n && r < n && !Action(n, root, r, k).SendTo?
    ensures var d := Dist(n, root, r);
            Seg(n, d, k).first == d ==> Action(n, root, r, k).Nothing? && Seg(n, d, k + 1) == Seg(n, d, k)
  {
  }

  lemma TreeShaped(n: nat, root: nat)
    requires 2 <= n && root < n
    ensures Shaped(n, CeilLog2(n), TB.LocalActions(n, root), TreeShape(n, root))
  {
    var act, h := TB.LocalActions(n, root), TreeShape(n, root);
    forall r: nat, k: nat | r < n && k < CeilLog2(n) ensures ShapeStep(act, h, r, k) { TreeShapeStep(n, root, r, k); }
    forall r: nat | r < n ensures h.end(r, CeilLog2(n)) == h.at(r) + 1 { LastRoundSingle(n, Dist(n, root, r)); }
  }

  /** The contribution at each distance from the root. */
  function ByDistance<T>(n: nat, root: nat, x: nat -> T): nat -> T
    requires root < n
  {
    (d: nat) => if d < n then x(RankAt(n, root, d)) else x(0)
  }

  /** In every run, once the root has finished, it holds the product of all contributions in
      descending distance from the root, each used exactly once; and the run cannot get stuck. */
  lemma ReduceDelivers<T(!new)>(n: nat, root: nat, op: (T, T) -> T, x: nat -> T, eager: bool,
                                s0: State<T, T>, trace: seq<(nat, Move)>)
    returns (u: nat, move: Move)
    requires 2 <= n && root < n && Associative(op)
    requires Init(Reduce(n, CeilLog2(n), TB.LocalActions(n, root), op, x, eager), s0)
    ensures var sys := Reduce(n, CeilLog2(n), TB.LocalActions(n, root), op, x, eager);
            var s := Exec(sys, s0, trace);
            && root < |s.ranks|
            && (s.ranks[root].pc == CeilLog2(n) ==>
                  s.ranks[root].v == Product(op, ByDistance(n, root, x), 0, n))
            && (RoundsProof.Finished(sys, s) || Enabled(sys, s, u, move))
  {
    var rounds, act := CeilLog2(n), TB.LocalActions(n, root);
    var sys := Reduce(n, rounds, act, op, x, eager);
    TB.LocalTable(n, root);
    ReducePairs(n, root, op, x, eager);
    RoundsProof.Determined(sys, s0, trace, root);
    RootValue(n, root, op, x, eager);
    u, move := 0, Enter;
    if !RoundsProof.Finished(sys, Exec(sys, s0, trace)) { u, move := RoundsProof.NeverStuck(sys, s0, trace); }
  }

  /** The tree's segments fit the tree's actions, and x(u) is the contribution at u's distance. */
  lemma TreeFits<T(!new)>(n: nat, root: nat, x: nat -> T)
    requires 2 <= n && root < n
    ensures TB.Table(n, CeilLog2(n), TB.LocalActions(n, root))
    ensures Fits(n, CeilLog2(n), TB.LocalActions(n, root), TreeShape(n, root), ByDistance(n, root, x), x)
  {
    var h, f := TreeShape(n, root), ByDistance(n, root, x);
    TB.LocalTable(n, root);
    TreeShaped(n, root);
    forall u: nat | u < n ensures f(h.at(u)) == x(u) { RankAtDist(n, root, u); }
  }

  ghost predicate Fits<T(!new)>(n: nat, rounds: nat, act: (nat, nat) -> TreeAction, h: Shape, f: nat -> T,
                                x: nat -> T) {
    Shaped(n, rounds, act, h) && forall u: nat :: u < n ==> f(h.at(u)) == x(u)
  }

  lemma TreeShapeAt(n: nat, root: nat, r: nat, k: nat)
    requires root < n && r < n
    ensures var h, d := TreeShape(n, root), Dist(n, root, r);
            h.at(r) == d && h.end(r, k) == Seg(n, d, k).end && (h.leads(r, k) <==> Seg(n, d, k).first == d)
  {
  }

  lemma RootValue<T(!new)>(n: nat, root: nat, op: (T, T) -> T, x: nat -> T, eager: bool)
    requires 2 <= n && root < n && Associative(op)
    requires WellPaired(Reduce(n, CeilLog2(n), TB.LocalActions(n, root), op, x, eager))
    ensures Val(Reduce(n, CeilLog2(n), TB.LocalActions(n, root), op, x, eager), root, CeilLog2(n)) ==
            Product(op, ByDistance(n, root, x), 0, n)
  {
    var rounds, act, h, f := CeilLog2(n), TB.LocalActions(n, root), TreeShape(n, root), ByDistance(n, root, x);
    TreeFits(n, root, x);
    assert h.leads(root, 0) && h.at(root) == 0 && h.end(root, 0) == n;
    ProductSplits(op, f);
    ReduceValue(n, rounds, act, op, x, eager, h, f, root, rounds);
  }

  // ------------------------------------------------------- one rank in the run

  /** inbox holds what the children of rank r send in the run. */
  ghost predicate Fed<T(!new)>(n: nat, rounds: nat, act: (nat, nat) -> TreeAction, op: (T, T) -> T, x: nat -> T,
                               eager: bool, r: nat, inbox: nat -> T)
  {
    && WellPaired(Reduce(n, rounds, act, op, x, eager))
    && (forall k: nat :: k < rounds ==> Feeds(n, rounds, act, op, x, eager, r, inbox, k))
  }

  /** A rank that leads the segment from lo to hi when round k starts has gathered its product. */
  lemma GatherValue<T(!new)>(n: nat, rounds: nat, act: (nat, nat) -> TreeAction, op: (T, T) -> T, x: nat -> T,
                             eager: bool, h: Shape, f: nat -> T, table: seq<TreeAction>, r: nat, inbox: nat -> T,
                             k: nat, lo: nat, hi: nat)
    requires TB.Table(n, rounds, act) && Fits(n, rounds, act, h, f, x) && Splits(op, f)
    requires r < n && k <= rounds && Fed(n, rounds, act, op, x, eager, r, inbox)
    requires |table| == rounds && forall l: nat :: l < rounds ==> table[l] == act(r, l)
    requires h.leads(r, k) && lo == h.at(r) && hi == h.end(r, k)
    ensures lo < hi && Gather(table, op, x(r), inbox, k) == Product(op, f, lo, hi)
  {
    ReplayIsTheRun(n, rounds, act, op, x, eager, table, r, inbox, k);
    ReduceValue(n, rounds, act, op, x, eager, h, f, r, rounds - k);
  }

  /** The same for the tree of this root. */
  lemma TreeGathers<T(!new)>(n: nat, root: nat, op: (T, T) -> T, x: nat -> T, eager: bool, table: seq<TreeAction>,
                             r: nat, inbox: nat -> T, k: nat, lo: nat, hi: nat)
    requires 2 <= n && root < n && r < n && k <= CeilLog2(n) && Associative(op)
    requires Fed(n, CeilLog2(n), TB.LocalActions(n, root), op, x, eager, r, inbox)
    requires |table| == CeilLog2(n) && forall l: nat :: l < CeilLog2(n) ==> table[l] == TB.LocalActions(n, root)(r, l)
    requires lo == Dist(n, root, r) && Seg(n, Dist(n, root, r), k) == Segment(lo, hi)
    ensures lo < hi && Gather(table, op, x(r), inbox, k) == Product(op, ByDistance(n, root, x), lo, hi)
  {
    TreeFits(n, root, x);
    TreeShapeAt(n, root, r, k);
    ProductSplits(op, ByDistance(n, root, x));
    GatherValue(n, CeilLog2(n), TB.LocalActions(n, root), op, x, eager, TreeShape(n, root), ByDistance(n, root, x),
                table, r, inbox, k, lo, hi);
  }

  lemma LeadsAfterReceiving(n: nat, root: nat, r: nat, k: nat)
    requires root < n && r < n && Action(n, root, r, k).RecvFrom?
    ensures Seg(n, Dist(n, root, r), k + 1).first == Dist(n, root, r)
  {
  }

  /** The root has a child and no parent. */
  lemma RootActions(n: nat, root: nat, table: seq<TreeAction>)
    requires 2 <= n && root < n
    requires |table| == CeilLog2(n) && forall l :: 0 <= l < |table| ==> table[l] == Action(n, root, root, l)
    ensures Sends(table) > 0 && forall l :: 0 <= l < |table| ==> !table[l].RecvFrom?
  {
    SendsSplit(table, 0);
    assert table[0] == Action(n, root, root, 0);
    assert table[..0] == [];
  }

  /** What goes up from rank r: the product over the segment that it leads once it got the data. */
  ghost predicate SentUp<T(!new)>(n: nat, root: nat, op: (T, T) -> T, x: nat -> T, r: nat, k: nat, message: (nat, T))
    requires root < n && r < n
  {
    var d := Dist(n, root, r);
    && Action(n, root, r, k) == RecvFrom(message.0)
    && message.1 == Product(op, ByDistance(n, root, x), d, Seg(n, d, k + 1).end)
  }

  lemma RootGathers<T(!new)>(n: nat, root: nat, op: (T, T) -> T, x: nat -> T, eager: bool, table: seq<TreeAction>,
                             inbox: nat -> T)
    requires 2 <= n && root < n && Associative(op)
    requires Fed(n, CeilLog2(n), TB.LocalActions(n, root), op, x, eager, root, inbox)
    requires |table| == CeilLog2(n) && forall l :: 0 <= l < |table| ==> table[l] == Action(n, root, root, l)
    ensures Sends(table) > 0 && forall l :: 0 <= l < |table| ==> !table[l].RecvFrom?
    ensures Gather(table, op, x(root), inbox, 0) == Product(op, ByDistance(n, root, x), 0, n)
  {
    RootActions(n, root, table);
    TreeGathers(n, root, op, x, eager, table, root, inbox, 0, 0, n);
  }

  lemma ChildSends<T(!new)>(n: nat, root: nat, op: (T, T) -> T, x: nat -> T, eager: bool, table: seq<TreeAction>,
                            r: nat, inbox: nat -> T, k: nat)
    requires 2 <= n && root < n && r < n && k < CeilLog2(n) && Associative(op)
    requires Fed(n, CeilLog2(n), TB.LocalActions(n, root), op, x, eager, r, inbox)
    requires |table| == CeilLog2(n) && forall l :: 0 <= l < |table| ==> table[l] == Action(n, root, r, l)
    requires table[k].RecvFrom?
    ensures SentUp(n, root, op, x, r, k, (table[k].peer, Gather(table, op, x(r), inbox, k + 1)))
  {
    LeadsAfterReceiving(n, root, r, k);
    var seg := Seg(n, Dist(n, root, r), k + 1);
    TreeGathers(n, root, op, x, eager, table, r, inbox, k + 1, seg.first, seg.end);
  }

  lemma ChildReceives(n: nat, root: nat, r: nat, table: seq<TreeAction>)
    requires 2 <= n && root < n && r < n && r != root
    requires |table| == CeilLog2(n) && forall l :: 0 <= l < |table| ==> table[l] == Action(n, root, r, l)
    ensures exists l :: 0 <= l < |table| && table[l].RecvFrom?
  {
    var k := TB.ReceivesOnce(n, root, r);
    assert table[k].RecvFrom?;
  }

  /** What reduce promises of one rank: the root's receive buffer, or what the rank sends up. */
  ghost predicate Reduced<T(!new)>(n: nat, root: nat, op: (T, T) -> T, x: nat -> T, r: nat, recvbuf: T,
                                   sent: Option<(nat, T)>)
    requires root < n && r < n
  {
    if r == root then sent.None? && recvbuf == Product(op, ByDistance(n, root, x), 0, n)
    else sent.Some? && exists k: nat :: k < CeilLog2(n) && SentUp(n, root, op, x, r, k, sent.value)
  }

  lemma ReplayDelivers<T(!new)>(n: nat, root: nat, op: (T, T) -> T, x: nat -> T, eager: bool, table: seq<TreeAction>,
                                r: nat, inbox: nat -> T, recvbuf: T, sent: Option<(nat, T)>)
    requires 2 <= n && root < n && r < n && Associative(op)
    requires Fed(n, CeilLog2(n), TB.LocalActions(n, root), op, x, eager, r, inbox)
    requires |table| == CeilLog2(n) && forall l :: 0 <= l < |table| ==> table[l] == Action(n, root, r, l)
    requires Replayed(table, r == root, op, x(r), inbox, recvbuf, sent)
    ensures Reduced(n, root, op, x, r, recvbuf, sent)
  {
    if r == root {
      RootGathers(n, root, op, x, eager, table, inbox);
    } else {
      ChildReceives(n, root, r, table);
      var k: nat :| k < |table| && LastReceive(table, k)
                    && sent.value == (table[k].peer, Gather(table, op, x(r), inbox, k + 1));
      ChildSends(n, root, op, x, eager, table, r, inbox, k);
    }
  }

  /** reduce as one rank runs it: the root's receive buffer ends with the product of all contributions,
      and any other rank sends its parent the product over the segment it leads. */
  method ReduceAt<T(!new)>(rank: nat, n: nat, root: nat, inPlace: bool, op: (T, T) -> T, ghost x: nat -> T, mine: T,
                           garbage: T, inbox: nat -> T, ghost eager: bool)
    returns (recvbuf: T, sent: Option<(nat, T)>)
    requires 2 <= n && rank < n && root < n && Associative(op) && mine == x(rank)
    requires Fed(n, CeilLog2(n), TB.LocalActions(n, root), op, x, eager, rank, inbox)
    ensures Reduced(n, root, op, x, rank, recvbuf, sent)
  {
    var table, nchildren := ComputeActions(rank, n, root);
    recvbuf, sent := Replay(table, nchildren, rank == root, inPlace, op, mine, garbage, inbox);
    ReplayDelivers(n, root, op, x, eager, table, rank, inbox, recvbuf, sent);
  }
}
