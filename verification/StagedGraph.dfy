/** Completion graphs made of stages: the operations of a stage start together and meet in one node,
    where the next stage begins.  The barrier and the broadcasts build such graphs. */
module StagedGraph {
  import opened CompletionGraph
  import opened CompletionGraphProof

  datatype Stage = Stage(source: nat, ops: seq<nat>, target: nat)

  /** Stage k as edges of the graph; level is a numbering in which every edge goes up. */
  ghost predicate StageIn(out: seq<seq<nat>>, level: seq<nat>, st: Stage, k: nat)
    requires |level| == |out|
  {
    && st.source < |out| && st.source != END && START < st.target < |out|
    && level[st.source] == 2 * k && level[st.target] == 2 * k + 2
    && out[st.source] == (if st.ops == [] then [st.target] else st.ops)
    && (forall i :: 0 <= i < |st.ops| ==> OpIn(out, level, st, k, st.ops[i]))
  }

  ghost predicate OpIn(out: seq<seq<nat>>, level: seq<nat>, st: Stage, k: nat, op: nat)
    requires |level| == |out|
  {
    END < op < |out| && level[op] == 2 * k + 1 && out[op] == [st.target]
  }

  /** The stages lead from START to cur. */
  predicate Chained(stages: seq<Stage>, cur: nat) {
    && (stages != [] ==> stages[0].source == START)
    && (forall k :: 0 < k < |stages| ==> stages[k].source == stages[k - 1].target)
    && cur == if stages == [] then START else stages[|stages| - 1].target
  }

  /** Node v belongs to the stage that its level names. */
  predicate NodeIn(stages: seq<Stage>, level: seq<nat>, v: nat)
    requires v < |level|
  {
    var k := level[v] / 2;
    k < |stages| && if level[v] % 2 == 0 then v == stages[k].source else v in stages[k].ops
  }

  ghost predicate Levels(out: seq<seq<nat>>, level: seq<nat>, stages: seq<Stage>, cur: nat) {
    && WellFormed(out) && |level| == |out| && cur < |out| && level[cur] == 2 * |stages| && Chained(stages, cur)
    && (forall k :: 0 <= k < |stages| ==> StageIn(out, level, stages[k], k))
    && (cur != END ==> out[cur] == [])
    && (forall v :: 0 <= v < |out| && v != END && v != cur ==> NodeIn(stages, level, v))
  }

  /** The graph consists of these stages, and cur is where the next one goes. */
  ghost predicate Growing(out: seq<seq<nat>>, stages: seq<Stage>, cur: nat) {
    exists level :: Levels(out, level, stages, cur)
  }

  ghost predicate Staged(out: seq<seq<nat>>, stages: seq<Stage>) {
    Growing(out, stages, END)
  }

  lemma EmptyGrows()
    ensures Growing([[], []], [], START)
  {
    assert Levels([[], []], [0, 0], [], START);
  }

  lemma GrowsAt(out: seq<seq<nat>>, stages: seq<Stage>, cur: nat)
    requires Growing(out, stages, cur)
    ensures WellFormed(out) && cur < |out| && (cur != END ==> out[cur] == [])
  {
  }

  lemma StagesJoin(out: seq<seq<nat>>, stages: seq<Stage>, k: nat)
    requires Staged(out, stages) && k + 1 < |stages|
    ensures stages[k + 1].source == stages[k].target
  {
    var level :| Levels(out, level, stages, END);
  }

  // ------------------------------------------------------- adding a stage

  /** out' is out with a stage put behind cur: its operations and, unless it is END, its target are the new nodes. */
  predicate Extends(out: seq<seq<nat>>, cur: nat, ops: seq<nat>, target: nat, out': seq<seq<nat>>) {
    && |out| <= |out'| && cur < |out| && target < |out'|
    && (target == END || (|out| <= target && out'[target] == []))
    && out'[cur] == (if ops == [] then [target] else ops)
    && (forall v :: 0 <= v < |out| && v != cur ==> out'[v] == out[v])
    && (forall i :: 0 <= i < |ops| ==> |out| <= ops[i] < |out'| && ops[i] != target && out'[ops[i]] == [target])
    && (forall v :: |out| <= v < |out'| && v != target ==> v in ops)
  }

  /** The edges after a stage is added whose nodes are numbered in the order target, operations. */
  function WithStage(out: seq<seq<nat>>, cur: nat, ops: seq<nat>, target: nat): seq<seq<nat>>
    requires cur < |out|
  {
    Fan(out, cur, if ops == [] then [target] else ops, |ops|, target)
  }

  function Fan(out: seq<seq<nat>>, cur: nat, targets: seq<nat>, count: nat, target: nat): seq<seq<nat>>
    requires cur < |out|
  {
    out[cur := targets] + (if target == END then [] else [[]]) + seq(count, _ => [target])
  }

  /** One more operation: its node, then its edges. */
  lemma FanGrows(out: seq<seq<nat>>, cur: nat, ops: seq<nat>, target: nat, a: nat)
    requires cur < |out| && cur != END && Numbered(out, ops, target) && a == |Fan(out, cur, ops, |ops|, target)|
    ensures Numbered(out, ops + [a], target)
    ensures AddTo(AddTo(Fan(out, cur, ops, |ops|, target) + [[]], cur, a), a, target)
         == Fan(out, cur, ops + [a], |ops| + 1, target)
  {
    var fan := Fan(out, cur, ops, |ops|, target) + [[]];
    assert AddTo(fan, cur, a) == fan[cur := ops + [a]] && [] + [target] == [target];
    assert AddTo(AddTo(fan, cur, a), a, target) == fan[cur := ops + [a]][a := [target]];
    FanEnd(out, cur, ops, target, a);
  }

  lemma FanEnd(out: seq<seq<nat>>, cur: nat, ops: seq<nat>, target: nat, a: nat)
    requires cur < |out| && a == |Fan(out, cur, ops, |ops|, target)|
    ensures (Fan(out, cur, ops, |ops|, target) + [[]])[cur := ops + [a]][a := [target]]
         == Fan(out, cur, ops + [a], |ops| + 1, target)
  {
    assert seq(|ops| + 1, _ => [target]) == seq(|ops|, _ => [target]) + [[target]];
  }

  /** The numbers the new nodes get. */
  predicate Numbered(out: seq<seq<nat>>, ops: seq<nat>, target: nat) {
    && (target == END || target == |out|)
    && (forall i :: 0 <= i < |ops| ==> ops[i] == |out| + i + if target == END then 0 else 1)
  }

  /** Two operations: their nodes first, then their edges. */
  lemma PairEdges(out: seq<seq<nat>>, nodes: seq<seq<nat>>, cur: nat, a: nat, b: nat, target: nat)
    requires WellFormed(out) && cur < |out| && cur != END && out[cur] == [] && (target == END || target == |out|)
    requires nodes == out + (if target == END then [] else [[]]) + [[]] + [[]] && a == |nodes| - 2 && b == |nodes| - 1
    ensures Numbered(out, [a, b], target)
    ensures AddTo(AddTo(AddTo(AddTo(nodes, cur, a), cur, b), a, target), b, target)
            == WithStage(out, cur, [a, b], target)
  {
    var out' := AddTo(AddTo(AddTo(AddTo(nodes, cur, a), cur, b), a, target), b, target);
    assert nodes[a] == nodes[b] == nodes[cur] == [];
    PairAt(nodes, cur, a, b, target);
    forall v | 0 <= v < |nodes| ensures out'[v] == WithStage(out, cur, [a, b], target)[v] {
      FanAt(out, cur, [a, b], 2, target, v);
    }
    assert |WithStage(out, cur, [a, b], target)| == |nodes|;
  }

  lemma PairAt(nodes: seq<seq<nat>>, cur: nat, a: nat, b: nat, target: nat)
    requires cur < a < b < |nodes| && nodes[a] == nodes[b] == nodes[cur] == []
    ensures AddTo(AddTo(AddTo(AddTo(nodes, cur, a), cur, b), a, target), b, target)
         == nodes[cur := [a, b]][a := [target]][b := [target]]
  {
    assert [] + [a] + [b] == [a, b] && [] + [target] == [target];
    assert AddTo(AddTo(nodes, cur, a), cur, b) == nodes[cur := [a, b]];
  }

  lemma FanAt(out: seq<seq<nat>>, cur: nat, targets: seq<nat>, count: nat, target: nat, v: nat)
    requires cur < |out| && v < |Fan(out, cur, targets, count, target)|
    ensures Fan(out, cur, targets, count, target)[v]
         == if v == cur then targets else if v < |out| then out[v]
            else if target != END && v == |out| then [] else [target]
  {
  }

  lemma StageExtends(out: seq<seq<nat>>, cur: nat, ops: seq<nat>, target: nat)
    requires WellFormed(out) && cur < |out| && cur != END && Numbered(out, ops, target)
    ensures Extends(out, cur, ops, target, WithStage(out, cur, ops, target))
  {
    var out' := WithStage(out, cur, ops, target);
    var base := |out| + if target == END then 0 else 1;
    forall v | |out| <= v < |out'| && v != target ensures v in ops {
      assert ops[v - base] == v;
    }
  }

  ghost function NextLevel(level: seq<nat>, k: nat, target: nat, n: nat): (level': seq<nat>)
    requires |level| <= n
    ensures |level'| == n
    ensures forall v :: 0 <= v < n ==>
            level'[v] == if v == target then 2 * k + 2 else if v < |level| then level[v] else 2 * k + 1
  {
    seq(n, v => if v == target then 2 * k + 2 else if 0 <= v < |level| then level[v] else 2 * k + 1)
  }

  lemma StageStays(out: seq<seq<nat>>, level: seq<nat>, st: Stage, k: nat, cur: nat,
                   ops: seq<nat>, target: nat, out': seq<seq<nat>>, n: nat)
    requires |level| == |out| && StageIn(out, level, st, k) && st.target != END
    requires Extends(out, cur, ops, target, out') && out[cur] == []
    ensures StageIn(out', NextLevel(level, n, target, |out'|), st, k)
  {
    forall i | 0 <= i < |st.ops| ensures OpIn(out', NextLevel(level, n, target, |out'|), st, k, st.ops[i]) {
      assert OpIn(out, level, st, k, st.ops[i]);
    }
  }

  lemma TargetInside(out: seq<seq<nat>>, level: seq<nat>, stages: seq<Stage>, cur: nat, k: nat)
    requires Levels(out, level, stages, cur) && k < |stages|
    ensures cur != END || k + 1 < |stages| ==> stages[k].target > END
  {
    assert StageIn(out, level, stages[k], k);
    assert k + 1 < |stages| ==> StageIn(out, level, stages[k + 1], k + 1);
  }

  lemma EarlierStageStays(out: seq<seq<nat>>, level: seq<nat>, stages: seq<Stage>, cur: nat,
                          ops: seq<nat>, target: nat, out': seq<seq<nat>>, k: nat)
    requires Levels(out, level, stages, cur) && cur != END && Extends(out, cur, ops, target, out') && k < |stages|
    ensures StageIn(out', NextLevel(level, |stages|, target, |out'|), stages[k], k)
  {
    TargetInside(out, level, stages, cur, k);
    StageStays(out, level, stages[k], k, cur, ops, target, out', |stages|);
  }

  lemma NodeStays(out: seq<seq<nat>>, level: seq<nat>, stages: seq<Stage>, cur: nat,
                  ops: seq<nat>, target: nat, out': seq<seq<nat>>, v: nat)
    requires Levels(out, level, stages, cur) && cur != END && Extends(out, cur, ops, target, out')
    requires v < |out'| && v != END && v != target
    ensures NodeIn(stages + [Stage(cur, ops, target)], NextLevel(level, |stages|, target, |out'|), v)
  {
    assert v < |out| && v != cur ==> NodeIn(stages, level, v);
  }

  lemma NewStage(out: seq<seq<nat>>, level: seq<nat>, stages: seq<Stage>, cur: nat,
                 ops: seq<nat>, target: nat, out': seq<seq<nat>>)
    requires Levels(out, level, stages, cur) && cur != END && Extends(out, cur, ops, target, out')
    ensures StageIn(out', NextLevel(level, |stages|, target, |out'|), Stage(cur, ops, target), |stages|)
  {
    forall i | 0 <= i < |ops|
      ensures OpIn(out', NextLevel(level, |stages|, target, |out'|), Stage(cur, ops, target), |stages|, ops[i]) {
    }
  }

  lemma ChainGrows(stages: seq<Stage>, cur: nat, ops: seq<nat>, target: nat)
    requires Chained(stages, cur)
    ensures Chained(stages + [Stage(cur, ops, target)], target)
  {
  }

  lemma StageAdded(out: seq<seq<nat>>, stages: seq<Stage>, cur: nat, ops: seq<nat>, target: nat, out': seq<seq<nat>>)
    requires Growing(out, stages, cur) && cur < |out| && cur != END && Numbered(out, ops, target)
    requires out' == WithStage(out, cur, ops, target) && WellFormed(out')
    ensures Growing(out', stages + [Stage(cur, ops, target)], target)
  {
    StageExtends(out, cur, ops, target);
    var level :| Levels(out, level, stages, cur);
    var level', stages' := NextLevel(level, |stages|, target, |out'|), stages + [Stage(cur, ops, target)];
    ChainGrows(stages, cur, ops, target);
    forall k | 0 <= k < |stages'| ensures StageIn(out', level', stages'[k], k) {
      if k < |stages| {
        EarlierStageStays(out, level, stages, cur, ops, target, out', k);
      } else {
        NewStage(out, level, stages, cur, ops, target, out');
      }
    }
    forall v | 0 <= v < |out'| && v != END && v != target ensures NodeIn(stages', level', v) {
      NodeStays(out, level, stages, cur, ops, target, out', v);
    }
    assert Levels(out', level', stages', target);
  }

  /** A stage without operations: an edge to END, or to a new node. */
  method LinkToEnd(graph: Builder, oldNode: nat, ghost stages: seq<Stage>)
    requires graph.Valid() && Growing(graph.out, stages, oldNode) && oldNode != END
    modifies graph
    ensures graph.Valid() && |graph.out| == old(|graph.out|)
    ensures Growing(graph.out, stages + [Stage(oldNode, [], END)], END)
  {
    GrowsAt(graph.out, stages, oldNode);
    ghost var before := graph.out;
    graph.AddEdge(oldNode, END);
    assert [] + [END] == [END];
    assert graph.out == WithStage(before, oldNode, [], END);
    StageAdded(before, stages, oldNode, [], END, graph.out);
  }

  method LinkToNew(graph: Builder, oldNode: nat, ghost stages: seq<Stage>) returns (node: nat)
    requires graph.Valid() && Growing(graph.out, stages, oldNode) && oldNode != END
    modifies graph
    ensures graph.Valid() && node != END && Growing(graph.out, stages + [Stage(oldNode, [], node)], node)
  {
    GrowsAt(graph.out, stages, oldNode);
    ghost var before := graph.out;
    node := graph.AddNode();
    graph.AddEdge(oldNode, node);
    assert [] + [node] == [node];
    assert graph.out == WithStage(before, oldNode, [], node);
    StageAdded(before, stages, oldNode, [], node, graph.out);
  }

  // ------------------------------------------------------- what the executor asks of a graph

  /** The stage of a node, as its source or as one of its operations. */
  lemma Locate(out: seq<seq<nat>>, level: seq<nat>, stages: seq<Stage>, v: nat) returns (k: nat)
    requires Levels(out, level, stages, END) && v < |out| && v != END
    ensures k < |stages| && StageIn(out, level, stages[k], k)
    ensures if v == stages[k].source then level[v] == 2 * k
            else level[v] == 2 * k + 1 && OpIn(out, level, stages[k], k, v)
    ensures v != stages[k].source ==> v in stages[k].ops
  {
    assert NodeIn(stages, level, v);
    k := level[v] / 2;
    assert StageIn(out, level, stages[k], k);
    if level[v] % 2 == 1 {
      assert OpIn(out, level, stages[k], k, v);
    }
  }

  lemma StagedIsRanked(out: seq<seq<nat>>, level: seq<nat>, stages: seq<Stage>)
    requires Levels(out, level, stages, END)
    ensures Ranked(out, level)
  {
    forall u, j | 0 <= u < |out| && 0 <= j < |out[u]| ensures level[u] < level[out[u][j]] {
      var k := Locate(out, level, stages, u);
      var st := stages[k];
      if u == st.source && st.ops != [] {
        assert OpIn(out, level, st, k, st.ops[j]);
      }
    }
  }

  lemma {:induction false} StagedReaches(out: seq<seq<nat>>, level: seq<nat>, stages: seq<Stage>, v: nat)
    requires Levels(out, level, stages, END) && v < |out| && level[v] <= 2 * |stages|
    ensures ReachesEnd(out, v)
    decreases 2 * |stages| - level[v]
  {
    if v == END {
      assert Path(out, [END], END, END);
    } else {
      var k := Locate(out, level, stages, v);
      var st := stages[k];
      if v == st.source && st.ops != [] {
        assert OpIn(out, level, st, k, st.ops[0]);
      }
      var w := out[v][0];
      StagedReaches(out, level, stages, w);
      var p :| Path(out, p, w, END);
      PathStep(out, v, w, p);
    }
  }

  /** Every node but START has an edge into it. */
  lemma StagedHasPredecessor(out: seq<seq<nat>>, level: seq<nat>, stages: seq<Stage>, v: nat) returns (u: nat)
    requires Levels(out, level, stages, END) && START < v < |out|
    ensures u < |out| && v in out[u]
  {
    var k := |stages|;
    if v != END {
      k := Locate(out, level, stages, v);
    }
    assert stages != [] && stages[0].source == START;
    if v != END && v in stages[k].ops {
      u := stages[k].source;
    } else {
      u := EnteredFrom(out, level, stages, k - 1);
    }
  }

  lemma EdgeCounts(out: seq<seq<nat>>, u: nat, v: nat)
    requires u < |out| && v in out[u]
    ensures InDegree(out, v) > 0
  {
    var none := Zeros(|out|);
    NoneArrived(out, none, v, |out|);
    ArrivedCompares(out, none, v, |out|);
    var j :| 0 <= j < |out[u]| && out[u][j] == v;
    assert Unsent(out, none, u, j, v);
  }

  /** A staged graph meets everything the theorems about runs ask for. */
  lemma StagedIsSound(g: Graph, stages: seq<Stage>)
    requires Built(g) && Staged(g.out, stages)
    ensures AllReachEnd(g.out) && Acyclic(g.out) && forall v :: START < v < |g.out| ==> g.expected[v] > 0
    ensures NoDeadEnds(g.out) && !Blocked(g.out)
  {
    var level :| Levels(g.out, level, stages, END);
    StagedIsRanked(g.out, level, stages);
    forall v | END < v < |g.out| ensures ReachesEnd(g.out, v) {
      assert NodeIn(stages, level, v);
      StagedReaches(g.out, level, stages, v);
    }
    forall v | START < v < |g.out| ensures g.expected[v] > 0 {
      var u := StagedHasPredecessor(g.out, level, stages, v);
      EdgeCounts(g.out, u, v);
    }
    AcyclicNotBlocked(g.out);
  }

  // ------------------------------------------------------- order of the stages

  /** If v has run, its predecessor u has run, too, and has completed. */
  ghost predicate RanAfter(h: History, u: nat, v: nat) {
    u < |h.phase| && u < |h.runs| && v < |h.runs| && h.runs[v] == 1 ==>
      Completed(h.phase[u]) && (u > END ==> h.runs[u] == 1)
  }

  ghost predicate Orderly(out: seq<seq<nat>>, h: History) {
    && |h.phase| == |h.runs| == |out|
    && (forall u: nat, v: nat :: u < |out| && END < v < |out| && v in out[u] ==> RanAfter(h, u, v))
  }

  lemma RunsAreOrderly(g: Graph, s0: State, trace: seq<(nat, Choice)>)
    requires Built(g) && NoDeadEnds(g.out) && Initial(g, s0)
    ensures Orderly(g.out, Exec(g, s0, trace).h)
  {
    var s := Exec(g, s0, trace);
    forall u: nat, v: nat | u < |g.out| && END < v < |g.out| && v in g.out[u] ensures RanAfter(s.h, u, v) {
      RunsOnceAfterPredecessors(g, s0, trace, v);
      if u > END {
        RunsOnceAfterPredecessors(g, s0, trace, u);
      }
    }
  }

  /** When the node between two stages has run, or an operation behind it, every operation of an
      earlier stage has completed. */
  lemma {:induction false} EarlierCompleted(out: seq<seq<nat>>, level: seq<nat>, stages: seq<Stage>, h: History,
                                            v: nat, j: nat, u: nat)
    requires Levels(out, level, stages, END) && Orderly(out, h)
    requires END < v < |out| && h.runs[v] == 1 && 2 * j + 1 < level[v] && j < |stages| && u in stages[j].ops
    ensures u < |out| && Completed(h.phase[u])
    decreases level[v]
  {
    assert StageIn(out, level, stages[j], j);
    assert OpIn(out, level, stages[j], j, u);
    var k := Locate(out, level, stages, v);
    TargetInside(out, level, stages, END, k - 1);
    if v != stages[k].source {
      assert RanAfter(h, stages[k].source, v);
      EarlierCompleted(out, level, stages, h, stages[k].source, j, u);
    } else if j == k - 1 {
      assert RanAfter(h, u, v);
    } else {
      var w := EnteredFrom(out, level, stages, k - 1);
      assert RanAfter(h, w, v);
      EarlierCompleted(out, level, stages, h, w, j, u);
    }
  }

  /** A predecessor of a node that lies behind the beginning of stage j is that beginning or lies behind it. */
  lemma StepBack(out: seq<seq<nat>>, level: seq<nat>, stages: seq<Stage>, v: nat, j: nat) returns (w: nat)
    requires Levels(out, level, stages, END) && END < v < |out| && 2 * j < level[v] && j < |stages|
    ensures w < |out| && v in out[w] && level[w] < level[v]
    ensures w == stages[j].source || (w > END && 2 * j < level[w])
  {
    var k := Locate(out, level, stages, v);
    assert StageIn(out, level, stages[j], j);
    w := stages[k].source;
    if v == w {
      w := EnteredFrom(out, level, stages, k - 1);
    }
    if w != stages[j].source {
      LaterStage(out, level, stages, w, j);
    }
  }

  /** When a node has run, the node at which an earlier stage begins has completed. */
  lemma {:induction false} EarlierBegun(out: seq<seq<nat>>, level: seq<nat>, stages: seq<Stage>, h: History,
                                        v: nat, j: nat)
    requires Levels(out, level, stages, END) && Orderly(out, h)
    requires END < v < |out| && h.runs[v] == 1 && 2 * j < level[v] && j < |stages|
    ensures stages[j].source < |out| && Completed(h.phase[stages[j].source])
    decreases level[v]
  {
    var w := StepBack(out, level, stages, v, j);
    assert RanAfter(h, w, v);
    if w != stages[j].source {
      EarlierBegun(out, level, stages, h, w, j);
    }
  }

  /** A node of a later stage, or an operation of this one, is not START. */
  lemma LaterStage(out: seq<seq<nat>>, level: seq<nat>, stages: seq<Stage>, w: nat, j: nat)
    requires Levels(out, level, stages, END) && w < |out| && w != END && 2 * j < level[w]
    ensures w > END
  {
    var k := Locate(out, level, stages, w);
  }

  /** A node of stage k with an edge to the end of the stage. */
  lemma EnteredFrom(out: seq<seq<nat>>, level: seq<nat>, stages: seq<Stage>, k: nat) returns (w: nat)
    requires Levels(out, level, stages, END) && k < |stages|
    ensures w < |out| && 2 * k <= level[w] <= 2 * k + 1 && stages[k].target in out[w] && (k > 0 ==> w > END)
    ensures level[w] == 2 * k ==> w == stages[k].source
  {
    var st := stages[k];
    assert StageIn(out, level, st, k);
    if k > 0 {
      TargetInside(out, level, stages, END, k - 1);
    }
    assert st.ops != [] ==> OpIn(out, level, st, k, st.ops[0]);
    w := if st.ops == [] then st.source else st.ops[0];
  }

  /** In every run of a staged graph, an operation is started at most once, and only when all
      operations of all earlier stages have completed. */
  lemma StagesRunInOrder(g: Graph, stages: seq<Stage>, s0: State, trace: seq<(nat, Choice)>,
                         j: nat, u: nat, k: nat, v: nat)
    requires Built(g) && Staged(g.out, stages) && Initial(g, s0)
    requires j < k < |stages| && u in stages[j].ops && v in stages[k].ops
    ensures var s := Exec(g, s0, trace);
            && u < |g.out| && v < |g.out| && s.h.runs[v] <= 1
            && (s.h.runs[v] == 1 ==> Completed(s.h.phase[u]))
            && (forall t: nat :: Busy(s, t) && Top(s, t) == Run(v) ==> s.h.runs[v] == 0 && Completed(s.h.phase[u]))
  {
    StagedIsSound(g, stages);
    var level :| Levels(g.out, level, stages, END);
    var w := StageEntry(g.out, level, stages, j, u, k, v);
    RunsAreOrderly(g, s0, trace);
    RunsOnceAfterPredecessors(g, s0, trace, v);
    RunsOnceAfterPredecessors(g, s0, trace, w);
    var h := Exec(g, s0, trace).h;
    if h.runs[w] == 1 {
      EarlierCompleted(g.out, level, stages, h, w, j, u);
    }
  }

  /** Where stage k begins. */
  lemma StageEntry(out: seq<seq<nat>>, level: seq<nat>, stages: seq<Stage>, j: nat, u: nat, k: nat, v: nat)
    returns (w: nat)
    requires Levels(out, level, stages, END) && j < k < |stages| && u in stages[j].ops && v in stages[k].ops
    ensures END < w < |out| && v in out[w] && 2 * j + 1 < level[w] && END < v < |out| && u < |out|
  {
    w := stages[k].source;
    assert StageIn(out, level, stages[j], j) && StageIn(out, level, stages[k], k);
    TargetInside(out, level, stages, END, k - 1);
    assert OpIn(out, level, stages[j], j, u) && OpIn(out, level, stages[k], k, v);
  }

  /** In every run of a staged graph, the node at which a stage begins is run at most once, and only
      when the nodes at which the earlier stages begin have completed. */
  lemma BeginningsInOrder(g: Graph, stages: seq<Stage>, s0: State, trace: seq<(nat, Choice)>, j: nat, k: nat)
    requires Built(g) && Staged(g.out, stages) && Initial(g, s0) && j < k < |stages|
    ensures var s, u, v := Exec(g, s0, trace), stages[j].source, stages[k].source;
            && u < |g.out| && END < v < |g.out| && s.h.runs[v] <= 1
            && (s.h.runs[v] == 1 ==> Completed(s.h.phase[u]))
  {
    StagedIsSound(g, stages);
    var level :| Levels(g.out, level, stages, END);
    assert StageIn(g.out, level, stages[j], j) && StageIn(g.out, level, stages[k], k);
    TargetInside(g.out, level, stages, END, k - 1);
    RunsAreOrderly(g, s0, trace);
    RunsOnceAfterPredecessors(g, s0, trace, stages[k].source);
    var h := Exec(g, s0, trace).h;
    if h.runs[stages[k].source] == 1 {
      EarlierBegun(g.out, level, stages, h, stages[k].source, j);
    }
  }

  /** When test reports done, every operation of every stage has run exactly once and completed. */
  lemma DoneMeansAllStages(g: Graph, stages: seq<Stage>, s0: State, trace: seq<(nat, Choice)>,
                           k: nat, v: nat)
    requires Built(g) && Staged(g.out, stages) && Initial(g, s0)
    requires k < |stages| && v in stages[k].ops
    ensures var s := Exec(g, s0, trace);
            v < |g.out| && (s.started && Test(g, s) ==> s.h.runs[v] == 1 && s.h.phase[v] == Done)
  {
    StagedIsSound(g, stages);
    var level :| Levels(g.out, level, stages, END);
    assert StageIn(g.out, level, stages[k], k);
    assert OpIn(g.out, level, stages[k], k, v);
    TestIsTruthful(g, s0, trace);
  }
}
