/** Tree broadcast (src/collective/broadcast.cpp, build_graph_tree) for every number of ranks and
    every root. */
module TreeBroadcast {
  import opened Options
  import opened BinomialTree
  import opened Modular
  import opened Rounds
  import RoundsProof
  import G = CompletionGraph
  import opened CompletionGraphProof
  import opened StagedGraph

  // ------------------------------------------------------- the schedules agree

  /** The rank at distance d holds the data when round k starts. */
  ghost predicate Holder(n: nat, d: nat, k: nat)
    requires d < n
  {
    Seg(n, d, k).first == d
  }

  /** Each send of a round meets exactly one receive of that round, and the other way round. */
  lemma SendMeetsReceive(n: nat, root: nat, a: nat, b: nat, k: nat)
    requires root < n && a < n && b < n
    ensures Action(n, root, a, k) == SendTo(b) <==> Action(n, root, b, k) == RecvFrom(a)
  {
    var d, e := Dist(n, root, a), Dist(n, root, b);
    RankAtDist(n, root, a);
    RankAtDist(n, root, b);
    if Action(n, root, a, k) == SendTo(b) { SegmentAgreed(n, d, e, k); }
    if Action(n, root, b, k) == RecvFrom(a) { SegmentAgreed(n, e, d, k); }
  }

  /** Peers named in a schedule are ranks. */
  lemma PeersAreRanks(n: nat, root: nat, a: nat, k: nat)
    requires root < n && a < n
    ensures Action(n, root, a, k).SendTo? ==> Action(n, root, a, k).peer < n
    ensures Action(n, root, a, k).RecvFrom? ==> Action(n, root, a, k).peer < n
  {
  }

  /** Only holders send; a rank receives exactly when it becomes a holder. */
  lemma HoldersGrow(n: nat, root: nat, a: nat, k: nat)
    requires root < n && a < n
    ensures var d := Dist(n, root, a);
            && (Action(n, root, a, k).SendTo? ==> Holder(n, d, k))
            && (Action(n, root, a, k).RecvFrom? <==> !Holder(n, d, k) && Holder(n, d, k + 1))
            && (Holder(n, d, k) ==> Holder(n, d, k + 1))
  {
  }

  lemma {:induction false} HoldersStay(n: nat, root: nat, a: nat, i: nat, k: nat)
    requires root < n && a < n && i <= k && Holder(n, Dist(n, root, a), i)
    ensures Holder(n, Dist(n, root, a), k)
  {
    if i < k {
      HoldersStay(n, root, a, i, k - 1);
      HoldersGrow(n, root, a, k - 1);
    }
  }

  lemma {:induction false} FindReceive(n: nat, root: nat, a: nat, k: nat) returns (i: nat)
    requires root < n && a < n && a != root && Holder(n, Dist(n, root, a), k)
    ensures i < k && Action(n, root, a, i).RecvFrom?
  {
    if Holder(n, Dist(n, root, a), k - 1) {
      i := FindReceive(n, root, a, k - 1);
    } else {
      HoldersGrow(n, root, a, k - 1);
      i := k - 1;
    }
  }

  /** Every rank but the root receives in exactly one round; the root in none. */
  lemma ReceivesOnce(n: nat, root: nat, a: nat) returns (i: nat)
    requires 2 <= n && root < n && a < n
    ensures a != root ==> i < CeilLog2(n) && Action(n, root, a, i).RecvFrom?
    ensures forall k: nat :: Action(n, root, a, k).RecvFrom? ==> a != root && k == i
  {
    var d := Dist(n, root, a);
    LastRoundSingle(n, d);
    i := 0;
    if a != root { i := FindReceive(n, root, a, CeilLog2(n)); }
    if a == root {
      forall k: nat ensures Holder(n, d, k) { HoldersStay(n, root, a, 0, k); }
    }
    forall k: nat | Action(n, root, a, k).RecvFrom? ensures a != root && k == i {
      HoldersGrow(n, root, a, k);
      HoldersGrow(n, root, a, i);
      if i < k { HoldersStay(n, root, a, i + 1, k); }
      if k < i { HoldersStay(n, root, a, k + 1, i); }
    }
  }

  // ------------------------------------------------------- the chain of one rank

  /** The actions that become graph nodes. */
  ghost function Compact(actions: seq<TreeAction>): seq<TreeAction> {
    if actions == [] then []
    else
      var last := actions[|actions| - 1];
      Compact(actions[..|actions| - 1]) + (if last == Nothing then [] else [last])
  }

  lemma CompactSnoc(actions: seq<TreeAction>, action: TreeAction)
    ensures Compact(actions + [action]) == Compact(actions) + (if action == Nothing then [] else [action])
  {
    assert (actions + [action])[..|actions|] == actions;
  }

  /** The stages are single edges: node number k, which stands for chain[k], is where stage k ends. */
  ghost predicate ChainOk(stages: seq<Stage>) {
    forall k :: 0 <= k < |stages| ==> stages[k].ops == []
  }

  ghost predicate ChainSoFar(out: seq<seq<nat>>, oldNode: nat, stages: seq<Stage>, chain: seq<TreeAction>) {
    Growing(out, stages, oldNode) && oldNode != G.END && ChainOk(stages) && |stages| == |chain|
  }

  /** The node of an action and the edge to it. */
  method AddAction(graph: G.Builder, oldNode: nat, stages: seq<Stage>, chain: seq<TreeAction>, action: TreeAction)
    returns (oldNode': nat, stages': seq<Stage>, chain': seq<TreeAction>)
    requires graph.Valid() && ChainSoFar(graph.out, oldNode, stages, chain)
    modifies graph
    ensures graph.Valid() && ChainSoFar(graph.out, oldNode', stages', chain')
    ensures chain' == chain + (if action == Nothing then [] else [action])
  {
    oldNode', stages', chain' := oldNode, stages, chain;
    if action != Nothing {
      oldNode' := LinkToNew(graph, oldNode, stages);
      stages', chain' := stages + [Stage(oldNode, [], oldNode')], chain + [action];
    }
  }

  /** The chain when a round starts. */
  datatype Progress = Progress(hasData: bool, left: int, right: int, oldNode: nat, stages: seq<Stage>,
                               chain: seq<TreeAction>)

  ghost predicate RoundBegins(n: nat, root: nat, rank: nat, round: nat, out: seq<seq<nat>>, x: Progress)
    requires root < n && rank < n
  {
    && LoopState(n, Dist(n, root, rank), round, x.hasData, x.left, x.right)
    && ChainSoFar(out, x.oldNode, x.stages, x.chain) && x.chain == Compact(Schedule(n, root, rank, round))
  }

  /** The body of the loop. */
  method BuildRound(rank: nat, nranks: nat, root: nat, ghost round: nat, jump: nat, graph: G.Builder, x: Progress)
    returns (x': Progress)
    requires rank < nranks && root < nranks && jump == Jump(nranks, round) && graph.Valid()
    requires RoundBegins(nranks, root, rank, round, graph.out, x)
    modifies graph
    ensures graph.Valid() && RoundBegins(nranks, root, rank, round + 1, graph.out, x')
  {
    var action, hasData, left, right := OneRound(rank, nranks, root, round, x.hasData, x.left, x.right, jump);
    CompactSnoc(Schedule(nranks, root, rank, round), action);
    var oldNode, stages, chain := AddAction(graph, x.oldNode, x.stages, x.chain, action);
    x' := Progress(hasData, left, right, oldNode, stages, chain);
  }

  method BuildChain(rank: nat, nranks: nat, root: nat, ghost rounds: nat, graph: G.Builder) returns (x: Progress)
    requires 2 <= nranks && rank < nranks && root < nranks && rounds > 0
    requires forall k: nat :: k < rounds ==> EndsAt(nranks, k, rounds)
    requires graph.Valid() && Growing(graph.out, [], G.START)
    modifies graph
    ensures graph.Valid() && RoundBegins(nranks, root, rank, rounds, graph.out, x)
  {
    var distanceLeft, distanceRight := StartDistances(rank, nranks, root);
    x := Progress(rank == root, distanceLeft, distanceRight, G.START, [], []);
    var jump := Half(nranks);
    ghost var round := 0;
    while true
      invariant 0 <= round < rounds && jump == Jump(nranks, round)
      invariant graph.Valid() && RoundBegins(nranks, root, rank, round, graph.out, x)
      decreases rounds - round
    {
      assert EndsAt(nranks, round, rounds);
      x := BuildRound(rank, nranks, root, round, jump, graph, x);
      round := round + 1;
      if jump == 1 {
        break;
      }
      jump := Half(jump);
    }
  }

  /** build_graph_tree: the nodes between GRAPH_START and GRAPH_END, each depending on the one
      before it. */
  method BuildGraphTree(rank: nat, nranks: nat, root: nat, graph: G.Builder)
    returns (stages: seq<Stage>, chain: seq<TreeAction>)
    requires 2 <= nranks && rank < nranks && root < nranks && graph.Valid() && graph.out == [[], []]
    modifies graph
    ensures graph.Valid() && Staged(graph.out, stages) && ChainOk(stages) && |stages| == |chain| + 1
    ensures chain == Compact(Schedule(nranks, root, rank, CeilLog2(nranks)))
  {
    EmptyGrows();
    ghost var rounds := CeilLog2(nranks);
    forall k: nat | k < rounds ensures EndsAt(nranks, k, rounds) { RoundCount(nranks, k); }
    var x := BuildChain(rank, nranks, root, rounds, graph);
    LinkToEnd(graph, x.oldNode, x.stages);
    stages, chain := x.stages + [Stage(x.oldNode, [], G.END)], x.chain;
  }

  /** In every run of a rank's graph, an operation of the chain is started at most once, and only when
      the operations before it have completed. */
  lemma ChainRunsInOrder(g: G.Graph, stages: seq<Stage>, s0: G.State, trace: seq<(nat, G.Choice)>, j: nat, k: nat)
    requires G.Built(g) && Staged(g.out, stages) && ChainOk(stages) && G.Initial(g, s0) && j < k < |stages| - 1
    ensures var s, u, v := G.Exec(g, s0, trace), stages[j].target, stages[k].target;
            && u < |s.h.phase| && v < |s.h.runs| && s.h.runs[v] <= 1
            && (s.h.runs[v] == 1 ==> Completed(s.h.phase[u]))
  {
    StagesJoin(g.out, stages, j);
    StagesJoin(g.out, stages, k);
    BeginningsInOrder(g, stages, s0, trace, j + 1, k + 1);
  }

  // ------------------------------------------------------- the distributed run

  function ToOp(a: TreeAction): Op {
    match a
    case Nothing => Op(None, None)
    case SendTo(b) => Op(None, Some(b))
    case RecvFrom(b) => Op(Some(b), None)
  }

  /** The part of a schedule table that pairing needs. */
  ghost predicate Agrees(n: nat, act: (nat, nat) -> TreeAction, r: nat, i: nat) {
    match act(r, i)
    case Nothing => true
    case SendTo(b) => b < n && act(b, i) == RecvFrom(r)
    case RecvFrom(a) => a < n && act(a, i) == SendTo(r)
  }

  /** Holding follows receiving, and only holders send. */
  ghost predicate HoldsStep(act: (nat, nat) -> TreeAction, holds: (nat, nat) -> bool, r: nat, i: nat) {
    && (holds(r, i + 1) <==> holds(r, i) || act(r, i).RecvFrom?)
    && (act(r, i).SendTo? ==> holds(r, i))
  }

  /** A table of n ranks and `rounds` rounds. */
  ghost predicate Table(n: nat, rounds: nat, act: (nat, nat) -> TreeAction) {
    forall r: nat, i: nat :: r < n && i < rounds ==> Agrees(n, act, r, i)
  }

  /** All ranks run their schedules; a rank's value is its buffer, None before the data arrives. */
  function Broadcast<T>(n: nat, rounds: nat, root: nat, act: (nat, nat) -> TreeAction, data: T, eager: bool)
    : Sys<Option<T>, Option<T>>
  {
    Sys(n, _ => rounds, _ => 0, (r: nat, i: nat) => ToOp(act(r, i)),
        r => if r == root then Some(data) else None, (_, _, v) => v, (_, _, _, m) => m, eager)
  }

  lemma TablePairs<T(!new)>(n: nat, rounds: nat, root: nat, act: (nat, nat) -> TreeAction, data: T, eager: bool)
    requires Table(n, rounds, act)
    ensures WellPaired(Broadcast(n, rounds, root, act, data, eager))
  {
    var sys := Broadcast(n, rounds, root, act, data, eager);
    forall r: nat, i: nat | r < sys.n && i < sys.length(r)
      ensures SendPaired(sys, r, i) && RecvPaired(sys, r, i) && Independent(sys, r, i) {
      assert Agrees(n, act, r, i);
    }
  }

  /** A rank has the root's data exactly from the moment it holds. */
  lemma {:induction false} BroadcastValue<T(!new)>(
    n: nat, rounds: nat, root: nat, act: (nat, nat) -> TreeAction, data: T, eager: bool,
    holds: (nat, nat) -> bool, r: nat, i: nat)
    requires Table(n, rounds, act) && r < n && i <= rounds
    requires WellPaired(Broadcast(n, rounds, root, act, data, eager))
    requires forall u: nat :: u < n ==> (holds(u, 0) <==> u == root)
    requires forall u: nat, k: nat :: u < n && k < rounds ==> HoldsStep(act, holds, u, k)
    ensures Val(Broadcast(n, rounds, root, act, data, eager), r, i) == if holds(r, i) then Some(data) else None
    decreases i
  {
    var sys := Broadcast(n, rounds, root, act, data, eager);
    if i > 0 {
      assert Agrees(n, act, r, i - 1) && HoldsStep(act, holds, r, i - 1);
      BroadcastValue(n, rounds, root, act, data, eager, holds, r, i - 1);
      if act(r, i - 1).RecvFrom? {
        var a := act(r, i - 1).peer;
        BroadcastValue(n, rounds, root, act, data, eager, holds, a, i - 1);
        assert HoldsStep(act, holds, a, i - 1);
        assert sys.op(r, i - 1).recvFrom == Some(a);
      }
    }
  }

  /** The table the ranks compute by themselves. */
  function LocalActions(n: nat, root: nat): (nat, nat) -> TreeAction
    requires root < n
  {
    (r: nat, i: nat) => if r < n then BinomialTree.Action(n, root, r, i) else Nothing
  }

  lemma LocalTable(n: nat, root: nat)
    requires 2 <= n && root < n
    ensures Table(n, CeilLog2(n), LocalActions(n, root))
  {
    var act := LocalActions(n, root);
    forall r: nat, i: nat | r < n && i < CeilLog2(n) ensures Agrees(n, act, r, i) {
      var a := Action(n, root, r, i);
      PeersAreRanks(n, root, r, i);
      if a.SendTo? { SendMeetsReceive(n, root, r, a.peer, i); }
      if a.RecvFrom? { SendMeetsReceive(n, root, a.peer, r, i); }
    }
  }

  /** The schedules that the ranks compute for themselves fit together. */
  lemma BroadcastPairs<T(!new)>(n: nat, root: nat, data: T, eager: bool)
    requires 2 <= n && root < n
    ensures WellPaired(Broadcast(n, CeilLog2(n), root, LocalActions(n, root), data, eager))
  {
    LocalTable(n, root);
    TablePairs(n, CeilLog2(n), root, LocalActions(n, root), data, eager);
  }

  function Holders(n: nat, root: nat): (nat, nat) -> bool
    requires root < n
  {
    (r: nat, i: nat) => r < n && Seg(n, Dist(n, root, r), i).first == Dist(n, root, r)
  }

  lemma LocalHoldsStep(n: nat, root: nat, u: nat, k: nat)
    requires root < n && u < n
    ensures HoldsStep(LocalActions(n, root), Holders(n, root), u, k)
  {
    HoldersGrow(n, root, u, k);
    assert LocalActions(n, root)(u, k) == Action(n, root, u, k);
    assert Holders(n, root)(u, k) == Holder(n, Dist(n, root, u), k);
    assert Holders(n, root)(u, k + 1) == Holder(n, Dist(n, root, u), k + 1);
  }

  lemma EveryoneHolds(n: nat, root: nat, u: nat)
    requires 2 <= n && root < n && u < n
    ensures Holders(n, root)(u, CeilLog2(n))
    ensures Holders(n, root)(u, 0) <==> u == root
  {
    LastRoundSingle(n, Dist(n, root, u));
  }

  lemma LocalHolders(n: nat, root: nat)
    requires 2 <= n && root < n
    ensures forall u: nat :: u < n ==> (Holders(n, root)(u, 0) <==> u == root)
    ensures forall u: nat, k: nat :: u < n && k < CeilLog2(n) ==>
              HoldsStep(LocalActions(n, root), Holders(n, root), u, k)
  {
    var act, holds := LocalActions(n, root), Holders(n, root);
    forall u: nat | u < n ensures holds(u, 0) <==> u == root { EveryoneHolds(n, root, u); }
    forall u: nat, k: nat | u < n && k < CeilLog2(n) ensures HoldsStep(act, holds, u, k) {
      LocalHoldsStep(n, root, u, k);
    }
  }

  /** In every run, whatever the delivery order, a rank that finished holds the root's data; and
      the run cannot get stuck before all ranks have finished. */
  lemma BroadcastDelivers<T(!new)>(n: nat, root: nat, data: T, eager: bool,
                                   s0: State<Option<T>, Option<T>>, trace: seq<(nat, Move)>, r: nat)
    returns (u: nat, move: Move)
    requires 2 <= n && root < n && r < n
    requires Init(Broadcast(n, CeilLog2(n), root, LocalActions(n, root), data, eager), s0)
    ensures var sys := Broadcast(n, CeilLog2(n), root, LocalActions(n, root), data, eager);
            var s := Exec(sys, s0, trace);
            && r < |s.ranks|
            && (s.ranks[r].pc == CeilLog2(n) ==> s.ranks[r].v == Some(data))
            && (RoundsProof.Finished(sys, s) || Enabled(sys, s, u, move))
  {
    var rounds, act := CeilLog2(n), LocalActions(n, root);
    var sys := Broadcast(n, rounds, root, act, data, eager);
    LocalTable(n, root);
    BroadcastPairs(n, root, data, eager);
    RoundsProof.Determined(sys, s0, trace, r);
    LocalHolders(n, root);
    EveryoneHolds(n, root, r);
    BroadcastValue(n, rounds, root, act, data, eager, Holders(n, root), r, rounds);
    u, move := 0, Enter;
    if !RoundsProof.Finished(sys, Exec(sys, s0, trace)) { u, move := RoundsProof.NeverStuck(sys, s0, trace); }
  }
}
