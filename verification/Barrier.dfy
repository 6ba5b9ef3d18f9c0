/** The dissemination barrier (src/collective/barrier.cpp): in the round with jump 2^k every rank
    sends to the rank `jump` to its right and receives from the rank `jump` to its left. */
module Barrier {
  import opened Options
  import opened Rounds
  import opened BinomialTree
  import opened Modular
  import RoundsProof
  import G = CompletionGraph
  import opened StagedGraph
  import opened CompletionGraphProof

  datatype Peers = Peers(recvFrom: nat, sendTo: nat)

  /** The rank `jump` to the right, and the one whose right it is. */
  function RightOf(n: nat, rank: nat, jump: nat): (r: nat)
    requires rank < n && jump < n
    ensures r < n
  {
    if rank + jump < n then rank + jump else rank + jump - n
  }

  function LeftOf(n: nat, rank: nat, jump: nat): (r: nat)
    requires rank < n && jump < n
    ensures r < n && RightOf(n, r, jump) == rank
  {
    if jump <= rank then rank - jump else rank + n - jump
  }

  datatype Posting = Recv(peer: nat) | Send(peer: nat)

  /** barrier.cpp:62-99: one stage of the graph per round.  posts says what the nodes that are not
      dummies do. */
  method BuildGraph(rank: nat, nranks: nat, graph: G.Builder) returns (stages: seq<Stage>, posts: map<nat, Posting>)
    requires 1 < nranks && rank < nranks && graph.Valid() && graph.out == [[], []]
    modifies graph
    ensures graph.Valid() && Staged(graph.out, stages) && |stages| == CeilLog2(nranks)
    ensures forall k :: 0 <= k < |stages| ==> RoundOk(nranks, rank, k, stages[k], posts)
  {
    EmptyGrows();
    stages, posts := [], map[];
    var jump, oldNode := 1, G.START;
    while jump < nranks
      invariant graph.Valid() && Growing(graph.out, stages, oldNode) && (oldNode == G.END <==> jump >= nranks)
      invariant jump == Pow2(|stages|) && |stages| <= CeilLog2(nranks)
      invariant forall v :: v in posts ==> v < |graph.out|
      invariant forall k :: 0 <= k < |stages| ==> RoundOk(nranks, rank, k, stages[k], posts)
      decreases nranks - jump
    {
      PowersBelow(nranks, |stages|);
      var peers := PeersOf(rank, nranks, jump);
      var dummyNode, recvNode, sendNode := AddRound(graph, oldNode, jump * 2 >= nranks, stages);
      RoundAdded(nranks, rank, stages, posts, oldNode, recvNode, sendNode, dummyNode);
      stages := stages + [Stage(oldNode, [recvNode, sendNode], dummyNode)];
      posts := posts[recvNode := Recv(peers.recvFrom)][sendNode := Send(peers.sendTo)];
      oldNode, jump := dummyNode, jump * 2;
    }
    PowersBelow(nranks, |stages|);
  }

  /** The nodes and edges of one round, between oldNode and the node returned first. */
  method AddRound(graph: G.Builder, oldNode: nat, last: bool, ghost stages: seq<Stage>)
    returns (dummyNode: nat, recvNode: nat, sendNode: nat)
    requires graph.Valid() && Growing(graph.out, stages, oldNode) && oldNode != G.END
    modifies graph
    ensures graph.Valid() && |graph.out| >= old(|graph.out|)
    ensures Growing(graph.out, stages + [Stage(oldNode, [recvNode, sendNode], dummyNode)], dummyNode)
    ensures old(|graph.out|) <= recvNode < sendNode < |graph.out| && (dummyNode == G.END <==> last)
  {
    GrowsAt(graph.out, stages, oldNode);
    ghost var before := graph.out;
    dummyNode := G.END;
    if !last {
      dummyNode := graph.AddNode();
    }
    recvNode := graph.AddNode();
    sendNode := graph.AddNode();
    PairEdges(before, graph.out, oldNode, recvNode, sendNode, dummyNode);
    graph.AddEdge(oldNode, recvNode);
    graph.AddEdge(oldNode, sendNode);
    graph.AddEdge(recvNode, dummyNode);
    graph.AddEdge(sendNode, dummyNode);
    StageAdded(before, stages, oldNode, [recvNode, sendNode], dummyNode, graph.out);
  }

  /** Round k receives from the rank 2^k to the left and sends to the one 2^k to the right. */
  ghost predicate RoundOk(n: nat, rank: nat, k: nat, st: Stage, posts: map<nat, Posting>)
    requires rank < n
  {
    && Pow2(k) < n && |st.ops| == 2 && st.ops[0] in posts && st.ops[1] in posts
    && posts[st.ops[0]] == Recv(LeftOf(n, rank, Pow2(k))) && posts[st.ops[1]] == Send(RightOf(n, rank, Pow2(k)))
  }

  lemma RoundAdded(n: nat, rank: nat, stages: seq<Stage>, posts: map<nat, Posting>, from: nat, a: nat, b: nat,
                   next: nat)
    requires rank < n && Pow2(|stages|) < n && a != b && a !in posts && b !in posts
    requires forall k :: 0 <= k < |stages| ==> RoundOk(n, rank, k, stages[k], posts)
    ensures var stages' := stages + [Stage(from, [a, b], next)];
            var jump := Pow2(|stages|);
            var posts' := posts[a := Recv(LeftOf(n, rank, jump))][b := Send(RightOf(n, rank, jump))];
            forall k :: 0 <= k < |stages'| ==> RoundOk(n, rank, k, stages'[k], posts')
  {
  }

  /** In every run of a rank's graph, the send of a round is posted only when the sends and receives of
      all earlier rounds have completed. */
  lemma RoundsInOrder(n: nat, rank: nat, g: G.Graph, stages: seq<Stage>, posts: map<nat, Posting>,
                      s0: G.State, trace: seq<(nat, G.Choice)>, j: nat, k: nat)
    requires n > 1 && rank < n && G.Built(g) && Staged(g.out, stages) && G.Initial(g, s0) && j < k < |stages|
    requires forall k :: 0 <= k < |stages| ==> RoundOk(n, rank, k, stages[k], posts)
    ensures var s, a, b := G.Exec(g, s0, trace), stages[j].ops, stages[k].ops;
            && |a| == |b| == 2 && a[0] < |s.h.phase| && a[1] < |s.h.phase| && b[1] < |s.h.runs|
            && s.h.runs[b[1]] <= 1
            && (s.h.runs[b[1]] == 1 ==> Completed(s.h.phase[a[0]]) && Completed(s.h.phase[a[1]]))
  {
    var a, b := stages[j].ops, stages[k].ops;
    assert RoundOk(n, rank, j, stages[j], posts) && RoundOk(n, rank, k, stages[k], posts);
    StagesRunInOrder(g, stages, s0, trace, j, a[0], k, b[1]);
    StagesRunInOrder(g, stages, s0, trace, j, a[1], k, b[1]);
  }

  method PeersOf(rank: nat, nranks: nat, jump: nat) returns (p: Peers)
    requires rank < nranks && jump < nranks
    ensures p == Peers(LeftOf(nranks, rank, jump), RightOf(nranks, rank, jump))
  {
    var rankToRecv := (rank - jump + nranks) % nranks;
    var rankToSend := (rank + jump) % nranks;
    SmallMod(LeftOf(nranks, rank, jump), nranks);
    AddModulus(LeftOf(nranks, rank, jump), nranks);
    SmallMod(RightOf(nranks, rank, jump), nranks);
    AddModulus(RightOf(nranks, rank, jump), nranks);
    p := Peers(rankToRecv, rankToSend);
  }

  lemma {:induction false} PowersGrow(a: nat, b: nat)
    requires a < b
    ensures Pow2(a) < Pow2(b)
  {
    if a + 1 < b { PowersGrow(a, b - 1); }
  }

  /** 2^k < n exactly for the rounds of the barrier. */
  lemma PowersBelow(n: nat, k: nat)
    requires n > 1
    ensures Pow2(k) < n <==> k < CeilLog2(n)
  {
    var r := CeilLog2(n);
    if k < r - 1 { PowersGrow(k, r - 1); }
    if r < k { PowersGrow(r, k); }
  }

  /** Different rounds of a rank use different peers, so one tag serves the whole barrier. */
  lemma PeersDiffer(n: nat, rank: nat, i: nat, k: nat)
    requires n > 1 && rank < n && i < k < CeilLog2(n)
    ensures Pow2(i) < n && Pow2(k) < n
    ensures LeftOf(n, rank, Pow2(i)) != LeftOf(n, rank, Pow2(k))
    ensures RightOf(n, rank, Pow2(i)) != RightOf(n, rank, Pow2(k))
  {
    PowersBelow(n, i);
    PowersBelow(n, k);
    PowersGrow(i, k);
    JumpsDiffer(n, rank, Pow2(i), Pow2(k));
  }

  lemma JumpsDiffer(n: nat, rank: nat, a: nat, b: nat)
    requires n > 1 && rank < n && a < b < n
    ensures LeftOf(n, rank, a) != LeftOf(n, rank, b) && RightOf(n, rank, a) != RightOf(n, rank, b)
  {
  }

  // ------------------------------------------------------- the distributed run

  function RoundOp(n: nat, r: nat, i: nat): Op {
    if r < n && Pow2(i) < n then Op(Some(LeftOf(n, r, Pow2(i))), Some(RightOf(n, r, Pow2(i)))) else Op(None, None)
  }

  /** Messages carry no data. */
  function Dissemination(n: nat, eager: bool): Sys<(), ()>
    requires n > 1
  {
    Sys(n, _ => CeilLog2(n), _ => 0, (r: nat, i: nat) => RoundOp(n, r, i),
        _ => (), (_, _, _) => (), (_, _, _, _) => (), eager)
  }

  /** The operations that stage k of a rank's graph posts are those of round k of the distributed run. */
  lemma PostsAreRounds(n: nat, rank: nat, k: nat, st: Stage, posts: map<nat, Posting>, eager: bool)
    requires n > 1 && rank < n && RoundOk(n, rank, k, st, posts)
    ensures var op := Dissemination(n, eager).op(rank, k);
            && op.recvFrom.Some? && posts[st.ops[0]] == Recv(op.recvFrom.value)
            && op.sendTo.Some? && posts[st.ops[1]] == Send(op.sendTo.value)
  {
  }

  lemma DisseminationPairs(n: nat, eager: bool)
    requires n > 1
    ensures WellPaired(Dissemination(n, eager))
  {
    var sys := Dissemination(n, eager);
    forall r: nat, i: nat | r < sys.n && i < sys.length(r)
      ensures SendPaired(sys, r, i) && RecvPaired(sys, r, i) && Independent(sys, r, i) {
      PowersBelow(n, i);
      var a, b := LeftOf(n, r, Pow2(i)), RightOf(n, r, Pow2(i));
      assert sys.op(r, i) == RoundOp(n, r, i) == Op(Some(a), Some(b));
      assert sys.op(a, i) == RoundOp(n, a, i) && sys.op(b, i) == RoundOp(n, b, i);
      assert LeftOf(n, b, Pow2(i)) == r;
    }
  }

  /** In round i a rank hears what its left peer has heard. */
  ghost predicate Hears(n: nat, heard: (nat, nat) -> set<nat>, r: nat, i: nat)
    requires n > 1 && r < n
  {
    Pow2(i) < n ==> heard(r, i) + heard(LeftOf(n, r, Pow2(i)), i) <= heard(r, i + 1)
  }

  lemma LeftTwice(n: nat, r: nat, j: nat, d: nat)
    requires n > 1 && r < n && j <= d < n
    ensures LeftOf(n, LeftOf(n, r, j), d - j) == LeftOf(n, r, d)
  {
  }

  /** After i rounds a rank has heard, directly or not, from the 2^i ranks up to and including
      itself. */
  lemma {:induction false} HeardFrom(n: nat, heard: (nat, nat) -> set<nat>, rounds: nat, r: nat, i: nat, d: nat)
    requires n > 1 && r < n && i <= rounds == CeilLog2(n) && d < Pow2(i) && d < n
    requires forall u: nat :: u < n ==> u in heard(u, 0)
    requires forall u: nat, k: nat :: u < n && k < rounds ==> Hears(n, heard, u, k)
    ensures LeftOf(n, r, d) in heard(r, i)
    decreases i
  {
    if i > 0 {
      PowersBelow(n, i - 1);
      var j := Pow2(i - 1);
      assert Hears(n, heard, r, i - 1);
      if d < j {
        HeardFrom(n, heard, rounds, r, i - 1, d);
      } else {
        HeardFrom(n, heard, rounds, LeftOf(n, r, j), i - 1, d - j);
        LeftTwice(n, r, j, d);
      }
    }
  }

  ghost function Heard(n: nat, eager: bool): (nat, nat) -> set<nat>
    requires n > 1 && WellPaired(Dissemination(n, eager))
  {
    var sys := Dissemination(n, eager);
    (r: nat, i: nat) => if r < n && i <= CeilLog2(n) then RoundsProof.Deps(sys, r, i) else {}
  }

  /** The dependencies of a round in which r receives from a, when both are in the same round. */
  lemma DepsOfRound(sys: Sys<(), ()>, r: nat, i: nat, a: nat)
    requires WellPaired(sys) && r < sys.n && i < sys.length(r) && sys.op(r, i).recvFrom == Some(a)
    requires sys.offset(r) == sys.offset(a)
    ensures a < sys.n && i < sys.length(a)
    ensures RoundsProof.Deps(sys, r, i + 1) == RoundsProof.Deps(sys, r, i) + RoundsProof.Deps(sys, a, i)
  {
    RoundsProof.DepsStep(sys, r, i);
  }

  lemma HearsLeft(n: nat, eager: bool, r: nat, i: nat)
    requires n > 1 && WellPaired(Dissemination(n, eager)) && r < n && i < CeilLog2(n)
    ensures Hears(n, Heard(n, eager), r, i)
  {
    var sys := Dissemination(n, eager);
    PowersBelow(n, i);
    assert sys.op(r, i) == RoundOp(n, r, i);
    DepsOfRound(sys, r, i, LeftOf(n, r, Pow2(i)));
  }

  /** In every run, no rank completes the barrier before every rank has entered it, and the
      barrier cannot get stuck. */
  lemma BarrierSynchronises(n: nat, eager: bool, s0: State<(), ()>, trace: seq<(nat, Move)>, r: nat, x: nat)
    returns (u: nat, move: Move)
    requires n > 1 && r < n && x < n && Init(Dissemination(n, eager), s0)
    ensures var sys := Dissemination(n, eager);
            var s := Exec(sys, s0, trace);
            && |s.ranks| == n
            && (s.ranks[r].pc == CeilLog2(n) ==> s.ranks[x].entered)
            && (RoundsProof.Finished(sys, s) || Enabled(sys, s, u, move))
  {
    var sys := Dissemination(n, eager);
    DisseminationPairs(n, eager);
    RoundsProof.ExecInv(sys, s0, trace);
    var s := Exec(sys, s0, trace);
    if s.ranks[r].pc == CeilLog2(n) {
      var d := if x <= r then r - x else r + n - x;
      forall u: nat, k: nat | u < n && k < CeilLog2(n) ensures Hears(n, Heard(n, eager), u, k) {
        HearsLeft(n, eager, u, k);
      }
      HeardFrom(n, Heard(n, eager), CeilLog2(n), r, CeilLog2(n), d);
      assert LeftOf(n, r, d) == x;
      assert RoundsProof.RankOk(sys, r, s.ranks[r]);
      RoundsProof.DepsEntered(sys, s, r, CeilLog2(n), x);
    }
    u, move := 0, Enter;
    if !RoundsProof.Finished(sys, s) { u, move := RoundsProof.NeverStuck(sys, s0, trace); }
  }
}
