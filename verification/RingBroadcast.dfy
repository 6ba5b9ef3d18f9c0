/** Pipelined ring broadcast (src/collective/broadcast.cpp, build_graph_ring).  In step s a rank
    receives chunk s from its left neighbour and sends chunk s-1 to its right one.  Rank r runs
    Dist(root, r) steps behind the root. */
module RingBroadcast {
  import opened Options
  import opened Rounds
  import opened BinomialTree
  import opened Modular
  import B = Barrier
  import RoundsProof
  import G = CompletionGraph
  import opened StagedGraph
  import opened CompletionGraphProof

  const WORD: nat := 0x1_0000_0000_0000_0000
  type Byte = bv8

  // ------------------------------------------------------- chunks

  /** (size + nsteps - 1) / nsteps, in size_t. */
  function StepSize(size: nat, nsteps: nat): nat
    requires nsteps > 0
  {
    (size + nsteps - 1) % WORD / nsteps
  }

  /** std::min(step_size, size - idx * step_size), the subtraction being unsigned. */
  function ChunkLength(size: nat, step: nat, idx: nat): (len: nat)
    ensures len <= step
  {
    LengthFrom(size, step, idx * step)
  }

  function LengthFrom(size: nat, step: nat, start: nat): (len: nat)
    ensures len <= step
  {
    var left := (size - start) % WORD;
    if left < step then left else step
  }

  lemma LengthInside(size: nat, step: nat, start: nat)
    requires start <= size < WORD
    ensures LengthFrom(size, step, start) == if size - start < step then size - start else step
  {
    SmallMod(size - start, WORD);
  }

  lemma LengthOutside(size: nat, step: nat, start: nat)
    requires size < start && step <= size - start + WORD < WORD
    ensures LengthFrom(size, step, start) == step
  {
    DivUnique(size - start, -1, size - start + WORD, WORD);
  }

  /** Every chunk lies in the buffer, the next one starts where it ends, and the last one ends at
      the end of the buffer. */
  ghost predicate Tiles(size: nat, nsteps: nat)
    requires nsteps > 0
  {
    var step := StepSize(size, nsteps);
    forall idx: nat :: idx < nsteps ==> ChunkTiles(size, nsteps, step, idx)
  }

  ghost predicate ChunkTiles(size: nat, nsteps: nat, step: nat, idx: nat) {
    var end := idx * step + ChunkLength(size, step, idx);
    end <= size && (if idx + 1 == nsteps then end == size else end == (idx + 1) * step)
  }

  /** The sum wraps only to a step size of zero. */
  lemma StepSizeBounds(size: nat, nsteps: nat)
    requires size < WORD && 0 < nsteps < WORD
    ensures var step := StepSize(size, nsteps);
            if size + nsteps - 1 < WORD then size <= nsteps * step < size + nsteps else step == 0 < size
  {
    var sum, step := size + nsteps - 1, StepSize(size, nsteps);
    if sum < WORD {
      SmallMod(sum, WORD);
      DivMod(sum, nsteps);
      assert nsteps * step == step * nsteps;
    } else {
      DivUnique(sum, 1, sum - WORD, WORD);
      DivUnique(sum - WORD, 0, sum - WORD, nsteps);
    }
  }

  /** idx * step_size does not wrap. */
  lemma OffsetsFit(size: nat, nsteps: nat, idx: nat)
    requires size < WORD && 0 < nsteps < WORD && idx < nsteps
    ensures idx * StepSize(size, nsteps) < WORD
  {
    var step, last := StepSize(size, nsteps), nsteps - 1;
    StepSizeBounds(size, nsteps);
    assert nsteps * step == last * step + step;
    MulGap(idx, last, step);
  }

  /** The chunks tile the buffer exactly when the last one starts inside it and ends at or behind its
      end.  Otherwise the unsigned subtraction wraps and the last chunk reaches past the end, or the
      sum in the step size wraps and every chunk is empty. */
  lemma TilesIff(size: nat, nsteps: nat)
    requires size < WORD && 0 < nsteps < WORD
    ensures Tiles(size, nsteps) <==> (nsteps - 1) * StepSize(size, nsteps) <= size <= nsteps * StepSize(size, nsteps)
  {
    var step, last := StepSize(size, nsteps), nsteps - 1;
    StepSizeBounds(size, nsteps);
    assert nsteps * step == last * step + step;
    if last * step <= size <= nsteps * step {
      forall idx: nat | idx < nsteps ensures ChunkTiles(size, nsteps, step, idx) {
        ChunkInside(size, nsteps, step, idx);
      }
    } else {
      LastChunkFails(size, nsteps, step);
    }
  }

  lemma ChunkInside(size: nat, nsteps: nat, step: nat, idx: nat)
    requires size < WORD && idx < nsteps && (nsteps - 1) * step <= size <= (nsteps - 1) * step + step
    ensures ChunkTiles(size, nsteps, step, idx)
  {
    MulGap(idx, nsteps - 1, step);
    assert (idx + 1) * step == idx * step + step;
    LengthInside(size, step, idx * step);
  }

  lemma LastChunkFails(size: nat, nsteps: nat, step: nat)
    requires 0 < nsteps < WORD && (step == 0 < size || size < (nsteps - 1) * step <= size + nsteps - 1 - step)
    ensures !ChunkTiles(size, nsteps, step, nsteps - 1)
  {
    var start := (nsteps - 1) * step;
    if step > 0 {
      LengthOutside(size, step, start);
    }
  }

  /** Buffers of at least (nsteps-1)^2 bytes are cut correctly, as long as the sum does not wrap. */
  lemma LargeBuffersTile(size: nat, nsteps: nat)
    requires nsteps > 0 && (nsteps - 1) * (nsteps - 1) <= size && size + nsteps - 1 < WORD
    ensures Tiles(size, nsteps)
  {
    var step, last := StepSize(size, nsteps), nsteps - 1;
    StepSizeBounds(size, nsteps);
    assert nsteps * step == last * step + step;
    assert last * step == step * last;
    MulGap(step, last, last);
    assert step <= last || last * step <= size;
    TilesIff(size, nsteps);
  }

  /** When it does wrap, no buffer is cut correctly. */
  lemma WrappedSumFails(size: nat, nsteps: nat)
    requires size < WORD && 0 < nsteps < WORD && size + nsteps - 1 >= WORD
    ensures !Tiles(size, nsteps)
  {
    StepSizeBounds(size, nsteps);
    TilesIff(size, nsteps);
  }

  /** With the default number of steps (nranks - 1), 400 ranks and 65537 bytes, the smallest size
      for which the ring is chosen by default, the last chunk is out of bounds. */
  lemma DefaultStepsOverrun()
    ensures !Tiles(65537, 399)
  {
    assert StepSize(65537, 399) == 165;
    TilesIff(65537, 399);
  }

  // ------------------------------------------------------- schedules

  datatype Piece = Piece(offset: nat, length: nat)

  function Chunk(size: nat, step: nat, idx: nat): Piece {
    Piece(idx * step, ChunkLength(size, step, idx))
  }

  /** What a rank does in a step: which part of the buffer it receives, which it sends. */
  datatype RingStep = RingStep(recv: Option<Piece>, send: Option<Piece>)

  function StepOf(n: nat, root: nat, rank: nat, size: nat, nsteps: nat, step: nat): RingStep
    requires n > 1 && rank < n && root < n && nsteps > 0
  {
    var stepSize := StepSize(size, nsteps);
    RingStep(if step < nsteps && rank != root then Some(Chunk(size, stepSize, step)) else None,
             if 0 < step <= nsteps && B.RightOf(n, rank, 1) != root then Some(Chunk(size, stepSize, step - 1))
             else None)
  }

  datatype Posting = Recv(peer: nat, piece: Piece) | Send(peer: nat, piece: Piece)

  function Listed<T>(o: Option<T>): seq<T> {
    if o.Some? then [o.value] else []
  }

  /** The operations of a step. */
  function Postings(n: nat, rank: nat, s: RingStep): (ops: seq<Posting>)
    requires n > 1 && rank < n
  {
    Listed(if s.recv.Some? then Some(Recv(B.LeftOf(n, rank, 1), s.recv.value)) else None)
    + Listed(if s.send.Some? then Some(Send(B.RightOf(n, rank, 1), s.send.value)) else None)
  }

  /** The nodes post these operations. */
  ghost predicate Posted(nodes: seq<nat>, posts: map<nat, Posting>, ops: seq<Posting>) {
    |nodes| == |ops| && forall i :: 0 <= i < |ops| ==> nodes[i] in posts && posts[nodes[i]] == ops[i]
  }

  ghost predicate Keeps(posts: map<nat, Posting>, posts': map<nat, Posting>) {
    forall v :: v in posts ==> v in posts' && posts'[v] == posts[v]
  }

  /** The root has no stage for step 0. */
  function Skipped(root: nat, rank: nat): nat {
    if rank == root then 1 else 0
  }

  ghost predicate StagesOk(n: nat, root: nat, rank: nat, size: nat, nsteps: nat, stages: seq<Stage>,
                           posts: map<nat, Posting>)
    requires n > 1 && rank < n && root < n && nsteps > 0
  {
    forall i :: 0 <= i < |stages| ==>
      Posted(stages[i].ops, posts, Postings(n, rank, StepOf(n, root, rank, size, nsteps, i + Skipped(root, rank))))
  }

  /** The graph before step number step. */
  ghost predicate SoFar(n: nat, root: nat, rank: nat, size: nat, nsteps: nat, step: nat, out: seq<seq<nat>>,
                        oldNode: nat, stages: seq<Stage>, posts: map<nat, Posting>)
    requires n > 1 && rank < n && root < n && nsteps > 0
  {
    && Growing(out, stages, oldNode) && (oldNode == G.END <==> step == nsteps + 1)
    && (if step == 0 then |stages| == 0 else |stages| + Skipped(root, rank) == step)
    && (forall v :: v in posts ==> v < |out|)
    && StagesOk(n, root, rank, size, nsteps, stages, posts)
  }

  /** build_graph_ring: one stage of the graph per step. */
  method BuildGraphRing(rank: nat, nranks: nat, root: nat, size: nat, nsteps: nat, graph: G.Builder)
    returns (stages: seq<Stage>, posts: map<nat, Posting>)
    requires nranks > 1 && rank < nranks && root < nranks && nsteps > 0 && graph.Valid() && graph.out == [[], []]
    modifies graph
    ensures graph.Valid() && Staged(graph.out, stages) && |stages| == nsteps + 1 - Skipped(root, rank)
    ensures StagesOk(nranks, root, rank, size, nsteps, stages, posts)
  {
    EmptyGrows();
    var peers := B.PeersOf(rank, nranks, 1);
    var right := peers.sendTo;
    var oldNode := G.START;
    stages, posts := [], map[];
    for step := 0 to nsteps + 1
      invariant graph.Valid() && SoFar(nranks, root, rank, size, nsteps, step, graph.out, oldNode, stages, posts)
    {
      if (step == 0 && rank == root) || (step == nsteps && right == root) {
        if step == nsteps {
          var st := AddLastEdge(graph, oldNode, nranks, root, rank, size, nsteps, stages, posts);
          stages, oldNode := stages + [st], st.target;
        }
        continue;
      }
      var recv, send := OpsOfStep(rank, nranks, root, size, nsteps, step, peers);
      var st, posts' := BuildStep(graph, oldNode, step == nsteps, recv, send, posts, stages);
      StepAdded(nranks, root, rank, size, nsteps, stages, posts, posts', st);
      stages, posts, oldNode := stages + [st], posts', st.target;
    }
  }

  /** What is received and what is sent in a step. */
  method OpsOfStep(rank: nat, nranks: nat, root: nat, size: nat, nsteps: nat, step: nat, peers: B.Peers)
    returns (recv: Option<Posting>, send: Option<Posting>)
    requires nranks > 1 && rank < nranks && root < nranks && nsteps > 0 && step <= nsteps
    requires peers == B.Peers(B.LeftOf(nranks, rank, 1), B.RightOf(nranks, rank, 1))
    ensures Postings(nranks, rank, StepOf(nranks, root, rank, size, nsteps, step)) == Listed(recv) + Listed(send)
    ensures recv.Some? || send.Some? <==> !(step == 0 && rank == root) && !(step == nsteps && peers.sendTo == root)
  {
    var stepSize := StepSize(size, nsteps);
    recv, send := None, None;
    if step != nsteps && rank != root {
      recv := Some(Recv(peers.recvFrom, Chunk(size, stepSize, step)));
    }
    if step != 0 && peers.sendTo != root {
      send := Some(Send(peers.sendTo, Chunk(size, stepSize, step - 1)));
    }
  }

  /** The nodes and edges of one step: its dummy node, unless it is the last, then its operations. */
  method BuildStep(graph: G.Builder, oldNode: nat, last: bool, recv: Option<Posting>, send: Option<Posting>,
                   posts: map<nat, Posting>, ghost stages: seq<Stage>)
    returns (st: Stage, posts': map<nat, Posting>)
    requires graph.Valid() && Growing(graph.out, stages, oldNode) && oldNode != G.END && (recv.Some? || send.Some?)
    requires forall v :: v in posts ==> v < |graph.out|
    modifies graph
    ensures graph.Valid() && (st.target == G.END <==> last)
    ensures Growing(graph.out, stages + [st], st.target)
    ensures forall v :: v in posts' ==> v < |graph.out|
    ensures Keeps(posts, posts') && Posted(st.ops, posts', Listed(recv) + Listed(send))
  {
    GrowsAt(graph.out, stages, oldNode);
    ghost var before := graph.out;
    var nextNode := G.END;
    if !last {
      nextNode := graph.AddNode();
    }
    assert graph.out == Fan(before, oldNode, [], 0, nextNode);
    var nodes;
    nodes, posts' := AddOp(graph, oldNode, nextNode, recv, [], posts, before, []);
    nodes, posts' := AddOp(graph, oldNode, nextNode, send, nodes, posts', before, Listed(recv));
    StageAdded(before, stages, oldNode, nodes, nextNode, graph.out);
    st := Stage(oldNode, nodes, nextNode);
  }

  /** graph_add_node_op and the two edges of the new node, if there is an operation. */
  method AddOp(graph: G.Builder, oldNode: nat, nextNode: nat, op: Option<Posting>, nodes: seq<nat>,
               posts: map<nat, Posting>, ghost before: seq<seq<nat>>, ghost ops: seq<Posting>)
    returns (nodes': seq<nat>, posts': map<nat, Posting>)
    requires graph.Valid() && oldNode < |before| && oldNode != G.END && Numbered(before, nodes, nextNode)
    requires graph.out == Fan(before, oldNode, nodes, |nodes|, nextNode) && G.START < nextNode < |graph.out|
    requires Posted(nodes, posts, ops) && forall v :: v in posts ==> v < |graph.out|
    modifies graph
    ensures graph.Valid() && Numbered(before, nodes', nextNode) && nextNode < |graph.out|
    ensures graph.out == Fan(before, oldNode, nodes', |nodes'|, nextNode)
    ensures Posted(nodes', posts', ops + Listed(op)) && forall v :: v in posts' ==> v < |graph.out|
    ensures Keeps(posts, posts')
  {
    nodes', posts' := nodes, posts;
    if op.Some? {
      FanGrows(before, oldNode, nodes, nextNode, |graph.out|);
      var node := graph.AddNode();
      graph.AddEdge(oldNode, node);
      graph.AddEdge(node, nextNode);
      nodes', posts' := nodes + [node], posts[node := op.value];
    }
  }

  /** The last step of the rank before the root: nothing is left to do. */
  method AddLastEdge(graph: G.Builder, oldNode: nat, n: nat, root: nat, rank: nat, size: nat, nsteps: nat,
                     ghost stages: seq<Stage>, ghost posts: map<nat, Posting>)
    returns (st: Stage)
    requires n > 1 && rank < n && rank != root && B.RightOf(n, rank, 1) == root && nsteps > 0 && graph.Valid()
    requires SoFar(n, root, rank, size, nsteps, nsteps, graph.out, oldNode, stages, posts)
    modifies graph
    ensures graph.Valid() && st.target == G.END
    ensures SoFar(n, root, rank, size, nsteps, nsteps + 1, graph.out, G.END, stages + [st], posts)
  {
    st := Stage(oldNode, [], G.END);
    LinkToEnd(graph, oldNode, stages);
    StepAdded(n, root, rank, size, nsteps, stages, posts, posts, st);
  }

  lemma StepAdded(n: nat, root: nat, rank: nat, size: nat, nsteps: nat, stages: seq<Stage>,
                  posts: map<nat, Posting>, posts': map<nat, Posting>, st: Stage)
    requires n > 1 && rank < n && root < n && nsteps > 0
    requires StagesOk(n, root, rank, size, nsteps, stages, posts) && Keeps(posts, posts')
    requires Posted(st.ops, posts',
                    Postings(n, rank, StepOf(n, root, rank, size, nsteps, |stages| + Skipped(root, rank))))
    ensures StagesOk(n, root, rank, size, nsteps, stages + [st], posts')
  {
    var stages' := stages + [st];
    forall i | 0 <= i < |stages'|
      ensures Posted(stages'[i].ops, posts',
                     Postings(n, rank, StepOf(n, root, rank, size, nsteps, i + Skipped(root, rank)))) {
      if i < |stages| {
        var ops := Postings(n, rank, StepOf(n, root, rank, size, nsteps, i + Skipped(root, rank)));
        assert Posted(stages[i].ops, posts, ops);
        assert forall k :: 0 <= k < |ops| ==> stages[i].ops[k] in posts;
      }
    }
  }

  /** In every run of a rank's graph, a chunk is sent on only when it was received. */
  lemma ForwardsAfterReceiving(n: nat, root: nat, rank: nat, size: nat, nsteps: nat, g: G.Graph, stages: seq<Stage>,
                               posts: map<nat, Posting>, s0: G.State, trace: seq<(nat, G.Choice)>, idx: nat)
    returns (u: nat, v: nat)
    requires n > 1 && rank < n && root < n && idx < nsteps && rank != root && B.RightOf(n, rank, 1) != root
    requires G.Built(g) && Staged(g.out, stages) && G.Initial(g, s0)
    requires |stages| == nsteps + 1 && StagesOk(n, root, rank, size, nsteps, stages, posts)
    ensures u in posts && posts[u] == Recv(B.LeftOf(n, rank, 1), Chunk(size, StepSize(size, nsteps), idx))
    ensures v in posts && posts[v] == Send(B.RightOf(n, rank, 1), Chunk(size, StepSize(size, nsteps), idx))
    ensures var s := G.Exec(g, s0, trace);
            && u < |s.h.phase| && v < |s.h.runs| && s.h.runs[v] <= 1
            && (s.h.runs[v] == 1 ==> Completed(s.h.phase[u]))
  {
    var recvs, sends := stages[idx].ops, stages[idx + 1].ops;
    assert Posted(recvs, posts, Postings(n, rank, StepOf(n, root, rank, size, nsteps, idx)));
    assert Posted(sends, posts, Postings(n, rank, StepOf(n, root, rank, size, nsteps, idx + 1)));
    u, v := recvs[0], sends[|sends| - 1];
    StagesRunInOrder(g, stages, s0, trace, idx, u, idx + 1, v);
  }

  // ------------------------------------------------------- the distributed run

  /** The peers of a step, read off its schedule. */
  function RingOp(n: nat, root: nat, r: nat, size: nat, nsteps: nat, i: nat): Op {
    if n > 1 && r < n && root < n && nsteps > 0 then
      var s := StepOf(n, root, r, size, nsteps, i);
      Op(if s.recv.Some? then Some(B.LeftOf(n, r, 1)) else None,
         if s.send.Some? then Some(B.RightOf(n, r, 1)) else None)
    else Op(None, None)
  }

  /** The bytes of chunk idx. */
  function Cut(v: seq<Byte>, size: nat, step: nat, idx: nat): seq<Byte> {
    var p := Chunk(size, step, idx);
    if |v| == size && p.offset + p.length <= size then v[p.offset..p.offset + p.length] else []
  }

  /** Writing chunk idx. */
  function Paste(v: seq<Byte>, size: nat, step: nat, idx: nat, m: seq<Byte>): seq<Byte> {
    var p := Chunk(size, step, idx);
    if |v| == size && |m| == p.length && p.offset + p.length <= size
    then v[..p.offset] + m + v[p.offset + p.length..] else v
  }

  function Ring(n: nat, root: nat, nsteps: nat, data: seq<Byte>, blank: nat -> seq<Byte>, eager: bool)
    : Sys<seq<Byte>, seq<Byte>>
    requires n > 1 && root < n && nsteps > 0
  {
    var step := StepSize(|data|, nsteps);
    Sys(n, _ => nsteps + 1, (r: nat) => if r < n then Dist(n, root, r) else 0,
        (r: nat, i: nat) => RingOp(n, root, r, |data|, nsteps, i),
        (r: nat) => if r == root then data else blank(r),
        (r: nat, i: nat, v: seq<Byte>) => if i > 0 then Cut(v, |data|, step, i - 1) else [],
        (r: nat, i: nat, v: seq<Byte>, m: seq<Byte>) => Paste(v, |data|, step, i, m), eager)
  }

  lemma PieceInside(size: nat, nsteps: nat, idx: nat)
    requires nsteps > 0 && Tiles(size, nsteps) && idx < nsteps
    ensures var p := Chunk(size, StepSize(size, nsteps), idx); p.offset + p.length <= size
  {
    assert ChunkTiles(size, nsteps, StepSize(size, nsteps), idx);
  }

  /** What a step of the distributed run sends is the piece that the rank's graph posts in that step. */
  lemma PieceSent(n: nat, root: nat, nsteps: nat, data: seq<Byte>, blank: nat -> seq<Byte>, eager: bool, r: nat,
                  i: nat, v: seq<Byte>)
    requires n > 1 && root < n && r < n && nsteps > 0 && Tiles(|data|, nsteps) && |v| == |data|
    ensures var sys, send := Ring(n, root, nsteps, data, blank, eager), StepOf(n, root, r, |data|, nsteps, i).send;
            && (sys.op(r, i).sendTo.Some? <==> send.Some?)
            && (send.Some? ==>
                  && send.value.offset + send.value.length <= |v|
                  && sys.payload(r, i, v) == v[send.value.offset..send.value.offset + send.value.length])
  {
    if 0 < i <= nsteps {
      PieceInside(|data|, nsteps, i - 1);
    }
  }

  /** Where it puts what it receives is the piece whose receive the graph posts. */
  lemma PieceReceived(n: nat, root: nat, nsteps: nat, data: seq<Byte>, blank: nat -> seq<Byte>, eager: bool, r: nat,
                      i: nat, v: seq<Byte>, m: seq<Byte>)
    requires n > 1 && root < n && r < n && nsteps > 0 && Tiles(|data|, nsteps) && |v| == |data|
    ensures var sys, recv := Ring(n, root, nsteps, data, blank, eager), StepOf(n, root, r, |data|, nsteps, i).recv;
            && (sys.op(r, i).recvFrom.Some? <==> recv.Some?)
            && (recv.Some? && |m| == recv.value.length ==>
                  && recv.value.offset + |m| <= |v|
                  && sys.absorb(r, i, v, m) == v[..recv.value.offset] + m + v[recv.value.offset + |m|..])
  {
    if i < nsteps {
      PieceInside(|data|, nsteps, i);
    }
  }

  /** Receiving chunk i leaves chunk i-1 alone. */
  lemma PasteKeeps(v: seq<Byte>, size: nat, step: nat, idx: nat, m: seq<Byte>, k: nat)
    requires k < idx
    ensures Cut(Paste(v, size, step, idx, m), size, step, k) == Cut(v, size, step, k)
  {
    MulGap(k, idx, step);
  }

  lemma PasteSets(v: seq<Byte>, size: nat, step: nat, idx: nat, m: seq<Byte>)
    requires |v| == size && |m| == ChunkLength(size, step, idx) && idx * step + |m| <= size
    ensures |Paste(v, size, step, idx, m)| == size && Cut(Paste(v, size, step, idx, m), size, step, idx) == m
  {
  }

  lemma PasteBoth(v: seq<Byte>, size: nat, step: nat, idx: nat, m: seq<Byte>, k: nat)
    requires |v| == size && |m| == ChunkLength(size, step, idx) && idx * step + |m| <= size && k <= idx
    ensures |Paste(v, size, step, idx, m)| == size
    ensures Cut(Paste(v, size, step, idx, m), size, step, k) == if k == idx then m else Cut(v, size, step, k)
  {
    PasteSets(v, size, step, idx, m);
    if k < idx { PasteKeeps(v, size, step, idx, m, k); }
  }

  lemma RingPairs(n: nat, root: nat, nsteps: nat, data: seq<Byte>, blank: nat -> seq<Byte>, eager: bool)
    requires n > 1 && root < n && nsteps > 0
    ensures WellPaired(Ring(n, root, nsteps, data, blank, eager))
  {
    var sys := Ring(n, root, nsteps, data, blank, eager);
    var step := StepSize(|data|, nsteps);
    forall r: nat, i: nat | r < sys.n && i < sys.length(r)
      ensures SendPaired(sys, r, i) && RecvPaired(sys, r, i) && Independent(sys, r, i) {
      RingPairsAt(n, root, nsteps, data, blank, eager, r, i);
      if i > 0 {
        forall v: seq<Byte>, m: seq<Byte> ensures sys.payload(r, i, sys.absorb(r, i, v, m)) == sys.payload(r, i, v) {
          PasteKeeps(v, |data|, step, i, m, i - 1);
        }
      }
    }
  }

  lemma RingPairsAt(n: nat, root: nat, nsteps: nat, data: seq<Byte>, blank: nat -> seq<Byte>, eager: bool, r: nat,
                    i: nat)
    requires n > 1 && root < n && nsteps > 0 && r < n && i <= nsteps
    ensures var sys := Ring(n, root, nsteps, data, blank, eager); SendPaired(sys, r, i) && RecvPaired(sys, r, i)
  {
    var sys := Ring(n, root, nsteps, data, blank, eager);
    var a, b := B.LeftOf(n, r, 1), B.RightOf(n, r, 1);
    assert sys.op(r, i) == RingOp(n, root, r, |data|, nsteps, i);
    if r != root && i < nsteps {
      assert sys.op(a, i + 1) == RingOp(n, root, a, |data|, nsteps, i + 1);
      assert Dist(n, root, a) + 1 == Dist(n, root, r);
    }
    if b != root && i > 0 {
      assert sys.op(b, i - 1) == RingOp(n, root, b, |data|, nsteps, i - 1);
      assert Dist(n, root, r) + 1 == Dist(n, root, b);
    }
  }

  /** The chunk that a byte lies in. */
  lemma ChunkOf(size: nat, nsteps: nat, step: nat, p: nat) returns (idx: nat)
    requires nsteps > 0 && p < size && forall idx: nat :: idx < nsteps ==> ChunkTiles(size, nsteps, step, idx)
    ensures idx < nsteps && ChunkTiles(size, nsteps, step, idx)
    ensures idx * step <= p < idx * step + ChunkLength(size, step, idx)
  {
    assert ChunkTiles(size, nsteps, step, nsteps - 1);
    idx := StepOfByte(size, nsteps, step, p);
    assert ChunkTiles(size, nsteps, step, idx);
  }

  lemma StepOfByte(size: nat, nsteps: nat, step: nat, p: nat) returns (idx: nat)
    requires nsteps > 0 && p < size <= (nsteps - 1) * step + step
    ensures idx < nsteps && idx * step <= p < (idx + 1) * step
  {
    assert nsteps * step == (nsteps - 1) * step + step;
    assert step > 0;
    idx := p / step;
    DivMod(p, step);
    assert (idx + 1) * step == idx * step + step;
    assert idx < nsteps by { MulGap(nsteps, idx, step); }
  }

  /** Two buffers that agree on all chunks of a tiling are equal. */
  lemma ChunksDetermine(v: seq<Byte>, w: seq<Byte>, nsteps: nat)
    requires nsteps > 0 && |v| == |w| && Tiles(|v|, nsteps)
    requires forall k: nat :: k < nsteps ==>
               Cut(v, |v|, StepSize(|v|, nsteps), k) == Cut(w, |v|, StepSize(|v|, nsteps), k)
    ensures v == w
  {
    var size, step := |v|, StepSize(|v|, nsteps);
    forall p | 0 <= p < size ensures v[p] == w[p] {
      var idx := ChunkOf(size, nsteps, step, p);
      assert v[p] == Cut(v, size, step, idx)[p - idx * step];
      assert w[p] == Cut(w, size, step, idx)[p - idx * step];
    }
  }

  /** What round i of rank r does in the ring, spelled out. */
  lemma RingRound(n: nat, root: nat, nsteps: nat, data: seq<Byte>, blank: nat -> seq<Byte>, eager: bool, r: nat, i: nat)
    requires n > 1 && root < n && nsteps > 0 && r < n && i <= nsteps
    ensures var sys, a := Ring(n, root, nsteps, data, blank, eager), B.LeftOf(n, r, 1);
            && sys.n == n && sys.length(r) == nsteps + 1
            && sys.op(r, i).recvFrom == (if r == root || i == nsteps then None else Some(a))
            && (r != root ==> Dist(n, root, a) + 1 == Dist(n, root, r) && Time(sys, r, i) - sys.offset(a) == i + 1)
  {
    var sys := Ring(n, root, nsteps, data, blank, eager);
    assert sys.op(r, i) == RingOp(n, root, r, |data|, nsteps, i);
  }

  lemma RingBytes(n: nat, root: nat, nsteps: nat, data: seq<Byte>, blank: nat -> seq<Byte>, eager: bool, r: nat,
                  a: nat, i: nat, v: seq<Byte>, w: seq<Byte>)
    requires n > 1 && root < n && nsteps > 0
    ensures var sys, step := Ring(n, root, nsteps, data, blank, eager), StepSize(|data|, nsteps);
            sys.absorb(r, i, v, sys.payload(a, i + 1, w)) == Paste(v, |data|, step, i, Cut(w, |data|, step, i))
  {
  }

  /** A step of a rank: it keeps its bytes, or writes the chunk that its left neighbour had. */
  lemma RingStepValue(n: nat, root: nat, nsteps: nat, data: seq<Byte>, blank: nat -> seq<Byte>, eager: bool, r: nat,
                      i: nat)
    requires n > 1 && root < n && nsteps > 0 && WellPaired(Ring(n, root, nsteps, data, blank, eager))
    requires r < n && i <= nsteps
    ensures var sys, step, a := Ring(n, root, nsteps, data, blank, eager), StepSize(|data|, nsteps), B.LeftOf(n, r, 1);
            if r == root || i == nsteps then Val(sys, r, i + 1) == Val(sys, r, i)
            else Dist(n, root, a) + 1 == Dist(n, root, r)
                 && Val(sys, r, i + 1)
                 == Paste(Val(sys, r, i), |data|, step, i, Cut(Val(sys, a, i + 1), |data|, step, i))
  {
    var sys, a := Ring(n, root, nsteps, data, blank, eager), B.LeftOf(n, r, 1);
    RingRound(n, root, nsteps, data, blank, eager, r, i);
    TakesStep(sys, r, i, a);
    if r != root && i < nsteps {
      RingBytes(n, root, nsteps, data, blank, eager, r, a, i, Val(sys, r, i), Val(sys, a, i + 1));
    }
  }

  lemma TakesStep(sys: Sys<seq<Byte>, seq<Byte>>, r: nat, i: nat, a: nat)
    requires WellPaired(sys) && r < sys.n && i < sys.length(r)
    requires sys.op(r, i).recvFrom == None
             || (sys.op(r, i).recvFrom == Some(a) && Time(sys, r, i) - sys.offset(a) == i + 1)
    ensures sys.op(r, i).recvFrom == None ==> Val(sys, r, i + 1) == Val(sys, r, i)
    ensures sys.op(r, i).recvFrom == Some(a) ==>
              a < sys.n && i + 1 < sys.length(a)
              && Val(sys, r, i + 1) == sys.absorb(r, i, Val(sys, r, i), sys.payload(a, i + 1, Val(sys, a, i + 1)))
  {
    RoundsProof.ValStep(sys, r, i);
  }

  /** The values of a ring run, its chunks and how a received chunk is written, as plain functions. */
  datatype Relay = Relay(val: (nat, nat) -> seq<Byte>, cut: (seq<Byte>, nat) -> seq<Byte>,
                         paste: (seq<Byte>, nat, seq<Byte>) -> seq<Byte>)

  ghost predicate RelayStep(x: Relay, n: nat, root: nat, nsteps: nat, r: nat, i: nat)
    requires n > 1 && root < n && r < n
  {
    var a := B.LeftOf(n, r, 1);
    if r == root || i == nsteps then x.val(r, i + 1) == x.val(r, i)
    else Dist(n, root, a) + 1 == Dist(n, root, r)
         && x.val(r, i + 1) == x.paste(x.val(r, i), i, x.cut(x.val(a, i + 1), i))
  }

  ghost predicate PasteStep(x: Relay, data: seq<Byte>, v: seq<Byte>, idx: nat, k: nat) {
    |v| == |data| && k <= idx ==>
      var w := x.paste(v, idx, x.cut(data, idx));
      |w| == |data| && x.cut(w, k) == if k == idx then x.cut(data, idx) else x.cut(v, k)
  }

  ghost predicate Relays(x: Relay, n: nat, root: nat, nsteps: nat, data: seq<Byte>)
    requires n > 1 && root < n
  {
    && (forall r: nat, i: nat :: r < n && i <= nsteps ==> RelayStep(x, n, root, nsteps, r, i))
    && (forall v: seq<Byte>, idx: nat, k: nat :: idx < nsteps ==> PasteStep(x, data, v, idx, k))
    && (forall r: nat :: |x.val(r, 0)| == |data|)
    && x.val(root, 0) == data
  }

  /** A rank that has made i steps has the root's chunks 0 .. i-1; the root has them all. */
  lemma {:induction false} RelayChunk(x: Relay, n: nat, root: nat, nsteps: nat, data: seq<Byte>, r: nat, i: nat, k: nat)
    requires n > 1 && root < n && Relays(x, n, root, nsteps, data) && r < n && i <= nsteps + 1
    ensures |x.val(r, i)| == |data| && (r == root ==> x.val(r, i) == data)
    ensures k < nsteps && k < i ==> x.cut(x.val(r, i), k) == x.cut(data, k)
    decreases i + Dist(n, root, r)
  {
    if i > 0 {
      RelayChunk(x, n, root, nsteps, data, r, i - 1, k);
      assert RelayStep(x, n, root, nsteps, r, i - 1);
      if r != root && i - 1 < nsteps {
        RelayChunk(x, n, root, nsteps, data, B.LeftOf(n, r, 1), i, i - 1);
        assert PasteStep(x, data, x.val(r, i - 1), i - 1, if k < i then k else 0);
      }
    }
  }

  ghost function RingRelay(n: nat, root: nat, nsteps: nat, data: seq<Byte>, blank: nat -> seq<Byte>, eager: bool): Relay
    requires n > 1 && root < n && nsteps > 0
  {
    var step := StepSize(|data|, nsteps);
    Relay((r: nat, i: nat) => RingVal(n, root, nsteps, data, blank, eager, r, i),
          (v: seq<Byte>, k: nat) => Cut(v, |data|, step, k),
          (v: seq<Byte>, k: nat, m: seq<Byte>) => Paste(v, |data|, step, k, m))
  }

  ghost function RingVal(n: nat, root: nat, nsteps: nat, data: seq<Byte>, blank: nat -> seq<Byte>, eager: bool, r: nat,
                         i: nat): seq<Byte>
    requires n > 1 && root < n && nsteps > 0
  {
    var sys := Ring(n, root, nsteps, data, blank, eager);
    if WellPaired(sys) && r < n && i <= nsteps + 1 then Val(sys, r, i) else data
  }

  lemma PasteChunk(data: seq<Byte>, nsteps: nat, v: seq<Byte>, idx: nat, k: nat)
    requires nsteps > 0 && Tiles(|data|, nsteps) && |v| == |data| && k <= idx < nsteps
    ensures var step := StepSize(|data|, nsteps);
            var w := Paste(v, |data|, step, idx, Cut(data, |data|, step, idx));
            && |w| == |data|
            && Cut(w, |data|, step, k) == if k == idx then Cut(data, |data|, step, idx) else Cut(v, |data|, step, k)
  {
    var step := StepSize(|data|, nsteps);
    assert ChunkTiles(|data|, nsteps, step, idx);
    PasteBoth(v, |data|, step, idx, Cut(data, |data|, step, idx), k);
  }

  lemma RingRelays(n: nat, root: nat, nsteps: nat, data: seq<Byte>, blank: nat -> seq<Byte>, eager: bool, r: nat,
                   i: nat)
    requires n > 1 && root < n && nsteps > 0 && r < n && i <= nsteps
    requires WellPaired(Ring(n, root, nsteps, data, blank, eager))
    ensures RelayStep(RingRelay(n, root, nsteps, data, blank, eager), n, root, nsteps, r, i)
  {
    RingStepValue(n, root, nsteps, data, blank, eager, r, i);
  }

  lemma RingPastes(n: nat, root: nat, nsteps: nat, data: seq<Byte>, blank: nat -> seq<Byte>, eager: bool, v: seq<Byte>,
                   idx: nat, k: nat)
    requires n > 1 && root < n && nsteps > 0 && Tiles(|data|, nsteps) && idx < nsteps
    ensures PasteStep(RingRelay(n, root, nsteps, data, blank, eager), data, v, idx, k)
  {
    if |v| == |data| && k <= idx {
      PasteChunk(data, nsteps, v, idx, k);
    }
  }

  lemma RingIsRelay(n: nat, root: nat, nsteps: nat, data: seq<Byte>, blank: nat -> seq<Byte>, eager: bool)
    requires n > 1 && root < n && nsteps > 0 && Tiles(|data|, nsteps)
    requires forall u: nat :: |blank(u)| == |data|
    requires WellPaired(Ring(n, root, nsteps, data, blank, eager))
    ensures Relays(RingRelay(n, root, nsteps, data, blank, eager), n, root, nsteps, data)
  {
    var x := RingRelay(n, root, nsteps, data, blank, eager);
    forall r: nat, i: nat | r < n && i <= nsteps ensures RelayStep(x, n, root, nsteps, r, i) {
      RingRelays(n, root, nsteps, data, blank, eager, r, i);
    }
    forall v: seq<Byte>, idx: nat, k: nat | idx < nsteps ensures PasteStep(x, data, v, idx, k) {
      RingPastes(n, root, nsteps, data, blank, eager, v, idx, k);
    }
  }

  /** In every run, a rank that has finished holds the root's bytes, and the run cannot get stuck. */
  lemma RingDelivers(n: nat, root: nat, nsteps: nat, data: seq<Byte>, blank: nat -> seq<Byte>, eager: bool,
                     s0: State<seq<Byte>, seq<Byte>>, trace: seq<(nat, Move)>, r: nat)
    returns (u: nat, move: Move)
    requires n > 1 && root < n && r < n && 0 < nsteps < WORD && |data| < WORD
    requires (nsteps - 1) * StepSize(|data|, nsteps) <= |data| <= nsteps * StepSize(|data|, nsteps)
    requires forall u: nat :: |blank(u)| == |data|
    requires Init(Ring(n, root, nsteps, data, blank, eager), s0)
    ensures var sys := Ring(n, root, nsteps, data, blank, eager);
            var s := Exec(sys, s0, trace);
            && r < |s.ranks|
            && (s.ranks[r].pc == nsteps + 1 ==> s.ranks[r].v == data)
            && (RoundsProof.Finished(sys, s) || Enabled(sys, s, u, move))
  {
    var sys := Ring(n, root, nsteps, data, blank, eager);
    TilesIff(|data|, nsteps);
    RingPairs(n, root, nsteps, data, blank, eager);
    RoundsProof.Determined(sys, s0, trace, r);
    RingFinal(n, root, nsteps, data, blank, eager, r);
    u, move := 0, Enter;
    if !RoundsProof.Finished(sys, Exec(sys, s0, trace)) { u, move := RoundsProof.NeverStuck(sys, s0, trace); }
  }

  lemma RingFinal(n: nat, root: nat, nsteps: nat, data: seq<Byte>, blank: nat -> seq<Byte>, eager: bool, r: nat)
    requires n > 1 && root < n && nsteps > 0 && Tiles(|data|, nsteps) && r < n
    requires forall u: nat :: |blank(u)| == |data|
    requires WellPaired(Ring(n, root, nsteps, data, blank, eager))
    ensures Val(Ring(n, root, nsteps, data, blank, eager), r, nsteps + 1) == data
  {
    var x := RingRelay(n, root, nsteps, data, blank, eager);
    var v := Val(Ring(n, root, nsteps, data, blank, eager), r, nsteps + 1);
    RingIsRelay(n, root, nsteps, data, blank, eager);
    RelayChunk(x, n, root, nsteps, data, r, nsteps + 1, 0);
    forall k: nat | k < nsteps
      ensures Cut(v, |v|, StepSize(|v|, nsteps), k) == Cut(data, |v|, StepSize(|v|, nsteps), k) {
      RelayChunk(x, n, root, nsteps, data, r, nsteps + 1, k);
    }
    ChunksDetermine(v, data, nsteps);
  }
}
