/** The completion graph: a dataflow executor with per-node signal counters (src/comp/graph.hpp).
    Any number of threads run nested trigger_node / mark_complete calls; one step is one atomic
    update of the shared counters, one comparison, one node callback or one return. */
module CompletionGraph {

  const START: nat := 0
  const END: nat := 1

  /** out[u] lists the targets of u's edges in the order they were added; a target may repeat.
      expected[v] is signals_expected of v, and m_end_signals_expected for END.
      deletes says that the graph was given a completion object (m_comp is not empty). */
  datatype Graph = Graph(out: seq<seq<nat>>, expected: seq<nat>, deletes: bool)

  /** Run(v): trigger_node(v) is about to call the node's function.
      Returned(v): the function has posted the node, and trigger_node(v) is about to return; in a debug
      build it first reads the node for its log.
      Mark(u, next, completed): mark_complete(u) is about to process out-edge number next. */
  datatype Frame = Run(node: nat) | Returned(node: nat) | Mark(node: nat, next: nat, completed: bool)

  /** Where a node stands in the current run; (t, k) is the frame that works on it. */
  datatype Phase = Waiting | Running(t: nat, k: nat) | Posted | Marking(t: nat, k: nat) | Done

  /** What happened since the last start: the phase of every node, how many of its out-edges were
      processed, how often its function was called, and the frame that sent the last END signal. */
  datatype History = History(phase: seq<Phase>, sent: seq<nat>, runs: seq<nat>, winner: (nat, nat))

  /** comparing holds the threads that have raised a counter and not yet read the count to compare with.
      What the comparison will say is known from the moment of the signal, so the stacks show it already. */
  datatype State = State(received: seq<nat>, pending: set<nat>, started: bool, deletions: nat,
                         threads: seq<seq<Frame>>, comparing: set<nat>, h: History)

  /** What a thread does next. Call(done) is the node function returning done or posted;
      Complete(v) is the completion of a posted node, from whatever the thread is doing. */
  datatype Choice = Start | Signal | Compare | Call(done: bool) | Complete(node: nat) | Exit

  // ------------------------------------------------------- counting edges

  function Count(s: seq<nat>, v: nat): nat {
    if s == [] then 0 else Count(s[..|s| - 1], v) + if s[|s| - 1] == v then 1 else 0
  }

  predicate Within(out: seq<seq<nat>>, sent: seq<nat>) {
    |sent| == |out| && forall u :: 0 <= u < |out| ==> sent[u] <= |out[u]|
  }

  /** Signals that reached v from the first n nodes. */
  function Arrived(out: seq<seq<nat>>, sent: seq<nat>, v: nat, n: nat): nat
    requires Within(out, sent) && n <= |out|
  {
    if n == 0 then 0 else Arrived(out, sent, v, n - 1) + Count(out[n - 1][..sent[n - 1]], v)
  }

  function All(out: seq<seq<nat>>): (all: seq<nat>)
    ensures Within(out, all) && forall u :: 0 <= u < |out| ==> all[u] == |out[u]|
  {
    seq(|out|, u requires 0 <= u < |out| => |out[u]|)
  }

  function InDegree(out: seq<seq<nat>>, v: nat): nat {
    Arrived(out, All(out), v, |out|)
  }

  lemma {:induction false} CountPrefix(s: seq<nat>, i: nat, v: nat)
    requires i <= |s|
    ensures Count(s[..i], v) <= Count(s, v)
    ensures forall j :: i <= j < |s| && s[j] == v ==> Count(s[..i], v) < Count(s, v)
    ensures (forall j :: i <= j < |s| ==> s[j] != v) ==> Count(s[..i], v) == Count(s, v)
    decreases |s|
  {
    if i == |s| {
      assert s[..i] == s;
    } else {
      var front := s[..|s| - 1];
      CountPrefix(front, i, v);
      assert front[..i] == s[..i];
    }
  }

  lemma CountNext(s: seq<nat>, i: nat, v: nat)
    requires i < |s|
    ensures Count(s[..i + 1], v) == Count(s[..i], v) + if s[i] == v then 1 else 0
  {
    assert s[..i + 1][..i] == s[..i];
  }

  lemma {:induction false} ArrivedNext(out: seq<seq<nat>>, sent: seq<nat>, u: nat, v: nat, n: nat)
    requires Within(out, sent) && n <= |out| && u < |out| && sent[u] < |out[u]|
    ensures Arrived(out, sent[u := sent[u] + 1], v, n)
         == Arrived(out, sent, v, n) + if u < n && out[u][sent[u]] == v then 1 else 0
  {
    if n > 0 {
      ArrivedNext(out, sent, u, v, n - 1);
      if n - 1 == u {
        CountNext(out[u], sent[u], v);
      }
    }
  }

  /** The edge j of u goes to v and was not processed yet. */
  predicate Unsent(out: seq<seq<nat>>, sent: seq<nat>, u: nat, j: nat, v: nat)
    requires Within(out, sent)
  {
    u < |out| && sent[u] <= j < |out[u]| && out[u][j] == v
  }

  lemma {:induction false} ArrivedCompares(out: seq<seq<nat>>, sent: seq<nat>, v: nat, n: nat)
    requires Within(out, sent) && n <= |out|
    ensures Arrived(out, sent, v, n) <= Arrived(out, All(out), v, n)
    ensures Arrived(out, sent, v, n) == Arrived(out, All(out), v, n)
            <==> (forall u: nat, j: nat :: u < n ==> !Unsent(out, sent, u, j, v))
  {
    if n > 0 {
      ArrivedCompares(out, sent, v, n - 1);
      var s, i := out[n - 1], sent[n - 1];
      CountPrefix(s, i, v);
      assert s[..|s|] == s;
      forall j | i <= j < |s| && s[j] == v ensures Unsent(out, sent, n - 1, j, v) {
      }
    }
  }

  lemma {:induction false} NoneArrived(out: seq<seq<nat>>, sent: seq<nat>, v: nat, n: nat)
    requires Within(out, sent) && n <= |out| && forall u :: 0 <= u < |out| ==> sent[u] == 0
    ensures Arrived(out, sent, v, n) == 0
  {
    if n > 0 {
      NoneArrived(out, sent, v, n - 1);
    }
  }

  // ------------------------------------------------------- building the graph

  predicate WellFormed(out: seq<seq<nat>>) {
    && |out| >= 2
    && out[END] == []
    && (forall u, j :: 0 <= u < |out| && 0 <= j < |out[u]| ==> START < out[u][j] < |out|)
  }

  ghost predicate Built(g: Graph) {
    && WellFormed(g.out)
    && |g.expected| == |g.out|
    && (forall v :: 0 <= v < |g.out| ==> g.expected[v] == InDegree(g.out, v))
  }

  function AddTo(out: seq<seq<nat>>, src: nat, dst: nat): seq<seq<nat>>
    requires src < |out|
  {
    out[src := out[src] + [dst]]
  }

  lemma {:induction false} ArrivedAddEdge(out: seq<seq<nat>>, src: nat, dst: nat, v: nat, n: nat)
    requires src < |out| && n <= |out|
    ensures Arrived(AddTo(out, src, dst), All(AddTo(out, src, dst)), v, n)
         == Arrived(out, All(out), v, n) + if src < n && dst == v then 1 else 0
  {
    if n > 0 {
      ArrivedAddEdge(out, src, dst, v, n - 1);
      var s, s' := out[n - 1], AddTo(out, src, dst)[n - 1];
      assert s[..|s|] == s && s'[..|s'|] == s';
      if n - 1 == src {
        assert s'[..|s|] == s;
      }
    }
  }

  lemma {:induction false} ArrivedAddNode(out: seq<seq<nat>>, v: nat, n: nat)
    requires n <= |out|
    ensures Arrived(out + [[]], All(out + [[]]), v, n) == Arrived(out, All(out), v, n)
  {
    if n > 0 {
      ArrivedAddNode(out, v, n - 1);
      var s := out[n - 1];
      assert s[..|s|] == s && (out + [[]])[n - 1] == s;
    }
  }

  lemma {:induction false} NoEdgeTo(out: seq<seq<nat>>, v: nat, n: nat)
    requires WellFormed(out) && n <= |out| && (v >= |out| || v == START)
    ensures Arrived(out, All(out), v, n) == 0
  {
    if n > 0 {
      NoEdgeTo(out, v, n - 1);
      var s := out[n - 1];
      CountPrefix(s, 0, v);
      assert s[..|s|] == s;
    }
  }

  /** graph_t while it is being built. */
  class Builder {
    var out: seq<seq<nat>>
    var expected: seq<nat>
    const deletes: bool

    ghost predicate Valid()
      reads this
    {
      Built(Graph(out, expected, deletes))
    }

    constructor (deletes: bool)
      ensures Valid() && out == [[], []] && this.deletes == deletes
    {
      out, expected := [[], []], [0, 0];
      this.deletes := deletes;
      new;
      NoEdgeTo(out, START, 2);
      NoEdges(2);
    }

    lemma NoEdges(n: nat)
      requires out == [[], []] && n <= 2
      ensures Arrived(out, All(out), END, n) == 0
    {
      if n > 0 {
        NoEdges(n - 1);
      }
    }

    /** graph_t::add_node */
    method AddNode() returns (node: nat)
      requires Valid()
      modifies this
      ensures Valid() && node == old(|out|) && out == old(out) + [[]]
    {
      node := |out|;
      ghost var before := out;
      out, expected := out + [[]], expected + [0];
      forall v | 0 <= v < |out| ensures expected[v] == InDegree(out, v) {
        ArrivedAddNode(before, v, |before|);
        if v == node {
          NoEdgeTo(before, v, |before|);
        }
      }
    }

    /** graph_t::add_edge; its two assertions are the second precondition. */
    method AddEdge(src: nat, dst: nat)
      requires Valid() && src < |out| && dst < |out|
      requires dst != START && src != END
      modifies this
      ensures Valid() && out == AddTo(old(out), src, dst)
    {
      ghost var before := out;
      out := out[src := out[src] + [dst]];
      expected := expected[dst := expected[dst] + 1];
      forall v | 0 <= v < |out| ensures expected[v] == InDegree(out, v) {
        ArrivedAddEdge(before, src, dst, v, |before|);
      }
    }
  }

  // ------------------------------------------------------- the steps

  function Zeros(n: nat): seq<nat> {
    seq(n, _ => 0)
  }

  predicate Test(g: Graph, s: State)
    requires |s.received| == |g.expected| >= 2
  {
    s.received[END] == g.expected[END]
  }

  predicate HasFrame(threads: seq<seq<Frame>>, t: nat, k: nat) {
    t < |threads| && k < |threads[t]|
  }

  predicate Busy(s: State, t: nat) {
    t < |s.threads| && s.threads[t] != []
  }

  function Top(s: State, t: nat): Frame
    requires Busy(s, t)
  {
    s.threads[t][|s.threads[t]| - 1]
  }

  function SetTop(s: State, t: nat, f: Frame): seq<seq<Frame>>
    requires Busy(s, t)
  {
    s.threads[t := s.threads[t][|s.threads[t]| - 1 := f]]
  }

  function Push(threads: seq<seq<Frame>>, t: nat, f: Frame): seq<seq<Frame>>
    requires t < |threads|
  {
    threads[t := threads[t] + [f]]
  }

  function Pop(s: State, t: nat): seq<seq<Frame>>
    requires Busy(s, t)
  {
    s.threads[t := s.threads[t][..|s.threads[t]| - 1]]
  }

  /** The arrays have one entry per node. */
  ghost predicate Shaped(g: Graph, s: State) {
    && WellFormed(g.out)
    && |s.received| == |g.out| == |g.expected| == |s.h.phase| == |s.h.runs|
    && Within(g.out, s.h.sent)
    && (forall t: nat, k: nat :: HasFrame(s.threads, t, k) ==> s.threads[t][k].node < |g.out|)
    && (forall v :: v in s.pending ==> v < |g.out|)
  }

  /** The call has nothing left to do but to return. */
  predicate Past(g: Graph, f: Frame)
    requires f.node < |g.out|
  {
    f.Returned? || (f.Mark? && f.next >= |g.out[f.node]|)
  }

  /** A start is legal before the first run and, on a graph that is kept, whenever test reports done. */
  predicate Enabled(g: Graph, s: State, t: nat, c: Choice)
    requires Shaped(g, s)
  {
    (c == Compare <==> t in s.comparing) &&
    match c
    case Compare => t < |s.threads|
    case Start => t < |s.threads| && (!s.started || (!g.deletes && Test(g, s)))
    case Signal => Busy(s, t) && Top(s, t).Mark? && Top(s, t).next < |g.out[Top(s, t).node]|
    case Call(_) => Busy(s, t) && Top(s, t).Run?
    case Complete(v) => t < |s.threads| && v in s.pending
    case Exit => Busy(s, t) && Past(g, Top(s, t))
  }

  /** start: reset the END counter, then mark_complete(START). */
  function DoStart(g: Graph, s: State, t: nat): (s': State)
    requires Shaped(g, s) && t < |s.threads|
    ensures Shaped(g, s') && |s'.threads| == |s.threads|
  {
    var n, k := |g.out|, |s.threads[t]|;
    s.(received := s.received[END := 0], started := true,
       threads := Push(s.threads, t, Mark(START, 0, false)),
       h := History(seq(n, v => if v == START then Settle(g, v, 0, t, k) else Waiting), Zeros(n), Zeros(n), s.h.winner))
  }

  /** The phase of a node whose mark_complete call has i edges behind it. */
  function Settle(g: Graph, v: nat, i: nat, t: nat, k: nat): Phase {
    if v < |g.out| && i < |g.out[v]| then Marking(t, k) else Done
  }

  /** One edge of mark_complete: fetch_add on the target's counter, and what the comparison will decide. */
  function DoSignal(g: Graph, s: State, t: nat): (s': State)
    requires Shaped(g, s) && Enabled(g, s, t, Signal)
    ensures Shaped(g, s') && |s'.threads| == |s.threads|
  {
    var Mark(u, i, completed) := Top(s, t);
    var k := |s.threads[t]|;
    var v := g.out[u][i];
    var signals := s.received[v] + 1;
    var received := s.received[v := signals];
    var phase := s.h.phase[u := Settle(g, u, i + 1, t, k - 1)];
    var h := s.h.(phase := phase, sent := s.h.sent[u := i + 1]);
    var s := s.(comparing := s.comparing + {t});
    if signals != g.expected[v] then
      s.(received := received, threads := SetTop(s, t, Mark(u, i + 1, completed)), h := h)
    else if v == END then
      s.(received := received, threads := SetTop(s, t, Mark(u, i + 1, true)), h := h.(winner := (t, k - 1)))
    else
      s.(received := received, threads := Push(SetTop(s, t, Mark(u, i + 1, completed)), t, Run(v)),
         h := h.(phase := phase[v := Running(t, k)]))
  }

  /** trigger_node calls the node's function; a node that is done at once is marked complete. */
  function DoCall(g: Graph, s: State, t: nat, done: bool): (s': State)
    requires Shaped(g, s) && Enabled(g, s, t, Call(done))
    ensures Shaped(g, s') && |s'.threads| == |s.threads|
  {
    var v, k := Top(s, t).node, |s.threads[t]| - 1;
    var h := s.h.(runs := s.h.runs[v := s.h.runs[v] + 1]);
    if done then
      s.(received := s.received[v := 0], threads := SetTop(s, t, Mark(v, 0, false)),
         h := h.(phase := h.phase[v := Settle(g, v, 0, t, k)]))
    else
      s.(pending := s.pending + {v}, threads := SetTop(s, t, Returned(v)), h := h.(phase := h.phase[v := Posted]))
  }

  /** signal / graph_node_mark_complete for a posted node. */
  function DoComplete(g: Graph, s: State, t: nat, v: nat): (s': State)
    requires Shaped(g, s) && Enabled(g, s, t, Complete(v))
    ensures Shaped(g, s') && |s'.threads| == |s.threads|
  {
    s.(pending := s.pending - {v}, received := s.received[v := 0], threads := Push(s.threads, t, Mark(v, 0, false)),
       h := s.h.(phase := s.h.phase[v := Settle(g, v, 0, t, |s.threads[t]|)]))
  }

  /** A return. In mark_complete, the frame that completed the graph first deletes it and signals the
      completion object. */
  function DoExit(g: Graph, s: State, t: nat): (s': State)
    requires Shaped(g, s) && Enabled(g, s, t, Exit)
    ensures Shaped(g, s') && |s'.threads| == |s.threads|
  {
    var f := Top(s, t);
    s.(deletions := s.deletions + if f.Mark? && f.completed && g.deletes then 1 else 0, threads := Pop(s, t))
  }

  function Step(g: Graph, s: State, t: nat, c: Choice): (s': State)
    requires Shaped(g, s)
    ensures Shaped(g, s') && |s'.threads| == |s.threads|
  {
    if !Enabled(g, s, t, c) then s else
      match c
      case Start => DoStart(g, s, t)
      case Signal => DoSignal(g, s, t)
      case Compare => s.(comparing := s.comparing - {t})
      case Call(done) => DoCall(g, s, t, done)
      case Complete(v) => DoComplete(g, s, t, v)
      case Exit => DoExit(g, s, t)
  }

  /** A graph as its constructor and add_node/add_edge leave it; the END counter is not set. */
  ghost predicate Initial(g: Graph, s: State) {
    && WellFormed(g.out)
    && |s.received| == |g.out| == |g.expected|
    && (forall v :: 0 <= v < |g.out| && v != END ==> s.received[v] == 0)
    && s.pending == {} && s.comparing == {} && !s.started && s.deletions == 0
    && (forall t :: 0 <= t < |s.threads| ==> s.threads[t] == [])
    && s.h == History(seq(|g.out|, _ => Waiting), Zeros(|g.out|), Zeros(|g.out|), (0, 0))
  }

  /** Any interleaving: the n-th entry lets one thread do one thing, if it can. */
  ghost function Exec(g: Graph, s0: State, trace: seq<(nat, Choice)>): (s: State)
    requires Initial(g, s0)
    ensures Shaped(g, s) && |s.threads| == |s0.threads|
  {
    if trace == [] then s0 else
      var (t, c) := trace[|trace| - 1];
      Step(g, Exec(g, s0, trace[..|trace| - 1]), t, c)
  }
}
