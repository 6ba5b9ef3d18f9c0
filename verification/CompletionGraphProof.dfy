/** Every run of the completion graph: nodes run once per start and after their predecessors, no
    counter overshoots, test tells the truth, and deletion finds nobody still using the graph. */
module CompletionGraphProof {
  import opened CompletionGraph
  import opened Sums

  // ------------------------------------------------------- the invariant

  predicate Completed(p: Phase) {
    p.Marking? || p.Done?
  }

  ghost predicate Full(g: Graph, sent: seq<nat>, v: nat)
    requires Within(g.out, sent)
  {
    Arrived(g.out, sent, v, |g.out|) == InDegree(g.out, v)
  }

  /** The counters of one node agree with its phase. */
  ghost predicate NodeOk(g: Graph, s: State, v: nat)
    requires Shaped(g, s) && v < |g.out|
  {
    var p, sent := s.h.phase[v], s.h.sent;
    var arrived := Arrived(g.out, sent, v, |g.out|);
    && (p.Done? ==> sent[v] == |g.out[v]|)
    && (p.Marking? ==> sent[v] < |g.out[v]|)
    && (!Completed(p) ==> sent[v] == 0)
    && (v == END ==> p.Waiting? && (s.started ==> s.received[v] == arrived))
    && (v == START ==> !p.Running? && !p.Posted? && (s.started <==> Completed(p)) && s.received[v] == 0)
    && (v > END ==>
          && s.received[v] == (if Completed(p) then 0 else arrived)
          && s.h.runs[v] == (if p.Waiting? || p.Running? then 0 else 1)
          && (!p.Waiting? ==> s.started && Full(g, sent, v))
          && (p.Waiting? ==> !Full(g, sent, v) || InDegree(g.out, v) == 0))
  }

  /** A frame with work left owns its node. */
  ghost predicate FrameOk(g: Graph, s: State, t: nat, k: nat)
    requires Shaped(g, s) && HasFrame(s.threads, t, k)
  {
    match s.threads[t][k]
    case Run(v) => v > END && s.h.phase[v] == Running(t, k)
    case Returned(v) => v > END
    case Mark(u, i, completed) =>
      && u != END
      && i <= |g.out[u]|
      && (i < |g.out[u]| ==> s.h.phase[u] == Marking(t, k) && s.h.sent[u] == i)
      && (completed && g.deletes ==>
            s.h.winner == (t, k) && s.started && Test(g, s) && s.deletions == 0 && g.expected[END] > 0)
  }

  /** A node being worked on has its frame. */
  ghost predicate OwnerOk(g: Graph, s: State, v: nat)
    requires Shaped(g, s) && v < |g.out|
  {
    match s.h.phase[v]
    case Running(t, k) => HasFrame(s.threads, t, k) && s.threads[t][k] == Run(v)
    case Marking(t, k) =>
      && HasFrame(s.threads, t, k) && s.threads[t][k].Mark?
      && s.threads[t][k].node == v && s.threads[t][k].next == s.h.sent[v]
    case _ => true
  }

  ghost predicate PendingOk(s: State) {
    forall v :: 0 <= v < |s.h.phase| ==> (v in s.pending <==> s.h.phase[v] == Posted)
  }

  ghost predicate DeletionOk(g: Graph, s: State)
    requires Shaped(g, s)
  {
    s.deletions <= 1 && (s.deletions == 1 ==> g.deletes && s.started && Test(g, s) && g.expected[END] > 0)
  }

  ghost predicate Inv(g: Graph, s: State) {
    && Shaped(g, s) && PendingOk(s) && DeletionOk(g, s)
    && (forall v :: 0 <= v < |g.out| ==> NodeOk(g, s, v))
    && (forall v :: 0 <= v < |g.out| ==> OwnerOk(g, s, v))
    && (forall t: nat, k: nat :: HasFrame(s.threads, t, k) ==> FrameOk(g, s, t, k))
  }

  // ------------------------------------------------------- a full END counter

  predicate Path(out: seq<seq<nat>>, p: seq<nat>, u: nat, v: nat) {
    && p != [] && p[0] == u && u < |out|
    && if |p| == 1 then u == v else p[1] in out[u] && Path(out, p[1..], p[1], v)
  }

  ghost predicate ReachesEnd(out: seq<seq<nat>>, v: nat) {
    exists p :: Path(out, p, v, END)
  }

  /** Every node other than START and END has a path to END. */
  ghost predicate AllReachEnd(out: seq<seq<nat>>) {
    forall v :: END < v < |out| ==> ReachesEnd(out, v)
  }

  /** The edge from u to v leaves the paths from START to END for good. */
  ghost predicate DeadEnd(out: seq<seq<nat>>, u: nat, v: nat) {
    u < |out| && v in out[u] && v > END && (u == START || ReachesEnd(out, u)) && !ReachesEnd(out, v)
  }

  /** Whatever can be started has a path to END. Nodes that START does not reach may lack one. */
  ghost predicate NoDeadEnds(out: seq<seq<nat>>) {
    forall u: nat, v: nat :: !DeadEnd(out, u, v)
  }

  /** Nodes without a path to END are left alone. */
  ghost predicate IdleOk(g: Graph, s: State)
    requires Shaped(g, s)
  {
    forall v :: END < v < |g.out| && !ReachesEnd(g.out, v) ==> s.h.phase[v].Waiting? && s.received[v] == 0
  }

  lemma EdgeSent(g: Graph, sent: seq<nat>, u: nat, j: nat)
    requires Within(g.out, sent) && u < |g.out| && j < |g.out[u]| && Full(g, sent, g.out[u][j])
    ensures j < sent[u]
  {
    ArrivedCompares(g.out, sent, g.out[u][j], |g.out|);
    assert !Unsent(g.out, sent, u, j, g.out[u][j]);
  }

  /** Backwards along a path to END, everything has completed. */
  lemma {:induction false} CompletedBackwards(g: Graph, s: State, p: seq<nat>, v: nat)
    requires Built(g) && Inv(g, s) && s.started && Test(g, s) && v > END && Path(g.out, p, v, END)
    ensures Completed(s.h.phase[v])
    decreases |p|
  {
    var w := p[1];
    var j :| 0 <= j < |g.out[v]| && g.out[v][j] == w;
    if w != END {
      CompletedBackwards(g, s, p[1..], w);
      assert NodeOk(g, s, w);
    } else {
      assert NodeOk(g, s, END);
    }
    EdgeSent(g, s.h.sent, v, j);
    assert NodeOk(g, s, v);
  }

  lemma TargetFull(g: Graph, s: State, v: nat)
    requires Built(g) && Inv(g, s) && s.started && Test(g, s)
    requires START < v < |g.out| && (v == END || ReachesEnd(g.out, v))
    ensures Full(g, s.h.sent, v) && (v > END ==> Completed(s.h.phase[v]))
  {
    assert NodeOk(g, s, v);
    if v > END {
      var p :| Path(g.out, p, v, END);
      CompletedBackwards(g, s, p, v);
    }
  }

  /** When test reports done, START and every node with a path to END have completed and processed all
      their out-edges. */
  lemma TestMeansDone(g: Graph, s: State, v: nat)
    requires Built(g) && NoDeadEnds(g.out) && Inv(g, s) && s.started && Test(g, s)
    requires v < |g.out| && v != END && (v == START || ReachesEnd(g.out, v))
    ensures s.h.phase[v] == Done
  {
    assert NodeOk(g, s, v);
    if v > END {
      TargetFull(g, s, v);
    }
    if s.h.phase[v].Marking? {
      var j := s.h.sent[v];
      assert !DeadEnd(g.out, v, g.out[v][j]);
      TargetFull(g, s, g.out[v][j]);
      EdgeSent(g, s.h.sent, v, j);
      assert false;
    }
  }

  /** Nobody will touch the graph again: no callback is due, none is outstanding, and every call on any
      stack has nothing left to do but to return. */
  ghost predicate Quiet(g: Graph, s: State)
    requires Shaped(g, s)
  {
    && s.pending == {}
    && (forall t: nat, k: nat :: HasFrame(s.threads, t, k) ==> Past(g, s.threads[t][k]))
    && (forall v :: 0 <= v < |g.out| && v != END ==> s.received[v] == 0)
  }

  lemma DoneOrIdle(g: Graph, s: State, v: nat)
    requires Built(g) && NoDeadEnds(g.out) && Inv(g, s) && IdleOk(g, s) && s.started && Test(g, s)
    requires v < |g.out| && v != END
    ensures s.h.phase[v] == if v == START || ReachesEnd(g.out, v) then Done else Waiting
    ensures s.received[v] == 0
  {
    assert NodeOk(g, s, v);
    if v == START || ReachesEnd(g.out, v) {
      TestMeansDone(g, s, v);
    }
  }

  lemma TestMeansQuiet(g: Graph, s: State)
    requires Built(g) && NoDeadEnds(g.out) && Inv(g, s) && IdleOk(g, s) && s.started && Test(g, s)
    ensures Quiet(g, s)
  {
    forall v | 0 <= v < |g.out|
      ensures (s.h.phase[v].Done? || s.h.phase[v].Waiting?) && (v != END ==> s.received[v] == 0) {
      if v == END {
        assert NodeOk(g, s, END);
      } else {
        DoneOrIdle(g, s, v);
      }
    }
    forall t: nat, k: nat | HasFrame(s.threads, t, k) ensures Past(g, s.threads[t][k]) {
      assert FrameOk(g, s, t, k);
    }
  }

  // ------------------------------------------------------- each step keeps the invariant

  /** What a Signal step finds: the target still waits and its counter is short of the expected count. */
  ghost predicate Due(g: Graph, s: State, t: nat)
    requires Shaped(g, s) && Enabled(g, s, t, Signal)
  {
    var u, i := Top(s, t).node, Top(s, t).next;
    var v := g.out[u][i];
    && s.started && s.received[v] < g.expected[v] && s.h.phase[v].Waiting? && v != u
    && s.received[v] == Arrived(g.out, s.h.sent, v, |g.out|)
    && s.h.sent[u] == i && s.h.phase[u] == Marking(t, |s.threads[t]| - 1) && u != END
  }

  /** The over-signal assertions never fail. */
  lemma NoOverSignal(g: Graph, s: State, t: nat)
    requires Built(g) && Inv(g, s) && Enabled(g, s, t, Signal)
    ensures Due(g, s, t)
  {
    var k := |s.threads[t]| - 1;
    assert FrameOk(g, s, t, k);
    var u, i := Top(s, t).node, Top(s, t).next;
    var v := g.out[u][i];
    assert NodeOk(g, s, u) && NodeOk(g, s, v);
    assert NodeOk(g, s, START);
    ArrivedCompares(g.out, s.h.sent, v, |g.out|);
    assert Unsent(g.out, s.h.sent, u, i, v);
  }

  lemma SignalNode(g: Graph, s: State, t: nat, x: nat)
    requires Built(g) && Shaped(g, s) && Enabled(g, s, t, Signal) && Due(g, s, t) && Shaped(g, DoSignal(g, s, t))
    requires x < |g.out| && NodeOk(g, s, x)
    ensures NodeOk(g, DoSignal(g, s, t), x)
  {
    ArrivedNext(g.out, s.h.sent, Top(s, t).node, x, |g.out|);
  }

  lemma SignalOwner(g: Graph, s: State, t: nat, x: nat)
    requires Shaped(g, s) && Enabled(g, s, t, Signal) && Due(g, s, t) && Shaped(g, DoSignal(g, s, t))
    requires x < |g.out| && OwnerOk(g, s, x)
    ensures OwnerOk(g, DoSignal(g, s, t), x)
  {
  }

  lemma SignalOtherFrame(g: Graph, s: State, t: nat, t': nat, k': nat)
    requires Shaped(g, s) && Enabled(g, s, t, Signal) && Due(g, s, t) && Shaped(g, DoSignal(g, s, t))
    requires HasFrame(s.threads, t', k') && (t' != t || k' != |s.threads[t]| - 1) && FrameOk(g, s, t', k')
    ensures HasFrame(DoSignal(g, s, t).threads, t', k') && DoSignal(g, s, t).threads[t'][k'] == s.threads[t'][k']
    ensures FrameOk(g, DoSignal(g, s, t), t', k')
  {
  }

  lemma SignalOwnFrames(g: Graph, s: State, t: nat, k': nat)
    requires Shaped(g, s) && Enabled(g, s, t, Signal) && Due(g, s, t) && Shaped(g, DoSignal(g, s, t))
    requires DeletionOk(g, s) && FrameOk(g, s, t, |s.threads[t]| - 1)
    requires HasFrame(DoSignal(g, s, t).threads, t, k') && k' >= |s.threads[t]| - 1
    ensures FrameOk(g, DoSignal(g, s, t), t, k')
  {
  }

  lemma SignalFrame(g: Graph, s: State, t: nat, t': nat, k': nat)
    requires Shaped(g, s) && Enabled(g, s, t, Signal) && Due(g, s, t) && Shaped(g, DoSignal(g, s, t))
    requires DeletionOk(g, s) && FrameOk(g, s, t, |s.threads[t]| - 1)
    requires HasFrame(s.threads, t', k') ==> FrameOk(g, s, t', k')
    requires HasFrame(DoSignal(g, s, t).threads, t', k')
    ensures FrameOk(g, DoSignal(g, s, t), t', k')
  {
    if t' == t && k' >= |s.threads[t]| - 1 {
      SignalOwnFrames(g, s, t, k');
    } else {
      SignalOtherFrame(g, s, t, t', k');
    }
  }

  lemma SignalKeeps(g: Graph, s: State, t: nat)
    requires Built(g) && Inv(g, s) && Enabled(g, s, t, Signal)
    ensures Inv(g, DoSignal(g, s, t))
  {
    var s' := DoSignal(g, s, t);
    NoOverSignal(g, s, t);
    forall x | 0 <= x < |g.out| ensures NodeOk(g, s', x) && OwnerOk(g, s', x) {
      assert NodeOk(g, s, x) && OwnerOk(g, s, x);
      SignalNode(g, s, t, x);
      SignalOwner(g, s, t, x);
    }
    assert FrameOk(g, s, t, |s.threads[t]| - 1);
    forall t': nat, k': nat | HasFrame(s'.threads, t', k') ensures FrameOk(g, s', t', k') {
      SignalFrame(g, s, t, t', k');
    }
  }

  lemma CallNode(g: Graph, s: State, t: nat, done: bool, x: nat)
    requires Shaped(g, s) && Enabled(g, s, t, Call(done)) && Shaped(g, DoCall(g, s, t, done)) && x < |g.out|
    requires FrameOk(g, s, t, |s.threads[t]| - 1) && NodeOk(g, s, x) && OwnerOk(g, s, x)
    ensures NodeOk(g, DoCall(g, s, t, done), x) && OwnerOk(g, DoCall(g, s, t, done), x)
  {
  }

  lemma CallFrame(g: Graph, s: State, t: nat, done: bool, t': nat, k': nat)
    requires Shaped(g, s) && Enabled(g, s, t, Call(done)) && Shaped(g, DoCall(g, s, t, done))
    requires FrameOk(g, s, t, |s.threads[t]| - 1) && NodeOk(g, s, Top(s, t).node)
    requires HasFrame(DoCall(g, s, t, done).threads, t', k') && HasFrame(s.threads, t', k') && FrameOk(g, s, t', k')
    ensures FrameOk(g, DoCall(g, s, t, done), t', k')
  {
  }

  lemma CallKeeps(g: Graph, s: State, t: nat, done: bool)
    requires Built(g) && Inv(g, s) && Enabled(g, s, t, Call(done))
    ensures Inv(g, DoCall(g, s, t, done))
  {
    var s' := DoCall(g, s, t, done);
    assert s' == Step(g, s, t, Call(done));
    assert FrameOk(g, s, t, |s.threads[t]| - 1) && NodeOk(g, s, Top(s, t).node);
    forall x | 0 <= x < |g.out| ensures NodeOk(g, s', x) && OwnerOk(g, s', x) {
      assert NodeOk(g, s, x) && OwnerOk(g, s, x);
      CallNode(g, s, t, done, x);
    }
    forall t': nat, k': nat | HasFrame(s'.threads, t', k') ensures FrameOk(g, s', t', k') {
      assert HasFrame(s.threads, t', k') && FrameOk(g, s, t', k');
      CallFrame(g, s, t, done, t', k');
    }
  }

  lemma CompleteKeeps(g: Graph, s: State, t: nat, v: nat)
    requires Built(g) && Inv(g, s) && Enabled(g, s, t, Complete(v))
    ensures Inv(g, DoComplete(g, s, t, v))
  {
    var s' := DoComplete(g, s, t, v);
    assert NodeOk(g, s, v);
    forall x | 0 <= x < |g.out| ensures NodeOk(g, s', x) && OwnerOk(g, s', x) {
      assert NodeOk(g, s, x) && OwnerOk(g, s, x);
    }
    forall t': nat, k': nat | HasFrame(s'.threads, t', k') ensures FrameOk(g, s', t', k') {
      if HasFrame(s.threads, t', k') {
        assert FrameOk(g, s, t', k');
      }
    }
  }

  lemma ExitKeeps(g: Graph, s: State, t: nat)
    requires Built(g) && Inv(g, s) && Enabled(g, s, t, Exit)
    ensures Inv(g, DoExit(g, s, t))
  {
    var s' := DoExit(g, s, t);
    assert FrameOk(g, s, t, |s.threads[t]| - 1);
    forall x | 0 <= x < |g.out| ensures NodeOk(g, s', x) && OwnerOk(g, s', x) {
      assert NodeOk(g, s, x) && OwnerOk(g, s, x);
    }
    forall t': nat, k': nat | HasFrame(s'.threads, t', k') ensures FrameOk(g, s', t', k') {
      assert FrameOk(g, s, t', k');
    }
  }

  lemma CompareKeeps(g: Graph, s: State, t: nat)
    requires Inv(g, s)
    ensures Inv(g, s.(comparing := s.comparing - {t}))
  {
    var s' := s.(comparing := s.comparing - {t});
    forall x | 0 <= x < |g.out| ensures NodeOk(g, s', x) && OwnerOk(g, s', x) {
      assert NodeOk(g, s, x) && OwnerOk(g, s, x);
    }
    forall t': nat, k': nat | HasFrame(s'.threads, t', k') ensures FrameOk(g, s', t', k') {
      assert FrameOk(g, s, t', k');
    }
  }

  lemma QuietBefore(g: Graph, s: State)
    requires Built(g) && Inv(g, s) && !s.started
    ensures Quiet(g, s)
  {
    forall v | 0 <= v < |g.out| ensures s.h.phase[v].Waiting? && s.h.sent[v] == 0 {
      assert NodeOk(g, s, v);
    }
    forall v | 0 <= v < |g.out| && v != END ensures s.received[v] == 0 {
      assert NodeOk(g, s, v);
      NoneArrived(g.out, s.h.sent, v, |g.out|);
    }
    forall t: nat, k: nat | HasFrame(s.threads, t, k) ensures Past(g, s.threads[t][k]) {
      assert FrameOk(g, s, t, k);
    }
  }

  /** What a legal start finds. */
  lemma BeforeStart(g: Graph, s: State, t: nat)
    requires Built(g) && Inv(g, s) && Enabled(g, s, t, Start) && (s.started ==> NoDeadEnds(g.out) && IdleOk(g, s))
    ensures Quiet(g, s)
  {
    if s.started {
      TestMeansQuiet(g, s);
    } else {
      QuietBefore(g, s);
    }
  }

  lemma StartKeeps(g: Graph, s: State, t: nat)
    requires Built(g) && Inv(g, s) && Enabled(g, s, t, Start) && Quiet(g, s)
    ensures Inv(g, DoStart(g, s, t))
  {
    var s' := DoStart(g, s, t);
    forall x | 0 <= x < |g.out| ensures NodeOk(g, s', x) && OwnerOk(g, s', x) {
      NoneArrived(g.out, s'.h.sent, x, |g.out|);
    }
    forall t': nat, k': nat | HasFrame(s'.threads, t', k') ensures FrameOk(g, s', t', k') {
      if HasFrame(s.threads, t', k') {
        assert FrameOk(g, s, t', k');
      }
    }
  }

  /** Every step but a start out of time keeps the invariant, on any graph. */
  lemma StepKeeps(g: Graph, s: State, t: nat, c: Choice)
    requires Built(g) && Inv(g, s) && (c == Start && Enabled(g, s, t, c) ==> Quiet(g, s))
    ensures Inv(g, Step(g, s, t, c))
  {
    if Enabled(g, s, t, c) {
      match c
      case Start => StartKeeps(g, s, t);
      case Signal => SignalKeeps(g, s, t);
      case Compare => CompareKeeps(g, s, t);
      case Call(done) => CallKeeps(g, s, t, done);
      case Complete(v) => CompleteKeeps(g, s, t, v);
      case Exit => ExitKeeps(g, s, t);
    }
  }

  lemma StepIdle(g: Graph, s: State, t: nat, c: Choice)
    requires Built(g) && NoDeadEnds(g.out) && Inv(g, s) && IdleOk(g, s)
    ensures IdleOk(g, Step(g, s, t, c))
  {
    if Enabled(g, s, t, c) {
      match c
      case Start => BeforeStart(g, s, t);
      case Signal =>
        NoOverSignal(g, s, t);
        var u := Top(s, t).node;
        assert !DeadEnd(g.out, u, g.out[u][Top(s, t).next]);
      case Compare =>
      case Call(_) => assert FrameOk(g, s, t, |s.threads[t]| - 1);
      case Complete(v) => assert s.h.phase[v] == Posted;
      case Exit =>
    }
  }

  /** Once test reports done on a graph with a completion object, the frame that will deliver it
      stays on its stack until it has. */
  ghost predicate WinnerOk(g: Graph, s: State)
    requires Shaped(g, s)
  {
    g.deletes && s.started && Test(g, s) && s.deletions == 0 && g.expected[END] > 0 ==>
      var t, k := s.h.winner.0, s.h.winner.1;
      HasFrame(s.threads, t, k) && s.threads[t][k].Mark? && s.threads[t][k].completed
  }

  lemma StepWinner(g: Graph, s: State, t: nat, c: Choice)
    requires Built(g) && Inv(g, s) && WinnerOk(g, s)
    ensures WinnerOk(g, Step(g, s, t, c))
  {
    if Enabled(g, s, t, c) {
      match c
      case Start =>
      case Signal =>
        NoOverSignal(g, s, t);
        assert HasFrame(s.threads, t, |s.threads[t]| - 1);
      case Compare =>
      case Call(_) => assert FrameOk(g, s, t, |s.threads[t]| - 1);
      case Complete(v) => assert NodeOk(g, s, v);
      case Exit => assert FrameOk(g, s, t, |s.threads[t]| - 1);
    }
  }

  lemma InitialOk(g: Graph, s0: State)
    requires Built(g) && Initial(g, s0)
    ensures Inv(g, s0) && WinnerOk(g, s0) && IdleOk(g, s0)
  {
    forall v | 0 <= v < |g.out| ensures NodeOk(g, s0, v) {
      NoneArrived(g.out, s0.h.sent, v, |g.out|);
    }
  }

  /** The graph is started again only when nothing is in flight. */
  ghost predicate StartsInTime(g: Graph, s0: State, trace: seq<(nat, Choice)>)
    requires Initial(g, s0)
    decreases |trace|
  {
    trace == [] ||
    (var before, c := trace[..|trace| - 1], trace[|trace| - 1].1;
     && StartsInTime(g, s0, before)
     && (c == Start && Exec(g, s0, before).started ==> Quiet(g, Exec(g, s0, before))))
  }

  lemma {:induction false} ExecKeeps(g: Graph, s0: State, trace: seq<(nat, Choice)>)
    requires Built(g) && Initial(g, s0) && StartsInTime(g, s0, trace)
    ensures Inv(g, Exec(g, s0, trace)) && WinnerOk(g, Exec(g, s0, trace))
    decreases |trace|
  {
    if trace == [] {
      InitialOk(g, s0);
    } else {
      var before := trace[..|trace| - 1];
      var (t, c) := trace[|trace| - 1];
      ExecKeeps(g, s0, before);
      if !Exec(g, s0, before).started {
        QuietBefore(g, Exec(g, s0, before));
      }
      StepKeeps(g, Exec(g, s0, before), t, c);
      StepWinner(g, Exec(g, s0, before), t, c);
    }
  }

  lemma {:induction false} ExecInv(g: Graph, s0: State, trace: seq<(nat, Choice)>)
    requires Built(g) && NoDeadEnds(g.out) && Initial(g, s0)
    ensures Inv(g, Exec(g, s0, trace)) && WinnerOk(g, Exec(g, s0, trace)) && IdleOk(g, Exec(g, s0, trace))
  {
    if trace == [] {
      InitialOk(g, s0);
    } else {
      var before := trace[..|trace| - 1];
      var (t, c) := trace[|trace| - 1];
      var s := Exec(g, s0, before);
      ExecInv(g, s0, before);
      if c == Start && Enabled(g, s, t, c) {
        BeforeStart(g, s, t);
      }
      StepKeeps(g, s, t, c);
      StepWinner(g, s, t, c);
      StepIdle(g, s, t, c);
    }
  }

  // ------------------------------------------------------- main results

  lemma EitherInv(g: Graph, s0: State, trace: seq<(nat, Choice)>)
    requires Built(g) && Initial(g, s0) && (NoDeadEnds(g.out) || StartsInTime(g, s0, trace))
    ensures Inv(g, Exec(g, s0, trace))
  {
    if NoDeadEnds(g.out) {
      ExecInv(g, s0, trace);
    } else {
      ExecKeeps(g, s0, trace);
    }
  }

  /** All direct predecessors of v have been marked complete in this run. */
  ghost predicate PredecessorsCompleted(g: Graph, s: State, v: nat)
    requires Shaped(g, s)
  {
    forall u :: 0 <= u < |g.out| && v in g.out[u] ==> Completed(s.h.phase[u])
  }

  lemma FullMeansPredecessors(g: Graph, s: State, v: nat)
    requires Built(g) && Inv(g, s) && v < |g.out| && Full(g, s.h.sent, v)
    ensures PredecessorsCompleted(g, s, v)
  {
    forall u | 0 <= u < |g.out| && v in g.out[u] ensures Completed(s.h.phase[u]) {
      var j :| 0 <= j < |g.out[u]| && g.out[u][j] == v;
      EdgeSent(g, s.h.sent, u, j);
      assert NodeOk(g, s, u);
    }
  }

  /** In every run: a node's function is called at most once per start, and whenever a thread is
      about to call it, it was not called yet and all its predecessors have completed. */
  lemma RunsOnceAfterPredecessors(g: Graph, s0: State, trace: seq<(nat, Choice)>, v: nat)
    requires Built(g) && Initial(g, s0) && END < v < |g.out|
    requires NoDeadEnds(g.out) || StartsInTime(g, s0, trace)
    ensures var s := Exec(g, s0, trace);
            && s.h.runs[v] <= 1
            && (s.h.runs[v] == 1 ==> PredecessorsCompleted(g, s, v))
            && (Completed(s.h.phase[v]) ==> s.h.runs[v] == 1)
            && (forall t: nat :: Busy(s, t) && Top(s, t) == Run(v) ==>
                  s.h.runs[v] == 0 && PredecessorsCompleted(g, s, v))
  {
    EitherInv(g, s0, trace);
    var s := Exec(g, s0, trace);
    assert NodeOk(g, s, v);
    if !s.h.phase[v].Waiting? {
      FullMeansPredecessors(g, s, v);
    }
    forall t: nat | Busy(s, t) && Top(s, t) == Run(v) ensures s.h.phase[v].Running? {
      assert FrameOk(g, s, t, |s.threads[t]| - 1);
    }
  }

  /** In every run the counter a signal is about to raise is below its expected count. */
  lemma CountersNeverOvershoot(g: Graph, s0: State, trace: seq<(nat, Choice)>, t: nat)
    requires Built(g) && Initial(g, s0) && (NoDeadEnds(g.out) || StartsInTime(g, s0, trace))
    ensures var s := Exec(g, s0, trace);
            Enabled(g, s, t, Signal) ==> var v := g.out[Top(s, t).node][Top(s, t).next]; s.received[v] < g.expected[v]
  {
    EitherInv(g, s0, trace);
    if Enabled(g, Exec(g, s0, trace), t, Signal) {
      NoOverSignal(g, Exec(g, s0, trace), t);
    }
  }

  /** When test reports done, every node with a path to END has run exactly once and completed, the
      others were not touched, every counter is back to zero and nothing is in flight, so that start may
      be repeated. */
  lemma TestIsTruthful(g: Graph, s0: State, trace: seq<(nat, Choice)>)
    requires Built(g) && NoDeadEnds(g.out) && Initial(g, s0)
    ensures var s := Exec(g, s0, trace);
            s.started && Test(g, s) ==>
              && Quiet(g, s)
              && (forall v :: END < v < |g.out| ==>
                    if ReachesEnd(g.out, v) then s.h.runs[v] == 1 && s.h.phase[v] == Done
                    else s.h.runs[v] == 0 && s.h.phase[v] == Waiting)
  {
    ExecInv(g, s0, trace);
    var s := Exec(g, s0, trace);
    if s.started && Test(g, s) {
      TestMeansQuiet(g, s);
      forall v | END < v < |g.out|
        ensures if ReachesEnd(g.out, v) then s.h.runs[v] == 1 && s.h.phase[v] == Done
                else s.h.runs[v] == 0 && s.h.phase[v] == Waiting
      {
        DoneOrIdle(g, s, v);
        assert NodeOk(g, s, v);
      }
    }
  }

  /** The call will still look at the graph or one of its nodes. */
  predicate WillRead(g: Graph, f: Frame, debug: bool)
    requires f.node < |g.out|
  {
    !Past(g, f) || (f.Mark? && f.completed) || (f.Returned? && debug)
  }

  /** Nobody will look at the graph or one of its nodes any more. */
  ghost predicate Unused(g: Graph, s: State, debug: bool)
    requires Shaped(g, s)
  {
    s.comparing == {} && forall t: nat, k: nat :: HasFrame(s.threads, t, k) ==> !WillRead(g, s.threads[t][k], debug)
  }

  /** The graph is deleted at most once. At the moment of deletion nothing is due, and from then on the
      only things any thread can do are to compare a count and to return. */
  lemma DeletedOnceAndUnused(g: Graph, s0: State, trace: seq<(nat, Choice)>, t: nat, c: Choice)
    requires Built(g) && NoDeadEnds(g.out) && Initial(g, s0)
    ensures var s := Exec(g, s0, trace);
            && s.deletions <= 1
            && (Enabled(g, s, t, c) && Step(g, s, t, c).deletions > s.deletions ==> s.deletions == 0 && Quiet(g, s))
            && (s.deletions == 1 ==>
                  && Quiet(g, s) && (Enabled(g, s, t, c) ==> c.Exit? || c.Compare?)
                  && forall t: nat, k: nat :: HasFrame(s.threads, t, k) ==> !WillRead(g, s.threads[t][k], false))
  {
    ExecInv(g, s0, trace);
    var s := Exec(g, s0, trace);
    if s.started && Test(g, s) {
      TestMeansQuiet(g, s);
    }
    forall t: nat, k: nat | s.deletions == 1 && HasFrame(s.threads, t, k)
      ensures !WillRead(g, s.threads[t][k], false) {
      assert FrameOk(g, s, t, k);
    }
    if Busy(s, t) {
      assert FrameOk(g, s, t, |s.threads[t]| - 1);
      assert HasFrame(s.threads, t, |s.threads[t]| - 1);
    }
  }

  /** Nothing is read after the deletion exactly when, at that moment, no other thread stands between
      raising a counter and its comparison; in a debug build, every call that posted a node must also
      have returned. */
  lemma DeletionIsSafeIff(g: Graph, s0: State, trace: seq<(nat, Choice)>, debug: bool)
    requires Built(g) && NoDeadEnds(g.out) && Initial(g, s0) && Exec(g, s0, trace).deletions == 1
    ensures var s := Exec(g, s0, trace);
            Unused(g, s, debug) <==> s.comparing == {} && (debug ==> NoneReturning(s))
  {
    DeletedOnceAndUnused(g, s0, trace, 0, Exit);
  }

  /** No call that posted a node is on a stack. */
  ghost predicate NoneReturning(s: State) {
    forall t: nat, k: nat :: HasFrame(s.threads, t, k) ==> !s.threads[t][k].Returned?
  }

  /** The call that sent the last signal to END has returned. */
  ghost predicate NoneCompleting(s: State) {
    forall t: nat, k: nat :: HasFrame(s.threads, t, k) && s.threads[t][k].Mark? ==> !s.threads[t][k].completed
  }

  /** A graph that is kept may be freed, once test reports done, exactly when moreover the call that sent
      the last signal has returned. */
  lemma FreeingIsSafeIff(g: Graph, s0: State, trace: seq<(nat, Choice)>, debug: bool)
    requires Built(g) && NoDeadEnds(g.out) && Initial(g, s0)
    requires Exec(g, s0, trace).started && Test(g, Exec(g, s0, trace))
    ensures var s := Exec(g, s0, trace);
            Unused(g, s, debug) <==>
            && s.comparing == {} && (debug ==> NoneReturning(s))
            && NoneCompleting(s)
  {
    ExecInv(g, s0, trace);
    TestMeansQuiet(g, Exec(g, s0, trace));
  }

  // ------------------------------------------------------- no run gets stuck

  /** A topological numbering. */
  ghost predicate Ranked(out: seq<seq<nat>>, rank: seq<nat>) {
    && |rank| == |out|
    && forall u, j :: 0 <= u < |out| && 0 <= j < |out[u]| && out[u][j] < |out| ==> rank[u] < rank[out[u][j]]
  }

  ghost predicate Acyclic(out: seq<seq<nat>>) {
    exists rank :: Ranked(out, rank)
  }

  predicate Active(p: Phase) {
    p.Running? || p.Posted? || p.Marking?
  }

  /** Nodes on the way to END that wait for each other for ever: each has no incoming edge at all, or one
      from another of them. */
  ghost predicate Blocks(out: seq<seq<nat>>, nodes: set<nat>) {
    && nodes != {}
    && (forall v :: v in nodes ==> START < v < |out| && ReachesEnd(out, v) && BlockedNode(out, nodes, v))
  }

  ghost predicate BlockedNode(out: seq<seq<nat>>, nodes: set<nat>, v: nat) {
    (v > END && InDegree(out, v) == 0) || exists u :: u in nodes && u < |out| && v in out[u]
  }

  ghost predicate Blocked(out: seq<seq<nat>>) {
    exists nodes :: Blocks(out, nodes)
  }

  /** The nodes on the way to END that were not triggered yet. */
  ghost function StillWaiting(g: Graph, s: State): set<nat>
    requires Shaped(g, s)
  {
    set v: nat | START < v < |g.out| && ReachesEnd(g.out, v) && s.h.phase[v].Waiting?
  }

  ghost predicate Works(g: Graph, s: State, w: nat)
    requires Shaped(g, s)
  {
    w < |g.out| && (w == START || ReachesEnd(g.out, w)) && Active(s.h.phase[w])
  }

  lemma WaitsForSomeone(g: Graph, s: State, v: nat)
    requires Built(g) && Inv(g, s) && s.started && !Test(g, s) && v in StillWaiting(g, s)
    requires forall w: nat :: !Works(g, s, w)
    ensures BlockedNode(g.out, StillWaiting(g, s), v)
  {
    assert NodeOk(g, s, v);
    if v == END || InDegree(g.out, v) > 0 {
      ArrivedCompares(g.out, s.h.sent, v, |g.out|);
      var u: nat, j: nat :| u < |g.out| && Unsent(g.out, s.h.sent, u, j, v);
      assert NodeOk(g, s, u);
      assert ReachesEnd(g.out, u) by {
        var p :| Path(g.out, p, v, END);
        PathStep(g.out, u, v, p);
      }
      assert !Works(g, s, u);
      assert u in StillWaiting(g, s);
    }
  }

  lemma PathStep(out: seq<seq<nat>>, u: nat, v: nat, p: seq<nat>)
    requires u < |out| && v in out[u] && Path(out, p, v, END)
    ensures ReachesEnd(out, u)
  {
    assert ([u] + p)[1..] == p;
    assert Path(out, [u] + p, u, END);
  }

  /** Unless nodes block each other, somebody works on the way to END until test reports done. */
  lemma SomeoneWorks(g: Graph, s: State) returns (w: nat)
    requires Built(g) && Inv(g, s) && s.started && !Test(g, s) && !Blocked(g.out)
    ensures Works(g, s, w)
  {
    if w' :| Works(g, s, w') {
      w := w';
    } else {
      forall v | v in StillWaiting(g, s) ensures BlockedNode(g.out, StillWaiting(g, s), v) {
        WaitsForSomeone(g, s, v);
      }
      assert NodeOk(g, s, END) && Path(g.out, [END], END, END);
      assert END in StillWaiting(g, s);
      assert Blocks(g.out, StillWaiting(g, s));
      assert false;
    }
  }

  /** An acyclic graph whose nodes all have an incoming edge is not blocked. */
  lemma AcyclicNotBlocked(out: seq<seq<nat>>)
    requires Acyclic(out) && forall v :: START < v < |out| ==> InDegree(out, v) > 0
    ensures !Blocked(out)
  {
    var rank :| Ranked(out, rank);
    if nodes :| Blocks(out, nodes) {
      var v :| v in nodes;
      NoDescent(out, rank, nodes, v);
      assert false;
    }
  }

  lemma {:induction false} NoDescent(out: seq<seq<nat>>, rank: seq<nat>, nodes: set<nat>, v: nat)
    requires Ranked(out, rank) && v in nodes && v < |out|
    requires forall v :: START < v < |out| ==> InDegree(out, v) > 0
    ensures !Blocks(out, nodes)
    decreases rank[v]
  {
    if Blocks(out, nodes) {
      assert BlockedNode(out, nodes, v);
      var u :| u in nodes && u < |out| && v in out[u];
      var j :| 0 <= j < |out[u]| && out[u][j] == v;
      NoDescent(out, rank, nodes, u);
    }
  }

  ghost predicate SomeoneCanStep(g: Graph, s: State)
    requires Shaped(g, s)
  {
    exists t, c: Choice :: c != Start && Enabled(g, s, t, c)
  }

  lemma BusyCanStep(g: Graph, s: State, t: nat)
    requires Shaped(g, s) && Busy(s, t)
    ensures SomeoneCanStep(g, s)
  {
    var f := Top(s, t);
    if t in s.comparing {
      assert Enabled(g, s, t, Compare);
    } else if f.Run? {
      assert Enabled(g, s, t, Call(true));
    } else if f.Mark? && f.next < |g.out[f.node]| {
      assert Enabled(g, s, t, Signal);
    } else {
      assert Enabled(g, s, t, Exit);
    }
  }

  /** On a graph without blocked nodes, a run that was started and cannot move any more has finished: test
      reports done, and a completion object was signalled. */
  lemma NeverStuck(g: Graph, s0: State, trace: seq<(nat, Choice)>)
    requires Built(g) && NoDeadEnds(g.out) && !Blocked(g.out) && Initial(g, s0) && s0.threads != []
    ensures var s := Exec(g, s0, trace);
            s.started && !SomeoneCanStep(g, s) ==>
              Test(g, s) && s.deletions == (if g.deletes && g.expected[END] > 0 then 1 else 0)
  {
    ExecInv(g, s0, trace);
    var s := Exec(g, s0, trace);
    if s.started && !Test(g, s) {
      var w := SomeoneWorks(g, s);
      assert OwnerOk(g, s, w);
      match s.h.phase[w]
      case Posted => assert Enabled(g, s, 0, if 0 in s.comparing then Compare else Complete(w));
      case Running(t, _) => BusyCanStep(g, s, t);
      case Marking(t, _) => BusyCanStep(g, s, t);
    } else if s.started && g.deletes && s.deletions == 0 && g.expected[END] > 0 {
      BusyCanStep(g, s, s.h.winner.0);
    }
  }

  // ------------------------------------------------------- no run goes on for ever

  /** What is left to do for a node: its edges, its call and its completion. */
  function NodeWork(out: seq<nat>, sent: nat, p: Phase): nat {
    (if sent <= |out| then 3 * (|out| - sent) else 0) + if Completed(p) then 0 else if p.Posted? then 2 else 3
  }

  function NodeWorks(g: Graph, h: History): seq<nat>
    requires |h.phase| == |h.sent| == |g.out|
  {
    seq(|g.out|, v requires 0 <= v < |g.out| => NodeWork(g.out[v], h.sent[v], h.phase[v]))
  }

  function Depths(threads: seq<seq<Frame>>): seq<nat> {
    seq(|threads|, t requires 0 <= t < |threads| => |threads[t]|)
  }

  function Work(g: Graph, s: State): nat
    requires |s.h.phase| == |s.h.sent| == |g.out|
  {
    Sum(NodeWorks(g, s.h)) + Sum(Depths(s.threads)) + |s.comparing|
  }

  lemma WorkOfNode(g: Graph, h: History, h': History, v: nat)
    requires |h.phase| == |h.sent| == |g.out| == |h'.phase| == |h'.sent| && v < |g.out|
    requires h'.phase == h.phase[v := h'.phase[v]] && h'.sent == h.sent[v := h'.sent[v]]
    ensures Sum(NodeWorks(g, h')) - Sum(NodeWorks(g, h))
         == NodeWork(g.out[v], h'.sent[v], h'.phase[v]) - NodeWork(g.out[v], h.sent[v], h.phase[v])
  {
    SumUpdate(NodeWorks(g, h), v, NodeWork(g.out[v], h'.sent[v], h'.phase[v]));
    assert NodeWorks(g, h') == NodeWorks(g, h)[v := NodeWork(g.out[v], h'.sent[v], h'.phase[v])];
  }

  lemma DepthOfThread(threads: seq<seq<Frame>>, threads': seq<seq<Frame>>, t: nat)
    requires t < |threads| && |threads'| == |threads| && threads' == threads[t := threads'[t]]
    ensures Sum(Depths(threads')) - Sum(Depths(threads)) == |threads'[t]| - |threads[t]|
  {
    SumUpdate(Depths(threads), t, |threads'[t]|);
    assert Depths(threads') == Depths(threads)[t := |threads'[t]|];
  }

  lemma SignalShrinks(g: Graph, s: State, t: nat)
    requires Built(g) && Inv(g, s) && Enabled(g, s, t, Signal)
    ensures Work(g, DoSignal(g, s, t)) < Work(g, s)
  {
    var s' := DoSignal(g, s, t);
    NoOverSignal(g, s, t);
    SignalWork(g, s, t);
    DepthOfThread(s.threads, s'.threads, t);
  }

  /** An edge processed is three units of work; the node it may wake up is as far as before. */
  lemma SignalWork(g: Graph, s: State, t: nat)
    requires Shaped(g, s) && Enabled(g, s, t, Signal) && Due(g, s, t)
    ensures Sum(NodeWorks(g, DoSignal(g, s, t).h)) + 3 <= Sum(NodeWorks(g, s.h))
  {
    var s' := DoSignal(g, s, t);
    var u, i := Top(s, t).node, Top(s, t).next;
    var mid := s.h.(phase := s.h.phase[u := Settle(g, u, i + 1, t, |s.threads[t]| - 1)], sent := s.h.sent[u := i + 1]);
    WorkOfNode(g, s.h, mid, u);
    WorkOfNode(g, mid, s'.h, g.out[u][i]);
  }

  lemma CallShrinks(g: Graph, s: State, t: nat, done: bool)
    requires Shaped(g, s) && Enabled(g, s, t, Call(done)) && NodeOk(g, s, Top(s, t).node)
    requires FrameOk(g, s, t, |s.threads[t]| - 1)
    ensures Work(g, DoCall(g, s, t, done)) < Work(g, s)
  {
    var s' := DoCall(g, s, t, done);
    DepthOfThread(s.threads, s'.threads, t);
    WorkOfNode(g, s.h, s'.h, Top(s, t).node);
  }

  lemma CompleteShrinks(g: Graph, s: State, t: nat, v: nat)
    requires Shaped(g, s) && Enabled(g, s, t, Complete(v)) && s.h.phase[v] == Posted
    ensures Work(g, DoComplete(g, s, t, v)) < Work(g, s)
  {
    var s' := DoComplete(g, s, t, v);
    DepthOfThread(s.threads, s'.threads, t);
    WorkOfNode(g, s.h, s'.h, v);
  }

  /** Every step of a run but a start leaves strictly less to do. */
  lemma StepShrinks(g: Graph, s: State, t: nat, c: Choice)
    requires Built(g) && Inv(g, s) && Enabled(g, s, t, c) && c != Start
    ensures Work(g, Step(g, s, t, c)) < Work(g, s)
  {
    match c
    case Signal => SignalShrinks(g, s, t);
    case Compare =>
    case Call(done) =>
      assert FrameOk(g, s, t, |s.threads[t]| - 1) && NodeOk(g, s, Top(s, t).node);
      CallShrinks(g, s, t, done);
    case Complete(v) => CompleteShrinks(g, s, t, v);
    case Exit => DepthOfThread(s.threads, DoExit(g, s, t).threads, t);
  }

  /** After trace, every step of `more` is possible and none is a start. */
  ghost predicate Continues(g: Graph, s0: State, trace: seq<(nat, Choice)>, more: seq<(nat, Choice)>)
    requires Initial(g, s0)
    decreases |more|
  {
    more == [] ||
    (var before, e := more[..|more| - 1], more[|more| - 1];
     Continues(g, s0, trace, before) && e.1 != Start && Enabled(g, Exec(g, s0, trace + before), e.0, e.1))
  }

  lemma ExecSnoc(g: Graph, s0: State, trace: seq<(nat, Choice)>, t: nat, c: Choice)
    requires Initial(g, s0)
    ensures Exec(g, s0, trace + [(t, c)]) == Step(g, Exec(g, s0, trace), t, c)
  {
    assert (trace + [(t, c)])[..|trace|] == trace;
  }

  lemma ExecGoesOn(g: Graph, s0: State, trace: seq<(nat, Choice)>, more: seq<(nat, Choice)>)
    requires Initial(g, s0) && more != []
    ensures var e := more[|more| - 1];
            Exec(g, s0, trace + more) == Step(g, Exec(g, s0, trace + more[..|more| - 1]), e.0, e.1)
  {
    var e := more[|more| - 1];
    ExecSnoc(g, s0, trace + more[..|more| - 1], e.0, e.1);
    assert trace + more[..|more| - 1] + [(e.0, e.1)] == trace + more;
  }

  lemma {:induction false} InvGoesOn(g: Graph, s0: State, trace: seq<(nat, Choice)>, more: seq<(nat, Choice)>)
    requires Built(g) && Initial(g, s0) && Continues(g, s0, trace, more)
    requires NoDeadEnds(g.out) || StartsInTime(g, s0, trace)
    ensures Inv(g, Exec(g, s0, trace + more))
    decreases |more|
  {
    if more == [] {
      assert trace + more == trace;
      EitherInv(g, s0, trace);
    } else {
      var before, e := more[..|more| - 1], more[|more| - 1];
      InvGoesOn(g, s0, trace, before);
      ExecGoesOn(g, s0, trace, more);
      StepKeeps(g, Exec(g, s0, trace + before), e.0, e.1);
    }
  }

  /** Between two starts a run takes at most as many steps as there was work to do. */
  lemma {:induction false} RunsAreBounded(g: Graph, s0: State, trace: seq<(nat, Choice)>, more: seq<(nat, Choice)>)
    requires Built(g) && Initial(g, s0) && Continues(g, s0, trace, more)
    requires NoDeadEnds(g.out) || StartsInTime(g, s0, trace)
    ensures Work(g, Exec(g, s0, trace + more)) + |more| <= Work(g, Exec(g, s0, trace))
    decreases |more|
  {
    if more == [] {
      assert trace + more == trace;
    } else {
      var before, e := more[..|more| - 1], more[|more| - 1];
      RunsAreBounded(g, s0, trace, before);
      InvGoesOn(g, s0, trace, before);
      StepShrinks(g, Exec(g, s0, trace + before), e.0, e.1);
      ExecGoesOn(g, s0, trace, more);
    }
  }
}
