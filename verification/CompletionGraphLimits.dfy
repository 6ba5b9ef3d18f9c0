/** Where the promises of the completion graph end: exactly which graphs report done too early, and
    exactly which are deleted while somebody still needs them. */
module CompletionGraphLimits {
  import opened CompletionGraph
  import opened CompletionGraphProof

  // ------------------------------------------------------- a run that fills END first

  ghost predicate HurriedNode(g: Graph, s: State, v: nat)
    requires Shaped(g, s) && v < |g.out|
  {
    if ReachesEnd(g.out, v) then s.h.phase[v] != Posted else !Completed(s.h.phase[v])
  }

  /** Every node on the way to END is done as soon as it is called, and no other node completes. */
  ghost predicate Hurried(g: Graph, s: State) {
    && Inv(g, s) && WinnerOk(g, s) && s.started
    && (forall v :: END < v < |g.out| ==> HurriedNode(g, s, v))
  }

  /** What the thread does next: finish its top call, without completing what does not lead to END. */
  ghost function Next(g: Graph, s: State, t: nat): Choice
    requires Shaped(g, s) && Busy(s, t)
  {
    var f := Top(s, t);
    if t in s.comparing then Compare
    else if f.Run? then Call(ReachesEnd(g.out, f.node))
    else if f.Mark? && f.next < |g.out[f.node]| then Signal
    else Exit
  }

  lemma NextEnabled(g: Graph, s: State, t: nat)
    requires Built(g) && Inv(g, s) && WinnerOk(g, s) && Busy(s, t)
    ensures var c := Next(g, s, t); c != Start && Enabled(g, s, t, c)
    ensures var s' := Step(g, s, t, Next(g, s, t)); Inv(g, s') && WinnerOk(g, s') && Work(g, s') < Work(g, s)
  {
    var c := Next(g, s, t);
    StepKeeps(g, s, t, c);
    StepWinner(g, s, t, c);
    StepShrinks(g, s, t, c);
  }

  lemma NextHurries(g: Graph, s: State, t: nat, v: nat)
    requires Built(g) && Inv(g, s) && Busy(s, t) && END < v < |g.out| && HurriedNode(g, s, v)
    requires Shaped(g, Step(g, s, t, Next(g, s, t)))
    ensures HurriedNode(g, Step(g, s, t, Next(g, s, t)), v)
  {
    assert HasFrame(s.threads, t, |s.threads[t]| - 1) && FrameOk(g, s, t, |s.threads[t]| - 1);
    if Next(g, s, t) == Signal {
      NoOverSignal(g, s, t);
    }
  }

  lemma NextKeeps(g: Graph, s: State, t: nat)
    requires Built(g) && Hurried(g, s) && Busy(s, t)
    ensures var c := Next(g, s, t);
            && c != Start && Enabled(g, s, t, c) && Hurried(g, Step(g, s, t, c))
            && Work(g, Step(g, s, t, c)) < Work(g, s)
  {
    NextEnabled(g, s, t);
    var s' := Step(g, s, t, Next(g, s, t));
    forall v | END < v < |g.out| ensures HurriedNode(g, s', v) {
      NextHurries(g, s, t, v);
    }
  }

  /** Nobody deletes the graph before END is full. */
  lemma NotDeletedYet(g: Graph, s: State, t: nat)
    requires Shaped(g, s) && Inv(g, s) && Busy(s, t) && (s.started ==> !Test(g, s)) && s.deletions == 0
    ensures Step(g, s, t, Next(g, s, t)).deletions == 0
  {
    assert HasFrame(s.threads, t, |s.threads[t]| - 1) && FrameOk(g, s, t, |s.threads[t]| - 1);
  }

  lemma Starts(g: Graph, s0: State)
    requires Built(g) && Initial(g, s0) && s0.threads != []
    ensures Hurried(g, Exec(g, s0, [(0, Start)])) && Exec(g, s0, [(0, Start)]).deletions == 0
    ensures g.expected[END] > 0 ==> !Test(g, Exec(g, s0, [(0, Start)]))
  {
    InitialOk(g, s0);
    ExecSnoc(g, s0, [], 0, Start);
    assert [] + [(0, Start)] == [(0, Start)];
    BeforeStart(g, s0, 0);
    StepKeeps(g, s0, 0, Start);
    StepWinner(g, s0, 0, Start);
  }

  /** Somebody who works on the way to END is on a stack. */
  lemma SomeoneIsBusy(g: Graph, s: State) returns (t: nat)
    requires Built(g) && Hurried(g, s) && !Test(g, s) && !Blocked(g.out)
    ensures Busy(s, t)
  {
    var w := SomeoneWorks(g, s);
    assert NodeOk(g, s, w) && OwnerOk(g, s, w) && (w != START ==> HurriedNode(g, s, w));
    t := s.h.phase[w].t;
  }

  /** From any such state END fills up. */
  lemma {:induction false} FillEnd(g: Graph, s0: State, trace: seq<(nat, Choice)>) returns (whole: seq<(nat, Choice)>)
    requires Built(g) && Initial(g, s0) && !Blocked(g.out)
    requires Hurried(g, Exec(g, s0, trace)) && Exec(g, s0, trace).deletions == 0
    ensures Hurried(g, Exec(g, s0, whole)) && Test(g, Exec(g, s0, whole)) && Exec(g, s0, whole).deletions == 0
    decreases Work(g, Exec(g, s0, trace))
  {
    var s := Exec(g, s0, trace);
    if Test(g, s) {
      whole := trace;
    } else {
      var t := SomeoneIsBusy(g, s);
      NextKeeps(g, s, t);
      NotDeletedYet(g, s, t);
      ExecSnoc(g, s0, trace, t, Next(g, s, t));
      whole := FillEnd(g, s0, trace + [(t, Next(g, s, t))]);
    }
  }

  // ------------------------------------------------------- freeing a graph that is kept

  /** The step that fills END leaves its call on the stack, about to look at the graph once more. */
  lemma {:induction false} WinnerStillThere(g: Graph, s0: State, trace: seq<(nat, Choice)>)
    returns (whole: seq<(nat, Choice)>, t: nat)
    requires Built(g) && Initial(g, s0) && !Blocked(g.out)
    requires Hurried(g, Exec(g, s0, trace)) && !Test(g, Exec(g, s0, trace))
    ensures var s := Exec(g, s0, whole);
            s.started && Test(g, s) && Busy(s, t) && Top(s, t).Mark? && Top(s, t).completed
    decreases Work(g, Exec(g, s0, trace))
  {
    var s := Exec(g, s0, trace);
    t := SomeoneIsBusy(g, s);
    var c := Next(g, s, t);
    NextKeeps(g, s, t);
    ExecSnoc(g, s0, trace, t, c);
    whole := trace + [(t, c)];
    if Test(g, Step(g, s, t, c)) {
      FilledBy(g, s, t, c);
    } else {
      whole, t := WinnerStillThere(g, s0, whole);
    }
  }

  lemma FilledBy(g: Graph, s: State, t: nat, c: Choice)
    requires Built(g) && Inv(g, s) && s.started && !Test(g, s) && c != Start && Enabled(g, s, t, c)
    ensures var s' := Step(g, s, t, c); Test(g, s') ==> Busy(s', t) && Top(s', t).Mark? && Top(s', t).completed
  {
    match c
    case Signal => NoOverSignal(g, s, t);
    case Compare =>
    case Call(_) => assert FrameOk(g, s, t, |s.threads[t]| - 1);
    case Complete(v) => assert NodeOk(g, s, v);
    case Exit =>
  }

  /** Test may report done while the call that sent the last signal has still to look at the graph, on
      every graph that can finish and has an edge to END. */
  lemma FreeingTooEarly(g: Graph, s0: State) returns (trace: seq<(nat, Choice)>, t: nat)
    requires Built(g) && !Blocked(g.out) && g.expected[END] > 0 && Initial(g, s0) && s0.threads != []
    ensures var s := Exec(g, s0, trace); s.started && Test(g, s) && Busy(s, t) && WillRead(g, Top(s, t), false)
  {
    Starts(g, s0);
    trace, t := WinnerStillThere(g, s0, [(0, Start)]);
  }

  // ------------------------------------------------------- reading after the deletion

  /** The edges of START lead to nodes 2 and 3, and these lead to END. */
  function TwoNodes(): Graph {
    Graph([[2, 3], [], [END], [END]], [0, 2, 1, 1], true)
  }

  /** What the other threads can see of a state, and the stacks. */
  ghost predicate Looks(s: State, threads: seq<seq<Frame>>, pending: set<nat>, comparing: set<nat>, ends: nat) {
    && |s.received| == 4 && s.received[END] == ends && s.threads == threads && s.pending == pending
    && s.comparing == comparing && s.deletions == 0
  }

  /** Thread 0 signals node v, calls its function, and the function posts it. */
  lemma PostsNode(s: State, i: nat, v: nat, threads: seq<seq<Frame>>, pending: set<nat>)
    requires Shaped(TwoNodes(), s) && |threads| == 3 && threads[0] == [Mark(START, i, false)] && i < 2 && v == i + 2
    requires Looks(s, threads, pending, {}, 0) && s.received[v] == 0
    ensures var g := TwoNodes();
            var s' := Step(g, Step(g, Step(g, s, 0, Signal), 0, Compare), 0, Call(false));
            && Looks(s', threads[0 := [Mark(START, i + 1, false), Returned(v)]], pending + {v}, {}, 0)
            && (i == 0 ==> s'.received[3] == s.received[3])
  {
    var g := TwoNodes();
    assert g.out[START][i] == v && g.expected[v] == 1;
    var s1 := Step(g, s, 0, Signal);
    assert s1.threads[0] == [Mark(START, i + 1, false), Run(v)];
    assert s1.threads == threads[0 := [Mark(START, i + 1, false), Run(v)]];
    var s2 := Step(g, s1, 0, Compare);
    assert Looks(s2, s1.threads, pending, {}, 0);
    var s3 := Step(g, s2, 0, Call(false));
    assert s3.threads[0] == [Mark(START, i + 1, false), Returned(v)];
    assert s3.threads == threads[0 := [Mark(START, i + 1, false), Returned(v)]];
  }

  lemma MarksNode(s: State, t: nat, v: nat, threads: seq<seq<Frame>>, pending: set<nat>, comparing: set<nat>,
                  ends: nat)
    requires Shaped(TwoNodes(), s) && |threads| == 3 && 0 < t < 3 && threads[t] == [] && 2 <= v < 4 && v in pending
    requires Looks(s, threads, pending, comparing, ends) && t !in comparing
    ensures var s' := Step(TwoNodes(), s, t, Complete(v));
            Looks(s', threads[t := [Mark(v, 0, false)]], pending - {v}, comparing, ends)
  {
    var s' := Step(TwoNodes(), s, t, Complete(v));
    assert s'.threads[t] == [Mark(v, 0, false)];
    assert s'.threads == threads[t := [Mark(v, 0, false)]];
  }

  lemma SignalsEnd(s: State, t: nat, v: nat, threads: seq<seq<Frame>>, pending: set<nat>, comparing: set<nat>,
                   ends: nat)
    requires Shaped(TwoNodes(), s) && |threads| == 3 && t < 3 && threads[t] == [Mark(v, 0, false)] && 2 <= v < 4
    requires Looks(s, threads, pending, comparing, ends) && t !in comparing && ends < 2
    ensures var s' := Step(TwoNodes(), s, t, Signal);
            Looks(s', threads[t := [Mark(v, 1, ends == 1)]], pending, comparing + {t}, ends + 1)
  {
    var g := TwoNodes();
    assert g.out[v] == [END] && g.expected[END] == 2;
    var s' := Step(g, s, t, Signal);
    assert s'.threads[t] == [Mark(v, 1, ends == 1)];
    assert s'.threads == threads[t := [Mark(v, 1, ends == 1)]];
  }

  /** Thread t completes node v and signals END. */
  lemma CompletesNode(s: State, t: nat, v: nat, threads: seq<seq<Frame>>, pending: set<nat>, comparing: set<nat>,
                      ends: nat)
    requires Shaped(TwoNodes(), s) && |threads| == 3 && 0 < t < 3 && threads[t] == [] && 2 <= v < 4 && v in pending
    requires Looks(s, threads, pending, comparing, ends) && t !in comparing && ends < 2
    ensures var g := TwoNodes();
            var s' := Step(g, Step(g, s, t, Complete(v)), t, Signal);
            Looks(s', threads[t := [Mark(v, 1, ends == 1)]], pending - {v}, comparing + {t}, ends + 1)
  {
    var between := threads[t := [Mark(v, 0, false)]];
    MarksNode(s, t, v, threads, pending, comparing, ends);
    SignalsEnd(Step(TwoNodes(), s, t, Complete(v)), t, v, between, pending - {v}, comparing, ends);
    assert between[t := [Mark(v, 1, ends == 1)]] == threads[t := [Mark(v, 1, ends == 1)]];
  }

  lemma TwoSteps(g: Graph, s0: State, trace: seq<(nat, Choice)>, t: nat, a: Choice, b: Choice)
    requires Initial(g, s0)
    ensures Exec(g, s0, trace + [(t, a)] + [(t, b)]) == Step(g, Step(g, Exec(g, s0, trace), t, a), t, b)
  {
    ExecSnoc(g, s0, trace, t, a);
    ExecSnoc(g, s0, trace + [(t, a)], t, b);
  }

  lemma PostsInRun(s0: State, trace: seq<(nat, Choice)>, i: nat, v: nat, pending: set<nat>)
    returns (trace': seq<(nat, Choice)>)
    requires Initial(TwoNodes(), s0) && i < 2 && v == i + 2
    requires var s := Exec(TwoNodes(), s0, trace);
             && |s.threads| == 3 && s.threads[0] == [Mark(START, i, false)]
             && Looks(s, s.threads, pending, {}, 0) && s.received[v] == 0
    ensures var s, s' := Exec(TwoNodes(), s0, trace), Exec(TwoNodes(), s0, trace');
            && Looks(s', s.threads[0 := [Mark(START, i + 1, false), Returned(v)]], pending + {v}, {}, 0)
            && (i == 0 ==> s'.received[3] == s.received[3])
  {
    var g := TwoNodes();
    var s := Exec(g, s0, trace);
    PostsNode(s, i, v, s.threads, pending);
    TwoSteps(g, s0, trace, 0, Signal, Compare);
    trace' := trace + [(0, Signal)] + [(0, Compare)];
    ExecSnoc(g, s0, trace', 0, Call(false));
    trace' := trace' + [(0, Call(false))];
  }

  /** Thread 0 starts the graph, posts node 2 and returns from that call. */
  lemma FirstPosted(s0: State) returns (trace: seq<(nat, Choice)>)
    requires Initial(TwoNodes(), s0) && |s0.threads| == 3
    ensures var s := Exec(TwoNodes(), s0, trace);
            Looks(s, [[Mark(START, 1, false)], [], []], {2}, {}, 0) && s.received[3] == 0
  {
    var g := TwoNodes();
    trace := Started(s0);
    var s := Exec(g, s0, trace);
    trace := PostsInRun(s0, trace, 0, 2, {});
    assert {} + {2} == {2};
    ExecSnoc(g, s0, trace, 0, Exit);
    Returns(Exec(g, s0, trace), s.threads, 1, {2});
    trace := trace + [(0, Exit)];
  }

  lemma Started(s0: State) returns (trace: seq<(nat, Choice)>)
    requires Initial(TwoNodes(), s0) && |s0.threads| == 3
    ensures var s := Exec(TwoNodes(), s0, trace);
            && Looks(s, [[Mark(START, 0, false)], [], []], {}, {}, 0) && s.received[2] == s.received[3] == 0
  {
    var g := TwoNodes();
    ExecSnoc(g, s0, [], 0, Start);
    trace := [] + [(0, Start)];
    var s := Step(g, s0, 0, Start);
    assert s.threads[0] == [Mark(START, 0, false)];
    assert s.threads == [[Mark(START, 0, false)], [], []];
  }

  lemma Returns(s: State, threads: seq<seq<Frame>>, i: nat, pending: set<nat>)
    requires Shaped(TwoNodes(), s) && |threads| == 3 && threads[1] == threads[2] == [] && i <= 2
    requires Looks(s, threads[0 := [Mark(START, i, false), Returned(i + 1)]], pending, {}, 0)
    ensures var s' := Step(TwoNodes(), s, 0, Exit);
            Looks(s', [[Mark(START, i, false)], [], []], pending, {}, 0) && s'.received == s.received
  {
    var s' := Step(TwoNodes(), s, 0, Exit);
    assert s'.threads[0] == [Mark(START, i, false)];
    assert s'.threads == [[Mark(START, i, false)], [], []];
  }

  /** Thread 0 posts both nodes and has not returned from the second call. */
  lemma BothPosted(s0: State) returns (trace: seq<(nat, Choice)>)
    requires Initial(TwoNodes(), s0) && |s0.threads| == 3
    ensures Looks(Exec(TwoNodes(), s0, trace), [[Mark(START, 2, false), Returned(3)], [], []], {2, 3}, {}, 0)
  {
    var g := TwoNodes();
    trace := FirstPosted(s0);
    var s := Exec(g, s0, trace);
    trace := PostsInRun(s0, trace, 1, 3, {2});
    assert {2} + {3} == {2, 3};
    assert s.threads[0 := [Mark(START, 2, false), Returned(3)]] == [[Mark(START, 2, false), Returned(3)], [], []];
  }

  /** A run of three threads after whose deletion thread 1 has still to read the count to compare with,
      and thread 0, in a debug build, the node that it posted. */
  lemma ReadsAfterDeletion(s0: State) returns (trace: seq<(nat, Choice)>)
    requires Initial(TwoNodes(), s0) && |s0.threads| == 3
    ensures var s := Exec(TwoNodes(), s0, trace);
            s.deletions == 1 && 1 in s.comparing && Busy(s, 0) && WillRead(TwoNodes(), Top(s, 0), true)
  {
    var g := TwoNodes();
    trace := BothPosted(s0);
    var s1 := Exec(g, s0, trace);
    CompletesNode(s1, 1, 2, s1.threads, {2, 3}, {}, 0);
    TwoSteps(g, s0, trace, 1, Complete(2), Signal);
    trace := trace + [(1, Complete(2))] + [(1, Signal)];
    var s2 := Exec(g, s0, trace);
    CompletesNode(s2, 2, 3, s2.threads, s2.pending, {} + {1}, 1);
    TwoSteps(g, s0, trace, 2, Complete(3), Signal);
    trace := trace + [(2, Complete(3))] + [(2, Signal)];
    Deletes(Exec(g, s0, trace), s2.threads[2 := [Mark(3, 1, true)]]);
    TwoSteps(g, s0, trace, 2, Compare, Exit);
    trace := trace + [(2, Compare)] + [(2, Exit)];
  }

  lemma Deletes(s: State, threads: seq<seq<Frame>>)
    requires Shaped(TwoNodes(), s) && |threads| == 3 && threads[2] == [Mark(3, 1, true)] && 2 in s.comparing
    requires Looks(s, threads, s.pending, s.comparing, 2)
    ensures var g := TwoNodes();
            var s' := Step(g, Step(g, s, 2, Compare), 2, Exit);
            s'.deletions == 1 && s'.comparing == s.comparing - {2} && s'.threads == threads[2 := []]
  {
    var g := TwoNodes();
    assert |g.out[3]| == 1;
    var s1 := Step(g, s, 2, Compare);
    assert Looks(s1, threads, s.pending, s.comparing - {2}, 2);
  }

  // ------------------------------------------------------- test reports done too early

  /** On a graph that is not blocked, a node without a path to END need not be done when test says so. */
  lemma DoneTooEarly(g: Graph, s0: State, v: nat) returns (trace: seq<(nat, Choice)>)
    requires Built(g) && !Blocked(g.out) && Initial(g, s0) && s0.threads != []
    requires END < v < |g.out| && !ReachesEnd(g.out, v)
    ensures var s := Exec(g, s0, trace); s.started && Test(g, s) && s.h.phase[v] != Done
  {
    Starts(g, s0);
    trace := FillEnd(g, s0, [(0, Start)]);
    assert HurriedNode(g, Exec(g, s0, trace), v);
  }

  lemma {:induction false} SentArrives(out: seq<seq<nat>>, sent: seq<nat>, u: nat, j: nat, n: nat)
    requires Within(out, sent) && u < n <= |out| && j < sent[u]
    ensures Arrived(out, sent, out[u][j], n) > 0
  {
    if n - 1 == u {
      var s := out[u][..sent[u]];
      CountPrefix(s, 0, out[u][j]);
      assert s[j] == out[u][j];
    } else {
      SentArrives(out, sent, u, j, n - 1);
    }
  }

  /** Behind a dead end something is under way when test reports done. */
  lemma DeadEndBusy(g: Graph, s: State, u: nat, v: nat)
    requires Built(g) && Hurried(g, s) && Test(g, s) && DeadEnd(g.out, u, v)
    ensures !Quiet(g, s)
  {
    assert NodeOk(g, s, u) && NodeOk(g, s, v) && OwnerOk(g, s, u) && HurriedNode(g, s, v);
    if u != START {
      TargetFull(g, s, u);
    }
    if s.h.phase[u].Done? {
      var j :| 0 <= j < |g.out[u]| && g.out[u][j] == v;
      SentArrives(g.out, s.h.sent, u, j, |g.out|);
    }
  }

  lemma NotQuietWhenDone(g: Graph, s0: State, u: nat, v: nat) returns (trace: seq<(nat, Choice)>)
    requires Built(g) && !Blocked(g.out) && Initial(g, s0) && s0.threads != [] && DeadEnd(g.out, u, v)
    ensures var s := Exec(g, s0, trace); s.started && Test(g, s) && s.h.phase[v] != Done && !Quiet(g, s)
  {
    Starts(g, s0);
    trace := FillEnd(g, s0, [(0, Start)]);
    assert HurriedNode(g, Exec(g, s0, trace), v);
    DeadEndBusy(g, Exec(g, s0, trace), u, v);
  }

  // ------------------------------------------------------- deletion too early

  /** The frame that filled END goes on until it deletes the graph. */
  lemma {:induction false} DeleteEarly(g: Graph, s0: State, trace: seq<(nat, Choice)>, u: nat, v: nat)
    returns (whole: seq<(nat, Choice)>, t: nat)
    requires Built(g) && g.deletes && g.expected[END] > 0 && Initial(g, s0) && DeadEnd(g.out, u, v)
    requires Hurried(g, Exec(g, s0, trace)) && Test(g, Exec(g, s0, trace)) && Exec(g, s0, trace).deletions == 0
    ensures var s := Exec(g, s0, whole);
            && s.started && Test(g, s) && s.h.phase[v] != Done && !Quiet(g, s)
            && Step(g, s, t, Exit).deletions > s.deletions
    decreases Work(g, Exec(g, s0, trace))
  {
    var s := Exec(g, s0, trace);
    t := s.h.winner.0;
    WinnerMoves(g, s);
    if Step(g, s, t, Next(g, s, t)).deletions > 0 {
      whole := trace;
      assert HurriedNode(g, s, v);
      DeadEndBusy(g, s, u, v);
    } else {
      ExecSnoc(g, s0, trace, t, Next(g, s, t));
      whole, t := DeleteEarly(g, s0, trace + [(t, Next(g, s, t))], u, v);
    }
  }

  lemma WinnerMoves(g: Graph, s: State)
    requires Built(g) && g.deletes && g.expected[END] > 0 && Hurried(g, s) && Test(g, s) && s.deletions == 0
    ensures var t := s.h.winner.0;
            && Busy(s, t)
            && var s' := Step(g, s, t, Next(g, s, t));
               && Hurried(g, s') && Test(g, s') && Work(g, s') < Work(g, s)
               && (s'.deletions > 0 ==> Next(g, s, t) == Exit)
  {
    var t := s.h.winner.0;
    NextKeeps(g, s, t);
    StaysFull(g, s, t, Next(g, s, t));
  }

  /** Nothing but a start takes signals away from END. */
  lemma StaysFull(g: Graph, s: State, t: nat, c: Choice)
    requires Built(g) && Inv(g, s) && s.started && Test(g, s) && c != Start
    ensures Test(g, Step(g, s, t, c))
  {
    if Enabled(g, s, t, c) {
      match c
      case Signal => NoOverSignal(g, s, t);
      case Compare =>
      case Call(_) => assert FrameOk(g, s, t, |s.threads[t]| - 1);
      case Complete(v) => assert NodeOk(g, s, v);
      case Exit =>
    }
  }

  // ------------------------------------------------------- a blocked graph

  /** In a blocked graph, test never reports done. */
  lemma {:induction false} BlockedNeverDone(g: Graph, s0: State, trace: seq<(nat, Choice)>, nodes: set<nat>)
    requires Built(g) && Blocks(g.out, nodes) && Initial(g, s0)
    ensures var s := Exec(g, s0, trace); Inv(g, s) && (s.started ==> !Test(g, s)) && AllWait(g, s, nodes)
  {
    if trace == [] {
      InitialOk(g, s0);
    } else {
      var before := trace[..|trace| - 1];
      var (t, c) := trace[|trace| - 1];
      var s := Exec(g, s0, before);
      BlockedNeverDone(g, s0, before, nodes);
      if c == Start && Enabled(g, s, t, c) {
        BeforeStart(g, s, t);
      }
      StepKeeps(g, s, t, c);
      StillAllWait(g, s, t, c, nodes);
      NotFull(g, Step(g, s, t, c), nodes);
    }
  }

  ghost predicate AllWait(g: Graph, s: State, nodes: set<nat>)
    requires Shaped(g, s)
  {
    forall v :: v in nodes && v < |g.out| ==> s.h.phase[v].Waiting?
  }

  lemma StillAllWait(g: Graph, s: State, t: nat, c: Choice, nodes: set<nat>)
    requires Built(g) && Inv(g, s) && Blocks(g.out, nodes) && AllWait(g, s, nodes) && Inv(g, Step(g, s, t, c))
    ensures AllWait(g, Step(g, s, t, c), nodes)
  {
    if Enabled(g, s, t, c) {
      match c
      case Start =>
      case Signal => SignalAllWait(g, s, t, nodes);
      case Compare =>
      case Call(_) => assert FrameOk(g, s, t, |s.threads[t]| - 1);
      case Complete(v) => assert s.h.phase[v] == Posted;
      case Exit =>
    }
  }

  lemma SignalAllWait(g: Graph, s: State, t: nat, nodes: set<nat>)
    requires Built(g) && Inv(g, s) && Blocks(g.out, nodes) && AllWait(g, s, nodes) && Enabled(g, s, t, Signal)
    requires Inv(g, DoSignal(g, s, t))
    ensures AllWait(g, DoSignal(g, s, t), nodes)
  {
    var s' := DoSignal(g, s, t);
    NoOverSignal(g, s, t);
    var v := g.out[Top(s, t).node][Top(s, t).next];
    assert forall x :: 0 <= x < |g.out| && x != v && s.h.phase[x].Waiting? ==> s'.h.phase[x].Waiting?;
    if v in nodes {
      CannotRun(g, s', nodes, v);
    }
  }

  /** A blocked node is not triggered while the others wait. */
  lemma CannotRun(g: Graph, s: State, nodes: set<nat>, v: nat)
    requires Built(g) && Inv(g, s) && Blocks(g.out, nodes) && v in nodes && InDegree(g.out, v) > 0
    requires forall x :: x in nodes && x < |g.out| && x != v ==> s.h.phase[x].Waiting?
    ensures !s.h.phase[v].Running?
  {
    assert NodeOk(g, s, v) && BlockedNode(g.out, nodes, v);
    var u :| u in nodes && u < |g.out| && v in g.out[u];
    var j :| 0 <= j < |g.out[u]| && g.out[u][j] == v;
    assert NodeOk(g, s, u);
    if s.h.phase[v].Running? {
      EdgeSent(g, s.h.sent, u, j);
      assert false;
    }
  }

  lemma NotFull(g: Graph, s: State, nodes: set<nat>)
    requires Built(g) && Inv(g, s) && Blocks(g.out, nodes) && AllWait(g, s, nodes)
    ensures s.started ==> !Test(g, s)
  {
    if s.started && Test(g, s) {
      var v :| v in nodes;
      if v == END {
        assert BlockedNode(g.out, nodes, END);
        v :| v in nodes && v < |g.out| && END in g.out[v];
      }
      TargetFull(g, s, v);
      assert false;
    }
  }

  // ------------------------------------------------------- main results

  /** In every run, when test reports done nothing is under way. */
  ghost predicate QuietWhenDone(g: Graph) {
    forall s0: State, trace: seq<(nat, Choice)> :: Initial(g, s0) ==>
      var s := Exec(g, s0, trace); s.started && Test(g, s) ==> Quiet(g, s)
  }

  /** In every run, when test reports done every node is. */
  ghost predicate AllDoneWhenDone(g: Graph) {
    forall s0: State, trace: seq<(nat, Choice)> :: Initial(g, s0) ==>
      var s := Exec(g, s0, trace); s.started && Test(g, s) ==> forall v :: END < v < |g.out| ==> s.h.phase[v] == Done
  }

  /** In every run, when the graph is deleted nothing is under way. */
  ghost predicate QuietWhenDeleted(g: Graph) {
    forall s0: State, trace: seq<(nat, Choice)>, t: nat, c: Choice :: Initial(g, s0) ==>
      var s := Exec(g, s0, trace); Step(g, s, t, c).deletions > s.deletions ==> Quiet(g, s)
  }

  ghost function Fresh(g: Graph): (s0: State)
    requires Built(g)
    ensures Initial(g, s0) && s0.threads != []
  {
    State(Zeros(|g.out|), {}, false, 0, [[]], {},
          History(seq(|g.out|, _ => Waiting), Zeros(|g.out|), Zeros(|g.out|), (0, 0)))
  }

  /** Test reports done only when nothing is under way exactly when the graph has no dead ends, or never
      reports done at all. */
  lemma QuietIff(g: Graph)
    requires Built(g)
    ensures QuietWhenDone(g) <==> NoDeadEnds(g.out) || Blocked(g.out)
  {
    if NoDeadEnds(g.out) || Blocked(g.out) {
      forall s0: State, trace: seq<(nat, Choice)> | Initial(g, s0)
        ensures var s := Exec(g, s0, trace); s.started && Test(g, s) ==> Quiet(g, s)
      {
        DoneIsQuiet(g, s0, trace);
      }
    } else {
      var u: nat, v: nat :| DeadEnd(g.out, u, v);
      var trace := NotQuietWhenDone(g, Fresh(g), u, v);
    }
  }

  lemma DoneIsQuiet(g: Graph, s0: State, trace: seq<(nat, Choice)>)
    requires Built(g) && Initial(g, s0) && (NoDeadEnds(g.out) || Blocked(g.out))
    ensures var s := Exec(g, s0, trace); s.started && Test(g, s) ==> Quiet(g, s)
  {
    if NoDeadEnds(g.out) {
      TestIsTruthful(g, s0, trace);
    } else {
      var nodes :| Blocks(g.out, nodes);
      BlockedNeverDone(g, s0, trace, nodes);
    }
  }

  /** Test reports done only when every node is done exactly when every node has a path to END, or the
      graph never reports done at all. */
  lemma TruthfulIff(g: Graph)
    requires Built(g)
    ensures AllDoneWhenDone(g) <==> AllReachEnd(g.out) || Blocked(g.out)
  {
    if AllReachEnd(g.out) || Blocked(g.out) {
      forall s0: State, trace: seq<(nat, Choice)> | Initial(g, s0)
        ensures var s := Exec(g, s0, trace);
                s.started && Test(g, s) ==> forall v :: END < v < |g.out| ==> s.h.phase[v] == Done
      {
        DoneIsAllDone(g, s0, trace);
      }
    } else {
      var v :| END < v < |g.out| && !ReachesEnd(g.out, v);
      var trace := DoneTooEarly(g, Fresh(g), v);
    }
  }

  lemma DoneIsAllDone(g: Graph, s0: State, trace: seq<(nat, Choice)>)
    requires Built(g) && Initial(g, s0) && (AllReachEnd(g.out) || Blocked(g.out))
    ensures var s := Exec(g, s0, trace);
            s.started && Test(g, s) ==> forall v :: END < v < |g.out| ==> s.h.phase[v] == Done
  {
    if AllReachEnd(g.out) {
      TestIsTruthful(g, s0, trace);
    } else {
      var nodes :| Blocks(g.out, nodes);
      BlockedNeverDone(g, s0, trace, nodes);
    }
  }

  /** On an acyclic graph whose nodes all have an incoming edge: exactly when every node has a path to END. */
  lemma AcyclicTruthfulIff(g: Graph)
    requires Built(g) && Acyclic(g.out) && forall v :: START < v < |g.out| ==> g.expected[v] > 0
    ensures AllDoneWhenDone(g) <==> AllReachEnd(g.out)
  {
    AcyclicNotBlocked(g.out);
    TruthfulIff(g);
  }

  /** A graph with a completion object is deleted only when nothing is under way exactly when it has no
      dead ends, or is never deleted. */
  lemma DeletionIff(g: Graph)
    requires Built(g) && g.deletes && g.expected[END] > 0
    ensures QuietWhenDeleted(g) <==> NoDeadEnds(g.out) || Blocked(g.out)
  {
    if NoDeadEnds(g.out) || Blocked(g.out) {
      forall s0: State, trace: seq<(nat, Choice)>, t: nat, c: Choice | Initial(g, s0)
        ensures var s := Exec(g, s0, trace); Step(g, s, t, c).deletions > s.deletions ==> Quiet(g, s)
      {
        DeletedIsQuiet(g, s0, trace, t, c);
      }
    } else {
      var u: nat, v: nat :| DeadEnd(g.out, u, v);
      var trace, t := DeletedTooEarly(g, Fresh(g), u, v);
    }
  }

  lemma DeletedIsQuiet(g: Graph, s0: State, trace: seq<(nat, Choice)>, t: nat, c: Choice)
    requires Built(g) && Initial(g, s0) && (NoDeadEnds(g.out) || Blocked(g.out))
    ensures var s := Exec(g, s0, trace); Step(g, s, t, c).deletions > s.deletions ==> Quiet(g, s)
  {
    var s := Exec(g, s0, trace);
    DoneIsQuiet(g, s0, trace);
    if Blocked(g.out) {
      var nodes :| Blocks(g.out, nodes);
      BlockedNeverDone(g, s0, trace, nodes);
    } else {
      ExecInv(g, s0, trace);
    }
    if Busy(s, t) {
      assert FrameOk(g, s, t, |s.threads[t]| - 1);
    }
  }

  lemma DeletedTooEarly(g: Graph, s0: State, u: nat, v: nat) returns (trace: seq<(nat, Choice)>, t: nat)
    requires Built(g) && g.deletes && g.expected[END] > 0 && !Blocked(g.out) && Initial(g, s0) && s0.threads != []
    requires DeadEnd(g.out, u, v)
    ensures var s := Exec(g, s0, trace);
            && s.started && Test(g, s) && s.h.phase[v] != Done && !Quiet(g, s)
            && Step(g, s, t, Exit).deletions > s.deletions
  {
    Starts(g, s0);
    trace := FillEnd(g, s0, [(0, Start)]);
    trace, t := DeleteEarly(g, s0, trace, u, v);
  }

  // ------------------------------------------------------- the smallest example

  /** START leads to node 2 and to END; node 2 leads nowhere. */
  function TwoEdges(deletes: bool): Graph {
    Graph([[2, END], [], []], [0, 1, 1], deletes)
  }

  lemma TwoEdgesBuilt(deletes: bool)
    ensures Built(TwoEdges(deletes)) && DeadEnd(TwoEdges(deletes).out, START, 2) && !Blocked(TwoEdges(deletes).out)
  {
    var out: seq<seq<nat>> := [[2, END], [], []];
    forall v: nat | v < 3 ensures InDegree(out, v) == [0, 1, 1][v] {
      ThreeNodes(out, v);
    }
    forall p ensures !Path(out, p, 2, END) {
    }
    assert !ReachesEnd(out, 2);
    assert Ranked(out, [0, 1, 1]);
    AcyclicNotBlocked(out);
  }

  lemma ThreeNodes(out: seq<seq<nat>>, v: nat)
    requires out == [[2, END], [], []]
    ensures InDegree(out, v) == if v == 1 || v == 2 then 1 else 0
  {
    var all := All(out);
    assert Arrived(out, all, v, 1) == Arrived(out, all, v, 0) + Count(out[0][..2], v);
    assert Arrived(out, all, v, 2) == Arrived(out, all, v, 1) + Count(out[1][..0], v);
    assert Arrived(out, all, v, 3) == Arrived(out, all, v, 2) + Count(out[2][..0], v);
    assert out[0][..2] == [2, END] && [2, END][..1] == [2] && [2][..0] == [];
    assert Count([2, END], v) == Count([2], v) + (if END == v then 1 else 0);
    assert Count([2], v) == if 2 == v then 1 else 0;
  }

  /** With this graph test reports done while node 2 is under way; with a completion object the graph is
      deleted then. */
  lemma TwoEdgesFail(s0: State, deletes: bool) returns (trace: seq<(nat, Choice)>, t: nat)
    requires Initial(TwoEdges(deletes), s0) && s0.threads != []
    ensures var g := TwoEdges(deletes);
            var s := Exec(g, s0, trace);
            && s.started && Test(g, s) && s.h.phase[2] != Done && !Quiet(g, s)
            && (deletes ==> Step(g, s, t, Exit).deletions > s.deletions)
  {
    var g := TwoEdges(deletes);
    TwoEdgesBuilt(deletes);
    t := 0;
    if deletes {
      trace, t := DeletedTooEarly(g, s0, START, 2);
    } else {
      trace := NotQuietWhenDone(g, s0, START, 2);
    }
  }
}
