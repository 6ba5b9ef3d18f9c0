/** Starting a graph again: every started run can be finished, and a kept graph that has finished can be
    started and finished once more, as often as its owner likes. */
module CompletionGraphRestart {
  import opened CompletionGraph
  import opened CompletionGraphProof

  /** whole goes on where trace ends, without a start. */
  ghost predicate GoesOn(trace: seq<(nat, Choice)>, whole: seq<(nat, Choice)>) {
    trace <= whole && forall k :: |trace| <= k < |whole| ==> whole[k].1 != Start
  }

  lemma GoesOnTwice(a: seq<(nat, Choice)>, b: seq<(nat, Choice)>, c: seq<(nat, Choice)>)
    requires GoesOn(a, b) && GoesOn(b, c)
    ensures GoesOn(a, c)
  {
    forall k | |a| <= k < |c| ensures c[k].1 != Start {
      assert k < |b| ==> c[k] == b[k];
    }
  }

  lemma OneMore(g: Graph, s0: State, trace: seq<(nat, Choice)>) returns (whole: seq<(nat, Choice)>)
    requires Built(g) && NoDeadEnds(g.out) && Initial(g, s0) && SomeoneCanStep(g, Exec(g, s0, trace))
    ensures GoesOn(trace, whole) && Exec(g, s0, whole).started == Exec(g, s0, trace).started
    ensures Work(g, Exec(g, s0, whole)) < Work(g, Exec(g, s0, trace))
  {
    var s := Exec(g, s0, trace);
    ExecInv(g, s0, trace);
    var t, c: Choice :| c != Start && Enabled(g, s, t, c);
    StepShrinks(g, s, t, c);
    StaysStarted(g, s, t, c);
    ExecSnoc(g, s0, trace, t, c);
    whole := trace + [(t, c)];
  }

  lemma StaysStarted(g: Graph, s: State, t: nat, c: Choice)
    requires Shaped(g, s) && c != Start
    ensures Step(g, s, t, c).started == s.started
  {
  }

  /** Every run that was started can be continued until test reports done, and then every node with a
      path to END has run once since the start. */
  lemma {:induction false} Finishes(g: Graph, s0: State, trace: seq<(nat, Choice)>) returns (whole: seq<(nat, Choice)>)
    requires Built(g) && NoDeadEnds(g.out) && !Blocked(g.out) && Initial(g, s0) && s0.threads != []
    requires Exec(g, s0, trace).started
    ensures GoesOn(trace, whole)
    ensures var s := Exec(g, s0, whole);
            && s.started && Test(g, s) && Quiet(g, s)
            && forall v :: END < v < |g.out| && ReachesEnd(g.out, v) ==> s.h.runs[v] == 1 && s.h.phase[v] == Done
    decreases Work(g, Exec(g, s0, trace))
  {
    if Test(g, Exec(g, s0, trace)) {
      whole := trace;
      TestIsTruthful(g, s0, trace);
    } else {
      NeverStuck(g, s0, trace);
      var more := OneMore(g, s0, trace);
      whole := Finishes(g, s0, more);
      GoesOnTwice(trace, more, whole);
    }
  }

  /** What start does: END expects all its signals again, no node has run, and START is being marked
      complete by the thread that called it. */
  lemma StartBegins(g: Graph, s: State, t: nat)
    requires Shaped(g, s) && t < |s.threads| && s.threads[t] == [] && t !in s.comparing
    requires !s.started || (!g.deletes && Test(g, s))
    ensures var s' := Step(g, s, t, Start);
            && s'.started && s'.received[END] == 0 && (Test(g, s') <==> g.expected[END] == 0)
            && s'.threads[t] == [Mark(START, 0, false)]
            && (forall v :: 0 <= v < |g.out| ==> s'.h.runs[v] == 0)
            && (forall v :: END < v < |g.out| ==> s'.h.phase[v] == Waiting && s'.received[v] == s.received[v])
  {
  }

  /** A kept graph that has finished can be started again by any idle thread: then test reports done no
      more (if END has an edge), no node has run, and the run can be continued until test reports done and
      every node with a path to END has run once more. */
  lemma RunsAgain(g: Graph, s0: State, trace: seq<(nat, Choice)>, t: nat) returns (whole: seq<(nat, Choice)>)
    requires Built(g) && NoDeadEnds(g.out) && !Blocked(g.out) && Initial(g, s0) && !g.deletes
    requires var s := Exec(g, s0, trace);
             s.started && Test(g, s) && t < |s.threads| && s.threads[t] == [] && t !in s.comparing
    ensures var s := Exec(g, s0, trace + [(t, Start)]);
            && (Test(g, s) <==> g.expected[END] == 0) && s.threads[t] == [Mark(START, 0, false)]
            && (forall v :: END < v < |g.out| ==> s.h.runs[v] == 0 && s.h.phase[v] == Waiting && s.received[v] == 0)
    ensures GoesOn(trace + [(t, Start)], whole)
    ensures var s := Exec(g, s0, whole);
            && s.started && Test(g, s) && Quiet(g, s)
            && forall v :: END < v < |g.out| && ReachesEnd(g.out, v) ==> s.h.runs[v] == 1 && s.h.phase[v] == Done
  {
    TestIsTruthful(g, s0, trace);
    ExecSnoc(g, s0, trace, t, Start);
    StartBegins(g, Exec(g, s0, trace), t);
    whole := Finishes(g, s0, trace + [(t, Start)]);
  }
}
