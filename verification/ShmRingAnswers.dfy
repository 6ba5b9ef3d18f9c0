/** The negative answers of the shared-memory ring, in every run: a retry_nomem and an empty poll were
    true at a moment of the call that gave them, whatever other threads did meanwhile. */
module ShmRingAnswers {
  import opened ShmRing
  import opened ShmRingProof

  /** The state after the first i steps. */
  function Moment(s0: State, trace: seq<(nat, Choice)>, i: nat): State
    requires i <= |trace|
  {
    Exec(s0, trace[..i])
  }

  /** From moment i on, thread t has been in one call. */
  ghost predicate SameCall(s0: State, trace: seq<(nat, Choice)>, t: nat, i: nat) {
    forall j :: i <= j <= |trace| ==> Busy(Moment(s0, trace, j), t)
  }

  predicate Busy(s: State, t: nat) {
    t < |s.threads| && !s.threads[t].Idle?
  }

  // ------------------------------------------------------- one more step

  lemma LastStep(s0: State, trace: seq<(nat, Choice)>)
    requires trace != []
    ensures var n := |trace| - 1; Exec(s0, trace) == Do(Moment(s0, trace, n), trace[n].0, trace[n].1)
  {
  }

  /** A moment of a shorter run is a moment of the longer one. */
  lemma MomentOfPrefix(s0: State, trace: seq<(nat, Choice)>, i: nat)
    requires trace != [] && i < |trace|
    ensures Moment(s0, trace[..|trace| - 1], i) == Moment(s0, trace, i)
  {
    assert trace[..|trace| - 1][..i] == trace[..i];
  }

  lemma SameCallGoesOn(s0: State, trace: seq<(nat, Choice)>, t: nat, i: nat)
    requires trace != [] && i < |trace| && SameCall(s0, trace[..|trace| - 1], t, i) && Busy(Exec(s0, trace), t)
    ensures SameCall(s0, trace, t, i)
  {
    forall j | i <= j <= |trace| ensures Busy(Moment(s0, trace, j), t) {
      if j < |trace| {
        MomentOfPrefix(s0, trace, j);
        assert Busy(Moment(s0, trace[..|trace| - 1], j), t);
      } else {
        assert trace[..|trace|] == trace;
      }
    }
  }

  lemma SameCallStarts(s0: State, trace: seq<(nat, Choice)>, t: nat)
    requires trace != [] && Busy(Moment(s0, trace, |trace| - 1), t) && Busy(Exec(s0, trace), t)
    ensures SameCall(s0, trace, t, |trace| - 1)
  {
    var n := |trace| - 1;
    forall j | n <= j <= |trace| ensures Busy(Moment(s0, trace, j), t) {
      if j > n {
        assert trace[..j] == trace;
      }
    }
  }

  lemma OthersStep(s: State, u: nat, c: Choice, t: nat)
    requires u != t
    ensures |Do(s, u, c).threads| == |s.threads| && (t < |s.threads| ==> Do(s, u, c).threads[t] == s.threads[t])
  {
  }

  ghost predicate Grows(s: Mem, s': Mem) {
    s'.producer >= s.producer && s'.consumer >= s.consumer
  }

  lemma ReserveGrows(s: Mem, t: nat, pc: Pc, spurious: bool)
    requires s.n > 0 && |s.slots| == s.n
    ensures Grows(s, StepReserve(s, t, pc, spurious).0)
  {
  }

  lemma PublishGrows(s: Mem, pc: Pc)
    requires s.n > 0 && |s.slots| == s.n
    ensures Grows(s, StepPublish(s, pc).0)
  {
  }

  lemma PollGrows(s: Mem, t: nat, pc: Pc, spurious: bool, vid: nat)
    requires s.n > 0 && |s.slots| == s.n
    ensures Grows(s, StepPoll(s, t, pc, spurious, vid).0)
  {
  }

  lemma ReleaseGrows(s: Mem, pc: Pc)
    requires s.n > 0 && |s.slots| == s.n
    ensures Grows(s, StepRelease(s, pc).0)
  {
  }

  lemma CallGrows(s: Mem, t: nat, c: Choice)
    ensures Grows(s, Call(s, t, c).0)
  {
  }

  lemma PositionsGrow(s: State, t: nat, c: Choice)
    ensures Grows(s.mem, Do(s, t, c).mem)
  {
    if t < |s.threads| && s.mem.n > 0 && |s.mem.slots| == s.mem.n {
      var pc := s.threads[t];
      if pc.Idle? {
        CallGrows(s.mem, t, c);
      } else if InReserve(pc) {
        ReserveGrows(s.mem, t, pc, c.Go? && c.spurious);
      } else if InPublish(pc) {
        PublishGrows(s.mem, pc);
      } else if InPoll(pc) {
        PollGrows(s.mem, t, pc, c.Go? && c.spurious, if c.Go? then c.out else 0);
      } else if !pc.Ret? {
        ReleaseGrows(s.mem, pc);
      }
    }
  }

  lemma {:induction false} PositionsGrowSince(s0: State, trace: seq<(nat, Choice)>, i: nat)
    requires i <= |trace|
    ensures Moment(s0, trace, i).mem.producer <= Exec(s0, trace).mem.producer
    ensures Moment(s0, trace, i).mem.consumer <= Exec(s0, trace).mem.consumer
    decreases |trace|
  {
    if i == |trace| {
      assert trace[..i] == trace;
    } else {
      var n := |trace| - 1;
      PositionsGrowSince(s0, trace[..n], i);
      MomentOfPrefix(s0, trace, i);
      PositionsGrow(Moment(s0, trace, n), trace[n].0, trace[n].1);
    }
  }

  // ------------------------------------------------------- a full ring

  /** The slot of the next position still belongs to a message that was not released. */
  ghost predicate Full(s: Mem) {
    !Free(s, s.producer)
  }

  /** At moment i, thread t loads the word of position pos and does not find it free. */
  ghost predicate ReadsTaken(s: State, t: nat, pos: nat) {
    && t < |s.threads| && s.threads[t].ResSeq? && s.threads[t].pos == pos
    && s.mem.n > 0 && |s.mem.slots| == s.mem.n && At(s.mem, pos).sequence != EncodeSequence(pos, Reusable)
  }

  lemma RecheckStep(s: State, t: nat, c: Choice)
    requires t < |s.threads| && Do(s, t, c).threads[t].ResRecheck? && !s.threads[t].ResRecheck?
    ensures ReadsTaken(s, t, Do(s, t, c).threads[t].pos)
  {
  }

  lemma RecheckEnds(s: State, t: nat, c: Choice)
    requires t < |s.threads| && s.threads[t].ResRecheck?
    ensures !Do(s, t, c).threads[t].ResRecheck? || Do(s, t, c) == s
  {
  }

  /** The only step that answers retry_nomem, or that finds nothing. */
  lemma AnswerStep(s: Mem, t: nat, pc: Pc, c: Choice)
    requires s.n > 0 && |s.slots| == s.n && !pc.Ret?
    ensures Step(s, t, pc, c).1 == Ret(RetryNomem) ==> pc.ResRecheck? && pc.pos == s.producer
    ensures Step(s, t, pc, c).1 == Ret(PollFalse) && !pc.PollRecheck? ==>
            pc.PollLoad? && s.consumerAttempts <= pc.attempt
    ensures Step(s, t, pc, c).1 == Ret(PollFalse) && pc.PollRecheck? ==> pc.pos == s.consumer
  {
  }

  lemma NomemStep(s: State, t: nat, c: Choice)
    requires t < |s.threads| && Inv(s) && Do(s, t, c).threads[t] == Ret(RetryNomem)
    ensures s.threads[t].ResRecheck? && s.threads[t].pos == s.mem.producer
  {
    if !s.threads[t].Ret? {
      AnswerStep(s.mem, t, s.threads[t], c);
    }
  }

  lemma {:induction false} RecheckHasRead(s0: State, trace: seq<(nat, Choice)>, t: nat) returns (i: nat)
    requires Init(s0) && t < |Exec(s0, trace).threads| && Exec(s0, trace).threads[t].ResRecheck?
    ensures i < |trace| && ReadsTaken(Moment(s0, trace, i), t, Exec(s0, trace).threads[t].pos)
    ensures SameCall(s0, trace, t, i)
    decreases |trace|
  {
    ExecInv(s0, trace[..|trace| - 1]);
    var n := |trace| - 1;
    var s, u, c := Moment(s0, trace, n), trace[n].0, trace[n].1;
    LastStep(s0, trace);
    if u == t && !s.threads[t].ResRecheck? {
      RecheckStep(s, t, c);
      i := n;
      SameCallStarts(s0, trace, t);
    } else {
      if u == t {
        RecheckEnds(s, t, c);
      } else {
        OthersStep(s, u, c, t);
      }
      i := RecheckHasRead(s0, trace[..n], t);
      MomentOfPrefix(s0, trace, i);
      SameCallGoesOn(s0, trace, t, i);
    }
  }

  lemma TakenMeansFull(s: Mem, pos: nat)
    requires Shared(s) && pos == s.producer < MAXIMUM_POSITION && At(s, pos).sequence != EncodeSequence(pos, Reusable)
    ensures Full(s)
  {
    assert WordOk(s, pos);
  }

  /** In every run, a call that returns retry_nomem was in progress at a moment when the ring was full. */
  lemma {:induction false} NomemWasTrue(s0: State, trace: seq<(nat, Choice)>, t: nat) returns (i: nat)
    requires Init(s0) && t < |Exec(s0, trace).threads| && Exec(s0, trace).threads[t] == Ret(RetryNomem)
    ensures i < |trace| && SameCall(s0, trace, t, i) && Full(Moment(s0, trace, i).mem)
    decreases |trace|
  {
    ExecInv(s0, trace[..|trace| - 1]);
    var n := |trace| - 1;
    var before := trace[..n];
    var s, u, c := Moment(s0, trace, n), trace[n].0, trace[n].1;
    LastStep(s0, trace);
    if u == t {
      NomemStep(s, t, c);
      i := RecheckHasRead(s0, before, t);
      ReadWasStable(s0, before, t, i);
    } else {
      OthersStep(s, u, c, t);
      i := NomemWasTrue(s0, before, t);
    }
    MomentOfPrefix(s0, trace, i);
    SameCallGoesOn(s0, trace, t, i);
  }

  /** The producer position did not move between the two loads. */
  lemma ReadWasStable(s0: State, trace: seq<(nat, Choice)>, t: nat, i: nat)
    requires Init(s0) && i < |trace| && ReadsTaken(Moment(s0, trace, i), t, Exec(s0, trace).mem.producer)
    ensures Full(Moment(s0, trace, i).mem)
  {
    var s := Moment(s0, trace, i);
    ExecInv(s0, trace[..i]);
    assert PcOk(s.mem, t, s.threads[t]);
    PositionsGrowSince(s0, trace, i);
    TakenMeansFull(s.mem, s.threads[t].pos);
  }

  // ------------------------------------------------------- an empty ring

  /** No message is published at the next position to be polled. */
  ghost predicate Empty(s: Mem) {
    !(s.consumer in s.phase && s.phase[s.consumer].Ready?)
  }

  ghost predicate ReadsUnpublished(s: State, t: nat, pos: nat) {
    && t < |s.threads| && s.threads[t].PollSeq? && s.threads[t].pos == pos
    && s.mem.n > 0 && |s.mem.slots| == s.mem.n && At(s.mem, pos).sequence != EncodeSequence(pos, Published)
  }

  /** The call has lost as many positions to other consumers, or to spurious failures, as it may try. */
  ghost predicate GivesUp(s: State, t: nat) {
    t < |s.threads| && s.threads[t].PollLoad? && s.mem.consumerAttempts <= s.threads[t].attempt
  }

  lemma PollRecheckStep(s: State, t: nat, c: Choice)
    requires t < |s.threads| && Do(s, t, c).threads[t].PollRecheck? && !s.threads[t].PollRecheck?
    ensures ReadsUnpublished(s, t, Do(s, t, c).threads[t].pos)
  {
  }

  lemma PollRecheckEnds(s: State, t: nat, c: Choice)
    requires t < |s.threads| && s.threads[t].PollRecheck?
    ensures !Do(s, t, c).threads[t].PollRecheck? || Do(s, t, c) == s
  {
  }

  lemma PollFalseStep(s: State, t: nat, c: Choice)
    requires t < |s.threads| && Inv(s) && Do(s, t, c).threads[t] == Ret(PollFalse)
    ensures GivesUp(s, t) || (s.threads[t].PollRecheck? && s.threads[t].pos == s.mem.consumer)
  {
    if !s.threads[t].Ret? {
      AnswerStep(s.mem, t, s.threads[t], c);
    }
  }

  lemma {:induction false} PollRecheckHasRead(s0: State, trace: seq<(nat, Choice)>, t: nat) returns (i: nat)
    requires Init(s0) && t < |Exec(s0, trace).threads| && Exec(s0, trace).threads[t].PollRecheck?
    ensures i < |trace| && ReadsUnpublished(Moment(s0, trace, i), t, Exec(s0, trace).threads[t].pos)
    ensures SameCall(s0, trace, t, i)
    decreases |trace|
  {
    var n := |trace| - 1;
    var s, u, c := Moment(s0, trace, n), trace[n].0, trace[n].1;
    LastStep(s0, trace);
    if u == t && !s.threads[t].PollRecheck? {
      PollRecheckStep(s, t, c);
      i := n;
      SameCallStarts(s0, trace, t);
    } else {
      if u == t {
        PollRecheckEnds(s, t, c);
      } else {
        OthersStep(s, u, c, t);
      }
      i := PollRecheckHasRead(s0, trace[..n], t);
      MomentOfPrefix(s0, trace, i);
      SameCallGoesOn(s0, trace, t, i);
    }
  }

  lemma UnpublishedMeansEmpty(s: Mem, pos: nat)
    requires Shared(s) && pos == s.consumer && At(s, pos).sequence != EncodeSequence(pos, Published)
    ensures Empty(s)
  {
    if s.consumer < s.producer {
      LiveWord(s, pos);
    }
  }

  /** The consumer position did not move between the two loads. */
  lemma PollReadWasStable(s0: State, trace: seq<(nat, Choice)>, t: nat, i: nat)
    requires Init(s0) && i < |trace| && ReadsUnpublished(Moment(s0, trace, i), t, Exec(s0, trace).mem.consumer)
    ensures Empty(Moment(s0, trace, i).mem)
  {
    var s := Moment(s0, trace, i);
    ExecInv(s0, trace[..i]);
    assert PcOk(s.mem, t, s.threads[t]);
    PositionsGrowSince(s0, trace, i);
    UnpublishedMeansEmpty(s.mem, s.threads[t].pos);
  }

  /** In every run, a poll that returns nothing was in progress at a moment when nothing was published
      at the next position, or had used up its attempts. */
  lemma {:induction false} EmptyPollWasTrue(s0: State, trace: seq<(nat, Choice)>, t: nat) returns (i: nat)
    requires Init(s0) && t < |Exec(s0, trace).threads| && Exec(s0, trace).threads[t] == Ret(PollFalse)
    ensures i < |trace| && SameCall(s0, trace, t, i)
    ensures Empty(Moment(s0, trace, i).mem) || GivesUp(Moment(s0, trace, i), t)
    decreases |trace|
  {
    var n := |trace| - 1;
    var before := trace[..n];
    var s, u, c := Moment(s0, trace, n), trace[n].0, trace[n].1;
    LastStep(s0, trace);
    ExecInv(s0, before);
    if u == t && GivesUp(s, t) {
      i := n;
      SameCallStarts(s0, trace, t);
    } else {
      if u == t {
        PollFalseStep(s, t, c);
        i := PollRecheckHasRead(s0, before, t);
        PollReadWasStable(s0, before, t, i);
      } else {
        OthersStep(s, u, c, t);
        i := EmptyPollWasTrue(s0, before, t);
      }
      MomentOfPrefix(s0, trace, i);
      SameCallGoesOn(s0, trace, t, i);
    }
  }
}
