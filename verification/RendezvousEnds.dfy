/** How runs of the rendezvous protocol end: no run goes on for ever, and as long as the archive is
    roomy every transfer is completed once on both sides. */
module RendezvousEnds {
  import opened Options
  import opened Rendezvous
  import opened RendezvousArchive
  import opened RendezvousProof
  import opened Sums

  // ------------------------------------------------------- no run goes on for ever

  /** Steps that a transfer has still before it. */
  function Work(slots: nat, n: nat, t: Transfer): nat {
    (if t.sender == Fresh then 1 else 0)
    + (match t.receiver
       case Idle => slots + 1
       case Probing(_, tried) => Less(slots, tried)
       case _ => 0)
    + (if t.sender == Writing then 0 else 1)
    + Less(n, t.posted) + Less(n, |t.landed|) + Less(n, |t.done|) + Less(1, t.receiverSignals)
  }

  function Less(a: nat, b: nat): nat {
    if b < a then a - b else 0
  }

  function Works(p: Params, s: State): seq<nat>
    requires Shaped(p, s)
  {
    seq(|p.data|, i requires 0 <= i < |p.data| => Work(p.slots, |p.chunks[i]|, s.transfers[i]))
  }

  function TotalWork(p: Params, s: State): nat
    requires Shaped(p, s)
  {
    Sum(Works(p, s))
  }

  lemma WorkOfTransfer(p: Params, s: State, s': State, i: nat)
    requires Shaped(p, s) && Shaped(p, s') && i < |p.data| && s'.transfers == s.transfers[i := s'.transfers[i]]
    requires Work(p.slots, |p.chunks[i]|, s'.transfers[i]) < Work(p.slots, |p.chunks[i]|, s.transfers[i])
    ensures TotalWork(p, s') < TotalWork(p, s)
  {
    var w := Work(p.slots, |p.chunks[i]|, s'.transfers[i]);
    SumUpdate(Works(p, s), i, w);
    assert Works(p, s') == Works(p, s)[i := w];
  }

  /** A set of chunk numbers that gains one has room for it. */
  lemma Gains(a: set<nat>, k: nat, n: nat)
    requires k !in a && k < n && forall j :: j in a ==> 0 <= j < n
    ensures Less(n, |a + {k}|) < Less(n, |a|)
  {
    FullSet(a + {k}, n);
  }

  lemma HandshakeShrinks(p: Params, s: State, c: Choice)
    requires Inv(p, s) && Enabled(p, s, c) && (c.PostRts? || c.HandleRts? || c.Probe? || c.HandleRtr? || c.PostChunk?)
    ensures TotalWork(p, Step(p, s, c)) < TotalWork(p, s)
  {
    assert TransferOk(p, s, c.i);
    WorkOfTransfer(p, s, Step(p, s, c), c.i);
  }

  lemma LandShrinks(p: Params, s: State, i: nat, k: nat)
    requires Inv(p, s) && Enabled(p, s, Land(i, k))
    ensures TotalWork(p, DoLand(p, s, i, k)) < TotalWork(p, s)
  {
    assert TransferOk(p, s, i);
    Gains(s.transfers[i].landed, k, |p.chunks[i]|);
    WorkOfTransfer(p, s, DoLand(p, s, i, k), i);
  }

  lemma LocalDoneShrinks(p: Params, s: State, i: nat, k: nat)
    requires Inv(p, s) && Enabled(p, s, LocalDone(i, k))
    ensures TotalWork(p, DoLocalDone(p, s, i, k)) < TotalWork(p, s)
  {
    assert TransferOk(p, s, i);
    Gains(s.transfers[i].done, k, |p.chunks[i]|);
    WorkOfTransfer(p, s, DoLocalDone(p, s, i, k), i);
  }

  lemma FinShrinks(p: Params, s: State, ctx: nat)
    requires Inv(p, s) && Enabled(p, s, HandleFin(ctx))
    ensures TotalWork(p, Step(p, s, HandleFin(ctx))) < TotalWork(p, s)
  {
    assert TransferOk(p, s, ctx);
    WorkOfTransfer(p, s, Step(p, s, HandleFin(ctx)), ctx);
  }

  lemma RemoteWriteShrinks(p: Params, s: State, tag: nat)
    requires Inv(p, s) && Enabled(p, s, HandleRemoteWrite(tag))
    ensures TotalWork(p, DoRemoteWrite(p, s, tag)) < TotalWork(p, s)
  {
    assert TagOk(p, s, tag);
    WorkOfTransfer(p, s, DoRemoteWrite(p, s, tag), s.archive[tag].value);
  }

  lemma StepShrinks(p: Params, s: State, c: Choice)
    requires Inv(p, s) && Enabled(p, s, c)
    ensures TotalWork(p, Step(p, s, c)) < TotalWork(p, s)
  {
    match c
    case Land(i, k) => LandShrinks(p, s, i, k);
    case LocalDone(i, k) => LocalDoneShrinks(p, s, i, k);
    case HandleFin(ctx) => FinShrinks(p, s, ctx);
    case HandleRemoteWrite(tag) => RemoteWriteShrinks(p, s, tag);
    case _ => HandshakeShrinks(p, s, c);
  }

  /** Every step of the run is possible. */
  ghost predicate Busy(p: Params, s0: State, trace: seq<Choice>)
    requires Initial(p, s0)
    decreases |trace|
  {
    trace == [] ||
    (var before := trace[..|trace| - 1];
     Busy(p, s0, before) && Enabled(p, Exec(p, s0, before), trace[|trace| - 1]))
  }

  /** No run takes more steps than there was work at the beginning. */
  lemma {:induction false} RunsAreBounded(p: Params, s0: State, trace: seq<Choice>)
    requires ParamsOk(p) && Initial(p, s0) && Busy(p, s0, trace)
    ensures |trace| + TotalWork(p, Exec(p, s0, trace)) <= TotalWork(p, s0)
    decreases |trace|
  {
    if trace != [] {
      var before := trace[..|trace| - 1];
      RunsAreBounded(p, s0, before);
      ExecInv(p, s0, before);
      StepShrinks(p, Exec(p, s0, before), trace[|trace| - 1]);
    }
  }

  // ------------------------------------------------------- completion

  /** In a roomy archive, a run that cannot move has told each side of each transfer exactly once, with
      all bytes in place. */
  lemma NeverStuck(p: Params, s0: State, trace: seq<Choice>, limit: nat, i: nat)
    requires ParamsOk(p) && Initial(p, s0) && i < |p.data| && Within(p, s0, trace, limit) && Roomy(p, limit)
    requires !CanStep(p, Exec(p, s0, trace))
    ensures var t := Exec(p, s0, trace).transfers[i];
            t.senderSignals == 1 && t.receiverSignals == 1 && t.buffer == p.data[i]
  {
    StuckMeansTold(p, s0, trace, i);
    NoInsertionFails(p, s0, trace, limit, i);
  }

  ghost predicate AllTold(p: Params, s: State)
    requires Shaped(p, s)
  {
    forall i :: 0 <= i < |p.data| ==>
      s.transfers[i].senderSignals == 1 && s.transfers[i].receiverSignals == 1 && s.transfers[i].buffer == p.data[i]
  }

  lemma StuckMeansAllTold(p: Params, s0: State, trace: seq<Choice>, limit: nat)
    requires ParamsOk(p) && Initial(p, s0) && Within(p, s0, trace, limit) && Roomy(p, limit)
    requires !CanStep(p, Exec(p, s0, trace))
    ensures AllTold(p, Exec(p, s0, trace))
  {
    forall i | 0 <= i < |p.data|
      ensures var t := Exec(p, s0, trace).transfers[i];
              t.senderSignals == 1 && t.receiverSignals == 1 && t.buffer == p.data[i]
    {
      NeverStuck(p, s0, trace, limit, i);
    }
  }

  lemma ExecSnoc(p: Params, s0: State, trace: seq<Choice>, c: Choice)
    requires Initial(p, s0)
    ensures Exec(p, s0, trace + [c]) == Step(p, Exec(p, s0, trace), c)
  {
    assert (trace + [c])[..|trace|] == trace;
  }

  lemma WithinSnoc(p: Params, s0: State, trace: seq<Choice>, c: Choice, limit: nat)
    requires Initial(p, s0) && Within(p, s0, trace, limit)
    requires |LiveSet(p, Step(p, Exec(p, s0, trace), c))| <= limit
    ensures Within(p, s0, trace + [c], limit)
  {
    ExecSnoc(p, s0, trace, c);
    assert (trace + [c])[..|trace|] == trace;
  }

  lemma FreshStays(p: Params, s: State, c: Choice, k: nat)
    requires Inv(p, s) && !c.PostRts? && k < |p.data|
    ensures s.transfers[k].sender == Fresh ==> Step(p, s, c).transfers[k].sender == Fresh
  {
    if !c.HandleRtr? {
      SenderStays(p, s, c, k);
    }
  }

  /** Only posting an RTS makes a transfer live. */
  lemma LiveShrinks(p: Params, s: State, c: Choice)
    requires Inv(p, s) && !c.PostRts?
    ensures LiveSet(p, Step(p, s, c)) <= LiveSet(p, s)
  {
    forall k | k in LiveSet(p, Step(p, s, c)) ensures k in LiveSet(p, s) {
      assert TransferOk(p, s, k);
      FreshStays(p, s, c, k);
      ToldStays(p, s, c, k);
    }
  }

  lemma LiveGrows(p: Params, s: State, i: nat)
    requires Inv(p, s) && i < |p.data|
    ensures LiveSet(p, Step(p, s, PostRts(i))) <= LiveSet(p, s) + {i}
  {
  }

  /** What can happen next without going over the limit: anything but an RTS, or an RTS when nothing
      is live. */
  lemma NextMove(p: Params, s: State, limit: nat) returns (c: Choice)
    requires ParamsOk(p) && Inv(p, s) && CanStep(p, s) && |LiveSet(p, s)| <= limit && limit > 0
    requires forall i: nat :: i < |p.data| ==> s.transfers[i].receiver != Exhausted
    ensures Enabled(p, s, c) && |LiveSet(p, Step(p, s, c))| <= limit
  {
    if LiveSet(p, s) == {} {
      c :| Enabled(p, s, c);
    } else {
      var i :| i in LiveSet(p, s);
      assert TransferOk(p, s, i);
      if s.transfers[i].senderSignals == 0 {
        c := SenderCanMove(p, s, i);
      } else {
        c := ReceiverCanMove(p, s, i);
      }
    }
    if c.PostRts? {
      LiveGrows(p, s, c.i);
      SubsetSize(LiveSet(p, Step(p, s, c)), {c.i});
    } else {
      LiveShrinks(p, s, c);
      SubsetSize(LiveSet(p, Step(p, s, c)), LiveSet(p, s));
    }
  }

  lemma OneMore(p: Params, s0: State, trace: seq<Choice>, limit: nat) returns (c: Choice)
    requires ParamsOk(p) && Initial(p, s0) && CanStep(p, Exec(p, s0, trace)) && Within(p, s0, trace, limit)
    requires Roomy(p, limit) && limit > 0
    ensures TotalWork(p, Exec(p, s0, trace + [c])) < TotalWork(p, Exec(p, s0, trace))
    ensures Within(p, s0, trace + [c], limit)
  {
    var s := Exec(p, s0, trace);
    ExecInv(p, s0, trace);
    forall i: nat | i < |p.data| ensures s.transfers[i].receiver != Exhausted {
      NoInsertionFails(p, s0, trace, limit, i);
    }
    c := NextMove(p, s, limit);
    StepShrinks(p, s, c);
    ExecSnoc(p, s0, trace, c);
    WithinSnoc(p, s0, trace, c, limit);
  }

  /** Any run can be continued, with no more live transfers than the limit, until it completes. */
  lemma {:induction false} Completes(p: Params, s0: State, trace: seq<Choice>, limit: nat) returns (whole: seq<Choice>)
    requires ParamsOk(p) && Initial(p, s0) && Within(p, s0, trace, limit) && Roomy(p, limit) && limit > 0
    ensures trace <= whole && Within(p, s0, whole, limit) && AllTold(p, Exec(p, s0, whole))
    decreases TotalWork(p, Exec(p, s0, trace))
  {
    if CanStep(p, Exec(p, s0, trace)) {
      var c := OneMore(p, s0, trace, limit);
      whole := Completes(p, s0, trace + [c], limit);
    } else {
      whole := trace;
      StuckMeansAllTold(p, s0, trace, limit);
    }
  }
}
