/** When archive insertions cannot fail, given how many transfers there are and how many of them are
    live at a time. */
module RendezvousArchive {
  import opened Options
  import opened Rendezvous
  import opened RendezvousProof

  // ------------------------------------------------------- live transfers

  /** The sender has posted its RTS and the two sides have not both been told. */
  predicate Live(t: Transfer) {
    t.sender != Fresh && (t.senderSignals == 0 || t.receiverSignals == 0)
  }

  ghost function LiveSet(p: Params, s: State): set<nat>
    requires Shaped(p, s)
  {
    set k: nat | k < |p.data| && Live(s.transfers[k])
  }

  /** At most limit transfers were live at any moment of the run. */
  ghost predicate Within(p: Params, s0: State, trace: seq<Choice>, limit: nat)
    requires Initial(p, s0)
    decreases |trace|
  {
    |LiveSet(p, Exec(p, s0, trace))| <= limit && (trace == [] || Within(p, s0, trace[..|trace| - 1], limit))
  }

  lemma {:induction false} WithinAll(p: Params, s0: State, trace: seq<Choice>)
    requires Initial(p, s0)
    ensures Within(p, s0, trace, |p.data|)
    decreases |trace|
  {
    FullSet(LiveSet(p, Exec(p, s0, trace)), |p.data|);
    if trace != [] {
      WithinAll(p, s0, trace[..|trace| - 1]);
    }
  }

  // ------------------------------------------------------- receivers

  predicate NothingUntold(t: Transfer, t': Transfer) {
    t'.senderSignals >= t.senderSignals && t'.receiverSignals >= t.receiverSignals
  }

  /** s' is s but for transfer i, whose receiver is where it was. */
  ghost predicate SameReceivers(s: State, s': State, i: nat) {
    i < |s.transfers| == |s'.transfers| && s'.transfers == s.transfers[i := s'.transfers[i]]
    && s'.transfers[i].receiver == s.transfers[i].receiver
    && NothingUntold(s.transfers[i], s'.transfers[i])
  }

  ghost predicate SameEnds(s: State, s': State, i: nat) {
    SameReceivers(s, s', i) && s'.transfers[i].sender == s.transfers[i].sender
  }

  lemma LandReceivers(p: Params, s: State, i: nat, k: nat)
    requires Shaped(p, s) && Enabled(p, s, Land(i, k))
    ensures SameEnds(s, DoLand(p, s, i, k), i)
  {
  }

  lemma LocalDoneReceivers(p: Params, s: State, i: nat, k: nat)
    requires Shaped(p, s) && i < |p.data|
    ensures SameEnds(s, DoLocalDone(p, s, i, k), i)
  {
  }

  lemma SignalReceivers(s: State, s1: State, i: nat)
    requires i < |s.transfers| && s1.transfers == s.transfers
    ensures SameEnds(s, Signal(s1, i), i)
  {
  }

  lemma HandshakeReceivers(p: Params, s: State, c: Choice, k: nat)
    requires Shaped(p, s) && Enabled(p, s, c) && k < |p.data| && c != HandleRts(k) && c != Probe(k)
    requires c.HandleRts? || c.Probe?
    ensures Step(p, s, c).transfers[k] == s.transfers[k]
  {
  }

  lemma PostReceivers(p: Params, s: State, c: Choice)
    requires Shaped(p, s) && Enabled(p, s, c) && (c.PostRts? || c.HandleRtr? || c.PostChunk?)
    ensures SameReceivers(s, Step(p, s, c), c.i)
  {
  }

  lemma RemoteWriteReceivers(p: Params, s: State, tag: nat)
    requires Shaped(p, s) && tag < p.slots && s.archive[tag].Some? && s.archive[tag].value < |p.data|
    ensures SameEnds(s, DoRemoteWrite(p, s, tag), s.archive[tag].value)
  {
    SignalReceivers(s, s.(remoteWrites := s.remoteWrites - multiset{tag}, archive := s.archive[tag := None]),
                    s.archive[tag].value);
  }

  lemma ReceiverStays(p: Params, s: State, c: Choice, k: nat)
    requires Shaped(p, s) && k < |p.data| && c != HandleRts(k) && c != Probe(k)
    ensures Step(p, s, c).transfers[k].receiver == s.transfers[k].receiver
    ensures NothingUntold(s.transfers[k], Step(p, s, c).transfers[k])
  {
    if Enabled(p, s, c) {
      match c
      case HandleRts(_) => HandshakeReceivers(p, s, c, k);
      case Probe(_) => HandshakeReceivers(p, s, c, k);
      case PostRts(_) => PostReceivers(p, s, c);
      case HandleRtr(_, _) => PostReceivers(p, s, c);
      case PostChunk(_) => PostReceivers(p, s, c);
      case Land(i, j) => LandReceivers(p, s, i, j);
      case LocalDone(i, j) => LocalDoneReceivers(p, s, i, j);
      case HandleFin(i) => SignalReceivers(s, s.(fins := s.fins - multiset{i}), i);
      case HandleRemoteWrite(tag) =>
        if s.archive[tag].Some? && s.archive[tag].value < |p.data| {
          RemoteWriteReceivers(p, s, tag);
        }
    }
  }

  lemma HandshakeSenders(p: Params, s: State, c: Choice, k: nat)
    requires Shaped(p, s) && Enabled(p, s, c) && k < |p.data| && (c.HandleRts? || c.Probe? || c.PostChunk?)
    ensures Step(p, s, c).transfers[k].sender == s.transfers[k].sender
  {
  }

  lemma SenderStays(p: Params, s: State, c: Choice, k: nat)
    requires Shaped(p, s) && k < |p.data| && !c.PostRts? && !c.HandleRtr?
    ensures Step(p, s, c).transfers[k].sender == s.transfers[k].sender
  {
    if Enabled(p, s, c) {
      match c
      case Land(i, j) => LandReceivers(p, s, i, j);
      case LocalDone(i, j) => LocalDoneReceivers(p, s, i, j);
      case HandleFin(i) => SignalReceivers(s, s.(fins := s.fins - multiset{i}), i);
      case HandleRemoteWrite(tag) =>
        if s.archive[tag].Some? && s.archive[tag].value < |p.data| {
          RemoteWriteReceivers(p, s, tag);
        }
      case _ => HandshakeSenders(p, s, c, k);
    }
  }

  lemma NextSlotStays(p: Params, s: State, c: Choice)
    requires Shaped(p, s) && !c.HandleRts?
    ensures Step(p, s, c).nextSlot == s.nextSlot
  {
  }

  lemma ReadyStays(p: Params, s: State, c: Choice, k: nat)
    requires Inv(p, s) && k < |p.data| && s.transfers[k].receiver.Ready?
    ensures Step(p, s, c).transfers[k].receiver == s.transfers[k].receiver
  {
    assert TransferOk(p, s, k);
    if c != HandleRts(k) && c != Probe(k) {
      ReceiverStays(p, s, c, k);
    }
  }

  lemma ToldStays(p: Params, s: State, c: Choice, k: nat)
    requires Shaped(p, s) && k < |p.data|
    ensures NothingUntold(s.transfers[k], Step(p, s, c).transfers[k])
  {
    if c != HandleRts(k) && c != Probe(k) {
      ReceiverStays(p, s, c, k);
    }
  }

  // ------------------------------------------------------- the first round

  ghost function Seen(p: Params, s: State): set<nat>
    requires Shaped(p, s)
  {
    set k: nat | k < |p.data| && s.transfers[k].receiver != Idle
  }

  /** Where a receiver starts to probe or has ended up. */
  function Place(r: ReceiverPhase): nat {
    match r
    case Probing(start, _) => start
    case Ready(tag) => tag
    case _ => 0
  }

  /** Receiver k has not failed a probe. */
  predicate Unhindered(t: Transfer) {
    t.receiver != Exhausted && (t.receiver.Probing? ==> t.receiver.tried == 0)
  }

  ghost predicate Apart(p: Params, s: State)
    requires Shaped(p, s)
  {
    && s.nextSlot == (if |Seen(p, s)| == p.slots then 0 else |Seen(p, s)|)
    && (forall k :: k in Seen(p, s) ==> Unhindered(s.transfers[k]) && Place(s.transfers[k].receiver) < |Seen(p, s)|)
    && (forall j, k :: j in Seen(p, s) && k in Seen(p, s) && j != k ==>
          Place(s.transfers[j].receiver) != Place(s.transfers[k].receiver))
  }

  /** Until more receives have begun than there are slots, each has a slot of its own. */
  ghost predicate FirstRound(p: Params, s: State)
    requires Shaped(p, s)
  {
    |Seen(p, s)| <= p.slots ==> Apart(p, s)
  }

  lemma SeenSame(p: Params, s: State, s': State)
    requires Shaped(p, s) && Shaped(p, s')
    requires forall k: nat :: k < |p.data| ==> (s'.transfers[k].receiver == Idle <==> s.transfers[k].receiver == Idle)
    ensures Seen(p, s') == Seen(p, s)
  {
  }

  lemma ApartBegins(p: Params, s: State, i: nat)
    requires Inv(p, s) && p.writeImm && Enabled(p, s, HandleRts(i)) && FirstRound(p, s)
    ensures FirstRound(p, Step(p, s, HandleRts(i)))
  {
    var s' := Step(p, s, HandleRts(i));
    assert TransferOk(p, s, i);
    assert Seen(p, s') == Seen(p, s) + {i} && i !in Seen(p, s);
  }

  /** In the first round a probe finds its slot free. */
  lemma ApartProbe(p: Params, s: State, i: nat)
    requires Inv(p, s) && p.writeImm && Enabled(p, s, Probe(i)) && Apart(p, s)
    ensures s.archive[SlotOf(s.transfers[i].receiver.start, s.transfers[i].receiver.tried, p.slots)] == None
  {
    assert TransferOk(p, s, i);
    var start := s.transfers[i].receiver.start;
    assert i in Seen(p, s) && TagOk(p, s, start);
  }

  lemma ApartMoves(p: Params, s: State, i: nat)
    requires Inv(p, s) && p.writeImm && Enabled(p, s, Probe(i)) && FirstRound(p, s)
    ensures FirstRound(p, Step(p, s, Probe(i)))
  {
    var s' := Step(p, s, Probe(i));
    SeenSame(p, s, s');
    if Apart(p, s) {
      ApartProbe(p, s, i);
      assert i in Seen(p, s);
      assert Place(s'.transfers[i].receiver) == Place(s.transfers[i].receiver);
    }
  }

  lemma StepFirstRound(p: Params, s: State, c: Choice)
    requires Inv(p, s) && p.writeImm && FirstRound(p, s)
    ensures FirstRound(p, Step(p, s, c))
  {
    if Enabled(p, s, c) {
      if c.HandleRts? {
        ApartBegins(p, s, c.i);
      } else if c.Probe? {
        ApartMoves(p, s, c.i);
      } else {
        var s' := Step(p, s, c);
        forall k: nat | k < |p.data| ensures s'.transfers[k].receiver == s.transfers[k].receiver {
          ReceiverStays(p, s, c, k);
        }
        SeenSame(p, s, s');
        NextSlotStays(p, s, c);
      }
    }
  }

  lemma {:induction false} ExecFirstRound(p: Params, s0: State, trace: seq<Choice>)
    requires ParamsOk(p) && p.writeImm && Initial(p, s0)
    ensures FirstRound(p, Exec(p, s0, trace))
  {
    if trace == [] {
      assert Seen(p, s0) == {};
    } else {
      var before := trace[..|trace| - 1];
      ExecInv(p, s0, before);
      ExecFirstRound(p, s0, before);
      StepFirstRound(p, Exec(p, s0, before), trace[|trace| - 1]);
    }
  }

  // ------------------------------------------------------- what a failed probe has seen

  /** Another transfer, none of those in past, was given this slot. */
  ghost predicate Taken(p: Params, s: State, i: nat, slot: nat, past: set<nat>)
    requires Shaped(p, s)
  {
    exists k: nat :: k < |p.data| && k != i && k !in past && s.transfers[k].receiver == Ready(slot)
  }

  /** The slots that receiver i found taken were given to transfers outside past. */
  ghost predicate ProbedOk(p: Params, s: State, i: nat, past: set<nat>)
    requires Shaped(p, s) && i < |p.data|
  {
    match s.transfers[i].receiver
    case Probing(start, tried) => forall j: nat :: j < tried ==> Taken(p, s, i, SlotOf(start, j, p.slots), past)
    case Exhausted => p.writeImm && forall slot: nat :: slot < p.slots ==> Taken(p, s, i, slot, past)
    case _ => true
  }

  /** Every transfer in past is over at its receiver, and there are enough of them. */
  ghost predicate PastOk(p: Params, s: State, i: nat, limit: nat, past: set<nat>)
    requires Shaped(p, s) && i < |p.data|
  {
    && i !in past
    && (forall k :: k in past ==> k < |p.data| && s.transfers[k].receiverSignals > 0)
    && (!Unhindered(s.transfers[i]) ==> |past| + limit > p.slots && limit >= 2)
  }

  lemma TakenStays(p: Params, s: State, c: Choice, i: nat, slot: nat, past: set<nat>)
    requires Inv(p, s) && Taken(p, s, i, slot, past)
    ensures Taken(p, Step(p, s, c), i, slot, past)
  {
    var k: nat :| k < |p.data| && k != i && k !in past && s.transfers[k].receiver == Ready(slot);
    ReadyStays(p, s, c, k);
  }

  /** A probe that fails has seen a slot of a transfer that is still live. */
  lemma ProbeSees(p: Params, s: State, i: nat, past: set<nat>)
    requires Inv(p, s) && p.writeImm && i < |p.data| && s.transfers[i].receiver.Probing?
    requires ProbedOk(p, s, i, past) && forall k :: k in past ==> k < |p.data| && s.transfers[k].receiverSignals > 0
    ensures ProbedOk(p, Step(p, s, Probe(i)), i, past)
  {
    assert TransferOk(p, s, i);
    var s' := Step(p, s, Probe(i));
    var start, tried := s.transfers[i].receiver.start, s.transfers[i].receiver.tried;
    var idx := SlotOf(start, tried, p.slots);
    if s.archive[idx].Some? {
      assert TagOk(p, s, idx);
      assert Taken(p, s, i, idx, past);
      forall j: nat | j <= tried ensures Taken(p, s', i, SlotOf(start, j, p.slots), past) {
        TakenStays(p, s, Probe(i), i, SlotOf(start, j, p.slots), past);
      }
      if tried + 1 == p.slots {
        AllProbed(p, s', i, start, past);
      }
    }
  }

  /** size probes from any start visit every slot. */
  lemma AllProbed(p: Params, s: State, i: nat, start: nat, past: set<nat>)
    requires Shaped(p, s) && start < p.slots
    requires forall j: nat :: j < p.slots ==> Taken(p, s, i, SlotOf(start, j, p.slots), past)
    ensures forall slot: nat :: slot < p.slots ==> Taken(p, s, i, slot, past)
  {
    forall slot: nat | slot < p.slots ensures Taken(p, s, i, slot, past) {
      var j := if slot >= start then slot - start else slot + p.slots - start;
      assert SlotOf(start, j, p.slots) == slot;
    }
  }

  lemma StepProbed(p: Params, s: State, c: Choice, i: nat, past: set<nat>)
    requires Inv(p, s) && p.writeImm && i < |p.data| && ProbedOk(p, s, i, past)
    requires forall k :: k in past ==> k < |p.data| && s.transfers[k].receiverSignals > 0
    ensures ProbedOk(p, Step(p, s, c), i, past)
  {
    var s' := Step(p, s, c);
    if c == Probe(i) {
      if s.transfers[i].receiver.Probing? {
        ProbeSees(p, s, i, past);
      }
    } else if c != HandleRts(i) {
      ReceiverStays(p, s, c, i);
      forall slot: nat | Taken(p, s, i, slot, past) ensures Taken(p, s', i, slot, past) {
        TakenStays(p, s, c, i, slot, past);
      }
    }
  }

  // ------------------------------------------------------- the first probe that fails

  /** Transfers that have begun at the receiver and are not live are over. */
  ghost function Over(p: Params, s: State): set<nat>
    requires Shaped(p, s)
  {
    Seen(p, s) - LiveSet(p, s)
  }

  lemma OverTold(p: Params, s: State, k: nat)
    requires Inv(p, s) && k in Over(p, s)
    ensures s.transfers[k].receiverSignals > 0
  {
    assert TransferOk(p, s, k);
  }

  /** When receiver i fails its first probe, more receives have begun than there are slots; all but
      the live ones are over, and two are live. */
  lemma FirstFailure(p: Params, s: State, i: nat, limit: nat)
    requires Inv(p, s) && p.writeImm && FirstRound(p, s) && |LiveSet(p, s)| <= limit
    requires Enabled(p, s, Probe(i)) && Unhindered(s.transfers[i])
    requires !Unhindered(Step(p, s, Probe(i)).transfers[i])
    ensures |Over(p, s)| + limit > p.slots && limit >= 2 && i !in Over(p, s)
  {
    assert TransferOk(p, s, i);
    var start := s.transfers[i].receiver.start;
    assert TagOk(p, s, start);
    if Apart(p, s) {
      ApartProbe(p, s, i);
    }
    var k := s.archive[start].value;
    assert TransferOk(p, s, k);
    assert {i, k} <= LiveSet(p, s);
    SubsetSize({i, k}, LiveSet(p, s));
    DifferenceSize(Seen(p, s), LiveSet(p, s));
  }

  lemma {:induction false} SubsetSize(a: set<nat>, b: set<nat>)
    requires a <= b
    ensures |a| <= |b|
    decreases a
  {
    if x :| x in a {
      SubsetSize(a - {x}, b - {x});
    }
  }

  lemma DifferenceSize(a: set<nat>, b: set<nat>)
    ensures |a - b| + |b| >= |a|
  {
    SubsetSize(a, (a - b) + b);
  }

  /** What is known of the past of receiver i after a run with at most limit live transfers. */
  lemma {:induction false} PastOf(p: Params, s0: State, trace: seq<Choice>, i: nat, limit: nat) returns (past: set<nat>)
    requires ParamsOk(p) && p.writeImm && Initial(p, s0) && i < |p.data| && Within(p, s0, trace, limit)
    ensures PastOk(p, Exec(p, s0, trace), i, limit, past) && ProbedOk(p, Exec(p, s0, trace), i, past)
  {
    past := {};
    if trace != [] {
      var before, c := trace[..|trace| - 1], trace[|trace| - 1];
      past := PastOf(p, s0, before, i, limit);
      ExecInv(p, s0, before);
      ExecFirstRound(p, s0, before);
      past := PastStep(p, Exec(p, s0, before), c, i, limit, past);
    }
  }

  lemma PastStep(p: Params, s: State, c: Choice, i: nat, limit: nat, before: set<nat>) returns (past: set<nat>)
    requires Inv(p, s) && p.writeImm && FirstRound(p, s) && |LiveSet(p, s)| <= limit && i < |p.data|
    requires PastOk(p, s, i, limit, before) && ProbedOk(p, s, i, before)
    ensures PastOk(p, Step(p, s, c), i, limit, past) && ProbedOk(p, Step(p, s, c), i, past)
  {
    past := before;
    if c == Probe(i) && Unhindered(s.transfers[i]) && !Unhindered(Step(p, s, c).transfers[i]) {
      FirstFailure(p, s, i, limit);
      past := Over(p, s);
      forall k | k in past ensures s.transfers[k].receiverSignals > 0 {
        OverTold(p, s, k);
      }
    } else if c != Probe(i) && c != HandleRts(i) {
      ReceiverStays(p, s, c, i);
    }
    StepProbed(p, s, c, i, past);
    forall k | k in past ensures Step(p, s, c).transfers[k].receiverSignals > 0 {
      ToldStays(p, s, c, k);
    }
  }

  // ------------------------------------------------------- counting transfers

  /** Different slots are held by different transfers. */
  lemma {:induction false} Holders(p: Params, s: State, i: nat, m: nat, past: set<nat>) returns (holders: set<nat>)
    requires Shaped(p, s) && i < |p.data| && forall slot: nat :: slot < m ==> Taken(p, s, i, slot, past)
    ensures |holders| == m && forall k :: k in holders ==>
              k < |p.data| && k != i && k !in past && s.transfers[k].receiver.Ready? && s.transfers[k].receiver.tag < m
  {
    if m == 0 {
      holders := {};
    } else {
      var rest := Holders(p, s, i, m - 1, past);
      assert Taken(p, s, i, m - 1, past);
      var k: nat :| k < |p.data| && k != i && k !in past && s.transfers[k].receiver == Ready(m - 1);
      assert k !in rest;
      holders := rest + {k};
    }
  }

  /** Write mode does not use the archive. In writeimm mode an insertion needs, to fail, a transfer in
      every slot beside its own; if only limit of all these are live at a time, slots + 1 - limit
      others must have come and gone before it starts to fail. */
  predicate Roomy(p: Params, limit: nat) {
    !p.writeImm || |p.data| <= p.slots || limit <= 1 || |p.data| + limit <= 2 * p.slots + 1
  }

  /** No insertion fails in a roomy archive. */
  lemma NoInsertionFails(p: Params, s0: State, trace: seq<Choice>, limit: nat, i: nat)
    requires ParamsOk(p) && Initial(p, s0) && i < |p.data| && Within(p, s0, trace, limit) && Roomy(p, limit)
    ensures Exec(p, s0, trace).transfers[i].receiver != Exhausted
  {
    var s := Exec(p, s0, trace);
    if p.writeImm {
      var past := PastOf(p, s0, trace, i, limit);
      if s.transfers[i].receiver == Exhausted {
        var holders := Holders(p, s, i, p.slots, past);
        assert |holders + {i}| == p.slots + 1 && |holders + {i} + past| == p.slots + 1 + |past|;
        FullSet(holders + {i} + past, |p.data|);
        assert false;
      }
    } else {
      NeverProbes(p, s0, trace, i);
    }
  }

  lemma {:induction false} NeverProbes(p: Params, s0: State, trace: seq<Choice>, i: nat)
    requires Initial(p, s0) && i < |p.data| && !p.writeImm
    ensures Exec(p, s0, trace).transfers[i].receiver in {Idle, Ready(0)}
  {
    if trace != [] {
      var before, c := trace[..|trace| - 1], trace[|trace| - 1];
      NeverProbes(p, s0, before, i);
      if c != HandleRts(i) && c != Probe(i) {
        ReceiverStays(p, Exec(p, s0, before), c, i);
      }
    }
  }
}
