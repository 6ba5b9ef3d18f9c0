/** Every run of the rendezvous protocol: each side is told once, the receiver after all bytes are
    in its buffer, and archive tags identify receive contexts. */
module RendezvousProof {
  import opened Options
  import opened EagerEncoding
  import opened Rendezvous

  // ------------------------------------------------------- the invariant

  predicate Started(t: Transfer) {
    t.sender == Writing
  }

  /** The bytes of every chunk that has landed are in the receive buffer. */
  ghost predicate BufferOk(data: Bytes, chunks: seq<Chunk>, t: Transfer)
    requires |t.buffer| == |data|
  {
    forall k, b :: k in t.landed && 0 <= k < |chunks| && 0 <= b < |data| && Covers(chunks[k], b) ==>
      t.buffer[b] == data[b]
  }

  /** done <= landed <= posted, and the counter counts what is not done. */
  ghost predicate ChunksOk(writeImm: bool, n: nat, t: Transfer) {
    && t.done <= t.landed
    && t.posted <= n
    && (forall k :: k in t.landed ==> 0 <= k < t.posted)
    && (writeImm ==> forall j, k :: 0 <= j < k && k in t.landed ==> j in t.landed)
    && (Started(t) ==> t.signalCount == n - |t.done|)
    && (!Started(t) ==> t.posted == 0)
    && t.senderSignals == (if Started(t) && t.signalCount <= 0 then 1 else 0)
  }

  /** The two ends of transfer i agree on how far it is. */
  ghost predicate PhasesOk(p: Params, s: State, i: nat)
    requires Shaped(p, s) && i < |p.data|
  {
    var t := s.transfers[i];
    && (i in s.rts <==> t.sender == AwaitingRtr && t.receiver == Idle)
    && (t.sender == Fresh ==> t.receiver == Idle)
    && (Started(t) ==> t.receiver.Ready? && t.key == KeyOf(p, i, t.receiver))
    && (t.receiver.Ready? && !Started(t) ==> (i, KeyOf(p, i, t.receiver)) in s.rtr)
    && (t.receiver.Ready? && p.writeImm ==> t.receiver.tag < p.slots)
    && (t.receiver.Probing? ==> p.writeImm && t.receiver.start < p.slots && t.receiver.tried < p.slots)
  }

  function KeyOf(p: Params, i: nat, r: ReceiverPhase): nat
    requires r.Ready?
  {
    if p.writeImm then r.tag else i
  }

  ghost predicate RtrOk(p: Params, s: State)
    requires Shaped(p, s)
  {
    forall i, key :: (i, key) in s.rtr ==>
      i < |p.data| && s.transfers[i].sender == AwaitingRtr && s.transfers[i].receiver.Ready?
      && key == KeyOf(p, i, s.transfers[i].receiver)
  }

  /** Transfer i holds tag t in the archive. */
  predicate Holds(t: Transfer, tag: nat) {
    t.receiver == Ready(tag) && t.receiverSignals == 0
  }

  predicate AllThere(n: nat, t: Transfer) {
    n - 1 in t.landed
  }

  /** Write mode: a FIN is in flight or was handled exactly when the sender has been signalled. */
  ghost predicate FinOk(p: Params, s: State, i: nat)
    requires Shaped(p, s) && i < |p.data|
  {
    var t := s.transfers[i];
    if p.writeImm then
      t.receiverSignals <= 1 && (t.receiverSignals == 1 ==> t.receiver.Ready? && AllThere(|p.chunks[i]|, t))
    else s.fins[i] + t.receiverSignals == t.senderSignals
  }

  /** Writeimm mode: tag t is in the archive for exactly the transfer that was given it and was not
      completed yet, and its completion is in flight exactly when its last chunk has landed. */
  ghost predicate TagOk(p: Params, s: State, tag: nat)
    requires Shaped(p, s) && tag < p.slots
  {
    match s.archive[tag]
    case None => s.remoteWrites[tag] == 0 && forall i :: 0 <= i < |p.data| ==> !Holds(s.transfers[i], tag)
    case Some(i) =>
      && i < |p.data| && Holds(s.transfers[i], tag)
      && s.remoteWrites[tag] == (if AllThere(|p.chunks[i]|, s.transfers[i]) then 1 else 0)
      && forall j :: 0 <= j < |p.data| && Holds(s.transfers[j], tag) ==> j == i
  }

  ghost predicate TransferOk(p: Params, s: State, i: nat)
    requires Shaped(p, s) && i < |p.data|
  {
    && BufferOk(p.data[i], p.chunks[i], s.transfers[i])
    && ChunksOk(p.writeImm, |p.chunks[i]|, s.transfers[i])
    && PhasesOk(p, s, i)
    && FinOk(p, s, i)
  }

  ghost predicate Inv(p: Params, s: State) {
    && Shaped(p, s) && s.nextSlot < p.slots
    && (if p.writeImm then s.fins == multiset{} else s.remoteWrites == multiset{})
    && RtrOk(p, s)
    && (forall i :: 0 <= i < |p.data| ==> TransferOk(p, s, i))
    && (p.writeImm ==> forall tag :: 0 <= tag < p.slots ==> TagOk(p, s, tag))
  }

  // ------------------------------------------------------- counting chunks

  lemma {:induction false} FullSet(a: set<nat>, n: nat)
    requires forall k :: k in a ==> 0 <= k < n
    ensures |a| <= n
    ensures |a| == n ==> forall k :: 0 <= k < n ==> k in a
  {
    if n > 0 {
      var b := a - {n - 1};
      FullSet(b, n - 1);
      assert n - 1 in a ==> a == b + {n - 1} && |a| == |b| + 1;
      assert n - 1 !in a ==> a == b;
    } else {
      assert a == {};
    }
  }

  /** Once every put was reported complete, or the last one landed in order, all bytes are there. */
  lemma AllLanded(p: Params, s: State, i: nat)
    requires ParamsOk(p) && Inv(p, s) && i < |p.data|
    requires s.transfers[i].senderSignals > 0 || (p.writeImm && AllThere(|p.chunks[i]|, s.transfers[i]))
    ensures s.transfers[i].buffer == p.data[i]
    ensures forall k :: 0 <= k < |p.chunks[i]| ==> k in s.transfers[i].landed
  {
    assert TransferOk(p, s, i);
    var t, n := s.transfers[i], |p.chunks[i]|;
    if t.senderSignals > 0 {
      FullSet(t.done, n);
    }
    forall b | 0 <= b < |p.data[i]| ensures t.buffer[b] == p.data[i][b] {
      var k := TilesCover(p.chunks[i], 0, |p.data[i]|, b);
    }
  }

  lemma SomeChunk(p: Params, i: nat)
    requires ParamsOk(p) && i < |p.data|
    ensures |p.chunks[i]| > 0
  {
  }

  // ------------------------------------------------------- each step keeps the invariant

  /** A transfer that the step does not touch stays as it was. */
  lemma Untouched(p: Params, s: State, s': State, j: nat)
    requires Shaped(p, s) && Shaped(p, s') && j < |p.data| && TransferOk(p, s, j)
    requires s'.transfers[j] == s.transfers[j] && (j in s'.rts <==> j in s.rts)
    requires s'.fins[j] == s.fins[j] && forall key :: (j, key) in s.rtr ==> (j, key) in s'.rtr
    ensures TransferOk(p, s', j)
  {
  }

  /** What a step on transfer i leaves alone for all the others. */
  ghost predicate OnlyTransfer(p: Params, s: State, s': State, i: nat)
    requires Shaped(p, s)
  {
    && Shaped(p, s') && i < |p.data|
    && (forall j: nat :: j < |p.data| && j != i ==> s'.transfers[j] == s.transfers[j])
    && (forall j: nat :: j != i ==> (j in s'.rts <==> j in s.rts) && s'.fins[j] == s.fins[j])
    && (forall j: nat, key: nat :: j != i ==> ((j, key) in s'.rtr <==> (j, key) in s.rtr))
  }

  lemma OthersUntouched(p: Params, s: State, s': State, i: nat)
    requires Inv(p, s) && OnlyTransfer(p, s, s', i)
    ensures forall j :: 0 <= j < |p.data| && j != i ==> TransferOk(p, s', j)
  {
    forall j | 0 <= j < |p.data| && j != i ensures TransferOk(p, s', j) {
      assert TransferOk(p, s, j);
      Untouched(p, s, s', j);
    }
  }

  /** Changing a transfer without touching what a tag depends on keeps the tag in order. */
  lemma SameTags(p: Params, s: State, s': State, i: nat)
    requires Inv(p, s) && Shaped(p, s') && i < |p.data| && p.writeImm
    requires s'.transfers == s.transfers[i := s'.transfers[i]] && s'.archive == s.archive
    requires s'.remoteWrites == s.remoteWrites
    requires forall tag :: 0 <= tag < p.slots ==> Holds(s'.transfers[i], tag) == Holds(s.transfers[i], tag)
    requires AllThere(|p.chunks[i]|, s'.transfers[i]) == AllThere(|p.chunks[i]|, s.transfers[i])
    ensures forall tag :: 0 <= tag < p.slots ==> TagOk(p, s', tag)
  {
    forall tag | 0 <= tag < p.slots ensures TagOk(p, s', tag) {
      assert TagOk(p, s, tag);
    }
  }

  lemma PostRtsKeeps(p: Params, s: State, i: nat)
    requires ParamsOk(p) && Inv(p, s) && Enabled(p, s, PostRts(i))
    ensures Inv(p, Step(p, s, PostRts(i)))
  {
    var s' := Step(p, s, PostRts(i));
    assert TransferOk(p, s, i);
    OthersUntouched(p, s, s', i);
    if p.writeImm {
      SameTags(p, s, s', i);
    }
  }

  lemma HandleRtsKeeps(p: Params, s: State, i: nat)
    requires ParamsOk(p) && Inv(p, s) && Enabled(p, s, HandleRts(i))
    ensures Inv(p, Step(p, s, HandleRts(i)))
  {
    var s' := Step(p, s, HandleRts(i));
    assert TransferOk(p, s, i);
    OthersUntouched(p, s, s', i);
    if p.writeImm {
      SameTags(p, s, s', i);
    }
  }

  lemma ProbeKeeps(p: Params, s: State, i: nat)
    requires ParamsOk(p) && Inv(p, s) && Enabled(p, s, Probe(i))
    ensures Inv(p, Step(p, s, Probe(i)))
  {
    var s' := Step(p, s, Probe(i));
    assert TransferOk(p, s, i);
    OthersUntouched(p, s, s', i);
    var idx := SlotOf(s.transfers[i].receiver.start, s.transfers[i].receiver.tried, p.slots);
    if s.archive[idx] == None {
      forall tag | 0 <= tag < p.slots ensures TagOk(p, s', tag) {
        assert TagOk(p, s, tag);
      }
    } else {
      SameTags(p, s, s', i);
    }
  }

  lemma HandleRtrKeeps(p: Params, s: State, i: nat, key: nat)
    requires ParamsOk(p) && Inv(p, s) && Enabled(p, s, HandleRtr(i, key))
    ensures Inv(p, Step(p, s, HandleRtr(i, key)))
  {
    var s' := Step(p, s, HandleRtr(i, key));
    assert TransferOk(p, s, i);
    SomeChunk(p, i);
    OthersUntouched(p, s, s', i);
    assert s.transfers[i].landed == {} && s.transfers[i].done == {};
    if p.writeImm {
      SameTags(p, s, s', i);
    }
  }

  lemma PostChunkKeeps(p: Params, s: State, i: nat)
    requires ParamsOk(p) && Inv(p, s) && Enabled(p, s, PostChunk(i))
    ensures Inv(p, Step(p, s, PostChunk(i)))
  {
    var s' := Step(p, s, PostChunk(i));
    assert TransferOk(p, s, i);
    OthersUntouched(p, s, s', i);
    if p.writeImm {
      SameTags(p, s, s', i);
    }
  }

  lemma SpliceKeeps(data: Bytes, chunks: seq<Chunk>, t: Transfer, k: nat)
    requires |t.buffer| == |data| && BufferOk(data, chunks, t) && k < |chunks|
    requires chunks[k].offset + chunks[k].length <= |data|
    ensures BufferOk(data, chunks, t.(landed := t.landed + {k}, buffer := Splice(t.buffer, data, chunks[k])))
  {
  }

  lemma LandTransfer(p: Params, s: State, i: nat, k: nat)
    requires Shaped(p, s) && Enabled(p, s, Land(i, k)) && TransferOk(p, s, i)
    ensures TransferOk(p, DoLand(p, s, i, k), i)
  {
    SpliceKeeps(p.data[i], p.chunks[i], s.transfers[i], k);
  }

  lemma LastLands(p: Params, s: State, i: nat)
    requires Inv(p, s) && p.writeImm && i < |p.data| && p.chunks[i] != [] && Enabled(p, s, Land(i, |p.chunks[i]| - 1))
    ensures var s' := DoLand(p, s, i, |p.chunks[i]| - 1); forall tag :: 0 <= tag < p.slots ==> TagOk(p, s', tag)
  {
    var s' := DoLand(p, s, i, |p.chunks[i]| - 1);
    assert TransferOk(p, s, i);
    forall tag | 0 <= tag < p.slots ensures TagOk(p, s', tag) {
      assert TagOk(p, s, tag) && TagOk(p, s, s.transfers[i].key);
    }
  }

  lemma LandKeeps(p: Params, s: State, i: nat, k: nat)
    requires ParamsOk(p) && Inv(p, s) && Enabled(p, s, Land(i, k))
    ensures Inv(p, Step(p, s, Land(i, k)))
  {
    var s' := Step(p, s, Land(i, k));
    assert TransferOk(p, s, i);
    LandTransfer(p, s, i, k);
    OthersUntouched(p, s, s', i);
    if p.writeImm {
      if k != |p.chunks[i]| - 1 {
        SameTags(p, s, s', i);
      } else {
        LastLands(p, s, i);
      }
    }
  }

  lemma LocalDoneTransfer(p: Params, s: State, i: nat, k: nat)
    requires Shaped(p, s) && Enabled(p, s, LocalDone(i, k)) && TransferOk(p, s, i)
    requires p.writeImm ==> s.fins == multiset{}
    ensures TransferOk(p, DoLocalDone(p, s, i, k), i)
  {
    FullSet(s.transfers[i].done + {k}, |p.chunks[i]|);
  }

  lemma LocalDoneKeeps(p: Params, s: State, i: nat, k: nat)
    requires ParamsOk(p) && Inv(p, s) && Enabled(p, s, LocalDone(i, k))
    ensures Inv(p, Step(p, s, LocalDone(i, k)))
  {
    var s' := Step(p, s, LocalDone(i, k));
    assert TransferOk(p, s, i);
    LocalDoneTransfer(p, s, i, k);
    OthersUntouched(p, s, s', i);
    if p.writeImm {
      SameTags(p, s, s', i);
    }
  }

  lemma HandleFinKeeps(p: Params, s: State, ctx: nat)
    requires ParamsOk(p) && Inv(p, s) && Enabled(p, s, HandleFin(ctx))
    ensures Inv(p, Step(p, s, HandleFin(ctx)))
  {
    var s' := Step(p, s, HandleFin(ctx));
    assert TransferOk(p, s, ctx);
    OthersUntouched(p, s, s', ctx);
  }

  lemma HandleRemoteWriteKeeps(p: Params, s: State, tag: nat)
    requires ParamsOk(p) && Inv(p, s) && Enabled(p, s, HandleRemoteWrite(tag))
    ensures Inv(p, Step(p, s, HandleRemoteWrite(tag)))
  {
    var s' := Step(p, s, HandleRemoteWrite(tag));
    assert TagOk(p, s, tag);
    var i := s.archive[tag].value;
    assert TransferOk(p, s, i);
    OthersUntouched(p, s, s', i);
    forall u | 0 <= u < p.slots ensures TagOk(p, s', u) {
      assert TagOk(p, s, u);
    }
  }

  lemma StepKeeps(p: Params, s: State, c: Choice)
    requires ParamsOk(p) && Inv(p, s)
    ensures Inv(p, Step(p, s, c))
  {
    if Enabled(p, s, c) {
      match c
      case PostRts(i) => PostRtsKeeps(p, s, i);
      case HandleRts(i) => HandleRtsKeeps(p, s, i);
      case Probe(i) => ProbeKeeps(p, s, i);
      case HandleRtr(i, key) => HandleRtrKeeps(p, s, i, key);
      case PostChunk(i) => PostChunkKeeps(p, s, i);
      case Land(i, k) => LandKeeps(p, s, i, k);
      case LocalDone(i, k) => LocalDoneKeeps(p, s, i, k);
      case HandleFin(ctx) => HandleFinKeeps(p, s, ctx);
      case HandleRemoteWrite(tag) => HandleRemoteWriteKeeps(p, s, tag);
    }
  }

  lemma {:induction false} ExecInv(p: Params, s0: State, trace: seq<Choice>)
    requires ParamsOk(p) && Initial(p, s0)
    ensures Inv(p, Exec(p, s0, trace))
  {
    if trace != [] {
      var before := trace[..|trace| - 1];
      ExecInv(p, s0, before);
      StepKeeps(p, Exec(p, s0, before), trace[|trace| - 1]);
    }
  }

  // ------------------------------------------------------- main results

  /** In every run each side of each transfer is told at most once; whoever is told finds all bytes
      of the message in the receive buffer, in place. */
  lemma ToldOnceAfterAllBytes(p: Params, s0: State, trace: seq<Choice>, i: nat)
    requires ParamsOk(p) && Initial(p, s0) && i < |p.data|
    ensures var t := Exec(p, s0, trace).transfers[i];
            && t.senderSignals <= 1 && t.receiverSignals <= 1
            && (t.senderSignals + t.receiverSignals > 0 ==> t.buffer == p.data[i])
  {
    ExecInv(p, s0, trace);
    var s := Exec(p, s0, trace);
    assert TransferOk(p, s, i);
    if s.transfers[i].senderSignals + s.transfers[i].receiverSignals > 0 {
      AllLanded(p, s, i);
    }
  }

  /** In every run the completion counter is positive whenever a put is reported complete, so that
      it reaches zero once, with the last of the puts it was set to. */
  lemma CounterMatchesPuts(p: Params, s0: State, trace: seq<Choice>, i: nat, k: nat)
    requires ParamsOk(p) && Initial(p, s0) && i < |p.data|
    ensures var s := Exec(p, s0, trace);
            && s.transfers[i].posted <= |p.chunks[i]|
            && (Enabled(p, s, LocalDone(i, k)) ==> s.transfers[i].signalCount > 0)
  {
    ExecInv(p, s0, trace);
    var s := Exec(p, s0, trace);
    assert TransferOk(p, s, i);
    if Enabled(p, s, LocalDone(i, k)) {
      FullSet(s.transfers[i].done + {k}, |p.chunks[i]|);
    }
  }

  /** In every writeimm run two transfers that wait for their data never share a tag, and a
      completion that carries a tag finds in the archive the transfer whose data has just arrived. */
  lemma TagsIdentifyTransfers(p: Params, s0: State, trace: seq<Choice>, tag: nat)
    requires ParamsOk(p) && Initial(p, s0) && p.writeImm && tag < p.slots
    ensures var s := Exec(p, s0, trace);
            && (forall i, j :: 0 <= i < |p.data| && 0 <= j < |p.data| ==>
                  (Holds(s.transfers[i], tag) && Holds(s.transfers[j], tag) ==> i == j))
            && (forall i :: 0 <= i < |p.data| && Holds(s.transfers[i], tag) ==> s.archive[tag] == Some(i))
            && (s.remoteWrites[tag] > 0 ==>
                  && s.archive[tag].Some? && s.archive[tag].value < |p.data|
                  && var t := s.transfers[s.archive[tag].value];
                     t.key == tag && t.receiverSignals == 0 && t.buffer == p.data[s.archive[tag].value])
  {
    ExecInv(p, s0, trace);
    var s := Exec(p, s0, trace);
    assert TagOk(p, s, tag);
    if s.remoteWrites[tag] > 0 {
      var i := s.archive[tag].value;
      assert TransferOk(p, s, i);
      AllLanded(p, s, i);
    }
  }

  // ------------------------------------------------------- no run gets stuck

  lemma {:induction false} FirstMissing(a: set<nat>, n: nat) returns (k: nat)
    ensures k <= n && (forall j :: 0 <= j < k ==> j in a) && (k < n ==> k !in a)
  {
    k := 0;
    while k < n && k in a
      invariant k <= n && forall j :: 0 <= j < k ==> j in a
    {
      k := k + 1;
    }
  }

  ghost predicate CanStep(p: Params, s: State)
    requires Shaped(p, s)
  {
    exists c :: Enabled(p, s, c)
  }

  /** A step that is about transfer i, and posts its RTS only if that is the next thing to do. */
  ghost predicate Moves(p: Params, s: State, i: nat, c: Choice)
    requires Shaped(p, s) && i < |p.data|
  {
    && Enabled(p, s, c)
    && (match c
        case HandleFin(ctx) => ctx == i
        case HandleRemoteWrite(tag) => s.archive[tag] == Some(i)
        case _ => c.i == i)
    && (c.PostRts? ==> s.transfers[i].sender == Fresh)
  }

  /** A transfer whose writes are not all complete, or whose handshake is not over, can move. */
  lemma SenderCanMove(p: Params, s: State, i: nat) returns (c: Choice)
    requires ParamsOk(p) && Inv(p, s) && i < |p.data| && s.transfers[i].senderSignals == 0
    requires s.transfers[i].receiver != Exhausted
    ensures Moves(p, s, i, c)
  {
    var t, n := s.transfers[i], |p.chunks[i]|;
    assert TransferOk(p, s, i);
    TilesInside(p.chunks[i], 0, |p.data[i]|);
    match t.sender
    case Fresh => c := PostRts(i);
    case AwaitingRtr =>
      match t.receiver {
        case Idle => c := HandleRts(i);
        case Probing(_, _) => c := Probe(i);
        case Ready(_) => c := HandleRtr(i, KeyOf(p, i, t.receiver));
      }
    case Writing =>
      var k := FirstMissing(t.landed, n);
      if t.posted < n {
        c := PostChunk(i);
      } else if k < n {
        c := Land(i, k);
      } else {
        var d := FirstMissing(t.done, n);
        if d < n {
          c := LocalDone(i, d);
        } else {
          HasAll(t.done, n);
          assert false;
        }
      }
  }

  lemma {:induction false} HasAll(a: set<nat>, n: nat)
    requires forall k :: 0 <= k < n ==> k in a
    ensures |a| >= n
  {
    if n > 0 {
      var b := a - {n - 1};
      HasAll(b, n - 1);
      assert a == b + {n - 1};
    }
  }

  lemma ReceiverCanMove(p: Params, s: State, i: nat) returns (c: Choice)
    requires ParamsOk(p) && Inv(p, s) && i < |p.data|
    requires s.transfers[i].senderSignals == 1 && s.transfers[i].receiverSignals == 0
    ensures Moves(p, s, i, c)
  {
    assert TransferOk(p, s, i);
    AllLanded(p, s, i);
    SomeChunk(p, i);
    if p.writeImm {
      var tag := s.transfers[i].receiver.tag;
      assert TagOk(p, s, tag);
      c := HandleRemoteWrite(tag);
    } else {
      c := HandleFin(i);
    }
  }

  /** In a run that cannot move, a transfer whose archive insertion did not fail has completed on both
      sides. */
  lemma StuckMeansTold(p: Params, s0: State, trace: seq<Choice>, i: nat)
    requires ParamsOk(p) && Initial(p, s0) && !CanStep(p, Exec(p, s0, trace)) && i < |p.data|
    ensures var t := Exec(p, s0, trace).transfers[i];
            t.receiver == Exhausted || (t.senderSignals == 1 && t.receiverSignals == 1 && t.buffer == p.data[i])
  {
    ExecInv(p, s0, trace);
    var s := Exec(p, s0, trace);
    assert TransferOk(p, s, i);
    var t := s.transfers[i];
    if t.receiver != Exhausted {
      if t.senderSignals == 0 {
        var c := SenderCanMove(p, s, i);
        assert false;
      }
      AllLanded(p, s, i);
      if t.receiverSignals == 0 {
        var c := ReceiverCanMove(p, s, i);
        assert false;
      }
    }
  }
}
