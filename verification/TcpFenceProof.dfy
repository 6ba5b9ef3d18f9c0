/** Every run of the TCP fence that does not fail: nobody leaves barrier k before all have entered
    it, and whoever leaves holds what every rank had published before its k-th barrier. */
module TcpFenceProof {
  import opened TcpFence

  // ------------------------------------------------------- what the sockets will bring

  /** What rank 0's part for a client becomes when it has read these messages. */
  function Fold(m: Kvs, ms: seq<Msg>): Kvs
    decreases |ms|
  {
    if ms == [] then m else Fold(if ms[0].Publish? then m[ms[0].key := ms[0].value] else m, ms[1..])
  }

  /** The messages that a client has still to send in its barrier. */
  function Unsent(pc: Pc): seq<Msg> {
    if pc.Sending? && pc.next <= |pc.records| then Publishes(pc.records[pc.next..]) + [BarrierMsg] else []
  }

  /** The rest of the snapshot that rank 0 is sending to client i. */
  function Unanswered(pc: Pc, i: nat): seq<Msg> {
    if pc.Answering? && pc.client == i && pc.next <= |pc.records| then Values(pc.records[pc.next..]) else []
  }

  /** All that rank 0 will read from client i, and client i from rank 0, in what they are doing. */
  function Ups(s: State, i: nat): seq<Msg>
    requires Shaped(s) && i < |s.ranks|
  {
    s.up[i] + Unsent(s.ranks[i].pc)
  }

  function Downs(s: State, i: nat): seq<Msg>
    requires Shaped(s) && i < |s.ranks|
  {
    s.down[i] + Unanswered(s.ranks[0].pc, i)
  }

  ghost predicate PublishesThenBarrier(ms: seq<Msg>) {
    ms != [] && ms[|ms| - 1] == BarrierMsg && forall k :: 0 <= k < |ms| - 1 ==> ms[k].Publish?
  }

  ghost predicate AllValues(ms: seq<Msg>, n: nat) {
    forall k :: 0 <= k < |ms| ==> ms[k].ValueMsg? && ms[k].entry.rank < n
  }

  // ------------------------------------------------------- barriers and commits

  /** What rank j had published before its e-th barrier. */
  function Commit(commits: seq<seq<Kvs>>, j: nat, e: nat): Kvs {
    if j < |commits| && 0 < e <= |commits[j]| then commits[j][e - 1] else map[]
  }

  /** What all ranks had published before their e-th barriers. */
  function Global(commits: seq<seq<Kvs>>, e: nat): Table {
    seq(|commits|, j requires 0 <= j < |commits| => Commit(commits, j, e))
  }

  /** How many barrier requests of client i rank 0 has read. */
  function Got(s: State, i: nat): int
    requires Shaped(s)
  {
    var server := s.ranks[0];
    if server.pc.Collecting? && i !in server.pc.arrived then server.entered - 1 else server.entered
  }

  /** The last barrier that rank 0 has begun to answer to client i. */
  function Told(s: State, i: nat): int
    requires Shaped(s)
  {
    var server := s.ranks[0];
    if server.pc.Collecting? || (server.pc.Answering? && i !in server.pc.told) then server.entered - 1
    else server.entered
  }

  // ------------------------------------------------------- the invariant

  ghost predicate UpOk(s: State, i: nat)
    requires Shaped(s) && 0 < i < |s.ranks|
  {
    var r := s.ranks[i];
    && (r.pc.Sending? ==> r.pc.next <= |r.pc.records|)
    && Got(s, i) <= r.entered <= Got(s, i) + 1
    && (r.entered == Got(s, i) ==> Ups(s, i) == [])
    && (r.entered == Got(s, i) + 1 ==> PublishesThenBarrier(Ups(s, i)))
    && |s.ranks[0].kvs| == |s.ranks|
    && Fold(s.ranks[0].kvs[i], Ups(s, i)) == Commit(s.commits, i, r.entered)
  }

  /** The response and the whole snapshot of barrier e are on their way. */
  ghost predicate AnswerOk(ms: seq<Msg>, n: nat, target: Table) {
    ms != [] && ms[0] == OkMsg(|ms| - 1) && AllValues(ms[1..], n) && Load(NoEntries(n), ms[1..]) == target
  }

  ghost predicate DownOk(s: State, i: nat)
    requires Shaped(s) && 0 < i < |s.ranks|
  {
    var r := s.ranks[i];
    match r.pc
    case Out => r.entered == r.left == Told(s, i) && Downs(s, i) == []
    case Sending(_, _) => r.entered == r.left + 1 == Told(s, i) + 1 && Downs(s, i) == []
    case AwaitingOk =>
      && r.entered == r.left + 1
      && (if r.entered == Told(s, i) then AnswerOk(Downs(s, i), |s.ranks|, Global(s.commits, r.entered))
          else r.entered == Told(s, i) + 1 && Downs(s, i) == [])
    case Reading(count, snapshot) =>
      && r.entered == r.left + 1 == Told(s, i) && |Downs(s, i)| == count
      && AllValues(Downs(s, i), |s.ranks|) && Load(snapshot, Downs(s, i)) == Global(s.commits, r.entered)
    case _ => false
  }

  ghost predicate LocalOk(s: State, i: nat)
    requires Shaped(s) && i < |s.ranks|
  {
    var r := s.ranks[i];
    && |s.commits[i]| == r.entered
    && s.published[i] == Commit(s.commits, i, r.entered) + (if r.pc.Out? then r.pending else map[])
    && (r.pc.Out? || i > 0 ==> r.kvs == Global(s.commits, r.left))
  }

  ghost predicate ServerOk(s: State)
    requires Shaped(s)
  {
    var server := s.ranks[0];
    && |server.kvs| == |s.ranks|
    && server.kvs[0] == Commit(s.commits, 0, server.entered)
    && (!server.pc.Out? ==> server.pending == map[])
    && match server.pc
       case Out => server.left == server.entered
       case Collecting(arrived) => server.left + 1 == server.entered && 0 in arrived
       case Answering(told, c, records, next) =>
         && server.left + 1 == server.entered && c < |s.ranks| && c in told && 0 in told && next <= |records|
         && server.kvs == Global(s.commits, server.entered)
         && AllValues(Values(records), |s.ranks|)
       case _ => false
  }

  ghost predicate Inv(s: State) {
    && Shaped(s) && !s.failed && ServerOk(s)
    && (forall i :: 0 <= i < |s.ranks| ==> LocalOk(s, i))
    && (forall i :: 0 < i < |s.ranks| ==> UpOk(s, i))
    && (forall i :: 0 < i < |s.ranks| ==> DownOk(s, i))
  }

  // ------------------------------------------------------- sequences and maps

  lemma FoldCons(m: Kvs, e: Entry, rest: seq<Entry>)
    ensures Publishes([e] + rest) + [BarrierMsg] == [Publish(e.key, e.value)] + (Publishes(rest) + [BarrierMsg])
    ensures Fold(m, Publishes([e] + rest) + [BarrierMsg]) == Fold(m[e.key := e.value], Publishes(rest) + [BarrierMsg])
  {
    var tail := Publishes(rest) + [BarrierMsg];
    assert ([Publish(e.key, e.value)] + tail)[1..] == tail;
  }

  lemma {:induction false} FoldPublishes(m: Kvs, records: seq<Entry>)
    ensures Fold(m, Publishes(records) + [BarrierMsg]) == m + MapOf(records)
    decreases |records|
  {
    if records == [] {
      assert (Publishes([]) + [BarrierMsg])[1..] == [];
    } else {
      var e, rest := records[0], records[1..];
      assert records == [e] + rest;
      FoldCons(m, e, rest);
      FoldPublishes(m[e.key := e.value], rest);
      assert m[e.key := e.value] + MapOf(rest) == m + (map[e.key := e.value] + MapOf(rest));
    }
  }

  lemma GlobalStable(commits: seq<seq<Kvs>>, i: nat, x: Kvs, e: nat)
    requires i < |commits| && e <= |commits[i]|
    ensures Global(commits[i := commits[i] + [x]], e) == Global(commits, e)
  {
  }

  /** Moving the first unsent message to the socket changes nothing of what is to come. */
  lemma SendPublish(up: seq<Msg>, records: seq<Entry>, next: nat)
    requires next < |records|
    ensures (up + [Publish(records[next].key, records[next].value)]) + Unsent(Sending(records, next + 1))
            == up + Unsent(Sending(records, next))
  {
    assert Publishes(records[next..])
        == [Publish(records[next].key, records[next].value)] + Publishes(records[next + 1..]);
  }

  lemma SendValue(down: seq<Msg>, told: set<nat>, c: nat, records: seq<Entry>, next: nat)
    requires next < |records|
    ensures (down + [ValueMsg(records[next])]) + Unanswered(Answering(told, c, records, next + 1), c)
         == down + Unanswered(Answering(told, c, records, next), c)
  {
    assert Values(records[next..]) == [ValueMsg(records[next])] + Values(records[next + 1..]);
  }

  // ------------------------------------------------------- each step keeps the invariant

  /** A client keeps its place when nothing it depends on changes. */
  lemma Frame(s: State, s': State, j: nat)
    requires Shaped(s) && Shaped(s') && |s'.ranks| == |s.ranks| && 0 < j < |s.ranks| && UpOk(s, j) && DownOk(s, j)
    requires s'.ranks[j] == s.ranks[j] && Ups(s', j) == Ups(s, j) && Downs(s', j) == Downs(s, j)
    requires Told(s', j) == Told(s, j) && Got(s', j) == Got(s, j)
    requires |s'.ranks[0].kvs| == |s.ranks| && s'.ranks[0].kvs[j] == s.ranks[0].kvs[j]
    requires Commit(s'.commits, j, s.ranks[j].entered) == Commit(s.commits, j, s.ranks[j].entered)
    requires s.ranks[j].entered == Told(s, j) ==>
             Global(s'.commits, s.ranks[j].entered) == Global(s.commits, s.ranks[j].entered)
    ensures UpOk(s', j) && DownOk(s', j)
  {
  }

  lemma PutKeeps(s: State, i: nat, key: Key, value: Value)
    requires Inv(s) && i < |s.ranks| && s.ranks[i].pc.Out?
    ensures Inv(DoPut(s, i, key, value))
  {
    var s' := DoPut(s, i, key, value);
    forall j | 0 < j < |s.ranks| ensures UpOk(s', j) && DownOk(s', j) {
      assert UpOk(s, j) && DownOk(s, j);
      if j != i {
        Frame(s, s', j);
      }
    }
    forall j | 0 <= j < |s.ranks| ensures LocalOk(s', j) {
      assert LocalOk(s, j);
    }
  }

  /** Every client has entered at least as many barriers as rank 0 has begun to answer. */
  lemma ToldBelowEntered(s: State, i: nat, j: nat)
    requires Inv(s) && 0 < i < |s.ranks| && j < |s.ranks|
    ensures Told(s, i) <= s.ranks[j].entered && s.ranks[i].left <= Told(s, i)
  {
    assert DownOk(s, i);
    if j > 0 {
      assert UpOk(s, j);
    }
  }

  lemma EnterLocal(s: State, s': State, i: nat, j: nat)
    requires Inv(s) && i < |s.ranks| && s.ranks[i].pc.Out? && j < |s.ranks|
    requires Shaped(s') && |s'.ranks| == |s.ranks| && s'.published == s.published
    requires s'.commits == s.commits[i := s.commits[i] + [s.published[i]]]
    requires j != i ==> s'.ranks[j] == s.ranks[j]
    requires s'.ranks[i].entered == s.ranks[i].entered + 1 && s'.ranks[i].left == s.ranks[i].left
    requires !s'.ranks[i].pc.Out?
    requires i > 0 ==> s'.ranks[i].kvs == s.ranks[i].kvs
    ensures LocalOk(s', j)
  {
    assert LocalOk(s, j) && LocalOk(s, i);
    if j > 0 {
      ToldBelowEntered(s, j, i);
    } else if i > 0 && s.ranks[0].pc.Out? {
      assert UpOk(s, i);
    }
    if s.ranks[j].left <= s.ranks[i].entered {
      GlobalStable(s.commits, i, s.published[i], s.ranks[j].left);
    }
  }

  lemma EnterOther(s: State, s': State, i: nat, j: nat)
    requires Inv(s) && i < |s.ranks| && s.ranks[i].pc.Out? && 0 < j < |s.ranks| && j != i
    requires Shaped(s') && |s'.ranks| == |s.ranks| && s'.up == s.up && s'.down == s.down
    requires s'.commits == s.commits[i := s.commits[i] + [s.published[i]]]
    requires s'.ranks[j] == s.ranks[j] && Told(s', j) == Told(s, j) && Got(s', j) == Got(s, j)
    requires Unanswered(s'.ranks[0].pc, j) == Unanswered(s.ranks[0].pc, j)
    requires |s'.ranks[0].kvs| == |s.ranks| && s'.ranks[0].kvs[j] == s.ranks[0].kvs[j]
    ensures UpOk(s', j) && DownOk(s', j)
  {
    assert UpOk(s, j) && DownOk(s, j) && LocalOk(s, j) && LocalOk(s, i);
    ToldBelowEntered(s, j, i);
    if s.ranks[j].entered == Told(s, j) {
      GlobalStable(s.commits, i, s.published[i], s.ranks[j].entered);
    }
    Frame(s, s', j);
  }

  lemma EnterOwn(s: State, i: nat, records: seq<Entry>)
    requires Shaped(s) && 0 < i < |s.ranks| && s.ranks[i].pc.Out? && MapOf(records) == s.ranks[i].pending
    requires UpOk(s, i) && DownOk(s, i) && LocalOk(s, i)
    ensures UpOk(DoEnter(s, i, records), i) && DownOk(DoEnter(s, i, records), i)
  {
    FoldPublishes(s.ranks[0].kvs[i], records);
    EnterUps(s, i, records);
  }

  lemma EnterUps(s: State, i: nat, records: seq<Entry>)
    requires Shaped(s) && 0 < i < |s.ranks| && s.up[i] == []
    ensures Ups(DoEnter(s, i, records), i) == Publishes(records) + [BarrierMsg]
  {
    assert records[0..] == records;
  }

  lemma EnterServer(s: State, i: nat, records: seq<Entry>)
    requires Inv(s) && 0 < i < |s.ranks| && s.ranks[i].pc.Out?
    ensures ServerOk(DoEnter(s, i, records))
  {
    assert LocalOk(s, i) && UpOk(s, i) && DownOk(s, i);
    if s.ranks[0].pc.Answering? {
      GlobalStable(s.commits, i, s.published[i], s.ranks[0].entered);
    }
  }

  lemma ClientEnterKeeps(s: State, i: nat, records: seq<Entry>)
    requires Inv(s) && 0 < i < |s.ranks| && s.ranks[i].pc.Out? && MapOf(records) == s.ranks[i].pending
    ensures Inv(DoEnter(s, i, records))
  {
    var s' := DoEnter(s, i, records);
    assert UpOk(s, i) && DownOk(s, i) && LocalOk(s, i);
    EnterOwn(s, i, records);
    EnterServer(s, i, records);
    forall j | 0 <= j < |s.ranks| ensures LocalOk(s', j) {
      EnterLocal(s, s', i, j);
    }
    forall j | 0 < j < |s.ranks| && j != i ensures UpOk(s', j) && DownOk(s', j) {
      EnterOther(s, s', i, j);
    }
  }

  lemma ServerEnterKeeps(s: State, records: seq<Entry>)
    requires Inv(s) && s.ranks[0].pc.Out?
    ensures Inv(DoEnter(s, 0, records))
  {
    var s' := DoEnter(s, 0, records);
    assert LocalOk(s, 0);
    forall j | 0 <= j < |s.ranks| ensures LocalOk(s', j) {
      EnterLocal(s, s', 0, j);
    }
    forall j | 0 < j < |s.ranks| ensures UpOk(s', j) && DownOk(s', j) {
      EnterOther(s, s', 0, j);
    }
  }

  lemma LocalSame(s: State, s': State, i: nat)
    requires Inv(s) && Shaped(s') && |s'.ranks| == |s.ranks| && i < |s.ranks|
    requires s'.commits == s.commits && s'.published == s.published
    requires s'.ranks[i].entered == s.ranks[i].entered && s'.ranks[i].left == s.ranks[i].left
    requires s'.ranks[i].pending == s.ranks[i].pending && (i > 0 ==> s'.ranks[i].kvs == s.ranks[i].kvs)
    requires s'.ranks[i].pc.Out? <==> s.ranks[i].pc.Out?
    requires i == 0 && s.ranks[0].pc.Out? ==> s'.ranks[0].kvs == s.ranks[0].kvs
    ensures LocalOk(s', i)
  {
    assert LocalOk(s, i);
  }

  /** A client's step with its own sockets leaves rank 0 and the other clients where they are. */
  ghost predicate OnlyClient(s: State, s': State, i: nat)
    requires Shaped(s)
  {
    && Shaped(s') && |s'.ranks| == |s.ranks| && 0 < i < |s.ranks| && s'.failed == s.failed
    && s'.commits == s.commits && s'.published == s.published
    && s'.ranks == s.ranks[i := s'.ranks[i]] && s'.up == s.up[i := s'.up[i]] && s'.down == s.down[i := s'.down[i]]
  }

  lemma OthersKeep(s: State, s': State, i: nat)
    requires Inv(s) && OnlyClient(s, s', i) && UpOk(s', i) && DownOk(s', i) && LocalOk(s', i)
    ensures Inv(s')
  {
    assert ServerOk(s');
    forall j | 0 <= j < |s.ranks| && j != i ensures LocalOk(s', j) {
      LocalSame(s, s', j);
    }
    forall j | 0 < j < |s.ranks| && j != i ensures UpOk(s', j) && DownOk(s', j) {
      assert UpOk(s, j) && DownOk(s, j);
      Frame(s, s', j);
    }
  }

  lemma SendOwn(s: State, i: nat)
    requires Shaped(s) && 0 < i < |s.ranks| && s.ranks[i].pc.Sending? && UpOk(s, i) && DownOk(s, i)
    ensures var s' := DoSend(s, i); OnlyClient(s, s', i) && UpOk(s', i) && DownOk(s', i)
  {
    var s' := DoSend(s, i);
    var records, next := s.ranks[i].pc.records, s.ranks[i].pc.next;
    if next < |records| {
      SendPublish(s.up[i], records, next);
    } else {
      assert Publishes(records[next..]) == [];
    }
    assert Ups(s', i) == Ups(s, i);
  }

  lemma ClientSendKeeps(s: State, i: nat)
    requires Inv(s) && 0 < i < |s.ranks| && s.ranks[i].pc.Sending?
    ensures Inv(DoSend(s, i))
  {
    assert UpOk(s, i) && DownOk(s, i);
    SendOwn(s, i);
    LocalSame(s, DoSend(s, i), i);
    OthersKeep(s, DoSend(s, i), i);
  }

  lemma ServerSendKeeps(s: State)
    requires Inv(s) && s.ranks[0].pc.Answering?
    ensures Inv(DoSend(s, 0))
  {
    var s' := DoSend(s, 0);
    var c, records, next := s.ranks[0].pc.client, s.ranks[0].pc.records, s.ranks[0].pc.next;
    if next < |records| {
      SendValue(s.down[c], s.ranks[0].pc.told, c, records, next);
    }
    forall j | 0 <= j < |s.ranks| ensures LocalOk(s', j) {
      LocalSame(s, s', j);
    }
    forall j | 0 < j < |s.ranks| ensures UpOk(s', j) && DownOk(s', j) {
      assert UpOk(s, j) && DownOk(s, j);
      Frame(s, s', j);
    }
  }

  lemma RecvOwn(s: State, i: nat)
    requires Shaped(s) && 0 < i < |s.ranks| && UpOk(s, i) && DownOk(s, i) && s.down[i] != [] && !s.failed
    ensures var s' := DoRecv(s, i); OnlyClient(s, s', i) && UpOk(s', i) && DownOk(s', i)
  {
    assert Downs(s, i)[0] == s.down[i][0];
    assert Downs(s, i)[1..] == s.down[i][1..] + Unanswered(s.ranks[0].pc, i);
  }

  lemma RecvLocal(s: State, i: nat)
    requires Shaped(s) && 0 < i < |s.ranks|
    ensures var s' := DoRecv(s, i);
            && s'.ranks[i].entered == s.ranks[i].entered && s'.ranks[i].left == s.ranks[i].left
            && s'.ranks[i].pending == s.ranks[i].pending && s'.ranks[i].kvs == s.ranks[i].kvs
            && (s'.ranks[i].pc.Out? <==> s.ranks[i].pc.Out?)
  {
  }

  lemma RecvKeeps(s: State, i: nat)
    requires Inv(s) && 0 < i < |s.ranks|
    ensures Inv(DoRecv(s, i))
  {
    if s.down[i] != [] {
      assert UpOk(s, i) && DownOk(s, i);
      RecvOwn(s, i);
      RecvLocal(s, i);
      LocalSame(s, DoRecv(s, i), i);
      OthersKeep(s, DoRecv(s, i), i);
    }
  }

  lemma LeaveOwn(s: State, i: nat)
    requires Shaped(s) && 0 < i < |s.ranks| && UpOk(s, i) && DownOk(s, i) && LocalOk(s, i)
    ensures var s' := DoLeave(s, i); OnlyClient(s, s', i) && UpOk(s', i) && DownOk(s', i) && LocalOk(s', i)
  {
  }

  lemma ClientLeaveKeeps(s: State, i: nat)
    requires Inv(s) && 0 < i < |s.ranks|
    ensures Inv(DoLeave(s, i))
  {
    assert UpOk(s, i) && DownOk(s, i) && LocalOk(s, i);
    LeaveOwn(s, i);
    OthersKeep(s, DoLeave(s, i), i);
  }

  lemma ServerLeaveKeeps(s: State)
    requires Inv(s)
    ensures Inv(DoLeave(s, 0))
  {
    var s' := DoLeave(s, 0);
    assert LocalOk(s, 0);
    forall j | 0 < j < |s.ranks| ensures LocalOk(s', j) && UpOk(s', j) && DownOk(s', j) {
      assert UpOk(s, j) && DownOk(s, j);
      LocalSame(s, s', j);
      Frame(s, s', j);
    }
  }

  lemma ReceiveOwn(s: State, c: nat)
    requires Shaped(s) && 0 < c < |s.ranks| && UpOk(s, c) && DownOk(s, c) && !s.failed
    requires s.ranks[0].pc.Collecting? && c !in s.ranks[0].pc.arrived && s.up[c] != []
    ensures var s' := DoReceive(s, c); UpOk(s', c) && DownOk(s', c) && !s'.failed
  {
    var ups := Ups(s, c);
    assert ups[0] == s.up[c][0];
    assert ups[1..] == s.up[c][1..] + Unsent(s.ranks[c].pc);
    if |ups| == 1 {
      assert ups[1..] == [];
    }
  }

  ghost predicate CanReceive(s: State, c: nat)
    requires Shaped(s)
  {
    s.ranks[0].pc.Collecting? && 0 < c < |s.ranks| && c !in s.ranks[0].pc.arrived && s.up[c] != []
  }

  lemma ReceiveOther(s: State, c: nat, j: nat)
    requires Shaped(s) && CanReceive(s, c) && 0 < j < |s.ranks| && j != c && UpOk(s, j) && DownOk(s, j)
    ensures UpOk(DoReceive(s, c), j) && DownOk(DoReceive(s, c), j)
  {
    Frame(s, DoReceive(s, c), j);
  }

  lemma ReceiveServer(s: State, c: nat)
    requires Shaped(s) && CanReceive(s, c) && ServerOk(s)
    ensures ServerOk(DoReceive(s, c))
  {
  }

  lemma ReceiveLocal(s: State, c: nat, j: nat)
    requires Inv(s) && CanReceive(s, c) && j < |s.ranks|
    ensures LocalOk(DoReceive(s, c), j)
  {
    LocalSame(s, DoReceive(s, c), j);
  }

  lemma ReceiveKeeps(s: State, c: nat)
    requires Inv(s)
    ensures Inv(DoReceive(s, c))
  {
    if s.ranks[0].pc.Collecting? && c < |s.ranks| && c !in s.ranks[0].pc.arrived && s.up[c] != [] {
      var s' := DoReceive(s, c);
      assert UpOk(s, c) && DownOk(s, c);
      ReceiveOwn(s, c);
      ReceiveServer(s, c);
      forall j | 0 <= j < |s.ranks| ensures LocalOk(s', j) {
        ReceiveLocal(s, c, j);
      }
      forall j | 0 < j < |s.ranks| && j != c ensures UpOk(s', j) && DownOk(s', j) {
        assert UpOk(s, j) && DownOk(s, j);
        ReceiveOther(s, c, j);
      }
    }
  }

  lemma AllArrivedKeeps(s: State)
    requires Inv(s) && s.ranks[0].pc.Collecting? && EveryoneIn(s, s.ranks[0].pc.arrived)
    ensures Inv(SetRank(s, 0, s.ranks[0].(pc := Answering({0}, 0, [], 0))))
  {
    var s' := SetRank(s, 0, s.ranks[0].(pc := Answering({0}, 0, [], 0)));
    var k := s.ranks[0].entered;
    forall j | 0 <= j < |s.ranks| ensures LocalOk(s', j) {
      LocalSame(s, s', j);
    }
    forall j | 0 < j < |s.ranks| ensures UpOk(s', j) && DownOk(s', j) {
      assert UpOk(s, j) && DownOk(s, j);
      assert Values([][0..]) == [];
      Frame(s, s', j);
    }
    forall j | 0 <= j < |s.ranks| ensures s.ranks[0].kvs[j] == Commit(s.commits, j, k) {
      if j > 0 {
        assert UpOk(s, j) && DownOk(s, j);
      }
    }
    assert s.ranks[0].kvs == Global(s.commits, k);
  }

  ghost predicate CanAnswer(s: State, d: nat, records: seq<Entry>)
    requires Shaped(s)
  {
    && s.ranks[0].pc.Answering? && d < |s.ranks| && d !in s.ranks[0].pc.told
    && s.ranks[0].pc.next == |s.ranks[0].pc.records| && Lists(records, s.ranks[0].kvs)
  }

  lemma BeginAnswerDowns(s: State, d: nat, records: seq<Entry>)
    requires Shaped(s) && CanAnswer(s, d, records) && s.down[d] == []
    ensures Downs(DoBeginAnswer(s, d, records), d) == [OkMsg(|records|)] + Values(records)
    ensures Downs(DoBeginAnswer(s, d, records), d)[1..] == Values(records)
  {
    assert records[0..] == records;
  }

  /** A client that has not been told waits for the response. */
  lemma UntoldWaits(s: State, d: nat)
    requires Shaped(s) && s.ranks[0].pc.Answering? && 0 < d < |s.ranks| && d !in s.ranks[0].pc.told
    requires s.ranks[0].pc.client in s.ranks[0].pc.told && UpOk(s, d) && DownOk(s, d)
    ensures s.ranks[d].pc.AwaitingOk? && s.down[d] == []
            && s.ranks[d].entered == s.ranks[0].entered == s.ranks[d].left + 1
  {
  }

  lemma BeginAnswerUp(s: State, d: nat, records: seq<Entry>)
    requires Shaped(s) && CanAnswer(s, d, records) && 0 < d && UpOk(s, d)
    ensures UpOk(DoBeginAnswer(s, d, records), d)
  {
  }

  lemma AnswerOfRecords(records: seq<Entry>, t: Table)
    requires Lists(records, t)
    ensures AnswerOk([OkMsg(|records|)] + Values(records), |t|, t)
  {
    assert ([OkMsg(|records|)] + Values(records))[1..] == Values(records);
  }

  lemma BeginAnswerDown(s: State, d: nat, records: seq<Entry>)
    requires Shaped(s) && CanAnswer(s, d, records) && 0 < d && s.ranks[d].pc.AwaitingOk? && s.down[d] == []
    requires s.ranks[d].entered == s.ranks[0].entered == s.ranks[d].left + 1
    requires |s.ranks[0].kvs| == |s.ranks| && s.ranks[0].kvs == Global(s.commits, s.ranks[0].entered)
    ensures DownOk(DoBeginAnswer(s, d, records), d)
  {
    AnswerOfRecords(records, s.ranks[0].kvs);
    BeginAnswerDowns(s, d, records);
  }

  lemma BeginAnswerOwn(s: State, d: nat, records: seq<Entry>)
    requires Inv(s) && CanAnswer(s, d, records)
    ensures d > 0 && UpOk(DoBeginAnswer(s, d, records), d) && DownOk(DoBeginAnswer(s, d, records), d)
  {
    assert UpOk(s, d) && DownOk(s, d);
    UntoldWaits(s, d);
    BeginAnswerUp(s, d, records);
    BeginAnswerDown(s, d, records);
  }

  lemma BeginAnswerOther(s: State, d: nat, records: seq<Entry>, j: nat)
    requires Shaped(s) && CanAnswer(s, d, records) && 0 < j < |s.ranks| && j != d && UpOk(s, j) && DownOk(s, j)
    ensures UpOk(DoBeginAnswer(s, d, records), j) && DownOk(DoBeginAnswer(s, d, records), j)
  {
    assert Values(s.ranks[0].pc.records[s.ranks[0].pc.next..]) == [];
    Frame(s, DoBeginAnswer(s, d, records), j);
  }

  lemma BeginAnswerLocal(s: State, d: nat, records: seq<Entry>, j: nat)
    requires Inv(s) && CanAnswer(s, d, records) && j < |s.ranks|
    ensures LocalOk(DoBeginAnswer(s, d, records), j) && ServerOk(DoBeginAnswer(s, d, records))
  {
    LocalSame(s, DoBeginAnswer(s, d, records), j);
  }

  lemma BeginAnswerKeeps(s: State, d: nat, records: seq<Entry>)
    requires Inv(s)
    ensures Inv(DoBeginAnswer(s, d, records))
  {
    if CanAnswer(s, d, records) {
      var s' := DoBeginAnswer(s, d, records);
      BeginAnswerOwn(s, d, records);
      forall j | 0 <= j < |s.ranks| ensures LocalOk(s', j) && ServerOk(s') {
        BeginAnswerLocal(s, d, records, j);
      }
      forall j | 0 < j < |s.ranks| && j != d ensures UpOk(s', j) && DownOk(s', j) {
        assert UpOk(s, j) && DownOk(s, j);
        BeginAnswerOther(s, d, records, j);
      }
    }
  }

  lemma StepKeeps(s: State, i: nat, c: Choice)
    requires Inv(s)
    ensures Inv(Step(s, i, c))
  {
    if i < |s.ranks| {
      assert i > 0 ==> DownOk(s, i);
      match c
      case Put(key, value) => if s.ranks[i].pc.Out? { PutKeeps(s, i, key, value); }
      case Enter(records) =>
        if s.ranks[i].pc.Out? && MapOf(records) == s.ranks[i].pending && |records| == |s.ranks[i].pending| {
          if i == 0 { ServerEnterKeeps(s, records); } else { ClientEnterKeeps(s, i, records); }
        }
      case Send =>
        if i > 0 && s.ranks[i].pc.Sending? {
          ClientSendKeeps(s, i);
        } else if i == 0 && s.ranks[0].pc.Answering? {
          ServerSendKeeps(s);
        }
      case Recv => if i > 0 { RecvKeeps(s, i); }
      case Leave => if i == 0 { ServerLeaveKeeps(s); } else { ClientLeaveKeeps(s, i); }
      case Receive(client) => ReceiveKeeps(s, client);
      case AllArrived =>
        if s.ranks[0].pc.Collecting? && EveryoneIn(s, s.ranks[0].pc.arrived) { AllArrivedKeeps(s); }
      case BeginAnswer(client, records) => BeginAnswerKeeps(s, client, records);
    }
  }

  lemma {:induction false} ExecInv(s0: State, trace: seq<(nat, Choice)>)
    requires Initial(s0)
    ensures Inv(Exec(s0, trace))
  {
    if trace != [] {
      var before, e := trace[..|trace| - 1], trace[|trace| - 1];
      ExecInv(s0, before);
      StepKeeps(Exec(s0, before), e.0, e.1);
    }
  }

  // ------------------------------------------------------- main results

  /** In every run no rank has left more barriers than any other has entered, and no rank ever
      receives a message it does not expect. */
  lemma NoEarlyLeave(s0: State, trace: seq<(nat, Choice)>, i: nat, j: nat)
    requires Initial(s0) && i < |s0.ranks| && j < |s0.ranks|
    ensures var s := Exec(s0, trace); s.ranks[i].left <= s.ranks[j].entered && !s.failed
  {
    ExecInv(s0, trace);
    var s := Exec(s0, trace);
    if i > 0 {
      ToldBelowEntered(s, i, j);
    } else if j > 0 {
      assert UpOk(s, j);
    }
  }

  /** What rank i put while it was outside, up to its e-th barrier: the last value of each key. */
  ghost function PutBefore(s0: State, trace: seq<(nat, Choice)>, i: nat, e: nat): Kvs
    requires Initial(s0) && i < |s0.ranks|
    decreases |trace|
  {
    if trace == [] then map[] else
      var before, r, c := trace[..|trace| - 1], trace[|trace| - 1].0, trace[|trace| - 1].1;
      var puts, rank := PutBefore(s0, before, i, e), Exec(s0, before).ranks[i];
      if r == i && c.Put? && rank.pc.Out? && rank.entered < e then puts[c.key := c.value] else puts
  }

  lemma PutStep(s: State, r: nat, c: Choice, i: nat)
    requires Shaped(s) && !s.failed && i < |s.ranks|
    ensures var s' := Step(s, r, c);
            var puts := r == i && c.Put? && s.ranks[i].pc.Out?;
            var enters := s'.ranks[i].entered == s.ranks[i].entered + 1;
            && s'.published[i] == (if puts then s.published[i][c.key := c.value] else s.published[i])
            && (enters || s'.ranks[i].entered == s.ranks[i].entered) && !(puts && enters)
            && s'.commits[i] == (if enters then s.commits[i] + [s.published[i]] else s.commits[i])
  {
  }

  /** What is committed at each barrier, and what will be at the next, are the puts of the run. */
  lemma {:induction false} CommitsArePuts(s0: State, trace: seq<(nat, Choice)>, i: nat, e: nat)
    requires Initial(s0) && i < |s0.ranks|
    ensures var s := Exec(s0, trace);
            && |s.commits[i]| == s.ranks[i].entered
            && (e > s.ranks[i].entered ==> PutBefore(s0, trace, i, e) == s.published[i])
            && (0 < e <= s.ranks[i].entered ==> PutBefore(s0, trace, i, e) == s.commits[i][e - 1])
    decreases |trace|
  {
    if trace != [] {
      var before, last := trace[..|trace| - 1], trace[|trace| - 1];
      CommitsArePuts(s0, before, i, e);
      NoEarlyLeave(s0, before, i, i);
      PutStep(Exec(s0, before), last.0, last.1, i);
    }
  }

  lemma HoldsCommits(s0: State, trace: seq<(nat, Choice)>, i: nat, j: nat)
    requires Initial(s0) && i < |s0.ranks| && j < |s0.ranks| && Exec(s0, trace).ranks[i].pc.Out?
    ensures var s := Exec(s0, trace);
            && |s.ranks[i].kvs| == |s.ranks| && s.ranks[i].left <= s.ranks[j].entered
            && s.ranks[i].kvs[j] == Commit(s.commits, j, s.ranks[i].left)
            && (s.ranks[j].pc.Out? && s.ranks[j].left == s.ranks[i].left ==> s.ranks[j].kvs == s.ranks[i].kvs)
  {
    ExecInv(s0, trace);
    NoEarlyLeave(s0, trace, i, j);
    OutsideHolds(Exec(s0, trace), i, j);
  }

  lemma CommitIsPuts(s0: State, trace: seq<(nat, Choice)>, j: nat, e: nat)
    requires Initial(s0) && j < |s0.ranks| && e <= Exec(s0, trace).ranks[j].entered
    ensures Commit(Exec(s0, trace).commits, j, e) == PutBefore(s0, trace, j, e)
  {
    CommitsArePuts(s0, trace, j, e);
    NothingBefore(s0, trace, j);
  }

  /** In every run a rank outside a barrier holds, for every rank, exactly what that rank had put before
      the barrier that was left last, later values replacing earlier ones. Two ranks that left the same
      barrier hold the same map. */
  lemma FenceDelivers(s0: State, trace: seq<(nat, Choice)>, i: nat, j: nat)
    requires Initial(s0) && i < |s0.ranks| && j < |s0.ranks| && Exec(s0, trace).ranks[i].pc.Out?
    ensures var s := Exec(s0, trace);
            && |s.ranks[i].kvs| == |s.ranks| && s.ranks[i].left <= s.ranks[j].entered
            && s.ranks[i].kvs[j] == PutBefore(s0, trace, j, s.ranks[i].left)
            && (s.ranks[j].pc.Out? && s.ranks[j].left == s.ranks[i].left ==> s.ranks[j].kvs == s.ranks[i].kvs)
  {
    HoldsCommits(s0, trace, i, j);
    CommitIsPuts(s0, trace, j, Exec(s0, trace).ranks[i].left);
  }

  lemma {:induction false} NothingBefore(s0: State, trace: seq<(nat, Choice)>, i: nat)
    requires Initial(s0) && i < |s0.ranks|
    ensures PutBefore(s0, trace, i, 0) == map[]
    decreases |trace|
  {
    if trace != [] {
      NothingBefore(s0, trace[..|trace| - 1], i);
    }
  }

  lemma OutsideHolds(s: State, i: nat, j: nat)
    requires Shaped(s) && i < |s.ranks| && j < |s.ranks| && LocalOk(s, i) && LocalOk(s, j)
    requires s.ranks[i].pc.Out? && s.ranks[i].left <= s.ranks[j].entered
    ensures |s.ranks[i].kvs| == |s.ranks| && s.ranks[i].left <= |s.commits[j]|
    ensures s.ranks[i].kvs[j] == if s.ranks[i].left == 0 then map[] else s.commits[j][s.ranks[i].left - 1]
    ensures s.ranks[j].pc.Out? && s.ranks[j].left == s.ranks[i].left ==> s.ranks[j].kvs == s.ranks[i].kvs
  {
  }
}
