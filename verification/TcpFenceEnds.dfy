/** A fence that all ranks enter ends: until then some rank can make a step, and the number of steps is
    bounded, also when some ranks are already in the next barrier. */
module TcpFenceEnds {
  import opened Sums
  import opened TcpFence
  import opened TcpFenceProof

  // ------------------------------------------------------- a fence that has not ended can move

  lemma {:induction false} LoadAppend(t: Table, ms: seq<Msg>, m: Msg)
    ensures Load(t, ms + [m]) == if m.ValueMsg? then Store(Load(t, ms), m.entry) else Load(t, ms)
    decreases |ms|
  {
    if ms == [] {
      assert ([] + [m])[1..] == [];
    } else {
      assert (ms + [m])[1..] == ms[1..] + [m];
      LoadAppend(if ms[0].ValueMsg? then Store(t, ms[0].entry) else t, ms[1..], m);
    }
  }

  lemma StoreSize(t: Table, e: Entry)
    ensures |Store(t, e)| == |t|
    ensures Size(Store(t, e)) == Size(t) + if e.rank < |t| && e.key !in t[e.rank] then 1 else 0
  {
    if e.rank < |t| {
      var m := t[e.rank][e.key := e.value];
      SumUpdate(Sizes(t), e.rank, |m|);
      assert Sizes(Store(t, e)) == Sizes(t)[e.rank := |m|];
    }
  }

  lemma ListsOneMore(records: seq<Entry>, t: Table, e: Entry)
    requires Lists(records, t) && e.rank < |t| && e.key !in t[e.rank]
    ensures Lists(records + [e], Store(t, e))
  {
    StoreSize(t, e);
    LoadAppend(NoEntries(|t|), Values(records), ValueMsg(e));
    assert Values(records + [e]) == Values(records) + [ValueMsg(e)];
  }

  /** The entries of the first r ranks, and m for rank r. */
  function Part(t: Table, r: nat, m: Kvs): Table
    requires r < |t|
  {
    t[..r] + [m] + NoEntries(|t| - r - 1)
  }

  lemma PartEdges(t: Table, r: nat)
    requires r < |t|
    ensures Part(t, r, map[]) == if r == 0 then NoEntries(|t|) else Part(t, r - 1, t[r - 1])
    ensures Part(t, |t| - 1, t[|t| - 1]) == t
  {
  }

  lemma PartStore(t: Table, r: nat, m: Kvs, key: Key, value: Value)
    requires r < |t|
    ensures Store(Part(t, r, m), Entry(r, key, value)) == Part(t, r, m[key := value])
  {
  }

  lemma NothingListed(n: nat)
    ensures Lists([], NoEntries(n))
  {
    SumZero(Sizes(NoEntries(n)));
  }

  /** A list of these entries. */
  lemma {:induction false} ListPart(t: Table, r: nat, m: Kvs) returns (records: seq<Entry>)
    requires r < |t|
    ensures Lists(records, Part(t, r, m))
    decreases r, |m|
  {
    if m == map[] {
      PartEdges(t, r);
      if r == 0 {
        records := [];
        NothingListed(|t|);
      } else {
        records := ListPart(t, r - 1, t[r - 1]);
      }
    } else {
      var key :| key in m;
      var rest := m - {key};
      records := ListPart(t, r, rest);
      ListsOneMore(records, Part(t, r, rest), Entry(r, key, m[key]));
      PartStore(t, r, rest, key, m[key]);
      assert rest[key := m[key]] == m;
      records := records + [Entry(r, key, m[key])];
    }
  }

  /** Every table can be listed, so a snapshot can always be sent. */
  lemma ListTable(t: Table) returns (records: seq<Entry>)
    ensures Lists(records, t)
  {
    if t == [] {
      records := [];
      NothingListed(0);
    } else {
      PartEdges(t, |t| - 1);
      records := ListPart(t, |t| - 1, t[|t| - 1]);
    }
  }

  /** Every map can be listed, so a rank outside the barrier can enter it. */
  lemma {:induction false} ListMap(m: Kvs) returns (records: seq<Entry>)
    ensures MapOf(records) == m && |records| == |m|
    decreases |m|
  {
    if m == map[] {
      records := [];
    } else {
      var key :| key in m;
      var rest := ListMap(m - {key});
      records := [Entry(0, key, m[key])] + rest;
      assert records[1..] == rest;
      assert map[key := m[key]] + (m - {key}) == m;
    }
  }

  /** A client that has entered the barrier rank 0 has begun to answer to it can move. */
  lemma ToldClientMoves(s: State, i: nat) returns (c: Choice)
    requires Shaped(s) && !s.failed && 0 < i < |s.ranks| && DownOk(s, i) && !s.ranks[0].pc.Answering?
    requires !s.ranks[i].pc.Out? && s.ranks[i].entered == Told(s, i)
    ensures (c.Recv? || c.Leave?) && Step(s, i, c) != s
  {
    assert Downs(s, i) == s.down[i];
    if s.ranks[i].pc.Reading? && s.ranks[i].pc.count == 0 {
      c := Leave;
      assert Step(s, i, c).ranks[i].pc.Out?;
    } else {
      c := Recv;
      assert |Step(s, i, c).down[i]| < |s.down[i]|;
    }
  }

  /** A client whose barrier request rank 0 has not read can send, or rank 0 can read. */
  lemma MissingClientMoves(s: State, i: nat) returns (r: nat, c: Choice)
    requires Shaped(s) && !s.failed && 0 < i < |s.ranks| && UpOk(s, i)
    requires s.ranks[0].pc.Collecting? && i !in s.ranks[0].pc.arrived && s.ranks[i].entered == s.ranks[0].entered
    ensures r < |s.ranks| && !c.Put? && !c.Enter? && Step(s, r, c) != s
  {
    if s.up[i] != [] {
      r, c := 0, Receive(i);
      assert |Step(s, r, c).up[i]| < |s.up[i]|;
    } else {
      r, c := i, Send;
      assert s.ranks[i].pc.Sending?;
      assert |Step(s, r, c).up[i]| > |s.up[i]|;
    }
  }

  lemma AnswerMoves(s: State) returns (c: Choice)
    requires Shaped(s) && !s.failed && ServerOk(s) && s.ranks[0].pc.Answering?
    ensures !c.Put? && !c.Enter? && Step(s, 0, c) != s
  {
    var pc := s.ranks[0].pc;
    if pc.next < |pc.records| {
      c := Send;
      assert Step(s, 0, c).ranks[0].pc.next > pc.next;
    } else if EveryoneIn(s, pc.told) {
      c := Leave;
      assert Step(s, 0, c).ranks[0].pc.Out?;
    } else {
      var d :| 0 <= d < |s.ranks| && d !in pc.told;
      var records := ListTable(s.ranks[0].kvs);
      c := BeginAnswer(d, records);
      assert d in Step(s, 0, c).ranks[0].pc.told;
    }
  }

  /** No rank has entered fewer barriers than rank i. */
  ghost predicate Behind(s: State, i: nat) {
    i < |s.ranks| && forall j :: 0 <= j < |s.ranks| ==> s.ranks[i].entered <= s.ranks[j].entered
  }

  lemma InsideMoves(s: State, i: nat) returns (r: nat, c: Choice)
    requires Inv(s) && Behind(s, i) && !s.ranks[i].pc.Out?
    ensures r < |s.ranks| && !c.Put? && !c.Enter? && Step(s, r, c) != s
  {
    var pc := s.ranks[0].pc;
    assert i > 0 ==> DownOk(s, i);
    if pc.Answering? {
      c := AnswerMoves(s);
      r := 0;
    } else if pc.Out? || (i > 0 && s.ranks[i].entered == Told(s, i)) {
      c := ToldClientMoves(s, i);
      r := i;
    } else if EveryoneIn(s, pc.arrived) {
      r, c := 0, AllArrived;
      assert Step(s, r, c).ranks[0].pc.Answering?;
    } else {
      var j :| 0 <= j < |s.ranks| && j !in pc.arrived;
      assert UpOk(s, j);
      r, c := MissingClientMoves(s, j);
    }
  }

  /** In every run: a rank outside the barrier can enter it; and as long as a rank is inside a barrier
      that all have entered, some rank can make a step, also when others are in the next barrier. */
  lemma FenceMoves(s0: State, trace: seq<(nat, Choice)>, i: nat) returns (r: nat, c: Choice)
    requires Initial(s0) && i < |s0.ranks|
    ensures var s := Exec(s0, trace);
            && (s.ranks[i].pc.Out? ==> r == i && c.Enter? && Step(s, r, c) != s)
            && (!s.ranks[i].pc.Out? && Behind(s, i) ==>
                  r < |s.ranks| && !c.Put? && !c.Enter? && Step(s, r, c) != s)
  {
    ExecInv(s0, trace);
    var s := Exec(s0, trace);
    if s.ranks[i].pc.Out? {
      var records := ListMap(s.ranks[i].pending);
      r, c := i, Enter(records);
      assert Step(s, r, c).ranks[i].entered > s.ranks[i].entered;
    } else if Behind(s, i) {
      r, c := InsideMoves(s, i);
    } else {
      r, c := i, Leave;
    }
  }

  // ------------------------------------------------------- and ends

  /** Messages to send count twice, to be received once; and there is the leaving. */
  function ClientWork(s: State, i: nat): nat
    requires Shaped(s) && i < |s.ranks|
  {
    if i == 0 then 0
    else 2 * |Unsent(s.ranks[i].pc)| + |s.up[i]| + |s.down[i]| + if s.ranks[i].pc.Out? then 0 else 1
  }

  function ClientWorks(s: State): seq<nat>
    requires Shaped(s)
  {
    seq(|s.ranks|, i requires 0 <= i < |s.ranks| => ClientWork(s, i))
  }

  function ServerWork(pc: Pc): nat {
    match pc
    case Collecting(_) => 2
    case Answering(_, _, records, next) => if next <= |records| then 1 + 2 * (|records| - next) else 1
    case _ => 0
  }

  /** Rank 0 has still to begin its answer to client i. */
  function Untold(pc: Pc, i: nat): nat {
    if i > 0 && (pc.Collecting? || (pc.Answering? && i !in pc.told)) then 1 else 0
  }

  function Untolds(pc: Pc, n: nat): seq<nat> {
    seq(n, i requires 0 <= i < n => Untold(pc, i))
  }

  function Messages(s: State): seq<nat>
    requires Shaped(s)
  {
    seq(|s.ranks|, i requires 0 <= i < |s.ranks| => |Ups(s, i)|)
  }

  /** The largest snapshot there can be. */
  function Entries(s: State): nat
    requires Shaped(s)
  {
    Size(s.ranks[0].kvs) + Sum(Messages(s))
  }

  /** Work of the clients and of rank 0, and u answers to begin, each of at most e records. */
  function Total(clients: nat, server: nat, u: nat, e: nat): nat
    decreases u
  {
    if u == 0 then clients + server else Total(clients, server, u - 1, e) + 2 * e + 3
  }

  function Work(s: State): nat
    requires Shaped(s)
  {
    Total(Sum(ClientWorks(s)), ServerWork(s.ranks[0].pc), Sum(Untolds(s.ranks[0].pc, |s.ranks|)), Entries(s))
  }

  lemma {:induction false} TotalShrinks(c: nat, v: nat, u: nat, e: nat, c': nat, v': nat, u': nat, e': nat)
    requires c' + v' < c + v && u' <= u && e' <= e
    ensures Total(c', v', u', e') < Total(c, v, u, e)
    decreases u
  {
    if u > 0 {
      TotalShrinks(c, v, u - 1, e, c', v', if u' > 0 then u' - 1 else 0, e');
    }
  }

  lemma {:induction false} TotalAnswers(c: nat, v: nat, u: nat, e: nat, c': nat, v': nat)
    requires u > 0 && c' + v' < c + v + 2 * e + 3
    ensures Total(c', v', u - 1, e) < Total(c, v, u, e)
    decreases u
  {
    if u > 1 {
      TotalAnswers(c, v, u - 1, e, c', v');
    }
  }

  lemma ClientWorksAt(s: State, s': State, i: nat)
    requires Shaped(s) && Shaped(s') && |s'.ranks| == |s.ranks| && i < |s.ranks|
    requires forall j :: 0 <= j < |s.ranks| && j != i ==> ClientWork(s', j) == ClientWork(s, j)
    ensures Sum(ClientWorks(s')) == Sum(ClientWorks(s)) - ClientWork(s, i) + ClientWork(s', i)
  {
    SumUpdate(ClientWorks(s), i, ClientWork(s', i));
    assert ClientWorks(s') == ClientWorks(s)[i := ClientWork(s', i)];
  }

  lemma MessagesAt(s: State, s': State, i: nat)
    requires Shaped(s) && Shaped(s') && |s'.ranks| == |s.ranks| && i < |s.ranks|
    requires forall j :: 0 <= j < |s.ranks| && j != i ==> |Ups(s', j)| == |Ups(s, j)|
    ensures Sum(Messages(s')) == Sum(Messages(s)) - |Ups(s, i)| + |Ups(s', i)|
  {
    SumUpdate(Messages(s), i, |Ups(s', i)|);
    assert Messages(s') == Messages(s)[i := |Ups(s', i)|];
  }

  /** A step of a client: the messages to come from it stay the same in number. */
  lemma ClientShrinks(s: State, s': State, i: nat)
    requires Shaped(s) && Shaped(s') && |s'.ranks| == |s.ranks| && 0 < i < |s.ranks|
    requires s'.ranks == s.ranks[i := s'.ranks[i]] && s'.up == s.up[i := s'.up[i]] && s'.down == s.down[i := s'.down[i]]
    requires |Ups(s', i)| == |Ups(s, i)| && ClientWork(s', i) < ClientWork(s, i)
    ensures Work(s') < Work(s)
  {
    ClientWorksAt(s, s', i);
    MessagesAt(s, s', i);
    var pc, u := s.ranks[0].pc, Sum(Untolds(s.ranks[0].pc, |s.ranks|));
    TotalShrinks(Sum(ClientWorks(s)), ServerWork(pc), u, Entries(s),
                 Sum(ClientWorks(s')), ServerWork(pc), u, Entries(s'));
  }

  lemma ClientSendShrinks(s: State, i: nat)
    requires Shaped(s) && 0 < i < |s.ranks| && s.ranks[i].pc.Sending? && UpOk(s, i)
    ensures Work(DoSend(s, i)) < Work(s)
  {
    var s' := DoSend(s, i);
    var records, next := s.ranks[i].pc.records, s.ranks[i].pc.next;
    assert next < |records| ==> |Publishes(records[next + 1..])| == |Publishes(records[next..])| - 1;
    ClientShrinks(s, s', i);
  }

  lemma ClientRecvShrinks(s: State, i: nat)
    requires Shaped(s) && 0 < i < |s.ranks| && DownOk(s, i) && DoRecv(s, i) != s
    ensures Work(DoRecv(s, i)) < Work(s)
  {
    ClientShrinks(s, DoRecv(s, i), i);
  }

  lemma ClientLeaveShrinks(s: State, i: nat)
    requires Shaped(s) && 0 < i < |s.ranks| && DownOk(s, i) && DoLeave(s, i) != s
    ensures Work(DoLeave(s, i)) < Work(s)
  {
    ClientShrinks(s, DoLeave(s, i), i);
  }

  /** A step of rank 0 that begins no answer: no client is told, and no snapshot can get larger. */
  lemma ServerShrinks(s: State, s': State, i: nat)
    requires Shaped(s) && Shaped(s') && |s'.ranks| == |s.ranks| && i < |s.ranks|
    requires forall j :: 0 <= j < |s.ranks| && j != i ==> ClientWork(s', j) == ClientWork(s, j)
    requires ClientWork(s', i) + ServerWork(s'.ranks[0].pc) < ClientWork(s, i) + ServerWork(s.ranks[0].pc)
    requires Sum(Untolds(s'.ranks[0].pc, |s.ranks|)) <= Sum(Untolds(s.ranks[0].pc, |s.ranks|))
    requires Entries(s') <= Entries(s)
    ensures Work(s') < Work(s)
  {
    ClientWorksAt(s, s', i);
    var pc, pc', n := s.ranks[0].pc, s'.ranks[0].pc, |s.ranks|;
    TotalShrinks(Sum(ClientWorks(s)), ServerWork(pc), Sum(Untolds(pc, n)), Entries(s),
                 Sum(ClientWorks(s')), ServerWork(pc'), Sum(Untolds(pc', n)), Entries(s'));
  }

  lemma {:induction false} UntoldsLe(pc: Pc, pc': Pc, n: nat)
    requires forall i: nat :: i < n ==> Untold(pc', i) <= Untold(pc, i)
    ensures Sum(Untolds(pc', n)) <= Sum(Untolds(pc, n))
  {
    if n > 0 {
      UntoldsLe(pc, pc', n - 1);
      assert Untolds(pc, n)[..n - 1] == Untolds(pc, n - 1) && Untolds(pc', n)[..n - 1] == Untolds(pc', n - 1);
    }
  }

  lemma ServerLeaveShrinks(s: State)
    requires Shaped(s) && ServerOk(s) && DoLeave(s, 0) != s
    ensures Work(DoLeave(s, 0)) < Work(s)
  {
    var s' := DoLeave(s, 0);
    UntoldsLe(s.ranks[0].pc, s'.ranks[0].pc, |s.ranks|);
    assert Messages(s') == Messages(s);
    ServerShrinks(s, s', 0);
  }

  lemma ServerSendShrinks(s: State)
    requires Shaped(s) && ServerOk(s) && DoSend(s, 0) != s
    ensures Work(DoSend(s, 0)) < Work(s)
  {
    var s' := DoSend(s, 0);
    UntoldsLe(s.ranks[0].pc, s'.ranks[0].pc, |s.ranks|);
    assert Messages(s') == Messages(s);
    ServerShrinks(s, s', s.ranks[0].pc.client);
  }

  lemma AllArrivedShrinks(s: State)
    requires Shaped(s) && s.ranks[0].pc.Collecting?
    ensures Work(SetRank(s, 0, s.ranks[0].(pc := Answering({0}, 0, [], 0)))) < Work(s)
  {
    var s' := SetRank(s, 0, s.ranks[0].(pc := Answering({0}, 0, [], 0)));
    UntoldsLe(s.ranks[0].pc, s'.ranks[0].pc, |s.ranks|);
    assert Messages(s') == Messages(s);
    ServerShrinks(s, s', 0);
  }

  /** A publish that is read is one message less and at most one entry more. */
  lemma ReceiveEntries(s: State, c: nat)
    requires Shaped(s) && CanReceive(s, c)
    ensures Entries(DoReceive(s, c)) <= Entries(s)
  {
    MessagesAt(s, DoReceive(s, c), c);
    var m := s.up[c][0];
    if m.Publish? {
      StoreSize(s.ranks[0].kvs, Entry(c, m.key, m.value));
    }
  }

  lemma ReceiveWork(s: State, c: nat)
    requires Shaped(s) && CanReceive(s, c)
    ensures var s' := DoReceive(s, c);
            && ClientWork(s', c) < ClientWork(s, c) && s'.ranks[0].pc.Collecting?
            && forall j :: 0 <= j < |s.ranks| && j != c ==> ClientWork(s', j) == ClientWork(s, j)
  {
  }

  lemma ReceiveShrinks(s: State, c: nat)
    requires Shaped(s) && CanReceive(s, c)
    ensures Work(DoReceive(s, c)) < Work(s)
  {
    ReceiveEntries(s, c);
    ReceiveWork(s, c);
    UntoldsLe(s.ranks[0].pc, DoReceive(s, c).ranks[0].pc, |s.ranks|);
    ServerShrinks(s, DoReceive(s, c), c);
  }

  lemma UntoldsAnswered(pc: Pc, d: nat, records: seq<Entry>, n: nat)
    requires pc.Answering? && 0 < d < n && d !in pc.told
    ensures Sum(Untolds(pc, n)) == Sum(Untolds(Answering(pc.told + {d}, d, records, 0), n)) + 1
  {
    SumUpdate(Untolds(pc, n), d, 0);
    assert Untolds(Answering(pc.told + {d}, d, records, 0), n) == Untolds(pc, n)[d := 0];
  }

  lemma AnswerWork(s: State, d: nat, records: seq<Entry>)
    requires Shaped(s) && CanAnswer(s, d, records) && d > 0
    ensures var s', pc := DoBeginAnswer(s, d, records), s.ranks[0].pc;
            && s'.ranks[0].pc == Answering(pc.told + {d}, d, records, 0)
            && Sum(ClientWorks(s')) == Sum(ClientWorks(s)) + 1 && Entries(s') == Entries(s)
            && |records| <= Entries(s) && ServerWork(pc) == 1
  {
    var s' := DoBeginAnswer(s, d, records);
    assert Messages(s') == Messages(s);
    ClientWorksAt(s, s', d);
  }

  lemma AnswerNumbers(c: nat, v: nat, u: nat, e: nat, c': nat, v': nat, u': nat, e': nat, k: nat)
    requires c' == c + 1 && v == 1 && v' == 1 + 2 * k && u == u' + 1 && e' == e && k <= e
    ensures Total(c', v', u', e') < Total(c, v, u, e)
  {
    TotalAnswers(c, v, u, e, c', v');
  }

  lemma BeginAnswerShrinks(s: State, d: nat, records: seq<Entry>)
    requires Shaped(s) && CanAnswer(s, d, records) && d > 0
    ensures Work(DoBeginAnswer(s, d, records)) < Work(s)
  {
    var s' := DoBeginAnswer(s, d, records);
    var pc, pc', n := s.ranks[0].pc, s'.ranks[0].pc, |s.ranks|;
    AnswerWork(s, d, records);
    UntoldsAnswered(pc, d, records, n);
    AnswerNumbers(Sum(ClientWorks(s)), ServerWork(pc), Sum(Untolds(pc, n)), Entries(s),
                  Sum(ClientWorks(s')), ServerWork(pc'), Sum(Untolds(pc', n)), Entries(s'), |records|);
  }

  /** Every step that changes anything, other than a put or an entry, leaves strictly less to do. */
  lemma StepShrinks(s: State, i: nat, c: Choice)
    requires Inv(s) && Step(s, i, c) != s && !c.Put? && !c.Enter?
    ensures Work(Step(s, i, c)) < Work(s)
  {
    assert i > 0 ==> UpOk(s, i) && DownOk(s, i);
    match c
    case Send => if i == 0 { ServerSendShrinks(s); } else { ClientSendShrinks(s, i); }
    case Recv => ClientRecvShrinks(s, i);
    case Leave => if i == 0 { ServerLeaveShrinks(s); } else { ClientLeaveShrinks(s, i); }
    case Receive(client) => ReceiveShrinks(s, client);
    case AllArrived => AllArrivedShrinks(s);
    case BeginAnswer(client, records) => BeginAnswerShrinks(s, client, records);
  }

  lemma ExecSnoc(s0: State, trace: seq<(nat, Choice)>, i: nat, c: Choice)
    requires Initial(s0)
    ensures Exec(s0, trace + [(i, c)]) == Step(Exec(s0, trace), i, c)
  {
    assert (trace + [(i, c)])[..|trace|] == trace;
  }

  /** The step changes something and is neither a put nor an entry. */
  ghost predicate Effective(s: State, i: nat, c: Choice)
    requires Shaped(s)
  {
    !c.Put? && !c.Enter? && Step(s, i, c) != s
  }

  lemma ExecShrinks(s0: State, trace: seq<(nat, Choice)>, i: nat, c: Choice)
    requires Initial(s0) && Effective(Exec(s0, trace), i, c)
    ensures Work(Exec(s0, trace + [(i, c)])) < Work(Exec(s0, trace))
  {
    ExecInv(s0, trace);
    StepShrinks(Exec(s0, trace), i, c);
    ExecSnoc(s0, trace, i, c);
  }

  /** From s, every step of `more` is of that kind. */
  ghost predicate Continues(s: State, more: seq<(nat, Choice)>)
    requires Shaped(s)
    decreases |more|
  {
    more == [] || (Effective(s, more[0].0, more[0].1) && Continues(Step(s, more[0].0, more[0].1), more[1..]))
  }

  lemma {:induction false} AtMostWork(s: State, more: seq<(nat, Choice)>)
    requires Inv(s) && Continues(s, more)
    ensures |more| <= Work(s)
    decreases |more|
  {
    if more != [] {
      StepShrinks(s, more[0].0, more[0].1);
      StepKeeps(s, more[0].0, more[0].1);
      AtMostWork(Step(s, more[0].0, more[0].1), more[1..]);
    }
  }

  /** As long as nobody publishes or enters, a run takes a bounded number of steps. */
  lemma RunsAreBounded(s0: State, trace: seq<(nat, Choice)>, more: seq<(nat, Choice)>)
    requires Initial(s0) && Continues(Exec(s0, trace), more)
    ensures |more| <= Work(Exec(s0, trace))
  {
    ExecInv(s0, trace);
    AtMostWork(Exec(s0, trace), more);
  }

  /** whole goes on where trace ends, without puts and entries. */
  ghost predicate OnlyBarrier(trace: seq<(nat, Choice)>, whole: seq<(nat, Choice)>) {
    trace <= whole && forall k :: |trace| <= k < |whole| ==> !whole[k].1.Put? && !whole[k].1.Enter?
  }

  /** Any run can be continued, without puts and entries, until every rank has left every barrier that
      all ranks have entered. */
  lemma {:induction false} FenceEnds(s0: State, trace: seq<(nat, Choice)>) returns (whole: seq<(nat, Choice)>)
    requires Initial(s0)
    ensures OnlyBarrier(trace, whole)
    ensures forall i :: 0 <= i < |s0.ranks| && Behind(Exec(s0, whole), i) ==> Exec(s0, whole).ranks[i].pc.Out?
    decreases Work(Exec(s0, trace))
  {
    var s := Exec(s0, trace);
    ExecInv(s0, trace);
    if i :| 0 <= i < |s0.ranks| && Behind(s, i) && !s.ranks[i].pc.Out? {
      var r, c := InsideMoves(s, i);
      ExecShrinks(s0, trace, r, c);
      whole := FenceEnds(s0, trace + [(r, c)]);
      OneMore(trace, r, c, whole);
    } else {
      whole := trace;
    }
  }

  lemma OneMore(trace: seq<(nat, Choice)>, r: nat, c: Choice, whole: seq<(nat, Choice)>)
    requires OnlyBarrier(trace + [(r, c)], whole) && !c.Put? && !c.Enter?
    ensures OnlyBarrier(trace, whole)
  {
    forall k | |trace| <= k < |whole| ensures !whole[k].1.Put? && !whole[k].1.Enter? {
      if k == |trace| {
        assert whole[k] == (trace + [(r, c)])[k];
      }
    }
  }
}
