/** The put / fence / get protocol of the TCP process-management wrapper (lct/pmi/pmi_wrapper_tcp.cpp).
    Rank 0 serves the others over one FIFO socket each; a step is one publish, one message sent or
    received, or one rank entering or leaving its barrier. */
module TcpFence {
  import opened Sums

  type Key = string
  type Value = string
  type Kvs = map<Key, Value>

  /** A map from (rank, key) to value, one part per rank. */
  type Table = seq<Kvs>

  datatype Entry = Entry(rank: nat, key: Key, value: Value)

  datatype Msg = Publish(key: Key, value: Value) | BarrierMsg | OkMsg(count: nat) | ValueMsg(entry: Entry)

  /** Where a rank is. Rank 0 is Out, Collecting or Answering: whom it has told, the client it is
      telling and the records it sends, with `next` of them sent. The others are Out, Sending (their pending
      publishes, with `next` of them sent), AwaitingOk, or Reading `count` more records. */
  datatype Pc =
    | Out
    | Sending(records: seq<Entry>, next: nat)
    | AwaitingOk
    | Reading(count: nat, snapshot: Table)
    | Collecting(arrived: set<nat>)
    | Answering(told: set<nat>, client: nat, records: seq<Entry>, next: nat)

  /** pending and kvs are g_pending_kvs and g_kvs of the rank; entered and left count its barriers. */
  datatype Rank = Rank(pending: Kvs, kvs: Table, pc: Pc, entered: nat, left: nat)

  /** up and down are the sockets from and to the clients. published is everything each rank ever
      published, later values replacing earlier ones, and commits its value at each barrier entry. */
  datatype State = State(ranks: seq<Rank>, up: seq<seq<Msg>>, down: seq<seq<Msg>>, failed: bool,
                         published: seq<Kvs>, commits: seq<seq<Kvs>>)

  datatype Choice =
    | Put(key: Key, value: Value) | Enter(records: seq<Entry>) | Send | Recv | Leave
    | Receive(client: nat) | AllArrived | BeginAnswer(next: nat, answer: seq<Entry>)

  // ------------------------------------------------------- maps and messages

  /** The map that a list of records describes. */
  function MapOf(records: seq<Entry>): Kvs {
    if records == [] then map[] else map[records[0].key := records[0].value] + MapOf(records[1..])
  }

  function Store(t: Table, e: Entry): Table {
    if e.rank < |t| then t[e.rank := t[e.rank][e.key := e.value]] else t
  }

  /** What reading a list of snapshot messages makes of a table. */
  function Load(t: Table, ms: seq<Msg>): Table
    decreases |ms|
  {
    if ms == [] then t else Load(if ms[0].ValueMsg? then Store(t, ms[0].entry) else t, ms[1..])
  }

  function Values(records: seq<Entry>): seq<Msg> {
    seq(|records|, i requires 0 <= i < |records| => ValueMsg(records[i]))
  }

  function Publishes(records: seq<Entry>): seq<Msg> {
    seq(|records|, i requires 0 <= i < |records| => Publish(records[i].key, records[i].value))
  }

  function NoEntries(n: nat): Table {
    seq(n, _ => map[])
  }

  function Sizes(t: Table): seq<nat> {
    seq(|t|, i requires 0 <= i < |t| => |t[i]|)
  }

  /** The number of entries. */
  function Size(t: Table): nat {
    Sum(Sizes(t))
  }

  /** The records are the entries of the table, each once, in some order. */
  predicate Lists(records: seq<Entry>, t: Table) {
    && (forall i :: 0 <= i < |records| ==> records[i].rank < |t|)
    && Load(NoEntries(|t|), Values(records)) == t && |records| == Size(t)
  }

  // ------------------------------------------------------- the steps

  predicate Shaped(s: State) {
    |s.ranks| > 0 && |s.up| == |s.down| == |s.published| == |s.commits| == |s.ranks|
  }

  function SetRank(s: State, i: nat, r: Rank): State
    requires i < |s.ranks|
  {
    s.(ranks := s.ranks[i := r])
  }

  /** publish */
  function DoPut(s: State, i: nat, key: Key, value: Value): (s': State)
    requires Shaped(s) && i < |s.ranks|
    ensures Shaped(s') && |s'.ranks| == |s.ranks|
  {
    SetRank(s, i, s.ranks[i].(pending := s.ranks[i].pending[key := value]))
      .(published := s.published[i := s.published[i][key := value]])
  }

  /** The start of rank0_barrier and of nonzero_barrier. */
  function DoEnter(s: State, i: nat, records: seq<Entry>): (s': State)
    requires Shaped(s) && i < |s.ranks|
    ensures Shaped(s') && |s'.ranks| == |s.ranks|
  {
    var r := s.ranks[i].(entered := s.ranks[i].entered + 1);
    var s := s.(commits := s.commits[i := s.commits[i] + [s.published[i]]]);
    if i == 0 then
      var kvs := if |r.kvs| > 0 then r.kvs[0 := r.kvs[0] + r.pending] else r.kvs;
      SetRank(s, 0, r.(kvs := kvs, pending := map[], pc := Collecting({0})))
    else
      SetRank(s, i, r.(pc := Sending(records, 0)))
  }

  /** nonzero_barrier sends its pending publishes and then the barrier request; rank 0 sends the
      records of a snapshot. */
  function DoSend(s: State, i: nat): (s': State)
    requires Shaped(s) && i < |s.ranks|
    ensures Shaped(s') && |s'.ranks| == |s.ranks|
  {
    var r := s.ranks[i];
    match r.pc
    case Sending(records, next) =>
      if next < |records| then
        SetRank(s, i, r.(pc := Sending(records, next + 1)))
          .(up := s.up[i := s.up[i] + [Publish(records[next].key, records[next].value)]])
      else
        SetRank(s, i, r.(pc := AwaitingOk)).(up := s.up[i := s.up[i] + [BarrierMsg]])
    case Answering(told, c, records, next) =>
      if next < |records| && c < |s.ranks| then
        SetRank(s, i, r.(pc := Answering(told, c, records, next + 1)))
          .(down := s.down[c := s.down[c] + [ValueMsg(records[next])]])
      else s
    case _ => s
  }

  /** nonzero_barrier waits for the response and recv_snapshot reads its records. */
  function DoRecv(s: State, i: nat): (s': State)
    requires Shaped(s) && i < |s.ranks|
    ensures Shaped(s') && |s'.ranks| == |s.ranks|
  {
    var r := s.ranks[i];
    if s.down[i] == [] then s else
      var m := s.down[i][0];
      var s' := s.(down := s.down[i := s.down[i][1..]]);
      match r.pc
      case AwaitingOk =>
        if m.OkMsg? then SetRank(s', i, r.(pc := Reading(m.count, NoEntries(|s.ranks|)))) else s'.(failed := true)
      case Reading(count, snapshot) =>
        if count == 0 then s
        else if m.ValueMsg? && m.entry.rank < |s.ranks| then
          SetRank(s', i, r.(pc := Reading(count - 1, Store(snapshot, m.entry))))
        else s'.(failed := true)
      case _ => s
  }

  predicate EveryoneIn(s: State, arrived: set<nat>) {
    forall j :: 0 <= j < |s.ranks| ==> j in arrived
  }

  function DoLeave(s: State, i: nat): (s': State)
    requires Shaped(s) && i < |s.ranks|
    ensures Shaped(s') && |s'.ranks| == |s.ranks|
  {
    var r := s.ranks[i];
    match r.pc
    case Reading(count, snapshot) =>
      if count == 0 then SetRank(s, i, r.(kvs := snapshot, pending := map[], pc := Out, left := r.left + 1)) else s
    case Answering(told, _, records, next) =>
      if EveryoneIn(s, told) && next == |records| then SetRank(s, i, r.(pc := Out, left := r.left + 1)) else s
    case _ => s
  }

  /** rank0_barrier reads one message of a client that has not arrived yet. */
  function DoReceive(s: State, client: nat): (s': State)
    requires Shaped(s)
    ensures Shaped(s') && |s'.ranks| == |s.ranks|
  {
    var r := s.ranks[0];
    if !r.pc.Collecting? || client >= |s.ranks| || client in r.pc.arrived || s.up[client] == [] then s else
      var m := s.up[client][0];
      var s' := s.(up := s.up[client := s.up[client][1..]]);
      match m
      case Publish(key, value) => SetRank(s', 0, r.(kvs := Store(r.kvs, Entry(client, key, value))))
      case BarrierMsg => SetRank(s', 0, r.(pc := Collecting(r.pc.arrived + {client})))
      case _ => s'.(failed := true)
  }

  /** send_snapshot starts for a client that has not been told yet: its response carries the number of
      records.  The clients come in the order in which rank 0 accepted them, so in any order of ranks. */
  function DoBeginAnswer(s: State, client: nat, records: seq<Entry>): (s': State)
    requires Shaped(s)
    ensures Shaped(s') && |s'.ranks| == |s.ranks|
  {
    var r := s.ranks[0];
    match r.pc
    case Answering(told, _, recs, next) =>
      if client < |s.ranks| && client !in told && next == |recs| && Lists(records, r.kvs) then
        SetRank(s, 0, r.(pc := Answering(told + {client}, client, records, 0)))
          .(down := s.down[client := s.down[client] + [OkMsg(|records|)]])
      else s
    case _ => s
  }

  /** Rank i makes a step; a step that is not possible changes nothing. Enter lists the pending
      publishes, and BeginAnswer the entries of g_kvs, in the order in which they are sent. */
  function Step(s: State, i: nat, c: Choice): (s': State)
    requires Shaped(s)
    ensures Shaped(s') && |s'.ranks| == |s.ranks|
  {
    if i >= |s.ranks| || s.failed then s else
      match c
      case Put(key, value) => if s.ranks[i].pc.Out? then DoPut(s, i, key, value) else s
      case Enter(records) =>
        if s.ranks[i].pc.Out? && MapOf(records) == s.ranks[i].pending && |records| == |s.ranks[i].pending|
        then DoEnter(s, i, records) else s
      case Send => DoSend(s, i)
      case Recv => DoRecv(s, i)
      case Leave => DoLeave(s, i)
      case Receive(client) => DoReceive(s, client)
      case AllArrived =>
        if s.ranks[0].pc.Collecting? && EveryoneIn(s, s.ranks[0].pc.arrived) then
          SetRank(s, 0, s.ranks[0].(pc := Answering({0}, 0, [], 0)))
        else s
      case BeginAnswer(client, records) => DoBeginAnswer(s, client, records)
  }

  ghost predicate Initial(s: State) {
    && Shaped(s) && !s.failed
    && forall i :: 0 <= i < |s.ranks| ==>
         && s.ranks[i] == Rank(map[], NoEntries(|s.ranks|), Out, 0, 0)
         && s.up[i] == [] && s.down[i] == [] && s.published[i] == map[] && s.commits[i] == []
  }

  ghost function Exec(s0: State, trace: seq<(nat, Choice)>): (s: State)
    requires Initial(s0)
    ensures Shaped(s) && |s.ranks| == |s0.ranks|
  {
    if trace == [] then s0 else
      var e := trace[|trace| - 1];
      Step(Exec(s0, trace[..|trace| - 1]), e.0, e.1)
  }
}
