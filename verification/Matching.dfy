/** What a matching engine does, key by key, and the simple two-list engine
    (src/matching_engine/matching_engine_queue.hpp). */
module Matching {

  type Key = nat

  /** A pointer; EMPTY is nullptr. */
  type Value = nat
  const EMPTY: Value := 0

  datatype Kind = Send | Recv

  function Opposite(k: Kind): Kind { if k == Send then Recv else Send }

  datatype Op = Op(key: Key, value: Value, kind: Kind)

  // ------------------------------------------------------- the specification

  /** The unmatched entries of one key: all of one kind, oldest first. */
  datatype Waiting = Waiting(kind: Kind, values: seq<Value>)

  type Pending = map<Key, Waiting>

  ghost predicate PendingOk(p: Pending) {
    forall k :: k in p ==> p[k].values != [] && EMPTY !in p[k].values
  }

  /** Match with the oldest entry of the other kind, or wait. */
  function Apply(p: Pending, op: Op): (r: (Pending, Value)) {
    if op.key !in p then (p[op.key := Waiting(op.kind, [op.value])], EMPTY)
    else
      var w := p[op.key];
      if w.kind == op.kind then (p[op.key := Waiting(op.kind, w.values + [op.value])], EMPTY)
      else if |w.values| > 1 then (p[op.key := Waiting(w.kind, w.values[1..])], w.values[0])
      else if |w.values| == 1 then (p - {op.key}, w.values[0])
      else (p, EMPTY)
  }

  function Run(ops: seq<Op>): (Pending, seq<Value>)
    decreases |ops|
  {
    if ops == [] then (map[], [])
    else
      var (p, results) := Run(ops[..|ops| - 1]);
      var (p', v) := Apply(p, ops[|ops| - 1]);
      (p', results + [v])
  }

  // ------------------------------------------------------- first come, first served

  /** The values inserted with this key and kind, in order. */
  function Inserted(ops: seq<Op>, key: Key, kind: Kind): seq<Value>
    decreases |ops|
  {
    if ops == [] then []
    else
      var op := ops[|ops| - 1];
      Inserted(ops[..|ops| - 1], key, kind) + (if op.key == key && op.kind == kind then [op.value] else [])
  }

  ghost predicate NonNull(ops: seq<Op>) {
    forall i :: 0 <= i < |ops| ==> ops[i].value != EMPTY
  }

  /** What is left of the sends and receives of a key after pairing them off in order. */
  ghost function Unpaired(sends: seq<Value>, recvs: seq<Value>): Waiting {
    if |sends| >= |recvs| then Waiting(Send, sends[|recvs|..]) else Waiting(Recv, recvs[|sends|..])
  }

  ghost predicate Leaves(p: Pending, key: Key, w: Waiting) {
    if w.values == [] then key !in p else key in p && p[key] == w
  }

  lemma {:induction false} LeftOver(ops: seq<Op>, key: Key)
    requires NonNull(ops)
    ensures PendingOk(Run(ops).0)
    ensures Leaves(Run(ops).0, key, Unpaired(Inserted(ops, key, Send), Inserted(ops, key, Recv)))
    decreases |ops|
  {
    if ops != [] {
      var before, op := ops[..|ops| - 1], ops[|ops| - 1];
      LeftOver(before, key);
      ApplyKeeps(Run(before).0, op);
    }
  }

  /** The i-th send of a key meets the i-th receive of that key: an insert returns the value of its
      partner when that is there already, and nothing otherwise. */
  lemma PairsInOrder(ops: seq<Op>, op: Op)
    requires NonNull(ops) && op.value != EMPTY
    ensures var mine := Inserted(ops, op.key, op.kind);
            var others := Inserted(ops, op.key, Opposite(op.kind));
            Apply(Run(ops).0, op).1 == if |mine| < |others| then others[|mine|] else EMPTY
  {
    LeftOver(ops, op.key);
  }

  // ------------------------------------------------------- the two-list engine

  datatype Entry = Entry(key: Key, value: Value)

  /** The values queued under a key, oldest first. */
  function Under(q: seq<Entry>, key: Key): seq<Value> {
    if q == [] then [] else (if q[0].key == key then [q[0].value] else []) + Under(q[1..], key)
  }

  lemma Regroup(x: seq<Value>, y: seq<Value>, z: seq<Value>)
    ensures x + (y + z) == (x + y) + z
  {
  }

  lemma {:induction false} UnderConcat(a: seq<Entry>, b: seq<Entry>, key: Key)
    ensures Under(a + b, key) == Under(a, key) + Under(b, key)
  {
    if a == [] {
      assert a + b == b;
    } else {
      UnderConcat(a[1..], b, key);
      assert (a + b)[1..] == a[1..] + b;
      Regroup(if a[0].key == key then [a[0].value] else [], Under(a[1..], key), Under(b, key));
    }
  }

  lemma {:induction false} UnderNone(q: seq<Entry>, key: Key)
    requires forall i :: 0 <= i < |q| ==> q[i].key != key
    ensures Under(q, key) == []
  {
    if q != [] { UnderNone(q[1..], key); }
  }

  /** The list holds exactly the pending entries of its kind. */
  ghost predicate Tracks(q: seq<Entry>, p: Pending, kind: Kind, key: Key) {
    Under(q, key) == if key in p && p[key].kind == kind then p[key].values else []
  }

  /** queue' is queue without the oldest entry of the key, whose value is ret. */
  ghost predicate Found(queue: seq<Entry>, key: Key, queue': seq<Entry>, ret: Value) {
    && (Under(queue, key) == [] ==> queue' == queue && ret == EMPTY)
    && (Under(queue, key) != [] ==> Under(queue, key) == [ret] + Under(queue', key))
    && (forall k :: k != key ==> Under(queue', k) == Under(queue, k))
  }

  /** What is left under a key when entry i is taken out. */
  lemma UnderWithout(queue: seq<Entry>, i: nat, k: Key)
    requires i < |queue|
    ensures Under(queue, k) == Under(queue[..i], k) + Under([queue[i]] + queue[i + 1..], k)
    ensures Under(queue[..i] + queue[i + 1..], k) == Under(queue[..i], k) + Under(queue[i + 1..], k)
    ensures Under([queue[i]] + queue[i + 1..], k)
         == (if queue[i].key == k then [queue[i].value] else []) + Under(queue[i + 1..], k)
  {
    UnderConcat(queue[..i], [queue[i]] + queue[i + 1..], k);
    UnderConcat(queue[..i], queue[i + 1..], k);
    assert queue == queue[..i] + ([queue[i]] + queue[i + 1..]);
    assert ([queue[i]] + queue[i + 1..])[1..] == queue[i + 1..];
  }

  lemma FirstFound(queue: seq<Entry>, key: Key, i: nat)
    requires i < |queue| && queue[i].key == key && forall j :: 0 <= j < i ==> queue[j].key != key
    ensures Found(queue, key, queue[..i] + queue[i + 1..], queue[i].value)
  {
    var queue' := queue[..i] + queue[i + 1..];
    UnderNone(queue[..i], key);
    UnderWithout(queue, i, key);
    forall k: Key | k != key ensures Under(queue', k) == Under(queue, k) {
      UnderWithout(queue, i, k);
    }
  }

  lemma UnderAdded(mine: seq<Entry>, op: Op, k: Key)
    ensures Under(mine + [Entry(op.key, op.value)], k) == Under(mine, k) + (if k == op.key then [op.value] else [])
  {
    UnderConcat(mine, [Entry(op.key, op.value)], k);
    assert [Entry(op.key, op.value)][1..] == [];
  }

  lemma InsertAnswer(others: seq<Entry>, others': seq<Entry>, p: Pending, op: Op, ret: Value)
    requires PendingOk(p) && Found(others, op.key, others', ret) && Tracks(others, p, Opposite(op.kind), op.key)
    ensures ret == Apply(p, op).1
    ensures if op.key in p && p[op.key].kind != op.kind then
              ret != EMPTY && Under(others', op.key) == p[op.key].values[1..]
            else ret == EMPTY && others' == others
  {
    if op.key in p && p[op.key].kind != op.kind {
      assert ret == p[op.key].values[0] && ret in p[op.key].values;
    }
  }

  lemma InsertTracks(mine: seq<Entry>, others: seq<Entry>, mine': seq<Entry>, others': seq<Entry>,
                     p: Pending, op: Op, ret: Value, k: Key)
    requires PendingOk(p) && op.value != EMPTY && Found(others, op.key, others', ret)
    requires mine' == if ret == EMPTY then mine + [Entry(op.key, op.value)] else mine
    requires Tracks(mine, p, op.kind, op.key) && Tracks(others, p, Opposite(op.kind), op.key)
    requires Tracks(mine, p, op.kind, k) && Tracks(others, p, Opposite(op.kind), k)
    ensures ret == Apply(p, op).1
    ensures Tracks(mine', Apply(p, op).0, op.kind, k) && Tracks(others', Apply(p, op).0, Opposite(op.kind), k)
  {
    UnderAdded(mine, op, k);
    InsertAnswer(others, others', p, op, ret);
  }

  class QueueEngine {
    var sendQueue: seq<Entry>
    var recvQueue: seq<Entry>
    ghost var pending: Pending

    ghost predicate Valid()
      reads this
    {
      && PendingOk(pending)
      && (forall k: Key :: Tracks(sendQueue, pending, Send, k))
      && (forall k: Key :: Tracks(recvQueue, pending, Recv, k))
    }

    constructor ()
      ensures Valid() && pending == map[]
    {
      sendQueue, recvQueue, pending := [], [], map[];
    }

    /** Removes the oldest entry of the key and returns its value, or nullptr. */
    static method Search(queue: seq<Entry>, key: Key) returns (queue': seq<Entry>, ret: Value)
      ensures Found(queue, key, queue', ret)
    {
      for i := 0 to |queue|
        invariant forall j :: 0 <= j < i ==> queue[j].key != key
      {
        if queue[i].key == key {
          queue', ret := queue[..i] + queue[i + 1..], queue[i].value;
          FirstFound(queue, key, i);
          return;
        }
      }
      UnderNone(queue, key);
      queue', ret := queue, EMPTY;
    }

    method Insert(key: Key, value: Value, kind: Kind) returns (ret: Value)
      requires Valid() && value != EMPTY
      modifies this
      ensures Valid()
      ensures pending == Apply(old(pending), Op(key, value, kind)).0
      ensures ret == Apply(old(pending), Op(key, value, kind)).1
    {
      ghost var sends, recvs, p, op := sendQueue, recvQueue, pending, Op(key, value, kind);
      var entry := Entry(key, value);
      if kind == Send {
        recvQueue, ret := Search(recvQueue, key);
        if ret == EMPTY {
          sendQueue := sendQueue + [entry];
        }
        InsertTracks(sends, recvs, sendQueue, recvQueue, p, op, ret, key);
        forall k: Key ensures Tracks(sendQueue, Apply(p, op).0, Send, k) && Tracks(recvQueue, Apply(p, op).0, Recv, k) {
          InsertTracks(sends, recvs, sendQueue, recvQueue, p, op, ret, k);
        }
      } else {
        sendQueue, ret := Search(sendQueue, key);
        if ret == EMPTY {
          recvQueue := recvQueue + [entry];
        }
        InsertTracks(recvs, sends, recvQueue, sendQueue, p, op, ret, key);
        forall k: Key ensures Tracks(sendQueue, Apply(p, op).0, Send, k) && Tracks(recvQueue, Apply(p, op).0, Recv, k) {
          InsertTracks(recvs, sends, recvQueue, sendQueue, p, op, ret, k);
        }
      }
      pending := Apply(p, op).0;
      ApplyKeeps(p, op);
    }
  }

  lemma ApplyKeeps(p: Pending, op: Op)
    requires PendingOk(p) && op.value != EMPTY
    ensures PendingOk(Apply(p, op).0)
  {
  }
}
