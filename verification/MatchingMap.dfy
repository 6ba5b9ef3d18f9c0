/** The hash-map matching engine (src/matching_engine/matching_engine_map.hpp): master buckets with
    chains of further buckets, each a block of queues; a queue keeps up to two values in its own
    slots and more in a list of seven-value nodes. */
module MatchingMap {
  import opened Options
  import opened Matching

  const SLOT_NUM_VALUES := 2
  const NODE_NUM_VALUES := 7
  const BUCKET_NUM_QUEUES_DEFAULT := 3

  /** queue_t.  `slots` and `nodes` share memory in the source: `isQueue` tells which one is in use. */
  datatype Queue = Queue(isEmpty: bool, isQueue: bool, kind: Kind, key: Key, slots: seq<Value>, nodes: seq<seq<Value>>)

  type Bucket = seq<Queue>

  function Blank(k: nat): seq<Value> { seq(k, _ => EMPTY) }

  function NewQueue(): Queue { Queue(true, false, Send, 0, Blank(SLOT_NUM_VALUES), []) }

  // ------------------------------------------------------- contents of a queue

  function Filled(vs: seq<Value>): seq<Value> {
    if vs == [] then [] else (if vs[0] != EMPTY then [vs[0]] else []) + Filled(vs[1..])
  }

  function InNodes(nodes: seq<seq<Value>>): seq<Value> {
    if nodes == [] then [] else Filled(nodes[0]) + InNodes(nodes[1..])
  }

  function Contents(q: Queue): seq<Value> {
    if q.isEmpty then [] else if q.isQueue then InNodes(q.nodes) else Filled(q.slots)
  }

  ghost predicate NodeOk(node: seq<Value>) { |node| == NODE_NUM_VALUES && Filled(node) != [] }

  ghost predicate QueueOk(q: Queue) {
    && (!q.isEmpty && !q.isQueue ==> |q.slots| == SLOT_NUM_VALUES && Filled(q.slots) != [])
    && (!q.isEmpty && q.isQueue ==> q.nodes != [] && forall i :: 0 <= i < |q.nodes| ==> NodeOk(q.nodes[i]))
  }

  function Kept(v: Value): seq<Value> { if v != EMPTY then [v] else [] }

  lemma FilledCons(v: Value, rest: seq<Value>)
    ensures Filled([v] + rest) == Kept(v) + Filled(rest)
  {
    assert ([v] + rest)[1..] == rest;
  }

  lemma {:induction false} FilledConcat(a: seq<Value>, b: seq<Value>)
    ensures Filled(a + b) == Filled(a) + Filled(b)
    decreases |a|
  {
    if a == [] {
      assert a + b == b;
    } else {
      var v, rest := a[0], a[1..];
      assert a == [v] + rest && a + b == [v] + (rest + b);
      FilledCons(v, rest);
      FilledCons(v, rest + b);
      FilledConcat(rest, b);
      assert (Kept(v) + Filled(rest)) + Filled(b) == Kept(v) + (Filled(rest) + Filled(b));
    }
  }

  lemma {:induction false} FilledValues(vs: seq<Value>)
    ensures EMPTY !in Filled(vs) && |Filled(vs)| <= |vs|
    ensures (forall i :: 0 <= i < |vs| ==> vs[i] == EMPTY) ==> Filled(vs) == []
    ensures Filled(vs) == [] ==> forall i :: 0 <= i < |vs| ==> vs[i] == EMPTY
    ensures (forall i :: 0 <= i < |vs| ==> vs[i] != EMPTY) ==> Filled(vs) == vs
  {
    if vs != [] { FilledValues(vs[1..]); assert vs == [vs[0]] + vs[1..]; }
  }

  lemma InNodesCons(node: seq<Value>, rest: seq<seq<Value>>)
    ensures InNodes([node] + rest) == Filled(node) + InNodes(rest)
  {
    assert ([node] + rest)[1..] == rest;
  }

  lemma {:induction false} InNodesConcat(a: seq<seq<Value>>, b: seq<seq<Value>>)
    ensures InNodes(a + b) == InNodes(a) + InNodes(b)
    decreases |a|
  {
    if a == [] {
      assert a + b == b;
    } else {
      var node, rest := a[0], a[1..];
      assert a == [node] + rest && a + b == [node] + (rest + b);
      InNodesCons(node, rest);
      InNodesCons(node, rest + b);
      InNodesConcat(rest, b);
      assert (Filled(node) + InNodes(rest)) + InNodes(b) == Filled(node) + (InNodes(rest) + InNodes(b));
    }
  }

  lemma SingleNode(node: seq<Value>)
    ensures InNodes([node]) == Filled(node)
  {
    assert [node][1..] == [];
  }

  lemma FilledSnoc(vs: seq<Value>, v: Value)
    ensures Filled(vs + [v]) == Filled(vs) + Kept(v)
  {
    FilledConcat(vs, [v]);
    assert [v][1..] == [];
  }

  lemma FilledStep(vs: seq<Value>, i: nat)
    requires i < |vs|
    ensures Filled(vs[..i + 1]) == Filled(vs[..i]) + Kept(vs[i])
  {
    FilledSnoc(vs[..i], vs[i]);
    assert vs[..i + 1] == vs[..i] + [vs[i]];
  }

  // ------------------------------------------------------- queue operations

  /** The scan of pop: takes the first value out and counts the others. */
  method TakeFirst(vs: seq<Value>) returns (vs': seq<Value>, ret: Value, nlefts: nat)
    requires Filled(vs) != []
    ensures |vs'| == |vs| && ret != EMPTY && Filled(vs) == [ret] + Filled(vs') && nlefts == |Filled(vs')|
  {
    vs', ret, nlefts := vs, EMPTY, 0;
    for i := 0 to |vs|
      invariant |vs'| == |vs| && forall j :: i <= j < |vs| ==> vs'[j] == vs[j]
      invariant ret == EMPTY ==> Filled(vs[..i]) == [] && vs' == vs && nlefts == 0
      invariant ret != EMPTY ==> Filled(vs[..i]) == [ret] + Filled(vs'[..i]) && nlefts == |Filled(vs'[..i])|
    {
      FilledStep(vs, i);
      ghost var before := vs'[..i];
      if vs'[i] != EMPTY {
        if ret == EMPTY {
          ret := vs'[i];
          vs' := vs'[i := EMPTY];
        } else {
          nlefts := nlefts + 1;
        }
      }
      assert vs'[..i] == before;
      FilledStep(vs', i);
    }
    assert vs[..|vs|] == vs && vs'[..|vs|] == vs';
  }

  /** The loop that turns the last node into slots: the values in front, then EMPTY. */
  method ToSlots(node: seq<Value>) returns (slots: seq<Value>)
    requires |Filled(node)| <= SLOT_NUM_VALUES
    ensures |slots| == SLOT_NUM_VALUES && Filled(slots) == Filled(node)
  {
    var values := [];
    for i := 0 to |node|
      invariant values == Filled(node[..i])
    {
      assert node[..i + 1] == node[..i] + [node[i]];
      FilledSnoc(node[..i], node[i]);
      if node[i] != EMPTY {
        values := values + [node[i]];
      }
    }
    assert node[..|node|] == node;
    FilledValues(node);
    slots := values;
    FilledValues(slots);
    while |slots| < SLOT_NUM_VALUES
      invariant |values| <= |slots| <= SLOT_NUM_VALUES && Filled(slots) == values
    {
      FilledSnoc(slots, EMPTY);
      slots := slots + [EMPTY];
    }
  }

  /** queue_t::pop */
  method Pop(q: Queue) returns (q': Queue, ret: Value)
    requires QueueOk(q) && !q.isEmpty
    ensures QueueOk(q') && q'.key == q.key && q'.kind == q.kind
    ensures ret != EMPTY && Contents(q) == [ret] + Contents(q')
    ensures q'.isEmpty <==> Contents(q') == []
  {
    if !q.isQueue {
      var slots, nlefts;
      slots, ret, nlefts := TakeFirst(q.slots);
      q' := q.(slots := slots, isEmpty := nlefts == 0);
    } else {
      assert NodeOk(q.nodes[0]);
      var head, nlefts;
      head, ret, nlefts := TakeFirst(q.nodes[0]);
      if nlefts == 0 {
        q' := q.(nodes := q.nodes[1..], isEmpty := |q.nodes| == 1);
        TailNodesOk(q.nodes);
      } else if nlefts <= SLOT_NUM_VALUES && |q.nodes| == 1 {
        var slots := ToSlots(head);
        q' := q.(isQueue := false, slots := slots, nodes := []);
        assert q.nodes[1..] == [];
      } else {
        q' := q.(nodes := [head] + q.nodes[1..]);
        assert q'.nodes[1..] == q.nodes[1..];
        TailNodesOk(q.nodes);
        HeadNodeOk(head, q.nodes[1..]);
      }
    }
  }

  lemma TailNodesOk(nodes: seq<seq<Value>>)
    requires nodes != [] && forall i :: 0 <= i < |nodes| ==> NodeOk(nodes[i])
    ensures forall i :: 0 <= i < |nodes[1..]| ==> NodeOk(nodes[1..][i])
    ensures nodes[1..] != [] ==> InNodes(nodes[1..]) != []
  {
    if |nodes| > 1 { assert NodeOk(nodes[1]) && nodes[1..][0] == nodes[1]; }
  }

  lemma HeadNodeOk(head: seq<Value>, rest: seq<seq<Value>>)
    requires NodeOk(head) && forall i :: 0 <= i < |rest| ==> NodeOk(rest[i])
    ensures forall i :: 0 <= i < |[head] + rest| ==> NodeOk(([head] + rest)[i])
    ensures InNodes([head] + rest) == Filled(head) + InNodes(rest)
  {
    assert ([head] + rest)[1..] == rest;
  }

  /** The first of the empty places at the end of a node. */
  method EmptySlot(node: seq<Value>) returns (e: nat)
    requires NodeOk(node) && node[NODE_NUM_VALUES - 1] == EMPTY
    ensures 0 < e < NODE_NUM_VALUES && node[e - 1] != EMPTY
    ensures forall i :: e <= i < NODE_NUM_VALUES ==> node[i] == EMPTY
  {
    e := NODE_NUM_VALUES - 1;
    var i := NODE_NUM_VALUES - 1;
    while i >= 0
      invariant -1 <= i < NODE_NUM_VALUES
      invariant e == if i == NODE_NUM_VALUES - 1 then i else i + 1
      invariant forall j :: e <= j < NODE_NUM_VALUES ==> node[j] == EMPTY
    {
      if node[i] == EMPTY {
        e := i;
      } else {
        break;
      }
      i := i - 1;
    }
    FilledValues(node);
  }

  /** Writing a value right after the last one appends it. */
  lemma FillAt(node: seq<Value>, e: nat, v: Value)
    requires e < |node| && v != EMPTY && forall i :: e <= i < |node| ==> node[i] == EMPTY
    ensures Filled(node[e := v]) == Filled(node) + [v]
  {
    var tail := node[e + 1..];
    assert node == node[..e] + ([EMPTY] + tail);
    assert node[e := v] == node[..e] + ([v] + tail);
    FilledConcat(node[..e], [EMPTY] + tail);
    FilledConcat(node[..e], [v] + tail);
    assert ([EMPTY] + tail)[1..] == tail && ([v] + tail)[1..] == tail;
    FilledValues(tail);
  }

  lemma SlotsBecomeNode(slots: seq<Value>, value: Value)
    requires |slots| == SLOT_NUM_VALUES && value != EMPTY
    ensures var node := (slots + Blank(NODE_NUM_VALUES - SLOT_NUM_VALUES))[SLOT_NUM_VALUES := value];
            NodeOk(node) && Filled(node) == Filled(slots) + [value]
  {
    var blank := Blank(NODE_NUM_VALUES - SLOT_NUM_VALUES);
    FilledConcat(slots, blank);
    FilledValues(blank);
    FillAt(slots + blank, SLOT_NUM_VALUES, value);
  }

  /** queue_t::push while the values are in the slots: the slots may become a node. */
  method PushToSlots(q: Queue, value: Value) returns (q': Queue)
    requires QueueOk(q) && !q.isEmpty && !q.isQueue && value != EMPTY
    ensures QueueOk(q') && !q'.isEmpty && q'.key == q.key && q'.kind == q.kind
    ensures Contents(q') == Contents(q) + [value]
  {
    if q.slots[SLOT_NUM_VALUES - 1] != EMPTY {
      var node := q.slots + Blank(NODE_NUM_VALUES - SLOT_NUM_VALUES);
      node := node[SLOT_NUM_VALUES := value];
      SlotsBecomeNode(q.slots, value);
      q' := q.(isQueue := true, nodes := [node]);
      SingleNode(node);
    } else {
      var i := 0;
      while i < SLOT_NUM_VALUES && q.slots[i] != EMPTY
        invariant 0 <= i <= SLOT_NUM_VALUES
        invariant forall j :: 0 <= j < i ==> q.slots[j] != EMPTY
      {
        i := i + 1;
      }
      FilledValues(q.slots);
      FillAt(q.slots, i, value);
      q' := q.(slots := q.slots[i := value]);
    }
  }

  /** queue_t::push on a list of nodes: into the last node, or a new one. */
  method PushToNodes(nodes: seq<seq<Value>>, value: Value) returns (nodes': seq<seq<Value>>)
    requires nodes != [] && (forall i :: 0 <= i < |nodes| ==> NodeOk(nodes[i])) && value != EMPTY
    ensures nodes' != [] && forall i :: 0 <= i < |nodes'| ==> NodeOk(nodes'[i])
    ensures InNodes(nodes') == InNodes(nodes) + [value]
  {
    var tail := nodes[|nodes| - 1];
    assert NodeOk(tail);
    if tail[NODE_NUM_VALUES - 1] != EMPTY {
      var node := [value] + Blank(NODE_NUM_VALUES - 1);
      FreshNode(value);
      AppendNode(nodes, node);
      nodes' := nodes + [node];
    } else {
      var e := EmptySlot(tail);
      var rest := nodes[..|nodes| - 1];
      assert nodes == rest + [tail];
      FillTail(rest, tail, e, value);
      nodes' := rest + [tail[e := value]];
    }
  }

  lemma FreshNode(value: Value)
    requires value != EMPTY
    ensures var node := [value] + Blank(NODE_NUM_VALUES - 1); NodeOk(node) && Filled(node) == [value]
  {
    FilledCons(value, Blank(NODE_NUM_VALUES - 1));
    FilledValues(Blank(NODE_NUM_VALUES - 1));
  }

  lemma AppendNode(nodes: seq<seq<Value>>, node: seq<Value>)
    ensures InNodes(nodes + [node]) == InNodes(nodes) + Filled(node)
  {
    InNodesConcat(nodes, [node]);
    SingleNode(node);
  }

  lemma Regroup(a: seq<Value>, b: seq<Value>, c: seq<Value>)
    ensures a + (b + c) == (a + b) + c
  {
  }

  lemma FillTail(rest: seq<seq<Value>>, tail: seq<Value>, e: nat, value: Value)
    requires NodeOk(tail) && e < |tail| && value != EMPTY && forall i :: e <= i < |tail| ==> tail[i] == EMPTY
    ensures NodeOk(tail[e := value]) && InNodes(rest + [tail[e := value]]) == InNodes(rest + [tail]) + [value]
  {
    var tail' := tail[e := value];
    FillAt(tail, e, value);
    AppendNode(rest, tail);
    AppendNode(rest, tail');
    Regroup(InNodes(rest), Filled(tail), [value]);
  }

  /** queue_t::push */
  method Push(q: Queue, value: Value) returns (q': Queue)
    requires QueueOk(q) && !q.isEmpty && value != EMPTY
    ensures QueueOk(q') && !q'.isEmpty && q'.key == q.key && q'.kind == q.kind
    ensures Contents(q') == Contents(q) + [value]
  {
    if !q.isQueue {
      q' := PushToSlots(q, value);
    } else {
      var nodes := PushToNodes(q.nodes, value);
      q' := q.(nodes := nodes);
    }
  }

  /** queue_t::setup */
  function Setup(q: Queue, key: Key, kind: Kind, value: Value): Queue {
    q.(isEmpty := false, isQueue := false, key := key, kind := kind,
       slots := [value] + Blank(SLOT_NUM_VALUES - 1))
  }

  lemma SetupContents(q: Queue, key: Key, kind: Kind, value: Value)
    requires value != EMPTY
    ensures QueueOk(Setup(q, key, kind, value)) && Contents(Setup(q, key, kind, value)) == [value]
  {
    var slots := [value] + Blank(SLOT_NUM_VALUES - 1);
    assert slots[1..] == Blank(SLOT_NUM_VALUES - 1);
    FilledValues(slots[1..]);
  }

  // ------------------------------------------------------- chains of buckets

  /** All queues of a chain, in the order they are searched. */
  function Flat(chain: seq<Bucket>): seq<Queue> {
    if chain == [] then [] else chain[0] + Flat(chain[1..])
  }

  lemma FlatCons(bucket: Bucket, rest: seq<Bucket>)
    ensures Flat([bucket] + rest) == bucket + Flat(rest)
  {
    assert ([bucket] + rest)[1..] == rest;
  }

  lemma {:induction false} FlatConcat(a: seq<Bucket>, b: seq<Bucket>)
    ensures Flat(a + b) == Flat(a) + Flat(b)
    decreases |a|
  {
    if a == [] {
      assert a + b == b;
    } else {
      var bucket, rest := a[0], a[1..];
      assert a == [bucket] + rest && a + b == [bucket] + (rest + b);
      FlatCons(bucket, rest);
      FlatCons(bucket, rest + b);
      FlatConcat(rest, b);
      assert (bucket + Flat(rest)) + Flat(b) == bucket + (Flat(rest) + Flat(b));
    }
  }

  lemma FlatSplit(chain: seq<Bucket>, b: nat)
    requires b < |chain|
    ensures Flat(chain) == Flat(chain[..b]) + (chain[b] + Flat(chain[b + 1..]))
  {
    var before, after := chain[..b], chain[b + 1..];
    FlatConcat(before, [chain[b]] + after);
    FlatCons(chain[b], after);
    assert chain == before + ([chain[b]] + after);
  }

  lemma FlatSnoc(chain: seq<Bucket>, bucket: Bucket)
    ensures Flat(chain + [bucket]) == Flat(chain) + bucket
  {
    FlatConcat(chain, [bucket]);
    FlatCons(bucket, []);
    assert [bucket] + [] == [bucket];
  }

  ghost predicate Live(q: Queue, key: Key) { !q.isEmpty && q.key == key }

  ghost predicate Agrees(q: Queue, p: Pending, hash: Key -> nat, h: nat) {
    && QueueOk(q)
    && (!q.isEmpty ==> hash(q.key) == h && q.key in p && p[q.key] == Waiting(q.kind, Contents(q)))
  }

  ghost predicate HasLive(l: seq<Queue>, key: Key) { exists i :: 0 <= i < |l| && Live(l[i], key) }

  /** A list of queues holds exactly the pending entries of hash value h, one queue per key. */
  ghost predicate Holds(l: seq<Queue>, p: Pending, hash: Key -> nat, h: nat) {
    && (forall i :: 0 <= i < |l| ==> Agrees(l[i], p, hash, h))
    && (forall i, j :: 0 <= i < j < |l| && !l[i].isEmpty && !l[j].isEmpty ==> l[i].key != l[j].key)
    && (forall k :: k in p && hash(k) == h ==> HasLive(l, k))
  }

  /** Where an element of a + c stands in a + (e + c). */
  function Shift(i: nat, n: nat, gap: nat): nat { if i < n then i else i + gap }

  lemma Shifted(a: seq<Queue>, e: seq<Queue>, c: seq<Queue>)
    ensures forall i :: 0 <= i < |a + c| ==>
              Shift(i, |a|, |e|) < |a + (e + c)| && (a + c)[i] == (a + (e + c))[Shift(i, |a|, |e|)]
    ensures forall j :: 0 <= j < |a + (e + c)| ==>
              (exists i :: 0 <= i < |a + c| && (a + c)[i] == (a + (e + c))[j]) || (a + (e + c))[j] in e
  {
    var l, l' := a + (e + c), a + c;
    forall j | 0 <= j < |l| ensures (exists i :: 0 <= i < |l'| && l'[i] == l[j]) || l[j] in e {
      if j < |a| { assert l'[j] == l[j]; }
      else if |a| + |e| <= j { assert l'[j - |e|] == l[j]; }
    }
  }

  /** Queues that are all empty may be taken out. */
  lemma DropEmpties(a: seq<Queue>, e: seq<Queue>, c: seq<Queue>, p: Pending, hash: Key -> nat, h: nat)
    requires Holds(a + (e + c), p, hash, h) && forall i :: 0 <= i < |e| ==> e[i].isEmpty
    ensures Holds(a + c, p, hash, h)
  {
    Shifted(a, e, c);
    DropHolds(a + (e + c), a + c, e, |a|, p, hash, h);
  }

  lemma DropHolds(l: seq<Queue>, l': seq<Queue>, e: seq<Queue>, n: nat, p: Pending, hash: Key -> nat, h: nat)
    requires Holds(l, p, hash, h) && forall i :: 0 <= i < |e| ==> e[i].isEmpty
    requires forall i :: 0 <= i < |l'| ==> Shift(i, n, |e|) < |l| && l'[i] == l[Shift(i, n, |e|)]
    requires forall j :: 0 <= j < |l| ==> (exists i :: 0 <= i < |l'| && l'[i] == l[j]) || l[j] in e
    ensures Holds(l', p, hash, h)
  {
    forall i | 0 <= i < |l'| ensures Agrees(l'[i], p, hash, h) {
      assert Agrees(l[Shift(i, n, |e|)], p, hash, h);
    }
    forall k | k in p && hash(k) == h ensures HasLive(l', k) {
      assert HasLive(l, k);
      StillLive(l, l', e, k);
    }
  }

  lemma StillLive(l: seq<Queue>, l': seq<Queue>, e: seq<Queue>, k: Key)
    requires HasLive(l, k) && forall i :: 0 <= i < |e| ==> e[i].isEmpty
    requires forall j :: 0 <= j < |l| ==> (exists i :: 0 <= i < |l'| && l'[i] == l[j]) || l[j] in e
    ensures HasLive(l', k)
  {
    var j :| 0 <= j < |l| && Live(l[j], k);
    var i :| 0 <= i < |l'| && l'[i] == l[j];
    assert Live(l'[i], k);
  }

  lemma AddEmpties(l: seq<Queue>, e: seq<Queue>, p: Pending, hash: Key -> nat, h: nat)
    requires Holds(l, p, hash, h) && forall i :: 0 <= i < |e| ==> e[i].isEmpty
    ensures Holds(l + e, p, hash, h)
  {
    forall k | k in p && hash(k) == h ensures HasLive(l + e, k) {
      assert HasLive(l, k);
      var i :| 0 <= i < |l| && Live(l[i], k);
      assert Live((l + e)[i], k);
    }
  }

  /** Rewriting one queue of a key: the list holds the new pending state. */
  lemma Rewrite(l: seq<Queue>, i: nat, q: Queue, key: Key, p: Pending, p': Pending, hash: Key -> nat, h: nat)
    requires Holds(l, p, hash, h) && i < |l| && hash(key) == h
    requires Live(l[i], key) || (l[i].isEmpty && key !in p)
    requires forall k :: k != key ==> (k in p' <==> k in p) && (k in p ==> p'[k] == p[k])
    requires QueueOk(q) && (q.isEmpty <==> key !in p')
    requires !q.isEmpty ==> q.key == key && p'[key] == Waiting(q.kind, Contents(q))
    ensures Holds(l[i := q], p', hash, h)
  {
    var l' := l[i := q];
    assert forall j :: 0 <= j < |l| && j != i && !l[j].isEmpty ==> l[j].key != key;
    forall j | 0 <= j < |l'| ensures Agrees(l'[j], p', hash, h) {
      if j != i { assert Agrees(l[j], p, hash, h); }
    }
    forall k | k in p' && hash(k) == h ensures HasLive(l', k) {
      if k == key {
        assert Live(l'[i], k);
      } else {
        assert HasLive(l, k);
        var j :| 0 <= j < |l| && Live(l[j], k);
        assert Live(l'[j], k);
      }
    }
  }

  /** Other keys' entries do not matter to a chain. */
  lemma OtherChain(l: seq<Queue>, key: Key, p: Pending, p': Pending, hash: Key -> nat, h: nat)
    requires Holds(l, p, hash, h) && hash(key) != h
    requires forall k :: k != key ==> (k in p' <==> k in p) && (k in p ==> p'[k] == p[k])
    ensures Holds(l, p', hash, h)
  {
    forall j | 0 <= j < |l| ensures Agrees(l[j], p', hash, h) { assert Agrees(l[j], p, hash, h); }
  }

  // ------------------------------------------------------- searching a chain

  datatype Place = Place(bucket: nat, queue: nat)

  /** The for loop over the queues of one bucket. */
  method ScanBucket(bucket: Bucket, key: Key, targetKind: Kind, haveEmpty: bool)
    returns (target: Option<nat>, same: Option<nat>, firstEmpty: Option<nat>, nonempty: bool)
    ensures target.Some? ==> target.value < |bucket| && Live(bucket[target.value], key)
                             && bucket[target.value].kind == targetKind
    ensures same.Some? ==> same.value < |bucket| && Live(bucket[same.value], key)
                           && bucket[same.value].kind != targetKind
    ensures target.None? && same.None? ==> !HasLive(bucket, key)
    ensures firstEmpty.Some? ==> firstEmpty.value < |bucket| && bucket[firstEmpty.value].isEmpty && nonempty
    ensures !haveEmpty && firstEmpty.None? && target.None? && same.None? ==>
              forall i :: 0 <= i < |bucket| ==> !bucket[i].isEmpty
    ensures !nonempty && target.None? && same.None? ==>
              (haveEmpty || |bucket| == 0) && forall i :: 0 <= i < |bucket| ==> bucket[i].isEmpty
  {
    target, same, firstEmpty, nonempty := None, None, None, false;
    for i := 0 to |bucket|
      invariant target.None? && same.None? && !HasLive(bucket[..i], key)
      invariant firstEmpty.Some? ==> firstEmpty.value < |bucket| && bucket[firstEmpty.value].isEmpty && nonempty
      invariant !haveEmpty && firstEmpty.None? ==> forall j :: 0 <= j < i ==> !bucket[j].isEmpty
      invariant !nonempty ==> (haveEmpty || i == 0) && forall j :: 0 <= j < i ==> bucket[j].isEmpty
    {
      assert bucket[..i + 1] == bucket[..i] + [bucket[i]];
      LiveSnoc(bucket[..i], bucket[i], key);
      if bucket[i].isEmpty {
        if !haveEmpty && firstEmpty.None? {
          firstEmpty := Some(i);
          nonempty := true;
        }
        continue;
      } else {
        nonempty := true;
      }
      if bucket[i].key == key {
        if bucket[i].kind == targetKind {
          target := Some(i);
        } else {
          same := Some(i);
        }
        break;
      }
    }
    if target.None? && same.None? { assert bucket[..|bucket|] == bucket; }
  }

  lemma LiveSnoc(l: seq<Queue>, q: Queue, key: Key)
    ensures HasLive(l + [q], key) <==> HasLive(l, key) || Live(q, key)
  {
    if HasLive(l, key) {
      var i :| 0 <= i < |l| && Live(l[i], key);
      assert Live((l + [q])[i], key);
    }
    if Live(q, key) { assert Live((l + [q])[|l|], key); }
  }

  lemma LiveConcat(a: seq<Queue>, b: seq<Queue>, key: Key)
    ensures HasLive(a + b, key) <==> HasLive(a, key) || HasLive(b, key)
  {
    if HasLive(a, key) {
      var i :| 0 <= i < |a| && Live(a[i], key);
      assert Live((a + b)[i], key);
    }
    if HasLive(b, key) {
      var i :| 0 <= i < |b| && Live(b[i], key);
      assert Live((a + b)[|a| + i], key);
    }
  }

  ghost predicate In(chain: seq<Bucket>, w: Place) { w.bucket < |chain| && w.queue < |chain[w.bucket]| }

  function At(chain: seq<Bucket>, w: Place): Queue
    requires In(chain, w)
  {
    chain[w.bucket][w.queue]
  }

  ghost predicate ChainOk(chain: seq<Bucket>) {
    chain != [] && forall b :: 0 <= b < |chain| ==> chain[b] != []
  }

  method Unlink(chain: seq<Bucket>, b: nat, ghost p: Pending, ghost hash: Key -> nat, ghost h: nat)
    returns (chain': seq<Bucket>)
    requires ChainOk(chain) && Holds(Flat(chain), p, hash, h) && 0 < b < |chain|
    requires forall i :: 0 <= i < |chain[b]| ==> chain[b][i].isEmpty
    ensures ChainOk(chain') && Holds(Flat(chain'), p, hash, h)
    ensures |chain'| == |chain| - 1 && chain'[..b] == chain[..b]
  {
    ghost var before, after := chain[..b], chain[b + 1..];
    FlatSplit(chain, b);
    DropEmpties(Flat(before), chain[b], Flat(after), p, hash, h);
    FlatConcat(before, after);
    chain' := chain[..b] + chain[b + 1..];
  }

  lemma PassBucket(chain: seq<Bucket>, b: nat, key: Key)
    requires b < |chain| && !HasLive(Flat(chain[..b]), key) && !HasLive(chain[b], key)
    ensures !HasLive(Flat(chain[..b + 1]), key)
  {
    FlatSnoc(chain[..b], chain[b]);
    assert chain[..b + 1] == chain[..b] + [chain[b]];
    LiveConcat(Flat(chain[..b]), chain[b], key);
  }

  /** The while loop over the chain.  Empty buckets that come after a first empty queue are
      unlinked on the way. */
  method Search(chain: seq<Bucket>, key: Key, targetKind: Kind, ghost p: Pending, ghost hash: Key -> nat, ghost h: nat)
    returns (chain': seq<Bucket>, target: Option<Place>, same: Option<Place>, firstEmpty: Option<Place>)
    requires ChainOk(chain) && Holds(Flat(chain), p, hash, h)
    ensures ChainOk(chain') && Holds(Flat(chain'), p, hash, h)
    ensures target.Some? ==> In(chain', target.value) && Live(At(chain', target.value), key)
                             && At(chain', target.value).kind == targetKind
    ensures same.Some? ==> In(chain', same.value) && Live(At(chain', same.value), key)
                           && At(chain', same.value).kind != targetKind
    ensures target.None? && same.None? ==> !HasLive(Flat(chain'), key)
    ensures firstEmpty.Some? ==> In(chain', firstEmpty.value) && At(chain', firstEmpty.value).isEmpty
  {
    chain', target, same, firstEmpty := chain, None, None, None;
    var b := 0;
    while b < |chain'|
      invariant 0 <= b <= |chain'| && ChainOk(chain') && Holds(Flat(chain'), p, hash, h)
      invariant target.None? && same.None? && !HasLive(Flat(chain'[..b]), key)
      invariant firstEmpty.Some? ==> In(chain', firstEmpty.value) && At(chain', firstEmpty.value).isEmpty
                                     && firstEmpty.value.bucket < b
      decreases |chain'| - b
    {
      var t, s, e, nonempty := ScanBucket(chain'[b], key, targetKind, firstEmpty.Some?);
      if e.Some? {
        firstEmpty := Some(Place(b, e.value));
      }
      if t.Some? {
        target := Some(Place(b, t.value));
        break;
      }
      if s.Some? {
        same := Some(Place(b, s.value));
        break;
      }
      if !nonempty && b > 0 {
        // unlink the bucket; the next one takes its place
        chain' := Unlink(chain', b, p, hash, h);
      } else {
        PassBucket(chain', b, key);
        b := b + 1;
      }
    }
    if target.None? && same.None? { assert chain'[..b] == chain'; }
  }

  // ------------------------------------------------------- the engine

  function Put(chain: seq<Bucket>, w: Place, q: Queue): seq<Bucket>
    requires w.bucket < |chain| && w.queue < |chain[w.bucket]|
  {
    chain[w.bucket := chain[w.bucket][w.queue := q]]
  }

  lemma FlatPut(chain: seq<Bucket>, w: Place, q: Queue)
    requires In(chain, w)
    ensures var i := FlatIndex(chain, w);
            i < |Flat(chain)| && Flat(chain)[i] == At(chain, w) && Flat(Put(chain, w, q)) == Flat(chain)[i := q]
  {
    var chain' := Put(chain, w, q);
    var b := w.bucket;
    FlatSplit(chain, b);
    FlatSplit(chain', b);
    assert chain'[..b] == chain[..b] && chain'[b + 1..] == chain[b + 1..];
    MiddlePut(Flat(chain[..b]), chain[b], Flat(chain[b + 1..]), w.queue, q);
  }

  lemma MiddlePut(x: seq<Queue>, y: seq<Queue>, z: seq<Queue>, j: nat, q: Queue)
    requires j < |y|
    ensures (x + (y + z))[|x| + j] == y[j] && x + (y[j := q] + z) == (x + (y + z))[|x| + j := q]
  {
  }

  lemma PutHolds(chain: seq<Bucket>, w: Place, q: Queue, key: Key, p: Pending, p': Pending, hash: Key -> nat, h: nat)
    requires ChainOk(chain) && Holds(Flat(chain), p, hash, h) && In(chain, w) && hash(key) == h
    requires Live(At(chain, w), key) || (At(chain, w).isEmpty && key !in p)
    requires Elsewhere(p, p', key)
    requires QueueOk(q) && (q.isEmpty <==> key !in p')
    requires !q.isEmpty ==> q.key == key && p'[key] == Waiting(q.kind, Contents(q))
    ensures ChainOk(Put(chain, w, q)) && Holds(Flat(Put(chain, w, q)), p', hash, h)
  {
    var l, i := Flat(chain), FlatIndex(chain, w);
    FlatPut(chain, w, q);
    Rewrite(l, i, q, key, p, p', hash, h);
  }

  function FlatIndex(chain: seq<Bucket>, w: Place): nat
    requires w.bucket < |chain|
  {
    |Flat(chain[..w.bucket])| + w.queue
  }

  /** Nothing changes for other keys. */
  ghost predicate Elsewhere(p: Pending, p': Pending, key: Key) {
    forall k :: k != key ==> (k in p' <==> k in p) && (k in p ==> p'[k] == p[k])
  }

  /** What a live queue says about its key. */
  lemma LiveIsPending(chain: seq<Bucket>, w: Place, key: Key, p: Pending, hash: Key -> nat, h: nat)
    requires Holds(Flat(chain), p, hash, h) && In(chain, w) && Live(At(chain, w), key)
    ensures QueueOk(At(chain, w)) && key in p && p[key] == Waiting(At(chain, w).kind, Contents(At(chain, w)))
  {
    FlatPut(chain, w, At(chain, w));
    assert Agrees(Flat(chain)[FlatIndex(chain, w)], p, hash, h);
  }

  lemma NotPending(l: seq<Queue>, key: Key, p: Pending, hash: Key -> nat, h: nat)
    requires Holds(l, p, hash, h) && hash(key) == h && !HasLive(l, key)
    ensures key !in p
  {
  }

  /** insert for a key that has no queue: set up the first empty queue, or one in a new bucket. */
  method AddQueue(chain: seq<Bucket>, firstEmpty: Option<Place>, key: Key, value: Value, kind: Kind,
                  ghost p: Pending, ghost hash: Key -> nat, ghost h: nat)
    returns (chain': seq<Bucket>)
    requires ChainOk(chain) && Holds(Flat(chain), p, hash, h) && hash(key) == h && value != EMPTY && key !in p
    requires firstEmpty.Some? ==> In(chain, firstEmpty.value) && At(chain, firstEmpty.value).isEmpty
    ensures ChainOk(chain') && Holds(Flat(chain'), p[key := Waiting(kind, [value])], hash, h)
  {
    chain' := chain;
    var w := Place(|chain|, 0);
    if firstEmpty.None? {
      var nqueues := |chain[|chain| - 1]| * 2 + 1;
      var bucket := seq(nqueues, _ => NewQueue());
      AddEmpties(Flat(chain), bucket, p, hash, h);
      FlatSnoc(chain, bucket);
      chain' := chain + [bucket];
    } else {
      w := firstEmpty.value;
    }
    var q := Setup(At(chain', w), key, kind, value);
    SetupContents(At(chain', w), key, kind, value);
    PutHolds(chain', w, q, key, p, p[key := Waiting(kind, [value])], hash, h);
    chain' := Put(chain', w, q);
  }

  /** The second half of insert: pop the matching queue, append to the queue of the same kind, or
      set up an empty queue, growing the chain when there is none. */
  method InsertInChain(chain: seq<Bucket>, key: Key, value: Value, kind: Kind, ghost p: Pending,
                       ghost hash: Key -> nat, ghost h: nat)
    returns (chain': seq<Bucket>, ret: Value)
    requires ChainOk(chain) && Holds(Flat(chain), p, hash, h) && hash(key) == h && value != EMPTY
    ensures ChainOk(chain') && Holds(Flat(chain'), Apply(p, Op(key, value, kind)).0, hash, h)
    ensures ret == Apply(p, Op(key, value, kind)).1
  {
    ghost var p' := Apply(p, Op(key, value, kind)).0;
    var target, same, firstEmpty;
    chain', target, same, firstEmpty := Search(chain, key, Opposite(kind), p, hash, h);
    if target.Some? {
      var w := target.value;
      LiveIsPending(chain', w, key, p, hash, h);
      var q;
      q, ret := Pop(At(chain', w));
      assert Contents(At(chain', w))[1..] == Contents(q);
      PutHolds(chain', w, q, key, p, p', hash, h);
      chain' := Put(chain', w, q);
    } else if same.Some? {
      var w := same.value;
      LiveIsPending(chain', w, key, p, hash, h);
      var q := Push(At(chain', w), value);
      ret := EMPTY;
      PutHolds(chain', w, q, key, p, p', hash, h);
      chain' := Put(chain', w, q);
    } else {
      NotPending(Flat(chain'), key, p, hash, h);
      chain' := AddQueue(chain', firstEmpty, key, value, kind, p, hash, h);
      ret := EMPTY;
    }
  }

  class MapEngine {
    const hash: Key -> nat
    var table: seq<seq<Bucket>>
    ghost var pending: Pending

    ghost predicate Valid()
      reads this
    {
      && PendingOk(pending)
      && (forall k: Key :: hash(k) < |table|)
      && (forall h :: 0 <= h < |table| ==> ChainOk(table[h]) && Holds(Flat(table[h]), pending, hash, h))
    }

    constructor (hash: Key -> nat, nbuckets: nat)
      requires forall k: Key :: hash(k) < nbuckets
      ensures Valid() && pending == map[] && this.hash == hash
    {
      var bucket := seq(BUCKET_NUM_QUEUES_DEFAULT, _ => NewQueue());
      this.hash := hash;
      table := seq(nbuckets, _ => [bucket]);
      pending := map[];
      FlatCons(bucket, []);
      assert [bucket] + [] == [bucket];
    }

    /** matching_engine_map_t::insert */
    method Insert(key: Key, value: Value, kind: Kind) returns (ret: Value)
      requires Valid() && value != EMPTY
      modifies this
      ensures Valid()
      ensures pending == Apply(old(pending), Op(key, value, kind)).0
      ensures ret == Apply(old(pending), Op(key, value, kind)).1
    {
      var h := hash(key);
      ghost var p, op := pending, Op(key, value, kind);
      var chain;
      chain, ret := InsertInChain(table[h], key, value, kind, p, hash, h);
      ApplyKeeps(p, op);
      forall g | 0 <= g < |table| && g != h ensures Holds(Flat(table[g]), Apply(p, op).0, hash, g) {
        OtherChain(Flat(table[g]), key, p, Apply(p, op).0, hash, g);
      }
      table := table[h := chain];
      pending := Apply(p, op).0;
    }
  }

  // ------------------------------------------------------- the two engines agree

  /** Driven with any sequence of inserts, both engines return the same values, which are the ones
      that first-come-first-served pairing prescribes. */
  method DriveBoth(fast: MapEngine, simple: QueueEngine, ops: seq<Op>) returns (a: seq<Value>, b: seq<Value>)
    requires fast.Valid() && simple.Valid() && fast.pending == map[] && simple.pending == map[] && NonNull(ops)
    modifies fast, simple
    ensures fast.Valid() && simple.Valid() && fast.pending == simple.pending == Run(ops).0
    ensures a == b == Run(ops).1
  {
    a, b := [], [];
    assert ops[..0] == [];
    for i := 0 to |ops|
      invariant fast.Valid() && simple.Valid() && fast.pending == simple.pending == Run(ops[..i]).0
      invariant a == b == Run(ops[..i]).1
    {
      assert ops[..i + 1][..i] == ops[..i];
      var x := fast.Insert(ops[i].key, ops[i].value, ops[i].kind);
      var y := simple.Insert(ops[i].key, ops[i].value, ops[i].kind);
      a, b := a + [x], b + [y];
    }
    assert ops[..|ops|] == ops;
  }
}
