/** The receive credits of a device (src/network/device_inline.hpp): concurrent calls of
    post_recv_packets share one counter, which they raise by a whole batch before they know how many
    receives they can post. */
module RecvCredits {
  import opened Sums

  type Packet = nat

  /** Where a call of post_recv_packets is, or a poll that took completions off the network. */
  datatype Pc =
    | Idle
    | Adding // the counter was below the limit
    | Reserved(nslots: nat) // the batch was added, nslots receives may be posted
    | Holding(nslots: nat, posted: nat, packets: seq<Packet>) // posted so far, and packets still in hand
    | PuttingBack(posted: nat, packets: seq<Packet>) // these packets are left over
    | Subtracting(n: nat) // the counter goes down by n
    | Processing(done: seq<Packet>) // completions that were not processed yet

  /** counter is nrecvs_posted; posted are the packets that the network really holds for receives,
      pool the free packets and delivered those that came back with a message. */
  datatype State = State(counter: int, posted: multiset<Packet>, pool: multiset<Packet>, delivered: multiset<Packet>,
                         pcs: seq<Pc>)

  /** The limit net_max_recvs and the batch size, twice LCI_BACKEND_MAX_POLLS. */
  datatype Params = Params(max: nat, batch: nat)

  /** Call post_recv_packets; go on, where `popped` is what get_n returns and `ok` whether the network
      accepts the next receive; take completions of the posted receives `done` off the network; or give
      a delivered packet back to the pool, which any thread may do at any time. */
  datatype Choice = Call | Go(popped: seq<Packet>, ok: bool) | Complete(done: seq<Packet>) | Return(packet: Packet)

  function SetPc(s: State, t: nat, pc: Pc): State
    requires t < |s.pcs|
  {
    s.(pcs := s.pcs[t := pc])
  }

  function GoStep(p: Params, s: State, t: nat, popped: seq<Packet>, ok: bool): State
    requires t < |s.pcs|
  {
    match s.pcs[t]
    case Idle => s
    case Adding =>
      var position := s.counter;
      var s := s.(counter := s.counter + p.batch);
      SetPc(s, t, if position >= p.max then Subtracting(p.batch)
                  else if p.max - position < p.batch then Reserved(p.max - position)
                  else Reserved(p.batch))
    case Reserved(nslots) =>
      if popped == [] then SetPc(s, t, Subtracting(p.batch))
      else if |popped| <= nslots && multiset(popped) <= s.pool then
        SetPc(s.(pool := s.pool - multiset(popped)), t, Holding(nslots, 0, popped))
      else s
    case Holding(nslots, posted, packets) =>
      if packets != [] && ok then
        SetPc(s.(posted := s.posted + multiset{packets[0]}), t, Holding(nslots, posted + 1, packets[1..]))
      else SetPc(s, t, PuttingBack(posted, packets))
    case PuttingBack(posted, packets) =>
      if packets != [] then
        SetPc(s.(pool := s.pool + multiset{packets[0]}), t, PuttingBack(posted, packets[1..]))
      else SetPc(s, t, if posted < p.batch then Subtracting(p.batch - posted) else Idle)
    case Subtracting(k) => SetPc(s.(counter := s.counter - k), t, Idle)
    case Processing(done) =>
      // consume_recvs(1), then the message is handed on
      if done == [] then SetPc(s, t, Idle)
      else SetPc(s.(counter := s.counter - 1, delivered := s.delivered + multiset{done[0]}), t, Processing(done[1..]))
  }

  function Step(p: Params, s: State, t: nat, c: Choice): (s': State)
    ensures |s'.pcs| == |s.pcs|
  {
    if t >= |s.pcs| then s else
      match c
      case Call => if s.pcs[t].Idle? && s.counter < p.max then SetPc(s, t, Adding) else s
      case Go(popped, ok) => GoStep(p, s, t, popped, ok)
      case Complete(done) =>
        if s.pcs[t].Idle? && multiset(done) <= s.posted then
          SetPc(s.(posted := s.posted - multiset(done)), t, Processing(done))
        else s
      case Return(x) =>
        if x in s.delivered then s.(delivered := s.delivered - multiset{x}, pool := s.pool + multiset{x}) else s
  }

  ghost predicate Initial(s: State) {
    && s.counter == 0 && s.posted == multiset{} && s.delivered == multiset{}
    && forall t :: 0 <= t < |s.pcs| ==> s.pcs[t] == Idle
  }

  ghost function Exec(p: Params, s0: State, trace: seq<(nat, Choice)>): (s: State)
    ensures |s.pcs| == |s0.pcs|
  {
    if trace == [] then s0 else
      var e := trace[|trace| - 1];
      Step(p, Exec(p, s0, trace[..|trace| - 1]), e.0, e.1)
  }

  // ------------------------------------------------------- what each caller stands for

  /** How much of the counter belongs to a caller. */
  function Weight(p: Params, pc: Pc): nat {
    match pc
    case Reserved(_) => p.batch
    case Holding(_, posted, _) => if posted < p.batch then p.batch - posted else 0
    case PuttingBack(posted, _) => if posted < p.batch then p.batch - posted else 0
    case Subtracting(n) => n
    case Processing(done) => |done|
    case _ => 0
  }

  /** How many receives a caller may still post. */
  function Promise(pc: Pc): nat {
    match pc
    case Reserved(nslots) => nslots
    case Holding(nslots, posted, _) => if posted < nslots then nslots - posted else 0
    case _ => 0
  }

  function Held(pc: Pc): seq<Packet> {
    match pc
    case Holding(_, _, packets) => packets
    case PuttingBack(_, packets) => packets
    case Processing(done) => done
    case _ => []
  }

  function Weights(p: Params, pcs: seq<Pc>): seq<nat> {
    seq(|pcs|, t requires 0 <= t < |pcs| => Weight(p, pcs[t]))
  }

  function Promises(pcs: seq<Pc>): seq<nat> {
    seq(|pcs|, t requires 0 <= t < |pcs| => Promise(pcs[t]))
  }

  /** How often packet x is in a caller's hands. */
  function Helds(pcs: seq<Pc>, x: Packet): seq<nat> {
    seq(|pcs|, t requires 0 <= t < |pcs| => multiset(Held(pcs[t]))[x])
  }

  function Copies(s: State, x: Packet): nat {
    s.pool[x] + s.posted[x] + s.delivered[x] + Sum(Helds(s.pcs, x))
  }

  ghost predicate PcOk(p: Params, pc: Pc) {
    && (pc.Reserved? ==> pc.nslots <= p.batch)
    && (pc.Holding? ==> pc.posted + |pc.packets| <= pc.nslots <= p.batch)
    && (pc.PuttingBack? ==> pc.posted <= p.batch)
  }

  ghost predicate Inv(p: Params, s: State) {
    && (forall t :: 0 <= t < |s.pcs| ==> PcOk(p, s.pcs[t]))
    && s.counter == |s.posted| + Sum(Weights(p, s.pcs))
    && |s.posted| + Sum(Promises(s.pcs)) <= p.max
  }

  // ------------------------------------------------------- each step keeps it

  lemma WeightsStep(p: Params, pcs: seq<Pc>, t: nat, pc: Pc)
    requires t < |pcs|
    ensures Sum(Weights(p, pcs[t := pc])) == Sum(Weights(p, pcs)) - Weight(p, pcs[t]) + Weight(p, pc)
  {
    SumUpdate(Weights(p, pcs), t, Weight(p, pc));
    assert Weights(p, pcs[t := pc]) == Weights(p, pcs)[t := Weight(p, pc)];
  }

  lemma PromisesStep(pcs: seq<Pc>, t: nat, pc: Pc)
    requires t < |pcs|
    ensures Sum(Promises(pcs[t := pc])) == Sum(Promises(pcs)) - Promise(pcs[t]) + Promise(pc)
  {
    SumUpdate(Promises(pcs), t, Promise(pc));
    assert Promises(pcs[t := pc]) == Promises(pcs)[t := Promise(pc)];
  }

  /** A caller never promises more than it added to the counter. */
  lemma {:induction false} PromiseBelowWeight(p: Params, pcs: seq<Pc>)
    requires forall t :: 0 <= t < |pcs| ==> PcOk(p, pcs[t])
    ensures Sum(Promises(pcs)) <= Sum(Weights(p, pcs))
    decreases |pcs|
  {
    if pcs != [] {
      var front := pcs[..|pcs| - 1];
      PromiseBelowWeight(p, front);
      assert Promises(pcs)[..|front|] == Promises(front) && Weights(p, pcs)[..|front|] == Weights(p, front);
    }
  }

  /** What of the counter is not the caller's own. */
  function Foreign(p: Params, s: State, t: nat): int
    requires t < |s.pcs|
  {
    s.counter - |s.posted| - Weight(p, s.pcs[t])
  }

  lemma CompleteShare(p: Params, s: State, t: nat, done: seq<Packet>)
    requires t < |s.pcs|
    ensures Foreign(p, Step(p, s, t, Complete(done)), t) == Foreign(p, s, t)
  {
    SizeRemoved(s.posted, done);
  }

  lemma CountShare(p: Params, s: State, t: nat, popped: seq<Packet>, ok: bool)
    requires t < |s.pcs| && PcOk(p, s.pcs[t])
    ensures Foreign(p, GoStep(p, s, t, popped, ok), t) == Foreign(p, s, t)
  {
  }

  lemma PcStep(p: Params, s: State, t: nat, c: Choice)
    requires t < |s.pcs| && PcOk(p, s.pcs[t])
    ensures PcOk(p, Step(p, s, t, c).pcs[t])
  {
  }

  /** What a step adds to the counter or posts is the caller's own share. */
  lemma OwnShare(p: Params, s: State, t: nat, c: Choice)
    requires t < |s.pcs| && PcOk(p, s.pcs[t])
    ensures PcOk(p, Step(p, s, t, c).pcs[t]) && Foreign(p, Step(p, s, t, c), t) == Foreign(p, s, t)
  {
    PcStep(p, s, t, c);
    match c
    case Call =>
    case Complete(done) => CompleteShare(p, s, t, done);
    case Go(popped, ok) => CountShare(p, s, t, popped, ok);
    case Return(_) =>
  }

  lemma SizeRemoved(m: multiset<Packet>, a: seq<Packet>)
    ensures multiset(a) <= m ==> |m - multiset(a)| == |m| - |a|
  {
    if multiset(a) <= m {
      assert m == (m - multiset(a)) + multiset(a);
    }
  }

  /** What a caller has posted and may still post. */
  function Claim(s: State, t: nat): int
    requires t < |s.pcs|
  {
    |s.posted| + Promise(s.pcs[t])
  }

  lemma PostPromise(p: Params, s: State, t: nat, popped: seq<Packet>, ok: bool)
    requires t < |s.pcs| && PcOk(p, s.pcs[t]) && s.pcs[t].Holding?
    ensures Claim(GoStep(p, s, t, popped, ok), t) <= Claim(s, t)
  {
  }

  lemma GoPromise(p: Params, s: State, t: nat, popped: seq<Packet>, ok: bool)
    requires t < |s.pcs| && !s.pcs[t].Holding? && s.counter >= |s.posted|
    ensures var gained := Claim(GoStep(p, s, t, popped, ok), t) - Claim(s, t);
            gained <= 0 || s.counter + gained <= p.max
  {
  }

  lemma CompletePromise(p: Params, s: State, t: nat, done: seq<Packet>)
    requires t < |s.pcs|
    ensures Claim(Step(p, s, t, Complete(done)), t) <= Claim(s, t)
  {
    SizeRemoved(s.posted, done);
  }

  /** A caller gets a promise only for what is left above the counter, and posts within its promise. */
  lemma OwnPromise(p: Params, s: State, t: nat, c: Choice)
    requires t < |s.pcs| && PcOk(p, s.pcs[t]) && s.counter >= |s.posted|
    ensures var s' := Step(p, s, t, c);
            var gained := |s'.posted| + Promise(s'.pcs[t]) - |s.posted| - Promise(s.pcs[t]);
            gained <= 0 || s.counter + gained <= p.max
  {
    match c
    case Call =>
    case Complete(done) => CompletePromise(p, s, t, done);
    case Return(_) =>
    case Go(popped, ok) =>
      if s.pcs[t].Holding? {
        PostPromise(p, s, t, popped, ok);
      } else {
        GoPromise(p, s, t, popped, ok);
      }
  }

  lemma StepKeeps(p: Params, s: State, t: nat, c: Choice)
    requires Inv(p, s)
    ensures Inv(p, Step(p, s, t, c))
  {
    if t < |s.pcs| {
      assert PcOk(p, s.pcs[t]);
      PromiseBelowWeight(p, s.pcs);
      OthersStay(p, s, t, c);
      OwnShare(p, s, t, c);
      OwnPromise(p, s, t, c);
      WeightsStep(p, s.pcs, t, Step(p, s, t, c).pcs[t]);
      PromisesStep(s.pcs, t, Step(p, s, t, c).pcs[t]);
    }
  }

  lemma OthersStay(p: Params, s: State, t: nat, c: Choice)
    requires t < |s.pcs|
    ensures Step(p, s, t, c).pcs == s.pcs[t := Step(p, s, t, c).pcs[t]]
  {
  }

  lemma FirstCount(packets: seq<Packet>, x: Packet)
    requires packets != []
    ensures multiset(packets)[x] == multiset{packets[0]}[x] + multiset(packets[1..])[x]
  {
    assert packets == [packets[0]] + packets[1..];
  }

  /** How often packet x is somewhere thread t could move it from or to. */
  function Reachable(s: State, t: nat, x: Packet): nat
    requires t < |s.pcs|
  {
    s.pool[x] + s.posted[x] + s.delivered[x] + multiset(Held(s.pcs[t]))[x]
  }

  lemma PostMoves(p: Params, s: State, t: nat, popped: seq<Packet>, ok: bool, x: Packet)
    requires t < |s.pcs| && s.pcs[t].Holding?
    ensures Reachable(GoStep(p, s, t, popped, ok), t, x) == Reachable(s, t, x)
  {
    if s.pcs[t].packets != [] && ok {
      FirstCount(s.pcs[t].packets, x);
    }
  }

  lemma PutBackMoves(p: Params, s: State, t: nat, popped: seq<Packet>, ok: bool, x: Packet)
    requires t < |s.pcs| && s.pcs[t].PuttingBack?
    ensures Reachable(GoStep(p, s, t, popped, ok), t, x) == Reachable(s, t, x)
  {
    if s.pcs[t].packets != [] {
      FirstCount(s.pcs[t].packets, x);
    }
  }

  lemma ProcessMoves(p: Params, s: State, t: nat, popped: seq<Packet>, ok: bool, x: Packet)
    requires t < |s.pcs| && s.pcs[t].Processing?
    ensures Reachable(GoStep(p, s, t, popped, ok), t, x) == Reachable(s, t, x)
  {
    if s.pcs[t].done != [] {
      FirstCount(s.pcs[t].done, x);
    }
  }

  lemma PoolMoves(p: Params, s: State, t: nat, popped: seq<Packet>, ok: bool, x: Packet)
    requires t < |s.pcs| && Held(s.pcs[t]) == [] && !s.pcs[t].Holding? && !s.pcs[t].PuttingBack?
    requires !s.pcs[t].Processing?
    ensures Reachable(GoStep(p, s, t, popped, ok), t, x) == Reachable(s, t, x)
  {
  }

  lemma CompleteMoves(p: Params, s: State, t: nat, done: seq<Packet>, x: Packet)
    requires t < |s.pcs|
    ensures Reachable(Step(p, s, t, Complete(done)), t, x) == Reachable(s, t, x)
  {
  }

  /** A step moves a packet between the pool, the caller, the network and the receivers. */
  lemma PacketMoves(p: Params, s: State, t: nat, c: Choice, x: Packet)
    requires t < |s.pcs|
    ensures Reachable(Step(p, s, t, c), t, x) == Reachable(s, t, x)
  {
    match c
    case Call =>
    case Complete(done) => CompleteMoves(p, s, t, done, x);
    case Return(_) =>
    case Go(popped, ok) =>
      match s.pcs[t] {
        case Holding(_, _, _) => PostMoves(p, s, t, popped, ok, x);
        case PuttingBack(_, _) => PutBackMoves(p, s, t, popped, ok, x);
        case Processing(_) => ProcessMoves(p, s, t, popped, ok, x);
        case _ => PoolMoves(p, s, t, popped, ok, x);
      }
  }

  lemma StepConserves(p: Params, s: State, t: nat, c: Choice, x: Packet)
    ensures Copies(Step(p, s, t, c), x) == Copies(s, x)
  {
    if t < |s.pcs| {
      var s' := Step(p, s, t, c);
      PacketMoves(p, s, t, c, x);
      OthersStay(p, s, t, c);
      SumUpdate(Helds(s.pcs, x), t, multiset(Held(s'.pcs[t]))[x]);
      assert Helds(s'.pcs, x) == Helds(s.pcs, x)[t := multiset(Held(s'.pcs[t]))[x]];
    }
  }

  // ------------------------------------------------------- main results

  /** In every run: the receives really posted plus those promised to callers in flight never exceed
      the limit, and the counter never falls below the number really posted. */
  lemma {:induction false} NeverOverPosted(p: Params, s0: State, trace: seq<(nat, Choice)>)
    requires Initial(s0)
    ensures var s := Exec(p, s0, trace);
            Inv(p, s) && |s.posted| + Sum(Promises(s.pcs)) <= p.max && s.counter >= |s.posted|
  {
    if trace == [] {
      SumZero(Weights(p, s0.pcs));
      SumZero(Promises(s0.pcs));
    } else {
      var before, e := trace[..|trace| - 1], trace[|trace| - 1];
      NeverOverPosted(p, s0, before);
      StepKeeps(p, Exec(p, s0, before), e.0, e.1);
    }
  }

  /** In every run each packet stays where it can be accounted for: in the pool, in the hands of a
      caller, posted, or delivered and not yet returned. When no call is in progress, every packet that
      was popped is posted, delivered or back in the pool, and the counter is the number posted. */
  lemma {:induction false} PacketsPostedOrPutBack(p: Params, s0: State, trace: seq<(nat, Choice)>, x: Packet)
    requires Initial(s0)
    ensures var s := Exec(p, s0, trace);
            && Copies(s, x) == s0.pool[x]
            && ((forall t :: 0 <= t < |s.pcs| ==> s.pcs[t] == Idle) ==>
                  s.pool[x] + s.posted[x] + s.delivered[x] == s0.pool[x] && s.counter == |s.posted|)
  {
    var s := Exec(p, s0, trace);
    NeverOverPosted(p, s0, trace);
    if trace == [] {
      SumZero(Helds(s0.pcs, x));
    } else {
      var before, e := trace[..|trace| - 1], trace[|trace| - 1];
      PacketsPostedOrPutBack(p, s0, before, x);
      StepConserves(p, Exec(p, s0, before), e.0, e.1, x);
    }
    if forall t :: 0 <= t < |s.pcs| ==> s.pcs[t] == Idle {
      SumZero(Helds(s.pcs, x));
      SumZero(Weights(p, s.pcs));
    }
  }

  // ------------------------------------------------------- an undisturbed call

  /** Thread t makes these choices one after the other, and nobody else does anything. */
  function Alone(p: Params, s: State, t: nat, cs: seq<Choice>): (s': State)
    ensures |s'.pcs| == |s.pcs|
    decreases |cs|
  {
    if cs == [] then s else Alone(p, Step(p, s, t, cs[0]), t, cs[1..])
  }

  lemma {:induction false} AloneConcat(p: Params, s: State, t: nat, a: seq<Choice>, b: seq<Choice>)
    ensures Alone(p, s, t, a + b) == Alone(p, Alone(p, s, t, a), t, b)
    decreases |a|
  {
    if a == [] {
      assert a + b == b;
    } else {
      AloneConcat(p, Step(p, s, t, a[0]), t, a[1..], b);
      assert (a + b)[0] == a[0] && (a + b)[1..] == a[1..] + b;
    }
  }

  lemma AloneOne(p: Params, s: State, t: nat, c: Choice)
    ensures Alone(p, s, t, [c]) == Step(p, s, t, c)
  {
    assert [c][1..] == [];
  }

  lemma FirstOf(m: multiset<Packet>, packets: seq<Packet>, k: nat)
    requires 0 < k <= |packets|
    ensures m + multiset{packets[0]} + multiset(packets[1..][..k - 1]) == m + multiset(packets[..k])
    ensures packets[1..][k - 1..] == packets[k..]
  {
    assert packets[..k] == [packets[0]] + packets[1..][..k - 1];
  }

  lemma PostStep(p: Params, s: State, t: nat, nslots: nat, posted: nat, packets: seq<Packet>)
    requires t < |s.pcs| && s.pcs[t] == Holding(nslots, posted, packets) && packets != []
    ensures Step(p, s, t, Go([], true))
         == SetPc(s.(posted := s.posted + multiset{packets[0]}), t, Holding(nslots, posted + 1, packets[1..]))
  {
  }

  /** The first k packets are posted, the others are to be put back. */
  function PostedFirst(s: State, t: nat, posted: nat, packets: seq<Packet>, k: nat): State
    requires t < |s.pcs| && k <= |packets|
  {
    SetPc(s.(posted := s.posted + multiset(packets[..k])), t, PuttingBack(posted + k, packets[k..]))
  }

  lemma PostedTwice(p: Params, s: State, t: nat, nslots: nat, posted: nat, packets: seq<Packet>, k: nat)
    requires t < |s.pcs| && s.pcs[t] == Holding(nslots, posted, packets) && 0 < k <= |packets|
    ensures Step(p, s, t, Go([], true)).pcs[t] == Holding(nslots, posted + 1, packets[1..])
    ensures PostedFirst(Step(p, s, t, Go([], true)), t, posted + 1, packets[1..], k - 1)
         == PostedFirst(s, t, posted, packets, k)
  {
    PostStep(p, s, t, nslots, posted, packets);
    FirstOf(s.posted, packets, k);
  }

  lemma AloneFirst(p: Params, s: State, t: nat, c: Choice, cs: seq<Choice>)
    ensures Alone(p, s, t, [c] + cs) == Alone(p, Step(p, s, t, c), t, cs)
  {
    assert ([c] + cs)[0] == c && ([c] + cs)[1..] == cs;
  }

  /** The network accepts the first k packets and refuses the next one. */
  lemma {:induction false} PostsSome(p: Params, s: State, t: nat, nslots: nat, posted: nat, packets: seq<Packet>,
                                     k: nat)
    returns (cs: seq<Choice>)
    requires t < |s.pcs| && s.pcs[t] == Holding(nslots, posted, packets) && k <= |packets|
    ensures Alone(p, s, t, cs) == PostedFirst(s, t, posted, packets, k)
    decreases k
  {
    if k == 0 {
      cs := [Go([], false)];
      RefuseStep(p, s, t, nslots, posted, packets);
    } else {
      PostedTwice(p, s, t, nslots, posted, packets, k);
      var s1 := Step(p, s, t, Go([], true));
      var more := PostsSome(p, s1, t, nslots, posted + 1, packets[1..], k - 1);
      AloneFirst(p, s, t, Go([], true), more);
      cs := [Go([], true)] + more;
    }
  }

  lemma RefuseStep(p: Params, s: State, t: nat, nslots: nat, posted: nat, packets: seq<Packet>)
    requires t < |s.pcs| && s.pcs[t] == Holding(nslots, posted, packets)
    ensures Alone(p, s, t, [Go([], false)]) == PostedFirst(s, t, posted, packets, 0)
  {
    AloneOne(p, s, t, Go([], false));
    assert packets[..0] == [] && packets[0..] == packets && s.posted + multiset{} == s.posted;
  }

  lemma PutBackStep(p: Params, s: State, t: nat, posted: nat, packets: seq<Packet>)
    requires t < |s.pcs| && s.pcs[t] == PuttingBack(posted, packets) && packets != []
    ensures Step(p, s, t, Go([], true))
         == SetPc(s.(pool := s.pool + multiset{packets[0]}), t, PuttingBack(posted, packets[1..]))
  {
  }

  lemma {:induction false} PutsBack(p: Params, s: State, t: nat, posted: nat, packets: seq<Packet>)
    returns (cs: seq<Choice>)
    requires t < |s.pcs| && s.pcs[t] == PuttingBack(posted, packets)
    ensures Alone(p, s, t, cs) == SetPc(s.(pool := s.pool + multiset(packets)), t, PuttingBack(posted, []))
    decreases |packets|
  {
    if packets == [] {
      cs := [];
      assert s.pool + multiset(packets) == s.pool;
    } else {
      PutBackStep(p, s, t, posted, packets);
      var more := PutsBack(p, Step(p, s, t, Go([], true)), t, posted, packets[1..]);
      cs := [Go([], true)] + more;
      AloneFirst(p, s, t, Go([], true), more);
      FirstOf(s.pool, packets, |packets|);
      assert packets[1..][..|packets| - 1] == packets[1..] && packets[..|packets|] == packets;
    }
  }

  lemma Settles(p: Params, s: State, t: nat, posted: nat) returns (cs: seq<Choice>)
    requires t < |s.pcs| && s.pcs[t] == PuttingBack(posted, []) && posted <= p.batch
    ensures Alone(p, s, t, cs) == SetPc(s.(counter := s.counter - (p.batch - posted)), t, Idle)
  {
    var s1 := Step(p, s, t, Go([], true));
    AloneOne(p, s, t, Go([], true));
    cs := [Go([], true)];
    if posted < p.batch {
      AloneOne(p, s1, t, Go([], true));
      AloneConcat(p, s, t, cs, [Go([], true)]);
      cs := cs + [Go([], true)];
      assert s1.pcs[t := Idle] == s.pcs[t := Idle];
    }
  }

  /** How many receives a call may post. */
  function Slots(p: Params, s: State): int {
    if p.max - s.counter < p.batch then p.max - s.counter else p.batch
  }

  lemma Takes(p: Params, s: State, t: nat, popped: seq<Packet>) returns (cs: seq<Choice>)
    requires t < |s.pcs| && s.pcs[t].Idle? && s.counter < p.max
    requires popped != [] && |popped| <= Slots(p, s) && multiset(popped) <= s.pool
    ensures cs != [] && cs[0] == Call
    ensures Alone(p, s, t, cs)
         == SetPc(s.(counter := s.counter + p.batch, pool := s.pool - multiset(popped)), t,
                  Holding(Slots(p, s), 0, popped))
  {
    var s1 := Step(p, s, t, Call);
    var s2 := Step(p, s1, t, Go([], true));
    var s3 := Step(p, s2, t, Go(popped, true));
    assert s2 == SetPc(s.(counter := s.counter + p.batch), t, Reserved(Slots(p, s))) by {
      assert s1.pcs[t := Reserved(Slots(p, s))] == s.pcs[t := Reserved(Slots(p, s))];
    }
    assert s2.pcs[t := Holding(Slots(p, s), 0, popped)] == s.pcs[t := Holding(Slots(p, s), 0, popped)];
    cs := [Call, Go([], true), Go(popped, true)];
    AloneOne(p, s2, t, Go(popped, true));
    assert cs[1..] == [Go([], true), Go(popped, true)] && cs[1..][1..] == [Go(popped, true)];
    assert Alone(p, s1, t, cs[1..]) == Alone(p, s2, t, [Go(popped, true)]);
  }

  /** A call that holds packets, of which the network accepts the first k. */
  lemma HoldingEnds(p: Params, s: State, t: nat, nslots: nat, popped: seq<Packet>, k: nat) returns (cs: seq<Choice>)
    requires t < |s.pcs| && s.pcs[t] == Holding(nslots, 0, popped) && k <= |popped| && k <= p.batch
    ensures Alone(p, s, t, cs)
         == SetPc(s.(counter := s.counter - (p.batch - k), posted := s.posted + multiset(popped[..k]),
                     pool := s.pool + multiset(popped[k..])), t, Idle)
  {
    var a := PostsSome(p, s, t, nslots, 0, popped, k);
    var s1 := Alone(p, s, t, a);
    var b := PutsBack(p, s1, t, k, popped[k..]);
    AloneConcat(p, s, t, a, b);
    var s2 := Alone(p, s, t, a + b);
    var c := Settles(p, s2, t, k);
    AloneConcat(p, s, t, a + b, c);
    cs := a + b + c;
  }

  lemma LeftOver(pool: multiset<Packet>, popped: seq<Packet>, k: nat)
    requires k <= |popped| && multiset(popped) <= pool
    ensures pool - multiset(popped) + multiset(popped[k..]) == pool - multiset(popped[..k])
  {
    assert popped == popped[..k] + popped[k..];
  }

  /** An undisturbed call below the limit that gets packets from the pool, of which the network accepts the
      first k, posts these, puts the others back and raises the counter by k. */
  lemma CallPosts(p: Params, s: State, t: nat, popped: seq<Packet>, k: nat) returns (cs: seq<Choice>)
    requires t < |s.pcs| && s.pcs[t].Idle? && s.counter < p.max && k <= |popped|
    requires popped != [] && |popped| <= Slots(p, s) && multiset(popped) <= s.pool
    ensures cs != [] && cs[0] == Call
    ensures Alone(p, s, t, cs)
         == s.(counter := s.counter + k, posted := s.posted + multiset(popped[..k]),
               pool := s.pool - multiset(popped[..k]))
  {
    var a := Takes(p, s, t, popped);
    var s1 := Alone(p, s, t, a);
    var b := HoldingEnds(p, s1, t, Slots(p, s), popped, k);
    AloneConcat(p, s, t, a, b);
    cs := a + b;
    LeftOver(s.pool, popped, k);
    assert s1.pcs[t := Idle] == s.pcs;
  }

  /** An undisturbed call that gets no packet changes nothing. */
  lemma CallFindsNothing(p: Params, s: State, t: nat)
    requires t < |s.pcs| && s.pcs[t].Idle? && s.counter < p.max
    ensures Alone(p, s, t, [Call, Go([], true), Go([], true), Go([], true)]) == s
  {
    var go := Go([], true);
    var s1 := Step(p, s, t, Call);
    var s2 := Step(p, s1, t, go);
    var s3 := Step(p, s2, t, go);
    var s4 := Step(p, s3, t, go);
    assert s4.pcs == s.pcs && s4 == s;
    AloneOne(p, s3, t, go);
    AloneFirst(p, s2, t, go, [go]);
    AloneFirst(p, s1, t, go, [go] + [go]);
    AloneFirst(p, s, t, Call, [go] + ([go] + [go]));
    assert [Call, go, go, go] == [Call] + ([go] + ([go] + [go]));
  }

  /** Undisturbed, with a network that accepts everything and a pool that gives what it has, a call posts as
      many receives as the limit, the batch and the pool allow. */
  lemma CallPostsAll(p: Params, s: State, t: nat, popped: seq<Packet>) returns (cs: seq<Choice>)
    requires t < |s.pcs| && s.pcs[t].Idle? && s.counter < p.max && multiset(popped) <= s.pool
    requires |popped| == if |s.pool| < Slots(p, s) then |s.pool| else Slots(p, s)
    ensures cs != [] && cs[0] == Call
    ensures var s' := Alone(p, s, t, cs);
            && s'.counter == s.counter + |popped| && s'.posted == s.posted + multiset(popped)
            && s'.pool == s.pool - multiset(popped) && s'.pcs == s.pcs
  {
    if popped == [] {
      CallFindsNothing(p, s, t);
      cs := [Call, Go([], true), Go([], true), Go([], true)];
    } else {
      cs := CallPosts(p, s, t, popped, |popped|);
      assert popped[..|popped|] == popped;
    }
  }

  /** All these completions were processed. */
  function Processed(s: State, t: nat, done: seq<Packet>): State
    requires t < |s.pcs|
  {
    SetPc(s.(counter := s.counter - |done|, delivered := s.delivered + multiset(done)), t, Idle)
  }

  lemma ProcessOne(p: Params, s: State, t: nat, done: seq<Packet>)
    requires t < |s.pcs| && s.pcs[t] == Processing(done) && done != []
    ensures Step(p, s, t, Go([], true))
         == SetPc(s.(counter := s.counter - 1, delivered := s.delivered + multiset{done[0]}), t, Processing(done[1..]))
  {
  }

  lemma ProcessStep(p: Params, s: State, t: nat, done: seq<Packet>)
    requires t < |s.pcs| && s.pcs[t] == Processing(done) && done != []
    ensures Step(p, s, t, Go([], true)).pcs[t] == Processing(done[1..])
    ensures Processed(Step(p, s, t, Go([], true)), t, done[1..]) == Processed(s, t, done)
  {
    ProcessOne(p, s, t, done);
    FirstOf(s.delivered, done, |done|);
    assert done[1..][..|done| - 1] == done[1..] && done[..|done|] == done;
  }

  lemma ProcessEnd(p: Params, s: State, t: nat, done: seq<Packet>)
    requires t < |s.pcs| && s.pcs[t] == Processing(done) && done == []
    ensures Alone(p, s, t, [Go([], true)]) == Processed(s, t, done)
  {
    AloneOne(p, s, t, Go([], true));
    assert s.delivered + multiset(done) == s.delivered;
  }

  /** The completions that a poll took are processed one after the other. */
  lemma {:induction false} ProcessesAlone(p: Params, s: State, t: nat, done: seq<Packet>) returns (cs: seq<Choice>)
    requires t < |s.pcs| && s.pcs[t] == Processing(done)
    ensures Alone(p, s, t, cs) == Processed(s, t, done)
    decreases |done|
  {
    if done == [] {
      cs := [Go([], true)];
      ProcessEnd(p, s, t, done);
    } else {
      ProcessStep(p, s, t, done);
      var more := ProcessesAlone(p, Step(p, s, t, Go([], true)), t, done[1..]);
      AloneFirst(p, s, t, Go([], true), more);
      cs := [Go([], true)] + more;
    }
  }

  /** An undisturbed poll that takes completions hands their packets on and lowers the counter by their
      number. */
  lemma CompletesAlone(p: Params, s: State, t: nat, done: seq<Packet>) returns (cs: seq<Choice>)
    requires t < |s.pcs| && s.pcs[t].Idle? && multiset(done) <= s.posted
    ensures cs != [] && cs[0] == Complete(done)
    ensures Alone(p, s, t, cs)
         == s.(counter := s.counter - |done|, posted := s.posted - multiset(done),
               delivered := s.delivered + multiset(done))
  {
    var s1 := Step(p, s, t, Complete(done));
    var more := ProcessesAlone(p, s1, t, done);
    cs := [Complete(done)] + more;
    AloneFirst(p, s, t, Complete(done), more);
    assert s1.pcs[t := Idle] == s.pcs;
  }

  function Returns(packets: seq<Packet>): seq<Choice> {
    seq(|packets|, i requires 0 <= i < |packets| => Return(packets[i]))
  }

  lemma LessFirst(m: multiset<Packet>, packets: seq<Packet>)
    requires packets != [] && multiset(packets) <= m
    ensures packets[0] in m && multiset(packets[1..]) <= m - multiset{packets[0]}
    ensures m - multiset{packets[0]} - multiset(packets[1..]) == m - multiset(packets)
  {
    assert packets == [packets[0]] + packets[1..];
  }

  lemma ReturnStep(p: Params, s: State, t: nat, packets: seq<Packet>)
    requires t < |s.pcs| && packets != [] && multiset(packets) <= s.delivered
    ensures var s1 := Step(p, s, t, Return(packets[0]));
            && s1 == s.(delivered := s.delivered - multiset{packets[0]}, pool := s.pool + multiset{packets[0]})
            && multiset(packets[1..]) <= s1.delivered
            && s1.delivered - multiset(packets[1..]) == s.delivered - multiset(packets)
            && s1.pool + multiset(packets[1..]) == s.pool + multiset(packets)
  {
    LessFirst(s.delivered, packets);
    FirstOf(s.pool, packets, |packets|);
    assert packets[1..][..|packets| - 1] == packets[1..] && packets[..|packets|] == packets;
  }

  lemma {:induction false} ReturnsAlone(p: Params, s: State, t: nat, packets: seq<Packet>)
    requires t < |s.pcs| && multiset(packets) <= s.delivered
    ensures Alone(p, s, t, Returns(packets))
         == s.(delivered := s.delivered - multiset(packets), pool := s.pool + multiset(packets))
    decreases |packets|
  {
    if packets == [] {
      assert s.delivered - multiset(packets) == s.delivered && s.pool + multiset(packets) == s.pool;
    } else {
      ReturnStep(p, s, t, packets);
      ReturnsAlone(p, Step(p, s, t, Return(packets[0])), t, packets[1..]);
      AloneFirst(p, s, t, Return(packets[0]), Returns(packets[1..]));
      assert [Return(packets[0])] + Returns(packets[1..]) == Returns(packets);
    }
  }

  lemma AddThenTake(m: multiset<Packet>, a: multiset<Packet>)
    ensures m + a - a == m && a <= m + a
  {
  }

  lemma TakeThenAdd(m: multiset<Packet>, a: multiset<Packet>)
    requires a <= m
    ensures m - a + a == m
  {
  }

  /** A full circle: the packets that an undisturbed call posts come back with messages and are returned
      to the pool, and everything is as before. */
  lemma FullCircle(p: Params, s: State, t: nat, popped: seq<Packet>) returns (a: seq<Choice>, b: seq<Choice>)
    requires t < |s.pcs| && s.pcs[t].Idle? && s.counter < p.max
    requires popped != [] && |popped| <= Slots(p, s) && multiset(popped) <= s.pool
    ensures a != [] && a[0] == Call && b != [] && b[0] == Complete(popped)
    ensures Alone(p, s, t, a).posted == s.posted + multiset(popped)
    ensures Alone(p, Alone(p, Alone(p, s, t, a), t, b), t, Returns(popped)) == s
  {
    a := CallPosts(p, s, t, popped, |popped|);
    assert popped[..|popped|] == popped;
    var s1 := Alone(p, s, t, a);
    AddThenTake(s.posted, multiset(popped));
    b := CompletesAlone(p, s1, t, popped);
    AddThenTake(s.delivered, multiset(popped));
    ReturnsAlone(p, Alone(p, s1, t, b), t, popped);
    TakeThenAdd(s.pool, multiset(popped));
  }
}
