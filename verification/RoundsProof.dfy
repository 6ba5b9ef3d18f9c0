/** Determinism, progress and termination of round-structured collectives. */
module RoundsProof {
  import opened Options
  import opened Rounds

  // ------------------------------------------------------------- invariant

  ghost predicate Sent<V, M>(s: State<V, M>, a: nat, i: nat)
    requires a < |s.ranks|
  {
    i < s.ranks[a].pc || (i == s.ranks[a].pc && s.ranks[a].posted)
  }

  ghost predicate Received<V, M>(s: State<V, M>, b: nat, j: int)
    requires b < |s.ranks|
  {
    j < s.ranks[b].pc || (j == s.ranks[b].pc && s.ranks[b].recvDone)
  }

  /** Round i of a has sent to b and b has not received it yet. */
  ghost predicate Pending<V, M>(sys: Sys<V, M>, s: State<V, M>, a: nat, b: nat, i: nat)
    requires a < |s.ranks| && b < |s.ranks|
  {
    && i < sys.length(a) && sys.op(a, i).sendTo == Some(b) && Sent(s, a, i)
    && !Received(s, b, Time(sys, a, i) - sys.offset(b))
  }

  ghost predicate PacketOk<V(!new), M(!new)>(sys: Sys<V, M>, s: State<V, M>, a: nat, b: nat, p: Packet<M>)
    requires WellPaired(sys) && |s.ranks| == sys.n && a < sys.n && b < sys.n
  {
    && p.time >= sys.offset(a)
    && var i := p.time - sys.offset(a);
    Pending(sys, s, a, b, i) && p.m == sys.payload(a, i, Val(sys, a, i))
  }

  ghost predicate Carried<V, M>(sys: Sys<V, M>, s: State<V, M>, a: nat, b: nat, i: nat)
    requires a < |s.ranks| && b < |s.ranks|
  {
    Pending(sys, s, a, b, i) ==> InFlight(Chan(s, a, b), Time(sys, a, i))
  }

  /** The channel holds exactly the pending messages, in round order. */
  ghost predicate ChanOk<V(!new), M(!new)>(sys: Sys<V, M>, s: State<V, M>, a: nat, b: nat)
    requires WellPaired(sys) && |s.ranks| == sys.n && a < sys.n && b < sys.n
  {
    var c := Chan(s, a, b);
    && (forall k :: 0 <= k < |c| ==> PacketOk(sys, s, a, b, c[k]))
    && (forall k, l :: 0 <= k < l < |c| ==> c[k].time < c[l].time)
    && (forall i: nat :: Carried(sys, s, a, b, i))
  }

  ghost predicate RankOk<V(!new), M(!new)>(sys: Sys<V, M>, r: nat, p: Rank<V>)
    requires WellPaired(sys) && r < sys.n
  {
    && p.pc <= sys.length(r)
    && (!p.entered ==> p.pc == 0 && !p.posted && !p.recvDone)
    && (p.sendDone ==> p.posted)
    && (p.posted ==> p.pc < sys.length(r) && sys.op(r, p.pc).sendTo.Some?)
    && (p.recvDone ==> p.pc < sys.length(r) && sys.op(r, p.pc).recvFrom.Some?)
    && p.v == if p.recvDone then After(sys, r, p.pc) else Val(sys, r, p.pc)
  }

  /** A receive never runs ahead of the send it is paired with. */
  ghost predicate CausalOk<V(!new), M(!new)>(sys: Sys<V, M>, s: State<V, M>, b: nat, j: nat)
    requires WellPaired(sys) && |s.ranks| == sys.n && b < sys.n && j < sys.length(b)
  {
    assert RecvPaired(sys, b, j);
    sys.op(b, j).recvFrom.Some? && Received(s, b, j) ==>
      Sent(s, sys.op(b, j).recvFrom.value, Time(sys, b, j) - sys.offset(sys.op(b, j).recvFrom.value))
  }

  ghost predicate Inv<V(!new), M(!new)>(sys: Sys<V, M>, s: State<V, M>) {
    && WellPaired(sys) && |s.ranks| == sys.n
    && (forall r :: 0 <= r < sys.n ==> RankOk(sys, r, s.ranks[r]))
    && (forall a, b :: 0 <= a < sys.n && 0 <= b < sys.n ==> ChanOk(sys, s, a, b))
    && (forall b: nat, j: nat :: b < sys.n && j < sys.length(b) ==> CausalOk(sys, s, b, j))
  }

  lemma InitInv<V(!new), M(!new)>(sys: Sys<V, M>, s: State<V, M>)
    requires WellPaired(sys) && Init(sys, s)
    ensures Inv(sys, s)
  {
  }

  // ------------------------------------------------------------- one rank

  /** The head of the channel belongs to the round that is receiving. */
  lemma HeadIsMine<V(!new), M(!new)>(sys: Sys<V, M>, s: State<V, M>, r: nat, a: nat)
    requires WellPaired(sys) && |s.ranks| == sys.n && Enabled(sys, s, r, Receive)
    requires sys.op(r, s.ranks[r].pc).recvFrom == Some(a) && a < sys.n && ChanOk(sys, s, a, r)
    ensures var c := Chan(s, a, r); var j := s.ranks[r].pc;
            && c[0].time == Time(sys, r, j) && sys.offset(a) <= c[0].time
            && c[0].time - sys.offset(a) < sys.length(a)
            && c[0].m == sys.payload(a, c[0].time - sys.offset(a), Val(sys, a, c[0].time - sys.offset(a)))
  {
    var j := s.ranks[r].pc;
    assert RecvPaired(sys, r, j);
    var t := Time(sys, r, j);
    var c := Chan(s, a, r);
    assert PacketOk(sys, s, a, r, c[0]);
    // the sender of the head has also made the send that this round waits for
    HeadNotEarlier(sys, s, r, a, c[0].time - sys.offset(a));
    assert Carried(sys, s, a, r, t - sys.offset(a));
    HeadIsFirst(c, t);
  }

  /** A pending message belongs to the receiver's present round or a later one, and then the message
      for the present round is pending too. */
  lemma HeadNotEarlier<V(!new), M(!new)>(sys: Sys<V, M>, s: State<V, M>, r: nat, a: nat, i: nat)
    requires WellPaired(sys) && |s.ranks| == sys.n && r < sys.n && a < sys.n && Pending(sys, s, a, r, i)
    requires s.ranks[r].pc < sys.length(r) && !s.ranks[r].recvDone && sys.op(r, s.ranks[r].pc).recvFrom == Some(a)
    ensures var t := Time(sys, r, s.ranks[r].pc);
            sys.offset(a) <= t <= Time(sys, a, i) && Pending(sys, s, a, r, t - sys.offset(a))
  {
    assert RecvPaired(sys, r, s.ranks[r].pc);
  }

  lemma HeadIsFirst<M>(c: seq<Packet<M>>, t: nat)
    requires InFlight(c, t) && forall k, l :: 0 <= k < l < |c| ==> c[k].time < c[l].time
    ensures c[0].time <= t
  {
    var k :| 0 <= k < |c| && c[k].time == t;
  }

  lemma ReceiveRank<V(!new), M(!new)>(sys: Sys<V, M>, r: nat, p: Rank<V>, a: nat, i: nat, m: M)
    requires WellPaired(sys) && r < sys.n && RankOk(sys, r, p) && p.entered && p.pc < sys.length(r) && !p.recvDone
    requires sys.op(r, p.pc).recvFrom == Some(a) && a < sys.n
    requires i + sys.offset(a) == Time(sys, r, p.pc) && i < sys.length(a) && m == sys.payload(a, i, Val(sys, a, i))
    ensures RankOk(sys, r, p.(recvDone := true, v := sys.absorb(r, p.pc, p.v, m)))
  {
  }

  lemma RanksPreserved<V(!new), M(!new)>(sys: Sys<V, M>, s: State<V, M>, r: nat, act: Move)
    requires Inv(sys, s) && Enabled(sys, s, r, act)
    ensures RankOk(sys, r, Do(sys, s, r, act).ranks[r])
  {
    var p := s.ranks[r];
    assert RankOk(sys, r, p);
    if act.Receive? {
      assert RecvPaired(sys, r, p.pc);
      var a := sys.op(r, p.pc).recvFrom.value;
      assert ChanOk(sys, s, a, r);
      HeadIsMine(sys, s, r, a);
      ReceiveRank(sys, r, p, a, Time(sys, r, p.pc) - sys.offset(a), Chan(s, a, r)[0].m);
    }
  }

  lemma PayloadAsSpecified<V(!new), M(!new)>(sys: Sys<V, M>, r: nat, p: Rank<V>)
    requires WellPaired(sys) && r < sys.n && RankOk(sys, r, p) && p.pc < sys.length(r)
    requires sys.op(r, p.pc).sendTo.Some?
    ensures sys.payload(r, p.pc, p.v) == sys.payload(r, p.pc, Val(sys, r, p.pc))
  {
    assert Independent(sys, r, p.pc);
    assert RecvPaired(sys, r, p.pc);
  }

  // ------------------------------------------------------------- channels

  /** The same packets for the same pending rounds. */
  lemma ChanSame<V(!new), M(!new)>(sys: Sys<V, M>, s: State<V, M>, s': State<V, M>, a: nat, b: nat)
    requires WellPaired(sys) && |s.ranks| == |s'.ranks| == sys.n && a < sys.n && b < sys.n && ChanOk(sys, s, a, b)
    requires forall i: nat :: Pending(sys, s', a, b, i) <==> Pending(sys, s, a, b, i)
    requires Chan(s', a, b) == Chan(s, a, b)
    ensures ChanOk(sys, s', a, b)
  {
    var c := Chan(s, a, b);
    forall k | 0 <= k < |c| ensures PacketOk(sys, s', a, b, c[k]) { assert PacketOk(sys, s, a, b, c[k]); }
    forall i: nat ensures Carried(sys, s', a, b, i) { assert Carried(sys, s, a, b, i); }
  }

  /** Which sends and receives are done changes only by posting, by receiving, and not by moving
      on to the next round. */
  lemma ProgressUnmoved<V(!new), M(!new)>(sys: Sys<V, M>, s: State<V, M>, r: nat, act: Move, u: nat, i: nat)
    requires WellPaired(sys) && |s.ranks| == sys.n && Enabled(sys, s, r, act) && u < sys.n && i < sys.length(u)
    requires RankOk(sys, r, s.ranks[r])
    ensures sys.op(u, i).sendTo.Some? && !(act.Post? && u == r && i == s.ranks[r].pc) ==>
              (Sent(Do(sys, s, r, act), u, i) <==> Sent(s, u, i))
    ensures sys.op(u, i).recvFrom.Some? && !(act.Receive? && u == r && i == s.ranks[r].pc) ==>
              (Received(Do(sys, s, r, act), u, i) <==> Received(s, u, i))
  {
  }

  /** A step of r that neither posts nor receives on this channel changes no pending message. */
  lemma ChanUntouched<V(!new), M(!new)>(sys: Sys<V, M>, s: State<V, M>, r: nat, act: Move, a: nat, b: nat)
    requires WellPaired(sys) && |s.ranks| == sys.n && Enabled(sys, s, r, act) && a < sys.n && b < sys.n
    requires RankOk(sys, r, s.ranks[r]) && ChanOk(sys, s, a, b)
    requires act.Post? ==> !(a == r && sys.op(r, s.ranks[r].pc).sendTo == Some(b))
    requires act.Receive? ==> !(b == r && sys.op(r, s.ranks[r].pc).recvFrom == Some(a))
    ensures ChanOk(sys, Do(sys, s, r, act), a, b)
  {
    var s' := Do(sys, s, r, act);
    forall i: nat ensures Pending(sys, s', a, b, i) <==> Pending(sys, s, a, b, i) {
      PendingUnmoved(sys, s, r, act, a, b, i);
    }
    assert Chan(s', a, b) == Chan(s, a, b);
    ChanSame(sys, s, s', a, b);
  }

  lemma PendingUnmoved<V(!new), M(!new)>(sys: Sys<V, M>, s: State<V, M>, r: nat, act: Move, a: nat, b: nat, i: nat)
    requires WellPaired(sys) && |s.ranks| == sys.n && Enabled(sys, s, r, act) && a < sys.n && b < sys.n
    requires RankOk(sys, r, s.ranks[r])
    requires act.Post? ==> !(a == r && sys.op(r, s.ranks[r].pc).sendTo == Some(b))
    requires act.Receive? ==> !(b == r && sys.op(r, s.ranks[r].pc).recvFrom == Some(a))
    ensures Pending(sys, Do(sys, s, r, act), a, b, i) <==> Pending(sys, s, a, b, i)
  {
    if i < sys.length(a) && sys.op(a, i).sendTo == Some(b) {
      assert SendPaired(sys, a, i);
      ProgressUnmoved(sys, s, r, act, a, i);
      ProgressUnmoved(sys, s, r, act, b, Time(sys, a, i) - sys.offset(b));
    }
  }

  lemma ChanAfterPost<V(!new), M(!new)>(sys: Sys<V, M>, s: State<V, M>, r: nat, b: nat)
    requires Inv(sys, s) && Enabled(sys, s, r, Post) && sys.op(r, s.ranks[r].pc).sendTo == Some(b) && b < sys.n
    ensures ChanOk(sys, Do(sys, s, r, Post), r, b)
  {
    var p := s.ranks[r];
    assert SendPaired(sys, r, p.pc);
    var s' := Do(sys, s, r, Post);
    var c, c' := Chan(s, r, b), Chan(s', r, b);
    assert ChanOk(sys, s, r, b) && RankOk(sys, r, p);
    PayloadAsSpecified(sys, r, p);
    assert c' == c + [Packet(Time(sys, r, p.pc), sys.payload(r, p.pc, p.v))];
    assert CausalOk(sys, s, b, Time(sys, r, p.pc) - sys.offset(b));
    forall i: nat ensures Pending(sys, s', r, b, i) == (Pending(sys, s, r, b, i) || i == p.pc) {
    }
    ChanGrows(sys, s, s', r, b);
  }

  lemma ChanGrows<V(!new), M(!new)>(sys: Sys<V, M>, s: State<V, M>, s': State<V, M>, a: nat, b: nat)
    requires WellPaired(sys) && |s.ranks| == |s'.ranks| == sys.n && a < sys.n && b < sys.n && ChanOk(sys, s, a, b)
    requires s.ranks[a].pc < sys.length(a) && !s.ranks[a].posted
    requires forall i: nat :: Pending(sys, s', a, b, i) <==> (Pending(sys, s, a, b, i) || i == s.ranks[a].pc)
    requires var i := s.ranks[a].pc;
             Chan(s', a, b) == Chan(s, a, b) + [Packet(Time(sys, a, i), sys.payload(a, i, Val(sys, a, i)))]
    ensures ChanOk(sys, s', a, b)
  {
    var c, c' := Chan(s, a, b), Chan(s', a, b);
    forall k | 0 <= k < |c'| ensures PacketOk(sys, s', a, b, c'[k]) {
      if k < |c| { assert PacketOk(sys, s, a, b, c[k]); }
    }
    forall k, l | 0 <= k < l < |c'| ensures c'[k].time < c'[l].time {
      assert PacketOk(sys, s, a, b, c[k]);
    }
    forall i: nat ensures Carried(sys, s', a, b, i) {
      assert Carried(sys, s, a, b, i);
      if Pending(sys, s, a, b, i) {
        var k :| 0 <= k < |c| && c[k].time == Time(sys, a, i);
        assert c'[k].time == Time(sys, a, i);
      } else if Pending(sys, s', a, b, i) {
        assert c'[|c|].time == Time(sys, a, i);
      }
    }
  }

  lemma PendingAfterReceive<V(!new), M(!new)>(sys: Sys<V, M>, s: State<V, M>, s': State<V, M>, r: nat, a: nat, i0: nat)
    requires WellPaired(sys) && |s.ranks| == |s'.ranks| == sys.n && a < sys.n && r < sys.n
    requires Time(sys, a, i0) == Time(sys, r, s.ranks[r].pc) && !s.ranks[r].recvDone
    requires exists v :: s'.ranks == s.ranks[r := s.ranks[r].(recvDone := true, v := v)]
    ensures forall i: nat :: Pending(sys, s', a, r, i) <==> (Pending(sys, s, a, r, i) && i != i0)
  {
  }

  lemma ChanAfterReceive<V(!new), M(!new)>(sys: Sys<V, M>, s: State<V, M>, r: nat, a: nat)
    requires Inv(sys, s) && Enabled(sys, s, r, Receive) && sys.op(r, s.ranks[r].pc).recvFrom == Some(a) && a < sys.n
    ensures ChanOk(sys, Do(sys, s, r, Receive), a, r)
  {
    var j := s.ranks[r].pc;
    assert ChanOk(sys, s, a, r);
    HeadIsMine(sys, s, r, a);
    var s' := Do(sys, s, r, Receive);
    var i0 := Time(sys, r, j) - sys.offset(a);
    assert Chan(s', a, r) == Chan(s, a, r)[1..];
    PendingAfterReceive(sys, s, s', r, a, i0);
    ChanShrinks(sys, s, s', a, r, i0);
  }

  /** The tail of an ordered channel: what it holds, and that it is ordered. */
  lemma TailOf<M>(c: seq<Packet<M>>, t: nat)
    requires c != [] && forall k, l :: 0 <= k < l < |c| ==> c[k].time < c[l].time
    ensures forall k, l :: 0 <= k < l < |c[1..]| ==> c[1..][k].time < c[1..][l].time
    ensures forall k :: 0 <= k < |c[1..]| ==> c[1..][k] in c && c[1..][k].time != c[0].time
    ensures InFlight(c, t) && t != c[0].time ==> InFlight(c[1..], t)
  {
    if InFlight(c, t) && t != c[0].time {
      var k :| 0 <= k < |c| && c[k].time == t;
      assert c[1..][k - 1].time == t;
    }
  }

  lemma MemberOk<V(!new), M(!new)>(sys: Sys<V, M>, s: State<V, M>, a: nat, b: nat, p: Packet<M>)
    requires WellPaired(sys) && |s.ranks| == sys.n && a < sys.n && b < sys.n && ChanOk(sys, s, a, b)
    requires p in Chan(s, a, b)
    ensures PacketOk(sys, s, a, b, p)
  {
    var c := Chan(s, a, b);
    var k :| 0 <= k < |c| && c[k] == p;
    assert PacketOk(sys, s, a, b, c[k]);
  }

  lemma ChanShrinks<V(!new), M(!new)>(sys: Sys<V, M>, s: State<V, M>, s': State<V, M>, a: nat, b: nat, i0: nat)
    requires WellPaired(sys) && |s.ranks| == |s'.ranks| == sys.n && a < sys.n && b < sys.n && ChanOk(sys, s, a, b)
    requires Chan(s, a, b) != [] && Chan(s, a, b)[0].time == Time(sys, a, i0)
    requires forall i: nat :: Pending(sys, s', a, b, i) <==> (Pending(sys, s, a, b, i) && i != i0)
    requires Chan(s', a, b) == Chan(s, a, b)[1..]
    ensures ChanOk(sys, s', a, b)
  {
    var c, c' := Chan(s, a, b), Chan(s', a, b);
    TailOf(c, 0);
    forall k | 0 <= k < |c'| ensures PacketOk(sys, s', a, b, c'[k]) {
      MemberOk(sys, s, a, b, c'[k]);
    }
    forall i: nat ensures Carried(sys, s', a, b, i) {
      assert Carried(sys, s, a, b, i);
      TailOf(c, Time(sys, a, i));
    }
  }

  // ------------------------------------------------------------- causality

  lemma CausalPreserved<V(!new), M(!new)>(sys: Sys<V, M>, s: State<V, M>, r: nat, act: Move, b: nat, j: nat)
    requires Inv(sys, s) && Enabled(sys, s, r, act) && b < sys.n && j < sys.length(b)
    ensures CausalOk(sys, Do(sys, s, r, act), b, j)
  {
    assert CausalOk(sys, s, b, j);
    assert RankOk(sys, r, s.ranks[r]);
    if act.Receive? && b == r && j == s.ranks[r].pc {
      assert RecvPaired(sys, r, j);
      var a := sys.op(r, j).recvFrom.value;
      assert ChanOk(sys, s, a, r);
      HeadIsMine(sys, s, r, a);
      assert PacketOk(sys, s, a, r, Chan(s, a, r)[0]);
    }
  }

  // ------------------------------------------------------------- whole runs

  lemma DoPreserves<V(!new), M(!new)>(sys: Sys<V, M>, s: State<V, M>, r: nat, act: Move)
    requires Inv(sys, s)
    ensures Inv(sys, Do(sys, s, r, act))
  {
    if Enabled(sys, s, r, act) {
      var s' := Do(sys, s, r, act);
      forall u | 0 <= u < sys.n ensures RankOk(sys, u, s'.ranks[u]) {
        if u == r { RanksPreserved(sys, s, r, act); } else { assert RankOk(sys, u, s.ranks[u]); }
      }
      forall a, b | 0 <= a < sys.n && 0 <= b < sys.n ensures ChanOk(sys, s', a, b) {
        if act.Post? && a == r && sys.op(r, s.ranks[r].pc).sendTo == Some(b) {
          ChanAfterPost(sys, s, r, b);
        } else if act.Receive? && b == r && sys.op(r, s.ranks[r].pc).recvFrom == Some(a) {
          ChanAfterReceive(sys, s, r, a);
        } else {
          assert RankOk(sys, r, s.ranks[r]) && ChanOk(sys, s, a, b);
          ChanUntouched(sys, s, r, act, a, b);
        }
      }
      forall b: nat, j: nat | b < sys.n && j < sys.length(b) ensures CausalOk(sys, s', b, j) {
        CausalPreserved(sys, s, r, act, b, j);
      }
    }
  }

  lemma {:induction false} ExecInv<V(!new), M(!new)>(sys: Sys<V, M>, s: State<V, M>, trace: seq<(nat, Move)>)
    requires WellPaired(sys) && Init(sys, s)
    ensures Inv(sys, Exec(sys, s, trace))
    decreases |trace|
  {
    if trace == [] {
      InitInv(sys, s);
    } else {
      ExecInv(sys, s, trace[..|trace| - 1]);
      DoPreserves(sys, Exec(sys, s, trace[..|trace| - 1]), trace[|trace| - 1].0, trace[|trace| - 1].1);
    }
  }

  /** Determinism: whatever the interleaving, a rank that has reached round i holds Val(r, i). */
  lemma Determined<V(!new), M(!new)>(sys: Sys<V, M>, s0: State<V, M>, trace: seq<(nat, Move)>, r: nat)
    requires WellPaired(sys) && Init(sys, s0) && r < sys.n
    ensures var s := Exec(sys, s0, trace);
            && r < |s.ranks| && s.ranks[r].pc <= sys.length(r)
            && (!s.ranks[r].recvDone ==> s.ranks[r].v == Val(sys, r, s.ranks[r].pc))
            && (s.ranks[r].pc == sys.length(r) ==> s.ranks[r].v == Val(sys, r, sys.length(r)))
  {
    ExecInv(sys, s0, trace);
    assert RankOk(sys, r, Exec(sys, s0, trace).ranks[r]);
  }

  ghost predicate Finished<V, M>(sys: Sys<V, M>, s: State<V, M>) {
    forall r :: 0 <= r < |s.ranks| ==> s.ranks[r].pc == sys.length(r)
  }

  /** A rank that is furthest behind in time among those still running. */
  lemma Earliest<V, M>(sys: Sys<V, M>, s: State<V, M>, k: nat) returns (r: int)
    requires k <= |s.ranks|
    ensures -1 <= r < k
    ensures r == -1 ==> forall u: nat :: u < k ==> s.ranks[u].pc >= sys.length(u)
    ensures r >= 0 ==> s.ranks[r].pc < sys.length(r)
    ensures r >= 0 ==> forall u: nat :: u < k && s.ranks[u].pc < sys.length(u) ==>
                         Time(sys, r, s.ranks[r].pc) <= Time(sys, u, s.ranks[u].pc)
  {
    if k == 0 { return -1; }
    r := Earliest(sys, s, k - 1);
    var u: nat := k - 1;
    if s.ranks[u].pc < sys.length(u)
       && (r == -1 || Time(sys, u, s.ranks[u].pc) < Time(sys, r, s.ranks[r].pc)) {
      r := u;
    }
  }

  /** The earliest rank waits for a message: its sender can post it. */
  lemma SenderCanPost<V(!new), M(!new)>(sys: Sys<V, M>, s: State<V, M>, r: nat, a: nat)
    requires WellPaired(sys) && |s.ranks| == sys.n && r < sys.n && a < sys.n && s.ranks[r].pc < sys.length(r)
    requires RankOk(sys, a, s.ranks[a]) && ChanOk(sys, s, a, r) && s.ranks[a].entered
    requires sys.op(r, s.ranks[r].pc).recvFrom == Some(a) && !s.ranks[r].recvDone && Chan(s, a, r) == []
    requires s.ranks[a].pc < sys.length(a) ==> Time(sys, r, s.ranks[r].pc) <= Time(sys, a, s.ranks[a].pc)
    ensures Enabled(sys, s, a, Post)
  {
    assert RecvPaired(sys, r, s.ranks[r].pc);
    var i := Time(sys, r, s.ranks[r].pc) - sys.offset(a);
    assert Carried(sys, s, a, r, i);
  }

  lemma InFlightIsPending<V(!new), M(!new)>(sys: Sys<V, M>, s: State<V, M>, a: nat, b: nat, i: nat)
    requires WellPaired(sys) && |s.ranks| == sys.n && a < sys.n && b < sys.n && ChanOk(sys, s, a, b)
    requires InFlight(Chan(s, a, b), Time(sys, a, i))
    ensures Pending(sys, s, a, b, i) && Chan(s, a, b) != []
  {
    var k :| 0 <= k < |Chan(s, a, b)| && Chan(s, a, b)[k].time == Time(sys, a, i);
    MemberOk(sys, s, a, b, Chan(s, a, b)[k]);
  }

  /** The earliest rank waits for its message to be taken: the receiver can take it. */
  lemma ReceiverCanTake<V(!new), M(!new)>(sys: Sys<V, M>, s: State<V, M>, r: nat, b: nat)
    requires WellPaired(sys) && |s.ranks| == sys.n && r < sys.n && b < sys.n && s.ranks[r].pc < sys.length(r)
    requires Pending(sys, s, r, b, s.ranks[r].pc) && Chan(s, r, b) != [] && s.ranks[b].entered
    requires s.ranks[b].pc < sys.length(b) ==> Time(sys, r, s.ranks[r].pc) <= Time(sys, b, s.ranks[b].pc)
    ensures Enabled(sys, s, b, Receive)
  {
    assert SendPaired(sys, r, s.ranks[r].pc);
  }

  /** The earliest rank, or the peer it waits for, can act. */
  lemma EarliestMoves<V(!new), M(!new)>(sys: Sys<V, M>, s: State<V, M>, r: nat) returns (u: nat, act: Move)
    requires Inv(sys, s) && r < sys.n && s.ranks[r].pc < sys.length(r)
    requires forall x: nat :: x < sys.n ==> s.ranks[x].entered
    requires forall x: nat :: x < sys.n && s.ranks[x].pc < sys.length(x) ==>
               Time(sys, r, s.ranks[r].pc) <= Time(sys, x, s.ranks[x].pc)
    ensures Enabled(sys, s, u, act)
  {
    var p := s.ranks[r];
    var op := sys.op(r, p.pc);
    assert SendPaired(sys, r, p.pc) && RecvPaired(sys, r, p.pc);
    if op.recvFrom.Some? && !p.recvDone {
      var a := op.recvFrom.value;
      if Chan(s, a, r) != [] { return r, Receive; }
      assert RankOk(sys, a, s.ranks[a]) && ChanOk(sys, s, a, r);
      SenderCanPost(sys, s, r, a);
      return a, Post;
    }
    if op.sendTo.None? || p.sendDone { return r, Advance; }
    if !p.posted { return r, Post; }
    var b := op.sendTo.value;
    if !InFlight(Chan(s, r, b), Time(sys, r, p.pc)) { return r, CompleteSend; }
    assert ChanOk(sys, s, r, b);
    InFlightIsPending(sys, s, r, b, p.pc);
    ReceiverCanTake(sys, s, r, b);
    return b, Receive;
  }

  /** No deadlock: unless every rank has finished, some rank can act. */
  lemma NeverStuck<V(!new), M(!new)>(sys: Sys<V, M>, s0: State<V, M>, trace: seq<(nat, Move)>)
    returns (r: nat, act: Move)
    requires WellPaired(sys) && Init(sys, s0) && !Finished(sys, Exec(sys, s0, trace))
    ensures Enabled(sys, Exec(sys, s0, trace), r, act)
  {
    ExecInv(sys, s0, trace);
    var s := Exec(sys, s0, trace);
    if x: nat :| x < sys.n && !s.ranks[x].entered { return x, Enter; }
    var e := Earliest(sys, s, sys.n);
    assert forall u: nat :: u < sys.n ==> RankOk(sys, u, s.ranks[u]);
    r, act := EarliestMoves(sys, s, e);
  }

  /** Every message has met its receive by the end. */
  lemma NothingLeftOver<V(!new), M(!new)>(sys: Sys<V, M>, s0: State<V, M>, trace: seq<(nat, Move)>, a: nat, b: nat)
    requires WellPaired(sys) && Init(sys, s0) && a < sys.n && b < sys.n && Finished(sys, Exec(sys, s0, trace))
    ensures Chan(Exec(sys, s0, trace), a, b) == []
  {
    ExecInv(sys, s0, trace);
    var s := Exec(sys, s0, trace);
    NonePending(sys, s, a, b);
    assert ChanOk(sys, s, a, b);
    assert Chan(s, a, b) != [] ==> PacketOk(sys, s, a, b, Chan(s, a, b)[0]);
  }

  lemma NonePending<V(!new), M(!new)>(sys: Sys<V, M>, s: State<V, M>, a: nat, b: nat)
    requires WellPaired(sys) && |s.ranks| == sys.n && a < sys.n && b < sys.n && Finished(sys, s)
    ensures forall i: nat :: !Pending(sys, s, a, b, i)
  {
    forall i: nat ensures !Pending(sys, s, a, b, i) {
      if i < sys.length(a) && sys.op(a, i).sendTo == Some(b) { assert SendPaired(sys, a, i); }
    }
  }

  // ------------------------------------------------------------- termination

  ghost function Work<V>(p: Rank<V>): nat {
    (if p.entered then 1 else 0) + 4 * p.pc
    + (if p.posted then 1 else 0) + (if p.sendDone then 1 else 0) + (if p.recvDone then 1 else 0)
  }

  ghost function TotalWork<V>(ranks: seq<Rank<V>>): nat {
    if ranks == [] then 0 else Work(ranks[0]) + TotalWork(ranks[1..])
  }

  /** The most steps a system of k ranks can take. */
  ghost function Bound<V, M>(sys: Sys<V, M>, from: nat, k: nat): nat
    decreases k
  {
    if k == 0 then 0 else 1 + 4 * sys.length(from) + Bound(sys, from + 1, k - 1)
  }

  lemma {:induction false} WorkUpdate<V>(ranks: seq<Rank<V>>, r: nat, p: Rank<V>)
    requires r < |ranks|
    ensures TotalWork(ranks[r := p]) == TotalWork(ranks) - Work(ranks[r]) + Work(p)
  {
    if r == 0 {
      assert ranks[r := p][1..] == ranks[1..];
    } else {
      assert ranks[r := p][1..] == ranks[1..][r - 1 := p];
      WorkUpdate(ranks[1..], r - 1, p);
    }
  }

  lemma {:induction false} WorkBounded<V(!new), M(!new)>(sys: Sys<V, M>, ranks: seq<Rank<V>>, from: nat)
    requires WellPaired(sys) && from + |ranks| <= sys.n
    requires forall i :: 0 <= i < |ranks| ==> RankOk(sys, from + i, ranks[i])
    ensures TotalWork(ranks) <= Bound(sys, from, |ranks|)
  {
    if ranks != [] {
      assert RankOk(sys, from + 0, ranks[0]);
      forall i | 0 <= i < |ranks[1..]| ensures RankOk(sys, from + 1 + i, ranks[1..][i]) {
        assert RankOk(sys, from + (i + 1), ranks[i + 1]);
      }
      WorkBounded(sys, ranks[1..], from + 1);
    }
  }

  lemma StepWorks<V(!new), M(!new)>(sys: Sys<V, M>, s: State<V, M>, r: nat, act: Move)
    requires WellPaired(sys) && r < sys.n && Enabled(sys, s, r, act) && RankOk(sys, r, s.ranks[r])
    ensures TotalWork(Do(sys, s, r, act).ranks) > TotalWork(s.ranks)
  {
    WorkUpdate(s.ranks, r, Do(sys, s, r, act).ranks[r]);
  }

  /** Every step of the trace does something. */
  ghost predicate Busy<V, M>(sys: Sys<V, M>, s: State<V, M>, trace: seq<(nat, Move)>)
    decreases |trace|
  {
    trace == [] ||
    (&& Busy(sys, s, trace[..|trace| - 1])
     && Enabled(sys, Exec(sys, s, trace[..|trace| - 1]), trace[|trace| - 1].0, trace[|trace| - 1].1))
  }

  lemma {:induction false} BusyWorks<V(!new), M(!new)>(sys: Sys<V, M>, s0: State<V, M>, trace: seq<(nat, Move)>)
    requires WellPaired(sys) && Init(sys, s0) && Busy(sys, s0, trace)
    ensures |trace| <= TotalWork(Exec(sys, s0, trace).ranks)
    decreases |trace|
  {
    if trace != [] {
      var before := trace[..|trace| - 1];
      var (r, act) := trace[|trace| - 1];
      BusyWorks(sys, s0, before);
      ExecInv(sys, s0, before);
      assert RankOk(sys, r, Exec(sys, s0, before).ranks[r]);
      StepWorks(sys, Exec(sys, s0, before), r, act);
    }
  }

  /** Termination: no run takes more than Bound steps, so with NeverStuck every run that is
      continued while possible finishes. */
  lemma RunsAreBounded<V(!new), M(!new)>(sys: Sys<V, M>, s0: State<V, M>, trace: seq<(nat, Move)>)
    requires WellPaired(sys) && Init(sys, s0) && Busy(sys, s0, trace)
    ensures |trace| <= Bound(sys, 0, sys.n)
  {
    BusyWorks(sys, s0, trace);
    ExecInv(sys, s0, trace);
    WorkBounded(sys, Exec(sys, s0, trace).ranks, 0);
  }

  /** What a round makes of a rank's value. */
  lemma ValStep<V(!new), M(!new)>(sys: Sys<V, M>, r: nat, i: nat)
    requires WellPaired(sys) && r < sys.n && i < sys.length(r)
    ensures sys.op(r, i).recvFrom.None? ==> Val(sys, r, i + 1) == Val(sys, r, i)
    ensures sys.op(r, i).recvFrom.Some? ==>
              var a := sys.op(r, i).recvFrom.value;
              var j := Time(sys, r, i) - sys.offset(a);
              && a < sys.n && 0 <= j < sys.length(a)
              && Val(sys, r, i + 1) == sys.absorb(r, i, Val(sys, r, i), sys.payload(a, j, Val(sys, a, j)))
  {
    assert RecvPaired(sys, r, i);
  }

  // ------------------------------------------------------------- who must have entered

  /** The ranks whose entry is needed for rank r to reach round i. */
  ghost function Deps<V(!new), M(!new)>(sys: Sys<V, M>, r: nat, i: nat): set<nat>
    requires WellPaired(sys) && r < sys.n && i <= sys.length(r)
    decreases Time(sys, r, i)
  {
    if i == 0 then {r}
    else
      assert RecvPaired(sys, r, i - 1);
      Deps(sys, r, i - 1) +
      (if sys.op(r, i - 1).recvFrom.Some?
       then var a := sys.op(r, i - 1).recvFrom.value; Deps(sys, a, Time(sys, r, i - 1) - sys.offset(a))
       else {})
  }

  lemma DepsStep<V(!new), M(!new)>(sys: Sys<V, M>, r: nat, i: nat)
    requires WellPaired(sys) && r < sys.n && i < sys.length(r) && sys.op(r, i).recvFrom.Some?
    ensures var a := sys.op(r, i).recvFrom.value;
            var j := Time(sys, r, i) - sys.offset(a);
            a < sys.n && 0 <= j < sys.length(a) && Deps(sys, r, i + 1) == Deps(sys, r, i) + Deps(sys, a, j)
  {
    assert RecvPaired(sys, r, i);
  }

  lemma {:induction false} DepsEntered<V(!new), M(!new)>(sys: Sys<V, M>, s: State<V, M>, r: nat, i: nat, x: nat)
    requires Inv(sys, s) && r < sys.n && s.ranks[r].entered && i <= s.ranks[r].pc <= sys.length(r)
    requires x in Deps(sys, r, i)
    ensures x < sys.n && s.ranks[x].entered
    decreases Time(sys, r, i)
  {
    if i > 0 {
      if x in Deps(sys, r, i - 1) {
        DepsEntered(sys, s, r, i - 1, x);
      } else {
        assert RecvPaired(sys, r, i - 1);
        assert CausalOk(sys, s, r, i - 1);
        var a := sys.op(r, i - 1).recvFrom.value;
        assert RankOk(sys, a, s.ranks[a]);
        DepsEntered(sys, s, a, Time(sys, r, i - 1) - sys.offset(a), x);
      }
    }
  }
}
