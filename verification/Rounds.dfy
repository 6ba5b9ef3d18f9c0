/** Round-structured collectives as asynchronous distributed programs.

    Every rank runs a list of rounds it computed by itself.  In a round it posts at most one
    send and at most one receive; it moves on when both have completed.  Messages travel in
    FIFO channels, one per ordered pair of ranks, and a receive takes whatever is at the head:
    nothing in a message tells which round it belongs to.  A send completes at once (`eager`)
    or only when its message has been received.

    The result is that such a program is deterministic and cannot get stuck, provided the
    locally computed schedules pair up. */
module Rounds {
  import opened Options

  datatype Op = Op(recvFrom: Option<nat>, sendTo: Option<nat>)

  /** `offset` staggers the ranks: round i of rank r happens at time i + offset(r). */
  datatype Sys<!V, !M> = Sys(
    n: nat, length: nat -> nat, offset: nat -> nat, op: (nat, nat) -> Op,
    init: nat -> V, payload: (nat, nat, V) -> M, absorb: (nat, nat, V, M) -> V, eager: bool)

  datatype Rank<V> = Rank(entered: bool, pc: nat, posted: bool, sendDone: bool, recvDone: bool, v: V)

  /** `time` is a label that no rank reads, except to tell that its own message was taken. */
  datatype Packet<M> = Packet(time: nat, m: M)

  datatype State<V, M> = State(ranks: seq<Rank<V>>, chan: map<(nat, nat), seq<Packet<M>>>)

  datatype Move = Enter | Post | CompleteSend | Receive | Advance

  // ------------------------------------------------------------------ schedules

  function Time<V, M>(sys: Sys<V, M>, r: nat, i: nat): nat { i + sys.offset(r) }

  /** Round i of rank a sends to b exactly when the simultaneous round of b receives from a. */
  ghost predicate SendPaired<V, M>(sys: Sys<V, M>, a: nat, i: nat) {
    sys.op(a, i).sendTo.Some? ==>
      var b := sys.op(a, i).sendTo.value;
      var j := Time(sys, a, i) - sys.offset(b);
      b < sys.n && 0 <= j < sys.length(b) && sys.op(b, j).recvFrom == Some(a)
  }

  ghost predicate RecvPaired<V, M>(sys: Sys<V, M>, b: nat, j: nat) {
    sys.op(b, j).recvFrom.Some? ==>
      var a := sys.op(b, j).recvFrom.value;
      var i := Time(sys, b, j) - sys.offset(a);
      a < sys.n && 0 <= i < sys.length(a) && sys.op(a, i).sendTo == Some(b)
  }

  /** Receiving does not disturb what the same round sends. */
  ghost predicate Independent<V(!new), M(!new)>(sys: Sys<V, M>, r: nat, i: nat) {
    sys.op(r, i).sendTo.Some? && sys.op(r, i).recvFrom.Some? ==>
      forall v: V, m: M :: sys.payload(r, i, sys.absorb(r, i, v, m)) == sys.payload(r, i, v)
  }

  ghost predicate WellPaired<V(!new), M(!new)>(sys: Sys<V, M>) {
    forall r: nat, i: nat :: r < sys.n && i < sys.length(r) ==>
      SendPaired(sys, r, i) && RecvPaired(sys, r, i) && Independent(sys, r, i)
  }

  // ------------------------------------------------------------------ steps

  function Chan<V, M>(s: State<V, M>, a: nat, b: nat): seq<Packet<M>> {
    if (a, b) in s.chan then s.chan[(a, b)] else []
  }

  ghost predicate InFlight<M>(c: seq<Packet<M>>, t: nat) {
    exists k :: 0 <= k < |c| && c[k].time == t
  }

  ghost predicate Enabled<V, M>(sys: Sys<V, M>, s: State<V, M>, r: nat, act: Move) {
    && r < |s.ranks|
    && var p := s.ranks[r];
    match act
    case Enter => !p.entered
    case Post => p.entered && p.pc < sys.length(r) && sys.op(r, p.pc).sendTo.Some? && !p.posted
    case CompleteSend =>
      && p.entered && p.pc < sys.length(r) && sys.op(r, p.pc).sendTo.Some? && p.posted && !p.sendDone
      && (sys.eager || !InFlight(Chan(s, r, sys.op(r, p.pc).sendTo.value), Time(sys, r, p.pc)))
    case Receive =>
      && p.entered && p.pc < sys.length(r) && sys.op(r, p.pc).recvFrom.Some? && !p.recvDone
      && Chan(s, sys.op(r, p.pc).recvFrom.value, r) != []
    case Advance =>
      && p.entered && p.pc < sys.length(r)
      && (sys.op(r, p.pc).sendTo.Some? ==> p.sendDone) && (sys.op(r, p.pc).recvFrom.Some? ==> p.recvDone)
  }

  ghost function Do<V, M>(sys: Sys<V, M>, s: State<V, M>, r: nat, act: Move): State<V, M> {
    if !Enabled(sys, s, r, act) then s
    else
      var p := s.ranks[r];
      match act
      case Enter => s.(ranks := s.ranks[r := p.(entered := true)])
      case Post =>
        var b := sys.op(r, p.pc).sendTo.value;
        State(s.ranks[r := p.(posted := true)],
              s.chan[(r, b) := Chan(s, r, b) + [Packet(Time(sys, r, p.pc), sys.payload(r, p.pc, p.v))]])
      case CompleteSend => s.(ranks := s.ranks[r := p.(sendDone := true)])
      case Receive =>
        var a := sys.op(r, p.pc).recvFrom.value;
        State(s.ranks[r := p.(recvDone := true, v := sys.absorb(r, p.pc, p.v, Chan(s, a, r)[0].m))],
              s.chan[(a, r) := Chan(s, a, r)[1..]])
      case Advance =>
        s.(ranks := s.ranks[r := p.(pc := p.pc + 1, posted := false, sendDone := false, recvDone := false)])
  }

  ghost predicate Init<V, M>(sys: Sys<V, M>, s: State<V, M>) {
    && |s.ranks| == sys.n
    && (forall r :: 0 <= r < sys.n ==> s.ranks[r] == Rank(false, 0, false, false, false, sys.init(r)))
    && s.chan == map[]
  }

  ghost function Exec<V, M>(sys: Sys<V, M>, s: State<V, M>, trace: seq<(nat, Move)>): State<V, M>
    decreases |trace|
  {
    if trace == [] then s
    else Do(sys, Exec(sys, s, trace[..|trace| - 1]), trace[|trace| - 1].0, trace[|trace| - 1].1)
  }

  // ------------------------------------------------------- the determined values

  /** The value of rank r on entering round i, whatever the interleaving. */
  ghost function Val<V(!new), M(!new)>(sys: Sys<V, M>, r: nat, i: nat): V
    requires WellPaired(sys) && r < sys.n && i <= sys.length(r)
    decreases Time(sys, r, i), 0
  {
    if i == 0 then sys.init(r)
    else if sys.op(r, i - 1).recvFrom.Some? then After(sys, r, i - 1)
    else Val(sys, r, i - 1)
  }

  /** The value of rank r once the receive of round i is done. */
  ghost function After<V(!new), M(!new)>(sys: Sys<V, M>, r: nat, i: nat): V
    requires WellPaired(sys) && r < sys.n && i < sys.length(r) && sys.op(r, i).recvFrom.Some?
    decreases Time(sys, r, i), 1
  {
    assert RecvPaired(sys, r, i);
    var a := sys.op(r, i).recvFrom.value;
    var j := Time(sys, r, i) - sys.offset(a);
    sys.absorb(r, i, Val(sys, r, i), sys.payload(a, j, Val(sys, a, j)))
  }
}
