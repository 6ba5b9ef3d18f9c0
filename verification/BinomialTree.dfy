/** The binomial tree of broadcast.cpp (build_graph_tree) and reduce.cpp: each rank computes its
    own part of the tree from jump, distance_left and distance_right.

    The reference definition is global: round k splits every segment of consecutive ranks that is
    longer than the jump; the first rank of a segment holds the data.  Ranks are counted by their
    distance from the root. */
module BinomialTree {
  import opened Modular

  datatype TreeAction = Nothing | SendTo(peer: nat) | RecvFrom(peer: nat)

  // ------------------------------------------------------------------ jumps

  function Pow2(k: nat): (p: nat)
    ensures p >= 1
  {
    if k == 0 then 1 else 2 * Pow2(k - 1)
  }

  /** std::ceil(std::log2(n)) */
  function CeilLog2(n: nat): (r: nat)
    requires n >= 1
    ensures n <= Pow2(r)
    ensures r > 0 ==> Pow2(r - 1) < n
  {
    if n == 1 then 0 else 1 + CeilLog2(Half(n))
  }

  /** The jump of round k. */
  function Jump(n: nat, k: nat): (j: nat)
    requires n >= 1
    ensures j >= 1
  {
    if k == 0 then Half(n) else Half(Jump(n, k - 1))
  }

  lemma {:induction false} JumpShift(n: nat, k: nat)
    requires n >= 1
    ensures Jump(n, k + 1) == Jump(Half(n), k)
  {
    if k > 0 { JumpShift(n, k - 1); }
  }

  /** The loop `while (true) ... if (jump == 1) break` makes exactly ceil(log2 n) rounds. */
  lemma {:induction false} RoundCount(n: nat, k: nat)
    requires n >= 2 && k < CeilLog2(n)
    ensures Jump(n, k) == 1 <==> k == CeilLog2(n) - 1
  {
    if k == 0 {
      assert CeilLog2(n) == 1 + CeilLog2(Half(n));
    } else {
      JumpShift(n, k - 1);
      RoundCount(Half(n), k - 1);
    }
  }

  // ------------------------------------------------------------------ segments

  /** The ranks at distances [first, end), led by the rank at distance first. */
  datatype Segment = Segment(first: nat, end: nat)

  /** The segment of distance d when round k starts. */
  function Seg(n: nat, d: nat, k: nat): (s: Segment)
    requires d < n
    ensures s.first <= d < s.end <= n
  {
    if k == 0 then Segment(0, n)
    else
      var s, j := Seg(n, d, k - 1), Jump(n, k - 1);
      if s.end <= s.first + j then s
      else if d < s.first + j then Segment(s.first, s.first + j)
      else Segment(s.first + j, s.end)
  }

  /** Segments are never longer than the last jump. */
  lemma {:induction false} SegmentSize(n: nat, d: nat, k: nat)
    requires d < n && k > 0
    ensures Seg(n, d, k).end - Seg(n, d, k).first <= Jump(n, k - 1)
  {
    if k > 1 { SegmentSize(n, d, k - 1); }
  }

  /** All members of a segment agree on it. */
  lemma {:induction false} SegmentAgreed(n: nat, d: nat, e: nat, k: nat)
    requires d < n && e < n && Seg(n, d, k).first <= e < Seg(n, d, k).end
    ensures Seg(n, e, k) == Seg(n, d, k)
  {
    if k > 0 { SegmentAgreed(n, d, e, k - 1); }
  }

  lemma LastRoundSingle(n: nat, d: nat)
    requires n >= 2 && d < n
    ensures Seg(n, d, CeilLog2(n)) == Segment(d, d + 1)
  {
    RoundCount(n, CeilLog2(n) - 1);
    SegmentSize(n, d, CeilLog2(n));
  }

  // ------------------------------------------------------------------ ranks and distances

  function Dist(n: nat, root: nat, rank: nat): (d: nat)
    requires root < n && rank < n
    ensures d < n
  {
    if root <= rank then rank - root else rank + n - root
  }

  function RankAt(n: nat, root: nat, d: nat): (rank: nat)
    requires root < n && d < n
    ensures rank < n && Dist(n, root, rank) == d
  {
    if root + d < n then root + d else root + d - n
  }

  lemma RankAtDist(n: nat, root: nat, rank: nat)
    requires root < n && rank < n
    ensures RankAt(n, root, Dist(n, root, rank)) == rank
  {
  }

  /** What rank does in round k, read off the segments. */
  function Action(n: nat, root: nat, rank: nat, k: nat): TreeAction
    requires root < n && rank < n
  {
    var d := Dist(n, root, rank);
    var s, j := Seg(n, d, k), Jump(n, k);
    if s.end <= s.first + j then Nothing
    else if d == s.first then SendTo(RankAt(n, root, d + j))
    else if d == s.first + j then RecvFrom(RankAt(n, root, s.first))
    else Nothing
  }

  // ------------------------------------------------------------------ the local loop

  function Sends(actions: seq<TreeAction>): nat {
    if actions == [] then 0
    else Sends(actions[..|actions| - 1]) + (if actions[|actions| - 1].SendTo? then 1 else 0)
  }

  lemma SendsAppend(actions: seq<TreeAction>, a: TreeAction)
    ensures Sends(actions + [a]) == Sends(actions) + (if a.SendTo? then 1 else 0)
  {
    assert (actions + [a])[..|actions|] == actions;
  }

  /** reduce.cpp:31-68 (and the same loop in build_graph_tree): the table has ceil(log2 nranks)
      entries, is never indexed out of bounds, and ends up holding the rank's part of the tree. */
  method ComputeActions(rank: nat, nranks: nat, root: nat) returns (table: seq<TreeAction>, nchildren: nat)
    requires 2 <= nranks && rank < nranks && root < nranks
    ensures |table| == CeilLog2(nranks)
    ensures forall k :: 0 <= k < |table| ==> table[k] == Action(nranks, root, rank, k)
    ensures nchildren == Sends(table)
  {
    forall k: nat | k < CeilLog2(nranks)
      ensures Schedule(nranks, root, rank, CeilLog2(nranks))[k] == Action(nranks, root, rank, k) {
      ScheduleAt(nranks, root, rank, CeilLog2(nranks), k);
    }
    var rounds := CeilLog2(nranks);
    forall k: nat | k < rounds ensures EndsAt(nranks, k, rounds) { RoundCount(nranks, k); }
    table, nchildren := FillTable(rank, nranks, root, rounds);
  }

  /** The first k actions of a rank. */
  ghost function Schedule(n: nat, root: nat, rank: nat, k: nat): (a: seq<TreeAction>)
    requires root < n && rank < n
    ensures |a| == k
  {
    if k == 0 then [] else Schedule(n, root, rank, k - 1) + [Action(n, root, rank, k - 1)]
  }

  lemma {:induction false} ScheduleAt(n: nat, root: nat, rank: nat, k: nat, i: nat)
    requires root < n && rank < n && i < k
    ensures Schedule(n, root, rank, k)[i] == Action(n, root, rank, i)
  {
    if i < k - 1 { ScheduleAt(n, root, rank, k - 1, i); }
  }

  ghost predicate EndsAt(n: nat, k: nat, rounds: nat)
    requires n >= 1
  {
    Jump(n, k) == 1 <==> k == rounds - 1
  }

  /** The table starts with the actions so far and is otherwise still Nothing. */
  ghost predicate Filled(table: seq<TreeAction>, actions: seq<TreeAction>) {
    && |actions| <= |table| && table[..|actions|] == actions
    && forall k :: |actions| <= k < |table| ==> table[k] == Nothing
  }

  /** An entry that stays Nothing need not be written. */
  lemma Fill(table: seq<TreeAction>, actions: seq<TreeAction>, action: TreeAction)
    requires Filled(table, actions) && |actions| < |table|
    ensures Filled(table[|actions| := action], actions + [action])
    ensures action == Nothing ==> table[|actions| := action] == table
  {
  }

  /** The loop itself, given where the jumps reach 1. */
  method FillTable(rank: nat, nranks: nat, root: nat, rounds: nat) returns (table: seq<TreeAction>, nchildren: nat)
    requires 2 <= nranks && rank < nranks && root < nranks && rounds > 0
    requires forall k: nat :: k < rounds ==> EndsAt(nranks, k, rounds)
    ensures table == Schedule(nranks, root, rank, rounds)
    ensures nchildren == Sends(table)
  {
    table := seq(rounds, _ => Nothing);
    var hasData := rank == root;
    var distanceLeft, distanceRight := StartDistances(rank, nranks, root);
    var jump := Half(nranks);
    var round := 0;
    nchildren := 0;
    while true
      invariant 0 <= round < rounds == |table| && jump == Jump(nranks, round)
      invariant LoopState(nranks, Dist(nranks, root, rank), round, hasData, distanceLeft, distanceRight)
      invariant Filled(table, Schedule(nranks, root, rank, round))
      invariant nchildren == Sends(Schedule(nranks, root, rank, round))
      decreases |table| - round
    {
      assert EndsAt(nranks, round, rounds);
      var action;
      action, hasData, distanceLeft, distanceRight :=
        OneRound(rank, nranks, root, round, hasData, distanceLeft, distanceRight, jump);
      SendsAppend(Schedule(nranks, root, rank, round), action);
      Fill(table, Schedule(nranks, root, rank, round), action);
      if action != Nothing {
        table := table[round := action];
      }
      if action.SendTo? {
        nchildren := nchildren + 1;
      }
      round := round + 1;
      if jump == 1 {
        break;
      } else {
        jump := Half(jump);
      }
    }
    assert table == table[..round];
  }

  /** What the loop variables mean at the start of a round. */
  ghost predicate LoopState(n: nat, d: nat, round: nat, hasData: bool, left: int, right: int) {
    && d < n
    && left == d - Seg(n, d, round).first && right == Seg(n, d, round).end - 1 - d
    && (hasData <==> left == 0)
  }

  /** The body of the loop: one branch of the tree, then the distances for the next round. */
  method OneRound(rank: nat, nranks: nat, root: nat, ghost round: nat, hasData: bool,
                  distanceLeft: int, distanceRight: int, jump: nat)
    returns (action: TreeAction, hasData': bool, distanceLeft': int, distanceRight': int)
    requires rank < nranks && root < nranks && jump == Jump(nranks, round)
    requires LoopState(nranks, Dist(nranks, root, rank), round, hasData, distanceLeft, distanceRight)
    ensures Schedule(nranks, root, rank, round + 1) == Schedule(nranks, root, rank, round) + [action]
    ensures LoopState(nranks, Dist(nranks, root, rank), round + 1, hasData', distanceLeft', distanceRight')
  {
    ghost var d := Dist(nranks, root, rank);
    SegmentBound(nranks, d, round);
    action, hasData', distanceLeft', distanceRight' := Nothing, hasData, distanceLeft, distanceRight;
    if hasData && jump <= distanceRight {
      var rankToSend := RightPeer(rank, nranks, root, jump);
      action := SendTo(rankToSend);
    } else if distanceLeft == jump {
      var rankToRecv := LeftPeer(rank, nranks, root, jump);
      action := RecvFrom(rankToRecv);
      hasData' := true;
    }
    if distanceLeft >= jump {
      distanceLeft' := distanceLeft - jump;
    } else {
      distanceRight' := Min(jump - distanceLeft - 1, distanceRight);
    }
  }

  /** A segment is at most twice the coming jump, so splitting leaves two halves within it. */
  lemma SegmentBound(n: nat, d: nat, k: nat)
    requires d < n
    ensures Seg(n, d, k).end - Seg(n, d, k).first <= 2 * Jump(n, k)
  {
    if k > 0 { SegmentSize(n, d, k); }
  }

  function Min(a: int, b: int): int { if a < b then a else b }

  /** The initial distance_left and distance_right. */
  method StartDistances(rank: nat, nranks: nat, root: nat) returns (left: nat, right: nat)
    requires rank < nranks && root < nranks
    ensures left == Dist(nranks, root, rank) && left + right == nranks - 1
  {
    left := (rank + nranks - root) % nranks;
    right := (root - 1 - rank + nranks) % nranks;
    ghost var d := Dist(nranks, root, rank);
    SmallMod(d, nranks);
    AddModulus(d, nranks);
    SmallMod(nranks - 1 - d, nranks);
    AddModulus(nranks - 1 - d, nranks);
  }

  method RightPeer(rank: nat, nranks: nat, root: nat, jump: nat) returns (peer: nat)
    requires rank < nranks && root < nranks && Dist(nranks, root, rank) + jump < nranks
    ensures peer == RankAt(nranks, root, Dist(nranks, root, rank) + jump)
  {
    peer := (rank + jump) % nranks;
    ghost var b := RankAt(nranks, root, Dist(nranks, root, rank) + jump);
    SmallMod(b, nranks);
    AddModulus(b, nranks);
  }

  method LeftPeer(rank: nat, nranks: nat, root: nat, jump: nat) returns (peer: nat)
    requires rank < nranks && root < nranks && jump <= Dist(nranks, root, rank)
    ensures peer == RankAt(nranks, root, Dist(nranks, root, rank) - jump)
  {
    peer := (rank - jump + nranks) % nranks;
    ghost var b := RankAt(nranks, root, Dist(nranks, root, rank) - jump);
    SmallMod(b, nranks);
    AddModulus(b, nranks);
  }
}
