/**
 Closing a leader position on every account: the close side that undoes an
 open side, and the list of close calls built from fresh position listings
 of the leader and of each follower. The leader's matching positions come
 first, then each follower's in account order; every call is paired with the
 account it goes to, so the call list and the account list stay aligned.
 */
module Closing {
  import opened Records

  /** Venue sides: 1 open long, 3 open short, 4 close long, 2 close short. */
  function CloseSide(side: int): (c: int)
    ensures c == 4 || c == 2
    ensures c == 4 <==> side == 1
  {
    if side == 1 then 4 else 2
  }

  /** The close side determines the open side it undoes: on the two open
      sides, different sides get different close sides. */
  lemma CloseSideInjective(a: int, b: int)
    requires (a == 1 || a == 3) && (b == 1 || b == 3)
    ensures CloseSide(a) == CloseSide(b) <==> a == b
  {
  }

  datatype Holder = Leader | Follower(index: nat)

  /** Leader first, then followers by index. */
  function Rank(h: Holder): nat {
    match h
    case Leader => 0
    case Follower(i) => i + 1
  }

  /** One close call: the account it goes to and the arguments it carries,
      all taken from that account's own position record. */
  datatype CloseCall = CloseCall(
    holder: Holder, positionId: int, leverage: int, vol: int, closeSide: int, openType: int)

  predicate Matches(p: Position, symbol: string, side: int) {
    p.symbol == symbol && p.side == side
  }

  function CallFor(h: Holder, p: Position, side: int): CloseCall {
    CloseCall(h, p.positionId, p.leverage, p.vol, CloseSide(side), p.openType)
  }

  /** The positions of a listing with this symbol and side, in listing
      order. */
  function Matching(positions: seq<Position>, symbol: string, side: int): seq<Position> {
    if |positions| == 0 then []
    else if Matches(positions[0], symbol, side) then [positions[0]] + Matching(positions[1..], symbol, side)
    else Matching(positions[1..], symbol, side)
  }

  /** `Matching` keeps every matching position as often as it is listed and
      nothing else. */
  lemma {:induction false} MatchingCounts(positions: seq<Position>, symbol: string, side: int)
    ensures forall p :: multiset(Matching(positions, symbol, side))[p] ==
                        if Matches(p, symbol, side) then multiset(positions)[p] else 0
  {
    if |positions| > 0 {
      MatchingCounts(positions[1..], symbol, side);
      assert positions == [positions[0]] + positions[1..];
    }
  }

  /** The calls of a call list that go to account `h`, in list order. */
  function To(calls: seq<CloseCall>, h: Holder): seq<CloseCall> {
    if |calls| == 0 then []
    else if calls[0].holder == h then [calls[0]] + To(calls[1..], h)
    else To(calls[1..], h)
  }

  lemma {:induction false} ToAppend(a: seq<CloseCall>, b: seq<CloseCall>, h: Holder)
    ensures To(a + b, h) == To(a, h) + To(b, h)
  {
    if |a| == 0 {
      assert a + b == b;
    } else {
      assert (a + b)[1..] == a[1..] + b;
      ToAppend(a[1..], b, h);
    }
  }

  /** The close calls for one account's listing: one per matching position,
      in listing order. */
  function CallsFor(h: Holder, positions: seq<Position>, symbol: string, side: int): (r: seq<CloseCall>)
    ensures |r| <= |positions|
    ensures forall c :: c in r ==>
      c.holder == h && exists p :: p in positions && Matches(p, symbol, side) && c == CallFor(h, p, side)
    ensures forall p :: p in positions && Matches(p, symbol, side) ==> CallFor(h, p, side) in r
  {
    if |positions| == 0 then []
    else
      var rest := CallsFor(h, positions[1..], symbol, side);
      assert forall p :: p in positions[1..] ==> p in positions;
      if Matches(positions[0], symbol, side) then [CallFor(h, positions[0], side)] + rest else rest
  }

  /** `calls` closes each position of the listing with this symbol and side
      once, on account `h`, in listing order. */
  ghost predicate OnePerMatch(calls: seq<CloseCall>, h: Holder, positions: seq<Position>, symbol: string, side: int) {
    var m := Matching(positions, symbol, side);
    |calls| == |m| && forall k :: 0 <= k < |calls| ==> calls[k] == CallFor(h, m[k], side)
  }

  lemma OnePerMatchCons(h: Holder, p: Position, rest: seq<CloseCall>, m: seq<Position>, side: int)
    requires |rest| == |m| && forall k :: 0 <= k < |rest| ==> rest[k] == CallFor(h, m[k], side)
    ensures var r, all := [CallFor(h, p, side)] + rest, [p] + m;
      |r| == |all| && forall k :: 0 <= k < |r| ==> r[k] == CallFor(h, all[k], side)
  {
    var r, all := [CallFor(h, p, side)] + rest, [p] + m;
    forall k | 1 <= k < |r| ensures r[k] == CallFor(h, all[k], side) {
      assert r[k] == rest[k - 1] && all[k] == m[k - 1];
    }
  }

  lemma {:induction false} CallsForOnePerMatch(h: Holder, positions: seq<Position>, symbol: string, side: int)
    ensures OnePerMatch(CallsFor(h, positions, symbol, side), h, positions, symbol, side)
  {
    if |positions| > 0 {
      var r := CallsFor(h, positions, symbol, side);
      var rest := CallsFor(h, positions[1..], symbol, side);
      var m := Matching(positions[1..], symbol, side);
      CallsForOnePerMatch(h, positions[1..], symbol, side);
      if Matches(positions[0], symbol, side) {
        assert r == [CallFor(h, positions[0], side)] + rest;
        assert Matching(positions, symbol, side) == [positions[0]] + m;
        OnePerMatchCons(h, positions[0], rest, m, side);
      } else {
        assert r == rest;
        assert Matching(positions, symbol, side) == m;
      }
    }
  }

  lemma {:induction false} ToAll(calls: seq<CloseCall>, h: Holder)
    requires forall c :: c in calls ==> c.holder == h
    ensures To(calls, h) == calls
  {
    if |calls| > 0 {
      assert forall c :: c in calls[1..] ==> c in calls;
      ToAll(calls[1..], h);
    }
  }

  lemma {:induction false} NoneTo(calls: seq<CloseCall>, h: Holder)
    requires forall c :: c in calls ==> c.holder != h
    ensures To(calls, h) == []
  {
    if |calls| > 0 {
      assert forall c :: c in calls[1..] ==> c in calls;
      NoneTo(calls[1..], h);
    }
  }

  lemma ShareOfAppend(here: seq<CloseCall>, rest: seq<CloseCall>, from: nat, i: nat)
    requires forall c :: c in here ==> c.holder == Follower(from)
    requires forall c :: c in rest ==> c.holder != Follower(from)
    ensures To(here + rest, Follower(i)) == if i == from then here else To(rest, Follower(i))
  {
    ToAppend(here, rest, Follower(i));
    if i == from {
      ToAll(here, Follower(i));
      NoneTo(rest, Follower(i));
    } else {
      NoneTo(here, Follower(i));
    }
  }

  /** Splitting the calls to the leader from those to the followers. */
  lemma LeaderThenFollowers(l: seq<CloseCall>, f: seq<CloseCall>, h: Holder)
    requires forall c :: c in l ==> c.holder == Leader
    requires To(f, Leader) == []
    ensures To(l + f, h) == if h == Leader then l else To(f, h)
  {
    ToAppend(l, f, h);
    if h == Leader {
      ToAll(l, h);
    } else {
      NoneTo(l, h);
    }
  }

  /** The follower calls go to followers only. */
  lemma FollowerCallsSkipLeader(listings: seq<seq<Position>>, symbol: string, side: int)
    ensures To(FollowerCalls(listings, 0, symbol, side), Leader) == []
  {
    NoneTo(FollowerCalls(listings, 0, symbol, side), Leader);
  }

  /** Account `Follower(i)`'s share of the follower calls is exactly the
      calls for its own listing. */
  lemma {:induction false} FollowerShare(listings: seq<seq<Position>>, from: nat, i: nat, symbol: string, side: int)
    requires from <= i < |listings|
    decreases i - from
    ensures To(FollowerCalls(listings, from, symbol, side), Follower(i)) == CallsFor(Follower(i), listings[i], symbol, side)
  {
    var here := CallsFor(Follower(from), listings[from], symbol, side);
    var rest := FollowerCalls(listings, from + 1, symbol, side);
    assert FollowerCalls(listings, from, symbol, side) == here + rest;
    ShareOfAppend(here, rest, from, i);
    if from < i {
      FollowerShare(listings, from + 1, i, symbol, side);
    }
  }

  ghost predicate RankOrdered(calls: seq<CloseCall>) {
    forall p, q :: 0 <= p < q < |calls| ==> Rank(calls[p].holder) <= Rank(calls[q].holder)
  }

  function FollowerCalls(listings: seq<seq<Position>>, from: nat, symbol: string, side: int): (r: seq<CloseCall>)
    requires from <= |listings|
    decreases |listings| - from
    ensures forall c :: c in r ==>
      && c.holder.Follower? && from <= c.holder.index < |listings|
      && exists p :: p in listings[c.holder.index] && Matches(p, symbol, side) && c == CallFor(c.holder, p, side)
    ensures forall i, p :: from <= i < |listings| && p in listings[i] && Matches(p, symbol, side) ==>
      CallFor(Follower(i), p, side) in r
    ensures RankOrdered(r)
  {
    if from == |listings| then []
    else
      var here := CallsFor(Follower(from), listings[from], symbol, side);
      var rest := FollowerCalls(listings, from + 1, symbol, side);
      here + rest
  }

  /** The close calls for a closed leader position with this symbol and side,
      given fresh listings of the leader's and of every follower's positions.
      Every matching position of every account is closed, with its own id,
      leverage, volume and margin mode, on the close side of `side`. */
  function CloseTargets(symbol: string, side: int, leader: seq<Position>,
                        followers: seq<seq<Position>>): (r: seq<CloseCall>)
    ensures forall c :: c in r ==> c.closeSide == CloseSide(side)
    ensures forall c :: c in r && c.holder == Leader ==>
      exists p :: p in leader && Matches(p, symbol, side) && c == CallFor(Leader, p, side)
    ensures forall c :: c in r && c.holder.Follower? ==>
      c.holder.index < |followers| &&
      exists p :: p in followers[c.holder.index] && Matches(p, symbol, side) && c == CallFor(c.holder, p, side)
    ensures forall p :: p in leader && Matches(p, symbol, side) ==> CallFor(Leader, p, side) in r
    ensures forall i, p :: 0 <= i < |followers| && p in followers[i] && Matches(p, symbol, side) ==>
      CallFor(Follower(i), p, side) in r
    ensures RankOrdered(r)
    ensures OnePerMatch(To(r, Leader), Leader, leader, symbol, side)
    ensures forall i :: 0 <= i < |followers| ==>
      OnePerMatch(To(r, Follower(i)), Follower(i), followers[i], symbol, side)
  {
    CloseTargetsShares(symbol, side, leader, followers);
    CallsFor(Leader, leader, symbol, side) + FollowerCalls(followers, 0, symbol, side)
  }

  lemma CloseTargetsShares(symbol: string, side: int, leader: seq<Position>, followers: seq<seq<Position>>)
    ensures var r := CallsFor(Leader, leader, symbol, side) + FollowerCalls(followers, 0, symbol, side);
      && OnePerMatch(To(r, Leader), Leader, leader, symbol, side)
      && forall i :: 0 <= i < |followers| ==>
           OnePerMatch(To(r, Follower(i)), Follower(i), followers[i], symbol, side)
  {
    var l := CallsFor(Leader, leader, symbol, side);
    var f := FollowerCalls(followers, 0, symbol, side);
    FollowerCallsSkipLeader(followers, symbol, side);
    LeaderThenFollowers(l, f, Leader);
    CallsForOnePerMatch(Leader, leader, symbol, side);
    forall i | 0 <= i < |followers|
      ensures OnePerMatch(To(l + f, Follower(i)), Follower(i), followers[i], symbol, side)
    {
      FollowerShare(followers, 0, i, symbol, side);
      LeaderThenFollowers(l, f, Follower(i));
      CallsForOnePerMatch(Follower(i), followers[i], symbol, side);
    }
  }
}
