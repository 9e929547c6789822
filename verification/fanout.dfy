/**
 Per-follower request planning for a fan-out. Every follower gets its own
 randomly drawn leverage and a volume scaled by a randomly drawn percentage;
 the draws are parameters here. The volume formula is Python's
 `max(1, int(vol * (1 + pct / 100)))`.
 */
module FanOut {
  import opened Common
  import opened Links

  /** Python `int(x)` on a float: truncation toward zero. */
  function Truncate(x: real): (r: int)
    ensures 0.0 <= x ==> r as real <= x < r as real + 1.0
    ensures x < 0.0 ==> r as real - 1.0 < x <= r as real
  {
    if x >= 0.0 then x.Floor else -((-x).Floor)
  }

  /** The leader volume scaled by `pct` percent, computed exactly. */
  function Scaled(vol: int, pct: int): real {
    vol as real * (1.0 + pct as real / 100.0)
  }

  /** The volume one follower is asked for. */
  function FollowerVolume(vol: int, pct: int): (v: int)
    ensures v >= 1
    ensures v as real <= Scaled(vol, pct) < v as real + 1.0 || (v == 1 && Scaled(vol, pct) < 2.0)
  {
    var t := Truncate(Scaled(vol, pct));
    if t < 1 then 1 else t
  }

  lemma TruncateMonotone(x: real, y: real)
    requires x <= y
    ensures Truncate(x) <= Truncate(y)
  {
  }

  /** For a non-negative leader volume, a larger percentage never asks a
      follower for less. */
  lemma FollowerVolumeMonotone(vol: int, p: int, q: int)
    requires vol >= 0 && p <= q
    ensures FollowerVolume(vol, p) <= FollowerVolume(vol, q)
  {
    assert Scaled(vol, q) - Scaled(vol, p) == vol as real * ((q - p) as real / 100.0);
    TruncateMonotone(Scaled(vol, p), Scaled(vol, q));
  }

  /** The configured random ranges, inclusive at both ends as `randint`. */
  datatype Config = Config(volMin: int, volMax: int, leverageMin: int, leverageMax: int)

  /** One follower's draws for one fan-out. */
  datatype Draw = Draw(leverage: int, pct: int)

  predicate DrawWithin(cfg: Config, d: Draw) {
    cfg.leverageMin <= d.leverage <= cfg.leverageMax && cfg.volMin <= d.pct <= cfg.volMax
  }

  /** A market open carries the leader's stop-loss; a limit order its price. */
  datatype OrderKind = Market(stopLossPrice: Option<Scalar>) | Limit(price: string)

  datatype OpenRequest = OpenRequest(
    account: nat, symbol: string, side: int, leverage: int, vol: int,
    kind: OrderKind, openType: int)

  /** The open (market or limit) requests of one fan-out, one per follower in
      account order. The leader's leverage is not an input: every follower's
      leverage is its own draw. */
  function PlanOpen(symbol: string, side: int, vol: int, kind: OrderKind, openType: int,
                    draws: seq<Draw>): (r: seq<OpenRequest>)
    ensures |r| == |draws|
    ensures forall i :: 0 <= i < |r| ==>
      && r[i].account == i
      && r[i].symbol == symbol && r[i].side == side
      && r[i].kind == kind && r[i].openType == openType
      && r[i].leverage == draws[i].leverage
      && r[i].vol == FollowerVolume(vol, draws[i].pct)
  {
    seq(|draws|, i requires 0 <= i < |draws| =>
      OpenRequest(i, symbol, side, draws[i].leverage, FollowerVolume(vol, draws[i].pct), kind, openType))
  }

  /** With draws inside the configured ranges, every follower's leverage is in
      the leverage range and its volume lies between the volumes of the two
      extreme percentages, and is at least 1. */
  lemma PlanOpenWithinConfig(cfg: Config, symbol: string, side: int, vol: int, kind: OrderKind,
                             openType: int, draws: seq<Draw>)
    requires vol >= 0
    requires forall d :: d in draws ==> DrawWithin(cfg, d)
    ensures forall q :: q in PlanOpen(symbol, side, vol, kind, openType, draws) ==>
      && cfg.leverageMin <= q.leverage <= cfg.leverageMax
      && 1 <= FollowerVolume(vol, cfg.volMin) <= q.vol <= FollowerVolume(vol, cfg.volMax)
  {
    var r := PlanOpen(symbol, side, vol, kind, openType, draws);
    forall q | q in r
      ensures cfg.leverageMin <= q.leverage <= cfg.leverageMax
      ensures FollowerVolume(vol, cfg.volMin) <= q.vol <= FollowerVolume(vol, cfg.volMax)
    {
      var i :| 0 <= i < |r| && r[i] == q;
      assert DrawWithin(cfg, draws[i]);
      FollowerVolumeMonotone(vol, cfg.volMin, draws[i].pct);
      FollowerVolumeMonotone(vol, draws[i].pct, cfg.volMax);
    }
  }

  datatype AmendRequest = AmendRequest(account: nat, order: Option<ReplyData>, price: string, vol: int)

  /** The amend requests for a leader order's links: one per link, in link
      order, each with its own volume percentage. */
  function PlanAmend(links: seq<Link>, price: string, vol: int, pcts: seq<int>): (r: seq<AmendRequest>)
    requires |pcts| == |links|
    ensures |r| == |links|
    ensures forall i :: 0 <= i < |r| ==>
      && r[i].account == links[i].account && r[i].order == links[i].order
      && r[i].price == price && r[i].vol == FollowerVolume(vol, pcts[i])
  {
    seq(|links|, i requires 0 <= i < |links| =>
      AmendRequest(links[i].account, links[i].order, price, FollowerVolume(vol, pcts[i])))
  }

  /** With percentages inside the configured range, every amended follower
      order asks for a volume between those of the two extreme percentages,
      and at least 1. */
  lemma PlanAmendWithinConfig(cfg: Config, links: seq<Link>, price: string, vol: int, pcts: seq<int>)
    requires vol >= 0 && |pcts| == |links|
    requires forall p :: p in pcts ==> cfg.volMin <= p <= cfg.volMax
    ensures forall q :: q in PlanAmend(links, price, vol, pcts) ==>
      1 <= FollowerVolume(vol, cfg.volMin) <= q.vol <= FollowerVolume(vol, cfg.volMax)
  {
    var r := PlanAmend(links, price, vol, pcts);
    forall q | q in r ensures FollowerVolume(vol, cfg.volMin) <= q.vol <= FollowerVolume(vol, cfg.volMax) {
      var i :| 0 <= i < |r| && r[i] == q;
      assert pcts[i] in pcts;
      FollowerVolumeMonotone(vol, cfg.volMin, pcts[i]);
      FollowerVolumeMonotone(vol, pcts[i], cfg.volMax);
    }
  }
}
