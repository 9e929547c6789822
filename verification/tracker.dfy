/**
 The replication loop's bookkeeping and one poll of it, as a pure
 transition. A poll first reconciles positions (closes what vanished, opens
 or adopts what appeared), then resting orders (cancels or forgets what
 vanished, fans out what appeared, amends what changed). The follower calls
 a poll issues are returned as a dispatch; the replies of the calls whose
 replies the loop reads are inputs.
 */
module Tracker {
  import opened Records
  import opened Links

  /** What the loop caches about a tracked leader position. */
  datatype PositionInfo = PositionInfo(symbol: string, side: int, leverage: int, vol: int, openType: int)

  /** What the loop caches about a tracked leader order. */
  datatype OrderInfo = OrderInfo(symbol: string, price: string, vol: int, leverage: int, side: int, openType: int)

  /** The four structures the loop keeps between polls: tracked positions,
      tracked orders, each order's follower links, and the keys of positions
      expected from filled limit orders. */
  datatype State = State(
    positions: map<int, PositionInfo>,
    orders: map<string, OrderInfo>,
    synced: map<string, seq<Link>>,
    limit: set<PositionKey>)

  const Initial: State := State(map[], map[], map[], {})

  ghost predicate LinksValid(synced: map<string, seq<Link>>, n: nat) {
    forall id :: id in synced ==> WellFormed(synced[id], n)
  }

  /** Every tracked order has a link list, and every link list names
      followers in account order. */
  ghost predicate Valid(s: State, n: nat) {
    s.orders.Keys <= s.synced.Keys && LinksValid(s.synced, n)
  }

  function InfoOf(p: Position): PositionInfo {
    PositionInfo(p.symbol, p.side, p.leverage, p.vol, p.openType)
  }

  function OrderInfoOf(o: Order): OrderInfo {
    OrderInfo(o.symbol, o.price, o.vol, o.leverage, o.side, o.openType)
  }

  function OrderKey(info: OrderInfo): PositionKey {
    PositionKey(info.symbol, info.side)
  }

  /** `ps[i]` is the last record with its id. */
  ghost predicate LastPosition(ps: seq<Position>, i: int)
    requires 0 <= i < |ps|
  {
    forall j :: i < j < |ps| ==> ps[j].positionId != ps[i].positionId
  }

  /** `os[i]` is the last record with its id. */
  ghost predicate LastOrder(os: seq<Order>, i: int)
    requires 0 <= i < |os|
  {
    forall j :: i < j < |os| ==> os[j].orderId != os[i].orderId
  }

  // ---------------------------------------------------------------------
  // Position phase

  /** The snapshot records whose id is not tracked, in snapshot order. */
  function FreshPositions(ps: seq<Position>, tracked: set<int>): (r: seq<Position>)
    ensures forall p :: p in r <==> p in ps && p.positionId !in tracked
    ensures PositionIds(r) == PositionIds(ps) - tracked
    ensures r == [] <==> PositionIds(ps) <= tracked
  {
    if |ps| == 0 then []
    else
      var rest := FreshPositions(ps[1..], tracked);
      assert forall p :: p in ps <==> p == ps[0] || p in ps[1..];
      if ps[0].positionId in tracked then rest else [ps[0]] + rest
  }

  /** The outcome of admitting the new positions of a poll: the tracked
      positions and limit keys afterwards, the positions opened on the
      followers, and for each new record whether it was adopted. */
  datatype Admission = Admission(
    tracked: map<int, PositionInfo>,
    limit: set<PositionKey>,
    opens: seq<Position>,
    adopted: seq<bool>)

  /** The expected keys left for the records after `p`: its key is used up
      if it was expected. */
  function UseKey(p: Position, limit: set<PositionKey>): set<PositionKey> {
    if KeyOf(p) in limit then limit - {KeyOf(p)} else limit
  }

  /** Admits the new positions one by one, in snapshot order. A position whose
      key is expected from a limit fill is adopted: tracked, not opened, and
      its key is used up. Every other one is opened on the followers and
      tracked. */
  function Admit(incoming: seq<Position>, tracked: map<int, PositionInfo>, limit: set<PositionKey>): (r: Admission)
    ensures r.tracked.Keys == tracked.Keys + PositionIds(incoming)
    ensures forall id :: id in tracked && id !in PositionIds(incoming) ==> r.tracked[id] == tracked[id]
    ensures |r.adopted| == |incoming|
    ensures r.limit <= limit
    ensures forall p :: p in r.opens ==> p in incoming
  {
    if |incoming| == 0 then Admission(tracked, limit, [], [])
    else
      var p := incoming[0];
      var adopt := KeyOf(p) in limit;
      var rest := Admit(incoming[1..], tracked[p.positionId := InfoOf(p)], UseKey(p, limit));
      assert PositionIds(incoming) == {p.positionId} + PositionIds(incoming[1..]) by {
        assert forall q :: q in incoming <==> q == p || q in incoming[1..];
      }
      Admission(rest.tracked, rest.limit,
                if adopt then rest.opens else [p] + rest.opens,
                [adopt] + rest.adopted)
  }

  datatype PositionStep = PositionStep(
    positions: map<int, PositionInfo>,
    limit: set<PositionKey>,
    closes: map<int, PositionInfo>,
    opens: seq<Position>)

  /** The position phase of a poll. Tracked ids missing from the snapshot are
      closed on every account with the cached record and untracked; snapshot
      records with an untracked id are admitted. */
  function PositionPhase(s: State, snapshot: seq<Position>): (r: PositionStep)
    ensures r.positions.Keys == PositionIds(snapshot)
    ensures r.closes.Keys == s.positions.Keys - PositionIds(snapshot)
    ensures forall id :: id in r.closes ==> r.closes[id] == s.positions[id]
    ensures forall id :: id in s.positions && id in PositionIds(snapshot) ==> r.positions[id] == s.positions[id]
    ensures r.limit <= s.limit
    ensures forall p :: p in r.opens ==> p in snapshot && p.positionId !in s.positions
  {
    var closed := s.positions.Keys - PositionIds(snapshot);
    var remaining := s.positions - closed;
    var adm := Admit(FreshPositions(snapshot, remaining.Keys), remaining, s.limit);
    PositionStep(adm.tracked, adm.limit, map id | id in closed :: s.positions[id], adm.opens)
  }

  // ---------------------------------------------------------------------
  // Order phase

  /** Whether the snapshot holds a position with this symbol and side. */
  predicate PositionExists(snapshot: seq<Position>, key: PositionKey) {
    exists p :: p in snapshot && KeyOf(p) == key
  }

  /** The snapshot orders whose id is not tracked, in snapshot order. */
  function FreshOrders(os: seq<Order>, tracked: set<string>): (r: seq<Order>)
    ensures forall o :: o in r <==> o in os && o.orderId !in tracked
    ensures OrderIds(r) == OrderIds(os) - tracked
    ensures r == [] <==> OrderIds(os) <= tracked
  {
    if |os| == 0 then []
    else
      var rest := FreshOrders(os[1..], tracked);
      assert forall o :: o in os <==> o == os[0] || o in os[1..];
      if os[0].orderId in tracked then rest else [os[0]] + rest
  }

  /** The follower replies the loop reads, per leader order id: those of the
      limit-order fan-out and those of the amend fan-out. */
  datatype Replies = Replies(place: map<string, seq<Reply>>, amend: map<string, seq<Reply>>)

  /** A missing entry stands for no usable reply at all. */
  function RepliesFor(m: map<string, seq<Reply>>, id: string): seq<Reply> {
    if id in m then m[id] else []
  }

  datatype Placement = Placement(orders: map<string, OrderInfo>, synced: map<string, seq<Link>>)

  /** Fans out the new orders one by one: each is linked to the followers
      that accepted it and tracked with its price text, volume, leverage,
      side and margin mode. */
  function Place(incoming: seq<Order>, orders: map<string, OrderInfo>, synced: map<string, seq<Link>>,
                 n: nat, replies: map<string, seq<Reply>>): (r: Placement)
    ensures r.orders.Keys == orders.Keys + OrderIds(incoming)
    ensures r.synced.Keys == synced.Keys + OrderIds(incoming)
  {
    if |incoming| == 0 then Placement(orders, synced)
    else
      var o := incoming[0];
      IdsCons(incoming);
      Place(incoming[1..], orders[o.orderId := OrderInfoOf(o)],
            synced[o.orderId := LinkPlaced(n, RepliesFor(replies, o.orderId))], n, replies)
  }

  lemma IdsCons(os: seq<Order>)
    requires |os| > 0
    ensures OrderIds(os) == {os[0].orderId} + OrderIds(os[1..])
  {
    assert forall q :: q in os <==> q == os[0] || q in os[1..];
  }

  /** A snapshot order differs from its tracked record in price text or
      volume. */
  predicate Changed(info: OrderInfo, o: Order) {
    info.price != o.price || info.vol != o.vol
  }

  /** The members an amend never touches. */
  predicate SameTerms(a: OrderInfo, b: OrderInfo) {
    a.symbol == b.symbol && a.side == b.side && a.leverage == b.leverage && a.openType == b.openType
  }

  /** One amend fan-out: the leader order, the links it was sent to, and the
      new price text and volume. */
  datatype Amend = Amend(orderId: string, links: seq<Link>, price: string, vol: int)

  datatype Amendment = Amendment(
    orders: map<string, OrderInfo>,
    synced: map<string, seq<Link>>,
    amends: seq<Amend>)

  /** Walks the whole snapshot in order. A tracked order whose price text or
      volume changed gets the new price and volume; if it has links, they are
      amended and replaced by the links of the successful amends. */
  function AmendAll(snapshot: seq<Order>, orders: map<string, OrderInfo>, synced: map<string, seq<Link>>,
                    replies: map<string, seq<Reply>>): (r: Amendment)
    ensures r.orders.Keys == orders.Keys
    ensures r.synced.Keys == synced.Keys
  {
    if |snapshot| == 0 then Amendment(orders, synced, [])
    else
      var o := snapshot[0];
      if o.orderId in orders && Changed(orders[o.orderId], o) then
        var orders' := orders[o.orderId := orders[o.orderId].(price := o.price, vol := o.vol)];
        if o.orderId in synced then
          var links := FilterAmended(synced[o.orderId], RepliesFor(replies, o.orderId));
          var rest := AmendAll(snapshot[1..], orders', synced[o.orderId := links], replies);
          Amendment(rest.orders, rest.synced,
                    [Amend(o.orderId, synced[o.orderId], o.price, o.vol)] + rest.amends)
        else
          AmendAll(snapshot[1..], orders', synced, replies)
      else
        AmendAll(snapshot[1..], orders, synced, replies)
  }

  datatype OrderStep = OrderStep(
    orders: map<string, OrderInfo>,
    synced: map<string, seq<Link>>,
    limit: set<PositionKey>,
    cancels: map<string, seq<Link>>,
    places: seq<Order>,
    amends: seq<Amend>)

  /** The tracked orders that vanished while a position with their symbol and
      side is in the snapshot: taken as filled. */
  function FilledIds(orders: map<string, OrderInfo>, removed: set<string>, positions: seq<Position>): set<string>
    requires removed <= orders.Keys
  {
    set id | id in removed && PositionExists(positions, OrderKey(orders[id]))
  }

  /** The order phase of a poll. A vanished order is filled if the position
      snapshot holds its symbol and side: its key is remembered and nothing is
      sent. Otherwise it was canceled: its links, if any, get a cancel and are
      dropped. Either way it is untracked. Then new orders are placed and
      changed orders amended. */
  function OrderPhase(s: State, positions: seq<Position>, orders: seq<Order>, n: nat, replies: Replies): (r: OrderStep)
    ensures r.orders.Keys == OrderIds(orders)
    ensures s.limit <= r.limit
  {
    var removed := s.orders.Keys - OrderIds(orders);
    var filled := FilledIds(s.orders, removed, positions);
    var canceled := removed - filled;
    var kept := s.orders - removed;
    var incoming := FreshOrders(orders, kept.Keys);
    var placed := Place(incoming, kept, s.synced - canceled, n, replies.place);
    var amended := AmendAll(orders, placed.orders, placed.synced, replies.amend);
    OrderStep(amended.orders, amended.synced,
              s.limit + (set id | id in filled :: OrderKey(s.orders[id])),
              map id | id in canceled && id in s.synced :: s.synced[id],
              incoming, amended.amends)
  }

  // ---------------------------------------------------------------------
  // One poll

  /** The follower calls one poll issues: a close fan-out per closed
      position id, an open fan-out per opened position, a cancel fan-out per
      canceled order id that had links, a limit-order fan-out per new order
      and an amend fan-out per changed order with links. */
  datatype Dispatch = Dispatch(
    closes: map<int, PositionInfo>,
    opens: seq<Position>,
    cancels: map<string, seq<Link>>,
    places: seq<Order>,
    amends: seq<Amend>)

  const NoCalls: Dispatch := Dispatch(map[], [], map[], [], [])

  datatype Step = Step(state: State, dispatch: Dispatch)

  /** One poll with `n` followers: the position phase, then the order phase,
      which sees the limit keys the position phase left. */
  function Tick(s: State, positions: seq<Position>, orders: seq<Order>, n: nat, replies: Replies): (r: Step)
    ensures r.state.positions.Keys == PositionIds(positions)
    ensures r.state.orders.Keys == OrderIds(orders)
    ensures r.dispatch.closes.Keys == s.positions.Keys - PositionIds(positions)
    ensures forall id :: id in r.dispatch.closes ==> r.dispatch.closes[id] == s.positions[id]
  {
    var ps := PositionPhase(s, positions);
    var os := OrderPhase(s.(positions := ps.positions, limit := ps.limit), positions, orders, n, replies);
    Step(State(ps.positions, os.orders, os.synced, os.limit),
         Dispatch(ps.closes, ps.opens, os.cancels, os.places, os.amends))
  }
}
