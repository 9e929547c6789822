/**
 The leader-side records the replication loop reads on every poll: one open
 position and one resting order, as the venue client hands them over, and
 the (symbol, side) key that links a limit order to the position its fill
 opens.
 */
module Records {
  import opened Common

  /** An open position of the leader (or of a follower, when closing). */
  datatype Position = Position(
    positionId: int,
    symbol: string,
    side: int,
    vol: int,
    leverage: int,
    stopLossPrice: Option<Scalar>,
    openType: int)

  /** A resting order of the leader. `price` is the order's price already
      rendered as text, which is how the loop stores and compares it. */
  datatype Order = Order(
    orderId: string,
    symbol: string,
    side: int,
    vol: int,
    leverage: int,
    price: string,
    openType: int)

  /** The `(symbol, side)` pair a filled limit order is remembered by. */
  datatype PositionKey = PositionKey(symbol: string, side: int)

  function KeyOf(p: Position): PositionKey {
    PositionKey(p.symbol, p.side)
  }

  function PositionIds(ps: seq<Position>): set<int> {
    set p | p in ps :: p.positionId
  }

  function OrderIds(os: seq<Order>): set<string> {
    set o | o in os :: o.orderId
  }

  function KeysOf(ps: seq<Position>): set<PositionKey> {
    set p | p in ps :: KeyOf(p)
  }
}
