/**
 Reading the outcome of an open or a close from an account's recent order
 history (newest first): the first filled opening order gives the entry
 price and margin, the first filled closing order the exit price and P/L.
 A figure the history does not provide is reported as unavailable, never as
 zero.
 */
module History {
  import opened Common

  /** A reported figure: a value read from an order record, or "N/A". */
  datatype Figure = NA | Figure(value: Scalar)

  datatype Direction = Opening | Closing

  /** Python `order.get('side') in [1, 3]` (opening) or `in [2, 4]`
      (closing); `True` equals 1 in Python, so it counts as an opening side. */
  predicate SideIs(order: Record, d: Direction) {
    var side := Get(order, "side");
    match d
    case Opening => side == Some(Num(1.0)) || side == Some(Num(3.0)) || side == Some(Bool(true))
    case Closing => side == Some(Num(2.0)) || side == Some(Num(4.0))
  }

  /** A filled order in the given direction: its side matches and its state
      is 3. */
  predicate Filled(order: Record, d: Direction) {
    SideIs(order, d) && Get(order, "state") == Some(Num(3.0))
  }

  /** No order is filled in both directions. */
  lemma DirectionsExclusive(order: Record)
    ensures !(Filled(order, Opening) && Filled(order, Closing))
  {
  }

  /** The first filled order in direction `d`, the latest one since the
      history is listed newest first. */
  function Latest(orders: seq<Record>, d: Direction): (r: Option<Record>)
    ensures r.None? <==> forall o :: o in orders ==> !Filled(o, d)
    ensures r.Some? ==>
      exists i :: 0 <= i < |orders| && orders[i] == r.value && Filled(orders[i], d) &&
        forall j :: 0 <= j < i ==> !Filled(orders[j], d)
  {
    if |orders| == 0 then None
    else if Filled(orders[0], d) then Some(orders[0])
    else
      var r := Latest(orders[1..], d);
      assert forall o :: o in orders ==> o == orders[0] || o in orders[1..];
      if r.Some? then
        var i :| 0 <= i < |orders[1..]| && orders[1..][i] == r.value && Filled(orders[1..][i], d) &&
          forall j :: 0 <= j < i ==> !Filled(orders[1..][j], d);
        assert orders[i + 1] == r.value;
        assert forall j :: 0 <= j < i + 1 ==> !Filled(orders[j], d) by {
          forall j | 0 <= j < i + 1 ensures !Filled(orders[j], d) {
            if j > 0 { assert orders[j] == orders[1..][j - 1]; }
          }
        }
        r
      else r
  }

  /** `order.get(key, 'N/A')`. */
  function Member(order: Record, key: string): (f: Figure)
    ensures f.Figure? <==> key in order
  {
    if key in order then Figure(order[key]) else NA
  }

  /** The fill price of an order: `dealAvgPrice`, else `dealAvgPriceStr`,
      else "N/A". */
  function PriceOf(order: Record): (f: Figure)
    ensures "dealAvgPrice" in order ==> f == Figure(order["dealAvgPrice"])
    ensures "dealAvgPrice" !in order && "dealAvgPriceStr" in order ==> f == Figure(order["dealAvgPriceStr"])
    ensures f == NA <==> "dealAvgPrice" !in order && "dealAvgPriceStr" !in order
  {
    match Member(order, "dealAvgPrice")
    case Figure(v) => Figure(v)
    case NA => Member(order, "dealAvgPriceStr")
  }

  /** What the open summary reports for one account. */
  datatype OpenFigures = OpenFigures(entryPrice: Figure, margin: Figure)

  /** What the close summary reports for one account. */
  datatype CloseFigures = CloseFigures(margin: Figure, pnl: Figure, entryPrice: Figure, exitPrice: Figure)

  /** The open summary of an account. `history` is None when fetching the
      history failed; everything is then unavailable. */
  function OpenOutcome(history: Option<seq<Record>>): (r: OpenFigures)
    ensures history.None? ==> r == OpenFigures(NA, NA)
    ensures history.Some? && Latest(history.value, Opening).None? ==> r == OpenFigures(NA, NA)
    ensures r.entryPrice.Figure? || r.margin.Figure? ==>
      history.Some? && exists o :: o in history.value && Filled(o, Opening)
    ensures history.Some? && Latest(history.value, Opening).Some? ==>
      var o := Latest(history.value, Opening).value;
      r == OpenFigures(PriceOf(o), Member(o, "orderMargin"))
  {
    match history
    case None => OpenFigures(NA, NA)
    case Some(orders) =>
      match Latest(orders, Opening)
      case None => OpenFigures(NA, NA)
      case Some(o) => OpenFigures(PriceOf(o), Member(o, "orderMargin"))
  }

  /** The close summary of an account: filled in only when the history holds
      both a filled opening order and a filled closing order. */
  function CloseOutcome(history: Option<seq<Record>>): (r: CloseFigures)
    ensures history.None? ==> r == CloseFigures(NA, NA, NA, NA)
    ensures history.Some? && (Latest(history.value, Opening).None? || Latest(history.value, Closing).None?) ==>
      r == CloseFigures(NA, NA, NA, NA)
    ensures r.pnl.Figure? ==>
      history.Some? &&
      exists o :: o in history.value && Filled(o, Closing) && "profit" in o && r.pnl.value == o["profit"]
    ensures r.exitPrice.Figure? ==> history.Some? && exists o :: o in history.value && Filled(o, Closing)
    ensures history.Some? && Latest(history.value, Opening).Some? && Latest(history.value, Closing).Some? ==>
      var o := Latest(history.value, Opening).value;
      var c := Latest(history.value, Closing).value;
      r == CloseFigures(Member(o, "orderMargin"), Member(c, "profit"), PriceOf(o), PriceOf(c))
  {
    match history
    case None => CloseFigures(NA, NA, NA, NA)
    case Some(orders) =>
      var open := Latest(orders, Opening);
      var close := Latest(orders, Closing);
      if open.Some? && close.Some? then
        CloseFigures(Member(open.value, "orderMargin"), Member(close.value, "profit"),
                     PriceOf(open.value), PriceOf(close.value))
      else CloseFigures(NA, NA, NA, NA)
  }

  /** In terms of the history itself: the close summary's exit price and P/L
      are those of the newest filled closing order, and its entry price and
      margin those of the newest filled opening order. */
  lemma CloseFromNewest(orders: seq<Record>) returns (i: nat, k: nat)
    requires exists o :: o in orders && Filled(o, Opening)
    requires exists o :: o in orders && Filled(o, Closing)
    ensures i < |orders| && Filled(orders[i], Opening) && forall j :: 0 <= j < i ==> !Filled(orders[j], Opening)
    ensures k < |orders| && Filled(orders[k], Closing) && forall j :: 0 <= j < k ==> !Filled(orders[j], Closing)
    ensures CloseOutcome(Some(orders)) ==
      CloseFigures(Member(orders[i], "orderMargin"), Member(orders[k], "profit"), PriceOf(orders[i]), PriceOf(orders[k]))
  {
    var open := Latest(orders, Opening);
    var close := Latest(orders, Closing);
    i :| 0 <= i < |orders| && orders[i] == open.value && Filled(orders[i], Opening) &&
      forall j :: 0 <= j < i ==> !Filled(orders[j], Opening);
    k :| 0 <= k < |orders| && orders[k] == close.value && Filled(orders[k], Closing) &&
      forall j :: 0 <= j < k ==> !Filled(orders[j], Closing);
  }

  /** When the history also holds a filled closing order, the close summary's
      entry price and margin are exactly what the open summary reports: both
      come from the latest filled opening order. */
  lemma CloseAgreesWithOpen(orders: seq<Record>)
    requires exists o :: o in orders && Filled(o, Closing)
    ensures CloseOutcome(Some(orders)).entryPrice == OpenOutcome(Some(orders)).entryPrice
    ensures CloseOutcome(Some(orders)).margin == OpenOutcome(Some(orders)).margin
  {
  }
}
