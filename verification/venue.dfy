/**
 The venue client's pure parts: turning the raw position records the venue
 returns into the bot's record shape (open positions and position history),
 and building the query parameters of a position-history request.
 Requests, signing and sessions are not modelled; a response is given as the
 already-parsed JSON body.
 */
module Venue {
  import opened Common

  /** The parsed JSON body of a listing request: its `success` member and its
      `data` member (a list of position records), either of which may be
      missing. */
  datatype Response = Response(success: Option<Scalar>, data: Option<seq<Record>>)

  /** One open position in the bot's shape. Every member is read with `.get`,
      so it is None when the venue omitted it, except `side`, which is always
      set, and `profit`, which defaults to 0. */
  datatype OpenPosition = OpenPosition(
    positionId: Option<Scalar>,
    symbol: Option<Scalar>,
    side: int,
    vol: Option<Scalar>,
    leverage: Option<Scalar>,
    openAvgPrice: Option<Scalar>,
    holdVol: Option<Scalar>,
    holdAvgPrice: Option<Scalar>,
    profit: Scalar,
    stopLossPrice: Option<Scalar>,
    liquidatePrice: Option<Scalar>,
    realised: Option<Scalar>)

  /** One historical position in the bot's shape; `closeProfitLoss` has no
      default here. */
  datatype HistoryPosition = HistoryPosition(
    positionId: Option<Scalar>,
    symbol: Option<Scalar>,
    side: int,
    vol: Option<Scalar>,
    leverage: Option<Scalar>,
    openAvgPrice: Option<Scalar>,
    holdVol: Option<Scalar>,
    holdAvgPrice: Option<Scalar>,
    closeAvgPrice: Option<Scalar>,
    realised: Option<Scalar>,
    closeProfitLoss: Option<Scalar>,
    state: Option<Scalar>)

  /** The venue's `positionType` (1 long, 2 short) mapped to the bot's open
      side (1 long, 3 short). Anything that is not 1, a missing member
      included, reads as short. */
  function SideOf(positionType: Option<Scalar>): (side: int)
    ensures side == 1 || side == 3
    ensures side == 1 <==> EqualsOne(positionType)
    ensures positionType.None? ==> side == 3
  {
    if EqualsOne(positionType) then 1 else 3
  }

  function DecodeOpen(raw: Record): (p: OpenPosition)
    ensures p.side == 1 <==> EqualsOne(Get(raw, "positionType"))
    ensures p.side == 1 || p.side == 3
    ensures p.vol == p.holdVol == Get(raw, "holdVol")
    ensures "closeProfitLoss" !in raw ==> p.profit == Num(0.0)
    ensures "closeProfitLoss" in raw ==> p.profit == raw["closeProfitLoss"]
    ensures p.positionId == Get(raw, "positionId") && p.symbol == Get(raw, "symbol")
    ensures p.leverage == Get(raw, "leverage")
    ensures p.openAvgPrice == Get(raw, "openAvgPrice") && p.holdAvgPrice == Get(raw, "holdAvgPrice")
    ensures p.stopLossPrice == Get(raw, "stopLossPrice") && p.liquidatePrice == Get(raw, "liquidatePrice")
    ensures p.realised == Get(raw, "realised")
  {
    OpenPosition(
      Get(raw, "positionId"),
      Get(raw, "symbol"),
      SideOf(Get(raw, "positionType")),
      Get(raw, "holdVol"),
      Get(raw, "leverage"),
      Get(raw, "openAvgPrice"),
      Get(raw, "holdVol"),
      Get(raw, "holdAvgPrice"),
      Get(raw, "closeProfitLoss").GetOr(Num(0.0)),
      Get(raw, "stopLossPrice"),
      Get(raw, "liquidatePrice"),
      Get(raw, "realised"))
  }

  function DecodeHistory(raw: Record): (p: HistoryPosition)
    ensures p.side == 1 <==> EqualsOne(Get(raw, "positionType"))
    ensures p.side == 1 || p.side == 3
    ensures p.vol == p.holdVol == Get(raw, "holdVol")
    ensures p.closeProfitLoss.Some? <==> "closeProfitLoss" in raw
    ensures p.positionId == Get(raw, "positionId") && p.symbol == Get(raw, "symbol")
    ensures p.leverage == Get(raw, "leverage")
    ensures p.closeProfitLoss == Get(raw, "closeProfitLoss")
    ensures p.openAvgPrice == Get(raw, "openAvgPrice") && p.holdAvgPrice == Get(raw, "holdAvgPrice")
    ensures p.closeAvgPrice == Get(raw, "closeAvgPrice")
    ensures p.realised == Get(raw, "realised") && p.state == Get(raw, "state")
  {
    HistoryPosition(
      Get(raw, "positionId"),
      Get(raw, "symbol"),
      SideOf(Get(raw, "positionType")),
      Get(raw, "holdVol"),
      Get(raw, "leverage"),
      Get(raw, "openAvgPrice"),
      Get(raw, "holdVol"),
      Get(raw, "holdAvgPrice"),
      Get(raw, "closeAvgPrice"),
      Get(raw, "realised"),
      Get(raw, "closeProfitLoss"),
      Get(raw, "state"))
  }

  /** The records of a response: `data` when present, the empty list when the
      member is missing. */
  function Listed(resp: Response): seq<Record> {
    resp.data.GetOr([])
  }

  function DecodeOpenList(raws: seq<Record>): (r: seq<OpenPosition>)
    ensures |r| == |raws|
    ensures forall i :: 0 <= i < |raws| ==> r[i] == DecodeOpen(raws[i])
  {
    if |raws| == 0 then [] else [DecodeOpen(raws[0])] + DecodeOpenList(raws[1..])
  }

  function DecodeHistoryList(raws: seq<Record>): (r: seq<HistoryPosition>)
    ensures |r| == |raws|
    ensures forall i :: 0 <= i < |raws| ==> r[i] == DecodeHistory(raws[i])
  {
    if |raws| == 0 then [] else [DecodeHistory(raws[0])] + DecodeHistoryList(raws[1..])
  }

  /** The open-positions listing. A response whose `success` is not truthy
      decodes to the empty list: a failed fetch looks exactly like an account
      with no open positions. */
  function DecodeOpenPositions(resp: Response): (r: seq<OpenPosition>)
    ensures !Truthy(resp.success) ==> r == []
    ensures Truthy(resp.success) ==> |r| == |Listed(resp)|
    ensures Truthy(resp.success) ==>
      forall i :: 0 <= i < |r| ==> r[i] == DecodeOpen(Listed(resp)[i])
    ensures forall p :: p in r ==> p.side == 1 || p.side == 3
  {
    if !Truthy(resp.success) then [] else DecodeOpenList(Listed(resp))
  }

  /** The position-history listing, with the same failure behaviour. */
  function DecodeHistoryPositions(resp: Response): (r: seq<HistoryPosition>)
    ensures !Truthy(resp.success) ==> r == []
    ensures Truthy(resp.success) ==> |r| == |Listed(resp)|
    ensures Truthy(resp.success) ==>
      forall i :: 0 <= i < |r| ==> r[i] == DecodeHistory(Listed(resp)[i])
    ensures forall p :: p in r ==> p.side == 1 || p.side == 3
  {
    if !Truthy(resp.success) then [] else DecodeHistoryList(Listed(resp))
  }

  /** Both decoders read the members they share in the same way; the open
      decoder's `profit` is the history decoder's `closeProfitLoss` with 0 in
      place of a missing member. */
  lemma DecodersAgree(raw: Record)
    ensures DecodeOpen(raw).positionId == DecodeHistory(raw).positionId
    ensures DecodeOpen(raw).symbol == DecodeHistory(raw).symbol
    ensures DecodeOpen(raw).side == DecodeHistory(raw).side
    ensures DecodeOpen(raw).vol == DecodeHistory(raw).vol
    ensures DecodeOpen(raw).leverage == DecodeHistory(raw).leverage
    ensures DecodeOpen(raw).profit == DecodeHistory(raw).closeProfitLoss.GetOr(Num(0.0))
  {
  }

  // ---------------------------------------------------------------------
  // History query parameters

  datatype ParamValue = PInt(i: int) | PStr(s: string)

  /** One query parameter; the parameters form an insertion-ordered dict. */
  datatype Param = Param(name: string, value: ParamValue)

  predicate StrTruthy(v: Option<string>) {
    v.Some? && v.value != ""
  }

  predicate IntTruthy(v: Option<int>) {
    v.Some? && v.value != 0
  }

  /** The value stored under `name`, reading the parameters as a dict. */
  function Lookup(params: seq<Param>, name: string): Option<ParamValue> {
    if |params| == 0 then None
    else if params[0].name == name then Some(params[0].value)
    else Lookup(params[1..], name)
  }

  function OptionalStr(name: string, v: Option<string>): seq<Param> {
    if StrTruthy(v) then [Param(name, PStr(v.value))] else []
  }

  function OptionalInt(name: string, v: Option<int>): seq<Param> {
    if IntTruthy(v) then [Param(name, PInt(v.value))] else []
  }

  function CountTruthy(symbol: Option<string>, positionType: Option<int>,
                       startTime: Option<int>, endTime: Option<int>): nat
  {
    (if StrTruthy(symbol) then 1 else 0) + (if IntTruthy(positionType) then 1 else 0)
    + (if IntTruthy(startTime) then 1 else 0) + (if IntTruthy(endTime) then 1 else 0)
  }

  /** The query of a position-history request. The page number and size are
      always sent; every filter is sent only when truthy, so an empty symbol,
      a zero and a missing value are all left out. */
  function HistoryParams(symbol: Option<string>, positionType: Option<int>,
                         startTime: Option<int>, endTime: Option<int>,
                         pageNum: int, pageSize: int): (r: seq<Param>)
    ensures |r| == 2 + CountTruthy(symbol, positionType, startTime, endTime)
    ensures r[0] == Param("page_num", PInt(pageNum))
    ensures r[1] == Param("page_size", PInt(pageSize))
    ensures forall i, j :: 0 <= i < j < |r| ==> r[i].name != r[j].name
  {
    [Param("page_num", PInt(pageNum)), Param("page_size", PInt(pageSize))]
    + OptionalStr("symbol", symbol)
    + OptionalInt("position_type", positionType)
    + OptionalInt("start_time", startTime)
    + OptionalInt("end_time", endTime)
  }

  /** Reading a concatenation as a dict: the first part wins. */
  lemma {:induction false} LookupAppend(a: seq<Param>, b: seq<Param>, name: string)
    ensures Lookup(a + b, name) == if Lookup(a, name).Some? then Lookup(a, name) else Lookup(b, name)
  {
    if |a| == 0 {
      assert a + b == b;
    } else {
      assert (a + b)[1..] == a[1..] + b;
      LookupAppend(a[1..], b, name);
    }
  }

  /** A parameter that is sent only when `present`. */
  lemma LookupOptional(present: bool, key: string, v: ParamValue, n: string)
    ensures Lookup(if present then [Param(key, v)] else [], n) ==
      if present && key == n then Some(v) else None
  {
    if present {
      assert [Param(key, v)][1..] == [];
    }
  }

  /** Where a name lands in the parameter list HistoryParams builds. */
  lemma LookupParts(pageNum: int, pageSize: int, s: Option<string>, t: Option<int>,
                    st: Option<int>, e: Option<int>, n: string)
    ensures
      Lookup(HistoryParams(s, t, st, e, pageNum, pageSize), n) ==
        if n == "page_num" then Some(PInt(pageNum))
        else if n == "page_size" then Some(PInt(pageSize))
        else if StrTruthy(s) && n == "symbol" then Some(PStr(s.value))
        else if IntTruthy(t) && n == "position_type" then Some(PInt(t.value))
        else if IntTruthy(st) && n == "start_time" then Some(PInt(st.value))
        else if IntTruthy(e) && n == "end_time" then Some(PInt(e.value))
        else None
  {
    var pages := [Param("page_num", PInt(pageNum)), Param("page_size", PInt(pageSize))];
    var a := OptionalStr("symbol", s);
    var b := OptionalInt("position_type", t);
    var c := OptionalInt("start_time", st);
    var d := OptionalInt("end_time", e);
    assert pages[1..] == [Param("page_size", PInt(pageSize))];
    assert pages[1..][1..] == [];
    assert Lookup(pages, n) == Lookup(pages[1..], n) || n == "page_num";
    LookupOptional(StrTruthy(s), "symbol", PStr(s.GetOr("")), n);
    LookupOptional(IntTruthy(t), "position_type", PInt(t.GetOr(0)), n);
    LookupOptional(IntTruthy(st), "start_time", PInt(st.GetOr(0)), n);
    LookupOptional(IntTruthy(e), "end_time", PInt(e.GetOr(0)), n);
    LookupAppend(pages + a + b + c, d, n);
    LookupAppend(pages + a + b, c, n);
    LookupAppend(pages + a, b, n);
    LookupAppend(pages, a, n);
  }

  /** What the history request sends, read back as a dict: the page number
      and size always, and each filter exactly when it is truthy, with the
      value the caller passed. */
  lemma HistoryParamsLookup(symbol: Option<string>, positionType: Option<int>,
                            startTime: Option<int>, endTime: Option<int>,
                            pageNum: int, pageSize: int)
    ensures var r := HistoryParams(symbol, positionType, startTime, endTime, pageNum, pageSize);
      && Lookup(r, "page_num") == Some(PInt(pageNum))
      && Lookup(r, "page_size") == Some(PInt(pageSize))
      && Lookup(r, "symbol") ==
           (if StrTruthy(symbol) then Some(PStr(symbol.value)) else None)
      && Lookup(r, "position_type") ==
           (if IntTruthy(positionType) then Some(PInt(positionType.value)) else None)
      && Lookup(r, "start_time") ==
           (if IntTruthy(startTime) then Some(PInt(startTime.value)) else None)
      && Lookup(r, "end_time") ==
           (if IntTruthy(endTime) then Some(PInt(endTime.value)) else None)
  {
    LookupParts(pageNum, pageSize, symbol, positionType, startTime, endTime, "page_num");
    LookupParts(pageNum, pageSize, symbol, positionType, startTime, endTime, "page_size");
    LookupParts(pageNum, pageSize, symbol, positionType, startTime, endTime, "symbol");
    LookupParts(pageNum, pageSize, symbol, positionType, startTime, endTime, "position_type");
    LookupParts(pageNum, pageSize, symbol, positionType, startTime, endTime, "start_time");
    LookupParts(pageNum, pageSize, symbol, positionType, startTime, endTime, "end_time");
  }
}
