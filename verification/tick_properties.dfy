/**
 Properties of one poll of the replication loop and of two successive polls:
 how new positions are opened or adopted, how vanished orders are told apart
 as filled or canceled, how new orders are linked and changed orders
 amended, that a poll keeps the bookkeeping consistent, that repeating a
 poll is a no-op, and the two behaviours of the loop that surprise: a limit
 fill seen in the same poll as its position is mirrored a second time, and a
 failed position fetch closes everything.
 */
module TickProperties {
  import opened Common
  import opened Records
  import opened Links
  import opened Tracker
  import Venue

  // ---------------------------------------------------------------------
  // Placing new orders

  /** Placing new orders links each to the followers whose placement reply
      carried an order id, and leaves the other orders and links alone. */
  lemma {:induction false} PlaceFacts(incoming: seq<Order>, orders: map<string, OrderInfo>,
                                      synced: map<string, seq<Link>>, n: nat, replies: map<string, seq<Reply>>)
    ensures var r := Place(incoming, orders, synced, n, replies);
      && (forall id :: id in OrderIds(incoming) ==> r.synced[id] == LinkPlaced(n, RepliesFor(replies, id)))
      && (forall id :: id in orders && id !in OrderIds(incoming) ==> r.orders[id] == orders[id])
      && (forall id :: id in synced && id !in OrderIds(incoming) ==> r.synced[id] == synced[id])
  {
    if |incoming| > 0 {
      var o := incoming[0];
      IdsCons(incoming);
      PlaceFacts(incoming[1..], orders[o.orderId := OrderInfoOf(o)],
                 synced[o.orderId := LinkPlaced(n, RepliesFor(replies, o.orderId))], n, replies);
    }
  }

  /** How "last record with its id" moves to the tail of a listing. */
  lemma LastOrderTail(os: seq<Order>, i: int)
    requires 0 <= i < |os| && LastOrder(os, i)
    ensures i == 0 ==> os[0].orderId !in OrderIds(os[1..])
    ensures i > 0 ==> os[i] == os[1..][i - 1] && LastOrder(os[1..], i - 1)
  {
    if i == 0 {
      forall q | q in os[1..] ensures q.orderId != os[0].orderId {
        var j :| 0 <= j < |os[1..]| && os[1..][j] == q;
        assert os[j + 1] == q;
      }
    } else {
      forall j | i - 1 < j < |os[1..]| ensures os[1..][j].orderId != os[1..][i - 1].orderId {
        assert os[1..][j] == os[j + 1];
      }
    }
  }

  /** A placed order is tracked with the values of its last record. */
  lemma {:induction false} PlaceLastWins(incoming: seq<Order>, orders: map<string, OrderInfo>,
                                         synced: map<string, seq<Link>>, n: nat, replies: map<string, seq<Reply>>)
    ensures var r := Place(incoming, orders, synced, n, replies);
      forall i :: 0 <= i < |incoming| && LastOrder(incoming, i) ==>
        r.orders[incoming[i].orderId] == OrderInfoOf(incoming[i])
  {
    if |incoming| > 0 {
      var o := incoming[0];
      var rest := incoming[1..];
      var orders' := orders[o.orderId := OrderInfoOf(o)];
      var synced' := synced[o.orderId := LinkPlaced(n, RepliesFor(replies, o.orderId))];
      PlaceLastWins(rest, orders', synced', n, replies);
      PlaceFacts(rest, orders', synced', n, replies);
      var r := Place(incoming, orders, synced, n, replies);
      assert r.orders == Place(rest, orders', synced', n, replies).orders;
      forall i | 0 <= i < |incoming| && LastOrder(incoming, i)
        ensures r.orders[incoming[i].orderId] == OrderInfoOf(incoming[i])
      {
        LastOrderTail(incoming, i);
      }
    }
  }

  // ---------------------------------------------------------------------
  // Amending changed orders

  /** The amend fan-outs sent for one leader order id, in order. */
  function AmendsOf(amends: seq<Amend>, id: string): seq<Amend> {
    if |amends| == 0 then []
    else (if amends[0].orderId == id then [amends[0]] else []) + AmendsOf(amends[1..], id)
  }

  lemma AmendsOfCons(a: Amend, rest: seq<Amend>, id: string)
    ensures AmendsOf([a] + rest, id) == (if a.orderId == id then [a] else []) + AmendsOf(rest, id)
  {
    assert ([a] + rest)[1..] == rest;
  }

  /** The amend step never changes an order's symbol, side, leverage or
      margin mode, never lengthens a link list, leaves the orders the
      snapshot does not list alone, and only amends listed orders that are
      tracked and linked. */
  lemma {:induction false} AmendFacts(snapshot: seq<Order>, orders: map<string, OrderInfo>,
                                      synced: map<string, seq<Link>>, replies: map<string, seq<Reply>>)
    ensures var r := AmendAll(snapshot, orders, synced, replies);
      && (forall id :: id in orders ==> SameTerms(r.orders[id], orders[id]))
      && (forall id :: id in orders && id !in OrderIds(snapshot) ==> r.orders[id] == orders[id])
      && (forall id :: id in synced && id !in OrderIds(snapshot) ==> r.synced[id] == synced[id])
      && (forall id :: id in synced ==> |r.synced[id]| <= |synced[id]|)
      && (forall a :: a in r.amends ==>
            a.orderId in orders && a.orderId in synced && a.orderId in OrderIds(snapshot))
  {
    if |snapshot| > 0 {
      var o := snapshot[0];
      var rest := snapshot[1..];
      IdsCons(snapshot);
      if o.orderId in orders && Changed(orders[o.orderId], o) {
        var orders' := orders[o.orderId := orders[o.orderId].(price := o.price, vol := o.vol)];
        if o.orderId in synced {
          var links := FilterAmended(synced[o.orderId], RepliesFor(replies, o.orderId));
          AmendFacts(rest, orders', synced[o.orderId := links], replies);
        } else {
          AmendFacts(rest, orders', synced, replies);
        }
      } else {
        AmendFacts(rest, orders, synced, replies);
      }
    }
  }

  lemma {:induction false} AmendKeepsLinksValid(snapshot: seq<Order>, orders: map<string, OrderInfo>,
                                                synced: map<string, seq<Link>>, replies: map<string, seq<Reply>>,
                                                n: nat)
    requires LinksValid(synced, n)
    ensures LinksValid(AmendAll(snapshot, orders, synced, replies).synced, n)
  {
    if |snapshot| > 0 {
      var o := snapshot[0];
      var rest := snapshot[1..];
      if o.orderId in orders && Changed(orders[o.orderId], o) {
        var orders' := orders[o.orderId := orders[o.orderId].(price := o.price, vol := o.vol)];
        if o.orderId in synced {
          var links := FilterAmended(synced[o.orderId], RepliesFor(replies, o.orderId));
          assert WellFormed(synced[o.orderId], n);
          AmendKeepsLinksValid(rest, orders', synced[o.orderId := links], replies, n);
        } else {
          AmendKeepsLinksValid(rest, orders', synced, replies, n);
        }
      } else {
        AmendKeepsLinksValid(rest, orders, synced, replies, n);
      }
    }
  }

  /** After the amend step a listed, tracked order carries the price text
      and volume of its last record in the snapshot. */
  lemma {:induction false} AmendLastWins(snapshot: seq<Order>, orders: map<string, OrderInfo>,
                                         synced: map<string, seq<Link>>, replies: map<string, seq<Reply>>)
    ensures var r := AmendAll(snapshot, orders, synced, replies);
      forall i :: 0 <= i < |snapshot| && LastOrder(snapshot, i) && snapshot[i].orderId in orders ==>
        r.orders[snapshot[i].orderId].price == snapshot[i].price &&
        r.orders[snapshot[i].orderId].vol == snapshot[i].vol
  {
    if |snapshot| > 0 {
      var o := snapshot[0];
      var rest := snapshot[1..];
      var r := AmendAll(snapshot, orders, synced, replies);
      var orders', synced' :=
        if o.orderId in orders && Changed(orders[o.orderId], o)
        then orders[o.orderId := orders[o.orderId].(price := o.price, vol := o.vol)] else orders,
        if o.orderId in orders && Changed(orders[o.orderId], o) && o.orderId in synced
        then synced[o.orderId := FilterAmended(synced[o.orderId], RepliesFor(replies, o.orderId))] else synced;
      var r' := AmendAll(rest, orders', synced', replies);
      assert r.orders == r'.orders;
      AmendLastWins(rest, orders', synced', replies);
      AmendFacts(rest, orders', synced', replies);
      forall i | 0 <= i < |snapshot| && LastOrder(snapshot, i) && snapshot[i].orderId in orders
        ensures r.orders[snapshot[i].orderId].price == snapshot[i].price
        ensures r.orders[snapshot[i].orderId].vol == snapshot[i].vol
      {
        LastOrderTail(snapshot, i);
      }
    }
  }

  /** An order none of whose records differ from its tracked price text and
      volume keeps its record and its links, and gets no amend. */
  lemma {:induction false} AmendUntouched(snapshot: seq<Order>, orders: map<string, OrderInfo>,
                                          synced: map<string, seq<Link>>, replies: map<string, seq<Reply>>,
                                          id: string)
    requires id in orders
    requires forall q :: q in snapshot && q.orderId == id ==> !Changed(orders[id], q)
    ensures var r := AmendAll(snapshot, orders, synced, replies);
      && r.orders[id] == orders[id]
      && (id in synced ==> r.synced[id] == synced[id])
      && AmendsOf(r.amends, id) == []
  {
    if |snapshot| > 0 {
      var o := snapshot[0];
      var rest := snapshot[1..];
      assert forall q :: q in rest ==> q in snapshot;
      if o.orderId in orders && Changed(orders[o.orderId], o) {
        assert o.orderId != id;
        var orders' := orders[o.orderId := orders[o.orderId].(price := o.price, vol := o.vol)];
        if o.orderId in synced {
          var links := FilterAmended(synced[o.orderId], RepliesFor(replies, o.orderId));
          AmendUntouched(rest, orders', synced[o.orderId := links], replies, id);
          var r' := AmendAll(rest, orders', synced[o.orderId := links], replies);
          AmendsOfCons(Amend(o.orderId, synced[o.orderId], o.price, o.vol), r'.amends, id);
        } else {
          AmendUntouched(rest, orders', synced, replies, id);
        }
      } else {
        AmendUntouched(rest, orders, synced, replies, id);
      }
    }
  }

  /** When no listed order changed, the amend step does nothing. */
  lemma {:induction false} AmendNoChange(snapshot: seq<Order>, orders: map<string, OrderInfo>,
                                         synced: map<string, seq<Link>>, replies: map<string, seq<Reply>>)
    requires forall q :: q in snapshot && q.orderId in orders ==> !Changed(orders[q.orderId], q)
    ensures AmendAll(snapshot, orders, synced, replies) == Amendment(orders, synced, [])
  {
    if |snapshot| > 0 {
      assert forall q :: q in snapshot[1..] ==> q in snapshot;
      AmendNoChange(snapshot[1..], orders, synced, replies);
    }
  }

  /** A changed order whose records in the snapshot all agree is amended
      exactly once: it takes the new price text and volume, and if it had
      links they get one amend fan-out and are replaced by the links of the
      successful amends. */
  lemma {:induction false} AmendChanged(snapshot: seq<Order>, orders: map<string, OrderInfo>,
                                        synced: map<string, seq<Link>>, replies: map<string, seq<Reply>>,
                                        o: Order)
    requires o in snapshot && o.orderId in orders && Changed(orders[o.orderId], o)
    requires forall q :: q in snapshot && q.orderId == o.orderId ==> q == o
    ensures var r := AmendAll(snapshot, orders, synced, replies);
      && r.orders[o.orderId] == orders[o.orderId].(price := o.price, vol := o.vol)
      && (o.orderId in synced ==>
            r.synced[o.orderId] == FilterAmended(synced[o.orderId], RepliesFor(replies, o.orderId)) &&
            AmendsOf(r.amends, o.orderId) == [Amend(o.orderId, synced[o.orderId], o.price, o.vol)])
      && (o.orderId !in synced ==> AmendsOf(r.amends, o.orderId) == [])
  {
    var id := o.orderId;
    var h := snapshot[0];
    var rest := snapshot[1..];
    assert forall q :: q in rest ==> q in snapshot;
    assert forall q :: q in snapshot ==> q == h || q in rest;
    if h.orderId in orders && Changed(orders[h.orderId], h) {
      var orders' := orders[h.orderId := orders[h.orderId].(price := h.price, vol := h.vol)];
      if h.orderId in synced {
        var links := FilterAmended(synced[h.orderId], RepliesFor(replies, h.orderId));
        var r' := AmendAll(rest, orders', synced[h.orderId := links], replies);
        AmendsOfCons(Amend(h.orderId, synced[h.orderId], h.price, h.vol), r'.amends, id);
        if h.orderId == id {
          AmendUntouched(rest, orders', synced[h.orderId := links], replies, id);
        } else {
          AmendChanged(rest, orders', synced[h.orderId := links], replies, o);
        }
      } else {
        if h.orderId == id {
          AmendUntouched(rest, orders', synced, replies, id);
        } else {
          AmendChanged(rest, orders', synced, replies, o);
        }
      }
    } else {
      assert h.orderId != id;
      AmendChanged(rest, orders, synced, replies, o);
    }
  }

  // ---------------------------------------------------------------------
  // Admitting new positions

  /** Reference definition of adoption: a new record is adopted exactly when
      its key is expected and no earlier new record has the same key (that
      one used the key up). */
  function Adoptions(incoming: seq<Position>, limit: set<PositionKey>): (r: seq<bool>)
    ensures |r| == |incoming|
  {
    seq(|incoming|, i requires 0 <= i < |incoming| =>
      KeyOf(incoming[i]) in limit && forall j :: 0 <= j < i ==> KeyOf(incoming[j]) != KeyOf(incoming[i]))
  }

  /** The records whose flag is off, in order. */
  function Kept(ps: seq<Position>, flags: seq<bool>): (r: seq<Position>)
    requires |flags| == |ps|
    ensures forall p :: p in r ==> exists i :: 0 <= i < |ps| && ps[i] == p && !flags[i]
    ensures forall i :: 0 <= i < |ps| && !flags[i] ==> ps[i] in r
  {
    if |ps| == 0 then []
    else
      var rest := Kept(ps[1..], flags[1..]);
      assert forall i :: 1 <= i < |ps| ==> ps[i] == ps[1..][i - 1] && flags[i] == flags[1..][i - 1];
      if flags[0] then rest else [ps[0]] + rest
  }

  lemma AdoptionsCons(incoming: seq<Position>, limit: set<PositionKey>)
    requires |incoming| > 0
    ensures Adoptions(incoming, limit) ==
            [KeyOf(incoming[0]) in limit] + Adoptions(incoming[1..], UseKey(incoming[0], limit))
  {
    var p := incoming[0];
    var rest := incoming[1..];
    var a := Adoptions(incoming, limit);
    var b := [KeyOf(p) in limit] + Adoptions(rest, UseKey(p, limit));
    forall i | 0 <= i < |incoming| ensures a[i] == b[i] {
      if i > 0 {
        assert incoming[i] == rest[i - 1];
        assert forall j :: 0 <= j < i - 1 ==> rest[j] == incoming[j + 1];
        assert forall j :: 1 <= j < i ==> incoming[j] == rest[j - 1];
      }
    }
  }

  /** Admission adopts exactly the records `Adoptions` names. */
  lemma {:induction false} AdmitAdopts(incoming: seq<Position>, tracked: map<int, PositionInfo>,
                                       limit: set<PositionKey>)
    ensures Admit(incoming, tracked, limit).adopted == Adoptions(incoming, limit)
  {
    if |incoming| > 0 {
      var p := incoming[0];
      AdmitAdopts(incoming[1..], tracked[p.positionId := InfoOf(p)], UseKey(p, limit));
      AdoptionsCons(incoming, limit);
    }
  }

  /** Admission opens the records it does not adopt, in order. */
  lemma {:induction false} AdmitOpens(incoming: seq<Position>, tracked: map<int, PositionInfo>,
                                      limit: set<PositionKey>)
    ensures var r := Admit(incoming, tracked, limit);
      r.opens == Kept(incoming, r.adopted)
  {
    if |incoming| > 0 {
      var p := incoming[0];
      var r' := Admit(incoming[1..], tracked[p.positionId := InfoOf(p)], UseKey(p, limit));
      AdmitOpens(incoming[1..], tracked[p.positionId := InfoOf(p)], UseKey(p, limit));
      assert ([KeyOf(p) in limit] + r'.adopted)[1..] == r'.adopted;
    }
  }

  /** Admission uses up every expected key that a new record carries, and
      only those. */
  lemma {:induction false} AdmitLimit(incoming: seq<Position>, tracked: map<int, PositionInfo>,
                                      limit: set<PositionKey>)
    ensures Admit(incoming, tracked, limit).limit == limit - KeysOf(incoming)
  {
    if |incoming| > 0 {
      var p := incoming[0];
      AdmitLimit(incoming[1..], tracked[p.positionId := InfoOf(p)], UseKey(p, limit));
      assert KeysOf(incoming) == {KeyOf(p)} + KeysOf(incoming[1..]) by {
        assert forall q :: q in incoming <==> q == p || q in incoming[1..];
      }
    }
  }

  /** A new record that is the last with its id is tracked with its own
      values. */
  lemma {:induction false} AdmitLastWins(incoming: seq<Position>, tracked: map<int, PositionInfo>,
                                         limit: set<PositionKey>)
    ensures var r := Admit(incoming, tracked, limit);
      forall i :: 0 <= i < |incoming| && LastPosition(incoming, i) ==>
        r.tracked[incoming[i].positionId] == InfoOf(incoming[i])
  {
    if |incoming| > 0 {
      var p := incoming[0];
      var rest := incoming[1..];
      var limit' := UseKey(p, limit);
      var tracked' := tracked[p.positionId := InfoOf(p)];
      AdmitLastWins(rest, tracked', limit');
      var r := Admit(incoming, tracked, limit);
      assert r.tracked == Admit(rest, tracked', limit').tracked;
      forall i | 0 <= i < |incoming| && LastPosition(incoming, i)
        ensures r.tracked[incoming[i].positionId] == InfoOf(incoming[i])
      {
        if i == 0 {
          LastFirstUnique(incoming);
        } else {
          LastPositionTail(incoming, i);
        }
      }
    }
  }

  lemma LastFirstUnique(ps: seq<Position>)
    requires |ps| > 0 && LastPosition(ps, 0)
    ensures ps[0].positionId !in PositionIds(ps[1..])
  {
    forall q | q in ps[1..] ensures q.positionId != ps[0].positionId {
      var j :| 0 <= j < |ps[1..]| && ps[1..][j] == q;
      assert ps[j + 1] == q;
    }
  }

  lemma LastPositionTail(ps: seq<Position>, i: int)
    requires 0 < i < |ps| && LastPosition(ps, i)
    ensures ps[i] == ps[1..][i - 1] && LastPosition(ps[1..], i - 1)
  {
    forall j | i - 1 < j < |ps[1..]| ensures ps[1..][j].positionId != ps[1..][i - 1].positionId {
      assert ps[1..][j] == ps[j + 1];
    }
  }

  // ---------------------------------------------------------------------
  // Helpers about snapshots

  /** Records of one order id are identical, as in a snapshot read at one
      instant. */
  ghost predicate Consistent(os: seq<Order>) {
    forall a, b :: a in os && b in os && a.orderId == b.orderId ==> a == b
  }

  /** At most one position per symbol and side. */
  ghost predicate DistinctKeys(ps: seq<Position>) {
    forall i, j :: 0 <= i < j < |ps| ==> KeyOf(ps[i]) != KeyOf(ps[j])
  }

  lemma {:induction false} LastIndex(os: seq<Order>, id: string) returns (i: nat)
    requires id in OrderIds(os)
    ensures i < |os| && os[i].orderId == id && LastOrder(os, i)
  {
    IdsCons(os);
    if id in OrderIds(os[1..]) {
      var k := LastIndex(os[1..], id);
      i := k + 1;
      forall j | i < j < |os| ensures os[j].orderId != id {
        assert os[j] == os[1..][j - 1];
      }
    } else {
      i := 0;
      forall j | 0 < j < |os| ensures os[j].orderId != id {
        assert os[j] in os[1..];
      }
    }
  }

  lemma {:induction false} FreshSame(ps: seq<Position>, a: set<int>, b: set<int>)
    requires forall p :: p in ps ==> (p.positionId in a <==> p.positionId in b)
    ensures FreshPositions(ps, a) == FreshPositions(ps, b)
  {
    if |ps| > 0 {
      assert forall p :: p in ps[1..] ==> p in ps;
      FreshSame(ps[1..], a, b);
    }
  }

  lemma DistinctCons(ps: seq<Position>)
    requires |ps| > 0
    ensures DistinctKeys(ps) <==>
      DistinctKeys(ps[1..]) && forall q :: q in ps[1..] ==> KeyOf(q) != KeyOf(ps[0])
  {
    if DistinctKeys(ps) {
      forall q | q in ps[1..] ensures KeyOf(q) != KeyOf(ps[0]) {
        var k :| 0 <= k < |ps[1..]| && ps[1..][k] == q;
        assert ps[k + 1] == q;
      }
    }
    if DistinctKeys(ps[1..]) && forall q :: q in ps[1..] ==> KeyOf(q) != KeyOf(ps[0]) {
      forall i, j | 0 <= i < j < |ps| ensures KeyOf(ps[i]) != KeyOf(ps[j]) {
        assert ps[j] == ps[1..][j - 1];
        if i > 0 { assert ps[i] == ps[1..][i - 1]; }
      }
    }
  }

  lemma {:induction false} FreshKeepsDistinct(ps: seq<Position>, tracked: set<int>)
    requires DistinctKeys(ps)
    ensures DistinctKeys(FreshPositions(ps, tracked))
  {
    if |ps| > 0 {
      var rest := FreshPositions(ps[1..], tracked);
      DistinctCons(ps);
      FreshKeepsDistinct(ps[1..], tracked);
      if ps[0].positionId !in tracked {
        DistinctCons([ps[0]] + rest);
        assert ([ps[0]] + rest)[1..] == rest;
      }
    }
  }

  lemma {:induction false} PlaceKeepsLinksValid(incoming: seq<Order>, orders: map<string, OrderInfo>,
                                                synced: map<string, seq<Link>>, n: nat,
                                                replies: map<string, seq<Reply>>)
    requires LinksValid(synced, n)
    ensures LinksValid(Place(incoming, orders, synced, n, replies).synced, n)
  {
    if |incoming| > 0 {
      var o := incoming[0];
      PlaceKeepsLinksValid(incoming[1..], orders[o.orderId := OrderInfoOf(o)],
                           synced[o.orderId := LinkPlaced(n, RepliesFor(replies, o.orderId))], n, replies);
    }
  }

  // ---------------------------------------------------------------------
  // The position phase

  /** The position diff: the closed ids are the tracked ids the snapshot
      lacks, the new ids are the snapshot ids not tracked, the two never
      overlap, and afterwards exactly the snapshot ids are tracked. */
  lemma PositionDiff(s: State, snapshot: seq<Position>)
    ensures var r := PositionPhase(s, snapshot);
      var incoming := PositionIds(FreshPositions(snapshot, s.positions.Keys));
      && r.closes.Keys == s.positions.Keys - PositionIds(snapshot)
      && incoming == PositionIds(snapshot) - s.positions.Keys
      && r.closes.Keys !! incoming
      && r.positions.Keys == (s.positions.Keys - r.closes.Keys) + incoming
  {
  }

  /** The position phase opens exactly the new records that are not
      adopted, and uses up the expected keys of all new records. */
  lemma PositionPhaseAdmits(s: State, snapshot: seq<Position>)
    ensures var incoming := FreshPositions(snapshot, s.positions.Keys);
      var r := PositionPhase(s, snapshot);
      && r.opens == Kept(incoming, Adoptions(incoming, s.limit))
      && r.limit == s.limit - KeysOf(incoming)
  {
    var closed := s.positions.Keys - PositionIds(snapshot);
    var remaining := s.positions - closed;
    FreshSame(snapshot, remaining.Keys, s.positions.Keys);
    var incoming := FreshPositions(snapshot, s.positions.Keys);
    AdmitAdopts(incoming, remaining, s.limit);
    AdmitOpens(incoming, remaining, s.limit);
    AdmitLimit(incoming, remaining, s.limit);
  }

  /** A new leader position whose symbol and side are not expected from a
      limit fill is opened on the followers. */
  lemma TickOpensUnexpected(s: State, positions: seq<Position>, orders: seq<Order>, n: nat, replies: Replies,
                            p: Position)
    requires p in positions && p.positionId !in s.positions && KeyOf(p) !in s.limit
    ensures p in Tick(s, positions, orders, n, replies).dispatch.opens
  {
    var incoming := FreshPositions(positions, s.positions.Keys);
    PositionPhaseAdmits(s, positions);
    var i :| 0 <= i < |incoming| && incoming[i] == p;
    assert !Adoptions(incoming, s.limit)[i];
  }

  /** Only new positions whose key is not expected are opened, when the
      listing has one position per symbol and side. */
  lemma OpensOnlyUnexpected(s: State, positions: seq<Position>, p: Position)
    requires DistinctKeys(positions)
    ensures p in PositionPhase(s, positions).opens ==> KeyOf(p) !in s.limit
  {
    if p in PositionPhase(s, positions).opens {
      var incoming := FreshPositions(positions, s.positions.Keys);
      PositionPhaseAdmits(s, positions);
      FreshKeepsDistinct(positions, s.positions.Keys);
      var i :| 0 <= i < |incoming| && incoming[i] == p && !Adoptions(incoming, s.limit)[i];
      assert forall j :: 0 <= j < i ==> KeyOf(incoming[j]) != KeyOf(incoming[i]);
    }
  }

  /** With one position per symbol and side, a poll opens exactly the new
      positions whose key is not expected from a limit fill; the others are
      adopted silently. */
  lemma TickOpensExactly(s: State, positions: seq<Position>, orders: seq<Order>, n: nat, replies: Replies)
    requires DistinctKeys(positions)
    ensures forall p :: p in Tick(s, positions, orders, n, replies).dispatch.opens <==>
      p in positions && p.positionId !in s.positions && KeyOf(p) !in s.limit
  {
    var opens := Tick(s, positions, orders, n, replies).dispatch.opens;
    assert opens == PositionPhase(s, positions).opens;
    forall p | p in opens ensures KeyOf(p) !in s.limit {
      OpensOnlyUnexpected(s, positions, p);
    }
    forall p | p in positions && p.positionId !in s.positions && KeyOf(p) !in s.limit ensures p in opens {
      TickOpensUnexpected(s, positions, orders, n, replies, p);
    }
  }

  // ---------------------------------------------------------------------
  // The order phase

  /** A tracked order missing from the snapshot is untracked. If a position
      with its symbol and side exists it is taken as filled: its key becomes
      expected, nothing is canceled and its links stay behind. Otherwise it
      was canceled: its links, if it had any, get a cancel and are dropped. */
  lemma OrderRemoved(s: State, positions: seq<Position>, orders: seq<Order>, n: nat, replies: Replies,
                     id: string)
    requires id in s.orders && id !in OrderIds(orders)
    ensures var r := OrderPhase(s, positions, orders, n, replies);
      && id !in r.orders
      && (PositionExists(positions, OrderKey(s.orders[id])) ==>
            && OrderKey(s.orders[id]) in r.limit
            && id !in r.cancels
            && (id in s.synced ==> id in r.synced && r.synced[id] == s.synced[id]))
      && (!PositionExists(positions, OrderKey(s.orders[id])) ==>
            && id !in r.synced
            && (id in r.cancels <==> id in s.synced)
            && (id in s.synced ==> r.cancels[id] == s.synced[id]))
  {
    var removed := s.orders.Keys - OrderIds(orders);
    var filled := FilledIds(s.orders, removed, positions);
    var canceled := removed - filled;
    var kept := s.orders - removed;
    var incoming := FreshOrders(orders, kept.Keys);
    var placed := Place(incoming, kept, s.synced - canceled, n, replies.place);
    PlaceFacts(incoming, kept, s.synced - canceled, n, replies.place);
    AmendFacts(orders, placed.orders, placed.synced, replies.amend);
    if PositionExists(positions, OrderKey(s.orders[id])) {
      assert id in filled;
    }
  }

  /** The order phase adds to the expected keys exactly the keys of vanished
      orders taken as filled, and nothing else. */
  lemma OrderPhaseLimit(s: State, positions: seq<Position>, orders: seq<Order>, n: nat, replies: Replies)
    ensures OrderPhase(s, positions, orders, n, replies).limit ==
      s.limit + (set id | id in s.orders && id !in OrderIds(orders) &&
                          PositionExists(positions, OrderKey(s.orders[id])) :: OrderKey(s.orders[id]))
  {
    var removed := s.orders.Keys - OrderIds(orders);
    assert FilledIds(s.orders, removed, positions) ==
      set id | id in s.orders && id !in OrderIds(orders) && PositionExists(positions, OrderKey(s.orders[id]));
  }

  /** Only vanished orders without a matching position are canceled, each
      with the links it had. */
  lemma OrderPhaseCancels(s: State, positions: seq<Position>, orders: seq<Order>, n: nat, replies: Replies)
    ensures var r := OrderPhase(s, positions, orders, n, replies);
      forall id :: id in r.cancels ==>
        && id in s.orders && id !in OrderIds(orders) && !PositionExists(positions, OrderKey(s.orders[id]))
        && id in s.synced && r.cancels[id] == s.synced[id]
  {
  }

  /** Exactly the listed orders with an untracked id are placed. */
  lemma OrderPhasePlaces(s: State, positions: seq<Position>, orders: seq<Order>, n: nat, replies: Replies)
    ensures forall o :: o in OrderPhase(s, positions, orders, n, replies).places <==>
      o in orders && o.orderId !in s.orders
  {
    assert forall o :: o in orders ==> o.orderId in OrderIds(orders);
  }

  /** A new order is tracked with its own values, linked to the followers
      whose placement reply carried an order id, and not amended. */
  lemma OrderNew(s: State, positions: seq<Position>, orders: seq<Order>, n: nat, replies: Replies,
                 o: Order)
    requires o in orders && o.orderId !in s.orders && Consistent(orders)
    ensures var r := OrderPhase(s, positions, orders, n, replies);
      && o in r.places
      && r.orders[o.orderId] == OrderInfoOf(o)
      && r.synced[o.orderId] == LinkPlaced(n, RepliesFor(replies.place, o.orderId))
      && AmendsOf(r.amends, o.orderId) == []
  {
    var removed := s.orders.Keys - OrderIds(orders);
    var filled := FilledIds(s.orders, removed, positions);
    var canceled := removed - filled;
    var kept := s.orders - removed;
    var incoming := FreshOrders(orders, kept.Keys);
    var placed := Place(incoming, kept, s.synced - canceled, n, replies.place);
    PlaceFacts(incoming, kept, s.synced - canceled, n, replies.place);
    PlaceLastWins(incoming, kept, s.synced - canceled, n, replies.place);
    assert o in incoming;
    var i := LastIndex(incoming, o.orderId);
    assert incoming[i] in orders;
    AmendUntouched(orders, placed.orders, placed.synced, replies.amend, o.orderId);
  }

  /** A tracked order whose price text or volume changed takes the new
      values; if it has links they get one amend and are replaced by the
      links of the successful amends. */
  lemma OrderChanged(s: State, positions: seq<Position>, orders: seq<Order>, n: nat, replies: Replies,
                     o: Order)
    requires o in orders && o.orderId in s.orders && Consistent(orders) && Changed(s.orders[o.orderId], o)
    ensures var r := OrderPhase(s, positions, orders, n, replies);
      && r.orders[o.orderId] == s.orders[o.orderId].(price := o.price, vol := o.vol)
      && (o.orderId in s.synced ==>
            r.synced[o.orderId] == FilterAmended(s.synced[o.orderId], RepliesFor(replies.amend, o.orderId)) &&
            AmendsOf(r.amends, o.orderId) == [Amend(o.orderId, s.synced[o.orderId], o.price, o.vol)])
      && (o.orderId !in s.synced ==> AmendsOf(r.amends, o.orderId) == [])
  {
    var removed := s.orders.Keys - OrderIds(orders);
    var filled := FilledIds(s.orders, removed, positions);
    var canceled := removed - filled;
    var kept := s.orders - removed;
    var incoming := FreshOrders(orders, kept.Keys);
    var placed := Place(incoming, kept, s.synced - canceled, n, replies.place);
    PlaceFacts(incoming, kept, s.synced - canceled, n, replies.place);
    assert o.orderId in OrderIds(orders);
    AmendChanged(orders, placed.orders, placed.synced, replies.amend, o);
  }

  /** A tracked order none of whose records changed keeps its record and its
      links and gets no amend. */
  lemma OrderUnchanged(s: State, positions: seq<Position>, orders: seq<Order>, n: nat, replies: Replies,
                       id: string)
    requires id in s.orders && id in OrderIds(orders)
    requires forall q :: q in orders && q.orderId == id ==> !Changed(s.orders[id], q)
    ensures var r := OrderPhase(s, positions, orders, n, replies);
      && r.orders[id] == s.orders[id]
      && (id in s.synced ==> r.synced[id] == s.synced[id])
      && AmendsOf(r.amends, id) == []
  {
    var removed := s.orders.Keys - OrderIds(orders);
    var filled := FilledIds(s.orders, removed, positions);
    var canceled := removed - filled;
    var kept := s.orders - removed;
    var incoming := FreshOrders(orders, kept.Keys);
    var placed := Place(incoming, kept, s.synced - canceled, n, replies.place);
    PlaceFacts(incoming, kept, s.synced - canceled, n, replies.place);
    AmendUntouched(orders, placed.orders, placed.synced, replies.amend, id);
  }

  /** The order phase keeps every tracked order linked and every link list
      in account order. */
  lemma OrderPhaseValid(s: State, positions: seq<Position>, orders: seq<Order>, n: nat, replies: Replies)
    requires Valid(s, n)
    ensures var r := OrderPhase(s, positions, orders, n, replies);
      r.orders.Keys <= r.synced.Keys && LinksValid(r.synced, n)
  {
    var removed := s.orders.Keys - OrderIds(orders);
    var filled := FilledIds(s.orders, removed, positions);
    var canceled := removed - filled;
    var kept := s.orders - removed;
    var incoming := FreshOrders(orders, kept.Keys);
    var placed := Place(incoming, kept, s.synced - canceled, n, replies.place);
    PlaceKeepsLinksValid(incoming, kept, s.synced - canceled, n, replies.place);
    AmendKeepsLinksValid(orders, placed.orders, placed.synced, replies.amend, n);
  }

  // ---------------------------------------------------------------------
  // Whole polls

  /** A poll keeps the bookkeeping valid. */
  lemma TickValid(s: State, positions: seq<Position>, orders: seq<Order>, n: nat, replies: Replies)
    requires Valid(s, n)
    ensures Valid(Tick(s, positions, orders, n, replies).state, n)
  {
    var ps := PositionPhase(s, positions);
    OrderPhaseValid(s.(positions := ps.positions, limit := ps.limit), positions, orders, n, replies);
  }

  /** After a poll, every tracked order carries the price text and volume of
      its record in the snapshot. */
  lemma TickTracksOrders(s: State, positions: seq<Position>, orders: seq<Order>, n: nat, replies: Replies)
    requires Consistent(orders)
    ensures var t := Tick(s, positions, orders, n, replies).state;
      forall q :: q in orders ==> !Changed(t.orders[q.orderId], q)
  {
    var ps := PositionPhase(s, positions);
    var s' := s.(positions := ps.positions, limit := ps.limit);
    var t := Tick(s, positions, orders, n, replies).state;
    forall q | q in orders ensures !Changed(t.orders[q.orderId], q) {
      if q.orderId !in s.orders {
        OrderNew(s', positions, orders, n, replies, q);
      } else if Changed(s.orders[q.orderId], q) {
        OrderChanged(s', positions, orders, n, replies, q);
      } else {
        assert q.orderId in OrderIds(orders);
        OrderUnchanged(s', positions, orders, n, replies, q.orderId);
      }
    }
  }

  /** A position phase over a snapshot listing exactly the tracked ids does
      nothing. */
  lemma PositionPhaseIdle(s: State, positions: seq<Position>)
    requires s.positions.Keys == PositionIds(positions)
    ensures PositionPhase(s, positions) == PositionStep(s.positions, s.limit, map[], [])
  {
    var closed := s.positions.Keys - PositionIds(positions);
    assert closed == {};
    assert s.positions - closed == s.positions;
  }

  /** An order phase over a snapshot listing exactly the tracked ids, none
      of them changed, does nothing. */
  lemma OrderPhaseIdle(s: State, positions: seq<Position>, orders: seq<Order>, n: nat, replies: Replies)
    requires s.orders.Keys == OrderIds(orders)
    requires forall q :: q in orders ==> !Changed(s.orders[q.orderId], q)
    ensures OrderPhase(s, positions, orders, n, replies) == OrderStep(s.orders, s.synced, s.limit, map[], [], [])
  {
    var removed := s.orders.Keys - OrderIds(orders);
    assert removed == {};
    var filled := FilledIds(s.orders, removed, positions);
    assert filled == {};
    var canceled := removed - filled;
    assert canceled == {};
    var kept := s.orders - removed;
    assert kept == s.orders;
    var incoming := FreshOrders(orders, kept.Keys);
    assert incoming == [];
    assert s.synced - canceled == s.synced;
    var placed := Place(incoming, kept, s.synced - canceled, n, replies.place);
    assert placed == Placement(s.orders, s.synced);
    AmendNoChange(orders, s.orders, s.synced, replies.amend);
  }

  /** Polling again with the same snapshots changes nothing and sends
      nothing, whatever the followers reply. */
  lemma TickIdempotent(s: State, positions: seq<Position>, orders: seq<Order>, n: nat,
                       replies: Replies, replies': Replies)
    requires Consistent(orders)
    ensures var s1 := Tick(s, positions, orders, n, replies).state;
      Tick(s1, positions, orders, n, replies') == Step(s1, NoCalls)
  {
    var s1 := Tick(s, positions, orders, n, replies).state;
    TickTracksOrders(s, positions, orders, n, replies);
    PositionPhaseIdle(s1, positions);
    assert s1.(positions := s1.positions, limit := s1.limit) == s1;
    OrderPhaseIdle(s1, positions, orders, n, replies');
  }

  /** The limit-fill quirk. The position phase runs before the order phase,
      so when a tracked limit order fills and its position shows up in the
      same poll, the position is opened on the followers by market like any
      other (their own limit orders may fill too), and only afterwards is its
      key marked as expected. The key then stays expected, and in a later
      poll it silences an unrelated new position with the same symbol and
      side. */
  lemma LimitFillQuirk(s: State, positions: seq<Position>, orders: seq<Order>, n: nat, replies: Replies,
                       id: string, p: Position,
                       positions2: seq<Position>, orders2: seq<Order>, replies2: Replies, q: Position)
    requires id in s.orders && id !in OrderIds(orders)
    requires p in positions && p.positionId !in s.positions
    requires KeyOf(p) == OrderKey(s.orders[id]) && KeyOf(p) !in s.limit
    requires q in positions2 && q.positionId !in PositionIds(positions) && KeyOf(q) == KeyOf(p)
    requires DistinctKeys(positions2)
    ensures var t1 := Tick(s, positions, orders, n, replies);
      && p in t1.dispatch.opens
      && KeyOf(p) in t1.state.limit
      && q !in Tick(t1.state, positions2, orders2, n, replies2).dispatch.opens
  {
    var t1 := Tick(s, positions, orders, n, replies);
    var ps := PositionPhase(s, positions);
    TickOpensUnexpected(s, positions, orders, n, replies, p);
    OrderRemoved(s.(positions := ps.positions, limit := ps.limit), positions, orders, n, replies, id);
    TickOpensExactly(t1.state, positions2, orders2, n, replies2);
  }

  /** A failed position fetch reads as "no positions": every tracked leader
      position is closed on all accounts and untracked, nothing is opened,
      and every vanished order is taken as canceled. */
  lemma FailedFetchClosesAll(resp: Venue.Response, s: State, orders: seq<Order>, n: nat, replies: Replies)
    requires !Truthy(resp.success)
    ensures Venue.DecodeOpenPositions(resp) == []
    ensures var t := Tick(s, [], orders, n, replies);
      && t.dispatch.closes == s.positions
      && t.state.positions == map[]
      && t.dispatch.opens == []
      && (forall id :: id in s.orders && id !in OrderIds(orders) ==>
            id !in t.state.synced && (id in t.dispatch.cancels <==> id in s.synced))
  {
    var t := Tick(s, [], orders, n, replies);
    assert PositionIds([]) == {};
    assert FreshPositions([], s.positions.Keys) == [];
    var ps := PositionPhase(s, []);
    forall id | id in s.orders && id !in OrderIds(orders)
      ensures id !in t.state.synced && (id in t.dispatch.cancels <==> id in s.synced)
    {
      OrderRemoved(s.(positions := ps.positions, limit := ps.limit), [], orders, n, replies, id);
    }
  }
}
