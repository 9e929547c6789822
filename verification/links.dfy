/**
 Follower links: which follower account holds which mirror order of a leader
 order. A link list is built from the per-account replies of a limit-order
 fan-out and rebuilt from the replies of an amend fan-out. Followers are
 numbered by their position in the account list.
 */
module Links {
  import opened Common

  /** The `data` member of a reply: an object, or a bare value. */
  datatype ReplyData = Obj(fields: Record) | Val(v: Scalar)

  /** One follower's reply to a mutating call. `Unparseable` stands for a
      body whose JSON could not be read. */
  datatype Reply = Unparseable | Reply(success: Option<Scalar>, data: Option<ReplyData>)

  /** One mirror order: the follower's index and the order id it reported. */
  datatype Link = Link(account: nat, order: Option<ReplyData>)

  /** The follower order id in a placement reply: present only when the
      reply is successful and `data` is an object holding `orderId`. Any
      other shape makes the lookup fail, and the reply is skipped. */
  function PlacedOrderId(reply: Reply): (r: Option<Scalar>)
    ensures r.Some? ==> reply.Reply? && Truthy(reply.success)
  {
    match reply
    case Unparseable => None
    case Reply(success, data) =>
      if Truthy(success) && data.Some? && data.value.Obj? && "orderId" in data.value.fields
      then Some(data.value.fields["orderId"])
      else None
  }

  /** An amend reply is used when it is successful; its `data` member, read
      with `.get`, is taken as the new order id even when it is missing. */
  predicate AmendSucceeded(reply: Reply) {
    reply.Reply? && Truthy(reply.success)
  }

  /** Accounts appear in strictly increasing order. */
  ghost predicate AccountsIncreasing(links: seq<Link>) {
    forall p, q :: 0 <= p < q < |links| ==> links[p].account < links[q].account
  }

  ghost predicate AccountsBelow(links: seq<Link>, n: nat) {
    forall l :: l in links ==> l.account < n
  }

  /** A link list as the loop keeps it for `n` followers. */
  ghost predicate WellFormed(links: seq<Link>, n: nat) {
    AccountsIncreasing(links) && AccountsBelow(links, n)
  }

  function PlacedFrom(replies: seq<Reply>, i: nat, end: nat): (r: seq<Link>)
    requires end <= |replies|
    decreases end - i
    ensures forall l :: l in r ==>
      i <= l.account < end && PlacedOrderId(replies[l.account]).Some? &&
      l.order == Some(Val(PlacedOrderId(replies[l.account]).value))
    ensures forall k :: i <= k < end && PlacedOrderId(replies[k]).Some? ==>
      Link(k, Some(Val(PlacedOrderId(replies[k]).value))) in r
    ensures AccountsIncreasing(r)
  {
    if i >= end then []
    else
      var rest := PlacedFrom(replies, i + 1, end);
      match PlacedOrderId(replies[i])
      case Some(id) => [Link(i, Some(Val(id)))] + rest
      case None => rest
  }

  /** The links of a freshly fanned-out limit order: one per follower whose
      reply carried an order id, in account order. Replies are paired with
      the `n` followers position by position; surplus on either side is
      dropped. */
  function LinkPlaced(n: nat, replies: seq<Reply>): (r: seq<Link>)
    ensures forall l :: l in r ==>
      l.account < n && l.account < |replies| && PlacedOrderId(replies[l.account]).Some? &&
      l.order == Some(Val(PlacedOrderId(replies[l.account]).value))
    ensures forall k :: 0 <= k < n && k < |replies| && PlacedOrderId(replies[k]).Some? ==>
      Link(k, Some(Val(PlacedOrderId(replies[k]).value))) in r
    ensures WellFormed(r, n)
  {
    PlacedFrom(replies, 0, if n < |replies| then n else |replies|)
  }

  function AmendedFrom(links: seq<Link>, replies: seq<Reply>, i: nat): (r: seq<Link>)
    requires i <= |links| && i <= |replies|
    decreases |links| - i
    ensures |r| <= |links| - i
    ensures forall l :: l in r ==>
      exists k :: i <= k < |links| && k < |replies| && AmendSucceeded(replies[k]) &&
        l == Link(links[k].account, replies[k].data)
    ensures forall k :: i <= k < |links| && k < |replies| && AmendSucceeded(replies[k]) ==>
      Link(links[k].account, replies[k].data) in r
    ensures AccountsIncreasing(links) ==> AccountsIncreasing(r)
  {
    if i == |links| || i == |replies| then []
    else
      var rest := AmendedFrom(links, replies, i + 1);
      if AmendSucceeded(replies[i]) then
        var head := Link(links[i].account, replies[i].data);
        assert AccountsIncreasing(links) ==> forall l :: l in rest ==> head.account < l.account;
        [head] + rest
      else rest
  }

  /** The links after an amend fan-out: for each old link whose amend reply
      succeeded, the same follower with the new order id, in the old order.
      Failed amends drop their link, so the list never grows. */
  function FilterAmended(links: seq<Link>, replies: seq<Reply>): (r: seq<Link>)
    ensures |r| <= |links|
    ensures forall l :: l in r ==>
      exists k :: 0 <= k < |links| && k < |replies| && AmendSucceeded(replies[k]) &&
        l == Link(links[k].account, replies[k].data)
    ensures forall k :: 0 <= k < |links| && k < |replies| && AmendSucceeded(replies[k]) ==>
      Link(links[k].account, replies[k].data) in r
    ensures forall n: nat :: WellFormed(links, n) ==> WellFormed(r, n)
  {
    AmendedFrom(links, replies, 0)
  }
}
