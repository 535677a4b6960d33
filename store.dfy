/** The persistent store behind both services: one id-keyed table of orders
    and one of carts. Records are never removed; a soft delete clears the
    record's `active` flag. The "active" queries of the repositories
    (`findAllByIsActiveTrue`, `findBy...IdAndIsActiveTrue`) filter on that
    flag; the inherited `findById` does not. */
module Store {
  import opened Domain

  /** The members of `ids` in `[lo, hi)`, in ascending order. */
  function IdsBetween(ids: set<int>, lo: int, hi: int): (r: seq<int>)
    decreases hi - lo
    ensures forall k :: k in r <==> k in ids && lo <= k < hi
    ensures forall i :: 0 <= i < |r| ==> lo <= r[i] < hi
    ensures forall i, j :: 0 <= i < j < |r| ==> r[i] < r[j]
  {
    if hi <= lo then []
    else
      var rest := IdsBetween(ids, lo + 1, hi);
      if lo in ids then
        [lo] + rest
      else rest
  }

  class Database {
    var orders: map<int, Order>
    var carts: map<int, Cart>
    /** The id the store assigns to the next order (resp. cart) it inserts. */
    var nextOrderId: int
    var nextCartId: int

    /** Every record is stored under its own id, every id was handed out by
        the store, and every order refers to a cart the store holds. */
    ghost predicate Valid()
      reads this
    {
      && 0 < nextOrderId
      && 0 < nextCartId
      && (forall id :: id in orders ==> 0 < id < nextOrderId && orders[id].orderId == Some(id))
      && (forall id :: id in carts ==> 0 < id < nextCartId && carts[id].cartId == Some(id))
      && (forall id :: id in orders ==> orders[id].cartId.Some? && orders[id].cartId.value in carts)
    }

    constructor ()
      ensures Valid()
      ensures orders == map[] && carts == map[]
    {
      orders, carts := map[], map[];
      nextOrderId, nextCartId := 1, 1;
    }

    /** The ids of the active orders, ascending (`findAllByIsActiveTrue`). */
    function ActiveOrderIds(): (r: seq<int>)
      reads this
      requires Valid()
      ensures forall id :: id in r <==> id in orders && orders[id].active
      ensures forall i, j :: 0 <= i < j < |r| ==> r[i] < r[j]
    {
      IdsBetween(set id | id in orders && orders[id].active, 1, nextOrderId)
    }

    /** The ids of the active carts, ascending (`findAllByIsActiveTrue`). */
    function ActiveCartIds(): (r: seq<int>)
      reads this
      requires Valid()
      ensures forall id :: id in r <==> id in carts && carts[id].active
      ensures forall i, j :: 0 <= i < j < |r| ==> r[i] < r[j]
    {
      IdsBetween(set id | id in carts && carts[id].active, 1, nextCartId)
    }

    /** `save` of an order without id: the store assigns a fresh one. */
    method InsertOrder(o: Order) returns (id: int)
      requires Valid()
      requires o.cartId.Some? && o.cartId.value in carts
      modifies this
      ensures Valid()
      ensures id !in old(orders)
      ensures orders == old(orders)[id := o.(orderId := Some(id))]
      ensures carts == old(carts) && nextCartId == old(nextCartId)
    {
      id := nextOrderId;
      orders := orders[id := o.(orderId := Some(id))];
      nextOrderId := nextOrderId + 1;
    }

    /** `save` of an order that carries the id of a stored order: it replaces that record. */
    method PutOrder(o: Order)
      requires Valid()
      requires o.orderId.Some? && o.orderId.value in orders
      requires o.cartId.Some? && o.cartId.value in carts
      modifies this
      ensures Valid()
      ensures orders == old(orders)[o.orderId.value := o]
      ensures carts == old(carts)
      ensures nextOrderId == old(nextOrderId) && nextCartId == old(nextCartId)
    {
      orders := orders[o.orderId.value := o];
    }

    /** `save` of a cart without id: the store assigns a fresh one. */
    method InsertCart(c: Cart) returns (id: int)
      requires Valid()
      modifies this
      ensures Valid()
      ensures id !in old(carts)
      ensures carts == old(carts)[id := c.(cartId := Some(id))]
      ensures orders == old(orders) && nextOrderId == old(nextOrderId)
    {
      id := nextCartId;
      carts := carts[id := c.(cartId := Some(id))];
      nextCartId := nextCartId + 1;
    }

    /** `save` of a cart that carries the id of a stored cart: it replaces that record. */
    method PutCart(c: Cart)
      requires Valid()
      requires c.cartId.Some? && c.cartId.value in carts
      modifies this
      ensures Valid()
      ensures carts == old(carts)[c.cartId.value := c]
      ensures orders == old(orders)
      ensures nextOrderId == old(nextOrderId) && nextCartId == old(nextCartId)
    {
      carts := carts[c.cartId.value := c];
    }
  }
}
