/** Scenarios of the two services, after the service unit tests, whose
    asserts are proved from the contracts alone: a new order walks
    CREATED -> ORDERED -> IN_PAYMENT and is then stuck, and the cart listing
    drops only the cart whose user lookup failed. */
module Scenarios {
  import opened Domain
  import opened Store
  import opened Orders
  import opened Carts

  function KnownUser(id: int): UserDto {
    UserDto(Some(id), "John", "Doe", "john.doe@example.com")
  }

  /** A store holding one cart, of a known user, and one new order in it. */
  method NewOrder(now: Time) returns (orders: OrderService, id: int)
    ensures fresh(orders) && fresh(orders.db) && orders.db.Valid()
    ensures id in orders.db.orders && orders.db.orders[id].active
    ensures orders.db.orders[id].status == Created && orders.db.orders[id].orderDate == Some(now)
  {
    var db := new Database();
    var carts := new CartService(db);
    orders := new OrderService(db);

    var cart := carts.Save(CartDto(None, Some(1), None, None), u => Found(KnownUser(u)));
    assert cart.Success?;
    var cartId := cart.value.cartId.value;

    // the id and status the caller sends are discarded
    var created := orders.Save(
      OrderDto(Some(42), None, Some("First order"), Some(99.99), Some(InPayment), Some(CartDto(Some(cartId), None, None, None))),
      now);
    assert created.Success?;
    assert created.value.orderStatus == Some(Created) && created.value.orderDate == Some(now);
    id := created.value.orderId.value;
  }

  /** Two status updates reach IN_PAYMENT; the third is refused. */
  method PayOrder(orders: OrderService, id: int)
    requires orders.db.Valid()
    requires id in orders.db.orders && orders.db.orders[id].active && orders.db.orders[id].status == Created
    modifies orders.db
    ensures orders.db.Valid()
    ensures id in orders.db.orders && orders.db.orders[id].active && orders.db.orders[id].status == InPayment
  {
    var first := orders.UpdateStatus(id);
    assert first.Success? && first.value.orderStatus == Some(Ordered);
    assert orders.db.orders[id].active && orders.db.orders[id].status == Ordered;
    var second := orders.UpdateStatus(id);
    assert second.Success? && second.value.orderStatus == Some(InPayment);
    assert orders.db.orders[id].active && orders.db.orders[id].status == InPayment;
    var third := orders.UpdateStatus(id);
    assert third == Failure(IllegalState(AlreadyPaid));
  }

  /** A paid order cannot be deleted, and an order with an empty description is refused. */
  method RefusePaidOrder(orders: OrderService, id: int, now: Time)
    requires orders.db.Valid()
    requires id in orders.db.orders && orders.db.orders[id].active && orders.db.orders[id].status == InPayment
    modifies orders.db
  {
    var cartId := orders.db.orders[id].cartId;
    var deleted := orders.DeleteById(id);
    assert deleted == Failure(IllegalState(PaidCannotBeDeleted));
    assert orders.FindById(id).Success?;

    var missing := orders.Save(
      OrderDto(None, None, Some(""), Some(-1.0), None, Some(CartDto(cartId, None, None, None))),
      now);
    assert missing == Failure(IllegalState(MissingDescription));
  }

  method OrderLifecycle(now: Time) {
    var orders, id := NewOrder(now);
    PayOrder(orders, id);
    RefusePaidOrder(orders, id, now);
  }

  /** The user service is down for user 7 and knows everyone else. */
  function SevenUnreachable(u: int): Lookup {
    if u == 7 then Failed else Found(KnownUser(u))
  }

  /** What a listing with exactly the carts of users 7 and 8 holds when user 7 cannot be looked up. */
  lemma ListingWithoutSeven(carts: map<int, Cart>, listed: seq<CartDto>, id7: int, id8: int)
    requires id7 != id8
    requires carts == map[id7 := Cart(Some(id7), 7, true), id8 := Cart(Some(id8), 8, true)]
    requires forall d :: d in listed <==>
      exists id :: id in carts && carts[id].active && Enrich(carts[id], SevenUnreachable(carts[id].userId)) == Some(d)
    ensures CartDto(Some(id8), Some(8), Some(KnownUser(8)), None) in listed
    ensures forall d :: d in listed ==> d.userId == Some(8)
  {
    assert Enrich(carts[id8], SevenUnreachable(carts[id8].userId)) == Some(CartDto(Some(id8), Some(8), Some(KnownUser(8)), None));
    forall d | d in listed
      ensures d.userId == Some(8)
    {
      var k :| k in carts && carts[k].active && Enrich(carts[k], SevenUnreachable(carts[k].userId)) == Some(d);
      assert k == id7 || k == id8;
    }
  }

  method CartListingDropsFailedLookup() {
    var db := new Database();
    var carts := new CartService(db);

    var seven := carts.Save(CartDto(None, Some(7), None, None), u => Found(KnownUser(u)));
    assert seven.Success?;
    var id7 := seven.value.cartId.value;
    var eight := carts.Save(CartDto(None, Some(8), None, None), u => Found(KnownUser(u)));
    assert eight.Success?;
    var id8 := eight.value.cartId.value;
    assert db.carts == map[id7 := Cart(Some(id7), 7, true), id8 := Cart(Some(id8), 8, true)];

    var listed := carts.FindAll(SevenUnreachable);
    ListingWithoutSeven(db.carts, listed, id7, id8);

    assert db.carts[id7].active && db.carts[id7].userId == 7;
    var fetched := carts.FindById(id7, SevenUnreachable);
    assert fetched == Failure(ClientError(false));

    var refused := carts.Save(CartDto(None, Some(9), None, None), u => NotFound);
    assert refused == Failure(UserNotFound(9));
  }
}
