/** The order lifecycle service (`OrderServiceImpl`): creation checks, the
    argument-less status machine CREATED -> ORDERED -> IN_PAYMENT, updates that
    keep cart, date and status, and a guarded soft delete. */
module Orders {
  import opened Domain
  import opened Store
  import OrderMapping

  /** Position of a status in the lifecycle. */
  function Rank(s: Status): nat {
    match s
    case Created => 0
    case Ordered => 1
    case InPayment => 2
  }

  /** The status one `updateStatus` call moves to; None for the terminal state. */
  function Next(s: Status): (r: Option<Status>)
    ensures r.None? <==> s == InPayment
    ensures r.Some? ==> Rank(r.value) == Rank(s) + 1
  {
    match s
    case Created => Some(Ordered)
    case Ordered => Some(InPayment)
    case InPayment => None
  }

  /** The status after `n` further calls of `updateStatus`, or None if one of them fails. */
  function Advance(s: Status, n: nat): Option<Status>
    decreases n
  {
    if n == 0 then Some(s)
    else match Next(s)
      case None => None
      case Some(t) => Advance(t, n - 1)
  }

  /** Each call advances exactly one position: no state is skipped, and a call
      fails exactly when it would leave the last position. */
  lemma {:induction false} AdvanceRank(s: Status, n: nat)
    decreases n
    ensures Advance(s, n).Some? <==> Rank(s) + n <= 2
    ensures Advance(s, n).Some? ==> Rank(Advance(s, n).value) == Rank(s) + n
  {
    if n > 0 {
      match Next(s)
      case None =>
      case Some(t) => AdvanceRank(t, n - 1);
    }
  }

  /** From a new order, two calls reach IN_PAYMENT and a third one fails. */
  lemma FromCreated(n: nat)
    ensures Advance(Created, n) == Some(InPayment) <==> n == 2
    ensures Advance(Created, n).None? <==> n >= 3
  {
    AdvanceRank(Created, n);
  }

  /** A cart reference with an id is present. */
  predicate HasCartRef(dto: OrderDto) {
    dto.cartDto.Some? && dto.cartDto.value.cartId.Some?
  }

  predicate HasDescription(dto: OrderDto) {
    dto.orderDesc.Some? && dto.orderDesc.value != ""
  }

  predicate HasValidFee(dto: OrderDto) {
    dto.orderFee.Some? && dto.orderFee.value >= 0.0
  }

  /** The first creation rule `dto` breaks, checked in the service's order:
      cart reference, description, fee, then existence of the cart among all
      stored carts, soft-deleted ones included. None when the order may be saved. */
  function CreationError(dto: OrderDto, carts: map<int, Cart>): (r: Option<Error>)
    ensures r.None? <==>
      HasCartRef(dto) && HasDescription(dto) && HasValidFee(dto) && dto.cartDto.value.cartId.value in carts
    ensures r == Some(IllegalState(MissingCart)) <==> !HasCartRef(dto)
    ensures r == Some(IllegalState(MissingDescription)) <==> HasCartRef(dto) && !HasDescription(dto)
    ensures r == Some(IllegalState(InvalidFee)) <==>
      HasCartRef(dto) && HasDescription(dto) && !HasValidFee(dto)
    ensures r.Some? && r.value.CartNotFound? <==>
      HasCartRef(dto) && HasDescription(dto) && HasValidFee(dto) && dto.cartDto.value.cartId.value !in carts
    ensures r.Some? && r.value.CartNotFound? ==> r.value.cartId == dto.cartDto.value.cartId.value
  {
    if !HasCartRef(dto) then Some(IllegalState(MissingCart))
    else if !HasDescription(dto) then Some(IllegalState(MissingDescription))
    else if !HasValidFee(dto) then Some(IllegalState(InvalidFee))
    // the repeated cart check that follows in the source can no longer fail
    else if dto.cartDto.value.cartId.value !in carts then Some(CartNotFound(dto.cartDto.value.cartId.value))
    else None
  }

  /** The caller's id and status play no part in the checks. */
  lemma CreationIgnoresIdAndStatus(dto: OrderDto, carts: map<int, Cart>, id: Option<int>, status: Option<Status>)
    ensures CreationError(dto.(orderId := id, orderStatus := status), carts) == CreationError(dto, carts)
  {
  }

  /** A soft-deleted cart passes the existence check like an active one. */
  lemma CreationAcceptsInactiveCart(dto: OrderDto, carts: map<int, Cart>, id: int)
    requires id in carts
    ensures CreationError(dto, carts[id := carts[id].(active := false)]) == CreationError(dto, carts)
  {
    assert carts[id := carts[id].(active := false)].Keys == carts.Keys;
  }

  class OrderService {
    const db: Database

    constructor (db: Database)
      ensures this.db == db
    {
      this.db := db;
    }

    /** Every active order in transfer shape, by ascending id. */
    function FindAll(): (r: seq<OrderDto>)
      reads db
      requires db.Valid()
      ensures forall d :: d in r <==>
        exists id :: id in db.orders && db.orders[id].active && d == OrderMapping.ToDto(db.orders[id])
      ensures forall i, j :: 0 <= i < j < |r| ==>
        r[i].orderId.Some? && r[j].orderId.Some? && r[i].orderId.value < r[j].orderId.value
    {
      var ids := db.ActiveOrderIds();
      var orders := db.orders;
      var r := seq(|ids|, i requires 0 <= i < |ids| => OrderMapping.ToDto(orders[ids[i]]));
      assert forall id :: id in orders && orders[id].active ==> OrderMapping.ToDto(orders[id]) in r by {
        forall id | id in orders && orders[id].active
          ensures OrderMapping.ToDto(orders[id]) in r
        {
          var i :| 0 <= i < |ids| && ids[i] == id;
          assert r[i] == OrderMapping.ToDto(orders[id]);
        }
      }
      r
    }

    /** The active order with this id; a soft-deleted order counts as missing. */
    function FindById(id: int): (r: Result<OrderDto>)
      reads db
      ensures r.Failure? <==> !(id in db.orders && db.orders[id].active)
      ensures r.Failure? ==> r.error == OrderNotFound(id)
      ensures r.Success? ==> r.value == OrderMapping.ToDto(db.orders[id])
    {
      if id in db.orders && db.orders[id].active then Success(OrderMapping.ToDto(db.orders[id]))
      else Failure(OrderNotFound(id))
    }

    /** Creates an order. The caller's id and status are discarded; on any
        rejection nothing is stored. */
    method Save(dto: OrderDto, now: Time) returns (r: Result<OrderDto>)
      requires db.Valid()
      modifies db
      ensures db.Valid()
      ensures r.Failure? <==> CreationError(dto, old(db.carts)).Some?
      ensures r.Failure? ==> r.error == CreationError(dto, old(db.carts)).value && unchanged(db)
      ensures r.Success? ==>
        && r.value.orderId.Some?
        && var id := r.value.orderId.value;
        && id !in old(db.orders)
        && db.orders == old(db.orders)[id := Order(Some(id), Some(now), dto.orderDesc, dto.orderFee,
                                                   Created, true, dto.cartDto.value.cartId)]
        && r.value == OrderMapping.ToDto(db.orders[id])
        && r.value.orderStatus == Some(Created)
      ensures db.carts == old(db.carts)
    {
      var input := dto.(orderId := None, orderStatus := None);
      var error := CreationError(input, db.carts);
      if error.Some? {
        return Failure(error.value);
      }
      var id := db.InsertOrder(OrderMapping.FromDto(input, now));
      r := Success(OrderMapping.ToDto(db.orders[id]));
    }

    /** Moves an active order one step along the lifecycle; the caller cannot
        name a target. An IN_PAYMENT order is refused and nothing is saved. */
    method UpdateStatus(id: int) returns (r: Result<OrderDto>)
      requires db.Valid()
      modifies db
      ensures db.Valid()
      ensures !(id in old(db.orders) && old(db.orders[id]).active) ==> r == Failure(OrderNotFound(id))
      ensures id in old(db.orders) && old(db.orders[id]).active ==>
        match Next(old(db.orders[id]).status)
        case None => r == Failure(IllegalState(AlreadyPaid))
        case Some(s) =>
          && db.orders == old(db.orders)[id := old(db.orders[id]).(status := s)]
          && r == Success(OrderMapping.ToDto(db.orders[id]))
      ensures r.Failure? ==> unchanged(db)
      ensures db.carts == old(db.carts)
    {
      if !(id in db.orders && db.orders[id].active) {
        return Failure(OrderNotFound(id));
      }
      var existing := db.orders[id];
      var newStatus;
      match existing.status {
        case Created => newStatus := Ordered;
        case Ordered => newStatus := InPayment;
        case InPayment => return Failure(IllegalState(AlreadyPaid));
      }
      var updated := existing.(status := newStatus);
      db.PutOrder(updated);
      r := Success(OrderMapping.ToDto(updated));
    }

    /** Replaces description and fee of an active order. Cart, date and status
        stay those of the stored order, whatever the DTO says; the new values
        are not validated, and a paid order can still be updated. */
    method Update(id: int, dto: OrderDto) returns (r: Result<OrderDto>)
      requires db.Valid()
      modifies db
      ensures db.Valid()
      ensures !(id in old(db.orders) && old(db.orders[id]).active) ==>
        r == Failure(OrderNotFound(id)) && unchanged(db)
      ensures id in old(db.orders) && old(db.orders[id]).active ==>
        && db.orders == old(db.orders)[id := old(db.orders[id]).(orderDesc := dto.orderDesc, orderFee := dto.orderFee)]
        && r == Success(OrderMapping.ToDto(db.orders[id]))
      ensures db.carts == old(db.carts)
    {
      if !(id in db.orders && db.orders[id].active) {
        return Failure(OrderNotFound(id));
      }
      var existing := db.orders[id];
      var input := dto.(orderId := Some(id), orderStatus := Some(existing.status));
      // the three-argument mapForUpdate: the two-argument mapping, the id given
      // explicitly and the status taken from the DTO
      var updated := OrderMapping.MapForUpdate(input, existing.cartId).(orderId := Some(id), status := input.orderStatus.value);
      updated := updated.(orderDate := existing.orderDate);
      db.PutOrder(updated);
      r := Success(OrderMapping.ToDto(updated));
    }

    /** Soft-deletes an active order unless it is IN_PAYMENT. Afterwards the
        order is invisible to both reads. */
    method DeleteById(id: int) returns (r: Result<()>)
      requires db.Valid()
      modifies db
      ensures db.Valid()
      ensures !(id in old(db.orders) && old(db.orders[id]).active) ==> r == Failure(OrderNotFound(id))
      ensures id in old(db.orders) && old(db.orders[id]).active && old(db.orders[id]).status == InPayment ==>
        r == Failure(IllegalState(PaidCannotBeDeleted))
      ensures id in old(db.orders) && old(db.orders[id]).active && old(db.orders[id]).status != InPayment ==>
        r == Success(())
      ensures r.Failure? ==> unchanged(db)
      ensures r.Success? ==>
        && id in old(db.orders) && old(db.orders[id]).active && old(db.orders[id]).status != InPayment
        && db.orders == old(db.orders)[id := old(db.orders[id]).(active := false)]
        && FindById(id) == Failure(OrderNotFound(id))
        && forall d :: d in FindAll() ==> d.orderId != Some(id)
      ensures db.carts == old(db.carts)
    {
      if !(id in db.orders && db.orders[id].active) {
        return Failure(OrderNotFound(id));
      }
      var order := db.orders[id];
      if order.status == InPayment {
        return Failure(IllegalState(PaidCannotBeDeleted));
      }
      db.PutOrder(order.(active := false));
      r := Success(());
    }
  }
}
