/** Entities, transfer shapes and errors of the order service.
    Java's nullable references are `Option`s; a field the service always
    fills before persisting is a plain value. */
module Domain {

  datatype Option<+T> = None | Some(value: T)

  /** A point in time (`LocalDateTime`), abstracted to a number. */
  type Time = int

  /** Order status. The constructors are listed in lifecycle order. */
  datatype Status = Created | Ordered | InPayment

  /** The user record the remote user service returns. */
  datatype UserDto = UserDto(userId: Option<int>, firstName: string, lastName: string, email: string)

  /** A persisted cart. Its owning user id is checked non-null before any cart
      is built, so it is a plain `int`. The cart's list of orders is a JPA
      back-reference: it is whatever the order store points at this cart, and
      is not stored twice. */
  datatype Cart = Cart(cartId: Option<int>, userId: int, active: bool)

  /** A persisted order. The entity holds a `Cart` object, of which only the
      id is ever read or written by the core; `cartId` is that id. */
  datatype Order = Order(
    orderId: Option<int>,
    orderDate: Option<Time>,
    orderDesc: Option<string>,
    orderFee: Option<real>,
    status: Status,
    active: bool,
    cartId: Option<int>)

  /** Transfer shape of a cart; an order's nested cart uses the same shape. */
  datatype CartDto = CartDto(
    cartId: Option<int>,
    userId: Option<int>,
    userDto: Option<UserDto>,
    orderDtos: Option<seq<OrderDto>>)

  /** Transfer shape of an order. */
  datatype OrderDto = OrderDto(
    orderId: Option<int>,
    orderDate: Option<Time>,
    orderDesc: Option<string>,
    orderFee: Option<real>,
    orderStatus: Option<Status>,
    cartDto: Option<CartDto>)

  /** Why an `IllegalStateException` was raised. */
  datatype Reason =
    | MissingCart          // no cart reference, or a cart reference without id
    | MissingDescription   // null or empty description
    | InvalidFee           // null or negative fee
    | AlreadyPaid          // status update on an IN_PAYMENT order
    | PaidCannotBeDeleted  // delete of an IN_PAYMENT order

  /** The exceptions the services raise. */
  datatype Error =
    | OrderNotFound(orderId: int)
    | CartNotFound(cartId: int)
    | UserNotFound(userId: int)
    | IllegalState(reason: Reason)
    | IllegalArgument
    /** The generic runtime error that wraps a failed user lookup in cart creation. */
    | Infrastructure
    /** The user lookup's own HTTP client exception, propagated unchanged;
        `notFound` tells the 404 subtype from every other client failure. */
    | ClientError(notFound: bool)

  datatype Result<+T> = Success(value: T) | Failure(error: Error)
}
