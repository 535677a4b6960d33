/** Stateless conversions between the order entity and its transfer shape
    (`OrderMappingHelper`). The current time is a parameter. */
module OrderMapping {
  import opened Domain

  /** A cart transfer shape that carries an id and nothing else. */
  function CartRef(cartId: Option<int>): CartDto {
    CartDto(cartId, None, None, None)
  }

  /** `map(Order)` exactly as written: the status is never copied. */
  function ToDtoAsWritten(o: Order): (r: OrderDto)
    ensures r.orderId == o.orderId && r.orderDate == o.orderDate
    ensures r.orderDesc == o.orderDesc && r.orderFee == o.orderFee
    ensures r.orderStatus == None
    ensures r.cartDto == Some(CartRef(o.cartId))
  {
    OrderDto(o.orderId, o.orderDate, o.orderDesc, o.orderFee, None, Some(CartRef(o.cartId)))
  }

  /** `map(Order)` as the services' callers rely on it: like the code, but the
      stored status is carried along. Every service result is built with this. */
  function ToDto(o: Order): (r: OrderDto)
    ensures r.orderId == o.orderId && r.orderDate == o.orderDate
    ensures r.orderDesc == o.orderDesc && r.orderFee == o.orderFee
    ensures r.orderStatus == Some(o.status)
    ensures r.cartDto.Some? && r.cartDto.value.cartId == o.cartId
    ensures r.cartDto.value.userId.None? && r.cartDto.value.userDto.None?
    ensures r.cartDto.value.orderDtos.None?
  {
    ToDtoAsWritten(o).(orderStatus := Some(o.status))
  }

  /** `map(OrderDto)`: the order date is stamped with `now`, whatever the DTO
      says. The builder sets neither status nor active flag; the model takes the
      entity's defaults to be CREATED and active. The nested cart reference is
      dereferenced, so a DTO without one is outside the method's domain. */
  function FromDto(dto: OrderDto, now: Time): (r: Order)
    requires dto.cartDto.Some?
    ensures r.orderId == dto.orderId
    ensures r.orderDate == Some(now)
    ensures r.orderDesc == dto.orderDesc && r.orderFee == dto.orderFee
    ensures r.cartId == dto.cartDto.value.cartId
    ensures r.status == Created && r.active
  {
    Order(dto.orderId, Some(now), dto.orderDesc, dto.orderFee, Created, true, dto.cartDto.value.cartId)
  }

  /** `mapForUpdate(OrderDto, Cart)`: the given cart replaces whatever cart the
      DTO names; id, date, description and fee come from the DTO. */
  function MapForUpdate(dto: OrderDto, cartId: Option<int>): (r: Order)
    ensures r.cartId == cartId
    ensures r.orderId == dto.orderId && r.orderDate == dto.orderDate
    ensures r.orderDesc == dto.orderDesc && r.orderFee == dto.orderFee
    ensures r.status == Created && r.active
  {
    Order(dto.orderId, dto.orderDate, dto.orderDesc, dto.orderFee, Created, true, cartId)
  }

  /** The code as written loses every order's status in transfer shape. */
  lemma AsWrittenLosesStatus(o: Order)
    ensures ToDtoAsWritten(o).orderStatus != Some(o.status)
    ensures ToDto(o).orderStatus == Some(o.status)
  {
  }

  /** Entity to DTO and back keeps id, description, fee and cart id; the date
      becomes `now`. The entity comes back unchanged exactly when its date is
      `now` and its status and active flag are the entity defaults. */
  lemma RoundTrip(o: Order, now: Time)
    ensures var back := FromDto(ToDto(o), now);
      && back.orderId == o.orderId
      && back.orderDesc == o.orderDesc
      && back.orderFee == o.orderFee
      && back.cartId == o.cartId
      && back.orderDate == Some(now)
    ensures FromDto(ToDto(o), now) == o <==> o.orderDate == Some(now) && o.status == Created && o.active
  {
  }

  /** Two DTOs that differ only in their dates map to the same entity. */
  lemma FromDtoIgnoresDate(dto: OrderDto, date: Option<Time>, now: Time)
    requires dto.cartDto.Some?
    ensures FromDto(dto.(orderDate := date), now) == FromDto(dto, now)
  {
  }

  /** Two DTOs that differ only in their carts map to the same updated entity. */
  lemma MapForUpdateIgnoresDtoCart(dto: OrderDto, other: Option<CartDto>, cartId: Option<int>)
    ensures MapForUpdate(dto.(cartDto := other), cartId) == MapForUpdate(dto, cartId)
  {
  }
}
