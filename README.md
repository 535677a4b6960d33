# Order service: carts, orders and the order lifecycle

A Dafny model of the decision logic of the order service of an e-commerce
microservice system. The service keeps carts and orders in one relational
store and asks a separate user service whether a cart's owner exists. The model covers:

- **the order lifecycle service** (`OrderServiceImpl`). Orders are created
  only after four checks in a fixed order. A status update takes no argument
  and moves an order one step along CREATED → ORDERED → IN_PAYMENT, where
  IN_PAYMENT is terminal. An update replaces description and fee and keeps
  the stored cart, date and status. A delete is soft (it clears the `active`
  flag) and is refused for a paid order;
- **the cart service** (`CartServiceImpl`). A cart is created only for a user
  the user service knows. The listing drops a cart whose user lookup threw,
  while fetching a single cart lets the same failure through. A delete is
  soft and finds the cart by raw id;
- **the order mapping helper** (`OrderMappingHelper`), which converts between
  the order entity and its transfer shape.

Files:

- `domain.dfy`: entities, transfer shapes (DTOs) and errors. Java's
  nullable fields are `Option`s.
- `store.dfy`: class `Database` with the order table and the cart table,
  each a `map<int, _>` from id to record. `Valid()` says three things: both
  id counters are positive; every record is stored under its own id, which
  lies below its table's counter; and every order points at a stored cart. The "active" queries list ids in ascending order.
- `order_mapping.dfy`: the three mappings, and the round trip between them.
- `order_service.dfy`: the status machine (`Next`, `Advance`), the creation
  checks (`CreationError`), and class `OrderService` over a `Database`.
- `cart_service.dfy`: the user-lookup outcome (`Lookup`), the listing
  pipeline (`Enrich`, `EnrichAll`), and class `CartService`.
- `scenarios.dfy`: two scenarios in the style of the service unit tests,
  whose asserts are proved from the contracts alone.

The remote user lookup is a parameter of each cart operation: a function
from user id to `Found(user) | EmptyBody | NotFound | Failed`. These are the
four outcomes the code tells apart. `EmptyBody` is a null response body.
`NotFound` is the client's `HttpClientErrorException.NotFound` subtype.
`Failed` is any other `RestClientException`.

In these places the code is ambiguous, or its tests expect something else; the model follows the code:

- Order creation accepts a soft-deleted cart. The existence check uses the
  unfiltered `findById` (`OrderServiceImpl.java:81`).
- Only the `NotFound` exception subtype counts as "user not found" in cart
  creation. A generic client exception that carries status 404, which
  `CartResourceIntegrationTest.java:79` throws, falls into the generic branch
  and becomes `Infrastructure` (`CartServiceImpl.java:93-96`).
- Fetching one cart does not translate lookup failures. The lookup's own
  exception reaches the caller, which the model writes as `ClientError`
  (`CartServiceImpl.java:66-73`).
- No code in `OrderServiceImpl.java` or `OrderMappingHelper.java` sets the
  status of a new order; `save` even clears it (`OrderServiceImpl.java:56`).
  The model assumes that the order entity's builder defaults are status
  CREATED and active true. It uses those defaults in `FromDto` and
  `MapForUpdate`.
- Likewise no code in `CartServiceImpl.java` sets the active flag of a new
  cart: the entity comes from `CartMappingHelper.map(cartDto)`
  (`CartServiceImpl.java:101`), which is not part of this model. The model
  assumes a new cart is active, so `CartService.Save` stores
  `Cart(Some(id), userId, true)`.
- The service calls `mapForCreationOrder` (`OrderServiceImpl.java:90`) and a
  three-argument `mapForUpdate` (`:144`), but the helper defines neither. The
  model uses `map(OrderDto)` for the first. For the second it uses the
  two-argument `mapForUpdate`, with the id and the status taken from the
  service's arguments.

## Model

| member | source | states |
|---|---|---|
| `Store.Database.ActiveOrderIds` | src/main/java/com/selimhorri/app/repository/OrderRepository.java:12 | exactly the ids of stored orders whose active flag is set, each once, ascending |
| `Store.Database.ActiveCartIds` | src/main/java/com/selimhorri/app/repository/CartRepository.java:12 | exactly the ids of stored carts whose active flag is set, each once, ascending |
| `Store.Database.InsertOrder` | src/main/java/com/selimhorri/app/repository/OrderRepository.java:10 | saving an order without id stores it under a fresh store-assigned id and changes nothing else; the store invariant is kept |
| `Store.Database.PutOrder` | src/main/java/com/selimhorri/app/repository/OrderRepository.java:10 | saving an order that carries a stored id replaces exactly that record |
| `Store.Database.InsertCart` | src/main/java/com/selimhorri/app/repository/CartRepository.java:10 | saving a cart without id stores it under a fresh store-assigned id; orders untouched |
| `Store.Database.PutCart` | src/main/java/com/selimhorri/app/repository/CartRepository.java:10 | saving a cart that carries a stored id replaces exactly that record; orders untouched |
| `OrderMapping.ToDtoAsWritten` | src/main/java/com/selimhorri/app/helper/OrderMappingHelper.java:12-23 | `map(Order)` as written: id, date, description and fee copied unchanged, nested cart carries the cart id only, status left null |
| `OrderMapping.ToDto` | src/main/java/com/selimhorri/app/helper/OrderMappingHelper.java:12-23 | corrected `map(Order)`: same copies, plus the stored status; the nested cart has no user, user id or orders, so the cart graph is never expanded |
| `OrderMapping.FromDto` | src/main/java/com/selimhorri/app/helper/OrderMappingHelper.java:25-36 | `map(OrderDto)` copies id, description, fee and cart id from the DTO and stamps the date with the supplied time, never the DTO's date |
| `OrderMapping.MapForUpdate` | src/main/java/com/selimhorri/app/helper/OrderMappingHelper.java:39-46 | `mapForUpdate` uses the supplied cart whatever the DTO names, and copies id, date, description and fee from the DTO |
| `OrderMapping.AsWrittenLosesStatus` | src/main/java/com/selimhorri/app/helper/OrderMappingHelper.java:12-23 | for every order, the as-written mapping loses the status and the corrected one keeps it |
| `OrderMapping.RoundTrip` | src/main/java/com/selimhorri/app/helper/OrderMappingHelper.java:12-36 | entity → DTO → entity keeps id, description, fee and cart id and sets the date to now; the entity comes back equal exactly when its date is now and it has the default status and flag |
| `OrderMapping.FromDtoIgnoresDate` | src/main/java/com/selimhorri/app/helper/OrderMappingHelper.java:28 | DTOs differing only in their date map to the same entity |
| `OrderMapping.MapForUpdateIgnoresDtoCart` | src/main/java/com/selimhorri/app/helper/OrderMappingHelper.java:45 | DTOs differing only in their cart map to the same updated entity |
| `Orders.Next` | src/main/java/com/selimhorri/app/service/impl/OrderServiceImpl.java:104-118 | a status update fails exactly on IN_PAYMENT, and otherwise moves to the status one position further on; the caller cannot choose the target |
| `Orders.AdvanceRank` | src/main/java/com/selimhorri/app/service/impl/OrderServiceImpl.java:104-118 | n successive updates succeed exactly when the last position is not passed, and end exactly n positions further on (no state is skipped) |
| `Orders.FromCreated` | src/main/java/com/selimhorri/app/service/impl/OrderServiceImpl.java:104-118 | from CREATED, IN_PAYMENT is reached after exactly two updates, and every later update fails |
| `Orders.CreationError` | src/main/java/com/selimhorri/app/service/impl/OrderServiceImpl.java:59-86 | creation is refused in this order: missing cart reference or cart id, null or empty description, null or negative fee, then a cart id absent from the cart table (CartNotFound with that id); accepted exactly when all four pass |
| `Orders.CreationIgnoresIdAndStatus` | src/main/java/com/selimhorri/app/service/impl/OrderServiceImpl.java:55-86 | the caller's id and status never decide whether creation is accepted |
| `Orders.CreationAcceptsInactiveCart` | src/main/java/com/selimhorri/app/service/impl/OrderServiceImpl.java:80-86 | soft-deleting the referenced cart does not change the outcome of the creation checks |
| `Orders.OrderService.FindAll` | src/main/java/com/selimhorri/app/service/impl/OrderServiceImpl.java:33-41 | the listing holds exactly the active orders in transfer shape, ascending by order id |
| `Orders.OrderService.FindById` | src/main/java/com/selimhorri/app/service/impl/OrderServiceImpl.java:43-50 | succeeds exactly when an active order has the id, with that order in transfer shape; a soft-deleted order is OrderNotFound |
| `Orders.OrderService.Save` | src/main/java/com/selimhorri/app/service/impl/OrderServiceImpl.java:52-91 | fails exactly when a creation check fails, with that check's error and the store unchanged; otherwise stores one new order under a fresh id with status CREATED, date now, description, fee and cart from the input, active, and returns it; the caller's id and status play no part |
| `Orders.OrderService.UpdateStatus` | src/main/java/com/selimhorri/app/service/impl/OrderServiceImpl.java:93-132 | OrderNotFound unless the order is active; on IN_PAYMENT an illegal-state error with nothing saved; otherwise only the status of that order changes, to its successor, and the result carries it |
| `Orders.OrderService.Update` | src/main/java/com/selimhorri/app/service/impl/OrderServiceImpl.java:134-147 | OrderNotFound with store unchanged unless the order is active; otherwise only description and fee of that order are replaced by the input's, unvalidated, while id, cart, date, status and flag stay, whatever the input says, also for a paid order |
| `Orders.OrderService.DeleteById` | src/main/java/com/selimhorri/app/service/impl/OrderServiceImpl.java:149-163 | OrderNotFound unless the order is active; a paid order is refused and stays active; otherwise only the active flag of that order is cleared, after which FindById fails and FindAll omits it; a failure changes nothing |
| `Carts.Enrich` | src/main/java/com/selimhorri/app/service/impl/CartServiceImpl.java:43-55 | a listed cart is dropped exactly when its lookup threw; otherwise it keeps its id and user id and carries the user found, or no user for an empty body |
| `Carts.EnrichAll` | src/main/java/com/selimhorri/app/service/impl/CartServiceImpl.java:40-58 | the listing pipeline never returns more carts than it was given |
| `Carts.EnrichAllMembers` | src/main/java/com/selimhorri/app/service/impl/CartServiceImpl.java:40-58 | the pipeline's output is exactly the enriched forms of the carts whose lookup did not throw |
| `Carts.EnrichAllAppend` | src/main/java/com/selimhorri/app/service/impl/CartServiceImpl.java:40-58 | the pipeline works cart by cart (it distributes over concatenation): one failing lookup drops only its own cart and the rest keep their relative order |
| `Carts.EnrichAllKeepsOrder` | src/main/java/com/selimhorri/app/service/impl/CartServiceImpl.java:40-58 | carts given in ascending id order come out in ascending id order |
| `Carts.CartsAt` | src/main/java/com/selimhorri/app/service/impl/CartServiceImpl.java:40 | the carts fetched for a list of ids, in the order of the ids |
| `Carts.ListingMembers` | src/main/java/com/selimhorri/app/service/impl/CartServiceImpl.java:37-59 | listing the active carts yields exactly the enriched forms of the active carts whose lookup did not throw |
| `Carts.CartService.FindAll` | src/main/java/com/selimhorri/app/service/impl/CartServiceImpl.java:37-59 | exactly the active carts whose lookup did not throw, each with its user attached, ascending by cart id |
| `Carts.CartService.FindById` | src/main/java/com/selimhorri/app/service/impl/CartServiceImpl.java:61-74 | CartNotFound unless an active cart has the id; otherwise a lookup exception reaches the caller unchanged, and a user or empty body gives the cart with that user or none |
| `Carts.CartService.Save` | src/main/java/com/selimhorri/app/service/impl/CartServiceImpl.java:76-102 | null user id is IllegalArgument; empty body or not-found is UserNotFound; any other lookup failure is Infrastructure; on every failure the store is unchanged; on success one new active cart with a fresh id and the input's user id is stored, no order refers to it, and the orders are untouched |
| `Carts.CartService.DeleteById` | src/main/java/com/selimhorri/app/service/impl/CartServiceImpl.java:104-116 | CartNotFound with store unchanged when no cart, active or not, has the id; otherwise only that cart's active flag is cleared; deleting an inactive cart succeeds and leaves the cart table as it was (idempotent) |
| `Carts.ListingAgreesWithFetch` | src/main/java/com/selimhorri/app/service/impl/CartServiceImpl.java:37-74 | for an active cart, the listing contains what fetching it returns when the fetch succeeds, and leaves the cart out when the fetch fails |
| `Scenarios.ListingWithoutSeven` | src/main/java/com/selimhorri/app/service/impl/CartServiceImpl.java:43-56 | with carts of users 7 and 8, where user 7's lookup fails, the listing holds user 8's cart with its user and nothing of user 7 |

## Findings

| source | as written | input that shows it | evidently intended | confidence | as-written member | corrected member |
|---|---|---|---|---|---|---|
| src/main/java/com/selimhorri/app/helper/OrderMappingHelper.java:12-23 | `map(Order)` never sets `orderStatus`, so every order the service returns has a null status | any order, for example one just moved from CREATED to ORDERED by `updateStatus` | the transfer shape carries the stored status, as `OrderServiceTest.java:159` and `:174` expect | not executed; medium, because `OrderMappingHelper.java` also lacks two methods the service calls, so the deployed helper may differ | `OrderMapping.AsWrittenLosesStatus` | `OrderMapping.ToDto` |

## Left out

- HTTP resources, the `collection` envelope of list responses, and the mapping
  of errors to status codes are not part of this model.
- The user service call is a function parameter. URL building, load
  balancing and the network are not modelled. Within one operation, two
  lookups of the same user id get the same answer.
- The services mutate the caller's DTO in place (`setOrderId(null)`,
  `setOrderStatus(...)`, `setCartId(null)`, `setUserDto(...)`). The model
  treats DTOs as values, so the caller does not see these changes.
- Service ids are non-null integers. What happens on a null `Integer` id is
  not modelled.
- `CartMappingHelper` and the entity and DTO classes are not part of this
  model. Cart-to-DTO mapping is a plain field copy (`CartToDto`). The user
  lookup in the listing and fetch is keyed on the cart's user id. The source
  reads that id from the nested user reference, which the mapping fills from
  the cart.
- The cart's collection of orders is a back-reference. The model derives it
  from the order table and does not store it twice.
- `Orders.OrderService.UpdateStatus`: the `default` branch for an unknown
  status (`OrderServiceImpl.java:115-117`) cannot be reached. The status is
  a three-constructor datatype and is never null in the model.
- `OrderMapping.FromDto`: the Java code dereferences the nested cart
  reference, so a DTO without one would raise a null-pointer error. The
  model makes that a precondition. The service checks the reference before
  it calls the mapping.
- `Carts.CartService.Save`: the model does not observe the order of calls,
  so "null user id fails before any lookup" appears only as "fails with
  IllegalArgument whatever the lookup answers".
- `Carts.CartService.DeleteById`: idempotence is stated on the cart table.
  The second call leaves `carts` as it was, and `orders` is never touched.
- Listings come back in ascending id order. The repository does not promise
  any order, and `.distinct()` is a no-op on records with distinct ids.
- `@Transactional`, logging, the catch-and-rethrow in `updateStatus`, and
  concurrent requests (last writer wins) are not modelled.
- The order fee is a `real` and only its sign is checked. Dates are abstract
  numbers, and "now" is a parameter.
- Exception messages are not modelled. An error carries only its kind, the
  id it concerns, and for illegal states the reason.
