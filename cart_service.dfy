/** The cart service (`CartServiceImpl`): carts are created only for users the
    remote user service knows, listed and fetched with their user attached,
    and soft-deleted. The remote lookup is a parameter: one call to the user
    service for a user id answers with one `Lookup`. */
module Carts {
  import opened Domain
  import opened Store

  /** What one call to the user service can end in: a user, an empty body,
      the client's 404 exception, or any other client exception. */
  datatype Lookup = Found(user: UserDto) | EmptyBody | NotFound | Failed

  /** `CartMappingHelper.map(Cart)`, a plain field copy; no user attached, no orders. */
  function CartToDto(c: Cart): CartDto {
    CartDto(c.cartId, Some(c.userId), None, None)
  }

  /** One cart of the listing: kept with the user attached (or with none, for
      an empty body), or dropped when the lookup threw. */
  function Enrich(c: Cart, answer: Lookup): (r: Option<CartDto>)
    ensures r.None? <==> answer.NotFound? || answer.Failed?
    ensures r.Some? ==> r.value.cartId == c.cartId && r.value.userId == Some(c.userId)
    ensures r.Some? ==> r.value.userDto == (if answer.Found? then Some(answer.user) else None)
  {
    match answer
    case Found(u) => Some(CartToDto(c).(userDto := Some(u)))
    case EmptyBody => Some(CartToDto(c))
    case NotFound => None
    case Failed => None
  }

  /** The listing pipeline over `cs`: enrich each cart, drop those whose lookup threw. */
  function EnrichAll(cs: seq<Cart>, lookup: int -> Lookup): (r: seq<CartDto>)
    ensures |r| <= |cs|
  {
    if cs == [] then []
    else
      var head := match Enrich(cs[0], lookup(cs[0].userId)) case Some(d) => [d] case None => [];
      head + EnrichAll(cs[1..], lookup)
  }

  /** The listing holds exactly the enriched forms of the carts whose lookup did not throw. */
  lemma {:induction false} EnrichAllMembers(cs: seq<Cart>, lookup: int -> Lookup)
    ensures forall d :: d in EnrichAll(cs, lookup) <==>
      exists c :: c in cs && Enrich(c, lookup(c.userId)) == Some(d)
  {
    if cs != [] {
      var tail := cs[1..];
      EnrichAllMembers(tail, lookup);
      assert cs == [cs[0]] + tail;
      forall d | d in EnrichAll(cs, lookup)
        ensures exists c :: c in cs && Enrich(c, lookup(c.userId)) == Some(d)
      {
        if Enrich(cs[0], lookup(cs[0].userId)) != Some(d) {
          assert d in EnrichAll(tail, lookup);
          var c :| c in tail && Enrich(c, lookup(c.userId)) == Some(d);
          assert c in cs;
        }
      }
      forall d | exists c :: c in cs && Enrich(c, lookup(c.userId)) == Some(d)
        ensures d in EnrichAll(cs, lookup)
      {
        var c :| c in cs && Enrich(c, lookup(c.userId)) == Some(d);
        if c != cs[0] {
          assert c in tail;
        }
      }
    }
  }

  /** The listing works cart by cart: it distributes over concatenation, so a
      dropped cart takes nothing else with it and the survivors keep their order. */
  lemma {:induction false} EnrichAllAppend(a: seq<Cart>, b: seq<Cart>, lookup: int -> Lookup)
    ensures EnrichAll(a + b, lookup) == EnrichAll(a, lookup) + EnrichAll(b, lookup)
  {
    if a == [] {
      assert a + b == b;
    } else {
      assert (a + b)[0] == a[0];
      assert (a + b)[1..] == a[1..] + b;
      EnrichAllAppend(a[1..], b, lookup);
    }
  }

  /** Carts listed by ascending id. */
  ghost predicate AscendingIds(ds: seq<CartDto>) {
    forall i, j :: 0 <= i < j < |ds| ==>
      ds[i].cartId.Some? && ds[j].cartId.Some? && ds[i].cartId.value < ds[j].cartId.value
  }

  /** Carts ordered by ascending id. */
  ghost predicate AscendingCarts(cs: seq<Cart>) {
    forall i, j :: 0 <= i < j < |cs| ==>
      cs[i].cartId.Some? && cs[j].cartId.Some? && cs[i].cartId.value < cs[j].cartId.value
  }

  /** Dropping carts keeps the listing's order by id. */
  lemma {:induction false} EnrichAllKeepsOrder(cs: seq<Cart>, lookup: int -> Lookup)
    requires AscendingCarts(cs)
    ensures AscendingIds(EnrichAll(cs, lookup))
  {
    if cs != [] {
      var tail := cs[1..];
      assert AscendingCarts(tail) by {
        forall i, j | 0 <= i < j < |tail|
          ensures tail[i].cartId.Some? && tail[j].cartId.Some? && tail[i].cartId.value < tail[j].cartId.value
        {
          assert tail[i] == cs[i + 1] && tail[j] == cs[j + 1];
        }
      }
      EnrichAllKeepsOrder(tail, lookup);
      EnrichAllMembers(tail, lookup);
      var rest := EnrichAll(tail, lookup);
      forall d | d in rest
        ensures d.cartId.Some? && cs[0].cartId.value < d.cartId.value
      {
        var c :| c in tail && Enrich(c, lookup(c.userId)) == Some(d);
        var k :| 0 <= k < |tail| && tail[k] == c;
        assert cs[k + 1] == c;
      }
    }
  }

  /** The carts stored under `ids`, in the order of `ids`. */
  function CartsAt(carts: map<int, Cart>, ids: seq<int>): (cs: seq<Cart>)
    requires forall i :: 0 <= i < |ids| ==> ids[i] in carts
    ensures |cs| == |ids|
    ensures forall i :: 0 <= i < |ids| ==> cs[i] == carts[ids[i]]
  {
    seq(|ids|, i requires 0 <= i < |ids| => carts[ids[i]])
  }

  /** Listing the carts under the ids of exactly the active carts yields, for
      each active cart, its enriched form when its lookup did not throw. */
  lemma ListingMembers(carts: map<int, Cart>, ids: seq<int>, lookup: int -> Lookup)
    requires forall k :: k in ids <==> k in carts && carts[k].active
    requires forall i :: 0 <= i < |ids| ==> ids[i] in carts
    ensures forall d :: d in EnrichAll(CartsAt(carts, ids), lookup) <==>
      exists id :: id in carts && carts[id].active && Enrich(carts[id], lookup(carts[id].userId)) == Some(d)
  {
    var cs := CartsAt(carts, ids);
    var r := EnrichAll(cs, lookup);
    EnrichAllMembers(cs, lookup);
    forall d | d in r
      ensures exists id :: id in carts && carts[id].active && Enrich(carts[id], lookup(carts[id].userId)) == Some(d)
    {
      var c :| c in cs && Enrich(c, lookup(c.userId)) == Some(d);
      var i :| 0 <= i < |cs| && cs[i] == c;
      var id := ids[i];
      assert id in ids;
      assert id in carts && carts[id].active && carts[id] == c;
      assert Enrich(carts[id], lookup(carts[id].userId)) == Some(d);
    }
    forall id | id in carts && carts[id].active && Enrich(carts[id], lookup(carts[id].userId)).Some?
      ensures Enrich(carts[id], lookup(carts[id].userId)).value in r
    {
      var i :| 0 <= i < |ids| && ids[i] == id;
      assert cs[i] == carts[id];
    }
  }

  class CartService {
    const db: Database

    constructor (db: Database)
      ensures this.db == db
    {
      this.db := db;
    }

    /** The active carts, by ascending id, each with its user attached; a cart
        whose lookup threw is left out instead of failing the whole listing. */
    function FindAll(lookup: int -> Lookup): (r: seq<CartDto>)
      reads db
      requires db.Valid()
      ensures forall d :: d in r <==>
        exists id :: id in db.carts && db.carts[id].active
          && Enrich(db.carts[id], lookup(db.carts[id].userId)) == Some(d)
      ensures AscendingIds(r)
    {
      var ids := db.ActiveCartIds();
      assert forall i :: 0 <= i < |ids| ==> ids[i] in ids && ids[i] in db.carts;
      ListingMembers(db.carts, ids, lookup);
      EnrichAllKeepsOrder(CartsAt(db.carts, ids), lookup);
      EnrichAll(CartsAt(db.carts, ids), lookup)
    }

    /** The active cart with this id, with its user attached. A missing or
        soft-deleted cart is CartNotFound; an exception of the lookup reaches
        the caller unchanged. */
    function FindById(id: int, lookup: int -> Lookup): (r: Result<CartDto>)
      reads db
      ensures !(id in db.carts && db.carts[id].active) ==> r == Failure(CartNotFound(id))
      ensures id in db.carts && db.carts[id].active ==>
        match lookup(db.carts[id].userId)
        case NotFound => r == Failure(ClientError(true))
        case Failed => r == Failure(ClientError(false))
        case _ => r == Success(Enrich(db.carts[id], lookup(db.carts[id].userId)).value)
    {
      if !(id in db.carts && db.carts[id].active) then Failure(CartNotFound(id))
      else
        var c := CartToDto(db.carts[id]);
        match lookup(db.carts[id].userId)
        case Found(u) => Success(c.(userDto := Some(u)))
        case EmptyBody => Success(c.(userDto := None))
        case NotFound => Failure(ClientError(true))
        case Failed => Failure(ClientError(false))
    }

    /** Creates a cart for a user the user service knows. Caller-supplied id,
        user record and orders are discarded; on any rejection nothing is stored. */
    method Save(dto: CartDto, lookup: int -> Lookup) returns (r: Result<CartDto>)
      requires db.Valid()
      modifies db
      ensures db.Valid()
      ensures dto.userId.None? ==> r == Failure(IllegalArgument)
      ensures dto.userId.Some? ==>
        match lookup(dto.userId.value)
        case EmptyBody => r == Failure(UserNotFound(dto.userId.value))
        case NotFound => r == Failure(UserNotFound(dto.userId.value))
        case Failed => r == Failure(Infrastructure)
        case Found(_) => r.Success?
      ensures r.Failure? ==> unchanged(db)
      ensures r.Success? ==>
        && dto.userId.Some? && r.value.cartId.Some?
        && var id := r.value.cartId.value;
        && id !in old(db.carts)
        && db.carts == old(db.carts)[id := Cart(Some(id), dto.userId.value, true)]
        && r.value == CartToDto(db.carts[id])
        && (forall k :: k in db.orders ==> db.orders[k].cartId != Some(id))
      ensures db.orders == old(db.orders)
    {
      if dto.userId.None? {
        return Failure(IllegalArgument);
      }
      var userId := dto.userId.value;
      match lookup(userId) {
        case EmptyBody => return Failure(UserNotFound(userId));
        case NotFound => return Failure(UserNotFound(userId));
        case Failed => return Failure(Infrastructure);
        case Found(_) =>
      }
      var input := dto.(cartId := None, orderDtos := None);
      var id := db.InsertCart(Cart(input.cartId, input.userId.value, true));
      r := Success(CartToDto(db.carts[id]));
    }

    /** Soft-deletes a cart found by raw id, so an already inactive cart is
        found too and a second delete succeeds without changing anything. The
        orders that point at the cart are left as they are. */
    method DeleteById(id: int) returns (r: Result<()>)
      requires db.Valid()
      modifies db
      ensures db.Valid()
      ensures id !in old(db.carts) ==> r == Failure(CartNotFound(id)) && unchanged(db)
      ensures id in old(db.carts) ==>
        && r == Success(())
        && db.carts == old(db.carts)[id := old(db.carts[id]).(active := false)]
      ensures id in old(db.carts) && !old(db.carts[id]).active ==> db.carts == old(db.carts)
      ensures db.orders == old(db.orders)
    {
      if id !in db.carts {
        return Failure(CartNotFound(id));
      }
      var cart := db.carts[id];
      if !cart.active {
        assert cart.(active := false) == cart;
        assert db.carts[id := cart.(active := false)] == db.carts;
      }
      db.PutCart(cart.(active := false));
      r := Success(());
    }
  }

  /** Listing and fetching differ only in how they treat a lookup that threw:
      an active cart is listed exactly when fetching it succeeds, and then the
      listing holds what the fetch returns. */
  lemma ListingAgreesWithFetch(s: CartService, id: int, lookup: int -> Lookup)
    requires s.db.Valid()
    requires id in s.db.carts && s.db.carts[id].active
    ensures s.FindById(id, lookup).Success? ==> s.FindById(id, lookup).value in s.FindAll(lookup)
    ensures s.FindById(id, lookup).Failure? ==>
      forall d :: d in s.FindAll(lookup) ==> d.cartId != Some(id)
  {
    var c := s.db.carts[id];
    if s.FindById(id, lookup).Failure? {
      forall d | d in s.FindAll(lookup)
        ensures d.cartId != Some(id)
      {
        var k :| k in s.db.carts && s.db.carts[k].active
          && Enrich(s.db.carts[k], lookup(s.db.carts[k].userId)) == Some(d);
        assert k != id;
      }
    }
  }
}
