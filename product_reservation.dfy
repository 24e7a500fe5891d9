/** `ProductReservationService`: holds stock for a user for thirty minutes.
    The reservation table is a sequence indexed by reservation id; a
    reservation is never removed, only deactivated. Instants are epoch
    milliseconds. */
module ProductReservations {
  import opened Wrappers
  import opened JavaLang
  import opened Failures
  import ProductCatalog

  /** How long a reservation holds stock. */
  const RESERVATION_DURATION_MINUTES := 30
  const MINUTE_MILLIS := 60_000

  /** `ProductReservation`. */
  datatype Reservation = Reservation(
    productId: int, userId: int, quantity: int, reservedAt: int, expiresAt: int, active: bool)

  /** What one reservation holds of a product's stock. */
  function Held(r: Reservation, productId: int): int
  {
    if r.active && r.productId == productId then r.quantity else 0
  }

  /** The sum of the quantities of the product's active reservations
      (`findByProductIdAndActiveTrue(...).sum()`). */
  function ActiveQuantity(rs: seq<Reservation>, productId: int): int
  {
    if rs == [] then 0 else ActiveQuantity(rs[..|rs| - 1], productId) + Held(rs[|rs| - 1], productId)
  }

  /** A new reservation adds what it holds. */
  lemma ActiveQuantityAppend(rs: seq<Reservation>, r: Reservation, productId: int)
    ensures ActiveQuantity(rs + [r], productId) == ActiveQuantity(rs, productId) + Held(r, productId)
  {
    assert (rs + [r])[..|rs|] == rs;
  }

  /** Replacing one reservation changes the sum by the difference of what the
      old and the new one hold. */
  lemma {:induction false} ActiveQuantityReplace(rs: seq<Reservation>, i: nat, r: Reservation, productId: int)
    requires i < |rs|
    ensures ActiveQuantity(rs[i := r], productId)
         == ActiveQuantity(rs, productId) - Held(rs[i], productId) + Held(r, productId)
  {
    var n := |rs| - 1;
    if i == n {
      assert rs[i := r][..n] == rs[..n];
    } else {
      assert rs[i := r][..n] == rs[..n][i := r];
      ActiveQuantityReplace(rs[..n], i, r, productId);
    }
  }

  /** Every product's active reservations fit in its stock (a product without
      a stock figure is not constrained). */
  predicate WithinStock(rs: seq<Reservation>, products: map<int, ProductCatalog.Product>)
  {
    forall p :: p in products && products[p].stockQuantity.Some? ==>
      ActiveQuantity(rs, p) <= products[p].stockQuantity.value
  }

  /** `reserveProduct`: the product is looked up first, then the user; a null
      stock cannot be unboxed; a request above the available quantity (stock
      minus what active reservations hold) is refused; otherwise a new active
      reservation expiring thirty minutes after `now` is the outcome. */
  function ReserveOutcome(rs: seq<Reservation>, products: map<int, ProductCatalog.Product>, users: set<int>,
                          productId: int, userId: int, quantity: int, now: int): (o: Result<Reservation, Failure>)
    ensures productId !in products ==> o == Err(ProductCatalog.ProductNotFound(productId))
    ensures productId in products && userId !in users ==>
      o == Err(ResourceNotFound("User not found with id: " + IntToString(userId)))
    ensures o.Ok? <==>
      productId in products && userId in users && products[productId].stockQuantity.Some?
      && quantity <= products[productId].stockQuantity.value - ActiveQuantity(rs, productId)
    ensures o.Ok? ==>
      o.value == Reservation(productId, userId, quantity, now, now + RESERVATION_DURATION_MINUTES * MINUTE_MILLIS, true)
    ensures o.Err? && productId in products && userId in users && products[productId].stockQuantity.Some? ==>
      o == Err(InsufficientStock("Not enough stock available"))
  {
    if productId !in products then Err(ProductCatalog.ProductNotFound(productId))
    else if userId !in users then Err(ResourceNotFound("User not found with id: " + IntToString(userId)))
    else if products[productId].stockQuantity.None? then Err(NullPointer)
    else if products[productId].stockQuantity.value - ActiveQuantity(rs, productId) < quantity then
      Err(InsufficientStock("Not enough stock available"))
    else Ok(Reservation(productId, userId, quantity, now, now + RESERVATION_DURATION_MINUTES * MINUTE_MILLIS, true))
  }

  /** A successful reservation keeps every product's reservations within its
      stock. */
  lemma ReservePreservesWithinStock(rs: seq<Reservation>, products: map<int, ProductCatalog.Product>, users: set<int>,
                                    productId: int, userId: int, quantity: int, now: int)
    requires WithinStock(rs, products)
    requires ReserveOutcome(rs, products, users, productId, userId, quantity, now).Ok?
    ensures WithinStock(rs + [ReserveOutcome(rs, products, users, productId, userId, quantity, now).value], products)
  {
    var r := ReserveOutcome(rs, products, users, productId, userId, quantity, now).value;
    forall p | p in products && products[p].stockQuantity.Some?
      ensures ActiveQuantity(rs + [r], p) <= products[p].stockQuantity.value
    {
      ActiveQuantityAppend(rs, r, p);
    }
  }

  /** `releaseReservation` on an existing reservation: an active one becomes
      inactive, an inactive one is left as it is. */
  function Released(rs: seq<Reservation>, id: nat): (r: seq<Reservation>)
    requires id < |rs|
    ensures |r| == |rs| && !r[id].active
    ensures r[id].(active := rs[id].active) == rs[id]
    ensures forall j :: 0 <= j < |rs| && j != id ==> r[j] == rs[j]
  {
    if rs[id].active then rs[id := rs[id].(active := false)] else rs
  }

  /** Releasing twice is releasing once, and a release frees exactly what the
      reservation held. */
  lemma ReleaseIdempotent(rs: seq<Reservation>, id: nat, productId: int)
    requires id < |rs|
    ensures Released(Released(rs, id), id) == Released(rs, id)
    ensures ActiveQuantity(Released(rs, id), productId) == ActiveQuantity(rs, productId) - Held(rs[id], productId)
  {
    if rs[id].active {
      ActiveQuantityReplace(rs, id, rs[id].(active := false), productId);
    }
  }

  /** `deactivateReservationsForUser(product, user)`: the active reservations
      of that product by that user become inactive; all others are kept. */
  function DeactivatedFor(rs: seq<Reservation>, productId: int, userId: int): (r: seq<Reservation>)
    ensures |r| == |rs|
    ensures forall i :: 0 <= i < |rs| ==>
      r[i] == (if rs[i].active && rs[i].productId == productId && rs[i].userId == userId
               then rs[i].(active := false) else rs[i])
  {
    seq(|rs|, i requires 0 <= i < |rs| =>
      if rs[i].active && rs[i].productId == productId && rs[i].userId == userId
      then rs[i].(active := false) else rs[i])
  }

  /** After the release for an order no reservation of that product by that
      user is active, and the product's other users keep what they hold. */
  lemma DeactivatedForLeavesNoneActive(rs: seq<Reservation>, productId: int, userId: int, i: nat)
    requires i < |rs|
    ensures var r := DeactivatedFor(rs, productId, userId);
      !(r[i].active && r[i].productId == productId && r[i].userId == userId)
      && (rs[i].userId != userId ==> Held(r[i], productId) == Held(rs[i], productId))
  {
  }

  /** `deactivateExpiredReservations(now)`: the active reservations whose
      expiry lies strictly before `now` become inactive; all others are kept. */
  function DeactivatedExpired(rs: seq<Reservation>, now: int): (r: seq<Reservation>)
    ensures |r| == |rs|
    ensures forall i :: 0 <= i < |rs| ==>
      r[i] == (if rs[i].active && rs[i].expiresAt < now then rs[i].(active := false) else rs[i])
  {
    seq(|rs|, i requires 0 <= i < |rs| =>
      if rs[i].active && rs[i].expiresAt < now then rs[i].(active := false) else rs[i])
  }

  /** After the cleanup every active reservation is still within its time,
      and a reservation expiring exactly at `now` stays active. */
  lemma CleanupKeepsOnlyLive(rs: seq<Reservation>, now: int, i: nat)
    requires i < |rs|
    ensures DeactivatedExpired(rs, now)[i].active ==> DeactivatedExpired(rs, now)[i].expiresAt >= now
    ensures rs[i].active && rs[i].expiresAt == now ==> DeactivatedExpired(rs, now)[i].active
  {
  }

  class ProductReservationService {
    /** The reservation table; a reservation's id is its index. */
    var reservations: seq<Reservation>

    constructor ()
      ensures reservations == []
    {
      reservations := [];
    }

    /** `reserveProduct`: stores the outcome's reservation under the next id,
        or stores nothing. */
    method Reserve(catalog: ProductCatalog.ProductService, users: set<int>, productId: int, userId: int,
                   quantity: int, now: int) returns (r: Result<nat, Failure>)
      modifies this`reservations
      ensures var o := ReserveOutcome(old(reservations), catalog.products, users, productId, userId, quantity, now);
        (o.Err? ==> r == Err(o.error) && reservations == old(reservations))
        && (o.Ok? ==> r == Ok(|old(reservations)|) && reservations == old(reservations) + [o.value])
    {
      var o := ReserveOutcome(reservations, catalog.products, users, productId, userId, quantity, now);
      if o.Err? {
        r := Err(o.error);
      } else {
        r := Ok(|reservations|);
        reservations := reservations + [o.value];
      }
    }

    /** `releaseReservation`: an unknown id is an error. */
    method Release(id: int) returns (r: Result<(), Failure>)
      modifies this`reservations
      ensures !(0 <= id < |old(reservations)|) ==>
        r == Err(ResourceNotFound("Reservation not found")) && reservations == old(reservations)
      ensures 0 <= id < |old(reservations)| ==> r == Ok(()) && reservations == Released(old(reservations), id)
    {
      if !(0 <= id < |reservations|) {
        r := Err(ResourceNotFound("Reservation not found"));
      } else {
        if reservations[id].active {
          reservations := reservations[id := reservations[id].(active := false)];
        }
        r := Ok(());
      }
    }

    /** `releaseReservationsForOrder(product, user)`. */
    method ReleaseForOrder(productId: int, userId: int)
      modifies this`reservations
      ensures reservations == DeactivatedFor(old(reservations), productId, userId)
    {
      reservations := DeactivatedFor(reservations, productId, userId);
    }

    /** `cleanupExpiredReservations`, with `now` the instant it runs at. */
    method CleanupExpired(now: int)
      modifies this`reservations
      ensures reservations == DeactivatedExpired(old(reservations), now)
    {
      reservations := DeactivatedExpired(reservations, now);
    }
  }
}
