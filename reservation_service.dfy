/** The backend `ReservationService`: a time-limited hold on an order total,
    identified by a generated reservation number. The table is a sequence;
    instants are epoch milliseconds. */
module OrderReservations {
  import opened Wrappers
  import opened Failures
  import opened JavaStrings

  const RESERVATION_NUMBER_PREFIX := "RES-"
  /** Fifteen minutes to pay. */
  const HOLD_MILLIS := 15 * 60_000

  const ACTIVE := "ACTIVE"
  const CONFIRMED := "CONFIRMED"
  const CANCELLED := "CANCELLED"
  const EXPIRED := "EXPIRED"

  /** The failure of saving a row whose non-null columns are not all set, or
      whose reservation number is taken. */
  const CONSTRAINT_VIOLATION := "could not execute statement; constraint violation"

  /** `Reservation` (the order-level one). */
  datatype Reservation = Reservation(
    email: string, reservationNumber: string, status: string, totalAmount: real,
    expiresAt: int, createdAt: int, updatedAt: int)

  /** `generateReservationNumber`, given the random UUID's text. */
  function ReservationNumber(uuid: string): (n: string)
    requires |uuid| >= 8
    ensures |n| == 12 && StartsWith(n, RESERVATION_NUMBER_PREFIX) && IsUpper(n[4..])
  {
    NumberFromUuid(RESERVATION_NUMBER_PREFIX, uuid)
  }

  /** `findByReservationNumber`: the position of the reservation with that
      number. */
  function IndexOfNumber(rs: seq<Reservation>, number: string): (r: Option<nat>)
    ensures r.None? <==> forall i :: 0 <= i < |rs| ==> rs[i].reservationNumber != number
    ensures r.Some? ==> r.value < |rs| && rs[r.value].reservationNumber == number
  {
    if rs == [] then None
    else if rs[0].reservationNumber == number then Some(0)
    else
      match IndexOfNumber(rs[1..], number)
      case None =>
        assert forall i :: 1 <= i < |rs| ==> rs[i] == rs[1..][i - 1];
        None
      case Some(k) => Some(k + 1)
  }

  /** Reservation numbers are unique (the column is). */
  predicate UniqueNumbers(rs: seq<Reservation>)
  {
    forall i, j :: 0 <= i < j < |rs| ==> rs[i].reservationNumber != rs[j].reservationNumber
  }

  /** `save` of an edited reservation: a row that differs from the stored
      one is written, and `@PreUpdate` stamps the update instant; an unchanged
      row is not written at all. */
  function Saved(stored: Reservation, edited: Reservation, now: int): (r: Reservation)
    ensures edited == stored ==> r == stored
    ensures edited != stored ==> r == edited.(updatedAt := now)
  {
    if edited == stored then stored else edited.(updatedAt := now)
  }

  /** A reservation after `cancelReservation`: CANCELLED whatever its status,
      stamped only when it was not CANCELLED already. */
  function Cancelled(r: Reservation, now: int): (c: Reservation)
    ensures c.status == CANCELLED
    ensures c.(status := r.status, updatedAt := r.updatedAt) == r
    ensures c.updatedAt == (if r.status == CANCELLED then r.updatedAt else now)
  {
    Saved(r, r.(status := CANCELLED), now)
  }

  /** Cancelling twice is cancelling once: the second save writes nothing. */
  lemma CancelIdempotent(r: Reservation, now1: int, now2: int)
    ensures Cancelled(Cancelled(r, now1), now2) == Cancelled(r, now1)
  {
  }

  function NotFound(number: string): Failure
  {
    Runtime("Reservation not found: " + number)
  }

  /** The check sequence of `confirmReservation` on a found reservation:
      it must be ACTIVE, and `now` must not be after its expiry. */
  function ConfirmCheck(r: Reservation, now: int): (o: Result<(), Failure>)
    ensures o.Ok? <==> r.status == ACTIVE && now <= r.expiresAt
    ensures r.status != ACTIVE ==> o == Err(Runtime("Reservation is not active: " + r.reservationNumber))
    ensures r.status == ACTIVE && now > r.expiresAt ==> o == Err(Runtime("Reservation has expired: " + r.reservationNumber))
  {
    if r.status != ACTIVE then Err(Runtime("Reservation is not active: " + r.reservationNumber))
    else if now > r.expiresAt then Err(Runtime("Reservation has expired: " + r.reservationNumber))
    else Ok(())
  }

  /** A reservation can be confirmed up to and including the instant it
      expires, and a CONFIRMED, CANCELLED or EXPIRED one never. */
  lemma ConfirmWindow(r: Reservation, now: int)
    ensures r.status == ACTIVE && now == r.expiresAt ==> ConfirmCheck(r, now).Ok?
    ensures r.status in {CONFIRMED, CANCELLED, EXPIRED} ==> ConfirmCheck(r, now).Err?
  {
  }

  /** Whether the cleanup marks a reservation. */
  predicate IsExpired(r: Reservation, now: int)
  {
    r.expiresAt < now && r.status == ACTIVE
  }

  /** The table after `cleanupExpiredReservations` at `now`: exactly the
      ACTIVE reservations whose expiry is before `now` become EXPIRED (and are
      stamped); all others are unchanged. */
  function ExpireAll(rs: seq<Reservation>, now: int): (r: seq<Reservation>)
    ensures |r| == |rs|
    ensures forall i :: 0 <= i < |rs| ==>
      r[i] == (if IsExpired(rs[i], now) then rs[i].(status := EXPIRED, updatedAt := now) else rs[i])
  {
    seq(|rs|, i requires 0 <= i < |rs| =>
      if IsExpired(rs[i], now) then rs[i].(status := EXPIRED, updatedAt := now) else rs[i])
  }

  /** After a cleanup no reservation it would mark is left, so a second
      cleanup at the same instant changes nothing; numbers stay unique. */
  lemma ExpireAllIdempotent(rs: seq<Reservation>, now: int)
    ensures forall i :: 0 <= i < |rs| ==> !IsExpired(ExpireAll(rs, now)[i], now)
    ensures ExpireAll(ExpireAll(rs, now), now) == ExpireAll(rs, now)
    ensures UniqueNumbers(rs) ==> UniqueNumbers(ExpireAll(rs, now))
  {
  }

  class ReservationService {
    var reservations: seq<Reservation>

    constructor ()
      ensures reservations == []
    {
      reservations := [];
    }

    /** `createReservation`: a new ACTIVE reservation holding for fifteen
        minutes after `now`; a null email or amount, or a number already
        taken, cannot be saved. */
    method CreateReservation(email: Option<string>, totalAmount: Option<real>, uuid: string, now: int)
      returns (r: Result<Reservation, Failure>)
      requires |uuid| >= 8
      modifies this`reservations
      ensures email.None? || totalAmount.None? || IndexOfNumber(old(reservations), ReservationNumber(uuid)).Some? <==>
        r == Err(Runtime(CONSTRAINT_VIOLATION))
      ensures r.Err? ==> reservations == old(reservations)
      ensures r.Ok? ==>
        r.value == Reservation(email.value, ReservationNumber(uuid), ACTIVE, totalAmount.value, now + HOLD_MILLIS, now, now)
        && reservations == old(reservations) + [r.value]
      ensures UniqueNumbers(old(reservations)) ==> UniqueNumbers(reservations)
    {
      var number := ReservationNumber(uuid);
      if email.None? || totalAmount.None? || IndexOfNumber(reservations, number).Some? {
        return Err(Runtime(CONSTRAINT_VIOLATION));
      }
      var reservation := Reservation(email.value, number, ACTIVE, totalAmount.value, now + HOLD_MILLIS, now, now);
      reservations := reservations + [reservation];
      r := Ok(reservation);
    }

    /** `confirmReservation`: not found, then not ACTIVE, then expired;
        otherwise the reservation becomes CONFIRMED. */
    method ConfirmReservation(number: string, now: int) returns (r: Result<Reservation, Failure>)
      modifies this`reservations
      ensures IndexOfNumber(old(reservations), number).None? ==>
        r == Err(NotFound(number)) && reservations == old(reservations)
      ensures IndexOfNumber(old(reservations), number).Some? ==>
        var i := IndexOfNumber(old(reservations), number).value;
        var c := ConfirmCheck(old(reservations)[i], now);
        (c.Err? ==> r == Err(c.error) && reservations == old(reservations))
        && (c.Ok? ==> r == Ok(old(reservations)[i].(status := CONFIRMED, updatedAt := now)))
        && (c.Ok? ==> reservations == old(reservations)[i := old(reservations)[i].(status := CONFIRMED, updatedAt := now)])
    {
      var found := IndexOfNumber(reservations, number);
      if found.None? {
        return Err(NotFound(number));
      }
      var i := found.value;
      var check := ConfirmCheck(reservations[i], now);
      if check.Err? {
        return Err(check.error);
      }
      reservations := reservations[i := reservations[i].(status := CONFIRMED, updatedAt := now)];
      r := Ok(reservations[i]);
    }

    /** `cancelReservation`: any found reservation becomes CANCELLED,
        whatever its status; one that already was is not written again. */
    method CancelReservation(number: string, now: int) returns (r: Result<(), Failure>)
      modifies this`reservations
      ensures IndexOfNumber(old(reservations), number).None? ==>
        r == Err(NotFound(number)) && reservations == old(reservations)
      ensures IndexOfNumber(old(reservations), number).Some? ==>
        var i := IndexOfNumber(old(reservations), number).value;
        r == Ok(()) && reservations == old(reservations)[i := Cancelled(old(reservations)[i], now)]
    {
      var found := IndexOfNumber(reservations, number);
      if found.None? {
        return Err(NotFound(number));
      }
      var i := found.value;
      reservations := reservations[i := Saved(reservations[i], reservations[i].(status := CANCELLED), now)];
      r := Ok(());
    }

    /** `cleanupExpiredReservations`: marks each expired reservation in
        turn. */
    method CleanupExpiredReservations(now: int)
      modifies this`reservations
      ensures reservations == ExpireAll(old(reservations), now)
    {
      ghost var rs0 := reservations;
      var i := 0;
      while i < |reservations|
        invariant 0 <= i <= |reservations| == |rs0|
        invariant forall k :: 0 <= k < i ==> reservations[k] == ExpireAll(rs0, now)[k]
        invariant forall k :: i <= k < |rs0| ==> reservations[k] == rs0[k]
      {
        if IsExpired(reservations[i], now) {
          reservations := reservations[i := reservations[i].(status := EXPIRED, updatedAt := now)];
        }
        i := i + 1;
      }
    }
  }
}
