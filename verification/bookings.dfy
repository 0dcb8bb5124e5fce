/** The booking routes: status and payment-status transitions, deletion with counter compensation,
    and the owner check on a hotel's booking list. */
module BookingsRoutes {
  import opened Common
  import opened Domain
  import Ledger
  import opened Store

  // ---------------------------------------------------------------------------
  // PATCH /:id/status

  /** The body of a status update. */
  datatype StatusBody = StatusBody(status: Option<string>, cancellationReason: Option<string>, refundAmount: Option<int>)

  /** The `updateData` document: the new status and, when present, the conditional fields. */
  datatype StatusUpdate = StatusUpdate(status: BookingStatus, cancellationReason: Option<string>, refundAmount: Option<int>)

  /** The status validator: the field must be one of the five booking statuses. */
  function AcceptedStatus(body: StatusBody): (r: Option<BookingStatus>)
    ensures r.Some? <==> body.status.Some? && body.status.value in BookingStatusNames
    ensures r.Some? ==> BookingStatusName(r.value) == body.status.value
  {
    if body.status.None? then None else ParseBookingStatus(body.status.value)
  }

  /** Builds `updateData`: a cancellation reason only for a cancellation that gives one, a refund
      amount (0 when omitted) for every refund. */
  method BuildStatusUpdate(status: BookingStatus, body: StatusBody) returns (u: StatusUpdate)
    ensures u.status == status
    ensures u.cancellationReason.Some? <==> status == Cancelled && Truthy(body.cancellationReason)
    ensures u.cancellationReason.Some? ==> u.cancellationReason == body.cancellationReason
    ensures u.refundAmount.Some? <==> status == Refunded
    ensures status == Refunded && body.refundAmount.None? ==> u.refundAmount == Some(0)
    ensures status == Refunded && body.refundAmount.Some? ==> u.refundAmount == body.refundAmount
  {
    u := StatusUpdate(status, None, None);
    if status == Cancelled && Truthy(body.cancellationReason) {
      u := u.(cancellationReason := body.cancellationReason);
    }
    if status == Refunded {
      u := u.(refundAmount := Some(body.refundAmount.GetOr(0)));
    }
  }

  /** `findByIdAndUpdate` with a status update: the fields the update carries replace the stored
      ones; every other field of the booking is kept. */
  function ApplyStatusUpdate(b: Booking, u: StatusUpdate): (r: Booking)
    ensures r.status == u.status
    ensures r.cancellationReason == (if u.cancellationReason.Some? then u.cancellationReason else b.cancellationReason)
    ensures r.refundAmount == (if u.refundAmount.Some? then u.refundAmount else b.refundAmount)
    ensures r.(status := b.status, cancellationReason := b.cancellationReason, refundAmount := b.refundAmount) == b
  {
    b.(status := u.status,
       cancellationReason := if u.cancellationReason.Some? then u.cancellationReason else b.cancellationReason,
       refundAmount := if u.refundAmount.Some? then u.refundAmount else b.refundAmount)
  }

  /** Sending the same status update twice leaves the booking as one update did. */
  lemma StatusUpdateIdempotent(b: Booking, u: StatusUpdate)
    ensures ApplyStatusUpdate(ApplyStatusUpdate(b, u), u) == ApplyStatusUpdate(b, u)
  {
  }

  /** `PATCH /:id/status`. Validation runs first; an unknown booking is 404. Counters never move. */
  method UpdateStatus(db: Database, id: Id, body: StatusBody) returns (r: Result<Booking>)
    modifies db
    ensures AcceptedStatus(body).None? ==> r == Err(400, Invalid(["status"])) && unchanged(db)
    ensures AcceptedStatus(body).Some? && id !in old(db.bookings) ==> r == Err(404, NotFound(BookingRecord)) && unchanged(db)
    ensures AcceptedStatus(body).Some? && id in old(db.bookings) ==> r.Ok?
    ensures r.Ok? ==> id in old(db.bookings) && db.bookings == old(db.bookings)[id := r.value]
    ensures r.Ok? ==> r.value.status == AcceptedStatus(body).value
    ensures r.Ok? ==>
      r.value.cancellationReason ==
        (if AcceptedStatus(body).value == Cancelled && Truthy(body.cancellationReason) then body.cancellationReason
         else old(db.bookings[id]).cancellationReason)
    ensures r.Ok? ==>
      r.value.refundAmount ==
        (if AcceptedStatus(body).value == Refunded then Some(body.refundAmount.GetOr(0))
         else old(db.bookings[id]).refundAmount)
    ensures r.Ok? ==> r.value.(status := old(db.bookings[id]).status,
                               cancellationReason := old(db.bookings[id]).cancellationReason,
                               refundAmount := old(db.bookings[id]).refundAmount) == old(db.bookings[id])
    ensures db.hotels == old(db.hotels) && db.users == old(db.users)
    ensures old(db.Consistent()) ==> db.Consistent()
  {
    var status := AcceptedStatus(body);
    if status.None? {
      return Err(400, Invalid(["status"]));
    }
    var update := BuildStatusUpdate(status.value, body);
    if id !in db.bookings {
      return Err(404, NotFound(BookingRecord));
    }
    var updated := ApplyStatusUpdate(db.bookings[id], update);
    if db.Consistent() {
      Ledger.ConsistentAfterReplace(db.bookings, db.hotels, db.users, id, updated);
    }
    db.ReplaceBooking(id, updated);
    r := Ok(updated);
  }

  // ---------------------------------------------------------------------------
  // PATCH /:id/payment

  /** The body of a payment-status update. */
  datatype PaymentBody = PaymentBody(paymentStatus: Option<string>, paymentMethod: Option<string>)

  /** The payment-status validator: the field must be one of the four payment statuses. */
  function AcceptedPaymentStatus(body: PaymentBody): (r: Option<PaymentStatus>)
    ensures r.Some? <==> body.paymentStatus.Some? && body.paymentStatus.value in PaymentStatusNames
    ensures r.Some? ==> PaymentStatusName(r.value) == body.paymentStatus.value
  {
    if body.paymentStatus.None? then None else ParsePaymentStatus(body.paymentStatus.value)
  }

  /** The payment update applied to a stored booking: the method is overwritten only when one is
      supplied. */
  function ApplyPaymentUpdate(b: Booking, status: PaymentStatus, method_: Option<string>): (r: Booking)
    ensures r.paymentStatus == status
    ensures Truthy(method_) ==> r.paymentMethod == method_
    ensures !Truthy(method_) ==> r == b.(paymentStatus := status)
    ensures r.(paymentStatus := b.paymentStatus, paymentMethod := b.paymentMethod) == b
  {
    if Truthy(method_) then b.(paymentStatus := status, paymentMethod := method_)
    else b.(paymentStatus := status)
  }

  /** `PATCH /:id/payment`. Validation first; an unknown booking is 404. Counters never move. */
  method UpdatePayment(db: Database, id: Id, body: PaymentBody) returns (r: Result<Booking>)
    modifies db
    ensures AcceptedPaymentStatus(body).None? ==> r == Err(400, Invalid(["paymentStatus"])) && unchanged(db)
    ensures AcceptedPaymentStatus(body).Some? && id !in old(db.bookings) ==> r == Err(404, NotFound(BookingRecord)) && unchanged(db)
    ensures AcceptedPaymentStatus(body).Some? && id in old(db.bookings) ==>
      r == Ok(ApplyPaymentUpdate(old(db.bookings[id]), AcceptedPaymentStatus(body).value, body.paymentMethod))
    ensures r.Ok? ==> id in old(db.bookings) && db.bookings == old(db.bookings)[id := r.value]
    ensures db.hotels == old(db.hotels) && db.users == old(db.users)
    ensures old(db.Consistent()) ==> db.Consistent()
  {
    var status := AcceptedPaymentStatus(body);
    if status.None? {
      return Err(400, Invalid(["paymentStatus"]));
    }
    if id !in db.bookings {
      return Err(404, NotFound(BookingRecord));
    }
    var updated := ApplyPaymentUpdate(db.bookings[id], status.value, body.paymentMethod);
    if db.Consistent() {
      Ledger.ConsistentAfterReplace(db.bookings, db.hotels, db.users, id, updated);
    }
    db.ReplaceBooking(id, updated);
    r := Ok(updated);
  }

  // ---------------------------------------------------------------------------
  // DELETE /:id

  /** `DELETE /:id`. An unknown booking is 404 with no compensation; otherwise the booking is
      removed and its hotel and user lose one booking and its cost. */
  method DeleteBooking(db: Database, id: Id) returns (r: Result<Booking>)
    modifies db
    ensures id !in old(db.bookings) ==> r == Err(404, NotFound(BookingRecord))
    ensures id !in old(db.bookings) ==> db.bookings == old(db.bookings) && db.hotels == old(db.hotels) && db.users == old(db.users)
    ensures id in old(db.bookings) ==> r == Ok(old(db.bookings[id]))
    ensures r.Ok? ==>
      && db.bookings == old(db.bookings) - {id}
      && db.hotels == Ledger.IncHotel(old(db.hotels), r.value.hotelId, Ledger.Totals(-1, -r.value.totalCost))
      && db.users == Ledger.IncUser(old(db.users), r.value.userId, Ledger.Totals(-1, -r.value.totalCost))
    ensures old(db.Consistent()) ==> db.Consistent()
  {
    ghost var before := (db.bookings, db.hotels, db.users);
    var deleted := db.DeleteBooking(id);
    if deleted.None? {
      assert db.bookings == before.0;
      return Err(404, NotFound(BookingRecord));
    }
    var b := deleted.value;
    db.IncHotel(b.hotelId, Ledger.CreationDelta(b).Negated());
    db.IncUser(b.userId, Ledger.CreationDelta(b).Negated());
    if Ledger.Consistent(before.0, before.1, before.2) {
      Ledger.ConsistentAfterRemove(before.0, before.1, before.2, id);
    }
    r := Ok(b);
  }

  /** Deleting a booking right after creating it restores every collection, counters included. */
  lemma CreateThenDeleteRestores(bookings: map<Id, Booking>, hotels: map<Id, Hotel>, users: map<Id, User>, k: Id, b: Booking)
    requires k !in bookings
    ensures bookings[k := b] - {k} == bookings
    ensures Ledger.IncHotel(Ledger.IncHotel(hotels, b.hotelId, Ledger.Totals(1, b.totalCost)),
                            b.hotelId, Ledger.Totals(-1, -b.totalCost)) == hotels
    ensures Ledger.IncUser(Ledger.IncUser(users, b.userId, Ledger.Totals(1, b.totalCost)),
                           b.userId, Ledger.Totals(-1, -b.totalCost)) == users
  {
    Ledger.IncHotelUndo(hotels, b.hotelId, Ledger.Totals(1, b.totalCost));
    Ledger.IncUserUndo(users, b.userId, Ledger.Totals(1, b.totalCost));
  }

  // ---------------------------------------------------------------------------
  // GET /hotel/:hotelId

  /** `GET /hotel/:hotelId`: the hotel's bookings, for the hotel's owner only (an administrator who
      does not own the hotel is refused too). */
  function HotelBookings(bookings: map<Id, Booking>, hotels: map<Id, Hotel>, hotelId: Id, caller: Id)
    : (r: Result<map<Id, Booking>>)
    ensures hotelId !in hotels <==> r == Err(404, NotFound(HotelRecord))
    ensures hotelId in hotels && hotels[hotelId].userId != caller <==> r == Err(403, Forbidden)
    ensures r.Ok? ==> forall k :: k in r.value <==> k in bookings && bookings[k].hotelId == hotelId
    ensures r.Ok? ==> forall k :: k in r.value ==> r.value[k] == bookings[k]
  {
    if hotelId !in hotels then Err(404, NotFound(HotelRecord))
    else if hotels[hotelId].userId != caller then Err(403, Forbidden)
    else Ok(map k | k in bookings && bookings[k].hotelId == hotelId :: bookings[k])
  }
}
