/** The public hotel routes: search query construction and pagination, payment-intent issuance, and
    booking creation by reconciling a payment intent with the gateway. */
module HotelsRoutes {
  import opened Common
  import opened Domain
  import Text
  import Ledger
  import opened Store

  // ---------------------------------------------------------------------------
  // Search

  /** The query-string parameters of `GET /search`. */
  datatype SearchParams = SearchParams(
    destination: Option<string>,
    adultCount: Option<string>,
    childCount: Option<string>,
    facilities: Field,
    types: Field,
    stars: Field,
    maxPrice: Option<string>)

  /** The Mongo filter document; a missing criterion is None. Parsed numbers are None for NaN. */
  datatype SearchQuery = SearchQuery(
    cityOrCountry: Option<string>,
    minAdults: Option<Option<int>>,
    minChildren: Option<Option<int>>,
    allFacilities: Option<seq<string>>,
    anyType: Option<seq<string>>,
    starRatings: Option<seq<Option<int>>>,
    maxPrice: Option<Option<int>>)

  const EmptyQuery := SearchQuery(None, None, None, None, None, None, None)

  /** `parseInt` over each star rating given. */
  function ParseStars(stars: seq<string>): (r: seq<Option<int>>)
    ensures |r| == |stars| && forall i :: 0 <= i < |stars| ==> r[i] == Text.ParseInt(stars[i])
  {
    if stars == [] then [] else [Text.ParseInt(stars[0])] + ParseStars(stars[1..])
  }

  /** `constructSearchQuery`: each truthy parameter adds its criterion to the filter. A destination
      is used trimmed, and only when something remains after trimming. */
  method ConstructSearchQuery(params: SearchParams) returns (q: SearchQuery)
    ensures q.cityOrCountry.Some? <==> Truthy(params.destination) && !Text.IsBlank(params.destination.value)
    ensures q.cityOrCountry.Some? ==> q.cityOrCountry.value == Text.Trim(params.destination.value)
    ensures q.minAdults.Some? <==> Truthy(params.adultCount)
    ensures q.minAdults.Some? ==> q.minAdults.value == Text.ParseInt(params.adultCount.value)
    ensures q.minChildren.Some? <==> Truthy(params.childCount)
    ensures q.minChildren.Some? ==> q.minChildren.value == Text.ParseInt(params.childCount.value)
    ensures q.allFacilities.Some? <==> TruthyField(params.facilities)
    ensures q.allFacilities.Some? ==> q.allFacilities.value == AsList(params.facilities)
    ensures q.anyType.Some? <==> TruthyField(params.types)
    ensures q.anyType.Some? ==> q.anyType.value == AsList(params.types)
    ensures q.starRatings.Some? <==> TruthyField(params.stars)
    ensures q.starRatings.Some? ==> q.starRatings.value == ParseStars(AsList(params.stars))
    ensures q.maxPrice.Some? <==> Truthy(params.maxPrice)
    ensures q.maxPrice.Some? ==> q.maxPrice.value == Text.ParseInt(params.maxPrice.value)
  {
    q := EmptyQuery;
    if Truthy(params.destination) && Text.Trim(params.destination.value) != [] {
      q := q.(cityOrCountry := Some(Text.Trim(params.destination.value)));
    }
    if Truthy(params.adultCount) {
      q := q.(minAdults := Some(Text.ParseInt(params.adultCount.value)));
    }
    if Truthy(params.childCount) {
      q := q.(minChildren := Some(Text.ParseInt(params.childCount.value)));
    }
    if TruthyField(params.facilities) {
      q := q.(allFacilities := Some(AsList(params.facilities)));
    }
    if TruthyField(params.types) {
      q := q.(anyType := Some(AsList(params.types)));
    }
    if TruthyField(params.stars) {
      q := q.(starRatings := Some(ParseStars(AsList(params.stars))));
    }
    if Truthy(params.maxPrice) {
      q := q.(maxPrice := Some(Text.ParseInt(params.maxPrice.value)));
    }
  }

  /** Results per page of `GET /search`. */
  const PageSize := 5

  /** How many documents precede page `pageNumber` (pages count from 1). */
  function Skip(pageNumber: int): (n: int)
    ensures pageNumber >= 1 ==> n >= 0 && n % PageSize == 0
    ensures n + PageSize == pageNumber * PageSize
  {
    (pageNumber - 1) * PageSize
  }

  /** `Math.ceil(total / pageSize)`: the fewest pages that hold `total` results. */
  function PageCount(total: nat): (pages: nat)
    ensures pages * PageSize >= total
    ensures pages == 0 || (pages - 1) * PageSize < total
  {
    (total + PageSize - 1) / PageSize
  }

  /** Every page from 1 to the page count starts inside the result set. */
  lemma PagesStartInsideResults(total: nat, pageNumber: int)
    requires 1 <= pageNumber <= PageCount(total)
    ensures 0 <= Skip(pageNumber) < total
  {
  }

  /** The pages cover the results without overlap: the `i`-th result (from 0) is shown on page `p`
      exactly when `p` is `i / PageSize + 1`, and that page is one of the `PageCount(total)` pages. */
  lemma EveryResultOnOnePage(total: nat, i: int, p: int)
    requires 0 <= i < total
    ensures 1 <= i / PageSize + 1 <= PageCount(total)
    ensures Skip(p) <= i < Skip(p) + PageSize <==> p == i / PageSize + 1
  {
    var q := i / PageSize;
    assert q * PageSize <= i < q * PageSize + PageSize;
    assert Skip(q + 1) == q * PageSize;
    if Skip(p) <= i < Skip(p) + PageSize {
      assert (p - 1) * PageSize <= i < p * PageSize;
      assert p - 1 <= q < p;
    }
  }

  datatype SortOrder = Unsorted | StarRatingDescending | PriceAscending | PriceDescending

  /** The `sortOption` switch; an unknown or missing option leaves the order to the store. */
  function SortFor(option: Option<string>): (s: SortOrder)
    ensures s == StarRatingDescending <==> option == Some("starRating")
    ensures s == PriceAscending <==> option == Some("pricePerNightAsc")
    ensures s == PriceDescending <==> option == Some("pricePerNightDesc")
  {
    if option == Some("starRating") then StarRatingDescending
    else if option == Some("pricePerNightAsc") then PriceAscending
    else if option == Some("pricePerNightDesc") then PriceDescending
    else Unsorted
  }

  // ---------------------------------------------------------------------------
  // Payment-intent issuance

  /** Currency of every intent. */
  const Currency := "gbp"

  /** The status the gateway gives a newly created intent. */
  const RequiresPaymentMethod := "requires_payment_method"

  datatype IntentResponse = IntentResponse(paymentIntentId: string, clientSecret: string, totalCost: int)

  /** The price of a stay: the nightly price times the number of nights. */
  function StayCost(pricePerNight: int, numberOfNights: int): (cost: int)
    ensures pricePerNight >= 0 && numberOfNights >= 0 ==> cost >= 0
    ensures numberOfNights == 0 ==> cost == 0
  {
    pricePerNight * numberOfNights
  }

  /** The intent sent to the gateway for a stay; the amount is in minor units (pence). */
  function IntentFor(h: Hotel, hotelId: Id, caller: Id, numberOfNights: int, attempt: string, secret: Option<string>): (i: Intent)
    ensures i.amount == 100 * StayCost(h.pricePerNight, numberOfNights)
    ensures i.metadata == IntentMetadata(hotelId, caller, attempt) && i.currency == Currency
  {
    Intent(StayCost(h.pricePerNight, numberOfNights) * 100, Currency, RequiresPaymentMethod,
           IntentMetadata(hotelId, caller, attempt), secret)
  }

  /** `POST /:hotelId/bookings/payment-intent`. `attempt` is the `Date.now()` nonce and `secret` the
      client secret the gateway hands back with the new intent. */
  method IssuePaymentIntent(db: Database, gw: Gateway, hotelId: Id, caller: Id, numberOfNights: int,
                            attempt: string, secret: Option<string>) returns (r: Result<IntentResponse>)
    modifies gw
    ensures hotelId !in db.hotels ==> r == Err(400, NotFound(HotelRecord)) && gw.intents == old(gw.intents)
    ensures hotelId in db.hotels ==>
      exists id :: id !in old(gw.intents)
        && gw.intents == old(gw.intents)[id := IntentFor(db.hotels[hotelId], hotelId, caller, numberOfNights, attempt, secret)]
        && (Truthy(secret) ==> r == Ok(IntentResponse(id, secret.value, StayCost(db.hotels[hotelId].pricePerNight, numberOfNights))))
    ensures hotelId in db.hotels && !Truthy(secret) ==> r == Err(500, GatewayError)
    ensures r.Ok? ==> r.value.clientSecret != []
  {
    if hotelId !in db.hotels {
      return Err(400, NotFound(HotelRecord));
    }
    var hotel := db.hotels[hotelId];
    var totalCost := StayCost(hotel.pricePerNight, numberOfNights);
    var id := gw.Create(IntentFor(hotel, hotelId, caller, numberOfNights, attempt, secret));
    if !Truthy(secret) {
      return Err(500, GatewayError);
    }
    r := Ok(IntentResponse(id, secret.value, totalCost));
  }

  // ---------------------------------------------------------------------------
  // Booking creation after payment

  /** The body of `POST /:hotelId/bookings`; `userId` and `hotelId` in the body are ignored. */
  datatype BookingRequest = BookingRequest(
    userId: Option<Id>,
    hotelId: Option<Id>,
    firstName: string,
    lastName: string,
    email: string,
    phone: Option<string>,
    adultCount: int,
    childCount: int,
    checkIn: int,
    checkOut: int,
    totalCost: int,
    paymentIntentId: string,
    paymentMethod: Option<string>,
    specialRequests: Option<string>)

  /** The reconciliation checks, in order: the intent exists, it was issued for this hotel and this
      caller, and the gateway reports it succeeded. */
  function CheckIntent(found: Option<Intent>, hotelId: Id, caller: Id): (r: Result<Intent>)
    ensures found.None? ==> r == Err(400, NotFound(PaymentIntent))
    ensures found.Some? && (found.value.metadata.hotelId != hotelId || found.value.metadata.userId != caller) ==>
      r == Err(400, IntentMismatch)
    ensures found.Some? && found.value.metadata.hotelId == hotelId && found.value.metadata.userId == caller ==>
      (found.value.status != Succeeded ==> r == Err(400, PaymentNotSucceeded(found.value.status)))
    ensures r.Ok? ==> found == Some(r.value) && r.value.status == Succeeded
    ensures r.Ok? ==> r.value.metadata.hotelId == hotelId && r.value.metadata.userId == caller
  {
    if found.None? then Err(400, NotFound(PaymentIntent))
    else if found.value.metadata.hotelId != hotelId || found.value.metadata.userId != caller then Err(400, IntentMismatch)
    else if found.value.status != Succeeded then Err(400, PaymentNotSucceeded(found.value.status))
    else Ok(found.value)
  }

  /** An intent issued for one hotel or one user is never redeemed for another. */
  lemma IntentBoundToIssuer(h: Hotel, hotelId: Id, caller: Id, nights: int, attempt: string, secret: Option<string>,
                            otherHotel: Id, otherCaller: Id, status: string)
    requires otherHotel != hotelId || otherCaller != caller
    ensures var i := IntentFor(h, hotelId, caller, nights, attempt, secret).(status := status);
      CheckIntent(Some(i), otherHotel, otherCaller) == Err(400, IntentMismatch)
  {
  }

  /** The booking stored for a reconciled payment: confirmed and paid, owned by the caller and the
      path's hotel whatever the body says. */
  function PaidBooking(req: BookingRequest, hotelId: Id, caller: Id, now: int): (b: Booking)
    ensures b.userId == caller && b.hotelId == hotelId
    ensures b.status == Confirmed && b.paymentStatus == Paid && b.createdAt == now
    ensures b.totalCost == req.totalCost && b.paymentIntentId == Some(req.paymentIntentId)
  {
    Booking(caller, hotelId, req.firstName, req.lastName, req.email, req.phone,
            req.adultCount, Some(req.childCount), req.checkIn, req.checkOut, req.totalCost,
            Confirmed, Paid, req.paymentMethod, Some(req.paymentIntentId), req.specialRequests,
            None, None, now)
  }

  /** `POST /:hotelId/bookings`. On any failed check nothing is stored and no counter moves; on
      success the booking is saved under a new id and the hotel's and caller's counters rise by one
      booking and its cost. There is no check that the intent was already redeemed. */
  method CreateBooking(db: Database, gw: Gateway, hotelId: Id, caller: Id, req: BookingRequest, now: int)
    returns (r: Result<Id>)
    modifies db
    ensures var check := CheckIntent(gw.Retrieve(req.paymentIntentId), hotelId, caller);
      && (check.Err? ==> r == Err(check.code, check.error) && unchanged(db))
      && (check.Ok? ==> r.Ok?)
    ensures r.Ok? ==>
      var b := PaidBooking(req, hotelId, caller, now);
      && r.value !in old(db.bookings)
      && db.bookings == old(db.bookings)[r.value := b]
      && db.hotels == Ledger.IncHotel(old(db.hotels), hotelId, Ledger.Totals(1, req.totalCost))
      && db.users == Ledger.IncUser(old(db.users), caller, Ledger.Totals(1, req.totalCost))
    ensures old(db.Consistent()) ==> db.Consistent()
  {
    var check := CheckIntent(gw.Retrieve(req.paymentIntentId), hotelId, caller);
    if check.Err? {
      return Err(check.code, check.error);
    }
    var b := PaidBooking(req, hotelId, caller, now);
    ghost var before := (db.bookings, db.hotels, db.users);
    var id := db.NewId();
    db.SaveBooking(id, b);
    db.IncHotel(hotelId, Ledger.CreationDelta(b));
    db.IncUser(caller, Ledger.CreationDelta(b));
    if Ledger.Consistent(before.0, before.1, before.2) {
      Ledger.ConsistentAfterInsert(before.0, before.1, before.2, id, b);
    }
    r := Ok(id);
  }

  /** Replaying a booking request with an intent that already produced a booking produces a second
      booking for the same intent and counts the payment twice. */
  method ReplayedIntentBooksTwice(db: Database, gw: Gateway, hotelId: Id, caller: Id, req: BookingRequest, now: int)
    returns (first: Result<Id>, second: Result<Id>)
    requires CheckIntent(gw.Retrieve(req.paymentIntentId), hotelId, caller).Ok?
    requires hotelId in db.hotels
    modifies db
    ensures first.Ok? && second.Ok? && first.value != second.value
    ensures first.value in db.bookings && second.value in db.bookings
    ensures db.bookings[first.value].paymentIntentId == db.bookings[second.value].paymentIntentId
    ensures hotelId in db.hotels
    ensures db.hotels[hotelId].totalBookings == old(db.hotels[hotelId].totalBookings) + 2
    ensures db.hotels[hotelId].totalRevenue == old(db.hotels[hotelId].totalRevenue) + 2 * req.totalCost
  {
    first := CreateBooking(db, gw, hotelId, caller, req, now);
    second := CreateBooking(db, gw, hotelId, caller, req, now);
  }
}
