/** The hotel-owner routes: listing, reading, creating and updating one's own hotels. A hotel owner
    sees and edits only the hotels whose `userId` is theirs; an administrator sees and edits all. */
module MyHotelsRoutes {
  import opened Common
  import opened Domain
  import Ledger
  import opened Store

  /** The owner-or-admin scope: an administrator reaches every hotel, anyone else only their own. */
  predicate InScope(h: Hotel, caller: Id, role: Role) {
    role == Admin || h.userId == caller
  }

  /** `GET /`: `Hotel.find({})` for an administrator, `Hotel.find({ userId })` otherwise. */
  function ListHotels(hotels: map<Id, Hotel>, caller: Id, role: Role): (r: map<Id, Hotel>)
    ensures forall h :: h in r <==> h in hotels && (role == Admin || hotels[h].userId == caller)
    ensures forall h :: h in r ==> r[h] == hotels[h]
  {
    map h | h in hotels && InScope(hotels[h], caller, role) :: hotels[h]
  }

  /** An administrator's list is the whole collection. */
  lemma AdminListsEverything(hotels: map<Id, Hotel>, caller: Id)
    ensures ListHotels(hotels, caller, Admin) == hotels
  {
  }

  /** `GET /:id` (and the first lookup of `PUT /:hotelId`): the hotel when it is in scope, 404
      otherwise, whether it is missing or belongs to someone else. */
  function FindScoped(hotels: map<Id, Hotel>, id: Id, caller: Id, role: Role): (r: Result<Hotel>)
    ensures r.Ok? <==> id in hotels && (role == Admin || hotels[id].userId == caller)
    ensures r.Ok? ==> r.value == hotels[id]
    ensures r.Err? ==> r == Err(404, NotFound(HotelRecord))
  {
    if id in hotels && InScope(hotels[id], caller, role) then Ok(hotels[id]) else Err(404, NotFound(HotelRecord))
  }

  /** A hotel reachable by id is exactly one that appears in the caller's list. */
  lemma FindAgreesWithList(hotels: map<Id, Hotel>, id: Id, caller: Id, role: Role)
    ensures FindScoped(hotels, id, caller, role).Ok? <==> id in ListHotels(hotels, caller, role)
  {
  }

  /** The flattened `contact.*` and `policies.*` body fields. */
  datatype ContactBody = ContactBody(phone: Option<string>, email: Option<string>, website: Option<string>)

  datatype PoliciesBody = PoliciesBody(
    checkInTime: Option<string>,
    checkOutTime: Option<string>,
    cancellationPolicy: Option<string>,
    petPolicy: Option<string>,
    smokingPolicy: Option<string>)

  /** The contact sub-document: every missing or empty field becomes "". */
  function ContactOf(c: ContactBody): (r: Contact)
    ensures r.phone == OrElse(c.phone, "") && r.email == OrElse(c.email, "") && r.website == OrElse(c.website, "")
    ensures c == ContactBody(None, None, None) ==> r == Contact("", "", "")
  {
    Contact(OrElse(c.phone, ""), OrElse(c.email, ""), OrElse(c.website, ""))
  }

  /** The policies sub-document: every missing or empty field becomes "". */
  function PoliciesOf(p: PoliciesBody): (r: Policies)
    ensures r.checkInTime == OrElse(p.checkInTime, "") && r.checkOutTime == OrElse(p.checkOutTime, "")
    ensures r.cancellationPolicy == OrElse(p.cancellationPolicy, "")
    ensures r.petPolicy == OrElse(p.petPolicy, "") && r.smokingPolicy == OrElse(p.smokingPolicy, "")
    ensures p == PoliciesBody(None, None, None, None, None) ==> r == Policies("", "", "", "", "")
  {
    Policies(OrElse(p.checkInTime, ""), OrElse(p.checkOutTime, ""), OrElse(p.cancellationPolicy, ""),
             OrElse(p.petPolicy, ""), OrElse(p.smokingPolicy, ""))
  }

  // ---------------------------------------------------------------------------
  // POST /

  /** The multipart body of a hotel creation; the price is None when missing or not numeric. The
      body itself becomes the new document, so it may also carry the two counters. */
  datatype NewHotelBody = NewHotelBody(
    name: Option<string>,
    city: Option<string>,
    country: Option<string>,
    description: Option<string>,
    types: Field,
    pricePerNight: Option<int>,
    facilities: Field,
    adultCount: int,
    childCount: int,
    starRating: int,
    contact: ContactBody,
    policies: PoliciesBody,
    totalBookings: Option<int>,
    totalRevenue: Option<int>)

  /** The fields the creation validators reject, in declaration order. */
  function NewHotelErrors(body: NewHotelBody): (errs: seq<string>)
    ensures errs == [] <==>
      && NotEmpty(body.name) && NotEmpty(body.city) && NotEmpty(body.country) && NotEmpty(body.description)
      && TruthyField(body.types) && body.pricePerNight.Some? && body.facilities.Many?
  {
    Check(NotEmpty(body.name), "name") + Check(NotEmpty(body.city), "city")
    + Check(NotEmpty(body.country), "country") + Check(NotEmpty(body.description), "description")
    + Check(TruthyField(body.types), "type") + Check(body.pricePerNight.Some?, "pricePerNight")
    + Check(body.facilities.Many?, "facilities")
  }

  /** The counters a creation body asks for; the schema default for each is 0. */
  function RequestedTotals(body: NewHotelBody): Ledger.Totals {
    Ledger.Totals(body.totalBookings.GetOr(0), body.totalRevenue.GetOr(0))
  }

  /** The document a validated creation body becomes: the body's own fields, with the owner, the
      images, the contact and policies sub-documents and the timestamp set by the route. */
  function NewHotel(body: NewHotelBody, caller: Id, imageUrls: seq<string>, now: int): (h: Hotel)
    requires NewHotelErrors(body) == []
    ensures h.userId == caller && h.imageUrls == imageUrls && h.lastUpdated == now
    ensures h.name == body.name.value && h.city == body.city.value && h.country == body.country.value
    ensures h.description == body.description.value && h.pricePerNight == body.pricePerNight.value
    ensures h.types == ToList(body.types) && h.facilities == ToList(body.facilities)
    ensures h.adultCount == body.adultCount && h.childCount == body.childCount && h.starRating == body.starRating
    ensures h.contact == ContactOf(body.contact) && h.policies == PoliciesOf(body.policies)
    ensures Ledger.HotelTotals(h) == RequestedTotals(body)
  {
    Hotel(caller, body.name.value, body.city.value, body.country.value, body.description.value,
          ToList(body.types), body.adultCount, body.childCount, ToList(body.facilities),
          body.pricePerNight.value, body.starRating, imageUrls, ContactOf(body.contact),
          PoliciesOf(body.policies), now, body.totalBookings.GetOr(0), body.totalRevenue.GetOr(0))
  }

  /** `POST /`. `uploaded` holds the URLs of the uploaded image files, in upload order (none when no
      file was sent). The new hotel belongs to the caller whatever the body says. */
  method CreateHotel(db: Database, caller: Id, body: NewHotelBody, uploaded: seq<string>, now: int)
    returns (r: Result<Id>)
    modifies db
    ensures NewHotelErrors(body) != [] <==> r == Err(400, Invalid(NewHotelErrors(body)))
    ensures NewHotelErrors(body) == [] ==> r.Ok?
    ensures r.Err? ==> db.hotels == old(db.hotels)
    ensures r.Ok? ==>
      && r.value !in old(db.hotels)
      && db.hotels == old(db.hotels)[r.value := NewHotel(body, caller, uploaded, now)]
    ensures db.bookings == old(db.bookings) && db.users == old(db.users)
    ensures r.Ok? ==> (db.Consistent() <==> old(db.Consistent()) && RequestedTotals(body) == Ledger.Zero)
    ensures old(db.Consistent()) && RequestedTotals(body) == Ledger.Zero ==> db.Consistent()
  {
    var errs := NewHotelErrors(body);
    if errs != [] {
      return Err(400, Invalid(errs));
    }
    var imageUrls: seq<string>;
    if |uploaded| > 0 {
      imageUrls := uploaded;
    } else {
      imageUrls := [];
    }
    var hotel := NewHotel(body, caller, imageUrls, now);
    var id := db.NewId();
    Ledger.ConsistentWithNewHotel(db.bookings, db.hotels, db.users, id, hotel);
    db.SaveHotel(id, hotel);
    r := Ok(id);
  }

  /** A creation body carrying a revenue figure is stored as given, so the new hotel claims revenue
      no live booking backs and the ledger no longer holds. */
  lemma HotelWithCountersBreaksLedger(bookings: map<Id, Booking>, hotels: map<Id, Hotel>, users: map<Id, User>,
                                      id: Id, body: NewHotelBody, caller: Id, imageUrls: seq<string>, now: int)
    requires NewHotelErrors(body) == []
    requires id !in hotels && forall k :: k in bookings ==> bookings[k].hotelId != id
    requires body.totalRevenue.Some? && body.totalRevenue.value != 0
    ensures !Ledger.Consistent(bookings, hotels[id := NewHotel(body, caller, imageUrls, now)], users)
  {
    Ledger.ConsistentWithNewHotel(bookings, hotels, users, id, NewHotel(body, caller, imageUrls, now));
  }

  // ---------------------------------------------------------------------------
  // PUT /:hotelId

  /** The multipart body of a hotel update. A text field the client leaves out is None. Each number
      is what `Number()` makes of its field, None when that is NaN (an absent or non-numeric value).
      `imageUrls` are the existing image URLs the client keeps. */
  datatype HotelEditBody = HotelEditBody(
    name: Option<string>,
    city: Option<string>,
    country: Option<string>,
    description: Option<string>,
    types: Field,
    pricePerNight: Option<int>,
    starRating: Option<int>,
    adultCount: Option<int>,
    childCount: Option<int>,
    facilities: Field,
    contact: ContactBody,
    policies: PoliciesBody,
    imageUrls: Field)

  /** Every number of the update casts: none of them is NaN, which the store refuses to cast. */
  predicate NumbersCast(body: HotelEditBody) {
    body.pricePerNight.Some? && body.starRating.Some? && body.adultCount.Some? && body.childCount.Some?
  }

  /** The `updateData` document applied to the stored hotel: the listing fields that were sent are
      replaced (an `undefined` key leaves the stored field alone), type and facilities normalised to
      lists, contact and policies filled with "", and the owner, images and counters kept. */
  function ApplyHotelEdit(h: Hotel, body: HotelEditBody, now: int): (r: Hotel)
    requires NumbersCast(body)
    ensures r.types == ToList(body.types) && r.facilities == ToList(body.facilities)
    ensures r.contact == ContactOf(body.contact) && r.policies == PoliciesOf(body.policies)
    ensures r.name == (if body.name.Some? then body.name.value else h.name)
    ensures r.city == (if body.city.Some? then body.city.value else h.city)
    ensures r.country == (if body.country.Some? then body.country.value else h.country)
    ensures r.description == (if body.description.Some? then body.description.value else h.description)
    ensures r.pricePerNight == body.pricePerNight.value && r.starRating == body.starRating.value
    ensures r.adultCount == body.adultCount.value && r.childCount == body.childCount.value
    ensures r.lastUpdated == now
    ensures r.userId == h.userId && r.imageUrls == h.imageUrls
    ensures Ledger.HotelTotals(r) == Ledger.HotelTotals(h)
  {
    h.(name := body.name.GetOr(h.name), city := body.city.GetOr(h.city),
       country := body.country.GetOr(h.country), description := body.description.GetOr(h.description),
       types := ToList(body.types), pricePerNight := body.pricePerNight.value,
       starRating := body.starRating.value, adultCount := body.adultCount.value,
       childCount := body.childCount.value, facilities := ToList(body.facilities),
       lastUpdated := now, contact := ContactOf(body.contact), policies := PoliciesOf(body.policies))
  }

  /** The image list after an update with uploads: the new URLs first, then the retained ones. */
  function MergedImages(uploaded: seq<string>, retained: Field): (r: seq<string>)
    ensures |r| >= |uploaded| && r[..|uploaded|] == uploaded
    ensures TruthyField(retained) ==> r[|uploaded|..] == AsList(retained)
    ensures !TruthyField(retained) ==> r == uploaded
  {
    uploaded + (if TruthyField(retained) then AsList(retained) else [])
  }

  /** `PUT /:hotelId`. A hotel out of the caller's scope is 404 and nothing changes. A number that is
      NaN makes `findByIdAndUpdate` fail its cast, a 500 with nothing changed. Otherwise the listing
      fields are replaced; the image list changes only when files were uploaded. */
  method UpdateHotel(db: Database, hotelId: Id, caller: Id, role: Role, body: HotelEditBody, uploaded: seq<string>, now: int)
    returns (r: Result<Hotel>)
    modifies db
    ensures FindScoped(old(db.hotels), hotelId, caller, role).Err? <==> r == Err(404, NotFound(HotelRecord))
    ensures FindScoped(old(db.hotels), hotelId, caller, role).Ok? && !NumbersCast(body) ==> r == Err(500, CastFailed)
    ensures FindScoped(old(db.hotels), hotelId, caller, role).Ok? && NumbersCast(body) ==> r.Ok?
    ensures r.Err? ==> db.hotels == old(db.hotels)
    ensures r.Ok? ==> hotelId in old(db.hotels) && db.hotels == old(db.hotels)[hotelId := r.value]
    ensures r.Ok? ==> NumbersCast(body)
    ensures r.Ok? && uploaded == [] ==> r.value == ApplyHotelEdit(old(db.hotels[hotelId]), body, now)
    ensures r.Ok? && uploaded != [] ==>
      r.value == ApplyHotelEdit(old(db.hotels[hotelId]), body, now).(imageUrls := MergedImages(uploaded, body.imageUrls))
    ensures r.Ok? ==> r.value.userId == old(db.hotels[hotelId]).userId
    ensures db.bookings == old(db.bookings) && db.users == old(db.users)
    ensures old(db.Consistent()) ==> db.Consistent()
  {
    var existing := FindScoped(db.hotels, hotelId, caller, role);
    if existing.Err? {
      return Err(404, NotFound(HotelRecord));
    }
    if !NumbersCast(body) {
      return Err(500, CastFailed);
    }
    var updated := ApplyHotelEdit(db.hotels[hotelId], body, now);
    if |uploaded| > 0 {
      updated := updated.(imageUrls := MergedImages(uploaded, body.imageUrls));
    }
    if db.Consistent() {
      Ledger.ConsistentAfterHotelWrite(db.bookings, db.hotels, db.users, hotelId, updated);
    }
    db.SaveHotel(hotelId, updated);
    r := Ok(updated);
  }
}
