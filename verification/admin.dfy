/** The administrator routes: user creation, update and cascading deletion, and manual booking
    creation without a payment. Every route here sits behind `authorizeRoles("admin")`. */
module AdminRoutes {
  import opened Common
  import opened Domain
  import Text
  import Ledger
  import opened Store
  import UsersRoutes

  /** The `isEmail` validator on an optional body field (a missing field fails). */
  predicate ValidEmail(f: Option<string>) {
    f.Some? && Text.IsEmail(f.value)
  }

  /** The `isLength({ min: 6 })` validator on the password (a missing field fails). */
  predicate ValidPassword(f: Option<string>) {
    f.Some? && Text.HasMinLength(f.value, 6)
  }

  /** An `optional().isIn(...)` validator: absent, or one of `names`. */
  predicate OptionalIn(f: Option<string>, names: seq<string>) {
    f.None? || f.value in names
  }

  // ---------------------------------------------------------------------------
  // POST /users

  datatype NewUserBody = NewUserBody(
    firstName: Option<string>,
    lastName: Option<string>,
    email: Option<string>,
    password: Option<string>,
    role: Option<string>,
    phone: Option<string>,
    isActive: Option<bool>)

  /** The fields the creation validators reject, in declaration order. */
  function NewUserErrors(body: NewUserBody): (errs: seq<string>)
    ensures "firstName" in errs <==> !NotEmpty(body.firstName)
    ensures "lastName" in errs <==> !NotEmpty(body.lastName)
    ensures "email" in errs <==> !ValidEmail(body.email)
    ensures "password" in errs <==> !ValidPassword(body.password)
    ensures "role" in errs <==> !OptionalIn(body.role, RoleNames)
    ensures errs == [] <==> NotEmpty(body.firstName) && NotEmpty(body.lastName) && ValidEmail(body.email)
                            && ValidPassword(body.password) && OptionalIn(body.role, RoleNames)
  {
    Check(NotEmpty(body.firstName), "firstName") + Check(NotEmpty(body.lastName), "lastName")
    + Check(ValidEmail(body.email), "email") + Check(ValidPassword(body.password), "password")
    + Check(OptionalIn(body.role, RoleNames), "role")
  }

  /** `role || "user"` on a validated role. */
  function RoleOrUser(role: Option<string>): (r: Role)
    requires OptionalIn(role, RoleNames)
    ensures role.None? ==> r == UserRole
    ensures role.Some? ==> RoleName(r) == role.value
  {
    if role.None? then UserRole else ParseRole(role.value).value
  }

  /** `POST /users`. Validation, then the duplicate-email check; the new user gets the requested
      role or "user", and is active unless the body says otherwise. */
  method CreateUser(db: Database, body: NewUserBody, now: int) returns (r: Result<Id>)
    modifies db
    ensures NewUserErrors(body) != [] ==> r == Err(400, Invalid(NewUserErrors(body)))
    ensures NewUserErrors(body) == [] && EmailInUse(old(db.users), body.email.value) ==> r == Err(400, EmailTaken)
    ensures r.Err? ==> db.users == old(db.users)
    ensures NewUserErrors(body) == [] && !EmailInUse(old(db.users), body.email.value) ==> r.Ok?
    ensures r.Ok? ==>
      && r.value !in old(db.users)
      && db.users == old(db.users)[r.value := User(body.firstName.value, body.lastName.value, body.email.value,
                                                    body.password.value, RoleOrUser(body.role), body.phone,
                                                    None, body.isActive.GetOr(true), 0, 0, now)]
    ensures db.bookings == old(db.bookings) && db.hotels == old(db.hotels)
    ensures old(UniqueEmails(db.users)) ==> UniqueEmails(db.users)
    ensures old(db.Consistent()) ==> db.Consistent()
  {
    var errs := NewUserErrors(body);
    if errs != [] {
      return Err(400, Invalid(errs));
    }
    var existing := db.FindUserByEmail(body.email.value);
    if existing.Some? {
      return Err(400, EmailTaken);
    }
    var user := User(body.firstName.value, body.lastName.value, body.email.value, body.password.value,
                     RoleOrUser(body.role), body.phone, None, body.isActive.GetOr(true), 0, 0, now);
    var id := db.NewId();
    if db.Consistent() {
      Ledger.ConsistentAfterUserWrite(db.bookings, db.hotels, db.users, id, user);
    }
    if UniqueEmails(db.users) {
      UniqueEmailsAfterWrite(db.users, id, user);
    }
    db.SaveUser(id, user);
    r := Ok(id);
  }

  // ---------------------------------------------------------------------------
  // PATCH /users/:id

  datatype UserPatchBody = UserPatchBody(
    firstName: Option<string>,
    lastName: Option<string>,
    email: Option<string>,
    role: Option<string>,
    phone: Option<string>,
    isActive: Option<bool>,
    password: Option<string>)

  /** The fields the update validators reject: each is optional, but checked when present. */
  function UserPatchErrors(body: UserPatchBody): (errs: seq<string>)
    ensures "email" in errs <==> body.email.Some? && !Text.IsEmail(body.email.value)
    ensures "role" in errs <==> !OptionalIn(body.role, RoleNames)
    ensures "password" in errs <==> body.password.Some? && !Text.HasMinLength(body.password.value, 6)
    ensures forall f :: f in errs ==> f in ["email", "role", "password"]
  {
    Check(body.email.None? || Text.IsEmail(body.email.value), "email")
    + Check(OptionalIn(body.role, RoleNames), "role")
    + Check(body.password.None? || Text.HasMinLength(body.password.value, 6), "password")
  }

  /** The admin update applied to a loaded user, field by field: names, role and password only
      when truthy, phone whenever given, `isActive` whenever it is a boolean; then the timestamp. */
  method ApplyUserPatch(user: User, body: UserPatchBody, now: int) returns (u: User)
    requires OptionalIn(body.role, RoleNames)
    ensures u.firstName == OrElse(body.firstName, user.firstName)
    ensures u.lastName == OrElse(body.lastName, user.lastName)
    ensures u.role == (if Truthy(body.role) then RoleOrUser(body.role) else user.role)
    ensures u.phone == (if body.phone.Some? then body.phone else user.phone)
    ensures u.isActive == body.isActive.GetOr(user.isActive)
    ensures u.password == OrElse(body.password, user.password)
    ensures u.updatedAt == now
    ensures u.email == user.email && u.address == user.address
    ensures Ledger.UserTotals(u) == Ledger.UserTotals(user)
  {
    var firstName, lastName, role, phone, isActive, password :=
      user.firstName, user.lastName, user.role, user.phone, user.isActive, user.password;
    if Truthy(body.firstName) { firstName := body.firstName.value; }
    if Truthy(body.lastName) { lastName := body.lastName.value; }
    if Truthy(body.role) { role := RoleOrUser(body.role); }
    if body.phone.Some? { phone := body.phone; }
    if body.isActive.Some? { isActive := body.isActive.value; }
    if Truthy(body.password) { password := body.password.value; }
    u := user.(firstName := firstName, lastName := lastName, role := role, phone := phone,
               isActive := isActive, password := password, updatedAt := now);
  }

  /** `PATCH /users/:id`. A truthy email that differs from the stored one must not be held by any
      other user; an unchanged email is not looked up. The response is the saved user without its
      password. */
  method UpdateUser(db: Database, id: Id, body: UserPatchBody, now: int) returns (r: Result<UsersRoutes.Profile>)
    modifies db
    ensures UserPatchErrors(body) != [] ==> r == Err(400, Invalid(UserPatchErrors(body)))
    ensures UserPatchErrors(body) == [] && id !in old(db.users) ==> r == Err(404, NotFound(UserRecord))
    ensures (UserPatchErrors(body) == [] && id in old(db.users) && Truthy(body.email)
             && body.email.value != old(db.users[id]).email) ==>
      (EmailInUse(old(db.users), body.email.value) <==> r == Err(400, EmailTaken))
    ensures (UserPatchErrors(body) == [] && id in old(db.users)
             && !(Truthy(body.email) && body.email.value != old(db.users[id]).email
                  && EmailInUse(old(db.users), body.email.value))) ==> r.Ok?
    ensures r.Err? ==> db.users == old(db.users)
    ensures r.Ok? ==> id in old(db.users) && id in db.users && db.users == old(db.users)[id := db.users[id]]
    ensures r.Ok? ==> r.value == UsersRoutes.WithoutPassword(db.users[id])
    ensures r.Ok? ==> db.users[id].role == (if Truthy(body.role) then RoleOrUser(body.role) else old(db.users[id]).role)
    ensures r.Ok? ==> Ledger.UserTotals(db.users[id]) == Ledger.UserTotals(old(db.users[id]))
    ensures r.Ok? ==> db.users[id].email == OrElse(body.email, old(db.users[id]).email)
    ensures r.Ok? ==> db.users[id].firstName == OrElse(body.firstName, old(db.users[id]).firstName)
    ensures r.Ok? ==> db.users[id].lastName == OrElse(body.lastName, old(db.users[id]).lastName)
    ensures r.Ok? ==> db.users[id].password == OrElse(body.password, old(db.users[id]).password)
    ensures r.Ok? ==> db.users[id].phone == (if body.phone.Some? then body.phone else old(db.users[id]).phone)
    ensures r.Ok? ==> db.users[id].isActive == body.isActive.GetOr(old(db.users[id]).isActive)
    ensures r.Ok? ==> db.users[id].updatedAt == now && db.users[id].address == old(db.users[id]).address
    ensures db.bookings == old(db.bookings) && db.hotels == old(db.hotels)
    ensures old(UniqueEmails(db.users)) ==> UniqueEmails(db.users)
    ensures old(db.Consistent()) ==> db.Consistent()
  {
    var errs := UserPatchErrors(body);
    if errs != [] {
      return Err(400, Invalid(errs));
    }
    if id !in db.users {
      return Err(404, NotFound(UserRecord));
    }
    var user := db.users[id];
    if Truthy(body.email) && body.email.value != user.email {
      var holder := db.FindUserByEmail(body.email.value);
      if holder.Some? {
        return Err(400, EmailTaken);
      }
      user := user.(email := body.email.value);
    }
    user := ApplyUserPatch(user, body, now);
    if db.Consistent() {
      Ledger.ConsistentAfterUserWrite(db.bookings, db.hotels, db.users, id, user);
    }
    if UniqueEmails(db.users) {
      UniqueEmailsAfterWrite(db.users, id, user);
    }
    db.SaveUser(id, user);
    r := Ok(UsersRoutes.WithoutPassword(user));
  }

  // ---------------------------------------------------------------------------
  // DELETE /users/:id

  /** `Hotel.find({ userId })`: the ids of the hotels the user owns. */
  function OwnedHotels(hotels: map<Id, Hotel>, owner: Id): (ids: set<Id>)
    ensures forall h :: h in ids <==> h in hotels && hotels[h].userId == owner
  {
    set h | h in hotels && hotels[h].userId == owner
  }

  /** The bookings left after deleting a user: neither made by the user nor at one of their hotels. */
  function BookingsAfterUserDeletion(bookings: map<Id, Booking>, hotels: map<Id, Hotel>, id: Id): (r: map<Id, Booking>)
    ensures forall k :: k in r <==> k in bookings && bookings[k].userId != id
                                     && !(bookings[k].hotelId in hotels && hotels[bookings[k].hotelId].userId == id)
    ensures forall k :: k in r ==> r[k] == bookings[k]
  {
    map k | k in bookings && bookings[k].userId != id && bookings[k].hotelId !in OwnedHotels(hotels, id) :: bookings[k]
  }

  /** The hotels left after deleting a user: those owned by someone else. */
  function HotelsAfterUserDeletion(hotels: map<Id, Hotel>, id: Id): (r: map<Id, Hotel>)
    ensures forall h :: h in r <==> h in hotels && hotels[h].userId != id
    ensures forall h :: h in r ==> r[h] == hotels[h]
  {
    map h | h in hotels && hotels[h].userId != id :: hotels[h]
  }

  /** `DELETE /users/:id`: the user's bookings, the bookings of the user's hotels, those hotels and
      the user are removed. No counter of a remaining hotel or user is adjusted. */
  method DeleteUser(db: Database, id: Id) returns (r: Result<()>)
    modifies db
    ensures id !in old(db.users) ==> r == Err(404, NotFound(UserRecord))
    ensures id !in old(db.users) ==> db.bookings == old(db.bookings) && db.hotels == old(db.hotels) && db.users == old(db.users)
    ensures id in old(db.users) ==> r == Ok(())
    ensures id in old(db.users) ==>
      && db.bookings == BookingsAfterUserDeletion(old(db.bookings), old(db.hotels), id)
      && db.hotels == HotelsAfterUserDeletion(old(db.hotels), id)
      && db.users == old(db.users) - {id}
  {
    if id !in db.users {
      return Err(404, NotFound(UserRecord));
    }
    ghost var hotels0 := db.hotels;
    db.DeleteBookingsOfUser(id);
    var owned := OwnedHotels(db.hotels, id);
    if owned != {} {
      db.DeleteBookingsOfHotels(owned);
      db.DeleteHotelsOfUser(id);
    } else {
      assert HotelsAfterUserDeletion(hotels0, id) == hotels0;
    }
    db.DeleteUser(id);
    r := Ok(());
  }

  /** The deletion cascade does not keep the ledger: when the deleted user had booked a hotel owned
      by someone else, the booking disappears but that hotel's counters still count it. */
  lemma UserDeletionBreaksLedger(bookings: map<Id, Booking>, hotels: map<Id, Hotel>, users: map<Id, User>, id: Id, k: Id)
    requires Ledger.Consistent(bookings, hotels, users) && id in users
    requires k in bookings && bookings[k].userId == id
    requires bookings[k].hotelId in hotels && hotels[bookings[k].hotelId].userId != id
    ensures !Ledger.Consistent(BookingsAfterUserDeletion(bookings, hotels, id), HotelsAfterUserDeletion(hotels, id), users - {id})
  {
    var h := bookings[k].hotelId;
    var after := BookingsAfterUserDeletion(bookings, hotels, id);
    var remaining := HotelsAfterUserDeletion(hotels, id);
    Ledger.TallyCountDrops(after, bookings, k, Ledger.OfHotel(h));
    assert h in remaining && Ledger.HotelTotals(remaining[h]) != Ledger.Tally(after, Ledger.OfHotel(h));
  }

  // ---------------------------------------------------------------------------
  // POST /bookings

  /** The body of a manual booking. Dates are parsed timestamps, None when not ISO 8601; the cost
      is None when it is not numeric. */
  datatype ManualBookingBody = ManualBookingBody(
    userId: Option<Id>,
    hotelId: Option<Id>,
    firstName: Option<string>,
    lastName: Option<string>,
    email: Option<string>,
    phone: Option<string>,
    adultCount: Option<int>,
    childCount: Option<int>,
    checkIn: Option<int>,
    checkOut: Option<int>,
    totalCost: Option<int>,
    status: Option<string>,
    paymentStatus: Option<string>,
    paymentMethod: Option<string>,
    specialRequests: Option<string>)

  /** The fields the manual-booking validators reject, in declaration order. */
  function ManualBookingErrors(body: ManualBookingBody): (errs: seq<string>)
    ensures errs == [] <==>
      && NotEmpty(body.userId) && NotEmpty(body.hotelId) && NotEmpty(body.firstName) && NotEmpty(body.lastName)
      && ValidEmail(body.email)
      && body.adultCount.Some? && body.adultCount.value >= 1
      && (body.childCount.None? || body.childCount.value >= 0)
      && body.checkIn.Some? && body.checkOut.Some? && body.totalCost.Some?
      && OptionalIn(body.status, BookingStatusNames) && OptionalIn(body.paymentStatus, PaymentStatusNames)
  {
    Check(NotEmpty(body.userId), "userId") + Check(NotEmpty(body.hotelId), "hotelId")
    + Check(NotEmpty(body.firstName), "firstName") + Check(NotEmpty(body.lastName), "lastName")
    + Check(ValidEmail(body.email), "email")
    + Check(body.adultCount.Some? && body.adultCount.value >= 1, "adultCount")
    + Check(body.childCount.None? || body.childCount.value >= 0, "childCount")
    + Check(body.checkIn.Some?, "checkIn") + Check(body.checkOut.Some?, "checkOut")
    + Check(body.totalCost.Some?, "totalCost")
    + Check(OptionalIn(body.status, BookingStatusNames), "status")
    + Check(OptionalIn(body.paymentStatus, PaymentStatusNames), "paymentStatus")
  }

  /** The booking a validated manual request stores: status, payment status and method default to
      confirmed, paid and "manual". */
  function ManualBooking(body: ManualBookingBody, now: int): (b: Booking)
    requires ManualBookingErrors(body) == []
    ensures b.userId == body.userId.value && b.hotelId == body.hotelId.value && b.totalCost == body.totalCost.value
    ensures body.status.None? ==> b.status == Confirmed
    ensures body.status.Some? ==> BookingStatusName(b.status) == body.status.value
    ensures body.paymentStatus.None? ==> b.paymentStatus == Paid
    ensures body.paymentStatus.Some? ==> PaymentStatusName(b.paymentStatus) == body.paymentStatus.value
    ensures b.paymentMethod == Some(OrElse(body.paymentMethod, "manual"))
    ensures b.paymentIntentId.None?
  {
    Booking(body.userId.value, body.hotelId.value, body.firstName.value, body.lastName.value, body.email.value,
            body.phone, body.adultCount.value, body.childCount, body.checkIn.value, body.checkOut.value,
            body.totalCost.value,
            if body.status.None? then Confirmed else ParseBookingStatus(body.status.value).value,
            if body.paymentStatus.None? then Paid else ParsePaymentStatus(body.paymentStatus.value).value,
            Some(OrElse(body.paymentMethod, "manual")), None, body.specialRequests, None, None, now)
  }

  /** `POST /bookings`. Validation, then the hotel, then the user must exist, then check-out must
      follow check-in; only then is the booking saved and both counters raised. */
  method CreateManualBooking(db: Database, body: ManualBookingBody, now: int) returns (r: Result<Id>)
    modifies db
    ensures ManualBookingErrors(body) != [] ==> r == Err(400, Invalid(ManualBookingErrors(body)))
    ensures ManualBookingErrors(body) == [] && body.hotelId.value !in old(db.hotels) ==>
      r == Err(404, NotFound(HotelRecord))
    ensures ManualBookingErrors(body) == [] && body.hotelId.value in old(db.hotels) && body.userId.value !in old(db.users) ==>
      r == Err(404, NotFound(UserRecord))
    ensures ManualBookingErrors(body) == [] && body.hotelId.value in old(db.hotels) && body.userId.value in old(db.users) ==>
      (body.checkOut.value <= body.checkIn.value <==> r == Err(400, InvalidDateRange))
    ensures (ManualBookingErrors(body) == [] && body.hotelId.value in old(db.hotels) && body.userId.value in old(db.users)
             && body.checkIn.value < body.checkOut.value) ==> r.Ok?
    ensures r.Err? ==> db.bookings == old(db.bookings) && db.hotels == old(db.hotels) && db.users == old(db.users)
    ensures r.Ok? ==>
      var b := ManualBooking(body, now);
      && r.value !in old(db.bookings)
      && db.bookings == old(db.bookings)[r.value := b]
      && db.hotels == Ledger.IncHotel(old(db.hotels), b.hotelId, Ledger.Totals(1, b.totalCost))
      && db.users == Ledger.IncUser(old(db.users), b.userId, Ledger.Totals(1, b.totalCost))
    ensures old(db.Consistent()) ==> db.Consistent()
  {
    var errs := ManualBookingErrors(body);
    if errs != [] {
      return Err(400, Invalid(errs));
    }
    if body.hotelId.value !in db.hotels {
      return Err(404, NotFound(HotelRecord));
    }
    if body.userId.value !in db.users {
      return Err(404, NotFound(UserRecord));
    }
    if body.checkOut.value <= body.checkIn.value {
      return Err(400, InvalidDateRange);
    }
    var b := ManualBooking(body, now);
    ghost var before := (db.bookings, db.hotels, db.users);
    var id := db.NewId();
    db.SaveBooking(id, b);
    db.IncHotel(b.hotelId, Ledger.CreationDelta(b));
    db.IncUser(b.userId, Ledger.CreationDelta(b));
    if Ledger.Consistent(before.0, before.1, before.2) {
      Ledger.ConsistentAfterInsert(before.0, before.1, before.2, id, b);
    }
    r := Ok(id);
  }
}
