/** The account routes: reading one's own profile, self-registration, and self-service profile
    updates. Token signing and cookies are not part of this model. */
module UsersRoutes {
  import opened Common
  import opened Domain
  import Text
  import Ledger
  import opened Store

  /** A user as the routes return it: every field but the password. */
  datatype Profile = Profile(
    firstName: string,
    lastName: string,
    email: string,
    role: Role,
    phone: Option<string>,
    address: Option<Address>,
    isActive: bool,
    totalBookings: int,
    totalSpent: int,
    updatedAt: int)

  /** `.select("-password")`. */
  function WithoutPassword(u: User): (p: Profile)
    ensures p.firstName == u.firstName && p.lastName == u.lastName && p.email == u.email && p.role == u.role
    ensures p.phone == u.phone && p.address == u.address && p.isActive == u.isActive && p.updatedAt == u.updatedAt
    ensures p.totalBookings == u.totalBookings && p.totalSpent == u.totalSpent
  {
    Profile(u.firstName, u.lastName, u.email, u.role, u.phone, u.address, u.isActive,
            u.totalBookings, u.totalSpent, u.updatedAt)
  }

  /** The profile reveals nothing of the password: users that differ only in it look the same. */
  lemma ProfileHidesPassword(u: User, password: string)
    ensures WithoutPassword(u.(password := password)) == WithoutPassword(u)
  {
  }

  /** `GET /me`: the caller's profile; a caller with no account gets 400 "User not found". */
  function GetMe(users: map<Id, User>, caller: Id): (r: Result<Profile>)
    ensures caller !in users <==> r == Err(400, NotFound(UserRecord))
    ensures r.Ok? ==> caller in users && r.value == WithoutPassword(users[caller])
  {
    if caller !in users then Err(400, NotFound(UserRecord)) else Ok(WithoutPassword(users[caller]))
  }

  // ---------------------------------------------------------------------------
  // POST /register

  /** The registration body. The whole body is spread into the new user document, so besides the
      validated fields it may carry any other field of a user: the phone, the address, the active
      flag and the two counters. `role` is whatever the client sent; it is overridden. */
  datatype RegistrationBody = RegistrationBody(
    firstName: Option<string>,
    lastName: Option<string>,
    email: Option<string>,
    password: Option<string>,
    phone: Option<string>,
    role: Option<string>,
    address: Option<Address>,
    isActive: Option<bool>,
    totalBookings: Option<int>,
    totalSpent: Option<int>)

  /** The fields the registration validators reject: names must be strings, the email well formed,
      the password at least six characters. */
  function RegistrationErrors(body: RegistrationBody): (errs: seq<string>)
    ensures errs == [] <==>
      && body.firstName.Some? && body.lastName.Some?
      && body.email.Some? && Text.IsEmail(body.email.value)
      && body.password.Some? && Text.HasMinLength(body.password.value, 6)
  {
    Check(body.firstName.Some?, "firstName") + Check(body.lastName.Some?, "lastName")
    + Check(body.email.Some? && Text.IsEmail(body.email.value), "email")
    + Check(body.password.Some? && Text.HasMinLength(body.password.value, 6), "password")
  }

  /** The counters a registration body asks for; the schema default for each is 0. */
  function RequestedTotals(body: RegistrationBody): Ledger.Totals {
    Ledger.Totals(body.totalBookings.GetOr(0), body.totalSpent.GetOr(0))
  }

  /** `POST /register`. An email already held by a user is refused; otherwise the body becomes the
      new account with the role forced to "user". */
  method Register(db: Database, body: RegistrationBody, now: int) returns (r: Result<Id>)
    modifies db
    ensures RegistrationErrors(body) != [] ==> r == Err(400, Invalid(RegistrationErrors(body)))
    ensures RegistrationErrors(body) == [] ==> (EmailInUse(old(db.users), body.email.value) <==> r == Err(400, EmailTaken))
    ensures RegistrationErrors(body) == [] && !EmailInUse(old(db.users), body.email.value) ==> r.Ok?
    ensures r.Err? ==> db.users == old(db.users)
    ensures r.Ok? ==>
      && r.value !in old(db.users)
      && db.users == old(db.users)[r.value := User(body.firstName.value, body.lastName.value, body.email.value,
                                                    body.password.value, UserRole, body.phone, body.address,
                                                    body.isActive.GetOr(true), body.totalBookings.GetOr(0),
                                                    body.totalSpent.GetOr(0), now)]
    ensures r.Ok? ==> db.users[r.value].role == UserRole
    ensures db.bookings == old(db.bookings) && db.hotels == old(db.hotels)
    ensures old(UniqueEmails(db.users)) ==> UniqueEmails(db.users)
    ensures r.Ok? ==> (db.Consistent() <==> old(db.Consistent()) && RequestedTotals(body) == Ledger.Zero)
    ensures old(db.Consistent()) && RequestedTotals(body) == Ledger.Zero ==> db.Consistent()
  {
    var errs := RegistrationErrors(body);
    if errs != [] {
      return Err(400, Invalid(errs));
    }
    var existing := db.FindUserByEmail(body.email.value);
    if existing.Some? {
      return Err(400, EmailTaken);
    }
    var user := User(body.firstName.value, body.lastName.value, body.email.value, body.password.value,
                     UserRole, body.phone, body.address, body.isActive.GetOr(true),
                     body.totalBookings.GetOr(0), body.totalSpent.GetOr(0), now);
    var id := db.NewId();
    Ledger.ConsistentWithNewUser(db.bookings, db.hotels, db.users, id, user);
    if UniqueEmails(db.users) {
      UniqueEmailsAfterWrite(db.users, id, user);
    }
    db.SaveUser(id, user);
    r := Ok(id);
  }

  /** A registration body carrying a booking count is stored as given, so the new account claims
      bookings no live booking backs and the ledger no longer holds. */
  lemma RegistrationWithCountersBreaksLedger(bookings: map<Id, Booking>, hotels: map<Id, Hotel>, users: map<Id, User>,
                                             id: Id, body: RegistrationBody, now: int)
    requires RegistrationErrors(body) == []
    requires id !in users && forall k :: k in bookings ==> bookings[k].userId != id
    requires body.totalBookings == Some(1)
    ensures var u := User(body.firstName.value, body.lastName.value, body.email.value, body.password.value,
                          UserRole, body.phone, body.address, body.isActive.GetOr(true),
                          body.totalBookings.GetOr(0), body.totalSpent.GetOr(0), now);
      !Ledger.Consistent(bookings, hotels, users[id := u])
  {
    var u := User(body.firstName.value, body.lastName.value, body.email.value, body.password.value,
                  UserRole, body.phone, body.address, body.isActive.GetOr(true),
                  body.totalBookings.GetOr(0), body.totalSpent.GetOr(0), now);
    Ledger.ConsistentWithNewUser(bookings, hotels, users, id, u);
  }

  // ---------------------------------------------------------------------------
  // PATCH /me

  datatype AddressBody = AddressBody(
    street: Option<string>,
    city: Option<string>,
    state: Option<string>,
    country: Option<string>,
    zipCode: Option<string>)

  datatype ProfileBody = ProfileBody(
    email: Option<string>,
    firstName: Option<string>,
    lastName: Option<string>,
    password: Option<string>,
    phone: Option<string>,
    address: Option<AddressBody>)

  /** The fields the profile validators reject: a given email must be well formed and a given
      password at least six characters. */
  function ProfileErrors(body: ProfileBody): (errs: seq<string>)
    ensures "email" in errs <==> body.email.Some? && !Text.IsEmail(body.email.value)
    ensures "password" in errs <==> body.password.Some? && !Text.HasMinLength(body.password.value, 6)
    ensures errs == [] <==> (body.email.None? || Text.IsEmail(body.email.value))
                            && (body.password.None? || Text.HasMinLength(body.password.value, 6))
  {
    Check(body.email.None? || Text.IsEmail(body.email.value), "email")
    + Check(body.password.None? || Text.HasMinLength(body.password.value, 6), "password")
  }

  /** A supplied address replaces all five fields, each missing one with "". */
  function AddressOf(a: AddressBody): (r: Address)
    ensures r.street == OrElse(a.street, "") && r.city == OrElse(a.city, "") && r.state == OrElse(a.state, "")
    ensures r.country == OrElse(a.country, "") && r.zipCode == OrElse(a.zipCode, "")
  {
    Address(OrElse(a.street, ""), OrElse(a.city, ""), OrElse(a.state, ""), OrElse(a.country, ""), OrElse(a.zipCode, ""))
  }

  /** The profile update applied to the loaded user, field by field: names and password only when
      truthy, phone whenever given, the whole address whenever one is given; then the timestamp. */
  method ApplyProfile(user: User, body: ProfileBody, now: int) returns (u: User)
    ensures u.firstName == OrElse(body.firstName, user.firstName)
    ensures u.lastName == OrElse(body.lastName, user.lastName)
    ensures u.password == OrElse(body.password, user.password)
    ensures u.phone == (if body.phone.Some? then body.phone else user.phone)
    ensures u.address == (if body.address.Some? then Some(AddressOf(body.address.value)) else user.address)
    ensures u.updatedAt == now
    ensures u.email == user.email && u.role == user.role && u.isActive == user.isActive
    ensures Ledger.UserTotals(u) == Ledger.UserTotals(user)
  {
    var firstName, lastName, password, phone, address :=
      user.firstName, user.lastName, user.password, user.phone, user.address;
    if Truthy(body.firstName) { firstName := body.firstName.value; }
    if Truthy(body.lastName) { lastName := body.lastName.value; }
    if Truthy(body.password) { password := body.password.value; }
    if body.phone.Some? { phone := body.phone; }
    if body.address.Some? { address := Some(AddressOf(body.address.value)); }
    u := user.(firstName := firstName, lastName := lastName, password := password, phone := phone,
               address := address, updatedAt := now);
  }

  /** `PATCH /me`. Validation first; a caller with no account is 404; a truthy email that differs
      from the caller's own must not be held by anyone, while an unchanged email is not looked up.
      The role, the active flag and the counters are never changed here. */
  method UpdateProfile(db: Database, caller: Id, body: ProfileBody, now: int) returns (r: Result<Profile>)
    modifies db
    ensures ProfileErrors(body) != [] ==> r == Err(400, Invalid(ProfileErrors(body)))
    ensures ProfileErrors(body) == [] && caller !in old(db.users) ==> r == Err(404, NotFound(UserRecord))
    ensures (ProfileErrors(body) == [] && caller in old(db.users) && Truthy(body.email)
             && body.email.value != old(db.users[caller]).email) ==>
      (EmailInUse(old(db.users), body.email.value) <==> r == Err(400, EmailTaken))
    ensures (ProfileErrors(body) == [] && caller in old(db.users)
             && !(Truthy(body.email) && body.email.value != old(db.users[caller]).email
                  && EmailInUse(old(db.users), body.email.value))) ==> r.Ok?
    ensures r.Err? ==> db.users == old(db.users)
    ensures r.Ok? ==> caller in old(db.users) && caller in db.users && db.users == old(db.users)[caller := db.users[caller]]
    ensures r.Ok? ==> r == Ok(WithoutPassword(db.users[caller]))
    ensures r.Ok? ==> db.users[caller].email == OrElse(body.email, old(db.users[caller]).email)
    ensures r.Ok? ==> db.users[caller].firstName == OrElse(body.firstName, old(db.users[caller]).firstName)
    ensures r.Ok? ==> db.users[caller].lastName == OrElse(body.lastName, old(db.users[caller]).lastName)
    ensures r.Ok? ==> db.users[caller].password == OrElse(body.password, old(db.users[caller]).password)
    ensures r.Ok? ==> db.users[caller].phone == (if body.phone.Some? then body.phone else old(db.users[caller]).phone)
    ensures r.Ok? && body.address.Some? ==> db.users[caller].address == Some(AddressOf(body.address.value))
    ensures r.Ok? && body.address.None? ==> db.users[caller].address == old(db.users[caller]).address
    ensures r.Ok? ==> db.users[caller].role == old(db.users[caller]).role && db.users[caller].updatedAt == now
    ensures r.Ok? ==> db.users[caller].isActive == old(db.users[caller]).isActive
    ensures r.Ok? ==> Ledger.UserTotals(db.users[caller]) == Ledger.UserTotals(old(db.users[caller]))
    ensures db.bookings == old(db.bookings) && db.hotels == old(db.hotels)
    ensures old(UniqueEmails(db.users)) ==> UniqueEmails(db.users)
    ensures old(db.Consistent()) ==> db.Consistent()
  {
    var errs := ProfileErrors(body);
    if errs != [] {
      return Err(400, Invalid(errs));
    }
    if caller !in db.users {
      return Err(404, NotFound(UserRecord));
    }
    var user := db.users[caller];
    if Truthy(body.email) && body.email.value != user.email {
      var holder := db.FindUserByEmail(body.email.value);
      if holder.Some? {
        return Err(400, EmailTaken);
      }
      user := user.(email := body.email.value);
    }
    user := ApplyProfile(user, body, now);
    if db.Consistent() {
      Ledger.ConsistentAfterUserWrite(db.bookings, db.hotels, db.users, caller, user);
    }
    if UniqueEmails(db.users) {
      UniqueEmailsAfterWrite(db.users, caller, user);
    }
    db.SaveUser(caller, user);
    r := Ok(WithoutPassword(user));
  }
}
