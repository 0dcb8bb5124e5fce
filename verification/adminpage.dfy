/** The administration page's client-side rules: the three list filters, the two form guards, and
    the revenue total shown above the hotel list. */
module AdminPage {
  import opened Common
  import Text
  import AdminRoutes

  /** `text.toLowerCase().includes(keyword)`. */
  predicate Mentions(text: string, keyword: string) {
    Text.Includes(Text.ToLower(text), keyword)
  }

  // ---------------------------------------------------------------------------
  // Hotels tab

  datatype HotelRow = HotelRow(name: string, city: string, country: string, userId: Option<string>, totalRevenue: Option<int>)

  /** A hotel matches a lower-cased keyword in its name, city, country or owner id. */
  predicate HotelMentions(h: HotelRow, keyword: string) {
    || Mentions(h.name, keyword) || Mentions(h.city, keyword) || Mentions(h.country, keyword)
    || (h.userId.Some? && Mentions(h.userId.value, keyword))
  }

  /** `filteredHotels`: a blank search shows every hotel; otherwise the search is lower-cased (but
      not trimmed) and matched against each hotel. */
  function FilterHotels(hotels: seq<HotelRow>, search: string): (r: seq<HotelRow>)
    ensures Text.IsBlank(search) ==> r == hotels
    ensures !Text.IsBlank(search) ==>
      forall h :: multiset(r)[h] == if HotelMentions(h, Text.ToLower(search)) then multiset(hotels)[h] else 0
    ensures SubsequenceOf(r, hotels)
  {
    if Text.IsBlank(search) then
      SubsequenceOfSelf(hotels);
      hotels
    else Filter(hotels, (h: HotelRow) => HotelMentions(h, Text.ToLower(search)))
  }

  /** A non-blank search longer than every searchable field of a hotel never finds it. */
  lemma LongSearchMisses(h: HotelRow, search: string)
    requires !Text.IsBlank(search) && h.userId.None?
    requires |search| > |h.name| && |search| > |h.city| && |search| > |h.country|
    ensures FilterHotels([h], search) == []
  {
    var keyword := Text.ToLower(search);
    assert |keyword| == |search|;
    assert !Text.Includes(Text.ToLower(h.name), keyword);
    assert !Text.Includes(Text.ToLower(h.city), keyword);
    assert !Text.Includes(Text.ToLower(h.country), keyword);
    assert multiset(FilterHotels([h], search))[h] == 0;
  }

  /** Because the keyword keeps its surrounding spaces, "paris " does not find a hotel in Paris. */
  lemma TrailingSpaceMissesHotel()
    ensures FilterHotels([HotelRow("Paris", "Paris", "UK", None, None)], "paris ") == []
  {
    Text.NotBlank("paris ", 0);
    LongSearchMisses(HotelRow("Paris", "Paris", "UK", None, None), "paris ");
  }

  /** The revenue shown: `reduce((s, h) => s + (h.totalRevenue || 0), 0)` over every hotel. */
  function Revenue(hotels: seq<HotelRow>): (total: int)
    ensures (forall j :: 0 <= j < |hotels| ==> hotels[j].totalRevenue.GetOr(0) >= 0) ==> total >= 0
  {
    if hotels == [] then 0 else Revenue(hotels[..|hotels| - 1]) + hotels[|hotels| - 1].totalRevenue.GetOr(0)
  }

  /** The total of two lists of hotels is the sum of their totals. */
  lemma {:induction false} RevenueAppend(a: seq<HotelRow>, b: seq<HotelRow>)
    ensures Revenue(a + b) == Revenue(a) + Revenue(b)
    decreases |b|
  {
    if b == [] {
      assert a + b == a;
    } else {
      assert (a + b)[..|a + b| - 1] == a + b[..|b| - 1];
      assert (a + b)[|a + b| - 1] == b[|b| - 1];
      RevenueAppend(a, b[..|b| - 1]);
    }
  }

  /** With non-negative revenues the total is at least each hotel's own. */
  lemma {:induction false} RevenueBounds(hotels: seq<HotelRow>, i: int)
    requires forall j :: 0 <= j < |hotels| ==> hotels[j].totalRevenue.GetOr(0) >= 0
    requires 0 <= i < |hotels|
    ensures Revenue(hotels) >= hotels[i].totalRevenue.GetOr(0)
    decreases |hotels|
  {
    var init := hotels[..|hotels| - 1];
    if i < |hotels| - 1 {
      RevenueBounds(init, i);
    }
  }

  // ---------------------------------------------------------------------------
  // Users tab

  datatype UserRow = UserRow(firstName: string, lastName: string, email: string, role: Option<string>)

  /** A user matches a lower-cased keyword in "first last", the email, or the role ("" if none). */
  predicate UserMentions(u: UserRow, keyword: string) {
    Mentions(u.firstName + " " + u.lastName, keyword) || Mentions(u.email, keyword)
    || Mentions(OrElse(u.role, ""), keyword)
  }

  /** `filteredUsers`: a blank search shows every user; otherwise the lower-cased search is matched. */
  function FilterUsers(users: seq<UserRow>, search: string): (r: seq<UserRow>)
    ensures Text.IsBlank(search) ==> r == users
    ensures !Text.IsBlank(search) ==>
      forall u :: multiset(r)[u] == if UserMentions(u, Text.ToLower(search)) then multiset(users)[u] else 0
    ensures SubsequenceOf(r, users)
  {
    if Text.IsBlank(search) then
      SubsequenceOfSelf(users);
      users
    else Filter(users, (u: UserRow) => UserMentions(u, Text.ToLower(search)))
  }

  // ---------------------------------------------------------------------------
  // Bookings tab

  datatype HotelRef = HotelRef(name: Option<string>, city: Option<string>)

  datatype BookingRow = BookingRow(
    firstName: string,
    lastName: string,
    email: Option<string>,
    hotel: Option<HotelRef>,
    status: string,
    paymentStatus: string)

  /** The status and payment selectors: "all" or one value. */
  const All := "all"

  predicate BookingText(b: BookingRow, keyword: string) {
    || keyword == []
    || Mentions(b.firstName + " " + b.lastName, keyword)
    || Mentions(OrElse(b.email, ""), keyword)
    || Mentions(if b.hotel.Some? then OrElse(b.hotel.value.name, "") else "", keyword)
    || Mentions(if b.hotel.Some? then OrElse(b.hotel.value.city, "") else "", keyword)
  }

  /** The three tests a booking must pass. */
  predicate BookingShown(b: BookingRow, keyword: string, status: string, payment: string) {
    && BookingText(b, keyword)
    && (status == All || b.status == status)
    && (payment == All || b.paymentStatus == payment)
  }

  /** `filteredBookings`: the search is lower-cased but never trimmed, and an empty one matches all. */
  function FilterBookings(bookings: seq<BookingRow>, search: string, status: string, payment: string): (r: seq<BookingRow>)
    ensures forall b :: multiset(r)[b] == if BookingShown(b, Text.ToLower(search), status, payment) then multiset(bookings)[b] else 0
    ensures SubsequenceOf(r, bookings)
  {
    Filter(bookings, (b: BookingRow) => BookingShown(b, Text.ToLower(search), status, payment))
  }

  /** With no search text and both selectors on "all", every booking is shown. */
  lemma NoFilterShowsAll(bookings: seq<BookingRow>)
    ensures FilterBookings(bookings, "", All, All) == bookings
  {
    var keep := (b: BookingRow) => BookingShown(b, Text.ToLower(""), All, All);
    assert Text.ToLower("") == [];
    SubsequenceOfSelf(bookings);
    FilterUnique(bookings, bookings, keep);
  }

  /** Choosing a status shows only bookings in that status. */
  lemma StatusSelectorExact(bookings: seq<BookingRow>, search: string, status: string, payment: string, b: BookingRow)
    requires status != All && b in FilterBookings(bookings, search, status, payment)
    ensures b.status == status
  {
    assert b in multiset(FilterBookings(bookings, search, status, payment));
  }

  // ---------------------------------------------------------------------------
  // Form guards

  datatype UserForm = UserForm(firstName: string, lastName: string, email: string, password: string)

  /** `onCreateUser`: submit only when all four fields are filled in. */
  predicate CanSubmitUser(f: UserForm) {
    f.firstName != "" && f.lastName != "" && f.email != "" && f.password != ""
  }

  /** The guard never blocks a form the server's validators would accept. */
  lemma ServerAcceptedUserPassesGuard(f: UserForm, role: Option<string>, phone: Option<string>, isActive: Option<bool>)
    requires AdminRoutes.NewUserErrors(AdminRoutes.NewUserBody(Some(f.firstName), Some(f.lastName), Some(f.email),
                                                               Some(f.password), role, phone, isActive)) == []
    ensures CanSubmitUser(f)
  {
  }

  datatype BookingForm = BookingForm(userId: string, hotelId: string, checkIn: string, checkOut: string)

  /** `onCreateBooking`: submit only when user, hotel and both dates are filled in. */
  predicate CanSubmitBooking(f: BookingForm) {
    f.userId != "" && f.hotelId != "" && f.checkIn != "" && f.checkOut != ""
  }

  /** The guard never blocks a form whose ids the server's validators accept, given filled-in dates
      (the server's ISO 8601 check refuses an empty date). */
  lemma ServerAcceptedBookingPassesGuard(f: BookingForm, body: AdminRoutes.ManualBookingBody)
    requires body.userId == Some(f.userId) && body.hotelId == Some(f.hotelId)
    requires AdminRoutes.ManualBookingErrors(body) == []
    requires f.checkIn != "" && f.checkOut != ""
    ensures CanSubmitBooking(f)
  {
  }
}
