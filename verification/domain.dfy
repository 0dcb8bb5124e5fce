/** The persisted entities: bookings, hotels and users, and the closed vocabularies of booking
    status, payment status and role, each with the string validator the routes apply. */
module Domain {
  import opened Common

  /** Document ids, compared as strings throughout the backend. */
  type Id = string

  datatype BookingStatus = Pending | Confirmed | Cancelled | Completed | Refunded

  const BookingStatusNames: seq<string> := ["pending", "confirmed", "cancelled", "completed", "refunded"]

  function BookingStatusName(s: BookingStatus): string {
    match s
    case Pending => "pending"
    case Confirmed => "confirmed"
    case Cancelled => "cancelled"
    case Completed => "completed"
    case Refunded => "refunded"
  }

  /** The `isIn([...five statuses...])` check: accepts exactly the five names. */
  function ParseBookingStatus(s: string): (r: Option<BookingStatus>)
    ensures r.Some? <==> s in BookingStatusNames
    ensures r.Some? ==> BookingStatusName(r.value) == s
  {
    if s == "pending" then Some(Pending)
    else if s == "confirmed" then Some(Confirmed)
    else if s == "cancelled" then Some(Cancelled)
    else if s == "completed" then Some(Completed)
    else if s == "refunded" then Some(Refunded)
    else None
  }

  lemma BookingStatusRoundTrip(s: BookingStatus)
    ensures ParseBookingStatus(BookingStatusName(s)) == Some(s)
  {
  }

  datatype PaymentStatus = PaymentPending | Paid | PaymentFailed | PaymentRefunded

  const PaymentStatusNames: seq<string> := ["pending", "paid", "failed", "refunded"]

  function PaymentStatusName(s: PaymentStatus): string {
    match s
    case PaymentPending => "pending"
    case Paid => "paid"
    case PaymentFailed => "failed"
    case PaymentRefunded => "refunded"
  }

  /** The `isIn([...four payment statuses...])` check. */
  function ParsePaymentStatus(s: string): (r: Option<PaymentStatus>)
    ensures r.Some? <==> s in PaymentStatusNames
    ensures r.Some? ==> PaymentStatusName(r.value) == s
  {
    if s == "pending" then Some(PaymentPending)
    else if s == "paid" then Some(Paid)
    else if s == "failed" then Some(PaymentFailed)
    else if s == "refunded" then Some(PaymentRefunded)
    else None
  }

  lemma PaymentStatusRoundTrip(s: PaymentStatus)
    ensures ParsePaymentStatus(PaymentStatusName(s)) == Some(s)
  {
  }

  datatype Role = UserRole | Admin | HotelOwner

  const RoleNames: seq<string> := ["user", "admin", "hotel_owner"]

  function RoleName(r: Role): string {
    match r
    case UserRole => "user"
    case Admin => "admin"
    case HotelOwner => "hotel_owner"
  }

  /** The `isIn(["user", "admin", "hotel_owner"])` check. */
  function ParseRole(s: string): (r: Option<Role>)
    ensures r.Some? <==> s in RoleNames
    ensures r.Some? ==> RoleName(r.value) == s
  {
    if s == "user" then Some(UserRole)
    else if s == "admin" then Some(Admin)
    else if s == "hotel_owner" then Some(HotelOwner)
    else None
  }

  lemma RoleRoundTrip(r: Role)
    ensures ParseRole(RoleName(r)) == Some(r)
  {
  }

  /** One reservation of one hotel by one user. Dates are already-parsed timestamps. */
  datatype Booking = Booking(
    userId: Id,
    hotelId: Id,
    firstName: string,
    lastName: string,
    email: string,
    phone: Option<string>,
    adultCount: int,
    childCount: Option<int>,
    checkIn: int,
    checkOut: int,
    totalCost: int,
    status: BookingStatus,
    paymentStatus: PaymentStatus,
    paymentMethod: Option<string>,
    paymentIntentId: Option<string>,
    specialRequests: Option<string>,
    cancellationReason: Option<string>,
    refundAmount: Option<int>,
    createdAt: int)

  datatype Contact = Contact(phone: string, email: string, website: string)

  datatype Policies = Policies(
    checkInTime: string,
    checkOutTime: string,
    cancellationPolicy: string,
    petPolicy: string,
    smokingPolicy: string)

  /** A hotel listing; `totalBookings` and `totalRevenue` are its aggregate counters. */
  datatype Hotel = Hotel(
    userId: Id,
    name: string,
    city: string,
    country: string,
    description: string,
    types: seq<string>,
    adultCount: int,
    childCount: int,
    facilities: seq<string>,
    pricePerNight: int,
    starRating: int,
    imageUrls: seq<string>,
    contact: Contact,
    policies: Policies,
    lastUpdated: int,
    totalBookings: int,
    totalRevenue: int)

  datatype Address = Address(street: string, city: string, state: string, country: string, zipCode: string)

  /** An account; `totalBookings` and `totalSpent` are its aggregate counters. */
  datatype User = User(
    firstName: string,
    lastName: string,
    email: string,
    password: string,
    role: Role,
    phone: Option<string>,
    address: Option<Address>,
    isActive: bool,
    totalBookings: int,
    totalSpent: int,
    updatedAt: int)
}
