# Hotel booking backend and filter pages: a Dafny model

This project models the core of a hotel-booking web application. The backend is an Express API over
three document collections: hotels, users and bookings. Two pages of the browser client filter the
hotels, users and bookings they have fetched. The model covers:

- the authentication middleware: picking the token, verifying it, and the role gate;
- the public hotel routes: building the search query, pagination, sorting, issuing a payment intent,
  and creating a booking once the gateway reports the payment succeeded;
- the booking routes: status and payment-status updates, deletion with counter compensation, and
  the owner-only list of a hotel's bookings;
- the administrator routes: creating, updating and cascade-deleting users, and manual bookings;
- the hotel-owner routes: listing, reading, creating and updating hotels within the caller's scope;
- the account routes: reading one's profile, registration and profile updates;
- the caller's booking list (`GET /api/my-bookings`): newest first, joined with hotels;
- the search page's client-side filter and its reading of numeric URL parameters;
- the administration page's three list filters, the revenue total and two form guards.

The store is a `Store.Database` class. Its three collections are keyed maps, and the route handlers
change them through Mongoose-like primitives. The payment gateway is a `Store.Gateway` class that
holds intents by id.

The ledger invariant is `Ledger.Consistent`. Every hotel's `totalBookings`/`totalRevenue` and every
user's `totalBookings`/`totalSpent` must equal the count and the total cost of the live bookings
that refer to it. Each route that creates, updates or deletes a booking is proved to preserve it, and
so are hotel edits, profile updates and the administrator's user creation and update. Two routes
store the request body itself as the new document: self-registration and hotel creation. They keep
the ledger exactly when the body carries no non-zero counters, and a body that sets them breaks it.
Cascade deletion of a user is proved NOT to preserve it.
The self-registration and user-administration routes are also proved to keep emails unique.

A route's outcome is a `Common.Result`: either the value, or the HTTP status the route answers with
together with an `Error`. Validation failures carry the list of rejected fields in the order the
validators are declared.

Where the documentation of the system and its code disagree, the model follows the code:

- `GET /api/bookings/hotel/:hotelId` admits only the hotel's owner; an administrator who does not
  own the hotel is refused with 403 (`BookingsRoutes.HotelBookings`).
- The intent-based booking stores whatever `paymentMethod` the body carries; it is not defaulted
  (`HotelsRoutes.PaidBooking`).
- `numberOfNights` is not validated when a payment intent is issued (`HotelsRoutes.IssuePaymentIntent`).

## Model

| member | source | states |
|---|---|---|
| Common.SubsequenceMultiset | Frontend/src/pages/Search.tsx:71 | a list drawn in order from another holds no element more often |
| Common.Filter | Frontend/src/pages/Search.tsx:71 | `filter` keeps every accepted element as often as it occurs and no other, in the original order |
| Common.FilterUnique | Frontend/src/pages/Search.tsx:71 | any in-order selection with the filter's multiplicities is the filter: its contract fixes the result |
| Common.FilterIdempotent | Frontend/src/pages/Search.tsx:66-101 | filtering the shown list again with the same test changes nothing |
| Domain.ParseBookingStatus | Backend/src/routes/bookings.ts:258-260 | accepts exactly the five status names, and the accepted status is named by the input |
| Domain.BookingStatusRoundTrip | Backend/src/routes/bookings.ts:258-260 | every booking status is accepted under its own name |
| Domain.ParsePaymentStatus | Backend/src/routes/bookings.ts:339-341 | accepts exactly the four payment-status names |
| Domain.PaymentStatusRoundTrip | Backend/src/routes/bookings.ts:339-341 | every payment status is accepted under its own name |
| Domain.ParseRole | Backend/src/routes/admin.ts:38-41 | accepts exactly "user", "admin" and "hotel_owner" |
| Domain.RoleRoundTrip | Backend/src/routes/admin.ts:38-41 | every role is accepted under its own name |
| Text.Trim | Frontend/src/pages/Search.tsx:69 | the trimmed string neither starts nor ends with white space |
| Text.TrimIsSlice | Frontend/src/pages/Search.tsx:69 | the trimmed string is a slice of the input with only white space before and after it |
| Text.TrimStart | Frontend/src/pages/Search.tsx:69 | removes exactly the leading white space: the result is a suffix that does not start with a space |
| Text.TrimEnd | Frontend/src/pages/Search.tsx:69 | removes exactly the trailing white space |
| Text.BlankIffAllSpace | Frontend/src/pages/AdminManagement.tsx:100 | a search is blank exactly when every character is white space |
| Text.NotBlank | Frontend/src/pages/AdminManagement.tsx:100 | one non-space character makes a search non-blank |
| Text.ToLower | Frontend/src/pages/Search.tsx:69 | same length, and every character is lowered on its own |
| Text.ToLowerIdempotent | Frontend/src/pages/Search.tsx:69-76 | lower-casing twice is lower-casing once |
| Text.TrimLower | Frontend/src/pages/Search.tsx:69 | trimming and lower-casing commute |
| Text.IncludesIff | Frontend/src/pages/Search.tsx:74-76 | `includes` holds exactly when the needle occurs at some index |
| Text.Includes | Frontend/src/pages/AdminManagement.tsx:104-107 | no string includes a longer one, and every string includes the empty keyword |
| Text.DigitsValueOfNatToString | Backend/src/routes/hotels.ts:311-313 | reading a decimal rendering gives back the number |
| Text.LeadingDigits | Backend/src/routes/hotels.ts:596 | the longest digit prefix: followed by a non-digit or by nothing |
| Text.ParseInt | Backend/src/routes/hotels.ts:596 | after leading white space and an optional sign, a "0x" or "0X" prefix selects base sixteen; NaN exactly when no digit of the base follows; the sign decides whether the number is negative or not |
| Text.ParseIntOfNatToString | Backend/src/routes/hotels.ts:311-313 | `parseInt` of a rendered number, followed by any non-digit text, is that number, unless "0" is followed by 'x' or 'X' |
| Text.ParseIntOfHex | Backend/src/routes/hotels.ts:596 | "0x" or "0X" followed by hexadecimal digits reads as their base-sixteen value, whatever follows them |
| Ledger.TallyRemove | Backend/src/routes/bookings.ts:403-423 | a party's tally splits at any booking: that booking's share plus the tally of the rest |
| Ledger.TallyInsert | Backend/src/routes/hotels.ts:555-572 | storing a new booking adds exactly its share to every party's tally |
| Ledger.TallyReplace | Backend/src/routes/bookings.ts:279-283 | rewriting a booking with the same share leaves every tally unchanged |
| Ledger.TallyUnreferenced | Backend/src/routes/my-hotels.ts:171-172 | a party no booking refers to has a zero tally |
| Ledger.TallyCountSubmap | Backend/src/routes/admin.ts:153-160 | dropping bookings never raises a booking count |
| Ledger.TallyCountDrops | Backend/src/routes/admin.ts:153-160 | dropping a booking that refers to a party lowers its count |
| Ledger.IncHotel | Backend/src/routes/hotels.ts:559-564 | `$inc` adds the delta to the hotel's two counters, changes no other field and no other hotel, and does nothing for a missing hotel |
| Ledger.IncUser | Backend/src/routes/hotels.ts:567-572 | `$inc` adds the delta to the user's two counters only, and does nothing for a missing user |
| Ledger.IncHotelUndo | Backend/src/routes/bookings.ts:410-415 | the negated delta restores the hotel counters exactly |
| Ledger.IncUserUndo | Backend/src/routes/bookings.ts:418-423 | the negated delta restores the user counters exactly |
| Ledger.IncHotelCommutes | Backend/src/routes/hotels.ts:559-564 | concurrent increments reach the same counters in either order |
| Ledger.ConsistentAfterInsert | Backend/src/routes/hotels.ts:554-572 | saving a booking under a fresh key and raising both counters keeps the ledger |
| Ledger.ConsistentAfterRemove | Backend/src/routes/bookings.ts:403-423 | deleting a booking and lowering both counters keeps the ledger |
| Ledger.ConsistentAfterReplace | Backend/src/routes/bookings.ts:279-283 | an update that keeps a booking's hotel, user and cost keeps the ledger |
| Ledger.ConsistentAfterHotelWrite | Backend/src/routes/my-hotels.ts:171-172 | a new hotel with zero counters, or an edited one with its counters kept, keeps the ledger |
| Ledger.ConsistentAfterUserWrite | Backend/src/routes/admin.ts:58-68 | a new user with zero counters, or an edited one with its counters kept, keeps the ledger |
| Ledger.ConsistentWithNewHotel | Backend/src/routes/my-hotels.ts:145-172 | a hotel stored under an unreferenced id keeps the ledger exactly when its counters are zero |
| Ledger.ConsistentWithNewUser | Backend/src/routes/users.ts:138-142 | a user stored under an unreferenced id keeps the ledger exactly when its counters are zero |
| Store.UniqueEmailsAfterWrite | Backend/src/routes/admin.ts:111-117 | writing a user whose email is free, or is already its own, keeps emails unique |
| Store.Database.NewId | Backend/src/routes/hotels.ts:555-556 | a store-assigned id names no document and is referenced by no booking |
| Store.Database.FindUserByEmail | Backend/src/routes/admin.ts:53-56 | finds a user holding the email exactly when one exists |
| Store.Database.SaveBooking | Backend/src/routes/hotels.ts:555-556 | stores the booking under its id; hotels and users untouched |
| Store.Database.ReplaceBooking | Backend/src/routes/bookings.ts:279-283 | replaces the stored booking; hotels and users untouched |
| Store.Database.DeleteBooking | Backend/src/routes/bookings.ts:403 | removes the booking and returns it, or returns nothing when it did not exist |
| Store.Database.IncHotel | Backend/src/routes/hotels.ts:559-564 | the hotels become `Ledger.IncHotel` of the old hotels |
| Store.Database.IncUser | Backend/src/routes/hotels.ts:567-572 | the users become `Ledger.IncUser` of the old users |
| Store.Database.SaveHotel | Backend/src/routes/my-hotels.ts:171-172 | stores the hotel under its id |
| Store.Database.SaveUser | Backend/src/routes/admin.ts:58-68 | stores the user under its id |
| Store.Database.DeleteBookingsOfUser | Backend/src/routes/admin.ts:153 | keeps exactly the bookings of other users |
| Store.Database.DeleteBookingsOfHotels | Backend/src/routes/admin.ts:156-158 | keeps exactly the bookings of hotels outside the set |
| Store.Database.DeleteHotelsOfUser | Backend/src/routes/admin.ts:159 | keeps exactly the hotels of other owners |
| Store.Database.DeleteUser | Backend/src/routes/admin.ts:162 | removes the user document |
| Store.Gateway.Create | Backend/src/routes/hotels.ts:462-470 | records the intent under an id not used before |
| Store.Gateway.Retrieve | Backend/src/routes/hotels.ts:524-526 | finds an intent exactly when its id is known |
| Auth.PickToken | Backend/src/middleware/auth.ts:23-31 | a `Bearer ` header yields the rest of the header; otherwise the `session_id` cookie when non-empty, else `auth_token` |
| Auth.BearerTokenRoundTrip | Backend/src/middleware/auth.ts:26-27 | a bearer header wins over both cookies and yields exactly the credentials after the prefix |
| Auth.EmptyBearerIsNoToken | Backend/src/middleware/auth.ts:26-35 | `Bearer ` with nothing after it is no token, and the cookies are not consulted |
| Auth.VerifyToken | Backend/src/middleware/auth.ts:21-47 | passes exactly when a token is found and verifies; then attaches the id and the role (default "user"); otherwise 401 with the request untouched |
| Auth.AuthorizeRoles | Backend/src/middleware/auth.ts:49-64 | admins always pass; anyone else passes exactly when their role (default "user") is allowed; otherwise 403 |
| HotelsRoutes.ParseStars | Backend/src/routes/hotels.ts:622-628 | each given star rating is parsed, in order |
| HotelsRoutes.ConstructSearchQuery | Backend/src/routes/hotels.ts:582-637 | each criterion is present exactly when its parameter is truthy (a destination also when it is not blank), with the trimmed, parsed or listed value |
| HotelsRoutes.PageCount | Backend/src/routes/hotels.ts:328 | the fewest pages of five that hold every result |
| HotelsRoutes.PagesStartInsideResults | Backend/src/routes/hotels.ts:310-328 | every page from 1 to the page count starts inside the results |
| HotelsRoutes.EveryResultOnOnePage | Backend/src/routes/hotels.ts:310-328 | the pages cover the results without overlap: each result is on exactly one page, and that page is within the page count |
| HotelsRoutes.IntentFor | Backend/src/routes/hotels.ts:460-470 | the intent charges 100 times the stay cost in "gbp", tagged with hotel, caller and attempt |
| HotelsRoutes.StayCost | Backend/src/routes/hotels.ts:460 | a stay at a non-negative price costs nothing negative, and a stay of no nights costs nothing |
| HotelsRoutes.IssuePaymentIntent | Backend/src/routes/hotels.ts:448-484 | unknown hotel is 400 with no intent created; otherwise exactly one new intent; a missing client secret is 500; success returns the new id, the secret and the stay cost |
| HotelsRoutes.CheckIntent | Backend/src/routes/hotels.ts:524-543 | missing intent, then a hotel or caller mismatch, then an unsucceeded status are refused with 400, in that order; success means the intent is for this hotel and caller and succeeded |
| HotelsRoutes.IntentBoundToIssuer | Backend/src/routes/hotels.ts:532-537 | an intent issued for one hotel and caller is refused for any other, whatever its status |
| HotelsRoutes.PaidBooking | Backend/src/routes/hotels.ts:545-552 | the stored booking belongs to the caller and the path's hotel, and is confirmed and paid |
| HotelsRoutes.CreateBooking | Backend/src/routes/hotels.ts:517-580 | a failed check changes nothing; success stores one new booking and raises both counters by one booking and its cost; the ledger is preserved |
| HotelsRoutes.ReplayedIntentBooksTwice | Backend/src/routes/hotels.ts:517-580 | replaying a redeemed intent stores a second booking for it and counts the payment twice |
| BookingsRoutes.AcceptedStatus | Backend/src/routes/bookings.ts:257-266 | a status is accepted exactly when it is one of the five names |
| BookingsRoutes.BuildStatusUpdate | Backend/src/routes/bookings.ts:269-277 | a reason is recorded exactly for a cancellation that gives one; a refund amount exactly for a refund, 0 when omitted |
| BookingsRoutes.ApplyStatusUpdate | Backend/src/routes/bookings.ts:279-283 | the update sets the status and the fields it carries; every other booking field is kept |
| BookingsRoutes.StatusUpdateIdempotent | Backend/src/routes/bookings.ts:279-283 | sending the same status update twice equals sending it once |
| BookingsRoutes.UpdateStatus | Backend/src/routes/bookings.ts:254-295 | invalid status is 400 and unknown booking 404, neither changing anything; success replaces only that booking, with the new status, the cancellation reason only for a cancellation that gives one, and the refund amount (0 by default) for every refund; no counter moves; the ledger is preserved |
| BookingsRoutes.AcceptedPaymentStatus | Backend/src/routes/bookings.ts:338-347 | a payment status is accepted exactly when it is one of the four names |
| BookingsRoutes.ApplyPaymentUpdate | Backend/src/routes/bookings.ts:350-361 | sets the payment status; the method only when one is supplied; nothing else |
| BookingsRoutes.UpdatePayment | Backend/src/routes/bookings.ts:335-373 | 400, then 404, neither changing anything; success stores the updated booking; the ledger is preserved |
| BookingsRoutes.DeleteBooking | Backend/src/routes/bookings.ts:401-430 | unknown booking is 404 with nothing changed; otherwise it is removed and its hotel and user lose one booking and its cost; the ledger is preserved |
| BookingsRoutes.CreateThenDeleteRestores | Backend/src/routes/bookings.ts:409-423 | deleting a just-created booking restores bookings, hotel counters and user counters |
| BookingsRoutes.HotelBookings | Backend/src/routes/bookings.ts:139-166 | 404 exactly for a missing hotel; 403 exactly when the caller does not own it; otherwise exactly that hotel's bookings |
| AdminRoutes.NewUserErrors | Backend/src/routes/admin.ts:31-47 | each field is reported exactly when its validator fails; the list is empty exactly when all pass |
| AdminRoutes.RoleOrUser | Backend/src/routes/admin.ts:63 | the requested role, or "user" when none is given |
| AdminRoutes.CreateUser | Backend/src/routes/admin.ts:27-78 | 400 on validation, then 400 for a taken email; otherwise one new user with the role or "user", active unless told otherwise, zero counters, stored under the id returned (the 201 response's document itself is not modelled, only its id); emails stay unique; the ledger is preserved |
| AdminRoutes.UserPatchErrors | Backend/src/routes/admin.ts:85-100 | a field given in the body is reported exactly when its validator fails; absent fields pass |
| AdminRoutes.ApplyUserPatch | Backend/src/routes/admin.ts:119-126 | names, role and password change only when truthy, phone whenever given, `isActive` whenever a boolean; counters and email untouched |
| AdminRoutes.UpdateUser | Backend/src/routes/admin.ts:81-138 | 400, then 404; a new truthy email is refused exactly when another user holds it; every other request succeeds; success rewrites only that user, with the role changed only by a truthy role and the counters kept, and answers with the saved user without its password; emails stay unique; the ledger is preserved |
| AdminRoutes.OwnedHotels | Backend/src/routes/admin.ts:154 | exactly the hotels the user owns |
| AdminRoutes.BookingsAfterUserDeletion | Backend/src/routes/admin.ts:153-158 | exactly the bookings neither made by the user nor at one of the user's hotels survive |
| AdminRoutes.HotelsAfterUserDeletion | Backend/src/routes/admin.ts:159 | exactly the hotels of other owners survive |
| AdminRoutes.DeleteUser | Backend/src/routes/admin.ts:141-170 | unknown user is 404 with nothing changed; otherwise the user, their bookings, their hotels and those hotels' bookings are removed |
| AdminRoutes.UserDeletionBreaksLedger | Backend/src/routes/admin.ts:152-162 | when the deleted user booked someone else's hotel, the ledger no longer holds after the cascade |
| AdminRoutes.ManualBookingErrors | Backend/src/routes/admin.ts:177-206 | the list is empty exactly when every manual-booking validator passes |
| AdminRoutes.ManualBooking | Backend/src/routes/admin.ts:245-261 | status, payment status and method default to confirmed, paid and "manual"; no payment intent |
| AdminRoutes.CreateManualBooking | Backend/src/routes/admin.ts:173-286 | 400, then 404 hotel, then 404 user, then 400 exactly when check-out is not after check-in, none changing anything; a request passing all four succeeds, storing the booking and raising both counters; the ledger is preserved |
| MyHotelsRoutes.ListHotels | Backend/src/routes/my-hotels.ts:203-216 | an admin gets every hotel, anyone else exactly their own |
| MyHotelsRoutes.AdminListsEverything | Backend/src/routes/my-hotels.ts:209 | an administrator's list is the whole collection |
| MyHotelsRoutes.FindScoped | Backend/src/routes/my-hotels.ts:247-270 | found exactly when the hotel exists and is in the caller's scope; otherwise 404 |
| MyHotelsRoutes.FindAgreesWithList | Backend/src/routes/my-hotels.ts:209-261 | a hotel is readable by id exactly when it is in the caller's list |
| MyHotelsRoutes.ContactOf | Backend/src/routes/my-hotels.ts:147-151 | every missing or empty contact field becomes "" |
| MyHotelsRoutes.PoliciesOf | Backend/src/routes/my-hotels.ts:153-159 | every missing or empty policy field becomes "" |
| MyHotelsRoutes.NewHotelErrors | Backend/src/routes/my-hotels.ts:120-143 | the list is empty exactly when every creation validator passes |
| MyHotelsRoutes.NewHotel | Backend/src/routes/my-hotels.ts:145-170 | the stored document carries the body's listing fields and counters, with owner, images, contact, policies and timestamp set by the route |
| MyHotelsRoutes.CreateHotel | Backend/src/routes/my-hotels.ts:113-179 | 400 exactly on a validation failure, and success otherwise; the new hotel is `NewHotel` of the body under the fresh id returned (the 201 response's document itself is not modelled, only its id); the ledger holds afterwards exactly when it held before and the body set no counter |
| MyHotelsRoutes.HotelWithCountersBreaksLedger | Backend/src/routes/my-hotels.ts:145-172 | a creation body with a non-zero revenue breaks the ledger |
| MyHotelsRoutes.ApplyHotelEdit | Backend/src/routes/my-hotels.ts:330-360 | name, city, country and description replaced when sent and kept when absent; price, rating and guest counts replaced by their cast values; type and facilities as lists; contact and policies filled; owner, images and counters kept |
| MyHotelsRoutes.MergedImages | Backend/src/routes/my-hotels.ts:375-384 | the new uploads come first, then the retained URLs |
| MyHotelsRoutes.UpdateHotel | Backend/src/routes/my-hotels.ts:307-400 | 404 exactly when out of scope, then 500 exactly when a number is NaN, neither changing anything, and success otherwise; images change only when files are uploaded; the owner is kept; the ledger is preserved |
| UsersRoutes.WithoutPassword | Backend/src/routes/users.ts:81 | every field but the password is returned as stored |
| UsersRoutes.ProfileHidesPassword | Backend/src/routes/users.ts:81 | users differing only in their password have the same profile |
| UsersRoutes.GetMe | Backend/src/routes/users.ts:77-90 | 400 exactly when the caller has no account; otherwise the caller's profile |
| UsersRoutes.RegistrationErrors | Backend/src/routes/users.ts:114-126 | the list is empty exactly when the names are given, the email is well formed and the password has six characters |
| UsersRoutes.Register | Backend/src/routes/users.ts:112-177 | 400 on validation; a taken email is refused exactly when in use, and a free one succeeds; the new account is the body's fields with the role forced to "user"; emails stay unique; the ledger holds afterwards exactly when it held before and the body set no counter |
| UsersRoutes.RegistrationWithCountersBreaksLedger | Backend/src/routes/users.ts:138-142 | a registration body that sets a booking count breaks the ledger |
| UsersRoutes.ProfileErrors | Backend/src/routes/users.ts:183-202 | a given email or password is reported exactly when it fails its validator |
| UsersRoutes.AddressOf | Backend/src/routes/users.ts:225-233 | a supplied address replaces all five fields, missing ones with "" |
| UsersRoutes.ApplyProfile | Backend/src/routes/users.ts:219-235 | names and password change only when truthy, phone whenever given, address whenever given; role, activity and counters kept |
| UsersRoutes.UpdateProfile | Backend/src/routes/users.ts:180-247 | 400, then 404; a new truthy email is refused exactly when held by anyone; every other request succeeds; success rewrites only the caller; role, active flag and counters never change; emails stay unique; the ledger is preserved |
| MyBookingsRoute.OfUser | Backend/src/routes/my-bookings.ts:48 | each of the caller's bookings as often as stored, no other, in store order |
| MyBookingsRoute.Insert | Backend/src/routes/my-bookings.ts:48-50 | inserting into a newest-first list keeps it newest first and adds exactly that booking |
| MyBookingsRoute.SortNewestFirst | Backend/src/routes/my-bookings.ts:48-50 | the result is newest first and a permutation of the input |
| MyBookingsRoute.Join | Backend/src/routes/my-bookings.ts:53-71 | every entry pairs a stored hotel with one booking of it; the bookings carried are the filter of those whose hotel exists: each kept once per occurrence, in order |
| MyBookingsRoute.SubsequenceNewestFirst | Backend/src/routes/my-bookings.ts:53-71 | leaving bookings out of a newest-first list keeps it newest first |
| MyBookingsRoute.JoinPreservesOrder | Backend/src/routes/my-bookings.ts:53-71 | dropping orphans keeps the newest-first order |
| MyBookingsRoute.MyBookings | Backend/src/routes/my-bookings.ts:45-77 | each entry joins one stored hotel with one booking of it; every booking of the caller whose hotel exists is carried as often as stored and no other; newest first |
| MyBookingsRoute.NoForeignBookings | Backend/src/routes/my-bookings.ts:48 | no other user's booking appears |
| MyBookingsRoute.OrphansDropped | Backend/src/routes/my-bookings.ts:55-58 | a booking whose hotel was deleted does not appear |
| SearchPage.FilterHotels | Frontend/src/pages/Search.tsx:66-101 | every hotel passing all five tests is shown as often as it occurs, no other, in the original order |
| SearchPage.BlankDestinationMatchesAll | Frontend/src/pages/Search.tsx:69-73 | a blank destination matches every hotel |
| SearchPage.DestinationCaseInsensitive | Frontend/src/pages/Search.tsx:69-76 | the destination test ignores the case typed |
| SearchPage.DestinationNeedsOccurrence | Frontend/src/pages/Search.tsx:72-76 | a non-blank destination matches only when it occurs in the lower-cased name, city or country |
| SearchPage.DefaultFiltersNeedTwoAdults | Frontend/src/pages/Search.tsx:32-100 | with the initial filters a hotel is shown exactly when it sleeps two adults |
| SearchPage.UnratedHotel | Frontend/src/pages/Search.tsx:90-91 | an unrated hotel passes only when no minimum rating is set |
| SearchPage.ToNumber | Frontend/src/pages/Search.tsx:107-108 | a missing or blank parameter is the number 0 |
| SearchPage.ParseNumber | Frontend/src/pages/Search.tsx:107-110 | the number when finite, the fallback otherwise |
| SearchPage.ParseNumberOfDigits | Frontend/src/pages/Search.tsx:107-110 | a decimal rendering reads back as its number |
| SearchPage.ParseNumberOfNonNumeric | Frontend/src/pages/Search.tsx:107-110 | a parameter holding, once trimmed, a character that is neither a digit, a sign, a decimal point nor an ASCII letter gives the fallback |
| SearchPage.MissingParameterIsZero | Frontend/src/pages/Search.tsx:115-118 | a missing parameter reads as 0, not the fallback, and so switches the guest filter off |
| AdminPage.FilterHotels | Frontend/src/pages/AdminManagement.tsx:98-109 | a blank search shows every hotel; otherwise each hotel mentioning the lower-cased, untrimmed keyword as often as it occurs, no other, in order |
| AdminPage.LongSearchMisses | Frontend/src/pages/AdminManagement.tsx:101-108 | a keyword longer than every field of a hotel never finds it |
| AdminPage.TrailingSpaceMissesHotel | Frontend/src/pages/AdminManagement.tsx:100-108 | "paris " does not find a hotel in Paris, because the keyword is not trimmed |
| AdminPage.Revenue | Frontend/src/pages/AdminManagement.tsx:283 | with non-negative revenues the total is not negative |
| AdminPage.RevenueAppend | Frontend/src/pages/AdminManagement.tsx:283 | the total of two lists is the sum of their totals |
| AdminPage.RevenueBounds | Frontend/src/pages/AdminManagement.tsx:283 | with non-negative revenues the total is at least each hotel's own |
| AdminPage.FilterUsers | Frontend/src/pages/AdminManagement.tsx:111-121 | a blank search shows every user; otherwise each user mentioning the keyword as often as listed, no other, in order |
| AdminPage.FilterBookings | Frontend/src/pages/AdminManagement.tsx:123-139 | each booking passing the text, status and payment tests as often as listed, no other, in order |
| AdminPage.NoFilterShowsAll | Frontend/src/pages/AdminManagement.tsx:125-137 | an empty search with both selectors on "all" shows the whole list unchanged |
| AdminPage.StatusSelectorExact | Frontend/src/pages/AdminManagement.tsx:133-134 | with a status chosen, only bookings in that status are shown |
| AdminPage.ServerAcceptedUserPassesGuard | Frontend/src/pages/AdminManagement.tsx:237-240 | the form guard never blocks a user the server's validators accept |
| AdminPage.ServerAcceptedBookingPassesGuard | Frontend/src/pages/AdminManagement.tsx:250-253 | the form guard never blocks a booking whose ids the server accepts, given filled-in dates |

## Left out

- The JWT signature check, token signing and cookie options are cryptography and I/O. `Auth.VerifyToken` takes the verifier as a function parameter.
- Stripe's network calls are left out. The gateway is `Store.Gateway`; the client secret it returns and the `Date.now()` nonce are parameters.
- Image uploads to the image host are left out. `MyHotelsRoutes.CreateHotel` and `UpdateHotel` take the uploaded URLs as a parameter.
- `Ledger.Consistent`: amounts (`pricePerNight`, `totalCost`, `totalRevenue`, `totalSpent`) are exact integers, where the source computes them as JavaScript doubles. The ledger theorems hold for the source only while every amount is integral and below 2^53; with fractional prices the stored counters are rounded sums and can differ from the total of the bookings.
- `HotelsRoutes.StayCost`: the product of price and nights is exact, where the source's double product is rounded once it leaves the integers below 2^53.
- `HotelsRoutes.IntentFor`: the amount in pence is exactly 100 times the cost; the source's `totalCost * 100` is a double and is not rounded to an integer for fractional prices.
- Every 500 path (a store or gateway call that throws) is left out: the model's primitives do not fail. Two 500s that follow from the request alone are modelled: the falsy client secret of `HotelsRoutes.IssuePaymentIntent`, and a NaN number in `MyHotelsRoutes.UpdateHotel`, whose cast the store refuses.
- `MyHotelsRoutes.ApplyHotelEdit`: an absent text field reaches `findByIdAndUpdate` as `undefined`, and the model keeps the stored value, as a store that drops `undefined` keys from an update does. A store that writes `null` for them instead is not modelled. A number is modelled as what `Number()` gives when that is an integer, or NaN; a non-integral number is not modelled, as with the amounts above.
- `HotelsRoutes.CheckIntent`: an intent id the gateway does not know makes `paymentIntents.retrieve` throw, so the route answers 500 and its `!paymentIntent` branch never runs. With the 500 paths left out, the model answers that case with the branch's 400 instead.
- Concurrency and partial failure between the separate writes of one request are not modelled. The steps run in sequence, and `Ledger.IncHotelCommutes` covers only the order of increments.
- The intent-based booking spreads its request body into the new booking. The model keeps the fields the handler and the ledger read; other extra fields are not modelled. Registration and hotel creation carry the counters a body may set, since those decide the ledger; registration also carries the address and the active flag.
- The Mongoose schemas (`Backend/src/models`) are not part of this model. The model takes their defaults as given: counters start at 0, `isActive` at true, and `paymentIntentId` is absent on manual bookings.
- Date parsing is not modelled. Check-in and check-out are timestamps, and a date the ISO 8601 validator rejects is `None`.
- `Text.IsEmail`: approximates the `isEmail` validator as one '@' with a dotted domain and no white space. The validator's full grammar is not modelled.
- `SearchPage.ToNumber`: reads optionally signed decimal integers. It does not model decimals, exponents, hexadecimal or `Infinity`. Those count as not finite, as `NaN` does.
- `HotelsRoutes.ConstructSearchQuery`: does not model `$regex` metacharacters. The destination is kept as the literal trimmed string.
- `Text.ToLower`: lowers ASCII letters only. `Text.IsSpace` covers the ASCII spaces, NBSP and BOM, not every Unicode space separator.
- `MyHotelsRoutes.UpdateHotel`: does not model the second 404 after `findByIdAndUpdate`. That lookup cannot fail right after the scoped `findOne`, because requests run one at a time here.
- `MyHotelsRoutes.ApplyHotelEdit`: a missing `type` or `facilities` becomes the empty list, where the source would store `[undefined]`.
- `MyHotelsRoutes.NewHotelErrors`: models the `notEmpty().isArray()` check on facilities as "an array was sent". An empty array is not treated as failing `notEmpty`.
- `AdminRoutes.ManualBookingErrors`: states only when the list is empty, not which field names it holds.
- `BookingsRoutes.HotelBookings`: returns the matching bookings as a map. The `createdAt` sort and the `populate` of the booking's user are not modelled.
- `MyBookingsRoute.MyBookings`: promises newest-first order but not which order bookings with equal `createdAt` take.
- `GET /api/bookings`, `GET /api/bookings/:id`, `GET /api/hotels`, `GET /api/hotels/:id` and the admin user list are plain reads. They are not modelled.
- The AI chat route is not modelled.
