/** The document store and the payment gateway, as the route handlers see them: the three Mongoose
    collections as keyed maps with the primitives the handlers call (`save`, `findOne`,
    `findByIdAndUpdate` with `$inc`, `findByIdAndDelete`, `deleteMany`), and the gateway's payment
    intents as a map from intent id to status and metadata. */
module Store {
  import opened Common
  import opened Domain
  import Ledger

  /** A string not in `used`: one character longer than the longest string in use. */
  method FreshName(used: set<string>) returns (name: string)
    ensures name !in used && name != []
  {
    var longest: nat := 0;
    var rest := used;
    while rest != {}
      invariant rest <= used
      invariant forall u :: u in used && u !in rest ==> |u| <= longest
      decreases rest
    {
      var u :| u in rest;
      if |u| > longest {
        longest := |u|;
      }
      rest := rest - {u};
    }
    name := seq(longest + 1, _ => 'x');
  }

  /** `User.findOne({ email })` finds a document. */
  ghost predicate EmailInUse(users: map<Id, User>, email: string) {
    exists u :: u in users && users[u].email == email
  }

  /** No two users share an email address: the invariant the duplicate-email checks keep. */
  ghost predicate UniqueEmails(users: map<Id, User>) {
    forall a, b :: a in users && b in users && a != b ==> users[a].email != users[b].email
  }

  /** Storing `u` under `id` keeps emails unique when its email is free or is the one `id` already
      holds. */
  lemma UniqueEmailsAfterWrite(users: map<Id, User>, id: Id, u: User)
    requires UniqueEmails(users)
    requires !EmailInUse(users, u.email) || (id in users && users[id].email == u.email)
    ensures UniqueEmails(users[id := u])
  {
  }

  class Database {
    var bookings: map<Id, Booking>
    var hotels: map<Id, Hotel>
    var users: map<Id, User>

    constructor (bookings0: map<Id, Booking>, hotels0: map<Id, Hotel>, users0: map<Id, User>)
      ensures bookings == bookings0 && hotels == hotels0 && users == users0
    {
      bookings, hotels, users := bookings0, hotels0, users0;
    }

    /** The ledger invariant on the current collections. */
    ghost predicate Consistent()
      reads this
    {
      Ledger.Consistent(bookings, hotels, users)
    }

    /** `id` names no document and no booking refers to it. */
    ghost predicate Unused(id: Id)
      reads this
    {
      && id !in bookings && id !in hotels && id !in users
      && forall k :: k in bookings ==> bookings[k].hotelId != id && bookings[k].userId != id
    }

    /** A store-assigned id for a new document. */
    method NewId() returns (id: Id)
      ensures Unused(id) && id != []
    {
      var referenced := (set k | k in bookings :: bookings[k].hotelId) + (set k | k in bookings :: bookings[k].userId);
      id := FreshName(bookings.Keys + hotels.Keys + users.Keys + referenced);
      assert forall k :: k in bookings ==> bookings[k].hotelId in referenced && bookings[k].userId in referenced;
    }

    /** `User.findOne({ email })`, scanning the collection. */
    method FindUserByEmail(email: string) returns (found: Option<Id>)
      ensures found.Some? ==> found.value in users && users[found.value].email == email
      ensures found.None? <==> !EmailInUse(users, email)
    {
      var rest := users.Keys;
      found := None;
      while rest != {}
        invariant rest <= users.Keys
        invariant forall u :: u in users && u !in rest ==> users[u].email != email
        decreases rest
      {
        var u :| u in rest;
        if users[u].email == email {
          found := Some(u);
          return;
        }
        rest := rest - {u};
      }
    }

    /** `new Booking(...).save()` under a fresh id. */
    method SaveBooking(id: Id, b: Booking)
      requires id !in bookings
      modifies this
      ensures bookings == old(bookings)[id := b]
      ensures hotels == old(hotels) && users == old(users)
    {
      bookings := bookings[id := b];
    }

    /** `Booking.findByIdAndUpdate(id, update, { new: true })` with the update already applied to the
        stored document by the caller. */
    method ReplaceBooking(id: Id, b: Booking)
      requires id in bookings
      modifies this
      ensures bookings == old(bookings)[id := b]
      ensures hotels == old(hotels) && users == old(users)
    {
      bookings := bookings[id := b];
    }

    /** `Booking.findByIdAndDelete(id)`: the deleted document, if there was one. */
    method DeleteBooking(id: Id) returns (deleted: Option<Booking>)
      modifies this
      ensures id in old(bookings) ==> deleted == Some(old(bookings)[id])
      ensures id !in old(bookings) ==> deleted == None
      ensures bookings == old(bookings) - {id}
      ensures hotels == old(hotels) && users == old(users)
    {
      deleted := if id in bookings then Some(bookings[id]) else None;
      bookings := bookings - {id};
    }

    /** `Hotel.findByIdAndUpdate(id, { $inc: { totalBookings, totalRevenue } })`. */
    method IncHotel(id: Id, d: Ledger.Totals)
      modifies this
      ensures hotels == Ledger.IncHotel(old(hotels), id, d)
      ensures bookings == old(bookings) && users == old(users)
    {
      hotels := Ledger.IncHotel(hotels, id, d);
    }

    /** `User.findByIdAndUpdate(id, { $inc: { totalBookings, totalSpent } })`. */
    method IncUser(id: Id, d: Ledger.Totals)
      modifies this
      ensures users == Ledger.IncUser(old(users), id, d)
      ensures bookings == old(bookings) && hotels == old(hotels)
    {
      users := Ledger.IncUser(users, id, d);
    }

    /** `hotel.save()`: stores a new or edited hotel document. */
    method SaveHotel(id: Id, h: Hotel)
      modifies this
      ensures hotels == old(hotels)[id := h]
      ensures bookings == old(bookings) && users == old(users)
    {
      hotels := hotels[id := h];
    }

    /** `user.save()`: stores a new or edited user document. */
    method SaveUser(id: Id, u: User)
      modifies this
      ensures users == old(users)[id := u]
      ensures bookings == old(bookings) && hotels == old(hotels)
    {
      users := users[id := u];
    }

    /** `Booking.deleteMany({ userId })`. */
    method DeleteBookingsOfUser(userId: Id)
      modifies this
      ensures bookings == map k | k in old(bookings) && old(bookings)[k].userId != userId :: old(bookings)[k]
      ensures hotels == old(hotels) && users == old(users)
    {
      bookings := map k | k in bookings && bookings[k].userId != userId :: bookings[k];
    }

    /** `Booking.deleteMany({ hotelId: { $in: hotelIds } })`. */
    method DeleteBookingsOfHotels(hotelIds: set<Id>)
      modifies this
      ensures bookings == map k | k in old(bookings) && old(bookings)[k].hotelId !in hotelIds :: old(bookings)[k]
      ensures hotels == old(hotels) && users == old(users)
    {
      bookings := map k | k in bookings && bookings[k].hotelId !in hotelIds :: bookings[k];
    }

    /** `Hotel.deleteMany({ userId })`. */
    method DeleteHotelsOfUser(userId: Id)
      modifies this
      ensures hotels == map h | h in old(hotels) && old(hotels)[h].userId != userId :: old(hotels)[h]
      ensures bookings == old(bookings) && users == old(users)
    {
      hotels := map h | h in hotels && hotels[h].userId != userId :: hotels[h];
    }

    /** `User.findByIdAndDelete(id)`. */
    method DeleteUser(id: Id)
      modifies this
      ensures users == old(users) - {id}
      ensures bookings == old(bookings) && hotels == old(hotels)
    {
      users := users - {id};
    }
  }

  datatype IntentMetadata = IntentMetadata(hotelId: Id, userId: Id, bookingAttempt: string)

  /** A gateway payment intent: amount in minor units, currency, gateway status and the metadata it
      was created with. */
  datatype Intent = Intent(amount: int, currency: string, status: string, metadata: IntentMetadata, clientSecret: Option<string>)

  /** The gateway's status for a completed payment. */
  const Succeeded := "succeeded"

  /** The payment gateway's intents, keyed by intent id. */
  class Gateway {
    var intents: map<string, Intent>

    constructor (intents0: map<string, Intent>)
      ensures intents == intents0
    {
      intents := intents0;
    }

    /** `paymentIntents.create(...)`: records a new intent under a fresh id. */
    method Create(intent: Intent) returns (id: string)
      modifies this
      ensures id !in old(intents) && intents == old(intents)[id := intent]
    {
      id := FreshName(intents.Keys);
      intents := intents[id := intent];
    }

    /** `paymentIntents.retrieve(id)`. */
    function Retrieve(id: string): (r: Option<Intent>)
      reads this
      ensures r.Some? <==> id in intents
      ensures r.Some? ==> r.value == intents[id]
    {
      if id in intents then Some(intents[id]) else None
    }
  }
}
