/** `GET /my-bookings`: the caller's bookings, newest first, each paired with its hotel; bookings
    whose hotel no longer exists are dropped. The bookings collection is given as the sequence of
    its documents in store order. */
module MyBookingsRoute {
  import opened Domain
  import opened Common

  /** One result entry: a hotel document extended with a `bookings` array. */
  datatype HotelWithBookings = HotelWithBookings(hotelId: Id, hotel: Hotel, bookings: seq<Booking>)

  /** An entry as the route builds it: the hotel as stored, and exactly one booking of that hotel. */
  predicate WellJoined(e: HotelWithBookings, hotels: map<Id, Hotel>) {
    && |e.bookings| == 1
    && e.hotelId in hotels && e.hotel == hotels[e.hotelId]
    && e.bookings[0].hotelId == e.hotelId
  }

  /** Ordered by `createdAt`, newest first. */
  predicate NewestFirst(s: seq<Booking>) {
    forall i, j :: 0 <= i < j < |s| ==> s[i].createdAt >= s[j].createdAt
  }

  /** The bookings the entries carry, in order. */
  function Booked(r: seq<HotelWithBookings>): seq<Booking> {
    if r == [] then [] else r[0].bookings + Booked(r[1..])
  }

  /** `Booking.find({ userId })`. */
  function OfUser(collection: seq<Booking>, caller: Id): (r: seq<Booking>)
    ensures forall b :: multiset(r)[b] == if b.userId == caller then multiset(collection)[b] else 0
    ensures SubsequenceOf(r, collection)
  {
    Filter(collection, (b: Booking) => b.userId == caller)
  }

  /** Places `b` before the first booking that is not newer than it. */
  function Insert(b: Booking, s: seq<Booking>): (r: seq<Booking>)
    requires NewestFirst(s)
    ensures NewestFirst(r)
    ensures multiset(r) == multiset(s) + multiset{b}
  {
    if s == [] || s[0].createdAt <= b.createdAt then
      PrependNewest(b, s);
      [b] + s
    else
      assert s == [s[0]] + s[1..];
      var rest := Insert(b, s[1..]);
      NoNewerThan(rest, s, b);
      PrependNewest(s[0], rest);
      [s[0]] + rest
  }

  /** Everything in `rest` is no newer than the head of `s`, when `rest` holds the tail of the
      sorted `s` and one booking older than its head. */
  lemma NoNewerThan(rest: seq<Booking>, s: seq<Booking>, b: Booking)
    requires NewestFirst(s) && s != [] && b.createdAt < s[0].createdAt
    requires multiset(rest) == multiset(s[1..]) + multiset{b}
    ensures forall x :: x in rest ==> x.createdAt <= s[0].createdAt
  {
    forall x | x in rest ensures x.createdAt <= s[0].createdAt {
      assert x in multiset(rest);
      if x != b {
        assert x in multiset(s[1..]);
        var j :| 0 <= j < |s[1..]| && s[1..][j] == x;
        assert s[j + 1] == x;
      }
    }
  }

  /** A booking no older than all of a sorted list may go in front of it. */
  lemma PrependNewest(x: Booking, rest: seq<Booking>)
    requires NewestFirst(rest)
    requires forall y :: y in rest ==> y.createdAt <= x.createdAt
    ensures NewestFirst([x] + rest)
  {
    var r := [x] + rest;
    forall i, j | 0 <= i < j < |r| ensures r[i].createdAt >= r[j].createdAt {
      assert r[j] == rest[j - 1];
      if i > 0 {
        assert r[i] == rest[i - 1];
      }
    }
  }

  /** `.sort({ createdAt: -1 })`. */
  function SortNewestFirst(s: seq<Booking>): (r: seq<Booking>)
    ensures NewestFirst(r)
    ensures multiset(r) == multiset(s)
  {
    if s == [] then []
    else
      assert s == [s[0]] + s[1..];
      Insert(s[0], SortNewestFirst(s[1..]))
  }

  /** The `map` to `{ ...hotel, bookings: [booking] }` or null, then the `filter` of nulls. */
  function Join(s: seq<Booking>, hotels: map<Id, Hotel>): (r: seq<HotelWithBookings>)
    ensures |r| <= |s|
    ensures forall i :: 0 <= i < |r| ==> WellJoined(r[i], hotels)
    ensures Booked(r) == Filter(s, (b: Booking) => b.hotelId in hotels)
    ensures forall b :: multiset(Booked(r))[b] == if b.hotelId in hotels then multiset(s)[b] else 0
    ensures SubsequenceOf(Booked(r), s)
  {
    if s == [] then []
    else
      var rest := Join(s[1..], hotels);
      if s[0].hotelId in hotels then
        var r := [HotelWithBookings(s[0].hotelId, hotels[s[0].hotelId], [s[0]])] + rest;
        assert r[1..] == rest;
        assert Booked(r) == [s[0]] + Booked(rest);
        r
      else rest
  }

  /** Leaving bookings out of a newest-first list keeps it newest first. */
  lemma {:induction false} SubsequenceNewestFirst(r: seq<Booking>, s: seq<Booking>)
    requires SubsequenceOf(r, s) && NewestFirst(s)
    ensures NewestFirst(r)
    decreases |s|
  {
    if r != [] {
      if r[0] == s[0] && SubsequenceOf(r[1..], s[1..]) {
        SubsequenceNewestFirst(r[1..], s[1..]);
        SubsequenceMultiset(r[1..], s[1..]);
        forall y | y in r[1..] ensures y.createdAt <= r[0].createdAt {
          assert y in multiset(s[1..]);
          var j :| 0 <= j < |s[1..]| && s[1..][j] == y;
          assert s[j + 1] == y;
        }
        PrependNewest(r[0], r[1..]);
        assert r == [r[0]] + r[1..];
      } else {
        SubsequenceNewestFirst(r, s[1..]);
      }
    }
  }

  /** Dropping orphans keeps the remaining bookings in the order they came in. */
  lemma JoinPreservesOrder(s: seq<Booking>, hotels: map<Id, Hotel>)
    requires NewestFirst(s)
    ensures NewestFirst(Booked(Join(s, hotels)))
  {
    SubsequenceNewestFirst(Booked(Join(s, hotels)), s);
  }

  /** `GET /my-bookings`: every entry pairs one stored hotel with one of the caller's bookings of
      it; the entries cover exactly the caller's bookings whose hotel exists, newest first. */
  function MyBookings(collection: seq<Booking>, hotels: map<Id, Hotel>, caller: Id): (r: seq<HotelWithBookings>)
    ensures forall i :: 0 <= i < |r| ==> WellJoined(r[i], hotels)
    ensures forall b :: multiset(Booked(r))[b] ==
                        if b.userId == caller && b.hotelId in hotels then multiset(collection)[b] else 0
    ensures NewestFirst(Booked(r))
  {
    var sorted := SortNewestFirst(OfUser(collection, caller));
    JoinPreservesOrder(sorted, hotels);
    Join(sorted, hotels)
  }

  /** A booking of another user never appears in the caller's list. */
  lemma NoForeignBookings(collection: seq<Booking>, hotels: map<Id, Hotel>, caller: Id, b: Booking)
    requires b.userId != caller
    ensures b !in Booked(MyBookings(collection, hotels, caller))
  {
    assert multiset(Booked(MyBookings(collection, hotels, caller)))[b] == 0;
  }

  /** An orphaned booking (its hotel deleted) is dropped. */
  lemma OrphansDropped(collection: seq<Booking>, hotels: map<Id, Hotel>, caller: Id, b: Booking)
    requires b.hotelId !in hotels
    ensures b !in Booked(MyBookings(collection, hotels, caller))
  {
    assert multiset(Booked(MyBookings(collection, hotels, caller)))[b] == 0;
  }
}
