/** The aggregate counters of hotels and users, and the invariant that ties them to the live bookings:
    every hotel's (totalBookings, totalRevenue) and every user's (totalBookings, totalSpent) equal the
    number of live bookings referencing it and the sum of their totalCost. */
module Ledger {
  import opened Domain

  /** A (booking count, money) pair: a counter value or a delta applied with `$inc`. */
  datatype Totals = Totals(count: int, amount: int) {
    function Plus(other: Totals): Totals {
      Totals(count + other.count, amount + other.amount)
    }

    function Negated(): Totals {
      Totals(-count, -amount)
    }
  }

  const Zero := Totals(0, 0)

  /** The delta a booking's creation applies to its hotel and its user. */
  function CreationDelta(b: Booking): (d: Totals)
    ensures d.count == 1 && d.amount == b.totalCost
  {
    Totals(1, b.totalCost)
  }

  /** Whose counters are meant: a hotel's or a user's. */
  datatype Party = OfHotel(hotelId: Id) | OfUser(userId: Id)

  predicate Refers(b: Booking, p: Party) {
    match p
    case OfHotel(h) => b.hotelId == h
    case OfUser(u) => b.userId == u
  }

  /** What one booking contributes to a party's counters. */
  function Share(b: Booking, p: Party): (t: Totals)
    ensures Refers(b, p) ==> t == CreationDelta(b)
    ensures !Refers(b, p) ==> t == Zero
  {
    if Refers(b, p) then CreationDelta(b) else Zero
  }

  /** The counters a party should hold: the sum of the shares of all live bookings. */
  ghost function Tally(bookings: map<Id, Booking>, p: Party): Totals
    decreases bookings.Keys
  {
    if bookings == map[] then Zero
    else
      var k :| k in bookings;
      Share(bookings[k], p).Plus(Tally(bookings - {k}, p))
  }

  /** The tally may be split at any booking, whichever one `Tally` happens to pick first. */
  lemma {:induction false} TallyRemove(bookings: map<Id, Booking>, k: Id, p: Party)
    requires k in bookings
    ensures Tally(bookings, p) == Share(bookings[k], p).Plus(Tally(bookings - {k}, p))
    decreases bookings.Keys
  {
    var j :| j in bookings && Tally(bookings, p) == Share(bookings[j], p).Plus(Tally(bookings - {j}, p));
    if j != k {
      var withoutJ, withoutK := bookings - {j}, bookings - {k};
      assert withoutJ[k] == bookings[k] && withoutK[j] == bookings[j];
      assert withoutJ - {k} == withoutK - {j};
      TallyRemove(withoutJ, k, p);
      TallyRemove(withoutK, j, p);
      PlusSwap(Share(bookings[j], p), Share(bookings[k], p), Tally(withoutJ - {k}, p));
    }
  }

  lemma PlusCancel(a: Totals, t: Totals)
    ensures a.Plus(t).Plus(a.Negated()) == t
  {
  }

  lemma PlusSwap(a: Totals, b: Totals, c: Totals)
    ensures a.Plus(b.Plus(c)) == b.Plus(a.Plus(c))
  {
  }

  lemma TallyInsert(bookings: map<Id, Booking>, k: Id, b: Booking, p: Party)
    requires k !in bookings
    ensures Tally(bookings[k := b], p) == Share(b, p).Plus(Tally(bookings, p))
  {
    var added := bookings[k := b];
    assert added - {k} == bookings;
    TallyRemove(added, k, p);
  }

  lemma TallyReplace(bookings: map<Id, Booking>, k: Id, b: Booking, p: Party)
    requires k in bookings && Share(b, p) == Share(bookings[k], p)
    ensures Tally(bookings[k := b], p) == Tally(bookings, p)
  {
    var updated := bookings[k := b];
    assert updated - {k} == bookings - {k};
    TallyRemove(updated, k, p);
    TallyRemove(bookings, k, p);
  }

  /** A party no live booking refers to has a zero tally. */
  lemma {:induction false} TallyUnreferenced(bookings: map<Id, Booking>, p: Party)
    requires forall k :: k in bookings ==> !Refers(bookings[k], p)
    ensures Tally(bookings, p) == Zero
    decreases bookings.Keys
  {
    if bookings != map[] {
      var k :| k in bookings;
      TallyRemove(bookings, k, p);
      TallyUnreferenced(bookings - {k}, p);
    }
  }

  /** Dropping bookings never raises a party's booking count. */
  lemma {:induction false} TallyCountSubmap(sub: map<Id, Booking>, full: map<Id, Booking>, p: Party)
    requires sub.Keys <= full.Keys && forall k :: k in sub ==> sub[k] == full[k]
    ensures Tally(sub, p).count <= Tally(full, p).count
    decreases full.Keys
  {
    if sub.Keys == full.Keys {
      assert sub == full;
    } else {
      var k :| k in full && k !in sub;
      var rest := full - {k};
      assert sub.Keys <= rest.Keys && forall j :: j in sub ==> sub[j] == rest[j];
      TallyRemove(full, k, p);
      TallyCountSubmap(sub, rest, p);
      assert Share(full[k], p).count >= 0;
    }
  }

  /** Dropping a booking that refers to a party lowers that party's booking count. */
  lemma TallyCountDrops(sub: map<Id, Booking>, full: map<Id, Booking>, k: Id, p: Party)
    requires sub.Keys <= full.Keys && forall j :: j in sub ==> sub[j] == full[j]
    requires k in full && k !in sub && Refers(full[k], p)
    ensures Tally(sub, p).count < Tally(full, p).count
  {
    TallyRemove(full, k, p);
    TallyCountSubmap(sub, full - {k}, p);
  }

  function HotelTotals(h: Hotel): Totals {
    Totals(h.totalBookings, h.totalRevenue)
  }

  function UserTotals(u: User): Totals {
    Totals(u.totalBookings, u.totalSpent)
  }

  /** The ledger invariant over the three collections. */
  ghost predicate Consistent(bookings: map<Id, Booking>, hotels: map<Id, Hotel>, users: map<Id, User>) {
    && (forall h :: h in hotels ==> HotelTotals(hotels[h]) == Tally(bookings, OfHotel(h)))
    && (forall u :: u in users ==> UserTotals(users[u]) == Tally(bookings, OfUser(u)))
  }

  /** `Hotel.findByIdAndUpdate(id, { $inc: ... })`: a no-op when the hotel does not exist. */
  function IncHotel(hotels: map<Id, Hotel>, id: Id, d: Totals): (r: map<Id, Hotel>)
    ensures r.Keys == hotels.Keys
    ensures id in hotels ==> HotelTotals(r[id]) == HotelTotals(hotels[id]).Plus(d)
    ensures id in hotels ==> r[id] == hotels[id].(totalBookings := r[id].totalBookings, totalRevenue := r[id].totalRevenue)
    ensures forall h :: h in hotels && h != id ==> r[h] == hotels[h]
  {
    if id in hotels then
      hotels[id := hotels[id].(totalBookings := hotels[id].totalBookings + d.count,
                               totalRevenue := hotels[id].totalRevenue + d.amount)]
    else hotels
  }

  /** `User.findByIdAndUpdate(id, { $inc: ... })`: a no-op when the user does not exist. */
  function IncUser(users: map<Id, User>, id: Id, d: Totals): (r: map<Id, User>)
    ensures r.Keys == users.Keys
    ensures id in users ==> UserTotals(r[id]) == UserTotals(users[id]).Plus(d)
    ensures id in users ==> r[id] == users[id].(totalBookings := r[id].totalBookings, totalSpent := r[id].totalSpent)
    ensures forall u :: u in users && u != id ==> r[u] == users[u]
  {
    if id in users then
      users[id := users[id].(totalBookings := users[id].totalBookings + d.count,
                             totalSpent := users[id].totalSpent + d.amount)]
    else users
  }

  /** Applying a delta and then its negation restores the hotel counters. */
  lemma IncHotelUndo(hotels: map<Id, Hotel>, id: Id, d: Totals)
    ensures IncHotel(IncHotel(hotels, id, d), id, d.Negated()) == hotels
  {
  }

  lemma IncUserUndo(users: map<Id, User>, id: Id, d: Totals)
    ensures IncUser(IncUser(users, id, d), id, d.Negated()) == users
  {
  }

  /** Increments commute: the final counters do not depend on the order requests are applied in. */
  lemma IncHotelCommutes(hotels: map<Id, Hotel>, a: Id, da: Totals, b: Id, db: Totals)
    ensures IncHotel(IncHotel(hotels, a, da), b, db) == IncHotel(IncHotel(hotels, b, db), a, da)
  {
  }

  /** Creating a booking under a fresh key and applying its +1/+totalCost deltas keeps the ledger. */
  lemma ConsistentAfterInsert(bookings: map<Id, Booking>, hotels: map<Id, Hotel>, users: map<Id, User>, k: Id, b: Booking)
    requires Consistent(bookings, hotels, users) && k !in bookings
    ensures Consistent(bookings[k := b],
                       IncHotel(hotels, b.hotelId, CreationDelta(b)),
                       IncUser(users, b.userId, CreationDelta(b)))
  {
    var hs := IncHotel(hotels, b.hotelId, CreationDelta(b));
    var us := IncUser(users, b.userId, CreationDelta(b));
    forall h | h in hs ensures HotelTotals(hs[h]) == Tally(bookings[k := b], OfHotel(h)) {
      PartyAfterInsert(bookings, k, b, OfHotel(h), HotelTotals(hotels[h]), HotelTotals(hs[h]));
    }
    forall u | u in us ensures UserTotals(us[u]) == Tally(bookings[k := b], OfUser(u)) {
      PartyAfterInsert(bookings, k, b, OfUser(u), UserTotals(users[u]), UserTotals(us[u]));
    }
  }

  /** One party's counters after an insertion: they move by the new booking's share. */
  lemma PartyAfterInsert(bookings: map<Id, Booking>, k: Id, b: Booking, p: Party, before: Totals, after: Totals)
    requires k !in bookings && before == Tally(bookings, p)
    requires Refers(b, p) ==> after == before.Plus(CreationDelta(b))
    requires !Refers(b, p) ==> after == before
    ensures after == Tally(bookings[k := b], p)
  {
    TallyInsert(bookings, k, b, p);
  }

  /** Deleting a booking and applying the negated deltas keeps the ledger. */
  lemma ConsistentAfterRemove(bookings: map<Id, Booking>, hotels: map<Id, Hotel>, users: map<Id, User>, k: Id)
    requires Consistent(bookings, hotels, users) && k in bookings
    ensures Consistent(bookings - {k},
                       IncHotel(hotels, bookings[k].hotelId, CreationDelta(bookings[k]).Negated()),
                       IncUser(users, bookings[k].userId, CreationDelta(bookings[k]).Negated()))
  {
    var b := bookings[k];
    var hs := IncHotel(hotels, b.hotelId, CreationDelta(b).Negated());
    var us := IncUser(users, b.userId, CreationDelta(b).Negated());
    forall h | h in hs ensures HotelTotals(hs[h]) == Tally(bookings - {k}, OfHotel(h)) {
      PartyAfterRemove(bookings, k, OfHotel(h), HotelTotals(hotels[h]), HotelTotals(hs[h]));
    }
    forall u | u in us ensures UserTotals(us[u]) == Tally(bookings - {k}, OfUser(u)) {
      PartyAfterRemove(bookings, k, OfUser(u), UserTotals(users[u]), UserTotals(us[u]));
    }
  }

  /** One party's counters after a deletion: they move back by the removed booking's share. */
  lemma PartyAfterRemove(bookings: map<Id, Booking>, k: Id, p: Party, before: Totals, after: Totals)
    requires k in bookings && before == Tally(bookings, p)
    requires Refers(bookings[k], p) ==> after == before.Plus(CreationDelta(bookings[k]).Negated())
    requires !Refers(bookings[k], p) ==> after == before
    ensures after == Tally(bookings - {k}, p)
  {
    TallyRemove(bookings, k, p);
    if Refers(bookings[k], p) {
      PlusCancel(CreationDelta(bookings[k]), Tally(bookings - {k}, p));
    }
  }

  /** Rewriting a booking without changing its hotel, user or cost keeps the ledger. */
  lemma ConsistentAfterReplace(bookings: map<Id, Booking>, hotels: map<Id, Hotel>, users: map<Id, User>, k: Id, b: Booking)
    requires Consistent(bookings, hotels, users) && k in bookings
    requires b.hotelId == bookings[k].hotelId && b.userId == bookings[k].userId
    requires b.totalCost == bookings[k].totalCost
    ensures Consistent(bookings[k := b], hotels, users)
  {
    forall h | h in hotels ensures HotelTotals(hotels[h]) == Tally(bookings[k := b], OfHotel(h)) {
      TallyReplace(bookings, k, b, OfHotel(h));
    }
    forall u | u in users ensures UserTotals(users[u]) == Tally(bookings[k := b], OfUser(u)) {
      TallyReplace(bookings, k, b, OfUser(u));
    }
  }

  /** Storing a hotel whose counters match its tally (a fresh hotel starts at zero with no bookings,
      an edited one keeps its counters) keeps the ledger. */
  lemma ConsistentAfterHotelWrite(bookings: map<Id, Booking>, hotels: map<Id, Hotel>, users: map<Id, User>, id: Id, h: Hotel)
    requires Consistent(bookings, hotels, users)
    requires id in hotels ==> HotelTotals(h) == HotelTotals(hotels[id])
    requires id !in hotels ==> HotelTotals(h) == Zero && forall k :: k in bookings ==> bookings[k].hotelId != id
    ensures Consistent(bookings, hotels[id := h], users)
  {
    if id !in hotels {
      TallyUnreferenced(bookings, OfHotel(id));
    }
  }

  lemma ConsistentAfterUserWrite(bookings: map<Id, Booking>, hotels: map<Id, Hotel>, users: map<Id, User>, id: Id, u: User)
    requires Consistent(bookings, hotels, users)
    requires id in users ==> UserTotals(u) == UserTotals(users[id])
    requires id !in users ==> UserTotals(u) == Zero && forall k :: k in bookings ==> bookings[k].userId != id
    ensures Consistent(bookings, hotels, users[id := u])
  {
    if id !in users {
      TallyUnreferenced(bookings, OfUser(id));
    }
  }

  /** A hotel stored under an id no booking refers to keeps the ledger exactly when its counters
      are zero: counters taken from a request body that are not zero break it. */
  lemma ConsistentWithNewHotel(bookings: map<Id, Booking>, hotels: map<Id, Hotel>, users: map<Id, User>, id: Id, h: Hotel)
    requires id !in hotels && forall k :: k in bookings ==> bookings[k].hotelId != id
    ensures Consistent(bookings, hotels[id := h], users) <==> Consistent(bookings, hotels, users) && HotelTotals(h) == Zero
  {
    TallyUnreferenced(bookings, OfHotel(id));
    if Consistent(bookings, hotels[id := h], users) {
      forall j | j in hotels ensures HotelTotals(hotels[j]) == Tally(bookings, OfHotel(j)) {
        assert hotels[id := h][j] == hotels[j];
      }
    }
  }

  /** A user stored under an id no booking refers to keeps the ledger exactly when its counters are
      zero. */
  lemma ConsistentWithNewUser(bookings: map<Id, Booking>, hotels: map<Id, Hotel>, users: map<Id, User>, id: Id, u: User)
    requires id !in users && forall k :: k in bookings ==> bookings[k].userId != id
    ensures Consistent(bookings, hotels, users[id := u]) <==> Consistent(bookings, hotels, users) && UserTotals(u) == Zero
  {
    TallyUnreferenced(bookings, OfUser(id));
    if Consistent(bookings, hotels, users[id := u]) {
      forall j | j in users ensures UserTotals(users[j]) == Tally(bookings, OfUser(j)) {
        assert users[id := u][j] == users[j];
      }
    }
  }
}
