/** The search page's client-side filter: a hotel is shown when it passes five independent tests
    (destination, guests, price, type, rating), and the conversion of URL parameters to numbers. */
module SearchPage {
  import opened Common
  import Text

  /** The fields of a hotel the filter reads. `types` may be a single value or a list. */
  datatype HotelCard = HotelCard(
    name: string,
    city: string,
    country: string,
    adultCount: int,
    childCount: int,
    pricePerNight: int,
    types: Field,
    starRating: Option<int>)

  /** The filter state. A numeric threshold of 0 means "no constraint". */
  datatype Filters = Filters(
    destination: string,
    minPrice: int,
    maxPrice: int,
    adults: int,
    children: int,
    hotelType: string,
    minRating: int)

  /** The page's initial filters: any destination, two adults, any type. */
  const DefaultFilters := Filters("", 0, 0, 2, 0, "any", 0)

  /** Blank destinations match everything; otherwise the trimmed, lower-cased destination must
      occur in the lower-cased name, city or country. */
  predicate MatchesDestination(h: HotelCard, destination: string) {
    var needle := Text.ToLower(Text.Trim(destination));
    needle == []
    || Text.Includes(Text.ToLower(h.name), needle)
    || Text.Includes(Text.ToLower(h.city), needle)
    || Text.Includes(Text.ToLower(h.country), needle)
  }

  predicate MatchesGuests(h: HotelCard, f: Filters) {
    (f.adults == 0 || h.adultCount >= f.adults) && (f.children == 0 || h.childCount >= f.children)
  }

  predicate MatchesPrice(h: HotelCard, f: Filters) {
    (f.minPrice == 0 || h.pricePerNight >= f.minPrice) && (f.maxPrice == 0 || h.pricePerNight <= f.maxPrice)
  }

  predicate MatchesType(h: HotelCard, f: Filters) {
    f.hotelType == "any" || f.hotelType in ToList(h.types)
  }

  predicate MatchesRating(h: HotelCard, f: Filters) {
    f.minRating == 0 || h.starRating.GetOr(0) >= f.minRating
  }

  /** The predicate `filteredHotels` applies to each hotel. */
  predicate Matches(h: HotelCard, f: Filters) {
    && MatchesDestination(h, f.destination)
    && MatchesGuests(h, f)
    && MatchesPrice(h, f)
    && MatchesType(h, f)
    && MatchesRating(h, f)
  }

  /** `hotels.filter(...)`: every matching hotel, as often as it occurs, in the original order. */
  function FilterHotels(hotels: seq<HotelCard>, f: Filters): (r: seq<HotelCard>)
    ensures forall h :: multiset(r)[h] == if Matches(h, f) then multiset(hotels)[h] else 0
    ensures SubsequenceOf(r, hotels)
  {
    Filter(hotels, (h: HotelCard) => Matches(h, f))
  }

  /** A blank or white-space-only destination matches every hotel. */
  lemma BlankDestinationMatchesAll(h: HotelCard, destination: string)
    requires Text.IsBlank(destination)
    ensures MatchesDestination(h, destination)
  {
  }

  /** The destination test ignores the case of the destination typed. */
  lemma DestinationCaseInsensitive(h: HotelCard, destination: string)
    ensures MatchesDestination(h, Text.ToLower(destination)) == MatchesDestination(h, destination)
  {
    Text.TrimLower(destination);
    Text.ToLowerIdempotent(Text.Trim(destination));
  }

  /** A non-blank destination matches only a hotel whose name, city or country contains it at some
      position, after lower-casing. */
  lemma DestinationNeedsOccurrence(h: HotelCard, destination: string)
    requires !Text.IsBlank(destination) && MatchesDestination(h, destination)
    ensures var needle := Text.ToLower(Text.Trim(destination));
      || Text.Occurs(Text.ToLower(h.name), needle)
      || Text.Occurs(Text.ToLower(h.city), needle)
      || Text.Occurs(Text.ToLower(h.country), needle)
  {
    var needle := Text.ToLower(Text.Trim(destination));
    assert needle != [];
    if Text.Includes(Text.ToLower(h.name), needle) {
      Text.IncludesIff(Text.ToLower(h.name), needle);
    } else if Text.Includes(Text.ToLower(h.city), needle) {
      Text.IncludesIff(Text.ToLower(h.city), needle);
    } else {
      Text.IncludesIff(Text.ToLower(h.country), needle);
    }
  }

  /** With the initial filters, a hotel is shown exactly when it sleeps at least two adults. */
  lemma DefaultFiltersNeedTwoAdults(h: HotelCard)
    ensures Matches(h, DefaultFilters) <==> h.adultCount >= 2
  {
    var f := DefaultFilters;
    assert f.destination == [] && f.hotelType == "any";
    assert Text.IsBlank(f.destination) by {
      assert Text.TrimStart([]) == [] && Text.TrimEnd([]) == [];
    }
    BlankDestinationMatchesAll(h, f.destination);
    assert MatchesPrice(h, f) && MatchesType(h, f) && MatchesRating(h, f);
    assert MatchesGuests(h, f) <==> h.adultCount >= 2;
  }

  /** A hotel without a rating counts as rated 0: it passes only when no minimum rating is set. */
  lemma UnratedHotel(h: HotelCard, f: Filters)
    requires h.starRating.None?
    ensures MatchesRating(h, f) <==> f.minRating <= 0
  {
  }

  // ---------------------------------------------------------------------------
  // URL parameters

  /** `Number(value)` for a URL parameter: a missing parameter (null) and a blank string are 0; a
      trimmed, optionally signed run of decimal digits is its value; anything else is None, which
      stands for a result that is not a finite integer. */
  function ToNumber(value: Option<string>): (r: Option<int>)
    ensures value.None? ==> r == Some(0)
    ensures value.Some? && Text.IsBlank(value.value) ==> r == Some(0)
  {
    if value.None? then Some(0)
    else
      var t := Text.Trim(value.value);
      if t == [] then Some(0)
      else
        var digits := if t[0] == '-' || t[0] == '+' then t[1..] else t;
        if digits != [] && Text.AllDigits(digits) then
          Some(if t[0] == '-' then -(Text.DigitsValue(digits) as int) else Text.DigitsValue(digits))
        else None
  }

  /** `parseNumber(value, fallback)`: the number when it is finite, the fallback otherwise. */
  function ParseNumber(value: Option<string>, fallback: int): (n: int)
    ensures ToNumber(value).Some? ==> n == ToNumber(value).value
    ensures ToNumber(value).None? ==> n == fallback
  {
    match ToNumber(value)
    case Some(v) => v
    case None => fallback
  }

  /** A decimal rendering of a number reads back as that number. */
  lemma ParseNumberOfDigits(n: nat, fallback: int)
    ensures ParseNumber(Some(Text.NatToString(n)), fallback) == n
  {
    var s := Text.NatToString(n);
    Text.TrimDigits(s);
    assert Text.IsDigit(s[0]);
    Text.DigitsValueOfNatToString(n);
  }

  /** The characters a string `Number` reads as finite can hold once trimmed: digits, signs, the
      decimal point, and the ASCII letters of exponents, radix prefixes and "Infinity". */
  predicate NumericChar(c: char) {
    Text.IsDigit(c) || c == '+' || c == '-' || c == '.' || 'a' <= c <= 'z' || 'A' <= c <= 'Z'
  }

  /** A parameter holding, once trimmed, a character no number is written with gives the fallback,
      as `Number` gives NaN for it. */
  lemma ParseNumberOfNonNumeric(value: string, i: int, fallback: int)
    requires var t := Text.Trim(value); 0 <= i < |t| && !NumericChar(t[i])
    ensures ParseNumber(Some(value), fallback) == fallback
  {
    var t := Text.Trim(value);
    if t[0] == '-' || t[0] == '+' {
      assert t[1..][i - 1] == t[i];
    } else {
      assert !Text.AllDigits(t);
    }
  }

  /** A parameter missing from the URL is read as 0, not as the fallback: the guest filter it feeds
      is then switched off. */
  lemma MissingParameterIsZero(fallback: int, h: HotelCard, f: Filters)
    ensures ParseNumber(None, fallback) == 0
    ensures var g := f.(adults := ParseNumber(None, fallback), children := ParseNumber(None, fallback));
      MatchesGuests(h, g)
  {
  }
}
