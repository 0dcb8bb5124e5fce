/** Result and option types shared by every route module, and the error taxonomy of the backend. */
module Common {

  datatype Option<+T> = None | Some(value: T) {
    function GetOr(default: T): T {
      match this
      case Some(v) => v
      case None => default
    }
  }

  /** The records an error can be about. */
  datatype Entity = HotelRecord | UserRecord | BookingRecord | PaymentIntent

  /** What went wrong, independent of the HTTP status the route answers with. `Invalid` lists the
      request fields the validators rejected, in the order the validators are declared. */
  datatype Error =
    | NotFound(entity: Entity)
    | Invalid(fields: seq<string>)
    | IntentMismatch
    | PaymentNotSucceeded(status: string)
    | GatewayError
    | CastFailed
    | EmailTaken
    | InvalidDateRange
    | Forbidden
    | Unauthorized

  /** A route's outcome: a value, or the HTTP status and error it responds with. */
  datatype Result<+T> = Ok(value: T) | Err(code: nat, error: Error)

  /** JavaScript truthiness of an optional string: present and not empty. */
  predicate Truthy(s: Option<string>) {
    s.Some? && s.value != ""
  }

  /** The `notEmpty` validator on an optional body field: a missing field fails. */
  predicate NotEmpty(f: Option<string>) {
    Truthy(f)
  }

  /** One validator's contribution to the error list: the field name when `ok` fails. */
  function Check(ok: bool, field: string): (r: seq<string>)
    ensures r == [] <==> ok
    ensures !ok ==> r == [field]
  {
    if ok then [] else [field]
  }

  /** `s || fallback` for an optional string. */
  function OrElse(s: Option<string>, fallback: string): (r: string)
    ensures Truthy(s) ==> r == s.value
    ensures !Truthy(s) ==> r == fallback
  {
    if Truthy(s) then s.value else fallback
  }

  /** A request value that may be missing, a single string, or an array of strings. */
  datatype Field = Absent | One(item: string) | Many(items: seq<string>)

  /** JavaScript truthiness of a request value (an array is truthy even when empty). */
  predicate TruthyField(f: Field) {
    match f
    case Absent => false
    case One(s) => s != ""
    case Many(_) => true
  }

  /** `Array.isArray(f) ? f : [f]` for a present value. */
  function AsList(f: Field): (r: seq<string>)
    requires !f.Absent?
    ensures f.One? ==> r == [f.item]
    ensures f.Many? ==> r == f.items
  {
    if f.One? then [f.item] else f.items
  }

  /** `Array.isArray(f) ? f : [f]`, with a missing value read as no values. */
  function ToList(f: Field): (r: seq<string>)
    ensures f.Absent? ==> r == []
    ensures f.One? ==> r == [f.item]
    ensures f.Many? ==> r == f.items
  {
    if f.Absent? then [] else AsList(f)
  }

  /** `r` is `s` with some elements left out, the rest kept in their order. */
  predicate SubsequenceOf<T(==)>(r: seq<T>, s: seq<T>)
    decreases |s|
  {
    r == [] || (s != [] && ((r[0] == s[0] && SubsequenceOf(r[1..], s[1..])) || SubsequenceOf(r, s[1..])))
  }

  lemma {:induction false} SubsequenceOfSelf<T>(s: seq<T>)
    ensures SubsequenceOf(s, s)
    decreases |s|
  {
    if s != [] {
      SubsequenceOfSelf(s[1..]);
    }
  }

  /** A subsequence holds no element more often than the whole. */
  lemma {:induction false} SubsequenceMultiset<T>(r: seq<T>, s: seq<T>)
    requires SubsequenceOf(r, s)
    ensures multiset(r) <= multiset(s)
    decreases |s|
  {
    if r != [] {
      assert s == [s[0]] + s[1..];
      if r[0] == s[0] && SubsequenceOf(r[1..], s[1..]) {
        assert r == [r[0]] + r[1..];
        SubsequenceMultiset(r[1..], s[1..]);
      } else {
        SubsequenceMultiset(r, s[1..]);
      }
    }
  }

  /** `s.filter(keep)`: every element `keep` accepts, as often as it occurs, in the original order. */
  function Filter<T(!new)>(s: seq<T>, keep: T -> bool): (r: seq<T>)
    ensures forall x :: multiset(r)[x] == if keep(x) then multiset(s)[x] else 0
    ensures forall x :: x in r <==> x in s && keep(x)
    ensures SubsequenceOf(r, s)
  {
    if s == [] then []
    else
      assert s == [s[0]] + s[1..];
      var rest := Filter(s[1..], keep);
      if keep(s[0]) then
        var r := [s[0]] + rest;
        assert r[0] == s[0] && r[1..] == rest;
        r
      else
        rest
  }

  /** The filter is the only subsequence with its multiplicities: the contract of `Filter`
      determines its result. */
  lemma {:induction false} FilterUnique<T(!new)>(r: seq<T>, s: seq<T>, keep: T -> bool)
    requires SubsequenceOf(r, s)
    requires forall x :: multiset(r)[x] == if keep(x) then multiset(s)[x] else 0
    ensures r == Filter(s, keep)
    decreases |s|
  {
    if s != [] {
      var a, t := s[0], s[1..];
      assert s == [a] + t;
      if r != [] && r[0] == a && SubsequenceOf(r[1..], t) {
        assert r == [a] + r[1..];
        assert keep(a) by {
          assert multiset(r)[a] > 0;
        }
        FilterUnique(r[1..], t, keep);
      } else {
        assert SubsequenceOf(r, t);
        SubsequenceMultiset(r, t);
        assert !keep(a);
        forall x ensures multiset(r)[x] == if keep(x) then multiset(t)[x] else 0 {
          if keep(x) {
            assert x != a;
          }
        }
        FilterUnique(r, t, keep);
      }
    }
  }

  /** Filtering a filtered list again with the same test changes nothing. */
  lemma {:induction false} FilterIdempotent<T(!new)>(s: seq<T>, keep: T -> bool)
    ensures Filter(Filter(s, keep), keep) == Filter(s, keep)
    decreases |s|
  {
    if s != [] {
      FilterIdempotent(s[1..], keep);
      var rest := Filter(s[1..], keep);
      if keep(s[0]) {
        var r := [s[0]] + rest;
        assert r[0] == s[0] && r[1..] == rest;
      }
    }
  }
}
