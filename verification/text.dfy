/** The JavaScript string operations the filters and validators rely on: `trim`, `toLowerCase`,
    `includes`, `startsWith`, and decimal conversion of digit strings. */
module Text {
  import opened Common


  /** The white-space characters `String.prototype.trim` removes (ASCII ones, NBSP and BOM). */
  predicate IsSpace(c: char) {
    c == ' ' || c == '\t' || c == '\n' || c == '\r' || c == '\U{000B}' || c == '\U{000C}'
    || c == '\U{00A0}' || c == '\U{FEFF}'
  }

  function TrimStart(s: string): (r: string)
    ensures |r| <= |s| && r == s[|s| - |r|..]
    ensures forall i :: 0 <= i < |s| - |r| ==> IsSpace(s[i])
    ensures r == [] || !IsSpace(r[0])
  {
    if s != [] && IsSpace(s[0]) then TrimStart(s[1..]) else s
  }

  function TrimEnd(s: string): (r: string)
    ensures |r| <= |s| && r == s[..|r|]
    ensures forall i :: |r| <= i < |s| ==> IsSpace(s[i])
    ensures r == [] || !IsSpace(r[|r| - 1])
  {
    if s != [] && IsSpace(s[|s| - 1]) then TrimEnd(s[..|s| - 1]) else s
  }

  /** `s.trim()`. */
  function Trim(s: string): (r: string)
    ensures |r| <= |s|
    ensures r == [] || (!IsSpace(r[0]) && !IsSpace(r[|r| - 1]))
  {
    TrimEnd(TrimStart(s))
  }

  /** What `trim` keeps is a slice of the string, and everything before and after it is white
      space. */
  lemma TrimIsSlice(s: string)
    ensures var i := |s| - |TrimStart(s)|;
      && OccursAt(s, Trim(s), i)
      && (forall j :: 0 <= j < i ==> IsSpace(s[j]))
      && (forall j :: i + |Trim(s)| <= j < |s| ==> IsSpace(s[j]))
  {
    var t := TrimStart(s);
    SliceOfSuffix(s, t, TrimEnd(t), |s| - |t|);
  }

  /** A non-empty run of digits is its own trim. */
  lemma TrimDigits(s: string)
    requires s != [] && AllDigits(s)
    ensures Trim(s) == s
  {
    assert !IsSpace(s[0]) && !IsSpace(s[|s| - 1]);
    assert TrimStart(s) == s;
    assert TrimEnd(s) == s;
  }

  /** A prefix `r` of the suffix `t` of `s` that starts at `i` occurs in `s` at `i`, and whatever
      follows `r` in `t` follows it in `s` too. */
  lemma SliceOfSuffix(s: string, t: string, r: string, i: int)
    requires 0 <= i <= |s| && t == s[i..] && |r| <= |t| && r == t[..|r|]
    ensures OccursAt(s, r, i)
    ensures forall j :: i + |r| <= j < |s| ==> s[j] == t[j - i]
  {
    assert s[i..i + |r|] == t[..|r|];
  }

  /** `!s.trim()`: the string is empty or white space only. */
  predicate IsBlank(s: string) {
    Trim(s) == []
  }

  /** A string with one character that is not white space is not blank. */
  lemma NotBlank(s: string, i: int)
    requires 0 <= i < |s| && !IsSpace(s[i])
    ensures !IsBlank(s)
  {
    BlankIffAllSpace(s);
  }

  lemma BlankIffAllSpace(s: string)
    ensures IsBlank(s) <==> forall i :: 0 <= i < |s| ==> IsSpace(s[i])
  {
    var t := TrimStart(s);
    if IsBlank(s) {
      forall i | 0 <= i < |s| ensures IsSpace(s[i]) {
        if i >= |s| - |t| {
          assert IsSpace(t[i - (|s| - |t|)]);
        }
      }
    }
    if forall i :: 0 <= i < |s| ==> IsSpace(s[i]) {
      if t != [] {
        assert t[0] == s[|s| - |t|];
      }
    }
  }

  function LowerChar(c: char): (r: char)
    ensures 'A' <= c <= 'Z' ==> r as int == c as int + 32
    ensures !('A' <= c <= 'Z') ==> r == c
  {
    if 'A' <= c <= 'Z' then (c as int + 32) as char else c
  }

  /** `s.toLowerCase()` on ASCII letters. */
  function ToLower(s: string): (r: string)
    ensures |r| == |s|
    ensures forall i :: 0 <= i < |s| ==> r[i] == LowerChar(s[i])
  {
    if s == [] then [] else [LowerChar(s[0])] + ToLower(s[1..])
  }

  /** Lower-casing twice is lower-casing once. */
  lemma ToLowerIdempotent(s: string)
    ensures ToLower(ToLower(s)) == ToLower(s)
  {
  }

  /** Lower-casing commutes with taking a slice. */
  lemma ToLowerSlice(s: string, i: int, j: int)
    requires 0 <= i <= j <= |s|
    ensures ToLower(s)[i..j] == ToLower(s[i..j])
  {
    var full := ToLower(s);
    var a, t := full[i..j], s[i..j];
    forall k | 0 <= k < |a| ensures a[k] == LowerChar(t[k]) {
      assert a[k] == full[i + k] == LowerChar(s[i + k]) && t[k] == s[i + k];
    }
    LoweredPointwise(a, t);
  }

  /** A string that is the letter-by-letter lowering of another is its lower-casing. */
  lemma LoweredPointwise(a: string, t: string)
    requires |a| == |t| && forall k :: 0 <= k < |a| ==> a[k] == LowerChar(t[k])
    ensures a == ToLower(t)
  {
  }

  lemma SpaceLower(c: char)
    ensures IsSpace(LowerChar(c)) <==> IsSpace(c)
  {
  }

  lemma {:induction false} TrimStartLower(s: string)
    ensures TrimStart(ToLower(s)) == ToLower(TrimStart(s))
    decreases |s|
  {
    var t := ToLower(s);
    if s != [] {
      SpaceLower(s[0]);
      assert t[0] == LowerChar(s[0]);
      if IsSpace(s[0]) {
        ToLowerSlice(s, 1, |s|);
        assert TrimStart(t) == TrimStart(t[1..]);
        TrimStartLower(s[1..]);
      } else {
        assert TrimStart(t) == t;
      }
    }
  }

  lemma {:induction false} TrimEndLower(s: string)
    ensures TrimEnd(ToLower(s)) == ToLower(TrimEnd(s))
    decreases |s|
  {
    var t := ToLower(s);
    if s != [] {
      SpaceLower(s[|s| - 1]);
      assert t[|t| - 1] == LowerChar(s[|s| - 1]);
      if IsSpace(s[|s| - 1]) {
        ToLowerSlice(s, 0, |s| - 1);
        assert TrimEnd(t) == TrimEnd(t[..|t| - 1]);
        TrimEndLower(s[..|s| - 1]);
      } else {
        assert TrimEnd(t) == t;
      }
    }
  }

  /** Trimming and lower-casing may be done in either order: white space has no case. */
  lemma TrimLower(s: string)
    ensures Trim(ToLower(s)) == ToLower(Trim(s))
  {
    TrimStartLower(s);
    TrimEndLower(TrimStart(s));
  }

  /** `s.startsWith(prefix)`. */
  predicate StartsWith(s: string, prefix: string) {
    |prefix| <= |s| && s[..|prefix|] == prefix
  }

  /** `sub` occurs in `s` starting at index `i`. */
  ghost predicate OccursAt(s: string, sub: string, i: int) {
    0 <= i && i + |sub| <= |s| && s[i..i + |sub|] == sub
  }

  /** `sub` occurs somewhere in `s`. */
  ghost predicate Occurs(s: string, sub: string) {
    exists i :: OccursAt(s, sub, i)
  }

  /** `s.includes(sub)`, computed by scanning the start positions from left to right. */
  predicate Includes(s: string, sub: string)
    ensures Includes(s, sub) ==> |sub| <= |s|
    ensures sub == [] ==> Includes(s, sub)
    decreases |s|
  {
    StartsWith(s, sub) || (s != [] && Includes(s[1..], sub))
  }

  /** `Includes` is exactly "occurs at some position". */
  lemma {:induction false} IncludesIff(s: string, sub: string)
    ensures Includes(s, sub) <==> Occurs(s, sub)
    decreases |s|
  {
    if StartsWith(s, sub) {
      assert OccursAt(s, sub, 0);
    } else if s != [] {
      IncludesIff(s[1..], sub);
      if Includes(s[1..], sub) {
        var i :| OccursAt(s[1..], sub, i);
        OccursShift(s, sub, i);
      }
      if Occurs(s, sub) {
        var i :| OccursAt(s, sub, i);
        assert i != 0;
        OccursShift(s, sub, i - 1);
      }
    } else {
      assert forall i :: !OccursAt(s, sub, i);
    }
  }

  /** An occurrence in the tail is an occurrence one position further on in the whole string. */
  lemma OccursShift(s: string, sub: string, i: int)
    requires s != [] && 0 <= i
    ensures OccursAt(s[1..], sub, i) <==> OccursAt(s, sub, i + 1)
  {
    if i + |sub| <= |s| - 1 {
      assert s[1..][i..i + |sub|] == s[i + 1..i + 1 + |sub|];
    }
  }

  predicate IsDigit(c: char) {
    '0' <= c <= '9'
  }

  predicate AllDigits(s: string) {
    forall i :: 0 <= i < |s| ==> IsDigit(s[i])
  }

  /** The value of a string of decimal digits, most significant first. */
  function DigitsValue(s: string): (n: nat)
    requires AllDigits(s)
  {
    if s == [] then 0 else DigitsValue(s[..|s| - 1]) * 10 + (s[|s| - 1] as int - '0' as int)
  }

  /** The decimal rendering of a natural number, as `String(n)` gives it. */
  function NatToString(n: nat): (s: string)
    ensures s != [] && AllDigits(s)
  {
    if n < 10 then [('0' as int + n) as char] else NatToString(n / 10) + [('0' as int + n % 10) as char]
  }

  /** Reading back a rendered number gives the number. */
  lemma {:induction false} DigitsValueOfNatToString(n: nat)
    ensures DigitsValue(NatToString(n)) == n
  {
    var s := NatToString(n);
    if n >= 10 {
      DigitsValueOfNatToString(n / 10);
      assert s[..|s| - 1] == NatToString(n / 10);
    }
  }

  /** The longest prefix of `s` made of decimal digits. */
  function LeadingDigits(s: string): (d: string)
    ensures |d| <= |s| && AllDigits(d) && d == s[..|d|]
    ensures |d| < |s| ==> !IsDigit(s[|d|])
  {
    if s != [] && IsDigit(s[0]) then [s[0]] + LeadingDigits(s[1..]) else []
  }

  predicate IsHexDigit(c: char) {
    IsDigit(c) || 'a' <= c <= 'f' || 'A' <= c <= 'F'
  }

  predicate AllHexDigits(s: string) {
    forall i :: 0 <= i < |s| ==> IsHexDigit(s[i])
  }

  /** The value of one hexadecimal digit, in either case. */
  function HexDigitValue(c: char): (v: nat)
    requires IsHexDigit(c)
    ensures v < 16
    ensures IsDigit(c) ==> v == c as int - '0' as int
  {
    if IsDigit(c) then c as int - '0' as int
    else if 'a' <= c <= 'f' then c as int - 'a' as int + 10
    else c as int - 'A' as int + 10
  }

  /** The value of a string of hexadecimal digits, most significant first. */
  function HexDigitsValue(s: string): (n: nat)
    requires AllHexDigits(s)
  {
    if s == [] then 0 else HexDigitsValue(s[..|s| - 1]) * 16 + HexDigitValue(s[|s| - 1])
  }

  /** The longest prefix of `s` made of hexadecimal digits. */
  function LeadingHexDigits(s: string): (d: string)
    ensures |d| <= |s| && AllHexDigits(d) && d == s[..|d|]
    ensures |d| < |s| ==> !IsHexDigit(s[|d|])
  {
    if s != [] && IsHexDigit(s[0]) then [s[0]] + LeadingHexDigits(s[1..]) else []
  }

  /** "0x" or "0X": the prefix that switches `parseInt` without a radix to base sixteen. */
  predicate HasHexPrefix(s: string) {
    |s| >= 2 && s[0] == '0' && (s[1] == 'x' || s[1] == 'X')
  }

  /** What `parseInt` reads after leading white space and an optional sign. */
  function Unsigned(s: string): (u: string)
    ensures var t := TrimStart(s); u == (if t != [] && (t[0] == '-' || t[0] == '+') then t[1..] else t)
  {
    var t := TrimStart(s);
    if t != [] && (t[0] == '-' || t[0] == '+') then t[1..] else t
  }

  /** `parseInt(s)` without a radix: leading white space, an optional sign, then a "0x" or "0X"
      prefix selecting base sixteen (base ten otherwise), then as many digits of the base as follow;
      None stands for NaN (no digit of the base at all). */
  function ParseInt(s: string): (r: Option<int>)
    ensures var u := Unsigned(s);
      r.None? <==> if HasHexPrefix(u) then |u| == 2 || !IsHexDigit(u[2]) else u == [] || !IsDigit(u[0])
    ensures r.Some? && TrimStart(s)[0] != '-' ==> r.value >= 0
    ensures r.Some? && TrimStart(s)[0] == '-' ==> r.value <= 0
  {
    var t := TrimStart(s);
    var negative := t != [] && t[0] == '-';
    var body := Unsigned(s);
    if HasHexPrefix(body) then
      var digits := LeadingHexDigits(body[2..]);
      if digits == [] then None
      else Some(if negative then -(HexDigitsValue(digits) as int) else HexDigitsValue(digits))
    else
      var digits := LeadingDigits(body);
      if digits == [] then None
      else Some(if negative then -(DigitsValue(digits) as int) else DigitsValue(digits))
  }

  /** `parseInt` reads back what `String(n)` renders, and ignores whatever follows the digits, except
      that "0" followed by an 'x' or 'X' starts a hexadecimal number. */
  lemma ParseIntOfNatToString(n: nat, tail: string)
    requires tail == [] || !IsDigit(tail[0])
    requires n == 0 && tail != [] ==> tail[0] != 'x' && tail[0] != 'X'
    ensures ParseInt(NatToString(n) + tail) == Some(n)
  {
    var s := NatToString(n);
    var t := s + tail;
    assert t[0] == s[0] && IsDigit(s[0]);
    assert !IsSpace(t[0]) && t[0] != '-' && t[0] != '+';
    assert TrimStart(t) == t;
    if |s| == 1 {
      assert n < 10;
    } else {
      assert t[1] == s[1] && IsDigit(s[1]);
    }
    assert !HasHexPrefix(t);
    LeadingDigitsOfDigits(s, tail);
    UnsignedParse(t, s);
    DigitsValueOfNatToString(n);
  }

  /** Without white space, a sign or a hexadecimal prefix in front, `parseInt` is the value of the
      leading decimal digits. */
  lemma UnsignedParse(t: string, d: string)
    requires TrimStart(t) == t && t != [] && t[0] != '-' && t[0] != '+' && !HasHexPrefix(t)
    requires LeadingDigits(t) == d && d != []
    ensures ParseInt(t) == Some(DigitsValue(d))
  {
  }

  /** `parseInt` reads "0x" (or "0X") followed by hexadecimal digits in base sixteen, and ignores
      whatever follows them. */
  lemma ParseIntOfHex(x: char, h: string, tail: string)
    requires x == 'x' || x == 'X'
    requires h != [] && AllHexDigits(h) && (tail == [] || !IsHexDigit(tail[0]))
    ensures ParseInt(['0', x] + h + tail) == Some(HexDigitsValue(h))
  {
    var t := ['0', x] + h + tail;
    assert !IsSpace(t[0]);
    assert TrimStart(t) == t;
    assert Unsigned(t) == t && HasHexPrefix(t);
    assert t[2..] == h + tail;
    LeadingHexDigitsOf(h, tail);
  }

  lemma {:induction false} LeadingHexDigitsOf(s: string, tail: string)
    requires AllHexDigits(s) && (tail == [] || !IsHexDigit(tail[0]))
    ensures LeadingHexDigits(s + tail) == s
  {
    if s != [] {
      assert (s + tail)[1..] == s[1..] + tail;
      LeadingHexDigitsOf(s[1..], tail);
    }
  }

  lemma {:induction false} LeadingDigitsOfDigits(s: string, tail: string)
    requires AllDigits(s) && (tail == [] || !IsDigit(tail[0]))
    ensures LeadingDigits(s + tail) == s
  {
    if s != [] {
      assert (s + tail)[1..] == s[1..] + tail;
      LeadingDigitsOfDigits(s[1..], tail);
    }
  }

  /** An approximation of the `isEmail` validator: no white space, exactly one '@' with something
      before it, and a domain holding a dot that neither starts nor ends it. */
  predicate IsEmail(s: string) {
    && (forall i | 0 <= i < |s| :: !IsSpace(s[i]))
    && exists at | 0 < at < |s| :: s[at] == '@' && '@' !in s[..at] && '@' !in s[at + 1..] && HasInnerDot(s[at + 1..])
  }

  predicate HasInnerDot(d: string) {
    exists j | 0 < j < |d| - 1 :: d[j] == '.'
  }

  /** The `isLength({ min })` validator. */
  predicate HasMinLength(s: string, min: nat) {
    |s| >= min
  }
}
