/** The parts of the Kotlin language and standard library that the sandbox's
    tests lean on: nullable values, thrown exceptions, 32-bit `Int`
    arithmetic, and the `String` helpers `uppercase`, `repeat`, `toString`,
    `equals(ignoreCase = true)` and `contains(ignoreCase = true)`. */
module Kotlin {

  /** A nullable value `T?`. */
  datatype Nullable<+T> = Null | Some(value: T)

  /** `x ?: default`, the null-coalescing (Elvis) operator. */
  function Elvis<T>(x: Nullable<T>, default: T): (r: T)
    ensures x.Some? ==> r == x.value
    ensures x.Null? ==> r == default
  {
    match x
    case Some(v) => v
    case Null => default
  }

  /** The exceptions the modelled code throws. */
  datatype Throwable =
    | Exception(message: string)           // `throw Exception(message)`
    | IllegalArgumentException             // a negative `repeat` count, a non-positive `step`
    | NoSuchElementException               // `first`/`last` without a match, `getValue` of a missing key
    | NotImplementedError(reason: string)  // `TODO(reason)`

  /** Whether `catch (ex: Exception)` catches it: `NotImplementedError` is an
      `Error`, not an `Exception`. */
  predicate IsException(t: Throwable)
  {
    !t.NotImplementedError?
  }

  /** What evaluating an expression does: return a value or throw. */
  datatype Outcome<+T> = Returned(value: T) | Threw(error: Throwable)

  // ---------------------------------------------------------------------
  // Int: 32-bit two's complement, arithmetic wraps around

  const INT_MIN: int := -0x8000_0000
  const INT_MAX: int := 0x7fff_ffff

  newtype int32 = x: int | -0x8000_0000 <= x < 0x8000_0000

  /** The `Int` that a mathematical integer wraps around to. */
  function Wrap(x: int): (r: int32)
    ensures (r as int - x) % 0x1_0000_0000 == 0
    ensures INT_MIN <= x <= INT_MAX ==> r as int == x
  {
    ((x + 0x8000_0000) % 0x1_0000_0000 - 0x8000_0000) as int32
  }

  /** `a + b` on `Int`. */
  function Add32(a: int32, b: int32): (r: int32)
    ensures (r as int - (a as int + b as int)) % 0x1_0000_0000 == 0
    ensures INT_MIN <= a as int + b as int <= INT_MAX ==> r as int == a as int + b as int
  {
    Wrap(a as int + b as int)
  }

  /** `a * b` on `Int`. */
  function Mul32(a: int32, b: int32): (r: int32)
    ensures (r as int - a as int * b as int) % 0x1_0000_0000 == 0
    ensures INT_MIN <= a as int * b as int <= INT_MAX ==> r as int == a as int * b as int
  {
    Wrap(a as int * b as int)
  }

  /** `a + 1` never gives `a` back, not even at `Int.MAX_VALUE`, where it wraps
      to `Int.MIN_VALUE`. */
  lemma Add32OneChanges(a: int32)
    ensures Add32(a, 1) != a
    ensures a as int < INT_MAX ==> Add32(a, 1) as int == a as int + 1
    ensures a as int == INT_MAX ==> Add32(a, 1) as int == INT_MIN
  {
  }

  // ---------------------------------------------------------------------
  // Strings

  predicate IsLowerAscii(c: char)
  {
    'a' <= c <= 'z'
  }

  /** Upper-case mapping of one character, ASCII letters only. */
  function UpperChar(c: char): (u: char)
    ensures !IsLowerAscii(u)
    ensures u != c ==> IsLowerAscii(c)
  {
    if IsLowerAscii(c) then (c as int - 32) as char else c
  }

  /** `s.uppercase()`, character by character. */
  function Uppercase(s: string): (r: string)
    ensures |r| == |s|
    ensures forall i :: 0 <= i < |s| ==> r[i] == UpperChar(s[i])
  {
    if s == [] then [] else [UpperChar(s[0])] + Uppercase(s[1..])
  }

  /** An upper-cased string holds no lower-case letter, and upper-casing it
      again changes nothing. */
  lemma UppercaseIdempotent(s: string)
    ensures forall i :: 0 <= i < |s| ==> !IsLowerAscii(Uppercase(s)[i])
    ensures Uppercase(Uppercase(s)) == Uppercase(s)
  {
  }

  /** A string with no lower-case letter that equals `s` ignoring case is
      `s` upper-cased: the only such string. */
  lemma {:induction false} UpperEqualsIgnoreCaseIsUppercase(r: string, s: string)
    requires forall i :: 0 <= i < |r| ==> !IsLowerAscii(r[i])
    requires EqualsIgnoreCase(r, s)
    ensures r == Uppercase(s)
  {
    assert forall i :: 0 <= i < |r| ==> Uppercase(r)[i] == r[i];
    assert Uppercase(r) == r;
  }

  /** Upper-casing distributes over concatenation. */
  lemma UppercaseConcat(a: string, b: string)
    ensures Uppercase(a + b) == Uppercase(a) + Uppercase(b)
  {
    var l, r := Uppercase(a + b), Uppercase(a) + Uppercase(b);
    assert |l| == |r|;
    forall i | 0 <= i < |l| ensures l[i] == r[i] {
      if i < |a| {
        assert (a + b)[i] == a[i];
      } else {
        assert (a + b)[i] == b[i - |a|];
      }
    }
  }

  /** `s` concatenated `n` times: `n` periods of length `|s|`, the first of
      which is `s`. */
  function RepeatCount(s: string, n: nat): (r: string)
    ensures |r| == n * |s|
    ensures 0 < n ==> |s| <= |r| && r[..|s|] == s
    ensures forall i :: |s| <= i < |r| ==> r[i] == r[i - |s|]
  {
    if n == 0 then "" else s + RepeatCount(s, n - 1)
  }

  /** `s.repeat(n)`: the count must not be negative. */
  function Repeat(s: string, n: int): (r: Outcome<string>)
    ensures r.Threw? <==> n < 0
    ensures r.Threw? ==> r.error == IllegalArgumentException
    ensures r.Returned? ==> |r.value| == n * |s|
    ensures r.Returned? && 0 < n ==> |s| <= |r.value| && r.value[..|s|] == s
    ensures r.Returned? ==> forall i :: |s| <= i < |r.value| ==> r.value[i] == r.value[i - |s|]
  {
    if n < 0 then Threw(IllegalArgumentException) else Returned(RepeatCount(s, n))
  }

  /** Two copies of `s` are `s + s`. */
  lemma {:induction false} RepeatTwice(s: string)
    ensures RepeatCount(s, 2) == s + s
  {
    assert RepeatCount(s, 0) == "";
    assert RepeatCount(s, 1) == s + "" == s;
  }

  /** The decimal digit for `d`. */
  function Digit(d: nat): (c: char)
    requires d < 10
    ensures '0' <= c <= '9'
    ensures c as int - '0' as int == d
  {
    ('0' as int + d) as char
  }

  /** `n.toString()` for a non-negative `Int`: decimal digits, no leading zero. */
  function DecimalString(n: nat): (r: string)
    ensures 1 <= |r|
    ensures forall i :: 0 <= i < |r| ==> '0' <= r[i] <= '9'
    ensures r[0] == '0' ==> n == 0
  {
    if n < 10 then [Digit(n)] else DecimalString(n / 10) + [Digit(n % 10)]
  }

  /** The number a string of decimal digits denotes. */
  function DecimalValue(s: string): nat
    requires forall i :: 0 <= i < |s| ==> '0' <= s[i] <= '9'
  {
    if s == [] then 0 else 10 * DecimalValue(s[..|s| - 1]) + (s[|s| - 1] as int - '0' as int)
  }

  /** Reading back what `toString` printed gives the number. */
  lemma {:induction false} DecimalRoundTrip(n: nat)
    ensures DecimalValue(DecimalString(n)) == n
  {
    var r := DecimalString(n);
    if n >= 10 {
      DecimalRoundTrip(n / 10);
      assert r[..|r| - 1] == DecimalString(n / 10);
    }
  }

  /** Different numbers print differently. */
  lemma DecimalStringInjective(m: nat, n: nat)
    requires DecimalString(m) == DecimalString(n)
    ensures m == n
  {
    DecimalRoundTrip(m);
    DecimalRoundTrip(n);
  }

  /** `a.equals(b, ignoreCase = true)`, ASCII letters only. */
  function EqualsIgnoreCase(a: string, b: string): (r: bool)
    ensures r <==> |a| == |b| && forall i :: 0 <= i < |a| ==> UpperChar(a[i]) == UpperChar(b[i])
    ensures a == b ==> r
  {
    Uppercase(a) == Uppercase(b)
  }

  /** `needle` occurs in `haystack` starting at `at`. */
  predicate OccursAt(haystack: string, needle: string, at: nat)
  {
    at + |needle| <= |haystack| && haystack[at..at + |needle|] == needle
  }

  /** `haystack.contains(needle, ignoreCase = true)`, ASCII letters only. */
  function ContainsIgnoreCase(haystack: string, needle: string): (r: bool)
    ensures r ==> |needle| <= |haystack|
    ensures needle == [] ==> r
    ensures EqualsIgnoreCase(haystack, needle) ==> r
  {
    var h, n := Uppercase(haystack), Uppercase(needle);
    assert h == n || n == [] ==> OccursAt(h, n, 0) by {
      if h == n { assert h[0..|n|] == h; }
    }
    exists at: nat | at <= |haystack| :: OccursAt(h, n, at)
  }

  /** `needle` occurs in `haystack` at `at`, ignoring case. */
  predicate MatchesAt(haystack: string, needle: string, at: nat)
  {
    at + |needle| <= |haystack| && EqualsIgnoreCase(haystack[at..at + |needle|], needle)
  }

  /** Upper-casing commutes with taking a slice. */
  lemma UppercaseSlice(s: string, i: nat, j: nat)
    requires i <= j <= |s|
    ensures Uppercase(s[i..j]) == Uppercase(s)[i..j]
  {
    assert forall k :: 0 <= k < j - i ==> Uppercase(s[i..j])[k] == UpperChar(s[i + k]) == Uppercase(s)[i..j][k];
  }

  /** `contains(needle, ignoreCase = true)` holds exactly when the needle
      matches, ignoring case, at some offset of the text. */
  lemma ContainsIgnoreCaseIffMatches(haystack: string, needle: string)
    ensures ContainsIgnoreCase(haystack, needle) <==> exists at: nat :: MatchesAt(haystack, needle, at)
  {
    var h, n := Uppercase(haystack), Uppercase(needle);
    forall at: nat | at + |needle| <= |haystack|
      ensures OccursAt(h, n, at) <==> MatchesAt(haystack, needle, at)
    {
      UppercaseSlice(haystack, at, at + |needle|);
    }
    if ContainsIgnoreCase(haystack, needle) {
      var at: nat :| at <= |haystack| && OccursAt(h, n, at);
      assert MatchesAt(haystack, needle, at);
    }
    if exists at: nat :: MatchesAt(haystack, needle, at) {
      var at: nat :| MatchesAt(haystack, needle, at);
      assert OccursAt(h, n, at);
    }
  }
}
