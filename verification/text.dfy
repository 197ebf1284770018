/** Text helpers shared by the dashboard model: decimal rendering of
    naturals (JavaScript's `String(n)` / `n.toString()` on a non-negative
    integer), `toFixed` on non-negative numbers, and `split`/`join` on a
    one-character separator. */
module Text {

  predicate IsDigit(c: char) {
    '0' <= c <= '9'
  }

  function DigitChar(d: nat): (c: char)
    requires d < 10
    ensures IsDigit(c)
    ensures c as int - '0' as int == d
  {
    "0123456789"[d]
  }

  function DigitValue(c: char): (d: nat)
    requires IsDigit(c)
    ensures d < 10
  {
    c as int - '0' as int
  }

  predicate AllDigits(s: string) {
    forall i | 0 <= i < |s| :: IsDigit(s[i])
  }

  /** The shortest decimal representation of `n`, as JavaScript prints an
      integer-valued number: no sign, no leading zero except for "0". */
  function NatToString(n: nat): (s: string)
    ensures |s| >= 1 && AllDigits(s)
    ensures s[0] == '0' ==> n == 0
    decreases n
  {
    if n < 10 then [DigitChar(n)] else NatToString(n / 10) + [DigitChar(n % 10)]
  }

  /** Reads a string of digits back as a number (most significant first). */
  function DecimalValue(s: string): nat
    requires AllDigits(s)
  {
    if s == [] then 0 else DecimalValue(s[..|s| - 1]) * 10 + DigitValue(s[|s| - 1])
  }

  /** Printing a natural and reading it back gives the same natural. */
  lemma {:induction false} DecimalRoundTrip(n: nat)
    ensures DecimalValue(NatToString(n)) == n
    decreases n
  {
    var s := NatToString(n);
    if n >= 10 {
      DecimalRoundTrip(n / 10);
      assert s[..|s| - 1] == NatToString(n / 10);
    }
  }

  /** Distinct naturals print as distinct strings. */
  lemma NatToStringInjective(m: nat, n: nat)
    requires NatToString(m) == NatToString(n)
    ensures m == n
  {
    DecimalRoundTrip(m);
    DecimalRoundTrip(n);
  }

  /** `prefix + x == prefix + y` only when `x == y`. */
  lemma AppendCancel(prefix: string, x: string, y: string)
    requires prefix + x == prefix + y
    ensures x == y
  {
    assert x == (prefix + x)[|prefix|..];
    assert y == (prefix + y)[|prefix|..];
  }

  /** `10^p`. */
  function Pow10(p: nat): (r: nat)
    ensures r >= 1
  {
    if p == 0 then 1 else 10 * Pow10(p - 1)
  }

  /** `n` in exactly `w` decimal digits, zero-padded on the left. */
  function PadDigits(n: nat, w: nat): (s: string)
    requires n < Pow10(w)
    ensures |s| == w && AllDigits(s)
  {
    if w == 0 then [] else PadDigits(n / 10, w - 1) + [DigitChar(n % 10)]
  }

  /** The padded digits read back as `n`. */
  lemma {:induction false} PadDigitsValue(n: nat, w: nat)
    requires n < Pow10(w)
    ensures DecimalValue(PadDigits(n, w)) == n
  {
    if w > 0 {
      var s := PadDigits(n, w);
      PadDigitsValue(n / 10, w - 1);
      assert s[..|s| - 1] == PadDigits(n / 10, w - 1);
    }
  }

  /** `x * scale` rounded to the nearest integer, halves rounded up. */
  function RoundScaled(x: real, scale: nat): (k: int)
    requires scale > 0
    ensures x * scale as real - 0.5 < k as real <= x * scale as real + 0.5
    ensures x >= 0.0 ==> k >= 0
  {
    (x * scale as real + 0.5).Floor
  }

  /** The fixed-point rendering of `k / 10^places`: integer part, a dot and
      exactly `places` fraction digits. */
  function FixedPoint(k: nat, places: nat): (s: string)
    requires places > 0
    ensures |s| > places && s[|s| - places - 1] == '.'
    ensures AllDigits(s[..|s| - places - 1]) && AllDigits(s[|s| - places..])
  {
    DivisionParts(k, Pow10(places));
    NatToString(k / Pow10(places)) + "." + PadDigits(k % Pow10(places), places)
  }

  /** A fixed-point rendering is the quotient `k / 10^places` in decimal,
      a dot, and the remainder `k % 10^places` in exactly `places` digits;
      with `DecimalRoundTrip` and `PadDigitsValue` both read back as the
      numbers they were made from. */
  lemma FixedPointParts(k: nat, places: nat)
    requires places > 0
    ensures var s := FixedPoint(k, places);
      s[..|s| - places - 1] == NatToString(k / Pow10(places)) &&
      s[|s| - places..] == PadDigits(k % Pow10(places), places)
  {
    DivisionParts(k, Pow10(places));
    SplitAtDot(NatToString(k / Pow10(places)), PadDigits(k % Pow10(places), places));
  }

  lemma DivisionParts(k: nat, p: nat)
    requires p > 0
    ensures 0 <= k / p && 0 <= k % p < p
    ensures k / p * p + k % p == k
  {
  }

  lemma SplitAtDot(a: string, b: string)
    ensures var s := a + "." + b;
      s[..|s| - |b| - 1] == a && s[|s| - |b|..] == b
  {
    var s := a + "." + b;
    assert s[..|a|] == a;
    assert s[|a| + 1..] == b;
  }

  /** The number of `10^-places` units a fixed-point rendering spells: its
      integer digits times `10^places` plus its fraction digits. */
  function FixedUnits(s: string, places: nat): int
    requires |s| > places && AllDigits(s[..|s| - places - 1]) && AllDigits(s[|s| - places..])
  {
    DecimalValue(s[..|s| - places - 1]) * Pow10(places) + DecimalValue(s[|s| - places..])
  }

  /** `s` reads back as `x` to `places` decimals: integer digits, a dot
      and exactly `places` fraction digits, which together spell a number
      of `10^-places` units within half a unit of `x * 10^places`. */
  predicate ShowsRounded(s: string, x: real, places: nat) {
    |s| > places && s[|s| - places - 1] == '.' &&
    AllDigits(s[..|s| - places - 1]) && AllDigits(s[|s| - places..]) &&
    x * Pow10(places) as real - 0.5 < FixedUnits(s, places) as real <= x * Pow10(places) as real + 0.5
  }

  lemma FixedPointShowsRounded(x: real, places: nat)
    requires x >= 0.0 && places > 0
    ensures ShowsRounded(FixedPoint(RoundScaled(x, Pow10(places)), places), x, places)
  {
    FixedPointUnits(RoundScaled(x, Pow10(places)), places);
  }

  /** A fixed-point rendering of `k` spells `k` units. */
  lemma FixedPointUnits(k: nat, places: nat)
    requires places > 0
    ensures var s := FixedPoint(k, places);
      AllDigits(s[..|s| - places - 1]) && AllDigits(s[|s| - places..]) &&
      FixedUnits(s, places) == k
  {
    var p := Pow10(places);
    DivisionParts(k, p);
    FixedPointParts(k, places);
    DecimalRoundTrip(k / p);
    PadDigitsValue(k % p, places);
  }

  /** JavaScript's `x.toFixed(places)` for `x >= 0`, with ties rounded up. */
  function ToFixed(x: real, places: nat): (s: string)
    requires x >= 0.0 && places > 0
    ensures ShowsRounded(s, x, places)
  {
    FixedPointShowsRounded(x, places);
    FixedPoint(RoundScaled(x, Pow10(places)), places)
  }

  /** JavaScript's `s.split(sep)` for a one-character separator: the
      segments between separators, empty ones included, and always at least
      one segment (`"".split(" ")` is `[""]`). */
  function Split(s: string, sep: char): (parts: seq<string>)
    ensures |parts| >= 1
    ensures forall i | 0 <= i < |parts| :: sep !in parts[i]
  {
    if s == [] then [[]]
    else if s[0] == sep then [[]] + Split(s[1..], sep)
    else
      var rest := Split(s[1..], sep);
      [[s[0]] + rest[0]] + rest[1..]
  }

  /** JavaScript's `parts.join(sep)`. */
  function Join(parts: seq<string>, sep: string): string {
    if parts == [] then []
    else if |parts| == 1 then parts[0]
    else parts[0] + sep + Join(parts[1..], sep)
  }

  /** Splitting and joining again with the same separator gives the string
      back. */
  lemma {:induction false} JoinSplit(s: string, sep: char)
    ensures Join(Split(s, sep), [sep]) == s
  {
    if s == [] {
    } else if s[0] == sep {
      JoinSplit(s[1..], sep);
      assert Split(s, sep) == [[]] + Split(s[1..], sep);
    } else {
      JoinSplit(s[1..], sep);
      var rest := Split(s[1..], sep);
      var parts := Split(s, sep);
      assert parts[1..] == rest[1..];
      if |rest| == 1 {
        assert s == [s[0]] + rest[0];
      } else {
        assert Join(rest, [sep]) == rest[0] + [sep] + Join(rest[1..], [sep]);
        assert s == [s[0]] + s[1..];
      }
    }
  }
}
