/** Presentation helpers the dashboard components share. `formatNumber` and
    `getVibeColor` are written out identically in several components; they
    are defined once here. */
module Display {
  import opened Text
  import opened Collections

  /** The badge and button variants the components choose between. */
  datatype Variant = Default | Secondary | Destructive | Outline

  /** A badge: its text and its variant. */
  datatype Badge = Badge(text: string, variant: Variant)

  /** One slice of a fixed chart: name, percentage and colour. */
  datatype Slice = Slice(name: string, value: int, color: string)

  function SliceTotal(slices: seq<Slice>): int {
    if slices == [] then 0 else slices[0].value + SliceTotal(slices[1..])
  }

  // ----- formatNumber ------------------------------------------------------

  /** `formatNumber`: millions and thousands with one decimal and an `M` or
      `K` suffix, smaller counts in plain decimal. The suffix is chosen on
      the count itself, before rounding. */
  function FormatNumber(n: nat): (s: string)
    ensures n < 1000 ==>
              AllDigits(s) && DecimalValue(s) == n && |s| >= 1 && (s[0] == '0' ==> n == 0)
    ensures 1000 <= n < 1000000 ==> |s| > 0 && s[|s| - 1] == 'K'
    ensures n >= 1000000 ==> |s| > 0 && s[|s| - 1] == 'M'
  {
    if n >= 1000000 then Scaled(n, 1000000, 'M')
    else if n >= 1000 then Scaled(n, 1000, 'K')
    else DecimalRoundTrip(n); NatToString(n)
  }

  /** `${(n / unit).toFixed(1)}` followed by the suffix. */
  function Scaled(n: nat, unit: nat, suffix: char): (s: string)
    requires unit > 0
    ensures |s| > 0 && s[|s| - 1] == suffix
  {
    ToFixed(n as real / unit as real, 1) + [suffix]
  }

  /** The unit a count of at least 1000 is shown in. */
  function Unit(n: nat): (u: nat)
    ensures u == 1000 || u == 1000000
  {
    if n >= 1000000 then 1000000 else 1000
  }

  /** Read back, a scaled rendering is digits, a dot, one digit and the
      suffix, and the tenths it shows are ten times the count in the unit,
      rounded to the nearest integer. */
  lemma ScaledTenths(n: nat, unit: nat, suffix: char)
    requires unit > 0
    ensures var s := Scaled(n, unit, suffix);
      |s| >= 4 && s[|s| - 3] == '.' && AllDigits(s[..|s| - 3]) && IsDigit(s[|s| - 2]) &&
      var tenths := DecimalValue(s[..|s| - 3]) * 10 + DigitValue(s[|s| - 2]);
      n as real / unit as real * 10.0 - 0.5 < tenths as real <= n as real / unit as real * 10.0 + 0.5
  {
    var x := n as real / unit as real;
    var k := RoundScaled(x, 10);
    assert Pow10(1) == 10;
    var f := FixedPoint(k, 1);
    FixedPointParts(k, 1);
    var s := Scaled(n, unit, suffix);
    assert s == f + [suffix];
    assert s[..|s| - 3] == f[..|f| - 2];
    assert [s[|s| - 2]] == f[|f| - 1..];
    DecimalRoundTrip(k / 10);
    PadDigitsValue(k % 10, 1);
  }

  /** For counts of a thousand or more the shown tenths are the count in
      thousands or millions, whichever threshold it reaches, times ten and
      rounded. */
  lemma FormatNumberTenths(n: nat)
    requires n >= 1000
    ensures var s := FormatNumber(n);
      |s| >= 4 && s[|s| - 3] == '.' && AllDigits(s[..|s| - 3]) && IsDigit(s[|s| - 2]) &&
      var tenths := DecimalValue(s[..|s| - 3]) * 10 + DigitValue(s[|s| - 2]);
      n as real / Unit(n) as real * 10.0 - 0.5 < tenths as real <= n as real / Unit(n) as real * 10.0 + 0.5
  {
    if n >= 1000000 {
      ScaledTenths(n, 1000000, 'M');
    } else {
      ScaledTenths(n, 1000, 'K');
    }
  }

  /** A count below a thousand is printed as is. */
  lemma FormatNumberPlainExample()
    ensures FormatNumber(892) == "892"
  {
    assert NatToString(892) == NatToString(89) + "2" == NatToString(8) + "9" + "2";
  }

  /** The profile's follower count, in thousands. */
  lemma FormatNumberThousandsExample()
    ensures FormatNumber(487200) == "487.2K"
  {
    assert Pow10(1) == 10;
    assert RoundScaled(487200 as real / 1000 as real, 10) == 4872;
    assert NatToString(487) == NatToString(48) + "7" == NatToString(4) + "8" + "7";
    assert PadDigits(2, 1) == PadDigits(0, 0) + "2";
    assert FixedPoint(4872, 1) == "487.2";
  }

  /** The profile's reach, in millions. */
  lemma FormatNumberMillionsExample()
    ensures FormatNumber(1200000) == "1.2M"
  {
    assert Pow10(1) == 10;
    assert RoundScaled(1200000 as real / 1000000 as real, 10) == 12;
    assert PadDigits(2, 1) == PadDigits(0, 0) + "2";
    assert FixedPoint(12, 1) == "1.2";
  }

  /** A count just under a million keeps the `K` suffix, chosen before
      rounding, and rounds up to a thousand thousands. */
  lemma FormatNumberRoundsUpExample()
    ensures FormatNumber(999999) == "1000.0K"
  {
    assert Pow10(1) == 10;
    assert RoundScaled(999999 as real / 1000 as real, 10) == 10000;
    assert NatToString(10) == NatToString(1) + "0";
    assert NatToString(1000) == NatToString(100) + "0" == NatToString(10) + "0" + "0";
    assert PadDigits(0, 1) == PadDigits(0, 0) + "0";
    assert FixedPoint(10000, 1) == "1000.0";
  }

  // ----- getVibeColor ------------------------------------------------------

  /** The vibes that have a colour of their own. */
  const KnownVibes: seq<string> := ["aesthetic", "luxury", "casual", "energetic"]

  const GrayClass: string := "bg-gray-100 text-gray-800"

  /** `getVibeColor`: a colour class per known vibe, gray for any other. */
  function VibeColor(vibe: string): (c: string)
    ensures c == GrayClass <==> vibe !in KnownVibes
  {
    match vibe
    case "aesthetic" => "bg-purple-100 text-purple-800"
    case "luxury" => "bg-yellow-100 text-yellow-800"
    case "casual" => "bg-green-100 text-green-800"
    case "energetic" => "bg-red-100 text-red-800"
    case _ => GrayClass
  }

  /** The known vibes get pairwise different colours. */
  lemma VibeColorsDistinct()
    ensures forall i, j | 0 <= i < j < |KnownVibes| :: VibeColor(KnownVibes[i]) != VibeColor(KnownVibes[j])
  {
    var purple, yellow, green, red :=
      VibeColor("aesthetic"), VibeColor("luxury"), VibeColor("casual"), VibeColor("energetic");
    assert purple[3] == 'p' && yellow[3] == 'y' && green[3] == 'g' && red[3] == 'r';
  }

  // ----- cyclic sample images ----------------------------------------------

  /** `items[index % items.length]`: the sample image or thumbnail of the
      card at `index`. */
  function Cycle<T>(items: seq<T>, index: nat): (x: T)
    requires |items| > 0
    ensures x in items
  {
    items[index % |items|]
  }

  /** With the six sample pictures the components use, the choice repeats
      every six cards, and when the six differ any six consecutive cards
      show six different pictures. */
  lemma CycleWindow<T>(items: seq<T>, i: nat, j: nat)
    requires |items| == 6
    ensures Cycle(items, i + 6) == Cycle(items, i)
    ensures Distinct(items) && i < j < i + 6 ==> Cycle(items, i) != Cycle(items, j)
  {
    assert (i + 6) % 6 == i % 6;
  }
}
