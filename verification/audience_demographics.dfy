/** The audience panel: the gender, age and country charts built from the
    demographics, the primary gender and its share, the five-country list
    and the fixed device split. */
module AudienceDemographics {
  import opened Collections
  import opened Influencer
  import opened Display

  /** `genderData`: Female, Male and Other, in that order, with the split's
      values. */
  function GenderData(g: GenderSplit): (r: seq<Slice>)
    ensures |r| == 3
    ensures r[0].name == "Female" && r[1].name == "Male" && r[2].name == "Other"
    ensures r[0].value == g.female && r[1].value == g.male && r[2].value == g.other
    ensures SliceTotal(r) == g.male + g.female + g.other
  {
    var r := [Slice("Female", g.female, "#ec4899"),
              Slice("Male", g.male, "#3b82f6"),
              Slice("Other", g.other, "#10b981")];
    assert SliceTotal(r[1..][1..]) == g.other;
    r
  }

  /** The primary gender: Female only when strictly more than Male; a tie
      gives Male, and Other is never considered. */
  function PrimaryGender(g: GenderSplit): (name: string)
    ensures name == "Female" <==> g.female > g.male
    ensures name == "Female" || name == "Male"
  {
    if g.female > g.male then "Female" else "Male"
  }

  /** The majority figure: `Math.max(female, male)`. */
  function Majority(g: GenderSplit): (m: int)
    ensures m >= g.female && m >= g.male
    ensures m == g.female || m == g.male
  {
    if g.female >= g.male then g.female else g.male
  }

  /** The majority figure is the share of the gender named primary, even
      on a tie, and the share of Other plays no part in either. */
  lemma MajorityOfPrimary(g: GenderSplit, other: int)
    ensures Majority(g) == if PrimaryGender(g) == "Female" then g.female else g.male
    ensures PrimaryGender(g.(other := other)) == PrimaryGender(g)
    ensures Majority(g.(other := other)) == Majority(g)
  {
  }

  /** A bar of the age or country chart. */
  datatype Bar = Bar(name: string, percentage: int)

  /** `Object.entries(d).map(([k, v]) => ({ k, v }))`: one bar per key, in
      the object's order. */
  function Bars(d: seq<Entry>): (r: seq<Bar>)
    ensures |r| == |d|
    ensures forall i | 0 <= i < |d| :: r[i].name == d[i].key && r[i].percentage == d[i].value
  {
    seq(|d|, i requires 0 <= i < |d| => Bar(d[i].key, d[i].value))
  }

  function BarTotal(bars: seq<Bar>): int {
    if bars == [] then 0 else bars[0].percentage + BarTotal(bars[1..])
  }

  /** The bars carry the entries unchanged: read back as entries they are
      the object again, and they add up to the same total. */
  lemma {:induction false} BarsKeepEntries(d: seq<Entry>)
    ensures seq(|d|, i requires 0 <= i < |d| => Entry(Bars(d)[i].name, Bars(d)[i].percentage)) == d
    ensures BarTotal(Bars(d)) == SumValues(d)
  {
    if d != [] {
      BarsKeepEntries(d[1..]);
      assert Bars(d)[1..] == Bars(d[1..]);
    }
  }

  /** The age and country charts of the fallback demographics each add up
      to 100 percent. */
  lemma MockBarsAreWhole()
    ensures BarTotal(Bars(MockDemographics.ageGroups)) == 100
    ensures BarTotal(Bars(MockDemographics.topCountries)) == 100
  {
    BarsKeepEntries(MockDemographics.ageGroups);
    BarsKeepEntries(MockDemographics.topCountries);
    MockDemographicsSumTo100();
  }

  /** The compact view's country list: the first five countries. */
  function TopCountries(d: seq<Entry>): (r: seq<Bar>)
    ensures |r| <= 5 && |r| <= |d|
    ensures |r| == 5 || |r| == |d|
    ensures forall i | 0 <= i < |r| :: r[i] == Bar(d[i].key, d[i].value)
  {
    Take(Bars(d), 5)
  }

  /** `deviceUsage`: mobile, desktop and tablet. */
  const DeviceUsage: seq<Slice> := [
    Slice("Mobile", 78, "#8b5cf6"),
    Slice("Desktop", 18, "#06b6d4"),
    Slice("Tablet", 4, "#f59e0b")
  ]

  /** The device split is a whole: its shares add up to 100 percent. */
  lemma DeviceUsageIsWhole()
    ensures SliceTotal(DeviceUsage) == 100
  {
    assert SliceTotal(DeviceUsage[2..]) == 4;
  }
}
