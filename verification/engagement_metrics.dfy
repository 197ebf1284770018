/** The engagement panel: the engagement-rate verdict, the growth badge and
    the fixed split of interactions by type. */
module EngagementMetrics {
  import opened Display

  /** The verdict under the engagement rate: strictly above 3 is excellent,
      strictly above 1.5 is good. */
  function EngagementVerdict(rate: real): (v: string)
    ensures v == "Excellent" <==> rate > 3.0
    ensures v == "Good" <==> 1.5 < rate <= 3.0
    ensures v == "Needs Improvement" <==> rate <= 1.5
  {
    if rate > 3.0 then "Excellent" else if rate > 1.5 then "Good" else "Needs Improvement"
  }

  /** A verdict's position from worst to best. */
  function VerdictRank(v: string): nat {
    match v
    case "Excellent" => 2
    case "Good" => 1
    case _ => 0
  }

  /** A higher rate never gets a worse verdict. */
  lemma EngagementVerdictMonotone(a: real, b: real)
    requires a <= b
    ensures VerdictRank(EngagementVerdict(a)) <= VerdictRank(EngagementVerdict(b))
  {
  }

  /** The growth badge is highlighted exactly above ten percent. */
  function GrowthBadgeVariant(growthRate: real): (v: Variant)
    ensures v == Default <==> growthRate > 10.0
    ensures v == Secondary <==> growthRate <= 10.0
  {
    if growthRate > 10.0 then Default else Secondary
  }

  /** `engagementByType`: likes, comments and shares. */
  const EngagementByType: seq<Slice> := [
    Slice("Likes", 75, "#ef4444"),
    Slice("Comments", 20, "#3b82f6"),
    Slice("Shares", 5, "#10b981")
  ]

  /** The split is a whole: its shares add up to 100 percent. */
  lemma EngagementByTypeIsWhole()
    ensures SliceTotal(EngagementByType) == 100
  {
    assert SliceTotal(EngagementByType[2..]) == 5;
  }
}
