/** The reels tab: per-reel engagement rate and performance badge, the
    filter buttons (every vibe, the first four tags), the filter, the
    summary card over all reels and the cyclic thumbnails. */
module ReelsSection {
  import opened Arith
  import opened Text
  import opened Collections
  import opened Influencer
  import opened Display
  import opened AdvancedAnalytics

  /** `getEngagementRate`: likes and comments per hundred views. The
      division is unguarded, so the views must be positive. It is the rate
      the server averages in its reel analysis. */
  function EngagementRate(views: nat, likes: nat, comments: nat): (rate: real)
    requires views > 0
    ensures rate >= 0.0
    ensures rate * views as real == (likes + comments) as real * 100.0
    ensures rate == InteractionRate(likes, comments, views)
  {
    (likes + comments) as real / views as real * 100.0
  }

  /** The performance badge of a reel: strictly above 5 is high, strictly
      above 2 is good, anything else needs improvement. */
  function Performance(rate: real): (b: Badge)
    ensures b.text == "High Performing" <==> rate > 5.0
    ensures b.text == "Good" <==> 2.0 < rate <= 5.0
    ensures b.text == "Needs Improvement" <==> rate <= 2.0
    ensures b.variant == Default <==> rate > 5.0
    ensures b.variant == Secondary <==> 2.0 < rate <= 5.0
    ensures b.variant == Destructive <==> rate <= 2.0
  {
    if rate > 5.0 then Badge("High Performing", Default)
    else if rate > 2.0 then Badge("Good", Secondary)
    else Badge("Needs Improvement", Destructive)
  }

  /** `x.toFixed(1)` followed by a percent sign, as the rates are shown. */
  function PercentText(x: real): (s: string)
    requires x >= 0.0
    ensures |s| >= 4 && s[|s| - 1] == '%' && s[|s| - 3] == '.'
    ensures ShowsRounded(s[..|s| - 1], x, 1)
  {
    assert (ToFixed(x, 1) + "%")[..|ToFixed(x, 1)|] == ToFixed(x, 1);
    ToFixed(x, 1) + "%"
  }

  /** The filter of the reels tab, the same rule as for posts. */
  function FilteredReels(reels: seq<Reel>, filter: string): (r: seq<Reel>)
    ensures forall x | x in reels :: x in r <==> filter == "all" || filter in x.tags || x.vibe == filter
    ensures forall x | x in r :: x in reels
    ensures filter == "all" ==> r == reels
    ensures IsSubsequence(r, reels)
  {
    var keep := (x: Reel) => filter == "all" || filter in x.tags || x.vibe == filter;
    FilterIsSubsequence(reels, keep);
    if filter == "all" then FilterKeepsAll(reels, keep); Filter(reels, keep)
    else Filter(reels, keep)
  }

  /** `uniqueVibes`: every vibe once, in first-seen order. */
  function UniqueVibes(reels: seq<Reel>): (r: seq<string>)
    ensures Distinct(r)
    ensures forall v :: v in r <==> exists i | 0 <= i < |reels| :: reels[i].vibe == v
    ensures forall i, j | 0 <= i < j < |r| :: IndexOf(ReelVibes(reels), r[i]) < IndexOf(ReelVibes(reels), r[j])
  {
    DedupFirstSeenOrder(ReelVibes(reels));
    Dedup(ReelVibes(reels))
  }

  /** `uniqueTags`: every tag of every reel once, in first-seen order. */
  function UniqueTags(reels: seq<Reel>): (r: seq<string>)
    ensures Distinct(r)
    ensures forall t :: t in r <==> exists i | 0 <= i < |reels| :: t in reels[i].tags
    ensures forall i, j | 0 <= i < j < |r| :: IndexOf(ReelTags(reels), r[i]) < IndexOf(ReelTags(reels), r[j])
  {
    DedupFirstSeenOrder(ReelTags(reels));
    Dedup(ReelTags(reels))
  }

  /** The tag buttons: the first four unique tags. */
  function TagButtons(reels: seq<Reel>): (r: seq<string>)
    ensures |r| <= 4 && |r| <= |UniqueTags(reels)|
    ensures |r| == 4 || r == UniqueTags(reels)
    ensures r == UniqueTags(reels)[..|r|]
  {
    Take(UniqueTags(reels), 4)
  }

  // ----- summary card --------------------------------------------------------

  /** The three counts the summary card adds up. */
  datatype Metric = Views | Likes | Comments

  function MetricOf(reel: Reel, m: Metric): nat {
    match m
    case Views => reel.views
    case Likes => reel.likes
    case Comments => reel.comments
  }

  /** `reels.reduce((sum, reel) => sum + reel.<metric>, 0)`. */
  function Total(reels: seq<Reel>, m: Metric): nat {
    if reels == [] then 0 else Total(reels[..|reels| - 1], m) + MetricOf(reels[|reels| - 1], m)
  }

  lemma {:induction false} TotalAppend(a: seq<Reel>, b: seq<Reel>, m: Metric)
    ensures Total(a + b, m) == Total(a, m) + Total(b, m)
    decreases |b|
  {
    if b == [] {
      assert a + b == a;
    } else {
      var init := b[..|b| - 1];
      assert (a + b)[..|a + b| - 1] == a + init;
      assert (a + b)[|a + b| - 1] == b[|b| - 1];
      TotalAppend(a, init, m);
    }
  }

  /** The card's total views are the server's `totalViews`. */
  lemma {:induction false} TotalViewsAgree(reels: seq<Reel>)
    ensures Total(reels, Views) == TotalViews(reels)
  {
    if reels != [] {
      TotalViewsAgree(reels[..|reels| - 1]);
    }
  }

  /** Dropping reels never raises a total: the card, which adds up all the
      reels, shows at least what the filtered grid holds, and exactly that
      under `"all"`. */
  lemma {:induction false} SubsequenceTotal(a: seq<Reel>, b: seq<Reel>, m: Metric)
    requires IsSubsequence(a, b)
    ensures Total(a, m) <= Total(b, m)
    decreases |b|
  {
    if a != [] {
      TotalAppend([b[0]], b[1..], m);
      assert b == [b[0]] + b[1..];
      if a[0] == b[0] && IsSubsequence(a[1..], b[1..]) {
        SubsequenceTotal(a[1..], b[1..], m);
        TotalAppend([a[0]], a[1..], m);
        assert a == [a[0]] + a[1..];
      } else {
        SubsequenceTotal(a, b[1..], m);
      }
    }
  }

  lemma FilteredTotalAtMost(reels: seq<Reel>, filter: string, m: Metric)
    ensures Total(FilteredReels(reels, filter), m) <= Total(reels, m)
    ensures filter == "all" ==> Total(FilteredReels(reels, filter), m) == Total(reels, m)
  {
    SubsequenceTotal(FilteredReels(reels, filter), reels, m);
  }

  /** Every reel's count is at most the total shown. */
  lemma {:induction false} EachAtMostTotal(reels: seq<Reel>, m: Metric, i: nat)
    requires i < |reels|
    ensures MetricOf(reels[i], m) <= Total(reels, m)
  {
    if i < |reels| - 1 {
      EachAtMostTotal(reels[..|reels| - 1], m, i);
    }
  }

  /** The card's average engagement: the mean of the per-reel rates with
      one decimal, and `NaN%` when there are no reels (0 / 0). */
  function AverageText(reels: seq<Reel>): (s: string)
    requires forall i | 0 <= i < |reels| :: reels[i].views > 0
    ensures reels == [] <==> s == "NaN%"
    ensures |s| >= 4 && s[|s| - 1] == '%'
    ensures reels != [] ==> s == PercentText(AvgReelEngagementRate(reels))
    ensures reels != [] ==> ShowsRounded(s[..|s| - 1], AvgReelEngagementRate(reels), 1)
  {
    if reels == [] then "NaN%" else PercentText(AvgReelEngagementRate(reels))
  }

  /** The four summary cards: total views, likes and comments as
      `formatNumber` shows them, and the average engagement. */
  datatype Summary = Summary(views: string, likes: string, comments: string, average: string)

  /** The summary card adds up every reel, not the filtered grid below it:
      each total is the one over all reels, the views being the server's
      `totalViews` (`FilteredTotalAtMost` relates these to any filter). */
  function SummaryOf(reels: seq<Reel>): (s: Summary)
    requires forall i | 0 <= i < |reels| :: reels[i].views > 0
    ensures s.views == FormatNumber(TotalViews(reels))
    ensures s.likes == FormatNumber(Total(reels, Likes))
    ensures s.comments == FormatNumber(Total(reels, Comments))
    ensures s.average == AverageText(reels)
  {
    TotalViewsAgree(reels);
    Summary(
      FormatNumber(Total(reels, Views)),
      FormatNumber(Total(reels, Likes)),
      FormatNumber(Total(reels, Comments)),
      AverageText(reels))
  }

  /** Every reel has views and a rate in `[lo, hi]`. */
  predicate RatesWithin(reels: seq<Reel>, lo: real, hi: real) {
    forall i | 0 <= i < |reels| ::
      reels[i].views > 0 && lo <= InteractionRate(reels[i].likes, reels[i].comments, reels[i].views) <= hi
  }

  lemma {:induction false} SumReelRatesBounds(reels: seq<Reel>, lo: real, hi: real)
    requires RatesWithin(reels, lo, hi)
    ensures |reels| as real * lo <= SumReelRates(reels) <= |reels| as real * hi
    decreases |reels|
  {
    if reels == [] {
      assert |reels| as real == 0.0;
    } else {
      var init := reels[..|reels| - 1];
      var r := LastRateStep(reels, lo, hi);
      SumReelRatesBounds(init, lo, hi);
      AddWithinBounds(SumReelRates(init), r, SumReelRates(reels), |init| as real, |reels| as real, lo, hi);
    }
  }

  /** Taking the last reel off: the rest keeps its rates within bounds, and
      the sum is the rest's sum plus the last rate `r`. */
  lemma LastRateStep(reels: seq<Reel>, lo: real, hi: real) returns (r: real)
    requires reels != [] && RatesWithin(reels, lo, hi)
    ensures RatesWithin(reels[..|reels| - 1], lo, hi)
    ensures lo <= r <= hi
    ensures SumReelRates(reels) == SumReelRates(reels[..|reels| - 1]) + r
  {
    var init, last := reels[..|reels| - 1], reels[|reels| - 1];
    assert RatesWithin(init, lo, hi) by {
      forall i | 0 <= i < |init| ensures init[i] == reels[i] { }
    }
    r := InteractionRate(last.likes, last.comments, last.views);
  }

  /** When every reel's rate lies in `[lo, hi]`, so does the average the
      card shows. */
  lemma AverageWithin(reels: seq<Reel>, lo: real, hi: real)
    requires |reels| > 0
    requires forall i | 0 <= i < |reels| :: reels[i].views > 0
    requires forall i | 0 <= i < |reels| ::
      lo <= EngagementRate(reels[i].views, reels[i].likes, reels[i].comments) <= hi
    ensures lo <= AvgReelEngagementRate(reels) <= hi
  {
    assert RatesWithin(reels, lo, hi) by {
      forall i | 0 <= i < |reels|
        ensures EngagementRate(reels[i].views, reels[i].likes, reels[i].comments) ==
          InteractionRate(reels[i].likes, reels[i].comments, reels[i].views)
      {
      }
    }
    SumReelRatesBounds(reels, lo, hi);
    DivideBoundsClosed(SumReelRates(reels), |reels| as real, lo, hi);
  }

  // ----- thumbnails ----------------------------------------------------------

  const SampleThumbnails: seq<string> := [
    "https://images.unsplash.com/photo-1501281668745-f7f57925c3b4?w=300&h=500&fit=crop",
    "https://images.unsplash.com/photo-1694878982074-d8d4bc4581b9?w=300&h=500&fit=crop",
    "https://images.unsplash.com/photo-1516280440614-37939bbacd81?w=300&h=500&fit=crop",
    "https://images.unsplash.com/photo-1554151228-14d9def656e4?w=300&h=500&fit=crop",
    "https://images.unsplash.com/photo-1571019613454-1cb2f99b2d8b?w=300&h=500&fit=crop",
    "https://images.unsplash.com/photo-1506629905333-baa1c3a9e2b7?w=300&h=500&fit=crop"
  ]

  /** The thumbnail of the card at `index` of the filtered grid: always one
      of the six, repeating every six cards, and six consecutive cards show
      six different thumbnails. */
  lemma ReelThumbnails(i: nat, j: nat)
    ensures Cycle(SampleThumbnails, i) in SampleThumbnails
    ensures Cycle(SampleThumbnails, i + 6) == Cycle(SampleThumbnails, i)
    ensures i < j < i + 6 ==> Cycle(SampleThumbnails, i) != Cycle(SampleThumbnails, j)
  {
    SampleThumbnailsDistinct();
    CycleWindow(SampleThumbnails, i, j);
  }

  lemma SampleThumbnailsDistinct()
    ensures Distinct(SampleThumbnails)
  {
    var marks := "491=b7";
    assert forall i | 0 <= i < 6 :: SampleThumbnails[i][59] == marks[i];
  }
}
