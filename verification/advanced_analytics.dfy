/** The server's derived analytics for a stored aggregate: per-post
    performance, content-category counts, reel totals, views per vibe, the
    five tags with the most weighted engagement, and compound growth
    projections.

    The source divides by the number of posts and reels, by the follower
    count and by each reel's views without checking them; `Analyzable`
    states what those divisions need, and every aggregate the server stores
    meets it (see `InfluencerRoutes`). */
module AdvancedAnalytics {
  import opened Arith
  import opened Text
  import opened Collections
  import opened Influencer
  import opened MockContent

  predicate Analyzable(data: InfluencerData) {
    |data.posts| > 0 && |data.reels| > 0 && data.profile.followers > 0 &&
    forall i | 0 <= i < |data.reels| :: data.reels[i].views > 0
  }

  /** `(likes + comments) / base * 100`: the engagement rate of a post
      against the follower count, or of a reel against its views. */
  function InteractionRate(likes: nat, comments: nat, base: nat): (rate: real)
    requires base > 0
    ensures rate >= 0.0
    ensures rate * base as real == (likes + comments) as real * 100.0
  {
    (likes + comments) as real / base as real * 100.0
  }

  // ----- content analysis -------------------------------------------------

  /** `engagementRate` is the string `toFixed(2)` produces. */
  datatype PostPerformance = PostPerformance(
    id: string,
    engagementRate: string,
    viralPotential: string,
    optimalPostingTime: string)

  /** `likes > avgLikes * 1.5 ? 'high' : 'normal'`. */
  function ViralPotential(likes: nat, avgLikes: nat): (v: string)
    ensures v == "high" || v == "normal"
    ensures v == "high" <==> 2 * likes > 3 * avgLikes
  {
    if likes as real > avgLikes as real * 1.5 then "high" else "normal"
  }

  /** A post's record: its id, its engagement rate against the followers
      rendered with two decimals, its viral verdict and the fixed posting
      time. */
  function PerformanceOf(post: Post, followers: nat, avgLikes: nat): (p: PostPerformance)
    requires followers > 0
    ensures p.id == post.id
    ensures p.engagementRate == ToFixed(InteractionRate(post.likes, post.comments, followers), 2)
    ensures ShowsRounded(p.engagementRate, InteractionRate(post.likes, post.comments, followers), 2)
    ensures p.viralPotential == "high" <==> 2 * post.likes > 3 * avgLikes
    ensures p.optimalPostingTime == "6:00 PM"
  {
    PostPerformance(
      post.id,
      ToFixed(InteractionRate(post.likes, post.comments, followers), 2),
      ViralPotential(post.likes, avgLikes),
      "6:00 PM")
  }

  /** 5 000 likes and 200 comments against 100 000 followers is a 5.2%
      engagement rate, rendered with two decimals. */
  lemma PerformanceExample(post: Post)
    requires post.likes == 5000 && post.comments == 200
    ensures PerformanceOf(post, 100000, 4000).engagementRate == "5.20"
    ensures PerformanceOf(post, 100000, 4000).viralPotential == "normal"
    ensures PerformanceOf(post, 100000, 3000).viralPotential == "high"
  {
    assert InteractionRate(5000, 200, 100000) == 5.2;
    assert Pow10(2) == 100;
    assert RoundScaled(5.2, 100) == 520;
    assert PadDigits(0, 1) == "0";
    assert PadDigits(20, 2) == PadDigits(2, 1) + "0";
    assert FixedPoint(520, 2) == NatToString(5) + "." + PadDigits(20, 2);
  }

  /** `posts.map(...)`: one record per post, same ids, same order. */
  function PostPerformances(posts: seq<Post>, followers: nat, avgLikes: nat): (r: seq<PostPerformance>)
    requires followers > 0
    ensures |r| == |posts|
    ensures forall i | 0 <= i < |posts| :: r[i].id == posts[i].id
    ensures forall i | 0 <= i < |posts| ::
      (r[i].viralPotential == "high" <==> 2 * posts[i].likes > 3 * avgLikes)
    ensures forall i | 0 <= i < |posts| ::
      ShowsRounded(r[i].engagementRate, InteractionRate(posts[i].likes, posts[i].comments, followers), 2)
  {
    seq(|posts|, i requires 0 <= i < |posts| => PerformanceOf(posts[i], followers, avgLikes))
  }

  /** The number of posts whose tags hold `tag`. */
  function CountTagged(posts: seq<Post>, tag: string): (n: nat)
    ensures n <= |posts|
  {
    if posts == [] then 0
    else (if tag in posts[0].tags then 1 else 0) + CountTagged(posts[1..], tag)
  }

  /** `p => p.tags.includes(tag)`. */
  function Tagged(tag: string): Post -> bool {
    (p: Post) => tag in p.tags
  }

  /** `posts.filter(p => p.tags.includes(tag)).length`: the number of posts
      carrying the tag. */
  function PostsTagged(posts: seq<Post>, tag: string): (n: nat)
    ensures n == CountTagged(posts, tag)
    ensures n == 0 <==> forall p | p in posts :: tag !in p.tags
    ensures n == |posts| <==> forall p | p in posts :: tag in p.tags
  {
    FilterCountsTagged(posts, tag);
    |Filter(posts, Tagged(tag))|
  }

  lemma {:induction false} FilterCountsTagged(posts: seq<Post>, tag: string)
    ensures |Filter(posts, Tagged(tag))| == CountTagged(posts, tag)
  {
    if posts != [] {
      FilterCountsTagged(posts[1..], tag);
    }
  }

  datatype ContentCategories = ContentCategories(fashion: nat, travel: nat, food: nat, lifestyle: nat)

  /** `contentCategories`: for each of the four words, the number of posts
      tagged with it. */
  function ContentCategoriesOf(posts: seq<Post>): (c: ContentCategories)
    ensures c.fashion == CountTagged(posts, "fashion") && c.travel == CountTagged(posts, "travel")
    ensures c.food == CountTagged(posts, "food") && c.lifestyle == CountTagged(posts, "lifestyle")
    ensures c.fashion <= |posts| && c.travel <= |posts| && c.food <= |posts| && c.lifestyle <= |posts|
  {
    ContentCategories(
      PostsTagged(posts, "fashion"), PostsTagged(posts, "travel"),
      PostsTagged(posts, "food"), PostsTagged(posts, "lifestyle"))
  }

  function SumQuality(posts: seq<Post>): int {
    if posts == [] then 0 else SumQuality(posts[..|posts| - 1]) + posts[|posts| - 1].qualityScore
  }

  /** The arithmetic mean of the quality scores. */
  function AvgQualityScore(posts: seq<Post>): real
    requires |posts| > 0
  {
    SumQuality(posts) as real / |posts| as real
  }

  lemma {:induction false} SumQualityBounds(posts: seq<Post>, lo: int, hi: int)
    requires forall p | p in posts :: lo <= p.qualityScore < hi
    ensures |posts| * lo <= SumQuality(posts)
    ensures posts != [] ==> SumQuality(posts) < |posts| * hi
    decreases |posts|
  {
    if posts != [] {
      var init, last := posts[..|posts| - 1], posts[|posts| - 1];
      assert forall p | p in init :: p in posts;
      SumQualityBounds(init, lo, hi);
      assert last in posts;
      assert SumQuality(posts) == SumQuality(init) + last.qualityScore;
      AddWithinIntBounds(SumQuality(init), last.qualityScore, |init|, lo, hi);
    }
  }

  /** When every score lies in `[lo, hi)`, so does their mean. */
  lemma AvgQualityWithin(posts: seq<Post>, lo: int, hi: int)
    requires |posts| > 0
    requires forall p | p in posts :: lo <= p.qualityScore < hi
    ensures lo as real <= AvgQualityScore(posts) < hi as real
  {
    SumQualityBounds(posts, lo, hi);
    ProductAsReal(|posts|, lo);
    ProductAsReal(|posts|, hi);
    DivideBounds(SumQuality(posts) as real, |posts| as real, lo as real, hi as real);
  }

  datatype ContentAnalysis = ContentAnalysis(
    postPerformance: seq<PostPerformance>,
    contentCategories: ContentCategories,
    avgQualityScore: real)

  // ----- reel analysis ------------------------------------------------------

  function TotalViews(reels: seq<Reel>): nat {
    if reels == [] then 0 else TotalViews(reels[..|reels| - 1]) + reels[|reels| - 1].views
  }

  function SumReelRates(reels: seq<Reel>): (s: real)
    requires forall i | 0 <= i < |reels| :: reels[i].views > 0
    ensures s >= 0.0
  {
    if reels == [] then 0.0
    else
      var last := reels[|reels| - 1];
      SumReelRates(reels[..|reels| - 1]) + InteractionRate(last.likes, last.comments, last.views)
  }

  /** The mean of the per-reel engagement rates. */
  function AvgReelEngagementRate(reels: seq<Reel>): (avg: real)
    requires |reels| > 0
    requires forall i | 0 <= i < |reels| :: reels[i].views > 0
    ensures avg >= 0.0
  {
    SumReelRates(reels) / |reels| as real
  }

  /** Summed views of the reels with vibe `v`. */
  function ViewsWithVibe(reels: seq<Reel>, v: string): nat {
    if reels == [] then 0
    else
      var last := reels[|reels| - 1];
      ViewsWithVibe(reels[..|reels| - 1], v) + (if last.vibe == v then last.views else 0)
  }

  /** `topPerformingVibe`: the reduce that adds each reel's views under its
      vibe, reel by reel. */
  function VibeTotals(reels: seq<Reel>): seq<Entry> {
    if reels == [] then []
    else
      var last := reels[|reels| - 1];
      Bump(VibeTotals(reels[..|reels| - 1]), last.vibe, last.views)
  }

  /** The vibe totals name each vibe that occurs once, in first-seen order,
      hold under each vibe the views of the reels with that vibe (and 0 for
      a vibe that never occurs), and add up to the total views. */
  lemma {:induction false} VibeTotalsMeaning(reels: seq<Reel>)
    ensures Keys(VibeTotals(reels)) == Dedup(ReelVibes(reels))
    ensures forall v :: Lookup(VibeTotals(reels), v) == ViewsWithVibe(reels, v)
    ensures SumValues(VibeTotals(reels)) == TotalViews(reels)
  {
    if reels != [] {
      var init, last := reels[..|reels| - 1], reels[|reels| - 1];
      VibeTotalsMeaning(init);
      BumpMeaning(VibeTotals(init), last.vibe, last.views);
      assert ReelVibes(reels)[..|reels| - 1] == ReelVibes(init);
      SumValuesBump(VibeTotals(init), last.vibe, last.views);
    }
  }

  /** The reduce, as the loop it performs over an accumulator object. */
  method AccumulateVibeViews(reels: seq<Reel>) returns (acc: seq<Entry>)
    ensures acc == VibeTotals(reels)
    ensures Keys(acc) == Dedup(ReelVibes(reels))
    ensures forall i | 0 <= i < |acc| :: acc[i].value == ViewsWithVibe(reels, acc[i].key)
    ensures SumValues(acc) == TotalViews(reels)
  {
    acc := [];
    var i := 0;
    while i < |reels|
      invariant 0 <= i <= |reels|
      invariant acc == VibeTotals(reels[..i])
    {
      assert reels[..i + 1][..i] == reels[..i];
      acc := Bump(acc, reels[i].vibe, reels[i].views);
      i := i + 1;
    }
    assert reels[..i] == reels;
    VibeTotalsMeaning(reels);
    forall i | 0 <= i < |acc| ensures acc[i].value == ViewsWithVibe(reels, acc[i].key) {
      LookupDistinct(acc, i);
    }
  }

  datatype ReelAnalysis = ReelAnalysis(
    totalViews: nat,
    avgEngagementRate: real,
    topPerformingVibe: seq<Entry>)

  // ----- content preferences --------------------------------------------

  /** Σ over posts of (occurrences of `tag` in the post's tags) ·
      (likes + comments). */
  function TagWeight(posts: seq<Post>, tag: string): nat {
    if posts == [] then 0
    else
      var last := posts[|posts| - 1];
      TagWeight(posts[..|posts| - 1], tag) + Count(last.tags, tag) * (last.likes + last.comments)
  }

  /** `post.tags.forEach(tag => acc[tag] = (acc[tag] || 0) + w)`. */
  function AddTags(acc: seq<Entry>, tags: seq<string>, w: nat): seq<Entry> {
    if tags == [] then acc
    else Bump(AddTags(acc, tags[..|tags| - 1], w), tags[|tags| - 1], w)
  }

  /** The accumulator after the reduce over `posts`. */
  function TagTotals(posts: seq<Post>): seq<Entry> {
    if posts == [] then []
    else
      var last := posts[|posts| - 1];
      AddTags(TagTotals(posts[..|posts| - 1]), last.tags, last.likes + last.comments)
  }

  lemma {:induction false} AddTagsKeys(acc: seq<Entry>, seen: seq<string>, tags: seq<string>, w: nat)
    requires Keys(acc) == Dedup(seen)
    ensures Keys(AddTags(acc, tags, w)) == Dedup(seen + tags)
    decreases |tags|
  {
    if tags == [] {
      assert seen + tags == seen;
    } else {
      var init, last := tags[..|tags| - 1], tags[|tags| - 1];
      assert seen + tags == (seen + init) + [last] by {
        assert tags == init + [last];
      }
      AddTagsKeys(acc, seen, init, w);
      BumpKeys(AddTags(acc, init, w), last, w);
      DedupSnoc(seen + init, last);
    }
  }

  lemma {:induction false} AddTagsLookup(acc: seq<Entry>, tags: seq<string>, w: nat, k: string)
    ensures Lookup(AddTags(acc, tags, w), k) == Lookup(acc, k) + Count(tags, k) * w
    decreases |tags|
  {
    if tags != [] {
      var init, last := tags[..|tags| - 1], tags[|tags| - 1];
      AddTagsLookup(acc, init, w, k);
      BumpLookup(AddTags(acc, init, w), last, w, k);
      assert Count(tags, k) == Count(init, k) + (if last == k then 1 else 0);
      if last == k {
        MultiplySucc(Count(init, k), w);
      }
    }
  }

  lemma MultiplySucc(c: nat, w: nat)
    ensures (c + 1) * w == c * w + w
  {
  }

  /** The tag accumulator names each tag once, in first-seen order, and
      holds each tag's weighted engagement. */
  lemma {:induction false} TagTotalsMeaning(posts: seq<Post>)
    ensures Keys(TagTotals(posts)) == Dedup(PostTags(posts))
    ensures forall k :: Lookup(TagTotals(posts), k) == TagWeight(posts, k)
  {
    if posts != [] {
      var init, last := posts[..|posts| - 1], posts[|posts| - 1];
      TagTotalsMeaning(init);
      AddTagsKeys(TagTotals(init), PostTags(init), last.tags, last.likes + last.comments);
      forall k ensures Lookup(TagTotals(posts), k) == TagWeight(posts, k) {
        AddTagsLookup(TagTotals(init), last.tags, last.likes + last.comments, k);
      }
    }
  }

  /** `Object.entries(acc).sort((a, b) => b - a).slice(0, 5)`. */
  function ContentPreferences(posts: seq<Post>): seq<Entry> {
    Take(SortDesc(TagTotals(posts)), 5)
  }

  /** The sorted tag totals: non-increasing, ties in first-seen order, and
      each entry a tag of the posts with its weighted engagement. */
  lemma SortedTagTotals(posts: seq<Post>)
    ensures Descending(SortDesc(TagTotals(posts)))
    ensures SortedStable(SortDesc(TagTotals(posts)), PostTags(posts))
    ensures forall i | 0 <= i < |SortDesc(TagTotals(posts))| ::
      SortDesc(TagTotals(posts))[i].key in PostTags(posts) &&
      SortDesc(TagTotals(posts))[i].value == TagWeight(posts, SortDesc(TagTotals(posts))[i].key)
  {
    var totals := TagTotals(posts);
    var sorted := SortDesc(totals);
    var order := PostTags(posts);
    TagTotalsMeaning(posts);
    DedupFirstSeenOrder(order);
    SortDescIsDescending(totals);
    SortDescStable(totals, order);
    forall i | 0 <= i < |sorted|
      ensures sorted[i].key in order && sorted[i].value == TagWeight(posts, sorted[i].key)
    {
      assert sorted[i] in multiset(totals);
      var k :| 0 <= k < |totals| && totals[k] == sorted[i];
      LookupDistinct(totals, k);
      assert Keys(totals)[k] == sorted[i].key;
    }
  }

  /** What the top-5 list promises: at most five tags, each a tag of the
      posts with its weighted engagement, non-increasing, ties in first-seen
      order, no tag twice. */
  lemma ContentPreferencesMeaning(posts: seq<Post>)
    ensures |ContentPreferences(posts)| <= 5
    ensures Descending(ContentPreferences(posts))
    ensures forall i | 0 <= i < |ContentPreferences(posts)| ::
      ContentPreferences(posts)[i].key in PostTags(posts) &&
      ContentPreferences(posts)[i].value == TagWeight(posts, ContentPreferences(posts)[i].key)
    ensures SortedStable(ContentPreferences(posts), PostTags(posts))
    ensures Distinct(Keys(ContentPreferences(posts)))
  {
    var sorted := SortDesc(TagTotals(posts));
    var prefs := ContentPreferences(posts);
    SortedTagTotals(posts);
    assert forall i | 0 <= i < |prefs| :: prefs[i] == sorted[i];
    forall i, j | 0 <= i < j < |prefs| ensures Keys(prefs)[i] != Keys(prefs)[j] {
      assert Before(prefs[i], prefs[j], PostTags(posts));
    }
  }

  /** Every tag the top-5 list leaves out has no more weighted engagement
      than the fifth tag it keeps. */
  lemma ContentPreferencesOmitOnlySmaller(posts: seq<Post>, t: string)
    requires t in PostTags(posts)
    requires t !in Keys(ContentPreferences(posts))
    ensures |ContentPreferences(posts)| == 5
    ensures TagWeight(posts, t) <= ContentPreferences(posts)[4].value
  {
    var totals := TagTotals(posts);
    TagTotalsMeaning(posts);
    var k :| 0 <= k < |totals| && Keys(totals)[k] == t;
    LookupDistinct(totals, k);
    assert totals[k] !in ContentPreferences(posts);
    TopOmitsOnlySmaller(totals, 5, totals[k]);
  }

  /** `post.tags.forEach(...)`: one post's tags added to the accumulator,
      each tag's entry growing by `w` per occurrence. */
  method AddPostTags(acc0: seq<Entry>, tags: seq<string>, w: nat) returns (acc: seq<Entry>)
    ensures acc == AddTags(acc0, tags, w)
  {
    acc := acc0;
    var j := 0;
    while j < |tags|
      invariant 0 <= j <= |tags|
      invariant acc == AddTags(acc0, tags[..j], w)
    {
      assert tags[..j + 1][..j] == tags[..j];
      acc := Bump(acc, tags[j], w);
      j := j + 1;
    }
    assert tags[..j] == tags;
  }

  /** Each entry of the tag accumulator holds its tag's weighted
      engagement. */
  lemma TagTotalsEntries(posts: seq<Post>)
    ensures forall i | 0 <= i < |TagTotals(posts)| ::
      TagTotals(posts)[i].value == TagWeight(posts, TagTotals(posts)[i].key)
  {
    var acc := TagTotals(posts);
    TagTotalsMeaning(posts);
    forall i | 0 <= i < |acc| ensures acc[i].value == TagWeight(posts, acc[i].key) {
      LookupDistinct(acc, i);
    }
  }

  /** The reduce over posts, each adding its tags weighted by its likes
      plus comments. */
  method AccumulateTagWeights(posts: seq<Post>) returns (acc: seq<Entry>)
    ensures acc == TagTotals(posts)
    ensures Keys(acc) == Dedup(PostTags(posts))
    ensures forall i | 0 <= i < |acc| :: acc[i].value == TagWeight(posts, acc[i].key)
  {
    acc := [];
    var i := 0;
    while i < |posts|
      invariant 0 <= i <= |posts|
      invariant acc == TagTotals(posts[..i])
    {
      assert posts[..i + 1][..i] == posts[..i];
      acc := AddPostTags(acc, posts[i].tags, posts[i].likes + posts[i].comments);
      i := i + 1;
    }
    assert posts[..i] == posts;
    TagTotalsMeaning(posts);
    TagTotalsEntries(posts);
  }

  /** `analyzeContentPreferences`: accumulate, sort descending, keep five. */
  method AnalyzeContentPreferences(posts: seq<Post>) returns (prefs: seq<Entry>)
    ensures prefs == ContentPreferences(posts)
    ensures |prefs| <= 5
    ensures Descending(prefs)
    ensures forall i | 0 <= i < |prefs| ::
      prefs[i].key in PostTags(posts) && prefs[i].value == TagWeight(posts, prefs[i].key)
    ensures forall i, j | 0 <= i < j < |prefs| && prefs[i].value == prefs[j].value ::
      IndexOf(PostTags(posts), prefs[i].key) < IndexOf(PostTags(posts), prefs[j].key)
    ensures forall t | t in PostTags(posts) && t !in Keys(prefs) ::
      |prefs| == 5 && TagWeight(posts, t) <= prefs[4].value
  {
    var acc := AccumulateTagWeights(posts);
    prefs := Take(SortDesc(acc), 5);
    ContentPreferencesMeaning(posts);
    forall i, j | 0 <= i < j < |prefs| && prefs[i].value == prefs[j].value
      ensures IndexOf(PostTags(posts), prefs[i].key) < IndexOf(PostTags(posts), prefs[j].key)
    {
      assert Before(prefs[i], prefs[j], PostTags(posts));
    }
    forall t | t in PostTags(posts) && t !in Keys(prefs)
      ensures |prefs| == 5 && TagWeight(posts, t) <= prefs[4].value
    {
      ContentPreferencesOmitOnlySmaller(posts, t);
    }
  }

  // ----- growth projection and hourly engagement ---------------------------

  function Pow(b: real, n: nat): real {
    if n == 0 then 1.0 else b * Pow(b, n - 1)
  }

  lemma {:induction false} PowGrows(b: real, m: nat, n: nat)
    requires b >= 1.0
    requires m <= n
    ensures 1.0 <= Pow(b, m) <= Pow(b, n)
  {
    if n > m {
      PowGrows(b, m, n - 1);
      assert Pow(b, n) == b * Pow(b, n - 1);
    } else if m > 0 {
      PowGrows(b, 0, m - 1);
      assert Pow(b, m) == b * Pow(b, m - 1);
    }
  }

  lemma PowAtLeastBase(b: real, n: nat)
    requires b >= 1.0 && n >= 1
    ensures b <= Pow(b, n)
  {
    PowGrows(b, 0, n - 1);
    MultiplyMonotone(b, 1.0, Pow(b, n - 1));
  }

  datatype GrowthProjection = GrowthProjection(oneMonth: int, threeMonth: int, sixMonth: int)

  /** `Math.floor(totalReach * (1 + growthRate / 100) ** months)` for 1, 3
      and 6 months. With non-negative growth the projections never shrink:
      today's reach ≤ one month ≤ three months ≤ six months. */
  function GrowthProjectionOf(a: Analytics): (g: GrowthProjection)
    ensures a.growthRate >= 0.0 ==>
              a.totalReach <= g.oneMonth <= g.threeMonth <= g.sixMonth
  {
    var factor := 1.0 + a.growthRate / 100.0;
    if a.growthRate >= 0.0 then
      ProjectionsMonotone(a.totalReach, factor);
      Projection(a.totalReach, factor)
    else
      Projection(a.totalReach, factor)
  }

  /** `reach` compounded by `factor` for 1, 3 and 6 months, rounded down. */
  function Projection(reach: nat, factor: real): GrowthProjection {
    GrowthProjection(
      (reach as real * factor).Floor,
      (reach as real * Pow(factor, 3)).Floor,
      (reach as real * Pow(factor, 6)).Floor)
  }

  lemma ProjectionsMonotone(reach: nat, factor: real)
    requires factor >= 1.0
    ensures reach <= Projection(reach, factor).oneMonth
    ensures Projection(reach, factor).oneMonth <= Projection(reach, factor).threeMonth
    ensures Projection(reach, factor).threeMonth <= Projection(reach, factor).sixMonth
  {
    var p3, p6 := Pow(factor, 3), Pow(factor, 6);
    PowAtLeastBase(factor, 3);
    PowGrows(factor, 3, 6);
    ScaledFloorChain(reach, factor, p3, p6);
  }

  lemma ScaledFloorChain(reach: nat, x: real, y: real, z: real)
    requires 1.0 <= x <= y <= z
    ensures reach <= (reach as real * x).Floor
    ensures (reach as real * x).Floor <= (reach as real * y).Floor <= (reach as real * z).Floor
  {
    MultiplyMonotone(reach as real, 1.0, x);
    MultiplyMonotone(reach as real, x, y);
    MultiplyMonotone(reach as real, y, z);
  }

  /** A reach of 1 000 000 growing 10% a month. */
  lemma GrowthProjectionExample(a: Analytics)
    requires a.totalReach == 1000000 && a.growthRate == 10.0
    ensures GrowthProjectionOf(a) == GrowthProjection(1100000, 1331000, 1771561)
  {
    assert Pow(1.1, 3) == 1.331 by {
      assert Pow(1.1, 1) == 1.1;
      assert Pow(1.1, 2) == 1.21;
    }
    assert Pow(1.1, 6) == 1.771561 by {
      assert Pow(1.1, 4) == 1.4641;
      assert Pow(1.1, 5) == 1.61051;
    }
  }

  datatype HourEngagement = HourEngagement(hour: nat, engagement: nat)

  /** `generateEngagementByHour`: 24 synthetic buckets, one per hour. */
  function EngagementByHour(draws: seq<real>): (r: seq<HourEngagement>)
    requires |draws| == 24
    requires forall i | 0 <= i < 24 :: IsDraw(draws[i])
    ensures |r| == 24
    ensures forall i | 0 <= i < 24 :: r[i].hour == i && 20 <= r[i].engagement < 120
  {
    seq(24, i requires 0 <= i < 24 => HourEngagement(i, Draw(draws[i], 100) + 20))
  }

  datatype AudienceInsights = AudienceInsights(
    engagementByTimeOfDay: seq<HourEngagement>,
    contentPreferences: seq<Entry>,
    growthProjection: GrowthProjection)

  datatype AdvancedAnalyticsReport = AdvancedAnalyticsReport(
    contentAnalysis: ContentAnalysis,
    reelAnalysis: ReelAnalysis,
    audienceInsights: AudienceInsights)

  /** `generateAdvancedAnalytics` as a value. */
  function AnalyticsOf(data: InfluencerData, hourDraws: seq<real>): (r: AdvancedAnalyticsReport)
    requires Analyzable(data)
    requires |hourDraws| == 24 && forall i | 0 <= i < 24 :: IsDraw(hourDraws[i])
    ensures |r.contentAnalysis.postPerformance| == |data.posts|
    ensures r.reelAnalysis.totalViews == SumValues(r.reelAnalysis.topPerformingVibe)
    ensures |r.audienceInsights.contentPreferences| <= 5
  {
    VibeTotalsMeaning(data.reels);
    ContentPreferencesMeaning(data.posts);
    AdvancedAnalyticsReport(
      ContentAnalysis(
        PostPerformances(data.posts, data.profile.followers, data.analytics.avgLikes),
        ContentCategoriesOf(data.posts),
        AvgQualityScore(data.posts)),
      ReelAnalysis(
        TotalViews(data.reels),
        AvgReelEngagementRate(data.reels),
        VibeTotals(data.reels)),
      AudienceInsights(
        EngagementByHour(hourDraws),
        ContentPreferences(data.posts),
        GrowthProjectionOf(data.analytics)))
  }

  /** `generateAdvancedAnalytics`, running the two accumulator loops. */
  method GenerateAdvancedAnalytics(data: InfluencerData, hourDraws: seq<real>)
    returns (r: AdvancedAnalyticsReport)
    requires Analyzable(data)
    requires |hourDraws| == 24 && forall i | 0 <= i < 24 :: IsDraw(hourDraws[i])
    ensures r == AnalyticsOf(data, hourDraws)
  {
    var vibeViews := AccumulateVibeViews(data.reels);
    var preferences := AnalyzeContentPreferences(data.posts);
    r := AdvancedAnalyticsReport(
      ContentAnalysis(
        PostPerformances(data.posts, data.profile.followers, data.analytics.avgLikes),
        ContentCategoriesOf(data.posts),
        AvgQualityScore(data.posts)),
      ReelAnalysis(
        TotalViews(data.reels),
        AvgReelEngagementRate(data.reels),
        vibeViews),
      AudienceInsights(
        EngagementByHour(hourDraws),
        preferences,
        GrowthProjectionOf(data.analytics)));
  }
}
