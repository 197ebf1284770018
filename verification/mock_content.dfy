/** The server's sample-data generator: a profile with range-bounded random
    figures and fixed-size lists of posts and reels whose tags and vibe cycle
    through a table of five content archetypes.

    Every `Math.random()` the source calls is an explicit input `r` with
    `0 <= r < 1`, and `Date.now()` is the input `now` in milliseconds. */
module MockContent {
  import opened Arith
  import opened Text
  import opened Collections
  import opened Influencer

  const DayMs: int := 24 * 60 * 60 * 1000

  /** Sizes of the generated lists: the server's and the client's fallback
      generator differ only here. */
  const ServerPostCount: nat := 15
  const ServerReelCount: nat := 10

  /** The caption endings the server appends (mis-decoded emoji, kept as the
      code points the source file holds). */
  const ServerPostMark: string := "\U{00E2}\U{0153}\U{00A8}"
  const ServerReelMark: string := "\U{00F0}\U{0178}\U{201D}\U{00A5}"

  const ServerBio: string :=
    "\U{00E2}\U{0153}\U{00A8} Lifestyle & Fashion Creator \U{00E2}\U{0153}\U{00A8}\n"
    + "\U{00F0}\U{0178}\U{0152} Based in Miami, FL\n"
    + "\U{00F0}\U{0178}\U{201C}\U{00A9} Collabs: sofia@email.com"

  datatype Archetype = Archetype(kind: string, vibe: string, tags: seq<string>)

  const PostTypes: seq<Archetype> := [
    Archetype("fashion", "aesthetic", ["fashion", "style", "ootd"]),
    Archetype("travel", "luxury", ["travel", "vacation", "wanderlust"]),
    Archetype("food", "casual", ["food", "foodie", "restaurant"]),
    Archetype("lifestyle", "energetic", ["lifestyle", "motivation", "selfcare"]),
    Archetype("beauty", "aesthetic", ["beauty", "makeup", "skincare"])
  ]

  const ReelTypes: seq<Archetype> := [
    Archetype("dance", "energetic", ["dance", "trending", "viral"]),
    Archetype("tutorial", "casual", ["tutorial", "howto", "tips"]),
    Archetype("travel", "luxury", ["travel", "vacation", "adventure"]),
    Archetype("comedy", "casual", ["funny", "comedy", "entertainment"]),
    Archetype("fashion", "aesthetic", ["fashion", "style", "outfit"])
  ]

  /** A value `Math.random()` can return. */
  predicate IsDraw(r: real) {
    0.0 <= r < 1.0
  }

  /** `Math.floor(r * n)`: a uniform integer below `n`. */
  function Draw(r: real, n: nat): (k: nat)
    requires IsDraw(r) && n > 0
    ensures k < n
    ensures k as real <= r * n as real < k as real + 1.0
  {
    var x := r * n as real;
    assert 0.0 <= x < n as real;
    x.Floor
  }

  /** `Number(x.toFixed(d))` with `scale == 10^d`, rounding halves up. */
  function RoundTo(x: real, scale: nat): (y: real)
    requires scale > 0
    ensures x - 0.5 / scale as real < y <= x + 0.5 / scale as real
  {
    var k := RoundScaled(x, scale);
    var y := k as real / scale as real;
    assert y * scale as real == k as real;
    y
  }

  /** `tags.map(tag => `#${tag}`).join(' ')`. */
  function Hashtags(tags: seq<string>): string {
    Join(seq(|tags|, i requires 0 <= i < |tags| => "#" + tags[i]), " ")
  }

  /** The random draws one generated post consumes, in source order. */
  datatype PostDraws = PostDraws(image: real, likes: real, comments: real, quality: real)

  predicate ValidPostDraws(d: PostDraws) {
    IsDraw(d.image) && IsDraw(d.likes) && IsDraw(d.comments) && IsDraw(d.quality)
  }

  /** The random draws one generated reel consumes, in source order. */
  datatype ReelDraws = ReelDraws(thumbnail: real, views: real, likes: real, comments: real)

  predicate ValidReelDraws(d: ReelDraws) {
    IsDraw(d.thumbnail) && IsDraw(d.views) && IsDraw(d.likes) && IsDraw(d.comments)
  }

  /** The random draws the profile and headline analytics consume. */
  datatype ProfileDraws = ProfileDraws(
    followers: real, following: real, postsCount: real, verified: real,
    avgLikes: real, avgComments: real, engagementRate: real,
    totalReach: real, growthRate: real)

  predicate ValidProfileDraws(d: ProfileDraws) {
    IsDraw(d.followers) && IsDraw(d.following) && IsDraw(d.postsCount) &&
    IsDraw(d.verified) && IsDraw(d.avgLikes) && IsDraw(d.avgComments) &&
    IsDraw(d.engagementRate) && IsDraw(d.totalReach) && IsDraw(d.growthRate)
  }

  /** An Unsplash photo address with a random photo number. */
  function PhotoUrl(r: real, size: string): string
    requires IsDraw(r)
  {
    "https://images.unsplash.com/photo-1" + NatToString(Draw(r, 600000000) + 500000000) + size
  }

  /** The `i`-th generated post. */
  function MockPost(i: nat, d: PostDraws, now: int, mark: string): (p: Post)
    requires ValidPostDraws(d)
    ensures p.id == "post_" + NatToString(i + 1)
    ensures p.tags == PostTypes[i % 5].tags && p.vibe == PostTypes[i % 5].vibe
    ensures 8000 <= p.likes < 33000
    ensures 100 <= p.comments < 600
    ensures 70 <= p.qualityScore < 100
    ensures p.timestamp == now - i * DayMs
  {
    var postType := PostTypes[i % |PostTypes|];
    Post(
      id := "post_" + NatToString(i + 1),
      imageUrl := PhotoUrl(d.image, "?w=400&h=400&fit=crop"),
      caption := "Amazing " + postType.kind + " moment! " + Hashtags(postType.tags) + " " + mark,
      likes := Draw(d.likes, 25000) + 8000,
      comments := Draw(d.comments, 500) + 100,
      timestamp := now - i * DayMs,
      tags := postType.tags,
      vibe := postType.vibe,
      qualityScore := Draw(d.quality, 30) + 70)
  }

  /** The `i`-th generated reel. */
  function MockReel(i: nat, d: ReelDraws, now: int, mark: string): (r: Reel)
    requires ValidReelDraws(d)
    ensures r.id == "reel_" + NatToString(i + 1)
    ensures r.tags == ReelTypes[i % 5].tags && r.vibe == ReelTypes[i % 5].vibe
    ensures 50000 <= r.views < 550000
    ensures 3000 <= r.likes < 18000
    ensures 50 <= r.comments < 350
    ensures r.timestamp == now - i * DayMs
  {
    var reelType := ReelTypes[i % |ReelTypes|];
    Reel(
      id := "reel_" + NatToString(i + 1),
      thumbnailUrl := PhotoUrl(d.thumbnail, "?w=300&h=500&fit=crop"),
      caption := reelType.kind + " vibes! " + Hashtags(reelType.tags) + " " + mark,
      views := Draw(d.views, 500000) + 50000,
      likes := Draw(d.likes, 15000) + 3000,
      comments := Draw(d.comments, 300) + 50,
      timestamp := now - i * DayMs,
      tags := reelType.tags,
      vibe := reelType.vibe)
  }

  /** Items generated at distinct indices get distinct ids. */
  lemma MockIdsDistinct(prefix: string, i: nat, j: nat)
    requires i != j
    ensures prefix + NatToString(i + 1) != prefix + NatToString(j + 1)
  {
    if prefix + NatToString(i + 1) == prefix + NatToString(j + 1) {
      AppendCancel(prefix, NatToString(i + 1), NatToString(j + 1));
      NatToStringInjective(i + 1, j + 1);
    }
  }

  /** Stepping back one more day gives an earlier time. */
  lemma DaysBackDecrease(now: int, i: nat, j: nat)
    requires i < j
    ensures now - i * DayMs > now - j * DayMs
  {
  }

  /** The post loop: `count` posts, post `i` built from archetype `i mod 5`
      and the `i`-th draws, one day older than post `i - 1`. */
  method GenerateMockPosts(count: nat, draws: seq<PostDraws>, now: int, mark: string)
    returns (posts: seq<Post>)
    requires |draws| == count
    requires forall i | 0 <= i < |draws| :: ValidPostDraws(draws[i])
    ensures |posts| == count
    ensures forall i | 0 <= i < count :: posts[i] == MockPost(i, draws[i], now, mark)
    ensures forall i | 0 <= i < count ::
      posts[i].tags == PostTypes[i % 5].tags && posts[i].vibe == PostTypes[i % 5].vibe
    ensures forall i | 0 <= i < count ::
      8000 <= posts[i].likes < 33000 && 100 <= posts[i].comments < 600 &&
      70 <= posts[i].qualityScore < 100
    ensures forall i, j | 0 <= i < j < count :: posts[i].timestamp > posts[j].timestamp
    ensures forall i, j | 0 <= i < j < count :: posts[i].id != posts[j].id
  {
    posts := [];
    var i := 0;
    while i < count
      invariant 0 <= i <= count
      invariant |posts| == i
      invariant forall j | 0 <= j < i :: posts[j] == MockPost(j, draws[j], now, mark)
    {
      var postType := PostTypes[i % |PostTypes|];
      var d := draws[i];
      posts := posts + [Post(
        id := "post_" + NatToString(i + 1),
        imageUrl := PhotoUrl(d.image, "?w=400&h=400&fit=crop"),
        caption := "Amazing " + postType.kind + " moment! " + Hashtags(postType.tags) + " " + mark,
        likes := Draw(d.likes, 25000) + 8000,
        comments := Draw(d.comments, 500) + 100,
        timestamp := now - i * DayMs,
        tags := postType.tags,
        vibe := postType.vibe,
        qualityScore := Draw(d.quality, 30) + 70)];
      i := i + 1;
    }
    forall i, j | 0 <= i < j < count
      ensures posts[i].timestamp > posts[j].timestamp && posts[i].id != posts[j].id
    {
      DaysBackDecrease(now, i, j);
      MockIdsDistinct("post_", i, j);
    }
  }

  /** The reel loop: `count` reels, reel `i` built from archetype `i mod 5`
      and the `i`-th draws, one day older than reel `i - 1`. */
  method GenerateMockReels(count: nat, draws: seq<ReelDraws>, now: int, mark: string)
    returns (reels: seq<Reel>)
    requires |draws| == count
    requires forall i | 0 <= i < |draws| :: ValidReelDraws(draws[i])
    ensures |reels| == count
    ensures forall i | 0 <= i < count :: reels[i] == MockReel(i, draws[i], now, mark)
    ensures forall i | 0 <= i < count ::
      reels[i].tags == ReelTypes[i % 5].tags && reels[i].vibe == ReelTypes[i % 5].vibe
    ensures forall i | 0 <= i < count ::
      50000 <= reels[i].views < 550000 && 3000 <= reels[i].likes < 18000 &&
      50 <= reels[i].comments < 350
    ensures forall i, j | 0 <= i < j < count :: reels[i].timestamp > reels[j].timestamp
    ensures forall i, j | 0 <= i < j < count :: reels[i].id != reels[j].id
  {
    reels := [];
    var i := 0;
    while i < count
      invariant 0 <= i <= count
      invariant |reels| == i
      invariant forall j | 0 <= j < i :: reels[j] == MockReel(j, draws[j], now, mark)
    {
      var reelType := ReelTypes[i % |ReelTypes|];
      var d := draws[i];
      reels := reels + [Reel(
        id := "reel_" + NatToString(i + 1),
        thumbnailUrl := PhotoUrl(d.thumbnail, "?w=300&h=500&fit=crop"),
        caption := reelType.kind + " vibes! " + Hashtags(reelType.tags) + " " + mark,
        views := Draw(d.views, 500000) + 50000,
        likes := Draw(d.likes, 15000) + 3000,
        comments := Draw(d.comments, 300) + 50,
        timestamp := now - i * DayMs,
        tags := reelType.tags,
        vibe := reelType.vibe)];
      i := i + 1;
    }
    forall i, j | 0 <= i < j < count
      ensures reels[i].timestamp > reels[j].timestamp && reels[i].id != reels[j].id
    {
      DaysBackDecrease(now, i, j);
      MockIdsDistinct("reel_", i, j);
    }
  }

  /** The generated profile; its counters lie in the documented ranges. */
  function MockProfile(username: string, d: ProfileDraws): (p: Profile)
    requires ValidProfileDraws(d)
    ensures p.username == "@" + username
    ensures 100000 <= p.followers < 600000
    ensures 500 <= p.following < 2500
    ensures 200 <= p.postsCount < 1200
    ensures p.verified <==> d.verified > 0.5
  {
    Profile(
      name := "Sofia Martinez",
      username := "@" + username,
      profilePicture := "https://images.unsplash.com/photo-1634942537034-2531766767d1?w=400",
      followers := Draw(d.followers, 500000) + 100000,
      following := Draw(d.following, 2000) + 500,
      postsCount := Draw(d.postsCount, 1000) + 200,
      bio := ServerBio,
      verified := d.verified > 0.5)
  }

  /** The generated headline analytics; the rounded rates stay inside the
      closed ranges [1, 6] and [5, 25]. */
  function MockAnalytics(d: ProfileDraws): (a: Analytics)
    requires ValidProfileDraws(d)
    ensures 5000 <= a.avgLikes < 25000
    ensures 100 <= a.avgComments < 600
    ensures 1.0 <= a.engagementRate <= 6.0
    ensures 500000 <= a.totalReach < 2500000
    ensures 5.0 <= a.growthRate <= 25.0
  {
    var engagement := RoundTo(d.engagementRate * 5.0 + 1.0, 100);
    var growth := RoundTo(d.growthRate * 20.0 + 5.0, 10);
    RoundedRange(d.engagementRate * 5.0 + 1.0, 100, 1, 6);
    RoundedRange(d.growthRate * 20.0 + 5.0, 10, 5, 25);
    Analytics(
      avgLikes := Draw(d.avgLikes, 20000) + 5000,
      avgComments := Draw(d.avgComments, 500) + 100,
      engagementRate := engagement,
      totalReach := Draw(d.totalReach, 2000000) + 500000,
      growthRate := growth)
  }

  /** Rounding a value of `[lo, hi)` to a grid finer than 1 stays inside
      `[lo, hi]`. */
  lemma RoundedRange(x: real, scale: nat, lo: int, hi: int)
    requires scale > 0
    requires lo as real <= x < hi as real
    ensures lo as real <= RoundTo(x, scale) <= hi as real
  {
    var s := scale as real;
    var k := RoundScaled(x, scale);
    MultiplyMonotone(s, lo as real, x);
    MultiplyStrict(s, x, hi as real);
    ProductAsReal(lo, scale);
    ProductAsReal(hi, scale);
    assert lo * scale <= k <= hi * scale;
    DivideBoundsClosed(k as real, s, lo as real, hi as real);
  }

  /** The aggregate `generateMockInfluencerData` builds from these draws. */
  function MockInfluencerData(
    username: string, profileDraws: ProfileDraws,
    postDraws: seq<PostDraws>, reelDraws: seq<ReelDraws>, now: int): InfluencerData
    requires ValidProfileDraws(profileDraws)
    requires |postDraws| == ServerPostCount && |reelDraws| == ServerReelCount
    requires forall i | 0 <= i < |postDraws| :: ValidPostDraws(postDraws[i])
    requires forall i | 0 <= i < |reelDraws| :: ValidReelDraws(reelDraws[i])
  {
    InfluencerData(
      MockProfile(username, profileDraws),
      MockAnalytics(profileDraws),
      seq(ServerPostCount, i requires 0 <= i < ServerPostCount => MockPost(i, postDraws[i], now, ServerPostMark)),
      seq(ServerReelCount, i requires 0 <= i < ServerReelCount => MockReel(i, reelDraws[i], now, ServerReelMark)),
      MockDemographics,
      Some(now))
  }

  /** `generateMockInfluencerData`: the whole aggregate for `username`. */
  method GenerateMockInfluencerData(
    username: string, profileDraws: ProfileDraws,
    postDraws: seq<PostDraws>, reelDraws: seq<ReelDraws>, now: int)
    returns (data: InfluencerData)
    requires ValidProfileDraws(profileDraws)
    requires |postDraws| == ServerPostCount && |reelDraws| == ServerReelCount
    requires forall i | 0 <= i < |postDraws| :: ValidPostDraws(postDraws[i])
    requires forall i | 0 <= i < |reelDraws| :: ValidReelDraws(reelDraws[i])
    ensures data.profile == MockProfile(username, profileDraws)
    ensures data.analytics == MockAnalytics(profileDraws)
    ensures |data.posts| == 15 && |data.reels| == 10
    ensures forall i | 0 <= i < 15 :: data.posts[i] == MockPost(i, postDraws[i], now, ServerPostMark)
    ensures forall i | 0 <= i < 10 :: data.reels[i] == MockReel(i, reelDraws[i], now, ServerReelMark)
    ensures data.demographics == MockDemographics
    ensures data.lastUpdated == Some(now)
    ensures data == MockInfluencerData(username, profileDraws, postDraws, reelDraws, now)
  {
    var posts := GenerateMockPosts(ServerPostCount, postDraws, now, ServerPostMark);
    var reels := GenerateMockReels(ServerReelCount, reelDraws, now, ServerReelMark);
    data := InfluencerData(
      MockProfile(username, profileDraws),
      MockAnalytics(profileDraws),
      posts, reels, MockDemographics, Some(now));
  }
}
