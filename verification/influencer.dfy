/** The records the server stores and the dashboard renders: a profile, its
    headline analytics, posts, reels and audience demographics. Timestamps,
    which the source keeps as ISO-8601 strings, are milliseconds since the
    epoch here. */
module Influencer {
  import opened Collections

  datatype Profile = Profile(
    name: string,
    username: string,
    profilePicture: string,
    followers: nat,
    following: nat,
    postsCount: nat,
    bio: string,
    verified: bool)

  datatype Analytics = Analytics(
    avgLikes: nat,
    avgComments: nat,
    engagementRate: real,
    totalReach: nat,
    growthRate: real)

  datatype Post = Post(
    id: string,
    imageUrl: string,
    caption: string,
    likes: nat,
    comments: nat,
    timestamp: int,
    tags: seq<string>,
    vibe: string,
    qualityScore: int)

  datatype Reel = Reel(
    id: string,
    thumbnailUrl: string,
    caption: string,
    views: nat,
    likes: nat,
    comments: nat,
    timestamp: int,
    tags: seq<string>,
    vibe: string)

  datatype GenderSplit = GenderSplit(male: int, female: int, other: int)

  /** `ageGroups` and `topCountries` are objects keyed by bucket and by
      country, kept in insertion order. */
  datatype Demographics = Demographics(
    genderSplit: GenderSplit,
    ageGroups: seq<Entry>,
    topCountries: seq<Entry>)

  /** The aggregate; `lastUpdated` is present on server-generated records
      and absent on the client's fallback record. */
  datatype InfluencerData = InfluencerData(
    profile: Profile,
    analytics: Analytics,
    posts: seq<Post>,
    reels: seq<Reel>,
    demographics: Demographics,
    lastUpdated: Option<int>)

  /** The fixed audience split that both the server generator and the
      client's fallback record carry. */
  const MockDemographics: Demographics := Demographics(
    GenderSplit(25, 72, 3),
    [Entry("13-17", 8), Entry("18-24", 32), Entry("25-34", 35),
     Entry("35-44", 18), Entry("45-54", 5), Entry("55+", 2)],
    [Entry("United States", 45), Entry("Brazil", 12), Entry("Mexico", 8),
     Entry("Canada", 7), Entry("United Kingdom", 6), Entry("Australia", 4),
     Entry("Spain", 3), Entry("Others", 15)])

  /** Every group of the fixed demographics adds up to 100 percent. */
  lemma MockDemographicsSumTo100()
    ensures var g := MockDemographics.genderSplit; g.male + g.female + g.other == 100
    ensures SumValues(MockDemographics.ageGroups) == 100
    ensures SumValues(MockDemographics.topCountries) == 100
  {
    var ages, countries := MockDemographics.ageGroups, MockDemographics.topCountries;
    assert SumValues(ages[5..]) == 2;
    assert SumValues(ages[4..]) == 7;
    assert SumValues(ages[3..]) == 25;
    assert SumValues(ages[2..]) == 60;
    assert SumValues(ages[1..]) == 92;
    assert SumValues(countries[7..]) == 15;
    assert SumValues(countries[6..]) == 18;
    assert SumValues(countries[5..]) == 22;
    assert SumValues(countries[4..]) == 28;
    assert SumValues(countries[3..]) == 35;
    assert SumValues(countries[2..]) == 43;
    assert SumValues(countries[1..]) == 55;
  }

  /** `posts.flatMap(post => post.tags)`: every tag of every post, in order,
      repeats included. */
  function PostTags(posts: seq<Post>): (tags: seq<string>)
    ensures forall t | t in tags :: exists i | 0 <= i < |posts| :: t in posts[i].tags
    ensures forall i | 0 <= i < |posts| :: forall t | t in posts[i].tags :: t in tags
  {
    if posts == [] then []
    else
      var init := posts[..|posts| - 1];
      var tags := PostTags(init) + posts[|posts| - 1].tags;
      assert forall i | 0 <= i < |init| :: init[i] == posts[i];
      tags
  }

  /** `reels.flatMap(reel => reel.tags)`. */
  function ReelTags(reels: seq<Reel>): (tags: seq<string>)
    ensures forall t | t in tags :: exists i | 0 <= i < |reels| :: t in reels[i].tags
    ensures forall i | 0 <= i < |reels| :: forall t | t in reels[i].tags :: t in tags
  {
    if reels == [] then []
    else
      var init := reels[..|reels| - 1];
      var tags := ReelTags(init) + reels[|reels| - 1].tags;
      assert forall i | 0 <= i < |init| :: init[i] == reels[i];
      tags
  }

  /** `posts.map(post => post.vibe)`. */
  function PostVibes(posts: seq<Post>): (vs: seq<string>)
    ensures |vs| == |posts|
    ensures forall i | 0 <= i < |posts| :: vs[i] == posts[i].vibe
  {
    seq(|posts|, i requires 0 <= i < |posts| => posts[i].vibe)
  }

  /** `reels.map(reel => reel.vibe)`. */
  function ReelVibes(reels: seq<Reel>): (vs: seq<string>)
    ensures |vs| == |reels|
    ensures forall i | 0 <= i < |reels| :: vs[i] == reels[i].vibe
  {
    seq(|reels|, i requires 0 <= i < |reels| => reels[i].vibe)
  }
}
