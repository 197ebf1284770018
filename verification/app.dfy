/** The client's own data: the `MOCK_DATA` record, its post and reel
    generators (12 posts and 8 reels, same archetype tables and ranges as the
    server's), and the choice between the API's answer and the fallback
    record. */
module App {
  import opened Collections
  import opened Influencer
  import opened MockContent

  const ClientPostCount: nat := 12
  const ClientReelCount: nat := 8

  /** The caption suffixes of the client's generators, as the code points
      the file holds. */
  const ClientPostMark: string := "\U{201A}\U{00FA}\U{00AE}"
  const ClientReelMark: string := "\U{F8FF}\U{00FC}\U{00EE}\U{2022}"

  const ClientBio: string :=
    "\U{201A}\U{00FA}\U{00AE} Lifestyle & Fashion Creator \U{201A}\U{00FA}\U{00AE}\n" +
    "\U{F8FF}\U{00FC}\U{00E5}\U{00E7} Based in Miami, FL\n" +
    "\U{F8FF}\U{00FC}\U{00EC}\U{00A9} Collabs: sofia@email.com\n" +
    "#LifestyleBlogger #Fashion #Travel"

  const MockProfilePicture: string :=
    "https://images.unsplash.com/photo-1634942537034-2531766767d1?crop=entropy&cs=tinysrgb&fit=max&fm=jpg&ixid=M3w3Nzg4Nzd8MHwxfHNlYXJjaHwxfHxpbnN0YWdyYW0lMjBpbmZsdWVuY2VyJTIwcHJvZmlsZSUyMHdvbWFufGVufDF8fHx8MTc1OTI5OTEzNXww&ixlib=rb-4.1.0&q=80&w=400"

  /** `MOCK_DATA`: a fixed profile and analytics, no posts or reels yet, and
      no `lastUpdated`. */
  const MockData: InfluencerData := InfluencerData(
    Profile("Sofia Martinez", "@sofia_lifestyle", MockProfilePicture,
            487200, 1248, 892, ClientBio, true),
    Analytics(15420, 342, 3.24, 1200000, 12.5),
    [], [],
    MockDemographics,
    None)

  /** The client's `generateMockPosts`: 12 posts with ids `post_1` to
      `post_12`, archetype `i mod 5`, the server's ranges, one day apart. */
  method GenerateClientPosts(draws: seq<PostDraws>, now: int) returns (posts: seq<Post>)
    requires |draws| == ClientPostCount
    requires forall i | 0 <= i < |draws| :: ValidPostDraws(draws[i])
    ensures |posts| == 12
    ensures forall i | 0 <= i < 12 :: posts[i] == MockPost(i, draws[i], now, ClientPostMark)
    ensures forall i | 0 <= i < 12 ::
      posts[i].tags == PostTypes[i % 5].tags && posts[i].vibe == PostTypes[i % 5].vibe
    ensures forall i | 0 <= i < 12 :: 8000 <= posts[i].likes < 33000
    ensures forall i, j | 0 <= i < j < 12 :: posts[i].timestamp > posts[j].timestamp
    ensures forall i, j | 0 <= i < j < 12 :: posts[i].id != posts[j].id
  {
    posts := GenerateMockPosts(ClientPostCount, draws, now, ClientPostMark);
  }

  /** The client's `generateMockReels`: 8 reels with ids `reel_1` to
      `reel_8`, archetype `i mod 5`, one day apart. */
  method GenerateClientReels(draws: seq<ReelDraws>, now: int) returns (reels: seq<Reel>)
    requires |draws| == ClientReelCount
    requires forall i | 0 <= i < |draws| :: ValidReelDraws(draws[i])
    ensures |reels| == 8
    ensures forall i | 0 <= i < 8 :: reels[i] == MockReel(i, draws[i], now, ClientReelMark)
    ensures forall i | 0 <= i < 8 ::
      reels[i].tags == ReelTypes[i % 5].tags && reels[i].vibe == ReelTypes[i % 5].vibe
    ensures forall i, j | 0 <= i < j < 8 :: reels[i].timestamp > reels[j].timestamp
    ensures forall i, j | 0 <= i < j < 8 :: reels[i].id != reels[j].id
  {
    reels := GenerateMockReels(ClientReelCount, draws, now, ClientReelMark);
  }

  /** The vibes of the post archetypes cycle with period 5. */
  lemma PostVibesCycle(i: nat)
    ensures PostTypes[i % 5].vibe ==
      ["aesthetic", "luxury", "casual", "energetic", "aesthetic"][i % 5]
  {
  }

  /** `fetchInfluencerData`: the API's aggregate when the request succeeds,
      otherwise `MOCK_DATA` with generated posts and reels and nothing else
      replaced. */
  method LoadInfluencerData(
    api: Option<InfluencerData>, postDraws: seq<PostDraws>, reelDraws: seq<ReelDraws>, now: int)
    returns (data: InfluencerData)
    requires |postDraws| == ClientPostCount && |reelDraws| == ClientReelCount
    requires forall i | 0 <= i < |postDraws| :: ValidPostDraws(postDraws[i])
    requires forall i | 0 <= i < |reelDraws| :: ValidReelDraws(reelDraws[i])
    ensures api.Some? ==> data == api.value
    ensures api.None? ==>
      data.profile == MockData.profile && data.analytics == MockData.analytics &&
      data.demographics == MockData.demographics && data.lastUpdated == MockData.lastUpdated &&
      |data.posts| == 12 && |data.reels| == 8 &&
      (forall i | 0 <= i < 12 :: data.posts[i] == MockPost(i, postDraws[i], now, ClientPostMark)) &&
      (forall i | 0 <= i < 8 :: data.reels[i] == MockReel(i, reelDraws[i], now, ClientReelMark))
  {
    if api.Some? {
      data := api.value;
    } else {
      var posts := GenerateClientPosts(postDraws, now);
      var reels := GenerateClientReels(reelDraws, now);
      data := MockData.(posts := posts, reels := reels);
    }
  }
}
