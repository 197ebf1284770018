/** The posts tab: quality badges, the filter buttons (every vibe, the first
    five tags), the filter itself, the cyclic sample pictures and the empty
    state. */
module PostsGrid {
  import opened Collections
  import opened Influencer
  import opened Display

  /** `getQualityBadge`. */
  function QualityBadge(score: int): (b: Badge)
    ensures b.text == "Excellent" <==> score >= 90
    ensures b.text == "Good" <==> 80 <= score < 90
    ensures b.text == "Average" <==> 70 <= score < 80
    ensures b.text == "Needs Work" <==> score < 70
    ensures b.variant == Default <==> score >= 90
    ensures b.variant == Destructive <==> score < 70
    ensures b.variant == Secondary <==> 70 <= score < 90
  {
    if score >= 90 then Badge("Excellent", Default)
    else if score >= 80 then Badge("Good", Secondary)
    else if score >= 70 then Badge("Average", Secondary)
    else Badge("Needs Work", Destructive)
  }

  /** The position of a quality label from worst to best. */
  function QualityRank(name: string): nat {
    match name
    case "Excellent" => 3
    case "Good" => 2
    case "Average" => 1
    case _ => 0
  }

  /** A higher score never gets a worse badge. */
  lemma QualityBadgeMonotone(a: int, b: int)
    requires a <= b
    ensures QualityRank(QualityBadge(a).text) <= QualityRank(QualityBadge(b).text)
  {
  }

  /** The filter of the posts tab: `"all"` keeps every post, any other
      filter the posts that carry it as a tag or as their vibe. */
  function FilteredPosts(posts: seq<Post>, filter: string): (r: seq<Post>)
    ensures forall p | p in posts :: p in r <==> filter == "all" || filter in p.tags || p.vibe == filter
    ensures forall p | p in r :: p in posts
    ensures filter == "all" ==> r == posts
    ensures IsSubsequence(r, posts)
  {
    var keep := (p: Post) => filter == "all" || filter in p.tags || p.vibe == filter;
    FilterIsSubsequence(posts, keep);
    if filter == "all" then FilterKeepsAll(posts, keep); Filter(posts, keep)
    else Filter(posts, keep)
  }

  /** "No posts found with the selected filter." shows exactly when no post
      matches; with `"all"` that is only when there are no posts. */
  predicate ShowsEmptyState(posts: seq<Post>, filter: string)
    ensures ShowsEmptyState(posts, filter) <==>
      forall p | p in posts :: filter != "all" && filter !in p.tags && p.vibe != filter
    ensures filter == "all" ==> (ShowsEmptyState(posts, filter) <==> posts == [])
  {
    FilteredPosts(posts, filter) == []
  }

  /** `uniqueTags`: every tag of every post once, in first-seen order. */
  function UniqueTags(posts: seq<Post>): (r: seq<string>)
    ensures Distinct(r)
    ensures forall t :: t in r <==> exists i | 0 <= i < |posts| :: t in posts[i].tags
    ensures forall i, j | 0 <= i < j < |r| :: IndexOf(PostTags(posts), r[i]) < IndexOf(PostTags(posts), r[j])
  {
    DedupFirstSeenOrder(PostTags(posts));
    Dedup(PostTags(posts))
  }

  /** `uniqueVibes`: every vibe once, in first-seen order. */
  function UniqueVibes(posts: seq<Post>): (r: seq<string>)
    ensures Distinct(r)
    ensures forall v :: v in r <==> exists i | 0 <= i < |posts| :: posts[i].vibe == v
    ensures forall i, j | 0 <= i < j < |r| :: IndexOf(PostVibes(posts), r[i]) < IndexOf(PostVibes(posts), r[j])
  {
    DedupFirstSeenOrder(PostVibes(posts));
    Dedup(PostVibes(posts))
  }

  /** The tag buttons: the first five unique tags. */
  function TagButtons(posts: seq<Post>): (r: seq<string>)
    ensures |r| <= 5 && |r| <= |UniqueTags(posts)|
    ensures |r| == 5 || r == UniqueTags(posts)
    ensures r == UniqueTags(posts)[..|r|]
  {
    Take(UniqueTags(posts), 5)
  }

  const SampleImages: seq<string> := [
    "https://images.unsplash.com/photo-1614714053570-6c6b6aa54a6d?w=400&h=400&fit=crop",
    "https://images.unsplash.com/photo-1690303472493-c21e659b5abf?w=400&h=400&fit=crop",
    "https://images.unsplash.com/photo-1667388968964-4aa652df0a9b?w=400&h=400&fit=crop",
    "https://images.unsplash.com/photo-1513475382585-d06e58bcb0e0?w=400&h=400&fit=crop",
    "https://images.unsplash.com/photo-1522337360788-8b13dee7a37e?w=400&h=400&fit=crop",
    "https://images.unsplash.com/photo-1529139574466-a303027c1d8b?w=400&h=400&fit=crop"
  ]

  /** The picture of the card at `index` of the filtered grid: always one
      of the six, repeating every six cards, and six consecutive cards show
      six different pictures. */
  lemma PostImages(i: nat, j: nat)
    ensures Cycle(SampleImages, i) in SampleImages
    ensures Cycle(SampleImages, i + 6) == Cycle(SampleImages, i)
    ensures i < j < i + 6 ==> Cycle(SampleImages, i) != Cycle(SampleImages, j)
  {
    SampleImagesDistinct();
    CycleWindow(SampleImages, i, j);
  }

  lemma SampleImagesDistinct()
    ensures Distinct(SampleImages)
  {
    var marks := "6b9e78";
    assert forall i | 0 <= i < 6 :: SampleImages[i][58] == marks[i];
  }
}
