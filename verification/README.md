# InstaScope dashboard core in Dafny

InstaScope is a mock Instagram-analytics dashboard. It has three parts:

- A small server keeps one generated aggregate per influencer in a key-value store. The aggregate holds a profile, headline analytics, posts, reels and audience demographics.
- The server derives "advanced analytics" from that aggregate.
- A React client renders the aggregate, falling back to a built-in record when the server is unreachable.

This project models the logic of that system and proves properties of it:

- **Mock content generators** (`MockContent`, `App`): the server's and the client's generators. They emit 15 / 12 posts and 10 / 8 reels. Item `i` takes its archetype `i mod 5`, its id, a timestamp `i` days back, and counters drawn into fixed ranges.
- **Derived analytics** (`AdvancedAnalytics`):
  - per-post engagement and viral potential;
  - category counts and the mean quality score;
  - reel totals and mean engagement;
  - views per vibe, accumulated in an insertion-ordered object;
  - the top-5 tag ranking by a stable descending sort;
  - the engagement-by-hour series and the growth projection.
- **Cache-aside routes** (`InfluencerRoutes`): GET, scrape and analytics over the key-value store. They appear twice: as pure functions on a `map`, and as a class `InfluencerServer` whose methods update its store field.
- **Client presentation helpers**:
  - `Display`: `formatNumber`, `getVibeColor`, cyclic sample pictures;
  - `PostsGrid` and `ReelsSection`: the filters, deduplicated tag and vibe buttons, badges, summary totals and average;
  - `ProfileHeader`: initials and the verified display;
  - `EngagementMetrics`: the verdict, the growth badge and the fixed split;
  - `AudienceDemographics`: the chart rows, primary gender, majority and the top-5 countries.

Shared helpers model the JavaScript built-ins the code relies on:

- `Text`: `String(n)`, `toFixed`, `split`, `join`.
- `Collections`: objects as insertion-ordered entry lists, `Array.from(new Set(..))`, `filter`, `slice`, the stable `sort`.
- `Arith`: a few facts of real arithmetic.

Inputs stand in for effects:

- Every `Math.random()` draw is an explicit real `r` with `0 <= r < 1`, and `Math.floor(r * n)` is `Draw(r, n)`.
- `Date.now()` is an input `now` in milliseconds. ISO timestamps are those milliseconds.
- The key-value store is a `map<string, StoredValue>`.

`formatNumber` and `getVibeColor` are written out in several components, always with the same mapping. They are defined once, in `Display`. `getEngagementRate` in the reels tab is the same formula as the server's reel rate. `ReelsSection.EngagementRate` proves that it equals `AdvancedAnalytics.InteractionRate`.

## Model

| member | source | states |
|---|---|---|
| MockContent.Draw | supabase/functions/server/index.tsx:136-138 | `Math.floor(r * n)` for a draw in [0, 1) is an integer in [0, n) within one below `r * n` |
| MockContent.RoundTo | supabase/functions/server/index.tsx:145-147 | `Number(x.toFixed(d))` lies within half a grid step of `x` |
| MockContent.RoundedRange | supabase/functions/server/index.tsx:145-147 | a value in [lo, hi) rounded to the grid stays in [lo, hi] |
| MockContent.MockPost | supabase/functions/server/index.tsx:188-200 | post `i` has id `post_{i+1}` and the tags and vibe of archetype `i mod 5`; likes in [8000, 33000), comments in [100, 600), quality in [70, 100); timestamp `now - i` days |
| MockContent.MockReel | supabase/functions/server/index.tsx:215-227 | reel `i` has id `reel_{i+1}` and archetype `i mod 5`; views in [50000, 550000), likes in [3000, 18000), comments in [50, 350); timestamp `now - i` days |
| MockContent.MockIdsDistinct | supabase/functions/server/index.tsx:191 | different indices give different ids |
| MockContent.DaysBackDecrease | supabase/functions/server/index.tsx:196 | a later index gets a strictly earlier timestamp |
| MockContent.GenerateMockPosts | supabase/functions/server/index.tsx:178-203 | the loop returns `count` posts, post `i` being `MockPost(i, ..)`, with archetype `i mod 5`, strictly decreasing timestamps and pairwise distinct ids |
| MockContent.GenerateMockReels | supabase/functions/server/index.tsx:205-230 | the same for reels |
| MockContent.MockProfile | supabase/functions/server/index.tsx:132-141 | username `@` + user; followers in [100000, 600000), following in [500, 2500), posts count in [200, 1200); verified exactly when the draw exceeds 0.5 |
| MockContent.MockAnalytics | supabase/functions/server/index.tsx:142-148 | average likes in [5000, 25000), comments in [100, 600), reach in [500000, 2500000); rounded engagement rate in [1, 6] and growth rate in [5, 25] |
| MockContent.GenerateMockInfluencerData | supabase/functions/server/index.tsx:130-176 | the method builds exactly the aggregate `MockInfluencerData` of the draws: generated profile and analytics, 15 posts and 10 reels with post `i` being `MockPost(i, ..)`, the fixed demographics, `lastUpdated = now` |
| Influencer.MockDemographicsSumTo100 | supabase/functions/server/index.tsx:151-171 | gender, age groups and countries each add up to 100 |
| Influencer.PostTags | components/PostsGrid.tsx:64 | `flatMap` of the tags: every tag in it belongs to some post, and every tag of every post is in it |
| Influencer.PostVibes | components/PostsGrid.tsx:65 | `map` of the vibes: one per post, in order |
| Influencer.ReelTags | components/ReelsSection.tsx:62 | `flatMap` of the reel tags, both inclusions |
| Influencer.ReelVibes | components/ReelsSection.tsx:61 | one vibe per reel, in order |
| AdvancedAnalytics.InteractionRate | supabase/functions/server/index.tsx:250 | the rate times the base is (likes + comments) times 100, and is never negative |
| AdvancedAnalytics.ViralPotential | supabase/functions/server/index.tsx:251 | "high" exactly when likes exceed 1.5 times the average (2·likes > 3·avg), otherwise "normal" |
| AdvancedAnalytics.PerformanceOf | supabase/functions/server/index.tsx:248-253 | a post's record keeps its id, has the viral verdict and "6:00 PM", and its rate is `toFixed(2)` of the interaction rate: two decimals that read back within half a hundredth of the rate |
| AdvancedAnalytics.PerformanceExample | supabase/functions/server/index.tsx:250-251 | 5000 likes and 200 comments on 100000 followers render as "5.20"; viral against average 3000, not against 4000 |
| AdvancedAnalytics.PostPerformances | supabase/functions/server/index.tsx:248-253 | one record per post, same ids in the same order, viral verdict per post, and each rate a two-decimal rendering of that post's interaction rate |
| AdvancedAnalytics.PostsTagged | supabase/functions/server/index.tsx:255-258 | the `filter(..).length` equals `CountTagged`, the number of posts whose tags include the tag; 0 exactly when no post has the tag; all exactly when every post has it |
| AdvancedAnalytics.CountTagged | supabase/functions/server/index.tsx:255-258 | the number of posts carrying a tag, counted one post at a time, is at most the number of posts |
| AdvancedAnalytics.FilterCountsTagged | supabase/functions/server/index.tsx:255-258 | the length of the filtered posts equals that independent count |
| AdvancedAnalytics.ContentCategoriesOf | supabase/functions/server/index.tsx:254-259 | each of fashion, travel, food and lifestyle is `CountTagged` for that word, and none exceeds the number of posts |
| AdvancedAnalytics.SumQualityBounds | supabase/functions/server/index.tsx:260 | n scores in [lo, hi) sum to within [n·lo, n·hi) |
| AdvancedAnalytics.AvgQualityWithin | supabase/functions/server/index.tsx:260 | `AvgQualityScore`, the mean quality score, lies in [lo, hi) when every score does |
| AdvancedAnalytics.AvgReelEngagementRate | supabase/functions/server/index.tsx:264 | the mean of the per-reel rates is never negative (`ReelsSection.AverageWithin` bounds it by the rates) |
| AdvancedAnalytics.VibeTotalsMeaning | supabase/functions/server/index.tsx:263-268 | of `VibeTotals`: the keys are the reel vibes once each in first-seen order; each value is the views of the reels with that vibe; the values add up to `TotalViews` |
| AdvancedAnalytics.AccumulateVibeViews | supabase/functions/server/index.tsx:265-268 | the reduce loop computes exactly `VibeTotals` |
| AdvancedAnalytics.AddTagsKeys | supabase/functions/server/index.tsx:287-289 | adding a post's tags extends the keys by the new tags in first-seen order |
| AdvancedAnalytics.AddTagsLookup | supabase/functions/server/index.tsx:287-289 | each tag's value grows by its occurrences times the post's weight |
| AdvancedAnalytics.TagTotalsMeaning | supabase/functions/server/index.tsx:286-291 | of `TagTotals`: keys are all tags once in first-seen order; each value is Σ occurrences·(likes + comments) |
| AdvancedAnalytics.SortedTagTotals | supabase/functions/server/index.tsx:293-294 | the sorted totals are non-increasing, stable, and hold the same entries |
| AdvancedAnalytics.ContentPreferencesMeaning | supabase/functions/server/index.tsx:285-297 | of `ContentPreferences`: at most 5 entries, non-increasing, each a tag with its weight, ties in first-seen order, no tag twice |
| AdvancedAnalytics.ContentPreferencesOmitOnlySmaller | supabase/functions/server/index.tsx:295 | when 5 are kept, an omitted tag weighs no more than the last one kept |
| AdvancedAnalytics.AddPostTags | supabase/functions/server/index.tsx:287-289 | the inner `forEach` loop computes `AddTags` |
| AdvancedAnalytics.AccumulateTagWeights | supabase/functions/server/index.tsx:286-291 | the outer reduce loop computes `TagTotals`: keys are the deduplicated tags and each value is the tag's weight |
| AdvancedAnalytics.AnalyzeContentPreferences | supabase/functions/server/index.tsx:285-297 | the top-5 list: at most 5, non-increasing, true weights, ties in first-seen order, nothing larger omitted |
| AdvancedAnalytics.PowGrows | supabase/functions/server/index.tsx:303-304 | for a base of at least 1 a higher power is no smaller |
| AdvancedAnalytics.GrowthProjectionOf | supabase/functions/server/index.tsx:299-306 | with non-negative growth the one, three and six-month projections never decrease and start at the current reach or above |
| AdvancedAnalytics.GrowthProjectionExample | supabase/functions/server/index.tsx:299-306 | a reach of 1000000 at 10% projects to 1100000, 1331000 and 1771561 |
| AdvancedAnalytics.EngagementByHour | supabase/functions/server/index.tsx:278-283 | 24 entries, entry `i` for hour `i`, engagement in [20, 120) |
| AdvancedAnalytics.AnalyticsOf | supabase/functions/server/index.tsx:242-276 | one performance record per post; the total views equal the sum of the views-per-vibe object; at most five content preferences |
| AdvancedAnalytics.GenerateAdvancedAnalytics | supabase/functions/server/index.tsx:242-276 | the method builds exactly `AnalyticsOf` |
| InfluencerRoutes.KeysSeparate | supabase/functions/server/index.tsx:35 | different users get different keys, and an aggregate key is never a status key |
| InfluencerRoutes.Cached | supabase/functions/server/index.tsx:35-36 | a hit exactly when an aggregate is stored under the user's key |
| InfluencerRoutes.AfterGet | supabase/functions/server/index.tsx:35-47 | after GET the user's aggregate is cached and is `GetResponse`, what GET answered: the cached aggregate on a hit, the generated one on a miss; no other key changes |
| InfluencerRoutes.AfterScrape | supabase/functions/server/index.tsx:61-78 | after a scrape the new aggregate is cached and a "completed" status records the counts; no other key changes |
| InfluencerRoutes.AnalyticsAnswer | supabase/functions/server/index.tsx:93-100 | not found exactly when nothing is stored for the user; otherwise the analytics of the stored aggregate |
| InfluencerRoutes.GetIsCached | supabase/functions/server/index.tsx:35-39 | a second GET answers what the first did and changes nothing |
| InfluencerRoutes.ScrapeThenGet | supabase/functions/server/index.tsx:54-78 | GET after a scrape answers the scraped aggregate |
| InfluencerRoutes.RoutesKeepStoreValid | supabase/functions/server/index.tsx:45 | GET and scrape keep every stored aggregate analysable |
| InfluencerRoutes.AnalyticsAfterGet | supabase/functions/server/index.tsx:88-100 | after GET the analytics route finds and analyses what GET answered |
| InfluencerRoutes.InfluencerServer.constructor | supabase/functions/server/index.tsx:35 | the store starts empty and valid |
| InfluencerRoutes.InfluencerServer.Generate | supabase/functions/server/index.tsx:130-176 | the generated aggregate is `MockInfluencerData` of the draws and is analysable: the generated profile and analytics, 15 posts and 10 reels built from the draws, the fixed demographics, `lastUpdated = now` |
| InfluencerRoutes.InfluencerServer.Get | supabase/functions/server/index.tsx:29-52 | the store becomes `AfterGet`: a hit answers the cached aggregate and leaves the store alone; a miss stores and answers `MockInfluencerData` of the draws |
| InfluencerRoutes.InfluencerServer.Scrape | supabase/functions/server/index.tsx:54-86 | the answer is `MockInfluencerData` of the draws, and the store becomes `AfterScrape` for it |
| InfluencerRoutes.InfluencerServer.Analytics | supabase/functions/server/index.tsx:88-105 | answers `AnalyticsAnswer` on the current store and changes nothing |
| App.GenerateClientPosts | App.tsx:151-176 | 12 posts with ids `post_1..post_12`, archetype `i mod 5`, likes in [8000, 33000), decreasing timestamps, distinct ids |
| App.GenerateClientReels | App.tsx:178-203 | 8 reels with ids `reel_1..reel_8`, archetype `i mod 5`, decreasing timestamps, distinct ids |
| App.PostVibesCycle | App.tsx:152-162 | post vibes cycle aesthetic, luxury, casual, energetic, aesthetic with period 5 |
| App.LoadInfluencerData | App.tsx:111-149 | the API's aggregate on success; otherwise `MOCK_DATA` with only posts and reels replaced by 12 and 8 generated items |
| Text.DecimalRoundTrip | components/ProfileHeader.tsx:29 | `n.toString()` read back as a number gives `n` |
| Text.JoinSplit | components/ProfileHeader.tsx:45 | `Join` undoes `Split`: splitting on a character and joining with it gives the string back |
| Text.FixedPointParts | supabase/functions/server/index.tsx:250 | a `toFixed` rendering is the integer part, a dot and exactly `places` padded fraction digits |
| Text.ToFixed | supabase/functions/server/index.tsx:250 | `x.toFixed(places)` is digits, a dot and `places` digits that read back, in units of the last place, within half a unit of `x` |
| Text.Split | components/ProfileHeader.tsx:45 | `split` gives at least one segment and no segment holds the separator |
| Collections.DedupFirstSeenOrder | components/PostsGrid.tsx:64-65 | `Array.from(new Set(s))` lists its values in the order of their first occurrence |
| Collections.Dedup | components/PostsGrid.tsx:64-65 | `Array.from(new Set(s))` holds exactly the values of `s`, each once |
| Collections.FilterIsSubsequence | components/PostsGrid.tsx:67-70 | `filter` keeps elements in their order |
| Collections.Filter | components/PostsGrid.tsx:67-70 | `filter` keeps exactly the elements satisfying the predicate; empty exactly when none does, all exactly when every one does |
| Collections.Take | components/PostsGrid.tsx:104 | `slice(0, n)` is the first `min(n, length)` elements |
| Collections.SortDescStable | supabase/functions/server/index.tsx:294 | the descending sort keeps equal values in their input order |
| Collections.SortDesc | supabase/functions/server/index.tsx:293-294 | the sort returns a permutation of its input (`Descending` and stability are `SortDescStable` and `AdvancedAnalytics.SortedTagTotals`) |
| Collections.TopOmitsOnlySmaller | supabase/functions/server/index.tsx:295 | an entry left out of the first n of a descending list is no larger than the last kept |
| Display.FormatNumber | components/PostsGrid.tsx:30-37 | below 1000 the decimal digits of the count, with no leading zero; from 1000 a `K`, from 1000000 an `M` suffix |
| Display.ScaledTenths | components/ProfileHeader.tsx:24-27 | a scaled rendering reads back as tenths within half a tenth of ten times count/unit |
| Display.FormatNumberTenths | components/EngagementMetrics.tsx:33-40 | from 1000 up, the shown tenths are ten times the count in thousands or millions, rounded |
| Display.FormatNumberPlainExample | components/ProfileHeader.tsx:29 | 892 renders as "892" |
| Display.FormatNumberThousandsExample | components/ProfileHeader.tsx:26-27 | 487200 renders as "487.2K" |
| Display.FormatNumberMillionsExample | components/ProfileHeader.tsx:24-25 | 1200000 renders as "1.2M" |
| Display.FormatNumberRoundsUpExample | components/ProfileHeader.tsx:26-27 | 999999 keeps the `K` suffix and renders as "1000.0K" |
| Display.VibeColor | components/ReelsSection.tsx:47-55 | gray exactly for a vibe that is none of the four known ones |
| Display.VibeColorsDistinct | components/PostsGrid.tsx:47-55 | the four known vibes get four different colours |
| Display.CycleWindow | components/PostsGrid.tsx:120 | the picture choice repeats every six cards, and six consecutive cards differ when the six pictures do |
| PostsGrid.QualityBadge | components/PostsGrid.tsx:57-62 | Excellent/default from 90, Good/secondary from 80, Average/secondary from 70, Needs Work/destructive below |
| PostsGrid.QualityBadgeMonotone | components/PostsGrid.tsx:57-62 | a higher score never gets a worse badge |
| PostsGrid.FilteredPosts | components/PostsGrid.tsx:67-70 | "all" keeps every post; otherwise a post is kept exactly when its tags hold the filter or its vibe equals it; the order is kept |
| PostsGrid.ShowsEmptyState | components/PostsGrid.tsx:269 | the empty state shows exactly when no post matches; under "all" exactly when there are no posts |
| PostsGrid.UniqueTags | components/PostsGrid.tsx:64 | every tag of any post exactly once, in first-seen order |
| PostsGrid.UniqueVibes | components/PostsGrid.tsx:65 | every vibe exactly once, in first-seen order |
| PostsGrid.TagButtons | components/PostsGrid.tsx:104 | at most five tag buttons, the first five unique tags |
| PostsGrid.PostImages | components/PostsGrid.tsx:120 | the card's picture is one of the six, repeats every six cards, and six consecutive cards show six different pictures |
| PostsGrid.SampleImagesDistinct | components/PostsGrid.tsx:73-80 | the six sample pictures are pairwise different |
| ReelsSection.EngagementRate | components/ReelsSection.tsx:57-59 | the rate times the views is (likes + comments) times 100; it equals the server's reel rate |
| ReelsSection.Performance | components/ReelsSection.tsx:279-280 | High Performing/default above 5, Good/secondary above 2 up to 5, Needs Improvement/destructive at 2 or less |
| ReelsSection.PercentText | components/ReelsSection.tsx:257 | one decimal and a percent sign; the digits read back within half a tenth of the value |
| ReelsSection.FilteredReels | components/ReelsSection.tsx:64-67 | the same tag-or-vibe rule as for posts, "all" keeps every reel, order kept |
| ReelsSection.UniqueVibes | components/ReelsSection.tsx:61 | every reel vibe exactly once, in first-seen order |
| ReelsSection.UniqueTags | components/ReelsSection.tsx:62 | every reel tag exactly once, in first-seen order |
| ReelsSection.TagButtons | components/ReelsSection.tsx:101 | at most four tag buttons, the first four unique tags |
| ReelsSection.TotalAppend | components/ReelsSection.tsx:120 | the sum over a concatenation is the sum of the sums |
| ReelsSection.TotalViewsAgree | components/ReelsSection.tsx:120 | the card's total views equal the server's `totalViews` |
| ReelsSection.SubsequenceTotal | components/ReelsSection.tsx:120-132 | leaving reels out never raises a total |
| ReelsSection.FilteredTotalAtMost | components/ReelsSection.tsx:120-132 | the totals over all reels are at least those of the filtered reels, and equal under "all" |
| ReelsSection.EachAtMostTotal | components/ReelsSection.tsx:120-132 | every reel's count is at most the total |
| ReelsSection.AverageText | components/ReelsSection.tsx:138 | "NaN%" exactly for no reels, otherwise `PercentText` of the mean rate: the mean with one decimal, within half a tenth, and a percent sign |
| ReelsSection.SummaryOf | components/ReelsSection.tsx:114-140 | the cards add up every reel, whatever the filter: views are the server's `totalViews`, likes and comments the totals over all reels, each through `formatNumber`, and the average is `AverageText` of all reels |
| ReelsSection.SumReelRatesBounds | supabase/functions/server/index.tsx:264 | n rates in [lo, hi] sum to within [n·lo, n·hi] |
| ReelsSection.AverageWithin | components/ReelsSection.tsx:138 | the average engagement lies in [lo, hi] when every reel's rate does |
| ReelsSection.ReelThumbnails | components/ReelsSection.tsx:149 | the thumbnail is one of the six, repeats every six cards, and six consecutive cards differ |
| ReelsSection.SampleThumbnailsDistinct | components/ReelsSection.tsx:70-77 | the six thumbnails are pairwise different |
| ProfileHeader.FirstChars | components/ProfileHeader.tsx:45 | at most one character per segment |
| ProfileHeader.WordStarts | components/ProfileHeader.tsx:45 | the word starts contain no space |
| ProfileHeader.Initials | components/ProfileHeader.tsx:45 | the initials are exactly the first letters of the words, in order; empty segments add nothing |
| ProfileHeader.InitialsExample | components/ProfileHeader.tsx:45 | "A  B " gives "AB" |
| ProfileHeader.HeaderOf | components/ProfileHeader.tsx:56-108 | verified mark and "Verified Account" badge exactly for a verified profile; initials are the word starts; the counts are `formatNumber` of posts, followers and following, in that order |
| EngagementMetrics.EngagementVerdict | components/EngagementMetrics.tsx:255 | Excellent above 3, Good above 1.5 up to 3, Needs Improvement at 1.5 or less |
| EngagementMetrics.EngagementVerdictMonotone | components/EngagementMetrics.tsx:255 | a higher rate never gets a worse verdict |
| EngagementMetrics.GrowthBadgeVariant | components/EngagementMetrics.tsx:263 | default exactly above 10, secondary otherwise |
| EngagementMetrics.EngagementByTypeIsWhole | components/EngagementMetrics.tsx:60-64 | likes, comments and shares add up to 100 |
| AudienceDemographics.GenderData | components/AudienceDemographics.tsx:33-37 | Female, Male, Other in that order with the split's values, totalling the split |
| AudienceDemographics.PrimaryGender | components/AudienceDemographics.tsx:94 | Female exactly when female > male, otherwise Male |
| AudienceDemographics.Majority | components/AudienceDemographics.tsx:97 | the larger of female and male |
| AudienceDemographics.MajorityOfPrimary | components/AudienceDemographics.tsx:94-97 | the majority figure is the primary gender's share; Other affects neither |
| AudienceDemographics.Bars | components/AudienceDemographics.tsx:39-47 | one bar per key, in key order, with the value unchanged |
| AudienceDemographics.BarsKeepEntries | components/AudienceDemographics.tsx:39-47 | the bars read back as the entries, with the same total |
| AudienceDemographics.MockBarsAreWhole | App.tsx:79-98 | the age and country charts of the fallback record add up to 100 |
| AudienceDemographics.TopCountries | components/AudienceDemographics.tsx:391 | at most five countries, the first five, unchanged |
| AudienceDemographics.DeviceUsageIsWhole | components/AudienceDemographics.tsx:74-78 | mobile, desktop and tablet add up to 100 |

## Left out

- HTTP plumbing is not modelled: the web framework, CORS, the logger, the health route, JSON responses, and the 500 answers of the `catch` blocks.
- The key-value store is a map. Its asynchronous behaviour, durability and the one-hour caching comment are not modelled.
- The scrape route's failure branch is not modelled. It writes a "failed" status and refers to `username` outside the block that declares it.
- The `setTimeout` delays are not modelled.
- `performContentAnalysis` and the analyze-content route are not modelled. They return random numbers and fixed strings.
- `Math.random()` and `Date.now()` are inputs, as described above.
- One `now` serves a whole generated aggregate. The source reads the clock once per item.
- InfluencerRoutes.AfterScrape: the scrape status timestamp is the `now` the aggregate was generated with. The source reads the clock again when it writes the status.
- ISO-8601 timestamp strings are milliseconds here.
- `toFixed` and `Number(toFixed)` are modelled on exact rationals with halves rounded up. IEEE-754 doubles can round a value printed with a trailing 5 the other way. The rendered strings therefore agree with JavaScript except at such ties.
- `Math.pow` and `Math.floor` in the growth projection are computed on exact reals, not doubles.
- ProfileHeader.Initials: a string is a sequence of characters. JavaScript's `n[0]` is a UTF-16 code unit and takes half of a character outside the Basic Multilingual Plane.
- Photo URLs are built from the draws. Captions and bios keep their mis-encoded emoji as opaque code points.
- JavaScript orders integer-like object keys before the others. No key in this system is integer-like, so entry lists keep plain insertion order.
- InfluencerRoutes.Cached: treats only a stored aggregate as a hit. The source treats any truthy value as one; the routes only ever store aggregates under aggregate keys.
- AdvancedAnalytics.AnalyticsOf and the averages require non-empty posts and reels, positive followers and positive views. The source divides unguarded and would produce `NaN` or `Infinity`. Every aggregate the routes store meets these requirements (`InfluencerRoutes.RoutesKeepStoreValid`).
- ReelsSection.AverageText: for an empty reel list it models the `NaN%` the card shows. A reel with zero views, which would show `Infinity` or `NaN`, is excluded by its precondition.
- React rendering, dialogs, charts, `formatDate`, the loading screen and the static mock charts are not modelled. Those charts are the weekly and monthly engagement, activity by hour and interests.
