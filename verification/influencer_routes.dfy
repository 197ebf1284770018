/** The three influencer routes of the server as cache-aside decisions over
    its key-value store: GET returns the stored aggregate or generates,
    stores and returns one; scrape regenerates and overwrites it and records
    a scrape status; analytics derives the advanced analytics from the
    stored aggregate or answers "not found".

    The store is a map from keys to stored values. The pure functions below
    say what each route answers and what the store becomes; the class
    `InfluencerServer` performs the routes on its own store. */
module InfluencerRoutes {
  import opened Text
  import opened Collections
  import opened Influencer
  import opened MockContent
  import opened AdvancedAnalytics

  /** What the routes write: an aggregate under `influencer:<user>` and a
      status record under `scrape_status:<user>`. */
  datatype StoredValue =
    | InfluencerRecord(data: InfluencerData)
    | ScrapeStatus(status: string, timestamp: int, postsScraped: nat, reelsScraped: nat)

  type Store = map<string, StoredValue>

  function InfluencerKey(username: string): (k: string)
    ensures |k| > 0 && k[0] == 'i'
  {
    "influencer:" + username
  }

  function ScrapeStatusKey(username: string): (k: string)
    ensures |k| > 0 && k[0] == 's'
  {
    "scrape_status:" + username
  }

  /** Different users never share a key, and an aggregate key is never a
      status key. */
  lemma KeysSeparate(u: string, v: string)
    ensures InfluencerKey(u) == InfluencerKey(v) <==> u == v
    ensures ScrapeStatusKey(u) == ScrapeStatusKey(v) <==> u == v
    ensures InfluencerKey(u) != ScrapeStatusKey(v)
  {
    if InfluencerKey(u) == InfluencerKey(v) {
      AppendCancel("influencer:", u, v);
    }
    if ScrapeStatusKey(u) == ScrapeStatusKey(v) {
      AppendCancel("scrape_status:", u, v);
    }
  }

  /** Every aggregate key holds an aggregate the analytics can be computed
      on: the routes only ever store generated aggregates there. */
  ghost predicate StoreValid(kv: Store) {
    forall u :: InfluencerKey(u) in kv ==>
      kv[InfluencerKey(u)].InfluencerRecord? && Analyzable(kv[InfluencerKey(u)].data)
  }

  /** `await kv.get('influencer:' + username)`. */
  function Cached(kv: Store, username: string): (r: Option<InfluencerData>)
    ensures r.Some? <==> InfluencerKey(username) in kv && kv[InfluencerKey(username)].InfluencerRecord?
  {
    var key := InfluencerKey(username);
    if key in kv && kv[key].InfluencerRecord? then Some(kv[key].data) else None
  }

  /** What GET answers, `generated` being the aggregate it would generate. */
  function GetResponse(kv: Store, username: string, generated: InfluencerData): InfluencerData {
    match Cached(kv, username)
    case Some(data) => data
    case None => generated
  }

  /** The store after GET: unchanged on a hit, the generated aggregate stored on
      a miss. */
  function AfterGet(kv: Store, username: string, generated: InfluencerData): (kv': Store)
    ensures Cached(kv', username) == Some(GetResponse(kv, username, generated))
    ensures forall k | k != InfluencerKey(username) :: k in kv' <==> k in kv
    ensures forall k | k != InfluencerKey(username) && k in kv :: kv'[k] == kv[k]
  {
    if Cached(kv, username).Some? then kv
    else kv[InfluencerKey(username) := InfluencerRecord(generated)]
  }

  /** The store after a successful scrape: the generated aggregate overwrites
      any stored one and a completed status records the counts scraped. */
  function AfterScrape(kv: Store, username: string, generated: InfluencerData, now: int): (kv': Store)
    ensures Cached(kv', username) == Some(generated)
    ensures ScrapeStatusKey(username) in kv'
    ensures kv'[ScrapeStatusKey(username)] == ScrapeStatus("completed", now, |generated.posts|, |generated.reels|)
    ensures forall k | k != InfluencerKey(username) && k != ScrapeStatusKey(username) ::
      (k in kv' <==> k in kv) && (k in kv ==> kv'[k] == kv[k])
  {
    KeysSeparate(username, username);
    kv[InfluencerKey(username) := InfluencerRecord(generated)]
      [ScrapeStatusKey(username) := ScrapeStatus("completed", now, |generated.posts|, |generated.reels|)]
  }

  datatype AnalyticsResponse = Found(report: AdvancedAnalyticsReport) | NotFound

  /** What the analytics route answers: not found when nothing is stored for
      the user, otherwise the advanced analytics of the stored aggregate. */
  function AnalyticsAnswer(kv: Store, username: string, hourDraws: seq<real>): (r: AnalyticsResponse)
    requires StoreValid(kv)
    requires |hourDraws| == 24 && forall i | 0 <= i < 24 :: IsDraw(hourDraws[i])
    ensures r.NotFound? <==> InfluencerKey(username) !in kv
    ensures r.Found? ==> r.report == AnalyticsOf(kv[InfluencerKey(username)].data, hourDraws)
  {
    var key := InfluencerKey(username);
    if key !in kv then NotFound else Found(AnalyticsOf(kv[key].data, hourDraws))
  }

  /** GET serves from the cache once something is stored: a second GET
      answers what the first did, whatever it would have generated, and
      leaves the store as the first left it. */
  lemma GetIsCached(kv: Store, username: string, generated1: InfluencerData, generated2: InfluencerData)
    ensures GetResponse(AfterGet(kv, username, generated1), username, generated2) == GetResponse(kv, username, generated1)
    ensures AfterGet(AfterGet(kv, username, generated1), username, generated2) == AfterGet(kv, username, generated1)
  {
  }

  /** A GET after a scrape answers the scraped aggregate. */
  lemma ScrapeThenGet(kv: Store, username: string, scraped: InfluencerData, now: int, generated: InfluencerData)
    ensures GetResponse(AfterScrape(kv, username, scraped, now), username, generated) == scraped
  {
  }

  /** GET and scrape keep every stored aggregate analysable when what they
      store is. */
  lemma RoutesKeepStoreValid(kv: Store, username: string, generated: InfluencerData, now: int)
    requires StoreValid(kv) && Analyzable(generated)
    ensures StoreValid(AfterGet(kv, username, generated))
    ensures StoreValid(AfterScrape(kv, username, generated, now))
  {
    var g := AfterGet(kv, username, generated);
    forall u | InfluencerKey(u) in g
      ensures g[InfluencerKey(u)].InfluencerRecord? && Analyzable(g[InfluencerKey(u)].data)
    {
      KeysSeparate(u, username);
    }
    var s := AfterScrape(kv, username, generated, now);
    forall u | InfluencerKey(u) in s
      ensures s[InfluencerKey(u)].InfluencerRecord? && Analyzable(s[InfluencerKey(u)].data)
    {
      KeysSeparate(u, username);
    }
  }

  /** After a GET the analytics route finds the aggregate GET answered. */
  lemma AnalyticsAfterGet(kv: Store, username: string, generated: InfluencerData, hourDraws: seq<real>)
    requires StoreValid(kv) && Analyzable(generated)
    requires |hourDraws| == 24 && forall i | 0 <= i < 24 :: IsDraw(hourDraws[i])
    ensures StoreValid(AfterGet(kv, username, generated))
    ensures AnalyticsAnswer(AfterGet(kv, username, generated), username, hourDraws)
      == Found(AnalyticsOf(GetResponse(kv, username, generated), hourDraws))
  {
    RoutesKeepStoreValid(kv, username, generated, 0);
  }

  /** The random draws one generated aggregate consumes. */
  datatype Draws = Draws(profile: ProfileDraws, posts: seq<PostDraws>, reels: seq<ReelDraws>)

  predicate ValidDraws(d: Draws) {
    ValidProfileDraws(d.profile) &&
    |d.posts| == ServerPostCount && |d.reels| == ServerReelCount &&
    (forall i | 0 <= i < |d.posts| :: ValidPostDraws(d.posts[i])) &&
    (forall i | 0 <= i < |d.reels| :: ValidReelDraws(d.reels[i]))
  }

  /** The server and its key-value store. */
  class InfluencerServer {
    var kv: Store

    ghost predicate Valid()
      reads this
    {
      StoreValid(kv)
    }

    constructor ()
      ensures Valid()
      ensures kv == map[]
    {
      kv := map[];
    }

    /** `generateMockInfluencerData`, whose result the analytics can always
        be computed on. */
    static method Generate(username: string, draws: Draws, now: int) returns (data: InfluencerData)
      requires ValidDraws(draws)
      ensures data == MockInfluencerData(username, draws.profile, draws.posts, draws.reels, now)
      ensures Analyzable(data)
      ensures data.profile == MockProfile(username, draws.profile)
      ensures data.analytics == MockAnalytics(draws.profile)
      ensures |data.posts| == 15 && |data.reels| == 10
      ensures forall i | 0 <= i < 15 :: data.posts[i] == MockPost(i, draws.posts[i], now, ServerPostMark)
      ensures forall i | 0 <= i < 10 :: data.reels[i] == MockReel(i, draws.reels[i], now, ServerReelMark)
      ensures data.demographics == MockDemographics
      ensures data.lastUpdated == Some(now)
    {
      data := GenerateMockInfluencerData(username, draws.profile, draws.posts, draws.reels, now);
    }

    /** GET `/influencer/:username`. */
    method Get(username: string, draws: Draws, now: int) returns (data: InfluencerData)
      requires Valid() && ValidDraws(draws)
      modifies this
      ensures Valid()
      ensures kv == AfterGet(old(kv), username, data)
      ensures old(Cached(kv, username)).Some? ==> data == old(Cached(kv, username)).value && kv == old(kv)
      ensures old(Cached(kv, username)).None? ==>
        data == MockInfluencerData(username, draws.profile, draws.posts, draws.reels, now) &&
        kv == old(kv)[InfluencerKey(username) := InfluencerRecord(data)]
    {
      var cached := Cached(kv, username);
      if cached.Some? {
        data := cached.value;
      } else {
        data := Generate(username, draws, now);
        RoutesKeepStoreValid(kv, username, data, now);
        kv := kv[InfluencerKey(username) := InfluencerRecord(data)];
      }
    }

    /** POST `/influencer/:username/scrape`, successful path. */
    method Scrape(username: string, draws: Draws, now: int) returns (data: InfluencerData)
      requires Valid() && ValidDraws(draws)
      modifies this
      ensures Valid()
      ensures data == MockInfluencerData(username, draws.profile, draws.posts, draws.reels, now)
      ensures kv == AfterScrape(old(kv), username, data, now)
    {
      data := Generate(username, draws, now);
      RoutesKeepStoreValid(kv, username, data, now);
      kv := kv[InfluencerKey(username) := InfluencerRecord(data)];
      kv := kv[ScrapeStatusKey(username) := ScrapeStatus("completed", now, |data.posts|, |data.reels|)];
    }

    /** GET `/influencer/:username/analytics`; it only reads the store. */
    method Analytics(username: string, hourDraws: seq<real>) returns (r: AnalyticsResponse)
      requires Valid()
      requires |hourDraws| == 24 && forall i | 0 <= i < 24 :: IsDraw(hourDraws[i])
      ensures r == AnalyticsAnswer(kv, username, hourDraws)
    {
      var key := InfluencerKey(username);
      if key !in kv {
        r := NotFound;
      } else {
        var report := GenerateAdvancedAnalytics(kv[key].data, hourDraws);
        r := Found(report);
      }
    }
  }
}
