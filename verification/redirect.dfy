/**
 * The `/api` redirect and analytics routes.
 *
 * `GET /redirect/:slug/:platform` sends the visitor to the stored destination of a
 * platform and counts the click; `GET /analytics/:slug` reads the counters back. Both
 * routes attach the slug (and platform) validation chains but never read their result,
 * so a request is decided by the lookup alone. Whether the counter update fails is a
 * parameter (`trackingFails`): the route catches that error and redirects anyway.
 */
module RedirectRoutes {
  import opened Wrappers
  import opened Text
  import opened LinkValidators
  import opened SmartLinkModel

  /** What the redirect route sends back: a 302 or one of its HTML pages. */
  datatype Page =
    | Redirected(location: string)
    | LinkNotFoundPage
    | PlatformUnavailablePage(platform: string, backTo: string)
    | ServerErrorPage
  {
    function Status(): int {
      match this
      case Redirected(_) => 302
      case LinkNotFoundPage => 404
      case PlatformUnavailablePage(_, _) => 404
      case ServerErrorPage => 500
    }
  }

  /** The destination `link.streamingLinks.get(platform)` reads: absent is `undefined`. */
  function Destination(d: SmartLink, platform: string): Option<string> {
    if platform in d.streamingLinks then Some(d.streamingLinks[platform]) else None
  }

  /** The page for `GET /redirect/:slug/:platform`: no document is the "not found" page,
      a document without a truthy destination for the platform is the "platform not
      available" page (its back link uses the slug as sent), and otherwise a 302 to the
      destination. */
  function RedirectPage(docs: map<string, SmartLink>, slug: string, platform: string): Page {
    match Lookup(docs, slug)
    case None => LinkNotFoundPage
    case Some(d) =>
      var destination := Destination(d, platform);
      if destination.None? || destination.value == "" then PlatformUnavailablePage(platform, slug)
      else Redirected(destination.value)
  }

  /** The collection after the route: a 302 whose counter update succeeded counted one
      click; anything else left it as it was. */
  function RedirectState(docs: map<string, SmartLink>, slug: string, platform: string, trackingFails: bool): map<string, SmartLink> {
    if RedirectPage(docs, slug, platform).Redirected? && !trackingFails then Clicked(docs, slug, platform)
    else docs
  }

  method Redirect(db: SmartLinkCollection, slug: string, platform: string, trackingFails: bool) returns (page: Page)
    requires db.Valid()
    modifies db
    ensures db.Valid()
    ensures page == RedirectPage(old(db.docs), slug, platform)
    ensures db.docs == RedirectState(old(db.docs), slug, platform, trackingFails)
  {
    var link := Lookup(db.docs, slug);
    if link.None? {
      return LinkNotFoundPage;
    }
    var destination := Destination(link.value, platform);
    if destination.None? || destination.value == "" {
      return PlatformUnavailablePage(platform, slug);
    }
    if !trackingFails {
      db.IncrementClicks(slug, platform);
    }
    page := Redirected(destination.value);
  }

  /** The redirect answers 302 or 404 only. It answers 302 exactly when a document
      carries the canonical form of the slug and has a non-empty destination for the
      platform, and the location is then exactly that destination. A failed counter
      update does not change the answer. */
  lemma RedirectOutcomes(docs: map<string, SmartLink>, slug: string, platform: string)
    ensures RedirectPage(docs, slug, platform).Status() in {302, 404}
    ensures RedirectPage(docs, slug, platform).Redirected? <==>
      LowerTrim(slug) in docs && platform in docs[LowerTrim(slug)].streamingLinks
      && docs[LowerTrim(slug)].streamingLinks[platform] != ""
    ensures RedirectPage(docs, slug, platform).Redirected? ==>
      RedirectPage(docs, slug, platform).location == docs[LowerTrim(slug)].streamingLinks[platform]
    ensures RedirectPage(docs, slug, platform) == LinkNotFoundPage <==> LowerTrim(slug) !in docs
  {
  }

  /** The allow-list is never consulted: a platform it refuses still redirects when the
      document has a destination for it, and a slug the pattern refuses ("Test-Song ")
      still finds the document filed under its canonical form. */
  lemma RedirectIgnoresValidation(docs: map<string, SmartLink>, slug: string, platform: string)
    requires PlatformErrors(platform) != [] && SlugParamErrors(slug) != []
    requires LowerTrim(slug) in docs
    requires platform in docs[LowerTrim(slug)].streamingLinks
    requires docs[LowerTrim(slug)].streamingLinks[platform] != ""
    ensures RedirectPage(docs, slug, platform) == Redirected(docs[LowerTrim(slug)].streamingLinks[platform])
  {
  }

  /** The lookup is by canonical slug: a slug and its canonical form lead to the same
      place and count the same click. */
  lemma RedirectIsCaseInsensitive(docs: map<string, SmartLink>, slug: string, platform: string)
    ensures RedirectPage(docs, slug, platform).Status() == RedirectPage(docs, LowerTrim(slug), platform).Status()
    ensures RedirectPage(docs, slug, platform).Redirected? ==>
      RedirectPage(docs, slug, platform) == RedirectPage(docs, LowerTrim(slug), platform)
    ensures Clicked(docs, slug, platform) == Clicked(docs, LowerTrim(slug), platform)
  {
    LowerTrimIdempotent(slug);
  }

  /** A counted click raises the document's total and the platform's counter (an absent
      counter counting as 0) by one each; every other counter, every other field of the
      document and every other document stay as they were. */
  lemma ClickChangesTwoCounters(docs: map<string, SmartLink>, slug: string, platform: string)
    requires LowerTrim(slug) in docs
    ensures var key := LowerTrim(slug);
      var before := docs[key];
      var after := Clicked(docs, slug, platform)[key];
      && Clicked(docs, slug, platform).Keys == docs.Keys
      && after.clickStats.totalViews == before.clickStats.totalViews + 1
      && Count(after.clickStats.clicks, platform) == Count(before.clickStats.clicks, platform) + 1
      && (forall q | q != platform :: Count(after.clickStats.clicks, q) == Count(before.clickStats.clicks, q))
      && after == before.(clickStats := after.clickStats)
    ensures forall k | k in docs && k != LowerTrim(slug) :: Clicked(docs, slug, platform)[k] == docs[k]
  {
    RecordClickCounts(docs[LowerTrim(slug)].clickStats, platform);
  }

  /** A request that does not redirect, or whose counter update fails, changes nothing. */
  lemma NoRedirectNoClick(docs: map<string, SmartLink>, slug: string, platform: string, trackingFails: bool)
    requires !RedirectPage(docs, slug, platform).Redirected? || trackingFails
    ensures RedirectState(docs, slug, platform, trackingFails) == docs
  {
  }

  // ---------------------------------------------------------------------------
  // GET /analytics/:slug

  const SummaryNotFoundMessage := "SmartLink non trouvé"
  const SummaryErrorMessage := "Erreur interne du serveur"

  /** The JSON the analytics route answers with. */
  datatype Summary =
    | Stats(slug: string, artist: string, title: string, totalViews: nat,
            clicksByPlatform: map<string, nat>, createdAt: int)
    | SummaryNotFound
    | SummaryFailed
  {
    function Status(): int {
      match this
      case Stats(_, _, _, _, _, _) => 200
      case SummaryNotFound => 404
      case SummaryFailed => 500
    }
  }

  /** The summary the route means to give: the document's names, slug, total, creation
      date and every click counter. */
  function AnalyticsSummary(docs: map<string, SmartLink>, slug: string): Summary {
    match Lookup(docs, slug)
    case None => SummaryNotFound
    case Some(d) =>
      Stats(d.slug, d.artist, d.title, d.clickStats.totalViews, d.clickStats.clicks, d.createdAt)
  }

  /** The loop that fills `clicksData`: one entry per stored counter, with its count. */
  method CopyClicks(clicks: map<string, nat>) returns (clicksData: map<string, nat>)
    ensures clicksData == clicks
  {
    clicksData := map[];
    var pending := clicks.Keys;
    while pending != {}
      invariant pending <= clicks.Keys
      invariant clicksData == map k | k in clicks && k !in pending :: clicks[k]
      decreases |pending|
    {
      var platform :| platform in pending;
      clicksData := clicksData[platform := clicks[platform]];
      pending := pending - {platform};
    }
  }

  /** The analytics route, reading the counters the way it is meant to. */
  method Analytics(db: SmartLinkCollection, slug: string) returns (summary: Summary)
    ensures summary == AnalyticsSummary(db.docs, slug)
  {
    var link := Lookup(db.docs, slug);
    if link.None? {
      return SummaryNotFound;
    }
    var d := link.value;
    var clicksData := CopyClicks(d.clickStats.clicks);
    summary := Stats(d.slug, d.artist, d.title, d.clickStats.totalViews, clicksData, d.createdAt);
  }

  /** The summary is 404 exactly when nothing carries the canonical slug; otherwise it
      reports exactly the stored counters, and on a well-kept collection its total is
      their sum. */
  lemma AnalyticsReportsCounters(docs: map<string, SmartLink>, slug: string)
    requires WellKeyed(docs)
    ensures AnalyticsSummary(docs, slug).Status() in {200, 404}
    ensures AnalyticsSummary(docs, slug) == SummaryNotFound <==> LowerTrim(slug) !in docs
    ensures AnalyticsSummary(docs, slug).Stats? ==>
      var d := docs[LowerTrim(slug)];
      var r := AnalyticsSummary(docs, slug);
      && r.clicksByPlatform == d.clickStats.clicks
      && r.totalViews == Sum(r.clicksByPlatform)
      && r.slug == LowerTrim(slug)
  {
  }

  /** After a counted redirect, the summary reports one more view and one more click on
      the platform. */
  lemma AnalyticsSeesClick(docs: map<string, SmartLink>, slug: string, platform: string)
    requires LowerTrim(slug) in docs
    ensures var before := AnalyticsSummary(docs, slug);
      var after := AnalyticsSummary(Clicked(docs, slug, platform), slug);
      && after.Stats? && before.Stats?
      && after.totalViews == before.totalViews + 1
      && Count(after.clicksByPlatform, platform) == Count(before.clicksByPlatform, platform) + 1
  {
    ClickChangesTwoCounters(docs, slug, platform);
  }

  // The route as written reads the document with `.lean()`, which returns the `clicks`
  // map as a plain object, and then iterates it with `for...of`, which throws on a plain
  // object; the catch answers 500. An empty `clicks` map is taken as not stored at all,
  // so only a document without counters gets through the loop; that is an assumption
  // about how Mongoose stores an empty map.

  /** The analytics route as written. */
  function AnalyticsAsWritten(docs: map<string, SmartLink>, slug: string): Summary {
    match Lookup(docs, slug)
    case None => SummaryNotFound
    case Some(d) =>
      if d.clickStats.clicks != map[] then SummaryFailed
      else Stats(d.slug, d.artist, d.title, d.clickStats.totalViews, map[], d.createdAt)
  }

  /** As written, once a link has been clicked through, its analytics answer 500 for
      good, where the intended summary reports the click. */
  lemma AnalyticsAsWrittenFailsAfterClick(docs: map<string, SmartLink>, slug: string, platform: string)
    requires LowerTrim(slug) in docs
    ensures AnalyticsAsWritten(Clicked(docs, slug, platform), slug) == SummaryFailed
    ensures AnalyticsSummary(Clicked(docs, slug, platform), slug).Stats?
    ensures platform in AnalyticsSummary(Clicked(docs, slug, platform), slug).clicksByPlatform
  {
    var key := LowerTrim(slug);
    assert platform in Clicked(docs, slug, platform)[key].clickStats.clicks;
  }

  /** As written and as intended agree on every link that was never clicked. */
  lemma AnalyticsAgreeBeforeClicks(docs: map<string, SmartLink>, slug: string)
    requires LowerTrim(slug) in docs ==> docs[LowerTrim(slug)].clickStats.clicks == map[]
    ensures AnalyticsAsWritten(docs, slug) == AnalyticsSummary(docs, slug)
  {
  }
}
