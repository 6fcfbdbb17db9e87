/**
 * The SmartLink document and the collection that holds it.
 *
 * `SmartLink` is one stored document; `NewDocument` is what `new SmartLink(body)` plus
 * the pre-save hook make of a request body, and `ApplyUpdate` what `findOneAndUpdate`
 * makes of a stored document and an update. `SmartLinkCollection` is the MongoDB
 * collection, a map from slug to document whose unique index is the map's key; its
 * methods are the model calls the routes make.
 */
module SmartLinkModel {
  import opened Wrappers
  import opened Text
  import opened RequestBody
  import LinkValidators

  /** The `analytics` sub-object. Its paths are plain strings with no setter. */
  datatype Analytics = Analytics(gtmId: Option<string>, ga4Id: Option<string>, googleAdsId: Option<string>)

  /** `clickStats`: the total and the per-platform counters. */
  datatype ClickStats = ClickStats(totalViews: nat, clicks: map<string, nat>)

  /** One stored document. Dates are milliseconds since the epoch. */
  datatype SmartLink = SmartLink(
    artist: string,
    title: string,
    slug: string,
    coverUrl: string,
    streamingLinks: map<string, string>,
    analytics: Analytics,
    clickStats: ClickStats,
    createdAt: int,
    updatedAt: int)

  // ---------------------------------------------------------------------------
  // Click counters

  /** The sum of the per-platform counters. */
  ghost function Sum(clicks: map<string, nat>): nat
    decreases |clicks|
  {
    if clicks == map[] then 0
    else
      var k :| k in clicks;
      clicks[k] + Sum(clicks - {k})
  }

  /** The sum does not depend on which key is taken out first. */
  lemma {:induction false} SumRemove(clicks: map<string, nat>, k: string)
    requires k in clicks
    ensures Sum(clicks) == clicks[k] + Sum(clicks - {k})
    decreases |clicks|
  {
    var j :| j in clicks && Sum(clicks) == clicks[j] + Sum(clicks - {j});
    if j != k {
      SumRemove(clicks - {j}, k);
      SumRemove(clicks - {k}, j);
      assert clicks - {j} - {k} == clicks - {k} - {j};
    }
  }

  /** A counter read the way `$inc` reads it: an absent counter is 0. */
  function Count(clicks: map<string, nat>, platform: string): nat {
    if platform in clicks then clicks[platform] else 0
  }

  /** Raising one counter by one raises the sum by one. */
  lemma SumIncrement(clicks: map<string, nat>, platform: string)
    ensures Sum(clicks[platform := Count(clicks, platform) + 1]) == Sum(clicks) + 1
  {
    var raised := clicks[platform := Count(clicks, platform) + 1];
    SumRemove(raised, platform);
    assert raised - {platform} == clicks - {platform};
    if platform in clicks {
      SumRemove(clicks, platform);
    } else {
      assert clicks - {platform} == clicks;
    }
  }

  /** The update `$inc: {'clickStats.totalViews': 1, 'clickStats.clicks.<platform>': 1}`. */
  function RecordClick(stats: ClickStats, platform: string): ClickStats {
    ClickStats(stats.totalViews + 1, stats.clicks[platform := Count(stats.clicks, platform) + 1])
  }

  /** A click raises exactly two counters, by one each; every other counter keeps its
      value, and a total that was the sum of the counters stays so. */
  lemma RecordClickCounts(stats: ClickStats, platform: string)
    ensures RecordClick(stats, platform).totalViews == stats.totalViews + 1
    ensures Count(RecordClick(stats, platform).clicks, platform) == Count(stats.clicks, platform) + 1
    ensures forall q | q != platform :: Count(RecordClick(stats, platform).clicks, q) == Count(stats.clicks, q)
    ensures stats.totalViews == Sum(stats.clicks) ==>
      RecordClick(stats, platform).totalViews == Sum(RecordClick(stats, platform).clicks)
  {
    SumIncrement(stats.clicks, platform);
  }

  // ---------------------------------------------------------------------------
  // Casting a request body into a document

  /** The `streamingLinks` path: an object becomes the map; anything else leaves the
      default, an empty map. */
  function LinksOf(l: LinksField): map<string, string> {
    if l.ObjectLinks? then l.entries else map[]
  }

  /** The `analytics` path in strict mode: the three declared keys are kept, any other
      key of the object is dropped. */
  function AnalyticsOf(a: Option<map<string, string>>): Analytics {
    Analytics(Field(a, GtmKey), Field(a, Ga4Key), Field(a, GoogleAdsKey))
  }

  /** The pre-save hook: a truthy slug is lower-cased and trimmed again, and `updatedAt`
      becomes the current time. */
  function PreSave(d: SmartLink, now: int): SmartLink {
    d.(slug := if d.slug != "" then LowerTrim(d.slug) else d.slug, updatedAt := now)
  }

  /** `new SmartLink(body)` followed by the pre-save hook: the `trim` setters on artist
      and title, the `trim` and `lowercase` setters on slug (which commute on every
      string, as only ASCII letters change case and none of them is whitespace), the
      defaults, and zeroed counters. The top-level identifiers have no path and vanish. */
  function NewDocument(p: Payload, now: int): SmartLink {
    PreSave(SmartLink(
      Trim(StrOf(p.artist)),
      Trim(StrOf(p.title)),
      LowerTrim(StrOf(p.slug)),
      p.coverUrl.GetOr(PlaceholderCover),
      LinksOf(p.streamingLinks),
      AnalyticsOf(p.analytics),
      ClickStats(0, map[]),
      now, now), now)
  }

  /** The schema validators: `required` on artist, title and slug (an empty string fails
      it) and `match` on slug. */
  predicate SchemaValid(d: SmartLink) {
    d.artist != "" && d.title != "" && LinkValidators.MatchesSlug(d.slug)
  }

  /** A key Mongoose accepts in a `Map` path: no "." anywhere, no leading "$", and none
      of the reserved names "__proto__", "constructor" and "prototype". */
  predicate MapKeyAllowed(k: string) {
    && (forall i | 0 <= i < |k| :: k[i] != '.') && !(|k| > 0 && k[0] == '$')
    && k != "__proto__" && k != "constructor" && k != "prototype"
  }

  /** Every key of a link map is one the `streamingLinks` map path accepts. */
  predicate LinkKeysAllowed(links: map<string, string>) {
    forall k | k in links :: MapKeyAllowed(k)
  }

  /** What a write accepts: the link keys cast into the `Map` path, and the schema
      validators pass. */
  predicate Writable(d: SmartLink) {
    LinkKeysAllowed(d.streamingLinks) && SchemaValid(d)
  }

  /** What every stored document satisfies: it was writable, its names are trimmed, its
      slug is canonical, and its total is the sum of its counters. */
  ghost predicate Stored(d: SmartLink) {
    && Writable(d)
    && Trim(d.artist) == d.artist && Trim(d.title) == d.title
    && LowerTrim(d.slug) == d.slug
    && d.clickStats.totalViews == Sum(d.clickStats.clicks)
  }

  /** A new document starts with no views and no clicks, is created and updated at the
      same instant, takes the placeholder cover and an empty link map when the body has
      none, stores the body's slug in canonical form and its names trimmed, and keeps only
      the three declared analytics keys. */
  lemma NewDocumentDefaults(p: Payload, now: int)
    ensures var d := NewDocument(p, now);
      && d.clickStats == ClickStats(0, map[])
      && d.createdAt == now && d.updatedAt == now
      && (p.coverUrl.None? ==> d.coverUrl == PlaceholderCover)
      && (!p.streamingLinks.ObjectLinks? ==> d.streamingLinks == map[])
      && d.slug == LowerTrim(StrOf(p.slug))
      && Trim(d.artist) == d.artist && Trim(d.title) == d.title
      && d.analytics.gtmId == Field(p.analytics, GtmKey)
  {
    var s := LowerTrim(StrOf(p.slug));
    LowerTrimIdempotent(StrOf(p.slug));
    TrimIdempotent(StrOf(p.artist));
    TrimIdempotent(StrOf(p.title));
  }

  /** A writable new document is fit to be stored. */
  lemma NewDocumentStored(p: Payload, now: int)
    requires Writable(NewDocument(p, now))
    ensures Stored(NewDocument(p, now))
  {
    NewDocumentDefaults(p, now);
    assert Sum(map[]) == 0;
    LinkValidators.SlugIsCanonical(NewDocument(p, now).slug);
  }

  /** The pre-save hook leaves a canonical slug as it is. */
  lemma PreSaveKeepsCanonicalSlug(d: SmartLink, now: int)
    requires LowerTrim(d.slug) == d.slug
    ensures PreSave(d, now).slug == d.slug && PreSave(d, now).updatedAt == now
  {
  }

  // ---------------------------------------------------------------------------
  // Updating a document

  /** `findOneAndUpdate(filter, {...body, updatedAt: now})`: every path the body carries
      is overwritten (cast through its setters), every other path keeps its value, and
      `updatedAt` becomes `now`. The pre-save hook does not run on this call. An
      `analytics` object replaces the whole sub-object. */
  function ApplyUpdate(d: SmartLink, p: Payload, now: int): SmartLink {
    d.(artist := if p.artist.Some? then Trim(p.artist.value) else d.artist,
       title := if p.title.Some? then Trim(p.title.value) else d.title,
       slug := if p.slug.Some? then LowerTrim(p.slug.value) else d.slug,
       coverUrl := p.coverUrl.GetOr(d.coverUrl),
       streamingLinks := if p.streamingLinks.ObjectLinks? then p.streamingLinks.entries else d.streamingLinks,
       analytics := if p.analytics.Some? then AnalyticsOf(p.analytics) else d.analytics,
       updatedAt := now)
  }

  /** An update keeps the counters and the creation date, and a stored document that is
      still writable after the update is still fit to be stored. */
  lemma ApplyUpdateStored(d: SmartLink, p: Payload, now: int)
    requires Stored(d)
    requires Writable(ApplyUpdate(d, p, now))
    ensures ApplyUpdate(d, p, now).clickStats == d.clickStats
    ensures ApplyUpdate(d, p, now).createdAt == d.createdAt
    ensures Stored(ApplyUpdate(d, p, now))
  {
    var u := ApplyUpdate(d, p, now);
    if p.artist.Some? {
      TrimIdempotent(p.artist.value);
    }
    if p.title.Some? {
      TrimIdempotent(p.title.value);
    }
    LinkValidators.SlugIsCanonical(u.slug);
  }

  // ---------------------------------------------------------------------------
  // The collection

  /** `findOne({slug})`: Mongoose casts the filter value through the slug's `trim` and
      `lowercase` setters, so the lookup is by the canonical form of `slug`. */
  function Lookup(docs: map<string, SmartLink>, slug: string): Option<SmartLink> {
    if LowerTrim(slug) in docs then Some(docs[LowerTrim(slug)]) else None
  }

  /** Every document of `docs` is filed under its own slug. */
  predicate SlugKeyed(docs: map<string, SmartLink>) {
    forall k | k in docs :: docs[k].slug == k
  }

  /** Every document of `docs` is filed under its own slug and is fit to be stored. */
  ghost predicate WellKeyed(docs: map<string, SmartLink>) {
    SlugKeyed(docs) && forall k | k in docs :: Stored(docs[k])
  }

  /** Storing a fit document under its own slug keeps the collection well keyed. */
  lemma WellKeyedPut(docs: map<string, SmartLink>, d: SmartLink)
    requires WellKeyed(docs) && Stored(d)
    ensures WellKeyed(docs[d.slug := d])
  {
    var docs' := docs[d.slug := d];
    forall k | k in docs' ensures docs'[k].slug == k && Stored(docs'[k]) {
      if k != d.slug {
        assert docs'[k] == docs[k];
      }
    }
  }

  /** Removing a key keeps the collection well keyed. */
  lemma WellKeyedRemove(docs: map<string, SmartLink>, key: string)
    requires WellKeyed(docs)
    ensures WellKeyed(docs - {key})
  {
    var docs' := docs - {key};
    forall k | k in docs' ensures docs'[k].slug == k && Stored(docs'[k]) {
      assert docs'[k] == docs[k];
    }
  }

  /** The collection after `$inc` on the document the filter finds, if any. */
  function Clicked(docs: map<string, SmartLink>, slug: string, platform: string): map<string, SmartLink> {
    var key := LowerTrim(slug);
    if key in docs then docs[key := docs[key].(clickStats := RecordClick(docs[key].clickStats, platform))]
    else docs
  }

  /** A click keeps the collection well keyed: the counters stay in step. */
  lemma ClickedWellKeyed(docs: map<string, SmartLink>, slug: string, platform: string)
    requires WellKeyed(docs)
    ensures WellKeyed(Clicked(docs, slug, platform))
  {
    var key := LowerTrim(slug);
    if key in docs {
      var d := docs[key].(clickStats := RecordClick(docs[key].clickStats, platform));
      RecordClickCounts(docs[key].clickStats, platform);
      WellKeyedPut(docs, d);
    }
  }

  /** The result of a write. */
  datatype WriteError = CastFailed | ValidationFailed | DuplicateKey
  datatype WriteResult = Written(doc: SmartLink) | Refused(error: WriteError) | NoMatch

  /** What `create` does with a body: casting and the schema validators run first (a
      link key the map path refuses is recorded as a validation error), then the unique
      index on slug. */
  function CreateResult(docs: map<string, SmartLink>, p: Payload, now: int): WriteResult {
    var d := NewDocument(p, now);
    if !Writable(d) then Refused(ValidationFailed)
    else if d.slug in docs then Refused(DuplicateKey)
    else Written(d)
  }

  /** A write by `create` is the document made from the body, whose link keys the map
      path accepts and which the schema accepts, under a slug no document had. */
  lemma CreateWritesFreshDocument(docs: map<string, SmartLink>, p: Payload, now: int)
    ensures CreateResult(docs, p, now).Written? <==>
      && LinkKeysAllowed(NewDocument(p, now).streamingLinks) && SchemaValid(NewDocument(p, now))
      && NewDocument(p, now).slug !in docs
    ensures CreateResult(docs, p, now).Written? ==> CreateResult(docs, p, now).doc == NewDocument(p, now)
    ensures !CreateResult(docs, p, now).NoMatch?
  {
  }

  /** The update casts: a link object in the body has only keys the map path accepts. */
  predicate UpdateCasts(p: Payload) {
    p.streamingLinks.ObjectLinks? ==> LinkKeysAllowed(p.streamingLinks.entries)
  }

  /** What `findOneAndUpdate({slug}, body, {new: true, runValidators: true})` does: the
      update is cast before the query is sent, so a refused link key fails whether or not
      a document matches; then no match, an update the validators refuse, an update that
      renames the document onto another document's slug, or the updated document. */
  function UpdateResult(docs: map<string, SmartLink>, slug: string, p: Payload, now: int): WriteResult {
    var key := LowerTrim(slug);
    if !UpdateCasts(p) then Refused(CastFailed)
    else if key !in docs then NoMatch
    else
      var u := ApplyUpdate(docs[key], p, now);
      if !Writable(u) then Refused(ValidationFailed)
      else if u.slug != key && u.slug in docs then Refused(DuplicateKey)
      else Written(u)
  }

  /** An update that does not cast fails before the query; one that casts finds nothing
      exactly when no document has the canonical slug. A write is the found document
      updated, whose link keys the map path accepts and which the schema accepts, under
      its old slug or one no document had. */
  lemma UpdateWritesFreeSlug(docs: map<string, SmartLink>, slug: string, p: Payload, now: int)
    ensures UpdateResult(docs, slug, p, now) == Refused(CastFailed) <==> !UpdateCasts(p)
    ensures UpdateResult(docs, slug, p, now).NoMatch? <==> UpdateCasts(p) && LowerTrim(slug) !in docs
    ensures UpdateResult(docs, slug, p, now).Written? ==>
      var u := UpdateResult(docs, slug, p, now).doc;
      && LowerTrim(slug) in docs && u == ApplyUpdate(docs[LowerTrim(slug)], p, now)
      && LinkKeysAllowed(u.streamingLinks) && SchemaValid(u)
      && (u.slug == LowerTrim(slug) || u.slug !in docs)
  {
  }

  /** `A` newest first, as `sort({createdAt: -1})` orders it. */
  predicate NewestFirst(s: seq<SmartLink>) {
    forall i, j | 0 <= i < j < |s| :: s[i].createdAt >= s[j].createdAt
  }

  /** Puts `d` into a newest-first sequence, before the documents no newer than it. */
  function InsertNewestFirst(s: seq<SmartLink>, d: SmartLink): (r: seq<SmartLink>)
    requires NewestFirst(s)
    ensures NewestFirst(r)
    ensures |r| == |s| + 1
    ensures multiset(r) == multiset(s) + multiset{d}
    ensures d in r && forall x | x in s :: x in r
    ensures forall x | x in r :: x == d || x in s
  {
    if s == [] || d.createdAt >= s[0].createdAt then [d] + s
    else
      var rest := InsertNewestFirst(s[1..], d);
      assert s == [s[0]] + s[1..];
      NoNewerThanHead(s, rest, d);
      PrependNewestFirst(s[0], rest);
      [s[0]] + rest
  }

  /** The head of a newest-first sequence is no older than anything after it, nor than an
      older `d`. */
  lemma NoNewerThanHead(s: seq<SmartLink>, rest: seq<SmartLink>, d: SmartLink)
    requires NewestFirst(s) && s != [] && d.createdAt < s[0].createdAt
    requires forall x | x in rest :: x == d || x in s[1..]
    ensures forall x | x in rest :: x.createdAt <= s[0].createdAt
  {
    forall x | x in rest ensures x.createdAt <= s[0].createdAt {
      if x != d {
        var m :| 0 <= m < |s[1..]| && s[1..][m] == x;
        assert s[1..][m] == s[m + 1];
      }
    }
  }

  /** A document no older than any of a newest-first sequence may go in front of it. */
  lemma PrependNewestFirst(x: SmartLink, rest: seq<SmartLink>)
    requires NewestFirst(rest)
    requires forall y | y in rest :: y.createdAt <= x.createdAt
    ensures NewestFirst([x] + rest)
  {
    var r := [x] + rest;
    forall i, j | 0 <= i < j < |r| ensures r[i].createdAt >= r[j].createdAt {
      assert r[j] == rest[j - 1];
      if i > 0 {
        assert r[i] == rest[i - 1];
      } else {
        assert rest[j - 1] in rest;
      }
    }
  }

  class SmartLinkCollection {
    /** The documents, by slug. */
    var docs: map<string, SmartLink>

    ghost predicate Valid()
      reads this
    {
      WellKeyed(docs)
    }

    constructor()
      ensures Valid() && docs == map[]
    {
      docs := map[];
    }

    /** `find().sort({createdAt: -1})`: every document exactly once, newest first. */
    method Find() returns (all: seq<SmartLink>)
      requires SlugKeyed(docs)
      ensures NewestFirst(all)
      ensures |all| == |docs|
      ensures forall k | k in docs :: docs[k] in all
      ensures forall d | d in all :: d.slug in docs && docs[d.slug] == d
    {
      all := [];
      var pending := docs.Keys;
      while pending != {}
        invariant pending <= docs.Keys
        invariant NewestFirst(all)
        invariant |all| + |pending| == |docs|
        invariant forall k | k in docs && k !in pending :: docs[k] in all
        invariant forall d | d in all :: d.slug in docs && d.slug !in pending && docs[d.slug] == d
        decreases |pending|
      {
        var key :| key in pending;
        var next := InsertNewestFirst(all, docs[key]);
        all := next;
        pending := pending - {key};
      }
    }

    /** `SmartLink.create(body)` at time `now`: only a write that passes the schema and
        the unique index changes the collection, and then by exactly one new document. */
    method Create(p: Payload, now: int) returns (w: WriteResult)
      requires Valid()
      modifies this
      ensures Valid()
      ensures w == CreateResult(old(docs), p, now)
      ensures w.Written? ==> docs == old(docs)[w.doc.slug := w.doc]
      ensures !w.Written? ==> docs == old(docs)
    {
      var d := NewDocument(p, now);
      if !Writable(d) {
        w := Refused(ValidationFailed);
      } else if d.slug in docs {
        w := Refused(DuplicateKey);
      } else {
        NewDocumentStored(p, now);
        WellKeyedPut(docs, d);
        docs := docs[d.slug := d];
        w := Written(d);
      }
    }

    /** `findOneAndUpdate` on the document the filter finds: only a write changes the
        collection, replacing the found document by its updated form, under its possibly
        new slug. */
    method FindOneAndUpdate(slug: string, p: Payload, now: int) returns (w: WriteResult)
      requires Valid()
      modifies this
      ensures Valid()
      ensures w == UpdateResult(old(docs), slug, p, now)
      ensures w.Written? ==> docs == (old(docs) - {LowerTrim(slug)})[w.doc.slug := w.doc]
      ensures !w.Written? ==> docs == old(docs)
    {
      var key := LowerTrim(slug);
      if !UpdateCasts(p) {
        w := Refused(CastFailed);
        return;
      }
      if key !in docs {
        w := NoMatch;
        return;
      }
      var u := ApplyUpdate(docs[key], p, now);
      if !Writable(u) {
        w := Refused(ValidationFailed);
      } else if u.slug != key && u.slug in docs {
        w := Refused(DuplicateKey);
      } else {
        ApplyUpdateStored(docs[key], p, now);
        WellKeyedRemove(docs, key);
        WellKeyedPut(docs - {key}, u);
        docs := (docs - {key})[u.slug := u];
        w := Written(u);
      }
    }

    /** `findOneAndDelete({slug})`: removes the document the filter finds and returns it. */
    method FindOneAndDelete(slug: string) returns (removed: Option<SmartLink>)
      requires Valid()
      modifies this
      ensures Valid()
      ensures removed == Lookup(old(docs), slug)
      ensures docs == old(docs) - {LowerTrim(slug)}
    {
      removed := Lookup(docs, slug);
      WellKeyedRemove(docs, LowerTrim(slug));
      docs := docs - {LowerTrim(slug)};
    }

    /** `updateOne({slug}, {$inc: ...})`: the found document's two counters rise by one;
        no match changes nothing. */
    method IncrementClicks(slug: string, platform: string)
      requires Valid()
      modifies this
      ensures Valid()
      ensures docs == Clicked(old(docs), slug, platform)
    {
      ClickedWellKeyed(docs, slug, platform);
      docs := Clicked(docs, slug, platform);
    }
  }
}
