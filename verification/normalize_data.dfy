/**
 * `normalizeSmartLinkData`, the middleware POST runs before validation. It rewrites the
 * request body in place: trims the names, canonicalises the slug, substitutes a cover
 * image, replaces a non-object `streamingLinks` by `{}`, deletes the blank links one key
 * at a time, and deletes whitespace-only analytics identifiers.
 *
 * `Normalized` states the whole rewrite as one function; `NormalizeSmartLinkData` and
 * `DropBlankLinks` perform it step by step and are proved to compute it.
 */
module NormalizeData {
  import opened Wrappers
  import opened Text
  import opened RequestBody

  /** The links whose value is neither empty nor whitespace only, with their values. */
  function NonBlank(links: map<string, string>): (kept: map<string, string>)
    ensures forall k | k in kept :: k in links && kept[k] == links[k] && !IsBlank(kept[k])
    ensures forall k | k in links && !IsBlank(links[k]) :: k in kept
  {
    map k | k in links && !IsBlank(links[k]) :: links[k]
  }

  /** The `streamingLinks` value after lines 16-25: anything that is not an object becomes
      `{}`, and an object loses its blank entries. An array is an object to `typeof`, so
      it is kept (and then rejected by the validator). */
  function NormalizedLinks(l: LinksField): LinksField {
    match l
    case NonObjectLinks => ObjectLinks(map[])
    case ArrayLinks => ArrayLinks
    case ObjectLinks(entries) => ObjectLinks(NonBlank(entries))
  }

  /** The identifier keys the normaliser inspects inside `analytics`. */
  predicate IsIdKey(key: string) {
    key == GtmKey || key == Ga4Key || key == GoogleAdsKey
  }

  /** The guard `a[key] && a[key].trim() === ''`: present, not empty, yet blank. The
      empty string fails the first conjunct, so it is kept. */
  predicate WhitespaceOnly(a: map<string, string>, key: string) {
    key in a && a[key] != "" && IsBlank(a[key])
  }

  /** `analytics` after lines 28-38. */
  function DropBlankIds(a: map<string, string>): map<string, string> {
    map k | k in a && !(IsIdKey(k) && WhitespaceOnly(a, k)) :: a[k]
  }

  /** Lines 6-7: a truthy name is trimmed, anything else is left as it is. */
  function TrimmedName(v: Option<string>): Option<string> {
    if Truthy(v) then Some(Trim(v.value)) else v
  }

  /** Line 8: a truthy slug is lower-cased, then trimmed. */
  function CanonicalSlug(v: Option<string>): Option<string> {
    if Truthy(v) then Some(LowerTrim(v.value)) else v
  }

  /** Lines 11-13: a missing or blank cover becomes the placeholder. */
  function CoverOrPlaceholder(v: Option<string>): Option<string> {
    if !Truthy(v) || IsBlank(v.value) then Some(PlaceholderCover) else v
  }

  /** Lines 28-38: only an `analytics` object is inspected. */
  function NormalizedAnalytics(a: Option<map<string, string>>): Option<map<string, string>> {
    if a.Some? then Some(DropBlankIds(a.value)) else None
  }

  /** The whole body after the middleware ran. The top-level identifiers are untouched. */
  function Normalized(b: Payload): Payload {
    b.(artist := TrimmedName(b.artist),
       title := TrimmedName(b.title),
       slug := CanonicalSlug(b.slug),
       coverUrl := CoverOrPlaceholder(b.coverUrl),
       streamingLinks := NormalizedLinks(b.streamingLinks),
       analytics := NormalizedAnalytics(b.analytics))
  }

  /** The `Object.keys(...).forEach(key => { ... delete ... })` loop: visits every key
      once and deletes the ones whose value is blank. */
  method DropBlankLinks(links: map<string, string>) returns (kept: map<string, string>)
    ensures kept == NonBlank(links)
  {
    kept := links;
    var pending := links.Keys;
    while pending != {}
      invariant pending <= links.Keys
      invariant kept == map k | k in links && (k in pending || !IsBlank(links[k])) :: links[k]
      decreases |pending|
    {
      var key :| key in pending;
      if IsBlank(kept[key]) {
        kept := kept - {key};
      }
      pending := pending - {key};
    }
  }

  /** Lines 28-38: the three guarded `delete`s, in the source's order. */
  method DeleteBlankIds(analytics: map<string, string>) returns (a: map<string, string>)
    ensures a == DropBlankIds(analytics)
  {
    a := analytics;
    if WhitespaceOnly(a, GtmKey) {
      a := a - {GtmKey};
    }
    if WhitespaceOnly(a, Ga4Key) {
      a := a - {Ga4Key};
    }
    if WhitespaceOnly(a, GoogleAdsKey) {
      a := a - {GoogleAdsKey};
    }
  }

  /** The middleware itself, one statement of the source after another. */
  method NormalizeSmartLinkData(body: Payload) returns (out: Payload)
    ensures out == Normalized(body)
  {
    var b := body;
    if Truthy(b.artist) {
      b := b.(artist := Some(Trim(b.artist.value)));
    }
    assert b.artist == TrimmedName(body.artist);
    if Truthy(b.title) {
      b := b.(title := Some(Trim(b.title.value)));
    }
    assert b.title == TrimmedName(body.title);
    if Truthy(b.slug) {
      b := b.(slug := Some(LowerTrim(b.slug.value)));
    }
    assert b.slug == CanonicalSlug(body.slug);
    if !Truthy(b.coverUrl) || IsBlank(b.coverUrl.value) {
      b := b.(coverUrl := Some(PlaceholderCover));
    }
    assert b.coverUrl == CoverOrPlaceholder(body.coverUrl);
    if b.streamingLinks.NonObjectLinks? {
      b := b.(streamingLinks := ObjectLinks(map[]));
      assert NonBlank(map[]) == map[];
    }
    if b.streamingLinks.ObjectLinks? {
      var kept := DropBlankLinks(b.streamingLinks.entries);
      b := b.(streamingLinks := ObjectLinks(kept));
    }
    assert b.streamingLinks == NormalizedLinks(body.streamingLinks);
    if b.analytics.Some? {
      var a := DeleteBlankIds(b.analytics.value);
      b := b.(analytics := Some(a));
    }
    assert b.analytics == NormalizedAnalytics(body.analytics);
    out := b;
  }

  /** The placeholder is neither empty nor blank, so a second pass keeps it. */
  lemma PlaceholderNotBlank()
    ensures !IsBlank(PlaceholderCover)
  {
    assert PlaceholderCover[0] == 'h';
    TrimEmptyIff(PlaceholderCover);
  }

  /** Exactly the whitespace-only identifiers are deleted: an empty identifier, any
      identifier with a visible character and every other key stay, with their values. */
  lemma DropBlankIdsExact(a: map<string, string>)
    ensures var r := DropBlankIds(a);
      && (forall k | k in r :: k in a && r[k] == a[k])
      && (forall k | k in a && !IsIdKey(k) :: k in r)
      && (forall k | k in a && (a[k] == "" || !IsBlank(a[k])) :: k in r)
      && (forall k | IsIdKey(k) && WhitespaceOnly(a, k) :: k !in r)
  {
  }

  /** After normalisation the cover is always present and never blank, and a usable
      cover given by the client is kept as it is. */
  lemma CoverAlwaysUsable(v: Option<string>)
    ensures CoverOrPlaceholder(v).Some? && !IsBlank(CoverOrPlaceholder(v).value)
    ensures Truthy(v) && !IsBlank(v.value) ==> CoverOrPlaceholder(v) == v
  {
    PlaceholderNotBlank();
  }

  /** After normalisation `streamingLinks` is an object unless the client sent an array,
      and anything that was not an object became `{}`. */
  lemma LinksBecomeObject(l: LinksField)
    ensures NormalizedLinks(l).ObjectLinks? <==> !l.ArrayLinks?
    ensures l.NonObjectLinks? ==> NormalizedLinks(l) == ObjectLinks(map[])
  {
    if l.NonObjectLinks? {
      assert NonBlank(map[]) == map[];
    }
  }

  /** A normalised slug is already in canonical form, so the schema setters and the
      pre-save hook store it unchanged. */
  lemma CanonicalSlugIsFixed(v: Option<string>)
    ensures Truthy(CanonicalSlug(v)) ==> LowerTrim(CanonicalSlug(v).value) == CanonicalSlug(v).value
  {
    if Truthy(v) {
      LowerTrimIdempotent(v.value);
    }
  }

  lemma TrimmedNameStable(v: Option<string>)
    ensures TrimmedName(TrimmedName(v)) == TrimmedName(v)
  {
    if Truthy(v) {
      TrimIdempotent(v.value);
    }
  }

  lemma CanonicalSlugStable(v: Option<string>)
    ensures CanonicalSlug(CanonicalSlug(v)) == CanonicalSlug(v)
  {
    CanonicalSlugIsFixed(v);
  }

  lemma CoverStable(v: Option<string>)
    ensures CoverOrPlaceholder(CoverOrPlaceholder(v)) == CoverOrPlaceholder(v)
  {
    CoverAlwaysUsable(v);
  }

  lemma LinksStable(l: LinksField)
    ensures NormalizedLinks(NormalizedLinks(l)) == NormalizedLinks(l)
  {
    if l.ObjectLinks? {
      assert NonBlank(NonBlank(l.entries)) == NonBlank(l.entries);
    }
  }

  lemma AnalyticsStable(a: Option<map<string, string>>)
    ensures NormalizedAnalytics(NormalizedAnalytics(a)) == NormalizedAnalytics(a)
  {
    if a.Some? {
      assert DropBlankIds(DropBlankIds(a.value)) == DropBlankIds(a.value);
    }
  }

  /** Running the middleware on its own output changes nothing. */
  lemma NormalizeIdempotent(b: Payload)
    ensures Normalized(Normalized(b)) == Normalized(b)
  {
    TrimmedNameStable(b.artist);
    TrimmedNameStable(b.title);
    CanonicalSlugStable(b.slug);
    CoverStable(b.coverUrl);
    LinksStable(b.streamingLinks);
    AnalyticsStable(b.analytics);
  }
}
