/**
 * The express-validator chains of the link routes: `createLinkValidation` (run on the
 * body by POST and PUT), `slugValidation` (a path parameter) and `platformValidation`.
 * Every rule of every chain runs; the result is the full list of violations in chain
 * order, empty when the input is accepted. Regular expressions are written out as
 * predicates over characters.
 */
module LinkValidators {
  import opened Wrappers
  import opened Text
  import opened RequestBody

  /** The request field a violation is about: the body paths `artist`, `title`, `slug`,
      `coverUrl`, `streamingLinks`, the tracking identifiers at the top level
      (`gtmId`) and nested (`analytics.gtmId`), and the path parameters. */
  datatype FieldPath =
    | ArtistField | TitleField | SlugField | CoverUrlField | StreamingLinksField
    | TopLevelId(kind: IdKind) | AnalyticsId(kind: IdKind)
    | SlugParam | PlatformParam
  {
    predicate IsIdentifier() { TopLevelId? || AnalyticsId? }
  }

  /** Which rule failed; each stands for the message the chain attaches to it. */
  datatype Rule =
    | Required          // notEmpty(): "... est requis"
    | LengthRange       // isLength({ min: 1, max: 100 })
    | SlugPattern       // matches(slug pattern) on the body
    | BadCoverUrl       // "URL de couverture invalide"
    | NotAnObject       // isObject() on streamingLinks
    | GtmFormat         // "Format GTM-XXXXXXX attendu pour GTM ID"
    | Ga4Format         // "Format G-XXXXXXX attendu pour GA4 ID"
    | GoogleAdsFormat   // "Format AW-XXXXXXX attendu pour Google Ads ID"
    | InvalidSlug       // "Slug invalide" on the path parameter
    | UnsupportedPlatform

  datatype Violation = Violation(field: FieldPath, rule: Rule)

  // ---------------------------------------------------------------------------
  // The slug pattern ^[a-z0-9]+(?:-[a-z0-9]+)*$

  predicate IsSlugChar(c: char) {
    'a' <= c <= 'z' || '0' <= c <= '9'
  }

  /** `[a-z0-9]*(?:-[a-z0-9]+)*`: what may follow the first character of a slug. A
      hyphen must be followed by a slug character. */
  predicate SlugRest(s: string)
    decreases |s|
  {
    if s == [] then true
    else if IsSlugChar(s[0]) then SlugRest(s[1..])
    else s[0] == '-' && |s| >= 2 && IsSlugChar(s[1]) && SlugRest(s[2..])
  }

  /** The whole pattern: one slug character, then the rest. */
  predicate MatchesSlug(s: string) {
    |s| > 0 && IsSlugChar(s[0]) && SlugRest(s[1..])
  }

  /** The slug shape described without the pattern: non-empty, only lower-case ASCII
      letters, digits and hyphens, no hyphen first or last, no two hyphens in a row. */
  predicate SlugShaped(s: string) {
    && |s| > 0
    && (forall i | 0 <= i < |s| :: IsSlugChar(s[i]) || s[i] == '-')
    && s[0] != '-' && s[|s| - 1] != '-'
    && (forall i | 0 <= i < |s| - 1 :: !(s[i] == '-' && s[i + 1] == '-'))
  }

  predicate RestShaped(s: string) {
    && (forall i | 0 <= i < |s| :: IsSlugChar(s[i]) || s[i] == '-')
    && (s == [] || s[|s| - 1] != '-')
    && (forall i | 0 <= i < |s| - 1 :: !(s[i] == '-' && s[i + 1] == '-'))
  }

  lemma {:induction false} SlugRestShape(s: string)
    ensures SlugRest(s) <==> RestShaped(s)
    decreases |s|
  {
    if s == [] {
    } else if IsSlugChar(s[0]) {
      SlugRestShape(s[1..]);
      assert forall i | 1 <= i < |s| :: s[i] == s[1..][i - 1];
    } else if s[0] == '-' && |s| >= 2 && IsSlugChar(s[1]) {
      SlugRestShape(s[2..]);
      assert forall i | 2 <= i < |s| :: s[i] == s[2..][i - 2];
      if RestShaped(s[2..]) {
        assert s[2..] == [] ==> s[|s| - 1] == s[1];
      }
    } else {
      assert !RestShaped(s) by {
        if s[0] == '-' && |s| >= 2 {
          assert s[1] == '-' || !(IsSlugChar(s[1]) || s[1] == '-');
        }
      }
    }
  }

  /** The pattern accepts exactly the slug shape: this rules out the empty string,
      leading, trailing and doubled hyphens, upper case and every other character. */
  lemma SlugGrammar(s: string)
    ensures MatchesSlug(s) <==> SlugShaped(s)
  {
    if |s| > 0 {
      SlugRestShape(s[1..]);
      assert forall i | 1 <= i < |s| :: s[i] == s[1..][i - 1];
    }
  }

  /** A slug the pattern accepts is already lower case and trimmed, so canonicalising it
      (the normaliser, the schema setters, the pre-save hook, a query filter) leaves it
      unchanged. */
  lemma SlugIsCanonical(s: string)
    requires MatchesSlug(s)
    ensures LowerTrim(s) == s
  {
    SlugGrammar(s);
    assert forall i | 0 <= i < |s| :: LowerChar(s[i]) == s[i];
    LowerFixed(s);
    TrimKeeps(s);
  }

  /** One `[a-z0-9]+` segment. */
  predicate IsSegment(w: string) {
    |w| > 0 && forall i | 0 <= i < |w| :: IsSlugChar(w[i])
  }

  /** Segments joined by single hyphens. */
  function JoinSegments(segments: seq<string>): string
    requires |segments| > 0
  {
    if |segments| == 1 then segments[0]
    else segments[0] + "-" + JoinSegments(segments[1..])
  }

  lemma {:induction false} SlugRestAfterChars(a: string, b: string)
    requires forall i | 0 <= i < |a| :: IsSlugChar(a[i])
    requires SlugRest(b)
    ensures SlugRest(a + b)
    decreases |a|
  {
    if a == [] {
      assert a + b == b;
    } else {
      SlugRestAfterChars(a[1..], b);
      assert (a + b)[0] == a[0] && (a + b)[1..] == a[1..] + b;
    }
  }

  /** Any one or more segments joined by single hyphens is accepted. */
  lemma {:induction false} JoinedSegmentsMatch(segments: seq<string>)
    requires |segments| > 0
    requires forall i | 0 <= i < |segments| :: IsSegment(segments[i])
    ensures MatchesSlug(JoinSegments(segments))
    decreases |segments|
  {
    var w := segments[0];
    if |segments| == 1 {
      SlugRestAfterChars(w[1..], "");
      assert w[1..] + "" == w[1..];
    } else {
      var tail := JoinSegments(segments[1..]);
      JoinedSegmentsMatch(segments[1..]);
      assert ("-" + tail)[2..] == tail[1..];
      assert SlugRest("-" + tail);
      SlugRestAfterChars(w[1..], "-" + tail);
      assert (w + "-" + tail)[1..] == w[1..] + ("-" + tail);
    }
  }

  // ---------------------------------------------------------------------------
  // Tracking identifiers: ^GTM-[A-Za-z0-9]+$, ^G-[A-Za-z0-9]+$, ^AW-[0-9]+$

  predicate IsAsciiDigit(c: char) {
    '0' <= c <= '9'
  }

  predicate IsAsciiAlnum(c: char) {
    'A' <= c <= 'Z' || 'a' <= c <= 'z' || IsAsciiDigit(c)
  }

  datatype IdKind = Gtm | Ga4 | GoogleAds

  function IdPrefix(kind: IdKind): string {
    match kind
    case Gtm => "GTM-"
    case Ga4 => "G-"
    case GoogleAds => "AW-"
  }

  predicate IdChar(kind: IdKind, c: char) {
    if kind == GoogleAds then IsAsciiDigit(c) else IsAsciiAlnum(c)
  }

  /** The prefix, literally and case-sensitively, then one or more identifier
      characters (letters of either case and digits; digits only for Google Ads). */
  predicate MatchesId(kind: IdKind, s: string) {
    var p := IdPrefix(kind);
    && |s| > |p|
    && s[..|p|] == p
    && forall i | |p| <= i < |s| :: IdChar(kind, s[i])
  }

  /** The identifiers the route tests use: a mixed-case container id passes, an id
      without the prefix fails, and so do a lower-case prefix and a bare prefix. */
  lemma IdExamples()
    ensures MatchesId(Gtm, "GTM-572GXWPP")
    ensures MatchesId(Ga4, "G-123ABC456")
    ensures !MatchesId(Gtm, "INVALID-ID")
    ensures !MatchesId(Gtm, "gtm-572GXWPP")
    ensures !MatchesId(Gtm, "GTM-")
    ensures !MatchesId(GoogleAds, "AW-12AB")
  {
    assert "INVALID-ID"[..4] != "GTM-" by { assert "INVALID-ID"[0] == 'I'; }
    assert "gtm-572GXWPP"[..4] != "GTM-" by { assert "gtm-572GXWPP"[0] == 'g'; }
    assert !IdChar(GoogleAds, "AW-12AB"[5]);
  }

  // ---------------------------------------------------------------------------
  // createLinkValidation

  /** artist / title pass the length rule when the trimmed value is 1..100 characters. */
  predicate TextAccepted(v: Option<string>) {
    1 <= VisibleLength(Trim(StrOf(v))) <= 100
  }

  /** The body slug passes the pattern when its trimmed value matches it. */
  predicate SlugAccepted(v: Option<string>) {
    MatchesSlug(Trim(StrOf(v)))
  }

  /** coverUrl is optional with `checkFalsy`, a blank value passes, and anything else
      must parse as a URL (`new URL(value)` does not throw). */
  predicate CoverUrlAccepted(v: Option<string>, parsesUrl: string -> bool) {
    !Truthy(v) || IsBlank(v.value) || parsesUrl(v.value)
  }

  /** An identifier is optional with `checkFalsy`, a blank value passes, and anything
      else must match the identifier pattern once trimmed. */
  predicate IdAccepted(kind: IdKind, v: Option<string>) {
    !Truthy(v) || IsBlank(v.value) || MatchesId(kind, Trim(v.value))
  }

  function IdRule(kind: IdKind): Rule {
    match kind
    case Gtm => GtmFormat
    case Ga4 => Ga4Format
    case GoogleAds => GoogleAdsFormat
  }

  /** The nested identifier `analytics.<key>` of each kind. */
  function AnalyticsKey(kind: IdKind): string {
    match kind
    case Gtm => GtmKey
    case Ga4 => Ga4Key
    case GoogleAds => GoogleAdsKey
  }

  function TopLevelIdValue(p: Payload, kind: IdKind): Option<string> {
    match kind
    case Gtm => p.gtmId
    case Ga4 => p.ga4Id
    case GoogleAds => p.googleAdsId
  }

  /** The outcome of every rule of `createLinkValidation` on one body, in chain order:
      for artist, title and slug whether the trimmed value is empty (so `notEmpty`
      fails) and whether the length or pattern rule passes; for every other rule
      whether it passes. */
  datatype Verdicts = Verdicts(
    artistEmpty: bool, artistLength: bool,
    titleEmpty: bool, titleLength: bool,
    slugEmpty: bool, slugPattern: bool,
    coverUrl: bool, streamingLinks: bool,
    gtm: bool, nestedGtm: bool,
    ga4: bool, nestedGa4: bool,
    googleAds: bool, nestedGoogleAds: bool)
  {
    /** Whether the top-level identifier of `kind` passes. */
    predicate TopPasses(kind: IdKind) {
      match kind
      case Gtm => gtm
      case Ga4 => ga4
      case GoogleAds => googleAds
    }

    /** Whether the identifier of `kind` under `analytics` passes. */
    predicate NestedPasses(kind: IdKind) {
      match kind
      case Gtm => nestedGtm
      case Ga4 => nestedGa4
      case GoogleAds => nestedGoogleAds
    }

    /** Every rule passes. */
    predicate AllPass() {
      && !artistEmpty && artistLength && !titleEmpty && titleLength
      && !slugEmpty && slugPattern && coverUrl && streamingLinks
      && gtm && nestedGtm && ga4 && nestedGa4 && googleAds && nestedGoogleAds
    }

    /** Whether the rule `v` names failed on the field `v` names. */
    predicate Flags(v: Violation) {
      match v.field
      case ArtistField => (v.rule == Required && artistEmpty) || (v.rule == LengthRange && !artistLength)
      case TitleField => (v.rule == Required && titleEmpty) || (v.rule == LengthRange && !titleLength)
      case SlugField => (v.rule == Required && slugEmpty) || (v.rule == SlugPattern && !slugPattern)
      case CoverUrlField => v.rule == BadCoverUrl && !coverUrl
      case StreamingLinksField => v.rule == NotAnObject && !streamingLinks
      case TopLevelId(k) => v.rule == IdRule(k) && !TopPasses(k)
      case AnalyticsId(k) => v.rule == IdRule(k) && !NestedPasses(k)
      case SlugParam => false
      case PlatformParam => false
    }
  }

  /** Each rule of `createLinkValidation` applied to the body. The identifier rules
      read the top-level path and the nested `analytics` path separately. */
  function Judge(p: Payload, parsesUrl: string -> bool): Verdicts {
    Verdicts(
      Trim(StrOf(p.artist)) == "", TextAccepted(p.artist),
      Trim(StrOf(p.title)) == "", TextAccepted(p.title),
      Trim(StrOf(p.slug)) == "", SlugAccepted(p.slug),
      CoverUrlAccepted(p.coverUrl, parsesUrl), p.streamingLinks.ObjectLinks?,
      IdAccepted(Gtm, p.gtmId), IdAccepted(Gtm, Field(p.analytics, GtmKey)),
      IdAccepted(Ga4, p.ga4Id), IdAccepted(Ga4, Field(p.analytics, Ga4Key)),
      IdAccepted(GoogleAds, p.googleAdsId), IdAccepted(GoogleAds, Field(p.analytics, GoogleAdsKey)))
  }

  /** One rule's contribution to the error list: its violation when it fails. */
  function Report(fails: bool, v: Violation): seq<Violation> {
    if fails then [v] else []
  }

  lemma InReport(fails: bool, v: Violation, e: Violation)
    ensures e in Report(fails, v) <==> fails && e.field == v.field && e.rule == v.rule
  {
  }

  /** The violations of the field rules, in chain order. */
  function FieldReports(d: Verdicts): (errs: seq<Violation>)
    ensures errs == [] <==>
      !d.artistEmpty && d.artistLength && !d.titleEmpty && d.titleLength
      && !d.slugEmpty && d.slugPattern && d.coverUrl && d.streamingLinks
  {
    var a := Report(d.artistEmpty, Violation(ArtistField, Required))
      + Report(!d.artistLength, Violation(ArtistField, LengthRange));
    var t := Report(d.titleEmpty, Violation(TitleField, Required))
      + Report(!d.titleLength, Violation(TitleField, LengthRange));
    var s := Report(d.slugEmpty, Violation(SlugField, Required))
      + Report(!d.slugPattern, Violation(SlugField, SlugPattern));
    var o := Report(!d.coverUrl, Violation(CoverUrlField, BadCoverUrl))
      + Report(!d.streamingLinks, Violation(StreamingLinksField, NotAnObject));
    assert |a + t + s + o| == |a| + |t| + |s| + |o|;
    a + t + s + o
  }

  /** The violations of the identifier rules: for each kind, top-level then nested. */
  function IdReports(d: Verdicts): (errs: seq<Violation>)
    ensures errs == [] <==>
      d.gtm && d.nestedGtm && d.ga4 && d.nestedGa4 && d.googleAds && d.nestedGoogleAds
  {
    var g := Report(!d.gtm, Violation(TopLevelId(Gtm), GtmFormat))
      + Report(!d.nestedGtm, Violation(AnalyticsId(Gtm), GtmFormat));
    var g4 := Report(!d.ga4, Violation(TopLevelId(Ga4), Ga4Format))
      + Report(!d.nestedGa4, Violation(AnalyticsId(Ga4), Ga4Format));
    var w := Report(!d.googleAds, Violation(TopLevelId(GoogleAds), GoogleAdsFormat))
      + Report(!d.nestedGoogleAds, Violation(AnalyticsId(GoogleAds), GoogleAdsFormat));
    assert |g + g4 + w| == |g| + |g4| + |w|;
    g + g4 + w
  }

  /** The error list of a set of verdicts: empty exactly when every rule passes. */
  function Collect(d: Verdicts): (errs: seq<Violation>)
    ensures errs == [] <==> d.AllPass()
  {
    FieldReports(d) + IdReports(d)
  }

  lemma FieldReportsFlag(d: Verdicts, v: Violation)
    ensures v in FieldReports(d) <==> !v.field.IsIdentifier() && d.Flags(v)
  {
    var a1 := Report(d.artistEmpty, Violation(ArtistField, Required));
    var a2 := Report(!d.artistLength, Violation(ArtistField, LengthRange));
    var t1 := Report(d.titleEmpty, Violation(TitleField, Required));
    var t2 := Report(!d.titleLength, Violation(TitleField, LengthRange));
    var s1 := Report(d.slugEmpty, Violation(SlugField, Required));
    var s2 := Report(!d.slugPattern, Violation(SlugField, SlugPattern));
    var o1 := Report(!d.coverUrl, Violation(CoverUrlField, BadCoverUrl));
    var o2 := Report(!d.streamingLinks, Violation(StreamingLinksField, NotAnObject));
    FieldReportsShape(d);
    InAppend(v, a1, a2);
    InAppend(v, t1, t2);
    InAppend(v, s1, s2);
    InAppend(v, o1, o2);
    InAppend(v, a1 + a2, t1 + t2);
    InAppend(v, (a1 + a2) + (t1 + t2), s1 + s2);
    InAppend(v, (a1 + a2) + (t1 + t2) + (s1 + s2), o1 + o2);
    InReport(d.artistEmpty, Violation(ArtistField, Required), v);
    InReport(!d.artistLength, Violation(ArtistField, LengthRange), v);
    InReport(d.titleEmpty, Violation(TitleField, Required), v);
    InReport(!d.titleLength, Violation(TitleField, LengthRange), v);
    InReport(d.slugEmpty, Violation(SlugField, Required), v);
    InReport(!d.slugPattern, Violation(SlugField, SlugPattern), v);
    InReport(!d.coverUrl, Violation(CoverUrlField, BadCoverUrl), v);
    InReport(!d.streamingLinks, Violation(StreamingLinksField, NotAnObject), v);
  }

  lemma FieldReportsShape(d: Verdicts)
    ensures FieldReports(d) ==
      (Report(d.artistEmpty, Violation(ArtistField, Required))
       + Report(!d.artistLength, Violation(ArtistField, LengthRange)))
      + (Report(d.titleEmpty, Violation(TitleField, Required))
         + Report(!d.titleLength, Violation(TitleField, LengthRange)))
      + (Report(d.slugEmpty, Violation(SlugField, Required))
         + Report(!d.slugPattern, Violation(SlugField, SlugPattern)))
      + (Report(!d.coverUrl, Violation(CoverUrlField, BadCoverUrl))
         + Report(!d.streamingLinks, Violation(StreamingLinksField, NotAnObject)))
  {
  }

  lemma IdReportsShape(d: Verdicts)
    ensures IdReports(d) ==
      (Report(!d.gtm, Violation(TopLevelId(Gtm), GtmFormat))
       + Report(!d.nestedGtm, Violation(AnalyticsId(Gtm), GtmFormat)))
      + (Report(!d.ga4, Violation(TopLevelId(Ga4), Ga4Format))
         + Report(!d.nestedGa4, Violation(AnalyticsId(Ga4), Ga4Format)))
      + (Report(!d.googleAds, Violation(TopLevelId(GoogleAds), GoogleAdsFormat))
         + Report(!d.nestedGoogleAds, Violation(AnalyticsId(GoogleAds), GoogleAdsFormat)))
  {
  }

  lemma InAppend<T>(x: T, a: seq<T>, b: seq<T>)
    ensures x in a + b <==> x in a || x in b
  {
  }

  lemma IdReportsFlag(d: Verdicts, v: Violation)
    ensures v in IdReports(d) <==> v.field.IsIdentifier() && d.Flags(v)
  {
    var g1 := Report(!d.gtm, Violation(TopLevelId(Gtm), GtmFormat));
    var g2 := Report(!d.nestedGtm, Violation(AnalyticsId(Gtm), GtmFormat));
    var f1 := Report(!d.ga4, Violation(TopLevelId(Ga4), Ga4Format));
    var f2 := Report(!d.nestedGa4, Violation(AnalyticsId(Ga4), Ga4Format));
    var w1 := Report(!d.googleAds, Violation(TopLevelId(GoogleAds), GoogleAdsFormat));
    var w2 := Report(!d.nestedGoogleAds, Violation(AnalyticsId(GoogleAds), GoogleAdsFormat));
    IdReportsShape(d);
    InAppend(v, g1, g2);
    InAppend(v, f1, f2);
    InAppend(v, w1, w2);
    InAppend(v, g1 + g2, f1 + f2);
    InAppend(v, (g1 + g2) + (f1 + f2), w1 + w2);
    InReport(!d.gtm, Violation(TopLevelId(Gtm), GtmFormat), v);
    InReport(!d.nestedGtm, Violation(AnalyticsId(Gtm), GtmFormat), v);
    InReport(!d.ga4, Violation(TopLevelId(Ga4), Ga4Format), v);
    InReport(!d.nestedGa4, Violation(AnalyticsId(Ga4), Ga4Format), v);
    InReport(!d.googleAds, Violation(TopLevelId(GoogleAds), GoogleAdsFormat), v);
    InReport(!d.nestedGoogleAds, Violation(AnalyticsId(GoogleAds), GoogleAdsFormat), v);
    if v.field.IsIdentifier() {
      match v.field.kind
      case Gtm =>
      case Ga4 =>
      case GoogleAds =>
    }
  }

  /** No short-circuit, at the level of verdicts: a violation is in the list exactly
      when its rule failed. */
  lemma CollectFlags(d: Verdicts, v: Violation)
    ensures v in Collect(d) <==> d.Flags(v)
  {
    FieldReportsFlag(d, v);
    IdReportsFlag(d, v);
  }

  /** Every rule of `createLinkValidation` holds. (A value that passes the length or
      pattern rule is not empty, so "required" holds as well.) */
  predicate CreateLinkAccepts(p: Payload, parsesUrl: string -> bool) {
    && TextAccepted(p.artist)
    && TextAccepted(p.title)
    && SlugAccepted(p.slug)
    && CoverUrlAccepted(p.coverUrl, parsesUrl)
    && p.streamingLinks.ObjectLinks?
    && IdAccepted(Gtm, p.gtmId) && IdAccepted(Gtm, Field(p.analytics, GtmKey))
    && IdAccepted(Ga4, p.ga4Id) && IdAccepted(Ga4, Field(p.analytics, Ga4Key))
    && IdAccepted(GoogleAds, p.googleAdsId) && IdAccepted(GoogleAds, Field(p.analytics, GoogleAdsKey))
  }

  /** The errors `validationResult` collects after `createLinkValidation`, in chain
      order: none exactly when every rule holds. */
  function CreateLinkErrors(p: Payload, parsesUrl: string -> bool): (errs: seq<Violation>)
    ensures errs == [] <==> CreateLinkAccepts(p, parsesUrl)
  {
    NonEmptyWhenAccepted(p);
    Collect(Judge(p, parsesUrl))
  }

  /** A value of 1..100 characters, or one that matches the slug pattern, is not empty. */
  lemma NonEmptyWhenAccepted(p: Payload)
    ensures TextAccepted(p.artist) ==> Trim(StrOf(p.artist)) != ""
    ensures TextAccepted(p.title) ==> Trim(StrOf(p.title)) != ""
    ensures SlugAccepted(p.slug) ==> Trim(StrOf(p.slug)) != ""
  {
  }

  /** No short-circuit: a violation is reported exactly when the verdict on its rule is
      a failure, so every failed rule is reported and nothing else is. */
  lemma EveryViolationReported(p: Payload, parsesUrl: string -> bool, v: Violation)
    ensures v in CreateLinkErrors(p, parsesUrl) <==> Judge(p, parsesUrl).Flags(v)
  {
    CollectFlags(Judge(p, parsesUrl), v);
  }

  /** An artist that is empty once trimmed (absent, "" or only spaces) draws both the
      "required" and the length error; the same holds for the title. */
  lemma EmptyArtistFailsTwice(p: Payload, parsesUrl: string -> bool)
    requires Trim(StrOf(p.artist)) == ""
    ensures Violation(ArtistField, Required) in CreateLinkErrors(p, parsesUrl)
    ensures Violation(ArtistField, LengthRange) in CreateLinkErrors(p, parsesUrl)
  {
    EveryViolationReported(p, parsesUrl, Violation(ArtistField, Required));
    EveryViolationReported(p, parsesUrl, Violation(ArtistField, LengthRange));
  }

  /** Verdicts on which only the nested container id fails give exactly its error. */
  lemma OnlyNestedGtmFails(d: Verdicts)
    requires !d.artistEmpty && d.artistLength && !d.titleEmpty && d.titleLength
    requires !d.slugEmpty && d.slugPattern && d.coverUrl && d.streamingLinks
    requires d.gtm && !d.nestedGtm && d.ga4 && d.nestedGa4 && d.googleAds && d.nestedGoogleAds
    ensures Collect(d) == [Violation(AnalyticsId(Gtm), GtmFormat)]
  {
    IdReportsShape(d);
  }

  /** The request the route tests send with `analytics.gtmId` "INVALID-ID", on a body
      that is otherwise accepted, fails on exactly that one rule. */
  lemma InvalidGtmIdIsTheOnlyError(p: Payload, parsesUrl: string -> bool)
    requires CreateLinkAccepts(p, parsesUrl)
    requires p.analytics.Some?
    ensures CreateLinkErrors(p.(analytics := Some(p.analytics.value[GtmKey := "INVALID-ID"])), parsesUrl)
            == [Violation(AnalyticsId(Gtm), GtmFormat)]
  {
    var q := p.(analytics := Some(p.analytics.value[GtmKey := "INVALID-ID"]));
    NonEmptyWhenAccepted(p);
    InvalidIdRejected();
    OtherIdsUnchanged(p.analytics.value, "INVALID-ID");
    OnlyNestedGtmFails(Judge(q, parsesUrl));
  }

  lemma InvalidIdRejected()
    ensures !IdAccepted(Gtm, Some("INVALID-ID"))
  {
    IdExamples();
    TrimKeeps("INVALID-ID");
  }

  /** Setting `analytics.gtmId` leaves the other nested identifiers as they were. */
  lemma OtherIdsUnchanged(m: map<string, string>, value: string)
    ensures Field(Some(m[GtmKey := value]), GtmKey) == Some(value)
    ensures Field(Some(m[GtmKey := value]), Ga4Key) == Field(Some(m), Ga4Key)
    ensures Field(Some(m[GtmKey := value]), GoogleAdsKey) == Field(Some(m), GoogleAdsKey)
  {
    assert GtmKey[1] != Ga4Key[1];
    assert GtmKey[1] != GoogleAdsKey[1];
  }

  // ---------------------------------------------------------------------------
  // slugValidation and platformValidation (path parameters: no trimming)

  /** slugValidation: the raw parameter against the same pattern as the body slug. */
  function SlugParamErrors(slug: string): (errs: seq<Violation>)
    ensures errs == [] <==> SlugShaped(slug)
    ensures errs != [] ==> errs == [Violation(SlugParam, InvalidSlug)]
  {
    SlugGrammar(slug);
    if MatchesSlug(slug) then [] else [Violation(SlugParam, InvalidSlug)]
  }

  const SupportedPlatforms: seq<string> := ["spotify", "appleMusic", "youtube", "deezer", "amazonMusic", "tidal"]

  /** platformValidation: the allow-list of platform keys. */
  function PlatformErrors(platform: string): seq<Violation> {
    if platform in SupportedPlatforms then [] else [Violation(PlatformParam, UnsupportedPlatform)]
  }

  /** express-validator's `trim()` sanitizer rewrites the body fields it trims, so the
      route handler reads artist, title and slug trimmed (an absent one as ""). */
  function Sanitize(p: Payload): (r: Payload)
    ensures r.artist.Some? && r.title.Some? && r.slug.Some?
    ensures Trim(r.artist.value) == r.artist.value && Trim(r.title.value) == r.title.value
    ensures Trim(r.slug.value) == r.slug.value
    ensures r.artist == Some(Trim(StrOf(p.artist))) && r.title == Some(Trim(StrOf(p.title)))
    ensures r.slug == Some(Trim(StrOf(p.slug)))
    ensures r.gtmId == p.gtmId && r.ga4Id == p.ga4Id && r.googleAdsId == p.googleAdsId
    ensures r.coverUrl == p.coverUrl && r.streamingLinks == p.streamingLinks && r.analytics == p.analytics
  {
    TrimIdempotent(StrOf(p.artist));
    TrimIdempotent(StrOf(p.title));
    TrimIdempotent(StrOf(p.slug));
    p.(artist := Some(Trim(StrOf(p.artist))),
       title := Some(Trim(StrOf(p.title))),
       slug := Some(Trim(StrOf(p.slug))))
  }
}
