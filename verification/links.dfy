/**
 * The `/api/links` routes: create, list, read, check a slug, update, delete.
 *
 * Each route has a specification function giving its reply from the collection before
 * the request (and, for the routes that write, a function giving the collection after
 * it); the handler method performs the route against a `SmartLinkCollection` and is
 * proved to agree with them. `parsesUrl` stands for the URL parser the cover check
 * calls, and `now` for `Date.now()`.
 */
module LinksRoutes {
  import opened Wrappers
  import opened Text
  import opened RequestBody
  import opened LinkValidators
  import opened NormalizeData
  import opened SmartLinkModel

  const InvalidDataMessage := "Données invalides"
  const InvalidSlugMessage := "Slug invalide"
  const SlugInUseMessage := "This slug is already in use."
  const NotFoundMessage := "SmartLink non trouvé"
  const ServerErrorMessage := "Erreur interne du serveur"
  const DeletedMessage := "SmartLink supprimé avec succès"

  /** What a route sends back. */
  datatype Reply =
    | Created(link: SmartLink)
    | Document(link: SmartLink)
    | Listing(links: seq<SmartLink>)
    | Availability(available: bool, slug: string)
    | Deleted(slug: string)
    | BadRequest(error: string, details: seq<Violation>)
    | SlugTaken
    | NotFound
    | ServerError
  {
    function Status(): int {
      match this
      case Created(_) => 201
      case Document(_) => 200
      case Listing(_) => 200
      case Availability(_, _) => 200
      case Deleted(_) => 200
      case BadRequest(_, _) => 400
      case SlugTaken => 409
      case NotFound => 404
      case ServerError => 500
    }

    /** The `error` (or, for a deletion, `message`) field of the JSON body. */
    function Message(): Option<string> {
      match this
      case BadRequest(error, _) => Some(error)
      case SlugTaken => Some(SlugInUseMessage)
      case NotFound => Some(NotFoundMessage)
      case ServerError => Some(ServerErrorMessage)
      case Deleted(_) => Some(DeletedMessage)
      case _ => None
    }
  }

  // ---------------------------------------------------------------------------
  // POST /links: normaliser, createLinkValidation, duplicate check, create

  /** The reply to `POST /links` with `body`, given the collection `docs`. */
  function PostReply(docs: map<string, SmartLink>, body: Payload, parsesUrl: string -> bool, now: int): Reply {
    var n := Normalized(body);
    Admit(docs, CreateLinkErrors(n, parsesUrl), Sanitize(n), now)
  }

  /** The handler once validation has produced `errs` and the sanitizer the body `s`:
      400 with the errors, 409 when the slug is taken, and otherwise `create`, whose
      schema or unique-index error the catch answers with 500. */
  function Admit(docs: map<string, SmartLink>, errs: seq<Violation>, s: Payload, now: int): Reply
    requires s.slug.Some?
  {
    if errs != [] then BadRequest(InvalidDataMessage, errs)
    else if Lookup(docs, s.slug.value).Some? then SlugTaken
    else
      match CreateResult(docs, s, now)
      case Written(d) => Created(d)
      case _ => ServerError
  }

  /** The collection after a reply: a 201 files its document under its slug. */
  function Filed(docs: map<string, SmartLink>, r: Reply): map<string, SmartLink> {
    if r.Created? then docs[r.link.slug := r.link] else docs
  }

  /** The collection after `POST /links`: one more document exactly when it answered 201. */
  function PostState(docs: map<string, SmartLink>, body: Payload, parsesUrl: string -> bool, now: int): map<string, SmartLink> {
    Filed(docs, PostReply(docs, body, parsesUrl, now))
  }

  /** The route: the normaliser, the validation chain with its sanitizers, then the
      handler. */
  method PostLink(db: SmartLinkCollection, body: Payload, parsesUrl: string -> bool, now: int) returns (reply: Reply)
    requires db.Valid()
    modifies db
    ensures db.Valid()
    ensures reply == PostReply(old(db.docs), body, parsesUrl, now)
    ensures db.docs == PostState(old(db.docs), body, parsesUrl, now)
  {
    var n := NormalizeSmartLinkData(body);
    var errs := CreateLinkErrors(n, parsesUrl);
    var s := Sanitize(n);
    reply := CreateHandler(db, errs, s, now);
  }

  /** The handler, given the validation errors and the sanitized body. */
  method CreateHandler(db: SmartLinkCollection, errs: seq<Violation>, s: Payload, now: int) returns (reply: Reply)
    requires db.Valid() && s.slug.Some?
    modifies db
    ensures db.Valid()
    ensures reply == Admit(old(db.docs), errs, s, now)
    ensures db.docs == Filed(old(db.docs), reply)
  {
    if errs != [] {
      return BadRequest(InvalidDataMessage, errs);
    }
    if Lookup(db.docs, s.slug.value).Some? {
      return SlugTaken;
    }
    var w := db.Create(s, now);
    if w.Written? {
      reply := Created(w.doc);
    } else {
      reply := ServerError;
    }
  }

  /** A sanitized body whose document the schema validators accept, filed under the
      slug sent, which is already canonical. Its link keys are left open: validation
      does not look at them. */
  ghost predicate Admissible(s: Payload, now: int) {
    && s.slug.Some?
    && LowerTrim(s.slug.value) == s.slug.value
    && NewDocument(s, now).slug == s.slug.value
    && SchemaValid(NewDocument(s, now))
  }

  /** A body that passes validation makes a document the schema validators accept. */
  lemma AcceptedIsAdmissible(n: Payload, parsesUrl: string -> bool, now: int)
    requires CreateLinkAccepts(n, parsesUrl)
    ensures Admissible(Sanitize(n), now)
  {
    NonEmptyWhenAccepted(n);
    SlugIsCanonical(Sanitize(n).slug.value);
  }

  /** The decision is 400, carrying the errors, exactly when validation failed. */
  lemma AdmitRejects(docs: map<string, SmartLink>, errs: seq<Violation>, s: Payload, now: int)
    requires s.slug.Some?
    ensures Admit(docs, errs, s, now).BadRequest? <==> errs != []
    ensures Admit(docs, errs, s, now).BadRequest? ==> Admit(docs, errs, s, now).details == errs
  {
  }

  /** After validation passes, `create` fails only on a link key the map path refuses:
      the decision is 500 exactly when the slug is free and the document's links hold
      such a key. */
  lemma AdmitFailsOnlyOnRefusedKey(docs: map<string, SmartLink>, errs: seq<Violation>, s: Payload, now: int)
    requires s.slug.Some?
    requires errs == [] ==> Admissible(s, now)
    ensures Admit(docs, errs, s, now).Status() in {201, 400, 409, 500}
    ensures Admit(docs, errs, s, now) == ServerError <==>
      errs == [] && s.slug.value !in docs && !LinkKeysAllowed(NewDocument(s, now).streamingLinks)
  {
  }

  /** After validation passes, the decision is 409 exactly when a document has the slug. */
  lemma AdmitTaken(docs: map<string, SmartLink>, s: Payload, now: int)
    requires Admissible(s, now)
    ensures Admit(docs, [], s, now).SlugTaken? <==> s.slug.value in docs
  {
  }

  /** After validation passes, the decision is 201 exactly when no document has the
      slug and the map path accepts every link key, and then it carries the new
      document, which is filed under a fresh key. */
  lemma AdmitCreates(docs: map<string, SmartLink>, s: Payload, now: int)
    requires Admissible(s, now)
    ensures Admit(docs, [], s, now).Created? <==>
      s.slug.value !in docs && LinkKeysAllowed(NewDocument(s, now).streamingLinks)
    ensures Admit(docs, [], s, now).Created? ==>
      Admit(docs, [], s, now).link == NewDocument(s, now) && NewDocument(s, now).slug !in docs
  {
  }

  /** A 201 files its document under a key no document had. */
  lemma AdmitFilesFresh(docs: map<string, SmartLink>, errs: seq<Violation>, s: Payload, now: int)
    requires s.slug.Some?
    ensures Admit(docs, errs, s, now).Created? ==> Admit(docs, errs, s, now).link.slug !in docs
  {
  }

  /** The document made from an accepted body: trimmed names of 1 to 100 characters, no
      views and no clicks, created and updated at `now`. */
  lemma AcceptedDocument(n: Payload, parsesUrl: string -> bool, now: int)
    requires CreateLinkAccepts(n, parsesUrl)
    ensures var d := NewDocument(Sanitize(n), now);
      && d.artist == Trim(StrOf(n.artist)) && d.title == Trim(StrOf(n.title))
      && 1 <= VisibleLength(d.artist) <= 100 && 1 <= VisibleLength(d.title) <= 100
      && d.clickStats == ClickStats(0, map[])
      && d.createdAt == now && d.updatedAt == now
  {
    TrimIdempotent(StrOf(n.artist));
    TrimIdempotent(StrOf(n.title));
  }

  /** POST reaches its 500 branch only through a link key: once validation passes, the
      schema validators accept the document and the duplicate check has ruled out the
      unique-index error, but validation does not look at the link keys, and a key with
      a "." or a leading "$" ("music.apple") makes `create` fail. */
  lemma PostFailsOnlyOnRefusedKey(docs: map<string, SmartLink>, body: Payload, parsesUrl: string -> bool, now: int)
    ensures PostReply(docs, body, parsesUrl, now).Status() in {201, 400, 409, 500}
    ensures PostReply(docs, body, parsesUrl, now) == ServerError <==>
      && CreateLinkAccepts(Normalized(body), parsesUrl)
      && LowerTrim(StrOf(body.slug)) !in docs
      && !LinkKeysAllowed(LinksOf(Normalized(body).streamingLinks))
  {
    var n := Normalized(body);
    var errs := CreateLinkErrors(n, parsesUrl);
    if errs == [] {
      AcceptedIsAdmissible(n, parsesUrl, now);
      AcceptedSlugIsTruthy(body, parsesUrl);
      NormalizedSlugIsCanonicalInput(body);
    }
    AdmitFailsOnlyOnRefusedKey(docs, errs, Sanitize(n), now);
  }

  /** A link the normaliser keeps under a key with a "." answers 500 once the rest of
      the body is valid and the slug is free. */
  lemma PostRefusesDottedKey(docs: map<string, SmartLink>, body: Payload, parsesUrl: string -> bool, now: int, key: string, i: nat)
    requires CreateLinkAccepts(Normalized(body), parsesUrl)
    requires LowerTrim(StrOf(body.slug)) !in docs
    requires body.streamingLinks.ObjectLinks? && key in body.streamingLinks.entries
    requires !IsBlank(body.streamingLinks.entries[key])
    requires i < |key| && key[i] == '.'
    ensures PostReply(docs, body, parsesUrl, now) == ServerError
  {
    assert key in LinksOf(Normalized(body).streamingLinks);
    PostFailsOnlyOnRefusedKey(docs, body, parsesUrl, now);
  }

  /** The normalised slug, trimmed by the sanitizer, is the canonical form of the slug
      sent: a slug sent as " Test-Song " is stored as "test-song". */
  lemma NormalizedSlugIsCanonicalInput(body: Payload)
    requires Truthy(body.slug)
    ensures Sanitize(Normalized(body)).slug.value == LowerTrim(StrOf(body.slug))
  {
    TrimIdempotent(Lower(body.slug.value));
  }

  /** A body whose normalised form passes validation was sent with a slug. */
  lemma AcceptedSlugIsTruthy(body: Payload, parsesUrl: string -> bool)
    requires CreateLinkAccepts(Normalized(body), parsesUrl)
    ensures Truthy(body.slug)
  {
    NonEmptyWhenAccepted(Normalized(body));
  }

  /** The names reach the document trimmed, whether or not the normaliser trimmed them. */
  lemma NormalizedNameIsTrimmedInput(v: Option<string>)
    ensures Trim(StrOf(TrimmedName(v))) == Trim(StrOf(v))
  {
    if Truthy(v) {
      TrimIdempotent(v.value);
    }
  }

  /** With a URL parser that accepts the placeholder, as `new URL` does, the cover rule
      on a normalised body fails exactly when a non-blank cover was sent that does not
      parse: a missing or blank cover never draws the cover violation on POST. */
  lemma NormalizedCoverAccepted(body: Payload, parsesUrl: string -> bool)
    requires parsesUrl(PlaceholderCover)
    ensures CoverUrlAccepted(Normalized(body).coverUrl, parsesUrl) <==>
      !Truthy(body.coverUrl) || IsBlank(body.coverUrl.value) || parsesUrl(body.coverUrl.value)
  {
    PlaceholderNotBlank();
  }

  /** POST answers 400 exactly when the normalised body fails validation, with every
      rule that failed. */
  lemma PostRejectsInvalid(docs: map<string, SmartLink>, body: Payload, parsesUrl: string -> bool, now: int)
    ensures PostReply(docs, body, parsesUrl, now).BadRequest? <==> !CreateLinkAccepts(Normalized(body), parsesUrl)
    ensures PostReply(docs, body, parsesUrl, now).BadRequest? ==>
      PostReply(docs, body, parsesUrl, now).details == CreateLinkErrors(Normalized(body), parsesUrl)
  {
    var n := Normalized(body);
    AdmitRejects(docs, CreateLinkErrors(n, parsesUrl), Sanitize(n), now);
  }

  /** A valid body answers 409 exactly when a document already carries the canonical
      form of the slug sent. */
  lemma PostRejectsTakenSlug(docs: map<string, SmartLink>, body: Payload, parsesUrl: string -> bool, now: int)
    requires CreateLinkAccepts(Normalized(body), parsesUrl)
    ensures PostReply(docs, body, parsesUrl, now).SlugTaken? <==> LowerTrim(StrOf(body.slug)) in docs
  {
    var n := Normalized(body);
    AcceptedIsAdmissible(n, parsesUrl, now);
    AcceptedSlugIsTruthy(body, parsesUrl);
    NormalizedSlugIsCanonicalInput(body);
    AdmitTaken(docs, Sanitize(n), now);
  }

  /** A 201 carries a new document under the canonical form of the slug sent, with the
      trimmed artist and title (1 to 100 characters each), no views and no clicks,
      created and updated at `now`. */
  lemma PostCreates(docs: map<string, SmartLink>, body: Payload, parsesUrl: string -> bool, now: int)
    requires PostReply(docs, body, parsesUrl, now).Created?
    ensures var d := PostReply(docs, body, parsesUrl, now).link;
      && d.slug == LowerTrim(StrOf(body.slug)) && d.slug !in docs
      && d.artist == Trim(StrOf(body.artist)) && d.title == Trim(StrOf(body.title))
      && 1 <= VisibleLength(d.artist) <= 100 && 1 <= VisibleLength(d.title) <= 100
      && d.clickStats == ClickStats(0, map[])
      && d.createdAt == now && d.updatedAt == now
  {
    var n := Normalized(body);
    var s := Sanitize(n);
    AdmitRejects(docs, CreateLinkErrors(n, parsesUrl), s, now);
    AcceptedIsAdmissible(n, parsesUrl, now);
    AdmitCreates(docs, s, now);
    var d := PostReply(docs, body, parsesUrl, now).link;
    assert d == NewDocument(s, now) && d.slug == s.slug.value;
    AcceptedDocument(n, parsesUrl, now);
    AcceptedSlugIsTruthy(body, parsesUrl);
    NormalizedSlugIsCanonicalInput(body);
    NormalizedNameIsTrimmedInput(body.artist);
    NormalizedNameIsTrimmedInput(body.title);
  }

  /** Filing a reply whose 201 document has a fresh key adds exactly that key. */
  lemma FiledChange(docs: map<string, SmartLink>, r: Reply)
    requires r.Created? ==> r.link.slug !in docs
    ensures r.Created? ==>
      && Filed(docs, r).Keys == docs.Keys + {r.link.slug}
      && |Filed(docs, r)| == |docs| + 1
      && forall k | k in docs :: Filed(docs, r)[k] == docs[k]
    ensures !r.Created? ==> Filed(docs, r) == docs
  {
  }

  /** A 201 adds exactly the new document and changes nothing else; every other answer
      leaves the collection as it was. */
  lemma PostStateChange(docs: map<string, SmartLink>, body: Payload, parsesUrl: string -> bool, now: int)
    ensures var r := PostReply(docs, body, parsesUrl, now);
      && (r.Created? ==>
            && PostState(docs, body, parsesUrl, now).Keys == docs.Keys + {r.link.slug}
            && |PostState(docs, body, parsesUrl, now)| == |docs| + 1
            && forall k | k in docs :: PostState(docs, body, parsesUrl, now)[k] == docs[k])
      && (!r.Created? ==> PostState(docs, body, parsesUrl, now) == docs)
  {
    var n := Normalized(body);
    var s := Sanitize(n);
    AdmitFilesFresh(docs, CreateLinkErrors(n, parsesUrl), s, now);
    FiledChange(docs, PostReply(docs, body, parsesUrl, now));
  }

  // ---------------------------------------------------------------------------
  // GET /links

  /** `find().sort({createdAt: -1})`: every document once, newest first. */
  method ListLinks(db: SmartLinkCollection) returns (reply: Reply)
    requires db.Valid()
    ensures reply.Listing? && reply.Status() == 200
    ensures NewestFirst(reply.links) && |reply.links| == |db.docs|
    ensures forall k | k in db.docs :: db.docs[k] in reply.links
    ensures forall d | d in reply.links :: d.slug in db.docs && db.docs[d.slug] == d
  {
    var all := db.Find();
    reply := Listing(all);
  }

  // ---------------------------------------------------------------------------
  // GET /links/:slug

  function GetReply(docs: map<string, SmartLink>, slug: string): Reply {
    var errs := SlugParamErrors(slug);
    if errs != [] then BadRequest(InvalidSlugMessage, errs)
    else
      match Lookup(docs, slug)
      case None => NotFound
      case Some(d) => Document(d)
  }

  method GetLink(db: SmartLinkCollection, slug: string) returns (reply: Reply)
    ensures reply == GetReply(db.docs, slug)
  {
    var errs := SlugParamErrors(slug);
    if errs != [] {
      return BadRequest(InvalidSlugMessage, errs);
    }
    var found := Lookup(db.docs, slug);
    if found.None? {
      return NotFound;
    }
    reply := Document(found.value);
  }

  /** A slug outside the grammar is refused with 400; a grammatical one answers 404 when
      no document has exactly that slug, and otherwise the document filed under it. */
  lemma GetOutcomes(docs: map<string, SmartLink>, slug: string)
    requires SlugKeyed(docs)
    ensures GetReply(docs, slug).Status() == 400 <==> !MatchesSlug(slug)
    ensures MatchesSlug(slug) ==>
      (GetReply(docs, slug) == NotFound <==> slug !in docs)
    ensures GetReply(docs, slug).Document? ==>
      slug in docs && GetReply(docs, slug).link == docs[slug] && GetReply(docs, slug).link.slug == slug
  {
    SlugGrammar(slug);
    if MatchesSlug(slug) {
      SlugIsCanonical(slug);
    }
  }

  // ---------------------------------------------------------------------------
  // GET /links/check-slug/:slug (validation attached but never consulted)

  function CheckSlugReply(docs: map<string, SmartLink>, slug: string): Reply {
    Availability(Lookup(docs, slug).None?, slug)
  }

  method CheckSlug(db: SmartLinkCollection, slug: string) returns (reply: Reply)
    ensures reply == CheckSlugReply(db.docs, slug)
  {
    var existing := Lookup(db.docs, slug);
    reply := Availability(!existing.Some?, slug);
  }

  /** check-slug always answers 200 and echoes the slug as sent, even one the slug rule
      would refuse; the slug is available exactly when no document carries its canonical
      form. */
  lemma CheckSlugOutcomes(docs: map<string, SmartLink>, slug: string)
    requires SlugKeyed(docs)
    ensures CheckSlugReply(docs, slug).Status() == 200
    ensures CheckSlugReply(docs, slug).slug == slug
    ensures CheckSlugReply(docs, slug).available <==>
      forall k | k in docs :: docs[k].slug != LowerTrim(slug)
  {
  }

  /** check-slug and POST agree: for a body that passes validation, the slug sent is
      reported available exactly when POST does not answer 409. */
  lemma CheckSlugAgreesWithPost(docs: map<string, SmartLink>, body: Payload, parsesUrl: string -> bool, now: int)
    requires CreateLinkAccepts(Normalized(body), parsesUrl)
    ensures CheckSlugReply(docs, StrOf(body.slug)).available <==> PostReply(docs, body, parsesUrl, now) != SlugTaken
  {
    PostRejectsTakenSlug(docs, body, parsesUrl, now);
  }

  // ---------------------------------------------------------------------------
  // PUT /links/:slug: slugValidation and createLinkValidation, no normaliser

  function PutReply(docs: map<string, SmartLink>, slug: string, body: Payload, parsesUrl: string -> bool, now: int): Reply {
    Amend(docs, slug, SlugParamErrors(slug) + CreateLinkErrors(body, parsesUrl), Sanitize(body), now)
  }

  /** The handler once validation has produced `errs` and the sanitizer the body `s`:
      400 with the errors, and otherwise `findOneAndUpdate`, whose cast, validator or
      unique-index error the catch answers with 500 and whose empty result is a 404. */
  function Amend(docs: map<string, SmartLink>, slug: string, errs: seq<Violation>, s: Payload, now: int): Reply {
    if errs != [] then BadRequest(InvalidDataMessage, errs)
    else
      match UpdateResult(docs, slug, s, now)
      case NoMatch => NotFound
      case Refused(_) => ServerError
      case Written(u) => Document(u)
  }

  /** The collection after a reply to an update of the document filed under `key`: a
      200 files the updated document under its slug in place of the old one. */
  function Refiled(docs: map<string, SmartLink>, key: string, r: Reply): map<string, SmartLink> {
    if r.Document? then (docs - {key})[r.link.slug := r.link] else docs
  }

  /** The collection after `PUT /links/:slug`. */
  function PutState(docs: map<string, SmartLink>, slug: string, body: Payload, parsesUrl: string -> bool, now: int): map<string, SmartLink> {
    Refiled(docs, LowerTrim(slug), PutReply(docs, slug, body, parsesUrl, now))
  }

  /** The route: the validation chains with their sanitizers, then the handler. */
  method PutLink(db: SmartLinkCollection, slug: string, body: Payload, parsesUrl: string -> bool, now: int) returns (reply: Reply)
    requires db.Valid()
    modifies db
    ensures db.Valid()
    ensures reply == PutReply(old(db.docs), slug, body, parsesUrl, now)
    ensures db.docs == PutState(old(db.docs), slug, body, parsesUrl, now)
  {
    var errs := SlugParamErrors(slug) + CreateLinkErrors(body, parsesUrl);
    var s := Sanitize(body);
    reply := UpdateHandler(db, slug, errs, s, now);
  }

  /** The handler, given the validation errors and the sanitized body. */
  method UpdateHandler(db: SmartLinkCollection, slug: string, errs: seq<Violation>, s: Payload, now: int) returns (reply: Reply)
    requires db.Valid()
    modifies db
    ensures db.Valid()
    ensures reply == Amend(old(db.docs), slug, errs, s, now)
    ensures db.docs == Refiled(old(db.docs), LowerTrim(slug), reply)
  {
    if errs != [] {
      return BadRequest(InvalidDataMessage, errs);
    }
    var w := db.FindOneAndUpdate(slug, s, now);
    match w
    case NoMatch => reply := NotFound;
    case Refused(_) => reply := ServerError;
    case Written(u) => reply := Document(u);
  }

  /** A sanitized body that replaces the links with an object and whose update the
      schema validators accept on any document, renaming it to the slug sent, which is
      already canonical. Its link keys are left open: validation does not look at them. */
  ghost predicate Amendable(s: Payload, now: int) {
    && s.slug.Some? && s.streamingLinks.ObjectLinks?
    && LowerTrim(s.slug.value) == s.slug.value
    && forall d: SmartLink {:trigger ApplyUpdate(d, s, now)} ::
         ApplyUpdate(d, s, now).slug == s.slug.value && SchemaValid(ApplyUpdate(d, s, now))
  }

  /** A body that passes validation updates any document into one the schema
      validators accept. */
  lemma AcceptedIsAmendable(body: Payload, parsesUrl: string -> bool, now: int)
    requires CreateLinkAccepts(body, parsesUrl)
    ensures Amendable(Sanitize(body), now)
  {
    NonEmptyWhenAccepted(body);
    SlugIsCanonical(Sanitize(body).slug.value);
  }

  /** The decision after validation: 400 exactly on errors; 500 exactly when the map
      path refuses a link key (found document or not) or the new slug is another
      document's; 404 exactly when the link keys cast and nothing carries the canonical
      slug; and otherwise 200 with the updated document. */
  lemma AmendOutcomes(docs: map<string, SmartLink>, slug: string, errs: seq<Violation>, s: Payload, now: int)
    requires errs == [] ==> Amendable(s, now)
    ensures Amend(docs, slug, errs, s, now).BadRequest? <==> errs != []
    ensures Amend(docs, slug, errs, s, now) == NotFound <==>
      errs == [] && LinkKeysAllowed(s.streamingLinks.entries) && LowerTrim(slug) !in docs
    ensures Amend(docs, slug, errs, s, now) == ServerError <==>
      && errs == []
      && (|| !LinkKeysAllowed(s.streamingLinks.entries)
          || (LowerTrim(slug) in docs && s.slug.value != LowerTrim(slug) && s.slug.value in docs))
    ensures Amend(docs, slug, errs, s, now).Document? ==>
      Amend(docs, slug, errs, s, now).link == ApplyUpdate(docs[LowerTrim(slug)], s, now)
  {
    if errs == [] && LowerTrim(slug) in docs {
      var u := ApplyUpdate(docs[LowerTrim(slug)], s, now);
      assert u.slug == s.slug.value && SchemaValid(u);
    }
  }

  /** PUT answers 400 exactly when the slug parameter or the body fails validation. */
  lemma PutRejectsInvalid(docs: map<string, SmartLink>, slug: string, body: Payload, parsesUrl: string -> bool, now: int)
    ensures PutReply(docs, slug, body, parsesUrl, now).BadRequest? <==>
      !(MatchesSlug(slug) && CreateLinkAccepts(body, parsesUrl))
  {
    SlugGrammar(slug);
    var errs := SlugParamErrors(slug) + CreateLinkErrors(body, parsesUrl);
    assert errs == [] <==> SlugParamErrors(slug) == [] && CreateLinkErrors(body, parsesUrl) == [];
    if errs == [] {
      AcceptedIsAmendable(body, parsesUrl, now);
    }
    AmendOutcomes(docs, slug, errs, Sanitize(body), now);
  }

  /** A valid request answers 500 exactly when a link key is one the map path refuses
      (a "." anywhere, a leading "$" or a reserved name), whether or not a document has
      the slug, or when the document exists and the body renames it onto another
      document's slug; it answers 404 exactly when the link keys cast and no document
      has the slug. */
  lemma PutMissingOrClash(docs: map<string, SmartLink>, slug: string, body: Payload, parsesUrl: string -> bool, now: int)
    requires MatchesSlug(slug) && CreateLinkAccepts(body, parsesUrl)
    ensures PutReply(docs, slug, body, parsesUrl, now) == NotFound <==>
      LinkKeysAllowed(body.streamingLinks.entries) && slug !in docs
    ensures PutReply(docs, slug, body, parsesUrl, now) == ServerError <==>
      || !LinkKeysAllowed(body.streamingLinks.entries)
      || (slug in docs && Trim(StrOf(body.slug)) != slug && Trim(StrOf(body.slug)) in docs)
  {
    SlugGrammar(slug);
    SlugIsCanonical(slug);
    AcceptedIsAmendable(body, parsesUrl, now);
    AmendOutcomes(docs, slug, SlugParamErrors(slug) + CreateLinkErrors(body, parsesUrl), Sanitize(body), now);
  }

  /** A valid PUT whose links include the reserved key "constructor" answers 500, also
      when no document has the slug: the update fails to cast before the lookup. */
  lemma PutRefusesReservedKey(docs: map<string, SmartLink>, slug: string, body: Payload, parsesUrl: string -> bool, now: int)
    requires MatchesSlug(slug) && CreateLinkAccepts(body, parsesUrl)
    requires body.streamingLinks.ObjectLinks? && "constructor" in body.streamingLinks.entries
    ensures PutReply(docs, slug, body, parsesUrl, now) == ServerError
  {
    PutMissingOrClash(docs, slug, body, parsesUrl, now);
  }

  /** A 200 carries the updated document: the body's artist, title and slug (trimmed)
      and its links overwrite the old ones, a cover or an analytics object in the body
      overwrites the old one and an absent one keeps it, the counters and the creation
      date stay, and `updatedAt` is `now`. */
  lemma PutUpdates(docs: map<string, SmartLink>, slug: string, body: Payload, parsesUrl: string -> bool, now: int)
    requires PutReply(docs, slug, body, parsesUrl, now).Document?
    ensures LowerTrim(slug) in docs
    ensures var before := docs[LowerTrim(slug)];
      var after := PutReply(docs, slug, body, parsesUrl, now).link;
      && after.artist == Trim(StrOf(body.artist)) && after.title == Trim(StrOf(body.title))
      && after.slug == Trim(StrOf(body.slug))
      && after.streamingLinks == body.streamingLinks.entries && LinkKeysAllowed(after.streamingLinks)
      && after.coverUrl == body.coverUrl.GetOr(before.coverUrl)
      && after.analytics == (if body.analytics.Some? then AnalyticsOf(body.analytics) else before.analytics)
      && after.clickStats == before.clickStats && after.createdAt == before.createdAt
      && after.updatedAt == now
  {
    var errs := SlugParamErrors(slug) + CreateLinkErrors(body, parsesUrl);
    var s := Sanitize(body);
    if errs == [] {
      assert CreateLinkErrors(body, parsesUrl) == [];
      AcceptedIsAmendable(body, parsesUrl, now);
      TrimIdempotent(StrOf(body.artist));
      TrimIdempotent(StrOf(body.title));
    }
    AmendOutcomes(docs, slug, errs, s, now);
  }

  /** An update that is written replaced a document that was there, and the slug it
      ends up under is its old one or was free. */
  lemma AmendWritesFreeSlug(docs: map<string, SmartLink>, slug: string, errs: seq<Violation>, s: Payload, now: int)
    ensures var r := Amend(docs, slug, errs, s, now);
      r.Document? ==> LowerTrim(slug) in docs && (r.link.slug == LowerTrim(slug) || r.link.slug !in docs)
  {
    UpdateWritesFreeSlug(docs, slug, s, now);
  }

  /** Replacing the document under `key` by one filed under its old key or a free one
      keeps the number of documents and every other document. */
  lemma ReplaceUnderFreeKey(docs: map<string, SmartLink>, key: string, d: SmartLink)
    requires key in docs && (d.slug == key || d.slug !in docs)
    ensures (docs - {key})[d.slug := d].Keys == docs.Keys - {key} + {d.slug}
    ensures |(docs - {key})[d.slug := d]| == |docs|
    ensures forall k | k in docs && k != key :: (docs - {key})[d.slug := d][k] == docs[k]
  {
    var m := (docs - {key})[d.slug := d];
    assert m.Keys == docs.Keys - {key} + {d.slug};
    if d.slug == key {
      assert m.Keys == docs.Keys;
    } else {
      assert |docs.Keys - {key}| == |docs| - 1;
    }
  }

  /** A 200 files the updated document under its slug in place of the old one, keeping
      the number of documents and every other document; every other answer leaves the
      collection as it was. */
  lemma PutStateChange(docs: map<string, SmartLink>, slug: string, body: Payload, parsesUrl: string -> bool, now: int)
    ensures var r := PutReply(docs, slug, body, parsesUrl, now);
      && (r.Document? ==>
            && PutState(docs, slug, body, parsesUrl, now).Keys == docs.Keys - {LowerTrim(slug)} + {r.link.slug}
            && PutState(docs, slug, body, parsesUrl, now)[r.link.slug] == r.link
            && |PutState(docs, slug, body, parsesUrl, now)| == |docs|
            && forall k | k in docs && k != LowerTrim(slug) :: PutState(docs, slug, body, parsesUrl, now)[k] == docs[k])
      && (!r.Document? ==> PutState(docs, slug, body, parsesUrl, now) == docs)
  {
    var r := PutReply(docs, slug, body, parsesUrl, now);
    AmendWritesFreeSlug(docs, slug, SlugParamErrors(slug) + CreateLinkErrors(body, parsesUrl), Sanitize(body), now);
    if r.Document? {
      ReplaceUnderFreeKey(docs, LowerTrim(slug), r.link);
    }
  }

  /** PUT does not run the normaliser: a blank cover sent in the body is stored as it is,
      where POST would have put the placeholder. */
  lemma PutKeepsBlankCover(docs: map<string, SmartLink>, slug: string, body: Payload, parsesUrl: string -> bool, now: int)
    requires body.coverUrl == Some("")
    requires PutReply(docs, slug, body, parsesUrl, now).Document?
    ensures PutReply(docs, slug, body, parsesUrl, now).link.coverUrl == ""
    ensures CoverOrPlaceholder(body.coverUrl) == Some(PlaceholderCover)
  {
    PutUpdates(docs, slug, body, parsesUrl, now);
  }

  // ---------------------------------------------------------------------------
  // DELETE /links/:slug (validation attached but never consulted)

  function DeleteReply(docs: map<string, SmartLink>, slug: string): Reply {
    if Lookup(docs, slug).Some? then Deleted(slug) else NotFound
  }

  method DeleteLink(db: SmartLinkCollection, slug: string) returns (reply: Reply)
    requires db.Valid()
    modifies db
    ensures db.Valid()
    ensures reply == DeleteReply(old(db.docs), slug)
    ensures db.docs == old(db.docs) - {LowerTrim(slug)}
  {
    var removed := db.FindOneAndDelete(slug);
    if removed.None? {
      return NotFound;
    }
    reply := Deleted(slug);
  }

  /** DELETE never answers 400, whatever the slug: it answers 404 when nothing carries
      the slug's canonical form, and otherwise 200 echoing the slug as sent, having
      removed exactly one document. */
  lemma DeleteOutcomes(docs: map<string, SmartLink>, slug: string)
    ensures DeleteReply(docs, slug).Status() in {200, 404}
    ensures DeleteReply(docs, slug).Deleted? <==> LowerTrim(slug) in docs
    ensures DeleteReply(docs, slug).Deleted? ==>
      DeleteReply(docs, slug).slug == slug && |docs - {LowerTrim(slug)}| == |docs| - 1
    ensures forall k | k in docs && k != LowerTrim(slug) :: k in docs - {LowerTrim(slug)}
  {
  }
}
