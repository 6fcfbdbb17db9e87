# SmartLink backend — a Dafny model

SmartLink is a small Express + MongoDB service for music "smart links". A link is one
stored document holding an artist, a title, a unique slug, a cover image, one streaming
URL per platform, optional tracking identifiers and click counters. This project models
the following parts of the service:

- the input policy: the express-validator chains and the normalising middleware;
- the SmartLink document and the collection that stores it;
- the `/api/links` routes: create, list, read, check a slug, update, delete;
- the `/api/redirect/:slug/:platform` route, which counts a click and redirects;
- the `/api/analytics/:slug` read;
- the `/api/scan` route, which shapes the answer of the song.link lookup service.

Modules, one per source file or concern:

| module | file | models |
|---|---|---|
| `Wrappers` | `wrappers.dfy` | `Option`, for a JavaScript property that may be absent |
| `Text` | `text.dfy` | ECMAScript `trim`, `toLowerCase` (ASCII and U+212A), the `isLength` length |
| `RequestBody` | `request_body.dfy` | the shape of a request body |
| `LinkValidators` | `link_validators.dfy` | `createLinkValidation`, `slugValidation`, `platformValidation` |
| `NormalizeData` | `normalize_data.dfy` | `normalizeSmartLinkData` |
| `SmartLinkModel` | `smart_link.dfy` | the schema, the pre-save hook, the collection |
| `LinksRoutes` | `links.dfy` | `routes/links.js` |
| `RedirectRoutes` | `redirect.dfy` | `routes/redirect.js` |
| `ScanRoute` | `scan.dfy` | `routes/scan.js` |

How the modules are built:

- The collection is a class, `SmartLinkCollection`. Its one field maps each slug to its
  document, and the key's uniqueness stands for the unique index on `slug`. Its methods are
  the Mongoose calls the routes make (`find`, `create`, `findOneAndUpdate`,
  `findOneAndDelete`, `updateOne` with `$inc`). Each method is proved to keep the
  collection's invariant: every document is filed under its own slug, passes the schema,
  has trimmed names and a canonical slug, and has a `totalViews` equal to the sum of its
  per-platform counters.
- Each route has two parts:
  - specification functions. They give the reply from the collection before the request and,
    for a route that writes, the collection after it.
  - a handler method. It does the route step by step against the class and is proved to
    agree with those functions.
- The lemmas state the route's promises about the specification functions.
- Loops in the source are loops here:
  - the middleware's `forEach` that deletes blank links;
  - the analytics read's `for...of`;
  - the scan route's `forEach` that fills `links`;
  - the listing's sort.

  Each loop is proved against a function that describes its result.

Conventions used throughout:

- **The canonical slug.** Mongoose casts a query filter through the slug path's `trim` and
  `lowercase` setters. So every lookup by slug is a lookup by the trimmed, lower-cased form
  of the slug.
- **Parameters.** Time (`Date.now()`) is the parameter `now`. One request gets one `now`.
  On a create, the source reads the clock twice: once for the `createdAt`/`updatedAt`
  defaults (SmartLink.js:51, :55) and once in the pre-save hook (SmartLink.js:64). `now`
  stands for both readings. So "equal creation and update times" assumes the two readings
  agree; in the source, `updatedAt` may be a few milliseconds later. The URL parser that the cover
  check calls is the parameter `parsesUrl`. `new URL` accepts the placeholder cover, so
  the lemma about a normalised cover (`NormalizedCoverAccepted`) assumes
  `parsesUrl(PlaceholderCover)`. The URL test of the scan route is the parameter
  `isUrl`. The lookup service is a function `lookup` from a query to its decoded answer or
  its failure. Whether the click update fails is the parameter `trackingFails`.

Where the code and the service's design description disagree, the model follows the code:

- **Redirect allow-list.** The redirect route attaches the platform allow-list but never
  reads its result, so a platform outside the list is decided by the lookup alone
  (`RedirectIgnoresValidation`). The design describes such requests as rejected before the
  lookup.
- **`streamingLinks` arrays.** The normaliser keeps an array, because `typeof` calls it an
  object, and the validator then refuses it. The design has the normaliser coerce it to an
  empty mapping.
- **Empty analytics identifiers.** An identifier that is the empty string is not deleted by
  the normaliser, because the guard tests truthiness first. Only whitespace-only identifiers
  are deleted.
- **What an update writes.** An update overwrites only the paths the body carries and does
  not run the normaliser. The counters, the creation date and every absent path are kept,
  and a blank cover is stored as sent (`PutKeepsBlankCover`). If the body renames the
  document onto another document's slug, the unique index refuses the write and the route
  answers 500.
- **Validation on check-slug and delete.** Check-slug and delete attach the slug rule but
  never read it. The analytics read and the redirect do the same.

## Model

| member | source | states |
|---|---|---|
| `Text.Trim` | backend/src/validators/linkValidators.js:5 | the trimmed value is no longer than the input and neither starts nor ends with ECMAScript whitespace |
| `Text.TrimMembers` | backend/src/validators/linkValidators.js:5 | every character of the trimmed value comes from the input |
| `Text.TrimEmptyIff` | backend/src/middleware/normalizeData.js:11 | the blank test `trim() === ''` holds exactly when every character is whitespace |
| `Text.TrimIdempotent` | backend/src/validators/linkValidators.js:5 | trimming twice is trimming once |
| `Text.Lower` | backend/src/middleware/normalizeData.js:8 | lower-casing keeps the length and maps every character through the one-character lower-case mapping (ASCII letters and U+212A) |
| `Text.LowerTrimIdempotent` | backend/src/middleware/normalizeData.js:8 | canonicalising a slug (lower-case, then trim) twice is canonicalising it once |
| `Text.VisibleLength` | backend/src/validators/linkValidators.js:8 | the length `isLength` measures is at most the number of code points, and 0 for the empty string |
| `Text.VisibleLengthExact` | backend/src/validators/linkValidators.js:8 | the length `isLength` measures is the number of code points minus the occurrences of U+FE0E and U+FE0F, so a string without them measures its full length |
| `LinkValidators.SlugGrammar` | backend/src/validators/linkValidators.js:22 | the slug pattern accepts exactly the non-empty strings of lower-case letters, digits and hyphens with no hyphen first, last or doubled |
| `LinkValidators.JoinedSegmentsMatch` | backend/src/validators/linkValidators.js:22 | any one or more `[a-z0-9]+` segments joined by single hyphens match the slug pattern |
| `LinkValidators.SlugIsCanonical` | backend/src/models/SmartLink.js:14-21 | a slug that matches the pattern is unchanged by the schema's `lowercase` and `trim` setters |
| `LinkValidators.IdExamples` | backend/src/validators/linkValidators.js:43-83 | "GTM-572GXWPP" and "G-123ABC456" are accepted; "INVALID-ID", a lower-case prefix, a bare prefix and letters in a Google Ads id are refused |
| `LinkValidators.CreateLinkErrors` | backend/src/validators/linkValidators.js:3-92 | the error list is empty exactly when every rule of `createLinkValidation` holds |
| `LinkValidators.EveryViolationReported` | backend/src/validators/linkValidators.js:3-92 | no short-circuit: a violation is in the list exactly when the verdict on its rule is a failure |
| `LinkValidators.NonEmptyWhenAccepted` | backend/src/validators/linkValidators.js:4-23 | a name of 1 to 100 characters or a slug matching the pattern is never empty once trimmed |
| `LinkValidators.EmptyArtistFailsTwice` | backend/src/validators/linkValidators.js:4-9 | an artist that is empty once trimmed draws both the "required" and the length error |
| `LinkValidators.OnlyNestedGtmFails` | backend/src/validators/linkValidators.js:51-57 | verdicts on which only `analytics.gtmId` fails produce exactly that one violation |
| `LinkValidators.InvalidGtmIdIsTheOnlyError` | backend/src/validators/linkValidators.js:51-57 | an otherwise valid body with `analytics.gtmId` "INVALID-ID" fails on exactly that rule |
| `LinkValidators.InvalidIdRejected` | backend/src/validators/linkValidators.js:43-49 | "INVALID-ID" is not an accepted container id |
| `LinkValidators.SlugParamErrors` | backend/src/validators/linkValidators.js:94-98 | no error exactly when the raw path parameter has the slug shape; otherwise the single "Slug invalide" violation |
| `LinkValidators.Sanitize` | backend/src/validators/linkValidators.js:4-23 | after the `trim()` sanitizers, artist, title and slug are each the trimmed value sent (an absent one as ""), and the cover, links, analytics and the three top-level identifiers are unchanged |
| `NormalizeData.NonBlank` | backend/src/middleware/normalizeData.js:21-25 | the kept links are exactly the entries whose value is not blank, with their values |
| `NormalizeData.DropBlankLinks` | backend/src/middleware/normalizeData.js:21-25 | the key-by-key deletion loop leaves exactly the non-blank links |
| `NormalizeData.DeleteBlankIds` | backend/src/middleware/normalizeData.js:28-38 | the three guarded deletions compute `DropBlankIds` |
| `NormalizeData.NormalizeSmartLinkData` | backend/src/middleware/normalizeData.js:2-41 | the middleware, statement by statement, computes the whole rewrite `Normalized` |
| `NormalizeData.PlaceholderNotBlank` | backend/src/middleware/normalizeData.js:11-13 | the placeholder cover is not blank |
| `NormalizeData.DropBlankIdsExact` | backend/src/middleware/normalizeData.js:28-38 | exactly the whitespace-only identifiers are deleted; empty identifiers, visible ones and other keys stay with their values |
| `NormalizeData.CoverAlwaysUsable` | backend/src/middleware/normalizeData.js:11-13 | after normalisation the cover is present and not blank, and a usable cover is kept |
| `NormalizeData.LinksBecomeObject` | backend/src/middleware/normalizeData.js:16-18 | `streamingLinks` ends an object unless an array was sent, and a non-object becomes `{}` |
| `NormalizeData.CanonicalSlugIsFixed` | backend/src/middleware/normalizeData.js:8 | a normalised slug is already canonical |
| `NormalizeData.NormalizeIdempotent` | backend/src/middleware/normalizeData.js:2-41 | running the middleware on its own output changes nothing |
| `SmartLinkModel.SumIncrement` | backend/src/routes/redirect.js:71-74 | raising one counter by one raises the sum of the counters by one |
| `SmartLinkModel.RecordClickCounts` | backend/src/routes/redirect.js:71-74 | `$inc` raises the total and the platform's counter by one each, leaves every other counter alone and keeps the total equal to the sum |
| `SmartLinkModel.SchemaValid` | backend/src/models/SmartLink.js:4-21 | the schema validators: `required` artist, title and slug (the empty string fails) and the slug `match` pattern |
| `SmartLinkModel.Writable` | backend/src/models/SmartLink.js:27-32 | what a write accepts: every `streamingLinks` key without ".", without a leading "$" and none of the reserved names "__proto__", "constructor", "prototype" (the `Map` path), and the schema validators |
| `SmartLinkModel.NewDocument` | backend/src/models/SmartLink.js:3-66 | `create`: the body cast through the schema (trimmed names, canonical slug, the default cover and link map, only the declared analytics keys, zeroed counters, both dates `now`), then the pre-save hook |
| `SmartLinkModel.PreSave` | backend/src/models/SmartLink.js:60-66 | the pre-save hook: a truthy slug is lower-cased and trimmed again, and `updatedAt` becomes `now` |
| `SmartLinkModel.NewDocumentDefaults` | backend/src/models/SmartLink.js:3-56 | a new document has zeroed counters, equal creation and update times, the placeholder cover and empty links by default, a canonical slug, trimmed names and only the declared analytics keys |
| `SmartLinkModel.NewDocumentStored` | backend/src/models/SmartLink.js:3-56 | a new document that is writable (link keys accepted, schema validators passed) satisfies the store invariant |
| `SmartLinkModel.PreSaveKeepsCanonicalSlug` | backend/src/models/SmartLink.js:60-66 | the pre-save hook keeps a canonical slug and stamps `updatedAt` |
| `SmartLinkModel.ApplyUpdate` | backend/src/routes/links.js:119-126 | `findOneAndUpdate` with `{...body, updatedAt}`: each path the body carries is overwritten through its setters, the other paths keep their values, and the hook does not run |
| `SmartLinkModel.ApplyUpdateStored` | backend/src/routes/links.js:119-126 | an update keeps the counters and the creation date, and keeps the store invariant when the result is writable |
| `SmartLinkModel.Lookup` | backend/src/routes/links.js:26 | `findOne({slug})`: the document filed under the trimmed, lower-cased slug, if any |
| `SmartLinkModel.ClickedWellKeyed` | backend/src/routes/redirect.js:67-80 | a click keeps the collection well keyed, with each total still the sum of its counters |
| `SmartLinkModel.CreateWritesFreshDocument` | backend/src/routes/links.js:34 | `create` writes exactly when the map path accepts every link key of the new document, the schema validators accept it and its slug is free, and then writes that document |
| `SmartLinkModel.UpdateWritesFreeSlug` | backend/src/routes/links.js:122-126 | the update is cast before the query: a link key the map path refuses fails exactly when the body has such a key, whatever the slug; an update that casts finds nothing exactly when no document has the canonical slug; a write is the found document updated, with link keys the map path accepts, accepted by the schema validators, under its old slug or a free one |
| `SmartLinkModel.InsertNewestFirst` | backend/src/routes/links.js:48-50 | inserting into a newest-first sequence keeps it newest first, and the result holds the old documents plus the new one, each as often as before (multiset equality) |
| `SmartLinkModel.SmartLinkCollection.Find` | backend/src/routes/links.js:48-50 | every document exactly once, newest first |
| `SmartLinkModel.SmartLinkCollection.Create` | backend/src/routes/links.js:34 | the result is `CreateResult`; only a write changes the collection, by filing the new document under its slug |
| `SmartLinkModel.SmartLinkCollection.FindOneAndUpdate` | backend/src/routes/links.js:122-126 | the result is `UpdateResult` (cast failure first, then no match, validation, duplicate slug, write); only a write changes the collection, by replacing the found document with the updated one under its slug |
| `SmartLinkModel.SmartLinkCollection.FindOneAndDelete` | backend/src/routes/links.js:147 | returns the document under the canonical slug, if any, and removes exactly that key |
| `SmartLinkModel.SmartLinkCollection.IncrementClicks` | backend/src/routes/redirect.js:68-76 | the collection becomes `Clicked`: the found document's two counters rise by one; no match changes nothing |
| `LinksRoutes.PostLink` | backend/src/routes/links.js:10-43 | the route (normaliser, validation, handler) answers `PostReply` and leaves the collection as `PostState` |
| `LinksRoutes.CreateHandler` | backend/src/routes/links.js:14-42 | the handler answers `Admit` and files the document exactly on a 201 |
| `LinksRoutes.AcceptedIsAdmissible` | backend/src/routes/links.js:10-34 | a body that passes validation makes a document the schema validators accept, filed under the canonical slug sent |
| `LinksRoutes.AdmitRejects` | backend/src/routes/links.js:15-21 | the handler answers 400 exactly on validation errors, and carries them |
| `LinksRoutes.AdmitFailsOnlyOnRefusedKey` | backend/src/routes/links.js:26-42 | once validation passes, the handler answers 201, 400, 409 or 500, and 500 exactly when the slug is free and a link key has a "." or a leading "$" or is a reserved name ("__proto__", "constructor", "prototype") |
| `LinksRoutes.AdmitTaken` | backend/src/routes/links.js:26-31 | after validation, 409 exactly when a document has the slug |
| `LinksRoutes.AdmitCreates` | backend/src/routes/links.js:33-35 | after validation, 201 exactly when the slug is free and every link key is accepted, carrying the new document |
| `LinksRoutes.AdmitFilesFresh` | backend/src/routes/links.js:26-35 | a 201 from the handler carries a document whose slug no document had |
| `LinksRoutes.AcceptedDocument` | backend/src/routes/links.js:34-35 | the document made from an accepted body has trimmed names of 1 to 100 characters, zeroed counters and both dates `now` |
| `LinksRoutes.PostFailsOnlyOnRefusedKey` | backend/src/routes/links.js:10-43 | POST answers 201, 400, 409 or 500; 500 exactly when the normalised body passes validation, the canonical slug is free and a kept link key has a "." or a leading "$" or is a reserved name ("__proto__", "constructor", "prototype") |
| `LinksRoutes.PostRefusesDottedKey` | backend/src/routes/links.js:33-42 | a valid body with a free slug and a non-blank link under a key containing "." (such as "music.apple") answers 500 |
| `LinksRoutes.NormalizedSlugIsCanonicalInput` | backend/src/middleware/normalizeData.js:8 | the slug the handler reads is the lower-cased, trimmed slug sent |
| `LinksRoutes.AcceptedSlugIsTruthy` | backend/src/validators/linkValidators.js:18-23 | a body that passes validation after normalisation was sent with a non-empty slug |
| `LinksRoutes.NormalizedNameIsTrimmedInput` | backend/src/middleware/normalizeData.js:6-7 | a name reaches the document trimmed whether or not the normaliser trimmed it |
| `LinksRoutes.NormalizedCoverAccepted` | backend/src/validators/linkValidators.js:24-34 | with a URL parser that accepts the placeholder, the cover rule fails on a normalised body exactly when a non-blank cover that does not parse was sent; a missing or blank cover never fails it |
| `LinksRoutes.PostRejectsInvalid` | backend/src/routes/links.js:14-21 | POST answers 400 exactly when the normalised body fails validation, listing every failed rule |
| `LinksRoutes.PostRejectsTakenSlug` | backend/src/routes/links.js:23-31 | a valid POST answers 409 exactly when a document carries the canonical form of the slug sent |
| `LinksRoutes.PostCreates` | backend/src/routes/links.js:33-35 | a 201 carries a new document under the canonical slug sent, with trimmed names of 1 to 100 characters, zeroed counters and both dates `now` |
| `LinksRoutes.FiledChange` | backend/src/routes/links.js:34-35 | filing a 201 whose document has an unused key adds exactly that key and keeps every other document; any other reply changes nothing |
| `LinksRoutes.PostStateChange` | backend/src/routes/links.js:10-43 | a 201 adds exactly one document and changes no other; every other answer leaves the collection as it was |
| `LinksRoutes.ListLinks` | backend/src/routes/links.js:46-59 | 200 with every document exactly once, newest first |
| `LinksRoutes.GetLink` | backend/src/routes/links.js:62-88 | the handler answers `GetReply` and changes nothing |
| `LinksRoutes.GetOutcomes` | backend/src/routes/links.js:62-88 | 400 exactly for a slug outside the grammar; for a grammatical slug, 404 exactly when no document has it, otherwise that document |
| `LinksRoutes.CheckSlug` | backend/src/routes/links.js:91-106 | the handler answers `CheckSlugReply` and changes nothing |
| `LinksRoutes.CheckSlugOutcomes` | backend/src/routes/links.js:91-106 | always 200, echoing the slug as sent; available exactly when no document carries its canonical form |
| `LinksRoutes.CheckSlugAgreesWithPost` | backend/src/routes/links.js:91-99 | for a valid body, check-slug reports the slug available exactly when POST would not answer 409 |
| `LinksRoutes.PutLink` | backend/src/routes/links.js:109-141 | the route answers `PutReply` and leaves the collection as `PutState`; a refused link key answers 500 also on a missing slug |
| `LinksRoutes.UpdateHandler` | backend/src/routes/links.js:110-140 | the handler answers `Amend` (the update cast before the lookup) and refiles the document exactly on a 200 |
| `LinksRoutes.AcceptedIsAmendable` | backend/src/routes/links.js:109-126 | a body that passes validation replaces the links with an object and updates any document into one the schema validators accept, under the slug sent |
| `LinksRoutes.AmendOutcomes` | backend/src/routes/links.js:111-140 | 400 exactly on errors; 500 exactly when a link key is one the map path refuses (whether or not a document matches) or the found document's rename lands on another document's slug; 404 exactly when the link keys cast and nothing has the canonical slug; otherwise 200 with the updated document |
| `LinksRoutes.PutRejectsInvalid` | backend/src/routes/links.js:109-117 | PUT answers 400 exactly when the slug parameter or the body fails validation |
| `LinksRoutes.PutMissingOrClash` | backend/src/routes/links.js:122-140 | a valid PUT answers 500 exactly when a link key has a "." or a leading "$" or is a reserved name, on a missing slug as on an existing one, or when the document exists and the body renames it onto another document's slug; 404 exactly when the link keys cast and no document has the slug |
| `LinksRoutes.PutRefusesReservedKey` | backend/src/routes/links.js:122-140 | a valid PUT with a link under the key "constructor" answers 500 even when no document has the slug |
| `LinksRoutes.PutUpdates` | backend/src/routes/links.js:119-134 | a 200 carries the body's trimmed names and slug and its links (whose keys the map path accepts), the body's cover and analytics if sent (else the old ones), the old counters and creation date, and `updatedAt` `now` |
| `LinksRoutes.AmendWritesFreeSlug` | backend/src/routes/links.js:122-126 | a written update replaced an existing document and lands under its old slug or a free one |
| `LinksRoutes.ReplaceUnderFreeKey` | backend/src/routes/links.js:122-126 | replacing a document under its old key or a free one keeps the count and every other document |
| `LinksRoutes.PutStateChange` | backend/src/routes/links.js:109-141 | a 200 refiles the updated document in place of the old one, keeping the count and every other document; every other answer changes nothing |
| `LinksRoutes.PutKeepsBlankCover` | backend/src/routes/links.js:109 | PUT, which does not run the normaliser, stores a blank cover as sent, where POST would store the placeholder |
| `LinksRoutes.DeleteLink` | backend/src/routes/links.js:144-165 | the handler answers `DeleteReply` and removes exactly the canonical slug's key |
| `LinksRoutes.DeleteOutcomes` | backend/src/routes/links.js:144-165 | never 400; 404 exactly when nothing carries the canonical slug, otherwise 200 echoing the slug, one document fewer |
| `RedirectRoutes.Redirect` | backend/src/routes/redirect.js:8-109 | the handler answers `RedirectPage` and leaves the collection as `RedirectState` |
| `RedirectRoutes.RedirectPage` | backend/src/routes/redirect.js:13-83 | the reply: the "not found" page when no document has the canonical slug, the "platform not available" page when the document has no truthy destination for the platform, otherwise a 302 to that destination |
| `RedirectRoutes.RedirectOutcomes` | backend/src/routes/redirect.js:13-83 | 302 or 404 only; 302 exactly when the canonical slug has a non-empty destination for the platform, with that stored destination as the location (before Express percent-encodes it for the `Location` header); "not found" exactly when no document has the slug |
| `RedirectRoutes.RedirectIgnoresValidation` | backend/src/routes/redirect.js:8-13 | a platform outside the allow-list and a slug outside the grammar still redirect when the lookup finds a destination |
| `RedirectRoutes.RedirectIsCaseInsensitive` | backend/src/routes/redirect.js:13 | a slug and its canonical form give the same status, the same redirect and the same click |
| `RedirectRoutes.ClickChangesTwoCounters` | backend/src/routes/redirect.js:67-80 | a counted click raises the total and the platform's counter by one, changes no other counter, field or document, and keeps the set of slugs |
| `RedirectRoutes.NoRedirectNoClick` | backend/src/routes/redirect.js:14-80 | a request that does not redirect, or whose counter update fails, leaves the collection as it was |
| `RedirectRoutes.CopyClicks` | backend/src/routes/redirect.js:127-132 | the loop copies every stored counter with its count and nothing else |
| `RedirectRoutes.Analytics` | backend/src/routes/redirect.js:112-149 | the handler, with the counter copy working, answers `AnalyticsSummary` |
| `RedirectRoutes.AnalyticsReportsCounters` | backend/src/routes/redirect.js:116-141 | 200 or 404; 404 exactly when nothing has the canonical slug; otherwise exactly the stored counters, a total equal to their sum, and the canonical slug |
| `RedirectRoutes.AnalyticsSeesClick` | backend/src/routes/redirect.js:67-80 | after a counted click the summary reports one more view and one more click on the platform |
| `RedirectRoutes.AnalyticsAsWrittenFailsAfterClick` | backend/src/routes/redirect.js:116-132 | as written, a link that has been clicked through answers 500, where the intended summary reports the click |
| `RedirectRoutes.AnalyticsAgreeBeforeClicks` | backend/src/routes/redirect.js:116-141 | as written and as intended agree on every link without counters |
| `ScanRoute.FirstSongIndex` | backend/src/routes/scan.js:31-32 | the index found is a song with no song before it; none exactly when no entity is a song |
| `ScanRoute.MapPlatform` | backend/src/routes/scan.js:44-54 | a platform name is kept, except "youtubeMusic", which becomes "youtube" |
| `ScanRoute.LinksAfter` | backend/src/routes/scan.js:41-56 | the link object after the `forEach` over the entries: each entry writes its url under its mapped platform, a later write replacing an earlier one |
| `ScanRoute.MapPlatformMergesOnlyYoutube` | backend/src/routes/scan.js:44-54 | only "youtubeMusic" is renamed, so "youtube" and "youtubeMusic" are the only two keys that can land on one output key |
| `ScanRoute.MappedPlatformAllowed` | backend/src/validators/linkValidators.js:100-104 | the platform allow-list accepts a scanned platform name after mapping exactly when the route's table knows the name |
| `ScanRoute.CollectLinks` | backend/src/routes/scan.js:41-56 | the `forEach` builds `LinksAfter` of the entries, whose keys are exactly the mapped platform names |
| `ScanRoute.LinksAfterKeys` | backend/src/routes/scan.js:41-56 | the output keys are exactly the mapped source keys |
| `ScanRoute.LastWriteWins` | backend/src/routes/scan.js:42-56 | a source url appears under its mapped key unless a later entry maps to the same key |
| `ScanRoute.LinksComeFromLastEntry` | backend/src/routes/scan.js:42-56 | every output url is that of the last entry mapping to its key |
| `ScanRoute.YoutubeMusicOverridesEarlierYoutube` | backend/src/routes/scan.js:44-55 | with both YouTube and YouTube Music links, the one listed later is reported under "youtube" |
| `ScanRoute.Scan` | backend/src/routes/scan.js:7-79 | the handler answers `ScanOutcome` |
| `ScanRoute.InvalidUrlSkipsLookup` | backend/src/routes/scan.js:8-16 | a refused URL answers 400 whatever the lookup service would say: it is not consulted |
| `ScanRoute.ScanOutcomes` | backend/src/routes/scan.js:10-76 | 200, 400, 404 or 500; 400 exactly for a refused URL; 500 exactly for a failure whose response was not 404 |
| `ScanRoute.ScanNotFound` | backend/src/routes/scan.js:31-38 | 404 exactly for an answer without a song or a failed response with status 404 |
| `ScanRoute.ScanReportsFirstSong` | backend/src/routes/scan.js:58-63 | a 200 reports the first song's artist name, title and thumbnail, with links keyed by exactly the mapped platform names |

## Findings

| source | as written | input that shows it | evidently intended | confidence | as-written member | corrected member |
|---|---|---|---|---|---|---|
| backend/src/routes/redirect.js:116-132 | the document is read with `.lean()`, so `clickStats.clicks` is a plain object, and `for...of` over a plain object throws; the catch answers 500 | `GET /api/analytics/test-song` after one redirect through `/api/redirect/test-song/spotify` | 200 with `clicksByPlatform` holding every stored counter | not executed | `RedirectRoutes.AnalyticsAsWrittenFailsAfterClick` | `RedirectRoutes.AnalyticsReportsCounters` |

The as-written read is `AnalyticsAsWritten`. It assumes that an empty `clicks` map is not
stored, so that a link with no counters skips the loop and gets through. Every other known
link answers 500. The failure after a click does not depend on that assumption: a
clicked link's map is not empty. The rest of the model uses the corrected read, `AnalyticsSummary`, and the
`Analytics` handler that computes it with the counter-copying loop.

## Left out

- HTML bodies of the redirect's error pages, console logging and JSON serialisation: the
  model keeps the status and the page's kind (and, for "platform unavailable", the
  platform and the slug of the back link).
- Database and network failures are left out. The one failure kept is the click update
  (`trackingFails`), because the route catches it and still redirects. Other failures
  would turn any route into its generic 500.
- `RedirectRoutes.RedirectPage` gives the stored destination as the location. `res.redirect`
  percent-encodes it (`encodeurl`) before it becomes the `Location` header, and that
  encoding is left out.
- Concurrency is left out: the atomicity of `$inc` and the race between the duplicate
  check and `create`. Store operations are sequential.
- The HTTP request to the lookup service (`axios.get`) is modelled as a function from the
  query to a decoded answer or a failure status. The endpoint is kept as a constant.
- URL parsing (`new URL`, validator.js `isURL`) is modelled as the predicate parameters
  `parsesUrl` and `isUrl`.
- `toLowerCase` is modelled on the ASCII letters and the KELVIN SIGN (U+212A, whose lower
  case is 'k'). These are the only characters that lower-case into the slug alphabet
  one-for-one, so which slugs the pattern accepts is modelled exactly. Every other
  non-ASCII mapping is left out, including U+0130, whose lower case is two characters.
  A slug sent to a lookup that holds such a letter is compared unchanged. Its JavaScript
  lower case is not in the slug alphabet either, so it finds no stored document either
  way.
- Client-supplied `clickStats`, `createdAt`, `updatedAt` and `_id` in a POST or PUT body
  are left out. The body model has no such fields, so the store invariant "total = sum of
  counters" is not exposed to them.
- Mongoose refuses map keys that contain ".", start with "$", or are one of the reserved
  names "__proto__", "constructor" and "prototype". For `streamingLinks`, this is
  modelled in `MapKeyAllowed` and `Writable`, and `create` and `findOneAndUpdate` fail on
  such a key; `findOneAndUpdate` fails on it before it looks for the document.
  For `clickStats.clicks`, the `$inc` by platform name is covered only as a failing click
  update (`trackingFails`).
- `SmartLinkModel.MapKeyAllowed`: the reserved-name refusal follows the Mongoose
  releases that check map keys against `__proto__`, `constructor` and `prototype`. The
  Mongoose version is not part of this model; under a release without that check such
  keys are stored, and `Writable`, `AdmitFailsOnlyOnRefusedKey`,
  `PostFailsOnlyOnRefusedKey` and `PutMissingOrClash` would not hold for them.
- `SmartLinkModel.UpdateResult`: Mongoose runs the update validators (`runValidators`)
  before the query, while the model checks the schema after finding the document. Only
  the link-key cast is placed before the lookup. The order of the schema check matters
  only for a body that fails the schema, which the PUT validation chain already answers
  with 400 (`AcceptedIsAmendable`), so no PUT reply depends on it.
- `LinksRoutes.PostFailsOnlyOnRefusedKey`: the body model holds strings only. A truthy
  non-string `artist`, `title`, `slug`, `coverUrl`, link value or analytics identifier
  (a number, an object) makes the normaliser's `.trim()` throw. That middleware runs
  before the handler's `try`, and Express answers the throw with its default 500. This
  second route to a 500 on POST is not modelled, and neither is the casting of such
  values on PUT.
- `LinksRoutes.PutUpdates`: a `coverUrl` or `analytics` sent as JSON `null` is treated
  like an absent one, and the update keeps the old value. The source spreads the body
  into the update, so a PUT with `"coverUrl": null` stores `null`, and one with
  `"analytics": null` clears the analytics. The request body model (`RequestBody.Payload`)
  has `Option` fields, which cannot tell a `null` from a missing key. For POST the two
  are the same: the normaliser and validation treat both as falsy.
- `SmartLinkModel.ApplyUpdate`: for the same reason, an update only overwrites a path
  when the body has a value for it. Writing `null` into `coverUrl` or `analytics` is not
  modelled.
- `RedirectRoutes.AnalyticsAgreeBeforeClicks`: the model assumes, without checking it
  against a Mongoose version, that an empty `clickStats.clicks` map is not stored, so a
  `.lean()` read finds it absent. Mongoose's `minimize` drops empty plain objects, but a
  `MongooseMap` is converted to a native `Map` on save and may be stored as `{}`. In that
  case the as-written read also answers 500 for a link that was never clicked, and the
  two reads do not agree on such links. `AnalyticsAsWritten` carries the same
  assumption. `AnalyticsAsWrittenFailsAfterClick` does not depend on it.
- In the lookup answer, entity fields and link values may be missing or `null`, which
  would make the route answer `undefined` fields or 500. Entities and links are modelled
  with every field present. Object key order is taken as the order of the given
  sequences.
- Platform names that are `Object.prototype` members ("constructor", "__proto__", …) are
  treated like any other name. In JavaScript, `platformMap[platform]` finds an inherited
  property for them.
- `backend/src/index.js` is not part of this model (bootstrap, CORS, the health route).
  Neither is `backend/src/validators/joiSchemas.js`, which no route uses.
- `LinksRoutes.Amendable`, used by the PUT lemmas, asks that the body replace the links
  with an object and that the schema validators accept the update on any stored
  document. This holds for every body that passes validation (`AcceptedIsAmendable`),
  which is the only case the lemmas use.
- `Text.VisibleLength` counts each `char` as one code point; strings are sequences of
  Unicode scalar values, so surrogate pairs do not arise.
