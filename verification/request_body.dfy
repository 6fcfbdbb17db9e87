/**
 * The shape of a SmartLink request body (`req.body`) as the validators and the
 * normaliser see it. Every text field may be absent; `streamingLinks` may be any JSON
 * value; `analytics` is an object whose other keys are carried along untouched.
 */
module RequestBody {
  import opened Wrappers

  /** The JSON value found under `streamingLinks`. `NonObjectLinks` stands for
      `undefined`, `null`, a string, a number or a boolean; arrays are objects to
      `typeof` but not to the validator, so they get their own case. */
  datatype LinksField = NonObjectLinks | ArrayLinks | ObjectLinks(entries: map<string, string>)

  datatype Payload = Payload(
    artist: Option<string>,
    title: Option<string>,
    slug: Option<string>,
    coverUrl: Option<string>,
    streamingLinks: LinksField,
    // Top-level tracking identifiers: validated, but the schema has no path for them.
    gtmId: Option<string>,
    ga4Id: Option<string>,
    googleAdsId: Option<string>,
    analytics: Option<map<string, string>>)

  /** JavaScript truthiness of a possibly absent string. */
  predicate Truthy(v: Option<string>) {
    v.Some? && v.value != ""
  }

  /** express-validator's `toString`: an absent value reads as the empty string. */
  function StrOf(v: Option<string>): string {
    v.GetOr("")
  }

  /** The property `key` of an optional object (`body.analytics.gtmId`). */
  function Field(obj: Option<map<string, string>>, key: string): Option<string> {
    if obj.Some? && key in obj.value then Some(obj.value[key]) else None
  }

  /** The cover image used when none is given: the normaliser's substitute for a blank
      `coverUrl` and the schema's default for the path. (Scheme and rest are joined so
      that proofs can read the first character.) */
  const PlaceholderCover := "https://" + "via.placeholder.com/300x300/6366f1/ffffff?text=Cover"

  const GtmKey := "gtmId"
  const Ga4Key := "ga4Id"
  const GoogleAdsKey := "googleAdsId"
}
