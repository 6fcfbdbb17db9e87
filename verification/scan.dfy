/**
 * `POST /api/scan`: turns a streaming URL (or an ISRC/UPC link) into a song's names,
 * cover and per-platform links by asking the song.link lookup service.
 *
 * The request to that service is a parameter: `lookup` gives, for a query, either the
 * decoded answer or the failure (with the HTTP status of the failed response, when
 * there was one). The URL test of the validation chain is a parameter too (`isUrl`).
 * The answer's objects are given as sequences in the order `Object.values` and
 * `Object.entries` visit them.
 */
module ScanRoute {
  import opened Wrappers
  import LinkValidators

  /** One entity of `entitiesByUniqueId`. */
  datatype Entity = Entity(kind: string, artistName: string, title: string, thumbnailUrl: string)

  /** One entry `[platform, { url }]` of `linksByPlatform`. */
  datatype PlatformLink = PlatformLink(platform: string, url: string)

  /** The decoded answer of the lookup service; either object may be missing. */
  datatype LookupData = LookupData(entitiesByUniqueId: Option<seq<Entity>>, linksByPlatform: Option<seq<PlatformLink>>)

  /** What the request to the lookup service produced. */
  datatype Upstream =
    | Answered(data: LookupData)
    | Failed(responseStatus: Option<int>)

  /** The query parameters sent along with the URL. */
  datatype Query = Query(url: string, userCountry: string, platform: string)

  const LookupEndpoint := "https://api.song.link/v1-alpha.1/links"
  const InvalidDataMessage := "Données invalides"
  const UrlInvalidMessage := "URL invalide"
  const SongNotFoundMessage := "Lien non trouvé. Veuillez vérifier l'URL ou utiliser un ISRC/UPC valide."
  const ScanErrorMessage := "Erreur interne du serveur"

  /** What the route answers. */
  datatype ScanReply =
    | Scanned(artist: string, title: string, thumbnailUrl: string, links: map<string, string>)
    | InvalidData
    | SongNotFound
    | ScanFailed
  {
    function Status(): int {
      match this
      case Scanned(_, _, _, _) => 200
      case InvalidData => 400
      case SongNotFound => 404
      case ScanFailed => 500
    }

    function Message(): string {
      match this
      case Scanned(_, _, _, _) => ""
      case InvalidData => InvalidDataMessage
      case SongNotFound => SongNotFoundMessage
      case ScanFailed => ScanErrorMessage
    }
  }

  /** The query the route sends for a URL. */
  function QueryFor(url: string): Query {
    Query(url, "US", "spotify")
  }

  // ---------------------------------------------------------------------------
  // Song selection: `entities.find(e => e.type === 'song')`

  predicate IsSong(e: Entity) {
    e.kind == "song"
  }

  /** The position of the first song among the entities, if there is one. */
  function FirstSongIndex(entities: seq<Entity>): (r: Option<nat>)
    ensures r.Some? ==> r.value < |entities| && IsSong(entities[r.value])
    ensures r.Some? ==> forall j | 0 <= j < r.value :: !IsSong(entities[j])
    ensures r.None? <==> forall j | 0 <= j < |entities| :: !IsSong(entities[j])
  {
    if entities == [] then None
    else if IsSong(entities[0]) then Some(0)
    else
      match FirstSongIndex(entities[1..])
      case None => None
      case Some(i) => Some(i + 1)
  }

  /** The song the route reports: the first entity whose type is "song". */
  function FirstSong(entities: seq<Entity>): Option<Entity> {
    match FirstSongIndex(entities)
    case None => None
    case Some(i) => Some(entities[i])
  }

  // ---------------------------------------------------------------------------
  // Platform links

  /** The route's table of platform names. */
  const PlatformMap: map<string, string> := map[
    "spotify" := "spotify",
    "appleMusic" := "appleMusic",
    "youtube" := "youtube",
    "youtubeMusic" := "youtube",
    "deezer" := "deezer",
    "amazonMusic" := "amazonMusic",
    "tidal" := "tidal"
  ]

  /** `platformMap[platform] || platform`: YouTube Music is filed as YouTube, the six
      platforms of the table as themselves, anything else under its own name. */
  function MapPlatform(platform: string): string {
    if platform in PlatformMap && PlatformMap[platform] != "" then PlatformMap[platform] else platform
  }

  /** Only YouTube Music is renamed, and so the only two source keys that can land on
      the same output key are "youtube" and "youtubeMusic". */
  lemma MapPlatformMergesOnlyYoutube(p: string, q: string)
    ensures MapPlatform(p) != p <==> p == "youtubeMusic"
    ensures MapPlatform(p) == MapPlatform(q) && p != q ==>
      (p == "youtube" && q == "youtubeMusic") || (p == "youtubeMusic" && q == "youtube")
  {
  }

  /** The platform allow-list and the table agree: a scanned name is mapped to a platform
      the allow-list accepts exactly when the table knows it; any other name is kept as
      it is and refused. */
  lemma MappedPlatformAllowed(p: string)
    ensures LinkValidators.PlatformErrors(MapPlatform(p)) == [] <==> p in PlatformMap
  {
    forall q | q in LinkValidators.SupportedPlatforms ensures q in PlatformMap && PlatformMap[q] == q {
    }
  }

  /** The `links` object after the `forEach` has visited `entries` in order: each entry
      writes its url under its mapped key, over whatever an earlier entry wrote there. */
  function LinksAfter(entries: seq<PlatformLink>): map<string, string> {
    if entries == [] then map[]
    else
      var last := entries[|entries| - 1];
      LinksAfter(entries[..|entries| - 1])[MapPlatform(last.platform) := last.url]
  }

  /** The `forEach` over `Object.entries(linksByPlatform)`. */
  method CollectLinks(entries: seq<PlatformLink>) returns (links: map<string, string>)
    ensures links == LinksAfter(entries)
    ensures links.Keys == set e | e in entries :: MapPlatform(e.platform)
  {
    links := map[];
    var i := 0;
    while i < |entries|
      invariant 0 <= i <= |entries|
      invariant links == LinksAfter(entries[..i])
    {
      assert entries[..i + 1][..i] == entries[..i];
      links := links[MapPlatform(entries[i].platform) := entries[i].url];
      i := i + 1;
    }
    assert entries[..i] == entries;
    LinksAfterKeys(entries);
  }

  /** The output keys are exactly the mapped source keys. */
  lemma {:induction false} LinksAfterKeys(entries: seq<PlatformLink>)
    ensures LinksAfter(entries).Keys == set e | e in entries :: MapPlatform(e.platform)
  {
    if entries != [] {
      var init := entries[..|entries| - 1];
      LinksAfterKeys(init);
      assert entries == init + [entries[|entries| - 1]];
      assert forall e :: e in entries <==> e in init || e == entries[|entries| - 1];
    }
  }

  /** Every source url appears under its mapped key, unless a later entry maps to the
      same key, in which case the later one wins. */
  lemma {:induction false} LastWriteWins(entries: seq<PlatformLink>, i: nat)
    requires i < |entries|
    requires forall j | i < j < |entries| :: MapPlatform(entries[j].platform) != MapPlatform(entries[i].platform)
    ensures MapPlatform(entries[i].platform) in LinksAfter(entries)
    ensures LinksAfter(entries)[MapPlatform(entries[i].platform)] == entries[i].url
  {
    if i < |entries| - 1 {
      var init := entries[..|entries| - 1];
      assert forall j | i < j < |init| :: init[j] == entries[j];
      LastWriteWins(init, i);
    }
  }

  /** Every url in the output is the url of the last entry that maps to its key. */
  lemma {:induction false} LinksComeFromLastEntry(entries: seq<PlatformLink>, k: string)
    requires k in LinksAfter(entries)
    ensures exists i | 0 <= i < |entries| ::
      && MapPlatform(entries[i].platform) == k
      && LinksAfter(entries)[k] == entries[i].url
      && forall j | i < j < |entries| :: MapPlatform(entries[j].platform) != k
  {
    var n := |entries| - 1;
    if MapPlatform(entries[n].platform) == k {
      assert MapPlatform(entries[n].platform) == k && LinksAfter(entries)[k] == entries[n].url;
    } else {
      var init := entries[..n];
      LinksComeFromLastEntry(init, k);
      var i :| 0 <= i < |init| && MapPlatform(init[i].platform) == k && LinksAfter(init)[k] == init[i].url
        && forall j | i < j < |init| :: MapPlatform(init[j].platform) != k;
      assert entries[i] == init[i];
      assert forall j | i < j < |entries| :: MapPlatform(entries[j].platform) != k by {
        forall j | i < j < |entries| ensures MapPlatform(entries[j].platform) != k {
          if j < n { assert entries[j] == init[j]; }
        }
      }
    }
  }

  /** A lookup answering with both a YouTube and a YouTube Music link reports the one
      listed later under "youtube". */
  lemma YoutubeMusicOverridesEarlierYoutube(video: string, music: string)
    ensures LinksAfter([PlatformLink("youtube", video), PlatformLink("youtubeMusic", music)]) == map["youtube" := music]
    ensures LinksAfter([PlatformLink("youtubeMusic", music), PlatformLink("youtube", video)]) == map["youtube" := video]
  {
    var a := [PlatformLink("youtube", video), PlatformLink("youtubeMusic", music)];
    var b := [PlatformLink("youtubeMusic", music), PlatformLink("youtube", video)];
    assert MapPlatform("youtube") == "youtube" && MapPlatform("youtubeMusic") == "youtube";
    assert a[..1] == [a[0]] && [a[0]][..0] == [];
    assert LinksAfter(a[..1]) == map["youtube" := video];
    assert b[..1] == [b[0]] && [b[0]][..0] == [];
    assert LinksAfter(b[..1]) == map["youtube" := music];
  }

  // ---------------------------------------------------------------------------
  // The route

  /** The reply for a decoded answer: 404 without a song, otherwise the song's names and
      cover with the collected links. */
  function Respond(data: LookupData): ScanReply {
    match FirstSong(data.entitiesByUniqueId.GetOr([]))
    case None => SongNotFound
    case Some(song) =>
      Scanned(song.artistName, song.title, song.thumbnailUrl, LinksAfter(data.linksByPlatform.GetOr([])))
  }

  /** The reply of `POST /scan` for the body's `url`. */
  function ScanOutcome(url: string, isUrl: string -> bool, lookup: Query -> Upstream): ScanReply {
    if !isUrl(url) then InvalidData
    else
      match lookup(QueryFor(url))
      case Answered(data) => Respond(data)
      case Failed(status) => if status == Some(404) then SongNotFound else ScanFailed
  }

  method Scan(url: string, isUrl: string -> bool, lookup: Query -> Upstream) returns (reply: ScanReply)
    ensures reply == ScanOutcome(url, isUrl, lookup)
  {
    if !isUrl(url) {
      return InvalidData;
    }
    var upstream := lookup(QueryFor(url));
    if upstream.Failed? {
      if upstream.responseStatus == Some(404) {
        return SongNotFound;
      }
      return ScanFailed;
    }
    var data := upstream.data;
    var entities := data.entitiesByUniqueId.GetOr([]);
    var song := FirstSong(entities);
    if song.None? {
      return SongNotFound;
    }
    var links := CollectLinks(data.linksByPlatform.GetOr([]));
    reply := Scanned(song.value.artistName, song.value.title, song.value.thumbnailUrl, links);
  }

  /** A URL the validator refuses is answered 400 whatever the lookup service would
      have said: the service is not consulted. */
  lemma InvalidUrlSkipsLookup(url: string, isUrl: string -> bool, lookup: Query -> Upstream, other: Query -> Upstream)
    requires !isUrl(url)
    ensures ScanOutcome(url, isUrl, lookup) == InvalidData
    ensures ScanOutcome(url, isUrl, lookup) == ScanOutcome(url, isUrl, other)
  {
  }

  /** The route answers 200, 400, 404 or 500; 400 exactly for a refused URL; 500 exactly
      for a failure whose response was not a 404. */
  lemma ScanOutcomes(url: string, isUrl: string -> bool, lookup: Query -> Upstream)
    ensures ScanOutcome(url, isUrl, lookup).Status() in {200, 400, 404, 500}
    ensures ScanOutcome(url, isUrl, lookup) == InvalidData <==> !isUrl(url)
    ensures ScanOutcome(url, isUrl, lookup) == ScanFailed <==>
      isUrl(url) && lookup(QueryFor(url)).Failed? && lookup(QueryFor(url)).responseStatus != Some(404)
  {
  }

  /** A 404 comes from an answer without a song, or from a failed response whose status
      was 404. */
  lemma ScanNotFound(url: string, isUrl: string -> bool, lookup: Query -> Upstream)
    ensures ScanOutcome(url, isUrl, lookup) == SongNotFound <==>
      isUrl(url) &&
      match lookup(QueryFor(url))
      case Failed(status) => status == Some(404)
      case Answered(data) => forall e | e in data.entitiesByUniqueId.GetOr([]) :: !IsSong(e)
  {
    if isUrl(url) && lookup(QueryFor(url)).Answered? {
      var entities := lookup(QueryFor(url)).data.entitiesByUniqueId.GetOr([]);
      assert (forall e | e in entities :: !IsSong(e)) <==> (forall j | 0 <= j < |entities| :: !IsSong(entities[j]));
    }
  }

  /** A 200 reports the first song's artist name, title and thumbnail, and links whose
      keys are exactly the mapped platform names of the answer. */
  lemma ScanReportsFirstSong(url: string, isUrl: string -> bool, lookup: Query -> Upstream)
    requires ScanOutcome(url, isUrl, lookup).Scanned?
    ensures isUrl(url) && lookup(QueryFor(url)).Answered?
    ensures var data := lookup(QueryFor(url)).data;
      var entities := data.entitiesByUniqueId.GetOr([]);
      var r := ScanOutcome(url, isUrl, lookup);
      exists i | 0 <= i < |entities| ::
        && IsSong(entities[i])
        && (forall j | 0 <= j < i :: !IsSong(entities[j]))
        && r.artist == entities[i].artistName
        && r.title == entities[i].title
        && r.thumbnailUrl == entities[i].thumbnailUrl
    ensures ScanOutcome(url, isUrl, lookup).links.Keys ==
      set e | e in lookup(QueryFor(url)).data.linksByPlatform.GetOr([]) :: MapPlatform(e.platform)
  {
    var data := lookup(QueryFor(url)).data;
    var i := FirstSongIndex(data.entitiesByUniqueId.GetOr([])).value;
    LinksAfterKeys(data.linksByPlatform.GetOr([]));
  }
}
