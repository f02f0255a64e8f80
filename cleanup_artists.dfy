/** The clean-up of one stored artist document: a fixed set of Spotify fields with
    defaults, the MusicBrainz details when present, release counts from MusicBrainz or
    else Spotify, albums and singles sorted newest first, one image, and the update
    stamp. Nothing else of the input survives. */
module Cleanup {
  import opened Common
  import opened Sorting

  type Doc = map<string, Json>

  /** `d.get(k, default)`. */
  function GetOr(d: Doc, k: string, default: Json): (r: Json)
    ensures k in d ==> r == d[k]
    ensures k !in d ==> r == default
  {
    if k in d then d[k] else default
  }

  /** `k in d and d[k]`. */
  predicate Has(d: Doc, k: string) { k in d && Truthy(d[k]) }

  /** The key `sorted` orders releases by: `x.get("release_date", "")`. */
  function ReleaseDate(x: Json): string
  {
    if x.JObj? && "release_date" in x.fields && x.fields["release_date"].JStr? then x.fields["release_date"].s else ""
  }

  /** A release list `sorted` can order: a list of objects, whose release dates are
      strings wherever two of them get compared. */
  predicate Sortable(j: Json)
  {
    j.JArr?
    && (forall i :: 0 <= i < |j.items| ==> j.items[i].JObj?)
    && (|j.items| >= 2 ==> forall i :: 0 <= i < |j.items| && "release_date" in j.items[i].fields
                                      ==> j.items[i].fields["release_date"].JStr?)
  }

  /** The shape `cleanup_artist` reads without raising. */
  predicate WellFormed(d: Doc)
  {
    "_id" in d && "spotify_id" in d && "name" in d && "genres" in d
    && (Has(d, "musicbrainz_info") ==> d["musicbrainz_info"].JObj?)
    && (Has(d, "albums") ==> Sortable(d["albums"]))
    && (Has(d, "singles") ==> Sortable(d["singles"]))
    && (Has(d, "spotify_images") ==> d["spotify_images"].JArr? || d["spotify_images"].JStr?)
  }

  /** `images[0]`, for a non-empty list or string. */
  function First(j: Json): Json
    requires (j.JArr? && j.items != []) || (j.JStr? && j.s != "")
  {
    if j.JArr? then j.items[0] else JStr([j.s[0]])
  }

  /** `d[k]` when it is present and truthy. */
  function IfHas(d: Doc, k: string): (r: Option<Json>)
    ensures r.Some? <==> Has(d, k)
    ensures r.Some? ==> r.value == d[k]
  {
    if Has(d, k) then Some(d[k]) else None
  }

  /** The identity fields taken from a truthy `musicbrainz_info`. */
  datatype MbDetails = MbDetails(mbid: Json, disambiguation: Json, country: Json, kind: Json)

  /** The clean document: one field per key it can hold, `None` for a key it lacks.
      No other key of the input survives. */
  datatype CleanArtist = CleanArtist(
    id: Json, spotifyId: Json, name: Json, genres: Json,
    spotifyPopularity: Json, spotifyFollowers: Json, spotifyUri: Json, externalUrls: Json,
    musicBrainz: Option<MbDetails>, lifeSpan: Option<Json>, releaseCounts: Option<Json>,
    albums: Option<seq<Json>>, singles: Option<seq<Json>>,
    compilations: Option<Json>, topTracks: Option<Json>, imageUri: Option<Json>,
    lastUpdated: Json)

  /** The MusicBrainz record, when `musicbrainz_info` is truthy. */
  function MbInfo(d: Doc): (r: Option<Doc>)
    requires WellFormed(d)
    ensures r.Some? <==> Has(d, "musicbrainz_info")
  {
    if Has(d, "musicbrainz_info") then Some(d["musicbrainz_info"].fields) else None
  }

  /** `sorted(d[k], key=..., reverse=True)` when `d[k]` is truthy. */
  function SortedIfHas(d: Doc, k: string): (r: Option<seq<Json>>)
    requires Has(d, k) ==> Sortable(d[k])
    ensures r.Some? <==> Has(d, k)
  {
    if Has(d, k) then Some(SortBy(d[k].items, ReleaseDate, true)) else None
  }

  /** `cleanup_artist`, run at UTC time `now` (already formatted as `%Y-%m-%d %H:%M:%S`). */
  function CleanupArtist(d: Doc, now: string): (r: CleanArtist)
    requires WellFormed(d)
    ensures r.musicBrainz.Some? <==> Has(d, "musicbrainz_info")
    ensures r.albums.Some? <==> Has(d, "albums")
    ensures r.singles.Some? <==> Has(d, "singles")
  {
    var mb := MbInfo(d);
    var mbCounts := if mb.Some? then IfHas(mb.value, "release_counts") else None;
    CleanArtist(
      d["_id"], d["spotify_id"], d["name"], d["genres"],
      GetOr(d, "spotify_popularity", JInt(0)), GetOr(d, "spotify_followers", JInt(0)),
      GetOr(d, "spotify_uri", JStr("")), GetOr(d, "external_urls", JObj(map[])),
      if mb.Some? then Some(MbDetails(GetOr(mb.value, "id", JNull), GetOr(mb.value, "disambiguation", JNull),
                                      GetOr(mb.value, "country", JNull), GetOr(mb.value, "type", JNull)))
      else None,
      if mb.Some? then IfHas(mb.value, "life_span") else None,
      if mbCounts.Some? then mbCounts else if "album_counts" in d then Some(d["album_counts"]) else None,
      SortedIfHas(d, "albums"), SortedIfHas(d, "singles"),
      IfHas(d, "compilations"), IfHas(d, "top_tracks"),
      if Has(d, "spotify_images") then Some(First(d["spotify_images"])) else None,
      if "last_updated" in d then d["last_updated"] else JStr(now))
  }

  /** Whether MusicBrainz supplies non-empty release counts. */
  predicate MbCounts(d: Doc)
    requires WellFormed(d)
  {
    Has(d, "musicbrainz_info") && Has(d["musicbrainz_info"].fields, "release_counts")
  }

  /** The always-present fields: the four identity fields copied, the Spotify numbers,
      URI and links defaulted, and the update stamp kept or else set to `now`. */
  lemma CleanupBaseFields(d: Doc, now: string)
    requires WellFormed(d)
    ensures var r := CleanupArtist(d, now);
      r.id == d["_id"] && r.spotifyId == d["spotify_id"] && r.name == d["name"] && r.genres == d["genres"]
      && r.spotifyPopularity == (if "spotify_popularity" in d then d["spotify_popularity"] else JInt(0))
      && r.spotifyFollowers == (if "spotify_followers" in d then d["spotify_followers"] else JInt(0))
      && r.spotifyUri == (if "spotify_uri" in d then d["spotify_uri"] else JStr(""))
      && r.externalUrls == (if "external_urls" in d then d["external_urls"] else JObj(map[]))
      && r.lastUpdated == (if "last_updated" in d then d["last_updated"] else JStr(now))
  {
  }

  /** The MusicBrainz fields are set exactly when `musicbrainz_info` is truthy, each
      `None` when the record lacks it; the life span only when it is non-empty. */
  lemma CleanupMusicBrainz(d: Doc, now: string)
    requires WellFormed(d)
    ensures var r := CleanupArtist(d, now);
      (r.musicBrainz.Some? <==> Has(d, "musicbrainz_info"))
      && (r.lifeSpan.Some? <==> Has(d, "musicbrainz_info") && Has(d["musicbrainz_info"].fields, "life_span"))
      && (Has(d, "musicbrainz_info") ==>
            var mb := d["musicbrainz_info"].fields;
            r.musicBrainz.value == MbDetails(GetOr(mb, "id", JNull), GetOr(mb, "disambiguation", JNull),
                                             GetOr(mb, "country", JNull), GetOr(mb, "type", JNull))
            && (Has(mb, "life_span") ==> r.lifeSpan == Some(mb["life_span"])))
  {
  }

  /** Release counts come from MusicBrainz when it has non-empty ones, else from
      Spotify's `album_counts` when present, else they are absent. */
  lemma CleanupReleaseCounts(d: Doc, now: string)
    requires WellFormed(d)
    ensures var r := CleanupArtist(d, now);
      (MbCounts(d) ==> r.releaseCounts == Some(d["musicbrainz_info"].fields["release_counts"]))
      && (!MbCounts(d) && "album_counts" in d ==> r.releaseCounts == Some(d["album_counts"]))
      && (r.releaseCounts.None? <==> !MbCounts(d) && "album_counts" !in d)
  {
  }

  /** Albums and singles are reordered newest first, ties in input order, and keep
      every element. */
  lemma CleanupReleases(d: Doc, now: string, key: string)
    requires WellFormed(d) && key in {"albums", "singles"} && Has(d, key)
    ensures var r := CleanupArtist(d, now);
      var out := if key == "albums" then r.albums.value else r.singles.value;
      multiset(out) == multiset(d[key].items)
      && Sorted(out, ReleaseDate, true)
      && forall k :: KeyFilter(out, ReleaseDate, k) == KeyFilter(d[key].items, ReleaseDate, k)
  {
    var xs := d[key].items;
    SortByPermutes(xs, ReleaseDate, true);
    SortBySorted(xs, ReleaseDate, true);
    forall k {
      SortByStable(xs, ReleaseDate, true, k);
    }
  }

  /** Compilations and top tracks are copied unchanged when non-empty, and the image is
      the first of the Spotify images. */
  lemma CleanupCopies(d: Doc, now: string)
    requires WellFormed(d)
    ensures var r := CleanupArtist(d, now);
      (r.compilations.Some? <==> Has(d, "compilations")) && (Has(d, "compilations") ==> r.compilations.value == d["compilations"])
      && (r.topTracks.Some? <==> Has(d, "top_tracks")) && (Has(d, "top_tracks") ==> r.topTracks.value == d["top_tracks"])
      && (r.imageUri.Some? <==> Has(d, "spotify_images"))
      && (Has(d, "spotify_images") && d["spotify_images"].JArr? ==> r.imageUri == Some(d["spotify_images"].items[0]))
  {
  }
}
