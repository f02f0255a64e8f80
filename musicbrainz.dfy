/** The MusicBrainz client: a rate-limited request log, the query parameters every
    search, lookup and browse call sends, release-group pagination, the release
    timeline, the release-type tallies, similar-artist selection and the front cover
    lookup. The web service is replaced by its answers, passed in as parameters, and
    the clock by a function from the request number to the time the caller reaches it. */
module MusicBrainz {
  import opened Common
  import opened Models
  import opened Timeline

  datatype Host = MusicBrainzApi | CoverArtArchive

  /** One request that left the client: where it went, what it asked, and when. */
  datatype Request = Request(host: Host, endpoint: string, params: map<string, Param>, at: real)

  /** The largest page the web service serves. */
  const PageLimit := 100

  // ---------------------------------------------------------------------------
  // Rate limiting

  /** How long `_respect_rate_limit` sleeps when called at `now`. */
  function Wait(last: Option<real>, rateLimit: real, now: real): (r: real)
    ensures r >= 0.0
    ensures last.None? ==> r == 0.0
    ensures last.Some? ==> now + r >= last.value + rateLimit
    ensures r > 0.0 ==> last.Some? && now + r == last.value + rateLimit
  {
    if last.Some? && now - last.value < rateLimit then rateLimit - (now - last.value) else 0.0
  }

  // ---------------------------------------------------------------------------
  // Query parameters

  /** The `fmt` default `_make_request` adds: every key the caller gave is kept as
      given, and `fmt` is `json` unless the caller chose one. */
  function WithFormat(params: map<string, Param>): (r: map<string, Param>)
    ensures r.Keys == params.Keys + {"fmt"}
    ensures forall k :: k in params ==> r[k] == params[k]
    ensures "fmt" !in params ==> r["fmt"] == PStr("json")
  {
    if "fmt" in params then params else params["fmt" := PStr("json")]
  }

  /** `min(limit, 100)`. */
  function ClampLimit(limit: int): (r: int)
    ensures r <= PageLimit && r <= limit
    ensures r == limit || r == PageLimit
  {
    Min(limit, PageLimit)
  }

  /** The parameters of every `search_*` call: the query, the clamped limit, the offset,
      each optional filter that is given, and `strict` when asked for. The filters are
      `artistid` for release groups and releases, `arid` for recordings, and `reid` for
      the release group of a release and the release of a recording. */
  function SearchParams(query: string, limit: int, offset: int, strict: bool, filters: map<string, Option<string>>)
    : (r: map<string, Param>)
    requires forall k :: k in filters ==> k !in {"query", "limit", "offset", "strict"}
    ensures r.Keys == {"query", "limit", "offset"} + (set k | k in filters && Given(filters[k]))
                      + (if strict then {"strict"} else {})
    ensures r["query"] == PStr(query) && r["limit"] == PInt(ClampLimit(limit)) && r["offset"] == PInt(offset)
    ensures forall k :: k in filters && Given(filters[k]) ==> r[k] == PStr(filters[k].value)
    ensures strict ==> r["strict"] == PStr("true")
  {
    var base := map["query" := PStr(query), "limit" := PInt(ClampLimit(limit)), "offset" := PInt(offset)];
    var withFilters := base + map k | k in filters && Given(filters[k]) :: PStr(filters[k].value);
    if strict then withFilters["strict" := PStr("true")] else withFilters
  }

  /** `search_artists`: no filter. */
  function SearchArtistsParams(query: string, limit: int, offset: int, strict: bool): (r: map<string, Param>)
    ensures r.Keys == {"query", "limit", "offset"} + (if strict then {"strict"} else {})
  {
    SearchParams(query, limit, offset, strict, map[])
  }

  function SearchReleaseGroupsParams(query: string, limit: int, offset: int, artistId: Option<string>, strict: bool)
    : (r: map<string, Param>)
    ensures "artistid" in r <==> Given(artistId)
    ensures "reid" !in r && "arid" !in r
  {
    SearchParams(query, limit, offset, strict, map["artistid" := artistId])
  }

  function SearchReleasesParams(query: string, limit: int, offset: int, artistId: Option<string>,
                                releaseGroupId: Option<string>, strict: bool): (r: map<string, Param>)
    ensures "artistid" in r <==> Given(artistId)
    ensures "reid" in r <==> Given(releaseGroupId)
    ensures Given(releaseGroupId) ==> r["reid"] == PStr(releaseGroupId.value)
  {
    SearchParams(query, limit, offset, strict, map["artistid" := artistId, "reid" := releaseGroupId])
  }

  function SearchRecordingsParams(query: string, limit: int, offset: int, artistId: Option<string>,
                                  releaseId: Option<string>, strict: bool): (r: map<string, Param>)
    ensures "arid" in r <==> Given(artistId)
    ensures "artistid" !in r
    ensures "reid" in r <==> Given(releaseId)
  {
    SearchParams(query, limit, offset, strict, map["arid" := artistId, "reid" := releaseId])
  }

  /** The parameters of every `get_*` lookup: only `inc`, the includes joined by "+". */
  function LookupParams(includes: seq<string>): (r: map<string, Param>)
  {
    JoinedParam("inc", includes, "+")
  }

  /** The parameters of the `browse_*` calls: the browsed entity, the clamped limit and
      the offset, then release types and statuses joined by "|" and includes by "+",
      each only when non-empty. */
  function BrowseParams(entity: string, id: string, types: seq<string>, statuses: seq<string>,
                        includes: seq<string>, limit: int, offset: int): (r: map<string, Param>)
    requires entity !in {"limit", "offset", "type", "status", "inc"}
    ensures r.Keys == {entity, "limit", "offset"} + (if types == [] then {} else {"type"})
                      + (if statuses == [] then {} else {"status"}) + (if includes == [] then {} else {"inc"})
    ensures r[entity] == PStr(id) && r["limit"] == PInt(ClampLimit(limit)) && r["offset"] == PInt(offset)
    ensures types != [] ==> r["type"] == PStr(Join(types, "|"))
    ensures statuses != [] ==> r["status"] == PStr(Join(statuses, "|"))
    ensures includes != [] ==> r["inc"] == PStr(Join(includes, "+"))
  {
    map[entity := PStr(id), "limit" := PInt(ClampLimit(limit)), "offset" := PInt(offset)]
      + JoinedParam("type", types, "|") + JoinedParam("status", statuses, "|") + JoinedParam("inc", includes, "+")
  }

  /** `browse_artist_release_groups`: no status filter. */
  function BrowseReleaseGroupsParams(artistId: string, types: seq<string>, includes: seq<string>, limit: int, offset: int)
    : (r: map<string, Param>)
    ensures "status" !in r && "artist" in r && r["artist"] == PStr(artistId)
    ensures "type" in r <==> types != []
  {
    BrowseParams("artist", artistId, types, [], includes, limit, offset)
  }

  /** `browse_release_recordings`: neither type nor status. */
  function BrowseRecordingsParams(releaseId: string, includes: seq<string>, limit: int, offset: int)
    : (r: map<string, Param>)
    ensures r.Keys == {"release", "limit", "offset"} + (if includes == [] then {} else {"inc"})
  {
    BrowseParams("release", releaseId, [], [], includes, limit, offset)
  }

  // ---------------------------------------------------------------------------
  // Failures

  /** Why a call to the web service failed: the request itself failed, and
      `_make_request` raised "API request failed: ..." with the reason, or the answer
      did not validate against its model, and the validation error's text is raised. */
  datatype Failure = RequestFailed(reason: string) | Invalid(reason: string)

  function FailureText(f: Failure): string
  {
    match f
    case RequestFailed(reason) => "API request failed: " + reason
    case Invalid(reason) => reason
  }

  /** The `except Exception as e: raise MusicBrainzError(f"{prefix}{e}")` every client call
      wraps its request and validation in. */
  function Wrapped<T>(prefix: string, r: Result<T, Failure>): (w: Result<T, string>)
    ensures w.Ok? <==> r.Ok?
    ensures r.Ok? ==> w.value == r.value
    ensures r.Err? ==> w.error == prefix + FailureText(r.error)
  {
    if r.Ok? then Ok(r.value) else Err(prefix + FailureText(r.error))
  }

  const ArtistSearchFailed := "Artist search failed: "
  const GetArtistFailed := "Failed to get artist: "
  const ReleaseGroupSearchFailed := "Release group search failed: "
  const ReleaseSearchFailed := "Release search failed: "
  const RecordingSearchFailed := "Recording search failed: "
  const BrowseReleaseGroupsFailed := "Failed to browse artist release groups: "

  // ---------------------------------------------------------------------------
  // Pagination: `limit=100`, offsets 0, 100, 200, ..., stop at the first short page

  /** An answer that ends the paging loop: a browse that raised, or fewer than 100 groups. */
  predicate Ends<T>(page: Result<seq<T>, Failure>)
  {
    page.Err? || |page.value| < PageLimit
  }

  /** The groups a page holds; a failed page holds none. */
  function Items<T>(page: Result<seq<T>, Failure>): seq<T>
  {
    if page.Ok? then page.value else []
  }

  /** What the paging loop yields from page `k` on, given that page `stop` ends it: the
      groups of every page up to the first short one, or the browse error of the first
      page that fails. */
  function Collected<T>(pages: nat -> Result<seq<T>, Failure>, k: nat, stop: nat): Result<seq<T>, string>
    requires k <= stop && Ends(pages(100 * stop))
    decreases stop - k
  {
    var page := pages(100 * k);
    if Ends(page) then Wrapped(BrowseReleaseGroupsFailed, page)
    else Prepend(page.value, Collected(pages, k + 1, stop))
  }

  /** The number of page requests made from page `k` on. */
  function PageRequests<T>(pages: nat -> Result<seq<T>, Failure>, k: nat, stop: nat): (n: nat)
    requires k <= stop && Ends(pages(100 * stop))
    ensures 1 <= n <= stop - k + 1
    decreases stop - k
  {
    if Ends(pages(100 * k)) then 1 else 1 + PageRequests(pages, k + 1, stop)
  }

  /** The first page from `k` on that ends the loop. */
  function FirstEnd<T>(pages: nat -> Result<seq<T>, Failure>, k: nat, stop: nat): (e: nat)
    requires k <= stop && Ends(pages(100 * stop))
    ensures k <= e <= stop && Ends(pages(100 * e))
    ensures forall j: nat :: k <= j < e ==> !Ends(pages(100 * j))
    decreases stop - k
  {
    if Ends(pages(100 * k)) then k else FirstEnd(pages, k + 1, stop)
  }

  /** Pages 0 to k-1 in order. */
  function PagesBefore<T>(pages: nat -> Result<seq<T>, Failure>, k: nat): seq<T>
  {
    if k == 0 then [] else PagesBefore(pages, k - 1) + Items(pages(100 * (k - 1)))
  }

  /** Pages 0 to k-1 all came back full. */
  predicate FullBefore<T>(pages: nat -> Result<seq<T>, Failure>, k: nat)
  {
    forall j: nat :: j < k ==> !Ends(pages(100 * j))
  }

  /** The loop has fetched the full pages 0 to k-1, whose groups are `all`. */
  ghost predicate Paged<T>(pages: nat -> Result<seq<T>, Failure>, k: nat, all: seq<T>)
  {
    all == PagesBefore(pages, k) && FullBefore(pages, k)
  }

  /** Page k is the first page that ends the loop. */
  predicate StopsAt<T>(pages: nat -> Result<seq<T>, Failure>, k: nat)
  {
    FullBefore(pages, k) && Ends(pages(100 * k))
  }

  /** How the loop ends when page k is the first to end it: the groups of pages 0 to k, or
      the browse error of page k. */
  function Outcome<T>(pages: nat -> Result<seq<T>, Failure>, k: nat): Result<seq<T>, string>
  {
    Finish(PagesBefore(pages, k), pages(100 * k))
  }

  /** The last round of the loop: the groups fetched so far extended by the last page, or
      the browse error of that page. */
  function Finish<T>(before: seq<T>, page: Result<seq<T>, Failure>): Result<seq<T>, string>
  {
    Prepend(before, Wrapped(BrowseReleaseGroupsFailed, page))
  }

  /** After full pages 0 to k-1, a page k that ends the loop decides its outcome, and the
      loop has made k+1 requests. */
  lemma {:induction false} CollectedAfter<T>(pages: nat -> Result<seq<T>, Failure>, k: nat, stop: nat)
    requires k <= stop && Ends(pages(100 * stop))
    requires StopsAt(pages, k)
    ensures Collected(pages, 0, stop) == Outcome(pages, k)
    ensures PageRequests(pages, 0, stop) == k + 1
  {
    CollectedSplit(pages, k, stop);
  }

  /** The loop stops at the first page that fails or comes back short: a failure there is
      the loop's error, every earlier page was full, and the result is otherwise every
      group of the pages up to that one. */
  lemma CollectedFirstEnd<T>(pages: nat -> Result<seq<T>, Failure>, stop: nat)
    requires Ends(pages(100 * stop))
    ensures var e := FirstEnd(pages, 0, stop);
      Collected(pages, 0, stop) == Outcome(pages, e) && PageRequests(pages, 0, stop) == e + 1
    ensures var e := FirstEnd(pages, 0, stop);
      Collected(pages, 0, stop).Err? <==> pages(100 * e).Err?
  {
    CollectedAfter(pages, FirstEnd(pages, 0, stop), stop);
  }

  /** A page that fails after full pages makes the loop raise the browse error of that page. */
  lemma CollectedFails<T>(pages: nat -> Result<seq<T>, Failure>, j: nat, stop: nat)
    requires Ends(pages(100 * stop))
    requires FullBefore(pages, j) && pages(100 * j).Err?
    ensures Collected(pages, 0, stop) == Err(BrowseReleaseGroupsFailed + FailureText(pages(100 * j).error))
  {
    var last: nat := 100 * stop;
    assert stop < j ==> !Ends(pages(last));
    CollectedAfter(pages, j, stop);
  }

  /** A full page at the k-th offset extends what has been fetched. */
  lemma PagingStep<T>(pages: nat -> Result<seq<T>, Failure>, k: nat, stop: nat, all: seq<T>)
    requires k <= stop && Ends(pages(100 * stop))
    requires Paged(pages, k, all) && !Ends(pages(100 * k))
    ensures k < stop
    ensures Paged(pages, k + 1, all + pages(100 * k).value)
  {
  }

  /** One round of the paging loop at the k-th offset: a page that ends the loop decides
      its outcome, and any other adds its groups to those before it. */
  lemma PagingRound<T>(pages: nat -> Result<seq<T>, Failure>, k: nat, stop: nat, all: seq<T>)
    requires k <= stop && Ends(pages(100 * stop))
    requires Paged(pages, k, all)
    ensures Ends(pages(100 * k)) ==> StopsAt(pages, k) && Finish(all, pages(100 * k)) == Outcome(pages, k)
    ensures !Ends(pages(100 * k)) ==> k < stop && Paged(pages, k + 1, all + pages(100 * k).value)
  {
    if Ends(pages(100 * k)) {
      PagingEnd(pages, k, all);
    } else {
      PagingStep(pages, k, stop, all);
    }
  }

  /** A page at the k-th offset that ends the loop after full pages decides its outcome. */
  lemma PagingEnd<T>(pages: nat -> Result<seq<T>, Failure>, k: nat, all: seq<T>)
    requires Paged(pages, k, all) && Ends(pages(100 * k))
    ensures StopsAt(pages, k)
    ensures Finish(all, pages(100 * k)) == Outcome(pages, k)
  {
  }

  lemma {:induction false} CollectedSplit<T>(pages: nat -> Result<seq<T>, Failure>, k: nat, stop: nat)
    requires k <= stop && Ends(pages(100 * stop))
    requires FullBefore(pages, k)
    ensures Collected(pages, 0, stop) == Prepend(PagesBefore(pages, k), Collected(pages, k, stop))
    ensures PageRequests(pages, 0, stop) == k + PageRequests(pages, k, stop)
  {
    if k > 0 {
      CollectedSplit(pages, k - 1, stop);
      assert !Ends(pages(100 * (k - 1)));
      PrependTwice(PagesBefore(pages, k - 1), pages(100 * (k - 1)).value, Collected(pages, k, stop));
    } else {
      var r := Collected(pages, 0, stop);
      if r.Ok? {
        assert PagesBefore(pages, 0) + r.value == r.value;
      }
    }
  }

  /** A service holding `catalog` serves `catalog[offset..offset+100]` for each offset. */
  ghost predicate ServesCatalog<T>(pages: nat -> Result<seq<T>, Failure>, catalog: seq<T>)
  {
    forall offset: nat :: pages(offset) == Ok(catalog[Min(offset, |catalog|)..Min(offset + PageLimit, |catalog|)])
  }

  /** Against a service holding `catalog`, pagination returns the catalog in order, and
      makes floor(n/100)+1 requests, the last one for an empty page when 100 divides n. */
  lemma {:induction false} CollectedCatalog<T>(pages: nat -> Result<seq<T>, Failure>, catalog: seq<T>, k: nat)
    requires ServesCatalog(pages, catalog)
    requires 100 * k <= |catalog|
    ensures Ends(pages(100 * (|catalog| / PageLimit)))
    ensures k <= |catalog| / PageLimit
    ensures Collected(pages, k, |catalog| / PageLimit) == Ok(catalog[100 * k..])
    ensures PageRequests(pages, k, |catalog| / PageLimit) == |catalog| / PageLimit - k + 1
    decreases |catalog| - 100 * k
  {
    var stop := |catalog| / PageLimit;
    assert 100 * stop <= |catalog| < 100 * stop + PageLimit;
    assert Min(100 * stop, |catalog|) == 100 * stop;
    assert Min(100 * stop + PageLimit, |catalog|) == |catalog|;
    assert pages(100 * stop) == Ok(catalog[100 * stop..|catalog|]);
    assert catalog[100 * stop..|catalog|] == catalog[100 * stop..];
    var page := pages(100 * k);
    if 100 * k + PageLimit <= |catalog| {
      assert Min(100 * k + PageLimit, |catalog|) == 100 * k + PageLimit;
      assert page == Ok(catalog[100 * k..100 * k + PageLimit]);
      CollectedCatalog(pages, catalog, k + 1);
      assert catalog[100 * k..] == page.value + catalog[100 * (k + 1)..];
    } else {
      assert k == stop;
    }
  }

  // ---------------------------------------------------------------------------
  // Release-type tallies of `get_artist_info`

  const TypeKeys: set<string> := {"album", "single", "ep", "compilation", "soundtrack", "live", "remix", "other", "total"}

  /** The bucket a release group's primary type lands in: its lower-cased primary type
      when that is a tally key, otherwise "other"; a missing primary type is "other". */
  function PrimaryBucket(g: MbReleaseGroup): (k: string)
    ensures k in TypeKeys
    ensures g.primaryType.None? || g.primaryType.value == "" ==> k == "other"
  {
    var p := Lower(OrElse(g.primaryType, "other"));
    if p in TypeKeys then p else "other"
  }

  function SecondaryTypes(g: MbReleaseGroup): seq<string>
  {
    if g.secondaryTypes.Some? then g.secondaryTypes.value else []
  }

  function Bump(m: map<string, int>, k: string): map<string, int>
    requires k in m
  {
    m[k := m[k] + 1]
  }

  /** The tallies after counting the secondary types `ts`: known keys only. */
  function AddSecondaries(m: map<string, int>, ts: seq<string>): (r: map<string, int>)
    requires TypeKeys <= m.Keys
    ensures r.Keys == m.Keys
  {
    if ts == [] then m
    else
      var prev := AddSecondaries(m, ts[..|ts| - 1]);
      var t := Lower(ts[|ts| - 1]);
      if t in TypeKeys then Bump(prev, t) else prev
  }

  function AddGroup(m: map<string, int>, g: MbReleaseGroup): (r: map<string, int>)
    requires TypeKeys <= m.Keys
    ensures r.Keys == m.Keys
  {
    AddSecondaries(Bump(Bump(m, "total"), PrimaryBucket(g)), SecondaryTypes(g))
  }

  function ZeroCounts(): (m: map<string, int>)
    ensures m.Keys == TypeKeys
  {
    map k | k in TypeKeys :: 0
  }

  /** The tallies `get_artist_info` reports for the release groups `gs`. */
  function TypeCounts(gs: seq<MbReleaseGroup>): (r: map<string, int>)
    ensures r.Keys == TypeKeys
  {
    if gs == [] then ZeroCounts() else AddGroup(TypeCounts(gs[..|gs| - 1]), gs[|gs| - 1])
  }

  /** How many of `gs` have their primary type counted under `k`. */
  function PrimaryCount(gs: seq<MbReleaseGroup>, k: string): nat
  {
    if gs == [] then 0 else PrimaryCount(gs[..|gs| - 1], k) + (if PrimaryBucket(gs[|gs| - 1]) == k then 1 else 0)
  }

  /** How many of the types `ts` lower-case to `k`. */
  function MatchCount(ts: seq<string>, k: string): nat
  {
    if ts == [] then 0 else MatchCount(ts[..|ts| - 1], k) + (if Lower(ts[|ts| - 1]) == k then 1 else 0)
  }

  /** How many secondary types of `gs`, duplicates included, lower-case to `k`. */
  function SecondaryCount(gs: seq<MbReleaseGroup>, k: string): nat
  {
    if gs == [] then 0 else SecondaryCount(gs[..|gs| - 1], k) + MatchCount(SecondaryTypes(gs[|gs| - 1]), k)
  }

  lemma {:induction false} AddSecondariesCount(m: map<string, int>, ts: seq<string>, k: string)
    requires TypeKeys <= m.Keys && k in TypeKeys
    ensures AddSecondaries(m, ts)[k] == m[k] + MatchCount(ts, k)
  {
    if ts != [] {
      AddSecondariesCount(m, ts[..|ts| - 1], k);
    }
  }

  /** Each tally is the number of groups whose primary type lands on it, plus the number
      of secondary types naming it, plus one per group for "total". */
  lemma {:induction false} TypeCountsMeaning(gs: seq<MbReleaseGroup>, k: string)
    requires k in TypeKeys
    ensures TypeCounts(gs)[k] == (if k == "total" then |gs| else 0) + PrimaryCount(gs, k) + SecondaryCount(gs, k)
  {
    if gs != [] {
      var init := gs[..|gs| - 1];
      var g := gs[|gs| - 1];
      TypeCountsMeaning(init, k);
      var m := Bump(Bump(TypeCounts(init), "total"), PrimaryBucket(g));
      AddSecondariesCount(m, SecondaryTypes(g), k);
    }
  }

  /** Every group lands in exactly one primary bucket: the primary counts add up to the
      number of groups. */
  lemma {:induction false} PrimaryCountsSum(gs: seq<MbReleaseGroup>)
    ensures PrimaryCount(gs, "album") + PrimaryCount(gs, "single") + PrimaryCount(gs, "ep")
          + PrimaryCount(gs, "compilation") + PrimaryCount(gs, "soundtrack") + PrimaryCount(gs, "live")
          + PrimaryCount(gs, "remix") + PrimaryCount(gs, "other") + PrimaryCount(gs, "total") == |gs|
  {
    if gs != [] {
      PrimaryCountsSum(gs[..|gs| - 1]);
    }
  }

  // ---------------------------------------------------------------------------
  // Similar artists

  predicate IsSimilarity(rel: MbRelation)
  {
    rel.relType in ["similar", "influenced by", "influence"] && rel.artist.Some? && rel.artist.value != map[]
  }

  /** The artist payloads of the similarity relations among `rels`, in relation order. */
  function SimilarOf(rels: seq<MbRelation>): (r: seq<map<string, Json>>)
    ensures |r| <= |rels|
  {
    if rels == [] then []
    else
      var rel := rels[|rels| - 1];
      SimilarOf(rels[..|rels| - 1]) + (if IsSimilarity(rel) then [rel.artist.value] else [])
  }

  lemma {:induction false} SimilarOfMembers(rels: seq<MbRelation>, a: map<string, Json>)
    ensures a in SimilarOf(rels) <==> exists i :: 0 <= i < |rels| && IsSimilarity(rels[i]) && rels[i].artist.value == a
  {
    if rels != [] {
      var init := rels[..|rels| - 1];
      SimilarOfMembers(init, a);
      if exists i :: 0 <= i < |rels| && IsSimilarity(rels[i]) && rels[i].artist.value == a {
        var i :| 0 <= i < |rels| && IsSimilarity(rels[i]) && rels[i].artist.value == a;
        if i < |init| { assert init[i] == rels[i]; }
      }
      if a in SimilarOf(init) {
        var i :| 0 <= i < |init| && IsSimilarity(init[i]) && init[i].artist.value == a;
        assert rels[i] == init[i];
      }
    }
  }

  /** The relations of an artist; none when the field is missing. */
  function RelationsOf(a: MbArtist): seq<MbRelation>
  {
    if a.relations.None? then [] else a.relations.value
  }

  /** The validation error a relation raises: only a similarity relation's artist payload
      is validated. */
  function InvalidSimilar(validate: map<string, Json> -> Result<MbArtist, string>): MbRelation -> Option<string>
  {
    (rel: MbRelation) => if IsSimilarity(rel) then ErrorOf(validate(rel.artist.value)) else None
  }

  /** The validated artist a relation contributes, if it is a similarity relation. */
  function ValidSimilar(validate: map<string, Json> -> Result<MbArtist, string>): MbRelation -> Option<MbArtist>
  {
    (rel: MbRelation) =>
      if IsSimilarity(rel) && validate(rel.artist.value).Ok? then Some(validate(rel.artist.value).value) else None
  }

  /** What `find_similar_artists` makes of the relations `rels`: the validated artists of
      the similarity relations, or the error of the first payload that fails validation. */
  function SimilarArtists(rels: seq<MbRelation>, validate: map<string, Json> -> Result<MbArtist, string>)
    : Result<seq<MbArtist>, string>
  {
    var failure := FirstFailure(rels, InvalidSimilar(validate));
    if failure.Some? then Err(failure.value) else Ok(Collect(rels, ValidSimilar(validate)))
  }

  /** When every similarity payload validates, the artists are those payloads validated,
      one for one and in order. */
  lemma {:induction false} CollectSimilar(rels: seq<MbRelation>, validate: map<string, Json> -> Result<MbArtist, string>)
    requires forall i :: 0 <= i < |rels| && IsSimilarity(rels[i]) ==> validate(rels[i].artist.value).Ok?
    ensures |Collect(rels, ValidSimilar(validate))| == |SimilarOf(rels)|
    ensures forall j :: 0 <= j < |SimilarOf(rels)| ==>
      validate(SimilarOf(rels)[j]) == Ok(Collect(rels, ValidSimilar(validate))[j])
  {
    if rels != [] {
      var init := rels[..|rels| - 1];
      assert forall i :: 0 <= i < |init| ==> init[i] == rels[i];
      CollectSimilar(init, validate);
    }
  }

  /** The call succeeds exactly when every similarity relation's payload validates; it
      then returns those payloads validated, in relation order; otherwise it raises the
      validation error of the first payload that fails. */
  lemma SimilarArtistsMeaning(rels: seq<MbRelation>, validate: map<string, Json> -> Result<MbArtist, string>)
    ensures SimilarArtists(rels, validate).Ok? <==>
      forall i :: 0 <= i < |rels| && IsSimilarity(rels[i]) ==> validate(rels[i].artist.value).Ok?
    ensures SimilarArtists(rels, validate).Ok? ==>
      |SimilarArtists(rels, validate).value| == |SimilarOf(rels)|
      && forall j :: 0 <= j < |SimilarOf(rels)| ==>
           validate(SimilarOf(rels)[j]) == Ok(SimilarArtists(rels, validate).value[j])
    ensures SimilarArtists(rels, validate).Err? ==>
      exists i :: 0 <= i < |rels| && IsSimilarity(rels[i])
        && validate(rels[i].artist.value) == Err(SimilarArtists(rels, validate).error)
        && forall j :: 0 <= j < i && IsSimilarity(rels[j]) ==> validate(rels[j].artist.value).Ok?
  {
    var fails := InvalidSimilar(validate);
    FirstFailureMeaning(rels, fails);
    if forall i :: 0 <= i < |rels| && IsSimilarity(rels[i]) ==> validate(rels[i].artist.value).Ok? {
      CollectSimilar(rels, validate);
    } else {
      var i :| 0 <= i < |rels| && IsSimilarity(rels[i]) && validate(rels[i].artist.value).Err?;
      assert fails(rels[i]).Some?;
    }
    if FirstFailure(rels, fails).Some? {
      var i :| 0 <= i < |rels| && fails(rels[i]) == FirstFailure(rels, fails)
               && forall j :: 0 <= j < i ==> fails(rels[j]).None?;
      assert IsSimilarity(rels[i]);
    }
  }

  /** What `get_artist_info` returns. */
  datatype ArtistInfo = ArtistInfo(artist: MbArtist, releaseGroupCounts: map<string, int>, allReleaseGroups: seq<MbReleaseGroup>)

  /** The includes of the lookup in `get_artist_info`. */
  const InfoIncludes := ["url-rels", "aliases", "tags", "ratings"]

  /** The lookup of an artist with the given includes. */
  predicate IsLookup(req: Request, artistId: string, includes: seq<string>)
  {
    req.host == MusicBrainzApi && req.endpoint == "/artist/" + artistId
    && req.params == WithFormat(LookupParams(includes))
  }

  /** The browse request for the page of release groups at `offset`. */
  predicate IsPageRequest(req: Request, artistId: string, types: seq<string>, offset: int)
  {
    req.host == MusicBrainzApi && req.endpoint == "/release-group"
    && req.params == WithFormat(BrowseReleaseGroupsParams(artistId, types, ["artist-credits"], PageLimit, offset))
  }

  /** `log` is a run of browse requests for the pages at offsets 0, 100, 200, ... */
  predicate PageLog(log: seq<Request>, artistId: string, types: seq<string>)
  {
    log == [] || (PageLog(log[..|log| - 1], artistId, types)
                  && IsPageRequest(log[|log| - 1], artistId, types, 100 * (|log| - 1)))
  }

  /** The `j`-th request of a page log asks for the page at offset `100 * j`. */
  lemma {:induction false} PageLogAt(log: seq<Request>, artistId: string, types: seq<string>, j: int)
    requires PageLog(log, artistId, types) && 0 <= j < |log|
    ensures IsPageRequest(log[j], artistId, types, 100 * j)
    decreases |log|
  {
    if j < |log| - 1 {
      PageLogAt(log[..|log| - 1], artistId, types, j);
    }
  }

  /** Appending the browse request for the next page keeps a page log one. */
  lemma PageLogAppend(log: seq<Request>, req: Request, artistId: string, types: seq<string>)
    requires PageLog(log, artistId, types) && IsPageRequest(req, artistId, types, 100 * |log|)
    ensures PageLog(log + [req], artistId, types)
  {
    assert (log + [req])[..|log|] == log;
  }

  /** Appending to a log changes neither its first `n` entries nor the rest's order. */
  lemma SplitAfterAppend<T>(log: seq<T>, x: T, n: int)
    requires 0 <= n <= |log|
    ensures (log + [x])[..n] == log[..n]
    ensures (log + [x])[n..] == log[n..] + [x]
  {
    var s := log + [x];
    assert forall i :: 0 <= i < |s[n..]| ==> s[n..][i] == (log[n..] + [x])[i];
  }

  // ---------------------------------------------------------------------------
  // The client

  /** Each request went out at least `gap` after the one before it. */
  ghost predicate Spaced(log: seq<Request>, gap: real)
  {
    |log| < 2 || (Spaced(log[..|log| - 1], gap) && log[|log| - 1].at >= log[|log| - 2].at + gap)
  }

  lemma {:induction false} SpacedPairs(log: seq<Request>, gap: real, i: int)
    requires Spaced(log, gap) && 0 < i < |log|
    ensures log[i].at >= log[i - 1].at + gap
    decreases |log|
  {
    if i < |log| - 1 {
      SpacedPairs(log[..|log| - 1], gap, i);
    }
  }

  predicate IsDated(g: MbReleaseGroup) { g.firstReleaseDate.Some? && g.firstReleaseDate.value != "" }

  function DateOf(g: MbReleaseGroup): string { OrElse(g.firstReleaseDate, "") }

  class Client {
    const rateLimit: real
    var lastRequestTime: Option<real>
    /** Every request sent so far, oldest first. */
    var sent: seq<Request>

    /** Consecutive requests are at least `rateLimit` apart, and the limiter remembers
        the time of the last one. */
    ghost predicate Valid()
      reads this
    {
      (sent == [] ==> lastRequestTime.None?)
      && (sent != [] ==> lastRequestTime == Some(sent[|sent| - 1].at))
      && Spaced(sent, rateLimit)
    }

    constructor (rateLimit: real)
      ensures Valid()
      ensures this.rateLimit == rateLimit && lastRequestTime.None? && sent == []
    {
      this.rateLimit := rateLimit;
      lastRequestTime := None;
      sent := [];
    }

    /** `_respect_rate_limit`, called at time `now`; the sleep is taken as exact. */
    method RespectRateLimit(now: real) returns (slept: real)
      modifies this
      ensures slept == Wait(old(lastRequestTime), rateLimit, now)
      ensures lastRequestTime == Some(now + slept)
      ensures sent == old(sent)
    {
      slept := 0.0;
      if lastRequestTime.Some? {
        var elapsed := now - lastRequestTime.value;
        if elapsed < rateLimit {
          slept := rateLimit - elapsed;
        }
      }
      lastRequestTime := Some(now + slept);
    }

    /** Waits for the limiter, then sends one request. */
    method Send(host: Host, endpoint: string, params: map<string, Param>, now: real)
      requires Valid()
      modifies this
      ensures Valid()
      ensures sent == old(sent) + [Request(host, endpoint, params, now + Wait(old(lastRequestTime), rateLimit, now))]
    {
      var slept := RespectRateLimit(now);
      sent := sent + [Request(host, endpoint, params, now + slept)];
      assert sent[..|sent| - 1] == old(sent);
    }

    /** `_make_request`: the `fmt` default, then the rate limit, then the call. */
    method MakeRequest(endpoint: string, params: map<string, Param>, now: real)
      requires Valid()
      modifies this
      ensures Valid()
      ensures sent == old(sent) + [Request(MusicBrainzApi, endpoint, WithFormat(params), now + Wait(old(lastRequestTime), rateLimit, now))]
    {
      Send(MusicBrainzApi, endpoint, WithFormat(params), now);
    }

    /** Since the client held `s0`, it has sent `k` more requests: browses of the release
        groups at offsets 0, 100, ..., 100 * (k - 1). */
    ghost predicate PagedSince(s0: seq<Request>, k: nat, artistId: string, types: seq<string>)
      reads this
    {
      |sent| == |s0| + k && sent[..|s0|] == s0 && PageLog(sent[|s0|..], artistId, types)
    }

    /** The client is valid and has sent `k` browse requests since it held `s0`. */
    ghost predicate Fetching(s0: seq<Request>, k: nat, artistId: string, types: seq<string>)
      reads this
    {
      Valid() && PagedSince(s0, k, artistId, types)
    }

    /** The paging loop of `get_artist_timeline` and `get_artist_info`: one browse request
        per page, offsets 0, 100, 200, ..., until a page comes back short or a browse
        raises. `pages(o)` is the service's answer for offset `o`, `stop` a page known to
        end the loop, and `clock(n)` the time at which the `n`-th request of the client is
        issued. */
    method FetchAllReleaseGroups(artistId: string, types: seq<string>, pages: nat -> Result<seq<MbReleaseGroup>, Failure>,
                                 ghost stop: nat, clock: nat -> real) returns (r: Result<seq<MbReleaseGroup>, string>)
      requires Valid()
      requires Ends(pages(100 * stop))
      modifies this
      ensures Valid()
      ensures r == Collected(pages, 0, stop)
      ensures PagedSince(old(sent), PageRequests(pages, 0, stop), artistId, types)
    {
      ghost var k;
      r, k := FetchPages(artistId, types, pages, stop, clock);
      CollectedAfter(pages, k, stop);
    }

    /** The loop itself: it ends at the first page that is short or fails, the `k`-th,
        having sent `k + 1` browse requests. */
    method FetchPages(artistId: string, types: seq<string>, pages: nat -> Result<seq<MbReleaseGroup>, Failure>,
                      ghost stop: nat, clock: nat -> real) returns (r: Result<seq<MbReleaseGroup>, string>, ghost k: nat)
      requires Valid()
      requires Ends(pages(100 * stop))
      modifies this
      ensures Valid()
      ensures k <= stop && StopsAt(pages, k)
      ensures r == Outcome(pages, k)
      ensures PagedSince(old(sent), k + 1, artistId, types)
    {
      var all := [];
      var offset := 0;
      k := 0;
      ghost var s0 := sent;
      while true
        invariant k <= stop && offset == 100 * k
        invariant Paged(pages, k, all)
        invariant Fetching(s0, k, artistId, types)
        decreases stop - k
      {
        RequestPage(artistId, types, offset, clock(|sent|), s0, k);
        var page := pages(offset);
        PagingRound(pages, k, stop, all);
        if page.Err? || |page.value| < PageLimit || page.value == [] {
          r := Finish(all, page);
          break;
        }
        all := all + page.value;
        offset := offset + PageLimit;
        k := k + 1;
      }
    }

    /** One round of the paging loop: the browse request at `offset`. */
    method RequestPage(artistId: string, types: seq<string>, offset: int, now: real, ghost s0: seq<Request>, ghost k: nat)
      requires Fetching(s0, k, artistId, types) && offset == 100 * k
      modifies this
      ensures Fetching(s0, k + 1, artistId, types)
    {
      ghost var prev := sent;
      var params := BrowseReleaseGroupsParams(artistId, types, ["artist-credits"], PageLimit, offset);
      MakeRequest("/release-group", params, now);
      ghost var req := sent[|sent| - 1];
      assert sent == prev + [req];
      PageLogAppend(prev[|s0|..], req, artistId, types);
      SplitAfterAppend(prev, req, |s0|);
    }

    /** `get_artist_timeline`: every page of release groups, then the dated ones grouped
        by year, years ascending and each year's groups by ascending date; a browse that
        raises ends the call with its error. */
    method GetArtistTimeline(artistId: string, types: seq<string>, pages: nat -> Result<seq<MbReleaseGroup>, Failure>,
                             ghost stop: nat, clock: nat -> real) returns (r: Result<seq<YearGroup<MbReleaseGroup>>, string>)
      requires Valid()
      requires Ends(pages(100 * stop))
      modifies this
      ensures Valid()
      ensures PagedSince(old(sent), PageRequests(pages, 0, stop), artistId, types)
      ensures Collected(pages, 0, stop).Err? ==> r == Err(Collected(pages, 0, stop).error)
      ensures Collected(pages, 0, stop).Ok? ==> r == Ok(TimelineOf(Collected(pages, 0, stop).value, IsDated, DateOf, false))
    {
      var all := FetchAllReleaseGroups(artistId, types, pages, stop, clock);
      if all.Err? {
        return Err(all.error);
      }
      var timeline := Build(all.value, IsDated, DateOf, false);
      r := Ok(timeline);
    }

    /** The tally loop of `get_artist_info`. */
    static method CountTypes(gs: seq<MbReleaseGroup>) returns (counts: map<string, int>)
      ensures counts == TypeCounts(gs)
    {
      counts := map k | k in TypeKeys :: 0;
      var i := 0;
      while i < |gs|
        invariant 0 <= i <= |gs|
        invariant counts == TypeCounts(gs[..i])
      {
        assert gs[..i + 1][..i] == gs[..i];
        counts := CountGroup(counts, gs[i]);
        i := i + 1;
      }
      assert gs[..i] == gs;
    }

    /** One round of the tally loop: "total", the primary bucket, then the inner loop
        over the secondary types. */
    static method CountGroup(counts0: map<string, int>, g: MbReleaseGroup) returns (counts: map<string, int>)
      requires counts0.Keys == TypeKeys
      ensures counts == AddGroup(counts0, g)
    {
      counts := counts0["total" := counts0["total"] + 1];
      var primary := Lower(OrElse(g.primaryType, "other"));
      if primary in counts {
        counts := counts[primary := counts[primary] + 1];
      } else {
        counts := counts["other" := counts["other"] + 1];
      }
      assert counts == Bump(Bump(counts0, "total"), PrimaryBucket(g));
      if g.secondaryTypes.Some? {
        var ts := g.secondaryTypes.value;
        ghost var base := counts;
        var j := 0;
        while j < |ts|
          invariant 0 <= j <= |ts|
          invariant counts == AddSecondaries(base, ts[..j])
          invariant counts.Keys == TypeKeys
        {
          assert ts[..j + 1][..j] == ts[..j];
          var t := Lower(ts[j]);
          if t in counts {
            counts := counts[t := counts[t] + 1];
          }
          j := j + 1;
        }
        assert ts[..j] == ts;
      }
    }

    /** `get_artist_info`: the artist lookup, every page of release groups, and their
        tallies. `artist` is the lookup's answer; a lookup or browse that raises ends the
        call with its error. */
    method GetArtistInfo(artistId: string, artist: Result<MbArtist, Failure>, pages: nat -> Result<seq<MbReleaseGroup>, Failure>,
                         ghost stop: nat, clock: nat -> real) returns (r: Result<ArtistInfo, string>)
      requires Valid()
      requires Ends(pages(100 * stop))
      modifies this
      ensures Valid()
      ensures |sent| > |old(sent)| && sent[..|old(sent)|] == old(sent)
      ensures IsLookup(sent[|old(sent)|], artistId, InfoIncludes)
      ensures artist.Err? ==> |sent| == |old(sent)| + 1 && r == Err(GetArtistFailed + FailureText(artist.error))
      ensures artist.Ok? ==> PagedSince(sent[..|old(sent)| + 1], PageRequests(pages, 0, stop), artistId, [])
      ensures artist.Ok? && Collected(pages, 0, stop).Err? ==> r == Err(Collected(pages, 0, stop).error)
      ensures artist.Ok? && Collected(pages, 0, stop).Ok? ==>
        r == Ok(ArtistInfo(artist.value, TypeCounts(Collected(pages, 0, stop).value), Collected(pages, 0, stop).value))
    {
      MakeRequest("/artist/" + artistId, LookupParams(InfoIncludes), clock(|sent|));
      ghost var lookup := sent;
      assert IsLookup(lookup[|old(sent)|], artistId, InfoIncludes);
      assert lookup[..|old(sent)|] == old(sent);
      if artist.Err? {
        return Err(GetArtistFailed + FailureText(artist.error));
      }
      var all := FetchAllReleaseGroups(artistId, [], pages, stop, clock);
      assert sent[..|lookup|] == lookup;
      assert sent[|old(sent)|] == lookup[|old(sent)|];
      assert sent[..|old(sent)|] == lookup[..|old(sent)|];
      if all.Err? {
        return Err(all.error);
      }
      var counts := CountTypes(all.value);
      r := Ok(ArtistInfo(artist.value, counts, all.value));
    }

    /** `find_similar_artists`: looks the artist up with its artist relations; `artist` is
        the lookup's answer and `validate` the validation of a related artist's payload.
        A lookup or a validation that raises ends the call with its error. */
    method FindSimilarArtists(artistId: string, artist: Result<MbArtist, Failure>,
                              validate: map<string, Json> -> Result<MbArtist, string>, now: real)
      returns (r: Result<seq<MbArtist>, string>)
      requires Valid()
      modifies this
      ensures Valid()
      ensures sent == old(sent) + [Request(MusicBrainzApi, "/artist/" + artistId,
        WithFormat(LookupParams(["artist-rels"])), now + Wait(old(lastRequestTime), rateLimit, now))]
      ensures artist.Err? ==> r == Err(GetArtistFailed + FailureText(artist.error))
      ensures artist.Ok? ==> r == SimilarArtists(RelationsOf(artist.value), validate)
    {
      MakeRequest("/artist/" + artistId, LookupParams(["artist-rels"]), now);
      if artist.Err? {
        return Err(GetArtistFailed + FailureText(artist.error));
      }
      if artist.value.relations.None? || artist.value.relations.value == [] {
        return Ok([]);
      }
      r := ValidateSimilar(artist.value.relations.value, validate);
    }

    /** The loop of `find_similar_artists` over the artist's relations. */
    static method ValidateSimilar(rels: seq<MbRelation>, validate: map<string, Json> -> Result<MbArtist, string>)
      returns (r: Result<seq<MbArtist>, string>)
      ensures r == SimilarArtists(rels, validate)
    {
      var similar := [];
      var i := 0;
      while i < |rels|
        invariant 0 <= i <= |rels|
        invariant FirstFailure(rels[..i], InvalidSimilar(validate)) == None
        invariant similar == Collect(rels[..i], ValidSimilar(validate))
      {
        FirstFailureStep(rels, i, InvalidSimilar(validate));
        CollectStep(rels, i, ValidSimilar(validate));
        var rel := rels[i];
        assert InvalidSimilar(validate)(rel) == if IsSimilarity(rel) then ErrorOf(validate(rel.artist.value)) else None;
        if rel.relType in ["similar", "influenced by", "influence"] && rel.artist.Some? && rel.artist.value != map[] {
          var similarArtist := validate(rel.artist.value);
          if similarArtist.Err? {
            FirstFailureSticky(rels, i + 1, InvalidSimilar(validate));
            return Err(similarArtist.error);
          }
          similar := similar + [similarArtist.value];
        }
        i := i + 1;
      }
      assert rels[..i] == rels;
      r := Ok(similar);
    }

    /** `get_cover_art_front`: one rate-limited request to the Cover Art Archive; `answer`
        is the archive's image list or the failure text. */
    method GetCoverArtFront(releaseId: string, answer: Result<seq<CoverArtImage>, string>, now: real)
      returns (r: Result<string, string>)
      requires Valid()
      modifies this
      ensures Valid()
      ensures sent == old(sent) + [Request(CoverArtArchive, "/release/" + releaseId, map[], now + Wait(old(lastRequestTime), rateLimit, now))]
      ensures answer.Err? ==> r == Err("Failed to get front cover: Failed to get cover art: " + answer.error)
      ensures answer.Ok? ==> (r.Ok? <==> exists i :: 0 <= i < |answer.value| && answer.value[i].front)
      ensures answer.Ok? && r.Ok? ==> exists i :: FirstFrontAt(answer.value, i) && answer.value[i].image == r.value
      ensures answer.Ok? && r.Err? ==> r.error == "Failed to get front cover: No front cover found"
    {
      Send(CoverArtArchive, "/release/" + releaseId, map[], now);
      if answer.Err? {
        return Err("Failed to get front cover: Failed to get cover art: " + answer.error);
      }
      var front := FirstFront(answer.value);
      if front.None? {
        return Err("Failed to get front cover: No front cover found");
      }
      return Ok(front.value);
    }
  }

  /** Image `i` is the first one flagged as the front cover. */
  predicate FirstFrontAt(images: seq<CoverArtImage>, i: int)
  {
    0 <= i < |images| && images[i].front && forall j :: 0 <= j < i ==> !images[j].front
  }

  /** The loop of `get_cover_art_front`: the first image flagged as the front cover. */
  method FirstFront(images: seq<CoverArtImage>) returns (r: Option<string>)
    ensures r.None? <==> forall i :: 0 <= i < |images| ==> !images[i].front
    ensures r.Some? ==> exists i :: FirstFrontAt(images, i) && images[i].image == r.value
  {
    var i := 0;
    while i < |images|
      invariant 0 <= i <= |images|
      invariant forall j :: 0 <= j < i ==> !images[j].front
    {
      if images[i].front {
        return Some(images[i].image);
      }
      i := i + 1;
    }
    return None;
  }
}
