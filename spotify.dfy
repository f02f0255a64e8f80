/** The Spotify client: the cached client-credentials token, the query parameters of
    the catalogue calls, the three pagination loops (albums of an artist, tracks of an
    album with a per-track detail lookup, all tracks of an artist), the release
    timeline and the artist statistics. The web service is replaced by its answers:
    each call's outcome is a function of the request it sends (path and parameters),
    `Err` carrying the message of the `SpotifyError` the call raises. */
module Spotify {
  import opened Common
  import opened Models
  import opened Sorting
  import opened Timeline

  /** The largest page the Web API serves. */
  const MaxPage := 50

  // ---------------------------------------------------------------------------
  // Client credentials

  /** The `user-pass` string of section 2 of RFC 7617 that is base64-encoded into the
      token request's Basic authorization header. */
  function UserPass(clientId: string, clientSecret: string): string
  {
    clientId + ":" + clientSecret
  }

  /** Section 2 of RFC 7617 forbids a colon in the user-id; given that, the service can
      split the credentials back at the first colon. */
  lemma UserPassSplit(clientId: string, clientSecret: string)
    requires ':' !in clientId
    ensures Before(UserPass(clientId, clientSecret), ':') == clientId
    ensures UserPass(clientId, clientSecret)[|clientId| + 1..] == clientSecret
  {
    var s := UserPass(clientId, clientSecret);
    var r := Before(s, ':');
    assert s[|clientId|] == ':';
  }

  // ---------------------------------------------------------------------------
  // Token cache

  datatype Token = Token(accessToken: string, expiresIn: int, expiresAt: Option<real>)

  /** The parts of the token endpoint's answer the client keeps. */
  datatype Grant = Grant(accessToken: string, expiresIn: int)

  /** The test `authenticate` uses to reuse the cached token. */
  predicate CacheValid(token: Option<Token>, now: real)
  {
    token.Some? && token.value.expiresAt.Some? && token.value.expiresAt.value > now
  }

  /** The test `_ensure_auth` uses to ask for a new token, written as the source
      writes it. */
  predicate NeedsAuth(token: Option<Token>, now: real)
  {
    token.None? || token.value.expiresAt.None? || token.value.expiresAt.value <= now
  }

  /** The token built from a grant received at `receivedAt`: it expires `expires_in`
      seconds later. */
  function Fresh(g: Grant, receivedAt: real): (t: Token)
    ensures t.accessToken == g.accessToken && t.expiresIn == g.expiresIn
    ensures t.expiresAt.Some? && t.expiresAt.value - receivedAt == g.expiresIn as real
  {
    Token(g.accessToken, g.expiresIn, Some(receivedAt + g.expiresIn as real))
  }

  /** A freshly granted token with a positive lifetime is reused by every check made
      before it expires, and by none made after. */
  lemma FreshTokenReused(g: Grant, receivedAt: real, later: real)
    ensures CacheValid(Some(Fresh(g, receivedAt)), later) <==> later < receivedAt + g.expiresIn as real
    ensures NeedsAuth(Some(Fresh(g, receivedAt)), later) <==> !CacheValid(Some(Fresh(g, receivedAt)), later)
  {
  }

  /** The client's authentication state: the cached token and the Bearer header of the
      API client. The clock reading and the token endpoint's answer are parameters. */
  class Client {
    const clientId: string
    const clientSecret: string
    var token: Option<Token>
    /** The `Authorization` header the API client sends. */
    var apiAuthorization: Option<string>
    /** How many token requests went out. */
    ghost var tokenRequests: nat

    /** A cached token always carries its expiry, and the API client sends it. */
    ghost predicate Valid()
      reads this
    {
      token.Some? ==> token.value.expiresAt.Some? && apiAuthorization == Some("Bearer " + token.value.accessToken)
    }

    constructor(clientId: string, clientSecret: string)
      ensures this.clientId == clientId && this.clientSecret == clientSecret
      ensures token.None? && apiAuthorization.None? && tokenRequests == 0
      ensures Valid()
    {
      this.clientId := clientId;
      this.clientSecret := clientSecret;
      token := None;
      apiAuthorization := None;
      tokenRequests := 0;
    }

    /** `authenticate` at time `now`: the cached token is returned as long as it has not
        expired; otherwise a token request goes out and, when it is answered at
        `receivedAt`, the new token and its Bearer header replace the old ones. A failed
        request leaves the cache as it was. */
    method Authenticate(now: real, receivedAt: real, grant: Result<Grant, string>) returns (r: Result<Token, string>)
      requires Valid()
      modifies this
      ensures Valid()
      ensures CacheValid(old(token), now) ==>
        r == Ok(old(token).value) && token == old(token) && apiAuthorization == old(apiAuthorization)
        && tokenRequests == old(tokenRequests)
      ensures !CacheValid(old(token), now) ==> tokenRequests == old(tokenRequests) + 1
      ensures !CacheValid(old(token), now) && grant.Ok? ==>
        token == Some(Fresh(grant.value, receivedAt)) && r == Ok(Fresh(grant.value, receivedAt))
        && apiAuthorization == Some("Bearer " + grant.value.accessToken)
      ensures !CacheValid(old(token), now) && grant.Err? ==>
        r == Err("Authentication failed: " + grant.error) && token == old(token)
        && apiAuthorization == old(apiAuthorization)
    {
      if token.Some? && token.value.expiresAt.Some? && token.value.expiresAt.value > now {
        return Ok(token.value);
      }
      tokenRequests := tokenRequests + 1;
      match grant {
        case Err(e) =>
          r := Err("Authentication failed: " + e);
        case Ok(g) =>
          token := Some(Fresh(g, receivedAt));
          apiAuthorization := Some("Bearer " + g.accessToken);
          r := Ok(token.value);
      }
    }

    /** `_ensure_auth`: authenticates exactly when the cached token is missing, has no
        expiry or has expired, which is the complement of the reuse test of
        `authenticate`, so a call that gets through always sends a token request. */
    method EnsureAuth(now: real, receivedAt: real, grant: Result<Grant, string>) returns (err: Option<string>)
      requires Valid()
      modifies this
      ensures Valid()
      ensures !NeedsAuth(old(token), now) ==>
        err.None? && token == old(token) && apiAuthorization == old(apiAuthorization)
        && tokenRequests == old(tokenRequests)
      ensures NeedsAuth(old(token), now) ==> tokenRequests == old(tokenRequests) + 1
      ensures NeedsAuth(old(token), now) && grant.Ok? ==>
        err.None? && token == Some(Fresh(grant.value, receivedAt))
        && apiAuthorization == Some("Bearer " + grant.value.accessToken)
      ensures NeedsAuth(old(token), now) && grant.Err? ==>
        err == Some("Authentication failed: " + grant.error) && token == old(token)
        && apiAuthorization == old(apiAuthorization)
    {
      err := None;
      if token.None? || token.value.expiresAt.None? || token.value.expiresAt.value <= now {
        var r := Authenticate(now, receivedAt, grant);
        if r.Err? {
          err := Some(r.error);
        }
      }
    }
  }

  // ---------------------------------------------------------------------------
  // Requests

  /** One call to the Web API: the path under the API base URL and the query. */
  datatype ApiRequest = ApiRequest(path: string, params: map<string, Param>)

  /** `min(limit, 50)`. */
  function PageSize(limit: int): (r: int)
    ensures r <= MaxPage && r <= limit
    ensures r == limit || r == MaxPage
  {
    Min(limit, MaxPage)
  }

  /** `market` when it is given (`if market:`). */
  function MarketParam(market: Option<string>): (r: map<string, Param>)
    ensures r.Keys == if Given(market) then {"market"} else {}
    ensures Given(market) ==> r["market"] == PStr(market.value)
  {
    if Given(market) then map["market" := PStr(market.value)] else map[]
  }

  function SearchArtistsParams(query: string, limit: int, offset: int): (r: map<string, Param>)
    ensures r.Keys == {"q", "type", "limit", "offset"}
    ensures r["q"] == PStr(query) && r["type"] == PStr("artist")
    ensures r["limit"] == PInt(PageSize(limit)) && r["offset"] == PInt(offset)
  {
    map["q" := PStr(query), "type" := PStr("artist"), "limit" := PInt(PageSize(limit)), "offset" := PInt(offset)]
  }

  /** The query of `get_artist_albums`: the clamped limit and the offset, the album
      types joined by "," as `include_groups` when there are any, and the market when
      given. */
  function ArtistAlbumsParams(albumTypes: seq<string>, limit: int, offset: int, market: Option<string>)
    : (r: map<string, Param>)
    ensures r.Keys == {"limit", "offset"} + (if albumTypes == [] then {} else {"include_groups"})
                      + (if Given(market) then {"market"} else {})
    ensures r["limit"] == PInt(PageSize(limit)) && r["offset"] == PInt(offset)
    ensures albumTypes != [] ==> r["include_groups"] == PStr(Join(albumTypes, ","))
    ensures Given(market) ==> r["market"] == PStr(market.value)
  {
    map["limit" := PInt(PageSize(limit)), "offset" := PInt(offset)]
      + JoinedParam("include_groups", albumTypes, ",") + MarketParam(market)
  }

  /** The query of `get_album_tracks`. */
  function AlbumTracksParams(limit: int, offset: int, market: Option<string>): (r: map<string, Param>)
    ensures r.Keys == {"limit", "offset"} + (if Given(market) then {"market"} else {})
    ensures r["limit"] == PInt(PageSize(limit)) && r["offset"] == PInt(offset)
    ensures Given(market) ==> r["market"] == PStr(market.value)
  {
    map["limit" := PInt(PageSize(limit)), "offset" := PInt(offset)] + MarketParam(market)
  }

  function ArtistRequest(artistId: string): ApiRequest
  {
    ApiRequest("/artists/" + artistId, map[])
  }

  function ArtistAlbumsRequest(artistId: string, albumTypes: seq<string>, offset: int, market: Option<string>): ApiRequest
  {
    ApiRequest("/artists/" + artistId + "/albums", ArtistAlbumsParams(albumTypes, MaxPage, offset, market))
  }

  function AlbumTracksRequest(albumId: string, offset: int, market: Option<string>): ApiRequest
  {
    ApiRequest("/albums/" + albumId + "/tracks", AlbumTracksParams(MaxPage, offset, market))
  }

  function TrackRequest(trackId: string, market: Option<string>): ApiRequest
  {
    ApiRequest("/tracks/" + trackId, MarketParam(market))
  }

  /** `get_artist_stats` asks for the top tracks in the given market, "US" otherwise. */
  function TopTracksRequest(artistId: string, market: Option<string>): (r: ApiRequest)
    ensures r.params.Keys == {"market"}
    ensures r.params["market"] == PStr(if Given(market) then market.value else "US")
  {
    ApiRequest("/artists/" + artistId + "/top-tracks",
               map["market" := PStr(if Given(market) then market.value else "US")])
  }

  /** Every album types list reaches the service intact when no type contains ",". */
  lemma IncludeGroupsRoundTrip(albumTypes: seq<string>, limit: int, offset: int, market: Option<string>)
    requires albumTypes != []
    requires forall i :: 0 <= i < |albumTypes| ==> ',' !in albumTypes[i]
    ensures Split(ArtistAlbumsParams(albumTypes, limit, offset, market)["include_groups"].s, ',') == albumTypes
  {
    JoinedParamRoundTrip("include_groups", albumTypes, ',');
  }

  // ---------------------------------------------------------------------------
  // Pagination: `limit=50`, offsets 0, 50, 100, ..., stop after the first page whose
  // `next` is None or whose items are empty

  datatype Page<T> = Page(items: seq<T>, next: Option<string>)

  /** A page after which the loop asks for no more: a failed call, which raises out of
      the loop, or a page that is the last or empty. */
  predicate Last<T>(p: Result<Page<T>, string>)
  {
    p.Err? || p.value.next.None? || p.value.items == []
  }

  /** What the loop returns from page `k` on (the page at offset `50 * k`), given that
      page `stop` is one after which it stops. */
  function PagesFrom<T>(answer: nat -> Result<Page<T>, string>, k: nat, stop: nat): Result<seq<T>, string>
    requires k <= stop && Last(answer(stop))
    decreases stop - k
  {
    match answer(k)
    case Err(e) => Err(e)
    case Ok(p) => if Last(answer(k)) then Ok(p.items) else Prepend(p.items, PagesFrom(answer, k + 1, stop))
  }

  /** How many pages the loop asks for from page `k` on. */
  function PagesRequested<T>(answer: nat -> Result<Page<T>, string>, k: nat, stop: nat): nat
    requires k <= stop && Last(answer(stop))
    decreases stop - k
  {
    if Last(answer(k)) then 1 else 1 + PagesRequested(answer, k + 1, stop)
  }

  /** The items of pages `0 .. k - 1`, in order. */
  function ItemsBefore<T>(answer: nat -> Result<Page<T>, string>, k: nat): seq<T>
  {
    if k == 0 then [] else ItemsBefore(answer, k - 1) + (if answer(k - 1).Ok? then answer(k - 1).value.items else [])
  }

  predicate MoreBefore<T>(answer: nat -> Result<Page<T>, string>, k: nat)
  {
    forall j: nat :: j < k ==> !Last(answer(j))
  }

  /** The pagination contract: when page `d` is the first one after which the loop
      stops, exactly `d + 1` pages are asked for and the result is the items of pages
      `0 .. d` concatenated in order, or the error of page `d` when that call failed. */
  lemma {:induction false} PagesMeaning<T>(answer: nat -> Result<Page<T>, string>, d: nat, stop: nat)
    requires d <= stop && Last(answer(stop))
    requires MoreBefore(answer, d) && Last(answer(d))
    ensures PagesFrom(answer, 0, stop)
         == if answer(d).Err? then Err(answer(d).error) else Ok(ItemsBefore(answer, d) + answer(d).value.items)
    ensures PagesRequested(answer, 0, stop) == d + 1
  {
    PagesSplit(answer, d, stop);
  }

  lemma {:induction false} PagesSplit<T>(answer: nat -> Result<Page<T>, string>, k: nat, stop: nat)
    requires k <= stop && Last(answer(stop)) && MoreBefore(answer, k)
    ensures PagesFrom(answer, 0, stop) == Prepend(ItemsBefore(answer, k), PagesFrom(answer, k, stop))
    ensures PagesRequested(answer, 0, stop) == k + PagesRequested(answer, k, stop)
  {
    if k > 0 {
      PagesSplit(answer, k - 1, stop);
      assert !Last(answer(k - 1));
      var rest := PagesFrom(answer, k, stop);
      if rest.Ok? {
        assert ItemsBefore(answer, k - 1) + (answer(k - 1).value.items + rest.value)
            == ItemsBefore(answer, k) + rest.value;
      }
    } else {
      assert ItemsBefore(answer, 0) + [] == [];
      if PagesFrom(answer, 0, stop).Ok? {
        assert [] + PagesFrom(answer, 0, stop).value == PagesFrom(answer, 0, stop).value;
      }
    }
  }

  /** A page after which the loop goes on: its items come first, and one request more
      is made. */
  lemma PagesStep<T>(answer: nat -> Result<Page<T>, string>, k: nat, stop: nat)
    requires k <= stop && Last(answer(stop)) && !Last(answer(k))
    ensures k < stop
    ensures PagesFrom(answer, k, stop) == Prepend(answer(k).value.items, PagesFrom(answer, k + 1, stop))
    ensures PagesRequested(answer, k, stop) == 1 + PagesRequested(answer, k + 1, stop)
  {
  }

  /** A page after which the loop stops decides the outcome with one request. */
  lemma PagesLast<T>(answer: nat -> Result<Page<T>, string>, k: nat, stop: nat)
    requires k <= stop && Last(answer(stop)) && Last(answer(k))
    ensures PagesFrom(answer, k, stop) == if answer(k).Err? then Err(answer(k).error) else Ok(answer(k).value.items)
    ensures PagesRequested(answer, k, stop) == 1
  {
  }

  /** The paging loop before page `k`: `all` holds the items of the pages before it. */
  ghost predicate PagesSoFar<T>(answer: nat -> Result<Page<T>, string>, k: nat, stop: nat, all: seq<T>)
    requires k <= stop && Last(answer(stop))
  {
    PagesFrom(answer, 0, stop) == Prepend(all, PagesFrom(answer, k, stop))
    && PagesRequested(answer, 0, stop) == k + PagesRequested(answer, k, stop)
  }

  /** A page after which the loop goes on adds its items and one request. */
  lemma PagesSoFarStep<T>(answer: nat -> Result<Page<T>, string>, k: nat, stop: nat, all: seq<T>)
    requires k <= stop && Last(answer(stop)) && !Last(answer(k))
    requires PagesSoFar(answer, k, stop, all)
    ensures k < stop && PagesSoFar(answer, k + 1, stop, all + answer(k).value.items)
  {
    PagesStep(answer, k, stop);
    PrependTwice(all, answer(k).value.items, PagesFrom(answer, k + 1, stop));
  }

  /** A page after which the loop stops decides the result, after `k + 1` requests. */
  lemma PagesSoFarLast<T>(answer: nat -> Result<Page<T>, string>, k: nat, stop: nat, all: seq<T>)
    requires k <= stop && Last(answer(stop)) && Last(answer(k))
    requires PagesSoFar(answer, k, stop, all)
    ensures PagesFrom(answer, 0, stop) == if answer(k).Err? then Err(answer(k).error) else Ok(all + answer(k).value.items)
    ensures PagesRequested(answer, 0, stop) == k + 1
  {
    PagesLast(answer, k, stop);
  }

  /** The pages `get_all_artist_albums` reads, by page number. */
  function AlbumPages(albums: ApiRequest -> Result<Page<SpotifyAlbum>, string>, artistId: string,
                      albumTypes: seq<string>, market: Option<string>): nat -> Result<Page<SpotifyAlbum>, string>
  {
    k => albums(ArtistAlbumsRequest(artistId, albumTypes, MaxPage * k, market))
  }

  /** The pages `get_all_album_tracks` reads, by page number. */
  function TrackPages(pages: ApiRequest -> Result<Page<SpotifyTrackItem>, string>, albumId: string,
                      market: Option<string>): nat -> Result<Page<SpotifyTrackItem>, string>
  {
    k => pages(AlbumTracksRequest(albumId, MaxPage * k, market))
  }

  /** The first `n` listing requests of `get_all_artist_albums`: offsets 0, 50, 100, ... */
  function AlbumRequests(artistId: string, albumTypes: seq<string>, market: Option<string>, n: nat): (log: seq<ApiRequest>)
    ensures |log| == n
  {
    if n == 0 then [] else AlbumRequests(artistId, albumTypes, market, n - 1) + [ArtistAlbumsRequest(artistId, albumTypes, MaxPage * (n - 1), market)]
  }

  /** The loop of `get_all_artist_albums` before page `k`: `all` holds the albums of the
      pages before it and `sent` their requests. */
  ghost predicate AlbumsSoFar(albums: ApiRequest -> Result<Page<SpotifyAlbum>, string>, artistId: string,
                              albumTypes: seq<string>, market: Option<string>, k: nat, stop: nat,
                              all: seq<SpotifyAlbum>, sent: seq<ApiRequest>)
    requires k <= stop && Last(AlbumPages(albums, artistId, albumTypes, market)(stop))
  {
    PagesSoFar(AlbumPages(albums, artistId, albumTypes, market), k, stop, all)
    && sent == AlbumRequests(artistId, albumTypes, market, k)
  }

  /** A page after which the loop goes on adds its albums and its request. */
  lemma AlbumsStep(albums: ApiRequest -> Result<Page<SpotifyAlbum>, string>, artistId: string,
                   albumTypes: seq<string>, market: Option<string>, k: nat, stop: nat,
                   all: seq<SpotifyAlbum>, sent: seq<ApiRequest>)
    requires k <= stop && Last(AlbumPages(albums, artistId, albumTypes, market)(stop))
    requires !Last(albums(ArtistAlbumsRequest(artistId, albumTypes, MaxPage * k, market)))
    requires AlbumsSoFar(albums, artistId, albumTypes, market, k, stop, all, sent)
    ensures k < stop
    ensures var request := ArtistAlbumsRequest(artistId, albumTypes, MaxPage * k, market);
      AlbumsSoFar(albums, artistId, albumTypes, market, k + 1, stop, all + albums(request).value.items, sent + [request])
  {
    var answer := AlbumPages(albums, artistId, albumTypes, market);
    assert answer(k) == albums(ArtistAlbumsRequest(artistId, albumTypes, MaxPage * k, market));
    PagesSoFarStep(answer, k, stop, all);
  }

  /** A page after which the loop stops decides the result, with its request the last. */
  lemma AlbumsLast(albums: ApiRequest -> Result<Page<SpotifyAlbum>, string>, artistId: string,
                   albumTypes: seq<string>, market: Option<string>, k: nat, stop: nat,
                   all: seq<SpotifyAlbum>, sent: seq<ApiRequest>)
    requires k <= stop && Last(AlbumPages(albums, artistId, albumTypes, market)(stop))
    requires Last(albums(ArtistAlbumsRequest(artistId, albumTypes, MaxPage * k, market)))
    requires AlbumsSoFar(albums, artistId, albumTypes, market, k, stop, all, sent)
    ensures var request := ArtistAlbumsRequest(artistId, albumTypes, MaxPage * k, market);
      var answer := AlbumPages(albums, artistId, albumTypes, market);
      PagesFrom(answer, 0, stop)
        == (if albums(request).Err? then Err(albums(request).error) else Ok(all + albums(request).value.items))
      && sent + [request] == AlbumRequests(artistId, albumTypes, market, PagesRequested(answer, 0, stop))
  {
    var answer := AlbumPages(albums, artistId, albumTypes, market);
    assert answer(k) == albums(ArtistAlbumsRequest(artistId, albumTypes, MaxPage * k, market));
    PagesSoFarLast(answer, k, stop, all);
  }

  /** The `i`-th listing request asks for the albums at offset `50 * i`. */
  lemma {:induction false} AlbumRequestsAt(artistId: string, albumTypes: seq<string>, market: Option<string>, n: nat, i: nat)
    requires i < n
    ensures AlbumRequests(artistId, albumTypes, market, n)[i] == ArtistAlbumsRequest(artistId, albumTypes, MaxPage * i, market)
  {
    var prev := AlbumRequests(artistId, albumTypes, market, n - 1);
    var last := ArtistAlbumsRequest(artistId, albumTypes, MaxPage * (n - 1), market);
    assert AlbumRequests(artistId, albumTypes, market, n) == prev + [last];
    if i < n - 1 {
      AlbumRequestsAt(artistId, albumTypes, market, n - 1, i);
      assert (prev + [last])[i] == prev[i];
    }
  }

  /** `get_all_artist_albums`: asks for offsets 0, 50, 100, ... and extends the result
      with each page until a page has no `next` or no items. */
  method FetchAllArtistAlbums(artistId: string, albumTypes: seq<string>, market: Option<string>,
                              albums: ApiRequest -> Result<Page<SpotifyAlbum>, string>, ghost stop: nat)
    returns (r: Result<seq<SpotifyAlbum>, string>, ghost sent: seq<ApiRequest>)
    requires Last(AlbumPages(albums, artistId, albumTypes, market)(stop))
    ensures r == PagesFrom(AlbumPages(albums, artistId, albumTypes, market), 0, stop)
    ensures sent == AlbumRequests(artistId, albumTypes, market, PagesRequested(AlbumPages(albums, artistId, albumTypes, market), 0, stop))
  {
    var offset := 0;
    var all: seq<SpotifyAlbum> := [];
    ghost var k: nat := 0;
    sent := [];
    while true
      invariant k <= stop && offset == MaxPage * k
      invariant AlbumsSoFar(albums, artistId, albumTypes, market, k, stop, all, sent)
      decreases stop - k
    {
      var request := ArtistAlbumsRequest(artistId, albumTypes, offset, market);
      var response := albums(request);
      if response.Err? || response.value.next.None? || |response.value.items| == 0 {
        AlbumsLast(albums, artistId, albumTypes, market, k, stop, all, sent);
        sent := sent + [request];
        if response.Err? {
          return Err(response.error), sent;
        }
        all := all + response.value.items;
        return Ok(all), sent;
      }
      AlbumsStep(albums, artistId, albumTypes, market, k, stop, all, sent);
      sent := sent + [request];
      all := all + response.value.items;
      offset := offset + MaxPage;
      k := k + 1;
    }
  }

  // ---------------------------------------------------------------------------
  // Tracks of an album

  /** A track of `get_all_album_tracks`: the full track, or the listing item itself
      when the detail lookup failed (`cast(SpotifyTrack, track_item)`). */
  datatype AlbumTrack = Full(track: SpotifyTrack) | Simplified(item: SpotifyTrackItem)

  /** The track a listing item turns into. */
  function Resolve(tracks: ApiRequest -> Result<SpotifyTrack, string>, market: Option<string>,
                   item: SpotifyTrackItem): (t: AlbumTrack)
    ensures t.Simplified? ==> t.item == item && tracks(TrackRequest(item.id, market)).Err?
    ensures t.Full? ==> tracks(TrackRequest(item.id, market)) == Ok(t.track)
  {
    match tracks(TrackRequest(item.id, market))
    case Ok(track) => Full(track)
    case Err(_) => Simplified(item)
  }

  /** The lookup of every listing item, as a function. */
  function Resolver(tracks: ApiRequest -> Result<SpotifyTrack, string>, market: Option<string>): SpotifyTrackItem -> AlbumTrack
  {
    item => Resolve(tracks, market, item)
  }

  function MapResult<T, U>(r: Result<seq<T>, string>, f: T -> U): Result<seq<U>, string>
  {
    if r.Ok? then Ok(MapSeq(r.value, f)) else Err(r.error)
  }

  /** What `get_all_album_tracks` returns: one track per listed item, in listing order,
      or the error of the listing page that failed. */
  function AlbumTracksOf(pages: ApiRequest -> Result<Page<SpotifyTrackItem>, string>,
                         tracks: ApiRequest -> Result<SpotifyTrack, string>,
                         albumId: string, market: Option<string>, stop: nat): Result<seq<AlbumTrack>, string>
    requires Last(TrackPages(pages, albumId, market)(stop))
  {
    MapResult(PagesFrom(TrackPages(pages, albumId, market), 0, stop), Resolver(tracks, market))
  }

  /** The inner loop of `get_all_album_tracks`: one detail lookup per listed item. */
  method ResolveItems(items: seq<SpotifyTrackItem>, tracks: ApiRequest -> Result<SpotifyTrack, string>,
                      market: Option<string>) returns (out: seq<AlbumTrack>, ghost looked: seq<ApiRequest>)
    ensures out == MapSeq(items, Resolver(tracks, market))
    ensures looked == LookupRequests(items, market)
  {
    out := [];
    looked := [];
    for i := 0 to |items|
      invariant out == MapSeq(items[..i], Resolver(tracks, market))
      invariant looked == LookupRequests(items[..i], market)
    {
      var t: AlbumTrack;
      var request := TrackRequest(items[i].id, market);
      match tracks(request) {
        case Ok(track) => t := Full(track);
        case Err(_) => t := Simplified(items[i]);
      }
      out := out + [t];
      looked := looked + [request];
      assert items[..i + 1][..i] == items[..i];
    }
    assert items[..|items|] == items;
  }

  /** The detail lookups of `get_all_album_tracks` for one page: one per listed item,
      in listing order. */
  function LookupRequests(items: seq<SpotifyTrackItem>, market: Option<string>): (log: seq<ApiRequest>)
    ensures |log| == |items|
  {
    if items == [] then []
    else LookupRequests(items[..|items| - 1], market) + [TrackRequest(items[|items| - 1].id, market)]
  }

  /** The `i`-th lookup of a page asks for the `i`-th listed item. */
  lemma {:induction false} LookupRequestsAt(items: seq<SpotifyTrackItem>, market: Option<string>, i: nat)
    requires i < |items|
    ensures LookupRequests(items, market)[i] == TrackRequest(items[i].id, market)
  {
    if i < |items| - 1 {
      LookupRequestsAt(items[..|items| - 1], market, i);
    }
  }

  /** The requests `get_all_album_tracks` sends from page `k` on: the listing of each
      page, then the lookups of its items, until a page after which the loop stops. */
  function TrackLogFrom(pages: ApiRequest -> Result<Page<SpotifyTrackItem>, string>, albumId: string,
                        market: Option<string>, k: nat, stop: nat): seq<ApiRequest>
    requires k <= stop && Last(TrackPages(pages, albumId, market)(stop))
    decreases stop - k
  {
    var listing := AlbumTracksRequest(albumId, MaxPage * k, market);
    match TrackPages(pages, albumId, market)(k)
    case Err(_) => [listing]
    case Ok(p) =>
      [listing] + LookupRequests(p.items, market)
      + (if Last(TrackPages(pages, albumId, market)(k)) then [] else TrackLogFrom(pages, albumId, market, k + 1, stop))
  }

  /** A page after which the loop goes on: its listing, its lookups, then the rest. */
  lemma TrackLogStep(pages: ApiRequest -> Result<Page<SpotifyTrackItem>, string>, albumId: string,
                     market: Option<string>, k: nat, stop: nat)
    requires k <= stop && Last(TrackPages(pages, albumId, market)(stop))
    requires !Last(TrackPages(pages, albumId, market)(k))
    ensures k < stop
    ensures TrackLogFrom(pages, albumId, market, k, stop)
         == [AlbumTracksRequest(albumId, MaxPage * k, market)]
            + LookupRequests(TrackPages(pages, albumId, market)(k).value.items, market)
            + TrackLogFrom(pages, albumId, market, k + 1, stop)
  {
  }

  /** The number of requests before page `k` is `k` listings plus one lookup per item
      listed on those pages. */
  lemma {:induction false} TrackLogSplit(pages: ApiRequest -> Result<Page<SpotifyTrackItem>, string>, albumId: string,
                                         market: Option<string>, k: nat, stop: nat)
    requires k <= stop && Last(TrackPages(pages, albumId, market)(stop))
    requires MoreBefore(TrackPages(pages, albumId, market), k)
    ensures |TrackLogFrom(pages, albumId, market, 0, stop)|
         == k + |ItemsBefore(TrackPages(pages, albumId, market), k)| + |TrackLogFrom(pages, albumId, market, k, stop)|
  {
    if k > 0 {
      var answer := TrackPages(pages, albumId, market);
      TrackLogSplit(pages, albumId, market, k - 1, stop);
      assert !Last(answer(k - 1));
      TrackLogStep(pages, albumId, market, k - 1, stop);
      assert ItemsBefore(answer, k) == ItemsBefore(answer, k - 1) + answer(k - 1).value.items;
    }
  }

  /** When page `d` is the first after which the loop stops, `get_all_album_tracks`
      sends `d + 1` listing requests and one lookup for every item listed on a page
      that came back. */
  lemma TrackLogCount(pages: ApiRequest -> Result<Page<SpotifyTrackItem>, string>, albumId: string,
                      market: Option<string>, d: nat, stop: nat)
    requires d <= stop && Last(TrackPages(pages, albumId, market)(stop))
    requires MoreBefore(TrackPages(pages, albumId, market), d) && Last(TrackPages(pages, albumId, market)(d))
    ensures var answer := TrackPages(pages, albumId, market);
      |TrackLogFrom(pages, albumId, market, 0, stop)|
      == d + 1 + |ItemsBefore(answer, d)| + (if answer(d).Ok? then |answer(d).value.items| else 0)
  {
    TrackLogSplit(pages, albumId, market, d, stop);
  }

  lemma MapPrepend<T, U>(xs: seq<T>, r: Result<seq<T>, string>, f: T -> U)
    ensures MapResult(Prepend(xs, r), f) == Prepend(MapSeq(xs, f), MapResult(r, f))
  {
    if r.Ok? {
      assert MapSeq(xs + r.value, f) == MapSeq(xs, f) + MapSeq(r.value, f);
    }
  }

  /** `get_all_album_tracks`: the listing is paged like the albums, and every listed
      item is looked up in full before the next page is asked for. */
  method FetchAllAlbumTracks(albumId: string, market: Option<string>,
                             pages: ApiRequest -> Result<Page<SpotifyTrackItem>, string>,
                             tracks: ApiRequest -> Result<SpotifyTrack, string>, ghost stop: nat)
    returns (r: Result<seq<AlbumTrack>, string>, ghost sent: seq<ApiRequest>)
    requires Last(TrackPages(pages, albumId, market)(stop))
    ensures r == AlbumTracksOf(pages, tracks, albumId, market, stop)
    ensures sent == TrackLogFrom(pages, albumId, market, 0, stop)
  {
    ghost var answer := TrackPages(pages, albumId, market);
    var offset := 0;
    var all: seq<AlbumTrack> := [];
    ghost var k: nat := 0;
    sent := [];
    while true
      invariant k <= stop && offset == MaxPage * k
      invariant TracksSoFar(pages, tracks, albumId, market, k, stop, all, sent)
      decreases stop - k
    {
      var request := AlbumTracksRequest(albumId, offset, market);
      var response := pages(request);
      assert response == answer(k);
      if response.Err? {
        TracksLast(pages, tracks, albumId, market, k, stop, all, sent);
        sent := sent + [request];
        return Err(response.error), sent;
      }
      var resolved, looked := ResolveItems(response.value.items, tracks, market);
      if response.value.next.None? || |response.value.items| == 0 {
        TracksLast(pages, tracks, albumId, market, k, stop, all, sent);
        all := all + resolved;
        sent := sent + [request] + looked;
        return Ok(all), sent;
      }
      TracksStep(pages, tracks, albumId, market, k, stop, all, sent);
      all := all + resolved;
      sent := sent + [request] + looked;
      offset := offset + MaxPage;
      k := k + 1;
    }
  }

  /** The loop of `get_all_album_tracks` before page `k`: `all` and `sent` are what the
      pages before `k` contributed to the result and to the requests. */
  ghost predicate TracksSoFar(pages: ApiRequest -> Result<Page<SpotifyTrackItem>, string>,
                              tracks: ApiRequest -> Result<SpotifyTrack, string>, albumId: string,
                              market: Option<string>, k: nat, stop: nat, all: seq<AlbumTrack>, sent: seq<ApiRequest>)
    requires k <= stop && Last(TrackPages(pages, albumId, market)(stop))
  {
    var answer := TrackPages(pages, albumId, market);
    MapResult(PagesFrom(answer, 0, stop), Resolver(tracks, market))
      == Prepend(all, MapResult(PagesFrom(answer, k, stop), Resolver(tracks, market)))
    && TrackLogFrom(pages, albumId, market, 0, stop) == sent + TrackLogFrom(pages, albumId, market, k, stop)
  }

  /** A page after which the loop goes on adds its resolved items and its requests. */
  lemma TracksStep(pages: ApiRequest -> Result<Page<SpotifyTrackItem>, string>,
                   tracks: ApiRequest -> Result<SpotifyTrack, string>, albumId: string,
                   market: Option<string>, k: nat, stop: nat, all: seq<AlbumTrack>, sent: seq<ApiRequest>)
    requires k <= stop && Last(TrackPages(pages, albumId, market)(stop))
    requires !Last(TrackPages(pages, albumId, market)(k))
    requires TracksSoFar(pages, tracks, albumId, market, k, stop, all, sent)
    ensures k < stop
    ensures var items := TrackPages(pages, albumId, market)(k).value.items;
      TracksSoFar(pages, tracks, albumId, market, k + 1, stop, all + MapSeq(items, Resolver(tracks, market)),
                  sent + [AlbumTracksRequest(albumId, MaxPage * k, market)] + LookupRequests(items, market))
  {
    var answer := TrackPages(pages, albumId, market);
    var f := Resolver(tracks, market);
    var items := answer(k).value.items;
    PagesStep(answer, k, stop);
    MapPrepend(items, PagesFrom(answer, k + 1, stop), f);
    PrependTwice(all, MapSeq(items, f), MapResult(PagesFrom(answer, k + 1, stop), f));
    TrackLogStep(pages, albumId, market, k, stop);
    var listing := AlbumTracksRequest(albumId, MaxPage * k, market);
    var rest := TrackLogFrom(pages, albumId, market, k + 1, stop);
    assert sent + ([listing] + LookupRequests(items, market) + rest)
        == (sent + [listing] + LookupRequests(items, market)) + rest;
  }

  /** A page after which the loop stops decides the result and the last requests. */
  lemma TracksLast(pages: ApiRequest -> Result<Page<SpotifyTrackItem>, string>,
                   tracks: ApiRequest -> Result<SpotifyTrack, string>, albumId: string,
                   market: Option<string>, k: nat, stop: nat, all: seq<AlbumTrack>, sent: seq<ApiRequest>)
    requires k <= stop && Last(TrackPages(pages, albumId, market)(stop))
    requires Last(TrackPages(pages, albumId, market)(k))
    requires TracksSoFar(pages, tracks, albumId, market, k, stop, all, sent)
    ensures var page := TrackPages(pages, albumId, market)(k);
      var listing := AlbumTracksRequest(albumId, MaxPage * k, market);
      (page.Err? ==>
         (AlbumTracksOf(pages, tracks, albumId, market, stop) == Err(page.error)
          && TrackLogFrom(pages, albumId, market, 0, stop) == sent + [listing]))
      && (page.Ok? ==>
         (AlbumTracksOf(pages, tracks, albumId, market, stop) == Ok(all + MapSeq(page.value.items, Resolver(tracks, market)))
          && TrackLogFrom(pages, albumId, market, 0, stop) == sent + [listing] + LookupRequests(page.value.items, market)))
  {
    var answer := TrackPages(pages, albumId, market);
    PagesLast(answer, k, stop);
    var listing := AlbumTracksRequest(albumId, MaxPage * k, market);
    if answer(k).Ok? {
      var looked := LookupRequests(answer(k).value.items, market);
      assert TrackLogFrom(pages, albumId, market, k, stop) == [listing] + looked + [];
      assert sent + ([listing] + looked + []) == sent + [listing] + looked;
    }
  }

  /** Every listed item yields exactly one track, in listing order: its full record
      when the lookup succeeds, the item itself otherwise. */
  lemma AlbumTracksOneEach(pages: ApiRequest -> Result<Page<SpotifyTrackItem>, string>,
                           tracks: ApiRequest -> Result<SpotifyTrack, string>,
                           albumId: string, market: Option<string>, stop: nat, i: int)
    requires Last(TrackPages(pages, albumId, market)(stop))
    requires AlbumTracksOf(pages, tracks, albumId, market, stop).Ok?
    ensures PagesFrom(TrackPages(pages, albumId, market), 0, stop).Ok?
    ensures var items := PagesFrom(TrackPages(pages, albumId, market), 0, stop).value;
      var r := AlbumTracksOf(pages, tracks, albumId, market, stop).value;
      |r| == |items| &&
      (0 <= i < |items| ==>
        (tracks(TrackRequest(items[i].id, market)).Ok? ==> r[i] == Full(tracks(TrackRequest(items[i].id, market)).value)) &&
        (tracks(TrackRequest(items[i].id, market)).Err? ==> r[i] == Simplified(items[i])))
  {
  }

  // ---------------------------------------------------------------------------
  // All tracks of an artist

  /** What `get_artist_all_tracks` collects from `albums`: each album's tracks in album
      order, or the error of the first album whose tracks could not be listed. */
  function TracksOfAlbums(albums: seq<SpotifyAlbum>, market: Option<string>,
                          pages: ApiRequest -> Result<Page<SpotifyTrackItem>, string>,
                          tracks: ApiRequest -> Result<SpotifyTrack, string>, trackStop: string -> nat)
    : Result<seq<AlbumTrack>, string>
    requires forall albumId :: Last(TrackPages(pages, albumId, market)(trackStop(albumId)))
  {
    if albums == [] then Ok([])
    else
      var first := AlbumTracksOf(pages, tracks, albums[0].id, market, trackStop(albums[0].id));
      if first.Err? then first else Prepend(first.value, TracksOfAlbums(albums[1..], market, pages, tracks, trackStop))
  }

  /** `get_artist_all_tracks`: all albums first, then every album's tracks. */
  method FetchArtistAllTracks(artistId: string, albumTypes: seq<string>, market: Option<string>,
                              albums: ApiRequest -> Result<Page<SpotifyAlbum>, string>, ghost albumStop: nat,
                              pages: ApiRequest -> Result<Page<SpotifyTrackItem>, string>,
                              tracks: ApiRequest -> Result<SpotifyTrack, string>, ghost trackStop: string -> nat)
    returns (r: Result<seq<AlbumTrack>, string>)
    requires Last(AlbumPages(albums, artistId, albumTypes, market)(albumStop))
    requires forall albumId :: Last(TrackPages(pages, albumId, market)(trackStop(albumId)))
    ensures var listed := PagesFrom(AlbumPages(albums, artistId, albumTypes, market), 0, albumStop);
      r == if listed.Err? then Err(listed.error) else TracksOfAlbums(listed.value, market, pages, tracks, trackStop)
  {
    var listed, albumLog := FetchAllArtistAlbums(artistId, albumTypes, market, albums, albumStop);
    if listed.Err? {
      return Err(listed.error);
    }
    var xs := listed.value;
    var all: seq<AlbumTrack> := [];
    for i := 0 to |xs|
      invariant TracksOfAlbums(xs, market, pages, tracks, trackStop)
             == Prepend(all, TracksOfAlbums(xs[i..], market, pages, tracks, trackStop))
    {
      var albumTracks, trackLog := FetchAllAlbumTracks(xs[i].id, market, pages, tracks, trackStop(xs[i].id));
      assert xs[i..][1..] == xs[i + 1..];
      if albumTracks.Err? {
        return Err(albumTracks.error);
      }
      PrependTwice(all, albumTracks.value, TracksOfAlbums(xs[i + 1..], market, pages, tracks, trackStop));
      all := all + albumTracks.value;
    }
    assert all + [] == all;
    return Ok(all);
  }

  // ---------------------------------------------------------------------------
  // Timeline

  function KeepAll(a: SpotifyAlbum): bool { true }

  function ReleaseDate(a: SpotifyAlbum): string { a.releaseDate }

  /** `get_artist_timeline`: every album, under the text of its release date before the
      first "-", years ascending and each year's albums newest first. */
  method GetArtistTimeline(artistId: string, albumTypes: seq<string>, market: Option<string>,
                           albums: ApiRequest -> Result<Page<SpotifyAlbum>, string>, ghost stop: nat)
    returns (r: Result<seq<YearGroup<SpotifyAlbum>>, string>)
    requires Last(AlbumPages(albums, artistId, albumTypes, market)(stop))
    ensures var listed := PagesFrom(AlbumPages(albums, artistId, albumTypes, market), 0, stop);
      r == if listed.Err? then Err(listed.error) else Ok(TimelineOf(listed.value, KeepAll, ReleaseDate, true))
  {
    var listed, albumLog := FetchAllArtistAlbums(artistId, albumTypes, market, albums, stop);
    if listed.Err? {
      return Err(listed.error);
    }
    var timeline := Build(listed.value, KeepAll, ReleaseDate, true);
    return Ok(timeline);
  }

  /** Every album appears in the Spotify timeline, under its year and as often as it
      was listed; each year's albums are sorted by release date, newest first. */
  lemma TimelineHoldsEveryAlbum(xs: seq<SpotifyAlbum>, a: SpotifyAlbum)
    requires a in xs
    ensures var t := TimelineOf(xs, KeepAll, ReleaseDate, true);
      exists k :: 0 <= k < |t| && t[k].year == YearOf(a.releaseDate) && multiset(t[k].items)[a] == multiset(xs)[a]
        && Sorted(t[k].items, ReleaseDate, true)
  {
    var t := TimelineOf(xs, KeepAll, ReleaseDate, true);
    var i :| 0 <= i < |xs| && xs[i] == a;
    assert KeepAll(xs[i]) && YearOf(ReleaseDate(xs[i])) == YearOf(a.releaseDate);
    TimelineHasYear(xs, KeepAll, ReleaseDate, true, YearOf(a.releaseDate));
    var k :| 0 <= k < |t| && t[k].year == YearOf(a.releaseDate);
    TimelineItems(xs, KeepAll, ReleaseDate, true, k, a, "");
  }

  // ---------------------------------------------------------------------------
  // Artist statistics

  /** The five tallies `get_artist_stats` starts from. */
  const CountKeys: set<string> := {"album", "single", "compilation", "appears_on", "total"}

  /** The album type tallies of `xs[..n]`, starting from `total = |albums|`: an album
      adds 1 to the tally named by its type when there is one. */
  function TallyTypes(xs: seq<SpotifyAlbum>, total: int): (m: map<string, int>)
    ensures m.Keys == CountKeys
  {
    if xs == [] then map["album" := 0, "single" := 0, "compilation" := 0, "appears_on" := 0, "total" := total]
    else
      var m := TallyTypes(xs[..|xs| - 1], total);
      var t := xs[|xs| - 1].albumType;
      if t in m then m[t := m[t] + 1] else m
  }

  /** How many albums of `xs` have type `t`. */
  function TypeCount(xs: seq<SpotifyAlbum>, t: string): (n: nat)
    ensures n <= |xs|
  {
    if xs == [] then 0 else TypeCount(xs[..|xs| - 1], t) + (if xs[|xs| - 1].albumType == t then 1 else 0)
  }

  /** The counting loop of `get_artist_stats`. */
  method CountAlbumTypes(albums: seq<SpotifyAlbum>) returns (counts: map<string, int>)
    ensures counts == TallyTypes(albums, |albums|)
  {
    counts := map["album" := 0, "single" := 0, "compilation" := 0, "appears_on" := 0, "total" := |albums|];
    for i := 0 to |albums|
      invariant counts == TallyTypes(albums[..i], |albums|)
    {
      assert albums[..i + 1][..i] == albums[..i];
      if albums[i].albumType in counts {
        counts := counts[albums[i].albumType := counts[albums[i].albumType] + 1];
      }
    }
    assert albums[..|albums|] == albums;
  }

  /** The tallies: each of album, single, compilation and appears_on counts the albums
      of that type; total is the number of albums, plus the albums whose type is the
      text "total" itself, since that type also names a tally. */
  lemma {:induction false} TallyMeaning(xs: seq<SpotifyAlbum>, total: int)
    ensures var m := TallyTypes(xs, total);
      m["album"] == TypeCount(xs, "album") && m["single"] == TypeCount(xs, "single")
      && m["compilation"] == TypeCount(xs, "compilation") && m["appears_on"] == TypeCount(xs, "appears_on")
      && m["total"] == total + TypeCount(xs, "total")
  {
    if xs != [] {
      TallyMeaning(xs[..|xs| - 1], total);
    }
  }

  /** No album is counted under two of the four types, so they sum to at most the
      number of albums. */
  lemma {:induction false} FourTypesBounded(xs: seq<SpotifyAlbum>)
    ensures TypeCount(xs, "album") + TypeCount(xs, "single") + TypeCount(xs, "compilation")
          + TypeCount(xs, "appears_on") <= |xs|
  {
    if xs != [] {
      FourTypesBounded(xs[..|xs| - 1]);
    }
  }

  /** `get_artist_stats`' tallies hold exactly the five keys, total is at least the
      number of albums (exactly that when no album has type "total"), and the four
      type tallies never exceed it. */
  lemma AlbumCountsBounded(albums: seq<SpotifyAlbum>)
    ensures var m := TallyTypes(albums, |albums|);
      m.Keys == CountKeys && m["total"] >= |albums|
      && (TypeCount(albums, "total") == 0 ==> m["total"] == |albums|)
      && m["album"] + m["single"] + m["compilation"] + m["appears_on"] <= m["total"]
  {
    var m := TallyTypes(albums, |albums|);
    TallyMeaning(albums, |albums|);
    FourTypesBounded(albums);
    assert m["album"] + m["single"] + m["compilation"] + m["appears_on"] <= |albums|;
    assert m["total"] == |albums| + TypeCount(albums, "total");
  }

  /** `track.popularity or 0`. */
  function PopularityOrZero(t: SpotifyTrack): int
  {
    if t.popularity.Some? then t.popularity.value else 0
  }

  function PopularitySum(tracks: seq<SpotifyTrack>): int
  {
    if tracks == [] then 0 else PopularitySum(tracks[..|tracks| - 1]) + PopularityOrZero(tracks[|tracks| - 1])
  }

  /** The mean popularity of the top tracks, a missing one counting as 0; 0.0 when
      there are none. */
  function AveragePopularity(tracks: seq<SpotifyTrack>): (avg: real)
    ensures tracks == [] ==> avg == 0.0
    ensures tracks != [] ==> avg * |tracks| as real == PopularitySum(tracks) as real
  {
    if tracks == [] then 0.0 else PopularitySum(tracks) as real / |tracks| as real
  }

  predicate PopularityInRange(t: SpotifyTrack)
  {
    t.popularity.Some? ==> 0 <= t.popularity.value <= 100
  }

  lemma {:induction false} PopularitySumBounded(tracks: seq<SpotifyTrack>)
    requires forall i :: 0 <= i < |tracks| ==> PopularityInRange(tracks[i])
    ensures 0 <= PopularitySum(tracks) <= 100 * |tracks|
  {
    if tracks != [] {
      PopularitySumBounded(tracks[..|tracks| - 1]);
      assert PopularityInRange(tracks[|tracks| - 1]);
    }
  }

  /** With popularities on Spotify's 0..100 scale, so is their average. */
  lemma AveragePopularityBounded(tracks: seq<SpotifyTrack>)
    requires forall i :: 0 <= i < |tracks| ==> PopularityInRange(tracks[i])
    ensures 0.0 <= AveragePopularity(tracks) <= 100.0
  {
    if tracks != [] {
      PopularitySumBounded(tracks);
      MeanBounds(PopularitySum(tracks), |tracks|, 100);
    }
  }

  /** A mean of `n` values in [0, hi] lies in [0, hi]. */
  lemma MeanBounds(sum: int, n: int, hi: int)
    requires 0 < n && 0 <= sum <= hi * n
    ensures 0.0 <= sum as real / n as real <= hi as real
  {
    var q := sum as real / n as real;
    assert q * n as real == sum as real;
    assert (q - hi as real) * n as real == sum as real - (hi * n) as real <= 0.0;
  }

  datatype ArtistStats = ArtistStats(
    artist: SpotifyArtist,
    albumCounts: map<string, int>,
    topTracks: seq<SpotifyTrack>,
    averageTrackPopularity: real,
    genres: seq<string>,
    followers: int,
    popularity: Option<int>)

  /** The statistics of an artist, its albums and its top tracks. */
  function StatsOf(artist: SpotifyArtist, albums: seq<SpotifyAlbum>, top: seq<SpotifyTrack>): (s: ArtistStats)
    ensures s.followers == if artist.followers.Some? then artist.followers.value else 0
  {
    ArtistStats(artist, TallyTypes(albums, |albums|), top, AveragePopularity(top), artist.genres,
                if artist.followers.Some? then artist.followers.value else 0, artist.popularity)
  }

  /** `get_artist_stats`: the artist, then all its albums, then its top tracks, the
      first failing call's error ending it. */
  method GetArtistStats(artistId: string, market: Option<string>,
                        artists: ApiRequest -> Result<SpotifyArtist, string>,
                        albums: ApiRequest -> Result<Page<SpotifyAlbum>, string>, ghost stop: nat,
                        topTracks: ApiRequest -> Result<seq<SpotifyTrack>, string>)
    returns (r: Result<ArtistStats, string>)
    requires Last(AlbumPages(albums, artistId, [], market)(stop))
    ensures var artist := artists(ArtistRequest(artistId));
      var listed := PagesFrom(AlbumPages(albums, artistId, [], market), 0, stop);
      var top := topTracks(TopTracksRequest(artistId, market));
      r == if artist.Err? then Err(artist.error)
           else if listed.Err? then Err(listed.error)
           else if top.Err? then Err(top.error)
           else Ok(StatsOf(artist.value, listed.value, top.value))
  {
    var artist := artists(ArtistRequest(artistId));
    if artist.Err? {
      return Err(artist.error);
    }
    var listed, albumLog := FetchAllArtistAlbums(artistId, [], market, albums, stop);
    if listed.Err? {
      return Err(listed.error);
    }
    var counts := CountAlbumTypes(listed.value);
    var top := topTracks(TopTracksRequest(artistId, market));
    if top.Err? {
      return Err(top.error);
    }
    var avg := if top.value != [] then PopularitySum(top.value) as real / |top.value| as real else 0.0;
    var followers := if artist.value.followers.Some? then artist.value.followers.value else 0;
    return Ok(ArtistStats(artist.value, counts, top.value, avg, artist.value.genres, followers, artist.value.popularity));
  }
}
