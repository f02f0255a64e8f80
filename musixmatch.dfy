/** The Musixmatch client: the API key every request carries, the status check of the
    response header, the wrapping of failures into `MusixmatchError`, the clamped page
    sizes, and the page-number pagination of an artist's tracks with its limit. The web
    service is replaced by its answers and record validation by a parameter. */
module Musixmatch {
  import opened Common

  /** The largest page the API serves. */
  const MaxPageSize := 100

  /** `MusixmatchError(message, status_code)`. */
  datatype MxError = MxError(message: string, statusCode: Option<int>)

  /** One request: the endpoint and the query. */
  datatype MxRequest = MxRequest(endpoint: string, params: map<string, Param>)

  /** What the API answers: `message.header.status_code` and `message.header.hint`,
      each absent when the answer lacks it, and the raw `message.body`. */
  datatype MxResponse = MxResponse(statusCode: Option<int>, hint: Option<string>, body: string)

  // ---------------------------------------------------------------------------
  // `_make_request`

  /** The query `_make_request` sends: the caller's parameters with `apikey` set to the
      client's key, replacing any the caller gave. */
  function WithKey(params: map<string, Param>, apiKey: string): (r: map<string, Param>)
    ensures r.Keys == params.Keys + {"apikey"}
    ensures r["apikey"] == PStr(apiKey)
    ensures forall k :: k in params && k != "apikey" ==> r[k] == params[k]
  {
    params["apikey" := PStr(apiKey)]
  }

  /** The header's status code, 0 when it is missing. */
  function StatusOf(resp: MxResponse): int
  {
    if resp.statusCode.Some? then resp.statusCode.value else 0
  }

  /** The header's hint, "Unknown error" when it is missing (an empty hint is kept). */
  function HintOf(resp: MxResponse): string
  {
    if resp.hint.Some? then resp.hint.value else "Unknown error"
  }

  /** `_make_request`: a failed exchange becomes "Request failed: ...", an answer whose
      status is not 200 becomes "API error: <hint>" carrying that status, and any other
      answer is returned. */
  function MakeRequest(apiKey: string, endpoint: string, params: map<string, Param>,
                       server: MxRequest -> Result<MxResponse, string>): (r: Result<MxResponse, MxError>)
  {
    match server(MxRequest(endpoint, WithKey(params, apiKey)))
    case Err(e) => Err(MxError("Request failed: " + e, None))
    case Ok(resp) =>
      if StatusOf(resp) != 200 then Err(MxError("API error: " + HintOf(resp), Some(StatusOf(resp))))
      else Ok(resp)
  }

  /** The outcomes of `_make_request`: success exactly when the exchange worked and the
      header says 200; a refused answer raises with its status (0 when missing) and its
      hint ("Unknown error" when missing); a failed exchange raises with no status. */
  lemma MakeRequestOutcomes(apiKey: string, endpoint: string, params: map<string, Param>,
                            server: MxRequest -> Result<MxResponse, string>)
    ensures var sent := server(MxRequest(endpoint, WithKey(params, apiKey)));
      var r := MakeRequest(apiKey, endpoint, params, server);
      (r.Ok? <==> sent.Ok? && sent.value.statusCode == Some(200))
      && (r.Ok? ==> r.value == sent.value)
      && (sent.Err? ==> r.error.statusCode.None? && IsPrefix("Request failed: ", r.error.message))
      && (sent.Ok? && r.Err? ==>
            r.error.statusCode == Some(if sent.value.statusCode.Some? then sent.value.statusCode.value else 0)
            && r.error.statusCode != Some(200)
            && r.error.message == "API error: " + (if sent.value.hint.Some? then sent.value.hint.value else "Unknown error"))
  {
    var sent := server(MxRequest(endpoint, WithKey(params, apiKey)));
    if sent.Err? {
      assert ("Request failed: " + sent.error)[..|"Request failed: "|] == "Request failed: ";
    }
  }

  /** The endpoint methods' handling: a `MusixmatchError` from `_make_request` is raised
      unchanged, and a record that fails validation is wrapped with the method's own
      prefix and no status. */
  function Wrap<T>(made: Result<MxResponse, MxError>, parse: MxResponse -> Result<T, string>, prefix: string)
    : (r: Result<T, MxError>)
    ensures made.Err? ==> r == Err(made.error)
    ensures made.Ok? && parse(made.value).Err? ==> r == Err(MxError(prefix + parse(made.value).error, None))
    ensures made.Ok? && parse(made.value).Ok? ==> r == Ok(parse(made.value).value)
  {
    match made
    case Err(e) => Err(e)
    case Ok(resp) =>
      match parse(resp)
      case Err(m) => Err(MxError(prefix + m, None))
      case Ok(x) => Ok(x)
  }

  // ---------------------------------------------------------------------------
  // Endpoints

  /** `min(page_size, 100)`. */
  function PageSize(pageSize: int): (r: int)
    ensures r <= MaxPageSize && r <= pageSize
    ensures r == pageSize || r == MaxPageSize
  {
    Min(pageSize, MaxPageSize)
  }

  function SearchArtistParams(name: string, page: int, pageSize: int): (r: map<string, Param>)
    ensures r.Keys == {"q_artist", "page", "page_size"}
    ensures r["q_artist"] == PStr(name) && r["page"] == PInt(page) && r["page_size"] == PInt(PageSize(pageSize))
  {
    map["q_artist" := PStr(name), "page" := PInt(page), "page_size" := PInt(PageSize(pageSize))]
  }

  /** A text filter, sent only when non-empty (`if query:`). */
  function TextParam(key: string, value: string): (r: map<string, Param>)
    ensures r.Keys == if value == "" then {} else {key}
    ensures value != "" ==> r[key] == PStr(value)
  {
    if value == "" then map[] else map[key := PStr(value)]
  }

  /** The query of `search_tracks`: page, clamped size, rating order and each
      non-empty filter. */
  function SearchTracksParams(query: string, artistName: string, trackName: string, page: int, pageSize: int)
    : (r: map<string, Param>)
    ensures r.Keys == {"page", "page_size", "s_track_rating"} + (if query == "" then {} else {"q"})
                      + (if artistName == "" then {} else {"q_artist"}) + (if trackName == "" then {} else {"q_track"})
    ensures r["page"] == PInt(page) && r["page_size"] == PInt(PageSize(pageSize)) && r["s_track_rating"] == PStr("desc")
    ensures query != "" ==> r["q"] == PStr(query)
    ensures artistName != "" ==> r["q_artist"] == PStr(artistName)
    ensures trackName != "" ==> r["q_track"] == PStr(trackName)
  {
    map["page" := PInt(page), "page_size" := PInt(PageSize(pageSize)), "s_track_rating" := PStr("desc")]
      + TextParam("q", query) + TextParam("q_artist", artistName) + TextParam("q_track", trackName)
  }

  function ArtistTracksParams(artistId: int, page: int, pageSize: int): (r: map<string, Param>)
    ensures r.Keys == {"artist_id", "page", "page_size", "s_track_rating"}
    ensures r["artist_id"] == PInt(artistId) && r["page"] == PInt(page)
    ensures r["page_size"] == PInt(PageSize(pageSize)) && r["s_track_rating"] == PStr("desc")
  {
    map["artist_id" := PInt(artistId), "page" := PInt(page), "page_size" := PInt(PageSize(pageSize)),
        "s_track_rating" := PStr("desc")]
  }

  function LyricsParams(trackId: int): (r: map<string, Param>)
    ensures r.Keys == {"track_id"} && r["track_id"] == PInt(trackId)
  {
    map["track_id" := PInt(trackId)]
  }

  /** `search_artist`. */
  function SearchArtist<T>(apiKey: string, name: string, page: int, pageSize: int,
                           server: MxRequest -> Result<MxResponse, string>, parse: MxResponse -> Result<seq<T>, string>)
    : (r: Result<seq<T>, MxError>)
    ensures var sent := server(MxRequest("/artist.search", WithKey(SearchArtistParams(name, page, pageSize), apiKey)));
      (r.Ok? <==> sent.Ok? && StatusOf(sent.value) == 200 && parse(sent.value).Ok?)
      && (r.Ok? ==> r.value == parse(sent.value).value)
      && (sent.Ok? && StatusOf(sent.value) == 200 && r.Err? ==> r.error == MxError("Artist search failed: " + parse(sent.value).error, None))
  {
    Wrap(MakeRequest(apiKey, "/artist.search", SearchArtistParams(name, page, pageSize), server), parse,
         "Artist search failed: ")
  }

  /** `search_tracks`. */
  function SearchTracks<T>(apiKey: string, query: string, artistName: string, trackName: string, page: int,
                           pageSize: int, server: MxRequest -> Result<MxResponse, string>,
                           parse: MxResponse -> Result<seq<T>, string>)
    : (r: Result<seq<T>, MxError>)
    ensures var sent := server(MxRequest("/track.search", WithKey(SearchTracksParams(query, artistName, trackName, page, pageSize), apiKey)));
      (r.Ok? <==> sent.Ok? && StatusOf(sent.value) == 200 && parse(sent.value).Ok?)
      && (r.Ok? ==> r.value == parse(sent.value).value)
      && (sent.Ok? && StatusOf(sent.value) == 200 && r.Err? ==> r.error == MxError("Track search failed: " + parse(sent.value).error, None))
  {
    Wrap(MakeRequest(apiKey, "/track.search", SearchTracksParams(query, artistName, trackName, page, pageSize), server),
         parse, "Track search failed: ")
  }

  /** `get_artist_tracks`. */
  function GetArtistTracks<T>(apiKey: string, artistId: int, page: int, pageSize: int,
                              server: MxRequest -> Result<MxResponse, string>, parse: MxResponse -> Result<seq<T>, string>)
    : (r: Result<seq<T>, MxError>)
    ensures var sent := server(MxRequest("/track.search", WithKey(ArtistTracksParams(artistId, page, pageSize), apiKey)));
      (r.Ok? <==> sent.Ok? && StatusOf(sent.value) == 200 && parse(sent.value).Ok?)
      && (r.Ok? ==> r.value == parse(sent.value).value)
      && (sent.Ok? && StatusOf(sent.value) == 200 && r.Err? ==> r.error == MxError("Failed to get artist tracks: " + parse(sent.value).error, None))
  {
    Wrap(MakeRequest(apiKey, "/track.search", ArtistTracksParams(artistId, page, pageSize), server), parse,
         "Failed to get artist tracks: ")
  }

  /** `get_track_lyrics`. */
  function GetTrackLyrics<T>(apiKey: string, trackId: int, server: MxRequest -> Result<MxResponse, string>,
                             parse: MxResponse -> Result<T, string>)
    : (r: Result<T, MxError>)
    ensures var sent := server(MxRequest("/track.lyrics.get", WithKey(LyricsParams(trackId), apiKey)));
      (r.Ok? <==> sent.Ok? && StatusOf(sent.value) == 200 && parse(sent.value).Ok?)
      && (r.Ok? ==> r.value == parse(sent.value).value)
      && (sent.Ok? && StatusOf(sent.value) == 200 && r.Err? ==> r.error == MxError("Failed to get track lyrics: " + parse(sent.value).error, None))
  {
    Wrap(MakeRequest(apiKey, "/track.lyrics.get", LyricsParams(trackId), server), parse, "Failed to get track lyrics: ")
  }

  /** Every endpoint sends the client's key, whatever else it asks, and a status other
      than 200 surfaces as the endpoint's error unchanged. */
  lemma ArtistTracksCarryKey<T>(apiKey: string, artistId: int, page: int, pageSize: int,
                                server: MxRequest -> Result<MxResponse, string>, parse: MxResponse -> Result<seq<T>, string>)
    ensures var sent := MxRequest("/track.search", WithKey(ArtistTracksParams(artistId, page, pageSize), apiKey));
      sent.params["apikey"] == PStr(apiKey) && sent.params["page_size"] == PInt(PageSize(pageSize))
      && (server(sent).Ok? && StatusOf(server(sent).value) != 200 ==>
            GetArtistTracks(apiKey, artistId, page, pageSize, server, parse).Err?
            && GetArtistTracks(apiKey, artistId, page, pageSize, server, parse).error.statusCode
               == Some(StatusOf(server(sent).value)))
  {
  }

  // ---------------------------------------------------------------------------
  // `get_all_artist_tracks`: pages 1, 2, 3, ... of `min(100, limit)` tracks while fewer
  // than `limit` are collected; a short page ends the loop as it is, a full page that
  // reaches the limit is cut to exactly `limit`

  /** What the loop returns once `acc` is collected and page `page` is next. */
  function Collect<T>(answer: nat -> Result<seq<T>, MxError>, pageSize: int, limit: int, page: nat, acc: seq<T>)
    : Result<seq<T>, MxError>
    requires pageSize >= 1
    decreases limit - |acc|
  {
    if |acc| >= limit then Ok(acc)
    else
      match answer(page)
      case Err(e) => Err(e)
      case Ok(ts) =>
        var all := acc + ts;
        if |ts| < pageSize then Ok(all)
        else if |all| >= limit then Ok(all[..limit])
        else Collect(answer, pageSize, limit, page + 1, all)
  }

  /** How many pages the loop asks for from page `page` on. */
  function Requests<T>(answer: nat -> Result<seq<T>, MxError>, pageSize: int, limit: int, page: nat, acc: seq<T>): nat
    requires pageSize >= 1
    decreases limit - |acc|
  {
    if |acc| >= limit then 0
    else
      match answer(page)
      case Err(_) => 1
      case Ok(ts) =>
        if |ts| < pageSize || |acc + ts| >= limit then 1
        else 1 + Requests(answer, pageSize, limit, page + 1, acc + ts)
  }

  /** The tracks of pages `page .. page + n - 1`, in order. */
  function ItemsOfPages<T>(answer: nat -> Result<seq<T>, MxError>, page: nat, n: nat): seq<T>
    decreases n
  {
    if n == 0 then [] else (if answer(page).Ok? then answer(page).value else []) + ItemsOfPages(answer, page + 1, n - 1)
  }

  /** The pages of `get_all_artist_tracks`, by page number. */
  function ArtistTrackPages<T>(apiKey: string, artistId: int, limit: int,
                               server: MxRequest -> Result<MxResponse, string>, parse: MxResponse -> Result<seq<T>, string>)
    : nat -> Result<seq<T>, MxError>
  {
    p => GetArtistTracks(apiKey, artistId, p, Min(MaxPageSize, limit), server, parse)
  }

  /** The request `get_artist_tracks` sends for one page. */
  function ArtistTracksRequest(apiKey: string, artistId: int, page: int, pageSize: int): MxRequest
  {
    MxRequest("/track.search", WithKey(ArtistTracksParams(artistId, page, pageSize), apiKey))
  }

  /** The first `n` requests of `get_all_artist_tracks`: pages 1 to `n`. */
  function TrackSearchLog(apiKey: string, artistId: int, pageSize: int, n: nat): (log: seq<MxRequest>)
    ensures |log| == n
  {
    if n == 0 then [] else TrackSearchLog(apiKey, artistId, pageSize, n - 1) + [ArtistTracksRequest(apiKey, artistId, n, pageSize)]
  }

  /** The `i`-th request asks for page `i + 1`. */
  lemma {:induction false} TrackSearchLogAt(apiKey: string, artistId: int, pageSize: int, n: nat, i: nat)
    requires i < n
    ensures TrackSearchLog(apiKey, artistId, pageSize, n)[i] == ArtistTracksRequest(apiKey, artistId, i + 1, pageSize)
  {
    var prev := TrackSearchLog(apiKey, artistId, pageSize, n - 1);
    assert TrackSearchLog(apiKey, artistId, pageSize, n) == prev + [ArtistTracksRequest(apiKey, artistId, n, pageSize)];
    if i < n - 1 {
      TrackSearchLogAt(apiKey, artistId, pageSize, n - 1, i);
      assert (prev + [ArtistTracksRequest(apiKey, artistId, n, pageSize)])[i] == prev[i];
    }
  }

  /** The loop of `get_all_artist_tracks` before page `page`: what it will return and
      how many requests it makes in all, given `acc` and the requests `sent` so far. */
  ghost predicate CollectSoFar<T>(answer: nat -> Result<seq<T>, MxError>, apiKey: string, artistId: int,
                                  pageSize: int, limit: int, page: nat, acc: seq<T>, sent: seq<MxRequest>)
    requires pageSize >= 1 && page >= 1
  {
    Collect(answer, pageSize, limit, 1, []) == Collect(answer, pageSize, limit, page, acc)
    && Requests(answer, pageSize, limit, 1, []) == page - 1 + Requests(answer, pageSize, limit, page, acc)
    && sent == TrackSearchLog(apiKey, artistId, pageSize, page - 1)
  }

  /** One round of the loop that asks for page `page` with fewer than `limit` tracks held. */
  lemma CollectStep<T>(answer: nat -> Result<seq<T>, MxError>, apiKey: string, artistId: int,
                       pageSize: int, limit: int, page: nat, acc: seq<T>, sent: seq<MxRequest>)
    requires pageSize >= 1 && page >= 1 && |acc| < limit
    requires CollectSoFar(answer, apiKey, artistId, pageSize, limit, page, acc, sent)
    ensures answer(page).Err? ==>
      Collect(answer, pageSize, limit, 1, []) == Err(answer(page).error)
      && sent + [ArtistTracksRequest(apiKey, artistId, page, pageSize)]
         == TrackSearchLog(apiKey, artistId, pageSize, Requests(answer, pageSize, limit, 1, []))
    ensures answer(page).Ok? && (|answer(page).value| < pageSize || |acc + answer(page).value| >= limit) ==>
      Collect(answer, pageSize, limit, 1, [])
        == Ok(if |answer(page).value| < pageSize then acc + answer(page).value else (acc + answer(page).value)[..limit])
      && sent + [ArtistTracksRequest(apiKey, artistId, page, pageSize)]
         == TrackSearchLog(apiKey, artistId, pageSize, Requests(answer, pageSize, limit, 1, []))
    ensures answer(page).Ok? && |answer(page).value| >= pageSize && |acc + answer(page).value| < limit ==>
      CollectSoFar(answer, apiKey, artistId, pageSize, limit, page + 1, acc + answer(page).value,
                   sent + [ArtistTracksRequest(apiKey, artistId, page, pageSize)])
  {
  }

  /** `get_all_artist_tracks`; `sent` is the requests it makes, in order. */
  method GetAllArtistTracks<T>(apiKey: string, artistId: int, limit: int,
                               server: MxRequest -> Result<MxResponse, string>, parse: MxResponse -> Result<seq<T>, string>)
    returns (r: Result<seq<T>, MxError>, ghost sent: seq<MxRequest>)
    ensures limit <= 0 ==> r == Ok([]) && sent == []
    ensures limit > 0 ==> r == Collect(ArtistTrackPages(apiKey, artistId, limit, server, parse), Min(MaxPageSize, limit), limit, 1, [])
    ensures limit > 0 ==> sent == TrackSearchLog(apiKey, artistId, Min(MaxPageSize, limit),
                                                 Requests(ArtistTrackPages(apiKey, artistId, limit, server, parse), Min(MaxPageSize, limit), limit, 1, []))
  {
    ghost var answer := ArtistTrackPages(apiKey, artistId, limit, server, parse);
    var all: seq<T> := [];
    var page := 1;
    var pageSize := Min(MaxPageSize, limit);
    sent := [];
    if limit <= 0 {
      return Ok(all), sent;
    }
    while |all| < limit
      invariant page >= 1
      invariant CollectSoFar(answer, apiKey, artistId, pageSize, limit, page, all, sent)
      decreases limit - |all|
    {
      var tracks := GetArtistTracks(apiKey, artistId, page, pageSize, server, parse);
      assert tracks == answer(page);
      CollectStep(answer, apiKey, artistId, pageSize, limit, page, all, sent);
      sent := sent + [ArtistTracksRequest(apiKey, artistId, page, pageSize)];
      if tracks.Err? {
        return Err(tracks.error), sent;
      }
      all := all + tracks.value;
      if |tracks.value| < pageSize {
        return Ok(all), sent;
      }
      page := page + 1;
      if |all| >= limit {
        all := all[..limit];
        return Ok(all), sent;
      }
    }
    return Ok(all), sent;
  }

  /** The result is everything the requested pages held, in page order, or its first
      `limit` tracks when a full page reached the limit. */
  lemma {:induction false} CollectMeaning<T>(answer: nat -> Result<seq<T>, MxError>, pageSize: int, limit: int,
                                             page: nat, acc: seq<T>)
    requires pageSize >= 1
    requires Collect(answer, pageSize, limit, page, acc).Ok?
    ensures var r := Collect(answer, pageSize, limit, page, acc).value;
      var fetched := acc + ItemsOfPages(answer, page, Requests(answer, pageSize, limit, page, acc));
      r == fetched || (|r| == limit && IsPrefix(r, fetched))
    decreases limit - |acc|
  {
    if |acc| < limit {
      var ts := answer(page).value;
      assert ItemsOfPages(answer, page, 1) == ts + [];
      if |ts| >= pageSize && |acc + ts| < limit {
        var n := Requests(answer, pageSize, limit, page + 1, acc + ts);
        CollectMeaning(answer, pageSize, limit, page + 1, acc + ts);
        assert ItemsOfPages(answer, page, n + 1) == ts + ItemsOfPages(answer, page + 1, n);
        assert acc + ItemsOfPages(answer, page, n + 1) == (acc + ts) + ItemsOfPages(answer, page + 1, n);
      } else if |ts| >= pageSize {
        assert ts + [] == ts;
      } else {
        assert ts + [] == ts;
      }
    } else {
      assert acc + ItemsOfPages(answer, page, 0) == acc;
    }
  }

  /** Every request but the last got a full page, and the loop never asks for a page
      once it holds `limit` tracks: with a positive limit it asks at least once. */
  lemma {:induction false} RequestsBounded<T>(answer: nat -> Result<seq<T>, MxError>, pageSize: int, limit: int,
                                              page: nat, acc: seq<T>)
    requires pageSize >= 1
    ensures Requests(answer, pageSize, limit, page, acc) == 0 <==> |acc| >= limit
    ensures Requests(answer, pageSize, limit, page, acc) * pageSize <= Max(0, limit - |acc|) + pageSize - 1
            || |acc| >= limit
    decreases limit - |acc|
  {
    if |acc| < limit && answer(page).Ok? {
      var ts := answer(page).value;
      if |ts| >= pageSize && |acc + ts| < limit {
        RequestsBounded(answer, pageSize, limit, page + 1, acc + ts);
      }
    }
  }

  /** A short page ends the loop without a cut, so the result can run past `limit`, by
      fewer than one page: at most `limit + pageSize - 1` tracks. */
  lemma {:induction false} CollectBounded<T>(answer: nat -> Result<seq<T>, MxError>, pageSize: int, limit: int,
                                             page: nat, acc: seq<T>)
    requires pageSize >= 1 && |acc| < limit
    requires Collect(answer, pageSize, limit, page, acc).Ok?
    ensures |Collect(answer, pageSize, limit, page, acc).value| < limit + pageSize
    decreases limit - |acc|
  {
    var ts := answer(page).value;
    if |ts| >= pageSize && |acc + ts| < limit {
      CollectBounded(answer, pageSize, limit, page + 1, acc + ts);
    }
  }

  /** With `limit <= 100` the page size is the limit itself, so the first page already
      settles the result, and it never exceeds `limit`. */
  lemma SmallLimitRespected<T>(answer: nat -> Result<seq<T>, MxError>, limit: int)
    requires 0 < limit <= MaxPageSize
    requires Collect(answer, Min(MaxPageSize, limit), limit, 1, []).Ok?
    ensures |Collect(answer, Min(MaxPageSize, limit), limit, 1, []).value| <= limit
    ensures Requests(answer, Min(MaxPageSize, limit), limit, 1, []) == 1
  {
    assert [] + answer(1).value == answer(1).value;
  }

  /** With `limit = 150` a full first page and a 99-track second page give 199 tracks. */
  lemma LargeLimitOvershoots()
    ensures var answer: nat -> Result<seq<int>, MxError> := p => if p == 1 then Ok(seq(100, i => i)) else Ok(seq(99, i => i));
      Collect(answer, Min(MaxPageSize, 150), 150, 1, []).Ok?
      && |Collect(answer, Min(MaxPageSize, 150), 150, 1, []).value| == 199
  {
    var answer: nat -> Result<seq<int>, MxError> := p => if p == 1 then Ok(seq(100, i => i)) else Ok(seq(99, i => i));
    var first := [] + seq(100, i => i);
    assert |first| == 100;
    assert Collect(answer, 100, 150, 1, []) == Collect(answer, 100, 150, 2, first);
    assert Collect(answer, 100, 150, 2, first) == Ok(first + seq(99, i => i));
  }
}
