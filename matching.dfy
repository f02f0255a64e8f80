/** Matching entities across the two providers: names are normalised and compared with
    difflib's ratio, the best-scoring search result is kept if it clears a threshold,
    and an artist's Spotify and MusicBrainz data are lined up side by side.

    A search is answered by the service; here a search is a function from the arguments
    of the client's search method to the results that come back, or to the error the
    client raises. */
module Matching {
  import opened Common
  import opened Models
  import opened MusicBrainz

  // ---------------------------------------------------------------------------
  // normalize_name

  /** The regular expression class `\w` on ASCII: letters, digits and the underscore. */
  predicate IsWordChar(c: char) { IsAsciiAlnum(c) || c == '_' }

  /** A character `normalize_name` can leave in its output besides the space. */
  predicate NameChar(c: char) { IsAsciiLower(c) || IsAsciiDigit(c) || c == '_' }

  /** `re.sub(r"[^\w\s]", "", s)`: drops every character that is neither a word
      character nor whitespace, keeping the others in order. */
  function DropSymbols(s: string): (r: string)
    ensures |r| <= |s|
    ensures forall i :: 0 <= i < |r| ==> IsWordChar(r[i]) || IsSpace(r[i])
    ensures NoUpper(s) ==> NoUpper(r)
  {
    if s == [] then []
    else (if IsWordChar(s[0]) || IsSpace(s[0]) then [s[0]] else []) + DropSymbols(s[1..])
  }

  lemma {:induction false} DropSymbolsKeeps(s: string)
    requires forall i :: 0 <= i < |s| ==> IsWordChar(s[i]) || IsSpace(s[i])
    ensures DropSymbols(s) == s
  {
    if s != [] {
      DropSymbolsKeeps(s[1..]);
      assert [s[0]] + s[1..] == s;
    }
  }

  /** `normalize_name`: lower-case, drop symbols, collapse whitespace runs to one space,
      strip. */
  function NormalizeName(name: string): (r: string)
  {
    CollapseAndStrip(DropSymbols(Lower(name)))
  }

  lemma LoweredWordsShape(name: string)
    ensures CharsOrSpace(DropSymbols(Lower(name)), NameChar)
  {
    LowerIdempotent(name);
  }

  /** The output has no leading, trailing or repeated whitespace, and every whitespace
      character in it is a plain space. */
  lemma NormalizeNameTidy(name: string)
    ensures Tidy(NormalizeName(name))
  {
    CollapseAndStripTidy(DropSymbols(Lower(name)));
  }

  /** The output is lower-case and made of word characters and spaces only. */
  lemma NormalizeNameChars(name: string)
    ensures var r := NormalizeName(name);
      NoUpper(r) && forall i :: 0 <= i < |r| ==> NameChar(r[i]) || r[i] == ' '
  {
    var d := DropSymbols(Lower(name));
    LoweredWordsShape(name);
    CollapseAndStripKeeps(d, NameChar);
    var r := CollapseAndStrip(d);
    assert r == NormalizeName(name);
    NameCharsNoUpper(r);
  }

  lemma NameCharsNoUpper(r: string)
    requires forall i :: 0 <= i < |r| ==> NameChar(r[i]) || r[i] == ' '
    ensures NoUpper(r)
  {
  }

  /** Normalising a normalised name changes nothing. */
  lemma NormalizeNameIdempotent(name: string)
    ensures NormalizeName(NormalizeName(name)) == NormalizeName(name)
  {
    var r := NormalizeName(name);
    NormalizeNameTidy(name);
    NormalizeNameChars(name);
    LowerIdempotent(r);
    assert Lower(r) == r;
    forall i | 0 <= i < |r| ensures IsWordChar(r[i]) || IsSpace(r[i]) {
      assert NameChar(r[i]) || r[i] == ' ';
    }
    DropSymbolsKeeps(r);
    assert DropSymbols(Lower(r)) == r;
    CollapseAndStripFixpoint(r);
  }

  // ---------------------------------------------------------------------------
  // name_similarity

  /** The total size of the matching blocks difflib's `SequenceMatcher` finds between two
      strings, left uninterpreted. It never exceeds either length, and a string shorter
      than 200 characters (below difflib's "popular element" heuristic) matches itself
      completely. */
  type BlockCount = f: (string, string) -> nat
    | (forall a, b :: f(a, b) <= |a| && f(a, b) <= |b|) && (forall a :: |a| < 200 ==> f(a, a) == |a|)
    witness (a: string, b: string) => if a == b then |a| else 0

  /** `SequenceMatcher(None, a, b).ratio()`: twice the matched characters over the total
      length, 1.0 for two empty strings. */
  function Ratio(m: BlockCount, a: string, b: string): (r: real)
    ensures 0.0 <= r <= 1.0
    ensures a == b && |a| < 200 ==> r == 1.0
  {
    if |a| + |b| == 0 then 1.0
    else
      var total := (|a| + |b|) as real;
      var matched := (2 * m(a, b)) as real;
      FractionBounds(matched, total);
      matched / total
  }

  /** A fraction whose numerator lies between 0 and its positive denominator lies in
      [0, 1], and is 1 when the two are equal. */
  lemma FractionBounds(x: real, y: real)
    requires 0.0 <= x <= y && y > 0.0
    ensures 0.0 <= x / y <= 1.0
    ensures x == y ==> x / y == 1.0
  {
    assert x / y * y == x;
  }

  /** `name_similarity`: the ratio of the two normalised names. */
  function NameSimilarity(m: BlockCount, name1: string, name2: string): (r: real)
    ensures 0.0 <= r <= 1.0
    ensures NormalizeName(name1) == NormalizeName(name2) && |NormalizeName(name1)| < 200 ==> r == 1.0
  {
    Ratio(m, NormalizeName(name1), NormalizeName(name2))
  }

  /** Names that normalise alike, such as ones differing only in case, punctuation or
      spacing, score 1.0. */
  lemma SameNameScoresOne(m: BlockCount, name: string)
    requires |NormalizeName(name)| < 200
    ensures NameSimilarity(m, name, Lower(name)) == 1.0
  {
    LowerIdempotent(name);
    assert Lower(Lower(name)) == Lower(name);
  }

  // ---------------------------------------------------------------------------
  // The best-match loop of the find_* functions

  /** The index the loop `if score > best_score` settles on, starting from 0.0: the first
      index holding the largest score, or -1 when no score is positive. */
  function BestAt(scores: seq<real>): (r: int)
    ensures -1 <= r < |scores|
  {
    if scores == [] then -1
    else
      var i := BestAt(scores[..|scores| - 1]);
      if scores[|scores| - 1] > (if i < 0 then 0.0 else scores[i]) then |scores| - 1 else i
  }

  /** `best_score` after the loop. */
  function BestScore(scores: seq<real>): real
  {
    var i := BestAt(scores);
    if i < 0 then 0.0 else scores[i]
  }

  /** The chosen index holds a positive score no other score exceeds, and every earlier
      score is strictly smaller: ties go to the first candidate. */
  lemma {:induction false} BestAtIsFirstMax(scores: seq<real>)
    ensures var i := BestAt(scores);
      i >= 0 ==> (scores[i] > 0.0
                  && (forall j :: 0 <= j < |scores| ==> scores[j] <= scores[i])
                  && (forall j :: 0 <= j < i ==> scores[j] < scores[i]))
  {
    if scores != [] {
      var init := scores[..|scores| - 1];
      BestAtIsFirstMax(init);
      BestAtNone(init);
    }
  }

  /** No candidate is chosen exactly when no score is positive. */
  lemma {:induction false} BestAtNone(scores: seq<real>)
    ensures BestAt(scores) == -1 <==> forall j :: 0 <= j < |scores| ==> scores[j] <= 0.0
  {
    if scores != [] {
      BestAtNone(scores[..|scores| - 1]);
    }
  }

  /** What a find_* function returns: the best candidate when its score reaches the
      threshold, else nothing. */
  function Chosen<T>(candidates: seq<T>, score: T -> real, threshold: real): Option<T>
  {
    var i := BestAt(MapSeq(candidates, score));
    if i >= 0 && score(candidates[i]) >= threshold then Some(candidates[i]) else None
  }

  /** A candidate comes back exactly when some candidate has a positive score that reaches
      the threshold and that no other candidate beats; it is then the first such one. */
  lemma ChosenMeaning<T>(candidates: seq<T>, score: T -> real, threshold: real)
    ensures Chosen(candidates, score, threshold).Some? <==>
      exists i :: 0 <= i < |candidates| && IsBest(candidates, score, i) && score(candidates[i]) >= threshold
    ensures Chosen(candidates, score, threshold).Some? ==>
      exists i :: 0 <= i < |candidates| && IsBest(candidates, score, i)
        && candidates[i] == Chosen(candidates, score, threshold).value
        && (forall j :: 0 <= j < i ==> score(candidates[j]) < score(candidates[i]))
  {
    var s := MapSeq(candidates, score);
    var b := BestAt(s);
    BestAtIsFirstMax(s);
    BestAtNone(s);
    if b >= 0 {
      assert IsBest(candidates, score, b);
    }
    if exists i :: 0 <= i < |candidates| && IsBest(candidates, score, i) && score(candidates[i]) >= threshold {
      var i :| 0 <= i < |candidates| && IsBest(candidates, score, i) && score(candidates[i]) >= threshold;
      assert s[i] > 0.0;
      assert s[b] >= s[i] && s[i] >= s[b];
    }
  }

  /** A chosen candidate is one of the candidates, and its score reaches the threshold. */
  lemma ChosenSound<T>(candidates: seq<T>, score: T -> real, threshold: real)
    ensures var c := Chosen(candidates, score, threshold);
      c.Some? ==> c.value in candidates && score(c.value) >= threshold
  {
  }

  /** Candidate `i` has a positive score that no candidate exceeds. */
  predicate IsBest<T>(candidates: seq<T>, score: T -> real, i: int)
    requires 0 <= i < |candidates|
  {
    score(candidates[i]) > 0.0 && forall j :: 0 <= j < |candidates| ==> score(candidates[j]) <= score(candidates[i])
  }

  /** The loop shared by `find_musicbrainz_artist`, `_release` and `_release_group` and
      by the per-track search of `find_track_matches`: an empty result list gives None,
      otherwise the strict `>` scan from 0.0, then the threshold test. */
  method BestMatch<T>(candidates: seq<T>, score: T -> real, threshold: real) returns (r: Option<T>, bestScore: real)
    ensures r == Chosen(candidates, score, threshold)
    ensures bestScore == BestScore(MapSeq(candidates, score))
  {
    ghost var s := MapSeq(candidates, score);
    bestScore := 0.0;
    if candidates == [] {
      return None, bestScore;
    }
    var best: Option<T> := None;
    var i := 0;
    while i < |candidates|
      invariant 0 <= i <= |candidates|
      invariant bestScore == BestScore(s[..i])
      invariant best == (if BestAt(s[..i]) < 0 then None else Some(candidates[BestAt(s[..i])]))
    {
      assert s[..i + 1][..i] == s[..i];
      var sc := score(candidates[i]);
      if sc > bestScore {
        bestScore := sc;
        best := Some(candidates[i]);
      }
      i := i + 1;
    }
    assert s[..i] == s;
    if best.Some? && bestScore >= threshold {
      r := best;
    } else {
      r := None;
    }
  }

  /** The default `similarity_threshold`. */
  const DefaultThreshold: real := 0.85

  /** What a find_* function hands the client's search method: the text searched for
      and, as a filter, the artist id when one is given (`if artist_id:`). The client
      turns these into query parameters (`SearchReleasesParams` and its siblings); here
      the service's answer is a function of them. */
  datatype SearchArgs = SearchArgs(query: string, artistId: Option<string>)

  function Filtered(query: string, artistId: Option<string>): (a: SearchArgs)
    ensures a.query == query
    ensures a.artistId.Some? <==> Given(artistId)
  {
    SearchArgs(query, if Given(artistId) then artistId else None)
  }

  /** `find_musicbrainz_artist`: searches the Spotify artist's name, keeps the artist whose
      name is most similar. `search` is the service's answer to a search; a search that
      raises ends the call with the client's error. */
  method FindMusicBrainzArtist(m: BlockCount, artist: SpotifyArtist, search: string -> Result<seq<MbArtist>, Failure>,
                               threshold: real) returns (r: Result<Option<MbArtist>, string>)
    ensures var results := search(artist.name);
      results.Err? ==> r == Err(ArtistSearchFailed + FailureText(results.error))
    ensures var results := search(artist.name);
      results.Ok? ==> r == Ok(Chosen(results.value, (a: MbArtist) => NameSimilarity(m, artist.name, a.name), threshold))
    ensures r.Ok? && r.value.Some? ==>
      r.value.value in search(artist.name).value
      && NameSimilarity(m, artist.name, r.value.value.name) >= threshold
  {
    var results := search(artist.name);
    if results.Err? {
      return Err(ArtistSearchFailed + FailureText(results.error));
    }
    var score := (a: MbArtist) => NameSimilarity(m, artist.name, a.name);
    ChosenSound(results.value, score, threshold);
    var best, bestScore := BestMatch(results.value, score, threshold);
    r := Ok(best);
  }

  /** `find_musicbrainz_release`: searches the album's title, filtered by the artist when
      one is given. */
  method FindMusicBrainzRelease(m: BlockCount, album: SpotifyAlbum, search: SearchArgs -> Result<seq<MbRelease>, Failure>,
                                artistId: Option<string>, threshold: real) returns (r: Result<Option<MbRelease>, string>)
    ensures var results := search(Filtered(album.name, artistId));
      results.Err? ==> r == Err(ReleaseSearchFailed + FailureText(results.error))
    ensures var results := search(Filtered(album.name, artistId));
      results.Ok? ==> r == Ok(Chosen(results.value, (x: MbRelease) => NameSimilarity(m, album.name, x.title), threshold))
    ensures r.Ok? && r.value.Some? ==>
      r.value.value in search(Filtered(album.name, artistId)).value
      && NameSimilarity(m, album.name, r.value.value.title) >= threshold
  {
    var results := search(Filtered(album.name, artistId));
    if results.Err? {
      return Err(ReleaseSearchFailed + FailureText(results.error));
    }
    var score := (x: MbRelease) => NameSimilarity(m, album.name, x.title);
    ChosenSound(results.value, score, threshold);
    var best, bestScore := BestMatch(results.value, score, threshold);
    r := Ok(best);
  }

  function ReleaseGroupQuery(album: SpotifyAlbum, artistId: Option<string>): SearchArgs
  {
    Filtered(album.name, artistId)
  }

  function TitleScore(m: BlockCount, name: string): MbReleaseGroup -> real
  {
    (g: MbReleaseGroup) => NameSimilarity(m, name, g.title)
  }

  /** `find_musicbrainz_release_group`: searches the album's title among release groups,
      filtered by the artist when one is given. */
  method FindMusicBrainzReleaseGroup(m: BlockCount, album: SpotifyAlbum,
                                     search: SearchArgs -> Result<seq<MbReleaseGroup>, Failure>,
                                     artistId: Option<string>, threshold: real) returns (r: Result<Option<MbReleaseGroup>, string>)
    ensures var results := search(ReleaseGroupQuery(album, artistId));
      results.Err? ==> r == Err(ReleaseGroupSearchFailed + FailureText(results.error))
    ensures var results := search(ReleaseGroupQuery(album, artistId));
      results.Ok? ==> r == Ok(Chosen(results.value, TitleScore(m, album.name), threshold))
    ensures r.Ok? && r.value.Some? ==>
      r.value.value in search(ReleaseGroupQuery(album, artistId)).value
      && NameSimilarity(m, album.name, r.value.value.title) >= threshold
  {
    var results := search(ReleaseGroupQuery(album, artistId));
    if results.Err? {
      return Err(ReleaseGroupSearchFailed + FailureText(results.error));
    }
    var score := TitleScore(m, album.name);
    ChosenSound(results.value, score, threshold);
    var best, bestScore := BestMatch(results.value, score, threshold);
    r := Ok(best);
  }

  // ---------------------------------------------------------------------------
  // find_track_matches

  datatype TrackMatch = TrackMatch(track: SpotifyTrack, recording: MbRecording, score: real)

  function RecordingQuery(track: SpotifyTrack, artistId: Option<string>): SearchArgs
  {
    Filtered(track.name, artistId)
  }

  function RecordingScore(m: BlockCount, track: SpotifyTrack): MbRecording -> real
  {
    (x: MbRecording) => NameSimilarity(m, track.name, x.title)
  }

  /** The entry `find_track_matches` stores for one track, if any; a search that raised
      has none, since it ends the loop. */
  function TrackEntry(m: BlockCount, track: SpotifyTrack, search: SearchArgs -> Result<seq<MbRecording>, Failure>,
                      artistId: Option<string>, threshold: real): Option<TrackMatch>
  {
    var results := Items(search(RecordingQuery(track, artistId)));
    var c := Chosen(results, RecordingScore(m, track), threshold);
    if c.Some? then Some(TrackMatch(track, c.value, BestScore(MapSeq(results, RecordingScore(m, track)))))
    else None
  }

  /** A stored match is the chosen recording of that track's search, its score is the
      recording's similarity and reaches the threshold; an empty search stores nothing. */
  lemma TrackEntryMeaning(m: BlockCount, track: SpotifyTrack, search: SearchArgs -> Result<seq<MbRecording>, Failure>,
                          artistId: Option<string>, threshold: real)
    ensures var e := TrackEntry(m, track, search, artistId, threshold);
      e.Some? ==> (e.value.track == track
                   && e.value.recording in Items(search(RecordingQuery(track, artistId)))
                   && e.value.score == NameSimilarity(m, track.name, e.value.recording.title)
                   && e.value.score >= threshold)
    ensures Items(search(RecordingQuery(track, artistId))) == [] ==> TrackEntry(m, track, search, artistId, threshold).None?
  {
    var results := Items(search(RecordingQuery(track, artistId)));
    var s := MapSeq(results, RecordingScore(m, track));
    BestAtIsFirstMax(s);
  }

  function EntryOf(m: BlockCount, search: SearchArgs -> Result<seq<MbRecording>, Failure>, artistId: Option<string>,
                   threshold: real): SpotifyTrack -> Option<TrackMatch>
  {
    (t: SpotifyTrack) => TrackEntry(m, t, search, artistId, threshold)
  }

  /** The error a track's recording search raises, if it does. */
  function RecordingFailure(search: SearchArgs -> Result<seq<MbRecording>, Failure>, artistId: Option<string>)
    : SpotifyTrack -> Option<string>
  {
    (t: SpotifyTrack) => ErrorOf(Wrapped(RecordingSearchFailed, search(RecordingQuery(t, artistId))))
  }

  /** The dictionary a loop `if e: d[t.id] = e` fills over `tracks`: a later track with
      the same id overwrites an earlier entry. */
  function Tabulate<V>(tracks: seq<SpotifyTrack>, entry: SpotifyTrack -> Option<V>): map<string, V>
  {
    if tracks == [] then map[]
    else
      var t := tracks[|tracks| - 1];
      var prev := Tabulate(tracks[..|tracks| - 1], entry);
      if entry(t).Some? then prev[t.id := entry(t).value] else prev
  }

  lemma TabulateStep<V>(tracks: seq<SpotifyTrack>, i: int, entry: SpotifyTrack -> Option<V>)
    requires 0 <= i < |tracks|
    ensures Tabulate(tracks[..i + 1], entry)
         == if entry(tracks[i]).Some? then Tabulate(tracks[..i], entry)[tracks[i].id := entry(tracks[i]).value]
            else Tabulate(tracks[..i], entry)
  {
    assert tracks[..i + 1][..i] == tracks[..i];
  }

  /** A track id is a key exactly when some track with that id has an entry; the value is
      the entry of the last such track. */
  lemma {:induction false} TabulateKeys<V>(tracks: seq<SpotifyTrack>, entry: SpotifyTrack -> Option<V>, id: string)
    ensures id in Tabulate(tracks, entry) <==>
      exists i :: 0 <= i < |tracks| && tracks[i].id == id && entry(tracks[i]).Some?
    ensures id in Tabulate(tracks, entry) ==>
      exists i :: 0 <= i < |tracks| && tracks[i].id == id && entry(tracks[i]) == Some(Tabulate(tracks, entry)[id])
        && forall j :: i < j < |tracks| && tracks[j].id == id ==> entry(tracks[j]).None?
  {
    if tracks != [] {
      var init := tracks[..|tracks| - 1];
      var t := tracks[|tracks| - 1];
      TabulateKeys(init, entry, id);
      if exists i :: 0 <= i < |init| && init[i].id == id && entry(init[i]).Some? {
        var i :| 0 <= i < |init| && init[i].id == id && entry(init[i]).Some?;
        assert tracks[i] == init[i];
      }
      if id in Tabulate(init, entry) && !(t.id == id && entry(t).Some?) {
        var i :| 0 <= i < |init| && init[i].id == id && entry(init[i]) == Some(Tabulate(init, entry)[id])
          && forall j :: i < j < |init| && init[j].id == id ==> entry(init[j]).None?;
        assert tracks[i] == init[i];
        forall j | i < j < |tracks| && tracks[j].id == id
          ensures entry(tracks[j]).None?
        {
          if j < |init| { assert init[j] == tracks[j]; }
        }
      }
      if exists i :: 0 <= i < |tracks| && tracks[i].id == id && entry(tracks[i]).Some? {
        var i :| 0 <= i < |tracks| && tracks[i].id == id && entry(tracks[i]).Some?;
        if i < |init| { assert init[i] == tracks[i]; }
      }
    }
  }

  /** Every stored entry belongs to a track with that id, holds the recording chosen for
      it, and its score is that recording's similarity and reaches the threshold. */
  lemma TrackMatchesScores(m: BlockCount, tracks: seq<SpotifyTrack>, search: SearchArgs -> Result<seq<MbRecording>, Failure>,
                           artistId: Option<string>, threshold: real, id: string)
    requires id in Tabulate(tracks, EntryOf(m, search, artistId, threshold))
    ensures var e := Tabulate(tracks, EntryOf(m, search, artistId, threshold))[id];
      e.track.id == id && e.score >= threshold
      && e.score == NameSimilarity(m, e.track.name, e.recording.title)
      && e.recording in Items(search(RecordingQuery(e.track, artistId)))
  {
    var entry := EntryOf(m, search, artistId, threshold);
    TabulateKeys(tracks, entry, id);
    var i :| 0 <= i < |tracks| && tracks[i].id == id && entry(tracks[i]) == Some(Tabulate(tracks, entry)[id])
      && forall j :: i < j < |tracks| && tracks[j].id == id ==> entry(tracks[j]).None?;
    TrackEntryMeaning(m, tracks[i], search, artistId, threshold);
  }

  /** A track whose search comes back empty adds no entry. */
  lemma NoResultsNoEntry(m: BlockCount, tracks: seq<SpotifyTrack>, search: SearchArgs -> Result<seq<MbRecording>, Failure>,
                         artistId: Option<string>, threshold: real, id: string)
    requires forall i :: 0 <= i < |tracks| && tracks[i].id == id ==> search(RecordingQuery(tracks[i], artistId)) == Ok([])
    ensures id !in Tabulate(tracks, EntryOf(m, search, artistId, threshold))
  {
    var entry := EntryOf(m, search, artistId, threshold);
    TabulateKeys(tracks, entry, id);
    forall i | 0 <= i < |tracks| && tracks[i].id == id
      ensures entry(tracks[i]).None?
    {
      TrackEntryMeaning(m, tracks[i], search, artistId, threshold);
    }
  }

  /** The body of the loop of `find_track_matches` for one track: the search, then the
      best match if it clears the threshold. */
  method MatchTrack(m: BlockCount, track: SpotifyTrack, search: SearchArgs -> Result<seq<MbRecording>, Failure>,
                    artistId: Option<string>, threshold: real) returns (e: Result<Option<TrackMatch>, string>)
    ensures e.Err? <==> RecordingFailure(search, artistId)(track).Some?
    ensures e.Err? ==> e.error == RecordingFailure(search, artistId)(track).value
    ensures e.Ok? ==> e.value == EntryOf(m, search, artistId, threshold)(track)
  {
    var results := search(RecordingQuery(track, artistId));
    if results.Err? {
      return Err(RecordingSearchFailed + FailureText(results.error));
    }
    e := Ok(None);
    if results.value != [] {
      var best, bestScore := BestMatch(results.value, RecordingScore(m, track), threshold);
      if best.Some? {
        e := Ok(Some(TrackMatch(track, best.value, bestScore)));
      }
    }
  }

  /** `find_track_matches`: one search per track, the best recording stored under the
      track's id when it clears the threshold; the first search that raises ends the
      call with its error. */
  method FindTrackMatches(m: BlockCount, tracks: seq<SpotifyTrack>, search: SearchArgs -> Result<seq<MbRecording>, Failure>,
                          artistId: Option<string>, threshold: real) returns (r: Result<map<string, TrackMatch>, string>)
    ensures var failure := FirstFailure(tracks, RecordingFailure(search, artistId));
      r == if failure.Some? then Err(failure.value) else Ok(Tabulate(tracks, EntryOf(m, search, artistId, threshold)))
  {
    var entry := EntryOf(m, search, artistId, threshold);
    var fails := RecordingFailure(search, artistId);
    var matches := map[];
    var i := 0;
    while i < |tracks|
      invariant 0 <= i <= |tracks|
      invariant FirstFailure(tracks[..i], fails).None?
      invariant matches == Tabulate(tracks[..i], entry)
    {
      var e := MatchTrack(m, tracks[i], search, artistId, threshold);
      if e.Err? {
        FirstFailureAt(tracks, i, fails);
        return Err(e.error);
      }
      FirstFailureNext(tracks, i, fails);
      TabulateStep(tracks, i, entry);
      if e.value.Some? {
        matches := matches[tracks[i].id := e.value.value];
      }
      i := i + 1;
    }
    assert tracks[..i] == tracks;
    r := Ok(matches);
  }

  // ---------------------------------------------------------------------------
  // compare_artist_data

  datatype AlbumMatch = AlbumMatch(album: SpotifyAlbum, releaseGroup: MbReleaseGroup, score: real)

  /** What the album loop appends for one album: its release group match, scored again
      with `name_similarity`. */
  function AlbumEntry(m: BlockCount, search: SearchArgs -> Result<seq<MbReleaseGroup>, Failure>, artistId: Option<string>)
    : SpotifyAlbum -> Option<AlbumMatch>
  {
    (a: SpotifyAlbum) =>
      var c := Chosen(Items(search(ReleaseGroupQuery(a, artistId))), TitleScore(m, a.name), DefaultThreshold);
      if c.Some? then Some(AlbumMatch(a, c.value, NameSimilarity(m, a.name, c.value.title))) else None
  }

  /** The error an album's release group search raises, if it does. */
  function AlbumFailure(search: SearchArgs -> Result<seq<MbReleaseGroup>, Failure>, artistId: Option<string>)
    : SpotifyAlbum -> Option<string>
  {
    (a: SpotifyAlbum) => ErrorOf(Wrapped(ReleaseGroupSearchFailed, search(ReleaseGroupQuery(a, artistId))))
  }

  /** Each album match pairs an album with the release group chosen for it, and its score
      reaches the default threshold. */
  lemma AlbumEntryMeaning(m: BlockCount, search: SearchArgs -> Result<seq<MbReleaseGroup>, Failure>, artistId: Option<string>,
                          a: SpotifyAlbum)
    ensures var e := AlbumEntry(m, search, artistId)(a);
      e.Some? ==> (e.value.album == a && e.value.releaseGroup in Items(search(ReleaseGroupQuery(a, artistId)))
                   && e.value.score >= DefaultThreshold)
  {
    var results := Items(search(ReleaseGroupQuery(a, artistId)));
    ChosenMeaning(results, TitleScore(m, a.name), DefaultThreshold);
    BestAtIsFirstMax(MapSeq(results, TitleScore(m, a.name)));
  }

  /** The body of the album loop for one album. */
  method MatchAlbum(m: BlockCount, album: SpotifyAlbum, search: SearchArgs -> Result<seq<MbReleaseGroup>, Failure>,
                    artistId: Option<string>) returns (e: Result<Option<AlbumMatch>, string>)
    ensures e.Err? <==> AlbumFailure(search, artistId)(album).Some?
    ensures e.Err? ==> e.error == AlbumFailure(search, artistId)(album).value
    ensures e.Ok? ==> e.value == AlbumEntry(m, search, artistId)(album)
  {
    var rg := FindMusicBrainzReleaseGroup(m, album, search, artistId, DefaultThreshold);
    if rg.Err? {
      return Err(rg.error);
    }
    e := Ok(None);
    if rg.value.Some? {
      e := Ok(Some(AlbumMatch(album, rg.value.value, NameSimilarity(m, album.name, rg.value.value.title))));
    }
  }

  /** The album loop of `compare_artist_data` over `spotify_albums[:10]`; the first search
      that raises ends it with its error. */
  method MatchAlbums(m: BlockCount, albums: seq<SpotifyAlbum>, search: SearchArgs -> Result<seq<MbReleaseGroup>, Failure>,
                     artistId: Option<string>) returns (r: Result<seq<AlbumMatch>, string>)
    ensures var failure := FirstFailure(PySlicePrefix(albums, 10), AlbumFailure(search, artistId));
      r == if failure.Some? then Err(failure.value) else Ok(Collect(PySlicePrefix(albums, 10), AlbumEntry(m, search, artistId)))
    ensures r.Ok? ==> |r.value| <= 10
  {
    r := MatchEach(m, PySlicePrefix(albums, 10), search, artistId);
  }

  /** The loop itself, over the albums it is given. */
  method MatchEach(m: BlockCount, top: seq<SpotifyAlbum>, search: SearchArgs -> Result<seq<MbReleaseGroup>, Failure>,
                   artistId: Option<string>) returns (r: Result<seq<AlbumMatch>, string>)
    ensures var failure := FirstFailure(top, AlbumFailure(search, artistId));
      r == if failure.Some? then Err(failure.value) else Ok(Collect(top, AlbumEntry(m, search, artistId)))
  {
    var entry := AlbumEntry(m, search, artistId);
    var fails := AlbumFailure(search, artistId);
    var matches := [];
    var i := 0;
    while i < |top|
      invariant 0 <= i <= |top|
      invariant FirstFailure(top[..i], fails).None?
      invariant matches == Collect(top[..i], entry)
    {
      var e := MatchAlbum(m, top[i], search, artistId);
      if e.Err? {
        FirstFailureAt(top, i, fails);
        return Err(e.error);
      }
      FirstFailureNext(top, i, fails);
      CollectStep(top, i, entry);
      if e.value.Some? {
        matches := matches + [e.value.value];
      }
      i := i + 1;
    }
    assert top[..i] == top;
    r := Ok(matches);
  }

  /** The album types whose counts the comparison reports. */
  const CountedTypes: set<string> := {"album", "single", "compilation", "total"}

  /** `spotify_album_counts`: the four keys, each the Spotify count when present, else 0. */
  function AlbumCountsOf(stats: map<string, int>): (r: map<string, int>)
  {
    map k | k in CountedTypes :: if k in stats then stats[k] else 0
  }

  /** The loop over the items of the Spotify counts, copying the keys it knows. */
  method CopyAlbumCounts(stats: map<string, int>) returns (counts: map<string, int>)
    ensures counts.Keys == CountedTypes
    ensures forall k :: k in CountedTypes ==> counts[k] == (if k in stats then stats[k] else 0)
    ensures counts == AlbumCountsOf(stats)
  {
    counts := map["album" := 0, "single" := 0, "compilation" := 0, "total" := 0];
    var todo := stats.Keys;
    while todo != {}
      invariant todo <= stats.Keys
      invariant counts.Keys == CountedTypes
      invariant forall k :: k in CountedTypes ==> counts[k] == (if k in stats && k !in todo then stats[k] else 0)
      decreases |todo|
    {
      var albumType :| albumType in todo;
      if albumType in counts {
        counts := counts[albumType := stats[albumType]];
      }
      todo := todo - {albumType};
    }
  }

  datatype Comparison = Comparison(
    spotifyArtist: SpotifyArtist,
    mbArtist: MbArtist,
    spotifyAlbumCounts: map<string, int>,
    mbAlbumCounts: map<string, int>,
    albumMatches: seq<AlbumMatch>,
    trackMatches: map<string, TrackMatch>)

  /** What `compare_artist_data` returns: the comparison, or the dictionary holding only an
      error message. */
  datatype Compared = Compared(comparison: Comparison) | ErrorReport(message: string)

  const NotFound := "Artist not found on one or both platforms"

  /** The services' answers `compare_artist_data` draws on, each keyed by what the client
      sends, and each either an answer or the message of the error the client raises: the
      Spotify artist search, the MusicBrainz searches, and per artist id the Spotify album
      counts, the MusicBrainz release group counts, the Spotify albums and the Spotify top
      tracks. */
  datatype Services = Services(
    spotifyArtists: Result<seq<SpotifyArtist>, string>,
    mbArtists: string -> Result<seq<MbArtist>, Failure>,
    albumCounts: string -> Result<map<string, int>, string>,
    mbCounts: string -> Result<map<string, int>, string>,
    albums: string -> Result<seq<SpotifyAlbum>, string>,
    releaseGroups: SearchArgs -> Result<seq<MbReleaseGroup>, Failure>,
    topTracks: string -> Result<seq<SpotifyTrack>, string>,
    recordings: SearchArgs -> Result<seq<MbRecording>, Failure>)

  /** Both searches answered, and both found an artist. */
  predicate Found(svc: Services, artistName: string)
  {
    svc.spotifyArtists.Ok? && svc.mbArtists(artistName).Ok?
    && svc.spotifyArtists.value != [] && svc.mbArtists(artistName).value != []
  }

  /** `compare_artist_data`. Both searches run first; a search that raises ends the call
      with its error, and when either finds nothing the error report comes back.
      Otherwise the first hit of each search is taken, with no name matching between them,
      and the calls that follow run in order, the first to raise ending the call: the
      Spotify album counts, the MusicBrainz release group counts, the Spotify albums, the
      release group search of each of the first ten albums, the top tracks and the
      recording search of each top track. */
  method CompareArtistData(m: BlockCount, artistName: string, svc: Services) returns (r: Result<Compared, string>)
    ensures svc.spotifyArtists.Err? ==> r == Err(svc.spotifyArtists.error)
    ensures var hits := svc.mbArtists(artistName);
      svc.spotifyArtists.Ok? && hits.Err? ==> r == Err(ArtistSearchFailed + FailureText(hits.error))
    ensures var hits := svc.mbArtists(artistName);
      svc.spotifyArtists.Ok? && hits.Ok? ==>
        (r == Ok(ErrorReport(NotFound)) <==> svc.spotifyArtists.value == [] || hits.value == [])
    ensures r.Ok? && r.value.ErrorReport? ==> r.value.message == NotFound
    ensures Found(svc, artistName) ==>
      var spotifyArtist := svc.spotifyArtists.value[0];
      var mbArtist := svc.mbArtists(artistName).value[0];
      var stats := svc.albumCounts(spotifyArtist.id);
      var info := svc.mbCounts(mbArtist.id);
      var albums := svc.albums(spotifyArtist.id);
      (stats.Err? ==> r == Err(stats.error))
      && (stats.Ok? && info.Err? ==> r == Err(info.error))
      && (stats.Ok? && info.Ok? && albums.Err? ==> r == Err(albums.error))
    ensures Found(svc, artistName) ==>
      var spotifyArtist := svc.spotifyArtists.value[0];
      var mbArtist := svc.mbArtists(artistName).value[0];
      var albums := svc.albums(spotifyArtist.id);
      var tracks := svc.topTracks(spotifyArtist.id);
      svc.albumCounts(spotifyArtist.id).Ok? && svc.mbCounts(mbArtist.id).Ok? && albums.Ok? ==>
        var albumFailure := FirstFailure(PySlicePrefix(albums.value, 10), AlbumFailure(svc.releaseGroups, Some(mbArtist.id)));
        (albumFailure.Some? ==> r == Err(albumFailure.value))
        && (albumFailure.None? && tracks.Err? ==> r == Err(tracks.error))
        && (albumFailure.None? && tracks.Ok? ==>
              var trackFailure := FirstFailure(tracks.value, RecordingFailure(svc.recordings, Some(mbArtist.id)));
              (trackFailure.Some? ==> r == Err(trackFailure.value))
              && (trackFailure.None? ==> r.Ok? && r.value.Compared?))
    ensures r.Ok? && r.value.Compared? ==>
      Found(svc, artistName)
      && var c := r.value.comparison;
      c.spotifyArtist == svc.spotifyArtists.value[0] && c.mbArtist == svc.mbArtists(artistName).value[0]
      && svc.albumCounts(c.spotifyArtist.id).Ok? && svc.mbCounts(c.mbArtist.id).Ok?
      && svc.albums(c.spotifyArtist.id).Ok? && svc.topTracks(c.spotifyArtist.id).Ok?
      && c.spotifyAlbumCounts == AlbumCountsOf(svc.albumCounts(c.spotifyArtist.id).value)
      && c.mbAlbumCounts == svc.mbCounts(c.mbArtist.id).value
      && c.albumMatches == Collect(PySlicePrefix(svc.albums(c.spotifyArtist.id).value, 10),
                                   AlbumEntry(m, svc.releaseGroups, Some(c.mbArtist.id)))
      && c.trackMatches == Tabulate(svc.topTracks(c.spotifyArtist.id).value,
                                    EntryOf(m, svc.recordings, Some(c.mbArtist.id), DefaultThreshold))
  {
    var spotifyArtists := svc.spotifyArtists;
    if spotifyArtists.Err? {
      return Err(spotifyArtists.error);
    }
    var mbArtists := svc.mbArtists(artistName);
    if mbArtists.Err? {
      return Err(ArtistSearchFailed + FailureText(mbArtists.error));
    }
    if spotifyArtists.value == [] || mbArtists.value == [] {
      return Ok(ErrorReport(NotFound));
    }
    var spotifyArtist := spotifyArtists.value[0];
    var mbArtist := mbArtists.value[0];
    var stats := svc.albumCounts(spotifyArtist.id);
    if stats.Err? {
      return Err(stats.error);
    }
    var mbStats := svc.mbCounts(mbArtist.id);
    if mbStats.Err? {
      return Err(mbStats.error);
    }
    var counts := CopyAlbumCounts(stats.value);
    var albums := svc.albums(spotifyArtist.id);
    if albums.Err? {
      return Err(albums.error);
    }
    var albumMatches := MatchAlbums(m, albums.value, svc.releaseGroups, Some(mbArtist.id));
    if albumMatches.Err? {
      return Err(albumMatches.error);
    }
    var tracks := svc.topTracks(spotifyArtist.id);
    if tracks.Err? {
      return Err(tracks.error);
    }
    var trackMatches := FindTrackMatches(m, tracks.value, svc.recordings, Some(mbArtist.id), DefaultThreshold);
    if trackMatches.Err? {
      return Err(trackMatches.error);
    }
    r := Ok(Compared(Comparison(spotifyArtist, mbArtist, counts, mbStats.value, albumMatches.value, trackMatches.value)));
  }
}
