/** The artist collection script: a Spotify search for hip-hop artists (a list of notable
    names first, then genre queries), a per-artist record built from Spotify statistics,
    release lists and the best-scoring MusicBrainz match, and the batch that stores one
    record per new artist.

    The clients are answered by the services; here each call is a function from the
    arguments the script passes to what comes back (a result or the error it raised). The
    parts shared with the stand-alone data script are generic over what differs between
    the two: the notable names, the genre terms, the page cap, the genre test and the cap
    on appearances. */
module CollectArtists {
  import opened Common
  import opened Models
  import opened Spotify
  import opened Matching

  // ---------------------------------------------------------------------------
  // search_hip_hop_artists

  /** `search_artists(query, limit=n)`: the artists found, or the SpotifyError message. */
  type ArtistSearch = (string, int) -> Result<seq<SpotifyArtist>, string>

  const NotableArtists: seq<string> := [
    "Kendrick Lamar", "Jay-Z", "Kanye West", "Drake", "Nas", "Tupac Shakur",
    "The Notorious B.I.G.", "Eminem", "Run-DMC", "Wu-Tang Clan", "A Tribe Called Quest"]

  const SearchTerms: seq<string> := [
    "hip hop", "rap", "trap", "drill", "conscious rap", "gangsta rap", "boom bap", "horrorcore"]

  const HipHopGenres: seq<string> := ["hip hop", "rap", "trap", "drill"]

  /** The most artists one genre query asks for. */
  const GenrePageCap := 20

  /** The genre test of this script: one of the hip-hop words occurs somewhere in the
      genres joined by spaces and lower-cased. */
  predicate MentionsHipHop(a: SpotifyArtist)
  {
    exists g :: g in HipHopGenres && IsSubstring(g, Lower(Join(a.genres, " ")))
  }

  /** `artists_seen`: the ids collected so far. */
  function Ids(xs: seq<SpotifyArtist>): set<string>
  {
    set a | a in xs :: a.id
  }

  predicate DistinctIds(xs: seq<SpotifyArtist>)
  {
    forall i, j :: 0 <= i < j < |xs| ==> xs[i].id != xs[j].id
  }

  /** The artist a notable-name query adds, if any: the first result. */
  function FirstHit(search: ArtistSearch, name: string): Option<SpotifyArtist>
  {
    var found := search(name, 1);
    if found.Ok? && found.value != [] then Some(found.value[0]) else None
  }

  /** Every first result of the notable-name queries, in query order. */
  function Hits(search: ArtistSearch, names: seq<string>): seq<SpotifyArtist>
  {
    if names == [] then []
    else
      var hit := FirstHit(search, names[0]);
      (if hit.Some? then [hit.value] else []) + Hits(search, names[1..])
  }

  /** The notable-name loop from accumulator `acc`: stop once `limit` artists are held,
      else add each name's first result unless its id is already held. It only appends,
      and stops by `limit`. */
  function AddNotables(acc: seq<SpotifyArtist>, names: seq<string>, search: ArtistSearch, limit: int)
    : (r: seq<SpotifyArtist>)
    ensures IsPrefix(acc, r)
    ensures |r| <= Max(|acc|, limit)
    decreases |names|
  {
    if names == [] || |acc| >= limit then acc
    else
      var hit := FirstHit(search, names[0]);
      var next := if hit.Some? && hit.value.id !in Ids(acc) then acc + [hit.value] else acc;
      AddNotables(next, names[1..], search, limit)
  }

  /** The notable-name loop keeps ids distinct. */
  lemma {:induction false} AddNotablesDistinct(acc: seq<SpotifyArtist>, names: seq<string>, search: ArtistSearch,
                                               limit: int)
    requires DistinctIds(acc)
    ensures DistinctIds(AddNotables(acc, names, search, limit))
    decreases |names|
  {
    if names != [] && |acc| < limit {
      var hit := FirstHit(search, names[0]);
      var next := if hit.Some? && hit.value.id !in Ids(acc) then acc + [hit.value] else acc;
      if next != acc {
        DistinctAppend(acc, hit.value);
      }
      AddNotablesDistinct(next, names[1..], search, limit);
      assert AddNotables(acc, names, search, limit) == AddNotables(next, names[1..], search, limit);
    }
  }

  /** What the notable-name loop appends are first results of its name queries. */
  lemma {:induction false} AddNotablesFromHits(acc: seq<SpotifyArtist>, names: seq<string>, search: ArtistSearch,
                                               limit: int)
    ensures forall i :: |acc| <= i < |AddNotables(acc, names, search, limit)| ==>
      AddNotables(acc, names, search, limit)[i] in Hits(search, names)
    decreases |names|
  {
    if names != [] && |acc| < limit {
      var hit := FirstHit(search, names[0]);
      var next := if hit.Some? && hit.value.id !in Ids(acc) then acc + [hit.value] else acc;
      AddNotablesFromHits(next, names[1..], search, limit);
      var r := AddNotables(next, names[1..], search, limit);
      assert AddNotables(acc, names, search, limit) == r;
      var hits := Hits(search, names);
      assert hits == (if hit.Some? then [hit.value] else []) + Hits(search, names[1..]);
      forall i | |acc| <= i < |r|
        ensures r[i] in hits
      {
        if i < |next| {
          assert hit.Some? && next == acc + [hit.value];
          assert i == |acc| && next[i] == hit.value;
          assert r[..|next|] == next;
          assert r[i] == r[..|next|][i];
        } else {
          assert r[i] in Hits(search, names[1..]);
        }
      }
    }
  }

  /** Appending an artist whose id is not yet held keeps the ids distinct. */
  lemma DistinctAppend(xs: seq<SpotifyArtist>, a: SpotifyArtist)
    requires DistinctIds(xs) && a.id !in Ids(xs)
    ensures DistinctIds(xs + [a])
  {
    forall i | 0 <= i < |xs| ensures xs[i].id != a.id {
      assert xs[i] in xs;
    }
  }

  /** The inner loop over one genre query's results: add each unseen artist that passes
      `accept`, stopping right after an addition that reaches `limit`. It only appends,
      and never passes `limit` when it starts below it. */
  function TakeMatching(acc: seq<SpotifyArtist>, results: seq<SpotifyArtist>, limit: int,
                        accept: SpotifyArtist -> bool): (r: seq<SpotifyArtist>)
    ensures IsPrefix(acc, r)
    ensures |acc| < limit ==> |r| <= limit
    decreases |results|
  {
    if results == [] then acc
    else
      var a := results[0];
      if a.id !in Ids(acc) && accept(a) then
        var next := acc + [a];
        if |next| >= limit then next else TakeMatching(next, results[1..], limit, accept)
      else TakeMatching(acc, results[1..], limit, accept)
  }

  /** The loop over one query's results keeps ids distinct. */
  lemma {:induction false} TakeMatchingDistinct(acc: seq<SpotifyArtist>, results: seq<SpotifyArtist>, limit: int,
                                                accept: SpotifyArtist -> bool)
    requires DistinctIds(acc)
    ensures DistinctIds(TakeMatching(acc, results, limit, accept))
    decreases |results|
  {
    if results != [] {
      var a := results[0];
      if a.id !in Ids(acc) && accept(a) {
        DistinctAppend(acc, a);
        if |acc + [a]| < limit {
          TakeMatchingDistinct(acc + [a], results[1..], limit, accept);
        }
      } else {
        TakeMatchingDistinct(acc, results[1..], limit, accept);
      }
    }
  }

  /** What the loop over one query's results appends are results of that query that
      pass the genre test. */
  lemma {:induction false} TakeMatchingAccepted(acc: seq<SpotifyArtist>, results: seq<SpotifyArtist>, limit: int,
                                                accept: SpotifyArtist -> bool)
    ensures forall i :: |acc| <= i < |TakeMatching(acc, results, limit, accept)| ==>
      TakeMatching(acc, results, limit, accept)[i] in results && accept(TakeMatching(acc, results, limit, accept)[i])
    decreases |results|
  {
    if results != [] {
      var a := results[0];
      var r := TakeMatching(acc, results, limit, accept);
      if a.id !in Ids(acc) && accept(a) {
        var next := acc + [a];
        if |next| < limit {
          TakeMatchingAccepted(next, results[1..], limit, accept);
        }
        forall i | |acc| <= i < |r|
          ensures r[i] in results && accept(r[i])
        {
          if i == |acc| {
            assert r[..|next|] == next;
            assert r[i] == r[..|next|][i] == a;
          } else {
            assert r[i] in results[1..];
          }
        }
      } else {
        TakeMatchingAccepted(acc, results[1..], limit, accept);
        forall i | |acc| <= i < |r|
          ensures r[i] in results && accept(r[i])
        {
          assert r[i] in results[1..];
        }
      }
    }
  }

  /** The genre loop from accumulator `acc`: stop once `limit` artists are held, else ask
      for `genre:<term>` with at most `cap` and at most the number still missing, and take
      the matching results; a failed query adds nothing. It only appends, and stops by
      `limit`. */
  function AddByGenre(acc: seq<SpotifyArtist>, terms: seq<string>, search: ArtistSearch, limit: int,
                      cap: int, accept: SpotifyArtist -> bool): (r: seq<SpotifyArtist>)
    ensures IsPrefix(acc, r)
    ensures |r| <= Max(|acc|, limit)
    decreases |terms|
  {
    if terms == [] || |acc| >= limit then acc
    else
      var found := search("genre:" + terms[0], Min(cap, limit - |acc|));
      var next := if found.Ok? then TakeMatching(acc, found.value, limit, accept) else acc;
      AddByGenre(next, terms[1..], search, limit, cap, accept)
  }

  /** The genre loop keeps ids distinct. */
  lemma {:induction false} AddByGenreDistinct(acc: seq<SpotifyArtist>, terms: seq<string>, search: ArtistSearch,
                                              limit: int, cap: int, accept: SpotifyArtist -> bool)
    requires DistinctIds(acc)
    ensures DistinctIds(AddByGenre(acc, terms, search, limit, cap, accept))
    decreases |terms|
  {
    if terms != [] && |acc| < limit {
      var found := search("genre:" + terms[0], Min(cap, limit - |acc|));
      if found.Ok? {
        TakeMatchingDistinct(acc, found.value, limit, accept);
      }
      var next := if found.Ok? then TakeMatching(acc, found.value, limit, accept) else acc;
      AddByGenreDistinct(next, terms[1..], search, limit, cap, accept);
    }
  }

  /** What the genre loop appends passes the genre test. */
  lemma {:induction false} AddByGenreAccepted(acc: seq<SpotifyArtist>, terms: seq<string>, search: ArtistSearch,
                                              limit: int, cap: int, accept: SpotifyArtist -> bool)
    ensures forall i :: |acc| <= i < |AddByGenre(acc, terms, search, limit, cap, accept)| ==>
      accept(AddByGenre(acc, terms, search, limit, cap, accept)[i])
    decreases |terms|
  {
    if terms != [] && |acc| < limit {
      var found := search("genre:" + terms[0], Min(cap, limit - |acc|));
      var next := if found.Ok? then TakeMatching(acc, found.value, limit, accept) else acc;
      if found.Ok? {
        TakeMatchingAccepted(acc, found.value, limit, accept);
      }
      AddByGenreAccepted(next, terms[1..], search, limit, cap, accept);
      var r := AddByGenre(next, terms[1..], search, limit, cap, accept);
      forall i | |acc| <= i < |r|
        ensures accept(r[i])
      {
        if i < |next| {
          assert r[..|next|] == next;
          assert r[i] == r[..|next|][i] == next[i];
        }
      }
    }
  }

  /** The genre queries that loop sends, with their page sizes: the i-th query is for the
      i-th term, and each asks for at least one artist (for a positive cap) and never more
      than the cap or the number still missing. */
  function GenreQueries(acc: seq<SpotifyArtist>, terms: seq<string>, search: ArtistSearch, limit: int,
                        cap: int, accept: SpotifyArtist -> bool): (q: seq<(string, int)>)
    ensures |q| <= |terms|
    ensures forall i :: 0 <= i < |q| ==>
      Min(cap, 1) <= q[i].1 <= Min(cap, limit - |acc|)
    decreases |terms|
  {
    if terms == [] || |acc| >= limit then []
    else
      var size := Min(cap, limit - |acc|);
      var found := search("genre:" + terms[0], size);
      var next := if found.Ok? then TakeMatching(acc, found.value, limit, accept) else acc;
      [("genre:" + terms[0], size)] + GenreQueries(next, terms[1..], search, limit, cap, accept)
  }

  /** The i-th genre query is for the i-th term. */
  lemma {:induction false} GenreQueriesFollowTerms(acc: seq<SpotifyArtist>, terms: seq<string>, search: ArtistSearch,
                                                   limit: int, cap: int, accept: SpotifyArtist -> bool)
    ensures var q := GenreQueries(acc, terms, search, limit, cap, accept);
      forall i :: 0 <= i < |q| ==> q[i].0 == "genre:" + terms[i]
    decreases |terms|
  {
    if terms != [] && |acc| < limit {
      var found := search("genre:" + terms[0], Min(cap, limit - |acc|));
      var next := if found.Ok? then TakeMatching(acc, found.value, limit, accept) else acc;
      GenreQueriesFollowTerms(next, terms[1..], search, limit, cap, accept);
    }
  }

  /** What the search returns: the notable artists, then the genre results. */
  function Harvest(search: ArtistSearch, notables: seq<string>, terms: seq<string>, cap: int,
                   accept: SpotifyArtist -> bool, limit: int): seq<SpotifyArtist>
  {
    AddByGenre(AddNotables([], notables, search, limit), terms, search, limit, cap, accept)
  }

  /** At most `limit` artists (none for a limit of zero or less), no id twice, the notable
      artists first and each of them a first result of its query, then only artists that
      pass the genre test. */
  lemma HarvestMeaning(search: ArtistSearch, notables: seq<string>, terms: seq<string>, cap: int,
                       accept: SpotifyArtist -> bool, limit: int)
    ensures var r := Harvest(search, notables, terms, cap, accept, limit);
      var n := AddNotables([], notables, search, limit);
      |r| <= Max(limit, 0) && DistinctIds(r) && IsPrefix(n, r)
      && (forall i :: 0 <= i < |n| ==> n[i] in Hits(search, notables))
      && (forall i :: |n| <= i < |r| ==> accept(r[i]))
  {
    var n := AddNotables([], notables, search, limit);
    AddNotablesDistinct([], notables, search, limit);
    AddNotablesFromHits([], notables, search, limit);
    AddByGenreDistinct(n, terms, search, limit, cap, accept);
    AddByGenreAccepted(n, terms, search, limit, cap, accept);
  }

  lemma IdsAppend(xs: seq<SpotifyArtist>, a: SpotifyArtist)
    ensures Ids(xs + [a]) == Ids(xs) + {a.id}
  {
    assert forall b :: b in xs + [a] <==> b in xs || b == a;
  }

  /** The notable-name loop. */
  method AddNotableArtists(search: ArtistSearch, notables: seq<string>, limit: int)
    returns (artists: seq<SpotifyArtist>, seen: set<string>)
    ensures artists == AddNotables([], notables, search, limit)
    ensures seen == Ids(artists)
  {
    artists := [];
    seen := {};
    var i := 0;
    while i < |notables| && |artists| < limit
      invariant 0 <= i <= |notables|
      invariant seen == Ids(artists)
      invariant AddNotables([], notables, search, limit) == AddNotables(artists, notables[i..], search, limit)
    {
      NotableStep(artists, notables, i, search, limit);
      var found := search(notables[i], 1);
      if found.Ok? && found.value != [] && found.value[0].id !in seen {
        IdsAppend(artists, found.value[0]);
        artists := artists + [found.value[0]];
        seen := seen + {found.value[0].id};
      }
      i := i + 1;
    }
  }

  /** One turn of the notable-name loop, from name `i`. */
  lemma NotableStep(acc: seq<SpotifyArtist>, names: seq<string>, i: int, search: ArtistSearch, limit: int)
    requires 0 <= i < |names| && |acc| < limit
    ensures var found := search(names[i], 1);
      var next := if found.Ok? && found.value != [] && found.value[0].id !in Ids(acc) then acc + [found.value[0]] else acc;
      AddNotables(acc, names[i..], search, limit) == AddNotables(next, names[i + 1..], search, limit)
  {
    var ns := names[i..];
    assert ns != [] && ns[0] == names[i] && ns[1..] == names[i + 1..];
    var hit := FirstHit(search, ns[0]);
    var next := if hit.Some? && hit.value.id !in Ids(acc) then acc + [hit.value] else acc;
    assert AddNotables(acc, ns, search, limit) == AddNotables(next, ns[1..], search, limit);
  }

  /** The loop over one genre query's results. */
  method TakeMatchingResults(acc: seq<SpotifyArtist>, accSeen: set<string>, results: seq<SpotifyArtist>,
                             limit: int, accept: SpotifyArtist -> bool)
    returns (artists: seq<SpotifyArtist>, seen: set<string>)
    requires accSeen == Ids(acc)
    ensures artists == TakeMatching(acc, results, limit, accept)
    ensures seen == Ids(artists)
  {
    artists, seen := acc, accSeen;
    var j := 0;
    var full := false;
    while j < |results| && !full
      invariant 0 <= j <= |results|
      invariant seen == Ids(artists)
      invariant !full ==> TakeMatching(acc, results, limit, accept) == TakeMatching(artists, results[j..], limit, accept)
      invariant full ==> TakeMatching(acc, results, limit, accept) == artists
    {
      var a := results[j];
      if a.id !in seen && accept(a) {
        IdsAppend(artists, a);
        artists := artists + [a];
        seen := seen + {a.id};
        full := |artists| >= limit;
      }
      j := j + 1;
    }
  }

  /** One genre query and the loop over its results; a failed query adds nothing. */
  method GenreTurn(search: ArtistSearch, acc: seq<SpotifyArtist>, accSeen: set<string>, term: string,
                   cap: int, accept: SpotifyArtist -> bool, limit: int)
    returns (artists: seq<SpotifyArtist>, seen: set<string>)
    requires accSeen == Ids(acc)
    ensures var found := search("genre:" + term, Min(cap, limit - |acc|));
      artists == if found.Ok? then TakeMatching(acc, found.value, limit, accept) else acc
    ensures seen == Ids(artists)
  {
    artists, seen := acc, accSeen;
    var found := search("genre:" + term, Min(cap, limit - |acc|));
    if found.Ok? {
      artists, seen := TakeMatchingResults(acc, accSeen, found.value, limit, accept);
    }
  }

  /** The genre loop. */
  method AddGenreArtists(search: ArtistSearch, acc: seq<SpotifyArtist>, accSeen: set<string>, terms: seq<string>,
                         cap: int, accept: SpotifyArtist -> bool, limit: int)
    returns (artists: seq<SpotifyArtist>, ghost sent: seq<(string, int)>)
    requires accSeen == Ids(acc)
    ensures artists == AddByGenre(acc, terms, search, limit, cap, accept)
    ensures sent == GenreQueries(acc, terms, search, limit, cap, accept)
  {
    artists := acc;
    sent := [];
    var seen := accSeen;
    var t := 0;
    while t < |terms| && |artists| < limit
      invariant 0 <= t <= |terms|
      invariant seen == Ids(artists)
      invariant AddByGenre(acc, terms, search, limit, cap, accept) == AddByGenre(artists, terms[t..], search, limit, cap, accept)
      invariant GenreQueries(acc, terms, search, limit, cap, accept) == sent + GenreQueries(artists, terms[t..], search, limit, cap, accept)
    {
      ghost var query := ("genre:" + terms[t], Min(cap, limit - |artists|));
      GenreStep(artists, terms, t, search, limit, cap, accept);
      ghost var before := artists;
      artists, seen := GenreTurn(search, artists, seen, terms[t], cap, accept, limit);
      ConsAfter(sent, query, GenreQueries(acc, terms, search, limit, cap, accept),
                GenreQueries(before, terms[t..], search, limit, cap, accept),
                GenreQueries(artists, terms[t + 1..], search, limit, cap, accept));
      sent := sent + [query];
      t := t + 1;
    }
  }

  lemma ConsAfter<T>(sent: seq<T>, q: T, all: seq<T>, from: seq<T>, rest: seq<T>)
    requires all == sent + from && from == [q] + rest
    ensures all == (sent + [q]) + rest
  {
  }

  /** One turn of the genre loop, from term `t`. */
  lemma GenreStep(acc: seq<SpotifyArtist>, terms: seq<string>, t: int, search: ArtistSearch, limit: int,
                  cap: int, accept: SpotifyArtist -> bool)
    requires 0 <= t < |terms| && |acc| < limit
    ensures var size := Min(cap, limit - |acc|);
      var found := search("genre:" + terms[t], size);
      var next := if found.Ok? then TakeMatching(acc, found.value, limit, accept) else acc;
      AddByGenre(acc, terms[t..], search, limit, cap, accept) == AddByGenre(next, terms[t + 1..], search, limit, cap, accept)
      && GenreQueries(acc, terms[t..], search, limit, cap, accept)
         == [("genre:" + terms[t], size)] + GenreQueries(next, terms[t + 1..], search, limit, cap, accept)
  {
    var ts := terms[t..];
    assert ts != [] && ts[0] == terms[t] && ts[1..] == terms[t + 1..];
    var size := Min(cap, limit - |acc|);
    var found := search("genre:" + ts[0], size);
    var next := if found.Ok? then TakeMatching(acc, found.value, limit, accept) else acc;
    assert AddByGenre(acc, ts, search, limit, cap, accept) == AddByGenre(next, ts[1..], search, limit, cap, accept);
    assert GenreQueries(acc, ts, search, limit, cap, accept)
        == [("genre:" + ts[0], size)] + GenreQueries(next, ts[1..], search, limit, cap, accept);
  }

  /** The search, for any list of notable names, genre terms, page cap and genre test. */
  method SearchHipHop(search: ArtistSearch, notables: seq<string>, terms: seq<string>, cap: int,
                      accept: SpotifyArtist -> bool, limit: int) returns (artists: seq<SpotifyArtist>)
    ensures artists == Harvest(search, notables, terms, cap, accept, limit)
  {
    var seen;
    artists, seen := AddNotableArtists(search, notables, limit);
    ghost var sent;
    artists, sent := AddGenreArtists(search, artists, seen, terms, cap, accept, limit);
  }

  /** This script's search. */
  method SearchHipHopArtists(search: ArtistSearch, limit: int) returns (artists: seq<SpotifyArtist>)
    ensures artists == Harvest(search, NotableArtists, SearchTerms, GenrePageCap, MentionsHipHop, limit)
  {
    artists := SearchHipHop(search, NotableArtists, SearchTerms, GenrePageCap, MentionsHipHop, limit);
  }

  // ---------------------------------------------------------------------------
  // The MusicBrainz best match inside get_artist_full_data

  /** Python's message for `None > 0`. */
  const ScoreTypeError := "'>' not supported between instances of 'NoneType' and 'int'"

  /** The least score a match must exceed. */
  const MinMatchScore := 70

  predicate AllScored(artists: seq<MbArtist>)
  {
    forall i :: 0 <= i < |artists| ==> artists[i].score.Some?
  }

  function MbScore(a: MbArtist): real
  {
    if a.score.Some? then a.score.value as real else 0.0
  }

  /** The outcome of the scan `if score > highest_score` from 0 and the confidence test:
      a TypeError as soon as any score is missing, else the first highest-scoring artist
      when its score exceeds 70. */
  function MbPick(artists: seq<MbArtist>): Result<Option<MbArtist>, string>
  {
    if !AllScored(artists) then Err(ScoreTypeError)
    else
      var i := BestAt(MapSeq(artists, MbScore));
      if i >= 0 && MbScore(artists[i]) > MinMatchScore as real then Ok(Some(artists[i])) else Ok(None)
  }

  /** The scan fails exactly when a score is missing; an artist is picked exactly when some
      score exceeds 70, and it is then an artist with the highest score, ahead of every
      other artist with that score. */
  lemma MbPickMeaning(artists: seq<MbArtist>)
    ensures MbPick(artists).Err? <==> !AllScored(artists)
    ensures AllScored(artists) ==>
      (MbPick(artists) == Ok(None) <==> forall j :: 0 <= j < |artists| ==> artists[j].score.value <= MinMatchScore)
    ensures MbPick(artists).Ok? && MbPick(artists).value.Some? ==>
      exists i :: 0 <= i < |artists| && artists[i] == MbPick(artists).value.value
        && artists[i].score.value > MinMatchScore
        && (forall j :: 0 <= j < |artists| ==> artists[j].score.value <= artists[i].score.value)
        && (forall j :: 0 <= j < i ==> artists[j].score.value < artists[i].score.value)
  {
    var s := MapSeq(artists, MbScore);
    BestAtIsFirstMax(s);
    BestAtNone(s);
    if AllScored(artists) {
      var i := BestAt(s);
      if i >= 0 {
        assert s[i] == artists[i].score.value as real;
        if MbPick(artists) == Ok(None) {
          assert artists[i].score.value <= MinMatchScore;
        }
      }
    }
  }

  /** The loop over the search results: it raises at the first missing score. */
  method PickMbArtist(artists: seq<MbArtist>) returns (r: Result<Option<MbArtist>, string>)
    ensures r == MbPick(artists)
  {
    ghost var s := MapSeq(artists, MbScore);
    var best: Option<MbArtist> := None;
    var highest := 0;
    var i := 0;
    while i < |artists|
      invariant 0 <= i <= |artists|
      invariant AllScored(artists[..i])
      invariant highest as real == BestScore(s[..i])
      invariant best == (if BestAt(s[..i]) < 0 then None else Some(artists[BestAt(s[..i])]))
    {
      assert s[..i + 1][..i] == s[..i];
      if artists[i].score.None? {
        return Err(ScoreTypeError);
      }
      var score := artists[i].score.value;
      if score > highest {
        highest := score;
        best := Some(artists[i]);
      }
      i := i + 1;
    }
    assert s[..i] == s && artists[..i] == artists;
    if best.Some? && highest > MinMatchScore {
      r := Ok(best);
    } else {
      r := Ok(None);
    }
  }

  // ---------------------------------------------------------------------------
  // get_artist_full_data

  /** The client calls one artist record needs, each keyed by its arguments:
      `get_artist_stats` by Spotify id, `get_all_artist_albums` by Spotify id and album type,
      the MusicBrainz `search_artists` by name, and `get_artist_info` by MBID, which answers
      with its `release_group_counts` when it has that key. */
  datatype Apis = Apis(
    stats: string -> Result<ArtistStats, string>,
    albums: (string, string) -> Result<seq<SpotifyAlbum>, string>,
    mbSearch: string -> Result<seq<MbArtist>, string>,
    mbInfo: string -> Result<Option<map<string, int>>, string>)

  /** One entry of a release list. */
  datatype Release = Release(id: string, name: string, releaseDate: string, albumType: string, image: Option<string>)

  datatype Releases = Releases(albums: seq<Release>, singles: seq<Release>, compilations: seq<Release>,
                               appearsOn: seq<Release>)

  /** The MusicBrainz part of the record. */
  datatype MbSummary = MbSummary(id: string, name: string, releaseCounts: map<string, int>)

  /** The record built for one artist; the descriptive fields copied verbatim from the
      provider records are not modelled. */
  datatype ArtistRecord = ArtistRecord(
    spotifyId: string, name: string, genres: seq<string>, popularity: Option<int>,
    followers: int, images: seq<string>,
    albumCounts: Option<map<string, int>>, topTracks: seq<SpotifyTrack>,
    releases: Releases, musicBrainz: Option<MbSummary>)

  /** A release entry: the first image when the album has one. */
  function ReleaseOf(a: SpotifyAlbum): (r: Release)
    ensures r.image.Some? <==> a.imageUrls != []
    ensures r.image.Some? ==> r.image.value == a.imageUrls[0]
  {
    Release(a.id, a.name, a.releaseDate, a.albumType, if a.imageUrls != [] then Some(a.imageUrls[0]) else None)
  }

  /** `appearances[:cap] if len(appearances) > cap`, or no cap at all. */
  function Capped<T>(xs: seq<T>, cap: Option<nat>): seq<T>
  {
    if cap.Some? && |xs| > cap.value then xs[..cap.value] else xs
  }

  /** The four album queries in one try block: the first failure leaves that list and
      every later one empty. */
  function FetchReleases(albums: (string, string) -> Result<seq<SpotifyAlbum>, string>, id: string,
                         cap: Option<nat>): Releases
  {
    var a := albums(id, "album");
    if a.Err? then Releases([], [], [], [])
    else
      var s := albums(id, "single");
      if s.Err? then Releases(MapSeq(a.value, ReleaseOf), [], [], [])
      else
        var c := albums(id, "compilation");
        if c.Err? then Releases(MapSeq(a.value, ReleaseOf), MapSeq(s.value, ReleaseOf), [], [])
        else
          var p := albums(id, "appears_on");
          if p.Err? then Releases(MapSeq(a.value, ReleaseOf), MapSeq(s.value, ReleaseOf), MapSeq(c.value, ReleaseOf), [])
          else Releases(MapSeq(a.value, ReleaseOf), MapSeq(s.value, ReleaseOf), MapSeq(c.value, ReleaseOf),
                        MapSeq(Capped(p.value, cap), ReleaseOf))
  }

  const AlbumKinds: seq<string> := ["album", "single", "compilation", "appears_on"]

  /** Whether the query for album type `AlbumKinds[k]` and every query before it succeeded. */
  predicate FetchedUpTo(albums: (string, string) -> Result<seq<SpotifyAlbum>, string>, id: string, k: nat)
    requires k < |AlbumKinds|
  {
    albums(id, AlbumKinds[k]).Ok? && (k == 0 || FetchedUpTo(albums, id, k - 1))
  }

  /** A list is filled exactly when its query and every query before it succeeded, and it
      then holds one entry per release returned, in order; appearances are cut to the cap. */
  lemma FetchReleasesMeaning(albums: (string, string) -> Result<seq<SpotifyAlbum>, string>, id: string,
                             cap: Option<nat>)
    ensures var r := FetchReleases(albums, id, cap);
      var lists := [r.albums, r.singles, r.compilations, r.appearsOn];
      forall k :: 0 <= k < 4 ==>
        (FetchedUpTo(albums, id, k) ==>
           lists[k] == MapSeq(if k == 3 then Capped(albums(id, AlbumKinds[k]).value, cap)
                              else albums(id, AlbumKinds[k]).value, ReleaseOf))
        && (!FetchedUpTo(albums, id, k) ==> lists[k] == [])
    ensures var r := FetchReleases(albums, id, cap);
      cap.Some? ==> |r.appearsOn| <= cap.value
  {
    var r := FetchReleases(albums, id, cap);
    var lists := [r.albums, r.singles, r.compilations, r.appearsOn];
    forall k | 0 <= k < 4
      ensures (FetchedUpTo(albums, id, k) ==>
           lists[k] == MapSeq(if k == 3 then Capped(albums(id, AlbumKinds[k]).value, cap)
                              else albums(id, AlbumKinds[k]).value, ReleaseOf))
        && (!FetchedUpTo(albums, id, k) ==> lists[k] == [])
    {
      if k == 0 {
      } else if k == 1 {
        assert FetchedUpTo(albums, id, 1) <==> albums(id, "single").Ok? && albums(id, "album").Ok?;
      } else if k == 2 {
        assert FetchedUpTo(albums, id, 1) <==> albums(id, "single").Ok? && albums(id, "album").Ok?;
        assert FetchedUpTo(albums, id, 2) <==> albums(id, "compilation").Ok? && albums(id, "single").Ok? && albums(id, "album").Ok?;
      } else {
        assert FetchedUpTo(albums, id, 1) <==> albums(id, "single").Ok? && albums(id, "album").Ok?;
        assert FetchedUpTo(albums, id, 2) <==> albums(id, "compilation").Ok? && albums(id, "single").Ok? && albums(id, "album").Ok?;
        assert FetchedUpTo(albums, id, 3) <==> albums(id, "appears_on").Ok? && albums(id, "compilation").Ok?
                                                && albums(id, "single").Ok? && albums(id, "album").Ok?;
      }
    }
  }

  /** The MusicBrainz try block: a failed search or info request leaves the record without
      MusicBrainz data; a missing score raises out of it. */
  function MbLookup(apis: Apis, name: string): Result<Option<MbSummary>, string>
  {
    var found := apis.mbSearch(name);
    if found.Err? || found.value == [] then Ok(None)
    else
      var pick := MbPick(found.value);
      if pick.Err? then Err(pick.error)
      else if pick.value.None? then Ok(None)
      else
        var best := pick.value.value;
        var info := apis.mbInfo(best.id);
        if info.Err? then Ok(None)
        else Ok(Some(MbSummary(best.id, best.name, if info.value.Some? then info.value.value else map[])))
  }

  /** `get_artist_full_data`: the record, or the error that escaped it. */
  function FullData(apis: Apis, artist: SpotifyArtist, cap: Option<nat>): Result<ArtistRecord, string>
  {
    var stats := apis.stats(artist.id);
    var mb := MbLookup(apis, artist.name);
    if mb.Err? then Err(mb.error)
    else Ok(ArtistRecord(
      artist.id, artist.name, artist.genres, artist.popularity,
      if artist.followers.Some? then artist.followers.value else 0, artist.imageUrls,
      if stats.Ok? then Some(stats.value.albumCounts) else None,
      if stats.Ok? then stats.value.topTracks else [],
      FetchReleases(apis.albums, artist.id, cap), mb.value))
  }

  /** A record comes back unless a MusicBrainz search result lacks its score. It then
      carries MusicBrainz data exactly when the search and the info request succeeded and
      the best score exceeds 70, the data of that best artist with its release-group counts
      (none if the info lacks them); statistics are there exactly when their request
      succeeded. */
  lemma FullDataMeaning(apis: Apis, artist: SpotifyArtist, cap: Option<nat>)
    ensures var r := FullData(apis, artist, cap);
      var found := apis.mbSearch(artist.name);
      (r.Err? <==> found.Ok? && !AllScored(found.value))
      && (r.Ok? ==>
        var rec := r.value;
        rec.spotifyId == artist.id && rec.name == artist.name
        && (rec.albumCounts.Some? <==> apis.stats(artist.id).Ok?)
        && (apis.stats(artist.id).Err? ==> rec.topTracks == [])
        && (rec.musicBrainz.Some? <==>
              found.Ok? && MbPick(found.value).value.Some? && apis.mbInfo(MbPick(found.value).value.value.id).Ok?)
        && (rec.musicBrainz.Some? ==>
              var best := MbPick(found.value).value.value;
              var info := apis.mbInfo(best.id).value;
              best in found.value && best.score.value > MinMatchScore
              && rec.musicBrainz.value == MbSummary(best.id, best.name, if info.Some? then info.value else map[])))
  {
    var found := apis.mbSearch(artist.name);
    if found.Ok? {
      MbPickMeaning(found.value);
    }
  }

  /** The body of `get_artist_full_data`, call by call. */
  method GetArtistFullData(apis: Apis, artist: SpotifyArtist, cap: Option<nat>) returns (r: Result<ArtistRecord, string>)
    ensures r == FullData(apis, artist, cap)
  {
    var followers := if artist.followers.Some? then artist.followers.value else 0;
    var albumCounts: Option<map<string, int>> := None;
    var topTracks: seq<SpotifyTrack> := [];
    var stats := apis.stats(artist.id);
    if stats.Ok? {
      albumCounts := Some(stats.value.albumCounts);
      topTracks := stats.value.topTracks;
    }
    var releases := FetchReleases(apis.albums, artist.id, cap);
    var mb: Option<MbSummary> := None;
    var found := apis.mbSearch(artist.name);
    if found.Ok? && found.value != [] {
      var pick := PickMbArtist(found.value);
      if pick.Err? {
        return Err(pick.error);
      }
      if pick.value.Some? {
        var best := pick.value.value;
        var info := apis.mbInfo(best.id);
        if info.Ok? {
          mb := Some(MbSummary(best.id, best.name, if info.value.Some? then info.value.value else map[]));
        }
      }
    }
    r := Ok(ArtistRecord(artist.id, artist.name, artist.genres, artist.popularity, followers, artist.imageUrls,
                         albumCounts, topTracks, releases, mb));
  }

  // ---------------------------------------------------------------------------
  // The processing loop of main

  /** The records written, and the error that ended the loop early, if one did. */
  datatype Batch = Batch(stored: seq<ArtistRecord>, failure: Option<string>)

  function FullOf(apis: Apis, cap: Option<nat>): SpotifyArtist -> Result<ArtistRecord, string>
  {
    (a: SpotifyArtist) => FullData(apis, a, cap)
  }

  /** One record per artist, in order, until the first artist whose record raises: the
      exception leaves the loop and ends the run. */
  function Process(xs: seq<SpotifyArtist>, full: SpotifyArtist -> Result<ArtistRecord, string>): (b: Batch)
    ensures |b.stored| <= |xs|
    ensures forall i :: 0 <= i < |b.stored| ==> full(xs[i]) == Ok(b.stored[i])
    ensures b.failure.None? ==> |b.stored| == |xs|
    ensures b.failure.Some? ==> |b.stored| < |xs| && full(xs[|b.stored|]) == Err(b.failure.value)
  {
    if xs == [] then Batch([], None)
    else
      var b := Process(xs[..|xs| - 1], full);
      if b.failure.Some? then b
      else
        var r := full(xs[|xs| - 1]);
        if r.Err? then Batch(b.stored, Some(r.error)) else Batch(b.stored + [r.value], None)
  }

  /** The loop over the artists to store. */
  method ProcessArtists(apis: Apis, xs: seq<SpotifyArtist>, cap: Option<nat>) returns (b: Batch)
    ensures b == Process(xs, FullOf(apis, cap))
  {
    var stored: seq<ArtistRecord> := [];
    var i := 0;
    while i < |xs|
      invariant 0 <= i <= |xs|
      invariant Process(xs[..i], FullOf(apis, cap)) == Batch(stored, None)
    {
      assert xs[..i + 1][..i] == xs[..i];
      var r := GetArtistFullData(apis, xs[i], cap);
      if r.Err? {
        assert Process(xs[..i + 1], FullOf(apis, cap)) == Batch(stored, Some(r.error));
        ProcessStops(xs, FullOf(apis, cap), i + 1);
        return Batch(stored, Some(r.error));
      }
      stored := stored + [r.value];
      i := i + 1;
    }
    assert xs[..i] == xs;
    b := Batch(stored, None);
  }

  /** Once the loop has failed, later artists change nothing. */
  lemma {:induction false} ProcessStops(xs: seq<SpotifyArtist>, full: SpotifyArtist -> Result<ArtistRecord, string>, k: nat)
    requires k <= |xs| && Process(xs[..k], full).failure.Some?
    ensures Process(xs, full) == Process(xs[..k], full)
    decreases |xs| - k
  {
    if k < |xs| {
      assert xs[..k + 1][..k] == xs[..k];
      ProcessStops(xs, full, k + 1);
    } else {
      assert xs[..k] == xs;
    }
  }

  // ---------------------------------------------------------------------------
  // main: picking the artists not yet stored

  /** The artists a new-artist pass keeps: those the database does not know. */
  function NotStored(stored: string -> bool): SpotifyArtist -> bool
  {
    (a: SpotifyArtist) => !stored(a.id)
  }

  /** How many search results the pass examines: it stops right after the result that
      brings the kept artists to `limit`. */
  function StopAt(xs: seq<SpotifyArtist>, keep: SpotifyArtist -> bool, limit: int, i: nat): (r: nat)
    requires i <= |xs|
    ensures i <= r <= |xs|
    ensures r < |xs| ==> |Filter(xs[..r], keep)| >= limit
    decreases |xs| - i
  {
    if i == |xs| then i
    else if |Filter(xs[..i + 1], keep)| >= limit then i + 1
    else StopAt(xs, keep, limit, i + 1)
  }

  /** The artists of the pass. */
  function NewArtists(xs: seq<SpotifyArtist>, stored: string -> bool, limit: int): seq<SpotifyArtist>
  {
    Filter(xs[..StopAt(xs, NotStored(stored), limit, 0)], NotStored(stored))
  }

  /** The kept artists never outnumber a positive `limit`. */
  lemma {:induction false} StopAtBound(xs: seq<SpotifyArtist>, keep: SpotifyArtist -> bool, limit: int, i: nat)
    requires limit >= 1 && i <= |xs| && |Filter(xs[..i], keep)| < limit
    ensures |Filter(xs[..StopAt(xs, keep, limit, i)], keep)| <= limit
    decreases |xs| - i
  {
    if i < |xs| {
      assert xs[..i + 1][..i] == xs[..i];
      if |Filter(xs[..i + 1], keep)| < limit {
        StopAtBound(xs, keep, limit, i + 1);
      }
    }
  }

  /** The search limit of main: three times what is needed, at most 150. */
  function SearchLimit(limit: int): int { Min(limit * 3, 150) }

  /** The loop of main that keeps the search results the database lacks, stopping once
      `limit` are kept. */
  method KeepNewArtists(all: seq<SpotifyArtist>, stored: string -> bool, limit: int) returns (newArtists: seq<SpotifyArtist>)
    ensures newArtists == NewArtists(all, stored, limit)
  {
    ghost var keep := NotStored(stored);
    newArtists := [];
    var i := 0;
    var done := false;
    while i < |all| && !done
      invariant 0 <= i <= |all|
      invariant newArtists == Filter(all[..i], keep)
      invariant !done ==> StopAt(all, keep, limit, 0) == StopAt(all, keep, limit, i)
      invariant done ==> StopAt(all, keep, limit, 0) == i
    {
      assert all[..i + 1][..i] == all[..i];
      if !stored(all[i].id) {
        newArtists := newArtists + [all[i]];
      }
      i := i + 1;
      done := |newArtists| >= limit;
    }
    if !done {
      assert all[..i] == all;
    }
  }

  /** Search with three times the limit, then keep the new artists. */
  method SelectNewArtists(search: ArtistSearch, stored: string -> bool, limit: int) returns (newArtists: seq<SpotifyArtist>)
    ensures newArtists == NewArtists(Harvest(search, NotableArtists, SearchTerms, GenrePageCap, MentionsHipHop,
                                             SearchLimit(limit)), stored, limit)
  {
    var all := SearchHipHopArtists(search, SearchLimit(limit));
    newArtists := KeepNewArtists(all, stored, limit);
  }

  /** The new artists are, in search order, exactly the results the database lacks among
      those examined; there are never more than `limit`, and fewer only when every result
      was examined. */
  lemma NewArtistsMeaning(search: ArtistSearch, stored: string -> bool, limit: int)
    ensures var all := Harvest(search, NotableArtists, SearchTerms, GenrePageCap, MentionsHipHop, SearchLimit(limit));
      var k := StopAt(all, NotStored(stored), limit, 0);
      var r := NewArtists(all, stored, limit);
      |r| <= Max(limit, 0)
      && (k < |all| ==> |r| == limit)
      && Subsequence(r, all[..k])
      && (forall a :: multiset(r)[a] == if stored(a.id) then 0 else multiset(all[..k])[a])
  {
    var all := Harvest(search, NotableArtists, SearchTerms, GenrePageCap, MentionsHipHop, SearchLimit(limit));
    var keep := NotStored(stored);
    var k := StopAt(all, keep, limit, 0);
    HarvestMeaning(search, NotableArtists, SearchTerms, GenrePageCap, MentionsHipHop, SearchLimit(limit));
    if limit >= 1 {
      assert all[..0] == [];
      StopAtBound(all, keep, limit, 0);
    }
    FilterSubsequence(all[..k], keep);
    forall a {
      FilterCount(all[..k], keep, a);
    }
  }

  /** main after the database count: search, pick the new artists, store their records;
      appearances are cut to 100 per artist. */
  method CollectNewArtists(search: ArtistSearch, stored: string -> bool, apis: Apis, limit: int) returns (b: Batch)
    ensures b == Process(NewArtists(Harvest(search, NotableArtists, SearchTerms, GenrePageCap, MentionsHipHop,
                                            SearchLimit(limit)), stored, limit), FullOf(apis, Some(100)))
  {
    var newArtists := SelectNewArtists(search, stored, limit);
    if newArtists == [] {
      return Batch([], None);
    }
    b := ProcessArtists(apis, newArtists, Some(100));
  }
}
