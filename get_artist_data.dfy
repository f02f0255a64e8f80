/** The stand-alone data script: the same per-artist record as the collection script,
    built for every artist of a genre-only search and stored whether or not the database
    already holds it. Its search differs in three ways: no notable names, larger genre
    pages, and a genre test on whole genre names. Appearances are not capped. */
module GetArtistData {
  import opened Common
  import opened Models
  import C = CollectArtists

  const SearchTerms: seq<string> := ["hip hop", "rap", "trap", "drill", "conscious rap", "gangsta rap"]

  /** The most artists one genre query asks for. */
  const GenrePageCap := 50

  /** The genre test of this script: one of the hip-hop words is itself one of the genres. */
  predicate ListsHipHop(a: SpotifyArtist)
  {
    exists g :: g in C.HipHopGenres && g in a.genres
  }

  /** This script's search. */
  method SearchHipHopArtists(search: C.ArtistSearch, limit: int) returns (artists: seq<SpotifyArtist>)
    ensures artists == C.Harvest(search, [], SearchTerms, GenrePageCap, ListsHipHop, limit)
  {
    artists := C.SearchHipHop(search, [], SearchTerms, GenrePageCap, ListsHipHop, limit);
  }

  /** Every artist of the search passes the genre test, there are at most `limit` of them,
      and no id comes twice. */
  lemma SearchMeaning(search: C.ArtistSearch, limit: int)
    ensures var r := C.Harvest(search, [], SearchTerms, GenrePageCap, ListsHipHop, limit);
      |r| <= Max(limit, 0) && C.DistinctIds(r) && forall i :: 0 <= i < |r| ==> ListsHipHop(r[i])
  {
    C.HarvestMeaning(search, [], SearchTerms, GenrePageCap, ListsHipHop, limit);
  }

  /** `p in s` survives putting text before `s`. */
  lemma {:induction false} SubstringExtend(p: string, pre: string, s: string)
    requires IsSubstring(p, s)
    ensures IsSubstring(p, pre + s)
    decreases |pre|
  {
    if pre != [] {
      SubstringExtend(p, pre[1..], s);
      assert (pre + s)[1..] == pre[1..] + s;
    } else {
      assert pre + s == s;
    }
  }

  /** `p in s` survives putting text after `s`. */
  lemma {:induction false} SubstringAppend(p: string, s: string, post: string)
    requires IsSubstring(p, s)
    ensures IsSubstring(p, s + post)
    decreases |s|
  {
    if !IsPrefix(p, s) {
      SubstringAppend(p, s[1..], post);
      assert (s + post)[1..] == s[1..] + post;
    } else {
      assert (s + post)[..|p|] == s[..|p|];
    }
  }

  /** Each part occurs in the joined text. */
  lemma {:induction false} JoinHasPart(parts: seq<string>, sep: string, k: int)
    requires 0 <= k < |parts|
    ensures IsSubstring(parts[k], Join(parts, sep))
    decreases |parts|
  {
    var p := parts[k];
    assert IsSubstring(p, p) by { assert p[..|p|] == p; }
    if |parts| > 1 {
      if k == 0 {
        SubstringAppend(p, p, sep + Join(parts[1..], sep));
        assert p + (sep + Join(parts[1..], sep)) == Join(parts, sep);
      } else {
        JoinHasPart(parts[1..], sep, k - 1);
        SubstringExtend(p, parts[0] + sep, Join(parts[1..], sep));
        assert (parts[0] + sep) + Join(parts[1..], sep) == Join(parts, sep);
      }
    }
  }

  /** Lower-casing both sides keeps `p in s`. */
  lemma {:induction false} SubstringLower(p: string, s: string)
    requires IsSubstring(p, s)
    ensures IsSubstring(Lower(p), Lower(s))
    decreases |s|
  {
    if IsPrefix(p, s) {
      assert Lower(s)[..|p|] == Lower(p);
    } else {
      SubstringLower(p, s[1..]);
      assert Lower(s)[1..] == Lower(s[1..]);
    }
  }

  /** An artist that passes this script's genre test passes the collection script's test. */
  lemma ListedIsMentioned(a: SpotifyArtist)
    requires ListsHipHop(a)
    ensures C.MentionsHipHop(a)
  {
    var g :| g in C.HipHopGenres && g in a.genres;
    var k :| 0 <= k < |a.genres| && a.genres[k] == g;
    JoinHasPart(a.genres, " ", k);
    SubstringLower(g, Join(a.genres, " "));
    LowerIdempotent(g);
  }

  /** The converse fails: a genre that only contains a hip-hop word passes the collection
      script's test but not this one. */
  lemma MentionedNotListed()
    ensures var a := SpotifyArtist("id", "name", None, ["trap latino"], None, []);
      C.MentionsHipHop(a) && !ListsHipHop(a)
  {
    var a := SpotifyArtist("id", "name", None, ["trap latino"], None, []);
    LowerIdempotent("trap latino");
    assert Join(a.genres, " ") == "trap latino";
    assert IsPrefix("trap", "trap latino");
    assert IsSubstring("trap", Lower(Join(a.genres, " ")));
    assert "trap" in C.HipHopGenres;
  }

  /** main after connecting: search, then build and store a record for every artist found,
      appearances uncapped, until a record raises. */
  method StoreArtists(search: C.ArtistSearch, apis: C.Apis, limit: int) returns (b: C.Batch)
    ensures b == C.Process(C.Harvest(search, [], SearchTerms, GenrePageCap, ListsHipHop, limit), C.FullOf(apis, None))
  {
    var artists := SearchHipHopArtists(search, limit);
    b := C.ProcessArtists(apis, artists, None);
  }
}
