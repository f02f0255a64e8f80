/** The lyrics scraper: a jittered rate limiter, the search URLs built for AZLyrics,
    MetroLyrics and Lyrics.com, the clean-ups applied to scraped names and titles, the
    fallback chain over the three sites and the per-artist batch. Web pages are replaced
    by the answers of an oracle keyed by URL, and HTML parsing by functions from a page
    to the elements the scraper selects in it. */
module LyricsScraper {
  import opened Common

  datatype ScrapedLyrics = ScrapedLyrics(artist: string, title: string, lyrics: string, source: string, url: string)

  // ---------------------------------------------------------------------------
  // Rate limiting

  /** How long `_respect_rate_limit` sleeps when called at `now`, the limiter having
      been stamped at `last` (0 meaning never) and `jitter` being the value drawn from
      `random.uniform(0.1, 1.0)`. */
  function Pause(last: real, rateLimit: real, now: real, jitter: real): (r: real)
    requires 0.1 <= jitter <= 1.0
    ensures r >= 0.0
    ensures r > 0.0 <==> last > 0.0 && now - last < rateLimit
    ensures last > 0.0 ==> now + r >= last + rateLimit
    ensures r > 0.0 ==> last + rateLimit + 0.1 <= now + r <= last + rateLimit + 1.0
  {
    if last > 0.0 && now - last < rateLimit then rateLimit - (now - last) + jitter else 0.0
  }

  /** One request that went through `_make_request`, and when it left. */
  datatype Request = Request(url: string, at: real)

  /** Consecutive requests are at least `gap` apart. */
  predicate Spaced(sent: seq<Request>, gap: real)
  {
    forall i :: 0 < i < |sent| ==> sent[i - 1].at + gap <= sent[i].at
  }

  /** `_make_request`'s handling of a failed fetch. */
  function RequestOutcome(answer: Result<string, string>): (r: Result<string, string>)
    ensures r.Ok? <==> answer.Ok?
    ensures answer.Ok? ==> r == answer
    ensures answer.Err? ==> r.error == "Request failed: " + answer.error
  {
    match answer
    case Ok(html) => Ok(html)
    case Err(e) => Err("Request failed: " + e)
  }

  class Scraper {
    const rateLimit: real
    var lastRequestTime: real
    /** Every request sent so far, oldest first. */
    ghost var sent: seq<Request>

    /** The limiter is stamped with the time of the last request, and consecutive
        requests are at least `rateLimit` apart. */
    ghost predicate Valid()
      reads this
    {
      (sent == [] ==> lastRequestTime == 0.0)
      && (sent != [] ==> lastRequestTime == sent[|sent| - 1].at > 0.0)
      && Spaced(sent, rateLimit)
    }

    constructor (rateLimit: real)
      ensures Valid()
      ensures this.rateLimit == rateLimit && lastRequestTime == 0.0 && sent == []
    {
      this.rateLimit := rateLimit;
      lastRequestTime := 0.0;
      sent := [];
    }

    /** `_respect_rate_limit`, called at time `now`; the sleep is taken as exact. */
    method RespectRateLimit(now: real, jitter: real) returns (slept: real)
      requires 0.1 <= jitter <= 1.0
      modifies this
      ensures slept == Pause(old(lastRequestTime), rateLimit, now, jitter)
      ensures lastRequestTime == now + slept
      ensures sent == old(sent)
    {
      slept := 0.0;
      if lastRequestTime > 0.0 {
        var elapsed := now - lastRequestTime;
        if elapsed < rateLimit {
          slept := rateLimit - elapsed + jitter;
        }
      }
      lastRequestTime := now + slept;
    }

    /** `_make_request`: wait for the limiter, then fetch `url`, whose answer is
        `answer`. `now` is a reading of the wall clock, which is positive. */
    method MakeRequest(url: string, answer: Result<string, string>, now: real, jitter: real)
      returns (r: Result<string, string>)
      requires Valid() && now > 0.0 && 0.1 <= jitter <= 1.0
      modifies this
      ensures Valid()
      ensures sent == old(sent) + [Request(url, now + Pause(old(lastRequestTime), rateLimit, now, jitter))]
      ensures r == RequestOutcome(answer)
    {
      var slept := RespectRateLimit(now, jitter);
      sent := sent + [Request(url, now + slept)];
      r := RequestOutcome(answer);
    }
  }

  // ---------------------------------------------------------------------------
  // Search URLs

  /** `re.sub(r"[^a-zA-Z0-9]", fill, s.lower())`. */
  function Substitute(s: string, fill: char): (r: string)
    ensures |r| == |s|
    ensures forall i :: 0 <= i < |s| ==> r[i] == if IsAsciiAlnum(s[i]) then LowerChar(s[i]) else fill
  {
    seq(|s|, i requires 0 <= i < |s| => var c := LowerChar(s[i]); if IsAsciiAlnum(c) then c else fill)
  }

  predicate SlugChars(s: string, fill: char)
  {
    forall i :: 0 <= i < |s| ==> IsAsciiLower(s[i]) || IsAsciiDigit(s[i]) || s[i] == fill
  }

  /** The query text `search_azlyrics` sends for an artist or a title. */
  function AzQuery(s: string): string { Substitute(s, '+') }

  /** The query keeps the length of its input and uses only lower-case letters, digits
      and `+`; a string already of that shape is its own query. */
  lemma AzQueryShape(s: string)
    ensures |AzQuery(s)| == |s| && SlugChars(AzQuery(s), '+')
    ensures AzQuery(s) == s <==> SlugChars(s, '+')
    ensures AzQuery(AzQuery(s)) == AzQuery(s)
  {
    if SlugChars(s, '+') {
      assert forall i :: 0 <= i < |s| ==> AzQuery(s)[i] == s[i];
    }
  }

  function AzSearchUrl(artist: string, title: string): string
  {
    "https://search.azlyrics.com/search.php?q=" + AzQuery(artist) + "+" + AzQuery(title)
  }

  /** `s.lstrip(c)`. */
  function TrimLeft(s: string, c: char): (r: string)
    ensures |r| <= |s| && r == s[|s| - |r|..]
    ensures r == [] || r[0] != c
    ensures forall i :: 0 <= i < |s| - |r| ==> s[i] == c
  {
    if s != [] && s[0] == c then TrimLeft(s[1..], c) else s
  }

  /** `s.rstrip(c)`. */
  function TrimRight(s: string, c: char): (r: string)
    ensures |r| <= |s| && r == s[..|r|]
    ensures r == [] || r[|r| - 1] != c
    ensures forall i :: |r| <= i < |s| ==> s[i] == c
  {
    if s != [] && s[|s| - 1] == c then TrimRight(s[..|s| - 1], c) else s
  }

  /** `s.strip(c)`: only runs of `c` at either end are removed. */
  function StripChar(s: string, c: char): (r: string)
    ensures |r| <= |s| && forall k :: 0 <= k < |r| ==> r[k] in s
    ensures r == [] || (r[0] != c && r[|r| - 1] != c)
  {
    var l := TrimLeft(s, c);
    var r := TrimRight(l, c);
    assert r == [] || r[0] == l[0];
    r
  }

  /** The path component `search_metrolyrics` builds for an artist or a title. */
  function MetroSlug(s: string): string { StripChar(Substitute(s, '-'), '-') }

  /** The slug is made of lower-case letters, digits and inner dashes, and is no longer
      than its input. */
  lemma MetroSlugChars(s: string)
    ensures |MetroSlug(s)| <= |s| && SlugChars(MetroSlug(s), '-')
    ensures MetroSlug(s) == [] || (MetroSlug(s)[0] != '-' && MetroSlug(s)[|MetroSlug(s)| - 1] != '-')
  {
    var u := Substitute(s, '-');
    assert SlugChars(u, '-');
  }

  /** A slug is its own slug. */
  lemma MetroSlugFixpoint(s: string)
    ensures MetroSlug(MetroSlug(s)) == MetroSlug(s)
  {
    var t := MetroSlug(s);
    MetroSlugChars(s);
    var u := Substitute(t, '-');
    assert forall k :: 0 <= k < |t| ==> u[k] == t[k];
    assert u == t;
    assert TrimLeft(t, '-') == t;
  }

  function MetroUrl(artist: string, title: string): string
  {
    "https://www.metrolyrics.com/" + MetroSlug(title) + "-lyrics-" + MetroSlug(artist) + ".html"
  }

  /** `s.replace(' ', '%20')`. */
  function EscapeSpaces(s: string): (r: string)
    ensures ' ' !in r
  {
    if s == [] then [] else (if s[0] == ' ' then "%20" else [s[0]]) + EscapeSpaces(s[1..])
  }

  /** Turns every `%20` back into a space. */
  function UnescapeSpaces(s: string): string
  {
    if s == [] then []
    else if |s| >= 3 && s[..3] == "%20" then " " + UnescapeSpaces(s[3..])
    else [s[0]] + UnescapeSpaces(s[1..])
  }

  /** Escaping loses nothing as long as the text holds no `%`. */
  lemma {:induction false} EscapeSpacesRoundTrip(s: string)
    requires '%' !in s
    ensures UnescapeSpaces(EscapeSpaces(s)) == s
  {
    if s != [] {
      EscapeSpacesRoundTrip(s[1..]);
      var rest := EscapeSpaces(s[1..]);
      if s[0] == ' ' {
        assert ("%20" + rest)[..3] == "%20" && ("%20" + rest)[3..] == rest;
      } else {
        assert ([s[0]] + rest)[1..] == rest;
      }
      assert s == [s[0]] + s[1..];
    }
  }

  /** The page `search_lyrics_com` opens. */
  function LyricsComUrl(artist: string, title: string): string
  {
    "https://www.lyrics.com/lyrics/" + EscapeSpaces(Lower(artist + " " + title))
  }

  // ---------------------------------------------------------------------------
  // Name and title clean-ups

  /** `s` starts with "lyrics by:" in any case. */
  predicate CreditPrefix(s: string) { |s| >= 10 && Lower(s[..10]) == "lyrics by:" }

  /** `re.sub(r"^lyrics by:", "", s, flags=re.IGNORECASE)`. */
  function DropLyricsBy(s: string): (r: string)
    ensures CreditPrefix(s) ==> s == s[..10] + r
    ensures !CreditPrefix(s) ==> r == s
  {
    if CreditPrefix(s) then s[10..] else s
  }

  /** The artist name `get_lyrics_from_azlyrics` keeps from the page heading. */
  function CleanAzArtist(raw: string): string { Strip(DropLyricsBy(Strip(raw))) }

  /** A credit line "Lyrics by: X", in any case, is reduced to the name X. */
  lemma CleanAzArtistCredit(p: string, name: string)
    requires Lower(p) == "lyrics by:" && Strip(name) == name
    ensures CleanAzArtist(p + " " + name) == name
  {
    var s := p + " " + name;
    assert |p| == 10 && s[0] == p[0] && !IsSpace(p[0]);
    assert StripLeft(s) == s;
    if name == [] {
      assert s[..|s| - 1] == p;
      assert Lower(p)[9] == ':' && p[9] == ':';
      assert StripRight(p) == p;
      assert StripRight(s) == p;
      assert DropLyricsBy(p) == [];
    } else {
      StripProps(name);
      assert s[|s| - 1] == name[|name| - 1];
      assert StripRight(s) == s;
      assert s[..10] == p && s[10..] == " " + name;
      StripSpaceBefore(name);
    }
  }

  /** One space before a stripped, non-empty name is stripped away again. */
  lemma StripSpaceBefore(name: string)
    requires Strip(name) == name && name != []
    ensures Strip(" " + name) == name
  {
    StripProps(name);
    var t := " " + name;
    assert t[1..] == name;
    assert StripLeft(t) == StripLeft(name) == name;
  }

  /** `re.sub(r'^"(.*)"$', r"\1", s)`: one pair of surrounding double quotes goes, as
      long as no line break lies between them (`.` does not match `\n`); `$` also
      matches just before a final line break. */
  function Unquote(s: string): (r: string)
    ensures |r| == |s| || |r| == |s| - 2
    ensures |r| == |s| - 2 ==> s == "\"" + r + "\"" || (|r| >= 1 && r[|r| - 1] == '\n' && s == "\"" + r[..|r| - 1] + "\"\n")
    ensures |r| == |s| ==> r == s
  {
    if |s| >= 2 && s[0] == '"' && s[|s| - 1] == '"' && '\n' !in s[1..|s| - 1] then
      s[1..|s| - 1]
    else if |s| >= 3 && s[0] == '"' && s[|s| - 2] == '"' && s[|s| - 1] == '\n' && '\n' !in s[1..|s| - 2] then
      s[1..|s| - 2] + "\n"
    else s
  }

  /** A quoted single-line title loses its quotes. */
  lemma UnquoteQuoted(t: string)
    requires '\n' !in t
    ensures Unquote("\"" + t + "\"") == t
  {
    var s := "\"" + t + "\"";
    assert s[1..|s| - 1] == t;
  }

  /** The song title `get_lyrics_from_azlyrics` keeps. */
  function CleanAzTitle(raw: string): string { Unquote(Strip(raw)) }

  /** `s` ends with " lyrics" in any case. */
  predicate LyricsSuffix(s: string) { |s| >= 7 && Lower(s[|s| - 7..]) == " lyrics" }

  /** `re.sub(r" lyrics$", "", s, flags=re.IGNORECASE)`; `$` also matches just before
      a final line break. */
  function DropLyricsSuffix(s: string): (r: string)
    ensures |r| == |s| || |r| == |s| - 7
    ensures |r| == |s| ==> r == s
    ensures LyricsSuffix(s) ==> r == s[..|s| - 7]
    ensures !LyricsSuffix(s) && |r| < |s| ==> s[|s| - 1] == '\n' && LyricsSuffix(s[..|s| - 1]) && r == s[..|s| - 8] + "\n"
  {
    if LyricsSuffix(s) then s[..|s| - 7]
    else if |s| >= 8 && s[|s| - 1] == '\n' && LyricsSuffix(s[..|s| - 1]) then
      assert s[..|s| - 1][..|s| - 8] == s[..|s| - 8];
      s[..|s| - 8] + "\n"
    else s
  }

  /** The song title `get_lyrics_from_metrolyrics` keeps. */
  function CleanMetroTitle(raw: string): string { DropLyricsSuffix(Strip(raw)) }

  /** A heading "T Lyrics", in any case, is reduced to the title T. */
  lemma CleanMetroTitleSuffix(t: string, q: string)
    requires t != [] && Strip(t) == t && Lower(q) == " lyrics"
    ensures CleanMetroTitle(t + q) == t
  {
    var s := t + q;
    StripProps(t);
    assert s[0] == t[0] && !IsSpace(s[0]);
    assert StripLeft(s) == s;
    assert |q| == 7 && s[|s| - 1] == q[6] && !IsSpace(q[6]);
    assert StripRight(s) == s;
    assert s[|s| - 7..] == q && s[..|s| - 7] == t;
  }

  // ---------------------------------------------------------------------------
  // Pages and what the scraper selects in them

  /** A link: its text and its `href` attribute, when it has one. */
  datatype Link = Link(text: string, href: Option<string>)

  /** A `.panel` of an AZLyrics search page: its heading, if any, and its `td a` links. */
  datatype Panel = Panel(heading: Option<string>, links: seq<Link>)

  /** The title, artist and lyrics texts found on a lyrics page. */
  datatype PageFields = PageFields(artist: string, title: string, lyrics: string)

  /** MetroLyrics spreads the lyrics over `.verse` blocks. */
  datatype VerseFields = VerseFields(artist: string, title: string, verses: seq<string>)

  /** Why a lyrics page yielded no fields: an element the scraper looks for is absent
      (the "Could not find ..." errors), or the parser raised. */
  datatype ParseFailure = Missing(message: string) | Crashed(message: string)

  /** A song link of an AZLyrics artist page (`a[href^="/lyrics/"]`). */
  datatype SongLink = SongLink(text: string, href: string)

  /** The web as the scraper sees it. */
  datatype Web = Web(
    /** the body served for a URL, or why the request failed */
    get: string -> Result<string, string>,
    /** the status code of a HEAD request */
    head: string -> Result<int, string>,
    /** the panels of an AZLyrics search page, or the parser's error */
    azSearch: string -> Result<seq<Panel>, string>,
    azPage: string -> Result<PageFields, ParseFailure>,
    metroPage: string -> Result<VerseFields, ParseFailure>,
    /** the `.lyric-meta-title a` results of a Lyrics.com search page */
    lyricsComSearch: string -> Result<seq<Link>, string>,
    lyricsComPage: string -> Result<PageFields, ParseFailure>,
    /** the song links under each `div.album` of an AZLyrics artist page */
    azArtistPage: string -> Result<seq<seq<SongLink>>, string>)

  function Fetch(web: Web, url: string): Result<string, string> { RequestOutcome(web.get(url)) }

  // ---------------------------------------------------------------------------
  // Searching

  predicate HeadingHas(p: Panel, words: string)
  {
    p.heading.Some? && IsSubstring(words, Lower(p.heading.value))
  }

  /** The result link of a song-results panel, when it has an `href`. */
  predicate HasSongLink(p: Panel)
  {
    HeadingHas(p, "song results") && p.links != [] && p.links[0].href.Some?
  }

  /** The loop over panels in `search_azlyrics`: the first link of the first
      song-results panel that has one. */
  function FirstSongLink(panels: seq<Panel>): (r: Option<string>)
    ensures r.None? <==> forall i :: 0 <= i < |panels| ==> !HasSongLink(panels[i])
    ensures r.Some? ==> exists i :: 0 <= i < |panels| && HasSongLink(panels[i])
                         && r.value == panels[i].links[0].href.value
                         && forall j :: 0 <= j < i ==> !HasSongLink(panels[j])
  {
    if panels == [] then None
    else if HasSongLink(panels[0]) then Some(panels[0].links[0].href.value)
    else
      var r := FirstSongLink(panels[1..]);
      assert forall j :: 1 <= j < |panels| ==> panels[j] == panels[1..][j - 1];
      r
  }

  /** `search_azlyrics`: the first song result of the search page; a failed request or
      parse gives nothing. */
  function SearchAzlyrics(web: Web, artist: string, title: string): (r: Option<string>)
    ensures web.get(AzSearchUrl(artist, title)).Err? ==> r.None?
    ensures r.Some? ==>
      web.get(AzSearchUrl(artist, title)).Ok? && web.azSearch(web.get(AzSearchUrl(artist, title)).value).Ok?
      && var panels := web.azSearch(web.get(AzSearchUrl(artist, title)).value).value;
         exists i :: 0 <= i < |panels| && HasSongLink(panels[i]) && r.value == panels[i].links[0].href.value
  {
    match Fetch(web, AzSearchUrl(artist, title))
    case Err(_) => None
    case Ok(html) =>
      match web.azSearch(html)
      case Err(_) => None
      case Ok(panels) => FirstSongLink(panels)
  }

  /** `search_metrolyrics` guesses the page address and keeps it when a HEAD request
      answers 200. */
  function SearchMetrolyrics(web: Web, artist: string, title: string): (r: Option<string>)
    ensures r.Some? <==> web.head(MetroUrl(artist, title)) == Ok(200)
    ensures r.Some? ==> r.value == MetroUrl(artist, title)
  {
    var url := MetroUrl(artist, title);
    if web.head(url) == Ok(200) then Some(url) else None
  }

  predicate Mentions(l: Link, artist: string, title: string)
  {
    IsSubstring(Lower(artist), Lower(l.text)) && IsSubstring(Lower(title), Lower(l.text))
  }

  /** The loop over results in `search_lyrics_com`: the first result mentioning both
      the artist and the title decides; if it has no `href`, the lookup raises and the
      search gives up. */
  function MatchingResult(links: seq<Link>, artist: string, title: string): (r: Option<string>)
    ensures r.Some? ==> exists i :: 0 <= i < |links| && Mentions(links[i], artist, title)
                         && links[i].href.Some? && r.value == "https://www.lyrics.com" + links[i].href.value
                         && forall j :: 0 <= j < i ==> !Mentions(links[j], artist, title)
    ensures (forall i :: 0 <= i < |links| ==> !Mentions(links[i], artist, title)) ==> r.None?
  {
    if links == [] then None
    else if Mentions(links[0], artist, title) then
      if links[0].href.Some? then Some("https://www.lyrics.com" + links[0].href.value) else None
    else
      var r := MatchingResult(links[1..], artist, title);
      assert forall j :: 1 <= j < |links| ==> links[j] == links[1..][j - 1];
      r
  }

  /** `search_lyrics_com`: the first result naming both the artist and the title; a
      failed request or parse gives nothing. */
  function SearchLyricsCom(web: Web, artist: string, title: string): (r: Option<string>)
    ensures web.get(LyricsComUrl(artist, title)).Err? ==> r.None?
    ensures r.Some? ==>
      web.get(LyricsComUrl(artist, title)).Ok? && web.lyricsComSearch(web.get(LyricsComUrl(artist, title)).value).Ok?
      && var links := web.lyricsComSearch(web.get(LyricsComUrl(artist, title)).value).value;
         exists i :: 0 <= i < |links| && Mentions(links[i], artist, title) && links[i].href.Some?
                     && r.value == "https://www.lyrics.com" + links[i].href.value
  {
    match Fetch(web, LyricsComUrl(artist, title))
    case Err(_) => None
    case Ok(html) =>
      match web.lyricsComSearch(html)
      case Err(_) => None
      case Ok(links) => MatchingResult(links, artist, title)
  }

  // ---------------------------------------------------------------------------
  // Scraping a lyrics page

  /** A `LyricsScraperError` raised while parsing passes unchanged; anything else
      is wrapped with the site's name. */
  function ParseError(site: string, f: ParseFailure): string
  {
    match f
    case Missing(m) => m
    case Crashed(m) => "Failed to scrape " + site + ": " + m
  }

  function GetLyricsFromAzlyrics(web: Web, url: string): (r: Result<ScrapedLyrics, string>)
    ensures r.Ok? ==> r.value.url == url && r.value.source == "AZLyrics"
    ensures web.get(url).Err? ==> r == Err("Request failed: " + web.get(url).error)
  {
    match Fetch(web, url)
    case Err(e) => Err(e)
    case Ok(html) =>
      match web.azPage(html)
      case Err(f) => Err(ParseError("AZLyrics", f))
      case Ok(p) => Ok(ScrapedLyrics(CleanAzArtist(p.artist), CleanAzTitle(p.title), Strip(p.lyrics), "AZLyrics", url))
  }

  function StripAll(xs: seq<string>): (r: seq<string>)
    ensures |r| == |xs| && forall i :: 0 <= i < |xs| ==> r[i] == Strip(xs[i])
  {
    seq(|xs|, i requires 0 <= i < |xs| => Strip(xs[i]))
  }

  function GetLyricsFromMetrolyrics(web: Web, url: string): (r: Result<ScrapedLyrics, string>)
    ensures r.Ok? ==> r.value.url == url && r.value.source == "MetroLyrics"
    ensures web.get(url).Err? ==> r == Err("Request failed: " + web.get(url).error)
    ensures web.get(url).Ok? && web.metroPage(web.get(url).value).Ok? && web.metroPage(web.get(url).value).value.verses == []
            ==> r == Err("Could not find lyrics container")
  {
    match Fetch(web, url)
    case Err(e) => Err(e)
    case Ok(html) =>
      match web.metroPage(html)
      case Err(f) => Err(ParseError("MetroLyrics", f))
      case Ok(p) =>
        if p.verses == [] then Err("Could not find lyrics container")
        else Ok(ScrapedLyrics(Strip(p.artist), CleanMetroTitle(p.title), Join(StripAll(p.verses), "\n\n"), "MetroLyrics", url))
  }

  function GetLyricsFromLyricsCom(web: Web, url: string): (r: Result<ScrapedLyrics, string>)
    ensures r.Ok? ==> r.value.url == url && r.value.source == "Lyrics.com"
    ensures web.get(url).Err? ==> r == Err("Request failed: " + web.get(url).error)
  {
    match Fetch(web, url)
    case Err(e) => Err(e)
    case Ok(html) =>
      match web.lyricsComPage(html)
      case Err(f) => Err(ParseError("Lyrics.com", f))
      case Ok(p) => Ok(ScrapedLyrics(Strip(p.artist), Strip(p.title), Strip(p.lyrics), "Lyrics.com", url))
  }

  // ---------------------------------------------------------------------------
  // The fallback chain of `get_song_lyrics`

  datatype Source = AzLyrics | MetroLyrics | LyricsCom

  /** The sources, in the order they are tried. */
  const Sources: seq<Source> := [AzLyrics, MetroLyrics, LyricsCom]

  function Search(web: Web, src: Source, artist: string, title: string): Option<string>
  {
    match src
    case AzLyrics => SearchAzlyrics(web, artist, title)
    case MetroLyrics => SearchMetrolyrics(web, artist, title)
    case LyricsCom => SearchLyricsCom(web, artist, title)
  }

  function GetLyrics(web: Web, src: Source, url: string): (r: Result<ScrapedLyrics, string>)
    ensures r.Ok? ==> r.value.url == url
  {
    match src
    case AzLyrics => GetLyricsFromAzlyrics(web, url)
    case MetroLyrics => GetLyricsFromMetrolyrics(web, url)
    case LyricsCom => GetLyricsFromLyricsCom(web, url)
  }

  /** Where each source's search leads, and what scraping an address of a source gives. */
  function SearchFor(web: Web, artist: string, title: string): Source -> Option<string>
  {
    src => Search(web, src, artist, title)
  }

  function ScrapeOn(web: Web): (Source, string) -> Result<ScrapedLyrics, string>
  {
    (src, url) => GetLyrics(web, src, url)
  }

  /** A source finds a (non-empty) address and the page there scrapes. */
  predicate Succeeds(src: Source, search: Source -> Option<string>, scrape: (Source, string) -> Result<ScrapedLyrics, string>)
  {
    Given(search(src)) && scrape(src, search(src).value).Ok?
  }

  datatype Chain = Found(lyrics: ScrapedLyrics) | Exhausted(errors: seq<string>)

  /** Errors recorded before the rest of the chain ran. */
  function Resume(errors: seq<string>, c: Chain): Chain
  {
    match c
    case Found(l) => Found(l)
    case Exhausted(es) => Exhausted(errors + es)
  }

  lemma ResumeTwice(a: seq<string>, b: seq<string>, c: Chain)
    ensures Resume(a, Resume(b, c)) == Resume(a + b, c)
  {
    if c.Exhausted? {
      assert a + (b + c.errors) == (a + b) + c.errors;
    }
  }

  /** Trying `srcs` in order: a source that finds no address is passed over, one whose
      page fails to scrape records the error, and the first page that scrapes is the answer. */
  function Fallback(srcs: seq<Source>, search: Source -> Option<string>,
                    scrape: (Source, string) -> Result<ScrapedLyrics, string>): Chain
  {
    if srcs == [] then Exhausted([])
    else
      var u := search(srcs[0]);
      if !Given(u) then Fallback(srcs[1..], search, scrape)
      else
        match scrape(srcs[0], u.value)
        case Ok(l) => Found(l)
        case Err(e) => Resume([e], Fallback(srcs[1..], search, scrape))
  }

  /** The scrape errors of every source that finds an address, in source order,
      whether or not a later source succeeds. */
  function ErrorsOf(srcs: seq<Source>, search: Source -> Option<string>,
                    scrape: (Source, string) -> Result<ScrapedLyrics, string>): (r: seq<string>)
    ensures |r| <= |srcs|
  {
    if srcs == [] then []
    else
      var u := search(srcs[0]);
      var here := if Given(u) && scrape(srcs[0], u.value).Err? then [scrape(srcs[0], u.value).error] else [];
      here + ErrorsOf(srcs[1..], search, scrape)
  }

  /** The chain answers with the page of the first source that succeeds. */
  lemma {:induction false} FallbackFirstSuccess(srcs: seq<Source>, search: Source -> Option<string>,
                                                scrape: (Source, string) -> Result<ScrapedLyrics, string>, i: nat)
    requires i < |srcs| && Succeeds(srcs[i], search, scrape)
    requires forall j :: 0 <= j < i ==> !Succeeds(srcs[j], search, scrape)
    ensures Fallback(srcs, search, scrape) == Found(scrape(srcs[i], search(srcs[i]).value).value)
  {
    if i > 0 {
      assert !Succeeds(srcs[0], search, scrape);
      assert forall j :: 0 <= j < i - 1 ==> srcs[1..][j] == srcs[j + 1];
      FallbackFirstSuccess(srcs[1..], search, scrape, i - 1);
    }
  }

  /** The chain is exhausted exactly when no source succeeds, and it then carries the
      error of every source that found an address, in order. */
  lemma {:induction false} FallbackExhausted(srcs: seq<Source>, search: Source -> Option<string>,
                                             scrape: (Source, string) -> Result<ScrapedLyrics, string>)
    ensures Fallback(srcs, search, scrape).Exhausted? <==> forall i :: 0 <= i < |srcs| ==> !Succeeds(srcs[i], search, scrape)
    ensures Fallback(srcs, search, scrape).Exhausted? ==> Fallback(srcs, search, scrape).errors == ErrorsOf(srcs, search, scrape)
  {
    if srcs != [] {
      FallbackExhausted(srcs[1..], search, scrape);
      assert forall j :: 1 <= j < |srcs| ==> srcs[j] == srcs[1..][j - 1];
    }
  }

  function NotFoundMessage(artist: string, title: string, errors: seq<string>): string
  {
    "Could not find lyrics for " + artist + " - " + title + " in any source: " + Join(errors, "; ")
  }

  /** What `get_song_lyrics` returns or raises. */
  function SongLyrics(web: Web, artist: string, title: string): Result<ScrapedLyrics, string>
  {
    match Fallback(Sources, SearchFor(web, artist, title), ScrapeOn(web))
    case Found(l) => Ok(l)
    case Exhausted(es) => Err(NotFoundMessage(artist, title, es))
  }

  /** `get_song_lyrics`: AZLyrics, then MetroLyrics, then Lyrics.com. */
  method GetSongLyrics(web: Web, artist: string, title: string) returns (r: Result<ScrapedLyrics, string>)
    ensures r == SongLyrics(web, artist, title)
  {
    var search := SearchFor(web, artist, title);
    var scrape := ScrapeOn(web);
    var errors: seq<string> := [];
    var i := 0;
    while i < |Sources|
      invariant 0 <= i <= |Sources|
      invariant Fallback(Sources, search, scrape) == Resume(errors, Fallback(Sources[i..], search, scrape))
    {
      assert Sources[i..][1..] == Sources[i + 1..];
      var url := search(Sources[i]);
      if Given(url) {
        var got := scrape(Sources[i], url.value);
        if got.Ok? {
          return Ok(got.value);
        }
        ResumeTwice(errors, [got.error], Fallback(Sources[i + 1..], search, scrape));
        errors := errors + [got.error];
      }
      i := i + 1;
    }
    assert errors + [] == errors;
    r := Err(NotFoundMessage(artist, title, errors));
  }

  /** `get_song_lyrics` fails exactly when no source succeeds, and its message lists
      the errors of the sources that found an address, in the order they were tried;
      otherwise it answers with the page of the first source that succeeds. */
  lemma SongLyricsOutcome(web: Web, artist: string, title: string)
    ensures SongLyrics(web, artist, title).Err?
            <==> forall i :: 0 <= i < |Sources| ==> !Succeeds(Sources[i], SearchFor(web, artist, title), ScrapeOn(web))
    ensures SongLyrics(web, artist, title).Err?
            ==> SongLyrics(web, artist, title).error
                == NotFoundMessage(artist, title, ErrorsOf(Sources, SearchFor(web, artist, title), ScrapeOn(web)))
  {
    FallbackExhausted(Sources, SearchFor(web, artist, title), ScrapeOn(web));
  }

  // ---------------------------------------------------------------------------
  // The artist batch of `get_artist_lyrics`

  datatype Song = Song(title: string, url: string)

  predicate ArtistLink(l: Link, artist: string)
  {
    l.href.Some? && IsSubstring(Lower(artist), Lower(l.text))
  }

  /** The addresses of the links of one panel that name the artist: the `href` of each
      link `ArtistLink` keeps, in page order. */
  function ArtistHrefs(links: seq<Link>, artist: string): (r: seq<string>)
    ensures |r| == |Filter(links, (l: Link) => ArtistLink(l, artist))|
    ensures forall i :: 0 <= i < |r| ==> r[i] == Filter(links, (l: Link) => ArtistLink(l, artist))[i].href.value
  {
    if links == [] then []
    else
      var last := links[|links| - 1];
      ArtistHrefs(links[..|links| - 1], artist) + (if ArtistLink(last, artist) then [last.href.value] else [])
  }

  /** The loop over panels in `search_artist_songs`: only the first artist-results
      panel is read. */
  function ArtistUrls(panels: seq<Panel>, artist: string): seq<string>
  {
    if panels == [] then []
    else if HeadingHas(panels[0], "artist results") then ArtistHrefs(panels[0].links, artist)
    else ArtistUrls(panels[1..], artist)
  }

  /** Without an artist-results panel there is no address. */
  lemma {:induction false} ArtistUrlsNoPanel(panels: seq<Panel>, artist: string)
    requires forall i :: 0 <= i < |panels| ==> !HeadingHas(panels[i], "artist results")
    ensures ArtistUrls(panels, artist) == []
  {
    if panels != [] {
      ArtistUrlsNoPanel(panels[1..], artist);
    }
  }

  /** The panel loop stops at the first artist-results panel and reads its links only. */
  lemma {:induction false} ArtistUrlsFirstPanel(panels: seq<Panel>, artist: string, i: int)
    requires 0 <= i < |panels| && HeadingHas(panels[i], "artist results")
    requires forall j :: 0 <= j < i ==> !HeadingHas(panels[j], "artist results")
    ensures ArtistUrls(panels, artist) == ArtistHrefs(panels[i].links, artist)
  {
    if i > 0 {
      assert !HeadingHas(panels[0], "artist results");
      ArtistUrlsFirstPanel(panels[1..], artist, i - 1);
    }
  }

  /** Every song link under every album, in page order. */
  function SongsOf(albums: seq<seq<SongLink>>): (r: seq<Song>)
  {
    if albums == [] then []
    else SongsOfAlbum(albums[0]) + SongsOf(albums[1..])
  }

  /** A song link as the list holds it: the stripped text and the absolute address. */
  function SongOf(l: SongLink): Song
  {
    Song(Strip(l.text), "https://www.azlyrics.com" + l.href)
  }

  function SongsOfAlbum(links: seq<SongLink>): (r: seq<Song>)
    ensures |r| == |links|
    ensures forall i :: 0 <= i < |links| ==> r[i] == SongOf(links[i])
  {
    if links == [] then [] else [SongOf(links[0])] + SongsOfAlbum(links[1..])
  }

  /** Every link under every album gives a song of the list. */
  lemma {:induction false} SongsOfComplete(albums: seq<seq<SongLink>>, k: int, j: int)
    requires 0 <= k < |albums| && 0 <= j < |albums[k]|
    ensures SongOf(albums[k][j]) in SongsOf(albums)
  {
    if k == 0 {
      assert SongsOfAlbum(albums[0])[j] == SongOf(albums[0][j]);
    } else {
      assert albums[k] == albums[1..][k - 1];
      SongsOfComplete(albums[1..], k - 1, j);
    }
  }

  /** Every song of the list comes from a link under some album. */
  lemma {:induction false} SongsOfSound(albums: seq<seq<SongLink>>, s: Song)
    requires s in SongsOf(albums)
    ensures exists k, j :: 0 <= k < |albums| && 0 <= j < |albums[k]| && s == SongOf(albums[k][j])
  {
    var first := SongsOfAlbum(albums[0]);
    if s in first {
      var j :| 0 <= j < |first| && first[j] == s;
      assert s == SongOf(albums[0][j]);
    } else {
      SongsOfSound(albums[1..], s);
      var k, j :| 0 <= k < |albums[1..]| && 0 <= j < |albums[1..][k]| && s == SongOf(albums[1..][k][j]);
      assert albums[1..][k] == albums[k + 1];
    }
  }

  function SearchFailed(e: string): string { "Failed to search artist songs: " + e }

  /** The search page `search_artist_songs` asks for. */
  function ArtistSearchUrl(artist: string): string
  {
    "https://search.azlyrics.com/search.php?q=" + AzQuery(artist)
  }

  /** The second step of `search_artist_songs`: the songs on the page of one artist. */
  function ArtistPageSongs(web: Web, url: string): (r: Result<seq<Song>, string>)
    ensures Fetch(web, url).Err? ==> r == Err(SearchFailed(Fetch(web, url).error))
    ensures Fetch(web, url).Ok? && web.azArtistPage(Fetch(web, url).value).Err?
            ==> r == Err(SearchFailed(web.azArtistPage(Fetch(web, url).value).error))
    ensures Fetch(web, url).Ok? && web.azArtistPage(Fetch(web, url).value).Ok?
            ==> r == Ok(SongsOf(web.azArtistPage(Fetch(web, url).value).value))
  {
    match Fetch(web, url)
    case Err(e) => Err(SearchFailed(e))
    case Ok(page) =>
      match web.azArtistPage(page)
      case Err(e) => Err(SearchFailed(e))
      case Ok(albums) => Ok(SongsOf(albums))
  }

  /** `search_artist_songs`: the artist search page, then the page of the first
      matching artist. */
  function SearchArtistSongs(web: Web, artist: string): (r: Result<seq<Song>, string>)
    ensures Fetch(web, ArtistSearchUrl(artist)).Err? ==> r == Err(SearchFailed(Fetch(web, ArtistSearchUrl(artist)).error))
  {
    match Fetch(web, ArtistSearchUrl(artist))
    case Err(e) => Err(SearchFailed(e))
    case Ok(html) =>
      match web.azSearch(html)
      case Err(e) => Err(SearchFailed(e))
      case Ok(panels) =>
        var urls := ArtistUrls(panels, artist);
        if urls == [] then Ok([]) else ArtistPageSongs(web, urls[0])
  }

  /** Every failure of the artist search is reported as a search failure; with the
      search page read, there is no song when no link of the first artist-results panel
      names the artist (see `ArtistUrlsNoPanel` and `ArtistUrlsFirstPanel`), and otherwise
      the songs are those of the page of the first such link. */
  lemma SearchArtistSongsMeaning(web: Web, artist: string)
    ensures SearchArtistSongs(web, artist).Err?
            ==> exists e :: SearchArtistSongs(web, artist) == Err(SearchFailed(e))
    ensures var html := Fetch(web, ArtistSearchUrl(artist));
            html.Ok? && web.azSearch(html.value).Err?
            ==> SearchArtistSongs(web, artist) == Err(SearchFailed(web.azSearch(html.value).error))
    ensures var html := Fetch(web, ArtistSearchUrl(artist));
            html.Ok? && web.azSearch(html.value).Ok? && ArtistUrls(web.azSearch(html.value).value, artist) == []
            ==> SearchArtistSongs(web, artist) == Ok([])
    ensures var html := Fetch(web, ArtistSearchUrl(artist));
            html.Ok? && web.azSearch(html.value).Ok? && ArtistUrls(web.azSearch(html.value).value, artist) != []
            ==> SearchArtistSongs(web, artist) == ArtistPageSongs(web, ArtistUrls(web.azSearch(html.value).value, artist)[0])
  {
  }

  /** The lyrics of the songs whose AZLyrics page scrapes, in song order. */
  function Kept(web: Web, songs: seq<Song>): (r: seq<ScrapedLyrics>)
    ensures |r| <= |songs|
  {
    if songs == [] then []
    else
      var last := GetLyricsFromAzlyrics(web, songs[|songs| - 1].url);
      Kept(web, songs[..|songs| - 1]) + (if last.Ok? then [last.value] else [])
  }

  /** What `get_artist_lyrics` returns or raises. */
  function ArtistLyrics(web: Web, artist: string, maxSongs: int): Result<seq<ScrapedLyrics>, string>
  {
    match SearchArtistSongs(web, artist)
    case Err(e) => Err(e)
    case Ok(songs) =>
      if songs == [] then Err("Could not find songs for artist " + artist)
      else Ok(Kept(web, PySlicePrefix(songs, maxSongs)))
  }

  /** `get_artist_lyrics`: at most `maxSongs` songs, and a song whose page fails is skipped. */
  method GetArtistLyrics(web: Web, artist: string, maxSongs: int) returns (r: Result<seq<ScrapedLyrics>, string>)
    ensures r == ArtistLyrics(web, artist, maxSongs)
  {
    var songs := SearchArtistSongs(web, artist);
    if songs.Err? {
      return Err(songs.error);
    }
    if songs.value == [] {
      return Err("Could not find songs for artist " + artist);
    }
    var chosen := PySlicePrefix(songs.value, maxSongs);
    var lyrics: seq<ScrapedLyrics> := [];
    for i := 0 to |chosen|
      invariant lyrics == Kept(web, chosen[..i])
    {
      assert chosen[..i + 1][..i] == chosen[..i];
      var got := GetLyricsFromAzlyrics(web, chosen[i].url);
      if got.Ok? {
        lyrics := lyrics + [got.value];
      }
    }
    assert chosen[..|chosen|] == chosen;
    r := Ok(lyrics);
  }

  /** The songs of a batch whose AZLyrics page scrapes. */
  function ScrapesOn(web: Web): Song -> bool
  {
    (s: Song) => GetLyricsFromAzlyrics(web, s.url).Ok?
  }

  /** The kept lyrics are, in order, the scraped pages of exactly the songs whose page
      scrapes. */
  lemma {:induction false} KeptMeaning(web: Web, songs: seq<Song>)
    ensures |Kept(web, songs)| == |Filter(songs, ScrapesOn(web))|
    ensures forall i :: 0 <= i < |Kept(web, songs)|
                        ==> Kept(web, songs)[i] == GetLyricsFromAzlyrics(web, Filter(songs, ScrapesOn(web))[i].url).value
  {
    if songs != [] {
      var init := songs[..|songs| - 1];
      var song := songs[|songs| - 1];
      KeptMeaning(web, init);
      var last := GetLyricsFromAzlyrics(web, song.url);
      if last.Ok? {
        assert Kept(web, songs) == Kept(web, init) + [last.value];
        assert Filter(songs, ScrapesOn(web)) == Filter(init, ScrapesOn(web)) + [song];
      } else {
        assert Kept(web, songs) == Kept(web, init);
        assert Filter(songs, ScrapesOn(web)) == Filter(init, ScrapesOn(web));
      }
    }
  }

  /** The batch holds at most `maxSongs` lyrics (for a non-negative bound), only for
      songs the search found, in the order found, and skips exactly the songs whose page fails. */
  lemma ArtistLyricsBounds(web: Web, artist: string, maxSongs: int)
    requires ArtistLyrics(web, artist, maxSongs).Ok?
    ensures SearchArtistSongs(web, artist).Ok? && SearchArtistSongs(web, artist).value != []
    ensures maxSongs >= 0 ==> |ArtistLyrics(web, artist, maxSongs).value| <= maxSongs
    ensures var chosen := Filter(PySlicePrefix(SearchArtistSongs(web, artist).value, maxSongs), ScrapesOn(web));
            && |ArtistLyrics(web, artist, maxSongs).value| == |chosen|
            && (forall i :: 0 <= i < |chosen|
                  ==> ArtistLyrics(web, artist, maxSongs).value[i] == GetLyricsFromAzlyrics(web, chosen[i].url).value)
            && Subsequence(chosen, PySlicePrefix(SearchArtistSongs(web, artist).value, maxSongs))
  {
    var chosen := PySlicePrefix(SearchArtistSongs(web, artist).value, maxSongs);
    KeptMeaning(web, chosen);
    FilterSubsequence(chosen, ScrapesOn(web));
  }
}
