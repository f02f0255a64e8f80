/** The lyrics vocabulary analyser: the cleaning pipeline of regular-expression
    substitutions, the content-word filter, the vocabulary metrics and the richness
    score against a baseline. The NLTK tokenizer, lemmatizer and stop-word corpus are
    parameters. */
module Vocabulary {
  import opened Common

  // ---------------------------------------------------------------------------
  // `clean_lyrics`

  /** `string.punctuation`: the 32 ASCII punctuation characters. */
  predicate IsPunct(c: char)
  {
    var n := c as int;
    (33 <= n <= 47) || (58 <= n <= 64) || (91 <= n <= 96) || (123 <= n <= 126)
  }

  /** How many ASCII digits `s` starts with. */
  function DigitRun(s: string): (n: nat)
    ensures n <= |s|
    ensures forall i :: 0 <= i < n ==> IsAsciiDigit(s[i])
    ensures n < |s| ==> !IsAsciiDigit(s[n])
  {
    if s != [] && IsAsciiDigit(s[0]) then 1 + DigitRun(s[1..]) else 0
  }

  /** The length of the match of `\[\d+:\d+\]` at the start of `s`, if any. */
  function TimestampAt(s: string): (m: Option<nat>)
    ensures m.Some? ==> 5 <= m.value <= |s| && s[0] == '[' && s[m.value - 1] == ']'
  {
    if s == [] || s[0] != '[' then None
    else
      var a := DigitRun(s[1..]);
      if a == 0 || 1 + a >= |s| || s[1 + a] != ':' then None
      else
        var b := DigitRun(s[2 + a..]);
        if b == 0 || 2 + a + b >= |s| || s[2 + a + b] != ']' then None
        else Some(3 + a + b)
  }

  /** `re.sub(r"\[\d+:\d+\]", "", s)`: scanning from the left, every timestamp is
      dropped and the scan resumes after it. */
  function RemoveTimestamps(s: string): (r: string)
    ensures |r| <= |s|
    ensures NoUpper(s) ==> NoUpper(r)
    decreases |s|
  {
    if s == [] then []
    else
      match TimestampAt(s)
      case Some(n) => RemoveTimestamps(s[n..])
      case None => [s[0]] + RemoveTimestamps(s[1..])
  }

  /** The index in `t` of the first `close`, unless a line break comes first: where
      the non-greedy `.*?` stops, `.` not matching a line break. */
  function SpanEnd(t: string, close: char): (j: Option<nat>)
    ensures j.Some? ==> j.value < |t| && t[j.value] == close
    ensures j.Some? ==> forall i :: 0 <= i < j.value ==> t[i] != close && t[i] != '\n'
  {
    if t == [] || t[0] == '\n' then None
    else if t[0] == close then Some(0)
    else
      match SpanEnd(t[1..], close)
      case Some(j) => Some(j + 1)
      case None => None
  }

  /** `re.sub(r"\[(.*?)\]", "", s)` and `re.sub(r"\(.*?\)", "", s)`: every span from
      `open` to the nearest `close` on the same line is dropped with its contents, the
      scan resuming after it. */
  function RemoveSpans(s: string, open: char, close: char): (r: string)
    ensures |r| <= |s|
    ensures NoUpper(s) ==> NoUpper(r)
    decreases |s|
  {
    if s == [] then []
    else if s[0] == open && SpanEnd(s[1..], close).Some? then RemoveSpans(s[SpanEnd(s[1..], close).value + 2..], open, close)
    else [s[0]] + RemoveSpans(s[1..], open, close)
  }

  /** No `close` appears in `t` before its first line break. */
  predicate NoCloseFirst(t: string, close: char)
    decreases |t|
  {
    t == [] || t[0] == '\n' || (t[0] != close && NoCloseFirst(t[1..], close))
  }

  /** Every `open` left in `r` is followed by a line break before any `close`: no span
      the pattern matches is left. */
  predicate NoSpan(r: string, open: char, close: char)
    decreases |r|
  {
    r == [] || ((r[0] == open ==> NoCloseFirst(r[1..], close)) && NoSpan(r[1..], open, close))
  }

  lemma {:induction false} SpanEndNone(t: string, close: char)
    requires close != '\n'
    ensures SpanEnd(t, close).None? <==> NoCloseFirst(t, close)
    decreases |t|
  {
    if t != [] && t[0] != '\n' && t[0] != close {
      SpanEndNone(t[1..], close);
    }
  }

  lemma {:induction false} RemoveSpansKeepsNoClose(t: string, open: char, close: char)
    requires open != close && open != '\n' && close != '\n'
    requires NoCloseFirst(t, close)
    ensures NoCloseFirst(RemoveSpans(t, open, close), close)
    decreases |t|
  {
    if t != [] && t[0] != '\n' {
      SpanEndNone(t[1..], close);
      RemoveSpansKeepsNoClose(t[1..], open, close);
    }
  }

  /** After the substitution no matching span is left: every opening bracket that
      survives has a line break before the next closing one. */
  lemma {:induction false} RemoveSpansComplete(s: string, open: char, close: char)
    requires open != close && open != '\n' && close != '\n'
    ensures NoSpan(RemoveSpans(s, open, close), open, close)
    decreases |s|
  {
    if s != [] {
      if s[0] == open && SpanEnd(s[1..], close).Some? {
        RemoveSpansComplete(s[SpanEnd(s[1..], close).value + 2..], open, close);
      } else {
        RemoveSpansComplete(s[1..], open, close);
        if s[0] == open {
          SpanEndNone(s[1..], close);
          RemoveSpansKeepsNoClose(s[1..], open, close);
        }
        assert RemoveSpans(s, open, close)[1..] == RemoveSpans(s[1..], open, close);
      }
    }
  }

  lemma {:induction false} RemoveSpansIdentity(s: string, open: char, close: char)
    requires open !in s
    ensures RemoveSpans(s, open, close) == s
    decreases |s|
  {
    if s != [] {
      RemoveSpansIdentity(s[1..], open, close);
      assert [s[0]] + s[1..] == s;
    }
  }

  lemma {:induction false} RemoveTimestampsIdentity(s: string)
    requires '[' !in s
    ensures RemoveTimestamps(s) == s
    decreases |s|
  {
    if s != [] {
      RemoveTimestampsIdentity(s[1..]);
      assert [s[0]] + s[1..] == s;
    }
  }

  /** `s.translate(str.maketrans("", "", string.punctuation))`. */
  function RemovePunct(s: string): (r: string)
    ensures |r| <= |s|
    ensures forall i :: 0 <= i < |r| ==> !IsPunct(r[i])
    ensures NoUpper(s) ==> NoUpper(r)
  {
    if s == [] then [] else (if IsPunct(s[0]) then [] else [s[0]]) + RemovePunct(s[1..])
  }

  lemma {:induction false} RemovePunctIdentity(s: string)
    requires forall i :: 0 <= i < |s| ==> !IsPunct(s[i])
    ensures RemovePunct(s) == s
  {
    if s != [] {
      RemovePunctIdentity(s[1..]);
      assert [s[0]] + s[1..] == s;
    }
  }

  /** `clean_lyrics`: lower-case, drop timestamps, bracketed section headers and
      parenthesised annotations, drop punctuation, collapse whitespace, strip. */
  function CleanLyrics(lyrics: string): string
  {
    var noStamps := RemoveTimestamps(Lower(lyrics));
    var noHeaders := RemoveSpans(noStamps, '[', ']');
    var noNotes := RemoveSpans(noHeaders, '(', ')');
    CollapseAndStrip(RemovePunct(noNotes))
  }

  predicate CleanChar(c: char) { !IsAsciiUpper(c) && !IsPunct(c) }

  /** The cleaned text is lower-case, has no punctuation, and has no whitespace at
      either end nor any run of it; its only whitespace is the plain space. */
  lemma CleanLyricsShape(lyrics: string)
    ensures var r := CleanLyrics(lyrics);
      NoUpper(r) && (forall i :: 0 <= i < |r| ==> !IsPunct(r[i])) && Tidy(r)
  {
    LowerIdempotent(lyrics);
    var p := RemovePunct(RemoveSpans(RemoveSpans(RemoveTimestamps(Lower(lyrics)), '[', ']'), '(', ')'));
    assert CharsOrSpace(p, CleanChar);
    CollapseAndStripKeeps(p, CleanChar);
    CollapseAndStripTidy(p);
  }

  /** Cleaning cleaned lyrics changes nothing. */
  lemma CleanLyricsIdempotent(lyrics: string)
    ensures CleanLyrics(CleanLyrics(lyrics)) == CleanLyrics(lyrics)
  {
    var r := CleanLyrics(lyrics);
    CleanLyricsShape(lyrics);
    LowerIdempotent(r);
    assert '[' !in r && '(' !in r by {
      forall i | 0 <= i < |r| ensures r[i] != '[' && r[i] != '(' {
        assert !IsPunct(r[i]);
      }
    }
    RemoveTimestampsIdentity(r);
    RemoveSpansIdentity(r, '[', ']');
    RemoveSpansIdentity(r, '(', ')');
    RemovePunctIdentity(r);
    CollapseAndStripFixpoint(r);
  }

  /** The non-greedy match stops at the first `close` when no line break comes before it. */
  lemma {:induction false} SpanEndAtClose(t: string, close: char, rest: string)
    requires close != '\n' && close !in t && '\n' !in t
    ensures SpanEnd(t + [close] + rest, close) == Some(|t|)
  {
    if t == [] {
      assert t + [close] + rest == [close] + rest;
    } else {
      SpanEndAtClose(t[1..], close, rest);
      assert (t + [close] + rest)[1..] == t[1..] + [close] + rest;
    }
  }

  /** A line break before any `close` ends the match with nothing. */
  lemma {:induction false} SpanEndAtBreak(t: string, close: char, rest: string)
    requires close !in t && '\n' !in t
    ensures SpanEnd(t + ['\n'] + rest, close) == None
  {
    if t == [] {
      assert t + ['\n'] + rest == ['\n'] + rest;
    } else {
      SpanEndAtBreak(t[1..], close, rest);
      assert (t + ['\n'] + rest)[1..] == t[1..] + ['\n'] + rest;
    }
  }

  /** Text without an opening bracket passes through the substitution unchanged. */
  lemma {:induction false} RemoveSpansKeepsPrefix(p: string, q: string, open: char, close: char)
    requires open !in p
    ensures RemoveSpans(p + q, open, close) == p + RemoveSpans(q, open, close)
  {
    if p == [] {
      assert p + q == q;
    } else {
      var s := p + q;
      assert s[0] == p[0] != open;
      assert s[1..] == p[1..] + q;
      assert RemoveSpans(s, open, close) == [p[0]] + RemoveSpans(p[1..] + q, open, close);
      assert open !in p[1..] by {
        forall i | 0 <= i < |p[1..]| ensures p[1..][i] != open {
          assert p[1..][i] == p[i + 1];
        }
      }
      RemoveSpansKeepsPrefix(p[1..], q, open, close);
      assert p == [p[0]] + p[1..];
    }
  }

  /** A bracketed span goes with its contents, and with nothing else: the text before
      the first opening bracket stays, and the scan resumes right after the first
      closing bracket on that line, so a later closing bracket is not part of the span. */
  lemma RemoveSpansContents(p: string, t: string, q: string, open: char, close: char)
    requires open !in p && close != '\n' && close !in t && '\n' !in t
    ensures RemoveSpans(p + [open] + t + [close] + q, open, close) == p + RemoveSpans(q, open, close)
  {
    var span := [open] + t + [close] + q;
    assert p + [open] + t + [close] + q == p + span;
    RemoveSpansKeepsPrefix(p, span, open, close);
    assert span[1..] == t + [close] + q;
    SpanEndAtClose(t, close, q);
    assert span[|t| + 2..] == q;
  }

  /** The shortest span is taken: a second closing bracket right after the first one
      survives. */
  lemma RemoveSpansShortest(t: string, q: string, open: char, close: char)
    requires open != close && close != '\n' && close !in t && '\n' !in t
    ensures RemoveSpans([open] + t + [close, close] + q, open, close) == [close] + RemoveSpans(q, open, close)
  {
    assert [open] + t + [close, close] + q == [] + [open] + t + [close] + ([close] + q);
    RemoveSpansContents([], t, [close] + q, open, close);
    assert ([close] + q)[1..] == q;
  }

  /** A span does not cross a line break: an opening bracket whose line holds no
      closing bracket after it stays, and the scan goes on with the next character. */
  lemma RemoveSpansOneLine(t: string, q: string, open: char, close: char)
    requires close !in t && '\n' !in t
    ensures RemoveSpans([open] + t + ['\n'] + q, open, close) == [open] + RemoveSpans(t + ['\n'] + q, open, close)
  {
    var s := [open] + t + ['\n'] + q;
    assert s[1..] == t + ['\n'] + q;
    SpanEndAtBreak(t, close, q);
  }

  // ---------------------------------------------------------------------------
  // `filter_words` and `analyze_lyrics`

  /** The section headers the analyser ignores. */
  const SectionHeaders: set<string> := {"verse", "verse 1", "verse 2", "verse 3", "verse 4", "chorus", "bridge",
                                        "outro", "intro", "hook", "pre-chorus", "refrain", "interlude", "ad libs",
                                        "breakdown"}

  /** The NLTK resources: the English stop words, the tokenizer and the lemmatizer. */
  datatype Nlp = Nlp(stopWords: set<string>, tokenize: string -> seq<string>, lemmatize: string -> string)

  predicate IsContentWord(stopWords: set<string>, w: string)
  {
    w !in stopWords && w !in SectionHeaders && |w| > 1
  }

  /** `filter_words`. */
  function FilterWords(stopWords: set<string>, words: seq<string>): seq<string>
  {
    Filter(words, w => IsContentWord(stopWords, w))
  }

  /** The kept words are, in input order, exactly the words that are no stop word, no
      section header and longer than one character, each as often as in the input. */
  lemma FilterWordsMeaning(stopWords: set<string>, words: seq<string>, w: string)
    ensures Subsequence(FilterWords(stopWords, words), words)
    ensures multiset(FilterWords(stopWords, words))[w]
         == if IsContentWord(stopWords, w) then multiset(words)[w] else 0
  {
    FilterSubsequence(words, v => IsContentWord(stopWords, v));
    FilterCount(words, v => IsContentWord(stopWords, v), w);
  }

  /** `token.isalpha()`. */
  predicate IsAlphaWord(t: string)
  {
    |t| > 0 && forall i :: 0 <= i < |t| ==> IsAsciiAlpha(t[i])
  }

  function TotalLength(words: seq<string>): (n: nat)
    ensures (forall i :: 0 <= i < |words| ==> IsAlphaWord(words[i])) ==> n >= |words|
  {
    if words == [] then 0 else TotalLength(words[..|words| - 1]) + |words[|words| - 1]|
  }

  function Lemmatized(lemmatize: string -> string, words: seq<string>): (r: seq<string>)
    ensures |r| == |words|
  {
    seq(|words|, i requires 0 <= i < |words| => lemmatize(words[i]))
  }

  /** The metrics `analyze_lyrics` returns. */
  datatype Metrics = Metrics(
    totalWords: real,
    uniqueWordCount: real,
    typeTokenRatio: real,
    averageWordLength: real,
    lexicalDensity: real)

  function Ratio(n: int, d: int): real
  {
    if d > 0 then n as real / d as real else 0.0
  }

  /** `analyze_lyrics`: all alphabetic tokens of the cleaned text, the content words
      among them, and the distinct lemmas of those. */
  function AnalyzeLyrics(nlp: Nlp, lyrics: string): Metrics
  {
    var allWords := Filter(nlp.tokenize(CleanLyrics(lyrics)), IsAlphaWord);
    var filtered := FilterWords(nlp.stopWords, allWords);
    MetricsOf(allWords, filtered, |set w | w in Lemmatized(nlp.lemmatize, filtered)|)
  }

  /** The metrics of `allWords`, `filtered` of them content words with `unique`
      distinct lemmas. */
  function MetricsOf(allWords: seq<string>, filtered: seq<string>, unique: nat): Metrics
  {
    Metrics(|allWords| as real, unique as real, Ratio(unique, |allWords|),
            Ratio(TotalLength(allWords), |allWords|), Ratio(|filtered|, |allWords|))
  }

  lemma {:induction false} DistinctAtMost(s: seq<string>)
    ensures |set w | w in s| <= |s|
  {
    if s != [] {
      var init := s[..|s| - 1];
      DistinctAtMost(init);
      assert (set w | w in s) == (set w | w in init) + {s[|s| - 1]} by {
        assert s == init + [s[|s| - 1]];
      }
    }
  }

  lemma RatioBounds(n: int, d: int)
    requires 0 <= n <= d
    ensures 0.0 <= Ratio(n, d) <= 1.0
  {
    if d > 0 {
      assert Ratio(n, d) * d as real == n as real;
    }
  }

  lemma MetricsBounds(allWords: seq<string>, filtered: seq<string>, unique: nat)
    requires unique <= |filtered| <= |allWords|
    requires forall i :: 0 <= i < |allWords| ==> IsAlphaWord(allWords[i])
    ensures var m := MetricsOf(allWords, filtered, unique);
      0.0 <= m.uniqueWordCount <= m.totalWords
      && 0.0 <= m.typeTokenRatio <= 1.0 && 0.0 <= m.lexicalDensity <= 1.0 && m.averageWordLength >= 0.0
      && (m.totalWords > 0.0 ==> m.averageWordLength >= 1.0)
      && (m.totalWords == 0.0 ==> m.typeTokenRatio == 0.0 && m.averageWordLength == 0.0 && m.lexicalDensity == 0.0)
  {
    RatioBounds(unique, |allWords|);
    RatioBounds(|filtered|, |allWords|);
    if |allWords| > 0 {
      RatioAtLeastOne(TotalLength(allWords), |allWords|);
    }
  }

  lemma RatioAtLeastOne(n: int, d: int)
    requires 0 < d <= n
    ensures Ratio(n, d) >= 1.0
  {
    assert Ratio(n, d) * d as real == n as real;
  }

  /** The metrics' bounds: the distinct lemmas are at most the content words, which
      are at most all the words; the type-token ratio and the lexical density lie in
      [0, 1]; the average word length is at least 1 when there are words; all three
      are 0 when there are none. */
  lemma AnalyzeLyricsBounds(nlp: Nlp, lyrics: string)
    ensures var m := AnalyzeLyrics(nlp, lyrics);
      0.0 <= m.uniqueWordCount <= m.totalWords
      && 0.0 <= m.typeTokenRatio <= 1.0 && 0.0 <= m.lexicalDensity <= 1.0 && m.averageWordLength >= 0.0
      && (m.totalWords > 0.0 ==> m.averageWordLength >= 1.0)
      && (m.totalWords == 0.0 ==> m.typeTokenRatio == 0.0 && m.averageWordLength == 0.0 && m.lexicalDensity == 0.0)
  {
    var allWords := Filter(nlp.tokenize(CleanLyrics(lyrics)), IsAlphaWord);
    var filtered := FilterWords(nlp.stopWords, allWords);
    var lemmas := Lemmatized(nlp.lemmatize, filtered);
    DistinctAtMost(lemmas);
    MetricsBounds(allWords, filtered, |set w | w in lemmas|);
  }

  /** `calculate_vocabulary_richness`: how far the artist's type-token ratio lies
      above or below the baseline's, in percent of the baseline; 0 when the
      baseline's ratio is not positive. */
  function VocabularyRichness(artist: Metrics, baseline: Metrics): real
  {
    if baseline.typeTokenRatio > 0.0 then
      (artist.typeTokenRatio - baseline.typeTokenRatio) / baseline.typeTokenRatio * 100.0
    else 0.0
  }

  /** The score has the sign of the difference of the two ratios, never goes below
      -100 for a non-negative ratio, and scaling is linear: twice the baseline's ratio
      scores 100. */
  lemma RichnessSign(artist: Metrics, baseline: Metrics)
    ensures baseline.typeTokenRatio <= 0.0 ==> VocabularyRichness(artist, baseline) == 0.0
    ensures baseline.typeTokenRatio > 0.0 ==>
      (VocabularyRichness(artist, baseline) > 0.0 <==> artist.typeTokenRatio > baseline.typeTokenRatio)
      && (VocabularyRichness(artist, baseline) == 0.0 <==> artist.typeTokenRatio == baseline.typeTokenRatio)
      && (artist.typeTokenRatio >= 0.0 ==> VocabularyRichness(artist, baseline) >= -100.0)
      && VocabularyRichness(artist, baseline) * baseline.typeTokenRatio
         == (artist.typeTokenRatio - baseline.typeTokenRatio) * 100.0
  {
    var a := artist.typeTokenRatio;
    var b := baseline.typeTokenRatio;
    if b > 0.0 {
      var q := (a - b) / b;
      assert q * b == a - b;
      assert VocabularyRichness(artist, baseline) == q * 100.0;
      if a >= 0.0 && q < -1.0 {
        assert (q + 1.0) * b == q * b + b;
        assert (q + 1.0) * b < 0.0;
      }
      if q > 0.0 {
        assert q * b > 0.0;
      }
    }
  }
}
