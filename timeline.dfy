/** The "timeline" both the MusicBrainz and the Spotify client build: the releases that
    carry a date are grouped under the year (the date's text before the first "-"),
    the years come in ascending order and each year's releases are sorted by date,
    ascending or descending, with Python's stable `sorted`. */
module Timeline {
  import opened Common
  import opened Sorting

  datatype YearGroup<T> = YearGroup(year: string, items: seq<T>)

  /** `date.split("-")[0]`. */
  function YearOf(date: string): (y: string)
    ensures IsPrefix(y, date) && '-' !in y
  {
    Before(date, '-')
  }

  function Id(s: string): string { s }

  /** The kept items of `xs` that fall in year `y`, in input order. */
  function Grouped<T>(xs: seq<T>, keep: T -> bool, date: T -> string, y: string): (r: seq<T>)
    ensures |r| <= |xs|
  {
    if xs == [] then []
    else
      var x := xs[|xs| - 1];
      Grouped(xs[..|xs| - 1], keep, date, y) + (if keep(x) && YearOf(date(x)) == y then [x] else [])
  }

  /** The years of the kept items, each once, in order of first appearance. */
  function FirstSeenYears<T>(xs: seq<T>, keep: T -> bool, date: T -> string): (r: seq<string>)
  {
    if xs == [] then []
    else
      var x := xs[|xs| - 1];
      var prev := FirstSeenYears(xs[..|xs| - 1], keep, date);
      if keep(x) && YearOf(date(x)) !in prev then prev + [YearOf(date(x))] else prev
  }

  /** The whole timeline, as a function of the input: years ascending, each year's
      items sorted by date. */
  function TimelineOf<T>(xs: seq<T>, keep: T -> bool, date: T -> string, desc: bool): (r: seq<YearGroup<T>>)
  {
    var ys := SortBy(FirstSeenYears(xs, keep, date), Id, false);
    seq(|ys|, i requires 0 <= i < |ys| => YearGroup(ys[i], SortBy(Grouped(xs, keep, date, ys[i]), date, desc)))
  }

  /** The first pass: files every kept item under its year in a dictionary, the
      years listed in the order the dictionary first meets them. */
  method GroupByYear<T>(xs: seq<T>, keep: T -> bool, date: T -> string)
    returns (timeline: map<string, seq<T>>, years: seq<string>)
    ensures years == FirstSeenYears(xs, keep, date)
    ensures forall y :: y in timeline <==> y in years
    ensures forall y :: y in timeline ==> timeline[y] == Grouped(xs, keep, date, y)
  {
    timeline := map[];
    years := [];
    var i := 0;
    while i < |xs|
      invariant 0 <= i <= |xs|
      invariant years == FirstSeenYears(xs[..i], keep, date)
      invariant forall y :: y in timeline <==> y in years
      invariant forall y :: y in timeline ==> timeline[y] == Grouped(xs[..i], keep, date, y)
    {
      var x := xs[i];
      GroupedStep(xs, i, keep, date);
      if keep(x) {
        var year := YearOf(date(x));
        if year !in timeline {
          GroupedEmpty(xs[..i], keep, date, year);
          timeline := timeline[year := []];
          years := years + [year];
        }
        timeline := timeline[year := timeline[year] + [x]];
      }
      i := i + 1;
    }
    assert xs[..i] == xs;
  }

  lemma GroupedStep<T>(xs: seq<T>, i: int, keep: T -> bool, date: T -> string)
    requires 0 <= i < |xs|
    ensures forall y :: (Grouped(xs[..i + 1], keep, date, y)
      == Grouped(xs[..i], keep, date, y) + (if keep(xs[i]) && YearOf(date(xs[i])) == y then [xs[i]] else []))
    ensures FirstSeenYears(xs[..i + 1], keep, date)
      == (var prev := FirstSeenYears(xs[..i], keep, date);
          if keep(xs[i]) && YearOf(date(xs[i])) !in prev then prev + [YearOf(date(xs[i]))] else prev)
  {
    assert xs[..i + 1][..i] == xs[..i];
  }

  /** Builds the timeline the way the clients do: a first pass fills a dictionary from
      year to releases, a second pass walks the sorted years and sorts each list. */
  method Build<T>(xs: seq<T>, keep: T -> bool, date: T -> string, desc: bool) returns (r: seq<YearGroup<T>>)
    ensures r == TimelineOf(xs, keep, date, desc)
  {
    var timeline, years := GroupByYear(xs, keep, date);
    var sortedYears := SortBy(years, Id, false);
    SortedYearsFiled(years, sortedYears, timeline);
    r := SortEach(timeline, sortedYears, date, desc);
    ghost var t := TimelineOf(xs, keep, date, desc);
    assert |r| == |t|;
    forall j | 0 <= j < |t| ensures r[j] == t[j] {
      assert timeline[sortedYears[j]] == Grouped(xs, keep, date, sortedYears[j]);
    }
  }

  /** The second pass: each year in turn with its list sorted by date. */
  method SortEach<T>(timeline: map<string, seq<T>>, years: seq<string>, date: T -> string, desc: bool)
    returns (r: seq<YearGroup<T>>)
    requires forall k :: 0 <= k < |years| ==> years[k] in timeline
    ensures |r| == |years|
    ensures forall j :: 0 <= j < |years| ==> r[j] == YearGroup(years[j], SortBy(timeline[years[j]], date, desc))
  {
    r := [];
    var k := 0;
    while k < |years|
      invariant 0 <= k <= |years|
      invariant |r| == k
      invariant forall j :: 0 <= j < k ==> r[j] == YearGroup(years[j], SortBy(timeline[years[j]], date, desc))
    {
      var year := years[k];
      r := r + [YearGroup(year, SortBy(timeline[year], date, desc))];
      k := k + 1;
    }
  }

  /** Every year of the sorted list has an entry in the dictionary. */
  lemma SortedYearsFiled<T>(years: seq<string>, sortedYears: seq<string>, timeline: map<string, seq<T>>)
    requires sortedYears == SortBy(years, Id, false)
    requires forall y :: y in timeline <==> y in years
    ensures forall k :: 0 <= k < |sortedYears| ==> sortedYears[k] in timeline
  {
    SortByPermutes(years, Id, false);
    forall k | 0 <= k < |sortedYears| ensures sortedYears[k] in timeline {
      assert sortedYears[k] in multiset(years);
    }
  }

  lemma {:induction false} GroupedEmpty<T>(xs: seq<T>, keep: T -> bool, date: T -> string, y: string)
    requires y !in FirstSeenYears(xs, keep, date)
    ensures Grouped(xs, keep, date, y) == []
  {
    if xs != [] {
      GroupedEmpty(xs[..|xs| - 1], keep, date, y);
    }
  }

  /** A year heads the timeline exactly when some kept item falls in it. */
  lemma {:induction false} FirstSeenYearsMembers<T>(xs: seq<T>, keep: T -> bool, date: T -> string, y: string)
    ensures y in FirstSeenYears(xs, keep, date) <==> exists i :: 0 <= i < |xs| && keep(xs[i]) && YearOf(date(xs[i])) == y
  {
    if xs != [] {
      var init := xs[..|xs| - 1];
      FirstSeenYearsMembers(init, keep, date, y);
      if y in FirstSeenYears(init, keep, date) {
        var i :| 0 <= i < |init| && keep(init[i]) && YearOf(date(init[i])) == y;
        assert xs[i] == init[i];
      }
      if exists i :: 0 <= i < |xs| && keep(xs[i]) && YearOf(date(xs[i])) == y {
        var i :| 0 <= i < |xs| && keep(xs[i]) && YearOf(date(xs[i])) == y;
        if i < |init| { assert init[i] == xs[i]; }
      }
    }
  }

  lemma {:induction false} FirstSeenYearsDistinct<T>(xs: seq<T>, keep: T -> bool, date: T -> string)
    ensures forall a, b :: 0 <= a < b < |FirstSeenYears(xs, keep, date)| ==>
      FirstSeenYears(xs, keep, date)[a] != FirstSeenYears(xs, keep, date)[b]
  {
    if xs != [] {
      FirstSeenYearsDistinct(xs[..|xs| - 1], keep, date);
    }
  }

  /** How often each item is filed under year `y`: every copy of a kept item of that
      year, nothing else. */
  lemma {:induction false} GroupedCount<T>(xs: seq<T>, keep: T -> bool, date: T -> string, y: string, x: T)
    ensures multiset(Grouped(xs, keep, date, y))[x]
         == (if keep(x) && YearOf(date(x)) == y then multiset(xs)[x] else 0)
  {
    if xs != [] {
      var init := xs[..|xs| - 1];
      GroupedCount(init, keep, date, y, x);
      assert xs == init + [xs[|xs| - 1]];
    }
  }

  /** The years of the timeline are strictly ascending. */
  lemma TimelineYearsAscending<T>(xs: seq<T>, keep: T -> bool, date: T -> string, desc: bool)
    ensures var t := TimelineOf(xs, keep, date, desc);
      forall a, b :: 0 <= a < b < |t| ==> LexLe(t[a].year, t[b].year) && t[a].year != t[b].year
  {
    var fs := FirstSeenYears(xs, keep, date);
    var ys := SortBy(fs, Id, false);
    var t := TimelineOf(xs, keep, date, desc);
    SortBySorted(fs, Id, false);
    SortByPermutes(fs, Id, false);
    FirstSeenYearsDistinct(xs, keep, date);
    forall a, b | 0 <= a < b < |t| ensures t[a].year != t[b].year {
      if ys[a] == ys[b] {
        DistinctCount(fs, ys[a]);
        assert multiset(ys)[ys[a]] >= 2 by { TwoCopies(ys, a, b); }
      }
    }
  }

  /** A year is present in the timeline exactly when some kept item carries it. */
  lemma TimelineHasYear<T>(xs: seq<T>, keep: T -> bool, date: T -> string, desc: bool, y: string)
    ensures var t := TimelineOf(xs, keep, date, desc);
      (exists k :: 0 <= k < |t| && t[k].year == y) <==>
        (exists i :: 0 <= i < |xs| && keep(xs[i]) && YearOf(date(xs[i])) == y)
  {
    var fs := FirstSeenYears(xs, keep, date);
    var ys := SortBy(fs, Id, false);
    var t := TimelineOf(xs, keep, date, desc);
    SortByPermutes(fs, Id, false);
    FirstSeenYearsMembers(xs, keep, date, y);
    if y in fs {
      assert y in multiset(ys);
      var k :| 0 <= k < |ys| && ys[k] == y;
      assert t[k].year == y;
    }
    if exists k :: 0 <= k < |t| && t[k].year == y {
      var k :| 0 <= k < |t| && t[k].year == y;
      assert ys[k] in multiset(fs);
    }
  }

  lemma {:induction false} DistinctCount(s: seq<string>, v: string)
    requires forall a, b :: 0 <= a < b < |s| ==> s[a] != s[b]
    ensures multiset(s)[v] <= 1
  {
    if s != [] {
      DistinctCount(s[1..], v);
      assert s == [s[0]] + s[1..];
      if s[0] == v {
        assert v !in s[1..];
      }
    }
  }

  lemma {:induction false} TwoCopies(s: seq<string>, a: int, b: int)
    requires 0 <= a < b < |s| && s[a] == s[b]
    ensures multiset(s)[s[a]] >= 2
  {
    assert s == s[..a] + [s[a]] + s[a + 1..b] + [s[b]] + s[b + 1..];
  }

  /** Each year's list holds every kept item of that year as often as the input does,
      and nothing else, ordered by date with equal dates in input order. */
  lemma TimelineItems<T>(xs: seq<T>, keep: T -> bool, date: T -> string, desc: bool, k: int, x: T, d: string)
    requires 0 <= k < |TimelineOf(xs, keep, date, desc)|
    ensures var g := TimelineOf(xs, keep, date, desc)[k];
      multiset(g.items)[x] == (if keep(x) && YearOf(date(x)) == g.year then multiset(xs)[x] else 0)
    ensures Sorted(TimelineOf(xs, keep, date, desc)[k].items, date, desc)
    ensures var g := TimelineOf(xs, keep, date, desc)[k];
      KeyFilter(g.items, date, d) == KeyFilter(Grouped(xs, keep, date, g.year), date, d)
  {
    var g := TimelineOf(xs, keep, date, desc)[k];
    SortBySorted(Grouped(xs, keep, date, g.year), date, desc);
    SortByPermutes(Grouped(xs, keep, date, g.year), date, desc);
    SortByStable(Grouped(xs, keep, date, g.year), date, desc, d);
    GroupedCount(xs, keep, date, g.year, x);
  }
}
