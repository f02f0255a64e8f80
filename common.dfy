/** Shared vocabulary of the model: optional values and results, the parts of
    Python's string semantics the repository relies on, and a lexicographic
    order on strings (Python compares `str` values code point by code point). */
module Common {

  datatype Option<+T> = None | Some(value: T)

  datatype Result<+T, +E> = Ok(value: T) | Err(error: E)

  /** `xs` in front of a successful list; an error passes through unchanged. */
  function Prepend<T>(xs: seq<T>, r: Result<seq<T>, string>): (p: Result<seq<T>, string>)
    ensures p.Ok? <==> r.Ok?
    ensures r.Err? ==> p == r
    ensures r.Ok? ==> p.value == xs + r.value
    ensures xs == [] ==> p == r
  {
    if r.Ok? then
      assert xs == [] ==> xs + r.value == r.value;
      Ok(xs + r.value)
    else r
  }

  /** Extending a result twice is extending it once with both lists. */
  lemma PrependTwice<T>(xs: seq<T>, ys: seq<T>, r: Result<seq<T>, string>)
    ensures Prepend(xs, Prepend(ys, r)) == Prepend(xs + ys, r)
  {
    if r.Ok? {
      assert xs + (ys + r.value) == (xs + ys) + r.value;
    }
  }

  /** A decoded JSON value, as the `dict`/`list` payloads the repository passes around. */
  datatype Json = JNull | JBool(b: bool) | JInt(i: int) | JReal(r: real) | JStr(s: string)
                | JArr(items: seq<Json>) | JObj(fields: map<string, Json>)

  /** Python truthiness of a decoded JSON value. */
  predicate Truthy(j: Json)
  {
    match j
    case JNull => false
    case JBool(b) => b
    case JInt(i) => i != 0
    case JReal(r) => r != 0.0
    case JStr(s) => s != ""
    case JArr(a) => a != []
    case JObj(o) => o != map[]
  }

  /** `x or default` for an optional string: `None` and `""` are both falsy. */
  function OrElse(x: Option<string>, default: string): (r: string)
    ensures x.Some? && x.value != "" ==> r == x.value
    ensures (x.None? || x.value == "") ==> r == default
  {
    if x.Some? && x.value != "" then x.value else default
  }

  function Min(a: int, b: int): int { if a <= b then a else b }

  function Max(a: int, b: int): int { if a <= b then b else a }

  // ---------------------------------------------------------------------------
  // Characters

  predicate IsAsciiUpper(c: char) { 'A' <= c <= 'Z' }

  predicate IsAsciiLower(c: char) { 'a' <= c <= 'z' }

  predicate IsAsciiDigit(c: char) { '0' <= c <= '9' }

  predicate IsAsciiAlnum(c: char) { IsAsciiUpper(c) || IsAsciiLower(c) || IsAsciiDigit(c) }

  /** `str.isalpha` restricted to ASCII letters. */
  predicate IsAsciiAlpha(c: char) { IsAsciiUpper(c) || IsAsciiLower(c) }

  /** Exactly the characters for which Python's `str.isspace` holds; the regular
      expression class `\s` and `str.strip()` use the same set. */
  predicate IsSpace(c: char)
  {
    var n := c as int;
    (9 <= n <= 13) || (28 <= n <= 32) || n == 0x85 || n == 0xA0 || n == 0x1680
    || (0x2000 <= n <= 0x200A) || n == 0x2028 || n == 0x2029 || n == 0x202F
    || n == 0x205F || n == 0x3000
  }

  function LowerChar(c: char): (r: char)
    ensures !IsAsciiUpper(r)
    ensures !IsAsciiUpper(c) ==> r == c
    ensures IsAsciiUpper(c) ==> IsAsciiLower(r)
  {
    if IsAsciiUpper(c) then (c as int + 32) as char else c
  }

  /** `str.lower()` on ASCII letters; every other character is left alone. */
  function Lower(s: string): (r: string)
    ensures |r| == |s|
    ensures forall i :: 0 <= i < |s| ==> r[i] == LowerChar(s[i])
  {
    seq(|s|, i requires 0 <= i < |s| => LowerChar(s[i]))
  }

  predicate NoUpper(s: string) { forall i :: 0 <= i < |s| ==> !IsAsciiUpper(s[i]) }

  lemma LowerIdempotent(s: string)
    ensures NoUpper(Lower(s))
    ensures NoUpper(s) ==> Lower(s) == s
  {
  }

  lemma LowerAppend(a: string, b: string)
    ensures Lower(a + b) == Lower(a) + Lower(b)
  {
  }

  // ---------------------------------------------------------------------------
  // Whitespace: `str.strip()` and `re.sub(r"\s+", " ", s)`

  function StripLeft(s: string): (r: string)
    ensures |r| <= |s| && r == s[|s| - |r|..]
    ensures r == [] || !IsSpace(r[0])
    ensures forall i :: 0 <= i < |s| - |r| ==> IsSpace(s[i])
  {
    if s != [] && IsSpace(s[0]) then StripLeft(s[1..]) else s
  }

  function StripRight(s: string): (r: string)
    ensures |r| <= |s| && r == s[..|r|]
    ensures r == [] || !IsSpace(r[|r| - 1])
    ensures forall i :: |r| <= i < |s| ==> IsSpace(s[i])
  {
    if s != [] && IsSpace(s[|s| - 1]) then StripRight(s[..|s| - 1]) else s
  }

  /** `str.strip()` with no argument. */
  function Strip(s: string): (r: string)
  {
    StripRight(StripLeft(s))
  }

  lemma StripProps(s: string)
    ensures Strip(s) == [] || (!IsSpace(Strip(s)[0]) && !IsSpace(Strip(s)[|Strip(s)| - 1]))
    ensures (s == [] || (!IsSpace(s[0]) && !IsSpace(s[|s| - 1]))) ==> Strip(s) == s
  {
    var l := StripLeft(s);
    var r := StripRight(l);
    if r != [] {
      assert r[0] == l[0];
    }
  }

  /** Every whitespace character of `s` is a plain space and no two spaces are adjacent:
      the shape `re.sub(r"\s+", " ", ...)` leaves behind. */
  predicate Collapsed(s: string)
  {
    (forall i :: 0 <= i < |s| && IsSpace(s[i]) ==> s[i] == ' ')
    && (forall i :: 0 <= i < |s| - 1 ==> !(s[i] == ' ' && s[i + 1] == ' '))
  }

  function SkipSpaces(s: string): (r: string)
    ensures |r| <= |s| && r == s[|s| - |r|..]
    ensures r == [] || !IsSpace(r[0])
    ensures s != [] && IsSpace(s[0]) ==> |r| < |s|
  {
    if s != [] && IsSpace(s[0]) then SkipSpaces(s[1..]) else s
  }

  /** `re.sub(r"\s+", " ", s)`: every maximal run of whitespace becomes one space. */
  function CollapseSpaces(s: string): (r: string)
    ensures Collapsed(r)
    ensures r != [] && s != [] ==> (r[0] == ' ' <==> IsSpace(s[0]))
    ensures r == [] <==> s == []
    decreases |s|
  {
    if s == [] then []
    else if IsSpace(s[0]) then
      var rest := CollapseSpaces(SkipSpaces(s));
      assert rest == [] || rest[0] != ' ';
      " " + rest
    else
      var rest := CollapseSpaces(s[1..]);
      [s[0]] + rest
  }

  lemma {:induction false} CollapseFixpoint(s: string)
    requires Collapsed(s)
    ensures CollapseSpaces(s) == s
    decreases |s|
  {
    if s != [] {
      assert Collapsed(s[1..]);
      if IsSpace(s[0]) {
        assert s[0] == ' ';
        assert SkipSpaces(s) == s[1..] by {
          assert s[1..] == [] || s[1] != ' ';
        }
        CollapseFixpoint(s[1..]);
      } else {
        CollapseFixpoint(s[1..]);
      }
    }
  }

  /** A slice of collapsed text is collapsed. */
  lemma CollapsedSlice(s: string, a: int, b: int)
    requires Collapsed(s) && 0 <= a <= b <= |s|
    ensures Collapsed(s[a..b])
  {
    var t := s[a..b];
    forall i | 0 <= i < |t| && IsSpace(t[i])
      ensures t[i] == ' '
    {
      assert t[i] == s[a + i];
    }
    forall i | 0 <= i < |t| - 1
      ensures !(t[i] == ' ' && t[i + 1] == ' ')
    {
      assert t[i] == s[a + i] && t[i + 1] == s[a + i + 1];
    }
  }

  lemma StripPreservesCollapsed(s: string)
    requires Collapsed(s)
    ensures Collapsed(Strip(s))
  {
    var l := StripLeft(s);
    CollapsedSlice(s, |s| - |l|, |s|);
    assert l == s[|s| - |l|..|s|];
    var r := StripRight(l);
    CollapsedSlice(l, 0, |r|);
    assert r == l[0..|r|];
  }

  /** Every character of `s` satisfies `p` or is whitespace. */
  predicate CharsOrSpace(s: string, p: char -> bool)
  {
    forall i :: 0 <= i < |s| ==> p(s[i]) || IsSpace(s[i])
  }

  lemma {:induction false} CollapseKeepsChars(s: string, p: char -> bool)
    requires CharsOrSpace(s, p)
    ensures CharsOrSpace(CollapseSpaces(s), p)
    decreases |s|
  {
    if s != [] {
      if IsSpace(s[0]) {
        CollapseKeepsChars(SkipSpaces(s), p);
      } else {
        CollapseKeepsChars(s[1..], p);
      }
    }
  }

  /** Collapsing and stripping adds no character but the plain space. */
  lemma CollapseAndStripKeeps(s: string, p: char -> bool)
    requires CharsOrSpace(s, p)
    ensures var r := CollapseAndStrip(s); forall i :: 0 <= i < |r| ==> p(r[i]) || r[i] == ' '
  {
    var c := CollapseSpaces(s);
    CollapseKeepsChars(s, p);
    var l := StripLeft(c);
    assert l == c[|c| - |l|..];
    var r := StripRight(l);
    assert r == l[..|r|];
  }

  /** The shape of `re.sub(r"\s+", " ", x).strip()`: collapsed, and no space at either end. */
  predicate Tidy(s: string)
  {
    Collapsed(s) && (s == [] || (s[0] != ' ' && s[|s| - 1] != ' '))
  }

  function CollapseAndStrip(s: string): (r: string)
  {
    Strip(CollapseSpaces(s))
  }

  lemma {:induction false} CollapseAndStripTidy(s: string)
    ensures Tidy(CollapseAndStrip(s))
  {
    StripPreservesCollapsed(CollapseSpaces(s));
    StripProps(CollapseSpaces(s));
  }

  lemma {:induction false} CollapseAndStripFixpoint(s: string)
    requires Tidy(s)
    ensures CollapseAndStrip(s) == s
  {
    CollapseFixpoint(s);
    StripProps(s);
  }

  // ---------------------------------------------------------------------------
  // Joining and splitting

  /** `sep.join(parts)`. */
  function Join(parts: seq<string>, sep: string): (r: string)
    ensures |parts| == 1 ==> r == parts[0]
  {
    if |parts| == 0 then ""
    else if |parts| == 1 then parts[0]
    else parts[0] + sep + Join(parts[1..], sep)
  }

  /** `s.split(c)` for a one-character separator. */
  function Split(s: string, c: char): (r: seq<string>)
    ensures |r| >= 1
  {
    if s == [] then [""]
    else
      var rest := Split(s[1..], c);
      if s[0] == c then [""] + rest
      else [[s[0]] + rest[0]] + rest[1..]
  }

  lemma {:induction false} SplitAppend(a: string, b: string, c: char)
    requires c !in a
    ensures Split(a + b, c) == [a + Split(b, c)[0]] + Split(b, c)[1..]
    decreases |a|
  {
    if a != [] {
      assert (a + b)[1..] == a[1..] + b;
      SplitAppend(a[1..], b, c);
      var rest := Split(a[1..] + b, c);
      assert (a + b)[0] == a[0] && a[0] != c;
      assert Split(a + b, c) == [[a[0]] + rest[0]] + rest[1..];
      assert rest[0] == a[1..] + Split(b, c)[0];
      assert [a[0]] + (a[1..] + Split(b, c)[0]) == a + Split(b, c)[0];
    } else {
      assert a + b == b;
      assert "" + Split(b, c)[0] == Split(b, c)[0];
      assert [Split(b, c)[0]] + Split(b, c)[1..] == Split(b, c);
    }
  }

  /** Joining with a one-character separator that no part contains can be undone by
      splitting on it: the join loses no information. */
  lemma {:induction false} SplitJoin(parts: seq<string>, c: char)
    requires |parts| >= 1
    requires forall i :: 0 <= i < |parts| ==> c !in parts[i]
    ensures Split(Join(parts, [c]), c) == parts
    decreases |parts|
  {
    if |parts| == 1 {
      SplitAppend(parts[0], "", c);
      assert parts[0] + "" == parts[0];
    } else {
      var tail := Join(parts[1..], [c]);
      SplitJoin(parts[1..], c);
      assert Join(parts, [c]) == parts[0] + ([c] + tail);
      SplitAppend(parts[0], [c] + tail, c);
      assert ([c] + tail)[1..] == tail;
      assert Split([c] + tail, c) == [""] + Split(tail, c);
      assert parts[0] + "" == parts[0];
      assert [parts[0]] + parts[1..] == parts;
    }
  }

  /** `s.split(c)[0]`: the text before the first `c`. */
  function Before(s: string, c: char): (r: string)
    ensures |r| <= |s| && r == s[..|r|]
    ensures c !in r
    ensures |r| < |s| ==> s[|r|] == c
    ensures r == Split(s, c)[0]
  {
    if s == [] then []
    else if s[0] == c then []
    else [s[0]] + Before(s[1..], c)
  }

  // ---------------------------------------------------------------------------
  // Filtering: `[x for x in xs if p(x)]`

  function Filter<T>(xs: seq<T>, p: T -> bool): (r: seq<T>)
    ensures |r| <= |xs|
    ensures forall i :: 0 <= i < |r| ==> p(r[i])
  {
    if xs == [] then [] else Filter(xs[..|xs| - 1], p) + (if p(xs[|xs| - 1]) then [xs[|xs| - 1]] else [])
  }

  /** `a` can be obtained from `b` by deleting elements. */
  predicate Subsequence<T(==)>(a: seq<T>, b: seq<T>)
    decreases |b|
  {
    if a == [] then true
    else if b == [] then false
    else if a[|a| - 1] == b[|b| - 1] then Subsequence(a[..|a| - 1], b[..|b| - 1])
    else Subsequence(a, b[..|b| - 1])
  }

  /** The filtered list keeps exactly the elements satisfying `p`, each as often as
      the input holds it. */
  lemma {:induction false} FilterCount<T>(xs: seq<T>, p: T -> bool, x: T)
    ensures multiset(Filter(xs, p))[x] == if p(x) then multiset(xs)[x] else 0
  {
    if xs != [] {
      var init := xs[..|xs| - 1];
      FilterCount(init, p, x);
      assert xs == init + [xs[|xs| - 1]];
    }
  }

  /** ... and in input order. */
  lemma {:induction false} FilterSubsequence<T>(xs: seq<T>, p: T -> bool)
    ensures Subsequence(Filter(xs, p), xs)
  {
    if xs != [] {
      var init := xs[..|xs| - 1];
      var f := Filter(xs, p);
      FilterSubsequence(init, p);
      if p(xs[|xs| - 1]) {
        assert f[..|f| - 1] == Filter(init, p);
      } else {
        assert f == Filter(init, p) + [] == Filter(init, p);
        if f != [] {
          assert p(f[|f| - 1]) && !p(xs[|xs| - 1]);
        }
      }
    }
  }

  // ---------------------------------------------------------------------------
  // Mapping and collecting: `[f(x) for x in xs]` and loops that append `f(x)` when present

  function MapSeq<T, U>(xs: seq<T>, f: T -> U): (r: seq<U>)
    ensures |r| == |xs|
    ensures forall i :: 0 <= i < |xs| ==> r[i] == f(xs[i])
  {
    seq(|xs|, i requires 0 <= i < |xs| => f(xs[i]))
  }

  /** A loop that appends `f(x)` for every `x` of `xs` for which it is present. */
  function Collect<A, B>(xs: seq<A>, f: A -> Option<B>): (r: seq<B>)
    ensures |r| <= |xs|
  {
    if xs == [] then []
    else
      var x := xs[|xs| - 1];
      Collect(xs[..|xs| - 1], f) + (if f(x).Some? then [f(x).value] else [])
  }

  /** The positions in `xs` that `Collect` keeps, in order. */
  function KeptAt<A, B>(xs: seq<A>, f: A -> Option<B>): seq<int>
  {
    if xs == [] then []
    else KeptAt(xs[..|xs| - 1], f) + (if f(xs[|xs| - 1]).Some? then [|xs| - 1] else [])
  }

  lemma CollectStep<A, B>(xs: seq<A>, i: int, f: A -> Option<B>)
    requires 0 <= i < |xs|
    ensures Collect(xs[..i + 1], f) == Collect(xs[..i], f) + (if f(xs[i]).Some? then [f(xs[i]).value] else [])
  {
    assert xs[..i + 1][..i] == xs[..i];
  }

  /** `Collect` keeps the present results in input order: its i-th element comes from the
      i-th position of `xs` whose result is present, the positions are strictly increasing,
      and no position with a present result is skipped. */
  lemma {:induction false} CollectInOrder<A, B>(xs: seq<A>, f: A -> Option<B>)
    ensures |KeptAt(xs, f)| == |Collect(xs, f)|
    ensures forall i :: 0 <= i < |KeptAt(xs, f)| ==>
      0 <= KeptAt(xs, f)[i] < |xs| && f(xs[KeptAt(xs, f)[i]]) == Some(Collect(xs, f)[i])
    ensures forall i, j :: 0 <= i < j < |KeptAt(xs, f)| ==> KeptAt(xs, f)[i] < KeptAt(xs, f)[j]
    ensures forall k :: 0 <= k < |xs| && f(xs[k]).Some? ==> k in KeptAt(xs, f)
  {
    if xs != [] {
      var init := xs[..|xs| - 1];
      var x := xs[|xs| - 1];
      CollectInOrder(init, f);
      var at0, r0 := KeptAt(init, f), Collect(init, f);
      var at, r := KeptAt(xs, f), Collect(xs, f);
      assert at == at0 + (if f(x).Some? then [|xs| - 1] else []);
      assert r == r0 + (if f(x).Some? then [f(x).value] else []);
      forall i | 0 <= i < |at|
        ensures 0 <= at[i] < |xs| && f(xs[at[i]]) == Some(r[i])
      {
        if i < |at0| {
          assert at[i] == at0[i] && r[i] == r0[i] && xs[at0[i]] == init[at0[i]];
        }
      }
      forall k | 0 <= k < |xs| && f(xs[k]).Some?
        ensures k in at
      {
        if k < |init| {
          assert init[k] == xs[k] && k in at0;
        }
      }
    }
  }

  // ---------------------------------------------------------------------------
  // Loops whose calls may raise: the first exception ends the loop

  /** The error message of a call's outcome, if it raised. */
  function ErrorOf<T>(r: Result<T, string>): Option<string>
  {
    if r.Err? then Some(r.error) else None
  }

  /** The message of the first element of `xs` whose call raises, where `fails(x)` is the
      message the call for `x` raises, if it does. */
  function FirstFailure<T>(xs: seq<T>, fails: T -> Option<string>): Option<string>
  {
    if xs == [] then None
    else
      var before := FirstFailure(xs[..|xs| - 1], fails);
      if before.Some? then before else fails(xs[|xs| - 1])
  }

  lemma FirstFailureStep<T>(xs: seq<T>, i: int, fails: T -> Option<string>)
    requires 0 <= i < |xs|
    ensures FirstFailure(xs[..i + 1], fails)
         == if FirstFailure(xs[..i], fails).Some? then FirstFailure(xs[..i], fails) else fails(xs[i])
  {
    assert xs[..i + 1][..i] == xs[..i];
  }

  /** Once a call has raised, the elements after it change nothing. */
  lemma {:induction false} FirstFailureSticky<T>(xs: seq<T>, i: int, fails: T -> Option<string>)
    requires 0 <= i <= |xs| && FirstFailure(xs[..i], fails).Some?
    ensures FirstFailure(xs, fails) == FirstFailure(xs[..i], fails)
    decreases |xs|
  {
    if i < |xs| {
      var init := xs[..|xs| - 1];
      assert init[..i] == xs[..i];
      FirstFailureSticky(init, i, fails);
    } else {
      assert xs[..i] == xs;
    }
  }

  /** A loop over `xs` that has met no failure before position `i` ends with the failure at `i`. */
  lemma FirstFailureAt<T>(xs: seq<T>, i: int, fails: T -> Option<string>)
    requires 0 <= i < |xs| && FirstFailure(xs[..i], fails).None? && fails(xs[i]).Some?
    ensures FirstFailure(xs, fails) == fails(xs[i])
  {
    FirstFailureStep(xs, i, fails);
    FirstFailureSticky(xs, i + 1, fails);
  }

  /** ... and goes on past position `i` when the call there does not raise. */
  lemma FirstFailureNext<T>(xs: seq<T>, i: int, fails: T -> Option<string>)
    requires 0 <= i < |xs| && FirstFailure(xs[..i], fails).None? && fails(xs[i]).None?
    ensures FirstFailure(xs[..i + 1], fails).None?
  {
    FirstFailureStep(xs, i, fails);
  }

  /** Nothing is raised exactly when no call raises; otherwise the message is the one raised
      by the first call that raises. */
  lemma {:induction false} FirstFailureMeaning<T>(xs: seq<T>, fails: T -> Option<string>)
    ensures FirstFailure(xs, fails).None? <==> forall i :: 0 <= i < |xs| ==> fails(xs[i]).None?
    ensures FirstFailure(xs, fails).Some? ==>
      exists i :: 0 <= i < |xs| && fails(xs[i]) == FirstFailure(xs, fails)
                  && forall j :: 0 <= j < i ==> fails(xs[j]).None?
  {
    if xs != [] {
      var init := xs[..|xs| - 1];
      FirstFailureMeaning(init, fails);
      assert forall i :: 0 <= i < |init| ==> init[i] == xs[i];
      if FirstFailure(init, fails).Some? {
        var i :| 0 <= i < |init| && fails(init[i]) == FirstFailure(init, fails)
                 && forall j :: 0 <= j < i ==> fails(init[j]).None?;
        assert fails(xs[i]) == FirstFailure(xs, fails);
      } else if fails(xs[|xs| - 1]).Some? {
        assert fails(xs[|xs| - 1]) == FirstFailure(xs, fails);
      }
    }
  }

  /** Python's `p in s` on strings. */
  predicate IsSubstring(p: string, s: string)
    decreases |s|
  {
    IsPrefix(p, s) || (s != [] && IsSubstring(p, s[1..]))
  }

  predicate IsPrefix<T(==)>(p: seq<T>, s: seq<T>) { |p| <= |s| && s[..|p|] == p }

  /** Python's `s[:k]`: a negative `k` counts from the end. */
  function PySlicePrefix<T>(s: seq<T>, k: int): (r: seq<T>)
    ensures IsPrefix(r, s)
    ensures k >= 0 ==> |r| == Min(k, |s|)
    ensures k < 0 ==> |r| == Max(0, |s| + k)
  {
    if k >= 0 then s[..Min(k, |s|)] else s[..Max(0, |s| + k)]
  }

  // ---------------------------------------------------------------------------
  // Lexicographic order on strings, as Python's `<=` on `str`

  predicate LexLe(a: string, b: string)
    decreases |a|
  {
    a == [] || (b != [] && (a[0] < b[0] || (a[0] == b[0] && LexLe(a[1..], b[1..]))))
  }

  lemma {:induction false} LexLeRefl(a: string)
    ensures LexLe(a, a)
    decreases |a|
  {
    if a != [] { LexLeRefl(a[1..]); }
  }

  lemma {:induction false} LexLeTotal(a: string, b: string)
    ensures LexLe(a, b) || LexLe(b, a)
    decreases |a|
  {
    if a != [] && b != [] && a[0] == b[0] { LexLeTotal(a[1..], b[1..]); }
  }

  lemma {:induction false} LexLeTrans(a: string, b: string, c: string)
    requires LexLe(a, b) && LexLe(b, c)
    ensures LexLe(a, c)
    decreases |a|
  {
    if a != [] && b != [] && c != [] && a[0] == b[0] && b[0] == c[0] {
      LexLeTrans(a[1..], b[1..], c[1..]);
    }
  }

  lemma {:induction false} LexLeAntisym(a: string, b: string)
    requires LexLe(a, b) && LexLe(b, a)
    ensures a == b
    decreases |a|
  {
    if a != [] && b != [] {
      LexLeAntisym(a[1..], b[1..]);
      assert a == [a[0]] + a[1..];
      assert b == [b[0]] + b[1..];
    }
  }

  // ---------------------------------------------------------------------------
  // Query parameters

  /** A query-string value: text or a number. */
  datatype Param = PStr(s: string) | PInt(i: int)

  /** A string argument that counts as given: Python's `if artist_id:`. */
  predicate Given(x: Option<string>) { x.Some? && x.value != "" }

  /** `sep.join(xs)` stored under `key` when the list is non-empty (`if xs:`). */
  function JoinedParam(key: string, xs: seq<string>, sep: string): (r: map<string, Param>)
    ensures r.Keys == if xs == [] then {} else {key}
    ensures xs != [] ==> r[key] == PStr(Join(xs, sep))
  {
    if xs == [] then map[] else map[key := PStr(Join(xs, sep))]
  }

  /** A joined list parameter can be split back into the list it came from, as long as
      no element contains the separator: the service sees exactly the caller's list. */
  lemma JoinedParamRoundTrip(key: string, xs: seq<string>, sep: char)
    requires xs != []
    requires forall i :: 0 <= i < |xs| ==> sep !in xs[i]
    ensures Split(JoinedParam(key, xs, [sep])[key].s, sep) == xs
  {
    SplitJoin(xs, sep);
  }
}
