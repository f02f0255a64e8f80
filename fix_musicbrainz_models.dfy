/** The release-group list model of the MusicBrainz fix-ups: a "before" validator that
    rewrites the raw response dictionary in place so that both spellings of the release
    group list and of its count are accepted, then field defaults when the model is built. */
module FixMusicBrainzModels {
  import opened Common

  type Doc = map<string, Json>

  const LegacyList := "release-group-list"
  const GroupsKey := "release-groups"
  const CountAlias := "release-group-count"

  /** The dictionary after the validator: the legacy list moved to `release-groups`, the
      plain `count` copied to its alias when the alias is missing, and `offset` defaulted. */
  function Normalized(d: Doc): Doc
  {
    var moved := if LegacyList in d then (d - {LegacyList})[GroupsKey := d[LegacyList]] else d;
    var counted := if "count" in moved && CountAlias !in moved then moved[CountAlias := moved["count"]] else moved;
    if "offset" !in counted then counted["offset" := JInt(0)] else counted
  }

  /** The keys afterwards: the legacy key is gone, `release-groups` is there if either list
      key was, the count alias if either count key was, and `offset` always. */
  lemma NormalizedKeys(d: Doc)
    ensures Normalized(d).Keys ==
      (d.Keys - {LegacyList})
      + (if LegacyList in d then {GroupsKey} else {})
      + (if "count" in d then {CountAlias} else {})
      + {"offset"}
  {
  }

  /** The values afterwards: the legacy list replaces any `release-groups`, an existing
      count alias wins over `count`, an existing offset is kept, and every other key keeps
      its value. */
  lemma NormalizedValues(d: Doc)
    ensures var n := Normalized(d);
      (LegacyList in d ==> n[GroupsKey] == d[LegacyList])
      && (LegacyList !in d && GroupsKey in d ==> n[GroupsKey] == d[GroupsKey])
      && (CountAlias in d ==> n[CountAlias] == d[CountAlias])
      && (CountAlias !in d && "count" in d ==> n[CountAlias] == d["count"])
      && n["offset"] == (if "offset" in d then d["offset"] else JInt(0))
      && (forall k :: k in d && k !in {LegacyList, GroupsKey, CountAlias, "offset"} ==> k in n && n[k] == d[k])
  {
  }

  /** Running the validator on its own output changes nothing. */
  lemma NormalizedIdempotent(d: Doc)
    ensures Normalized(Normalized(d)) == Normalized(d)
  {
    var n := Normalized(d);
    assert LegacyList !in n;
    assert "count" in n ==> CountAlias in n;
    assert "offset" in n;
  }

  /** The dictionary handed to the validator, which it changes and returns. */
  class ResponseData {
    var data: Doc

    constructor(d: Doc)
      ensures data == d
    {
      data := d;
    }

    /** `validate_structure`: the same object comes back, its dictionary normalised. */
    method ValidateStructure() returns (r: ResponseData)
      modifies this
      ensures r == this
      ensures data == Normalized(old(data))
    {
      if LegacyList in data {
        var groups := data[LegacyList];
        data := data - {LegacyList};
        data := data[GroupsKey := groups];
      }
      if "count" in data && CountAlias !in data {
        data := data[CountAlias := data["count"]];
      }
      if "offset" !in data {
        data := data["offset" := JInt(0)];
      }
      r := this;
    }
  }

  /** The built model: count, offset and the release groups (kept as raw values). */
  datatype ReleaseGroupList = ReleaseGroupList(count: int, offset: int, releaseGroups: seq<Json>)

  /** The value of a field given by its alias or, failing that, by its name. */
  function Field(d: Doc, alias: string, name: string): Option<Json>
  {
    if alias in d then Some(d[alias]) else if name in d then Some(d[name]) else None
  }

  predicate IsDigit(c: char) { '0' as int <= c as int <= '9' as int }

  /** The number written by a run of decimal digits, read left to right. */
  function DigitsValue(s: string): (n: nat)
    requires forall i :: 0 <= i < |s| ==> IsDigit(s[i])
  {
    if s == [] then 0
    else
      assert IsDigit(s[|s| - 1]);
      DigitsValue(s[..|s| - 1]) * 10 + (s[|s| - 1] as int - '0' as int)
  }

  /** An integer written in decimal: an optional sign, then at least one digit. */
  function ParseInt(s: string): (r: Option<int>)
  {
    var signed := |s| > 0 && (s[0] == '-' || s[0] == '+');
    var digits := if |s| > 0 && signed then s[1..] else s;
    if digits != [] && forall i :: 0 <= i < |digits| ==> IsDigit(digits[i]) then
      var n: int := DigitsValue(digits);
      Some(if signed && s[0] == '-' then -n else n)
    else None
  }

  /** The decimal digits of a natural number, without leading zeros. */
  function Digits(n: nat): (s: string)
    ensures s != [] && forall i :: 0 <= i < |s| ==> IsDigit(s[i])
  {
    if n < 10 then [('0' as int + n) as char] else Digits(n / 10) + [('0' as int + n % 10) as char]
  }

  /** The decimal text of an integer, a minus sign first when it is negative. */
  function IntText(n: int): string
  {
    if n < 0 then "-" + Digits(-n) else Digits(n)
  }

  lemma {:induction false} DigitsRoundTrip(n: nat)
    ensures DigitsValue(Digits(n)) == n
  {
    if n >= 10 {
      DigitsRoundTrip(n / 10);
      var s := Digits(n);
      assert s[..|s| - 1] == Digits(n / 10);
    }
  }

  /** Reading back the decimal text of an integer gives that integer. */
  lemma ParseIntRoundTrip(n: int)
    ensures ParseInt(IntText(n)) == Some(n)
  {
    var t := IntText(n);
    if n < 0 {
      DigitsRoundTrip(-n);
      assert t[1..] == Digits(-n);
    } else {
      DigitsRoundTrip(n);
    }
  }

  /** pydantic's lax conversion of a JSON value to an `int` field: an integer as it is,
      a boolean as 1 or 0, a number with no fractional part, and a string holding a
      decimal integer; anything else fails. */
  function LaxInt(v: Json): (r: Option<int>)
    ensures v.JInt? ==> r == Some(v.i)
    ensures v.JBool? ==> r == Some(if v.b then 1 else 0)
    ensures v.JReal? ==> (r.Some? <==> v.r == v.r.Floor as real)
    ensures v.JReal? && r.Some? ==> r.value as real == v.r
    ensures v.JStr? ==> r == ParseInt(v.s)
    ensures v.JNull? || v.JArr? || v.JObj? ==> r.None?
  {
    match v
    case JInt(i) => Some(i)
    case JBool(b) => Some(if b then 1 else 0)
    case JReal(x) => if x == x.Floor as real then Some(x.Floor) else None
    case JStr(t) => ParseInt(t)
    case _ => None
  }

  /** Building the model from a dictionary: each field from its alias or, failing that,
      its name; count and offset default to 0 and the release groups to an empty list.
      A count or offset that does not convert to an integer, or release groups that are
      not a list, is a validation error. */
  function Build(d: Doc): (r: Result<ReleaseGroupList, string>)
    ensures var count := Field(d, CountAlias, "count");
            var offset := Field(d, "offset", "offset");
            var groups := Field(d, GroupsKey, "release_groups");
            r.Err? <==> (count.Some? && LaxInt(count.value).None?)
                        || (offset.Some? && LaxInt(offset.value).None?)
                        || (groups.Some? && !groups.value.JArr?)
    ensures r.Ok? ==> r.value.count == (match Field(d, CountAlias, "count")
                                        case None => 0
                                        case Some(v) => LaxInt(v).value)
    ensures r.Ok? ==> r.value.offset == (match Field(d, "offset", "offset")
                                         case None => 0
                                         case Some(v) => LaxInt(v).value)
    ensures r.Ok? ==> r.value.releaseGroups == (match Field(d, GroupsKey, "release_groups")
                                                case None => []
                                                case Some(v) => v.items)
  {
    var count := Field(d, CountAlias, "count");
    var offset := Field(d, "offset", "offset");
    var groups := Field(d, GroupsKey, "release_groups");
    if count.Some? && LaxInt(count.value).None? then Err("count: Input should be a valid integer")
    else if offset.Some? && LaxInt(offset.value).None? then Err("offset: Input should be a valid integer")
    else if groups.Some? && !groups.value.JArr? then Err("release_groups: Input should be a valid list")
    else Ok(ReleaseGroupList(if count.Some? then LaxInt(count.value).value else 0,
                             if offset.Some? then LaxInt(offset.value).value else 0,
                             if groups.Some? then groups.value.items else []))
  }

  /** A count written as text builds as the number it writes. */
  lemma BuildReadsTextCount(n: int)
    ensures Build(map[CountAlias := JStr(IntText(n))]) == Ok(ReleaseGroupList(n, 0, []))
  {
    ParseIntRoundTrip(n);
  }

  /** The validator then the model: an empty response gives the defaults, and a response
      that uses only the legacy spellings gives its list and its count. */
  lemma BuildAfterValidation(d: Doc, groups: seq<Json>, count: int)
    ensures Build(Normalized(map[])) == Ok(ReleaseGroupList(0, 0, []))
    ensures Build(Normalized(map[LegacyList := JArr(groups), "count" := JInt(count)]))
            == Ok(ReleaseGroupList(count, 0, groups))
  {
    var e: Doc := map[];
    assert Normalized(e) == map["offset" := JInt(0)];
    var legacy: Doc := map[LegacyList := JArr(groups), "count" := JInt(count)];
    var n := Normalized(legacy);
    NormalizedValues(legacy);
    assert n[GroupsKey] == JArr(groups) && n[CountAlias] == JInt(count) && n["offset"] == JInt(0);
  }
}
