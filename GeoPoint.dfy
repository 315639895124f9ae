/**
 * Geography values of packages/database/src/utils.ts: reading the
 * `POINT(lng lat)` well-known text that the database hands back
 * (`parseGeographyPoint`), and attaching a `location` object to a raw row
 * (`transformFoodCenter`).
 *
 * The pattern `POINT\(([-0-9.]+)\s+([-0-9.]+)\)` is searched for anywhere in
 * the text. Its three character classes (token characters, white space and
 * ')') are pairwise disjoint, so at any start position the greedy match is
 * the only one: each run is taken whole. `MatchAt` computes it that way and
 * `MatchAtExact` shows that every way of reading the pattern there agrees.
 */
module DatabaseUtils {
  import opened Wrappers
  import opened Strings
  import opened Json

  /** `[-0-9.]` */
  predicate IsTokenChar(c: char) {
    c == '-' || c == '.' || '0' <= c <= '9'
  }

  /** JavaScript's `\s`: the ASCII white space, no-break space, the Unicode space separators, line and paragraph separators and the byte-order mark. */
  predicate IsSpace(c: char) {
    || c == ' ' || c == '\t' || c == '\n' || c == '\r' || c == '\U{000B}' || c == '\U{000C}'
    || c == '\U{00A0}' || c == '\U{1680}' || ('\U{2000}' <= c <= '\U{200A}')
    || c == '\U{2028}' || c == '\U{2029}' || c == '\U{202F}' || c == '\U{205F}'
    || c == '\U{3000}' || c == '\U{FEFF}'
  }

  /** A string `[-0-9.]+` matches. */
  predicate IsToken(t: string) {
    |t| > 0 && forall i :: 0 <= i < |t| ==> IsTokenChar(t[i])
  }

  /** A string `\s+` matches. */
  predicate IsSpaces(w: string) {
    |w| > 0 && forall i :: 0 <= i < |w| ==> IsSpace(w[i])
  }

  /** Length of the longest run of token characters starting at `i`. */
  function TokenRun(s: string, i: nat): (n: nat)
    requires i <= |s|
    ensures i + n <= |s|
    decreases |s| - i
  {
    if i < |s| && IsTokenChar(s[i]) then 1 + TokenRun(s, i + 1) else 0
  }

  /** Length of the longest run of white space starting at `i`. */
  function SpaceRun(s: string, i: nat): (n: nat)
    requires i <= |s|
    ensures i + n <= |s|
    decreases |s| - i
  {
    if i < |s| && IsSpace(s[i]) then 1 + SpaceRun(s, i + 1) else 0
  }

  /** The two captured groups, longitude text first. */
  datatype RawPoint = RawPoint(lng: string, lat: string)

  datatype LatLng = LatLng(lat: real, lng: real)

  const Prefix := "POINT("

  /** The match of the pattern that starts at index `i`, if there is one. */
  function MatchAt(s: string, i: nat): Option<RawPoint> {
    if !OccursAt(s, Prefix, i) then None
    else
      var a := i + |Prefix|;
      var b := a + TokenRun(s, a);
      var c := b + SpaceRun(s, b);
      var d := c + TokenRun(s, c);
      if a < b && b < c && c < d && d < |s| && s[d] == ')' then Some(RawPoint(s[a..b], s[c..d])) else None
  }

  /** The leftmost match at or after index `from`. */
  function FirstMatch(s: string, from: nat): Option<RawPoint>
    decreases |s| - from
  {
    if from > |s| then None
    else if MatchAt(s, from).Some? then MatchAt(s, from)
    else FirstMatch(s, from + 1)
  }

  /** `point.match(...)` with its empty-string guard: the two captured texts. */
  function PointTokens(point: string): Option<RawPoint> {
    if point == "" then None else FirstMatch(point, 0)
  }

  /** `parseGeographyPoint`, with `parseFloat` supplied by the caller. */
  function ParseGeographyPoint(point: string, parseFloat: string -> real): Option<LatLng> {
    match PointTokens(point) {
      case None => None
      case Some(rp) => Some(LatLng(lat := parseFloat(rp.lat), lng := parseFloat(rp.lng)))
    }
  }

  // ---- the match ----

  lemma {:induction false} TokenRunExact(s: string, i: nat, t: string)
    requires OccursAt(s, t, i)
    requires forall k :: 0 <= k < |t| ==> IsTokenChar(t[k])
    requires i + |t| == |s| || !IsTokenChar(s[i + |t|])
    ensures TokenRun(s, i) == |t|
    decreases |t|
  {
    if |t| > 0 {
      assert s[i] == t[0];
      assert s[i + 1..i + 1 + |t[1..]|] == t[1..];
      TokenRunExact(s, i + 1, t[1..]);
    }
  }

  lemma {:induction false} SpaceRunExact(s: string, i: nat, w: string)
    requires OccursAt(s, w, i)
    requires forall k :: 0 <= k < |w| ==> IsSpace(w[k])
    requires i + |w| == |s| || !IsSpace(s[i + |w|])
    ensures SpaceRun(s, i) == |w|
    decreases |w|
  {
    if |w| > 0 {
      assert s[i] == w[0];
      assert s[i + 1..i + 1 + |w[1..]|] == w[1..];
      SpaceRunExact(s, i + 1, w[1..]);
    }
  }

  lemma {:induction false} TokenRunChars(s: string, i: nat)
    requires i <= |s|
    ensures forall k :: i <= k < i + TokenRun(s, i) ==> IsTokenChar(s[k])
    decreases |s| - i
  {
    if i < |s| && IsTokenChar(s[i]) {
      TokenRunChars(s, i + 1);
    }
  }

  lemma {:induction false} SpaceRunChars(s: string, i: nat)
    requires i <= |s|
    ensures forall k :: i <= k < i + SpaceRun(s, i) ==> IsSpace(s[k])
    decreases |s| - i
  {
    if i < |s| && IsSpace(s[i]) {
      SpaceRunChars(s, i + 1);
    }
  }

  /** The whole match text for given groups and the white space between them. */
  function MatchText(lng: string, w: string, lat: string): string {
    Prefix + lng + w + lat + ")"
  }

  /**
   * Wherever the text at `i` reads `POINT(` token white-space token `)`,
   * the match there captures exactly those two tokens.
   */
  lemma MatchAtExact(s: string, i: nat, lng: string, w: string, lat: string)
    requires IsToken(lng) && IsSpaces(w) && IsToken(lat)
    requires OccursAt(s, MatchText(lng, w, lat), i)
    ensures MatchAt(s, i) == Some(RawPoint(lng, lat))
  {
    var a := i + |Prefix|;
    var b := a + |lng|;
    var c := b + |w|;
    var d := c + |lat|;
    MatchTextParts(s, i, lng, w, lat);
    OccursAtFirst(s, w, b);
    OccursAtFirst(s, lat, c);
    ClassesDisjoint(s[b]);
    ClassesDisjoint(s[c]);
    TokenRunExact(s, a, lng);
    SpaceRunExact(s, b, w);
    TokenRunExact(s, c, lat);
    MatchAtFromRuns(s, i, b, c, d);
  }

  /** The match text at `i` is the prefix, the two tokens with white space between, and ')'. */
  lemma MatchTextParts(s: string, i: nat, lng: string, w: string, lat: string)
    requires OccursAt(s, MatchText(lng, w, lat), i)
    ensures OccursAt(s, Prefix, i)
    ensures OccursAt(s, lng, i + |Prefix|)
    ensures OccursAt(s, w, i + |Prefix| + |lng|)
    ensures OccursAt(s, lat, i + |Prefix| + |lng| + |w|)
    ensures i + |Prefix| + |lng| + |w| + |lat| < |s| && s[i + |Prefix| + |lng| + |w| + |lat|] == ')'
  {
    OccursAtConcat(s, Prefix + lng + w + lat, ")", i);
    OccursAtConcat(s, Prefix + lng + w, lat, i);
    OccursAtConcat(s, Prefix + lng, w, i);
    OccursAtConcat(s, Prefix, lng, i);
    OccursAtFirst(s, ")", i + |Prefix| + |lng| + |w| + |lat|);
  }

  /** Given the lengths of the three runs after the prefix, the match at `i` is determined. */
  lemma MatchAtFromRuns(s: string, i: nat, b: nat, c: nat, d: nat)
    requires OccursAt(s, Prefix, i)
    requires i + |Prefix| < b < c < d < |s| && s[d] == ')'
    requires TokenRun(s, i + |Prefix|) == b - (i + |Prefix|)
    requires SpaceRun(s, b) == c - b
    requires TokenRun(s, c) == d - c
    ensures MatchAt(s, i) == Some(RawPoint(s[i + |Prefix|..b], s[c..d]))
  {
  }

  /** No character is both a token character and white space, and ')' is neither. */
  lemma ClassesDisjoint(ch: char)
    ensures IsSpace(ch) ==> !IsTokenChar(ch)
    ensures IsTokenChar(ch) ==> !IsSpace(ch)
    ensures !IsTokenChar(')') && !IsSpace(')')
  {
  }

  lemma OccursAtConcat(s: string, x: string, y: string, i: nat)
    requires OccursAt(s, x + y, i)
    ensures OccursAt(s, x, i) && OccursAt(s, y, i + |x|)
  {
    assert s[i..i + |x|] == s[i..i + |x + y|][..|x|] == (x + y)[..|x|] == x;
    assert s[i + |x|..i + |x| + |y|] == s[i..i + |x + y|][|x|..] == (x + y)[|x|..] == y;
  }

  lemma OccursAtFirst(s: string, p: string, i: nat)
    requires OccursAt(s, p, i) && |p| > 0
    ensures s[i] == p[0]
  {
    assert s[i..i + |p|][0] == s[i];
  }

  /** A match at `i` is the pattern's text, with some white space between the groups. */
  lemma MatchAtSound(s: string, i: nat) returns (w: string)
    requires MatchAt(s, i).Some?
    ensures IsToken(MatchAt(s, i).value.lng) && IsSpaces(w) && IsToken(MatchAt(s, i).value.lat)
    ensures OccursAt(s, MatchText(MatchAt(s, i).value.lng, w, MatchAt(s, i).value.lat), i)
  {
    var a := i + |Prefix|;
    var b := a + TokenRun(s, a);
    var c := b + SpaceRun(s, b);
    var d := c + TokenRun(s, c);
    TokenRunChars(s, a);
    SpaceRunChars(s, b);
    TokenRunChars(s, c);
    w := s[b..c];
    assert MatchAt(s, i).value == RawPoint(s[a..b], s[c..d]);
    RunIsToken(s, a, b);
    RunIsSpaces(s, b, c);
    RunIsToken(s, c, d);
    RunsMakeMatchText(s, i, a, b, c, d);
  }

  /** The prefix at `i` and the three runs after it, closed by ')', spell out the matched text. */
  lemma RunsMakeMatchText(s: string, i: nat, a: nat, b: nat, c: nat, d: nat)
    requires OccursAt(s, Prefix, i) && a == i + |Prefix|
    requires a <= b <= c <= d < |s| && s[d] == ')'
    ensures OccursAt(s, MatchText(s[a..b], s[b..c], s[c..d]), i)
  {
    SliceFive(s, i, a, b, c, d);
    assert s[i..a] == Prefix;
    assert MatchText(s[a..b], s[b..c], s[c..d]) == s[i..a] + s[a..b] + s[b..c] + s[c..d] + [s[d]];
  }

  lemma RunIsToken(s: string, a: nat, b: nat)
    requires a < b <= |s|
    requires forall k :: a <= k < b ==> IsTokenChar(s[k])
    ensures IsToken(s[a..b])
  {
    forall k | 0 <= k < b - a ensures IsTokenChar(s[a..b][k]) {
      assert s[a..b][k] == s[a + k];
    }
  }

  lemma RunIsSpaces(s: string, a: nat, b: nat)
    requires a < b <= |s|
    requires forall k :: a <= k < b ==> IsSpace(s[k])
    ensures IsSpaces(s[a..b])
  {
    forall k | 0 <= k < b - a ensures IsSpace(s[a..b][k]) {
      assert s[a..b][k] == s[a + k];
    }
  }

  /** The text from `i` to `d` inclusive, cut at `a`, `b` and `c`. */
  lemma SliceFive(s: string, i: nat, a: nat, b: nat, c: nat, d: nat)
    requires i <= a <= b <= c <= d < |s|
    ensures s[i..d + 1] == s[i..a] + s[a..b] + s[b..c] + s[c..d] + [s[d]]
  {
  }

  /** The match found is the leftmost one: none starts earlier. */
  lemma {:induction false} FirstMatchLeftmost(s: string, from: nat) returns (i: nat)
    requires FirstMatch(s, from).Some?
    ensures from <= i <= |s| && MatchAt(s, i) == FirstMatch(s, from)
    ensures forall j :: from <= j < i ==> MatchAt(s, j).None?
    decreases |s| - from
  {
    if MatchAt(s, from).Some? {
      i := from;
    } else {
      i := FirstMatchLeftmost(s, from + 1);
    }
  }

  /** No match is found exactly when no index starts one. */
  lemma {:induction false} FirstMatchNone(s: string, from: nat)
    ensures FirstMatch(s, from).None? <==> forall j :: from <= j <= |s| ==> MatchAt(s, j).None?
    decreases |s| - from
  {
    if from <= |s| {
      FirstMatchNone(s, from + 1);
    }
  }

  /** The empty string has no point. */
  lemma EmptyIsNoPoint(parseFloat: string -> real)
    ensures ParseGeographyPoint("", parseFloat) == None
  {
  }

  /** A `POINT(lng lat)` anywhere in the text, with no 'P' before it, is read with the first group as longitude. */
  lemma {:induction false} ReadPointInContext(before: string, lng: string, w: string, lat: string, after: string)
    requires IsToken(lng) && IsSpaces(w) && IsToken(lat)
    requires 'P' !in before
    ensures PointTokens(before + MatchText(lng, w, lat) + after) == Some(RawPoint(lng, lat))
  {
    var s := before + MatchText(lng, w, lat) + after;
    var m := MatchText(lng, w, lat);
    assert s[|before|..|before| + |m|] == m;
    MatchAtExact(s, |before|, lng, w, lat);
    NoMatchBefore(s, before, 0);
  }

  /** No match starts inside a prefix that has no 'P'. */
  lemma {:induction false} NoMatchBefore(s: string, before: string, j: nat)
    requires |before| <= |s| && s[..|before|] == before
    requires 'P' !in before
    requires j <= |before|
    requires MatchAt(s, |before|).Some?
    ensures FirstMatch(s, j) == MatchAt(s, |before|)
    decreases |before| - j
  {
    if j < |before| {
      assert s[j] == before[j] != 'P';
      if j + |Prefix| <= |s| {
        assert s[j..j + |Prefix|][0] == s[j];
      }
      NoMatchBefore(s, before, j + 1);
    }
  }

  /** With the parse of a token supplied, a point's coordinates come back in (lng, lat) order. */
  lemma ReadPointCoordinates(lng: string, w: string, lat: string, parseFloat: string -> real)
    requires IsToken(lng) && IsSpaces(w) && IsToken(lat)
    ensures ParseGeographyPoint(MatchText(lng, w, lat), parseFloat)
         == Some(LatLng(lat := parseFloat(lat), lng := parseFloat(lng)))
  {
    ReadPointInContext("", lng, w, lat, "");
    assert "" + MatchText(lng, w, lat) + "" == MatchText(lng, w, lat);
  }

  // ---- transformFoodCenter ----

  /** The item's two coordinates gathered into one object, an undefined one left out. */
  function LocationOf(item: map<string, Value>): map<string, Value> {
    (if "lat" in item then map["lat" := item["lat"]] else map[])
    + (if "lng" in item then map["lng" := item["lng"]] else map[])
  }

  /** The item with its `location` replaced by the object of its own coordinates; every other key kept. */
  function TransformFoodCenter(item: map<string, Value>): (r: map<string, Value>)
    ensures r.Keys == item.Keys + {"location"}
    ensures forall k :: k in item && k != "location" ==> r[k] == item[k]
    ensures r["location"].Obj?
    ensures Get(r["location"].fields, "lat") == Get(item, "lat")
    ensures Get(r["location"].fields, "lng") == Get(item, "lng")
    ensures r["location"].fields.Keys <= {"lat", "lng"}
  {
    item["location" := Obj(LocationOf(item))]
  }

  /** Transforming a transformed row changes nothing more. */
  lemma TransformIdempotent(item: map<string, Value>)
    ensures TransformFoodCenter(TransformFoodCenter(item)) == TransformFoodCenter(item)
  {
    var once := TransformFoodCenter(item);
    assert LocationOf(once) == LocationOf(item);
  }
}
