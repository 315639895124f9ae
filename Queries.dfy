/**
 * Request shaping in packages/database/src/queries.ts. The hosted database
 * client is replaced by the query it would be sent: a table, a column list,
 * filter clauses, an ordering and an optional row limit; `Run` gives those
 * clauses their meaning over a table of rows. The network round trip and the
 * client's error reporting are not part of this model.
 */
module Queries {
  import opened Wrappers
  import opened Strings
  import opened Json
  import opened DatabaseUtils

  type Row = map<string, Value>

  /** A filter clause: `.eq(column, value)` or `.overlaps(column, values)`. */
  datatype Clause = Eq(column: string, value: Value) | Overlaps(column: string, values: seq<string>)
  /** The column the rows are sorted on, and the direction. */
  /** `.order(column, { ascending })` */
  datatype Order = Order(column: string, ascending: bool)

  datatype Query = Query(table: string, columns: string, clauses: seq<Clause>, order: Order, limit: Option<nat>)

  /** The optional filters of `getFoodCenters`; an absent filters object is `NoFilters`. */
  datatype Filters = Filters(
    centerType: Option<string>,
    dietaryRestrictions: Option<seq<string>>,
    city: Option<string>,
    verified: Option<bool>)

  const NoFilters := Filters(None, None, None, None)

  const NewestFirst := Order("created_at", false)

  /** JavaScript truthiness of an optional string. */
  predicate Given(s: Option<string>) {
    s.Some? && s.value != ""
  }

  // ---- getFoodCenters ----

  /** The clauses `getFoodCenters` adds, in the order it adds them. */
  function FoodCenterClauses(f: Filters): seq<Clause> {
    (if Given(f.centerType) then [Eq("type", Str(f.centerType.value))] else [])
    + (if Given(f.city) then [Eq("city", Str(f.city.value))] else [])
    + (if f.verified.Some? then [Eq("verified", Bool(f.verified.value))] else [])
    + (if f.dietaryRestrictions.Some? && |f.dietaryRestrictions.value| > 0
       then [Overlaps("dietary_restrictions", f.dietaryRestrictions.value)] else [])
  }

  function FoodCentersQuery(f: Filters): Query {
    Query("food_centers", "*", FoodCenterClauses(f), NewestFirst, None)
  }

  /** `getFoodCenters`: the query built up by reassignment, one optional clause at a time. */
  method BuildFoodCentersQuery(f: Filters) returns (q: Query)
    ensures q == FoodCentersQuery(f)
    ensures q.table == "food_centers" && q.columns == "*" && q.order == NewestFirst && q.limit == None
  {
    q := Query("food_centers", "*", [], NewestFirst, None);
    if Given(f.centerType) {
      q := q.(clauses := q.clauses + [Eq("type", Str(f.centerType.value))]);
    }
    if Given(f.city) {
      q := q.(clauses := q.clauses + [Eq("city", Str(f.city.value))]);
    }
    if f.verified.Some? {
      q := q.(clauses := q.clauses + [Eq("verified", Bool(f.verified.value))]);
    }
    if f.dietaryRestrictions.Some? && |f.dietaryRestrictions.value| > 0 {
      q := q.(clauses := q.clauses + [Overlaps("dietary_restrictions", f.dietaryRestrictions.value)]);
    }
  }

  /**
   * Which clauses are sent: a type or city clause only for a non-empty
   * value, a verified clause whenever `verified` is given (false
   * included), an overlap clause only for a non-empty list.
   */
  lemma FoodCenterClausesPresent(f: Filters, t: string, b: bool, d: seq<string>)
    ensures Eq("type", Str(t)) in FoodCenterClauses(f) <==> f.centerType == Some(t) && t != ""
    ensures Eq("city", Str(t)) in FoodCenterClauses(f) <==> f.city == Some(t) && t != ""
    ensures Eq("verified", Bool(b)) in FoodCenterClauses(f) <==> f.verified == Some(b)
    ensures Overlaps("dietary_restrictions", d) in FoodCenterClauses(f) <==> f.dietaryRestrictions == Some(d) && d != []
    ensures |FoodCenterClauses(f)| <= 4
  {
    var p1 := if Given(f.centerType) then [Eq("type", Str(f.centerType.value))] else [];
    var p2 := if Given(f.city) then [Eq("city", Str(f.city.value))] else [];
    var p3 := if f.verified.Some? then [Eq("verified", Bool(f.verified.value))] else [];
    var p4 := if f.dietaryRestrictions.Some? && |f.dietaryRestrictions.value| > 0
      then [Overlaps("dietary_restrictions", f.dietaryRestrictions.value)] else [];
    assert FoodCenterClauses(f) == p1 + p2 + p3 + p4;
    InFourParts(Eq("type", Str(t)), p1, p2, p3, p4);
    InFourParts(Eq("city", Str(t)), p1, p2, p3, p4);
    InFourParts(Eq("verified", Bool(b)), p1, p2, p3, p4);
    InFourParts(Overlaps("dietary_restrictions", d), p1, p2, p3, p4);
  }

  /** An element of four sequences joined is an element of one of them. */
  lemma InFourParts<T>(x: T, a: seq<T>, b: seq<T>, c: seq<T>, e: seq<T>)
    ensures x in a + b + c + e <==> x in a || x in b || x in c || x in e
  {
  }

  /** Without filters every row is fetched. */
  lemma NoFiltersNoClauses()
    ensures FoodCentersQuery(NoFilters).clauses == []
  {
  }

  // ---- what a query selects ----

  /** A row passes a clause: equal column value, or an array column sharing an element with the list. */
  predicate Satisfies(row: Row, c: Clause) {
    match c
    case Eq(col, v) => col in row && row[col] == v
    case Overlaps(col, vs) =>
      col in row && row[col].Arr? && exists i, j :: 0 <= i < |row[col].items| && 0 <= j < |vs| && row[col].items[i] == Str(vs[j])
  }

  predicate SatisfiesAll(row: Row, cs: seq<Clause>) {
    forall i :: 0 <= i < |cs| ==> Satisfies(row, cs[i])
  }

  /** The rows, in the order the database returns them, that pass every clause. */
  function Select(rows: seq<Row>, cs: seq<Clause>): (r: seq<Row>)
    ensures forall i :: 0 <= i < |r| ==> SatisfiesAll(r[i], cs)
    ensures |r| <= |rows|
    decreases |rows|
  {
    if rows == [] then []
    else if SatisfiesAll(rows[0], cs) then [rows[0]] + Select(rows[1..], cs)
    else Select(rows[1..], cs)
  }

  function Take(rows: seq<Row>, limit: Option<nat>): seq<Row> {
    if limit.Some? && limit.value < |rows| then rows[..limit.value] else rows
  }

  /** The answer to a query over rows already in the query's order. */
  function Run(q: Query, rows: seq<Row>): seq<Row> {
    Take(Select(rows, q.clauses), q.limit)
  }

  /** An awaited query over the table: its rows, or the failed round trip (`if (error) throw error`). */
  function Execute(q: Query, table: Outcome<seq<Row>>): Outcome<seq<Row>> {
    match table
    case Threw => Threw
    case Done(rows) => Done(Run(q, rows))
  }

  /** What the filters mean for one row, written without reference to clauses. */
  predicate MatchesFilters(row: Row, f: Filters) {
    && (Given(f.centerType) ==> Get(row, "type") == Some(Str(f.centerType.value)))
    && (Given(f.city) ==> Get(row, "city") == Some(Str(f.city.value)))
    && (f.verified.Some? ==> Get(row, "verified") == Some(Bool(f.verified.value)))
    && (f.dietaryRestrictions.Some? && |f.dietaryRestrictions.value| > 0 ==>
          && "dietary_restrictions" in row && row["dietary_restrictions"].Arr?
          && exists i, j :: 0 <= i < |row["dietary_restrictions"].items| && 0 <= j < |f.dietaryRestrictions.value|
               && row["dietary_restrictions"].items[i] == Str(f.dietaryRestrictions.value[j]))
  }

  lemma SatisfiesAllAppend(row: Row, a: seq<Clause>, b: seq<Clause>)
    ensures SatisfiesAll(row, a + b) <==> SatisfiesAll(row, a) && SatisfiesAll(row, b)
  {
    if SatisfiesAll(row, a) && SatisfiesAll(row, b) {
      forall i | 0 <= i < |a + b| ensures Satisfies(row, (a + b)[i]) {
        if i >= |a| {
          assert (a + b)[i] == b[i - |a|];
        }
      }
    }
    if SatisfiesAll(row, a + b) {
      forall i | 0 <= i < |a| ensures Satisfies(row, a[i]) {
        assert (a + b)[i] == a[i];
      }
      forall i | 0 <= i < |b| ensures Satisfies(row, b[i]) {
        assert (a + b)[|a| + i] == b[i];
      }
    }
  }

  lemma SatisfiesAllOne(row: Row, c: Clause)
    ensures SatisfiesAll(row, [c]) <==> Satisfies(row, c)
  {
    assert [c][0] == c;
  }

  /** A row is fetched exactly when it meets every given filter. */
  lemma FoodCenterFiltersMeaning(row: Row, f: Filters)
    ensures SatisfiesAll(row, FoodCenterClauses(f)) <==> MatchesFilters(row, f)
  {
    var t := if Given(f.centerType) then [Eq("type", Str(f.centerType.value))] else [];
    var c := if Given(f.city) then [Eq("city", Str(f.city.value))] else [];
    var v := if f.verified.Some? then [Eq("verified", Bool(f.verified.value))] else [];
    var d := if f.dietaryRestrictions.Some? && |f.dietaryRestrictions.value| > 0
      then [Overlaps("dietary_restrictions", f.dietaryRestrictions.value)] else [];
    assert FoodCenterClauses(f) == t + c + v + d;
    SatisfiesAllAppend(row, t + c + v, d);
    SatisfiesAllAppend(row, t + c, v);
    SatisfiesAllAppend(row, t, c);
    if t != [] { SatisfiesAllOne(row, t[0]); }
    if c != [] { SatisfiesAllOne(row, c[0]); }
    if v != [] { SatisfiesAllOne(row, v[0]); }
    if d != [] { SatisfiesAllOne(row, d[0]); }
  }

  /** The selected rows keep the database's order and are exactly the matching ones. */
  lemma {:induction false} SelectMembers(rows: seq<Row>, cs: seq<Clause>, row: Row)
    ensures row in Select(rows, cs) <==> row in rows && SatisfiesAll(row, cs)
    decreases |rows|
  {
    if rows != [] {
      SelectMembers(rows[1..], cs, row);
      assert rows == [rows[0]] + rows[1..];
    }
  }

  // ---- getFoodCenterById and updateFoodCenter ----
  /** The one clause picking out the row with the given id. */
  /** `.eq("id", id)` */
  function ById(id: string): seq<Clause> {
    [Eq("id", Str(id))]
  }

  /** What a single-row request resolves to: the row, no row (`data` null without an error), or an error. */
  datatype Fetch = Found(row: Row) | NoRow | Error

  /** `.single()`: the one row; zero rows and several rows are both errors. */
  function SingleRow(rows: seq<Row>): (r: Fetch)
    ensures r.Found? <==> |rows| == 1
    ensures r.Found? ==> r.row == rows[0]
    ensures !r.NoRow?
  {
    if |rows| == 1 then Found(rows[0]) else Error
  }

  /** `.maybeSingle()`: the one row, null for none, and an error only for several. */
  function MaybeSingleRow(rows: seq<Row>): (r: Fetch)
    ensures r.Found? <==> |rows| == 1
    ensures r.Found? ==> r.row == rows[0]
    ensures r.NoRow? <==> rows == []
  {
    if |rows| == 0 then NoRow else if |rows| == 1 then Found(rows[0]) else Error
  }

  /** What an awaited single-row request gives its caller: `if (error) throw error; return data`. */
  function Unwrap(f: Outcome<Fetch>): (r: Outcome<Option<Row>>)
    ensures r.Threw? <==> f.Threw? || f.result.Error?
    ensures r == Done(None) <==> f == Done(NoRow)
    ensures f.Done? && f.result.Found? ==> r == Done(Some(f.result.row))
  {
    match f
    case Threw => Threw
    case Done(Error) => Threw
    case Done(NoRow) => Done(None)
    case Done(Found(row)) => Done(Some(row))
  }

  /** `getFoodCenterById` as written, with `.single()`, over the table (or the failed round trip). */
  function FoodCenterById(id: string, table: Outcome<seq<Row>>): Outcome<Option<Row>> {
    match table
    case Threw => Threw
    case Done(rows) => Unwrap(Done(SingleRow(Select(rows, ById(id)))))
  }

  /** `getFoodCenterById` with `.maybeSingle()`, the lookup that lets a caller tell a missing id apart. */
  function FoodCenterByIdOrNull(id: string, table: Outcome<seq<Row>>): Outcome<Option<Row>> {
    match table
    case Threw => Threw
    case Done(rows) => Unwrap(Done(MaybeSingleRow(Select(rows, ById(id)))))
  }

  /**
   * `updateFoodCenter`: the updates written over the row with that id, which
   * comes back through `.select().single()`; any other number of matching
   * rows is an error.
   */
  function UpdateFoodCenter(id: string, updates: Row, table: Outcome<seq<Row>>): Outcome<Row> {
    match table
    case Threw => Threw
    case Done(rows) =>
      var hits := Select(rows, ById(id));
      if |hits| == 1 then Done(hits[0] + updates) else Threw
  }

  /** Exactly one row with the id: it comes back with every update applied and every other column as it was. */
  lemma UpdateFoodCenterMerges(id: string, updates: Row, rows: seq<Row>)
    ensures UpdateFoodCenter(id, updates, Done(rows)).Done? <==> |Select(rows, ById(id))| == 1
    ensures UpdateFoodCenter(id, updates, Done(rows)).Done? ==>
      var before := Select(rows, ById(id))[0];
      var after := UpdateFoodCenter(id, updates, Done(rows)).result;
      && before in rows
      && after.Keys == before.Keys + updates.Keys
      && (forall k :: k in updates ==> after[k] == updates[k])
      && (forall k :: k in before && k !in updates ==> after[k] == before[k])
      && ("id" !in updates ==> Get(after, "id") == Some(Str(id)))
  {
    var hits := Select(rows, ById(id));
    if |hits| == 1 {
      SelectMembers(rows, ById(id), hits[0]);
      assert Satisfies(hits[0], ById(id)[0]);
    }
  }

  /** `.single()` never reports a missing row as null: looking up an id that no row has is an error. */
  lemma MissingIdFails(id: string, rows: seq<Row>)
    requires forall i :: 0 <= i < |rows| ==> Get(rows[i], "id") != Some(Str(id))
    ensures FoodCenterById(id, Done(rows)) == Threw
    ensures FoodCenterByIdOrNull(id, Done(rows)) == Done(None)
  {
    NoneSelected(rows, ById(id));
  }

  /** No row passes the one clause `id = id` when no row carries that id. */
  lemma {:induction false} NoneSelected(rows: seq<Row>, cs: seq<Clause>)
    requires |cs| == 1 && cs[0].Eq?
    requires forall i :: 0 <= i < |rows| ==> Get(rows[i], cs[0].column) != Some(cs[0].value)
    ensures Select(rows, cs) == []
    decreases |rows|
  {
    if rows != [] {
      assert !Satisfies(rows[0], cs[0]);
      NoneSelected(rows[1..], cs);
    }
  }

  /** The lookup that tells a missing id apart: null for no row, the row for one, an error for several. */
  lemma ByIdOrNullCases(id: string, rows: seq<Row>)
    ensures var hits := Select(rows, ById(id));
      && (FoodCenterByIdOrNull(id, Done(rows)) == Done(None) <==> hits == [])
      && (FoodCenterByIdOrNull(id, Done(rows)).Done? && FoodCenterByIdOrNull(id, Done(rows)).result.Some? <==> |hits| == 1)
      && (|hits| == 1 ==> FoodCenterByIdOrNull(id, Done(rows)) == Done(Some(hits[0])) && Get(hits[0], "id") == Some(Str(id)))
  {
    var hits := Select(rows, ById(id));
    if |hits| == 1 {
      assert Satisfies(hits[0], ById(id)[0]);
    }
  }

  // ---- createFoodCenter ----

  /** `POINT(${lng} ${lat})`: longitude first, one space between. */
  function PointText(lngText: string, latText: string): string {
    MatchText(lngText, " ", latText)
  }

  /** The inserted row: the submitted center with its location object replaced by point text. */
  function FoodCenterInsert(center: Row, location: LatLng, numberText: real -> string): (r: Row)
    ensures r.Keys == center.Keys + {"location"}
    ensures forall k :: k in center && k != "location" ==> r[k] == center[k]
    ensures r["location"] == Str(PointText(numberText(location.lng), numberText(location.lat)))
  {
    center["location" := Str(PointText(numberText(location.lng), numberText(location.lat)))]
  }

  predicate IsDigits(t: string) {
    |t| > 0 && forall i :: 0 <= i < |t| ==> '0' <= t[i] <= '9'
  }

  /** Digits, optionally followed by '.' and more digits. */
  predicate IsUnsignedDecimal(t: string) {
    IsDigits(t) || exists k :: 0 < k < |t| - 1 && t[k] == '.' && IsDigits(t[..k]) && IsDigits(t[k + 1..])
  }

  /** A number written in plain decimal notation, without an exponent. */
  predicate IsDecimalText(t: string) {
    IsUnsignedDecimal(t) || (|t| > 1 && t[0] == '-' && IsUnsignedDecimal(t[1..]))
  }

  lemma UnsignedDecimalIsToken(t: string)
    requires IsUnsignedDecimal(t)
    ensures IsToken(t)
  {
    if !IsDigits(t) {
      var k :| 0 < k < |t| - 1 && t[k] == '.' && IsDigits(t[..k]) && IsDigits(t[k + 1..]);
      forall i | 0 <= i < |t| ensures IsTokenChar(t[i]) {
        if i < k {
          assert t[..k][i] == t[i];
        } else if i > k {
          assert t[k + 1..][i - k - 1] == t[i];
        }
      }
    }
  }

  lemma DecimalIsToken(t: string)
    requires IsDecimalText(t)
    ensures IsToken(t)
  {
    if IsUnsignedDecimal(t) {
      UnsignedDecimalIsToken(t);
    } else {
      UnsignedDecimalIsToken(t[1..]);
      forall i | 1 <= i < |t| ensures IsTokenChar(t[i]) {
        assert t[1..][i - 1] == t[i];
      }
    }
  }

  /**
   * Reading back the written location gives the longitude and latitude that
   * were written, in that order, when numbers print in decimal notation and
   * `parseFloat` reads a printed number back as itself.
   */
  lemma InsertedLocationReadsBack(center: Row, location: LatLng, numberText: real -> string, parseFloat: string -> real)
    requires IsDecimalText(numberText(location.lng)) && IsDecimalText(numberText(location.lat))
    requires parseFloat(numberText(location.lng)) == location.lng
    requires parseFloat(numberText(location.lat)) == location.lat
    ensures FoodCenterInsert(center, location, numberText)["location"].Str?
    ensures ParseGeographyPoint(FoodCenterInsert(center, location, numberText)["location"].s, parseFloat) == Some(location)
  {
    DecimalIsToken(numberText(location.lng));
    DecimalIsToken(numberText(location.lat));
    assert IsSpaces(" ");
    ReadPointCoordinates(numberText(location.lng), " ", numberText(location.lat), parseFloat);
  }

  // ---- createAvailabilityUpdate ----

  /** The row to insert: the update with missing or null notes stored as the empty string. */
  function AvailabilityInsert(update: Row): (r: Row)
    ensures r.Keys == update.Keys + {"notes"}
    ensures forall k :: k in update && k != "notes" ==> r[k] == update[k]
    ensures "notes" in update && !update["notes"].Null? ==> r["notes"] == update["notes"]
    ensures "notes" !in update || update["notes"].Null? ==> r["notes"] == Str("")
  {
    update["notes" := if "notes" in update && !update["notes"].Null? then update["notes"] else Str("")]
  }

  /** The stored notes are never null, and defaulting twice is defaulting once. */
  lemma AvailabilityInsertSettles(update: Row)
    ensures !AvailabilityInsert(update)["notes"].Null?
    ensures AvailabilityInsert(AvailabilityInsert(update)) == AvailabilityInsert(update)
  {
  }

  // ---- getAvailabilityUpdates and getReviews ----

  function AvailabilityUpdatesQuery(foodCenterId: string): Query {
    Query("availability_updates", "*", [Eq("food_center_id", Str(foodCenterId))], NewestFirst, Some(10))
  }

  function ReviewsQuery(foodCenterId: string): Query {
    Query("reviews", "*, profiles(full_name)", [Eq("food_center_id", Str(foodCenterId))], NewestFirst, None)
  }

  /**
   * The availability history is the center's updates in the database's
   * newest-first order, cut to the first ten: all of them when at most ten
   * match, and exactly ten otherwise.
   */
  lemma AvailabilityHistory(foodCenterId: string, rows: seq<Row>)
    ensures var r := Run(AvailabilityUpdatesQuery(foodCenterId), rows);
      var sel := Select(rows, [Eq("food_center_id", Str(foodCenterId))]);
      && r == sel[..(if |sel| < 10 then |sel| else 10)]
      && |r| == (if |sel| < 10 then |sel| else 10)
      && (forall i :: 0 <= i < |r| ==> Get(r[i], "food_center_id") == Some(Str(foodCenterId)))
    ensures AvailabilityUpdatesQuery(foodCenterId).order == NewestFirst
  {
    var r := Run(AvailabilityUpdatesQuery(foodCenterId), rows);
    var sel := Select(rows, [Eq("food_center_id", Str(foodCenterId))]);
    forall i | 0 <= i < |r| ensures Get(r[i], "food_center_id") == Some(Str(foodCenterId)) {
      assert r[i] == sel[i];
      assert Satisfies(sel[i], [Eq("food_center_id", Str(foodCenterId))][0]);
    }
  }

  // ---- getReviews ----

  /**
   * The author a review embeds under `profiles`: the object holding the
   * `full_name` of the profile whose id is the review's `user_id`, or null
   * when no profile has that id. `names` maps each profile id to its
   * `full_name`, which may itself be null.
   */
  function Author(review: Row, names: map<string, Value>): Value {
    if "user_id" in review && review["user_id"].Str? && review["user_id"].s in names
    then Obj(map["full_name" := names[review["user_id"].s]])
    else Null
  }

  /** A review as the embedding select returns it: its own columns plus `profiles`. */
  function WithAuthor(review: Row, names: map<string, Value>): Row {
    review["profiles" := Author(review, names)]
  }

  /** `getReviews` over the reviews table and the profiles' names: the center's reviews with their authors. */
  function ReviewsWithAuthors(foodCenterId: string, rows: seq<Row>, names: map<string, Value>): seq<Row> {
    var sel := Run(ReviewsQuery(foodCenterId), rows);
    seq(|sel|, i requires 0 <= i < |sel| => WithAuthor(sel[i], names))
  }

  /** `getReviews` awaited: the reviews with their authors, or the failed round trip. */
  function ExecuteReviews(foodCenterId: string, table: Outcome<seq<Row>>, names: map<string, Value>): Outcome<seq<Row>> {
    match table
    case Threw => Threw
    case Done(rows) => Done(ReviewsWithAuthors(foodCenterId, rows, names))
  }

  /**
   * Reviews are every review of the center, newest first, without a limit;
   * each keeps its own columns and gains `profiles`, which holds its
   * author's `full_name` when a profile has the review's `user_id` and is
   * null otherwise.
   */
  lemma ReviewsOfCenter(foodCenterId: string, rows: seq<Row>, names: map<string, Value>)
    ensures var r := ReviewsWithAuthors(foodCenterId, rows, names);
      var sel := Select(rows, [Eq("food_center_id", Str(foodCenterId))]);
      && |r| == |sel|
      && forall i :: 0 <= i < |r| ==>
        && r[i].Keys == sel[i].Keys + {"profiles"}
        && (forall k :: k in sel[i] && k != "profiles" ==> r[i][k] == sel[i][k])
        && Get(r[i], "food_center_id") == Some(Str(foodCenterId))
        && (r[i]["profiles"].Obj? <==> "user_id" in sel[i] && sel[i]["user_id"].Str? && sel[i]["user_id"].s in names)
        && (r[i]["profiles"].Obj? ==> r[i]["profiles"] == Obj(map["full_name" := names[sel[i]["user_id"].s]]))
        && (!r[i]["profiles"].Obj? ==> r[i]["profiles"] == Null)
    ensures ReviewsQuery(foodCenterId).order == NewestFirst && ReviewsQuery(foodCenterId).limit == None
  {
    var r := ReviewsWithAuthors(foodCenterId, rows, names);
    var sel := Select(rows, [Eq("food_center_id", Str(foodCenterId))]);
    assert Run(ReviewsQuery(foodCenterId), rows) == sel;
    forall i | 0 <= i < |r| ensures Get(r[i], "food_center_id") == Some(Str(foodCenterId)) {
      assert r[i] == WithAuthor(sel[i], names);
      assert Satisfies(sel[i], [Eq("food_center_id", Str(foodCenterId))][0]);
    }
  }
}
