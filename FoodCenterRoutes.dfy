/**
 * The four handlers of apps/api/src/routes/foodCenters.ts. Each is a
 * function from the request (query string, path id, body) and what the
 * database layer does with it to the response. The store is either a table
 * of rows or a failed round trip; the insert call is a parameter.
 */
module FoodCenterRoutes {
  import opened Wrappers
  import opened Strings
  import opened Json
  import opened Zod
  import opened Http
  import opened DatabaseUtils
  import opened Queries
  import opened FoodCenterSchema

  /** The query string as Express hands it over, each parameter given once, as text. */
  type QueryString = map<string, string>

  function Param(qs: QueryString, name: string): Option<string> {
    if name in qs then Some(qs[name]) else None
  }

  // ---- GET / ----

  /**
   * The filters built from the query string: type and city as given; the
   * dietary list split on commas when the parameter is non-empty; verified
   * only for the exact texts "true" and "false".
   */
  function FiltersFromQuery(qs: QueryString): Filters {
    var dietary := Param(qs, "dietary_restrictions");
    var verified := Param(qs, "verified");
    Filters(
      Param(qs, "type"),
      if dietary.Some? && dietary.value != "" then Some(Split(dietary.value, ",")) else None,
      Param(qs, "city"),
      if verified == Some("true") then Some(true)
      else if verified == Some("false") then Some(false)
      else None)
  }

  /** `GET /`: the food centers the filters select, newest first, or 500. */
  function ListFoodCenters(qs: QueryString, table: Outcome<seq<Row>>): Response {
    Fetched(Listing(Execute(FoodCentersQuery(FiltersFromQuery(qs)), table)), "Failed to fetch food centers")
  }

  /** Only the texts "true" and "false" filter on verification; any other value, or none, does not. */
  lemma VerifiedParam(qs: QueryString)
    ensures FiltersFromQuery(qs).verified == Some(true) <==> "verified" in qs && qs["verified"] == "true"
    ensures FiltersFromQuery(qs).verified == Some(false) <==> "verified" in qs && qs["verified"] == "false"
    ensures FiltersFromQuery(qs).verified == None <==> "verified" !in qs || qs["verified"] !in {"true", "false"}
  {
  }

  /** A list of restrictions, none containing a comma, sent joined by commas, arrives as that list. */
  lemma DietaryParam(qs: QueryString, ds: seq<string>)
    requires |ds| >= 1 && Join(ds, ",") != ""
    requires forall i :: 0 <= i < |ds| ==> !Contains(ds[i], ",")
    requires "dietary_restrictions" in qs && qs["dietary_restrictions"] == Join(ds, ",")
    ensures FiltersFromQuery(qs).dietaryRestrictions == Some(ds)
    ensures Overlaps("dietary_restrictions", ds) in FoodCenterClauses(FiltersFromQuery(qs))
  {
    var f := FiltersFromQuery(qs);
    assert f.dietaryRestrictions == Some(Split(Join(ds, ","), ","));
    SplitJoin(ds, ",");
    DietaryClause(f);
  }

  /** A non-empty restriction list is sent as an overlap clause. */
  lemma DietaryClause(f: Filters)
    requires f.dietaryRestrictions.Some? && |f.dietaryRestrictions.value| > 0
    ensures Overlaps("dietary_restrictions", f.dietaryRestrictions.value) in FoodCenterClauses(f)
  {
    var cs := FoodCenterClauses(f);
    assert cs[|cs| - 1] == Overlaps("dietary_restrictions", f.dietaryRestrictions.value);
  }

  /** An empty or missing dietary parameter adds no restriction; an empty type or city is ignored too. */
  lemma EmptyParamsIgnored(qs: QueryString)
    requires forall k :: k in qs ==> qs[k] == ""
    ensures FoodCenterClauses(FiltersFromQuery(qs)) == []
  {
  }

  /**
   * A successful listing is exactly the stored rows that meet every filter
   * taken from the query string, in the store's newest-first order; a failed
   * round trip is 500 with the handler's message.
   */
  lemma ListFoodCentersAnswer(qs: QueryString, table: Outcome<seq<Row>>)
    ensures table.Threw? ==> ListFoodCenters(qs, table) == Response(500, Failure("Failed to fetch food centers"))
    ensures table.Done? ==>
      var r := ListFoodCenters(qs, table);
      var picked := Run(FoodCentersQuery(FiltersFromQuery(qs)), table.result);
      && r == Response(200, Payload(RowsValue(picked)))
      && picked == Select(table.result, FoodCenterClauses(FiltersFromQuery(qs)))
      && (forall row :: row in picked <==> row in table.result && MatchesFilters(row, FiltersFromQuery(qs)))
  {
    if table.Done? {
      var f := FiltersFromQuery(qs);
      forall row ensures row in Run(FoodCentersQuery(f), table.result) <==> row in table.result && MatchesFilters(row, f) {
        SelectMembers(table.result, FoodCenterClauses(f), row);
        FoodCenterFiltersMeaning(row, f);
      }
    }
  }

  // ---- GET /:id ----

  /** The handler proper: 500 when the lookup throws, 404 when it finds nothing, the center otherwise. */
  function ShowFoodCenter(found: Outcome<Option<Row>>): Response {
    match found
    case Threw => Response(500, Failure("Failed to fetch food center"))
    case Done(None) => Response(404, Failure("Food center not found"))
    case Done(Some(row)) => Response(200, Payload(Obj(row)))
  }

  /** `GET /:id` over `getFoodCenterById` as written (`.single()`). */
  function GetFoodCenterAsWritten(id: string, table: Outcome<seq<Row>>): Response {
    ShowFoodCenter(FoodCenterById(id, table))
  }

  /** `GET /:id` over the lookup that answers null for a missing id (`.maybeSingle()`). */
  function GetFoodCenter(id: string, table: Outcome<seq<Row>>): Response {
    ShowFoodCenter(FoodCenterByIdOrNull(id, table))
  }

  /**
   * As written the not-found branch is dead: `.single()` turns a missing id
   * into an error, so the handler answers 500, never 404.
   */
  lemma NotFoundUnreachable(id: string, table: Outcome<seq<Row>>)
    ensures GetFoodCenterAsWritten(id, table).status != 404
    ensures table.Done? && (forall i :: 0 <= i < |table.result| ==> Get(table.result[i], "id") != Some(Str(id))) ==>
      GetFoodCenterAsWritten(id, table) == Response(500, Failure("Failed to fetch food center"))
  {
    if table.Done? && forall i :: 0 <= i < |table.result| ==> Get(table.result[i], "id") != Some(Str(id)) {
      MissingIdFails(id, table.result);
    }
  }

  /**
   * With the null-answering lookup: 404 exactly when no stored row has the
   * id, 200 with that row exactly when one does, 500 otherwise.
   */
  lemma GetFoodCenterStatus(id: string, rows: seq<Row>)
    ensures var r := GetFoodCenter(id, Done(rows));
      var hits := Select(rows, ById(id));
      && (r.status == 404 <==> hits == [])
      && ((forall i :: 0 <= i < |rows| ==> Get(rows[i], "id") != Some(Str(id))) ==> r.status == 404)
      && (r.status == 200 <==> |hits| == 1)
      && (r.status == 200 ==> r.body == Payload(Obj(hits[0])) && Get(hits[0], "id") == Some(Str(id)))
      && r.status in {200, 404, 500}
  {
    ByIdOrNullCases(id, rows);
    if forall i :: 0 <= i < |rows| ==> Get(rows[i], "id") != Some(Str(id)) {
      MissingIdFails(id, rows);
    }
  }

  // ---- POST / ----

  /** `createFoodCenter`'s row: the location object replaced by its point text (a missing coordinate throws). */
  function PrepareCenter(data: Row, numberText: real -> string): Outcome<Row> {
    if "location" in data && data["location"].Obj?
       && "lat" in data["location"].fields && data["location"].fields["lat"].Num?
       && "lng" in data["location"].fields && data["location"].fields["lng"].Num?
    then Done(FoodCenterInsert(data, LatLng(data["location"].fields["lat"].n, data["location"].fields["lng"].n), numberText))
    else Threw
  }

  /** A record whose location holds two numbers is prepared into a row whose point text reads back as them. */
  lemma PreparedPointReadsBack(data: Row, lat: real, lng: real, numberText: real -> string, parseFloat: string -> real)
    requires "location" in data && data["location"] == Obj(map["lat" := Num(lat), "lng" := Num(lng)])
    requires IsDecimalText(numberText(lat)) && IsDecimalText(numberText(lng))
    requires parseFloat(numberText(lat)) == lat && parseFloat(numberText(lng)) == lng
    ensures PrepareCenter(data, numberText).Done?
    ensures PrepareCenter(data, numberText).result["location"].Str?
    ensures ParseGeographyPoint(PrepareCenter(data, numberText).result["location"].s, parseFloat) == Some(LatLng(lat, lng))
  {
    assert PrepareCenter(data, numberText) == Done(FoodCenterInsert(data, LatLng(lat, lng), numberText));
    InsertedLocationReadsBack(data, LatLng(lat, lng), numberText, parseFloat);
  }

  /** `POST /`: validate, write the point text, insert, answer 201. */
  function CreateFoodCenter(body: Value, fmt: Formats, numberText: real -> string, insert: Row -> Outcome<Value>): Response {
    Created(ParseObject(FoodCenterShape, body, fmt), d => PrepareCenter(d, numberText), insert, "Failed to create food center")
  }

  /** A body is refused with 400 exactly when it is not an object meeting `ValidFoodCenter`. */
  lemma CreateValidates(body: Value, fmt: Formats, numberText: real -> string, insert: Row -> Outcome<Value>)
    ensures CreateFoodCenter(body, fmt, numberText, insert).status == 400 <==> !(body.Obj? && ValidFoodCenter(body.fields, fmt))
    ensures CreateFoodCenter(body, fmt, numberText, insert).status in {201, 400, 500}
  {
    CreatedStatus(ParseObject(FoodCenterShape, body, fmt), d => PrepareCenter(d, numberText), insert, "Failed to create food center");
    if body.Obj? {
      FoodCenterAccepts(body.fields, fmt);
    } else {
      FoodCenterNeedsObject(body, fmt);
    }
  }

  /**
   * A valid body is always turned into a row, and its location column is
   * point text that reads back as the submitted position, given that numbers
   * print in decimal notation and `parseFloat` reads them back; the answer is
   * 201 exactly when the insert returns.
   */
  lemma CreateStoresPoint(m: map<string, Value>, fmt: Formats, numberText: real -> string, parseFloat: string -> real, insert: Row -> Outcome<Value>)
    requires ValidFoodCenter(m, fmt)
    requires IsDecimalText(numberText(m["location"].fields["lat"].n)) && IsDecimalText(numberText(m["location"].fields["lng"].n))
    requires parseFloat(numberText(m["location"].fields["lat"].n)) == m["location"].fields["lat"].n
    requires parseFloat(numberText(m["location"].fields["lng"].n)) == m["location"].fields["lng"].n
    ensures ParseObject(FoodCenterShape, Obj(m), fmt).Parsed?
    ensures var row := PrepareCenter(ParseObject(FoodCenterShape, Obj(m), fmt).fields, numberText);
      && row.Done?
      && row.result["location"].Str?
      && ParseGeographyPoint(row.result["location"].s, parseFloat) == Some(LatLng(m["location"].fields["lat"].n, m["location"].fields["lng"].n))
      && (CreateFoodCenter(Obj(m), fmt, numberText, insert).status == 201 <==> insert(row.result).Done?)
  {
    FoodCenterLocation(m, fmt);
    var data := ParseObject(FoodCenterShape, Obj(m), fmt).fields;
    var lat, lng := m["location"].fields["lat"], m["location"].fields["lng"];
    assert data["location"] == Obj(map["lat" := lat, "lng" := lng]);
    PreparedPointReadsBack(data, lat.n, lng.n, numberText, parseFloat);
    CreatedStatus(ParseObject(FoodCenterShape, Obj(m), fmt), d => PrepareCenter(d, numberText), insert, "Failed to create food center");
  }

  // ---- PUT /:id ----

  function RowOutcome(r: Outcome<Row>): Outcome<Value> {
    match r
    case Threw => Threw
    case Done(row) => Done(Obj(row))
  }

  /** `PUT /:id`: validate against the partial schema, write the changes over the row, answer 200. */
  function UpdateFoodCenterRoute(id: string, body: Value, fmt: Formats, table: Outcome<seq<Row>>): Response {
    Updated(ParseObject(Partial(FoodCenterShape).shape, body, fmt), d => RowOutcome(UpdateFoodCenter(id, d, table)), "Failed to update food center")
  }

  /**
   * An accepted update of a stored center answers 200 with the stored row,
   * whose id is unchanged: the partial schema has no `id` field and strips one
   * sent in the body.
   */
  lemma UpdateKeepsId(id: string, m: map<string, Value>, fmt: Formats, rows: seq<Row>)
    requires Parse(UpdateSchema, Some(Obj(m)), fmt).Accepted?
    requires |Select(rows, ById(id))| == 1
    ensures var r := UpdateFoodCenterRoute(id, Obj(m), fmt, Done(rows));
      && r.status == 200
      && r.body.Payload? && r.body.value.Obj?
      && Get(r.body.value.fields, "id") == Some(Str(id))
  {
    UpdateAccepts(m, fmt);
    NoIdField();
    var data := ParseObject(Partial(FoodCenterShape).shape, Obj(m), fmt).fields;
    assert UpdateSchema == Object(Partial(FoodCenterShape).shape);
    assert "id" !in data;
    UpdateFoodCenterMerges(id, data, rows);
  }

  /** An update of an id that no row has answers 500; the handler has no 404 branch. */
  lemma UpdateMissingIdFails(id: string, body: Value, fmt: Formats, rows: seq<Row>)
    requires forall i :: 0 <= i < |rows| ==> Get(rows[i], "id") != Some(Str(id))
    ensures UpdateFoodCenterRoute(id, body, fmt, Done(rows)).status in {400, 500}
  {
    NoneSelected(rows, ById(id));
  }

  /** An empty body is a valid update that writes nothing: the stored row comes back as it was. */
  lemma EmptyUpdateChangesNothing(id: string, fmt: Formats, rows: seq<Row>)
    requires |Select(rows, ById(id))| == 1
    ensures UpdateFoodCenterRoute(id, Obj(map[]), fmt, Done(rows)) == Response(200, Payload(Obj(Select(rows, ById(id))[0])))
  {
    EmptyUpdate(fmt);
    var hits := Select(rows, ById(id));
    assert hits[0] + map[] == hits[0];
  }
}
