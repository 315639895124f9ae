/**
 * The two handlers of apps/api/src/routes/availability.ts: the latest
 * availability reports of a center, and filing a new report.
 */
module AvailabilityRoutes {
  import opened Wrappers
  import opened Json
  import opened Zod
  import opened Types
  import opened Http
  import opened Queries
  import opened Schemas

  /** The handler's own `availabilitySchema`: the center id is any string, the reporter optional. */
  const ReportShape: map<string, Kind> := map[
    "food_center_id" := Text(0),
    "status" := Enum(AvailabilityStatuses),
    "notes" := Optional(Text(0)),
    "reported_by" := Optional(Text(0))
  ]

  /** What the schema demands of a body, field by field. */
  predicate ValidReport(m: map<string, Value>) {
    && "food_center_id" in m && m["food_center_id"].Str?
    && "status" in m && m["status"].Str? && m["status"].s in AvailabilityStatuses
    && AbsentOr(m, "notes", IsText)
    && AbsentOr(m, "reported_by", IsText)
  }

  /** The schema, one field at a time. */
  lemma ReportFields(m: map<string, Value>, fmt: Formats)
    ensures FieldsAccept(ReportShape, m, fmt) <==>
      && Parse(Text(0), Get(m, "food_center_id"), fmt).Accepted?
      && Parse(Enum(AvailabilityStatuses), Get(m, "status"), fmt).Accepted?
      && Parse(Optional(Text(0)), Get(m, "notes"), fmt).Accepted?
      && Parse(Optional(Text(0)), Get(m, "reported_by"), fmt).Accepted?
  {
    var s0: map<string, Kind> := map[];
    var s1 := s0["food_center_id" := Text(0)];
    var s2 := s1["status" := Enum(AvailabilityStatuses)];
    var s3 := s2["notes" := Optional(Text(0))];
    var s4 := s3["reported_by" := Optional(Text(0))];
    assert s4 == ReportShape;
    FieldsAcceptAdd(s0, "food_center_id", Text(0), m, fmt);
    FieldsAcceptAdd(s1, "status", Enum(AvailabilityStatuses), m, fmt);
    FieldsAcceptAdd(s2, "notes", Optional(Text(0)), m, fmt);
    FieldsAcceptAdd(s3, "reported_by", Optional(Text(0)), m, fmt);
  }

  lemma ReportAccepts(m: map<string, Value>, fmt: Formats)
    ensures ParseObject(ReportShape, Obj(m), fmt).Parsed? <==> ValidReport(m)
  {
    ObjectAccepts(ReportShape, m, fmt);
    ReportFields(m, fmt);
    TextAt(m, "food_center_id", 0, fmt);
    EnumAt(m, "status", AvailabilityStatuses, fmt);
    OptionalTextAt(m, "notes", fmt);
    OptionalTextAt(m, "reported_by", fmt);
  }

  /** A valid report comes out of the schema with its four fields as sent, and nothing else. */
  lemma ReportParsed(m: map<string, Value>, fmt: Formats)
    requires ValidReport(m)
    ensures ParseObject(ReportShape, Obj(m), fmt).Parsed?
    ensures var d := ParseObject(ReportShape, Obj(m), fmt).fields;
      && d.Keys <= ReportShape.Keys
      && Get(d, "food_center_id") == Some(m["food_center_id"])
      && Get(d, "status") == Some(m["status"])
      && Get(d, "notes") == Get(m, "notes")
      && Get(d, "reported_by") == Get(m, "reported_by")
  {
    ReportAccepts(m, fmt);
    ObjectAccepts(ReportShape, m, fmt);
    ObjectOutputAt(ReportShape, m, fmt, "food_center_id");
    ObjectOutputAt(ReportShape, m, fmt, "status");
    ObjectOutputAt(ReportShape, m, fmt, "notes");
    ObjectOutputAt(ReportShape, m, fmt, "reported_by");
    ObjectStrips(ReportShape, Obj(m), fmt);
  }

  /** `GET /:foodCenterId` */
  function ListUpdates(foodCenterId: string, table: Outcome<seq<Row>>): Response {
    Fetched(Listing(Execute(AvailabilityUpdatesQuery(foodCenterId), table)), "Failed to fetch availability updates")
  }

  /**
   * 200 with the center's ten newest updates (all of them when there are
   * fewer), or 500 when the round trip fails.
   */
  lemma ListUpdatesAnswer(foodCenterId: string, table: Outcome<seq<Row>>)
    ensures table.Threw? ==> ListUpdates(foodCenterId, table) == Response(500, Failure("Failed to fetch availability updates"))
    ensures table.Done? ==>
      var sel := Select(table.result, [Eq("food_center_id", Str(foodCenterId))]);
      ListUpdates(foodCenterId, table)
        == Response(200, Payload(RowsValue(sel[..(if |sel| < 10 then |sel| else 10)])))
  {
    if table.Done? {
      AvailabilityHistory(foodCenterId, table.result);
    }
  }

  /** `POST /`: validate, default the notes, insert, answer 201. */
  function CreateUpdate(body: Value, fmt: Formats, insert: Row -> Outcome<Value>): Response {
    Created(ParseObject(ReportShape, body, fmt), d => Done(AvailabilityInsert(d)), insert, "Failed to create availability update")
  }

  /**
   * A valid report is stored with the given center, status and reporter,
   * the given notes or "" for none, and no other column; 201 exactly when
   * the insert returns. Anything else is refused with 400.
   */
  lemma CreateUpdateStores(m: map<string, Value>, fmt: Formats, insert: Row -> Outcome<Value>)
    ensures CreateUpdate(Obj(m), fmt, insert).status == 400 <==> !ValidReport(m)
    ensures ValidReport(m) ==>
      var row := AvailabilityInsert(ParseObject(ReportShape, Obj(m), fmt).fields);
      && row.Keys <= ReportShape.Keys
      && Get(row, "food_center_id") == Some(m["food_center_id"])
      && Get(row, "status") == Some(m["status"])
      && row["notes"] == Get(m, "notes").GetOr(Str(""))
      && Get(row, "reported_by") == Get(m, "reported_by")
      && (CreateUpdate(Obj(m), fmt, insert).status == 201 <==> insert(row).Done?)
  {
    ReportAccepts(m, fmt);
    CreatedStatus(ParseObject(ReportShape, Obj(m), fmt), d => Done(AvailabilityInsert(d)), insert, "Failed to create availability update");
    if ValidReport(m) {
      ReportParsed(m, fmt);
    }
  }
}
