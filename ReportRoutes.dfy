/**
 * The handler of apps/api/src/routes/reports.ts: filing a user report. The
 * optional ids are stored as "" when absent, the status defaults to pending.
 */
module ReportRoutes {
  import opened Wrappers
  import opened Json
  import opened Zod
  import opened Http
  import opened Queries
  import opened Schemas

  const ReportStatuses: seq<string> := ["pending", "approved", "rejected"]

  /** `reportSchema` */
  const UserReportShape: map<string, Kind> := map[
    "food_center_id" := Optional(Text(0)),
    "reporter_id" := Optional(Text(0)),
    "type" := Text(0),
    "content" := RecordOf(Anything),
    "status" := Default(Enum(ReportStatuses), Str("pending"))
  ]

  predicate IsReportStatus(v: Value) {
    v.Str? && v.s in ReportStatuses
  }

  /** What the schema demands: a type, an object of content (any values), and a known status if one is given. */
  predicate ValidUserReport(m: map<string, Value>) {
    && AbsentOr(m, "food_center_id", IsText)
    && AbsentOr(m, "reporter_id", IsText)
    && "type" in m && m["type"].Str?
    && "content" in m && m["content"].Obj?
    && AbsentOr(m, "status", IsReportStatus)
  }

  /** `z.record(z.any())` accepts exactly the objects, and gives them back unchanged. */
  lemma ContentAccepted(v: Value, fmt: Formats)
    ensures Parse(RecordOf(Anything), Some(v), fmt).Accepted? <==> v.Obj?
    ensures v.Obj? ==> Parse(RecordOf(Anything), Some(v), fmt).output == Some(v)
  {
    if v.Obj? {
      RecordAccepts(Anything, v.fields, fmt);
      var out := Parse(RecordOf(Anything), Some(v), fmt).output.value;
      assert out.fields == v.fields;
    }
  }

  lemma FieldsToReport(m: map<string, Value>, fmt: Formats)
    requires FieldsAccept(UserReportShape, m, fmt)
    ensures ValidUserReport(m)
  {
    assert "food_center_id" in UserReportShape && "reporter_id" in UserReportShape;
    assert "type" in UserReportShape && "status" in UserReportShape;
    assert "content" in UserReportShape;
    ContentAccepted(m["content"], fmt);
  }

  lemma ReportToFields(m: map<string, Value>, fmt: Formats)
    requires ValidUserReport(m)
    ensures FieldsAccept(UserReportShape, m, fmt)
  {
    ContentAccepted(m["content"], fmt);
    forall key | key in UserReportShape ensures Parse(UserReportShape[key], Get(m, key), fmt).Accepted? {
      if key != "content" {
        assert key in {"food_center_id", "reporter_id", "type", "status"};
      }
    }
  }

  lemma UserReportAccepts(m: map<string, Value>, fmt: Formats)
    ensures ParseObject(UserReportShape, Obj(m), fmt).Parsed? <==> ValidUserReport(m)
  {
    ObjectAccepts(UserReportShape, m, fmt);
    if FieldsAccept(UserReportShape, m, fmt) {
      FieldsToReport(m, fmt);
    }
    if ValidUserReport(m) {
      ReportToFields(m, fmt);
    }
  }

  /** The row to insert: the validated report with a missing center or reporter id stored as the empty string. */
  function ReportRow(data: Row): Row {
    data["food_center_id" := Get(data, "food_center_id").GetOr(Str(""))]
        ["reporter_id" := Get(data, "reporter_id").GetOr(Str(""))]
  }

  /** `POST /`: validate, fill in the ids, insert, answer 201. */
  function CreateReport(body: Value, fmt: Formats, insert: Row -> Outcome<Value>): Response {
    Created(ParseObject(UserReportShape, body, fmt), d => Done(ReportRow(d)), insert, "Failed to create report")
  }

  /** A valid report comes out, under each declared key, as that key's schema makes of its value. */
  lemma ReportOutputAt(m: map<string, Value>, fmt: Formats, key: string)
    requires FieldsAccept(UserReportShape, m, fmt)
    requires key in UserReportShape
    ensures ParseObject(UserReportShape, Obj(m), fmt).Parsed?
    ensures Get(ParseObject(UserReportShape, Obj(m), fmt).fields, key) == Parse(UserReportShape[key], Get(m, key), fmt).output
  {
    ObjectOutputAt(UserReportShape, m, fmt, key);
  }

  lemma ReportIdsOutput(m: map<string, Value>, fmt: Formats)
    requires ValidUserReport(m)
    ensures ParseObject(UserReportShape, Obj(m), fmt).Parsed?
    ensures var data := ParseObject(UserReportShape, Obj(m), fmt).fields;
      && Get(data, "food_center_id") == Get(m, "food_center_id")
      && Get(data, "reporter_id") == Get(m, "reporter_id")
      && Get(data, "type") == Some(m["type"])
  {
    assert UserReportShape["food_center_id"] == Optional(Text(0));
    assert UserReportShape["reporter_id"] == Optional(Text(0));
    assert UserReportShape["type"] == Text(0);
    ReportToFields(m, fmt);
    ReportOutputAt(m, fmt, "food_center_id");
    ReportOutputAt(m, fmt, "reporter_id");
    ReportOutputAt(m, fmt, "type");
  }

  lemma ReportBodyOutput(m: map<string, Value>, fmt: Formats)
    requires ValidUserReport(m)
    ensures ParseObject(UserReportShape, Obj(m), fmt).Parsed?
    ensures var data := ParseObject(UserReportShape, Obj(m), fmt).fields;
      && Get(data, "content") == Some(m["content"])
      && Get(data, "status") == Some(Get(m, "status").GetOr(Str("pending")))
  {
    assert UserReportShape["content"] == RecordOf(Anything);
    assert UserReportShape["status"] == Default(Enum(ReportStatuses), Str("pending"));
    ReportToFields(m, fmt);
    ReportOutputAt(m, fmt, "content");
    ReportOutputAt(m, fmt, "status");
    ContentAccepted(m["content"], fmt);
  }

  /** The parsed report: the ids as given, type and content unchanged, the status given or "pending". */
  lemma ReportOutput(m: map<string, Value>, fmt: Formats)
    requires ValidUserReport(m)
    ensures ParseObject(UserReportShape, Obj(m), fmt).Parsed?
    ensures var data := ParseObject(UserReportShape, Obj(m), fmt).fields;
      && data.Keys <= UserReportShape.Keys
      && Get(data, "food_center_id") == Get(m, "food_center_id")
      && Get(data, "reporter_id") == Get(m, "reporter_id")
      && Get(data, "type") == Some(m["type"])
      && Get(data, "content") == Some(m["content"])
      && Get(data, "status") == Some(Get(m, "status").GetOr(Str("pending")))
  {
    ReportIdsOutput(m, fmt);
    ReportBodyOutput(m, fmt);
    ObjectStrips(UserReportShape, Obj(m), fmt);
  }

  /**
   * A valid report is stored with both ids (given, or ""), its type and
   * content, and its status or "pending"; anything else is refused with 400.
   */
  lemma CreateReportStores(m: map<string, Value>, fmt: Formats, insert: Row -> Outcome<Value>)
    ensures CreateReport(Obj(m), fmt, insert).status == 400 <==> !ValidUserReport(m)
    ensures ValidUserReport(m) ==>
      var row := ReportRow(ParseObject(UserReportShape, Obj(m), fmt).fields);
      && row.Keys == UserReportShape.Keys
      && row["food_center_id"] == Get(m, "food_center_id").GetOr(Str(""))
      && row["reporter_id"] == Get(m, "reporter_id").GetOr(Str(""))
      && row["type"] == m["type"] && row["content"] == m["content"]
      && row["status"] == Get(m, "status").GetOr(Str("pending"))
      && (CreateReport(Obj(m), fmt, insert).status == 201 <==> insert(row).Done?)
  {
    UserReportAccepts(m, fmt);
    CreatedStatus(ParseObject(UserReportShape, Obj(m), fmt), d => Done(ReportRow(d)), insert, "Failed to create report");
    if ValidUserReport(m) {
      ReportOutput(m, fmt);
      var data := ParseObject(UserReportShape, Obj(m), fmt).fields;
      assert UserReportShape.Keys == {"food_center_id", "reporter_id", "type", "content", "status"};
      assert ReportRow(data).Keys == data.Keys + {"food_center_id", "reporter_id"};
    }
  }
}
