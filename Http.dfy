/**
 * What an Express handler of apps/api/src/routes sends back, and the
 * try/catch shape the create handlers share: validate the body (a ZodError
 * becomes 400 with its issues), call the database layer (anything it throws
 * becomes 500 with a fixed message), answer 201 with the stored record.
 */
module Http {
  import opened Wrappers
  import opened Json
  import opened Zod

  datatype Body = Payload(value: Value) | ValidationErrors(issues: set<Path>) | Failure(message: string)

  datatype Response = Response(status: nat, body: Body)

  /** Rows as the JSON array a handler sends. */
  function RowsValue(rows: seq<map<string, Value>>): (v: Value)
    ensures v.Arr? && |v.items| == |rows|
    ensures forall i :: 0 <= i < |rows| ==> v.items[i] == Obj(rows[i])
  {
    Arr(seq(|rows|, i requires 0 <= i < |rows| => Obj(rows[i])))
  }

  /** Fetched rows as the value `res.json` sends, or the exception passed on. */
  function Listing(rows: Outcome<seq<map<string, Value>>>): Outcome<Value> {
    match rows
    case Threw => Threw
    case Done(rs) => Done(RowsValue(rs))
  }

  /** A handler that only reads: the value with status 200, or 500 and the handler's message. */
  function Fetched(result: Outcome<Value>, failure: string): Response {
    match result
    case Done(v) => Response(200, Payload(v))
    case Threw => Response(500, Failure(failure))
  }

  /**
   * A create handler: the parsed record is turned into the row to insert
   * (`prepare`, which may itself throw), inserted, and answered with 201.
   */
  function Created(
    parsed: ObjectResult,
    prepare: map<string, Value> -> Outcome<map<string, Value>>,
    insert: map<string, Value> -> Outcome<Value>,
    failure: string): Response
  {
    match parsed
    case Invalid(issues) => Response(400, ValidationErrors(issues))
    case Parsed(data) =>
      match prepare(data)
      case Threw => Response(500, Failure(failure))
      case Done(row) =>
        match insert(row)
        case Done(v) => Response(201, Payload(v))
        case Threw => Response(500, Failure(failure))
  }

  /** An update handler: the parsed changes are written and the stored record answered with 200. */
  function Updated(parsed: ObjectResult, write: map<string, Value> -> Outcome<Value>, failure: string): Response {
    match parsed
    case Invalid(issues) => Response(400, ValidationErrors(issues))
    case Parsed(data) =>
      match write(data)
      case Done(v) => Response(200, Payload(v))
      case Threw => Response(500, Failure(failure))
  }

  /** A read answers 200 exactly when the call returned, and 500 with the handler's message otherwise. */
  lemma FetchedStatus(result: Outcome<Value>, failure: string)
    ensures Fetched(result, failure).status == 200 <==> result.Done?
    ensures Fetched(result, failure).status == 500 <==> Fetched(result, failure).body == Failure(failure)
    ensures Fetched(result, failure).status in {200, 500}
  {
  }

  /**
   * A create answers 400 exactly when validation fails, carrying its issues;
   * 201 exactly when validation passes and the insert returns; 500 with the
   * handler's message otherwise.
   */
  lemma CreatedStatus(
    parsed: ObjectResult,
    prepare: map<string, Value> -> Outcome<map<string, Value>>,
    insert: map<string, Value> -> Outcome<Value>,
    failure: string)
    ensures var r := Created(parsed, prepare, insert, failure);
      && (r.status == 400 <==> parsed.Invalid?)
      && (parsed.Invalid? ==> r.body == ValidationErrors(parsed.issues))
      && (r.status == 201 <==> parsed.Parsed? && prepare(parsed.fields).Done? && insert(prepare(parsed.fields).result).Done?)
      && (r.status == 201 ==> r.body == Payload(insert(prepare(parsed.fields).result).result))
      && (r.status == 500 <==> r.body == Failure(failure))
      && r.status in {201, 400, 500}
  {
  }

  /**
   * An update answers 400 exactly when validation fails, carrying its issues;
   * 200 with the stored record exactly when validation passes and the write
   * returns; 500 with the handler's message otherwise.
   */
  lemma UpdatedStatus(parsed: ObjectResult, write: map<string, Value> -> Outcome<Value>, failure: string)
    ensures var r := Updated(parsed, write, failure);
      && (r.status == 400 <==> parsed.Invalid?)
      && (parsed.Invalid? ==> r.body == ValidationErrors(parsed.issues))
      && (r.status == 200 <==> parsed.Parsed? && write(parsed.fields).Done?)
      && (r.status == 200 ==> r.body == Payload(write(parsed.fields).result))
      && (r.status == 500 <==> r.body == Failure(failure))
      && r.status in {200, 400, 500}
  {
  }
}
