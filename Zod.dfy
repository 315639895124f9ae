/**
 * The part of zod's object-schema semantics the request validators use,
 * as an interpreter over schema values. A `Kind` is one schema node; `Parse`
 * is zod's `safeParse` on an input that may be `undefined` (`None`).
 *
 * - an object schema accepts a JSON object whose declared keys all pass; the
 *   output holds only the declared keys (unknown keys are stripped), and a
 *   key whose output is `undefined` is left out;
 * - `.optional()` accepts `undefined` and otherwise defers to its inner schema;
 * - `.default(v)` replaces `undefined` by `v` and then runs its inner schema;
 * - `.partial()` wraps every field of an object schema in `.optional()`, so a
 *   field that had a default gets none when it is absent;
 * - issues are reported as the set of paths that failed, all fields checked.
 */
module Zod {
  import opened Wrappers
  import opened Json

  /** The checks behind `.email()` and `.url()`; their patterns are zod's and not modelled. */
  datatype Formats = Formats(isEmail: string -> bool, isUrl: string -> bool)

  datatype Kind =
    | Text(minLength: nat)                       // z.string(), z.string().min(n)
    | Email                                      // z.string().email()
    | Url                                        // z.string().url()
    | Enum(options: seq<string>)                 // z.enum([...])
    | Number(min: Option<real>, max: Option<real>) // z.number() with inclusive .min/.max
    | Boolean                                    // z.boolean()
    | ArrayOf(element: Kind)                     // z.array(k)
    | RecordOf(entry: Kind)                      // z.record(k)
    | Object(shape: map<string, Kind>)           // z.object({...})
    | Anything                                   // z.any()
    | Optional(inner: Kind)                      // k.optional()
    | Default(inner: Kind, fallback: Value)      // k.default(v)

  datatype Segment = Key(key: string) | Index(index: nat)
  type Path = seq<Segment>

  /** zod's safeParse result: the output (possibly `undefined`) or the failing paths. */
  datatype Parsed = Accepted(output: Option<Value>) | Rejected(issues: set<Path>)

  predicate InRange(x: real, min: Option<real>, max: Option<real>) {
    (min.None? || min.value <= x) && (max.None? || x <= max.value)
  }

  /** A leaf check: the input itself on success, one issue at the root otherwise. */
  function Check(ok: bool, input: Option<Value>): Parsed {
    if ok then Accepted(input) else Rejected({[]})
  }

  /** Combines the results of an object's or a record's entries. */
  function Collect(results: map<string, Parsed>): Parsed {
    if forall key :: key in results ==> results[key].Accepted? then
      Accepted(Some(Obj(map key | key in results && results[key].output.Some? :: results[key].output.value)))
    else
      Rejected(set key, p | key in results && results[key].Rejected? && p in results[key].issues :: [Key(key)] + p)
  }

  /** Combines the results of an array's elements. */
  function CollectItems(results: seq<Parsed>): Parsed {
    if forall j :: 0 <= j < |results| ==> results[j].Accepted? then
      Accepted(Some(Arr(seq(|results|, j requires 0 <= j < |results| => results[j].output.GetOr(Null)))))
    else
      Rejected(set j: nat, p | j < |results| && results[j].Rejected? && p in results[j].issues :: [Index(j)] + p)
  }

  function Parse(k: Kind, input: Option<Value>, fmt: Formats): Parsed
    decreases k
  {
    match k
    case Optional(inner) => if input.None? then Accepted(None) else Parse(inner, input, fmt)
    case Default(inner, fallback) => Parse(inner, Some(input.GetOr(fallback)), fmt)
    case Anything => Accepted(input)
    case Text(n) => Check(input.Some? && input.value.Str? && |input.value.s| >= n, input)
    case Email => Check(input.Some? && input.value.Str? && fmt.isEmail(input.value.s), input)
    case Url => Check(input.Some? && input.value.Str? && fmt.isUrl(input.value.s), input)
    case Enum(options) => Check(input.Some? && input.value.Str? && input.value.s in options, input)
    case Number(min, max) => Check(input.Some? && input.value.Num? && InRange(input.value.n, min, max), input)
    case Boolean => Check(input.Some? && input.value.Bool?, input)
    case ArrayOf(element) =>
      if input.Some? && input.value.Arr? then
        var items := input.value.items;
        CollectItems(seq(|items|, j requires 0 <= j < |items| => Parse(element, Some(items[j]), fmt)))
      else Rejected({[]})
    case RecordOf(entry) =>
      if input.Some? && input.value.Obj? then
        var m := input.value.fields;
        Collect(map key | key in m :: Parse(entry, Some(m[key]), fmt))
      else Rejected({[]})
    case Object(shape) =>
      if input.Some? && input.value.Obj? then
        var m := input.value.fields;
        Collect(map key | key in shape :: Parse(shape[key], Get(m, key), fmt))
      else Rejected({[]})
  }

  /** `schema.partial()`: every field of the object schema made optional. */
  function Partial(shape: map<string, Kind>): Kind {
    Object(map key | key in shape :: Optional(shape[key]))
  }

  /** The result of `schema.parse(body)` for an object schema: the parsed record, or the ZodError's issues. */
  datatype ObjectResult = Parsed(fields: map<string, Value>) | Invalid(issues: set<Path>)

  function ParseObject(shape: map<string, Kind>, body: Value, fmt: Formats): (r: ObjectResult)
    ensures r.Parsed? <==> Parse(Object(shape), Some(body), fmt).Accepted?
    ensures r.Parsed? ==> Parse(Object(shape), Some(body), fmt).output == Some(Obj(r.fields))
    ensures r.Invalid? ==> r.issues == Parse(Object(shape), Some(body), fmt).issues
  {
    var p := Parse(Object(shape), Some(body), fmt);
    if p.Rejected? then Invalid(p.issues)
    else Parsed(p.output.value.fields)
  }

  /** Each declared field accepts what the object holds under that key. */
  predicate FieldsAccept(shape: map<string, Kind>, m: map<string, Value>, fmt: Formats) {
    forall key :: key in shape ==> Parse(shape[key], Get(m, key), fmt).Accepted?
  }

  /** Adding a new field to a shape adds exactly that field's check. */
  lemma FieldsAcceptAdd(shape: map<string, Kind>, k: string, kind: Kind, m: map<string, Value>, fmt: Formats)
    requires k !in shape
    ensures FieldsAccept(shape[k := kind], m, fmt) <==> FieldsAccept(shape, m, fmt) && Parse(kind, Get(m, k), fmt).Accepted?
  {
    var bigger := shape[k := kind];
    if FieldsAccept(shape, m, fmt) && Parse(kind, Get(m, k), fmt).Accepted? {
      forall key | key in bigger ensures Parse(bigger[key], Get(m, key), fmt).Accepted? {
        if key != k {
          assert bigger[key] == shape[key];
        }
      }
    }
    if FieldsAccept(bigger, m, fmt) {
      forall key | key in shape ensures Parse(shape[key], Get(m, key), fmt).Accepted? {
        assert bigger[key] == shape[key];
      }
      assert bigger[k] == kind;
    }
  }

  /** A schema assembled from two disjoint groups of fields accepts exactly what both groups accept. */
  lemma FieldsAcceptUnion(a: map<string, Kind>, b: map<string, Kind>, m: map<string, Value>, fmt: Formats)
    requires a.Keys !! b.Keys
    ensures FieldsAccept(a + b, m, fmt) <==> FieldsAccept(a, m, fmt) && FieldsAccept(b, m, fmt)
  {
    if FieldsAccept(a + b, m, fmt) {
      forall key | key in a ensures Parse(a[key], Get(m, key), fmt).Accepted? {
        assert (a + b)[key] == a[key];
      }
    }
  }

  /** A schema assembled from four pairwise disjoint groups accepts exactly what all four accept. */
  lemma FieldsAcceptFour(a: map<string, Kind>, b: map<string, Kind>, c: map<string, Kind>, d: map<string, Kind>,
                         m: map<string, Value>, fmt: Formats)
    requires a.Keys !! b.Keys && a.Keys !! c.Keys && a.Keys !! d.Keys
    requires b.Keys !! c.Keys && b.Keys !! d.Keys && c.Keys !! d.Keys
    ensures FieldsAccept(a + b + c + d, m, fmt) <==>
      FieldsAccept(a, m, fmt) && FieldsAccept(b, m, fmt) && FieldsAccept(c, m, fmt) && FieldsAccept(d, m, fmt)
  {
    FieldsAcceptUnion(a, b, m, fmt);
    assert (a + b).Keys == a.Keys + b.Keys;
    FieldsAcceptUnion(a + b, c, m, fmt);
    assert (a + b + c).Keys == a.Keys + b.Keys + c.Keys;
    FieldsAcceptUnion(a + b + c, d, m, fmt);
  }

  /** A key of the right map takes its entry from it in the union. */
  lemma UnionRight(a: map<string, Kind>, b: map<string, Kind>, k: string)
    requires k in b
    ensures k in a + b && (a + b)[k] == b[k]
  {
  }

  /** A key of the left map only keeps its entry in the union. */
  lemma UnionLeft(a: map<string, Kind>, b: map<string, Kind>, k: string)
    requires k in a && k !in b
    ensures k in a + b && (a + b)[k] == a[k]
  {
  }

  /** An object schema accepts an object exactly when each declared field accepts what the object holds under that key. */
  lemma ObjectAccepts(shape: map<string, Kind>, m: map<string, Value>, fmt: Formats)
    ensures Parse(Object(shape), Some(Obj(m)), fmt).Accepted? <==> FieldsAccept(shape, m, fmt)
  {
  }

  /** An array schema accepts an array exactly when every element passes. */
  lemma ArrayAccepts(element: Kind, items: seq<Value>, fmt: Formats)
    ensures Parse(ArrayOf(element), Some(Arr(items)), fmt).Accepted?
        <==> forall j :: 0 <= j < |items| ==> Parse(element, Some(items[j]), fmt).Accepted?
  {
    var rs := seq(|items|, j requires 0 <= j < |items| => Parse(element, Some(items[j]), fmt));
    assert forall j :: 0 <= j < |items| ==> rs[j] == Parse(element, Some(items[j]), fmt);
  }

  /** A record schema accepts an object exactly when every entry passes. */
  lemma RecordAccepts(entry: Kind, m: map<string, Value>, fmt: Formats)
    ensures Parse(RecordOf(entry), Some(Obj(m)), fmt).Accepted?
        <==> forall key :: key in m ==> Parse(entry, Some(m[key]), fmt).Accepted?
  {
    var rs := map key | key in m :: Parse(entry, Some(m[key]), fmt);
    assert forall key :: key in m ==> key in rs && rs[key] == Parse(entry, Some(m[key]), fmt);
  }

  /** On success, the output object holds under each declared key exactly that field's output; nothing else. */
  lemma ObjectField(shape: map<string, Kind>, m: map<string, Value>, fmt: Formats, key: string)
    requires key in shape
    requires Parse(Object(shape), Some(Obj(m)), fmt).Accepted?
    ensures Parse(shape[key], Get(m, key), fmt).Accepted?
    ensures Parse(Object(shape), Some(Obj(m)), fmt).output.Some?
    ensures Parse(Object(shape), Some(Obj(m)), fmt).output.value.Obj?
    ensures Get(Parse(Object(shape), Some(Obj(m)), fmt).output.value.fields, key)
         == Parse(shape[key], Get(m, key), fmt).output
  {
  }

  /** When every field accepts, the object is parsed and holds under each declared key exactly that field's output. */
  lemma ObjectOutputs(shape: map<string, Kind>, m: map<string, Value>, fmt: Formats)
    requires FieldsAccept(shape, m, fmt)
    ensures ParseObject(shape, Obj(m), fmt).Parsed?
    ensures forall key :: key in shape ==>
      Get(ParseObject(shape, Obj(m), fmt).fields, key) == Parse(shape[key], Get(m, key), fmt).output
    ensures ParseObject(shape, Obj(m), fmt).fields.Keys <= shape.Keys
  {
  }

  /** One declared key of an object whose fields all accept. */
  lemma ObjectOutputAt(shape: map<string, Kind>, m: map<string, Value>, fmt: Formats, key: string)
    requires FieldsAccept(shape, m, fmt)
    requires key in shape
    ensures ParseObject(shape, Obj(m), fmt).Parsed?
    ensures Get(ParseObject(shape, Obj(m), fmt).fields, key) == Parse(shape[key], Get(m, key), fmt).output
  {
    ObjectOutputs(shape, m, fmt);
  }

  /** Keys the schema does not declare never reach the output. */
  lemma ObjectStrips(shape: map<string, Kind>, body: Value, fmt: Formats)
    requires ParseObject(shape, body, fmt).Parsed?
    ensures ParseObject(shape, body, fmt).fields.Keys <= shape.Keys
  {
  }

  /** Anything but a JSON object is rejected by an object schema. */
  lemma ObjectNeedsObject(shape: map<string, Kind>, input: Option<Value>, fmt: Formats)
    requires !(input.Some? && input.value.Obj?)
    ensures Parse(Object(shape), input, fmt) == Rejected({[]})
  {
  }

  /** A present value passes a `.partial()` field exactly as it passes the original field. */
  lemma PartialPresent(shape: map<string, Kind>, m: map<string, Value>, fmt: Formats, key: string)
    requires key in shape && key in m
    ensures Parse(Partial(shape).shape[key], Get(m, key), fmt) == Parse(shape[key], Some(m[key]), fmt)
  {
  }

  /** A present field that fails the original field makes the `.partial()` schema reject the object. */
  lemma PartialRejects(shape: map<string, Kind>, m: map<string, Value>, fmt: Formats, key: string)
    requires key in shape && key in m
    requires Parse(shape[key], Some(m[key]), fmt).Rejected?
    ensures Parse(Partial(shape), Some(Obj(m)), fmt).Rejected?
  {
    PartialPresent(shape, m, fmt, key);
    ObjectAccepts(Partial(shape).shape, m, fmt);
  }

  /**
   * A `.partial()` schema accepts an object exactly when each field that is present
   * passes the original field; absent fields are neither required nor defaulted.
   */
  lemma PartialAccepts(shape: map<string, Kind>, m: map<string, Value>, fmt: Formats)
    ensures Parse(Partial(shape), Some(Obj(m)), fmt).Accepted?
        <==> forall key :: key in shape && key in m ==> Parse(shape[key], Some(m[key]), fmt).Accepted?
    ensures Parse(Partial(shape), Some(Obj(m)), fmt).Accepted? ==>
        Parse(Partial(shape), Some(Obj(m)), fmt).output.value.fields.Keys <= m.Keys * shape.Keys
  {
    var ps := Partial(shape).shape;
    ObjectAccepts(ps, m, fmt);
    forall key | key in ps
      ensures Parse(ps[key], Get(m, key), fmt)
           == if key in m then Parse(shape[key], Some(m[key]), fmt) else Accepted(None)
    {
    }
  }
}
