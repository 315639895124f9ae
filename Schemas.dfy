/**
 * The form schemas of the shared package. Each schema is a zod object schema
 * written as a `Zod.Kind`; beside it stand a plain predicate saying which
 * bodies it accepts and lemmas saying which defaults it fills in.
 */
module Schemas {
  import opened Wrappers
  import opened Json
  import opened Zod
  import opened Types

  /** One day's opening hours: an opening and a closing time, both strings. */
  const HoursEntry: Kind := Object(map["open" := Text(0), "close" := Text(0)])

  /** `z.record(HoursEntry)`: opening hours keyed by day. */
  const OperatingHours: Kind := RecordOf(HoursEntry)

  const TextArray: Kind := ArrayOf(Text(0))

  /** `locationSchema`'s name and place fields, the place defaulting to Berlin, Germany. */
  const LocationPlaceShape: map<string, Kind> := map[
    "name" := Text(1),
    "address" := Text(1),
    "city" := Default(Text(0), Str("Berlin")),
    "country" := Default(Text(0), Str("Germany"))
  ]

  /** `locationSchema`'s contact fields. */
  const LocationReachShape: map<string, Kind> := map[
    "postal_code" := Optional(Text(0)),
    "phone" := Optional(Text(0)),
    "email" := Optional(Email),
    "website" := Optional(Url)
  ]

  /** `locationSchema`'s fields describing the service. */
  const LocationServiceShape: map<string, Kind> := map[
    "type" := Enum(CenterTypes),
    "dietary_restrictions" := Default(TextArray, Arr([])),
    "operating_hours" := Default(OperatingHours, Obj(map[])),
    "description" := Optional(Text(0)),
    "capacity" := Optional(Number(None, None)),
    "requirements" := Optional(Text(0))
  ]

  /** `locationSchema`'s access and position fields. */
  const LocationAccessShape: map<string, Kind> := map[
    "languages" := Default(TextArray, Arr([])),
    "accessibility" := Default(Boolean, Bool(false)),
    "lat" := Optional(Number(None, None)),
    "lng" := Optional(Number(None, None))
  ]

  /** `locationSchema`: its eighteen fields, in four groups. */
  const LocationShape: map<string, Kind> :=
    LocationPlaceShape + LocationReachShape + LocationServiceShape + LocationAccessShape

  const ReviewShape: map<string, Kind> := map[
    "rating" := Number(Some(1.0), Some(5.0)),
    "comment" := Optional(Text(0))
  ]

  const AvailabilityShape: map<string, Kind> := map[
    "status" := Enum(AvailabilityStatuses),
    "notes" := Optional(Text(0))
  ]

  const FilterShape: map<string, Kind> := map[
    "search" := Optional(Text(0)),
    "type" := Optional(Text(0)),
    "dietary_restrictions" := Optional(TextArray)
  ]

  // ---- plain conditions on JSON values ----

  predicate IsTextArray(v: Value) {
    v.Arr? && forall j :: 0 <= j < |v.items| ==> v.items[j].Str?
  }

  predicate IsHoursEntry(v: Value) {
    v.Obj? && "open" in v.fields && v.fields["open"].Str? && "close" in v.fields && v.fields["close"].Str?
  }

  predicate IsHoursTable(v: Value) {
    v.Obj? && forall day :: day in v.fields ==> IsHoursEntry(v.fields[day])
  }

  /** The key is present and holds a string of at least `n` characters. */
  predicate HasText(m: map<string, Value>, key: string, n: nat) {
    key in m && m[key].Str? && |m[key].s| >= n
  }

  /** The key is absent, or holds a value meeting `ok`. */
  predicate AbsentOr(m: map<string, Value>, key: string, ok: Value -> bool) {
    key !in m || ok(m[key])
  }

  /** The key is absent, or holds a string that passes the format check. */
  predicate AbsentOrFormatted(m: map<string, Value>, key: string, format: string -> bool) {
    key !in m || (m[key].Str? && format(m[key].s))
  }

  predicate IsText(v: Value) { v.Str? }
  predicate IsNumber(v: Value) { v.Num? }
  predicate IsBool(v: Value) { v.Bool? }

  // What each kind of field accepts under a key, the key left open.

  lemma TextAt(m: map<string, Value>, key: string, n: nat, fmt: Formats)
    ensures Parse(Text(n), Get(m, key), fmt).Accepted? <==> HasText(m, key, n)
  {
  }

  lemma OptionalTextAt(m: map<string, Value>, key: string, fmt: Formats)
    ensures Parse(Optional(Text(0)), Get(m, key), fmt).Accepted? <==> AbsentOr(m, key, IsText)
  {
  }

  lemma OptionalNumberAt(m: map<string, Value>, key: string, fmt: Formats)
    ensures Parse(Optional(Number(None, None)), Get(m, key), fmt).Accepted? <==> AbsentOr(m, key, IsNumber)
  {
  }

  lemma OptionalFormatAt(m: map<string, Value>, key: string, fmt: Formats)
    ensures Parse(Optional(Email), Get(m, key), fmt).Accepted? <==> AbsentOrFormatted(m, key, fmt.isEmail)
    ensures Parse(Optional(Url), Get(m, key), fmt).Accepted? <==> AbsentOrFormatted(m, key, fmt.isUrl)
  {
  }

  lemma EnumAt(m: map<string, Value>, key: string, options: seq<string>, fmt: Formats)
    ensures Parse(Enum(options), Get(m, key), fmt).Accepted? <==> key in m && m[key].Str? && m[key].s in options
  {
  }

  /** A defaulted field accepts an absent key when its fallback passes, and otherwise what the inner schema accepts. */
  lemma DefaultAt(m: map<string, Value>, key: string, inner: Kind, fallback: Value, fmt: Formats)
    requires Parse(inner, Some(fallback), fmt).Accepted?
    ensures Parse(Default(inner, fallback), Get(m, key), fmt).Accepted? <==>
      key !in m || Parse(inner, Some(m[key]), fmt).Accepted?
  {
  }

  /** An array of strings passes `z.array(z.string())`, and comes out unchanged. */
  lemma TextArrayAccepted(v: Value, fmt: Formats)
    ensures Parse(TextArray, Some(v), fmt).Accepted? <==> IsTextArray(v)
    ensures IsTextArray(v) ==> Parse(TextArray, Some(v), fmt).output == Some(v)
  {
    if v.Arr? {
      ArrayAccepts(Text(0), v.items, fmt);
    }
    if IsTextArray(v) {
      var rs := seq(|v.items|, j requires 0 <= j < |v.items| => Parse(Text(0), Some(v.items[j]), fmt));
      assert seq(|rs|, j requires 0 <= j < |rs| => rs[j].output.GetOr(Null)) == v.items;
    }
  }

  /** A day-keyed table of `{open, close}` strings passes the opening-hours schema. */
  lemma HoursAccepted(v: Value, fmt: Formats)
    ensures Parse(OperatingHours, Some(v), fmt).Accepted? <==> IsHoursTable(v)
  {
    if v.Obj? {
      RecordAccepts(HoursEntry, v.fields, fmt);
      forall day | day in v.fields
        ensures Parse(HoursEntry, Some(v.fields[day]), fmt).Accepted? <==> IsHoursEntry(v.fields[day])
      {
        var e := v.fields[day];
        if e.Obj? {
          ObjectAccepts(HoursEntry.shape, e.fields, fmt);
          assert "open" in HoursEntry.shape && "close" in HoursEntry.shape;
          assert Get(e.fields, "open") == (if "open" in e.fields then Some(e.fields["open"]) else None);
        }
      }
    }
  }

  /** A defaulted string-array field accepts an absent key or an array of strings. */
  lemma ArrayFieldAccepted(m: map<string, Value>, key: string, fmt: Formats)
    ensures Parse(Default(TextArray, Arr([])), Get(m, key), fmt).Accepted? <==> AbsentOr(m, key, IsTextArray)
  {
    TextArrayAccepted(Get(m, key).GetOr(Arr([])), fmt);
  }

  /** A defaulted opening-hours field accepts an absent key or a table of hours. */
  lemma HoursFieldAccepted(m: map<string, Value>, key: string, fmt: Formats)
    ensures Parse(Default(OperatingHours, Obj(map[])), Get(m, key), fmt).Accepted? <==> AbsentOr(m, key, IsHoursTable)
  {
    HoursAccepted(Get(m, key).GetOr(Obj(map[])), fmt);
  }

  // ---- locationSchema ----

  /** What `locationSchema` demands of the name and place fields. */
  predicate LocationPlaceOk(m: map<string, Value>) {
    && HasText(m, "name", 1)
    && HasText(m, "address", 1)
    && AbsentOr(m, "city", IsText)
    && AbsentOr(m, "country", IsText)
  }

  /** What `locationSchema` demands of the contact fields. */
  predicate LocationReachOk(m: map<string, Value>, fmt: Formats) {
    && AbsentOr(m, "postal_code", IsText)
    && AbsentOr(m, "phone", IsText)
    && AbsentOrFormatted(m, "email", fmt.isEmail)
    && AbsentOrFormatted(m, "website", fmt.isUrl)
  }

  /** What `locationSchema` demands of the fields describing the service. */
  predicate LocationServiceOk(m: map<string, Value>) {
    && "type" in m && m["type"].Str? && m["type"].s in CenterTypes
    && AbsentOr(m, "dietary_restrictions", IsTextArray)
    && AbsentOr(m, "operating_hours", IsHoursTable)
    && AbsentOr(m, "description", IsText)
    && AbsentOr(m, "capacity", IsNumber)
    && AbsentOr(m, "requirements", IsText)
  }

  /** What `locationSchema` demands of the access and position fields: lat and lng unbounded. */
  predicate LocationAccessOk(m: map<string, Value>) {
    && AbsentOr(m, "languages", IsTextArray)
    && AbsentOr(m, "accessibility", IsBool)
    && AbsentOr(m, "lat", IsNumber)
    && AbsentOr(m, "lng", IsNumber)
  }

  /** What `locationSchema` demands of a form body, field by field. */
  predicate ValidLocationForm(m: map<string, Value>, fmt: Formats) {
    LocationPlaceOk(m) && LocationReachOk(m, fmt) && LocationServiceOk(m) && LocationAccessOk(m)
  }

  /** The `LocationPlaceShape` group, one field at a time. */
  lemma LocationPlaceFields(m: map<string, Value>, fmt: Formats)
    ensures FieldsAccept(LocationPlaceShape, m, fmt) <==>
      && Parse(Text(1), Get(m, "name"), fmt).Accepted?
      && Parse(Text(1), Get(m, "address"), fmt).Accepted?
      && Parse(Default(Text(0), Str("Berlin")), Get(m, "city"), fmt).Accepted?
      && Parse(Default(Text(0), Str("Germany")), Get(m, "country"), fmt).Accepted?
  {
    var s0: map<string, Kind> := map[];
    var s1 := s0["name" := Text(1)];
    var s2 := s1["address" := Text(1)];
    var s3 := s2["city" := Default(Text(0), Str("Berlin"))];
    var s4 := s3["country" := Default(Text(0), Str("Germany"))];
    assert s4 == LocationPlaceShape;
    FieldsAcceptAdd(s0, "name", Text(1), m, fmt);
    FieldsAcceptAdd(s1, "address", Text(1), m, fmt);
    FieldsAcceptAdd(s2, "city", Default(Text(0), Str("Berlin")), m, fmt);
    FieldsAcceptAdd(s3, "country", Default(Text(0), Str("Germany")), m, fmt);
  }

  lemma LocationPlaceAccept(m: map<string, Value>, fmt: Formats)
    ensures FieldsAccept(LocationPlaceShape, m, fmt) <==> LocationPlaceOk(m)
  {
    LocationPlaceFields(m, fmt);
    TextAt(m, "name", 1, fmt);
    TextAt(m, "address", 1, fmt);
    DefaultAt(m, "city", Text(0), Str("Berlin"), fmt);
    DefaultAt(m, "country", Text(0), Str("Germany"), fmt);
  }

  /** The `LocationReachShape` group, one field at a time. */
  lemma LocationReachFields(m: map<string, Value>, fmt: Formats)
    ensures FieldsAccept(LocationReachShape, m, fmt) <==>
      && Parse(Optional(Text(0)), Get(m, "postal_code"), fmt).Accepted?
      && Parse(Optional(Text(0)), Get(m, "phone"), fmt).Accepted?
      && Parse(Optional(Email), Get(m, "email"), fmt).Accepted?
      && Parse(Optional(Url), Get(m, "website"), fmt).Accepted?
  {
    var s0: map<string, Kind> := map[];
    var s1 := s0["postal_code" := Optional(Text(0))];
    var s2 := s1["phone" := Optional(Text(0))];
    var s3 := s2["email" := Optional(Email)];
    var s4 := s3["website" := Optional(Url)];
    assert s4 == LocationReachShape;
    FieldsAcceptAdd(s0, "postal_code", Optional(Text(0)), m, fmt);
    FieldsAcceptAdd(s1, "phone", Optional(Text(0)), m, fmt);
    FieldsAcceptAdd(s2, "email", Optional(Email), m, fmt);
    FieldsAcceptAdd(s3, "website", Optional(Url), m, fmt);
  }

  lemma LocationReachAccept(m: map<string, Value>, fmt: Formats)
    ensures FieldsAccept(LocationReachShape, m, fmt) <==> LocationReachOk(m, fmt)
  {
    LocationReachFields(m, fmt);
    OptionalTextAt(m, "postal_code", fmt);
    OptionalTextAt(m, "phone", fmt);
    OptionalFormatAt(m, "email", fmt);
    OptionalFormatAt(m, "website", fmt);
  }

  /** The `LocationServiceShape` group, one field at a time. */
  lemma LocationServiceFields(m: map<string, Value>, fmt: Formats)
    ensures FieldsAccept(LocationServiceShape, m, fmt) <==>
      && Parse(Enum(CenterTypes), Get(m, "type"), fmt).Accepted?
      && Parse(Default(TextArray, Arr([])), Get(m, "dietary_restrictions"), fmt).Accepted?
      && Parse(Default(OperatingHours, Obj(map[])), Get(m, "operating_hours"), fmt).Accepted?
      && Parse(Optional(Text(0)), Get(m, "description"), fmt).Accepted?
      && Parse(Optional(Number(None, None)), Get(m, "capacity"), fmt).Accepted?
      && Parse(Optional(Text(0)), Get(m, "requirements"), fmt).Accepted?
  {
    var s0: map<string, Kind> := map[];
    var s1 := s0["type" := Enum(CenterTypes)];
    var s2 := s1["dietary_restrictions" := Default(TextArray, Arr([]))];
    var s3 := s2["operating_hours" := Default(OperatingHours, Obj(map[]))];
    var s4 := s3["description" := Optional(Text(0))];
    var s5 := s4["capacity" := Optional(Number(None, None))];
    var s6 := s5["requirements" := Optional(Text(0))];
    assert s6 == LocationServiceShape;
    FieldsAcceptAdd(s0, "type", Enum(CenterTypes), m, fmt);
    FieldsAcceptAdd(s1, "dietary_restrictions", Default(TextArray, Arr([])), m, fmt);
    FieldsAcceptAdd(s2, "operating_hours", Default(OperatingHours, Obj(map[])), m, fmt);
    FieldsAcceptAdd(s3, "description", Optional(Text(0)), m, fmt);
    FieldsAcceptAdd(s4, "capacity", Optional(Number(None, None)), m, fmt);
    FieldsAcceptAdd(s5, "requirements", Optional(Text(0)), m, fmt);
  }

  lemma LocationServiceAccept(m: map<string, Value>, fmt: Formats)
    ensures FieldsAccept(LocationServiceShape, m, fmt) <==> LocationServiceOk(m)
  {
    LocationServiceFields(m, fmt);
    EnumAt(m, "type", CenterTypes, fmt);
    ArrayFieldAccepted(m, "dietary_restrictions", fmt);
    HoursFieldAccepted(m, "operating_hours", fmt);
    OptionalTextAt(m, "description", fmt);
    OptionalNumberAt(m, "capacity", fmt);
    OptionalTextAt(m, "requirements", fmt);
  }

  /** The `LocationAccessShape` group, one field at a time. */
  lemma LocationAccessFields(m: map<string, Value>, fmt: Formats)
    ensures FieldsAccept(LocationAccessShape, m, fmt) <==>
      && Parse(Default(TextArray, Arr([])), Get(m, "languages"), fmt).Accepted?
      && Parse(Default(Boolean, Bool(false)), Get(m, "accessibility"), fmt).Accepted?
      && Parse(Optional(Number(None, None)), Get(m, "lat"), fmt).Accepted?
      && Parse(Optional(Number(None, None)), Get(m, "lng"), fmt).Accepted?
  {
    var s0: map<string, Kind> := map[];
    var s1 := s0["languages" := Default(TextArray, Arr([]))];
    var s2 := s1["accessibility" := Default(Boolean, Bool(false))];
    var s3 := s2["lat" := Optional(Number(None, None))];
    var s4 := s3["lng" := Optional(Number(None, None))];
    assert s4 == LocationAccessShape;
    FieldsAcceptAdd(s0, "languages", Default(TextArray, Arr([])), m, fmt);
    FieldsAcceptAdd(s1, "accessibility", Default(Boolean, Bool(false)), m, fmt);
    FieldsAcceptAdd(s2, "lat", Optional(Number(None, None)), m, fmt);
    FieldsAcceptAdd(s3, "lng", Optional(Number(None, None)), m, fmt);
  }

  lemma LocationAccessAccept(m: map<string, Value>, fmt: Formats)
    ensures FieldsAccept(LocationAccessShape, m, fmt) <==> LocationAccessOk(m)
  {
    LocationAccessFields(m, fmt);
    ArrayFieldAccepted(m, "languages", fmt);
    DefaultAt(m, "accessibility", Boolean, Bool(false), fmt);
    OptionalNumberAt(m, "lat", fmt);
    OptionalNumberAt(m, "lng", fmt);
  }

  /** The key sets of the four groups. */
  lemma LocationGroupKeys()
    ensures LocationPlaceShape.Keys == {"name", "address", "city", "country"}
    ensures LocationReachShape.Keys == {"postal_code", "phone", "email", "website"}
    ensures LocationServiceShape.Keys == {"type", "dietary_restrictions", "operating_hours", "description", "capacity", "requirements"}
    ensures LocationAccessShape.Keys == {"languages", "accessibility", "lat", "lng"}
  {
  }

  // No two groups share a key; each pair is checked on its own.

  lemma PlaceReachDisjoint()
    ensures LocationPlaceShape.Keys !! LocationReachShape.Keys
  {
    LocationGroupKeys();
  }

  lemma PlaceServiceDisjoint()
    ensures LocationPlaceShape.Keys !! LocationServiceShape.Keys
  {
    LocationGroupKeys();
  }

  lemma PlaceAccessDisjoint()
    ensures LocationPlaceShape.Keys !! LocationAccessShape.Keys
  {
    LocationGroupKeys();
  }

  lemma ReachServiceDisjoint()
    ensures LocationReachShape.Keys !! LocationServiceShape.Keys
  {
    LocationGroupKeys();
  }

  lemma ReachAccessDisjoint()
    ensures LocationReachShape.Keys !! LocationAccessShape.Keys
  {
    LocationGroupKeys();
  }

  lemma ServiceAccessDisjoint()
    ensures LocationServiceShape.Keys !! LocationAccessShape.Keys
  {
    LocationGroupKeys();
  }

  /** The whole location schema accepts what each of its groups accepts. */
  lemma LocationGroupsAccept(m: map<string, Value>, fmt: Formats)
    ensures FieldsAccept(LocationShape, m, fmt) <==>
      FieldsAccept(LocationPlaceShape, m, fmt) && FieldsAccept(LocationReachShape, m, fmt)
      && FieldsAccept(LocationServiceShape, m, fmt) && FieldsAccept(LocationAccessShape, m, fmt)
  {
    PlaceReachDisjoint();
    PlaceServiceDisjoint();
    PlaceAccessDisjoint();
    ReachServiceDisjoint();
    ReachAccessDisjoint();
    ServiceAccessDisjoint();
    FieldsAcceptFour(LocationPlaceShape, LocationReachShape, LocationServiceShape, LocationAccessShape, m, fmt);
  }

  lemma LocationValidToFields(m: map<string, Value>, fmt: Formats)
    requires ValidLocationForm(m, fmt)
    ensures FieldsAccept(LocationShape, m, fmt)
  {
    LocationPlaceAccept(m, fmt);
    LocationReachAccept(m, fmt);
    LocationServiceAccept(m, fmt);
    LocationAccessAccept(m, fmt);
    LocationGroupsAccept(m, fmt);
  }

  /** `locationSchema` accepts an object exactly when it meets `ValidLocationForm`. */
  lemma LocationFormAccepts(m: map<string, Value>, fmt: Formats)
    ensures Parse(Object(LocationShape), Some(Obj(m)), fmt).Accepted? <==> ValidLocationForm(m, fmt)
  {
    ObjectAccepts(LocationShape, m, fmt);
    LocationPlaceAccept(m, fmt);
    LocationReachAccept(m, fmt);
    LocationServiceAccept(m, fmt);
    LocationAccessAccept(m, fmt);
    LocationGroupsAccept(m, fmt);
  }

  /** `locationSchema.safeParse(body)` on an object body. */
  function ParseLocationForm(m: map<string, Value>, fmt: Formats): ObjectResult {
    ParseObject(LocationShape, Obj(m), fmt)
  }

  // The entries of the whole schema under the keys the lemmas below read.

  lemma PlaceEntries()
    ensures "city" in LocationShape && LocationShape["city"] == Default(Text(0), Str("Berlin"))
    ensures "country" in LocationShape && LocationShape["country"] == Default(Text(0), Str("Germany"))
  {
    PlaceOnlyInPlace();
    var pr := LocationPlaceShape + LocationReachShape;
    var prs := pr + LocationServiceShape;
    UnionLeft(LocationPlaceShape, LocationReachShape, "city");
    UnionLeft(pr, LocationServiceShape, "city");
    UnionLeft(prs, LocationAccessShape, "city");
    UnionLeft(LocationPlaceShape, LocationReachShape, "country");
    UnionLeft(pr, LocationServiceShape, "country");
    UnionLeft(prs, LocationAccessShape, "country");
  }

  lemma PlaceOnlyInPlace()
    ensures LocationPlaceShape["city"] == Default(Text(0), Str("Berlin"))
    ensures LocationPlaceShape["country"] == Default(Text(0), Str("Germany"))
    ensures "city" !in LocationReachShape.Keys + LocationServiceShape.Keys + LocationAccessShape.Keys
    ensures "country" !in LocationReachShape.Keys + LocationServiceShape.Keys + LocationAccessShape.Keys
  {
    PlaceReachDisjoint();
    PlaceServiceDisjoint();
    PlaceAccessDisjoint();
    assert "city" in LocationPlaceShape && "country" in LocationPlaceShape;
  }

  lemma ListEntries()
    ensures "dietary_restrictions" in LocationShape && LocationShape["dietary_restrictions"] == Default(TextArray, Arr([]))
    ensures "operating_hours" in LocationShape && LocationShape["operating_hours"] == Default(OperatingHours, Obj(map[]))
    ensures "languages" in LocationShape && LocationShape["languages"] == Default(TextArray, Arr([]))
  {
    ServiceNotInAccess();
    var prs := LocationPlaceShape + LocationReachShape + LocationServiceShape;
    UnionLeft(prs, LocationAccessShape, "dietary_restrictions");
    UnionLeft(prs, LocationAccessShape, "operating_hours");
  }

  lemma ServiceNotInAccess()
    ensures LocationServiceShape["dietary_restrictions"] == Default(TextArray, Arr([]))
    ensures LocationServiceShape["operating_hours"] == Default(OperatingHours, Obj(map[]))
    ensures "dietary_restrictions" !in LocationAccessShape.Keys && "operating_hours" !in LocationAccessShape.Keys
    ensures LocationAccessShape["languages"] == Default(TextArray, Arr([]))
  {
    LocationGroupKeys();
  }

  lemma AccessEntries()
    ensures "accessibility" in LocationShape && LocationShape["accessibility"] == Default(Boolean, Bool(false))
    ensures "lat" in LocationShape && LocationShape["lat"] == Optional(Number(None, None))
    ensures "lng" in LocationShape && LocationShape["lng"] == Optional(Number(None, None))
  {
    assert LocationAccessShape["accessibility"] == Default(Boolean, Bool(false));
    assert LocationAccessShape["lat"] == Optional(Number(None, None));
    assert LocationAccessShape["lng"] == Optional(Number(None, None));
  }

  /** A valid location form comes out, under each declared key, as that key's schema makes of its value. */
  lemma LocationOutputAt(m: map<string, Value>, fmt: Formats, key: string)
    requires FieldsAccept(LocationShape, m, fmt)
    requires key in LocationShape
    ensures ParseLocationForm(m, fmt).Parsed?
    ensures Get(ParseLocationForm(m, fmt).fields, key) == Parse(LocationShape[key], Get(m, key), fmt).output
  {
    ObjectOutputAt(LocationShape, m, fmt, key);
  }

  /** A valid location form comes out with city "Berlin" and country "Germany" when those are absent. */
  lemma LocationFormPlaceDefaults(m: map<string, Value>, fmt: Formats)
    requires ValidLocationForm(m, fmt)
    ensures ParseLocationForm(m, fmt).Parsed?
    ensures Get(ParseLocationForm(m, fmt).fields, "city") == Some(Get(m, "city").GetOr(Str("Berlin")))
    ensures Get(ParseLocationForm(m, fmt).fields, "country") == Some(Get(m, "country").GetOr(Str("Germany")))
  {
    PlaceEntries();
    LocationValidToFields(m, fmt);
    LocationOutputAt(m, fmt, "city");
    LocationOutputAt(m, fmt, "country");
  }

  /** An absent defaulted list comes out as the empty array. */
  lemma EmptyListDefault(fmt: Formats)
    ensures Parse(Default(TextArray, Arr([])), None, fmt) == Accepted(Some(Arr([])))
  {
    TextArrayAccepted(Arr([]), fmt);
  }

  /** An absent defaulted opening-hours table comes out as the empty table. */
  lemma EmptyHoursDefault(fmt: Formats)
    ensures Parse(Default(OperatingHours, Obj(map[])), None, fmt) == Accepted(Some(Obj(map[])))
  {
    var none: map<string, Value> := map[];
    var results := map key | key in none :: Parse(HoursEntry, Some(none[key]), fmt);
    assert results == map[];
  }

  /** Absent lists come out empty and absent opening hours come out as an empty table. */
  lemma LocationFormListDefaults(m: map<string, Value>, fmt: Formats)
    requires ValidLocationForm(m, fmt)
    ensures ParseLocationForm(m, fmt).Parsed?
    ensures "dietary_restrictions" !in m ==> Get(ParseLocationForm(m, fmt).fields, "dietary_restrictions") == Some(Arr([]))
    ensures "languages" !in m ==> Get(ParseLocationForm(m, fmt).fields, "languages") == Some(Arr([]))
    ensures "operating_hours" !in m ==> Get(ParseLocationForm(m, fmt).fields, "operating_hours") == Some(Obj(map[]))
  {
    ListEntries();
    EmptyListDefault(fmt);
    EmptyHoursDefault(fmt);
    LocationValidToFields(m, fmt);
    LocationOutputAt(m, fmt, "dietary_restrictions");
    LocationOutputAt(m, fmt, "languages");
    LocationOutputAt(m, fmt, "operating_hours");
  }

  /** An optional number field gives an output exactly when the key is present. */
  lemma OptionalNumberPresence(m: map<string, Value>, key: string, fmt: Formats)
    requires AbsentOr(m, key, IsNumber)
    ensures Parse(Optional(Number(None, None)), Get(m, key), fmt).output.Some? <==> key in m
  {
  }

  /** Accessibility defaults to false; coordinates are never invented. */
  lemma LocationFormAccessDefaults(m: map<string, Value>, fmt: Formats)
    requires ValidLocationForm(m, fmt)
    ensures ParseLocationForm(m, fmt).Parsed?
    ensures Get(ParseLocationForm(m, fmt).fields, "accessibility") == Some(Get(m, "accessibility").GetOr(Bool(false)))
    ensures "lat" in ParseLocationForm(m, fmt).fields <==> "lat" in m
    ensures "lng" in ParseLocationForm(m, fmt).fields <==> "lng" in m
  {
    AccessEntries();
    LocationValidToFields(m, fmt);
    LocationOutputAt(m, fmt, "accessibility");
    LocationOutputAt(m, fmt, "lat");
    LocationOutputAt(m, fmt, "lng");
    OptionalNumberPresence(m, "lat", fmt);
    OptionalNumberPresence(m, "lng", fmt);
  }

  // ---- reviewSchema ----

  /** What `reviewSchema` demands: a rating from 1 to 5 inclusive, any real number, and an optional comment. */
  predicate ValidReviewForm(m: map<string, Value>) {
    && "rating" in m && m["rating"].Num? && 1.0 <= m["rating"].n <= 5.0
    && AbsentOr(m, "comment", IsText)
  }

  lemma ReviewFormAccepts(m: map<string, Value>, fmt: Formats)
    ensures Parse(Object(ReviewShape), Some(Obj(m)), fmt).Accepted? <==> ValidReviewForm(m)
  {
    ObjectAccepts(ReviewShape, m, fmt);
    assert "rating" in ReviewShape && "comment" in ReviewShape;
  }

  /** The rating need not be a whole number. */
  lemma ReviewFormAcceptsFractionalRating(fmt: Formats)
    ensures Parse(Object(ReviewShape), Some(Obj(map["rating" := Num(2.5)])), fmt).Accepted?
  {
    ReviewFormAccepts(map["rating" := Num(2.5)], fmt);
  }

  // ---- availabilitySchema ----

  /** What `availabilitySchema` demands: one of the four statuses, and optional notes. */
  predicate ValidAvailabilityForm(m: map<string, Value>) {
    && "status" in m && m["status"].Str? && m["status"].s in AvailabilityStatuses
    && AbsentOr(m, "notes", IsText)
  }

  lemma AvailabilityFormAccepts(m: map<string, Value>, fmt: Formats)
    ensures Parse(Object(AvailabilityShape), Some(Obj(m)), fmt).Accepted? <==> ValidAvailabilityForm(m)
  {
    ObjectAccepts(AvailabilityShape, m, fmt);
    assert "status" in AvailabilityShape && "notes" in AvailabilityShape;
  }

  // ---- filterSchema ----

  /** What `filterSchema` demands: each of its three fields, when present, has the right type. */
  predicate ValidFilterForm(m: map<string, Value>) {
    AbsentOr(m, "search", IsText) && AbsentOr(m, "type", IsText) && AbsentOr(m, "dietary_restrictions", IsTextArray)
  }

  lemma FilterFormAccepts(m: map<string, Value>, fmt: Formats)
    ensures Parse(Object(FilterShape), Some(Obj(m)), fmt).Accepted? <==> ValidFilterForm(m)
  {
    ObjectAccepts(FilterShape, m, fmt);
    assert "search" in FilterShape && "type" in FilterShape && "dietary_restrictions" in FilterShape;
    if "dietary_restrictions" in m {
      TextArrayAccepted(m["dietary_restrictions"], fmt);
    }
  }

  /** The empty filter form passes and gets no defaults. */
  lemma FilterFormEmpty(fmt: Formats)
    ensures ParseObject(FilterShape, Obj(map[]), fmt) == Parsed(map[])
  {
    FilterFormAccepts(map[], fmt);
    ObjectAccepts(FilterShape, map[], fmt);
    ObjectOutputs(FilterShape, map[], fmt);
    assert "search" in FilterShape && "type" in FilterShape && "dietary_restrictions" in FilterShape;
  }
}
