/**
 * `foodCenterSchema` of apps/api/src/routes/foodCenters.ts, the validator of
 * the food-center create (POST) and update (PUT, through `.partial()`)
 * bodies, with a field-by-field statement of what it accepts.
 */
module FoodCenterSchema {
  import opened Wrappers
  import opened Json
  import opened Zod
  import opened Types
  import opened Schemas

  /** The location object: a latitude between -90 and 90 and a longitude between -180 and 180, both inclusive. */
  const CoordinatesShape: map<string, Kind> := map[
    "lat" := Number(Some(-90.0), Some(90.0)),
    "lng" := Number(Some(-180.0), Some(180.0))
  ]

  /** The name and place fields. */
  const NamesShape: map<string, Kind> := map[
    "name" := Text(1),
    "address" := Text(1),
    "city" := Text(1),
    "country" := Text(1)
  ]

  /** The contact fields. */
  const ContactShape: map<string, Kind> := map[
    "postal_code" := Optional(Text(0)),
    "phone" := Optional(Text(0)),
    "email" := Optional(Email),
    "website" := Optional(Url),
    "contact_person" := Optional(Text(0))
  ]

  /** The fields describing the service. */
  const ServiceShape: map<string, Kind> := map[
    "type" := Enum(CenterTypes),
    "description" := Optional(Text(0)),
    "operating_hours" := Optional(OperatingHours),
    "dietary_restrictions" := Optional(TextArray),
    "languages_spoken" := Optional(TextArray),
    "capacity" := Optional(Number(None, None))
  ]

  /** The position and the status fields. */
  const StateShape: map<string, Kind> := map[
    "location" := Object(CoordinatesShape),
    "current_availability" := Default(Enum(AvailabilityStatuses), Str("unknown")),
    "verified" := Default(Boolean, Bool(false)),
    "created_by" := Optional(Text(0))
  ]

  /** `foodCenterSchema`: its nineteen fields, in four groups. */
  const FoodCenterShape: map<string, Kind> := NamesShape + ContactShape + ServiceShape + StateShape

  /** The schema of the update body: every field optional, no defaults applied. */
  const UpdateSchema: Kind := Partial(FoodCenterShape)

  // ---- field conditions ----

  /** A position with latitude in [-90, 90] and longitude in [-180, 180], both ends included. */
  predicate IsCoordinates(v: Value) {
    && v.Obj?
    && "lat" in v.fields && v.fields["lat"].Num? && -90.0 <= v.fields["lat"].n <= 90.0
    && "lng" in v.fields && v.fields["lng"].Num? && -180.0 <= v.fields["lng"].n <= 180.0
  }

  predicate IsAvailabilityStatus(v: Value) {
    v.Str? && v.s in AvailabilityStatuses
  }

  /** What the schema demands of the name and place fields: all four non-empty. */
  predicate NamesOk(m: map<string, Value>) {
    HasText(m, "name", 1) && HasText(m, "address", 1) && HasText(m, "city", 1) && HasText(m, "country", 1)
  }

  predicate ContactOk(m: map<string, Value>, fmt: Formats) {
    && AbsentOr(m, "postal_code", IsText)
    && AbsentOr(m, "phone", IsText)
    && AbsentOrFormatted(m, "email", fmt.isEmail)
    && AbsentOrFormatted(m, "website", fmt.isUrl)
    && AbsentOr(m, "contact_person", IsText)
  }

  predicate ServiceOk(m: map<string, Value>) {
    && "type" in m && m["type"].Str? && m["type"].s in CenterTypes
    && AbsentOr(m, "description", IsText)
    && AbsentOr(m, "operating_hours", IsHoursTable)
    && AbsentOr(m, "dietary_restrictions", IsTextArray)
    && AbsentOr(m, "languages_spoken", IsTextArray)
    && AbsentOr(m, "capacity", IsNumber)
  }

  predicate StateOk(m: map<string, Value>) {
    && "location" in m && IsCoordinates(m["location"])
    && AbsentOr(m, "current_availability", IsAvailabilityStatus)
    && AbsentOr(m, "verified", IsBool)
    && AbsentOr(m, "created_by", IsText)
  }

  /** What `foodCenterSchema` demands of a body, field by field. */
  predicate ValidFoodCenter(m: map<string, Value>, fmt: Formats) {
    NamesOk(m) && ContactOk(m, fmt) && ServiceOk(m) && StateOk(m)
  }

  // ---- the schema against the conditions ----

  /** The nested position passes exactly when it is in range, and comes out with just lat and lng. */
  lemma CoordinatesAccepted(v: Value, fmt: Formats)
    ensures Parse(Object(CoordinatesShape), Some(v), fmt).Accepted? <==> IsCoordinates(v)
    ensures IsCoordinates(v) ==>
      Parse(Object(CoordinatesShape), Some(v), fmt).output == Some(Obj(map["lat" := v.fields["lat"], "lng" := v.fields["lng"]]))
  {
    if v.Obj? {
      ObjectAccepts(CoordinatesShape, v.fields, fmt);
      assert "lat" in CoordinatesShape && "lng" in CoordinatesShape;
      if IsCoordinates(v) {
        ObjectOutputs(CoordinatesShape, v.fields, fmt);
        var out := ParseObject(CoordinatesShape, v, fmt).fields;
        assert out.Keys == {"lat", "lng"};
        assert out == map["lat" := v.fields["lat"], "lng" := v.fields["lng"]];
      }
    }
  }

  lemma OptionalArrayAccepted(m: map<string, Value>, key: string, fmt: Formats)
    ensures Parse(Optional(TextArray), Get(m, key), fmt).Accepted? <==> AbsentOr(m, key, IsTextArray)
  {
    if key in m {
      TextArrayAccepted(m[key], fmt);
    }
  }

  lemma OptionalHoursAccepted(m: map<string, Value>, key: string, fmt: Formats)
    ensures Parse(Optional(OperatingHours), Get(m, key), fmt).Accepted? <==> AbsentOr(m, key, IsHoursTable)
  {
    if key in m {
      HoursAccepted(m[key], fmt);
    }
  }

  /** The `NamesShape` group, one field at a time. */
  lemma NamesFields(m: map<string, Value>, fmt: Formats)
    ensures FieldsAccept(NamesShape, m, fmt) <==>
      && Parse(Text(1), Get(m, "name"), fmt).Accepted?
      && Parse(Text(1), Get(m, "address"), fmt).Accepted?
      && Parse(Text(1), Get(m, "city"), fmt).Accepted?
      && Parse(Text(1), Get(m, "country"), fmt).Accepted?
  {
    var s0: map<string, Kind> := map[];
    var s1 := s0["name" := Text(1)];
    var s2 := s1["address" := Text(1)];
    var s3 := s2["city" := Text(1)];
    var s4 := s3["country" := Text(1)];
    assert s4 == NamesShape;
    FieldsAcceptAdd(s0, "name", Text(1), m, fmt);
    FieldsAcceptAdd(s1, "address", Text(1), m, fmt);
    FieldsAcceptAdd(s2, "city", Text(1), m, fmt);
    FieldsAcceptAdd(s3, "country", Text(1), m, fmt);
  }

  lemma NamesAccept(m: map<string, Value>, fmt: Formats)
    ensures FieldsAccept(NamesShape, m, fmt) <==> NamesOk(m)
  {
    NamesFields(m, fmt);
    TextAt(m, "name", 1, fmt);
    TextAt(m, "address", 1, fmt);
    TextAt(m, "city", 1, fmt);
    TextAt(m, "country", 1, fmt);
  }

  /** The `ContactShape` group, one field at a time. */
  lemma ContactFields(m: map<string, Value>, fmt: Formats)
    ensures FieldsAccept(ContactShape, m, fmt) <==>
      && Parse(Optional(Text(0)), Get(m, "postal_code"), fmt).Accepted?
      && Parse(Optional(Text(0)), Get(m, "phone"), fmt).Accepted?
      && Parse(Optional(Email), Get(m, "email"), fmt).Accepted?
      && Parse(Optional(Url), Get(m, "website"), fmt).Accepted?
      && Parse(Optional(Text(0)), Get(m, "contact_person"), fmt).Accepted?
  {
    var s0: map<string, Kind> := map[];
    var s1 := s0["postal_code" := Optional(Text(0))];
    var s2 := s1["phone" := Optional(Text(0))];
    var s3 := s2["email" := Optional(Email)];
    var s4 := s3["website" := Optional(Url)];
    var s5 := s4["contact_person" := Optional(Text(0))];
    assert s5 == ContactShape;
    FieldsAcceptAdd(s0, "postal_code", Optional(Text(0)), m, fmt);
    FieldsAcceptAdd(s1, "phone", Optional(Text(0)), m, fmt);
    FieldsAcceptAdd(s2, "email", Optional(Email), m, fmt);
    FieldsAcceptAdd(s3, "website", Optional(Url), m, fmt);
    FieldsAcceptAdd(s4, "contact_person", Optional(Text(0)), m, fmt);
  }

  lemma ContactAccept(m: map<string, Value>, fmt: Formats)
    ensures FieldsAccept(ContactShape, m, fmt) <==> ContactOk(m, fmt)
  {
    ContactFields(m, fmt);
    OptionalTextAt(m, "postal_code", fmt);
    OptionalTextAt(m, "phone", fmt);
    OptionalFormatAt(m, "email", fmt);
    OptionalFormatAt(m, "website", fmt);
    OptionalTextAt(m, "contact_person", fmt);
  }

  /** The `ServiceShape` group, one field at a time. */
  lemma ServiceFields(m: map<string, Value>, fmt: Formats)
    ensures FieldsAccept(ServiceShape, m, fmt) <==>
      && Parse(Enum(CenterTypes), Get(m, "type"), fmt).Accepted?
      && Parse(Optional(Text(0)), Get(m, "description"), fmt).Accepted?
      && Parse(Optional(OperatingHours), Get(m, "operating_hours"), fmt).Accepted?
      && Parse(Optional(TextArray), Get(m, "dietary_restrictions"), fmt).Accepted?
      && Parse(Optional(TextArray), Get(m, "languages_spoken"), fmt).Accepted?
      && Parse(Optional(Number(None, None)), Get(m, "capacity"), fmt).Accepted?
  {
    var s0: map<string, Kind> := map[];
    var s1 := s0["type" := Enum(CenterTypes)];
    var s2 := s1["description" := Optional(Text(0))];
    var s3 := s2["operating_hours" := Optional(OperatingHours)];
    var s4 := s3["dietary_restrictions" := Optional(TextArray)];
    var s5 := s4["languages_spoken" := Optional(TextArray)];
    var s6 := s5["capacity" := Optional(Number(None, None))];
    assert s6 == ServiceShape;
    FieldsAcceptAdd(s0, "type", Enum(CenterTypes), m, fmt);
    FieldsAcceptAdd(s1, "description", Optional(Text(0)), m, fmt);
    FieldsAcceptAdd(s2, "operating_hours", Optional(OperatingHours), m, fmt);
    FieldsAcceptAdd(s3, "dietary_restrictions", Optional(TextArray), m, fmt);
    FieldsAcceptAdd(s4, "languages_spoken", Optional(TextArray), m, fmt);
    FieldsAcceptAdd(s5, "capacity", Optional(Number(None, None)), m, fmt);
  }

  lemma ServiceAccept(m: map<string, Value>, fmt: Formats)
    ensures FieldsAccept(ServiceShape, m, fmt) <==> ServiceOk(m)
  {
    ServiceFields(m, fmt);
    EnumAt(m, "type", CenterTypes, fmt);
    OptionalTextAt(m, "description", fmt);
    OptionalHoursAccepted(m, "operating_hours", fmt);
    OptionalArrayAccepted(m, "dietary_restrictions", fmt);
    OptionalArrayAccepted(m, "languages_spoken", fmt);
    OptionalNumberAt(m, "capacity", fmt);
  }

  /** The `StateShape` group, one field at a time. */
  lemma StateFields(m: map<string, Value>, fmt: Formats)
    ensures FieldsAccept(StateShape, m, fmt) <==>
      && Parse(Object(CoordinatesShape), Get(m, "location"), fmt).Accepted?
      && Parse(Default(Enum(AvailabilityStatuses), Str("unknown")), Get(m, "current_availability"), fmt).Accepted?
      && Parse(Default(Boolean, Bool(false)), Get(m, "verified"), fmt).Accepted?
      && Parse(Optional(Text(0)), Get(m, "created_by"), fmt).Accepted?
  {
    var s0: map<string, Kind> := map[];
    var s1 := s0["location" := Object(CoordinatesShape)];
    var s2 := s1["current_availability" := Default(Enum(AvailabilityStatuses), Str("unknown"))];
    var s3 := s2["verified" := Default(Boolean, Bool(false))];
    var s4 := s3["created_by" := Optional(Text(0))];
    assert s4 == StateShape;
    FieldsAcceptAdd(s0, "location", Object(CoordinatesShape), m, fmt);
    FieldsAcceptAdd(s1, "current_availability", Default(Enum(AvailabilityStatuses), Str("unknown")), m, fmt);
    FieldsAcceptAdd(s2, "verified", Default(Boolean, Bool(false)), m, fmt);
    FieldsAcceptAdd(s3, "created_by", Optional(Text(0)), m, fmt);
  }

  lemma StateAccept(m: map<string, Value>, fmt: Formats)
    ensures FieldsAccept(StateShape, m, fmt) <==> StateOk(m)
  {
    StateFields(m, fmt);
    LocationAccepted(m, fmt);
    UnknownIsStatus();
    DefaultAt(m, "current_availability", Enum(AvailabilityStatuses), Str("unknown"), fmt);
    DefaultAt(m, "verified", Boolean, Bool(false), fmt);
    OptionalTextAt(m, "created_by", fmt);
  }

  /** The availability default is itself one of the statuses. */
  lemma UnknownIsStatus()
    ensures "unknown" in AvailabilityStatuses
  {
    assert AvailabilityStatuses[3] == "unknown";
  }

  /** The required position passes exactly when it is present and in range. */
  lemma LocationAccepted(m: map<string, Value>, fmt: Formats)
    ensures Parse(Object(CoordinatesShape), Get(m, "location"), fmt).Accepted? <==>
      "location" in m && IsCoordinates(m["location"])
  {
    if "location" in m {
      CoordinatesAccepted(m["location"], fmt);
    } else {
      ObjectNeedsObject(CoordinatesShape, None, fmt);
    }
  }

  /** The key sets of the four groups. */
  lemma GroupKeys()
    ensures NamesShape.Keys == {"name", "address", "city", "country"}
    ensures ContactShape.Keys == {"postal_code", "phone", "email", "website", "contact_person"}
    ensures ServiceShape.Keys == {"type", "description", "operating_hours", "dietary_restrictions", "languages_spoken", "capacity"}
    ensures StateShape.Keys == {"location", "current_availability", "verified", "created_by"}
  {
  }

  // No two groups share a key; each pair is checked on its own.

  lemma NamesContactDisjoint()
    ensures NamesShape.Keys !! ContactShape.Keys
  {
    GroupKeys();
  }

  lemma NamesServiceDisjoint()
    ensures NamesShape.Keys !! ServiceShape.Keys
  {
    GroupKeys();
  }

  lemma ContactServiceDisjoint()
    ensures ContactShape.Keys !! ServiceShape.Keys
  {
    GroupKeys();
  }

  lemma NamesStateDisjoint()
    ensures NamesShape.Keys !! StateShape.Keys
  {
    GroupKeys();
  }

  lemma ContactStateDisjoint()
    ensures ContactShape.Keys !! StateShape.Keys
  {
    GroupKeys();
  }

  lemma ServiceStateDisjoint()
    ensures ServiceShape.Keys !! StateShape.Keys
  {
    GroupKeys();
  }

  /** The four groups do not share a key, so the whole schema accepts what each group accepts. */
  lemma GroupsAccept(m: map<string, Value>, fmt: Formats)
    ensures FieldsAccept(FoodCenterShape, m, fmt) <==>
      FieldsAccept(NamesShape, m, fmt) && FieldsAccept(ContactShape, m, fmt)
      && FieldsAccept(ServiceShape, m, fmt) && FieldsAccept(StateShape, m, fmt)
  {
    NamesContactDisjoint();
    NamesServiceDisjoint();
    ContactServiceDisjoint();
    NamesStateDisjoint();
    ContactStateDisjoint();
    ServiceStateDisjoint();
    FieldsAcceptFour(NamesShape, ContactShape, ServiceShape, StateShape, m, fmt);
  }

  lemma ValidToFields(m: map<string, Value>, fmt: Formats)
    requires ValidFoodCenter(m, fmt)
    ensures FieldsAccept(FoodCenterShape, m, fmt)
  {
    NamesAccept(m, fmt);
    ContactAccept(m, fmt);
    ServiceAccept(m, fmt);
    StateAccept(m, fmt);
    GroupsAccept(m, fmt);
  }

  /** `foodCenterSchema` accepts an object exactly when it meets `ValidFoodCenter`. */
  lemma FoodCenterAccepts(m: map<string, Value>, fmt: Formats)
    ensures ParseObject(FoodCenterShape, Obj(m), fmt).Parsed? <==> ValidFoodCenter(m, fmt)
  {
    ObjectAccepts(FoodCenterShape, m, fmt);
    NamesAccept(m, fmt);
    ContactAccept(m, fmt);
    ServiceAccept(m, fmt);
    StateAccept(m, fmt);
    GroupsAccept(m, fmt);
  }

  /** A body that is not an object is rejected. */
  lemma FoodCenterNeedsObject(body: Value, fmt: Formats)
    requires !body.Obj?
    ensures ParseObject(FoodCenterShape, body, fmt).Invalid?
  {
  }

  // ---- what a valid body comes out as ----

  // The entries of the whole schema under the keys the lemmas below read.

  lemma NameEntry()
    ensures "name" in FoodCenterShape && FoodCenterShape["name"] == Text(1)
  {
    NameOnlyInNames();
    assert NamesShape["name"] == Text(1);
    UnionLeft(NamesShape, ContactShape, "name");
    UnionLeft(NamesShape + ContactShape, ServiceShape, "name");
    UnionLeft(NamesShape + ContactShape + ServiceShape, StateShape, "name");
  }

  lemma NameOnlyInNames()
    ensures "name" in NamesShape
    ensures "name" !in ContactShape.Keys && "name" !in ServiceShape.Keys && "name" !in StateShape.Keys
  {
    GroupKeys();
  }

  lemma AvailabilityEntry()
    ensures "current_availability" in FoodCenterShape
    ensures FoodCenterShape["current_availability"] == Default(Enum(AvailabilityStatuses), Str("unknown"))
  {
    UnionRight(NamesShape + ContactShape + ServiceShape, StateShape, "current_availability");
  }

  lemma VerifiedEntry()
    ensures "verified" in FoodCenterShape && FoodCenterShape["verified"] == Default(Boolean, Bool(false))
  {
    UnionRight(NamesShape + ContactShape + ServiceShape, StateShape, "verified");
  }

  lemma LocationEntry()
    ensures "location" in FoodCenterShape && FoodCenterShape["location"] == Object(CoordinatesShape)
  {
    UnionRight(NamesShape + ContactShape + ServiceShape, StateShape, "location");
  }

  /** A valid body comes out, under each declared key, as that key's schema makes of its value. */
  lemma FoodCenterOutputAt(m: map<string, Value>, fmt: Formats, key: string)
    requires FieldsAccept(FoodCenterShape, m, fmt)
    requires key in FoodCenterShape
    ensures ParseObject(FoodCenterShape, Obj(m), fmt).Parsed?
    ensures Get(ParseObject(FoodCenterShape, Obj(m), fmt).fields, key) == Parse(FoodCenterShape[key], Get(m, key), fmt).output
  {
    ObjectOutputAt(FoodCenterShape, m, fmt, key);
  }

  /** A valid body comes out with availability "unknown" when it gives none. */
  lemma FoodCenterAvailabilityDefault(m: map<string, Value>, fmt: Formats)
    requires ValidFoodCenter(m, fmt)
    ensures ParseObject(FoodCenterShape, Obj(m), fmt).Parsed?
    ensures Get(ParseObject(FoodCenterShape, Obj(m), fmt).fields, "current_availability")
      == Some(Get(m, "current_availability").GetOr(Str("unknown")))
  {
    AvailabilityEntry();
    ValidToFields(m, fmt);
    FoodCenterOutputAt(m, fmt, "current_availability");
    UnknownIsStatus();
  }

  /** A valid body comes out with verified false when it gives none. */
  lemma FoodCenterVerifiedDefault(m: map<string, Value>, fmt: Formats)
    requires ValidFoodCenter(m, fmt)
    ensures ParseObject(FoodCenterShape, Obj(m), fmt).Parsed?
    ensures Get(ParseObject(FoodCenterShape, Obj(m), fmt).fields, "verified")
      == Some(Get(m, "verified").GetOr(Bool(false)))
  {
    VerifiedEntry();
    ValidToFields(m, fmt);
    FoodCenterOutputAt(m, fmt, "verified");
  }

  /** A valid body comes out with its position reduced to lat and lng. */
  lemma FoodCenterLocation(m: map<string, Value>, fmt: Formats)
    requires ValidFoodCenter(m, fmt)
    ensures ParseObject(FoodCenterShape, Obj(m), fmt).Parsed?
    ensures Get(ParseObject(FoodCenterShape, Obj(m), fmt).fields, "location")
      == Some(Obj(map["lat" := m["location"].fields["lat"], "lng" := m["location"].fields["lng"]]))
  {
    LocationEntry();
    ValidToFields(m, fmt);
    FoodCenterOutputAt(m, fmt, "location");
    CoordinatesAccepted(m["location"], fmt);
  }

  // ---- the update body ----

  /** The schema has no `id` field, so neither body can set one. */
  lemma NoIdField()
    ensures "id" !in FoodCenterShape
  {
    NoIdInGroups();
    assert FoodCenterShape.Keys == NamesShape.Keys + ContactShape.Keys + ServiceShape.Keys + StateShape.Keys;
  }

  lemma NoIdInGroups()
    ensures "id" !in NamesShape.Keys && "id" !in ContactShape.Keys
    ensures "id" !in ServiceShape.Keys && "id" !in StateShape.Keys
  {
    GroupKeys();
  }

  /** The update schema checks only the fields that are present, and never adds one. */
  lemma UpdateAccepts(m: map<string, Value>, fmt: Formats)
    ensures Parse(UpdateSchema, Some(Obj(m)), fmt).Accepted? <==>
      forall key :: key in FoodCenterShape && key in m ==> Parse(FoodCenterShape[key], Some(m[key]), fmt).Accepted?
    ensures Parse(UpdateSchema, Some(Obj(m)), fmt).Accepted? ==>
      Parse(UpdateSchema, Some(Obj(m)), fmt).output.value.fields.Keys <= m.Keys * FoodCenterShape.Keys
  {
    PartialAccepts(FoodCenterShape, m, fmt);
  }

  /** An empty update is valid and changes nothing: neither availability nor verified is defaulted. */
  lemma EmptyUpdate(fmt: Formats)
    ensures Parse(UpdateSchema, Some(Obj(map[])), fmt) == Accepted(Some(Obj(map[])))
  {
    UpdateAccepts(map[], fmt);
  }

  /** A present name must still be non-empty in an update. */
  lemma UpdateKeepsNameCheck(m: map<string, Value>, fmt: Formats)
    requires "name" in m && m["name"] == Str("")
    ensures Parse(UpdateSchema, Some(Obj(m)), fmt).Rejected?
  {
    NameEntry();
    PartialRejects(FoodCenterShape, m, fmt, "name");
  }
}
