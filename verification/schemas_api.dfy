/**
 * The request records of schemas/api.py, which create_project builds from the
 * transformed ontology. The base schemas they extend are not part of this
 * model: each record carries the fields it is given besides its own as an
 * opaque `base` dict, which `.dict(exclude_none=True)` gives back without its
 * nulls.
 */
module ApiSchemas {
  import opened Wrappers
  import opened Errors
  import opened Json
  import opened Common
  import opened ClientSchemas

  // ---------------------------------------------------------------------------
  // AttributeAPISchema

  const AttributeApiFields: set<string> := {"type", "option_data"}

  datatype AttributeApi = AttributeApi(base: Dict, attrType: AttributeType, optionData: Option<seq<OptionValue>>)

  /** The API-side rule: an option-typed attribute carries at least one option value. */
  predicate OptionDataRule(t: AttributeType, optionData: Option<seq<OptionValue>>) {
    t == OptionType ==> optionData.Some? && |optionData.value| >= 1
  }

  predicate AttributeApiValid(a: AttributeApi) {
    OptionDataRule(a.attrType, a.optionData)
  }

  /** `AttributeAPISchema.option_data_validator`, assuming `option_data` is validated before `type`. */
  function ApiOptionDataValidator(value: AttributeType, optionData: Option<seq<OptionValue>>): (r: Result<AttributeType, Error>)
    ensures r.Success? <==> OptionDataRule(value, optionData)
    ensures r.Success? ==> r.value == value
    ensures r.Failure? ==> r.error == ValidationError("type")
  {
    var present := optionData.Some? && optionData.value != [];
    if value == OptionType && !present then Failure(ValidationError("type")) else Success(value)
  }

  /** Any type but option is accepted without option values, and comes back unchanged. */
  lemma ApiNonOptionAccepted(t: AttributeType)
    requires t != OptionType
    ensures ApiOptionDataValidator(t, None) == Success(t)
  {
  }

  function OptionValueFromJson(j: Json): (r: Option<OptionValue>)
    ensures r.Some? ==> OptionValueJson(r.value) == j
  {
    match j
    case JStr(s) => Some(Str(s))
    case JInt(i) => Some(Int(i))
    case JBool(b) => Some(Bool(b))
    case JNum(x) => Some(Num(x))
    case _ => None
  }

  lemma OptionValueJsonRoundTrip(v: OptionValue)
    ensures OptionValueFromJson(OptionValueJson(v)) == Some(v)
  {
  }

  function OptionValuesJson(vs: seq<OptionValue>): (r: seq<Json>)
    ensures |r| == |vs| && forall k :: 0 <= k < |vs| ==> r[k] == OptionValueJson(vs[k])
  {
    seq(|vs|, k requires 0 <= k < |vs| => OptionValueJson(vs[k]))
  }

  /** A `list[Union[str, bool, int, float]]`: every item must be a scalar. */
  function OptionValuesFromJson(items: seq<Json>): (r: Option<seq<OptionValue>>)
    ensures r.Some? <==> forall k :: 0 <= k < |items| ==> OptionValueFromJson(items[k]).Some?
    ensures r.Some? ==> OptionValuesJson(r.value) == items
  {
    if items == [] then Some([])
    else
      var head := OptionValueFromJson(items[0]);
      var tail := OptionValuesFromJson(items[1..]);
      if head.None? || tail.None? then None
      else
        assert forall k :: 1 <= k < |items| ==> items[k] == items[1..][k - 1];
        Some([head.value] + tail.value)
  }

  /** Reading back the JSON of option values gives the same values. */
  lemma OptionValuesJsonRoundTrip(vs: seq<OptionValue>)
    ensures OptionValuesFromJson(OptionValuesJson(vs)) == Some(vs)
  {
    var items := OptionValuesJson(vs);
    forall k | 0 <= k < |vs| ensures OptionValueFromJson(items[k]) == Some(vs[k]) {
      OptionValueJsonRoundTrip(vs[k]);
    }
    var back := OptionValuesFromJson(items);
    assert back.Some?;
    assert OptionValuesJson(back.value) == items;
    forall k | 0 <= k < |vs| ensures back.value[k] == vs[k] {
      OptionValueJsonRoundTrip(back.value[k]);
    }
    assert back.value == vs;
  }

  /** The `option_data` field: absent or null is `None`. */
  function OptionDataField(m: Dict): (r: Result<Option<seq<OptionValue>>, Error>)
    ensures r.Success? && r.value.None? <==> Get(m, "option_data") == JNull
    ensures r.Success? && r.value.Some? ==> Get(m, "option_data") == JList(OptionValuesJson(r.value.value))
  {
    match Get(m, "option_data")
    case JNull => Success(None)
    case JList(items) =>
      var vs := OptionValuesFromJson(items);
      if vs.None? then Failure(ValidationError("option_data")) else Success(vs)
    case _ => Failure(ValidationError("option_data"))
  }

  /** `AttributeAPISchema(**m)`: an accepted attribute is valid and keeps the type and the option values it was given. */
  function AttributeApiFromDict(m: Dict): (r: Result<AttributeApi, Error>)
    ensures r.Success? ==> AttributeApiValid(r.value)
    ensures r.Success? ==> r.value.base == m - AttributeApiFields
    ensures r.Success? ==> Get(m, "type") == JStr(AttributeTypeWire(r.value.attrType))
    ensures r.Success? ==> Get(m, "option_data") == OptionDataJson(r.value.optionData)
  {
    var optionData :- OptionDataField(m);
    var typeWire :- ReqStr(m, "type");
    var t := AttributeTypeFromWire(typeWire);
    if t.None? then Failure(ValidationError("type"))
    else
      var ty :- ApiOptionDataValidator(t.value, optionData);
      Success(AttributeApi(m - AttributeApiFields, ty, optionData))
  }

  function OptionDataJson(o: Option<seq<OptionValue>>): Json {
    match o
    case None => JNull
    case Some(vs) => JList(OptionValuesJson(vs))
  }

  /** `.dict(exclude_none=True)` */
  function AttributeApiToDict(a: AttributeApi): Dict {
    var d := ExcludeNone(a.base)["type" := JStr(AttributeTypeWire(a.attrType))];
    if a.optionData.Some? then d["option_data" := OptionDataJson(a.optionData)] else d
  }

  predicate NoNulls(d: Dict) {
    forall k :: k in d ==> d[k] != JNull
  }

  /** The base fields round-trip when they hold no nulls and do not shadow the declared fields. */
  predicate AttributeApiWellFormed(a: AttributeApi) {
    NoNulls(a.base) && a.base.Keys !! AttributeApiFields
  }

  lemma AttributeApiRoundTrip(a: AttributeApi)
    requires AttributeApiWellFormed(a) && AttributeApiValid(a)
    ensures AttributeApiFromDict(AttributeApiToDict(a)) == Success(a)
  {
    var m := AttributeApiToDict(a);
    assert ExcludeNone(a.base) == a.base;
    assert m - AttributeApiFields == a.base;
    AttributeTypeWireRoundTrip(a.attrType);
    if a.optionData.Some? {
      OptionValuesJsonRoundTrip(a.optionData.value);
    }
  }

  // ---------------------------------------------------------------------------
  // OntologyClassAPISchema

  predicate AttributeItemParses(j: Json) {
    j.JObject? && AttributeApiFromDict(j.fields).Success?
  }

  /** A `list[AttributeAPISchema]`: accepted exactly when every item is, item by item. */
  function AttributesApiFromJson(items: seq<Json>): (r: Result<seq<AttributeApi>, Error>)
    ensures r.Success? <==> forall k :: 0 <= k < |items| ==> AttributeItemParses(items[k])
    ensures r.Success? ==> |r.value| == |items|
    ensures r.Success? ==> forall k :: 0 <= k < |items| ==> AttributeApiFromDict(items[k].fields) == Success(r.value[k])
  {
    if items == [] then Success([])
    else if !items[0].JObject? then Failure(ValidationError("attribute_data"))
    else
      var head :- AttributeApiFromDict(items[0].fields);
      var tail :- AttributesApiFromJson(items[1..]);
      assert forall k :: 1 <= k < |items| ==> items[k] == items[1..][k - 1];
      Success([head] + tail)
  }

  const OntologyClassApiFields: set<string> := {"attribute_data"}

  datatype OntologyClassApi = OntologyClassApi(base: Dict, attributeData: Option<seq<AttributeApi>>)

  predicate OntologyClassApiValid(c: OntologyClassApi) {
    c.attributeData.Some? ==> forall k :: 0 <= k < |c.attributeData.value| ==> AttributeApiValid(c.attributeData.value[k])
  }

  function OntologyClassApiFromDict(m: Dict): (r: Result<OntologyClassApi, Error>)
    ensures r.Success? ==> OntologyClassApiValid(r.value)
    ensures r.Success? ==> r.value.base == m - OntologyClassApiFields
    ensures Get(m, "attribute_data").JList? ==>
      (r.Success? <==> forall k :: 0 <= k < |m["attribute_data"].items| ==> AttributeItemParses(m["attribute_data"].items[k]))
  {
    match Get(m, "attribute_data")
    case JNull => Success(OntologyClassApi(m - OntologyClassApiFields, None))
    case JList(items) =>
      var attrs :- AttributesApiFromJson(items);
      Success(OntologyClassApi(m - OntologyClassApiFields, Some(attrs)))
    case _ => Failure(ValidationError("attribute_data"))
  }

  function AttributesApiToJson(attrs: seq<AttributeApi>): (r: seq<Json>)
    ensures |r| == |attrs| && forall k :: 0 <= k < |attrs| ==> r[k] == JObject(AttributeApiToDict(attrs[k]))
  {
    seq(|attrs|, k requires 0 <= k < |attrs| => JObject(AttributeApiToDict(attrs[k])))
  }

  function OntologyClassApiToDict(c: OntologyClassApi): Dict {
    var d := ExcludeNone(c.base);
    if c.attributeData.Some? then d["attribute_data" := JList(AttributesApiToJson(c.attributeData.value))] else d
  }

  predicate OntologyClassApiWellFormed(c: OntologyClassApi) {
    && NoNulls(c.base) && c.base.Keys !! OntologyClassApiFields
    && (c.attributeData.Some? ==> forall k :: 0 <= k < |c.attributeData.value| ==> AttributeApiWellFormed(c.attributeData.value[k]))
  }

  lemma {:induction false} AttributesApiRoundTrip(attrs: seq<AttributeApi>)
    requires forall k :: 0 <= k < |attrs| ==> AttributeApiWellFormed(attrs[k]) && AttributeApiValid(attrs[k])
    ensures AttributesApiFromJson(AttributesApiToJson(attrs)) == Success(attrs)
    decreases |attrs|
  {
    var items := AttributesApiToJson(attrs);
    if attrs != [] {
      AttributeApiRoundTrip(attrs[0]);
      AttributesApiRoundTrip(attrs[1..]);
      assert items[1..] == AttributesApiToJson(attrs[1..]);
      assert attrs == [attrs[0]] + attrs[1..];
    }
  }

  lemma OntologyClassApiRoundTrip(c: OntologyClassApi)
    requires OntologyClassApiWellFormed(c) && OntologyClassApiValid(c)
    ensures OntologyClassApiFromDict(OntologyClassApiToDict(c)) == Success(c)
  {
    var m := OntologyClassApiToDict(c);
    assert ExcludeNone(c.base) == c.base;
    assert m - OntologyClassApiFields == c.base;
    if c.attributeData.Some? {
      AttributesApiRoundTrip(c.attributeData.value);
    }
  }

  // ---------------------------------------------------------------------------
  // OntologyAPISchema

  predicate ClassItemParses(j: Json) {
    j.JObject? && OntologyClassApiFromDict(j.fields).Success?
  }

  /** A `list[OntologyClassAPISchema]`: accepted exactly when every item is. */
  function ClassesApiFromJson(items: seq<Json>): (r: Result<seq<OntologyClassApi>, Error>)
    ensures r.Success? <==> forall k :: 0 <= k < |items| ==> ClassItemParses(items[k])
    ensures r.Success? ==> |r.value| == |items|
    ensures r.Success? ==> forall k :: 0 <= k < |items| ==> OntologyClassApiFromDict(items[k].fields) == Success(r.value[k])
  {
    if items == [] then Success([])
    else if !items[0].JObject? then Failure(ValidationError("ontology_classes_data"))
    else
      var head :- OntologyClassApiFromDict(items[0].fields);
      var tail :- ClassesApiFromJson(items[1..]);
      assert forall k :: 1 <= k < |items| ==> items[k] == items[1..][k - 1];
      Success([head] + tail)
  }

  const OntologyApiFields: set<string> := {"ontology_classes_data"}

  datatype OntologyApi = OntologyApi(base: Dict, classesData: Option<seq<OntologyClassApi>>)

  /** Validity is nested: every class's attributes. */
  predicate OntologyApiValid(o: OntologyApi) {
    o.classesData.Some? ==> forall k :: 0 <= k < |o.classesData.value| ==> OntologyClassApiValid(o.classesData.value[k])
  }

  function OntologyApiFromDict(m: Dict): (r: Result<OntologyApi, Error>)
    ensures r.Success? ==> OntologyApiValid(r.value)
    ensures r.Success? ==> r.value.base == m - OntologyApiFields
    ensures Get(m, "ontology_classes_data").JList? ==>
      (r.Success? <==> forall k :: 0 <= k < |m["ontology_classes_data"].items| ==> ClassItemParses(m["ontology_classes_data"].items[k]))
  {
    match Get(m, "ontology_classes_data")
    case JNull => Success(OntologyApi(m - OntologyApiFields, None))
    case JList(items) =>
      var classes :- ClassesApiFromJson(items);
      Success(OntologyApi(m - OntologyApiFields, Some(classes)))
    case _ => Failure(ValidationError("ontology_classes_data"))
  }

  /** An ontology is refused when one attribute of one of its classes is. */
  lemma NestedAttributeRefused(m: Dict, k: nat, j: nat)
    requires "ontology_classes_data" in m && m["ontology_classes_data"].JList?
    requires k < |m["ontology_classes_data"].items| && m["ontology_classes_data"].items[k].JObject?
    requires var c := m["ontology_classes_data"].items[k].fields;
      "attribute_data" in c && c["attribute_data"].JList? && j < |c["attribute_data"].items|
      && !AttributeItemParses(c["attribute_data"].items[j])
    ensures OntologyApiFromDict(m).Failure?
  {
    var c := m["ontology_classes_data"].items[k].fields;
    assert !ClassItemParses(m["ontology_classes_data"].items[k]);
  }

  function ClassesApiToJson(classes: seq<OntologyClassApi>): (r: seq<Json>)
    ensures |r| == |classes| && forall k :: 0 <= k < |classes| ==> r[k] == JObject(OntologyClassApiToDict(classes[k]))
  {
    seq(|classes|, k requires 0 <= k < |classes| => JObject(OntologyClassApiToDict(classes[k])))
  }

  function OntologyApiToDict(o: OntologyApi): Dict {
    var d := ExcludeNone(o.base);
    if o.classesData.Some? then d["ontology_classes_data" := JList(ClassesApiToJson(o.classesData.value))] else d
  }

  predicate OntologyApiWellFormed(o: OntologyApi) {
    && NoNulls(o.base) && o.base.Keys !! OntologyApiFields
    && (o.classesData.Some? ==> forall k :: 0 <= k < |o.classesData.value| ==> OntologyClassApiWellFormed(o.classesData.value[k]))
  }

  lemma {:induction false} ClassesApiRoundTrip(classes: seq<OntologyClassApi>)
    requires forall k :: 0 <= k < |classes| ==> OntologyClassApiWellFormed(classes[k]) && OntologyClassApiValid(classes[k])
    ensures ClassesApiFromJson(ClassesApiToJson(classes)) == Success(classes)
    decreases |classes|
  {
    var items := ClassesApiToJson(classes);
    if classes != [] {
      OntologyClassApiRoundTrip(classes[0]);
      ClassesApiRoundTrip(classes[1..]);
      assert items[1..] == ClassesApiToJson(classes[1..]);
      assert classes == [classes[0]] + classes[1..];
    }
  }

  /** A valid, well-formed ontology request read back from its `.dict(exclude_none=True)` is itself. */
  lemma OntologyApiRoundTrip(o: OntologyApi)
    requires OntologyApiWellFormed(o) && OntologyApiValid(o)
    ensures OntologyApiFromDict(OntologyApiToDict(o)) == Success(o)
  {
    var m := OntologyApiToDict(o);
    assert ExcludeNone(o.base) == o.base;
    assert m - OntologyApiFields == o.base;
    if o.classesData.Some? {
      ClassesApiRoundTrip(o.classesData.value);
    }
  }

  // ---------------------------------------------------------------------------
  // ProjectAPISchema

  datatype ProjectApi = ProjectApi(base: Dict, ontologyData: OntologyApi, sensorData: seq<Dict>)

  /** `ProjectAPISchema(name=…, ontology_data=…, sensor_data=…, description=…)`: the ontology is validated again. */
  function ProjectApiFromFields(name: string, ontologyData: Dict, sensorData: seq<Dict>, description: Option<string>): (r: Result<ProjectApi, Error>)
    ensures r.Success? <==> OntologyApiFromDict(ontologyData).Success?
    ensures r.Success? ==> r.value.ontologyData == OntologyApiFromDict(ontologyData).value && r.value.sensorData == sensorData
  {
    var ontology :- OntologyApiFromDict(ontologyData);
    Success(ProjectApi(map["name" := JStr(name), "description" := OptStrJson(description)], ontology, sensorData))
  }

  function ProjectApiToDict(p: ProjectApi): Dict {
    ExcludeNone(p.base)[
      "ontology_data" := JObject(OntologyApiToDict(p.ontologyData))][
      "sensor_data" := JList(seq(|p.sensorData|, k requires 0 <= k < |p.sensorData| => JObject(ExcludeNone(p.sensorData[k]))))]
  }
}
