/**
 * DataverseClient (client.py): creating a project from the client-side
 * records, and creating a dataset, uploading its local files in batches.
 * The backend is the `BackendApi` collaborator; the client passed in, or the
 * default connection when none is, is a nullable reference to it, null
 * standing for "no client given and no default connection registered".
 */
module Client {
  import opened Wrappers
  import opened Errors
  import opened Json
  import opened Common
  import opened ClientSchemas
  import opened ApiSchemas
  import opened Backend

  // ---------------------------------------------------------------------------
  // create_project: the ontology request, as reference functions

  /** The option values of an attribute, in order; none when it has no options. */
  function AttributeOptionValues(a: Attribute): (vs: seq<OptionValue>)
    ensures a.options.Some? ==> |vs| == |a.options.value|
    ensures a.options.Some? ==> forall k :: 0 <= k < |vs| ==> vs[k] == a.options.value[k].value
    ensures a.options.None? ==> vs == []
  {
    if a.options.None? then []
    else seq(|a.options.value|, k requires 0 <= k < |a.options.value| => a.options.value[k].value)
  }

  /**
   * The request entry of one attribute: its name and type, the option values
   * as `option_data` for an option attribute, the option records otherwise.
   */
  function AttributeRequest(a: Attribute): Dict {
    var d := map["name" := JStr(a.name), "type" := JStr(AttributeTypeWire(a.attrType))];
    if a.attrType == OptionType then d["option_data" := JList(OptionValuesJson(AttributeOptionValues(a)))]
    else if a.options.Some? then d["options" := JList(OptionDicts(a.options.value))]
    else d
  }

  function AttributeRequests(attrs: seq<Attribute>): (r: seq<Json>)
    ensures |r| == |attrs| && forall k :: 0 <= k < |attrs| ==> r[k] == JObject(AttributeRequest(attrs[k]))
  {
    seq(|attrs|, k requires 0 <= k < |attrs| => JObject(AttributeRequest(attrs[k])))
  }

  /** The request entry of a class at a given position rank: attributes only when there are some. */
  function ClassRequest(c: OntologyClass, rank: int): Dict {
    var d := map["name" := JStr(c.name), "color" := JStr(c.color), "rank" := JInt(rank)];
    if c.attributes.Some? && c.attributes.value != [] then d["attribute_data" := JList(AttributeRequests(c.attributes.value))]
    else d
  }

  /** The classes in their order, ranked 1, 2, … by position. */
  function ClassRequests(cs: seq<OntologyClass>): (r: seq<Json>)
    ensures |r| == |cs| && forall k :: 0 <= k < |cs| ==> r[k] == JObject(ClassRequest(cs[k], k + 1))
  {
    seq(|cs|, k requires 0 <= k < |cs| => JObject(ClassRequest(cs[k], k + 1)))
  }

  /** The ontology's `.dict(exclude_none=True)` with `classes` replaced by `ontology_classes_data`. */
  function OntologyRequest(o: Ontology): Dict {
    (OntologyDict(o) - {"classes"})["ontology_classes_data" := JList(ClassRequests(ClassesOf(o)))]
  }

  predicate OptionItems(items: seq<Json>) {
    forall k :: 0 <= k < |items| ==> items[k].JObject? && "value" in items[k].fields
  }

  /** `[opt_data["value"] for opt_data in items]` */
  function ValuesOf(items: seq<Json>): (r: seq<Json>)
    requires OptionItems(items)
    ensures |r| == |items| && forall k :: 0 <= k < |items| ==> r[k] == items[k].fields["value"]
  {
    seq(|items|, k requires 0 <= k < |items| && OptionItems(items) => items[k].fields["value"])
  }

  /**
   * The comprehension over `attr.pop("options", [])` collects exactly the
   * attribute's option values, in order, as JSON.
   */
  lemma ValuesOfOptionDicts(a: Attribute)
    ensures var items := if a.options.Some? then OptionDicts(a.options.value) else [];
      OptionItems(items) && ValuesOf(items) == OptionValuesJson(AttributeOptionValues(a))
  {
  }

  /**
   * The loop body for one attribute turns its `.dict(exclude_none=True)` into
   * its request entry: without `id`, a non-option attribute is kept as it is,
   * and an option attribute has `options` replaced by the list of their values.
   */
  lemma AttributeRewrite(a: Attribute)
    ensures var d := AttributeDict(a) - {"id"};
      && "type" in d
      && (d["type"] == JStr("option") <==> a.attrType == OptionType)
      && (d["type"] != JStr("option") ==> d == AttributeRequest(a))
      && (d["type"] == JStr("option") ==>
            && ("options" in d ==> d["options"].JList? && OptionItems(d["options"].items))
            && var items := if "options" in d then d["options"].items else [];
               (d - {"options"})["option_data" := JList(ValuesOf(items))] == AttributeRequest(a))
  {
    WireIsOption(a.attrType);
    var d := AttributeDict(a) - {"id"};
    if a.attrType == OptionType {
      ValuesOfOptionDicts(a);
    }
  }

  /**
   * The loop body for one class turns its `.dict(exclude_none=True)` into its
   * request entry at the given rank: without `id`, re-ranked, and with
   * `attributes` dropped, or replaced by `attribute_data` when non-empty.
   */
  lemma ClassRewrite(c: OntologyClass, rank: int)
    ensures var d := (ClassDict(c) - {"id"})["rank" := JInt(rank)];
      var attrs := if "attributes" in d then d["attributes"] else JNull;
      && (!Truthy(attrs) ==> d - {"attributes"} == ClassRequest(c, rank))
      && (Truthy(attrs) ==>
            && c.attributes.Some? && attrs == JList(AttributeDicts(c.attributes.value))
            && (d - {"attributes"})["attribute_data" := JList(AttributeRequests(c.attributes.value))] == ClassRequest(c, rank))
  {
  }

  /** The inner loop of create_project, over the attributes of one class. */
  method RewriteAttributes(curAttrs: seq<Json>, ghost attrs: seq<Attribute>) returns (newAttributeList: seq<Json>)
    requires curAttrs == AttributeDicts(attrs)
    ensures newAttributeList == AttributeRequests(attrs)
  {
    newAttributeList := [];
    for j := 0 to |curAttrs|
      invariant newAttributeList == AttributeRequests(attrs)[..j]
    {
      AttributeRewrite(attrs[j]);
      assert AttributeRequests(attrs)[..j + 1] == AttributeRequests(attrs)[..j] + [JObject(AttributeRequest(attrs[j]))];
      var attr := curAttrs[j].fields;
      attr := attr - {"id"};
      if attr["type"] != JStr("option") {
        newAttributeList := newAttributeList + [JObject(attr)];
        continue;
      }
      var options := if "options" in attr then attr["options"] else JList([]);
      attr := attr - {"options"};
      attr := attr["option_data" := JList(ValuesOf(options.items))];
      newAttributeList := newAttributeList + [JObject(attr)];
    }
    assert AttributeRequests(attrs)[..|curAttrs|] == AttributeRequests(attrs);
  }

  /** One pass of the class loop of create_project: the class dict rewritten into its request entry at `rank`. */
  method RewriteClass(cls: Dict, rank: int, ghost c: OntologyClass) returns (entry: Json, next: int)
    requires cls == ClassDict(c)
    ensures entry == JObject(ClassRequest(c, rank)) && next == rank + 1
  {
    ClassRewrite(c, rank);
    var d := cls - {"id"};
    next := rank;
    if IntKey(rank) !in KeySet(d) {
      d := d["rank" := JInt(rank)];
      next := rank + 1;
    }
    var curAttrs := if "attributes" in d then d["attributes"] else JNull;
    d := d - {"attributes"};
    if !Truthy(curAttrs) {
      return JObject(d), next;
    }
    var newAttributeList := RewriteAttributes(curAttrs.items, c.attributes.value);
    d := d["attribute_data" := JList(newAttributeList)];
    entry := JObject(d);
  }

  /**
   * The transformation loop of create_project: every class loses its `id`, is
   * ranked by position, and its attributes are rewritten one by one.
   */
  method BuildOntologyData(ontology: Ontology) returns (raw: Dict)
    ensures raw == OntologyRequest(ontology)
  {
    raw := OntologyDict(ontology);
    var classes := if "classes" in raw then raw["classes"] else JList([]);
    raw := raw - {"classes"};
    ghost var cs := ClassesOf(ontology);
    assert classes == JList(ClassDicts(cs));
    var classesDataList: seq<Json> := [];
    var rank := 1;
    for i := 0 to |classes.items|
      invariant rank == i + 1
      invariant classesDataList == ClassRequests(cs)[..i]
    {
      assert ClassRequests(cs)[..i + 1] == ClassRequests(cs)[..i] + [JObject(ClassRequest(cs[i], rank))];
      var entry;
      entry, rank := RewriteClass(classes.items[i].fields, rank, cs[i]);
      classesDataList := classesDataList + [entry];
    }
    assert ClassRequests(cs)[..|classes.items|] == ClassRequests(cs);
    raw := raw["ontology_classes_data" := JList(classesDataList)];
  }

  // ---------------------------------------------------------------------------
  // create_project: what the request says

  /** No class and no attribute of the request carries an `id`, and ranks count positions from 1. */
  lemma RequestIdsRemovedAndRanked(o: Ontology)
    ensures "ontology_classes_data" in OntologyRequest(o) && "classes" !in OntologyRequest(o)
    ensures var items := OntologyRequest(o)["ontology_classes_data"].items;
      && |items| == |ClassesOf(o)|
      && forall k :: 0 <= k < |items| ==>
           && "id" !in items[k].fields
           && items[k].fields["rank"] == JInt(k + 1)
           && items[k].fields["name"] == JStr(ClassesOf(o)[k].name)
           && items[k].fields["color"] == JStr(ClassesOf(o)[k].color)
  {
  }

  /** A class's request lists its attributes, in order and without ids, exactly when it has some. */
  lemma ClassAttributesCarried(c: OntologyClass, rank: int)
    ensures "attribute_data" in ClassRequest(c, rank) <==> c.attributes.Some? && |c.attributes.value| > 0
    ensures "attributes" !in ClassRequest(c, rank) && "id" !in ClassRequest(c, rank)
    ensures "attribute_data" in ClassRequest(c, rank) ==>
      var items := ClassRequest(c, rank)["attribute_data"].items;
      && |items| == |c.attributes.value|
      && forall k :: 0 <= k < |items| ==> "id" !in items[k].fields && items[k].fields["name"] == JStr(c.attributes.value[k].name)
  {
  }

  /** A non-option attribute's entry is its record's dict without `id`, unchanged otherwise. */
  lemma NonOptionAttributeKept(a: Attribute)
    requires a.attrType != OptionType
    ensures AttributeRequest(a) == AttributeDict(a) - {"id"}
  {
    AttributeRewrite(a);
  }

  /**
   * An option attribute's entry is its record's dict without `id`, with the
   * option records replaced by `option_data`: their values, in their order.
   */
  lemma OptionAttributeRewritten(a: Attribute)
    requires a.attrType == OptionType
    ensures AttributeRequest(a) == (AttributeDict(a) - {"id", "options"})["option_data" := JList(OptionValuesJson(AttributeOptionValues(a)))]
    ensures a.options.Some? ==> |AttributeRequest(a)["option_data"].items| == |a.options.value|
    ensures a.options.Some? ==> forall k :: 0 <= k < |a.options.value| ==>
      AttributeRequest(a)["option_data"].items[k] == OptionValueJson(a.options.value[k].value)
  {
    assert AttributeDict(a) - {"id", "options"} == map["name" := JStr(a.name), "type" := JStr("option")];
  }

  // ---------------------------------------------------------------------------
  // create_project: the request passes the API schemas

  /** A valid attribute's entry is accepted by AttributeAPISchema, with its type and option values. */
  lemma AttributeRequestAccepted(a: Attribute)
    requires AttributeValid(a)
    ensures var r := AttributeApiFromDict(AttributeRequest(a));
      && r.Success? && AttributeApiWellFormed(r.value)
      && r.value.attrType == a.attrType
      && r.value.optionData == (if a.attrType == OptionType then Some(AttributeOptionValues(a)) else None)
  {
    AttributeTypeWireRoundTrip(a.attrType);
    OptionValuesJsonRoundTrip(AttributeOptionValues(a));
  }

  /** A class whose attributes are valid has its entry accepted by OntologyClassAPISchema. */
  lemma ClassRequestAccepted(c: OntologyClass, rank: int)
    requires AttributesValid(c.attributes)
    ensures var r := OntologyClassApiFromDict(ClassRequest(c, rank));
      && r.Success? && OntologyClassApiWellFormed(r.value)
      && (r.value.attributeData.Some? <==> c.attributes.Some? && |c.attributes.value| > 0)
      && (r.value.attributeData.Some? ==>
            && |r.value.attributeData.value| == |c.attributes.value|
            && forall k :: 0 <= k < |c.attributes.value| ==>
                 r.value.attributeData.value[k].attrType == c.attributes.value[k].attrType)
  {
    var m := ClassRequest(c, rank);
    if c.attributes.Some? && c.attributes.value != [] {
      var attrs := c.attributes.value;
      var items := AttributeRequests(attrs);
      forall k | 0 <= k < |items| ensures AttributeItemParses(items[k]) {
        AttributeRequestAccepted(attrs[k]);
      }
      var parsed := AttributesApiFromJson(items);
      forall k | 0 <= k < |attrs|
        ensures AttributeApiWellFormed(parsed.value[k]) && parsed.value[k].attrType == attrs[k].attrType
      {
        AttributeRequestAccepted(attrs[k]);
      }
    }
  }

  /** The class entries of classes with valid attributes all parse, each one well formed. */
  lemma ClassRequestsParse(cs: seq<OntologyClass>)
    requires forall k :: 0 <= k < |cs| ==> AttributesValid(cs[k].attributes)
    ensures var r := ClassesApiFromJson(ClassRequests(cs));
      && r.Success? && |r.value| == |cs|
      && forall k :: 0 <= k < |cs| ==> OntologyClassApiWellFormed(r.value[k])
  {
    var items := ClassRequests(cs);
    forall k | 0 <= k < |items| ensures ClassItemParses(items[k]) {
      ClassRequestAccepted(cs[k], k + 1);
    }
    var parsed := ClassesApiFromJson(items);
    forall k | 0 <= k < |cs| ensures OntologyClassApiWellFormed(parsed.value[k]) {
      ClassRequestAccepted(cs[k], k + 1);
    }
  }

  /** An ontology whose attributes are all valid has its request accepted by OntologyAPISchema, class for class. */
  lemma OntologyRequestAccepted(o: Ontology)
    requires forall k :: 0 <= k < |ClassesOf(o)| ==> AttributesValid(ClassesOf(o)[k].attributes)
    ensures var r := OntologyApiFromDict(OntologyRequest(o));
      && r.Success? && OntologyApiWellFormed(r.value) && OntologyApiValid(r.value)
      && r.value.classesData.Some? && |r.value.classesData.value| == |ClassesOf(o)|
  {
    var m := OntologyRequest(o);
    OntologyRequestShape(o);
    ClassRequestsParse(ClassesOf(o));
    var classes := ClassesApiFromJson(ClassRequests(ClassesOf(o))).value;
    assert OntologyApiFromDict(m) == Success(OntologyApi(m - OntologyApiFields, Some(classes)));
  }

  /** The request holds the rewritten classes under `ontology_classes_data`, and no null elsewhere. */
  lemma OntologyRequestShape(o: Ontology)
    ensures var m := OntologyRequest(o);
      && Get(m, "ontology_classes_data") == JList(ClassRequests(ClassesOf(o)))
      && NoNulls(m - OntologyApiFields) && (m - OntologyApiFields).Keys !! OntologyApiFields
  {
    var m := OntologyRequest(o);
    var base := m - OntologyApiFields;
    assert base == OntologyDict(o) - {"classes"};
  }

  // ---------------------------------------------------------------------------
  // create_project: the call

  /** The keyword arguments of the backend's create_project call, or the error raised while composing them. */
  function ProjectRequest(name: string, ontology: Ontology, sensors: seq<Sensor>, description: Option<string>): Result<Dict, Error> {
    var ontologyApi :- OntologyApiFromDict(OntologyRequest(ontology));
    var sensorData := seq(|sensors|, k requires 0 <= k < |sensors| => SensorDict(sensors[k]));
    var project := ProjectApiFromFields(name, OntologyApiToDict(ontologyApi), sensorData, description);
    if project.Failure? then Failure(ValidationError("project")) else Success(ProjectApiToDict(project.value))
  }

  /**
   * For a valid ontology the request is always composed: the schema check
   * inside create_project cannot fail, and the request holds the name, the
   * validated ontology and one entry per sensor.
   */
  lemma ValidOntologyComposesRequest(name: string, ontology: Ontology, sensors: seq<Sensor>, description: Option<string>)
    requires OntologyValid(ontology)
    ensures var r := ProjectRequest(name, ontology, sensors, description);
      && r.Success?
      && "name" in r.value && "ontology_data" in r.value && "sensor_data" in r.value && r.value["sensor_data"].JList?
      && r.value["name"] == JStr(name)
      && r.value["ontology_data"] == JObject(OntologyApiToDict(OntologyApiFromDict(OntologyRequest(ontology)).value))
      && |r.value["sensor_data"].items| == |sensors|
      && forall k :: 0 <= k < |sensors| ==> r.value["sensor_data"].items[k] == JObject(SensorDict(sensors[k]))
  {
    assert forall k :: 0 <= k < |ClassesOf(ontology)| ==> AttributesValid(ClassesOf(ontology)[k].attributes);
    OntologyRequestAccepted(ontology);
    var o := OntologyApiFromDict(OntologyRequest(ontology)).value;
    OntologyApiRoundTrip(o);
    var sensorData := seq(|sensors|, k requires 0 <= k < |sensors| => SensorDict(sensors[k]));
    var base := map["name" := JStr(name), "description" := OptStrJson(description)];
    assert ProjectApiFromFields(name, OntologyApiToDict(o), sensorData, description) == Success(ProjectApi(base, o, sensorData));
    ProjectPayload(name, description, o, sensors);
  }

  /** The payload of a ProjectAPISchema record built from a name, a validated ontology and the sensors' dicts. */
  lemma ProjectPayload(name: string, description: Option<string>, o: OntologyApi, sensors: seq<Sensor>)
    ensures var base := map["name" := JStr(name), "description" := OptStrJson(description)];
      var sensorData := seq(|sensors|, k requires 0 <= k < |sensors| => SensorDict(sensors[k]));
      var payload := ProjectApiToDict(ProjectApi(base, o, sensorData));
      && "name" in payload && "ontology_data" in payload && "sensor_data" in payload && payload["sensor_data"].JList?
      && payload["name"] == JStr(name)
      && payload["ontology_data"] == JObject(OntologyApiToDict(o))
      && |payload["sensor_data"].items| == |sensors|
      && forall k :: 0 <= k < |sensors| ==> payload["sensor_data"].items[k] == JObject(SensorDict(sensors[k]))
  {
    var base := map["name" := JStr(name), "description" := OptStrJson(description)];
    assert "name" in ExcludeNone(base) && ExcludeNone(base)["name"] == JStr(name);
    SensorDictsKept(sensors);
  }

  /** Sensor dicts hold no nulls, so the request's `.dict(exclude_none=True)` keeps them whole. */
  lemma SensorDictsKept(sensors: seq<Sensor>)
    ensures forall k :: 0 <= k < |sensors| ==> ExcludeNone(SensorDict(sensors[k])) == SensorDict(sensors[k])
  {
    forall k | 0 <= k < |sensors| ensures ExcludeNone(SensorDict(sensors[k])) == SensorDict(sensors[k]) {
      ExcludeNoneKeeps(SensorDict(sensors[k]));
    }
  }

  /** What create_project makes of the backend's answer: the returned dict, or a connection error. */
  function ProjectResponse(resp: Response): (r: Result<Dict, Error>)
    ensures resp.Returned? <==> r.Success?
    ensures resp.Returned? ==> r.value == resp.body
    ensures resp.Raised? ==> r.error == ClientConnectionError
  {
    if resp.Raised? then Failure(ClientConnectionError) else Success(resp.body)
  }

  /**
   * create_project: the request is composed and sent once; nothing is sent
   * when it cannot be composed. The answer is returned as a dict
   * (`Project.create` is not part of this model).
   */
  method CreateProject(client: BackendApi?, name: string, ontology: Ontology, sensors: seq<Sensor>, description: Option<string>)
    returns (r: Result<Dict, Error>)
    modifies client
    ensures client == null ==> r == Failure(KeyError("default"))
    ensures client != null ==>
      var req := ProjectRequest(name, ontology, sensors, description);
      && (req.Failure? ==> r == Failure(req.error) && client.trace == old(client.trace))
      && (req.Success? ==>
            && client.trace == old(client.trace) + [CreateProjectCall(req.value)]
            && r == ProjectResponse(client.server(old(client.trace), CreateProjectCall(req.value))))
  {
    if client == null {
      return Failure(KeyError("default"));
    }
    var rawOntologyData := BuildOntologyData(ontology);
    var ontologyApi := OntologyApiFromDict(rawOntologyData);
    if ontologyApi.Failure? {
      return Failure(ontologyApi.error);
    }
    var ontologyData := OntologyApiToDict(ontologyApi.value);
    var sensorData := seq(|sensors|, k requires 0 <= k < |sensors| => SensorDict(sensors[k]));
    var project := ProjectApiFromFields(name, ontologyData, sensorData, description);
    if project.Failure? {
      return Failure(ValidationError("project"));
    }
    var rawProjectData := ProjectApiToDict(project.value);
    var projectData := client.Send(CreateProjectCall(rawProjectData));
    if projectData.Raised? {
      return Failure(ClientConnectionError);
    }
    return Success(projectData.body);
  }
}
