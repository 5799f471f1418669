/**
 * The client-side records of schemas/client.py: attributes and their options,
 * sensors, ontology classes (with the colour rule), ontologies, the data
 * source enum, the open records DataConfig and Dataset, and Project.
 * Every record is an immutable value; a `Valid` predicate states what
 * pydantic has checked of a constructed value.
 */
module ClientSchemas {
  import opened Wrappers
  import opened Errors
  import opened Json
  import opened Common

  // ---------------------------------------------------------------------------
  // Attributes

  /** `Union[str, float, int, bool]`, without pydantic's coercion between the kinds. */
  datatype OptionValue = Str(s: string) | Int(i: int) | Bool(b: bool) | Num(r: real)

  datatype AttributeOption = AttributeOption(id: Option<int>, value: OptionValue)

  datatype Attribute = Attribute(
    id: Option<int>,
    name: string,
    options: Option<seq<AttributeOption>>,
    attrType: AttributeType)

  /** The cross-field rule: an option-typed attribute carries at least one option. */
  predicate OptionsRule(t: AttributeType, options: Option<seq<AttributeOption>>) {
    t == OptionType ==> options.Some? && |options.value| >= 1
  }

  predicate AttributeValid(a: Attribute) {
    OptionsRule(a.attrType, a.options)
  }

  /**
   * `Attribute.option_data_validator`: `options` is parsed before `type`, so
   * the validator sees it; `not values.get("options")` holds for a missing
   * and for an empty list.
   */
  function OptionDataValidator(value: AttributeType, options: Option<seq<AttributeOption>>): (r: Result<AttributeType, Error>)
    ensures r.Success? <==> OptionsRule(value, options)
    ensures r.Success? ==> r.value == value
    ensures r.Failure? ==> r.error == ValidationError("type")
  {
    var present := options.Some? && options.value != [];
    if value == OptionType && !present then Failure(ValidationError("type")) else Success(value)
  }

  /** Constructing an Attribute: the record exists exactly when the validator accepts. */
  function NewAttribute(id: Option<int>, name: string, options: Option<seq<AttributeOption>>, t: AttributeType): (r: Result<Attribute, Error>)
    ensures r.Success? <==> AttributeValid(Attribute(id, name, options, t))
    ensures r.Success? ==> r.value == Attribute(id, name, options, t)
  {
    var ty :- OptionDataValidator(t, options);
    Success(Attribute(id, name, options, ty))
  }

  /** Any type but option is accepted with or without options, and the type comes back unchanged. */
  lemma NonOptionAccepted(t: AttributeType, options: Option<seq<AttributeOption>>)
    requires t != OptionType
    ensures OptionDataValidator(t, options) == Success(t)
  {
  }

  /** An option attribute without options, or with an empty list, is refused. */
  lemma OptionWithoutOptionsRefused(options: Option<seq<AttributeOption>>)
    requires options.None? || options == Some([])
    ensures OptionDataValidator(OptionType, options).Failure?
  {
  }

  // ---------------------------------------------------------------------------
  // Sensors

  datatype Sensor = Sensor(id: Option<int>, name: string, sensorType: SensorType)

  // ---------------------------------------------------------------------------
  // Ontology classes and the colour rule

  predicate IsAsciiAlnum(ch: char) {
    ('a' <= ch <= 'z') || ('A' <= ch <= 'Z') || ('0' <= ch <= '9')
  }

  /** A regex word character: an ASCII letter, digit or underscore. */
  predicate IsWordChar(ch: char) {
    IsAsciiAlnum(ch) || ch == '_'
  }

  /** `\b` at position k of t: a word character on exactly one side. */
  predicate AtWordBoundary(t: string, k: nat)
    requires k <= |t|
  {
    (k > 0 && IsWordChar(t[k - 1])) != (k < |t| && IsWordChar(t[k]))
  }

  /** `\b[a-zA-Z0-9]{6}\b` matches t at position i. */
  predicate SixRunAt(t: string, i: nat) {
    && i + 6 <= |t|
    && AtWordBoundary(t, i)
    && (forall k :: i <= k < i + 6 ==> IsAsciiAlnum(t[k]))
    && AtWordBoundary(t, i + 6)
  }

  /** `s.lstrip("#")`: the suffix of s after its leading run of '#'. */
  function LStripHash(s: string): (r: string)
    ensures |r| <= |s| && r == s[|s| - |r|..]
    ensures r == [] || r[0] != '#'
    ensures forall k :: 0 <= k < |s| - |r| ==> s[k] == '#'
  {
    if s != [] && s[0] == '#' then LStripHash(s[1..]) else s
  }

  /** The colour rule of the validator: a leading '#', and the pattern found after all leading '#'. */
  ghost predicate ColorValid(s: string) {
    |s| > 0 && s[0] == '#' && exists i: nat :: SixRunAt(LStripHash(s), i)
  }

  /** `re.search` for the colour pattern, scanning from position `from`: the leftmost match. */
  function FindSixRun(t: string, from: nat): (r: Option<nat>)
    ensures r.Some? ==> from <= r.value && SixRunAt(t, r.value)
    ensures r.Some? ==> forall i :: from <= i < r.value ==> !SixRunAt(t, i)
    ensures r.None? ==> forall i: nat :: from <= i ==> !SixRunAt(t, i)
    decreases |t| - from
  {
    if from + 6 > |t| then None
    else if SixRunAt(t, from) then Some(from)
    else FindSixRun(t, from + 1)
  }

  /** `OntologyClass.color_validator`: accepts exactly the valid colours and returns them unchanged. */
  function ColorValidator(value: string): (r: Result<string, Error>)
    ensures r.Success? <==> ColorValid(value)
    ensures r.Success? ==> r.value == value
    ensures r.Failure? ==> r.error == ValidationError("color")
  {
    var startsWithHash := |value| > 0 && value[0] == '#';
    if !startsWithHash || FindSixRun(LStripHash(value), 0).None? then Failure(ValidationError("color"))
    else Success(value)
  }

  /** A colour that does not start with '#' is refused, whatever follows. */
  lemma ColorNeedsHash(s: string)
    requires s == [] || s[0] != '#'
    ensures ColorValidator(s).Failure?
  {
  }

  /** A colour is accepted once its '#' and a run after the stripped '#' are exhibited. */
  lemma ColorFromRun(s: string, t: string, i: nat)
    requires |s| > 0 && s[0] == '#' && LStripHash(s) == t && SixRunAt(t, i)
    ensures ColorValidator(s) == Success(s)
  {
  }

  /** A colour is refused once the scan after the stripped '#' finds no run. */
  lemma ColorWithoutRun(s: string, t: string)
    requires LStripHash(s) == t && FindSixRun(t, 0).None?
    ensures ColorValidator(s).Failure?
  {
  }

  /** Stripping a run of n leading '#' leaves the rest. */
  lemma {:induction false} StripHashes(s: string, n: nat)
    requires n <= |s| && (forall k :: 0 <= k < n ==> s[k] == '#') && (n == |s| || s[n] != '#')
    ensures LStripHash(s) == s[n..]
    decreases n
  {
    if n > 0 {
      StripHashes(s[1..], n - 1);
      assert s[1..][n - 1..] == s[n..];
    }
  }

  /** Any number of leading '#', at least one, then six alphanumerics make a colour. */
  lemma HashesThenSix(s: string, n: nat)
    requires 1 <= n && |s| == n + 6
    requires forall k :: 0 <= k < n ==> s[k] == '#'
    requires forall k :: n <= k < n + 6 ==> IsAsciiAlnum(s[k])
    ensures ColorValidator(s) == Success(s)
  {
    StripHashes(s, n);
    var t := s[n..];
    assert forall k :: 0 <= k < 6 ==> t[k] == s[n + k];
    ColorFromRun(s, t, 0);
  }

  /** Worked cases: one leading '#' or several, followed by six alphanumerics. */
  lemma ColorAccepted()
    ensures ColorValidator("#AABBCC") == Success("#AABBCC")
    ensures ColorValidator("##AABBCC") == Success("##AABBCC")
  {
    HashesThenSix("#AABBCC", 1);
    HashesThenSix("##AABBCC", 2);
  }

  /** A worked case: too short a run is refused. */
  lemma {:induction false} ColorTooShort()
    ensures ColorValidator("#ABC").Failure?
  {
    var s := "#ABC";
    var t := s[1..];
    assert LStripHash(t) == t by { assert t[0] == 'A'; }
    assert LStripHash(s) == t by { assert s[0] == '#'; }
    assert FindSixRun(t, 0).None? by { assert |t| == 3; }
    ColorWithoutRun(s, t);
  }

  /** A worked case: seven alphanumerics hold no run of six between word boundaries. */
  lemma {:induction false} ColorTooLong()
    ensures ColorValidator("#AABBCCD").Failure?
  {
    var s := "#AABBCCD";
    var t := s[1..];
    assert LStripHash(t) == t by { assert t[0] == 'A'; }
    assert LStripHash(s) == t by { assert s[0] == '#'; }
    assert FindSixRun(t, 0).None? by {
      assert FindSixRun(t, 2).None? by { assert |t| == 7; }
      assert !SixRunAt(t, 1) by { assert !AtWordBoundary(t, 1); }
      assert !SixRunAt(t, 0) by { assert !AtWordBoundary(t, 6); }
    }
    ColorWithoutRun(s, t);
  }

  /** A worked case: six alphanumerics without the leading '#' are refused. */
  lemma ColorWithoutHash()
    ensures ColorValidator("AABBCC").Failure?
  {
    ColorNeedsHash("AABBCC");
  }

  /** A worked case: an underscore is a word character, so no boundary follows the run. */
  lemma {:induction false} ColorUnderscoreAfter()
    ensures ColorValidator("#AABBCC_").Failure?
  {
    var s := "#AABBCC_";
    var t := s[1..];
    assert LStripHash(t) == t by { assert t[0] == 'A'; }
    assert LStripHash(s) == t by { assert s[0] == '#'; }
    assert FindSixRun(t, 0).None? by {
      assert FindSixRun(t, 2).None? by { assert |t| == 7; }
      assert !SixRunAt(t, 1) by { assert !AtWordBoundary(t, 1); }
      assert !SixRunAt(t, 0) by { assert !AtWordBoundary(t, 6); }
    }
    ColorWithoutRun(s, t);
  }

  /** A worked case: any alphanumerics pass, not only hexadecimal digits. */
  lemma ColorNotOnlyHex()
    ensures ColorValidator("#GGGGGG").Success?
  {
    HashesThenSix("#GGGGGG", 1);
  }

  /** A worked case: the pattern may be followed by more text after a non-word character. */
  lemma {:induction false} ColorTrailingText()
    ensures ColorValidator("#AABBCC xy").Success?
  {
    var s := "#AABBCC xy";
    var t := s[1..];
    assert LStripHash(t) == t by { assert t[0] == 'A'; }
    assert LStripHash(s) == t by { assert s[0] == '#'; }
    RunBeforeSpace();
    assert t == "AABBCC xy";
    ColorFromRun(s, t, 0);
  }

  /** The run of ColorTrailingText: six alphanumerics before a space. */
  lemma {:induction false} RunBeforeSpace()
    ensures SixRunAt("AABBCC xy", 0)
  {
    var t := "AABBCC xy";
    assert t[6] == ' ';
    assert AtWordBoundary(t, 0) && AtWordBoundary(t, 6);
    assert forall k :: 0 <= k < 6 ==> IsAsciiAlnum(t[k]);
  }

  /** A worked case: the pattern may be preceded by other text ending in a non-word character. */
  lemma {:induction false} ColorLeadingText()
    ensures ColorValidator("#xy-AABBCC").Success?
  {
    var s := "#xy-AABBCC";
    var t := s[1..];
    assert LStripHash(t) == t by { assert t[0] == 'x'; }
    assert LStripHash(s) == t by { assert s[0] == '#'; }
    RunAfterDash();
    assert t == "xy-AABBCC";
    ColorFromRun(s, t, 3);
  }

  /** The run of ColorLeadingText: six alphanumerics after a '-'. */
  lemma {:induction false} RunAfterDash()
    ensures SixRunAt("xy-AABBCC", 3)
  {
    var t := "xy-AABBCC";
    assert t[2] == '-';
    assert AtWordBoundary(t, 3) && AtWordBoundary(t, 9);
    assert forall k :: 3 <= k < 9 ==> IsAsciiAlnum(t[k]);
  }

  datatype OntologyClass = OntologyClass(
    id: Option<int>,
    name: string,
    color: string,
    rank: int,
    attributes: Option<seq<Attribute>>)

  predicate AttributesValid(attrs: Option<seq<Attribute>>) {
    attrs.Some? ==> forall k :: 0 <= k < |attrs.value| ==> AttributeValid(attrs.value[k])
  }

  ghost predicate OntologyClassValid(c: OntologyClass) {
    ColorValid(c.color) && AttributesValid(c.attributes)
  }

  /** Constructing an OntologyClass from already constructed attributes: only the colour is checked. */
  function NewOntologyClass(id: Option<int>, name: string, color: string, rank: int, attributes: Option<seq<Attribute>>): (r: Result<OntologyClass, Error>)
    requires AttributesValid(attributes)
    ensures r.Success? <==> OntologyClassValid(OntologyClass(id, name, color, rank, attributes))
    ensures r.Success? ==> r.value == OntologyClass(id, name, color, rank, attributes)
  {
    var c :- ColorValidator(color);
    Success(OntologyClass(id, name, c, rank, attributes))
  }

  // ---------------------------------------------------------------------------
  // Ontologies

  datatype Ontology = Ontology(
    id: Option<int>,
    name: string,
    imageType: Option<OntologyImageType>,
    pcdType: Option<OntologyPcdType>,
    classes: Option<seq<OntologyClass>>)

  /** The classes of an ontology, none when the field is absent. */
  function ClassesOf(o: Ontology): seq<OntologyClass> {
    if o.classes.Some? then o.classes.value else []
  }

  /** Validity is nested: every class, and through it every attribute. */
  ghost predicate OntologyValid(o: Ontology) {
    forall k :: 0 <= k < |ClassesOf(o)| ==> OntologyClassValid(ClassesOf(o)[k])
  }

  /** One invalid class makes the whole ontology invalid. */
  lemma InvalidClassInvalidatesOntology(o: Ontology, k: nat)
    requires k < |ClassesOf(o)| && !OntologyClassValid(ClassesOf(o)[k])
    ensures !OntologyValid(o)
  {
  }

  // ---------------------------------------------------------------------------
  // `.dict(exclude_none=True)` of the records, as create_project takes them

  function OptionValueJson(v: OptionValue): Json {
    match v
    case Str(s) => JStr(s)
    case Int(i) => JInt(i)
    case Bool(b) => JBool(b)
    case Num(r) => JNum(r)
  }

  /** Adds `key: value` unless the value is `None`. */
  function PutSome(d: Dict, key: string, value: Json): Dict {
    if value == JNull then d else d[key := value]
  }

  function OptionDict(o: AttributeOption): Dict {
    PutSome(map["value" := OptionValueJson(o.value)], "id", OptIntJson(o.id))
  }

  function OptionDicts(os: seq<AttributeOption>): (r: seq<Json>)
    ensures |r| == |os| && forall k :: 0 <= k < |os| ==> r[k] == JObject(OptionDict(os[k]))
    ensures forall k :: 0 <= k < |r| ==> NullFree(r[k])
  {
    seq(|os|, k requires 0 <= k < |os| => JObject(OptionDict(os[k])))
  }

  function AttributeDict(a: Attribute): Dict {
    var d := map["name" := JStr(a.name), "type" := JStr(AttributeTypeWire(a.attrType))];
    var d := PutSome(d, "id", OptIntJson(a.id));
    if a.options.Some? then d["options" := JList(OptionDicts(a.options.value))] else d
  }

  function AttributeDicts(attrs: seq<Attribute>): (r: seq<Json>)
    ensures |r| == |attrs| && forall k :: 0 <= k < |attrs| ==> r[k] == JObject(AttributeDict(attrs[k]))
    ensures forall k :: 0 <= k < |r| ==> NullFree(r[k])
  {
    seq(|attrs|, k requires 0 <= k < |attrs| => JObject(AttributeDict(attrs[k])))
  }

  function ClassDict(c: OntologyClass): Dict {
    var d := map["name" := JStr(c.name), "color" := JStr(c.color), "rank" := JInt(c.rank)];
    var d := PutSome(d, "id", OptIntJson(c.id));
    if c.attributes.Some? then d["attributes" := JList(AttributeDicts(c.attributes.value))] else d
  }

  function ClassDicts(cs: seq<OntologyClass>): (r: seq<Json>)
    ensures |r| == |cs| && forall k :: 0 <= k < |cs| ==> r[k] == JObject(ClassDict(cs[k]))
    ensures forall k :: 0 <= k < |r| ==> NullFree(r[k])
  {
    seq(|cs|, k requires 0 <= k < |cs| => JObject(ClassDict(cs[k])))
  }

  function OntologyDict(o: Ontology): Dict {
    var d := map["name" := JStr(o.name)];
    var d := PutSome(d, "id", OptIntJson(o.id));
    var d := if o.imageType.Some? then d["image_type" := JStr(OntologyImageTypeWire(o.imageType.value))] else d;
    var d := if o.pcdType.Some? then d["pcd_type" := JStr(OntologyPcdTypeWire(o.pcdType.value))] else d;
    if o.classes.Some? then d["classes" := JList(ClassDicts(o.classes.value))] else d
  }

  function SensorDict(s: Sensor): Dict {
    PutSome(map["name" := JStr(s.name), "type" := JStr(SensorTypeWire(s.sensorType))], "id", OptIntJson(s.id))
  }

  // ---------------------------------------------------------------------------
  // Data sources

  datatype DataSource = Azure | Aws | Sdk

  function DataSourceWire(d: DataSource): string {
    match d
    case Azure => "azure"
    case Aws => "aws"
    case Sdk => "sdk"
  }

  /** Membership in the enum: exactly the three wire values name a member. */
  function DataSourceFromWire(s: string): (r: Option<DataSource>)
    ensures r.Some? <==> s in {"azure", "aws", "sdk"}
    ensures r.Some? ==> DataSourceWire(r.value) == s
  {
    if s == "azure" then Some(Azure)
    else if s == "aws" then Some(Aws)
    else if s == "sdk" then Some(Sdk)
    else None
  }

  lemma DataSourceRoundTrip(d: DataSource)
    ensures DataSourceFromWire(DataSourceWire(d)) == Some(d)
  {
  }

  // ---------------------------------------------------------------------------
  // DataConfig: an open record

  const DataConfigFields: set<string> := {
    "storage_url", "container_name", "sas_token", "data_folder", "sequential",
    "generate_metadata", "description", "type", "annotation_format"}

  datatype DataConfig = DataConfig(
    storageUrl: string,
    containerName: Option<string>,
    sasToken: Option<string>,
    dataFolder: string,
    sequential: bool,
    generateMetadata: bool,
    description: Option<string>,
    configType: string,
    annotationFormat: string,
    /** the fields not declared above, kept verbatim (`extra = "allow"`) */
    extra: Dict)

  /** Constructing a DataConfig from keyword arguments. */
  function DataConfigFromDict(m: Dict): (r: Result<DataConfig, Error>)
    ensures r.Success? ==> r.value.extra == m - DataConfigFields
    ensures r.Success? ==> Get(m, "storage_url") == JStr(r.value.storageUrl) && Get(m, "data_folder") == JStr(r.value.dataFolder)
  {
    var storageUrl :- ReqStr(m, "storage_url");
    var containerName :- OptStr(m, "container_name");
    var sasToken :- OptStr(m, "sas_token");
    var dataFolder :- ReqStr(m, "data_folder");
    var sequential :- ReqBool(m, "sequential");
    var generateMetadata :- ReqBool(m, "generate_metadata");
    var description :- OptStr(m, "description");
    var configType :- ReqStr(m, "type");
    var annotationFormat :- ReqStr(m, "annotation_format");
    Success(DataConfig(storageUrl, containerName, sasToken, dataFolder, sequential, generateMetadata,
                       description, configType, annotationFormat, m - DataConfigFields))
  }

  /** `.dict()`: the declared fields (None as null) and the extra ones. */
  function DataConfigToDict(d: DataConfig): Dict {
    d.extra + map[
      "storage_url" := JStr(d.storageUrl),
      "container_name" := OptStrJson(d.containerName),
      "sas_token" := OptStrJson(d.sasToken),
      "data_folder" := JStr(d.dataFolder),
      "sequential" := JBool(d.sequential),
      "generate_metadata" := JBool(d.generateMetadata),
      "description" := OptStrJson(d.description),
      "type" := JStr(d.configType),
      "annotation_format" := JStr(d.annotationFormat)]
  }

  /** Serialising a DataConfig whose extra fields do not shadow declared ones and reading it back gives it back. */
  lemma DataConfigRoundTrip(d: DataConfig)
    requires d.extra.Keys !! DataConfigFields
    ensures DataConfigFromDict(DataConfigToDict(d)) == Success(d)
  {
    var m := DataConfigToDict(d);
    assert m - DataConfigFields == d.extra;
    assert ReqStr(m, "storage_url") == Success(d.storageUrl);
    assert OptStr(m, "container_name") == Success(d.containerName);
    assert OptStr(m, "sas_token") == Success(d.sasToken);
    assert ReqStr(m, "data_folder") == Success(d.dataFolder);
    assert ReqBool(m, "sequential") == Success(d.sequential);
    assert ReqBool(m, "generate_metadata") == Success(d.generateMetadata);
    assert OptStr(m, "description") == Success(d.description);
    assert ReqStr(m, "type") == Success(d.configType);
    assert ReqStr(m, "annotation_format") == Success(d.annotationFormat);
  }

  /** Every field of an accepted mapping survives construction and re-serialisation: unknown keys unchanged. */
  lemma DataConfigKeepsFields(m: Dict)
    requires DataConfigFromDict(m).Success?
    ensures forall k :: k in m ==> k in DataConfigToDict(DataConfigFromDict(m).value)
    ensures forall k :: k in m && k !in DataConfigFields ==> DataConfigToDict(DataConfigFromDict(m).value)[k] == m[k]
  {
  }

  // ---------------------------------------------------------------------------
  // Projects

  datatype Project = Project(
    id: Option<int>,
    name: string,
    description: Option<string>,
    egoCar: Option<string>,
    ontology: Ontology,
    sensors: seq<Sensor>)

  /** Sensors carry no rule of their own; a project is valid when its ontology is. */
  ghost predicate ProjectValid(p: Project) {
    OntologyValid(p.ontology)
  }

  // ---------------------------------------------------------------------------
  // Dataset: an open record built from the server's answer

  const DatasetFields: set<string> := {
    "id", "project", "sensors", "name", "type", "data_source", "annotation_format", "status",
    "sequential", "generate_metadata", "description", "file_count", "image_count", "pcd_count",
    "created_by", "container_name", "storage_url"}

  datatype Dataset = Dataset(
    id: Option<int>,
    project: Project,
    sensors: seq<Sensor>,
    name: string,
    datasetType: DatasetType,
    dataSource: DataSource,
    annotationFormat: AnnotationFormat,
    status: DatasetStatus,
    sequential: bool,
    generateMetadata: bool,
    description: Option<string>,
    fileCount: Option<int>,
    imageCount: Option<int>,
    pcdCount: Option<int>,
    createdBy: Option<int>,
    containerName: Option<string>,
    storageUrl: Option<string>,
    /** the fields not declared above, kept verbatim (`extra = "allow"`) */
    extra: Dict)

  function DataSourceField(m: Dict): (r: Result<DataSource, Error>)
    ensures r.Success? ==> Get(m, "data_source") == JStr(DataSourceWire(r.value))
    ensures r.Failure? ==> r.error == ValidationError("data_source")
  {
    var s :- ReqStr(m, "data_source");
    var d := DataSourceFromWire(s);
    if d.None? then Failure(ValidationError("data_source")) else Success(d.value)
  }

  /**
   * `Dataset(project=project, sensors=sensors, **fields)`: the project and the
   * sensors are the given values, the other fields come from the mapping (which
   * cannot also hold `project` or `sensors`: the call would name them twice).
   */
  function DatasetFromFields(project: Project, sensors: seq<Sensor>, m: Dict): (r: Result<Dataset, Error>)
    requires "project" !in m && "sensors" !in m
    ensures r.Success? ==> r.value.project == project && r.value.sensors == sensors
    ensures r.Success? ==> r.value.extra == m - DatasetFields
    ensures r.Failure? ==> r.error.ValidationError?
  {
    var id :- OptInt(m, "id");
    var name :- ReqStr(m, "name");
    var datasetType :- ReqStr(m, "type");
    var dataSource :- DataSourceField(m);
    var annotationFormat :- ReqStr(m, "annotation_format");
    var status :- ReqStr(m, "status");
    var sequential :- BoolOr(m, "sequential", false);
    var generateMetadata :- BoolOr(m, "generate_metadata", false);
    var description :- OptStr(m, "description");
    var fileCount :- OptInt(m, "file_count");
    var imageCount :- OptInt(m, "image_count");
    var pcdCount :- OptInt(m, "pcd_count");
    var createdBy :- OptInt(m, "created_by");
    var containerName :- OptStr(m, "container_name");
    var storageUrl :- OptStr(m, "storage_url");
    Success(Dataset(id, project, sensors, name, DatasetType(datasetType), dataSource,
                    AnnotationFormat(annotationFormat), DatasetStatus(status), sequential, generateMetadata,
                    description, fileCount, imageCount, pcdCount, createdBy, containerName, storageUrl,
                    m - DatasetFields))
  }

  /** `.dict()` without the nested project and sensors: the declared scalar fields and the extra ones. */
  function DatasetFieldsDict(d: Dataset): Dict {
    d.extra + map[
      "id" := OptIntJson(d.id),
      "name" := JStr(d.name),
      "type" := JStr(d.datasetType.wire),
      "data_source" := JStr(DataSourceWire(d.dataSource)),
      "annotation_format" := JStr(d.annotationFormat.wire),
      "status" := JStr(d.status.wire),
      "sequential" := JBool(d.sequential),
      "generate_metadata" := JBool(d.generateMetadata),
      "description" := OptStrJson(d.description),
      "file_count" := OptIntJson(d.fileCount),
      "image_count" := OptIntJson(d.imageCount),
      "pcd_count" := OptIntJson(d.pcdCount),
      "created_by" := OptIntJson(d.createdBy),
      "container_name" := OptStrJson(d.containerName),
      "storage_url" := OptStrJson(d.storageUrl)]
  }

  /** Constructing a Dataset from the server's fields and re-serialising it keeps every field, unknown ones unchanged. */
  lemma DatasetKeepsFields(project: Project, sensors: seq<Sensor>, m: Dict)
    requires "project" !in m && "sensors" !in m
    requires DatasetFromFields(project, sensors, m).Success?
    ensures forall k :: k in m ==> k in DatasetFieldsDict(DatasetFromFields(project, sensors, m).value)
    ensures forall k :: k in m && k !in DatasetFields ==> DatasetFieldsDict(DatasetFromFields(project, sensors, m).value)[k] == m[k]
  {
    var d := DatasetFromFields(project, sensors, m).value;
    var r := DatasetFieldsDict(d);
    assert d.extra == m - DatasetFields;
    assert DatasetFields - {"project", "sensors"} <= r.Keys;
    forall k | k in m
      ensures k in r
    {
      if k !in DatasetFields {
        assert k in d.extra;
      }
    }
    forall k | k in m && k !in DatasetFields
      ensures r[k] == m[k]
    {
      assert k in d.extra && d.extra[k] == m[k];
    }
  }
}
