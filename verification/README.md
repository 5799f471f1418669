# dataverse-sdk: a verified model of project and dataset creation

This project models the core of the dataverse Python SDK in Dafny. The SDK is
the client through which a user creates projects and datasets on the dataverse
platform. The model covers five parts:

- **Client-side records** of `schemas/client.py`: attributes and their option
  lists, sensors, ontology classes, ontologies, the data source enum, the open
  records `DataConfig` and `Dataset`, and `Project`. Each carries the validation
  rule pydantic runs on it:
  - an option attribute must have options;
  - an ontology class colour must contain a `#`-prefixed run of six
    alphanumerics standing on word boundaries.
- **API request records** of `schemas/api.py`, which `create_project` builds.
  An option attribute there must carry a non-empty `option_data` list.
- **`DataverseClient.create_project`** (`client.py`). It rewrites the ontology
  into the API's request form:
  - class ids are dropped;
  - classes are ranked 1, 2, ... in order;
  - each option list becomes a list of option values.
  It then validates the request, sends it to the backend and returns the
  response.
- **`DataverseClient.create_dataset`** (`client.py`). It checks the data
  source and finds the client. It composes the dataset request from its
  arguments, the project id, the sensor ids and the extra keyword arguments,
  then asks the backend to create the dataset. For an SDK-sourced dataset it
  also:
  - gathers the files of every folder named in the request;
  - uploads them in batches of at most 5;
  - marks the upload finished with a last empty batch;
  - marks the dataset failed when an upload step raises.
- **`Project.create_dataset`** (`schemas/client.py`). It forwards a project's
  request to the client with the project itself as the owner.

The backend (`apis/backend.py`) is modelled as a collaborator object,
`Backend.BackendApi`:

- its `trace` records every call made to it, in order;
- a server function, given the calls made before a call, decides the answer:
  a JSON body, or an exception.

Every operation that talks to the backend is a method. Each such method is
proved against a specification function of its inputs and the old trace:

- `DatasetCreation`, `Submitted`, `AfterCreation`, `SdkUpload`,
  `UploadOrMarkFailed` and `RunFrom` for `create_dataset`;
- `ProjectResponse` for `create_project`.

The loops of the source keep their form:

- the class loop and the attribute loop of `create_project`;
- the folder loop and the batch loop of `create_dataset`.

The properties are proved as lemmas about the specification functions. They
include:

- the uploaded batches together are exactly the gathered file list, in order;
- a successful SDK creation uploads every file and then sends exactly one
  finishing call;
- a failed upload is followed by exactly one call marking the dataset failed;
- a cloud-sourced dataset makes no upload call;
- a refused request makes no call at all;
- the transformed ontology of a valid ontology passes the API schemas;
- the API records round-trip through their dicts.

A request that DatasetAPISchema refuses makes the handler at
`client.py:281-284` build pydantic's ValidationError from a single string,
which raises TypeError instead (see "## Findings"). The model keeps the
documented ValidationError.

`OntologyClass.color_validator` (`schemas/client.py:59-67`) first requires a
leading `#`. It then strips every leading `#` and searches the rest, unanchored,
for a run of six alphanumerics between word boundaries. So `"#AABBCC xy"` and
`"##AABBCC"` are accepted, and `"#AABBCCD"` is refused.

In `create_project` the test `rank not in cls_` compares an integer with
the string keys of the class dict, so it always holds. Every class is
therefore re-ranked by its position, whatever rank it was given
(`Json.IntKeyNeverIn`, `Client.RequestIdsRemovedAndRanked`).

## Model

| member | source | states |
|---|---|---|
| Json.IntKeyNeverIn | python/dataverse_sdk/client.py:123 | the test `rank not in cls_` is always true: an integer is never a key of a string-keyed dict |
| Json.GetExcludeNone | python/dataverse_sdk/client.py:300-306 | `.get` on the `exclude_none` request gives what it gives on the composed arguments: a dropped None reads back as None |
| Json.ExcludeNoneIdempotent | python/dataverse_sdk/client.py:280 | after `exclude_none` no value is None, and a second `exclude_none` changes nothing |
| Json.ExcludeNoneKeeps | python/dataverse_sdk/client.py:143 | a dict without nulls is unchanged by `exclude_none` |
| Json.DictOfKeys | python/dataverse_sdk/client.py:263-280 | the dict built from keyword arguments has exactly the argument names as keys |
| Json.FieldWriteBack | python/dataverse_sdk/schemas/client.py:88-96 | a required str or bool field reads back the value written under it and is a ValidationError naming it when the key is gone; a defaulted bool takes the default when absent and refuses None |
| Json.OptStr | python/dataverse_sdk/schemas/client.py:88-96 | an Optional[str] field reads absent or null as None and refuses a non-string with a ValidationError naming it |
| Json.OptInt | python/dataverse_sdk/schemas/client.py:151-167 | an Optional[int] field reads absent or null as None and refuses a non-integer with a ValidationError naming it |
| Common.AttributeTypeFromWire | python/dataverse_sdk/schemas/common.py:4-8 | a wire string names an attribute type iff it is one of the four declared values |
| Common.AttributeTypeWireRoundTrip | python/dataverse_sdk/schemas/common.py:4-8 | reading back the wire value of an attribute type gives that type |
| Common.WireIsOption | python/dataverse_sdk/client.py:132 | comparing the stored wire value with `AttributeType.OPTION` holds iff the type is option |
| ClientSchemas.OptionDataValidator | python/dataverse_sdk/schemas/client.py:33-40 | the type is accepted unchanged iff it is not option or the options are present and non-empty; otherwise a ValidationError on `type` |
| ClientSchemas.NewAttribute | python/dataverse_sdk/schemas/client.py:24-40 | constructing an Attribute succeeds iff the option rule holds, and the result is valid |
| ClientSchemas.NonOptionAccepted | python/dataverse_sdk/schemas/client.py:33-40 | an attribute that is not of option type passes the validator whatever its options |
| ClientSchemas.OptionWithoutOptionsRefused | python/dataverse_sdk/schemas/client.py:35-39 | an option attribute with no options is refused |
| ClientSchemas.LStripHash | python/dataverse_sdk/schemas/client.py:62 | `lstrip("#")` removes the longest all-`#` prefix: the rest is a suffix not starting with `#` |
| ClientSchemas.FindSixRun | python/dataverse_sdk/schemas/client.py:61-63 | the search finds the first position of a six-alphanumeric run between word boundaries, or reports that none exists |
| ClientSchemas.ColorValidator | python/dataverse_sdk/schemas/client.py:59-67 | a colour is accepted unchanged iff it starts with `#` and the text after the leading `#`s holds a bounded six-character run, else ValidationError on `color` |
| ClientSchemas.ColorNeedsHash | python/dataverse_sdk/schemas/client.py:61 | a colour not starting with `#` is refused |
| ClientSchemas.ColorFromRun | python/dataverse_sdk/schemas/client.py:61-67 | a `#`-prefixed colour whose stripped text has a bounded run at some position is accepted |
| ClientSchemas.ColorWithoutRun | python/dataverse_sdk/schemas/client.py:61-66 | a colour whose stripped text has no bounded run is refused |
| ClientSchemas.StripHashes | python/dataverse_sdk/schemas/client.py:62 | stripping a colour with n leading `#`s leaves the text from position n on |
| ClientSchemas.HashesThenSix | python/dataverse_sdk/schemas/client.py:59-67 | any number of `#`s followed by exactly six alphanumerics is accepted |
| ClientSchemas.ColorAccepted | python/dataverse_sdk/schemas/client.py:59-67 | `#AABBCC` and `##AABBCC` are accepted |
| ClientSchemas.ColorTooShort | python/dataverse_sdk/schemas/client.py:59-67 | `#ABC` (three characters) is refused |
| ClientSchemas.ColorTooLong | python/dataverse_sdk/schemas/client.py:59-67 | `#AABBCCD` is refused: the run has no word boundary after six characters |
| ClientSchemas.ColorWithoutHash | python/dataverse_sdk/schemas/client.py:59-67 | `AABBCC` is refused |
| ClientSchemas.ColorUnderscoreAfter | python/dataverse_sdk/schemas/client.py:59-67 | `#AABBCC_` is refused: an underscore is a word character, so there is no boundary |
| ClientSchemas.ColorNotOnlyHex | python/dataverse_sdk/schemas/client.py:59-67 | `#GGGGGG` is accepted: the rule asks for alphanumerics, not hex digits |
| ClientSchemas.ColorTrailingText | python/dataverse_sdk/schemas/client.py:59-67 | `#AABBCC xy` is accepted, the search not being anchored at the end |
| ClientSchemas.RunBeforeSpace | python/dataverse_sdk/schemas/client.py:63 | `AABBCC xy` has a bounded run at position 0 |
| ClientSchemas.ColorLeadingText | python/dataverse_sdk/schemas/client.py:59-67 | `#xy-AABBCC` is accepted, the search not being anchored at the start |
| ClientSchemas.RunAfterDash | python/dataverse_sdk/schemas/client.py:63 | `xy-AABBCC` has a bounded run at position 3 |
| ClientSchemas.NewOntologyClass | python/dataverse_sdk/schemas/client.py:52-67 | constructing an OntologyClass succeeds iff its colour passes the validator, keeping the colour |
| ClientSchemas.InvalidClassInvalidatesOntology | python/dataverse_sdk/schemas/client.py:70-78 | an ontology with an invalid class or attribute is not valid |
| ClientSchemas.OptionDicts | python/dataverse_sdk/schemas/client.py:19-21 | one option dict per option, in order, with no None at any depth |
| ClientSchemas.AttributeDicts | python/dataverse_sdk/schemas/client.py:24-31 | one attribute dict per attribute, in order, with no None at any depth |
| ClientSchemas.ClassDicts | python/dataverse_sdk/schemas/client.py:52-58 | one class dict per class, in order, with no None at any depth |
| ClientSchemas.DataSourceFromWire | python/dataverse_sdk/schemas/client.py:81-85 | a string is a data source iff it is `azure`, `aws` or `sdk` |
| ClientSchemas.DataSourceRoundTrip | python/dataverse_sdk/schemas/client.py:81-85 | each data source reads back from its wire value |
| ClientSchemas.DataConfigFromDict | python/dataverse_sdk/schemas/client.py:88-100 | an accepted DataConfig takes `storage_url` and `data_folder` from the dict and keeps every undeclared key as an extra field |
| ClientSchemas.DataConfigRoundTrip | python/dataverse_sdk/schemas/client.py:88-100 | the dict of a valid DataConfig reads back to the same record |
| ClientSchemas.DataConfigKeepsFields | python/dataverse_sdk/schemas/client.py:99-100 | every key of the input dict survives, with its value, in the record's dict (`extra = allow`) |
| ClientSchemas.DataSourceField | python/dataverse_sdk/schemas/client.py:156 | an accepted data source is the one whose wire string the field holds; a refusal is a ValidationError on `data_source` |
| ClientSchemas.DatasetFromFields | python/dataverse_sdk/schemas/client.py:150-170 | an accepted Dataset carries the given project and sensors and every undeclared key as an extra field; a refusal is a ValidationError |
| ClientSchemas.DatasetKeepsFields | python/dataverse_sdk/schemas/client.py:169-170 | every key of the dataset response survives, with its value, in the Dataset's dict |
| ApiSchemas.ApiOptionDataValidator | python/dataverse_sdk/schemas/api.py:24-31 | the type is accepted unchanged iff it is not option or the option data is present and non-empty; otherwise a ValidationError on `type` |
| ApiSchemas.ApiNonOptionAccepted | python/dataverse_sdk/schemas/api.py:24-31 | a non-option attribute passes the validator without option data |
| ApiSchemas.OptionValueFromJson | python/dataverse_sdk/schemas/api.py:21 | a JSON value read as an option value is that value's JSON form |
| ApiSchemas.OptionValueJsonRoundTrip | python/dataverse_sdk/schemas/api.py:21 | an option value reads back from its JSON form |
| ApiSchemas.OptionValuesFromJson | python/dataverse_sdk/schemas/api.py:21 | a JSON list is read iff every element is an option value, keeping length and order |
| ApiSchemas.OptionValuesJsonRoundTrip | python/dataverse_sdk/schemas/api.py:21 | a list of option values reads back from its JSON form |
| ApiSchemas.OptionDataField | python/dataverse_sdk/schemas/api.py:21 | `option_data` reads absent or null as None and refuses anything but a list of option values |
| ApiSchemas.AttributeApiFromDict | python/dataverse_sdk/schemas/api.py:20-31 | an accepted attribute request is valid, keeps the type and option data it was given and its other fields |
| ApiSchemas.AttributeApiRoundTrip | python/dataverse_sdk/schemas/api.py:20-31 | the dict of a valid attribute request reads back to the same record |
| ApiSchemas.AttributesApiFromJson | python/dataverse_sdk/schemas/api.py:39 | a list of attribute requests is accepted iff every item is, giving one record per item, in order |
| ApiSchemas.OntologyClassApiFromDict | python/dataverse_sdk/schemas/api.py:38-39 | an accepted class request is valid and keeps its other fields; with an `attribute_data` list it is accepted iff every item is an accepted attribute |
| ApiSchemas.AttributesApiRoundTrip | python/dataverse_sdk/schemas/api.py:38-39 | a list of valid attribute requests reads back from its JSON form |
| ApiSchemas.OntologyClassApiRoundTrip | python/dataverse_sdk/schemas/api.py:38-39 | the dict of a valid class request reads back to the same record |
| ApiSchemas.ClassesApiFromJson | python/dataverse_sdk/schemas/api.py:43 | a list of class requests is accepted iff every item is, giving one record per item, in order |
| ApiSchemas.OntologyApiFromDict | python/dataverse_sdk/schemas/api.py:42-43 | an accepted ontology request is valid and keeps its other fields; with an `ontology_classes_data` list it is accepted iff every item is an accepted class |
| ApiSchemas.NestedAttributeRefused | python/dataverse_sdk/schemas/api.py:38-43 | an ontology request is refused when one class carries an option attribute without option data |
| ApiSchemas.ClassesApiRoundTrip | python/dataverse_sdk/schemas/api.py:42-43 | a list of valid class requests reads back from its JSON form |
| ApiSchemas.OntologyApiRoundTrip | python/dataverse_sdk/schemas/api.py:42-43 | the dict of a valid ontology request reads back to the same record |
| ApiSchemas.ProjectApiFromFields | python/dataverse_sdk/schemas/api.py:46-48 | a project request is built iff its ontology request is accepted, and carries the parsed ontology and the sensor data |
| Client.ValuesOfOptionDicts | python/dataverse_sdk/client.py:135-137 | the comprehension over `attr.pop("options", [])` collects exactly the attribute's option values, in order, as JSON |
| Client.AttributeRewrite | python/dataverse_sdk/client.py:130-138 | rewriting one attribute dict in place gives its request form |
| Client.ClassRewrite | python/dataverse_sdk/client.py:121-140 | rewriting one class dict in place gives its request form with the given rank |
| Client.RewriteAttributes | python/dataverse_sdk/client.py:129-139 | the attribute loop builds the request form of every attribute, in order |
| Client.RewriteClass | python/dataverse_sdk/client.py:121-140 | one pass of the class loop builds the class's request form and advances the rank by one |
| Client.BuildOntologyData | python/dataverse_sdk/client.py:117-141 | the class loop builds the request form of every class, ranked 1, 2, ... in order |
| Client.RequestIdsRemovedAndRanked | python/dataverse_sdk/client.py:119-125 | every class request lacks `id` and carries rank i+1 for the i-th class |
| Client.ClassAttributesCarried | python/dataverse_sdk/client.py:126-140 | a class request has `attribute_data` iff the class has attributes, holding one entry per attribute |
| Client.NonOptionAttributeKept | python/dataverse_sdk/client.py:131-134 | a non-option attribute's request is its dict unchanged |
| Client.OptionAttributeRewritten | python/dataverse_sdk/client.py:132-138 | an option attribute's request drops `options` and carries `option_data` with the option values, in order |
| Client.AttributeRequestAccepted | python/dataverse_sdk/schemas/api.py:24-31 | the request form of a valid client attribute passes the API attribute schema, option data equal to the option values |
| Client.ClassRequestAccepted | python/dataverse_sdk/client.py:142 | the request form of a class with valid attributes passes OntologyClassAPISchema, with one attribute per attribute, each of the same type |
| Client.ClassRequestsParse | python/dataverse_sdk/client.py:141-142 | the rewritten class list of valid classes reads as API class requests |
| Client.OntologyRequestAccepted | python/dataverse_sdk/client.py:141-142 | the request form of an ontology with valid attributes passes OntologyAPISchema, with one class per class |
| Client.OntologyRequestShape | python/dataverse_sdk/client.py:141 | the ontology request holds the rewritten class list under `ontology_classes_data` and no null besides |
| Client.ValidOntologyComposesRequest | python/dataverse_sdk/client.py:142-155 | for a valid ontology the project request is composed: it holds the name, the validated ontology and one dict per sensor, in order |
| Client.ProjectPayload | python/dataverse_sdk/client.py:145-151 | the payload sent holds the project's fields, the ontology request and the sensor dicts |
| Client.SensorDictsKept | python/dataverse_sdk/client.py:143 | the sensor dicts pass through `exclude_none` unchanged |
| Client.CreateProject | python/dataverse_sdk/client.py:114-160 | no client gives KeyError; a request that cannot be composed gives its error and makes no call; otherwise exactly one create-project call with the composed request, whose returned body is the result and whose raised exception becomes ClientConnectionError |
| DatasetClient.RequestCarriesProjectAndSensors | python/dataverse_sdk/client.py:261-267 | the request carries the project's id (when it has one) and the sensor ids |
| DatasetClient.RequestKeepsExtraArguments | python/dataverse_sdk/client.py:263-284 | under the pass-through schema, every extra keyword argument reaches the request with its value (a None one stays absent) |
| DatasetClient.DeclaredKeys | python/dataverse_sdk/client.py:263-280 | the declared arguments are among the schema's field names, which are create_dataset's parameters plus `project_id` and `sensor_ids` |
| DatasetClient.PathKeysNotDeclared | python/dataverse_sdk/client.py:263-280 | the annotation, calibration and lidar folder keys and the annotation file key are never among the declared arguments |
| DatasetClient.UploadOrder | python/dataverse_sdk/client.py:300-311 | the gathered list is the data, annotation, calibration and lidar folders' files, in this order, absent folders skipped |
| DatasetClient.ChunksCount | python/dataverse_sdk/client.py:326-327 | a list of n files is split into ceil(n/5) batches |
| DatasetClient.ChunksAreSlices | python/dataverse_sdk/client.py:326-330 | the k-th batch is the slice from 5k to 5k+5 (or the end) |
| DatasetClient.ChunksCover | python/dataverse_sdk/client.py:326-331 | the batches are non-empty, of at most 5 files, and their concatenation is the list |
| DatasetClient.ChunksStep | python/dataverse_sdk/client.py:327-330 | the batches of a list are its first batch followed by the batches of the rest |
| DatasetClient.DictSetPaths | python/dataverse_sdk/client.py:328-331 | setting a path in the file dict adds the path when new and keeps the paths otherwise |
| DatasetClient.DictSetEntries | python/dataverse_sdk/client.py:328-331 | setting a path in the file dict stores the content under that path and keeps every other entry |
| DatasetClient.DictSetKeys | python/dataverse_sdk/client.py:328-331 | setting a path keeps the file dict's paths distinct, appends a new path, keeps an existing one in place and stores the content under it |
| DatasetClient.ReadBatchWhole | python/dataverse_sdk/client.py:328-331 | reading a batch succeeds iff every file in it can be read |
| DatasetClient.ReadBatchDict | python/dataverse_sdk/client.py:328-331 | a batch read whole gives distinct paths, exactly the batch's paths, at most one entry per file, each with the bytes read from it, in batch order when the batch has no repeats |
| DatasetClient.ReadBatchEntries | python/dataverse_sdk/client.py:328-331 | a batch is read whole iff every file reads, and then its dict holds what ReadBatchDict states |
| DatasetClient.UploadRunSuccess | python/dataverse_sdk/client.py:325-346 | when every batch reads and no upload raises, the run sends one upload per batch then the finishing call, and reports no failure |
| DatasetClient.UploadRunFailure | python/dataverse_sdk/client.py:325-346 | a failed upload made only upload calls for the dataset, at most one per batch plus the finishing one |
| DatasetClient.UploadRunStep | python/dataverse_sdk/client.py:327-338 | an upload of a non-empty batch list is the first batch's call followed by the rest's run, unless it fails |
| DatasetClient.RunFromChunks | python/dataverse_sdk/client.py:327-346 | the loop from index i does what the batch-by-batch run of the rest of the list does |
| DatasetClient.SendBatch | python/dataverse_sdk/client.py:327-338 | one pass of the upload loop either ends the run with its failure or sends one call and leaves the rest of the run to the next index |
| DatasetClient.UploadBatches | python/dataverse_sdk/client.py:325-346 | the upload loop and the finishing call send exactly the calls of the run and report its failure |
| DatasetClient.FinishUpload | python/dataverse_sdk/client.py:340-346 | after the last batch one call with an empty file dict and `is_finished` true is sent |
| DatasetClient.UploadOrMarkFailed | python/dataverse_sdk/client.py:325-351 | when the upload goes through, the dataset dict passes on unchanged |
| DatasetClient.SdkUpload | python/dataverse_sdk/client.py:299-353 | when the SDK branch goes through, the created dataset's fields pass on unchanged |
| DatasetClient.AfterCreation | python/dataverse_sdk/client.py:293-353 | when the steps after creation go through, the fields are the response without `project` and `sensors` |
| DatasetClient.CreateDataset | python/dataverse_sdk/client.py:255-353 | an unknown data source gives ValueError and no client gives KeyError, with no call; otherwise the calls and result of the creation |
| DatasetClient.CreateWith | python/dataverse_sdk/client.py:261-353 | with a client, the calls and result are those of the creation |
| DatasetClient.Submit | python/dataverse_sdk/client.py:286-353 | one create-dataset call, then what follows for the response |
| DatasetClient.FinishCreation | python/dataverse_sdk/client.py:293-353 | after the create call, the pops, the upload for the SDK source and the Dataset construction behave as specified |
| DatasetClient.CollectFilepaths | python/dataverse_sdk/client.py:308-311 | the folder loop gathers the folders' files in order |
| DatasetClient.UploadLocalFiles | python/dataverse_sdk/client.py:299-351 | the SDK branch gets the dataset, uploads the gathered list and marks a failure |
| DatasetClient.TryUpload | python/dataverse_sdk/client.py:325-351 | the try block's calls and the failure call in the except block are exactly as specified |
| DatasetClient.FlattenMember | python/dataverse_sdk/client.py:327-331 | a file is in some batch iff it is in the list |
| DatasetClient.BatchCallsCover | python/dataverse_sdk/client.py:325-338 | when every batch reads whole, every file of the list is in some batch call, every entry holds the bytes read from its path, and no batch call has more than 5 entries |
| DatasetClient.BatchCallsExact | python/dataverse_sdk/client.py:327-331 | each batch call holds the files of its own batch and no other, each once |
| DatasetClient.SentPathsFlatten | python/dataverse_sdk/client.py:327-338 | upload calls holding the batches in order send the batches' concatenation |
| DatasetClient.BatchCallsInOrder | python/dataverse_sdk/client.py:325-338 | for a list without repeats the batch calls send the list whole, in order, each file once |
| DatasetClient.SdkUploadFinished | python/dataverse_sdk/client.py:321-346 | a successful upload gets the dataset, then sends one upload per batch holding that batch's files as read, then the finishing call with no files |
| DatasetClient.SdkUploadMarksFailure | python/dataverse_sdk/client.py:347-351 | after the get-dataset call, the last call is a `fail` update of that dataset iff the upload fails; only upload calls come between; the error is ClientConnectionError or what the update raised |
| DatasetClient.SdkUploadUploadsAll | python/dataverse_sdk/client.py:299-346 | a successful upload sends one call per batch, each holding exactly its batch's files once with the bytes read, then the finishing call; a list without repeats goes out whole, in order, each file once |
| DatasetClient.BatchCallsUploadAll | python/dataverse_sdk/client.py:325-346 | calls shaped as a finished upload (get, one call per batch read whole, finishing call) upload exactly each batch, and the whole list in order when it has no repeats |
| DatasetClient.RefusedRequestMakesNoCall | python/dataverse_sdk/client.py:255-291 | no call is made iff the source is unknown, a duplicate keyword is given or the schema refuses the request, and then an error is raised; otherwise the first call creates the dataset with the composed request |
| DatasetClient.ComposedRequest | python/dataverse_sdk/client.py:247-284 | a composed request is the declared arguments merged over the extra ones, and the schema accepts it |
| DatasetClient.ComposedRequestAsWritten | python/dataverse_sdk/client.py:263-284 | as written, composing the request fails only with TypeError |
| DatasetClient.ReraiseRaisesTypeError | python/dataverse_sdk/client.py:281-284 | a request the schema refuses, with no duplicate keyword, gives TypeError as written where ValidationError is documented |
| DatasetClient.RefusedRequestRaisesValidationError | python/dataverse_sdk/client.py:247-291 | with a known source, create_dataset fails as the request composition does and sends nothing, or goes on with the composed request; it raises ValidationError without a call iff the schema refuses a request with no duplicate keyword |
| DatasetClient.CloudSubmissionOnlyCreates | python/dataverse_sdk/client.py:296-297 | a cloud-sourced dataset makes only the create call |
| DatasetClient.CloudDatasetNoUpload | python/dataverse_sdk/client.py:296-297 | no upload call is made for a cloud-sourced dataset |
| DatasetClient.SubmissionKeepsCallerProject | python/dataverse_sdk/client.py:293-297 | the Dataset returned carries the caller's project and sensors, not the response's |
| DatasetClient.CreatedDatasetKeepsCallerProject | python/dataverse_sdk/client.py:293-353 | a successful creation's Dataset carries the caller's project and sensors |
| DatasetClient.SdkSubmissionCalls | python/dataverse_sdk/client.py:286-353 | an SDK-sourced creation makes the create call, then the get-dataset call, then the upload calls |
| DatasetClient.SdkSubmissionUploadsAll | python/dataverse_sdk/client.py:299-346 | a successful SDK creation makes the create call first and then uploads every gathered file |
| DatasetClient.SdkSuccessUploadsEverything | python/dataverse_sdk/client.py:299-346 | a successful SDK-sourced create_dataset makes the create call first and then uploads every file of its upload list |
| DatasetClient.BuiltErrors | python/dataverse_sdk/client.py:353 | the Dataset construction passes an earlier error on unchanged and adds only ValidationErrors of its own |
| DatasetClient.SubmissionMarksFailure | python/dataverse_sdk/client.py:347-351 | once the create call is made, a failed upload ends with a `fail` update of the dataset read, with only its upload calls between, exactly when the error is ClientConnectionError or the update's own |
| DatasetClient.UploadFailureMarksDatasetFailed | python/dataverse_sdk/client.py:347-351 | a create_dataset whose upload fails ends with one `fail` update of the dataset read, with only its upload calls between, exactly when it raises ClientConnectionError or the update's error |
| ProjectOps.Forwarded | python/dataverse_sdk/schemas/client.py:132-146 | the forwarded arguments name the project itself, leave `render_pcd` false and pass nothing extra |
| ProjectOps.ProjectCreateDataset | python/dataverse_sdk/schemas/client.py:111-147 | without a configured client: ClientConnectionError and no call; without a default connection: ValueError or KeyError; otherwise exactly the calls and result of the client's create_dataset |
| ProjectOps.ForwardedResultCarriesSelf | python/dataverse_sdk/schemas/client.py:132-147 | a dataset a project creates belongs to that project and has the given sensors |
| ProjectOps.ForwardedUploadsDataFolderOnly | python/dataverse_sdk/schemas/client.py:132-146 | a project's SDK dataset uploads the files of its data folder and only those |

## Left out

- The backend's HTTP, authentication, retries and response parsing (`apis/backend.py`) are not modelled. The backend is an abstract server function of the calls made so far.
- Connections (`connections.py`) are not part of this model. `get_client` is a nullable reference, and null stands for "no default connection". The KeyError it raises is modelled as `KeyError("default")`, without the message `get_connection` would give.
- The configuration module read by `Project.create_dataset` is modelled as a boolean `configured`. Any exception during that import becomes ClientConnectionError.
- `get_filepaths` (`utils`) is not part of this model. The folder listing is a function parameter of the model.
- File reads and `isfile` are modelled as a `LocalFiles` value: which paths are files, and the bytes or read error of each.
- DatasetAPISchema is not declared in `schemas/api.py`, which is part of this model. Its acceptance is a predicate parameter `accepts`, and an accepted request is sent as composed.
- The base schemas (`schemas/base`) are not part of this model. API records keep the fields they do not declare as an opaque base dict.
- Pydantic's type coercions are not modelled. For example, the `Union[str, int, bool, float]` option values would turn `True` into `"True"`.
- Floating-point numbers are reals.
- The colour rule uses ASCII alphanumerics and word characters. Python's `\w` and `\b` on `str` are Unicode-aware.
- AttributeApiFromDict: the `@validator("type")` of AttributeAPISchema (`schemas/api.py:24-31`) reads `option_data` from the values validated before `type`. The model assumes `option_data` is among them, as the declaration order in `schemas/api.py` gives. Pydantic v1 keeps a redeclared inherited field at the base class's position, so if BaseAttributeSchema (`schemas/base` is not part of this model) declares `type`, `option_data` is not yet validated when `type` is, and every option attribute is refused. AttributeRequestAccepted, OntologyRequestAccepted and ValidOntologyComposesRequest rest on this assumption.
- The dataset request is composed with Python's `**` merge semantics. The order of keys in the dicts is not modelled.
- ArgsWellFormed: the model assumes two things of `create_dataset`'s arguments. The extra keyword arguments never name a parameter of `create_dataset`, which Python would bind to the parameter. And every path key (`annotation_folder`, `calibration_folder`, `lidar_folder`, `annotation_file`) holds a string or None, so a call such as `annotation_folder=5` is not modelled.
- DatasetRequestOf: DatasetAPISchema is modelled as passing the composed arguments through unchanged. Pydantic's default `extra = ignore`, which would drop undeclared keys, is not modelled, and neither are schema defaults. RequestKeepsExtraArguments and ForwardedUploadsDataFolderOnly hold under this pass-through schema only.
- `Common.DatasetType`, `Common.DatasetStatus` and `Common.AnnotationFormat` (`common.dfy`) hold any string. The declarations of these enums are not part of this model, so the model does not refuse an undeclared value.
- A `project_id` or `sensor_ids` among the extra keyword arguments raises TypeError for a duplicate keyword. The model has this raised before the schema runs.
- `data_source not in DataSource` on a plain string: Python 3.12 returns False, and the model raises ValueError accordingly. Earlier Python versions raise TypeError at the test itself.
- ProjectRequest: the re-raise at `client.py:152-155` builds pydantic's ValidationError from one string too, which raises TypeError. The model keeps the intended `ValidationError("project")`. That branch is taken only if ProjectAPISchema refuses an ontology request that OntologyAPISchema has just accepted, and ValidOntologyComposesRequest shows it is never taken for a valid ontology.
- SdkUploadUploadsAll: for an upload list with repeats, the model states only which paths each batch call holds, not their order inside the call.
- `Project.create` (the final step of `create_project`) is not modelled. `CreateProject` returns the response dict it would be built from.
- `get_project`, `DataverseClient.__init__`, the API client initialisation and the listing operations are outside the modelled core.
- DatasetFromFields: on a refused field the model states only that the error is a ValidationError, not which field pydantic reports first.

## Findings

| source | as written | input that shows it | evidently intended | confidence | as-written member | corrected member |
|---|---|---|---|---|---|---|
| python/dataverse_sdk/client.py:281-284 | the handler re-raises with `ValidationError(f"...")`; pydantic's ValidationError is not built from one message string, so this raises TypeError | any request DatasetAPISchema refuses, with no `project_id` or `sensor_ids` among the extra keyword arguments | ValidationError, as the docstring at client.py:247-251 promises | not executed | DatasetClient.ReraiseRaisesTypeError | DatasetClient.RefusedRequestRaisesValidationError |
