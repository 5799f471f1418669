/**
 * DataverseClient.create_dataset (client.py): the dataset request, the
 * creation call and, for a local ("sdk") source, the upload of the local
 * files in batches of five, followed by a finishing call, with the dataset
 * marked failed when any of it goes wrong.
 *
 * The file system is a `LocalFiles` value: the listing of a folder (the
 * repository's `get_filepaths`, whose definition is not part of this model),
 * `isfile`, and reading a file's bytes, which may fail with a message.
 */
module DatasetClient {
  import opened Wrappers
  import opened Errors
  import opened Json
  import opened ClientSchemas
  import opened Common
  import opened Backend

  datatype LocalFiles = LocalFiles(
    listing: string -> seq<string>,
    isFile: string -> bool,
    read: string -> Result<seq<bv8>, string>)

  /** The arguments of create_dataset; `kwargs` are the extra keyword arguments. */
  datatype DatasetArgs = DatasetArgs(
    name: string,
    dataSource: string,
    project: Project,
    sensors: seq<Sensor>,
    datasetType: DatasetType,
    annotationFormat: AnnotationFormat,
    storageUrl: string,
    dataFolder: string,
    containerName: Option<string>,
    sasToken: Option<string>,
    sequential: bool,
    generateMetadata: bool,
    renderPcd: bool,
    description: Option<string>,
    kwargs: Dict)

  /** The parameter names of create_dataset: extra keyword arguments cannot repeat them. */
  const ParameterNames: set<string> := {
    "name", "data_source", "project", "sensors", "type", "annotation_format", "storage_url",
    "data_folder", "container_name", "sas_token", "sequential", "generate_metadata", "render_pcd",
    "description", "client"}

  /** The folder and file entries the upload reads, which only extra keyword arguments can supply. */
  const PathKeys: set<string> := {"annotation_folder", "calibration_folder", "lidar_folder", "annotation_file"}

  /**
   * What a call can pass: no extra keyword argument named like a parameter,
   * and the extra path entries, when given, are strings or `None` (the
   * DatasetAPISchema declaration, which types them, is not part of this model).
   */
  predicate ArgsWellFormed(args: DatasetArgs) {
    && args.kwargs.Keys !! ParameterNames
    && forall k :: k in args.kwargs && k in PathKeys ==> args.kwargs[k].JStr? || args.kwargs[k] == JNull
  }

  // ---------------------------------------------------------------------------
  // The request

  function SensorIds(sensors: seq<Sensor>): (r: seq<Json>)
    ensures |r| == |sensors| && forall k :: 0 <= k < |sensors| ==> r[k] == OptIntJson(sensors[k].id)
  {
    seq(|sensors|, k requires 0 <= k < |sensors| => OptIntJson(sensors[k].id))
  }

  /**
   * The keyword arguments create_dataset itself gives DatasetAPISchema, in the
   * order it names them, except the two it computes from the project and the
   * sensors and the data folder, which the upload reads back.
   */
  function PassedArguments(args: DatasetArgs): seq<(string, Json)> {
    [("name", JStr(args.name)),
     ("data_source", JStr(args.dataSource)),
     ("type", JStr(args.datasetType.wire)),
     ("annotation_format", JStr(args.annotationFormat.wire)),
     ("storage_url", JStr(args.storageUrl)),
     ("container_name", OptStrJson(args.containerName)),
     ("sas_token", OptStrJson(args.sasToken)),
     ("sequential", JBool(args.sequential)),
     ("generate_metadata", JBool(args.generateMetadata)),
     ("render_pcd", JBool(args.renderPcd)),
     ("description", OptStrJson(args.description))]
  }

  /** All of create_dataset's own keyword arguments: the project by id, the sensors' ids and the data folder besides the passed ones. */
  function DeclaredRequest(args: DatasetArgs, projectId: Json, sensorIds: seq<Json>): Dict {
    DictOf(PassedArguments(args))["project_id" := projectId]["sensor_ids" := JList(sensorIds)]["data_folder" := JStr(args.dataFolder)]
  }

  /**
   * `DatasetAPISchema(**all).dict(exclude_none=True)`, taking the schema to
   * pass its fields through unchanged.
   */
  function DatasetRequestOf(args: DatasetArgs, projectId: Json, sensorIds: seq<Json>): Dict {
    ExcludeNone(args.kwargs + DeclaredRequest(args, projectId, sensorIds))
  }

  function DatasetRequest(args: DatasetArgs): Dict {
    DatasetRequestOf(args, OptIntJson(args.project.id), SensorIds(args.sensors))
  }

  /** The request names the project by id and lists the sensors' ids, in their order. */
  lemma RequestCarriesProjectAndSensors(args: DatasetArgs)
    requires ArgsWellFormed(args) && "project_id" !in args.kwargs && "sensor_ids" !in args.kwargs
    ensures Get(DatasetRequest(args), "project_id") == OptIntJson(args.project.id)
    ensures "sensor_ids" in DatasetRequest(args) && DatasetRequest(args)["sensor_ids"].JList?
    ensures |DatasetRequest(args)["sensor_ids"].items| == |args.sensors|
    ensures forall k :: 0 <= k < |args.sensors| ==> DatasetRequest(args)["sensor_ids"].items[k] == OptIntJson(args.sensors[k].id)
  {
  }

  /** The extra keyword arguments reach the request unchanged (those that are `None` are dropped). */
  lemma RequestKeepsExtraArguments(args: DatasetArgs)
    requires ArgsWellFormed(args) && "project_id" !in args.kwargs && "sensor_ids" !in args.kwargs
    ensures forall k :: k in args.kwargs ==> Get(DatasetRequest(args), k) == args.kwargs[k]
  {
    var declared := DeclaredRequest(args, OptIntJson(args.project.id), SensorIds(args.sensors));
    DeclaredKeys(args, OptIntJson(args.project.id), SensorIds(args.sensors));
    assert forall k :: k in args.kwargs ==> k !in declared;
  }

  /** The names create_dataset passes itself. */
  const DeclaredNames: set<string> := {
    "name", "project_id", "sensor_ids", "data_source", "type", "annotation_format", "storage_url",
    "container_name", "data_folder", "sas_token", "sequential", "generate_metadata", "render_pcd", "description"}

  /** create_dataset's own keyword arguments are its parameters, with the project and the sensors given by id. */
  lemma DeclaredKeys(args: DatasetArgs, projectId: Json, sensorIds: seq<Json>)
    ensures forall k :: k in DeclaredRequest(args, projectId, sensorIds) ==> k in DeclaredNames
    ensures DeclaredNames <= ParameterNames + {"project_id", "sensor_ids"}
  {
    DictOfKeys(PassedArguments(args));
  }

  /** create_dataset names none of the path entries: only extra keyword arguments supply them. */
  lemma PathKeysNotDeclared(args: DatasetArgs, projectId: Json, sensorIds: seq<Json>)
    ensures forall k :: k in PathKeys ==> k !in DeclaredRequest(args, projectId, sensorIds)
  {
    DeclaredKeys(args, projectId, sensorIds);
    assert PathKeys !! DeclaredNames;
  }

  // ---------------------------------------------------------------------------
  // The files to upload

  /** A path entry of the request: a string, or `None` when absent or null. */
  function PathField(d: Dict, key: string): (r: Option<string>)
    ensures r.Some? <==> Get(d, key).JStr?
    ensures r.Some? ==> Get(d, key) == JStr(r.value)
  {
    if Get(d, key).JStr? then Some(Get(d, key).s) else None
  }

  function FolderPaths(req: Dict): seq<Option<string>> {
    [PathField(req, "data_folder"), PathField(req, "annotation_folder"),
     PathField(req, "calibration_folder"), PathField(req, "lidar_folder")]
  }

  function FilesOf(folder: Option<string>, listing: string -> seq<string>): seq<string> {
    if folder.Some? then listing(folder.value) else []
  }

  /** The files of the given folders, folder after folder, skipping absent ones. */
  function GatherPaths(folders: seq<Option<string>>, listing: string -> seq<string>): seq<string>
    decreases |folders|
  {
    if folders == [] then []
    else GatherPaths(folders[..|folders| - 1], listing) + FilesOf(folders[|folders| - 1], listing)
  }

  /** The upload list: the data, annotation, calibration and lidar folders' files, in this order. */
  lemma {:induction false} UploadOrder(req: Dict, listing: string -> seq<string>)
    ensures GatherPaths(FolderPaths(req), listing)
      == FilesOf(PathField(req, "data_folder"), listing) + FilesOf(PathField(req, "annotation_folder"), listing)
       + FilesOf(PathField(req, "calibration_folder"), listing) + FilesOf(PathField(req, "lidar_folder"), listing)
  {
    var f := FolderPaths(req);
    assert f[..1][..0] == [];
    assert GatherPaths(f[..1], listing) == FilesOf(f[0], listing);
    assert f[..2][..1] == f[..1];
    assert GatherPaths(f[..2], listing) == GatherPaths(f[..1], listing) + FilesOf(f[1], listing);
    assert f[..3][..2] == f[..2];
    assert GatherPaths(f[..3], listing) == GatherPaths(f[..2], listing) + FilesOf(f[2], listing);
    assert f[..3] == f[..|f| - 1];
    assert GatherPaths(f, listing) == GatherPaths(f[..3], listing) + FilesOf(f[3], listing);
  }

  // ---------------------------------------------------------------------------
  // Batches

  const BatchSize: nat := 5

  function Min(a: int, b: int): int {
    if a <= b then a else b
  }

  /** `s[i:]`, empty when `i` is past the end. */
  function Drop<T>(s: seq<T>, i: nat): seq<T> {
    if i <= |s| then s[i..] else []
  }

  /** The slices `s[i:i+5]` for `i` in `range(0, len(s), 5)`. */
  function Chunks<T>(s: seq<T>): seq<seq<T>>
    decreases |s|
  {
    if s == [] then []
    else
      var n := Min(BatchSize, |s|);
      [s[..n]] + Chunks(s[n..])
  }

  /** There are `ceil(len / 5)` batches. */
  lemma {:induction false} ChunksCount<T>(s: seq<T>)
    ensures |Chunks(s)| == (|s| + BatchSize - 1) / BatchSize
    decreases |s|
  {
    if s != [] {
      var n := Min(BatchSize, |s|);
      ChunksCount(s[n..]);
    }
  }

  /** The `j`-th batch is the slice that starts at `5 * j`; there are `ceil(len / 5)` of them. */
  lemma {:induction false} ChunksAreSlices<T>(s: seq<T>)
    ensures |Chunks(s)| == (|s| + BatchSize - 1) / BatchSize
    ensures forall j :: 0 <= j < |Chunks(s)| ==>
      BatchSize * j < |s| && Chunks(s)[j] == s[BatchSize * j .. Min(BatchSize * j + BatchSize, |s|)]
    decreases |s|
  {
    ChunksCount(s);
    if s != [] {
      var n := Min(BatchSize, |s|);
      var rest := s[n..];
      ChunksAreSlices(rest);
      forall j | 1 <= j < |Chunks(s)|
        ensures BatchSize * j < |s| && Chunks(s)[j] == s[BatchSize * j .. Min(BatchSize * j + BatchSize, |s|)]
      {
        var k := BatchSize * (j - 1);
        assert Chunks(s)[j] == Chunks(rest)[j - 1];
        assert n == BatchSize && BatchSize * j == k + BatchSize;
        assert k < |rest| && Chunks(rest)[j - 1] == rest[k .. Min(k + BatchSize, |rest|)];
        SliceOfDrop(s, n, k, Min(k + BatchSize, |rest|));
      }
    }
  }

  /** A slice of `s[n..]` is the slice of `s` shifted by `n`. */
  lemma SliceOfDrop<T>(s: seq<T>, n: nat, lo: nat, hi: nat)
    requires n <= |s| && lo <= hi <= |s| - n
    ensures s[n..][lo..hi] == s[n + lo .. n + hi]
  {
  }

  function Flatten<T>(cs: seq<seq<T>>): seq<T>
    decreases |cs|
  {
    if cs == [] then [] else cs[0] + Flatten(cs[1..])
  }

  /** The batches cover the list exactly, in order: every file is in one batch and no file is in two. */
  lemma {:induction false} ChunksCover<T>(s: seq<T>)
    ensures Flatten(Chunks(s)) == s
    ensures forall j :: 0 <= j < |Chunks(s)| ==> 1 <= |Chunks(s)[j]| <= BatchSize
    ensures forall j :: 0 <= j < |Chunks(s)| - 1 ==> |Chunks(s)[j]| == BatchSize
    decreases |s|
  {
    if s != [] {
      var n := Min(BatchSize, |s|);
      ChunksCover(s[n..]);
      assert Chunks(s)[1..] == Chunks(s[n..]);
      assert s == s[..n] + s[n..];
    }
  }

  /** One step of the batch loop: the batches from `i` on are the slice at `i` and the batches from `i + 5` on. */
  lemma ChunksStep<T>(s: seq<T>, i: nat)
    requires i < |s|
    ensures Chunks(Drop(s, i)) == [s[i..Min(i + BatchSize, |s|)]] + Chunks(Drop(s, i + BatchSize))
  {
    var t := s[i..];
    var n := Min(BatchSize, |t|);
    assert t[..n] == s[i..Min(i + BatchSize, |s|)];
    assert t[n..] == Drop(s, i + BatchSize);
  }

  // ---------------------------------------------------------------------------
  // Reading one batch: `{fpath: open(fpath, "rb").read() for fpath in batch}`

  /** `d[path] = content` on a dict kept as its entries in insertion order. */
  function DictSet(d: seq<FileEntry>, path: string, content: seq<bv8>): seq<FileEntry>
    decreases |d|
  {
    if d == [] then [FileEntry(path, content)]
    else if d[0].path == path then [FileEntry(path, content)] + d[1..]
    else [d[0]] + DictSet(d[1..], path, content)
  }

  function Paths(d: seq<FileEntry>): (r: seq<string>)
    ensures |r| == |d| && forall k :: 0 <= k < |d| ==> r[k] == d[k].path
  {
    seq(|d|, k requires 0 <= k < |d| => d[k].path)
  }

  predicate Distinct<T(==)>(s: seq<T>) {
    forall i, j :: 0 <= i < j < |s| ==> s[i] != s[j]
  }

  /** The paths of an entry put in front. */
  lemma PathsCons(e: FileEntry, d: seq<FileEntry>)
    ensures Paths([e] + d) == [e.path] + Paths(d)
  {
  }

  /** Setting a key adds it at the end when it is new and keeps the keys as they are otherwise. */
  lemma {:induction false} DictSetPaths(d: seq<FileEntry>, path: string, content: seq<bv8>)
    ensures Paths(DictSet(d, path, content)) == if path in Paths(d) then Paths(d) else Paths(d) + [path]
    decreases |d|
  {
    if d != [] {
      assert d == [d[0]] + d[1..];
      PathsCons(d[0], d[1..]);
      if d[0].path != path {
        DictSetPaths(d[1..], path, content);
        PathsCons(d[0], DictSet(d[1..], path, content));
        assert path in Paths(d) <==> path in Paths(d[1..]);
      } else {
        PathsCons(FileEntry(path, content), d[1..]);
      }
    }
  }

  /** Setting a key stores the content under it and keeps the other entries. */
  lemma {:induction false} DictSetEntries(d: seq<FileEntry>, path: string, content: seq<bv8>)
    ensures forall e :: e in DictSet(d, path, content) ==> e in d || e == FileEntry(path, content)
    ensures FileEntry(path, content) in DictSet(d, path, content)
    decreases |d|
  {
    if d != [] && d[0].path != path {
      DictSetEntries(d[1..], path, content);
      assert DictSet(d, path, content) == [d[0]] + DictSet(d[1..], path, content);
    }
  }

  /** Setting a key keeps the keys distinct, adds the key at the end when new, and stores the content under it. */
  lemma DictSetKeys(d: seq<FileEntry>, path: string, content: seq<bv8>)
    requires Distinct(Paths(d))
    ensures Distinct(Paths(DictSet(d, path, content)))
    ensures path !in Paths(d) ==> Paths(DictSet(d, path, content)) == Paths(d) + [path]
    ensures path in Paths(d) ==> Paths(DictSet(d, path, content)) == Paths(d)
    ensures forall e :: e in DictSet(d, path, content) ==> e in d || e == FileEntry(path, content)
    ensures FileEntry(path, content) in DictSet(d, path, content)
  {
    DictSetPaths(d, path, content);
    DictSetEntries(d, path, content);
  }

  /** The files of a batch read in order; the first read that fails ends the batch with its message. */
  function ReadBatch(batch: seq<string>, read: string -> Result<seq<bv8>, string>): Result<seq<FileEntry>, string>
    decreases |batch|
  {
    if batch == [] then Success([])
    else
      var entries :- ReadBatch(batch[..|batch| - 1], read);
      var content :- read(batch[|batch| - 1]);
      Success(DictSet(entries, batch[|batch| - 1], content))
  }

  /** A batch is read whole exactly when every file in it can be read. */
  lemma {:induction false} ReadBatchWhole(batch: seq<string>, read: string -> Result<seq<bv8>, string>)
    ensures ReadBatch(batch, read).Success? <==> forall k :: 0 <= k < |batch| ==> read(batch[k]).Success?
    decreases |batch|
  {
    if batch != [] {
      var init := batch[..|batch| - 1];
      ReadBatchWhole(init, read);
      assert forall k :: 0 <= k < |init| ==> init[k] == batch[k];
    }
  }

  /**
   * The dict of a batch read whole has one entry per distinct path, each
   * holding that file's bytes, and a batch without repeated paths keeps its order.
   */
  lemma {:induction false} ReadBatchDict(batch: seq<string>, read: string -> Result<seq<bv8>, string>)
    requires ReadBatch(batch, read).Success?
    ensures var entries := ReadBatch(batch, read).value;
      && Distinct(Paths(entries))
      && |entries| <= |batch|
      && (forall p :: p in Paths(entries) <==> p in batch)
      && (forall e :: e in entries ==> read(e.path) == Success(e.content))
      && (Distinct(batch) ==> Paths(entries) == batch)
    decreases |batch|
  {
    if batch != [] {
      var init := batch[..|batch| - 1];
      var last := batch[|batch| - 1];
      ReadBatchDict(init, read);
      assert batch == init + [last];
      var entries := ReadBatch(init, read).value;
      DictSetKeys(entries, last, read(last).value);
      if Distinct(batch) {
        assert Distinct(init);
        assert last !in init;
      }
    }
  }

  /** Both: when a batch is read whole, and what its dict then holds. */
  lemma ReadBatchEntries(batch: seq<string>, read: string -> Result<seq<bv8>, string>)
    ensures ReadBatch(batch, read).Success? <==> forall k :: 0 <= k < |batch| ==> read(batch[k]).Success?
    ensures ReadBatch(batch, read).Success? ==>
      var entries := ReadBatch(batch, read).value;
      && Distinct(Paths(entries))
      && |entries| <= |batch|
      && (forall p :: p in Paths(entries) <==> p in batch)
      && (forall e :: e in entries ==> read(e.path) == Success(e.content))
      && (Distinct(batch) ==> Paths(entries) == batch)
  {
    ReadBatchWhole(batch, read);
    if ReadBatch(batch, read).Success? {
      ReadBatchDict(batch, read);
    }
  }

  // ---------------------------------------------------------------------------
  // The upload: the batches, then the finishing call

  /** Where the upload stopped (the message of what failed, if anything) and the calls it made. */
  datatype UploadOutcome = UploadOutcome(failure: Option<string>, calls: seq<ApiCall>)

  /**
   * The try block of create_dataset: one `upload_files` call per batch, then
   * the finishing call with an empty dict; the first failed read or raised
   * call ends it.
   */
  function UploadRun(chunks: seq<seq<string>>, datasetId: Json, containerName: Json,
                     read: string -> Result<seq<bv8>, string>, server: Server, history: seq<ApiCall>): UploadOutcome
    decreases |chunks|
  {
    if chunks == [] then
      var finish := UploadFilesCall(datasetId, containerName, [], true);
      match server(history, finish)
      case Raised(m) => UploadOutcome(Some(m), [finish])
      case Returned(_) => UploadOutcome(None, [finish])
    else
      match ReadBatch(chunks[0], read)
      case Failure(m) => UploadOutcome(Some(m), [])
      case Success(fileDict) =>
        var call := UploadFilesCall(datasetId, containerName, fileDict, false);
        match server(history, call)
        case Raised(m) => UploadOutcome(Some(m), [call])
        case Returned(_) =>
          var rest := UploadRun(chunks[1..], datasetId, containerName, read, server, history + [call]);
          UploadOutcome(rest.failure, [call] + rest.calls)
  }

  /** A finished upload sent every batch, read whole, in order, and then the finishing call. */
  lemma {:induction false} UploadRunSuccess(chunks: seq<seq<string>>, datasetId: Json, containerName: Json,
                                            read: string -> Result<seq<bv8>, string>, server: Server, history: seq<ApiCall>)
    requires UploadRun(chunks, datasetId, containerName, read, server, history).failure.None?
    ensures var calls := UploadRun(chunks, datasetId, containerName, read, server, history).calls;
      && |calls| == |chunks| + 1
      && (forall j :: 0 <= j < |chunks| ==>
            ReadBatch(chunks[j], read).Success?
            && calls[j] == UploadFilesCall(datasetId, containerName, ReadBatch(chunks[j], read).value, false))
      && calls[|chunks|] == UploadFilesCall(datasetId, containerName, [], true)
    decreases |chunks|
  {
    if chunks != [] {
      var call := UploadFilesCall(datasetId, containerName, ReadBatch(chunks[0], read).value, false);
      UploadRunSuccess(chunks[1..], datasetId, containerName, read, server, history + [call]);
      assert forall j :: 1 <= j < |chunks| ==> chunks[j] == chunks[1..][j - 1];
    }
  }

  /** A failed upload made only upload calls, at most one per batch plus the finishing one. */
  lemma {:induction false} UploadRunFailure(chunks: seq<seq<string>>, datasetId: Json, containerName: Json,
                                            read: string -> Result<seq<bv8>, string>, server: Server, history: seq<ApiCall>)
    requires UploadRun(chunks, datasetId, containerName, read, server, history).failure.Some?
    ensures var calls := UploadRun(chunks, datasetId, containerName, read, server, history).calls;
      && |calls| <= |chunks| + 1
      && forall j :: 0 <= j < |calls| ==> calls[j].UploadFilesCall? && calls[j].datasetId == datasetId
    decreases |chunks|
  {
    if chunks != [] && ReadBatch(chunks[0], read).Success? {
      var call := UploadFilesCall(datasetId, containerName, ReadBatch(chunks[0], read).value, false);
      if server(history, call).Returned? {
        UploadRunFailure(chunks[1..], datasetId, containerName, read, server, history + [call]);
      }
    }
  }

  /** UploadRun on a non-empty list of batches, one batch at a time. */
  lemma UploadRunStep(chunks: seq<seq<string>>, datasetId: Json, containerName: Json,
                      read: string -> Result<seq<bv8>, string>, server: Server, history: seq<ApiCall>)
    requires chunks != []
    ensures ReadBatch(chunks[0], read).Failure? ==>
      UploadRun(chunks, datasetId, containerName, read, server, history) == UploadOutcome(Some(ReadBatch(chunks[0], read).error), [])
    ensures ReadBatch(chunks[0], read).Success? ==>
      var call := UploadFilesCall(datasetId, containerName, ReadBatch(chunks[0], read).value, false);
      var rest := UploadRun(chunks[1..], datasetId, containerName, read, server, history + [call]);
      UploadRun(chunks, datasetId, containerName, read, server, history)
        == if server(history, call).Raised? then UploadOutcome(Some(server(history, call).message), [call])
           else UploadOutcome(rest.failure, [call] + rest.calls)
  {
  }

  /**
   * The loop `for i in range(0, len(all_filepaths), 5)` from `i` on, then the
   * finishing call: the same upload as UploadRun on the batches from `i` on
   * (RunFromChunks).
   */
  function RunFrom(s: seq<string>, i: nat, datasetId: Json, containerName: Json,
                   read: string -> Result<seq<bv8>, string>, server: Server, history: seq<ApiCall>): UploadOutcome
    decreases |s| - i
  {
    if i >= |s| then
      var finish := UploadFilesCall(datasetId, containerName, [], true);
      match server(history, finish)
      case Raised(m) => UploadOutcome(Some(m), [finish])
      case Returned(_) => UploadOutcome(None, [finish])
    else
      match ReadBatch(s[i..Min(i + BatchSize, |s|)], read)
      case Failure(m) => UploadOutcome(Some(m), [])
      case Success(fileDict) =>
        var call := UploadFilesCall(datasetId, containerName, fileDict, false);
        match server(history, call)
        case Raised(m) => UploadOutcome(Some(m), [call])
        case Returned(_) =>
          var rest := RunFrom(s, i + BatchSize, datasetId, containerName, read, server, history + [call]);
          UploadOutcome(rest.failure, [call] + rest.calls)
  }

  /** The stepped loop uploads the batches of Chunks, one after the other. */
  lemma {:induction false} RunFromChunks(s: seq<string>, i: nat, datasetId: Json, containerName: Json,
                                         read: string -> Result<seq<bv8>, string>, server: Server, history: seq<ApiCall>)
    ensures RunFrom(s, i, datasetId, containerName, read, server, history)
         == UploadRun(Chunks(Drop(s, i)), datasetId, containerName, read, server, history)
    decreases |s| - i
  {
    if i >= |s| {
      assert Drop(s, i) == [];
    } else {
      ChunksStep(s, i);
      UploadRunStep(Chunks(Drop(s, i)), datasetId, containerName, read, server, history);
      var batch := s[i..Min(i + BatchSize, |s|)];
      if ReadBatch(batch, read).Success? {
        var call := UploadFilesCall(datasetId, containerName, ReadBatch(batch, read).value, false);
        RunFromChunks(s, i + BatchSize, datasetId, containerName, read, server, history + [call]);
      }
    }
  }

  /** An upload outcome preceded by the calls already made. */
  function After(sent: seq<ApiCall>, u: UploadOutcome): UploadOutcome {
    UploadOutcome(u.failure, sent + u.calls)
  }

  /** The trace after the calls already made and then the rest of an upload. */
  lemma AfterTrace(start: seq<ApiCall>, sent: seq<ApiCall>, u: UploadOutcome)
    ensures (start + sent) + u.calls == start + After(sent, u).calls
  {
  }

  /** One more call made moves from the outcome ahead to the calls already made. */
  lemma AfterAfter(start: seq<ApiCall>, sent: seq<ApiCall>, call: ApiCall, u: UploadOutcome)
    ensures After(sent, After([call], u)) == After(sent + [call], u)
    ensures (start + sent) + [call] == start + (sent + [call])
  {
  }

  /** A call and then the calls after it, as the trace grows. */
  lemma CallThen(trace: seq<ApiCall>, call: ApiCall, rest: seq<ApiCall>)
    ensures (trace + [call]) + rest == trace + ([call] + rest)
  {
  }

  /**
   * One pass of the batch loop: read the batch that starts at `i` whole, then
   * send it. On failure the pass is where the upload ends; otherwise it made
   * the first call of the upload from `i` and the rest is the upload from the
   * next batch on.
   */
  method SendBatch(api: BackendApi, datasetId: Json, containerName: Json, allFilepaths: seq<string>, i: nat,
                   read: string -> Result<seq<bv8>, string>) returns (failure: Option<string>, ghost call: ApiCall)
    requires i < |allFilepaths|
    modifies api
    ensures var u := RunFrom(allFilepaths, i, datasetId, containerName, read, api.server, old(api.trace));
      failure.Some? ==> failure == u.failure && api.trace == old(api.trace) + u.calls
    ensures failure.None? ==>
      && api.trace == old(api.trace) + [call]
      && RunFrom(allFilepaths, i, datasetId, containerName, read, api.server, old(api.trace))
         == After([call], RunFrom(allFilepaths, i + BatchSize, datasetId, containerName, read, api.server, api.trace))
  {
    var fileDict := ReadBatch(allFilepaths[i..Min(i + BatchSize, |allFilepaths|)], read);
    if fileDict.Failure? {
      return Some(fileDict.error), UploadFilesCall(datasetId, containerName, [], false);
    }
    var batchCall := UploadFilesCall(datasetId, containerName, fileDict.value, false);
    call := batchCall;
    var response := api.Send(batchCall);
    failure := if response.Raised? then Some(response.message) else None;
  }

  /** The batch loop and the finishing call, proved against RunFrom. */
  method UploadBatches(api: BackendApi, datasetId: Json, containerName: Json, allFilepaths: seq<string>,
                       read: string -> Result<seq<bv8>, string>) returns (failure: Option<string>)
    modifies api
    ensures var u := RunFrom(allFilepaths, 0, datasetId, containerName, read, api.server, old(api.trace));
      failure == u.failure && api.trace == old(api.trace) + u.calls
  {
    ghost var start := api.trace;
    ghost var whole := RunFrom(allFilepaths, 0, datasetId, containerName, read, api.server, start);
    ghost var sent: seq<ApiCall> := [];
    assert whole == After(sent, whole);
    var i := 0;
    while i < |allFilepaths|
      invariant api.trace == start + sent
      invariant whole == After(sent, RunFrom(allFilepaths, i, datasetId, containerName, read, api.server, start + sent))
      decreases |allFilepaths| - i
    {
      ghost var call;
      ghost var here := RunFrom(allFilepaths, i, datasetId, containerName, read, api.server, start + sent);
      failure, call := SendBatch(api, datasetId, containerName, allFilepaths, i, read);
      if failure.Some? {
        AfterTrace(start, sent, here);
        return;
      }
      ghost var next := RunFrom(allFilepaths, i + BatchSize, datasetId, containerName, read, api.server, api.trace);
      AfterAfter(start, sent, call, next);
      sent := sent + [call];
      i := i + BatchSize;
    }
    ghost var here := RunFrom(allFilepaths, i, datasetId, containerName, read, api.server, start + sent);
    failure := FinishUpload(api, datasetId, containerName, allFilepaths, i, read);
    AfterTrace(start, sent, here);
  }

  /** The finishing call `upload_files(..., is_finished=True)` with no files, once every batch was sent. */
  method FinishUpload(api: BackendApi, datasetId: Json, containerName: Json, ghost allFilepaths: seq<string>, ghost i: nat,
                      ghost read: string -> Result<seq<bv8>, string>) returns (failure: Option<string>)
    requires i >= |allFilepaths|
    modifies api
    ensures var u := RunFrom(allFilepaths, i, datasetId, containerName, read, api.server, old(api.trace));
      failure == u.failure && api.trace == old(api.trace) + u.calls
  {
    var response := api.Send(UploadFilesCall(datasetId, containerName, [], true));
    failure := if response.Raised? then Some(response.message) else None;
  }

  // ---------------------------------------------------------------------------
  // create_dataset

  /** What a call returns or raises, and the backend calls it made, in order. */
  datatype Outcome = Outcome(result: Result<Dataset, Error>, calls: seq<ApiCall>)

  /**
   * The steps after the creation call: the fields the returned Dataset is
   * built from (both returns of create_dataset build it from
   * `project`, `sensors` and these fields), or the error raised, and the calls made.
   */
  datatype Steps = Steps(fields: Result<Dict, Error>, calls: seq<ApiCall>)

  /** The files a local dataset uploads: the four folders' files, then the annotation file if one is named. */
  function UploadList(req: Dict, listing: string -> seq<string>): seq<string> {
    var annotationFile := PathField(req, "annotation_file");
    GatherPaths(FolderPaths(req), listing) + (if annotationFile.Some? then [annotationFile.value] else [])
  }

  /**
   * The try/except around the upload: a finished upload goes on to build the
   * dataset, a failed one marks the dataset failed and raises a connection
   * error (or whatever the marking call raises).
   */
  function UploadOrMarkFailed(data: Dict, datasetId: Json, containerName: Json, allFilepaths: seq<string>,
                              read: string -> Result<seq<bv8>, string>, server: Server, history: seq<ApiCall>): (r: Steps)
    ensures r.fields.Success? ==> r.fields.value == data
  {
    var upload := RunFrom(allFilepaths, 0, datasetId, containerName, read, server, history);
    if upload.failure.None? then
      Steps(Success(data), upload.calls)
    else
      var mark := UpdateDatasetCall(datasetId, upload.failure.value, "fail");
      match server(history + upload.calls, mark)
      case Raised(m) => Steps(Failure(BackendError(m)), upload.calls + [mark])
      case Returned(_) => Steps(Failure(ClientConnectionError), upload.calls + [mark])
  }

  /** The local-source part of create_dataset, after the dataset was created with the fields `data`. */
  function SdkUpload(req: Dict, data: Dict, files: LocalFiles, server: Server, history: seq<ApiCall>): (r: Steps)
    ensures r.fields.Success? ==> r.fields.value == data
  {
    var annotationFile := PathField(req, "annotation_file");
    if annotationFile.Some? && !files.isFile(annotationFile.value) then Steps(Failure(ValueError), [])
    else if "id" !in data then Steps(Failure(KeyError("id")), [])
    else
      var get := GetDatasetCall(data["id"]);
      match server(history, get)
      case Raised(m) => Steps(Failure(BackendError(m)), [get])
      case Returned(info) =>
        if "client_container_name" !in info then Steps(Failure(KeyError("client_container_name")), [get])
        else
          var rest := UploadOrMarkFailed(data, data["id"], info["client_container_name"],
                                         UploadList(req, files.listing), files.read, server, history + [get]);
          Steps(rest.fields, [get] + rest.calls)
  }

  /** What create_dataset does with the answer `body` of the creation call. */
  function AfterCreation(source: DataSource, req: Dict, body: Dict, files: LocalFiles,
                         server: Server, history: seq<ApiCall>): (r: Steps)
    ensures r.fields.Success? ==> r.fields.value == body - {"project", "sensors"}
  {
    if "project" !in body then Steps(Failure(KeyError("project")), [])
    else if "sensors" !in body then Steps(Failure(KeyError("sensors")), [])
    else
      var data := body - {"project", "sensors"};
      if source != Sdk then Steps(Success(data), [])
      else SdkUpload(req, data, files, server, history)
  }

  /** `Dataset(project=project, sensors=sensors, **dataset_data)`, once the fields are there. */
  function Built(args: DatasetArgs, fields: Result<Dict, Error>): Result<Dataset, Error>
    requires fields.Success? ==> "project" !in fields.value && "sensors" !in fields.value
  {
    if fields.Failure? then Failure(fields.error) else DatasetFromFields(args.project, args.sensors, fields.value)
  }

  /**
   * create_dataset with a backend: the source is checked, the request composed
   * and sent, and the dataset built from the answer; a local source has its
   * files uploaded first. `accepts` is DatasetAPISchema's verdict on the request.
   */
  function DatasetCreation(args: DatasetArgs, accepts: Dict -> bool, files: LocalFiles, server: Server, history: seq<ApiCall>): Outcome
    requires ArgsWellFormed(args)
  {
    var source := DataSourceFromWire(args.dataSource);
    if source.None? then Outcome(Failure(ValueError), [])
    else match ComposedRequest(args, accepts)
      case Failure(e) => Outcome(Failure(e), [])
      case Success(req) => Submitted(args, source.value, req, files, server, history)
  }

  /** The creation call with the accepted request `req`, and what follows it. */
  function Submitted(args: DatasetArgs, source: DataSource, req: Dict, files: LocalFiles,
                     server: Server, history: seq<ApiCall>): Outcome
  {
    var create := CreateDatasetCall(req);
    match server(history, create)
    case Raised(_) => Outcome(Failure(ClientConnectionError), [create])
    case Returned(body) =>
      var rest := AfterCreation(source, req, body, files, server, history + [create]);
      Outcome(Built(args, rest.fields), [create] + rest.calls)
  }

  /**
   * create_dataset. `client` is the client passed in or else the default
   * connection; null when there is neither.
   */
  method CreateDataset(client: BackendApi?, args: DatasetArgs, accepts: Dict -> bool, files: LocalFiles)
    returns (r: Result<Dataset, Error>)
    requires ArgsWellFormed(args)
    modifies client
    ensures client == null ==>
      r == if DataSourceFromWire(args.dataSource).None? then Failure(ValueError) else Failure(KeyError("default"))
    ensures client != null ==>
      var o := DatasetCreation(args, accepts, files, client.server, old(client.trace));
      r == o.result && client.trace == old(client.trace) + o.calls
  {
    var dataSource := DataSourceFromWire(args.dataSource);
    if dataSource.None? {
      return Failure(ValueError);
    }
    if client == null {
      return Failure(KeyError("default"));
    }
    r := CreateWith(client, args, dataSource.value, accepts, files);
  }

  /** create_dataset once the source is known and a backend is at hand. */
  method CreateWith(api: BackendApi, args: DatasetArgs, dataSource: DataSource, accepts: Dict -> bool, files: LocalFiles)
    returns (r: Result<Dataset, Error>)
    requires ArgsWellFormed(args) && DataSourceFromWire(args.dataSource) == Some(dataSource)
    modifies api
    ensures var o := DatasetCreation(args, accepts, files, api.server, old(api.trace));
      r == o.result && api.trace == old(api.trace) + o.calls
  {
    var sensorIds := SensorIds(args.sensors);
    var projectId := OptIntJson(args.project.id);
    if "project_id" in args.kwargs || "sensor_ids" in args.kwargs {
      return Failure(TypeError);
    }
    var rawDatasetData := DatasetRequestOf(args, projectId, sensorIds);
    if !accepts(rawDatasetData) {
      return Failure(ValidationError("dataset"));
    }
    r := Submit(api, args, dataSource, rawDatasetData, files);
  }

  /** Sends the creation call and finishes, proved against Submitted. */
  method Submit(api: BackendApi, args: DatasetArgs, dataSource: DataSource, rawDatasetData: Dict, files: LocalFiles)
    returns (r: Result<Dataset, Error>)
    modifies api
    ensures var o := Submitted(args, dataSource, rawDatasetData, files, api.server, old(api.trace));
      r == o.result && api.trace == old(api.trace) + o.calls
  {
    var created := api.Send(CreateDatasetCall(rawDatasetData));
    if created.Raised? {
      return Failure(ClientConnectionError);
    }
    ghost var after := api.trace;
    var datasetData := FinishCreation(api, dataSource, rawDatasetData, created.body, files);
    CallThen(old(api.trace), CreateDatasetCall(rawDatasetData), api.trace[|after|..]);
    return Built(args, datasetData);
  }

  /** After the creation call: the answer's nested project and sensors are dropped, and a local source uploads. */
  method FinishCreation(api: BackendApi, dataSource: DataSource, rawDatasetData: Dict, datasetData: Dict, files: LocalFiles)
    returns (r: Result<Dict, Error>)
    modifies api
    ensures var o := AfterCreation(dataSource, rawDatasetData, datasetData, files, api.server, old(api.trace));
      r == o.fields && api.trace == old(api.trace) + o.calls
  {
    var data := datasetData;
    if "project" !in data {
      return Failure(KeyError("project"));
    }
    data := data - {"project"};
    if "sensors" !in data {
      return Failure(KeyError("sensors"));
    }
    data := data - {"sensors"};
    assert data == datasetData - {"project", "sensors"};
    if dataSource == Azure || dataSource == Aws {
      return Success(data);
    }
    r := UploadLocalFiles(api, rawDatasetData, data, files);
  }

  /** The loop over the folders: each present folder's files, extending the list. */
  method CollectFilepaths(folderPaths: seq<Option<string>>, listing: string -> seq<string>) returns (allFilepaths: seq<string>)
    ensures allFilepaths == GatherPaths(folderPaths, listing)
  {
    allFilepaths := [];
    for i := 0 to |folderPaths|
      invariant allFilepaths == GatherPaths(folderPaths[..i], listing)
    {
      assert folderPaths[..i + 1][..i] == folderPaths[..i];
      if folderPaths[i].Some? {
        allFilepaths := allFilepaths + listing(folderPaths[i].value);
      }
    }
    assert folderPaths[..|folderPaths|] == folderPaths;
  }

  /** The local-source part of create_dataset, proved against SdkUpload. */
  method UploadLocalFiles(api: BackendApi, rawDatasetData: Dict, datasetData: Dict, files: LocalFiles)
    returns (r: Result<Dict, Error>)
    modifies api
    ensures var o := SdkUpload(rawDatasetData, datasetData, files, api.server, old(api.trace));
      r == o.fields && api.trace == old(api.trace) + o.calls
  {
    var folderPaths := FolderPaths(rawDatasetData);
    var annotationFile := PathField(rawDatasetData, "annotation_file");
    var allFilepaths := CollectFilepaths(folderPaths, files.listing);
    if annotationFile.Some? {
      if !files.isFile(annotationFile.value) {
        return Failure(ValueError);
      }
      allFilepaths := allFilepaths + [annotationFile.value];
    }
    assert allFilepaths == UploadList(rawDatasetData, files.listing);
    if "id" !in datasetData {
      return Failure(KeyError("id"));
    }
    var info := api.Send(GetDatasetCall(datasetData["id"]));
    if info.Raised? {
      return Failure(BackendError(info.message));
    }
    if "client_container_name" !in info.body {
      return Failure(KeyError("client_container_name"));
    }
    var containerName := info.body["client_container_name"];
    ghost var after := api.trace;
    r := TryUpload(api, datasetData, datasetData["id"], containerName, allFilepaths, files.read);
    CallThen(old(api.trace), GetDatasetCall(datasetData["id"]), api.trace[|after|..]);
  }

  /** The try block and its except clause, proved against UploadOrMarkFailed. */
  method TryUpload(api: BackendApi, data: Dict, datasetId: Json, containerName: Json, allFilepaths: seq<string>,
                   read: string -> Result<seq<bv8>, string>) returns (r: Result<Dict, Error>)
    modifies api
    ensures var o := UploadOrMarkFailed(data, datasetId, containerName, allFilepaths, read, api.server, old(api.trace));
      r == o.fields && api.trace == old(api.trace) + o.calls
  {
    var failure := UploadBatches(api, datasetId, containerName, allFilepaths, read);
    if failure.Some? {
      var marked := api.Send(UpdateDatasetCall(datasetId, failure.value, "fail"));
      if marked.Raised? {
        return Failure(BackendError(marked.message));
      }
      return Failure(ClientConnectionError);
    }
    return Success(data);
  }

  // ---------------------------------------------------------------------------
  // What create_dataset promises

  /** A path of the flattened batches lies in one of them. */
  lemma {:induction false} FlattenMember<T>(cs: seq<seq<T>>, x: T)
    requires x in Flatten(cs)
    ensures exists j :: 0 <= j < |cs| && x in cs[j]
    decreases |cs|
  {
    if x in cs[0] {
      assert 0 < |cs|;
    } else {
      FlattenMember(cs[1..], x);
      var j :| 0 <= j < |cs[1..]| && x in cs[1..][j];
      assert x in cs[j + 1];
    }
  }

  /**
   * A local upload that went through read the dataset, sent each batch of the
   * upload list read whole, in order, and then the finishing call.
   */
  lemma SdkUploadFinished(req: Dict, data: Dict, files: LocalFiles, server: Server, history: seq<ApiCall>)
    requires SdkUpload(req, data, files, server, history).fields.Success?
    ensures var s := SdkUpload(req, data, files, server, history);
      var cs := Chunks(UploadList(req, files.listing));
      && "id" in data
      && |s.calls| == |cs| + 2
      && s.calls[0] == GetDatasetCall(data["id"])
      && (forall j :: 1 <= j <= |cs| ==>
            s.calls[j].UploadFilesCall? && s.calls[j].datasetId == data["id"] && !s.calls[j].isFinished
            && ReadBatch(cs[j - 1], files.read) == Success(s.calls[j].fileDict))
      && s.calls[|cs| + 1].UploadFilesCall? && s.calls[|cs| + 1].datasetId == data["id"]
      && s.calls[|cs| + 1].isFinished && s.calls[|cs| + 1].fileDict == []
  {
    var get := GetDatasetCall(data["id"]);
    var info := server(history, get).body;
    var list := UploadList(req, files.listing);
    var cs := Chunks(list);
    RunFromChunks(list, 0, data["id"], info["client_container_name"], files.read, server, history + [get]);
    assert Drop(list, 0) == list;
    UploadRunSuccess(cs, data["id"], info["client_container_name"], files.read, server, history + [get]);
  }

  /**
   * A local upload that failed after reading the dataset marks it failed: the
   * upload calls, then the `fail` update, and the error is the connection
   * error or what the update raised.
   */
  lemma SdkUploadMarksFailure(req: Dict, data: Dict, files: LocalFiles, server: Server, history: seq<ApiCall>)
    ensures var s := SdkUpload(req, data, files, server, history);
      |s.calls| > 1 ==>
        && s.calls[0].GetDatasetCall? && "id" in data && s.calls[0].datasetId == data["id"]
        && (s.calls[|s.calls| - 1].UpdateDatasetCall? <==> s.fields.Failure?)
        && (s.fields.Failure? ==>
              && s.calls[|s.calls| - 1] == UpdateDatasetCall(data["id"], s.calls[|s.calls| - 1].memo, "fail")
              && (s.fields.error == ClientConnectionError || s.fields.error.BackendError?)
              && forall j :: 1 <= j < |s.calls| - 1 ==> s.calls[j].UploadFilesCall? && s.calls[j].datasetId == data["id"])
  {
    var s := SdkUpload(req, data, files, server, history);
    if |s.calls| > 1 {
      var get := GetDatasetCall(data["id"]);
      var info := server(history, get).body;
      var list := UploadList(req, files.listing);
      var cs := Chunks(list);
      RunFromChunks(list, 0, data["id"], info["client_container_name"], files.read, server, history + [get]);
      assert Drop(list, 0) == list;
      var upload := UploadRun(cs, data["id"], info["client_container_name"], files.read, server, history + [get]);
      if upload.failure.Some? {
        UploadRunFailure(cs, data["id"], info["client_container_name"], files.read, server, history + [get]);
      } else {
        UploadRunSuccess(cs, data["id"], info["client_container_name"], files.read, server, history + [get]);
      }
    }
  }

  /** The paths of the upload calls' file dicts, one call after the other. */
  function SentPaths(calls: seq<ApiCall>): seq<string>
    decreases |calls|
  {
    if calls == [] then []
    else (if calls[0].UploadFilesCall? then Paths(calls[0].fileDict) else []) + SentPaths(calls[1..])
  }

  /** Upload calls whose file dicts hold the given batches, in order, send the batches one after the other. */
  lemma {:induction false} SentPathsFlatten(calls: seq<ApiCall>, cs: seq<seq<string>>)
    requires |calls| == |cs|
    requires forall j :: 0 <= j < |calls| ==> calls[j].UploadFilesCall? && Paths(calls[j].fileDict) == cs[j]
    ensures SentPaths(calls) == Flatten(cs)
    decreases |calls|
  {
    if calls != [] {
      SentPathsFlatten(calls[1..], cs[1..]);
    }
  }

  /** A slice of a list without repeats has none either. */
  lemma DistinctSlice<T>(s: seq<T>, lo: nat, hi: nat)
    requires lo <= hi <= |s| && Distinct(s)
    ensures Distinct(s[lo..hi])
  {
    forall i, j | 0 <= i < j < hi - lo
      ensures s[lo..hi][i] != s[lo..hi][j]
    {
      assert s[lo..hi][i] == s[lo + i] && s[lo..hi][j] == s[lo + j];
    }
  }

  /**
   * The calls of a finished local upload: the dataset read, one call per batch
   * of at most five files, each holding exactly the files of its batch, once
   * each, with the bytes read from them, then the finishing call with no
   * files. A list without repeats is sent whole, in order, each file once.
   */
  ghost predicate UploadedAll(calls: seq<ApiCall>, list: seq<string>, read: string -> Result<seq<bv8>, string>) {
    && |calls| == |Chunks(list)| + 2
    && calls[0].GetDatasetCall?
    && (forall j :: 1 <= j < |calls| ==> calls[j].UploadFilesCall? && calls[j].datasetId == calls[0].datasetId)
    && (forall j :: 1 <= j < |calls| - 1 ==> !calls[j].isFinished && |calls[j].fileDict| <= BatchSize)
    && calls[|calls| - 1].isFinished && calls[|calls| - 1].fileDict == []
    && (forall j :: 1 <= j < |calls| - 1 ==> Distinct(Paths(calls[j].fileDict)))
    && (forall j, p :: 1 <= j < |calls| - 1 ==> (p in Paths(calls[j].fileDict) <==> p in Chunks(list)[j - 1]))
    && (forall p :: p in list ==> exists j :: 1 <= j < |calls| && p in Paths(calls[j].fileDict))
    && (forall j, e :: 1 <= j < |calls| && e in calls[j].fileDict ==> read(e.path) == Success(e.content))
    && (Distinct(list) ==> SentPaths(calls[1..|calls| - 1]) == list)
  }

  /** A local upload that went through uploaded everything on its list. */
  lemma SdkUploadUploadsAll(req: Dict, data: Dict, files: LocalFiles, server: Server, history: seq<ApiCall>)
    requires SdkUpload(req, data, files, server, history).fields.Success?
    ensures UploadedAll(SdkUpload(req, data, files, server, history).calls, UploadList(req, files.listing), files.read)
  {
    SdkUploadFinished(req, data, files, server, history);
    BatchCallsUploadAll(SdkUpload(req, data, files, server, history).calls, data["id"], UploadList(req, files.listing), files.read);
  }

  /** The dataset read, one call per batch read whole, and the finishing call upload the whole list. */
  lemma BatchCallsUploadAll(calls: seq<ApiCall>, datasetId: Json, list: seq<string>, read: string -> Result<seq<bv8>, string>)
    requires |calls| == |Chunks(list)| + 2
    requires calls[0] == GetDatasetCall(datasetId)
    requires forall j :: 1 <= j <= |Chunks(list)| ==>
      calls[j].UploadFilesCall? && calls[j].datasetId == datasetId && !calls[j].isFinished
      && ReadBatch(Chunks(list)[j - 1], read) == Success(calls[j].fileDict)
    requires calls[|calls| - 1].UploadFilesCall? && calls[|calls| - 1].datasetId == datasetId
    requires calls[|calls| - 1].isFinished && calls[|calls| - 1].fileDict == []
    ensures UploadedAll(calls, list, read)
  {
    BatchCallsCover(calls, list, read);
    BatchCallsExact(calls, list, read);
    if Distinct(list) {
      BatchCallsInOrder(calls, list, read);
    }
  }

  /** The batch calls hold every path of the list, each with the bytes read from it, and at most five files each. */
  lemma BatchCallsCover(calls: seq<ApiCall>, list: seq<string>, read: string -> Result<seq<bv8>, string>)
    requires |calls| == |Chunks(list)| + 2
    requires forall j :: 1 <= j <= |Chunks(list)| ==>
      calls[j].UploadFilesCall? && ReadBatch(Chunks(list)[j - 1], read) == Success(calls[j].fileDict)
    requires calls[|calls| - 1].UploadFilesCall? && calls[|calls| - 1].fileDict == []
    ensures forall p :: p in list ==> exists j :: 1 <= j < |calls| && p in Paths(calls[j].fileDict)
    ensures forall j, e :: 1 <= j < |calls| && e in calls[j].fileDict ==> read(e.path) == Success(e.content)
    ensures forall j :: 1 <= j < |calls| - 1 ==> |calls[j].fileDict| <= BatchSize
  {
    ChunksCover(list);
    forall j | 1 <= j < |calls| - 1
      ensures |calls[j].fileDict| <= BatchSize
      ensures forall p :: p in Paths(calls[j].fileDict) <==> p in Chunks(list)[j - 1]
      ensures forall e :: e in calls[j].fileDict ==> read(e.path) == Success(e.content)
    {
      ReadBatchEntries(Chunks(list)[j - 1], read);
    }
    forall p | p in list
      ensures exists j :: 1 <= j < |calls| && p in Paths(calls[j].fileDict)
    {
      FlattenMember(Chunks(list), p);
      var j :| 0 <= j < |Chunks(list)| && p in Chunks(list)[j];
      assert p in Paths(calls[j + 1].fileDict);
    }
  }

  /** Each batch call holds the files of its batch and no other, each once. */
  lemma BatchCallsExact(calls: seq<ApiCall>, list: seq<string>, read: string -> Result<seq<bv8>, string>)
    requires |calls| == |Chunks(list)| + 2
    requires forall j :: 1 <= j <= |Chunks(list)| ==>
      calls[j].UploadFilesCall? && ReadBatch(Chunks(list)[j - 1], read) == Success(calls[j].fileDict)
    ensures forall j :: 1 <= j < |calls| - 1 ==> Distinct(Paths(calls[j].fileDict))
    ensures forall j, p :: 1 <= j < |calls| - 1 ==> (p in Paths(calls[j].fileDict) <==> p in Chunks(list)[j - 1])
  {
    forall j | 1 <= j < |calls| - 1
      ensures Distinct(Paths(calls[j].fileDict))
      ensures forall p :: p in Paths(calls[j].fileDict) <==> p in Chunks(list)[j - 1]
    {
      ReadBatchEntries(Chunks(list)[j - 1], read);
    }
  }

  /** A list without repeats goes out whole, in order, each file in one batch call. */
  lemma BatchCallsInOrder(calls: seq<ApiCall>, list: seq<string>, read: string -> Result<seq<bv8>, string>)
    requires |calls| == |Chunks(list)| + 2 && Distinct(list)
    requires forall j :: 1 <= j <= |Chunks(list)| ==>
      calls[j].UploadFilesCall? && ReadBatch(Chunks(list)[j - 1], read) == Success(calls[j].fileDict)
    ensures SentPaths(calls[1..|calls| - 1]) == list
  {
    var cs := Chunks(list);
    var mid := calls[1..|calls| - 1];
    ChunksAreSlices(list);
    forall j | 0 <= j < |mid|
      ensures mid[j].UploadFilesCall? && Paths(mid[j].fileDict) == cs[j]
    {
      assert mid[j] == calls[j + 1];
      DistinctSlice(list, BatchSize * j, Min(BatchSize * j + BatchSize, |list|));
      ReadBatchEntries(cs[j], read);
    }
    SentPathsFlatten(mid, cs);
    ChunksCover(list);
  }

  /**
   * Nothing is sent exactly when the request is refused up front, and then
   * create_dataset raises; otherwise the request is sent as composed.
   */
  lemma RefusedRequestMakesNoCall(args: DatasetArgs, accepts: Dict -> bool, files: LocalFiles, server: Server, history: seq<ApiCall>)
    requires ArgsWellFormed(args)
    ensures var o := DatasetCreation(args, accepts, files, server, history);
      var source := DataSourceFromWire(args.dataSource);
      var refused := source.None? || "project_id" in args.kwargs || "sensor_ids" in args.kwargs || !accepts(DatasetRequest(args));
      && (o.calls == [] <==> refused)
      && (refused ==> o.result.Failure?)
      && (source.None? ==> o.result == Failure(ValueError))
      && (!refused ==> o == Submitted(args, source.value, DatasetRequest(args), files, server, history))
      && (!refused ==> o.calls[0] == CreateDatasetCall(DatasetRequest(args)))
  {
  }

  /**
   * Composing the request as the code is written: a keyword that repeats a
   * named parameter is a TypeError, and so is a refusal, because the handler
   * builds pydantic's ValidationError from a single message string, which
   * that class's constructor does not take.
   */
  function ComposedRequestAsWritten(args: DatasetArgs, accepts: Dict -> bool): (r: Result<Dict, Error>)
    requires ArgsWellFormed(args)
    ensures r.Failure? ==> r.error == TypeError
  {
    if "project_id" in args.kwargs || "sensor_ids" in args.kwargs then Failure(TypeError)
    else if !accepts(DatasetRequest(args)) then Failure(TypeError)
    else Success(DatasetRequest(args))
  }

  /** Composing the request as the docstring promises: a refusal raises ValidationError. */
  function ComposedRequest(args: DatasetArgs, accepts: Dict -> bool): (r: Result<Dict, Error>)
    requires ArgsWellFormed(args)
    ensures r.Success? ==> r.value == DatasetRequest(args) && accepts(r.value)
  {
    if "project_id" in args.kwargs || "sensor_ids" in args.kwargs then Failure(TypeError)
    else if !accepts(DatasetRequest(args)) then Failure(ValidationError("dataset"))
    else Success(DatasetRequest(args))
  }

  /** A request the schema refuses makes the handler raise TypeError where ValidationError was meant. */
  lemma ReraiseRaisesTypeError(args: DatasetArgs, accepts: Dict -> bool)
    requires ArgsWellFormed(args)
    requires "project_id" !in args.kwargs && "sensor_ids" !in args.kwargs
    requires !accepts(DatasetRequest(args))
    ensures ComposedRequestAsWritten(args, accepts) == Failure(TypeError)
    ensures ComposedRequest(args, accepts) == Failure(ValidationError("dataset"))
  {
  }

  /**
   * create_dataset composes its request as the docstring promises: with a
   * known source, it raises ValidationError exactly when the schema refuses
   * the request (no keyword repeats a parameter), and sends nothing then.
   */
  lemma RefusedRequestRaisesValidationError(args: DatasetArgs, accepts: Dict -> bool, files: LocalFiles, server: Server, history: seq<ApiCall>)
    requires ArgsWellFormed(args)
    requires DataSourceFromWire(args.dataSource).Some?
    ensures var o := DatasetCreation(args, accepts, files, server, history);
      var c := ComposedRequest(args, accepts);
      && (c.Failure? ==> o == Outcome(Failure(c.error), []))
      && (c.Success? ==> o == Submitted(args, DataSourceFromWire(args.dataSource).value, c.value, files, server, history))
      && (o.calls == [] && o.result == Failure(ValidationError("dataset")) <==>
            "project_id" !in args.kwargs && "sensor_ids" !in args.kwargs && !accepts(DatasetRequest(args)))
  {
  }

  /** Once sent, a cloud-storage request is all there is: no other call follows. */
  lemma CloudSubmissionOnlyCreates(args: DatasetArgs, source: DataSource, req: Dict, files: LocalFiles, server: Server, history: seq<ApiCall>)
    requires source != Sdk
    ensures Submitted(args, source, req, files, server, history).calls == [CreateDatasetCall(req)]
  {
  }

  /** A cloud-storage dataset is only created: no upload call and no other call follows. */
  lemma CloudDatasetNoUpload(args: DatasetArgs, accepts: Dict -> bool, files: LocalFiles, server: Server, history: seq<ApiCall>)
    requires ArgsWellFormed(args)
    requires DataSourceFromWire(args.dataSource) == Some(Azure) || DataSourceFromWire(args.dataSource) == Some(Aws)
    ensures var o := DatasetCreation(args, accepts, files, server, history);
      |o.calls| <= 1 && forall c :: c in o.calls ==> c == CreateDatasetCall(DatasetRequest(args))
  {
    RefusedRequestMakesNoCall(args, accepts, files, server, history);
    CloudSubmissionOnlyCreates(args, DataSourceFromWire(args.dataSource).value, DatasetRequest(args), files, server, history);
  }

  /** A dataset built after the request was sent comes from the answer, with the caller's project and sensors. */
  lemma SubmissionKeepsCallerProject(args: DatasetArgs, source: DataSource, req: Dict, files: LocalFiles, server: Server, history: seq<ApiCall>)
    ensures var o := Submitted(args, source, req, files, server, history);
      var create := CreateDatasetCall(req);
      o.result.Success? ==>
        && server(history, create).Returned?
        && "project" in server(history, create).body && "sensors" in server(history, create).body
        && o.result == DatasetFromFields(args.project, args.sensors, server(history, create).body - {"project", "sensors"})
        && o.result.value.project == args.project && o.result.value.sensors == args.sensors
  {
  }

  /**
   * A created dataset is built from the creation call's answer, without its
   * nested project and sensors: it holds the caller's project and sensors.
   */
  lemma CreatedDatasetKeepsCallerProject(args: DatasetArgs, accepts: Dict -> bool, files: LocalFiles, server: Server, history: seq<ApiCall>)
    requires ArgsWellFormed(args)
    ensures var o := DatasetCreation(args, accepts, files, server, history);
      var create := CreateDatasetCall(DatasetRequest(args));
      o.result.Success? ==>
        && server(history, create).Returned?
        && "project" in server(history, create).body && "sensors" in server(history, create).body
        && o.result == DatasetFromFields(args.project, args.sensors, server(history, create).body - {"project", "sensors"})
        && o.result.value.project == args.project && o.result.value.sensors == args.sensors
  {
    RefusedRequestMakesNoCall(args, accepts, files, server, history);
    var source := DataSourceFromWire(args.dataSource);
    if source.Some? {
      SubmissionKeepsCallerProject(args, source.value, DatasetRequest(args), files, server, history);
    }
  }

  /** A local request that was sent and led to a dataset: the creation call, then the local upload's calls. */
  lemma SdkSubmissionCalls(args: DatasetArgs, req: Dict, files: LocalFiles, server: Server, history: seq<ApiCall>)
    ensures var o := Submitted(args, Sdk, req, files, server, history);
      var create := CreateDatasetCall(req);
      |o.calls| > 1 ==>
        && server(history, create).Returned?
        && var s := SdkUpload(req, server(history, create).body - {"project", "sensors"}, files, server, history + [create]);
        && o.calls == [create] + s.calls
        && o.result == Built(args, s.fields)
  {
  }

  /** A local request that was sent and led to a dataset uploaded everything on its list. */
  lemma SdkSubmissionUploadsAll(args: DatasetArgs, req: Dict, files: LocalFiles, server: Server, history: seq<ApiCall>)
    ensures var o := Submitted(args, Sdk, req, files, server, history);
      o.result.Success? ==>
        && |o.calls| > 0
        && o.calls[0] == CreateDatasetCall(req)
        && UploadedAll(o.calls[1..], UploadList(req, files.listing), files.read)
  {
    var o := Submitted(args, Sdk, req, files, server, history);
    if o.result.Success? {
      var create := CreateDatasetCall(req);
      var data := server(history, create).body - {"project", "sensors"};
      var s := SdkUpload(req, data, files, server, history + [create]);
      assert o.calls == [create] + s.calls && s.fields.Success?;
      SdkUploadUploadsAll(req, data, files, server, history + [create]);
      assert o.calls[1..] == s.calls;
    }
  }

  /**
   * A local dataset that was created uploaded every file of its upload list:
   * the creation call, then the calls of a finished upload.
   */
  lemma SdkSuccessUploadsEverything(args: DatasetArgs, accepts: Dict -> bool, files: LocalFiles, server: Server, history: seq<ApiCall>)
    requires ArgsWellFormed(args) && DataSourceFromWire(args.dataSource) == Some(Sdk)
    ensures var o := DatasetCreation(args, accepts, files, server, history);
      o.result.Success? ==>
        && |o.calls| > 0
        && o.calls[0] == CreateDatasetCall(DatasetRequest(args))
        && UploadedAll(o.calls[1..], UploadList(DatasetRequest(args), files.listing), files.read)
  {
    RefusedRequestMakesNoCall(args, accepts, files, server, history);
    SdkSubmissionUploadsAll(args, DatasetRequest(args), files, server, history);
  }

  /** Built only adds validation errors of its own to the ones it is given. */
  lemma BuiltErrors(args: DatasetArgs, fields: Result<Dict, Error>)
    requires fields.Success? ==> "project" !in fields.value && "sensors" !in fields.value
    ensures fields.Failure? ==> Built(args, fields) == Failure(fields.error)
    ensures fields.Success? && Built(args, fields).Failure? ==> Built(args, fields).error.ValidationError?
  {
  }

  /** Once sent, a failed local upload marks the dataset failed (see UploadFailureMarksDatasetFailed). */
  lemma SubmissionMarksFailure(args: DatasetArgs, source: DataSource, req: Dict, files: LocalFiles, server: Server, history: seq<ApiCall>)
    ensures var o := Submitted(args, source, req, files, server, history);
      |o.calls| > 2 ==>
        var last := o.calls[|o.calls| - 1];
        && o.calls[1].GetDatasetCall?
        && (last.UpdateDatasetCall? <==> o.result.Failure? && (o.result.error == ClientConnectionError || o.result.error.BackendError?))
        && (last.UpdateDatasetCall? ==>
              && last.status == "fail" && last.datasetId == o.calls[1].datasetId
              && forall j :: 2 <= j < |o.calls| - 1 ==> o.calls[j].UploadFilesCall? && o.calls[j].datasetId == last.datasetId)
  {
    var o := Submitted(args, source, req, files, server, history);
    if |o.calls| > 2 {
      if source != Sdk {
        CloudSubmissionOnlyCreates(args, source, req, files, server, history);
      } else {
        var create := CreateDatasetCall(req);
        SdkSubmissionCalls(args, req, files, server, history);
        var data := server(history, create).body - {"project", "sensors"};
        var s := SdkUpload(req, data, files, server, history + [create]);
        SdkUploadMarksFailure(req, data, files, server, history + [create]);
        BuiltErrors(args, s.fields);
        assert forall j :: 1 <= j < |o.calls| ==> o.calls[j] == s.calls[j - 1];
      }
    }
  }

  /**
   * When a local upload fails, create_dataset marks the dataset failed: the
   * last call is the `fail` update of the dataset it read, after nothing but
   * upload calls, and it raises the connection error or what the update
   * raised. A run that ends otherwise does not raise either of these.
   */
  lemma UploadFailureMarksDatasetFailed(args: DatasetArgs, accepts: Dict -> bool, files: LocalFiles, server: Server, history: seq<ApiCall>)
    requires ArgsWellFormed(args)
    ensures var o := DatasetCreation(args, accepts, files, server, history);
      |o.calls| > 2 ==>
        var last := o.calls[|o.calls| - 1];
        && o.calls[1].GetDatasetCall?
        && (last.UpdateDatasetCall? <==> o.result.Failure? && (o.result.error == ClientConnectionError || o.result.error.BackendError?))
        && (last.UpdateDatasetCall? ==>
              && last.status == "fail" && last.datasetId == o.calls[1].datasetId
              && forall j :: 2 <= j < |o.calls| - 1 ==> o.calls[j].UploadFilesCall? && o.calls[j].datasetId == last.datasetId)
  {
    RefusedRequestMakesNoCall(args, accepts, files, server, history);
    var source := DataSourceFromWire(args.dataSource);
    if source.Some? {
      SubmissionMarksFailure(args, source.value, DatasetRequest(args), files, server, history);
    }
  }
}
