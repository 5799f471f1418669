/**
 * Project.create_dataset (schemas/client.py): a project creates a dataset of
 * its own through the configured client, passing itself as the project and
 * no extra keyword arguments.
 */
module ProjectOps {
  import opened Wrappers
  import opened Errors
  import opened Json
  import opened Common
  import opened ClientSchemas
  import opened Backend
  import opened DatasetClient

  /** The arguments Project.create_dataset hands on: the project itself, `render_pcd` left false, nothing extra. */
  function Forwarded(self: Project, name: string, dataSource: string, sensors: seq<Sensor>, datasetType: DatasetType,
                     annotationFormat: AnnotationFormat, storageUrl: string, dataFolder: string,
                     containerName: Option<string>, sasToken: Option<string>, sequential: bool,
                     generateMetadata: bool, description: Option<string>): (args: DatasetArgs)
    ensures ArgsWellFormed(args) && args.kwargs == map[]
    ensures args.project == self && !args.renderPcd
  {
    DatasetArgs(name, dataSource, self, sensors, datasetType, annotationFormat, storageUrl, dataFolder,
                containerName, sasToken, sequential, generateMetadata, false, description, map[])
  }

  /**
   * Project.create_dataset. `configured` says whether the configuration module
   * holds a client; the call then goes to DataverseClient.create_dataset
   * without naming a client, so `default` is the default connection (null when
   * there is none).
   */
  method ProjectCreateDataset(configured: bool, default: BackendApi?, self: Project, name: string, dataSource: string,
                              sensors: seq<Sensor>, datasetType: DatasetType, annotationFormat: AnnotationFormat,
                              storageUrl: string, dataFolder: string, containerName: Option<string>,
                              sasToken: Option<string>, sequential: bool, generateMetadata: bool,
                              description: Option<string>, accepts: Dict -> bool, files: LocalFiles)
    returns (r: Result<Dataset, Error>)
    modifies default
    ensures !configured ==> r == Failure(ClientConnectionError) && (default != null ==> default.trace == old(default.trace))
    ensures configured && default == null ==>
      r == if DataSourceFromWire(dataSource).None? then Failure(ValueError) else Failure(KeyError("default"))
    ensures configured && default != null ==>
      var o := DatasetCreation(Forwarded(self, name, dataSource, sensors, datasetType, annotationFormat, storageUrl,
                                         dataFolder, containerName, sasToken, sequential, generateMetadata, description),
                               accepts, files, default.server, old(default.trace));
      r == o.result && default.trace == old(default.trace) + o.calls
  {
    if !configured {
      return Failure(ClientConnectionError);
    }
    var args := Forwarded(self, name, dataSource, sensors, datasetType, annotationFormat, storageUrl, dataFolder,
                          containerName, sasToken, sequential, generateMetadata, description);
    r := CreateDataset(default, args, accepts, files);
  }

  /** A dataset a project creates belongs to that project. */
  lemma ForwardedResultCarriesSelf(self: Project, name: string, dataSource: string, sensors: seq<Sensor>,
                                   datasetType: DatasetType, annotationFormat: AnnotationFormat, storageUrl: string,
                                   dataFolder: string, containerName: Option<string>, sasToken: Option<string>,
                                   sequential: bool, generateMetadata: bool, description: Option<string>,
                                   accepts: Dict -> bool, files: LocalFiles, server: Server, history: seq<ApiCall>)
    ensures var args := Forwarded(self, name, dataSource, sensors, datasetType, annotationFormat, storageUrl,
                                  dataFolder, containerName, sasToken, sequential, generateMetadata, description);
      var o := DatasetCreation(args, accepts, files, server, history);
      o.result.Success? ==> o.result.value.project == self && o.result.value.sensors == sensors
  {
    var args := Forwarded(self, name, dataSource, sensors, datasetType, annotationFormat, storageUrl,
                          dataFolder, containerName, sasToken, sequential, generateMetadata, description);
    CreatedDatasetKeepsCallerProject(args, accepts, files, server, history);
  }

  /**
   * Without extra keyword arguments there are no annotation, calibration or
   * lidar folders and no annotation file: a local dataset of a project
   * uploads the files of its data folder, and only those.
   */
  lemma ForwardedUploadsDataFolderOnly(args: DatasetArgs, listing: string -> seq<string>)
    requires args.kwargs == map[]
    ensures UploadList(DatasetRequest(args), listing) == listing(args.dataFolder)
  {
    var req := DatasetRequest(args);
    var declared := DeclaredRequest(args, OptIntJson(args.project.id), SensorIds(args.sensors));
    PathKeysNotDeclared(args, OptIntJson(args.project.id), SensorIds(args.sensors));
    assert args.kwargs + declared == declared;
    assert req == ExcludeNone(declared);
    assert Get(req, "data_folder") == JStr(args.dataFolder);
    assert forall k :: k in PathKeys ==> Get(req, k) == JNull;
    UploadOrder(req, listing);
  }
}
