/**
 * The backend collaborator (apis/backend.py), whose HTTP, authentication and
 * retry logic are not part of this model. It is an object that records every
 * call made to it, in order, and answers as a given server function decides
 * from the calls made before and the call itself.
 */
module Backend {
  import opened Json

  /** A returned JSON body, or an exception raised with its message. */
  datatype Response = Returned(body: Dict) | Raised(message: string)

  /** One entry of an upload's `file_dict`: a path and the bytes read from it. */
  datatype FileEntry = FileEntry(path: string, content: seq<bv8>)

  datatype ApiCall =
    | CreateProjectCall(payload: Dict)
    | CreateDatasetCall(payload: Dict)
    | GetDatasetCall(datasetId: Json)
    | UploadFilesCall(datasetId: Json, containerName: Json, fileDict: seq<FileEntry>, isFinished: bool)
    | UpdateDatasetCall(datasetId: Json, memo: string, status: string)

  /** The remote platform: its answer to a call, given the calls made before it. */
  type Server = (seq<ApiCall>, ApiCall) -> Response

  class BackendApi {
    const server: Server
    /** every call made so far, oldest first */
    var trace: seq<ApiCall>

    constructor (server: Server)
      ensures this.server == server && trace == []
    {
      this.server := server;
      trace := [];
    }

    method Send(call: ApiCall) returns (r: Response)
      modifies this
      ensures trace == old(trace) + [call]
      ensures r == server(old(trace), call)
    {
      r := server(trace, call);
      trace := trace + [call];
    }
  }
}
