/** The vocabulary the play and wasm handlers share: the content-addressed blob
    store's buckets and MIME types, the items queued for upload, the source maps
    the playground exchanges, and the messages these handlers send. The Go types
    behind them (`constor`, `gettermsg`, `constormsg`, the handlers' `messages`
    packages, `servermsg`) are not part of this model. */
module Services {
  import opened Wrappers
  import opened HexCodec

  /** The four bucket roles of `config.Bucket`. Their names differ between the
      dev and the production build and do not matter here. */
  datatype BucketKey = Src | Pkg | Index | Git

  /** The MIME constants of `constor`. */
  datatype Mime = MimeHtml | MimeJs | MimeWasm | MimeJson

  /** Package path to file name to file contents. */
  type Source = map<string, map<string, string>>

  /** `constor.Item`: one object to upload. An empty bucket or MIME string in
      the source is `None` here. */
  datatype Item = Item(
    message: string,
    name: string,
    contents: seq<byte>,
    bucket: Option<BucketKey>,
    mime: Option<Mime>,
    count: bool,
    immutable: bool,
    send: bool)

  /** A file of a wasm deploy as the client names it: its type and declared hash. */
  datatype DeployFile = DeployFile(typ: string, hash: string)

  /** The messages sent by the handlers modelled here, plus the two kinds of
      progress their collaborators send on their own: `GetterProgress` for the
      go-get downloader and `Uploading` for the blob uploader. */
  datatype PlayMessage =
    | Downloading(starting: bool, done: bool, message: string)
    | GetComplete(source: Source)
    | Storing(starting: bool, done: bool)
    | ShareComplete(hash: string)
    | DeployQueryResponse(required: seq<DeployFile>)
    | DeployDone
    | ServerError(message: string)
    | GetterProgress(text: string)
    | Uploading(text: string)

  /** The report that every queued item has been stored. */
  const StoringDone := Storing(false, true)

  /** Whether a record store's save succeeded. */
  datatype SaveOutcome = Saved | SaveFailed(text: string)

  /** What the uploader does once every item is queued: the progress it sent,
      then either success or the first upload error. */
  datatype UploadOutcome =
    | Uploaded(progress: seq<string>)
    | UploadFailed(progress: seq<string>, error: string)

  /** The uploader's progress reports as messages. */
  function UploadMessages(progress: seq<string>): (ms: seq<PlayMessage>)
    ensures |ms| == |progress|
    ensures forall i :: 0 <= i < |ms| ==> ms[i] == Uploading(progress[i])
  {
    seq(|progress|, i requires 0 <= i < |progress| => Uploading(progress[i]))
  }
}
