/** Fetching a package's source for the playground (server/play/get.go): a path
    is routed to the Go playground's snippet store, to the standard library
    embedded in the server, or to a go-get style download, and the package
    directory found is filtered down to its buildable non-test files. */
module PlayGet {
  import opened Wrappers
  import opened Strings
  import opened Services

  const PlaygroundRoute := "p/"
  const PlaygroundHost := "https://play.golang.org/"
  const TestSuffix := "_test.go"
  const MainFile := "main.go"
  const GorootDir := "goroot/src/"
  const GopathDir := "gopath/src/"

  /** `isValidFile`: the name ends with one of the configured extensions. */
  function ValidFile(exts: seq<string>, name: string): (r: bool)
    ensures r <==> exists i :: 0 <= i < |exts| && HasSuffix(name, exts[i])
  {
    if |exts| == 0 then false
    else if HasSuffix(name, exts[0]) then true
    else
      var rest := ValidFile(exts[1..], name);
      assert forall i :: 1 <= i < |exts| ==> exts[i] == exts[1..][i - 1];
      rest
  }

  /** A directory entry `getSourceFiles` keeps: a valid extension, not a test. */
  predicate Kept(exts: seq<string>, name: string) {
    ValidFile(exts, name) && !HasSuffix(name, TestSuffix)
  }

  /** Reading one directory entry: its contents, or the error of opening or of
      reading it. */
  datatype Contents = Contents(text: string) | OpenFailed(error: string) | ReadFailed(error: string)
  datatype Entry = Entry(name: string, read: Contents)

  /** `ReadDir` of a package directory: its entries in order, or the error. */
  datatype Listing = Listing(entries: seq<Entry>) | ListFailed(error: string)

  predicate KeptAt(exts: seq<string>, es: seq<Entry>, i: int) {
    0 <= i < |es| && Kept(exts, es[i].name)
  }

  /** Entry `i` is the first kept entry that could not be read. */
  predicate FirstFailure(exts: seq<string>, es: seq<Entry>, i: int) {
    && KeptAt(exts, es, i)
    && !es[i].read.Contents?
    && forall j :: 0 <= j < i && KeptAt(exts, es, j) ==> es[j].read.Contents?
  }

  /** The loop of `getSourceFiles`: file name to contents for every kept entry,
      or the error of the first kept entry that cannot be opened or read. */
  function Collect(exts: seq<string>, es: seq<Entry>): (r: Result<map<string, string>, string>)
    ensures r.Ok? <==> forall i :: KeptAt(exts, es, i) ==> es[i].read.Contents?
    ensures r.Err? ==> exists i :: FirstFailure(exts, es, i) && es[i].read.error == r.error
    ensures r.Ok? ==> forall i :: KeptAt(exts, es, i) ==> es[i].name in r.value
    ensures r.Ok? ==> forall n :: n in r.value ==>
      exists i :: KeptAt(exts, es, i) && es[i].name == n && es[i].read == Contents(r.value[n])
    decreases |es|
  {
    if |es| == 0 then Ok(map[])
    else
      var e := es[0];
      var rest := Collect(exts, es[1..]);
      assert forall i :: 1 <= i < |es| ==> es[i] == es[1..][i - 1];
      if !Kept(exts, e.name) then
        assert !KeptAt(exts, es, 0);
        rest
      else
        match e.read
        case Contents(text) =>
          (match rest
           case Err(err) => Err(err)
           case Ok(m) =>
             assert KeptAt(exts, es, 0);
             Ok(if e.name in m then m else m[e.name := text]))
        case OpenFailed(err) =>
          assert FirstFailure(exts, es, 0);
          Err(err)
        case ReadFailed(err) =>
          assert FirstFailure(exts, es, 0);
          Err(err)
  }

  /** `getSourceFiles`: the kept files under the single key `path`, or an empty
      source when nothing is kept; any listing, open or read error instead. */
  function SourceFiles(exts: seq<string>, path: string, listing: Listing): (r: Result<Source, string>)
    ensures listing.ListFailed? ==> r == Err(listing.error)
    ensures r.Ok? <==> listing.Listing? && Collect(exts, listing.entries).Ok?
    ensures r.Ok? ==> forall p :: p in r.value ==> p == path
    ensures r.Ok? ==> (r.value == map[] <==> forall i :: !KeptAt(exts, listing.entries, i))
    ensures r.Ok? && path in r.value ==> r.value[path] == Collect(exts, listing.entries).value
  {
    match listing
    case ListFailed(err) => Err(err)
    case Listing(es) =>
      match Collect(exts, es)
      case Err(err) => Err(err)
      case Ok(files) =>
        if files == map[] then
          Ok(map[])
        else
          Ok(map[path := files])
  }

  /** The playground server's answer to a snippet request: a transport error,
      or a status code with the body read (or the error reading it). */
  datatype Http = Unreachable(error: string) | Response(status: int, body: Result<string, string>)

  /** The error text for a non-200 answer. */
  function StatusError(status: int): string {
    "error " + IntToString(status)
  }

  /** `getGolangPlaygroundSource`: asks `fetch` for the snippet's URL; a 200
      answer becomes a one-file source, any other status an error naming it. */
  function PlaygroundSource(path: string, fetch: string -> Http): (r: Result<Source, string>)
    ensures var answer := fetch(PlaygroundHost + path + ".go");
      && (answer.Unreachable? ==> r == Err(answer.error))
      && (answer.Response? && answer.status != 200 ==> r == Err(StatusError(answer.status)))
      && (answer.Response? && answer.status == 200 && answer.body.Err? ==> r == Err(answer.body.error))
      && (r.Ok? <==> answer.Response? && answer.status == 200 && answer.body.Ok?)
      && (r.Ok? ==> r.value == map[path := map[MainFile := answer.body.value]])
  {
    match fetch(PlaygroundHost + path + ".go")
    case Unreachable(err) => Err(err)
    case Response(status, body) =>
      if status != 200 then Err(StatusError(status))
      else
        match body
        case Err(err) => Err(err)
        case Ok(text) => Ok(map[path := map[MainFile := text]])
  }

  /** A status error names the status it came from. */
  lemma StatusErrorNamesStatus(status: nat)
    ensures HasPrefix(StatusError(status), "error ")
    ensures ParseNat(TrimPrefix(StatusError(status), "error ")) == status
  {
    var e := StatusError(status);
    assert e[..6] == "error ";
    assert e[6..] == NatToString(status);
    ParseNatToString(status);
  }

  /** What the go-get downloader does: the progress it sends and its error. */
  datatype GetterRun = GetterRun(progress: seq<string>, error: Option<string>)

  function GetterMessages(progress: seq<string>): (ms: seq<PlayMessage>)
    ensures |ms| == |progress|
    ensures forall i :: 0 <= i < |ms| ==> ms[i] == GetterProgress(progress[i])
  {
    seq(|progress|, i requires 0 <= i < |progress| => GetterProgress(progress[i]))
  }

  /** The collaborators `getSource` consults, as functions of what it asks:
      the playground fetch, the embedded standard library (`None` when its
      `Stat` fails), the downloader (given the path and the insecure flag) and
      the downloaded tree. */
  datatype Sources = Sources(
    fetch: string -> Http,
    goroot: string -> Option<Listing>,
    getter: (string, bool) -> GetterRun,
    gopath: string -> Listing)

  /** Messages sent, and the source or the error returned. */
  datatype GetTrace = GetTrace(sent: seq<PlayMessage>, result: Result<Source, string>)

  const StartMessage := Downloading(true, false, "")
  const DoneMessage := Downloading(false, true, "")

  /** Whether a message reports the download finished or the source ready. */
  predicate Finishing(m: PlayMessage) {
    m.GetComplete? || (m.Downloading? && m.done)
  }

  /** `getSource`. `local` is the LOCAL build flag, which the downloader gets
      as its insecure flag. */
  function GetSource(exts: seq<string>, local: bool, path: string, env: Sources): (r: GetTrace)
    ensures r.result.Ok? ==> 0 < |r.sent| && r.sent[|r.sent| - 1] == GetComplete(r.result.value)
    ensures r.result.Err? ==> forall i :: 0 <= i < |r.sent| ==> !Finishing(r.sent[i])
  {
    if HasPrefix(path, PlaygroundRoute) then
      var announced := [Downloading(false, false, path)];
      match PlaygroundSource(path, env.fetch)
      case Err(err) => GetTrace(announced, Err(err))
      case Ok(src) => GetTrace(announced + [DoneMessage, GetComplete(src)], Ok(src))
    else
      match env.goroot(GorootDir + path)
      case Some(listing) =>
        (match SourceFiles(exts, path, listing)
         case Err(err) => GetTrace([], Err(err))
         case Ok(src) => GetTrace([GetComplete(src)], Ok(src)))
      case None =>
        var run := env.getter(path, local);
        var started := [StartMessage] + GetterMessages(run.progress);
        match run.error
        case Some(err) => GetTrace(started, Err(err))
        case None =>
          match SourceFiles(exts, path, env.gopath(GopathDir + path))
          case Err(err) => GetTrace(started, Err(err))
          case Ok(src) => GetTrace(started + [DoneMessage, GetComplete(src)], Ok(src))
  }

  /** A playground snippet: the path is announced, then the fetch decides; on
      success the download is reported done and the one-file source sent. */
  lemma PlaygroundTrace(exts: seq<string>, local: bool, path: string, env: Sources)
    requires HasPrefix(path, PlaygroundRoute)
    ensures var r := GetSource(exts, local, path, env);
      && r.sent[0] == Downloading(false, false, path)
      && r.result == PlaygroundSource(path, env.fetch)
      && (r.result.Ok? ==> r.sent == [Downloading(false, false, path), DoneMessage, GetComplete(r.result.value)])
      && (r.result.Err? ==> r.sent == [Downloading(false, false, path)])
  {
  }

  /** A standard library package: no download is reported at all, and on
      success the only message is the source. */
  lemma GorootTrace(exts: seq<string>, local: bool, path: string, env: Sources)
    requires !HasPrefix(path, PlaygroundRoute) && env.goroot(GorootDir + path).Some?
    ensures var r := GetSource(exts, local, path, env);
      && (forall i :: 0 <= i < |r.sent| ==> !r.sent[i].Downloading?)
      && r.result == SourceFiles(exts, path, env.goroot(GorootDir + path).value)
      && (r.result.Ok? ==> r.sent == [GetComplete(r.result.value)])
  {
  }

  /** Any other path: the download starts, the downloader runs with the LOCAL
      flag as its insecure flag, and only a successful download and read
      finish with the done report and the source. */
  lemma DownloadTrace(exts: seq<string>, local: bool, path: string, env: Sources)
    requires !HasPrefix(path, PlaygroundRoute) && env.goroot(GorootDir + path).None?
    ensures var r := GetSource(exts, local, path, env);
      var run := env.getter(path, local);
      && r.sent[0] == StartMessage
      && r.sent[1..1 + |run.progress|] == GetterMessages(run.progress)
      && (run.error.Some? ==> r.result == Err(run.error.value) && |r.sent| == 1 + |run.progress|)
      && (run.error.None? ==> r.result == SourceFiles(exts, path, env.gopath(GopathDir + path)))
      && (r.result.Ok? ==> r.sent[|r.sent| - 2..] == [DoneMessage, GetComplete(r.result.value)])
  {
  }
}
