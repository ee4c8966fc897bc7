/** The job runner of server/server.go: what one compile connection sends to its
    client and files in the record store, from the moment it asks the admission
    queue for a slot until the job ends (`SocketHandler` after the upgrade,
    `doCompile`, `doPlaygroundCompile`, `storeSuccess`, `sendAndStoreError`,
    `storeError`).

    Every collaborator is an outcome chosen by the caller: the queue grants, is
    full, or the connection is cancelled before the slot starts; the getter and the
    compiler succeed (with the progress they report) or fail; the record store's
    save succeeds or fails. A run is then a pure function from those outcomes to a
    `Trace`: the messages sent, in order, and every record handed to `store.Save`,
    in order (a failing save still counts as handed over). */
module Jobs {
  import opened Wrappers
  import opened Strings
  import opened HexCodec
  import opened Paths
  import opened Messages
  import opened Services

  /** `/_ws/` connections compile; `/_pg/` connections are playground jobs. */
  datatype Kind = Standard | Playground

  /** The error handed to `sendAndStoreError` or `storeError`. `QueueFull` is the
      queue's `TooManyItemsQueued` sentinel, which `storeError` recognises by
      identity; its text lives in the queue package. */
  datatype Failure = QueueFull(text: string) | Failed(text: string)

  /** One package of a compiled program, as the compiler reports it. */
  datatype OutputPackage = OutputPackage(path: string, hash: seq<byte>, standard: bool)

  /** One variant (minified or not) of a compiled program. */
  datatype CompileOutput = CompileOutput(hash: seq<byte>, packages: seq<OutputPackage>)

  /** The record store's view of a package, a variant and a job. */
  datatype CompilePackage = CompilePackage(path: string, hash: string, standard: bool)
  datatype CompileContents = CompileContents(main: string, packages: seq<CompilePackage>)
  datatype CompileData = CompileData(
    path: string, success: bool, min: CompileContents, max: CompileContents, error: string, ip: string)

  const NoContents := CompileContents("", [])

  /** The hashes of the two prelude scripts (`std.PreludeMin`, `std.PreludeMax`). */
  datatype Prelude = Prelude(min: string, max: string)

  /** A report the compiler sends while compiling or storing. */
  datatype Report = CompileReport(status: Status) | StoreReport(status: Status)

  datatype SlotOutcome =
    | SlotFull(text: string)
    | Granted(positions: seq<nat>)
    | CancelledBeforeStart(positions: seq<nat>)

  /** The getter's outcome and the lines it wrote to the download writer. */
  datatype GetOutcome = Got(lines: seq<string>) | GetFailed(lines: seq<string>, text: string)

  datatype CompileOutcome =
    | Compiled(reports: seq<Report>, min: CompileOutput, max: CompileOutput)
    | CompileFailed(reports: seq<Report>, text: string)

  /** What a playground connection receives first, or the instruction timeout. */
  datatype Instruction = PlaygroundCompile | OtherInstruction | InstructionTimeout

  /** Every outcome one connection meets; `upgrade` is the websocket upgrade's error. */
  datatype World = World(
    upgrade: Option<string>,
    slot: SlotOutcome,
    instruction: Instruction,
    get: GetOutcome,
    compile: CompileOutcome,
    save: SaveOutcome)

  datatype Trace = Trace(sent: seq<Message>, saved: seq<CompileData>)

  const InstructionTimeoutText := "timed out waiting for instruction from client"
  const UpgradeErrorPrefix := "upgrading request to websocket: "

  /** The kind and the normalised path `SocketHandler` reads off the URL path. */
  function JobOf(letter: char -> bool, urlPath: string): (job: (Kind, string))
    ensures job.0 == Playground <==> HasPrefix(urlPath, "/_pg/")
    ensures Normalize(letter, job.1) == job.1
  {
    var kind := if HasPrefix(urlPath, "/_pg/") then Playground else Standard;
    var prefix := if kind == Playground then "/_pg/" else "/_ws/";
    var raw := TrimSuffix(TrimPrefix(urlPath, prefix), "/");
    NormalizeIdempotent(letter, raw);
    (kind, Normalize(letter, raw))
  }

  /** The compile page opens `/_ws/<path>` (and the playground `/_pg/<path>`)
      with a path that is already normalised: `JobOf` gives back that path, so
      the job is filed under the key the page asked for. */
  lemma JobOfRoundTrip(letter: char -> bool, k: string)
    requires Normalize(letter, k) == k && !HasSuffix(k, "/")
    ensures JobOf(letter, "/_ws/" + k) == (Standard, k)
    ensures JobOf(letter, "/_pg/" + k) == (Playground, k)
  {
    var ws := "/_ws/" + k;
    var pg := "/_pg/" + k;
    assert ws[..5] == "/_ws/" && pg[..5] == "/_pg/";
    assert ws[5..] == k && pg[5..] == k;
    assert !HasPrefix(ws, "/_pg/") by { assert ws[2] != "/_pg/"[2]; }
  }

  function FailureRecord(path: string, text: string, ip: string): CompileData {
    CompileData(path, false, NoContents, NoContents, text, ip)
  }

  /** `storeError`: the failure record, except for the overload sentinel, which
      never reaches the record store. */
  function StoreError(path: string, f: Failure, ip: string): (saved: seq<CompileData>)
    ensures saved == [] <==> f.QueueFull?
    ensures |saved| <= 1
    ensures forall r :: r in saved ==> !r.success && r.path == path && r.error == f.text
  {
    if f.QueueFull? then [] else [FailureRecord(path, f.text, ip)]
  }

  /** `sendAndStoreError`: store the failure, then send it to the client. */
  function SendAndStoreError(path: string, f: Failure, ip: string): (t: Trace)
    ensures t.sent == [Error(path, f.text)]
    ensures t.saved == [] <==> f.QueueFull?
    ensures forall r :: r in t.saved ==> r == FailureRecord(path, f.text, ip)
  {
    Trace([Error(path, f.text)], StoreError(path, f, ip))
  }

  /** The queue positions the slot callback forwards. */
  function Positions(ps: seq<nat>): (ms: seq<Message>)
    ensures |ms| == |ps| && NoTerminal(ms)
    ensures forall i :: 0 <= i < |ms| ==> ms[i] == Progress(Queue, Position(ps[i]))
  {
    seq(|ps|, i requires 0 <= i < |ps| => Progress(Queue, Position(ps[i])))
  }

  /** The getter's download lines, as download reports. */
  function DownloadLines(lines: seq<string>): (ms: seq<Message>)
    ensures |ms| == |lines| && NoTerminal(ms)
    ensures forall i :: 0 <= i < |ms| ==> ms[i] == Progress(Download, Note(lines[i]))
  {
    seq(|lines|, i requires 0 <= i < |lines| => Progress(Download, Note(lines[i])))
  }

  function ReportMessage(r: Report): Message {
    match r
    case CompileReport(s) => Progress(Compile, s)
    case StoreReport(s) => Progress(Store, s)
  }

  /** The compiler's reports, as compile and store reports. */
  function Reports(rs: seq<Report>): (ms: seq<Message>)
    ensures |ms| == |rs| && NoTerminal(ms)
    ensures forall i :: 0 <= i < |ms| ==> ms[i].Progress? && ms[i].phase in {Compile, Store}
  {
    seq(|rs|, i requires 0 <= i < |rs| => ReportMessage(rs[i]))
  }

  /** The manifest entries of the compiled packages, in the compiler's order. */
  function Entries(ps: seq<OutputPackage>): (es: seq<CompilePackage>)
    ensures |es| == |ps|
    ensures forall i :: 0 <= i < |ps| ==>
      es[i] == CompilePackage(ps[i].path, Hex(ps[i].hash), ps[i].standard)
  {
    if |ps| == 0 then []
    else [CompilePackage(ps[0].path, Hex(ps[0].hash), ps[0].standard)] + Entries(ps[1..])
  }

  /** `getCompileContents`: the manifest of one variant. The prelude comes first,
      with the hash of the matching prelude variant, and the compiled packages
      follow in order; `main` names the variant's own hash. */
  function Manifest(c: CompileOutput, min: bool, prelude: Prelude): (r: CompileContents)
    ensures r.main == Hex(c.hash)
    ensures |r.packages| == 1 + |c.packages|
    ensures r.packages[0] == CompilePackage("prelude", if min then prelude.min else prelude.max, true)
    ensures forall i :: 0 <= i < |c.packages| ==>
      r.packages[i + 1] == CompilePackage(c.packages[i].path, Hex(c.packages[i].hash), c.packages[i].standard)
  {
    var preludeHash := if min then prelude.min else prelude.max;
    CompileContents(Hex(c.hash), [CompilePackage("prelude", preludeHash, true)] + Entries(c.packages))
  }

  /** Two manifests name the same main script only for the same variant hash:
      the record identifies the compiled output. */
  lemma ManifestMainIdentifies(a: CompileOutput, b: CompileOutput, min: bool, prelude: Prelude)
    requires Manifest(a, min, prelude).main == Manifest(b, min, prelude).main
    ensures a.hash == b.hash
  {
    HexInjective(a.hash, b.hash);
  }

  function SuccessRecord(path: string, ip: string, prelude: Prelude, min: CompileOutput, max: CompileOutput): CompileData {
    CompileData(path, true, Manifest(min, true, prelude), Manifest(max, false, prelude), "", ip)
  }

  /** `storeSuccess`. A failed save is reported to the client and, through
      `sendAndStoreError`, followed by a failure record of its own. */
  function StoreSuccess(path: string, ip: string, prelude: Prelude,
                        min: CompileOutput, max: CompileOutput, save: SaveOutcome): (t: Trace)
    ensures |t.saved| >= 1 && t.saved[0] == SuccessRecord(path, ip, prelude, min, max)
    ensures save.Saved? <==> t.sent == []
    ensures save.SaveFailed? ==> t.sent == [Error(path, save.text)]
  {
    var data := SuccessRecord(path, ip, prelude, min, max);
    match save
    case Saved => Trace([], [data])
    case SaveFailed(e) =>
      var f := SendAndStoreError(path, Failed(e), ip);
      Trace(f.sent, [data] + f.saved)
  }

  /** The message that ends a successful standard job. */
  function CompleteMessage(path: string, min: CompileOutput, max: CompileOutput): Message {
    Complete(path, TrimPrefix(path, GithubPrefix), Hex(min.hash), Hex(max.hash))
  }

  /** What a standard job sends while downloading: the start, then the getter's
      lines. */
  function DownloadPrefix(lines: seq<string>): (ms: seq<Message>)
    ensures |ms| == 1 + |lines| && NoTerminal(ms)
    ensures ms[0] == Progress(Download, Starting)
    ensures ms[1..] == DownloadLines(lines)
  {
    [Progress(Download, Starting)] + DownloadLines(lines)
  }

  /** What a standard job sends up to the end of compiling: the download, its
      done report, then the compiler's reports. */
  function Compiling(lines: seq<string>, reports: seq<Report>): (ms: seq<Message>)
    ensures |ms| == 2 + |lines| + |reports| && NoTerminal(ms)
    ensures ms[..1 + |lines|] == DownloadPrefix(lines)
    ensures ms[1 + |lines|] == Progress(Download, Done)
    ensures ms[2 + |lines|..] == Reports(reports)
  {
    var ms := DownloadPrefix(lines) + [Progress(Download, Done)] + Reports(reports);
    assert ms[..1 + |lines|] == DownloadPrefix(lines);
    ms
  }

  /** `doCompile`: download, compile, record, complete. */
  function DoCompile(path: string, ip: string, prelude: Prelude,
                     get: GetOutcome, compile: CompileOutcome, save: SaveOutcome): (t: Trace)
    ensures |t.sent| >= 2 && t.sent[0] == Progress(Download, Starting)
    ensures IsTerminal(t.sent[|t.sent| - 1])
    ensures forall m :: m in t.sent && m.Progress? ==> m.phase != Queue
  {
    match get
    case GetFailed(_, e) =>
      var f := SendAndStoreError(path, Failed(e), ip);
      Trace(DownloadPrefix(get.lines) + f.sent, f.saved)
    case Got(_) =>
      var compiling := Compiling(get.lines, compile.reports);
      assert compiling[0] == Progress(Download, Starting);
      match compile
      case CompileFailed(_, e) =>
        var f := SendAndStoreError(path, Failed(e), ip);
        Trace(compiling + f.sent, f.saved)
      case Compiled(_, min, max) =>
        var s := StoreSuccess(path, ip, prelude, min, max, save);
        Trace(compiling + s.sent + [CompleteMessage(path, min, max)], s.saved)
  }

  /** `doPlaygroundCompile`: the instruction handling is unfinished in the source,
      so a playground compile request completes at once with only the path. */
  function DoPlaygroundCompile(path: string, ip: string, instruction: Instruction): (t: Trace)
    ensures |t.sent| <= 1 && CountTerminal(t.sent) == |t.sent|
    ensures instruction.InstructionTimeout? <==> t.sent == [Error(path, InstructionTimeoutText)]
    ensures instruction.InstructionTimeout? ==> t.saved == [FailureRecord(path, InstructionTimeoutText, ip)]
    ensures instruction.PlaygroundCompile? ==> t.sent == [Complete(path, "", "", "")] && t.saved == []
    ensures instruction.OtherInstruction? ==> t.sent == [] && t.saved == []
  {
    match instruction
    case InstructionTimeout => SendAndStoreError(path, Failed(InstructionTimeoutText), ip)
    case PlaygroundCompile => Trace([Complete(path, "", "", "")], [])
    case OtherInstruction => Trace([], [])
  }

  /** What a granted connection sends before its job: the queue positions, then
      the queue's done report. */
  function Queued(ps: seq<nat>): (ms: seq<Message>)
    ensures |ms| == |ps| + 1 && NoTerminal(ms)
    ensures ms[..|ps|] == Positions(ps) && ms[|ps|] == Progress(Queue, Done)
  {
    var ms := Positions(ps) + [Progress(Queue, Done)];
    assert ms[..|ps|] == Positions(ps);
    ms
  }

  /** `SocketHandler` from the upgrade on: upgrade, slot, then the job itself. */
  function Socket(kind: Kind, path: string, ip: string, prelude: Prelude, w: World): (t: Trace)
    ensures w.upgrade.Some? ==> t.sent == [] && |t.saved| == 1 && !t.saved[0].success
    ensures w.upgrade.None? && w.slot.Granted? <==> Progress(Queue, Done) in t.sent
  {
    match w.upgrade
    case Some(e) => Trace([], StoreError(path, Failed(UpgradeErrorPrefix + e), ip))
    case None =>
      match w.slot
      case SlotFull(text) => SendAndStoreError(path, QueueFull(text), ip)
      case CancelledBeforeStart(ps) => Trace(Positions(ps), [])
      case Granted(ps) =>
        var job := match kind
          case Standard => DoCompile(path, ip, prelude, w.get, w.compile, w.save)
          case Playground => DoPlaygroundCompile(path, ip, w.instruction);
        assert Progress(Queue, Done) !in job.sent;
        var queued := Queued(ps);
        assert Progress(Queue, Done) in queued by { assert queued[|ps|] == Progress(Queue, Done); }
        Trace(queued + job.sent, job.saved)
  }

  /** A full queue: exactly one Error and nothing else is sent (in particular no
      Queue done), and no record is filed. */
  lemma QueueFullTrace(kind: Kind, path: string, ip: string, prelude: Prelude, w: World)
    requires w.upgrade.None? && w.slot.SlotFull?
    ensures Socket(kind, path, ip, prelude, w).sent == [Error(path, w.slot.text)]
    ensures Socket(kind, path, ip, prelude, w).saved == []
  {
  }

  /** Cancelled before the slot starts: only the queue positions were sent, the
      job ends without a terminal message and without a record. */
  lemma CancelledTrace(kind: Kind, path: string, ip: string, prelude: Prelude, w: World)
    requires w.upgrade.None? && w.slot.CancelledBeforeStart?
    ensures Socket(kind, path, ip, prelude, w).sent == Positions(w.slot.positions)
    ensures CountTerminal(Socket(kind, path, ip, prelude, w).sent) == 0
    ensures Socket(kind, path, ip, prelude, w).saved == []
  {
  }

  /** A granted playground connection: after the queue reports, an instruction
      to compile completes at once with only the path, any other instruction
      ends the job silently, and a missing instruction ends it with the timeout
      Error and its failure record. Exactly one terminal message is sent unless
      the instruction was some other one. */
  lemma PlaygroundTrace(path: string, ip: string, prelude: Prelude, w: World)
    requires w.upgrade.None? && w.slot.Granted?
    ensures var t := Socket(Playground, path, ip, prelude, w);
      && t.sent[..|w.slot.positions| + 1] == Queued(w.slot.positions)
      && (w.instruction.PlaygroundCompile? ==> t.sent[|w.slot.positions| + 1..] == [Complete(path, "", "", "")] && t.saved == [])
      && (w.instruction.OtherInstruction? ==> t.sent == Queued(w.slot.positions) && t.saved == [])
      && (w.instruction.InstructionTimeout? ==>
            t.sent[|w.slot.positions| + 1..] == [Error(path, InstructionTimeoutText)]
            && t.saved == [FailureRecord(path, InstructionTimeoutText, ip)])
      && CountTerminal(t.sent) == (if w.instruction.OtherInstruction? then 0 else 1)
  {
    var queued := Queued(w.slot.positions);
    var job := DoPlaygroundCompile(path, ip, w.instruction);
    assert Socket(Playground, path, ip, prelude, w).sent == queued + job.sent;
    assert (queued + job.sent)[..|queued|] == queued;
    assert (queued + job.sent)[|queued|..] == job.sent;
    CountTerminalAppend(queued, job.sent);
  }

  /** A standard job that downloads, compiles and records: the queue positions
      and the queue's done report, the download's start, lines and done report,
      the compiler's reports, and a single Complete that ends the job. Its short
      name is the path without the `github.com/` host and its hashes are the hex
      hashes of the two variants. Exactly the success record is filed. */
  lemma SuccessTrace(path: string, ip: string, prelude: Prelude, w: World)
    requires w.upgrade.None? && w.slot.Granted?
    requires w.get.Got? && w.compile.Compiled? && w.save.Saved?
    ensures var t := Socket(Standard, path, ip, prelude, w);
      && t.sent == Queued(w.slot.positions)
                   + Compiling(w.get.lines, w.compile.reports)
                   + [Complete(path, TrimPrefix(path, GithubPrefix), Hex(w.compile.min.hash), Hex(w.compile.max.hash))]
      && CountTerminal(t.sent) == 1
      && t.saved == [SuccessRecord(path, ip, prelude, w.compile.min, w.compile.max)]
  {
    var queued := Queued(w.slot.positions);
    var compiling := Compiling(w.get.lines, w.compile.reports);
    var last := [CompleteMessage(path, w.compile.min, w.compile.max)];
    assert queued + (compiling + [] + last) == queued + compiling + last;
    CountTerminalAppend(queued, compiling);
    CountTerminalAppend(queued + compiling, last);
  }

  /** The short name drops the `github.com/` host and nothing else. */
  lemma CompleteShortName(path: string, min: CompileOutput, max: CompileOutput)
    ensures HasPrefix(path, GithubPrefix) ==> GithubPrefix + CompleteMessage(path, min, max).short == path
    ensures !HasPrefix(path, GithubPrefix) ==> CompleteMessage(path, min, max).short == path
  {
  }

  /** The error a failing download or compile ends a standard job with. */
  function JobError(w: World): string
    requires w.get.GetFailed? || w.compile.CompileFailed?
  {
    if w.get.GetFailed? then w.get.text else w.compile.text
  }

  /** What a standard job sends before a failing download's or compile's Error. */
  function BeforeFailure(w: World): seq<Message> {
    if w.get.GetFailed? then DownloadPrefix(w.get.lines) else Compiling(w.get.lines, w.compile.reports)
  }

  /** A failing download or compile: the job's last message is the one Error
      carrying the failure's text, no Complete is sent, and exactly one failure
      record is filed. */
  lemma FailureTrace(path: string, ip: string, prelude: Prelude, w: World)
    requires w.upgrade.None? && w.slot.Granted?
    requires w.get.GetFailed? || (w.get.Got? && w.compile.CompileFailed?)
    ensures var t := Socket(Standard, path, ip, prelude, w);
      && |t.sent| >= 1
      && t.sent[|t.sent| - 1] == Error(path, JobError(w))
      && CountTerminal(t.sent) == 1
      && (forall m :: m in t.sent ==> !m.Complete?)
      && t.saved == [FailureRecord(path, JobError(w), ip)]
  {
    var queued := Queued(w.slot.positions);
    var before := BeforeFailure(w);
    var last := [Error(path, JobError(w))];
    assert Socket(Standard, path, ip, prelude, w).sent == queued + (before + last);
    assert queued + (before + last) == queued + before + last;
    CountTerminalAppend(queued, before);
    CountTerminalAppend(queued + before, last);
    assert NoTerminal(queued + before);
  }

  /** A failing success save: the client gets an Error for it and then, after
      it, the Complete all the same; the success record and a failure record for
      the save's error are both handed to the store. */
  lemma SaveFailureTrace(path: string, ip: string, prelude: Prelude, w: World)
    requires w.upgrade.None? && w.slot.Granted?
    requires w.get.Got? && w.compile.Compiled? && w.save.SaveFailed?
    ensures var t := Socket(Standard, path, ip, prelude, w);
      && |t.sent| >= 2
      && t.sent[|t.sent| - 2] == Error(path, w.save.text)
      && t.sent[|t.sent| - 1] == CompleteMessage(path, w.compile.min, w.compile.max)
      && CountTerminal(t.sent) == 2
      && t.saved == [SuccessRecord(path, ip, prelude, w.compile.min, w.compile.max),
                     FailureRecord(path, w.save.text, ip)]
  {
    var queued := Queued(w.slot.positions);
    var compiling := Compiling(w.get.lines, w.compile.reports);
    var tail := [Error(path, w.save.text), CompleteMessage(path, w.compile.min, w.compile.max)];
    assert Socket(Standard, path, ip, prelude, w).sent == queued + (compiling + [Error(path, w.save.text)] + [tail[1]]);
    assert queued + (compiling + [Error(path, w.save.text)] + [tail[1]]) == queued + compiling + tail;
    CountTerminalAppend(queued, compiling);
    CountTerminalAppend(queued + compiling, tail);
  }
}
