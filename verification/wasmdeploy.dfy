/** Publishing a wasm build (server/wasm/deploy.go): the client names its files
    by type and content hash, the server answers which of them the blob store
    lacks, then checks every uploaded file against its declared hash before
    queueing it under a content-addressed name, and records the deploy. */
module WasmDeploy {
  import opened Wrappers
  import opened Strings
  import opened HexCodec
  import opened Services

  /** The three deploy file type names of the wasm messages package, which is
      not part of this model; they are distinct there. */
  datatype Kinds = Kinds(index: string, loader: string, wasm: string)

  predicate DistinctKinds(k: Kinds) {
    k.index != k.loader && k.index != k.wasm && k.loader != k.wasm
  }

  predicate KnownType(k: Kinds, typ: string) {
    typ == k.index || typ == k.loader || typ == k.wasm
  }

  /** Where a file is stored: bucket, object name and MIME type. The empty
      strings `details` returns for an unknown type are `None` and "". */
  datatype Placement = Placement(bucket: Option<BucketKey>, name: string, mime: Option<Mime>)

  /** `details`: the index page is stored under its bare hash in the index
      bucket as HTML; the loader and the wasm binary go to the package bucket
      under the hash with their extension. */
  function Details(k: Kinds, typ: string, hash: string): (d: Placement)
    ensures d.bucket.None? <==> !KnownType(k, typ)
    ensures !KnownType(k, typ) ==> d == Placement(None, "", None)
    ensures typ == k.index ==> d == Placement(Some(Index), hash, Some(MimeHtml))
    ensures typ != k.index && typ == k.loader ==> d == Placement(Some(Pkg), hash + ".js", Some(MimeJs))
    ensures typ != k.index && typ != k.loader && typ == k.wasm ==> d == Placement(Some(Pkg), hash + ".wasm", Some(MimeWasm))
    ensures d.bucket.Some? ==> HasPrefix(d.name, hash)
  {
    if typ == k.index then Placement(Some(Index), hash, Some(MimeHtml))
    else if typ == k.loader then Placement(Some(Pkg), hash + ".js", Some(MimeJs))
    else if typ == k.wasm then Placement(Some(Pkg), hash + ".wasm", Some(MimeWasm))
    else Placement(None, "", None)
  }

  /** The placement names the file: two known files stored at the same place,
      with the same MIME type, are the same type with the same hash. */
  lemma DetailsInjective(k: Kinds, t1: string, h1: string, t2: string, h2: string)
    requires DistinctKinds(k) && KnownType(k, t1) && KnownType(k, t2)
    requires Details(k, t1, h1) == Details(k, t2, h2)
    ensures t1 == t2 && h1 == h2
  {
    var name := Details(k, t1, h1).name;
    if t1 == k.loader {
      assert TrimSuffix(name, ".js") == h1 && TrimSuffix(name, ".js") == h2 by {
        assert HasSuffix(h1 + ".js", ".js") && HasSuffix(h2 + ".js", ".js");
      }
    } else if t1 == k.wasm {
      assert TrimSuffix(name, ".wasm") == h1 && TrimSuffix(name, ".wasm") == h2 by {
        assert HasSuffix(h1 + ".wasm", ".wasm") && HasSuffix(h2 + ".wasm", ".wasm");
      }
    }
  }

  /** The blob store's answer to an existence check. */
  datatype Existence = Present | Absent | CheckFailed(error: string)

  /** A queried file the server asks for: its existence check answered "absent".
      A check that fails leaves the file out, since its error is never read. */
  predicate Missing(k: Kinds, present: (Option<BucketKey>, string) -> Existence, f: DeployFile) {
    var d := Details(k, f.typ, f.hash);
    present(d.bucket, d.name).Absent?
  }

  /** The files `DeployQuery` collects as `required`. The checks run in
      parallel, so the order is any interleaving; this is the query order, and
      the contract is stated on the multiset, which every order shares. */
  function Required(k: Kinds, present: (Option<BucketKey>, string) -> Existence, files: seq<DeployFile>): (r: seq<DeployFile>)
    ensures forall f :: multiset(r)[f] == if Missing(k, present, f) then multiset(files)[f] else 0
    decreases |files|
  {
    if |files| == 0 then []
    else
      var rest := Required(k, present, files[1..]);
      assert files == [files[0]] + files[1..];
      assert multiset(files) == multiset{files[0]} + multiset(files[1..]);
      if Missing(k, present, files[0]) then [files[0]] + rest else rest
  }

  /** Every required file was queried and is missing; nothing present is asked for. */
  lemma RequiredAreMissing(k: Kinds, present: (Option<BucketKey>, string) -> Existence, files: seq<DeployFile>, f: DeployFile)
    ensures f in Required(k, present, files) <==> f in files && Missing(k, present, f)
  {
    var r := Required(k, present, files);
    assert f in r <==> multiset(r)[f] > 0;
    assert f in files <==> multiset(files)[f] > 0;
  }

  /** A file of the payload: type, declared hash and contents. */
  datatype PayloadFile = PayloadFile(typ: string, hash: string, contents: seq<byte>)

  /** The hash the server recomputes for a payload file. */
  function Calculated(digest: seq<byte> -> seq<byte>, f: PayloadFile): string {
    Hex(digest(f.contents))
  }

  /** The item queued for a payload file, placed by its declared hash. */
  function ItemFor(k: Kinds, f: PayloadFile): (it: Item)
    ensures it.count && it.immutable && it.send && it.message == f.typ
    ensures Placement(it.bucket, it.name, it.mime) == Details(k, f.typ, f.hash)
    ensures it.contents == f.contents
  {
    var d := Details(k, f.typ, f.hash);
    Item(f.typ, d.name, f.contents, d.bucket, d.mime, true, true, true)
  }

  function HashError(typ: string): string {
    "hash not consistent for " + typ
  }

  /** The deploy record's file list: each payload file's type and declared hash. */
  function Records(files: seq<PayloadFile>): (r: seq<DeployFile>)
    ensures |r| == |files|
    ensures forall i :: 0 <= i < |r| ==> r[i] == DeployFile(files[i].typ, files[i].hash)
  {
    seq(|files|, i requires 0 <= i < |files| => DeployFile(files[i].typ, files[i].hash))
  }

  /** What the payload loop leaves: the items queued, the files recorded, and
      the error that stopped it. */
  datatype Gate = Gate(items: seq<Item>, records: seq<DeployFile>, error: Option<string>)

  /** File `i` is the first whose recomputed hash differs from its declared one. */
  predicate FirstMismatch(digest: seq<byte> -> seq<byte>, files: seq<PayloadFile>, i: int) {
    && 0 <= i < |files|
    && Calculated(digest, files[i]) != files[i].hash
    && forall j :: 0 <= j < i ==> Calculated(digest, files[j]) == files[j].hash
  }

  /** The payload loop: each file's hash is recomputed and checked before its
      item is queued; the first mismatch stops the loop with an error naming
      the file's type. */
  function CheckAndQueue(k: Kinds, digest: seq<byte> -> seq<byte>, files: seq<PayloadFile>): (g: Gate)
    ensures g.error.None? <==> forall i :: 0 <= i < |files| ==> Calculated(digest, files[i]) == files[i].hash
    ensures g.error.Some? ==> exists i :: FirstMismatch(digest, files, i) && |g.items| == i && g.error == Some(HashError(files[i].typ))
    ensures g.error.None? ==> |g.items| == |files| && |g.records| == |files|
    ensures |g.items| <= |files|
    ensures forall i :: 0 <= i < |g.items| ==> g.items[i] == ItemFor(k, files[i])
    ensures forall i :: 0 <= i < |g.items| ==> Calculated(digest, files[i]) == files[i].hash
    ensures g.error.None? ==> forall i :: 0 <= i < |g.records| ==> g.records[i] == DeployFile(files[i].typ, files[i].hash)
    decreases |files|
  {
    if |files| == 0 then Gate([], [], None)
    else
      var f := files[0];
      if Calculated(digest, f) != f.hash then
        assert FirstMismatch(digest, files, 0);
        Gate([], [DeployFile(f.typ, f.hash)], Some(HashError(f.typ)))
      else
        var rest := CheckAndQueue(k, digest, files[1..]);
        assert forall i :: 1 <= i < |files| ==> files[i] == files[1..][i - 1];
        if rest.error.Some? then
          var i :| FirstMismatch(digest, files[1..], i) && |rest.items| == i && rest.error == Some(HashError(files[1..][i].typ));
          assert FirstMismatch(digest, files, i + 1);
          Gate([ItemFor(k, f)] + rest.items, [DeployFile(f.typ, f.hash)] + rest.records, rest.error)
        else
          Gate([ItemFor(k, f)] + rest.items, [DeployFile(f.typ, f.hash)] + rest.records, rest.error)
  }

  /** Content addressing: two known files queued at the same place with the same
      MIME type have contents with the same digest, because each name is built
      from a hash the server recomputed from the contents. */
  lemma QueuedNameIdentifiesContent(k: Kinds, digest: seq<byte> -> seq<byte>, files: seq<PayloadFile>, i: nat, j: nat)
    requires DistinctKinds(k)
    requires var g := CheckAndQueue(k, digest, files); i < |g.items| && j < |g.items|
    requires KnownType(k, files[i].typ) && KnownType(k, files[j].typ)
    requires var g := CheckAndQueue(k, digest, files);
      g.items[i].bucket == g.items[j].bucket && g.items[i].name == g.items[j].name && g.items[i].mime == g.items[j].mime
    ensures files[i].typ == files[j].typ && digest(files[i].contents) == digest(files[j].contents)
  {
    DetailsInjective(k, files[i].typ, files[i].hash, files[j].typ, files[j].hash);
    HexInjective(digest(files[i].contents), digest(files[j].contents));
  }

  /** The collaborators of one deploy: the blob store's existence checks, the
      payload (`None` when the request is cancelled while waiting for it), the
      hash function, the uploader and the deploy-record save. */
  datatype DeployWorld = DeployWorld(
    present: (Option<BucketKey>, string) -> Existence,
    payload: Option<seq<PayloadFile>>,
    digest: seq<byte> -> seq<byte>,
    upload: UploadOutcome,
    save: SaveOutcome)

  /** Messages sent, items queued, deploy records whose save was attempted (each
      the list of files), and the error returned. */
  datatype DeployTrace = DeployTrace(
    sent: seq<PlayMessage>,
    items: seq<Item>,
    saved: seq<seq<DeployFile>>,
    error: Option<string>)

  /** `DeployQuery` followed by `storeWasmDeploy`. A failed record save is
      reported to the client but does not fail the deploy. */
  function DeployQuery(k: Kinds, query: seq<DeployFile>, w: DeployWorld): (t: DeployTrace)
    ensures 0 < |t.sent| && t.sent[0] == DeployQueryResponse(Required(k, w.present, query))
    ensures DeployDone in t.sent <==> t.saved != []
    ensures t.saved != [] ==> t.error.None? && t.sent[|t.sent| - 1] == DeployDone
    ensures t.error.Some? ==> DeployDone !in t.sent
    ensures |t.saved| <= 1
    ensures 0 < |Required(k, w.present, query)| && w.payload.Some? ==>
      t.items == CheckAndQueue(k, w.digest, w.payload.value).items
    ensures Required(k, w.present, query) == [] || w.payload.None? ==> t.items == []
  {
    var required := Required(k, w.present, query);
    var answered := [DeployQueryResponse(required)];
    if |required| == 0 then DeployTrace(answered, [], [], None)
    else
      match w.payload
      case None => DeployTrace(answered, [], [], None)
      case Some(files) =>
        var g := CheckAndQueue(k, w.digest, files);
        if g.error.Some? then DeployTrace(answered, g.items, [], g.error)
        else
          match w.upload
          case UploadFailed(progress, err) =>
            DeployTrace(answered + UploadMessages(progress), g.items, [], Some(err))
          case Uploaded(progress) =>
            var stored := answered + UploadMessages(progress) + [StoringDone];
            var reported := if w.save.SaveFailed? then [ServerError(w.save.text)] else [];
            DeployTrace(stored + reported + [DeployDone], g.items, [g.records], None)
  }

  /** Nothing missing: the answer is the only message, and the payload is
      never read, nothing is queued or recorded. */
  lemma NothingRequiredTrace(k: Kinds, query: seq<DeployFile>, w: DeployWorld)
    requires forall f :: f in query ==> !Missing(k, w.present, f)
    ensures DeployQuery(k, query, w) == DeployTrace([DeployQueryResponse([])], [], [], None)
  {
    var r := Required(k, w.present, query);
    if |r| > 0 {
      RequiredAreMissing(k, w.present, query, r[0]);
    }
  }

  /** Cancelled while waiting for the payload: no error, nothing queued or
      recorded. */
  lemma CancelledTrace(k: Kinds, query: seq<DeployFile>, w: DeployWorld)
    requires w.payload.None?
    ensures var t := DeployQuery(k, query, w);
      t.sent == [DeployQueryResponse(Required(k, w.present, query))] && t.items == [] && t.saved == [] && t.error.None?
  {
  }

  /** A payload file whose contents do not hash to its declared hash stops the
      deploy: the error names the first such file's type, that file and every
      later one are never queued, and neither the upload nor the record happens. */
  lemma HashMismatchTrace(k: Kinds, query: seq<DeployFile>, w: DeployWorld, i: nat)
    requires 0 < |Required(k, w.present, query)| && w.payload.Some?
    requires FirstMismatch(w.digest, w.payload.value, i)
    ensures var t := DeployQuery(k, query, w);
      && t.error == Some(HashError(w.payload.value[i].typ))
      && |t.items| == i
      && (forall j :: 0 <= j < i ==> t.items[j] == ItemFor(k, w.payload.value[j]))
      && t.sent == [DeployQueryResponse(Required(k, w.present, query))]
      && t.saved == []
  {
    var files := w.payload.value;
    var g := CheckAndQueue(k, w.digest, files);
    var j :| FirstMismatch(w.digest, files, j) && |g.items| == j && g.error == Some(HashError(files[j].typ));
    assert i == j;
  }

  /** A successful deploy: the answer, the uploader's progress, the storing
      report, an error message exactly when the record save failed, and
      DeployDone last; every payload file was queued and recorded. */
  lemma SuccessTrace(k: Kinds, query: seq<DeployFile>, w: DeployWorld)
    requires 0 < |Required(k, w.present, query)| && w.payload.Some? && w.upload.Uploaded?
    requires forall i :: 0 <= i < |w.payload.value| ==> Calculated(w.digest, w.payload.value[i]) == w.payload.value[i].hash
    ensures var t := DeployQuery(k, query, w);
      var head := [DeployQueryResponse(Required(k, w.present, query))] + UploadMessages(w.upload.progress) + [StoringDone];
      && t.error.None?
      && |t.items| == |w.payload.value|
      && (forall j :: 0 <= j < |t.items| ==> t.items[j] == ItemFor(k, w.payload.value[j]))
      && t.saved == [Records(w.payload.value)]
      && (w.save.Saved? ==> t.sent == head + [DeployDone])
      && (w.save.SaveFailed? ==> t.sent == head + [ServerError(w.save.text), DeployDone])
  {
    var files := w.payload.value;
    var g := CheckAndQueue(k, w.digest, files);
    assert g.error.None?;
    assert g.records == Records(files);
    var head := [DeployQueryResponse(Required(k, w.present, query))] + UploadMessages(w.upload.progress) + [StoringDone];
    var reported := if w.save.SaveFailed? then [ServerError(w.save.text)] else [];
    assert DeployQuery(k, query, w) == DeployTrace(head + reported + [DeployDone], g.items, [g.records], None);
  }

  /** A failed upload is returned as the error: the storing report, the record
      and DeployDone never happen. */
  lemma UploadFailureTrace(k: Kinds, query: seq<DeployFile>, w: DeployWorld)
    requires 0 < |Required(k, w.present, query)| && w.payload.Some? && w.upload.UploadFailed?
    requires forall i :: 0 <= i < |w.payload.value| ==> Calculated(w.digest, w.payload.value[i]) == w.payload.value[i].hash
    ensures var t := DeployQuery(k, query, w);
      && t.error == Some(w.upload.error)
      && StoringDone !in t.sent
      && t.saved == []
  {
    var g := CheckAndQueue(k, w.digest, w.payload.value);
    assert g.error.None?;
    var sent := [DeployQueryResponse(Required(k, w.present, query))] + UploadMessages(w.upload.progress);
    assert DeployQuery(k, query, w) == DeployTrace(sent, g.items, [], Some(w.upload.error));
  }
}
