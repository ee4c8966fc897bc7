/** Sharing a playground project (server/play/share.go): the project is
    encoded, hashed, uploaded under its hash as a JSON object, recorded with
    its file count, and the hash is handed back to the client. */
module PlayShare {
  import opened Wrappers
  import opened Strings
  import opened HexCodec
  import opened Services

  /** `models.SharePack`, the document that is stored. */
  datatype SharePack = SharePack(version: int, source: Source, tags: seq<string>)

  /** The share record: how many files were shared and the hash they are
      stored under. */
  datatype ShareRecord = ShareRecord(files: nat, hash: string)

  /** The pairs (package, file) of a source, one per file. */
  function FilePairs(source: Source): set<(string, string)> {
    set p, f | p in source && f in source[p] :: (p, f)
  }

  /** The loop of `storeShare`: for every package, one per file. Go visits the
      packages in an unspecified order; any order gives the same count. */
  ghost function CountFiles(source: Source): (n: nat)
    ensures forall p :: p in source ==> |source[p]| <= n
    decreases |source|
  {
    if source == map[] then 0
    else
      var p :| p in source;
      var rest := source - {p};
      assert forall q :: q in source && q != p ==> q in rest && rest[q] == source[q];
      |source[p]| + CountFiles(rest)
  }

  /** The pairs of one package. */
  lemma {:induction false} PackagePairs(p: string, files: set<string>)
    ensures |set f | f in files :: (p, f)| == |files|
    decreases |files|
  {
    if files != {} {
      var x :| x in files;
      var rest := files - {x};
      PackagePairs(p, rest);
      assert (set f | f in files :: (p, f)) == (set f | f in rest :: (p, f)) + {(p, x)};
    } else {
      assert (set f | f in files :: (p, f)) == {};
    }
  }

  /** Removing one package removes exactly that package's pairs. */
  lemma FilePairsSplit(source: Source, p: string)
    requires p in source
    ensures FilePairs(source) == FilePairs(source - {p}) + (set f | f in source[p] :: (p, f))
    ensures FilePairs(source - {p}) !! (set f | f in source[p] :: (p, f))
  {
  }

  /** The recorded file count is the number of (package, file) pairs: every
      file of every package counted once. */
  lemma {:induction false} CountFilesIsPairs(source: Source)
    ensures CountFiles(source) == |FilePairs(source)|
    decreases |source|
  {
    if source != map[] {
      var p :| p in source && CountFiles(source) == |source[p]| + CountFiles(source - {p});
      CountFilesIsPairs(source - {p});
      PackagePairs(p, source[p].Keys);
      assert |source[p]| == |source[p].Keys|;
      FilePairsSplit(source, p);
    }
  }

  /** The collaborators of one share: the JSON encoder, the hash function, the
      storage client's construction (its error, if any), the uploader and the
      share-record save. */
  datatype ShareWorld = ShareWorld(
    encode: SharePack -> Result<seq<byte>, string>,
    digest: seq<byte> -> seq<byte>,
    client: Option<string>,
    upload: UploadOutcome,
    save: SaveOutcome)

  /** Messages sent, items queued, share records whose save was attempted, and
      the error returned. */
  datatype ShareTrace = ShareTrace(
    sent: seq<PlayMessage>,
    items: seq<Item>,
    saved: seq<ShareRecord>,
    error: Option<string>)

  const StoringStarting := Storing(true, false)

  /** The one object a share uploads: the encoded pack, named by its hash. */
  function ShareItem(hash: string, encoded: seq<byte>): (it: Item)
    ensures HasSuffix(it.name, ".json") && TrimSuffix(it.name, ".json") == hash
    ensures it.contents == encoded && it.bucket == Some(Src) && it.mime == Some(MimeJson)
    ensures it.count && it.immutable && it.send
  {
    Item("source", hash + ".json", encoded, Some(Src), Some(MimeJson), true, true, true)
  }

  /** `Share` followed by `storeShare`. */
  ghost function Share(source: Source, tags: seq<string>, w: ShareWorld): (t: ShareTrace)
    ensures 0 < |t.sent| && t.sent[0] == StoringStarting
    ensures t.error.None? <==> t.sent[|t.sent| - 1].ShareComplete?
    ensures |t.items| <= 1 && |t.saved| <= 1
    ensures forall i :: 0 <= i < |t.items| ==>
      w.encode(SharePack(0, source, tags)).Ok? && t.items[i].contents == w.encode(SharePack(0, source, tags)).value
    ensures forall i :: 0 <= i < |t.saved| ==> t.saved[i].files == |FilePairs(source)|
  {
    var started := [StoringStarting];
    match w.encode(SharePack(0, source, tags))
    case Err(err) => ShareTrace(started, [], [], Some(err))
    case Ok(encoded) =>
      var hash := Hex(w.digest(encoded));
      match w.client
      case Some(err) => ShareTrace(started, [], [], Some(err))
      case None =>
        var item := ShareItem(hash, encoded);
        match w.upload
        case UploadFailed(progress, err) =>
          ShareTrace(started + UploadMessages(progress), [item], [], Some(err))
        case Uploaded(progress) =>
          var stored := started + UploadMessages(progress) + [StoringDone];
          CountFilesIsPairs(source);
          var record := ShareRecord(CountFiles(source), hash);
          match w.save
          case SaveFailed(err) => ShareTrace(stored, [item], [record], Some(err))
          case Saved => ShareTrace(stored + [ShareComplete(hash)], [item], [record], None)
  }

  /** A successful share: storing starts, the uploader reports, storing is done,
      and the completion carries the same hash that names the object and the
      record, the hex of the encoded pack's digest. */
  lemma SuccessTrace(source: Source, tags: seq<string>, w: ShareWorld)
    requires w.encode(SharePack(0, source, tags)).Ok? && w.client.None?
    requires w.upload.Uploaded? && w.save.Saved?
    ensures var t := Share(source, tags, w);
      var encoded := w.encode(SharePack(0, source, tags)).value;
      var hash := Hex(w.digest(encoded));
      && t.sent == [StoringStarting] + UploadMessages(w.upload.progress) + [StoringDone, ShareComplete(hash)]
      && t.items == [Item("source", hash + ".json", encoded, Some(Src), Some(MimeJson), true, true, true)]
      && t.saved == [ShareRecord(|FilePairs(source)|, hash)]
      && t.error.None?
  {
  }

  /** A failed upload is the share's error: storing never reports done and
      nothing is recorded. */
  lemma UploadFailureTrace(source: Source, tags: seq<string>, w: ShareWorld)
    requires w.encode(SharePack(0, source, tags)).Ok? && w.client.None? && w.upload.UploadFailed?
    ensures var t := Share(source, tags, w);
      t.error == Some(w.upload.error) && StoringDone !in t.sent && t.saved == []
  {
  }

  /** A failed record save is the share's error: the upload happened and was
      reported done, but no completion is sent. */
  lemma SaveFailureTrace(source: Source, tags: seq<string>, w: ShareWorld)
    requires w.encode(SharePack(0, source, tags)).Ok? && w.client.None?
    requires w.upload.Uploaded? && w.save.SaveFailed?
    ensures var t := Share(source, tags, w);
      && t.error == Some(w.save.text)
      && t.sent[|t.sent| - 1] == StoringDone
      && |t.saved| == 1
  {
  }

  /** The object name is content-addressed: two shares stored under the same
      name encoded to contents with the same digest. */
  lemma NameIdentifiesContent(h1: seq<byte>, e1: seq<byte>, h2: seq<byte>, e2: seq<byte>)
    requires ShareItem(Hex(h1), e1).name == ShareItem(Hex(h2), e2).name
    ensures h1 == h2
  {
    var n := ShareItem(Hex(h1), e1).name;
    assert HasSuffix(Hex(h1) + ".json", ".json") && HasSuffix(Hex(h2) + ".json", ".json");
    assert TrimSuffix(n, ".json") == Hex(h1) && TrimSuffix(n, ".json") == Hex(h2);
    HexInjective(h1, h2);
  }
}
