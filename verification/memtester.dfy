/** The write-limited filesystem of testing/memtester/main.go: a wrapper around
    a filesystem whose files count every byte written into a counter shared by
    the wrapper, the filesystems chrooted from it and all their files, and
    refuse a write once the total passes the limit. */
module MemTester {
  import opened Wrappers

  const OutOfSpace := "out of space"

  /** The shared counters: `written` pointers are indices into this sequence. */
  type Counters = seq<nat>

  /** A `WriteLimitedFilesystem`: the wrapped filesystem (an opaque handle), its
      counter and its limit. */
  datatype Limited = Limited(inner: nat, written: nat, max: nat)

  /** A `WriteLimitedFile`: the wrapped file and the filesystem that made it. */
  datatype LimitedFile = LimitedFile(inner: nat, fs: Limited)

  /** `NewWriteLimitedFilesystem`: a fresh counter at zero and the given limit. */
  function NewLimited(counters: Counters, inner: nat, max: nat): (r: (Limited, Counters))
    ensures |r.1| == |counters| + 1 && r.1[..|counters|] == counters
    ensures r.0.written == |counters| && r.1[r.0.written] == 0
    ensures r.0.max == max && r.0.inner == inner
  {
    (Limited(inner, |counters|, max), counters + [0])
  }

  /** `Chroot`: the underlying filesystem's result; on success the new
      filesystem shares this one's counter and limit, on failure the error
      passes through. */
  function Chroot(fs: Limited, under: Result<nat, string>): (r: Result<Limited, string>)
    ensures under.Err? ==> r == Err(under.error)
    ensures under.Ok? ==> r.Ok? && r.value.written == fs.written && r.value.max == fs.max && r.value.inner == under.value
  {
    match under
    case Err(err) => Err(err)
    case Ok(handle) => Ok(Limited(handle, fs.written, fs.max))
  }

  /** `Create`, `Open`, `OpenFile` and `TempFile`: the file the underlying
      filesystem returns, wrapped with this filesystem, or its error. */
  function Wrap(fs: Limited, under: Result<nat, string>): (r: Result<LimitedFile, string>)
    ensures under.Err? ==> r == Err(under.error)
    ensures under.Ok? ==> r.Ok? && r.value.fs == fs && r.value.inner == under.value
  {
    match under
    case Err(err) => Err(err)
    case Ok(handle) => Ok(LimitedFile(handle, fs))
  }

  /** What the underlying file's `Write` answers. */
  datatype Written = Written(n: nat, error: Option<string>)

  datatype WriteResult = WriteResult(counters: Counters, n: nat, error: Option<string>)

  /** `Write`: the length is added to the shared counter first; then the write
      is refused when the new total passes the limit, and otherwise handed to
      the underlying file. */
  function Write(counters: Counters, f: LimitedFile, len: nat, under: Written): (r: WriteResult)
    requires f.fs.written < |counters|
    ensures |r.counters| == |counters|
    ensures r.counters[f.fs.written] == counters[f.fs.written] + len
    ensures forall c :: 0 <= c < |counters| && c != f.fs.written ==> r.counters[c] == counters[c]
    ensures r.counters[f.fs.written] > f.fs.max ==> r.error == Some(OutOfSpace) && r.n == 0
    ensures r.counters[f.fs.written] <= f.fs.max ==> r.n == under.n && r.error == under.error
  {
    var total := counters[f.fs.written] + len;
    var after := counters[f.fs.written := total];
    if total > f.fs.max then WriteResult(after, 0, Some(OutOfSpace))
    else WriteResult(after, under.n, under.error)
  }

  /** One write of a run: through which file, how many bytes, and what the
      underlying file would answer. */
  datatype Op = Op(file: LimitedFile, len: nat, under: Written)

  predicate ValidOps(counters: Counters, ops: seq<Op>) {
    forall i :: 0 <= i < |ops| ==> ops[i].file.fs.written < |counters|
  }

  /** The answer `(0, OutOfSpace)`. */
  predicate Refused(w: Written) {
    w.n == 0 && w.error == Some(OutOfSpace)
  }

  /** The counters after a run of writes, and each write's answer. */
  function Run(counters: Counters, ops: seq<Op>): (r: (Counters, seq<Written>))
    requires ValidOps(counters, ops)
    ensures |r.0| == |counters| && |r.1| == |ops|
    decreases |ops|
  {
    if |ops| == 0 then (counters, [])
    else
      var front := Run(counters, ops[..|ops| - 1]);
      var op := ops[|ops| - 1];
      var w := Write(front.0, op.file, op.len, op.under);
      (w.counters, front.1 + [Written(w.n, w.error)])
  }

  /** The bytes the writes of `ops` charged to counter `c`. */
  function Charged(ops: seq<Op>, c: nat): nat
    decreases |ops|
  {
    if |ops| == 0 then 0
    else Charged(ops[..|ops| - 1], c) + if ops[|ops| - 1].file.fs.written == c then ops[|ops| - 1].len else 0
  }

  /** After write `i`, its counter has passed its limit. */
  predicate LimitPassed(counters: Counters, ops: seq<Op>, i: nat)
    requires ValidOps(counters, ops) && i < |ops|
  {
    var c := ops[i].file.fs.written;
    counters[c] + Charged(ops[..i + 1], c) > ops[i].file.fs.max
  }

  lemma FrontValid(counters: Counters, ops: seq<Op>)
    requires ValidOps(counters, ops) && 0 < |ops|
    ensures ValidOps(counters, ops[..|ops| - 1])
  {
    var front := ops[..|ops| - 1];
    forall i | 0 <= i < |front| ensures front[i].file.fs.written < |counters| {
      assert front[i] == ops[i];
    }
  }

  /** A counter holds what it started with plus every byte written through any
      file sharing it, refused writes included. */
  lemma {:induction false} CounterIsCharged(counters: Counters, ops: seq<Op>, c: nat)
    requires ValidOps(counters, ops) && c < |counters|
    ensures Run(counters, ops).0[c] == counters[c] + Charged(ops, c)
    decreases |ops|
  {
    if |ops| > 0 {
      FrontValid(counters, ops);
      CounterIsCharged(counters, ops[..|ops| - 1], c);
    }
  }

  /** Write `i` of a run is refused when everything charged to its counter up
      to and including it passes the limit; otherwise it is the underlying
      file's answer. A total equal to the limit is still allowed. */
  lemma {:induction false} RefusedExactly(counters: Counters, ops: seq<Op>, i: nat)
    requires ValidOps(counters, ops) && i < |ops|
    ensures LimitPassed(counters, ops, i) ==> Refused(Run(counters, ops).1[i])
    ensures !LimitPassed(counters, ops, i) ==> Run(counters, ops).1[i] == ops[i].under
    decreases |ops|
  {
    var front := ops[..|ops| - 1];
    FrontValid(counters, ops);
    if i == |ops| - 1 {
      assert ops[..i + 1] == ops;
      assert ops[..i] == front;
      CounterIsCharged(counters, front, ops[i].file.fs.written);
    } else {
      RefusedExactly(counters, front, i);
      assert front[..i + 1] == ops[..i + 1];
      assert front[i] == ops[i];
    }
  }

  /** Charges only grow along a run. */
  lemma {:induction false} ChargedMonotone(ops: seq<Op>, i: nat, j: nat, c: nat)
    requires i <= j <= |ops|
    ensures Charged(ops[..i], c) <= Charged(ops[..j], c)
    decreases j - i
  {
    if i < j {
      ChargedMonotone(ops, i, j - 1, c);
      assert ops[..j][..j - 1] == ops[..j - 1];
    }
  }

  /** Once a write passes the limit, every later write through a file with the
      same counter and limit is refused too: the counter never goes down. */
  lemma RefusalIsFinal(counters: Counters, ops: seq<Op>, i: nat, j: nat)
    requires ValidOps(counters, ops) && i < j < |ops|
    requires ops[i].file.fs.written == ops[j].file.fs.written && ops[i].file.fs.max == ops[j].file.fs.max
    requires LimitPassed(counters, ops, i)
    ensures LimitPassed(counters, ops, j) && Refused(Run(counters, ops).1[j])
  {
    ChargedMonotone(ops, i + 1, j + 1, ops[i].file.fs.written);
    RefusedExactly(counters, ops, j);
  }
}
