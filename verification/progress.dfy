/** The compile page's client (the script embedded in server/server.go's page
    template): a fold over the messages a job streams, keeping what the page
    shows. Two rules make it robust to out-of-order delivery: once a phase has
    shown "done", later reports for that phase are ignored; and once the job is
    complete (by Complete or Error), a later Error is ignored. */
module Progress {
  import opened Wrappers
  import opened Messages

  /** What a phase row's span shows. */
  datatype Line =
    | ShowDone
    | ShowStarting
    | ShowText(text: string)
    | ShowPosition(position: nat)
    | ShowCounts(finished: nat, unmodified: nat, remain: nat)

  /** The page: the `done` object, the phase rows made visible with their span,
      the `complete` flag, the `final` payload of the completion panel, the error
      panel's message when it is shown, and whether `socket.onclose` has been
      installed (the script installs it while handling each message). */
  datatype View = View(
    done: set<Phase>,
    lines: map<Phase, Line>,
    complete: bool,
    final: Option<Message>,
    error: Option<string>,
    onClose: bool)

  const Initial := View({}, map[], false, None, None, false)
  const Disconnected := "server disconnected"

  /** The span for one report, read in the script's order: done, starting,
      message, position, counts. An empty message and a zero position are falsy
      in JavaScript and fall through to "Starting". */
  function LineFor(s: Status): Line {
    match s
    case Done => ShowDone
    case Starting => ShowStarting
    case Note(t) => if t != "" then ShowText(t) else ShowStarting
    case Position(n) => if n != 0 then ShowPosition(n) else ShowStarting
    case Counts(f, u, r) => ShowCounts(f, u, r)
  }

  /** `socket.onmessage`. */
  function Step(v: View, m: Message): (r: View)
    ensures r.onClose
    ensures m.Progress? && m.phase !in v.done ==> r.lines == v.lines[m.phase := LineFor(m.status)]
    ensures m.Progress? && m.phase !in v.done ==> (m.phase in r.done <==> m.status.Done?)
    ensures m.Progress? && m.phase in v.done ==> r == v.(onClose := true)
    ensures m.Error? && v.complete ==> r == v.(onClose := true)
    ensures m.Complete? ==> r.final == Some(m)
    ensures !m.Complete? ==> r.final == v.final
    ensures r.complete <==> v.complete || IsTerminal(m)
    ensures v.done <= r.done
    ensures forall p :: p in v.done && p in v.lines ==> p in r.lines && r.lines[p] == v.lines[p]
  {
    var next := match m
      case Progress(p, s) =>
        if p in v.done then v
        else v.(lines := v.lines[p := LineFor(s)], done := if s.Done? then v.done + {p} else v.done)
      case Complete(_, _, _, _) => v.(complete := true, final := Some(m))
      case Error(_, text) => if v.complete then v else v.(complete := true, error := Some(text));
    next.(onClose := true)
  }

  /** The page after a stream of messages. */
  function Fold(v: View, ms: seq<Message>): (r: View)
    ensures v.complete ==> r.complete
    ensures v.done <= r.done
    decreases |ms|
  {
    if |ms| == 0 then v else Fold(Step(v, ms[0]), ms[1..])
  }

  /** `socket.onclose`, which only exists once a message has arrived. */
  function Close(v: View): (r: View)
    ensures r.(error := v.error) == v
    ensures r.error != v.error ==> r.error == Some(Disconnected)
    ensures v.complete || !v.onClose ==> r == v
  {
    if v.onClose && !v.complete then v.(error := Some(Disconnected)) else v
  }

  /** Every phase marked done shows "Done". */
  ghost predicate Consistent(v: View) {
    forall p :: p in v.done ==> p in v.lines && v.lines[p] == ShowDone
  }

  /** The first Complete or Error of a stream, if any. */
  function FirstTerminal(ms: seq<Message>): (r: Option<Message>)
    ensures r.Some? ==> IsTerminal(r.value) && r.value in ms
    ensures r.None? <==> NoTerminal(ms)
  {
    if |ms| == 0 then None
    else if IsTerminal(ms[0]) then Some(ms[0])
    else FirstTerminal(ms[1..])
  }

  lemma {:induction false} FoldAppend(v: View, a: seq<Message>, b: seq<Message>)
    ensures Fold(v, a + b) == Fold(Fold(v, a), b)
    decreases |a|
  {
    if |a| > 0 {
      assert (a + b)[1..] == a[1..] + b;
      FoldAppend(Step(v, a[0]), a[1..], b);
    } else {
      assert a + b == b;
    }
  }

  lemma StepConsistent(v: View, m: Message)
    requires Consistent(v)
    ensures Consistent(Step(v, m))
  {
  }

  /** A phase's done is final: once it is marked, no later message changes its
      row, and it stays marked. */
  lemma {:induction false} DoneIsFinal(v: View, ms: seq<Message>, p: Phase)
    requires Consistent(v) && p in v.done
    ensures p in Fold(v, ms).done && p in Fold(v, ms).lines
    ensures Fold(v, ms).lines[p] == ShowDone
    ensures Consistent(Fold(v, ms))
    decreases |ms|
  {
    if |ms| > 0 {
      StepConsistent(v, ms[0]);
      DoneIsFinal(Step(v, ms[0]), ms[1..], p);
    }
  }

  /** Folding from a consistent page keeps it consistent. */
  lemma {:induction false} FoldConsistent(v: View, ms: seq<Message>)
    requires Consistent(v)
    ensures Consistent(Fold(v, ms))
    decreases |ms|
  {
    if |ms| > 0 {
      StepConsistent(v, ms[0]);
      FoldConsistent(Step(v, ms[0]), ms[1..]);
    }
  }

  /** Whatever else arrives, a phase whose done report arrived ends up showing
      "Done". */
  lemma DoneShown(ms: seq<Message>, i: nat, p: Phase)
    requires i < |ms| && ms[i] == Progress(p, Done)
    ensures p in Fold(Initial, ms).done && p in Fold(Initial, ms).lines
    ensures Fold(Initial, ms).lines[p] == ShowDone
  {
    var before := ms[..i];
    var after := ms[i + 1..];
    assert ms == before + [ms[i]] + after;
    FoldAppend(Initial, before + [ms[i]], after);
    FoldAppend(Initial, before, [ms[i]]);
    FoldConsistent(Initial, before);
    var u := Fold(Initial, before);
    StepConsistent(u, ms[i]);
    assert Fold(u, [ms[i]]) == Step(u, ms[i]);
    DoneIsFinal(Step(u, ms[i]), after, p);
  }

  /** Once the job is complete the error panel never changes, and the page stays
      complete; a stream of nothing but late Errors leaves every row and the
      final payload as they were. */
  lemma {:induction false} ErrorIsFinal(v: View, ms: seq<Message>)
    requires v.complete
    ensures Fold(v, ms).complete
    ensures Fold(v, ms).error == v.error
    ensures (forall i :: 0 <= i < |ms| ==> ms[i].Error?) ==>
      Fold(v, ms) == v.(onClose := v.onClose || 0 < |ms|)
    decreases |ms|
  {
    if |ms| > 0 {
      ErrorIsFinal(Step(v, ms[0]), ms[1..]);
    }
  }

  /** The error panel shows the text of the stream's first terminal message when
      that message is an Error, and nothing when it is a Complete (or there is
      none): the first terminal message wins. */
  lemma {:induction false} ErrorShownIsFirstTerminal(v: View, ms: seq<Message>)
    requires !v.complete
    ensures Fold(v, ms).complete <==> !NoTerminal(ms)
    ensures Fold(v, ms).error ==
      (match FirstTerminal(ms)
       case Some(Error(_, t)) => Some(t)
       case _ => v.error)
    decreases |ms|
  {
    if |ms| > 0 {
      var m := ms[0];
      if IsTerminal(m) {
        ErrorIsFinal(Step(v, m), ms[1..]);
      } else {
        ErrorShownIsFirstTerminal(Step(v, m), ms[1..]);
      }
    }
  }

  /** The close handler is installed exactly when some message has arrived. */
  lemma {:induction false} OnCloseInstalled(v: View, ms: seq<Message>)
    ensures Fold(v, ms).onClose <==> v.onClose || 0 < |ms|
    decreases |ms|
  {
    if |ms| > 0 {
      OnCloseInstalled(Step(v, ms[0]), ms[1..]);
    }
  }

  /** A disconnect is reported exactly when messages arrived but none of them
      ended the job; otherwise closing changes nothing. */
  lemma DisconnectShown(ms: seq<Message>)
    ensures var v := Fold(Initial, ms);
      Close(v) == (if 0 < |ms| && NoTerminal(ms) then v.(error := Some(Disconnected)) else v)
  {
    OnCloseInstalled(Initial, ms);
    ErrorShownIsFirstTerminal(Initial, ms);
  }
}
