/** The messages the compile server streams to its browser client, as that client
    (the script embedded in server/server.go) reads them: a phase report for one of
    the four phases, or one of the two terminal messages. The `messages` package
    that defines their Go types is not part of this model. */
module Messages {

  /** The four phases the client shows a line for. */
  datatype Phase = Queue | Download | Compile | Store

  /** The payload of a phase report: each variant is the one payload field the
      client looks at (`done`, `starting`, `message`, `position`, `finished`; the
      `unchanged` count is called `unmodified` here, `unchanged` being a Dafny keyword). */
  datatype Status =
    | Position(position: nat)
    | Starting
    | Done
    | Note(text: string)
    | Counts(finished: nat, unmodified: nat, remain: nat)

  datatype Message =
    | Progress(phase: Phase, status: Status)
    | Complete(path: string, short: string, hashMin: string, hashMax: string)
    | Error(path: string, text: string)

  /** Complete and Error end a job from the client's point of view. */
  predicate IsTerminal(m: Message) {
    m.Complete? || m.Error?
  }

  /** No terminal message anywhere in `ms`. */
  predicate NoTerminal(ms: seq<Message>) {
    forall i :: 0 <= i < |ms| ==> !IsTerminal(ms[i])
  }

  /** How many terminal messages `ms` holds. */
  function CountTerminal(ms: seq<Message>): (n: nat)
    ensures n <= |ms|
    ensures n == 0 <==> NoTerminal(ms)
  {
    if |ms| == 0 then 0
    else (if IsTerminal(ms[0]) then 1 else 0) + CountTerminal(ms[1..])
  }

  /** Counting terminal messages distributes over concatenation. */
  lemma {:induction false} CountTerminalAppend(a: seq<Message>, b: seq<Message>)
    ensures CountTerminal(a + b) == CountTerminal(a) + CountTerminal(b)
  {
    if |a| > 0 {
      assert (a + b)[1..] == a[1..] + b;
      CountTerminalAppend(a[1..], b);
    } else {
      assert a + b == b;
    }
  }
}
