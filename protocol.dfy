/**
 * The protocol steps the two client variants share word for word: the token
 * handshake `authorize` and the read channel's fan-out loop.
 */
module Protocol {
  import opened Wrappers
  import opened Json
  import opened Text
  import opened Streams
  import opened Connection

  /**
   * How a channel coroutine ends: cancelled (the terminal input event),
   * InvalidToken raised, another exception raised, or stalled on a
   * connection attempt that never completes.
   */
  datatype Exit = Cancelled | InvalidToken | Raised(error: PyError) | Stalled

  /**
   * `authorize(reader, writer, token)` on a value: the greeting line is read
   * first, then `token + "\n"` is the one thing written, then the response
   * line is read and decoded; a response that is not JSON gives None.
   */
  function AuthorizeRun(lines: seq<string>, l: Link, token: string, parse: string -> Option<Json>): (r: (Option<Json>, Link))
    ensures r.0 == parse(LineAt(lines, l.pos + 1))
    ensures r.1 == Link(l.tried, l.pos + 2,
                        l.trace + [Recv(LineAt(lines, l.pos)), Send(token + "\n"), Recv(LineAt(lines, l.pos + 1))])
  {
    var (_, l1) := ReadStep(lines, l);
    var l2 := WriteStep(l1, token + "\n");
    var (response, l3) := ReadStep(lines, l2);
    (parse(response), l3)
  }

  /** The token handshake. */
  method Authorize(ep: Endpoint, token: string, parse: string -> Option<Json>) returns (features: Option<Json>)
    modifies ep
    ensures (features, ep.State()) == AuthorizeRun(ep.lines, old(ep.State()), token, parse)
  {
    var greeting := ep.ReadLine();
    ep.Write(token + "\n");
    var response := ep.ReadLine();
    features := parse(response);
  }

  /** The `n` lines that successive `readline()` calls return from position `pos` on, in arrival order. */
  function Incoming(lines: seq<string>, pos: nat, n: nat): (r: seq<string>)
    ensures |r| == n
    decreases n
  {
    if n == 0 then [] else [LineAt(lines, pos)] + Incoming(lines, pos + 1, n - 1)
  }

  /** Line `i` of the `n` read is the server's line at `pos + i`; when the server sent enough, they are a slice of its lines. */
  lemma {:induction false} IncomingLines(lines: seq<string>, pos: nat, n: nat)
    ensures forall i | 0 <= i < n :: Incoming(lines, pos, n)[i] == LineAt(lines, pos + i)
    ensures pos + n <= |lines| ==> Incoming(lines, pos, n) == lines[pos..pos + n]
    decreases n
  {
    if n > 0 {
      IncomingLines(lines, pos + 1, n - 1);
      var r := Incoming(lines, pos, n);
      assert r[1..] == Incoming(lines, pos + 1, n - 1);
      forall i | 0 <= i < n
        ensures r[i] == LineAt(lines, pos + i)
      {
        if i > 0 {
          assert r[i] == r[1..][i - 1];
        }
      }
    }
  }

  /** Reading `a` lines and then `b` more reads the next `a + b` lines. */
  lemma {:induction false} IncomingSplit(lines: seq<string>, pos: nat, a: nat, b: nat)
    ensures Incoming(lines, pos, a + b) == Incoming(lines, pos, a) + Incoming(lines, pos + a, b)
    decreases a
  {
    if a > 0 {
      IncomingSplit(lines, pos + 1, a - 1, b);
    }
  }

  /** One `Recv` event per line. */
  function RecvEvents(ls: seq<string>): (t: seq<Io>)
    ensures |t| == |ls|
    decreases |ls|
  {
    if ls == [] then [] else [Recv(ls[0])] + RecvEvents(ls[1..])
  }

  /** `n` turns of the read loop, on a value. */
  function ReadLoop(lines: seq<string>, l: Link, n: nat): Link
    decreases n
  {
    if n == 0 then l else ReadLoop(lines, ReadStep(lines, l).1, n - 1)
  }

  /** `n` turns of the read loop receive exactly the next `n` lines and do nothing else. */
  lemma {:induction false} ReadLoopShape(lines: seq<string>, l: Link, n: nat)
    ensures ReadLoop(lines, l, n) == Link(l.tried, l.pos + n, l.trace + RecvEvents(Incoming(lines, l.pos, n)))
    decreases n
  {
    if n > 0 {
      var l1 := ReadStep(lines, l).1;
      ReadLoopShape(lines, l1, n - 1);
      var rest := Incoming(lines, l1.pos, n - 1);
      var all := Incoming(lines, l.pos, n);
      assert all == [LineAt(lines, l.pos)] + rest;
      assert all[1..] == rest;
      assert RecvEvents(all) == [Recv(LineAt(lines, l.pos))] + RecvEvents(rest);
      assert l1.trace + RecvEvents(rest) == l.trace + RecvEvents(all);
    } else {
      assert RecvEvents(Incoming(lines, l.pos, 0)) == [];
    }
  }

  /**
   * The body of `read_msgs` until the cancellation arrives after `n` lines:
   * every line read is put, in arrival order, on both the display queue and
   * the history queue, so the two receive the same sequence.
   */
  method FanOut(ep: Endpoint, messages: Queue<string>, history: Queue<string>, n: nat)
    requires messages != history
    modifies ep, messages, history
    ensures ep.State() == ReadLoop(ep.lines, old(ep.State()), n)
    ensures messages.items == old(messages.items) + Incoming(ep.lines, old(ep.pos), n)
    ensures history.items == old(history.items) + Incoming(ep.lines, old(ep.pos), n)
  {
    var i := 0;
    ghost var got: seq<string> := [];
    while i < n
      invariant 0 <= i <= n
      invariant ReadLoop(ep.lines, ep.State(), n - i) == ReadLoop(ep.lines, old(ep.State()), n)
      invariant ep.pos == old(ep.pos) + i
      invariant got == Incoming(ep.lines, old(ep.pos), i)
      invariant messages.items == old(messages.items) + got
      invariant history.items == old(history.items) + got
    {
      var line := Deliver(ep, messages, history);
      IncomingSplit(ep.lines, old(ep.pos), i, 1);
      got := got + [line];
      i := i + 1;
    }
  }

  /** One turn of the read loop: the line read goes to both queues. */
  method Deliver(ep: Endpoint, messages: Queue<string>, history: Queue<string>) returns (line: string)
    requires messages != history
    modifies ep, messages, history
    ensures (line, ep.State()) == ReadStep(ep.lines, old(ep.State()))
    ensures messages.items == old(messages.items) + [line]
    ensures history.items == old(history.items) + [line]
  {
    line := ep.ReadLine();
    messages.Put(line);
    history.Put(line);
  }

  /** The lines of the `Recv` events are the lines, in order. */
  lemma {:induction false} ReceivedRecvEvents(ls: seq<string>)
    ensures Received(RecvEvents(ls)) == ls
    decreases |ls|
  {
    if ls != [] {
      ReceivedRecvEvents(ls[1..]);
      assert ([Recv(ls[0])] + RecvEvents(ls[1..]))[1..] == RecvEvents(ls[1..]);
    }
  }

  /** What the read channel did: how it ended, the endpoint state, and the lines it put on each of its two queues. */
  datatype ReadOutcome = ReadOutcome(exit: Exit, link: Link, delivered: seq<string>)

  /**
   * `read_msgs` on a value: connect, then fan out `n` lines until the
   * cancellation, then close the connection.
   */
  function ReadSession(outcomes: seq<Attempt>, lines: seq<string>, l: Link, n: nat): ReadOutcome {
    var (c, l1) := Dial(outcomes, l, 0);
    match c
    case Pending => ReadOutcome(Stalled, l1, [])
    case Failed => ReadOutcome(Raised(ConnectionError), l1, [])
    case Connected => ReadOutcome(Cancelled, CloseStep(ReadLoop(lines, l1, n)), Incoming(lines, l1.pos, n))
  }

  /**
   * A read channel that connects receives, in order, exactly the lines it
   * delivers, writes nothing, and closes its connection once, last; one that
   * does not connect delivers nothing and receives nothing.
   */
  lemma ReadSessionShape(outcomes: seq<Attempt>, lines: seq<string>, l: Link, n: nat)
    ensures var r := ReadSession(outcomes, lines, l, n);
      && l.trace <= r.link.trace
      && var added := r.link.trace[|l.trace|..];
      && Sends(added) == []
      && Received(added) == r.delivered
      && (r.exit == Cancelled <==> Dial(outcomes, l, 0).0 == Connected)
      && (r.exit == Cancelled ==>
            r.delivered == Incoming(lines, l.pos, n)
            && Count(added, Dialed(Accept)) == 1
            && Count(added, Disconnected) == 1
            && added[|added| - 1] == Disconnected)
      && (r.exit != Cancelled ==> r.delivered == [] && Count(added, Disconnected) == 0)
  {
    DialQuiet(outcomes, l);
    var (c, l1) := Dial(outcomes, l, 0);
    if c == Connected {
      var got := Incoming(lines, l1.pos, n);
      var r := ReadSession(outcomes, lines, l, n);
      ReadLoopShape(lines, l1, n);
      ReceivedRecvEvents(got);
      RecvEventsQuiet(got);
      assert r.link.trace == l1.trace + RecvEvents(got) + [Disconnected];
      SessionEvents(outcomes, l, RecvEvents(got), r.link.trace);
    }
  }

  /** Receiving lines sends nothing, connects nothing and closes nothing. */
  lemma {:induction false} RecvEventsQuiet(ls: seq<string>)
    ensures Sends(RecvEvents(ls)) == []
    ensures Count(RecvEvents(ls), Dialed(Accept)) == 0
    ensures Count(RecvEvents(ls), Disconnected) == 0
    decreases |ls|
  {
    if ls != [] {
      RecvEventsQuiet(ls[1..]);
      assert ([Recv(ls[0])] + RecvEvents(ls[1..]))[1..] == RecvEvents(ls[1..]);
    }
  }

  /** The method form of the read session shared by both client variants. */
  method ReadSessionOn(ep: Endpoint, messages: Queue<string>, history: Queue<string>, n: nat) returns (exit: Exit)
    requires messages != history
    modifies ep, messages, history
    ensures var r := ReadSession(ep.outcomes, ep.lines, old(ep.State()), n);
      && exit == r.exit && ep.State() == r.link
      && messages.items == old(messages.items) + r.delivered
      && history.items == old(history.items) + r.delivered
  {
    var c := OpenConnection(ep);
    match c
    case Pending =>
      return Stalled;
    case Failed =>
      return Raised(ConnectionError);
    case Connected =>
      FanOut(ep, messages, history, n);
      ep.Close();
      return Cancelled;
  }

  // ---------------------------------------------------------------------------
  // Framing of outgoing messages
  // ---------------------------------------------------------------------------

  /**
   * What the writer receives for the messages `ms`, in order: for each, the
   * sanitised text with a newline, then a lone newline.
   */
  function Frames(ms: seq<string>): (f: seq<string>)
    ensures |f| == 2 * |ms|
    decreases |ms|
  {
    if ms == [] then [] else [Sanitize(ms[0]) + "\n", "\n"] + Frames(ms[1..])
  }

  /** The frame pair of message `i` sits at positions `2 * i` and `2 * i + 1`. */
  lemma {:induction false} FramesAt(ms: seq<string>, i: nat)
    requires i < |ms|
    ensures Frames(ms)[2 * i] == Sanitize(ms[i]) + "\n"
    ensures Frames(ms)[2 * i + 1] == "\n"
    decreases i
  {
    if i > 0 {
      FramesAt(ms[1..], i - 1);
      assert ms[1..][i - 1] == ms[i];
    }
  }

  /**
   * The messages recovered from the list of write calls: the first chunk of
   * each pair, without its newline. This inverts the framing over the chunk
   * list, not over the lines the server reads from the byte stream (a
   * sanitised message may still begin or end with one newline).
   */
  function Deframe(chunks: seq<string>): seq<string>
    decreases |chunks|
  {
    if |chunks| < 2 then []
    else [if chunks[0] != [] then chunks[0][..|chunks[0]| - 1] else chunks[0]] + Deframe(chunks[2..])
  }

  /** Every message is sanitised, one after the other. */
  function SanitizeAll(ms: seq<string>): (r: seq<string>)
    ensures |r| == |ms| && forall i | 0 <= i < |ms| :: r[i] == Sanitize(ms[i])
  {
    seq(|ms|, i requires 0 <= i < |ms| => Sanitize(ms[i]))
  }

  /** Framing loses nothing but what sanitising removes: deframing gives back the sanitised messages. */
  lemma {:induction false} DeframeFrames(ms: seq<string>)
    ensures Deframe(Frames(ms)) == SanitizeAll(ms)
    decreases |ms|
  {
    if ms != [] {
      var f := Frames(ms);
      DeframeFrames(ms[1..]);
      assert f[2..] == Frames(ms[1..]);
      var body := Sanitize(ms[0]) + "\n";
      assert f[0] == body && body[..|body| - 1] == Sanitize(ms[0]);
    }
  }
}
