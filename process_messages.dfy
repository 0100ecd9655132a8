/**
 * The channel coroutines of process_messages.py: `send_messages`, which
 * reports its connection state on the status queue, authorises with the
 * token and then sends every message the user enqueues over one
 * connection, and `read_msgs`, which reports its state and fans the
 * incoming lines out to the display and history queues.
 *
 * The cancellation that ends both loops is an explicit terminal event: the
 * write loop is cancelled while it waits on an empty sending queue, the read
 * loop after a given number of lines.
 */
module ProcessMessages {
  import opened Wrappers
  import opened Json
  import opened Text
  import opened Statuses
  import opened Streams
  import opened Connection
  import opened Protocol

  // ---------------------------------------------------------------------------
  // send_messages
  // ---------------------------------------------------------------------------

  /** One turn of the steady-state loop: consume one server line, then write the framed, sanitised message. */
  function SendOne(lines: seq<string>, l: Link, m: string): Link {
    var filtered := Sanitize(m);
    var (_, l1) := ReadStep(lines, l);
    WriteStep(WriteStep(l1, filtered + "\n"), "\n")
  }

  /** The loop over the messages `ms`, in queue order. */
  function SendLoop(lines: seq<string>, l: Link, ms: seq<string>): Link
    decreases |ms|
  {
    if ms == [] then l else SendLoop(lines, SendOne(lines, l, ms[0]), ms[1..])
  }

  /** What the loop leaves in the trace: per message, a line received, then its two frames written. */
  function LoopEvents(lines: seq<string>, pos: nat, ms: seq<string>): (t: seq<Io>)
    ensures |t| == 3 * |ms|
    decreases |ms|
  {
    if ms == [] then []
    else [Recv(LineAt(lines, pos)), Send(Sanitize(ms[0]) + "\n"), Send("\n")] + LoopEvents(lines, pos + 1, ms[1..])
  }

  lemma {:induction false} SendLoopShape(lines: seq<string>, l: Link, ms: seq<string>)
    ensures SendLoop(lines, l, ms) == Link(l.tried, l.pos + |ms|, l.trace + LoopEvents(lines, l.pos, ms))
    decreases |ms|
  {
    if ms != [] {
      var l1 := SendOne(lines, l, ms[0]);
      SendLoopShape(lines, l1, ms[1..]);
      var head := [Recv(LineAt(lines, l.pos)), Send(Sanitize(ms[0]) + "\n"), Send("\n")];
      assert l1.trace == l.trace + head;
      assert LoopEvents(lines, l.pos, ms) == head + LoopEvents(lines, l.pos + 1, ms[1..]);
    } else {
      assert LoopEvents(lines, l.pos, ms) == [];
    }
  }

  /** Message `i` of the loop: one line consumed, then `filter(m) + "\n"`, then `"\n"`, in that order. */
  lemma {:induction false} LoopEventsAt(lines: seq<string>, pos: nat, ms: seq<string>, i: nat)
    requires i < |ms|
    ensures LoopEvents(lines, pos, ms)[3 * i] == Recv(LineAt(lines, pos + i))
    ensures LoopEvents(lines, pos, ms)[3 * i + 1] == Send(Sanitize(ms[i]) + "\n")
    ensures LoopEvents(lines, pos, ms)[3 * i + 2] == Send("\n")
    decreases i
  {
    if i > 0 {
      LoopEventsAt(lines, pos + 1, ms[1..], i - 1);
      assert ms[1..][i - 1] == ms[i];
    }
  }

  /** Over the whole loop the writer receives exactly the frames of the messages, and the reader gives one line per message. */
  lemma LoopEventsIo(lines: seq<string>, pos: nat, ms: seq<string>)
    ensures Sends(LoopEvents(lines, pos, ms)) == Frames(ms)
    ensures Received(LoopEvents(lines, pos, ms)) == Incoming(lines, pos, |ms|)
    ensures Count(LoopEvents(lines, pos, ms), Dialed(Accept)) == 0
    ensures Count(LoopEvents(lines, pos, ms), Disconnected) == 0
  {
    LoopEventsSends(lines, pos, ms);
    LoopEventsReads(lines, pos, ms);
  }

  /** The loop's first turn, then the rest. */
  lemma LoopEventsUnfold(lines: seq<string>, pos: nat, ms: seq<string>)
    requires ms != []
    ensures var head := [Recv(LineAt(lines, pos)), Send(Sanitize(ms[0]) + "\n"), Send("\n")];
      && LoopEvents(lines, pos, ms) == head + LoopEvents(lines, pos + 1, ms[1..])
      && Sends(head) == [Sanitize(ms[0]) + "\n", "\n"] && Received(head) == [LineAt(lines, pos)]
      && Count(head, Dialed(Accept)) == 0 && Count(head, Disconnected) == 0
  {
    Io3(Recv(LineAt(lines, pos)), Send(Sanitize(ms[0]) + "\n"), Send("\n"));
    IoOne(Recv(LineAt(lines, pos)));
    IoOne(Send(Sanitize(ms[0]) + "\n"));
    IoOne(Send("\n"));
  }

  lemma {:induction false} LoopEventsSends(lines: seq<string>, pos: nat, ms: seq<string>)
    ensures Sends(LoopEvents(lines, pos, ms)) == Frames(ms)
    decreases |ms|
  {
    if ms != [] {
      var head := [Recv(LineAt(lines, pos)), Send(Sanitize(ms[0]) + "\n"), Send("\n")];
      LoopEventsUnfold(lines, pos, ms);
      LoopEventsSends(lines, pos + 1, ms[1..]);
      SendsAppend(head, LoopEvents(lines, pos + 1, ms[1..]));
      assert Frames(ms) == [Sanitize(ms[0]) + "\n", "\n"] + Frames(ms[1..]);
    } else {
      assert LoopEvents(lines, pos, ms) == [];
    }
  }

  lemma {:induction false} LoopEventsReads(lines: seq<string>, pos: nat, ms: seq<string>)
    ensures Received(LoopEvents(lines, pos, ms)) == Incoming(lines, pos, |ms|)
    ensures Count(LoopEvents(lines, pos, ms), Dialed(Accept)) == 0
    ensures Count(LoopEvents(lines, pos, ms), Disconnected) == 0
    decreases |ms|
  {
    if ms != [] {
      var head := [Recv(LineAt(lines, pos)), Send(Sanitize(ms[0]) + "\n"), Send("\n")];
      var rest := LoopEvents(lines, pos + 1, ms[1..]);
      LoopEventsUnfold(lines, pos, ms);
      LoopEventsReads(lines, pos + 1, ms[1..]);
      ReceivedAppend(head, rest);
      CountAppend(head, rest, Dialed(Accept));
      CountAppend(head, rest, Disconnected);
      assert Incoming(lines, pos, |ms|) == [LineAt(lines, pos)] + Incoming(lines, pos + 1, |ms| - 1);
    } else {
      assert LoopEvents(lines, pos, ms) == [];
    }
  }

  /**
   * How `send_messages` ended, the endpoint state, the status events it put,
   * in order, and for each of them the length of the endpoint trace at the
   * moment it was put, which places it among the connection's events.
   */
  datatype SendOutcome = SendOutcome(exit: Exit, link: Link, statuses: seq<StatusEvent>, marks: seq<nat>)

  /**
   * `send_messages` on a value, the cancellation arriving once the messages
   * `ms` are all sent.
   */
  function SendRun(outcomes: seq<Attempt>, lines: seq<string>, l: Link, token: string,
                   ms: seq<string>, parse: string -> Option<Json>): SendOutcome
  {
    var (c, l1) := Dial(outcomes, l, 0);
    match c
    case Pending => SendOutcome(Stalled, l1, [SendState(Initiated)], [|l.trace|])
    case Failed => SendOutcome(Raised(ConnectionError), l1, [SendState(Initiated)], [|l.trace|])
    case Connected =>
      var b := SendBody(lines, l1, token, ms, parse);
      SendOutcome(b.exit, b.link, [SendState(Initiated)] + b.statuses, [|l.trace|] + b.marks)
  }

  /**
   * The body of `async with open_connection(...)` in `send_messages`, from
   * ESTABLISHED on, with the close that ends the `async with` on every path.
   */
  function SendBody(lines: seq<string>, l1: Link, token: string, ms: seq<string>,
                    parse: string -> Option<Json>): SendOutcome
  {
    var (features, l2) := AuthorizeRun(lines, l1, token, parse);
    if features.None? || !Truthy(features.value) then
      SendOutcome(InvalidToken, CloseStep(l2), [SendState(Established)], [|l1.trace|])
    else
      match Subscript(features.value, "nickname")
      case Err(e) => SendOutcome(Raised(e), CloseStep(l2), [SendState(Established)], [|l1.trace|])
      case Ok(nickname) =>
        var l3 := SendLoop(lines, l2, ms);
        SendOutcome(Cancelled, CloseStep(l3),
                    [SendState(Established), NicknameReceived(nickname), SendState(Closed)],
                    [|l1.trace|, |l2.trace|, |l3.trace|])
  }

  /** The handshake writes the token line, reads the greeting and the response, and opens or closes nothing. */
  lemma AuthEventsIo(g: string, token: string, resp: string)
    ensures var t := [Recv(g), Send(token + "\n"), Recv(resp)];
      && Sends(t) == [token + "\n"] && Received(t) == [g, resp]
      && Count(t, Dialed(Accept)) == 0 && Count(t, Disconnected) == 0
  {
    Io3(Recv(g), Send(token + "\n"), Recv(resp));
  }

  /** A send channel that does not connect reports INITIATED only and touches no connection. */
  lemma SendNotConnected(outcomes: seq<Attempt>, lines: seq<string>, l: Link, token: string,
                         ms: seq<string>, parse: string -> Option<Json>)
    requires Dial(outcomes, l, 0).0 != Connected
    ensures var r := SendRun(outcomes, lines, l, token, ms, parse);
      && r.statuses == [SendState(Initiated)] && r.marks == [|l.trace|]
      && r.exit == (if Dial(outcomes, l, 0).0 == Pending then Stalled else Raised(ConnectionError))
      && l.trace <= r.link.trace
      && var added := r.link.trace[|l.trace|..];
      && Sends(added) == [] && Received(added) == []
      && Count(added, Dialed(Accept)) == 0 && Count(added, Disconnected) == 0
  {
    DialQuiet(outcomes, l);
  }

  /**
   * A falsy handshake result raises InvalidToken (and a result without a
   * nickname the subscription's exception): the statuses stop at
   * INITIATED, ESTABLISHED, with no nickname and no CLOSED.
   */
  lemma SendRejected(outcomes: seq<Attempt>, lines: seq<string>, l: Link, token: string,
                     ms: seq<string>, parse: string -> Option<Json>)
    requires Dial(outcomes, l, 0).0 == Connected
    requires var f := parse(LineAt(lines, l.pos + 1));
      f.None? || !Truthy(f.value) || Subscript(f.value, "nickname").Err?
    ensures var r := SendRun(outcomes, lines, l, token, ms, parse);
      var f := parse(LineAt(lines, l.pos + 1));
      && r.exit == (if f.None? || !Truthy(f.value) then InvalidToken else Raised(Subscript(f.value, "nickname").error))
      && r.statuses == [SendState(Initiated), SendState(Established)]
  {
    DialPos(outcomes, l, 0);
  }

  /** On the same path nothing is written but the token line, and the connection is closed once, last. */
  lemma SendRejectedIo(outcomes: seq<Attempt>, lines: seq<string>, l: Link, token: string,
                       ms: seq<string>, parse: string -> Option<Json>)
    requires Dial(outcomes, l, 0).0 == Connected
    requires var f := parse(LineAt(lines, l.pos + 1));
      f.None? || !Truthy(f.value) || Subscript(f.value, "nickname").Err?
    ensures var r := SendRun(outcomes, lines, l, token, ms, parse);
      && l.trace <= r.link.trace
      && var added := r.link.trace[|l.trace|..];
      && Sends(added) == [token + "\n"]
      && Received(added) == Incoming(lines, l.pos, 2)
      && Count(added, Dialed(Accept)) == 1
      && Count(added, Disconnected) == 1 && added[|added| - 1] == Disconnected
  {
    var l1 := Dial(outcomes, l, 0).1;
    DialPos(outcomes, l, 0);
    var auth := AuthEvents(lines, l.pos, token);
    RejectedBodyTrace(lines, l1, token, ms, parse);
    AuthEventsIo(LineAt(lines, l.pos), token, LineAt(lines, l.pos + 1));
    assert Incoming(lines, l.pos, 2) == [LineAt(lines, l.pos), LineAt(lines, l.pos + 1)];
    SessionEvents(outcomes, l, auth, SendRun(outcomes, lines, l, token, ms, parse).link.trace);
  }

  lemma RejectedBodyTrace(lines: seq<string>, l1: Link, token: string, ms: seq<string>, parse: string -> Option<Json>)
    requires var f := parse(LineAt(lines, l1.pos + 1));
      f.None? || !Truthy(f.value) || Subscript(f.value, "nickname").Err?
    ensures SendBody(lines, l1, token, ms, parse).link.trace == l1.trace + AuthEvents(lines, l1.pos, token) + [Disconnected]
  {
  }

  /**
   * On the same path INITIATED is put before the first connection attempt,
   * and ESTABLISHED once the connection is made, before `authorize` reads
   * the greeting; the handshake and the close follow it.
   */
  lemma SendRejectedOrder(outcomes: seq<Attempt>, lines: seq<string>, l: Link, token: string,
                          ms: seq<string>, parse: string -> Option<Json>)
    requires Dial(outcomes, l, 0).0 == Connected
    requires var f := parse(LineAt(lines, l.pos + 1));
      f.None? || !Truthy(f.value) || Subscript(f.value, "nickname").Err?
    ensures var r := SendRun(outcomes, lines, l, token, ms, parse);
      var t, m := r.link.trace, r.marks;
      && |m| == 2 && m[0] == |l.trace| && DialStretch(t, m[0], m[1])
      && t[..m[0]] == l.trace
      && t[m[1]..] == AuthEvents(lines, l.pos, token) + [Disconnected]
  {
    RejectedPhases(outcomes, lines, l, token, ms, parse);
  }

  /** The rejected run's trace as the connect loop, then the handshake and the close, with the marks between them. */
  lemma RejectedPhases(outcomes: seq<Attempt>, lines: seq<string>, l: Link, token: string,
                       ms: seq<string>, parse: string -> Option<Json>)
    requires Dial(outcomes, l, 0).0 == Connected
    requires var f := parse(LineAt(lines, l.pos + 1));
      f.None? || !Truthy(f.value) || Subscript(f.value, "nickname").Err?
    ensures var r := SendRun(outcomes, lines, l, token, ms, parse);
      var t, m, e := r.link.trace, r.marks, |Dial(outcomes, l, 0).1.trace|;
      && DialStretch(t, |l.trace|, e) && t[..|l.trace|] == l.trace
      && t[e..] == AuthEvents(lines, l.pos, token) + [Disconnected]
      && |m| == 2 && m[0] == |l.trace| && m[1] == e
  {
    RejectedParts(outcomes, lines, l, token, ms, parse);
    ConnectPhase(outcomes, l, AuthEvents(lines, l.pos, token) + [Disconnected], SendRun(outcomes, lines, l, token, ms, parse).link.trace);
  }

  /** The rejected run's trace and marks, in terms of the connect loop's end. */
  lemma RejectedParts(outcomes: seq<Attempt>, lines: seq<string>, l: Link, token: string,
                      ms: seq<string>, parse: string -> Option<Json>)
    requires Dial(outcomes, l, 0).0 == Connected
    requires var f := parse(LineAt(lines, l.pos + 1));
      f.None? || !Truthy(f.value) || Subscript(f.value, "nickname").Err?
    ensures var r := SendRun(outcomes, lines, l, token, ms, parse);
      && r.link.trace == Dial(outcomes, l, 0).1.trace + (AuthEvents(lines, l.pos, token) + [Disconnected])
      && r.marks == [|l.trace|, |Dial(outcomes, l, 0).1.trace|]
  {
    var l1 := Dial(outcomes, l, 0).1;
    DialPos(outcomes, l, 0);
    RejectedBodyTrace(lines, l1, token, ms, parse);
  }

  /** The three events of the handshake from position `pos`. */
  function AuthEvents(lines: seq<string>, pos: nat, token: string): seq<Io> {
    [Recv(LineAt(lines, pos)), Send(token + "\n"), Recv(LineAt(lines, pos + 1))]
  }

  /**
   * The body of a session that authorised and ran the loop over `ms` (none,
   * on the rejected paths): the token line and the frames are written, two
   * lines and then one per message are read.
   */
  lemma BodyIo(lines: seq<string>, pos: nat, token: string, ms: seq<string>)
    ensures var body := AuthEvents(lines, pos, token) + LoopEvents(lines, pos + 2, ms);
      && Sends(body) == [token + "\n"] + Frames(ms)
      && Received(body) == Incoming(lines, pos, 2 + |ms|)
      && Count(body, Dialed(Accept)) == 0 && Count(body, Disconnected) == 0
  {
    AuthEventsIo(LineAt(lines, pos), token, LineAt(lines, pos + 1));
    LoopEventsIo(lines, pos + 2, ms);
    IoAppend(AuthEvents(lines, pos, token), LoopEvents(lines, pos + 2, ms));
    IncomingSplit(lines, pos, 2, |ms|);
    assert Incoming(lines, pos, 2) == [LineAt(lines, pos), LineAt(lines, pos + 1)];
  }

  /**
   * A handshake whose result holds a nickname: exactly one NicknameReceived
   * with that nickname follows INITIATED and ESTABLISHED, CLOSED is the last
   * status, and the cancellation is re-raised.
   */
  lemma SendAccepted(outcomes: seq<Attempt>, lines: seq<string>, l: Link, token: string,
                     ms: seq<string>, parse: string -> Option<Json>)
    requires Dial(outcomes, l, 0).0 == Connected
    requires var f := parse(LineAt(lines, l.pos + 1));
      f.Some? && Truthy(f.value) && Subscript(f.value, "nickname").Ok?
    ensures var r := SendRun(outcomes, lines, l, token, ms, parse);
      var nickname := Subscript(parse(LineAt(lines, l.pos + 1)).value, "nickname").value;
      && r.exit == Cancelled
      && r.statuses == [SendState(Initiated), SendState(Established), NicknameReceived(nickname), SendState(Closed)]
  {
    DialPos(outcomes, l, 0);
  }

  /**
   * On the same path the writer gets the token line and then exactly the
   * frames of the messages, one server line being consumed per message, and
   * the connection is closed once, last.
   */
  lemma SendAcceptedIo(outcomes: seq<Attempt>, lines: seq<string>, l: Link, token: string,
                       ms: seq<string>, parse: string -> Option<Json>)
    requires Dial(outcomes, l, 0).0 == Connected
    requires var f := parse(LineAt(lines, l.pos + 1));
      f.Some? && Truthy(f.value) && Subscript(f.value, "nickname").Ok?
    ensures var r := SendRun(outcomes, lines, l, token, ms, parse);
      && l.trace <= r.link.trace
      && var added := r.link.trace[|l.trace|..];
      && Sends(added) == [token + "\n"] + Frames(ms)
      && Received(added) == Incoming(lines, l.pos, 2 + |ms|)
      && Count(added, Dialed(Accept)) == 1
      && Count(added, Disconnected) == 1 && added[|added| - 1] == Disconnected
  {
    var body := AuthEvents(lines, l.pos, token) + LoopEvents(lines, l.pos + 2, ms);
    AcceptedTrace(outcomes, lines, l, token, ms, parse);
    BodyIo(lines, l.pos, token, ms);
    SessionEvents(outcomes, l, body, SendRun(outcomes, lines, l, token, ms, parse).link.trace);
  }

  lemma AcceptedTrace(outcomes: seq<Attempt>, lines: seq<string>, l: Link, token: string,
                      ms: seq<string>, parse: string -> Option<Json>)
    requires Dial(outcomes, l, 0).0 == Connected
    requires var f := parse(LineAt(lines, l.pos + 1));
      f.Some? && Truthy(f.value) && Subscript(f.value, "nickname").Ok?
    ensures SendRun(outcomes, lines, l, token, ms, parse).link.trace
            == Dial(outcomes, l, 0).1.trace + (AuthEvents(lines, l.pos, token) + LoopEvents(lines, l.pos + 2, ms)) + [Disconnected]
  {
    var l1 := Dial(outcomes, l, 0).1;
    DialPos(outcomes, l, 0);
    BodyTrace(lines, l1, token, ms, parse);
  }

  lemma BodyTrace(lines: seq<string>, l1: Link, token: string, ms: seq<string>, parse: string -> Option<Json>)
    requires var f := parse(LineAt(lines, l1.pos + 1));
      f.Some? && Truthy(f.value) && Subscript(f.value, "nickname").Ok?
    ensures SendBody(lines, l1, token, ms, parse).link.trace
            == l1.trace + (AuthEvents(lines, l1.pos, token) + LoopEvents(lines, l1.pos + 2, ms)) + [Disconnected]
  {
    var l2 := AuthorizeRun(lines, l1, token, parse).1;
    SendLoopShape(lines, l2, ms);
    assert l2.trace + LoopEvents(lines, l2.pos, ms) == l1.trace + (AuthEvents(lines, l1.pos, token) + LoopEvents(lines, l1.pos + 2, ms));
  }

  /**
   * On the accepted path: INITIATED is put before the first connection
   * attempt; ESTABLISHED once the connection is made, before `authorize`
   * reads the greeting; NicknameReceived after the handshake's response and
   * before the first message's turn; every message's turn lies between it
   * and CLOSED; and CLOSED is put before the connection is closed.
   */
  lemma SendAcceptedOrder(outcomes: seq<Attempt>, lines: seq<string>, l: Link, token: string,
                          ms: seq<string>, parse: string -> Option<Json>)
    requires Dial(outcomes, l, 0).0 == Connected
    requires var f := parse(LineAt(lines, l.pos + 1));
      f.Some? && Truthy(f.value) && Subscript(f.value, "nickname").Ok?
    ensures var r := SendRun(outcomes, lines, l, token, ms, parse);
      var t, m := r.link.trace, r.marks;
      && |m| == 4 && m[0] == |l.trace| && DialStretch(t, m[0], m[1])
      && t[..m[0]] == l.trace && m[1] <= m[2] <= m[3] <= |t|
      && t[m[1]..m[2]] == AuthEvents(lines, l.pos, token)
      && t[m[2]..m[3]] == LoopEvents(lines, l.pos + 2, ms)
      && t[m[3]..] == [Disconnected]
  {
    var l1 := Dial(outcomes, l, 0).1;
    var a, b := AuthEvents(lines, l.pos, token), LoopEvents(lines, l.pos + 2, ms);
    var r := SendRun(outcomes, lines, l, token, ms, parse);
    AcceptedPhases(outcomes, lines, l, token, ms, parse);
    AcceptedOrderOf(r.link.trace, r.marks, l.trace, |l1.trace|, a, b);
  }

  /**
   * When NicknameReceived is put, nothing but the token line has been
   * written; every message's frames are written after it and before CLOSED.
   */
  lemma SendAcceptedNicknameFirst(outcomes: seq<Attempt>, lines: seq<string>, l: Link, token: string,
                                  ms: seq<string>, parse: string -> Option<Json>)
    requires Dial(outcomes, l, 0).0 == Connected
    requires var f := parse(LineAt(lines, l.pos + 1));
      f.Some? && Truthy(f.value) && Subscript(f.value, "nickname").Ok?
    ensures var r := SendRun(outcomes, lines, l, token, ms, parse);
      var t, m := r.link.trace, r.marks;
      && |m| == 4 && m[0] <= m[2] <= m[3] <= |t|
      && Sends(t[m[0]..m[2]]) == [token + "\n"]
      && Sends(t[m[2]..m[3]]) == Frames(ms)
  {
    var r := SendRun(outcomes, lines, l, token, ms, parse);
    SendAcceptedOrder(outcomes, lines, l, token, ms, parse);
    AuthEventsIo(LineAt(lines, l.pos), token, LineAt(lines, l.pos + 1));
    LoopEventsSends(lines, l.pos + 2, ms);
    SendsBefore(r.link.trace, r.marks, AuthEvents(lines, l.pos, token), token + "\n");
  }

  /** What is written up to the end of the handshake, when the connect loop wrote nothing. */
  lemma SendsBefore(t: seq<Io>, m: seq<nat>, a: seq<Io>, w: string)
    requires |m| == 4 && DialStretch(t, m[0], m[1]) && m[1] <= m[2] <= |t|
    requires t[m[1]..m[2]] == a && Sends(a) == [w]
    ensures Sends(t[m[0]..m[2]]) == [w]
  {
    assert t[m[0]..m[2]] == t[m[0]..m[1]] + a;
    SendsAppend(t[m[0]..m[1]], a);
  }

  /** The accepted run's trace as the connect loop, then the handshake, the loop's turns and the close, with the marks between them. */
  lemma AcceptedPhases(outcomes: seq<Attempt>, lines: seq<string>, l: Link, token: string,
                       ms: seq<string>, parse: string -> Option<Json>)
    requires Dial(outcomes, l, 0).0 == Connected
    requires var f := parse(LineAt(lines, l.pos + 1));
      f.Some? && Truthy(f.value) && Subscript(f.value, "nickname").Ok?
    ensures var r := SendRun(outcomes, lines, l, token, ms, parse);
      var t, m, e := r.link.trace, r.marks, |Dial(outcomes, l, 0).1.trace|;
      var a, b := AuthEvents(lines, l.pos, token), LoopEvents(lines, l.pos + 2, ms);
      && DialStretch(t, |l.trace|, e) && t[..|l.trace|] == l.trace
      && |a| == 3 && t[e..] == a + b + [Disconnected]
      && |m| == 4 && m[0] == |l.trace| && m[1] == e && m[2] == e + 3 && m[3] == e + 3 + |b|
  {
    var a, b := AuthEvents(lines, l.pos, token), LoopEvents(lines, l.pos + 2, ms);
    AcceptedParts(outcomes, lines, l, token, ms, parse);
    ConnectPhase(outcomes, l, a + b + [Disconnected], SendRun(outcomes, lines, l, token, ms, parse).link.trace);
  }

  /** The order facts of the accepted run, for any trace laid out as it is. */
  lemma AcceptedOrderOf(t: seq<Io>, m: seq<nat>, s: seq<Io>, e: nat, a: seq<Io>, b: seq<Io>)
    requires DialStretch(t, |s|, e) && t[..|s|] == s
    requires |a| == 3 && t[e..] == a + b + [Disconnected]
    requires |m| == 4 && m[0] == |s| && m[1] == e && m[2] == e + 3 && m[3] == e + 3 + |b|
    ensures && |m| == 4 && m[0] == |s| && DialStretch(t, m[0], m[1])
      && t[..m[0]] == s && m[1] <= m[2] <= m[3] <= |t|
      && t[m[1]..m[2]] == a
      && t[m[2]..m[3]] == b
      && t[m[3]..] == [Disconnected]
  {
    Slices3(t, e, a, b, [Disconnected]);
  }

  /** The accepted run's trace and marks, in terms of the connect loop's end. */
  lemma AcceptedParts(outcomes: seq<Attempt>, lines: seq<string>, l: Link, token: string,
                      ms: seq<string>, parse: string -> Option<Json>)
    requires Dial(outcomes, l, 0).0 == Connected
    requires var f := parse(LineAt(lines, l.pos + 1));
      f.Some? && Truthy(f.value) && Subscript(f.value, "nickname").Ok?
    ensures var r := SendRun(outcomes, lines, l, token, ms, parse);
      var e := |Dial(outcomes, l, 0).1.trace|;
      && r.link.trace == Dial(outcomes, l, 0).1.trace + (AuthEvents(lines, l.pos, token) + LoopEvents(lines, l.pos + 2, ms) + [Disconnected])
      && |r.marks| == 4 && r.marks[0] == |l.trace| && r.marks[1] == e && r.marks[2] == e + 3
      && r.marks[3] == e + 3 + |LoopEvents(lines, l.pos + 2, ms)|
  {
    var l1 := Dial(outcomes, l, 0).1;
    DialPos(outcomes, l, 0);
    AcceptedTrace(outcomes, lines, l, token, ms, parse);
    BodyMarks(lines, l1, token, ms, parse);
  }

  /** Where the body's three statuses are put, relative to the connection made before it. */
  lemma BodyMarks(lines: seq<string>, l1: Link, token: string, ms: seq<string>, parse: string -> Option<Json>)
    requires var f := parse(LineAt(lines, l1.pos + 1));
      f.Some? && Truthy(f.value) && Subscript(f.value, "nickname").Ok?
    ensures SendBody(lines, l1, token, ms, parse).marks == [|l1.trace|, |l1.trace| + 3, |l1.trace| + 3 + 3 * |ms|]
  {
    var l2 := AuthorizeRun(lines, l1, token, parse).1;
    SendLoopShape(lines, l2, ms);
  }

  /** The three consecutive parts of the trace after position `e`. */
  lemma Slices3(t: seq<Io>, e: nat, a: seq<Io>, b: seq<Io>, c: seq<Io>)
    requires e <= |t| && t[e..] == a + b + c
    ensures t[e..e + |a|] == a && t[e + |a|..e + |a| + |b|] == b && t[e + |a| + |b|..] == c
  {
    assert t[e..e + |a|] == (a + b + c)[..|a|];
    assert t[e + |a|..e + |a| + |b|] == (a + b + c)[|a|..|a| + |b|];
    assert t[e + |a| + |b|..] == (a + b + c)[|a| + |b|..];
  }

  /** The steady-state loop of `send_messages`, until the cancellation at the empty sending queue. */
  method Relay(ep: Endpoint, sending: Queue<string>)
    modifies ep, sending
    ensures ep.State() == SendLoop(ep.lines, old(ep.State()), old(sending.items))
    ensures sending.items == []
  {
    while sending.items != []
      invariant SendLoop(ep.lines, ep.State(), sending.items) == SendLoop(ep.lines, old(ep.State()), old(sending.items))
      decreases |sending.items|
    {
      var m := sending.Get();
      var filtered := Sanitize(m);
      var response := ep.ReadLine();
      ep.Write(filtered + "\n");
      ep.Write("\n");
    }
  }

  /**
   * `put_nowait(e)` on the status queue, stamped with the length of the
   * endpoint trace at that moment: the stamp joins `marks`, so a status put
   * at another point of the connection's life gets another stamp.
   */
  method PutStatus(status: Queue<StatusEvent>, ep: Endpoint, e: StatusEvent, marks: seq<nat>) returns (stamped: seq<nat>)
    modifies status
    ensures status.items == old(status.items) + [e] && stamped == marks + [|ep.trace|]
  {
    status.Put(e);
    stamped := marks + [|ep.trace|];
  }

  /**
   * `send_messages(host, port, sending_queue, token, status_msgs_queue)`.
   * The cancellation arrives when the loop waits on the empty sending queue.
   */
  method SendMessages(ep: Endpoint, token: string, sending: Queue<string>, status: Queue<StatusEvent>,
                      parse: string -> Option<Json>) returns (exit: Exit, marks: seq<nat>)
    modifies ep, sending, status
    ensures var r := SendRun(ep.outcomes, ep.lines, old(ep.State()), token, old(sending.items), parse);
      && exit == r.exit && ep.State() == r.link
      && status.items == old(status.items) + r.statuses && marks == r.marks
      && sending.items == (if r.exit == Cancelled then [] else old(sending.items))
  {
    marks := PutStatus(status, ep, SendState(Initiated), []);
    var c := OpenConnection(ep);
    match c
    case Pending =>
      return Stalled, marks;
    case Failed =>
      return Raised(ConnectionError), marks;
    case Connected =>
      var within;
      exit, within := SendSession(ep, token, sending, status, parse);
      marks := marks + within;
  }

  /**
   * The body of `async with open_connection(...)` in `send_messages`, on the
   * endpoint: ESTABLISHED, the handshake, then either the close or
   * NicknameReceived, the relay loop, CLOSED and the close.
   */
  method SendSession(ep: Endpoint, token: string, sending: Queue<string>, status: Queue<StatusEvent>,
                     parse: string -> Option<Json>) returns (exit: Exit, marks: seq<nat>)
    modifies ep, sending, status
    ensures var b := SendBody(ep.lines, old(ep.State()), token, old(sending.items), parse);
      && exit == b.exit && ep.State() == b.link
      && status.items == old(status.items) + b.statuses && marks == b.marks
      && sending.items == (if b.exit == Cancelled then [] else old(sending.items))
  {
    marks := PutStatus(status, ep, SendState(Established), []);
    var features := Authorize(ep, token, parse);
    if features.None? || !Truthy(features.value) {
      ep.Close();
      return InvalidToken, marks;
    }
    var nickname := Subscript(features.value, "nickname");
    if nickname.Err? {
      ep.Close();
      return Raised(nickname.error), marks;
    }
    marks := SendNamed(ep, sending, status, nickname.value, marks);
    return Cancelled, marks;
  }

  /**
   * The rest of the `async with` body once the nickname is known:
   * NicknameReceived, the relay loop until the cancellation, CLOSED and the
   * close.
   */
  method SendNamed(ep: Endpoint, sending: Queue<string>, status: Queue<StatusEvent>, nickname: Json,
                   marks: seq<nat>) returns (stamped: seq<nat>)
    modifies ep, sending, status
    ensures var l3 := SendLoop(ep.lines, old(ep.State()), old(sending.items));
      && ep.State() == CloseStep(l3) && sending.items == []
      && status.items == old(status.items) + [NicknameReceived(nickname), SendState(Closed)]
      && stamped == marks + [|old(ep.trace)|, |l3.trace|]
  {
    stamped := PutStatus(status, ep, NicknameReceived(nickname), marks);
    Relay(ep, sending);
    stamped := PutStatus(status, ep, SendState(Closed), stamped);
    ep.Close();
  }

  // ---------------------------------------------------------------------------
  // read_msgs
  // ---------------------------------------------------------------------------

  /** The status events of `read_msgs`: INITIATED; then ESTABLISHED and, on cancellation, CLOSED once it connected. */
  function ReadStatuses(exit: Exit): (s: seq<StatusEvent>)
    ensures |s| >= 1 && s[0] == ReadState(Initiated)
    ensures exit == Cancelled <==> |s| == 3
    ensures exit == Cancelled ==> s[1] == ReadState(Established) && s[2] == ReadState(Closed)
    ensures exit != Cancelled ==> |s| == 1
  {
    if exit == Cancelled then [ReadState(Initiated), ReadState(Established), ReadState(Closed)]
    else [ReadState(Initiated)]
  }

  /**
   * The length of the endpoint trace at the moment each status of
   * `read_msgs` is put: INITIATED before the connect loop, and once it
   * connected, ESTABLISHED after the loop and CLOSED after the `n` reads.
   */
  function ReadMarks(outcomes: seq<Attempt>, l: Link, n: nat): seq<nat> {
    var (c, l1) := Dial(outcomes, l, 0);
    if c == Connected then [|l.trace|, |l1.trace|, |l1.trace| + n] else [|l.trace|]
  }

  /**
   * The statuses of `read_msgs` among its connection's events: INITIATED is
   * put before the first connection attempt; ESTABLISHED once the connection
   * is made and before the first line is read; every line is read between
   * ESTABLISHED and CLOSED; and CLOSED is put before the connection is
   * closed. A channel that does not connect puts INITIATED only, first.
   */
  lemma ReadOrder(outcomes: seq<Attempt>, lines: seq<string>, l: Link, n: nat)
    ensures var r := ReadSession(outcomes, lines, l, n);
      var t, m := r.link.trace, ReadMarks(outcomes, l, n);
      && |m| == |ReadStatuses(r.exit)| && m[0] == |l.trace| <= |t| && t[..m[0]] == l.trace
      && (r.exit == Cancelled ==>
            && DialStretch(t, m[0], m[1]) && m[1] <= m[2] <= |t|
            && t[m[1]..m[2]] == RecvEvents(Incoming(lines, l.pos, n))
            && t[m[2]..] == [Disconnected])
  {
    var (c, l1) := Dial(outcomes, l, 0);
    if c == Connected {
      ReadPhases(outcomes, lines, l, n);
      ReadOrderOf(ReadSession(outcomes, lines, l, n).link.trace, ReadMarks(outcomes, l, n), l.trace, |l1.trace|,
                  RecvEvents(Incoming(lines, l.pos, n)));
    } else {
      DialQuiet(outcomes, l);
    }
  }

  /** A read session that connected: the connect loop, then the reads, then the close, with the marks between them. */
  lemma ReadPhases(outcomes: seq<Attempt>, lines: seq<string>, l: Link, n: nat)
    requires Dial(outcomes, l, 0).0 == Connected
    ensures var t, m, e := ReadSession(outcomes, lines, l, n).link.trace, ReadMarks(outcomes, l, n), |Dial(outcomes, l, 0).1.trace|;
      var got := RecvEvents(Incoming(lines, l.pos, n));
      && DialStretch(t, |l.trace|, e) && t[..|l.trace|] == l.trace
      && t[e..] == got + [Disconnected] && m == [|l.trace|, e, e + |got|]
  {
    var l1 := Dial(outcomes, l, 0).1;
    var got := RecvEvents(Incoming(lines, l.pos, n));
    var t := ReadSession(outcomes, lines, l, n).link.trace;
    DialPos(outcomes, l, 0);
    ReadLoopShape(lines, l1, n);
    assert t == l1.trace + (got + [Disconnected]);
    ConnectPhase(outcomes, l, got + [Disconnected], t);
  }

  /** The order facts of a read session that connected, for any trace laid out as it is. */
  lemma ReadOrderOf(t: seq<Io>, m: seq<nat>, s: seq<Io>, e: nat, got: seq<Io>)
    requires DialStretch(t, |s|, e) && t[..|s|] == s
    requires t[e..] == got + [Disconnected] && m == [|s|, e, e + |got|]
    ensures && DialStretch(t, m[0], m[1]) && m[1] <= m[2] <= |t|
      && t[m[1]..m[2]] == got
      && t[m[2]..] == [Disconnected]
  {
    Slices3(t, e, got, [], [Disconnected]);
  }

  /**
   * `read_msgs(message_queue, history_queue, host, port, status_updates_queue)`,
   * cancelled after `n` lines.
   */
  method ReadMsgs(ep: Endpoint, messages: Queue<string>, history: Queue<string>, status: Queue<StatusEvent>, n: nat)
    returns (exit: Exit, marks: seq<nat>)
    requires messages != history
    modifies ep, messages, history, status
    ensures var r := ReadSession(ep.outcomes, ep.lines, old(ep.State()), n);
      && exit == r.exit && ep.State() == r.link
      && messages.items == old(messages.items) + r.delivered
      && history.items == old(history.items) + r.delivered
      && status.items == old(status.items) + ReadStatuses(exit)
      && marks == ReadMarks(ep.outcomes, old(ep.State()), n)
  {
    marks := PutStatus(status, ep, ReadState(Initiated), []);
    var c := OpenConnection(ep);
    match c
    case Pending =>
      return Stalled, marks;
    case Failed =>
      return Raised(ConnectionError), marks;
    case Connected =>
      marks := ReadConnected(ep, messages, history, status, n, marks);
      return Cancelled, marks;
  }

  /**
   * The body of `async with open_connection(...)` in `read_msgs`:
   * ESTABLISHED, the `n` lines read and put on both queues, CLOSED at the
   * cancellation, and the close.
   */
  method ReadConnected(ep: Endpoint, messages: Queue<string>, history: Queue<string>, status: Queue<StatusEvent>,
                       n: nat, marks: seq<nat>) returns (stamped: seq<nat>)
    requires messages != history
    modifies ep, messages, history, status
    ensures ep.State() == CloseStep(ReadLoop(ep.lines, old(ep.State()), n))
    ensures messages.items == old(messages.items) + Incoming(ep.lines, old(ep.pos), n)
    ensures history.items == old(history.items) + Incoming(ep.lines, old(ep.pos), n)
    ensures status.items == old(status.items) + [ReadState(Established), ReadState(Closed)]
    ensures stamped == marks + [|old(ep.trace)|, |old(ep.trace)| + n]
  {
    stamped := PutStatus(status, ep, ReadState(Established), marks);
    ReadLoopShape(ep.lines, ep.State(), n);
    FanOut(ep, messages, history, n);
    stamped := PutStatus(status, ep, ReadState(Closed), stamped);
    ep.Close();
  }
}
