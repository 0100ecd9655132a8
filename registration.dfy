/**
 * The registration client of registration.py: the button handler that
 * queues a request, and `register`, which serves the queued requests one
 * after the other. For each request it logs the address, makes one
 * connection attempt (no retry), and on success performs the three-line
 * handshake that sends the filtered nickname, logs the server's answer and
 * queues the account hash it holds. Its connections are never closed.
 */
module Registration {
  import opened Wrappers
  import opened Json
  import opened Text
  import opened Streams
  import opened Protocol

  /** One click's worth of input: host, port and user name, as the entries hold them. */
  datatype Request = Request(host: string, port: string, userName: string)

  /** The three entry fields of the registration window. */
  class RegistrationForm {
    var host: string
    var port: string
    var username: string

    constructor (host: string, port: string, username: string)
      ensures this.host == host && this.port == port && this.username == username
    {
      this.host, this.port, this.username := host, port, username;
    }

    /**
     * `process_button_click`: queue the three entries' texts and clear the
     * user-name entry only.
     */
    method ProcessButtonClick(requests: Queue<Request>)
      modifies this, requests
      ensures requests.items == old(requests.items) + [Request(old(host), old(port), old(username))]
      ensures username == [] && host == old(host) && port == old(port)
    {
      requests.Put(Request(host, port, username));
      username := [];
    }
  }

  /** The hash-queue item of a request whose server could not be reached. */
  const NoConnection: string := "ОШИБКА. Нет соединения с сервером"

  /** The log line written before connecting to `address` (`host:port`). */
  function Connecting(address: string): string {
    "Установка соединения с сервером " + address
  }

  /** The log line written when the name of `address` cannot be resolved. */
  function Unreachable(address: string): string {
    NoConnection + " " + address
  }

  /** What `register` has produced so far: the network state, the log queue's items and the hash queue's items. */
  datatype Reg = Reg(link: Link, logs: seq<string>, hashes: seq<Json>)

  /**
   * One request. The first component is None when the loop goes on to the
   * next request and the exception (or the stall) that ends it otherwise.
   * `parse` is `json.loads`, `repr` Python's `repr` of a string.
   */
  function RegisterOne(outcomes: seq<Attempt>, lines: seq<string>, s: Reg, req: Request,
                       parse: string -> Option<Json>, repr: string -> string): (Option<Exit>, Reg)
  {
    var address := req.host + ":" + req.port;
    var logs := s.logs + [Connecting(address)];
    var (a, l1) := ConnectStep(outcomes, s.link);
    match a
    case None => (Some(Stalled), Reg(l1, logs, s.hashes))
    case Some(Refuse) => (Some(Raised(ConnectionError)), Reg(l1, logs, s.hashes))
    case Some(ResolveFail) => (None, Reg(l1, logs + [Unreachable(address)], s.hashes + [JStr(NoConnection)]))
    case Some(Accept) => SignUp(lines, Reg(l1, logs, s.hashes), req.userName, parse, repr)
  }

  /**
   * The handshake on a connection that was made: read the greeting, write a
   * newline, read the nickname prompt, write the filtered nickname, read the
   * answer, log its repr, and extract the account hash from it.
   */
  function SignUp(lines: seq<string>, s: Reg, userName: string,
                  parse: string -> Option<Json>, repr: string -> string): (Option<Exit>, Reg)
  {
    var (_, l2) := ReadStep(lines, s.link);
    var l3 := WriteStep(l2, "\n");
    var (_, l4) := ReadStep(lines, l3);
    var l5 := WriteStep(l4, NickFilter(userName) + "\n");
    var (response, l6) := ReadStep(lines, l5);
    var logs := s.logs + [repr(response)];
    match parse(response)
    case None => (Some(Raised(JsonDecodeError)), Reg(l6, logs, s.hashes))
    case Some(features) =>
      match Subscript(features, "account_hash")
      case Ok(token) => (None, Reg(l6, logs, s.hashes + [token]))
      case Err(KeyError) => (None, Reg(l6, logs, s.hashes + [JNull]))
      case Err(e) => (Some(Raised(e)), Reg(l6, logs, s.hashes))
  }

  /**
   * A name that cannot be resolved: the connecting line and the error line
   * are logged, the no-connection text is the one item queued for the hash
   * label, nothing is read or written, and the loop goes on.
   */
  lemma RegisterUnresolved(outcomes: seq<Attempt>, lines: seq<string>, s: Reg, req: Request,
                           parse: string -> Option<Json>, repr: string -> string)
    requires s.link.tried < |outcomes| && outcomes[s.link.tried] == ResolveFail
    ensures var (stop, s1) := RegisterOne(outcomes, lines, s, req, parse, repr);
      var address := req.host + ":" + req.port;
      && stop.None?
      && s1.logs == s.logs + [Connecting(address), Unreachable(address)]
      && s1.hashes == s.hashes + [JStr(NoConnection)]
      && s1.link == Link(s.link.tried + 1, s.link.pos, s.link.trace + [Dialed(ResolveFail)])
  {
  }

  /** The events of the handshake on a connection made at position `pos`. */
  function HandshakeEvents(lines: seq<string>, pos: nat, nick: string): seq<Io> {
    [Dialed(Accept), Recv(LineAt(lines, pos)), Send("\n"), Recv(LineAt(lines, pos + 1)),
     Send(NickFilter(nick) + "\n"), Recv(LineAt(lines, pos + 2))]
  }

  /**
   * A connection that is made: three lines are read; `"\n"` and then the
   * filtered nickname with a newline are the only writes; the connecting
   * line and the answer's repr are logged; and the account hash is queued
   * when the answer is an object holding it, None when it is an object
   * without it. An answer that is not JSON, or is JSON but not an object,
   * raises and queues nothing.
   */
  lemma RegisterConnected(outcomes: seq<Attempt>, lines: seq<string>, s: Reg, req: Request,
                          parse: string -> Option<Json>, repr: string -> string)
    requires s.link.tried < |outcomes| && outcomes[s.link.tried] == Accept
    ensures var (stop, s1) := RegisterOne(outcomes, lines, s, req, parse, repr);
      var pos := s.link.pos;
      var answer := parse(LineAt(lines, pos + 2));
      && s1.link == Link(s.link.tried + 1, pos + 3, s.link.trace + HandshakeEvents(lines, pos, req.userName))
      && s1.logs == s.logs + [Connecting(req.host + ":" + req.port), repr(LineAt(lines, pos + 2))]
      && (answer.None? ==> stop == Some(Raised(JsonDecodeError)) && s1.hashes == s.hashes)
      && (answer.Some? && !answer.value.JObj? ==> stop == Some(Raised(TypeError)) && s1.hashes == s.hashes)
      && (answer.Some? && answer.value.JObj? ==>
            stop.None?
            && s1.hashes == s.hashes + [if "account_hash" in answer.value.fields then answer.value.fields["account_hash"] else JNull])
  {
  }

  /** The writes and reads of the handshake; it closes nothing. */
  lemma HandshakeIo(lines: seq<string>, pos: nat, nick: string)
    ensures var t := HandshakeEvents(lines, pos, nick);
      && Sends(t) == ["\n", NickFilter(nick) + "\n"]
      && Received(t) == Incoming(lines, pos, 3)
      && Count(t, Disconnected) == 0
  {
    var a, b, c := Recv(LineAt(lines, pos)), Recv(LineAt(lines, pos + 1)), Recv(LineAt(lines, pos + 2));
    var w1, w2 := Send("\n"), Send(NickFilter(nick) + "\n");
    var t := HandshakeEvents(lines, pos, nick);
    assert t == [Dialed(Accept), a, w1] + [b, w2, c];
    IoAppend([Dialed(Accept), a, w1], [b, w2, c]);
    assert Sends([Dialed(Accept), a, w1]) == ["\n"] && Received([Dialed(Accept), a, w1]) == [LineAt(lines, pos)]
        && Count([Dialed(Accept), a, w1], Disconnected) == 0 by {
      Io3(Dialed(Accept), a, w1);
      IoOne(Dialed(Accept));
      IoOne(a);
      IoOne(w1);
    }
    assert Sends([b, w2, c]) == [NickFilter(nick) + "\n"] && Received([b, w2, c]) == [LineAt(lines, pos + 1), LineAt(lines, pos + 2)]
        && Count([b, w2, c], Disconnected) == 0 by {
      Io3(b, w2, c);
      IoOne(b);
      IoOne(w2);
      IoOne(c);
    }
    assert Incoming(lines, pos, 3) == [LineAt(lines, pos), LineAt(lines, pos + 1), LineAt(lines, pos + 2)];
  }

  /** How `register` ended, what it produced, and the requests still queued. */
  datatype RegOutcome = RegOutcome(exit: Exit, state: Reg, rest: seq<Request>)

  /** `register` over the queued requests `reqs`; the cancellation arrives at the empty queue. */
  function RegisterRun(outcomes: seq<Attempt>, lines: seq<string>, s: Reg, reqs: seq<Request>,
                       parse: string -> Option<Json>, repr: string -> string): RegOutcome
    decreases |reqs|
  {
    if reqs == [] then RegOutcome(Cancelled, s, [])
    else
      var (stop, s1) := RegisterOne(outcomes, lines, s, reqs[0], parse, repr);
      if stop.Some? then RegOutcome(stop.value, s1, reqs[1..])
      else RegisterRun(outcomes, lines, s1, reqs[1..], parse, repr)
  }

  /** One request only appends: to the trace, to the logs and to the hashes; and it never closes a connection. */
  lemma RegisterOneGrows(outcomes: seq<Attempt>, lines: seq<string>, s: Reg, req: Request,
                         parse: string -> Option<Json>, repr: string -> string)
    ensures var (stop, s1) := RegisterOne(outcomes, lines, s, req, parse, repr);
      && s.link.trace <= s1.link.trace && s.logs <= s1.logs && s.hashes <= s1.hashes
      && Count(s1.link.trace[|s.link.trace|..], Disconnected) == 0
      && (stop.None? ==> |s1.hashes| == |s.hashes| + 1 && |s1.logs| == |s.logs| + 2)
  {
    var t := s.link.trace;
    if s.link.tried < |outcomes| {
      var o := outcomes[s.link.tried];
      if o == Accept {
        RegisterConnected(outcomes, lines, s, req, parse, repr);
        HandshakeIo(lines, s.link.pos, req.userName);
        var s1 := RegisterOne(outcomes, lines, s, req, parse, repr).1;
        assert s1.link.trace[|t|..] == HandshakeEvents(lines, s.link.pos, req.userName);
      } else {
        var s1 := RegisterOne(outcomes, lines, s, req, parse, repr).1;
        assert s1.link.trace[|t|..] == [Dialed(o)];
        IoOne(Dialed(o));
      }
    } else {
      var s1 := RegisterOne(outcomes, lines, s, req, parse, repr).1;
      assert s1.link.trace[|t|..] == [];
    }
  }

  /**
   * Over the whole loop, on every path, `register` only appends: to the
   * trace, to the logs and to the hashes; and it never closes a connection.
   */
  lemma {:induction false} RegisterRunAppends(outcomes: seq<Attempt>, lines: seq<string>, s: Reg, reqs: seq<Request>,
                                              parse: string -> Option<Json>, repr: string -> string)
    ensures var r := RegisterRun(outcomes, lines, s, reqs, parse, repr);
      && s.link.trace <= r.state.link.trace && s.logs <= r.state.logs && s.hashes <= r.state.hashes
      && Count(r.state.link.trace[|s.link.trace|..], Disconnected) == 0
    decreases |reqs|
  {
    if reqs == [] {
      assert s.link.trace[|s.link.trace|..] == [];
    } else {
      var (stop, s1) := RegisterOne(outcomes, lines, s, reqs[0], parse, repr);
      RegisterOneGrows(outcomes, lines, s, reqs[0], parse, repr);
      if stop.None? {
        RegisterRunAppends(outcomes, lines, s1, reqs[1..], parse, repr);
        var r := RegisterRun(outcomes, lines, s1, reqs[1..], parse, repr);
        QuietChain(s.link.trace, s1.link.trace, r.state.link.trace);
      }
    }
  }

  /** Two stretches of a growing trace without a close make one. */
  lemma QuietChain(t0: seq<Io>, t1: seq<Io>, t2: seq<Io>)
    requires t0 <= t1 <= t2
    requires Count(t1[|t0|..], Disconnected) == 0 && Count(t2[|t1|..], Disconnected) == 0
    ensures t0 <= t2 && Count(t2[|t0|..], Disconnected) == 0
  {
    assert t2[|t0|..] == t1[|t0|..] + t2[|t1|..] by {
      assert t1 == t0 + t1[|t0|..];
      assert t2 == t1 + t2[|t1|..];
    }
    CountAppend(t1[|t0|..], t2[|t1|..], Disconnected);
  }

  /**
   * On cancellation every request was handled, each adding exactly one hash
   * item and two log lines; any other exit stops at some request and leaves
   * the ones after it queued.
   */
  lemma {:induction false} RegisterRunCounts(outcomes: seq<Attempt>, lines: seq<string>, s: Reg, reqs: seq<Request>,
                                             parse: string -> Option<Json>, repr: string -> string)
    ensures var r := RegisterRun(outcomes, lines, s, reqs, parse, repr);
      && (r.exit == Cancelled ==> (r.rest == []
            && |r.state.hashes| == |s.hashes| + |reqs| && |r.state.logs| == |s.logs| + 2 * |reqs|))
      && (r.exit != Cancelled ==> |r.rest| < |reqs| && r.rest == reqs[|reqs| - |r.rest|..])
    decreases |reqs|
  {
    if reqs != [] {
      var (stop, s1) := RegisterOne(outcomes, lines, s, reqs[0], parse, repr);
      RegisterOneGrows(outcomes, lines, s, reqs[0], parse, repr);
      if stop.None? {
        RegisterRunCounts(outcomes, lines, s1, reqs[1..], parse, repr);
        var r := RegisterRun(outcomes, lines, s1, reqs[1..], parse, repr);
        if r.exit != Cancelled {
          assert reqs[1..][|reqs| - 1 - |r.rest|..] == reqs[|reqs| - |r.rest|..];
        }
      }
    }
  }

  /** The connected part of one turn of `register`. */
  method SignUpOn(net: Endpoint, userName: string, hashes: Queue<Json>, logs: Queue<string>,
                  parse: string -> Option<Json>, repr: string -> string) returns (stop: Option<Exit>)
    modifies net, hashes, logs
    ensures (stop, Reg(net.State(), logs.items, hashes.items))
            == SignUp(net.lines, Reg(old(net.State()), old(logs.items), old(hashes.items)), userName, parse, repr)
  {
    var response := net.ReadLine();
    net.Write("\n");
    response := net.ReadLine();
    var filteredNick := NickFilter(userName);
    net.Write(filteredNick + "\n");
    response := net.ReadLine();
    logs.Put(repr(response));
    var features := parse(response);
    if features.None? {
      return Some(Raised(JsonDecodeError));
    }
    var token := Subscript(features.value, "account_hash");
    if token.Ok? {
      hashes.Put(token.value);
    } else if token.error == KeyError {
      hashes.Put(JNull);
    } else {
      return Some(Raised(token.error));
    }
    return None;
  }

  /** `register(request_info_queue, new_user_hash_queue, log_queue)`. */
  method Register(net: Endpoint, requests: Queue<Request>, hashes: Queue<Json>, logs: Queue<string>,
                  parse: string -> Option<Json>, repr: string -> string) returns (exit: Exit)
    modifies net, requests, hashes, logs
    ensures var r := RegisterRun(net.outcomes, net.lines, Reg(old(net.State()), old(logs.items), old(hashes.items)),
                                 old(requests.items), parse, repr);
      && exit == r.exit && net.State() == r.state.link
      && logs.items == r.state.logs && hashes.items == r.state.hashes
      && requests.items == r.rest
  {
    while requests.items != []
      invariant RegisterRun(net.outcomes, net.lines, Reg(net.State(), logs.items, hashes.items), requests.items, parse, repr)
                == RegisterRun(net.outcomes, net.lines, Reg(old(net.State()), old(logs.items), old(hashes.items)),
                               old(requests.items), parse, repr)
      decreases |requests.items|
    {
      var req := requests.Get();
      var address := req.host + ":" + req.port;
      logs.Put(Connecting(address));
      var a := net.Connect();
      match a {
        case None =>
          return Stalled;
        case Some(Refuse) =>
          return Raised(ConnectionError);
        case Some(ResolveFail) =>
          logs.Put(Unreachable(address));
          hashes.Put(JStr(NoConnection));
        case Some(Accept) =>
          var stop := SignUpOn(net, req.userName, hashes, logs, parse, repr);
          if stop.Some? {
            return stop.value;
          }
      }
    }
    return Cancelled;
  }
}
