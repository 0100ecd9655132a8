/**
 * `open_connection(host, port)`: connect, retrying on name-resolution
 * failure (socket.gaierror) for ever; attempts numbered 0, 1 and 2 are
 * retried at once, every later failed attempt is followed by a one-second
 * sleep. Any other exception ends the loop and propagates. The caller's body
 * then runs on the connection, and the writer is closed when the body ends,
 * however it ends; the channel methods that use a connection call
 * `Endpoint.Close` on each of their exits.
 */
module Connection {
  import opened Wrappers
  import opened Streams

  /** How the retry loop ends: connected, an exception other than gaierror, or still waiting on an attempt. */
  datatype ConnectResult = Connected | Failed | Pending

  /** The retry loop, from attempt number `n` on. */
  function Dial(outcomes: seq<Attempt>, l: Link, n: nat): (r: (ConnectResult, Link))
    decreases |outcomes| - l.tried
  {
    var (a, l1) := ConnectStep(outcomes, l);
    match a
    case None => (Pending, l1)
    case Some(Accept) => (Connected, l1)
    case Some(Refuse) => (Failed, l1)
    case Some(ResolveFail) => Dial(outcomes, if n > 2 then SleepStep(l1) else l1, n + 1)
  }

  /** The number of consecutive resolution failures the script holds from index `from` on. */
  function LeadingFailures(outcomes: seq<Attempt>, from: nat): (k: nat)
    ensures k == 0 || from + k <= |outcomes|
    ensures forall i | from <= i < from + k :: outcomes[i] == ResolveFail
    ensures from + k < |outcomes| ==> outcomes[from + k] != ResolveFail
    decreases |outcomes| - from
  {
    if from < |outcomes| && outcomes[from] == ResolveFail then 1 + LeadingFailures(outcomes, from + 1) else 0
  }

  /**
   * What `k` failed attempts numbered `n`, `n + 1`, ... leave in the trace:
   * each failure, followed by one sleep when its number is greater than 2.
   */
  function FailureEvents(k: nat, n: nat): seq<Io>
    decreases k
  {
    if k == 0 then [] else [Dialed(ResolveFail)] + (if n > 2 then [Slept] else []) + FailureEvents(k - 1, n + 1)
  }

  /** The attempt that ends the loop, if the script reaches one. */
  function FinalAttempt(outcomes: seq<Attempt>, i: nat): seq<Io> {
    if i < |outcomes| then [Dialed(outcomes[i])] else []
  }

  function Max0(x: int): nat {
    if x < 0 then 0 else x
  }

  /**
   * The whole loop: it skips over the leading run of resolution failures
   * (and only those), ends on the first other outcome, connected exactly when
   * that outcome is a successful connect, and reads or writes nothing.
   */
  lemma {:induction false} DialShape(outcomes: seq<Attempt>, l: Link, n: nat)
    ensures var k := LeadingFailures(outcomes, l.tried);
      var r := Dial(outcomes, l, n);
      && r.0 == (if l.tried + k >= |outcomes| then Pending
                 else if outcomes[l.tried + k] == Accept then Connected
                 else Failed)
      && r.1 == Link(if l.tried + k < |outcomes| then l.tried + k + 1 else l.tried + k,
                     l.pos,
                     l.trace + FailureEvents(k, n) + FinalAttempt(outcomes, l.tried + k))
    decreases |outcomes| - l.tried
  {
    var k := LeadingFailures(outcomes, l.tried);
    if l.tried < |outcomes| && outcomes[l.tried] == ResolveFail {
      var l1 := Link(l.tried + 1, l.pos, l.trace + [Dialed(ResolveFail)]);
      var l2 := if n > 2 then SleepStep(l1) else l1;
      assert Dial(outcomes, l, n) == Dial(outcomes, l2, n + 1);
      DialShape(outcomes, l2, n + 1);
      assert LeadingFailures(outcomes, l2.tried) == k - 1;
      FailureEventsUnfold(l.trace, l2.trace, k, n);
    } else {
      assert k == 0;
      assert FailureEvents(k, n) == [];
    }
  }

  lemma FailureEventsUnfold(t: seq<Io>, t2: seq<Io>, k: nat, n: nat)
    requires k > 0
    requires t2 == t + [Dialed(ResolveFail)] + (if n > 2 then [Slept] else [])
    ensures t + FailureEvents(k, n) == t2 + FailureEvents(k - 1, n + 1)
  {
  }

  /** Failed attempts numbered `n .. n + k - 1` sleep once for each number above 2. */
  lemma {:induction false} FailureSleeps(k: nat, n: nat)
    ensures Count(FailureEvents(k, n), Slept) == Max0(n + k - 3) - Max0(n - 3)
    decreases k
  {
    if k > 0 {
      var head := [Dialed(ResolveFail)] + (if n > 2 then [Slept] else []);
      FailureSleeps(k - 1, n + 1);
      CountAppend(head, FailureEvents(k - 1, n + 1), Slept);
      assert Count(head, Slept) == (if n > 2 then 1 else 0) by {
        assert Count([Dialed(ResolveFail)], Slept) == 0;
        CountAppend([Dialed(ResolveFail)], if n > 2 then [Slept] else [], Slept);
      }
    }
  }

  /** Failed attempts neither send nor receive anything, and open no connection. */
  lemma {:induction false} FailureEventsQuiet(k: nat, n: nat)
    ensures Sends(FailureEvents(k, n)) == []
    ensures Received(FailureEvents(k, n)) == []
    ensures Count(FailureEvents(k, n), Dialed(Accept)) == 0
    ensures Count(FailureEvents(k, n), Disconnected) == 0
    decreases k
  {
    if k > 0 {
      var head := [Dialed(ResolveFail)] + (if n > 2 then [Slept] else []);
      FailureEventsQuiet(k - 1, n + 1);
      SendsAppend(head, FailureEvents(k - 1, n + 1));
      ReceivedAppend(head, FailureEvents(k - 1, n + 1));
      CountAppend(head, FailureEvents(k - 1, n + 1), Dialed(Accept));
      CountAppend(head, FailureEvents(k - 1, n + 1), Disconnected);
    }
  }

  /** `k` resolution failures before the loop ends cost `max(0, k - 3)` one-second sleeps. */
  lemma RetrySleeps(outcomes: seq<Attempt>, l: Link)
    ensures var k := LeadingFailures(outcomes, l.tried);
      Count(Dial(outcomes, l, 0).1.trace, Slept) == Count(l.trace, Slept) + Max0(k - 3)
  {
    var k := LeadingFailures(outcomes, l.tried);
    DialShape(outcomes, l, 0);
    FailureSleeps(k, 0);
    var fin := FinalAttempt(outcomes, l.tried + k);
    CountAppend(l.trace + FailureEvents(k, 0), fin, Slept);
    CountAppend(l.trace, FailureEvents(k, 0), Slept);
    assert Count(fin, Slept) == 0;
  }

  /**
   * The connect loop reads and writes nothing, closes nothing, and opens one
   * connection exactly when it reports Connected, as the last thing it does.
   */
  lemma DialQuiet(outcomes: seq<Attempt>, l: Link)
    ensures var r := Dial(outcomes, l, 0);
      && l.trace <= r.1.trace && r.1.pos == l.pos
      && var added := r.1.trace[|l.trace|..];
      && Sends(added) == [] && Received(added) == []
      && Count(added, Disconnected) == 0
      && Count(added, Dialed(Accept)) == (if r.0 == Connected then 1 else 0)
      && (r.0 == Connected ==> added[|added| - 1] == Dialed(Accept))
  {
    var k := LeadingFailures(outcomes, l.tried);
    DialShape(outcomes, l, 0);
    FailureEventsQuiet(k, 0);
    var fail := FailureEvents(k, 0);
    var fin := FinalAttempt(outcomes, l.tried + k);
    assert Dial(outcomes, l, 0).1.trace[|l.trace|..] == fail + fin;
    IoAppend(fail, fin);
  }

  /**
   * `async with open_connection(...)` around a body that opens and closes
   * nothing: the trace gains the connect loop's events, the body's, and one
   * close, last; only the body reads or writes.
   */
  lemma SessionEvents(outcomes: seq<Attempt>, l: Link, body: seq<Io>, t: seq<Io>)
    requires Dial(outcomes, l, 0).0 == Connected
    requires Count(body, Dialed(Accept)) == 0 && Count(body, Disconnected) == 0
    requires t == Dial(outcomes, l, 0).1.trace + body + [Disconnected]
    ensures l.trace <= t
    ensures var added := t[|l.trace|..];
      && Sends(added) == Sends(body) && Received(added) == Received(body)
      && Count(added, Dialed(Accept)) == 1 && Count(added, Disconnected) == 1
      && added[|added| - 1] == Disconnected
  {
    DialQuiet(outcomes, l);
    var l1 := Dial(outcomes, l, 0).1;
    var d := l1.trace[|l.trace|..];
    var tail := body + [Disconnected];
    Assoc3(l1.trace, body, [Disconnected]);
    TraceSuffix(l.trace, l1.trace, tail, t);
    TailViews(d, body);
  }

  /**
   * The stretch `t[i..e]` is a connect loop that made a connection: it
   * neither reads, writes nor closes, and it opens exactly one connection,
   * as its last event.
   */
  predicate DialStretch(t: seq<Io>, i: nat, e: nat) {
    && i < e <= |t|
    && var d := t[i..e];
    && Sends(d) == [] && Received(d) == [] && Count(d, Disconnected) == 0
    && Count(d, Dialed(Accept)) == 1 && d[|d| - 1] == Dialed(Accept)
  }

  /**
   * Where the connect loop sits in a trace that continues with `rest`: from
   * the old end of the trace up to the first event of `rest` it only dials
   * (and sleeps), opening the one connection as its last event.
   */
  lemma ConnectPhase(outcomes: seq<Attempt>, l: Link, rest: seq<Io>, t: seq<Io>)
    requires Dial(outcomes, l, 0).0 == Connected
    requires t == Dial(outcomes, l, 0).1.trace + rest
    ensures var e := |Dial(outcomes, l, 0).1.trace|;
      && DialStretch(t, |l.trace|, e) && t[..|l.trace|] == l.trace && t[e..] == rest
  {
    DialQuiet(outcomes, l);
    var d0 := Dial(outcomes, l, 0).1.trace;
    assert t[|l.trace|..|d0|] == d0[|l.trace|..];
  }

  /** The connect loop reads no line. */
  lemma {:induction false} DialPos(outcomes: seq<Attempt>, l: Link, n: nat)
    ensures Dial(outcomes, l, n).1.pos == l.pos
    decreases |outcomes| - l.tried
  {
    var (a, l1) := ConnectStep(outcomes, l);
    if a == Some(ResolveFail) {
      DialPos(outcomes, if n > 2 then SleepStep(l1) else l1, n + 1);
    }
  }

  /** What follows a prefix `a` of `b` in `b + c`. */
  lemma TraceSuffix(a: seq<Io>, b: seq<Io>, c: seq<Io>, t: seq<Io>)
    requires a <= b && t == b + c
    ensures a <= t && t[|a|..] == b[|a|..] + c
  {
  }

  /** The views of a connect loop's events `d`, a body, and the close. */
  lemma TailViews(d: seq<Io>, body: seq<Io>)
    ensures var all := d + (body + [Disconnected]);
      && Sends(all) == Sends(d) + Sends(body) && Received(all) == Received(d) + Received(body)
      && Count(all, Dialed(Accept)) == Count(d, Dialed(Accept)) + Count(body, Dialed(Accept))
      && Count(all, Disconnected) == Count(d, Disconnected) + Count(body, Disconnected) + 1
      && all[|all| - 1] == Disconnected
  {
    IoAppend(d, body + [Disconnected]);
    IoAppend(body, [Disconnected]);
    IoOne(Disconnected);
  }

  lemma Assoc3(a: seq<Io>, b: seq<Io>, c: seq<Io>)
    ensures a + b + c == a + (b + c)
  {
  }

  /** The connect loop of `open_connection`. */
  method OpenConnection(ep: Endpoint) returns (r: ConnectResult)
    modifies ep
    ensures (r, ep.State()) == Dial(ep.outcomes, old(ep.State()), 0)
  {
    var attempt: nat := 0;
    while true
      invariant Dial(ep.outcomes, ep.State(), attempt) == Dial(ep.outcomes, old(ep.State()), 0)
      decreases |ep.outcomes| - ep.tried
    {
      var a := ep.Connect();
      match a
      case None =>
        return Pending;
      case Some(Accept) =>
        return Connected;
      case Some(Refuse) =>
        return Failed;
      case Some(ResolveFail) =>
        if attempt > 2 {
          ep.Sleep();
        }
        attempt := attempt + 1;
    }
  }
}
