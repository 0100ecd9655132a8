/**
 * The network as the client sees it: one `Endpoint` per server port, and the
 * asyncio queues that connect the client's tasks.
 *
 * An endpoint holds a script of how successive connection attempts end
 * (`outcomes`), the lines the server sends over successive connections
 * (`lines`), and the ordered trace of everything the client does on it:
 * every connection attempt with its outcome, every sleep of the retry loop,
 * every line received, every string written and every close. The client-side
 * state of an endpoint is the value `Link(tried, pos, trace)`; each operation
 * is a pure step on that value, and the class methods perform the steps in
 * place.
 */
module Streams {
  import opened Wrappers

  /** How one `asyncio.open_connection` call ends. */
  datatype Attempt =
    | Accept       // the connection is made
    | ResolveFail  // socket.gaierror
    | Refuse       // any other exception (ConnectionRefusedError, OSError, ...)

  /** What the client does on an endpoint. */
  datatype Io =
    | Dialed(outcome: Attempt)  // one connection attempt and how it ended
    | Slept                     // one `asyncio.sleep(1)` of the retry loop
    | Recv(line: string)        // one `reader.readline()`
    | Send(data: string)        // one `writer.write(...)` and its `drain()`
    | Disconnected              // `writer.close()` and `wait_closed()`

  /** The client-side state of an endpoint. */
  datatype Link = Link(tried: nat, pos: nat, trace: seq<Io>)

  /** The line `readline()` returns at position `i`: `""` once the server has sent everything (end of stream). */
  function LineAt(lines: seq<string>, i: nat): string {
    if i < |lines| then lines[i] else ""
  }

  /**
   * One connection attempt. Attempts past the end of the script never
   * complete: the step returns None and changes nothing.
   */
  function ConnectStep(outcomes: seq<Attempt>, l: Link): (r: (Option<Attempt>, Link))
    ensures r.0.Some? <==> l.tried < |outcomes|
    ensures r.0.Some? ==> r.0.value == outcomes[l.tried] && r.1 == Link(l.tried + 1, l.pos, l.trace + [Dialed(outcomes[l.tried])])
    ensures r.0.None? ==> r.1 == l
  {
    if l.tried < |outcomes| then
      (Some(outcomes[l.tried]), Link(l.tried + 1, l.pos, l.trace + [Dialed(outcomes[l.tried])]))
    else (None, l)
  }

  function ReadStep(lines: seq<string>, l: Link): (string, Link) {
    (LineAt(lines, l.pos), Link(l.tried, l.pos + 1, l.trace + [Recv(LineAt(lines, l.pos))]))
  }

  function WriteStep(l: Link, data: string): Link {
    l.(trace := l.trace + [Send(data)])
  }

  function SleepStep(l: Link): Link {
    l.(trace := l.trace + [Slept])
  }

  function CloseStep(l: Link): Link {
    l.(trace := l.trace + [Disconnected])
  }

  /** How often `e` occurs in `t`. */
  function Count(t: seq<Io>, e: Io): nat
    decreases |t|
  {
    if t == [] then 0 else (if t[0] == e then 1 else 0) + Count(t[1..], e)
  }

  lemma {:induction false} CountAppend(a: seq<Io>, b: seq<Io>, e: Io)
    ensures Count(a + b, e) == Count(a, e) + Count(b, e)
    decreases |a|
  {
    if a == [] {
      assert a + b == b;
    } else {
      CountAppend(a[1..], b, e);
      assert (a + b)[1..] == a[1..] + b;
    }
  }

  /** The strings written, in order. */
  function Sends(t: seq<Io>): seq<string>
    decreases |t|
  {
    if t == [] then [] else (if t[0].Send? then [t[0].data] else []) + Sends(t[1..])
  }

  lemma {:induction false} SendsAppend(a: seq<Io>, b: seq<Io>)
    ensures Sends(a + b) == Sends(a) + Sends(b)
    decreases |a|
  {
    if a == [] {
      assert a + b == b;
    } else {
      SendsAppend(a[1..], b);
      assert (a + b)[1..] == a[1..] + b;
    }
  }

  /** The lines received, in order. */
  function Received(t: seq<Io>): seq<string>
    decreases |t|
  {
    if t == [] then [] else (if t[0].Recv? then [t[0].line] else []) + Received(t[1..])
  }

  lemma {:induction false} ReceivedAppend(a: seq<Io>, b: seq<Io>)
    ensures Received(a + b) == Received(a) + Received(b)
    decreases |a|
  {
    if a == [] {
      assert a + b == b;
    } else {
      ReceivedAppend(a[1..], b);
      assert (a + b)[1..] == a[1..] + b;
    }
  }

  /** The four views of a trace used throughout distribute over concatenation. */
  lemma IoAppend(a: seq<Io>, b: seq<Io>)
    ensures Sends(a + b) == Sends(a) + Sends(b)
    ensures Received(a + b) == Received(a) + Received(b)
    ensures Count(a + b, Dialed(Accept)) == Count(a, Dialed(Accept)) + Count(b, Dialed(Accept))
    ensures Count(a + b, Disconnected) == Count(a, Disconnected) + Count(b, Disconnected)
  {
    SendsAppend(a, b);
    ReceivedAppend(a, b);
    CountAppend(a, b, Dialed(Accept));
    CountAppend(a, b, Disconnected);
  }

  /** The views of a trace of one event. */
  lemma IoOne(e: Io)
    ensures Sends([e]) == (if e.Send? then [e.data] else [])
    ensures Received([e]) == (if e.Recv? then [e.line] else [])
    ensures Count([e], Dialed(Accept)) == (if e == Dialed(Accept) then 1 else 0)
    ensures Count([e], Disconnected) == (if e == Disconnected then 1 else 0)
  {
    assert [e][1..] == [];
  }

  /** The views of a trace of three events. */
  lemma Io3(a: Io, b: Io, c: Io)
    ensures var t := [a, b, c];
      && Sends(t) == Sends([a]) + Sends([b]) + Sends([c])
      && Received(t) == Received([a]) + Received([b]) + Received([c])
      && Count(t, Dialed(Accept)) == Count([a], Dialed(Accept)) + Count([b], Dialed(Accept)) + Count([c], Dialed(Accept))
      && Count(t, Disconnected) == Count([a], Disconnected) + Count([b], Disconnected) + Count([c], Disconnected)
  {
    assert [a, b, c] == [a] + [b] + [c];
    IoAppend([a], [b]);
    IoAppend([a] + [b], [c]);
    IoOne(a);
    IoOne(b);
    IoOne(c);
  }

  /** The views of a trace of four events. */
  lemma Io4(a: Io, b: Io, c: Io, e: Io)
    ensures var t := [a, b, c, e];
      && Sends(t) == Sends([a, b, c]) + Sends([e])
      && Received(t) == Received([a, b, c]) + Received([e])
      && Count(t, Dialed(Accept)) == Count([a, b, c], Dialed(Accept)) + Count([e], Dialed(Accept))
      && Count(t, Disconnected) == Count([a, b, c], Disconnected) + Count([e], Disconnected)
  {
    assert [a, b, c, e] == [a, b, c] + [e];
    IoAppend([a, b, c], [e]);
  }

  /** One server port, seen from the client: a socket's reader and writer together. */
  class Endpoint {
    const outcomes: seq<Attempt>
    const lines: seq<string>
    var tried: nat
    var pos: nat
    var trace: seq<Io>

    function State(): Link
      reads this
    {
      Link(tried, pos, trace)
    }

    constructor (outcomes: seq<Attempt>, lines: seq<string>)
      ensures this.outcomes == outcomes && this.lines == lines
      ensures State() == Link(0, 0, [])
    {
      this.outcomes := outcomes;
      this.lines := lines;
      tried, pos, trace := 0, 0, [];
    }

    /** `asyncio.open_connection(host, port)`: one attempt. */
    method Connect() returns (a: Option<Attempt>)
      modifies this
      ensures (a, State()) == ConnectStep(outcomes, old(State()))
    {
      if tried < |outcomes| {
        a := Some(outcomes[tried]);
        trace := trace + [Dialed(outcomes[tried])];
        tried := tried + 1;
      } else {
        a := None;
      }
    }

    /** `reader.readline()`. */
    method ReadLine() returns (line: string)
      modifies this
      ensures (line, State()) == ReadStep(lines, old(State()))
    {
      line := LineAt(lines, pos);
      trace := trace + [Recv(line)];
      pos := pos + 1;
    }

    /** `writer.write(data)` followed by `await writer.drain()`. */
    method Write(data: string)
      modifies this
      ensures State() == WriteStep(old(State()), data)
    {
      trace := trace + [Send(data)];
    }

    /** `await asyncio.sleep(1)`. */
    method Sleep()
      modifies this
      ensures State() == SleepStep(old(State()))
    {
      trace := trace + [Slept];
    }

    /** `writer.close()` followed by `await writer.wait_closed()`. */
    method Close()
      modifies this
      ensures State() == CloseStep(old(State()))
    {
      trace := trace + [Disconnected];
    }
  }

  /** An unbounded `asyncio.Queue`: `put_nowait` appends, `get` takes the oldest item. */
  class Queue<T> {
    var items: seq<T>

    constructor ()
      ensures items == []
    {
      items := [];
    }

    method Put(x: T)
      modifies this
      ensures items == old(items) + [x]
    {
      items := items + [x];
    }

    /** `get()` on a queue that has an item; on an empty queue `get()` waits, and the callers stop there. */
    method Get() returns (x: T)
      requires items != []
      modifies this
      ensures x == old(items)[0] && items == old(items)[1..]
    {
      x := items[0];
      items := items[1..];
    }
  }
}
