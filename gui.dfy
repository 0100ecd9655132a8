/**
 * The non-widget logic of gui.py: the status panel's three labels, the
 * conversation panel's text buffer, and the one-connection-per-message send
 * channel. The authorisation handshake and the read channel of gui.py are
 * the same as the shared ones in module Protocol.
 */
module Gui {
  import opened Wrappers
  import opened Json
  import opened Text
  import opened Statuses
  import opened Streams
  import opened Connection
  import opened Protocol

  // ---------------------------------------------------------------------------
  // Status panel
  // ---------------------------------------------------------------------------

  /** The texts of the nickname, read and write labels. */
  datatype Labels = Labels(nickname: string, read: string, write: string)

  /** Which of the three labels an event concerns. */
  datatype Slot = NicknameSlot | ReadSlot | WriteSlot

  function Get(lb: Labels, s: Slot): string {
    match s
    case NicknameSlot => lb.nickname
    case ReadSlot => lb.read
    case WriteSlot => lb.write
  }

  /** The texts the three labels are given before any event arrives. */
  function InitialLabels(): (lb: Labels)
    ensures Get(lb, NicknameSlot) == "Имя пользователя: неизвестно"
    ensures Get(lb, ReadSlot) == "Чтение: нет соединения"
    ensures Get(lb, WriteSlot) == "Отправка: нет соединения"
  {
    Labels("Имя пользователя: неизвестно", "Чтение: нет соединения", "Отправка: нет соединения")
  }

  function SlotOf(e: StatusEvent): Slot {
    match e
    case ReadState(_) => ReadSlot
    case SendState(_) => WriteSlot
    case NicknameReceived(_) => NicknameSlot
  }

  /** The text an event puts on its label; `show` is Python's `str()` of the nickname value. */
  function LabelText(e: StatusEvent, show: Json -> string): string {
    match e
    case ReadState(s) => "Чтение: " + s.Text()
    case SendState(s) => "Отправка: " + s.Text()
    case NicknameReceived(n) => "Имя пользователя: " + show(n)
  }

  /** One event: its own label gets the event's text, the other two are untouched. */
  function Apply(lb: Labels, e: StatusEvent, show: Json -> string): (r: Labels)
    ensures Get(r, SlotOf(e)) == LabelText(e, show)
    ensures forall s: Slot | s != SlotOf(e) :: Get(r, s) == Get(lb, s)
  {
    match e
    case ReadState(_) => lb.(read := LabelText(e, show))
    case SendState(_) => lb.(write := LabelText(e, show))
    case NicknameReceived(_) => lb.(nickname := LabelText(e, show))
  }

  /** The events `es`, handled in order. */
  function ApplyAll(lb: Labels, es: seq<StatusEvent>, show: Json -> string): Labels
    decreases |es|
  {
    if es == [] then lb else Apply(ApplyAll(lb, es[..|es| - 1], show), es[|es| - 1], show)
  }

  /** Handling one more event. */
  lemma ApplyAllSnoc(lb: Labels, es: seq<StatusEvent>, e: StatusEvent, show: Json -> string)
    ensures ApplyAll(lb, es + [e], show) == Apply(ApplyAll(lb, es, show), e, show)
  {
    assert (es + [e])[..|es|] == es;
  }

  /** Handling the events of `all` up to and including `all[i]`. */
  lemma ApplyAllStep(lb: Labels, all: seq<StatusEvent>, i: nat, show: Json -> string)
    requires i < |all|
    ensures ApplyAll(lb, all[..i + 1], show) == Apply(ApplyAll(lb, all[..i], show), all[i], show)
    ensures all[i..][1..] == all[i + 1..]
  {
    assert all[..i + 1] == all[..i] + [all[i]];
    ApplyAllSnoc(lb, all[..i], all[i], show);
  }

  /** The last event of `es` that concerns label `s`, if any. */
  function LastFor(es: seq<StatusEvent>, s: Slot): Option<StatusEvent>
    decreases |es|
  {
    if es == [] then None
    else if SlotOf(es[|es| - 1]) == s then Some(es[|es| - 1])
    else LastFor(es[..|es| - 1], s)
  }

  /**
   * After any sequence of events each label shows the text of the last
   * event that concerns it, or its earlier text when there was none.
   */
  lemma {:induction false} ApplyAllLast(lb: Labels, es: seq<StatusEvent>, show: Json -> string, s: Slot)
    ensures Get(ApplyAll(lb, es, show), s) == (match LastFor(es, s) case None => Get(lb, s) case Some(e) => LabelText(e, show))
    decreases |es|
  {
    if es != [] {
      ApplyAllLast(lb, es[..|es| - 1], show, s);
    }
  }

  /** The three labels of the status panel. */
  class StatusPanel {
    var nickname: string
    var read: string
    var write: string

    function Shown(): Labels
      reads this
    {
      Labels(nickname, read, write)
    }

    constructor (nickname: string, read: string, write: string)
      ensures Shown() == Labels(nickname, read, write)
    {
      this.nickname, this.read, this.write := nickname, read, write;
    }

    /**
     * `update_status_panel(status_labels, status_updates_queue)`: set the
     * initial texts, then handle every event on the queue in order; the
     * coroutine is cancelled when it waits on the empty queue.
     */
    method UpdateStatusPanel(q: Queue<StatusEvent>, show: Json -> string)
      modifies this, q
      ensures Shown() == ApplyAll(InitialLabels(), old(q.items), show)
      ensures q.items == []
    {
      Reset();
      ghost var all := q.items;
      ghost var i := 0;
      while q.items != []
        invariant i <= |all| && q.items == all[i..]
        invariant Shown() == ApplyAll(InitialLabels(), all[..i], show)
        decreases |q.items|
      {
        HandleNext(q, show, all, i);
        i := i + 1;
      }
      assert all[..i] == all;
    }

    /** One turn of the loop: the oldest queued event, `all[i]`, is taken and handled after the `i` events before it. */
    method HandleNext(q: Queue<StatusEvent>, show: Json -> string, ghost all: seq<StatusEvent>, ghost i: nat)
      requires i < |all| && q.items == all[i..]
      requires Shown() == ApplyAll(InitialLabels(), all[..i], show)
      modifies this, q
      ensures q.items == all[i + 1..]
      ensures Shown() == ApplyAll(InitialLabels(), all[..i + 1], show)
    {
      var msg := q.Get();
      Handle(msg, show);
      ApplyAllStep(InitialLabels(), all, i, show);
    }

    /** The three initial assignments of `update_status_panel`. */
    method Reset()
      modifies this
      ensures Shown() == InitialLabels()
    {
      read := "Чтение: нет соединения";
      write := "Отправка: нет соединения";
      nickname := "Имя пользователя: неизвестно";
    }

    /** The loop body of `update_status_panel`: the three `isinstance` tests. */
    method Handle(msg: StatusEvent, show: Json -> string)
      modifies this
      ensures Shown() == Apply(old(Shown()), msg, show)
    {
      if msg.ReadState? {
        read := "Чтение: " + msg.state.Text();
      }
      if msg.SendState? {
        write := "Отправка: " + msg.state.Text();
      }
      if msg.NicknameReceived? {
        nickname := "Имя пользователя: " + show(msg.nickname);
      }
    }
  }

  // ---------------------------------------------------------------------------
  // Conversation panel
  // ---------------------------------------------------------------------------

  /**
   * The buffer after `display_message`: the stripped message, preceded by a
   * newline unless the buffer was empty; what was there stays in front.
   */
  function Display(t: string, m: string): (r: string)
    ensures t <= r && |Strip(m)| <= |r| && r[|r| - |Strip(m)|..] == Strip(m)
    ensures t == [] ==> r == Strip(m)
    ensures t != [] ==> |r| == |t| + 1 + |Strip(m)| && r[|t|] == '\n'
  {
    if t != [] then t + "\n" + Strip(m) else Strip(m)
  }

  /** The messages `ms` displayed one after the other. */
  function Displayed(t: string, ms: seq<string>): string
    decreases |ms|
  {
    if ms == [] then t else Displayed(Display(t, ms[0]), ms[1..])
  }

  /** Each stripped message on a line of its own, in order. */
  function Joined(ms: seq<string>): string
    decreases |ms|
  {
    if ms == [] then [] else "\n" + Strip(ms[0]) + Joined(ms[1..])
  }

  /** On a non-empty buffer every message adds one line: the old text is followed by the stripped messages, newline-separated. */
  lemma {:induction false} DisplayedNonEmpty(t: string, ms: seq<string>)
    requires t != []
    ensures Displayed(t, ms) == t + Joined(ms)
    decreases |ms|
  {
    if ms != [] {
      var line := "\n" + Strip(ms[0]);
      var t1 := Display(t, ms[0]);
      assert t1 == t + line;
      DisplayedNonEmpty(t1, ms[1..]);
      assert Joined(ms) == line + Joined(ms[1..]);
      StringAssoc(t, line, Joined(ms[1..]));
    } else {
      assert t + [] == t;
    }
  }

  lemma StringAssoc(a: string, b: string, c: string)
    ensures a + b + c == a + (b + c)
  {
  }

  /** The chat text widget: its contents and whether it accepts edits (`state` normal or disabled). */
  class ConversationPanel {
    var text: string
    var editable: bool

    /** A new `ScrolledText` is empty and, having no `state` option, in Tk's default state `normal`. */
    constructor ()
      ensures text == [] && editable
    {
      text, editable := [], true;
    }

    /** `display_message(panel, message)`. */
    method DisplayMessage(message: string)
      modifies this
      ensures text == Display(old(text), message)
      ensures !editable
    {
      editable := true;
      if text != [] {
        text := text + "\n";
      }
      text := text + Strip(message);
      editable := false;
    }
  }

  // ---------------------------------------------------------------------------
  // send_messages: one connection per message
  // ---------------------------------------------------------------------------

  /** The exchange for one message: a line read, the two frames written, a line read. */
  function Exchange(lines: seq<string>, l: Link, m: string): Link {
    var (_, l1) := ReadStep(lines, l);
    var filtered := Sanitize(m);
    var l2 := WriteStep(WriteStep(l1, filtered + "\n"), "\n");
    ReadStep(lines, l2).1
  }

  /** How the channel ended, the endpoint state, and the messages still queued. */
  datatype GuiSendOutcome = GuiSendOutcome(exit: Exit, link: Link, rest: seq<string>)

  /**
   * `send_messages(host, port, sending_queue)` on a value: for each message
   * taken from the queue, connect, exchange, close; the cancellation arrives
   * at the empty queue. A connection that fails or never completes ends the
   * loop with that message already taken.
   */
  function GuiSendRun(outcomes: seq<Attempt>, lines: seq<string>, l: Link, ms: seq<string>): GuiSendOutcome
    decreases |ms|
  {
    if ms == [] then GuiSendOutcome(Cancelled, l, [])
    else
      var (c, l1) := Dial(outcomes, l, 0);
      match c
      case Pending => GuiSendOutcome(Stalled, l1, ms[1..])
      case Failed => GuiSendOutcome(Raised(ConnectionError), l1, ms[1..])
      case Connected => GuiSendRun(outcomes, lines, CloseStep(Exchange(lines, l1, ms[0])), ms[1..])
  }

  /** The events of one exchange. */
  function ExchangeEvents(lines: seq<string>, pos: nat, m: string): seq<Io> {
    [Recv(LineAt(lines, pos)), Send(Sanitize(m) + "\n"), Send("\n"), Recv(LineAt(lines, pos + 1))]
  }

  lemma ExchangeShape(lines: seq<string>, l: Link, m: string)
    ensures Exchange(lines, l, m) == Link(l.tried, l.pos + 2, l.trace + ExchangeEvents(lines, l.pos, m))
  {
    var g, resp := LineAt(lines, l.pos), LineAt(lines, l.pos + 1);
    var f := Sanitize(m) + "\n";
    assert Exchange(lines, l, m).trace == l.trace + [Recv(g)] + [Send(f)] + [Send("\n")] + [Recv(resp)];
  }

  /** An exchange writes the message's two frames, reads two lines, and opens or closes nothing. */
  lemma ExchangeIo(lines: seq<string>, pos: nat, m: string)
    ensures var t := ExchangeEvents(lines, pos, m);
      && Sends(t) == [Sanitize(m) + "\n", "\n"]
      && Received(t) == Incoming(lines, pos, 2)
      && Count(t, Dialed(Accept)) == 0 && Count(t, Disconnected) == 0
  {
    var g, resp := LineAt(lines, pos), LineAt(lines, pos + 1);
    var f := Sanitize(m) + "\n";
    Io4(Recv(g), Send(f), Send("\n"), Recv(resp));
    Io3(Recv(g), Send(f), Send("\n"));
    IoOne(Recv(g));
    IoOne(Send(f));
    IoOne(Send("\n"));
    IoOne(Recv(resp));
    assert Incoming(lines, pos, 2) == [g, resp];
  }

  /**
   * The accounting of what the channel did, relative to the state `l` it
   * started from and the messages `ms` it found queued: with `k` the number
   * of connections it closed, it made `k` connections, the writer received
   * exactly the frames of the first `k` messages, two lines were read per
   * message, and every connection opened was closed. On cancellation every
   * message was sent; otherwise the message after them was taken and the
   * rest are still queued. The order of these events is `GuiSendTrace`'s.
   */
  predicate SentShape(lines: seq<string>, l: Link, ms: seq<string>, r: GuiSendOutcome) {
    && l.trace <= r.link.trace
    && var added := r.link.trace[|l.trace|..];
    && var k := Count(added, Disconnected);
    && k <= |ms|
    && Count(added, Dialed(Accept)) == k
    && Sends(added) == Frames(ms[..k])
    && Received(added) == Incoming(lines, l.pos, 2 * k)
    && (r.exit == Cancelled ==> k == |ms| && r.rest == [])
    && (r.exit != Cancelled ==> k < |ms| && r.rest == ms[k + 1..])
  }

  lemma {:induction false} GuiSendIo(outcomes: seq<Attempt>, lines: seq<string>, l: Link, ms: seq<string>)
    ensures SentShape(lines, l, ms, GuiSendRun(outcomes, lines, l, ms))
    decreases |ms|
  {
    if ms == [] {
      assert l.trace[|l.trace|..] == [];
    } else {
      DialQuiet(outcomes, l);
      var (c, l1) := Dial(outcomes, l, 0);
      if c == Connected {
        var l2 := CloseStep(Exchange(lines, l1, ms[0]));
        ExchangeShape(lines, l1, ms[0]);
        ExchangeIo(lines, l1.pos, ms[0]);
        var body := ExchangeEvents(lines, l1.pos, ms[0]);
        SessionEvents(outcomes, l, body, l2.trace);
        GuiSendIo(outcomes, lines, l2, ms[1..]);
        GuiSendStep(lines, l, l2, ms, GuiSendRun(outcomes, lines, l2, ms[1..]));
      }
    }
  }

  /** The induction step of GuiSendIo: one exchange over one connection, then the rest. */
  lemma GuiSendStep(lines: seq<string>, l: Link, l2: Link, ms: seq<string>, r: GuiSendOutcome)
    requires ms != []
    requires l.trace <= l2.trace && l2.pos == l.pos + 2
    requires var first := l2.trace[|l.trace|..];
      && Sends(first) == [Sanitize(ms[0]) + "\n", "\n"] && Received(first) == Incoming(lines, l.pos, 2)
      && Count(first, Dialed(Accept)) == 1 && Count(first, Disconnected) == 1
    requires SentShape(lines, l2, ms[1..], r)
    ensures SentShape(lines, l, ms, r)
  {
    var first := l2.trace[|l.trace|..];
    var later := r.link.trace[|l2.trace|..];
    var k := Count(later, Disconnected);
    assert r.link.trace[|l.trace|..] == first + later by {
      assert l2.trace == l.trace + first;
      assert r.link.trace == l2.trace + later;
      Assoc3(l.trace, first, later);
    }
    IoAppend(first, later);
    assert Sends(first + later) == Frames(ms[..k + 1]) by {
      assert ms[..k + 1] == [ms[0]] + ms[1..][..k];
      assert ms[..k + 1][1..] == ms[1..][..k];
    }
    assert Received(first + later) == Incoming(lines, l.pos, 2 * (k + 1)) by {
      IncomingSplit(lines, l.pos, 2, 2 * k);
    }
    if r.exit != Cancelled {
      assert ms[1..][k + 1..] == ms[k + 2..];
    }
  }

  /** The connect loop, the exchange and the close of one message whose connection is made. */
  function Block(outcomes: seq<Attempt>, lines: seq<string>, tried: nat, pos: nat, m: string): seq<Io> {
    var k := LeadingFailures(outcomes, tried);
    FailureEvents(k, 0) + FinalAttempt(outcomes, tried + k) + ExchangeEvents(lines, pos, m) + [Disconnected]
  }

  /**
   * The events of the send channel for the messages `ms`, one block per
   * message, from attempt index `tried` and server line `pos` on. A block is
   * the connect loop for that message (its leading resolution failures with
   * their sleeps, then the attempt that ends it); when that attempt connects,
   * the block goes on with the message's exchange and the close of its
   * connection, and the next message starts a block of its own. When it does
   * not connect, the channel ends there.
   */
  function GuiSendEvents(outcomes: seq<Attempt>, lines: seq<string>, tried: nat, pos: nat, ms: seq<string>): seq<Io>
    decreases |ms|
  {
    if ms == [] then []
    else
      var k := LeadingFailures(outcomes, tried);
      var dial := FailureEvents(k, 0) + FinalAttempt(outcomes, tried + k);
      if tried + k < |outcomes| && outcomes[tried + k] == Accept then
        Block(outcomes, lines, tried, pos, ms[0]) + GuiSendEvents(outcomes, lines, tried + k + 1, pos + 2, ms[1..])
      else dial
  }

  /**
   * The exact trace of the send channel: message after message, a
   * connection of its own is made, one line is read, the two frames are
   * written, one line is read and the connection is closed, before the next
   * message's connection is attempted.
   */
  lemma {:induction false} GuiSendTrace(outcomes: seq<Attempt>, lines: seq<string>, l: Link, ms: seq<string>)
    ensures GuiSendRun(outcomes, lines, l, ms).link.trace == l.trace + GuiSendEvents(outcomes, lines, l.tried, l.pos, ms)
    decreases |ms|
  {
    if ms != [] {
      if Dial(outcomes, l, 0).0 == Connected {
        var k := LeadingFailures(outcomes, l.tried);
        var b := Block(outcomes, lines, l.tried, l.pos, ms[0]);
        var l2 := Link(l.tried + k + 1, l.pos + 2, l.trace + b);
        GuiSendRunStep(outcomes, lines, l, ms);
        GuiSendEventsStep(outcomes, lines, l, ms);
        GuiSendTrace(outcomes, lines, l2, ms[1..]);
        Assoc3(l.trace, b, GuiSendEvents(outcomes, lines, l2.tried, l2.pos, ms[1..]));
      } else {
        GuiSendMiss(outcomes, lines, l, ms);
      }
    }
  }

  /** A message whose connection is made: the channel goes on with the next message from where its block ends. */
  lemma GuiSendRunStep(outcomes: seq<Attempt>, lines: seq<string>, l: Link, ms: seq<string>)
    requires ms != [] && Dial(outcomes, l, 0).0 == Connected
    ensures var k := LeadingFailures(outcomes, l.tried);
      GuiSendRun(outcomes, lines, l, ms)
      == GuiSendRun(outcomes, lines, Link(l.tried + k + 1, l.pos + 2, l.trace + Block(outcomes, lines, l.tried, l.pos, ms[0])), ms[1..])
  {
    GuiSendBlock(outcomes, lines, l, ms[0]);
  }

  /** Where the channel stands after the block of a message whose connection is made. */
  lemma GuiSendBlock(outcomes: seq<Attempt>, lines: seq<string>, l: Link, m: string)
    requires Dial(outcomes, l, 0).0 == Connected
    ensures var k := LeadingFailures(outcomes, l.tried);
      CloseStep(Exchange(lines, Dial(outcomes, l, 0).1, m))
      == Link(l.tried + k + 1, l.pos + 2, l.trace + Block(outcomes, lines, l.tried, l.pos, m))
  {
    var l1 := Dial(outcomes, l, 0).1;
    DialShape(outcomes, l, 0);
    ExchangeShape(lines, l1, m);
  }

  /** The events of a message whose connection is made are its block, then the events of the messages after it. */
  lemma GuiSendEventsStep(outcomes: seq<Attempt>, lines: seq<string>, l: Link, ms: seq<string>)
    requires ms != [] && Dial(outcomes, l, 0).0 == Connected
    ensures var k := LeadingFailures(outcomes, l.tried);
      GuiSendEvents(outcomes, lines, l.tried, l.pos, ms)
      == Block(outcomes, lines, l.tried, l.pos, ms[0]) + GuiSendEvents(outcomes, lines, l.tried + k + 1, l.pos + 2, ms[1..])
  {
    DialShape(outcomes, l, 0);
  }

  /** A message whose connection is not made ends the channel with the connect loop's events. */
  lemma GuiSendMiss(outcomes: seq<Attempt>, lines: seq<string>, l: Link, ms: seq<string>)
    requires ms != [] && Dial(outcomes, l, 0).0 != Connected
    ensures GuiSendRun(outcomes, lines, l, ms).link.trace == l.trace + GuiSendEvents(outcomes, lines, l.tried, l.pos, ms)
  {
    DialShape(outcomes, l, 0);
  }

  /** The send channel of gui.py. */
  method SendMessages(ep: Endpoint, sending: Queue<string>) returns (exit: Exit)
    modifies ep, sending
    ensures var r := GuiSendRun(ep.outcomes, ep.lines, old(ep.State()), old(sending.items));
      exit == r.exit && ep.State() == r.link && sending.items == r.rest
  {
    while sending.items != []
      invariant GuiSendRun(ep.outcomes, ep.lines, ep.State(), sending.items)
                == GuiSendRun(ep.outcomes, ep.lines, old(ep.State()), old(sending.items))
      decreases |sending.items|
    {
      var message := sending.Get();
      var c := OpenConnection(ep);
      match c
      case Pending =>
        return Stalled;
      case Failed =>
        return Raised(ConnectionError);
      case Connected =>
        var response := ep.ReadLine();
        var filtered := Sanitize(message);
        ep.Write(filtered + "\n");
        ep.Write("\n");
        response := ep.ReadLine();
        ep.Close();
    }
    return Cancelled;
  }
}
