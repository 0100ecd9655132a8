# Underground chat client: a Dafny model of its protocol and text core

The client is an asyncio/Tk program that talks to a line-oriented chat
server over two ports. It comes in two variants, gui.py and
process_messages.py. Each variant has a read channel, which fans every
incoming line out to a display queue and a history queue, and a write
channel, which authorises with a token and sends the messages the user
types. The read and write channels report their state to a status panel of
three labels, and incoming messages are appended to a conversation text
buffer. A registration client (registration.py) sends a nickname and
queues the account hash the server answers with. Every connection of
gui.py and process_messages.py goes through `open_connection`
(open_connection.py). It retries on name-resolution failure, sleeping after
the fourth failed attempt and every later one, and it closes the writer when
the body ends. registration.py instead calls `asyncio.open_connection`
directly, once per request, with no retry, and never closes the writer.

How the model is built:

- **Network.** The network is one `Streams.Endpoint` per server port. It
  holds a script of how successive connection attempts end, and the lines
  the server sends. It records the ordered trace of the client's actions on
  it: attempts, sleeps, lines received, strings written and closes. Each
  socket operation is a pure step on the value `Link(tried, pos, trace)`,
  and the endpoint's methods perform these steps in place.
- **Queues.** `asyncio.Queue` is `Streams.Queue`, a FIFO `seq`: `put_nowait`
  appends, and `get` removes the oldest item.
- **Method specifications.** Each coroutine is a method. Its `ensures`
  ties its new state to a specification function of the old state, such as
  `SendRun`, `ReadSession`, `GuiSendRun` or `RegisterRun`. Lemmas about
  those functions state what the source promises: the exact bytes written,
  the lines consumed, the order of status events, and, for gui.py and
  process_messages.py, that every connection opened is closed.
- **Statuses.** Only the channels of process_messages.py report their
  state. The read and send channels of gui.py put no statuses. The status
  classes of process_messages.py come from a `statuses` module, which is not
  part of this model. gui.py defines classes of the same names and values
  (gui.py:18-39), and its `update_status_panel` tests against those. The
  model treats both sets of classes as the one type `Statuses.StatusEvent`.
  Each status of process_messages.py is put through
  `ProcessMessages.PutStatus`, which stamps it with the current length of
  the endpoint trace.
- **Cancellation.** Cancellation is an explicit terminal event. A write
  loop (and the registration loop) is cancelled when it waits on an empty
  queue. The read loop is cancelled after a given number `n` of lines.
- **Foreign calls.** JSON decoding is a parameter
  `parse: string -> Option<Json>`, where None stands for JSONDecodeError.
  Two Python behaviours on the decoded value are modelled in `Json`:
  truthiness, and `obj[key]` raising KeyError or TypeError. Python's
  `str()` and `repr()` are the parameters `show` and `repr`.

The nickname filter at registration.py:53 is written
`re.sub(r'(\\+n|\n|\\+)', '', user_name)`. This is a raw string, so the
regular expression is `\\+n | newline | \\+`, that is:

1. a run of one or more backslashes followed by `n`;
2. a newline;
3. a run of one or more backslashes.

`Text.NickFilter` removes exactly these: every backslash, every newline,
and an `n` that follows a backslash run. `+` characters are quantifiers
here, not text, and a `+` in a nickname is kept.

## Model

| member | source | states |
|---|---|---|
| Text.Sanitize | gui.py:101 | The output of removing the "\n\n" pairs has no two adjacent newlines. It is an even number of characters shorter than the input and keeps a first character that is not a newline. |
| Text.SanitizeIdentity | process_messages.py:100 | A message with no "\n\n" is sent unchanged. |
| Text.SanitizeIdempotent | gui.py:101 | Sanitising an already sanitised message changes nothing. |
| Text.SanitizeKeepsText | gui.py:101 | Only newlines are removed: every other character survives, in order. |
| Text.BackslashRun | registration.py:53 | The greedy `\\+` match: the length of the longest run of backslashes at the start. |
| Text.NickFilter | registration.py:53 | The filtered nickname holds no newline and no backslash and is no longer than the name. |
| Text.UnescapeRun | registration.py:53 | Scanning over a whole backslash run leaves the scan right after a backslash. |
| Text.NickFilterIsUnescape | registration.py:53 | The regex substitution equals a one-character-at-a-time filter that drops backslashes, newlines, and an `n` right after a backslash. |
| Text.NickFilterIdentity | registration.py:53 | A name without backslashes and newlines passes unchanged; every other character, `+` included, is preserved. |
| Text.EscapedNewlineRemoved | registration.py:53 | A backslash run followed by `n` is removed as a unit, the `n` included, because that alternative is tried first. |
| Text.StripStart | gui.py:51 | The first index at or after i that is not whitespace: everything skipped is whitespace. |
| Text.StripEnd | gui.py:51 | The end of a slice once its trailing whitespace is dropped: everything dropped is whitespace, and what is left does not end in whitespace. |
| Text.Strip | gui.py:51 | `message.strip()` is a contiguous slice of the message with only whitespace before and after it. It neither starts nor ends with whitespace. Whitespace is the set of 29 characters for which Python's `str.isspace()` holds. |
| Text.StripIdentity | gui.py:51 | A message without surrounding whitespace is its own strip. |
| Json.Subscript | process_messages.py:92 | `user_features["nickname"]` succeeds exactly on an object with that key and yields its value; it raises KeyError on other objects and TypeError on non-objects. |
| Json.Truthy | process_messages.py:84 | Python truthiness of the decoded handshake result, as `if not user_features` tests it: null, false, 0, "", [] and {} are falsy. See `ProcessMessages.SendRejected` and `ProcessMessages.SendAccepted`. |
| Statuses.ConnState.Text | gui.py:18-33 | `str()` of a connection-state member: its value, the Russian text of INITIATED, ESTABLISHED or CLOSED. See `Gui.Apply` and `Gui.ApplyAllLast`. |
| Streams.ConnectStep | open_connection.py:14 | One `asyncio.open_connection` attempt takes the next scripted outcome and records it; beyond the script it never completes and changes nothing. |
| Streams.LineAt | gui.py:113 | The line `readline()` returns at position i of the server's output: the scripted line, or "" (end of stream) past the script. Used by `ReadStep`; see `Protocol.IncomingLines`. |
| Streams.ReadStep | gui.py:113 | One `readline()` as a step on the value: it returns `LineAt` of the position, moves one line on and records `Recv` of that line. Performed in place by `Endpoint.ReadLine`; see `Protocol.ReadLoopShape`. |
| Streams.WriteStep | gui.py:102-103 | One `write` with its `drain` as a step: it records `Send(data)` and changes nothing else. Performed in place by `Endpoint.Write`; see `ProcessMessages.LoopEventsSends`. |
| Streams.SleepStep | open_connection.py:19 | One `asyncio.sleep(1)` of the retry loop as a step: it records `Slept`. Performed by `Endpoint.Sleep`; see `Connection.RetrySleeps`. |
| Streams.CloseStep | open_connection.py:24-25 | `writer.close()` with `wait_closed()` as a step: it records `Disconnected`. Performed by `Endpoint.Close`; see `Connection.SessionEvents`. |
| Streams.Endpoint.Connect | open_connection.py:14 | The in-place connection attempt performs `ConnectStep`. |
| Streams.Endpoint.ReadLine | gui.py:113 | `reader.readline()` returns the next server line ("" at end of stream), advances the cursor and records the line. |
| Streams.Endpoint.Write | gui.py:102-103 | `writer.write` plus `drain` records exactly the data written. |
| Streams.Endpoint.Sleep | open_connection.py:19 | `asyncio.sleep(1)` records one sleep and nothing else. |
| Streams.Endpoint.Close | open_connection.py:24-25 | `writer.close()` plus `wait_closed()` records one close. |
| Streams.Queue.Put | gui.py:115 | `put_nowait` appends the item at the end. |
| Streams.Queue.Get | gui.py:96 | `get` on a non-empty queue returns the oldest item and removes only it. |
| Connection.Dial | open_connection.py:12-19 | The `for attempt_number in count()` loop on a value: attempt after attempt, a resolution failure logs and (from the fourth on) sleeps, a connection ends the loop and any other error propagates. See `DialShape`, `RetrySleeps` and `DialQuiet`. |
| Connection.LeadingFailures | open_connection.py:16-19 | The number of consecutive resolution failures from an attempt on; the outcome after them is not a resolution failure. |
| Connection.DialShape | open_connection.py:12-19 | The retry loop skips exactly the leading resolution failures. It connects iff the next outcome is a successful connect and fails on any other exception. The trace gains the failures, their sleeps and the final attempt. |
| Connection.DialPos | open_connection.py:12-19 | The connect loop reads no server line: the position in the server's output is unchanged. |
| Connection.FailureSleeps | open_connection.py:18-19 | Failed attempts numbered n to n+k-1 sleep once for each number above 2. |
| Connection.RetrySleeps | open_connection.py:12-19 | k resolution failures cost exactly max(0, k - 3) one-second sleeps. |
| Connection.FailureEventsQuiet | open_connection.py:16-19 | Failed attempts send nothing, receive nothing, and neither open nor close a connection. |
| Connection.DialQuiet | open_connection.py:12-15 | The connect loop neither reads, writes nor closes, and it opens at most one connection. It opens one exactly when it reports success, as its last event, so the body gets that attempt's reader and writer. |
| Connection.ConnectPhase | open_connection.py:12-22 | In a trace that goes on with the body, the connect loop occupies the stretch from the old end of the trace to the body's first event. It neither reads, writes nor closes there, and it opens the one connection as the stretch's last event. |
| Connection.SessionEvents | open_connection.py:20-25 | `async with open_connection` around a body: the connection is opened once and closed exactly once, after the body, as the last event; only the body reads or writes. |
| Connection.OpenConnection | open_connection.py:11-19 | The `for attempt_number in count()` loop performs `Dial` from attempt 0. |
| Protocol.AuthorizeRun | gui.py:130-146 | `authorize` reads the greeting, writes exactly `token + "\n"`, reads the response (two lines in all, the greeting before any write) and returns the decoded response, None when it is not JSON. The process_messages.py:20-36 copy is identical. |
| Protocol.Authorize | process_messages.py:20-36 | The coroutine performs `AuthorizeRun`. |
| Protocol.Incoming | gui.py:113 | `n` successive `readline()` calls return `n` lines. |
| Protocol.IncomingLines | gui.py:113 | Line i of them is the server's line at pos + i ("" past the end of stream); they form the slice of the server's lines when it sent enough. |
| Protocol.IncomingSplit | gui.py:112-113 | Reading a lines and then b lines reads the next a + b lines. |
| Protocol.ReadLoop | gui.py:112-116 | n turns of the `while True` read loop on a value, each one `readline()`. See `ReadLoopShape`. |
| Protocol.ReadLoopShape | gui.py:112-114 | n turns of the read loop receive exactly the next n lines and do nothing else. |
| Protocol.Deliver | gui.py:113-116 | One turn of the read loop reads the next line and appends it to both queues. |
| Protocol.FanOut | gui.py:112-116 | Every line read goes, in arrival order, to both the message queue and the history queue, so both receive the same sequence. |
| Protocol.ReceivedRecvEvents | gui.py:113-116 | The received lines of the read loop's trace are exactly the lines delivered. |
| Protocol.RecvEventsQuiet | gui.py:112-116 | The read loop writes nothing and neither opens nor closes a connection. |
| Protocol.ReadSession | gui.py:110-116 | `read_msgs` on a value: the connect loop, then, once connected, n reads delivered to both queues and the close at cancellation; a connection that does not come up propagates its error or stalls. See `ReadSessionShape`. |
| Protocol.ReadSessionShape | gui.py:110-116 | A read channel that connects receives exactly the lines it delivers, in order, writes nothing, and closes its one connection last. One that does not connect delivers nothing and closes nothing. |
| Protocol.ReadSessionOn | gui.py:110-116 | `read_msgs` of gui.py performs `ReadSession`, putting the delivered lines on both queues. |
| Protocol.Frames | gui.py:102-105 | Each message is framed as two writes, `filter(m) + "\n"` then `"\n"`. |
| Protocol.FramesAt | process_messages.py:103-106 | Message i's frames are written at positions 2i and 2i+1. |
| Protocol.SanitizeAll | gui.py:101 | The messages, each sanitised, in order. |
| Protocol.DeframeFrames | gui.py:101-105 | Over the list of write calls, taking the first chunk of each pair without its newline gives back exactly the sanitised messages, in order. This is a round trip over the chunks, not over the lines the server splits the byte stream into. |
| ProcessMessages.SendOne | process_messages.py:98-106 | One turn of the send loop on a value: read one line, write the sanitised message with its newline, then write a bare newline. See `LoopEventsUnfold` and `SendLoopShape`. |
| ProcessMessages.SendLoop | process_messages.py:96-106 | The send loop over the queued messages, one `SendOne` per message, in order. See `SendLoopShape`. |
| ProcessMessages.LoopEvents | process_messages.py:97-106 | The steady-state loop leaves three events per message. |
| ProcessMessages.SendLoopShape | process_messages.py:97-106 | The loop over the queued messages consumes one line per message and leaves exactly `LoopEvents` in the trace. |
| ProcessMessages.LoopEventsAt | process_messages.py:101-106 | For message i: one server line is consumed, then `filter(m) + "\n"` is written, then `"\n"`, in that order. |
| ProcessMessages.LoopEventsIo | process_messages.py:97-106 | Over the whole loop the writer receives exactly the frames of the messages, one line is read per message, and no connection is opened or closed. |
| ProcessMessages.LoopEventsUnfold | process_messages.py:101-106 | A message's turn adds a received line, then its two frames, and opens or closes nothing. |
| ProcessMessages.LoopEventsSends | process_messages.py:103-106 | Over the loop the writer receives exactly the frames of the messages, in order. |
| ProcessMessages.LoopEventsReads | process_messages.py:101 | Over the loop one server line is read per message, in order, and no connection is opened or closed. |
| ProcessMessages.Relay | process_messages.py:96-106 | The steady-state loop performs `SendLoop` over all queued messages and empties the sending queue. |
| ProcessMessages.AuthEventsIo | process_messages.py:20-26 | The handshake writes `token + "\n"` only and reads the greeting and the response. |
| ProcessMessages.SendRun | process_messages.py:78-110 | `send_messages` on a value: INITIATED stamped at the old end of the trace, the connect loop, then the body once connected. A connection that does not come up propagates its error or stalls. See `SendNotConnected`, `SendRejected`, `SendAccepted` and the two order lemmas. |
| ProcessMessages.SendBody | process_messages.py:79-110 | The body of the `async with` on a value: ESTABLISHED, the handshake, then InvalidToken or the subscription's error, or else NicknameReceived, the loop and CLOSED; the close ends every path; each status carries its stamp. See `BodyIo` and `BodyMarks`. |
| ProcessMessages.SendNotConnected | process_messages.py:78-79 | When the connection does not come up, only INITIATED is reported, put before the first connection attempt. The exit is the propagated exception (or a stall), and nothing is sent, received, opened or closed. |
| ProcessMessages.SendRejected | process_messages.py:84-92 | A falsy handshake result raises InvalidToken, and a result without a nickname raises the subscription's exception. In both cases the statuses are INITIATED then ESTABLISHED, with no NicknameReceived and no CLOSED. |
| ProcessMessages.SendRejectedOrder | process_messages.py:78-91 | On that path INITIATED is put before the first connection attempt. ESTABLISHED is put once the one connection is made and before `authorize` reads the greeting. The handshake and then the close follow it, and nothing else. |
| ProcessMessages.RejectedPhases | process_messages.py:78-91 | The rejected run's trace is the old trace, the connect loop's stretch, the handshake and the close, and the two marks fall at the start and at the end of the connect loop. |
| ProcessMessages.SendRejectedIo | process_messages.py:79-91 | On that path nothing is written beyond the token line, two lines are read, and the connection is opened once and closed once, last. |
| ProcessMessages.BodyIo | process_messages.py:83-106 | Handshake plus loop: the writer gets the token line and then exactly the messages' frames; two lines and then one per message are read. |
| ProcessMessages.SendAccepted | process_messages.py:78-110 | A truthy result with a nickname gives exactly the statuses INITIATED, ESTABLISHED, NicknameReceived(that nickname), CLOSED, in that order, and the cancellation is re-raised. |
| ProcessMessages.SendAcceptedOrder | process_messages.py:78-110 | On that path each status is placed among the connection's events. INITIATED comes before the first connection attempt. ESTABLISHED comes once the connection is made and before `authorize` reads the greeting. NicknameReceived comes after the handshake's response and before the first message's turn. Every message's turn lies between it and CLOSED, and CLOSED comes before the close. |
| ProcessMessages.SendAcceptedNicknameFirst | process_messages.py:78-106 | When NicknameReceived is put, the token line is the only thing written since INITIATED. The frames of every message are written after it and before CLOSED. |
| ProcessMessages.AcceptedPhases | process_messages.py:78-110 | The accepted run's trace is the old trace, the connect loop's stretch, the three handshake events, the loop's turns and the close, and the four marks fall at those boundaries. |
| ProcessMessages.AcceptedParts | process_messages.py:79-110 | The accepted run's trace is the connect loop, the handshake, the loop's turns and the close. The statuses are put at the start, at the end of the connect loop, three events later and after the last turn. |
| ProcessMessages.BodyMarks | process_messages.py:80-109 | Within the body, ESTABLISHED is put when the connection is made, NicknameReceived after the handshake's three events and CLOSED after three events per message. |
| ProcessMessages.SendAcceptedIo | process_messages.py:79-110 | On that path the writer receives the token line and then exactly the frames of every queued message, one server line being consumed per message, and the connection is closed once, last. |
| ProcessMessages.SendMessages | process_messages.py:71-110 | `send_messages` performs `SendRun`: the endpoint, the status queue and the consumed sending queue all match it, and each status is put when the endpoint trace has the length `SendRun` gives for it. |
| ProcessMessages.PutStatus | process_messages.py:78 | `put_nowait` on the status queue appends the status, and its stamp, the current length of the endpoint trace, joins the marks. |
| ProcessMessages.SendSession | process_messages.py:79-110 | The body of the `async with` performs `SendBody`: ESTABLISHED, the handshake, then either the close or NicknameReceived, the relay loop, CLOSED and the close, each status put at the trace length `SendBody` gives for it. |
| ProcessMessages.SendNamed | process_messages.py:94-110 | Once the nickname is known: NicknameReceived stamped at the end of the handshake, the relay loop over every queued message, CLOSED stamped after the loop, then the close; the sending queue is drained. |
| ProcessMessages.ReadStatuses | process_messages.py:120-132 | `read_msgs` reports INITIATED first. ESTABLISHED and then CLOSED follow exactly when it connected and was cancelled; otherwise INITIATED is all. |
| ProcessMessages.ReadOrder | process_messages.py:120-132 | INITIATED is put before the first connection attempt. Once connected, ESTABLISHED is put when the connection is made and before the first line is read; every line is read between ESTABLISHED and CLOSED; and CLOSED is put before the connection is closed. |
| ProcessMessages.ReadMarks | process_messages.py:120-131 | The stamps of the read channel's statuses: INITIATED at the old end of the trace and, once connected, ESTABLISHED at the end of the connect loop and CLOSED after the n reads. See `ReadOrder`. |
| ProcessMessages.ReadPhases | process_messages.py:120-132 | A read session that connected is the old trace, the connect loop's stretch, one receive per line and the close; its marks fall at the start, at the end of the connect loop and after the last line. |
| ProcessMessages.ReadMsgs | process_messages.py:113-132 | `read_msgs` performs `ReadSession`, with every line read on both queues and the statuses `ReadStatuses` of its exit, each put when the endpoint trace has the length `ReadMarks` gives for it. |
| ProcessMessages.ReadConnected | process_messages.py:122-132 | Once connected: ESTABLISHED stamped at the connection, the n lines read and put on both queues in order, CLOSED stamped n events later, then the close. |
| Gui.LabelText | gui.py:84-91 | The text an event puts on its label: `Чтение: ` or `Отправка: ` with the state's text, or `Имя пользователя: ` with the nickname. See `Apply`. |
| Gui.InitialLabels | gui.py:78-80 | The three labels start at "Имя пользователя: неизвестно", "Чтение: нет соединения" and "Отправка: нет соединения". |
| Gui.Apply | gui.py:84-91 | A read-state event rewrites only the read label, a sending-state event only the write label, a NicknameReceived only the nickname label, each with its prefix and text. |
| Gui.ApplyAll | gui.py:82-91 | The labels after the queued events are handled in order, one `Apply` each. See `ApplyAllSnoc`, `ApplyAllStep` and `ApplyAllLast`. |
| Gui.ApplyAllSnoc | gui.py:82-91 | Handling one more event applies it to the labels left by the earlier events. |
| Gui.ApplyAllStep | gui.py:82-91 | Handling the events up to and including the i-th applies the i-th to the labels left by those before it. |
| Gui.ApplyAllLast | gui.py:82-91 | After any event sequence each label shows the text of the last event concerning it, or its earlier text if there was none. |
| Gui.StatusPanel.constructor | gui.py:76 | The panel holds the three given label texts. |
| Gui.StatusPanel.Reset | gui.py:78-80 | The three initial assignments give `InitialLabels`. |
| Gui.StatusPanel.Handle | gui.py:83-91 | The three `isinstance` tests apply exactly one event. |
| Gui.StatusPanel.UpdateStatusPanel | gui.py:75-91 | `update_status_panel` leaves the labels at the initial texts with every queued event applied in order, and consumes the queue. |
| Gui.StatusPanel.HandleNext | gui.py:83-91 | One turn of the loop takes the oldest queued event and applies it to the labels left by the events handled before it. |
| Gui.Display | gui.py:47-51 | An empty buffer becomes `strip(m)`; a non-empty one becomes `old + "\n" + strip(m)`, the old text staying in front. |
| Gui.DisplayedNonEmpty | gui.py:47-51 | Displaying messages on a non-empty buffer appends each stripped message on a line of its own, in order. |
| Gui.ConversationPanel.constructor | gui.py:221 | A new panel is empty and editable: the widget is created without a `state` option, so it is in Tk's default state `normal`. |
| Gui.ConversationPanel.DisplayMessage | gui.py:47-56 | `display_message` sets the buffer to `Display(old, message)` and leaves the widget disabled. |
| Gui.Exchange | gui.py:99-107 | One message's exchange on a value: read one line, write the sanitised message with its newline, write a bare newline and read one line. See `ExchangeShape` and `ExchangeIo`. |
| Gui.ExchangeShape | gui.py:99-106 | One message's exchange consumes two lines and leaves exactly its four events. |
| Gui.ExchangeIo | gui.py:99-106 | Per message, one server line is consumed before the writes and one after, and the writer receives exactly `filter(m) + "\n"` then `"\n"`; nothing is opened or closed. |
| Gui.GuiSendRun | gui.py:94-107 | gui.py's `send_messages` on a value: per queued message the connect loop, then the exchange and the close; a connection that does not come up propagates its error or stalls. See `GuiSendIo` and `GuiSendTrace`. |
| Gui.GuiSendStep | gui.py:95-107 | One message's connection, followed by the rest, keeps the accounting of `SentShape`. |
| Gui.GuiSendIo | gui.py:94-107 | With k the number of connections closed: k connections were made, the writer received exactly the frames of the first k messages and two lines were read per message. On cancellation every queued message was sent; otherwise the next message was taken and the rest are still queued. |
| Gui.GuiSendTrace | gui.py:94-107 | The exact trace, message after message: a connection of its own is made (after the failed attempts and sleeps of the retry loop), one line is read, the two frames are written, one line is read and the connection is closed, all before the next message's connection is attempted. A connection that does not come up ends the trace. |
| Gui.GuiSendRunStep | gui.py:95-98 | A message whose connection is made: the channel goes on with the next message from the attempt, line position and trace its block ends at. |
| Gui.GuiSendBlock | gui.py:98-107 | The block of a message whose connection is made moves to the next attempt and two lines further, and adds the connect loop, the exchange and the close to the trace. |
| Gui.GuiSendEventsStep | gui.py:95-107 | For a message whose connection is made, the channel's events are that message's block followed by the events of the messages after it. |
| Gui.GuiSendMiss | gui.py:96-98 | A message whose connection is not made ends the channel's trace with the connect loop's events. |
| Gui.SendMessages | gui.py:94-107 | `send_messages` of gui.py performs `GuiSendRun`. |
| Registration.RegistrationForm.constructor | registration.py:84-86 | The form holds the three entry texts. |
| Registration.RegistrationForm.ProcessButtonClick | registration.py:15-26 | The click enqueues `(host, port, username)` and clears the username entry only; host and port are unchanged. |
| Registration.Connecting | registration.py:33 | The log line written before connecting, with `host:port`. See `RegisterUnresolved`. |
| Registration.Unreachable | registration.py:39 | The log line written when the name cannot be resolved: the no-connection text and `host:port`. See `RegisterUnresolved`. |
| Registration.NoConnection | registration.py:42 | The text queued for the hash label when the server cannot be reached. See `RegisterUnresolved`. |
| Registration.RegisterOne | registration.py:31-68 | One turn of the `register` loop on a value: the connecting log line, one connection attempt, then the resolution-failure path, a propagated error, or the handshake. See `RegisterUnresolved`, `RegisterConnected` and `RegisterOneGrows`. |
| Registration.SignUp | registration.py:45-68 | The handshake on a connection that came up, on a value: greeting, newline, prompt, filtered nickname, answer; the answer's repr is logged and its `account_hash` (None on KeyError) queued. See `RegisterConnected` and `HandshakeIo`. |
| Registration.RegisterUnresolved | registration.py:36-43 | On `socket.gaierror`, exactly one item, the text "ОШИБКА. Нет соединения с сервером", goes to the hash queue. The log gets the connecting line and then the error line, both with `host:port`; nothing is read or written, and the loop goes on. |
| Registration.RegisterConnected | registration.py:45-68 | On a connection the handshake reads three lines and writes `"\n"` and then `filtered_nick + "\n"`. The log gets the connecting line and then the response's repr. An object answer queues its `account_hash`, or None when the key is missing. A non-JSON answer raises JSONDecodeError after the repr is logged, a non-object answer raises TypeError, and neither queues a hash. |
| Registration.HandshakeIo | registration.py:45-59 | The handshake's writes are exactly `"\n"` then the filtered nickname with a newline; it reads the next three lines and closes nothing. |
| Registration.RegisterOneGrows | registration.py:31-68 | A request only appends to the trace, the logs and the hashes. It closes no connection, and a handled request adds exactly one hash item and two log lines. |
| Registration.RegisterRun | registration.py:29-68 | The `register` loop over the queued requests on a value, one `RegisterOne` each, until one ends it or the queue is empty. See `RegisterRunAppends` and `RegisterRunCounts`. |
| Registration.RegisterRunAppends | registration.py:29-68 | Over any number of requests the loop only appends and never closes a connection. |
| Registration.RegisterRunCounts | registration.py:29-68 | On cancellation every queued request was handled, each adding exactly one hash item and two log lines; any other exit stops at a request and leaves the later ones queued. |
| Registration.SignUpOn | registration.py:45-68 | The connected part of a turn performs `SignUp`: the endpoint and both output queues match it. |
| Registration.QuietChain | registration.py:30-68 | Two consecutive stretches of the trace without a close make one stretch without a close. |
| Registration.Register | registration.py:29-68 | `register` performs `RegisterRun`: the endpoint, both output queues and the request queue all match it. |

## Left out

- The Tk construction, its widgets and event pumping are left out: `draw` and `create_status_panel` (gui.py), `update_tk`, `update_conversation_history`, and `draw`, `update_hash_label` and `main` (registration.py). `process_new_message` (gui.py:41-44) is an entry-field helper of the UI and is left out with it.
- File I/O is left out: `save_messages` in both variants, and the history-file read in `draw`.
- `watch_for_connection` and `WatchdogFormatter` (process_messages.py:39-68) depend on wall-clock timeouts. logger.py and main.py are not part of this model.
- The logger calls have no observable effect in the model. `messagebox.showerror` is treated as doing nothing.
- Concurrency is replaced by explicit events. `asyncio.gather`, task groups and real cancellation are abstracted as the terminal cancellation event described above.
- Order across objects is stated only for the status queue of process_messages.py. There each status carries the length of the endpoint trace at the moment it is put. The registration client's log and hash queues are not ordered against its endpoint trace, and the two queues of the read loop are not ordered against each other.
- Each channel is modelled on its own endpoint. All connections of one channel share one scripted stream of server lines, and the model does not say which server connection a line came from.
- Reads and writes never fail in the model. The script has no connection reset or other socket error in the middle of a stream, so the case where `readline()` or `drain()` raises inside the loops of gui.py:95-116 and process_messages.py:96-106 is not modelled. Such an exception would end the channel through the `finally` of `open_connection`.
- The script has a horizon. A connection attempt past the end of the outcome script never completes, giving the `Stalled` exit, and `readline` past the end of the lines returns "".
- `json.loads`, `str()`, `repr()` and `bytes.decode`/`encode` are foreign calls. They become the parameters `parse`, `show` and `repr`, and the identity respectively.
- Registration.RegisterConnected: the `AttributeError` branch of registration.py:65 is not modelled. Subscripting a decoded JSON value never raises it; a non-object raises TypeError, which the source does not catch.
- Registration.Register: each request's host and port appear only in the log lines. All requests use the same scripted endpoint, and the connection a handled request opens is left open, as in the source.
- The `writer.close()` at open_connection.py:24 and the `wait_closed()` after it are one event, Disconnected.
