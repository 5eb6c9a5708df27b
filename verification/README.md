# Verification of the BGP speaker

A Dafny model of the two cores of this repository, with proofs about it.

**The session.** `Session` says what each arm of `run` (`src/session.rs`) does in each of the six
states, as a function from a state, an event and what was emitted so far to the next state and what is
emitted then, or to a panic. `SessionTask` is the same loop as it is written, a class whose methods
assign its fields and send in the source's order, and each method is proved to do what `Session` says.
`TimerLoop` has the router and the timer tasks, as classes and as steps of a net of queues. `Run` puts the
session, the control channel, the router, the queues, the timer tasks, the expiry channel and the reading of
second connections together: a system that moves one task at a time, in any order, on any events. What
holds over every run is in `Guarantees`; `SessionInvariant`, `SessionEffects`, `SessionSound` and
`SessionProgress` prove it arm by arm; `Collision` is about two speakers; `Witness` has concrete runs.
`SessionTables` lists by phase and event what an arm comes to, with every number written out and without
the functions of `Session`; `SessionLaws` proves that each arm does it, and `Conduct` what follows for
every reachable session.

**The decoder.** `Message` gives each `decode` of `src/message.rs` as a function on octets; `Decoder` has
the cursor code, with its loops, over the mutable cursor of `Octets`, proved to agree with it.
`DecoderLaws` says by position and number what each decoder makes of any octets. `Printer`
is a printer written as the inverse of the decoders, since `Message::encode` builds nothing, and
`RoundTrip` proves it is. `Stream` and `Connection` are about the retry loop of `src/connection.rs`, and
`Tasks` about the tasks that read connections.

`Basics`, `Errors` and `Wire` hold shared types; `Fsm` holds the states, events and conversions of
`src/fsm.rs`.

## How the code is read

- A panic, from `unwrap` or `panic!`, is the outcome `Stuck`, and a run does not go on from it. Theorems
  about runs are about runs that did not panic; which events panic is itself a theorem, in both
  directions (`Guarantees.HandledUnlessFatal`).
- `delay_open`, `delay_open_time`, `send_notification_without_open` and
  `collision_detect_established_state` are arbitrary: nothing assigns them after `new`.
- One arm is one step, except that its timer commands enter the 32-slot control channel one by one and
  the session takes no event before the last has. Expiries may be stale, and may come at any time.
- Events other than expiries may come from any channel at any time; a TCP event brings a connection not
  seen before, one that the speaker initiated (`TcpCRAcked`) or the peer (`TcpConnectionConfirmed`); there
  are no more outcomes of attempts, `TcpCRAcked` or `TcpConnectionFails`, than attempts were started; and
  `ProcessOneDone` brings one that `process_one` read an OPEN from.
- A connection is *closed* once the session holds neither its task, its sender nor itself.
- Durations are counted in nanoseconds, without an upper bound; identifiers, octets and lengths have their
  widths. `length + 7` in `Cidr::decode` is taken with overflow checks on: from 249 on it panics, as 129 to
  248 do one statement later.
- The six state structs are one record whose fields are empty where the struct of the state has none
  (`Fsm.State.Bare`, part of the invariant).

## What the code does that one might not expect

Each of these is in the model as the code has it, and proved.

- The marker octet is 1. The body is `length` octets after the header, so a KEEPALIVE is not seen before
  nineteen more octets have come (`Stream.KeepaliveWaits`), and an OPEN framed with its own size is
  refused when it has fewer than two parameters, as the local OPEN has (`Stream.ShortOpenRefused`).
- `opt_params_len` counts parameters. An NLRI entry has two length octets, the second of which is lost.
- A bad header stays in the buffer and is reported on every turn (`Tasks.ComplaintRepeats`).
- With `delay_open` off nothing gets past OpenSent (`Guarantees.WithoutDelayNeverConfirmed`), and no task
  sends the KEEPALIVE event that Established needs (`Guarantees.NoKeepaliveNoEstablished`).
- The delay-open expiry in Connect always panics: the conversion into OpenSent dropped the sender
  (`SessionEffects.ConnectStuck`).
- The arm for a confirmed connection in Connect sets the delay-open timer and not its record
  (`Witness.DriftIsReached`).
- The OPEN arm of OpenSent negotiates the hold time and keeps the old keepalive time
  (`Guarantees.StaleKeepaliveTime`).
- `remote_syn` says which state the session came from and not who initiated the connection in hand
  (`Collision.SideOnRecord`): OpenSent always has the peer's side on record once the local OPEN is. So an
  OPEN on a second connection of the peer's is no collision there (`Witness.OwnConnectionStays`), and two
  speakers in OpenSent never agree (`Collision.OpenSentNeverAgrees`); exactly when two do is
  `Collision.SpeakersAgree`. With the peer's connection in hand a speaker goes by the identifiers the
  wrong way round (`Collision.LargerWins`, `Witness.WrongConnectionKept`). A takeover leaves `remote_syn` as it was
  (`Collision.TakeoverKeepsSide`).
- No takeover puts an OPEN on the new connection: OpenConfirm and Established have none to send, and the
  one in OpenSent is on a branch that no run gets to (`Guarantees.TakeoverSendsNoOpen`). Hence the
  KEEPALIVE without an OPEN (`Witness.KeepaliveWithoutOpen`).
- A version error, and a ManualStop in Active, look at the hold timer's record to decide about the
  delay-open timer.

## Model

| member | source | states |
|---|---|---|
| Guarantees.TimersAgree | src/session.rs:30-75 | over every interleaving of session, router and timer tasks: a timer's duration, changed by its queue, then by the commands of its kind in the control channel, then by those still to be sent, is the session's `cur_*_time`; for the delay-open timer exactly while the arm at 302-344 was not the last to command it with the record differing |
| Guarantees.RetryAndDelayAreOff | src/session.rs:111-121 | from OpenSent on, both `cur_connect_retry_time` and `cur_delay_open_time` are FAR_FUTURE and so is what the two timers are heading for; hence the renaming of an OPEN from the admin channel changes nothing there |
| Guarantees.OutboundGrammar | src/session.rs:255-1913 | on every connection, over every run, the session says OPEN? KEEPALIVE* NOTIFICATION? and nothing else; where it says a KEEPALIVE, the OPEN is missing if and only if collision detection installed the connection, and on such a one it never says an OPEN |
| Guarantees.TakeoverSendsNoOpen | src/session.rs:1112-1145 | in every reachable OpenSent a takeover happens on an OPEN from the speaker's own side only, so the branch that sends the local OPEN on the new connection never runs |
| Witness.KeepaliveWithoutOpen | src/session.rs:1492-1515 | a concrete run, on events the source can send, after which a connection was sent a KEEPALIVE and no OPEN: taken over in OpenConfirm |
| Guarantees.GrammarIsConversation | src/session.rs:255-1913 | the grammar that every arm keeps, put index by index, holds of exactly the logs of the shape OPEN? KEEPALIVE* NOTIFICATION? |
| Guarantees.ConnectionsOwnedOnce | src/session.rs:255-1913 | every connection taken in is in exactly one of: current, kept for collision detection, being read, on its way back, closed; handle and sender come and go together and name the same connection, so that at most one has a live sender; Idle has none |
| Guarantees.EstablishedHasHistory | src/session.rs:142-1567 | a session in Established has had, since it last left Idle and in this order, a start event, a TCP event, an OPEN event and a KEEPALIVE event |
| Guarantees.NoKeepaliveNoEstablished | src/session.rs:1970-1980 | without a KEEPALIVE event no run reaches Established; `process` sends none, as its match has no arm for that message |
| Guarantees.WithoutDelayNeverConfirmed | src/fsm.rs:74-93 | with `delay_open` off, as `new` sets it, no run gets past OpenSent and nothing records `local_open`, as long as no one but the timers sends an expiry of the delay-open timer or a renamed OPEN, and no wait of FAR_FUTURE runs out; that timer is never told anything but Stop, and never reports |
| Guarantees.OnlyOpenPanics | src/session.rs:1492-1515 | in OpenConfirm and Established `local_open`, `peer_open` and `bgp_out_tx` are present, and an event makes the session panic exactly when it is an OPEN marked with the side that `remote_syn` has on record, or one whose identifier wins with no second connection kept |
| Guarantees.HandledUnlessFatal | src/session.rs:141-1917 | in any reachable state an event is handled exactly when it is not one of those that `SessionEffects.Fatal` lists for the state |
| Guarantees.HoldTimeNegotiated | src/session.rs:1173-1215 | throughout OpenConfirm and Established `hold_time` is the smaller of the two hold times, the hold timer is heading for it and the keepalive timer for `keepalive_time` |
| Guarantees.HoldTimeAcceptable | src/message.rs:258-262 | given that OPENs passed the decoder's check, the negotiated hold time is 0 or at least 3 s if and only if the configured one is, or the peer's is 0 |
| Guarantees.DecodedHoldTime | src/message.rs:258-262 | every decoded OPEN has hold time 0 or at least 3 |
| Guarantees.DelayedOpenThirds | src/session.rs:414-430 | after an OPEN was answered late, `3 * keepalive <= hold < 3 * keepalive + 3 ns` for as long as the session stays out of Idle |
| Guarantees.StaleKeepaliveTime | src/session.rs:1169-1191 | in every reachable OpenConfirm or Established the keepalive time is a third of what the last OPEN answered late in the whole run agreed on, or of nine seconds; so it is a third of the hold time if and only if the smaller hold time in force equals that |
| Guarantees.NeverLate | src/session.rs:111-121 | in a run in which no OPEN is answered late, the nine seconds of the start remain |
| Guarantees.CounterNeverGrows | src/session.rs:142-1913 | `connect_retry_counter` is at most 1, and 0 outside Idle, in every reachable state |
| Guarantees.SendNeverBlocked | src/session.rs:51-75 | with the 32-slot control channel full the router has a command to pass on and room is made, whatever the timer tasks and the expiry channel are doing |
| Guarantees.NoDeadlock | src/session.rs:19-49 | while a command is outstanding or an expiry is to be reported or taken, one of: sending, routing, carrying out, reporting, and the session's taking of an expiry, can happen, unless the next expiry makes the session panic |
| Guarantees.TimersServed | src/session.rs:19-75 | however those steps are scheduled they come to an end within a bound known beforehand; then, unless the next expiry makes the session panic, every task has reported, every expiry was taken, every command carried out, and every agreeing timer waits exactly its `cur_*_time` |
| Guarantees.TimersSettle | src/session.rs:30-75 | however delivering steps are scheduled there are at most as many as are outstanding; short of that one more can be taken, and at that count every agreeing timer waits exactly its `cur_*_time` |
| Run.ReachableSafe | src/session.rs:103-1917 | every system that a run leads to satisfies the whole invariant (state, ownership, grammar, timers, history) and has its options unchanged |
| Run.StepSafe | src/session.rs:103-1917 | each step of each task keeps that invariant |
| Run.HandleTimes | src/session.rs:322-333 | one arm turns agreement of each timer into agreement, except for the drift of the delay-open timer |
| Run.HandleOwns | src/session.rs:103-1917 | one arm keeps each connection in one place and its log in the grammar |
| Witness.EstablishedIsReached | src/session.rs:1112-1218 | a concrete run to Established, with hold time and keepalive time both three seconds: the OPEN negotiated in OpenSent leaves the keepalive time stale |
| Witness.DriftIsReached | src/session.rs:302-344 | a concrete run after which the delay-open timer and its record differ |
| Conduct.ReachableLawful | src/session.rs:141-1917 | in every reachable system, for every event from every channel, the arm has the next phase and state, starts the tasks, says the messages and gives the timer commands that the tables of `SessionTables` list by phase and event, with every duration, error code and OPEN field a literal number |
| Conduct.AttemptsCounted | src/session.rs:142-628 | in every state, on every event: one more attempt exactly on a start event in Idle and a connect-retry expiry in Connect or Active, which lead to Connect holding it; one more abort exactly where Connect holds one and starts it over or leaves for Idle or Active |
| Conduct.RetryLeavesActive | src/session.rs:611-628 | the connect-retry timer in Active: to Connect, one more `Dial`, one `Restart` |
| Conduct.EveryOpenOwn | src/message.rs:303-317 | every OPEN in any log and the recorded `local_open`, over every run: version 4, the configured AS number, hold time and identifier, short form, no parameters, parameter length 0 |
| Conduct.LateNotifications | src/session.rs:956-1913 | from OpenSent on, the one NOTIFICATION an event brings, by number: 6 when stopped or taken over, 4 for the hold timer, 5 for an event out of place, each with subcode 0 and no data; an error with its own numbers and data; any other event says nothing but the KEEPALIVE of its timer |
| Conduct.EarlyNotifications | src/session.rs:184-953 | in Connect and Active, with the option: a bad header or OPEN with its own numbers and data, 6 when stopped in Active with a hold time on record; no NOTIFICATION otherwise |
| Conduct.RenamedWhileDelayed | src/session.rs:109-121 | an OPEN from the admin channel is taken as a delayed one exactly while the delay-open record is not FAR_FUTURE, which unless it drifts is exactly while that timer is heading for an end |
| Conduct.StartsAfresh | src/fsm.rs:74-93 | a session starts in Idle with nothing in hand, 9 s and 3 s, all timers off |
| Conduct.ExpiriesConserved | src/session.rs:30-75 | over every run each timer ran out exactly as often as the session took the event of that very timer, plus the expiries still under way |
| SessionLaws.EveryArmLawful | src/session.rs:141-1917 | every arm does what the tables list, by phase and event |
| SessionLaws.EveryArmTimes | src/session.rs:141-1917 | the hold time changes only when an OPEN is confirmed, to the smaller of the two in seconds; the keepalive time only on a late answer, to a third of that; the delay-open record on an attached connection as the arm at 302-344 leaves it |
| SessionSound.InvariantKept | src/session.rs:141-1917 | every arm keeps the session invariant, whatever was emitted before |
| SessionSound.StepSound | src/session.rs:141-1917 | every arm keeps the session invariant, loses and duplicates no connection, extends logs within the grammar and commands exactly the timers it records |
| SessionEffects.StuckExactlyWhenFatal | src/session.rs:141-1917 | a state and event panic if and only if `Fatal` lists them |
| SessionEffects.ConnectStuck | src/session.rs:231-241 | in Connect the delay-open expiry always panics (the conversion dropped the sender); the others exactly when the sender is missing |
| SessionEffects.OpenSentStuck | src/session.rs:1112-1173 | in OpenSent an OPEN panics when `local_open` is missing, or when the peer wins and no second connection is kept; other sends when the sender is missing |
| SessionSound.ConnectAttachSound | src/session.rs:255-344 | the two TCP arms of Connect, including the one that does not record the delay-open time and the ones that lose the connection on the way to OpenSent |
| SessionSound.ConfirmOpenSound | src/session.rs:1112-1218 | the OPEN arm of OpenSent, collision detection included |
| SessionSound.ResolveInOpenConfirmSound | src/session.rs:1492-1515 | the OPEN arm of OpenConfirm |
| SessionSound.ResolveInEstablishedSound | src/session.rs:1767-1806 | the OPEN arm of Established |
| SessionInvariant.NegotiatedIsMinimum | src/session.rs:414-425 | the negotiated hold time is the minimum of two 16-bit numbers of seconds and always below FAR_FUTURE, so the FAR_FUTURE arms never run |
| SessionProgress.NoStageSkipped | src/session.rs:141-1917 | no arm advances the session by more than the stage its event stands for |
| SessionProgress.DelayOpenTold | src/session.rs:255-762 | no arm restarts the delay-open timer; arms that make it drift or leave for OpenSent and beyond set or stop it |
| SessionProgress.EveryArmRecords | src/fsm.rs:214-305 | when `remote_syn` is set and from what, arm by arm |
| SessionProgress.EveryArmSpares | src/session.rs:141-1917 | where `peer_open` comes from, when `hold_time` changes, what `keepalive_time` becomes, and what can record `local_open` |
| Collision.BelowIsUnsigned | src/message.rs:265-271 | octet-wise order of identifiers is the order of 32-bit unsigned numbers |
| Collision.PickedConnection | src/session.rs:1114-1150 | a collision step keeps one of the two connections by comparing identifiers, closes the other and leaves `remote_syn` alone |
| Collision.SideOnRecord | src/fsm.rs:230-305 | who initiated the connection in hand against `remote_syn`: true where the OPEN was sent at once; in any other OpenSent it says the peer; later it says the peer unless the session came from Connect, so that it is true exactly when the speaker's own connection is in hand after Connect, or the peer's after Active |
| Collision.RivalHandled | src/session.rs:1492-1498 | an OPEN on a second connection, initiated by the other speaker than the one in hand, is handled in OpenSent if and only if `local_open` is recorded, and elsewhere if and only if `remote_syn` is true of the connection in hand |
| Collision.RivalResolved | src/session.rs:1114-1150 | what such an OPEN leaves in hand, in every reachable state: the speaker gives up its own connection only for a larger identifier and where `remote_syn` says it is its own; the peer's it gives up for its own when the peer's identifier is larger |
| Collision.LargerWins | src/session.rs:1114-1150 | exactly when the connection that the larger identifier initiated is kept, as section 6.8 of RFC 4271 asks: with the speaker's own in hand, where `remote_syn` says so or the larger identifier is its own; with the peer's in hand never, except in Established without the option, where it is kept if the peer's identifier is larger |
| Collision.SameSideIgnored | src/session.rs:1112-1117 | an OPEN of the side on record leaves both connections alone in OpenSent, whatever the identifiers, and panics later |
| Collision.EstablishedStays | src/session.rs:1767-1806 | without the option an OPEN of the other side drops the second connection and keeps the first |
| Collision.CollisionHandled | src/session.rs:1492-1515 | with a second connection kept, a collision panics only where `local_open` was never recorded, never in OpenConfirm or Established |
| Collision.SpeakersAgree | src/session.rs:1114-1150 | two reachable speakers, each with the connection it initiated in hand and the other's kept, keep the same one if and only if the one with the smaller identifier has its own on record as its own (and the option, in Established); it is then the larger identifier's. This takes the place of agreement in OpenSent and OpenConfirm alike, which the code does not give |
| Collision.OpenSentNeverAgrees | src/session.rs:1114-1150 | two such speakers that are both in OpenSent each keep their own, whatever the identifiers |
| Collision.EqualIdentifiersDisagree | src/session.rs:1118-1150 | with equal identifiers each keeps its own |
| Witness.OwnConnectionStays | src/session.rs:347-378 | a concrete run to OpenSent, by way of two attempts at a connection, with the speaker's own connection in hand and `remote_syn` denying it: the peer's OPEN on a second connection resolves nothing |
| Witness.WrongConnectionKept | src/session.rs:1069-1150 | a concrete run to OpenSent with the peer's connection in hand and the abandoned attempt's as the second: the larger identifier's connection is given up for the smaller one's |
| Witness.SpeakersMeet | src/session.rs:381-467 | concrete runs of two speakers to OpenConfirm, each with an OPEN behind a confirmed connection answered late, from which they do agree on the larger identifier's connection |
| Collision.TakeoverKeepsSide | src/session.rs:1119-1141 | after a takeover the session serves a connection of the side that `remote_syn` denies |
| SessionTask.Task.HandleIdle | src/session.rs:142-181 | the arms of Idle do what `Session.StepIdle` says, statement by statement |
| SessionTask.Task.HandleConnect | src/session.rs:184-552 | the arms of Connect |
| SessionTask.Task.HandleActive | src/session.rs:555-953 | the arms of Active |
| SessionTask.Task.HandleOpenSent | src/session.rs:956-1297 | the arms of OpenSent |
| SessionTask.Task.HandleOpenConfirm | src/session.rs:1299-1599 | the arms of OpenConfirm |
| SessionTask.Task.HandleEstablished | src/session.rs:1602-1913 | the arms of Established |
| SessionTask.Task.Iterate | src/session.rs:109-1917 | one turn of the loop: the renaming and the arm; the task survives it exactly when the event is not fatal, and the session invariant with it |
| SessionTask.Task.Run | src/session.rs:103-1917 | the loop over any events, up to a panic, keeping the session invariant |
| SessionTask.Task.GoIdle | src/fsm.rs:181-228 | what the conversions into Idle abort and drop |
| TimerLoop.TimerTask.Wait | src/session.rs:30-48 | one turn of a timer task: an expiry is reported and changes nothing, an operation changes the duration (Restart keeps it) |
| TimerLoop.TimerTask.CatchUp | src/session.rs:30-48 | the loop over a queue ends with the folded duration |
| TimerLoop.Router.Forward | src/session.rs:51-75 | the router gives every timer its operations, in the order commanded |
| TimerLoop.RoutingIsCarrying | src/session.rs:51-75 | splitting the commands by timer loses nothing a timer needs: its queue does to it what the whole command stream would |
| TimerLoop.RouteKeepsOutlook | src/session.rs:51-75 | routing a command changes no timer's outlook |
| TimerLoop.ObeyKeepsOutlook | src/session.rs:35-46 | carrying out an operation changes no timer's outlook |
| TimerLoop.AcceptKeepsOutlook | src/session.rs:19-21 | a command getting its slot changes no timer's outlook |
| TimerLoop.NothingOutstanding | src/session.rs:30-75 | with nothing outstanding every timer waits exactly as long as its outlook |
| Stream.ChunkingIndependent | src/connection.rs:31-52 | repeated `read_message` gives the same messages, the same first error that is not "too short" and the same end for every way of cutting the stream |
| Stream.SplitIndependent | src/connection.rs:31-52 | the same from any buffered octets and any peer |
| Stream.DecodeMonotone | src/message.rs:700-730 | octets appended to the buffer change no result but "too short" |
| Stream.ReadOneSplit | src/connection.rs:31-52 | one `read_message` decides as one decode of all octets still to come |
| Stream.UpdateFollowsOpen | src/connection.rs:31-39 | on a new connection each UPDATE follows an OPEN and was decoded against the most recent one |
| Stream.UpdateNeedsPeer | src/message.rs:718-724 | no UPDATE is decoded without a peer's OPEN |
| Stream.FrameDecodes | src/message.rs:700-730 | a framed message decodes, consuming just itself, if and only if the length field fits it and `length` octets follow the header |
| Stream.FramesBack | src/message.rs:700-730 | a stream of framed messages reads back in order, whatever follows |
| Stream.SentIsReceived | src/connection.rs:31-52 | the same through any cutting of the stream |
| Stream.DecodeConserves | src/message.rs:709-729 | what any decoded message takes off any buffer: an UPDATE or a NOTIFICATION the header and all `length` octets behind it, a KEEPALIVE the header, an OPEN the header and the octets it is made of |
| Stream.KeepaliveWaits | src/message.rs:709-714 | a KEEPALIVE is seen if and only if nineteen more octets have arrived behind it |
| Stream.ShortOpenRefused | src/message.rs:68-73 | an OPEN framed with the size of its body is refused if and only if it has fewer than two parameters |
| Connection.BgpConn.ReadMessage | src/connection.rs:31-52 | the retry loop returns what `Stream.ReadOne` says, keeps the buffer on an error, and records an OPEN as the peer |
| Connection.BgpConn.ReadToEnd | src/session.rs:1964-1996 | repeated reading returns what `Stream.Reads` says |
| Stream.ReadsByDecoding | src/connection.rs:31-52 | what repeated reading gives is decoding all octets over and over: the messages in order, each against the latest OPEN, and the end |
| Tasks.TurnLaw | src/session.rs:1964-1996 | one turn of `process`: an OPEN gives one `BgpOpen` with the connection's own side, an UPDATE one `UpdateReceived`, other messages nothing; a header error gives `BgpHeaderErr`, an OPEN error `BgpOpenMsgErr`, and reading goes on; any other error ends the loop |
| Tasks.ToldInFull | src/session.rs:1952-1999 | all events of enough turns: those of the readable messages, in order, then the one error event on every turn that is left |
| Tasks.ProcessPassive | src/main.rs:74-104 | a connection is handed on exactly when its first message is an OPEN, which is then what it decodes against |
| Tasks.ProcessOne | src/session.rs:1921-1950 | a second connection comes back, followed by its OPEN, exactly when its first message is an OPEN; a header error becomes `BgpHeaderErr`, an OPEN error `BgpOpenMsgErr`, anything else nothing |
| Tasks.Process | src/session.rs:1952-1999 | the receiving half of `process`, any number of turns: the events are those of `ToldAll`, which `TurnLaw` and `ToldInFull` say event by event |
| Tasks.UpdateToldAfterOpen | src/session.rs:1964-1980 | no UPDATE event before an OPEN, from this task or from the one that handed the connection over |
| Tasks.ToldAllSplitIndependent | src/session.rs:1952-1999 | the events of any number of turns are the same for every way of cutting the stream, refusals and what follows them included |
| Tasks.RefusalRepeats | src/connection.rs:40-48 | an error leaves the octets buffered, so that reading again gives it again |
| Tasks.ComplaintRepeats | src/session.rs:1981-1996 | where a read is refused, `turns` turns give `turns` times `BgpHeaderErr` for a header error, `turns` times `BgpOpenMsgErr` for an OPEN error, and nothing for any other |
| DecoderLaws.HeaderLaw | src/message.rs:52-91 | a header is accepted if and only if the first sixteen octets are 1, the type octet is 1 to 4 and the length right for it; otherwise the first of the three that is wrong gives its error; then the type is that of octet 18 |
| DecoderLaws.DecodeLaw | src/message.rs:700-730 | a whole message, from the header's verdict and length and the body's: which octets the body sees, what is left, and which failure comes first |
| DecoderLaws.DecodedKind | src/message.rs:700-730 | a decoded message of each kind has its own type octet in the buffer |
| DecoderLaws.BodyLaw | src/message.rs:716-726 | which body decoder a type selects, that an UPDATE without a peer is refused, and the NOTIFICATION by position |
| DecoderLaws.OpenLaw | src/message.rs:247-301 | an OPEN field by field, and the first field that is refused: version, hold time, identifier |
| DecoderLaws.FormLaw | src/message.rs:264-288 | the identifier 0 or 0xFFFFFFFF is refused; the extended form is taken exactly when the type octet is 255, with the two-octet count behind it |
| DecoderLaws.ParamLaw | src/message.rs:165-212 | one optional parameter by position, in either width of its length, and its three refusals |
| DecoderLaws.ParamsLaw | src/message.rs:165-212 | a list of parameters: all capabilities in order, the last four-octet AS number, or the first refusal |
| DecoderLaws.CidrLaw | src/message.rs:334-359 | a prefix by its length octet: which are short, which panic, and every octet of the padded address |
| DecoderLaws.AsPathLaw | src/message.rs:443-458 | an AS path segment by position, and its two refusals |
| DecoderLaws.ValueLaw | src/message.rs:494-518 | each attribute value by its type code and position |
| DecoderLaws.AttributeLaw | src/message.rs:555-571 | an attribute's four flags, code, one- or two-octet length, and value |
| DecoderLaws.ListLaw | src/message.rs:597-618 | a list of prefixes, attributes or NLRI entries is its first entry and the rest, or the first refusal |
| DecoderLaws.UpdateLaw | src/message.rs:597-628 | the three sections of an UPDATE by position, and the first one that is refused decides |
| Decoder.DecodeMessage | src/message.rs:700-730 | the cursor decoder agrees with `Message.Decode`, and a failure consumes nothing |
| Decoder.DecodeHeader | src/message.rs:52-91 | agrees with `ParseHeader`, of which `DecoderLaws.HeaderLaw` says what it accepts |
| Decoder.DecodeOpen | src/message.rs:247-301 | agrees with `ParseOpen` |
| Decoder.DecodeOptParams | src/message.rs:165-212 | the counted loop agrees with `ParseOptParams` |
| Decoder.DecodeUpdate | src/message.rs:597-628 | agrees with `ParseUpdate` |
| Decoder.DecodeCidrs | src/message.rs:598-602 | the loop over withdrawn routes agrees with `ParseCidrs` and leaves nothing of its section |
| Decoder.DecodeAttributes | src/message.rs:604-608 | the loop over path attributes agrees with `ParseAttributes` |
| Decoder.DecodeNlri | src/message.rs:613-618 | the NLRI loop agrees with `ParseNlri` |
| Decoder.DecodeCidr | src/message.rs:334-359 | agrees with `ParseCidr`, panics included |
| Decoder.DecodeAttribute | src/message.rs:555-571 | agrees with `ParseAttribute` |
| Decoder.DecodeAttrValue | src/message.rs:494-518 | agrees with `ParseAttrValue` |
| Decoder.DecodeAsPathSegment | src/message.rs:443-458 | agrees with `ParseAsPathSegment` |
| Decoder.DecodeAggregator | src/message.rs:468-478 | agrees with `ParseAggregator`, its width fixed by the peer's OPEN |
| Decoder.DecodeNotification | src/message.rs:662-668 | agrees with `ParseNotification` |
| RoundTrip.UpdateBack | src/message.rs:597-628 | decoding a printed UPDATE gives back that message, whatever second length octets its NLRI was printed with |
| RoundTrip.UpdateImage | src/message.rs:597-628 | the messages that can be printed are exactly those that can be decoded |
| RoundTrip.UpdatePrinterInjective | src/message.rs:597-628 | two UPDATEs that print alike are the same |
| RoundTrip.UpdateLengthChecksHold | src/message.rs:609-621 | the length checks after the two loops can never fail |
| RoundTrip.UpdateConserves | src/message.rs:597-628 | a success consumes the withdrawn section, the attribute section and the rest exactly |
| RoundTrip.CidrsShape | src/message.rs:334-359 | decoded prefixes are well formed and print as the octets they came from |
| RoundTrip.AttrValueBack | src/message.rs:494-518 | each attribute value is read back by its type code |
| RoundTrip.AttributesShape | src/message.rs:555-571 | decoded attributes are well formed and account for every octet of their section |
| RoundTrip.OpenBack | src/message.rs:247-301 | decoding a printed OPEN gives back that message, in the short and in the extended form |
| RoundTrip.OptParamsBack | src/message.rs:165-212 | the MP capabilities come back in order and the four-octet AS capability is kept, for any number of parameters |
| RoundTrip.OpenImage | src/message.rs:247-301 | the OPENs that can be printed are exactly those that can be decoded |

## Left out

- Sockets, `TcpListener`, `TcpStream::connect`, end of file, I/O errors and `write_message`: a socket is the list of pieces it will deliver; where the source waits for more, reading ends.
- Sends that fail because a receiver is gone, and the 32 slots of the channels other than the timers': a live connection takes every message.
- Wall-clock time: an expiry may come whenever its task is not busy reporting one. Nothing is claimed about how long a timer takes.
- Conformance of OPEN, header and NLRI with the layout of RFC 4271: the layout here is the code's.
- Release builds without overflow checks, in which `length + 7` wraps in `Cidr::decode`.
- Connection attempts: starting and aborting one are emitted as `Dial` and `HangUp`; the task itself only gives rise to TCP events.
- What becomes of messages still queued for a connection that was just closed: the logs are what the session put on its channel.
- The `octets` crate is not part of this model beyond the six operations the decoders use (`OctetsCursor.Octets`).
- `src/config.rs` except `local_as`, `hold_time` and `router_id`; the YANG files; `src/table.rs`; logging and telemetry.
- Peer-oscillation damping, route deletion and the processing of UPDATEs: comments without code.
- `AsNum::to_two_octets`, `is_mappable` and the conversions between error enumerations: one-branch facts.
- Contracts on the six `Step` functions of `Session`: what they mean is stated by the rows for `SessionTask`, `SessionLaws`, `SessionSound` and `SessionEffects`.
- Guarantees.TimersSettle: is about commands alone and assumes that no timer task is blocked reporting an expiry; `Guarantees.TimersServed` does without, and counts the reporting and taking of expiries too.
- Tasks.Process: the sending half of `process` is not there, and its endless loop is cut after any number of turns.
