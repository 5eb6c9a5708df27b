/** What every arm does, by phase and event, with the numbers written out: the next phase and the rest of
    the next state, the attempts and tasks started, the messages said and to whom, and the commands given
    to the timers. Nothing here refers to how `Session` puts an arm together: durations, codes and the
    fields of an OPEN are written as numbers, so that a change of any of them shows. */
module SessionTables {
  import opened Basics
  import opened Errors
  import opened Message
  import opened Fsm
  import opened Session
  import opened SessionProgress

  const NEVER: Duration := 946_080_000_000_000_000
  const ONE_SECOND: Duration := 1_000_000_000

  // ---------------------------------------------------------------- kinds of events

  predicate Starting(e: Event) {
    || e.ManualStart? || e.AutomaticStart? || e.ManualStartPassive? || e.AutomaticStartPassive?
    || e.AutomaticStartDamped? || e.AutomaticStartDampedPassive?
  }

  predicate Probe(e: Event) {
    e.TcpConnectionValid? || e.TcpCRInvalid?
  }

  predicate BadMessage(e: Event) {
    e.BgpHeaderErr? || e.BgpOpenMsgErr?
  }

  /** Events that bring or bring back a second connection. */
  predicate Second(e: Event) {
    e.TcpCRAcked? || e.TcpConnectionConfirmed? || e.ProcessOneDone?
  }

  /** A connection is attached: it becomes the one in hand. */
  predicate Attaches(s: State, e: Event) {
    (s.phase.Connect? || s.phase.Active?) && (e.TcpCRAcked? || e.TcpConnectionConfirmed?)
  }

  /** A collision: an OPEN of the other side than the one on record. */
  predicate Meets(s: State, e: Event) {
    s.Colliding() && e.BgpOpen? && e.remoteSyn != s.remoteSyn
  }

  /** The second connection takes the place of the first. */
  predicate Replaces(conf: Conf, s: State, e: Event) {
    && Meets(s, e) && Below(conf.routerId, e.msg.bgpIdentifier)
    && (s.phase.Established? ==> s.attr.opts.collisionDetectEstablished)
  }

  // ---------------------------------------------------------------- the next state

  function PhaseAfter(s: State, e: Event, src: Source): Phase {
    match s.phase
    case Idle =>
      if e.ManualStart? || e.AutomaticStart? then Connect
      else if e.ManualStartPassive? || e.AutomaticStartPassive? then Active
      else Idle
    case Connect =>
      if Probe(e) || e.ConnectRetryExpires? then Connect
      else if Attaches(s, e) then if s.attr.opts.delayOpen then Connect else OpenSent
      else if e.TcpConnectionFails? && s.attr.curDelayOpen != NEVER then Active
      else if e.BgpOpenDelayed? then OpenConfirm
      else Idle
    case Active =>
      if Probe(e) || Starting(e) then Active
      else if e.ConnectRetryExpires? then Connect
      else if e.DelayOpenExpires? then OpenSent
      else if Attaches(s, e) then if s.attr.opts.delayOpen then Active else OpenSent
      else if e.BgpOpenDelayed? then OpenConfirm
      else Idle
    case OpenSent =>
      if Probe(e) || Starting(e) || Second(e) || (BadMessage(e) && !src.FromBgp?) then OpenSent
      else if e.TcpConnectionFails? then Active
      else if e.BgpOpen? then OpenConfirm
      else Idle
    case OpenConfirm =>
      if Probe(e) || Starting(e) || Second(e) || (BadMessage(e) && !src.FromBgp?) then OpenConfirm
      else if e.KeepaliveExpires? || e.OpenCollisionDump? || e.BgpOpen? then OpenConfirm
      else if e.KeepaliveReceived? then Established
      else Idle
    case Established =>
      if Probe(e) || Starting(e) || Second(e) || e.BgpOpen? then Established
      else if e.KeepaliveExpires? || e.KeepaliveReceived? || e.UpdateReceived? then Established
      else Idle
  }

  /** The events on which the session leaves for Idle and counts a retry. */
  predicate Counted(s: State, e: Event) {
    match s.phase
    case Idle => false
    case Connect => !e.ManualStop? && !e.TcpConnectionFails? && (e.NotifyMsgVerErr? ==> s.attr.curHold == NEVER)
    case Active => !e.ManualStop? && (e.NotifyMsgVerErr? ==> s.attr.curHold == NEVER)
    case OpenSent => e.AutomaticStop? || e.HoldExpires? || BadMessage(e)
    case OpenConfirm => !e.ManualStop? && !e.NotifyMsgVerErr?
    case Established => !e.ManualStop?
  }

  function CounterAfter(s: State, e: Event, src: Source): nat {
    if s.phase.Idle? then if PhaseAfter(s, e, src).Idle? then s.attr.counter else 0
    else if Attaches(s, e) then 0
    else if !PhaseAfter(s, e, src).Idle? then s.attr.counter
    else if e.ManualStop? then 0
    else if Counted(s, e) then s.attr.counter + 1
    else s.attr.counter
  }

  /** The connection in hand. */
  function InHandAfter(conf: Conf, s: State, e: Event, src: Source): Option<ConnId> {
    if PhaseAfter(s, e, src).Idle? then None
    else if s.phase.Connect? && Attaches(s, e) && !s.attr.opts.delayOpen then None
    else if Attaches(s, e) then Some(e.conn)
    else if s.phase.OpenSent? && e.TcpConnectionFails? then None
    else if Replaces(conf, s, e) then s.collision
    else s.out
  }

  /** The second connection. */
  function KeptAfter(s: State, e: Event, src: Source): Option<ConnId> {
    if PhaseAfter(s, e, src).Idle? || PhaseAfter(s, e, src).Active? || !s.Colliding() then None
    else if e.TcpConnectionConfirmed? || e.ProcessOneDone? then Some(e.conn)
    else if Meets(s, e) then None
    else s.collision
  }

  function OpenOf(conf: Conf): OpenMsg {
    OpenMsg(4, conf.localAs, conf.holdTime, conf.routerId, false, 0, OptParams(None, None))
  }

  function LocalAfter(conf: Conf, s: State, e: Event, src: Source): Option<OpenMsg> {
    if PhaseAfter(s, e, src).Idle? || PhaseAfter(s, e, src).Active? then None
    else if s.Colliding() then s.localOpen
    else if e.DelayOpenExpires? || e.BgpOpenDelayed? then Some(OpenOf(conf))
    else None
  }

  function PeerAfterArm(s: State, e: Event, src: Source): Option<OpenMsg> {
    if PhaseAfter(s, e, src).Idle? then None
    else if e.BgpOpenDelayed? && PhaseAfter(s, e, src).OpenConfirm? then Some(e.msg)
    else if e.BgpOpen? && s.phase.OpenSent? then Some(e.msg)
    else if s.Colliding() && !PhaseAfter(s, e, src).Active? then s.peerOpen
    else None
  }

  function SideAfter(s: State, e: Event, src: Source): bool {
    if PhaseAfter(s, e, src).Idle? || PhaseAfter(s, e, src).Connect? || PhaseAfter(s, e, src).Active? then false
    else if s.Colliding() then s.remoteSyn
    else if Attaches(s, e) then e.TcpConnectionConfirmed?
    else s.phase.Active?
  }

  /** An attempt at a connection is held. */
  function DialingAfter(s: State, e: Event, src: Source): bool {
    PhaseAfter(s, e, src).Connect? && (s.phase.Connect? && !e.ConnectRetryExpires? ==> s.dialing)
  }

  predicate StateLaw(conf: Conf, s: State, e: Event, src: Source, r: Step) {
    r.Next? ==>
      && r.state.phase == PhaseAfter(s, e, src)
      && r.state.attr.counter == CounterAfter(s, e, src)
      && r.state.conn == r.state.out == InHandAfter(conf, s, e, src)
      && r.state.collision == KeptAfter(s, e, src)
      && r.state.localOpen == LocalAfter(conf, s, e, src)
      && r.state.peerOpen == PeerAfterArm(s, e, src)
      && r.state.remoteSyn == SideAfter(s, e, src)
      && r.state.dialing == DialingAfter(s, e, src)
  }

  // ---------------------------------------------------------------- tasks

  /** The tasks an arm starts, in order. */
  function TasksAfter(conf: Conf, s: State, e: Event, src: Source): seq<Fsm.Task> {
    if s.phase.Idle? then if PhaseAfter(s, e, src).Connect? then [Dial] else []
    else if Attaches(s, e) then [Serve(e.conn, e.TcpConnectionConfirmed?)]
    else if Replaces(conf, s, e) && s.collision.Some? then [Serve(s.collision.value, e.remoteSyn)]
    else if s.phase.Connect? then
      if e.ConnectRetryExpires? then (if s.dialing then [HangUp] else []) + [Dial]
      else if PhaseAfter(s, e, src).Idle? || PhaseAfter(s, e, src).Active? then if s.dialing then [HangUp] else []
      else []
    else if s.phase.Active? && e.ConnectRetryExpires? then [Dial]
    else []
  }

  // ---------------------------------------------------------------- messages

  function Note(code: nat, subcode: nat, data: Option<bytes>): Message {
    Notification(NotificationMsg(code, subcode, data))
  }

  function CodeNumber(code: ErrorCode): nat {
    match code
    case LocalLogicError => 0
    case MessageHeaderError => 1
    case OpenMessageError => 2
    case UpdateMessageError => 3
    case HoldTimerExpired => 4
    case FiniteStateMachineError => 5
    case Cease => 6
  }

  function SubcodeNumber(subcode: ErrorSubCode): nat {
    match subcode
    case Undefined => 0
    case BufferTooShort | ConnectionNotSync | UnsupportedVersionNumber | MalformedAttributeList => 1
    case IOError | BadMessageLength => 2
    case BadMessageType | BadBgpIdentifier => 3
    case UnsupportedOptionalParameter => 4
    case AttributeLengthError => 5
    case UnacceptableHoldTime | InvalidOriginAttribute => 6
    case UnsupportedCapability => 7
    case InvalidNetworkField => 10
    case MalformedAsPath => 11
  }

  function NoteOn(err: Error): Message {
    Note(CodeNumber(err.code), SubcodeNumber(err.subcode), err.data)
  }

  /** The connection an arm speaks on. */
  function Addressee(s: State, e: Event): Option<ConnId> {
    if Attaches(s, e) then Some(e.conn) else s.out
  }

  /** What it says there: Cease is 6, an expired hold timer 4, an event out of place 5. */
  function Said(conf: Conf, s: State, e: Event, src: Source): seq<Message> {
    match s.phase
    case Idle => []
    case Connect =>
      if Attaches(s, e) then if s.attr.opts.delayOpen then [] else [Open(OpenOf(conf))]
      else if e.BgpOpenDelayed? then [Open(OpenOf(conf)), Keepalive]
      else if e.BgpHeaderErr? && s.attr.opts.notifyWithoutOpen then [NoteOn(e.err)]
      else if e.BgpOpenMsgErr? && s.attr.opts.notifyWithoutOpen then [NoteOn(e.err)]
      else []
    case Active =>
      if Attaches(s, e) then if s.attr.opts.delayOpen then [] else [Open(OpenOf(conf))]
      else if e.DelayOpenExpires? then [Open(OpenOf(conf))]
      else if e.BgpOpenDelayed? then [Open(OpenOf(conf)), Keepalive]
      else if e.BgpHeaderErr? && s.attr.opts.notifyWithoutOpen then [NoteOn(e.err)]
      else if e.BgpOpenMsgErr? && s.attr.opts.notifyWithoutOpen then [NoteOn(e.err)]
      else if e.ManualStop? && s.attr.curHold != NEVER && s.attr.opts.notifyWithoutOpen then [Note(6, 0, None)]
      else []
    case OpenSent =>
      if e.ManualStop? || e.AutomaticStop? || Replaces(conf, s, e) then [Note(6, 0, None)]
      else if e.HoldExpires? then [Note(4, 0, None)]
      else if BadMessage(e) then if src.FromBgp? then [NoteOn(e.err)] else []
      else if Probe(e) || Starting(e) || Second(e) || e.BgpOpen? || e.TcpConnectionFails? || e.NotifyMsgVerErr? then []
      else [Note(5, 0, None)]
    case OpenConfirm =>
      if e.ManualStop? || e.AutomaticStop? then [Note(6, 0, None)]
      else if e.HoldExpires? then [Note(4, 0, None)]
      else if e.KeepaliveExpires? then [Keepalive]
      else if BadMessage(e) then if src.FromBgp? then [NoteOn(e.err)] else []
      else if Probe(e) || Starting(e) || Second(e) || e.BgpOpen? || e.TcpConnectionFails? || e.NotifyMsgVerErr? then []
      else if e.OpenCollisionDump? || e.KeepaliveReceived? then []
      else [Note(5, 0, None)]
    case Established =>
      if e.ManualStop? || e.AutomaticStop? || Replaces(conf, s, e) then [Note(6, 0, None)]
      else if e.HoldExpires? then [Note(4, 0, None)]
      else if e.KeepaliveExpires? then [Keepalive]
      else if e.UpdateMsgErr? then [NoteOn(e.err)]
      else if Probe(e) || Starting(e) || Second(e) || e.BgpOpen? || e.TcpConnectionFails? || e.NotifyMsgVerErr? then []
      else if e.NotifyMsg? || e.KeepaliveReceived? || e.UpdateReceived? then []
      else [Note(5, 0, None)]
  }

  // ---------------------------------------------------------------- timer commands

  function Agreement(conf: Conf, msg: OpenMsg): Duration {
    ONE_SECOND * if conf.holdTime < msg.holdTime then conf.holdTime else msg.holdTime
  }

  function StopRetry(): Timer {
    Timer(ConnectRetryTimer, Stop)
  }

  function StopDelay(): Timer {
    Timer(DelayOpenTimer, Stop)
  }

  /** The commands of an arm, in order. */
  function CommandsAfter(conf: Conf, s: State, e: Event, src: Source): seq<Timer> {
    if s.phase.Idle? then
      if PhaseAfter(s, e, src).Idle? then [] else [Timer(ConnectRetryTimer, Reset(10 * ONE_SECOND))]
    else if Attaches(s, e) then
      [StopRetry()] + if s.attr.opts.delayOpen then [Timer(DelayOpenTimer, Reset(s.attr.opts.delayOpenTime))] else []
    else if e.BgpOpenDelayed? && !s.Colliding() then
      [StopRetry(), StopDelay(), Timer(KeepaliveTimer, Reset(Agreement(conf, e.msg) / 3)),
       Timer(HoldTimer, Reset(Agreement(conf, e.msg)))]
    else match s.phase
      case Idle => []
      case Connect =>
        if Probe(e) then []
        else if e.ManualStop? || BadMessage(e) then [StopRetry()]
        else if e.NotifyMsgVerErr? && s.attr.curHold == NEVER then [StopRetry()]
        else if e.TcpConnectionFails? && s.attr.curDelayOpen == NEVER then [StopRetry()]
        else if e.ConnectRetryExpires? || e.TcpConnectionFails? then [Timer(ConnectRetryTimer, Restart), StopDelay()]
        else [StopRetry(), StopDelay()]
      case Active =>
        if Probe(e) || Starting(e) then []
        else if e.ManualStop? && s.attr.curHold != NEVER then [StopDelay(), StopRetry()]
        else if e.ConnectRetryExpires? then [Timer(ConnectRetryTimer, Restart)]
        else if e.TcpConnectionFails? then [Timer(ConnectRetryTimer, Restart), StopDelay()]
        else if e.DelayOpenExpires? || (e.NotifyMsgVerErr? && s.attr.curHold != NEVER) then [StopRetry(), StopDelay()]
        else [StopRetry()]
      case OpenSent =>
        if e.TcpConnectionFails? then [Timer(ConnectRetryTimer, Restart)]
        else if e.BgpOpen? then
          [StopDelay(), StopRetry(), Timer(KeepaliveTimer, Reset(s.attr.keepaliveTime)),
           Timer(HoldTimer, Reset(Agreement(conf, e.msg)))]
        else if PhaseAfter(s, e, src).Idle? then [StopRetry()] else []
      case OpenConfirm =>
        if e.KeepaliveExpires? then [Timer(KeepaliveTimer, Restart)]
        else if e.KeepaliveReceived? then [Timer(HoldTimer, Restart)]
        else if PhaseAfter(s, e, src).Idle? then [StopRetry()] else []
      case Established =>
        if e.KeepaliveExpires? then [Timer(KeepaliveTimer, Restart)]
        else if e.KeepaliveReceived? || e.UpdateReceived? then [Timer(HoldTimer, Restart)]
        else if PhaseAfter(s, e, src).Idle? then [StopRetry()] else []
  }

  predicate TaskLaw(conf: Conf, s: State, e: Event, src: Source, ch: Channels, r: Step) {
    r.Next? ==>
      && r.ch.tasks == ch.tasks + TasksAfter(conf, s, e, src)
      && r.ch.opening == ch.opening + (if s.Colliding() && e.TcpCRAcked? then {e.conn} else {})
  }

  ghost predicate SayingLaw(conf: Conf, s: State, e: Event, src: Source, ch: Channels, r: Step) {
    r.Next? ==>
      forall c: ConnId ::
        r.ch.LogOf(c) == ch.LogOf(c) + if Addressee(s, e) == Some(c) then Said(conf, s, e, src) else []
  }

  predicate CommandLaw(conf: Conf, s: State, e: Event, src: Source, ch: Channels, r: Step) {
    r.Next? ==> r.ch.timers == ch.timers + CommandsAfter(conf, s, e, src)
  }

  /** An arm does what all four say. */
  ghost predicate Lawful(conf: Conf, s: State, e: Event, src: Source, ch: Channels, r: Step) {
    && StateLaw(conf, s, e, src, r) && TaskLaw(conf, s, e, src, ch, r)
    && SayingLaw(conf, s, e, src, ch, r) && CommandLaw(conf, s, e, src, ch, r)
  }

  // ---------------------------------------------------------------- the times

  /** An OPEN is confirmed: late in Connect and Active, at once in OpenSent. */
  predicate ConfirmsOpen(s: State, e: Event) {
    (s.phase.OpenSent? && e.BgpOpen?) || AnswersLate(s, e)
  }

  /** The hold time and the keepalive time, and what is on record for the delay-open timer when a
      connection is attached: in Connect the arm for the peer's side leaves that as it was. */
  predicate TimesLaw(conf: Conf, s: State, e: Event, r: Step) {
    r.Next? ==>
      && r.state.attr.opts == s.attr.opts
      && r.state.attr.holdTime == (if ConfirmsOpen(s, e) then Agreement(conf, e.msg) else s.attr.holdTime)
      && r.state.attr.keepaliveTime == (if AnswersLate(s, e) then Agreement(conf, e.msg) / 3 else s.attr.keepaliveTime)
      && (Attaches(s, e) && s.attr.opts.delayOpen ==>
            r.state.attr.curDelayOpen ==
              if s.phase.Connect? && e.TcpConnectionConfirmed? then s.attr.curDelayOpen else s.attr.opts.delayOpenTime)
  }
}
