/** One iteration of the loop of `run` in `src/session.rs`: what each state does with each event.
    `SessionTask` has the same arms as they are written and is proved to do what is said here. */
module Session {
  import opened Basics
  import opened Errors
  import opened Message
  import opened Fsm

  /** The part of the configuration a session uses. */
  datatype Conf = Conf(localAs: uint32, holdTime: uint16, routerId: Octets4)

  /** `OpenMsg::from_conf`. */
  function LocalOpen(conf: Conf): OpenMsg {
    OpenMsg(4, conf.localAs, conf.holdTime, conf.routerId, false, 0, NO_PARAMS)
  }

  function NoteOf(code: ErrorCode): (m: Message)
    ensures m.Notification?
  {
    Notification(NotificationMsg(code.Number(), Undefined.Number(), None))
  }

  function NoteFrom(err: Error): (m: Message)
    ensures m.Notification?
  {
    Notification(NotificationMsg(err.code.Number(), err.subcode.Number(), err.data))
  }

  /** An arm ends in a new state, or in a panic: an `unwrap` of nothing, or an explicit one. */
  datatype Step = Stuck | Next(state: State, ch: Channels)

  // ---------------------------------------------------------------- shared pieces

  /** `Ipv4Addr` compares its octets from the first. */
  predicate Below(a: Octets4, b: Octets4) {
    || a[0] < b[0]
    || (a[0] == b[0] && a[1] < b[1])
    || (a[0] == b[0] && a[1] == b[1] && a[2] < b[2])
    || (a[0] == b[0] && a[1] == b[1] && a[2] == b[2] && a[3] < b[3])
  }

  function Seconds(n: uint16): Duration {
    n * SECOND
  }

  /** The negotiated hold time; its FAR_FUTURE arm returns what it matched. */
  function Negotiated(local: OpenMsg, peer: OpenMsg): Duration {
    var d := Seconds(if local.holdTime < peer.holdTime then local.holdTime else peer.holdTime);
    if d == FAR_FUTURE then FAR_FUTURE else d
  }

  function KeepaliveFor(holdTime: Duration): Duration {
    if holdTime == FAR_FUTURE then FAR_FUTURE else holdTime / DFLT_KEEPALIVE_FACTOR
  }

  /** Starts the hold and keepalive timers. What the keepalive timer is told when there is no hold
      time differs between the arms. */
  function StartTimers(a: Attr, ch: Channels, otherwise: Operation): (r: (Attr, Channels))
    ensures r.0 == a.(curKeepalive := r.0.curKeepalive, curHold := r.0.curHold)
    ensures r.1 == ch.(timers := r.1.timers)
  {
    if a.holdTime != FAR_FUTURE then
      (a.(curKeepalive := a.keepaliveTime, curHold := a.holdTime),
       ch.Command(KeepaliveTimer, Reset(a.keepaliveTime)).Command(HoldTimer, Reset(a.holdTime)))
    else
      (a.(curKeepalive := if otherwise == Stop then FAR_FUTURE else a.curKeepalive, curHold := FAR_FUTURE),
       ch.Command(KeepaliveTimer, otherwise).Command(HoldTimer, Stop))
  }

  function StopConnectRetry(a: Attr): Attr {
    a.(curConnectRetry := FAR_FUTURE)
  }

  function StopDelayOpen(a: Attr): Attr {
    a.(curDelayOpen := FAR_FUTURE)
  }

  function CountRetry(a: Attr): Attr {
    a.(counter := a.counter + 1)
  }

  /** Stops the connect-retry timer and goes to Idle. */
  function Quit(s: State, ch: Channels): Step
  {
    var (t, ch') := IntoIdle(s.(attr := StopConnectRetry(s.attr)), ch.Command(ConnectRetryTimer, Stop));
    Next(t, ch')
  }

  /** Stops the connect-retry timer and then the delay-open timer, and goes to Idle. */
  function QuitBoth(s: State, ch: Channels): Step
  {
    var q := Quit(s, ch);
    Next(q.state.(attr := StopDelayOpen(q.state.attr)), q.ch.Command(DelayOpenTimer, Stop))
  }

  /** Sends a NOTIFICATION on the connection, then quits. */
  function NotifyAndQuit(s: State, m: Message, ch: Channels): Step
  {
    if s.out.None? then Stuck else Quit(s, ch.Put(s.out.value, m))
  }

  /** Starts serving connection `c` in place of whatever was there. */
  function Attach(s: State, c: ConnId, remoteSyn: bool, ch: Channels): (State, Channels)
  {
    (s.(conn := Some(c), out := Some(c)),
     ch.Close(Only(s.conn) + Only(s.out)).Spawn(Serve(c, remoteSyn)))
  }

  /** Entering OpenSent when the delay-open timer has expired. */
  function OpenAfterDelay(conf: Conf, s: State, ch: Channels): Step
  {
    if s.out.None? then Stuck
    else Next(s.(localOpen := Some(LocalOpen(conf))), ch.Put(s.out.value, Open(LocalOpen(conf))))
  }

  /** Answering an OPEN that arrived while the local OPEN was still held back. */
  function ConfirmDelayed(conf: Conf, s: State, msg: OpenMsg, ch: Channels, otherwise: Operation): Step
  {
    if s.out.None? then Stuck else
    var hold := Negotiated(LocalOpen(conf), msg);
    var (a, ch') := StartTimers(
      s.attr.(holdTime := hold, keepaliveTime := KeepaliveFor(hold)),
      ch.Put(s.out.value, Open(LocalOpen(conf))).Put(s.out.value, Keepalive), otherwise);
    Next(s.(attr := a, peerOpen := Some(msg), localOpen := Some(LocalOpen(conf))), ch')
  }

  function StartRetry(a: Attr): Attr {
    a.(counter := 0, curConnectRetry := DFLT_CONNECT)
  }

  // ---------------------------------------------------------------- Idle

  function StepIdle(s: State, e: Event, ch: Channels): Step
  {
    match e
    case ManualStart | AutomaticStart =>
      Next(IdleIntoConnect(s).(attr := StartRetry(s.attr), dialing := true),
           ch.Command(ConnectRetryTimer, Reset(DFLT_CONNECT)).Spawn(Dial))
    case ManualStartPassive | AutomaticStartPassive =>
      Next(IdleIntoActive(s).(attr := StartRetry(s.attr)), ch.Command(ConnectRetryTimer, Reset(DFLT_CONNECT)))
    case _ =>
      Next(s, ch.Close(Carried(e)))
  }

  // ---------------------------------------------------------------- Connect

  function StepConnect(conf: Conf, s: State, e: Event, ch: Channels): Step
  {
    match e
    case ManualStop =>
      Quit(s.(attr := s.attr.(counter := 0)), ch)
    case ConnectRetryExpires =>
      Redial(s, ch)
    case DelayOpenExpires =>
      ConnectDelayOver(conf, s, ch)
    case TcpConnectionValid | TcpCRInvalid =>
      Next(s, ch)
    case TcpCRAcked(c) =>
      ConnectAttach(conf, s, c, false, ch)
    case TcpConnectionConfirmed(c) =>
      ConnectAttach(conf, s, c, true, ch)
    case TcpConnectionFails =>
      ConnectFails(s, ch)
    case BgpOpenDelayed(msg, _) =>
      ConnectConfirm(conf, s, msg, ch)
    case BgpHeaderErr(err) =>
      QuitOnOpenError(s, err, ch)
    case BgpOpenMsgErr(err) =>
      QuitOnOpenError(s, err, ch)
    case NotifyMsgVerErr =>
      QuitOnVersionError(s, ch)
    case _ =>
      ConnectGiveUp(s, e, ch)
  }

  /** The conversion into OpenSent drops the sender the OPEN was to be sent on. */
  function ConnectDelayOver(conf: Conf, s: State, ch: Channels): Step {
    var (t, ch') := ConnectIntoOpenSent(s, ch);
    OpenAfterDelay(conf, t, ch')
  }

  function ConnectConfirm(conf: Conf, s: State, msg: OpenMsg, ch: Channels): Step {
    ConfirmDelayed(conf, ConnectIntoOpenConfirm(s.(attr := StopDelayOpen(StopConnectRetry(s.attr)))), msg,
                   ch.Command(ConnectRetryTimer, Stop).Command(DelayOpenTimer, Stop), Restart)
  }

  function ConnectGiveUp(s: State, e: Event, ch: Channels): Step {
    QuitBoth(s.(attr := CountRetry(s.attr)), ch.Close(Carried(e)))
  }

  /** The connect-retry timer in Connect: the attempt is started over. */
  function Redial(s: State, ch: Channels): Step {
    Next(s.(attr := StopDelayOpen(s.attr), dialing := true),
         (if s.dialing then ch.Spawn(HangUp) else ch)
         .Command(ConnectRetryTimer, Restart).Command(DelayOpenTimer, Stop).Spawn(Dial))
  }

  /** A TCP connection in Connect, from either side. With a delayed OPEN, the arm for the peer's side
      sets the timer and leaves `curDelayOpen` as it was; without, the connection is lost on the way
      into OpenSent. */
  function ConnectAttach(conf: Conf, s: State, c: ConnId, remoteSyn: bool, ch: Channels): Step {
    var u := s.(attr := StopConnectRetry(s.attr.(counter := 0)));
    var (t, ch') := Attach(u, c, remoteSyn, ch.Command(ConnectRetryTimer, Stop));
    if s.attr.opts.delayOpen then
      Next(t.(attr := t.attr.(curDelayOpen := if remoteSyn then s.attr.curDelayOpen else s.attr.opts.delayOpenTime)),
           ch'.Command(DelayOpenTimer, Reset(s.attr.opts.delayOpenTime)))
    else
      var (w, ch'') := ConnectIntoOpenSent(t, ch'.Put(c, Open(LocalOpen(conf))));
      Next(w.(remoteSyn := remoteSyn), ch'')
  }

  function ConnectFails(s: State, ch: Channels): Step {
    if s.attr.curDelayOpen == FAR_FUTURE then
      Quit(s, ch)
    else
      var (t, ch') := ConnectIntoActive(s, ch.Command(ConnectRetryTimer, Restart).Command(DelayOpenTimer, Stop));
      Next(t.(attr := StopDelayOpen(t.attr)), ch')
  }

  /** A bad header or OPEN in Connect or Active. */
  function QuitOnOpenError(s: State, err: Error, ch: Channels): Step
  {
    var t := s.(attr := CountRetry(s.attr));
    if s.attr.opts.notifyWithoutOpen then NotifyAndQuit(t, NoteFrom(err), ch) else Quit(t, ch)
  }

  /** A version error in Connect or Active: it is the hold timer that decides about the delay-open timer. */
  function QuitOnVersionError(s: State, ch: Channels): Step
  {
    if s.attr.curHold != FAR_FUTURE then
      QuitBoth(s, ch)
    else
      Quit(s.(attr := CountRetry(s.attr)), ch)
  }

  // ---------------------------------------------------------------- Active

  predicate StartEvent(e: Event) {
    || e == ManualStart
    || e == AutomaticStart
    || e == ManualStartPassive
    || e == AutomaticStartPassive
    || e == AutomaticStartDamped
    || e == AutomaticStartDampedPassive
  }

  function StepActive(conf: Conf, s: State, e: Event, ch: Channels): Step
  {
    if StartEvent(e) then Next(s, ch) else
    match e
    case ManualStop =>
      StopActive(s, ch)
    case ConnectRetryExpires =>
      DialFromActive(s, ch)
    case DelayOpenExpires =>
      ActiveDelayOver(conf, s, ch)
    case TcpConnectionValid | TcpCRInvalid =>
      Next(s, ch)
    case TcpCRAcked(c) =>
      ActiveAttach(conf, s, c, false, ch)
    case TcpConnectionConfirmed(c) =>
      ActiveAttach(conf, s, c, true, ch)
    case TcpConnectionFails =>
      ActiveFails(s, ch)
    case BgpOpenDelayed(msg, _) =>
      ActiveConfirm(conf, s, msg, ch)
    case BgpHeaderErr(err) =>
      QuitOnOpenError(s, err, ch)
    case BgpOpenMsgErr(err) =>
      QuitOnOpenError(s, err, ch)
    case NotifyMsgVerErr =>
      QuitOnVersionError(s, ch)
    case _ =>
      ActiveGiveUp(s, e, ch)
  }

  function DialFromActive(s: State, ch: Channels): Step {
    Next(ActiveIntoConnect(s).(dialing := true), ch.Command(ConnectRetryTimer, Restart).Spawn(Dial))
  }

  function ActiveDelayOver(conf: Conf, s: State, ch: Channels): Step {
    OpenAfterDelay(conf, ActiveIntoOpenSent(s.(attr := StopDelayOpen(StopConnectRetry(s.attr)))),
                   ch.Command(ConnectRetryTimer, Stop).Command(DelayOpenTimer, Stop))
  }

  function ActiveFails(s: State, ch: Channels): Step {
    var (t, ch') := IntoIdle(s.(attr := CountRetry(StopDelayOpen(s.attr))),
                             ch.Command(ConnectRetryTimer, Restart).Command(DelayOpenTimer, Stop));
    Next(t, ch')
  }

  function ActiveConfirm(conf: Conf, s: State, msg: OpenMsg, ch: Channels): Step {
    ConfirmDelayed(conf, ActiveIntoOpenConfirm(s.(attr := StopDelayOpen(StopConnectRetry(s.attr)))), msg,
                   ch.Command(ConnectRetryTimer, Stop).Command(DelayOpenTimer, Stop), Stop)
  }

  function ActiveGiveUp(s: State, e: Event, ch: Channels): Step {
    Quit(s.(attr := CountRetry(s.attr)), ch.Close(Carried(e)))
  }

  function StopActive(s: State, ch: Channels): Step {
    var t := s.(attr := s.attr.(counter := 0));
    if s.attr.curHold != FAR_FUTURE then
      var u := t.(attr := StopDelayOpen(t.attr));
      var ch' := ch.Command(DelayOpenTimer, Stop);
      if s.attr.opts.notifyWithoutOpen then NotifyAndQuit(u, NoteOf(Cease), ch') else Quit(u, ch')
    else
      Quit(t, ch)
  }

  /** A TCP connection in Active, from either side. */
  function ActiveAttach(conf: Conf, s: State, c: ConnId, remoteSyn: bool, ch: Channels): Step
  {
    var u := s.(attr := StopConnectRetry(s.attr.(counter := 0)));
    var (t, ch') := Attach(u, c, remoteSyn, ch.Command(ConnectRetryTimer, Stop));
    if s.attr.opts.delayOpen then
      Next(t.(attr := t.attr.(curDelayOpen := s.attr.opts.delayOpenTime)),
           ch'.Command(DelayOpenTimer, Reset(s.attr.opts.delayOpenTime)))
    else
      Next(ActiveIntoOpenSent(t).(remoteSyn := remoteSyn), ch'.Put(c, Open(LocalOpen(conf))))
  }

  // ---------------------------------------------------------------- OpenSent, OpenConfirm, Established

  /** Keeps a second connection for collision detection, dropping the one kept before. */
  function KeepColliding(s: State, c: ConnId, ch: Channels): Step
  {
    Next(s.(collision := Some(c)), ch.Close(Only(s.collision)))
  }

  /** Puts the kept second connection in the place of the current one. */
  function TakeOver(s: State, remoteSyn: bool, ch: Channels): Step
  {
    if s.collision.None? then Stuck else
    var (t, ch') := Attach(s.(collision := None), s.collision.value, remoteSyn, ch);
    Next(t, ch')
  }

  function DropColliding(s: State, ch: Channels): Step
  {
    Next(s.(collision := None), ch.Close(Only(s.collision)))
  }

  /** Collision detection in OpenSent, when an OPEN arrives on the other connection. */
  function ResolveInOpenSent(conf: Conf, s: State, msg: OpenMsg, remoteSyn: bool, ch: Channels): Step
  {
    if s.remoteSyn == remoteSyn then Next(s, ch)
    else if s.localOpen.None? then Stuck
    else if !Below(s.localOpen.value.bgpIdentifier, msg.bgpIdentifier) then DropColliding(s, ch)
    else if s.out.None? then Stuck
    else
      var r := TakeOver(s, remoteSyn, ch.Put(s.out.value, NoteOf(Cease)));
      if r.Stuck? || !remoteSyn then r
      else r.(ch := r.ch.Put(s.collision.value, Open(LocalOpen(conf))))
  }

  function OpenSentFails(s: State, ch: Channels): Step {
    var (t, ch') := OpenSentIntoActive(s, ch.Command(ConnectRetryTimer, Restart));
    Next(t, ch')
  }

  /** A bad header or OPEN counts only when it came over the current connection. */
  function QuitOnBadMessage(s: State, err: Error, src: Source, ch: Channels): Step {
    if src == FromBgp then NotifyAndQuit(s.(attr := CountRetry(s.attr)), NoteFrom(err), ch) else Next(s, ch)
  }

  function ConfirmOpen(conf: Conf, s: State, msg: OpenMsg, remoteSyn: bool, ch: Channels): Step
  {
    var r := ResolveInOpenSent(conf, s, msg, remoteSyn, ch);
    if r.Stuck? || s.localOpen.None? then Stuck else
    var t := OpenSentIntoOpenConfirm(r.state.(attr := StopConnectRetry(StopDelayOpen(s.attr))));
    var (a, ch') := StartTimers(
      t.attr.(holdTime := Negotiated(s.localOpen.value, msg)),
      r.ch.Command(DelayOpenTimer, Stop).Command(ConnectRetryTimer, Stop), Restart);
    Next(t.(attr := a, peerOpen := Some(msg)), ch')
  }

  function StepOpenSent(conf: Conf, s: State, e: Event, src: Source, ch: Channels): Step
  {
    if StartEvent(e) then Next(s, ch) else
    match e
    case ManualStop =>
      NotifyAndQuit(s.(attr := s.attr.(counter := 0)), NoteOf(Cease), ch)
    case AutomaticStop =>
      NotifyAndQuit(s.(attr := CountRetry(s.attr)), NoteOf(Cease), ch)
    case HoldExpires =>
      NotifyAndQuit(s.(attr := CountRetry(s.attr)), NoteOf(HoldTimerExpired), ch)
    case TcpConnectionValid | TcpCRInvalid =>
      Next(s, ch)
    case TcpCRAcked(c) =>
      Next(s, ch.ReadOpenFrom(c))
    case TcpConnectionConfirmed(c) =>
      KeepColliding(s, c, ch)
    case ProcessOneDone(c) =>
      KeepColliding(s, c, ch)
    case TcpConnectionFails =>
      OpenSentFails(s, ch)
    case BgpOpen(msg, remoteSyn) =>
      ConfirmOpen(conf, s, msg, remoteSyn, ch)
    case BgpHeaderErr(err) =>
      QuitOnBadMessage(s, err, src, ch)
    case BgpOpenMsgErr(err) =>
      QuitOnBadMessage(s, err, src, ch)
    case NotifyMsgVerErr =>
      Quit(s, ch)
    case _ =>
      NotifyAndQuit(s, NoteOf(FiniteStateMachineError), ch)
  }

  function ResolveInOpenConfirm(s: State, msg: OpenMsg, remoteSyn: bool, ch: Channels): Step {
    if s.remoteSyn == remoteSyn || s.localOpen.None? then Stuck
    else if Below(s.localOpen.value.bgpIdentifier, msg.bgpIdentifier) then TakeOver(s, remoteSyn, ch)
    else DropColliding(s, ch)
  }

  function ResolveInEstablished(s: State, msg: OpenMsg, remoteSyn: bool, ch: Channels): Step {
    if s.remoteSyn == remoteSyn then Stuck
    else if !s.attr.opts.collisionDetectEstablished then DropColliding(s, ch)
    else if s.localOpen.None? then Stuck
    else if !Below(s.localOpen.value.bgpIdentifier, msg.bgpIdentifier) then DropColliding(s, ch)
    else if s.out.None? then Stuck
    else TakeOver(s, remoteSyn, ch.Put(s.out.value, NoteOf(Cease)))
  }

  function StepOpenConfirm(s: State, e: Event, src: Source, ch: Channels): Step
  {
    if StartEvent(e) then Next(s, ch) else
    match e
    case ManualStop =>
      NotifyAndQuit(s.(attr := s.attr.(counter := 0)), NoteOf(Cease), ch)
    case AutomaticStop =>
      NotifyAndQuit(s.(attr := CountRetry(s.attr)), NoteOf(Cease), ch)
    case HoldExpires =>
      NotifyAndQuit(s.(attr := CountRetry(s.attr)), NoteOf(HoldTimerExpired), ch)
    case KeepaliveExpires =>
      if s.out.None? then Stuck
      else Next(s, ch.Put(s.out.value, Keepalive).Command(KeepaliveTimer, Restart))
    case TcpConnectionValid | TcpCRInvalid | OpenCollisionDump =>
      Next(s, ch)
    case TcpCRAcked(c) =>
      Next(s, ch.ReadOpenFrom(c))
    case TcpConnectionConfirmed(c) =>
      KeepColliding(s, c, ch)
    case ProcessOneDone(c) =>
      KeepColliding(s, c, ch)
    case TcpConnectionFails =>
      Quit(s.(attr := CountRetry(s.attr)), ch)
    case NotifyMsgVerErr =>
      Quit(s, ch)
    case BgpOpen(msg, remoteSyn) =>
      ResolveInOpenConfirm(s, msg, remoteSyn, ch)
    case BgpHeaderErr(err) =>
      QuitOnBadMessage(s, err, src, ch)
    case BgpOpenMsgErr(err) =>
      QuitOnBadMessage(s, err, src, ch)
    case KeepaliveReceived =>
      Next(OpenConfirmIntoEstablished(s), ch.Command(HoldTimer, Restart))
    case _ =>
      NotifyAndQuit(s.(attr := CountRetry(s.attr)), NoteOf(FiniteStateMachineError), ch)
  }

  function StepEstablished(s: State, e: Event, ch: Channels): Step
  {
    if StartEvent(e) then Next(s, ch) else
    match e
    case ManualStop =>
      NotifyAndQuit(s.(attr := s.attr.(counter := 0)), NoteOf(Cease), ch)
    case AutomaticStop =>
      NotifyAndQuit(s.(attr := CountRetry(s.attr)), NoteOf(Cease), ch)
    case HoldExpires =>
      NotifyAndQuit(s.(attr := CountRetry(s.attr)), NoteOf(HoldTimerExpired), ch)
    case KeepaliveExpires =>
      if s.out.None? then Stuck
      else
        var ch' := ch.Put(s.out.value, Keepalive);
        Next(s, if s.attr.holdTime != FAR_FUTURE then ch'.Command(KeepaliveTimer, Restart) else ch')
    case TcpConnectionValid | TcpCRInvalid =>
      Next(s, ch)
    case TcpCRAcked(c) =>
      Next(s, ch.ReadOpenFrom(c))
    case TcpConnectionConfirmed(c) =>
      KeepColliding(s, c, ch)
    case ProcessOneDone(c) =>
      KeepColliding(s, c, ch)
    case BgpOpen(msg, remoteSyn) =>
      ResolveInEstablished(s, msg, remoteSyn, ch)
    case NotifyMsgVerErr | NotifyMsg | TcpConnectionFails =>
      Quit(s.(attr := CountRetry(s.attr)), ch)
    case KeepaliveReceived | UpdateReceived =>
      Next(s, ch.Command(HoldTimer, Restart))
    case UpdateMsgErr(err) =>
      NotifyAndQuit(s.(attr := CountRetry(s.attr)), NoteFrom(err), ch)
    case _ =>
      NotifyAndQuit(s.(attr := CountRetry(s.attr)), NoteOf(FiniteStateMachineError), ch)
  }

  // ---------------------------------------------------------------- any state

  /** An OPEN that comes in over the admin channel is renamed while the delay-open timer runs. */
  function Renamed(s: State, e: Event, src: Source): Event {
    if src == FromAdmin && e.BgpOpen? && s.attr.curDelayOpen != FAR_FUTURE
    then BgpOpenDelayed(e.msg, e.remoteSyn) else e
  }

  function React(conf: Conf, s: State, e: Event, src: Source, ch: Channels): Step {
    match s.phase
    case Idle => StepIdle(s, e, ch)
    case Connect => StepConnect(conf, s, e, ch)
    case Active => StepActive(conf, s, e, ch)
    case OpenSent => StepOpenSent(conf, s, e, src, ch)
    case OpenConfirm => StepOpenConfirm(s, e, src, ch)
    case Established => StepEstablished(s, e, ch)
  }
}
