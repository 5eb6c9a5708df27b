/** The data of `src/fsm.rs`: attributes, states, events and timers, and the conversions between
    states with what each carries over and what it gives up. */
module Fsm {
  import opened Basics
  import opened Errors
  import opened Message

  // ---------------------------------------------------------------- time

  /** Nanoseconds, as `core::time::Duration` counts them. */
  type Duration = nat

  const SECOND: Duration := 1_000_000_000
  const FAR_FUTURE: Duration := 86400 * 365 * 30 * SECOND
  const DFLT_CONNECT: Duration := 10 * SECOND
  const DFLT_HOLD: Duration := 9 * SECOND
  const DFLT_KEEPALIVE: Duration := 3 * SECOND
  const DFLT_KEEPALIVE_FACTOR: nat := 3

  datatype TimerKind = ConnectRetryTimer | HoldTimer | KeepaliveTimer | DelayOpenTimer | IdleHoldTimer

  datatype Operation = Stop | Restart | Reset(duration: Duration)

  datatype Timer = Timer(kind: TimerKind, op: Operation)

  // ---------------------------------------------------------------- events

  /** A TCP connection, with the `BgpConn` around it once there is one. */
  type ConnId = nat

  datatype Event =
    | ManualStart
    | ManualStop
    | AutomaticStart
    | ManualStartPassive
    | AutomaticStartPassive
    | AutomaticStartDamped
    | AutomaticStartDampedPassive
    | AutomaticStop
    | ConnectRetryExpires
    | HoldExpires
    | KeepaliveExpires
    | DelayOpenExpires
    | IdleHoldExpires
    | TcpConnectionValid
    | TcpCRInvalid
    | TcpCRAcked(conn: ConnId)
    | TcpConnectionConfirmed(conn: ConnId)
    | TcpConnectionFails
    | BgpOpen(msg: OpenMsg, remoteSyn: bool)
    | BgpOpenDelayed(msg: OpenMsg, remoteSyn: bool)
    | BgpHeaderErr(err: Error)
    | BgpOpenMsgErr(err: Error)
    | OpenCollisionDump
    | NotifyMsgVerErr
    | NotifyMsg
    | KeepaliveReceived
    | UpdateReceived
    | UpdateMsgErr(err: Error)
    | ProcessOneDone(conn: ConnId)

  /** The channel an event was taken from. */
  datatype Source = FromAdmin | FromTcp | FromBgp | FromColl | FromTimer

  function Expiry(kind: TimerKind): Event {
    match kind
    case ConnectRetryTimer => ConnectRetryExpires
    case HoldTimer => HoldExpires
    case KeepaliveTimer => KeepaliveExpires
    case DelayOpenTimer => DelayOpenExpires
    case IdleHoldTimer => IdleHoldExpires
  }

  /** The connection an event hands over. */
  function Carried(e: Event): set<ConnId> {
    if e.TcpCRAcked? || e.TcpConnectionConfirmed? || e.ProcessOneDone? then {e.conn} else {}
  }

  // ---------------------------------------------------------------- states

  /** The attributes nothing assigns after `SessionAttributes::new`. */
  datatype Options = Options(
    delayOpen: bool, delayOpenTime: Duration, notifyWithoutOpen: bool, collisionDetectEstablished: bool)

  datatype Attr = Attr(
    opts: Options, counter: nat, holdTime: Duration, keepaliveTime: Duration,
    curConnectRetry: Duration, curHold: Duration, curKeepalive: Duration, curDelayOpen: Duration)

  datatype Phase = Idle | Connect | Active | OpenSent | OpenConfirm | Established

  /** The six state structs in one record: a field that the struct of the phase does not have is
      empty (`Bare` below). `conn` is the task a connection was given to and `out` the sender of that
      task's outbound channel, both named by the connection; `dialing` is a held `tcp_conn_handle`. */
  datatype State = State(
    phase: Phase, attr: Attr, dialing: bool, conn: Option<ConnId>, out: Option<ConnId>,
    localOpen: Option<OpenMsg>, peerOpen: Option<OpenMsg>, remoteSyn: bool, collision: Option<ConnId>)
  {
    /** The states in which a second connection is kept for collision detection. */
    predicate Colliding() {
      phase.OpenSent? || phase.OpenConfirm? || phase.Established?
    }

    /** The phase's own struct has no more fields than these. */
    predicate Bare() {
      && (phase.Idle? ==> conn.None? && out.None?)
      && (dialing ==> phase.Connect? || phase.Active?)
      && (!Colliding() ==> localOpen.None? && peerOpen.None? && !remoteSyn && collision.None?)
      && (phase.OpenSent? ==> peerOpen.None?)
    }
  }

  /** A state with nothing but its attributes. */
  function Fresh(phase: Phase, attr: Attr): State {
    State(phase, attr, false, None, None, None, None, false, None)
  }

  function NewSession(opts: Options): State {
    Fresh(Idle, Attr(opts, 0, DFLT_HOLD, DFLT_KEEPALIVE, FAR_FUTURE, FAR_FUTURE, FAR_FUTURE, FAR_FUTURE))
  }

  // ---------------------------------------------------------------- what a session emits

  datatype Task =
    | Dial
    | HangUp
    | Serve(conn: ConnId, remoteSyn: bool)

  /** Everything a session has put on its channels and handed to other tasks: the timer commands of
      the arm being run, the messages put on each connection's outbound channel, the connections
      given up, those being read for an OPEN by `process_one`, and the other tasks started. */
  datatype Channels = Channels(
    timers: seq<Timer>, log: map<ConnId, seq<Message>>, closed: set<ConnId>, opening: set<ConnId>, tasks: seq<Task>)
  {
    function LogOf(c: ConnId): seq<Message> {
      if c in log then log[c] else []
    }

    function Command(kind: TimerKind, op: Operation): Channels {
      this.(timers := timers + [Timer(kind, op)])
    }

    function Put(c: ConnId, m: Message): Channels {
      this.(log := log[c := LogOf(c) + [m]])
    }

    function Close(cs: set<ConnId>): Channels {
      this.(closed := closed + cs)
    }

    function ReadOpenFrom(c: ConnId): Channels {
      this.(opening := opening + {c})
    }

    function Spawn(t: Task): Channels {
      this.(tasks := tasks + [t])
    }
  }

  const NO_OUTPUT := Channels([], map[], {}, {}, [])

  function Only(o: Option<ConnId>): set<ConnId> {
    if o.Some? then {o.value} else {}
  }

  /** The connections a state owns. */
  function Held(s: State): set<ConnId> {
    Only(s.conn) + Only(s.out) + Only(s.collision)
  }

  // ---------------------------------------------------------------- conversions

  function IdleIntoConnect(s: State): State {
    Fresh(Connect, s.attr)
  }

  function IdleIntoActive(s: State): State {
    Fresh(Active, s.attr)
  }

  /** Every conversion into Idle aborts the connection's task and drops the rest; only the one from
      Connect also aborts the connection attempt. */
  function IntoIdle(s: State, ch: Channels): (State, Channels) {
    (Fresh(Idle, s.attr), (if s.phase.Connect? && s.dialing then ch.Spawn(HangUp) else ch).Close(Held(s)))
  }

  function ConnectIntoActive(s: State, ch: Channels): (State, Channels) {
    (Fresh(Active, s.attr).(conn := s.conn, out := s.out), if s.dialing then ch.Spawn(HangUp) else ch)
  }

  /** Drops the connection together with its sender. */
  function ConnectIntoOpenSent(s: State, ch: Channels): (State, Channels) {
    (Fresh(OpenSent, s.attr), ch.Close(Held(s)))
  }

  function ConnectIntoOpenConfirm(s: State): State {
    Fresh(OpenConfirm, s.attr).(conn := s.conn, out := s.out)
  }

  function ActiveIntoConnect(s: State): State {
    Fresh(Connect, s.attr).(dialing := s.dialing, conn := s.conn, out := s.out)
  }

  function ActiveIntoOpenSent(s: State): State {
    Fresh(OpenSent, s.attr).(conn := s.conn, out := s.out, remoteSyn := true)
  }

  function ActiveIntoOpenConfirm(s: State): State {
    Fresh(OpenConfirm, s.attr).(conn := s.conn, out := s.out, remoteSyn := true)
  }

  function OpenSentIntoActive(s: State, ch: Channels): (State, Channels) {
    (Fresh(Active, s.attr), ch.Close(Held(s)))
  }

  function OpenSentIntoOpenConfirm(s: State): State {
    s.(phase := OpenConfirm, peerOpen := None)
  }

  function OpenConfirmIntoEstablished(s: State): State {
    s.(phase := Established)
  }
}
