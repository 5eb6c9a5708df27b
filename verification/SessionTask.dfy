/** The session task of `src/session.rs`: the loop of `run` over a mutable session, written arm by
    arm in the order the source sends and assigns, and proved to do what `Session` says. */
module SessionTask {
  import opened Basics
  import opened Errors
  import opened Message
  import opened Fsm
  import opened Session
  import opened SessionInvariant
  import opened SessionEffects
  import opened SessionSound

  class Task {
    const conf: Conf
    var session: State
    var timerCtr: seq<Timer>
    var outbound: map<ConnId, seq<Message>>
    var closed: set<ConnId>
    var opening: set<ConnId>
    var spawned: seq<Fsm.Task>

    /** What has been put on the channels and handed to other tasks so far. */
    function Emitted(): Channels
      reads this
    {
      Channels(timerCtr, outbound, closed, opening, spawned)
    }

    /** The outcome of an arm that leaves the task as it now is, or panicked. */
    function Result(alive: bool): Step
      reads this
    {
      if alive then Next(session, Emitted()) else Stuck
    }

    /** The invariant of the session, which every turn of the loop keeps. */
    ghost predicate Valid()
      reads this
    {
      Invariant(conf, session)
    }

    constructor (conf: Conf, opts: Options)
      ensures Valid()
      ensures this.conf == conf && session == NewSession(opts) && Emitted() == NO_OUTPUT
    {
      this.conf := conf;
      session := NewSession(opts);
      timerCtr, outbound, closed, opening, spawned := [], map[], {}, {}, [];
    }

    // -------------------------------------------------------------- single effects

    method Command(kind: TimerKind, op: Operation)
      modifies this`timerCtr
      ensures Emitted() == old(Emitted()).Command(kind, op)
    {
      timerCtr := timerCtr + [Timer(kind, op)];
    }

    method Put(c: ConnId, m: Message)
      modifies this`outbound
      ensures Emitted() == old(Emitted()).Put(c, m)
    {
      if c !in outbound {
        outbound := outbound[c := [m]];
        assert outbound[c] == old(Emitted()).LogOf(c) + [m];
      } else {
        outbound := outbound[c := outbound[c] + [m]];
      }
    }

    method Drop(cs: set<ConnId>)
      modifies this`closed
      ensures Emitted() == old(Emitted()).Close(cs)
    {
      closed := closed + cs;
    }

    method Spawn(t: Fsm.Task)
      modifies this`spawned
      ensures Emitted() == old(Emitted()).Spawn(t)
    {
      spawned := spawned + [t];
    }

    /** Sends on the current connection, which has to be there. */
    method Say(m: Message) returns (alive: bool)
      modifies this`outbound
      ensures alive == session.out.Some?
      ensures alive ==> Emitted() == old(Emitted()).Put(session.out.value, m)
    {
      if session.out.None? {
        return false;
      }
      Put(session.out.value, m);
      alive := true;
    }

    method HaltConnectRetry()
      modifies this`session, this`timerCtr
      ensures session == old(session).(attr := StopConnectRetry(old(session.attr)))
      ensures Emitted() == old(Emitted()).Command(ConnectRetryTimer, Stop)
    {
      Command(ConnectRetryTimer, Stop);
      session := session.(attr := session.attr.(curConnectRetry := FAR_FUTURE));
    }

    method HaltDelayOpen()
      modifies this`session, this`timerCtr
      ensures session == old(session).(attr := StopDelayOpen(old(session.attr)))
      ensures Emitted() == old(Emitted()).Command(DelayOpenTimer, Stop)
    {
      Command(DelayOpenTimer, Stop);
      session := session.(attr := session.attr.(curDelayOpen := FAR_FUTURE));
    }

    method SetCounter(n: nat)
      modifies this`session
      ensures session == old(session).(attr := old(session.attr).(counter := n))
    {
      session := session.(attr := session.attr.(counter := n));
    }

    method GoIdle()
      modifies this`session, this`spawned, this`closed
      ensures (session, Emitted()) == IntoIdle(old(session), old(Emitted()))
    {
      if session.phase.Connect? && session.dialing {
        Spawn(HangUp);
      }
      Drop(Held(session));
      session := Fresh(Idle, session.attr);
    }

    /** Stops the connect-retry timer and goes to Idle. */
    method Retire()
      modifies this
      ensures Result(true) == Quit(old(session), old(Emitted()))
    {
      HaltConnectRetry();
      GoIdle();
    }

    method RetireAt(counter: nat)
      modifies this
      ensures Result(true) == Quit(old(session).(attr := old(session.attr).(counter := counter)), old(Emitted()))
    {
      HaltConnectRetry();
      SetCounter(counter);
      GoIdle();
    }

    /** Gives connection `c` to a new `process` task and keeps its handle and sender. */
    method Serve(c: ConnId, remoteSyn: bool)
      modifies this`session, this`spawned, this`closed
      ensures (session, Emitted()) == Attach(old(session), c, remoteSyn, old(Emitted()))
    {
      Drop(Only(session.conn) + Only(session.out));
      Spawn(Fsm.Serve(c, remoteSyn));
      session := session.(conn := Some(c), out := Some(c));
    }

    // -------------------------------------------------------------- Idle

    method HandleIdle(e: Event) returns (alive: bool)
      modifies this
      ensures Result(alive) == StepIdle(old(session), e, old(Emitted()))
    {
      alive := true;
      match e {
        case ManualStart | AutomaticStart =>
          session := IdleIntoConnect(session);
          SetCounter(0);
          Command(ConnectRetryTimer, Reset(DFLT_CONNECT));
          session := session.(attr := session.attr.(curConnectRetry := DFLT_CONNECT));
          Spawn(Dial);
          session := session.(dialing := true);
        case ManualStartPassive | AutomaticStartPassive =>
          session := IdleIntoActive(session);
          SetCounter(0);
          Command(ConnectRetryTimer, Reset(DFLT_CONNECT));
          session := session.(attr := session.attr.(curConnectRetry := DFLT_CONNECT));
        case _ =>
          Drop(Carried(e));
      }
    }

    // -------------------------------------------------------------- Connect

    method HandleConnect(e: Event) returns (alive: bool)
      modifies this
      ensures Result(alive) == StepConnect(conf, old(session), e, old(Emitted()))
    {
      hide Quit, Redial, ConnectAttach, ConnectFails, ConnectDelayOver, ConnectConfirm, ConnectGiveUp;
      hide QuitOnOpenError, QuitOnVersionError;
      var other := false;
      alive := true;
      match e {
        case ManualStop =>
          StopConnect();
        case ConnectRetryExpires =>
          DialAgain();
        case DelayOpenExpires =>
          alive := OpenFromConnect();
        case TcpConnectionValid | TcpCRInvalid =>
        case TcpCRAcked(c) =>
          ServeConnect(c, false);
        case TcpConnectionConfirmed(c) =>
          ServeConnect(c, true);
        case TcpConnectionFails =>
          FailConnect();
        case BgpOpenDelayed(msg, _) =>
          alive := ConfirmFromConnect(msg);
        case BgpHeaderErr(err) =>
          alive := RefuseOpen(err);
        case BgpOpenMsgErr(err) =>
          alive := RefuseOpen(err);
        case NotifyMsgVerErr =>
          RefuseVersion();
        case _ => other := true;
      }
      if other {
        GiveUpConnect(e);
      }
    }

    method StopConnect()
      modifies this
      ensures Result(true) == Quit(old(session).(attr := old(session.attr).(counter := 0)), old(Emitted()))
    {
      GoIdle();
      SetCounter(0);
      HaltConnectRetry();
    }

    method OpenFromConnect() returns (alive: bool)
      modifies this
      ensures Result(alive) == ConnectDelayOver(conf, old(session), old(Emitted()))
    {
      hide OpenAfterDelay;
      Drop(Held(session));
      session := Fresh(OpenSent, session.attr);
      alive := SendDelayedOpen();
    }

    method ConfirmFromConnect(msg: OpenMsg) returns (alive: bool)
      modifies this
      ensures Result(alive) == ConnectConfirm(conf, old(session), msg, old(Emitted()))
    {
      hide ConfirmDelayed;
      HaltConnectRetry();
      HaltDelayOpen();
      session := ConnectIntoOpenConfirm(session);
      alive := AnswerDelayedOpen(msg, Restart);
    }

    method GiveUpConnect(e: Event)
      modifies this
      ensures Result(true) == ConnectGiveUp(old(session), e, old(Emitted()))
    {
      Drop(Carried(e));
      HaltConnectRetry();
      HaltDelayOpen();
      SetCounter(session.attr.counter + 1);
      GoIdle();
    }

    method DialAgain()
      modifies this
      ensures Result(true) == Redial(old(session), old(Emitted()))
    {
      if session.dialing {
        Spawn(HangUp);
      }
      Command(ConnectRetryTimer, Restart);
      HaltDelayOpen();
      Spawn(Dial);
      session := session.(dialing := true);
    }

    method ServeConnect(c: ConnId, remoteSyn: bool)
      modifies this
      ensures Result(true) == ConnectAttach(conf, old(session), c, remoteSyn, old(Emitted()))
    {
      SetCounter(0);
      HaltConnectRetry();
      Serve(c, remoteSyn);
      if session.attr.opts.delayOpen {
        Command(DelayOpenTimer, Reset(session.attr.opts.delayOpenTime));
        if !remoteSyn {
          session := session.(attr := session.attr.(curDelayOpen := session.attr.opts.delayOpenTime));
        }
      } else {
        Put(c, Open(LocalOpen(conf)));
        Drop(Held(session));
        session := Fresh(OpenSent, session.attr).(remoteSyn := remoteSyn);
      }
    }

    method FailConnect()
      modifies this
      ensures Result(true) == ConnectFails(old(session), old(Emitted()))
    {
      if session.attr.curDelayOpen == FAR_FUTURE {
        Retire();
      } else {
        Command(ConnectRetryTimer, Restart);
        HaltDelayOpen();
        if session.dialing {
          Spawn(HangUp);
        }
        session := Fresh(Active, session.attr).(conn := session.conn, out := session.out);
      }
    }

    method SendDelayedOpen() returns (alive: bool)
      modifies this
      ensures Result(alive) == OpenAfterDelay(conf, old(session), old(Emitted()))
    {
      alive := Say(Open(LocalOpen(conf)));
      session := session.(localOpen := Some(LocalOpen(conf)));
    }

    /** Records both OPENs, answers with an OPEN and a KEEPALIVE, and negotiates the timers. */
    method AnswerDelayedOpen(msg: OpenMsg, otherwise: Operation) returns (alive: bool)
      modifies this
      ensures Result(alive) == ConfirmDelayed(conf, old(session), msg, old(Emitted()), otherwise)
    {
      hide StartTimers, Negotiated, KeepaliveFor;
      session := session.(peerOpen := Some(msg), localOpen := Some(LocalOpen(conf)));
      alive := Say(Open(session.localOpen.value));
      if !alive {
        return;
      }
      alive := Say(Keepalive);
      var hold := Negotiated(session.localOpen.value, session.peerOpen.value);
      session := session.(attr := session.attr.(holdTime := hold));
      session := session.(attr := session.attr.(keepaliveTime := KeepaliveFor(session.attr.holdTime)));
      RunTimers(otherwise);
    }

    method RunTimers(otherwise: Operation)
      modifies this
      ensures var (a, ch) := StartTimers(old(session.attr), old(Emitted()), otherwise);
        session == old(session).(attr := a) && Emitted() == ch
    {
      if session.attr.holdTime != FAR_FUTURE {
        Command(KeepaliveTimer, Reset(session.attr.keepaliveTime));
        session := session.(attr := session.attr.(curKeepalive := session.attr.keepaliveTime));
        Command(HoldTimer, Reset(session.attr.holdTime));
        session := session.(attr := session.attr.(curHold := session.attr.holdTime));
      } else {
        Command(KeepaliveTimer, otherwise);
        if otherwise == Stop {
          session := session.(attr := session.attr.(curKeepalive := FAR_FUTURE));
        }
        Command(HoldTimer, Stop);
        session := session.(attr := session.attr.(curHold := FAR_FUTURE));
      }
    }

    method RefuseOpen(err: Error) returns (alive: bool)
      modifies this
      ensures Result(alive) == QuitOnOpenError(old(session), err, old(Emitted()))
    {
      alive := true;
      if session.attr.opts.notifyWithoutOpen {
        alive := Say(NoteFrom(err));
        if !alive {
          return;
        }
      }
      RetireAt(session.attr.counter + 1);
    }

    method RefuseVersion()
      modifies this
      ensures Result(true) == QuitOnVersionError(old(session), old(Emitted()))
    {
      HaltConnectRetry();
      GoIdle();
      if session.attr.curHold != FAR_FUTURE {
        HaltDelayOpen();
      } else {
        SetCounter(session.attr.counter + 1);
      }
    }

    // -------------------------------------------------------------- Active

    method HandleActive(e: Event) returns (alive: bool)
      modifies this
      ensures Result(alive) == StepActive(conf, old(session), e, old(Emitted()))
    {
      hide DialFromActive, StopActive, ActiveAttach, ActiveDelayOver, ActiveConfirm, ActiveFails, ActiveGiveUp;
      hide QuitOnOpenError, QuitOnVersionError;
      var other := false;
      alive := true;
      match e {
        case ManualStart | AutomaticStart | ManualStartPassive | AutomaticStartPassive
           | AutomaticStartDamped | AutomaticStartDampedPassive =>
        case ManualStop =>
          alive := HaltActive();
        case ConnectRetryExpires =>
          DialNow();
        case DelayOpenExpires =>
          alive := OpenFromActive();
        case TcpConnectionValid | TcpCRInvalid =>
        case TcpCRAcked(c) =>
          ServeActive(c, false);
        case TcpConnectionConfirmed(c) =>
          ServeActive(c, true);
        case TcpConnectionFails =>
          FailActive();
        case BgpOpenDelayed(msg, _) =>
          alive := ConfirmFromActive(msg);
        case BgpHeaderErr(err) =>
          alive := RefuseOpen(err);
        case BgpOpenMsgErr(err) =>
          alive := RefuseOpen(err);
        case NotifyMsgVerErr =>
          RefuseVersion();
        case _ => other := true;
      }
      if other {
        GiveUpActive(e);
      }
    }

    method DialNow()
      modifies this
      ensures Result(true) == DialFromActive(old(session), old(Emitted()))
    {
      Command(ConnectRetryTimer, Restart);
      session := ActiveIntoConnect(session);
      Spawn(Dial);
      session := session.(dialing := true);
    }

    method OpenFromActive() returns (alive: bool)
      modifies this
      ensures Result(alive) == ActiveDelayOver(conf, old(session), old(Emitted()))
    {
      hide OpenAfterDelay;
      HaltConnectRetry();
      HaltDelayOpen();
      session := ActiveIntoOpenSent(session);
      alive := SendDelayedOpen();
    }

    method ConfirmFromActive(msg: OpenMsg) returns (alive: bool)
      modifies this
      ensures Result(alive) == ActiveConfirm(conf, old(session), msg, old(Emitted()))
    {
      hide ConfirmDelayed;
      HaltConnectRetry();
      HaltDelayOpen();
      session := ActiveIntoOpenConfirm(session);
      alive := AnswerDelayedOpen(msg, Stop);
    }

    method FailActive()
      modifies this
      ensures Result(true) == ActiveFails(old(session), old(Emitted()))
    {
      Command(ConnectRetryTimer, Restart);
      HaltDelayOpen();
      SetCounter(session.attr.counter + 1);
      GoIdle();
    }

    method GiveUpActive(e: Event)
      modifies this
      ensures Result(true) == ActiveGiveUp(old(session), e, old(Emitted()))
    {
      hide Quit;
      Drop(Carried(e));
      RetireAt(session.attr.counter + 1);
    }

    method HaltActive() returns (alive: bool)
      modifies this
      ensures Result(alive) == StopActive(old(session), old(Emitted()))
    {
      alive := true;
      if session.attr.curHold != FAR_FUTURE {
        HaltDelayOpen();
        if session.attr.opts.notifyWithoutOpen {
          alive := Say(NoteOf(Cease));
          if !alive {
            return;
          }
        }
      }
      RetireAt(0);
    }

    method ServeActive(c: ConnId, remoteSyn: bool)
      modifies this
      ensures Result(true) == ActiveAttach(conf, old(session), c, remoteSyn, old(Emitted()))
    {
      SetCounter(0);
      HaltConnectRetry();
      Serve(c, remoteSyn);
      if session.attr.opts.delayOpen {
        Command(DelayOpenTimer, Reset(session.attr.opts.delayOpenTime));
        session := session.(attr := session.attr.(curDelayOpen := session.attr.opts.delayOpenTime));
      } else {
        Put(c, Open(LocalOpen(conf)));
        session := ActiveIntoOpenSent(session).(remoteSyn := remoteSyn);
      }
    }

    // -------------------------------------------------------------- OpenSent, OpenConfirm, Established

    /** Sends `m` and retires. */
    method Leave(m: Message) returns (alive: bool)
      modifies this
      ensures Result(alive) == NotifyAndQuit(old(session), m, old(Emitted()))
    {
      alive := Say(m);
      if alive {
        Retire();
      }
    }

    method LeaveReset(m: Message) returns (alive: bool)
      modifies this
      ensures Result(alive) == NotifyAndQuit(old(session).(attr := old(session.attr).(counter := 0)), m, old(Emitted()))
    {
      alive := Say(m);
      if alive {
        RetireAt(0);
      }
    }

    method LeaveCounted(m: Message) returns (alive: bool)
      modifies this
      ensures Result(alive) == NotifyAndQuit(old(session).(attr := CountRetry(old(session.attr))), m, old(Emitted()))
    {
      alive := Say(m);
      if alive {
        RetireAt(session.attr.counter + 1);
      }
    }

    method RetireCounted()
      modifies this
      ensures Result(true) == Quit(old(session).(attr := CountRetry(old(session.attr))), old(Emitted()))
    {
      RetireAt(session.attr.counter + 1);
    }

    method SayKeepalive(restart: bool) returns (alive: bool)
      modifies this
      ensures Result(alive) == if old(session).out.None? then Stuck else
        var ch := old(Emitted()).Put(old(session).out.value, Keepalive);
        Next(old(session), if restart then ch.Command(KeepaliveTimer, Restart) else ch)
    {
      alive := Say(Keepalive);
      if restart {
        Command(KeepaliveTimer, Restart);
      }
    }

    method Keep(c: ConnId)
      modifies this
      ensures Result(true) == KeepColliding(old(session), c, old(Emitted()))
    {
      Drop(Only(session.collision));
      session := session.(collision := Some(c));
    }

    method ReadOpen(c: ConnId)
      modifies this
      ensures Result(true) == Next(old(session), old(Emitted()).ReadOpenFrom(c))
    {
      opening := opening + {c};
    }

    method DropCollision()
      modifies this
      ensures Result(true) == DropColliding(old(session), old(Emitted()))
    {
      Drop(Only(session.collision));
      session := session.(collision := None);
    }

    method Replace(remoteSyn: bool) returns (alive: bool)
      modifies this
      ensures Result(alive) == TakeOver(old(session), remoteSyn, old(Emitted()))
    {
      if session.collision.None? {
        return false;
      }
      var c := session.collision.value;
      session := session.(collision := None);
      Serve(c, remoteSyn);
      alive := true;
    }

    /** Collision detection in OpenSent. */
    method Resolve(msg: OpenMsg, remoteSyn: bool) returns (alive: bool)
      modifies this
      ensures Result(alive) == ResolveInOpenSent(conf, old(session), msg, remoteSyn, old(Emitted()))
    {
      hide Below;
      if session.remoteSyn == remoteSyn {
        return true;
      }
      if session.localOpen.None? {
        return false;
      }
      if !Below(session.localOpen.value.bgpIdentifier, msg.bgpIdentifier) {
        DropCollision();
        return true;
      }
      alive := Say(NoteOf(Cease));
      if !alive {
        return;
      }
      alive := Replace(remoteSyn);
      if alive && remoteSyn {
        alive := Say(Open(LocalOpen(conf)));
      }
    }

    method ResolveConfirmed(msg: OpenMsg, remoteSyn: bool) returns (alive: bool)
      modifies this
      ensures Result(alive) == ResolveInOpenConfirm(old(session), msg, remoteSyn, old(Emitted()))
    {
      hide Below;
      if session.remoteSyn == remoteSyn || session.localOpen.None? {
        return false;
      }
      if Below(session.localOpen.value.bgpIdentifier, msg.bgpIdentifier) {
        alive := Replace(remoteSyn);
      } else {
        DropCollision();
        alive := true;
      }
    }

    method ResolveEstablished(msg: OpenMsg, remoteSyn: bool) returns (alive: bool)
      modifies this
      ensures Result(alive) == ResolveInEstablished(old(session), msg, remoteSyn, old(Emitted()))
    {
      hide Below;
      if session.remoteSyn == remoteSyn {
        return false;
      }
      if session.attr.opts.collisionDetectEstablished {
        if session.localOpen.None? {
          return false;
        }
        if Below(session.localOpen.value.bgpIdentifier, msg.bgpIdentifier) {
          alive := Say(NoteOf(Cease));
          if alive {
            alive := Replace(remoteSyn);
          }
          return;
        }
      }
      DropCollision();
      alive := true;
    }

    method Confirm(msg: OpenMsg, remoteSyn: bool) returns (alive: bool)
      modifies this
      ensures Result(alive) == ConfirmOpen(conf, old(session), msg, remoteSyn, old(Emitted()))
    {
      hide StartTimers, Negotiated, Below;
      alive := Resolve(msg, remoteSyn);
      if !alive || session.localOpen.None? {
        return false;
      }
      HaltDelayOpen();
      HaltConnectRetry();
      session := OpenSentIntoOpenConfirm(session);
      session := session.(peerOpen := Some(msg));
      var hold := Negotiated(session.localOpen.value, session.peerOpen.value);
      session := session.(attr := session.attr.(holdTime := hold));
      RunTimers(Restart);
    }

    method FailOpenSent()
      modifies this
      ensures Result(true) == OpenSentFails(old(session), old(Emitted()))
    {
      Command(ConnectRetryTimer, Restart);
      Drop(Held(session));
      session := Fresh(Active, session.attr);
    }

    method RefuseMessage(err: Error, src: Source) returns (alive: bool)
      modifies this
      ensures Result(alive) == QuitOnBadMessage(old(session), err, src, old(Emitted()))
    {
      alive := true;
      if src == FromBgp {
        alive := LeaveCounted(NoteFrom(err));
      }
    }

    method HandleOpenSent(e: Event, src: Source) returns (alive: bool)
      modifies this
      ensures Result(alive) == StepOpenSent(conf, old(session), e, src, old(Emitted()))
    {
      hide Emitted, NoteOf, NoteFrom;
      hide ConfirmOpen, NotifyAndQuit, Quit, KeepColliding, CountRetry, OpenSentFails, QuitOnBadMessage;
      var other := false;
      alive := true;
      match e {
        case ManualStart | AutomaticStart | ManualStartPassive | AutomaticStartPassive
           | AutomaticStartDamped | AutomaticStartDampedPassive =>
        case ManualStop =>
          alive := LeaveReset(NoteOf(Cease));
        case AutomaticStop =>
          alive := LeaveCounted(NoteOf(Cease));
        case HoldExpires =>
          alive := LeaveCounted(NoteOf(HoldTimerExpired));
        case TcpConnectionValid | TcpCRInvalid =>
        case TcpCRAcked(c) =>
          ReadOpen(c);
        case TcpConnectionConfirmed(c) =>
          Keep(c);
        case ProcessOneDone(c) =>
          Keep(c);
        case TcpConnectionFails =>
          FailOpenSent();
        case BgpOpen(msg, remoteSyn) =>
          alive := Confirm(msg, remoteSyn);
        case BgpHeaderErr(err) =>
          alive := RefuseMessage(err, src);
        case BgpOpenMsgErr(err) =>
          alive := RefuseMessage(err, src);
        case NotifyMsgVerErr =>
          Retire();
        case _ => other := true;
      }
      if other {
        alive := Leave(NoteOf(FiniteStateMachineError));
      }
    }

    method Establish()
      modifies this
      ensures Result(true) == Next(OpenConfirmIntoEstablished(old(session)), old(Emitted()).Command(HoldTimer, Restart))
    {
      Command(HoldTimer, Restart);
      session := OpenConfirmIntoEstablished(session);
    }

    method HandleOpenConfirm(e: Event, src: Source) returns (alive: bool)
      modifies this
      ensures Result(alive) == StepOpenConfirm(old(session), e, src, old(Emitted()))
    {
      hide Emitted, NoteOf, NoteFrom;
      hide NotifyAndQuit, Quit, KeepColliding, ResolveInOpenConfirm, ResolveInEstablished, CountRetry, QuitOnBadMessage;
      var other := false;
      alive := true;
      match e {
        case ManualStart | AutomaticStart | ManualStartPassive | AutomaticStartPassive
           | AutomaticStartDamped | AutomaticStartDampedPassive =>
        case ManualStop =>
          alive := LeaveReset(NoteOf(Cease));
        case AutomaticStop =>
          alive := LeaveCounted(NoteOf(Cease));
        case HoldExpires =>
          alive := LeaveCounted(NoteOf(HoldTimerExpired));
        case KeepaliveExpires =>
          alive := SayKeepalive(true);
        case TcpConnectionValid | TcpCRInvalid | OpenCollisionDump =>
        case TcpCRAcked(c) =>
          ReadOpen(c);
        case TcpConnectionConfirmed(c) =>
          Keep(c);
        case ProcessOneDone(c) =>
          Keep(c);
        case TcpConnectionFails =>
          RetireCounted();
        case NotifyMsgVerErr =>
          Retire();
        case BgpOpen(msg, remoteSyn) =>
          alive := ResolveConfirmed(msg, remoteSyn);
        case BgpHeaderErr(err) =>
          alive := RefuseMessage(err, src);
        case BgpOpenMsgErr(err) =>
          alive := RefuseMessage(err, src);
        case KeepaliveReceived =>
          Establish();
        case _ => other := true;
      }
      if other {
        alive := LeaveCounted(NoteOf(FiniteStateMachineError));
      }
    }

    method RestartHold()
      modifies this
      ensures Result(true) == Next(old(session), old(Emitted()).Command(HoldTimer, Restart))
    {
      Command(HoldTimer, Restart);
    }

    method HandleEstablished(e: Event) returns (alive: bool)
      modifies this
      ensures Result(alive) == StepEstablished(old(session), e, old(Emitted()))
    {
      hide Emitted, NoteOf, NoteFrom;
      hide NotifyAndQuit, Quit, KeepColliding, ResolveInOpenConfirm, ResolveInEstablished, CountRetry;
      var other := false;
      alive := true;
      match e {
        case ManualStart | AutomaticStart | ManualStartPassive | AutomaticStartPassive
           | AutomaticStartDamped | AutomaticStartDampedPassive =>
        case ManualStop =>
          alive := LeaveReset(NoteOf(Cease));
        case AutomaticStop =>
          alive := LeaveCounted(NoteOf(Cease));
        case HoldExpires =>
          alive := LeaveCounted(NoteOf(HoldTimerExpired));
        case KeepaliveExpires =>
          alive := SayKeepalive(session.attr.holdTime != FAR_FUTURE);
        case TcpConnectionValid | TcpCRInvalid =>
        case TcpCRAcked(c) =>
          ReadOpen(c);
        case TcpConnectionConfirmed(c) =>
          Keep(c);
        case ProcessOneDone(c) =>
          Keep(c);
        case BgpOpen(msg, remoteSyn) =>
          alive := ResolveEstablished(msg, remoteSyn);
        case NotifyMsgVerErr | NotifyMsg | TcpConnectionFails =>
          RetireCounted();
        case KeepaliveReceived | UpdateReceived =>
          RestartHold();
        case UpdateMsgErr(err) =>
          alive := LeaveCounted(NoteFrom(err));
        case _ => other := true;
      }
      if other {
        alive := LeaveCounted(NoteOf(FiniteStateMachineError));
      }
    }

    // -------------------------------------------------------------- the loop

    /** One iteration: an event is taken from a channel, renamed if need be, and handled. */
    method Iterate(event: Event, src: Source) returns (alive: bool)
      requires Valid()
      modifies this
      ensures alive ==> Valid()
      ensures alive <==> !Fatal(old(session), Renamed(old(session), event, src), src)
      ensures Result(alive) == React(conf, old(session), Renamed(old(session), event, src), src, old(Emitted()))
    {
      hide StepIdle, StepConnect, StepActive, StepOpenSent, StepOpenConfirm, StepEstablished, Invariant, Fatal;
      InvariantKept(conf, session, Renamed(session, event, src), src, Emitted());
      StuckExactlyWhenFatal(conf, session, Renamed(session, event, src), src, Emitted());
      var e := event;
      if src == FromAdmin && e.BgpOpen? && session.attr.curDelayOpen != FAR_FUTURE {
        e := BgpOpenDelayed(e.msg, e.remoteSyn);
      }
      match session.phase {
        case Idle => alive := HandleIdle(e);
        case Connect => alive := HandleConnect(e);
        case Active => alive := HandleActive(e);
        case OpenSent => alive := HandleOpenSent(e, src);
        case OpenConfirm => alive := HandleOpenConfirm(e, src);
        case Established => alive := HandleEstablished(e);
      }
    }

    /** The loop of `run` over the events a session is given, up to a panic. */
    method Run(events: seq<(Event, Source)>) returns (alive: bool)
      requires Valid()
      modifies this
      ensures alive ==> Valid()
      ensures Result(alive) == ReactAll(conf, old(session), events, old(Emitted()))
    {
      hide React, Renamed, Invariant, Fatal;
      alive := true;
      for i := 0 to |events|
        invariant alive && Valid()
        invariant ReactAll(conf, old(session), events, old(Emitted()))
               == ReactAll(conf, session, events[i..], Emitted())
      {
        alive := Iterate(events[i].0, events[i].1);
        if !alive {
          return;
        }
      }
    }
  }

  function ReactAll(conf: Conf, s: State, events: seq<(Event, Source)>, ch: Channels): Step
    decreases |events|
  {
    if events == [] then Next(s, ch) else
    var (e, src) := events[0];
    var r := React(conf, s, Renamed(s, e, src), src, ch);
    if r.Stuck? then Stuck else ReactAll(conf, r.state, events[1..], r.ch)
  }
}
