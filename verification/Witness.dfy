/** Concrete runs: to Established, so that what is said of that state is said of something, and to the
    systems in which the code does what one might not expect of it. Events come from where the source
    sends them: a connection of the speaker's own as the outcome of an attempt it started, one of the
    peer's over the admin channel with its OPEN behind it, an OPEN on a second connection after that
    connection; the one exception is the KEEPALIVE event, which no task sends. */
module Witness {
  import opened Basics
  import opened Message
  import opened Fsm
  import opened Session
  import opened SessionEffects
  import opened SessionProgress
  import opened TimerLoop
  import opened Run
  import opened Guarantees
  import opened Collision

  /** With room in the control channel the session gets its commands out. */
  lemma {:induction false} SendOut(conf: Conf, opts: Options, y: System)
    requires Reachable(conf, opts, y) && |y.net.ctl| + |y.ch.timers| <= SLOTS
    ensures Reachable(conf, opts, y.(ch := y.ch.(timers := []), net := y.net.(ctl := y.net.ctl + y.ch.timers)))
    decreases |y.ch.timers|
  {
    hide HandleEvent, Reachable;
    ReachableWired(conf, opts, y);
    if y.ch.timers == [] {
      assert y.net.ctl + [] == y.net.ctl;
      assert y == y.(ch := y.ch.(timers := []), net := y.net.(ctl := y.net.ctl + []));
    } else {
      ReachableNext(conf, opts, y, Send);
      var z := Move(conf, y, Send).value;
      SendOut(conf, opts, z);
      assert z.net.ctl + z.ch.timers == y.net.ctl + y.ch.timers;
    }
  }

  lemma ReachableWired(conf: Conf, opts: Options, y: System)
    requires Reachable(conf, opts, y)
    ensures y.net.Wired()
  {
  }

  const PATIENT := Options(true, 5 * SECOND, false, false)

  /** A session with the delay-open option has sent its commands, and no expiry is on its way. */
  ghost predicate Calm(conf: Conf, y: System) {
    && Reachable(conf, PATIENT, y) && y.net.Wired()
    && y.ch.timers == [] && Quiet(y.net) && y.net.expired == []
  }

  /** An event, and then the commands it gave rise to. */
  lemma Settle(conf: Conf, y: System, e: Event, src: Source) returns (z: System)
    requires Reachable(conf, PATIENT, y) && y.ch.timers == [] && MayCome(y, e, src)
    requires React(conf, y.s, Renamed(y.s, e, src), src, y.ch).Next?
    requires |y.net.ctl| + |React(conf, y.s, Renamed(y.s, e, src), src, y.ch).ch.timers| <= SLOTS
    ensures Reachable(conf, PATIENT, z) && z.net.Wired() && z.ch.timers == []
    ensures Quiet(y.net) ==> Quiet(z.net)
    ensures var r := React(conf, y.s, Renamed(y.s, e, src), src, y.ch);
      && z.s == r.state && z.ch == r.ch.(timers := []) && z.taken == y.taken + Carried(e)
      && z.net == y.net.(ctl := z.net.ctl, expired := z.net.expired) && z.net.ctl == y.net.ctl + r.ch.timers
      && z.net.expired == (if src.FromTimer? then y.net.expired[1..] else y.net.expired)
      && (src.FromTimer? && |y.net.expired| == 1 ==> z.net.expired == [])
      && z.own == (if e.TcpCRAcked? then y.own + {e.conn} else y.own)
      && z.outcomes == y.outcomes + Count(Outcome(e))
      && z.announced == y.announced - Carried(e)
      && (z.drift ==> y.drift || Drifts(y.s, Renamed(y.s, e, src)))
      && z.installed == y.installed + Installed(y.s, r)
  {
    hide React, Reachable, Commanded, Drifts, Installed;
    ReachableWired(conf, PATIENT, y);
    ReachableNext(conf, PATIENT, y, Handle(e, src));
    var w := Move(conf, y, Handle(e, src)).value;
    RenamedCarries(y.s, e, src);
    SendOut(conf, PATIENT, w);
    z := w.(ch := w.ch.(timers := []), net := w.net.(ctl := w.net.ctl + w.ch.timers));
    ReachableWired(conf, PATIENT, z);
  }

  /** The commands reach their timers. */
  lemma {:induction false} Deliver(conf: Conf, opts: Options, y: System) returns (z: System)
    requires Reachable(conf, opts, y) && Quiet(y.net)
    ensures Reachable(conf, opts, z) && Quiet(z.net) && Outstanding(z.net, z.ch.timers) == 0
    ensures z == y.(ch := y.ch.(timers := []), net := z.net) && z.net.expired == y.net.expired
    decreases Outstanding(y.net, y.ch.timers)
  {
    hide Move, Reachable;
    ReachableWired(conf, opts, y);
    if Outstanding(y.net, y.ch.timers) == 0 {
      z := y;
    } else {
      var l := DeliveryGoesOn(conf, y);
      DeliveryProgresses(conf, y, l);
      ReachableNext(conf, opts, y, l);
      z := Deliver(conf, opts, Move(conf, y, l).value);
    }
  }

  /** A timer that is set runs out, with its commands carried out, and reports it. */
  lemma RunsOut(conf: Conf, y: System, kind: TimerKind) returns (z: System)
    requires Calm(conf, y) && Current(y.s.attr, kind) < FAR_FUTURE && (kind == DelayOpenTimer ==> !y.drift)
    ensures Reachable(conf, PATIENT, z)
    ensures z == y.(net := z.net) && Quiet(z.net) && z.net.expired == [kind] && z.net.ctl == []
    ensures z.net.tickers[kind].dur < FAR_FUTURE
  {
    hide HandleEvent, Reachable;
    z := Deliver(conf, PATIENT, y);
    ReachableWired(conf, PATIENT, z);
    TimersAgree(conf, PATIENT, z, kind);
    NothingOutstanding(z.net, z.ch.timers, kind);
    ReachableNext(conf, PATIENT, z, TimeOut(kind));
    z := Move(conf, z, TimeOut(kind)).value;
    ReachableNext(conf, PATIENT, z, Report(kind));
    z := Move(conf, z, Report(kind)).value;
  }

  // ---------------------------------------------------------------- arms

  function DialsIn(ch: Channels): nat {
    multiset(ch.tasks)[Dial]
  }

  /** An arm gives few commands, says nothing, and keeps what was started. */
  predicate Modest(s: State, ch: Channels, r: Step, commands: nat) {
    && r.Next? && |r.ch.timers| <= |ch.timers| + commands && r.ch.log == ch.log
    && DialsIn(r.ch) >= DialsIn(ch)
    && r.state.attr.opts == s.attr.opts && r.state.attr.keepaliveTime == s.attr.keepaliveTime
  }

  lemma StartPassive(conf: Conf, s: State, ch: Channels)
    requires s.phase.Idle?
    ensures var r := React(conf, s, ManualStartPassive, FromAdmin, ch);
      Modest(s, ch, r, 1) && r.state.phase.Active?
  {
  }

  lemma StartActively(conf: Conf, s: State, ch: Channels)
    requires s.phase.Idle?
    ensures var r := React(conf, s, ManualStart, FromAdmin, ch);
      && Modest(s, ch, r, 1) && DialsIn(r.ch) == DialsIn(ch) + 1
      && r.state.phase.Connect? && r.state.attr.curDelayOpen == s.attr.curDelayOpen
      && r.state.attr.curConnectRetry == DFLT_CONNECT
  {
  }

  lemma StopInConnect(conf: Conf, s: State, ch: Channels)
    requires s.phase.Connect?
    ensures var r := React(conf, s, ManualStop, FromAdmin, ch);
      Modest(s, ch, r, 1) && r.state.phase.Idle?
  {
  }

  lemma RetryInConnect(conf: Conf, s: State, ch: Channels)
    requires s.phase.Connect?
    ensures var r := React(conf, s, ConnectRetryExpires, FromTimer, ch);
      Modest(s, ch, r, 2) && DialsIn(r.ch) == DialsIn(ch) + 1 && r.state.phase.Connect?
  {
  }

  lemma AttachedInConnect(conf: Conf, s: State, e: Event, src: Source, ch: Channels)
    requires s.phase.Connect? && s.attr.opts == PATIENT && BringsTcp(e)
    ensures var r := React(conf, s, e, src, ch);
      && Modest(s, ch, r, 2) && r.state.phase.Connect? && r.state.out == Some(e.conn)
      && (e.TcpCRAcked? ==> r.state.attr.curDelayOpen == 5 * SECOND)
      && (e.TcpConnectionConfirmed? ==> r.state.attr.curDelayOpen == s.attr.curDelayOpen)
  {
  }

  lemma FailsInConnect(conf: Conf, s: State, ch: Channels)
    requires s.phase.Connect? && s.attr.curDelayOpen != FAR_FUTURE
    ensures var r := React(conf, s, TcpConnectionFails, FromTcp, ch);
      Modest(s, ch, r, 2) && r.state.phase.Active? && r.state.out == s.out
  {
  }

  lemma AnsweredInConnect(conf: Conf, s: State, msg: OpenMsg, ch: Channels)
    requires s.phase.Connect? && s.out.Some?
    ensures var r := React(conf, s, BgpOpenDelayed(msg, true), FromAdmin, ch);
      && r.Next? && |r.ch.timers| == |ch.timers| + 4
      && r.state.phase.OpenConfirm? && r.state.out == s.out && !r.state.remoteSyn
      && r.state.attr.curKeepalive < FAR_FUTURE
      && (forall c: ConnId | Some(c) != s.out :: r.ch.LogOf(c) == ch.LogOf(c))
  {
    hide Negotiated;
    SessionInvariant.NegotiatedIsMinimum(LocalOpen(conf), msg);
  }

  lemma AttachedInActive(conf: Conf, s: State, c: ConnId, ch: Channels)
    requires s.phase.Active? && s.attr.opts == PATIENT
    ensures var r := React(conf, s, TcpConnectionConfirmed(c), FromAdmin, ch);
      && Modest(s, ch, r, 2) && r.state.phase.Active? && r.state.out == Some(c)
      && r.state.attr.curDelayOpen == 5 * SECOND
  {
  }

  lemma DelayOverInActive(conf: Conf, s: State, ch: Channels)
    requires s.phase.Active? && s.out == Some(0) && ch.log == map[]
    ensures var r := React(conf, s, DelayOpenExpires, FromTimer, ch);
      && r.Next? && |r.ch.timers| == |ch.timers| + 2 && r.ch.log == map[0 := [Open(LocalOpen(conf))]]
      && DialsIn(r.ch) == DialsIn(ch)
      && r.state.phase.OpenSent? && r.state.localOpen == Some(LocalOpen(conf)) && r.state.out == Some(0)
      && r.state.remoteSyn && r.state.attr.keepaliveTime == s.attr.keepaliveTime && r.state.collision.None?
  {
    assert ch.LogOf(0) + [Open(LocalOpen(conf))] == [Open(LocalOpen(conf))];
  }

  lemma OpenInOpenSent(conf: Conf, s: State, msg: OpenMsg, ch: Channels)
    requires s.phase.OpenSent? && s.localOpen == Some(LocalOpen(conf)) && s.remoteSyn
    requires conf.holdTime >= 3 && msg.holdTime == 3
    ensures var r := React(conf, s, BgpOpen(msg, true), FromAdmin, ch);
      && r.Next? && |r.ch.timers| <= |ch.timers| + 4 && r.ch.log == ch.log
      && r.state.phase.OpenConfirm? && r.state.attr.holdTime == 3 * SECOND
      && r.state.attr.keepaliveTime == s.attr.keepaliveTime
  {
    hide Negotiated;
    SessionInvariant.NegotiatedIsMinimum(LocalOpen(conf), msg);
  }

  lemma KeepaliveInOpenConfirm(conf: Conf, s: State, ch: Channels)
    requires s.phase.OpenConfirm?
    ensures var r := React(conf, s, KeepaliveReceived, FromBgp, ch);
      && r.Next? && |r.ch.timers| <= |ch.timers| + 1 && r.ch.log == ch.log
      && r.state.phase.Established? && r.state.attr == s.attr
  {
  }

  lemma SecondConnection(conf: Conf, s: State, e: Event, src: Source, ch: Channels)
    requires s.Colliding() && (e.TcpCRAcked? || e.TcpConnectionConfirmed? || e.ProcessOneDone?)
    ensures var r := React(conf, s, e, src, ch);
      && r.Next? && r.ch.timers == ch.timers && r.ch.log == ch.log
      && (if e.TcpCRAcked? then r.state == s && e.conn in r.ch.opening else r.state == s.(collision := Some(e.conn)))
  {
  }

  lemma TakenOverInOpenConfirm(conf: Conf, s: State, msg: OpenMsg, c: ConnId, ch: Channels)
    requires s.phase.OpenConfirm? && s.localOpen == Some(LocalOpen(conf)) && !s.remoteSyn && s.collision == Some(c)
    requires Below(conf.routerId, msg.bgpIdentifier)
    ensures var r := React(conf, s, BgpOpen(msg, true), FromAdmin, ch);
      && r.Next? && r.ch.timers == ch.timers && r.ch.log == ch.log
      && r.state.phase.OpenConfirm? && r.state.out == Some(c) && r.state.attr == s.attr
  {
    hide Below;
  }

  lemma KeepaliveOver(conf: Conf, s: State, c: ConnId, ch: Channels)
    requires s.phase.OpenConfirm? && s.out == Some(c) && ch.LogOf(c) == []
    ensures var r := React(conf, s, KeepaliveExpires, FromTimer, ch);
      r.Next? && |r.ch.timers| <= |ch.timers| + 1 && r.state == s && r.ch.LogOf(c) == [Keepalive]
  {
    assert [] + [Keepalive] == [Keepalive];
  }

  // ---------------------------------------------------------------- to OpenSent and Established

  /** The operator starts a passive session, and a connection of the peer's comes in. */
  lemma ToActive(conf: Conf, y0: System) returns (y: System)
    requires Calm(conf, y0) && y0.s.phase.Idle? && |y0.net.ctl| <= 8 && y0.taken == {} && y0.ch.log == map[]
    ensures Calm(conf, y) && y.s.phase.Active? && y.s.out == Some(0) && (y.drift ==> y0.drift)
    ensures y.s.attr.keepaliveTime == y0.s.attr.keepaliveTime && y.s.attr.curDelayOpen == 5 * SECOND
    ensures y.taken == {0} && y.own == y0.own && y.ch.log == map[]
    ensures y.outcomes == y0.outcomes && Dials(y) >= Dials(y0)
  {
    hide React, Reachable;
    ReachableSafe(conf, PATIENT, y0);
    StartPassive(conf, y0.s, y0.ch);
    y := Settle(conf, y0, ManualStartPassive, FromAdmin);
    AttachedInActive(conf, y.s, 0, y.ch);
    y := Settle(conf, y, TcpConnectionConfirmed(0), FromAdmin);
  }

  /** Then the delay-open timer expires, before the OPEN behind the connection is taken. */
  lemma ToOpenSent(conf: Conf, y0: System) returns (y: System)
    requires Calm(conf, y0) && y0.s.phase.Idle? && |y0.net.ctl| <= 8 && y0.taken == {} && y0.ch.log == map[]
    requires !y0.drift
    ensures Calm(conf, y) && |y.net.ctl| <= 8
    ensures y.s.phase.OpenSent? && y.s.localOpen == Some(LocalOpen(conf)) && y.s.out == Some(0) && y.s.remoteSyn
    ensures y.s.attr.keepaliveTime == y0.s.attr.keepaliveTime && y.ch.log == map[0 := [Open(LocalOpen(conf))]]
    ensures y.taken == {0} && y.own == y0.own
    ensures y.outcomes == y0.outcomes && Dials(y) >= Dials(y0)
  {
    hide Move, React, Reachable;
    y := ToActive(conf, y0);
    y := RunsOut(conf, y, DelayOpenTimer);
    DelayOverInActive(conf, y.s, y.ch);
    y := Settle(conf, y, DelayOpenExpires, FromTimer);
  }

  lemma Beginning(conf: Conf) returns (y: System)
    ensures y == Start(PATIENT) && Calm(conf, y)
  {
    y := Start(PATIENT);
    StartReachable(conf, PATIENT);
  }

  /** Then the peer's OPEN and a KEEPALIVE: Established, with the hold time at three seconds and the
      keepalive time at three seconds too. */
  lemma EstablishedIsReached(conf: Conf, msg: OpenMsg) returns (y: System)
    requires conf.holdTime >= 3 && msg.holdTime == 3
    ensures Reachable(conf, PATIENT, y)
    ensures y.s.phase.Established?
    ensures y.s.attr.holdTime == y.s.attr.keepaliveTime == 3 * SECOND && !Thirds(y.s.attr)
    ensures y.ch.LogOf(0) == [Open(LocalOpen(conf))]
  {
    hide React, Move, Reachable;
    y := Beginning(conf);
    y := ToOpenSent(conf, y);
    OpenInOpenSent(conf, y.s, msg, y.ch);
    RetryAndDelayAreOff(conf, PATIENT, y, BgpOpen(msg, true), FromAdmin);
    y := Settle(conf, y, BgpOpen(msg, true), FromAdmin);
    KeepaliveInOpenConfirm(conf, y.s, y.ch);
    y := Settle(conf, y, KeepaliveReceived, FromBgp);
  }

  // ---------------------------------------------------------------- the delay-open timer

  /** The operator starts an active session, which begins an attempt at a connection. */
  lemma ToConnect(conf: Conf) returns (y: System)
    ensures Calm(conf, y) && |y.net.ctl| <= 1 && y.s.phase.Connect? && y.s.attr.opts == PATIENT && !y.drift
    ensures y.s.attr.curDelayOpen == FAR_FUTURE && y.s.attr.curConnectRetry == DFLT_CONNECT
    ensures y.s.attr.keepaliveTime == DFLT_KEEPALIVE
    ensures y.taken == {} && y.own == {} && y.installed == {} && y.ch.log == map[]
    ensures y.outcomes == 0 && Dials(y) == 1
  {
    hide React, Reachable;
    y := Beginning(conf);
    StartActively(conf, y.s, y.ch);
    y := Settle(conf, y, ManualStart, FromAdmin);
  }

  lemma ConfirmedDrifts(conf: Conf, s: State, ch: Channels)
    requires s.phase.Connect? && s.attr.opts == PATIENT && s.attr.curDelayOpen == FAR_FUTURE
    ensures var e := TcpConnectionConfirmed(0);
      Commanded(React(conf, s, e, FromAdmin, ch).ch.timers, DelayOpenTimer) && Drifts(s, e)
  {
    hide Commanded;
    CommandTells(DelayOpenTimer);
  }

  /** The delay-open timer and its record do part: a connection from the peer's side in Connect sets the
      timer to five seconds, and the record still says that it is off. */
  lemma DriftIsReached(conf: Conf) returns (y: System)
    ensures Reachable(conf, PATIENT, y)
    ensures y.drift && y.s.phase.Connect?
    ensures Outlook(y.net, y.ch.timers, DelayOpenTimer) != Current(y.s.attr, DelayOpenTimer) == FAR_FUTURE
  {
    hide React, Commanded, Carry, Outlook, Drifts, Reachable;
    y := ToConnect(conf);
    var e := TcpConnectionConfirmed(0);
    AttachedInConnect(conf, y.s, e, FromAdmin, y.ch);
    ConfirmedDrifts(conf, y.s, y.ch);
    ReachableNext(conf, PATIENT, y, Handle(e, FromAdmin));
    y := Move(conf, y, Handle(e, FromAdmin)).value;
    TimersAgree(conf, PATIENT, y, DelayOpenTimer);
  }

  // ---------------------------------------------------------------- collisions

  /** The retry timer runs out and a second attempt begins; one of the two brings the speaker's own
      connection. */
  lemma ToOwnInConnect(conf: Conf) returns (y: System)
    ensures Calm(conf, y) && |y.net.ctl| <= 8 && y.s.phase.Connect? && y.s.out == Some(0)
    ensures y.s.attr.curDelayOpen == 5 * SECOND && !y.drift && y.ch.log == map[]
    ensures y.taken == {0} && y.own == {0} && y.outcomes == 1 && Dials(y) >= 2
  {
    hide Move, React, Reachable;
    y := ToConnect(conf);
    y := RunsOut(conf, y, ConnectRetryTimer);
    RetryInConnect(conf, y.s, y.ch);
    y := Settle(conf, y, ConnectRetryExpires, FromTimer);
    AttachedInConnect(conf, y.s, TcpCRAcked(0), FromTcp, y.ch);
    y := Settle(conf, y, TcpCRAcked(0), FromTcp);
  }

  /** The delay-open timer runs out, and while its expiry waits the other attempt fails. */
  lemma ToOwnInOpenSent(conf: Conf) returns (y: System)
    ensures Calm(conf, y) && |y.net.ctl| <= 8
    ensures y.s.phase.OpenSent? && y.s.localOpen == Some(LocalOpen(conf)) && y.s.out == Some(0) && y.s.remoteSyn
    ensures y.taken == {0} && y.own == {0}
  {
    hide Move, React, Reachable;
    y := ToOwnInConnect(conf);
    y := RunsOut(conf, y, DelayOpenTimer);
    FailsInConnect(conf, y.s, y.ch);
    y := Settle(conf, y, TcpConnectionFails, FromTcp);
    DelayOverInActive(conf, y.s, y.ch);
    y := Settle(conf, y, DelayOpenExpires, FromTimer);
  }

  /** The speaker's own connection is in hand in OpenSent, and the peer opens a second one: an OPEN on
      that one resolves nothing, and the first stays in hand whatever the identifiers. */
  lemma OwnConnectionStays(conf: Conf, msg: OpenMsg) returns (y: System)
    ensures Reachable(conf, PATIENT, y)
    ensures y.s.phase.OpenSent? && y.s.out == Some(0) && 0 in y.own && 1 !in y.own
    ensures Rivals(y, BgpOpen(msg, true)) && !Truthful(y)
    ensures var r := React(conf, y.s, BgpOpen(msg, true), FromAdmin, y.ch); r.Next? && r.state.out == Some(0)
  {
    hide React, Move, Reachable;
    y := ToOwnInOpenSent(conf);
    SecondConnection(conf, y.s, TcpConnectionConfirmed(1), FromAdmin, y.ch);
    y := Settle(conf, y, TcpConnectionConfirmed(1), FromAdmin);
    RivalHandled(conf, PATIENT, y, BgpOpen(msg, true), FromAdmin);
    RivalResolved(conf, PATIENT, y, BgpOpen(msg, true), FromAdmin);
  }

  lemma HandBack(conf: Conf, y: System, c: ConnId) returns (z: System)
    requires Calm(conf, y) && c in y.ch.opening
    ensures Calm(conf, z)
    ensures z == y.(ch := y.ch.(opening := y.ch.opening - {c}), announced := y.announced + {c})
  {
    hide Reachable, HandleEvent;
    ReachableNext(conf, PATIENT, y, OpenRead(c, true));
    z := Move(conf, y, OpenRead(c, true)).value;
  }

  /** An active session is stopped and started again as a passive one, which comes to OpenSent on the
      peer's connection; only then the connection of the abandoned attempt comes in, and is read. */
  lemma ToOwnSecond(conf: Conf) returns (y: System)
    ensures Calm(conf, y) && |y.net.ctl| <= 8
    ensures y.s.phase.OpenSent? && y.s.localOpen == Some(LocalOpen(conf)) && y.s.remoteSyn
    ensures y.s.out == Some(0) && y.s.collision == Some(1) && y.own == {1}
  {
    hide React, Move, Reachable;
    y := ToConnect(conf);
    StopInConnect(conf, y.s, y.ch);
    y := Settle(conf, y, ManualStop, FromAdmin);
    y := ToOpenSent(conf, y);
    SecondConnection(conf, y.s, TcpCRAcked(1), FromTcp, y.ch);
    y := Settle(conf, y, TcpCRAcked(1), FromTcp);
    y := HandBack(conf, y, 1);
    SecondConnection(conf, y.s, ProcessOneDone(1), FromColl, y.ch);
    y := Settle(conf, y, ProcessOneDone(1), FromColl);
  }

  /** The wrong way round: the peer has the larger identifier and its connection is in hand, and the
      peer's OPEN on the speaker's own second connection puts that one in its place. */
  lemma WrongConnectionKept(conf: Conf, msg: OpenMsg) returns (y: System)
    requires Value(conf.routerId) < Value(msg.bgpIdentifier)
    ensures Reachable(conf, PATIENT, y) && y.s.phase.OpenSent?
    ensures Rivals(y, BgpOpen(msg, false)) && y.s.out == Some(0) && 0 !in y.own && 1 in y.own
    ensures var r := React(conf, y.s, BgpOpen(msg, false), FromColl, y.ch); r.Next? && r.state.out == Some(1)
  {
    hide React, Move, Reachable, Value;
    y := ToOwnSecond(conf);
    RivalHandled(conf, PATIENT, y, BgpOpen(msg, false), FromColl);
    RivalResolved(conf, PATIENT, y, BgpOpen(msg, false), FromColl);
  }

  /** An active session takes in the peer's connection `b`, and then its own connection `c` in its place,
      which starts the delay; so the OPEN behind `b` is answered late, on `c`. Then the peer opens `d`. */
  lemma ToOwnInHand(conf: Conf, msg: OpenMsg, b: ConnId, c: ConnId, d: ConnId) returns (y: System)
    requires b != c && c != d && d != b
    ensures Calm(conf, y) && |y.net.ctl| <= 16
    ensures y.s.phase.OpenConfirm? && !y.s.remoteSyn && y.s.localOpen.Some?
    ensures y.s.out == Some(c) && y.s.collision == Some(d) && y.own == {c}
    ensures y.s.attr.curKeepalive < FAR_FUTURE && y.ch.LogOf(d) == []
  {
    hide React, Move, Reachable;
    y := ToConnect(conf);
    AttachedInConnect(conf, y.s, TcpConnectionConfirmed(b), FromAdmin, y.ch);
    y := Settle(conf, y, TcpConnectionConfirmed(b), FromAdmin);
    AttachedInConnect(conf, y.s, TcpCRAcked(c), FromTcp, y.ch);
    y := Settle(conf, y, TcpCRAcked(c), FromTcp);
    AnsweredInConnect(conf, y.s, msg, y.ch);
    y := Settle(conf, y, BgpOpen(msg, true), FromAdmin);
    SecondConnection(conf, y.s, TcpConnectionConfirmed(d), FromAdmin, y.ch);
    y := Settle(conf, y, TcpConnectionConfirmed(d), FromAdmin);
    ReachableSafe(conf, PATIENT, y);
  }

  /** A KEEPALIVE without an OPEN: in OpenConfirm the OPEN of a peer with the larger identifier puts its
      second connection in the place of the speaker's own, with nothing said on it, and the keepalive timer
      does the rest. */
  lemma KeepaliveWithoutOpen(conf: Conf, first: OpenMsg, second: OpenMsg) returns (y: System)
    requires Below(conf.routerId, second.bgpIdentifier)
    ensures Reachable(conf, PATIENT, y)
    ensures y.s.out == Some(1) && y.ch.LogOf(1) == [Keepalive] && 1 in y.installed
  {
    hide React, Move, Reachable, Below;
    y := ToOwnInHand(conf, first, 9, 0, 1);
    ReachableSafe(conf, PATIENT, y);
    TakenOverInOpenConfirm(conf, y.s, second, 1, y.ch);
    RetryAndDelayAreOff(conf, PATIENT, y, BgpOpen(second, true), FromAdmin);
    y := Settle(conf, y, BgpOpen(second, true), FromAdmin);
    y := RunsOut(conf, y, KeepaliveTimer);
    KeepaliveOver(conf, y.s, 1, y.ch);
    y := Settle(conf, y, KeepaliveExpires, FromTimer);
  }

  /** Two speakers that came to OpenConfirm from Connect do agree, on the larger identifier's connection. */
  lemma SpeakersMeet(confA: Conf, confB: Conf, msgA: OpenMsg, msgB: OpenMsg) returns (a: System, b: System)
    requires msgA.bgpIdentifier == confA.routerId && msgB.bgpIdentifier == confB.routerId
    requires confA.routerId != confB.routerId
    ensures Reachable(confA, PATIENT, a) && Reachable(confB, PATIENT, b)
    ensures Crossed(confA, a, BgpOpen(msgB, true), confB, b, BgpOpen(msgA, true), 0, 1)
    ensures var ra := React(confA, a.s, BgpOpen(msgB, true), FromAdmin, a.ch);
      var rb := React(confB, b.s, BgpOpen(msgA, true), FromAdmin, b.ch);
      ra.Next? && rb.Next?
      && ra.state.out == rb.state.out == Some(if Value(confA.routerId) < Value(confB.routerId) then 1 else 0)
  {
    hide React, Reachable, Value;
    a := ToOwnInHand(confA, msgB, 2, 0, 1);
    b := ToOwnInHand(confB, msgA, 3, 1, 0);
    RivalHandled(confA, PATIENT, a, BgpOpen(msgB, true), FromAdmin);
    RivalHandled(confB, PATIENT, b, BgpOpen(msgA, true), FromAdmin);
    BelowIsUnsigned(confA.routerId, confB.routerId);
    SpeakersAgree(
      confA, PATIENT, a, BgpOpen(msgB, true), FromAdmin, confB, PATIENT, b, BgpOpen(msgA, true), FromAdmin, 0, 1);
  }
}
