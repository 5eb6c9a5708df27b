/** Every arm is sound, and exactly which events panic: arm by arm, then state by state. */
module SessionSound {
  import opened Errors
  import opened Message
  import opened Fsm
  import opened Session
  import opened SessionInvariant
  import opened SessionEffects

  // ---------------------------------------------------------------- arms of several states

  lemma StaySound(conf: Conf, s: State, e: Event, ch: Channels, v: View)
    requires Before(conf, s, e, ch, v) && Carried(e) == {}
    ensures Sound(conf, s, e, ch, Next(s, ch), v)
  {
    hide Carry;
  }

  /** Attributes and output with which a state may be left for Idle. */
  predicate Leavable(s: State, e: Event, ch: Channels, a: Attr, x: Channels, v: View) {
    && a.opts == s.attr.opts
    && a.counter <= 1
    && (!a.opts.delayOpen ==> a.curDelayOpen == FAR_FUTURE)
    && x.log == ch.log && x.opening == ch.opening && x.closed == ch.closed + Carried(e)
    && (Tracks(s.attr, ch, v.d, v.kind) ==> Tracks(a, x, v.d, v.kind))
    && !Drifts(s, e)
  }

  lemma QuitInvariant(conf: Conf, s: State, a: Attr, x: Channels)
    requires a.counter <= 1 && (!a.opts.delayOpen ==> a.curDelayOpen == FAR_FUTURE)
    ensures var q := Quit(s.(attr := a), x); q.Next? && Invariant(conf, q.state) && q.state.attr.opts == a.opts
  {
  }

  lemma QuitConserves(s: State, a: Attr, x: Channels, c: ConnId)
    requires s.conn == s.out && Places(s, x, c) <= 1
    ensures var q := Quit(s.(attr := a), x); Places(q.state, q.ch, c) == Places(s, x, c)
  {
  }

  lemma QuitTracks(s: State, a: Attr, x: Channels, d: Duration, kind: TimerKind)
    requires Tracks(a, x, d, kind)
    ensures var q := Quit(s.(attr := a), x); Tracks(q.state.attr, q.ch, d, kind)
  {
    hide Carry;
    CommandCarries(d, kind);
  }

  lemma QuitLog(s: State, a: Attr, x: Channels)
    ensures var q := Quit(s.(attr := a), x);
      q.Next? && q.state.phase.Idle? && q.state.out.None? && q.ch.log == x.log && q.ch.closed == x.closed + Held(s)
  {
  }

  lemma QuitSound(conf: Conf, s: State, e: Event, ch: Channels, a: Attr, x: Channels, v: View)
    requires Before(conf, s, e, ch, v) && !s.phase.Idle? && Leavable(s, e, ch, a, x, v)
    ensures Sound(conf, s, e, ch, Quit(s.(attr := a), x), v)
  {
    hide Quit, Tracks, Context, Agreed, TimersByPhase;
    QuitInvariant(conf, s, a, x);
    QuitConserves(s, a, x, v.c);
    QuitLog(s, a, x);
    if Tracks(s.attr, ch, v.d, v.kind) {
      QuitTracks(s, a, x, v.d, v.kind);
    }
  }

  /** In Idle, stopping the delay-open timer as well changes nothing but its record and its duration. */
  lemma StopDelayToo(conf: Conf, s: State, e: Event, ch: Channels, t: State, x: Channels, v: View)
    requires t.phase.Idle? && t.out.None? && !Drifts(s, e)
    requires Sound(conf, s, e, ch, Next(t, x), v)
    ensures Sound(conf, s, e, ch, Next(t.(attr := StopDelayOpen(t.attr)), x.Command(DelayOpenTimer, Stop)), v)
  {
    hide Carry, Grammar, Headed, Unopened;
    CommandCarries(v.d, v.kind);
  }

  lemma QuitBothSound(conf: Conf, s: State, e: Event, ch: Channels, a: Attr, x: Channels, v: View)
    requires Before(conf, s, e, ch, v) && !s.phase.Idle? && Leavable(s, e, ch, a, x, v)
    ensures Sound(conf, s, e, ch, QuitBoth(s.(attr := a), x), v)
  {
    hide Sound, Before, Quit;
    QuitLog(s, a, x);
    QuitSound(conf, s, e, ch, a, x, v);
    var q := Quit(s.(attr := a), x);
    StopDelayToo(conf, s, e, ch, q.state, q.ch, v);
  }

  lemma NotifySound(conf: Conf, s: State, e: Event, ch: Channels, a: Attr, x: Channels, m: Message, v: View)
    requires Before(conf, s, e, ch, v) && !s.phase.Idle? && m.Notification? && Leavable(s, e, ch, a, x, v)
    ensures Sound(conf, s, e, ch, NotifyAndQuit(s.(attr := a), m, x), v)
  {
    hide Quit, Tracks, Context, Agreed, TimersByPhase, Carry;
    if s.out.Some? {
      var y := x.Put(s.out.value, m);
      QuitInvariant(conf, s, a, y);
      QuitConserves(s, a, y, v.c);
      QuitLog(s, a, y);
      if Tracks(s.attr, ch, v.d, v.kind) {
        PutTracks(a, x, s.out.value, m, v.d, v.kind);
        QuitTracks(s, a, y, v.d, v.kind);
      }
    }
  }

  lemma PutTracks(a: Attr, x: Channels, c: ConnId, m: Message, d: Duration, kind: TimerKind)
    ensures Tracks(a, x.Put(c, m), d, kind) == Tracks(a, x, d, kind)
  {
  }

  lemma AllLeavingSound(conf: Conf, s: State, e: Event, ch: Channels, v: View)
    requires Before(conf, s, e, ch, v) && !s.phase.Idle?
    ensures forall a: Attr, x: Channels | Leavable(s, e, ch, a, x, v) ::
      Sound(conf, s, e, ch, Quit(s.(attr := a), x), v)
    ensures forall a: Attr, x: Channels, m: Message | Leavable(s, e, ch, a, x, v) && m.Notification? ::
      Sound(conf, s, e, ch, NotifyAndQuit(s.(attr := a), m, x), v)
  {
    hide Before, Leavable, Sound, Quit, NotifyAndQuit;
    forall a: Attr, x: Channels, m: Message | Leavable(s, e, ch, a, x, v) && m.Notification?
      ensures Sound(conf, s, e, ch, NotifyAndQuit(s.(attr := a), m, x), v)
    {
      NotifySound(conf, s, e, ch, a, x, m, v);
    }
    forall a: Attr, x: Channels | Leavable(s, e, ch, a, x, v)
      ensures Sound(conf, s, e, ch, Quit(s.(attr := a), x), v)
    {
      QuitSound(conf, s, e, ch, a, x, v);
    }
  }

  // ---------------------------------------------------------------- Idle

  lemma StartSound(conf: Conf, s: State, e: Event, ch: Channels, v: View)
    requires s.phase.Idle? && Before(conf, s, e, ch, v)
    requires e.ManualStart? || e.AutomaticStart? || e.ManualStartPassive? || e.AutomaticStartPassive?
    ensures Sound(conf, s, e, ch, StepIdle(s, e, ch), v)
  {
    hide Carry;
    CommandCarries(v.d, v.kind);
  }

  lemma IgnoringSound(conf: Conf, s: State, e: Event, ch: Channels, v: View)
    requires s.phase.Idle? && Before(conf, s, e, ch, v)
    ensures Sound(conf, s, e, ch, Next(s, ch.Close(Carried(e))), v)
  {
    hide Carry;
  }

  lemma IdleSound(conf: Conf, s: State, e: Event, ch: Channels, v: View)
    requires s.phase.Idle? && Before(conf, s, e, ch, v)
    ensures Sound(conf, s, e, ch, StepIdle(s, e, ch), v)
  {
    hide Before, Sound;
    if e.ManualStart? || e.AutomaticStart? || e.ManualStartPassive? || e.AutomaticStartPassive? {
      StartSound(conf, s, e, ch, v);
    } else {
      IgnoringSound(conf, s, e, ch, v);
    }
  }

  // ---------------------------------------------------------------- Connect and Active

  lemma RedialSound(conf: Conf, s: State, e: Event, ch: Channels, v: View)
    requires s.phase.Connect? && e.ConnectRetryExpires? && Before(conf, s, e, ch, v)
    ensures Sound(conf, s, e, ch, Redial(s, ch), v)
  {
    hide Carry;
    CommandCarries(v.d, v.kind);
  }

  lemma ConnectAttachSound(conf: Conf, s: State, e: Event, ch: Channels, v: View)
    requires s.phase.Connect? && (e.TcpCRAcked? || e.TcpConnectionConfirmed?) && Before(conf, s, e, ch, v)
    ensures Sound(conf, s, e, ch, ConnectAttach(conf, s, e.conn, e.TcpConnectionConfirmed?, ch), v)
  {
    hide Carry;
    CommandCarries(v.d, v.kind);
  }

  lemma ConnectFailsSound(conf: Conf, s: State, e: Event, ch: Channels, v: View)
    requires s.phase.Connect? && e.TcpConnectionFails? && Before(conf, s, e, ch, v)
    ensures Sound(conf, s, e, ch, ConnectFails(s, ch), v)
  {
    hide Carry;
    CommandCarries(v.d, v.kind);
  }

  lemma ConnectConfirmSound(conf: Conf, s: State, e: Event, ch: Channels, v: View)
    requires s.phase.Connect? && e.BgpOpenDelayed? && Before(conf, s, e, ch, v)
    ensures Sound(conf, s, e, ch, ConnectConfirm(conf, s, e.msg, ch), v)
  {
    hide Carry, Negotiated, KeepaliveFor;
    CommandCarries(v.d, v.kind);
    NegotiatedIsMinimum(LocalOpen(conf), e.msg);
  }

  lemma QuitOnOpenErrorSound(conf: Conf, s: State, e: Event, err: Error, ch: Channels, v: View)
    requires (s.phase.Connect? || s.phase.Active?) && Before(conf, s, e, ch, v) && Carried(e) == {}
    ensures Sound(conf, s, e, ch, QuitOnOpenError(s, err, ch), v)
  {
    hide Carry, Sound, Quit, NotifyAndQuit, Before, Invariant;
    AllLeavingSound(conf, s, e, ch, v);
    InvariantParts(conf, s, e, ch, v);
  }

  lemma QuitOnVersionErrorSound(conf: Conf, s: State, e: Event, ch: Channels, v: View)
    requires (s.phase.Connect? || s.phase.Active?) && Before(conf, s, e, ch, v) && Carried(e) == {}
    ensures Sound(conf, s, e, ch, QuitOnVersionError(s, ch), v)
  {
    hide Carry, Sound, Quit, QuitBoth, Before, Invariant;
    InvariantParts(conf, s, e, ch, v);
    if s.attr.curHold != FAR_FUTURE {
      assert s.(attr := s.attr) == s;
      QuitBothSound(conf, s, e, ch, s.attr, ch, v);
    } else {
      QuitSound(conf, s, e, ch, CountRetry(s.attr), ch, v);
    }
  }

  lemma InvariantParts(conf: Conf, s: State, e: Event, ch: Channels, v: View)
    requires Before(conf, s, e, ch, v)
    ensures CounterSmall(s) && TimersByPhase(s)
  {
  }

  lemma ConnectGiveUpSound(conf: Conf, s: State, e: Event, ch: Channels, v: View)
    requires s.phase.Connect? && !e.TcpConnectionConfirmed? && Before(conf, s, e, ch, v)
    ensures Sound(conf, s, e, ch, ConnectGiveUp(s, e, ch), v)
  {
    hide Carry, Sound, Quit, QuitBoth, Before, Invariant;
    InvariantParts(conf, s, e, ch, v);
    QuitBothSound(conf, s, e, ch, CountRetry(s.attr), ch.Close(Carried(e)), v);
  }

  lemma ConnectSound(conf: Conf, s: State, e: Event, ch: Channels, v: View)
    requires s.phase.Connect? && Before(conf, s, e, ch, v)
    ensures Sound(conf, s, e, ch, StepConnect(conf, s, e, ch), v)
  {
    hide Carry, Sound, Before, Quit, NotifyAndQuit, Redial, ConnectAttach, ConnectFails, ConnectConfirm;
    hide QuitOnOpenError, QuitOnVersionError, ConnectGiveUp;
    InvariantParts(conf, s, e, ch, v);
    match e
    case ManualStop => AllLeavingSound(conf, s, e, ch, v);
    case ConnectRetryExpires => RedialSound(conf, s, e, ch, v);
    case DelayOpenExpires => assert ConnectDelayOver(conf, s, ch).Stuck?; StuckSound(conf, s, e, ch, v);
    case TcpConnectionValid | TcpCRInvalid => StaySound(conf, s, e, ch, v);
    case TcpCRAcked(_) => ConnectAttachSound(conf, s, e, ch, v);
    case TcpConnectionConfirmed(_) => ConnectAttachSound(conf, s, e, ch, v);
    case TcpConnectionFails => ConnectFailsSound(conf, s, e, ch, v);
    case BgpOpenDelayed(_, _) => ConnectConfirmSound(conf, s, e, ch, v);
    case BgpHeaderErr(err) => QuitOnOpenErrorSound(conf, s, e, err, ch, v);
    case BgpOpenMsgErr(err) => QuitOnOpenErrorSound(conf, s, e, err, ch, v);
    case NotifyMsgVerErr => QuitOnVersionErrorSound(conf, s, e, ch, v);
    case _ => ConnectGiveUpSound(conf, s, e, ch, v);
  }

  lemma StuckSound(conf: Conf, s: State, e: Event, ch: Channels, v: View)
    ensures Sound(conf, s, e, ch, Stuck, v)
  {
  }

  lemma DialFromActiveSound(conf: Conf, s: State, e: Event, ch: Channels, v: View)
    requires s.phase.Active? && e.ConnectRetryExpires? && Before(conf, s, e, ch, v)
    ensures Sound(conf, s, e, ch, DialFromActive(s, ch), v)
  {
    hide Carry;
    CommandCarries(v.d, v.kind);
  }

  lemma ActiveDelayOverSound(conf: Conf, s: State, e: Event, ch: Channels, v: View)
    requires s.phase.Active? && e.DelayOpenExpires? && Before(conf, s, e, ch, v)
    ensures Sound(conf, s, e, ch, ActiveDelayOver(conf, s, ch), v)
  {
    hide Carry;
    CommandCarries(v.d, v.kind);
  }

  lemma ActiveAttachSound(conf: Conf, s: State, e: Event, remoteSyn: bool, ch: Channels, v: View)
    requires s.phase.Active? && (e.TcpCRAcked? || e.TcpConnectionConfirmed?) && Before(conf, s, e, ch, v)
    ensures Sound(conf, s, e, ch, ActiveAttach(conf, s, e.conn, remoteSyn, ch), v)
  {
    hide Carry;
    CommandCarries(v.d, v.kind);
  }

  lemma ActiveFailsSound(conf: Conf, s: State, e: Event, ch: Channels, v: View)
    requires s.phase.Active? && e.TcpConnectionFails? && Before(conf, s, e, ch, v)
    ensures Sound(conf, s, e, ch, ActiveFails(s, ch), v)
  {
    hide Carry;
    CommandCarries(v.d, v.kind);
  }

  lemma ActiveConfirmSound(conf: Conf, s: State, e: Event, ch: Channels, v: View)
    requires s.phase.Active? && e.BgpOpenDelayed? && Before(conf, s, e, ch, v)
    ensures Sound(conf, s, e, ch, ActiveConfirm(conf, s, e.msg, ch), v)
  {
    hide Carry, Negotiated, KeepaliveFor;
    CommandCarries(v.d, v.kind);
    NegotiatedIsMinimum(LocalOpen(conf), e.msg);
  }

  lemma StopActiveSound(conf: Conf, s: State, e: Event, ch: Channels, v: View)
    requires s.phase.Active? && e.ManualStop? && Before(conf, s, e, ch, v)
    ensures Sound(conf, s, e, ch, StopActive(s, ch), v)
  {
    hide Carry, Sound, Quit, NotifyAndQuit, Before;
    CommandCarries(v.d, v.kind);
    AllLeavingSound(conf, s, e, ch, v);
    InvariantParts(conf, s, e, ch, v);
  }

  lemma ActiveGiveUpSound(conf: Conf, s: State, e: Event, ch: Channels, v: View)
    requires s.phase.Active? && Before(conf, s, e, ch, v)
    ensures Sound(conf, s, e, ch, ActiveGiveUp(s, e, ch), v)
  {
    hide Carry, Sound, Quit, NotifyAndQuit, Before;
    AllLeavingSound(conf, s, e, ch, v);
    InvariantParts(conf, s, e, ch, v);
  }

  lemma ActiveSound(conf: Conf, s: State, e: Event, ch: Channels, v: View)
    requires s.phase.Active? && Before(conf, s, e, ch, v)
    ensures Sound(conf, s, e, ch, StepActive(conf, s, e, ch), v)
  {
    hide Carry, Sound, Before, Quit, NotifyAndQuit, StopActive, DialFromActive, ActiveDelayOver, ActiveAttach;
    hide ActiveFails, ActiveConfirm, QuitOnOpenError, QuitOnVersionError, ActiveGiveUp;
    if StartEvent(e) {
      StaySound(conf, s, e, ch, v);
    } else {
      match e
      case ManualStop => StopActiveSound(conf, s, e, ch, v);
      case ConnectRetryExpires => DialFromActiveSound(conf, s, e, ch, v);
      case DelayOpenExpires => ActiveDelayOverSound(conf, s, e, ch, v);
      case TcpConnectionValid | TcpCRInvalid => StaySound(conf, s, e, ch, v);
      case TcpCRAcked(_) => ActiveAttachSound(conf, s, e, false, ch, v);
      case TcpConnectionConfirmed(_) => ActiveAttachSound(conf, s, e, true, ch, v);
      case TcpConnectionFails => ActiveFailsSound(conf, s, e, ch, v);
      case BgpOpenDelayed(_, _) => ActiveConfirmSound(conf, s, e, ch, v);
      case BgpHeaderErr(err) => QuitOnOpenErrorSound(conf, s, e, err, ch, v);
      case BgpOpenMsgErr(err) => QuitOnOpenErrorSound(conf, s, e, err, ch, v);
      case NotifyMsgVerErr => QuitOnVersionErrorSound(conf, s, e, ch, v);
      case _ => ActiveGiveUpSound(conf, s, e, ch, v);
    }
  }

  // ---------------------------------------------------------------- OpenSent, OpenConfirm, Established

  lemma SecondConnectionSound(conf: Conf, s: State, e: Event, ch: Channels, v: View)
    requires s.Colliding() && Before(conf, s, e, ch, v)
    ensures e.TcpCRAcked? ==> Sound(conf, s, e, ch, Next(s, ch.ReadOpenFrom(e.conn)), v)
    ensures e.TcpConnectionConfirmed? || e.ProcessOneDone? ==> Sound(conf, s, e, ch, KeepColliding(s, e.conn, ch), v)
  {
    hide Carry;
  }

  lemma OpenSentFailsSound(conf: Conf, s: State, e: Event, ch: Channels, v: View)
    requires s.phase.OpenSent? && e.TcpConnectionFails? && Before(conf, s, e, ch, v)
    ensures Sound(conf, s, e, ch, OpenSentFails(s, ch), v)
  {
    hide Carry;
    CommandCarries(v.d, v.kind);
  }

  /** Collision detection in OpenSent changes connections and logs and nothing else. */
  lemma ResolveInOpenSentSound(conf: Conf, s: State, e: Event, ch: Channels, v: View)
    requires s.phase.OpenSent? && e.BgpOpen? && Before(conf, s, e, ch, v)
    ensures var r := ResolveInOpenSent(conf, s, e.msg, e.remoteSyn, ch);
      r.Next? ==>
        && r.state == s.(conn := r.state.conn, out := r.state.out, collision := r.state.collision)
        && r.state.conn == r.state.out
        && (s.out.Some? ==> r.state.out.Some?)
        && r.ch.timers == ch.timers
        && Places(r.state, r.ch, v.c) == Places(s, ch, v.c)
        && LogFits(r.state.(phase := OpenConfirm), r.ch, v.installed + Installed(s, r), v.c)
  {
    hide Below, Agreed;
  }

  lemma ConfirmOpenSound(conf: Conf, s: State, e: Event, ch: Channels, v: View)
    requires s.phase.OpenSent? && e.BgpOpen? && Before(conf, s, e, ch, v)
    ensures Sound(conf, s, e, ch, ConfirmOpen(conf, s, e.msg, e.remoteSyn, ch), v)
  {
    hide Carry, Negotiated, ResolveInOpenSent;
    CommandCarries(v.d, v.kind);
    ResolveInOpenSentSound(conf, s, e, ch, v);
    if s.localOpen.Some? {
      NegotiatedIsMinimum(s.localOpen.value, e.msg);
    }
  }

  lemma OpenSentSound(conf: Conf, s: State, e: Event, src: Source, ch: Channels, v: View)
    requires s.phase.OpenSent? && Before(conf, s, e, ch, v)
    ensures Sound(conf, s, e, ch, StepOpenSent(conf, s, e, src, ch), v)
  {
    hide Carry, Sound, Before, NoteOf, NoteFrom, Quit, NotifyAndQuit, KeepColliding, ConfirmOpen, OpenSentFails;
    InvariantParts(conf, s, e, ch, v);
    if StartEvent(e) {
      StaySound(conf, s, e, ch, v);
    } else {
      if Carried(e) == {} {
        StaySound(conf, s, e, ch, v);
        AllLeavingSound(conf, s, e, ch, v);
      }
      match e
      case TcpCRAcked(_) => SecondConnectionSound(conf, s, e, ch, v);
      case TcpConnectionConfirmed(_) => SecondConnectionSound(conf, s, e, ch, v);
      case ProcessOneDone(_) => SecondConnectionSound(conf, s, e, ch, v);
      case TcpConnectionFails => OpenSentFailsSound(conf, s, e, ch, v);
      case BgpOpen(_, _) => ConfirmOpenSound(conf, s, e, ch, v);
      case _ =>
    }
  }

  lemma ResolveInOpenConfirmSound(conf: Conf, s: State, e: Event, ch: Channels, v: View)
    requires s.phase.OpenConfirm? && e.BgpOpen? && Before(conf, s, e, ch, v)
    ensures Sound(conf, s, e, ch, ResolveInOpenConfirm(s, e.msg, e.remoteSyn, ch), v)
  {
    hide Carry, Negotiated, Below;
  }

  lemma ResolveInEstablishedSound(conf: Conf, s: State, e: Event, ch: Channels, v: View)
    requires s.phase.Established? && e.BgpOpen? && Before(conf, s, e, ch, v)
    ensures Sound(conf, s, e, ch, ResolveInEstablished(s, e.msg, e.remoteSyn, ch), v)
  {
    hide Carry, Negotiated, Below;
  }

  lemma KeepaliveSaid(conf: Conf, s: State, e: Event, ch: Channels, v: View)
    requires Confirmed(s) && Carried(e) == {} && Before(conf, s, e, ch, v)
    ensures s.out.Some?
    ensures Sound(conf, s, e, ch, Next(s, ch.Put(s.out.value, Keepalive)), v)
  {
    hide Carry, Negotiated;
  }

  lemma KeepaliveRestarted(conf: Conf, s: State, e: Event, ch: Channels, x: Channels, v: View)
    requires Sound(conf, s, e, ch, Next(s, x), v) && !Drifts(s, e)
    ensures Sound(conf, s, e, ch, Next(s, x.Command(KeepaliveTimer, Restart)), v)
  {
    hide Carry, Invariant, Grammar, Headed, Unopened, Talking;
    CommandCarries(v.d, v.kind);
  }

  lemma KeepaliveSound(conf: Conf, s: State, e: Event, ch: Channels, v: View)
    requires Confirmed(s) && Carried(e) == {} && Before(conf, s, e, ch, v)
    ensures s.out.Some?
    ensures Sound(conf, s, e, ch, Next(s, ch.Put(s.out.value, Keepalive)), v)
    ensures Sound(conf, s, e, ch, Next(s, ch.Put(s.out.value, Keepalive).Command(KeepaliveTimer, Restart)), v)
  {
    hide Sound, Before;
    KeepaliveSaid(conf, s, e, ch, v);
    KeepaliveRestarted(conf, s, e, ch, ch.Put(s.out.value, Keepalive), v);
  }

  lemma HoldRestartSound(conf: Conf, s: State, e: Event, ch: Channels, v: View)
    requires (s.phase.OpenConfirm? || s.phase.Established?) && Carried(e) == {} && Before(conf, s, e, ch, v)
    ensures Sound(conf, s, e, ch, Next(s.(phase := Established), ch.Command(HoldTimer, Restart)), v)
  {
    hide Carry;
    CommandCarries(v.d, v.kind);
  }

  lemma OpenConfirmSound(conf: Conf, s: State, e: Event, src: Source, ch: Channels, v: View)
    requires s.phase.OpenConfirm? && Before(conf, s, e, ch, v)
    ensures Sound(conf, s, e, ch, StepOpenConfirm(s, e, src, ch), v)
  {
    hide Carry, Sound, Before, NoteOf, NoteFrom, Quit, NotifyAndQuit, KeepColliding, ResolveInOpenConfirm;
    InvariantParts(conf, s, e, ch, v);
    if StartEvent(e) {
      StaySound(conf, s, e, ch, v);
    } else {
      if Carried(e) == {} {
        StaySound(conf, s, e, ch, v);
        AllLeavingSound(conf, s, e, ch, v);
      }
      match e
      case KeepaliveExpires => KeepaliveSound(conf, s, e, ch, v);
      case KeepaliveReceived => HoldRestartSound(conf, s, e, ch, v);
      case TcpCRAcked(_) => SecondConnectionSound(conf, s, e, ch, v);
      case TcpConnectionConfirmed(_) => SecondConnectionSound(conf, s, e, ch, v);
      case ProcessOneDone(_) => SecondConnectionSound(conf, s, e, ch, v);
      case BgpOpen(_, _) => ResolveInOpenConfirmSound(conf, s, e, ch, v);
      case _ =>
    }
  }

  lemma EstablishedSound(conf: Conf, s: State, e: Event, ch: Channels, v: View)
    requires s.phase.Established? && Before(conf, s, e, ch, v)
    ensures Sound(conf, s, e, ch, StepEstablished(s, e, ch), v)
  {
    hide Carry, Sound, Before, NoteOf, NoteFrom, Quit, NotifyAndQuit, KeepColliding, ResolveInEstablished;
    InvariantParts(conf, s, e, ch, v);
    if StartEvent(e) {
      StaySound(conf, s, e, ch, v);
    } else {
      if Carried(e) == {} {
        StaySound(conf, s, e, ch, v);
        AllLeavingSound(conf, s, e, ch, v);
      }
      match e
      case KeepaliveExpires => KeepaliveSound(conf, s, e, ch, v);
      case KeepaliveReceived | UpdateReceived => HoldRestartSound(conf, s, e, ch, v);
      case TcpCRAcked(_) => SecondConnectionSound(conf, s, e, ch, v);
      case TcpConnectionConfirmed(_) => SecondConnectionSound(conf, s, e, ch, v);
      case ProcessOneDone(_) => SecondConnectionSound(conf, s, e, ch, v);
      case BgpOpen(_, _) => ResolveInEstablishedSound(conf, s, e, ch, v);
      case _ =>
    }
  }

  /** Every arm of the session is sound. */
  lemma StepSound(conf: Conf, s: State, e: Event, src: Source, ch: Channels, v: View)
    requires Before(conf, s, e, ch, v)
    ensures Sound(conf, s, e, ch, React(conf, s, e, src, ch), v)
  {
    hide StepIdle, StepConnect, StepActive, StepOpenSent, StepOpenConfirm, StepEstablished, Before, Sound;
    match s.phase
    case Idle => IdleSound(conf, s, e, ch, v);
    case Connect => ConnectSound(conf, s, e, ch, v);
    case Active => ActiveSound(conf, s, e, ch, v);
    case OpenSent => OpenSentSound(conf, s, e, src, ch, v);
    case OpenConfirm => OpenConfirmSound(conf, s, e, src, ch, v);
    case Established => EstablishedSound(conf, s, e, ch, v);
  }

  lemma {:induction false} Above(cs: set<ConnId>) returns (n: ConnId)
    ensures forall c | c in cs :: c < n
    decreases |cs|
  {
    n := 0;
    if cs != {} {
      var c :| c in cs;
      var m := Above(cs - {c});
      n := if c < m then m else c + 1;
      assert cs == (cs - {c}) + {c};
    }
  }

  /** An arm keeps the session's own invariant whatever was emitted before: there is always a connection
      that nothing was said of. */
  lemma InvariantKept(conf: Conf, s: State, e: Event, src: Source, ch: Channels)
    requires Invariant(conf, s)
    ensures var r := React(conf, s, e, src, ch); r.Next? ==> Invariant(conf, r.state)
  {
    hide React, Invariant;
    var c := Above(Held(s) + ch.opening + ch.closed + ch.log.Keys + Carried(e));
    StepSound(conf, s, e, src, ch, View({}, c, HoldTimer, 0));
  }
}
