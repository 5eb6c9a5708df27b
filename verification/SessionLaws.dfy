/** Every arm of every state does what the tables of `SessionTables` say. */
module SessionLaws {
  import opened Basics
  import opened Errors
  import opened Message
  import opened Fsm
  import opened Session
  import opened SessionInvariant
  import opened SessionProgress
  import opened SessionTables

  // ---------------------------------------------------------------- staying and leaving

  /** The events an arm answers by doing nothing at all. */
  predicate Ignored(s: State, e: Event, src: Source) {
    && !s.phase.Idle?
    && (|| Probe(e)
        || (Starting(e) && !s.phase.Connect?)
        || (BadMessage(e) && !src.FromBgp? && s.Colliding() && !s.phase.Established?)
        || (e.OpenCollisionDump? && s.phase.OpenConfirm?))
  }

  lemma IgnoredTables(conf: Conf, s: State, e: Event, src: Source)
    requires Ignored(s, e, src)
    ensures PhaseAfter(s, e, src) == s.phase && TasksAfter(conf, s, e, src) == []
    ensures Said(conf, s, e, src) == [] && CommandsAfter(conf, s, e, src) == []
  {
    hide Below;
  }

  lemma IgnoredState(conf: Conf, s: State, e: Event, src: Source, x: Channels)
    requires Ignored(s, e, src) && PhaseAfter(s, e, src) == s.phase && Paired(s)
    ensures StateLaw(conf, s, e, src, Next(s, x))
  {
    hide Below, PhaseAfter;
  }

  lemma StayLawful(conf: Conf, s: State, e: Event, src: Source, ch: Channels)
    requires Invariant(conf, s) && Ignored(s, e, src)
    ensures Lawful(conf, s, e, src, ch, Next(s, ch))
  {
    hide StateLaw, PhaseAfter, TasksAfter, Said, CommandsAfter, Below, Context, Agreed, TimersByPhase, CounterSmall;
    IgnoredTables(conf, s, e, src);
    IgnoredState(conf, s, e, src, ch);
    NothingMore();
    assert !(s.Colliding() && e.TcpCRAcked?);
  }

  lemma NothingMore()
    ensures forall l: seq<Message> {:trigger l + []} :: l + [] == l
    ensures forall l: seq<Timer> {:trigger l + []} :: l + [] == l
    ensures forall l: seq<Fsm.Task> {:trigger l + []} :: l + [] == l
  {
  }

  /** What is left of a session in Idle. */
  lemma IdleState(conf: Conf, s: State, e: Event, src: Source, a: Attr, x: Channels)
    requires !s.phase.Idle? && PhaseAfter(s, e, src).Idle? && a.counter == CounterAfter(s, e, src)
    ensures StateLaw(conf, s, e, src, Next(Fresh(Idle, a), x))
  {
    hide PhaseAfter, CounterAfter, Below;
  }

  lemma LeavingTasks(conf: Conf, s: State, e: Event, src: Source)
    requires !s.phase.Idle? && PhaseAfter(s, e, src).Idle? && (s.dialing ==> s.phase.Connect?)
    ensures TasksAfter(conf, s, e, src) == if s.phase.Connect? && s.dialing then [HangUp] else []
    ensures !Attaches(s, e) && !(s.Colliding() && e.TcpCRAcked?)
  {
    hide Below;
  }

  /** An arm that leaves for Idle, by what it emits. */
  lemma LeavesLawfully(conf: Conf, s: State, e: Event, src: Source, ch: Channels, a: Attr, x: Channels)
    requires Paired(s) && !s.phase.Idle? && PhaseAfter(s, e, src).Idle? && a.counter == CounterAfter(s, e, src)
    requires x.timers == ch.timers + CommandsAfter(conf, s, e, src)
    requires x.tasks == ch.tasks + (if s.phase.Connect? && s.dialing then [HangUp] else [])
    requires x.opening == ch.opening
    requires forall c: ConnId :: x.LogOf(c) == ch.LogOf(c) + if s.out == Some(c) then Said(conf, s, e, src) else []
    ensures Lawful(conf, s, e, src, ch, Next(Fresh(Idle, a), x))
  {
    hide StateLaw, SayingLaw, PhaseAfter, CounterAfter, CommandsAfter, Said, TasksAfter, Attaches;
    IdleState(conf, s, e, src, a, x);
    LeavingTasks(conf, s, e, src);
    SpeaksInHand(conf, s, e, src, ch, Next(Fresh(Idle, a), x));
  }

  /** An arm that attaches no connection speaks on the one in hand. */
  lemma SpeaksInHand(conf: Conf, s: State, e: Event, src: Source, ch: Channels, r: Step)
    requires r.Next? && !Attaches(s, e)
    requires forall c: ConnId :: r.ch.LogOf(c) == ch.LogOf(c) + if s.out == Some(c) then Said(conf, s, e, src) else []
    ensures SayingLaw(conf, s, e, src, ch, r)
  {
    hide Said, Attaches;
  }

  lemma QuitLawful(conf: Conf, s: State, e: Event, src: Source, ch: Channels, a: Attr, x: Channels)
    requires Invariant(conf, s)
    requires !s.phase.Idle? && PhaseAfter(s, e, src).Idle? && a.counter == CounterAfter(s, e, src)
    requires Said(conf, s, e, src) == [] && CommandsAfter(conf, s, e, src) == [StopRetry()]
    requires x.timers == ch.timers && x.log == ch.log && x.tasks == ch.tasks && x.opening == ch.opening
    ensures Lawful(conf, s, e, src, ch, Quit(s.(attr := a), x))
  {
    hide Said, CommandsAfter, CounterAfter, PhaseAfter, Lawful, Context, Agreed, TimersByPhase;
    NothingMore();
    var q := Quit(s.(attr := a), x);
    LeavesLawfully(conf, s, e, src, ch, q.state.attr, q.ch);
  }

  lemma NotifyLawful(conf: Conf, s: State, e: Event, src: Source, ch: Channels, a: Attr, m: Message)
    requires Invariant(conf, s)
    requires !s.phase.Idle? && PhaseAfter(s, e, src).Idle? && a.counter == CounterAfter(s, e, src)
    requires Said(conf, s, e, src) == [m] && CommandsAfter(conf, s, e, src) == [StopRetry()]
    ensures Lawful(conf, s, e, src, ch, NotifyAndQuit(s.(attr := a), m, ch))
  {
    hide Said, CommandsAfter, CounterAfter, PhaseAfter, Lawful, Context, Agreed, TimersByPhase;
    NothingMore();
    var q := NotifyAndQuit(s.(attr := a), m, ch);
    if q.Next? {
      LeavesLawfully(conf, s, e, src, ch, q.state.attr, q.ch);
    } else {
      StuckLawful(conf, s, e, src, ch);
    }
  }

  lemma QuitBothLawful(conf: Conf, s: State, e: Event, src: Source, ch: Channels, a: Attr, x: Channels)
    requires Invariant(conf, s)
    requires !s.phase.Idle? && PhaseAfter(s, e, src).Idle? && a.counter == CounterAfter(s, e, src)
    requires Said(conf, s, e, src) == [] && CommandsAfter(conf, s, e, src) == [StopRetry(), StopDelay()]
    requires x.timers == ch.timers && x.log == ch.log && x.tasks == ch.tasks && x.opening == ch.opening
    ensures Lawful(conf, s, e, src, ch, QuitBoth(s.(attr := a), x))
  {
    hide Said, CommandsAfter, CounterAfter, PhaseAfter, Lawful, Context, Agreed, TimersByPhase;
    NothingMore();
    var q := QuitBoth(s.(attr := a), x);
    assert ch.timers + [StopRetry()] + [StopDelay()] == ch.timers + [StopRetry(), StopDelay()];
    LeavesLawfully(conf, s, e, src, ch, q.state.attr, q.ch);
  }

  lemma NoteNumbers(err: Error)
    ensures NoteFrom(err) == NoteOn(err)
    ensures NoteOf(Cease) == Note(6, 0, None)
    ensures NoteOf(HoldTimerExpired) == Note(4, 0, None)
    ensures NoteOf(FiniteStateMachineError) == Note(5, 0, None)
  {
  }

  // ---------------------------------------------------------------- Idle

  lemma IdleLawful(conf: Conf, s: State, e: Event, src: Source, ch: Channels)
    requires s.phase.Idle? && Invariant(conf, s)
    ensures Lawful(conf, s, e, src, ch, StepIdle(s, e, ch))
  {
    hide SayingLaw, StateLaw, PhaseAfter, TasksAfter, Said, CommandsAfter;
    hide Below, Context, Agreed, TimersByPhase, CounterSmall;
    IdleTables(conf, s, e, src);
    IdleStays(conf, s, e, src, ch);
    IdleSpeaks(conf, s, e, src, ch);
    NothingMore();
  }

  lemma IdleSpeaks(conf: Conf, s: State, e: Event, src: Source, ch: Channels)
    requires s.phase.Idle? && Said(conf, s, e, src) == []
    ensures SayingLaw(conf, s, e, src, ch, StepIdle(s, e, ch))
  {
    hide Said;
    NothingMore();
  }

  lemma IdleTables(conf: Conf, s: State, e: Event, src: Source)
    requires s.phase.Idle?
    ensures PhaseAfter(s, e, src).Connect? <==> e.ManualStart? || e.AutomaticStart?
    ensures Said(conf, s, e, src) == []
    ensures TasksAfter(conf, s, e, src) == if PhaseAfter(s, e, src).Connect? then [Dial] else []
    ensures CommandsAfter(conf, s, e, src) ==
      if e.ManualStart? || e.AutomaticStart? || e.ManualStartPassive? || e.AutomaticStartPassive?
      then [Timer(ConnectRetryTimer, Reset(10 * ONE_SECOND))] else []
  {
  }

  lemma IdleStays(conf: Conf, s: State, e: Event, src: Source, ch: Channels)
    requires s.phase.Idle? && Paired(s)
    ensures StateLaw(conf, s, e, src, StepIdle(s, e, ch))
  {
    hide Below;
  }

  // ---------------------------------------------------------------- Connect and Active

  lemma AttachTables(conf: Conf, s: State, e: Event, src: Source)
    requires Attaches(s, e)
    ensures PhaseAfter(s, e, src) == if s.attr.opts.delayOpen then s.phase else OpenSent
    ensures Said(conf, s, e, src) == if s.attr.opts.delayOpen then [] else [Open(OpenOf(conf))]
    ensures TasksAfter(conf, s, e, src) == [Serve(e.conn, e.TcpConnectionConfirmed?)]
    ensures CommandsAfter(conf, s, e, src) ==
      if s.attr.opts.delayOpen then [StopRetry(), Timer(DelayOpenTimer, Reset(s.attr.opts.delayOpenTime))]
      else [StopRetry()]
  {
    hide Below;
  }

  lemma AttachState(conf: Conf, s: State, e: Event, src: Source, ch: Channels)
    requires Attaches(s, e) && Paired(s)
    requires PhaseAfter(s, e, src) == if s.attr.opts.delayOpen then s.phase else OpenSent
    ensures s.phase.Connect? ==>
      StateLaw(conf, s, e, src, ConnectAttach(conf, s, e.conn, e.TcpConnectionConfirmed?, ch))
    ensures s.phase.Active? ==>
      StateLaw(conf, s, e, src, ActiveAttach(conf, s, e.conn, e.TcpConnectionConfirmed?, ch))
  {
    hide Below, PhaseAfter;
  }

  lemma AttachSpeaks(conf: Conf, s: State, e: Event, src: Source, ch: Channels)
    requires Attaches(s, e)
    requires Said(conf, s, e, src) == if s.attr.opts.delayOpen then [] else [Open(OpenOf(conf))]
    ensures s.phase.Connect? ==>
      SayingLaw(conf, s, e, src, ch, ConnectAttach(conf, s, e.conn, e.TcpConnectionConfirmed?, ch))
    ensures s.phase.Active? ==>
      SayingLaw(conf, s, e, src, ch, ActiveAttach(conf, s, e.conn, e.TcpConnectionConfirmed?, ch))
  {
    hide Said;
    NothingMore();
  }

  lemma AttachLawful(conf: Conf, s: State, e: Event, src: Source, ch: Channels)
    requires Attaches(s, e) && Invariant(conf, s)
    ensures s.phase.Connect? ==>
      Lawful(conf, s, e, src, ch, ConnectAttach(conf, s, e.conn, e.TcpConnectionConfirmed?, ch))
    ensures s.phase.Active? ==>
      Lawful(conf, s, e, src, ch, ActiveAttach(conf, s, e.conn, e.TcpConnectionConfirmed?, ch))
  {
    hide StateLaw, SayingLaw, PhaseAfter, Said, TasksAfter, CommandsAfter, Below;
    hide Context, Agreed, TimersByPhase, CounterSmall;
    AttachTables(conf, s, e, src);
    AttachState(conf, s, e, src, ch);
    AttachSpeaks(conf, s, e, src, ch);
    NothingMore();
    var delay := Timer(DelayOpenTimer, Reset(s.attr.opts.delayOpenTime));
    assert ch.timers + [StopRetry()] + [delay] == ch.timers + [StopRetry(), delay];
  }

  /** Messages put one after the other. */
  lemma PutTwice(ch: Channels, c: ConnId, m: Message, n: Message)
    ensures forall d: ConnId ::
      ch.Put(c, m).Put(c, n).LogOf(d) == ch.LogOf(d) + if d == c then [m, n] else []
  {
    assert ch.LogOf(c) + [m] + [n] == ch.LogOf(c) + [m, n];
  }

  /** Answering late, in either state. */
  lemma AnswerEmits(conf: Conf, s: State, msg: OpenMsg, ch: Channels, otherwise: Operation)
    requires s.out.Some?
    ensures var r := ConfirmDelayed(conf, s, msg, ch, otherwise);
      var hold := Agreement(conf, msg);
      && r.Next? && r.ch.tasks == ch.tasks && r.ch.opening == ch.opening
      && r.state == s.(attr := r.state.attr, peerOpen := Some(msg), localOpen := Some(OpenOf(conf)))
      && r.state.attr.counter == s.attr.counter
      && r.ch.timers == ch.timers + [Timer(KeepaliveTimer, Reset(hold / 3)), Timer(HoldTimer, Reset(hold))]
      && forall d: ConnId :: r.ch.LogOf(d) ==
           ch.LogOf(d) + if s.out == Some(d) then [Open(OpenOf(conf)), Keepalive] else []
  {
    hide Negotiated;
    NegotiatedIsMinimum(LocalOpen(conf), msg);
    var hold := Agreement(conf, msg);
    var start, restart := Timer(KeepaliveTimer, Reset(hold / 3)), Timer(HoldTimer, Reset(hold));
    assert ch.timers + [start] + [restart] == ch.timers + [start, restart];
    PutTwice(ch, s.out.value, Open(OpenOf(conf)), Keepalive);
  }

  lemma ConfirmLawful(conf: Conf, s: State, e: Event, src: Source, ch: Channels)
    requires (s.phase.Connect? || s.phase.Active?) && e.BgpOpenDelayed? && Invariant(conf, s)
    ensures s.phase.Connect? ==> Lawful(conf, s, e, src, ch, ConnectConfirm(conf, s, e.msg, ch))
    ensures s.phase.Active? ==> Lawful(conf, s, e, src, ch, ActiveConfirm(conf, s, e.msg, ch))
  {
    hide ConfirmDelayed, Context, Agreed, TimersByPhase, CounterSmall;
    NothingMore();
    if s.out.None? {
      AnswerNeedsSender(conf, ch);
    } else {
      var x := ch.Command(ConnectRetryTimer, Stop).Command(DelayOpenTimer, Stop);
      var u := s.(attr := StopDelayOpen(StopConnectRetry(s.attr)));
      AnswerEmits(conf, ConnectIntoOpenConfirm(u), e.msg, x, Restart);
      AnswerEmits(conf, ActiveIntoOpenConfirm(u), e.msg, x, Stop);
      var hold := Agreement(conf, e.msg);
      var start, restart := Timer(KeepaliveTimer, Reset(hold / 3)), Timer(HoldTimer, Reset(hold));
      assert ch.timers + [StopRetry()] + [StopDelay()] + [start, restart]
          == ch.timers + [StopRetry(), StopDelay(), start, restart];
    }
  }

  lemma AnswerNeedsSender(conf: Conf, ch: Channels)
    ensures forall s: State, msg: OpenMsg, x: Channels, otherwise: Operation
      {:trigger ConfirmDelayed(conf, s, msg, x, otherwise)} ::
      s.out.None? ==> ConfirmDelayed(conf, s, msg, x, otherwise).Stuck?
  {
  }

  /** The connect-retry timer runs out, or the connection fails. */
  predicate Retries(s: State, e: Event) {
    (s.phase.Connect? || s.phase.Active?) && (e.ConnectRetryExpires? || e.TcpConnectionFails?)
  }

  lemma RetryTables(conf: Conf, s: State, e: Event, src: Source)
    requires Retries(s, e)
    ensures Said(conf, s, e, src) == []
    ensures PhaseAfter(s, e, src) ==
      if e.ConnectRetryExpires? then Connect
      else if s.phase.Connect? && s.attr.curDelayOpen != NEVER then Active else Idle
    ensures TasksAfter(conf, s, e, src) ==
      (if s.phase.Connect? && s.dialing then [HangUp] else []) + (if e.ConnectRetryExpires? then [Dial] else [])
    ensures CommandsAfter(conf, s, e, src) ==
      if e.ConnectRetryExpires? && s.phase.Active? then [Timer(ConnectRetryTimer, Restart)]
      else if e.TcpConnectionFails? && s.phase.Connect? && s.attr.curDelayOpen == NEVER then [StopRetry()]
      else [Timer(ConnectRetryTimer, Restart), StopDelay()]
  {
    hide Below;
  }

  lemma RetryState(conf: Conf, s: State, e: Event, src: Source, ch: Channels)
    requires Retries(s, e) && Paired(s)
    ensures s.phase.Connect? && e.ConnectRetryExpires? ==> StateLaw(conf, s, e, src, Redial(s, ch))
    ensures s.phase.Connect? && e.TcpConnectionFails? ==> StateLaw(conf, s, e, src, ConnectFails(s, ch))
    ensures s.phase.Active? && e.ConnectRetryExpires? ==> StateLaw(conf, s, e, src, DialFromActive(s, ch))
    ensures s.phase.Active? && e.TcpConnectionFails? ==> StateLaw(conf, s, e, src, ActiveFails(s, ch))
  {
    hide Below;
  }

  lemma RetrySpeaks(conf: Conf, s: State, e: Event, src: Source, ch: Channels)
    requires Retries(s, e) && Said(conf, s, e, src) == []
    ensures s.phase.Connect? && e.ConnectRetryExpires? ==> SayingLaw(conf, s, e, src, ch, Redial(s, ch))
    ensures s.phase.Connect? && e.TcpConnectionFails? ==> SayingLaw(conf, s, e, src, ch, ConnectFails(s, ch))
    ensures s.phase.Active? && e.ConnectRetryExpires? ==> SayingLaw(conf, s, e, src, ch, DialFromActive(s, ch))
    ensures s.phase.Active? && e.TcpConnectionFails? ==> SayingLaw(conf, s, e, src, ch, ActiveFails(s, ch))
  {
    hide Said;
    NothingMore();
  }

  lemma RetryLawful(conf: Conf, s: State, e: Event, src: Source, ch: Channels)
    requires Retries(s, e) && Invariant(conf, s)
    ensures s.phase.Connect? && e.ConnectRetryExpires? ==> Lawful(conf, s, e, src, ch, Redial(s, ch))
    ensures s.phase.Connect? && e.TcpConnectionFails? ==> Lawful(conf, s, e, src, ch, ConnectFails(s, ch))
    ensures s.phase.Active? && e.ConnectRetryExpires? ==> Lawful(conf, s, e, src, ch, DialFromActive(s, ch))
    ensures s.phase.Active? && e.TcpConnectionFails? ==> Lawful(conf, s, e, src, ch, ActiveFails(s, ch))
  {
    hide StateLaw, SayingLaw, PhaseAfter, Said, TasksAfter, CommandsAfter, Below;
    hide Context, Agreed, TimersByPhase, CounterSmall;
    RetryTables(conf, s, e, src);
    RetryState(conf, s, e, src, ch);
    RetrySpeaks(conf, s, e, src, ch);
    NothingMore();
    var restart := Timer(ConnectRetryTimer, Restart);
    assert ch.timers + [restart] + [StopDelay()] == ch.timers + [restart, StopDelay()];
    assert ch.tasks + [HangUp] + [Dial] == ch.tasks + ([HangUp] + [Dial]);
    assert ch.tasks + ([] + [Dial]) == ch.tasks + [Dial];
  }

  lemma OpenErrorLawful(conf: Conf, s: State, e: Event, src: Source, ch: Channels)
    requires (s.phase.Connect? || s.phase.Active?) && BadMessage(e) && Invariant(conf, s)
    ensures Lawful(conf, s, e, src, ch, QuitOnOpenError(s, e.err, ch))
  {
    hide Lawful, Quit, NotifyAndQuit;
    NoteNumbers(e.err);
    if s.attr.opts.notifyWithoutOpen {
      NotifyLawful(conf, s, e, src, ch, CountRetry(s.attr), NoteFrom(e.err));
    } else {
      QuitLawful(conf, s, e, src, ch, CountRetry(s.attr), ch);
    }
  }

  lemma VersionErrorLawful(conf: Conf, s: State, e: Event, src: Source, ch: Channels)
    requires (s.phase.Connect? || s.phase.Active?) && e.NotifyMsgVerErr? && Invariant(conf, s)
    ensures Lawful(conf, s, e, src, ch, QuitOnVersionError(s, ch))
  {
    hide Lawful, Quit, QuitBoth;
    assert s.(attr := s.attr) == s;
    if s.attr.curHold != NEVER {
      QuitBothLawful(conf, s, e, src, ch, s.attr, ch);
    } else {
      QuitLawful(conf, s, e, src, ch, CountRetry(s.attr), ch);
    }
  }

  /** The events that neither state has an arm of its own for. */
  predicate Unexpected(s: State, e: Event) {
    && !Probe(e) && !BringsTcp(e) && !e.BgpOpenDelayed? && !e.ConnectRetryExpires? && !e.TcpConnectionFails?
    && !BadMessage(e) && !e.NotifyMsgVerErr? && !e.DelayOpenExpires? && !e.ManualStop?
    && (s.phase.Connect? || (s.phase.Active? && !Starting(e)))
  }

  lemma UnexpectedTables(conf: Conf, s: State, e: Event, src: Source)
    requires Unexpected(s, e)
    ensures PhaseAfter(s, e, src).Idle? && CounterAfter(s, e, src) == s.attr.counter + 1
    ensures Said(conf, s, e, src) == []
    ensures CommandsAfter(conf, s, e, src) == if s.phase.Connect? then [StopRetry(), StopDelay()] else [StopRetry()]
  {
    hide Below;
  }

  lemma GiveUpLawful(conf: Conf, s: State, e: Event, src: Source, ch: Channels)
    requires Unexpected(s, e) && Invariant(conf, s)
    ensures s.phase.Connect? ==> Lawful(conf, s, e, src, ch, ConnectGiveUp(s, e, ch))
    ensures s.phase.Active? ==> Lawful(conf, s, e, src, ch, ActiveGiveUp(s, e, ch))
  {
    hide Lawful, Invariant, Quit, QuitBoth, Said, CommandsAfter, PhaseAfter, CounterAfter;
    UnexpectedTables(conf, s, e, src);
    var x := ch.Close(Carried(e));
    if s.phase.Connect? {
      QuitBothLawful(conf, s, e, src, ch, CountRetry(s.attr), x);
    } else {
      QuitLawful(conf, s, e, src, ch, CountRetry(s.attr), x);
    }
  }

  lemma StopConnectLawful(conf: Conf, s: State, e: Event, src: Source, ch: Channels)
    requires s.phase.Connect? && e.ManualStop? && Invariant(conf, s)
    ensures Lawful(conf, s, e, src, ch, StepConnect(conf, s, e, ch))
  {
    hide Lawful, Invariant, Quit, Below;
    QuitLawful(conf, s, e, src, ch, s.attr.(counter := 0), ch);
  }

  lemma ConnectLawful(conf: Conf, s: State, e: Event, src: Source, ch: Channels)
    requires s.phase.Connect? && Invariant(conf, s)
    ensures Lawful(conf, s, e, src, ch, StepConnect(conf, s, e, ch))
  {
    hide Lawful, Invariant, Quit, Redial, ConnectAttach, ConnectFails, ConnectConfirm, ConnectDelayOver;
    hide ConnectGiveUp, QuitOnOpenError, QuitOnVersionError;
    if Probe(e) {
      StayLawful(conf, s, e, src, ch);
    } else if BringsTcp(e) {
      AttachLawful(conf, s, e, src, ch);
    } else if e.BgpOpenDelayed? {
      ConfirmLawful(conf, s, e, src, ch);
    } else if e.ConnectRetryExpires? || e.TcpConnectionFails? {
      RetryLawful(conf, s, e, src, ch);
    } else if BadMessage(e) {
      OpenErrorLawful(conf, s, e, src, ch);
    } else if e.NotifyMsgVerErr? {
      VersionErrorLawful(conf, s, e, src, ch);
    } else if e.DelayOpenExpires? {
      DelayOverInConnect(conf, s, ch);
      StuckLawful(conf, s, e, src, ch);
    } else if e.ManualStop? {
      StopConnectLawful(conf, s, e, src, ch);
    } else {
      GiveUpLawful(conf, s, e, src, ch);
    }
  }

  lemma StuckLawful(conf: Conf, s: State, e: Event, src: Source, ch: Channels)
    ensures Lawful(conf, s, e, src, ch, Stuck)
  {
  }

  lemma StopTables(conf: Conf, s: State, e: Event, src: Source)
    requires s.phase.Active? && e.ManualStop?
    ensures PhaseAfter(s, e, src).Idle? && CounterAfter(s, e, src) == 0
    ensures Said(conf, s, e, src) ==
      if s.attr.curHold != NEVER && s.attr.opts.notifyWithoutOpen then [Note(6, 0, None)] else []
    ensures CommandsAfter(conf, s, e, src) ==
      if s.attr.curHold != NEVER then [StopDelay(), StopRetry()] else [StopRetry()]
  {
    hide Below;
  }

  lemma StopActiveLawful(conf: Conf, s: State, e: Event, src: Source, ch: Channels)
    requires s.phase.Active? && e.ManualStop? && Invariant(conf, s)
    ensures Lawful(conf, s, e, src, ch, StopActive(s, ch))
  {
    hide Lawful, PhaseAfter, CounterAfter, Said, CommandsAfter, Below, Context, Agreed, TimersByPhase;
    StopTables(conf, s, e, src);
    NothingMore();
    NoteNumbers(Error(Cease, Undefined, None));
    assert ch.timers + [StopDelay()] + [StopRetry()] == ch.timers + [StopDelay(), StopRetry()];
    var r := StopActive(s, ch);
    if r.Next? {
      LeavesLawfully(conf, s, e, src, ch, r.state.attr, r.ch);
    } else {
      StuckLawful(conf, s, e, src, ch);
    }
  }

  lemma DelayOverLawful(conf: Conf, s: State, e: Event, src: Source, ch: Channels)
    requires s.phase.Active? && e.DelayOpenExpires? && Invariant(conf, s)
    ensures Lawful(conf, s, e, src, ch, ActiveDelayOver(conf, s, ch))
  {
    assert ch.timers + [StopRetry()] + [StopDelay()] == ch.timers + [StopRetry(), StopDelay()];
    assert ch.tasks + [] == ch.tasks;
  }

  lemma ActiveLawful(conf: Conf, s: State, e: Event, src: Source, ch: Channels)
    requires s.phase.Active? && Invariant(conf, s)
    ensures Lawful(conf, s, e, src, ch, StepActive(conf, s, e, ch))
  {
    hide Lawful, Invariant, Quit, DialFromActive, ActiveAttach, ActiveFails, ActiveConfirm, ActiveDelayOver, StopActive;
    hide ActiveGiveUp, QuitOnOpenError, QuitOnVersionError;
    if Probe(e) || Starting(e) {
      StayLawful(conf, s, e, src, ch);
    } else if BringsTcp(e) {
      AttachLawful(conf, s, e, src, ch);
    } else if e.BgpOpenDelayed? {
      ConfirmLawful(conf, s, e, src, ch);
    } else if e.ConnectRetryExpires? || e.TcpConnectionFails? {
      RetryLawful(conf, s, e, src, ch);
    } else if BadMessage(e) {
      OpenErrorLawful(conf, s, e, src, ch);
    } else if e.NotifyMsgVerErr? {
      VersionErrorLawful(conf, s, e, src, ch);
    } else if e.DelayOpenExpires? {
      DelayOverLawful(conf, s, e, src, ch);
    } else if e.ManualStop? {
      StopActiveLawful(conf, s, e, src, ch);
    } else {
      GiveUpLawful(conf, s, e, src, ch);
    }
  }

  // ---------------------------------------------------------------- OpenSent, OpenConfirm, Established

  /** What an event leaves alone that no table names: nothing said, commanded or started. */
  lemma QuietTables(conf: Conf, s: State, e: Event, src: Source)
    requires s.Colliding() && Second(e)
    ensures PhaseAfter(s, e, src) == s.phase && CounterAfter(s, e, src) == s.attr.counter
    ensures Said(conf, s, e, src) == [] && CommandsAfter(conf, s, e, src) == [] && TasksAfter(conf, s, e, src) == []
  {
    hide Below;
  }

  lemma SecondLawful(conf: Conf, s: State, e: Event, src: Source, ch: Channels)
    requires s.Colliding() && Second(e) && Invariant(conf, s)
    ensures e.TcpCRAcked? ==> Lawful(conf, s, e, src, ch, Next(s, ch.ReadOpenFrom(e.conn)))
    ensures !e.TcpCRAcked? ==> Lawful(conf, s, e, src, ch, KeepColliding(s, e.conn, ch))
  {
    hide Below, Said, CommandsAfter, TasksAfter, PhaseAfter, CounterAfter, Context, Agreed, TimersByPhase, CounterSmall;
    QuietTables(conf, s, e, src);
    NothingMore();
  }

  lemma OpenSentFailsLawful(conf: Conf, s: State, e: Event, src: Source, ch: Channels)
    requires s.phase.OpenSent? && e.TcpConnectionFails? && Invariant(conf, s)
    ensures Lawful(conf, s, e, src, ch, OpenSentFails(s, ch))
  {
    assert ch.tasks + [] == ch.tasks;
  }

  /** What collision detection in OpenSent comes to, before the OPEN is confirmed. */
  lemma ResolvedInOpenSent(conf: Conf, s: State, e: Event, ch: Channels)
    requires s.phase.OpenSent? && e.BgpOpen? && Invariant(conf, s)
    ensures var r := ResolveInOpenSent(conf, s, e.msg, e.remoteSyn, ch);
      r.Next? && s.localOpen.Some? ==>
        && r.state == s.(conn := r.state.conn, out := r.state.out, collision := r.state.collision)
        && r.state.conn == r.state.out == (if Replaces(conf, s, e) then s.collision else s.out)
        && r.state.collision == (if Meets(s, e) then None else s.collision)
        && (Replaces(conf, s, e) ==> s.collision.Some? && s.out.Some?)
        && r.ch.timers == ch.timers && r.ch.opening == ch.opening
        && r.ch.tasks == ch.tasks + (if Replaces(conf, s, e) then [Serve(s.collision.value, e.remoteSyn)] else [])
        && r.ch.log == if Replaces(conf, s, e) then ch.Put(s.out.value, Note(6, 0, None)).log else ch.log
  {
    hide Below;
    assert ch.tasks + [] == ch.tasks;
    NoteNumbers(Error(Cease, Undefined, None));
  }

  lemma ConfirmTables(conf: Conf, s: State, e: Event, src: Source)
    requires s.phase.OpenSent? && e.BgpOpen?
    ensures PhaseAfter(s, e, src).OpenConfirm?
    ensures Said(conf, s, e, src) == if Replaces(conf, s, e) then [Note(6, 0, None)] else []
    ensures s.collision.Some? ==>
      TasksAfter(conf, s, e, src) == if Replaces(conf, s, e) then [Serve(s.collision.value, e.remoteSyn)] else []
    ensures !Replaces(conf, s, e) ==> TasksAfter(conf, s, e, src) == []
    ensures CommandsAfter(conf, s, e, src) ==
      [StopDelay(), StopRetry(), Timer(KeepaliveTimer, Reset(s.attr.keepaliveTime)),
       Timer(HoldTimer, Reset(Agreement(conf, e.msg)))]
  {
    hide Below;
  }

  lemma ConfirmState(conf: Conf, s: State, e: Event, src: Source, r: Step)
    requires s.phase.OpenSent? && e.BgpOpen? && Paired(s) && r.Next?
    requires PhaseAfter(s, e, src).OpenConfirm?
    requires r.state == s.(phase := OpenConfirm, attr := r.state.attr, peerOpen := Some(e.msg),
      conn := r.state.conn, out := r.state.out, collision := r.state.collision)
    requires r.state.attr.counter == s.attr.counter
    requires r.state.conn == r.state.out == (if Replaces(conf, s, e) then s.collision else s.out)
    requires r.state.collision == (if Meets(s, e) then None else s.collision)
    ensures StateLaw(conf, s, e, src, r)
  {
    hide PhaseAfter, Below;
  }

  lemma ConfirmOpenLawful(conf: Conf, s: State, e: Event, src: Source, ch: Channels)
    requires s.phase.OpenSent? && e.BgpOpen? && Invariant(conf, s)
    ensures Lawful(conf, s, e, src, ch, ConfirmOpen(conf, s, e.msg, e.remoteSyn, ch))
  {
    hide Below, Negotiated, ResolveInOpenSent, Replaces, Meets, StateLaw, SayingLaw;
    hide PhaseAfter, Said, TasksAfter, CommandsAfter, Agreed, CounterSmall;
    var r := ConfirmOpen(conf, s, e.msg, e.remoteSyn, ch);
    if r.Stuck? {
      StuckLawful(conf, s, e, src, ch);
    } else {
      ResolvedInOpenSent(conf, s, e, ch);
      ConfirmTables(conf, s, e, src);
      NegotiatedIsMinimum(s.localOpen.value, e.msg);
      var start := Timer(KeepaliveTimer, Reset(s.attr.keepaliveTime));
      var restart := Timer(HoldTimer, Reset(Agreement(conf, e.msg)));
      assert ch.timers + [StopDelay()] + [StopRetry()] + [start] + [restart]
          == ch.timers + [StopDelay(), StopRetry(), start, restart];
      ConfirmState(conf, s, e, src, r);
      ReplacedSpeaks(conf, s, e, src, ch, r);
    }
  }

  /** The connection that is replaced is told so. */
  lemma ReplacedSpeaks(conf: Conf, s: State, e: Event, src: Source, ch: Channels, r: Step)
    requires r.Next? && s.Colliding() && (Replaces(conf, s, e) ==> s.out.Some?)
    requires Said(conf, s, e, src) == if Replaces(conf, s, e) then [Note(6, 0, None)] else []
    requires r.ch.log == if Replaces(conf, s, e) then ch.Put(s.out.value, Note(6, 0, None)).log else ch.log
    ensures SayingLaw(conf, s, e, src, ch, r)
  {
    hide Said, Replaces;
    NothingMore();
  }

  lemma ResolveTables(conf: Conf, s: State, e: Event, src: Source)
    requires Confirmed(s) && e.BgpOpen?
    ensures PhaseAfter(s, e, src) == s.phase && CommandsAfter(conf, s, e, src) == []
    ensures Said(conf, s, e, src) == if s.phase.Established? && Replaces(conf, s, e) then [Note(6, 0, None)] else []
    ensures s.collision.Some? ==>
      TasksAfter(conf, s, e, src) == if Replaces(conf, s, e) then [Serve(s.collision.value, e.remoteSyn)] else []
    ensures !Replaces(conf, s, e) ==> TasksAfter(conf, s, e, src) == []
  {
    hide Below;
  }

  lemma ResolveState(conf: Conf, s: State, e: Event, src: Source, ch: Channels)
    requires Confirmed(s) && e.BgpOpen? && PhaseAfter(s, e, src) == s.phase
    requires Paired(s) && Context(conf, s)
    ensures s.phase.OpenConfirm? ==>
      StateLaw(conf, s, e, src, ResolveInOpenConfirm(s, e.msg, e.remoteSyn, ch))
    ensures s.phase.Established? ==>
      StateLaw(conf, s, e, src, ResolveInEstablished(s, e.msg, e.remoteSyn, ch))
  {
    hide Below, PhaseAfter;
  }

  lemma ResolveConfirmEmits(conf: Conf, s: State, e: Event, ch: Channels)
    requires s.phase.OpenConfirm? && e.BgpOpen? && Context(conf, s)
    ensures var r := ResolveInOpenConfirm(s, e.msg, e.remoteSyn, ch);
      r.Next? ==>
        && (Replaces(conf, s, e) ==> s.collision.Some?)
        && r.ch.timers == ch.timers && r.ch.opening == ch.opening && r.ch.log == ch.log
        && r.ch.tasks == ch.tasks + if Replaces(conf, s, e) then [Serve(s.collision.value, e.remoteSyn)] else []
  {
    hide Below;
    NothingMore();
  }

  lemma ResolveInOpenConfirmLawful(conf: Conf, s: State, e: Event, src: Source, ch: Channels)
    requires s.phase.OpenConfirm? && e.BgpOpen? && Invariant(conf, s)
    ensures Lawful(conf, s, e, src, ch, ResolveInOpenConfirm(s, e.msg, e.remoteSyn, ch))
  {
    hide Below, PhaseAfter, Said, TasksAfter, CommandsAfter, StateLaw, SayingLaw, Replaces, ResolveInOpenConfirm;
    ResolveTables(conf, s, e, src);
    ResolveState(conf, s, e, src, ch);
    ResolveConfirmEmits(conf, s, e, ch);
    NothingMore();
    var r := ResolveInOpenConfirm(s, e.msg, e.remoteSyn, ch);
    if r.Next? {
      QuietSpeaks(conf, s, e, src, ch, r);
    } else {
      StuckLawful(conf, s, e, src, ch);
    }
  }

  lemma QuietSpeaks(conf: Conf, s: State, e: Event, src: Source, ch: Channels, r: Step)
    requires r.Next? && r.ch.log == ch.log && Said(conf, s, e, src) == []
    ensures SayingLaw(conf, s, e, src, ch, r)
  {
    hide Said;
    NothingMore();
  }

  lemma ResolveEmits(conf: Conf, s: State, e: Event, ch: Channels)
    requires s.phase.Established? && e.BgpOpen? && Context(conf, s)
    ensures var r := ResolveInEstablished(s, e.msg, e.remoteSyn, ch);
      r.Next? ==>
        && (Replaces(conf, s, e) ==> s.out.Some? && s.collision.Some?)
        && r.ch.timers == ch.timers && r.ch.opening == ch.opening
        && r.ch.tasks == ch.tasks + (if Replaces(conf, s, e) then [Serve(s.collision.value, e.remoteSyn)] else [])
        && r.ch.log == if Replaces(conf, s, e) then ch.Put(s.out.value, Note(6, 0, None)).log else ch.log
  {
    hide Below;
    NoteNumbers(Error(Cease, Undefined, None));
    NothingMore();
  }

  lemma ResolveInEstablishedLawful(conf: Conf, s: State, e: Event, src: Source, ch: Channels)
    requires s.phase.Established? && e.BgpOpen? && Invariant(conf, s)
    ensures Lawful(conf, s, e, src, ch, ResolveInEstablished(s, e.msg, e.remoteSyn, ch))
  {
    hide Below, PhaseAfter, Said, TasksAfter, CommandsAfter, StateLaw, SayingLaw, Replaces, ResolveInEstablished;
    ResolveTables(conf, s, e, src);
    ResolveState(conf, s, e, src, ch);
    ResolveEmits(conf, s, e, ch);
    NothingMore();
    var r := ResolveInEstablished(s, e.msg, e.remoteSyn, ch);
    if r.Next? {
      ReplacedSpeaks(conf, s, e, src, ch, r);
    } else {
      StuckLawful(conf, s, e, src, ch);
    }
  }

  lemma KeepaliveLawful(conf: Conf, s: State, e: Event, src: Source, ch: Channels)
    requires Confirmed(s) && e.KeepaliveExpires? && Invariant(conf, s)
    ensures s.phase.OpenConfirm? ==> Lawful(conf, s, e, src, ch, StepOpenConfirm(s, e, src, ch))
    ensures s.phase.Established? ==> Lawful(conf, s, e, src, ch, StepEstablished(s, e, ch))
  {
    hide Negotiated, TimersByPhase, CounterSmall;
    NegotiatedIsMinimum(s.localOpen.value, s.peerOpen.value);
    NothingMore();
  }

  /** The peer shows that it is there. */
  predicate Received(s: State, e: Event) {
    Confirmed(s) && (e.KeepaliveReceived? || (e.UpdateReceived? && s.phase.Established?))
  }

  lemma ReceivedTables(conf: Conf, s: State, e: Event, src: Source)
    requires Received(s, e)
    ensures PhaseAfter(s, e, src).Established? && TasksAfter(conf, s, e, src) == []
    ensures Said(conf, s, e, src) == [] && CommandsAfter(conf, s, e, src) == [Timer(HoldTimer, Restart)]
  {
    hide Below;
  }

  lemma ReceivedState(conf: Conf, s: State, e: Event, src: Source, x: Channels)
    requires Received(s, e) && PhaseAfter(s, e, src).Established? && Paired(s)
    ensures StateLaw(conf, s, e, src, Next(s.(phase := Established), x))
  {
    hide Below, PhaseAfter;
  }

  lemma ReceivedLawful(conf: Conf, s: State, e: Event, src: Source, ch: Channels)
    requires Received(s, e) && Invariant(conf, s)
    ensures s.phase.OpenConfirm? ==> Lawful(conf, s, e, src, ch, StepOpenConfirm(s, e, src, ch))
    ensures s.phase.Established? ==> Lawful(conf, s, e, src, ch, StepEstablished(s, e, ch))
  {
    hide StateLaw, PhaseAfter, Said, TasksAfter, CommandsAfter, Below, Context, Agreed, TimersByPhase, CounterSmall;
    ReceivedTables(conf, s, e, src);
    ReceivedState(conf, s, e, src, ch.Command(HoldTimer, Restart));
    NothingMore();
  }

  lemma OpenSentLawful(conf: Conf, s: State, e: Event, src: Source, ch: Channels)
    requires s.phase.OpenSent? && Invariant(conf, s)
    ensures Lawful(conf, s, e, src, ch, StepOpenSent(conf, s, e, src, ch))
  {
    hide Lawful, Invariant, Quit, NotifyAndQuit, ConfirmOpen, KeepColliding, OpenSentFails, Below, NoteOf, NoteFrom;
    if Probe(e) || Starting(e) || (BadMessage(e) && !src.FromBgp?) {
      StayLawful(conf, s, e, src, ch);
    } else if Second(e) {
      SecondLawful(conf, s, e, src, ch);
    } else if e.BgpOpen? {
      ConfirmOpenLawful(conf, s, e, src, ch);
    } else if e.TcpConnectionFails? {
      OpenSentFailsLawful(conf, s, e, src, ch);
    } else {
      LeavesOpenSent(conf, s, e, src, ch);
    }
  }

  lemma LeavesOpenSent(conf: Conf, s: State, e: Event, src: Source, ch: Channels)
    requires s.phase.OpenSent? && Invariant(conf, s) && PhaseAfter(s, e, src).Idle?
    ensures Lawful(conf, s, e, src, ch, StepOpenSent(conf, s, e, src, ch))
  {
    hide Lawful, Invariant, Quit, NotifyAndQuit, ConfirmOpen, KeepColliding, OpenSentFails, Below, NoteOf, NoteFrom;
    var err := if BadMessage(e) then e.err else Error(Cease, Undefined, None);
    NoteNumbers(err);
    if e.NotifyMsgVerErr? {
      assert s.(attr := s.attr) == s;
      QuitLawful(conf, s, e, src, ch, s.attr, ch);
    } else if e.ManualStop? {
      NotifyLawful(conf, s, e, src, ch, s.attr.(counter := 0), NoteOf(Cease));
    } else if e.AutomaticStop? {
      NotifyLawful(conf, s, e, src, ch, CountRetry(s.attr), NoteOf(Cease));
    } else if e.HoldExpires? {
      NotifyLawful(conf, s, e, src, ch, CountRetry(s.attr), NoteOf(HoldTimerExpired));
    } else if BadMessage(e) {
      NotifyLawful(conf, s, e, src, ch, CountRetry(s.attr), NoteFrom(e.err));
    } else {
      assert s.(attr := s.attr) == s;
      NotifyLawful(conf, s, e, src, ch, s.attr, NoteOf(FiniteStateMachineError));
    }
  }

  lemma OpenConfirmLawful(conf: Conf, s: State, e: Event, src: Source, ch: Channels)
    requires s.phase.OpenConfirm? && Invariant(conf, s)
    ensures Lawful(conf, s, e, src, ch, StepOpenConfirm(s, e, src, ch))
  {
    hide Lawful, Invariant, Quit, NotifyAndQuit, KeepColliding, ResolveInOpenConfirm, Below, NoteOf, NoteFrom;
    if Probe(e) || Starting(e) || e.OpenCollisionDump? || (BadMessage(e) && !src.FromBgp?) {
      StayLawful(conf, s, e, src, ch);
    } else if Second(e) {
      SecondLawful(conf, s, e, src, ch);
    } else if e.BgpOpen? {
      ResolveInOpenConfirmLawful(conf, s, e, src, ch);
    } else if e.KeepaliveExpires? {
      KeepaliveLawful(conf, s, e, src, ch);
    } else if e.KeepaliveReceived? {
      ReceivedLawful(conf, s, e, src, ch);
    } else {
      LeavesOpenConfirm(conf, s, e, src, ch);
    }
  }

  lemma LeavesOpenConfirm(conf: Conf, s: State, e: Event, src: Source, ch: Channels)
    requires s.phase.OpenConfirm? && Invariant(conf, s) && PhaseAfter(s, e, src).Idle?
    ensures Lawful(conf, s, e, src, ch, StepOpenConfirm(s, e, src, ch))
  {
    hide Lawful, Invariant, Quit, NotifyAndQuit, KeepColliding, ResolveInOpenConfirm, Below, NoteOf, NoteFrom;
    var err := if BadMessage(e) then e.err else Error(Cease, Undefined, None);
    NoteNumbers(err);
    if e.NotifyMsgVerErr? {
      assert s.(attr := s.attr) == s;
      QuitLawful(conf, s, e, src, ch, s.attr, ch);
    } else if e.TcpConnectionFails? {
      QuitLawful(conf, s, e, src, ch, CountRetry(s.attr), ch);
    } else if e.ManualStop? {
      NotifyLawful(conf, s, e, src, ch, s.attr.(counter := 0), NoteOf(Cease));
    } else if e.AutomaticStop? {
      NotifyLawful(conf, s, e, src, ch, CountRetry(s.attr), NoteOf(Cease));
    } else if e.HoldExpires? {
      NotifyLawful(conf, s, e, src, ch, CountRetry(s.attr), NoteOf(HoldTimerExpired));
    } else if BadMessage(e) {
      NotifyLawful(conf, s, e, src, ch, CountRetry(s.attr), NoteFrom(e.err));
    } else {
      NotifyLawful(conf, s, e, src, ch, CountRetry(s.attr), NoteOf(FiniteStateMachineError));
    }
  }

  lemma EstablishedLawful(conf: Conf, s: State, e: Event, src: Source, ch: Channels)
    requires s.phase.Established? && Invariant(conf, s)
    ensures Lawful(conf, s, e, src, ch, StepEstablished(s, e, ch))
  {
    hide Lawful, Invariant, Quit, NotifyAndQuit, KeepColliding, ResolveInEstablished, Below, NoteOf, NoteFrom;
    if Probe(e) || Starting(e) {
      StayLawful(conf, s, e, src, ch);
    } else if Second(e) {
      SecondLawful(conf, s, e, src, ch);
    } else if e.BgpOpen? {
      ResolveInEstablishedLawful(conf, s, e, src, ch);
    } else if e.KeepaliveExpires? {
      KeepaliveLawful(conf, s, e, src, ch);
    } else if e.KeepaliveReceived? || e.UpdateReceived? {
      ReceivedLawful(conf, s, e, src, ch);
    } else {
      LeavesEstablished(conf, s, e, src, ch);
    }
  }

  lemma LeavesEstablished(conf: Conf, s: State, e: Event, src: Source, ch: Channels)
    requires s.phase.Established? && Invariant(conf, s) && PhaseAfter(s, e, src).Idle?
    ensures Lawful(conf, s, e, src, ch, StepEstablished(s, e, ch))
  {
    hide Lawful, Invariant, Quit, NotifyAndQuit, KeepColliding, ResolveInEstablished, Below, NoteOf, NoteFrom;
    var err := if e.UpdateMsgErr? then e.err else Error(Cease, Undefined, None);
    NoteNumbers(err);
    if e.NotifyMsgVerErr? || e.NotifyMsg? || e.TcpConnectionFails? {
      QuitLawful(conf, s, e, src, ch, CountRetry(s.attr), ch);
    } else if e.ManualStop? {
      NotifyLawful(conf, s, e, src, ch, s.attr.(counter := 0), NoteOf(Cease));
    } else if e.AutomaticStop? {
      NotifyLawful(conf, s, e, src, ch, CountRetry(s.attr), NoteOf(Cease));
    } else if e.HoldExpires? {
      NotifyLawful(conf, s, e, src, ch, CountRetry(s.attr), NoteOf(HoldTimerExpired));
    } else if e.UpdateMsgErr? {
      NotifyLawful(conf, s, e, src, ch, CountRetry(s.attr), NoteFrom(e.err));
    } else {
      NotifyLawful(conf, s, e, src, ch, CountRetry(s.attr), NoteOf(FiniteStateMachineError));
    }
  }

  // ---------------------------------------------------------------- the times

  lemma LateTimes(conf: Conf, s: State, e: Event, ch: Channels)
    requires AnswersLate(s, e)
    ensures s.phase.Connect? ==> TimesLaw(conf, s, e, ConnectConfirm(conf, s, e.msg, ch))
    ensures s.phase.Active? ==> TimesLaw(conf, s, e, ActiveConfirm(conf, s, e.msg, ch))
  {
    hide Negotiated;
    NegotiatedIsMinimum(LocalOpen(conf), e.msg);
  }

  lemma AttachTimes(conf: Conf, s: State, e: Event, ch: Channels)
    requires Attaches(s, e)
    ensures s.phase.Connect? ==>
      TimesLaw(conf, s, e, ConnectAttach(conf, s, e.conn, e.TcpConnectionConfirmed?, ch))
    ensures s.phase.Active? ==>
      TimesLaw(conf, s, e, ActiveAttach(conf, s, e.conn, e.TcpConnectionConfirmed?, ch))
  {
  }

  /** The arms of Connect and Active without a connection or an OPEN leave the times alone. */
  lemma QuietConnectTimes(conf: Conf, s: State, e: Event, ch: Channels)
    requires s.phase.Connect? && !BringsTcp(e) && !e.BgpOpenDelayed?
    ensures var r := StepConnect(conf, s, e, ch); r.Next? ==> SameTimes(s.attr, r.state.attr)
  {
    hide QuitBoth, Quit, NotifyAndQuit, NoteFrom, NoteOf;
    LeavingGoesIdle();
  }

  lemma QuietActiveTimes(conf: Conf, s: State, e: Event, ch: Channels)
    requires s.phase.Active? && !BringsTcp(e) && !e.BgpOpenDelayed?
    ensures var r := StepActive(conf, s, e, ch); r.Next? ==> SameTimes(s.attr, r.state.attr)
  {
    hide QuitBoth, Quit, NotifyAndQuit, NoteFrom, NoteOf;
    LeavingGoesIdle();
  }

  lemma ConnectTimes(conf: Conf, s: State, e: Event, ch: Channels)
    requires s.phase.Connect?
    ensures TimesLaw(conf, s, e, StepConnect(conf, s, e, ch))
  {
    hide TimesLaw, StepConnect, SameTimes;
    if e.BgpOpenDelayed? {
      ConnectConfirms(conf, s, e, ch);
      LateTimes(conf, s, e, ch);
    } else if BringsTcp(e) {
      ConnectAttaches(conf, s, e, ch);
      AttachTimes(conf, s, e, ch);
    } else {
      QuietConnectTimes(conf, s, e, ch);
      PlainTimes(conf, s, e);
    }
  }

  predicate SameTimes(a: Attr, b: Attr) {
    b.opts == a.opts && b.holdTime == a.holdTime && b.keepaliveTime == a.keepaliveTime
  }

  /** Any other arm leaves the times alone. */
  lemma PlainTimes(conf: Conf, s: State, e: Event)
    ensures forall r: Step {:trigger TimesLaw(conf, s, e, r)} ::
      !ConfirmsOpen(s, e) && !Attaches(s, e) && (r.Next? ==> SameTimes(s.attr, r.state.attr))
      ==> TimesLaw(conf, s, e, r)
  {
  }

  lemma ActiveTimes(conf: Conf, s: State, e: Event, ch: Channels)
    requires s.phase.Active?
    ensures TimesLaw(conf, s, e, StepActive(conf, s, e, ch))
  {
    hide TimesLaw, SameTimes, ActiveConfirm, ActiveAttach;
    if e.BgpOpenDelayed? {
      LateTimes(conf, s, e, ch);
    } else if BringsTcp(e) {
      AttachTimes(conf, s, e, ch);
    } else {
      hide StepActive;
      QuietActiveTimes(conf, s, e, ch);
      PlainTimes(conf, s, e);
    }
  }

  lemma ConfirmTimes(conf: Conf, s: State, e: Event, ch: Channels)
    requires s.phase.OpenSent? && e.BgpOpen? && Context(conf, s)
    ensures TimesLaw(conf, s, e, ConfirmOpen(conf, s, e.msg, e.remoteSyn, ch))
  {
    hide Negotiated, ResolveInOpenSent, Below;
    ResolvingKeepsRest(conf, s, e, ch);
    if s.localOpen.Some? {
      NegotiatedIsMinimum(s.localOpen.value, e.msg);
    }
  }

  lemma ResolvingKeepsRest(conf: Conf, s: State, e: Event, ch: Channels)
    requires e.BgpOpen?
    ensures var r := ResolveInOpenSent(conf, s, e.msg, e.remoteSyn, ch); r.Next? ==> r.state.attr == s.attr
    ensures var r := ResolveInOpenConfirm(s, e.msg, e.remoteSyn, ch); r.Next? ==> r.state.attr == s.attr
    ensures var r := ResolveInEstablished(s, e.msg, e.remoteSyn, ch); r.Next? ==> r.state.attr == s.attr
  {
    hide Below, NoteOf;
  }

  lemma OpenSentTimes(conf: Conf, s: State, e: Event, src: Source, ch: Channels)
    requires s.phase.OpenSent? && Context(conf, s)
    ensures TimesLaw(conf, s, e, StepOpenSent(conf, s, e, src, ch))
  {
    hide TimesLaw, ConfirmOpen, Quit, NotifyAndQuit, NoteFrom, NoteOf;
    LeavingGoesIdle();
    PlainTimes(conf, s, e);
    if e.BgpOpen? {
      ConfirmTimes(conf, s, e, ch);
    }
  }

  lemma OpenConfirmTimes(conf: Conf, s: State, e: Event, src: Source, ch: Channels)
    requires s.phase.OpenConfirm?
    ensures TimesLaw(conf, s, e, StepOpenConfirm(s, e, src, ch))
  {
    hide TimesLaw, ResolveInOpenConfirm, Quit, NotifyAndQuit, NoteFrom, NoteOf;
    LeavingGoesIdle();
    PlainTimes(conf, s, e);
    if e.BgpOpen? {
      ResolvingKeepsRest(conf, s, e, ch);
    }
  }

  lemma EstablishedTimes(conf: Conf, s: State, e: Event, src: Source, ch: Channels)
    requires s.phase.Established?
    ensures TimesLaw(conf, s, e, StepEstablished(s, e, ch))
  {
    hide TimesLaw, ResolveInEstablished, Quit, NotifyAndQuit, NoteFrom, NoteOf;
    LeavingGoesIdle();
    PlainTimes(conf, s, e);
    if e.BgpOpen? {
      ResolvingKeepsRest(conf, s, e, ch);
    }
  }

  lemma IdleTimes(conf: Conf, s: State, e: Event, ch: Channels)
    requires s.phase.Idle?
    ensures TimesLaw(conf, s, e, StepIdle(s, e, ch))
  {
    hide Agreement;
  }

  /** What every arm does to the times. */
  lemma EveryArmTimes(conf: Conf, s: State, e: Event, src: Source, ch: Channels)
    requires Context(conf, s)
    ensures TimesLaw(conf, s, e, React(conf, s, e, src, ch))
  {
    hide StepIdle, StepConnect, StepActive, StepOpenSent, StepOpenConfirm, StepEstablished, TimesLaw;
    match s.phase
    case Idle => IdleTimes(conf, s, e, ch);
    case Connect => ConnectTimes(conf, s, e, ch);
    case Active => ActiveTimes(conf, s, e, ch);
    case OpenSent => OpenSentTimes(conf, s, e, src, ch);
    case OpenConfirm => OpenConfirmTimes(conf, s, e, src, ch);
    case Established => EstablishedTimes(conf, s, e, src, ch);
  }

  /** Every arm of every state, on every event from everywhere, does what the tables above say. */
  lemma EveryArmLawful(conf: Conf, s: State, e: Event, src: Source, ch: Channels)
    requires Invariant(conf, s)
    ensures Lawful(conf, s, e, src, ch, React(conf, s, e, src, ch))
  {
    hide StepIdle, StepConnect, StepActive, StepOpenSent, StepOpenConfirm, StepEstablished, Lawful, Invariant;
    match s.phase
    case Idle => IdleLawful(conf, s, e, src, ch);
    case Connect => ConnectLawful(conf, s, e, src, ch);
    case Active => ActiveLawful(conf, s, e, src, ch);
    case OpenSent => OpenSentLawful(conf, s, e, src, ch);
    case OpenConfirm => OpenConfirmLawful(conf, s, e, src, ch);
    case Established => EstablishedLawful(conf, s, e, src, ch);
  }
}
