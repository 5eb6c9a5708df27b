/** How far a session has come since it left Idle, and what its arms tell the delay-open timer. */
module SessionProgress {
  import opened Basics
  import opened Message
  import opened Fsm
  import opened Session
  import opened SessionInvariant
  import opened SessionEffects

  // ---------------------------------------------------------------- the events so far

  predicate Starts(e: Event) {
    e.ManualStart? || e.AutomaticStart? || e.ManualStartPassive? || e.AutomaticStartPassive?
  }

  predicate BringsTcp(e: Event) {
    e.TcpCRAcked? || e.TcpConnectionConfirmed?
  }

  predicate BringsOpen(e: Event) {
    e.BgpOpen? || e.BgpOpenDelayed?
  }

  /** One step along start, TCP, OPEN, KEEPALIVE. */
  function Advance(n: nat, e: Event): nat {
    if n == 0 && Starts(e) then 1
    else if n == 1 && BringsTcp(e) then 2
    else if n == 2 && BringsOpen(e) then 3
    else if n == 3 && e.KeepaliveReceived? then 4
    else n
  }

  function Stage(h: seq<Event>): nat
    decreases |h|
  {
    if h == [] then 0 else Advance(Stage(h[..|h| - 1]), h[|h| - 1])
  }

  /** How far the events must have come for the session to be where it is. */
  function Reached(s: State): nat {
    match s.phase
    case Idle => 0
    case Connect => if s.out.Some? then 2 else 1
    case Active => if s.out.Some? then 2 else 1
    case OpenSent => 2
    case OpenConfirm => 3
    case Established => 4
  }

  predicate StageByStage(s: State, e: Event, r: Step) {
    r.Next? ==> Reached(r.state) <= Advance(Reached(s), e)
  }

  /** The ways of leaving for Idle. */
  lemma LeavingGoesIdle()
    ensures forall s: State, x: Channels {:trigger Quit(s, x)} ::
      var q := Quit(s, x);
      && q.Next? && q.state == Fresh(Idle, StopConnectRetry(s.attr))
      && q.ch.timers == x.Command(ConnectRetryTimer, Stop).timers
    ensures forall s: State, x: Channels {:trigger QuitBoth(s, x)} ::
      var q := QuitBoth(s, x);
      && q.Next? && q.state == Fresh(Idle, StopDelayOpen(StopConnectRetry(s.attr)))
      && q.ch.timers == x.Command(ConnectRetryTimer, Stop).Command(DelayOpenTimer, Stop).timers
    ensures forall s: State, m: Message, x: Channels {:trigger NotifyAndQuit(s, m, x)} ::
      var q := NotifyAndQuit(s, m, x);
      q.Next? ==>
        && q.state == Fresh(Idle, StopConnectRetry(s.attr))
        && q.ch.timers == x.Command(ConnectRetryTimer, Stop).timers
  {
  }

  lemma IdleStages(s: State, e: Event, ch: Channels)
    requires s.phase.Idle?
    ensures StageByStage(s, e, StepIdle(s, e, ch))
  {
  }

  lemma ConnectStages(conf: Conf, s: State, e: Event, ch: Channels)
    requires s.phase.Connect? && Paired(s)
    ensures StageByStage(s, e, StepConnect(conf, s, e, ch))
  {
    hide QuitBoth, Negotiated, KeepaliveFor, NoteOf, NoteFrom, StartTimers;
    LeavingGoesIdle();
  }

  lemma ActiveStages(conf: Conf, s: State, e: Event, ch: Channels)
    requires s.phase.Active? && Paired(s)
    ensures StageByStage(s, e, StepActive(conf, s, e, ch))
  {
    hide QuitBoth, Negotiated, KeepaliveFor, NoteOf, NoteFrom, StartTimers;
    LeavingGoesIdle();
  }

  lemma OpenSentStages(conf: Conf, s: State, e: Event, src: Source, ch: Channels)
    requires s.phase.OpenSent? && Paired(s)
    ensures StageByStage(s, e, StepOpenSent(conf, s, e, src, ch))
  {
    hide Negotiated, KeepaliveFor, NoteOf, NoteFrom, StartTimers, Below, Quit, NotifyAndQuit;
    LeavingGoesIdle();
  }

  lemma OpenConfirmStages(conf: Conf, s: State, e: Event, src: Source, ch: Channels)
    requires s.phase.OpenConfirm? && Paired(s)
    ensures StageByStage(s, e, StepOpenConfirm(s, e, src, ch))
  {
    hide Negotiated, KeepaliveFor, NoteOf, NoteFrom, StartTimers, Below, Quit, NotifyAndQuit;
    LeavingGoesIdle();
  }

  lemma EstablishedStages(conf: Conf, s: State, e: Event, src: Source, ch: Channels)
    requires s.phase.Established? && Paired(s)
    ensures StageByStage(s, e, StepEstablished(s, e, ch))
  {
    hide Negotiated, KeepaliveFor, NoteOf, NoteFrom, StartTimers, Below, Quit, NotifyAndQuit;
    LeavingGoesIdle();
  }

  /** No arm skips a stage. */
  lemma NoStageSkipped(conf: Conf, s: State, e: Event, src: Source, ch: Channels)
    requires Paired(s)
    ensures StageByStage(s, e, React(conf, s, e, src, ch))
  {
    hide StepIdle, StepConnect, StepActive, StepOpenSent, StepOpenConfirm, StepEstablished, StageByStage;
    match s.phase
    case Idle => IdleStages(s, e, ch);
    case Connect => ConnectStages(conf, s, e, ch);
    case Active => ActiveStages(conf, s, e, ch);
    case OpenSent => OpenSentStages(conf, s, e, src, ch);
    case OpenConfirm => OpenConfirmStages(conf, s, e, src, ch);
    case Established => EstablishedStages(conf, s, e, src, ch);
  }

  /** `h`, if it came at least to stage 4, has an event of each kind, in order. */
  lemma {:induction false} StagesInOrder(h: seq<Event>, n: nat) returns (i: nat)
    requires 1 <= n <= 4 && Stage(h) >= n
    ensures i < |h| && Stage(h[..i]) == n - 1 && Stage(h[..i + 1]) == n
    ensures match n
      case 1 => Starts(h[i])
      case 2 => BringsTcp(h[i])
      case 3 => BringsOpen(h[i])
      case _ => h[i].KeepaliveReceived?
    decreases |h|
  {
    var front := h[..|h| - 1];
    if Stage(front) >= n {
      i := StagesInOrder(front, n);
      assert h[..i] == front[..i] && h[..i + 1] == front[..i + 1];
    } else {
      i := |h| - 1;
      assert h[..i + 1] == h;
    }
  }

  lemma {:induction false} StageGrows(h: seq<Event>, i: nat, j: nat)
    requires i <= j <= |h|
    ensures Stage(h[..i]) <= Stage(h[..j])
    decreases j
  {
    if i < j {
      assert h[..j][..j - 1] == h[..j - 1];
      StageGrows(h, i, j - 1);
    }
  }

  // ---------------------------------------------------------------- what an arm leaves alone

  /** An OPEN that arrives while the session holds its own back, which it then answers with. */
  predicate AnswersLate(s: State, e: Event) {
    e.BgpOpenDelayed? && (s.phase.Connect? || s.phase.Active?)
  }

  /** Where the peer's OPEN comes from, when the negotiated times change, and what records the local
      OPEN. */
  predicate Sparing(conf: Conf, s: State, e: Event, r: Step) {
    r.Next? ==>
      && (r.state.peerOpen.Some? ==>
            r.state.peerOpen == s.peerOpen || (BringsOpen(e) && r.state.peerOpen == Some(e.msg)))
      && (Confirmed(s) ==> r.state.phase.Idle? || (Confirmed(r.state) && r.state.attr.holdTime == s.attr.holdTime))
      && r.state.attr.keepaliveTime == (
           if AnswersLate(s, e) then Seconds(Smaller(conf.holdTime, e.msg.holdTime)) / DFLT_KEEPALIVE_FACTOR
           else s.attr.keepaliveTime)
      && (s.localOpen.None? && !Confirmed(s) && !e.DelayOpenExpires? && !e.BgpOpenDelayed? ==>
            r.state.localOpen.None? && !Confirmed(r.state))
  }

  lemma IdleSpares(conf: Conf, s: State, e: Event, src: Source, ch: Channels)
    requires s.phase.Idle?
    ensures Sparing(conf, s, e, StepIdle(s, e, ch))
  {
    hide Negotiated, KeepaliveFor, NoteOf, NoteFrom, Quit, NotifyAndQuit;
    LeavingGoesIdle();
  }

  /** The delay-open expiry panics in Connect. */
  lemma DelayOverInConnect(conf: Conf, s: State, ch: Channels)
    ensures ConnectDelayOver(conf, s, ch).Stuck?
  {
  }

  /** The arms of Connect without a connection or an OPEN lead to Idle, to Active, or nowhere. */
  lemma QuietInConnect(conf: Conf, s: State, e: Event, ch: Channels)
    requires s.phase.Connect? && Paired(s) && !BringsTcp(e) && !e.BgpOpenDelayed?
    ensures var r := StepConnect(conf, s, e, ch);
      r.Next? ==>
        && !r.state.Colliding() && r.state.peerOpen.None? && r.state.localOpen.None?
        && r.state.attr.keepaliveTime == s.attr.keepaliveTime
  {
    hide NoteOf, NoteFrom, QuitBoth, Quit, NotifyAndQuit, ConnectDelayOver;
    LeavingGoesIdle();
    DelayOverInConnect(conf, s, ch);
  }

  lemma ConnectAttachSpares(conf: Conf, s: State, e: Event, ch: Channels)
    requires s.phase.Connect? && BringsTcp(e)
    ensures Sparing(conf, s, e, ConnectAttach(conf, s, e.conn, e.TcpConnectionConfirmed?, ch))
  {
  }

  lemma ConnectConfirmSpares(conf: Conf, s: State, e: Event, ch: Channels)
    requires s.phase.Connect? && e.BgpOpenDelayed?
    ensures Sparing(conf, s, e, ConnectConfirm(conf, s, e.msg, ch))
  {
    hide StartTimers, Negotiated;
    NegotiatedIsMinimum(LocalOpen(conf), e.msg);
  }

  /** Before there are OPENs, it is enough that an arm adds none and leaves the keepalive time. */
  lemma PlainlySparing(conf: Conf, s: State, e: Event)
    requires !Confirmed(s) && !AnswersLate(s, e)
    ensures forall q: Step {:trigger Sparing(conf, s, e, q)} ::
      (q.Next? ==>
        && q.state.peerOpen.None? && q.state.localOpen.None? && !Confirmed(q.state)
        && q.state.attr.keepaliveTime == s.attr.keepaliveTime)
      ==> Sparing(conf, s, e, q)
  {
  }

  lemma ConnectAttaches(conf: Conf, s: State, e: Event, ch: Channels)
    requires BringsTcp(e)
    ensures StepConnect(conf, s, e, ch) == ConnectAttach(conf, s, e.conn, e.TcpConnectionConfirmed?, ch)
  {
    hide ConnectAttach;
  }

  lemma ConnectConfirms(conf: Conf, s: State, e: Event, ch: Channels)
    requires e.BgpOpenDelayed?
    ensures StepConnect(conf, s, e, ch) == ConnectConfirm(conf, s, e.msg, ch)
  {
    hide ConnectConfirm;
  }

  lemma ConnectSpares(conf: Conf, s: State, e: Event, src: Source, ch: Channels)
    requires s.phase.Connect? && Paired(s)
    ensures Sparing(conf, s, e, StepConnect(conf, s, e, ch))
  {
    hide StepConnect, Sparing;
    if BringsTcp(e) {
      ConnectAttachSpares(conf, s, e, ch);
      ConnectAttaches(conf, s, e, ch);
    } else if e.BgpOpenDelayed? {
      ConnectConfirmSpares(conf, s, e, ch);
      ConnectConfirms(conf, s, e, ch);
    } else {
      QuietInConnect(conf, s, e, ch);
      PlainlySparing(conf, s, e);
    }
  }

  lemma ActiveConfirmSpares(conf: Conf, s: State, e: Event, ch: Channels)
    requires s.phase.Active? && e.BgpOpenDelayed?
    ensures Sparing(conf, s, e, ActiveConfirm(conf, s, e.msg, ch))
  {
    hide StartTimers, Negotiated;
    NegotiatedIsMinimum(LocalOpen(conf), e.msg);
  }

  lemma ActiveDelayOverSpares(conf: Conf, s: State, e: Event, ch: Channels)
    requires s.phase.Active? && e.DelayOpenExpires?
    ensures Sparing(conf, s, e, ActiveDelayOver(conf, s, ch))
  {
  }

  lemma ActiveSpares(conf: Conf, s: State, e: Event, src: Source, ch: Channels)
    requires s.phase.Active? && Paired(s)
    ensures Sparing(conf, s, e, StepActive(conf, s, e, ch))
  {
    hide QuitBoth, NoteOf, NoteFrom, Quit, NotifyAndQuit, Sparing, ActiveConfirm, ActiveDelayOver;
    LeavingGoesIdle();
    if e.BgpOpenDelayed? {
      ActiveConfirmSpares(conf, s, e, ch);
    } else if e.DelayOpenExpires? {
      ActiveDelayOverSpares(conf, s, e, ch);
    } else {
      PlainlySparing(conf, s, e);
    }
  }

  lemma OpenSentSpares(conf: Conf, s: State, e: Event, src: Source, ch: Channels)
    requires s.phase.OpenSent?
    ensures Sparing(conf, s, e, StepOpenSent(conf, s, e, src, ch))
  {
    hide Negotiated, KeepaliveFor, StartTimers, NoteOf, NoteFrom, Quit, NotifyAndQuit, Below;
    LeavingGoesIdle();
  }

  lemma OpenConfirmSpares(conf: Conf, s: State, e: Event, src: Source, ch: Channels)
    requires s.phase.OpenConfirm?
    ensures Sparing(conf, s, e, StepOpenConfirm(s, e, src, ch))
  {
    hide Negotiated, KeepaliveFor, StartTimers, NoteOf, NoteFrom, Quit, NotifyAndQuit, Below;
    LeavingGoesIdle();
  }

  lemma ResolveInEstablishedSpares(conf: Conf, s: State, e: Event, ch: Channels)
    requires s.phase.Established? && e.BgpOpen?
    ensures Sparing(conf, s, e, ResolveInEstablished(s, e.msg, e.remoteSyn, ch))
  {
    hide NoteOf, Below;
  }

  lemma EstablishedSpares(conf: Conf, s: State, e: Event, src: Source, ch: Channels)
    requires s.phase.Established?
    ensures Sparing(conf, s, e, StepEstablished(s, e, ch))
  {
    hide Negotiated, KeepaliveFor, StartTimers, NoteOf, NoteFrom, Quit, NotifyAndQuit, Below;
    hide ResolveInEstablished;
    LeavingGoesIdle();
    if e.BgpOpen? {
      ResolveInEstablishedSpares(conf, s, e, ch);
    }
  }

  lemma EveryArmSpares(conf: Conf, s: State, e: Event, src: Source, ch: Channels)
    requires Paired(s)
    ensures Sparing(conf, s, e, React(conf, s, e, src, ch))
  {
    hide StepIdle, StepConnect, StepActive, StepOpenSent, StepOpenConfirm, StepEstablished, Sparing;
    match s.phase
    case Idle => IdleSpares(conf, s, e, src, ch);
    case Connect => ConnectSpares(conf, s, e, src, ch);
    case Active => ActiveSpares(conf, s, e, src, ch);
    case OpenSent => OpenSentSpares(conf, s, e, src, ch);
    case OpenConfirm => OpenConfirmSpares(conf, s, e, src, ch);
    case Established => EstablishedSpares(conf, s, e, src, ch);
  }

  // ---------------------------------------------------------------- the side on record

  /** The side on record is set on the way into OpenSent or OpenConfirm and then stays; the truth, where
      the OPEN was sent at once, and otherwise the state the way started from. */
  predicate Recording(s: State, e: Event, r: Step) {
    r.Next? && r.state.Colliding() ==>
      if s.Colliding() then
        && r.state.remoteSyn == s.remoteSyn && r.state.localOpen == s.localOpen
        && (s.phase.OpenSent? && s.localOpen.None? ==> r.state.phase.OpenSent? && r.state.out == s.out)
      else
        && (s.phase.Connect? || s.phase.Active?)
        && (r.state.localOpen.Some? ==> (r.state.remoteSyn <==> s.phase.Active?))
        && (r.state.localOpen.None? && r.state.out.Some? ==>
              BringsTcp(e) && r.state.out == Some(e.conn) && r.state.remoteSyn == e.TcpConnectionConfirmed?)
  }

  lemma IdleRecords(conf: Conf, s: State, e: Event, src: Source, ch: Channels)
    requires s.phase.Idle? && Paired(s)
    ensures Recording(s, e, StepIdle(s, e, ch))
  {
    hide Negotiated, KeepaliveFor, StartTimers, NoteOf, NoteFrom, Quit, NotifyAndQuit, Below;
    LeavingGoesIdle();
  }

  lemma ConnectRecords(conf: Conf, s: State, e: Event, src: Source, ch: Channels)
    requires s.phase.Connect? && Paired(s)
    ensures Recording(s, e, StepConnect(conf, s, e, ch))
  {
    hide StepConnect, StartTimers, Negotiated, KeepaliveFor;
    if BringsTcp(e) {
      ConnectAttaches(conf, s, e, ch);
    } else if e.BgpOpenDelayed? {
      ConnectConfirms(conf, s, e, ch);
    } else {
      QuietInConnect(conf, s, e, ch);
    }
  }

  lemma ActiveRecords(conf: Conf, s: State, e: Event, src: Source, ch: Channels)
    requires s.phase.Active? && Paired(s)
    ensures Recording(s, e, StepActive(conf, s, e, ch))
  {
    hide QuitBoth, Negotiated, KeepaliveFor, StartTimers, NoteOf, NoteFrom, Quit, NotifyAndQuit, Below;
    LeavingGoesIdle();
  }

  lemma OpenSentRecords(conf: Conf, s: State, e: Event, src: Source, ch: Channels)
    requires s.phase.OpenSent? && Paired(s)
    ensures Recording(s, e, StepOpenSent(conf, s, e, src, ch))
  {
    hide Negotiated, KeepaliveFor, StartTimers, NoteOf, NoteFrom, Quit, NotifyAndQuit, Below;
    LeavingGoesIdle();
  }

  lemma OpenConfirmRecords(conf: Conf, s: State, e: Event, src: Source, ch: Channels)
    requires s.phase.OpenConfirm? && Paired(s)
    ensures Recording(s, e, StepOpenConfirm(s, e, src, ch))
  {
    hide Negotiated, KeepaliveFor, StartTimers, NoteOf, NoteFrom, Quit, NotifyAndQuit, Below;
    LeavingGoesIdle();
  }

  lemma EstablishedRecords(conf: Conf, s: State, e: Event, src: Source, ch: Channels)
    requires s.phase.Established? && Paired(s)
    ensures Recording(s, e, StepEstablished(s, e, ch))
  {
    hide Negotiated, KeepaliveFor, StartTimers, NoteOf, NoteFrom, Quit, NotifyAndQuit, Below;
    LeavingGoesIdle();
  }

  lemma EveryArmRecords(conf: Conf, s: State, e: Event, src: Source, ch: Channels)
    requires Paired(s)
    ensures Recording(s, e, React(conf, s, e, src, ch))
  {
    hide StepIdle, StepConnect, StepActive, StepOpenSent, StepOpenConfirm, StepEstablished, Recording;
    match s.phase
    case Idle => IdleRecords(conf, s, e, src, ch);
    case Connect => ConnectRecords(conf, s, e, src, ch);
    case Active => ActiveRecords(conf, s, e, src, ch);
    case OpenSent => OpenSentRecords(conf, s, e, src, ch);
    case OpenConfirm => OpenConfirmRecords(conf, s, e, src, ch);
    case Established => EstablishedRecords(conf, s, e, src, ch);
  }

  // ---------------------------------------------------------------- the delay-open timer

  /** There is a command for the timer. */
  predicate Commanded(ts: seq<Timer>, kind: TimerKind) {
    exists i | 0 <= i < |ts| :: ts[i].kind == kind
  }

  predicate NeverRestarted(ts: seq<Timer>, kind: TimerKind) {
    forall i | 0 <= i < |ts| :: ts[i].kind == kind ==> !ts[i].op.Restart?
  }

  predicate OnlyStopped(ts: seq<Timer>, kind: TimerKind) {
    forall i | 0 <= i < |ts| :: ts[i].kind == kind ==> ts[i].op.Stop?
  }

  /** A timer that is told anything but Restart forgets what it was set for; one that is told
      nothing does not. */
  lemma {:induction false} CommandsForget(d: Duration, d': Duration, ts: seq<Timer>, kind: TimerKind)
    ensures !Commanded(ts, kind) ==> Carry(d, ts, kind) == d
    ensures Commanded(ts, kind) && NeverRestarted(ts, kind) ==> Carry(d, ts, kind) == Carry(d', ts, kind)
    decreases |ts|
  {
    if ts != [] {
      var front := ts[..|ts| - 1];
      CommandsForget(d, d', front, kind);
      if ts[|ts| - 1].kind != kind && Commanded(ts, kind) {
        var i :| 0 <= i < |ts| && ts[i].kind == kind;
        assert front[i].kind == kind;
      }
    }
  }

  /** What one more command on the channel means for these, for every channel. */
  lemma CommandTells(kind: TimerKind)
    ensures forall ch: Channels, k, op {:trigger ch.Command(k, op).timers} ::
      && (Commanded(ch.Command(k, op).timers, kind) <==> Commanded(ch.timers, kind) || k == kind)
      && (NeverRestarted(ch.Command(k, op).timers, kind) <==>
            NeverRestarted(ch.timers, kind) && !(k == kind && op.Restart?))
      && (OnlyStopped(ch.Command(k, op).timers, kind) <==> OnlyStopped(ch.timers, kind) && !(k == kind && !op.Stop?))
  {
    forall ch: Channels, k, op
      ensures Commanded(ch.Command(k, op).timers, kind) <==> Commanded(ch.timers, kind) || k == kind
      ensures NeverRestarted(ch.Command(k, op).timers, kind) <==>
        NeverRestarted(ch.timers, kind) && !(k == kind && op.Restart?)
      ensures OnlyStopped(ch.Command(k, op).timers, kind) <==> OnlyStopped(ch.timers, kind) && !(k == kind && !op.Stop?)
    {
      var ts, t := ch.timers, Timer(k, op);
      assert forall i | 0 <= i < |ts| :: (ts + [t])[i] == ts[i];
      assert (ts + [t])[|ts|] == t;
    }
  }

  /** An arm never restarts the delay-open timer, and only stops it without the option; it sets or stops it
      when it makes it differ from the session's record, and when it goes to OpenSent or beyond with the
      delay in force. */
  predicate TellsDelayOpen(s: State, e: Event, ch: Channels, r: Step) {
    r.Next? ==>
      && (NeverRestarted(ch.timers, DelayOpenTimer) ==> NeverRestarted(r.ch.timers, DelayOpenTimer))
      && (!s.attr.opts.delayOpen && OnlyStopped(ch.timers, DelayOpenTimer) ==> OnlyStopped(r.ch.timers, DelayOpenTimer))
      && (Drifts(s, e) ==> Commanded(r.ch.timers, DelayOpenTimer))
      && (!s.Colliding() && r.state.Colliding() && s.attr.opts.delayOpen ==> Commanded(r.ch.timers, DelayOpenTimer))
  }

  lemma AnsweringTells()
    ensures forall conf: Conf, s: State, msg: OpenMsg, ch: Channels, otherwise: Operation
      {:trigger ConfirmDelayed(conf, s, msg, ch, otherwise)} ::
      var r := ConfirmDelayed(conf, s, msg, ch, otherwise);
      r.Next? ==>
        && (NeverRestarted(ch.timers, DelayOpenTimer) ==> NeverRestarted(r.ch.timers, DelayOpenTimer))
        && (OnlyStopped(ch.timers, DelayOpenTimer) ==> OnlyStopped(r.ch.timers, DelayOpenTimer))
        && (Commanded(ch.timers, DelayOpenTimer) ==> Commanded(r.ch.timers, DelayOpenTimer))
  {
    hide Negotiated, KeepaliveFor, Commanded, NeverRestarted, OnlyStopped;
    CommandTells(DelayOpenTimer);
  }

  /** Where nothing is entered and nothing drifts, it is enough that an arm tells the timer to stop, or
      nothing. */
  lemma PlainlyTelling(s: State, e: Event, ch: Channels)
    requires !Drifts(s, e)
    ensures forall q: Step {:trigger TellsDelayOpen(s, e, ch, q)} ::
      (q.Next? ==>
        && (s.Colliding() || !q.state.Colliding())
        && (NeverRestarted(ch.timers, DelayOpenTimer) ==> NeverRestarted(q.ch.timers, DelayOpenTimer))
        && (OnlyStopped(ch.timers, DelayOpenTimer) ==> OnlyStopped(q.ch.timers, DelayOpenTimer)))
      ==> TellsDelayOpen(s, e, ch, q)
  {
    hide Commanded, NeverRestarted, OnlyStopped;
  }

  lemma ConnectAttachTells(conf: Conf, s: State, e: Event, ch: Channels)
    requires s.phase.Connect? && BringsTcp(e)
    ensures TellsDelayOpen(s, e, ch, ConnectAttach(conf, s, e.conn, e.TcpConnectionConfirmed?, ch))
  {
    hide Commanded, NeverRestarted, OnlyStopped;
    CommandTells(DelayOpenTimer);
  }

  lemma ConnectConfirmTells(conf: Conf, s: State, e: Event, ch: Channels)
    requires s.phase.Connect? && e.BgpOpenDelayed?
    ensures TellsDelayOpen(s, e, ch, ConnectConfirm(conf, s, e.msg, ch))
  {
    hide ConfirmDelayed, Commanded, NeverRestarted, OnlyStopped;
    AnsweringTells();
    CommandTells(DelayOpenTimer);
  }

  lemma ConnectTells(conf: Conf, s: State, e: Event, ch: Channels)
    requires s.phase.Connect?
    ensures TellsDelayOpen(s, e, ch, StepConnect(conf, s, e, ch))
  {
    hide Channels.Command, TellsDelayOpen, NoteOf, NoteFrom, QuitBoth, Quit, NotifyAndQuit;
    hide Commanded, NeverRestarted, OnlyStopped;
    hide ConnectAttach, ConnectConfirm, ConnectDelayOver;
    if BringsTcp(e) {
      ConnectAttachTells(conf, s, e, ch);
    } else if e.BgpOpenDelayed? {
      ConnectConfirmTells(conf, s, e, ch);
    } else {
      LeavingGoesIdle();
      DelayOverInConnect(conf, s, ch);
      CommandTells(DelayOpenTimer);
      PlainlyTelling(s, e, ch);
    }
  }

  lemma ActiveAttachTells(conf: Conf, s: State, e: Event, ch: Channels)
    requires s.phase.Active? && BringsTcp(e)
    ensures TellsDelayOpen(s, e, ch, ActiveAttach(conf, s, e.conn, e.TcpConnectionConfirmed?, ch))
  {
    hide Commanded, NeverRestarted, OnlyStopped;
    CommandTells(DelayOpenTimer);
  }

  lemma ActiveFailsTells(s: State, e: Event, ch: Channels)
    requires s.phase.Active?
    ensures TellsDelayOpen(s, e, ch, ActiveFails(s, ch))
    ensures TellsDelayOpen(s, e, ch, DialFromActive(s, ch))
  {
    hide Commanded, NeverRestarted, OnlyStopped;
    CommandTells(DelayOpenTimer);
  }

  lemma StopActiveTells(s: State, e: Event, ch: Channels)
    requires s.phase.Active?
    ensures TellsDelayOpen(s, e, ch, StopActive(s, ch))
  {
    hide NoteOf, NoteFrom, Commanded, NeverRestarted, OnlyStopped, Quit, NotifyAndQuit;
    LeavingGoesIdle();
    CommandTells(DelayOpenTimer);
  }

  lemma ActiveOpensTell(conf: Conf, s: State, e: Event, ch: Channels)
    requires s.phase.Active?
    ensures TellsDelayOpen(s, e, ch, ActiveDelayOver(conf, s, ch))
    ensures e.BgpOpenDelayed? ==> TellsDelayOpen(s, e, ch, ActiveConfirm(conf, s, e.msg, ch))
  {
    hide ConfirmDelayed, Commanded, NeverRestarted, OnlyStopped;
    AnsweringTells();
    CommandTells(DelayOpenTimer);
  }

  lemma ActiveTells(conf: Conf, s: State, e: Event, ch: Channels)
    requires s.phase.Active?
    ensures TellsDelayOpen(s, e, ch, StepActive(conf, s, e, ch))
  {
    hide Channels.Command, TellsDelayOpen, NoteOf, NoteFrom, QuitBoth, Quit, NotifyAndQuit;
    hide Commanded, NeverRestarted, OnlyStopped;
    hide ActiveAttach, StopActive, ActiveDelayOver, ActiveConfirm, ActiveFails, DialFromActive;
    if BringsTcp(e) {
      ActiveAttachTells(conf, s, e, ch);
    } else if e.BgpOpenDelayed? || e.DelayOpenExpires? {
      ActiveOpensTell(conf, s, e, ch);
    } else if e.ManualStop? {
      StopActiveTells(s, e, ch);
    } else if e.TcpConnectionFails? || e.ConnectRetryExpires? {
      ActiveFailsTells(s, e, ch);
    } else {
      LeavingGoesIdle();
      CommandTells(DelayOpenTimer);
      PlainlyTelling(s, e, ch);
    }
  }

  lemma OpenSentTells(conf: Conf, s: State, e: Event, src: Source, ch: Channels)
    requires s.phase.OpenSent?
    ensures TellsDelayOpen(s, e, ch, StepOpenSent(conf, s, e, src, ch))
  {
    hide Negotiated, NoteOf, NoteFrom, Below, Commanded, NeverRestarted, OnlyStopped, Quit, NotifyAndQuit;
    LeavingGoesIdle();
    CommandTells(DelayOpenTimer);
  }

  lemma OpenConfirmTells(s: State, e: Event, src: Source, ch: Channels)
    requires s.phase.OpenConfirm?
    ensures TellsDelayOpen(s, e, ch, StepOpenConfirm(s, e, src, ch))
  {
    hide NoteOf, NoteFrom, Below, Commanded, NeverRestarted, OnlyStopped, Quit, NotifyAndQuit;
    LeavingGoesIdle();
    CommandTells(DelayOpenTimer);
  }

  lemma ResolveInEstablishedTells(s: State, e: Event, ch: Channels)
    requires s.phase.Established? && e.BgpOpen?
    ensures TellsDelayOpen(s, e, ch, ResolveInEstablished(s, e.msg, e.remoteSyn, ch))
  {
    hide NoteOf, Below, Commanded, NeverRestarted, OnlyStopped;
  }

  lemma EstablishedTells(s: State, e: Event, ch: Channels)
    requires s.phase.Established?
    ensures TellsDelayOpen(s, e, ch, StepEstablished(s, e, ch))
  {
    hide Channels.Command, TellsDelayOpen, NoteOf, NoteFrom, Below, Quit, NotifyAndQuit;
    hide Commanded, NeverRestarted, OnlyStopped;
    hide ResolveInEstablished;
    if e.BgpOpen? {
      ResolveInEstablishedTells(s, e, ch);
    } else {
      LeavingGoesIdle();
      CommandTells(DelayOpenTimer);
      PlainlyTelling(s, e, ch);
    }
  }

  lemma DelayOpenTold(conf: Conf, s: State, e: Event, src: Source, ch: Channels)
    ensures TellsDelayOpen(s, e, ch, React(conf, s, e, src, ch))
  {
    hide StepConnect, StepActive, StepOpenSent, StepOpenConfirm, StepEstablished;
    hide Commanded, NeverRestarted, OnlyStopped;
    match s.phase
    case Idle => CommandTells(DelayOpenTimer);
    case Connect => ConnectTells(conf, s, e, ch);
    case Active => ActiveTells(conf, s, e, ch);
    case OpenSent => OpenSentTells(conf, s, e, src, ch);
    case OpenConfirm => OpenConfirmTells(s, e, src, ch);
    case Established => EstablishedTells(s, e, ch);
  }
}
