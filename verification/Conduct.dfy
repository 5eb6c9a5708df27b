/** What a session that a run leads to does on each event, with the numbers written out, and what that
    comes to over whole runs: its own OPENs, its NOTIFICATIONs, its attempts at a connection, and its
    timers' expiries. */
module Conduct {
  import opened Basics
  import opened Message
  import opened Fsm
  import opened Session
  import opened SessionInvariant
  import opened SessionEffects
  import opened SessionProgress
  import opened SessionTables
  import opened SessionLaws
  import opened TimerLoop
  import opened Run
  import opened Guarantees

  /** In every system that a run leads to, every event from everywhere has the next phase, the rest of the
      next state, the tasks, the messages and the timer commands that the tables of `SessionTables` give. */
  lemma ReachableLawful(conf: Conf, opts: Options, y: System, e: Event, src: Source)
    requires Reachable(conf, opts, y)
    ensures Lawful(conf, y.s, e, src, y.ch, React(conf, y.s, e, src, y.ch))
    ensures TimesLaw(conf, y.s, e, React(conf, y.s, e, src, y.ch))
  {
    hide React, Lawful, TimesLaw, Stage, Outlook, OwnedOnce, LogFits;
    ReachableSafe(conf, opts, y);
    EveryArmLawful(conf, y.s, e, src, y.ch);
    EveryArmTimes(conf, y.s, e, src, y.ch);
  }

  /** The event that an arm sees: an OPEN over the admin channel counts as answered late exactly while
      the delay-open timer is on record as running, which is what it is heading for unless it drifts. */
  lemma RenamedWhileDelayed(conf: Conf, opts: Options, y: System, e: Event, src: Source)
    requires Reachable(conf, opts, y)
    ensures Renamed(y.s, e, src) ==
      if src.FromAdmin? && e.BgpOpen? && y.s.attr.curDelayOpen != 946_080_000_000_000_000
      then BgpOpenDelayed(e.msg, e.remoteSyn) else e
    ensures !y.drift && e.BgpOpen? && src.FromAdmin? ==>
      (Renamed(y.s, e, src).BgpOpenDelayed? <==>
         Outlook(y.net, y.ch.timers, DelayOpenTimer) != 946_080_000_000_000_000)
  {
    TimersAgree(conf, opts, y, DelayOpenTimer);
  }

  /** A session starts in Idle with nothing, nine and three seconds, and all timers off. */
  lemma StartsAfresh(opts: Options)
    ensures var s := Start(opts).s;
      && s.phase.Idle? && s.conn.None? && s.out.None? && s.collision.None? && !s.dialing
      && s.attr.opts == opts && s.attr.counter == 0
      && s.attr.holdTime == 9_000_000_000 && s.attr.keepaliveTime == 3_000_000_000
      && s.attr.curConnectRetry == s.attr.curHold == s.attr.curKeepalive == s.attr.curDelayOpen
      && s.attr.curHold == 946_080_000_000_000_000
    ensures forall kind: TimerKind :: Start(opts).net.tickers[kind] == Ticker([], 946_080_000_000_000_000, false)
    ensures Start(opts).ch == Channels([], map[], {}, {}, [])
  {
  }

  // ---------------------------------------------------------------- attempts at a connection

  predicate StartsAttempt(s: State, e: Event) {
    || (s.phase.Idle? && (e.ManualStart? || e.AutomaticStart?))
    || ((s.phase.Connect? || s.phase.Active?) && e.ConnectRetryExpires?)
  }

  /** An attempt that is held is given up when it is started over, and on the way to Idle or Active. */
  predicate GivesUpAttempt(s: State, e: Event, r: Step) {
    && r.Next? && s.phase.Connect? && s.dialing
    && (e.ConnectRetryExpires? || r.state.phase.Idle? || r.state.phase.Active?)
  }

  function Dialed(ch: Channels): nat {
    multiset(ch.tasks)[Dial]
  }

  function HungUp(ch: Channels): nat {
    multiset(ch.tasks)[HangUp]
  }

  /** What starts an attempt at a connection and what gives one up, in every state and on every event. */
  lemma AttemptsCounted(conf: Conf, opts: Options, y: System, e: Event, src: Source)
    requires Reachable(conf, opts, y)
    ensures var r := React(conf, y.s, e, src, y.ch);
      r.Next? ==>
        && Dialed(r.ch) == Dialed(y.ch) + Count(StartsAttempt(y.s, e))
        && HungUp(r.ch) == HungUp(y.ch) + Count(GivesUpAttempt(y.s, e, r))
        && (StartsAttempt(y.s, e) ==> r.state.phase.Connect? && r.state.dialing)
        && (r.state.dialing ==> r.state.phase.Connect? && (StartsAttempt(y.s, e) || y.s.dialing))
  {
    hide React, TimesLaw, StateLaw, SayingLaw, CommandLaw, PhaseAfter, TasksAfter, Stage, Outlook;
    var r := React(conf, y.s, e, src, y.ch);
    ReachableLawful(conf, opts, y, e, src);
    ReachableSafe(conf, opts, y);
    TasksCounted(conf, y.s, e, src);
    DialingTables(conf, y.s, e, src, r);
  }

  lemma TasksCounted(conf: Conf, s: State, e: Event, src: Source)
    requires Paired(s)
    ensures multiset(TasksAfter(conf, s, e, src))[Dial] == Count(StartsAttempt(s, e))
    ensures multiset(TasksAfter(conf, s, e, src))[HangUp] ==
      Count(s.phase.Connect? && s.dialing
            && (e.ConnectRetryExpires? || PhaseAfter(s, e, src).Idle? || PhaseAfter(s, e, src).Active?))
  {
    hide Below;
  }

  lemma DialingTables(conf: Conf, s: State, e: Event, src: Source, r: Step)
    requires StateLaw(conf, s, e, src, r) && Paired(s)
    ensures r.Next? ==> r.state.phase == PhaseAfter(s, e, src)
    ensures r.Next? && StartsAttempt(s, e) ==> r.state.phase.Connect? && r.state.dialing
    ensures r.Next? && r.state.dialing ==> r.state.phase.Connect? && (StartsAttempt(s, e) || s.dialing)
  {
    hide Below;
  }

  /** The connect-retry timer of a session in Active: it goes to Connect and starts an attempt. */
  lemma RetryLeavesActive(conf: Conf, opts: Options, y: System, src: Source)
    requires Reachable(conf, opts, y) && y.s.phase.Active?
    ensures var r := React(conf, y.s, ConnectRetryExpires, src, y.ch);
      && r.Next? && r.state.phase.Connect? && r.state.dialing
      && r.ch.tasks == y.ch.tasks + [Dial]
      && r.ch.timers == y.ch.timers + [Timer(ConnectRetryTimer, Restart)]
  {
    hide React, TimesLaw, SayingLaw, Stage, Outlook;
    ReachableLawful(conf, opts, y, ConnectRetryExpires, src);
    ReachableSafe(conf, opts, y);
    StuckExactlyWhenFatal(conf, y.s, ConnectRetryExpires, src, y.ch);
  }

  // ---------------------------------------------------------------- the session's own OPEN

  /** Version 4, what is configured, in the short form without parameters. */
  predicate Own(conf: Conf, m: OpenMsg) {
    && m.version == 4
    && m.asNumber == conf.localAs
    && m.holdTime == conf.holdTime
    && m.bgpIdentifier == conf.routerId
    && !m.extOptParam && m.optParamsLen == 0
    && m.optParams.mpExtCaps.None? && m.optParams.fourOctetAs.None?
  }

  predicate SaysOwn(conf: Conf, l: seq<Message>) {
    forall i | 0 <= i < |l| :: l[i].Open? ==> Own(conf, l[i].open)
  }

  ghost predicate OpensOwn(conf: Conf, y: System) {
    && (y.s.localOpen.Some? ==> Own(conf, y.s.localOpen.value))
    && forall c: ConnId :: SaysOwn(conf, y.ch.LogOf(c))
  }

  lemma SaidOwn(conf: Conf, s: State, e: Event, src: Source)
    ensures SaysOwn(conf, Said(conf, s, e, src))
  {
    hide Below;
  }

  lemma LocalOwn(conf: Conf, s: State, e: Event, src: Source, r: Step)
    requires StateLaw(conf, s, e, src, r) && r.Next?
    ensures r.state.localOpen.Some? ==> r.state.localOpen == s.localOpen || Own(conf, r.state.localOpen.value)
  {
    hide PhaseAfter, CounterAfter, InHandAfter, KeptAfter, PeerAfterArm, SideAfter, DialingAfter;
  }

  lemma ArmSaysOwn(conf: Conf, s: State, e: Event, src: Source, ch: Channels, r: Step, c: ConnId)
    requires SayingLaw(conf, s, e, src, ch, r) && r.Next? && SaysOwn(conf, ch.LogOf(c))
    ensures SaysOwn(conf, r.ch.LogOf(c))
  {
    hide Said, Own;
    SaidOwn(conf, s, e, src);
  }

  lemma HandleOwn(conf: Conf, y: System, event: Event, src: Source)
    requires y.net.Wired() && Safe(conf, y) && OpensOwn(conf, y) && HandleEvent(conf, y, event, src).Some?
    ensures OpensOwn(conf, HandleEvent(conf, y, event, src).value)
  {
    hide React, StateLaw, SayingLaw, CommandLaw, TaskLaw, Own, SaysOwn, Renamed, Stage, Outlook, OwnedOnce, LogFits;
    var e := Renamed(y.s, event, src);
    var r := React(conf, y.s, e, src, y.ch);
    EveryArmLawful(conf, y.s, e, src, y.ch);
    LocalOwn(conf, y.s, e, src, r);
    forall c: ConnId ensures SaysOwn(conf, r.ch.LogOf(c)) {
      assert SaysOwn(conf, y.ch.LogOf(c));
      ArmSaysOwn(conf, y.s, e, src, y.ch, r, c);
    }
  }

  lemma OwnStep(conf: Conf, y: System, l: Label)
    requires y.net.Wired() && Safe(conf, y) && OpensOwn(conf, y) && Move(conf, y, l).Some?
    ensures OpensOwn(conf, Move(conf, y, l).value)
  {
    hide Safe, HandleEvent, Own, SaysOwn;
    if l.Handle? {
      HandleOwn(conf, y, l.event, l.src);
    } else {
      var z := Move(conf, y, l).value;
      assert z.s == y.s && z.ch.log == y.ch.log;
      forall c: ConnId ensures SaysOwn(conf, z.ch.LogOf(c)) {
        assert SaysOwn(conf, y.ch.LogOf(c));
      }
    }
  }

  lemma {:induction false} OwnOverRun(conf: Conf, opts: Options, ys: seq<System>, ls: seq<Label>)
    requires RunOf(conf, opts, ys, ls)
    ensures OpensOwn(conf, ys[|ls|])
    decreases |ls|
  {
    hide Move, Safe, Own;
    if ls != [] {
      LeadsFront(conf, ys, ls);
      OwnOverRun(conf, opts, ys[..|ls|], ls[..|ls| - 1]);
      RunSafe(conf, opts, ys[..|ls|], ls[..|ls| - 1]);
      OwnStep(conf, ys[|ls| - 1], ls[|ls| - 1]);
    }
  }

  /** Every OPEN that a session ever puts on a connection, and the one it has on record, is its own, to
      the last field. */
  lemma EveryOpenOwn(conf: Conf, opts: Options, y: System, c: ConnId, i: nat)
    requires Reachable(conf, opts, y)
    ensures i < |y.ch.LogOf(c)| && y.ch.LogOf(c)[i].Open? ==> Own(conf, y.ch.LogOf(c)[i].open)
    ensures y.s.localOpen.Some? ==> Own(conf, y.s.localOpen.value)
  {
    hide Move, Own;
    var ys, ls :| RunOf(conf, opts, ys, ls) && ys[|ls|] == y;
    OwnOverRun(conf, opts, ys, ls);
    assert SaysOwn(conf, y.ch.LogOf(c));
  }

  // ---------------------------------------------------------------- NOTIFICATIONs

  /** What the arm has just put on the connection in hand. */
  function Newly(y: System, r: Step): seq<Message>
    requires r.Next? && y.s.out.Some?
  {
    var c := y.s.out.value;
    if |y.ch.LogOf(c)| <= |r.ch.LogOf(c)| then r.ch.LogOf(c)[|y.ch.LogOf(c)|..] else []
  }

  /** One NOTIFICATION, and what is in it. */
  predicate Notifies(l: seq<Message>, code: nat, subcode: nat, data: Option<bytes>) {
    |l| == 1 && l[0].Notification? && l[0].note == NotificationMsg(code, subcode, data)
  }

  /** The events that have no place in OpenSent, OpenConfirm or Established: by the number of the error
      that section 6 of RFC 4271 gives it, a finite state machine error. */
  predicate OutOfPlace(s: State, e: Event) {
    || e.ConnectRetryExpires? || e.DelayOpenExpires? || e.IdleHoldExpires? || e.BgpOpenDelayed?
    || (e.KeepaliveExpires? && s.phase.OpenSent?)
    || (e.KeepaliveReceived? && s.phase.OpenSent?)
    || (e.OpenCollisionDump? && !s.phase.OpenConfirm?)
    || (e.NotifyMsg? && !s.phase.Established?)
    || (e.UpdateReceived? && !s.phase.Established?)
    || (e.UpdateMsgErr? && !s.phase.Established?)
    || (BadMessage(e) && s.phase.Established?)
  }

  /** An OPEN that makes the session change connections and tell the peer so on the old one. */
  predicate TakenOver(conf: Conf, s: State, e: Event) {
    && e.BgpOpen? && e.remoteSyn != s.remoteSyn && Below(conf.routerId, e.msg.bgpIdentifier)
    && (s.phase.OpenSent? || (s.phase.Established? && s.attr.opts.collisionDetectEstablished))
  }

  /** An error event that the session passes on to the peer. */
  predicate PassesOn(s: State, e: Event, src: Source) {
    || (BadMessage(e) && src.FromBgp? && !s.phase.Established?)
    || (e.UpdateMsgErr? && s.phase.Established?)
  }

  /** What a session with a connection in hand tells the peer in OpenSent, OpenConfirm and Established,
      by number: 6 when it is stopped or changes connections, 4 when the hold timer ran out, 5 on an
      event out of place, an error with its own numbers and data; and on any other event nothing but
      the KEEPALIVE that its timer asks for. */
  lemma LateNotifications(conf: Conf, opts: Options, y: System, e: Event, src: Source)
    requires Reachable(conf, opts, y) && y.s.Colliding() && y.s.out.Some?
    ensures var r := React(conf, y.s, e, src, y.ch);
      r.Next? ==>
        if e.ManualStop? || e.AutomaticStop? || TakenOver(conf, y.s, e) then Notifies(Newly(y, r), 6, 0, None)
        else if e.HoldExpires? then Notifies(Newly(y, r), 4, 0, None)
        else if OutOfPlace(y.s, e) then Notifies(Newly(y, r), 5, 0, None)
        else if PassesOn(y.s, e, src) then
          Notifies(Newly(y, r), CodeNumber(e.err.code), SubcodeNumber(e.err.subcode), e.err.data)
        else Newly(y, r) == if e.KeepaliveExpires? then [Keepalive] else []
  {
    hide React, TimesLaw, StateLaw, TaskLaw, CommandLaw, Said, Stage, Outlook, OutOfPlace, TakenOver, PassesOn;
    var r := React(conf, y.s, e, src, y.ch);
    ReachableLawful(conf, opts, y, e, src);
    SaidLate(conf, y.s, e, src);
    if r.Next? {
      var c := y.s.out.value;
      assert r.ch.LogOf(c)[|y.ch.LogOf(c)|..] == Said(conf, y.s, e, src);
    }
  }

  lemma SaidLate(conf: Conf, s: State, e: Event, src: Source)
    requires s.Colliding()
    ensures Said(conf, s, e, src) ==
      if e.ManualStop? || e.AutomaticStop? || TakenOver(conf, s, e) then [Notification(NotificationMsg(6, 0, None))]
      else if e.HoldExpires? then [Notification(NotificationMsg(4, 0, None))]
      else if OutOfPlace(s, e) then [Notification(NotificationMsg(5, 0, None))]
      else if PassesOn(s, e, src) then
        [Notification(NotificationMsg(CodeNumber(e.err.code), SubcodeNumber(e.err.subcode), e.err.data))]
      else if e.KeepaliveExpires? then [Keepalive] else []
  {
    hide Below, CodeNumber, SubcodeNumber;
  }

  /** What it tells the peer in Connect and Active, where the option lets it: 6 when it is stopped in
      Active after an earlier hold time, and a bad header or OPEN with its own numbers and data. */
  lemma EarlyNotifications(conf: Conf, opts: Options, y: System, e: Event, src: Source)
    requires Reachable(conf, opts, y) && (y.s.phase.Connect? || y.s.phase.Active?)
    requires y.s.out.Some? && !BringsTcp(e)
    ensures var r := React(conf, y.s, e, src, y.ch);
      r.Next? ==>
        if opts.notifyWithoutOpen && BadMessage(e) then
          Notifies(Newly(y, r), CodeNumber(e.err.code), SubcodeNumber(e.err.subcode), e.err.data)
        else if opts.notifyWithoutOpen && y.s.phase.Active? && e.ManualStop?
                && y.s.attr.curHold != 946_080_000_000_000_000 then Notifies(Newly(y, r), 6, 0, None)
        else forall i | 0 <= i < |Newly(y, r)| :: !Newly(y, r)[i].Notification?
  {
    hide React, TimesLaw, StateLaw, TaskLaw, CommandLaw, Stage, Outlook;
    var r := React(conf, y.s, e, src, y.ch);
    ReachableLawful(conf, opts, y, e, src);
    ReachableSafe(conf, opts, y);
    if r.Next? {
      var c := y.s.out.value;
      assert r.ch.LogOf(c)[|y.ch.LogOf(c)|..] == Said(conf, y.s, e, src);
    }
  }

  // ---------------------------------------------------------------- expiries

  /** The event that the expiry of a timer is. */
  predicate Reports(e: Event, kind: TimerKind) {
    || (kind.ConnectRetryTimer? && e.ConnectRetryExpires?)
    || (kind.HoldTimer? && e.HoldExpires?)
    || (kind.KeepaliveTimer? && e.KeepaliveExpires?)
    || (kind.DelayOpenTimer? && e.DelayOpenExpires?)
    || (kind.IdleHoldTimer? && e.IdleHoldExpires?)
  }

  /** How often a timer ran out. */
  function RanOut(ls: seq<Label>, kind: TimerKind): nat
    decreases |ls|
  {
    if ls == [] then 0 else RanOut(ls[..|ls| - 1], kind) + Count(ls[|ls| - 1] == TimeOut(kind))
  }

  predicate TakesExpiryOf(l: Label, kind: TimerKind) {
    l.Handle? && l.src.FromTimer? && Reports(l.event, kind)
  }

  /** How often the session took an expiry of it. */
  function TimesTaken(ls: seq<Label>, kind: TimerKind): nat
    decreases |ls|
  {
    if ls == [] then 0 else TimesTaken(ls[..|ls| - 1], kind) + Count(TakesExpiryOf(ls[|ls| - 1], kind))
  }

  /** The expiries of a timer on their way to the session. */
  function Underway(n: Net, kind: TimerKind): nat
    requires n.Wired()
  {
    multiset(n.expired)[kind] + Count(n.tickers[kind].ringing)
  }

  lemma UnderwayHandled(conf: Conf, y: System, e: Event, src: Source, kind: TimerKind)
    requires y.net.Wired() && HandleEvent(conf, y, e, src).Some?
    ensures Underway(HandleEvent(conf, y, e, src).value.net, kind) + Count(TakesExpiryOf(Handle(e, src), kind))
         == Underway(y.net, kind)
  {
    hide React, Renamed, Drifts, Installed, AnswersLate, Commanded;
    if src.FromTimer? {
      assert y.net.expired == [y.net.expired[0]] + y.net.expired[1..];
    }
  }

  lemma UnderwayStep(conf: Conf, y: System, l: Label, kind: TimerKind)
    requires y.net.Wired() && Move(conf, y, l).Some?
    ensures Underway(Move(conf, y, l).value.net, kind) + Count(TakesExpiryOf(l, kind))
         == Underway(y.net, kind) + Count(l == TimeOut(kind))
  {
    hide HandleEvent;
    if l.Handle? {
      UnderwayHandled(conf, y, l.event, l.src, kind);
    }
  }

  /** No expiry is lost, none is made up, and each is taken as the event of its own timer: over every
      run, a timer ran out as often as the session took its expiry, but for those on their way. */
  lemma {:induction false} ExpiriesConserved(
    conf: Conf, opts: Options, ys: seq<System>, ls: seq<Label>, kind: TimerKind)
    requires RunOf(conf, opts, ys, ls)
    ensures RanOut(ls, kind) == TimesTaken(ls, kind) + Underway(ys[|ls|].net, kind)
    decreases |ls|
  {
    hide Move, Underway, TakesExpiryOf;
    if ls == [] {
      NothingUnderway(opts, kind);
    } else {
      LeadsFront(conf, ys, ls);
      ExpiriesConserved(conf, opts, ys[..|ls|], ls[..|ls| - 1], kind);
      UnderwayStep(conf, ys[|ls| - 1], ls[|ls| - 1], kind);
    }
  }

  lemma NothingUnderway(opts: Options, kind: TimerKind)
    ensures Underway(Start(opts).net, kind) == 0
  {
  }
}
