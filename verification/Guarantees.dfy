/** What holds over every run of a session, whatever its peer, its operator, its timers and the order
    in which its tasks get to run do. */
module Guarantees {
  import opened Basics
  import opened Message
  import opened RoundTrip
  import opened Fsm
  import opened Session
  import opened SessionInvariant
  import opened SessionEffects
  import opened SessionProgress
  import opened TimerLoop
  import opened Run

  // ---------------------------------------------------------------- connections

  /** A connection that was taken in is in exactly one place and any other in none; the handle and the
      sender of the current connection come and go together and name the same one; Idle has neither. */
  lemma ConnectionsOwnedOnce(conf: Conf, opts: Options, y: System, c: ConnId)
    requires Reachable(conf, opts, y)
    ensures Places(y.s, y.ch, c) + Count(c in y.announced) == Count(c in y.taken)
    ensures y.s.conn == y.s.out
    ensures y.s.phase.Idle? ==> y.s.out.None? && y.s.collision.None?
  {
    ReachableSafe(conf, opts, y);
    assert OwnedOnce(y, c);
  }

  // ---------------------------------------------------------------- what is said on a connection

  /** OPEN? KEEPALIVE* NOTIFICATION?, written out. */
  predicate Conversation(l: seq<Message>, opens: nat, keepalives: nat, notes: nat) {
    && opens <= 1 && notes <= 1
    && |l| == opens + keepalives + notes
    && (forall i | 0 <= i < opens :: l[i].Open?)
    && (forall i | opens <= i < opens + keepalives :: l[i].Keepalive?)
    && (forall i | opens + keepalives <= i < |l| :: l[i].Notification?)
  }

  lemma GrammarIsConversation(l: seq<Message>)
    ensures Grammar(l) <==> exists o, k, n :: Conversation(l, o, k, n)
  {
    if Grammar(l) {
      var o := if l != [] && l[0].Open? then 1 else 0;
      var n := if l != [] && l[|l| - 1].Notification? then 1 else 0;
      assert Conversation(l, o, |l| - o - n, n);
    }
  }

  /** On every connection, over every run, a session says OPEN? KEEPALIVE* NOTIFICATION? and no more; and
      where it says a KEEPALIVE, the OPEN is missing exactly when collision detection put the connection
      in another's place. */
  lemma OutboundGrammar(conf: Conf, opts: Options, y: System, c: ConnId) returns (o: nat, k: nat, n: nat)
    requires Reachable(conf, opts, y)
    ensures Conversation(y.ch.LogOf(c), o, k, n)
    ensures k > 0 ==> (o == 0 <==> c in y.installed)
    ensures c in y.installed ==> o == 0
  {
    ReachableSafe(conf, opts, y);
    var l := y.ch.LogOf(c);
    assert LogFits(y.s, y.ch, y.installed, c);
    GrammarIsConversation(l);
    o, k, n :| Conversation(l, o, k, n);
    if k > 0 {
      assert l[o].Keepalive?;
    }
    if o > 0 {
      assert l[0].Open?;
    }
  }

  /** In OpenSent the second connection is only ever put in the other's place on an OPEN from the
      speaker's own side, for which the arm sends none: the OPEN it would send otherwise is never sent. */
  lemma TakeoverSendsNoOpen(conf: Conf, opts: Options, y: System, e: Event, src: Source)
    requires Reachable(conf, opts, y) && y.s.phase.OpenSent? && e.BgpOpen?
    requires y.s.collision.Some?
    ensures var r := React(conf, y.s, e, src, y.ch);
      r.Next? && r.state.out == y.s.collision ==>
        !e.remoteSyn && r.ch.LogOf(y.s.collision.value) == y.ch.LogOf(y.s.collision.value) == []
  {
    ReachableSafe(conf, opts, y);
    TakeoverInOpenSent(conf, y, e, src);
  }

  lemma TakeoverInOpenSent(conf: Conf, y: System, e: Event, src: Source)
    requires y.net.Wired() && Safe(conf, y) && y.s.phase.OpenSent? && e.BgpOpen? && y.s.collision.Some?
    ensures var r := React(conf, y.s, e, src, y.ch);
      r.Next? && r.state.out == y.s.collision ==>
        !e.remoteSyn && r.ch.LogOf(y.s.collision.value) == y.ch.LogOf(y.s.collision.value) == []
  {
    hide Outlook, Stage, Below, Negotiated, StartTimers, NoteOf;
    var c := y.s.collision.value;
    assert OwnedOnce(y, c) && LogFits(y.s, y.ch, y.installed, c);
  }

  // ---------------------------------------------------------------- timers

  /** Under every interleaving, what a timer is heading for is what the session has on record; the
      delay-open timer may fail to be only while it drifts, that is after the one arm that sets it
      and not the record, and then it does fail. */
  lemma TimersAgree(conf: Conf, opts: Options, y: System, kind: TimerKind)
    requires Reachable(conf, opts, y)
    ensures kind != DelayOpenTimer ==> Outlook(y.net, y.ch.timers, kind) == Current(y.s.attr, kind)
    ensures kind == DelayOpenTimer ==> (Outlook(y.net, y.ch.timers, kind) == Current(y.s.attr, kind) <==> !y.drift)
    ensures y.drift ==> opts.delayOpen && !y.s.Colliding()
  {
    ReachableSafe(conf, opts, y);
    assert Agrees(y, kind) <==> !(kind == DelayOpenTimer && y.drift);
  }

  /** From OpenSent on, the connect-retry and delay-open timers are off, on record and in truth; so an
      OPEN that comes over the admin channel is renamed in Idle, Connect and Active only. */
  lemma RetryAndDelayAreOff(conf: Conf, opts: Options, y: System, e: Event, src: Source)
    requires Reachable(conf, opts, y) && y.s.Colliding()
    ensures y.s.attr.curConnectRetry == Outlook(y.net, y.ch.timers, ConnectRetryTimer) == FAR_FUTURE
    ensures y.s.attr.curDelayOpen == Outlook(y.net, y.ch.timers, DelayOpenTimer) == FAR_FUTURE
    ensures Renamed(y.s, e, src) == e
  {
    ReachableSafe(conf, opts, y);
    TimersAgree(conf, opts, y, ConnectRetryTimer);
    TimersAgree(conf, opts, y, DelayOpenTimer);
  }

  // ---------------------------------------------------------------- how Established is reached

  /** A session in Established has, since it last left Idle, had a start event, then a TCP connection,
      then an OPEN, then a KEEPALIVE. */
  lemma EstablishedHasHistory(conf: Conf, opts: Options, y: System) returns (a: nat, b: nat, c: nat, d: nat)
    requires Reachable(conf, opts, y) && y.s.phase.Established?
    ensures a < b < c < d < |y.history|
    ensures Starts(y.history[a]) && BringsTcp(y.history[b])
    ensures BringsOpen(y.history[c]) && y.history[d].KeepaliveReceived?
  {
    ReachableSafe(conf, opts, y);
    a := StagesInOrder(y.history, 1);
    b := StagesInOrder(y.history, 2);
    c := StagesInOrder(y.history, 3);
    d := StagesInOrder(y.history, 4);
    StageOrder(y.history, a, b);
    StageOrder(y.history, b, c);
    StageOrder(y.history, c, d);
  }

  lemma StageOrder(h: seq<Event>, i: nat, j: nat)
    requires i < |h| && j < |h| && Stage(h[..i + 1]) == Stage(h[..j]) < Stage(h[..j + 1])
    requires Stage(h[..i]) < Stage(h[..i + 1])
    ensures i < j
  {
    if j < i {
      StageGrows(h, j + 1, i);
    }
  }

  predicate HandlesKeepalive(l: Label) {
    l.Handle? && l.event.KeepaliveReceived?
  }

  /** No KEEPALIVE event, no Established: and `process`, the only task that reads messages for a
      session, sends it none. */
  lemma {:induction false} NoKeepaliveNoEstablished(conf: Conf, opts: Options, ys: seq<System>, ls: seq<Label>)
    requires RunOf(conf, opts, ys, ls)
    requires forall i | 0 <= i < |ls| :: !HandlesKeepalive(ls[i])
    ensures Stage(ys[|ls|].history) < 4
    ensures !ys[|ls|].s.phase.Established?
    decreases |ls|
  {
    hide Move, Safe;
    if ls != [] {
      LeadsFront(conf, ys, ls);
      NoKeepaliveNoEstablished(conf, opts, ys[..|ls|], ls[..|ls| - 1]);
      StageStep(conf, ys[|ls| - 1], ls[|ls| - 1]);
    }
    RunSafe(conf, opts, ys, ls);
    SafeStaged(conf, ys[|ls|]);
  }

  lemma SafeStaged(conf: Conf, y: System)
    requires y.net.Wired() && Safe(conf, y)
    ensures Reached(y.s) <= Stage(y.history)
  {
  }

  lemma StageStep(conf: Conf, y: System, l: Label)
    requires y.net.Wired() && Move(conf, y, l).Some? && !HandlesKeepalive(l)
    ensures Stage(y.history) < 4 ==> Stage(Move(conf, y, l).value.history) < 4
  {
    hide React;
    if l.Handle? {
      var e := Renamed(y.s, l.event, l.src);
      assert (y.history + [e])[..|y.history|] == y.history;
    }
  }

  // ---------------------------------------------------------------- panics

  /** In OpenConfirm and Established both OPENs and the sender are there, so no event but an OPEN can
      make the session panic; an OPEN does exactly when it is of the side on record, or its sender wins
      and there is no second connection to change to. */
  lemma OnlyOpenPanics(conf: Conf, opts: Options, y: System, e: Event, src: Source)
    requires Reachable(conf, opts, y) && Confirmed(y.s)
    ensures y.s.localOpen == Some(LocalOpen(conf)) && y.s.peerOpen.Some? && y.s.out.Some?
    ensures React(conf, y.s, Renamed(y.s, e, src), src, y.ch).Stuck? <==>
      e.BgpOpen? && (y.s.remoteSyn == e.remoteSyn
        || (LosesWithoutRival(y.s, e.msg) && (y.s.phase.Established? ==> y.s.attr.opts.collisionDetectEstablished)))
  {
    hide React, Stage;
    ReachableSafe(conf, opts, y);
    StuckExactlyWhenFatal(conf, y.s, Renamed(y.s, e, src), src, y.ch);
    RetryAndDelayAreOff(conf, opts, y, e, src);
  }

  /** In any state, an event that may come is handled unless it is fatal. */
  lemma HandledUnlessFatal(conf: Conf, opts: Options, y: System, e: Event, src: Source)
    requires Reachable(conf, opts, y) && y.ch.timers == [] && MayCome(y, e, src)
    ensures Move(conf, y, Handle(e, src)).None? <==> Fatal(y.s, Renamed(y.s, e, src), src)
  {
    hide React, Stage, Fatal;
    ReachableSafe(conf, opts, y);
    StuckExactlyWhenFatal(conf, y.s, Renamed(y.s, e, src), src, y.ch);
  }

  /** A delay-open expiry that no timer reported, or an OPEN renamed already. */
  predicate Forged(l: Label) {
    l.Handle? && ((l.event.DelayOpenExpires? && !l.src.FromTimer?) || l.event.BgpOpenDelayed?)
  }

  /** A wait of FAR_FUTURE, some thirty years, runs out. */
  predicate OutlivesTimer(y: System, l: Label)
    requires y.net.Wired()
  {
    l.TimeOut? && y.net.tickers[l.kind].dur == FAR_FUTURE
  }

  /** The delay-open timer is off, has been told nothing else, and has reported nothing. */
  predicate DelayOff(y: System)
    requires y.net.Wired()
  {
    var t := y.net.tickers[DelayOpenTimer];
    && OnlyStopped(y.ch.timers, DelayOpenTimer) && OnlyStopped(y.net.ctl, DelayOpenTimer)
    && (forall i | 0 <= i < |t.queue| :: t.queue[i].Stop?)
    && t.dur == FAR_FUTURE && !t.ringing && DelayOpenTimer !in y.net.expired
  }

  /** Without the delay-open option, as `SessionAttributes::new` sets it, the delay-open timer is never
      set, the local OPEN is never recorded, and no run gets past OpenSent. */
  lemma {:induction false} WithoutDelayNeverConfirmed(conf: Conf, opts: Options, ys: seq<System>, ls: seq<Label>)
    requires !opts.delayOpen
    requires RunOf(conf, opts, ys, ls)
    requires forall i | 0 <= i < |ls| :: !Forged(ls[i]) && !OutlivesTimer(ys[i], ls[i])
    ensures DelayOff(ys[|ls|])
    ensures ys[|ls|].s.localOpen.None? && !Confirmed(ys[|ls|].s)
    decreases |ls|
  {
    hide Move, Safe, DelayOff;
    if ls == [] {
      StartDelayOff(opts);
    } else {
      LeadsFront(conf, ys, ls);
      var zs, ms := ys[..|ls|], ls[..|ls| - 1];
      assert forall i | 0 <= i < |ms| :: ms[i] == ls[i] && zs[i] == ys[i];
      WithoutDelayNeverConfirmed(conf, opts, zs, ms);
      RunSafe(conf, opts, zs, ms);
      UndelayedStep(conf, ys[|ls| - 1], ls[|ls| - 1]);
    }
  }

  lemma StartDelayOff(opts: Options)
    ensures DelayOff(Start(opts))
  {
  }

  lemma UndelayedStep(conf: Conf, y: System, l: Label)
    requires y.net.Wired() && Safe(conf, y) && Move(conf, y, l).Some?
    requires !y.s.attr.opts.delayOpen && !Forged(l) && !OutlivesTimer(y, l)
    requires DelayOff(y) && y.s.localOpen.None? && !Confirmed(y.s)
    ensures var z := Move(conf, y, l).value; DelayOff(z) && z.s.localOpen.None? && !Confirmed(z.s)
  {
    hide React, Safe, Renamed, OnlyStopped;
    if l.Handle? {
      NotRenamedWithoutDelay(conf, y, l.event, l.src);
      assert !l.event.DelayOpenExpires?;
      EveryArmSpares(conf, y.s, l.event, l.src, y.ch);
      DelayOpenTold(conf, y.s, l.event, l.src, y.ch);
    } else {
      StoppedParts(y.ch.timers, y.net.ctl);
    }
  }

  lemma StoppedParts(pending: seq<Timer>, ctl: seq<Timer>)
    ensures OnlyStopped(pending, DelayOpenTimer) && pending != [] ==> OnlyStopped(pending[1..], DelayOpenTimer)
    ensures OnlyStopped(ctl, DelayOpenTimer) && ctl != [] ==>
      OnlyStopped(ctl[1..], DelayOpenTimer) && (ctl[0].kind == DelayOpenTimer ==> ctl[0].op.Stop?)
    ensures OnlyStopped(pending, DelayOpenTimer) && OnlyStopped(ctl, DelayOpenTimer) && pending != [] ==>
      OnlyStopped(ctl + [pending[0]], DelayOpenTimer)
  {
  }

  lemma NotRenamedWithoutDelay(conf: Conf, y: System, e: Event, src: Source)
    requires y.net.Wired() && Safe(conf, y) && !y.s.attr.opts.delayOpen
    ensures Renamed(y.s, e, src) == e && Paired(y.s)
  {
  }

  // ---------------------------------------------------------------- negotiation and counting

  /** Where both OPENs are known, the hold time in force, on record and in the timer, is the smaller of
      the two, and the keepalive timer is set to the keepalive time. */
  lemma HoldTimeNegotiated(conf: Conf, opts: Options, y: System)
    requires Reachable(conf, opts, y) && Confirmed(y.s)
    ensures y.s.peerOpen.Some?
    ensures y.s.attr.holdTime == Seconds(Smaller(conf.holdTime, y.s.peerOpen.value.holdTime))
    ensures Outlook(y.net, y.ch.timers, HoldTimer) == y.s.attr.holdTime
    ensures Outlook(y.net, y.ch.timers, KeepaliveTimer) == y.s.attr.keepaliveTime
  {
    ReachableSafe(conf, opts, y);
    TimersAgree(conf, opts, y, HoldTimer);
    TimersAgree(conf, opts, y, KeepaliveTimer);
    NegotiatedIsMinimum(LocalOpen(conf), y.s.peerOpen.value);
  }

  predicate OpensDecoded(l: Label) {
    l.Handle? ==>
      && (l.event.BgpOpen? ==> AcceptableHoldTime(l.event.msg.holdTime))
      && (l.event.BgpOpenDelayed? ==> AcceptableHoldTime(l.event.msg.holdTime))
  }

  lemma {:induction false} PeerOpenDecoded(conf: Conf, opts: Options, ys: seq<System>, ls: seq<Label>)
    requires RunOf(conf, opts, ys, ls)
    requires forall i | 0 <= i < |ls| :: OpensDecoded(ls[i])
    ensures var s := ys[|ls|].s; s.peerOpen.Some? ==> AcceptableHoldTime(s.peerOpen.value.holdTime)
    decreases |ls|
  {
    hide Move, Safe, AcceptableHoldTime;
    if ls != [] {
      LeadsFront(conf, ys, ls);
      PeerOpenDecoded(conf, opts, ys[..|ls|], ls[..|ls| - 1]);
      RunSafe(conf, opts, ys[..|ls|], ls[..|ls| - 1]);
      PeerOpenStep(conf, ys[|ls| - 1], ls[|ls| - 1]);
    }
  }

  lemma PeerOpenStep(conf: Conf, y: System, l: Label)
    requires y.net.Wired() && Safe(conf, y) && Move(conf, y, l).Some? && OpensDecoded(l)
    requires y.s.peerOpen.Some? ==> AcceptableHoldTime(y.s.peerOpen.value.holdTime)
    ensures var s := Move(conf, y, l).value.s; s.peerOpen.Some? ==> AcceptableHoldTime(s.peerOpen.value.holdTime)
  {
    hide React, AcceptableHoldTime;
    if l.Handle? {
      EveryArmSpares(conf, y.s, Renamed(y.s, l.event, l.src), l.src, y.ch);
    }
  }

  lemma DecodedHoldTime(b: bytes)
    ensures ParseOpen(b).Ok? ==> AcceptableHoldTime(ParseOpen(b).value.holdTime)
  {
    OpenShape(b);
  }

  /** The negotiated hold time is 0 or at least three seconds, as the decoder lets in no other, exactly
      when the configured one is, or the peer's is 0. */
  lemma HoldTimeAcceptable(conf: Conf, opts: Options, ys: seq<System>, ls: seq<Label>)
    requires RunOf(conf, opts, ys, ls)
    requires forall i | 0 <= i < |ls| :: OpensDecoded(ls[i])
    requires Confirmed(ys[|ls|].s)
    ensures var s := ys[|ls|].s;
      && s.peerOpen.Some?
      && (s.attr.holdTime == 0 || s.attr.holdTime >= 3 * SECOND <==>
            AcceptableHoldTime(conf.holdTime) || s.peerOpen.value.holdTime == 0)
  {
    hide Move;
    HoldTimeNegotiated(conf, opts, ys[|ls|]);
    PeerOpenDecoded(conf, opts, ys, ls);
  }

  /** The keepalive time is a third of the hold time, to the nanosecond below. */
  predicate Thirds(a: Attr) {
    3 * a.keepaliveTime <= a.holdTime < 3 * a.keepaliveTime + 3
  }

  predicate HadDelayedOpen(h: seq<Event>) {
    exists i | 0 <= i < |h| :: h[i].BgpOpenDelayed?
  }

  lemma AnsweringSetsThirds()
    ensures forall conf: Conf, s: State, msg: OpenMsg, ch: Channels, otherwise: Operation
      {:trigger ConfirmDelayed(conf, s, msg, ch, otherwise)} ::
      var r := ConfirmDelayed(conf, s, msg, ch, otherwise);
      r.Next? ==> r.state.phase == s.phase && Thirds(r.state.attr)
  {
    hide Negotiated, StartTimers;
    forall conf: Conf, msg: OpenMsg {
      NegotiatedIsMinimum(LocalOpen(conf), msg);
    }
  }

  lemma DelayedOpenSetsThirds(conf: Conf, s: State, e: Event, src: Source, ch: Channels)
    requires e.BgpOpenDelayed?
    ensures var r := React(conf, s, e, src, ch);
      r.Next? && !r.state.phase.Idle? ==> r.state.phase.OpenConfirm? && Thirds(r.state.attr)
  {
    hide NoteOf, NoteFrom, Quit, NotifyAndQuit, ConfirmDelayed, Thirds;
    LeavingGoesIdle();
    AnsweringSetsThirds();
  }

  /** A session that confirmed an OPEN while its own was delayed has the keepalive time at a third of
      the hold time for as long as it stays out of Idle. */
  lemma {:induction false} DelayedOpenThirds(conf: Conf, opts: Options, ys: seq<System>, ls: seq<Label>)
    requires RunOf(conf, opts, ys, ls)
    ensures HadDelayedOpen(ys[|ls|].history) ==> Confirmed(ys[|ls|].s) && Thirds(ys[|ls|].s.attr)
    decreases |ls|
  {
    hide Move, Safe, Thirds;
    if ls != [] {
      LeadsFront(conf, ys, ls);
      DelayedOpenThirds(conf, opts, ys[..|ls|], ls[..|ls| - 1]);
      RunSafe(conf, opts, ys[..|ls|], ls[..|ls| - 1]);
      ThirdsStep(conf, ys[|ls| - 1], ls[|ls| - 1]);
    }
  }

  lemma ThirdsStep(conf: Conf, y: System, l: Label)
    requires y.net.Wired() && Safe(conf, y) && Move(conf, y, l).Some?
    requires HadDelayedOpen(y.history) ==> Confirmed(y.s) && Thirds(y.s.attr)
    ensures var z := Move(conf, y, l).value;
      HadDelayedOpen(z.history) ==> Confirmed(z.s) && Thirds(z.s.attr)
  {
    hide React;
    if l.Handle? {
      var e := Renamed(y.s, l.event, l.src);
      EveryArmSpares(conf, y.s, e, l.src, y.ch);
      if e.BgpOpenDelayed? {
        DelayedOpenSetsThirds(conf, y.s, e, l.src, y.ch);
      } else {
        var z := Move(conf, y, l).value;
        if HadDelayedOpen(z.history) {
          var i :| 0 <= i < |z.history| && z.history[i].BgpOpenDelayed?;
          assert y.history[i].BgpOpenDelayed?;
        }
      }
    }
  }

  /** The keepalive time is a third of what the last late answer of the whole run agreed on, or of nine
      seconds; the way through OpenSent negotiates the hold time and leaves the keepalive time. So the
      one is a third of the other exactly when both came to the same number of seconds. */
  lemma StaleKeepaliveTime(conf: Conf, opts: Options, y: System)
    requires Reachable(conf, opts, y) && Confirmed(y.s)
    ensures y.s.attr.keepaliveTime == Seconds(y.lateHold) / 3
    ensures y.s.peerOpen.Some?
    ensures Thirds(y.s.attr) <==> Smaller(conf.holdTime, y.s.peerOpen.value.holdTime) == y.lateHold
  {
    ReachableSafe(conf, opts, y);
    HoldTimeNegotiated(conf, opts, y);
    ThirdsOfSeconds(Smaller(conf.holdTime, y.s.peerOpen.value.holdTime), y.lateHold);
  }

  lemma ThirdsOfSeconds(m: uint16, n: uint16)
    ensures 3 * (Seconds(n) / 3) <= Seconds(m) < 3 * (Seconds(n) / 3) + 3 <==> m == n
  {
  }

  /** The session answers an OPEN late. */
  predicate HandlesLate(y: System, l: Label) {
    l.Handle? && AnswersLate(y.s, Renamed(y.s, l.event, l.src))
  }

  /** Where no OPEN was answered late, the nine seconds of the start remain. */
  lemma {:induction false} NeverLate(conf: Conf, opts: Options, ys: seq<System>, ls: seq<Label>)
    requires RunOf(conf, opts, ys, ls)
    requires forall i | 0 <= i < |ls| :: !HandlesLate(ys[i], ls[i])
    ensures ys[|ls|].lateHold == 9
    decreases |ls|
  {
    hide Move;
    if ls != [] {
      LeadsFront(conf, ys, ls);
      var zs, ms := ys[..|ls|], ls[..|ls| - 1];
      assert forall i | 0 <= i < |ms| :: ms[i] == ls[i] && zs[i] == ys[i];
      NeverLate(conf, opts, zs, ms);
      NotLateStep(conf, ys[|ls| - 1], ls[|ls| - 1]);
    }
  }

  lemma NotLateStep(conf: Conf, y: System, l: Label)
    requires y.net.Wired() && Move(conf, y, l).Some? && !HandlesLate(y, l)
    ensures Move(conf, y, l).value.lateHold == y.lateHold
  {
    hide React;
  }

  /** The retry counter is zero in every state but Idle and one at most there: it cannot overflow. */
  lemma CounterNeverGrows(conf: Conf, opts: Options, y: System)
    requires Reachable(conf, opts, y)
    ensures y.s.attr.counter <= if y.s.phase.Idle? then 1 else 0
  {
    ReachableSafe(conf, opts, y);
  }

  // ---------------------------------------------------------------- progress of the timer control

  /** The session is never blocked for good on sending a timer command: there is a slot, or the router
      can make one, whatever the timer tasks and the expiry channel are doing. */
  lemma SendNeverBlocked(conf: Conf, y: System)
    requires y.net.Wired() && y.ch.timers != []
    ensures Move(conf, y, Send).Some? <==> |y.net.ctl| < 32
    ensures Move(conf, y, Send).None? ==>
      Move(conf, y, Forward).Some? && Move(conf, Move(conf, y, Forward).value, Send).Some?
  {
    hide HandleEvent;
    if |y.net.ctl| == SLOTS {
      var m := Route(y.net);
    }
  }

  /** The steps that serve the timers: those of the router and the timer tasks, the session's sending
      of commands, and its taking of expiries. */
  predicate Serves(l: Label) {
    l.Send? || l.Forward? || l.Carryout? || l.Report? || (l.Handle? && l.src.FromTimer?)
  }

  /** The expiry that the session is to take next makes it panic. */
  predicate Doomed(y: System) {
    y.ch.timers == [] && y.net.expired != [] && Fatal(y.s, Expiry(y.net.expired[0]), FromTimer)
  }

  /** The session and the timer tasks never wait for one another in a circle: while there is a command
      to carry out, an expiry to report or one to take, a step that serves the timers can be taken,
      unless the session is about to panic. */
  lemma NoDeadlock(conf: Conf, opts: Options, y: System, kind: TimerKind) returns (l: Label)
    requires Reachable(conf, opts, y) && !Doomed(y)
    requires Outstanding(y.net, y.ch.timers) > 0 || y.net.tickers[kind].ringing || y.net.expired != []
    ensures Serves(l) && Move(conf, y, l).Some?
  {
    hide HandleEvent, Fatal;
    if y.ch.timers != [] {
      l := if |y.net.ctl| < SLOTS then Send else Forward;
    } else if y.net.expired != [] {
      l := Handle(Expiry(y.net.expired[0]), FromTimer);
      HandledUnlessFatal(conf, opts, y, l.event, FromTimer);
    } else if y.net.ctl != [] {
      l := Forward;
    } else if y.net.tickers[kind].ringing {
      l := Report(kind);
    } else {
      var k := SomethingOutstanding(y.net, []);
      l := if y.net.tickers[k].ringing then Report(k) else Carryout(k);
    }
  }

  /** How many timer tasks have an expiry to report. */
  function Ringing(n: Net): nat
    requires n.Wired()
  {
    Count(n.tickers[ConnectRetryTimer].ringing) + Count(n.tickers[HoldTimer].ringing)
    + Count(n.tickers[KeepaliveTimer].ringing) + Count(n.tickers[DelayOpenTimer].ringing)
    + Count(n.tickers[IdleHoldTimer].ringing)
  }

  lemma RingingWith(n: Net, kind: TimerKind, t: Ticker)
    requires n.Wired()
    ensures var m := n.(tickers := n.tickers[kind := t]);
      m.Wired() && Ringing(m) == Ringing(n) - Count(n.tickers[kind].ringing) + Count(t.ringing)
  {
    match kind
    case ConnectRetryTimer =>
    case HoldTimer =>
    case KeepaliveTimer =>
    case DelayOpenTimer =>
    case IdleHoldTimer =>
  }

  lemma SameTickers(n: Net, m: Net)
    requires n.Wired() && m.Wired() && n.tickers == m.tickers
    ensures Ringing(n) == Ringing(m) && Queued(n) == Queued(m)
  {
  }

  predicate Sparse(ch: Channels, r: Step) {
    r.Next? ==> |r.ch.timers| <= |ch.timers| + 2
  }

  lemma EarlyExpiryCommands(conf: Conf, s: State, kind: TimerKind, ch: Channels)
    requires s.phase.Connect? || s.phase.Active?
    ensures Sparse(ch, React(conf, s, Expiry(kind), FromTimer, ch))
  {
    hide NoteOf, Quit, QuitBoth, NotifyAndQuit;
    LeavingGoesIdle();
  }

  lemma LateExpiryCommands(conf: Conf, s: State, kind: TimerKind, ch: Channels)
    requires s.Colliding()
    ensures Sparse(ch, React(conf, s, Expiry(kind), FromTimer, ch))
  {
    hide NoteOf, Quit, QuitBoth, NotifyAndQuit, Below, Negotiated, ConfirmOpen;
    hide ResolveInOpenConfirm, ResolveInEstablished;
    LeavingGoesIdle();
  }

  /** An expiry gives rise to two timer commands at most. */
  lemma ExpiryCommands(conf: Conf, s: State, kind: TimerKind, ch: Channels)
    ensures Sparse(ch, React(conf, s, Expiry(kind), FromTimer, ch))
  {
    hide StepConnect, StepActive, StepOpenSent, StepOpenConfirm, StepEstablished;
    if s.Colliding() {
      LateExpiryCommands(conf, s, kind, ch);
    } else if !s.phase.Idle? {
      EarlyExpiryCommands(conf, s, kind, ch);
    }
  }

  /** A bound on the steps it takes to serve the timers: an expiry on its way costs one step to take,
      and three for each of the two commands it may give rise to; one not yet reported, twice that. */
  function Burden(y: System): nat
    requires y.net.Wired()
  {
    14 * Ringing(y.net) + 7 * |y.net.expired| + Outstanding(y.net, y.ch.timers)
  }

  lemma ServiceProgresses(conf: Conf, y: System, l: Label)
    requires y.net.Wired() && Serves(l) && Move(conf, y, l).Some?
    ensures Burden(Move(conf, y, l).value) < Burden(y)
  {
    hide Queued, React, Ringing;
    match l
    case Send =>
      AcceptProgresses(y.net, y.ch.timers);
      SameTickers(y.net, Accept(y.net, y.ch.timers[0]));
    case Forward =>
      var t, m := y.net.ctl[0], Route(y.net);
      RouteProgresses(y.net, y.ch.timers);
      RingingWith(y.net, t.kind, m.tickers[t.kind]);
      SameTickers(y.net.(tickers := m.tickers), m);
    case Carryout(kind) =>
      var k := y.net.tickers[kind];
      ObeyProgresses(y.net, y.ch.timers, kind);
      RingingWith(y.net, kind, k.(queue := k.queue[1..], dur := Obeyed(k.dur, k.queue[0])));
    case Report(kind) =>
      var k, m := y.net.tickers[kind].(ringing := false), Ring(y.net, kind);
      QueuedWith(y.net, kind, k);
      RingingWith(y.net, kind, k);
      SameTickers(y.net.(tickers := m.tickers), m);
    case Handle(e, src) =>
      TakesExpiry(conf, y, e);
  }

  lemma TakesExpiry(conf: Conf, y: System, e: Event)
    requires y.net.Wired() && Move(conf, y, Handle(e, FromTimer)).Some?
    ensures Burden(Move(conf, y, Handle(e, FromTimer)).value) < Burden(y)
  {
    hide React;
    var z := Move(conf, y, Handle(e, FromTimer)).value;
    ExpiryCommands(conf, y.s, y.net.expired[0], y.ch);
    assert z.net.tickers == y.net.tickers && z.net.ctl == y.net.ctl;
  }

  /** A timer task that has an expiry to report has it until it reports it. */
  lemma {:induction false} OnlyReportingEnds(conf: Conf, zs: seq<System>, ds: seq<Label>, kind: TimerKind)
    requires Leads(conf, zs, ds) && zs[0].net.tickers[kind].ringing
    ensures zs[|ds|].net.tickers[kind].ringing || Report(kind) in ds
    decreases |ds|
  {
    hide Move;
    if ds != [] {
      LeadsFront(conf, zs, ds);
      OnlyReportingEnds(conf, zs[..|ds|], ds[..|ds| - 1], kind);
      if zs[|ds| - 1].net.tickers[kind].ringing {
        RingingStays(conf, zs[|ds| - 1], ds[|ds| - 1], kind);
      }
      assert ds == ds[..|ds| - 1] + [ds[|ds| - 1]];
    }
  }

  lemma RingingStays(conf: Conf, y: System, l: Label, kind: TimerKind)
    requires y.net.Wired() && Move(conf, y, l).Some? && y.net.tickers[kind].ringing
    ensures Move(conf, y, l).value.net.tickers[kind].ringing || l == Report(kind)
  {
    hide React;
  }

  /** Serving the timers comes to an end, within a number of steps known beforehand, however the steps
      are chosen; and when none is left to take, either the session is about to panic, or every expiry
      was reported and taken, every command carried out, and every timer that agrees waits exactly as
      long as the session has on record. */
  lemma TimersServed(conf: Conf, opts: Options, zs: seq<System>, ds: seq<Label>, kind: TimerKind)
    requires Leads(conf, zs, ds) && Reachable(conf, opts, zs[0])
    requires forall i | 0 <= i < |ds| :: Serves(ds[i])
    ensures |ds| <= Burden(zs[0]) - Burden(zs[|ds|])
    ensures zs[0].net.tickers[kind].ringing ==> zs[|ds|].net.tickers[kind].ringing || Report(kind) in ds
    ensures var z := zs[|ds|];
      (forall l: Label | Serves(l) :: Move(conf, z, l).None?) ==>
        Doomed(z)
        || (!z.net.tickers[kind].ringing && z.net.expired == [] && Outstanding(z.net, z.ch.timers) == 0
            && (z.net.tickers[kind].dur == Current(z.s.attr, kind) <==> !(kind == DelayOpenTimer && z.drift)))
  {
    hide Burden, Serves, Move, Safe, Doomed, Outstanding;
    var z := zs[|ds|];
    ServicesCount(conf, zs, ds);
    if zs[0].net.tickers[kind].ringing {
      OnlyReportingEnds(conf, zs, ds, kind);
    }
    LeadsReachably(conf, opts, zs, ds);
    if (forall l: Label | Serves(l) :: Move(conf, z, l).None?) && !Doomed(z) {
      if Outstanding(z.net, z.ch.timers) > 0 || z.net.tickers[kind].ringing || z.net.expired != [] {
        var l := NoDeadlock(conf, opts, z, kind);
      } else {
        NothingOutstanding(z.net, z.ch.timers, kind);
        ReachableSafe(conf, opts, z);
        SafeTimed(conf, z, kind);
      }
    }
  }

  lemma {:induction false} ServicesCount(conf: Conf, zs: seq<System>, ds: seq<Label>)
    requires Leads(conf, zs, ds)
    requires forall i | 0 <= i < |ds| :: Serves(ds[i])
    ensures |ds| <= Burden(zs[0]) - Burden(zs[|ds|])
    decreases |ds|
  {
    hide Burden, Serves, Move;
    if ds != [] {
      LeadsFront(conf, zs, ds);
      ServicesCount(conf, zs[..|ds|], ds[..|ds| - 1]);
      ServiceProgresses(conf, zs[|ds| - 1], ds[|ds| - 1]);
    }
  }

  lemma {:induction false} LeadsReachably(conf: Conf, opts: Options, zs: seq<System>, ds: seq<Label>)
    requires Leads(conf, zs, ds) && Reachable(conf, opts, zs[0])
    ensures Reachable(conf, opts, zs[|ds|])
    decreases |ds|
  {
    hide Move, Reachable;
    if ds != [] {
      LeadsFront(conf, zs, ds);
      LeadsReachably(conf, opts, zs[..|ds|], ds[..|ds| - 1]);
      ReachableNext(conf, opts, zs[|ds| - 1], ds[|ds| - 1]);
    }
  }

  predicate Delivers(l: Label) {
    l.Send? || l.Forward? || l.Carryout?
  }

  predicate Quiet(n: Net)
    requires n.Wired()
  {
    forall k: TimerKind :: !n.tickers[k].ringing
  }

  lemma DeliveryProgresses(conf: Conf, y: System, l: Label)
    requires y.net.Wired() && Delivers(l) && Move(conf, y, l).Some?
    ensures var z := Move(conf, y, l).value;
      && Outstanding(z.net, z.ch.timers) == Outstanding(y.net, y.ch.timers) - 1
      && z == y.(ch := y.ch.(timers := z.ch.timers), net := z.net) && z.net.expired == y.net.expired
      && (Quiet(y.net) ==> Quiet(z.net))
  {
    hide HandleEvent, Outstanding;
    match l
    case Send => AcceptProgresses(y.net, y.ch.timers);
    case Forward => RouteProgresses(y.net, y.ch.timers);
    case Carryout(kind) => ObeyProgresses(y.net, y.ch.timers, kind);
  }

  /** Delivering steps can go on while something is outstanding and no timer task is blocked. */
  lemma DeliveryGoesOn(conf: Conf, y: System) returns (l: Label)
    requires y.net.Wired() && Quiet(y.net) && Outstanding(y.net, y.ch.timers) > 0
    ensures Delivers(l) && Move(conf, y, l).Some?
  {
    hide HandleEvent;
    if y.ch.timers != [] && |y.net.ctl| < SLOTS {
      l := Send;
    } else if y.net.ctl != [] {
      l := Forward;
    } else {
      var k := SomethingOutstanding(y.net, y.ch.timers);
      l := Carryout(k);
    }
  }

  lemma {:induction false} DeliveriesCount(conf: Conf, zs: seq<System>, ds: seq<Label>)
    requires Leads(conf, zs, ds)
    requires forall i | 0 <= i < |ds| :: Delivers(ds[i])
    ensures var y, z := zs[0], zs[|ds|];
      && Outstanding(z.net, z.ch.timers) == Outstanding(y.net, y.ch.timers) - |ds|
      && z.s == y.s && z.drift == y.drift
      && (Quiet(y.net) ==> Quiet(z.net))
    decreases |ds|
  {
    hide Move, Outstanding, Delivers;
    if ds != [] {
      LeadsFront(conf, zs, ds);
      DeliveriesCount(conf, zs[..|ds|], ds[..|ds| - 1]);
      DeliveryProgresses(conf, zs[|ds| - 1], ds[|ds| - 1]);
    }
  }

  /** However delivering steps are chosen, there are at most as many as are outstanding; short of that
      one more can be taken; and then every timer that agrees waits exactly as long as the session has
      on record. */
  lemma TimersSettle(conf: Conf, opts: Options, zs: seq<System>, ds: seq<Label>, kind: TimerKind)
    requires Leads(conf, zs, ds) && Reachable(conf, opts, zs[0]) && Quiet(zs[0].net)
    requires forall i | 0 <= i < |ds| :: Delivers(ds[i])
    ensures var y, z := zs[0], zs[|ds|];
      var n := Outstanding(y.net, y.ch.timers);
      && z.s == y.s
      && |ds| <= n
      && (|ds| < n ==> exists l :: Delivers(l) && Move(conf, z, l).Some?)
      && (|ds| == n ==> (z.net.tickers[kind].dur == Current(y.s.attr, kind) <==> !(kind == DelayOpenTimer && y.drift)))
  {
    hide Outstanding, Delivers, Move, Safe;
    var y, z := zs[0], zs[|ds|];
    DeliveriesCount(conf, zs, ds);
    if |ds| < Outstanding(y.net, y.ch.timers) {
      var l := DeliveryGoesOn(conf, z);
    } else if |ds| == Outstanding(y.net, y.ch.timers) {
      NothingOutstanding(z.net, z.ch.timers, kind);
      LeadsReachably(conf, opts, zs, ds);
      ReachableSafe(conf, opts, z);
      SafeTimed(conf, z, kind);
    }
  }

  lemma SafeTimed(conf: Conf, y: System, kind: TimerKind)
    requires y.net.Wired() && Safe(conf, y)
    ensures Outlook(y.net, y.ch.timers, kind) == Current(y.s.attr, kind) <==> !(kind == DelayOpenTimer && y.drift)
  {
    assert Agrees(y, kind) <==> !(kind == DelayOpenTimer && y.drift);
  }
}
