/** Whole runs: the session, the timer tasks, the reading of second connections and the environment,
    in any interleaving. */
module Run {
  import opened Basics
  import opened Fsm
  import opened Session
  import opened SessionInvariant
  import opened SessionEffects
  import opened SessionSound
  import opened SessionProgress
  import opened TimerLoop

  /** `s` and `ch` are the session and what it emitted, `ch.timers` being the commands of the arm in
      progress that have no slot in the control channel yet; `net` is the timer tasks; `announced`
      are the connections `process_one` has handed back and the session not taken yet. The rest only
      records: the connections taken in, those among them that this speaker initiated, and those that
      collision detection put in another's place; the events since Idle was left; whether the
      delay-open timer was last set behind the back of the session's record; whether OpenSent or
      OpenConfirm was last entered from Connect; the last hold time, in seconds, that an OPEN
      answered late agreed on; and how many attempts at a connection have had their outcome taken. */
  datatype System = System(
    s: State, ch: Channels, net: Net, announced: set<ConnId>,
    taken: set<ConnId>, own: set<ConnId>, installed: set<ConnId>,
    history: seq<Event>, drift: bool, viaConnect: bool, lateHold: uint16, outcomes: nat)

  datatype Label =
    | Handle(event: Event, src: Source)
    | OpenRead(conn: ConnId, isOpen: bool)
    | Send
    | Forward
    | Carryout(kind: TimerKind)
    | TimeOut(kind: TimerKind)
    | Report(kind: TimerKind)

  /** The keepalive time a session starts with is a third of nine seconds. */
  function Start(opts: Options): (y: System)
    ensures y.net.Wired()
  {
    System(NewSession(opts), NO_OUTPUT, NewNet(), {}, {}, {}, {}, [], false, false, 9, 0)
  }

  /** How many attempts at a connection were started. */
  function Dials(y: System): nat {
    multiset(y.ch.tasks)[Dial]
  }

  /** An attempt ends in a connection or a failure. */
  predicate Outcome(e: Event) {
    e.TcpCRAcked? || e.TcpConnectionFails?
  }

  /** An expiry comes off its channel; a connection is new, or was handed back; an attempt at one has
      one outcome, which may still come after the attempt was given up. Anything else may come at any
      time, from anywhere. */
  predicate MayCome(y: System, e: Event, src: Source) {
    && (src.FromTimer? ==> y.net.expired != [] && e == Expiry(y.net.expired[0]))
    && (e.TcpCRAcked? || e.TcpConnectionConfirmed? ==> e.conn !in y.taken)
    && (Outcome(e) ==> y.outcomes < Dials(y))
    && (e.ProcessOneDone? ==> e.conn in y.announced)
  }

  /** One iteration of the session's loop; it takes an event only when its last arm has sent
      everything. A panic has no next system. */
  function HandleEvent(conf: Conf, y: System, event: Event, src: Source): (z: Option<System>)
    requires y.net.Wired()
    ensures z.Some? ==> z.value.net.Wired()
  {
    if y.ch.timers != [] || !MayCome(y, event, src) then None else
    var e := Renamed(y.s, event, src);
    var r := React(conf, y.s, e, src, y.ch);
    if r.Stuck? then None else
    Some(System(
      r.state, r.ch,
      if src.FromTimer? then y.net.(expired := y.net.expired[1..]) else y.net,
      y.announced - Carried(e), y.taken + Carried(e),
      if e.TcpCRAcked? then y.own + {e.conn} else y.own,
      y.installed + Installed(y.s, r),
      if r.state.phase.Idle? then [] else y.history + [e],
      if Commanded(r.ch.timers, DelayOpenTimer) then Drifts(y.s, e) else y.drift,
      if r.state.Colliding() && !y.s.Colliding() then y.s.phase.Connect? else y.viaConnect,
      if AnswersLate(y.s, e) then Smaller(conf.holdTime, e.msg.holdTime) else y.lateHold,
      y.outcomes + Count(Outcome(e))))
  }

  /** `process_one` has read a message, and hands the connection back if it was an OPEN. */
  function FinishReading(y: System, c: ConnId, isOpen: bool): System {
    var ch := y.ch.(opening := y.ch.opening - {c});
    if isOpen then y.(ch := ch, announced := y.announced + {c}) else y.(ch := ch.Close({c}))
  }

  function Move(conf: Conf, y: System, l: Label): (z: Option<System>)
    requires y.net.Wired()
    ensures z.Some? ==> z.value.net.Wired()
  {
    match l
    case Handle(e, src) => HandleEvent(conf, y, e, src)
    case OpenRead(c, isOpen) => if c in y.ch.opening then Some(FinishReading(y, c, isOpen)) else None
    case Send =>
      if y.ch.timers != [] && |y.net.ctl| < SLOTS then
        Some(y.(ch := y.ch.(timers := y.ch.timers[1..]), net := Accept(y.net, y.ch.timers[0])))
      else None
    case Forward => if y.net.ctl != [] then Some(y.(net := Route(y.net))) else None
    case Carryout(kind) =>
      if y.net.tickers[kind].queue != [] && !y.net.tickers[kind].ringing then Some(y.(net := Obey(y.net, kind)))
      else None
    case TimeOut(kind) => if !y.net.tickers[kind].ringing then Some(y.(net := Expire(y.net, kind))) else None
    case Report(kind) =>
      if y.net.tickers[kind].ringing && |y.net.expired| < SLOTS then Some(y.(net := Ring(y.net, kind))) else None
  }

  /** The steps `ls` lead through the systems `ys`. */
  ghost predicate Leads(conf: Conf, ys: seq<System>, ls: seq<Label>) {
    && |ys| == |ls| + 1
    && (forall i | 0 <= i < |ys| :: ys[i].net.Wired())
    && (forall i | 0 <= i < |ls| :: Move(conf, ys[i], ls[i]) == Some(ys[i + 1]))
  }

  /** The systems and steps of a run: one from the start of a session. */
  ghost predicate RunOf(conf: Conf, opts: Options, ys: seq<System>, ls: seq<Label>) {
    Leads(conf, ys, ls) && ys[0] == Start(opts)
  }

  ghost predicate Reachable(conf: Conf, opts: Options, y: System) {
    exists ys, ls :: RunOf(conf, opts, ys, ls) && ys[|ls|] == y
  }

  /** All but the last step of a sequence of steps. */
  lemma LeadsFront(conf: Conf, ys: seq<System>, ls: seq<Label>)
    requires Leads(conf, ys, ls) && ls != []
    ensures Leads(conf, ys[..|ls|], ls[..|ls| - 1])
    ensures Move(conf, ys[|ls| - 1], ls[|ls| - 1]) == Some(ys[|ls|])
  {
    hide Move;
    var zs, ms := ys[..|ls|], ls[..|ls| - 1];
    forall i | 0 <= i < |ms| ensures Move(conf, zs[i], ms[i]) == Some(zs[i + 1]) {
      assert ms[i] == ls[i] && zs[i] == ys[i] && zs[i + 1] == ys[i + 1];
    }
  }

  /** One more step. */
  lemma ReachableNext(conf: Conf, opts: Options, y: System, l: Label)
    requires Reachable(conf, opts, y) && Move(conf, y, l).Some?
    ensures Reachable(conf, opts, Move(conf, y, l).value)
  {
    hide Move;
    var ys, ls :| RunOf(conf, opts, ys, ls) && ys[|ls|] == y;
    var zs, ms := ys + [Move(conf, y, l).value], ls + [l];
    forall i | 0 <= i < |ms| ensures Move(conf, zs[i], ms[i]) == Some(zs[i + 1]) {
      if i < |ls| {
        assert ms[i] == ls[i] && zs[i] == ys[i] && zs[i + 1] == ys[i + 1];
      }
    }
    assert RunOf(conf, opts, zs, ms);
  }

  lemma StartReachable(conf: Conf, opts: Options)
    ensures Reachable(conf, opts, Start(opts))
  {
    assert RunOf(conf, opts, [Start(opts)], []);
  }

  // ---------------------------------------------------------------- what every system satisfies

  /** Every connection taken in is in exactly one place: current, kept for collision detection, being
      read for its OPEN, on its way back from that, or closed; no other connection is anywhere. */
  predicate OwnedOnce(y: System, c: ConnId) {
    Places(y.s, y.ch, c) + Count(c in y.announced) == Count(c in y.taken)
  }

  ghost predicate Owned(y: System) {
    forall c: ConnId :: OwnedOnce(y, c)
  }

  ghost predicate Spoken(y: System) {
    forall c: ConnId :: LogFits(y.s, y.ch, y.installed, c)
  }

  /** The timer is heading for what the session has on record. */
  predicate Agrees(y: System, kind: TimerKind)
    requires y.net.Wired()
  {
    Outlook(y.net, y.ch.timers, kind) == Current(y.s.attr, kind)
  }

  /** Every timer agrees, but for the delay-open timer while it drifts. */
  predicate Timed(y: System)
    requires y.net.Wired()
  {
    forall kind: TimerKind :: Agrees(y, kind) <==> !(kind == DelayOpenTimer && y.drift)
  }

  predicate DriftFits(y: System) {
    y.drift ==> y.s.attr.opts.delayOpen && !y.s.Colliding()
  }

  predicate Staged(y: System) {
    Reached(y.s) <= Stage(y.history) && (y.s.phase.Idle? ==> y.history == [])
  }

  /** Where the side on record comes from: it is the truth while the local OPEN is not recorded, and
      then says where OpenSent or OpenConfirm was entered from. */
  predicate Sided(y: System) {
    && y.own <= y.taken
    && (y.s.phase.OpenSent? && y.s.localOpen.None? && y.s.out.Some? ==> (y.s.remoteSyn <==> y.s.out.value !in y.own))
    && (y.s.localOpen.Some? ==> (y.s.remoteSyn <==> !y.viaConnect))
  }

  /** Only an OPEN answered late sets the keepalive time. */
  predicate Paced(y: System) {
    y.s.attr.keepaliveTime == Seconds(y.lateHold) / DFLT_KEEPALIVE_FACTOR
  }

  ghost predicate Safe(conf: Conf, y: System)
    requires y.net.Wired()
  {
    && Invariant(conf, y.s)
    && Owned(y) && Spoken(y) && Timed(y) && DriftFits(y) && Staged(y) && Sided(y) && Paced(y)
    && NeverRestarted(y.ch.timers, DelayOpenTimer)
  }

  // ---------------------------------------------------------------- handling an event

  lemma RenamedCarries(s: State, e: Event, src: Source)
    ensures Carried(Renamed(s, e, src)) == Carried(e)
    ensures Renamed(s, e, src).ProcessOneDone? == e.ProcessOneDone?
  {
  }

  lemma ApartBefore(conf: Conf, y: System, event: Event, src: Source, c: ConnId)
    requires MayCome(y, event, src) && OwnedOnce(y, c)
    ensures Apart(y.s, Renamed(y.s, event, src), y.ch, c)
    ensures c in Carried(event) ==>
      Count(c in y.announced) == Count(event.ProcessOneDone?) && Count(c in y.taken) == Count(event.ProcessOneDone?)
  {
    hide Places;
    RenamedCarries(y.s, event, src);
  }

  /** The arm, seen by connection `c`, timer `kind` and its duration `d`. */
  lemma HandleSound(conf: Conf, y: System, event: Event, src: Source, c: ConnId, kind: TimerKind, d: Duration)
    requires y.net.Wired() && Safe(conf, y) && MayCome(y, event, src)
    ensures var e := Renamed(y.s, event, src);
      Sound(conf, y.s, e, y.ch, React(conf, y.s, e, src, y.ch), View(y.installed, c, kind, d))
  {
    hide React, Sound, Places, LogFits, Invariant, Renamed, Timed, DriftFits, Staged;
    assert OwnedOnce(y, c);
    ApartBefore(conf, y, event, src, c);
    StepSound(conf, y.s, Renamed(y.s, event, src), src, y.ch, View(y.installed, c, kind, d));
  }

  lemma HandleOwns(conf: Conf, y: System, event: Event, src: Source, c: ConnId)
    requires y.net.Wired() && Safe(conf, y)
    requires HandleEvent(conf, y, event, src).Some?
    ensures OwnedOnce(HandleEvent(conf, y, event, src).value, c)
    ensures var z := HandleEvent(conf, y, event, src).value; LogFits(z.s, z.ch, z.installed, c)
    ensures var z := HandleEvent(conf, y, event, src).value; Invariant(conf, z.s) && z.s.attr.opts == y.s.attr.opts
  {
    hide React, Places, LogFits, Invariant, Commanded, Drifts, Commands, Installed, Timed, DriftFits, Staged;
    assert OwnedOnce(y, c);
    RenamedCarries(y.s, event, src);
    ApartBefore(conf, y, event, src, c);
    HandleSound(conf, y, event, src, c, HoldTimer, 0);
  }

  /** The outlook of a timer after the arm, its commands being the only ones not yet in the channel. */
  lemma OutlookAfter(n: Net, ts: seq<Timer>, kind: TimerKind)
    requires n.Wired()
    ensures Outlook(n, ts, kind) == Carry(Outlook(n, [], kind), ts, kind)
  {
    assert n.ctl + [] == n.ctl;
    var k := n.tickers[kind];
    CarryConcat(Fold(k.dur, k.queue), n.ctl, ts, kind);
  }

  lemma HandleTimes(conf: Conf, y: System, event: Event, src: Source, kind: TimerKind)
    requires y.net.Wired() && Safe(conf, y)
    requires HandleEvent(conf, y, event, src).Some?
    ensures var z := HandleEvent(conf, y, event, src).value;
      Agrees(z, kind) <==> !(kind == DelayOpenTimer && z.drift)
  {
    hide React, Places, LogFits, Invariant, Commanded, Drifts, Conserves, Installed, Staged;
    hide Fold, Carry, NeverRestarted;
    var e := Renamed(y.s, event, src);
    var r := React(conf, y.s, e, src, y.ch);
    var z := HandleEvent(conf, y, event, src).value;
    var d, d' := Outlook(y.net, [], kind), Current(y.s.attr, kind);
    assert Outlook(z.net, r.ch.timers, kind) == Outlook(y.net, r.ch.timers, kind);
    OutlookAfter(y.net, r.ch.timers, kind);
    HandleSound(conf, y, event, src, 0, kind, d');
    CarryNothing(d', kind);
    if kind == DelayOpenTimer {
      DelayOpenTold(conf, y.s, e, src, y.ch);
      CommandsForget(d, d', r.ch.timers, kind);
      CommandsForget(d', d, r.ch.timers, kind);
    }
    assert Agrees(y, kind) <==> !(kind == DelayOpenTimer && y.drift);
  }

  lemma CarryNothing(d: Duration, kind: TimerKind)
    ensures Carry(d, [], kind) == d
  {
  }

  lemma HandleDrifts(conf: Conf, y: System, event: Event, src: Source)
    requires y.net.Wired() && Safe(conf, y)
    requires HandleEvent(conf, y, event, src).Some?
    ensures var z := HandleEvent(conf, y, event, src).value;
      DriftFits(z) && NeverRestarted(z.ch.timers, DelayOpenTimer)
  {
    hide React, Places, LogFits, Invariant, Commanded, Conserves, Installed, Staged, Timed, NeverRestarted, Commands;
    var e := Renamed(y.s, event, src);
    HandleSound(conf, y, event, src, 0, HoldTimer, 0);
    DelayOpenTold(conf, y.s, e, src, y.ch);
    DriftStays(conf, y.s, e, src, y.ch);
  }

  /** The arm that makes the delay-open timer drift stays in Connect; and nothing but a command for it
      leads out of the states where it may. */
  lemma DriftStays(conf: Conf, s: State, e: Event, src: Source, ch: Channels)
    ensures var r := React(conf, s, e, src, ch); r.Next? && Drifts(s, e) ==> r.state.phase.Connect?
  {
  }

  lemma HandleStages(conf: Conf, y: System, event: Event, src: Source)
    requires y.net.Wired() && Safe(conf, y)
    requires HandleEvent(conf, y, event, src).Some?
    ensures Staged(HandleEvent(conf, y, event, src).value)
  {
    hide React, Places, LogFits, Commanded, Drifts, Conserves, Installed, Timed, NeverRestarted, Commands;
    var e := Renamed(y.s, event, src);
    NoStageSkipped(conf, y.s, e, src, y.ch);
    assert (y.history + [e])[..|y.history|] == y.history;
  }

  lemma HandleSides(conf: Conf, y: System, event: Event, src: Source)
    requires y.net.Wired() && Safe(conf, y)
    requires HandleEvent(conf, y, event, src).Some?
    ensures Sided(HandleEvent(conf, y, event, src).value)
    ensures Paced(HandleEvent(conf, y, event, src).value)
  {
    hide React, LogFits, Commanded, Drifts, Conserves, Installed, Timed, NeverRestarted, Commands, Staged;
    var e := Renamed(y.s, event, src);
    EveryArmRecords(conf, y.s, e, src, y.ch);
    EveryArmSpares(conf, y.s, e, src, y.ch);
    HandleOwns(conf, y, event, src, 0);
    if y.s.out.Some? {
      assert OwnedOnce(y, y.s.out.value);
    }
  }

  lemma HandleSafe(conf: Conf, y: System, event: Event, src: Source)
    requires y.net.Wired() && Safe(conf, y)
    requires HandleEvent(conf, y, event, src).Some?
    ensures Safe(conf, HandleEvent(conf, y, event, src).value)
  {
    hide HandleEvent, OwnedOnce, LogFits, Invariant, Agrees, DriftFits, Staged, Sided, Paced, NeverRestarted;
    var z := HandleEvent(conf, y, event, src).value;
    HandleOwns(conf, y, event, src, 0);
    HandleDrifts(conf, y, event, src);
    HandleStages(conf, y, event, src);
    HandleSides(conf, y, event, src);
    forall c: ConnId ensures OwnedOnce(z, c) && LogFits(z.s, z.ch, z.installed, c) {
      HandleOwns(conf, y, event, src, c);
    }
    forall kind: TimerKind ensures Agrees(z, kind) <==> !(kind == DelayOpenTimer && z.drift) {
      HandleTimes(conf, y, event, src, kind);
    }
  }

  // ---------------------------------------------------------------- the other steps

  lemma ReadingSafe(conf: Conf, y: System, c: ConnId, isOpen: bool)
    requires y.net.Wired() && Safe(conf, y) && c in y.ch.opening
    ensures Safe(conf, FinishReading(y, c, isOpen))
  {
    hide Invariant, Outlook, Grammar, Headed, Talking, Unopened, Stage, NeverRestarted;
    var z := FinishReading(y, c, isOpen);
    forall b: ConnId ensures OwnedOnce(z, b) && LogFits(z.s, z.ch, z.installed, b) {
      assert OwnedOnce(y, b) && LogFits(y.s, y.ch, y.installed, b);
    }
    forall kind: TimerKind ensures Agrees(z, kind) <==> !(kind == DelayOpenTimer && z.drift) {
      assert Agrees(y, kind) <==> !(kind == DelayOpenTimer && y.drift);
    }
  }

  /** A step of the timer tasks changes no outlook, so the rest is as it was. */
  lemma NetSafe(conf: Conf, y: System, ts: seq<Timer>, n: Net)
    requires y.net.Wired() && Safe(conf, y) && n.Wired()
    requires forall kind: TimerKind :: Outlook(n, ts, kind) == Outlook(y.net, y.ch.timers, kind)
    requires NeverRestarted(ts, DelayOpenTimer)
    ensures Safe(conf, y.(ch := y.ch.(timers := ts), net := n))
  {
    hide Invariant, Outlook, Grammar, Headed, Talking, Unopened, Stage, NeverRestarted;
    var z := y.(ch := y.ch.(timers := ts), net := n);
    forall b: ConnId ensures OwnedOnce(z, b) && LogFits(z.s, z.ch, z.installed, b) {
      assert OwnedOnce(y, b) && LogFits(y.s, y.ch, y.installed, b);
    }
    forall kind: TimerKind ensures Agrees(z, kind) <==> !(kind == DelayOpenTimer && z.drift) {
      assert Agrees(y, kind) <==> !(kind == DelayOpenTimer && y.drift);
    }
  }

  lemma NetStepSafe(conf: Conf, y: System, l: Label)
    requires y.net.Wired() && Safe(conf, y)
    requires !l.Handle? && !l.OpenRead? && Move(conf, y, l).Some?
    ensures Safe(conf, Move(conf, y, l).value)
  {
    hide Safe, HandleEvent, Outlook, Accept, Route, Obey, Expire, Ring;
    var z := Move(conf, y, l).value;
    var ts := y.ch.timers;
    forall kind: TimerKind ensures Outlook(z.net, z.ch.timers, kind) == Outlook(y.net, ts, kind) {
      match l
      case Send => AcceptKeepsOutlook(y.net, ts, kind);
      case Forward => RouteKeepsOutlook(y.net, ts, kind);
      case Carryout(which) => ObeyKeepsOutlook(y.net, ts, which, kind);
      case TimeOut(which) => ExpireKeepsOutlook(y.net, ts, which, kind);
      case Report(which) => RingKeepsOutlook(y.net, ts, which, kind);
    }
    assert y.ch.(timers := ts) == y.ch;
    SafeNeverRestarts(conf, y);
    NetSafe(conf, y, z.ch.timers, z.net);
  }

  lemma SafeNeverRestarts(conf: Conf, y: System)
    requires y.net.Wired() && Safe(conf, y)
    ensures NeverRestarted(y.ch.timers, DelayOpenTimer)
    ensures y.ch.timers != [] ==> NeverRestarted(y.ch.timers[1..], DelayOpenTimer)
  {
  }

  lemma StepSafe(conf: Conf, y: System, l: Label)
    requires y.net.Wired() && Safe(conf, y) && Move(conf, y, l).Some?
    ensures Safe(conf, Move(conf, y, l).value)
  {
    hide Safe, HandleEvent, FinishReading;
    match l
    case Handle(e, src) => HandleSafe(conf, y, e, src);
    case OpenRead(c, isOpen) => ReadingSafe(conf, y, c, isOpen);
    case Send => NetStepSafe(conf, y, l);
    case Forward => NetStepSafe(conf, y, l);
    case Carryout(_) => NetStepSafe(conf, y, l);
    case TimeOut(_) => NetStepSafe(conf, y, l);
    case Report(_) => NetStepSafe(conf, y, l);
  }

  lemma StartSafe(conf: Conf, opts: Options)
    ensures Safe(conf, Start(opts))
  {
    var y := Start(opts);
    forall kind: TimerKind ensures Agrees(y, kind) {
      assert Outlook(y.net, [], kind) == Carry(Fold(FAR_FUTURE, []), [] + [], kind) == FAR_FUTURE;
    }
  }

  lemma StepKeepsOptions(conf: Conf, y: System, l: Label)
    requires y.net.Wired() && Safe(conf, y) && Move(conf, y, l).Some?
    ensures Move(conf, y, l).value.s.attr.opts == y.s.attr.opts
  {
    hide Safe, HandleEvent;
    match l
    case Handle(e, src) => HandleOwns(conf, y, e, src, 0);
    case _ =>
  }

  lemma {:induction false} RunSafe(conf: Conf, opts: Options, ys: seq<System>, ls: seq<Label>)
    requires RunOf(conf, opts, ys, ls)
    ensures Safe(conf, ys[|ls|])
    ensures ys[|ls|].s.attr.opts == opts
    decreases |ls|
  {
    hide Safe, Move;
    if ls == [] {
      StartSafe(conf, opts);
    } else {
      LeadsFront(conf, ys, ls);
      RunSafe(conf, opts, ys[..|ls|], ls[..|ls| - 1]);
      StepSafe(conf, ys[|ls| - 1], ls[|ls| - 1]);
      StepKeepsOptions(conf, ys[|ls| - 1], ls[|ls| - 1]);
    }
  }

  /** Every system that a run leads to is safe. */
  lemma ReachableSafe(conf: Conf, opts: Options, y: System)
    requires Reachable(conf, opts, y)
    ensures Safe(conf, y)
    ensures y.s.attr.opts == opts
  {
    hide Safe, Move;
    var ys, ls :| RunOf(conf, opts, ys, ls) && ys[|ls|] == y;
    RunSafe(conf, opts, ys, ls);
  }
}
