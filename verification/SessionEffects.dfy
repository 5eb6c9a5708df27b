/** What one arm does to the connections, to what was said on them, and to the timers; and exactly
    when it panics. */
module SessionEffects {
  import opened Basics
  import opened Message
  import opened Fsm
  import opened Session
  import opened SessionInvariant

  // ---------------------------------------------------------------- where a connection is

  function Count(b: bool): nat {
    if b then 1 else 0
  }

  /** In how many places connection `c` is: current, kept for collision detection, being read for
      its OPEN, or closed. */
  function Places(s: State, ch: Channels, c: ConnId): nat {
    Count(s.out == Some(c)) + Count(s.collision == Some(c)) + Count(c in ch.opening) + Count(c in ch.closed)
  }

  /** An arm moves connections about and takes in the one its event carries; it loses none. */
  predicate Conserves(s: State, e: Event, ch: Channels, r: Step, c: ConnId) {
    r.Next? ==> Places(r.state, r.ch, c) == Places(s, ch, c) + Count(c in Carried(e))
  }

  // ---------------------------------------------------------------- what was said on a connection

  /** At most one OPEN, first; then KEEPALIVEs; at most one NOTIFICATION, last. */
  predicate Grammar(l: seq<Message>) {
    forall i | 0 <= i < |l| ::
      && !l[i].Update?
      && (l[i].Open? ==> i == 0)
      && (l[i].Notification? ==> i == |l| - 1)
  }

  predicate Talking(l: seq<Message>) {
    forall i | 0 <= i < |l| :: !l[i].Notification?
  }

  /** A KEEPALIVE has an OPEN before it. */
  predicate Headed(l: seq<Message>) {
    forall i | 0 <= i < |l| :: l[i].Keepalive? ==> l[0].Open?
  }

  predicate Unopened(l: seq<Message>) {
    forall i | 0 <= i < |l| :: !l[i].Open?
  }

  /** `installed` are the connections that collision detection put in another's place: no OPEN was ever
      put on one, and such a connection is in hand in OpenConfirm and Established only. */
  predicate LogFits(s: State, ch: Channels, installed: set<ConnId>, c: ConnId) {
    var l := ch.LogOf(c);
    && Grammar(l)
    && (c !in installed ==> Headed(l))
    && (c in installed ==> Unopened(l) && (c in ch.closed || (s.out == Some(c) && Confirmed(s))))
    && (s.out != Some(c) && c !in ch.closed ==> l == [])
    && (s.out == Some(c) ==>
          match s.phase
          case Idle => false
          case Connect => l == []
          case Active => l == []
          case OpenSent => |l| == 1 && l[0].Open?
          case _ => Talking(l) && (c !in installed ==> l != [] && l[0].Open?))
  }

  /** The connection an arm put in the place of another by collision detection. */
  function Installed(s: State, r: Step): set<ConnId> {
    if r.Next? && s.Colliding() && r.state.out != s.out then Only(r.state.out) else {}
  }

  /** What is known about where connection `c` is before an arm. */
  predicate Apart(s: State, e: Event, ch: Channels, c: ConnId) {
    Places(s, ch, c) + Count(c in Carried(e)) <= 1
  }

  // ---------------------------------------------------------------- panics

  /** Exactly the events that make a session panic, by what can be seen before handling them. */
  predicate Fatal(s: State, e: Event, src: Source) {
    match s.phase
    case Idle => false
    case Connect => FatalInConnect(s, e)
    case Active => FatalInActive(s, e)
    case OpenSent => FatalInOpenSent(s, e, src)
    case OpenConfirm =>
      e.BgpOpen? && (s.remoteSyn == e.remoteSyn || LosesWithoutRival(s, e.msg))
    case Established =>
      && e.BgpOpen?
      && (s.remoteSyn == e.remoteSyn || (s.attr.opts.collisionDetectEstablished && LosesWithoutRival(s, e.msg)))
  }

  predicate FatalInConnect(s: State, e: Event) {
    match e
    case DelayOpenExpires => true
    case BgpOpenDelayed(_, _) => s.out.None?
    case BgpHeaderErr(_) => s.attr.opts.notifyWithoutOpen && s.out.None?
    case BgpOpenMsgErr(_) => s.attr.opts.notifyWithoutOpen && s.out.None?
    case _ => false
  }

  predicate FatalInActive(s: State, e: Event) {
    match e
    case DelayOpenExpires => s.out.None?
    case BgpOpenDelayed(_, _) => s.out.None?
    case BgpHeaderErr(_) => s.attr.opts.notifyWithoutOpen && s.out.None?
    case BgpOpenMsgErr(_) => s.attr.opts.notifyWithoutOpen && s.out.None?
    case ManualStop => s.attr.curHold != FAR_FUTURE && s.attr.opts.notifyWithoutOpen && s.out.None?
    case _ => false
  }

  predicate FatalInOpenSent(s: State, e: Event, src: Source) {
    match e
    case BgpOpen(msg, remoteSyn) => s.localOpen.None? || (s.remoteSyn != remoteSyn && LosesWithoutRival(s, msg))
    case TcpConnectionValid | TcpCRInvalid | TcpConnectionFails | NotifyMsgVerErr => false
    case TcpCRAcked(_) => false
    case TcpConnectionConfirmed(_) => false
    case ProcessOneDone(_) => false
    case BgpHeaderErr(_) => src == FromBgp && s.out.None?
    case BgpOpenMsgErr(_) => src == FromBgp && s.out.None?
    case _ => !StartEvent(e) && s.out.None?
  }

  /** The peer's identifier is larger and there is no second connection to change to. */
  predicate LosesWithoutRival(s: State, msg: OpenMsg) {
    s.localOpen.Some? && Below(s.localOpen.value.bgpIdentifier, msg.bgpIdentifier) && s.collision.None?
  }

  lemma ConnectStuck(conf: Conf, s: State, e: Event, src: Source, ch: Channels)
    requires s.phase.Connect? && Paired(s) && Context(conf, s)
    ensures StepConnect(conf, s, e, ch).Stuck? <==> Fatal(s, e, src)
  {
    hide Negotiated, KeepaliveFor, Below, IntoIdle, Attach, StartTimers, NoteOf, NoteFrom;
  }

  lemma ActiveStuck(conf: Conf, s: State, e: Event, src: Source, ch: Channels)
    requires s.phase.Active? && Paired(s) && Context(conf, s)
    ensures StepActive(conf, s, e, ch).Stuck? <==> Fatal(s, e, src)
  {
    hide Negotiated, KeepaliveFor, Below, IntoIdle, Attach, StartTimers, NoteOf, NoteFrom;
  }

  lemma OpenSentStuck(conf: Conf, s: State, e: Event, src: Source, ch: Channels)
    requires s.phase.OpenSent? && Paired(s) && Context(conf, s)
    ensures StepOpenSent(conf, s, e, src, ch).Stuck? <==> Fatal(s, e, src)
  {
    hide Negotiated, KeepaliveFor, Below, IntoIdle, Attach, StartTimers, NoteOf, NoteFrom;
  }

  lemma OpenConfirmStuck(conf: Conf, s: State, e: Event, src: Source, ch: Channels)
    requires s.phase.OpenConfirm? && Paired(s) && Context(conf, s)
    ensures StepOpenConfirm(s, e, src, ch).Stuck? <==> Fatal(s, e, src)
  {
    hide Negotiated, KeepaliveFor, Below, IntoIdle, Attach, StartTimers, NoteOf, NoteFrom;
  }

  lemma EstablishedStuck(conf: Conf, s: State, e: Event, src: Source, ch: Channels)
    requires s.phase.Established? && Paired(s) && Context(conf, s)
    ensures StepEstablished(s, e, ch).Stuck? <==> Fatal(s, e, src)
  {
    hide Negotiated, KeepaliveFor, Below, IntoIdle, Attach, StartTimers, NoteOf, NoteFrom;
  }

  /** A session panics exactly on the events that `Fatal` names. */
  lemma StuckExactlyWhenFatal(conf: Conf, s: State, e: Event, src: Source, ch: Channels)
    requires Invariant(conf, s)
    ensures React(conf, s, e, src, ch).Stuck? <==> Fatal(s, e, src)
  {
    hide StepConnect, StepActive, StepOpenSent, StepOpenConfirm, StepEstablished;
    hide FatalInConnect, FatalInActive, FatalInOpenSent;
    match s.phase
    case Idle =>
    case Connect => ConnectStuck(conf, s, e, src, ch);
    case Active => ActiveStuck(conf, s, e, src, ch);
    case OpenSent => OpenSentStuck(conf, s, e, src, ch);
    case OpenConfirm => OpenConfirmStuck(conf, s, e, src, ch);
    case Established => EstablishedStuck(conf, s, e, src, ch);
  }

  // ---------------------------------------------------------------- timers

  function Obeyed(d: Duration, op: Operation): Duration {
    match op
    case Stop => FAR_FUTURE
    case Restart => d
    case Reset(d') => d'
  }

  function ObeyedBy(d: Duration, t: Timer, kind: TimerKind): Duration {
    if t.kind == kind then Obeyed(d, t.op) else d
  }

  /** What duration `d` of the timer `kind` becomes when the commands are carried out in order. */
  function Carry(d: Duration, ts: seq<Timer>, kind: TimerKind): Duration
    decreases |ts|
  {
    if ts == [] then d else ObeyedBy(Carry(d, ts[..|ts| - 1], kind), ts[|ts| - 1], kind)
  }

  lemma CarryLast(d: Duration, ts: seq<Timer>, t: Timer, kind: TimerKind)
    ensures Carry(d, ts + [t], kind) == ObeyedBy(Carry(d, ts, kind), t, kind)
  {
    assert (ts + [t])[..|ts|] == ts;
  }

  /** One more command on the channel, for every channel. */
  lemma CommandCarries(d: Duration, kind: TimerKind)
    ensures forall ch: Channels, k, op {:trigger ch.Command(k, op).timers} ::
      Carry(d, ch.Command(k, op).timers, kind) == ObeyedBy(Carry(d, ch.timers, kind), Timer(k, op), kind)
  {
    forall ch: Channels, k, op
      ensures Carry(d, ch.Command(k, op).timers, kind) == ObeyedBy(Carry(d, ch.timers, kind), Timer(k, op), kind)
    {
      CarryLast(d, ch.timers, Timer(k, op), kind);
    }
  }

  /** The session's own record of how long a timer is set for. */
  function Current(a: Attr, kind: TimerKind): Duration {
    match kind
    case ConnectRetryTimer => a.curConnectRetry
    case HoldTimer => a.curHold
    case KeepaliveTimer => a.curKeepalive
    case DelayOpenTimer => a.curDelayOpen
    case IdleHoldTimer => FAR_FUTURE
  }

  /** The one arm that sets the delay-open timer and not the session's record of it. */
  predicate Drifts(s: State, e: Event) {
    && s.phase.Connect? && e.TcpConnectionConfirmed? && s.attr.opts.delayOpen
    && s.attr.curDelayOpen != s.attr.opts.delayOpenTime
  }

  predicate Tracks(a: Attr, ch: Channels, d: Duration, kind: TimerKind) {
    Carry(d, ch.timers, kind) == Current(a, kind)
  }

  /** The commands of an arm turn each recorded duration into the new recorded one. */
  predicate Commands(s: State, e: Event, ch: Channels, r: Step, d: Duration, kind: TimerKind) {
    r.Next? && Tracks(s.attr, ch, d, kind) ==>
      (Tracks(r.state.attr, r.ch, d, kind) <==> !(kind == DelayOpenTimer && Drifts(s, e)))
  }

  // ---------------------------------------------------------------- all of it

  /** Whatever is asked about: a connection, with those installed by collision detection so far; and
      a timer, with the duration its task had before the commands on the channel. */
  datatype View = View(installed: set<ConnId>, c: ConnId, kind: TimerKind, d: Duration)

  predicate Before(conf: Conf, s: State, e: Event, ch: Channels, v: View) {
    Invariant(conf, s) && Apart(s, e, ch, v.c) && LogFits(s, ch, v.installed, v.c)
  }

  /** An arm keeps the invariant, conserves connections, keeps the logs in the grammar and commands
      the timers it records. */
  predicate Sound(conf: Conf, s: State, e: Event, ch: Channels, r: Step, v: View) {
    r.Next? ==>
      && Invariant(conf, r.state)
      && r.state.attr.opts == s.attr.opts
      && Conserves(s, e, ch, r, v.c)
      && LogFits(r.state, r.ch, v.installed + Installed(s, r), v.c)
      && Commands(s, e, ch, r, v.d, v.kind)
  }
}
