/** `timer_loop` of `src/session.rs`: a router task and one task per timer, joined by queues. */
module TimerLoop {
  import opened Fsm
  import opened SessionEffects

  const SLOTS: nat := 32

  /** A timer task: its queue, how long it waits, and whether it is blocked reporting an expiry. */
  datatype Ticker = Ticker(queue: seq<Operation>, dur: Duration, ringing: bool)

  /** The control channel, the timer tasks and the expiry channel. */
  datatype Net = Net(ctl: seq<Timer>, tickers: map<TimerKind, Ticker>, expired: seq<TimerKind>)
  {
    predicate Wired() {
      |ctl| <= SLOTS && |expired| <= SLOTS && forall k: TimerKind :: k in tickers
    }
  }

  /** Every timer starts out waiting for as good as ever. */
  function NewTicker(kind: TimerKind): Ticker {
    Ticker([], FAR_FUTURE, false)
  }

  function NewNet(): (n: Net)
    ensures n.Wired()
  {
    Net([], map k: TimerKind :: NewTicker(k), [])
  }

  // ---------------------------------------------------------------- steps of the tasks

  /** The session's next command gets a slot in the control channel. */
  function Accept(n: Net, t: Timer): (m: Net)
    requires n.Wired() && |n.ctl| < SLOTS
    ensures m.Wired()
  {
    n.(ctl := n.ctl + [t])
  }

  /** The router passes the oldest command on to the timer it is for. */
  function Route(n: Net): (m: Net)
    requires n.Wired() && n.ctl != []
    ensures m.Wired() && |m.ctl| < SLOTS
  {
    var t := n.ctl[0];
    var k := n.tickers[t.kind];
    n.(ctl := n.ctl[1..], tickers := n.tickers[t.kind := k.(queue := k.queue + [t.op])])
  }

  /** A timer task carries out the oldest operation in its queue. */
  function Obey(n: Net, kind: TimerKind): (m: Net)
    requires n.Wired() && n.tickers[kind].queue != []
    ensures m.Wired()
  {
    var k := n.tickers[kind];
    n.(tickers := n.tickers[kind := k.(queue := k.queue[1..], dur := Obeyed(k.dur, k.queue[0]))])
  }

  /** A timer task's wait runs out: it has an expiry to report, and does nothing else until it has. */
  function Expire(n: Net, kind: TimerKind): (m: Net)
    requires n.Wired()
    ensures m.Wired()
  {
    n.(tickers := n.tickers[kind := n.tickers[kind].(ringing := true)])
  }

  /** The expiry gets a slot in the channel to the session. */
  function Ring(n: Net, kind: TimerKind): (m: Net)
    requires n.Wired() && |n.expired| < SLOTS
    ensures m.Wired()
  {
    n.(tickers := n.tickers[kind := n.tickers[kind].(ringing := false)], expired := n.expired + [kind])
  }

  // ---------------------------------------------------------------- what is still to come

  /** What duration `d` becomes when the operations are carried out in order. */
  function Fold(d: Duration, ops: seq<Operation>): Duration
    decreases |ops|
  {
    if ops == [] then d else Obeyed(Fold(d, ops[..|ops| - 1]), ops[|ops| - 1])
  }

  /** The duration a timer is heading for: its own, changed by its queue, then by the commands of its
      kind in the control channel, then by those the session has yet to send. */
  function Outlook(n: Net, pending: seq<Timer>, kind: TimerKind): Duration
    requires n.Wired()
  {
    Carry(Fold(n.tickers[kind].dur, n.tickers[kind].queue), n.ctl + pending, kind)
  }

  lemma FoldLast(d: Duration, ops: seq<Operation>, op: Operation)
    ensures Fold(d, ops + [op]) == Obeyed(Fold(d, ops), op)
  {
    assert (ops + [op])[..|ops|] == ops;
  }

  lemma {:induction false} FoldFirst(d: Duration, ops: seq<Operation>)
    requires ops != []
    ensures Fold(d, ops) == Fold(Obeyed(d, ops[0]), ops[1..])
    decreases |ops|
  {
    if |ops| > 1 {
      FoldFirst(d, ops[..|ops| - 1]);
      assert ops[..|ops| - 1][1..] == ops[1..][..|ops| - 2];
    } else {
      assert ops[..0] == [];
    }
  }

  lemma {:induction false} CarryConcat(d: Duration, ts: seq<Timer>, us: seq<Timer>, kind: TimerKind)
    ensures Carry(d, ts + us, kind) == Carry(Carry(d, ts, kind), us, kind)
    decreases |us|
  {
    if us == [] {
      assert ts + us == ts;
    } else {
      CarryConcat(d, ts, us[..|us| - 1], kind);
      assert (ts + us)[..|ts + us| - 1] == ts + us[..|us| - 1];
    }
  }

  lemma CarryFirst(d: Duration, t: Timer, ts: seq<Timer>, kind: TimerKind)
    ensures Carry(d, [t] + ts, kind) == Carry(ObeyedBy(d, t, kind), ts, kind)
  {
    CarryConcat(d, [t], ts, kind);
    assert [t][..0] == [];
  }

  // ---------------------------------------------------------------- no step changes the outlook

  lemma AcceptKeepsOutlook(n: Net, pending: seq<Timer>, kind: TimerKind)
    requires n.Wired() && pending != [] && |n.ctl| < SLOTS
    ensures Outlook(Accept(n, pending[0]), pending[1..], kind) == Outlook(n, pending, kind)
  {
    assert n.ctl + [pending[0]] + pending[1..] == n.ctl + pending;
  }

  lemma RouteKeepsOutlook(n: Net, pending: seq<Timer>, kind: TimerKind)
    requires n.Wired() && n.ctl != []
    ensures Outlook(Route(n), pending, kind) == Outlook(n, pending, kind)
  {
    hide Carry, Fold;
    var k := n.tickers[kind];
    assert n.ctl + pending == [n.ctl[0]] + (n.ctl[1..] + pending);
    CarryFirst(Fold(k.dur, k.queue), n.ctl[0], n.ctl[1..] + pending, kind);
    FoldLast(k.dur, k.queue, n.ctl[0].op);
  }

  lemma ObeyKeepsOutlook(n: Net, pending: seq<Timer>, which: TimerKind, kind: TimerKind)
    requires n.Wired() && n.tickers[which].queue != []
    ensures Outlook(Obey(n, which), pending, kind) == Outlook(n, pending, kind)
  {
    hide Carry, Fold;
    FoldFirst(n.tickers[which].dur, n.tickers[which].queue);
  }

  lemma ExpireKeepsOutlook(n: Net, pending: seq<Timer>, which: TimerKind, kind: TimerKind)
    requires n.Wired()
    ensures Outlook(Expire(n, which), pending, kind) == Outlook(n, pending, kind)
  {
    hide Carry, Fold;
  }

  lemma RingKeepsOutlook(n: Net, pending: seq<Timer>, which: TimerKind, kind: TimerKind)
    requires n.Wired() && |n.expired| < SLOTS
    ensures Outlook(Ring(n, which), pending, kind) == Outlook(n, pending, kind)
  {
    hide Carry, Fold;
  }

  // ---------------------------------------------------------------- progress

  function Queued(n: Net): nat
    requires n.Wired()
  {
    |n.tickers[ConnectRetryTimer].queue| + |n.tickers[HoldTimer].queue| + |n.tickers[KeepaliveTimer].queue|
    + |n.tickers[DelayOpenTimer].queue| + |n.tickers[IdleHoldTimer].queue|
  }

  /** How many steps the commands that have been given are away from being carried out. */
  function Outstanding(n: Net, pending: seq<Timer>): nat
    requires n.Wired()
  {
    3 * |pending| + 2 * |n.ctl| + Queued(n)
  }

  lemma AcceptProgresses(n: Net, pending: seq<Timer>)
    requires n.Wired() && pending != [] && |n.ctl| < SLOTS
    ensures Outstanding(Accept(n, pending[0]), pending[1..]) == Outstanding(n, pending) - 1
  {
  }

  lemma QueuedWith(n: Net, kind: TimerKind, t: Ticker)
    requires n.Wired()
    ensures var m := n.(tickers := n.tickers[kind := t]);
      m.Wired() && Queued(m) == Queued(n) - |n.tickers[kind].queue| + |t.queue|
  {
    match kind
    case ConnectRetryTimer =>
    case HoldTimer =>
    case KeepaliveTimer =>
    case DelayOpenTimer =>
    case IdleHoldTimer =>
  }

  lemma RouteProgresses(n: Net, pending: seq<Timer>)
    requires n.Wired() && n.ctl != []
    ensures Outstanding(Route(n), pending) == Outstanding(n, pending) - 1
  {
    var t := n.ctl[0];
    var k := n.tickers[t.kind];
    QueuedWith(n, t.kind, k.(queue := k.queue + [t.op]));
  }

  lemma ObeyProgresses(n: Net, pending: seq<Timer>, kind: TimerKind)
    requires n.Wired() && n.tickers[kind].queue != []
    ensures Outstanding(Obey(n, kind), pending) == Outstanding(n, pending) - 1
  {
    var k := n.tickers[kind];
    QueuedWith(n, kind, k.(queue := k.queue[1..], dur := Obeyed(k.dur, k.queue[0])));
  }

  /** Nothing outstanding means that every timer waits as long as it was heading to. */
  lemma NothingOutstanding(n: Net, pending: seq<Timer>, kind: TimerKind)
    requires n.Wired()
    requires Outstanding(n, pending) == 0
    ensures n.tickers[kind].dur == Outlook(n, pending, kind)
  {
    assert n.ctl + pending == [];
    var k := n.tickers[kind];
    assert |k.queue| <= Queued(n);
    assert Fold(k.dur, k.queue) == k.dur;
    assert Carry(k.dur, n.ctl + pending, kind) == k.dur;
  }

  /** Something outstanding means that a task which is not busy reporting has something to do. */
  lemma SomethingOutstanding(n: Net, pending: seq<Timer>) returns (kind: TimerKind)
    requires n.Wired()
    requires Outstanding(n, pending) > 0
    ensures pending != [] || n.ctl != [] || n.tickers[kind].queue != []
  {
    if n.tickers[ConnectRetryTimer].queue != [] {
      kind := ConnectRetryTimer;
    } else if n.tickers[HoldTimer].queue != [] {
      kind := HoldTimer;
    } else if n.tickers[KeepaliveTimer].queue != [] {
      kind := KeepaliveTimer;
    } else if n.tickers[DelayOpenTimer].queue != [] {
      kind := DelayOpenTimer;
    } else {
      kind := IdleHoldTimer;
    }
  }

  // ---------------------------------------------------------------- the tasks themselves

  /** The operations among the commands that are for one timer. */
  function OpsFor(ts: seq<Timer>, kind: TimerKind): seq<Operation>
    decreases |ts|
  {
    if ts == [] then []
    else OpsFor(ts[..|ts| - 1], kind) + (if ts[|ts| - 1].kind == kind then [ts[|ts| - 1].op] else [])
  }

  lemma OpsForLast(ts: seq<Timer>, t: Timer, kind: TimerKind)
    ensures OpsFor(ts + [t], kind) == OpsFor(ts, kind) + (if t.kind == kind then [t.op] else [])
  {
    assert (ts + [t])[..|ts|] == ts;
  }

  /** Splitting the commands by timer loses nothing that a timer needs. */
  lemma {:induction false} RoutingIsCarrying(d: Duration, queue: seq<Operation>, ts: seq<Timer>, kind: TimerKind)
    ensures Fold(d, queue + OpsFor(ts, kind)) == Carry(Fold(d, queue), ts, kind)
    decreases |ts|
  {
    if ts == [] {
      assert queue + OpsFor(ts, kind) == queue;
    } else {
      var front, last := ts[..|ts| - 1], ts[|ts| - 1];
      RoutingIsCarrying(d, queue, front, kind);
      if last.kind == kind {
        assert queue + OpsFor(ts, kind) == queue + OpsFor(front, kind) + [last.op];
        FoldLast(d, queue + OpsFor(front, kind), last.op);
      } else {
        assert OpsFor(ts, kind) == OpsFor(front, kind);
      }
    }
  }

  /** The task of one timer. */
  class TimerTask {
    const kind: TimerKind
    var rx: seq<Operation>
    var dur: Duration

    constructor (kind: TimerKind)
      ensures this.kind == kind && rx == [] && dur == FAR_FUTURE
    {
      this.kind := kind;
      rx, dur := [], FAR_FUTURE;
    }

    /** One turn of the loop: an operation, or the wait running out first. */
    method Wait(timedOut: bool) returns (report: seq<TimerKind>)
      requires timedOut || rx != []
      modifies this
      ensures timedOut ==> report == [kind] && rx == old(rx) && dur == old(dur)
      ensures !timedOut ==> report == [] && rx == old(rx)[1..] && dur == Obeyed(old(dur), old(rx)[0])
    {
      if timedOut {
        return [kind];
      }
      report := [];
      var op := rx[0];
      rx := rx[1..];
      match op {
        case Stop => dur := FAR_FUTURE;
        case Restart =>
        case Reset(duration) => dur := duration;
      }
    }

    /** The loop, for as long as the wait does not run out. */
    method CatchUp()
      modifies this
      ensures rx == [] && dur == Fold(old(dur), old(rx))
    {
      while rx != []
        invariant Fold(dur, rx) == Fold(old(dur), old(rx))
        decreases |rx|
      {
        FoldFirst(dur, rx);
        var report := Wait(false);
      }
    }
  }

  /** The task that hands commands to the timer tasks. */
  class Router {
    var ctr: seq<Timer>
    var timers: map<TimerKind, seq<Operation>>

    ghost predicate Valid()
      reads this
    {
      forall k: TimerKind :: k in timers
    }

    /** The loop, until the control channel is empty: every queue gets the operations for its timer,
        in the order they were commanded. */
    method Forward()
      requires Valid()
      modifies this
      ensures Valid() && ctr == []
      ensures forall k: TimerKind :: timers[k] == old(timers)[k] + OpsFor(old(ctr), k)
    {
      ghost var done: seq<Timer> := [];
      while ctr != []
        invariant Valid() && done + ctr == old(ctr)
        invariant forall k: TimerKind :: timers[k] == old(timers)[k] + OpsFor(done, k)
        decreases |ctr|
      {
        var t := ctr[0];
        forall k: TimerKind
          ensures OpsFor(done + [t], k) == OpsFor(done, k) + (if t.kind == k then [t.op] else [])
        {
          OpsForLast(done, t, k);
        }
        done := done + [t];
        ctr := ctr[1..];
        timers := timers[t.kind := timers[t.kind] + [t.op]];
      }
      assert done + ctr == done;
    }
  }
}
