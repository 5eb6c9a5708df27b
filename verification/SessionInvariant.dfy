/** What every arm of the session keeps. */
module SessionInvariant {
  import opened Basics
  import opened Message
  import opened Fsm
  import opened Session

  /** The connection's task and its sender come and go together. */
  predicate Paired(s: State) {
    s.Bare() && s.conn == s.out && (s.phase.Active? ==> !s.dialing)
  }

  /** The OPENs of both sides are known. */
  predicate Confirmed(s: State) {
    s.phase.OpenConfirm? || s.phase.Established?
  }

  /** What a phase relies on being present; and the side that OpenSent has on record once the local
      OPEN is, whichever it is in truth. */
  predicate Context(conf: Conf, s: State) {
    && (s.localOpen.Some? ==> s.out.Some? && s.localOpen.value == LocalOpen(conf))
    && (Confirmed(s) ==> s.localOpen.Some? && s.peerOpen.Some?)
    && (s.phase.OpenSent? && s.localOpen.Some? ==> s.remoteSyn)
  }

  /** The retry counter is only ever seen above zero in Idle, and never above one. */
  predicate CounterSmall(s: State) {
    s.attr.counter <= if s.phase.Idle? then 1 else 0
  }

  /** No connect-retry or delay-open timer runs once an OPEN was sent. */
  predicate TimersByPhase(s: State) {
    && (s.Colliding() ==> s.attr.curConnectRetry == FAR_FUTURE && s.attr.curDelayOpen == FAR_FUTURE)
    && (!s.attr.opts.delayOpen ==> s.attr.curDelayOpen == FAR_FUTURE)
  }

  /** The hold time in force is the one negotiated by the two OPENs. */
  predicate Agreed(s: State) {
    Confirmed(s) ==>
      && s.localOpen.Some? && s.peerOpen.Some?
      && s.attr.holdTime == Negotiated(s.localOpen.value, s.peerOpen.value)
      && s.attr.curHold == s.attr.holdTime
      && s.attr.curKeepalive == s.attr.keepaliveTime
  }

  predicate Invariant(conf: Conf, s: State) {
    Paired(s) && Context(conf, s) && CounterSmall(s) && TimersByPhase(s) && Agreed(s)
  }

  function Smaller(a: uint16, b: uint16): uint16 {
    if a < b then a else b
  }

  /** FAR_FUTURE is more seconds than sixteen bits can say, so the arms for it never run. */
  lemma NegotiatedIsMinimum(local: OpenMsg, peer: OpenMsg)
    ensures Negotiated(local, peer) == Seconds(Smaller(local.holdTime, peer.holdTime)) < FAR_FUTURE
  {
  }
}
