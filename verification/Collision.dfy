/** Collision detection: which of two connections is kept, seen from one speaker and from both. */
module Collision {
  import opened Basics
  import opened Wire
  import opened Fsm
  import opened Session
  import opened SessionInvariant
  import opened SessionEffects
  import opened Run

  // ---------------------------------------------------------------- the order of identifiers

  /** The number an identifier is on the wire. */
  function Value(id: Octets4): uint32 {
    PairDigits(id[0], id[1]);
    PairDigits(id[2], id[3]);
    QuadDigits(Pair(id[0], id[1]), Pair(id[2], id[3]));
    Quad(Pair(id[0], id[1]), Pair(id[2], id[3]))
  }

  lemma ValueIsWritten(id: Octets4)
    ensures PutU32(Value(id)) == id
  {
    PairDigits(id[0], id[1]);
    PairDigits(id[2], id[3]);
    QuadDigits(Pair(id[0], id[1]), Pair(id[2], id[3]));
  }

  /** Comparing identifiers octet by octet is comparing 32-bit unsigned numbers. */
  lemma BelowIsUnsigned(a: Octets4, b: Octets4)
    ensures Below(a, b) <==> Value(a) < Value(b)
    ensures a == b <==> Value(a) == Value(b)
  {
    ValueIsWritten(a);
    ValueIsWritten(b);
  }

  // ---------------------------------------------------------------- one arm

  /** The larger of two identifiers. */
  function Larger(a: Octets4, b: Octets4): Octets4 {
    if Value(a) < Value(b) then b else a
  }

  /** The states and options in which an OPEN on a second connection is resolved by identifier. */
  predicate Resolves(s: State) {
    s.phase.OpenSent? || s.phase.OpenConfirm? || (s.phase.Established? && s.attr.opts.collisionDetectEstablished)
  }

  /** A peer's OPEN, with a second connection kept, from the other side than the one on record. */
  predicate Collides(conf: Conf, s: State, e: Event) {
    && Invariant(conf, s) && Resolves(s)
    && s.out.Some? && s.collision.Some? && s.out != s.collision
    && e.BgpOpen? && e.remoteSyn != s.remoteSyn
  }

  predicate Picks(conf: Conf, s: State, e: Event, ch: Channels, r: Step)
    requires e.BgpOpen?
  {
    r.Next? ==>
      && r.state.collision.None?
      && r.state.out == (if Below(conf.routerId, e.msg.bgpIdentifier) then s.collision else s.out)
      && r.ch.closed ==
           ch.closed + (if Below(conf.routerId, e.msg.bgpIdentifier) then Only(s.out) else Only(s.collision))
      && r.state.remoteSyn == s.remoteSyn
  }

  lemma PickedInOpenSent(conf: Conf, s: State, e: Event, ch: Channels)
    requires s.phase.OpenSent? && Collides(conf, s, e)
    ensures Picks(conf, s, e, ch, ConfirmOpen(conf, s, e.msg, e.remoteSyn, ch))
  {
    hide Below, Negotiated, NoteOf, StartTimers;
  }

  lemma PickedInOpenConfirm(conf: Conf, s: State, e: Event, ch: Channels)
    requires s.phase.OpenConfirm? && Collides(conf, s, e)
    ensures Picks(conf, s, e, ch, ResolveInOpenConfirm(s, e.msg, e.remoteSyn, ch))
  {
    hide Below, Negotiated, NoteOf;
  }

  lemma PickedInEstablished(conf: Conf, s: State, e: Event, ch: Channels)
    requires s.phase.Established? && Collides(conf, s, e)
    ensures Picks(conf, s, e, ch, ResolveInEstablished(s, e.msg, e.remoteSyn, ch))
  {
    hide Below, Negotiated, NoteOf;
  }

  /** A collision step picks one of the two connections by the identifiers and closes the other. */
  lemma PickedConnection(conf: Conf, s: State, e: Event, src: Source, ch: Channels)
    requires Collides(conf, s, e)
    ensures Picks(conf, s, e, ch, React(conf, s, e, src, ch))
  {
    hide Picks, Invariant, ConfirmOpen, ResolveInOpenConfirm, ResolveInEstablished;
    match s.phase
    case OpenSent => PickedInOpenSent(conf, s, e, ch);
    case OpenConfirm => PickedInOpenConfirm(conf, s, e, ch);
    case Established => PickedInEstablished(conf, s, e, ch);
    case _ =>
  }

  /** With a second connection kept, a collision panics only where the local OPEN was never recorded,
      and so never in OpenConfirm or Established. */
  lemma CollisionHandled(conf: Conf, s: State, e: Event, src: Source, ch: Channels)
    requires Collides(conf, s, e)
    ensures React(conf, s, e, src, ch).Next? <==> s.localOpen.Some?
    ensures Confirmed(s) ==> s.localOpen.Some?
  {
    hide React;
    StuckExactlyWhenFatal(conf, s, e, src, ch);
  }

  lemma ServedByTakeover(conf: Conf, s: State, e: Event, src: Source, ch: Channels)
    requires Collides(conf, s, e) && s.localOpen.Some?
    requires Below(conf.routerId, e.msg.bgpIdentifier)
    ensures var r := React(conf, s, e, src, ch);
      r.Next? && r.ch.tasks == ch.tasks + [Serve(s.collision.value, e.remoteSyn)]
  {
    hide Below, Negotiated, NoteOf, StartTimers;
  }

  /** After a takeover the session serves a connection of one side, and its state still says the other
      side. */
  lemma TakeoverKeepsSide(conf: Conf, s: State, e: Event, src: Source, ch: Channels)
    requires Collides(conf, s, e) && s.localOpen.Some?
    requires Value(conf.routerId) < Value(e.msg.bgpIdentifier)
    ensures var r := React(conf, s, e, src, ch);
      && r.Next?
      && r.ch.tasks == ch.tasks + [Serve(s.collision.value, e.remoteSyn)]
      && r.state.out == s.collision && r.state.remoteSyn != e.remoteSyn
  {
    hide React, Below, Value, Invariant;
    BelowIsUnsigned(conf.routerId, e.msg.bgpIdentifier);
    PickedConnection(conf, s, e, src, ch);
    ServedByTakeover(conf, s, e, src, ch);
  }

  /** An OPEN of the side on record is no collision in OpenSent, whatever is kept, and fatal later. */
  lemma SameSideIgnored(conf: Conf, s: State, e: Event, src: Source, ch: Channels)
    requires Invariant(conf, s) && s.Colliding() && e.BgpOpen? && e.remoteSyn == s.remoteSyn
    ensures var r := React(conf, s, e, src, ch);
      && (r.Next? <==> s.phase.OpenSent? && s.localOpen.Some?)
      && (r.Next? ==> r.state.out == s.out && r.state.collision == s.collision && r.ch.closed == ch.closed)
  {
    hide Below, Negotiated, NoteOf, StartTimers;
  }

  /** Without the option an OPEN of the other side never moves Established to a second connection. */
  lemma EstablishedStays(conf: Conf, s: State, e: Event, src: Source, ch: Channels)
    requires Invariant(conf, s) && s.phase.Established? && e.BgpOpen? && e.remoteSyn != s.remoteSyn
    requires !s.attr.opts.collisionDetectEstablished
    ensures var r := React(conf, s, e, src, ch);
      r.Next? && r.state.out == s.out && r.state.collision.None? && r.ch.closed == ch.closed + Only(s.collision)
  {
    hide Below, NoteOf;
  }

  // ---------------------------------------------------------------- whose connection it is

  /** The side on record is the one that the connection in hand really came from. */
  predicate Truthful(y: System) {
    y.s.out.Some? ==> (y.s.remoteSyn <==> y.s.out.value !in y.own)
  }

  /** When the record of the side tells the truth. Where the OPEN was sent at once it does; in any other
      OpenSent it says that the peer initiated the connection, and later that the peer did unless the
      session came from Connect: it then tells the truth exactly when the speaker's own connection is in
      hand after Connect, or the peer's after Active. */
  lemma SideOnRecord(conf: Conf, opts: Options, y: System)
    requires Reachable(conf, opts, y) && y.s.Colliding() && y.s.out.Some?
    ensures y.s.localOpen.None? ==> Truthful(y)
    ensures y.s.localOpen.Some? && y.s.phase.OpenSent? ==> y.s.remoteSyn && !y.viaConnect
    ensures y.s.localOpen.Some? ==> (Truthful(y) <==> (y.s.out.value in y.own <==> y.viaConnect))
  {
    ReachableSafe(conf, opts, y);
  }

  /** The two connections of a session were initiated by different speakers, and the peer's OPEN comes on
      the second one: it is then marked with that one's side. */
  predicate Rivals(y: System, e: Event) {
    && y.s.Colliding()
    && y.s.out.Some? && y.s.collision.Some?
    && (y.s.collision.value in y.own <==> y.s.out.value !in y.own)
    && e.BgpOpen? && (e.remoteSyn <==> y.s.collision.value !in y.own)
  }

  /** The speaker that initiated connection `c`. */
  function Initiator(conf: Conf, y: System, e: Event, c: ConnId): Octets4
    requires e.BgpOpen?
  {
    if c in y.own then conf.routerId else e.msg.bgpIdentifier
  }

  /** The local OPEN was recorded, and beyond OpenSent the record of the side is true. */
  predicate Ready(y: System) {
    y.s.localOpen.Some? && (y.s.phase.OpenSent? || Truthful(y))
  }

  /** An OPEN on the second connection is handled in OpenSent, if the local OPEN was recorded, and
      elsewhere exactly where the record of the side is true. */
  lemma RivalHandled(conf: Conf, opts: Options, y: System, e: Event, src: Source)
    requires Reachable(conf, opts, y) && Rivals(y, e)
    ensures React(conf, y.s, e, src, y.ch).Next? <==> Ready(y)
  {
    hide React;
    ReachableSafe(conf, opts, y);
    SideOnRecord(conf, opts, y);
    RivalHandledIn(conf, y, e, src);
  }

  lemma RivalHandledIn(conf: Conf, y: System, e: Event, src: Source)
    requires y.net.Wired() && Safe(conf, y) && Rivals(y, e)
    ensures React(conf, y.s, e, src, y.ch).Next? <==> Ready(y)
  {
    hide React, Invariant, Below;
    assert OwnedOnce(y, y.s.out.value);
    SafeColliding(conf, y);
    if Truthful(y) {
      if Resolves(y.s) {
        CollisionHandled(conf, y.s, e, src, y.ch);
      } else {
        EstablishedStays(conf, y.s, e, src, y.ch);
      }
    } else {
      SameSideIgnored(conf, y.s, e, src, y.ch);
    }
  }

  lemma SafeColliding(conf: Conf, y: System)
    requires y.net.Wired() && Safe(conf, y) && y.s.Colliding()
    ensures Invariant(conf, y.s)
    ensures Confirmed(y.s) ==> y.s.localOpen.Some?
  {
  }

  /** Whether the speaker would give up its own connection for that of a peer with a larger identifier:
      where the record says that its own is in hand. It does not say so in OpenSent. */
  predicate Yields(y: System) {
    !y.s.remoteSyn && (y.s.phase.Established? ==> y.s.attr.opts.collisionDetectEstablished)
  }

  /** What a handled OPEN on the second connection leaves in hand. The speaker gives up its own connection
      only where it yields and the peer's identifier is larger. With the peer's in hand it goes by the
      identifiers the wrong way round, unless it resolves nothing. */
  lemma RivalResolved(conf: Conf, opts: Options, y: System, e: Event, src: Source)
    requires Reachable(conf, opts, y) && Rivals(y, e) && Ready(y)
    ensures var r := React(conf, y.s, e, src, y.ch);
      var smaller := Value(conf.routerId) < Value(e.msg.bgpIdentifier);
      var moves := smaller && (if y.s.out.value in y.own then Yields(y) else Resolves(y.s));
      && r.Next?
      && r.state.out == (if moves then y.s.collision else y.s.out)
      && (moves ==> y.s.out.value in r.ch.closed)
      && (!moves ==> y.s.collision.value in r.ch.closed || r.state.collision == y.s.collision)
  {
    hide React;
    ReachableSafe(conf, opts, y);
    SideOnRecord(conf, opts, y);
    RivalResolvedIn(conf, y, e, src);
  }

  lemma RivalResolvedIn(conf: Conf, y: System, e: Event, src: Source)
    requires y.net.Wired() && Safe(conf, y) && Rivals(y, e) && Ready(y)
    requires y.s.phase.OpenSent? ==> y.s.remoteSyn
    ensures var r := React(conf, y.s, e, src, y.ch);
      var smaller := Value(conf.routerId) < Value(e.msg.bgpIdentifier);
      var moves := smaller && (if y.s.out.value in y.own then Yields(y) else Resolves(y.s));
      && r.Next?
      && r.state.out == (if moves then y.s.collision else y.s.out)
      && (moves ==> y.s.out.value in r.ch.closed)
      && (!moves ==> y.s.collision.value in r.ch.closed || r.state.collision == y.s.collision)
  {
    hide React, Invariant, Below, Value;
    SafeColliding(conf, y);
    RivalHandledIn(conf, y, e, src);
    BelowIsUnsigned(conf.routerId, e.msg.bgpIdentifier);
    if e.remoteSyn == y.s.remoteSyn {
      SameSideIgnored(conf, y.s, e, src, y.ch);
    } else if Resolves(y.s) {
      PickedConnection(conf, y.s, e, src, y.ch);
    } else {
      EstablishedStays(conf, y.s, e, src, y.ch);
    }
  }

  /** Exactly when a handled OPEN on the second connection leaves the one that the larger identifier's
      speaker initiated, as section 6.8 of RFC 4271 asks. With the speaker's own connection in hand: where
      it yields, or has the larger identifier itself. With the peer's: never, where it goes by the
      identifiers; without the option for it in Established, where the peer's identifier is larger. */
  lemma LargerWins(conf: Conf, opts: Options, y: System, e: Event, src: Source)
    requires Reachable(conf, opts, y) && Rivals(y, e) && Ready(y)
    requires e.msg.bgpIdentifier != conf.routerId
    ensures var r := React(conf, y.s, e, src, y.ch);
      var largest := Value(e.msg.bgpIdentifier) < Value(conf.routerId);
      r.Next? && r.state.out.Some? &&
      (Initiator(conf, y, e, r.state.out.value) == Larger(conf.routerId, e.msg.bgpIdentifier) <==>
        if y.s.out.value in y.own then Yields(y) || largest else !Resolves(y.s) && !largest)
  {
    hide React, Value, Reachable;
    RivalResolved(conf, opts, y, e, src);
    BelowIsUnsigned(conf.routerId, e.msg.bgpIdentifier);
  }

  // ---------------------------------------------------------------- two speakers

  /** Two speakers with connection `x`, which the first initiated, and `y`, which the second did; each
      has its own in hand and the other's kept, and gets the other's OPEN on that one. */
  predicate Crossed(confA: Conf, a: System, ea: Event, confB: Conf, b: System, eb: Event, x: ConnId, y: ConnId) {
    && x in a.own && y !in a.own && y in b.own && x !in b.own
    && a.s.out == Some(x) && a.s.collision == Some(y)
    && b.s.out == Some(y) && b.s.collision == Some(x)
    && Rivals(a, ea) && ea.msg.bgpIdentifier == confB.routerId
    && Rivals(b, eb) && eb.msg.bgpIdentifier == confA.routerId
  }

  /** Two speakers that handle this end up with the same connection exactly when the one with the smaller
      identifier yields; it is then the larger one's, as section 6.8 of RFC 4271 asks, and both have closed
      or still keep apart the other. So they agree when both came to OpenConfirm from Connect; they do not
      when the smaller is in OpenSent, and never with equal identifiers. */
  lemma SpeakersAgree(
    confA: Conf, optsA: Options, a: System, ea: Event, srcA: Source,
    confB: Conf, optsB: Options, b: System, eb: Event, srcB: Source, x: ConnId, y: ConnId)
    requires Reachable(confA, optsA, a) && Reachable(confB, optsB, b)
    requires Crossed(confA, a, ea, confB, b, eb, x, y)
    requires Ready(a) && Ready(b)
    ensures var ra, rb := React(confA, a.s, ea, srcA, a.ch), React(confB, b.s, eb, srcB, b.ch);
      var idA, idB := Value(confA.routerId), Value(confB.routerId);
      && ra.Next? && rb.Next?
      && (ra.state.out == rb.state.out <==> (idA < idB && Yields(a)) || (idB < idA && Yields(b)))
      && (ra.state.out == rb.state.out ==>
            var kept, other := if idA < idB then y else x, if idA < idB then x else y;
            && ra.state.out == Some(kept)
            && (other in ra.ch.closed || ra.state.collision == Some(other))
            && (other in rb.ch.closed || rb.state.collision == Some(other)))
  {
    hide React, Value, Reachable;
    RivalResolved(confA, optsA, a, ea, srcA);
    RivalResolved(confB, optsB, b, eb, srcB);
  }

  /** In OpenSent both keep their own, whatever the identifiers. */
  lemma OpenSentNeverAgrees(
    confA: Conf, optsA: Options, a: System, ea: Event, srcA: Source,
    confB: Conf, optsB: Options, b: System, eb: Event, srcB: Source, x: ConnId, y: ConnId)
    requires Reachable(confA, optsA, a) && Reachable(confB, optsB, b)
    requires Crossed(confA, a, ea, confB, b, eb, x, y)
    requires a.s.phase.OpenSent? && b.s.phase.OpenSent? && Ready(a) && Ready(b)
    ensures var ra, rb := React(confA, a.s, ea, srcA, a.ch), React(confB, b.s, eb, srcB, b.ch);
      ra.Next? && rb.Next? && ra.state.out == Some(x) && rb.state.out == Some(y)
  {
    hide React, Value, Reachable;
    SideOnRecord(confA, optsA, a);
    SideOnRecord(confB, optsB, b);
    RivalResolved(confA, optsA, a, ea, srcA);
    RivalResolved(confB, optsB, b, eb, srcB);
  }

  /** With equal identifiers each keeps its own, and no connection is left that both have in hand. */
  lemma EqualIdentifiersDisagree(
    confA: Conf, optsA: Options, a: System, ea: Event, srcA: Source,
    confB: Conf, optsB: Options, b: System, eb: Event, srcB: Source, x: ConnId, y: ConnId)
    requires Reachable(confA, optsA, a) && Reachable(confB, optsB, b)
    requires Crossed(confA, a, ea, confB, b, eb, x, y)
    requires Ready(a) && Ready(b)
    requires confA.routerId == confB.routerId
    ensures var ra := React(confA, a.s, ea, srcA, a.ch);
      ra.Next? && ra.state.out == Some(x) && (y in ra.ch.closed || ra.state.collision == Some(y))
    ensures var rb := React(confB, b.s, eb, srcB, b.ch);
      rb.Next? && rb.state.out == Some(y) && (x in rb.ch.closed || rb.state.collision == Some(x))
  {
    hide React, Value, Reachable;
    RivalResolved(confA, optsA, a, ea, srcA);
    RivalResolved(confB, optsB, b, eb, srcB);
  }
}
