/** The life of a multiplexed connection in the pool: the one copy the pool side keeps, and the only ways it goes. */
module PoolSharing {
  import opened Wrappers
  import opened IdleList
  import opened PoolState
  import opened PoolQueues
  import opened PoolOwnership
  import opened PoolLifecycle

  /** The pool side has the connection. */
  ghost predicate InPool(s: State, id: ConnId) {
    exists p :: PoolSide(p) && Holds(s, p, id)
  }

  ghost predicate InPoolOnce(s: State, id: ConnId) {
    exists p :: PoolSide(p) && Holds(s, p, id) && forall q :: PoolSide(q) && Holds(s, q, id) ==> q == p
  }

  /** The reasons for which a step may take the pool's copy away. */
  ghost predicate Unpools(s: State, e: Event, id: ConnId) {
    match e
    case NewCheckout(_, _) => Retires(s, {}, e, id)
    case EndDrop(c) => Holds(s, InField(c), id)
    case DropPool => exists key, i :: Holds(s, InIdle(key, i), id)
    case PollLoop(c, _) => Holds(s, InField(c), id) && !s.alive
    case _ => false
  }

  // ---------------------------------------------------------------------------------------------
  // The pool's copy stays in the pool
  // ---------------------------------------------------------------------------------------------

  lemma PushedIsInPool(s: State, key: Key, id: ConnId)
    requires Shareable(s.net, id)
    ensures InPool(Push(s, key, id), id)
  {
    var p := InIdle(key, |IdleOf(s.pool, key)|);
    PushSharedPlaces(s, key, id, p);
    assert PoolSide(p) && Holds(Push(s, key, id), p, id);
  }

  /** Registering a multiplexed connection with a living pool leaves a copy there. */
  lemma FinishedIsInPool(s: State, c: CheckoutId, id: ConnId)
    requires c in s.checkouts && s.checkouts[c].Attached() && s.alive && Shareable(s.net, id)
    ensures InPool(Finish(s, c, id), id)
  {
    PushedIsInPool(Complete(s, c, Pooled(id, true, s.checkouts[c].key, false)), s.checkouts[c].key, id);
  }

  lemma StartStays(s: State, key: Key, multiplex: bool, p: Place, id: ConnId)
    requires Consistent(s) && s.alive && PoolSide(p) && Holds(s, p, id)
    ensures InPool(StartCheckout(s, key, multiplex), id) || Retires(s, {}, NewCheckout(key, multiplex), id)
  {
    if p.InIdle? && p.key == key {
      IdleSurvives(s, key, multiplex, p.index, id);
      assert PoolSide(InIdle(key, p.index)) && PoolSide(InField(s.nextCheckout));
    } else {
      StartKeeps(s, key, multiplex, p, id);
    }
  }

  lemma FieldStays(s: State, c: CheckoutId, p: Place, id: ConnId)
    requires Consistent(s) && c in s.checkouts && s.checkouts[c].polling && s.checkouts[c].inner == Connected
    requires s.checkouts[c].connection.Some? && PoolSide(p) && Holds(s, p, id) && Shareable(s.net, id)
    requires s.alive || p != InField(c)
    ensures InPool(Finish(s, c, s.checkouts[c].connection.value), id)
  {
    if p == InField(c) {
      assert CheckoutOk(s, c);
      FinishedIsInPool(s, c, id);
    } else {
      FinishKeeps(s, s, c, s.checkouts[c].connection.value, p, id);
    }
  }

  lemma HandshakeStays(s: State, c: CheckoutId, reply: Reply, p: Place, id: ConnId)
    requires Consistent(s) && CanLoop(s, c, reply) && reply.Handshake? && PoolSide(p) && Holds(s, p, id)
    ensures InPool(LoopStep(s, c, reply), id)
  {
    assert CheckoutOk(s, c);
    var made := Made(s, reply.conn, reply.shareable, s.checkouts[c].key);
    assert Holds(made, p, id);
    FinishKeeps(made, s, c, reply.conn, p, id);
  }

  lemma TurnStays(s: State, c: CheckoutId, reply: Reply, p: Place, id: ConnId)
    requires c in s.checkouts && PoolSide(p) && Holds(s, p, id)
    ensures InPool(Turn(s, c, reply), id)
  {
    assert Holds(Turn(s, c, reply), p, id);
  }

  lemma LoopStays(s: State, c: CheckoutId, reply: Reply, p: Place, id: ConnId)
    requires Consistent(s) && CanLoop(s, c, reply) && PoolSide(p) && Holds(s, p, id) && Shareable(s.net, id)
    ensures InPool(LoopStep(s, c, reply), id) || Unpools(s, PollLoop(c, reply), id)
  {
    if s.checkouts[c].inner == Connected {
      if s.alive || p != InField(c) { FieldStays(s, c, p, id); }
    } else if reply.Handshake? {
      HandshakeStays(s, c, reply, p, id);
    } else {
      TurnStays(s, c, reply, p, id);
    }
  }

  lemma PollStays(s: State, c: CheckoutId, p: Place, id: ConnId)
    requires Consistent(s) && CanPoll(s, c) && PoolSide(p) && Holds(s, p, id)
    ensures InPool(WaiterStep(s, c), id)
  {
    assert Holds(WaiterStep(s, c), p, id);
  }

  lemma EndDropStays(s: State, c: CheckoutId, p: Place, id: ConnId)
    requires c in s.checkouts && s.checkouts[c].dropping && PoolSide(p) && Holds(s, p, id) && p != InField(c)
    ensures InPool(EndDropStep(s, c), id)
  {
    assert Holds(EndDropStep(s, c), p, id);
  }

  lemma DropPooledStays(s: State, h: HandleId, p: Place, id: ConnId)
    requires Consistent(s) && h in s.handles && PoolSide(p) && Holds(s, p, id)
    ensures InPool(DropPooledStep(s, h), id)
  {
    var gone := s.(handles := s.handles - {h});
    HandleGoneConsistent(s, h);
    assert Holds(gone, p, id);
    if Returns(s, s.handles[h]) {
      PushKeeps(gone, s.handles[h].key, s.handles[h].conn, p, id);
    }
  }

  lemma DropPoolStays(s: State, p: Place, id: ConnId)
    requires PoolSide(p) && Holds(s, p, id)
    ensures InPool(DropPoolStep(s), id) || Unpools(s, DropPool, id)
  {
    assert p.InField? ==> Holds(DropPoolStep(s), p, id);
  }

  /** A step keeps the pool's copy of a multiplexed connection, or takes it away for one of the known reasons. */
  lemma StaysInPool(s: State, e: Event, p: Place, id: ConnId)
    requires Consistent(s) && PoolSide(p) && Holds(s, p, id) && Shareable(s.net, id)
    ensures InPool(Step(s, e), id) || Unpools(s, e, id)
  {
    if Enabled(s, e) {
      match e
      case NewCheckout(key, multiplex) => StartStays(s, key, multiplex, p, id);
      case PollStart(c) => PollStays(s, c, p, id);
      case PollLoop(c, reply) => LoopStays(s, c, reply, p, id);
      case EndDrop(c) => if p != InField(c) { EndDropStays(s, c, p, id); }
      case DropPooled(h) => DropPooledStays(s, h, p, id);
      case DropPool => DropPoolStays(s, p, id);
      case _ => OutsideKeeps(s, e, p, id);
    }
  }

  // ---------------------------------------------------------------------------------------------
  // How it comes there, and that it does not come back
  // ---------------------------------------------------------------------------------------------

  /** The connection was made by a detached checkout, or after the pool had gone. */
  predicate MadeOutside(s: State, e: Event, id: ConnId) {
    Mints(s, e, id) && (!s.alive || !s.checkouts[e.checkout].Attached())
  }

  /** A multiplexed connection made in a living pool is in it at once. */
  lemma MadeInPool(s: State, e: Event, id: ConnId)
    requires Consistent(s) && Mints(s, e, id) && e.reply.shareable && !MadeOutside(s, e, id)
    ensures InPool(Step(s, e), id)
  {
    assert CheckoutOk(s, e.checkout);
    FinishedIsInPool(Made(s, id, true, s.checkouts[e.checkout].key), e.checkout, id);
  }

  lemma StartPoolsNothing(s: State, key: Key, multiplex: bool, p: Place, id: ConnId)
    requires PoolSide(p) && Holds(StartCheckout(s, key, multiplex), p, id)
    ensures InPool(s, id)
  {
    if p.InIdle? { PopIdlePrefix(s, key, p.key, p.index); }
    if p == InField(s.nextCheckout) && PopResult(s, key) == Some(id) {
      var i := NewestUsable(IdleOf(s.pool, key), s.net.open, Cutoff(s.timeout, s.net.now)).value;
      assert PoolSide(InIdle(key, i)) && Holds(s, InIdle(key, i), id);
    } else {
      assert Holds(s, p, id);
    }
  }

  lemma LoopPoolsNothing(s: State, c: CheckoutId, reply: Reply, p: Place, id: ConnId)
    requires CanLoop(s, c, reply) && id in s.net.conns && PoolSide(p) && Holds(LoopStep(s, c, reply), p, id)
    ensures InPool(s, id)
  {
    var k := s.checkouts[c];
    if k.inner == Connected {
      FinishOrigin(s, c, k.connection.value, p, id);
      assert PoolSide(InField(c)) && Holds(s, InField(c), k.connection.value);
    } else if reply.Handshake? {
      var made := Made(s, reply.conn, reply.shareable, k.key);
      FinishOrigin(made, c, reply.conn, p, id);
      assert Holds(made, p, id) ==> Holds(s, p, id);
    } else {
      assert Holds(s, p, id);
    }
  }

  lemma DropPooledPoolsNothing(s: State, h: HandleId, p: Place, id: ConnId)
    requires Owned(s) && h in s.handles && Shareable(s.net, id) && PoolSide(p) && Holds(DropPooledStep(s, h), p, id)
    ensures InPool(s, id)
  {
    var gone := s.(handles := s.handles - {h});
    assert At(s, InHandle(h)) == Some(s.handles[h]);
    if Returns(s, s.handles[h]) {
      PushOrigin(gone, s.handles[h].key, s.handles[h].conn, p, id);
    }
    assert Holds(gone, p, id) ==> Holds(s, p, id);
  }

  lemma OtherPoolsNothing(s: State, e: Event, p: Place, id: ConnId)
    requires Enabled(s, e) && PoolSide(p) && Holds(Step(s, e), p, id)
    requires !e.NewCheckout? && !e.PollLoop? && !e.DropPooled?
    ensures InPool(s, id)
  {
    assert Holds(s, p, id);
  }

  /** Only its own handshake puts a multiplexed connection into the pool: copies handed out do not come back. */
  lemma NothingRepooled(s: State, e: Event, p: Place, id: ConnId)
    requires Owned(s) && id in s.net.conns && Shareable(s.net, id) && PoolSide(p) && Holds(Step(s, e), p, id)
    ensures InPool(s, id)
  {
    if Enabled(s, e) {
      match e
      case NewCheckout(key, multiplex) => StartPoolsNothing(s, key, multiplex, p, id);
      case PollLoop(c, reply) => LoopPoolsNothing(s, c, reply, p, id);
      case DropPooled(h) => DropPooledPoolsNothing(s, h, p, id);
      case _ => OtherPoolsNothing(s, e, p, id);
    }
  }

  // ---------------------------------------------------------------------------------------------
  // Whole runs
  // ---------------------------------------------------------------------------------------------

  /** Step `j` of the run took the pool's copy away, for a known reason. */
  ghost predicate UnpooledAt(timeout: Option<Time>, run: seq<Event>, j: nat, id: ConnId)
    requires j < |run|
  {
    && InPool(Exec(timeout, run[..j]), id)
    && Unpools(Exec(timeout, run[..j]), run[j], id)
    && !InPool(Exec(timeout, run[..j + 1]), id)
  }

  ghost predicate OutsideAt(timeout: Option<Time>, run: seq<Event>, j: nat, id: ConnId)
    requires j < |run|
  {
    MadeOutside(Exec(timeout, run[..j]), run[j], id)
  }

  /**
   * Over every run, the pool side has exactly one copy of a multiplexed connection, or none: then it was made outside
   * the pool, or some step took the copy away because it was closed or expired, was held by a checkout dropped
   * unpolled, or the pool was gone.
   */
  lemma SharedLifecycle(timeout: Option<Time>, run: seq<Event>, id: ConnId)
    requires Shareable(Exec(timeout, run).net, id)
    ensures
      || InPoolOnce(Exec(timeout, run), id)
      || (!InPool(Exec(timeout, run), id)
          && exists j: nat :: j < |run| && (UnpooledAt(timeout, run, j, id) || OutsideAt(timeout, run, j, id)))
  {
    var s := Exec(timeout, run);
    if InPool(s, id) {
      var p :| PoolSide(p) && Holds(s, p, id);
      ExecOwned(timeout, run);
      OnlyInPool(s, p, id);
    } else {
      var j := UnpooledStep(timeout, run, id);
    }
  }

  lemma OnlyInPool(s: State, p: Place, id: ConnId)
    requires Owned(s) && PoolSide(p) && Holds(s, p, id)
    ensures InPoolOnce(s, id)
  {
    assert forall q :: PoolSide(q) && Holds(s, q, id) ==> q == p;
  }

  /** The step that took the connection from the pool, or that made it elsewhere. */
  lemma LastStep(s: State, e: Event, id: ConnId)
    requires Consistent(s) && Shareable(Step(s, e).net, id) && !InPool(Step(s, e), id)
    ensures if id !in s.net.conns then MadeOutside(s, e, id)
            else Shareable(s.net, id) && (InPool(s, id) ==> Unpools(s, e, id))
  {
    ConnsGrow(s, e, id);
    if id !in s.net.conns {
      if !MadeOutside(s, e, id) {
        MintedShareable(s, e, id);
        MadeInPool(s, e, id);
      }
    } else if p :| PoolSide(p) && Holds(s, p, id) {
      StaysInPool(s, e, p, id);
    }
  }

  lemma MintedShareable(s: State, e: Event, id: ConnId)
    requires Mints(s, e, id)
    ensures Shareable(Step(s, e).net, id) == e.reply.shareable
  {
    LoopConns(s, e.checkout, e.reply);
  }

  lemma {:induction false} UnpooledStep(timeout: Option<Time>, run: seq<Event>, id: ConnId) returns (j: nat)
    requires Shareable(Exec(timeout, run).net, id) && !InPool(Exec(timeout, run), id)
    ensures j < |run| && (UnpooledAt(timeout, run, j, id) || OutsideAt(timeout, run, j, id))
    decreases |run|
  {
    j := |run| - 1;
    var before := run[..j];
    ExecConsistent(timeout, before);
    LastStep(Exec(timeout, before), run[j], id);
    assert run[..j + 1] == run;
    if id in Exec(timeout, before).net.conns && !InPool(Exec(timeout, before), id) {
      j := UnpooledStep(timeout, before, id);
      assert before[..j] == run[..j] && before[..j + 1] == run[..j + 1];
    }
  }

  /** A multiplexed connection that is not in the pool never comes into it. */
  lemma {:induction false} UnpooledForGood(timeout: Option<Time>, run: seq<Event>, j: nat, id: ConnId)
    requires j <= |run| && Shareable(Exec(timeout, run[..j]).net, id) && !InPool(Exec(timeout, run[..j]), id)
    ensures Shareable(Exec(timeout, run).net, id) && !InPool(Exec(timeout, run), id)
    decreases |run|
  {
    if j == |run| {
      assert run[..j] == run;
    } else {
      var n := |run| - 1;
      assert run[..n][..j] == run[..j];
      UnpooledForGood(timeout, run[..n], j, id);
      var s := Exec(timeout, run[..n]);
      ExecConsistent(timeout, run[..n]);
      ExecOwned(timeout, run[..n]);
      ConnsGrow(s, run[n], id);
      if p :| PoolSide(p) && Holds(Step(s, run[n]), p, id) {
        NothingRepooled(s, run[n], p, id);
      }
    }
  }
}
