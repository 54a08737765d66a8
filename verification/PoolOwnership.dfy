/**
 * Who holds each connection. An exclusive connection is in one place at a time; of a multiplexed one the pool
 * side keeps at most one copy; and a connection only ever moves under the key it was made for.
 */
module PoolOwnership {
  import opened Wrappers
  import opened IdleList
  import opened PoolState
  import opened PoolQueues

  datatype Place =
    | InIdle(key: Key, index: nat)
    | InField(checkout: CheckoutId)      // `Checkout.connection`
    | InChannel(checkout: CheckoutId)    // sent to a waiter, not received yet
    | InHandle(handle: HandleId)

  /** What a place holds; a connection that is not wrapped in a handle is shown as one without a pool. */
  function At(s: State, p: Place): Option<Pooled> {
    match p
    case InIdle(key, i) =>
      if key in s.pool.idle && i < |s.pool.idle[key]| then Some(Pooled(s.pool.idle[key][i].conn, false, key, false)) else None
    case InField(c) =>
      if c in s.checkouts && s.checkouts[c].connection.Some?
      then Some(Pooled(s.checkouts[c].connection.value, false, s.checkouts[c].key, false)) else None
    case InChannel(c) =>
      if c in s.channels && s.channels[c].Sent? then Some(s.channels[c].value) else None
    case InHandle(h) =>
      if h in s.handles then Some(s.handles[h]) else None
  }

  predicate PoolSide(p: Place) {
    p.InIdle? || p.InField?
  }

  predicate Holds(s: State, p: Place, id: ConnId) {
    At(s, p).Some? && At(s, p).value.conn == id
  }

  ghost predicate Placed(s: State, id: ConnId) {
    exists p :: Holds(s, p, id)
  }

  /** A held connection is known, sits under its own key, and is given back on drop only if it is exclusive. */
  predicate PooledOk(net: Net, x: Pooled) {
    && x.conn in net.conns
    && net.conns[x.conn].origin == x.key
    && if Shareable(net, x.conn) then x.isReused || !x.hasPool else !x.isReused
  }

  ghost predicate Owned(s: State) {
    && (forall p :: At(s, p).Some? ==> PooledOk(s.net, At(s, p).value))
    && (forall p, q, id :: Holds(s, p, id) && Holds(s, q, id) && p != q ==> Shareable(s.net, id) && !(PoolSide(p) && PoolSide(q)))
  }

  /** An exclusive connection must be nowhere, and a multiplexed one not on the pool side, before it is put somewhere. */
  ghost predicate Free(s: State, id: ConnId) {
    forall p :: Holds(s, p, id) ==> Shareable(s.net, id) && !PoolSide(p)
  }

  // ---------------------------------------------------------------------------------------------
  // Taking out and putting in
  // ---------------------------------------------------------------------------------------------

  /** Every occupied place of `s'` is as in `s`. */
  ghost predicate Below(s': State, s: State) {
    forall p :: At(s', p).Some? ==> At(s', p) == At(s, p)
  }

  lemma BelowOwned(s': State, s: State)
    requires Owned(s) && s'.net.conns == s.net.conns && Below(s', s)
    ensures Owned(s')
  {
    forall p, q, id | Holds(s', p, id) && Holds(s', q, id) && p != q
      ensures Shareable(s'.net, id) && !(PoolSide(p) && PoolSide(q))
    {
      assert Holds(s, p, id) && Holds(s, q, id);
    }
  }

  /** Emptying one place of a connection's only pool-side or exclusive position frees it. */
  lemma TakenIsFree(s': State, s: State, p: Place, id: ConnId)
    requires Owned(s) && s'.net.conns == s.net.conns && Below(s', s)
    requires Holds(s, p, id) && !Holds(s', p, id)
    requires PoolSide(p) || !Shareable(s.net, id)
    ensures Free(s', id)
  {
    forall q | Holds(s', q, id) ensures Shareable(s'.net, id) && !PoolSide(q) {
      assert Holds(s, q, id);
    }
  }

  /** Every occupied place of `s'` but `p0` is as in `s`. */
  ghost predicate BelowBut(s': State, s: State, p0: Place) {
    forall p :: p != p0 && At(s', p).Some? ==> At(s', p) == At(s, p)
  }

  lemma PutPooled(s: State, s': State, p0: Place, p: Place)
    requires Owned(s) && s'.net.conns == s.net.conns && BelowBut(s', s, p0) && p != p0 && At(s', p).Some?
    ensures At(s', p) == At(s, p) && PooledOk(s'.net, At(s', p).value)
  {
    assert At(s', p) == At(s, p);
  }

  /** An exclusive or pool-side place needs a free connection; more handles of a multiplexed one do no harm. */
  ghost predicate MayPut(s: State, p0: Place, id: ConnId) {
    Free(s, id) || (Shareable(s.net, id) && !PoolSide(p0))
  }

  lemma PutPair(s: State, p0: Place, p: Place, q: Place, id: ConnId)
    requires Owned(s) && p != q && (p == p0 || q == p0 ==> MayPut(s, p0, id))
    requires (p != p0 ==> Holds(s, p, id)) && (q != p0 ==> Holds(s, q, id))
    ensures Shareable(s.net, id) && !(PoolSide(p) && PoolSide(q))
  {
  }

  /** One new place, for a connection that may be put there. */
  lemma PutOwned(s: State, s': State, p0: Place, x: Pooled)
    requires Owned(s) && s'.net.conns == s.net.conns && PooledOk(s.net, x) && MayPut(s, p0, x.conn)
    requires At(s', p0) == Some(x) && BelowBut(s', s, p0)
    ensures Owned(s')
  {
    forall p | At(s', p).Some? ensures PooledOk(s'.net, At(s', p).value) {
      if p != p0 { PutPooled(s, s', p0, p); }
    }
    forall p, q, id | Holds(s', p, id) && Holds(s', q, id) && p != q
      ensures Shareable(s'.net, id) && !(PoolSide(p) && PoolSide(q))
    {
      if p != p0 { PutPooled(s, s', p0, p); }
      if q != p0 { PutPooled(s, s', p0, q); }
      PutPair(s, p0, p, q, id);
    }
  }

  lemma AddHandleOwned(s: State, x: Pooled)
    requires Owned(s) && s.nextHandle !in s.handles && PooledOk(s.net, x)
    requires !Shareable(s.net, x.conn) ==> Free(s, x.conn)
    ensures Owned(AddHandle(s, x))
  {
    PutOwned(s, AddHandle(s, x), InHandle(s.nextHandle), x);
  }

  /** Where a push of an exclusive connection puts it. */
  function Destination(s: State, key: Key): Place {
    var queue := Queue(s.pool, key);
    var i := FirstOpen(s.channels, queue);
    if i < |queue| then InChannel(queue[i]) else InIdle(key, |IdleOf(s.pool, key)|)
  }

  lemma PushExclusivePlaces(s: State, key: Key, id: ConnId, p: Place)
    ensures var s' := PushExclusive(s, key, id); var p0 := Destination(s, key);
      && Holds(s', p0, id)
      && At(s', p0).value.key == key && !At(s', p0).value.isReused
      && (p != p0 ==> At(s', p) == At(s, p))
  {
  }

  lemma PushSharedPlaces(s: State, key: Key, id: ConnId, p: Place)
    ensures var s' := PushShared(s, key, id); var p0 := InIdle(key, |IdleOf(s.pool, key)|);
      && At(s', p0) == Some(Pooled(id, false, key, false))
      && (p != p0 ==> At(s', p) == At(s, p) || (p.InChannel? && At(s', p) == Some(Pooled(id, true, key, true))))
  {
  }

  lemma PushExclusiveOwned(s: State, key: Key, id: ConnId)
    requires Owned(s) && id in s.net.conns && s.net.conns[id].origin == key && !Shareable(s.net, id) && Free(s, id)
    ensures Owned(PushExclusive(s, key, id))
  {
    var s' := PushExclusive(s, key, id);
    forall p ensures p != Destination(s, key) ==> At(s', p) == At(s, p) { PushExclusivePlaces(s, key, id, p); }
    PushExclusivePlaces(s, key, id, Destination(s, key));
    PutOwned(s, s', Destination(s, key), At(s', Destination(s, key)).value);
  }

  lemma PushSharedOwned(s: State, key: Key, id: ConnId)
    requires Owned(s) && id in s.net.conns && s.net.conns[id].origin == key && Shareable(s.net, id) && Free(s, id)
    ensures Owned(PushShared(s, key, id))
  {
    var s' := PushShared(s, key, id);
    var p0 := InIdle(key, |IdleOf(s.pool, key)|);
    forall p ensures At(s', p).Some? ==> PooledOk(s'.net, At(s', p).value) { PushSharedPlaces(s, key, id, p); }
    forall p, q, x | Holds(s', p, x) && Holds(s', q, x) && p != q
      ensures Shareable(s'.net, x) && !(PoolSide(p) && PoolSide(q))
    {
      PushSharedPlaces(s, key, id, p);
      PushSharedPlaces(s, key, id, q);
      if x != id {
        assert Holds(s, p, x) && Holds(s, q, x);
      } else {
        assert PoolSide(p) && p != p0 ==> Holds(s, p, x);
        assert PoolSide(q) && q != p0 ==> Holds(s, q, x);
      }
    }
  }

  lemma PushOwned(s: State, key: Key, id: ConnId)
    requires Owned(s) && id in s.net.conns && s.net.conns[id].origin == key && Free(s, id)
    ensures Owned(Push(s, key, id))
  {
    if Shareable(s.net, id) { PushSharedOwned(s, key, id); } else { PushExclusiveOwned(s, key, id); }
  }

  // ---------------------------------------------------------------------------------------------
  // The steps keep ownership
  // ---------------------------------------------------------------------------------------------

  lemma UpdateBelow(s: State, c: CheckoutId, k: Checkout)
    requires c in s.checkouts
    requires k.connection == None || (k.connection == s.checkouts[c].connection && k.key == s.checkouts[c].key)
    ensures Below(Update(s, c, k), s)
  {
  }

  lemma CompleteOwned(s: State, c: CheckoutId, x: Pooled)
    requires c in s.checkouts && s.nextHandle !in s.handles && PooledOk(s.net, x)
    requires Owned(Update(s, c, s.checkouts[c].(connection := None)))
    requires Free(Update(s, c, s.checkouts[c].(connection := None)), x.conn)
    ensures Owned(Complete(s, c, x))
    ensures Shareable(s.net, x.conn) ==> Free(Complete(s, c, x), x.conn)
  {
    var s0 := Update(s, c, s.checkouts[c].(connection := None));
    AddHandleOwned(s0, x);
    SamePlaces(AddHandle(s0, x), Complete(s, c, x));
    if Shareable(s.net, x.conn) {
      forall p | Holds(Complete(s, c, x), p, x.conn) ensures !PoolSide(p) {
        assert p == InHandle(s.nextHandle) || Holds(s0, p, x.conn);
      }
    }
  }

  lemma FinishOwned(s: State, c: CheckoutId, id: ConnId)
    requires c in s.checkouts && s.nextHandle !in s.handles
    requires id in s.net.conns && s.net.conns[id].origin == s.checkouts[c].key
    requires Owned(Update(s, c, s.checkouts[c].(connection := None)))
    requires Free(Update(s, c, s.checkouts[c].(connection := None)), id)
    ensures Owned(Finish(s, c, id))
  {
    var k := s.checkouts[c];
    var pooled := k.Attached() && s.alive;
    if pooled && Shareable(s.net, id) {
      CompleteOwned(s, c, Pooled(id, true, k.key, false));
      PushOwned(Complete(s, c, Pooled(id, true, k.key, false)), k.key, id);
    } else {
      CompleteOwned(s, c, Pooled(id, false, k.key, pooled));
    }
  }

  lemma SamePlaces(s: State, s': State)
    requires s'.net == s.net && s'.pool.idle == s.pool.idle && s'.channels == s.channels && s'.handles == s.handles
    requires s'.checkouts.Keys == s.checkouts.Keys
    requires forall c :: c in s.checkouts ==>
      s'.checkouts[c].connection == s.checkouts[c].connection && s'.checkouts[c].key == s.checkouts[c].key
    ensures forall p :: At(s', p) == At(s, p)
    ensures Owned(s) ==> Owned(s')
    ensures forall id :: Free(s, id) ==> Free(s', id)
  {
    forall p ensures At(s', p) == At(s, p) {}
    if Owned(s) { BelowOwned(s', s); }
    forall id | Free(s, id) ensures Free(s', id) {
      assert forall p :: Holds(s', p, id) ==> Holds(s, p, id);
    }
  }

  lemma MadeOwned(s: State, id: ConnId, shareable: bool, key: Key)
    requires Owned(s) && id !in s.net.conns
    ensures Owned(Made(s, id, shareable, key)) && Free(Made(s, id, shareable, key), id)
  {
    var s' := Made(s, id, shareable, key);
    forall p ensures At(s', p) == At(s, p) {}
    forall p, q, x | Holds(s', p, x) && Holds(s', q, x) && p != q
      ensures Shareable(s'.net, x) && !(PoolSide(p) && PoolSide(q))
    {
      assert Holds(s, p, x) && Holds(s, q, x);
    }
  }

  lemma FieldOwned(s: State, c: CheckoutId)
    requires Consistent(s) && Owned(s) && c in s.checkouts && s.checkouts[c].connection.Some?
    ensures Owned(Finish(s, c, s.checkouts[c].connection.value))
  {
    var id := s.checkouts[c].connection.value;
    var s1 := Update(s, c, s.checkouts[c].(connection := None));
    assert At(s, InField(c)).value.conn == id;
    UpdateBelow(s, c, s.checkouts[c].(connection := None));
    BelowOwned(s1, s);
    TakenIsFree(s1, s, InField(c), id);
    FinishOwned(s, c, id);
  }

  lemma HandshakeOwned(s: State, c: CheckoutId, id: ConnId, shareable: bool)
    requires Consistent(s) && Owned(s) && c in s.checkouts && s.checkouts[c].connection.None? && id !in s.net.conns
    ensures Owned(Finish(Made(s, id, shareable, s.checkouts[c].key), c, id))
  {
    var made := Made(s, id, shareable, s.checkouts[c].key);
    MadeOwned(s, id, shareable, s.checkouts[c].key);
    assert Update(made, c, s.checkouts[c].(connection := None)) == made;
    FinishOwned(made, c, id);
  }

  lemma LoopOwned(s: State, c: CheckoutId, reply: Reply)
    requires Consistent(s) && Owned(s) && CanLoop(s, c, reply)
    ensures Owned(LoopStep(s, c, reply))
  {
    var k := s.checkouts[c];
    assert CheckoutOk(s, c);
    if k.inner == Connected {
      FieldOwned(s, c);
    } else if reply.Handshake? {
      HandshakeOwned(s, c, reply.conn, reply.shareable);
    } else {
      SamePlaces(s, Turn(s, c, reply));
    }
  }

  lemma ReceiveOwned(s: State, c: CheckoutId, x: Pooled)
    requires Consistent(s) && Owned(s) && c in s.checkouts && At(s, InChannel(c)) == Some(x)
    ensures Owned(Receive(s, c, x))
  {
    var s1 := s.(channels := s.channels[c := Taken]);
    BelowOwned(s1, s);
    if !Shareable(s.net, x.conn) { TakenIsFree(s1, s, InChannel(c), x.conn); }
    AddHandleOwned(s1, x);
    SamePlaces(AddHandle(s1, x), Receive(s, c, x));
  }

  lemma PollOwned(s: State, c: CheckoutId)
    requires Consistent(s) && Owned(s) && CanPoll(s, c)
    ensures Owned(WaiterStep(s, c))
  {
    if At(s, InChannel(c)).Some? {
      ReceiveOwned(s, c, s.channels[c].value);
    } else {
      SamePlaces(s, WaiterStep(s, c));
    }
  }

  lemma BeginDropOwned(s: State, c: CheckoutId)
    requires Owned(s) && CanDrop(s, c)
    ensures Owned(BeginDropStep(s, c))
  {
    SamePlaces(s, BeginDropStep(s, c));
  }

  lemma EndDropOwned(s: State, c: CheckoutId)
    requires Consistent(s) && Owned(s) && c in s.checkouts && s.checkouts[c].dropping
    ensures Owned(EndDropStep(s, c))
  {
    var gone := s.(checkouts := s.checkouts - {c}, channels := s.channels - {c});
    BelowOwned(gone, s);
    if c in s.channels && s.channels[c].Sent? {
      var x := s.channels[c].value;
      assert At(s, InChannel(c)) == Some(x);
      if !Shareable(s.net, x.conn) { TakenIsFree(gone, s, InChannel(c), x.conn); }
      AddHandleOwned(gone, x);
    }
  }

  lemma DropPooledOwned(s: State, h: HandleId)
    requires Owned(s) && h in s.handles
    ensures Owned(DropPooledStep(s, h))
  {
    var x := s.handles[h];
    var gone := s.(handles := s.handles - {h});
    assert At(s, InHandle(h)) == Some(x);
    BelowOwned(gone, s);
    if Returns(s, x) {
      TakenIsFree(gone, s, InHandle(h), x.conn);
      PushOwned(gone, x.key, x.conn);
    }
  }

  /** A pop leaves every other list alone and keeps a prefix of its own. */
  lemma PopIdlePrefix(s: State, key: Key, k: Key, i: nat)
    ensures var idle := PopIdle(s, key);
      k in idle && i < |idle[k]| ==> k in s.pool.idle && i < |s.pool.idle[k]| && idle[k][i] == s.pool.idle[k][i]
  {
  }

  lemma StartOwned(s: State, key: Key, multiplex: bool)
    requires Consistent(s) && Owned(s) && s.alive
    ensures Owned(StartCheckout(s, key, multiplex))
  {
    var popped := s.(pool := s.pool.(idle := PopIdle(s, key)));
    forall p | At(popped, p).Some? ensures At(popped, p) == At(s, p) {
      if p.InIdle? { PopIdlePrefix(s, key, p.key, p.index); }
    }
    BelowOwned(popped, s);
    if PopResult(s, key).Some? {
      ReserveOwned(s, popped, key, PopResult(s, key).value);
    } else {
      SamePlacesNew(popped, Register(s, key, multiplex));
      BelowOwned(Register(s, key, multiplex), popped);
    }
  }

  /** A new checkout that holds nothing adds no occupied place. */
  lemma SamePlacesNew(s: State, s': State)
    requires s'.net == s.net && s'.pool.idle == s.pool.idle && s'.handles == s.handles
    requires exists k: Checkout :: k.connection == None && s'.checkouts == s.checkouts[s.nextCheckout := k]
    requires s'.channels == s.channels || s'.channels == s.channels[s.nextCheckout := Pending]
    ensures Below(s', s)
  {
  }

  lemma ReserveOwned(s: State, popped: State, key: Key, id: ConnId)
    requires Consistent(s) && Owned(s) && Owned(popped) && Below(popped, s) && PopResult(s, key) == Some(id)
    requires popped == s.(pool := s.pool.(idle := PopIdle(s, key)))
    ensures Owned(Reserve(s, key, id))
  {
    var i := NewestUsable(s.pool.idle[key], s.net.open, Cutoff(s.timeout, s.net.now)).value;
    assert At(s, InIdle(key, i)) == Some(Pooled(id, false, key, false));
    assert At(popped, InIdle(key, i)) == None;
    TakenIsFree(popped, s, InIdle(key, i), id);
    PutOwned(popped, Reserve(s, key, id), InField(s.nextCheckout), Pooled(id, false, key, false));
  }

  lemma OutsideOwned(s: State, e: Event)
    requires Owned(s) && (e.NewDetached? || e.SetOpen? || e.Tick? || e.DropPool?)
    ensures Owned(Step(s, e))
  {
    forall p | At(Step(s, e), p).Some? ensures At(Step(s, e), p) == At(s, p) {}
    BelowOwned(Step(s, e), s);
  }

  lemma StepOwned(s: State, e: Event)
    requires Consistent(s) && Owned(s)
    ensures Owned(Step(s, e))
  {
    if Enabled(s, e) {
      match e
      case NewCheckout(key, multiplex) => StartOwned(s, key, multiplex);
      case PollStart(c) => PollOwned(s, c);
      case PollLoop(c, reply) => LoopOwned(s, c, reply);
      case BeginDrop(c) => BeginDropOwned(s, c);
      case EndDrop(c) => EndDropOwned(s, c);
      case DropPooled(h) => DropPooledOwned(s, h);
      case _ => OutsideOwned(s, e);
    }
  }

  lemma OneHolder(s: State, p: Place, q: Place, id: ConnId)
    requires Owned(s) && Holds(s, p, id) && Holds(s, q, id)
    requires !Shareable(s.net, id) || (PoolSide(p) && PoolSide(q))
    ensures p == q
  {
  }

  /** In every run, ownership is linear for exclusive connections and bounded for multiplexed ones. */
  lemma {:induction false} ExecOwned(timeout: Option<Time>, run: seq<Event>)
    ensures Owned(Exec(timeout, run))
  {
    if |run| > 0 {
      ExecConsistent(timeout, run[..|run| - 1]);
      ExecOwned(timeout, run[..|run| - 1]);
      StepOwned(Exec(timeout, run[..|run| - 1]), run[|run| - 1]);
    }
  }
}
