/** What a caller of the pool gets, said from the state before the call and what the environment answers. */
module PoolAnswers {
  import opened Wrappers
  import opened IdleList
  import opened PoolState
  import opened PoolQueues
  import opened PoolOwnership
  import opened PoolService
  import opened PoolWaiters

  // ---------------------------------------------------------------------------------------------
  // A new checkout
  // ---------------------------------------------------------------------------------------------

  /** Nothing but the entries of the key, the new checkout and its channel changed. */
  ghost predicate OnlyAdds(s: State, s': State, key: Key) {
    && s'.net == s.net && s'.handles == s.handles && s'.alive == s.alive
    && s'.nextCheckout == s.nextCheckout + 1
    && s'.checkouts.Keys == s.checkouts.Keys + {s.nextCheckout}
    && s'.channels.Keys == s.channels.Keys + {s.nextCheckout}
    && (forall c :: c in s.checkouts && c != s.nextCheckout ==> s'.checkouts[c] == s.checkouts[c])
    && (forall c :: c in s.channels && c != s.nextCheckout ==> s'.channels[c] == s.channels[c])
    && (forall k :: k != key ==> IdleOf(s'.pool, k) == IdleOf(s.pool, k) && Queue(s'.pool, k) == Queue(s.pool, k))
    && (forall k :: k != key ==> (k in s'.pool.connecting <==> k in s.pool.connecting))
  }

  /** The checkout holds the newest idle connection that is open and not too old, if there is one. */
  ghost predicate Served(s: State, s': State, key: Key)
    requires s.nextCheckout in s'.checkouts
  {
    var k := s'.checkouts[s.nextCheckout];
    && PopsNewest(IdleOf(s.pool, key), s.net.open, s.timeout, s.net.now, k.connection, IdleOf(s'.pool, key))
    && (k.connection.Some? ==> k.inner == Connected && s'.pool.connecting == s.pool.connecting && Queue(s'.pool, key) == Queue(s.pool, key))
  }

  /** Otherwise its sender is queued last, and it connects unless the key is marked; it marks the key if it may multiplex. */
  predicate Queues(s: State, s': State, key: Key, multiplex: bool)
    requires s.nextCheckout in s'.checkouts && s.nextCheckout in s'.channels
  {
    var k := s'.checkouts[s.nextCheckout];
    k.connection.None? ==>
      && Queue(s'.pool, key) == Queue(s.pool, key) + [s.nextCheckout] && s'.channels[s.nextCheckout] == Pending
      && k.inner == (if key in s.pool.connecting then Waiting else Connecting)
      && (key in s'.pool.connecting <==> key in s.pool.connecting || multiplex)
  }

  /** What `Pool::checkout` does. */
  ghost predicate CheckoutStarted(s: State, s': State, key: Key, multiplex: bool) {
    && OnlyAdds(s, s', key)
    && s'.checkouts[s.nextCheckout].key == key && s'.checkouts[s.nextCheckout].Attached()
    && s'.checkouts[s.nextCheckout].outcome == None && !s'.checkouts[s.nextCheckout].polling
    && Served(s, s', key)
    && Queues(s, s', key, multiplex)
  }

  lemma PopIdleIs(s: State, key: Key, k: Key)
    ensures IdleOf(s.pool.(idle := PopIdle(s, key)), k) ==
      if k == key then Remaining(IdleOf(s.pool, key), s.net.open, Cutoff(s.timeout, s.net.now)) else IdleOf(s.pool, k)
  {
  }

  /** Registering a checkout with entries of its key changed adds only that checkout. */
  lemma NewAdds(s: State, pool: PoolInner, k: Checkout, channel: Channel)
    requires Consistent(s)
    requires forall key :: key != k.key ==> IdleOf(pool, key) == IdleOf(s.pool, key) && Queue(pool, key) == Queue(s.pool, key)
    requires forall key :: key != k.key ==> (key in pool.connecting <==> key in s.pool.connecting)
    ensures OnlyAdds(s, NewState(s, pool, k, channel), k.key)
  {
  }

  lemma ReserveAdds(s: State, key: Key, id: ConnId)
    requires Consistent(s)
    ensures OnlyAdds(s, Reserve(s, key, id), key)
    ensures IdleOf(Reserve(s, key, id).pool, key) == Remaining(IdleOf(s.pool, key), s.net.open, Cutoff(s.timeout, s.net.now))
  {
    var s' := Reserve(s, key, id);
    forall k | k != key ensures IdleOf(s'.pool, k) == IdleOf(s.pool, k) { PopIdleIs(s, key, k); }
    NewAdds(s, s'.pool, s'.checkouts[s.nextCheckout], SenderDropped);
    PopIdleIs(s, key, key);
  }

  lemma RegisterAdds(s: State, key: Key, multiplex: bool)
    requires Consistent(s)
    ensures OnlyAdds(s, Register(s, key, multiplex), key)
    ensures IdleOf(Register(s, key, multiplex).pool, key) == Remaining(IdleOf(s.pool, key), s.net.open, Cutoff(s.timeout, s.net.now))
  {
    var s' := Register(s, key, multiplex);
    forall k | k != key ensures IdleOf(s'.pool, k) == IdleOf(s.pool, k) { PopIdleIs(s, key, k); }
    NewAdds(s, s'.pool, s'.checkouts[s.nextCheckout], Pending);
    PopIdleIs(s, key, key);
  }

  lemma ReserveIs(s: State, key: Key, multiplex: bool)
    requires Consistent(s) && PopResult(s, key).Some?
    ensures CheckoutStarted(s, Reserve(s, key, PopResult(s, key).value), key, multiplex)
  {
    PoppedIsNewest(IdleOf(s.pool, key), s.net.open, s.timeout, s.net.now);
    ReserveAdds(s, key, PopResult(s, key).value);
  }

  lemma RegisterIs(s: State, key: Key, multiplex: bool)
    requires Consistent(s) && PopResult(s, key).None?
    ensures CheckoutStarted(s, Register(s, key, multiplex), key, multiplex)
  {
    PoppedIsNewest(IdleOf(s.pool, key), s.net.open, s.timeout, s.net.now);
    RegisterAdds(s, key, multiplex);
  }

  lemma StartCheckoutIs(s: State, key: Key, multiplex: bool)
    requires Consistent(s)
    ensures CheckoutStarted(s, StartCheckout(s, key, multiplex), key, multiplex)
  {
    if PopResult(s, key).Some? { ReserveIs(s, key, multiplex); } else { RegisterIs(s, key, multiplex); }
  }

  /** A detached checkout connects for its key, and neither the pool nor anybody else is involved. */
  lemma StartDetachedIs(s: State, key: Key)
    requires Consistent(s)
    ensures var s' := StartDetached(s, key); var c := s.nextCheckout;
      && c in s'.checkouts && c !in s'.channels && !s'.checkouts[c].Attached()
      && s'.checkouts[c].key == key && s'.checkouts[c].inner == Connecting && CanPoll(s', c)
      && s' == s.(checkouts := s'.checkouts, nextCheckout := c + 1) && s'.checkouts - {c} == s.checkouts
  {
  }

  // ---------------------------------------------------------------------------------------------
  // A poll
  // ---------------------------------------------------------------------------------------------

  /** The caller gets a handle on the connection. */
  predicate Gets(s': State, result: Option<Outcome>, id: ConnId) {
    && result.Some? && result.value.Delivered?
    && result.value.handle in s'.handles && s'.handles[result.value.handle].conn == id
  }

  /** What a poll answers once the handshake is polled. */
  predicate HandshakeAnswered(s: State, s': State, c: CheckoutId, handshake: Reply, result: Option<Outcome>)
    requires c in s.checkouts && c in s'.checkouts
  {
    match handshake
    case NotReady => result == None && s'.checkouts[c].inner == Handshaking
    case Failed => result == Some(HandshakeFailed)
    case Handshake(id, shareable) =>
      Gets(s', result, id) && id in s'.net.open && id in s'.net.conns && s'.net.conns[id] == ConnInfo(shareable, s.checkouts[c].key)
    case _ => false
  }

  /** A connection in the channel is delivered first. */
  predicate HasDelivery(s: State, c: CheckoutId) {
    c in s.channels && s.channels[c].Sent?
  }

  /** What a poll answers, given what the transport and the handshake would answer. */
  predicate PollAnswered(s: State, s': State, c: CheckoutId, transport: Reply, handshake: Reply, result: Option<Outcome>)
    requires c in s.checkouts && c in s'.checkouts
  {
    var k := s.checkouts[c];
    if HasDelivery(s, c) then
      && result.Some? && result.value.Delivered? && result.value.handle in s'.handles
      && s'.handles[result.value.handle] == s.channels[c].value
    else match k.inner
      case Waiting =>
        if c in s.channels && s.channels[c] == Pending then result == None && s' == s else result == Some(Unavailable)
      case Connected => k.connection.Some? && Gets(s', result, k.connection.value)
      case Handshaking => HandshakeAnswered(s, s', c, handshake, result)
      case Connecting =>
        match transport
        case NotReady => result == None && s'.checkouts[c].inner == Connecting
        case Failed => result == Some(ConnectFailed)
        case Transport(_) => HandshakeAnswered(s, s', c, handshake, result)
        case _ => false
  }

  /** Unless a multiplexed connection is registered, a poll changes the pool at most by the mark for a shareable transport. */
  predicate PoolAfterPoll(s: State, s': State, c: CheckoutId, transport: Reply, handshake: Reply)
    requires c in s.checkouts
  {
    var k := s.checkouts[c];
    var connects := !HasDelivery(s, c) && k.inner == Connecting;
    var shakes := !HasDelivery(s, c) && (k.inner == Handshaking || (k.inner == Connecting && transport.Transport?));
    var registers := (shakes && handshake.Handshake? && handshake.shareable) || (k.inner == Connected && !HasDelivery(s, c));
    !registers ==>
      s'.pool == s.pool.(connecting :=
        if connects && transport == Transport(true) && k.Attached() && s.alive then s.pool.connecting + {k.key} else s.pool.connecting)
  }

  // ---------------------------------------------------------------------------------------------
  // A dropped handle
  // ---------------------------------------------------------------------------------------------

  /** A connection is given back exactly if it is open, the caller's own, and its pool lives. */
  predicate GivesBack(s: State, x: Pooled) {
    x.conn in s.net.open && !x.isReused && x.hasPool && s.alive
  }

  /** What dropping a handle does: the earliest waiter of the key gets the connection, or else it is stored now. */
  ghost predicate HandleDropped(s: State, s': State, h: HandleId)
    requires h in s.handles
  {
    var x := s.handles[h];
    && s'.handles == s.handles - {h}
    && (!GivesBack(s, x) ==> s' == s.(handles := s.handles - {h}))
    && (GivesBack(s, x) ==> x.key !in s'.pool.connecting)
    && (GivesBack(s, x) && NobodyWaits(s, x.key) ==> IdleOf(s'.pool, x.key) == IdleOf(s.pool, x.key) + [Idle(s.net.now, x.conn)])
    && (GivesBack(s, x) ==> forall d :: EarliestWaiter(s, d, x.key) ==>
          s'.channels == s.channels[d := Sent(Pooled(x.conn, false, x.key, true))] && s'.pool.idle == s.pool.idle)
  }

  lemma DropPooledIs(s: State, h: HandleId)
    requires Consistent(s) && Owned(s) && h in s.handles
    ensures HandleDropped(s, DropPooledStep(s, h), h)
  {
    var x := s.handles[h];
    var gone := s.(handles := s.handles - {h});
    assert At(s, InHandle(h)) == Some(x);
    HandleGoneConsistent(s, h);
    if GivesBack(s, x) {
      assert !Shareable(s.net, x.conn);
      if NobodyWaits(s, x.key) { PushStores(gone, x.key, x.conn); }
      forall d | EarliestWaiter(s, d, x.key)
        ensures var s' := DropPooledStep(s, h);
          s'.channels == s.channels[d := Sent(Pooled(x.conn, false, x.key, true))] && s'.pool.idle == s.pool.idle
      {
        DroppedExclusive(s, h, d);
      }
    }
  }
}
