/** Who gets a connection that comes back or is made while others wait, and when nobody will. */
module PoolWaiters {
  import opened Wrappers
  import opened IdleList
  import opened PoolState
  import opened PoolQueues
  import opened PoolOwnership
  import opened PoolService

  /** The checkout is registered for the key and its sender has not been used. */
  predicate WaitsFor(s: State, c: CheckoutId, key: Key) {
    c in s.checkouts && c in s.channels && s.channels[c] == Pending && s.checkouts[c].key == key
  }

  // ---------------------------------------------------------------------------------------------
  // Who is served
  // ---------------------------------------------------------------------------------------------

  lemma SharedHandshake(s: State, c: CheckoutId, id: ConnId, d: CheckoutId)
    requires Consistent(s) && s.alive && CanLoop(s, c, Handshake(id, true)) && s.checkouts[c].Attached()
    requires WaitsFor(s, d, s.checkouts[c].key)
    ensures var s' := LoopStep(s, c, Handshake(id, true)); var key := s.checkouts[c].key;
      && d in s'.channels && s'.channels[d] == Sent(Pooled(id, true, key, true))
      && Queue(s'.pool, key) == []
      && key !in s'.pool.connecting
      && IdleOf(s'.pool, key) == IdleOf(s.pool, key) + [Idle(s.net.now, id)]
  {
    var key := s.checkouts[c].key;
    assert CheckoutOk(s, c);
    var made := Made(s, id, true, key);
    var done := Complete(made, c, Pooled(id, true, key, false));
    CompleteConsistent(made, s, c, Pooled(id, true, key, false));
    SharedReachesEveryWaiter(done, key, id, d);
  }

  /**
   * When the handshake of a multiplexed connection completes in a living pool, every waiter of the key is sent a copy
   * in that very step, nobody is left in the queue, and one copy is stored for later checkouts.
   */
  lemma HandshakeReachesEveryWaiter(timeout: Option<Time>, run: seq<Event>, c: CheckoutId, id: ConnId, d: CheckoutId)
    requires var s := Exec(timeout, run);
      && s.alive && CanLoop(s, c, Handshake(id, true)) && s.checkouts[c].Attached()
      && WaitsFor(s, d, s.checkouts[c].key)
    ensures var s := Exec(timeout, run); var key := s.checkouts[c].key;
      var s' := Exec(timeout, run + [PollLoop(c, Handshake(id, true))]);
      && d in s'.channels && s'.channels[d] == Sent(Pooled(id, true, key, true))
      && Queue(s'.pool, key) == []
      && key !in s'.pool.connecting
      && IdleOf(s'.pool, key) == IdleOf(s.pool, key) + [Idle(s.net.now, id)]
  {
    ExecConsistent(timeout, run);
    ExecOne(timeout, run, PollLoop(c, Handshake(id, true)));
    SharedHandshake(Exec(timeout, run), c, id, d);
  }

  /** Nobody registered earlier is still waiting for the key. */
  ghost predicate EarliestWaiter(s: State, d: CheckoutId, key: Key) {
    WaitsFor(s, d, key) && forall c :: WaitsFor(s, c, key) ==> d <= c
  }

  /** The earliest waiter of a key has the first open sender of its queue. */
  lemma EarliestIsFirstOpen(s: State, d: CheckoutId, key: Key)
    requires Consistent(s) && EarliestWaiter(s, d, key)
    ensures var q := Queue(s.pool, key); var i := FirstOpen(s.channels, q); i < |q| && q[i] == d
  {
    var q := Queue(s.pool, key);
    var i := FirstOpen(s.channels, q);
    assert ChannelOk(s, d);
    var j :| 0 <= j < |q| && q[j] == d;
    assert QueueOk(s, key);
    assert WaitsFor(s, q[i], key);
  }

  lemma DroppedExclusive(s: State, h: HandleId, d: CheckoutId)
    requires Consistent(s) && h in s.handles && Returns(s, s.handles[h]) && !Shareable(s.net, s.handles[h].conn)
    requires EarliestWaiter(s, d, s.handles[h].key)
    ensures var s' := DropPooledStep(s, h); var x := s.handles[h];
      && s'.channels == s.channels[d := Sent(Pooled(x.conn, false, x.key, true))]
      && s'.pool.idle == s.pool.idle && s'.handles == s.handles - {h}
  {
    EarliestIsFirstOpen(s, d, s.handles[h].key);
  }

  /** In every run, an exclusive connection dropped open goes to the earliest waiter of its key, and to nobody else. */
  lemma DroppedGoesToEarliest(timeout: Option<Time>, run: seq<Event>, h: HandleId, d: CheckoutId)
    requires var s := Exec(timeout, run);
      && h in s.handles && Returns(s, s.handles[h]) && !Shareable(s.net, s.handles[h].conn)
      && EarliestWaiter(s, d, s.handles[h].key)
    ensures var s := Exec(timeout, run); var s' := Exec(timeout, run + [DropPooled(h)]); var x := s.handles[h];
      && s'.channels == s.channels[d := Sent(Pooled(x.conn, false, x.key, true))]
      && s'.pool.idle == s.pool.idle && s'.handles == s.handles - {h}
  {
    ExecConsistent(timeout, run);
    ExecOne(timeout, run, DropPooled(h));
    DroppedExclusive(Exec(timeout, run), h, d);
  }

  // ---------------------------------------------------------------------------------------------
  // Nothing is idle while somebody waits
  // ---------------------------------------------------------------------------------------------

  ghost predicate WaitersDrainIdle(s: State) {
    forall c, key :: WaitsFor(s, c, key) ==> IdleOf(s.pool, key) == []
  }

  /** Somebody who waits after a push waited before, and then the idle list of that key is as it was. */
  lemma PushDrains(s: State, k: Key, id: ConnId, c: CheckoutId, key: Key)
    requires Consistent(s) && WaitsFor(Push(s, k, id), c, key)
    ensures WaitsFor(s, c, key) && IdleOf(Push(s, k, id).pool, key) == IdleOf(s.pool, key)
  {
    if key == k {
      if Shareable(s.net, id) {
        SharedReachesEveryWaiter(s, k, id, c);
      } else {
        FirstOpenIsEarliest(s, k, c);
      }
    }
  }

  lemma FinishDrains(s: State, s0: State, d: CheckoutId, id: ConnId, c: CheckoutId, key: Key)
    requires Consistent(s0) && s == s0.(net := s.net) && d in s.checkouts && s.checkouts[d].polling
    requires s.checkouts[d].inner in {Connected, Handshaking} && WaitsFor(Finish(s, d, id), c, key)
    ensures WaitsFor(s, c, key) && IdleOf(Finish(s, d, id).pool, key) == IdleOf(s.pool, key)
  {
    var k := s.checkouts[d];
    if k.Attached() && s.alive && Shareable(s.net, id) {
      CompleteConsistent(s, s0, d, Pooled(id, true, k.key, false));
      PushDrains(Complete(s, d, Pooled(id, true, k.key, false)), k.key, id, c, key);
    }
  }

  lemma LoopDrains(s: State, d: CheckoutId, reply: Reply, c: CheckoutId, key: Key)
    requires Consistent(s) && CanLoop(s, d, reply) && WaitsFor(LoopStep(s, d, reply), c, key)
    ensures WaitsFor(s, c, key) && IdleOf(LoopStep(s, d, reply).pool, key) == IdleOf(s.pool, key)
  {
    if s.checkouts[d].inner == Connected {
      FinishDrains(s, s, d, s.checkouts[d].connection.value, c, key);
    } else if reply.Handshake? {
      FinishDrains(Made(s, reply.conn, reply.shareable, s.checkouts[d].key), s, d, reply.conn, c, key);
    }
  }

  lemma DropPooledDrains(s: State, h: HandleId, c: CheckoutId, key: Key)
    requires Consistent(s) && h in s.handles && WaitsFor(DropPooledStep(s, h), c, key)
    ensures WaitsFor(s, c, key) && IdleOf(DropPooledStep(s, h).pool, key) == IdleOf(s.pool, key)
  {
    HandleGoneConsistent(s, h);
    if Returns(s, s.handles[h]) {
      PushDrains(s.(handles := s.handles - {h}), s.handles[h].key, s.handles[h].conn, c, key);
    }
  }

  /** A checkout that starts to wait has just emptied the idle list. */
  lemma StartDrains(s: State, k: Key, multiplex: bool, c: CheckoutId, key: Key)
    requires Consistent(s) && WaitersDrainIdle(s) && WaitsFor(StartCheckout(s, k, multiplex), c, key)
    ensures IdleOf(StartCheckout(s, k, multiplex).pool, key) == []
  {
    if c != s.nextCheckout {
      assert WaitsFor(s, c, key);
    }
  }

  lemma OtherDrains(s: State, e: Event, c: CheckoutId, key: Key)
    requires Consistent(s) && Enabled(s, e) && WaitsFor(Step(s, e), c, key)
    requires e.NewDetached? || e.SetOpen? || e.Tick? || e.PollStart?
    ensures WaitsFor(s, c, key) && IdleOf(Step(s, e).pool, key) == IdleOf(s.pool, key)
  {
  }

  lemma DropDrains(s: State, e: Event, c: CheckoutId, key: Key)
    requires Enabled(s, e) && (e.BeginDrop? || e.EndDrop?) && WaitsFor(Step(s, e), c, key)
    ensures WaitsFor(s, c, key) && IdleOf(Step(s, e).pool, key) == IdleOf(s.pool, key)
  {
  }

  lemma StepDrains(s: State, e: Event, c: CheckoutId, key: Key)
    requires Consistent(s) && WaitersDrainIdle(s) && WaitsFor(Step(s, e), c, key)
    ensures IdleOf(Step(s, e).pool, key) == []
  {
    if Enabled(s, e) {
      match e
      case NewCheckout(k, multiplex) => StartDrains(s, k, multiplex, c, key);
      case PollLoop(d, reply) => LoopDrains(s, d, reply, c, key);
      case DropPooled(h) => DropPooledDrains(s, h, c, key);
      case BeginDrop(_) => DropDrains(s, e, c, key);
      case EndDrop(_) => DropDrains(s, e, c, key);
      case DropPool =>
      case _ => OtherDrains(s, e, c, key);
    }
  }

  /** In every run, nothing is idle under a key that somebody waits for. */
  lemma {:induction false} NothingIdleWhileWaiting(timeout: Option<Time>, run: seq<Event>)
    ensures WaitersDrainIdle(Exec(timeout, run))
  {
    if |run| > 0 {
      var before, e := run[..|run| - 1], run[|run| - 1];
      NothingIdleWhileWaiting(timeout, before);
      ExecConsistent(timeout, before);
      forall c, key | WaitsFor(Exec(timeout, run), c, key) ensures IdleOf(Exec(timeout, run).pool, key) == [] {
        StepDrains(Exec(timeout, before), e, c, key);
      }
    }
  }

  /** So in every run no checkout overtakes a waiter: one of its key finds nothing idle. */
  lemma NobodyOvertakesWaiters(timeout: Option<Time>, run: seq<Event>, c: CheckoutId, key: Key)
    requires WaitsFor(Exec(timeout, run), c, key)
    ensures PopResult(Exec(timeout, run), key) == None
  {
    NothingIdleWhileWaiting(timeout, run);
  }

  // ---------------------------------------------------------------------------------------------
  // Waiters without a connector
  // ---------------------------------------------------------------------------------------------

  /** A waiter without a connector, and no attempt whose connection it could get. */
  ghost predicate Stranded(s: State, c: CheckoutId) {
    && s.alive && WaitsForOthers(s, c)
    && s.checkouts[c].key !in s.pool.connecting
    && forall d :: !Attempting(s, d, s.checkouts[c].key)
  }

  /**
   * A failed attempt does not release those who waited for it: the first checkout of a key connects, the second one
   * waits for it, the attempt fails and its checkout is dropped.
   */
  lemma FailureStrandsWaiters(timeout: Option<Time>, key: Key) returns (run: seq<Event>)
    ensures Stranded(Exec(timeout, run), 1) && Exec(timeout, run).checkouts[1].key == key
  {
    run := [];
    var s := Init(timeout);
    run, s := Extend(timeout, run, NewCheckout(key, true)), Step(s, NewCheckout(key, true));
    assert s.checkouts == map[0 := Checkout(key, WaitIdle, Connecting, None, false, None, false)];
    assert key in s.pool.connecting && s.channels == map[0 := Pending] && s.pool.idle == map[];
    run, s := Extend(timeout, run, NewCheckout(key, true)), Step(s, NewCheckout(key, true));
    assert WaitsForOthers(s, 1);
    run, s := Extend(timeout, run, PollStart(0)), Step(s, PollStart(0));
    run, s := Extend(timeout, run, PollLoop(0, Failed)), Step(s, PollLoop(0, Failed));
    run, s := Extend(timeout, run, BeginDrop(0)), Step(s, BeginDrop(0));
    run, s := Extend(timeout, run, EndDrop(0)), Step(s, EndDrop(0));
    assert s.checkouts.Keys == {1};
  }

  /** A run continued by one event. */
  function Extend(timeout: Option<Time>, run: seq<Event>, e: Event): (r: seq<Event>)
    ensures Exec(timeout, r) == Step(Exec(timeout, run), e)
  {
    ExecOne(timeout, run, e);
    run + [e]
  }

  predicate WaitsWithKey(s: State, c: CheckoutId, key: Key) {
    WaitsForOthers(s, c) && s.checkouts[c].key == key
  }

  /**
   * What ends the wait: the end of the pool, dropping the waiter, a multiplexed connection pushed for its key, or an
   * exclusive one pushed while nobody registered earlier waits.
   */
  ghost predicate EndsWait(s: State, e: Event, c: CheckoutId, key: Key) {
    || (e == DropPool && s.alive)
    || (e == EndDrop(c) && Enabled(s, e))
    || (Pushes(s, e, key) && (e.PollLoop? || Shareable(s.net, s.handles[e.handle].conn) || EarliestWaiter(s, c, key)))
  }

  lemma OtherPushKeepsWaiting(s: State, key: Key, id: ConnId, c: CheckoutId, k: Key)
    requires Consistent(s) && WaitsWithKey(s, c, k) && key != k
    ensures WaitsWithKey(Push(s, key, id), c, k)
  {
    assert key in s.pool.waiting ==> QueueOk(s, key);
  }

  lemma LoopKeepsWaiting(s: State, d: CheckoutId, reply: Reply, c: CheckoutId, key: Key)
    requires Consistent(s) && WaitsWithKey(s, c, key) && CanLoop(s, d, reply) && !Pushes(s, PollLoop(d, reply), key)
    ensures WaitsWithKey(LoopStep(s, d, reply), c, key)
  {
    assert CheckoutOk(s, d) && CheckoutOk(s, c) && ChannelOk(s, c);
    var k := s.checkouts[d];
    if k.inner == Connected || reply.Handshake? {
      var id := if k.inner == Connected then k.connection.value else reply.conn;
      var made := if k.inner == Connected then s else Made(s, id, reply.shareable, k.key);
      if k.Attached() && s.alive && Shareable(made.net, id) {
        CompleteConsistent(made, s, d, Pooled(id, true, k.key, false));
        OtherPushKeepsWaiting(Complete(made, d, Pooled(id, true, k.key, false)), k.key, id, c, key);
      }
    }
  }

  /** Whoever stands first in the queue is the earliest waiter. */
  lemma FirstOpenIsEarliest(s: State, key: Key, c: CheckoutId)
    requires Consistent(s) && WaitsFor(s, c, key)
    ensures var q := Queue(s.pool, key); var i := FirstOpen(s.channels, q); i < |q| && EarliestWaiter(s, q[i], key)
  {
    var q := Queue(s.pool, key);
    var i := FirstOpen(s.channels, q);
    assert ChannelOk(s, c) && QueueOk(s, key);
    forall d | WaitsFor(s, d, key) ensures i < |q| && q[i] <= d {
      assert ChannelOk(s, d);
      var j :| 0 <= j < |q| && q[j] == d;
    }
    assert WaitsFor(s, q[i], key);
  }

  lemma DropPooledKeepsWaiting(s: State, h: HandleId, c: CheckoutId, key: Key)
    requires Consistent(s) && WaitsWithKey(s, c, key) && h in s.handles && !EndsWait(s, DropPooled(h), c, key)
    ensures WaitsWithKey(DropPooledStep(s, h), c, key)
  {
    HandleGoneConsistent(s, h);
    if Returns(s, s.handles[h]) {
      if s.handles[h].key != key {
        OtherPushKeepsWaiting(s.(handles := s.handles - {h}), s.handles[h].key, s.handles[h].conn, c, key);
      } else {
        FirstOpenIsEarliest(s, key, c);
        DroppedExclusive(s, h, Queue(s.pool, key)[FirstOpen(s.channels, Queue(s.pool, key))]);
      }
    }
  }

  lemma StartKeepsWaiting(s: State, k: Key, multiplex: bool, c: CheckoutId, key: Key)
    requires Consistent(s) && WaitsWithKey(s, c, key)
    ensures WaitsWithKey(StartCheckout(s, k, multiplex), c, key)
  {
  }

  lemma OtherKeepsWaiting(s: State, e: Event, c: CheckoutId, key: Key)
    requires Consistent(s) && WaitsWithKey(s, c, key) && Enabled(s, e)
    requires e.NewDetached? || e.SetOpen? || e.Tick? || e.PollStart?
    ensures WaitsWithKey(Step(s, e), c, key)
  {
  }

  lemma DropKeepsWaiting(s: State, e: Event, c: CheckoutId, key: Key)
    requires WaitsWithKey(s, c, key) && Enabled(s, e) && (e.BeginDrop? || e.EndDrop?) && e != EndDrop(c)
    ensures WaitsWithKey(Step(s, e), c, key)
  {
  }

  /** Nothing else ends the wait: neither polls of the waiter, nor new checkouts, failures, or connections for others. */
  lemma WaitGoesOn(s: State, e: Event, c: CheckoutId, key: Key)
    requires Consistent(s) && WaitsWithKey(s, c, key) && !EndsWait(s, e, c, key)
    ensures WaitsWithKey(Step(s, e), c, key)
  {
    if Enabled(s, e) {
      match e
      case NewCheckout(k, multiplex) => StartKeepsWaiting(s, k, multiplex, c, key);
      case PollLoop(d, reply) => LoopKeepsWaiting(s, d, reply, c, key);
      case DropPooled(h) => DropPooledKeepsWaiting(s, h, c, key);
      case BeginDrop(_) => DropKeepsWaiting(s, e, c, key);
      case EndDrop(_) => DropKeepsWaiting(s, e, c, key);
      case _ => OtherKeepsWaiting(s, e, c, key);
    }
  }

  lemma DropPoolServes(s: State, c: CheckoutId, key: Key)
    requires Consistent(s) && WaitsWithKey(s, c, key)
    ensures !WaitsWithKey(DropPoolStep(s), c, key)
  {
    assert ChannelOk(s, c);
  }

  lemma LoopServes(s: State, d: CheckoutId, reply: Reply, c: CheckoutId, key: Key)
    requires Consistent(s) && WaitsWithKey(s, c, key) && Pushes(s, PollLoop(d, reply), key)
    ensures !WaitsWithKey(LoopStep(s, d, reply), c, key)
  {
    assert CheckoutOk(s, d);
    var k := s.checkouts[d];
    var id := if k.inner == Connected then k.connection.value else reply.conn;
    var made := if k.inner == Connected then s else Made(s, id, true, key);
    CompleteConsistent(made, s, d, Pooled(id, true, key, false));
    SharedReachesEveryWaiter(Complete(made, d, Pooled(id, true, key, false)), key, id, c);
  }

  lemma DropPooledServes(s: State, h: HandleId, c: CheckoutId, key: Key)
    requires Consistent(s) && WaitsWithKey(s, c, key) && Pushes(s, DropPooled(h), key)
    requires Shareable(s.net, s.handles[h].conn) || EarliestWaiter(s, c, key)
    ensures !WaitsWithKey(DropPooledStep(s, h), c, key)
  {
    if Shareable(s.net, s.handles[h].conn) {
      HandleGoneConsistent(s, h);
      SharedReachesEveryWaiter(s.(handles := s.handles - {h}), key, s.handles[h].conn, c);
    } else {
      DroppedExclusive(s, h, c);
    }
  }

  /** The exact events that end the wait of a waiter without a connector. */
  lemma WaitEndsIff(s: State, e: Event, c: CheckoutId, key: Key)
    requires Consistent(s) && WaitsWithKey(s, c, key)
    ensures !WaitsWithKey(Step(s, e), c, key) <==> EndsWait(s, e, c, key)
  {
    if !EndsWait(s, e, c, key) {
      WaitGoesOn(s, e, c, key);
    } else {
      match e
      case DropPool => DropPoolServes(s, c, key);
      case PollLoop(d, reply) => LoopServes(s, d, reply, c, key);
      case DropPooled(h) => DropPooledServes(s, h, c, key);
      case EndDrop(_) =>
    }
  }

  // ---------------------------------------------------------------------------------------------
  // A wait that ended does not begin again
  // ---------------------------------------------------------------------------------------------

  lemma PushResumesNothing(s: State, key: Key, id: ConnId, c: CheckoutId, k: Key)
    requires WaitsWithKey(Push(s, key, id), c, k)
    ensures WaitsWithKey(s, c, k)
  {
  }

  lemma LoopResumesNothing(s: State, d: CheckoutId, reply: Reply, c: CheckoutId, key: Key)
    requires CanLoop(s, d, reply) && CheckoutOk(s, d) && WaitsWithKey(LoopStep(s, d, reply), c, key)
    ensures WaitsWithKey(s, c, key)
  {
    var k := s.checkouts[d];
    if k.inner == Connected || reply.Handshake? {
      var id := if k.inner == Connected then k.connection.value else reply.conn;
      var made := if k.inner == Connected then s else Made(s, id, reply.shareable, k.key);
      if k.Attached() && s.alive && Shareable(made.net, id) {
        PushResumesNothing(Complete(made, d, Pooled(id, true, k.key, false)), k.key, id, c, key);
      }
    }
  }

  lemma StartResumesNothing(s: State, k: Key, multiplex: bool, c: CheckoutId, key: Key)
    requires c < s.nextCheckout && WaitsWithKey(StartCheckout(s, k, multiplex), c, key)
    ensures WaitsWithKey(s, c, key)
  {
  }

  lemma OtherResumesNothing(s: State, e: Event, c: CheckoutId, key: Key)
    requires Enabled(s, e) && c < s.nextCheckout && WaitsWithKey(Step(s, e), c, key)
    requires e.NewDetached? || e.SetOpen? || e.Tick? || e.DropPool? || e.PollStart? || e.BeginDrop? || e.EndDrop?
    ensures WaitsWithKey(s, c, key)
  {
  }

  lemma StepResumesNothing(s: State, e: Event, c: CheckoutId, key: Key)
    requires Consistent(s) && c < s.nextCheckout && WaitsWithKey(Step(s, e), c, key)
    ensures WaitsWithKey(s, c, key)
  {
    if Enabled(s, e) {
      match e
      case NewCheckout(k, multiplex) => StartResumesNothing(s, k, multiplex, c, key);
      case PollLoop(d, reply) => LoopResumesNothing(s, d, reply, c, key);
      case DropPooled(h) =>
        if Returns(s, s.handles[h]) {
          PushResumesNothing(s.(handles := s.handles - {h}), s.handles[h].key, s.handles[h].conn, c, key);
        }
      case _ => OtherResumesNothing(s, e, c, key);
    }
  }

  lemma CheckoutsGrow(s: State, e: Event)
    ensures s.nextCheckout <= Step(s, e).nextCheckout
  {
  }

  ghost predicate EndsAt(timeout: Option<Time>, run: seq<Event>, j: nat, c: CheckoutId, key: Key)
    requires j < |run|
  {
    EndsWait(Exec(timeout, run[..j]), run[j], c, key)
  }

  /** The run from step `i` on holds no event that ends the wait. */
  ghost predicate Undisturbed(timeout: Option<Time>, run: seq<Event>, i: nat, c: CheckoutId, key: Key) {
    forall j: nat :: i <= j < |run| ==> !EndsAt(timeout, run, j, c, key)
  }

  lemma EndsAtPrefix(timeout: Option<Time>, run: seq<Event>, n: nat, j: nat, c: CheckoutId, key: Key)
    requires j < n <= |run|
    ensures EndsAt(timeout, run[..n], j, c, key) == EndsAt(timeout, run, j, c, key)
  {
    assert run[..n][..j] == run[..j];
  }

  lemma UndisturbedIff(timeout: Option<Time>, run: seq<Event>, i: nat, c: CheckoutId, key: Key)
    requires i < |run|
    ensures Undisturbed(timeout, run, i, c, key) <==>
      Undisturbed(timeout, run[..|run| - 1], i, c, key) && !EndsAt(timeout, run, |run| - 1, c, key)
  {
    var n := |run| - 1;
    forall j: nat | i <= j < n ensures EndsAt(timeout, run[..n], j, c, key) == EndsAt(timeout, run, j, c, key) {
      EndsAtPrefix(timeout, run, n, j, c, key);
    }
  }

  /** One more step. */
  lemma WaitsStep(s: State, e: Event, c: CheckoutId, key: Key)
    requires Consistent(s) && c < s.nextCheckout
    ensures WaitsWithKey(Step(s, e), c, key) <==> WaitsWithKey(s, c, key) && !EndsWait(s, e, c, key)
    ensures c < Step(s, e).nextCheckout
  {
    CheckoutsGrow(s, e);
    if WaitsWithKey(s, c, key) {
      WaitEndsIff(s, e, c, key);
    } else if WaitsWithKey(Step(s, e), c, key) {
      StepResumesNothing(s, e, c, key);
    }
  }

  /** Over every run, a waiter without a connector still waits exactly if none of the events that end its wait came. */
  lemma {:induction false} WaitsIff(timeout: Option<Time>, run: seq<Event>, i: nat, c: CheckoutId, key: Key)
    requires i <= |run| && WaitsWithKey(Exec(timeout, run[..i]), c, key)
    ensures WaitsWithKey(Exec(timeout, run), c, key) <==> Undisturbed(timeout, run, i, c, key)
    ensures c < Exec(timeout, run).nextCheckout
    decreases |run|
  {
    if i == |run| {
      assert run[..i] == run;
      ExecConsistent(timeout, run);
    } else {
      var n := |run| - 1;
      assert run[..n][..i] == run[..i];
      WaitsIff(timeout, run[..n], i, c, key);
      ExecConsistent(timeout, run[..n]);
      UndisturbedIff(timeout, run, i, c, key);
      WaitsStep(Exec(timeout, run[..n]), run[n], c, key);
    }
  }

  /** The end of the pool does end every wait, with `Unavailable` at the next poll. */
  lemma PoolGoneEndsWait(s: State, c: CheckoutId, key: Key)
    requires Consistent(s) && s.alive && WaitsWithKey(s, c, key) && CanPoll(s, c)
    ensures var polled := Step(Step(Step(s, DropPool), PollStart(c)), PollLoop(c, Nothing));
      polled.checkouts[c].outcome == Some(Unavailable)
  {
    assert ChannelOk(s, c) && CheckoutOk(s, c);
    assert Step(s, DropPool).channels[c] == SenderDropped;
  }
}
