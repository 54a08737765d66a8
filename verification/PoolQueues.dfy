/** Bookkeeping invariant of the pool: waiter queues, channels and the phases of checkouts agree. */
module PoolQueues {
  import opened Wrappers
  import opened IdleList
  import opened PoolState

  /** A queue holds its senders in registration order, each once, and each open one belongs here and is unserved. */
  ghost predicate QueueOk(s: State, key: Key) {
    var q := Queue(s.pool, key);
    && (forall i, j :: 0 <= i < j < |q| ==> q[i] < q[j])
    && (forall i :: 0 <= i < |q| ==> q[i] < s.nextCheckout)
    && (forall i :: 0 <= i < |q| && q[i] in s.channels ==>
          s.channels[q[i]] == Pending && q[i] in s.checkouts && s.checkouts[q[i]].key == key)
  }

  ghost predicate ChannelOk(s: State, c: CheckoutId)
    requires c in s.checkouts && c in s.channels
  {
    var k := s.checkouts[c];
    match s.channels[c]
    case Pending => k.inner != Connected && c in Queue(s.pool, k.key)
    case Sent(p) => k.inner != Connected && p.key == k.key
    case Taken => k.outcome.Some?
    case SenderDropped => k.inner == Connected || !s.alive
  }

  ghost predicate CheckoutOk(s: State, c: CheckoutId)
    requires c in s.checkouts
  {
    var k := s.checkouts[c];
    && (k.inner == Waiting <==> k.waiter == WaitConnecting)
    && (k.inner == Connected ==> k.Attached())
    && (k.connection.Some? <==> k.inner == Connected && k.outcome == None)
    && (k.polling ==> k.outcome == None && !k.dropping)
    && (k.polling && k.inner == Waiting ==> !s.alive)
    && (k.outcome == Some(Unavailable) ==> !s.alive)
    && (k.outcome.Some? && k.outcome.value.Delivered? ==>
          var h := k.outcome.value.handle;
          h < s.nextHandle && (h in s.handles ==> s.handles[h].key == k.key))
  }

  ghost predicate QueuesOk(s: State) {
    && (!s.alive ==> s.pool == NO_TABLES)
    && (forall key :: key in s.pool.waiting ==> QueueOk(s, key))
  }

  ghost predicate ChannelsOk(s: State) {
    && (forall c :: c in s.channels <==> c in s.checkouts && s.checkouts[c].Attached())
    && (forall c :: c in s.channels ==> ChannelOk(s, c))
  }

  ghost predicate CheckoutsOk(s: State) {
    && (forall c :: c in s.checkouts ==> c < s.nextCheckout)
    && (forall c :: c in s.checkouts ==> CheckoutOk(s, c))
    && (forall h :: h in s.handles ==> h < s.nextHandle)
  }

  ghost predicate Consistent(s: State) {
    QueuesOk(s) && ChannelsOk(s) && CheckoutsOk(s)
  }

  /** A queue names a checkout at most once. */
  lemma QueuedOnce(s: State, key: Key, i: nat, j: nat)
    requires Consistent(s)
    requires i < |Queue(s.pool, key)| && j < |Queue(s.pool, key)| && Queue(s.pool, key)[i] == Queue(s.pool, key)[j]
    ensures i == j
  {
  }

  // ---------------------------------------------------------------------------------------------
  // Push
  // ---------------------------------------------------------------------------------------------

  /** The shape shared by every way of serving waiters: the first `n` senders are used up, the open ones among them sent. */
  ghost predicate Serves(s: State, s': State, key: Key, n: nat, p: Pooled) {
    && n <= |Queue(s.pool, key)| && p.key == key
    && s' == s.(pool := s'.pool, channels := s'.channels)
    && s'.pool.waiting == SetQueue(s.pool, key, Queue(s.pool, key)[n..]).waiting
    && s'.channels.Keys == s.channels.Keys
    && (forall c :: c in s.channels ==> s'.channels[c] == if c in Queue(s.pool, key)[..n] then Sent(p) else s.channels[c])
  }

  lemma ServesQueues(s: State, s': State, key: Key, n: nat, p: Pooled)
    requires Consistent(s) && s.alive && Serves(s, s', key, n, p)
    ensures QueuesOk(s')
  {
    var q := Queue(s.pool, key);
    assert key in s.pool.waiting ==> QueueOk(s, key);
    forall k | k in s'.pool.waiting ensures QueueOk(s', k) {
      assert QueueOk(s, k);
      if k == key {
        assert Queue(s'.pool, k) == q[n..];
      }
    }
  }

  lemma ServesChannels(s: State, s': State, key: Key, n: nat, p: Pooled)
    requires Consistent(s) && s.alive && Serves(s, s', key, n, p)
    ensures ChannelsOk(s')
  {
  }

  lemma ServesConsistent(s: State, s': State, key: Key, n: nat, p: Pooled)
    requires Consistent(s) && s.alive && Serves(s, s', key, n, p)
    ensures Consistent(s')
  {
    ServesQueues(s, s', key, n, p);
    ServesChannels(s, s', key, n, p);
    forall c | c in s'.checkouts ensures CheckoutOk(s', c) { assert CheckoutOk(s, c); }
  }

  /** How many senders a push uses up. */
  function Used(s: State, key: Key, id: ConnId): nat {
    var q := Queue(s.pool, key);
    var i := FirstOpen(s.channels, q);
    if !Shareable(s.net, id) && i < |q| then i + 1 else |q|
  }

  lemma PushServes(s: State, key: Key, id: ConnId)
    ensures Serves(s, Push(s, key, id), key, Used(s, key, id), Pooled(id, Shareable(s.net, id), key, true))
  {
    var q := Queue(s.pool, key);
    var i := FirstOpen(s.channels, q);
    assert q[..|q|] == q && q[|q|..] == [];
    if !Shareable(s.net, id) && i < |q| {
      assert q[..i + 1] == q[..i] + [q[i]];
    }
  }

  lemma PushConsistent(s: State, key: Key, id: ConnId)
    requires Consistent(s) && s.alive
    ensures Consistent(Push(s, key, id))
  {
    PushServes(s, key, id);
    ServesConsistent(s, Push(s, key, id), key, Used(s, key, id), Pooled(id, Shareable(s.net, id), key, true));
  }

  // ---------------------------------------------------------------------------------------------
  // The other steps
  // ---------------------------------------------------------------------------------------------

  /** A step that rewrites one checkout, may unqueue nothing, and may only add handles. */
  ghost predicate Updates(s: State, s': State, c: CheckoutId) {
    && c in s.checkouts && c in s'.checkouts
    && s' == s.(pool := s.pool.(connecting := s'.pool.connecting), checkouts := s.checkouts[c := s'.checkouts[c]],
                channels := s'.channels, handles := s'.handles, net := s'.net, nextHandle := s'.nextHandle)
    && (!s.alive ==> s'.pool == s.pool)
    && s'.nextHandle >= s.nextHandle
    && (forall h :: h in s'.handles ==> if h in s.handles then s'.handles[h] == s.handles[h] else s.nextHandle <= h < s'.nextHandle)
    && s'.checkouts[c].key == s.checkouts[c].key && s'.checkouts[c].Attached() == s.checkouts[c].Attached()
    && (s'.channels == s.channels || (c in s.channels && s.channels[c].Sent? && s'.channels == s.channels[c := Taken]))
  }

  lemma UpdateQueues(s: State, s': State, c: CheckoutId)
    requires Consistent(s) && Updates(s, s', c)
    ensures QueuesOk(s')
  {
    forall k | k in s'.pool.waiting ensures QueueOk(s', k) { assert QueueOk(s, k); }
  }

  lemma UpdateChannels(s: State, s': State, c: CheckoutId)
    requires Consistent(s) && Updates(s, s', c) && (c in s.channels ==> ChannelOk(s', c))
    ensures ChannelsOk(s')
  {
    forall d | d in s'.channels ensures ChannelOk(s', d) { assert ChannelOk(s, d); }
  }

  lemma UpdateConsistent(s: State, s': State, c: CheckoutId)
    requires Consistent(s) && Updates(s, s', c) && (c in s.channels ==> ChannelOk(s', c)) && CheckoutOk(s', c)
    ensures Consistent(s')
  {
    UpdateQueues(s, s', c);
    UpdateChannels(s, s', c);
    forall d | d in s'.checkouts ensures CheckoutOk(s', d) { assert CheckoutOk(s, d); }
  }

  /** Registering the next checkout, with or without a queued sender. */
  lemma NewConsistent(s: State, pool: PoolInner, k: Checkout, channel: Channel)
    requires Consistent(s) && s.alive
    requires channel == Pending ==> pool.waiting == s.pool.waiting[k.key := Queue(s.pool, k.key) + [s.nextCheckout]]
    requires channel != Pending ==> pool.waiting == s.pool.waiting
    requires k.outcome == None && !k.polling && !k.dropping && k.Attached()
    requires if k.inner == Connected then channel == SenderDropped else channel == Pending
    requires k.connection.Some? <==> k.inner == Connected
    requires k.inner == Waiting <==> k.waiter == WaitConnecting
    ensures Consistent(NewState(s, pool, k, channel))
  {
    var s' := NewState(s, pool, k, channel);
    NewQueues(s, pool, k, channel);
    NewChannels(s, pool, k, channel);
    forall c | c in s'.checkouts ensures CheckoutOk(s', c) {
      assert c != s.nextCheckout ==> CheckoutOk(s, c);
    }
  }

  lemma NewQueue(s: State, pool: PoolInner, k: Checkout, channel: Channel)
    requires Consistent(s) && s.alive && channel == Pending
    requires pool.waiting == s.pool.waiting[k.key := Queue(s.pool, k.key) + [s.nextCheckout]]
    ensures QueueOk(NewState(s, pool, k, channel), k.key)
  {
    if k.key in s.pool.waiting { assert QueueOk(s, k.key); }
  }

  lemma OtherQueue(s: State, pool: PoolInner, k: Checkout, channel: Channel, key: Key)
    requires Consistent(s) && key in s.pool.waiting && Queue(pool, key) == s.pool.waiting[key]
    ensures QueueOk(NewState(s, pool, k, channel), key)
  {
    assert QueueOk(s, key);
  }

  lemma NewQueues(s: State, pool: PoolInner, k: Checkout, channel: Channel)
    requires Consistent(s) && s.alive
    requires channel == Pending ==> pool.waiting == s.pool.waiting[k.key := Queue(s.pool, k.key) + [s.nextCheckout]]
    requires channel != Pending ==> pool.waiting == s.pool.waiting
    ensures QueuesOk(NewState(s, pool, k, channel))
  {
    var s' := NewState(s, pool, k, channel);
    forall key | key in s'.pool.waiting ensures QueueOk(s', key) {
      if channel == Pending && key == k.key {
        NewQueue(s, pool, k, channel);
      } else {
        OtherQueue(s, pool, k, channel, key);
      }
    }
  }

  lemma NewChannels(s: State, pool: PoolInner, k: Checkout, channel: Channel)
    requires Consistent(s) && s.alive && k.Attached()
    requires channel == Pending ==> pool.waiting == s.pool.waiting[k.key := Queue(s.pool, k.key) + [s.nextCheckout]]
    requires channel != Pending ==> pool.waiting == s.pool.waiting
    requires if k.inner == Connected then channel == SenderDropped else channel == Pending
    ensures ChannelsOk(NewState(s, pool, k, channel))
  {
  }

  lemma ReserveConsistent(s: State, key: Key, id: ConnId)
    requires Consistent(s) && s.alive
    ensures Consistent(Reserve(s, key, id))
  {
    var s' := Reserve(s, key, id);
    NewConsistent(s, s'.pool, s'.checkouts[s.nextCheckout], SenderDropped);
  }

  lemma RegisterConsistent(s: State, key: Key, multiplex: bool)
    requires Consistent(s) && s.alive
    ensures Consistent(Register(s, key, multiplex))
  {
    var s' := Register(s, key, multiplex);
    NewConsistent(s, s'.pool, s'.checkouts[s.nextCheckout], Pending);
  }

  lemma CompleteConsistent(s: State, s0: State, c: CheckoutId, x: Pooled)
    requires Consistent(s0) && s == s0.(net := s.net)
    requires c in s.checkouts && s.checkouts[c].polling && s.checkouts[c].inner in {Connected, Handshaking}
    requires x.key == s.checkouts[c].key
    ensures Consistent(Complete(s, c, x))
  {
    assert CheckoutOk(s0, c);
    assert c in s0.channels ==> ChannelOk(s0, c);
    UpdateConsistent(s0, Complete(s, c, x), c);
  }

  lemma FinishConsistent(s: State, s0: State, c: CheckoutId, id: ConnId)
    requires Consistent(s0) && s == s0.(net := s.net)
    requires c in s.checkouts && s.checkouts[c].polling && s.checkouts[c].inner in {Connected, Handshaking}
    ensures Consistent(Finish(s, c, id))
  {
    var k := s.checkouts[c];
    var pooled := k.Attached() && s.alive;
    if pooled && Shareable(s.net, id) {
      CompleteConsistent(s, s0, c, Pooled(id, true, k.key, false));
      PushConsistent(Complete(s, c, Pooled(id, true, k.key, false)), k.key, id);
    } else {
      CompleteConsistent(s, s0, c, Pooled(id, false, k.key, pooled));
    }
  }

  lemma LoopConsistent(s: State, c: CheckoutId, reply: Reply)
    requires Consistent(s) && CanLoop(s, c, reply)
    ensures Consistent(LoopStep(s, c, reply))
  {
    var k := s.checkouts[c];
    assert CheckoutOk(s, c);
    assert c in s.channels ==> ChannelOk(s, c);
    if k.inner == Connected {
      FinishConsistent(s, s, c, k.connection.value);
    } else if reply.Handshake? {
      FinishConsistent(Made(s, reply.conn, reply.shareable, k.key), s, c, reply.conn);
    } else {
      UpdateConsistent(s, Turn(s, c, reply), c);
    }
  }

  lemma PollConsistent(s: State, c: CheckoutId)
    requires Consistent(s) && CanPoll(s, c)
    ensures Consistent(WaiterStep(s, c))
  {
    assert CheckoutOk(s, c);
    assert c in s.channels ==> ChannelOk(s, c);
    UpdateConsistent(s, WaiterStep(s, c), c);
  }

  lemma BeginDropConsistent(s: State, c: CheckoutId)
    requires Consistent(s) && CanDrop(s, c)
    ensures Consistent(BeginDropStep(s, c))
  {
    assert CheckoutOk(s, c);
    assert c in s.channels ==> ChannelOk(s, c);
    UpdateConsistent(s, BeginDropStep(s, c), c);
  }

  lemma CheckoutGoneConsistent(s: State, c: CheckoutId)
    requires Consistent(s)
    ensures Consistent(s.(checkouts := s.checkouts - {c}, channels := s.channels - {c}))
  {
    var s' := s.(checkouts := s.checkouts - {c}, channels := s.channels - {c});
    forall k | k in s'.pool.waiting ensures QueueOk(s', k) { assert QueueOk(s, k); }
    forall d | d in s'.channels ensures ChannelOk(s', d) { assert ChannelOk(s, d); }
    forall d | d in s'.checkouts ensures CheckoutOk(s', d) { assert CheckoutOk(s, d); }
  }

  lemma NewHandleConsistent(s: State, x: Pooled)
    requires Consistent(s)
    ensures Consistent(AddHandle(s, x))
  {
    var s' := AddHandle(s, x);
    forall k | k in s'.pool.waiting ensures QueueOk(s', k) { assert QueueOk(s, k); }
    forall d | d in s'.channels ensures ChannelOk(s', d) { assert ChannelOk(s, d); }
    forall d | d in s'.checkouts ensures CheckoutOk(s', d) { assert CheckoutOk(s, d); }
  }

  lemma EndDropConsistent(s: State, c: CheckoutId)
    requires Consistent(s) && c in s.checkouts && s.checkouts[c].dropping
    ensures Consistent(EndDropStep(s, c))
  {
    CheckoutGoneConsistent(s, c);
    if c in s.channels && s.channels[c].Sent? {
      NewHandleConsistent(s.(checkouts := s.checkouts - {c}, channels := s.channels - {c}), s.channels[c].value);
    }
  }

  lemma HandleGoneConsistent(s: State, h: HandleId)
    requires Consistent(s)
    ensures Consistent(s.(handles := s.handles - {h}))
  {
  }

  lemma DropPooledConsistent(s: State, h: HandleId)
    requires Consistent(s) && h in s.handles
    ensures Consistent(DropPooledStep(s, h))
  {
    HandleGoneConsistent(s, h);
    if Returns(s, s.handles[h]) {
      PushConsistent(s.(handles := s.handles - {h}), s.handles[h].key, s.handles[h].conn);
    }
  }

  lemma DropPoolConsistent(s: State)
    requires Consistent(s) && s.alive
    ensures Consistent(DropPoolStep(s))
  {
  }

  lemma NetConsistent(s: State, net: Net)
    requires Consistent(s)
    ensures Consistent(s.(net := net))
  {
  }

  lemma DetachedConsistent(s: State, key: Key)
    requires Consistent(s)
    ensures Consistent(StartDetached(s, key))
  {
    var s' := StartDetached(s, key);
    forall k | k in s'.pool.waiting ensures QueueOk(s', k) { assert QueueOk(s, k); }
    forall d | d in s'.channels ensures ChannelOk(s', d) { assert ChannelOk(s, d); }
    forall d | d in s'.checkouts ensures CheckoutOk(s', d) {
      assert d in s.checkouts ==> CheckoutOk(s, d);
    }
  }

  lemma StepConsistent(s: State, e: Event)
    requires Consistent(s)
    ensures Consistent(Step(s, e))
  {
    if Enabled(s, e) {
      match e
      case NewCheckout(key, multiplex) =>
        if PopResult(s, key).Some? {
          ReserveConsistent(s, key, PopResult(s, key).value);
        } else {
          RegisterConsistent(s, key, multiplex);
        }
      case PollStart(c) => PollConsistent(s, c);
      case PollLoop(c, reply) => LoopConsistent(s, c, reply);
      case BeginDrop(c) => BeginDropConsistent(s, c);
      case EndDrop(c) => EndDropConsistent(s, c);
      case DropPooled(h) => DropPooledConsistent(s, h);
      case DropPool => DropPoolConsistent(s);
      case NewDetached(key) => DetachedConsistent(s, key);
      case SetOpen(_, _) => NetConsistent(s, Step(s, e).net);
      case Tick(_) => NetConsistent(s, Step(s, e).net);
    }
  }

  /** In every run, queues, channels and checkouts agree. */
  lemma {:induction false} ExecConsistent(timeout: Option<Time>, run: seq<Event>)
    ensures Consistent(Exec(timeout, run))
  {
    if |run| > 0 {
      ExecConsistent(timeout, run[..|run| - 1]);
      StepConsistent(Exec(timeout, run[..|run| - 1]), run[|run| - 1]);
    }
  }
}
