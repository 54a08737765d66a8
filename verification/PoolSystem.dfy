/** The pool as the program runs it: fields updated in place, loops, and one call of `Checkout::poll` at a time. */
module PoolSystem {
  import opened Wrappers
  import opened IdleList
  import S = PoolState
  import Q = PoolQueues
  import O = PoolService
  import W = PoolOwnership
  import A = PoolAnswers

  type Key = S.Key
  type CheckoutId = S.CheckoutId
  type HandleId = S.HandleId

  /** What the environment answers within one poll call. */
  datatype Replies = Replies(transport: S.Reply, handshake: S.Reply)

  predicate RepliesOk(r: Replies, net: S.Net) {
    && (r.transport.NotReady? || r.transport.Failed? || r.transport.Transport?)
    && (r.handshake.NotReady? || r.handshake.Failed? || (r.handshake.Handshake? && r.handshake.conn !in net.conns))
  }

  function ReplyFor(k: S.Checkout, r: Replies): S.Reply {
    match k.inner
    case Connecting => r.transport
    case Handshaking => r.handshake
    case _ => S.Nothing
  }

  function NextTurn(s: S.State, c: CheckoutId, r: Replies): S.State
    requires c in s.checkouts
  {
    S.Step(s, S.PollLoop(c, ReplyFor(s.checkouts[c], r)))
  }

  /** Turns of the poll loop until it returns, at most `n` of them. */
  function Turns(s: S.State, c: CheckoutId, r: Replies, n: nat): S.State
    decreases n
  {
    if n == 0 || c !in s.checkouts || !s.checkouts[c].polling then s
    else Turns(NextTurn(s, c, r), c, r, n - 1)
  }

  /** One poll call, undisturbed: the waiter check, then at most a transport turn and a handshake turn. */
  function PollCall(s: S.State, c: CheckoutId, r: Replies): S.State {
    Turns(S.Step(s, S.PollStart(c)), c, r, 2)
  }

  class Pool {
    var alive: bool
    const timeout: Option<Time>
    var connecting: set<Key>
    var waiting: map<Key, seq<CheckoutId>>
    var idle: map<Key, seq<Idle>>
    var channels: map<CheckoutId, S.Channel>
    var checkouts: map<CheckoutId, S.Checkout>
    var handles: map<HandleId, S.Pooled>
    var net: S.Net
    var nextCheckout: CheckoutId
    var nextHandle: HandleId

    ghost function View(): S.State
      reads this
    {
      S.State(alive, timeout, S.PoolInner(connecting, waiting, idle), channels, checkouts, handles, net, nextCheckout, nextHandle)
    }

    ghost predicate Valid()
      reads this
    {
      ValidState(View())
    }

    constructor (timeout: Option<Time>)
      ensures View() == S.Init(timeout) && Valid()
    {
      this.alive, this.timeout := true, timeout;
      this.connecting, this.waiting, this.idle := {}, map[], map[];
      this.channels, this.checkouts, this.handles := map[], map[], map[];
      this.net := S.Net(0, map[], {});
      this.nextCheckout, this.nextHandle := 0, 0;
    }

    // -------------------------------------------------------------------------------------------
    // PoolInner
    // -------------------------------------------------------------------------------------------

    method CancelConnection(key: Key)
      modifies this`connecting
      ensures View() == old(View()).(pool := S.Unmark(old(View()).pool, key))
    {
      connecting := connecting - {key};
    }

    method ConnectedInHandshake(key: Key)
      modifies this`connecting
      ensures View() == old(View()).(pool := S.Mark(old(View()).pool, key))
    {
      connecting := connecting + {key};
    }

    method StoreIdle(key: Key, id: ConnId)
      requires O.IdleOrdered(View())
      modifies this`idle
      ensures View() == old(View()).(pool := S.Store(old(View()).pool, key, id, net.now))
    {
      var list := new IdleConnections(if key in idle then idle[key] else []);
      list.Push(id, net.now);
      idle := idle[key := list.inner];
    }

    /**
     * Walks the waiters of the key from the front, skipping closed ones. An exclusive connection is `sent` to the
     * first open waiter; a multiplexed one goes to all of them.
     */
    method WalkWaiters(key: Key, id: ConnId, reusable: bool) returns (sent: bool)
      requires key in waiting
      modifies this`waiting, this`channels
      ensures var q := old(waiting[key]); var i := S.FirstOpen(old(channels), q);
        && sent == (!reusable && i < |q|)
        && waiting == old(waiting)[key := if sent then q[i + 1..] else []]
        && channels == if reusable then S.Broadcast(old(channels), q, S.Pooled(id, true, key, true))
                       else if sent then old(channels)[q[i] := S.Sent(S.Pooled(id, false, key, true))]
                       else old(channels)
    {
      ghost var waiting0, channels0 := waiting, channels;
      ghost var q := waiting[key];
      ghost var n := 0;
      ghost var x := S.Pooled(id, true, key, true);
      assert waiting == waiting0[key := q[0..]] && S.Broadcast(channels, q[..0], x) == channels;
      while |waiting[key]| > 0
        invariant 0 <= n <= |q| && key in waiting && waiting == waiting0[key := q[n..]]
        invariant channels == if reusable then S.Broadcast(channels0, q[..n], x) else channels0
        invariant !reusable ==> forall j :: 0 <= j < n ==> q[j] !in channels0
        decreases |q| - n
      {
        var waiter := waiting[key][0];
        waiting := waiting[key := waiting[key][1..]];
        BroadcastOne(channels0, q, n, x);
        n := n + 1;
        if waiter !in channels {
          continue;
        }
        if reusable {
          channels := channels[waiter := S.Sent(S.Pooled(id, true, key, true))];
        } else {
          channels := channels[waiter := S.Sent(S.Pooled(id, false, key, true))];
          FirstOpenIs(channels0, q, n - 1);
          return true;
        }
      }
      assert q[..n] == q && q[n..] == [];
      if !reusable { FirstOpenIs(channels0, q, n); }
      sent := false;
    }

    method Push(key: Key, id: ConnId)
      requires O.IdleOrdered(View())
      modifies this`connecting, this`waiting, this`idle, this`channels
      ensures View() == S.Push(old(View()), key, id)
    {
      ghost var s := View();
      connecting := connecting - {key};
      if key in waiting {
        var sent := WalkWaiters(key, id, id in net.conns && net.conns[id].shareable);
        if sent {
          PushSends(s, key, id);
          return;
        }
      }
      PushKeeps(s, key, id);
      StoreIdle(key, id);
    }

    method PopIdle(key: Key) returns (entry: Option<ConnId>)
      requires O.IdleOrdered(View())
      modifies this`idle
      ensures entry == S.PopResult(old(View()), key)
      ensures View() == old(View()).(pool := old(View()).pool.(idle := S.PopIdle(old(View()), key)))
    {
      var empty := false;
      entry := None;
      if key in idle {
        assert Ordered(idle[key], net.now);
        var list := new IdleConnections(idle[key]);
        entry := list.Pop(timeout, net.now, net.open);
        idle := idle[key := list.inner];
        empty := |list.inner| == 0;
      }
      if empty && !(entry.Some? && entry.value in net.conns && net.conns[entry.value].shareable) {
        idle := idle - {key};
      }
    }

    // -------------------------------------------------------------------------------------------
    // Checkouts
    // -------------------------------------------------------------------------------------------

    method Register(key: Key, k: S.Checkout, channel: S.Channel) returns (c: CheckoutId)
      modifies this`checkouts, this`channels, this`nextCheckout
      ensures c == old(nextCheckout)
      ensures View() == S.NewState(old(View()), old(View()).pool, k, channel)
    {
      c := nextCheckout;
      checkouts := checkouts[c := k];
      channels := channels[c := channel];
      nextCheckout := nextCheckout + 1;
    }

    method Checkout(key: Key, multiplex: bool) returns (c: CheckoutId)
      requires Valid() && alive
      modifies this
      ensures Valid()
      ensures c == old(nextCheckout)
      ensures View() == S.Step(old(View()), S.NewCheckout(key, multiplex))
      ensures A.CheckoutStarted(old(View()), View(), key, multiplex)
    {
      A.StartCheckoutIs(View(), key, multiplex);
      StepValid(View(), S.NewCheckout(key, multiplex));
      c := StartCheckout(key, multiplex);
    }

    method StartCheckout(key: Key, multiplex: bool) returns (c: CheckoutId)
      requires O.IdleOrdered(View())
      modifies this
      ensures c == old(nextCheckout)
      ensures View() == S.StartCheckout(old(View()), key, multiplex)
    {
      var found := PopIdle(key);
      if found.Some? {
        c := Register(key, S.Checkout(key, S.WaitIdle, S.Connected, found, false, None, false), S.SenderDropped);
        return;
      }
      waiting := waiting[key := (if key in waiting then waiting[key] else []) + [nextCheckout]];
      if key in connecting {
        c := Register(key, S.Checkout(key, S.WaitConnecting, S.Waiting, None, false, None, false), S.Pending);
      } else {
        if multiplex {
          connecting := connecting + {key};
        }
        c := Register(key, S.Checkout(key, S.WaitIdle, S.Connecting, None, false, None, false), S.Pending);
      }
    }

    /** Registers a new connection with the pool and wraps it for the caller. */
    method Connected(c: CheckoutId, id: ConnId)
      requires c in checkouts && O.IdleOrdered(View())
      modifies this
      ensures View() == S.Finish(old(View()), c, id)
    {
      var k := checkouts[c];
      var pooled := k.Attached() && alive;
      var reusable := pooled && id in net.conns && net.conns[id].shareable;
      handles := handles[nextHandle := S.Pooled(id, reusable, k.key, pooled && !reusable)];
      checkouts := checkouts[c := k.(connection := None, outcome := Some(S.Delivered(nextHandle)), polling := false)];
      nextHandle := nextHandle + 1;
      if reusable {
        Push(k.key, id);
      }
    }

    method Resolve(c: CheckoutId, outcome: S.Outcome)
      requires c in checkouts
      modifies this`checkouts
      ensures View() == S.Resolve(old(View()), c, outcome)
    {
      checkouts := checkouts[c := checkouts[c].(outcome := Some(outcome), polling := false)];
    }

    /** The waiter is polled first; `done` tells whether the call returns here. */
    method PollWaiter(c: CheckoutId) returns (done: bool)
      requires S.CanPoll(View(), c)
      modifies this
      ensures View() == S.WaiterStep(old(View()), c)
      ensures done == !checkouts[c].polling
    {
      if c in channels {
        match channels[c]
        case Sent(x) =>
          handles := handles[nextHandle := x];
          checkouts := checkouts[c := checkouts[c].(outcome := Some(S.Delivered(nextHandle)))];
          nextHandle := nextHandle + 1;
          channels := channels[c := S.Taken];
          return true;
        case Pending =>
          if checkouts[c].waiter == S.WaitConnecting { return true; }
        case _ =>
      }
      checkouts := checkouts[c := checkouts[c].(polling := true)];
      done := false;
    }

    /** One turn of the loop. */
    method PollTurn(c: CheckoutId, r: Replies)
      requires c in checkouts && S.CanLoop(View(), c, ReplyFor(checkouts[c], r)) && O.IdleOrdered(View())
      modifies this
      ensures View() == S.LoopStep(old(View()), c, ReplyFor(old(checkouts[c]), r))
    {
      var k := checkouts[c];
      match k.inner
      case Waiting => Resolve(c, S.Unavailable);
      case Connected => Connected(c, k.connection.value);
      case Connecting =>
        match r.transport {
          case NotReady => checkouts := checkouts[c := k.(polling := false)];
          case Transport(canShare) =>
            if canShare && k.Attached() && alive { ConnectedInHandshake(k.key); }
            checkouts := checkouts[c := k.(inner := S.Handshaking)];
          case Failed => Resolve(c, S.ConnectFailed);
          case _ =>
        }
      case Handshaking =>
        match r.handshake {
          case NotReady => checkouts := checkouts[c := k.(polling := false)];
          case Handshake(id, shareable) =>
            net := S.Net(net.now, net.conns[id := S.ConnInfo(shareable, k.key)], net.open + {id});
            Connected(c, id);
          case Failed => Resolve(c, S.HandshakeFailed);
          case _ =>
        }
    }

    /** A turn from a valid state: the loop goes round again only from the transport to the handshake. */
    method PollTurnValid(c: CheckoutId, r: Replies) returns (done: bool)
      requires Valid() && c in checkouts && checkouts[c].polling && RepliesOk(r, net)
      modifies this
      ensures Valid() && c in checkouts && done == !checkouts[c].polling
      ensures View() == NextTurn(old(View()), c, r)
      ensures !done ==> old(checkouts[c]).inner == S.Connecting && checkouts[c].inner == S.Handshaking && RepliesOk(r, net)
    {
      TurnIs(View(), c, r);
      StepValid(View(), S.PollLoop(c, ReplyFor(checkouts[c], r)));
      PollTurn(c, r);
      done := !checkouts[c].polling;
    }

    method PollStartValid(c: CheckoutId) returns (done: bool)
      requires Valid() && S.CanPoll(View(), c)
      modifies this
      ensures Valid() && c in checkouts && done == !checkouts[c].polling && net == old(net)
      ensures View() == S.Step(old(View()), S.PollStart(c))
    {
      StepValid(View(), S.PollStart(c));
      done := PollWaiter(c);
    }

    /** The waiter check and the loop. */
    method PollThrough(c: CheckoutId, r: Replies) returns (result: Option<S.Outcome>)
      requires Valid() && S.CanPoll(View(), c) && RepliesOk(r, net)
      modifies this
      ensures Valid()
      ensures View() == PollCall(old(View()), c, r)
      ensures c in checkouts && !checkouts[c].polling && result == checkouts[c].outcome
    {
      ghost var end := PollCall(View(), c, r);
      var done := PollStartValid(c);
      ghost var n: nat := 2;
      while !done
        invariant Valid() && c in checkouts && done == !checkouts[c].polling
        invariant Turns(View(), c, r, n) == end
        invariant !done ==> RepliesOk(r, net) && (n == 2 || (n == 1 && checkouts[c].inner == S.Handshaking))
        decreases n
      {
        TurnsOn(View(), c, r, n);
        done := PollTurnValid(c, r);
        n := n - 1;
      }
      TurnsDone(View(), c, r, n);
      result := checkouts[c].outcome;
    }

    /** One call of `Checkout::poll`. It returns `None` for `Pending`. */
    method Poll(c: CheckoutId, r: Replies) returns (result: Option<S.Outcome>)
      requires Valid() && S.CanPoll(View(), c) && RepliesOk(r, net)
      modifies this
      ensures Valid()
      ensures View() == PollCall(old(View()), c, r)
      ensures c in checkouts && !checkouts[c].polling && result == checkouts[c].outcome
      ensures c in old(checkouts) && A.PollAnswered(old(View()), View(), c, r.transport, r.handshake, result)
      ensures A.PoolAfterPoll(old(View()), View(), c, r.transport, r.handshake)
    {
      PollCallAnswers(View(), c, r);
      result := PollThrough(c, r);
    }

    /** The drop handler, followed by the drop of the fields. A connection in flight becomes a handle to drop. */
    method DropCheckout(c: CheckoutId) returns (inFlight: Option<HandleId>)
      requires Valid() && S.CanDrop(View(), c)
      modifies this
      ensures Valid()
      ensures View() == S.Step(S.Step(old(View()), S.BeginDrop(c)), S.EndDrop(c))
      ensures inFlight == if c in old(channels) && old(channels)[c].Sent? then Some(old(nextHandle)) else None
    {
      DropValid(View(), c);
      inFlight := DropFields(c);
    }

    method DropFields(c: CheckoutId) returns (inFlight: Option<HandleId>)
      requires S.CanDrop(View(), c)
      modifies this
      ensures View() == S.EndDropStep(S.BeginDropStep(old(View()), c), c)
      ensures inFlight == if c in old(channels) && old(channels)[c].Sent? then Some(old(nextHandle)) else None
    {
      if checkouts[c].Attached() && alive {
        CancelConnection(checkouts[c].key);
      }
      checkouts := checkouts - {c};
      inFlight := None;
      if c in channels && channels[c].Sent? {
        handles := handles[nextHandle := channels[c].value];
        inFlight := Some(nextHandle);
        nextHandle := nextHandle + 1;
      }
      channels := channels - {c};
    }

    /** The drop handler of a handle. */
    method DropPooled(h: HandleId)
      requires Valid() && h in handles
      modifies this
      ensures Valid()
      ensures View() == S.Step(old(View()), S.DropPooled(h))
      ensures old(h in handles) && A.HandleDropped(old(View()), View(), h)
    {
      A.DropPooledIs(View(), h);
      StepValid(View(), S.DropPooled(h));
      var x := handles[h];
      handles := handles - {h};
      if x.conn in net.open && !x.isReused && x.hasPool && alive {
        Push(x.key, x.conn);
      }
    }
  }

  // Facts the methods above rely on.

  lemma FirstOpenIs(channels: map<CheckoutId, S.Channel>, q: seq<CheckoutId>, i: nat)
    requires i <= |q| && (i < |q| ==> q[i] in channels)
    requires forall j :: 0 <= j < i ==> q[j] !in channels
    ensures S.FirstOpen(channels, q) == i
  {
  }

  lemma BroadcastOne(channels: map<CheckoutId, S.Channel>, q: seq<CheckoutId>, n: nat, x: S.Pooled)
    requires n < |q|
    ensures S.Broadcast(channels, q[..n + 1], x) ==
      if q[n] in channels then S.Broadcast(channels, q[..n], x)[q[n] := S.Sent(x)] else S.Broadcast(channels, q[..n], x)
  {
  }

  ghost predicate ValidState(s: S.State) {
    Q.Consistent(s) && O.IdleOrdered(s) && W.Owned(s)
  }

  lemma DropSteps(s: S.State, c: CheckoutId)
    requires S.CanDrop(s, c)
    ensures S.Step(S.Step(s, S.BeginDrop(c)), S.EndDrop(c)) == S.EndDropStep(S.BeginDropStep(s, c), c)
  {
  }

  lemma DropValid(s: S.State, c: CheckoutId)
    requires ValidState(s) && S.CanDrop(s, c)
    ensures S.Step(S.Step(s, S.BeginDrop(c)), S.EndDrop(c)) == S.EndDropStep(S.BeginDropStep(s, c), c)
    ensures ValidState(S.EndDropStep(S.BeginDropStep(s, c), c))
  {
    StepValid(s, S.BeginDrop(c));
    StepValid(S.Step(s, S.BeginDrop(c)), S.EndDrop(c));
    DropSteps(s, c);
  }

  lemma TurnEnabled(s: S.State, c: CheckoutId, r: Replies)
    requires Q.Consistent(s) && c in s.checkouts && s.checkouts[c].polling && RepliesOk(r, s.net)
    ensures S.CanLoop(s, c, ReplyFor(s.checkouts[c], r))
  {
    assert Q.CheckoutOk(s, c);
  }

  lemma FinishReturns(s: S.State, c: CheckoutId, id: ConnId)
    requires c in s.checkouts
    ensures c in S.Finish(s, c, id).checkouts && !S.Finish(s, c, id).checkouts[c].polling
  {
  }

  lemma LoopGoesOn(s: S.State, c: CheckoutId, reply: S.Reply)
    requires S.CanLoop(s, c, reply)
    ensures var s' := S.LoopStep(s, c, reply);
      && c in s'.checkouts
      && (s'.checkouts[c].polling ==>
        s.checkouts[c].inner == S.Connecting && s'.checkouts[c].inner == S.Handshaking && s'.net == s.net)
  {
    if s.checkouts[c].inner == S.Connected {
      FinishReturns(s, c, s.checkouts[c].connection.value);
    } else if reply.Handshake? {
      FinishReturns(S.Made(s, reply.conn, reply.shareable, s.checkouts[c].key), c, reply.conn);
    }
  }

  /** A turn is always possible, and only the transport's one leads to another. */
  lemma TurnIs(s: S.State, c: CheckoutId, r: Replies)
    requires Q.Consistent(s) && c in s.checkouts && s.checkouts[c].polling && RepliesOk(r, s.net)
    ensures S.CanLoop(s, c, ReplyFor(s.checkouts[c], r))
    ensures var s' := NextTurn(s, c, r);
      && s' == S.LoopStep(s, c, ReplyFor(s.checkouts[c], r))
      && c in s'.checkouts
      && (s'.checkouts[c].polling ==>
        s.checkouts[c].inner == S.Connecting && s'.checkouts[c].inner == S.Handshaking && s'.net == s.net)
  {
    TurnEnabled(s, c, r);
    LoopGoesOn(s, c, ReplyFor(s.checkouts[c], r));
  }

  // ---------------------------------------------------------------------------------------------
  // What a poll answers
  // ---------------------------------------------------------------------------------------------

  lemma FinishGives(s: S.State, c: CheckoutId, id: ConnId)
    requires c in s.checkouts
    ensures var s' := S.Finish(s, c, id);
      && c in s'.checkouts && !s'.checkouts[c].polling && A.Gets(s', s'.checkouts[c].outcome, id) && s'.net == s.net
      && (!S.Shareable(s.net, id) ==> s'.pool == s.pool)
  {
  }

  /** A turn that polls the handshake. */
  lemma HandshakeTurn(s: S.State, c: CheckoutId, r: Replies)
    requires Q.Consistent(s) && c in s.checkouts && s.checkouts[c].polling && s.checkouts[c].inner == S.Handshaking && RepliesOk(r, s.net)
    ensures var s' := NextTurn(s, c, r);
      && c in s'.checkouts && !s'.checkouts[c].polling
      && A.HandshakeAnswered(s, s', c, r.handshake, s'.checkouts[c].outcome)
      && (!(r.handshake.Handshake? && r.handshake.shareable) ==> s'.pool == s.pool)
  {
    TurnIs(s, c, r);
    assert Q.CheckoutOk(s, c);
    if r.handshake.Handshake? {
      FinishGives(S.Made(s, r.handshake.conn, r.handshake.shareable, s.checkouts[c].key), c, r.handshake.conn);
    }
  }

  /** A turn that polls the transport. */
  lemma TransportTurn(s: S.State, c: CheckoutId, r: Replies)
    requires Q.Consistent(s) && c in s.checkouts && s.checkouts[c].polling && s.checkouts[c].inner == S.Connecting && RepliesOk(r, s.net)
    ensures var s' := NextTurn(s, c, r); var k := s.checkouts[c];
      && c in s'.checkouts && s'.checkouts[c].key == k.key && s'.net == s.net
      && (match r.transport
          case Transport(canShare) =>
            && s'.checkouts[c].polling && s'.checkouts[c].inner == S.Handshaking
            && s'.pool == s.pool.(connecting := if canShare && k.Attached() && s.alive then s.pool.connecting + {k.key} else s.pool.connecting)
          case Failed => !s'.checkouts[c].polling && s'.checkouts[c].outcome == Some(S.ConnectFailed) && s'.pool == s.pool
          case _ => !s'.checkouts[c].polling && s'.checkouts[c].outcome == None && s'.checkouts[c].inner == S.Connecting && s'.pool == s.pool)
  {
    TurnIs(s, c, r);
    assert Q.CheckoutOk(s, c);
  }

  /** The other turns: a waiter whose sender is gone, and a connection held already. */
  lemma LastTurn(s: S.State, c: CheckoutId, r: Replies)
    requires Q.Consistent(s) && c in s.checkouts && s.checkouts[c].polling && (s.checkouts[c].inner == S.Waiting || s.checkouts[c].inner == S.Connected)
    requires RepliesOk(r, s.net)
    ensures var s' := NextTurn(s, c, r); var k := s.checkouts[c];
      && c in s'.checkouts && !s'.checkouts[c].polling
      && (k.inner == S.Waiting ==> s'.checkouts[c].outcome == Some(S.Unavailable) && s'.pool == s.pool)
      && (k.inner == S.Connected ==> k.connection.Some? && A.Gets(s', s'.checkouts[c].outcome, k.connection.value))
  {
    TurnIs(s, c, r);
    assert Q.CheckoutOk(s, c);
    if s.checkouts[c].inner == S.Connected {
      FinishGives(s, c, s.checkouts[c].connection.value);
    }
  }

  /** What the waiter check does: it delivers, leaves everything as it is, or goes on to the loop. */
  lemma WaiterCheck(s: S.State, c: CheckoutId)
    requires Q.Consistent(s) && S.CanPoll(s, c)
    ensures var s' := S.Step(s, S.PollStart(c)); var k := s.checkouts[c];
      && c in s'.checkouts && s'.pool == s.pool
      && (if A.HasDelivery(s, c) then
            && !s'.checkouts[c].polling && s'.checkouts[c].outcome == Some(S.Delivered(s.nextHandle))
            && s.nextHandle in s'.handles && s'.handles[s.nextHandle] == s.channels[c].value
          else if k.inner == S.Waiting && c in s.channels && s.channels[c] == S.Pending then s' == s
          else s' == s.(checkouts := s.checkouts[c := k.(polling := true)]))
  {
    assert Q.CheckoutOk(s, c);
  }

  /** A poll from the loop on. */
  lemma LoopAnswers(s: S.State, c: CheckoutId, r: Replies)
    requires Q.Consistent(s) && c in s.checkouts && s.checkouts[c].polling && RepliesOk(r, s.net)
    ensures var s' := Turns(s, c, r, 2); var k := s.checkouts[c];
      && c in s'.checkouts
      && match k.inner
         case Waiting => s'.checkouts[c].outcome == Some(S.Unavailable) && s'.pool == s.pool
         case Connected => k.connection.Some? && A.Gets(s', s'.checkouts[c].outcome, k.connection.value)
         case Handshaking => A.HandshakeAnswered(s, s', c, r.handshake, s'.checkouts[c].outcome) && ShookHands(s.pool, s', r)
         case Connecting =>
           match r.transport
           case NotReady => s'.checkouts[c].outcome == None && s'.checkouts[c].inner == S.Connecting && s'.pool == s.pool
           case Failed => s'.checkouts[c].outcome == Some(S.ConnectFailed) && s'.pool == s.pool
           case Transport(canShare) =>
             && A.HandshakeAnswered(s, s', c, r.handshake, s'.checkouts[c].outcome)
             && ShookHands(s.pool.(connecting := if canShare && k.Attached() && s.alive then s.pool.connecting + {k.key} else s.pool.connecting), s', r)
           case _ => true
  {
    TurnsOn(s, c, r, 2);
    var s1 := NextTurn(s, c, r);
    match s.checkouts[c].inner {
      case Handshaking =>
        HandshakeTurn(s, c, r);
        TurnsDone(s1, c, r, 1);
      case Connecting =>
        TransportTurn(s, c, r);
        if r.transport.Transport? {
          TurnEnabled(s, c, r);
          Q.StepConsistent(s, S.PollLoop(c, r.transport));
          TurnsOn(s1, c, r, 1);
          HandshakeTurn(s1, c, r);
        } else {
          TurnsDone(s1, c, r, 1);
        }
      case _ =>
        LastTurn(s, c, r);
        TurnsDone(s1, c, r, 1);
    }
  }

  /** Unless a multiplexed connection was registered, a handshake leaves the pool alone. */
  predicate ShookHands(pool: S.PoolInner, s': S.State, r: Replies) {
    !(r.handshake.Handshake? && r.handshake.shareable) ==> s'.pool == pool
  }

  /** The answers of the loop are those of the poll when the waiter check goes on to it. */
  lemma LoopIsPoll(s: S.State, c: CheckoutId, r: Replies)
    requires Q.Consistent(s) && S.CanPoll(s, c) && RepliesOk(r, s.net) && !A.HasDelivery(s, c)
    requires s.checkouts[c].inner != S.Waiting || c !in s.channels || s.channels[c] != S.Pending
    ensures var s' := Turns(s.(checkouts := s.checkouts[c := s.checkouts[c].(polling := true)]), c, r, 2);
      && c in s'.checkouts
      && A.PollAnswered(s, s', c, r.transport, r.handshake, s'.checkouts[c].outcome)
      && A.PoolAfterPoll(s, s', c, r.transport, r.handshake)
  {
    WaiterCheck(s, c);
    Q.StepConsistent(s, S.PollStart(c));
    LoopAnswers(s.(checkouts := s.checkouts[c := s.checkouts[c].(polling := true)]), c, r);
  }

  /** What a whole poll answers. */
  lemma PollCallAnswers(s: S.State, c: CheckoutId, r: Replies)
    requires Q.Consistent(s) && S.CanPoll(s, c) && RepliesOk(r, s.net)
    ensures var s' := PollCall(s, c, r);
      && c in s'.checkouts
      && A.PollAnswered(s, s', c, r.transport, r.handshake, s'.checkouts[c].outcome)
      && A.PoolAfterPoll(s, s', c, r.transport, r.handshake)
  {
    WaiterCheck(s, c);
    if A.HasDelivery(s, c) || (s.checkouts[c].inner == S.Waiting && c in s.channels && s.channels[c] == S.Pending) {
      TurnsDone(S.Step(s, S.PollStart(c)), c, r, 2);
    } else {
      LoopIsPoll(s, c, r);
    }
  }

  lemma TurnsDone(s: S.State, c: CheckoutId, r: Replies, n: nat)
    requires c in s.checkouts && !s.checkouts[c].polling
    ensures Turns(s, c, r, n) == s
  {
  }

  lemma TurnsOn(s: S.State, c: CheckoutId, r: Replies, n: nat)
    requires n > 0 && c in s.checkouts && s.checkouts[c].polling
    ensures Turns(s, c, r, n) == Turns(NextTurn(s, c, r), c, r, n - 1)
  {
  }

  /** A push that ends at a waiter. */
  lemma PushSends(s: S.State, key: Key, id: ConnId)
    requires key in s.pool.waiting && !S.Shareable(s.net, id)
    requires S.FirstOpen(s.channels, s.pool.waiting[key]) < |s.pool.waiting[key]|
    ensures var q := s.pool.waiting[key]; var i := S.FirstOpen(s.channels, q);
      S.Push(s, key, id) == s.(
        pool := s.pool.(connecting := s.pool.connecting - {key}, waiting := s.pool.waiting[key := q[i + 1..]]),
        channels := s.channels[q[i] := S.Sent(S.Pooled(id, false, key, true))])
  {
  }

  /** A push that ends at the idle list. */
  lemma PushKeeps(s: S.State, key: Key, id: ConnId)
    requires S.Shareable(s.net, id) || S.FirstOpen(s.channels, S.Queue(s.pool, key)) == |S.Queue(s.pool, key)|
    ensures var walked := S.PoolInner(
        s.pool.connecting - {key},
        if key in s.pool.waiting then s.pool.waiting[key := []] else s.pool.waiting,
        s.pool.idle);
      S.Push(s, key, id) == s.(
        pool := S.Store(walked, key, id, s.net.now),
        channels := if S.Shareable(s.net, id) && key in s.pool.waiting
                    then S.Broadcast(s.channels, s.pool.waiting[key], S.Pooled(id, true, key, true)) else s.channels)
  {
  }

  lemma StepValid(s: S.State, e: S.Event)
    requires ValidState(s)
    ensures ValidState(S.Step(s, e))
  {
    Q.StepConsistent(s, e);
    O.StepOrdered(s, e);
    W.StepOwned(s, e);
  }
}
