/** What checkouts are promised over whole runs: order of service, single flight, key isolation, fresh connections. */
module PoolService {
  import opened Wrappers
  import opened IdleList
  import opened PoolState
  import opened PoolQueues
  import opened PoolOwnership

  // ---------------------------------------------------------------------------------------------
  // Waiters are served first come, first served, and are never forgotten
  // ---------------------------------------------------------------------------------------------

  /** The step sends a connection to the waiter. */
  predicate Delivers(s: State, s': State, c: CheckoutId) {
    c in s.channels && s.channels[c] == Pending && c in s'.channels && s'.channels[c].Sent?
  }

  /** The waiter served is in the part of the queue that the push uses up. */
  lemma ServedIsUsed(s: State, key: Key, id: ConnId, c: CheckoutId) returns (i: nat)
    requires Consistent(s) && Delivers(s, Push(s, key, id), c)
    ensures i < Used(s, key, id) <= |Queue(s.pool, key)| && Queue(s.pool, key)[i] == c
  {
    PushServes(s, key, id);
    assert c in Queue(s.pool, key)[..Used(s, key, id)];
    i :| 0 <= i < Used(s, key, id) && Queue(s.pool, key)[i] == c;
  }

  /** Of two waiters in a queue, the one registered first stands first. */
  lemma EarlierStandsFirst(s: State, key: Key, i: nat, d: CheckoutId) returns (j: nat)
    requires Consistent(s) && key in s.pool.waiting && i < |Queue(s.pool, key)|
    requires d < Queue(s.pool, key)[i] && d in Queue(s.pool, key)
    ensures j < i && Queue(s.pool, key)[j] == d
  {
    assert QueueOk(s, key);
    j :| 0 <= j < |Queue(s.pool, key)| && Queue(s.pool, key)[j] == d;
  }

  lemma PushFifo(s: State, key: Key, id: ConnId, c: CheckoutId, d: CheckoutId)
    requires Consistent(s) && Delivers(s, Push(s, key, id), c)
    requires d < c && d in s.channels && s.channels[d] == Pending && s.checkouts[d].key == s.checkouts[c].key
    ensures Delivers(s, Push(s, key, id), d) && Shareable(s.net, id)
  {
    var i := ServedIsUsed(s, key, id, c);
    assert key in s.pool.waiting && QueueOk(s, key);
    assert s.checkouts[c].key == key && ChannelOk(s, d);
    var j := EarlierStandsFirst(s, key, i, d);
    PushServes(s, key, id);
    assert Queue(s.pool, key)[..Used(s, key, id)][j] == d;
  }

  lemma LoopFifo(s: State, a: CheckoutId, reply: Reply, c: CheckoutId, d: CheckoutId)
    requires Consistent(s) && CanLoop(s, a, reply) && Delivers(s, LoopStep(s, a, reply), c)
    requires d < c && d in s.channels && s.channels[d] == Pending && s.checkouts[d].key == s.checkouts[c].key
    ensures var s' := LoopStep(s, a, reply); Delivers(s, s', d) && Shareable(s'.net, s'.channels[c].value.conn)
  {
  }

  lemma DropPooledFifo(s: State, h: HandleId, c: CheckoutId, d: CheckoutId)
    requires Consistent(s) && h in s.handles && Delivers(s, DropPooledStep(s, h), c)
    requires d < c && d in s.channels && s.channels[d] == Pending && s.checkouts[d].key == s.checkouts[c].key
    ensures var s' := DropPooledStep(s, h); Delivers(s, s', d) && Shareable(s'.net, s'.channels[c].value.conn)
  {
    var gone := s.(handles := s.handles - {h});
    HandleGoneConsistent(s, h);
    PushFifo(gone, s.handles[h].key, s.handles[h].conn, c, d);
    PushServes(gone, s.handles[h].key, s.handles[h].conn);
  }

  lemma StepFifo(s: State, e: Event, c: CheckoutId, d: CheckoutId)
    requires Consistent(s) && Delivers(s, Step(s, e), c)
    requires d < c && d in s.channels && s.channels[d] == Pending && s.checkouts[d].key == s.checkouts[c].key
    ensures Delivers(s, Step(s, e), d) && Shareable(Step(s, e).net, Step(s, e).channels[c].value.conn)
  {
    match e
    case DropPooled(h) => DropPooledFifo(s, h, c, d);
    case PollLoop(a, reply) => LoopFifo(s, a, reply, c, d);
    case _ =>
  }

  /**
   * First come, first served over every run: when a step serves a waiter, every waiter of the same key that
   * registered earlier and is still unserved is served by that same step, which is then a multiplexed hand-out.
   */
  lemma FirstComeFirstServed(timeout: Option<Time>, run: seq<Event>, e: Event, c: CheckoutId, d: CheckoutId)
    requires var s := Exec(timeout, run);
      && Delivers(s, Exec(timeout, run + [e]), c)
      && d < c && d in s.channels && s.channels[d] == Pending
      && c in s.checkouts && d in s.checkouts && s.checkouts[d].key == s.checkouts[c].key
    ensures var s' := Exec(timeout, run + [e]);
      Delivers(Exec(timeout, run), s', d) && Shareable(s'.net, s'.channels[c].value.conn)
  {
    assert (run + [e])[..|run|] == run;
    ExecConsistent(timeout, run);
    StepFifo(Exec(timeout, run), e, c, d);
  }

  /** A multiplexed connection given to the pool reaches every waiter of its key, and one copy is kept. */
  lemma SharedReachesEveryWaiter(s: State, key: Key, id: ConnId, c: CheckoutId)
    requires Consistent(s) && Shareable(s.net, id)
    requires c in s.channels && s.channels[c] == Pending && s.checkouts[c].key == key
    ensures Push(s, key, id).channels[c] == Sent(Pooled(id, true, key, true))
    ensures Queue(Push(s, key, id).pool, key) == []
    ensures IdleOf(Push(s, key, id).pool, key) == IdleOf(s.pool, key) + [Idle(s.net.now, id)]
    ensures key !in Push(s, key, id).pool.connecting
  {
  }

  /** An exclusive connection goes to the earliest open waiter and leaves the later part of the queue as it was. */
  lemma ExclusiveGoesToEarliest(s: State, key: Key, id: ConnId, i: nat)
    requires Consistent(s) && !Shareable(s.net, id)
    requires i < |Queue(s.pool, key)| && Queue(s.pool, key)[i] in s.channels
    requires forall j :: 0 <= j < i ==> Queue(s.pool, key)[j] !in s.channels
    ensures var s' := Push(s, key, id);
      && s'.channels == s.channels[Queue(s.pool, key)[i] := Sent(Pooled(id, false, key, true))]
      && Queue(s'.pool, key) == Queue(s.pool, key)[i + 1..]
      && s'.pool.idle == s.pool.idle
  {
  }

  /** The sender of a checkout is in its queue exactly once. */
  ghost predicate QueuedExactlyOnce(s: State, c: CheckoutId)
    requires c in s.checkouts
  {
    var q := Queue(s.pool, s.checkouts[c].key);
    exists i :: 0 <= i < |q| && q[i] == c && (forall j :: 0 <= j < |q| && q[j] == c ==> j == i)
  }

  /**
   * While the pool lives, an unfinished checkout that was not served from the idle list either has its sender in
   * its key's queue, exactly once, or has a connection waiting in its channel.
   */
  lemma WaiterNeverForgotten(timeout: Option<Time>, run: seq<Event>, c: CheckoutId)
    requires var s := Exec(timeout, run);
      s.alive && c in s.checkouts && s.checkouts[c].Attached() && s.checkouts[c].inner != Connected && s.checkouts[c].outcome == None
    ensures var s := Exec(timeout, run);
      c in s.channels && (s.channels[c].Sent? || (s.channels[c] == Pending && QueuedExactlyOnce(s, c)))
  {
    var s := Exec(timeout, run);
    ExecConsistent(timeout, run);
    assert ChannelOk(s, c);
    if s.channels[c] == Pending {
      var q := Queue(s.pool, s.checkouts[c].key);
      var i :| 0 <= i < |q| && q[i] == c;
      forall j | 0 <= j < |q| && q[j] == c ensures j == i { QueuedOnce(s, s.checkouts[c].key, i, j); }
    }
  }

  /** `Error::Unavailable` is only ever returned once the pool is gone. */
  lemma UnavailableMeansPoolGone(timeout: Option<Time>, run: seq<Event>, c: CheckoutId)
    requires c in Exec(timeout, run).checkouts && Exec(timeout, run).checkouts[c].outcome == Some(Unavailable)
    ensures !Exec(timeout, run).alive
  {
    ExecConsistent(timeout, run);
    assert CheckoutOk(Exec(timeout, run), c);
  }

  /** No poll of an unfinished checkout reaches an `expect` or polls a used-up receiver. */
  lemma PollNeverPanics(timeout: Option<Time>, run: seq<Event>, c: CheckoutId)
    requires var s := Exec(timeout, run); c in s.checkouts && !s.checkouts[c].dropping && s.checkouts[c].outcome == None
    ensures var s := Exec(timeout, run);
      if s.checkouts[c].polling then exists reply :: CanLoop(s, c, reply) else CanPoll(s, c)
  {
    var s := Exec(timeout, run);
    ExecConsistent(timeout, run);
    assert CheckoutOk(s, c);
    assert c in s.channels ==> ChannelOk(s, c);
    if s.checkouts[c].polling {
      assert CanLoop(s, c, Nothing) || CanLoop(s, c, NotReady);
    }
  }

  /** Whatever a checkout delivers was made by a connector of that checkout's key. */
  lemma KeyIsolation(timeout: Option<Time>, run: seq<Event>, c: CheckoutId, h: HandleId)
    requires var s := Exec(timeout, run);
      c in s.checkouts && s.checkouts[c].outcome == Some(Delivered(h)) && h in s.handles
    ensures var s := Exec(timeout, run);
      s.handles[h].conn in s.net.conns && s.net.conns[s.handles[h].conn].origin == s.checkouts[c].key
  {
    var s := Exec(timeout, run);
    ExecConsistent(timeout, run);
    ExecOwned(timeout, run);
    assert CheckoutOk(s, c);
    assert At(s, InHandle(h)) == Some(s.handles[h]);
  }

  /** An exclusive connection is never in two hands, nor in a hand and in the pool. */
  lemma NeverHandedOutTwice(timeout: Option<Time>, run: seq<Event>, p: Place, q: Place, id: ConnId)
    requires Holds(Exec(timeout, run), p, id) && Holds(Exec(timeout, run), q, id)
    requires !Shareable(Exec(timeout, run).net, id)
    ensures p == q
  {
    ExecOwned(timeout, run);
    OneHolder(Exec(timeout, run), p, q, id);
  }

  /** However often a multiplexed connection is fanned out or dropped, the pool side keeps at most one copy. */
  lemma OnePooledCopy(timeout: Option<Time>, run: seq<Event>, p: Place, q: Place, id: ConnId)
    requires Holds(Exec(timeout, run), p, id) && Holds(Exec(timeout, run), q, id) && PoolSide(p) && PoolSide(q)
    ensures p == q
  {
    ExecOwned(timeout, run);
    OneHolder(Exec(timeout, run), p, q, id);
  }

  /** A failure is reported as the failure of the phase in which it happened. */
  predicate ErrorOk(k: Checkout) {
    && (k.outcome == Some(ConnectFailed) ==> k.inner == Connecting)
    && (k.outcome == Some(HandshakeFailed) ==> k.inner == Handshaking)
    && (k.outcome == Some(Unavailable) ==> k.inner == Waiting)
  }

  lemma StepErrors(s: State, e: Event, c: CheckoutId)
    requires e.PollLoop? && e.checkout in s.checkouts ==> CheckoutOk(s, e.checkout)
    requires c in Step(s, e).checkouts && (c in s.checkouts ==> ErrorOk(s.checkouts[c]))
    ensures ErrorOk(Step(s, e).checkouts[c])
  {
    if Enabled(s, e) {
      match e
      case PollLoop(d, reply) => LoopErrors(s, d, reply, c);
      case DropPooled(h) => DropPooledKeepsCheckouts(s, h);
      case NewCheckout(key, multiplex) => StartErrors(s, key, multiplex, c);
      case PollStart(d) => PollErrors(s, d, c);
      case BeginDrop(d) => BeginDropErrors(s, d, c);
      case EndDrop(d) => EndDropErrors(s, d, c);
      case _ =>
    }
  }

  lemma StartErrors(s: State, key: Key, multiplex: bool, c: CheckoutId)
    requires c in StartCheckout(s, key, multiplex).checkouts && (c in s.checkouts ==> ErrorOk(s.checkouts[c]))
    ensures ErrorOk(StartCheckout(s, key, multiplex).checkouts[c])
  {
  }

  lemma PollErrors(s: State, d: CheckoutId, c: CheckoutId)
    requires CanPoll(s, d) && c in s.checkouts && ErrorOk(s.checkouts[c])
    ensures ErrorOk(WaiterStep(s, d).checkouts[c])
  {
  }

  lemma BeginDropErrors(s: State, d: CheckoutId, c: CheckoutId)
    requires CanDrop(s, d) && c in s.checkouts && ErrorOk(s.checkouts[c])
    ensures ErrorOk(BeginDropStep(s, d).checkouts[c])
  {
  }

  lemma EndDropErrors(s: State, d: CheckoutId, c: CheckoutId)
    requires d in s.checkouts && s.checkouts[d].dropping && c in EndDropStep(s, d).checkouts && ErrorOk(s.checkouts[c])
    ensures ErrorOk(EndDropStep(s, d).checkouts[c])
  {
  }

  lemma LoopErrors(s: State, d: CheckoutId, reply: Reply, c: CheckoutId)
    requires CanLoop(s, d, reply) && CheckoutOk(s, d) && c in LoopStep(s, d, reply).checkouts
    requires c in s.checkouts ==> ErrorOk(s.checkouts[c])
    ensures ErrorOk(LoopStep(s, d, reply).checkouts[c])
  {
  }

  /** In every run a checkout that fails names the phase that failed, and only a waiter is told `Unavailable`. */
  lemma {:induction false} ErrorsNameTheirPhase(timeout: Option<Time>, run: seq<Event>, c: CheckoutId)
    requires c in Exec(timeout, run).checkouts
    ensures ErrorOk(Exec(timeout, run).checkouts[c])
  {
    if |run| > 0 {
      var before := run[..|run| - 1];
      ExecConsistent(timeout, before);
      if c in Exec(timeout, before).checkouts {
        ErrorsNameTheirPhase(timeout, before, c);
      }
      StepErrors(Exec(timeout, before), run[|run| - 1], c);
    }
  }

  // ---------------------------------------------------------------------------------------------
  // The connecting mark
  // ---------------------------------------------------------------------------------------------

  predicate Attempting(s: State, c: CheckoutId, key: Key) {
    && c in s.checkouts && s.checkouts[c].key == key && s.checkouts[c].Attached() && !s.checkouts[c].dropping
    && (s.checkouts[c].inner == Connecting || s.checkouts[c].inner == Handshaking)
  }

  ghost predicate MarksOk(s: State) {
    forall key :: key in s.pool.connecting ==> exists c :: Attempting(s, c, key)
  }

  /** What a turn of the poll loop does to checkouts and marks. */
  lemma LoopMarks(s: State, c: CheckoutId, reply: Reply, d: CheckoutId, key: Key)
    requires c in s.checkouts && CheckoutOk(s, c) && CanLoop(s, c, reply)
    ensures Attempting(s, d, key) ==> Attempting(LoopStep(s, c, reply), d, key)
    ensures key in LoopStep(s, c, reply).pool.connecting && key !in s.pool.connecting ==> Attempting(s, c, key)
  {
    assert CheckoutOk(s, c);
    if s.checkouts[c].inner == Connected {
      FinishMarks(s, c, s.checkouts[c].connection.value, d);
    } else if reply.Handshake? {
      FinishMarks(Made(s, reply.conn, reply.shareable, s.checkouts[c].key), c, reply.conn, d);
    }
  }

  lemma FinishMarks(s: State, c: CheckoutId, id: ConnId, d: CheckoutId)
    requires c in s.checkouts
    ensures Finish(s, c, id).pool.connecting <= s.pool.connecting
    ensures d in s.checkouts ==> d in Finish(s, c, id).checkouts
    ensures d in s.checkouts ==> var k, k' := s.checkouts[d], Finish(s, c, id).checkouts[d];
      k'.key == k.key && k'.waiter == k.waiter && k'.inner == k.inner && k'.dropping == k.dropping
  {
  }

  lemma DropPooledKeepsCheckouts(s: State, h: HandleId)
    requires h in s.handles
    ensures DropPooledStep(s, h).checkouts == s.checkouts
    ensures DropPooledStep(s, h).pool.connecting ==
      if Returns(s, s.handles[h]) then s.pool.connecting - {s.handles[h].key} else s.pool.connecting
  {
  }

  lemma StartKeepsAttempts(s: State, k: Key, multiplex: bool, c: CheckoutId, key: Key)
    requires Consistent(s) && Attempting(s, c, key)
    ensures Attempting(StartCheckout(s, k, multiplex), c, key)
  {
  }

  /** Dropping a checkout ends only its own attempt, and clears the mark. */
  lemma DropKeepsAttempts(s: State, e: Event, c: CheckoutId, key: Key)
    requires Consistent(s) && Attempting(s, c, key) && Enabled(s, e) && (e.BeginDrop? || e.EndDrop?)
    requires key in Step(s, e).pool.connecting
    ensures Attempting(Step(s, e), c, key)
  {
  }

  lemma PollKeepsAttempts(s: State, d: CheckoutId, c: CheckoutId, key: Key)
    requires Attempting(s, c, key) && CanPoll(s, d)
    ensures Attempting(WaiterStep(s, d), c, key)
  {
  }

  /** Attempts only end by dropping their checkout, which clears the mark. */
  lemma AttemptContinues(s: State, e: Event, c: CheckoutId, key: Key)
    requires Consistent(s) && Attempting(s, c, key) && key in Step(s, e).pool.connecting
    ensures Attempting(Step(s, e), c, key)
  {
    if Enabled(s, e) {
      match e
      case PollLoop(d, reply) => LoopMarks(s, d, reply, c, key);
      case DropPooled(h) => DropPooledKeepsCheckouts(s, h);
      case NewCheckout(k, multiplex) => StartKeepsAttempts(s, k, multiplex, c, key);
      case PollStart(d) => PollKeepsAttempts(s, d, c, key);
      case BeginDrop(_) => DropKeepsAttempts(s, e, c, key);
      case EndDrop(_) => DropKeepsAttempts(s, e, c, key);
      case _ =>
    }
  }

  lemma StartMarks(s: State, k: Key, multiplex: bool, key: Key)
    requires key in StartCheckout(s, k, multiplex).pool.connecting && key !in s.pool.connecting
    ensures Attempting(StartCheckout(s, k, multiplex), s.nextCheckout, key)
  {
  }

  lemma OthersDoNotMark(s: State, e: Event)
    requires !e.NewCheckout? && !e.PollLoop?
    ensures Step(s, e).pool.connecting <= s.pool.connecting
  {
  }

  lemma MarkMade(s: State, e: Event, key: Key) returns (c: CheckoutId)
    requires e.PollLoop? && e.checkout in s.checkouts ==> CheckoutOk(s, e.checkout)
    requires key in Step(s, e).pool.connecting && key !in s.pool.connecting
    ensures Attempting(Step(s, e), c, key)
  {
    c := s.nextCheckout;
    match e {
      case NewCheckout(k, multiplex) =>
        StartMarks(s, k, multiplex, key);
      case PollLoop(d, reply) =>
        LoopMarks(s, d, reply, d, key);
        c := d;
      case _ =>
        OthersDoNotMark(s, e);
    }
  }

  /** In every run, a mark stands for an attempt that is still there. */
  lemma {:induction false} MarkStandsForAttempt(timeout: Option<Time>, run: seq<Event>)
    ensures MarksOk(Exec(timeout, run))
  {
    if |run| > 0 {
      var s, e := Exec(timeout, run[..|run| - 1]), run[|run| - 1];
      ExecConsistent(timeout, run[..|run| - 1]);
      MarkStandsForAttempt(timeout, run[..|run| - 1]);
      forall key | key in Step(s, e).pool.connecting ensures exists c :: Attempting(Step(s, e), c, key) {
        if key in s.pool.connecting {
          var c :| Attempting(s, c, key);
          AttemptContinues(s, e, c, key);
        } else {
          var c := MarkMade(s, e, key);
        }
      }
    }
  }

  // ---------------------------------------------------------------------------------------------
  // Single flight
  // ---------------------------------------------------------------------------------------------

  /** A checkout that finds no idle connection. */
  predicate Misses(s: State, e: Event, key: Key) {
    e.NewCheckout? && e.key == key && s.alive && PopResult(s, key).None?
  }

  /** A multiplexing checkout that keeps its connector. */
  predicate KeepsConnector(s: State, e: Event, key: Key) {
    Misses(s, e, key) && e.multiplex && Step(s, e).checkouts[s.nextCheckout].inner == Connecting
  }

  /** A call of `push` for the key. */
  predicate Pushes(s: State, e: Event, key: Key) {
    Enabled(s, e) &&
    match e
    case PollLoop(c, reply) =>
      && s.checkouts[c].key == key && s.checkouts[c].Attached() && s.alive
      && (if s.checkouts[c].inner == Connected then Shareable(s.net, s.checkouts[c].connection.value)
          else reply.Handshake? && reply.shareable)
    case DropPooled(h) => s.handles[h].key == key && Returns(s, s.handles[h])
    case _ => false
  }

  /** A call of `push` or `cancel_connection` for the key. */
  predicate ClearsMark(s: State, e: Event, key: Key) {
    || Pushes(s, e, key)
    || (e.BeginDrop? && Enabled(s, e) && s.checkouts[e.checkout].key == key && s.checkouts[e.checkout].Attached() && s.alive)
  }

  function KeptIn(timeout: Option<Time>, run: seq<Event>, key: Key): nat {
    if |run| == 0 then 0
    else
      var before := run[..|run| - 1];
      KeptIn(timeout, before, key) + if KeepsConnector(Exec(timeout, before), run[|run| - 1], key) then 1 else 0
  }

  function ClearedIn(timeout: Option<Time>, run: seq<Event>, key: Key): nat {
    if |run| == 0 then 0
    else
      var before := run[..|run| - 1];
      ClearedIn(timeout, before, key) + if ClearsMark(Exec(timeout, before), run[|run| - 1], key) then 1 else 0
  }

  /** A kept connector sets the mark, which was not there. */
  lemma KeptConnectorMarks(s: State, e: Event, key: Key)
    requires Misses(s, e, key) && e.multiplex
    ensures key in Step(s, e).pool.connecting
    ensures KeepsConnector(s, e, key) <==> key !in s.pool.connecting
  {
  }

  /** A mark goes only by a clearing call or with the pool. */
  lemma MarkStays(s: State, e: Event, key: Key)
    requires Consistent(s) && key in s.pool.connecting && !ClearsMark(s, e, key) && Step(s, e).alive
    ensures key in Step(s, e).pool.connecting
  {
    match e
    case DropPooled(h) => if h in s.handles { DropPooledKeepsCheckouts(s, h); }
    case PollLoop(c, reply) => if Enabled(s, e) { LoopKeepsMark(s, c, reply, key); }
    case _ =>
  }

  lemma LoopKeepsMark(s: State, c: CheckoutId, reply: Reply, key: Key)
    requires CanLoop(s, c, reply) && key in s.pool.connecting && !ClearsMark(s, PollLoop(c, reply), key)
    requires Consistent(s)
    ensures key in LoopStep(s, c, reply).pool.connecting
  {
  }

  ghost function Slack(s: State, key: Key): nat {
    if key in s.pool.connecting || !s.alive then 1 else 0
  }

  lemma {:induction false} FlightCount(timeout: Option<Time>, run: seq<Event>, key: Key)
    ensures KeptIn(timeout, run, key) <= ClearedIn(timeout, run, key) + Slack(Exec(timeout, run), key)
  {
    if |run| > 0 {
      var before, e := run[..|run| - 1], run[|run| - 1];
      FlightCount(timeout, before, key);
      ExecConsistent(timeout, before);
      var s := Exec(timeout, before);
      if KeepsConnector(s, e, key) {
        KeptConnectorMarks(s, e, key);
      } else if key in s.pool.connecting && !ClearsMark(s, e, key) && Step(s, e).alive {
        MarkStays(s, e, key);
      }
      AliveBefore(s, e);
    }
  }

  /** The number of multiplexing checkouts that keep their connector is at most one more than the number of clearing calls. */
  lemma SingleFlight(timeout: Option<Time>, run: seq<Event>, key: Key)
    ensures KeptIn(timeout, run, key) <= 1 + ClearedIn(timeout, run, key)
  {
    FlightCount(timeout, run, key);
  }

  /** Once dead, the pool stays dead. */
  lemma {:induction false} DeadForGood(timeout: Option<Time>, run: seq<Event>, i: nat)
    requires i <= |run| && Exec(timeout, run).alive
    ensures Exec(timeout, run[..i]).alive
    decreases |run|
  {
    if i == |run| {
      assert run[..i] == run;
    } else {
      assert run[..|run| - 1][..i] == run[..i];
      AliveBefore(Exec(timeout, run[..|run| - 1]), run[|run| - 1]);
      DeadForGood(timeout, run[..|run| - 1], i);
    }
  }

  lemma AliveBefore(s: State, e: Event)
    ensures Step(s, e).alive ==> s.alive
  {
  }

  /** While nothing clears it, a mark stays. */
  lemma {:induction false} MarkPersists(timeout: Option<Time>, run: seq<Event>, i: nat, key: Key)
    requires i <= |run| && key in Exec(timeout, run[..i]).pool.connecting && Exec(timeout, run).alive
    requires forall j :: i <= j < |run| ==> !ClearsMark(Exec(timeout, run[..j]), run[j], key)
    ensures key in Exec(timeout, run).pool.connecting
    decreases |run|
  {
    if i == |run| {
      assert run[..i] == run;
    } else {
      var before := run[..|run| - 1];
      assert before[..i] == run[..i];
      AliveBefore(Exec(timeout, before), run[|run| - 1]);
      forall j | i <= j < |before| ensures !ClearsMark(Exec(timeout, before[..j]), before[j], key) {
        assert before[..j] == run[..j];
      }
      MarkPersists(timeout, before, i, key);
      ExecConsistent(timeout, before);
      MarkStays(Exec(timeout, before), run[|run| - 1], key);
    }
  }

  /** The checkout waits for somebody else's connection: it has no connector, and its sender is queued. */
  predicate WaitsForOthers(s: State, c: CheckoutId) {
    && c in s.checkouts && c in s.channels
    && s.checkouts[c].inner == Waiting && s.checkouts[c].waiter == WaitConnecting && s.channels[c] == Pending
  }

  /** As long as nothing clears the mark of a key, every checkout of it that misses becomes a waiter without a connector. */
  lemma MarkedCheckoutsWait(timeout: Option<Time>, run: seq<Event>, i: nat, e: Event, key: Key)
    requires i <= |run| && key in Exec(timeout, run[..i]).pool.connecting
    requires forall j :: i <= j < |run| ==> !ClearsMark(Exec(timeout, run[..j]), run[j], key)
    requires Misses(Exec(timeout, run), e, key)
    ensures WaitsForOthers(Step(Exec(timeout, run), e), Exec(timeout, run).nextCheckout)
  {
    MarkPersists(timeout, run, i, key);
  }

  /**
   * Between clearing calls, after a multiplexing checkout has missed, every further checkout of the key that
   * misses becomes a waiter without a connector.
   */
  lemma LaterCheckoutsWait(timeout: Option<Time>, run: seq<Event>, i: nat, e: Event, key: Key)
    requires i < |run| && Misses(Exec(timeout, run[..i]), run[i], key) && run[i].multiplex
    requires forall j :: i < j < |run| ==> !ClearsMark(Exec(timeout, run[..j]), run[j], key)
    requires Misses(Exec(timeout, run), e, key)
    ensures WaitsForOthers(Step(Exec(timeout, run), e), Exec(timeout, run).nextCheckout)
  {
    assert run[..i + 1][..i] == run[..i];
    KeptConnectorMarks(Exec(timeout, run[..i]), run[i], key);
    MarkedCheckoutsWait(timeout, run, i + 1, e, key);
  }

  /** A transport that turns out to be shareable makes others wait for its handshake, even if nobody expected it to be. */
  lemma ShareableTransportMakesOthersWait(timeout: Option<Time>, run: seq<Event>, i: nat, c: CheckoutId, e: Event, key: Key)
    requires i < |run| && run[i] == PollLoop(c, Transport(true)) && Enabled(Exec(timeout, run[..i]), run[i])
    requires Exec(timeout, run[..i]).checkouts[c].key == key && Exec(timeout, run[..i]).checkouts[c].Attached()
    requires forall j :: i < j < |run| ==> !ClearsMark(Exec(timeout, run[..j]), run[j], key)
    requires Misses(Exec(timeout, run), e, key)
    ensures WaitsForOthers(Step(Exec(timeout, run), e), Exec(timeout, run).nextCheckout)
  {
    DeadForGood(timeout, run, i);
    assert run[..i + 1][..i] == run[..i];
    MarkedCheckoutsWait(timeout, run, i + 1, e, key);
  }

  /** Right after a clearing call, a checkout that misses makes its own connection attempt. */
  lemma ClearedCheckoutsConnect(s: State, e: Event, later: Event, key: Key)
    requires ClearsMark(s, e, key) && Misses(Step(s, e), later, key)
    ensures Step(Step(s, e), later).checkouts[Step(s, e).nextCheckout].inner == Connecting
  {
    match e
    case PollLoop(c, reply) => LoopClears(s, c, reply, key);
    case _ =>
  }

  lemma LoopClears(s: State, c: CheckoutId, reply: Reply, key: Key)
    requires ClearsMark(s, PollLoop(c, reply), key)
    ensures key !in LoopStep(s, c, reply).pool.connecting
  {
  }

  /** A checkout that cannot multiplex never makes others wait. */
  lemma PlainCheckoutsDoNotBlock(s: State, e: Event, key: Key, k: Key)
    requires Misses(s, e, key) && !e.multiplex
    ensures k in Step(s, e).pool.connecting <==> k in s.pool.connecting
  {
  }

  // ---------------------------------------------------------------------------------------------
  // Idle connections
  // ---------------------------------------------------------------------------------------------

  ghost predicate IdleOrdered(s: State) {
    forall key :: key in s.pool.idle ==> Ordered(s.pool.idle[key], s.net.now)
  }

  lemma StoreOrdered(s: State, s': State, key: Key, id: ConnId)
    requires IdleOrdered(s) && s'.net.now == s.net.now
    requires s'.pool.idle == s.pool.idle || s'.pool.idle == s.pool.idle[key := IdleOf(s.pool, key) + [Idle(s.net.now, id)]]
    ensures IdleOrdered(s')
  {
  }

  lemma PushOrdered(s: State, key: Key, id: ConnId)
    requires IdleOrdered(s)
    ensures IdleOrdered(Push(s, key, id))
  {
    StoreOrdered(s, Push(s, key, id), key, id);
  }

  lemma StepOrdered(s: State, e: Event)
    requires IdleOrdered(s)
    ensures IdleOrdered(Step(s, e))
  {
    if Enabled(s, e) {
      match e
      case NewCheckout(key, _) => assert key in s.pool.idle ==> Ordered(s.pool.idle[key], s.net.now);
      case PollLoop(c, reply) => LoopOrdered(s, c, reply);
      case DropPooled(h) => PushOrdered(s.(handles := s.handles - {h}), s.handles[h].key, s.handles[h].conn);
      case _ =>
    }
  }

  lemma LoopOrdered(s: State, c: CheckoutId, reply: Reply)
    requires IdleOrdered(s) && CanLoop(s, c, reply)
    ensures IdleOrdered(LoopStep(s, c, reply))
  {
    var k := s.checkouts[c];
    if k.inner == Connected {
      PushOrdered(Complete(s, c, Pooled(k.connection.value, true, k.key, false)), k.key, k.connection.value);
    } else if reply.Handshake? {
      PushOrdered(Complete(Made(s, reply.conn, reply.shareable, k.key), c, Pooled(reply.conn, true, k.key, false)), k.key, reply.conn);
    }
  }

  /** In every run, idle lists are in the order of their times. */
  lemma {:induction false} ExecOrdered(timeout: Option<Time>, run: seq<Event>)
    ensures IdleOrdered(Exec(timeout, run))
  {
    if |run| > 0 {
      ExecOrdered(timeout, run[..|run| - 1]);
      StepOrdered(Exec(timeout, run[..|run| - 1]), run[|run| - 1]);
    }
  }

  lemma TimeoutStays(s: State, e: Event)
    ensures Step(s, e).timeout == s.timeout
  {
  }

  lemma {:induction false} TimeoutFixed(timeout: Option<Time>, run: seq<Event>)
    ensures Exec(timeout, run).timeout == timeout
  {
    if |run| > 0 {
      TimeoutFixed(timeout, run[..|run| - 1]);
      TimeoutStays(Exec(timeout, run[..|run| - 1]), run[|run| - 1]);
    }
  }

  /** In every run, a checkout served from the idle list gets an open connection that was not idle beyond the maximum. */
  lemma ServedFresh(timeout: Option<Time>, run: seq<Event>, key: Key)
    requires PopResult(Exec(timeout, run), key).Some?
    ensures var s := Exec(timeout, run);
      exists i :: 0 <= i < |IdleOf(s.pool, key)|
        && PopResult(s, key) == Some(IdleOf(s.pool, key)[i].conn)
        && IdleOf(s.pool, key)[i].conn in s.net.open
        && (timeout.Some? && timeout.value > 0 ==> s.net.now - IdleOf(s.pool, key)[i].at <= timeout.value)
  {
    ExecOrdered(timeout, run);
    TimeoutFixed(timeout, run);
    var s := Exec(timeout, run);
    PoppedIsFresh(IdleOf(s.pool, key), s.net.open, timeout, s.net.now);
  }

  predicate NobodyWaits(s: State, key: Key) {
    forall c :: c in s.channels && s.channels[c] == Pending && c in s.checkouts ==> s.checkouts[c].key != key
  }

  /** With nobody waiting, a push stores the connection. */
  lemma PushStores(s: State, key: Key, id: ConnId)
    requires Consistent(s)
    requires NobodyWaits(s, key)
    ensures IdleOf(Push(s, key, id).pool, key) == IdleOf(s.pool, key) + [Idle(s.net.now, id)]
  {
    assert key in s.pool.waiting ==> QueueOk(s, key);
  }

  /** A stored connection is the first choice of the next pop. */
  lemma StoredIsPopped(s: State, key: Key, id: ConnId, older: seq<Idle>, multiplex: bool)
    requires IdleOf(s.pool, key) == older + [Idle(s.net.now, id)] && id in s.net.open
    ensures s.nextCheckout in StartCheckout(s, key, multiplex).checkouts
    ensures StartCheckout(s, key, multiplex).checkouts[s.nextCheckout].connection == Some(id)
  {
    NewestUsableIs(IdleOf(s.pool, key), s.net.open, Cutoff(s.timeout, s.net.now), |older|);
  }

  lemma DropThenCheckout(s: State, h: HandleId, multiplex: bool)
    requires Consistent(s) && h in s.handles && Returns(s, s.handles[h]) && NobodyWaits(s, s.handles[h].key)
    ensures var s' := StartCheckout(DropPooledStep(s, h), s.handles[h].key, multiplex);
      s.nextCheckout in s'.checkouts && s'.checkouts[s.nextCheckout].connection == Some(s.handles[h].conn)
  {
    var x := s.handles[h];
    var gone := s.(handles := s.handles - {h});
    HandleGoneConsistent(s, h);
    PushStores(gone, x.key, x.conn);
    StoredIsPopped(Push(gone, x.key, x.conn), x.key, x.conn, IdleOf(s.pool, x.key), multiplex);
  }

  lemma ExecOne(timeout: Option<Time>, run: seq<Event>, e: Event)
    ensures Exec(timeout, run + [e]) == Step(Exec(timeout, run), e)
  {
    assert (run + [e])[..|run|] == run;
  }

  lemma ExecTwo(timeout: Option<Time>, run: seq<Event>, e: Event, f: Event)
    ensures Exec(timeout, run + [e, f]) == Step(Step(Exec(timeout, run), e), f)
  {
    assert run + [e, f] == (run + [e]) + [f];
    ExecOne(timeout, run, e);
    ExecOne(timeout, run + [e], f);
  }

  lemma DropLeavesPool(s: State, h: HandleId)
    requires h in s.handles
    ensures DropPooledStep(s, h).alive == s.alive
  {
  }

  /** A connection dropped while open, with nobody waiting, is what the next checkout of its key gets. */
  lemma DroppedConnectionIsReused(timeout: Option<Time>, run: seq<Event>, h: HandleId, multiplex: bool)
    requires var s := Exec(timeout, run); h in s.handles && Returns(s, s.handles[h]) && NobodyWaits(s, s.handles[h].key)
    ensures var s := Exec(timeout, run);
      var s' := Exec(timeout, run + [DropPooled(h), NewCheckout(s.handles[h].key, multiplex)]);
      s.nextCheckout in s'.checkouts && s'.checkouts[s.nextCheckout].connection == Some(s.handles[h].conn)
  {
    var s := Exec(timeout, run);
    ExecConsistent(timeout, run);
    ExecTwo(timeout, run, DropPooled(h), NewCheckout(s.handles[h].key, multiplex));
    DropLeavesPool(s, h);
    DropThenCheckout(s, h, multiplex);
  }
}
