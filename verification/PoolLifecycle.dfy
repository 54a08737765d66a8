/** The life of a connection over whole runs: where it goes at each step, and the only ways it leaves. */
module PoolLifecycle {
  import opened Wrappers
  import opened IdleList
  import opened PoolState
  import opened PoolQueues
  import opened PoolOwnership

  // ---------------------------------------------------------------------------------------------
  // Handles know their pool
  // ---------------------------------------------------------------------------------------------

  /** The handle that a detached checkout delivers in a step. */
  function LentBy(s: State, e: Event): set<HandleId> {
    if e.PollLoop? && e.reply.Handshake? && Enabled(s, e) && !s.checkouts[e.checkout].Attached() then {s.nextHandle} else {}
  }

  /** The handles delivered by detached checkouts over a run. */
  function LentIn(timeout: Option<Time>, run: seq<Event>): set<HandleId> {
    if |run| == 0 then {}
    else
      var before := run[..|run| - 1];
      LentIn(timeout, before) + LentBy(Exec(timeout, before), run[|run| - 1])
  }

  predicate HandleBacked(s: State, h: HandleId, lent: set<HandleId>)
    requires h in s.handles
  {
    s.handles[h].hasPool || s.handles[h].isReused || !s.alive || h in lent
  }

  /** While the pool lives, a handle that owns its connection knows the pool, unless a detached checkout delivered it. */
  ghost predicate Backed(s: State, lent: set<HandleId>) {
    && (forall h :: h in s.handles ==> HandleBacked(s, h, lent))
    && (forall c :: c in s.channels && s.channels[c].Sent? ==> s.channels[c].value.hasPool)
  }

  lemma PushBacked(s: State, key: Key, id: ConnId, lent: set<HandleId>)
    requires Backed(s, lent)
    ensures Backed(Push(s, key, id), lent)
  {
    forall h | h in s.handles ensures HandleBacked(Push(s, key, id), h, lent) { assert HandleBacked(s, h, lent); }
  }

  lemma AddHandleBacked(s: State, x: Pooled, lent: set<HandleId>)
    requires Backed(s, lent) && (x.hasPool || x.isReused || !s.alive || s.nextHandle in lent)
    ensures Backed(AddHandle(s, x), lent)
  {
    var s' := AddHandle(s, x);
    forall h | h in s'.handles ensures HandleBacked(s', h, lent) { assert h in s.handles ==> HandleBacked(s, h, lent); }
  }

  lemma FinishBacked(s: State, c: CheckoutId, id: ConnId, lent: set<HandleId>)
    requires c in s.checkouts && Backed(s, lent) && (s.checkouts[c].Attached() || s.nextHandle in lent)
    ensures Backed(Finish(s, c, id), lent)
  {
    var k := s.checkouts[c];
    var done := Update(s, c, k.(connection := None, outcome := Some(Delivered(s.nextHandle)), polling := false));
    SameHandles(s, done, lent);
    if k.Attached() && s.alive && Shareable(s.net, id) {
      AddHandleBacked(done, Pooled(id, true, k.key, false), lent);
      PushBacked(Complete(s, c, Pooled(id, true, k.key, false)), k.key, id, lent);
    } else {
      AddHandleBacked(done, Pooled(id, false, k.key, k.Attached() && s.alive), lent);
    }
  }

  /** Handles go but do not change, and nothing new is in a channel. */
  lemma SameHandles(s: State, s': State, lent: set<HandleId>)
    requires Backed(s, lent) && (s'.alive ==> s.alive)
    requires forall h :: h in s'.handles ==> h in s.handles && s'.handles[h] == s.handles[h]
    requires forall c :: c in s'.channels && s'.channels[c].Sent? ==> c in s.channels && s'.channels[c] == s.channels[c]
    ensures Backed(s', lent)
  {
    forall h | h in s'.handles ensures HandleBacked(s', h, lent) { assert HandleBacked(s, h, lent); }
  }

  lemma LoopBacked(s: State, c: CheckoutId, reply: Reply, lent: set<HandleId>)
    requires Consistent(s) && CanLoop(s, c, reply) && Backed(s, lent) && LentBy(s, PollLoop(c, reply)) <= lent
    ensures Backed(LoopStep(s, c, reply), lent)
  {
    assert CheckoutOk(s, c);
    if s.checkouts[c].inner == Connected {
      FinishBacked(s, c, s.checkouts[c].connection.value, lent);
    } else if reply.Handshake? {
      var made := Made(s, reply.conn, reply.shareable, s.checkouts[c].key);
      SameHandles(s, made, lent);
      FinishBacked(made, c, reply.conn, lent);
    } else {
      SameHandles(s, Turn(s, c, reply), lent);
    }
  }

  lemma PollBacked(s: State, c: CheckoutId, lent: set<HandleId>)
    requires CanPoll(s, c) && Backed(s, lent)
    ensures Backed(WaiterStep(s, c), lent)
  {
    if c in s.channels && s.channels[c].Sent? {
      var taken := Update(s, c, s.checkouts[c].(outcome := Some(Delivered(s.nextHandle)))).(channels := s.channels[c := Taken]);
      SameHandles(s, taken, lent);
      AddHandleBacked(taken, s.channels[c].value, lent);
    } else {
      SameHandles(s, WaiterStep(s, c), lent);
    }
  }

  lemma EndDropBacked(s: State, c: CheckoutId, lent: set<HandleId>)
    requires c in s.checkouts && s.checkouts[c].dropping && Backed(s, lent)
    ensures Backed(EndDropStep(s, c), lent)
  {
    var gone := s.(checkouts := s.checkouts - {c}, channels := s.channels - {c});
    SameHandles(s, gone, lent);
    if c in s.channels && s.channels[c].Sent? {
      AddHandleBacked(gone, s.channels[c].value, lent);
    }
  }

  lemma DropPooledBacked(s: State, h: HandleId, lent: set<HandleId>)
    requires h in s.handles && Backed(s, lent)
    ensures Backed(DropPooledStep(s, h), lent)
  {
    var gone := s.(handles := s.handles - {h});
    SameHandles(s, gone, lent);
    PushBacked(gone, s.handles[h].key, s.handles[h].conn, lent);
  }

  lemma OtherBacked(s: State, e: Event, lent: set<HandleId>)
    requires Enabled(s, e) && Backed(s, lent)
    requires e.NewCheckout? || e.NewDetached? || e.BeginDrop? || e.SetOpen? || e.Tick? || e.DropPool?
    ensures Backed(Step(s, e), lent)
  {
    SameHandles(s, Step(s, e), lent);
  }

  lemma StepBacked(s: State, e: Event, lent: set<HandleId>)
    requires Consistent(s) && Backed(s, lent) && LentBy(s, e) <= lent
    ensures Backed(Step(s, e), lent)
  {
    if Enabled(s, e) {
      match e
      case PollStart(c) => PollBacked(s, c, lent);
      case PollLoop(c, reply) => LoopBacked(s, c, reply, lent);
      case EndDrop(c) => EndDropBacked(s, c, lent);
      case DropPooled(h) => DropPooledBacked(s, h, lent);
      case _ => OtherBacked(s, e, lent);
    }
  }

  /** In every run, a living pool's handles that own their connection know the pool, but for those of detached checkouts. */
  lemma {:induction false} HandlesKnowTheirPool(timeout: Option<Time>, run: seq<Event>)
    ensures Backed(Exec(timeout, run), LentIn(timeout, run))
  {
    if |run| > 0 {
      var before := run[..|run| - 1];
      ExecConsistent(timeout, before);
      HandlesKnowTheirPool(timeout, before);
      MoreLent(Exec(timeout, before), LentIn(timeout, before), LentIn(timeout, run));
      StepBacked(Exec(timeout, before), run[|run| - 1], LentIn(timeout, run));
    }
  }

  lemma MoreLent(s: State, lent: set<HandleId>, more: set<HandleId>)
    requires Backed(s, lent) && lent <= more
    ensures Backed(s, more)
  {
    forall h | h in s.handles ensures HandleBacked(s, h, more) { assert HandleBacked(s, h, lent); }
  }

  // ---------------------------------------------------------------------------------------------
  // Without detached checkouts nothing is lent
  // ---------------------------------------------------------------------------------------------

  ghost predicate AllAttached(s: State) {
    forall c :: c in s.checkouts ==> s.checkouts[c].Attached()
  }

  lemma LoopAttached(s: State, c: CheckoutId, reply: Reply)
    requires CanLoop(s, c, reply) && AllAttached(s)
    ensures AllAttached(LoopStep(s, c, reply))
  {
  }

  lemma StepAttached(s: State, e: Event)
    requires AllAttached(s) && !e.NewDetached? && !e.PollLoop?
    ensures AllAttached(Step(s, e))
  {
  }

  lemma {:induction false} NothingLent(timeout: Option<Time>, run: seq<Event>)
    requires forall i :: 0 <= i < |run| ==> !run[i].NewDetached?
    ensures LentIn(timeout, run) == {} && AllAttached(Exec(timeout, run))
  {
    if |run| > 0 {
      var before, e := run[..|run| - 1], run[|run| - 1];
      NothingLent(timeout, before);
      if !e.PollLoop? {
        StepAttached(Exec(timeout, before), e);
      } else if Enabled(Exec(timeout, before), e) {
        LoopAttached(Exec(timeout, before), e.checkout, e.reply);
      }
    }
  }

  // ---------------------------------------------------------------------------------------------
  // Retirement
  // ---------------------------------------------------------------------------------------------

  /** The reasons for which a step may let an exclusive connection go; `lent` are the handles of detached checkouts. */
  ghost predicate Retires(s: State, lent: set<HandleId>, e: Event, id: ConnId) {
    match e
    case NewCheckout(key, _) =>
      exists i :: 0 <= i < |IdleOf(s.pool, key)| && IdleOf(s.pool, key)[i].conn == id
        && Dead(IdleOf(s.pool, key)[i], s.net.open, s.timeout, s.net.now)
    case EndDrop(c) => Holds(s, InField(c), id)
    case DropPooled(h) =>
      Holds(s, InHandle(h), id) && (id !in s.net.open || !s.alive || h in lent)
    case DropPool => exists key, i :: Holds(s, InIdle(key, i), id)
    case _ => false
  }

  /** The step that brings a connection into being. */
  predicate Mints(s: State, e: Event, id: ConnId) {
    e.PollLoop? && e.reply.Handshake? && e.reply.conn == id && Enabled(s, e)
  }

  // ---------------------------------------------------------------------------------------------
  // Held connections stay held
  // ---------------------------------------------------------------------------------------------

  lemma PushKeeps(s: State, key: Key, id: ConnId, p: Place, x: ConnId)
    requires Consistent(s) && Holds(s, p, x)
    ensures Holds(Push(s, key, id), p, x)
  {
    assert key in s.pool.waiting ==> QueueOk(s, key);
    if Shareable(s.net, id) {
      PushSharedPlaces(s, key, id, p);
    } else {
      PushExclusivePlaces(s, key, id, p);
    }
  }

  lemma FinishKeeps(s: State, s0: State, c: CheckoutId, id: ConnId, p: Place, x: ConnId)
    requires Consistent(s0) && s == s0.(net := s.net) && c in s.checkouts && s.checkouts[c].polling
    requires s.checkouts[c].inner in {Connected, Handshaking}
    requires (Holds(s, p, x) && p != InField(c)) || (x == id && p == InHandle(s.nextHandle))
    ensures Holds(Finish(s, c, id), p, x)
  {
    var k := s.checkouts[c];
    if k.Attached() && s.alive && Shareable(s.net, id) {
      CompleteConsistent(s, s0, c, Pooled(id, true, k.key, false));
      PushKeeps(Complete(s, c, Pooled(id, true, k.key, false)), k.key, id, p, x);
    }
  }

  lemma FieldSurvives(s: State, c: CheckoutId, p: Place, id: ConnId)
    requires Consistent(s) && c in s.checkouts && s.checkouts[c].polling && s.checkouts[c].inner == Connected
    requires s.checkouts[c].connection.Some? && Holds(s, p, id)
    ensures Placed(Finish(s, c, s.checkouts[c].connection.value), id)
  {
    var q := if p == InField(c) then InHandle(s.nextHandle) else p;
    FinishKeeps(s, s, c, s.checkouts[c].connection.value, q, id);
  }

  lemma HandshakeSurvives(s: State, c: CheckoutId, reply: Reply, p: Place, id: ConnId)
    requires Consistent(s) && CanLoop(s, c, reply) && reply.Handshake? && Holds(s, p, id)
    ensures Placed(LoopStep(s, c, reply), id)
  {
    assert CheckoutOk(s, c);
    var made := Made(s, reply.conn, reply.shareable, s.checkouts[c].key);
    assert Holds(made, p, id);
    FinishKeeps(made, s, c, reply.conn, p, id);
  }

  lemma TurnSurvives(s: State, c: CheckoutId, reply: Reply, p: Place, id: ConnId)
    requires c in s.checkouts && Holds(s, p, id)
    ensures Placed(Turn(s, c, reply), id)
  {
    assert Holds(Turn(s, c, reply), p, id);
  }

  lemma LoopSurvives(s: State, c: CheckoutId, reply: Reply, p: Place, id: ConnId)
    requires Consistent(s) && CanLoop(s, c, reply) && Holds(s, p, id)
    ensures Placed(LoopStep(s, c, reply), id)
  {
    if s.checkouts[c].inner == Connected {
      FieldSurvives(s, c, p, id);
    } else if reply.Handshake? {
      HandshakeSurvives(s, c, reply, p, id);
    } else {
      TurnSurvives(s, c, reply, p, id);
    }
  }

  /** An entry of the list popped is kept, handed out, or closed or expired. */
  lemma IdleSurvives(s: State, key: Key, multiplex: bool, i: nat, id: ConnId)
    requires Holds(s, InIdle(key, i), id)
    ensures var s' := StartCheckout(s, key, multiplex);
      || Holds(s', InIdle(key, i), id)
      || Holds(s', InField(s.nextCheckout), id)
      || Retires(s, {}, NewCheckout(key, multiplex), id)
  {
    var list := IdleOf(s.pool, key);
    var s' := StartCheckout(s, key, multiplex);
    OnlyDeadEntriesDiscarded(list, s.net.open, s.timeout, s.net.now, i);
    assert Holds(s', InIdle(key, i), id) || Holds(s', InField(s.nextCheckout), id) || Dead(list[i], s.net.open, s.timeout, s.net.now);
  }

  lemma StartKeeps(s: State, key: Key, multiplex: bool, p: Place, id: ConnId)
    requires Consistent(s) && Holds(s, p, id) && !(p.InIdle? && p.key == key)
    ensures Holds(StartCheckout(s, key, multiplex), p, id)
  {
  }

  lemma StartSurvives(s: State, key: Key, multiplex: bool, p: Place, id: ConnId)
    requires Consistent(s) && s.alive && Holds(s, p, id)
    ensures Placed(StartCheckout(s, key, multiplex), id) || Retires(s, {}, NewCheckout(key, multiplex), id)
  {
    if p.InIdle? && p.key == key {
      IdleSurvives(s, key, multiplex, p.index, id);
    } else {
      StartKeeps(s, key, multiplex, p, id);
    }
  }

  lemma DropPooledSurvives(s: State, lent: set<HandleId>, h: HandleId, p: Place, id: ConnId)
    requires Consistent(s) && Owned(s) && Backed(s, lent) && h in s.handles && Holds(s, p, id) && !Shareable(s.net, id)
    ensures Placed(DropPooledStep(s, h), id) || Retires(s, lent, DropPooled(h), id)
  {
    var x := s.handles[h];
    assert At(s, InHandle(h)) == Some(x) && HandleBacked(s, h, lent);
    var gone := s.(handles := s.handles - {h});
    HandleGoneConsistent(s, h);
    if p == InHandle(h) {
      if Returns(s, x) {
        PushExclusivePlaces(gone, x.key, id, p);
      }
    } else {
      assert Holds(gone, p, id);
      if Returns(s, x) {
        PushKeeps(gone, x.key, x.conn, p, id);
      }
    }
  }

  lemma PollSurvives(s: State, c: CheckoutId, p: Place, id: ConnId)
    requires Consistent(s) && CanPoll(s, c) && Holds(s, p, id)
    ensures Placed(WaiterStep(s, c), id)
  {
    var s' := WaiterStep(s, c);
    if p == InChannel(c) {
      assert Holds(s', InHandle(s.nextHandle), id);
    } else {
      assert Holds(s', p, id);
    }
  }

  lemma EndDropSurvives(s: State, c: CheckoutId, p: Place, id: ConnId)
    requires Consistent(s) && c in s.checkouts && s.checkouts[c].dropping && Holds(s, p, id)
    ensures Placed(EndDropStep(s, c), id) || Retires(s, {}, EndDrop(c), id)
  {
    var s' := EndDropStep(s, c);
    if p == InChannel(c) {
      assert Holds(s', InHandle(s.nextHandle), id);
    } else if p != InField(c) {
      assert Holds(s', p, id);
    }
  }

  lemma OutsideKeeps(s: State, e: Event, p: Place, id: ConnId)
    requires Consistent(s) && Holds(s, p, id) && Enabled(s, e)
    requires e.NewDetached? || e.BeginDrop? || e.SetOpen? || e.Tick?
    ensures Holds(Step(s, e), p, id)
  {
  }

  lemma DropPoolSurvives(s: State, p: Place, id: ConnId)
    requires Holds(s, p, id)
    ensures Placed(DropPoolStep(s), id) || Retires(s, {}, DropPool, id)
  {
    assert Holds(DropPoolStep(s), p, id) || p.InIdle?;
  }

  /** A step keeps an exclusive connection somewhere, or lets it go for one of the known reasons. */
  lemma Survives(s: State, lent: set<HandleId>, e: Event, p: Place, id: ConnId)
    requires Consistent(s) && Owned(s) && Backed(s, lent) && Holds(s, p, id) && !Shareable(s.net, id)
    ensures Placed(Step(s, e), id) || Retires(s, lent, e, id)
  {
    if Enabled(s, e) {
      match e
      case NewCheckout(key, multiplex) => StartSurvives(s, key, multiplex, p, id);
      case PollStart(c) => PollSurvives(s, c, p, id);
      case PollLoop(c, reply) => LoopSurvives(s, c, reply, p, id);
      case EndDrop(c) => EndDropSurvives(s, c, p, id);
      case DropPooled(h) => DropPooledSurvives(s, lent, h, p, id);
      case DropPool => DropPoolSurvives(s, p, id);
      case _ => OutsideKeeps(s, e, p, id);
    }
  }

  // ---------------------------------------------------------------------------------------------
  // Connections come only from handshakes
  // ---------------------------------------------------------------------------------------------

  lemma PushOrigin(s: State, key: Key, id: ConnId, p: Place, x: ConnId)
    requires Holds(Push(s, key, id), p, x)
    ensures Holds(s, p, x) || x == id
  {
    if Shareable(s.net, id) {
      PushSharedPlaces(s, key, id, p);
    } else {
      PushExclusivePlaces(s, key, id, p);
    }
  }

  lemma FinishOrigin(s: State, c: CheckoutId, id: ConnId, p: Place, x: ConnId)
    requires c in s.checkouts && Holds(Finish(s, c, id), p, x)
    ensures Holds(s, p, x) || x == id
  {
  }

  lemma LoopOrigin(s: State, c: CheckoutId, reply: Reply, p: Place, id: ConnId)
    requires CanLoop(s, c, reply) && Holds(LoopStep(s, c, reply), p, id)
    ensures Placed(s, id) || Mints(s, PollLoop(c, reply), id)
  {
    var k := s.checkouts[c];
    if k.inner == Connected {
      FinishOrigin(s, c, k.connection.value, p, id);
      assert Holds(s, InField(c), k.connection.value);
    } else if reply.Handshake? {
      var made := Made(s, reply.conn, reply.shareable, k.key);
      FinishOrigin(made, c, reply.conn, p, id);
      assert Holds(made, p, id) ==> Holds(s, p, id);
    } else {
      assert Holds(s, p, id);
    }
  }

  lemma StartOrigin(s: State, key: Key, multiplex: bool, p: Place, id: ConnId)
    requires Holds(StartCheckout(s, key, multiplex), p, id)
    ensures Placed(s, id)
  {
    if p.InIdle? { PopIdlePrefix(s, key, p.key, p.index); }
    if p == InField(s.nextCheckout) && PopResult(s, key) == Some(id) {
      var i := NewestUsable(IdleOf(s.pool, key), s.net.open, Cutoff(s.timeout, s.net.now)).value;
      assert Holds(s, InIdle(key, i), id);
    } else {
      assert Holds(s, p, id);
    }
  }

  lemma DropPooledOrigin(s: State, h: HandleId, p: Place, id: ConnId)
    requires h in s.handles && Holds(DropPooledStep(s, h), p, id)
    ensures Placed(s, id)
  {
    var gone := s.(handles := s.handles - {h});
    assert Holds(s, InHandle(h), s.handles[h].conn);
    if Returns(s, s.handles[h]) {
      PushOrigin(gone, s.handles[h].key, s.handles[h].conn, p, id);
    }
    assert Holds(gone, p, id) ==> Holds(s, p, id);
  }

  lemma MovesOrigin(s: State, e: Event, p: Place, id: ConnId)
    requires Enabled(s, e) && (e.PollStart? || e.EndDrop?) && Holds(Step(s, e), p, id)
    ensures Placed(s, id)
  {
    var c := e.checkout;
    if Holds(s, InChannel(c), id) {} else { assert Holds(s, p, id); }
  }

  /** Whatever is held after a step was held before it or was made by it. */
  lemma NothingFromNowhere(s: State, e: Event, p: Place, id: ConnId)
    requires Holds(Step(s, e), p, id)
    ensures Placed(s, id) || Mints(s, e, id)
  {
    if Enabled(s, e) {
      match e
      case NewCheckout(key, multiplex) => StartOrigin(s, key, multiplex, p, id);
      case PollLoop(c, reply) => LoopOrigin(s, c, reply, p, id);
      case PollStart(_) => MovesOrigin(s, e, p, id);
      case EndDrop(_) => MovesOrigin(s, e, p, id);
      case DropPooled(h) => DropPooledOrigin(s, h, p, id);
      case _ => assert Holds(s, p, id);
    }
  }

  lemma FinishNet(s: State, c: CheckoutId, id: ConnId)
    requires c in s.checkouts
    ensures Finish(s, c, id).net == s.net
  {
  }

  lemma LoopConns(s: State, c: CheckoutId, reply: Reply)
    requires CanLoop(s, c, reply)
    ensures LoopStep(s, c, reply).net.conns ==
      if reply.Handshake? then s.net.conns[reply.conn := ConnInfo(reply.shareable, s.checkouts[c].key)] else s.net.conns
  {
    if s.checkouts[c].inner == Connected {
      FinishNet(s, c, s.checkouts[c].connection.value);
    } else if reply.Handshake? {
      FinishNet(Made(s, reply.conn, reply.shareable, s.checkouts[c].key), c, reply.conn);
    }
  }

  /** Only a handshake makes a connection known. */
  lemma OtherConns(s: State, e: Event)
    requires !e.PollLoop?
    ensures Step(s, e).net.conns == s.net.conns
  {
  }

  lemma MintedIsHeld(s: State, c: CheckoutId, id: ConnId, shareable: bool)
    requires Consistent(s) && CanLoop(s, c, Handshake(id, shareable))
    ensures Placed(LoopStep(s, c, Handshake(id, shareable)), id)
  {
    var made := Made(s, id, shareable, s.checkouts[c].key);
    FinishKeeps(made, s, c, id, InHandle(s.nextHandle), id);
  }

  /** Known connections never change, and a step that makes one known holds it. */
  lemma ConnsGrow(s: State, e: Event, id: ConnId)
    requires Consistent(s)
    ensures id in s.net.conns ==> id in Step(s, e).net.conns && Step(s, e).net.conns[id] == s.net.conns[id]
    ensures id in Step(s, e).net.conns && id !in s.net.conns ==> Mints(s, e, id) && Placed(Step(s, e), id)
  {
    if e.PollLoop? && Enabled(s, e) {
      LoopConns(s, e.checkout, e.reply);
      if e.reply.Handshake? {
        MintedIsHeld(s, e.checkout, e.reply.conn, e.reply.shareable);
      }
    } else if !e.PollLoop? {
      OtherConns(s, e);
    }
  }

  // ---------------------------------------------------------------------------------------------
  // Whole runs
  // ---------------------------------------------------------------------------------------------

  /** Step `j` of the run let the connection go, for a known reason, and nothing holds it afterwards. */
  ghost predicate RetiredAt(timeout: Option<Time>, run: seq<Event>, lent: set<HandleId>, j: nat, id: ConnId)
    requires j < |run|
  {
    && Placed(Exec(timeout, run[..j]), id)
    && Retires(Exec(timeout, run[..j]), lent, run[j], id)
    && !Placed(Exec(timeout, run[..j + 1]), id)
  }

  /** The connection is in one place only. */
  ghost predicate InOnePlace(s: State, id: ConnId) {
    exists p :: Holds(s, p, id) && forall q :: Holds(s, q, id) ==> q == p
  }

  /**
   * Over every run, an exclusive connection is in exactly one place, or it was retired at some step: it was found
   * closed or expired, was held by a checkout dropped unpolled, or was let go when its handle was dropped (or the
   * pool) because the pool is gone or because the handle came from a detached checkout.
   */
  lemma {:induction false} ExclusiveLifecycle(timeout: Option<Time>, run: seq<Event>, id: ConnId)
    requires id in Exec(timeout, run).net.conns && !Shareable(Exec(timeout, run).net, id)
    ensures
      || InOnePlace(Exec(timeout, run), id)
      || (!Placed(Exec(timeout, run), id) && exists j: nat :: j < |run| && RetiredAt(timeout, run, LentIn(timeout, run[..j]), j, id))
  {
    ExecOwned(timeout, run);
    if p :| Holds(Exec(timeout, run), p, id) {
      OnlyPlace(Exec(timeout, run), p, id);
    } else {
      var j := RetirementStep(timeout, run, id);
    }
  }

  lemma OnlyPlace(s: State, p: Place, id: ConnId)
    requires Owned(s) && Holds(s, p, id) && !Shareable(s.net, id)
    ensures InOnePlace(s, id)
  {
    assert forall q :: Holds(s, q, id) ==> q == p;
  }

  lemma {:induction false} RetirementStep(timeout: Option<Time>, run: seq<Event>, id: ConnId) returns (j: nat)
    requires id in Exec(timeout, run).net.conns && !Shareable(Exec(timeout, run).net, id)
    requires !Placed(Exec(timeout, run), id)
    ensures j < |run| && RetiredAt(timeout, run, LentIn(timeout, run[..j]), j, id)
    decreases |run|
  {
    var n := |run| - 1;
    var before, e := run[..n], run[n];
    var s := Exec(timeout, before);
    ExecConsistent(timeout, before);
    ConnsGrow(s, e, id);
    assert run[..n + 1] == run;
    if p :| Holds(s, p, id) {
      ExecOwned(timeout, before);
      HandlesKnowTheirPool(timeout, before);
      Survives(s, LentIn(timeout, before), e, p, id);
      j := n;
    } else {
      j := RetirementStep(timeout, before, id);
      assert before[..j] == run[..j] && before[..j + 1] == run[..j + 1];
    }
  }

  /** Without detached checkouts only four reasons remain: closed, expired, in a checkout dropped unpolled, or the pool gone. */
  lemma PooledLifecycle(timeout: Option<Time>, run: seq<Event>, id: ConnId)
    requires id in Exec(timeout, run).net.conns && !Shareable(Exec(timeout, run).net, id)
    requires forall i :: 0 <= i < |run| ==> !run[i].NewDetached?
    ensures
      || InOnePlace(Exec(timeout, run), id)
      || (!Placed(Exec(timeout, run), id) && exists j: nat :: j < |run| && RetiredAt(timeout, run, {}, j, id))
  {
    ExclusiveLifecycle(timeout, run, id);
    if !InOnePlace(Exec(timeout, run), id) {
      var j: nat :| j < |run| && RetiredAt(timeout, run, LentIn(timeout, run[..j]), j, id);
      NothingLent(timeout, run[..j]);
    }
  }

  /** Retirement is final: no later step of the run brings the connection back. */
  lemma {:induction false} RetiredForGood(timeout: Option<Time>, run: seq<Event>, j: nat, id: ConnId)
    requires j <= |run| && id in Exec(timeout, run[..j]).net.conns && !Placed(Exec(timeout, run[..j]), id)
    ensures id in Exec(timeout, run).net.conns && !Placed(Exec(timeout, run), id)
    decreases |run|
  {
    if j == |run| {
      assert run[..j] == run;
    } else {
      var n := |run| - 1;
      assert run[..n][..j] == run[..j];
      RetiredForGood(timeout, run[..n], j, id);
      var s := Exec(timeout, run[..n]);
      ExecConsistent(timeout, run[..n]);
      ConnsGrow(s, run[n], id);
      if p :| Holds(Exec(timeout, run), p, id) {
        NothingFromNowhere(s, run[n], p, id);
      }
    }
  }
}
