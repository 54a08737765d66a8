/**
 * The client connection pool (src/client/pool/mod.rs, src/client/pool/checkout.rs) as a state and its atomic steps.
 *
 * A step is one region executed under the pool's mutex, or one lock-free piece of a `Checkout` poll. Steps of
 * different checkouts, handles and threads interleave freely. Each checkout owns the receiver of one oneshot
 * channel, so a sender in a waiter queue is named by its checkout.
 */
module PoolState {
  import opened Wrappers
  import opened IdleList

  type Key = nat
  type CheckoutId = nat
  type HandleId = nat

  /** What never changes about a connection: whether it multiplexes, and the key its connector was made for. */
  datatype ConnInfo = ConnInfo(shareable: bool, origin: Key)

  /** `Pooled`: `hasPool` says whether it holds a reference to the pool. */
  datatype Pooled = Pooled(conn: ConnId, isReused: bool, key: Key, hasPool: bool)

  /** The oneshot channel of a checkout, as long as its receiver exists. */
  datatype Channel =
    | Pending             // the sender is alive
    | Sent(value: Pooled)
    | Taken               // the value was received
    | SenderDropped

  datatype Waiter = WaitIdle | WaitConnecting | NoPool

  datatype Phase = Waiting | Connected | Connecting | Handshaking

  datatype Outcome = Delivered(handle: HandleId) | ConnectFailed | HandshakeFailed | Unavailable

  /** `polling` marks a poll call between its waiter check and its return; `dropping` a drop between its two parts. */
  datatype Checkout = Checkout(
    key: Key,
    waiter: Waiter,
    inner: Phase,
    connection: Option<ConnId>,
    polling: bool,
    outcome: Option<Outcome>,
    dropping: bool)
  {
    /** Whether it holds a reference to the pool; a detached checkout does not. */
    predicate Attached() { waiter != NoPool }
  }

  /** The fields guarded by the mutex. */
  datatype PoolInner = PoolInner(
    connecting: set<Key>,
    waiting: map<Key, seq<CheckoutId>>,
    idle: map<Key, seq<Idle>>)

  /** The world outside the pool: the clock, the connections made so far and which of them are open. */
  datatype Net = Net(now: Time, conns: map<ConnId, ConnInfo>, open: set<ConnId>)

  datatype State = State(
    alive: bool,
    timeout: Option<Time>,
    pool: PoolInner,
    channels: map<CheckoutId, Channel>,
    checkouts: map<CheckoutId, Checkout>,
    handles: map<HandleId, Pooled>,
    net: Net,
    nextCheckout: CheckoutId,
    nextHandle: HandleId)

  /** What the environment answers when a poll reaches the transport or the handshake. */
  datatype Reply =
    | Nothing                                      // the phase needs no answer
    | NotReady
    | Failed
    | Transport(canShare: bool)
    | Handshake(conn: ConnId, shareable: bool)

  datatype Event =
    | NewCheckout(key: Key, multiplex: bool)
    | NewDetached(key: Key)
    | PollStart(checkout: CheckoutId)
    | PollLoop(checkout: CheckoutId, reply: Reply)
    | BeginDrop(checkout: CheckoutId)
    | EndDrop(checkout: CheckoutId)
    | DropPooled(handle: HandleId)
    | SetOpen(conn: ConnId, isOpen: bool)
    | Tick(elapsed: Time)
    | DropPool

  const NO_TABLES := PoolInner({}, map[], map[])

  function Init(timeout: Option<Time>): State {
    State(true, timeout, NO_TABLES, map[], map[], map[], Net(0, map[], {}), 0, 0)
  }

  function Queue(pool: PoolInner, key: Key): seq<CheckoutId> {
    if key in pool.waiting then pool.waiting[key] else []
  }

  function IdleOf(pool: PoolInner, key: Key): seq<Idle> {
    if key in pool.idle then pool.idle[key] else []
  }

  /** `connection.reuse()` is `Some` exactly when `can_share()` holds, as for `HttpConnection`. */
  predicate Shareable(net: Net, id: ConnId) {
    id in net.conns && net.conns[id].shareable
  }

  // ---------------------------------------------------------------------------------------------
  // PoolInner
  // ---------------------------------------------------------------------------------------------

  /** The position of the first sender whose receiver still exists. */
  function FirstOpen(channels: map<CheckoutId, Channel>, queue: seq<CheckoutId>): (i: nat)
    ensures i <= |queue|
    ensures i < |queue| ==> queue[i] in channels
    ensures forall j :: 0 <= j < i ==> queue[j] !in channels
  {
    if |queue| == 0 || queue[0] in channels then 0 else 1 + FirstOpen(channels, queue[1..])
  }

  /** The value reaches every queued receiver that still exists. */
  function Broadcast(channels: map<CheckoutId, Channel>, queue: seq<CheckoutId>, p: Pooled): map<CheckoutId, Channel> {
    map c | c in channels :: if c in queue then Sent(p) else channels[c]
  }

  function SetQueue(pool: PoolInner, key: Key, queue: seq<CheckoutId>): PoolInner {
    if key in pool.waiting then pool.(waiting := pool.waiting[key := queue]) else pool
  }

  function Unmark(pool: PoolInner, key: Key): PoolInner {
    pool.(connecting := pool.connecting - {key})
  }

  function Mark(pool: PoolInner, key: Key): PoolInner {
    pool.(connecting := pool.connecting + {key})
  }

  function Store(pool: PoolInner, key: Key, id: ConnId, now: Time): PoolInner {
    pool.(idle := pool.idle[key := IdleOf(pool, key) + [Idle(now, id)]])
  }

  /** A multiplexed connection reaches every open waiter, and one copy is stored. */
  function PushShared(s: State, key: Key, id: ConnId): State {
    s.(pool := Store(SetQueue(Unmark(s.pool, key), key, []), key, id, s.net.now),
       channels := Broadcast(s.channels, Queue(s.pool, key), Pooled(id, true, key, true)))
  }

  /** An exclusive connection goes to the earliest open waiter, or is stored if there is none. */
  function PushExclusive(s: State, key: Key, id: ConnId): State {
    var queue := Queue(s.pool, key);
    var i := FirstOpen(s.channels, queue);
    if i < |queue| then
      s.(pool := SetQueue(Unmark(s.pool, key), key, queue[i + 1..]),
         channels := s.channels[queue[i] := Sent(Pooled(id, false, key, true))])
    else
      s.(pool := Store(SetQueue(Unmark(s.pool, key), key, []), key, id, s.net.now))
  }

  /** What giving a connection back to the pool must do. */
  function Push(s: State, key: Key, id: ConnId): State {
    if Shareable(s.net, id) then PushShared(s, key, id) else PushExclusive(s, key, id)
  }

  function PopResult(s: State, key: Key): Option<ConnId> {
    Popped(IdleOf(s.pool, key), s.net.open, Cutoff(s.timeout, s.net.now))
  }

  /** The idle lists after a pop; an emptied one is removed unless a multiplexed connection was taken from it. */
  function PopIdle(s: State, key: Key): map<Key, seq<Idle>> {
    if key !in s.pool.idle then s.pool.idle
    else
      var rest := Remaining(s.pool.idle[key], s.net.open, Cutoff(s.timeout, s.net.now));
      var taken := PopResult(s, key);
      if |rest| == 0 && !(taken.Some? && Shareable(s.net, taken.value)) then s.pool.idle - {key}
      else s.pool.idle[key := rest]
  }

  // ---------------------------------------------------------------------------------------------
  // Checkouts and handles
  // ---------------------------------------------------------------------------------------------

  function AddHandle(s: State, p: Pooled): State {
    s.(handles := s.handles[s.nextHandle := p], nextHandle := s.nextHandle + 1)
  }

  function Update(s: State, c: CheckoutId, k: Checkout): State {
    s.(checkouts := s.checkouts[c := k])
  }

  function NewState(s: State, pool: PoolInner, k: Checkout, channel: Channel): State {
    s.(pool := pool,
       checkouts := s.checkouts[s.nextCheckout := k],
       channels := s.channels[s.nextCheckout := channel],
       nextCheckout := s.nextCheckout + 1)
  }

  /** An idle connection was found: the checkout holds it, and its own sender is dropped. */
  function Reserve(s: State, key: Key, id: ConnId): State {
    NewState(s, s.pool.(idle := PopIdle(s, key)), Checkout(key, WaitIdle, Connected, Some(id), false, None, false), SenderDropped)
  }

  /** No idle connection: the sender is queued, and the connector is kept unless the key is marked as connecting. */
  function Register(s: State, key: Key, multiplex: bool): State {
    var waits := key in s.pool.connecting;
    var queued := PoolInner(
      if multiplex && !waits then s.pool.connecting + {key} else s.pool.connecting,
      s.pool.waiting[key := Queue(s.pool, key) + [s.nextCheckout]],
      PopIdle(s, key));
    var k := Checkout(key, if waits then WaitConnecting else WaitIdle, if waits then Waiting else Connecting, None, false, None, false);
    NewState(s, queued, k, Pending)
  }

  /** `Pool::checkout`. */
  function StartCheckout(s: State, key: Key, multiplex: bool): State {
    var found := PopResult(s, key);
    if found.Some? then Reserve(s, key, found.value) else Register(s, key, multiplex)
  }

  /** `Checkout::detached`. */
  function StartDetached(s: State, key: Key): State {
    s.(checkouts := s.checkouts[s.nextCheckout := Checkout(key, NoPool, Connecting, None, false, None, false)],
       nextCheckout := s.nextCheckout + 1)
  }

  predicate CanPoll(s: State, c: CheckoutId) {
    && c in s.checkouts
    && !s.checkouts[c].dropping && !s.checkouts[c].polling && s.checkouts[c].outcome == None
    && (c in s.channels ==> s.channels[c] != Taken)
  }

  /** The connection in the channel is handed to the caller. */
  function Receive(s: State, c: CheckoutId, x: Pooled): State
    requires c in s.checkouts
  {
    AddHandle(Update(s, c, s.checkouts[c].(outcome := Some(Delivered(s.nextHandle)))), x).(channels := s.channels[c := Taken])
  }

  /** The start of `Checkout::poll`: check the waiter, and return at once if it has a connection or must wait. */
  function WaiterStep(s: State, c: CheckoutId): State
    requires CanPoll(s, c)
  {
    var k := s.checkouts[c];
    if c in s.channels && s.channels[c].Sent? then Receive(s, c, s.channels[c].value)
    else if c in s.channels && s.channels[c] == Pending && k.waiter == WaitConnecting then s
    else Update(s, c, k.(polling := true))
  }

  /** The checkout hands the caller a new handle. */
  function Complete(s: State, c: CheckoutId, x: Pooled): State
    requires c in s.checkouts
  {
    var done := s.checkouts[c].(connection := None, outcome := Some(Delivered(s.nextHandle)), polling := false);
    AddHandle(Update(s, c, done), x)
  }

  /** `Checkout::connected`: a multiplexed connection is registered with the pool, and the caller gets a copy. */
  function Finish(s: State, c: CheckoutId, id: ConnId): State
    requires c in s.checkouts
  {
    var k := s.checkouts[c];
    var pooled := k.Attached() && s.alive;
    if pooled && Shareable(s.net, id) then Push(Complete(s, c, Pooled(id, true, k.key, false)), k.key, id)
    else Complete(s, c, Pooled(id, false, k.key, pooled))
  }

  function Resolve(s: State, c: CheckoutId, outcome: Outcome): State
    requires c in s.checkouts
  {
    Update(s, c, s.checkouts[c].(outcome := Some(outcome), polling := false))
  }

  /** The replies a turn of the loop can get; a handshake yields a connection never seen before. */
  predicate CanLoop(s: State, c: CheckoutId, reply: Reply) {
    && c in s.checkouts && s.checkouts[c].polling
    && match s.checkouts[c].inner
       case Waiting => reply == Nothing
       case Connected => reply == Nothing && s.checkouts[c].connection.Some?
       case Connecting => reply.NotReady? || reply.Failed? || reply.Transport?
       case Handshaking => reply.NotReady? || reply.Failed? || (reply.Handshake? && reply.conn !in s.net.conns)
  }

  function Made(s: State, id: ConnId, shareable: bool, key: Key): State {
    s.(net := s.net.(conns := s.net.conns[id := ConnInfo(shareable, key)], open := s.net.open + {id}))
  }

  /** A turn of the loop that ends without a connection. */
  function Turn(s: State, c: CheckoutId, reply: Reply): State
    requires c in s.checkouts
  {
    var k := s.checkouts[c];
    match reply
    case Transport(canShare) =>
      Update(s, c, k.(inner := Handshaking))
      .(pool := if canShare && k.Attached() && s.alive then Mark(s.pool, k.key) else s.pool)
    case Failed => Resolve(s, c, if k.inner == Connecting then ConnectFailed else HandshakeFailed)
    case NotReady => Update(s, c, k.(polling := false))
    case _ => Resolve(s, c, Unavailable)
  }

  /** One turn of the loop in `Checkout::poll`. */
  function LoopStep(s: State, c: CheckoutId, reply: Reply): State
    requires CanLoop(s, c, reply)
  {
    var k := s.checkouts[c];
    if k.inner == Connected then Finish(s, c, k.connection.value)
    else if reply.Handshake? then Finish(Made(s, reply.conn, reply.shareable, k.key), c, reply.conn)
    else Turn(s, c, reply)
  }

  predicate CanDrop(s: State, c: CheckoutId) {
    c in s.checkouts && !s.checkouts[c].dropping && !s.checkouts[c].polling
  }

  /** The drop handler of `Checkout` clears the connecting mark of its key ... */
  function BeginDropStep(s: State, c: CheckoutId): State
    requires CanDrop(s, c)
  {
    var k := s.checkouts[c];
    var s1 := Update(s, c, k.(dropping := true));
    if k.Attached() && s.alive then s1.(pool := Unmark(s.pool, k.key)) else s1
  }

  /** ... and then its fields go: the receiver closes, and a connection in flight becomes a handle to be dropped. */
  function EndDropStep(s: State, c: CheckoutId): State
    requires c in s.checkouts && s.checkouts[c].dropping
  {
    var gone := s.(checkouts := s.checkouts - {c}, channels := s.channels - {c});
    if c in s.channels && s.channels[c].Sent? then AddHandle(gone, s.channels[c].value) else gone
  }

  /** Whether the drop handler of a handle gives its connection back. */
  predicate Returns(s: State, p: Pooled) {
    p.conn in s.net.open && !p.isReused && p.hasPool && s.alive
  }

  function DropPooledStep(s: State, h: HandleId): State
    requires h in s.handles
  {
    var p := s.handles[h];
    var gone := s.(handles := s.handles - {h});
    if Returns(s, p) then Push(gone, p.key, p.conn) else gone
  }

  /** Whether the sender of a checkout's channel sits in some queue. */
  predicate Queued(s: State, c: CheckoutId) {
    c in s.checkouts && c in Queue(s.pool, s.checkouts[c].key)
  }

  /** The last pool reference goes: queued senders are dropped and idle connections are closed. */
  function DropPoolStep(s: State): State {
    s.(alive := false, pool := NO_TABLES,
       channels := map c | c in s.channels :: if s.channels[c] == Pending && Queued(s, c) then SenderDropped else s.channels[c])
  }

  predicate Enabled(s: State, e: Event) {
    match e
    case NewCheckout(_, _) => s.alive
    case NewDetached(_) => true
    case PollStart(c) => CanPoll(s, c)
    case PollLoop(c, reply) => CanLoop(s, c, reply)
    case BeginDrop(c) => CanDrop(s, c)
    case EndDrop(c) => c in s.checkouts && s.checkouts[c].dropping
    case DropPooled(h) => h in s.handles
    case SetOpen(id, _) => id in s.net.conns
    case Tick(_) => true
    case DropPool => s.alive
  }

  /** One atomic step; an event that is not enabled changes nothing. */
  function Step(s: State, e: Event): State {
    if !Enabled(s, e) then s
    else match e
      case NewCheckout(key, multiplex) => StartCheckout(s, key, multiplex)
      case NewDetached(key) => StartDetached(s, key)
      case PollStart(c) => WaiterStep(s, c)
      case PollLoop(c, reply) => LoopStep(s, c, reply)
      case BeginDrop(c) => BeginDropStep(s, c)
      case EndDrop(c) => EndDropStep(s, c)
      case DropPooled(h) => DropPooledStep(s, h)
      case SetOpen(id, isOpen) => s.(net := s.net.(open := if isOpen then s.net.open + {id} else s.net.open - {id}))
      case Tick(elapsed) => s.(net := s.net.(now := s.net.now + elapsed))
      case DropPool => DropPoolStep(s)
  }

  /** The state after a run. */
  function Exec(timeout: Option<Time>, run: seq<Event>): State {
    if |run| == 0 then Init(timeout)
    else Step(Exec(timeout, run[..|run| - 1]), run[|run| - 1])
  }
}
