# Verified models of the connection machinery

Dafny models of the concurrent and buffer-juggling parts of the HTTP client and server library, with proofs of what
they promise over whole runs. `dafny verify dfyconfig.toml` checks everything.

| files | part |
|---|---|
| `IdleList`, `PoolState`, `PoolQueues`, `PoolOwnership`, `PoolLifecycle`, `PoolSharing`, `PoolService`, `PoolWaiters`, `PoolAnswers`, `PoolSystem` | the client connection pool: checkouts, waiters, hand-offs, idle connections |
| `Dns`, `Eyeballs`, `Tcp` | address ordering, the happy-eyeballs scheduler, and connecting within a time budget |
| `Buffers`, `Rewinding`, `Auto` | read buffers, replaying a prefix, and telling HTTP/2 from HTTP/1 by the first bytes |
| `Accepting`, `Shutdown` | the accept loop, connection tasks and graceful shutdown |
| `TlsInfo` | broadcasting the result of a TLS handshake to many readers |

## How it is modelled

Each concurrent part has two layers. The first is a state and its atomic steps as a value (`PoolState.Step`,
`Shutdown.Step`, `TlsInfo.Step`, `Auto.Next`): steps of all participants interleave freely, the environment chooses
what I/O answers and when, and a run is any sequence of steps. Invariants are proved for every step, and the main
theorems are about every run. The second is a class whose fields are updated in place with the program's own loops and
branches (`PoolSystem.Pool`, `Eyeballs.EyeballSet`, `Auto.ReadVersion`, `Auto.UpgradableConnection`, `Rewinding.Rewind`,
`Accepting.Serving`, `Shutdown.GracefulShutdown`, `TlsInfo.Channel`, `Dns.SocketAddrs`): each method is proved to do
exactly what the steps say and to keep the invariants.

Assumptions. In the pool a region under the mutex is one step, and looking at a waiter and sending to it is part of that
step; `reuse()` gives a connection exactly when `can_share()` holds, as it does for `HttpConnection`
(src/client/conn/connection.rs:132). Connections, checkouts and handles are identified by numbers, and whether a
connection is open changes at any time. Clocks are monotone; in the scheduler waiting takes exactly as long as it must.
DNS, sockets, TLS, hyper and the runtime appear only through what they answer.

## Where the code is not what one would expect

- The scheduler's documentation (src/happy_eyeballs.rs:71-74) says that without a time between attempts (it calls it the timeout) only one runs at a time.
  The code starts every candidate at once unless an initial concurrency is set. `Eyeballs.OneAtATimeIff` gives the exact
  condition, `Eyeballs.TwoAtOnce` a run.
- An `EyeballSet` whose run ends with a success or a timeout still remembers the error it already had or, without one, the
  first failure it saw. A next run reports that error before any of its own, even with nothing left to try
  (src/happy_eyeballs.rs:145-148 and 190-193). A candidate taken from the queue to be started next is gone when the run
  ends during its wait (src/happy_eyeballs.rs:177-181). `Eyeballs.EyeballSet.Finish` states exactly what error and what
  queue a run leaves behind, and `Eyeballs.StaleError` is such a pair of runs. The program itself never runs a set twice
  (src/client/conn/transport/tcp.rs:286).
- A client that sends the HTTP/2 preface is taken for HTTP/1 when the preface arrives in pieces, because a read is
  compared with everything that was still missing (src/server/conn/auto.rs:278). `Auto.VerdictExact` and
  `Auto.DetectionCorrectIff` give the exact condition, `Auto.FragmentedPreface` an input.
- The number of addresses is cut to 32 bits before it divides the time budget (src/client/conn/transport/tcp.rs:283).
  `Tcp.DelaysFitIff` says exactly when the delays still fit in every budget: when no more attempts come after the initial
  ones than the cut number says. Without an initial concurrency, which the program never sets, none come after them, so
  they always fit. Where they do not, `Tcp.BudgetRunsOut` gives a run that leaves a candidate unstarted.
- A connection attempt that fails does not release the checkouts that wait for it (src/client/pool/mod.rs:139-144).
  `PoolWaiters.FailureStrandsWaiters` is such a run, `PoolWaiters.WaitEndsIff` names the exact events that end such a
  wait, and `PoolWaiters.WaitsIff` says over every run that it lasts exactly until one of them.
- The server has an exit for "all connections closed" (src/server/mod.rs:516-522). It is never taken
  (`Shutdown.NeverAllClosed`), because the server keeps a receiver of that channel itself.

## Model

| member | source | states |
|---|---|---|
| IdleList.NewestUsable | src/client/pool/idle.rs:38-79 | The entry found is open and unexpired, and no newer entry is |
| IdleList.NewestUsableIs | src/client/pool/idle.rs:54-70 | Only one index has that property, so stopping at the first one from the back finds it |
| IdleList.PoppedIsNewest | src/client/pool/idle.rs:45-76 | A pop gives nothing exactly if every entry is closed or was idle for longer than a maximum that is set and not zero, and otherwise the newest of the others, keeping all older ones |
| IdleList.OnlyDeadEntriesDiscarded | src/client/pool/idle.rs:54-76 | An entry neither returned nor kept is closed or was idle for too long |
| IdleList.PoppedIsFresh | src/client/pool/idle.rs:45-65 | A connection handed out is open and was idle for at most the configured maximum |
| IdleList.IdleConnections.Push | src/client/pool/idle.rs:34-36 | Appends at the current time, which keeps the list in time order |
| IdleList.IdleConnections.Pop | src/client/pool/idle.rs:38-79 | On a list in time order, clearing everything at the first expired entry gives the newest connection that is open and not idle for too long, and nothing exactly if there is none |
| PoolState.FirstOpen | src/client/pool/mod.rs:162-166 | The first queued sender whose receiver still exists |
| PoolQueues.PushServes | src/client/pool/mod.rs:156-193 | A push uses up a prefix of the key's queue, sends to all open senders in it, and changes no other queue or channel |
| PoolQueues.PushConsistent | src/client/pool/mod.rs:156-193 | A push keeps queues, channels and checkouts in agreement |
| PoolQueues.QueuedOnce | src/client/pool/mod.rs:98-101 | A queue names a checkout at most once |
| PoolQueues.StepConsistent | src/client/pool/checkout.rs:238-303 | Every step of checkouts, handles and the pool keeps queues, channels and checkouts in agreement |
| PoolQueues.ExecConsistent | src/client/pool/mod.rs:81-118 | In every run queues, channels and checkouts agree |
| PoolOwnership.TakenIsFree | src/client/pool/mod.rs:195-212 | Taking an exclusive or pool-side connection out of its place leaves it nowhere it must not be |
| PoolOwnership.PushOwned | src/client/pool/mod.rs:156-193 | A push of a free connection keeps ownership linear for exclusive and bounded for multiplexed connections |
| PoolOwnership.FinishOwned | src/client/pool/checkout.rs:318-347 | So does registering a new connection and wrapping it for the caller |
| PoolOwnership.StepOwned | src/client/pool/mod.rs:307-320 | So does every step |
| PoolOwnership.OneHolder | src/client/pool/mod.rs:168-192 | Two places on the pool side, or any two for an exclusive connection, never hold the same connection |
| PoolOwnership.ExecOwned | src/client/pool/mod.rs:156-212 | In every run ownership is linear for exclusive and bounded for multiplexed connections |
| PoolLifecycle.HandlesKnowTheirPool | src/client/pool/checkout.rs:318-347 | In every run, while the pool lives, a handle that owns its connection knows the pool, unless a detached checkout delivered it |
| PoolLifecycle.NothingLent | src/client/pool/checkout.rs:167-178 | Without detached checkouts there are no such handles |
| PoolLifecycle.Survives | src/client/pool/mod.rs:307-320 | A step keeps an exclusive connection somewhere, or lets it go because it is closed, expired, in a checkout dropped unpolled, the pool is gone, or its handle came from a detached checkout |
| PoolLifecycle.NothingFromNowhere | src/client/pool/checkout.rs:271-275 | Whatever is held after a step was held before it or comes from the handshake in it |
| PoolLifecycle.ConnsGrow | src/client/pool/checkout.rs:271-275 | Known connections never change, and a handshake's connection is held at once |
| PoolLifecycle.ExclusiveLifecycle | src/client/pool/checkout.rs:262-269 | Over every run an exclusive connection is in exactly one place, or some step retired it for one of these reasons |
| PoolLifecycle.PooledLifecycle | src/client/pool/mod.rs:307-320 | Without detached checkouts, four reasons remain: closed, expired, in a checkout dropped unpolled, or the pool gone |
| PoolLifecycle.RetiredForGood | src/client/pool/mod.rs:307-320 | A retired connection never comes back |
| PoolSharing.StaysInPool | src/client/pool/checkout.rs:318-327 | A step keeps the pool's copy of a multiplexed connection, or takes it away because it is closed or expired, in a checkout dropped unpolled, or the pool is gone |
| PoolSharing.MadeInPool | src/client/pool/checkout.rs:318-327 | A multiplexed connection made by an attached checkout in a living pool is in the pool at once |
| PoolSharing.NothingRepooled | src/client/pool/mod.rs:310-310 | Copies handed out never come back into the pool |
| PoolSharing.SharedLifecycle | src/client/pool/checkout.rs:321-327 | Over every run the pool side has exactly one copy of a multiplexed connection, or none: it was made outside the pool, or some step took the copy away for one of these reasons |
| PoolSharing.UnpooledForGood | src/client/pool/mod.rs:310-310 | Over every run, one that is not in the pool never comes into it |
| PoolService.PushFifo | src/client/pool/mod.rs:162-188 | If a push serves a waiter, it serves every earlier waiter of the key still waiting, and the connection is multiplexed |
| PoolService.FirstComeFirstServed | src/client/pool/mod.rs:101-101 | Over every run, no step serves a waiter and passes over an earlier one of the same key |
| PoolService.SharedReachesEveryWaiter | src/client/pool/mod.rs:168-177 | A multiplexed connection reaches every open waiter of its key, empties the queue, and one copy is stored |
| PoolService.ExclusiveGoesToEarliest | src/client/pool/mod.rs:178-188 | An exclusive connection goes to the earliest open waiter and leaves the rest of the queue and the idle lists alone |
| PoolService.WaiterNeverForgotten | src/client/pool/mod.rs:91-115 | While the pool lives, an unfinished checkout not served from the idle list has its sender in its queue exactly once, or a connection in its channel |
| PoolService.UnavailableMeansPoolGone | src/client/pool/checkout.rs:258-261 | In every run `Unavailable` is returned only after the pool has gone |
| PoolService.PollNeverPanics | src/client/pool/checkout.rs:262-269 | In every run polling an unfinished checkout never reaches an `expect` and never polls a used-up receiver |
| PoolService.ErrorsNameTheirPhase | src/client/pool/checkout.rs:257-276 | In every run a failure is reported as that of the phase that failed, and only a waiter is told `Unavailable` |
| PoolService.KeyIsolation | src/client/pool/mod.rs:314-314 | In every run whatever a checkout delivers was made by a connector of its own key |
| PoolService.NeverHandedOutTwice | src/client/pool/mod.rs:178-188 | In every run an exclusive connection is never in two hands, nor in a hand and in the pool |
| PoolService.OnePooledCopy | src/client/pool/checkout.rs:321-327 | In every run the pool side holds at most one copy of a multiplexed connection |
| PoolService.MarkStandsForAttempt | src/client/pool/checkout.rs:281-300 | In every run a connecting mark stands for a checkout of that key that is still connecting or shaking hands |
| PoolService.SingleFlight | src/client/pool/mod.rs:103-115 | In every run at most one more multiplexing checkout of a key keeps its connector than calls cleared the key's mark |
| PoolService.LaterCheckoutsWait | src/client/pool/mod.rs:103-107 | Between clearing calls every later checkout of the key that finds nothing idle waits without a connector |
| PoolService.MarkedCheckoutsWait | src/client/pool/mod.rs:103-107 | While nothing clears a key's mark, a checkout that finds nothing idle waits with its sender queued |
| PoolService.ShareableTransportMakesOthersWait | src/client/pool/checkout.rs:281-290 | A transport found to be shareable makes later checkouts of the key wait for its handshake |
| PoolService.ClearedCheckoutsConnect | src/client/pool/mod.rs:139-157 | Right after a clearing call a checkout that finds nothing idle keeps its connector |
| PoolService.PlainCheckoutsDoNotBlock | src/client/pool/mod.rs:109-113 | A checkout that cannot multiplex makes nobody wait |
| PoolService.MarkPersists | src/client/pool/mod.rs:139-152 | Without a clearing call a mark stays |
| PoolService.ExecOrdered | src/client/pool/mod.rs:192-192 | In every run every idle list is in time order |
| PoolService.ServedFresh | src/client/pool/mod.rs:91-95 | In every run a checkout served from the idle list gets an open connection that was not idle beyond the maximum |
| PoolService.DroppedConnectionIsReused | src/client/pool/mod.rs:307-320 | A connection dropped open with nobody waiting is what the next checkout of its key gets |
| PoolWaiters.HandshakeReachesEveryWaiter | src/client/pool/checkout.rs:271-275 | In every run, the step in which a multiplexed connection is made sends a copy to every waiter of its key, empties the queue, clears the mark and stores one copy |
| PoolWaiters.DroppedGoesToEarliest | src/client/pool/mod.rs:307-320 | In every run, an exclusive connection dropped open goes to the earliest waiter of its key and to nobody else |
| PoolWaiters.FailureStrandsWaiters | src/client/pool/mod.rs:139-144 | A run that ends with a waiter without a connector, no mark and no attempt for its key |
| PoolWaiters.WaitEndsIff | src/client/pool/checkout.rs:87-91 | Such a wait ends at exactly these events: the end of the pool, dropping the waiter, a multiplexed connection pushed for its key, or an exclusive one pushed while nobody registered earlier waits |
| PoolWaiters.WaitsIff | src/client/pool/checkout.rs:87-91 | Over every run, the waiter still waits exactly if none of these events came |
| PoolWaiters.NothingIdleWhileWaiting | src/client/pool/mod.rs:162-192 | In every run nothing is idle under a key that somebody waits for |
| PoolWaiters.NobodyOvertakesWaiters | src/client/pool/mod.rs:91-95 | So in every run no checkout is served from the idle list before a waiter of its key |
| PoolWaiters.PoolGoneEndsWait | src/client/pool/checkout.rs:258-261 | The end of the pool does end it, with `Unavailable` at the next poll |
| PoolSystem.Pool.CancelConnection | src/client/pool/mod.rs:139-144 | Clears the mark of the key and nothing else |
| PoolSystem.Pool.ConnectedInHandshake | src/client/pool/mod.rs:150-152 | Sets the mark of the key and nothing else |
| PoolSystem.Pool.WalkWaiters | src/client/pool/mod.rs:162-190 | The loop over waiters skips closed ones and serves the first open one or all, as the specification says |
| PoolSystem.Pool.Push | src/client/pool/mod.rs:156-193 | The loop in place does what `PoolState.Push` says |
| PoolSystem.Pool.PopIdle | src/client/pool/mod.rs:195-212 | Takes the newest usable connection, and removes an emptied list unless the connection taken is multiplexed |
| PoolAnswers.StartCheckoutIs | src/client/pool/mod.rs:81-118 | A checkout holds the newest idle connection of its key that is open and not too old; only if there is none is its sender queued last, and it connects unless the key is marked; nothing else changes |
| PoolAnswers.StartDetachedIs | src/client/pool/checkout.rs:167-178 | A detached checkout connects for its key and involves nobody else |
| PoolSystem.Pool.Checkout | src/client/pool/mod.rs:81-118 | The same of the call in place, which keeps all invariants |
| PoolSystem.Pool.Connected | src/client/pool/checkout.rs:318-347 | Registers and wraps a connection as `PoolState.Finish` says |
| PoolSystem.Pool.PollWaiter | src/client/pool/checkout.rs:81-95 | The waiter check is the step `PollStart` |
| PoolSystem.Pool.PollTurn | src/client/pool/checkout.rs:255-302 | A turn of the poll loop is the step `PollLoop` |
| PoolSystem.PollCallAnswers | src/client/pool/checkout.rs:238-303 | From the state before it and what transport and handshake answer: a connection in the channel is delivered; a poll is pending exactly for a waiter still queued or when the phase it reaches is not ready; failures are those of the phase; a handshake's or a held connection is what the caller gets; only a shareable transport marks the key |
| PoolSystem.Pool.Poll | src/client/pool/checkout.rs:238-303 | The same of the call in place, which keeps all invariants |
| PoolSystem.Pool.DropCheckout | src/client/pool/checkout.rs:350-358 | Dropping a checkout clears its key's mark, closes its channel, and releases a connection in flight |
| PoolAnswers.DropPooledIs | src/client/pool/mod.rs:307-320 | A dropped handle gives its connection back exactly if it is open, its own, and the pool lives: to the earliest waiter, or else to the idle list, clearing the mark |
| PoolSystem.Pool.DropPooled | src/client/pool/mod.rs:307-320 | The same of the drop in place, which keeps all invariants |
| Dns.FromBinding | src/client/conn/dns.rs:121-132 | IPv6 is preferred exactly if an IPv6 address is bound, and no family exactly if none is |
| Dns.FirstOf | src/client/conn/dns.rs:41-52 | The first address of a family, or none if there is none |
| Dns.SortedIsPermutation | src/client/conn/dns.rs:37-86 | Sorting loses and adds no address |
| Dns.PreferredLeads | src/client/conn/dns.rs:64-77 | With both families present, the first of the preferred family leads and the first of the other follows |
| Dns.OthersKeepOrder | src/client/conn/dns.rs:56-62 | All other addresses keep their order |
| Dns.SingleFamilyUnchanged | src/client/conn/dns.rs:78-85 | A list of one family is unchanged |
| Dns.SortedIdempotent | src/client/conn/dns.rs:37-86 | Sorting twice is sorting once |
| Dns.SocketAddrs.SetPort | src/client/conn/dns.rs:18-22 | Sets the port of every address and nothing else |
| Dns.SocketAddrs.Pop | src/client/conn/dns.rs:24-26 | Takes the front address |
| Dns.SocketAddrs.FindFirst | src/client/conn/dns.rs:38-52 | One pass with an early exit finds the first address of both families |
| Dns.SocketAddrs.Extract | src/client/conn/dns.rs:54-62 | In either order of the two indices both removals are valid and take the right addresses |
| Dns.SocketAddrs.SortPreferred | src/client/conn/dns.rs:37-86 | The index juggling in place computes `Sorted` |
| Eyeballs.SeenSound | src/happy_eyeballs.rs:141-156 | Observing a next completion keeps the order, timing and concurrency facts |
| Eyeballs.StartAfterWait | src/happy_eyeballs.rs:177-182 | Whichever way a wait ends short of success, the next start comes at that moment: a full delay in which nothing completed, the next observed failure, or at once with nothing in flight |
| Eyeballs.StartsInitially | src/happy_eyeballs.rs:171-175 | A run starts its whole queue at once without an initial concurrency, and else exactly as much of it as that allows, in order |
| Eyeballs.NothingLeft | src/happy_eyeballs.rs:189-194 | When nothing is left, the remembered error is one carried from an earlier run or that of an earliest failure, and is missing only if there was nothing to try |
| Eyeballs.LaterStartsInTime | src/happy_eyeballs.rs:159-182 | The k-th start after the initial ones happens within k delays |
| Eyeballs.OneAtATimeIff | src/happy_eyeballs.rs:71-74 | Without a delay, attempts run one at a time exactly when at most one is started initially |
| Eyeballs.TwoAtOnce | src/happy_eyeballs.rs:171-175 | By default two attempts without a delay are in flight together from the start |
| Eyeballs.EyeballSet.Push | src/happy_eyeballs.rs:119-124 | Appends a candidate |
| Eyeballs.EyeballSet.JoinNext | src/happy_eyeballs.rs:138-157 | Observes an earliest completion by the limit, remembers the first error, and reports exhaustion exactly when nothing is in flight |
| Eyeballs.EyeballSet.JoinNextWithTimeout | src/happy_eyeballs.rs:159-168 | Gives up after the delay exactly when nothing completes within it |
| Eyeballs.EyeballSet.StartInitial | src/happy_eyeballs.rs:171-175 | Starts the whole queue at once without an initial concurrency, and else as much as that allows |
| Eyeballs.EyeballSet.StartRest | src/happy_eyeballs.rs:177-182 | Starts the others in order, each for a justified cause, or ends with a first success |
| Eyeballs.EyeballSet.Drain | src/happy_eyeballs.rs:184-197 | Ends with the first success, with all failed, or with no candidates; the panic arm is dead and the loop terminates |
| Eyeballs.EyeballSet.ProcessAll | src/happy_eyeballs.rs:170-198 | Starts everything at once by default; returns the first success, or an earliest (or carried) error after every candidate was started once and failed, or `NoProgress` exactly with nothing to try |
| Eyeballs.EyeballSet.Finish | src/happy_eyeballs.rs:201-215 | The same within the overall timeout, which is reported only if no started attempt succeeds by then, on a fresh set or on one that ran before, whose attempts in flight then come first; and exactly which error and which candidates a run leaves behind |
| Eyeballs.EyeballSet.Resume | src/happy_eyeballs.rs:79-80 | Between runs the attempts in flight, the queue and the remembered error stay |
| Eyeballs.FailThenSucceed | src/happy_eyeballs.rs:145-148 | An attempt fails, a later one succeeds: the success is returned and the failure stays remembered |
| Eyeballs.StaleError | src/happy_eyeballs.rs:190-193 | Run again with nothing to try, that set reports the old failure |
| Tcp.DelaysFitIff | src/client/conn/transport/tcp.rs:278-284 | The delays of all later starts fit in every budget exactly when there are no more of them than the cut number of addresses |
| Tcp.BudgetRunsOut | src/client/conn/transport/tcp.rs:283-286 | Otherwise there is a run by the rules in which the budget ends before every candidate was started |
| Tcp.StartsInBudget | src/client/conn/transport/tcp.rs:278-286 | Where the delays fit, every start happens within the budget |
| Tcp.AllStartedInBudget | src/client/conn/transport/tcp.rs:278-286 | Where the delays fit, the budget never runs out before every candidate was started |
| Tcp.TryOrderIs | src/client/conn/transport/tcp.rs:242-257 | Every resolved address is tried with the port, in the resolver's order without a budget |
| Tcp.PreferredTriedFirst | src/client/conn/transport/tcp.rs:248-254 | With a budget and both families, IPv6 is tried first unless only an IPv4 address is bound |
| Tcp.Connecting | src/client/conn/transport/tcp.rs:248-257 | Orders the addresses exactly when there is a budget |
| Tcp.Fill | src/client/conn/transport/tcp.rs:288-292 | The attempts are queued in list order |
| Tcp.Connect | src/client/conn/transport/tcp.rs:277-305 | Addresses are dialled in order, all at once by default; with a budget there is an answer, and no error before every candidate was tried within the budget; an error is that of an earliest failure |
| Tcp.ConnectTo | src/client/conn/transport/tcp.rs:235-245 | The same for resolved addresses, after the port is set and they are ordered |
| Buffers.ReadBuf.PutSlice | src/rewind.rs:106-123 | Bytes go right behind the filled ones; filled bytes and memory outside the window stay |
| Rewinding.ChunkSplits | src/rewind.rs:42-55 | A read takes bytes from the front of the stream, no more than fit, and what it takes followed by what is left is the stream |
| Rewinding.NothingLost | src/rewind.rs:37-57 | Over any sequence of reads, what was received followed by what remains is the stream |
| Rewinding.EverythingArrives | src/rewind.rs:37-57 | Reads that have room and are answered receive the whole stream |
| Rewinding.ReadsSplit | src/rewind.rs:37-57 | Reads may be taken in parts, with the same bytes |
| Rewinding.HyperRead | src/bridge/io.rs:49-69 | The adapter appends exactly what the connection gives, behind the filled bytes |
| Rewinding.Rewind.PollRead | src/rewind.rs:37-57 | The prefix is replayed before the connection is touched, a rest of it is put back, and filled bytes stay |
| Rewinding.TokioRead | src/bridge/io.rs:108-134 | The other adapter appends the same bytes, brings both counters up to date, and leaves filled bytes alone |
| Rewinding.ReadAll | src/bridge/io.rs:108-134 | Any number of reads with any buffer sizes, zero included, receives the stream in order with nothing lost |
| Auto.ReadVersion.Cancel | src/server/conn/auto.rs:239-241 | Later polls are interrupted |
| Auto.ReadVersion.Poll | src/server/conn/auto.rs:260-287 | One successful read always decides; HTTP/2 exactly when what was consumed is the 24-byte preface; the consumed bytes are all given back; a poll that does not resolve consumes nothing |
| Auto.EventIntact | src/server/conn/auto.rs:162-189 | A poll hands on bytes from the front of the stream and keeps the rest |
| Auto.StreamIntact | src/server/conn/auto.rs:283-285 | Over every run of polls, reads and shutdowns the protocol receives the stream from its first byte, with nothing lost |
| Auto.ProtocolIsFinal | src/server/conn/auto.rs:169-188 | A chosen protocol is never left, and the service goes to it unchanged |
| Auto.WholeStreamServed | src/server/conn/auto.rs:169-188 | A protocol that reads often enough from the poll that chooses it on receives the whole stream |
| Auto.DrainsIff | src/server/conn/auto.rs:131-135 | A protocol is told to drain exactly if a shutdown came since it was chosen |
| Auto.CancelledNeverServes | src/server/conn/auto.rs:136-138 | A shutdown during detection keeps the connection from ever serving, and nothing is consumed |
| Auto.VerdictExact | src/server/conn/auto.rs:271-281 | Over every run a protocol is chosen exactly when some read gives data before a shutdown, and it is HTTP/2 exactly when the stream begins with the preface and that read gives all of it |
| Auto.DetectionCorrectIff | src/server/conn/auto.rs:278-281 | The verdict is right about the stream exactly unless a preface comes in pieces |
| Auto.FragmentedPreface | src/server/conn/auto.rs:278-278 | A preface in two pieces is taken for HTTP/1 |
| Auto.UpgradableConnection.GracefulShutdown | src/server/conn/auto.rs:131-140 | Cancels a detection, or drains a protocol |
| Auto.UpgradableConnection.Decide | src/server/conn/auto.rs:163-182 | The service is there to be taken and is taken once, when the version becomes known |
| Auto.UpgradableConnection.Poll | src/server/conn/auto.rs:155-190 | A poll is interrupted exactly if detecting and cancelled, fails exactly if the detecting read fails, is pending if it is not ready, and otherwise goes on to the protocol at once and gives its answer |
| Auto.ServeConnection | src/server/conn/auto.rs:155-190 | From a fresh connection through any run in place: what was received is a prefix of the stream, all of it with enough reads, and the verdict is the exact one |
| Accepting.AfterPaired | src/server/mod.rs:293-333 | A poll keeps streams, services and readiness polls paired |
| Accepting.AcceptedAreHandedOut | src/server/mod.rs:293-333 | In every run accepted streams are handed out in order, all but the one in `Making`, each with the service made from it, and every call follows a readiness poll of its own |
| Accepting.ServeGoesRound | src/server/mod.rs:293-333 | In every run every third successful answer is the stream of the next connection and the one after it its service; other answers change nothing |
| Accepting.TurnsEnd | src/server/mod.rs:345-360 | A poll ends at the first answer that is not ready or fails, with the cause of that moment, having handed out a connection for every round |
| Accepting.HistoryGrows | src/server/mod.rs:293-333 | Nothing accepted or handed out is ever taken back |
| Accepting.Serving.PollOnce | src/server/mod.rs:293-333 | One poll in place: it waits, fails with the cause of its state, goes on, or hands out the stream with its service, and keeps the pairing |
| Accepting.Serving.Poll | src/server/mod.rs:345-360 | The loop in place ends as `TurnsEnd` says |
| Shutdown.StepSound | src/server/mod.rs:468-525 | Every step of the server, of the tasks and of the signal keeps receivers counted and notifications single |
| Shutdown.NotifiedAtMostOnce | src/server/mod.rs:489-511 | In every run a task calls `graceful_shutdown` at most once, and only after the signal fired or the server was dropped |
| Shutdown.NeverAllClosed | src/server/mod.rs:516-522 | In every run the second channel's receivers are the server and the unfinished tasks, so the server never exits because connections ended |
| Shutdown.ClosedExactlyWhen | src/server/mod.rs:366-371 | In every run the shutdown channel is closed exactly when the server saw the signal or is gone |
| Shutdown.ClosureIsPermanent | src/server/mod.rs:380-384 | Once closed, it stays closed |
| Shutdown.NotificationWaits | src/server/mod.rs:494-509 | A running task not yet notified can observe the closure whatever others did meanwhile, and then is notified once |
| Shutdown.FusedForGood | src/server/mod.rs:490-493 | A notified task is never notified again |
| Shutdown.SignalCloses | src/server/mod.rs:472-476 | Looking at a fired signal closes the channel at once, and every running task not yet told can be told |
| Shutdown.SignalIsHeeded | src/server/mod.rs:471-523 | From any state, once the signal has fired and the server took three more steps, it has ended, and the channel is closed unless it ended with an error |
| Shutdown.FiredSignalIsHeeded | src/server/mod.rs:471-523 | So in every run in which the signal fires |
| Shutdown.NothingAcceptedAfterSignal | src/server/mod.rs:471-481 | After the signal fires at most one more stream is accepted, and none once the server has looked |
| Shutdown.StoppedForGood | src/server/mod.rs:473-476 | A server that has ended accepts nothing and starts nothing |
| Shutdown.GracefulShutdown.constructor | src/server/mod.rs:435-446 | Two fresh channels with one receiver each |
| Shutdown.GracefulShutdown.Send | src/server/mod.rs:367-370 | Lets go of the receiver, once |
| Shutdown.GracefulShutdown.PollServer | src/server/mod.rs:483-514 | A connection handed out becomes a task with a clone of the second receiver |
| Shutdown.TurnsAnswer | src/server/mod.rs:468-525 | A poll of the server answers the signal first, and otherwise as the plain accept loop does |
| Shutdown.GracefulShutdown.Poll | src/server/mod.rs:468-525 | The same in place: with the signal fired it is ready and the channel closed; it fails exactly at a failing answer, with its cause; it never answers that all connections closed |
| Shutdown.GracefulShutdown.Select | src/server/mod.rs:495-508 | The select takes one ready branch, in either order, or none |
| Shutdown.TaskPollAnswers | src/server/mod.rs:494-511 | A polled task is told once if the channel is closed, unless its connection ends and is looked at first, and finishes exactly if its connection ends |
| Shutdown.GracefulShutdown.PollTask | src/server/mod.rs:489-513 | The same in place, as the steps `Notify` and `ConnectionEnds` in the order the select takes them |
| Shutdown.GracefulShutdown.Drop | src/server/mod.rs:408-425 | Dropping the server releases both receivers |
| TlsInfo.AdvanceSound | src/info/tls.rs:154-183 | A call going on keeps lock, one-shot and shared state in agreement |
| TlsInfo.StepSound | src/info/tls.rs:121-183 | So does every step, cancellation included |
| TlsInfo.SentIsFirst | src/info/tls.rs:122-126 | In every run the value that counts is that of the first send, if the sender was still there |
| TlsInfo.EveryReceiverGetsTheValue | src/info/tls.rs:154-183 | In every run every `recv` on a pending channel that returns gives the value sent first |
| TlsInfo.OneShotConsumedOnce | src/info/tls.rs:177-182 | In every run the one-shot gives its value at most once, and nobody is left polling it afterwards |
| TlsInfo.FailuresExplained | src/info/tls.rs:171-179 | A call panics only if the sender went away without sending, and returns nothing only on an empty channel |
| TlsInfo.ReceivedIsFinal | src/info/tls.rs:181-181 | `Received` and its value are final |
| TlsInfo.SomeCallCanAdvance | src/info/tls.rs:154-183 | Once the sender has sent or is gone, calls never all wait for each other |
| TlsInfo.SchedulesEnd | src/info/tls.rs:154-183 | However calls are scheduled, they take only so many steps |
| TlsInfo.NobodyWaitsForever | src/info/tls.rs:154-183 | A schedule that cannot be continued has let every call return |
| TlsInfo.CancellationLosesNothing | src/info/tls.rs:164-182 | After any run with any cancellations, a new call gets the value sent as soon as nobody else holds the lock |
| TlsInfo.CancelledHolder | src/info/tls.rs:177-179 | Cancelling the lock's holder leaves the channel as it was and the lock free |
| TlsInfo.Channel.Send | src/info/tls.rs:122-126 | The first value is sent, later ones are dropped |
| TlsInfo.Channel.Recv | src/info/tls.rs:154-154 | A new call starts before its first look |
| TlsInfo.Channel.DropCall | src/info/tls.rs:154-183 | Dropping a suspended call gives back the lock it holds and changes nothing else |
| TlsInfo.Channel.LookUnderRead | src/info/tls.rs:155-163 | The first look, and giving the read lock back |
| TlsInfo.Channel.LookUnderWrite | src/info/tls.rs:165-175 | The second look, keeping the write lock only if the value is still to come |
| TlsInfo.Channel.AwaitShot | src/info/tls.rs:177-182 | The value is taken, stored and returned under the write lock |
| TlsInfo.SettledEnds | src/info/tls.rs:154-183 | A polled call that lacks its lock waits on; one that gets it returns what is there, waits for the one-shot under the write lock, or panics if the sender is gone without a value |
| TlsInfo.Channel.Poll | src/info/tls.rs:154-183 | The same in place |

## Left out

- Sockets, DNS lookup, TLS, hyper's connections, the runtime and tracing: only their answers appear, as arbitrary inputs.
- src/client/service.rs: when checkouts and handles are dropped is arbitrary in the pool model, which covers the moments `ResponseFuture` and `execute_request` choose.
- Mutex poisoning and a waiter closing between `is_closed` and `send`: a locked region is one step.
- `max_idle_per_host`: the code never reads it, so no bound on idle lists is stated.
- That a waiter whose connection attempt failed is eventually served: the code does not see to it (`PoolWaiters.FailureStrandsWaiters`).
- PoolSystem.Pool.DropCheckout: does both parts of a drop undisturbed; the step relation splits them and lets other steps come between.
- PoolSystem.Pool.Poll: runs undisturbed; the step relation lets steps of others come between its turns.
- The scheduler awaits exactly as long as it must: delays of the runtime beyond that are not modelled. Between two runs of a set its attempts are not polled, and how long each then still takes is arbitrary (`Eyeballs.EyeballSet.Resume`).
- Tcp.Connect: the number of addresses must not be a multiple of 2^32, for which the program divides by zero.
- Local binding, socket options, URI parsing, Host header and SNI checks: one-branch facts without a property that spans operations.
- Writing through the adapters: pure delegation.
- Rewinding.Source: a connection that answers "not yet" or an error is taken to have written nothing, as the read traits require.
- The graceful server does not wait for its connections after the signal, so no such claim is made.
- Shutdown.GracefulShutdown.Poll: the signal does not change during one poll; the step relation lets it fire between any two steps. The runtime dropping a task appears only as a step.
- TlsInfo.Channel.Send: a value sent when every receiver is gone is kept by the model and lost by the program; nobody can ask for it. Fairness of the lock's queue is not modelled: any waiting call may get the lock.
- `TlsConnectionInfo::server` and `client`: field copying from the TLS library.
- Builders, service adapters, body wrappers, stream dispatch, retry, discovery registry and pidfile: delegation or file-system behaviour.
