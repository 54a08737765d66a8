/** Connecting over TCP (src/client/conn/transport/tcp.rs): address preparation, the delay, and the attempts. */
module Tcp {
  import opened Wrappers
  import opened Dns
  import opened Eyeballs

  datatype Config = Config(timeout: Option<Time>, localV4: Option<nat>, localV6: Option<nat>)

  datatype TcpConnectionError<E> = Refused(error: E) | TimedOut(elapsed: Time) | NoCandidates

  const U32: nat := 0x1_0000_0000

  /** The number of addresses is cut to 32 bits before it divides the budget. */
  function Delay(budget: Option<Time>, n: nat): (r: Option<Time>)
    requires budget.Some? && n > 0 ==> n % U32 != 0
    ensures r.Some? <==> budget.Some?
  {
    if n == 0 || budget.None? then budget else Some(budget.value / (n % U32))
  }

  /** The addresses in the order in which they are tried. */
  function TryOrder(addrs: seq<SocketAddr>, port: nat, config: Config): seq<SocketAddr> {
    var ported := Ported(addrs, port);
    if config.timeout.Some? then Sorted(ported, FromBinding(config.localV4, config.localV6)) else ported
  }

  /** Every address gets the port; the order is the resolver's without a budget, and by preference with one. */
  lemma TryOrderIs(addrs: seq<SocketAddr>, port: nat, config: Config)
    ensures var ported := seq(|addrs|, k requires 0 <= k < |addrs| => SocketAddr(addrs[k].version, addrs[k].ip, port));
      && multiset(TryOrder(addrs, port, config)) == multiset(ported)
      && (config.timeout.None? ==> TryOrder(addrs, port, config) == ported)
  {
    var ported := seq(|addrs|, k requires 0 <= k < |addrs| => SocketAddr(addrs[k].version, addrs[k].ip, port));
    assert Ported(addrs, port) == ported;
    SortedIsPermutation(ported, FromBinding(config.localV4, config.localV6));
  }

  /** With a budget and both families resolved, IPv6 is tried first unless only an IPv4 address is bound. */
  lemma PreferredTriedFirst(addrs: seq<SocketAddr>, port: nat, config: Config, i: nat, j: nat)
    requires config.timeout.Some? && IsFirst(addrs, V4, i) && IsFirst(addrs, V6, j)
    ensures |TryOrder(addrs, port, config)| >= 2
    ensures var v4, v6 := addrs[i].(port := port), addrs[j].(port := port);
      TryOrder(addrs, port, config)[..2] == if config.localV4.Some? && config.localV6.None? then [v4, v6] else [v6, v4]
  {
    PreferredLeads(Ported(addrs, port), FromBinding(config.localV4, config.localV6), i, j);
  }

  function Attempts<T, E>(addrs: seq<SocketAddr>, dial: SocketAddr -> Eyeballs.Attempt<T, E>): seq<Eyeballs.Attempt<T, E>> {
    seq(|addrs|, i requires 0 <= i < |addrs| => dial(addrs[i]))
  }

  lemma DivMul(t: nat, n: nat, k: nat)
    requires 0 < n && k <= n
    ensures k * (t / n) <= t
  {
    assert n * (t / n) <= t;
    var d := t / n;
    assert k * d + (n - k) * d == n * d;
  }

  /**
   * With `c` of `n` attempts started at once, the delays of the others fit in every budget exactly when no more
   * attempts are left than the cut count says. Without an initial concurrency none are left, so they always fit.
   */
  lemma DelaysFitIff(n: nat, c: nat)
    requires n % U32 != 0 && c <= n
    ensures (forall budget: nat :: (n - c) * Delay(Some(budget), n).value <= budget) <==> n - c <= n % U32
  {
    var m := n % U32;
    if n - c <= m {
      forall budget: nat ensures (n - c) * Delay(Some(budget), n).value <= budget { DivMul(budget, m, n - c); }
    } else {
      assert Delay(Some(m), n).value == 1;
      assert (n - c) * Delay(Some(m), n).value > m;
    }
  }

  /** No more attempts come after the initial ones than the cut count of all attempts says. */
  predicate LaterStartsFit(n: nat, initial: nat) {
    n <= initial + n % U32
  }

  /** With the computed delay, every start happens within the budget. */
  lemma StartsInBudget<T, E>(p: Progress<T, E>, plan: Plan<T, E>, budget: Time, k: nat)
    requires Sound(p, plan) && LaterStartsFit(|plan.candidates|, plan.initial) && k < |p.starts|
    requires |plan.candidates| % U32 != 0 && plan.delay == Delay(Some(budget), |plan.candidates|)
    ensures p.starts[k].time <= plan.t0 + budget
  {
    if k >= plan.initial {
      LaterStartsInTime(p, plan, plan.delay.value, k);
      DivMul(budget, |plan.candidates| % U32, k - plan.initial + 1);
    }
  }

  lemma LastStartInTime<T, E>(p: Progress<T, E>, plan: Plan<T, E>, d: Time)
    requires Sound(p, plan) && plan.delay == Some(d) && plan.initial <= |p.starts|
    ensures WaitFrom(p.starts, |p.starts|, plan.t0) <= plan.t0 + (|p.starts| - plan.initial) * d
  {
    if |p.starts| > plan.initial {
      LaterStartsInTime(p, plan, d, |p.starts| - 1);
    }
  }

  /** With the computed delay, the budget never runs out before every candidate was started. */
  lemma AllStartedInBudget<T, E>(p: Progress<T, E>, plan: Plan<T, E>, budget: Time)
    requires Sound(p, plan) && LaterStartsFit(|plan.candidates|, plan.initial) && plan.initial <= |p.starts|
    requires |plan.candidates| % U32 != 0 && plan.delay == Delay(Some(budget), |plan.candidates|)
    requires CutShort(p, plan, Some(plan.t0 + budget))
    ensures |p.starts| == |plan.candidates|
  {
    var later, d := |p.starts| - plan.initial, plan.delay.value;
    LastStartInTime(p, plan, d);
    if |p.starts| < |plan.candidates| {
      MulStep(later, d);
      DivMul(budget, |plan.candidates| % U32, later + 1);
    }
  }

  /** Attempts that never complete, started one per time unit after the initial ones. */
  function Stalled<T, E>(dead: Eyeballs.Attempt<T, E>, c: nat, m: nat): (starts: seq<Start<T, E>>)
    ensures |starts| == m
  {
    seq(m, k requires 0 <= k < m =>
      Start(dead, if k < c then 0 else k - c + 1, if k < c then Initially else AfterDelay, k + 1, false))
  }

  /**
   * Where the later starts do not fit, which takes a set initial concurrency, there is a run that follows all the
   * rules and in which the budget runs out before every candidate was started.
   */
  lemma BudgetRunsOut<T, E>(dead: Eyeballs.Attempt<T, E>, n: nat, c: nat) returns (p: Progress<T, E>, plan: Plan<T, E>, budget: Time)
    requires dead.latency == None && n % U32 != 0 && c <= n && !LaterStartsFit(n, c)
    ensures |plan.candidates| == n && plan.initial == c && plan.delay == Delay(Some(budget), n)
    ensures Sound(p, plan) && c <= |p.starts| < n && CutShort(p, plan, Some(plan.t0 + budget))
  {
    budget := n % U32;
    plan := Plan(seq(n, _ => dead), 0, c, Some(1), None, 0);
    var starts := Stalled(dead, c, c + budget);
    p := Progress(starts, UnseenIn(starts), None, budget, None);
    assert Delay(Some(budget), n) == Some(1);
    StalledStaggered(dead, plan, c + budget);
    assert 0 in p.tasks;
  }

  lemma StalledStaggered<T, E>(dead: Eyeballs.Attempt<T, E>, plan: Plan<T, E>, m: nat)
    requires plan.t0 == 0 && plan.delay == Some(1) && dead.latency == None
    ensures Staggered(Stalled(dead, plan.initial, m), plan)
  {
    var starts := Stalled(dead, plan.initial, m);
    forall k | plan.initial <= k < |starts| ensures StaggerOk(starts, plan, k) {
      assert WaitFrom(starts, k, 0) == k - plan.initial;
    }
  }

  method Connecting(addresses: SocketAddrs, config: Config)
    modifies addresses
    ensures addresses.addrs ==
      if config.timeout.Some? then Sorted(old(addresses.addrs), FromBinding(config.localV4, config.localV6)) else old(addresses.addrs)
  {
    if config.timeout.Some? {
      addresses.SortPreferred(FromBinding(config.localV4, config.localV6));
    }
  }

  /** The attempts are queued in list order. */
  method Fill<T(!new), E(!new)>(addresses: SocketAddrs, attempts: EyeballSet<T, E>, dial: SocketAddr -> Eyeballs.Attempt<T, E>)
    requires attempts.Fresh() && attempts.queue == []
    modifies addresses, attempts`queue
    ensures addresses.addrs == [] && attempts.queue == Attempts(old(addresses.addrs), dial)
    ensures attempts.Fresh()
  {
    ghost var addrs := addresses.addrs;
    ghost var n := 0;
    while |addresses.addrs| > 0
      invariant 0 <= n <= |addrs| && addresses.addrs == addrs[n..]
      invariant attempts.Fresh()
      invariant attempts.queue == Attempts(addrs[..n], dial)
      decreases |addresses.addrs|
    {
      var address := addresses.Pop();
      attempts.Push(dial(address.value));
      n := n + 1;
    }
    assert addrs[..n] == addrs;
  }

  /** What a caller learns from the outcome of the attempts. */
  function Report<T, E>(result: Option<Result<T, HappyEyeballsError<E>>>): Option<Result<T, TcpConnectionError<E>>> {
    match result
    case None => None
    case Some(Ok(v)) => Some(Ok(v))
    case Some(Err(Error(e))) => Some(Err(Refused(e)))
    case Some(Err(Timeout(elapsed))) => Some(Err(TimedOut(elapsed)))
    case Some(Err(NoProgress)) => Some(Err(NoCandidates))
  }

  /** The plan followed for a list of addresses. */
  ghost function PlanOf<T, E>(addrs: seq<SocketAddr>, config: Config, dial: SocketAddr -> Eyeballs.Attempt<T, E>,
                              initialConcurrency: Option<nat>, now: Time): Plan<T, E>
    requires config.timeout.Some? && |addrs| > 0 ==> |addrs| % U32 != 0
  {
    Plan(Attempts(addrs, dial), now, Concurrency(initialConcurrency, |addrs|), Delay(config.timeout, |addrs|), None, now)
  }

  /** Addresses are dialled in order, and all of them at once unless an initial concurrency is set. */
  ghost predicate Dialled<T, E>(starts: seq<Start<T, E>>, addrs: seq<SocketAddr>, dial: SocketAddr -> Eyeballs.Attempt<T, E>,
                                initialConcurrency: Option<nat>, now: Time) {
    && |starts| <= |addrs|
    && (forall k :: 0 <= k < |starts| ==> starts[k].attempt == dial(addrs[k]))
    && (initialConcurrency.None? ==> |starts| == |addrs| && forall k :: 0 <= k < |starts| ==> starts[k].time == now)
  }

  lemma DialledAs<T, E>(starts: seq<Start<T, E>>, addrs: seq<SocketAddr>, dial: SocketAddr -> Eyeballs.Attempt<T, E>,
                        initialConcurrency: Option<nat>, now: Time)
    requires InitialStarts(starts, 0, Attempts(addrs, dial), initialConcurrency, now)
    ensures Dialled(starts, addrs, dial, initialConcurrency, now)
  {
  }

  /** A fresh set filled with the attempts, run to its end. */
  method Race<T(!new), E(!new)>(attempts: EyeballSet<T, E>, ghost plan: Plan<T, E>, ghost queue: seq<Eyeballs.Attempt<T, E>>)
    returns (result: Option<Result<T, HappyEyeballsError<E>>>)
    requires attempts.Fresh() && attempts.Reset() && attempts.queue == queue
    requires plan == Plan(queue, attempts.now, Concurrency(attempts.initialConcurrency, |queue|), attempts.delay, None, attempts.now)
    modifies attempts
    ensures Finished(attempts.View(), plan, attempts.timeout, result)
    ensures InitialStarts(attempts.starts, 0, queue, attempts.initialConcurrency, plan.t0)
  {
    assert attempts.PlanFor() == plan by { assert [] + attempts.queue == attempts.queue; }
    result := attempts.Finish();
  }

  /** `TcpConnecting::connect`; `initialConcurrency` is always absent in the program. */
  method Connect<T(!new), E(!new)>(addresses: SocketAddrs, config: Config, dial: SocketAddr -> Eyeballs.Attempt<T, E>,
                                   initialConcurrency: Option<nat>, now: Time)
    returns (r: Option<Result<T, TcpConnectionError<E>>>, attempts: EyeballSet<T, E>)
    requires config.timeout.Some? && |addresses.addrs| > 0 ==> |addresses.addrs| % U32 != 0
    modifies addresses
    ensures fresh(attempts)
    ensures Dialled(attempts.starts, old(addresses.addrs), dial, initialConcurrency, now)
    ensures Tried(attempts.View(), PlanOf(old(addresses.addrs), config, dial, initialConcurrency, now), config.timeout, r)
  {
    ghost var addrs := addresses.addrs;
    ghost var plan := PlanOf(addresses.addrs, config, dial, initialConcurrency, now);
    var delay := if |addresses.addrs| == 0 then config.timeout
                 else if config.timeout.Some? then Some(config.timeout.value / (|addresses.addrs| % U32)) else None;
    attempts := new EyeballSet(delay, config.timeout, initialConcurrency, now);
    Fill(addresses, attempts, dial);
    var result := Race(attempts, plan, Attempts(addrs, dial));
    DialledAs(attempts.starts, addrs, dial, initialConcurrency, now);
    r := Report(result);
    TriedAs(attempts.View(), plan, config.timeout, result);
  }

  /**
   * The candidates are tried in order. With a budget there is an answer, and no error is returned before every
   * candidate was tried within the budget.
   */
  ghost predicate Tried<T, E>(p: Progress<T, E>, plan: Plan<T, E>, timeout: Option<Time>, r: Option<Result<T, TcpConnectionError<E>>>) {
    && |p.starts| <= |plan.candidates|
    && (forall k :: 0 <= k < |p.starts| ==> p.starts[k].attempt == plan.candidates[k])
    && (r == Some(Err(NoCandidates)) <==> plan.candidates == [])
    && (timeout.Some? ==> r.Some?)
    && (timeout.Some? && LaterStartsFit(|plan.candidates|, plan.initial) ==> InBudget(p, plan, timeout.value) && (r.value.Err? ==> |p.starts| == |plan.candidates|))
    && match r
       case Some(Ok(v)) => FirstSuccess(p, v)
       case Some(Err(Refused(e))) => AllFailed(p, plan, e)
       case Some(Err(TimedOut(t))) => timeout == Some(t) && CutShort(p, plan, CutAt(timeout, plan.t0))
       case Some(Err(NoCandidates)) => true
       case None => CutShort(p, plan, None)
  }

  ghost predicate InBudget<T, E>(p: Progress<T, E>, plan: Plan<T, E>, budget: Time) {
    forall k :: 0 <= k < |p.starts| ==> p.starts[k].time <= plan.t0 + budget
  }

  lemma TriedAs<T, E>(p: Progress<T, E>, plan: Plan<T, E>, timeout: Option<Time>, result: Option<Result<T, HappyEyeballsError<E>>>)
    requires Finished(p, plan, timeout, result) && plan.initial <= |plan.candidates| && plan.carried.None? && plan.since == plan.t0
    requires timeout.Some? && |plan.candidates| > 0 ==> |plan.candidates| % U32 != 0
    requires plan.delay == Delay(timeout, |plan.candidates|)
    ensures Tried(p, plan, timeout, Report(result))
  {
    if timeout.Some? && LaterStartsFit(|plan.candidates|, plan.initial) {
      forall k: nat | k < |p.starts| ensures p.starts[k].time <= plan.t0 + timeout.value {
        StartsInBudget(p, plan, timeout.value, k);
      }
      if result.value.Err? && result.value.error.Timeout? {
        AllStartedInBudget(p, plan, timeout.value);
      }
    }
  }

  /** Sets the port and orders the addresses. */
  method Prepare(resolved: SocketAddrs, port: nat, config: Config)
    modifies resolved
    ensures resolved.addrs == TryOrder(old(resolved.addrs), port, config)
  {
    resolved.SetPort(port);
    Connecting(resolved, config);
  }

  /** `TcpTransport::connect` after resolution: set the port, order the addresses and try them. */
  method ConnectTo<T(!new), E(!new)>(resolved: SocketAddrs, port: nat, config: Config, dial: SocketAddr -> Eyeballs.Attempt<T, E>,
                                     initialConcurrency: Option<nat>, now: Time)
    returns (r: Option<Result<T, TcpConnectionError<E>>>, attempts: EyeballSet<T, E>)
    requires config.timeout.Some? && |resolved.addrs| > 0 ==> |resolved.addrs| % U32 != 0
    modifies resolved
    ensures fresh(attempts) && |TryOrder(old(resolved.addrs), port, config)| == |old(resolved.addrs)|
    ensures Dialled(attempts.starts, TryOrder(old(resolved.addrs), port, config), dial, initialConcurrency, now)
    ensures Tried(attempts.View(), PlanOf(TryOrder(old(resolved.addrs), port, config), config, dial, initialConcurrency, now), config.timeout, r)
  {
    SameLength(resolved.addrs, port, config);
    Prepare(resolved, port, config);
    r, attempts := Connect(resolved, config, dial, initialConcurrency, now);
  }

  lemma SameLength(addrs: seq<SocketAddr>, port: nat, config: Config)
    ensures |TryOrder(addrs, port, config)| == |addrs|
  {
    var s := Ported(addrs, port);
    SortedIsPermutation(s, FromBinding(config.localV4, config.localV6));
    assert |multiset(Sorted(s, FromBinding(config.localV4, config.localV6)))| == |multiset(s)|;
  }
}
