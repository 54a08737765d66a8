/**
 * The happy-eyeballs scheduler (src/happy_eyeballs.rs).
 *
 * Time is idealised: awaiting takes exactly as long as it must. Each attempt has a latency and a result fixed in
 * advance but otherwise arbitrary, so every order of completions is covered; attempts that finish at the same
 * moment are observed in any order.
 */
module Eyeballs {
  import opened Wrappers

  type Time = nat

  /** An attempt; without a latency it never completes. */
  datatype Attempt<T, E> = Attempt(latency: Option<Time>, result: Result<T, E>)

  datatype HappyEyeballsError<E> = Timeout(elapsed: Time) | NoProgress | Error(error: E)

  datatype Eyeball<T> = Success(value: T) | Failure | Elapsed | Exhausted

  datatype Cause = Initially | AfterDelay | AfterFailure | NothingInFlight

  /** A started attempt: when and why it was started, how many were then in flight, and whether it was seen to complete. */
  datatype Start<T, E> = Start(attempt: Attempt<T, E>, time: Time, cause: Cause, inFlight: nat, seen: bool)

  /** Where the scheduler stands; `tasks` and `first` are positions in `starts`. */
  datatype Progress<T, E> = Progress(
    starts: seq<Start<T, E>>,
    tasks: set<nat>,             // in flight
    first: Option<nat>,          // the first one seen to complete
    now: Time,
    error: Option<HappyEyeballsError<E>>)

  /**
   * What a run is to do. The first `initial` candidates are in flight before the first wait; on a set that has run before
   * they begin with the attempts still in flight, `carried` is an error it remembers, and `since` is when it first ran.
   */
  datatype Plan<T, E> = Plan(
    candidates: seq<Attempt<T, E>>, t0: Time, initial: nat, delay: Option<Time>, carried: Option<E>, since: Time)

  function AttemptsOf<T, E>(starts: seq<Start<T, E>>): seq<Attempt<T, E>> {
    seq(|starts|, i requires 0 <= i < |starts| => starts[i].attempt)
  }

  /** What a run is to do from a ready set. */
  function RunPlan<T, E>(p: Progress<T, E>, queue: seq<Attempt<T, E>>, concurrency: Option<nat>, delay: Option<Time>,
                         started: Option<Time>): Plan<T, E>
  {
    Plan(AttemptsOf(p.starts) + queue, p.now, |p.starts| + Concurrency(concurrency, |queue|), delay,
         if p.error.Some? && p.error.value.Error? then Some(p.error.value.error) else None,
         if started.Some? then started.value else p.now)
  }

  /** When a started attempt completes, if it ever does. */
  function Due<T, E>(s: Start<T, E>): Time {
    if s.attempt.latency.Some? then s.time + s.attempt.latency.value else 0
  }

  predicate DueBy<T, E>(s: Start<T, E>, limit: Option<Time>) {
    s.attempt.latency.Some? && (limit.Some? ==> Due(s) <= limit.value)
  }

  function Max(a: nat, b: nat): nat { if a < b then b else a }

  /** How many attempts are started at once. */
  function Concurrency(initial: Option<nat>, n: nat): nat {
    if initial.Some? && initial.value < n then initial.value else n
  }

  /** The end of the overall timeout. */
  function CutAt(timeout: Option<Time>, t0: Time): Option<Time> {
    if timeout.Some? then Some(t0 + timeout.value) else None
  }

  // ---------------------------------------------------------------------------------------------
  // What always holds
  // ---------------------------------------------------------------------------------------------

  /** An attempt is in flight until it is seen, it is seen on time, and `first` is an earliest one seen. */
  ghost predicate Tracked<T, E>(p: Progress<T, E>) {
    && (forall i: nat :: i in p.tasks ==> i < |p.starts|)
    && (forall i: nat :: i < |p.starts| ==> (i in p.tasks <==> !p.starts[i].seen))
    && (forall i: nat :: i < |p.starts| && p.starts[i].attempt.latency.Some? ==> (p.starts[i].seen || p.now <= Due(p.starts[i])))
    && (forall i: nat :: i < |p.starts| && p.starts[i].seen ==>
          DueBy(p.starts[i], Some(p.now)) && p.first.Some? && p.first.value < |p.starts| && Due(p.starts[p.first.value]) <= Due(p.starts[i]))
    && (p.first.Some? ==> p.first.value < |p.starts| && p.starts[p.first.value].seen)
    && (p.error.Some? ==> p.error.value.Error?)
  }

  /** Attempts are started in queue order, the first `c` at once. */
  ghost predicate StartedInOrder<T, E>(starts: seq<Start<T, E>>, plan: Plan<T, E>) {
    && |starts| <= |plan.candidates|
    && (forall k :: 0 <= k < |starts| ==> starts[k].attempt == plan.candidates[k])
    && (forall k :: 0 <= k < |starts| && k < plan.initial ==>
          starts[k].time == plan.t0 && starts[k].cause == Initially && starts[k].inFlight == k + 1)
  }

  /** When the wait before start `k` began. */
  function WaitFrom<T, E>(starts: seq<Start<T, E>>, k: nat, t0: Time): Time
    requires k <= |starts|
  {
    if k == 0 then t0 else starts[k - 1].time
  }

  predicate FailedAt<T, E>(starts: seq<Start<T, E>>, i: nat, time: Time) {
    i < |starts| && starts[i].seen && Due(starts[i]) == time && starts[i].attempt.result.Err?
  }

  /** No attempt started before start `k` completes after `from` and before the start. */
  ghost predicate Quiet<T, E>(starts: seq<Start<T, E>>, k: nat, from: Time)
    requires k < |starts|
  {
    forall i: nat :: i < k && starts[i].attempt.latency.Some? && from < Due(starts[i]) ==>
      if starts[k].cause == AfterDelay then starts[k].time < Due(starts[i]) else starts[k].time <= Due(starts[i])
  }

  /**
   * A later start comes a full delay after the one before it if nothing completes by then, or else at the moment the
   * next attempt is seen to fail, or at once when nothing is in flight. Without a delay, it leaves no more in flight
   * than the initial starts did.
   */
  ghost predicate StaggerOk<T, E>(starts: seq<Start<T, E>>, plan: Plan<T, E>, k: nat)
    requires k < |starts|
  {
    var from := WaitFrom(starts, k, plan.t0);
    && from <= starts[k].time
    && (plan.delay.Some? ==> starts[k].time <= from + plan.delay.value)
    && (plan.delay.None? ==> starts[k].inFlight <= Max(1, plan.initial))
    && Quiet(starts, k, from)
    && match starts[k].cause
       case Initially => false
       case AfterDelay => plan.delay.Some? && starts[k].time == from + plan.delay.value
       case AfterFailure => exists i: nat :: FailedAt(starts, i, starts[k].time)
       case NothingInFlight => starts[k].time == from && starts[k].inFlight == 1
  }

  ghost predicate Staggered<T, E>(starts: seq<Start<T, E>>, plan: Plan<T, E>) {
    forall k :: plan.initial <= k < |starts| ==> StaggerOk(starts, plan, k)
  }

  ghost predicate Sound<T, E>(p: Progress<T, E>, plan: Plan<T, E>) {
    && StartedInOrder(p.starts, plan)
    && plan.t0 <= p.now
    && Tracked(p)
    && Staggered(p.starts, plan)
    && (plan.delay.None? ==> |p.tasks| <= Max(1, plan.initial))
  }

  ghost predicate AllSeenFailed<T, E>(p: Progress<T, E>, plan: Plan<T, E>) {
    && (forall i :: 0 <= i < |p.starts| && p.starts[i].seen ==> p.starts[i].attempt.result.Err?)
    && (p.first.Some? ==> p.first.value < |p.starts| && p.starts[p.first.value].attempt.result.Err?)
    && p.error ==
      if plan.carried.Some? then Some(Error(plan.carried.value))
      else if p.first.Some? then Some(Error(p.starts[p.first.value].attempt.result.error)) else None
  }

  /** What holds until an attempt succeeds: the first failure is remembered, a carried one before all others. */
  ghost predicate Going<T, E>(p: Progress<T, E>, plan: Plan<T, E>) {
    Sound(p, plan) && AllSeenFailed(p, plan)
  }

  // ---------------------------------------------------------------------------------------------
  // The promises
  // ---------------------------------------------------------------------------------------------

  /** The value is that of an attempt completing now; the others seen have failed, and no started one succeeds sooner. */
  ghost predicate FirstSuccess<T, E>(p: Progress<T, E>, v: T) {
    exists i: nat :: i < |p.starts| && SucceedsNow(p, i, v)
  }

  ghost predicate SucceedsNow<T, E>(p: Progress<T, E>, i: nat, v: T)
    requires i < |p.starts|
  {
    && p.starts[i].seen && p.starts[i].attempt.result == Ok(v) && Due(p.starts[i]) == p.now
    && forall j: nat :: j < |p.starts| && j != i && p.starts[j].attempt.result.Ok? ==>
         !p.starts[j].seen && (p.starts[j].attempt.latency.Some? ==> p.now <= Due(p.starts[j]))
  }

  ghost predicate EarliestFailure<T, E>(starts: seq<Start<T, E>>, f: nat, e: E)
    requires f < |starts|
  {
    starts[f].attempt.result == Err(e) && forall k :: 0 <= k < |starts| ==> Due(starts[f]) <= Due(starts[k])
  }

  /** Every candidate was started, exactly once, and seen to fail; the error is a carried one or that of an earliest failure. */
  ghost predicate AllFailed<T, E>(p: Progress<T, E>, plan: Plan<T, E>, e: E) {
    && |p.starts| == |plan.candidates|
    && (forall k :: 0 <= k < |p.starts| ==> p.starts[k].seen && p.starts[k].attempt.result.Err?)
    && if plan.carried.Some? then e == plan.carried.value
       else exists f: nat :: f < |p.starts| && EarliestFailure(p.starts, f, e)
  }

  /** Nothing to try, and no error to report. */
  predicate Nothing<T, E>(plan: Plan<T, E>) {
    |plan.candidates| == 0 && plan.carried.None?
  }

  /**
   * Something is in flight, no started attempt succeeds by the cut, and a candidate is left unstarted only if its turn
   * comes after the cut.
   */
  ghost predicate CutShort<T, E>(p: Progress<T, E>, plan: Plan<T, E>, cut: Option<Time>) {
    && plan.candidates != [] && p.tasks != {}
    && (forall i :: 0 <= i < |p.starts| ==> if p.starts[i].seen then p.starts[i].attempt.result.Err? else !DueBy(p.starts[i], cut))
    && (|p.starts| < |plan.candidates| && plan.delay.Some? ==>
          cut.Some? && cut.value < WaitFrom(p.starts, |p.starts|, plan.t0) + plan.delay.value)
  }

  /** The error remembered: a carried one, or else the first one seen if an attempt failed before any succeeded. */
  ghost predicate Kept<T, E>(p: Progress<T, E>, plan: Plan<T, E>) {
    p.error ==
      if plan.carried.Some? then Some(Error(plan.carried.value))
      else if p.first.Some? && p.first.value < |p.starts| && p.starts[p.first.value].attempt.result.Err?
        then Some(Error(p.starts[p.first.value].attempt.result.error)) else None
  }

  /** `None` means that the cut came first, or that without a cut nothing will ever complete. */
  ghost predicate Promised<T, E>(p: Progress<T, E>, plan: Plan<T, E>, cut: Option<Time>, r: Option<Result<T, HappyEyeballsError<E>>>) {
    match r
    case Some(Ok(v)) => FirstSuccess(p, v) && Kept(p, plan)
    case Some(Err(Error(e))) => AllFailed(p, plan, e) && p.error == None
    case Some(Err(NoProgress)) => Nothing(plan) && p.error == None
    case Some(Err(Timeout(_))) => false
    case None => CutShort(p, plan, cut) && Kept(p, plan)
  }

  /** What a whole run within an overall timeout ends with. */
  ghost predicate Finished<T, E>(p: Progress<T, E>, plan: Plan<T, E>, timeout: Option<Time>, r: Option<Result<T, HappyEyeballsError<E>>>) {
    var cut := if timeout.Some? then Some(plan.t0 + timeout.value) else None;
    && Sound(p, plan) && plan.initial <= |p.starts| && plan.since <= plan.t0
    && (r == Some(Err(NoProgress)) <==> Nothing(plan))
    && (cut.Some? ==> r.Some? && p.now <= cut.value)
    && if r.Some? && r.value.Err? && r.value.error.Timeout?
       then cut.Some? && p.now == cut.value && r.value.error.elapsed == cut.value - plan.since && CutShort(p, plan, cut) && Kept(p, plan)
       else Promised(p, plan, cut, r)
  }

  /** The attempt was started at once, at the beginning of the run. */
  predicate AtOnce<T, E>(s: Start<T, E>, t0: Time) {
    s.time == t0 && s.cause == Initially
  }

  /**
   * A set with `held` attempts in flight starts its queue in order: all of it at once without an initial concurrency,
   * and otherwise as much of it as that allows, and no more.
   */
  ghost predicate InitialStarts<T, E>(starts: seq<Start<T, E>>, held: nat, queue: seq<Attempt<T, E>>, concurrency: Option<nat>, t0: Time) {
    && held <= |starts| <= held + |queue|
    && (forall k :: held <= k < |starts| ==> starts[k].attempt == queue[k - held])
    && match concurrency
       case None => |starts| == held + |queue| && forall k :: held <= k < |starts| ==> AtOnce(starts[k], t0)
       case Some(c) =>
         && (|starts| >= held + c || |starts| == held + |queue|)
         && forall k :: held <= k < |starts| ==> if k < held + c then AtOnce(starts[k], t0) else starts[k].cause != Initially
  }

  // ---------------------------------------------------------------------------------------------
  // Steps
  // ---------------------------------------------------------------------------------------------

  /** An attempt in flight is seen to complete. */
  function Seen<T, E>(p: Progress<T, E>, i: nat): Progress<T, E>
    requires i < |p.starts|
  {
    p.(starts := p.starts[i := p.starts[i].(seen := true)], tasks := p.tasks - {i}, now := Due(p.starts[i]),
       first := if p.first.Some? then p.first else Some(i),
       error := if p.error.None? && p.starts[i].attempt.result.Err? then Some(Error(p.starts[i].attempt.result.error)) else p.error)
  }

  /** It is in flight and completes no later than any other. */
  ghost predicate IsNext<T, E>(p: Progress<T, E>, i: nat) {
    && i in p.tasks && i < |p.starts| && DueBy(p.starts[i], None)
    && forall j: nat :: j in p.tasks && j < |p.starts| && DueBy(p.starts[j], None) ==> Due(p.starts[i]) <= Due(p.starts[j])
  }

  /** The next candidate is started. */
  function Started<T, E>(p: Progress<T, E>, a: Attempt<T, E>, cause: Cause): Progress<T, E> {
    p.(starts := p.starts + [Start(a, p.now, cause, |p.tasks| + 1, false)], tasks := p.tasks + {|p.starts|})
  }

  lemma SeenTracked<T, E>(p: Progress<T, E>, i: nat)
    requires Tracked(p) && IsNext(p, i)
    ensures Tracked(Seen(p, i)) && p.now <= Seen(p, i).now && |Seen(p, i).tasks| == |p.tasks| - 1
  {
  }

  lemma SeenStaggered<T, E>(p: Progress<T, E>, plan: Plan<T, E>, i: nat)
    requires Staggered(p.starts, plan) && i < |p.starts|
    ensures Staggered(Seen(p, i).starts, plan)
  {
    var starts := Seen(p, i).starts;
    forall k | plan.initial <= k < |starts| ensures StaggerOk(starts, plan, k) {
      assert StaggerOk(p.starts, plan, k);
      if starts[k].cause == AfterFailure {
        var j: nat :| FailedAt(p.starts, j, p.starts[k].time);
        assert FailedAt(starts, j, starts[k].time);
      }
    }
  }

  lemma SeenSound<T, E>(p: Progress<T, E>, plan: Plan<T, E>, i: nat)
    requires Going(p, plan) && IsNext(p, i)
    ensures Sound(Seen(p, i), plan) && |Seen(p, i).tasks| == |p.tasks| - 1
  {
    SeenTracked(p, i);
    SeenStaggered(p, plan, i);
  }

  lemma SeenFailure<T, E>(p: Progress<T, E>, plan: Plan<T, E>, i: nat)
    requires Going(p, plan) && IsNext(p, i) && p.starts[i].attempt.result.Err?
    ensures Going(Seen(p, i), plan) && |Seen(p, i).tasks| == |p.tasks| - 1
  {
    SeenSound(p, plan, i);
  }

  lemma SeenSuccess<T, E>(p: Progress<T, E>, plan: Plan<T, E>, cut: Option<Time>, i: nat, v: T)
    requires Going(p, plan) && IsNext(p, i) && p.starts[i].attempt.result == Ok(v)
    ensures Sound(Seen(p, i), plan) && Promised(Seen(p, i), plan, cut, Some(Ok(v)))
  {
    SeenSound(p, plan, i);
    assert SucceedsNow(Seen(p, i), i, v);
  }

  lemma StartedTracked<T, E>(p: Progress<T, E>, a: Attempt<T, E>, cause: Cause)
    requires Tracked(p)
    ensures Tracked(Started(p, a, cause)) && |Started(p, a, cause).tasks| == |p.tasks| + 1
  {
  }

  lemma StartedStaggered<T, E>(p: Progress<T, E>, plan: Plan<T, E>, a: Attempt<T, E>, cause: Cause)
    requires Staggered(p.starts, plan)
    requires |p.starts| < plan.initial || StaggerOk(Started(p, a, cause).starts, plan, |p.starts|)
    ensures Staggered(Started(p, a, cause).starts, plan)
  {
    var starts := Started(p, a, cause).starts;
    forall k | plan.initial <= k < |starts| ensures StaggerOk(starts, plan, k) {
      if k < |p.starts| {
        assert StaggerOk(p.starts, plan, k);
        if starts[k].cause == AfterFailure {
          var j: nat :| FailedAt(p.starts, j, p.starts[k].time);
          assert FailedAt(starts, j, starts[k].time);
        }
      }
    }
  }

  lemma StartedGoing<T, E>(p: Progress<T, E>, plan: Plan<T, E>, cause: Cause)
    requires Going(p, plan) && |p.starts| < |plan.candidates|
    requires if |p.starts| < plan.initial then cause == Initially && p.now == plan.t0 && |p.tasks| == |p.starts|
             else StaggerOk(Started(p, plan.candidates[|p.starts|], cause).starts, plan, |p.starts|)
    requires plan.delay.None? ==> |p.tasks| < Max(1, plan.initial)
    ensures Going(Started(p, plan.candidates[|p.starts|], cause), plan)
  {
    StartedTracked(p, plan.candidates[|p.starts|], cause);
    StartedStaggered(p, plan, plan.candidates[|p.starts|], cause);
  }

  /** During the initial starts everything started is in flight. */
  ghost predicate Opening<T, E>(p: Progress<T, E>, plan: Plan<T, E>, queue: seq<Attempt<T, E>>) {
    && Going(p, plan) && |p.tasks| == |p.starts| <= |plan.candidates|
    && queue == plan.candidates[|p.starts|..] && p.now == plan.t0
  }

  /** The log holds what is in flight, as if all of it had been started now. */
  ghost predicate Ready<T, E>(p: Progress<T, E>) {
    && Tracked(p) && p.first == None && |p.tasks| == |p.starts|
    && forall i: nat :: i < |p.starts| ==> ReadyStart(p.starts[i], p.now, i)
  }

  predicate ReadyStart<T, E>(s: Start<T, E>, now: Time, i: nat) {
    !s.seen && s.time == now && s.cause == Initially && s.inFlight == i + 1
  }

  /** What is in flight comes first among the candidates. */
  lemma ReadyOpens<T, E>(p: Progress<T, E>, plan: Plan<T, E>, queue: seq<Attempt<T, E>>)
    requires Ready(p) && plan.candidates == AttemptsOf(p.starts) + queue && plan.t0 == p.now
    requires |p.starts| <= plan.initial
    requires plan.carried == if p.error.Some? && p.error.value.Error? then Some(p.error.value.error) else None
    ensures Opening(p, plan, queue)
  {
    forall k: nat | k < |p.starts| ensures ReadyStart(p.starts[k], p.now, k) && p.starts[k].attempt == plan.candidates[k] {}
  }

  lemma OpeningRests<T, E>(p: Progress<T, E>, plan: Plan<T, E>, queue: seq<Attempt<T, E>>)
    requires Opening(p, plan, queue) && |p.starts| == plan.initial
    ensures Resting(p, plan, queue)
  {
    assert |p.starts| > 0 ==> p.starts[|p.starts| - 1].time == plan.t0;
  }

  lemma StartedInitially<T, E>(p: Progress<T, E>, plan: Plan<T, E>, queue: seq<Attempt<T, E>>)
    requires Opening(p, plan, queue) && |queue| > 0 && |p.starts| < plan.initial
    ensures |p.starts| !in p.tasks && Opening(Started(p, queue[0], Initially), plan, queue[1..])
  {
    StartedGoing(p, plan, Initially);
    StartedTracked(p, plan.candidates[|p.starts|], Initially);
  }

  /** The queue is being worked off: the next start waits from the last one. */
  ghost predicate Queueing<T, E>(p: Progress<T, E>, plan: Plan<T, E>) {
    Going(p, plan) && plan.initial <= |p.starts| < |plan.candidates| && p.now == WaitFrom(p.starts, |p.starts|, plan.t0)
  }

  /** Between starts: either the run goes on with the rest of the queue, or it ended as promised. */
  ghost predicate Resting<T, E>(p: Progress<T, E>, plan: Plan<T, E>, queue: seq<Attempt<T, E>>) {
    && Going(p, plan) && plan.initial <= |p.starts| <= |plan.candidates|
    && queue == plan.candidates[|p.starts|..] && p.now == WaitFrom(p.starts, |p.starts|, plan.t0)
  }

  /** What the queue holds when a run ends: a candidate taken out of it to be started next is gone. */
  function LeftInQueue<T, E>(plan: Plan<T, E>, started: nat): seq<Attempt<T, E>> {
    if started < |plan.candidates| then plan.candidates[started + 1..] else []
  }

  ghost predicate Ended<T, E>(p: Progress<T, E>, plan: Plan<T, E>, cut: Option<Time>, r: Option<Result<T, HappyEyeballsError<E>>>) {
    Sound(p, plan) && Promised(p, plan, cut, r) && plan.initial <= |p.starts|
  }

  lemma FailureCause<T, E>(p: Progress<T, E>, plan: Plan<T, E>, i: nat)
    requires i < |p.starts| < |plan.candidates| && p.starts[i].attempt.result.Err? && Tracked(p) && IsNext(p, i)
    requires p.now == WaitFrom(p.starts, |p.starts|, plan.t0) && p.now <= Due(p.starts[i])
    requires if plan.delay.Some? then Due(p.starts[i]) <= p.now + plan.delay.value else |Seen(p, i).tasks| < Max(1, plan.initial)
    ensures StaggerOk(Started(Seen(p, i), plan.candidates[|p.starts|], AfterFailure).starts, plan, |p.starts|)
  {
    var q := Started(Seen(p, i), plan.candidates[|p.starts|], AfterFailure);
    assert FailedAt(q.starts, i, q.now);
  }

  lemma StartAfterFailure<T, E>(p: Progress<T, E>, plan: Plan<T, E>, i: nat)
    requires Queueing(p, plan) && IsNext(p, i) && p.starts[i].attempt.result.Err?
    requires plan.delay.Some? ==> Due(p.starts[i]) <= p.now + plan.delay.value
    ensures Going(Started(Seen(p, i), plan.candidates[|p.starts|], AfterFailure), plan)
  {
    SeenFailure(p, plan, i);
    SeenTracked(p, i);
    FailureCause(p, plan, i);
    StartedGoing(Seen(p, i), plan, AfterFailure);
  }

  lemma WaitTracked<T, E>(p: Progress<T, E>, now: Time)
    requires Tracked(p) && p.now <= now && forall i: nat :: i in p.tasks && i < |p.starts| ==> !DueBy(p.starts[i], Some(now))
    ensures Tracked(p.(now := now))
  {
  }

  lemma StartAfterDelay<T, E>(p: Progress<T, E>, plan: Plan<T, E>)
    requires Queueing(p, plan) && plan.delay.Some?
    requires forall i: nat :: i in p.tasks && i < |p.starts| ==> !DueBy(p.starts[i], Some(p.now + plan.delay.value))
    ensures Going(Started(p.(now := p.now + plan.delay.value), plan.candidates[|p.starts|], AfterDelay), plan)
  {
    var q := p.(now := p.now + plan.delay.value);
    WaitTracked(p, q.now);
    StartedGoing(q, plan, AfterDelay);
  }

  lemma StartAtOnce<T, E>(p: Progress<T, E>, plan: Plan<T, E>)
    requires Queueing(p, plan) && p.tasks == {}
    ensures Going(Started(p, plan.candidates[|p.starts|], NothingInFlight), plan)
  {
    StartedGoing(p, plan, NothingInFlight);
  }

  /** Whatever way the wait ended, short of a success, the next candidate may be started. */
  lemma StartAfterWait<T, E>(p: Progress<T, E>, p': Progress<T, E>, plan: Plan<T, E>, i: nat, cause: Cause)
    requires Queueing(p, plan)
    requires match cause
             case AfterFailure => IsNext(p, i) && p' == Seen(p, i) && p.starts[i].attempt.result.Err? && (plan.delay.Some? ==> p'.now <= p.now + plan.delay.value)
             case AfterDelay => plan.delay.Some? && p' == p.(now := p.now + plan.delay.value) && forall j: nat :: j in p.tasks && j < |p.starts| ==> !DueBy(p.starts[j], Some(p'.now))
             case NothingInFlight => p' == p && p.tasks == {}
             case Initially => false
    ensures Going(Started(p', plan.candidates[|p.starts|], cause), plan)
  {
    match cause
    case AfterFailure => StartAfterFailure(p, plan, i);
    case AfterDelay => StartAfterDelay(p, plan);
    case NothingInFlight => StartAtOnce(p, plan);
    case Initially =>
  }

  lemma Cut<T, E>(p: Progress<T, E>, plan: Plan<T, E>, cut: Option<Time>)
    requires Going(p, plan) && p.tasks != {}
    requires forall i: nat :: i in p.tasks && i < |p.starts| ==> !DueBy(p.starts[i], cut)
    requires |p.starts| < |plan.candidates| && plan.delay.Some? ==>
      cut.Some? && cut.value < WaitFrom(p.starts, |p.starts|, plan.t0) + plan.delay.value
    ensures Promised(p, plan, cut, None)
  {
  }

  lemma NothingLeft<T, E>(p: Progress<T, E>, plan: Plan<T, E>, cut: Option<Time>)
    requires Going(p, plan) && p.tasks == {} && |p.starts| == |plan.candidates|
    ensures if Nothing(plan) then p.error == None else p.error.Some? && p.error.value.Error? && AllFailed(p, plan, p.error.value.error)
    ensures Promised(p.(error := None), plan, cut, Some(Err(if p.error.Some? then p.error.value else NoProgress)))
  {
    if plan.candidates != [] && plan.carried.None? {
      assert 0 !in p.tasks;
      var f := p.first.value;
      assert EarliestFailure(p.starts, f, p.error.value.error);
    }
  }

  lemma StartsInitially<T, E>(p: Progress<T, E>, before: Progress<T, E>, queue: seq<Attempt<T, E>>, concurrency: Option<nat>,
                              delay: Option<Time>, started: Option<Time>)
    requires Sound(p, RunPlan(before, queue, concurrency, delay, started))
    requires RunPlan(before, queue, concurrency, delay, started).initial <= |p.starts|
    ensures InitialStarts(p.starts, |before.starts|, queue, concurrency, before.now)
  {
    var plan := RunPlan(before, queue, concurrency, delay, started);
    forall k | |before.starts| <= k < |p.starts| ensures p.starts[k].attempt == queue[k - |before.starts|] {
      assert plan.candidates[k] == queue[k - |before.starts|];
    }
    forall k | plan.initial <= k < |p.starts| ensures p.starts[k].cause != Initially {
      assert StaggerOk(p.starts, plan, k);
    }
  }

  lemma EndedStartsInitially<T, E>(p: Progress<T, E>, plan: Plan<T, E>, cut: Option<Time>, r: Option<Result<T, HappyEyeballsError<E>>>,
                                   before: Progress<T, E>, queue: seq<Attempt<T, E>>, concurrency: Option<nat>,
                                   delay: Option<Time>, started: Option<Time>)
    requires Ended(p, plan, cut, r) && plan == RunPlan(before, queue, concurrency, delay, started)
    ensures InitialStarts(p.starts, |before.starts|, queue, concurrency, before.now)
  {
    StartsInitially(p, before, queue, concurrency, delay, started);
  }

  /** When the cut ends a run, its clock stands at the cut. */
  lemma EndedFinishes<T, E>(p: Progress<T, E>, plan: Plan<T, E>, timeout: Option<Time>, r: Option<Result<T, HappyEyeballsError<E>>>)
    requires var cut := CutAt(timeout, plan.t0);
      Ended(p, plan, cut, r) && plan.since <= plan.t0 && (cut.Some? ==> p.now <= cut.value)
    ensures var cut := CutAt(timeout, plan.t0);
      if r.None? && cut.Some?
      then Finished(p.(now := cut.value), plan, timeout, Some(Err(Timeout(cut.value - plan.since))))
      else Finished(p, plan, timeout, r)
  {
    var cut := CutAt(timeout, plan.t0);
    if r.None? && cut.Some? {
      WaitTracked(p, cut.value);
    }
  }

  // ---------------------------------------------------------------------------------------------
  // Consequences
  // ---------------------------------------------------------------------------------------------

  lemma MulStep(a: nat, d: nat)
    ensures (a + 1) * d == a * d + d
  {
  }

  /** The k-th start after the initial ones happens within k delays. */
  lemma {:induction false} LaterStartsInTime<T, E>(p: Progress<T, E>, plan: Plan<T, E>, d: Time, k: nat)
    requires Sound(p, plan) && plan.delay == Some(d) && plan.initial <= k < |p.starts|
    ensures plan.t0 <= p.starts[k].time <= plan.t0 + (k - plan.initial + 1) * d
    decreases k
  {
    assert StaggerOk(p.starts, plan, k);
    MulStep(k - plan.initial, d);
    if k > plan.initial {
      LaterStartsInTime(p, plan, d, k - 1);
    }
  }

  /**
   * The documentation promises one attempt at a time when there is no delay. By default all candidates start at
   * once; the promise is kept exactly when at most one is started initially.
   */
  lemma OneAtATimeIff<T, E>(p: Progress<T, E>, plan: Plan<T, E>)
    requires Sound(p, plan) && plan.delay.None? && plan.initial <= |p.starts|
    ensures (forall k :: 0 <= k < |p.starts| ==> p.starts[k].inFlight <= 1) <==> plan.initial <= 1
  {
    if plan.initial > 1 {
      assert p.starts[1].inFlight == 2;
    } else {
      forall k | 0 <= k < |p.starts| ensures p.starts[k].inFlight <= 1 {
        assert k >= plan.initial ==> StaggerOk(p.starts, plan, k);
      }
    }
  }

  /**
   * Two attempts that never complete, with neither a delay nor an initial concurrency: both are in flight from the
   * start, and without a timeout the run never ends.
   */
  lemma TwoAtOnce<T, E>(dead: Attempt<T, E>) returns (p: Progress<T, E>)
    requires dead.latency == None
    ensures Finished(p, Plan([dead, dead], 0, Concurrency(None, 2), None, None, 0), None, None)
    ensures |p.starts| == 2 && p.starts[1].inFlight == 2 && p.tasks == {0, 1}
  {
    p := Progress([Start(dead, 0, Initially, 1, false), Start(dead, 0, Initially, 2, false)], {0, 1}, None, 0, None);
  }

  /** Some ready attempt completes no later than the others. */
  lemma {:induction false} EarliestExists<T, E>(starts: seq<Start<T, E>>, ready: set<nat>)
    requires ready != {} && forall i: nat :: i in ready ==> i < |starts|
    ensures exists i: nat :: i in ready && forall j: nat :: j in ready ==> Due(starts[i]) <= Due(starts[j])
  {
    var k: nat :| k in ready;
    var rest := ready - {k};
    assert forall j: nat :: j in ready <==> j == k || j in rest;
    if rest != {} {
      EarliestExists(starts, rest);
      var m: nat :| m in rest && forall j: nat :: j in rest ==> Due(starts[m]) <= Due(starts[j]);
      var i := if Due(starts[k]) <= Due(starts[m]) then k else m;
      assert i in ready;
    }
  }

  /** Different attempts in flight. */
  ghost predicate Picks<T, E>(starts: seq<Start<T, E>>, order: seq<nat>, tasks: set<nat>) {
    && (forall i :: 0 <= i < |order| ==> order[i] in tasks && order[i] < |starts|)
    && (forall i, j :: 0 <= i < j < |order| ==> order[i] != order[j])
  }

  /** Attempts that go on, as started now, with what each still takes. */
  function HeldAgain<T, E>(starts: seq<Start<T, E>>, order: seq<nat>, remaining: seq<Option<Time>>, now: Time): (held: seq<Start<T, E>>)
    requires |order| <= |remaining| && forall i :: 0 <= i < |order| ==> order[i] < |starts|
    ensures |held| == |order| && forall i: nat :: i < |held| ==> ReadyStart(held[i], now, i)
  {
    seq(|order|, i requires 0 <= i < |order| =>
      Start(Attempt(remaining[i], starts[order[i]].attempt.result), now, Initially, i + 1, false))
  }

  lemma {:induction false} AllHeld(n: nat, tasks: set<nat>)
    requires forall i: nat :: i in tasks <==> i < n
    ensures |tasks| == n
  {
    if n > 0 {
      AllHeld(n - 1, tasks - {n - 1});
    }
  }

  function UnseenIn<T, E>(starts: seq<Start<T, E>>): set<nat> {
    set i: nat | i < |starts| && !starts[i].seen
  }

  lemma HeldReady<T, E>(p: Progress<T, E>)
    requires p.first == None && (p.error.Some? ==> p.error.value.Error?)
    requires forall i: nat :: i < |p.starts| ==> ReadyStart(p.starts[i], p.now, i)
    requires p.tasks == UnseenIn(p.starts)
    ensures Ready(p)
  {
    assert forall i: nat :: i in p.tasks <==> i < |p.starts|;
    AllHeld(|p.starts|, p.tasks);
    forall i: nat | i < |p.starts| ensures ReadyStart(p.starts[i], p.now, i) && i in p.tasks {}
  }

  class EyeballSet<T(!new), E(!new)> {
    var queue: seq<Attempt<T, E>>
    var tasks: set<nat>                     // positions in `starts` of the attempts in flight
    const delay: Option<Time>
    const timeout: Option<Time>
    const initialConcurrency: Option<nat>
    var started: Option<Time>
    var error: Option<HappyEyeballsError<E>>
    var now: Time                           // the clock
    var starts: seq<Start<T, E>>            // attempts started so far
    ghost var first: Option<nat>

    ghost predicate Fresh()
      reads this
    {
      tasks == {} && started == None && error == None && starts == [] && first == None
    }

    /** Between runs. */
    ghost predicate Idle()
      reads this
    {
      Tracked(View()) && (started.Some? ==> started.value <= now)
    }

    /** Ready to run; a fresh set is. */
    ghost predicate Reset()
      reads this
    {
      Ready(View()) && (started.Some? ==> started.value <= now)
    }

    ghost function View(): Progress<T, E>
      reads this
    {
      Progress(starts, tasks, first, now, error)
    }

    /** What a run from here is to do. */
    ghost function PlanFor(): Plan<T, E>
      reads this
    {
      RunPlan(View(), queue, initialConcurrency, delay, started)
    }

    constructor (delay: Option<Time>, timeout: Option<Time>, initialConcurrency: Option<nat>, now: Time)
      ensures Fresh() && Reset() && queue == [] && this.now == now
      ensures this.delay == delay && this.timeout == timeout && this.initialConcurrency == initialConcurrency
    {
      this.queue, this.tasks, this.started, this.error := [], {}, None, None;
      this.delay, this.timeout, this.initialConcurrency := delay, timeout, initialConcurrency;
      this.now, this.starts, this.first := now, [], None;
    }

    method Push(future: Attempt<T, E>)
      modifies this`queue
      ensures queue == old(queue) + [future]
    {
      queue := queue + [future];
    }

    /** The attempts in flight, in any order. */
    method InFlight() returns (order: seq<nat>)
      requires Tracked(View())
      ensures |order| == |tasks| && Picks(starts, order, tasks)
    {
      var left := tasks;
      order := [];
      while left != {}
        invariant left <= tasks && |order| == |tasks| - |left|
        invariant Picks(starts, order, tasks) && forall i :: 0 <= i < |order| ==> order[i] !in left
        decreases |left|
      {
        var j: nat :| j in left;
        order := order + [j];
        left := left - {j};
      }
    }

    /**
     * Between runs attempts in flight are not polled; how long each then still takes is arbitrary. What completed is
     * forgotten, and the log goes on with the rest, in the order given by `order`.
     */
    method Resume(later: Time, remaining: seq<Option<Time>>) returns (order: seq<nat>)
      requires Idle() && now <= later && |tasks| <= |remaining|
      modifies this`now, this`tasks, this`starts, this`first
      ensures |order| == |old(tasks)| && Picks(old(starts), order, old(tasks))
      ensures Reset() && now == later && starts == HeldAgain(old(starts), order, remaining, later)
      ensures |starts| == |order| && forall i :: 0 <= i < |starts| ==>
        starts[i].attempt == Attempt(remaining[i], old(starts)[order[i]].attempt.result)
    {
      order := InFlight();
      var held := HeldAgain(starts, order, remaining, later);
      var all := UnseenIn(held);
      HeldReady(Progress(held, all, None, later, error));
      now, tasks, starts, first := later, all, held, None;
    }

    method StartTask(future: Attempt<T, E>, cause: Cause)
      requires |starts| !in tasks
      modifies this`tasks, this`starts
      ensures View() == Started(old(View()), future, cause)
    {
      tasks := tasks + {|starts|};
      starts := starts + [Start(future, now, cause, |tasks|, false)];
    }

    /** The clock of the whole set starts at its first wait. */
    ghost predicate StartedFor(plan: Plan<T, E>)
      reads this
    {
      if started.Some? then started.value == plan.since else now == plan.t0 == plan.since
    }

    /** The attempt in flight that completes first, if one completes by the limit. Ties are broken arbitrarily. */
    method Earliest(limit: Option<Time>) returns (r: Option<nat>)
      requires Tracked(View())
      ensures r.Some? ==> IsNext(View(), r.value) && DueBy(starts[r.value], limit)
      ensures r.None? ==> forall j: nat :: j in tasks && j < |starts| ==> !DueBy(starts[j], limit)
    {
      var ready := set i: nat | i in tasks && DueBy(starts[i], limit);
      assert forall i: nat :: i in tasks && DueBy(starts[i], limit) ==> i in ready;
      if ready == {} {
        return None;
      }
      EarliestExists(starts, ready);
      var i: nat :| i in ready && forall j: nat :: j in ready ==> Due(starts[i]) <= Due(starts[j]);
      r := Some(i);
    }

    /** An attempt in flight is observed to complete; the first error is remembered. */
    method Observe(i: nat) returns (r: Eyeball<T>)
      requires i < |starts|
      modifies this`tasks, this`now, this`first, this`error, this`starts
      ensures View() == Seen(old(View()), i)
      ensures r == match old(starts)[i].attempt.result case Ok(v) => Success(v) case Err(_) => Failure
    {
      now := Due(starts[i]);
      tasks := tasks - {i};
      first := if first.Some? then first else Some(i);
      match starts[i].attempt.result {
        case Ok(v) =>
          r := Success(v);
        case Err(e) =>
          if error.None? { error := Some(Error(e)); }
          r := Failure;
      }
      starts := starts[i := starts[i].(seen := true)];
    }

    /** Waits for the next completion, up to the limit. `None` means that nothing completes by then. */
    method JoinNext(limit: Option<Time>) returns (r: Option<Eyeball<T>>, ghost which: nat)
      requires Tracked(View())
      modifies this`started, this`tasks, this`now, this`first, this`error, this`starts
      ensures started == if old(started).Some? then old(started) else Some(old(now))
      ensures r.Some? && !r.value.Exhausted? ==>
        && IsNext(old(View()), which) && DueBy(old(starts)[which], limit) && View() == Seen(old(View()), which)
        && r.value == match old(starts)[which].attempt.result case Ok(v) => Success(v) case Err(_) => Failure
      ensures r == Some(Exhausted) <==> old(tasks) == {}
      ensures r == Some(Exhausted) || r == None ==> View() == old(View())
      ensures r == None ==> forall j: nat :: j in tasks && j < |starts| ==> !DueBy(starts[j], limit)
    {
      which := 0;
      if started.None? { started := Some(now); }
      if tasks == {} {
        r := Some(Exhausted);
        return;
      }
      var earliest := Earliest(limit);
      if earliest.None? {
        r := None;
        return;
      }
      which := earliest.value;
      var outcome := Observe(earliest.value);
      r := Some(outcome);
    }

    /** `tokio::time::timeout` around `join_next`, when there is a delay. `None` means that the cut comes first. */
    method JoinNextWithTimeout(cut: Option<Time>) returns (r: Option<Eyeball<T>>, ghost which: nat)
      requires Tracked(View())
      modifies this`started, this`tasks, this`now, this`first, this`error, this`starts
      ensures started == if old(started).Some? then old(started) else Some(old(now))
      ensures r.Some? && (r.value.Success? || r.value.Failure?) ==>
        && IsNext(old(View()), which) && DueBy(old(starts)[which], cut) && View() == Seen(old(View()), which)
        && (delay.Some? ==> Due(old(starts)[which]) <= old(now) + delay.value)
        && r.value == match old(starts)[which].attempt.result case Ok(v) => Success(v) case Err(_) => Failure
      ensures r == Some(Elapsed) ==>
        && delay.Some? && View() == old(View()).(now := old(now) + delay.value) && (cut.Some? ==> now <= cut.value)
        && forall j: nat :: j in tasks && j < |starts| ==> !DueBy(starts[j], Some(now))
      ensures r == Some(Exhausted) ==> old(tasks) == {}
      ensures r == Some(Exhausted) || r == None ==> View() == old(View())
      ensures r == None ==> tasks != {} && forall j: nat :: j in tasks && j < |starts| ==> !DueBy(starts[j], cut)
      ensures r == None && delay.Some? ==> cut.Some? && cut.value < now + delay.value
    {
      if delay.Some? {
        var deadline := now + delay.value;
        var cutFirst := cut.Some? && cut.value < deadline;
        r, which := JoinNext(if cutFirst then cut else Some(deadline));
        if r.None? && !cutFirst {
          now := deadline;
          r := Some(Elapsed);
        }
      } else {
        r, which := JoinNext(cut);
      }
    }

    /** Starts the front of the queue without waiting. */
    method StartOne(ghost plan: Plan<T, E>)
      requires Opening(View(), plan, queue) && |queue| > 0 && |starts| < plan.initial
      modifies this`queue, this`tasks, this`starts
      ensures Opening(View(), plan, queue) && |starts| == |old(starts)| + 1
    {
      StartedInitially(View(), plan, queue);
      StartTask(queue[0], Initially);
      queue := queue[1..];
    }

    /** The initial starts. */
    method StartInitial(ghost plan: Plan<T, E>)
      requires Reset() && plan == PlanFor()
      modifies this`queue, this`tasks, this`starts
      ensures Resting(View(), plan, queue)
      ensures |starts| == plan.initial
      ensures InitialStarts(starts, |old(starts)|, old(queue), initialConcurrency, now)
    {
      ghost var before, all := View(), queue;
      ghost var held, candidates := |starts|, |queue|;
      ReadyOpens(View(), plan, queue);
      var n := if initialConcurrency.Some? then initialConcurrency.value else |queue|;
      for k := 0 to n
        invariant |starts| == held + if k < candidates then k else candidates
        invariant Opening(View(), plan, queue)
      {
        if |queue| > 0 {
          StartOne(plan);
        }
      }
      OpeningRests(View(), plan, queue);
      StartsInitially(View(), before, all, initialConcurrency, delay, started);
    }

    /** Waits once; unless that ends the whole run, the next candidate may be started for the given cause. */
    method WaitOnce(cut: Option<Time>, ghost plan: Plan<T, E>)
      returns (r: Option<Result<T, HappyEyeballsError<E>>>, done: bool, cause: Cause)
      requires Queueing(View(), plan) && plan.delay == delay
      modifies this`started, this`tasks, this`now, this`first, this`error, this`starts
      ensures started == if old(started).Some? then old(started) else Some(old(now))
      ensures |starts| == |old(starts)| && (cut.Some? && old(now) <= cut.value ==> now <= cut.value)
      ensures done ==> Sound(View(), plan) && Promised(View(), plan, cut, r)
      ensures !done ==> |starts| !in tasks && Going(Started(View(), plan.candidates[|starts|], cause), plan)
    {
      ghost var before := View();
      var outcome, i := JoinNextWithTimeout(cut);
      if outcome.None? {
        Cut(before, plan, cut);
        return None, true, Initially;
      }
      if outcome.value.Success? {
        SeenSuccess(before, plan, cut, i, outcome.value.value);
        return Some(Ok(outcome.value.value)), true, Initially;
      }
      cause := match outcome.value
        case Elapsed => AfterDelay
        case Exhausted => NothingInFlight
        case _ => AfterFailure;
      StartAfterWait(before, View(), plan, i, cause);
      return None, false, cause;
    }

    /** Waits once, and then starts the candidate unless the wait ended the whole run. */
    method StartNext(future: Attempt<T, E>, cut: Option<Time>, ghost plan: Plan<T, E>)
      returns (r: Option<Result<T, HappyEyeballsError<E>>>, done: bool)
      requires Queueing(View(), plan) && future == plan.candidates[|starts|] && plan.delay == delay
      modifies this`started, this`tasks, this`now, this`first, this`error, this`starts
      ensures started == if old(started).Some? then old(started) else Some(old(now))
      ensures cut.Some? && old(now) <= cut.value ==> now <= cut.value
      ensures done ==> |starts| == |old(starts)| && Sound(View(), plan) && Promised(View(), plan, cut, r)
      ensures !done ==> Going(View(), plan) && |starts| == |old(starts)| + 1 && starts[|starts| - 1].time == now
    {
      var cause;
      r, done, cause := WaitOnce(cut, plan);
      if !done {
        StartTask(future, cause);
      }
    }

    /** Takes the front of the queue, and waits before starting it. */
    method StartFront(cut: Option<Time>, ghost plan: Plan<T, E>) returns (r: Option<Result<T, HappyEyeballsError<E>>>, done: bool)
      requires Resting(View(), plan, queue) && |queue| > 0 && plan.delay == delay && (cut.Some? ==> now <= cut.value)
      modifies this`queue, this`started, this`tasks, this`now, this`first, this`error, this`starts
      ensures started == if old(started).Some? then old(started) else Some(old(now))
      ensures cut.Some? ==> now <= cut.value
      ensures |queue| < |old(queue)|
      ensures if done then Ended(View(), plan, cut, r) else Resting(View(), plan, queue)
      ensures done ==> queue == LeftInQueue(plan, |starts|)
    {
      var future := queue[0];
      queue := queue[1..];
      r, done := StartNext(future, cut, plan);
    }

    /** The queue is emptied one start per delay; a failure or an idle moment starts the next attempt early. */
    method StartRest(cut: Option<Time>, ghost plan: Plan<T, E>) returns (r: Option<Result<T, HappyEyeballsError<E>>>, done: bool)
      requires Resting(View(), plan, queue) && plan.delay == delay && (cut.Some? ==> now <= cut.value)
      requires StartedFor(plan) && now == plan.t0
      modifies this`queue, this`started, this`tasks, this`now, this`first, this`error, this`starts
      ensures cut.Some? ==> now <= cut.value
      ensures StartedFor(plan) && (done ==> started.Some?)
      ensures if done then Ended(View(), plan, cut, r) else Resting(View(), plan, [])
      ensures queue == if done then LeftInQueue(plan, |starts|) else []
    {
      r, done := None, false;
      while |queue| > 0 && !done
        invariant if done then Ended(View(), plan, cut, r) else Resting(View(), plan, queue)
        invariant done ==> queue == LeftInQueue(plan, |starts|)
        invariant cut.Some? ==> now <= cut.value
        invariant StartedFor(plan) && (done ==> started.Some?)
        decreases !done, |queue|
      {
        r, done := StartFront(cut, plan);
      }
    }

    /** Waits once for an attempt in flight; goes on only after a failure. */
    method DrainOne(cut: Option<Time>, ghost plan: Plan<T, E>) returns (r: Option<Result<T, HappyEyeballsError<E>>>, done: bool)
      requires Going(View(), plan) && |starts| == |plan.candidates|
      modifies this`started, this`tasks, this`now, this`first, this`error, this`starts
      ensures started == if old(started).Some? then old(started) else Some(old(now))
      ensures |starts| == |old(starts)| && (cut.Some? && old(now) <= cut.value ==> now <= cut.value)
      ensures done ==> Sound(View(), plan) && Promised(View(), plan, cut, r)
      ensures !done ==> Going(View(), plan) && |tasks| < |old(tasks)|
    {
      ghost var before := View();
      var outcome, i := JoinNext(cut);
      if outcome.None? {
        Cut(before, plan, cut);
        return None, true;
      }
      match outcome.value {
        case Success(v) =>
          SeenSuccess(before, plan, cut, i, v);
          return Some(Ok(v)), true;
        case Failure =>
          SeenFailure(before, plan, i);
          return None, false;
        case Elapsed =>
          assert false;
          return None, true;
        case Exhausted =>
          NothingLeft(before, plan, cut);
          var e := error;
          error := None;
          return Some(Err(if e.Some? then e.value else NoProgress)), true;
      }
    }

    /** Runs until everything started has completed, or one succeeds. */
    method Drain(cut: Option<Time>, ghost plan: Plan<T, E>) returns (r: Option<Result<T, HappyEyeballsError<E>>>)
      requires Going(View(), plan) && |starts| == |plan.candidates| && (cut.Some? ==> now <= cut.value)
      requires StartedFor(plan)
      modifies this`started, this`tasks, this`now, this`first, this`error, this`starts
      ensures |starts| == |plan.candidates| && started == Some(plan.since) && (cut.Some? ==> now <= cut.value)
      ensures Sound(View(), plan) && Promised(View(), plan, cut, r)
    {
      var done := false;
      r := None;
      while !done
        invariant |starts| == |plan.candidates| && (cut.Some? ==> now <= cut.value)
        invariant StartedFor(plan) && (done ==> started.Some?)
        invariant done ==> Sound(View(), plan) && Promised(View(), plan, cut, r)
        invariant !done ==> Going(View(), plan)
        decreases !done, |tasks|
      {
        r, done := DrainOne(cut, plan);
      }
    }

    /** The loops of `process_all`. */
    method ProcessQueue(cut: Option<Time>, ghost plan: Plan<T, E>) returns (r: Option<Result<T, HappyEyeballsError<E>>>)
      requires Reset() && plan == PlanFor() && (cut.Some? ==> now <= cut.value)
      modifies this
      ensures Ended(View(), plan, cut, r) && started == Some(plan.since)
      ensures queue == LeftInQueue(plan, |starts|)
      ensures cut.Some? ==> now <= cut.value
    {
      var done: bool;
      StartInitial(plan);
      r, done := StartRest(cut, plan);
      if !done {
        r := Drain(cut, plan);
      }
    }

    /**
     * Runs the attempts until one succeeds, all have failed, or the cut comes. `None` means the last, or that
     * without a cut no attempt ever completes.
     */
    method ProcessAll(cut: Option<Time>, ghost plan: Plan<T, E>) returns (r: Option<Result<T, HappyEyeballsError<E>>>)
      requires Reset() && plan == PlanFor() && (cut.Some? ==> now <= cut.value)
      modifies this
      ensures Ended(View(), plan, cut, r) && started == Some(plan.since)
      ensures queue == LeftInQueue(plan, |starts|)
      ensures InitialStarts(starts, |old(starts)|, old(queue), initialConcurrency, old(now))
      ensures cut.Some? ==> now <= cut.value
    {
      ghost var before, all, since := View(), queue, started;
      r := ProcessQueue(cut, plan);
      EndedStartsInitially(View(), plan, cut, r, before, all, initialConcurrency, delay, since);
    }

    /**
     * Runs the attempts within the overall timeout. `None` means that it never returns, which needs a missing
     * timeout and an attempt that never completes.
     */
    method Finish() returns (r: Option<Result<T, HappyEyeballsError<E>>>)
      requires Reset()
      modifies this
      ensures Finished(View(), old(PlanFor()), timeout, r)
      ensures InitialStarts(starts, |old(starts)|, old(queue), initialConcurrency, old(now))
      ensures queue == LeftInQueue(old(PlanFor()), |starts|)
      ensures started == if old(started).Some? then old(started) else Some(old(now))
      ensures r.Some? && r.value.Err? && r.value.error.Timeout? ==>
        timeout.Some? && now == old(now) + timeout.value && r.value.error.elapsed == now - started.value
      ensures Idle()
    {
      ghost var plan := PlanFor();
      var cut := CutAt(timeout, now);
      r := ProcessAll(cut, plan);
      EndedFinishes(View(), plan, timeout, r);
      if r.None? && cut.Some? {
        r := Some(Err(Timeout(if started.Some? then cut.value - started.value else 0)));
        now := cut.value;
      }
    }
  }

  /** An attempt that fails at once and one that succeeds a little later: the success is returned, the failure is kept. */
  method FailThenSucceed<T(!new), E(!new)>(e: E, v: T) returns (attempts: EyeballSet<T, E>, r: Option<Result<T, HappyEyeballsError<E>>>)
    ensures fresh(attempts) && r == Some(Ok(v))
    ensures attempts.Idle() && attempts.timeout == None && attempts.started == Some(0)
    ensures attempts.error == Some(Error(e)) && attempts.tasks == {} && attempts.queue == []
  {
    attempts := new EyeballSet(None, None, None, 0);
    attempts.Push(Attempt(Some(0), Err(e)));
    attempts.Push(Attempt(Some(1), Ok(v)));
    assert AttemptsOf(attempts.starts) + attempts.queue == [Attempt(Some(0), Err(e)), Attempt(Some(1), Ok(v))];
    ghost var plan := attempts.PlanFor();
    r := attempts.Finish();
    FailureThenSuccess(attempts.View(), plan, e, v, r);
  }

  lemma FailureThenSuccess<T, E>(p: Progress<T, E>, plan: Plan<T, E>, e: E, v: T, r: Option<Result<T, HappyEyeballsError<E>>>)
    requires plan == Plan([Attempt(Some(0), Err(e)), Attempt(Some(1), Ok(v))], 0, 2, None, None, 0)
    requires Finished(p, plan, None, r)
    ensures r == Some(Ok(v)) && p.error == Some(Error(e)) && p.tasks == {} && |p.starts| == 2
  {
    assert p.starts[0].attempt == plan.candidates[0] && p.starts[1].attempt == plan.candidates[1];
    assert r.Some? && r.value.Ok?;
  }

  lemma NothingButStale<T, E>(p: Progress<T, E>, plan: Plan<T, E>, e: E, r: Option<Result<T, HappyEyeballsError<E>>>)
    requires plan.candidates == [] && plan.carried == Some(e) && Finished(p, plan, None, r)
    ensures r == Some(Err(Error(e)))
  {
  }

  /** Run again with nothing to try, that set reports the old failure. */
  method StaleError<T(!new), E(!new)>(e: E, v: T) returns (r: Option<Result<T, HappyEyeballsError<E>>>, again: Option<Result<T, HappyEyeballsError<E>>>)
    ensures r == Some(Ok(v)) && again == Some(Err(Error(e)))
  {
    var attempts;
    attempts, r := FailThenSucceed(e, v);
    var order := attempts.Resume(attempts.now, []);
    ghost var plan := attempts.PlanFor();
    assert plan.candidates == [] && plan.carried == Some(e);
    again := attempts.Finish();
    NothingButStale(attempts.View(), plan, e, again);
  }
}
