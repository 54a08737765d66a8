/**
 * Graceful shutdown of the server (src/server/mod.rs): the accept loop, the spawned connection tasks and the two
 * close channels between them, as one state with interleaved atomic steps.
 *
 * A close channel is a `watch` channel used backwards: the closing side holds a receiver, and the other side
 * waits until the channel has no receivers left.
 */
module Shutdown {
  import A = Accepting

  datatype Exit = Signalled | Failed(cause: A.Cause) | AllClosed

  /** Where the server future is: at one of the three polls of its loop, completed, or dropped. */
  datatype Stage = AtSignal | AtServe | AtFinished | Stopped(exit: Exit) | Dropped

  datatype Phase = Running | Closing | Finished

  /** A connection task. `fused` says that its shutdown future has completed; `notified` counts `graceful_shutdown` calls. */
  datatype Task = Task(connection: A.Connection, phase: Phase, fused: bool, notified: nat)

  /** `receivers` of the first channel announce the shutdown by going away, those of the second the end of connections. */
  datatype System = System(
    serving: A.View,
    stage: Stage,
    signal: bool,
    shutdownHeld: bool,
    shutdownReceivers: int,
    finishedReceivers: int,
    tasks: seq<Task>)

  const START := System(A.START, AtSignal, false, true, 1, 1, [])

  datatype Event =
    | SignalFires
    | ServerStep(answer: A.Answer) // one poll of the server's loop; the answer is for `poll_once`
    | DropServer
    | ConnectionEnds(task: nat)    // the connection completes and its task leaves the loop
    | Notify(task: nat)            // the task sees the shutdown and calls `graceful_shutdown`
    | TaskFinishes(task: nat)      // the task sends on the second channel
    | TaskDropped(task: nat)       // the runtime drops the task

  predicate Enabled(s: System, e: Event) {
    match e
    case SignalFires => true
    case ServerStep(_) => s.stage.AtSignal? || s.stage.AtServe? || s.stage.AtFinished?
    case DropServer => s.stage.AtSignal? || s.stage.Stopped?
    case ConnectionEnds(i) => i < |s.tasks| && s.tasks[i].phase == Running
    case Notify(i) => i < |s.tasks| && s.tasks[i].phase == Running && !s.tasks[i].fused && s.shutdownReceivers == 0
    case TaskFinishes(i) => i < |s.tasks| && s.tasks[i].phase == Closing
    case TaskDropped(i) => i < |s.tasks| && s.tasks[i].phase != Finished
  }

  /** A close sender lets go of its receiver, if it still has one. */
  function SendShutdown(s: System): System {
    if s.shutdownHeld then s.(shutdownHeld := false, shutdownReceivers := s.shutdownReceivers - 1) else s
  }

  function SignalPoll(s: System): System {
    if s.signal then SendShutdown(s).(stage := Stopped(Signalled)) else s.(stage := AtServe)
  }

  /** A new task takes a clone of the second channel's receiver. */
  function Spawn(s: System, connection: A.Connection): System {
    s.(tasks := s.tasks + [Task(connection, Running, false, 0)], finishedReceivers := s.finishedReceivers + 1)
  }

  function ServePoll(s: System, a: A.Answer): System {
    var served := s.(serving := A.After(s.serving, a));
    match A.Answered(s.serving, a)
    case Waits => served.(stage := AtSignal)
    case Errs(cause) => served.(stage := Stopped(Failed(cause)))
    case Continues => served.(stage := AtFinished)
    case Hands(connection) => Spawn(served, connection).(stage := AtFinished)
  }

  function FinishedPoll(s: System): System {
    s.(stage := if s.finishedReceivers == 0 then Stopped(AllClosed) else AtSignal)
  }

  function Close(s: System): System {
    SendShutdown(s).(stage := Dropped, finishedReceivers := s.finishedReceivers - 1)
  }

  function SetTask(s: System, i: nat, t: Task): System
    requires i < |s.tasks|
  {
    s.(tasks := s.tasks[i := t])
  }

  function Release(s: System, i: nat): System
    requires i < |s.tasks|
  {
    SetTask(s, i, s.tasks[i].(phase := Finished)).(finishedReceivers := s.finishedReceivers - 1)
  }

  function Notified(s: System, i: nat): System
    requires i < |s.tasks|
  {
    SetTask(s, i, s.tasks[i].(fused := true, notified := s.tasks[i].notified + 1))
  }

  /** One atomic step; an event that is not enabled changes nothing. */
  function Step(s: System, e: Event): System {
    if !Enabled(s, e) then s
    else match e
      case SignalFires => s.(signal := true)
      case ServerStep(a) =>
        if s.stage.AtSignal? then SignalPoll(s) else if s.stage.AtServe? then ServePoll(s, a) else FinishedPoll(s)
      case DropServer => Close(s)
      case ConnectionEnds(i) => SetTask(s, i, s.tasks[i].(phase := Closing))
      case Notify(i) => Notified(s, i)
      case TaskFinishes(i) => Release(s, i)
      case TaskDropped(i) => Release(s, i)
  }

  function Exec(s: System, run: seq<Event>): System
    decreases |run|
  {
    if |run| == 0 then s else Exec(Step(s, run[0]), run[1..])
  }

  // ---- What every step keeps

  /** The tasks that have not finished. */
  function Live(tasks: seq<Task>): nat {
    if |tasks| == 0 then 0
    else Live(tasks[..|tasks| - 1]) + (if tasks[|tasks| - 1].phase == Finished then 0 else 1)
  }

  predicate TaskOk(s: System, i: nat)
    requires i < |s.tasks|
  {
    && s.tasks[i].notified == (if s.tasks[i].fused then 1 else 0)
    && (s.tasks[i].fused ==> !s.shutdownHeld)
    && i < |s.serving.handed|
    && s.tasks[i].connection == s.serving.handed[i]
  }

  /** Receivers are counted right, and the server lets go of the shutdown receiver only when signalled or dropped. */
  predicate CountsOk(s: System) {
    && s.shutdownReceivers == (if s.shutdownHeld then 1 else 0)
    && s.finishedReceivers == (if s.stage.Dropped? then 0 else 1) + Live(s.tasks)
    && (s.shutdownHeld <==> !s.stage.Dropped? && s.stage != Stopped(Signalled))
    && (s.stage == Stopped(Signalled) ==> s.signal)
    && s.stage != Stopped(AllClosed)
  }

  ghost predicate Sound(s: System) {
    && CountsOk(s)
    && A.Paired(s.serving)
    && |s.tasks| == |s.serving.handed|
    && forall i: nat :: i < |s.tasks| ==> TaskOk(s, i)
  }

  lemma {:induction false} LiveUpdate(tasks: seq<Task>, i: nat, t: Task)
    requires i < |tasks|
    ensures Live(tasks[i := t]) == Live(tasks) - (if tasks[i].phase == Finished then 0 else 1) + (if t.phase == Finished then 0 else 1)
  {
    var last := |tasks| - 1;
    if i < last {
      assert tasks[i := t][..last] == tasks[..last][i := t];
      LiveUpdate(tasks[..last], i, t);
    } else {
      assert tasks[i := t][..last] == tasks[..last];
    }
  }

  lemma LiveAppend(tasks: seq<Task>, t: Task)
    ensures Live(tasks + [t]) == Live(tasks) + (if t.phase == Finished then 0 else 1)
  {
  }

  lemma TaskSound(s: System, i: nat, t: Task, receivers: int)
    requires Sound(s) && i < |s.tasks|
    requires t.connection == s.tasks[i].connection && t.notified == (if t.fused then 1 else 0)
    requires t.fused ==> !s.shutdownHeld
    requires receivers == s.finishedReceivers - (if s.tasks[i].phase == Finished then 0 else 1) + (if t.phase == Finished then 0 else 1)
    ensures Sound(SetTask(s, i, t).(finishedReceivers := receivers))
  {
    LiveUpdate(s.tasks, i, t);
    assert TaskOk(s, i);
    var s' := SetTask(s, i, t).(finishedReceivers := receivers);
    forall j: nat | j < |s'.tasks| ensures TaskOk(s', j) { assert TaskOk(s, j); }
  }

  lemma HandedSound(s: System, a: A.Answer)
    requires Sound(s) && s.stage.AtServe? && A.Answered(s.serving, a).Hands?
    ensures Sound(ServePoll(s, a))
  {
    A.AfterPaired(s.serving, a);
    var s' := ServePoll(s, a);
    var n := |s.tasks|;
    assert s'.tasks == s.tasks + [s'.tasks[n]] && s'.serving.handed == s.serving.handed + [s'.tasks[n].connection];
    LiveAppend(s.tasks, s'.tasks[n]);
    forall j: nat | j < |s'.tasks| ensures TaskOk(s', j) { assert j < n ==> TaskOk(s, j); }
  }

  lemma ServeSound(s: System, a: A.Answer)
    requires Sound(s) && s.stage.AtServe?
    ensures Sound(ServePoll(s, a))
  {
    if A.Answered(s.serving, a).Hands? {
      HandedSound(s, a);
    } else {
      A.AfterPaired(s.serving, a);
      var s' := ServePoll(s, a);
      forall j: nat | j < |s'.tasks| ensures TaskOk(s', j) { assert TaskOk(s, j); }
    }
  }

  lemma EndsSound(s: System, i: nat)
    requires Sound(s) && i < |s.tasks| && s.tasks[i].phase == Running
    ensures Sound(SetTask(s, i, s.tasks[i].(phase := Closing)))
  {
    assert TaskOk(s, i);
    TaskSound(s, i, s.tasks[i].(phase := Closing), s.finishedReceivers);
  }

  lemma NotifySound(s: System, i: nat)
    requires Sound(s) && Enabled(s, Notify(i))
    ensures Sound(Notified(s, i))
  {
    assert TaskOk(s, i);
    TaskSound(s, i, s.tasks[i].(fused := true, notified := s.tasks[i].notified + 1), s.finishedReceivers);
  }

  lemma ReleaseSound(s: System, i: nat)
    requires Sound(s) && i < |s.tasks| && s.tasks[i].phase != Finished
    ensures Sound(Release(s, i))
  {
    assert TaskOk(s, i);
    TaskSound(s, i, s.tasks[i].(phase := Finished), s.finishedReceivers - 1);
  }

  lemma StepSound(s: System, e: Event)
    requires Sound(s)
    ensures Sound(Step(s, e))
  {
    if Enabled(s, e) {
      match e
      case ServerStep(a) =>
        if s.stage.AtServe? { ServeSound(s, a); } else { OtherSound(s, e); }
      case ConnectionEnds(i) => EndsSound(s, i);
      case Notify(i) => NotifySound(s, i);
      case TaskFinishes(i) => ReleaseSound(s, i);
      case TaskDropped(i) => ReleaseSound(s, i);
      case _ => OtherSound(s, e);
    }
  }

  lemma OtherSound(s: System, e: Event)
    requires Sound(s) && Enabled(s, e) && (e.SignalFires? || e.DropServer? || (e.ServerStep? && !s.stage.AtServe?))
    ensures Sound(Step(s, e))
  {
    var s' := Step(s, e);
    forall j: nat | j < |s'.tasks| ensures TaskOk(s', j) { assert TaskOk(s, j); }
  }

  lemma {:induction false} ExecSound(s: System, run: seq<Event>)
    requires Sound(s)
    ensures Sound(Exec(s, run))
    decreases |run|
  {
    if |run| > 0 {
      StepSound(s, run[0]);
      ExecSound(Step(s, run[0]), run[1..]);
    }
  }

  // ---- Over whole runs

  /** Each task is told to shut down at most once, and only after the signal fired or the server was dropped. */
  lemma NotifiedAtMostOnce(run: seq<Event>, i: nat)
    requires i < |Exec(START, run).tasks|
    ensures var s := Exec(START, run);
      s.tasks[i].notified <= 1 && (s.tasks[i].notified == 1 ==> s.stage == Dropped || (s.stage == Stopped(Signalled) && s.signal))
  {
    ExecSound(START, run);
    assert TaskOk(Exec(START, run), i);
  }

  /** The second channel counts the server and the unfinished tasks, so the server never exits because connections ended. */
  lemma NeverAllClosed(run: seq<Event>)
    ensures var s := Exec(START, run);
      && s.finishedReceivers == (if s.stage.Dropped? then 0 else 1) + Live(s.tasks)
      && s.stage != Stopped(AllClosed)
  {
    ExecSound(START, run);
  }

  /** The shutdown channel is closed exactly when the server saw the signal or is gone. */
  lemma ClosedExactlyWhen(run: seq<Event>)
    ensures var s := Exec(START, run);
      s.shutdownReceivers == 0 <==> s.stage.Dropped? || s.stage == Stopped(Signalled)
  {
    ExecSound(START, run);
  }

  /** Closure is permanent. */
  lemma {:induction false} ClosureIsPermanent(s: System, more: seq<Event>)
    requires Sound(s) && s.shutdownReceivers == 0
    ensures Exec(s, more).shutdownReceivers == 0
    decreases |more|
  {
    if |more| > 0 {
      StepSound(s, more[0]);
      ClosureIsPermanent(Step(s, more[0]), more[1..]);
    }
  }

  /** The events by which a running task itself moves on. */
  predicate Touches(e: Event, i: nat) {
    e == ConnectionEnds(i) || e == Notify(i) || e == TaskDropped(i)
  }

  lemma StepLeavesTask(s: System, e: Event, i: nat)
    requires Sound(s) && i < |s.tasks| && s.tasks[i].phase == Running && !Touches(e, i)
    ensures i < |Step(s, e).tasks| && Step(s, e).tasks[i] == s.tasks[i]
  {
  }

  /**
   * Once closed, the closure waits for every running task not yet notified: whatever others do, the task can
   * still observe it, and doing so calls `graceful_shutdown` for the first time and never again.
   */
  lemma {:induction false} NotificationWaits(s: System, more: seq<Event>, i: nat)
    requires Sound(s) && s.shutdownReceivers == 0
    requires i < |s.tasks| && s.tasks[i].phase == Running && !s.tasks[i].fused
    requires forall k :: 0 <= k < |more| ==> !Touches(more[k], i)
    ensures Sound(Exec(s, more)) && Enabled(Exec(s, more), Notify(i))
    ensures Step(Exec(s, more), Notify(i)).tasks[i].notified == 1
    ensures !Enabled(Step(Exec(s, more), Notify(i)), Notify(i))
    decreases |more|
  {
    if |more| > 0 {
      StepSound(s, more[0]);
      StepLeavesTask(s, more[0], i);
      ClosureIsPermanent(s, [more[0]]);
      NotificationWaits(Step(s, more[0]), more[1..], i);
    } else {
      assert TaskOk(s, i);
    }
  }

  lemma {:induction false} FusedForGood(s: System, more: seq<Event>, i: nat)
    requires i < |s.tasks| && s.tasks[i].fused
    ensures i < |Exec(s, more).tasks| && Exec(s, more).tasks[i].fused && Exec(s, more).tasks[i].notified == s.tasks[i].notified
    decreases |more|
  {
    if |more| > 0 {
      FusedForGood(Step(s, more[0]), more[1..], i);
    }
  }

  /**
   * Once the signal has fired, at most one more stream is accepted, and only if the server had already looked at
   * the signal before; once the server has seen it, none.
   */
  lemma {:induction false} NothingAcceptedAfterSignal(s: System, more: seq<Event>)
    requires s.signal
    ensures |s.serving.accepted| <= |Exec(s, more).serving.accepted| <= |s.serving.accepted| + (if s.stage.AtServe? then 1 else 0)
    decreases |more|
  {
    if |more| > 0 {
      NothingAcceptedAfterSignal(Step(s, more[0]), more[1..]);
    }
  }

  /** Looking at a signal that has fired closes the channel at once, and every running task not yet told can be told. */
  lemma SignalCloses(s: System, a: A.Answer, i: nat)
    requires Sound(s) && s.signal && s.stage.AtSignal?
    ensures Step(s, ServerStep(a)).stage == Stopped(Signalled) && Step(s, ServerStep(a)).shutdownReceivers == 0
    ensures i < |s.tasks| && s.tasks[i].phase == Running && s.tasks[i].notified == 0 ==> Enabled(Step(s, ServerStep(a)), Notify(i))
  {
    if i < |s.tasks| { assert TaskOk(s, i); }
  }

  /** How many steps the server may take, once the signal has fired, before it looks at it. */
  function StepsToSignal(stage: Stage): nat {
    match stage
    case AtServe => 3
    case AtFinished => 2
    case AtSignal => 1
    case _ => 0
  }

  function ServerSteps(run: seq<Event>): nat {
    if |run| == 0 then 0 else ServerSteps(run[1..]) + if run[0].ServerStep? then 1 else 0
  }

  /**
   * The signal is heeded: once it has fired and the server has taken three more steps, whatever else goes on, it has
   * ended, and unless it ended with an error and still exists, the shutdown channel is closed.
   */
  lemma {:induction false} SignalIsHeeded(s: System, more: seq<Event>)
    requires Sound(s) && s.signal && ServerSteps(more) >= StepsToSignal(s.stage)
    ensures var t := Exec(s, more);
      && (t.stage.Stopped? || t.stage.Dropped?)
      && ((t.stage.Stopped? && t.stage.exit.Failed?) || t.shutdownReceivers == 0)
    decreases |more|
  {
    if |more| == 0 {
      assert s.stage.Stopped? || s.stage.Dropped?;
    } else {
      StepSound(s, more[0]);
      HeedStep(s, more[0]);
      SignalIsHeeded(Step(s, more[0]), more[1..]);
    }
  }

  lemma {:induction false} ExecSplit(s: System, first: seq<Event>, later: seq<Event>)
    ensures Exec(s, first + later) == Exec(Exec(s, first), later)
    decreases |first|
  {
    if |first| == 0 {
      assert first + later == later;
    } else {
      assert (first + later)[0] == first[0] && (first + later)[1..] == first[1..] + later;
      ExecSplit(Step(s, first[0]), first[1..], later);
    }
  }

  /** In every run in which the server takes three more steps after the signal fires, it ends and tells its tasks. */
  lemma FiredSignalIsHeeded(before: seq<Event>, after: seq<Event>)
    requires ServerSteps(after) >= 3
    ensures var t := Exec(START, before + [SignalFires] + after);
      && (t.stage.Stopped? || t.stage.Dropped?)
      && ((t.stage.Stopped? && t.stage.exit.Failed?) || t.shutdownReceivers == 0)
  {
    ExecSplit(START, before + [SignalFires], after);
    ExecSplit(START, before, [SignalFires]);
    var s := Exec(START, before);
    assert Exec(s, [SignalFires]) == Step(s, SignalFires);
    ExecSound(START, before + [SignalFires]);
    SignalIsHeeded(Exec(START, before + [SignalFires]), after);
  }

  lemma HeedStep(s: System, e: Event)
    requires s.signal
    ensures Step(s, e).signal
    ensures StepsToSignal(Step(s, e).stage) <= StepsToSignal(s.stage)
    ensures e.ServerStep? && StepsToSignal(s.stage) > 0 ==> StepsToSignal(Step(s, e).stage) < StepsToSignal(s.stage)
  {
  }

  /** A server that has completed or is gone accepts nothing and starts nothing. */
  lemma {:induction false} StoppedForGood(s: System, more: seq<Event>)
    requires s.stage.Stopped? || s.stage.Dropped?
    ensures Exec(s, more).serving == s.serving && |Exec(s, more).tasks| == |s.tasks|
    ensures Exec(s, more).stage == s.stage || Exec(s, more).stage.Dropped?
    decreases |more|
  {
    if |more| > 0 {
      StoppedForGood(Step(s, more[0]), more[1..]);
    }
  }

  // ---- The server in place

  datatype Polled = Pending | Ready(exit: Exit)

  /** One turn of the server's loop: signal, accept loop, end of connections; it stops early when a poll returns. */
  function Turn(s: System, a: A.Answer): System {
    var looked := Step(s, ServerStep(a));
    var served := if looked.stage.AtServe? then Step(looked, ServerStep(a)) else looked;
    if served.stage.AtFinished? then Step(served, ServerStep(a)) else served
  }

  /** Whether a turn makes the whole poll return "pending". */
  predicate TurnWaits(s: System, a: A.Answer) {
    !s.signal && A.Answered(s.serving, a).Waits?
  }

  /** A whole poll: turns until one returns. Answers beyond the list are not ready. */
  function Turns(s: System, answers: seq<A.Answer>): System
    decreases |answers|
  {
    var a := if |answers| == 0 then A.NotReady else answers[0];
    var s' := Turn(s, a);
    if s'.stage.Stopped? || TurnWaits(s, a) || |answers| == 0 then s' else Turns(s', answers[1..])
  }

  /** A task that leaves its loop. */
  function End(s: System, i: nat): System {
    Step(Step(s, ConnectionEnds(i)), TaskFinishes(i))
  }

  /** One poll of a connection task: whichever ready branch the select takes first, until nothing is ready. */
  function TaskPoll(s: System, i: nat, ends: bool, endsLater: bool, shutdownFirst: bool): System
    requires i < |s.tasks|
  {
    var notify := Enabled(s, Notify(i));
    if ends && !(notify && shutdownFirst) then End(s, i)
    else if !notify then s
    else if endsLater then End(Step(s, Notify(i)), i)
    else Step(s, Notify(i))
  }

  lemma EndSound(s: System, i: nat)
    requires Sound(s)
    ensures Sound(End(s, i))
  {
    StepSound(s, ConnectionEnds(i));
    StepSound(Step(s, ConnectionEnds(i)), TaskFinishes(i));
  }

  /**
   * A task is told once, if the channel is closed, unless its connection ends and is looked at first; it finishes
   * exactly if its connection ends, and then lets go of its receiver. Other tasks are left alone.
   */
  predicate TaskAnswers(s: System, s': System, i: nat, ends: bool, endsLater: bool, shutdownFirst: bool)
    requires i < |s.tasks|
  {
    var told := s.shutdownReceivers == 0 && s.tasks[i].notified == 0 && !(ends && !shutdownFirst);
    var finishes := if told then endsLater else ends;
    && |s'.tasks| == |s.tasks|
    && (forall j :: 0 <= j < |s.tasks| && j != i ==> s'.tasks[j] == s.tasks[j])
    && s'.tasks[i].notified == s.tasks[i].notified + (if told then 1 else 0)
    && s'.tasks[i].phase == (if finishes then Finished else Running)
    && s'.finishedReceivers == s.finishedReceivers - (if finishes then 1 else 0)
  }

  lemma TaskPollAnswers(s: System, i: nat, ends: bool, endsLater: bool, shutdownFirst: bool)
    requires Sound(s) && i < |s.tasks| && s.tasks[i].phase == Running
    ensures TaskAnswers(s, TaskPoll(s, i, ends, endsLater, shutdownFirst), i, ends, endsLater, shutdownFirst)
  {
    assert TaskOk(s, i);
  }

  lemma TaskPollSound(s: System, i: nat, ends: bool, endsLater: bool, shutdownFirst: bool)
    requires Sound(s) && i < |s.tasks|
    ensures Sound(TaskPoll(s, i, ends, endsLater, shutdownFirst))
  {
    EndSound(s, i);
    StepSound(s, Notify(i));
    EndSound(Step(s, Notify(i)), i);
  }

  /** A poll of the server serves exactly as the plain accept loop does, as long as there is no signal. */
  lemma {:induction false} TurnsServe(s: System, answers: seq<A.Answer>)
    requires Sound(s) && s.stage.AtSignal? && !s.signal
    ensures Turns(s, answers).serving == A.Turns(s.serving, answers).0
    ensures Turns(s, answers).stage ==
      match A.Turns(s.serving, answers).1 case Errs(cause) => Stopped(Failed(cause)) case _ => AtSignal
    decreases |answers|
  {
    var a := if |answers| == 0 then A.NotReady else answers[0];
    TurnSound(s, a);
    TurnServes(s, a);
    if |answers| > 0 && a.Gives? {
      TurnsServe(Turn(s, a), answers[1..]);
    }
  }

  lemma TurnServes(s: System, a: A.Answer)
    requires Sound(s) && s.stage.AtSignal? && !s.signal
    ensures Turn(s, a).serving == A.After(s.serving, a) && !Turn(s, a).signal
    ensures Turn(s, a).stage == match A.Answered(s.serving, a) case Errs(cause) => Stopped(Failed(cause)) case _ => AtSignal
  {
  }

  /** What a poll of the server answers, from the signal and the answers of the accept loop. */
  ghost predicate ServerAnswers(s: System, answers: seq<A.Answer>, r: Polled) {
    if s.signal then r == Ready(Signalled)
    else exists once :: A.PollEnds(s.serving.state, answers, once)
           && r == match once case Errs(cause) => Ready(Failed(cause)) case _ => Pending
  }

  lemma TurnsAnswer(s: System, answers: seq<A.Answer>)
    requires Sound(s) && s.stage.AtSignal?
    ensures var t := Turns(s, answers);
      && ServerAnswers(s, answers, if t.stage.Stopped? then Ready(t.stage.exit) else Pending)
      && (s.signal ==> t.shutdownReceivers == 0)
  {
    if !s.signal {
      TurnsServe(s, answers);
      A.TurnsEnd(s.serving, answers);
      assert A.PollEnds(s.serving.state, answers, A.Turns(s.serving, answers).1);
    }
  }

  class GracefulShutdown {
    const server: A.Serving
    var stage: Stage
    var signal: bool
    var shutdownHeld: bool
    var shutdownReceivers: int
    var finishedReceivers: int
    var tasks: seq<Task>

    ghost function View(): System
      reads this, server
    {
      System(server.Contents(), stage, signal, shutdownHeld, shutdownReceivers, finishedReceivers, tasks)
    }

    ghost predicate Valid()
      reads this, server
    {
      server.Valid() && Sound(View())
    }

    constructor ()
      ensures Valid() && View() == START && fresh(server)
    {
      server := new A.Serving();
      stage, signal, shutdownHeld, shutdownReceivers, finishedReceivers, tasks := AtSignal, false, true, 1, 1, [];
    }

    method Send()
      modifies this`shutdownHeld, this`shutdownReceivers
      ensures View() == SendShutdown(old(View()))
    {
      if shutdownHeld {
        shutdownHeld := false;
        shutdownReceivers := shutdownReceivers - 1;
      }
    }

    method PollSignal()
      requires stage == AtSignal
      modifies this`stage, this`shutdownHeld, this`shutdownReceivers
      ensures View() == SignalPoll(old(View()))
    {
      if signal {
        Send();
        stage := Stopped(Signalled);
      } else {
        stage := AtServe;
      }
    }

    method PollServer(a: A.Answer) returns (waits: bool)
      requires server.Valid() && stage == AtServe
      modifies this`stage, this`tasks, this`finishedReceivers, server
      ensures server.Valid() && View() == ServePoll(old(View()), a)
      ensures waits == A.Answered(old(View()).serving, a).Waits?
      ensures a.Gives? && old(server.state).Making? ==>
        tasks == old(tasks) + [Task(A.Connection(old(server.state).stream, A.Service(old(server.state).call, a.id)), Running, false, 0)]
      ensures !(a.Gives? && old(server.state).Making?) ==> tasks == old(tasks)
    {
      var r := server.PollOnce(a);
      waits := r.Waits?;
      match r
      case Waits => stage := AtSignal;
      case Errs(cause) => stage := Stopped(Failed(cause));
      case Continues => stage := AtFinished;
      case Hands(connection) =>
        finishedReceivers := finishedReceivers + 1;
        tasks := tasks + [Task(connection, Running, false, 0)];
        stage := AtFinished;
    }

    method PollTurn(a: A.Answer) returns (waits: bool)
      requires server.Valid() && stage == AtSignal
      modifies this`stage, this`shutdownHeld, this`shutdownReceivers, this`tasks, this`finishedReceivers, server
      ensures server.Valid() && View() == Turn(old(View()), a)
      ensures waits == TurnWaits(old(View()), a)
    {
      PollSignal();
      if stage != AtServe {
        return false;
      }
      waits := PollServer(a);
      if stage != AtFinished {
        return;
      }
      stage := if finishedReceivers == 0 then Stopped(AllClosed) else AtSignal;
    }

    /** A poll of the server: it ends only because of the signal or of an error. */
    method Poll(answers: seq<A.Answer>) returns (r: Polled)
      requires Valid() && stage == AtSignal
      modifies this, server
      ensures Valid() && View() == Turns(old(View()), answers)
      ensures r == if stage.Stopped? then Ready(stage.exit) else Pending
      ensures r.Ready? ==> r.exit != AllClosed
      ensures ServerAnswers(old(View()), answers, r)
      ensures old(signal) ==> r == Ready(Signalled) && shutdownReceivers == 0
    {
      TurnsAnswer(View(), answers);
      var i := 0;
      while true
        invariant i <= |answers| && Valid() && stage == AtSignal
        invariant Turns(View(), answers[i..]) == Turns(old(View()), answers)
        decreases |answers| - i
      {
        var a := if i < |answers| then answers[i] else A.NotReady;
        ghost var s := View();
        TurnSound(s, a);
        TurnsOn(s, answers, i);
        var waits := PollTurn(a);
        if stage.Stopped? {
          return Ready(stage.exit);
        }
        if i == |answers| || waits {
          return Pending;
        }
        i := i + 1;
      }
    }

    method SendFinished()
      modifies this`finishedReceivers
      ensures View() == old(View()).(finishedReceivers := old(finishedReceivers) - 1)
    {
      finishedReceivers := finishedReceivers - 1;
    }

    /** The task leaves its loop and sends on the second channel. */
    method FinishTask(i: nat)
      requires i < |tasks| && tasks[i].phase == Running
      modifies this`tasks, this`finishedReceivers
      ensures View() == End(old(View()), i)
    {
      tasks := tasks[i := tasks[i].(phase := Closing)];
      SendFinished();
      tasks := tasks[i := tasks[i].(phase := Finished)];
    }

    method NotifyConnection(i: nat)
      requires i < |tasks| && tasks[i].phase == Running && !tasks[i].fused && shutdownReceivers == 0
      modifies this`tasks
      ensures View() == Step(old(View()), Notify(i))
    {
      tasks := tasks[i := tasks[i].(fused := true, notified := tasks[i].notified + 1)];
    }

    /** What the select found ready, if anything. */
    method Select(i: nat, connection: bool, shutdownFirst: bool) returns (ended: bool, notified: bool)
      requires i < |tasks| && tasks[i].phase == Running
      modifies this`tasks, this`finishedReceivers
      ensures var s := old(View()); var shutdown := Enabled(s, Notify(i));
        && ended == (connection && !(shutdown && shutdownFirst))
        && notified == (!ended && shutdown)
        && View() == if ended then End(s, i) else if notified then Step(s, Notify(i)) else s
    {
      var shutdown := !tasks[i].fused && shutdownReceivers == 0;
      ended := connection && !(shutdown && shutdownFirst);
      notified := !ended && shutdown;
      if ended {
        FinishTask(i);
      } else if notified {
        NotifyConnection(i);
      }
    }

    /** A poll of a connection task: the select takes either ready branch, and the shutdown future is fused. */
    method PollTask(i: nat, ends: bool, endsLater: bool, shutdownFirst: bool) returns (done: bool)
      requires Valid() && i < |tasks| && tasks[i].phase == Running
      modifies this`tasks, this`finishedReceivers
      ensures Valid() && View() == TaskPoll(old(View()), i, ends, endsLater, shutdownFirst)
      ensures i < |tasks| && (done <==> tasks[i].phase == Finished)
      ensures TaskAnswers(old(View()), View(), i, ends, endsLater, shutdownFirst)
    {
      ghost var s := View();
      TaskPollAnswers(s, i, ends, endsLater, shutdownFirst);
      TaskPollSound(s, i, ends, endsLater, shutdownFirst);
      var connection := ends;
      while true
        invariant i < |tasks| && tasks[i].phase == Running
        invariant if tasks[i].fused == s.tasks[i].fused then View() == s && connection == ends
                  else Enabled(s, Notify(i)) && View() == Step(s, Notify(i)) && connection == endsLater && (shutdownFirst || !ends)
        decreases if tasks[i].fused then 0 else 1
      {
        var ended, notified := Select(i, connection, shutdownFirst);
        if ended || !notified {
          return ended;
        }
        connection := endsLater;
      }
    }

    /** The server future is dropped with both of its close senders. */
    method Drop()
      requires Valid() && (stage.AtSignal? || stage.Stopped?)
      modifies this
      ensures Valid() && View() == Step(old(View()), DropServer)
      ensures shutdownReceivers == 0 && finishedReceivers == old(finishedReceivers) - 1 && tasks == old(tasks)
    {
      StepSound(View(), DropServer);
      Send();
      SendFinished();
      stage := Dropped;
    }
  }

  lemma TurnSound(s: System, a: A.Answer)
    requires Sound(s) && s.stage.AtSignal?
    ensures Sound(Turn(s, a)) && (Turn(s, a).stage.AtSignal? || Turn(s, a).stage.Stopped?)
  {
    StepSound(s, ServerStep(a));
    var looked := Step(s, ServerStep(a));
    if looked.stage.AtServe? {
      StepSound(looked, ServerStep(a));
      StepSound(Step(looked, ServerStep(a)), ServerStep(a));
    }
  }

  lemma TurnsOn(s: System, answers: seq<A.Answer>, i: nat)
    requires i <= |answers|
    ensures var a := if i < |answers| then answers[i] else A.NotReady;
      Turns(s, answers[i..]) ==
      if Turn(s, a).stage.Stopped? || TurnWaits(s, a) || i == |answers| then Turn(s, a) else Turns(Turn(s, a), answers[i + 1..])
  {
  }
}
