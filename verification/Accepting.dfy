/** The accept loop of the server (src/server/mod.rs): one stream at a time, each with a service made for it. */
module Accepting {
  /** What the outside answers a readiness poll, an accept or a service future. */
  datatype Answer = NotReady | Fails | Gives(id: nat)

  /** A service knows which `make_service_ref` call it comes from. */
  datatype Service = Service(call: nat, id: nat)

  datatype Connection = Connection(stream: nat, service: Service)

  datatype State = Preparing | Accepting | Making(call: nat, stream: nat)

  datatype Cause = AcceptError | MakeServiceError

  /** The answer of `poll_once`. */
  datatype Once = Waits | Continues | Hands(connection: Connection) | Errs(cause: Cause)

  /**
   * The loop's state with its history: successful readiness polls, the stream each `make_service_ref` call was
   * given, the streams accepted and the connections handed out.
   */
  datatype View = View(state: State, ready: nat, calls: seq<nat>, accepted: seq<nat>, handed: seq<Connection>)

  const START := View(Preparing, 0, [], [], [])

  function Answered(v: View, a: Answer): Once {
    match a
    case NotReady => Waits
    case Fails => Errs(if v.state.Accepting? then AcceptError else MakeServiceError)
    case Gives(id) => if v.state.Making? then Hands(Connection(v.state.stream, Service(v.state.call, id))) else Continues
  }

  function After(v: View, a: Answer): View {
    if !a.Gives? then v
    else match v.state
      case Preparing => v.(state := Accepting, ready := v.ready + 1)
      case Accepting => v.(state := Making(|v.calls|, a.id), calls := v.calls + [a.id], accepted := v.accepted + [a.id])
      case Making(_, _) => v.(state := Preparing, handed := v.handed + [Answered(v, a).connection])
  }

  /** The state after a sequence of polls. */
  function Serve(answers: seq<Answer>): View {
    if |answers| == 0 then START else After(Serve(answers[..|answers| - 1]), answers[|answers| - 1])
  }

  /** The k-th connection handed out is the k-th stream accepted, with the service made by the k-th call, made for that stream. */
  ghost predicate Paired(v: View) {
    && |v.accepted| == |v.handed| + (if v.state.Making? then 1 else 0)
    && v.calls == v.accepted
    && (forall k :: 0 <= k < |v.handed| ==> v.handed[k].stream == v.accepted[k] && v.handed[k].service.call == k)
    && (v.state.Making? ==> v.state.call == |v.handed| && v.state.stream == v.accepted[|v.handed|])
    && v.ready == |v.calls| + (if v.state.Accepting? then 1 else 0)
  }

  lemma AfterPaired(v: View, a: Answer)
    requires Paired(v)
    ensures Paired(After(v, a))
  {
  }

  lemma {:induction false} ServePaired(answers: seq<Answer>)
    ensures Paired(Serve(answers))
  {
    if |answers| > 0 {
      ServePaired(answers[..|answers| - 1]);
      AfterPaired(Serve(answers[..|answers| - 1]), answers[|answers| - 1]);
    }
  }

  /**
   * In every run, streams accepted are handed out in order, all but the one a service is being made for, each with
   * the service made from it, and every call was preceded by a successful readiness poll of its own.
   */
  lemma AcceptedAreHandedOut(answers: seq<Answer>, k: nat)
    ensures var v := Serve(answers);
      && |v.accepted| == |v.handed| + (if v.state.Making? then 1 else 0)
      && |v.calls| <= v.ready <= |v.calls| + 1
      && (k < |v.handed| ==>
        && v.handed[k].stream == v.accepted[k]
        && v.handed[k].service.call < |v.calls|
        && v.calls[v.handed[k].service.call] == v.handed[k].stream)
  {
    ServePaired(answers);
  }

  /** A later state of the loop extends the history of an earlier one. */
  lemma {:induction false} HistoryGrows(answers: seq<Answer>, n: nat)
    requires n <= |answers|
    ensures Serve(answers[..n]).accepted <= Serve(answers).accepted
    ensures Serve(answers[..n]).handed <= Serve(answers).handed
    decreases |answers|
  {
    if n < |answers| {
      var before := answers[..|answers| - 1];
      assert before[..n] == answers[..n];
      HistoryGrows(before, n);
    } else {
      assert answers[..n] == answers;
    }
  }

  // ---- What the answers make of it

  /** What the successful answers gave, in order. */
  function Given(answers: seq<Answer>): seq<nat> {
    if |answers| == 0 then []
    else
      var last := answers[|answers| - 1];
      Given(answers[..|answers| - 1]) + if last.Gives? then [last.id] else []
  }

  /** Where the loop is in its round of readiness, stream and service. */
  function Position(state: State): nat {
    match state
    case Preparing => 0
    case Accepting => 1
    case Making(_, _) => 2
  }

  /** Successful answers go round: readiness, a stream, a service for it. */
  ghost predicate GoesRound(v: View, given: seq<nat>) {
    && |v.handed| == |given| / 3 && |v.accepted| == (|given| + 1) / 3 && v.ready == (|given| + 2) / 3
    && Position(v.state) == |given| % 3
    && (forall k :: 0 <= k < |v.accepted| ==> v.accepted[k] == given[3 * k + 1])
    && (forall k :: 0 <= k < |v.handed| ==> v.handed[k] == Connection(given[3 * k + 1], Service(k, given[3 * k + 2])))
  }

  lemma AfterGoesRound(v: View, given: seq<nat>, a: Answer)
    requires Paired(v) && GoesRound(v, given)
    ensures GoesRound(After(v, a), given + if a.Gives? then [a.id] else [])
  {
  }

  /**
   * In every run every third successful answer is the stream of the next connection, and the one after it its
   * service; answers that fail or are not ready change nothing.
   */
  lemma {:induction false} ServeGoesRound(answers: seq<Answer>)
    ensures GoesRound(Serve(answers), Given(answers))
  {
    if |answers| > 0 {
      ServePaired(answers[..|answers| - 1]);
      ServeGoesRound(answers[..|answers| - 1]);
      AfterGoesRound(Serve(answers[..|answers| - 1]), Given(answers[..|answers| - 1]), answers[|answers| - 1]);
    }
  }

  /** How many answers are successful before the first that is not. */
  function FirstRefusal(answers: seq<Answer>): (k: nat)
    ensures k <= |answers| && (forall i :: 0 <= i < k ==> answers[i].Gives?)
    ensures k < |answers| ==> !answers[k].Gives?
  {
    if |answers| == 0 || !answers[0].Gives? then 0 else 1 + FirstRefusal(answers[1..])
  }

  /** What a poll of the loop comes to: it ends at the first answer that is not ready or fails, with the cause of that moment. */
  predicate PollEnds(state: State, answers: seq<Answer>, r: Once) {
    var k := FirstRefusal(answers);
    r == if k == |answers| || answers[k].NotReady? then Waits
         else Errs(if (Position(state) + k) % 3 == 1 then AcceptError else MakeServiceError)
  }

  lemma {:induction false} TurnsEnd(v: View, answers: seq<Answer>)
    ensures PollEnds(v.state, answers, Turns(v, answers).1)
    ensures |Turns(v, answers).0.handed| == |v.handed| + (Position(v.state) + FirstRefusal(answers)) / 3
    ensures v.handed <= Turns(v, answers).0.handed && v.accepted <= Turns(v, answers).0.accepted
    decreases |answers|
  {
    if |answers| > 0 && answers[0].Gives? {
      TurnsEnd(After(v, answers[0]), answers[1..]);
    }
  }

  /** A whole `Serving::poll`: turns until one waits or fails. Answers beyond the list are not ready. */
  function Turns(v: View, answers: seq<Answer>): (View, Once)
    decreases |answers|
  {
    if |answers| == 0 || Answered(v, answers[0]).Waits? then (v, Waits)
    else if Answered(v, answers[0]).Errs? then (v, Answered(v, answers[0]))
    else Turns(After(v, answers[0]), answers[1..])
  }

  class Serving {
    var state: State
    ghost var ready: nat
    ghost var calls: seq<nat>
    ghost var accepted: seq<nat>
    ghost var handed: seq<Connection>
    var made: nat // names the next service future

    ghost function Contents(): View
      reads this
    {
      View(state, ready, calls, accepted, handed)
    }

    ghost predicate Valid()
      reads this
    {
      Paired(Contents()) && made == |calls|
    }

    constructor ()
      ensures Valid() && Contents() == START
    {
      state, ready, calls, accepted, handed, made := Preparing, 0, [], [], [], 0;
    }

    /** Polls the server to accept a single new connection. */
    method PollOnce(a: Answer) returns (r: Once)
      requires Valid()
      modifies this
      ensures Valid() && Contents() == After(old(Contents()), a) && r == Answered(old(Contents()), a)
      ensures r.Waits? <==> a.NotReady?
      ensures r.Errs? <==> a.Fails?
      ensures r.Errs? ==> (r.cause == AcceptError <==> old(state).Accepting?)
      ensures r.Hands? <==> a.Gives? && old(state).Making?
      ensures r.Hands? ==> r.connection == Connection(old(state).stream, Service(old(state).call, a.id))
      ensures if a.Gives? then Position(state) == (Position(old(state)) + 1) % 3 else Contents() == old(Contents())
    {
      AfterPaired(Contents(), a);
      r := Continues;
      match state {
        case Preparing =>
          if a == NotReady { return Waits; }
          if a == Fails { return Errs(MakeServiceError); }
          ready := ready + 1;
          state := Accepting;
        case Accepting =>
          if a == NotReady { return Waits; }
          if a == Fails { return Errs(AcceptError); }
          accepted := accepted + [a.id];
          calls := calls + [a.id];
          state := Making(made, a.id);
          made := made + 1;
        case Making(call, stream) =>
          if a == NotReady { return Waits; }
          if a == Fails { return Errs(MakeServiceError); }
          r := Hands(Connection(stream, Service(call, a.id)));
          state := Preparing;
          handed := handed + [r.connection];
      }
    }

    /** Drives the server: every connection handed out is spawned at once. */
    method Poll(answers: seq<Answer>) returns (r: Once)
      requires Valid()
      modifies this
      ensures Valid() && (Contents(), r) == Turns(old(Contents()), answers)
      ensures PollEnds(old(state), answers, r)
      ensures |handed| == |old(handed)| + (Position(old(state)) + FirstRefusal(answers)) / 3
    {
      TurnsEnd(Contents(), answers);
      var i := 0;
      while i < |answers|
        invariant i <= |answers| && Valid()
        invariant Turns(Contents(), answers[i..]) == Turns(old(Contents()), answers)
      {
        assert answers[i..][0] == answers[i] && answers[i..][1..] == answers[i + 1..];
        r := PollOnce(answers[i]);
        if r.Waits? || r.Errs? {
          return;
        }
        i := i + 1;
      }
      r := Waits;
    }
  }
}
