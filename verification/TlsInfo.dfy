/**
 * The TLS information channel (src/info/tls.rs): one sender, and any number of cloned receivers whose `recv`
 * calls share a one-shot channel behind a read-write lock. A call first looks under the read lock, then again
 * under the write lock, and waits for the one-shot while it holds the write lock. Calls interleave freely and
 * can be cancelled wherever they wait.
 */
module TlsInfo {
  import opened Wrappers

  datatype Info = TlsConnectionInfo(serverName: Option<string>, validated: bool, alpn: Option<string>)

  /** What the lock guards. */
  datatype Shared = Pending | Received(info: Info) | Empty

  /** The one-shot channel. Polling it after it gave its value or its error is a panic. */
  datatype OneShot = Unsent | Holds(info: Info) | Closed | Consumed | Errored

  /** Where a `recv` call is. It can be suspended only in `ToRead`, `ToWrite` and `Awaiting`. */
  datatype Pc =
    | ToRead             // waits for the read lock
    | Reading
    | ToWrite            // waits for the write lock
    | Writing
    | Awaiting           // waits for the one-shot, under the write lock
    | Storing(info: Info)
    | Returned(result: Option<Info>)
    | Panicked
    | Cancelled

  /** `sent` and `taken` are history: the value sent, and how often the one-shot gave it out. */
  datatype System = System(
    shared: Shared,
    shot: OneShot,
    sender: bool,
    readers: set<nat>,
    writer: Option<nat>,
    calls: seq<Pc>,
    sent: Option<Info>,
    taken: nat)

  datatype Event = Send(info: Info) | DropSender | Call | Advance(call: nat) | Cancel(call: nat)

  /** `channel()` */
  const CHANNEL := System(Pending, Unsent, true, {}, None, [], None, 0)

  /** `TlsConnectionInfoReciever::empty()` */
  const EMPTY_CHANNEL := System(Empty, Closed, false, {}, None, [], None, 0)

  predicate HoldsWrite(pc: Pc) {
    pc.Writing? || pc.Awaiting? || pc.Storing?
  }

  predicate CanAdvance(s: System, p: nat)
    requires p < |s.calls|
  {
    match s.calls[p]
    case ToRead => s.writer.None?
    case ToWrite => s.writer.None? && s.readers == {}
    case Awaiting => s.shot != Unsent
    case Reading => true
    case Writing => true
    case Storing(_) => true
    case _ => false
  }

  predicate Enabled(s: System, e: Event) {
    match e
    case Send(_) => s.sender
    case DropSender => s.sender
    case Call => true
    case Advance(p) => p < |s.calls| && CanAdvance(s, p)
    case Cancel(p) => p < |s.calls| && (s.calls[p].ToRead? || s.calls[p].ToWrite? || s.calls[p].Awaiting?)
  }

  function Go(s: System, p: nat, pc: Pc): System
    requires p < |s.calls|
  {
    s.(calls := s.calls[p := pc])
  }

  /** Looking at the shared state under either lock; `onPending` is where the call goes when there is nothing yet. */
  function Look(shared: Shared, onPending: Pc): Pc {
    match shared
    case Pending => onPending
    case Received(info) => Returned(Some(info))
    case Empty => Returned(None)
  }

  /** Polling the one-shot when it has something to say. */
  function PollShot(s: System, p: nat): System
    requires p < |s.calls|
  {
    match s.shot
    case Holds(info) => Go(s, p, Storing(info)).(shot := Consumed, taken := s.taken + 1)
    case Closed => Go(s, p, Panicked).(shot := Errored, writer := None)
    case _ => Go(s, p, Panicked).(writer := None)
  }

  function Advanced(s: System, p: nat): System
    requires p < |s.calls| && CanAdvance(s, p)
  {
    match s.calls[p]
    case ToRead => Go(s, p, Reading).(readers := s.readers + {p})
    case Reading => Go(s, p, Look(s.shared, ToWrite)).(readers := s.readers - {p})
    case ToWrite => Go(s, p, Writing).(writer := Some(p))
    case Writing => Go(s, p, Look(s.shared, Awaiting)).(writer := if s.shared.Pending? then Some(p) else None)
    case Awaiting => PollShot(s, p)
    case Storing(info) => Go(s, p, Returned(Some(info))).(shared := Received(info), writer := None)
  }

  /** One atomic step; an event that is not enabled changes nothing. */
  function Step(s: System, e: Event): System {
    if !Enabled(s, e) then s
    else match e
      case Send(info) => s.(sender := false, shot := Holds(info), sent := Some(info))
      case DropSender => s.(sender := false, shot := Closed)
      case Call => s.(calls := s.calls + [ToRead])
      case Advance(p) => Advanced(s, p)
      case Cancel(p) => Go(s, p, Cancelled).(writer := if s.calls[p].Awaiting? then None else s.writer)
  }

  function Exec(s: System, run: seq<Event>): System {
    if |run| == 0 then s else Step(Exec(s, run[..|run| - 1]), run[|run| - 1])
  }

  // ---- What every step keeps

  predicate CallOk(s: System, p: nat)
    requires p < |s.calls|
  {
    && (s.calls[p].Reading? <==> p in s.readers)
    && (HoldsWrite(s.calls[p]) <==> s.writer == Some(p))
    && (s.calls[p].Awaiting? ==> s.shared.Pending? && !s.shot.Consumed?)
    && (s.calls[p].Storing? ==> s.shared.Pending? && s.shot.Consumed? && s.sent == Some(s.calls[p].info))
    && (s.calls[p].Returned? && s.calls[p].result.Some? ==> s.sent == s.calls[p].result)
    && (s.calls[p] == Returned(None) ==> s.shared.Empty?)
    && (s.calls[p].Panicked? ==> s.shot.Errored?)
  }

  /** The value sent is in exactly one place: the one-shot, the hands of the lock's holder, or the shared state. */
  predicate ValueOk(s: System) {
    && (s.sender <==> s.shot.Unsent?)
    && (s.sent.Some? <==> s.shot.Holds? || s.shot.Consumed?)
    && (s.shot.Holds? ==> s.sent == Some(s.shot.info) && s.shared.Pending?)
    && (s.shot.Consumed? ==> s.shared == Received(s.sent.value) || (s.shared.Pending? && s.writer.Some? && Stores(s)))
    && (s.shared.Received? ==> s.shot.Consumed?)
    && (s.shared.Empty? ==> s.shot.Closed?)
    && s.taken == (if s.shot.Consumed? then 1 else 0)
  }

  predicate Stores(s: System)
    requires s.writer.Some?
  {
    s.writer.value < |s.calls| && s.calls[s.writer.value].Storing?
  }

  predicate LocksOk(s: System) {
    && (s.writer.Some? ==> s.readers == {} && s.writer.value < |s.calls|)
    && (forall p: nat :: p in s.readers ==> p < |s.calls|)
  }

  ghost predicate Sound(s: System) {
    && ValueOk(s)
    && LocksOk(s)
    && forall p: nat :: p < |s.calls| ==> CallOk(s, p)
  }

  lemma AdvanceSound(s: System, p: nat)
    requires Sound(s) && p < |s.calls| && CanAdvance(s, p)
    ensures Sound(Advanced(s, p))
  {
    assert CallOk(s, p);
    var s' := Advanced(s, p);
    forall q: nat | q < |s'.calls| ensures CallOk(s', q) { assert CallOk(s, q); }
  }

  lemma StepSound(s: System, e: Event)
    requires Sound(s)
    ensures Sound(Step(s, e))
  {
    if Enabled(s, e) {
      if e.Advance? {
        AdvanceSound(s, e.call);
      } else {
        assert e.Cancel? ==> CallOk(s, e.call);
        var s' := Step(s, e);
        forall q: nat | q < |s'.calls| ensures CallOk(s', q) { assert q < |s.calls| ==> CallOk(s, q); }
      }
    }
  }

  lemma {:induction false} ExecSound(s: System, run: seq<Event>)
    requires Sound(s)
    ensures Sound(Exec(s, run))
  {
    if |run| > 0 {
      ExecSound(s, run[..|run| - 1]);
      StepSound(Exec(s, run[..|run| - 1]), run[|run| - 1]);
    }
  }

  // ---- Over whole runs

  /** The value of the first send of a run, unless the sender was dropped before. */
  function FirstSent(run: seq<Event>): Option<Info> {
    if |run| == 0 then None
    else if run[0].Send? then Some(run[0].info)
    else if run[0].DropSender? then None
    else FirstSent(run[1..])
  }

  /** Whether the sender has sent or is gone. */
  predicate SenderDone(run: seq<Event>) {
    exists i :: 0 <= i < |run| && (run[i].Send? || run[i].DropSender?)
  }

  lemma {:induction false} FirstSentOnce(run: seq<Event>, e: Event)
    ensures FirstSent(run + [e]) == if SenderDone(run) then FirstSent(run) else if e.Send? then Some(e.info) else None
    ensures SenderDone(run + [e]) <==> SenderDone(run) || e.Send? || e.DropSender?
  {
    assert forall i :: 0 <= i < |run| ==> (run + [e])[i] == run[i];
    assert (run + [e])[|run|] == e;
    if |run| > 0 {
      assert (run + [e])[1..] == run[1..] + [e];
      FirstSentOnce(run[1..], e);
      if i :| 0 <= i < |run| && (run[i].Send? || run[i].DropSender?) {
        assert i == 0 || (run[1..][i - 1].Send? || run[1..][i - 1].DropSender?);
      }
      if i :| 0 <= i < |run[1..]| && (run[1..][i].Send? || run[1..][i].DropSender?) {
        assert run[i + 1].Send? || run[i + 1].DropSender?;
      }
    }
  }

  lemma StepSends(s: System, e: Event)
    ensures Step(s, e).sent == if s.sender && e.Send? then Some(e.info) else s.sent
    ensures Step(s, e).sender == (s.sender && !e.Send? && !e.DropSender?)
  {
  }

  /** In every run the value that counts as sent is that of the first send, if the sender was still there. */
  lemma {:induction false} SentIsFirst(run: seq<Event>)
    ensures Exec(CHANNEL, run).sent == FirstSent(run)
    ensures Exec(CHANNEL, run).sender <==> !SenderDone(run)
  {
    if |run| > 0 {
      var before, e := run[..|run| - 1], run[|run| - 1];
      assert run == before + [e];
      SentIsFirst(before);
      FirstSentOnce(before, e);
      StepSends(Exec(CHANNEL, before), e);
      ExecSound(CHANNEL, before);
    }
  }

  /** On a pending channel, every `recv` that returns gives the value that was sent first. */
  lemma EveryReceiverGetsTheValue(run: seq<Event>, p: nat)
    requires p < |Exec(CHANNEL, run).calls| && Exec(CHANNEL, run).calls[p].Returned?
    ensures FirstSent(run).Some? && Exec(CHANNEL, run).calls[p].result == FirstSent(run)
  {
    ExecSound(CHANNEL, run);
    NeverEmpty(run);
    SentIsFirst(run);
    assert CallOk(Exec(CHANNEL, run), p);
  }

  lemma {:induction false} NeverEmpty(run: seq<Event>)
    ensures !Exec(CHANNEL, run).shared.Empty?
  {
    if |run| > 0 {
      NeverEmpty(run[..|run| - 1]);
    }
  }

  /** The one-shot gives its value at most once, and nobody waits on it afterwards, so it is not polled again. */
  lemma OneShotConsumedOnce(run: seq<Event>, p: nat)
    ensures var s := Exec(CHANNEL, run);
      && s.taken <= 1
      && (p < |s.calls| && s.calls[p].Awaiting? ==> s.taken == 0 && s.writer == Some(p))
  {
    ExecSound(CHANNEL, run);
    assert p < |Exec(CHANNEL, run).calls| ==> CallOk(Exec(CHANNEL, run), p);
  }

  /** A call panics only on a channel whose sender went away without sending; a call gets nothing only on an empty one. */
  lemma FailuresExplained(s: System, run: seq<Event>, p: nat)
    requires s == CHANNEL || s == EMPTY_CHANNEL
    requires p < |Exec(s, run).calls|
    ensures Exec(s, run).calls[p].Panicked? ==> !Exec(s, run).sender && Exec(s, run).sent.None?
    ensures Exec(s, run).calls[p] == Returned(None) ==> s == EMPTY_CHANNEL
  {
    ExecSound(s, run);
    assert CallOk(Exec(s, run), p);
    if s == CHANNEL {
      NeverEmpty(run);
    }
  }

  /** Once received, always received, and always the same. */
  lemma {:induction false} ReceivedIsFinal(s: System, run: seq<Event>)
    requires Sound(s) && s.shared.Received?
    ensures Exec(s, run).shared == s.shared
  {
    if |run| > 0 {
      ReceivedIsFinal(s, run[..|run| - 1]);
      ExecSound(s, run[..|run| - 1]);
      var t := Exec(s, run[..|run| - 1]);
      assert run[|run| - 1].Advance? && run[|run| - 1].call < |t.calls| ==> CallOk(t, run[|run| - 1].call);
    }
  }

  // ---- Progress

  /** How many steps a call has left at most. */
  function Rank(pc: Pc): nat {
    match pc
    case ToRead => 6
    case Reading => 5
    case ToWrite => 4
    case Writing => 3
    case Awaiting => 2
    case Storing(_) => 1
    case _ => 0
  }

  /** A call that advances gets closer to its end. */
  lemma AdvanceDescends(s: System, p: nat)
    requires p < |s.calls| && CanAdvance(s, p)
    ensures Rank(Advanced(s, p).calls[p]) < Rank(s.calls[p])
    ensures forall q: nat :: q < |s.calls| && q != p ==> Advanced(s, p).calls[q] == s.calls[q]
  {
  }

  /** Once the sender has sent or is gone, the calls never all wait for each other: some call can go on. */
  lemma SomeCallCanAdvance(s: System, p: nat) returns (q: nat)
    requires Sound(s) && !s.sender
    requires p < |s.calls| && Rank(s.calls[p]) > 0
    ensures q < |s.calls| && CanAdvance(s, q)
  {
    assert CallOk(s, p);
    if s.writer.Some? {
      q := s.writer.value;
      assert CallOk(s, q);
    } else if s.readers != {} {
      q :| q in s.readers;
      assert CallOk(s, q);
    } else {
      q := p;
    }
  }

  function RankSum(calls: seq<Pc>): nat {
    if |calls| == 0 then 0 else RankSum(calls[..|calls| - 1]) + Rank(calls[|calls| - 1])
  }

  lemma {:induction false} RankSumUpdate(calls: seq<Pc>, p: nat, pc: Pc)
    requires p < |calls|
    ensures RankSum(calls[p := pc]) == RankSum(calls) - Rank(calls[p]) + Rank(pc)
  {
    var last := |calls| - 1;
    if p < last {
      assert calls[p := pc][..last] == calls[..last][p := pc];
      RankSumUpdate(calls[..last], p, pc);
    } else {
      assert calls[p := pc][..last] == calls[..last];
    }
  }

  /** Every scheduled call really goes on. */
  predicate AllAdvance(s: System, schedule: seq<nat>)
    decreases |schedule|
  {
    |schedule| == 0 ||
    (schedule[0] < |s.calls| && CanAdvance(s, schedule[0]) && AllAdvance(Advanced(s, schedule[0]), schedule[1..]))
  }

  function Scheduled(s: System, schedule: seq<nat>): System
    requires AllAdvance(s, schedule)
    decreases |schedule|
  {
    if |schedule| == 0 then s else Scheduled(Advanced(s, schedule[0]), schedule[1..])
  }

  /** However calls are scheduled, they take only so many steps among them. */
  lemma {:induction false} SchedulesEnd(s: System, schedule: seq<nat>)
    requires AllAdvance(s, schedule)
    ensures |schedule| + RankSum(Scheduled(s, schedule).calls) <= RankSum(s.calls)
    decreases |schedule|
  {
    if |schedule| > 0 {
      var p := schedule[0];
      AdvanceDescends(s, p);
      assert Advanced(s, p).calls == s.calls[p := Advanced(s, p).calls[p]];
      RankSumUpdate(s.calls, p, Advanced(s, p).calls[p]);
      SchedulesEnd(Advanced(s, p), schedule[1..]);
    }
  }

  /** A schedule that cannot be continued has let every call return, once the sender has sent or is gone. */
  lemma {:induction false} NobodyWaitsForever(s: System, schedule: seq<nat>, p: nat)
    requires Sound(s) && !s.sender && AllAdvance(s, schedule)
    requires forall q: nat :: q < |Scheduled(s, schedule).calls| ==> !CanAdvance(Scheduled(s, schedule), q)
    requires p < |Scheduled(s, schedule).calls|
    ensures Rank(Scheduled(s, schedule).calls[p]) == 0
    decreases |schedule|
  {
    if |schedule| > 0 {
      AdvanceSound(s, schedule[0]);
      NobodyWaitsForever(Advanced(s, schedule[0]), schedule[1..], p);
    } else if Rank(s.calls[p]) > 0 {
      var q := SomeCallCanAdvance(s, p);
    }
  }

  /** A call run for as long as it can go on. */
  function Settled(s: System, p: nat): System
    requires p < |s.calls|
    ensures |Settled(s, p).calls| == |s.calls|
    decreases Rank(s.calls[p])
  {
    if CanAdvance(s, p) then
      AdvanceDescends(s, p);
      Settled(Advanced(s, p), p)
    else s
  }

  lemma {:induction false} SettledSound(s: System, p: nat)
    requires Sound(s) && p < |s.calls|
    ensures Sound(Settled(s, p))
    decreases Rank(s.calls[p])
  {
    if CanAdvance(s, p) {
      AdvanceSound(s, p);
      AdvanceDescends(s, p);
      SettledSound(Advanced(s, p), p);
    }
  }

  /** With a value sent and the locks free of others, a call that is polled returns the value. */
  lemma {:induction false} SettlesWithValue(s: System, p: nat)
    requires Sound(s) && s.sent.Some? && p < |s.calls| && Rank(s.calls[p]) > 0
    requires s.readers <= {p} && (s.writer.None? || s.writer == Some(p))
    ensures Settled(s, p).calls[p] == Returned(s.sent)
    ensures Settled(s, p).readers == {} && Settled(s, p).writer.None? && Settled(s, p).shared == Received(s.sent.value)
    decreases Rank(s.calls[p])
  {
    assert CallOk(s, p);
    assert CanAdvance(s, p);
    var t := Advanced(s, p);
    AdvanceSound(s, p);
    AdvanceDescends(s, p);
    assert CallOk(t, p);
    if Rank(t.calls[p]) > 0 {
      SettlesWithValue(t, p);
    }
  }

  /**
   * Cancellation never loses the value: in every run in which it was sent, whoever was cancelled wherever, a new
   * call gets it as soon as nobody else is holding the lock.
   */
  lemma CancellationLosesNothing(run: seq<Event>)
    requires Exec(CHANNEL, run).sent.Some?
    requires Exec(CHANNEL, run).readers == {} && Exec(CHANNEL, run).writer.None?
    ensures var s := Exec(CHANNEL, run);
      Settled(Step(s, Call), |s.calls|).calls[|s.calls|] == Returned(s.sent)
  {
    ExecSound(CHANNEL, run);
    StepSound(Exec(CHANNEL, run), Call);
    SettlesWithValue(Step(Exec(CHANNEL, run), Call), |Exec(CHANNEL, run).calls|);
  }

  /** A call that holds the lock and is cancelled leaves the channel as it found it, and the lock to others. */
  lemma CancelledHolder(s: System, p: nat)
    requires Sound(s) && Enabled(s, Cancel(p)) && s.writer == Some(p)
    ensures Step(s, Cancel(p)).writer.None? && Step(s, Cancel(p)).readers == {}
    ensures Step(s, Cancel(p)).shared == s.shared && Step(s, Cancel(p)).shot == s.shot && !s.shot.Consumed?
  {
    assert CallOk(s, p);
  }

  /**
   * What a poll of a suspended call comes to: a call that lacks its lock waits on; one that has or gets it returns
   * what is there, waits for the one-shot under the write lock, or panics if the sender is gone without a value.
   */
  predicate PollEnds(s: System, s': System, p: nat)
    requires p < |s.calls| && p < |s'.calls|
  {
    var blocked := match s.calls[p]
      case ToRead => s.writer.Some?
      case ToWrite => s.writer.Some? || s.readers != {}
      case _ => false;
    if blocked then s' == s
    else if s.calls[p].ToRead? && s.readers != {} && s.shared.Pending? then s'.calls[p].ToWrite?
    else match s.shared
      case Empty => s'.calls[p] == Returned(None)
      case Received(info) => s'.calls[p] == Returned(Some(info))
      case Pending =>
        match s.shot
        case Unsent => s'.calls[p].Awaiting? && s'.writer == Some(p)
        case Holds(info) => s'.calls[p] == Returned(Some(info)) && s'.shared == Received(info) && s'.writer.None?
        case _ => s'.calls[p].Panicked? && s'.writer.None?
  }

  lemma SettledAwaiting(s: System, p: nat)
    requires Sound(s) && p < |s.calls| && s.calls[p].Awaiting?
    ensures PollEnds(s, Settled(s, p), p)
  {
    assert CallOk(s, p);
    if s.shot.Holds? { TwoAdvances(s, p); }
  }

  lemma SettledToWrite(s: System, p: nat)
    requires Sound(s) && p < |s.calls| && s.calls[p].ToWrite?
    ensures PollEnds(s, Settled(s, p), p)
  {
    assert CallOk(s, p);
    if s.writer.None? && s.readers == {} {
      TwoAdvances(s, p);
      var t := Advanced(Advanced(s, p), p);
      AdvanceSound(s, p);
      AdvanceSound(Advanced(s, p), p);
      if t.calls[p].Awaiting? { SettledAwaiting(t, p); }
    }
  }

  lemma SettledToRead(s: System, p: nat)
    requires Sound(s) && p < |s.calls| && s.calls[p].ToRead?
    ensures PollEnds(s, Settled(s, p), p)
  {
    assert CallOk(s, p);
    if s.writer.None? {
      TwoAdvances(s, p);
      var t := Advanced(Advanced(s, p), p);
      assert t.readers == s.readers;
      AdvanceSound(s, p);
      AdvanceSound(Advanced(s, p), p);
      if t.calls[p].ToWrite? { SettledToWrite(t, p); }
    }
  }

  lemma SettledEnds(s: System, p: nat)
    requires Sound(s) && p < |s.calls| && (s.calls[p].ToRead? || s.calls[p].ToWrite? || s.calls[p].Awaiting?)
    ensures PollEnds(s, Settled(s, p), p)
  {
    match s.calls[p]
    case ToRead => SettledToRead(s, p);
    case ToWrite => SettledToWrite(s, p);
    case Awaiting => SettledAwaiting(s, p);
  }

  lemma TwoAdvances(s: System, p: nat)
    requires p < |s.calls| && CanAdvance(s, p) && CanAdvance(Advanced(s, p), p)
    ensures Settled(s, p) == Settled(Advanced(Advanced(s, p), p), p)
  {
  }

  // ---- The channel in place

  class Channel {
    var shared: Shared
    var shot: OneShot
    var sender: bool
    var readers: set<nat>
    var writer: Option<nat>
    var calls: seq<Pc>
    ghost var sent: Option<Info>
    ghost var taken: nat

    ghost function View(): System
      reads this
    {
      System(shared, shot, sender, readers, writer, calls, sent, taken)
    }

    ghost predicate Valid()
      reads this
    {
      Sound(View())
    }

    constructor ()
      ensures Valid() && View() == CHANNEL
    {
      shared, shot, sender, readers, writer, calls, sent, taken := Pending, Unsent, true, {}, None, [], None, 0;
    }

    constructor Empty()
      ensures Valid() && View() == EMPTY_CHANNEL
    {
      shared, shot, sender, readers, writer, calls, sent, taken := Shared.Empty, Closed, false, {}, None, [], None, 0;
    }

    /** The sender sends at most once; what it is asked to send later is dropped. */
    method Send(info: Info)
      requires Valid()
      modifies this
      ensures Valid() && View() == Step(old(View()), Event.Send(info))
      ensures if old(sender) then !sender && sent == Some(info) && shot == Holds(info) else View() == old(View())
    {
      StepSound(View(), Event.Send(info));
      if sender {
        sender := false;
        shot := Holds(info);
        sent := Some(info);
      }
    }

    /** A call of `recv` is created. */
    method Recv() returns (p: nat)
      requires Valid()
      modifies this
      ensures Valid() && View() == Step(old(View()), Call) && p == |old(calls)|
      ensures calls == old(calls) + [ToRead]
    {
      StepSound(View(), Call);
      p := |calls|;
      calls := calls + [ToRead];
    }

    /** A suspended call is dropped together with the lock it holds. */
    method DropCall(p: nat)
      requires Valid() && p < |calls| && (calls[p].ToRead? || calls[p].ToWrite? || calls[p].Awaiting?)
      modifies this
      ensures Valid() && View() == Step(old(View()), Cancel(p))
      ensures p < |old(calls)| && calls == old(calls)[p := Cancelled] && writer != Some(p)
      ensures shared == old(shared) && shot == old(shot)
    {
      StepSound(View(), Cancel(p));
      assert CallOk(View(), p);
      if calls[p].Awaiting? {
        writer := None;
      }
      calls := calls[p := Cancelled];
    }

    /** The first look, under the read lock. */
    method LookUnderRead(p: nat)
      requires p < |calls| && calls[p].ToRead? && p !in readers
      modifies this`readers, this`calls
      ensures p < |calls| && Settled(View(), p) == Settled(old(View()), p)
      ensures if old(writer).Some? then calls[p].ToRead? else calls[p].ToWrite? || calls[p].Returned?
      ensures writer == old(writer)
    {
      if writer.Some? {
        return;
      }
      readers := readers + {p};
      TwoAdvances(old(View()), p);
      var next;
      match shared {
        case Pending => next := ToWrite;
        case Received(info) => next := Returned(Some(info));
        case Empty => next := Returned(None);
      }
      readers := readers - {p};
      calls := calls[p := next];
      assert View() == Advanced(Advanced(old(View()), p), p);
    }

    /** The second look, under the write lock. */
    method LookUnderWrite(p: nat)
      requires p < |calls| && calls[p].ToWrite?
      modifies this`writer, this`calls
      ensures p < |calls| && Settled(View(), p) == Settled(old(View()), p)
      ensures if old(writer).Some? || readers != {} then View() == old(View()) else calls[p].Awaiting? || calls[p].Returned?
    {
      if writer.Some? || readers != {} {
        return;
      }
      TwoAdvances(View(), p);
      match shared {
        case Pending =>
          writer := Some(p);
          calls := calls[p := Awaiting];
        case Received(info) => calls := calls[p := Returned(Some(info))];
        case Empty => calls := calls[p := Returned(None)];
      }
      assert View() == Advanced(Advanced(old(View()), p), p);
    }

    /** Waiting for the one-shot, and storing what it gives, under the write lock. */
    method AwaitShot(p: nat)
      requires p < |calls| && calls[p].Awaiting?
      modifies this`shared, this`shot, this`writer, this`calls, this`taken
      ensures p < |calls| && Settled(View(), p) == Settled(old(View()), p)
      ensures !CanAdvance(View(), p)
    {
      if shot.Holds? {
        TwoAdvances(View(), p);
      }
      match shot {
        case Unsent =>
        case Holds(info) =>
          shot := Consumed;
          taken := taken + 1;
          shared := Received(info);
          writer := None;
          calls := calls[p := Returned(Some(info))];
          assert View() == Advanced(Advanced(old(View()), p), p);
        case Closed =>
          shot := Errored;
          writer := None;
          calls := calls[p := Panicked];
        case _ =>
          writer := None;
          calls := calls[p := Panicked];
      }
    }

    /** A poll of a `recv` call: it goes on from where it was suspended until it returns or must wait. */
    method Poll(p: nat) returns (result: Pc)
      requires Valid() && p < |calls| && (calls[p].ToRead? || calls[p].ToWrite? || calls[p].Awaiting?)
      modifies this
      ensures Valid() && View() == Settled(old(View()), p)
      ensures p < |calls| && result == calls[p]
      ensures p < |old(calls)| && PollEnds(old(View()), View(), p)
    {
      SettledEnds(View(), p);
      SettledSound(View(), p);
      assert CallOk(View(), p);
      if calls[p].ToRead? {
        LookUnderRead(p);
      }
      if calls[p].ToWrite? {
        LookUnderWrite(p);
      }
      if calls[p].Awaiting? {
        AwaitShot(p);
      }
      result := calls[p];
    }
  }
}
