/**
 * Protocol detection on a server connection (src/server/conn/auto.rs): the first bytes are read to
 * tell HTTP/2 from HTTP/1, given back, and the connection then speaks the detected protocol for good.
 */
module Auto {
  import opened Wrappers
  import opened Buffers
  import opened Rewinding

  /** "PRI * HTTP/2.0", two line ends, "SM", two line ends (section 3.4 of RFC 9113). */
  const PREFACE: seq<Byte> := [
    0x50, 0x52, 0x49, 0x20, 0x2a, 0x20, 0x48, 0x54, 0x54, 0x50, 0x2f, 0x32, 0x2e, 0x30,
    0x0d, 0x0a, 0x0d, 0x0a, 0x53, 0x4d, 0x0d, 0x0a, 0x0d, 0x0a]

  const PREFACE_LENGTH: nat := 24

  datatype HttpProtocol = Http1 | Http2

  datatype Detection = NotYet | Interrupted | ReadFailed | Detected(version: HttpProtocol)

  /** How many bytes the detecting read takes when the stream is willing to give `n`. */
  function Prefix(stream: seq<Byte>, n: nat): seq<Byte> {
    stream[..Min(n, Min(|stream|, PREFACE_LENGTH))]
  }

  /** The future that reads the first bytes. */
  class ReadVersion {
    var io: Source?
    const buf: array<Byte>
    var filled: nat
    var version: HttpProtocol
    var cancelled: bool

    /** Until the future resolves nothing is kept in the buffer between polls. */
    predicate Valid()
      reads this
    {
      buf.Length == PREFACE_LENGTH && (io != null ==> filled == 0 && version == Http2)
    }

    constructor (io: Source)
      ensures Valid() && this.io == io && !cancelled && fresh(buf)
    {
      this.io := io;
      this.buf := new Byte[PREFACE_LENGTH];
      this.filled, this.version, this.cancelled := 0, Http2, false;
    }

    method Cancel()
      modifies this`cancelled
      ensures cancelled
    {
      cancelled := true;
    }

    /**
     * A poll. The loop reads while the buffer is not full, but what is compared with a read is all
     * of the preface that was missing before it, so one successful read always decides.
     */
    method Poll(a: Answer) returns (r: Detection, rewind: Rewind?)
      requires Valid() && io != null
      modifies this, io, buf
      ensures Valid()
      ensures cancelled == old(cancelled)
      ensures r == (
        if cancelled then Interrupted
        else match a
          case NotReady => NotYet
          case Broken => ReadFailed
          case Data(n) => Detected(if old(Prefix(io.rest, n)) == PREFACE then Http2 else Http1))
      ensures r.Detected? ==> a.Data? && io == null && rewind != null && fresh(rewind) && rewind.inner == old(io)
      ensures r.Detected? ==> rewind.View() == old(Feed(Some(Prefix(io.rest, a.n)), io.rest[|Prefix(io.rest, a.n)|..]))
      ensures !r.Detected? ==> io == old(io) && io.rest == old(io.rest)
    {
      rewind := null;
      if cancelled {
        return Interrupted, null;
      }
      ghost var stream, source := io.rest, io;
      var rb := new ReadBuf.Uninit(buf, 0, buf.Length);
      rb.Advance(filled);
      while rb.filled < |PREFACE|
        invariant buf.Length == PREFACE_LENGTH && io == source && fresh(rb) && rb.Valid() && !cancelled
        invariant rb.filled <= |stream|
        invariant rb.mem == buf && rb.lo == 0 && rb.hi == PREFACE_LENGTH
        invariant version == Http2 && filled == rb.filled
        invariant rb.filled == 0 || (a.Data? && rb.filled == |PREFACE| && Prefix(stream, a.n) == PREFACE)
        invariant buf[..rb.filled] == stream[..rb.filled] && io.rest == stream[rb.filled..]
        decreases |PREFACE| - rb.filled
      {
        var length := rb.filled;
        var p := HyperRead(io, rb, a);
        if p == Pending {
          return NotYet, null;
        }
        if p == Failed {
          return ReadFailed, null;
        }
        filled := rb.filled;
        if rb.filled == length || buf[length..rb.filled] != PREFACE[length..] {
          version := Http1;
          break;
        }
      }
      rewind := new Rewind(io, buf[..rb.filled]);
      io := null;
      r := Detected(version);
    }
  }

  // ---- The upgradable connection as a value

  /** Detecting, with the service still held; or serving one protocol, with the bytes left to read. */
  datatype Connection =
    | Sniffing(stream: seq<Byte>, service: nat, cancelled: bool)
    | Serving(protocol: HttpProtocol, feed: Feed, service: nat, draining: bool)

  /** A poll, with what the stream answers the detecting read and the reads the protocol then makes; or a shutdown. */
  datatype Event = Polled(answer: Answer, requests: seq<Request>) | Shutdown

  function Bytes(c: Connection): seq<Byte> {
    if c.Sniffing? then c.stream else Stream(c.feed)
  }

  /** The connection after its detecting part has been polled. */
  function Decided(c: Connection, a: Answer): Connection {
    if c.Sniffing? && !c.cancelled && a.Data? then
      var prefix := Prefix(c.stream, a.n);
      Serving(if prefix == PREFACE then Http2 else Http1, Feed(Some(prefix), c.stream[|prefix|..]), c.service, false)
    else c
  }

  function Next(c: Connection, e: Event): Connection {
    match e
    case Shutdown => if c.Sniffing? then c.(cancelled := true) else c.(draining := true)
    case Polled(a, requests) =>
      var d := Decided(c, a);
      if d.Sniffing? then d else d.(feed := Remaining(d.feed, requests))
  }

  /** The bytes handed to the protocol during an event. */
  function Handed(c: Connection, e: Event): seq<Byte> {
    if e.Shutdown? || Decided(c, e.answer).Sniffing? then [] else Received(Decided(c, e.answer).feed, e.requests)
  }

  function Run(c: Connection, events: seq<Event>): Connection
    decreases |events|
  {
    if |events| == 0 then c else Run(Next(c, events[0]), events[1..])
  }

  /** All bytes handed to the protocol over a run. */
  function Served(c: Connection, events: seq<Event>): seq<Byte>
    decreases |events|
  {
    if |events| == 0 then [] else Handed(c, events[0]) + Served(Next(c, events[0]), events[1..])
  }

  lemma EventIntact(c: Connection, e: Event)
    ensures Handed(c, e) + Bytes(Next(c, e)) == Bytes(c)
  {
    if e.Polled? {
      var d := Decided(c, e.answer);
      if c.Sniffing? && d.Serving? {
        var k := |Prefix(c.stream, e.answer.n)|;
        assert c.stream[..k] + c.stream[k..] == c.stream;
      }
      if d.Serving? {
        NothingLost(d.feed, e.requests);
      }
    }
  }

  /** Whatever is read, polled and cancelled, the protocol gets the stream from its first byte, and the rest is still there. */
  lemma {:induction false} StreamIntact(c: Connection, events: seq<Event>)
    ensures Served(c, events) + Bytes(Run(c, events)) == Bytes(c)
    decreases |events|
  {
    if |events| > 0 {
      EventIntact(c, events[0]);
      StreamIntact(Next(c, events[0]), events[1..]);
    }
  }

  /** The service goes to the protocol unchanged, and a chosen protocol is never left. */
  lemma {:induction false} ProtocolIsFinal(c: Connection, events: seq<Event>)
    ensures Run(c, events).service == c.service
    ensures c.Serving? ==> Run(c, events).Serving? && Run(c, events).protocol == c.protocol
    decreases |events|
  {
    if |events| > 0 {
      ProtocolIsFinal(Next(c, events[0]), events[1..]);
    }
  }

  /** What the first read that gives anything is willing to give, unless a shutdown comes first. */
  function FirstDelivery(events: seq<Event>): Option<nat>
    decreases |events|
  {
    if |events| == 0 || events[0].Shutdown? then None
    else if events[0].answer.Data? then Some(events[0].answer.n)
    else FirstDelivery(events[1..])
  }

  /** A shutdown during detection keeps the connection from ever serving. */
  lemma {:induction false} CancelledNeverServes(c: Connection, events: seq<Event>)
    requires c.Sniffing? && c.cancelled
    ensures Run(c, events) == c && Served(c, events) == []
    decreases |events|
  {
    if |events| > 0 {
      CancelledNeverServes(c, events[1..]);
    }
  }

  /**
   * The exact verdict over every run: a protocol is chosen once some read gives data before any shutdown,
   * and it is HTTP/2 exactly when the stream begins with the preface and that very read gives all of it.
   */
  lemma {:induction false} VerdictExact(c: Connection, events: seq<Event>)
    requires c.Sniffing? && !c.cancelled
    ensures Run(c, events).Serving? <==> FirstDelivery(events).Some?
    ensures Run(c, events).Serving? ==>
      (Run(c, events).protocol == Http2 <==> PREFACE <= c.stream && FirstDelivery(events).value >= |PREFACE|)
    decreases |events|
  {
    if |events| > 0 {
      var d := Next(c, events[0]);
      if d.Serving? {
        ProtocolIsFinal(d, events[1..]);
        PrefixIsPreface(c.stream, events[0].answer.n);
      } else if d.cancelled {
        CancelledNeverServes(d, events[1..]);
      } else {
        VerdictExact(d, events[1..]);
      }
    }
  }

  lemma PrefixIsPreface(stream: seq<Byte>, n: nat)
    ensures Prefix(stream, n) == PREFACE <==> PREFACE <= stream && n >= |PREFACE|
  {
  }

  // ---- What the protocol gets to read

  /** The reads made over a run, polls being served by the protocol. */
  function Reads(events: seq<Event>): seq<Request> {
    if |events| == 0 then [] else (if events[0].Polled? then events[0].requests else []) + Reads(events[1..])
  }

  /** The reads made from the poll that decides on. A shutdown before that leaves none. */
  function ReadsOnceDecided(events: seq<Event>): seq<Request> {
    if |events| == 0 || events[0].Shutdown? then []
    else if events[0].answer.Data? then Reads(events)
    else ReadsOnceDecided(events[1..])
  }

  lemma {:induction false} ServedByReads(c: Connection, events: seq<Event>)
    requires c.Serving?
    ensures Served(c, events) == Received(c.feed, Reads(events))
    decreases |events|
  {
    if |events| > 0 {
      ServedByReads(Next(c, events[0]), events[1..]);
      ReadsSplit(c.feed, if events[0].Polled? then events[0].requests else [], Reads(events[1..]));
    }
  }

  /** Reads with room, answered with data. */
  predicate AllAnswered(requests: seq<Request>) {
    forall i :: 0 <= i < |requests| ==> requests[i].room > 0 && requests[i].answer.Data? && requests[i].answer.n > 0
  }

  /**
   * A protocol that reads often enough, once it is chosen, receives the whole stream: the bytes read to choose it and
   * all others.
   */
  lemma {:induction false} WholeStreamServed(c: Connection, events: seq<Event>)
    requires c.Sniffing? && !c.cancelled
    requires |c.stream| <= |ReadsOnceDecided(events)| && AllAnswered(ReadsOnceDecided(events))
    ensures Served(c, events) == c.stream
    decreases |events|
  {
    if |events| == 0 || events[0].Shutdown? {
      CancelledOrDone(c, events);
    } else if events[0].answer.Data? {
      DecidedServesAll(c, events);
    } else {
      WholeStreamServed(c, events[1..]);
    }
  }

  /** Without reads, there is nothing to receive and nothing is received. */
  lemma CancelledOrDone(c: Connection, events: seq<Event>)
    requires c.Sniffing? && c.stream == [] && (|events| == 0 || events[0].Shutdown?)
    ensures Served(c, events) == []
  {
    if |events| > 0 { CancelledNeverServes(Next(c, events[0]), events[1..]); }
  }

  lemma DecidedServesAll(c: Connection, events: seq<Event>)
    requires c.Sniffing? && !c.cancelled && |events| > 0 && events[0].Polled? && events[0].answer.Data?
    requires |c.stream| <= |Reads(events)| && AllAnswered(Reads(events))
    ensures Served(c, events) == c.stream
  {
    var d := Decided(c, events[0].answer);
    var k := |Prefix(c.stream, events[0].answer.n)|;
    assert c.stream[..k] + c.stream[k..] == c.stream;
    assert Next(d, events[0]) == Next(c, events[0]) && Handed(d, events[0]) == Handed(c, events[0]);
    ServedByReads(d, events);
    EverythingArrives(d.feed, Reads(events));
  }

  /** A protocol is told to drain exactly if a shutdown came since it was chosen. */
  lemma {:induction false} DrainsIff(c: Connection, events: seq<Event>)
    requires c.Serving?
    ensures Run(c, events).Serving?
    ensures Run(c, events).draining <==> c.draining || exists i :: 0 <= i < |events| && events[i].Shutdown?
    decreases |events|
  {
    if |events| > 0 {
      var d := Next(c, events[0]);
      DrainsIff(d, events[1..]);
      if i :| 0 <= i < |events[1..]| && events[1..][i].Shutdown? {
        assert events[i + 1].Shutdown?;
      }
      if i :| 0 <= i < |events| && events[i].Shutdown? {
        assert i == 0 || events[1..][i - 1].Shutdown?;
      }
    }
  }

  /** An HTTP/2 client is recognized exactly when its preface arrives in one piece; nobody else is ever taken for one. */
  lemma DetectionCorrectIff(c: Connection, events: seq<Event>)
    requires c.Sniffing? && !c.cancelled && FirstDelivery(events).Some?
    ensures Run(c, events).Serving?
    ensures (Run(c, events).protocol == Http2 <==> PREFACE <= c.stream)
      <==> !(PREFACE <= c.stream && FirstDelivery(events).value < |PREFACE|)
  {
    VerdictExact(c, events);
  }

  /** A preface that arrives in two pieces is taken for HTTP/1. */
  lemma FragmentedPreface()
    ensures
      var events := [Polled(Data(10), []), Polled(Data(14), [])];
      Run(Sniffing(PREFACE, 0, false), events).Serving? && Run(Sniffing(PREFACE, 0, false), events).protocol == Http1
  {
  }

  // ---- The upgradable connection in place

  datatype State =
    | ReadingVersion(held: Option<nat>)
    | Speaking(protocol: HttpProtocol, io: Rewind, service: nat, draining: bool)

  /** What polling a connection answers: the protocol's own answer, or the error of the detecting read. */
  datatype Answered = Inner(poll: Poll) | ProtocolError(cause: Detection)

  /** The answer of a poll, the protocol's own answer being `inner`. */
  function AnsweredBy(c: Connection, a: Answer, inner: Poll): Answered {
    if Decided(c, a).Serving? then Inner(inner)
    else if c.cancelled then ProtocolError(Interrupted)
    else if a.Broken? then ProtocolError(ReadFailed)
    else Inner(Pending)
  }

  /** What a poll answers, from the connection before it, the answer to the detecting read, and the protocol's own answer. */
  predicate PollAnswers(c: Connection, a: Answer, inner: Poll, r: Answered, received: seq<Byte>) {
    && (r == ProtocolError(Interrupted) <==> c.Sniffing? && c.cancelled)
    && (r == ProtocolError(ReadFailed) <==> c.Sniffing? && !c.cancelled && a.Broken?)
    && (c.Sniffing? && !c.cancelled && a.NotReady? ==> r == Inner(Pending))
    && (c.Serving? || (!c.cancelled && a.Data?) ==> r == Inner(inner))
    && (c.Sniffing? && (c.cancelled || !a.Data?) ==> received == [])
  }

  class UpgradableConnection {
    const source: Source
    const readVersion: ReadVersion
    var state: State

    ghost function Repr(): set<object>
      reads this
    {
      {this, source, readVersion, readVersion.buf} + if state.Speaking? then {state.io} else {}
    }

    ghost predicate Valid()
      reads Repr()
    {
      match state
      case ReadingVersion(held) => held.Some? && readVersion.Valid() && readVersion.io == source
      case Speaking(_, io, _, _) => io.inner == source
    }

    ghost function View(): Connection
      requires Valid()
      reads Repr()
    {
      match state
      case ReadingVersion(held) => Sniffing(source.rest, held.value, readVersion.cancelled)
      case Speaking(protocol, io, service, draining) => Serving(protocol, io.View(), service, draining)
    }

    constructor (io: Source, service: nat)
      ensures Valid() && View() == Sniffing(io.rest, service, false) && source == io && fresh(Repr() - {io})
    {
      source := io;
      readVersion := new ReadVersion(io);
      state := ReadingVersion(Some(service));
    }

    method GracefulShutdown()
      requires Valid()
      modifies this, readVersion
      ensures Valid() && View() == Next(old(View()), Shutdown) && Repr() == old(Repr())
      ensures state.ReadingVersion? <==> old(state).ReadingVersion?
      ensures if state.ReadingVersion? then readVersion.cancelled else state == old(state).(draining := true)
    {
      match state
      case ReadingVersion(_) => readVersion.Cancel();
      case Speaking(_, _, _, _) => state := state.(draining := true);
    }

    /**
     * One turn of the poll loop while the version is still being read. The service is taken here and
     * nowhere else; it is always there to be taken.
     */
    method Decide(a: Answer) returns (r: Detection)
      requires Valid() && state.ReadingVersion?
      modifies this, source, readVersion, readVersion.buf
      ensures Valid() && View() == Decided(old(View()), a) && fresh(Repr() - old(Repr()))
      ensures state.Speaking? <==> r.Detected?
      ensures !r.Detected? ==> r == if old(View()).cancelled then Interrupted else if a.Broken? then ReadFailed else NotYet
    {
      var rewind;
      r, rewind := readVersion.Poll(a);
      if r.Detected? {
        var held := state.held;
        state := ReadingVersion(None);
        state := Speaking(r.version, rewind, held.value, false);
      }
    }

    /** A poll: the loop goes on to the protocol at once when the version becomes known. */
    method Poll(a: Answer, requests: seq<Request>, inner: Poll) returns (r: Answered, received: seq<Byte>)
      requires Valid()
      modifies Repr()
      ensures Valid() && View() == Next(old(View()), Polled(a, requests)) && fresh(Repr() - old(Repr()))
      ensures received == Handed(old(View()), Polled(a, requests))
      ensures r == AnsweredBy(old(View()), a, inner)
      ensures PollAnswers(old(View()), a, inner, r, received)
    {
      ghost var c := View();
      while true
        invariant Valid() && fresh(Repr() - old(Repr()))
        invariant View() == c || (state.Speaking? && View() == Decided(c, a))
        decreases if state.ReadingVersion? then 1 else 0
      {
        if state.ReadingVersion? {
          var d := Decide(a);
          if d == NotYet {
            return Inner(Pending), [];
          }
          if !d.Detected? {
            return ProtocolError(d), [];
          }
        } else {
          received := ReadAll(state.io, requests);
          return Inner(inner), received;
        }
      }
    }

    method Handle(e: Event) returns (received: seq<Byte>)
      requires Valid()
      modifies Repr()
      ensures Valid() && View() == Next(old(View()), e) && fresh(Repr() - old(Repr()))
      ensures received == Handed(old(View()), e)
    {
      if e.Shutdown? {
        GracefulShutdown();
        received := [];
      } else {
        var r;
        r, received := Poll(e.answer, e.requests, Pending);
      }
    }
  }

  /** A connection is polled and shut down in any order. */
  method Drive(connection: UpgradableConnection, events: seq<Event>) returns (received: seq<Byte>)
    requires connection.Valid()
    modifies connection.Repr()
    ensures connection.Valid() && connection.View() == Run(old(connection.View()), events)
    ensures received == Served(old(connection.View()), events)
    ensures fresh(connection.Repr() - old(connection.Repr()))
    decreases |events|
  {
    if |events| == 0 {
      return [];
    }
    var bytes := connection.Handle(events[0]);
    received := Drive(connection, events[1..]);
    received := bytes + received;
  }

  /** A connection from its creation through a whole run: what its protocol received, and which protocol it is. */
  method ServeConnection(stream: seq<Byte>, service: nat, events: seq<Event>)
    returns (received: seq<Byte>, protocol: Option<HttpProtocol>)
    ensures received <= stream
    ensures received == Served(Sniffing(stream, service, false), events)
    ensures |stream| <= |ReadsOnceDecided(events)| && AllAnswered(ReadsOnceDecided(events)) ==> received == stream
    ensures protocol.Some? <==> FirstDelivery(events).Some?
    ensures protocol.Some? ==>
      (protocol.value == Http2 <==> PREFACE <= stream && FirstDelivery(events).value >= |PREFACE|)
  {
    var source := new Source(stream);
    var connection := new UpgradableConnection(source, service);
    received := Drive(connection, events);
    StreamIntact(Sniffing(stream, service, false), events);
    if |stream| <= |ReadsOnceDecided(events)| && AllAnswered(ReadsOnceDecided(events)) {
      WholeStreamServed(Sniffing(stream, service, false), events);
    }
    VerdictExact(Sniffing(stream, service, false), events);
    protocol := if connection.state.Speaking? then Some(connection.state.protocol) else None;
  }
}
