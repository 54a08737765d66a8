/**
 * Reading through adapters: a byte stream, the two adapters between the tokio and hyper read traits
 * (src/bridge/io.rs), and the reader that first replays a prefix (src/rewind.rs).
 */
module Rewinding {
  import opened Wrappers
  import opened Buffers

  /** What the stream answers when it is read: not yet, an error, or up to `n` of its next bytes. */
  datatype Answer = NotReady | Broken | Data(n: nat)

  datatype Poll = Pending | Ready | Failed

  function Min(a: nat, b: nat): nat { if a < b then a else b }

  /** How many bytes a read yields. */
  function Yield(a: Answer, available: nat, room: nat): nat {
    if a.Data? then Min(a.n, Min(available, room)) else 0
  }

  function PollOf(a: Answer): Poll {
    match a
    case NotReady => Pending
    case Broken => Failed
    case Data(_) => Ready
  }

  /** What is left to read: bytes to replay, if any, and the stream behind them. */
  datatype Feed = Feed(prefix: Option<seq<Byte>>, rest: seq<Byte>)

  function Stream(f: Feed): seq<Byte> {
    (if f.prefix.Some? then f.prefix.value else []) + f.rest
  }

  predicate Replaying(f: Feed) {
    f.prefix.Some? && |f.prefix.value| > 0
  }

  /** How many bytes the next read takes from the front of the stream. */
  function Take(f: Feed, room: nat, a: Answer): nat {
    if Replaying(f) then Min(|f.prefix.value|, room) else Yield(a, |f.rest|, room)
  }

  /** The feed after a read: the prefix is used up before the stream is touched. */
  function After(f: Feed, room: nat, a: Answer): Feed {
    var k := Take(f, room, a);
    if Replaying(f) then Feed(if k < |f.prefix.value| then Some(f.prefix.value[k..]) else None, f.rest)
    else Feed(None, f.rest[k..])
  }

  /** The bytes a read yields. */
  function Chunk(f: Feed, room: nat, a: Answer): seq<Byte> {
    if Replaying(f) then f.prefix.value[..Take(f, room, a)] else f.rest[..Take(f, room, a)]
  }

  /** A read takes bytes from the front of the stream, no more than there is room for, and loses none. */
  lemma ChunkSplits(f: Feed, room: nat, a: Answer)
    ensures |Chunk(f, room, a)| == Take(f, room, a) <= room
    ensures Chunk(f, room, a) + Stream(After(f, room, a)) == Stream(f)
  {
  }

  /** One read by the caller: the room in its buffer, and what the stream would answer. */
  datatype Request = Request(room: nat, answer: Answer)

  /** All bytes received over a sequence of reads, by the rules above. */
  function Received(f: Feed, requests: seq<Request>): seq<Byte>
    decreases |requests|
  {
    if |requests| == 0 then []
    else
      Chunk(f, requests[0].room, requests[0].answer) + Received(After(f, requests[0].room, requests[0].answer), requests[1..])
  }

  function Remaining(f: Feed, requests: seq<Request>): Feed
    decreases |requests|
  {
    if |requests| == 0 then f
    else Remaining(After(f, requests[0].room, requests[0].answer), requests[1..])
  }

  /** Over any sequence of reads, what was received followed by what remains is the stream. */
  lemma {:induction false} NothingLost(f: Feed, requests: seq<Request>)
    ensures Received(f, requests) + Stream(Remaining(f, requests)) == Stream(f)
    decreases |requests|
  {
    if |requests| > 0 {
      ChunkSplits(f, requests[0].room, requests[0].answer);
      NothingLost(After(f, requests[0].room, requests[0].answer), requests[1..]);
    }
  }

  /** Reads with room, answered with data, receive the whole stream in at most as many reads as it has bytes. */
  lemma {:induction false} EverythingArrives(f: Feed, requests: seq<Request>)
    requires |Stream(f)| <= |requests|
    requires forall i :: 0 <= i < |requests| ==> requests[i].room > 0 && requests[i].answer.Data? && requests[i].answer.n > 0
    ensures Received(f, requests) == Stream(f)
    decreases |requests|
  {
    if |requests| > 0 {
      ChunkSplits(f, requests[0].room, requests[0].answer);
      EverythingArrives(After(f, requests[0].room, requests[0].answer), requests[1..]);
    }
  }

  /** Reads can be taken in two parts. */
  lemma {:induction false} ReadsSplit(f: Feed, first: seq<Request>, later: seq<Request>)
    ensures Received(f, first + later) == Received(f, first) + Received(Remaining(f, first), later)
    ensures Remaining(f, first + later) == Remaining(Remaining(f, first), later)
    decreases |first|
  {
    if |first| == 0 {
      assert first + later == later;
    } else {
      assert (first + later)[0] == first[0] && (first + later)[1..] == first[1..] + later;
      ReadsSplit(After(f, first[0].room, first[0].answer), first[1..], later);
    }
  }

  /** An underlying connection. */
  class Source {
    var rest: seq<Byte>

    constructor (bytes: seq<Byte>)
      ensures rest == bytes
    {
      rest := bytes;
    }

    method PollRead(buf: ReadBuf, a: Answer) returns (r: Poll)
      requires buf.Valid()
      modifies this, buf, buf.mem
      ensures buf.Valid() && r == PollOf(a)
      ensures buf.Filled() == old(buf.Filled()) + old(rest)[..Yield(a, |old(rest)|, old(buf.Room()))]
      ensures rest == old(rest)[Yield(a, |old(rest)|, old(buf.Room()))..]
      ensures ConfinedTo(old(buf.mem[..]), buf.mem[..], buf.lo + old(buf.filled), buf.hi)
    {
      var k := Yield(a, |rest|, buf.Room());
      buf.PutSlice(rest[..k]);
      rest := rest[k..];
      r := PollOf(a);
    }
  }

  /** Filling a window that begins where another buffer's filled part ends extends that filled part. */
  lemma SubWindow(before: seq<Byte>, after: seq<Byte>, lo: nat, filled: nat, n: nat, hi: nat)
    requires lo + filled + n <= hi <= |after| && ConfinedTo(before, after, lo + filled, hi)
    ensures after[lo..lo + filled + n] == before[lo..lo + filled] + after[lo + filled..lo + filled + n]
  {
  }

  /** The connection fills a buffer over the unfilled part of the caller's, whose cursor stays. */
  method FillUnfilled(source: Source, buf: ReadBuf, a: Answer) returns (r: Poll, n: nat)
    requires buf.Valid()
    modifies source, buf.mem
    ensures n == Yield(a, |old(source.rest)|, buf.Room()) <= |old(source.rest)| && n <= buf.Room() && r == PollOf(a)
    ensures buf.mem[buf.lo + buf.filled..buf.lo + buf.filled + n] == old(source.rest)[..n]
    ensures source.rest == old(source.rest)[n..]
    ensures ConfinedTo(old(buf.mem[..]), buf.mem[..], buf.lo + buf.filled, buf.hi)
  {
    var tbuf := new ReadBuf.Uninit(buf.mem, buf.lo + buf.filled, buf.hi);
    assert tbuf.Filled() == [] && tbuf.Room() == buf.Room();
    r := source.PollRead(tbuf, a);
    n := tbuf.filled;
  }

  /** `TokioIo` as a hyper reader: the connection fills a buffer over the unfilled part, and the cursor moves on. */
  method HyperRead(source: Source, buf: ReadBuf, a: Answer) returns (r: Poll)
    requires buf.Valid()
    modifies source, buf, buf.mem
    ensures buf.Valid() && r == PollOf(a)
    ensures buf.Filled() == old(buf.Filled()) + old(source.rest)[..Yield(a, |old(source.rest)|, old(buf.Room()))]
    ensures source.rest == old(source.rest)[Yield(a, |old(source.rest)|, old(buf.Room()))..]
    ensures ConfinedTo(old(buf.mem[..]), buf.mem[..], buf.lo + old(buf.filled), buf.hi)
  {
    var n: nat;
    r, n := FillUnfilled(source, buf, a);
    SubWindow(old(buf.mem[..]), buf.mem[..], buf.lo, buf.filled, n, buf.hi);
    if r != Ready {
      return;
    }
    buf.Advance(n);
  }

  class Rewind {
    const inner: Source
    var prefix: Option<seq<Byte>>

    ghost function View(): Feed
      reads this, inner
    {
      Feed(prefix, inner.rest)
    }

    constructor (inner: Source, prefix: seq<Byte>)
      ensures this.inner == inner && this.prefix == Some(prefix)
    {
      this.inner := inner;
      this.prefix := Some(prefix);
    }

    method PollRead(buf: ReadBuf, a: Answer) returns (r: Poll)
      requires buf.Valid()
      modifies this, inner, buf, buf.mem
      ensures buf.Valid()
      ensures r == if old(Replaying(View())) then Ready else PollOf(a)
      ensures old(prefix).Some? && |old(prefix).value| > 0 ==> buf.filled == old(buf.filled) + Min(|old(prefix).value|, old(buf.Room()))
      ensures buf.Filled() == old(buf.Filled()) + old(Chunk(View(), buf.Room(), a))
      ensures View() == old(After(View(), buf.Room(), a))
      ensures ConfinedTo(old(buf.mem[..]), buf.mem[..], buf.lo + old(buf.filled), buf.hi)
    {
      ChunkSplits(View(), buf.Room(), a);
      var taken := prefix;
      prefix := None;
      if taken.Some? && |taken.value| > 0 {
        var n := Min(|taken.value|, buf.Room());
        buf.PutSlice(taken.value[..n]);
        var left := taken.value[n..];
        if |left| > 0 {
          prefix := Some(left);
        }
        return Ready;
      }
      r := HyperRead(inner, buf, a);
    }
  }

  /** The adapter's read into the unfilled part of a tokio buffer, before the buffer's counters are touched. */
  method ReadUnfilled(io: Rewind, tbuf: ReadBuf, a: Answer) returns (r: Poll, subFilled: nat)
    requires tbuf.Valid()
    modifies io, io.inner, tbuf.mem
    ensures subFilled == old(Take(io.View(), tbuf.Room(), a)) <= tbuf.Room()
    ensures r == if old(Replaying(io.View())) then Ready else PollOf(a)
    ensures tbuf.mem[tbuf.lo + tbuf.filled..tbuf.lo + tbuf.filled + subFilled] == old(Chunk(io.View(), tbuf.Room(), a))
    ensures io.View() == old(After(io.View(), tbuf.Room(), a))
    ensures ConfinedTo(old(tbuf.mem[..]), tbuf.mem[..], tbuf.lo + tbuf.filled, tbuf.hi)
  {
    ChunkSplits(io.View(), tbuf.Room(), a);
    var buf := new ReadBuf.Uninit(tbuf.mem, tbuf.lo + tbuf.filled, tbuf.hi);
    assert buf.Filled() == [] && buf.Room() == tbuf.Room();
    r := io.PollRead(buf, a);
    subFilled := buf.filled;
  }

  /** `TokioIo` as a tokio reader over a hyper one: both buffer counters are brought up to date. */
  method TokioRead(io: Rewind, tbuf: ReadBuf, a: Answer) returns (r: Poll)
    requires tbuf.Valid()
    modifies io, io.inner, tbuf, tbuf.mem
    ensures tbuf.Valid()
    ensures r == if old(Replaying(io.View())) then Ready else PollOf(a)
    ensures tbuf.Filled() == old(tbuf.Filled()) + old(Chunk(io.View(), tbuf.Room(), a))
    ensures io.View() == old(After(io.View(), tbuf.Room(), a))
    ensures ConfinedTo(old(tbuf.mem[..]), tbuf.mem[..], tbuf.lo + old(tbuf.filled), tbuf.hi)
  {
    ghost var before := tbuf.mem[..];
    var filled := tbuf.filled;
    var subFilled: nat;
    r, subFilled := ReadUnfilled(io, tbuf, a);
    SubWindow(before, tbuf.mem[..], tbuf.lo, filled, subFilled, tbuf.hi);
    assert tbuf.mem[tbuf.lo..tbuf.lo + filled + subFilled] == old(tbuf.Filled()) + old(Chunk(io.View(), tbuf.Room(), a));
    if r == Ready {
      tbuf.AssumeInit(subFilled);
      tbuf.SetFilled(filled + subFilled);
    }
  }

  /** A caller reads into a fresh buffer of the requested size. */
  method ReadOnce(io: Rewind, request: Request) returns (bytes: seq<Byte>)
    modifies io, io.inner
    ensures bytes == old(Chunk(io.View(), request.room, request.answer))
    ensures io.View() == old(After(io.View(), request.room, request.answer))
  {
    var mem := new Byte[request.room];
    var buf := new ReadBuf.Uninit(mem, 0, request.room);
    var r := TokioRead(io, buf, request.answer);
    bytes := mem[..buf.filled];
  }

  /** A caller reads repeatedly. */
  method ReadAll(io: Rewind, requests: seq<Request>) returns (received: seq<Byte>)
    modifies io, io.inner
    ensures received == Received(old(io.View()), requests)
    ensures io.View() == Remaining(old(io.View()), requests)
    ensures received + Stream(io.View()) == old(Stream(io.View()))
  {
    ghost var f := io.View();
    received := [];
    NothingLost(f, requests);
    for i := 0 to |requests|
      invariant received + Received(io.View(), requests[i..]) == Received(f, requests)
      invariant Remaining(io.View(), requests[i..]) == Remaining(f, requests)
    {
      assert requests[i..][0] == requests[i] && requests[i..][1..] == requests[i + 1..];
      var bytes := ReadOnce(io, requests[i]);
      received := received + bytes;
    }
    assert requests[|requests|..] == [];
  }
}
