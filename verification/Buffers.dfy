/** Read buffers over borrowed memory, as the hyper and tokio `ReadBuf` types have them. */
module Buffers {
  type Byte = bv8

  /** Memory changed at most in the window `[at, hi)`. */
  ghost predicate ConfinedTo(before: seq<Byte>, after: seq<Byte>, at: nat, hi: nat) {
    |before| == |after| && forall i :: 0 <= i < |before| && !(at <= i < hi) ==> after[i] == before[i]
  }

  /** A buffer over the window `[lo, hi)` of an array; the first `filled` bytes of it are filled. */
  class ReadBuf {
    const mem: array<Byte>
    const lo: nat
    const hi: nat
    var filled: nat
    var initialized: nat

    predicate Valid()
      reads this
    {
      lo <= hi <= mem.Length && filled <= initialized <= hi - lo
    }

    ghost function Filled(): seq<Byte>
      requires Valid()
      reads this, mem
    {
      mem[lo..lo + filled]
    }

    function Room(): nat
      requires Valid()
      reads this
    {
      hi - lo - filled
    }

    constructor Uninit(mem: array<Byte>, lo: nat, hi: nat)
      requires lo <= hi <= mem.Length
      ensures Valid() && this.mem == mem && this.lo == lo && this.hi == hi && filled == 0
    {
      this.mem, this.lo, this.hi := mem, lo, hi;
      this.filled, this.initialized := 0, 0;
    }

    /** The hyper cursor: bytes just written become filled. */
    method Advance(n: nat)
      requires Valid() && n <= Room()
      modifies this
      ensures Valid() && filled == old(filled) + n
    {
      filled := filled + n;
      if initialized < filled { initialized := filled; }
    }

    /** The tokio buffer: the first `n` unfilled bytes are declared initialized. */
    method AssumeInit(n: nat)
      requires Valid() && n <= Room()
      modifies this`initialized
      ensures Valid() && filled + n <= initialized
    {
      if filled + n > initialized { initialized := filled + n; }
    }

    /** The tokio buffer asserts that what is filled is initialized. */
    method SetFilled(n: nat)
      requires Valid() && n <= initialized
      modifies this`filled
      ensures Valid() && filled == n
    {
      filled := n;
    }

    /** Copies bytes behind the filled ones; the assertion on the length is the precondition. */
    method PutSlice(bytes: seq<Byte>)
      requires Valid() && |bytes| <= Room()
      modifies this, mem
      ensures Valid() && filled == old(filled) + |bytes| && Filled() == old(Filled()) + bytes
      ensures ConfinedTo(old(mem[..]), mem[..], lo + old(filled), hi)
    {
      var at := lo + filled;
      for k := 0 to |bytes|
        invariant Valid() && filled == old(filled) && initialized == old(initialized)
        invariant forall i :: 0 <= i < k ==> mem[at + i] == bytes[i]
        invariant forall i :: 0 <= i < mem.Length && !(at <= i < at + k) ==> mem[i] == old(mem[i])
      {
        mem[at + k] := bytes[k];
      }
      Advance(|bytes|);
    }
  }
}
