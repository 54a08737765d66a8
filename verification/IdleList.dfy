/** The list of idle connections kept for one key (src/client/pool/idle.rs). */
module IdleList {
  import opened Wrappers

  type Time = nat
  type ConnId = nat

  datatype Idle = Idle(at: Time, conn: ConnId)

  /** `Instant::checked_sub`: time 0 is the earliest instant the clock can represent. A zero timeout is filtered out. */
  function Cutoff(timeout: Option<Time>, now: Time): Option<Time> {
    if timeout.Some? && 0 < timeout.value <= now then Some(now - timeout.value) else None
  }

  predicate Expired(e: Idle, cutoff: Option<Time>) {
    cutoff.Some? && e.at < cutoff.value
  }

  predicate Usable(e: Idle, open: set<ConnId>, cutoff: Option<Time>) {
    e.conn in open && !Expired(e, cutoff)
  }

  /** Entries are in the order they were pushed, and none was pushed in the future. */
  ghost predicate Ordered(list: seq<Idle>, now: Time) {
    && (forall i, j :: 0 <= i < j < |list| ==> list[i].at <= list[j].at)
    && (forall i :: 0 <= i < |list| ==> list[i].at <= now)
  }

  /** The position of the newest entry that is both open and unexpired. */
  function NewestUsable(list: seq<Idle>, open: set<ConnId>, cutoff: Option<Time>): (r: Option<nat>)
    ensures r.Some? ==> r.value < |list| && Usable(list[r.value], open, cutoff)
    ensures forall j :: (if r.Some? then r.value + 1 else 0) <= j < |list| ==> !Usable(list[j], open, cutoff)
  {
    if |list| == 0 then None
    else if Usable(list[|list| - 1], open, cutoff) then Some(|list| - 1)
    else NewestUsable(list[..|list| - 1], open, cutoff)
  }

  /** What a pop hands out: the newest usable entry, found by looking at every entry. */
  function Popped(list: seq<Idle>, open: set<ConnId>, cutoff: Option<Time>): Option<ConnId> {
    var i := NewestUsable(list, open, cutoff);
    if i.Some? then Some(list[i.value].conn) else None
  }

  /** What a pop leaves behind. */
  function Remaining(list: seq<Idle>, open: set<ConnId>, cutoff: Option<Time>): seq<Idle> {
    var i := NewestUsable(list, open, cutoff);
    if i.Some? then list[..i.value] else []
  }

  /** The index found is the only one with the defining property. */
  lemma NewestUsableIs(list: seq<Idle>, open: set<ConnId>, cutoff: Option<Time>, i: nat)
    requires i < |list| && Usable(list[i], open, cutoff)
    requires forall j :: i < j < |list| ==> !Usable(list[j], open, cutoff)
    ensures NewestUsable(list, open, cutoff) == Some(i)
  {
  }

  /** Closed, or idle for longer than a maximum that is set and not zero. */
  predicate Dead(e: Idle, open: set<ConnId>, timeout: Option<Time>, now: Time) {
    e.conn !in open || (timeout.Some? && 0 < timeout.value < now - e.at)
  }

  /** The cutoff tells exactly the entries that are too old, also when the clock cannot go back that far. */
  lemma UsableIff(e: Idle, open: set<ConnId>, timeout: Option<Time>, now: Time)
    ensures Usable(e, open, Cutoff(timeout, now)) <==> !Dead(e, open, timeout, now)
  {
  }

  /** The newest entry that is not dead. */
  ghost predicate NewestAlive(list: seq<Idle>, open: set<ConnId>, timeout: Option<Time>, now: Time, i: nat) {
    i < |list| && !Dead(list[i], open, timeout, now) && forall j :: i < j < |list| ==> Dead(list[j], open, timeout, now)
  }

  /** A pop gives nothing exactly if every entry is dead, and otherwise the newest that is not, keeping all older ones. */
  ghost predicate PopsNewest(list: seq<Idle>, open: set<ConnId>, timeout: Option<Time>, now: Time, entry: Option<ConnId>, left: seq<Idle>) {
    && (entry.None? <==> forall i :: 0 <= i < |list| ==> Dead(list[i], open, timeout, now))
    && (entry.None? ==> left == [])
    && (entry.Some? ==>
      exists i: nat :: NewestAlive(list, open, timeout, now, i) && entry == Some(list[i].conn) && left == list[..i])
  }

  lemma PoppedIsNewest(list: seq<Idle>, open: set<ConnId>, timeout: Option<Time>, now: Time)
    ensures var cutoff := Cutoff(timeout, now);
      PopsNewest(list, open, timeout, now, Popped(list, open, cutoff), Remaining(list, open, cutoff))
  {
    var cutoff := Cutoff(timeout, now);
    forall i | 0 <= i < |list| ensures Usable(list[i], open, cutoff) <==> !Dead(list[i], open, timeout, now) {
      UsableIff(list[i], open, timeout, now);
    }
    var r := NewestUsable(list, open, cutoff);
    if r.Some? {
      assert NewestAlive(list, open, timeout, now, r.value);
    }
  }

  /** An entry that a pop neither returns nor keeps is dead. */
  lemma OnlyDeadEntriesDiscarded(list: seq<Idle>, open: set<ConnId>, timeout: Option<Time>, now: Time, i: nat)
    requires i < |list|
    ensures
      || (i < |Remaining(list, open, Cutoff(timeout, now))| && Remaining(list, open, Cutoff(timeout, now))[i] == list[i])
      || Popped(list, open, Cutoff(timeout, now)) == Some(list[i].conn)
      || Dead(list[i], open, timeout, now)
  {
    UsableIff(list[i], open, timeout, now);
  }

  /** A connection handed out is open and has not been idle for longer than the configured maximum. */
  lemma PoppedIsFresh(list: seq<Idle>, open: set<ConnId>, timeout: Option<Time>, now: Time)
    requires Ordered(list, now)
    requires Popped(list, open, Cutoff(timeout, now)).Some?
    ensures exists i ::
      && 0 <= i < |list|
      && Popped(list, open, Cutoff(timeout, now)) == Some(list[i].conn)
      && list[i].conn in open
      && (timeout.Some? && timeout.value > 0 ==> now - list[i].at <= timeout.value)
      && Remaining(list, open, Cutoff(timeout, now)) == list[..i]
  {
  }

  class IdleConnections {
    var inner: seq<Idle>

    constructor (list: seq<Idle>)
      ensures inner == list
    {
      inner := list;
    }

    /** The clock is read inside, so it is at least as late as every earlier push. */
    method Push(conn: ConnId, now: Time)
      requires Ordered(inner, now)
      modifies this
      ensures inner == old(inner) + [Idle(now, conn)]
      ensures Ordered(inner, now)
    {
      inner := inner + [Idle(now, conn)];
    }

    /**
     * Pops from the back. The first expired entry empties the list, which is right because every older
     * entry has expired too.
     */
    method TakeNewest(timeout: Option<Time>, now: Time, open: set<ConnId>) returns (entry: Option<ConnId>)
      requires Ordered(inner, now)
      modifies this
      ensures entry == Popped(old(inner), open, Cutoff(timeout, now))
      ensures inner == Remaining(old(inner), open, Cutoff(timeout, now))
      ensures Ordered(inner, now)
    {
      ghost var list := inner;
      var empty := false;
      entry := None;
      if |inner| != 0 {
        var expired := Cutoff(timeout, now);
        while |inner| > 0
          invariant |inner| <= |list| && inner == list[..|inner|]
          invariant !empty && entry == None
          invariant forall j :: |inner| <= j < |list| ==> !Usable(list[j], open, expired)
        {
          var e := inner[|inner| - 1];
          inner := inner[..|inner| - 1];
          if expired.Some? && e.at < expired.value {
            empty := true;
            break;
          }
          if e.conn in open {
            entry := Some(e.conn);
            NewestUsableIs(list, open, expired, |inner|);
            break;
          }
        }
        empty := empty || |inner| == 0;
      }
      if empty {
        inner := [];
      }
    }

    /** The newest entry that is open and not too old. */
    method Pop(timeout: Option<Time>, now: Time, open: set<ConnId>) returns (entry: Option<ConnId>)
      requires Ordered(inner, now)
      modifies this
      ensures PopsNewest(old(inner), open, timeout, now, entry, inner)
      ensures entry == Popped(old(inner), open, Cutoff(timeout, now))
      ensures inner == Remaining(old(inner), open, Cutoff(timeout, now))
      ensures Ordered(inner, now)
    {
      PoppedIsNewest(inner, open, timeout, now);
      entry := TakeNewest(timeout, now, open);
    }
  }
}
