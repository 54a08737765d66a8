/** Address lists and their ordering (src/client/conn/dns.rs), for the address sorting of section 4 of RFC 8305. */
module Dns {
  import opened Wrappers

  datatype IpVersion = V4 | V6

  datatype SocketAddr = SocketAddr(version: IpVersion, ip: nat, port: nat)

  /** `IpVersion::from_binding`: the family to prefer, given the local addresses to bind. */
  function FromBinding(v4: Option<nat>, v6: Option<nat>): (r: Option<IpVersion>)
    ensures r == Some(V6) <==> v6.Some?
    ensures r == None <==> v4.None? && v6.None?
  {
    match (v4, v6)
    case (Some(_), Some(_)) => Some(V6)
    case (Some(_), None) => Some(V4)
    case (None, Some(_)) => Some(V6)
    case (None, None) => None
  }

  function Ported(addrs: seq<SocketAddr>, port: nat): seq<SocketAddr> {
    seq(|addrs|, i requires 0 <= i < |addrs| => addrs[i].(port := port))
  }

  predicate IsFirst(addrs: seq<SocketAddr>, v: IpVersion, i: nat) {
    i < |addrs| && addrs[i].version == v && forall j :: 0 <= j < i ==> addrs[j].version != v
  }

  /** The position of the first address of a family. */
  function FirstOf(addrs: seq<SocketAddr>, v: IpVersion): (r: Option<nat>)
    ensures r.Some? ==> IsFirst(addrs, v, r.value)
    ensures r.None? ==> forall j :: 0 <= j < |addrs| ==> addrs[j].version != v
  {
    if |addrs| == 0 then None
    else if addrs[0].version == v then Some(0)
    else
      var r := FirstOf(addrs[1..], v);
      if r.Some? then Some(r.value + 1) else None
  }

  function Without(addrs: seq<SocketAddr>, i: nat): seq<SocketAddr>
    requires i < |addrs|
  {
    addrs[..i] + addrs[i + 1..]
  }

  function WithoutBoth(addrs: seq<SocketAddr>, i: nat, j: nat): seq<SocketAddr>
    requires i < |addrs| && j < |addrs| && i != j
  {
    if i < j then Without(Without(addrs, j), i) else Without(Without(addrs, i), j)
  }

  /** One address of each family leads, the preferred family (IPv6 by default) first; the others follow as they were. */
  function Sorted(addrs: seq<SocketAddr>, prefer: Option<IpVersion>): seq<SocketAddr> {
    var v4, v6 := FirstOf(addrs, V4), FirstOf(addrs, V6);
    if v4.None? || v6.None? then addrs else Arranged(addrs, prefer, v4.value, v6.value)
  }

  function Arranged(addrs: seq<SocketAddr>, prefer: Option<IpVersion>, i: nat, j: nat): seq<SocketAddr>
    requires i < |addrs| && j < |addrs| && i != j
  {
    (if prefer == Some(V4) then [addrs[i], addrs[j]] else [addrs[j], addrs[i]]) + WithoutBoth(addrs, i, j)
  }

  lemma FirstOfIs(addrs: seq<SocketAddr>, v: IpVersion, i: nat)
    requires IsFirst(addrs, v, i)
    ensures FirstOf(addrs, v) == Some(i)
  {
  }

  lemma WithoutMultiset(addrs: seq<SocketAddr>, i: nat)
    requires i < |addrs|
    ensures multiset(Without(addrs, i)) + multiset{addrs[i]} == multiset(addrs)
  {
    assert addrs == addrs[..i] + [addrs[i]] + addrs[i + 1..];
  }

  lemma WithoutBothMultiset(addrs: seq<SocketAddr>, i: nat, j: nat)
    requires i < |addrs| && j < |addrs| && i != j
    ensures multiset(WithoutBoth(addrs, i, j)) + multiset{addrs[i], addrs[j]} == multiset(addrs)
  {
    var hi, lo := if i < j then j else i, if i < j then i else j;
    WithoutMultiset(addrs, hi);
    WithoutMultiset(Without(addrs, hi), lo);
  }

  lemma ArrangedIsPermutation(addrs: seq<SocketAddr>, prefer: Option<IpVersion>, i: nat, j: nat)
    requires i < |addrs| && j < |addrs| && i != j
    ensures multiset(Arranged(addrs, prefer, i, j)) == multiset(addrs)
  {
    WithoutBothMultiset(addrs, i, j);
    var front := if prefer == Some(V4) then [addrs[i], addrs[j]] else [addrs[j], addrs[i]];
    assert multiset(front) == multiset{addrs[i], addrs[j]};
  }

  /** Sorting loses and adds nothing. */
  lemma SortedIsPermutation(addrs: seq<SocketAddr>, prefer: Option<IpVersion>)
    ensures multiset(Sorted(addrs, prefer)) == multiset(addrs)
  {
    var v4, v6 := FirstOf(addrs, V4), FirstOf(addrs, V6);
    if v4.Some? && v6.Some? {
      ArrangedIsPermutation(addrs, prefer, v4.value, v6.value);
    }
  }

  /** With both families present, the preferred one leads and the other comes second. */
  lemma PreferredLeads(addrs: seq<SocketAddr>, prefer: Option<IpVersion>, i: nat, j: nat)
    requires IsFirst(addrs, V4, i) && IsFirst(addrs, V6, j)
    ensures |Sorted(addrs, prefer)| == |addrs| >= 2
    ensures Sorted(addrs, prefer)[0] == if prefer == Some(V4) then addrs[i] else addrs[j]
    ensures Sorted(addrs, prefer)[1] == if prefer == Some(V4) then addrs[j] else addrs[i]
  {
    FirstOfIs(addrs, V4, i);
    FirstOfIs(addrs, V6, j);
  }

  /** The place in the sorted list of an address that is not moved to the front. */
  function NewPlace(k: nat, i: nat, j: nat): int {
    k + (if k < i then 1 else 0) + (if k < j then 1 else 0)
  }

  lemma WithoutBothAt(addrs: seq<SocketAddr>, i: nat, j: nat, k: nat)
    requires i < |addrs| && j < |addrs| && k < |addrs| && i != j && k != i && k != j
    ensures var m := NewPlace(k, i, j) - 2; 0 <= m < |WithoutBoth(addrs, i, j)| && WithoutBoth(addrs, i, j)[m] == addrs[k]
  {
  }

  /** Addresses that are not moved to the front keep their order: each moves by a rule that preserves it. */
  lemma OthersKeepOrder(addrs: seq<SocketAddr>, prefer: Option<IpVersion>, i: nat, j: nat, k: nat, m: nat)
    requires IsFirst(addrs, V4, i) && IsFirst(addrs, V6, j)
    requires k < m < |addrs| && k != i && k != j && m != i && m != j
    ensures 2 <= NewPlace(k, i, j) < NewPlace(m, i, j) < |Sorted(addrs, prefer)|
    ensures Sorted(addrs, prefer)[NewPlace(k, i, j)] == addrs[k]
    ensures Sorted(addrs, prefer)[NewPlace(m, i, j)] == addrs[m]
  {
    FirstOfIs(addrs, V4, i);
    FirstOfIs(addrs, V6, j);
    ArrangedAt(addrs, prefer, i, j, k);
    ArrangedAt(addrs, prefer, i, j, m);
  }

  lemma ArrangedAt(addrs: seq<SocketAddr>, prefer: Option<IpVersion>, i: nat, j: nat, k: nat)
    requires i < |addrs| && j < |addrs| && k < |addrs| && i != j && k != i && k != j
    ensures 2 <= NewPlace(k, i, j) < |Arranged(addrs, prefer, i, j)| && Arranged(addrs, prefer, i, j)[NewPlace(k, i, j)] == addrs[k]
  {
    WithoutBothAt(addrs, i, j, k);
  }

  /** A list of one family is left alone. */
  lemma SingleFamilyUnchanged(addrs: seq<SocketAddr>, prefer: Option<IpVersion>, v: IpVersion)
    requires forall k :: 0 <= k < |addrs| ==> addrs[k].version == v
    ensures Sorted(addrs, prefer) == addrs
  {
  }

  /** Sorting a sorted list changes nothing. */
  lemma SortedIdempotent(addrs: seq<SocketAddr>, prefer: Option<IpVersion>)
    ensures Sorted(Sorted(addrs, prefer), prefer) == Sorted(addrs, prefer)
  {
    var v4, v6 := FirstOf(addrs, V4), FirstOf(addrs, V6);
    if v4.Some? && v6.Some? {
      var s := Sorted(addrs, prefer);
      PreferredLeads(addrs, prefer, v4.value, v6.value);
      var first := if prefer == Some(V4) then V4 else V6;
      FirstOfIs(s, first, 0);
      FirstOfIs(s, if first == V4 then V6 else V4, 1);
      assert Without(Without(s, 1), 0) == s[2..];
      assert s == [s[0], s[1]] + s[2..];
    }
  }

  class SocketAddrs {
    var addrs: seq<SocketAddr>

    constructor (addrs: seq<SocketAddr>)
      ensures this.addrs == addrs
    {
      this.addrs := addrs;
    }

    method SetPort(port: nat)
      modifies this
      ensures addrs == Ported(old(addrs), port)
      ensures |addrs| == |old(addrs)|
      ensures forall k :: 0 <= k < |addrs| ==>
        addrs[k].port == port && addrs[k].ip == old(addrs)[k].ip && addrs[k].version == old(addrs)[k].version
    {
      for k := 0 to |addrs|
        invariant |addrs| == |old(addrs)|
        invariant forall m :: 0 <= m < |addrs| ==> addrs[m] == if m < k then old(addrs)[m].(port := port) else old(addrs)[m]
      {
        addrs := addrs[k := addrs[k].(port := port)];
      }
    }

    method Pop() returns (r: Option<SocketAddr>)
      modifies this
      ensures if old(addrs) == [] then r == None && addrs == [] else r == Some(old(addrs)[0]) && addrs == old(addrs)[1..]
    {
      if |addrs| == 0 {
        return None;
      }
      r := Some(addrs[0]);
      addrs := addrs[1..];
    }

    /** Removes the address at a position, or nothing if there is no position. */
    method Remove(i: Option<nat>) returns (r: Option<SocketAddr>)
      requires i.Some? ==> i.value < |addrs|
      modifies this
      ensures if i.None? then r == None && addrs == old(addrs)
              else r == Some(old(addrs)[i.value]) && addrs == Without(old(addrs), i.value)
    {
      if i.None? {
        return None;
      }
      r := Some(addrs[i.value]);
      addrs := addrs[..i.value] + addrs[i.value + 1..];
    }

    method PushFront(a: SocketAddr)
      modifies this
      ensures addrs == [a] + old(addrs)
    {
      addrs := [a] + addrs;
    }

    /** The first position of each family, found in one pass that stops once both are known. */
    method FindFirst() returns (v4: Option<nat>, v6: Option<nat>)
      ensures v4 == FirstOf(addrs, V4) && v6 == FirstOf(addrs, V6)
    {
      v4, v6 := None, None;
      for k := 0 to |addrs|
        invariant v4.Some? ==> IsFirst(addrs, V4, v4.value)
        invariant v6.Some? ==> IsFirst(addrs, V6, v6.value)
        invariant v4.None? ==> forall m :: 0 <= m < k ==> addrs[m].version != V4
        invariant v6.None? ==> forall m :: 0 <= m < k ==> addrs[m].version != V6
      {
        if addrs[k].version == V4 && v4.None? {
          v4 := Some(k);
        } else if addrs[k].version == V6 && v6.None? {
          v6 := Some(k);
        } else if v4.Some? && v6.Some? {
          break;
        }
      }
      if v4.Some? { FirstOfIs(addrs, V4, v4.value); }
      if v6.Some? { FirstOfIs(addrs, V6, v6.value); }
    }

    /** The later position is removed first, so that the earlier one stays valid. */
    method Extract(i4: Option<nat>, i6: Option<nat>) returns (v4: Option<SocketAddr>, v6: Option<SocketAddr>)
      requires i4.Some? ==> i4.value < |addrs|
      requires i6.Some? ==> i6.value < |addrs|
      requires i4.Some? ==> i4 != i6
      modifies this
      ensures v4 == if i4.Some? then Some(old(addrs)[i4.value]) else None
      ensures v6 == if i6.Some? then Some(old(addrs)[i6.value]) else None
      ensures addrs ==
        if i4.Some? && i6.Some? then WithoutBoth(old(addrs), i4.value, i6.value)
        else if i4.Some? then Without(old(addrs), i4.value)
        else if i6.Some? then Without(old(addrs), i6.value)
        else old(addrs)
    {
      if i4.Some? && i6.Some? && i4.value > i6.value {
        v4 := Remove(i4);
        v6 := Remove(i6);
      } else {
        v6 := Remove(i6);
        v4 := Remove(i4);
      }
    }

    method SortPreferred(prefer: Option<IpVersion>)
      modifies this
      ensures addrs == Sorted(old(addrs), prefer)
    {
      ghost var before := addrs;
      var i4, i6 := FindFirst();
      OneFamilyStartsFirst(addrs);
      var v4, v6 := Extract(i4, i6);
      if v4.Some? && v6.Some? {
        if prefer == Some(V4) {
          PushFront(v6.value);
          PushFront(v4.value);
        } else {
          PushFront(v4.value);
          PushFront(v6.value);
        }
      } else if v4.Some? {
        PushFront(v4.value);
      } else if v6.Some? {
        PushFront(v6.value);
      }
    }
  }

  lemma OneFamilyStartsFirst(addrs: seq<SocketAddr>)
    ensures FirstOf(addrs, V4).None? && FirstOf(addrs, V6).Some? ==>
      FirstOf(addrs, V6) == Some(0) && [addrs[0]] + Without(addrs, 0) == addrs
    ensures FirstOf(addrs, V6).None? && FirstOf(addrs, V4).Some? ==>
      FirstOf(addrs, V4) == Some(0) && [addrs[0]] + Without(addrs, 0) == addrs
  {
  }
}
