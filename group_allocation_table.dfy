/**
 * The group allocation table of the group-aware scheduler: the event processors
 * in registration order together with the group collection each one services.
 * Processors and groups are opaque identities; the table is modelled sequentially.
 */
module GroupAllocationTable {
  import opened Wrappers

  type ProcId = nat
  type GroupId = nat

  /** True iff no element of s occurs twice. */
  predicate Distinct<T(==)>(s: seq<T>) {
    forall i, j :: 0 <= i < j < |s| ==> s[i] != s[j]
  }

  /** The processors a list holds. */
  function Elements(s: seq<ProcId>): (e: set<ProcId>)
    ensures forall p :: p in e <==> p in s
  {
    set p | p in s
  }

  /** A duplicate-free list has as many elements as its set of elements. */
  lemma {:induction false} DistinctSetSize(s: seq<ProcId>)
    requires Distinct(s)
    ensures |Elements(s)| == |s|
  {
    if s != [] {
      var t, x := s[..|s| - 1], s[|s| - 1];
      assert s == t + [x];
      assert Distinct(t);
      DistinctSetSize(t);
      assert x !in t by {
        forall i | 0 <= i < |t| ensures t[i] != x {
          assert s[i] == t[i];
        }
      }
      assert Elements(s) == Elements(t) + {x};
    }
  }

  /** A map whose keys are exactly the elements of a duplicate-free list has the list's length. */
  lemma DistinctListedCount<V>(s: seq<ProcId>, m: map<ProcId, V>)
    ensures Distinct(s) && (forall p :: p in m <==> p in s) ==> |m| == |s|
  {
    if Distinct(s) && (forall p :: p in m <==> p in s) {
      assert m.Keys == Elements(s);
      DistinctSetSize(s);
    }
  }

  /** The list after java.util.List.remove(Object): drops the first occurrence of k, if any. */
  function RemoveFirst(s: seq<ProcId>, k: ProcId): seq<ProcId> {
    if s == [] then []
    else if s[0] == k then s[1..]
    else [s[0]] + RemoveFirst(s[1..], k)
  }

  /** Removing an absent processor leaves the list as it was. */
  lemma {:induction false} RemoveFirstAbsent(s: seq<ProcId>, k: ProcId)
    requires k !in s
    ensures RemoveFirst(s, k) == s
  {
    if s != [] {
      assert s[0] != k && k !in s[1..];
      RemoveFirstAbsent(s[1..], k);
    }
  }

  /** Removal takes exactly one copy of k out of the list, none if k is absent. */
  lemma {:induction false} RemoveFirstMultiset(s: seq<ProcId>, k: ProcId)
    ensures multiset(RemoveFirst(s, k)) == multiset(s) - multiset{k}
  {
    if s != [] {
      assert s == [s[0]] + s[1..];
      if s[0] != k {
        RemoveFirstMultiset(s[1..], k);
      }
    }
  }

  /** The position of the first occurrence of k. */
  function FirstIndex(s: seq<ProcId>, k: ProcId): (i: nat)
    requires k in s
    ensures i < |s| && s[i] == k && k !in s[..i]
  {
    if s[0] == k then 0 else 1 + FirstIndex(s[1..], k)
  }

  /** Removal cuts out the first occurrence and keeps every other element in its order. */
  lemma {:induction false} RemoveFirstCuts(s: seq<ProcId>, k: ProcId)
    requires k in s
    ensures RemoveFirst(s, k) == s[..FirstIndex(s, k)] + s[FirstIndex(s, k) + 1..]
  {
    if s[0] != k {
      RemoveFirstCuts(s[1..], k);
      var i := FirstIndex(s[1..], k);
      assert s[..i + 1] == [s[0]] + s[1..][..i];
      assert s[i + 2..] == s[1..][i + 1..];
    }
  }

  /** On a list without duplicates, removal takes k out entirely and keeps it duplicate-free. */
  lemma {:induction false} RemoveFirstDistinct(s: seq<ProcId>, k: ProcId)
    requires Distinct(s)
    ensures Distinct(RemoveFirst(s, k))
    ensures forall x :: x in RemoveFirst(s, k) <==> x in s && x != k
  {
    if s != [] {
      assert Distinct(s[1..]);
      assert s[0] !in s[1..];
      if s[0] != k {
        RemoveFirstDistinct(s[1..], k);
        assert RemoveFirst(s, k) == [s[0]] + RemoveFirst(s[1..], k);
      } else {
        assert forall x :: x in s <==> x == s[0] || x in s[1..];
      }
    }
  }

  /** The processors not running an isolated group, in list order. */
  function NotIsolated(s: seq<ProcId>, isRunningIsolatedGroup: ProcId -> bool): seq<ProcId> {
    if s == [] then []
    else NotIsolated(s[..|s| - 1], isRunningIsolatedGroup)
         + (if isRunningIsolatedGroup(s[|s| - 1]) then [] else [s[|s| - 1]])
  }

  /**
   * The filter keeps exactly the processors whose isolation flag is false,
   * never makes the list longer, and keeps the whole list when no flag is set.
   */
  lemma {:induction false} NotIsolatedSpec(s: seq<ProcId>, isRunningIsolatedGroup: ProcId -> bool)
    ensures forall p :: p in NotIsolated(s, isRunningIsolatedGroup) <==> p in s && !isRunningIsolatedGroup(p)
    ensures |NotIsolated(s, isRunningIsolatedGroup)| <= |s|
    ensures (forall p :: p in s ==> !isRunningIsolatedGroup(p)) ==> NotIsolated(s, isRunningIsolatedGroup) == s
  {
    if s != [] {
      var init := s[..|s| - 1];
      NotIsolatedSpec(init, isRunningIsolatedGroup);
      assert s == init + [s[|s| - 1]];
    }
  }

  /** Filtering a concatenation filters each part: the order of the list is kept. */
  lemma {:induction false} NotIsolatedAppend(a: seq<ProcId>, b: seq<ProcId>, isRunningIsolatedGroup: ProcId -> bool)
    ensures NotIsolated(a + b, isRunningIsolatedGroup)
         == NotIsolated(a, isRunningIsolatedGroup) + NotIsolated(b, isRunningIsolatedGroup)
  {
    if b != [] {
      var init := b[..|b| - 1];
      NotIsolatedAppend(a, init, isRunningIsolatedGroup);
      assert (a + b)[..|a + b| - 1] == a + init;
      assert (a + b)[|a + b| - 1] == b[|b| - 1];
    } else {
      assert a + b == a;
    }
  }

  /** DefaultGroupAllocationTable: the key list and the processor-to-groups map. */
  class DefaultGroupAllocationTable {
    var eventProcessors: seq<ProcId>
    var table: map<ProcId, seq<GroupId>>
    const defaultNumEventProcessors: nat

    /** Every mapped processor is listed; this holds whatever sequence of puts and removes. */
    ghost predicate Valid()
      reads this
    {
      forall p :: p in table ==> p in eventProcessors
    }

    /** The stricter shape of a table whose processors were registered once each. */
    ghost predicate Consistent()
      reads this
    {
      Distinct(eventProcessors) && (forall p :: p in table <==> p in eventProcessors)
    }

    /**
     * Registers the now-created processors, in order, each with an empty group collection.
     * The processors the factory creates are given as newEventProcessors.
     */
    constructor (defaultNumEventProcessors: nat, newEventProcessors: seq<ProcId>)
      requires |newEventProcessors| == defaultNumEventProcessors
      requires Distinct(newEventProcessors)
      ensures this.defaultNumEventProcessors == defaultNumEventProcessors
      ensures eventProcessors == newEventProcessors
      ensures forall p :: p in table <==> p in newEventProcessors
      ensures forall p :: p in table ==> table[p] == []
      ensures Valid() && Consistent()
    {
      this.defaultNumEventProcessors := defaultNumEventProcessors;
      eventProcessors := [];
      table := map[];
      new;
      for i := 0 to defaultNumEventProcessors
        invariant eventProcessors == newEventProcessors[..i]
        invariant forall p :: p in table <==> p in newEventProcessors[..i]
        invariant forall p :: p in table ==> table[p] == []
      {
        Put(newEventProcessors[i]);
      }
      assert newEventProcessors[..defaultNumEventProcessors] == newEventProcessors;
    }

    function GetKeys(): (keys: seq<ProcId>)
      reads this
      ensures |keys| == Size()
    {
      eventProcessors
    }

    /** The collection mapped to a processor, None (null) for an unregistered one. */
    function GetValue(p: ProcId): (r: Option<seq<GroupId>>)
      reads this
      ensures r.Some? <==> p in table
      ensures r.Some? ==> r.value == table[p]
    {
      Get(table, p)
    }

    /** The number of listed processors; in a consistent table, also the number of mapped ones. */
    function Size(): (n: nat)
      reads this
      ensures Consistent() ==> n == |table|
    {
      DistinctListedCount(eventProcessors, table);
      |eventProcessors|
    }

    /** Maps key to a fresh empty collection and appends it to the key list. */
    method Put(key: ProcId)
      modifies this
      ensures table == old(table)[key := []]
      ensures eventProcessors == old(eventProcessors) + [key]
      ensures GetValue(key) == Some([])
      ensures Size() == old(Size()) + 1
      ensures old(Valid()) ==> Valid()
      ensures old(Consistent()) && key !in old(eventProcessors) ==> Consistent()
    {
      table := table[key := []];
      eventProcessors := eventProcessors + [key];
    }

    /**
     * The processors usable for normal balancing: the key list itself when the
     * table holds the default number of processors, otherwise those not running
     * an isolated group, in key-list order.
     */
    method GetEventProcessorsNotRunningIsolatedGroup(isRunningIsolatedGroup: ProcId -> bool)
      returns (normal: seq<ProcId>)
      ensures defaultNumEventProcessors == |eventProcessors| ==> normal == eventProcessors
      ensures defaultNumEventProcessors != |eventProcessors| ==>
                normal == NotIsolated(eventProcessors, isRunningIsolatedGroup)
    {
      if defaultNumEventProcessors == |eventProcessors| {
        return eventProcessors;
      }
      normal := [];
      for i := 0 to |eventProcessors|
        invariant normal == NotIsolated(eventProcessors[..i], isRunningIsolatedGroup)
      {
        assert eventProcessors[..i + 1][..i] == eventProcessors[..i];
        if !isRunningIsolatedGroup(eventProcessors[i]) {
          normal := normal + [eventProcessors[i]];
        }
      }
      assert eventProcessors[..|eventProcessors|] == eventProcessors;
    }

    /**
     * Drops the first listing of key and its map entry, returning the collection
     * it held (None when it was not mapped). Other processors' entries are kept.
     */
    method Remove(key: ProcId) returns (groups: Option<seq<GroupId>>)
      modifies this
      ensures groups == Get(old(table), key)
      ensures eventProcessors == RemoveFirst(old(eventProcessors), key)
      ensures table == old(table) - {key}
      ensures forall p :: p != key ==> GetValue(p) == old(GetValue(p))
      ensures old(Valid()) ==> Valid()
      ensures old(Consistent()) ==> Consistent() && key !in eventProcessors
    {
      ghost var before := eventProcessors;
      eventProcessors := RemoveFirst(eventProcessors, key);
      groups := Get(table, key);
      table := table - {key};
      RemoveFirstMultiset(before, key);
      if old(Valid()) {
        forall p | p in table ensures p in eventProcessors {
          assert p in before && p != key;
          assert p in multiset(before) - multiset{key};
        }
      }
      if old(Consistent()) {
        RemoveFirstDistinct(before, key);
        assert key !in eventProcessors;
      }
    }
  }

  /**
   * Registering an already listed processor lists it twice, so a later remove
   * drops its map entry but leaves one listing behind.
   */
  lemma RemoveAfterRePut(s: seq<ProcId>, k: ProcId)
    requires k in s
    ensures k in RemoveFirst(s + [k], k)
  {
    RemoveFirstMultiset(s + [k], k);
    assert multiset(s + [k])[k] == multiset(s)[k] + 1;
    assert k in multiset(RemoveFirst(s + [k], k));
  }
}
