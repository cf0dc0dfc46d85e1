/**
 LruCache of include/utils/LruCache.h: a hash set of entries threaded on a doubly linked list from the
 oldest to the youngest. It refines a sequence of distinct keys in order of last use.
 */
module LruCache {
  import opened Seqs
  import opened Wire

  class Entry<K, V> {
    const key: K
    const value: V
    var parent: Entry?<K, V>
    var child: Entry?<K, V>

    constructor (key: K, value: V)
      ensures this.key == key && this.value == value && parent == null && child == null
    {
      this.key, this.value, parent, child := key, value, null, null;
    }
  }

  // ----- the reference: a sequence of keys and values in order of last use

  function Lookup<K(==), V>(items: seq<(K, V)>, key: K): Option<V> {
    if items == [] then None else if items[0].0 == key then Some(items[0].1) else Lookup(items[1..], key)
  }

  function Erased<K(==), V>(items: seq<(K, V)>, key: K): seq<(K, V)> {
    if items == [] then [] else if items[0].0 == key then items[1..] else [items[0]] + Erased(items[1..], key)
  }

  /** After a get: the key is the youngest. */
  function Touched<K(==), V>(items: seq<(K, V)>, key: K): seq<(K, V)> {
    match Lookup(items, key)
    case None => items
    case Some(v) => Erased(items, key) + [(key, v)]
  }

  /** A put makes room first, even if it then finds the key present. */
  function Roomy<T>(items: seq<T>, capacity: nat): seq<T> {
    if capacity != 0 && |items| >= capacity && items != [] then items[1..] else items
  }

  predicate Full<T>(items: seq<T>, capacity: nat) {
    capacity != 0 && |items| == capacity
  }

  /**
   A put is refused exactly if the key is there, except as the oldest of a full cache. It then leaves all as it
   was if the cache was not full, and otherwise has lost the oldest entry.
   */
  lemma RefusedPut<K, V>(items: seq<(K, V)>, capacity: nat, key: K)
    requires capacity != 0 ==> |items| <= capacity
    requires forall i, j :: 0 <= i < j < |items| ==> items[i].0 != items[j].0
    ensures
      var refused := Lookup(items, key).Some? && !(Full(items, capacity) && items[0].0 == key);
      && (Lookup(Roomy(items, capacity), key).Some? <==> refused)
      && (refused ==> (Roomy(items, capacity) == items <==> !Full(items, capacity)))
      && (refused && Full(items, capacity) ==> [items[0]] + Roomy(items, capacity) == items)
  {
    if Full(items, capacity) && items[0].0 == key {
      Absent(items[1..], key);
    }
  }

  /** A full cache of two that refuses the younger key has lost the older one. */
  lemma RefusedPutExample()
    ensures
      var items := [(1, 10), (2, 20)];
      Lookup(Roomy(items, 2), 2) == Some(20) && Roomy(items, 2) == [(2, 20)] && Lookup(Roomy(items, 2), 1) == None
  {
    var items := [(1, 10), (2, 20)];
    assert items[1..] == [(2, 20)] && [(2, 20)][1..] == [];
    Absent(items[1..], 1);
  }

  ghost function ItemsOf<K, V>(list: seq<Entry<K, V>>): (r: seq<(K, V)>)
    ensures |r| == |list|
  {
    seq(|list|, i requires 0 <= i < |list| => (list[i].key, list[i].value))
  }

  lemma {:induction false} Present<K, V>(items: seq<(K, V)>, i: nat)
    requires i < |items| && forall k :: 0 <= k < i ==> items[k].0 != items[i].0
    ensures Lookup(items, items[i].0) == Some(items[i].1) && Erased(items, items[i].0) == Cut(items, i)
  {
    if i > 0 {
      Present(items[1..], i - 1);
    }
  }

  lemma {:induction false} Absent<K, V>(items: seq<(K, V)>, key: K)
    requires forall k :: 0 <= k < |items| ==> items[k].0 != key
    ensures Lookup(items, key) == None && Erased(items, key) == items
  {
    if items != [] {
      Absent(items[1..], key);
    }
  }

  /** The place of a key decides: what a lookup finds, what removal takes away, and that a use moves it to the end. */
  lemma ByPlace<K, V>(items: seq<(K, V)>, i: nat)
    requires i < |items| && forall k, l :: 0 <= k < l < |items| ==> items[k].0 != items[l].0
    ensures
      var (key, value) := (items[i].0, items[i].1);
      && Lookup(items, key) == Some(value) && Erased(items, key) == items[..i] + items[i + 1..]
      && Touched(items, key) == items[..i] + items[i + 1..] + [(key, value)]
  {
    Present(items, i);
  }

  lemma NotThere<K, V>(items: seq<(K, V)>, key: K)
    requires forall k :: 0 <= k < |items| ==> items[k].0 != key
    ensures Lookup(items, key) == None && Erased(items, key) == items && Touched(items, key) == items
  {
    Absent(items, key);
  }

  lemma ItemsMoved<K, V>(l: seq<Entry<K, V>>, i: nat)
    requires i < |l|
    ensures ItemsOf(Cut(l, i)) == Cut(ItemsOf(l), i)
    ensures ItemsOf(Cut(l, i) + [l[i]]) == Cut(ItemsOf(l), i) + [(l[i].key, l[i].value)]
    ensures |Cut(l, i)| == |l| - 1
  {
  }

  lemma CutFirst<T>(s: seq<T>)
    requires s != []
    ensures Cut(s, 0) == s[1..]
  {
  }

  /** The neighbours a member of the list must point at. */
  ghost predicate LinkedAt<K, V>(s: seq<Entry<K, V>>, i: nat)
    requires i < |s|
    reads s
  {
    && s[i].parent == (if i == 0 then null else s[i - 1])
    && s[i].child == (if i == |s| - 1 then null else s[i + 1])
  }

  class Cache<K(==, !new), V(!new)> {
    var entries: map<K, Entry<K, V>>
    var oldest: Entry?<K, V>
    var youngest: Entry?<K, V>
    const capacity: nat
    var listening: bool
    ghost var list: seq<Entry<K, V>>
    ghost var told: seq<(K, V)>

    /** Well linked both ways. */
    ghost predicate Linked() reads this`list, this`oldest, this`youngest, list {
      && Distinct(list)
      && (forall i :: 0 <= i < |list| ==> LinkedAt(list, i))
      && oldest == (if list == [] then null else list[0])
      && youngest == (if list == [] then null else list[|list| - 1])
    }

    /** The set and the list hold the same entries. */
    ghost predicate Indexed() reads this`entries, this`list {
      IndexedAs(list)
    }

    ghost predicate Valid() reads this, list {
      Linked() && Indexed() && (capacity != 0 ==> |list| <= capacity)
    }

    /** Keys and values from the oldest to the youngest. */
    ghost function Items(): seq<(K, V)> reads this`list {
      ItemsOf(list)
    }

    constructor (maxCapacity: nat)
      ensures Valid() && capacity == maxCapacity && Items() == [] && !listening && told == []
    {
      capacity, entries, oldest, youngest, list := maxCapacity, map[], null, null, [];
      listening, told := false, [];
    }

    /** setOnEntryRemovedListener; `told` is what the listener has been called with. */
    method Listen(on: bool)
      requires Valid()
      modifies this`listening
      ensures Valid() && listening == on
    {
      listening := on;
    }

    /** The call of the listener, if there is one. */
    method Tell(key: K, value: V)
      modifies this`told
      ensures told == old(told) + if listening then [(key, value)] else []
    {
      if listening {
        told := told + [(key, value)];
      }
    }

    /** detachFromCache. */
    method Detach(e: Entry<K, V>, ghost i: nat)
      requires Linked() && i < |list| && list[i] == e
      modifies this`oldest, this`youngest, this`list, list
      ensures list == Cut(old(list), i) && Linked() && e.parent == null && e.child == null
    {
      assert LinkedAt(list, i);
      assert (i > 0 ==> LinkedAt(list, i - 1)) && (i + 1 < |list| ==> LinkedAt(list, i + 1));
      if e.parent != null {
        e.parent.child := e.child;
      } else {
        oldest := e.child;
      }
      if e.child != null {
        e.child.parent := e.parent;
      } else {
        youngest := e.parent;
      }
      e.parent, e.child := null, null;
      ghost var l := list;
      list := Cut(list, i);
      assert forall k :: 0 <= k < |list| ==> list[k] == l[if k < i then k else k + 1];
      forall k | 0 <= k < |list| ensures LinkedAt(list, k) {
        assert old(LinkedAt(list, if k < i then k else k + 1));
      }
    }

    /** attachToCache. */
    method Attach(e: Entry<K, V>)
      requires Linked() && e !in list && e.parent == null && e.child == null
      modifies this`oldest, this`youngest, this`list, list, e
      ensures list == old(list) + [e] && Linked()
    {
      if youngest == null {
        youngest, oldest := e, e;
      } else {
        e.parent := youngest;
        youngest.child := e;
        youngest := e;
      }
      list := list + [e];
      forall k | 0 <= k < |list| ensures LinkedAt(list, k) {
        assert k < |old(list)| ==> old(LinkedAt(list, k));
      }
    }

    /** What the set says of a key, the sequence says too. */
    lemma Agrees(key: K) returns (i: nat)
      requires Valid()
      ensures Distinct(list)
      ensures key !in entries ==> Lookup(Items(), key) == None && Erased(Items(), key) == Items()
      ensures key in entries ==>
        && entries[key].key == key && i < |list| && list[i] == entries[key]
        && Lookup(Items(), key) == Some(list[i].value)
        && Erased(Items(), key) == Cut(Items(), i)
    {
      i := 0;
      if key in entries {
        i :| 0 <= i < |list| && list[i] == entries[key];
        Present(Items(), i);
      } else {
        Absent(Items(), key);
      }
    }

    ghost predicate IndexedAs(l: seq<Entry<K, V>>) reads this`entries {
      && (forall k :: k in entries ==> entries[k] in l && entries[k].key == k)
      && (forall e :: e in l ==> e.key in entries && entries[e.key] == e)
      && |entries| == |l|
    }

    lemma MovedIndexed(i: nat)
      requires Indexed() && i < |list| && Distinct(list)
      ensures list[i] !in Cut(list, i) && IndexedAs(Cut(list, i) + [list[i]])
      ensures forall x :: x in Cut(list, i) ==> x in list
    {
      CutMembers(list, i);
    }

    function Size(): (n: nat)
      requires Valid()
      reads this, list
      ensures n == |Items()|
    {
      |entries|
    }

    method Get(key: K) returns (r: Option<V>)
      requires Valid()
      modifies this`oldest, this`youngest, this`list, list
      ensures Valid() && r == Lookup(old(Items()), key) && Items() == Touched(old(Items()), key)
    {
      hide Linked, Lookup, Erased, IndexedAs, ItemsOf, Cut;
      ghost var i := Agrees(key);
      if key !in entries {
        return None;
      }
      var e := entries[key];
      assert e in list;
      MovedIndexed(i);
      Detach(e, i);
      assert forall k :: 0 <= k < |list| ==> list[k] in old(list) by {
        assert forall k :: 0 <= k < |list| ==> list[k] in list;
      }
      Attach(e);
      ItemsMoved(old(list), i);
      return Some(e.value);
    }

    /** The index without list[i]. */
    method Unindex(key: K, ghost i: nat)
      requires Indexed() && i < |list| && Distinct(list) && key in entries && entries[key] == list[i]
      modifies this`entries
      ensures entries == old(entries) - {key} && IndexedAs(Cut(list, i))
      ensures list[i] !in Cut(list, i) && forall x :: x in Cut(list, i) ==> x in list
    {
      CutMembers(list, i);
      assert entries.Keys - {key} == (entries - {key}).Keys && |entries.Keys| == |entries|;
      assert |(entries - {key}).Keys| == |entries - {key}|;
      entries := entries - {key};
    }

    method Remove(key: K) returns (ok: bool)
      requires Valid()
      modifies this`entries, this`oldest, this`youngest, this`list, this`told, list
      ensures Valid() && ok == Lookup(old(Items()), key).Some? && Items() == Erased(old(Items()), key)
      ensures told == old(told) + if listening && ok then [(key, Lookup(old(Items()), key).value)] else []
      ensures forall x :: x in list ==> x in old(list)
    {
      hide Linked, Lookup, Erased, IndexedAs, ItemsOf, Cut;
      ghost var i := Agrees(key);
      if key !in entries {
        return false;
      }
      var e := entries[key];
      ItemsMoved(list, i);
      Unindex(key, i);
      Tell(e.key, e.value);
      Detach(e, i);
      return true;
    }

    /** removeOldest never fails on a cache that has entries. */
    method RemoveOldest() returns (ok: bool)
      requires Valid()
      modifies this`entries, this`oldest, this`youngest, this`list, this`told, list
      ensures Valid() && ok == (old(Items()) != [])
      ensures told == old(told) + if listening && ok then [old(Items())[0]] else []
      ensures Items() == if ok then old(Items())[1..] else []
      ensures forall x :: x in list ==> x in old(list)
    {
      hide Lookup, Erased, IndexedAs, Cut, LinkedAt;
      if oldest == null {
        return false;
      }
      Present(Items(), 0);
      CutFirst(Items());
      ok := Remove(oldest.key);
    }

    method PeekOldest() returns (r: Option<V>)
      requires Valid()
      ensures r == if Items() == [] then None else Some(Items()[0].1)
    {
      r := if oldest != null then Some(oldest.value) else None;
    }

    /** The insertion of put, when the key is not there. */
    method Insert(key: K, value: V)
      requires Valid() && key !in entries && (capacity != 0 ==> |list| < capacity)
      modifies this`entries, this`oldest, this`youngest, this`list, list
      ensures Valid() && Items() == old(Items()) + [(key, value)]
    {
      hide Linked;
      var e := new Entry(key, value);
      assert |entries[key := e].Keys| == |entries.Keys| + 1 by {
        assert entries[key := e].Keys == entries.Keys + {key};
      }
      assert |entries[key := e].Keys| == |entries[key := e]| && |entries.Keys| == |entries|;
      entries := entries[key := e];
      Attach(e);
    }

    /** put: a full cache loses its oldest entry first, even when the key then turns out to be present. */
    method Put(key: K, value: V) returns (ok: bool)
      requires Valid()
      modifies this`entries, this`oldest, this`youngest, this`list, this`told, list
      ensures Valid()
      ensures told == old(told) +
        if listening && Roomy(old(Items()), capacity) != old(Items()) then [old(Items())[0]] else []
      ensures
        var room := Roomy(old(Items()), capacity);
        && ok == Lookup(room, key).None?
        && Items() == if ok then room + [(key, value)] else room
    {
      hide Linked, Lookup, Erased, IndexedAs, ItemsOf;
      if capacity != 0 && Size() >= capacity {
        var gone := RemoveOldest();
      }
      ghost var i := Agrees(key);
      if key in entries {
        return false;
      }
      assert forall k :: 0 <= k < |list| ==> list[k] in old(list) by {
        assert forall k :: 0 <= k < |list| ==> list[k] in list;
      }
      Insert(key, value);
      return true;
    }

    /** The walk of clear from the oldest to the youngest. */
    method TellAll()
      requires Valid() && listening
      modifies this`told
      ensures told == old(told) + Items()
    {
      hide IndexedAs;
      var p := oldest;
      ghost var i := 0;
      while p != null
        invariant i <= |list| && p == (if i == |list| then null else list[i])
        invariant told == old(told) + Items()[..i]
        decreases |list| - i
      {
        assert LinkedAt(list, i);
        Tell(p.key, p.value);
        p, i := p.child, i + 1;
      }
      assert Items()[..i] == Items();
    }

    /** clear: a listener hears of every entry. */
    method Clear()
      requires Valid()
      modifies this`entries, this`oldest, this`youngest, this`list, this`told
      ensures Valid() && Items() == []
      ensures told == old(told) + if listening then old(Items()) else []
    {
      if listening {
        TellAll();
      }
      youngest, oldest, entries, list := null, null, map[], [];
    }
  }
}
