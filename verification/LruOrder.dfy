/**
 Why the cache deserves its name: over any sequence of gets, puts and removals its entries are in the order of their
 last use, so what a full cache drops is the entry that has not been used for longest.
 */
module LruOrder {
  import opened Seqs
  import opened Wire
  import opened LruCache

  datatype Op<K, V> = Get(key: K) | Put(key: K, value: V) | Remove(key: K)

  type Items<K, V> = seq<(K, V)>

  /** The contracts of Cache, as one function. */
  function Apply<K(==), V>(items: Items<K, V>, capacity: nat, op: Op<K, V>): Items<K, V> {
    match op
    case Get(key) => Touched(items, key)
    case Put(key, value) =>
      var room := Roomy(items, capacity);
      if Lookup(room, key).None? then room + [(key, value)] else room
    case Remove(key) => Erased(items, key)
  }

  /** A get that hits and a put that is accepted use their key. */
  predicate Uses<K(==), V>(items: Items<K, V>, capacity: nat, op: Op<K, V>) {
    match op
    case Get(key) => Lookup(items, key).Some?
    case Put(key, _) => Lookup(Roomy(items, capacity), key).None?
    case Remove(_) => false
  }

  function After<K(==), V>(capacity: nat, ops: seq<Op<K, V>>): Items<K, V> {
    if ops == [] then [] else Apply(After(capacity, ops[..|ops| - 1]), capacity, ops[|ops| - 1])
  }

  /** The number of the last operation that used key, counted from 1; 0 if there was none. */
  function LastUse<K(==), V>(capacity: nat, ops: seq<Op<K, V>>, key: K): (t: nat)
    ensures t <= |ops|
  {
    if ops == [] then 0
    else
      var (front, op) := (ops[..|ops| - 1], ops[|ops| - 1]);
      if op.key == key && Uses(After(capacity, front), capacity, op) then |ops| else LastUse(capacity, front, key)
  }

  /** Keys are distinct and in the order of their times. */
  ghost predicate InOrder<K(!new), V>(items: Items<K, V>, time: K -> nat) {
    && (forall i :: 0 <= i < |items| ==> time(items[i].0) > 0)
    && forall i, j :: 0 <= i < j < |items| ==> time(items[i].0) < time(items[j].0)
  }

  ghost predicate KeysDistinct<K, V>(items: Items<K, V>) {
    forall i, j :: 0 <= i < j < |items| ==> items[i].0 != items[j].0
  }

  lemma OrderDistinct<K(!new), V>(items: Items<K, V>, time: K -> nat)
    requires InOrder(items, time)
    ensures KeysDistinct(items)
  {
    forall i, j | 0 <= i < j < |items| ensures items[i].0 != items[j].0 {
      assert time(items[i].0) < time(items[j].0);
    }
  }

  /** Taking an entry away keeps the order. */
  lemma CutInOrder<K(!new), V>(items: Items<K, V>, time: K -> nat, i: nat)
    requires InOrder(items, time) && i < |items|
    ensures InOrder(items[..i] + items[i + 1..], time)
    ensures forall x :: x in items[..i] + items[i + 1..] ==> x in items && x.0 != items[i].0
  {
    OrderDistinct(items, time);
    var r := items[..i] + items[i + 1..];
    assert forall k :: 0 <= k < |r| ==> r[k] == items[if k < i then k else k + 1];
  }

  /** An entry used now goes to the end. */
  lemma UseInOrder<K(!new), V>(items: Items<K, V>, before: K -> nat, now: nat, key: K, value: V, time: K -> nat)
    requires InOrder(items, before) && (forall x :: x in items ==> x.0 != key && time(x.0) == before(x.0) < now)
    requires time(key) == now > 0
    ensures InOrder(items + [(key, value)], time)
  {
    var r := items + [(key, value)];
    forall i | 0 <= i < |items| ensures time(r[i].0) == before(items[i].0) < now {
      assert items[i] in items;
    }
  }

  lemma SameInOrder<K(!new), V>(items: Items<K, V>, before: K -> nat, time: K -> nat)
    requires InOrder(items, before) && forall x :: x in items ==> time(x.0) == before(x.0)
    ensures InOrder(items, time)
  {
    forall i | 0 <= i < |items| ensures time(items[i].0) == before(items[i].0) {
      assert items[i] in items;
    }
  }

  lemma Where<K, V>(items: Items<K, V>, key: K) returns (i: nat)
    ensures if Lookup(items, key).Some? then i < |items| && items[i].0 == key
            else forall k :: 0 <= k < |items| ==> items[k].0 != key
  {
    if items != [] && items[0].0 != key {
      i := Where(items[1..], key);
      if Lookup(items, key).Some? {
        i := i + 1;
      } else {
        assert forall k :: 0 < k < |items| ==> items[k] == items[1..][k - 1];
      }
    } else {
      i := 0;
    }
  }

  /** One operation, at time `now`. */
  lemma StepInOrder<K(!new), V>(items: Items<K, V>, capacity: nat, op: Op<K, V>, before: K -> nat, now: nat,
                                 time: K -> nat)
    requires InOrder(items, before) && (forall x :: x in items ==> before(x.0) < now) && now > 0
    requires forall k :: time(k) == if op.key == k && Uses(items, capacity, op) then now else before(k)
    ensures InOrder(Apply(items, capacity, op), time)
  {
    OrderDistinct(items, before);
    hide Lookup, Erased;
    match op
    case Get(key) =>
      var i := Where(items, key);
      if Lookup(items, key).Some? {
        ByPlace(items, i);
        CutInOrder(items, before, i);
        UseInOrder(items[..i] + items[i + 1..], before, now, key, items[i].1, time);
      } else {
        NotThere(items, key);
        SameInOrder(items, before, time);
      }
    case Remove(key) =>
      var i := Where(items, key);
      if Lookup(items, key).Some? {
        ByPlace(items, i);
        CutInOrder(items, before, i);
        SameInOrder(items[..i] + items[i + 1..], before, time);
      } else {
        NotThere(items, key);
        SameInOrder(items, before, time);
      }
    case Put(key, value) =>
      var room := Roomy(items, capacity);
      RoomInOrder(items, capacity, before);
      var i := Where(room, key);
      if Lookup(room, key).None? {
        assert forall x :: x in room ==> x.0 != key;
        UseInOrder(room, before, now, key, value, time);
      } else {
        SameInOrder(room, before, time);
      }
  }

  lemma RoomInOrder<K(!new), V>(items: Items<K, V>, capacity: nat, before: K -> nat)
    requires InOrder(items, before)
    ensures InOrder(Roomy(items, capacity), before) && forall x :: x in Roomy(items, capacity) ==> x in items
  {
    if Roomy(items, capacity) != items {
      CutInOrder(items, before, 0);
      assert items[..0] + items[1..] == items[1..];
    }
  }

  lemma {:induction false} AlwaysInOrder<K(!new), V>(capacity: nat, ops: seq<Op<K, V>>)
    ensures InOrder(After(capacity, ops), k => LastUse(capacity, ops, k))
  {
    if ops != [] {
      var (front, op) := (ops[..|ops| - 1], ops[|ops| - 1]);
      AlwaysInOrder(capacity, front);
      var before, time := k => LastUse(capacity, front, k), k => LastUse(capacity, ops, k);
      StepInOrder(After(capacity, front), capacity, op, before, |ops|, time);
    }
  }

  /**
   After any sequence of operations the entries are in the order of their last use, and none is there that was not
   used. The first, which a full cache drops, is the least recently used one.
   */
  lemma LeastRecentlyUsedFirst<K(!new), V>(capacity: nat, ops: seq<Op<K, V>>, i: nat, j: nat)
    requires i < j < |After(capacity, ops)|
    ensures
      var items := After(capacity, ops);
      0 < LastUse(capacity, ops, items[i].0) < LastUse(capacity, ops, items[j].0)
  {
    AlwaysInOrder(capacity, ops);
    var time := k => LastUse(capacity, ops, k);
    assert time(After(capacity, ops)[i].0) < time(After(capacity, ops)[j].0);
  }
}
