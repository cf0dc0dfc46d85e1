/** Sequences: removal by value and by place, distinct members, and concatenation of a sequence of sequences. */
module Seqs {

  function Bit(b: bool): nat { if b then 1 else 0 }

  // ----- removal by value

  function Without<T(==)>(q: seq<T>, s: T): (r: seq<T>)
    ensures forall x :: x in r ==> x in q && x != s
    ensures forall x :: x in q && x != s ==> x in r
    ensures s !in q ==> r == q
    ensures |r| <= |q| && (s in q ==> |r| < |q|)
  {
    if q == [] then [] else (if q[0] == s then [] else [q[0]]) + Without(q[1..], s)
  }

  ghost predicate Distinct<T>(q: seq<T>) {
    forall i, j :: 0 <= i < j < |q| ==> q[i] != q[j]
  }

  lemma {:induction false} WithoutDistinct<T>(q: seq<T>, s: T)
    requires Distinct(q)
    ensures Distinct(Without(q, s))
  {
    if q != [] {
      WithoutDistinct(q[1..], s);
      assert q[0] !in q[1..];
    }
  }

  lemma PushDistinct<T>(q: seq<T>, s: T)
    requires Distinct(q) && s !in q
    ensures Distinct(q + [s])
  {
  }

  // ----- removal by place

  function Cut<T>(q: seq<T>, i: nat): seq<T>
    requires i < |q|
  {
    q[..i] + q[i + 1..]
  }

  lemma CutMembers<T>(q: seq<T>, i: nat)
    requires i < |q| && Distinct(q)
    ensures Distinct(Cut(q, i))
    ensures forall x :: x in Cut(q, i) ==> x in q && x != q[i]
    ensures forall x :: x in q && x != q[i] ==> x in Cut(q, i)
  {
    forall x | x in q && x != q[i] ensures x in Cut(q, i) {
      var k :| 0 <= k < |q| && q[k] == x;
      assert Cut(q, i)[if k < i then k else k - 1] == x;
    }
  }

  lemma {:induction false} CutIsWithout<T>(q: seq<T>, i: nat)
    requires i < |q| && Distinct(q)
    ensures Cut(q, i) == Without(q, q[i])
  {
    if i == 0 {
      assert q[0] !in q[1..];
      assert Cut(q, 0) == q[1..];
    } else {
      CutIsWithout(q[1..], i - 1);
      assert Cut(q, i) == [q[0]] + Cut(q[1..], i - 1);
    }
  }

  // ----- concatenation

  function Flat<T>(ss: seq<seq<T>>): seq<T> {
    if ss == [] then [] else ss[0] + Flat(ss[1..])
  }

  lemma Assoc<T>(a: seq<T>, b: seq<T>, c: seq<T>)
    ensures a + b + c == a + (b + c)
  {
  }
}
