/**
 The file-handle table of src/sysdeps_win32.cpp. Its hint where to start looking never passes a free slot,
 so the hinted search finds the lowest one.
 */
module HandleTable {
  import opened Wire

  const BASE := 2048
  const MAX := 2048

  class Table {
    const used: array<bool>
    var next: nat

    ghost predicate Valid() reads this, used {
      used.Length == MAX && next <= MAX && forall k :: 0 <= k < next ==> used[k]
    }

    constructor ()
      ensures Valid() && fresh(used) && forall k :: 0 <= k < MAX ==> !used[k]
    {
      used := new bool[MAX](_ => false);
      next := 0;
    }

    /** _fh_alloc: the lowest free slot, or none if the table is full. */
    method Alloc() returns (r: Option<nat>)
      requires Valid()
      modifies this, used
      ensures Valid()
      ensures r.None? ==> (forall k :: 0 <= k < MAX ==> old(used[k])) && used[..] == old(used[..])
      ensures r.Some? ==>
        && r.value < MAX && !old(used[r.value]) && (forall k :: 0 <= k < r.value ==> old(used[k]))
        && used[..] == old(used[..])[r.value := true]
    {
      for i := next to MAX
        invariant forall k :: 0 <= k < i ==> used[k]
        invariant used[..] == old(used[..]) && next == old(next)
      {
        if !used[i] {
          next := i + 1;
          used[i] := true;
          return Some(i);
        }
      }
      return None;
    }

    /** _fh_close, of a slot in use or one closed before. */
    method Close(f: nat)
      requires Valid() && f < MAX
      modifies this, used
      ensures Valid() && used[..] == old(used[..])[f := false]
    {
      if next > f {
        next := f;
      }
      if used[f] {
        used[f] := false;
      }
    }

    /** _fh_from_int. */
    function FromInt(fd: int): (f: Option<nat>)
      requires Valid()
      reads this, used
      ensures f.Some? ==> f.value < MAX && used[f.value] && ToInt(f.value) == fd
      ensures f.None? ==> forall k :: 0 <= k < MAX && used[k] ==> ToInt(k) != fd
    {
      if fd - BASE < 0 || fd - BASE >= MAX || !used[fd - BASE] then None else Some(fd - BASE)
    }

    /** _fh_to_int. */
    function ToInt(f: nat): (fd: int)
      requires Valid()
      reads this, used
    {
      if f < MAX && used[f] then f + BASE else -1
    }

    lemma Inverse(f: nat)
      requires Valid()
      ensures f < MAX && used[f] <==> FromInt(ToInt(f)) == Some(f)
      ensures ToInt(f) == if f < MAX && used[f] then 2048 + f else -1
    {
    }
  }
}
