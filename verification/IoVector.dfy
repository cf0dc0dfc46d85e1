/**
 IOVector of src/types.h: a chain of shared, immutable blocks with an offset at either end, which has to
 behave like the flat byte string it shows. Blocks are heap arrays that several chains may hold; no method
 may modify one.
 */
module IoVector {
  import opened Seqs
  import opened Wire

  // ----- block lists as values

  lemma {:induction false} FlatSplit(bs: seq<Bytes>, k: nat)
    requires k <= |bs|
    ensures Flat(bs) == Flat(bs[..k]) + Flat(bs[k..])
  {
    if k == 0 {
      assert bs[0..] == bs;
    } else {
      FlatSplit(bs[1..], k - 1);
      assert bs[1..][..k - 1] == bs[..k][1..] && bs[1..][k - 1..] == bs[k..];
    }
  }

  lemma FlatMore(bs: seq<Bytes>, b: Bytes)
    ensures Flat(bs + [b]) == Flat(bs) + b
  {
    FlatSplit(bs + [b], |bs|);
    assert (bs + [b])[..|bs|] == bs && (bs + [b])[|bs|..] == [b] && [b][1..] == [];
  }

  lemma FlatNone(bs: seq<Bytes>)
    requires bs == []
    ensures Flat(bs) == []
  {
  }

  lemma FlatOne(bs: seq<Bytes>)
    requires |bs| == 1
    ensures Flat(bs) == bs[0]
  {
    assert bs[1..] == [];
  }

  /** The bytes shown, without the first `b` and the last `e`. */
  function Shown(bs: seq<Bytes>, b: nat, e: nat): Bytes
    requires b + e <= |Flat(bs)|
  {
    Flat(bs)[b..|Flat(bs)| - e]
  }

  /** Offsets that stay inside the first and the last block. */
  predicate Sound(bs: seq<Bytes>, b: nat, e: nat) {
    && (forall k :: 0 <= k < |bs| ==> bs[k] != [])
    && b + e <= |Flat(bs)|
    && (if bs == [] then b == 0 && e == 0 else b < |bs[0]| && e <= |bs[|bs| - 1]|)
  }

  lemma SliceFront(p: Bytes, q: Bytes, b: nat, e: nat, len: nat)
    requires b + len <= |p| && b + len + e <= |p| + |q|
    ensures p[b..b + len] == (p + q)[b..|p + q| - e][..len]
  {
  }

  lemma SliceRest(p: Bytes, q: Bytes, b: nat, e: nat, len: nat)
    requires b + len >= |p| && b + len + e <= |p| + |q|
    ensures q[b + len - |p|..|q| - e] == (p + q)[b..|p + q| - e][len..]
  {
  }

  lemma EndsOfSlice(bs: seq<Bytes>, k: nat)
    requires k < |bs|
    ensures Flat(bs) == Flat(bs[..k]) + Flat(bs[k..]) == Flat(bs[..k + 1]) + Flat(bs[k + 1..])
    ensures Flat(bs[..k + 1]) == Flat(bs[..k]) + bs[k]
  {
    hide Flat;
    FlatSplit(bs, k);
    FlatSplit(bs, k + 1);
    assert bs[..k + 1] == bs[..k] + [bs[k]];
    FlatMore(bs[..k], bs[k]);
  }

  /** A front that ends inside block k shares it with the rest. */
  lemma CutInside(bs: seq<Bytes>, b: nat, e: nat, k: nat, len: nat)
    requires Sound(bs, b, e) && 0 < len <= |Flat(bs)| - b - e && k < |bs|
    requires |Flat(bs[..k])| < b + len < |Flat(bs[..k + 1])|
    ensures
      var cut := |Flat(bs[..k + 1])| - b - len;
      && cut < |bs[k]| && Sound(bs[..k + 1], b, cut) && Sound(bs[k..], |bs[k]| - cut, e)
      && Shown(bs[..k + 1], b, cut) == Shown(bs, b, e)[..len]
      && Shown(bs[k..], |bs[k]| - cut, e) == Shown(bs, b, e)[len..]
  {
    hide Flat;
    EndsOfSlice(bs, k);
    SliceFront(Flat(bs[..k + 1]), Flat(bs[k + 1..]), b, e, len);
    SliceRest(Flat(bs[..k]), Flat(bs[k..]), b, e, len);
  }

  /** A front that ends with block k takes it whole. */
  lemma CutBetween(bs: seq<Bytes>, b: nat, e: nat, k: nat, len: nat)
    requires Sound(bs, b, e) && 0 < len <= |Flat(bs)| - b - e && k < |bs|
    requires |Flat(bs[..k + 1])| == b + len
    ensures Sound(bs[..k + 1], b, 0) && Sound(bs[k + 1..], 0, e)
    ensures Shown(bs[..k + 1], b, 0) == Shown(bs, b, e)[..len]
    ensures Shown(bs[k + 1..], 0, e) == Shown(bs, b, e)[len..]
  {
    EndsOfSlice(bs, k);
    SliceFront(Flat(bs[..k + 1]), Flat(bs[k + 1..]), b, e, len);
    SliceRest(Flat(bs[..k + 1]), Flat(bs[k + 1..]), b, e, len);
    if k + 1 == |bs| {
      assert bs[k + 1..] == [];
    }
  }

  // ----- the chain

  type Block = array<Byte>

  ghost function Contained(chain: seq<Block>): (bs: seq<Bytes>)
    reads chain
    ensures |bs| == |chain|
  {
    seq(|chain|, i requires 0 <= i < |chain| reads chain => chain[i][..])
  }

  class IOVector {
    var chain: seq<Block>
    var chainLength: nat
    var beginOffset: nat
    var endOffset: nat

    ghost predicate Valid() reads this, chain {
      Sound(Contained(chain), beginOffset, endOffset) && chainLength == |Flat(Contained(chain))|
    }

    /** The flat byte string. */
    ghost function View(): Bytes
      requires Valid()
      reads this, chain
    {
      Shown(Contained(chain), beginOffset, endOffset)
    }

    constructor ()
      ensures Valid() && chain == [] && View() == [] && endOffset == 0
    {
      chain, chainLength, beginOffset, endOffset := [], 0, 0, 0;
    }

    function Size(): (n: nat)
      requires Valid()
      reads this, chain
      ensures n == |View()|
    {
      chainLength - beginOffset - endOffset
    }

    method Clear()
      modifies this
      ensures Valid() && View() == [] && chain == [] && endOffset == 0
    {
      chainLength, beginOffset, endOffset, chain := 0, 0, 0, [];
    }

    /** append and append_shared. */
    method Append(block: Block)
      requires Valid() && block.Length != 0 && endOffset == 0
      modifies this`chain, this`chainLength
      ensures Valid() && chain == old(chain) + [block] && View() == old(View()) + block[..]
    {
      chainLength := chainLength + block.Length;
      chain := chain + [block];
      AppendShows(old(Contained(chain)), block[..], beginOffset);
      assert Contained(chain) == old(Contained(chain)) + [block[..]];
    }

    /** pop_front_block. */
    method PopFrontBlock()
      requires chain != [] && chainLength == |Flat(Contained(chain))|
      modifies this`chain, this`chainLength, this`beginOffset
      ensures chain == old(chain)[1..] && beginOffset == 0 && chainLength == |Flat(Contained(chain))|
      ensures Contained(chain) == old(Contained(chain))[1..]
    {
      assert Contained(chain[1..]) == Contained(chain)[1..];
      chainLength := chainLength - chain[0].Length;
      beginOffset := 0;
      chain := chain[1..];
    }

    /** Inside take_front: head has taken blocks 0 to k of `oc`, the last of which is still in this chain. */
    ghost predicate Sharing(head: IOVector, oc: seq<Block>, k: nat, b: nat) reads this, head, oc {
      && head != this && k < |oc| && chain == oc[k..] && head.chain == oc[..k + 1]
      && head.beginOffset == b && head.endOffset == 0
      && chainLength == |Flat(Contained(oc)[k..])| && head.chainLength == |Flat(Contained(oc)[..k + 1])|
      && Sound(Contained(oc)[..k + 1], b, 0)
    }

    method StartFront() returns (head: IOVector)
      requires Valid() && chain != []
      ensures fresh(head) && Sharing(head, chain, 0, beginOffset) && |Flat(Contained(chain)[..0])| == 0
    {
      hide Flat;
      head := new IOVector();
      FirstBlock(Contained(chain));
      head.Append(chain[0]);
      head.beginOffset := beginOffset;
    }

    /** One turn of the loop of take_front. */
    method MoveBlock(head: IOVector, ghost oc: seq<Block>, ghost k: nat, ghost b: nat)
      requires Sharing(head, oc, k, b) && k + 1 < |oc| && Contained(oc)[k + 1] != []
      modifies this`chain, this`chainLength, this`beginOffset, head`chain, head`chainLength
      ensures Sharing(head, oc, k + 1, b) && beginOffset == 0
    {
      hide Flat;
      Slices(oc, k);
      Slices(oc, k + 1);
      PopFrontBlock();
      head.Append(chain[0]);
      assert oc[..k + 2] == oc[..k + 1] + [oc[k + 1]];
    }

    /** The end of take_front. */
    method Cut(head: IOVector, len: nat, ghost oc: seq<Block>, ghost k: nat, ghost b: nat)
      requires Sharing(head, oc, k, b) && Sound(Contained(oc), b, endOffset) && 0 < len
      requires b + len + endOffset <= |Flat(Contained(oc))|
      requires |Flat(Contained(oc)[..k])| < b + len <= |Flat(Contained(oc)[..k + 1])|
      modifies this`chain, this`chainLength, this`beginOffset, head`endOffset
      ensures head.Valid() && Valid()
      ensures head.View() == Shown(Contained(oc), b, endOffset)[..len]
      ensures View() == Shown(Contained(oc), b, endOffset)[len..]
      ensures head.chain == oc[..k + 1] && (chain == oc[k + 1..] || chain == oc[k..])
    {
      hide Flat, Contained, Shown, Sound;
      Slices(oc, k);
      var size := head.chainLength - head.beginOffset - head.endOffset;
      if size == len {
        CutBetween(Contained(oc), b, endOffset, k, len);
        head.endOffset := 0;
        beginOffset := 0;
        PopFrontBlock();
      } else {
        CutInside(Contained(oc), b, endOffset, k, len);
        var bytesTaken := size - len;
        head.endOffset := bytesTaken;
        beginOffset := chain[0].Length - bytesTaken;
      }
    }

    /** take_front: the first len bytes, in a chain that shares the blocks, and this chain keeps the rest. */
    method TakeFront(len: nat) returns (head: IOVector)
      requires Valid() && len <= Size()
      modifies this`chain, this`chainLength, this`beginOffset
      ensures fresh(head) && head.Valid() && Valid()
      ensures head.View() == old(View())[..len] && View() == old(View())[len..]
      ensures (forall x :: x in head.chain ==> x in old(chain)) && (forall x :: x in chain ==> x in old(chain))
    {
      hide Flat, Contained;
      if len == 0 {
        head := new IOVector();
        return;
      }
      if chain == [] {
        FlatNone(Contained(chain));
      }
      head := StartFront();
      ghost var oc := chain;
      ghost var k := 0;
      while head.chainLength - head.beginOffset - head.endOffset < len
        invariant Sharing(head, oc, k, old(beginOffset))
        invariant |Flat(Contained(oc)[..k])| < old(beginOffset) + len
        decreases |oc| - k
      {
        LastBlock(Contained(oc), k);
        MoveBlock(head, oc, k, old(beginOffset));
        k := k + 1;
      }
      Cut(head, len, oc, k, old(beginOffset));
    }

    /** trim_front: the hidden start of the first block is dropped by copying the rest of that block. */
    method TrimFront()
      requires Valid()
      modifies this`chain, this`chainLength, this`beginOffset
      ensures Valid() && View() == old(View()) && beginOffset == 0 && |chain| == |old(chain)|
    {
      hide Flat, Shown, Sound;
      if beginOffset == 0 {
        return;
      }
      OffsetsFit(Contained(chain), beginOffset, endOffset);
      var first := chain[0];
      var (b, size) := (beginOffset, first.Length - beginOffset);
      var copy := new Byte[size](i requires 0 <= i < size reads first => first[b + i]);
      assert copy[..] == first[beginOffset..];
      TrimShows(Contained(chain), beginOffset, endOffset);
      chain := [copy] + chain[1..];
      assert Contained(chain) == [copy[..]] + old(Contained(chain))[1..];
      chainLength := chainLength - beginOffset;
      beginOffset := 0;
    }

    /** The stretch of block i that iterate_blocks passes on; no offset exceeds its block. */
    method Piece(i: nat) returns (begin: nat, length: nat)
      requires Valid() && i < |chain|
      ensures begin + length <= chain[i].Length
      ensures chain[i][begin..begin + length] == Pieces(Contained(chain), beginOffset, endOffset)[i]
    {
      hide Flat;
      begin, length := 0, chain[i].Length;
      OffsetsFit(Contained(chain), beginOffset, endOffset);
      if i == 0 {
        begin, length := begin + beginOffset, length - beginOffset;
      }
      if i == |chain| - 1 {
        length := length - endOffset;
      }
    }

    /** iovecs: each given by the bytes it points at. */
    method Iovecs() returns (result: seq<Bytes>)
      requires Valid()
      ensures Flat(result) == View() && |result| == |chain|
    {
      hide Flat, Pieces;
      result := [];
      for i := 0 to |chain|
        invariant result == Pieces(Contained(chain), beginOffset, endOffset)[..i]
      {
        var begin, length := Piece(i);
        result := result + [chain[i][begin..begin + length]];
      }
      PiecesShow(Contained(chain), beginOffset, endOffset);
    }

    /** coalesce: every block copied to its place in one. */
    method Coalesce() returns (result: array<Byte>)
      requires Valid()
      ensures fresh(result) && result[..] == View()
    {
      hide Flat, Pieces;
      result := new Byte[Size()];
      ghost var ps := Pieces(Contained(chain), beginOffset, endOffset);
      PiecesShow(Contained(chain), beginOffset, endOffset);
      FlatNone(ps[..0]);
      var offset := 0;
      for i := 0 to |chain|
        invariant offset == |Flat(ps[..i])| <= result.Length && result[..offset] == Flat(ps[..i])
      {
        var begin, length := Piece(i);
        EndsOfSlice(ps, i);
        CopyInto(result, offset, chain[i], begin, length);
        offset := offset + length;
      }
      assert ps[..|ps|] == ps;
    }

    /** What coalesced hands to its function: a single block in place, or the copy. */
    method Coalesced() returns (data: Bytes)
      requires Valid()
      ensures data == View()
    {
      if |chain| == 1 {
        FlatOne(Contained(chain));
        data := chain[0][beginOffset..beginOffset + Size()];
      } else {
        var copy := Coalesce();
        data := copy[..];
      }
    }
  }

  /** memcpy. */
  method CopyInto(dst: array<Byte>, at: nat, src: array<Byte>, from: nat, len: nat)
    requires dst != src && at + len <= dst.Length && from + len <= src.Length
    modifies dst
    ensures dst[..at + len] == old(dst[..at]) + src[from..from + len]
  {
    forall i | 0 <= i < len {
      dst[at + i] := src[from + i];
    }
  }

  function Pieces(bs: seq<Bytes>, b: nat, e: nat): (ps: seq<Bytes>)
    requires Sound(bs, b, e)
    ensures |ps| == |bs|
  {
    OffsetsFit(bs, b, e);
    if bs == [] then []
    else if |bs| == 1 then [bs[0][b..|bs[0]| - e]]
    else [bs[0][b..]] + bs[1..|bs| - 1] + [bs[|bs| - 1][..|bs[|bs| - 1]| - e]]
  }

  lemma OffsetsFit(bs: seq<Bytes>, b: nat, e: nat)
    requires Sound(bs, b, e)
    ensures |bs| == 1 ==> b + e <= |bs[0]|
    ensures b != 0 ==> bs != [] && b < |bs[0]|
  {
    if |bs| == 1 {
      FlatOne(bs);
    }
  }

  lemma PiecesShow(bs: seq<Bytes>, b: nat, e: nat)
    requires Sound(bs, b, e)
    ensures Flat(Pieces(bs, b, e)) == Shown(bs, b, e) && Pieces(bs, b, e)[..|bs|] == Pieces(bs, b, e)
  {
    var ps, n := Pieces(bs, b, e), |bs|;
    OffsetsFit(bs, b, e);
    if n == 1 {
      FlatOne(bs);
      FlatOne(ps);
    } else if n > 1 {
      var mid, last := bs[1..n - 1], bs[n - 1];
      assert ps[1..] == mid + [last[..|last| - e]];
      assert bs[1..] == mid + [last];
      FlatMore(mid, last[..|last| - e]);
      FlatMore(mid, last);
    }
  }

  lemma TrimShows(bs: seq<Bytes>, b: nat, e: nat)
    requires Sound(bs, b, e) && bs != []
    ensures b <= |bs[0]|
    ensures
      var cs := [bs[0][b..]] + bs[1..];
      Sound(cs, 0, e) && Shown(cs, 0, e) == Shown(bs, b, e) && |Flat(cs)| == |Flat(bs)| - b
  {
    var cs := [bs[0][b..]] + bs[1..];
    assert cs[1..] == bs[1..];
    OffsetsFit(bs, b, e);
  }

  lemma Slices(oc: seq<Block>, k: nat)
    requires k < |oc|
    ensures Contained(oc[k..]) == Contained(oc)[k..] && Contained(oc[..k + 1]) == Contained(oc)[..k + 1]
    ensures Contained(oc)[k..][1..] == Contained(oc)[k + 1..] && Contained(oc)[k] == oc[k][..]
    ensures oc[k..][1..] == oc[k + 1..]
  {
  }

  lemma LastBlock(bs: seq<Bytes>, k: nat)
    requires k < |bs|
    ensures Flat(bs[..k + 1]) == Flat(bs[..k]) + bs[k] && (k + 1 == |bs| ==> Flat(bs[..k + 1]) == Flat(bs))
  {
    hide Flat;
    EndsOfSlice(bs, k);
    assert k + 1 == |bs| ==> bs[..k + 1] == bs;
  }

  lemma FirstBlock(bs: seq<Bytes>)
    requires bs != []
    ensures Flat(bs[..0]) == [] && Flat(bs[..1]) == bs[0] && bs[0..] == bs
  {
    assert bs[..1][1..] == [];
  }

  lemma AppendShows(bs: seq<Bytes>, b: Bytes, begin: nat)
    requires Sound(bs, begin, 0) && b != []
    ensures Sound(bs + [b], begin, 0) && Shown(bs + [b], begin, 0) == Shown(bs, begin, 0) + b
    ensures Flat(bs + [b]) == Flat(bs) + b
  {
    hide Flat;
    FlatMore(bs, b);
  }
}
