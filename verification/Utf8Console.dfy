/**
 The console writer of src/sysdeps_win32.cpp, which may be handed UTF-8 in any pieces and must pass on only
 whole sequences, holding back the start of one that is still incomplete.
 */
module Utf8Console {

  type Octet = bv8

  /** utf8_codepoint_len: two bits of a constant, picked by the high half of the lead byte. */
  function CodepointLen(ch: Octet): (n: nat) {
    (((0xe5000000 as bv32 >> (((ch as bv32) >> 3) & 0x1e)) & 3) + 1) as nat
  }

  /** The shift trick gives the length the lead byte announces. */
  lemma CodepointLenIs(ch: Octet)
    ensures CodepointLen(ch) == if ch < 0xC0 then 1 else if ch < 0xE0 then 2 else if ch < 0xF0 then 3 else 4
  {
    var b := ((0xe5000000 as bv32 >> (((ch as bv32) >> 3) & 0x1e)) & 3) + 1;
    assert b == if ch < 0xC0 then 1 else if ch < 0xE0 then 2 else if ch < 0xF0 then 3 else 4;
  }

  predicate Ascii(ch: Octet) { ch & 0x80 == 0 }

  predicate Lead(ch: Octet) { ch & 0xC0 == 0xC0 }

  predicate Trailing(ch: Octet) { !Ascii(ch) && !Lead(ch) }

  // ----- well-formed UTF-8, section 4 of RFC 3629

  predicate Tails(s: seq<Octet>) {
    forall k :: 0 <= k < |s| ==> 0x80 <= s[k] <= 0xBF
  }

  /** UTF8-char. */
  predicate Char(s: seq<Octet>) {
    match |s|
    case 1 => s[0] <= 0x7F
    case 2 => 0xC2 <= s[0] <= 0xDF && Tails(s[1..])
    case 3 =>
      && Tails(s[2..])
      && ( || (s[0] == 0xE0 && 0xA0 <= s[1] <= 0xBF)
           || (0xE1 <= s[0] <= 0xEC && Tails(s[1..]))
           || (s[0] == 0xED && 0x80 <= s[1] <= 0x9F)
           || (0xEE <= s[0] <= 0xEF && Tails(s[1..])))
    case 4 =>
      && Tails(s[2..])
      && ( || (s[0] == 0xF0 && 0x90 <= s[1] <= 0xBF)
           || (0xF1 <= s[0] <= 0xF3 && Tails(s[1..]))
           || (s[0] == 0xF4 && 0x80 <= s[1] <= 0x8F))
    case _ => false
  }

  /** UTF8-octets: some sequence of UTF8-chars. */
  ghost predicate Octets(s: seq<Octet>)
    decreases |s|
  {
    s == [] || exists n :: 0 < n <= |s| && Char(s[..n]) && Octets(s[n..])
  }

  /** A char is a lead byte or ASCII, then trailing bytes, and as long as its first byte says. */
  lemma CharShape(s: seq<Octet>)
    requires Char(s)
    ensures s != [] && |s| == CodepointLen(s[0]) && !Trailing(s[0]) && forall k :: 0 < k < |s| ==> Trailing(s[k])
    ensures Ascii(s[0]) ==> |s| == 1
  {
    CodepointLenIs(s[0]);
    ByteClasses(s[0]);
    forall k | 0 < k < |s| ensures Trailing(s[k]) {
      assert 0x80 <= s[k] <= 0xBF by {
        if k >= 2 {
          assert s[2..][k - 2] == s[k];
        } else {
          assert s[1..][0] == s[1];
        }
      }
      ByteClasses(s[k]);
    }
  }

  lemma ByteClasses(ch: Octet)
    ensures Ascii(ch) <==> ch < 0x80
    ensures Lead(ch) <==> ch >= 0xC0
  {
  }

  // ----- the walk back from the end

  /** How much of s is passed on, when nothing was decided at index k or later. */
  function Walk(s: seq<Octet>, k: nat): (n: nat)
    requires k <= |s|
    ensures n <= |s|
  {
    if k == 0 || Ascii(s[k - 1]) then |s|
    else if Lead(s[k - 1]) then if |s| - (k - 1) < CodepointLen(s[k - 1]) then k - 1 else |s|
    else Walk(s, k - 1)
  }

  /** ParseCompleteUTF8. Whatever the input, at most three bytes are held back. */
  method ParseComplete(s: seq<Octet>) returns (n: nat, rest: seq<Octet>)
    ensures n <= |s| && rest == s[n..] && |rest| <= 3
    ensures n == Walk(s, |s|)
  {
    var k: nat := |s|;
    while k != 0
      invariant 0 <= k <= |s| && Walk(s, |s|) == Walk(s, k)
    {
      var ch := s[k - 1];
      if Ascii(ch) {
        break;
      } else if Lead(ch) {
        CodepointLenIs(ch);
        if |s| - (k - 1) < CodepointLen(ch) {
          return k - 1, s[k - 1..];
        }
        break;
      }
      k := k - 1;
    }
    return |s|, [];
  }

  /** The length that lead byte ch announces. */
  function Announced(ch: Octet): nat {
    if ch < 0xC0 then 1 else if ch < 0xE0 then 2 else if ch < 0xF0 then 3 else 4
  }

  /** From i to the end there is a lead byte and fewer trailing bytes than it announces. */
  predicate Unfinished(s: seq<Octet>, i: nat) {
    && i < |s| && 0xC0 <= s[i] && |s| - i < Announced(s[i])
    && forall k :: i < k < |s| ==> 0x80 <= s[k] < 0xC0
  }

  lemma {:induction false} WalkFinds(s: seq<Octet>, k: nat)
    requires k <= |s| && forall j :: k <= j < |s| ==> Trailing(s[j])
    ensures
      var n := Walk(s, k);
      if n == |s| then forall i :: 0 <= i < k ==> !Unfinished(s, i) else n < k && Unfinished(s, n)
  {
    hide CodepointLen;
    forall j | k <= j < |s| ensures 0x80 <= s[j] < 0xC0 {
      ByteClasses(s[j]);
    }
    if k > 0 {
      ByteClasses(s[k - 1]);
      CodepointLenIs(s[k - 1]);
      if Trailing(s[k - 1]) {
        WalkFinds(s, k - 1);
      }
    }
  }

  /** For every input, well-formed or not: what is held back is a sequence that is not finished at the end. */
  lemma HeldIs(s: seq<Octet>)
    ensures
      var n := Walk(s, |s|);
      if n == |s| then forall i :: 0 <= i < |s| ==> !Unfinished(s, i) else Unfinished(s, n)
  {
    WalkFinds(s, |s|);
  }

  // ----- what it means for well-formed input

  /** s is the beginning of well-formed UTF-8. */
  ghost predicate Begins(s: seq<Octet>) {
    exists t :: Octets(s + t)
  }

  /** The first char of well-formed UTF-8. */
  lemma FirstOctets(u: seq<Octet>)
    requires Octets(u) && u != []
    ensures
      var n := CodepointLen(u[0]);
      && 0 < n <= |u| && Char(u[..n]) && Octets(u[n..])
      && !Trailing(u[0]) && (Ascii(u[0]) ==> n == 1) && forall k :: 0 < k < n ==> Trailing(u[k])
  {
    var n :| 0 < n <= |u| && Char(u[..n]) && Octets(u[n..]);
    hide Char, Octets, CodepointLen, Trailing, Ascii;
    CharShape(u[..n]);
    assert forall k :: 0 <= k < n ==> u[..n][k] == u[k];
  }

  /** Either s starts with a char and goes on well, or it is the beginning of a char. */
  lemma FirstChar(s: seq<Octet>)
    requires Begins(s) && s != []
    ensures !Trailing(s[0]) && CodepointLen(s[0]) > 0 && (Ascii(s[0]) ==> CodepointLen(s[0]) == 1)
    ensures
      var n := CodepointLen(s[0]);
      if n <= |s| then Char(s[..n]) && Begins(s[n..]) else forall k :: 0 < k < |s| ==> Trailing(s[k])
  {
    hide Char, Octets, CodepointLen, Trailing, Ascii;
    var t :| Octets(s + t);
    var u, n := s + t, CodepointLen(s[0]);
    FirstOctets(u);
    assert forall k :: 0 <= k < |s| ==> u[k] == s[k];
    if n <= |s| {
      assert u[..n] == s[..n] && u[n..] == s[n..] + t;
    }
  }

  /** What is behind a char boundary decides alone. */
  lemma {:induction false} WalkBehind(s: seq<Octet>, a: nat, k: nat)
    requires a < k <= |s| && !Trailing(s[a])
    ensures Walk(s, k) == a + Walk(s[a..], k - a)
  {
    assert s[a..][k - a - 1] == s[k - 1];
    if Trailing(s[k - 1]) {
      WalkBehind(s, a, k - 1);
    }
  }

  lemma {:induction false} WalkTo(s: seq<Octet>, k: nat)
    requires 0 < k <= |s| && forall j :: 0 < j < k ==> Trailing(s[j])
    ensures Walk(s, k) == Walk(s, 1)
  {
    if k > 1 {
      WalkTo(s, k - 1);
    }
  }

  lemma OctetsMore(c: seq<Octet>, s: seq<Octet>)
    requires Char(c) && Octets(s)
    ensures Octets(c + s)
  {
    CharShape(c);
    assert (c + s)[..|c|] == c && (c + s)[|c|..] == s;
  }

  lemma WalkOne(s: seq<Octet>)
    requires s != [] && !Trailing(s[0])
    ensures Walk(s, 1) == if !Ascii(s[0]) && |s| < CodepointLen(s[0]) then 0 else |s|
  {
  }

  /** s is a char, or the beginning of one. */
  lemma WalkFirst(s: seq<Octet>)
    requires s != [] && !Trailing(s[0]) && (Ascii(s[0]) ==> CodepointLen(s[0]) == 1)
    requires forall j :: 0 < j < |s| ==> Trailing(s[j])
    ensures Walk(s, |s|) == if |s| < CodepointLen(s[0]) then 0 else |s|
  {
    hide Walk, CodepointLen, Ascii, Lead;
    WalkTo(s, |s|);
    WalkOne(s);
  }

  /** The part passed on is whole chars, and the part held back is the beginning of one. */
  lemma {:induction false} PassesWhole(s: seq<Octet>)
    requires Begins(s)
    ensures var n := Walk(s, |s|); Octets(s[..n]) && Begins(s[n..])
    decreases |s|
  {
    OctetsNone();
    hide Walk, CodepointLen, Octets, Begins, Char, Trailing;
    if s == [] {
      assert s[..0] == s && s[0..] == s;
    } else {
      FirstChar(s);
      var n := CodepointLen(s[0]);
      if |s| < n {
        WalkFirst(s);
        assert s[0..] == s && s[..0] == [];
      } else {
        PassesRest(s, n);
      }
    }
  }

  lemma {:induction false} PassesRest(s: seq<Octet>, n: nat)
    requires 0 < n <= |s| && Char(s[..n]) && Begins(s[n..]) && n == CodepointLen(s[0])
    ensures var n := Walk(s, |s|); Octets(s[..n]) && Begins(s[n..])
    decreases |s|, 0
  {
    OctetsNone();
    hide Walk, CodepointLen, Octets, Begins, Char, Trailing;
    var c, r := s[..n], s[n..];
    CharShape(c);
    if r == [] {
      assert c == s && s[..|s|] == s && s[|s|..] == [] && c + [] == s;
      WalkFirst(s);
      OctetsMore(c, []);
    } else {
      PassesWhole(r);
      FirstChar(r);
      WalkBehind(s, n, |s|);
      var m := Walk(r, |r|);
      OctetsMore(c, r[..m]);
      assert s[..n + m] == c + r[..m] && s[n + m..] == r[m..];
    }
  }

  lemma OctetsNone()
    ensures Octets([]) && Begins([])
  {
    assert Octets([] + []);
  }

  lemma {:induction false} OctetsAppend(a: seq<Octet>, b: seq<Octet>)
    requires Octets(a) && Octets(b)
    ensures Octets(a + b)
    decreases |a|
  {
    hide Char, Octets, CodepointLen, Trailing, Ascii;
    if a == [] {
      assert a + b == b;
    } else {
      FirstOctets(a);
      var n := CodepointLen(a[0]);
      OctetsAppend(a[n..], b);
      OctetsMore(a[..n], a[n..] + b);
      assert a[..n] + (a[n..] + b) == a + b;
    }
  }

  /** A well-formed beginning can be taken away. */
  lemma {:induction false} OctetsDrop(a: seq<Octet>, b: seq<Octet>)
    requires Octets(a) && Octets(a + b)
    ensures Octets(b)
    decreases |a|
  {
    hide Char, Octets, CodepointLen, Trailing, Ascii;
    if a == [] {
      assert a + b == b;
    } else {
      FirstOctets(a);
      FirstOctets(a + b);
      var n := CodepointLen(a[0]);
      assert (a + b)[0] == a[0] && (a + b)[n..] == a[n..] + b;
      OctetsDrop(a[n..], b);
    }
  }

  lemma BeginsParts(s: seq<Octet>, t: seq<Octet>)
    requires Begins(s + t)
    ensures Begins(s) && (Octets(s) ==> Begins(t))
  {
    var u :| Octets(s + t + u);
    assert s + t + u == s + (t + u);
    if Octets(s) {
      OctetsDrop(s, t + u);
    }
  }

  lemma {:induction false} WalkShort(s: seq<Octet>, k: nat)
    requires k <= |s|
    ensures var n := Walk(s, k); n < |s| ==> |s| - n < CodepointLen(s[n])
  {
    if k > 0 && Trailing(s[k - 1]) {
      WalkShort(s, k - 1);
    }
  }

  /** Of well-formed input nothing is held back. */
  lemma NothingHeld(s: seq<Octet>)
    requires Octets(s)
    ensures Walk(s, |s|) == |s|
  {
    hide Walk, Octets, Begins, CodepointLen, Char, Trailing, Ascii;
    WellFormedBegins(s);
    PassesWhole(s);
    WalkShort(s, |s|);
    var n := Walk(s, |s|);
    var r := s[n..];
    assert s == s[..n] + r;
    OctetsDrop(s[..n], r);
    if r != [] {
      assert r[0] == s[n];
      FirstOctets(r);
    }
  }

  /** One write: d is what was held and what is new. */
  lemma WriteKeeps(output: seq<Octet>, held: seq<Octet>, buf: seq<Octet>)
    requires Begins(output + held) ==> Octets(output)
    requires Begins(output + held + buf)
    ensures
      var d := held + buf;
      var n := Walk(d, |d|);
      Octets(d[..n]) && Octets(output + d[..n]) && Begins(d[n..]) && (Octets(output + held + buf) ==> n == |d|)
  {
    hide Walk, Begins, Octets;
    var d := held + buf;
    BeginsParts(output + held, buf);
    assert output + held + buf == output + d;
    BeginsParts(output, d);
    PassesWhole(d);
    OctetsAppend(output, d[..Walk(d, |d|)]);
    if Octets(output + held + buf) {
      OctetsDrop(output, d);
      NothingHeld(d);
    }
  }

  lemma WellFormedBegins(s: seq<Octet>)
    ensures Octets(s) ==> Begins(s)
  {
    assert s + [] == s;
  }

  /** The buffering of _console_write_utf8. `input` and `output` are history. */
  class Console {
    var held: seq<Octet>
    ghost var input: seq<Octet>
    ghost var output: seq<Octet>

    /** Nothing is lost, and as long as the input begins well-formed UTF-8 what is held begins a char. */
    ghost predicate Valid() reads this {
      output + held == input && |held| <= 3 && (Begins(input) ==> Octets(output) && Begins(held))
      && (Octets(input) ==> held == [])
    }

    constructor ()
      ensures Valid() && input == [] && output == []
    {
      held, input, output := [], [], [];
    }

    method Write(buf: seq<Octet>) returns (utf8: seq<Octet>)
      requires Valid()
      modifies this
      ensures Valid() && input == old(input) + buf && output == old(output) + utf8
      ensures Begins(input) ==> Octets(utf8)
    {
      hide Walk, Begins, Octets;
      ghost var d := held + buf;
      Rejoin(output, held, buf, Walk(d, |d|));
      WellFormedBegins(input + buf);
      if Begins(input + buf) {
        WriteKeeps(output, held, buf);
      }
      var n, rest;
      if held == [] {
        n, rest := ParseComplete(buf);
        utf8 := buf[..n];
      } else {
        var combined := held + buf;
        held := [];
        n, rest := ParseComplete(combined);
        utf8 := combined[..n];
      }
      held := held + rest;
      input, output := input + buf, output + utf8;
    }
  }

  lemma Rejoin(output: seq<Octet>, held: seq<Octet>, buf: seq<Octet>, n: nat)
    requires n <= |held + buf|
    ensures output + (held + buf)[..n] + ([] + (held + buf)[n..]) == output + held + buf
    ensures held == [] ==> held + buf == buf
    ensures [] + (held + buf)[n..] == (held + buf)[n..]
  {
  }
}
