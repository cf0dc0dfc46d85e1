/**
 The bytes a client sends to a smart socket, as smart_socket_enqueue of src/sockets.cpp takes them apart on
 the host: four hexadecimal digits of length, then that much text. Only what becomes of a whole request is
 left to its dispatcher.
 */
module SmartRequest {
  import opened Wire

  function Ascii(s: string): (b: Bytes)
    requires forall k :: 0 <= k < |s| ==> s[k] as int < 256
    ensures |b| == |s|
  {
    seq(|s|, k requires 0 <= k < |s| => s[k] as int as Byte)
  }

  // ----- the length

  const BAD_LENGTH := 0xffff_ffff

  function HexDigit(b: Byte): Option<nat> {
    if 48 <= b <= 57 then Some(b as nat - 48)
    else if 97 <= b <= 102 then Some(b as nat - 87)
    else if 65 <= b <= 70 then Some(b as nat - 55)
    else None
  }

  const LOWER := "0123456789abcdef"
  const UPPER := "0123456789ABCDEF"

  /** Byte b is how one writes digit k, in either case. */
  predicate Writes(b: Byte, k: nat) {
    k < 16 && (b as int == LOWER[k] as int || b as int == UPPER[k] as int)
  }

  lemma HexDigitsAre(b: Byte, k: nat)
    ensures HexDigit(b) == Some(k) <==> Writes(b, k)
  {
    if k < 16 {
      assert LOWER[k] as int == if k < 10 then 48 + k else 87 + k;
      assert UPPER[k] as int == if k < 10 then 48 + k else 55 + k;
    }
  }

  /** unhex, with n the value of the digits before. */
  function Unhex(d: Bytes, n: nat): nat {
    if d == [] then n
    else
      match HexDigit(d[0])
      case None => BAD_LENGTH
      case Some(c) => Unhex(d[1..], 16 * n + c)
  }

  predicate AllHex(d: Bytes) {
    forall k :: 0 <= k < |d| ==> HexDigit(d[k]).Some?
  }

  function DigitAt(d: Bytes, k: nat): (c: nat)
    requires k < |d| && AllHex(d)
    ensures c < 16
  {
    HexDigit(d[k]).value
  }

  /** The value of the first k digits. */
  function Value(d: Bytes, k: nat): nat
    requires k <= |d| && AllHex(d[..k])
  {
    if k == 0 then 0
    else
      assert d[..k][k - 1] == d[k - 1] && d[..k][..k - 1] == d[..k - 1];
      16 * Value(d, k - 1) + HexDigit(d[k - 1]).value
  }

  lemma ValueOfFour(d: Bytes)
    requires |d| == 4 && AllHex(d)
    ensures d[..4] == d
    ensures Value(d, 4) == 4096 * DigitAt(d, 0) + 256 * DigitAt(d, 1) + 16 * DigitAt(d, 2) + DigitAt(d, 3) < 0x10000
  {
    assert AllHex(d[..4]) && AllHex(d[..3]) && AllHex(d[..2]) && AllHex(d[..1]) && AllHex(d[..0]);
    assert Value(d, 1) == DigitAt(d, 0);
    assert Value(d, 2) == 16 * Value(d, 1) + DigitAt(d, 1);
    assert Value(d, 3) == 16 * Value(d, 2) + DigitAt(d, 2);
    assert Value(d, 4) == 16 * Value(d, 3) + DigitAt(d, 3);
  }

  /** unhex of the four digits of a length. It fails exactly if one of them is no digit. */
  method ParseLength(d: Bytes) returns (n: nat)
    requires |d| == 4
    ensures n == Unhex(d, 0)
    ensures n == BAD_LENGTH <==> !AllHex(d)
    ensures AllHex(d) ==> n == 4096 * DigitAt(d, 0) + 256 * DigitAt(d, 1) + 16 * DigitAt(d, 2) + DigitAt(d, 3)
  {
    n := 0;
    for i := 0 to |d|
      invariant Unhex(d, 0) == Unhex(d[i..], n) && AllHex(d[..i]) && n == Value(d, i)
    {
      var c := HexDigit(d[i]);
      if c.None? {
        return BAD_LENGTH;
      }
      assert d[i..][1..] == d[i + 1..];
      assert AllHex(d[..i + 1]);
      n := 16 * n + c.value;
    }
    assert d[..4] == d;
    ValueOfFour(d);
  }

  function HexOf(n: nat): Byte
    requires n < 16
  {
    if n < 10 then (48 + n) as Byte else (87 + n) as Byte
  }

  /** The length as a client writes it. */
  function Hex4(n: nat): (d: Bytes)
    requires n < 0x10000
    ensures |d| == 4
  {
    [HexOf(n / 4096), HexOf(n / 256 % 16), HexOf(n / 16 % 16), HexOf(n % 16)]
  }

  lemma UnhexStep(c: Byte, h: nat, rest: Bytes, n: nat)
    requires Writes(c, h)
    ensures Unhex([c] + rest, n) == Unhex(rest, 16 * n + h)
  {
    HexDigitsAre(c, h);
    assert ([c] + rest)[1..] == rest;
  }

  lemma UnhexNone(n: nat)
    ensures Unhex([], n) == n
  {
  }

  lemma FourDigits(n: nat)
    requires n < 0x10000
    ensures n == 16 * (16 * (16 * (n / 4096) + n / 256 % 16) + n / 16 % 16) + n % 16
    ensures n / 4096 < 16
  {
  }

  /** Four digits, in any mixture of cases, that one writes for n. */
  predicate WritesLength(d: Bytes, n: nat) {
    && |d| == 4 && n < 0x10000 && Writes(d[0], n / 4096) && Writes(d[1], n / 256 % 16)
    && Writes(d[2], n / 16 % 16) && Writes(d[3], n % 16)
  }

  lemma UnhexFour(d: Bytes, a: nat, b: nat, c: nat, e: nat)
    requires |d| == 4 && Writes(d[0], a) && Writes(d[1], b) && Writes(d[2], c) && Writes(d[3], e)
    ensures Unhex(d, 0) == 16 * (16 * (16 * a + b) + c) + e
  {
    hide Unhex, Writes;
    var (z, y) := ([d[3]] + [], [d[2]] + ([d[3]] + []));
    var x := [d[1]] + y;
    assert d == [d[0]] + x;
    UnhexStep(d[0], a, x, 0);
    UnhexStep(d[1], b, y, a);
    UnhexStep(d[2], c, z, 16 * a + b);
    UnhexStep(d[3], e, [], 16 * (16 * a + b) + c);
    UnhexNone(16 * (16 * (16 * a + b) + c) + e);
  }

  lemma UnhexWritten(d: Bytes, n: nat)
    requires WritesLength(d, n)
    ensures Unhex(d, 0) == n
  {
    hide Unhex, Writes;
    FourDigits(n);
    UnhexFour(d, n / 4096, n / 256 % 16, n / 16 % 16, n % 16);
  }

  lemma HexOfWrites(k: nat)
    requires k < 16
    ensures Writes(HexOf(k), k)
  {
    HexDigitsAre(HexOf(k), k);
  }

  lemma UnhexHex(n: nat)
    requires n < 0x10000
    ensures WritesLength(Hex4(n), n) && Unhex(Hex4(n), 0) == n
  {
    FourDigits(n);
    HexOfWrites(n / 4096);
    HexOfWrites(n / 256 % 16);
    HexOfWrites(n / 16 % 16);
    HexOfWrites(n % 16);
    hide Unhex, Writes, HexOf;
    UnhexWritten(Hex4(n), n);
  }

  // ----- the text

  /** A C string: up to the first NUL. */
  function Text(d: Bytes): (t: Bytes)
    ensures t <= d && (forall k :: 0 <= k < |t| ==> t[k] != 0) && (|t| < |d| ==> d[|t|] == 0)
  {
    if d == [] || d[0] == 0 then [] else [d[0]] + Text(d[1..])
  }

  predicate Digit(b: Byte) { 48 <= b <= 57 }

  predicate Space(b: Byte) { b == 32 || 9 <= b <= 13 }

  /** isspace and isdigit of the C locale: tab, line feed, vertical tab, form feed, carriage return and blank. */
  lemma Classes(b: Byte)
    ensures Space(b) <==> b in [9, 10, 11, 12, 13, 32]
    ensures Digit(b) <==> exists k :: 0 <= k < 10 && b as int == "0123456789"[k] as int
  {
    assert forall k :: 0 <= k < 10 ==> "0123456789"[k] as int == 48 + k;
    if Digit(b) {
      assert b as int == "0123456789"[b as int - 48] as int;
    }
  }

  function Spaces(s: Bytes, i: nat): (r: nat)
    requires i <= |s|
    ensures i <= r <= |s|
    decreases |s| - i
  {
    if i < |s| && Space(s[i]) then Spaces(s, i + 1) else i
  }

  function Digits(s: Bytes, i: nat): (r: nat)
    requires i <= |s|
    ensures i <= r <= |s| && (forall k :: i <= k < r ==> Digit(s[k])) && (r < |s| ==> !Digit(s[r]))
    decreases |s| - i
  {
    if i < |s| && Digit(s[i]) then Digits(s, i + 1) else i
  }

  /** Where strtoll from i stops: behind the number, or at i if there is none. */
  function NumberEnd(s: Bytes, i: nat): (r: nat)
    requires i <= |s|
    ensures i <= r <= |s|
  {
    var j := Spaces(s, i);
    var k := if j < |s| && (s[j] == 43 || s[j] == 45) then j + 1 else j;
    if Digits(s, k) == k then i else Digits(s, k)
  }

  const BY_ID := Ascii("host-transport-id:")

  const COLON: Byte := 58

  /** A request by transport id, with no colon behind the number. */
  predicate BadNumber(text: Bytes) {
    && BY_ID <= text
    && var e := NumberEnd(text, |BY_ID|); !(e < |text| && text[e] == COLON)
  }

  // ----- the request

  /** More bytes needed, a length out of range, a transport id that does not parse, or a whole request. */
  datatype Decoded = More | BadSize | BadId | Whole(text: Bytes)

  function Length(d: Bytes): nat
    requires |d| >= 4
  {
    Unhex(d[..4], 0)
  }

  function Decode(d: Bytes): Decoded {
    if |d| < 4 then More
    else
      var len := Length(d);
      if len == 0 || len > MAX_PAYLOAD then BadSize
      else if len + 4 > |d| then More
      else
        var text := Text(d[4..len + 4]);
        if BadNumber(text) then BadId else Whole(text)
  }

  /**
   What becomes of a whole request: answered or refused, a transport selected for the next request, a service
   of the host itself, or one to open over a transport.
   */
  datatype Dispatch = Refused | Selected | HostService | OpenRemote(transport: nat)

  /** The bytes are a request whose transport id does not parse. */
  predicate Unparsed(d: Bytes) {
    Decode(d).BadId?
  }

  /** The bytes are no request, or one that is refused. */
  predicate Refuses(d: Bytes, act: Dispatch) {
    Decode(d).BadSize? || (Decode(d).Whole? && act.Refused?)
  }

  /** What is left in the buffer: the byte behind the text is overwritten with a NUL. */
  function Terminated(d: Bytes): Bytes
    requires |d| >= 4
  {
    if Length(d) + 4 < |d| then d[Length(d) + 4 := 0] else d
  }

  /** What is decoded does not change when more bytes come: only a request still incomplete waits for them. */
  lemma DecodeStable(d: Bytes, more: Bytes)
    requires !Decode(d).More?
    ensures Decode(d + more) == Decode(d)
  {
    hide Unhex, Text, BadNumber;
    var t, len := d + more, Length(d);
    assert t[..4] == d[..4];
    if len + 4 <= |d| {
      assert t[4..len + 4] == d[4..len + 4];
    }
  }

  /** A client whose transport id did not parse is never served: whatever it sends next, its first request stays. */
  lemma BadIdForEver(d: Bytes, more: Bytes)
    requires Decode(d) == BadId
    ensures Decode(Terminated(d) + more) == BadId
  {
    hide Unhex, Text, BadNumber;
    var t, len := Terminated(d) + more, Length(d);
    assert t[..4] == d[..4] && t[4..len + 4] == d[4..len + 4];
  }

  /** A request as a client frames it. */
  function Framed(text: Bytes): Bytes
    requires |text| < 0x10000
  {
    Hex4(|text|) + text
  }

  lemma TextWhole(t: Bytes)
    requires 0 !in t
    ensures Text(t) == t
  {
  }

  /** A request of any length, whose length is written in any case. */
  lemma DecodeWritten(size: Bytes, text: Bytes)
    requires WritesLength(size, |text|) && 0 !in text
    ensures Decode(size + text) ==
      if text == [] then BadSize else if BadNumber(text) then BadId else Whole(text)
  {
    hide Unhex, Text, BadNumber, WritesLength;
    var d := size + text;
    WrittenSize(size, |text|);
    UnhexWritten(size, |text|);
    assert d[..4] == size && d[4..|text| + 4] == text;
    TextWhole(text);
  }

  lemma WrittenSize(d: Bytes, n: nat)
    requires WritesLength(d, n)
    ensures |d| == 4 && n < 0x10000
  {
  }

  lemma DecodeFramed(text: Bytes)
    requires 0 < |text| < 0x10000 && 0 !in text
    ensures Decode(Framed(text)) == if BadNumber(text) then BadId else Whole(text)
  {
    hide Unhex, Text, BadNumber, Hex4, Decode, WritesLength;
    UnhexHex(|text|);
    DecodeWritten(Hex4(|text|), text);
  }

  /** The text of a request ends at its first NUL. */
  lemma DecodeNul(size: Bytes, text: Bytes, rest: Bytes)
    requires WritesLength(size, |text| + 1 + |rest|) && 0 !in text
    ensures Decode(size + (text + [0] + rest)) == if BadNumber(text) then BadId else Whole(text)
  {
    hide Unhex, BadNumber, WritesLength;
    var all := text + [0] + rest;
    var d := size + all;
    WrittenSize(size, |all|);
    UnhexWritten(size, |all|);
    assert d[..4] == size && d[4..|all| + 4] == all;
    TextCut(text, rest);
  }

  lemma {:induction false} TextCut(text: Bytes, rest: Bytes)
    requires 0 !in text
    ensures Text(text + [0] + rest) == text
  {
    if text != [] {
      assert (text + [0] + rest)[1..] == text[1..] + [0] + rest;
      TextCut(text[1..], rest);
    }
  }

  /** No request is decoded exactly from four bytes that are no length, or one of 0. */
  lemma BadSizeIff(d: Bytes)
    requires |d| >= 4
    ensures Decode(d) == BadSize <==> !(exists n :: n > 0 && WritesLength(d[..4], n))
  {
    if exists n :: n > 0 && WritesLength(d[..4], n) {
      var n :| n > 0 && WritesLength(d[..4], n);
      hide WritesLength, Unhex;
      WrittenSize(d[..4], n);
      UnhexWritten(d[..4], n);
    } else {
      NoLength(d[..4]);
    }
  }

  lemma NoLength(d: Bytes)
    requires |d| == 4 && forall n :: n > 0 ==> !WritesLength(d, n)
    ensures Unhex(d, 0) == 0 || Unhex(d, 0) == BAD_LENGTH
  {
    if AllHex(d) {
      var (a, b, c, e) := (DigitAt(d, 0), DigitAt(d, 1), DigitAt(d, 2), DigitAt(d, 3));
      HexDigitsAre(d[0], a);
      HexDigitsAre(d[1], b);
      HexDigitsAre(d[2], c);
      HexDigitsAre(d[3], e);
      hide Unhex, Writes;
      var n := 4096 * a + 256 * b + 16 * c + e;
      DigitsOf(a, b, c, e);
      assert WritesLength(d, n);
      UnhexWritten(d, n);
    } else {
      NotHex(d, 0);
    }
  }

  lemma DigitsOf(a: nat, b: nat, c: nat, e: nat)
    requires a < 16 && b < 16 && c < 16 && e < 16
    ensures
      var n := 4096 * a + 256 * b + 16 * c + e;
      n < 0x10000 && n / 4096 == a && n / 256 % 16 == b && n / 16 % 16 == c && n % 16 == e
  {
    Quotient(4096 * a + 256 * b + 16 * c + e, 4096, a, 256 * b + 16 * c + e);
    Quotient(4096 * a + 256 * b + 16 * c + e, 256, 16 * a + b, 16 * c + e);
    Quotient(4096 * a + 256 * b + 16 * c + e, 16, 256 * a + 16 * b + c, e);
    Quotient(16 * a + b, 16, a, b);
    Quotient(256 * a + 16 * b + c, 16, 16 * a + b, c);
  }

  lemma Quotient(n: nat, d: nat, q: nat, r: nat)
    requires d in {16, 256, 4096} && n == d * q + r && r < d
    ensures n / d == q && n % d == r
  {
    if d == 16 {
      assert n == 16 * q + r;
    } else if d == 256 {
      assert n == 256 * q + r;
    } else {
      assert n == 4096 * q + r;
    }
  }

  lemma {:induction false} NotHex(d: Bytes, n: nat)
    requires !AllHex(d)
    ensures Unhex(d, n) == BAD_LENGTH
  {
    if HexDigit(d[0]).Some? {
      assert !AllHex(d[1..]) by {
        var k :| 0 <= k < |d| && HexDigit(d[k]).None?;
        assert d[1..][k - 1] == d[k];
      }
      NotHex(d[1..], 16 * n + HexDigit(d[0]).value);
    }
  }

  /** It is waited for more exactly while the text is not complete. */
  lemma MoreIff(d: Bytes)
    ensures Decode(d) == More <==> |d| < 4 || exists n :: n > 0 && WritesLength(d[..4], n) && |d| < n + 4
  {
    if |d| >= 4 {
      BadSizeIff(d);
      hide WritesLength, Unhex, Text, BadNumber;
      forall n | WritesLength(d[..4], n) ensures Length(d) == n < 0x10000 {
        WrittenSize(d[..4], n);
        UnhexWritten(d[..4], n);
      }
    }
  }

  /** The NUL goes behind the text and nowhere else. */
  lemma TerminatedAt(size: Bytes, text: Bytes, rest: Bytes)
    requires WritesLength(size, |text|)
    ensures Terminated(size + text + rest) == size + text + if rest == [] then [] else [0] + rest[1..]
  {
    hide Unhex, WritesLength;
    var d := size + text + rest;
    WrittenSize(size, |text|);
    UnhexWritten(size, |text|);
    assert d[..4] == size;
  }

  /** A request for a transport by number is accepted exactly if a colon follows the number. */
  lemma ById(number: Bytes, tail: Bytes)
    requires number != [] && (forall k :: 0 <= k < |number| ==> Digit(number[k]))
    requires (tail != [] ==> !Digit(tail[0])) && 0 !in tail && |BY_ID| + |number| + |tail| < 0x10000
    ensures
      var text := BY_ID + number + tail;
      Decode(Framed(text)) == if tail != [] && tail[0] == COLON then Whole(text) else BadId
  {
    var text, i := BY_ID + number + tail, |BY_ID|;
    assert forall k :: 0 <= k < |number| ==> text[i + k] == number[k];
    assert tail != [] ==> text[i + |number|] == tail[0];
    assert text[i] == number[0];
    assert Digits(text, i) == i + |number|;
    assert NumberEnd(text, i) == i + |number|;
    assert forall k :: 0 <= k < i ==> BY_ID[k] != 0;
    assert 0 !in text;
    DecodeFramed(text);
  }

  /** strtoll takes blanks, a sign and digits; without digits nothing at all. */
  lemma NumberReads(front: Bytes, blanks: Bytes, sign: Bytes, digits: Bytes, tail: Bytes)
    requires (forall k :: 0 <= k < |blanks| ==> Space(blanks[k])) && sign in [[], [43], [45]]
    requires (forall k :: 0 <= k < |digits| ==> Digit(digits[k])) && (tail != [] ==> !Digit(tail[0]))
    requires sign == [] && digits == [] && tail != [] ==> !Space(tail[0]) && tail[0] != 43 && tail[0] != 45
    ensures
      var s := front + (blanks + (sign + (digits + tail)));
      NumberEnd(s, |front|) == |front| + if digits == [] then 0 else |blanks| + |sign| + |digits|
  {
    hide Spaces, Digits;
    var s, i := front + (blanks + (sign + (digits + tail))), |front|;
    var j, k := i + |blanks|, i + |blanks| + |sign|;
    BehindFront(front, blanks, sign + (digits + tail));
    BehindFront(front + blanks, sign, digits + tail);
    BehindFront(front + blanks + sign, digits, tail);
    assert s == front + blanks + (sign + (digits + tail)) && s == front + blanks + sign + (digits + tail);
    SpacesTo(s, i, j);
    DigitsTo(s, k, k + |digits|);
  }

  lemma BehindFront(front: Bytes, part: Bytes, rest: Bytes)
    ensures
      var (s, i) := (front + (part + rest), |front|);
      && |s| == i + |part| + |rest| && (forall k :: i <= k < i + |part| ==> s[k] == part[k - i])
      && (rest != [] ==> s[i + |part|] == rest[0]) && (part != [] ==> s[i] == part[0])
      && (part + rest != [] ==> s[i] == (part + rest)[0])
  {
  }

  lemma {:induction false} SpacesTo(s: Bytes, i: nat, j: nat)
    requires i <= j <= |s| && (forall k :: i <= k < j ==> Space(s[k])) && (j < |s| ==> !Space(s[j]))
    ensures Spaces(s, i) == j
    decreases j - i
  {
    if i < j {
      SpacesTo(s, i + 1, j);
    }
  }

  lemma {:induction false} DigitsTo(s: Bytes, i: nat, j: nat)
    requires i <= j <= |s| && (forall k :: i <= k < j ==> Digit(s[k])) && (j < |s| ==> !Digit(s[j]))
    ensures Digits(s, i) == j
    decreases j - i
  {
    if i < j {
      DigitsTo(s, i + 1, j);
    }
  }

  lemma IdWithoutColon()
    ensures BadNumber(BY_ID + [120])
  {
    var text := BY_ID + [120];
    assert text[18] == 120 && |text| == 19;
    assert Spaces(text, 18) == 18 && Digits(text, 18) == 18;
    assert NumberEnd(text, 18) == 18;
  }

  lemma ExampleBytes()
    ensures Ascii("0013host-transport-id:x") == Hex4(19) + (BY_ID + [120])
  {
    assert Hex4(19) == [48, 48, 49, 51];
  }

  /** The request that leaves its client open. */
  lemma BadIdExample()
    ensures Decode(Ascii("0013host-transport-id:x")) == BadId
  {
    var text := BY_ID + [120];
    IdWithoutColon();
    assert 0 !in text;
    hide Hex4, Ascii, BadNumber, Decode;
    ExampleBytes();
    DecodeFramed(text);
  }
}
