/**
 The shell packets of src/shell_service_protocol.cpp over the exact reads and writes of src/adb_io.cpp: an id
 byte, a length, and data that a reader with a small buffer gets in several pieces.
 */
module ShellProtocol {
  import opened Seqs
  import opened Wire
  import opened Framing

  /** The bytes still to come on an fd before it ends. */
  class Source {
    var content: Bytes
  }

  /** The bytes an fd has taken. */
  class Sink {
    var content: Bytes
  }

  /** adb_read: at least one byte, at most all that fit; how many of those is up to `want`. */
  function Got(want: nat, avail: nat): (n: nat)
    requires avail > 0
    ensures 0 < n <= avail
  {
    1 + want % avail
  }

  /** The bytes of one adb_read arrive at their place. */
  method Arrive(buf: array<Byte>, at: nat, bytes: Bytes)
    requires at + |bytes| <= buf.Length
    modifies buf
    ensures buf[..] == old(buf[..at]) + bytes + old(buf[at + |bytes|..])
  {
    forall i | 0 <= i < |bytes| {
      buf[at + i] := bytes[i];
    }
  }

  /** `before` with the first k bytes of c written at `at`. */
  function Filled(before: Bytes, at: nat, c: Bytes, k: nat): (r: Bytes)
    requires at + k <= |before| && k <= |c|
    ensures |r| == |before|
  {
    before[..at] + c[..k] + before[at + k..]
  }

  lemma FilledMore(before: Bytes, at: nat, c: Bytes, k: nat, n: nat)
    requires at + k + n <= |before| && k + n <= |c|
    ensures
      var f := Filled(before, at, c, k);
      f[..at + k] + c[k..k + n] + f[at + k + n..] == Filled(before, at, c, k + n)
  {
  }

  lemma FilledParts(before: Bytes, at: nat, c: Bytes, k: nat)
    requires at + k <= |before| && k <= |c|
    ensures
      var f := Filled(before, at, c, k);
      f[..at] == before[..at] && f[at..at + k] == c[..k] && f[at + k..] == before[at + k..]
  {
  }

  /** ReadFdExactly, for every pattern of short reads. */
  method ReadExactly(fd: Source, buf: array<Byte>, at: nat, len: nat, wants: nat -> nat) returns (ok: bool)
    requires at + len <= buf.Length
    modifies fd, buf
    ensures ok <==> len <= |old(fd.content)|
    ensures ok ==> fd.content == old(fd.content)[len..] && buf[..] == Filled(old(buf[..]), at, old(fd.content), len)
    ensures buf[..at] == old(buf[..at])
  {
    hide Filled;
    ghost var (c, before) := (fd.content, buf[..]);
    var done := 0;
    FilledNone(before, at, c);
    while done < len
      invariant done <= len && done <= |c| && fd.content == c[done..]
      invariant buf[..] == Filled(before, at, c, done)
    {
      if fd.content == [] {
        FilledParts(before, at, c, done);
        return false;
      }
      var avail := if |fd.content| < len - done then |fd.content| else len - done;
      var n := Got(wants(done), avail);
      FilledMore(before, at, c, done, n);
      assert fd.content[..n] == c[done..done + n] && fd.content[n..] == c[done + n..];
      Arrive(buf, at + done, fd.content[..n]);
      fd.content := fd.content[n..];
      done := done + n;
    }
    FilledParts(before, at, c, done);
    return true;
  }

  lemma FilledNone(before: Bytes, at: nat, c: Bytes)
    requires at <= |before|
    ensures Filled(before, at, c, 0) == before
  {
  }

  datatype Outcome = Put(want: nat) | Zero | Again | Fails

  /** WriteFdExactly, for every pattern of short writes; None when `tries` ends before it does. */
  method WriteExactly(fd: Sink, bytes: Bytes, tries: seq<Outcome>) returns (r: Option<bool>)
    modifies fd
    ensures exists n ::
      0 <= n <= |bytes| && fd.content == old(fd.content) + bytes[..n] && (r == Some(true) <==> n == |bytes|)
    ensures r == Some(false) ==> Fails in tries
    ensures r == None ==> Fails !in tries
  {
    var done: nat := 0;
    var k: nat := 0;
    assert bytes[..0] == [];
    while done < |bytes|
      invariant 0 <= done <= |bytes| && k <= |tries| && fd.content == old(fd.content) + bytes[..done]
      invariant Fails !in tries[..k]
      decreases |tries| - k
    {
      if k == |tries| {
        return None;
      }
      match tries[k]
      case Fails => return Some(false);
      case Again =>
        k := k + 1;
      case Zero =>
        k := k + 1;
      case Put(want) =>
        var n := Got(want, |bytes| - done);
        fd.content := fd.content + bytes[done..done + n];
        assert bytes[..done + n] == bytes[..done] + bytes[done..done + n];
        done := done + n;
        k := k + 1;
    }
    assert bytes[..done] == bytes;
    return Some(true);
  }

  // ----- packets

  const PREFIX := 5

  /** A packet on the wire. */
  function Encode(id: Byte, payload: Bytes): Bytes
    requires |payload| < WORD
  {
    [id] + Word(|payload|) + payload
  }

  /** The id, four bytes of length from the lowest up, the payload. */
  lemma EncodeLayout(id: Byte, payload: Bytes, k: nat)
    requires |payload| < WORD && k < 4
    ensures
      var e := Encode(id, payload);
      && |e| == 5 + |payload| && e[0] == id && Place(k) > 0 && e[1 + k] as nat == |payload| / Place(k) % 256
      && forall i :: 0 <= i < |payload| ==> e[5 + i] == payload[i]
  {
    hide Word, Place;
    WordLayout(|payload|, k);
  }

  /** What successive reads of a packet return. */
  function Chunks(payload: Bytes, cap: nat): (r: seq<Bytes>)
    requires cap > 0
    ensures r != []
    decreases |payload|
  {
    if |payload| <= cap then [payload] else [payload[..cap]] + Chunks(payload[cap..], cap)
  }

  /** n pieces of at most cap bytes, and no fewer, hold len bytes. */
  predicate Fewest(n: nat, len: nat, cap: nat) {
    n > 0 && (n - 1) * cap < len <= n * cap
  }

  /** The pieces are the payload, none is larger than the buffer, and there are as few as that allows, at least one. */
  lemma {:induction false} ChunksAre(payload: Bytes, cap: nat)
    requires cap > 0
    ensures Flat(Chunks(payload, cap)) == payload
    ensures forall k :: 0 <= k < |Chunks(payload, cap)| ==> |Chunks(payload, cap)[k]| <= cap
    ensures if payload == [] then |Chunks(payload, cap)| == 1 else Fewest(|Chunks(payload, cap)|, |payload|, cap)
    decreases |payload|
  {
    var cs := Chunks(payload, cap);
    if |payload| <= cap {
      assert cs[1..] == [];
    } else {
      ChunksAre(payload[cap..], cap);
      assert cs[1..] == Chunks(payload[cap..], cap);
      var n := |cs| - 1;
      assert n * cap == (n - 1) * cap + cap && |cs| * cap == n * cap + cap;
    }
  }

  // ----- one Read on values

  /** What a reader holds between reads: the id, how much of the packet is left, and the stream ahead. */
  datatype Reading = Reading(id: Byte, left: nat, content: Bytes)

  /** One Read and the data it returns, or None if the stream ends first. */
  function Step(s: Reading, cap: nat): Option<(Reading, Bytes)> {
    var header := s.left == 0;
    if header && |s.content| < PREFIX then None
    else
      var h := if header then Reading(s.content[0], UnWord(s.content[1..PREFIX]), s.content[PREFIX..]) else s;
      var n := if h.left < cap then h.left else cap;
      if |h.content| < n then None
      else Some((Reading(h.id, h.left - n, h.content[n..]), h.content[..n]))
  }

  /** n Reads. */
  function Steps(s: Reading, cap: nat, n: nat): Option<(Reading, seq<Bytes>)>
    decreases n
  {
    if n == 0 then Some((s, []))
    else
      match Step(s, cap)
      case None => None
      case Some((s', data)) =>
        match Steps(s', cap, n - 1)
        case None => None
        case Some((s2, ds)) => Some((s2, [data] + ds))
  }

  lemma StepsMore(s: Reading, cap: nat, n: nat, s1: Reading, data: Bytes, s2: Reading, ds: seq<Bytes>)
    requires Step(s, cap) == Some((s1, data)) && Steps(s1, cap, n) == Some((s2, ds))
    ensures Steps(s, cap, n + 1) == Some((s2, [data] + ds))
  {
    hide Step;
  }

  lemma StepsNone(s: Reading, cap: nat)
    ensures Steps(s, cap, 0) == Some((s, []))
  {
  }

  /** A read inside a packet. */
  lemma StepInside(id: Byte, data: Bytes, tail: Bytes, rest: Bytes, cap: nat)
    requires data != [] && |data| <= cap && (tail != [] ==> |data| == cap)
    ensures Step(Reading(id, |data + tail|, data + tail + rest), cap) == Some((Reading(id, |tail|, tail + rest), data))
  {
    assert (data + tail + rest)[|data|..] == tail + rest && (data + tail + rest)[..|data|] == data;
  }

  lemma {:induction false} StepsInside(id: Byte, payload: Bytes, rest: Bytes, cap: nat)
    requires cap > 0 && payload != []
    ensures Steps(Reading(id, |payload|, payload + rest), cap, |Chunks(payload, cap)|)
         == Some((Reading(id, 0, rest), Chunks(payload, cap)))
    decreases |payload|
  {
    hide Step, Steps;
    var s, end := Reading(id, |payload|, payload + rest), Reading(id, 0, rest);
    if |payload| <= cap {
      StepInside(id, payload, [], rest, cap);
      assert payload + [] == payload && [] + rest == rest && [payload] + [] == [payload];
      StepsNone(end, cap);
      StepsMore(s, cap, 0, end, payload, end, []);
    } else {
      var data, tail := payload[..cap], payload[cap..];
      assert data + tail == payload;
      StepInside(id, data, tail, rest, cap);
      StepsInside(id, tail, rest, cap);
      StepsMore(s, cap, |Chunks(tail, cap)|, Reading(id, |tail|, tail + rest), data, end, Chunks(tail, cap));
    }
  }

  /** A read at a packet is a read inside it, once the header is taken. */
  lemma StepHeader(before: Byte, id: Byte, payload: Bytes, rest: Bytes, cap: nat)
    requires cap > 0 && |payload| < WORD
    ensures
      var s := Reading(before, 0, Encode(id, payload) + rest);
      Step(s, cap) ==
        if payload == [] then Some((Reading(id, 0, rest), [])) else Step(Reading(id, |payload|, payload + rest), cap)
  {
    var s := Reading(before, 0, Encode(id, payload) + rest);
    UnWordWord(|payload|);
    hide Word, UnWord;
    assert s.content[1..PREFIX] == Word(|payload|) && s.content[PREFIX..] == payload + rest;
    if payload == [] {
      assert payload + rest == rest && rest[0..] == rest && rest[..0] == [];
    }
  }

  /**
   Whatever was read before, a packet is returned in exactly its pieces under its id, and the next read
   starts at what follows it.
   */
  lemma ReadsWhatWasWritten(before: Byte, id: Byte, payload: Bytes, rest: Bytes, cap: nat)
    requires cap > 0 && |payload| < WORD
    ensures Steps(Reading(before, 0, Encode(id, payload) + rest), cap, |Chunks(payload, cap)|)
         == Some((Reading(id, 0, rest), Chunks(payload, cap)))
  {
    var s, end := Reading(before, 0, Encode(id, payload) + rest), Reading(id, 0, rest);
    StepHeader(before, id, payload, rest, cap);
    if payload == [] {
      hide Step;
      StepsNone(end, cap);
      StepsMore(s, cap, 0, end, [], end, []);
      assert [[]] + [] == Chunks(payload, cap);
    } else {
      StepsInside(id, payload, rest, cap);
      SameFirst(s, Reading(id, |payload|, payload + rest), cap, |Chunks(payload, cap)|);
    }
  }

  lemma SameFirst(s: Reading, h: Reading, cap: nat, n: nat)
    requires Step(s, cap) == Step(h, cap) && n > 0
    ensures Steps(s, cap, n) == Steps(h, cap, n)
  {
    hide Step;
  }

  // ----- the class

  class Protocol {
    const buffer: array<Byte>
    var bytesLeft: nat
    var dataLength: nat

    ghost predicate Valid() reads this {
      buffer.Length > PREFIX && dataLength <= Capacity()
    }

    function Capacity(): nat {
      if buffer.Length < PREFIX then 0 else buffer.Length - PREFIX
    }

    constructor (size: nat)
      requires size > PREFIX
      ensures Valid() && fresh(buffer) && buffer.Length == size && buffer[0] == 255 && bytesLeft == 0
    {
      buffer := new Byte[size](_ => 255);
      bytesLeft, dataLength := 0, 0;
    }

    /** Where the reader stands. */
    ghost function Where(fd: Source): Reading
      requires Valid()
      reads this, buffer, fd
    {
      Reading(buffer[0], bytesLeft, fd.content)
    }

    /** The header part of Read. */
    method ReadHeader(fd: Source, wants: nat -> nat) returns (ok: bool)
      requires Valid() && bytesLeft == 0
      modifies this, buffer, fd
      ensures Valid() && (ok <==> PREFIX <= |old(fd.content)|)
      ensures ok ==>
        Where(fd) == Reading(old(fd.content)[0], UnWord(old(fd.content)[1..PREFIX]), old(fd.content)[PREFIX..])
    {
      hide UnWord;
      ok := ReadExactly(fd, buffer, 0, PREFIX, wants);
      if ok {
        ghost var c := old(fd.content);
        FilledParts(old(buffer[..]), 0, c, PREFIX);
        assert buffer[0..PREFIX] == buffer[..][0..PREFIX];
        assert buffer[0..PREFIX][0] == c[..PREFIX][0] == c[0];
        assert buffer[1..PREFIX] == buffer[0..PREFIX][1..] == c[1..PREFIX];
        bytesLeft := UnWord(buffer[1..PREFIX]);
        dataLength := 0;
      }
    }

    /** The data part of Read. */
    method ReadData(fd: Source, wants: nat -> nat) returns (ok: bool)
      requires Valid()
      modifies this, buffer, fd
      ensures Valid()
      ensures
        var n := if old(bytesLeft) < Capacity() then old(bytesLeft) else Capacity();
        && (ok <==> n <= |old(fd.content)|)
        && (ok ==> dataLength == n && buffer[PREFIX..PREFIX + n] == old(fd.content)[..n])
        && (ok ==> Where(fd) == Reading(old(buffer[0]), old(bytesLeft) - n, old(fd.content)[n..]))
    {
      var n := if bytesLeft < Capacity() then bytesLeft else Capacity();
      ok := true;
      if n != 0 {
        ok := ReadExactly(fd, buffer, PREFIX, n, wants);
        assert buffer[0] == buffer[..PREFIX][0] == old(buffer[..PREFIX][0]);
        if ok {
          FilledParts(old(buffer[..]), PREFIX, old(fd.content), n);
          assert buffer[PREFIX..PREFIX + n] == buffer[..][PREFIX..PREFIX + n];
        }
      }
      if ok {
        bytesLeft, dataLength := bytesLeft - n, n;
      }
    }

    /** Read. */
    method Read(fd: Source, wants: nat -> nat, more: nat -> nat) returns (ok: bool)
      requires Valid()
      modifies this, buffer, fd
      ensures Valid() && (ok <==> Step(old(Where(fd)), Capacity()).Some?)
      ensures ok ==> Step(old(Where(fd)), Capacity()) == Some((Where(fd), buffer[PREFIX..PREFIX + dataLength]))
    {
      hide UnWord;
      if bytesLeft == 0 {
        var header := ReadHeader(fd, wants);
        if !header {
          return false;
        }
      }
      ok := ReadData(fd, more);
    }

    /** Write of the `length` bytes at data(): on success the packet is on the fd, else a beginning of it. */
    method Write(fd: Sink, id: Byte, length: nat, tries: seq<Outcome>) returns (r: Option<bool>)
      requires Valid() && length <= Capacity() && length < WORD
      modifies buffer, fd
      ensures Valid()
      ensures
        var packet := Encode(id, old(buffer[PREFIX..PREFIX + length]));
        exists n ::
          0 <= n <= |packet| && fd.content == old(fd.content) + packet[..n] && (r == Some(true) <==> n == |packet|)
    {
      hide Word;
      ghost var data := buffer[PREFIX..PREFIX + length];
      buffer[0] := id;
      var word := Word(length);
      forall i | 0 <= i < 4 {
        buffer[1 + i] := word[i];
      }
      assert buffer[..PREFIX + length] == Encode(id, data) by {
        assert buffer[1..PREFIX] == word;
        assert buffer[..PREFIX + length] == [buffer[0]] + buffer[1..PREFIX] + buffer[PREFIX..PREFIX + length];
      }
      r := WriteExactly(fd, buffer[..PREFIX + length], tries);
    }
  }
}
