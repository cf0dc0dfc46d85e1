/**
 NonblockingFdConnection of src/transport_fd.cpp: packets become a 24-byte header and a payload on a byte
 stream, and are cut out of the stream again, whatever pieces it is written and read in.
 */
module Framing {
  import opened Seqs
  import opened Wire
  import opened IoVector

  /** amessage: six 32-bit words. */
  datatype Message = Message(command: nat, arg0: nat, arg1: nat, dataLength: nat, dataCheck: nat, magic: nat)

  datatype Apacket = Apacket(msg: Message, payload: Bytes)

  const WORD := 0x1_0000_0000
  const HEADER := 24

  predicate Words(m: Message) {
    m.command < WORD && m.arg0 < WORD && m.arg1 < WORD && m.dataLength < WORD && m.dataCheck < WORD && m.magic < WORD
  }

  /** A packet whose header tells the length of its payload. */
  predicate Proper(p: Apacket) {
    Words(p.msg) && p.msg.dataLength == |p.payload|
  }

  function Word(n: nat): (b: Bytes)
    requires n < WORD
    ensures |b| == 4
  {
    [(n % 256) as Byte, (n / 256 % 256) as Byte, (n / 256 / 256 % 256) as Byte, (n / 256 / 256 / 256) as Byte]
  }

  function UnWord(b: Bytes): (n: nat)
    requires |b| == 4
    ensures n < WORD
  {
    b[0] as nat + 256 * (b[1] as nat + 256 * (b[2] as nat + 256 * b[3] as nat))
  }

  lemma UnWordWord(n: nat)
    requires n < WORD
    ensures UnWord(Word(n)) == n
  {
  }

  lemma WordUnWord(b: Bytes)
    requires |b| == 4
    ensures Word(UnWord(b)) == b
  {
    assert UnWord(b) / 256 == b[1] as nat + 256 * (b[2] as nat + 256 * b[3] as nat);
    assert UnWord(b) / 256 / 256 == b[2] as nat + 256 * b[3] as nat;
  }

  /** 256 to the k. */
  function Place(k: nat): nat {
    if k == 0 then 1 else 256 * Place(k - 1)
  }

  /** Little-endian: byte k of a word counts 256 to the k. */
  lemma WordLayout(n: nat, k: nat)
    requires n < WORD && k < 4
    ensures Place(k) > 0 && Word(n)[k] as nat == n / Place(k) % 256
  {
    assert Place(0) == 1 && Place(1) == 256 && Place(2) == 65536 && Place(3) == 16777216;
    assert n / 256 / 256 == n / 65536 && n / 65536 / 256 == n / 16777216 < 256;
  }

  function Header(m: Message): (b: Bytes)
    requires Words(m)
    ensures |b| == HEADER
  {
    Word(m.command) + Word(m.arg0) + Word(m.arg1) + Word(m.dataLength) + Word(m.dataCheck) + Word(m.magic)
  }

  function UnHeader(b: Bytes): (m: Message)
    requires |b| == HEADER
    ensures Words(m)
  {
    Message(UnWord(b[0..4]), UnWord(b[4..8]), UnWord(b[8..12]), UnWord(b[12..16]), UnWord(b[16..20]), UnWord(b[20..24]))
  }

  lemma HeaderParts(m: Message)
    requires Words(m)
    ensures
      var b := Header(m);
      && b[0..4] == Word(m.command) && b[4..8] == Word(m.arg0) && b[8..12] == Word(m.arg1)
      && b[12..16] == Word(m.dataLength) && b[16..20] == Word(m.dataCheck) && b[20..24] == Word(m.magic)
  {
    hide Word;
  }

  /** Where byte k of each field is. */
  lemma HeaderLayout(m: Message, k: nat)
    requires Words(m) && k < 4
    ensures
      var b := Header(m);
      && Place(k) > 0
      && b[k] as nat == m.command / Place(k) % 256 && b[4 + k] as nat == m.arg0 / Place(k) % 256
      && b[8 + k] as nat == m.arg1 / Place(k) % 256 && b[12 + k] as nat == m.dataLength / Place(k) % 256
      && b[16 + k] as nat == m.dataCheck / Place(k) % 256 && b[20 + k] as nat == m.magic / Place(k) % 256
  {
    var b := Header(m);
    HeaderParts(m);
    hide Word, Place, Header;
    WordLayout(m.command, k);
    WordLayout(m.arg0, k);
    WordLayout(m.arg1, k);
    WordLayout(m.dataLength, k);
    WordLayout(m.dataCheck, k);
    WordLayout(m.magic, k);
    assert b[0..4][k] == b[k] && b[4..8][k] == b[4 + k] && b[8..12][k] == b[8 + k];
    assert b[12..16][k] == b[12 + k] && b[16..20][k] == b[16 + k] && b[20..24][k] == b[20 + k];
  }

  lemma UnHeaderHeader(m: Message)
    requires Words(m)
    ensures UnHeader(Header(m)) == m
  {
    hide Word, UnWord, Header;
    HeaderParts(m);
    UnWordWord(m.command); UnWordWord(m.arg0); UnWordWord(m.arg1);
    UnWordWord(m.dataLength); UnWordWord(m.dataCheck); UnWordWord(m.magic);
  }

  lemma HeaderUnHeader(b: Bytes)
    requires |b| == HEADER
    ensures Header(UnHeader(b)) == b
  {
    hide Word, UnWord;
    WordUnWord(b[0..4]); WordUnWord(b[4..8]); WordUnWord(b[8..12]);
    WordUnWord(b[12..16]); WordUnWord(b[16..20]); WordUnWord(b[20..24]);
  }

  function Frame(p: Apacket): Bytes
    requires Words(p.msg)
  {
    Header(p.msg) + p.payload
  }

  predicate Encodable(ps: seq<Apacket>) {
    forall k :: 0 <= k < |ps| ==> Words(ps[k].msg)
  }

  predicate AllProper(ps: seq<Apacket>) {
    forall k :: 0 <= k < |ps| ==> Proper(ps[k])
  }

  function Frames(ps: seq<Apacket>): Bytes
    requires Encodable(ps)
  {
    if ps == [] then [] else Frame(ps[0]) + Frames(ps[1..])
  }

  lemma ProperMore(ps: seq<Apacket>, p: Apacket)
    requires AllProper(ps) && Proper(p)
    ensures AllProper(ps + [p])
  {
  }

  lemma {:induction false} FramesMore(ps: seq<Apacket>, p: Apacket)
    requires Encodable(ps) && Words(p.msg)
    ensures Encodable(ps + [p]) && Frames(ps + [p]) == Frames(ps) + Frame(p)
  {
    if ps == [] {
      assert ps + [p] == [p] && [p][1..] == [];
    } else {
      assert (ps + [p])[1..] == ps[1..] + [p];
      FramesMore(ps[1..], p);
      Assoc(Frame(ps[0]), Frames(ps[1..]), Frame(p));
    }
  }

  /** The first packet of a string of frames, and where the rest starts. */
  lemma FirstFrame(ps: seq<Apacket>)
    requires AllProper(ps) && ps != []
    ensures |Frames(ps)| >= HEADER && UnHeader(Frames(ps)[..HEADER]) == ps[0].msg
    ensures
      var n := HEADER + ps[0].msg.dataLength;
      n <= |Frames(ps)| && Frames(ps)[HEADER..n] == ps[0].payload && Frames(ps)[n..] == Frames(ps[1..])
  {
    hide Header, UnHeader;
    UnHeaderHeader(ps[0].msg);
    assert Frames(ps)[..HEADER] == Header(ps[0].msg);
  }

  /** Frames can be told apart: equal beginnings come from equal packets. */
  lemma PrefixParts(x: Bytes, y: Bytes, k: nat, n: nat)
    requires x <= y && k <= n <= |x|
    ensures x[..k] == y[..k] && x[k..n] == y[k..n] && x[n..] <= y[n..]
  {
  }

  lemma {:induction false} FramesPrefix(ps: seq<Apacket>, qs: seq<Apacket>)
    requires AllProper(ps) && AllProper(qs) && Frames(ps) <= Frames(qs)
    ensures ps <= qs
  {
    if ps != [] {
      FirstFrame(ps);
      var (x, y, n) := (Frames(ps), Frames(qs), HEADER + ps[0].msg.dataLength);
      FirstFrame(qs);
      hide Frames, UnHeader;
      PrefixParts(x, y, HEADER, n);
      FramesPrefix(ps[1..], qs[1..]);
      assert ps == [ps[0]] + ps[1..] && qs == [qs[0]] + qs[1..];
    }
  }

  /** What adb_writev returned: bytes taken, or an error or zero. */
  datatype Writev = Took(n: nat) | Failed

  datatype WriteResult = Error | Completed | TryAgain

  /**
   `sent` are the packets passed to Write, `wrote` the bytes the fd took, `got` the bytes read from it and
   `delivered` the packets passed to the read callback.
   */
  class Connection {
    var readHeader: Option<Message>
    const readBuffer: IOVector
    const writeBuffer: IOVector
    var writable: bool
    ghost var sent: seq<Apacket>
    ghost var wrote: Bytes
    ghost var got: Bytes
    ghost var delivered: seq<Apacket>

    ghost function HeaderBytes(): Bytes reads this`readHeader {
      if readHeader.Some? && Words(readHeader.value) then Header(readHeader.value) else []
    }

    /** Nothing is lost or reordered on the way out. */
    ghost predicate WriteOk() reads this`sent, this`wrote, writeBuffer, writeBuffer.chain {
      && writeBuffer.Valid() && writeBuffer.endOffset == 0
      && Encodable(sent) && wrote + writeBuffer.View() == Frames(sent)
    }

    /** Nor on the way in. */
    ghost predicate ReadOk() reads this`readHeader, this`got, this`delivered, readBuffer, readBuffer.chain {
      && readBuffer.Valid() && readBuffer.endOffset == 0 && (readHeader.Some? ==> Words(readHeader.value))
      && AllProper(delivered) && Encodable(delivered) && Frames(delivered) + HeaderBytes() + readBuffer.View() == got
    }

    ghost predicate Valid() reads this, readBuffer, readBuffer.chain, writeBuffer, writeBuffer.chain {
      readBuffer != writeBuffer && writable && WriteOk() && ReadOk()
    }

    constructor ()
      ensures Valid() && fresh(readBuffer) && fresh(writeBuffer)
      ensures sent == [] && wrote == [] && got == [] && delivered == []
      ensures writeBuffer.View() == []
    {
      readBuffer := new IOVector();
      writeBuffer := new IOVector();
      readHeader, writable, sent, wrote, got, delivered := None, true, [], [], [], [];
    }

    /** DispatchWrites. A short write leaves the rest for the next call: writable_ is never cleared. */
    method DispatchWrites(o: Writev) returns (r: WriteResult)
      requires Valid() && writeBuffer.View() != [] && (o.Took? ==> 0 < o.n <= |writeBuffer.View()|)
      modifies this`wrote, writeBuffer
      ensures Valid()
      ensures r == if o.Failed? then Error else if writeBuffer.View() == [] then Completed else TryAgain
      ensures if o.Failed? then wrote == old(wrote) else wrote == old(wrote) + old(writeBuffer.View())[..o.n]
      ensures writeBuffer.View() == if o.Failed? then old(writeBuffer.View()) else old(writeBuffer.View())[o.n..]
    {
      hide Frames, Encodable, IOVector.Valid, IOVector.View, IOVector.Size, ReadOk;
      if !writable {
        return TryAgain;
      }
      match o
      case Failed => return Error;
      case Took(n) =>
        ghost var v := writeBuffer.View();
        var front := writeBuffer.TakeFront(n);
        wrote := wrote + v[..n];
        assert v == v[..n] + v[n..];
        Assoc(old(wrote), v[..n], v[n..]);
        return if writeBuffer.Size() == 0 then Completed else TryAgain;
    }

    /** Whether Run asks poll for POLLOUT. */
    predicate PollsOut() reads this {
      !writable
    }

    lemma AllWritten()
      requires Valid()
      ensures wrote == Frames(sent) <==> writeBuffer.View() == []
    {
      hide Frames;
      if wrote == Frames(sent) {
        assert |wrote + writeBuffer.View()| == |wrote|;
      }
    }

    /** The two appends of Write. */
    method Enqueue(p: Apacket)
      requires Valid() && Words(p.msg)
      modifies this`sent, writeBuffer
      ensures Valid() && sent == old(sent) + [p] && writeBuffer.View() == old(writeBuffer.View()) + Frame(p)
    {
      hide Frames, Header, Encodable, IOVector.Valid, IOVector.View, ReadOk;
      FramesMore(sent, p);
      var bytes := Header(p.msg);
      var header := ToBlock(bytes);
      ghost var v := writeBuffer.View();
      writeBuffer.Append(header);
      if p.payload != [] {
        var payload := ToBlock(p.payload);
        writeBuffer.Append(payload);
      }
      Assoc(v, bytes, p.payload);
      Assoc(wrote, v, Frame(p));
      sent := sent + [p];
    }

    /** Write. */
    method Write(p: Apacket, o: Writev) returns (ok: bool)
      requires Valid() && Words(p.msg)
      requires o.Took? ==> 0 < o.n <= |writeBuffer.View()| + |Frame(p)|
      modifies this`sent, this`wrote, writeBuffer
      ensures Valid() && sent == old(sent) + [p] && ok == !o.Failed?
      ensures
        var all := old(writeBuffer.View()) + Frame(p);
        if o.Failed? then wrote == old(wrote) && writeBuffer.View() == all
        else wrote == old(wrote) + all[..o.n] && writeBuffer.View() == all[o.n..]
      ensures wrote == Frames(sent) <==> o == Took(|old(writeBuffer.View())| + |Frame(p)|)
    {
      hide Frames, Header, Encodable;
      Enqueue(p);
      var r := DispatchWrites(o);
      AllWritten();
      return r != Error;
    }

    /** The read path begins: the block just read. */
    method TakeBlock(chunk: Bytes)
      requires Valid() && chunk != []
      modifies this`got, readBuffer
      ensures Valid() && got == old(got) + chunk
    {
      hide Frames, AllProper, Encodable, Header, UnHeader, IOVector.Valid, IOVector.View, IOVector.Size, WriteOk;
      var block := ToBlock(chunk);
      Assoc(Frames(delivered) + HeaderBytes(), readBuffer.View(), chunk);
      readBuffer.Append(block);
      got := got + chunk;
    }

    /** Then the header, once it is complete. */
    method TakeHeader()
      requires Valid()
      modifies this`readHeader, readBuffer
      ensures Valid()
    {
      hide Frames, AllProper, Encodable, Header, UnHeader, IOVector.Valid, IOVector.View, IOVector.Size, WriteOk;
      if readHeader.None? && readBuffer.Size() >= HEADER {
        ghost var d, w := Frames(delivered), readBuffer.View();
        assert d + HeaderBytes() == d;
        var front := readBuffer.TakeFront(HEADER);
        var bytes := front.Coalesce();
        readHeader := Some(UnHeader(bytes[..]));
        HeaderUnHeader(bytes[..]);
        assert w == w[..HEADER] + w[HEADER..];
        Assoc(d, w[..HEADER], w[HEADER..]);
      }
    }

    /** The second half: one packet at most, once its payload is complete. */
    method TakePacket() returns (packet: Option<Apacket>)
      requires Valid()
      modifies this`readHeader, this`delivered, readBuffer
      ensures Valid() && got == old(got)
      ensures packet.Some? <==> old(readHeader).Some? && old(readHeader).value.dataLength <= old(|readBuffer.View()|)
      ensures delivered == old(delivered) + match packet case None => [] case Some(p) => [p]
    {
      hide Frames, AllProper, Encodable, Header, IOVector.Valid, IOVector.View, IOVector.Size, WriteOk;
      packet := None;
      assert delivered + [] == delivered;
      if readHeader.Some? && readBuffer.Size() >= readHeader.value.dataLength {
        var n := readHeader.value.dataLength;
        ghost var (d, h, w) := (Frames(delivered), HeaderBytes(), readBuffer.View());
        var front := readBuffer.TakeFront(n);
        var payload := front.Coalesce();
        var p := Apacket(readHeader.value, payload[..]);
        packet := Some(p);
        FramesMore(delivered, p);
        ProperMore(delivered, p);
        assert w == w[..n] + w[n..];
        Assoc(d, h, w[..n]);
        Assoc(d + h, w[..n], w[n..]);
        assert Frames(delivered) + Frame(p) + [] == Frames(delivered) + Frame(p);
        readHeader := None;
        delivered := delivered + [p];
      }
    }

    /** The POLLIN branch of Run, after a read that returned `chunk`. */
    method ReadSome(chunk: Bytes) returns (packet: Option<Apacket>)
      requires Valid() && chunk != []
      modifies this`readHeader, this`got, this`delivered, readBuffer
      ensures Valid() && got == old(got) + chunk && !PollsOut()
      ensures delivered == old(delivered) + match packet case None => [] case Some(p) => [p]
      ensures wrote == old(wrote) && writeBuffer.View() == old(writeBuffer.View())
    {
      hide WriteOk, ReadOk;
      TakeBlock(chunk);
      TakeHeader();
      packet := TakePacket();
    }

    /**
     Any sequence of calls and reads. Only Write ever flushes: poll is never asked whether the fd can take more,
     so what is buffered is what the calls of Write have left.
     */
    method Perform(ops: seq<Op>)
      requires Valid() && CanPerform(|writeBuffer.View()|, ops)
      modifies this`readHeader, this`sent, this`wrote, this`got, this`delivered, readBuffer, writeBuffer
      ensures Valid() && !PollsOut() && |writeBuffer.View()| == Left(|old(writeBuffer.View())|, ops)
      ensures wrote == Frames(sent) <==> Left(|old(writeBuffer.View())|, ops) == 0
    {
      hide ReadOk, Header, Frames, IOVector.Valid, IOVector.View;
      ghost var b := |writeBuffer.View()|;
      for i := 0 to |ops|
        invariant Valid() && CanPerform(|writeBuffer.View()|, ops[i..])
        invariant Left(b, ops) == Left(|writeBuffer.View()|, ops[i..])
      {
        assert ops[i..][0] == ops[i] && ops[i..][1..] == ops[i + 1..];
        match ops[i] {
          case Send(p, o) =>
            var ok := Write(p, o);
          case Got(chunk) =>
            var packet := ReadSome(chunk);
        }
      }
      AllWritten();
    }
  }

  /** A call of Write, or a read by Run. */
  datatype Op = Send(p: Apacket, o: Writev) | Got(chunk: Bytes)

  /** With b bytes buffered the operation can happen: a write takes some of what it is offered, or fails. */
  predicate Fits(b: nat, op: Op) {
    match op
    case Send(p, o) => Words(p.msg) && (o.Took? ==> 0 < o.n <= b + |Frame(p)|)
    case Got(chunk) => chunk != []
  }

  /** The number of bytes buffered afterwards. */
  function After(b: nat, op: Op): nat
    requires Fits(b, op)
  {
    match op
    case Send(p, o) => b + |Frame(p)| - if o.Took? then o.n else 0
    case Got(_) => b
  }

  predicate CanPerform(b: nat, ops: seq<Op>)
    decreases |ops|
  {
    ops == [] || (Fits(b, ops[0]) && CanPerform(After(b, ops[0]), ops[1..]))
  }

  function Left(b: nat, ops: seq<Op>): nat
    requires CanPerform(b, ops)
    decreases |ops|
  {
    if ops == [] then b else Left(After(b, ops[0]), ops[1..])
  }

  lemma {:induction false} LeftSplit(b: nat, xs: seq<Op>, ys: seq<Op>)
    requires CanPerform(b, xs + ys)
    ensures CanPerform(b, xs) && CanPerform(Left(b, xs), ys) && Left(b, xs + ys) == Left(Left(b, xs), ys)
    decreases |xs|
  {
    if xs == [] {
      assert xs + ys == ys;
    } else {
      assert (xs + ys)[0] == xs[0] && (xs + ys)[1..] == xs[1..] + ys;
      LeftSplit(After(b, xs[0]), xs[1..], ys);
    }
  }

  lemma {:induction false} ReadsLeave(b: nat, rs: seq<Op>)
    requires CanPerform(b, rs) && forall k :: 0 <= k < |rs| ==> rs[k].Got?
    ensures Left(b, rs) == b
  {
    if rs != [] {
      ReadsLeave(b, rs[1..]);
    }
  }

  /** Nothing is left waiting exactly if the last write took all there was, however much is read after it. */
  lemma LastWriteDecides(b: nat, ops: seq<Op>, p: Apacket, o: Writev, rs: seq<Op>)
    requires CanPerform(b, ops + ([Send(p, o)] + rs)) && forall k :: 0 <= k < |rs| ==> rs[k].Got?
    ensures CanPerform(b, ops) && Words(p.msg)
    ensures Left(b, ops + ([Send(p, o)] + rs)) == 0 <==> o == Took(Left(b, ops) + |Frame(p)|)
  {
    LeftSplit(b, ops, [Send(p, o)] + rs);
    var c := Left(b, ops);
    assert ([Send(p, o)] + rs)[1..] == rs;
    ReadsLeave(After(c, Send(p, o)), rs);
  }

  method ToBlock(bytes: Bytes) returns (b: Block)
    ensures fresh(b) && b[..] == bytes
  {
    b := new Byte[|bytes|](i requires 0 <= i < |bytes| => bytes[i]);
  }

  /**
   Two connections joined by a byte stream: the reader has got a prefix of what the writer wrote. If all packets
   sent state the length of their payload, the packets delivered are a prefix of them.
   */
  lemma DeliversPrefix(w: Connection, r: Connection)
    requires w.Valid() && r.Valid() && r.got <= w.wrote && AllProper(w.sent)
    ensures r.delivered <= w.sent
  {
    hide Frames, AllProper;
    var (d, rest) := (Frames(r.delivered), r.HeaderBytes() + r.readBuffer.View());
    Assoc(d, r.HeaderBytes(), r.readBuffer.View());
    assert d <= d + rest;
    assert w.wrote <= Frames(w.sent);
    FramesPrefix(r.delivered, w.sent);
  }

  /** A first write that takes one byte: the other 23 wait, whatever is read. */
  method ShortWriteWaits(rs: seq<Op>) returns (c: Connection)
    requires forall k :: 0 <= k < |rs| ==> rs[k].Got? && rs[k].chunk != []
    ensures fresh(c) && c.Valid() && |c.writeBuffer.View()| == 23 && c.wrote != Frames(c.sent) && !c.PollsOut()
  {
    hide Connection.WriteOk, Connection.ReadOk, Header;
    c := new Connection();
    var p := Apacket(Message(0, 0, 0, 0, 0, 0), []);
    var ok := c.Write(p, Took(1));
    ReadsFit(23, rs);
    ReadsLeave(23, rs);
    c.Perform(rs);
  }

  lemma {:induction false} ReadsFit(b: nat, rs: seq<Op>)
    requires forall k :: 0 <= k < |rs| ==> rs[k].Got? && rs[k].chunk != []
    ensures CanPerform(b, rs)
  {
    if rs != [] {
      ReadsFit(b, rs[1..]);
    }
  }
}
