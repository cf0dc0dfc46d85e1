/**
 The vocabulary shared by both ends of an adb transport: bytes, the four stream
 commands, packets, and the projection of a FIFO channel onto one stream.
 */
module Wire {
  import opened Seqs

  newtype Byte = b: int | 0 <= b < 256

  type Bytes = seq<Byte>

  datatype Option<+T> = None | Some(value: T)

  datatype Command = OPEN | OKAY | CLSE | WRTE

  datatype Packet = Packet(cmd: Command, arg0: nat, arg1: nat, data: Bytes)

  const MAX_PAYLOAD := 1024 * 1024

  /** Stream packets that side-local id `l` sent to side-remote id `r`. OPEN has no receiver id yet. */
  predicate Addressed(p: Packet, l: nat, r: nat) {
    p.cmd != OPEN && p.arg0 == l && p.arg1 == r
  }

  function On(ch: seq<Packet>, l: nat, r: nat): seq<Packet> {
    if ch == [] then [] else
      (if Addressed(ch[0], l, r) then [ch[0]] else []) + On(ch[1..], l, r)
  }

  /**
   What matters of a sequence of stream packets: how many there are of each command, the first
   command, all payload bytes in order, and whether no payload follows a CLSE.
   */
  datatype Flow = Flow(first: Option<Command>, wrte: nat, okay: nat, clse: nat, payload: Bytes, ordered: bool)

  const IDLE := Flow(None, 0, 0, 0, [], true)

  function Contents(p: Packet): Bytes {
    if p.cmd == WRTE then p.data else []
  }

  /** The flow after one more packet was sent. */
  function Add(f: Flow, p: Packet): Flow {
    Flow(if f.first.None? then Some(p.cmd) else f.first,
         f.wrte + Bit(p.cmd == WRTE), f.okay + Bit(p.cmd == OKAY), f.clse + Bit(p.cmd == CLSE),
         f.payload + Contents(p), f.ordered && (Contents(p) != [] ==> f.clse == 0))
  }

  function AddAll(f: Flow, ps: seq<Packet>): Flow
    decreases |ps|
  {
    if ps == [] then f else AddAll(Add(f, ps[0]), ps[1..])
  }

  /** The flow whose next packet to be delivered is `p`. */
  function Front(p: Packet, f: Flow): Flow {
    Flow(Some(p.cmd), f.wrte + Bit(p.cmd == WRTE), f.okay + Bit(p.cmd == OKAY), f.clse + Bit(p.cmd == CLSE),
         Contents(p) + f.payload, f.ordered && (p.cmd == CLSE ==> f.payload == []))
  }

  function Sum(ch: seq<Packet>): (f: Flow)
    ensures f.first.None? <==> f == IDLE
    ensures f == IDLE <==> ch == []
  {
    if ch == [] then IDLE else Front(ch[0], Sum(ch[1..]))
  }

  lemma {:induction false} OnAppend(ch: seq<Packet>, more: seq<Packet>, l: nat, r: nat)
    ensures On(ch + more, l, r) == On(ch, l, r) + On(more, l, r)
  {
    if ch == [] {
      assert ch + more == more;
    } else {
      assert (ch + more)[1..] == ch[1..] + more;
      OnAppend(ch[1..], more, l, r);
      Assoc(if Addressed(ch[0], l, r) then [ch[0]] else [], On(ch[1..], l, r), On(more, l, r));
    }
  }

  lemma {:induction false} SumOne(ch: seq<Packet>, p: Packet)
    ensures Sum(ch + [p]) == Add(Sum(ch), p)
  {
    if ch == [] {
      assert ch + [p] == [p];
    } else {
      assert (ch + [p])[1..] == ch[1..] + [p];
      SumOne(ch[1..], p);
      var f := Sum(ch[1..]);
      assert Contents(ch[0]) + (f.payload + Contents(p)) == Contents(ch[0]) + f.payload + Contents(p);
    }
  }

  /** Summing from the receiving end agrees with adding at the sending end. */
  lemma {:induction false} SumAppend(ch: seq<Packet>, more: seq<Packet>)
    ensures Sum(ch + more) == AddAll(Sum(ch), more)
    decreases |more|
  {
    if more == [] {
      assert ch + more == ch;
    } else {
      hide Sum, Add;
      SumOne(ch, more[0]);
      SumAppend(ch + [more[0]], more[1..]);
      assert ch + [more[0]] + more[1..] == ch + more;
    }
  }

  lemma AddTwo(f: Flow, p: Packet, q: Packet)
    ensures AddAll(f, [p]) == Add(f, p)
    ensures AddAll(f, [p, q]) == Add(Add(f, p), q)
  {
    assert [p][1..] == [] && [p, q][1..] == [q];
    assert AddAll(Add(f, p), [q]) == AddAll(Add(Add(f, p), q), [q][1..]);
  }

  /** Nothing is addressed between two ids that no packet mentions together. */
  lemma {:induction false} OnEmpty(ch: seq<Packet>, l: nat, r: nat)
    requires forall p :: p in ch ==> !Addressed(p, l, r)
    ensures On(ch, l, r) == []
  {
    if ch != [] {
      assert ch[0] in ch;
      assert forall p :: p in ch[1..] ==> p in ch;
      OnEmpty(ch[1..], l, r);
    }
  }

  /** A packet of the stream that is in the channel is in the projection, and conversely. */
  lemma {:induction false} OnMember(ch: seq<Packet>, l: nat, r: nat, p: Packet)
    ensures p in On(ch, l, r) <==> p in ch && Addressed(p, l, r)
  {
    if ch != [] {
      OnMember(ch[1..], l, r, p);
    }
  }
}
