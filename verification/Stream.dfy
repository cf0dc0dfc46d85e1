/**
 One stream seen from one of its ends: the two sockets and the packets in flight
 between them. Every handler at one end keeps `Inv`, which holds all that is
 promised of a stream: no half-open ends, flow-control credit, and byte fidelity.
 */
module Stream {
  import opened Seqs
  import opened Wire
  import opened Asocket

  /** `out` travels from x to y, `inn` from y to x. */
  datatype View = View(x: Conn, y: Conn, out: Flow, inn: Flow) {
    function Swap(): View { View(y, x, inn, out) }
  }

  /** The right to send from x to y: held by x, spent in flight, owed by y, or on its way back. */
  function Credit(v: View): nat {
    Bit(v.x.reading) + v.out.wrte + Bit(v.y.writing) + v.inn.okay
  }

  /** What holds of a single local socket between handlers. */
  predicate SockOk(c: Conn) {
    && (c.writing ==> c.queue != [] && c.phase != Gone)
    && (c.phase == Listed && c.queue != [] && !c.broken ==> c.writing)
    && (c.phase != Listed ==> c.peer == NoPeer && !c.reading)
    && (c.phase == Closing ==> c.queue != [] && !c.broken && c.writing)
    && (c.phase == Listed && c.peer == NoPeer ==> c == FRESH)
  }

  /** An opener waits for the OKAY that pairs it; a paired end has a live counterpart or will be told to close. */
  predicate NotHalfOpen(v: View) {
    && (v.x == FRESH ==> v.out == IDLE && v.inn.first == Some(OKAY))
    && (v.x.phase == Listed ==> v.y.phase == Listed || v.inn.clse > 0 || v.out.okay > 0)
    && (v.out.clse > 0 ==> v.x.phase != Listed)
    && v.out.ordered
  }

  /** Credit is never lost, and is exactly one unless x was ever read without a subscription. */
  predicate CreditOk(v: View) {
    v.x.phase == Listed && v.y.phase == Listed ==>
      Credit(v) >= 1 && (!v.x.forced ==> Credit(v) == 1)
  }

  /** What x received is what y sent: all of it with what is in flight, and a prefix of it once x is closed. */
  predicate Faithful(v: View) {
    && (v.x.phase == Listed ==> v.x.wrote + v.x.queue + v.inn.payload == v.y.sent)
    && v.x.wrote + v.x.queue <= v.y.sent
    && (v.x.finned ==> v.x.phase != Listed && v.y.phase != Listed && v.x.wrote + v.x.queue == v.y.sent)
  }

  predicate Half(v: View) {
    SockOk(v.x) && NotHalfOpen(v) && CreditOk(v) && Faithful(v)
  }

  predicate Inv(v: View) {
    Half(v) && Half(v.Swap())
  }

  // ----- every handler at x keeps the invariant

  lemma SendKeeps(v: View, p: Packet)
    requires Inv(v) && v.x.phase == Listed && v.x.peer.Remote? && p.cmd == WRTE && p.data != []
    ensures Inv(View(v.x.(sent := v.x.sent + p.data, reading := false, forced := v.x.forced || !v.x.reading),
                     v.y, Add(v.out, p), v.inn))
  {
    assert v.y.wrote + v.y.queue + (v.out.payload + p.data) == v.y.wrote + v.y.queue + v.out.payload + p.data;
  }

  lemma CloseKeeps(v: View, p: Packet)
    requires Inv(v) && v.x.phase == Listed && p.cmd == CLSE
    ensures Inv(View(Close(v.x), v.y, if v.x.peer == NoPeer then v.out else Add(v.out, p), v.inn))
  {
  }

  lemma ReadKeeps(v: View, i: nat, data: Bytes, eof: bool)
    requires Inv(v) && v.x.phase == Listed
    ensures
      var (c, out) := OnReadable(i, v.x, data, eof);
      Inv(View(c, v.y, AddAll(v.out, out), v.inn))
  {
    var r := if v.x.peer.Remote? then v.x.peer.id else 0;
    var w, k := Packet(WRTE, i, r, data), Packet(CLSE, i, r, []);
    AddTwo(v.out, w, k);
    AddTwo(v.out, k, k);
    if data != [] && v.x.peer.Remote? {
      SendKeeps(v, w);
      if eof {
        CloseKeeps(View(OnReadable(i, v.x, data, false).0, v.y, Add(v.out, w), v.inn), k);
      }
    } else if eof {
      CloseKeeps(v, k);
    }
  }

  lemma FlushMoves(c: Conn, o: WriteResult)
    requires Plausible(o, c.queue)
    ensures Flush(c, o).0.wrote + Flush(c, o).0.queue == c.wrote + c.queue
  {
    if o.Wrote? && o.n < |c.queue| {
      assert c.wrote + c.queue[..o.n] + c.queue[o.n..] == c.wrote + c.queue;
    }
  }

  /** Flow control after a flush, with nothing said of the bytes. */
  lemma WriteFlow(v: View, o: WriteResult, k: Packet)
    requires Inv(v) && v.x.writing && Plausible(o, v.x.queue) && k.cmd == OKAY
    ensures
      var (c, res) := Flush(v.x, o);
      var v' := View(c, v.y, if res == Completed && v.x.peer.Remote? then Add(v.out, k) else v.out, v.inn);
      && SockOk(c) && NotHalfOpen(v') && NotHalfOpen(v'.Swap()) && CreditOk(v') && CreditOk(v'.Swap())
  {
    hide Faithful;
  }

  lemma WriteBytes(v: View, o: WriteResult, k: Packet)
    requires Faithful(v) && Faithful(v.Swap()) && SockOk(v.x) && v.x.writing && Plausible(o, v.x.queue) && k.cmd == OKAY
    ensures
      var (c, res) := Flush(v.x, o);
      var v' := View(c, v.y, if res == Completed && v.x.peer.Remote? then Add(v.out, k) else v.out, v.inn);
      Faithful(v') && Faithful(v'.Swap())
  {
    FlushMoves(v.x, o);
  }

  lemma WriteKeeps(v: View, i: nat, o: WriteResult)
    requires Inv(v) && v.x.writing && Plausible(o, v.x.queue)
    ensures
      var (c, out) := OnWritable(i, v.x, o);
      Inv(View(c, v.y, AddAll(v.out, out), v.inn))
  {
    var k := Packet(OKAY, i, if v.x.peer.Remote? then v.x.peer.id else 0, []);
    AddTwo(v.out, k, k);
    WriteFlow(v, o, k);
    WriteBytes(v, o, k);
    hide SockOk, NotHalfOpen, CreditOk, Faithful, Flush;
  }

  /** A hangup on a socket of the closing list: its read finds end of file and destroys it. */
  lemma HangupKeeps(v: View)
    requires Inv(v) && v.x.phase == Closing
    ensures Inv(View(Close(v.x), v.y, v.out, v.inn))
  {
  }

  lemma OkayKeeps(v: View, p: Packet, rest: Flow, k: Packet)
    requires Inv(v) && v.inn == Front(p, rest) && p.cmd == OKAY && k.cmd == CLSE
    ensures v.x.phase != Listed ==> Inv(View(v.x, v.y, Add(v.out, k), rest))
    ensures v.x.phase == Listed ==> forall r :: v.x.peer in {NoPeer, Remote(r)} ==>
      Inv(View(v.x.(peer := Remote(r), reading := true), v.y, v.out, rest))
  {
  }

  lemma ClseKeeps(v: View, p: Packet, rest: Flow, k: Packet)
    requires Inv(v) && v.inn == Front(p, rest) && p.cmd == CLSE && k.cmd == CLSE
    ensures v.x.phase != Listed ==> Inv(View(v.x, v.y, v.out, rest))
    ensures v.x.phase == Listed ==>
      v.x.peer.Remote? && Inv(View(Close(v.x).(finned := true), v.y, Add(v.out, k), rest))
  {
  }

  /** Flow control after a WRTE was queued and flushed, with nothing said of the bytes. */
  lemma WrteFlow(v: View, p: Packet, rest: Flow, o: WriteResult, k: Packet)
    requires Inv(v) && v.inn == Front(p, rest) && p.cmd == WRTE && k.cmd == OKAY
    requires p.data != [] && Plausible(o, v.x.queue + p.data) && v.x.phase == Listed
    ensures
      var (d, res) := Flush(v.x.(queue := v.x.queue + p.data), o);
      var v' := View(d, v.y, if res == Completed then Add(v.out, k) else v.out, rest);
      && v.x.peer.Remote? && SockOk(d)
      && NotHalfOpen(v') && NotHalfOpen(v'.Swap()) && CreditOk(v') && CreditOk(v'.Swap())
  {
    hide Faithful;
  }

  lemma WrteBytes(v: View, p: Packet, rest: Flow, o: WriteResult, k: Packet)
    requires Faithful(v) && Faithful(v.Swap()) && v.inn == Front(p, rest) && p.cmd == WRTE && k.cmd == OKAY
    requires p.data != [] && Plausible(o, v.x.queue + p.data) && v.x.phase == Listed
    ensures
      var (d, res) := Flush(v.x.(queue := v.x.queue + p.data), o);
      var v' := View(d, v.y, if res == Completed then Add(v.out, k) else v.out, rest);
      Faithful(v') && Faithful(v'.Swap())
  {
    FlushMoves(v.x.(queue := v.x.queue + p.data), o);
    assert v.x.wrote + v.x.queue + (p.data + rest.payload) == v.x.wrote + (v.x.queue + p.data) + rest.payload;
  }

  lemma WrteStale(v: View, p: Packet, rest: Flow)
    requires Inv(v) && v.inn == Front(p, rest) && p.cmd == WRTE && v.x.phase != Listed
    ensures Inv(View(v.x, v.y, v.out, rest))
  {
  }

  lemma WrteKeeps(v: View, p: Packet, rest: Flow, o: WriteResult, k: Packet)
    requires Inv(v) && v.inn == Front(p, rest) && p.cmd == WRTE && k.cmd == OKAY
    requires p.data != [] && Plausible(o, v.x.queue + p.data)
    ensures v.x.phase != Listed ==> Inv(View(v.x, v.y, v.out, rest))
    ensures v.x.phase == Listed ==>
      var (d, res) := Flush(v.x.(queue := v.x.queue + p.data), o);
      v.x.peer.Remote? && Inv(View(d, v.y, if res == Completed then Add(v.out, k) else v.out, rest))
  {
    hide SockOk, NotHalfOpen, CreditOk, Faithful, Flush;
    if v.x.phase == Listed {
      WrteFlow(v, p, rest, o, k);
      WrteBytes(v, p, rest, o, k);
    } else {
      WrteStale(v, p, rest);
    }
  }

  lemma PacketKeeps(v: View, i: nat, j: nat, p: Packet, rest: Flow, o: WriteResult)
    requires Inv(v) && v.inn == Front(p, rest) && p.cmd != OPEN && p.arg0 == j != 0
    requires v.x.peer in {NoPeer, Remote(j)}
    requires p.cmd == WRTE ==> p.data != [] && Plausible(o, v.x.queue + p.data)
    ensures
      var (c, out) := OnPacket(i, v.x, p, o);
      Inv(View(c, v.y, AddAll(v.out, out), rest))
  {
    var k, a := Packet(CLSE, i, j, []), Packet(OKAY, i, j, []);
    AddTwo(v.out, k, k);
    AddTwo(v.out, a, a);
    match p.cmd
    case OKAY => OkayKeeps(v, p, rest, k);
    case CLSE => ClseKeeps(v, p, rest, k);
    case WRTE => WrteKeeps(v, p, rest, o, a);
  }
}
