/**
 The same runs seen from outside: what the fd of a socket yielded and what it took, read off the events alone. The
 histories that sockets keep agree with it, so bytes arrive from fd to fd.
 */
module FdHistory {
  import opened Seqs
  import opened Wire
  import opened Asocket
  import opened Stream
  import opened Network
  import opened StreamTheorems

  /** The network with the endpoint where something happens first. */
  function At(n: Net, atB: bool): Net {
    if atB then n.Swap() else n
  }

  // ----- what an event means for the fd of socket i of endpoint k.a

  /** The bytes its fd yields, while there is a peer to hand them to. */
  function Yields(k: Net, ev: Event, i: nat): Bytes {
    if (ev.Readable? || ev.Hangup?) && ev.id == i && i in k.a && k.a[i].peer.Remote? then ev.data else []
  }

  /** A WRTE that finds socket i. */
  predicate Reaches(k: Net, ev: Event, i: nat) {
    && ev.Deliver? && k.ba != [] && i in k.a && i != 0
    && var p := k.ba[0];
       p.cmd == WRTE && p.arg0 != 0 && p.arg1 == i && k.a[i].phase == Listed && k.a[i].peer == Remote(p.arg0)
  }

  /** What its fd is offered. */
  function Offered(k: Net, ev: Event, i: nat): Bytes {
    if ev.Writable? && ev.id == i && i in k.a then k.a[i].queue
    else if Reaches(k, ev, i) then k.a[i].queue + k.ba[0].data
    else []
  }

  function Answer(ev: Event): WriteResult {
    if ev.Writable? || ev.Deliver? then ev.o else Again
  }

  /** The bytes its fd takes: the first ones offered, as many as writev says. */
  function Takes(k: Net, ev: Event, i: nat): Bytes {
    var q, o := Offered(k, ev, i), Answer(ev);
    if q != [] && o.Wrote? && o.n <= |q| then q[..o.n] else []
  }

  /** A write that fails. */
  predicate Fails(k: Net, ev: Event, i: nat) {
    Offered(k, ev, i) != [] && Answer(ev) == Failed
  }

  /** A CLSE that closes it for its peer. */
  predicate Fins(k: Net, ev: Event, i: nat) {
    && ev.Deliver? && k.ba != [] && i in k.a && i != 0 && k.a[i].phase == Listed && k.a[i].peer.Remote?
    && var p := k.ba[0];
       p.cmd == CLSE && p.arg1 == i && (p.arg0 == 0 || k.a[i].peer == Remote(p.arg0))
  }

  // ----- over a run, at the side atB

  function Yielded(n: Net, run: seq<Move>, atB: bool, i: nat): Bytes
    requires IsRun(n, run)
    decreases |run|
  {
    if run == [] then []
    else
      var now := if run[0].atB == atB then Yields(At(n, atB), run[0].ev, i) else [];
      now + Yielded(DoMove(n, run[0]), run[1..], atB, i)
  }

  function Taken(n: Net, run: seq<Move>, atB: bool, i: nat): Bytes
    requires IsRun(n, run)
    decreases |run|
  {
    if run == [] then []
    else
      var now := if run[0].atB == atB then Takes(At(n, atB), run[0].ev, i) else [];
      now + Taken(DoMove(n, run[0]), run[1..], atB, i)
  }

  predicate EverFailed(n: Net, run: seq<Move>, atB: bool, i: nat)
    requires IsRun(n, run)
    decreases |run|
  {
    run != [] &&
    ((run[0].atB == atB && Fails(At(n, atB), run[0].ev, i)) || EverFailed(DoMove(n, run[0]), run[1..], atB, i))
  }

  predicate EverFinned(n: Net, run: seq<Move>, atB: bool, i: nat)
    requires IsRun(n, run)
    decreases |run|
  {
    run != [] &&
    ((run[0].atB == atB && Fins(At(n, atB), run[0].ev, i)) || EverFinned(DoMove(n, run[0]), run[1..], atB, i))
  }

  // ----- one event

  lemma FlushTakes(c: Conn, o: WriteResult)
    requires Plausible(o, c.queue)
    ensures
      var d := Flush(c, o).0;
      && d.wrote == c.wrote + (if c.queue != [] && o.Wrote? then c.queue[..o.n] else [])
      && (d.broken <==> c.broken || (c.queue != [] && o == Failed))
      && d.sent == c.sent && d.finned == c.finned
  {
    hide Close;
    CloseTakes(c);
    CloseTakes(c.(broken := true));
    CloseTakes(c.(wrote := c.wrote + c.queue, queue := []));
    assert c.wrote + [] == c.wrote;
    assert o.Wrote? && c.queue != [] && o.n == |c.queue| ==> c.queue[..o.n] == c.queue;
  }

  lemma CloseTakes(c: Conn)
    ensures
      var d := Close(c);
      d.wrote == c.wrote && d.broken == c.broken && d.sent == c.sent && d.finned == c.finned
  {
  }

  /** The history of a socket after an event, by what happened at its fd. */
  predicate Recorded(c: Conn, d: Conn, gave: Bytes, took: Bytes, failed: bool, fin: bool) {
    && d.sent == c.sent + gave && d.wrote == c.wrote + took
    && (d.broken <==> c.broken || failed) && (d.finned <==> c.finned || fin)
  }

  lemma ReadRecorded(i: nat, c: Conn, data: Bytes, eof: bool)
    ensures Recorded(c, OnReadable(i, c, data, eof).0, if c.peer.Remote? then data else [], [], false, false)
  {
    assert c.sent + [] == c.sent && c.wrote + [] == c.wrote;
  }

  lemma WriteRecorded(i: nat, c: Conn, o: WriteResult)
    requires Plausible(o, c.queue)
    ensures
      Recorded(c, OnWritable(i, c, o).0, [], if c.queue != [] && o.Wrote? then c.queue[..o.n] else [],
               c.queue != [] && o == Failed, false)
  {
    hide Flush;
    FlushTakes(c, o);
    assert c.sent + [] == c.sent;
  }

  /** A packet other than an OPEN, addressed to i. */
  lemma PacketRecorded(i: nat, c: Conn, p: Packet, o: WriteResult)
    requires p.cmd == WRTE ==> Plausible(o, c.queue + p.data)
    requires c.phase == Listed ==> !c.finned
    ensures
      var found := c.phase == Listed && p.cmd == WRTE && p.arg0 != 0 && c.peer == Remote(p.arg0);
      var q := if found then c.queue + p.data else [];
      Recorded(c, OnPacket(i, c, p, o).0, [], if q != [] && o.Wrote? then q[..o.n] else [], q != [] && o == Failed,
               p.cmd == CLSE && c.phase == Listed && c.peer.Remote? && (p.arg0 == 0 || c.peer == Remote(p.arg0)))
  {
    hide Flush;
    assert c.sent + [] == c.sent && c.wrote + [] == c.wrote;
    if p.cmd == WRTE {
      FlushTakes(c.(queue := c.queue + p.data), o);
    }
  }

  lemma NothingRecorded(c: Conn)
    ensures Recorded(c, c, [], [], false, false)
  {
    assert c.sent + [] == c.sent && c.wrote + [] == c.wrote;
  }

  lemma ReadEvent(k: Net, ev: Event, i: nat)
    requires Enabled(k, ev) && i in k.a && (ev.Readable? || ev.Hangup?)
    ensures
      var k' := Step(k, ev);
      i in k'.a && Recorded(k.a[i], k'.a[i], Yields(k, ev, i), Takes(k, ev, i), Fails(k, ev, i), Fins(k, ev, i))
  {
    NothingRecorded(k.a[i]);
    ReadRecorded(i, k.a[i], ev.data, ev.eof);
    hide OnReadable, Recorded;
  }

  lemma WriteEvent(k: Net, ev: Event, i: nat)
    requires Enabled(k, ev) && i in k.a && ev.Writable?
    ensures
      var k' := Step(k, ev);
      i in k'.a && Recorded(k.a[i], k'.a[i], Yields(k, ev, i), Takes(k, ev, i), Fails(k, ev, i), Fins(k, ev, i))
  {
    NothingRecorded(k.a[i]);
    if ev.id == i {
      WriteRecorded(i, k.a[i], ev.o);
    }
    hide OnWritable, Recorded;
  }

  lemma DeliverEvent(k: Net, ev: Event, i: nat)
    requires Enabled(k, ev) && i in k.a && ev.Deliver? && (k.a[i].phase == Listed ==> !k.a[i].finned)
    ensures
      var k' := Step(k, ev);
      i in k'.a && Recorded(k.a[i], k'.a[i], Yields(k, ev, i), Takes(k, ev, i), Fails(k, ev, i), Fins(k, ev, i))
  {
    var p := k.ba[0];
    NothingRecorded(k.a[i]);
    hide OnPacket, Recorded;
    if p.cmd != OPEN && p.arg1 == i && i != 0 {
      PacketRecorded(i, k.a[i], p, ev.o);
      assert Step(k, ev).a[i] == OnPacket(i, k.a[i], p, ev.o).0;
      hide Step;
    } else {
      assert Step(k, ev).a[i] == k.a[i];
      hide Step;
    }
  }

  /** What an event does to the history of every socket there is. */
  lemma EventRecorded(k: Net, ev: Event, i: nat)
    requires NetInv(k) && Enabled(k, ev) && i in k.a
    ensures
      var k' := Step(k, ev);
      i in k'.a && Recorded(k.a[i], k'.a[i], Yields(k, ev, i), Takes(k, ev, i), Fails(k, ev, i), Fins(k, ev, i))
  {
    hide NetInv, OnReadable, OnWritable, OnPacket, HandlePacket;
    match ev
    case Connect(_) => NothingRecorded(k.a[i]);
    case Readable(_, _, _) => hide Step; ReadEvent(k, ev, i);
    case Hangup(_, _, _) => hide Step; ReadEvent(k, ev, i);
    case Writable(_, _) => hide Step; WriteEvent(k, ev, i);
    case Deliver(_, _) => hide Step; NotFinned(k, i); DeliverEvent(k, ev, i);
  }

  lemma NotFinned(k: Net, i: nat)
    requires NetInv(k) && i in k.a
    ensures k.a[i].phase == Listed ==> !k.a[i].finned
  {
    AboutSocket(k, i);
    if i in k.mateA {
      NotFinnedIn(StreamOf(k, i));
    }
  }

  lemma NotFinnedIn(v: View)
    requires Inv(v)
    ensures v.x.phase == Listed ==> !v.x.finned
  {
  }

  /** A new socket has no history, and nothing happened at its fd. */
  lemma NewRecorded(k: Net, ev: Event, i: nat)
    requires Enabled(k, ev) && i !in k.a
    ensures Yields(k, ev, i) == [] && Takes(k, ev, i) == [] && !Fails(k, ev, i) && !Fins(k, ev, i)
    ensures i in Step(k, ev).a ==>
      var c := Step(k, ev).a[i];
      c.sent == [] && c.wrote == [] && !c.broken && !c.finned
  {
    hide OnReadable, OnWritable, OnPacket;
  }

  /** The other side does nothing to it. */
  lemma OtherSide(k: Net, ev: Event)
    requires Enabled(k, ev)
    ensures Step(k, ev).b == k.b
  {
    hide OnReadable, OnWritable, OnPacket, HandlePacket;
  }

  // ----- runs

  /** From c on, run has recorded what happened at the fd. */
  predicate Kept(n: Net, run: seq<Move>, atB: bool, i: nat, c: Conn, d: Conn)
    requires IsRun(n, run)
  {
    Recorded(c, d, Yielded(n, run, atB, i), Taken(n, run, atB, i), EverFailed(n, run, atB, i),
             EverFinned(n, run, atB, i))
  }

  const BLANK := FRESH

  /** The socket of id i, or one without history if there is none yet. */
  function Sock(n: Net, atB: bool, i: nat): Conn {
    if i in At(n, atB).a then At(n, atB).a[i] else BLANK
  }

  lemma MoveRecorded(n: Net, m: Move, atB: bool, i: nat)
    requires NetInv(n) && CanMove(n, m)
    ensures
      var k := At(n, atB);
      if m.atB == atB then
        Recorded(Sock(n, atB, i), Sock(DoMove(n, m), atB, i), Yields(k, m.ev, i), Takes(k, m.ev, i), Fails(k, m.ev, i),
                 Fins(k, m.ev, i))
      else Sock(DoMove(n, m), atB, i) == Sock(n, atB, i)
  {
    hide Recorded, Yields, Takes, Fails, Fins, HalfInv;
    if m.atB != atB {
      hide Step;
      OtherSide(At(n, m.atB), m.ev);
    } else if i in At(n, atB).a {
      hide Step;
      EventRecorded(At(n, atB), m.ev, i);
    } else {
      hide Step;
      NewRecorded(At(n, atB), m.ev, i);
      BlankRecorded(Sock(DoMove(n, m), atB, i));
    }
  }

  lemma BlankRecorded(d: Conn)
    requires d.sent == [] && d.wrote == [] && !d.broken && !d.finned
    ensures Recorded(BLANK, d, [], [], false, false)
  {
  }

  lemma RecordedThen(c: Conn, d: Conn, e: Conn, g: Bytes, t: Bytes, x: bool, f: bool,
                     g': Bytes, t': Bytes, x': bool, f': bool)
    requires Recorded(c, d, g, t, x, f) && Recorded(d, e, g', t', x', f')
    ensures Recorded(c, e, g + g', t + t', x || x', f || f')
  {
    Assoc(c.sent, g, g');
    Assoc(c.wrote, t, t');
  }

  lemma {:induction false} RunRecorded(n: Net, run: seq<Move>, atB: bool, i: nat)
    requires NetInv(n) && IsRun(n, run)
    ensures Kept(n, run, atB, i, Sock(n, atB, i), Sock(Final(n, run), atB, i))
    decreases |run|
  {
    if run == [] {
      NothingRecorded(Sock(n, atB, i));
    } else {
      var m, n1 := run[0], DoMove(n, run[0]);
      var k := At(n, atB);
      MoveKeeps(n, m);
      MoveRecorded(n, m, atB, i);
      RunRecorded(n1, run[1..], atB, i);
      hide Recorded, NetInv, DoMove, CanMove, Sock;
      if m.atB == atB {
        RecordedThen(Sock(n, atB, i), Sock(n1, atB, i), Sock(Final(n, run), atB, i),
                     Yields(k, m.ev, i), Takes(k, m.ev, i), Fails(k, m.ev, i), Fins(k, m.ev, i),
                     Yielded(n1, run[1..], atB, i), Taken(n1, run[1..], atB, i), EverFailed(n1, run[1..], atB, i),
                     EverFinned(n1, run[1..], atB, i));
      } else {
        assert [] + Yielded(n1, run[1..], atB, i) == Yielded(n1, run[1..], atB, i);
        assert [] + Taken(n1, run[1..], atB, i) == Taken(n1, run[1..], atB, i);
      }
    }
  }

  // ----- from fd to fd

  /** The histories that a socket keeps are what happened at its fd since start-up. */
  lemma HistoriesAreTrue(run: seq<Move>, atB: bool, i: nat)
    requires IsRun(INIT, run) && i in At(Final(INIT, run), atB).a
    ensures
      var c := At(Final(INIT, run), atB).a[i];
      && c.sent == Yielded(INIT, run, atB, i) && c.wrote == Taken(INIT, run, atB, i)
      && (c.broken <==> EverFailed(INIT, run, atB, i)) && (c.finned <==> EverFinned(INIT, run, atB, i))
  {
    assert NetInv(INIT);
    RunRecorded(INIT, run, atB, i);
    hide IsRun, Final, Yielded, Taken, EverFailed, EverFinned;
    var c := At(Final(INIT, run), atB).a[i];
    assert [] + Yielded(INIT, run, atB, i) == Yielded(INIT, run, atB, i);
    assert [] + Taken(INIT, run, atB, i) == Taken(INIT, run, atB, i);
  }

  /**
   What the fd of i took is always a prefix of what the fd of its mate j yielded. While i is listed the rest is
   queued or in flight, and once j's CLSE has closed i the rest is queued.
   */
  lemma FdToFd(run: seq<Move>, i: nat)
    requires IsRun(INIT, run) && i in Final(INIT, run).mateA
    ensures
      var n := Final(INIT, run);
      && i in n.a && n.mateA[i] in n.b
      && var j := n.mateA[i];
         var (out, inn) := (Taken(INIT, run, false, i), Yielded(INIT, run, true, j));
      && out <= inn
      && (n.a[i].phase == Listed ==> out + n.a[i].queue + Sum(On(n.ba, j, i)).payload == inn)
      && (EverFinned(INIT, run, false, i) ==> out + n.a[i].queue == inn)
  {
    var n := Final(INIT, run);
    assert Reachable(n);
    hide IsRun, Final, Yielded, Taken, EverFinned, Reachable;
    StreamFidelity(n, i);
    HistoriesAreTrue(run, false, i);
    HistoriesAreTrue(run, true, n.mateA[i]);
  }

  // ----- closing

  /** What closes a listed socket: the end of its fd, or a CLSE that finds it. */
  predicate Ends(k: Net, ev: Event, i: nat) {
    || ((ev.Readable? || ev.Hangup?) && ev.id == i && ev.eof)
    || (ev.Deliver? && k.ba != [] && i != 0 && i in k.a
        && var p := k.ba[0];
           p.cmd == CLSE && p.arg1 == i && (p.arg0 == 0 || k.a[i].peer == Remote(p.arg0)))
  }

  /** A closed socket is destroyed at once exactly if it has nothing left to write or cannot write. */
  predicate ClosedAs(c: Conn, d: Conn) {
    && d.queue == c.queue && d.wrote == c.wrote && d.broken == c.broken && d.peer == NoPeer && !d.reading
    && d.phase == (if c.queue == [] || c.broken then Gone else Closing)
    && (d.phase == Closing ==> d.writing == c.writing) && (d.phase == Gone ==> !d.writing)
  }

  lemma CloseAs(c: Conn)
    requires c.phase == Listed
    ensures ClosedAs(c, Close(c))
  {
  }

  lemma ReadCloses(i: nat, c: Conn, data: Bytes, eof: bool)
    requires c.phase == Listed
    ensures var d := OnReadable(i, c, data, eof).0; if eof then ClosedAs(c, d) else d.phase == Listed
  {
    CloseAs(c);
    CloseAs(c.(sent := c.sent + data, reading := false, forced := c.forced || !c.reading));
    hide Close;
  }

  lemma FlushStaysListed(c: Conn, o: WriteResult)
    requires Plausible(o, c.queue) && c.phase == Listed
    ensures Flush(c, o).0.phase == Listed
  {
  }

  lemma PacketCloses(i: nat, c: Conn, p: Packet, o: WriteResult)
    requires c.phase == Listed && (p.cmd == WRTE ==> Plausible(o, c.queue + p.data))
    ensures
      var d := OnPacket(i, c, p, o).0;
      if p.cmd == CLSE && (p.arg0 == 0 || c.peer == Remote(p.arg0)) then ClosedAs(c, d) else d.phase == Listed
  {
    CloseAs(c);
    hide Close, Flush;
    if p.cmd == WRTE {
      FlushStaysListed(c.(queue := c.queue + p.data), o);
    }
  }

  /**
   In every state, a listed socket is closed by an event exactly if its fd ends or a CLSE finds it. It then waits on
   the closing list with all its queue, exactly if there is a queue and no write has failed; else it is destroyed.
   */
  lemma CloseDecides(k: Net, ev: Event, i: nat)
    requires Enabled(k, ev) && i in k.a && k.a[i].phase == Listed
    ensures
      var k' := Step(k, ev);
      i in k'.a && if Ends(k, ev, i) then ClosedAs(k.a[i], k'.a[i]) else k'.a[i].phase == Listed
  {
    hide OnReadable, OnPacket, Flush, ClosedAs;
    match ev
    case Connect(_) =>
    case Readable(j, data, eof) => ReadCloses(i, k.a[i], data, eof);
    case Hangup(j, data, eof) => ReadCloses(i, k.a[i], data, eof);
    case Writable(j, o) => if j == i { FlushStaysListed(k.a[i], o); }
    case Deliver(svc, o) =>
      if k.ba[0].cmd != OPEN && k.ba[0].arg1 == i {
        PacketCloses(i, k.a[i], k.ba[0], o);
      }
  }

  /** A hangup of a closing socket at end of file. */
  predicate CutsOff(k: Net, ev: Event, i: nat) {
    ev.Hangup? && ev.id == i && ev.eof && i in k.a && k.a[i].phase == Closing
  }

  predicate EverCutOff(n: Net, run: seq<Move>, atB: bool, i: nat)
    requires IsRun(n, run)
    decreases |run|
  {
    run != [] &&
    ((run[0].atB == atB && CutsOff(At(n, atB), run[0].ev, i)) || EverCutOff(DoMove(n, run[0]), run[1..], atB, i))
  }

  /** Bytes are left behind only by a failed write or a hangup that cut the socket off. */
  predicate LeftBehind(c: Conn, failed: bool, cut: bool) {
    c.phase == Gone && c.queue != [] ==> failed || cut
  }

  lemma FlushLeaves(c: Conn, o: WriteResult)
    requires Plausible(o, c.queue) && SockOk(c)
    ensures LeftBehind(Flush(c, o).0, Flush(c, o).0.broken, c.phase == Gone)
  {
  }

  lemma ListedLeaves(k: Net, ev: Event, i: nat)
    requires Enabled(k, ev) && i in k.a && k.a[i].phase == Listed
    ensures
      var k' := Step(k, ev);
      i in k'.a && LeftBehind(k'.a[i], k'.a[i].broken, false)
  {
    CloseDecides(k, ev, i);
    hide Step, Ends;
  }

  lemma ClosingLeaves(k: Net, ev: Event, i: nat)
    requires Enabled(k, ev) && i in k.a && k.a[i].phase == Closing && SockOk(k.a[i])
    ensures
      var k' := Step(k, ev);
      i in k'.a && LeftBehind(k'.a[i], k'.a[i].broken, CutsOff(k, ev, i))
  {
    hide OnReadable, OnPacket, Flush;
    match ev
    case Connect(_) =>
    case Readable(_, _, _) =>
    case Hangup(j, data, eof) => ClosingReads(i, k.a[i], data, eof);
    case Writable(j, o) => if j == i { FlushLeaves(k.a[i], o); }
    case Deliver(svc, o) =>
      if k.ba[0].cmd != OPEN && k.ba[0].arg1 == i {
        ClosingIgnores(i, k.a[i], k.ba[0], o);
      }
  }

  lemma GoneIgnores(i: nat, c: Conn, p: Packet, o: WriteResult)
    requires c.phase == Gone && (p.cmd == WRTE ==> Plausible(o, c.queue + p.data))
    ensures OnPacket(i, c, p, o).0 == c
  {
  }

  lemma GoneStays(k: Net, ev: Event, i: nat)
    requires Enabled(k, ev) && i in k.a && k.a[i].phase == Gone && SockOk(k.a[i])
    ensures i in Step(k, ev).a && Step(k, ev).a[i] == k.a[i]
  {
    hide OnReadable, OnPacket, OnWritable;
    if ev.Deliver? && k.ba[0].cmd != OPEN && k.ba[0].arg1 == i {
      GoneIgnores(i, k.a[i], k.ba[0], ev.o);
    }
  }

  lemma EventLeaves(k: Net, ev: Event, i: nat)
    requires NetInv(k) && Enabled(k, ev) && i in k.a && k.a[i].phase != Gone
    ensures
      var k' := Step(k, ev);
      i in k'.a && LeftBehind(k'.a[i], k'.a[i].broken, CutsOff(k, ev, i))
  {
    hide NetInv, Inv, Step, Enabled, SockOk;
    AboutSocket(k, i);
    if k.a[i].phase == Listed {
      ListedLeaves(k, ev, i);
    } else {
      ClosingLeaves(k, ev, i);
    }
  }

  lemma MoveLeaves(n: Net, m: Move, atB: bool, i: nat, cut: bool)
    requires NetInv(n) && CanMove(n, m) && LeftBehind(Sock(n, atB, i), Sock(n, atB, i).broken, cut)
    ensures
      var d := Sock(DoMove(n, m), atB, i);
      LeftBehind(d, d.broken, cut || (m.atB == atB && CutsOff(At(n, atB), m.ev, i)))
  {
    hide CutsOff, HalfInv, SockOk, Inv;
    if m.atB != atB {
      hide Step;
      OtherSide(At(n, m.atB), m.ev);
    } else if i !in At(n, atB).a {
      NewListed(At(n, atB), m.ev, i);
      hide Step;
    } else if At(n, atB).a[i].phase == Gone {
      hide Step;
      AboutSocket(At(n, atB), i);
      GoneStays(At(n, atB), m.ev, i);
    } else {
      hide Step;
      EventLeaves(At(n, atB), m.ev, i);
    }
  }

  lemma NewListed(k: Net, ev: Event, i: nat)
    requires Enabled(k, ev) && i !in k.a
    ensures i in Step(k, ev).a ==> Step(k, ev).a[i].phase == Listed
  {
    hide OnReadable, OnWritable, OnPacket;
  }

  lemma {:induction false} RunLeaves(n: Net, run: seq<Move>, atB: bool, i: nat, cut: bool)
    requires NetInv(n) && IsRun(n, run) && LeftBehind(Sock(n, atB, i), Sock(n, atB, i).broken, cut)
    ensures
      var d := Sock(Final(n, run), atB, i);
      LeftBehind(d, d.broken, cut || EverCutOff(n, run, atB, i))
    decreases |run|
  {
    if run != [] {
      MoveKeeps(n, run[0]);
      MoveLeaves(n, run[0], atB, i, cut);
      hide NetInv, DoMove, CanMove, Sock, LeftBehind, CutsOff;
      RunLeaves(DoMove(n, run[0]), run[1..], atB, i,
                cut || (run[0].atB == atB && CutsOff(At(n, atB), run[0].ev, i)));
    }
  }

  /**
   A stream that its sender ended is delivered whole: once j's CLSE has closed i and i is destroyed, the fd of i took
   exactly what the fd of j yielded, unless a write to it failed or a hangup cut it off.
   */
  lemma DeliveredWhole(run: seq<Move>, i: nat)
    requires IsRun(INIT, run) && i in Final(INIT, run).mateA && i in Final(INIT, run).a
    requires EverFinned(INIT, run, false, i) && Final(INIT, run).a[i].phase == Gone
    requires !EverFailed(INIT, run, false, i) && !EverCutOff(INIT, run, false, i)
    ensures Taken(INIT, run, false, i) == Yielded(INIT, run, true, Final(INIT, run).mateA[i])
  {
    assert NetInv(INIT);
    FdToFd(run, i);
    HistoriesAreTrue(run, false, i);
    RunLeaves(INIT, run, false, i, false);
    hide IsRun, Final, Yielded, Taken, EverFinned, EverFailed, EverCutOff;
    var out := Taken(INIT, run, false, i);
    assert out + [] == out;
  }
}
