/**
 What every run of two endpoints from start-up guarantees. Each theorem speaks of
 endpoint a; the same holds of endpoint b, since a run read from the other side is a run.
 */
module StreamTheorems {
  import opened Seqs
  import opened Wire
  import opened Asocket
  import opened Stream
  import opened Network

  ghost predicate Reachable(n: Net) {
    exists run :: IsRun(INIT, run) && Final(INIT, run) == n
  }

  lemma ReachableInv(n: Net)
    requires Reachable(n)
    ensures NetInv(n)
  {
    var run :| IsRun(INIT, run) && Final(INIT, run) == n;
    RunKeeps(INIT, run);
  }

  predicate Live(e: Endpoint, i: nat) {
    i in e && e[i].phase == Listed
  }

  ghost predicate Sent(ch: seq<Packet>, c: Command, l: nat, r: nat) {
    exists p :: p in ch && p.cmd == c && p.arg0 == l && p.arg1 == r
  }

  /** A count in the summary of a projection is witnessed by a packet of the channel. */
  lemma {:induction false} Witness(ch: seq<Packet>, l: nat, r: nat)
    ensures Sum(On(ch, l, r)).okay > 0 ==> Sent(ch, OKAY, l, r)
    ensures Sum(On(ch, l, r)).clse > 0 ==> Sent(ch, CLSE, l, r)
    ensures Sum(On(ch, l, r)).first == Some(OKAY) ==> Sent(ch, OKAY, l, r)
  {
    if ch != [] {
      Witness(ch[1..], l, r);
      assert forall p :: p in ch[1..] ==> p in ch;
      assert ch[0] in ch;
      if Addressed(ch[0], l, r) {
        assert ([ch[0]] + On(ch[1..], l, r))[1..] == On(ch[1..], l, r);
      } else {
        assert [] + On(ch[1..], l, r) == On(ch[1..], l, r);
      }
    }
  }

  /**
   No half-open streams. A listed socket that is paired with remote id j has a live counterpart that is
   paired back, or one whose pairing OKAY is in flight, or none, and then a CLSE is coming, or an OKAY is
   on its way that the other side will answer with one. A listed socket that is not paired is an opener
   whose OPEN, refusal or first OKAY is in flight.
   */
  lemma NoHalfOpen(n: Net, i: nat)
    requires Reachable(n) && Live(n.a, i)
    ensures
      match n.a[i].peer
      case Remote(j) =>
        || (Live(n.b, j) && n.b[j].peer == Remote(i))
        || (Live(n.b, j) && n.b[j].peer == NoPeer && Sent(n.ab, OKAY, i, j))
        || (!Live(n.b, j) && (Sent(n.ba, CLSE, j, i) || Sent(n.ab, OKAY, i, j)))
      case NoPeer =>
        || Sent(n.ab, OPEN, i, 0)
        || Sent(n.ba, CLSE, 0, i)
        || exists j :: Sent(n.ba, OKAY, j, i)
  {
    ReachableInv(n);
    AboutSocket(n, i);
    if i in n.mateA {
      var j := n.mateA[i];
      AboutSocket(n.Swap(), j);
      Witness(n.ab, i, j);
      Witness(n.ba, j, i);
    } else {
      AboutUnmated(n, i);
    }
  }

  lemma AboutUnmated(n: Net, i: nat)
    requires NetInv(n) && i in n.a && i !in n.mateA && n.a[i].phase == Listed
    ensures Sent(n.ab, OPEN, i, 0) || Sent(n.ba, CLSE, 0, i)
  {
    hide Inv, SockOk, StreamsOk, PacketsOk;
    assert Pending(n, i);
  }

  /**
   When both channels are empty the pairing is a bijection of the listed sockets, no opener is left
   unpaired, and in each direction of each stream some fd is subscribed that will move it on.
   */
  lemma QuietBijection(n: Net, i: nat)
    requires Reachable(n) && n.ab == [] && n.ba == [] && Live(n.a, i)
    ensures n.a[i].peer.Remote?
    ensures var j := n.a[i].peer.id; Live(n.b, j) && n.b[j].peer == Remote(i)
    ensures n.a[i].reading || n.b[n.a[i].peer.id].writing
    ensures n.b[n.a[i].peer.id].reading || n.a[i].writing
  {
    NoHalfOpen(n, i);
    ReachableInv(n);
    AboutSocket(n, i);
    InvSwaps(StreamOf(n, i));
  }

  // ----- flow control

  /** The stream of `i` is accepted and both its sockets are listed. */
  predicate Both(n: Net, i: nat) {
    i in n.mateA && Live(n.a, i) && Live(n.b, n.mateA[i])
  }

  /** Credit from i to its mate is never lost, and is exactly one unless i was ever read unsubscribed. */
  lemma CreditConserved(n: Net, i: nat)
    requires Reachable(n) && Both(n, i)
    ensures Credit(StreamOf(n, i)) >= 1
    ensures !n.a[i].forced ==> Credit(StreamOf(n, i)) == 1 && Sum(On(n.ab, i, n.mateA[i])).wrte <= 1
  {
    ReachableInv(n);
    AboutSocket(n, i);
  }

  /** A hangup makes i's handler read and send data although FDE_READ is not subscribed. */
  predicate Offends(n: Net, m: Move, i: nat) {
    && !m.atB && m.ev.Hangup? && m.ev.id == i && m.ev.data != [] && !m.ev.eof
    && Both(n, i) && n.a[i].peer.Remote? && !n.a[i].reading
  }

  predicate EverOffends(n: Net, run: seq<Move>, i: nat)
    requires IsRun(n, run)
    decreases |run|
  {
    run != [] && (Offends(n, run[0], i) || EverOffends(DoMove(n, run[0]), run[1..], i))
  }

  predicate AlwaysOne(n: Net, run: seq<Move>, i: nat)
    requires IsRun(n, run)
    decreases |run|
  {
    && (Both(n, i) ==> Credit(StreamOf(n, i)) == 1)
    && (run != [] ==> AlwaysOne(DoMove(n, run[0]), run[1..], i))
  }

  lemma OffenceBreaks(n: Net, m: Move, i: nat)
    requires NetInv(n) && CanMove(n, m) && Offends(n, m, i)
    ensures Both(DoMove(n, m), i) && Credit(StreamOf(DoMove(n, m), i)) >= 2
  {
    hide NetInv;
    var (c, out) := OnReadable(i, n.a[i], m.ev.data, m.ev.eof);
    ReadLegal(n, i, m.ev.data, m.ev.eof);
    AboutSocket(n, i);
    AboutMates(n);
    StreamsAfter(n, i, c, out, false, i);
    AddTwo(Sum(On(n.ab, i, n.mateA[i])), out[0], out[0]);
  }

  lemma AboutMates(n: Net)
    requires NetInv(n)
    ensures Mated(n) && Mated(n.Swap())
  {
  }

  /** What an event can do to a socket: nothing comes back to the list, and only a hangup forces. */
  predicate Stays(c: Conn, c': Conn, hung: bool) {
    c'.phase == Listed ==> c.phase == Listed && (c'.forced ==> c.forced || hung)
  }

  lemma FlushStays(c: Conn, o: WriteResult)
    requires Plausible(o, c.queue)
    ensures Stays(c, Flush(c, o).0, false)
  {
  }

  lemma ReadStays(i: nat, c: Conn, data: Bytes, eof: bool)
    ensures Stays(c, OnReadable(i, c, data, eof).0, data != [] && !eof && c.peer.Remote? && !c.reading)
  {
  }

  lemma PacketStays(i: nat, c: Conn, p: Packet, o: WriteResult)
    requires p.cmd == WRTE ==> Plausible(o, c.queue + p.data)
    ensures Stays(c, OnPacket(i, c, p, o).0, false)
  {
    hide Flush;
    if p.cmd == WRTE {
      FlushStays(c.(queue := c.queue + p.data), o);
    }
  }

  /** When a hangup makes socket k hand over data it was not subscribed to read. */
  predicate Forces(n: Net, ev: Event, k: nat) {
    ev.Hangup? && ev.id == k && k in n.a && ev.data != [] && !ev.eof && n.a[k].peer.Remote? && !n.a[k].reading
  }

  lemma EntryStep(n: Net, ev: Event, k: nat)
    requires Enabled(n, ev)
    ensures
      var n' := Step(n, ev);
      && n'.b == n.b
      && (k in n.a ==> k in n'.a && Stays(n.a[k], n'.a[k], Forces(n, ev, k)))
      && (k !in n.a && k in n'.a ==> !n'.a[k].forced)
  {
    hide OnReadable, OnPacket, Flush;
    match ev
    case Connect(i) =>
    case Readable(i, data, eof) => ReadStays(i, n.a[i], data, eof);
    case Hangup(i, data, eof) => ReadStays(i, n.a[i], data, eof);
    case Writable(i, o) => FlushStays(n.a[i], o);
    case Deliver(svc, o) =>
      var p := n.ba[0];
      if p.arg1 in n.a {
        PacketStays(p.arg1, n.a[p.arg1], p, o);
      }
  }

  lemma NewMate(n: Net, ev: Event, k: nat)
    requires NetInv(n) && Enabled(n, ev)
    ensures
      var n' := Step(n, ev);
      && (k in n'.mateA ==> (k in n.mateA && n'.mateA[k] == n.mateA[k]) || k !in n.a)
      && (k in n'.mateB ==>
            (k in n.mateB && n'.mateB[k] == n.mateB[k]) || (k in n.b && n.b[k] in {FRESH, Destroy(FRESH)}))
  {
    hide NetInv;
    AboutMates(n);
    if ev.Deliver? && n.ba[0].cmd == OPEN {
      AboutOpen(n);
    }
  }

  /** Any other move leaves a stream with both ends listed unforced. */
  lemma InnocentMove(n: Net, m: Move, i: nat)
    requires NetInv(n) && CanMove(n, m) && !Offends(n, m, i)
    requires Both(n, i) ==> !n.a[i].forced
    ensures Both(DoMove(n, m), i) ==> !DoMove(n, m).a[i].forced
  {
    hide HalfInv, Step;
    AboutMates(n);
    if m.atB {
      NewMate(n.Swap(), m.ev, i);
      EntryStep(n.Swap(), m.ev, i);
      if i in n.mateA {
        EntryStep(n.Swap(), m.ev, n.mateA[i]);
      }
    } else {
      NewMate(n, m.ev, i);
      EntryStep(n, m.ev, i);
    }
  }

  lemma {:induction false} ExactCredit(n: Net, run: seq<Move>, i: nat)
    requires NetInv(n) && IsRun(n, run) && (Both(n, i) ==> !n.a[i].forced)
    ensures AlwaysOne(n, run, i) <==> !EverOffends(n, run, i)
    decreases |run|
  {
    hide NetInv;
    if Both(n, i) {
      AboutSocket(n, i);
    }
    if run != [] {
      var n' := DoMove(n, run[0]);
      MoveKeeps(n, run[0]);
      if Offends(n, run[0], i) {
        OffenceBreaks(n, run[0], i);
      } else {
        InnocentMove(n, run[0], i);
        ExactCredit(n', run[1..], i);
      }
    }
  }

  /** In a run from start-up the credit of a stream is always one if and only if no hangup makes it send unasked. */
  lemma CreditIsOneIffNoForcedSend(run: seq<Move>, i: nat)
    requires IsRun(INIT, run)
    ensures AlwaysOne(INIT, run, i) <==> !EverOffends(INIT, run, i)
  {
    ExactCredit(INIT, run, i);
  }

  // ----- bytes

  /**
   What reached the fd of i is always a prefix of what its mate j handed over. While i is listed, the bytes
   written, queued and in flight are exactly those handed over. Once j's CLSE closed i, all of them
   were written or queued, and when i is destroyed all were written if and only if the queue had drained.
   */
  lemma StreamFidelity(n: Net, i: nat)
    requires Reachable(n) && i in n.mateA
    ensures i in n.a && n.mateA[i] in n.b
    ensures
      var (x, y) := (n.a[i], n.b[n.mateA[i]]);
      && x.wrote <= y.sent
      && (x.phase == Listed ==> x.wrote + x.queue + Sum(On(n.ba, n.mateA[i], i)).payload == y.sent)
      && (x.finned ==> y.phase != Listed && x.wrote + x.queue == y.sent)
      && (x.finned && x.phase == Gone ==> (x.wrote == y.sent <==> x.queue == []))
  {
    ReachableInv(n);
    AboutMates(n);
    AboutSocket(n, i);
    var x := n.a[i];
    assert x.wrote <= x.wrote + x.queue;
    if x.wrote == x.wrote + x.queue {
      assert |x.queue| == 0;
    }
  }

  lemma ClosingFlushes(c: Conn, o: WriteResult)
    requires c.phase == Closing && SockOk(c) && Plausible(o, c.queue)
    ensures
      var d := Flush(c, o).0;
      && d.phase in {Closing, Gone} && (d.phase == Gone <==> o == Wrote(|c.queue|) || o == Failed)
      && (d.phase == Gone ==> d.queue == if o == Failed then c.queue else [])
  {
  }

  lemma ClosingReads(i: nat, c: Conn, data: Bytes, eof: bool)
    requires c.phase == Closing && SockOk(c)
    ensures OnReadable(i, c, data, eof).0 == if eof then Destroy(c) else c
  {
  }

  lemma ClosingIgnores(i: nat, c: Conn, p: Packet, o: WriteResult)
    requires c.phase == Closing && (p.cmd == WRTE ==> Plausible(o, c.queue + p.data))
    ensures OnPacket(i, c, p, o).0 == c
  {
  }

  /**
   A socket leaves the closing list exactly when a write drains its queue, a write fails, or a hangup's
   read finds end of file; only the last two lose queued bytes.
   */
  lemma ClosingEnds(n: Net, ev: Event, i: nat)
    requires Reachable(n) && Enabled(n, ev) && i in n.a && n.a[i].phase == Closing
    ensures
      var c := Step(n, ev).a[i];
      var drains := ev.Writable? && ev.id == i && ev.o == Wrote(|n.a[i].queue|);
      && c.phase in {Closing, Gone}
      && (c.phase == Gone <==>
            drains || (ev.Writable? && ev.id == i && ev.o == Failed) || (ev.Hangup? && ev.id == i && ev.eof))
      && (c.phase == Gone ==> (c.queue == [] <==> drains))
      && (c.phase == Gone && c.queue != [] ==> c.queue == n.a[i].queue)
  {
    hide NetInv, Inv, Reachable, Flush, OnReadable, OnPacket;
    ReachableInv(n);
    AboutSocket(n, i);
    match ev
    case Connect(k) =>
    case Readable(k, data, eof) =>
    case Hangup(k, data, eof) => ClosingReads(i, n.a[i], data, eof);
    case Writable(k, o) => if k == i { ClosingFlushes(n.a[i], o); }
    case Deliver(svc, o) => if n.ba[0].arg1 == i { ClosingIgnores(i, n.a[i], n.ba[0], o); }
  }

  /**
   The CHECKs and unchecked dereferences of the handlers hold in every run: a WRTE that finds a socket has
   a payload to append, a listed socket subscribed to FDE_WRITE has a peer to call ready on, and a socket
   put on the closing list is subscribed to FDE_WRITE.
   */
  lemma ChecksHold(n: Net, i: nat)
    requires Reachable(n) && i in n.a
    ensures forall p :: p in n.ba && p.cmd == WRTE ==> p.data != []
    ensures n.a[i].phase == Listed && n.a[i].writing ==> n.a[i].peer.Remote?
    ensures n.a[i].phase == Listed && Close(n.a[i]).phase == Closing ==> n.a[i].writing
  {
    ReachableInv(n);
    AboutSocket(n, i);
    forall p | p in n.ba && p.cmd == WRTE ensures p.data != [] {
      assert PacketOk(n.Swap(), p);
    }
  }

  // ----- runs go on

  lemma {:induction false} RunMore(n: Net, run: seq<Move>, m: Move)
    requires IsRun(n, run) && CanMove(Final(n, run), m)
    ensures IsRun(n, run + [m]) && Final(n, run + [m]) == DoMove(Final(n, run), m)
    decreases |run|
  {
    hide DoMove, CanMove;
    if run == [] {
      assert run + [m] == [m] && [m][1..] == [];
      assert IsRun(DoMove(n, m), []);
    } else {
      assert (run + [m])[1..] == run[1..] + [m];
      RunMore(DoMove(n, run[0]), run[1..], m);
    }
  }

  lemma ReachMore(n: Net, m: Move)
    requires Reachable(n) && CanMove(n, m)
    ensures Reachable(DoMove(n, m))
  {
    hide DoMove, CanMove;
    var run :| IsRun(INIT, run) && Final(INIT, run) == n;
    RunMore(INIT, run, m);
  }

  lemma {:induction false} OffendsLater(n: Net, run: seq<Move>, m: Move, i: nat)
    requires IsRun(n, run) && CanMove(Final(n, run), m) && Offends(Final(n, run), m, i)
    ensures IsRun(n, run + [m]) && EverOffends(n, run + [m], i)
    decreases |run|
  {
    hide DoMove, CanMove, Offends;
    RunMore(n, run, m);
    if run == [] {
      assert run + [m] == [m];
    } else {
      assert (run + [m])[1..] == run[1..] + [m] && (run + [m])[0] == run[0];
      OffendsLater(DoMove(n, run[0]), run[1..], m, i);
    }
  }

  // ----- the two sides are interchangeable

  function Mirror(run: seq<Move>): (r: seq<Move>)
    ensures |r| == |run|
  {
    if run == [] then [] else [run[0].(atB := !run[0].atB)] + Mirror(run[1..])
  }

  lemma {:induction false} MirrorRuns(n: Net, run: seq<Move>)
    requires IsRun(n, run)
    ensures IsRun(n.Swap(), Mirror(run)) && Final(n.Swap(), Mirror(run)) == Final(n, run).Swap()
    decreases |run|
  {
    if run != [] {
      MirrorRuns(DoMove(n, run[0]), run[1..]);
      assert Mirror(run)[1..] == Mirror(run[1..]);
    }
  }

  lemma ReachableSwaps(n: Net)
    requires Reachable(n)
    ensures Reachable(n.Swap())
  {
    var run :| IsRun(INIT, run) && Final(INIT, run) == n;
    MirrorRuns(INIT, run);
  }
}
