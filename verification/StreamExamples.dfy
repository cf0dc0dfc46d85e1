/**
 Runs of two endpoints that show the exceptions of module StreamTheorems to be real. All are about one stream,
 with id 1 on both sides.
 */
module StreamExamples {
  import opened Seqs
  import opened Wire
  import opened Asocket
  import opened Stream
  import opened Network
  import opened StreamTheorems

  const PAIRED := FRESH.(peer := Remote(1), reading := true)

  const GONE := Destroy(FRESH)

  function One(a: Conn, b: Conn, ab: seq<Packet>, ba: seq<Packet>): Net {
    Net(map[1 := a], map[1 := b], ab, ba, map[1 := 1], map[1 := 1])
  }

  function AtA(ev: Event): Move { Move(false, ev) }

  function AtB(ev: Event): Move { Move(true, ev) }

  lemma Accepts()
    ensures Reachable(One(FRESH, PAIRED, [], [Packet(OKAY, 1, 1, [])]))
  {
    assert Reachable(INIT) by { assert IsRun(INIT, []) && Final(INIT, []) == INIT; }
    var n := Net(map[1 := FRESH], map[], [Packet(OPEN, 1, 0, [])], [], map[], map[]);
    assert CanMove(INIT, AtA(Connect(1))) && DoMove(INIT, AtA(Connect(1))) == n;
    assert CanMove(n, AtB(Deliver(Some(1), Again)));
    assert DoMove(n, AtB(Deliver(Some(1), Again))) == One(FRESH, PAIRED, [], [Packet(OKAY, 1, 1, [])]);
    hide Reachable, CanMove, DoMove;
    ReachMore(INIT, AtA(Connect(1)));
    ReachMore(n, AtB(Deliver(Some(1), Again)));
  }

  lemma Pairs()
    ensures Reachable(One(PAIRED, PAIRED, [], []))
  {
    Accepts();
    var n, m := One(FRESH, PAIRED, [], [Packet(OKAY, 1, 1, [])]), AtA(Deliver(None, Again));
    assert CanMove(n, m) && DoMove(n, m) == One(PAIRED, PAIRED, [], []);
    hide Reachable, CanMove, DoMove;
    ReachMore(n, m);
  }

  // ----- a second WRTE in flight

  const FULL: Bytes := seq(MAX_PAYLOAD, _ => 8 as Byte)

  lemma Sends()
    ensures Reachable(One(PAIRED.(reading := false, sent := [7]), PAIRED, [Packet(WRTE, 1, 1, [7])], []))
  {
    Pairs();
    var n, m := One(PAIRED, PAIRED, [], []), AtA(Readable(1, [7], false));
    assert CanMove(n, m) && PAIRED.sent + [7] == [7];
    assert DoMove(n, m) == One(PAIRED.(reading := false, sent := [7]), PAIRED, [Packet(WRTE, 1, 1, [7])], []);
    hide Reachable, CanMove, DoMove;
    ReachMore(n, m);
  }

  lemma TwoWrites(p: Packet, q: Packet)
    requires Addressed(p, 1, 1) && Addressed(q, 1, 1) && p.cmd == WRTE && q.cmd == WRTE
    ensures Sum(On([p, q], 1, 1)).wrte == 2
  {
    assert [p, q][1..] == [q] && [q][1..] == [];
    assert On([], 1, 1) == [] && On([q], 1, 1) == [q];
    assert On([p, q], 1, 1) == [p, q];
    assert Sum([]) == IDLE && Sum([q]).wrte == 1;
  }

  /** A hangup with a full buffer to read, right after a read, puts a second WRTE in flight. */
  lemma ForcedSendHappens()
    ensures exists run :: IsRun(INIT, run) && EverOffends(INIT, run, 1) && Sum(On(Final(INIT, run).ab, 1, 1)).wrte == 2
  {
    Sends();
    var n := One(PAIRED.(reading := false, sent := [7]), PAIRED, [Packet(WRTE, 1, 1, [7])], []);
    var m, q := AtA(Hangup(1, FULL, false)), Packet(WRTE, 1, 1, FULL);
    assert CanMove(n, m) && Offends(n, m, 1);
    assert DoMove(n, m).ab == [Packet(WRTE, 1, 1, [7]), q];
    TwoWrites(Packet(WRTE, 1, 1, [7]), q);
    hide CanMove, DoMove, Offends, On, Sum, FULL;
    var run :| IsRun(INIT, run) && Final(INIT, run) == n;
    OffendsLater(INIT, run, m, 1);
    RunMore(INIT, run, m);
  }

  // ----- queued bytes lost on the closing list

  /** a has [7] queued, after b sent it. */
  lemma Queues()
    ensures Reachable(One(PAIRED.(queue := [7], writing := true), PAIRED.(reading := false, sent := [7]), [], []))
  {
    Pairs();
    var n, m := One(PAIRED, PAIRED, [], []), AtB(Readable(1, [7], false));
    var b := PAIRED.(reading := false, sent := [7]);
    var n1, m1 := One(PAIRED, b, [], [Packet(WRTE, 1, 1, [7])]), AtA(Deliver(None, Again));
    assert CanMove(n, m) && DoMove(n, m) == n1 by {
      assert PAIRED.sent + [7] == [7];
    }
    assert CanMove(n1, m1) && DoMove(n1, m1) == One(PAIRED.(queue := [7], writing := true), b, [], []) by {
      assert PAIRED.queue + [7] == [7];
    }
    hide Reachable, CanMove, DoMove;
    ReachMore(n, m);
    ReachMore(n1, m1);
  }

  /** Then b closes, so a waits on the closing list for its queue to drain. */
  lemma Lingers()
    ensures
      var c := FRESH.(phase := Closing, queue := [7], writing := true, finned := true);
      Reachable(One(c, GONE.(sent := [7]), [Packet(CLSE, 1, 1, [])], []))
  {
    Queues();
    var a, b := PAIRED.(queue := [7], writing := true), PAIRED.(reading := false, sent := [7]);
    var n, m := One(a, b, [], []), AtB(Hangup(1, [], true));
    var n1, m1 := One(a, GONE.(sent := [7]), [], [Packet(CLSE, 1, 1, [])]), AtA(Deliver(None, Again));
    var c := FRESH.(phase := Closing, queue := [7], writing := true, finned := true);
    assert CanMove(n, m) && DoMove(n, m) == n1;
    assert CanMove(n1, m1) && DoMove(n1, m1) == One(c, GONE.(sent := [7]), [Packet(CLSE, 1, 1, [])], []);
    hide Reachable, CanMove, DoMove;
    ReachMore(n, m);
    ReachMore(n1, m1);
  }

  /** A hangup whose read finds end of file destroys a closing socket with what it has queued. */
  lemma QueuedBytesAreLost()
    ensures
      exists n, i ::
        && Reachable(n) && i in n.a && n.a[i].phase == Closing && n.a[i].finned && Enabled(n, Hangup(i, [], true))
        && var c := Step(n, Hangup(i, [], true)).a[i]; c.phase == Gone && c.queue == n.a[i].queue != []
  {
    Lingers();
    var c := FRESH.(phase := Closing, queue := [7], writing := true, finned := true);
    var n := One(c, GONE.(sent := [7]), [Packet(CLSE, 1, 1, [])], []);
    assert Enabled(n, Hangup(1, [], true)) && Step(n, Hangup(1, [], true)).a[1] == Destroy(c);
    hide Reachable, Step, Enabled;
    assert Reachable(n) && 1 in n.a;
  }
}
