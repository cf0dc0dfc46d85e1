/**
 From every state of two endpoints, deliveries end: packets provoke fewer and lighter packets, or cost a listed
 socket, whatever services answer and whatever the fds take.
 */
module Quiescence {
  import opened Seqs
  import opened Wire
  import opened Asocket
  import opened Network
  import opened StreamTheorems

  function Weight(p: Packet): nat {
    match p.cmd
    case CLSE => 1
    case OKAY => 2
    case OPEN => 4
    case WRTE => 3
  }

  function Weights(ch: seq<Packet>): nat {
    if ch == [] then 0 else Weight(ch[0]) + Weights(ch[1..])
  }

  lemma {:induction false} WeightsAppend(ch: seq<Packet>, more: seq<Packet>)
    ensures Weights(ch + more) == Weights(ch) + Weights(more)
  {
    if ch == [] {
      assert ch + more == more;
    } else {
      assert (ch + more)[1..] == ch[1..] + more;
      WeightsAppend(ch[1..], more);
    }
  }

  function Open(e: Endpoint): set<nat> {
    set i | i in e && e[i].phase == Listed
  }

  lemma OpenPut(e: Endpoint, i: nat, d: Conn)
    requires i in e
    ensures |Open(e[i := d])| + Bit(e[i].phase == Listed) == |Open(e)| + Bit(d.phase == Listed)
  {
    var rest := Open(e) - {i};
    assert Open(e) == if e[i].phase == Listed then rest + {i} else rest;
    assert Open(e[i := d]) == if d.phase == Listed then rest + {i} else rest;
  }

  lemma OpenNew(e: Endpoint, i: nat, d: Conn)
    requires i !in e
    ensures |Open(e[i := d])| <= |Open(e)| + 1
  {
    assert Open(e[i := d]) == if d.phase == Listed then Open(e) + {i} else Open(e);
  }

  lemma FlushPhase(c: Conn, o: WriteResult)
    requires Plausible(o, c.queue) && c.phase == Listed
    ensures Flush(c, o).0.phase == Listed
  {
  }

  /** What a packet of stream i costs and provokes at its receiver. */
  lemma PacketCosts(i: nat, c: Conn, p: Packet, o: WriteResult)
    requires p.cmd != OPEN && (p.cmd == WRTE ==> Plausible(o, c.queue + p.data))
    ensures
      var (d, out) := OnPacket(i, c, p, o);
      Weights(out) + Bit(d.phase == Listed) < Weight(p) + Bit(c.phase == Listed)
  {
    hide Flush;
    var (d, out) := OnPacket(i, c, p, o);
    assert |out| <= 1;
    if out != [] {
      assert out[1..] == [];
    }
    if p.cmd == WRTE && c.phase == Listed {
      FlushPhase(c.(queue := c.queue + p.data), o);
    }
  }

  lemma OpeningCosts(e: Endpoint, p: Packet, svc: Option<nat>, o: WriteResult)
    requires p.cmd == OPEN && (svc.Some? ==> svc.value !in e)
    ensures
      var (e', out) := HandlePacket(e, p, svc, o);
      Weights(out) + |Open(e')| < Weight(p) + |Open(e)|
  {
    hide Open;
    var (e', out) := HandlePacket(e, p, svc, o);
    if svc.Some? {
      OpenNew(e, svc.value, FRESH.(peer := Remote(p.arg0), reading := true));
    }
    if out != [] {
      assert out[1..] == [];
    }
  }

  lemma HandlingCosts(e: Endpoint, p: Packet, svc: Option<nat>, o: WriteResult)
    requires p.cmd == WRTE && p.arg1 in e ==> Plausible(o, e[p.arg1].queue + p.data)
    requires svc.Some? ==> svc.value !in e
    ensures
      var (e', out) := HandlePacket(e, p, svc, o);
      Weights(out) + |Open(e')| < Weight(p) + |Open(e)|
  {
    hide OnPacket, Open;
    if p.cmd == OPEN {
      OpeningCosts(e, p, svc, o);
    } else if p.arg1 != 0 && p.arg1 in e {
      PacketCosts(p.arg1, e[p.arg1], p, o);
      OpenPut(e, p.arg1, OnPacket(p.arg1, e[p.arg1], p, o).0);
    } else {
      var out := HandlePacket(e, p, svc, o).1;
      if out != [] {
        assert out[1..] == [];
      }
    }
  }

  /** An upper bound for the deliveries that can follow. */
  function Total(n: Net): nat {
    Weights(n.ab) + Weights(n.ba) + |Open(n.a)| + |Open(n.b)|
  }

  lemma DeliveryCosts(n: Net, ev: Event)
    requires Enabled(n, ev) && ev.Deliver?
    ensures Total(Step(n, ev)) < Total(n)
  {
    hide HandlePacket, Open;
    var (e, out) := HandlePacket(n.a, n.ba[0], ev.svc, ev.o);
    HandlingCosts(n.a, n.ba[0], ev.svc, ev.o);
    WeightsAppend(n.ab, out);
  }

  lemma MoveCosts(n: Net, m: Move)
    requires CanMove(n, m) && m.ev.Deliver?
    ensures Total(DoMove(n, m)) < Total(n)
  {
    hide Step, Enabled;
    DeliveryCosts(if m.atB then n.Swap() else n, m.ev);
  }

  predicate Deliveries(run: seq<Move>) {
    forall k :: 0 <= k < |run| ==> run[k].ev.Deliver?
  }

  /** No run of deliveries is longer than the weight of its start: no packet starts an endless exchange. */
  lemma {:induction false} DeliveriesEnd(n: Net, run: seq<Move>)
    requires IsRun(n, run) && Deliveries(run)
    ensures |run| + Total(Final(n, run)) <= Total(n)
    decreases |run|
  {
    hide CanMove, DoMove, Total;
    if run != [] {
      MoveCosts(n, run[0]);
      DeliveriesEnd(DoMove(n, run[0]), run[1..]);
    }
  }

  /** Some delivery is possible. */
  predicate Delivers(n: Net) {
    CanMove(n, Move(false, DELIVER)) || CanMove(n, Move(true, DELIVER))
  }

  const DELIVER := Deliver(None, Again)

  lemma {:induction false} ReachRun(n: Net, run: seq<Move>)
    requires Reachable(n) && IsRun(n, run)
    ensures Reachable(Final(n, run))
    decreases |run|
  {
    hide Reachable, CanMove, DoMove;
    if run != [] {
      ReachMore(n, run[0]);
      ReachRun(DoMove(n, run[0]), run[1..]);
    }
  }

  /**
   Deliveries that have gone on until none is possible have emptied both channels and, from a reachable state,
   have left every listed socket paired with a listed one that is paired back.
   */
  lemma DeliveriesPairAll(n: Net, run: seq<Move>, i: nat)
    requires Reachable(n) && IsRun(n, run) && !Delivers(Final(n, run)) && Live(Final(n, run).a, i)
    ensures Final(n, run).ab == [] && Final(n, run).ba == []
    ensures
      var (c, b) := (Final(n, run).a[i], Final(n, run).b);
      c.peer.Remote? && Live(b, c.peer.id) && b[c.peer.id].peer == Remote(i)
  {
    hide Reachable;
    ReachRun(n, run);
    QuietBijection(Final(n, run), i);
  }

  lemma RunThenMore(n: Net, run: seq<Move>, m: Move)
    requires CanMove(n, m) && m.ev.Deliver? && IsRun(DoMove(n, m), run) && Deliveries(run)
    ensures IsRun(n, [m] + run) && Deliveries([m] + run) && Final(n, [m] + run) == Final(DoMove(n, m), run)
  {
    hide CanMove, DoMove;
    assert ([m] + run)[1..] == run;
  }

  /** Such runs exist from every state. */
  lemma {:induction false} Quiesces(n: Net) returns (run: seq<Move>)
    ensures IsRun(n, run) && Deliveries(run) && !Delivers(Final(n, run))
    decreases Total(n)
  {
    if !Delivers(n) {
      run := [];
    } else {
      var m := Move(!CanMove(n, Move(false, DELIVER)), DELIVER);
      MoveCosts(n, m);
      hide CanMove, DoMove, Total, Delivers;
      run := Quiesces(DoMove(n, m));
      RunThenMore(n, run, m);
      run := [m] + run;
    }
  }
}
