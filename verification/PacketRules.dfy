/**
 What handle_packet does to an endpoint, for every endpoint and every packet, expected or not: whom a packet reaches,
 what becomes of that socket and what is answered.
 */
module PacketRules {
  import opened Seqs
  import opened Wire
  import opened Asocket
  import opened Stream
  import opened Network
  import opened StreamTheorems

  predicate CanHandle(e: Endpoint, p: Packet, svc: Option<nat>, o: WriteResult) {
    && (p.cmd == WRTE && p.arg1 in e ==> Plausible(o, e[p.arg1].queue + p.data))
    && (svc.Some? ==> svc.value != 0 && svc.value !in e)
  }

  /** Packets without the ids they need are dropped, and so are OPENs that name a socket. */
  lemma MalformedIgnored(e: Endpoint, p: Packet, svc: Option<nat>, o: WriteResult)
    requires CanHandle(e, p, svc, o)
    requires
      || (p.cmd == OPEN && (p.arg0 == 0 || p.arg1 != 0)) || (p.cmd == CLSE && p.arg1 == 0)
      || (p.cmd in {OKAY, WRTE} && (p.arg0 == 0 || p.arg1 == 0))
    ensures HandlePacket(e, p, svc, o) == (e, [])
  {
    if p.arg1 in e {
      assert e[p.arg1 := e[p.arg1]] == e;
    }
  }

  /** No packet touches a socket it does not name. */
  lemma OthersUntouched(e: Endpoint, p: Packet, svc: Option<nat>, o: WriteResult, i: nat)
    requires CanHandle(e, p, svc, o) && i in e && (p.cmd == OPEN || i != p.arg1)
    ensures i in HandlePacket(e, p, svc, o).0 && HandlePacket(e, p, svc, o).0[i] == e[i]
  {
    hide OnPacket;
  }

  /** An OPEN gets a new socket, paired with its sender and reading, and an OKAY; or, without a service, a CLSE. */
  lemma OpenMeans(e: Endpoint, p: Packet, svc: Option<nat>, o: WriteResult)
    requires CanHandle(e, p, svc, o) && p.cmd == OPEN && p.arg0 != 0 && p.arg1 == 0
    ensures
      var (e', out) := HandlePacket(e, p, svc, o);
      match svc
      case None => e' == e && out == [Packet(CLSE, 0, p.arg0, [])]
      case Some(i) =>
        && e'.Keys == e.Keys + {i} && out == [Packet(OKAY, i, p.arg0, [])]
        && e'[i].phase == Listed && e'[i].peer == Remote(p.arg0) && e'[i].reading && !e'[i].writing && e'[i].queue == []
        && e'[i].sent == [] && e'[i].wrote == []
  {
  }

  /**
   An OKAY lets a listed socket read that is unpaired or paired with its sender, and pairs it. It does nothing to one
   that is paired with another, and is answered with a CLSE if there is none.
   */
  lemma OkayMeans(e: Endpoint, p: Packet, svc: Option<nat>, o: WriteResult)
    requires CanHandle(e, p, svc, o) && p.cmd == OKAY && p.arg0 != 0 && p.arg1 != 0
    ensures
      var (e', out) := HandlePacket(e, p, svc, o);
      var live := p.arg1 in e && e[p.arg1].phase == Listed;
      if !live then e' == e && out == [Packet(CLSE, p.arg1, p.arg0, [])]
      else
        && out == []
        && if e[p.arg1].peer.Remote? && e[p.arg1].peer.id != p.arg0 then e' == e
           else e' == e[p.arg1 := e[p.arg1].(peer := Remote(p.arg0), reading := true)]
  {
    if p.arg1 in e {
      assert e[p.arg1 := e[p.arg1]] == e;
      assert e[p.arg1].peer.Remote? ==> e[p.arg1].peer == Remote(e[p.arg1].peer.id);
    }
  }

  /** A CLSE ends the listed socket it names, if it comes from its peer or names no sender; nothing else. */
  lemma ClseMeans(e: Endpoint, p: Packet, svc: Option<nat>, o: WriteResult)
    requires CanHandle(e, p, svc, o) && p.cmd == CLSE && p.arg1 != 0
    ensures
      var (e', out) := HandlePacket(e, p, svc, o);
      if p.arg1 in e && e[p.arg1].phase == Listed && (p.arg0 == 0 || e[p.arg1].peer == Remote(p.arg0)) then
        && p.arg1 in e' && e'[p.arg1].phase != Listed
        && out == (match e[p.arg1].peer case NoPeer => [] case Remote(r) => [Packet(CLSE, p.arg1, r, [])])
      else
        e' == e && out == []
  {
    if p.arg1 in e {
      assert e[p.arg1 := e[p.arg1]] == e;
    }
  }

  lemma FlushEnds(c: Conn, o: WriteResult)
    requires Plausible(o, c.queue) && c.phase == Listed
    ensures
      var (d, res) := Flush(c, o);
      var left := c.queue != [] && (o == Again || (o.Wrote? && o.n < |c.queue|));
      && d.phase == Listed && d.peer == c.peer && d.reading == c.reading && (d.writing <==> left)
      && res == (if left then TryAgain else Completed)
      && d.queue == (if c.queue == [] || !o.Wrote? then c.queue else c.queue[o.n..])
  {
  }

  /**
   A WRTE from the peer of a listed socket is queued behind what waits, and as much as the fd takes is written. It is
   acknowledged at once exactly if nothing is left to wait for; any other WRTE is dropped.
   */
  lemma WrteMeans(e: Endpoint, p: Packet, svc: Option<nat>, o: WriteResult)
    requires CanHandle(e, p, svc, o) && p.cmd == WRTE && p.arg0 != 0 && p.arg1 != 0
    ensures
      var (e', out) := HandlePacket(e, p, svc, o);
      if p.arg1 in e && e[p.arg1].phase == Listed && e[p.arg1].peer == Remote(p.arg0) then
        && p.arg1 in e'
        && var (c, d, q) := (e[p.arg1], e'[p.arg1], e[p.arg1].queue + p.data);
           var left := q != [] && (o == Again || (o.Wrote? && o.n < |q|));
        && d.phase == Listed && d.peer == c.peer && d.reading == c.reading && (d.writing <==> left)
        && d.queue == (if q == [] || !o.Wrote? then q else q[o.n..])
        && out == (if left then [] else [Packet(OKAY, p.arg1, p.arg0, [])])
      else
        e' == e && out == []
  {
    hide Flush;
    if p.arg1 in e {
      assert e[p.arg1 := e[p.arg1]] == e;
      if e[p.arg1].phase == Listed {
        FlushEnds(e[p.arg1].(queue := e[p.arg1].queue + p.data), o);
      }
    }
  }

  /** FDE_WRITE of a listed socket: its peer gets the OKAY it waits for exactly when nothing is left to wait for. */
  lemma WritableMeans(i: nat, c: Conn, o: WriteResult)
    requires Plausible(o, c.queue) && c.phase == Listed
    ensures
      var (d, out) := OnWritable(i, c, o);
      var left := c.queue != [] && (o == Again || (o.Wrote? && o.n < |c.queue|));
      && d.phase == Listed && d.peer == c.peer && d.reading == c.reading && (d.writing <==> left)
      && d.queue == (if c.queue == [] || !o.Wrote? then c.queue else c.queue[o.n..])
      && out == (if left || c.peer == NoPeer then [] else [Packet(OKAY, i, c.peer.id, [])])
  {
    hide Flush;
    FlushEnds(c, o);
  }

  /**
   What a read sends: all that was read, in one WRTE to the peer, after which the socket waits for an OKAY; then, at
   the end of the fd, a CLSE.
   */
  lemma ReadMeans(i: nat, c: Conn, data: Bytes, eof: bool)
    requires c.phase == Listed
    ensures
      var (d, out) := OnReadable(i, c, data, eof);
      && out == (match c.peer
                 case NoPeer => []
                 case Remote(r) =>
                   var sends := if data == [] then [] else [Packet(WRTE, i, r, data)];
                   sends + if eof then [Packet(CLSE, i, r, [])] else [])
      && (!eof ==> d.phase == Listed && d.peer == c.peer && d.queue == c.queue && d.writing == c.writing)
      && (!eof ==> (d.reading <==> c.reading && (data == [] || c.peer == NoPeer)))
  {
    assert forall s: seq<Packet> :: s + [] == s && [] + s == s;
  }

  // ----- sizes

  /** Only a WRTE has a payload, of at least one byte and at most MAX_PAYLOAD. */
  predicate Sized(p: Packet) {
    if p.cmd == WRTE then 0 < |p.data| <= MAX_PAYLOAD else p.data == []
  }

  ghost predicate AllSized(n: Net) {
    (forall p :: p in n.ab ==> Sized(p)) && forall p :: p in n.ba ==> Sized(p)
  }

  lemma EventSized(n: Net, ev: Event)
    requires Enabled(n, ev) && AllSized(n)
    ensures AllSized(Step(n, ev))
  {
    hide Flush, Close;
  }

  lemma {:induction false} RunSized(n: Net, run: seq<Move>)
    requires AllSized(n) && IsRun(n, run)
    ensures AllSized(Final(n, run))
    decreases |run|
  {
    if run != [] {
      EventSized(if run[0].atB then n.Swap() else n, run[0].ev);
      hide Step, Enabled;
      RunSized(DoMove(n, run[0]), run[1..]);
    }
  }

  lemma PacketsSized(n: Net)
    requires Reachable(n)
    ensures AllSized(n)
  {
    var run :| IsRun(INIT, run) && Final(INIT, run) == n;
    RunSized(INIT, run);
  }
}
