/**
 Two adb processes joined by one online transport: two endpoints and two FIFO
 channels. Any interleaving of connects, socket events and packet deliveries is a run.
 */
module Network {
  import opened Seqs
  import opened Wire
  import opened Asocket
  import opened Stream

  /**
   `ab` carries a's packets to b, `ba` the reverse. The mates are history: which id of the other side
   was allocated to serve the OPEN of an id, entered on both sides when the OPEN is accepted.
   */
  datatype Net = Net(a: Endpoint, b: Endpoint, ab: seq<Packet>, ba: seq<Packet>,
                     mateA: map<nat, nat>, mateB: map<nat, nat>) {
    function Swap(): Net { Net(b, a, ba, ab, mateB, mateA) }
  }

  const INIT := Net(map[], map[], [], [], map[], map[])

  /** What can happen at one endpoint. `Hangup` is a poll error or hangup, which fakes a read. */
  datatype Event =
    | Connect(id: nat)
    | Deliver(svc: Option<nat>, o: WriteResult)
    | Readable(id: nat, data: Bytes, eof: bool)
    | Hangup(id: nat, data: Bytes, eof: bool)
    | Writable(id: nat, o: WriteResult)

  /** When event `ev` can happen at endpoint a. Ids of new sockets were never used before. */
  predicate Enabled(n: Net, ev: Event) {
    match ev
    case Connect(i) => i != 0 && i !in n.a
    case Deliver(svc, o) =>
      && n.ba != []
      && (svc.Some? ==> svc.value != 0 && svc.value !in n.a)
      && (n.ba[0].cmd == WRTE && n.ba[0].arg1 in n.a ==> Plausible(o, n.a[n.ba[0].arg1].queue + n.ba[0].data))
    case Readable(i, data, eof) => i in n.a && n.a[i].reading && |data| <= MAX_PAYLOAD
    case Hangup(i, data, eof) => i in n.a && n.a[i].phase != Gone && |data| <= MAX_PAYLOAD
    case Writable(i, o) => i in n.a && n.a[i].writing && Plausible(o, n.a[i].queue)
  }

  /** Event `ev` at endpoint a. */
  function Step(n: Net, ev: Event): Net
    requires Enabled(n, ev)
  {
    match ev
    case Connect(i) => n.(a := n.a[i := FRESH], ab := n.ab + [Packet(OPEN, i, 0, [])])
    case Deliver(svc, o) =>
      var p := n.ba[0];
      var (e, out) := HandlePacket(n.a, p, svc, o);
      var m := n.(a := e, ab := n.ab + out, ba := n.ba[1..]);
      if p.cmd == OPEN && p.arg0 != 0 && p.arg1 == 0 && svc.Some? then
        m.(mateA := n.mateA[svc.value := p.arg0], mateB := n.mateB[p.arg0 := svc.value])
      else m
    case Readable(i, data, eof) =>
      var (c, out) := OnReadable(i, n.a[i], data, eof);
      n.(a := n.a[i := c], ab := n.ab + out)
    case Hangup(i, data, eof) =>
      var (c, out) := OnReadable(i, n.a[i], data, eof);
      n.(a := n.a[i := c], ab := n.ab + out)
    case Writable(i, o) =>
      var (c, out) := OnWritable(i, n.a[i], o);
      n.(a := n.a[i := c], ab := n.ab + out)
  }

  /** A step of either side. */
  datatype Move = Move(atB: bool, ev: Event)

  predicate CanMove(n: Net, m: Move) {
    Enabled(if m.atB then n.Swap() else n, m.ev)
  }

  function DoMove(n: Net, m: Move): Net
    requires CanMove(n, m)
  {
    if m.atB then Step(n.Swap(), m.ev).Swap() else Step(n, m.ev)
  }

  predicate IsRun(n: Net, run: seq<Move>)
    decreases |run|
  {
    run != [] ==> CanMove(n, run[0]) && IsRun(DoMove(n, run[0]), run[1..])
  }

  function Final(n: Net, run: seq<Move>): Net
    requires IsRun(n, run)
    decreases |run|
  {
    if run == [] then n else Final(DoMove(n, run[0]), run[1..])
  }

  // ----- the invariant

  /** The stream of id `i` of endpoint a, once its OPEN has been accepted. */
  function StreamOf(n: Net, i: nat): View
    requires i in n.mateA && i in n.a && n.mateA[i] in n.b
  {
    var j := n.mateA[i];
    View(n.a[i], n.b[j], Sum(On(n.ab, i, j)), Sum(On(n.ba, j, i)))
  }

  /** Accepted streams are a bijection between used ids of the two sides. */
  ghost predicate Mated(n: Net) {
    forall i :: i in n.mateA ==>
      i != 0 && i in n.a && n.mateA[i] in n.b && n.mateA[i] in n.mateB && n.mateB[n.mateA[i]] == i
  }

  /** A packet of `ab`: an OPEN not yet seen, the refusal of an OPEN, or a packet of an accepted stream. */
  ghost predicate PacketOk(n: Net, p: Packet) {
    if p.cmd == OPEN then
      p.arg1 == 0 && p.arg0 != 0 && p.arg0 in n.a && p.arg0 !in n.mateA && forall q :: q in n.ba ==> q.arg1 != p.arg0
    else if p.arg0 == 0 then
      p.cmd == CLSE && p.arg1 in n.b && p.arg1 != 0 && p.arg1 !in n.mateB
    else
      p.arg0 in n.mateA && n.mateA[p.arg0] == p.arg1 && (p.cmd == WRTE ==> p.data != [])
  }

  /** No id is opened twice. */
  predicate OpensOnce(ch: seq<Packet>) {
    forall k, l :: 0 <= k < l < |ch| && ch[k].cmd == OPEN && ch[l].cmd == OPEN ==> ch[k].arg0 != ch[l].arg0
  }

  /** The answer an unaccepted opener waits for is still to come. */
  ghost predicate Pending(n: Net, i: nat) {
    Packet(OPEN, i, 0, []) in n.ab || Packet(CLSE, 0, i, []) in n.ba
  }

  ghost predicate PacketsOk(n: Net) {
    (forall p :: p in n.ab ==> PacketOk(n, p)) && OpensOnce(n.ab)
  }

  ghost predicate UnmatedOk(n: Net) {
    forall i :: i in n.a && i !in n.mateA ==>
      n.a[i] in {FRESH, Destroy(FRESH)} && (n.a[i] == FRESH ==> Pending(n, i))
  }

  ghost predicate StreamsOk(n: Net)
    requires Mated(n)
  {
    forall i :: i in n.mateA ==> n.a[i].peer in {NoPeer, Remote(n.mateA[i])} && Inv(StreamOf(n, i))
  }

  ghost predicate HalfInv(n: Net) {
    Mated(n) && 0 !in n.a && PacketsOk(n) && UnmatedOk(n) && StreamsOk(n)
  }

  ghost predicate NetInv(n: Net) {
    HalfInv(n) && HalfInv(n.Swap())
  }

  // ----- one socket acts: it changes to `c` and sends `out`, perhaps consuming the packet at the head of ba

  function Act(n: Net, i: nat, c: Conn, out: seq<Packet>, pop: bool): Net
    requires pop ==> n.ba != []
  {
    n.(a := n.a[i := c], ab := n.ab + out, ba := if pop then n.ba[1..] else n.ba)
  }

  /** What the acting socket may do. */
  ghost predicate Legal(n: Net, i: nat, c: Conn, out: seq<Packet>, pop: bool) {
    && i in n.a
    && (pop ==> n.ba != [] && n.ba[0].cmd != OPEN && n.ba[0].arg1 == i)
    && if i in n.mateA && n.mateA[i] in n.b then
         && var j := n.mateA[i];
         && (forall p :: p in out ==> Addressed(p, i, j) && (p.cmd == WRTE ==> p.data != []))
         && c.peer in {NoPeer, Remote(j)}
         && (pop ==> n.ba[0].arg0 == j)
         && Inv(View(c, n.b[j], AddAll(Sum(On(n.ab, i, j)), out), Sum(On(if pop then n.ba[1..] else n.ba, j, i))))
       else
         && out == [] && c in {FRESH, Destroy(FRESH)} && (c == FRESH ==> n.a[i] == FRESH && !pop)
  }

  lemma {:induction false} OnAll(ps: seq<Packet>, l: nat, r: nat)
    requires forall p :: p in ps ==> Addressed(p, l, r)
    ensures On(ps, l, r) == ps
  {
    if ps != [] {
      assert ps[0] in ps;
      OnAll(ps[1..], l, r);
    }
  }

  /** The acting socket's stream is as announced; every other stream is untouched. */
  lemma StreamsAfter(n: Net, i: nat, c: Conn, out: seq<Packet>, pop: bool, k: nat)
    requires Mated(n) && i in n.a && k in n.mateA
    requires pop ==> n.ba != [] && n.ba[0].arg1 == i
    requires forall p :: p in out ==> p.arg0 == i && (i in n.mateA ==> Addressed(p, i, n.mateA[i]))
    ensures k != i ==> StreamOf(Act(n, i, c, out, pop), k) == StreamOf(n, k)
    ensures k == i ==>
      var j := n.mateA[i];
      StreamOf(Act(n, i, c, out, pop), k) ==
        View(c, n.b[j], AddAll(Sum(On(n.ab, i, j)), out), Sum(On(if pop then n.ba[1..] else n.ba, j, i)))
  {
    var j := n.mateA[k];
    OnAppend(n.ab, out, k, j);
    if k == i {
      OnAll(out, i, j);
      SumAppend(On(n.ab, i, j), out);
    } else {
      OnEmpty(out, k, j);
      assert On(n.ab, k, j) + [] == On(n.ab, k, j);
      if pop {
        assert !Addressed(n.ba[0], j, k);
        assert On(n.ba, j, k) == [] + On(n.ba[1..], j, k) == On(n.ba[1..], j, k);
      }
    }
  }

  lemma PacketsAfter(n: Net, i: nat, c: Conn, out: seq<Packet>, pop: bool)
    requires Mated(n) && PacketsOk(n) && PacketsOk(n.Swap())
    requires i in n.a && (pop ==> n.ba != [])
    requires out != [] ==> i in n.mateA
    requires forall p :: p in out ==> Addressed(p, i, n.mateA[i]) && (p.cmd == WRTE ==> p.data != [])
    ensures PacketsOk(Act(n, i, c, out, pop)) && PacketsOk(Act(n, i, c, out, pop).Swap())
  {
    var n' := Act(n, i, c, out, pop);
    assert forall q :: q in n'.ba ==> q in n.ba;
    forall p | p in n'.ab ensures PacketOk(n', p) {
      assert p in n.ab ==> PacketOk(n, p);
    }
    forall p | p in n'.ba ensures PacketOk(n'.Swap(), p) {
      assert PacketOk(n.Swap(), p);
    }
    forall m | |n.ab| <= m < |n'.ab| ensures n'.ab[m].cmd != OPEN {
      assert n'.ab[m] in out;
    }
  }

  lemma UnmatedAfter(n: Net, i: nat, c: Conn, out: seq<Packet>, pop: bool)
    requires UnmatedOk(n) && UnmatedOk(n.Swap())
    requires i in n.a && (pop ==> n.ba != [] && n.ba[0].cmd != OPEN && n.ba[0].arg1 == i)
    requires i !in n.mateA ==> c in {FRESH, Destroy(FRESH)} && (c == FRESH ==> n.a[i] == FRESH && !pop)
    ensures UnmatedOk(Act(n, i, c, out, pop)) && UnmatedOk(Act(n, i, c, out, pop).Swap())
  {
    hide SockOk;
    var n' := Act(n, i, c, out, pop);
    assert n.ba == if pop then [n.ba[0]] + n'.ba else n'.ba;
    forall k | k in n'.a && k !in n'.mateA && n'.a[k] == FRESH ensures Pending(n', k) {
      assert Pending(n, k);
    }
    forall k | k in n'.b && k !in n'.mateB && n'.b[k] == FRESH ensures Pending(n'.Swap(), k) {
      assert Pending(n.Swap(), k);
    }
  }

  lemma StreamKept(n: Net, i: nat, c: Conn, out: seq<Packet>, pop: bool, k: nat)
    requires Mated(n) && k in n.mateA && Legal(n, i, c, out, pop)
    requires n.a[k].peer in {NoPeer, Remote(n.mateA[k])} && Inv(StreamOf(n, k))
    ensures
      var n' := Act(n, i, c, out, pop);
      n'.a[k].peer in {NoPeer, Remote(n.mateA[k])} && Inv(StreamOf(n', k)) && Inv(StreamOf(n', k).Swap())
  {
    hide Inv, SockOk;
    StreamsAfter(n, i, c, out, pop, k);
    InvSwaps(StreamOf(Act(n, i, c, out, pop), k));
  }

  lemma MateKept(n: Net, i: nat, c: Conn, out: seq<Packet>, pop: bool, j: nat)
    requires Mated(n) && Mated(n.Swap()) && StreamsOk(n) && j in n.mateB
    requires (pop ==> n.ba != []) && Legal(n, i, c, out, pop)
    ensures Inv(StreamOf(Act(n, i, c, out, pop).Swap(), j))
  {
    hide Inv, SockOk, Legal;
    var n' := Act(n, i, c, out, pop);
    StreamKept(n, i, c, out, pop, n.mateB[j]);
    assert StreamOf(n'.Swap(), j) == StreamOf(n', n.mateB[j]).Swap();
  }

  lemma MatedAfter(n: Net, i: nat, c: Conn, out: seq<Packet>, pop: bool)
    requires Mated(n) && Mated(n.Swap()) && i in n.a && (pop ==> n.ba != [])
    ensures Mated(Act(n, i, c, out, pop)) && Mated(Act(n, i, c, out, pop).Swap())
  {
  }

  lemma StreamsOkAfter(n: Net, i: nat, c: Conn, out: seq<Packet>, pop: bool)
    requires Mated(n) && Mated(n.Swap()) && StreamsOk(n) && StreamsOk(n.Swap())
    requires i in n.a && (pop ==> n.ba != []) && Legal(n, i, c, out, pop)
    ensures Mated(Act(n, i, c, out, pop)) && Mated(Act(n, i, c, out, pop).Swap())
    ensures StreamsOk(Act(n, i, c, out, pop)) && StreamsOk(Act(n, i, c, out, pop).Swap())
  {
    hide Inv, SockOk, Legal;
    var n' := Act(n, i, c, out, pop);
    MatedAfter(n, i, c, out, pop);
    forall k | k in n'.mateA ensures n'.a[k].peer in {NoPeer, Remote(n'.mateA[k])} && Inv(StreamOf(n', k)) {
      StreamKept(n, i, c, out, pop, k);
    }
    forall j | j in n'.mateB ensures n'.b[j].peer in {NoPeer, Remote(n'.mateB[j])} && Inv(StreamOf(n'.Swap(), j)) {
      MateKept(n, i, c, out, pop, j);
      assert n.Swap().a[j].peer in {NoPeer, Remote(n.mateB[j])};
    }
  }

  lemma ActKeeps(n: Net, i: nat, c: Conn, out: seq<Packet>, pop: bool)
    requires NetInv(n) && Legal(n, i, c, out, pop)
    ensures NetInv(Act(n, i, c, out, pop))
  {
    hide Inv, SockOk, PacketsOk, UnmatedOk, StreamsOk;
    PacketsAfter(n, i, c, out, pop);
    UnmatedAfter(n, i, c, out, pop);
    StreamsOkAfter(n, i, c, out, pop);
  }

  lemma InvSwaps(v: View)
    requires Inv(v)
    ensures Inv(v.Swap())
  {
  }

  // ----- each event is a legal action, or opens, accepts or refuses a stream

  lemma AboutSocket(n: Net, i: nat)
    requires NetInv(n) && i in n.a
    ensures SockOk(n.a[i])
    ensures i !in n.mateA ==> n.a[i] in {FRESH, Destroy(FRESH)}
    ensures i in n.mateA ==>
      n.mateA[i] in n.b && n.a[i].peer in {NoPeer, Remote(n.mateA[i])} && Inv(StreamOf(n, i))
  {
    hide Inv, PacketsOk;
    if i in n.mateA {
      InvParts(StreamOf(n, i));
    }
  }

  lemma InvParts(v: View)
    requires Inv(v)
    ensures SockOk(v.x)
  {
  }

  /** What a read sends goes to the peer. */
  lemma ReadSends(i: nat, c: Conn, data: Bytes, eof: bool, j: nat)
    requires c.peer in {NoPeer, Remote(j)}
    ensures
      var (d, out) := OnReadable(i, c, data, eof);
      && d.peer in {NoPeer, Remote(j)} && (c.peer == NoPeer ==> out == [] && d == if eof then Close(c) else c)
      && forall p :: p in out ==> Addressed(p, i, j) && (p.cmd == WRTE ==> p.data != [])
  {
  }

  lemma ReadLegal(n: Net, i: nat, data: Bytes, eof: bool)
    requires NetInv(n) && i in n.a && n.a[i].phase != Gone
    ensures
      var (c, out) := OnReadable(i, n.a[i], data, eof);
      Legal(n, i, c, out, false)
  {
    hide NetInv, Inv, OnReadable;
    AboutSocket(n, i);
    ReadSends(i, n.a[i], data, eof, if i in n.mateA then n.mateA[i] else 0);
    if i in n.mateA {
      if n.a[i].phase == Listed {
        ReadKeeps(StreamOf(n, i), i, data, eof);
      } else {
        HangupKeeps(StreamOf(n, i));
      }
    }
  }

  lemma WriteLegal(n: Net, i: nat, o: WriteResult)
    requires NetInv(n) && i in n.a && n.a[i].writing && Plausible(o, n.a[i].queue)
    ensures
      var (c, out) := OnWritable(i, n.a[i], o);
      Legal(n, i, c, out, false)
  {
    hide NetInv, Inv;
    AboutSocket(n, i);
    if i in n.mateA {
      WriteKeeps(StreamOf(n, i), i, o);
    }
  }

  /** The packet at the head of ba is for an installed socket, and if of a stream, for the right one. */
  lemma AboutPacket(n: Net)
    requires NetInv(n) && n.ba != [] && n.ba[0].cmd != OPEN
    ensures
      var p := n.ba[0];
      && p.arg1 in n.a && p.arg1 != 0
      && if p.arg0 == 0 then p.cmd == CLSE && p.arg1 !in n.mateA
         else p.arg1 in n.mateA && n.mateA[p.arg1] == p.arg0 && (p.cmd == WRTE ==> p.data != [])
  {
    hide Inv, SockOk, UnmatedOk, StreamsOk;
    assert PacketOk(n.Swap(), n.ba[0]);
  }

  /** The answer goes back where the packet came from, and pairs with nobody else. */
  lemma Answers(i: nat, c: Conn, p: Packet, o: WriteResult)
    requires p.arg0 != 0 && c.peer in {NoPeer, Remote(p.arg0)} && (p.cmd == WRTE ==> Plausible(o, c.queue + p.data))
    ensures OnPacket(i, c, p, o).0.peer in {NoPeer, Remote(p.arg0)}
    ensures forall q :: q in OnPacket(i, c, p, o).1 ==> Addressed(q, i, p.arg0) && q.cmd != WRTE
  {
  }

  /** A packet of an accepted stream. */
  lemma MatePacketLegal(n: Net, p: Packet, o: WriteResult)
    requires NetInv(n) && n.ba != [] && n.ba[0] == p && p.cmd != OPEN && p.arg0 != 0
    requires p.arg1 in n.a && p.arg1 in n.mateA && n.mateA[p.arg1] == p.arg0 && p.arg0 in n.b
    requires p.cmd == WRTE ==> Plausible(o, n.a[p.arg1].queue + p.data) && p.data != []
    ensures
      var (c, out) := OnPacket(p.arg1, n.a[p.arg1], p, o);
      Legal(n, p.arg1, c, out, true)
  {
    hide NetInv, Inv, OnPacket;
    AboutSocket(n, p.arg1);
    Answers(p.arg1, n.a[p.arg1], p, o);
    assert On(n.ba, p.arg0, p.arg1) == [p] + On(n.ba[1..], p.arg0, p.arg1);
    hide On;
    PacketKeeps(StreamOf(n, p.arg1), p.arg1, p.arg0, p, Sum(On(n.ba[1..], p.arg0, p.arg1)), o);
  }

  lemma PacketLegal(n: Net, o: WriteResult)
    requires NetInv(n) && n.ba != [] && n.ba[0].cmd != OPEN
    requires n.ba[0].cmd == WRTE && n.ba[0].arg1 in n.a ==> Plausible(o, n.a[n.ba[0].arg1].queue + n.ba[0].data)
    ensures n.ba[0].arg1 in n.a && n.ba[0].arg1 != 0
    ensures
      var (c, out) := OnPacket(n.ba[0].arg1, n.a[n.ba[0].arg1], n.ba[0], o);
      Legal(n, n.ba[0].arg1, c, out, true)
  {
    hide NetInv, Inv;
    AboutPacket(n);
    var p := n.ba[0];
    AboutSocket(n, p.arg1);
    if p.arg0 != 0 {
      hide Legal, OnPacket;
      MatePacketLegal(n, p, o);
    }
  }

  // ----- a new id: connect_to_remote, or the service socket of an OPEN; and the refusal of an OPEN

  /** A packet that is no stream packet of `k`, and a delivered OPEN, leave the stream of `k` alone. */
  lemma Untouched(n: Net, n': Net, p: Packet, k: nat)
    requires Mated(n) && k in n.mateA && k in n'.mateA && n'.mateA[k] == n.mateA[k]
    requires k in n'.a && n.a[k] == n'.a[k] && n.mateA[k] in n'.b && n'.b[n.mateA[k]] == n.b[n.mateA[k]]
    requires n'.ab == n.ab + [p] && !Addressed(p, k, n.mateA[k])
    requires n'.ba == n.ba || (n.ba != [] && n.ba[0].cmd == OPEN && n'.ba == n.ba[1..])
    ensures StreamOf(n', k) == StreamOf(n, k)
  {
    var j := n.mateA[k];
    OnAppend(n.ab, [p], k, j);
    OnEmpty([p], k, j);
    assert On(n.ab, k, j) + [] == On(n.ab, k, j);
    if n'.ba != n.ba {
      assert On(n.ba, j, k) == [] + On(n.ba[1..], j, k) == On(n.ba[1..], j, k);
    }
  }

  /** No packet speaks to or of an id before it is used. */
  lemma UnusedIsUnseen(n: Net, i: nat)
    requires NetInv(n) && i != 0 && i !in n.a
    ensures i !in n.mateA
    ensures forall q :: q in n.ba ==> q.arg1 != i
    ensures forall q :: q in n.ab ==> q.arg0 != i
  {
    hide Inv, SockOk, StreamsOk, UnmatedOk;
    forall q | q in n.ba ensures q.arg1 != i {
      assert PacketOk(n.Swap(), q);
    }
    forall q | q in n.ab ensures q.arg0 != i {
      assert PacketOk(n, q);
    }
  }

  lemma ConnectPackets(n: Net, i: nat)
    requires NetInv(n) && Enabled(n, Connect(i))
    ensures PacketsOk(Step(n, Connect(i))) && PacketsOk(Step(n, Connect(i)).Swap())
  {
    hide Inv, SockOk, StreamsOk, UnmatedOk;
    UnusedIsUnseen(n, i);
    var n' := Step(n, Connect(i));
    forall q | q in n.ba ensures PacketOk(n'.Swap(), q) {
      assert PacketOk(n.Swap(), q);
    }
    forall q | q in n'.ab ensures PacketOk(n', q) {
      assert q in n.ab ==> PacketOk(n, q);
    }
  }

  ghost predicate PeersOk(n: Net)
    requires Mated(n)
  {
    forall k :: k in n.mateA ==> n.a[k].peer in {NoPeer, Remote(n.mateA[k])}
  }

  lemma StreamsCarry(n: Net, n': Net)
    requires Mated(n) && Mated(n') && Mated(n'.Swap()) && StreamsOk(n) && PeersOk(n') && PeersOk(n'.Swap())
    requires forall k :: k in n'.mateA ==> (k in n.mateA && StreamOf(n', k) == StreamOf(n, k)) || Inv(StreamOf(n', k))
    ensures StreamsOk(n') && StreamsOk(n'.Swap())
  {
    hide Inv;
    forall j | j in n'.mateB ensures Inv(StreamOf(n'.Swap(), j)) {
      assert StreamOf(n'.Swap(), j) == StreamOf(n', n'.mateB[j]).Swap();
      InvSwaps(StreamOf(n', n'.mateB[j]));
    }
  }

  lemma ConnectUnmated(n: Net, i: nat)
    requires UnmatedOk(n) && UnmatedOk(n.Swap()) && Enabled(n, Connect(i))
    ensures UnmatedOk(Step(n, Connect(i))) && UnmatedOk(Step(n, Connect(i)).Swap())
  {
    var n' := Step(n, Connect(i));
    forall k | Pending(n, k) ensures Pending(n', k) {
    }
    forall k | Pending(n.Swap(), k) ensures Pending(n'.Swap(), k) {
    }
    assert Packet(OPEN, i, 0, []) in n'.ab;
  }

  lemma ConnectKeeps(n: Net, i: nat)
    requires NetInv(n) && Enabled(n, Connect(i))
    ensures NetInv(Step(n, Connect(i)))
  {
    hide Inv, SockOk, PacketsOk, UnmatedOk;
    var n' := Step(n, Connect(i));
    ConnectPackets(n, i);
    forall k | k in n.mateA ensures StreamOf(n', k) == StreamOf(n, k) {
      Untouched(n, n', Packet(OPEN, i, 0, []), k);
    }
    StreamsCarry(n, n');
    ConnectUnmated(n, i);
  }

  /** The OPEN at the head of ba is the only word there is of its sender. */
  lemma AboutOpen(n: Net)
    requires NetInv(n) && n.ba != [] && n.ba[0].cmd == OPEN
    ensures
      var i := n.ba[0].arg0;
      && n.ba[0].arg1 == 0 && i != 0 && i in n.b && i !in n.mateB && n.b[i] in {FRESH, Destroy(FRESH)}
      && (forall q :: q in n.ab ==> q.arg1 != i)
      && (forall q :: q in n.ba[1..] ==> q.arg0 != i)
  {
    hide Inv, SockOk, StreamsOk;
    var i := n.ba[0].arg0;
    assert PacketOk(n.Swap(), n.ba[0]);
    forall k | 0 < k < |n.ba| ensures n.ba[k].arg0 != i {
      assert PacketOk(n.Swap(), n.ba[k]);
    }
  }

  lemma AnswerPackets(n: Net, svc: Option<nat>, o: WriteResult)
    requires NetInv(n) && Enabled(n, Deliver(svc, o)) && n.ba[0].cmd == OPEN
    ensures
      var n' := Step(n, Deliver(svc, o));
      PacketsOk(n') && PacketsOk(n'.Swap())
  {
    hide Inv, SockOk, StreamsOk, UnmatedOk;
    AboutOpen(n);
    if svc.Some? {
      UnusedIsUnseen(n, svc.value);
    }
    var n' := Step(n, Deliver(svc, o));
    forall q | q in n'.ab ensures PacketOk(n', q) {
      assert q in n.ab ==> PacketOk(n, q);
    }
    forall q | q in n'.ba ensures PacketOk(n'.Swap(), q) {
      assert PacketOk(n.Swap(), q);
    }
  }

  lemma AcceptedInv(y: Conn, i: nat, p: Packet)
    requires y in {FRESH, Destroy(FRESH)} && p.cmd == OKAY
    ensures Inv(View(FRESH.(peer := Remote(i), reading := true), y, Add(IDLE, p), IDLE))
  {
  }

  /** The stream an accepted OPEN begins: its service end may send, and its OKAY is on the way. */
  lemma AcceptedStream(n: Net, j: nat, o: WriteResult)
    requires NetInv(n) && Enabled(n, Deliver(Some(j), o)) && n.ba[0].cmd == OPEN
    ensures
      var n' := Step(n, Deliver(Some(j), o));
      j in n'.mateA && n'.mateA[j] in n'.b && Inv(StreamOf(n', j))
  {
    hide NetInv, Inv, SockOk;
    AboutOpen(n);
    UnusedIsUnseen(n, j);
    var i := n.ba[0].arg0;
    var n' := Step(n, Deliver(Some(j), o));
    var p := Packet(OKAY, j, i, []);
    OnEmpty(n.ab, j, i);
    OnEmpty(n'.ba, i, j);
    OnAppend(n.ab, [p], j, i);
    OnAll([p], j, i);
    assert [] + [p] == [p];
    SumAppend([], [p]);
    AddTwo(IDLE, p, p);
    AcceptedInv(n.b[i], i, p);
  }

  lemma AboutPeers(n: Net)
    requires NetInv(n)
    ensures PeersOk(n) && PeersOk(n.Swap())
  {
    hide Inv, UnmatedOk, PacketsOk;
  }

  lemma AnswerMates(n: Net, svc: Option<nat>, o: WriteResult)
    requires NetInv(n) && Enabled(n, Deliver(svc, o)) && n.ba[0].cmd == OPEN
    ensures
      var n' := Step(n, Deliver(svc, o));
      Mated(n') && Mated(n'.Swap()) && PeersOk(n') && PeersOk(n'.Swap())
  {
    hide UnmatedOk, PacketsOk, StreamsOk;
    AboutPeers(n);
    AboutOpen(n);
    if svc.Some? {
      UnusedIsUnseen(n, svc.value);
    }
  }

  lemma AnswerLeaves(n: Net, svc: Option<nat>, o: WriteResult, k: nat)
    requires NetInv(n) && Enabled(n, Deliver(svc, o)) && n.ba[0].cmd == OPEN && k in n.mateA
    ensures
      var n' := Step(n, Deliver(svc, o));
      k in n'.a && k in n'.mateA && n'.mateA[k] in n'.b && n.mateA[k] in n.b && StreamOf(n', k) == StreamOf(n, k)
  {
    hide Inv, SockOk, UnmatedOk, PacketsOk, StreamsOk;
    AboutOpen(n);
    var n' := Step(n, Deliver(svc, o));
    Untouched(n, n', n'.ab[|n.ab|], k);
  }

  lemma AnswerStreams(n: Net, svc: Option<nat>, o: WriteResult)
    requires NetInv(n) && Enabled(n, Deliver(svc, o)) && n.ba[0].cmd == OPEN
    ensures
      var n' := Step(n, Deliver(svc, o));
      Mated(n') && Mated(n'.Swap()) && StreamsOk(n') && StreamsOk(n'.Swap())
  {
    hide Inv, SockOk, UnmatedOk, PacketsOk, StreamsOk, PeersOk, StreamOf;
    AboutOpen(n);
    AnswerMates(n, svc, o);
    var n' := Step(n, Deliver(svc, o));
    if svc.Some? {
      AcceptedStream(n, svc.value, o);
    }
    forall k | k in n.mateA ensures StreamOf(n', k) == StreamOf(n, k) {
      AnswerLeaves(n, svc, o, k);
    }
    StreamsCarry(n, n');
  }

  lemma AnswerUnmated(n: Net, svc: Option<nat>, o: WriteResult)
    requires NetInv(n) && Enabled(n, Deliver(svc, o)) && n.ba[0].cmd == OPEN
    ensures UnmatedOk(Step(n, Deliver(svc, o))) && UnmatedOk(Step(n, Deliver(svc, o)).Swap())
  {
    hide PacketsOk, StreamsOk;
    AboutOpen(n);
    var n' := Step(n, Deliver(svc, o));
    assert n.ba == [n.ba[0]] + n'.ba;
    forall k | Pending(n, k) ensures Pending(n', k) {
    }
    forall k | Pending(n.Swap(), k) && k !in n'.mateB ensures Pending(n'.Swap(), k) {
    }
  }

  lemma AnswerKeeps(n: Net, svc: Option<nat>, o: WriteResult)
    requires NetInv(n) && Enabled(n, Deliver(svc, o)) && n.ba[0].cmd == OPEN
    ensures NetInv(Step(n, Deliver(svc, o)))
  {
    hide PacketsOk, StreamsOk, UnmatedOk;
    AboutOpen(n);
    AnswerPackets(n, svc, o);
    AnswerStreams(n, svc, o);
    AnswerUnmated(n, svc, o);
  }

  // ----- theorems

  /** Every event at either end keeps the invariant. */
  lemma StepKeeps(n: Net, ev: Event)
    requires NetInv(n) && Enabled(n, ev)
    ensures NetInv(Step(n, ev))
  {
    hide NetInv, Inv, Legal;
    match ev
    case Connect(i) => ConnectKeeps(n, i);
    case Readable(i, data, eof) =>
      AboutSocket(n, i);
      ReadLegal(n, i, data, eof);
      var (c, out) := OnReadable(i, n.a[i], data, eof);
      ActKeeps(n, i, c, out, false);
    case Hangup(i, data, eof) =>
      ReadLegal(n, i, data, eof);
      var (c, out) := OnReadable(i, n.a[i], data, eof);
      ActKeeps(n, i, c, out, false);
    case Writable(i, o) =>
      WriteLegal(n, i, o);
      var (c, out) := OnWritable(i, n.a[i], o);
      ActKeeps(n, i, c, out, false);
    case Deliver(svc, o) =>
      if n.ba[0].cmd == OPEN {
        AnswerKeeps(n, svc, o);
      } else {
        PacketLegal(n, o);
        var (c, out) := OnPacket(n.ba[0].arg1, n.a[n.ba[0].arg1], n.ba[0], o);
        ActKeeps(n, n.ba[0].arg1, c, out, true);
      }
  }

  lemma MoveKeeps(n: Net, m: Move)
    requires NetInv(n) && CanMove(n, m)
    ensures NetInv(DoMove(n, m))
  {
    hide HalfInv;
    if m.atB {
      StepKeeps(n.Swap(), m.ev);
    } else {
      StepKeeps(n, m.ev);
    }
  }

  lemma {:induction false} RunKeeps(n: Net, run: seq<Move>)
    requires NetInv(n) && IsRun(n, run)
    ensures NetInv(Final(n, run))
    decreases |run|
  {
    hide NetInv;
    if run != [] {
      MoveKeeps(n, run[0]);
      RunKeeps(DoMove(n, run[0]), run[1..]);
    }
  }
}
