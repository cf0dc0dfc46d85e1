/**
 The code of src/sockets.cpp and the stream cases of handle_packet in src/adb.cpp, on
 heap objects. Every method is tied to the snapshot graph of module SocketGraph and to
 what module Asocket says of a single socket.
 */
module SocketTable {
  import opened Seqs
  import opened Wire
  import opened Asocket
  import opened SocketGraph
  import opened SmartRequest
  import opened JoinedFlow

  class Table {
    var list: seq<Socket>
    var closingList: seq<Socket>
    var nextId: nat
    var outbox: seq<Packet>
    ghost var g: map<Socket, Node>
    ghost var owner: map<nat, Socket>

    /** No sockets; ids start at 1. */
    constructor ()
      ensures Valid() && list == [] && closingList == [] && nextId == 1 && outbox == [] && g == map[] && owner == map[]
    {
      list, closingList, nextId, outbox := [], [], 1, [];
      g, owner := map[], map[];
    }

    /** The snapshot `g` is what the objects hold. */
    ghost predicate InSync() reads this`g, g.Keys {
      forall s :: s in g ==> g[s] == NodeOf(s)
    }

    ghost function State(): World reads this`g, this`list, this`closingList, this`nextId, this`owner {
      World(g, list, closingList, nextId, owner)
    }

    ghost predicate Valid() reads this`g, this`list, this`closingList, this`nextId, this`owner, g.Keys {
      InSync() && Good(State())
    }

    /** The snapshot of s holds the fields of s. */
    lemma Synced(s: Socket)
      requires InSync() && s in g
      ensures
        var n := g[s];
        && n.kind == s.kind && n.id == s.id && n.peer == s.peer && n.transport == s.transport && n.closing == s.closing
        && n.dead == s.dead && n.writeError == s.writeError && n.queue == s.queue && n.reading == s.reading
        && n.writing == s.writing && n == NodeOf(s)
    {
    }

    /** No socket and no id is forgotten, and the other sockets are new. */
    twostate predicate Grown() reads this {
      old(g).Keys <= g.Keys && old(nextId) <= nextId && forall x :: x in g && x !in old(g) ==> fresh(x)
    }

    /** remove_socket. */
    method Remove(s: Socket)
      modifies this`list, this`closingList
      ensures list == Without(old(list), s) && closingList == Without(old(closingList), s)
    {
      list, closingList := Without(list, s), Without(closingList, s);
    }

    /** remove_socket, and insert_local_socket into the closing list of a socket that lingers. */
    method Unlist(s: Socket, lingers: bool)
      requires lingers == NodeOf(s).Lingers()
      modifies this`list, this`closingList
      ensures list == Without(old(list), s) && closingList == Park(old(closingList), s, NodeOf(s))
    {
      hide Without;
      Remove(s);
      if lingers {
        closingList := closingList + [s];
      }
    }

    /** The fields of a closed socket: it lingers to drain its queue, or its fd goes and it is dead. */
    static method PutSettled(s: Socket, lingers: bool)
      requires s.peer == null && lingers == NodeOf(s).Lingers()
      modifies s
      ensures NodeOf(s) == old(Settle(NodeOf(s)))
    {
      s.reading := false;
      if lingers {
        s.closing := true;
      } else {
        s.dead, s.writing := true, false;
      }
    }

    /** s->close(s) of a socket without peer: local_socket_close, remote_socket_close or smart_socket_close. */
    method CloseAlone(s: Socket)
      requires s in g && NodeOf(s).peer == null && (NodeOf(s).Lingers() ==> NodeOf(s).writing)
      requires NodeOf(s).kind != LocalKind ==> s !in list && s !in closingList
      modifies this`list, this`closingList, this`g, s
      ensures NodeOf(s) == old(Settle(NodeOf(s))) && g == old(g)[s := NodeOf(s)]
      ensures list == Without(old(list), s) && closingList == old(Park(closingList, s, NodeOf(s)))
    {
      hide Without, Settle, Park;
      var lingers := s.kind == LocalKind && !s.closing && !s.writeError && s.queue != [];
      if s.kind == LocalKind {
        Unlist(s, lingers);
      } else {
        ParkAbsent(list, closingList, s, NodeOf(s));
      }
      PutSettled(s, lingers);
      g := g[s := NodeOf(s)];
    }

    /** x->peer = nullptr. */
    static method Unlink(x: Socket)
      modifies x`peer
      ensures x.peer == null && NodeOf(x) == old(NodeOf(x)).(peer := null)
    {
      x.peer := null;
    }

    /**
     The first half of local_socket_close: a remote peer's shutdown sends a CLSE, the peer loses its own
     peer pointer and is closed, and s loses its peer.
     */
    method ClosePeer(s: Socket, p: Socket)
      requires s in g && p in g && p != s && s.peer == p
      requires NodeOf(p).Lingers() ==> NodeOf(p).writing
      requires NodeOf(p).kind != LocalKind ==> p !in list && p !in closingList
      modifies this`list, this`closingList, this`outbox, this`g, s, p
      ensures NodeOf(s) == old(NodeOf(s)).(peer := null) && NodeOf(p) == old(Settle(NodeOf(p)))
      ensures g == old(g)[p := NodeOf(p)]
      ensures list == Without(old(list), p) && closingList == old(Park(closingList, p, NodeOf(p)))
      ensures outbox == old(outbox) +
        if s.kind == LocalKind && p.kind == RemoteKind then [Packet(CLSE, old(s.id), old(p.id), [])] else []
    {
      hide Without, Settle, Park, NodeOf;
      if s.kind == LocalKind && p.kind == RemoteKind {
        outbox := outbox + [Packet(CLSE, s.id, p.id, [])];
      }
      SettleUnlinked(NodeOf(p));
      Unlink(p);
      CloseAlone(p);
      Unlink(s);
    }

    /** The two halves of local_socket_close: the peer first, then s itself. */
    method CloseBoth(s: Socket)
      requires InSync() && Closable(State(), s)
      modifies this`list, this`closingList, this`outbox, this`g, s, s.peer
      ensures s in old(g) && (old(g)[s].peer != null ==> old(g)[s].peer in old(g))
      ensures State() == CloseW(old(State()), s) && InSync()
      ensures outbox == old(outbox) + ShutdownOut(old(State()), s)
    {
      hide Without, GoodBut, Settle, NodeOf, Park;
      Synced(s);
      CloseOnLists(State(), s);
      SettleUnlinked(NodeOf(s));
      if s.peer != null {
        Synced(s.peer);
        ParkOther(closingList, s.peer, NodeOf(s.peer), s);
        ClosePeer(s, s.peer);
      }
      CloseAlone(s);
      assert State() == CloseW(old(State()), s);
    }

    /** s->close(s). */
    method Close(s: Socket)
      requires InSync() && Closable(State(), s)
      modifies this`list, this`closingList, this`outbox, this`g, s, s.peer
      ensures s in old(g) && (old(g)[s].peer != null ==> old(g)[s].peer in old(g))
      ensures State() == CloseW(old(State()), s) && Valid()
      ensures outbox == old(outbox) + ShutdownOut(old(State()), s)
      ensures forall x :: x in old(g) && x in {s, old(s.peer)} && old(g)[x].kind == LocalKind ==>
        Ended(old(g)[x], g[x], x in list, x in closingList)
    {
      hide GoodBut, NodeOf, CloseW, ShutdownOut, Ended;
      Synced(s);
      CloseGood(State(), s);
      CloseOnLists(State(), s);
      CloseAt(State(), s, s);
      EndsBoth(State(), s);
      CloseBoth(s);
    }

    /** Neither s nor its peer is bound to t. */
    ghost predicate Clear(s: Socket, t: nat) reads s, s.peer {
      s.transport != Some(t) && (s.peer != null ==> s.peer.transport != Some(t))
    }

    /** Bound, read off the objects. */
    lemma BoundIs(t: nat)
      requires Valid()
      ensures forall s :: s in list ==> s in g && (Bound(g, s, t) <==> !Clear(s, t))
    {
      hide GoodBut, NodeOf, Closable;
      forall s | s in list ensures s in g && (Bound(g, s, t) <==> !Clear(s, t)) {
        AboutListed(State(), s);
        Synced(s);
        if s.peer != null {
          Synced(s.peer);
        }
      }
    }

    /**
     close_all_sockets: every close changes the list being scanned, so the scan starts over. It ends with no
     listed socket bound to t, and sockets that were not bound to t never noticed. The others were closed once, each
     by itself or with its peer, and each told its remote peer.
     */
    method CloseAll(t: nat) returns (ghost closed: seq<Socket>)
      requires Valid()
      modifies this`list, this`closingList, this`outbox, this`g, g.Keys
      ensures Valid() && g.Keys == old(g.Keys)
      ensures forall s :: s in list ==> !Bound(g, s, t)
      ensures Spares(old(State()), State(), t)
      ensures forall s :: s in list ==> s.transport != Some(t) && (s.peer != null ==> s.peer.transport != Some(t))
      ensures forall s :: s in old(list) && s in old(g) && old(Clear(s, t)) ==> s in list && g[s] == old(g)[s]
      ensures Swept(old(State()), State(), closed) && outbox == old(outbox) + Shutdowns(old(State()), closed)
      ensures old(Flows(State())) ==> Flows(State())
    {
      hide Without, GoodBut, NodeOf, Closable, CloseW, ShutdownOut, Spares, Flows, Swept, Shutdowns, Ended;
      var i := 0;
      closed := [];
      BoundIs(t);
      SparesSelf(State(), t);
      SweptSelf(State());
      ShutdownsNone(State());
      while i < |list|
        invariant Valid() && i <= |list| && g.Keys == old(g.Keys)
        invariant Spares(old(State()), State(), t) && (old(Flows(State())) ==> Flows(State()))
        invariant Swept(old(State()), State(), closed) && outbox == old(outbox) + Shutdowns(old(State()), closed)
        invariant forall k :: 0 <= k < i ==> !Bound(g, list[k], t)
        decreases |list|, |list| - i
      {
        var s := list[i];
        AboutListed(State(), s);
        Synced(s);
        if s.peer != null {
          Synced(s.peer);
        }
        assert Bound(g, s, t) <==> s.transport == Some(t) || (s.peer != null && s.peer.transport == Some(t));
        if s.transport == Some(t) || (s.peer != null && s.peer.transport == Some(t)) {
          CloseSpares(old(State()), State(), s, t);
          CloseShortens(State(), s);
          CloseAt(State(), s, s);
          ClosesFlow(State(), s);
          SweptClose(old(State()), State(), closed, s);
          ShutdownsMore(old(State()), closed, s);
          Assoc(old(outbox), Shutdowns(old(State()), closed), ShutdownOut(old(State()), s));
          Close(s);
          closed := closed + [s];
          i := 0;
        } else {
          i := i + 1;
        }
      }
      BoundIs(t);
      SparesMeans(old(State()), State(), t);
    }

    // ----- single fields

    static method PutReading(s: Socket, on: bool)
      modifies s`reading
      ensures NodeOf(s) == old(NodeOf(s)).(reading := on)
    {
      s.reading := on;
    }

    static method PutQueue(s: Socket, data: Bytes)
      modifies s`queue
      ensures NodeOf(s) == old(NodeOf(s)).(queue := old(NodeOf(s)).queue + data)
    {
      s.queue := s.queue + data;
    }

    static method PutLink(s: Socket, p: Socket?, t: Option<nat>)
      modifies s`peer, s`transport
      ensures NodeOf(s) == old(NodeOf(s)).(peer := p, transport := t) && s.peer == p && s.transport == t
    {
      s.peer, s.transport := p, t;
    }

    static method PutBuried(s: Socket)
      modifies s
      ensures NodeOf(s) == Buried(old(NodeOf(s)))
    {
      s.peer := null;
      s.dead, s.reading, s.writing := true, false, false;
    }

    static method PutSmart(s: Socket, d: Bytes)
      modifies s`smartData
      ensures s.smartData == d && NodeOf(s) == old(NodeOf(s))
    {
      s.smartData := d;
    }

    static ghost method PutFin(s: Socket, fin: bool)
      modifies s`finned
      ensures NodeOf(s) == old(NodeOf(s)).(finned := fin)
    {
      s.finned := fin;
    }

    static ghost method PutSent(s: Socket, data: Bytes)
      modifies s`sent, s`forced
      ensures NodeOf(s) == old(Handed(NodeOf(s), data))
    {
      s.sent, s.forced := s.sent + data, s.forced || !s.reading;
    }

    /** fdevent_add or fdevent_del of FDE_READ. */
    method SetReading(s: Socket, on: bool)
      requires InSync() && s in g
      modifies this`g, s`reading
      ensures InSync() && g == old(g)[s := old(g)[s].(reading := on)]
    {
      hide NodeOf;
      PutReading(s, on);
      g := g[s := g[s].(reading := on)];
    }

    /** packet_queue.append. */
    method Append(s: Socket, data: Bytes)
      requires InSync() && s in g
      modifies this`g, s`queue
      ensures InSync() && g == old(g)[s := old(g)[s].(queue := old(g)[s].queue + data)]
    {
      hide NodeOf;
      PutQueue(s, data);
      g := g[s := g[s].(queue := g[s].queue + data)];
    }

    /** Adds to the history of s the data it handed over, and whether it did so unasked. */
    ghost method Record(s: Socket, data: Bytes)
      requires InSync() && s in g
      modifies this`g, s`sent, s`forced
      ensures InSync() && g == old(g)[s := Handed(old(g)[s], data)]
    {
      hide NodeOf, Handed;
      PutSent(s, data);
      g := g[s := Handed(g[s], data)];
    }

    // ----- the handlers

    /** The adb_writev of local_socket_flush_incoming and what becomes of its result. */
    method WriteQueue(s: Socket, o: WriteResult) returns (again: bool)
      requires Plausible(o, s.queue)
      modifies s`queue, s`wrote, s`writing, s`writeError
      ensures again == old(WantsMore(NodeOf(s), o))
      ensures NodeOf(s) == old(Written(NodeOf(s), o))
    {
      again := false;
      if s.queue != [] {
        match o
        case Wrote(n) =>
          s.wrote := s.wrote + s.queue[..n];
          s.queue := s.queue[n..];
          again := s.queue != [];
        case Again =>
          again := true;
        case Failed =>
          s.writeError := true;
      }
      if again {
        s.writing := true;
      } else if !s.closing {
        s.writing := false;
      }
    }

    /** local_socket_flush_incoming. */
    method FlushIncoming(s: Socket, o: WriteResult) returns (r: FlushResult)
      requires InSync() && Flushable(State(), s, o)
      modifies this`list, this`closingList, this`outbox, this`g, s, s.peer
      ensures Valid() && State() == FlushW(old(State()), s, o) && outbox == old(outbox)
      ensures r == Flush(AbsOf(old(State()), s), o).1
    {
      hide Without, GoodBut, CloseW, Flush, Written;
      FlushGood(State(), s, o);
      FlushIs(State(), s, o);
      var again := WriteQueue(s, o);
      g := g[s := NodeOf(s)];
      if again {
        return TryAgain;
      }
      if s.closing {
        Close(s);
        return Destroyed;
      }
      return Completed;
    }

    /** The socket of a stream: unpaired, or paired with a remote socket. */
    ghost predicate OnStream(s: Socket) reads s {
      s.kind == LocalKind && (s.peer == null || s.peer.kind == RemoteKind)
    }

    /** p->ready(p), by vtable: local_socket_ready, remote_socket_ready or smart_socket_ready. */
    method Ready(p: Socket)
      requires Valid() && p in g && p.peer != null
      modifies this`outbox, this`g, p`reading
      ensures Valid()
      ensures State() ==
        if p.kind == LocalKind then Touch(old(State()), p, old(g)[p].(reading := true)) else old(State())
      ensures outbox == old(outbox) + if p.kind == RemoteKind then [Packet(OKAY, old(p.peer.id), p.id, [])] else []
    {
      hide GoodBut;
      match p.kind
      case LocalKind =>
        ReadyGood(State(), p);
        SetReading(p, true);
      case RemoteKind =>
        outbox := outbox + [Packet(OKAY, p.peer.id, p.id, [])];
      case SmartKind =>
    }

    /** local_socket_event_func on FDE_WRITE. A completed flush dereferences the peer to call its ready. */
    method FlushAndWake(s: Socket, o: WriteResult)
      requires Valid() && s in g && s.kind == LocalKind && !s.dead && s.writing && Plausible(o, s.queue)
      modifies this`list, this`closingList, this`outbox, this`g, s, s.peer
      ensures Valid() && g.Keys == old(g.Keys) && old(g[s].closing ==> g[s].peer == null)
      ensures State() == WritableW(old(State()), s, o) && outbox == old(outbox) + WritableOut(old(State()), s, o)
    {
      hide GoodBut, Flush, FlushW, AbsOf, NodeOf, Elsewhere, OnWritable;
      Synced(s);
      WritableHasPeer(State(), s, o);
      WritableIs(State(), s, o);
      FlushElsewhere(State(), s, o);
      if s.peer != null {
        Synced(s.peer);
      }
      var r := FlushIncoming(s, o);
      Synced(s);
      if r == Completed {
        Synced(s.peer);
        Ready(s.peer);
      }
    }

    /** FDE_WRITE, as what it does to the socket and to the others. */
    method OnWritableEvent(s: Socket, o: WriteResult)
      requires Valid() && s in g && s.kind == LocalKind && !s.dead && s.writing && Plausible(o, s.queue)
      modifies this`list, this`closingList, this`outbox, this`g, s, s.peer
      ensures Valid() && Elsewhere(old(State()), State(), s)
      ensures PeerKept(old(State()), State(), s) && g.Keys == old(g.Keys)
      ensures old(OnStream(s)) ==>
        && AbsOf(State(), s) == OnWritable(old(s.id), AbsOf(old(State()), s), o).0
        && outbox == old(outbox) + OnWritable(old(s.id), AbsOf(old(State()), s), o).1
      ensures old(Flows(State())) ==> Flows(State())
    {
      hide GoodBut, WritableW, WritableOut, OnWritable, Elsewhere, PeerKept, AbsOf, NodeOf, Flows, Flush;
      Synced(s);
      WritableIs(State(), s, o);
      if s.peer != null {
        LinkFacts(State(), s);
        Synced(s.peer);
      }
      if Flows(State()) {
        WritableFlows(State(), s, o);
      }
      FlushAndWake(s, o);
    }

    /** create_local_socket and install_local_socket. The id counter aborts the process before it wraps. */
    method CreateLocal() returns (s: Socket)
      requires Valid() && 0 < nextId < 0xFFFF_FFFF
      modifies this`list, this`nextId, this`g, this`owner
      ensures Valid() && fresh(s) && s.id == old(nextId) && s.kind == LocalKind && State() == Install(old(State()), s)
    {
      hide GoodBut;
      s := new Socket(LocalKind, nextId, None, null);
      InstallGood(State(), s);
      list := list + [s];
      owner := owner[nextId := s];
      g := g[s := NewNode(LocalKind, nextId, None)];
      nextId := nextId + 1;
    }

    /** A new remote or smart socket, linked both ways with s. */
    method NewPeer(s: Socket, kind: Kind, id: nat, t: Option<nat>) returns (r: Socket)
      requires InSync() && s in g
      modifies this`g, s`peer, s`transport
      ensures InSync() && fresh(r) && r !in old(g) && r.kind == kind && r.smartData == [] && s.peer == r
      ensures g == old(g)[r := NewNode(kind, id, t).(peer := s)][s := old(g)[s].(peer := r)]
    {
      r := new Socket(kind, id, t, s);
      g := g[r := NewNode(kind, id, t).(peer := s)];
      Link(s, r, s.transport);
    }

    /** create_remote_socket, made the peer of s. */
    method PairWithRemote(s: Socket, id: nat, t: nat) returns (r: Socket)
      requires Valid() && s in list && s in g && s.peer == null && id != 0
      modifies this`g, s`peer, s`transport
      ensures Valid() && fresh(r) && r !in old(g) && State() == Pair(old(State()), s, r, id, t)
      ensures g.Keys == old(g.Keys) + {r} && s.peer == r
    {
      hide GoodBut, NodeOf;
      Synced(s);
      r := NewPeer(s, RemoteKind, id, Some(t));
      PairGood(old(State()), s, r, id, t);
      Synced(s);
    }

    /** remote_socket_enqueue: the data leaves as a WRTE and the sender must wait for an OKAY; too much is refused. */
    method RemoteEnqueue(p: Socket, data: Bytes) returns (r: int)
      requires Valid() && p in g && p.kind == RemoteKind && !p.dead
      modifies this`outbox, this`g, p.peer
      ensures old(p.peer) != null && old(p.peer) in old(g)
      ensures Valid() && r == if |data| <= MAX_PAYLOAD then 1 else -1
      ensures r == -1 ==> State() == old(State()) && outbox == old(outbox)
      ensures r == 1 ==>
        var s := old(p.peer);
        State() == Touch(old(State()), s, Handed(old(g)[s], data))
      ensures r == 1 ==> outbox == old(outbox) + [Packet(WRTE, old(p.peer.id), p.id, data)]
    {
      hide GoodBut;
      RemoteFacts(State(), p);
      if |data| > MAX_PAYLOAD {
        return -1;
      }
      ghost var s := p.peer;
      SendGood(State(), s, data);
      outbox := outbox + [Packet(WRTE, p.peer.id, p.id, data)];
      Record(s, data);
      return 1;
    }

    /** local_socket_enqueue. */
    method LocalEnqueue(s: Socket, data: Bytes, o: WriteResult) returns (r: int)
      requires Valid() && s in list && s in g && s.peer != null && s.peer in g && s.peer.kind != SmartKind
      requires Plausible(o, s.queue + data)
      modifies this`list, this`closingList, this`outbox, this`g, s, s.peer
      ensures Valid() && outbox == old(outbox)
      ensures
        var w := Touch(old(State()), s, old(g)[s].(queue := old(g)[s].queue + data));
        && !w.g[s].closing && State() == FlushW(w, s, o)
        && r == if Flush(AbsOf(w, s), o).1 == TryAgain then 1 else 0
    {
      hide GoodBut, Flush, FlushW, Without;
      EnqueueFlushable(State(), s, data, o);
      Append(s, data);
      var f := FlushIncoming(s, o);
      return if f == TryAgain then 1 else 0;
    }

    /** s->peer = p, perhaps with s->transport = t. */
    method Link(s: Socket, p: Socket?, t: Option<nat>)
      requires s in g && InSync()
      modifies this`g, s`peer, s`transport
      ensures InSync() && g == old(g)[s := old(g)[s].(peer := p, transport := t)] && s.peer == p
    {
      hide NodeOf;
      PutLink(s, p, t);
      g := g[s := g[s].(peer := p, transport := t)];
    }

    /** smart_socket_close of a smart socket that has let go of its peer: delete s. */
    method Bury(ss: Socket)
      requires ss in g && InSync()
      modifies this`g, ss
      ensures InSync() && g == old(g)[ss := Buried(old(g)[ss])]
    {
      hide NodeOf, Buried;
      PutBuried(ss);
      g := g[ss := Buried(g[ss])];
    }

    /** smart_socket_enqueue of a request for a device: the peer becomes an opener and the smart socket goes. */
    method SmartOpen(ss: Socket, t: nat)
      requires Valid() && ss in g && ss.kind == SmartKind && !ss.dead
      modifies this`outbox, this`g, ss, ss.peer
      ensures old(ss.peer) != null && old(ss.peer) in old(g)
      ensures
        var s := old(ss.peer);
        && State() == Hand(old(State()), ss, s, old(g)[s].(peer := null, transport := Some(t)))
        && outbox == old(outbox) + [Packet(OPEN, old(g)[s].id, 0, [])]
      ensures Valid() && g.Keys == old(g).Keys && g[old(ss.peer)].peer == null
      ensures old(Flows(State())) ==> Flows(State())
    {
      hide GoodBut, NodeOf, Buried, Flows;
      Synced(ss);
      HandOffGood(State(), ss, t);
      if Flows(State()) {
        HandFlows(State(), ss, t);
      }
      var s: Socket := ss.peer;
      Synced(s);
      Link(s, null, Some(t));
      outbox := outbox + [Packet(OPEN, s.id, 0, [])];
      Bury(ss);
    }

    /** s and s2 become peers, and smart socket ss lets go of s and is deleted. */
    method Splice(ss: Socket, s: Socket, s2: Socket)
      requires InSync() && ss in g && s in g && s2 in g && s != ss && s != s2 && s2 != ss && g[s2].transport == None
      modifies this`g, s`peer, s`transport, s2`peer, s2`transport, ss
      ensures InSync()
      ensures g == old(g)[s := old(g)[s].(peer := s2)][s2 := old(g)[s2].(peer := s)][ss := Buried(old(g)[ss])]
    {
      hide NodeOf, Buried;
      Synced(s);
      Link(s, s2, s.transport);
      Link(s2, s, None);
      Bury(ss);
    }

    /** smart_socket_enqueue of a request for the host itself: the peer is joined to a new service socket. */
    method SmartJoin(ss: Socket) returns (s2: Socket)
      requires Valid() && ss in g && ss.kind == SmartKind && !ss.dead && 0 < nextId < 0xFFFF_FFFF
      modifies this`list, this`nextId, this`owner, this`g, ss, ss.peer
      ensures old(ss.peer) != null && old(ss.peer) in old(g) && fresh(s2) && s2 !in old(g) && s2.kind == LocalKind
      ensures State() == Join(Install(old(State()), s2), ss, old(ss.peer), s2) && Valid()
    {
      hide GoodBut, NodeOf, Buried, Install;
      Synced(ss);
      HandOffGood(State(), ss, 0);
      s2 := CreateLocal();
      InstallShape(old(State()), s2);
      JoinGood(State(), ss, s2);
      Splice(ss, ss.peer, s2);
    }

    /** fdevent_del(s->fde, FDE_READ). */
    method Pause(s: Socket)
      requires Valid() && s in g
      modifies this`g, s`reading
      ensures Valid() && State() == Touch(old(State()), s, old(g)[s].(reading := false))
    {
      hide GoodBut;
      PauseGood(State(), s);
      SetReading(s, false);
    }

    /** The part of local_socket_flush_outgoing that hands data to a remote peer. */
    method SendToRemote(s: Socket, data: Bytes)
      requires Valid() && s in list && s in g && s.peer != null && s.peer in g && s.peer.kind == RemoteKind
      requires s.peer.peer == s && !s.peer.dead && data != [] && |data| <= MAX_PAYLOAD
      modifies this`outbox, this`g, s
      ensures Valid() && State() == SendW(old(State()), s, data)
      ensures outbox == old(outbox) + SendOut(old(State()), s, data)
    {
      hide GoodBut;
      var r := RemoteEnqueue(s.peer, data);
      ghost var m := g[s];
      if r > 0 {
        Pause(s);
        TouchTwice(old(State()), s, m, m.(reading := false));
      }
    }

    /** local_socket_flush_outgoing of a stream's socket, after its read loop got `data` and perhaps the end. */
    method OnReadableEvent(s: Socket, data: Bytes, eof: bool) returns (kept: bool)
      requires Valid() && s in g && !s.dead && OnStream(s) && |data| <= MAX_PAYLOAD
      modifies this`list, this`closingList, this`outbox, this`g, s, s.peer
      ensures Valid() && kept == !eof && Elsewhere(old(State()), State(), s)
      ensures PeerKept(old(State()), State(), s) && g.Keys == old(g.Keys)
      ensures AbsOf(State(), s) == OnReadable(old(s.id), AbsOf(old(State()), s), data, eof).0
      ensures outbox == old(outbox) + OnReadable(old(s.id), AbsOf(old(State()), s), data, eof).1
    {
      hide GoodBut, Without, CloseW, ShutdownOut, OnReadable, Closable, AbsOf, Elsewhere, PeerKept;
      StreamFacts(State(), s);
      SendKeeps(State(), s, data);
      ReadableIs(State(), s, data, eof);
      ReadableSends(State(), s, data, eof);
      ReadableElsewhere(State(), s, data);
      ghost var out := SendOut(State(), s, data);
      if data != [] && s.peer != null {
        SendToRemote(s, data);
      }
      assert outbox == old(outbox) + out;
      if eof {
        ghost var more := ShutdownOut(State(), s);
        Close(s);
        Assoc(old(outbox), out, more);
        return false;
      }
      assert out + [] == out;
      return true;
    }

    /** find_local_socket: ids are unique, so the first match is the only one. */
    method Find(local: nat, remote: nat) returns (s: Socket?)
      requires Valid()
      ensures s != null ==> s in list && s in g && s.id == local && local in owner && owner[local] == s
      ensures s != null ==> remote == 0 || (s.peer != null && s.peer.id == remote)
      ensures s == null && local in owner && owner[local] in list ==>
        remote != 0 && !(owner[local].peer != null && owner[local].peer.id == remote)
    {
      hide Without;
      s := null;
      for i := 0 to |list|
        invariant forall k :: 0 <= k < i ==> list[k].id != local
      {
        AboutListed(State(), list[i]);
        OwnerFacts(State(), list[i]);
        if list[i].id == local {
          if remote == 0 || (list[i].peer != null && list[i].peer.id == remote) {
            s := list[i];
          }
          return;
        }
      }
    }

    /** An OKAY that finds an opener gives it its peer and lets it read. */
    method PairFor(s: Socket, p: Packet, t: nat)
      requires Valid() && s in list && s in g && s.peer == null && p.cmd == OKAY && p.arg0 != 0
      requires p.arg1 in owner && owner[p.arg1] == s
      modifies this`outbox, this`g, s
      ensures Valid() && Grown() && outbox == old(outbox) && Handled(old(State()), State(), [], p, Again)
      ensures OwnerPeerKept(old(State()), State(), p.arg1)
    {
      hide GoodBut, Handled, NodeOf, Closable, Pair;
      Synced(s);
      AboutListed(State(), s);
      var r := PairWithRemote(s, p.arg0, t);
      OkayPairs(old(State()), s, r, p, Again, t);
      PairsRemote(old(State()), s, r, p.arg0, t);
      Ready(s);
    }

    /** handle_packet of an OKAY: pair an opener, or let the socket read on; answer a CLSE if it is gone. */
    method OnOkay(p: Packet, t: nat) returns (ghost out: seq<Packet>)
      requires Valid() && p.cmd == OKAY && p.arg0 != 0 && p.arg1 != 0
      modifies this`outbox, this`g, g.Keys
      ensures Valid() && Grown() && outbox == old(outbox) + out && Handled(old(State()), State(), out, p, Again)
      ensures OwnerPeerKept(old(State()), State(), p.arg1)
    {
      hide GoodBut, Handled, NodeOf, Closable;
      UnchangedPeers(State(), p.arg1);
      out := [];
      var s := Find(p.arg1, 0);
      if s == null {
        out := [Packet(CLSE, p.arg1, p.arg0, [])];
        outbox := outbox + [Packet(CLSE, p.arg1, p.arg0, [])];
        OkayMisses(State(), p);
        return;
      }
      AboutListed(State(), s);
      Synced(s);
      if s.peer == null {
        PairFor(s, p, t);
      } else {
        Synced(s.peer);
        OkayReadies(State(), s, p, Again);
        if s.peer.id == p.arg0 {
          Ready(s);
        }
      }
    }

    /** What a CLSE or WRTE that find_local_socket has no socket for leaves behind. */
    lemma Missed(p: Packet, o: WriteResult)
      requires Valid() && (p.cmd == CLSE || (p.cmd == WRTE && p.arg0 != 0)) && p.arg1 != 0
      requires p.arg1 in owner && owner[p.arg1] in list ==>
        var s := owner[p.arg1]; p.arg0 != 0 && !(s.peer != null && s.peer.id == p.arg0)
      ensures Handled(State(), State(), [], p, o)
    {
      hide GoodBut, Handled;
      if p.arg1 in owner && owner[p.arg1] in list {
        AboutListed(State(), owner[p.arg1]);
      }
      if p.cmd == CLSE {
        ClseMisses(State(), p, o);
      } else {
        WrteMisses(State(), p, o);
      }
    }

    /** A CLSE with arg0 of 0 from a transport that is not that of the socket's peer is ignored. */
    ghost predicate Foreign(p: Packet, t: nat) reads this, g.Keys {
      && p.arg0 == 0 && p.arg1 in owner && owner[p.arg1] in g && owner[p.arg1] in list
      && var n := g[owner[p.arg1]]; n.peer != null && n.peer in g && g[n.peer].transport != Some(t)
    }

    /** Records in the history of s whether a CLSE closed it. */
    ghost method Fin(s: Socket, fin: bool)
      requires InSync() && s in g
      modifies this`g, s`finned
      ensures InSync() && State() == Touch(old(State()), s, old(g)[s].(finned := fin))
    {
      hide NodeOf;
      PutFin(s, fin);
      g := g[s := g[s].(finned := fin)];
    }

    /** s->close(s) on behalf of a CLSE that found s. */
    method CloseFor(s: Socket, p: Packet) returns (ghost out: seq<Packet>)
      requires Valid() && s in list && s in g && p.cmd == CLSE && p.arg1 in owner && owner[p.arg1] == s
      requires p.arg0 == 0 || (s.peer != null && s.peer in g && s.peer.id == p.arg0)
      modifies this`list, this`closingList, this`outbox, this`g, s, s.peer
      ensures Valid() && Grown() && outbox == old(outbox) + out && Handled(old(State()), State(), out, p, Again)
      ensures OwnerPeerKept(old(State()), State(), p.arg1) && s !in list
    {
      hide GoodBut, Handled, CloseW, Without, ShutdownOut;
      out := ShutdownOut(State(), s);
      ClosedGood(State(), s);
      AboutListed(State(), s);
      CloseEnds(State(), s);
      CloseAt(State(), s, s);
      ClseCloses(State(), s, p);
      ghost var fin := s.peer != null;
      Close(s);
      Fin(s, fin);
    }

    /** A listed socket owns its id. */
    lemma OneOwner(i: nat)
      requires Valid()
      ensures forall s :: s in list && s.id == i ==> s in g && i in owner && owner[i] == s
    {
      hide GoodBut, NodeOf, Closable;
      forall s | s in list && s.id == i ensures s in g && i in owner && owner[i] == s {
        AboutListed(State(), s);
        Synced(s);
        OwnerFacts(State(), s);
      }
    }

    /** handle_packet of a CLSE. */
    method OnClse(p: Packet, t: nat) returns (ghost out: seq<Packet>)
      requires Valid() && p.cmd == CLSE && p.arg1 != 0
      modifies this`list, this`closingList, this`outbox, this`g, g.Keys
      ensures Valid() && Grown() && outbox == old(outbox) + out
      ensures if old(Foreign(p, t)) then State() == old(State()) && out == []
              else Handled(old(State()), State(), out, p, Again)
      ensures p.arg0 == 0 ==>
        forall s :: s in old(list) && s in old(g) && old(s.id) == p.arg1 && old(s.peer) != null ==>
          (s in list <==> old(s.peer.transport) != Some(t))
      ensures OwnerPeerKept(old(State()), State(), p.arg1)
    {
      hide GoodBut, Handled, CloseW, Without, ShutdownOut, Closable, Good;
      OneOwner(p.arg1);
      UnchangedPeers(State(), p.arg1);
      out := [];
      var s := Find(p.arg1, p.arg0);
      if s == null {
        Missed(p, Again);
        return;
      }
      AboutListed(State(), s);
      if p.arg0 == 0 && s.peer != null && s.peer.transport != Some(t) {
        return;
      }
      out := CloseFor(s, p);
    }

    /** s->enqueue(s, payload) on behalf of a WRTE that found s: an OKAY at once if all was written. */
    method WriteFor(s: Socket, p: Packet, o: WriteResult) returns (ghost out: seq<Packet>)
      requires Valid() && s in list && s in g && p.cmd == WRTE && p.arg0 != 0 && p.arg1 in owner && owner[p.arg1] == s
      requires s.peer != null && s.peer in g && s.peer.id == p.arg0 && Plausible(o, s.queue + p.data)
      modifies this`list, this`closingList, this`outbox, this`g, s, s.peer
      ensures Valid() && Grown() && outbox == old(outbox) + out && Handled(old(State()), State(), out, p, o)
      ensures OwnerPeerKept(old(State()), State(), p.arg1)
    {
      hide GoodBut, Handled, FlushW, Flush, NodeOf, AbsOf, PeerKept, Touch;
      out := [];
      Synced(s);
      Synced(s.peer);
      WrteFlushes(State(), s, p, o);
      WrteKeepsPeer(State(), s, p.data, o);
      var id := s.id;
      var r := LocalEnqueue(s, p.data, o);
      if r == 0 {
        out := [Packet(OKAY, id, p.arg0, [])];
        outbox := outbox + [Packet(OKAY, id, p.arg0, [])];
      }
    }

    /** handle_packet of a WRTE. */
    method OnWrte(p: Packet, o: WriteResult) returns (ghost out: seq<Packet>)
      requires Valid() && p.cmd == WRTE && p.arg0 != 0 && p.arg1 != 0
      requires p.arg1 in owner ==> owner[p.arg1] in g && Plausible(o, owner[p.arg1].queue + p.data)
      modifies this`list, this`closingList, this`outbox, this`g, g.Keys
      ensures Valid() && Grown() && outbox == old(outbox) + out && Handled(old(State()), State(), out, p, o)
      ensures OwnerPeerKept(old(State()), State(), p.arg1)
    {
      hide GoodBut, Handled, Without, PeerKept;
      UnchangedPeers(State(), p.arg1);
      out := [];
      var s := Find(p.arg1, p.arg0);
      if s == null {
        Missed(p, o);
        return;
      }
      AboutListed(State(), s);
      out := WriteFor(s, p, o);
    }

    /** create_local_service_socket, paired with the sender of an OPEN. */
    method NewService(id: nat, t: nat) returns (s: Socket, r: Socket)
      requires Valid() && id != 0 && 0 < nextId < 0xFFFF_FFFF
      modifies this`list, this`nextId, this`g, this`owner
      ensures Valid() && Grown() && s !in old(g) && r !in old(g) && r != s && fresh(s) && fresh(r)
      ensures State() == Pair(Install(old(State()), s), s, r, id, t)
      ensures s in g && s.peer == r && s.id == old(nextId) && s.kind == LocalKind
    {
      hide GoodBut, NodeOf, Pair;
      s := CreateLocal();
      Synced(s);
      r := PairWithRemote(s, id, t);
    }

    /** An OPEN that is granted: a service socket paired with the sender, an OKAY, and the socket reads. */
    method Serve(id: nat, t: nat) returns (s: Socket, r: Socket)
      requires Valid() && id != 0 && 0 < nextId < 0xFFFF_FFFF
      modifies this`list, this`nextId, this`outbox, this`g, this`owner
      ensures Valid() && Grown() && s !in old(g) && r !in old(g) && r != s
      ensures State() == Opened(old(State()), s, r, id, t)
      ensures outbox == old(outbox) + [Packet(OKAY, old(nextId), id, [])]
    {
      hide GoodBut, NodeOf, Pair, Install;
      s, r := NewService(id, t);
      outbox := outbox + [Packet(OKAY, s.id, id, [])];
      Ready(s);
    }

    /** handle_packet of an OPEN: a service socket paired with the sender, or a CLSE when there is no such service. */
    method OnOpen(p: Packet, t: nat, granted: bool, ghost o: WriteResult, ghost e: Endpoint)
      returns (ghost out: seq<Packet>)
      requires Valid() && p.cmd == OPEN && p.arg0 != 0 && p.arg1 == 0 && (granted ==> 0 < nextId < 0xFFFF_FFFF)
      modifies this`list, this`nextId, this`outbox, this`g, this`owner
      ensures Valid() && Grown() && outbox == old(outbox) + out
      ensures old(Shows(State(), e)) ==>
        var (e', out') := HandlePacket(e, p, if granted then Some(old(nextId)) else None, o);
        Shows(State(), e') && out == out'
      ensures old(Flows(State())) ==> Flows(State())
    {
      hide GoodBut, Shows, Opened, NodeOf, Flows;
      if !granted {
        out := [Packet(CLSE, 0, p.arg0, [])];
        outbox := outbox + [Packet(CLSE, 0, p.arg0, [])];
        return;
      }
      out := [Packet(OKAY, nextId, p.arg0, [])];
      var s, r := Serve(p.arg0, t);
      if old(Shows(State(), e)) {
        OpenedRefines(old(State()), s, r, e, p, t, o);
      }
      if old(Flows(State())) {
        OpenedFlows(old(State()), s, r, p.arg0, t);
      }
    }

    /** A socket's vtable is its own for life. */
    twostate lemma KindsKept()
      requires old(InSync()) && InSync() && old(g).Keys <= g.Keys
      ensures forall x :: x in old(g) ==> x in g && g[x].kind == old(g)[x].kind
    {
    }

    /** Every joined pair flows, and packet p is for none of them. */
    ghost predicate FlowsBut(p: Packet) reads this`g, this`list, this`closingList, this`nextId, this`owner {
      Flows(State()) && (p.arg1 in owner && owner[p.arg1] in g ==> !OffStream(State(), owner[p.arg1]))
    }

    /** The online cases of handle_packet, against the streams of the endpoint as values. */
    method Receive(p: Packet, t: nat, granted: bool, o: WriteResult, ghost e: Endpoint)
      returns (ghost out: seq<Packet>)
      requires Valid() && (granted ==> 0 < nextId < 0xFFFF_FFFF)
      requires p.cmd == WRTE && p.arg1 in owner ==> owner[p.arg1] in g && Plausible(o, g[owner[p.arg1]].queue + p.data)
      modifies this, g.Keys
      ensures Valid() && Grown() && outbox == old(outbox) + out
      ensures old(Shows(State(), e) && ForStream(State(), e, p, o) && !(p.cmd == CLSE && Foreign(p, t))) ==>
        var (e', out') := HandlePacket(e, p, if granted then Some(old(nextId)) else None, o);
        Shows(State(), e') && out == out'
      ensures p.cmd == CLSE && old(Foreign(p, t)) ==> State() == old(State()) && out == []
      ensures old(FlowsBut(p)) ==> Flows(State())
    {
      hide GoodBut, Shows, Handled, Foreign, HandlePacket, Flows, OffStream, ForStream;
      ghost var svc := if granted then Some(nextId) else None;
      if Ignored(p) {
        out := [];
        IgnoredPacket(p, svc, o, e);
        return;
      }
      match p.cmd {
        case OPEN => out := OnOpen(p, t, granted, o, e);
        case OKAY => out := OnOkay(p, t);
        case CLSE => out := OnClse(p, t);
        case WRTE => out := OnWrte(p, o);
      }
      if p.cmd != OPEN && !(p.cmd == CLSE && old(Foreign(p, t))) {
        if p.cmd != WRTE {
          HandledAny(old(State()), State(), out, p, o);
        }
        HandledKeys(old(State()), State(), out, p, o);
        KindsKept();
        if old(Shows(State(), e) && ForStream(State(), e, p, o)) {
          HandledRefines(old(State()), State(), out, e, p, svc, o);
        }
        if old(FlowsBut(p)) {
          HandledFlows(old(State()), State(), out, p, o);
        }
      }
    }

    lemma IgnoredPacket(p: Packet, svc: Option<nat>, o: WriteResult, e: Endpoint)
      requires Ignored(p)
      ensures ForStream(State(), e, p, o) ==> HandlePacket(e, p, svc, o) == (e, [])
    {
      if ForStream(State(), e, p, o) {
        IgnoredRefines(e, p, svc, o);
      }
    }

    /** FDE_READ of a socket on a stream, as a step of the endpoint. */
    method ReadStep(s: Socket, data: Bytes, eof: bool, ghost e: Endpoint)
      requires Valid() && Shows(State(), e) && s in g && s.kind == LocalKind && !s.dead && s.id in e
      requires |data| <= MAX_PAYLOAD
      modifies this`list, this`closingList, this`outbox, this`g, s, s.peer
      ensures Valid() && g.Keys == old(g.Keys)
      ensures
        var (c, out) := OnReadable(old(s.id), e[old(s.id)], data, eof);
        Shows(State(), e[old(s.id) := c]) && outbox == old(outbox) + out
    {
      hide GoodBut, OnReadable, Elsewhere, PeerKept, AbsOf, Shows;
      Synced(s);
      OnItsStream(State(), e, s);
      var kept := OnReadableEvent(s, data, eof);
      KindsKept();
      ElsewhereShows(old(State()), State(), e, old(s.id));
    }

    /** FDE_WRITE of a socket on a stream, as a step of the endpoint. */
    method WriteStep(s: Socket, o: WriteResult, ghost e: Endpoint)
      requires Valid() && Shows(State(), e) && s in g && s.kind == LocalKind && !s.dead && s.id in e
      requires s.writing && Plausible(o, s.queue)
      modifies this`list, this`closingList, this`outbox, this`g, s, s.peer
      ensures Valid() && g.Keys == old(g.Keys) && e[old(s.id)].queue == old(s.queue)
      ensures
        var (c, out) := OnWritable(old(s.id), e[old(s.id)], o);
        Shows(State(), e[old(s.id) := c]) && outbox == old(outbox) + out
    {
      hide GoodBut, OnWritable, Elsewhere, PeerKept, Shows;
      Synced(s);
      OnItsStream(State(), e, s);
      OnWritableEvent(s, o);
      KindsKept();
      ElsewhereShows(old(State()), State(), e, old(s.id));
    }

    /** A new local socket bound to transport t. */
    method NewOpener(t: nat) returns (s: Socket)
      requires Valid() && 0 < nextId < 0xFFFF_FFFF
      modifies this`list, this`nextId, this`g, this`owner
      ensures Valid() && fresh(s) && s.id == old(nextId) && Grown() && State() == Opener(old(State()), s, t)
    {
      hide GoodBut, NodeOf;
      s := CreateLocal();
      Synced(s);
      OpenerGood(old(State()), s, t);
      Link(s, null, Some(t));
    }

    /** A listener's new connection: a local socket and connect_to_remote, as a step of the endpoint. */
    method ConnectStep(t: nat, ghost e: Endpoint) returns (s: Socket)
      requires Valid() && Shows(State(), e) && 0 < nextId < 0xFFFF_FFFF
      modifies this`list, this`nextId, this`outbox, this`g, this`owner
      ensures Valid() && fresh(s) && Grown()
      ensures old(nextId) !in e && Shows(State(), e[old(nextId) := FRESH])
      ensures outbox == old(outbox) + [Packet(OPEN, old(nextId), 0, [])]
    {
      hide GoodBut, Shows, NodeOf, Opener;
      s := NewOpener(t);
      OpenerShows(old(State()), e, s, t);
      outbox := outbox + [Packet(OPEN, s.id, 0, [])];
    }

    /** connect_to_smartsocket. */
    method ConnectToSmart(s: Socket) returns (ss: Socket)
      requires Valid() && s in list && s in g && s.peer == null
      modifies this`g, this`outbox, s
      ensures Valid() && fresh(ss) && outbox == old(outbox)
      ensures ss.kind == SmartKind && ss.smartData == [] && s.peer == ss
      ensures var w := Attend(old(State()), s, ss); State() == Touch(w, s, w.g[s].(reading := true))
      ensures old(Flows(State())) ==> Flows(State())
    {
      hide GoodBut, Flows, NodeOf, Closable;
      AboutListed(State(), s);
      Synced(s);
      ss := NewPeer(s, SmartKind, 0, None);
      AttendGood(old(State()), s, ss);
      if old(Flows(State())) {
        AttendFlows(old(State()), s, ss);
      }
      Ready(s);
    }

    /** smart_socket_enqueue of a service of the host, to its return. */
    method SmartService(ss: Socket) returns (s2: Socket)
      requires Valid() && ss in g && ss.kind == SmartKind && !ss.dead && 0 < nextId < 0xFFFF_FFFF
      modifies this, ss, ss.peer
      ensures Valid() && fresh(s2) && g.Keys == old(g).Keys + {s2} && list == old(list) + [s2] && old(nextId) <= nextId
      ensures old(ss.peer) != null && old(ss.peer) in old(g) && s2 !in old(g) && outbox == old(outbox)
      ensures State() == JoinedW(old(State()), ss, old(ss.peer), s2) && g[old(ss.peer)].peer == s2
      ensures old(Flows(State())) ==> Flows(State())
    {
      hide GoodBut, Install, Join, NodeOf, Closable, Flows;
      Synced(ss);
      SmartFacts(State(), ss);
      s2 := SmartJoin(ss);
      JoinShape(old(State()), ss, old(ss.peer), s2);
      if old(Flows(State())) {
        JoinFlows(old(State()), ss, s2);
      }
      Synced(s2);
      Ready(s2);
    }

    /** smart_socket_close with a peer: the failing end of smart_socket_enqueue. */
    method SmartRefuse(ss: Socket)
      requires Valid() && ss in g && ss.kind == SmartKind && !ss.dead
      modifies this`list, this`closingList, this`outbox, this`g, ss, ss.peer
      ensures old(ss.peer) != null && old(ss.peer) in old(g) && old(ss.peer) !in list
      ensures Valid() && g.Keys == old(g.Keys)
      ensures State() == CloseW(old(State()), ss) && outbox == old(outbox)
      ensures old(Flows(State())) ==> Flows(State())
    {
      hide GoodBut, CloseW, Without, Closable, Flows;
      Synced(ss);
      SmartFacts(State(), ss);
      CloseAt(State(), ss, ss.peer);
      ClosesFlow(State(), ss);
      Close(ss);
    }

    /** smart_socket_enqueue of a whole request, once dispatched. */
    method SmartDispatch(ss: Socket, act: Dispatch) returns (r: int)
      requires Valid() && ss in g && ss.kind == SmartKind && !ss.dead && (act.HostService? ==> 0 < nextId < 0xFFFF_FFFF)
      modifies this, ss, ss.peer
      ensures old(ss.peer) != null && old(ss.peer) in old(g) && Valid() && Grown()
      ensures r == match act case OpenRemote(_) => 1 case Refused => -1 case _ => 0
      ensures old(ss.peer) in list <==> !act.Refused?
      ensures r > 0 ==> g[old(ss.peer)].peer == null
      ensures Dispatched(old(State()), State(), ss, act) && outbox == old(outbox) + OpenOut(act, old(ss.peer.id))
      ensures act.Selected? ==> ss.smartData == []
      ensures old(Flows(State())) ==> Flows(State())
    {
      hide GoodBut, Closable, Hand, NodeOf, Flows, CloseW, JoinedW;
      Synced(ss);
      SmartFacts(State(), ss);
      Synced(ss.peer);
      match act
      case Refused =>
        SmartRefuse(ss);
        r := -1;
      case Selected =>
        PutSmart(ss, []);
        r := 0;
      case HostService =>
        var s2 := SmartService(ss);
        r := 0;
      case OpenRemote(t) =>
        SmartOpen(ss, t);
        r := 1;
    }

    /**
     smart_socket_enqueue. The caller reads -1 as "closed you as a side effect", which is so for every request
     but one whose transport id does not parse.
     */
    method SmartEnqueue(ss: Socket, data: Bytes, act: Dispatch) returns (r: int)
      requires Valid() && ss in g && ss.kind == SmartKind && !ss.dead && (act.HostService? ==> 0 < nextId < 0xFFFF_FFFF)
      modifies this, ss, ss.peer
      ensures old(ss.peer) != null && old(ss.peer) in old(g) && Valid() && Grown()
      ensures r < 0 <==> Unparsed(old(ss.smartData) + data) || Refuses(old(ss.smartData) + data, act)
      ensures old(ss.peer) in list <==> !Refuses(old(ss.smartData) + data, act)
      ensures r > 0 ==> g[old(ss.peer)].peer == null
      ensures r > 0 <==> Opens(old(ss.smartData) + data, act)
      ensures
        var d := old(ss.smartData) + data;
        && Requested(old(State()), State(), ss, d, act) && BufferAfter(ss.smartData, d, act)
        && outbox == old(outbox) + if Opens(d, act) then OpenOut(act, old(ss.peer.id)) else []
      ensures old(Flows(State())) ==> Flows(State())
    {
      hide GoodBut, Decode, Terminated, NodeOf, Closable, Flows, Dispatched, CloseW;
      Synced(ss);
      SmartFacts(State(), ss);
      PutSmart(ss, ss.smartData + data);
      match Decode(ss.smartData)
      case More => r := 0;
      case BadSize =>
        SmartRefuse(ss);
        r := -1;
      case BadId =>
        BadIdIsLong(ss.smartData);
        PutSmart(ss, Terminated(ss.smartData));
        r := -1;
      case Whole(_) => r := SmartDispatch(ss, act);
    }

    /** p->enqueue(p, data) for a local peer: every byte is at its fd or in its queue. */
    method EnqueueJoined(p: Socket, data: Bytes, o: WriteResult) returns (r: int)
      requires Valid() && p in list && p in g && p.peer != null && p.peer in g && p.peer.kind == LocalKind
      requires Plausible(o, p.queue + data)
      modifies this`list, this`closingList, this`outbox, this`g, p, p.peer
      ensures Valid() && g.Keys == old(g.Keys) && list == old(list) && 0 <= r && outbox == old(outbox)
      ensures p in g && g[p].wrote + g[p].queue == old(g[p].wrote + g[p].queue) + data
      ensures !old(g)[p].closing && State() == Enqueued(old(State()), p, data, o)
      ensures r > 0 <==> WantsMore(old(g)[p].(queue := old(g)[p].queue + data), o)
    {
      hide GoodBut, FlushW, Flush, NodeOf, WantsMore, Written, AbsOf;
      Synced(p);
      Synced(p.peer);
      AboutListed(State(), p);
      EnqueueMoves(State(), p, data, o);
      EnqueuedIs(State(), p, data, o);
      r := LocalEnqueue(p, data, o);
    }

    /** peer->enqueue(peer, data) for a local peer, which may pause s. */
    method HandToLocal(s: Socket, data: Bytes, o: WriteResult)
      requires Valid() && s in list && s in g && s.peer != null && s.peer in g && s.peer.kind == LocalKind
      requires Plausible(o, s.peer.queue + data)
      modifies this`list, this`closingList, this`outbox, this`g, s, s.peer
      ensures Valid() && g.Keys == old(g.Keys) && list == old(list) && outbox == old(outbox)
      ensures old(g)[s].peer != null && old(g)[s].peer in old(g) && old(g)[s].peer != s
      ensures !old(g)[old(g)[s].peer].closing && Plausible(o, old(g)[old(g)[s].peer].queue + data)
      ensures State() == HandoverW(old(State()), s, data, o)
      ensures
        var p := old(g)[s].peer;
        p in g && g[p].wrote + g[p].queue == old(g)[p].wrote + old(g)[p].queue + data
    {
      hide GoodBut, Enqueued, WantsMore, NodeOf;
      Synced(s);
      Synced(s.peer);
      PeerFacts(State(), s);
      NearbyFacts(State(), s.peer);
      var r := EnqueueJoined(s.peer, data, o);
      if r > 0 {
        Pause(s);
      }
    }

    /** peer->enqueue(peer, data) for a smart peer. */
    method HandToSmart(s: Socket, data: Bytes, act: Dispatch) returns (r: int)
      requires Valid() && s in list && s in g && s.peer != null && s.peer in g && s.peer.kind == SmartKind
      requires act.HostService? ==> 0 < nextId < 0xFFFF_FFFF
      modifies this, s, s.peer
      ensures Valid() && Grown() && s in g
      ensures
        var d := old(s.peer.smartData) + data;
        && (r < 0 <==> Unparsed(d) || Refuses(d, act)) && (s in list <==> !Refuses(d, act))
        && SmartHands(old(State()), State(), s, d, act) && BufferAfter(old(s.peer).smartData, d, act)
        && outbox == old(outbox) + if Opens(d, act) then OpenOut(act, old(s.id)) else []
      ensures old(Flows(State())) ==> Flows(State())
    {
      hide GoodBut, Unparsed, Refuses, Flows, NodeOf, Requested, BufferAfter, Opens, OpeningW, OpenOut;
      Synced(s);
      Synced(s.peer);
      PeerFacts(State(), s);
      ghost var (p, d) := (s.peer, s.peer.smartData + data);
      r := SmartEnqueue(s.peer, data, act);
      if r > 0 {
        OpensHand(old(State()), State(), p, d, act);
        if Flows(State()) {
          PauseFlows(State(), s);
        }
        Pause(s);
      }
    }

    /** The middle of local_socket_flush_outgoing of such a socket: its peer takes the data, and may pause it. */
    method HandOver(s: Socket, data: Bytes, act: Dispatch, o: WriteResult) returns (r: int)
      requires Valid() && s in list && s in g && s.peer != null && s.peer in g && s.peer.kind != RemoteKind
      requires s.peer.kind == LocalKind ==> Plausible(o, s.peer.queue + data)
      requires data != [] && (act.HostService? ==> 0 < nextId < 0xFFFF_FFFF)
      modifies this, s, s.peer
      ensures Valid() && Grown()
      ensures
        var (smart, d) := (old(s.peer.kind == SmartKind), old(s.peer.smartData) + data);
        && (r < 0 <==> smart && (Unparsed(d) || Refuses(d, act))) && (s in list <==> !(smart && Refuses(d, act)))
        && HandsOver(old(State()), State(), s, data, d, act, o)
        && (smart ==> BufferAfter(old(s.peer).smartData, d, act))
        && outbox == old(outbox) + if smart && Opens(d, act) then OpenOut(act, old(s.id)) else []
      ensures Passed(old(State()), State(), s, data)
      ensures old(Flows(State())) ==>
        FlowsExcept(State(), s) && (Flows(State()) <==> !LeavesIdle(old(State()), s, data, o))
    {
      hide GoodBut, Unparsed, Refuses, Opens, Flows, FlowsExcept, NodeOf, LeavesIdle;
      hide HandoverW, SmartHands, BufferAfter;
      Synced(s);
      Synced(s.peer);
      IdleOnlyLocal(State(), s, data, o);
      PeerFacts(State(), s);
      if s.peer.kind == SmartKind {
        r := HandToSmart(s, data, act);
      } else {
        if Flows(State()) {
          HandoverFlows(State(), s, data, o);
        }
        HandToLocal(s, data, o);
        r := 0;
      }
      FlowsAtMost(State(), s);
    }

    /** The end of local_socket_flush_outgoing. */
    method CloseAtEnd(s: Socket)
      requires Valid() && s in list
      modifies this`list, this`closingList, this`outbox, this`g, g.Keys
      ensures Valid() && g.Keys == old(g.Keys) && s !in list
      ensures old(Closable(State(), s)) && Parted(old(State()), State(), s)
      ensures outbox == old(outbox) + ShutdownOut(old(State()), s)
      ensures old(FlowsExcept(State(), s)) ==> Flows(State())
    {
      hide GoodBut, CloseW, Without, ShutdownOut, Closable, Flows, FlowsExcept;
      AboutListed(State(), s);
      CloseAt(State(), s, s);
      ClosesFlow(State(), s);
      Close(s);
    }

    /**
     local_socket_flush_outgoing of a socket joined to a local or a smart one, after its read loop. It returns
     false exactly when s is off the list, except when the bytes a smart socket then has are a request whose
     transport id does not parse. Joined pairs keep their subscriptions exactly unless s is left idle. `mid` is the
     state before the close at end of file.
     */
    method FlushNearby(s: Socket, data: Bytes, eof: bool, act: Dispatch, o: WriteResult)
      returns (kept: bool, ghost mid: World)
      requires Valid() && s in list && s in g && s.peer != null && s.peer in g && s.peer.kind != RemoteKind
      requires s.peer.kind == LocalKind ==> Plausible(o, s.peer.queue + data)
      requires act.HostService? ==> 0 < nextId < 0xFFFF_FFFF
      modifies this, g.Keys
      ensures Valid() && Grown()
      ensures
        if data != [] && old(s.peer.kind == SmartKind) && Unparsed(old(s.peer.smartData) + data) then !kept && s in list
        else kept <==> s in list
      ensures
        var (smart, d) := (old(s.peer.kind == SmartKind), old(s.peer.smartData) + data);
        var ends := eof && !(data != [] && smart && (Unparsed(d) || Refuses(d, act)));
        && Good(mid) && (if data == [] then mid == old(State()) else HandsOver(old(State()), mid, s, data, d, act, o))
        && Passed(old(State()), mid, s, data)
        && (if ends then s in mid.list && Closable(mid, s) && Parted(mid, State(), s) else State() == mid)
        && (data != [] && smart && !ends ==> BufferAfter(old(s.peer).smartData, d, act))
        && (!ends ==> (s in list <==> !(data != [] && smart && Refuses(d, act))))
        && outbox == old(outbox) + if data != [] && smart && Opens(d, act) then OpenOut(act, old(s.id)) else []
      ensures old(Flows(State())) ==> (Flows(State()) <==> eof || !LeavesIdle(old(State()), s, data, o))
    {
      hide GoodBut, Decode, Flows, FlowsExcept, WantsMore, NodeOf, LeavesIdle, HandsOver, BufferAfter, Opens, Parted;
      hide Passed;
      Synced(s);
      Synced(s.peer);
      PeerFacts(State(), s);
      IdleOnlyLocal(State(), s, data, o);
      FlowsAtMost(State(), s);
      NearbyPeer(State(), s);
      PassedNothing(State(), s);
      if data != [] {
        ghost var d := s.peer.smartData + data;
        var r := HandOver(s, data, act, o);
        mid := State();
        if r < 0 {
          return false, mid;
        }
        StaysNearby(old(State()), mid, s, data, d, act, o);
      }
      mid := State();
      kept := !eof;
      if eof {
        CloseAtEnd(s);
      }
    }
  }

  lemma BadIdIsLong(d: Bytes)
    requires Decode(d).BadId?
    ensures |d| >= 4
  {
  }

  /**
   The read loop of local_socket_flush_outgoing, on an fd that holds `pending` and then blocks or, if `ended`,
   is at its end: how the bytes are split over reads makes no difference.
   */
  method ReadLoop(pending: Bytes, ended: bool, wants: nat -> nat, max: nat) returns (data: Bytes, eof: bool)
    ensures data == if |pending| < max then pending else pending[..max]
    ensures eof <==> ended && |pending| < max
  {
    data, eof := [], false;
    var avail := max;
    while avail > 0
      invariant 0 <= avail && avail + |data| == max && |data| <= |pending| && data == pending[..|data|]
    {
      var rest := pending[|data|..];
      if rest == [] {
        eof := ended;
        break;
      }
      var most := if |rest| < avail then |rest| else avail;
      var r := 1 + wants(avail) % most;
      data := data + rest[..r];
      avail := avail - r;
    }
    assert pending[..|pending|] == pending;
  }
}
