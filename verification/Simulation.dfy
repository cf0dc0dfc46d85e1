/**
 Two socket tables joined by two channels, next to a network of module Network that moves with them. Every
 event of a socket on a stream is a move of the network, a client's request that opens a stream is one too, and
 events of all other sockets leave the network alone. So what module StreamTheorems proves of reachable networks
 holds of the two tables at any time.
 */
module Simulation {
  import opened Seqs
  import opened Wire
  import opened Asocket
  import opened SmartRequest
  import opened SocketGraph
  import opened JoinedFlow
  import opened SocketTable
  import opened Network
  import opened StreamTheorems

  // ----- sockets on no stream

  /** A socket joined to a local or a smart one is on no stream, nor is its peer. */
  lemma JoinedIsOff(w: World, e: Endpoint, s: Socket)
    requires Good(w) && Shows(w, e) && s in w.g && w.g[s].kind == LocalKind
    requires w.g[s].peer != null && w.g[s].peer in w.g && w.g[w.g[s].peer].kind != RemoteKind
    ensures w.g[s].id !in e && (w.g[w.g[s].peer].kind == LocalKind ==> w.g[w.g[s].peer].id !in e)
  {
    var p: Socket := w.g[s].peer;
    OwnerFacts(w, s);
    assert LinkOk(w, s);
    assert w.g[s].id in e ==> ShowsAt(w, w.g[s].id, e[w.g[s].id]);
    if w.g[p].kind == LocalKind {
      OwnerFacts(w, p);
      assert w.g[p].id in e ==> ShowsAt(w, w.g[p].id, e[w.g[p].id]);
    }
  }

  /** Socket x has no remote peer. */
  predicate Unpaired(w: World, x: Socket)
    requires x in w.g
  {
    w.g[x].kind == LocalKind && w.g[x].peer != null && w.g[x].peer in w.g ==> w.g[w.g[x].peer].kind != RemoteKind
  }

  /** From w to w' only s and its peer changed, and no id was lost. */
  ghost predicate Steady(w: World, w': World, s: Socket) {
    && s in w.g && (forall i :: i in w.owner ==> i in w'.owner && w'.owner[i] == w.owner[i])
    && (forall x :: x in w.g ==> x in w'.g && w'.g[x].kind == w.g[x].kind)
    && (forall x :: x in w.g && x != s && x != w.g[s].peer ==> w'.g[x] == w.g[x])
  }

  /** And nobody got a remote peer. */
  ghost predicate Local(w: World, w': World, s: Socket) {
    Steady(w, w', s) && forall x :: x in w'.g && (x !in w.g || x == s || x == w.g[s].peer) ==> Unpaired(w', x)
  }

  /** A change of one end of the pair. */
  lemma TouchSteady(w: World, w1: World, s: Socket, x: Socket, n: Node)
    requires Steady(w, w1, s) && w1.g.Keys == w.g.Keys && x in w.g && x in {s, w.g[s].peer} && n.kind == w1.g[x].kind
    ensures Steady(w, Touch(w1, x, n), s) && Touch(w1, x, n).g.Keys == w.g.Keys
  {
  }

  lemma SteadySelf(w: World, s: Socket)
    requires s in w.g
    ensures Steady(w, w, s)
  {
  }

  lemma StaysLocal(w: World, w': World, s: Socket)
    requires Steady(w, w', s) && w'.g.Keys == w.g.Keys && Unpaired(w', s)
    requires w.g[s].peer != null && w.g[s].peer in w.g ==> Unpaired(w', w.g[s].peer)
    ensures Local(w, w', s)
  {
    hide Unpaired;
  }

  /** Then all streams are as they were. */
  lemma PairShows(w: World, w': World, e: Endpoint, s: Socket)
    requires Good(w) && Shows(w, e) && s in w.g && w.g[s].kind == LocalKind && w.g[s].id !in e
    requires w.g[s].peer != null ==> w.g[s].peer in w.g && w.g[w.g[s].peer].kind != RemoteKind
    requires Local(w, w', s)
    ensures Shows(w', e)
  {
    hide GoodBut, Shows;
    if w.g[s].peer == null {
      OffShows(w, w', e, e, {s});
    } else {
      JoinedIsOff(w, e, s);
      OffShows(w, w', e, e, {s, w.g[s].peer});
    }
  }

  lemma CloseSteady(w: World, s: Socket)
    requires s in w.g && (w.g[s].peer != null ==> w.g[s].peer in w.g)
    ensures
      var w' := CloseW(w, s);
      w'.owner == w.owner && w'.g.Keys == w.g.Keys && Steady(w, w', s)
  {
    hide Without, Park;
  }

  lemma CloseTouches(w: World, s: Socket)
    requires s in w.g && (w.g[s].peer != null ==> w.g[s].peer in w.g)
    ensures CloseW(w, s).owner == w.owner && CloseW(w, s).g.Keys == w.g.Keys && Local(w, CloseW(w, s), s)
  {
    CloseSteady(w, s);
    CloseSettles(w, s, s);
    if w.g[s].peer != null {
      CloseSettles(w, s, w.g[s].peer);
    }
    hide CloseW, Steady;
    StaysLocal(w, CloseW(w, s), s);
  }

  /** A pair seen from its other end. */
  lemma LocalSwaps(w: World, w': World, s: Socket)
    requires Local(w, w', s) && w.g[s].peer != null && w.g[s].peer in w.g && w.g[w.g[s].peer].peer == s
    ensures Local(w, w', w.g[s].peer)
  {
  }

  lemma JoinTouches(w: World, ss: Socket, s: Socket, s2: Socket)
    requires ss in w.g && s in w.g && s != ss && s2 !in w.g && w.nextId !in w.owner && w.g[s].kind == LocalKind
    requires w.g[s].peer == ss && w.g[ss].kind == SmartKind
    ensures Local(w, JoinedW(w, ss, s, s2), s)
  {
    var w' := JoinedW(w, ss, s, s2);
    JoinedShape(w, ss, s, s2);
    hide JoinedW;
    assert Steady(w, w', s);
    hide Steady;
    forall x | x in w'.g && (x !in w.g || x == s || x == ss) ensures Unpaired(w', x) {
    }
  }

  lemma JoinedShape(w: World, ss: Socket, s: Socket, s2: Socket)
    requires ss in w.g && s in w.g && s != ss && s2 !in w.g
    ensures
      var w' := JoinedW(w, ss, s, s2);
      && w'.owner == w.owner[w.nextId := s2] && w'.g.Keys == w.g.Keys + {s2}
      && w'.g[s] == w.g[s].(peer := s2) && w'.g[ss] == Buried(w.g[ss])
      && w'.g[s2].kind == LocalKind && w'.g[s2].peer == s
      && forall x :: x in w.g && x != s && x != ss ==> w'.g[x] == w.g[x]
  {
  }

  /** What bytes for a smart socket change, unless they open a stream. */
  lemma RequestTouches(w: World, w': World, s: Socket, d: Bytes, act: Dispatch)
    requires SmartHands(w, w', s, d, act) && !Opens(d, act) && w.g[w.g[s].peer].peer == s && w.g[s].peer != s
    requires w.nextId !in w.owner && w.g[s].kind == LocalKind && w.g[w.g[s].peer].kind == SmartKind
    ensures Local(w, w', s)
  {
    hide Decode, CloseW, JoinedW;
    var p: Socket := w.g[s].peer;
    if Refuses(d, act) {
      CloseTouches(w, p);
      LocalSwaps(w, w', p);
    } else if Decode(d).Whole? && act.HostService? {
      JoinTouches(w, p, s, w'.g[s].peer);
    }
  }

  lemma HandoverTouches(w: World, s: Socket, data: Bytes, o: WriteResult)
    requires s in w.g && w.g[s].peer != null && w.g[s].peer in w.g && w.g[s].peer != s
    requires !w.g[w.g[s].peer].closing && Plausible(o, w.g[w.g[s].peer].queue + data)
    requires w.g[s].kind == LocalKind && w.g[w.g[s].peer].kind == LocalKind && w.g[w.g[s].peer].peer == s
    ensures Local(w, HandoverW(w, s, data, o), s)
  {
    var p: Socket := w.g[s].peer;
    var n := w.g[p].(queue := w.g[p].queue + data);
    EnqueuedNode(n, o);
    hide Written, WantsMore, Steady, Local;
    SteadySelf(w, s);
    TouchSteady(w, w, s, p, Written(n, o));
    var w1 := Touch(w, p, Written(n, o));
    TouchSteady(w, w1, s, s, w1.g[s].(reading := false));
    StaysLocal(w, HandoverW(w, s, data, o), s);
  }

  /** The client that opens a stream is blank. */
  lemma OpeningShows(w: World, e: Endpoint, ss: Socket, s: Socket, t: nat)
    requires Good(w) && Shows(w, e) && s in w.list && s in w.g && w.g[s].peer == ss && ss in w.g
    requires w.g[ss].kind == SmartKind && !w.g[ss].dead
    ensures
      var w1 := OpeningW(w, ss, s, t);
      var w' := Touch(w1, s, w1.g[s].(reading := false));
      w.g[s].id !in e && Shows(w', e[w.g[s].id := FRESH])
  {
    var w1 := OpeningW(w, ss, s, t);
    var w' := Touch(w1, s, w1.g[s].(reading := false));
    AboutListed(w, s);
    OwnerFacts(w, s);
    assert FlagsOk(w, s) && LinkOk(w, ss);
    hide GoodBut, Shows, Closable;
    OpeningFresh(w, ss, s, t);
    JoinedIsOff(w, e, s);
    OpeningTouches(w, ss, s, t);
    hide ShowsAt, OpeningW, Local;
    PairShows(w, w', e, s);
    ShowsMore(w', e, w.g[s].id, FRESH);
  }

  lemma OpeningTouches(w: World, ss: Socket, s: Socket, t: nat)
    requires ss in w.g && s in w.g && s != ss && w.g[s].peer == ss && w.g[ss].kind == SmartKind
    ensures
      var w1 := OpeningW(w, ss, s, t);
      Local(w, Touch(w1, s, w1.g[s].(reading := false)), s)
  {
    var n := w.g[s].(peer := null, transport := Some(t));
    hide Steady, Local;
    SteadySelf(w, s);
    TouchSteady(w, w, s, s, n);
    TouchSteady(w, Touch(w, s, n), s, ss, Buried(w.g[ss]));
    var w1 := OpeningW(w, ss, s, t);
    assert w1 == Touch(Touch(w, s, n), ss, Buried(w.g[ss]));
    TouchSteady(w, w1, s, s, w1.g[s].(reading := false));
    StaysLocal(w, Touch(w1, s, w1.g[s].(reading := false)), s);
  }

  lemma OpeningFresh(w: World, ss: Socket, s: Socket, t: nat)
    requires ss in w.g && s in w.g && s != ss && Listing(w.g[s]) && Blank(w.g[s]) && !w.g[s].writing
    requires w.g[s].id in w.owner && w.owner[w.g[s].id] == s
    ensures
      var w1 := OpeningW(w, ss, s, t);
      ShowsAt(Touch(w1, s, w1.g[s].(reading := false)), w.g[s].id, FRESH)
  {
  }

  lemma ShowsMore(w: World, e: Endpoint, i: nat, c: Conn)
    requires Shows(w, e) && ShowsAt(w, i, c)
    ensures Shows(w, e[i := c])
  {
    hide ShowsAt;
  }

  /** What a client's or a joined socket's data does to the streams: nothing, or it opens one. */
  lemma HandsShow(w: World, w': World, e: Endpoint, s: Socket, data: Bytes, d: Bytes, act: Dispatch, o: WriteResult)
    requires Good(w) && Shows(w, e) && s in w.list && HandsOver(w, w', s, data, d, act, o)
    requires w.g[w.g[s].peer].kind != RemoteKind
    ensures w.g[s].id !in e
    ensures Shows(w', if w.g[w.g[s].peer].kind == SmartKind && Opens(d, act) then e[w.g[s].id := FRESH] else e)
  {
    AboutListed(w, s);
    PeerFacts(w, s);
    NextIdUnused(w);
    JoinedIsOff(w, e, s);
    hide GoodBut, Closable, Shows, Opens, HandoverW, OpeningW, Requested;
    if w.g[w.g[s].peer].kind == LocalKind {
      HandoverTouches(w, s, data, o);
      PairShows(w, w', e, s);
    } else if Opens(d, act) {
      OpeningShows(w, e, w.g[s].peer, s, act.transport);
    } else {
      RequestTouches(w, w', s, d, act);
      PairShows(w, w', e, s);
    }
  }

  /** The close at end of file. */
  lemma PartedShows(w: World, w': World, e: Endpoint, s: Socket)
    requires Good(w) && Shows(w, e) && Closable(w, s) && w.g[s].kind == LocalKind && Parted(w, w', s)
    requires w.g[s].peer != null ==> w.g[s].peer in w.g && w.g[w.g[s].peer].kind != RemoteKind && w.g[s].peer != s
    ensures Shows(w', if w.g[s].id in e then e[w.g[s].id := Close(e[w.g[s].id])] else e)
  {
    CloseEnds(w, s);
    CloseTouches(w, s);
    hide CloseW, Shows;
    if w.g[s].id in e {
      OnItsStream(w, e, s);
      CloseIs(w, s);
      CloseGood(w, s);
      hide GoodBut, AbsOf, Closable;
      ElsewhereShows(w, w', e, w.g[s].id);
    } else {
      hide GoodBut, AbsOf, Closable;
      PairShows(w, w', e, s);
    }
  }

  lemma AttendTouches(w: World, s: Socket, ss: Socket, e: Endpoint)
    requires s !in w.g && ss !in w.g && s != ss
    ensures
      var w1 := Attend(Install(w, s), s, ss);
      var w' := Touch(w1, s, w1.g[s].(reading := true));
      && w'.owner == w.owner[w.nextId := s] && w'.g.Keys == w.g.Keys + {s, ss}
      && CoveredAt(w', e, s) && CoveredAt(w', e, ss)
      && forall x :: x in w.g ==> w'.g[x] == w.g[x]
  {
  }

  /** A new client changes nothing that shows. */
  lemma AttendShows(w: World, s: Socket, ss: Socket, e: Endpoint)
    requires Good(w) && Shows(w, e) && s !in w.g && ss !in w.g && s != ss
    ensures
      var w1 := Attend(Install(w, s), s, ss);
      Shows(Touch(w1, s, w1.g[s].(reading := true)), e)
  {
    NextIdUnused(w);
    AttendTouches(w, s, ss, e);
    var w1 := Attend(Install(w, s), s, ss);
    hide GoodBut, Shows, CoveredAt, Attend, Install;
    OffShows(w, Touch(w1, s, w1.g[s].(reading := true)), e, e, {});
  }

  /** An event of a client or a joined socket, with the close at end of file. */
  lemma NearbyShows(w: World, mid: World, w': World, e: Endpoint, s: Socket,
                    data: Bytes, d: Bytes, eof: bool, act: Dispatch, o: WriteResult)
    requires Good(w) && Shows(w, e) && s in w.list && s in w.g && w.g[s].peer != null && w.g[s].peer in w.g
    requires w.g[w.g[s].peer].kind != RemoteKind && Good(mid)
    requires if data == [] then mid == w else HandsOver(w, mid, s, data, d, act, o)
    requires
      var ends := eof && !(data != [] && w.g[w.g[s].peer].kind == SmartKind && (Unparsed(d) || Refuses(d, act)));
      if ends then s in mid.list && Closable(mid, s) && Parted(mid, w', s) else w' == mid
    ensures w.g[s].id !in e && w.g[s].id != 0
    ensures
      var opens := data != [] && w.g[w.g[s].peer].kind == SmartKind && Opens(d, act);
      Shows(w', if opens then e[w.g[s].id := if eof then Close(FRESH) else FRESH] else e)
  {
    OpensStays(d, act);
    hide Shows, Parted, HandsOver, Good, Closable, Opens, Unparsed, Refuses;
    MidShows(w, mid, e, s, data, d, act, o);
    if eof && !(data != [] && w.g[w.g[s].peer].kind == SmartKind && (Unparsed(d) || Refuses(d, act))) {
      MidNearby(w, mid, s, data, d, act, o);
      if data != [] && w.g[w.g[s].peer].kind == SmartKind && Opens(d, act) {
        EndOpened(mid, w', e, s);
      } else {
        EndShows(mid, w', e, s);
      }
    }
  }

  lemma EndOpened(w: World, w': World, e: Endpoint, s: Socket)
    requires Good(w) && s in w.list && s in w.g && Closable(w, s) && Parted(w, w', s) && Nearby(w, s)
    requires Shows(w, e[w.g[s].id := FRESH])
    ensures Shows(w', e[w.g[s].id := Close(FRESH)])
  {
    hide Shows, Parted, Good, Closable, Nearby, Close;
    EndShows(w, w', e[w.g[s].id := FRESH], s);
    assert e[w.g[s].id := FRESH][w.g[s].id := Close(FRESH)] == e[w.g[s].id := Close(FRESH)];
  }

  lemma OpensStays(d: Bytes, act: Dispatch)
    ensures Opens(d, act) ==> !Unparsed(d) && !Refuses(d, act)
  {
    hide Decode;
  }

  lemma MidShows(w: World, mid: World, e: Endpoint, s: Socket, data: Bytes, d: Bytes, act: Dispatch, o: WriteResult)
    requires Good(w) && Shows(w, e) && s in w.list && s in w.g && w.g[s].peer != null && w.g[s].peer in w.g
    requires w.g[w.g[s].peer].kind != RemoteKind
    requires if data == [] then mid == w else HandsOver(w, mid, s, data, d, act, o)
    ensures w.g[s].id !in e && w.g[s].id != 0
    ensures
      var opens := data != [] && w.g[w.g[s].peer].kind == SmartKind && Opens(d, act);
      Shows(mid, if opens then e[w.g[s].id := FRESH] else e)
  {
    AboutListed(w, s);
    ListedId(w, s);
    hide GoodBut, Shows, Closable, HandsOver, Opens;
    JoinedIsOff(w, e, s);
    if data != [] {
      HandsShow(w, mid, e, s, data, d, act, o);
    }
  }

  lemma MidNearby(w: World, mid: World, s: Socket, data: Bytes, d: Bytes, act: Dispatch, o: WriteResult)
    requires Good(w) && s in w.list && s in w.g && w.g[s].peer != null && w.g[s].peer in w.g
    requires w.g[w.g[s].peer].kind != RemoteKind
    requires if data == [] then mid == w else HandsOver(w, mid, s, data, d, act, o)
    requires data != [] && w.g[w.g[s].peer].kind == SmartKind ==> !Refuses(d, act)
    ensures s in mid.g && mid.g[s].id == w.g[s].id && Nearby(mid, s)
  {
    PeerFacts(w, s);
    NearbyPeer(w, s);
    hide GoodBut, HandsOver, Nearby;
    if data != [] {
      StaysNearby(w, mid, s, data, d, act, o);
      NearbyIn(mid, s);
    }
  }

  lemma NearbyIn(w: World, s: Socket)
    requires Nearby(w, s)
    ensures s in w.g
  {
  }

  lemma EndShows(w: World, w': World, e: Endpoint, s: Socket)
    requires Good(w) && Shows(w, e) && s in w.list && s in w.g && Closable(w, s) && Parted(w, w', s) && Nearby(w, s)
    ensures Shows(w', if w.g[s].id in e then e[w.g[s].id := Close(e[w.g[s].id])] else e)
  {
    AboutListed(w, s);
    hide GoodBut, Shows, Closable, Parted;
    PartedShows(w, w', e, s);
  }

  lemma ListedId(w: World, s: Socket)
    requires Good(w) && s in w.list && s in w.g
    ensures w.g[s].id != 0
  {
    assert LinkOk(w, s);
  }

  lemma OffUnpaired(w: World, e: Endpoint, s: Socket)
    requires Good(w) && Shows(w, e) && s in w.g && w.g[s].kind == LocalKind && w.g[s].id !in e
    ensures w.g[s].peer != null ==> w.g[s].peer in w.g && w.g[w.g[s].peer].kind != RemoteKind
  {
    assert CoveredAt(w, e, s) && LinkOk(w, s);
  }

  /** FDE_WRITE of a socket without a remote peer. */
  lemma WritableTouches(w: World, s: Socket, o: WriteResult)
    requires Good(w) && s in w.g && w.g[s].kind == LocalKind && !w.g[s].dead && w.g[s].writing
    requires Plausible(o, w.g[s].queue)
    requires w.g[s].peer != null ==> w.g[s].peer in w.g && w.g[w.g[s].peer].kind != RemoteKind
    ensures w.g[s].closing ==> w.g[s].peer == null
    ensures Local(w, WritableW(w, s, o), s) && WritableOut(w, s, o) == []
  {
    WritableHasPeer(w, s, o);
    FlushElsewhere(w, s, o);
    FlushKind(w, s, o);
    assert LinkOk(w, s);
    assert w.g[s].peer != null ==> LinkOk(w, w.g[s].peer);
    hide GoodBut, FlushW, Flush, AbsOf, Local;
    var w1 := FlushW(w, s, o);
    assert Steady(w, w1, s);
    hide Steady;
    if w.g[s].peer != null {
      TouchSteady(w, w1, s, w.g[s].peer, w1.g[w.g[s].peer].(reading := true));
    }
    StaysLocal(w, WritableW(w, s, o), s);
  }

  lemma FlushKind(w: World, s: Socket, o: WriteResult)
    requires s in w.g && Plausible(o, w.g[s].queue) && (w.g[s].closing ==> w.g[s].peer == null)
    ensures s in FlushW(w, s, o).g && FlushW(w, s, o).g[s].kind == w.g[s].kind
  {
    hide Without, Park;
  }

  // ----- tables

  /** Table x holds the streams of endpoint e. */
  ghost predicate Holds(x: Table, e: Endpoint)
    reads x`g, x`list, x`closingList, x`nextId, x`owner, x.g.Keys
  {
    x.Valid() && Shows(x.State(), e) && 0 < x.nextId
  }

  /** The socket of an id, as the network knows it. */
  lemma HeldSocket(x: Table, e: Endpoint, s: Socket)
    requires Holds(x, e) && s in x.g && s.kind == LocalKind && s.id in e
    ensures e[s.id] == AbsOf(x.State(), s)
    ensures e[s.id].reading == s.reading && e[s.id].writing == s.writing && e[s.id].queue == s.queue
    ensures e[s.id].phase == Gone <==> s.dead
  {
    hide GoodBut;
    x.Synced(s);
    OnItsStream(x.State(), e, s);
  }

  lemma ClientFacts(x: Table, e: Endpoint, s: Socket)
    requires Holds(x, e) && s in x.list && s in x.g && s.peer != null && s.peer in x.g
    ensures Good(x.State()) && Shows(x.State(), e) && x.g[s].id == s.id && x.g[s].peer == s.peer
    ensures x.g[s.peer].kind == s.peer.kind && s.kind == LocalKind
  {
    x.Synced(s);
    x.Synced(s.peer);
    AboutListed(x.State(), s);
  }

  lemma LocalPeer(x: Table, s: Socket)
    requires x.Valid() && s in x.g && s.kind == LocalKind && !s.dead
    ensures s.peer != null ==> s.peer in x.g
  {
    x.Synced(s);
    StreamFacts(x.State(), s);
  }

  /** Endpoint a of the network, or endpoint b. */
  function Side(n: Net, atB: bool): Net {
    if atB then n.Swap() else n
  }

  lemma SideMoves(n: Net, atB: bool, ev: Event)
    requires CanMove(n, Move(atB, ev))
    ensures Enabled(Side(n, atB), ev) && Side(DoMove(n, Move(atB, ev)), atB) == Step(Side(n, atB), ev)
    ensures Step(Side(n, atB), ev).b == Side(n, atB).b
  {
    hide HandlePacket, OnReadable, OnWritable;
  }

  lemma SideDelivers(n: Net, atB: bool, svc: Option<nat>, o: WriteResult)
    requires Enabled(Side(n, atB), Deliver(svc, o))
    ensures CanMove(n, Move(atB, Deliver(svc, o)))
    ensures
      var (k, k') := (Side(n, atB), Side(DoMove(n, Move(atB, Deliver(svc, o))), atB));
      && k'.a == Step(k, Deliver(svc, o)).a && k'.ab == k.ab + HandlePacket(k.a, k.ba[0], svc, o).1
      && k'.b == k.b && k'.ba == k.ba[1..]
  {
    hide HandlePacket;
  }

  /** The moves of a client's event at one side: none, or the connect of its stream and perhaps its end. */
  function RequestRun(atB: bool, i: nat, opens: bool, eof: bool): seq<Move> {
    if !opens then []
    else [Move(atB, Network.Connect(i))] + if eof then [Move(atB, Hangup(i, [], true))] else []
  }

  lemma OneMove(n: Net, m: Move)
    requires CanMove(n, m)
    ensures IsRun(n, [m]) && Final(n, [m]) == DoMove(n, m)
  {
    hide CanMove, DoMove;
    assert [m][1..] == [];
  }

  lemma TwoMoves(n: Net, m: Move, m': Move)
    requires CanMove(n, m) && CanMove(DoMove(n, m), m')
    ensures IsRun(n, [m] + [m']) && Final(n, [m] + [m']) == DoMove(DoMove(n, m), m')
  {
    hide CanMove, DoMove;
    assert ([m] + [m'])[1..] == [m'];
    OneMove(DoMove(n, m), m');
  }

  lemma ConnectMove(n: Net, atB: bool, i: nat)
    requires i != 0 && i !in Side(n, atB).a
    ensures CanMove(n, Move(atB, Network.Connect(i)))
    ensures
      var (k, k') := (Side(n, atB), Side(DoMove(n, Move(atB, Network.Connect(i))), atB));
      k'.a == k.a[i := FRESH] && k'.ab == k.ab + [Packet(OPEN, i, 0, [])] && k'.ba == k.ba && k'.b == k.b
  {
  }

  lemma EndMove(n: Net, atB: bool, i: nat)
    requires i in Side(n, atB).a && Side(n, atB).a[i] == FRESH
    ensures CanMove(n, Move(atB, Hangup(i, [], true)))
    ensures
      var (k, k') := (Side(n, atB), Side(DoMove(n, Move(atB, Hangup(i, [], true))), atB));
      k'.a == k.a[i := Close(FRESH)] && k'.ab == k.ab && k'.ba == k.ba && k'.b == k.b
  {
    var k := Side(n, atB);
    assert k.ab + ([] + []) == k.ab;
  }

  lemma RequestMoves(n: Net, atB: bool, i: nat, opens: bool, eof: bool)
    requires Reachable(n) && (opens ==> i != 0 && i !in Side(n, atB).a)
    ensures IsRun(n, RequestRun(atB, i, opens, eof)) && Reachable(Final(n, RequestRun(atB, i, opens, eof)))
    ensures
      var (k, k') := (Side(n, atB), Side(Final(n, RequestRun(atB, i, opens, eof)), atB));
      && k'.b == k.b && k'.ba == k.ba && k'.ab == k.ab + (if opens then [Packet(OPEN, i, 0, [])] else [])
      && k'.a == if opens then k.a[i := if eof then Close(FRESH) else FRESH] else k.a
  {
    hide Reachable, CanMove, DoMove;
    if opens {
      var m := Move(atB, Network.Connect(i));
      ConnectMove(n, atB, i);
      ReachMore(n, m);
      if eof {
        EndMove(DoMove(n, m), atB, i);
        ReachMore(DoMove(n, m), Move(atB, Hangup(i, [], true)));
        TwoMoves(n, m, Move(atB, Hangup(i, [], true)));
        var k := Side(n, atB);
        assert k.a[i := FRESH][i := Close(FRESH)] == k.a[i := Close(FRESH)];
      } else {
        OneMove(n, m);
        assert [m] + [] == [m];
      }
    }
  }

  lemma SideReached(n: Net, atB: bool)
    requires Reachable(n)
    ensures NetInv(Side(n, atB))
  {
    hide HalfInv;
    ReachableInv(n);
  }

  /** The id of a new socket was never used, and what the fd may do to a WRTE is the same for table and network. */
  lemma Deliverable(x: Table, k: Net, granted: bool, o: WriteResult)
    requires Holds(x, k.a) && k.ba != []
    requires
      var p := k.ba[0];
      p.cmd == WRTE && p.arg1 in x.owner ==> x.owner[p.arg1] in x.g && Plausible(o, x.g[x.owner[p.arg1]].queue + p.data)
    requires NetInv(k)
    ensures Enabled(k, Deliver(if granted then Some(x.nextId) else None, o)) && ForStream(x.State(), k.a, k.ba[0], o)
  {
    hide NetInv, GoodBut;
    NextIdUnused(x.State());
    ShownOwned(x.State(), k.a);
    var p := k.ba[0];
    if p.cmd != OPEN {
      AboutPacket(k);
    }
    if p.cmd == WRTE && p.arg1 in k.a {
      assert ShowsAt(x.State(), p.arg1, k.a[p.arg1]);
    }
  }

  /** A CLSE with arg0 of 0 refuses an OPEN, and its opener has no peer yet. */
  lemma NeverForeign(x: Table, k: Net, t: nat)
    requires NetInv(k) && Holds(x, k.a) && k.ba != []
    ensures k.ba[0].cmd == CLSE ==> !x.Foreign(k.ba[0], t)
  {
    hide NetInv, GoodBut;
    if k.ba[0].cmd == CLSE && k.ba[0].arg0 == 0 {
      AboutPacket(k);
      AboutSocket(k, k.ba[0].arg1);
      assert ShowsAt(x.State(), k.ba[0].arg1, k.a[k.ba[0].arg1]);
    }
  }

  lemma ListedIsLive(x: Table, e: Endpoint, s: Socket)
    requires Holds(x, e) && s in x.list && s.id in e
    ensures s in x.g && s.kind == LocalKind && Live(e, s.id)
    ensures
      var c := e[s.id];
      && (c.peer.Remote? ==> s.peer != null && s.peer.id == c.peer.id)
      && c.reading == s.reading && c.wrote == s.wrote && c.queue == s.queue
  {
    hide GoodBut;
    AboutListed(x.State(), s);
    x.Synced(s);
    if s.peer != null {
      x.Synced(s.peer);
    }
    OnItsStream(x.State(), e, s);
  }

  lemma LiveIsListed(x: Table, e: Endpoint, j: nat)
    requires Holds(x, e) && Live(e, j)
    ensures j in x.owner
    ensures
      var (r, c) := (x.owner[j], e[j]);
      && r in x.list && r.writing == c.writing && r.sent == c.sent
      && (c.peer.Remote? ==> r.peer != null && r.peer.id == c.peer.id)
  {
    assert ShowsAt(x.State(), j, e[j]);
    OwnedFacts(x.State(), j);
    var r := x.owner[j];
    assert LinkOk(x.State(), r);
    hide GoodBut;
    x.Synced(r);
    if r.peer != null {
      x.Synced(r.peer);
    }
  }

  // ----- events of one table

  /** New sockets are fresh, so what another table holds is untouched. */
  twostate predicate Grew(x: Table) reads x`g {
    old(x.g).Keys <= x.g.Keys && forall s :: s in x.g && s !in old(x.g) ==> fresh(s)
  }

  method ReadOf(x: Table, s: Socket, data: Bytes, eof: bool, ghost e: Endpoint)
    requires Holds(x, e) && s in x.g && s.kind == LocalKind && !s.dead && s.id in e && |data| <= MAX_PAYLOAD
    modifies x`list, x`closingList, x`outbox, x`g, x.g.Keys
    ensures Grew(x)
    ensures
      var (c, out) := OnReadable(old(s.id), e[old(s.id)], data, eof);
      Holds(x, e[old(s.id) := c]) && x.outbox == old(x.outbox) + out
  {
    hide Table.Valid, Shows, OnReadable;
    LocalPeer(x, s);
    x.ReadStep(s, data, eof, e);
  }

  method WriteOf(x: Table, s: Socket, o: WriteResult, ghost e: Endpoint)
    requires Holds(x, e) && s in x.g && s.kind == LocalKind && !s.dead && s.id in e
    requires s.writing && Plausible(o, s.queue)
    modifies x`list, x`closingList, x`outbox, x`g, x.g.Keys
    ensures Grew(x) && e[old(s.id)].queue == old(s.queue)
    ensures
      var (c, out) := OnWritable(old(s.id), e[old(s.id)], o);
      Holds(x, e[old(s.id) := c]) && x.outbox == old(x.outbox) + out
  {
    hide Table.Valid, Shows, OnWritable;
    LocalPeer(x, s);
    x.WriteStep(s, o, e);
  }

  /** The packet at the head of the channel to k.a. */
  method DeliverTo(x: Table, p: Packet, t: nat, granted: bool, o: WriteResult, ghost k: Net)
    requires Holds(x, k.a) && NetInv(k) && k.ba != [] && p == k.ba[0] && (granted ==> x.nextId < 0xFFFF_FFFF)
    requires p.cmd == WRTE && p.arg1 in x.owner ==>
      x.owner[p.arg1] in x.g && Plausible(o, x.g[x.owner[p.arg1]].queue + p.data)
    modifies x, x.g.Keys
    ensures Grew(x)
    ensures
      var ev := Deliver(if granted then Some(old(x.nextId)) else None, o);
      && Enabled(k, ev) && Holds(x, Step(k, ev).a)
      && k.ab + x.outbox == k.ab + old(x.outbox) + HandlePacket(k.a, p, ev.svc, o).1
  {
    hide Table.Valid, Table.FlowsBut, Table.Foreign, Shows, ForStream, HandlePacket, NetInv;
    Deliverable(x, k, granted, o);
    NeverForeign(x, k, t);
    ghost var out := x.Receive(p, t, granted, o, k.a);
    Assoc(k.ab, old(x.outbox), out);
  }

  method ClientOf(x: Table, ghost e: Endpoint) returns (s: Socket)
    requires Holds(x, e) && x.nextId < 0xFFFF_FFFF
    modifies x
    ensures Grew(x) && Holds(x, e) && x.outbox == old(x.outbox) && fresh(s) && s in x.list
  {
    hide GoodBut, Shows, Install, Flows, NodeOf;
    s := x.CreateLocal();
    InstallShape(old(x.State()), s);
    x.Synced(s);
    var ss := x.ConnectToSmart(s);
    AttendShows(old(x.State()), s, ss, e);
  }

  method RequestOf(x: Table, s: Socket, data: Bytes, eof: bool, act: Dispatch, o: WriteResult, ghost e: Endpoint)
    returns (ghost opens: bool)
    requires Holds(x, e) && s in x.list && s in x.g && s.peer != null && s.peer in x.g
    requires s.peer.kind != RemoteKind && (s.peer.kind == LocalKind ==> Plausible(o, s.peer.queue + data))
    requires act.HostService? ==> x.nextId < 0xFFFF_FFFF
    modifies x, x.g.Keys
    ensures Grew(x)
    ensures opens <==> data != [] && old(s.peer.kind == SmartKind) && Opens(old(s.peer.smartData) + data, act)
    ensures old(s.id) !in e && old(s.id) != 0
    ensures Holds(x, if opens then e[old(s.id) := if eof then Close(FRESH) else FRESH] else e)
    ensures x.outbox == old(x.outbox) + if opens then [Packet(OPEN, old(s.id), 0, [])] else []
  {
    hide Table.Valid, Shows, HandsOver, Decode, Flows, LeavesIdle, Parted, BufferAfter, Closable, GoodBut;
    ghost var w, d := x.State(), s.peer.smartData + data;
    opens := data != [] && s.peer.kind == SmartKind && Opens(d, act);
    ClientFacts(x, e, s);
    var kept, mid := x.FlushNearby(s, data, eof, act, o);
    NearbyShows(w, mid, x.State(), e, s, data, d, eof, act, o);
  }

  /** FDE_WRITE of a socket on no stream. */
  method WriteOff(x: Table, s: Socket, o: WriteResult, ghost e: Endpoint)
    requires Holds(x, e) && s in x.g && s.kind == LocalKind && !s.dead && s.writing && Plausible(o, s.queue)
    requires s.id !in e
    modifies x`list, x`closingList, x`outbox, x`g, x.g.Keys
    ensures Grew(x) && Holds(x, e) && x.outbox == old(x.outbox)
  {
    hide GoodBut, NodeOf, Shows, WritableW, WritableOut, Flush, AbsOf, PeerKept, OnWritable;
    LocalPeer(x, s);
    x.Synced(s);
    OffUnpaired(x.State(), e, s);
    WritableTouches(x.State(), s, o);
    x.FlushAndWake(s, o);
    PairShows(old(x.State()), x.State(), e, s);
  }

  /** FDE_READ, or the read a hangup fakes, of a socket without peer on no stream: nobody takes its data. */
  method ReadOff(x: Table, s: Socket, data: Bytes, eof: bool, ghost e: Endpoint)
    requires Holds(x, e) && s in x.g && s.kind == LocalKind && !s.dead && s.peer == null && s.id !in e
    requires |data| <= MAX_PAYLOAD
    modifies x`list, x`closingList, x`outbox, x`g, x.g.Keys
    ensures Grew(x) && Holds(x, e) && x.outbox == old(x.outbox)
  {
    hide GoodBut, NodeOf, Shows, PeerKept, Close;
    x.Synced(s);
    var kept := x.OnReadableEvent(s, data, eof);
    assert old(x.outbox) + ([] + []) == old(x.outbox);
    x.KindsKept();
    ClosePeerless(AbsOf(old(x.State()), s));
    PairShows(old(x.State()), x.State(), e, s);
  }

  lemma ClosePeerless(c: Conn)
    ensures Close(c).peer == NoPeer
  {
  }

  lemma QuietMate(k: Net, i: nat)
    requires Reachable(k) && k.ab == [] && k.ba == [] && Live(k.a, i)
    ensures k.a[i].peer.Remote? && Live(k.b, k.a[i].peer.id)
    ensures
      var (x, y) := (k.a[i], k.b[k.a[i].peer.id]);
      y.peer == Remote(i) && (x.reading || y.writing) && x.wrote + x.queue == y.sent
  {
    QuietBijection(k, i);
    ReachableInv(k);
    AboutSocket(k, i);
    hide NetInv, Reachable;
  }

  class System {
    const a: Table
    const b: Table
    const transport: nat
    var ab: seq<Packet>
    var ba: seq<Packet>
    ghost var n: Net

    /** Apart from the channels and the network. */
    ghost predicate Apart() reads this, a, b {
      a != b && a.g.Keys !! b.g.Keys
    }

    ghost predicate Valid() reads this, a, b, a.g.Keys, b.g.Keys {
      && Apart() && Holds(a, n.a) && Holds(b, n.b) && a.outbox == [] && b.outbox == []
      && ab == n.ab && ba == n.ba && Reachable(n)
    }

    constructor (transport: nat)
      ensures Valid() && n == INIT && this.transport == transport && fresh(a) && fresh(b)
    {
      a := new Table();
      b := new Table();
      this.transport, ab, ba, n := transport, [], [], INIT;
      new;
      assert IsRun(INIT, []) && Final(INIT, []) == INIT;
    }

    /** The table where an event happens, and the other one. */
    function Here(atB: bool): Table { if atB then b else a }

    function There(atB: bool): Table { if atB then a else b }

    /** What the table at hand sent enters the channel, and the network is where its moves have led. */
    method Finish(atB: bool, ghost n': Net)
      requires Apart() && Reachable(n')
      requires
        var k' := Side(n', atB);
        && Holds(Here(atB), k'.a) && Holds(There(atB), k'.b) && There(atB).outbox == []
        && (if atB then ba else ab) + Here(atB).outbox == k'.ab && (if atB then ab else ba) == k'.ba
      modifies this, Here(atB)`outbox
      ensures Valid() && n == n'
    {
      hide Reachable, Holds;
      n := n';
      if atB {
        ba := ba + b.outbox;
        b.outbox := [];
      } else {
        ab := ab + a.outbox;
        a.outbox := [];
      }
    }

    /** A listener's new connection at one side. */
    method OnConnect(atB: bool)
      requires Valid() && Here(atB).nextId < 0xFFFF_FFFF
      modifies this, Here(atB)
      ensures
        var m := Move(atB, Network.Connect(old(Here(atB).nextId)));
        Valid() && CanMove(old(n), m) && n == DoMove(old(n), m)
    {
      hide Table.Valid, Reachable, DoMove, CanMove, Shows;
      var x := Here(atB);
      ghost var m := Move(atB, Network.Connect(x.nextId));
      var s := x.ConnectStep(transport, Side(n, atB).a);
      ConnectMove(n, atB, m.ev.id);
      ReachMore(n, m);
      Finish(atB, DoMove(n, m));
    }

    /** FDE_READ at socket s on a stream of one side, or a hangup, which fakes it. */
    method OnRead(atB: bool, s: Socket, data: Bytes, eof: bool, hup: bool)
      requires Valid() && s in Here(atB).g && s.kind == LocalKind && s.id in Side(n, atB).a
      requires !s.dead && (hup || s.reading) && |data| <= MAX_PAYLOAD
      modifies this, Here(atB), Here(atB).g.Keys
      ensures
        var i := old(s.id);
        var m := Move(atB, if hup then Hangup(i, data, eof) else Readable(i, data, eof));
        Valid() && CanMove(old(n), m) && n == DoMove(old(n), m)
    {
      hide Holds, Reachable, DoMove, OnReadable;
      HeldSocket(Here(atB), Side(n, atB).a, s);
      ghost var ev := if hup then Hangup(s.id, data, eof) else Readable(s.id, data, eof);
      ReadOf(Here(atB), s, data, eof, Side(n, atB).a);
      SideMoves(n, atB, ev);
      ReachMore(n, Move(atB, ev));
      Finish(atB, DoMove(n, Move(atB, ev)));
    }

    /** FDE_WRITE at socket s on a stream of one side. */
    method OnWrite(atB: bool, s: Socket, o: WriteResult)
      requires Valid() && s in Here(atB).g && s.kind == LocalKind && s.id in Side(n, atB).a
      requires !s.dead && s.writing && Plausible(o, s.queue)
      modifies this, Here(atB), Here(atB).g.Keys
      ensures
        var m := Move(atB, Writable(old(s.id), o));
        Valid() && CanMove(old(n), m) && n == DoMove(old(n), m)
    {
      hide Holds, Reachable, DoMove, OnWritable;
      HeldSocket(Here(atB), Side(n, atB).a, s);
      ghost var ev := Writable(s.id, o);
      WriteOf(Here(atB), s, o, Side(n, atB).a);
      SideMoves(n, atB, ev);
      ReachMore(n, Move(atB, ev));
      Finish(atB, DoMove(n, Move(atB, ev)));
    }

    /** The packet at the head of the channel to one side is taken from it. */
    method Pop(atB: bool) returns (p: Packet)
      requires (if atB then ab else ba) != []
      modifies this`ab, this`ba
      ensures [p] + (if atB then ab else ba) == old(if atB then ab else ba)
      ensures (if atB then ab else ba) == old(if atB then ab else ba)[1..]
      ensures (if atB then ba else ab) == old(if atB then ba else ab)
    {
      if atB {
        p, ab := ab[0], ab[1..];
      } else {
        p, ba := ba[0], ba[1..];
      }
    }

    /** The packet at the head of the channel to one side; `granted` says whether an OPEN finds its service. */
    method OnDelivery(atB: bool, granted: bool, o: WriteResult)
      requires Valid() && (if atB then ab else ba) != [] && (granted ==> Here(atB).nextId < 0xFFFF_FFFF)
      requires
        var (p, x) := ((if atB then ab else ba)[0], Here(atB));
        p.cmd == WRTE && p.arg1 in x.owner ==>
          x.owner[p.arg1] in x.g && Plausible(o, x.g[x.owner[p.arg1]].queue + p.data)
      modifies this, Here(atB), Here(atB).g.Keys
      ensures
        var m := Move(atB, Deliver(if granted then Some(old(Here(atB).nextId)) else None, o));
        Valid() && CanMove(old(n), m) && n == DoMove(old(n), m)
    {
      hide Holds, Table.Foreign, ForStream, Reachable, DoMove, CanMove, Step, Enabled, HandlePacket, NetInv, Plausible;
      ghost var (k, m) := (Side(n, atB), Move(atB, Deliver(if granted then Some(Here(atB).nextId) else None, o)));
      SideReached(n, atB);
      var p := Pop(atB);
      DeliverTo(Here(atB), p, transport, granted, o, k);
      SideDelivers(n, atB, m.ev.svc, o);
      ReachMore(n, m);
      Finish(atB, DoMove(n, m));
    }

    // ----- sockets that are on no stream

    /** A client's connection: a local socket with a smart one for a peer. */
    method OnClient(atB: bool) returns (s: Socket)
      requires Valid() && Here(atB).nextId < 0xFFFF_FFFF
      modifies this, Here(atB)
      ensures Valid() && n == old(n) && fresh(s) && s in Here(atB).list
    {
      hide Holds, Reachable;
      s := ClientOf(Here(atB), Side(n, atB).a);
    }

    /**
     FDE_READ, or the read a hangup fakes, at a client or at a socket joined to a local one. It is no move of the
     network, except that a request for the transport opens a stream.
     */
    method OnRequest(atB: bool, s: Socket, data: Bytes, eof: bool, act: Dispatch, o: WriteResult)
      requires Valid() && s in Here(atB).list && s in Here(atB).g && s.peer != null && s.peer in Here(atB).g
      requires s.peer.kind != RemoteKind && (s.peer.kind == LocalKind ==> Plausible(o, s.peer.queue + data))
      requires act.HostService? ==> Here(atB).nextId < 0xFFFF_FFFF
      requires act.OpenRemote? ==> act.transport == transport
      modifies this, Here(atB), Here(atB).g.Keys
      ensures
        var opens := data != [] && old(s.peer.kind == SmartKind) && Opens(old(s.peer.smartData) + data, act);
        var run := RequestRun(atB, old(s.id), opens, eof);
        Valid() && IsRun(old(n), run) && n == Final(old(n), run)
    {
      hide Holds, Reachable, Opens, RequestRun;
      ghost var opens := RequestOf(Here(atB), s, data, eof, act, o, Side(n, atB).a);
      RequestMoves(n, atB, old(s.id), opens, eof);
      Finish(atB, Final(n, RequestRun(atB, old(s.id), opens, eof)));
    }

    /** FDE_WRITE at a socket on no stream. */
    method OnWriteOff(atB: bool, s: Socket, o: WriteResult)
      requires Valid() && s in Here(atB).g && s.kind == LocalKind && s.id !in Side(n, atB).a
      requires !s.dead && s.writing && Plausible(o, s.queue)
      modifies this, Here(atB), Here(atB).g.Keys
      ensures Valid() && n == old(n)
    {
      hide Holds, Reachable;
      WriteOff(Here(atB), s, o, Side(n, atB).a);
    }

    /** FDE_READ, or the read a hangup fakes, at a socket without peer on no stream. */
    method OnReadOff(atB: bool, s: Socket, data: Bytes, eof: bool)
      requires Valid() && s in Here(atB).g && s.kind == LocalKind && s.id !in Side(n, atB).a
      requires !s.dead && s.peer == null && |data| <= MAX_PAYLOAD
      modifies this, Here(atB), Here(atB).g.Keys
      ensures Valid() && n == old(n)
    {
      hide Holds, Reachable;
      ReadOff(Here(atB), s, data, eof, Side(n, atB).a);
    }

    /**
     So every event of every live local socket is accounted for: it is on a stream, or has no peer, or is listed
     with a local or a smart peer.
     */
    lemma EveryEvent(atB: bool, s: Socket)
      requires Valid() && s in Here(atB).g && s.kind == LocalKind && !s.dead
      ensures
        || s.id in Side(n, atB).a
        || s.peer == null
        || (s in Here(atB).list && s.peer in Here(atB).g && s.peer.kind != RemoteKind)
    {
      hide GoodBut, Reachable, Shows;
      var x := Here(atB);
      x.Synced(s);
      StreamFacts(x.State(), s);
      if s.id !in Side(n, atB).a && s.peer != null {
        OffUnpaired(x.State(), Side(n, atB).a, s);
        x.Synced(s.peer);
      }
    }

    /**
     When both channels are empty, every listed socket of either table that is on a stream is paired with a listed
     socket of the other that is paired back, one of the two fds that move its bytes on is subscribed, and all that
     its mate handed over has reached its fd or its queue.
     */
    lemma QuietTables(atB: bool, s: Socket)
      requires Valid() && ab == [] && ba == [] && s in Here(atB).list && s.id in Side(n, atB).a
      ensures s.peer != null && s.peer.id in There(atB).owner
      ensures
        var r := There(atB).owner[s.peer.id];
        && r in There(atB).list && r.peer != null && r.peer.id == s.id
        && (s.reading || r.writing) && s.wrote + s.queue == r.sent
    {
      hide Table.Valid, Reachable, Shows;
      var k := Side(n, atB);
      ListedIsLive(Here(atB), k.a, s);
      if atB {
        ReachableSwaps(n);
      }
      QuietMate(k, s.id);
      LiveIsListed(There(atB), k.b, k.a[s.id].peer.id);
    }
  }
}
