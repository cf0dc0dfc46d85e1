/**
 Two local sockets joined to each other, and a local socket still joined to a smart one: which of their fds are
 subscribed. A joined socket reads, or waits for its peer, which is subscribed to FDE_WRITE and will call ready.
 */
module JoinedFlow {
  import opened Wire
  import opened Asocket
  import opened SmartRequest
  import opened SocketGraph

  /** Something will move the bytes of s on: its own fd, or that of the local peer it waits for. */
  predicate FlowOk(w: World, s: Socket)
    requires s in w.g
  {
    var n := w.g[s];
    n.kind == LocalKind && n.peer != null && n.peer in w.g ==>
      match w.g[n.peer].kind
      case LocalKind => n.reading || w.g[n.peer].writing
      case SmartKind => n.reading
      case RemoteKind => true
  }

  ghost predicate Flows(w: World) {
    forall s :: s in w.g ==> FlowOk(w, s)
  }

  ghost predicate FlowsExcept(w: World, e: Socket) {
    forall s :: s in w.g && s != e ==> FlowOk(w, s)
  }

  lemma FlowsAtMost(w: World, e: Socket)
    ensures Flows(w) ==> FlowsExcept(w, e)
  {
  }

  /** A close leaves no link at the two sockets it ends, and touches no other. */
  lemma CloseFlows(w: World, s: Socket)
    requires Closable(w, s) && FlowsExcept(w, s)
    ensures w.g[s].peer != null ==> w.g[s].peer in w.g
    ensures Flows(CloseW(w, s))
  {
    assert LinkOk(w, s);
    var w' := CloseW(w, s);
    CloseAt(w, s, s);
    hide CloseW;
    forall x | x in w'.g ensures FlowOk(w', x) {
      assert LinkOk(w, x) && (x != s ==> FlowOk(w, x));
      hide GoodBut;
      if x in {s, w.g[s].peer} {
        CloseSettles(w, s, x);
      } else {
        CloseAt(w, s, x);
        if w.g[x].peer != null {
          CloseAt(w, s, w.g[x].peer);
        }
      }
    }
  }

  lemma ClosesFlow(w: World, s: Socket)
    requires Closable(w, s)
    ensures w.g[s].peer != null ==> w.g[s].peer in w.g
    ensures Flows(w) || FlowsExcept(w, s) ==> Flows(CloseW(w, s))
  {
    hide CloseW, FlowOk;
    LinkOf(w, s);
    if FlowsExcept(w, s) {
      CloseFlows(w, s);
    }
  }

  lemma LinkOf(w: World, s: Socket)
    requires Closable(w, s)
    ensures w.g[s].peer != null ==> w.g[s].peer in w.g
  {
    assert LinkOk(w, s);
  }

  /** A socket without a peer waits for nobody. */
  lemma PauseFlows(w: World, s: Socket)
    requires Flows(w) && s in w.g && w.g[s].peer == null
    ensures Flows(Touch(w, s, w.g[s].(reading := false)))
  {
    forall x | x in w.g ensures FlowOk(Touch(w, s, w.g[s].(reading := false)), x) {
      assert FlowOk(w, x);
    }
  }

  /**
   After s handed over `data` neither fd is subscribed to what would move its bytes on: s was not reading before,
   so a hangup faked the read, and its local peer is not left waiting to write, having written all or failed.
   */
  predicate LeavesIdle(w: World, s: Socket, data: Bytes, o: WriteResult)
    requires s in w.g
  {
    var p := w.g[s].peer;
    && data != [] && !w.g[s].reading && p != null && p in w.g && w.g[p].kind == LocalKind
    && !WantsMore(w.g[p].(queue := w.g[p].queue + data), o)
  }

  lemma IdleOnlyLocal(w: World, s: Socket, data: Bytes, o: WriteResult)
    requires s in w.g && w.g[s].peer != null && w.g[s].peer in w.g
    ensures LeavesIdle(w, s, data, o) ==> data != [] && w.g[w.g[s].peer].kind == LocalKind
  {
  }

  /** Local socket p took `data` and wrote what it could. */
  function Enqueued(w: World, p: Socket, data: Bytes, o: WriteResult): World
    requires p in w.g && !w.g[p].closing && Plausible(o, w.g[p].queue + data)
  {
    Touch(w, p, Written(w.g[p].(queue := w.g[p].queue + data), o))
  }

  /** Its peer s handed `data` over and stopped reading if p could not write it all. */
  function HandoverW(w: World, s: Socket, data: Bytes, o: WriteResult): World
    requires s in w.g && w.g[s].peer != null && w.g[s].peer in w.g && w.g[s].peer != s
    requires !w.g[w.g[s].peer].closing && Plausible(o, w.g[w.g[s].peer].queue + data)
  {
    var p := w.g[s].peer;
    var w1 := Enqueued(w, p, data, o);
    if WantsMore(w.g[p].(queue := w.g[p].queue + data), o) then Touch(w1, s, w1.g[s].(reading := false)) else w1
  }

  lemma EnqueuedIs(w: World, p: Socket, data: Bytes, o: WriteResult)
    requires p in w.g && !w.g[p].closing && Plausible(o, w.g[p].queue + data)
    requires w.g[p].kind == LocalKind && !w.g[p].dead
    ensures
      var n := w.g[p].(queue := w.g[p].queue + data);
      var w1 := Touch(w, p, n);
      FlushW(w1, p, o) == Enqueued(w, p, data, o) && (Flush(AbsOf(w1, p), o).1 == TryAgain <==> WantsMore(n, o))
  {
    var n := w.g[p].(queue := w.g[p].queue + data);
    FlushResultIs(n, PeerOf(Touch(w, p, n), n), o);
    hide Flush;
    TouchTwice(w, p, w.g[p].(queue := w.g[p].queue + data), Written(w.g[p].(queue := w.g[p].queue + data), o));
  }

  lemma EnqueuedNode(n: Node, o: WriteResult)
    requires Plausible(o, n.queue) && !n.closing
    ensures
      var m := Written(n, o);
      m.kind == n.kind && m.peer == n.peer && m.reading == n.reading && m.writing == WantsMore(n, o)
  {
  }

  /** From w to w', socket p took the data of its peer s, which stopped reading if p could not write it all. */
  predicate HandedOver(w: World, w': World, s: Socket, p: Socket, more: bool) {
    && s in w.g && p in w.g && w'.g.Keys == w.g.Keys && (forall x :: x in w.g && x != s && x != p ==> w'.g[x] == w.g[x])
    && w'.g[s] == w.g[s].(reading := w.g[s].reading && !more)
    && w'.g[p].kind == w.g[p].kind && w'.g[p].peer == w.g[p].peer && w'.g[p].reading == w.g[p].reading
    && w'.g[p].writing == more
  }

  lemma EnqueuedHandsOver(w: World, s: Socket, p: Socket, data: Bytes, o: WriteResult)
    requires s in w.g && p in w.g && s != p && !w.g[p].closing && Plausible(o, w.g[p].queue + data)
    ensures
      var more := WantsMore(w.g[p].(queue := w.g[p].queue + data), o);
      var w1 := Enqueued(w, p, data, o);
      && w1.g.Keys == w.g.Keys
      && HandedOver(w, if more then Touch(w1, s, w1.g[s].(reading := false)) else w1, s, p, more)
  {
    EnqueuedNode(w.g[p].(queue := w.g[p].queue + data), o);
    hide Written, WantsMore;
  }

  lemma HandedOverOne(w: World, w': World, s: Socket, p: Socket, more: bool, x: Socket)
    requires HandedOver(w, w', s, p, more) && s != p && (x != s || w.g[s].reading || more)
    requires w.g[s].peer == p && w.g[p].peer == s && w.g[s].kind == LocalKind && w.g[p].kind == LocalKind
    requires x in w.g && LinkOk(w, x) && FlowOk(w, x)
    ensures FlowOk(w', x)
  {
    if x !in {s, p} && w.g[x].peer != null {
      assert w.g[x].peer !in {s, p};
    }
  }

  lemma HandedOverFlows(w: World, w': World, s: Socket, p: Socket, more: bool)
    requires Good(w) && Flows(w) && HandedOver(w, w', s, p, more) && s != p
    requires w.g[s].peer == p && w.g[p].peer == s && w.g[s].kind == LocalKind && w.g[p].kind == LocalKind
    ensures FlowsExcept(w', s) && (Flows(w') <==> w.g[s].reading || more)
  {
    forall x | x in w'.g && (x != s || w.g[s].reading || more) ensures FlowOk(w', x) {
      assert LinkOk(w, x) && FlowOk(w, x);
      hide GoodBut, Flows, FlowOk;
      HandedOverOne(w, w', s, p, more, x);
    }
    if !(w.g[s].reading || more) {
      hide GoodBut;
      assert !FlowOk(w', s);
    }
  }

  /**
   Socket s handed `data` to its local peer. All joined sockets then read or have a peer that waits to write,
   if and only if s was reading before or its peer could not write all.
   */
  lemma HandoverFlows(w: World, s: Socket, data: Bytes, o: WriteResult)
    requires Good(w) && Flows(w) && s in w.list && s in w.g && w.g[s].peer != null && w.g[s].peer in w.g
    requires w.g[w.g[s].peer].kind == LocalKind && data != [] && Plausible(o, w.g[w.g[s].peer].queue + data)
    ensures !w.g[w.g[s].peer].closing && s != w.g[s].peer
    ensures
      FlowsExcept(HandoverW(w, s, data, o), s) && (Flows(HandoverW(w, s, data, o)) <==> !LeavesIdle(w, s, data, o))
  {
    var p: Socket := w.g[s].peer;
    assert LinkOk(w, p) && LinkOk(w, s);
    hide GoodBut;
    AboutListed(w, s);
    var more := WantsMore(w.g[p].(queue := w.g[p].queue + data), o);
    EnqueuedHandsOver(w, s, p, data, o);
    hide WantsMore, Flows, FlowsExcept, Enqueued;
    var w1 := Enqueued(w, p, data, o);
    HandedOverFlows(w, if more then Touch(w1, s, w1.g[s].(reading := false)) else w1, s, p, more);
  }

  /** FDE_WRITE of a socket with more to write, or one that lingers. */
  lemma WrittenFlows(w: World, s: Socket, o: WriteResult)
    requires Good(w) && Flows(w) && s in w.g && Plausible(o, w.g[s].queue)
    requires WantsMore(w.g[s], o) || w.g[s].peer == null
    ensures Flows(Touch(w, s, Written(w.g[s], o)))
  {
    var w' := Touch(w, s, Written(w.g[s], o));
    forall x | x in w.g ensures FlowOk(w', x) {
      assert LinkOk(w, x) && FlowOk(w, x);
    }
  }

  /** From w to w', socket s wrote all it had and woke its peer p. */
  predicate Woken(w: World, w': World, s: Socket, p: Socket) {
    && s in w.g && p in w.g && w'.g.Keys == w.g.Keys && (forall x :: x in w.g && x != s && x != p ==> w'.g[x] == w.g[x])
    && w'.g[s].kind == w.g[s].kind && w'.g[s].peer == w.g[s].peer && w'.g[s].reading == w.g[s].reading
    && w'.g[p] == w.g[p].(reading := w.g[p].reading || w.g[p].kind == LocalKind)
  }

  lemma WokenOne(w: World, w': World, s: Socket, p: Socket, x: Socket)
    requires Woken(w, w', s, p) && s != p && w.g[s].peer == p && w.g[p].peer == s
    requires x in w.g && LinkOk(w, x) && FlowOk(w, x)
    ensures FlowOk(w', x)
  {
    if x !in {s, p} && w.g[x].peer != null {
      assert w.g[x].peer !in {s, p};
    }
  }

  lemma CompletedWakes(w: World, s: Socket, p: Socket, o: WriteResult)
    requires s in w.g && p in w.g && s != p && Plausible(o, w.g[s].queue) && !w.g[s].closing
    ensures
      var w1 := Touch(w, s, Written(w.g[s], o));
      p in w1.g && Woken(w, if w1.g[p].kind == LocalKind then Touch(w1, p, w1.g[p].(reading := true)) else w1, s, p)
  {
    EnqueuedNode(w.g[s], o);
    hide Written, WantsMore;
  }

  /** FDE_WRITE of a socket that has written all it had: its peer reads on. */
  lemma CompletedFlows(w: World, s: Socket, o: WriteResult)
    requires Good(w) && Flows(w) && s in w.g && Plausible(o, w.g[s].queue)
    requires !w.g[s].closing && w.g[s].peer != null && w.g[s].peer in w.g && w.g[s].peer != s
    ensures
      var (p, w1) := (w.g[s].peer, Touch(w, s, Written(w.g[s], o)));
      Flows(if w1.g[p].kind == LocalKind then Touch(w1, p, w1.g[p].(reading := true)) else w1)
  {
    var p: Socket := w.g[s].peer;
    CompletedWakes(w, s, p, o);
    assert LinkOk(w, s);
    var w1 := Touch(w, s, Written(w.g[s], o));
    var w' := if w1.g[p].kind == LocalKind then Touch(w1, p, w1.g[p].(reading := true)) else w1;
    hide Written, FlowOk;
    forall x | x in w.g ensures FlowOk(w', x) {
      assert LinkOk(w, x) && FlowOk(w, x);
      hide GoodBut, Flows;
      WokenOne(w, w', s, p, x);
    }
  }

  /** FDE_WRITE: a socket that has written all it had wakes its peer. */
  lemma WritableFlows(w: World, s: Socket, o: WriteResult)
    requires Good(w) && Flows(w) && s in w.g && w.g[s].kind == LocalKind && !w.g[s].dead && w.g[s].writing
    requires Plausible(o, w.g[s].queue)
    ensures w.g[s].closing ==> w.g[s].peer == null
    ensures Flows(WritableW(w, s, o))
  {
    hide GoodBut, Flows, Written, WantsMore, Flush, CloseW, Closable, AbsOf;
    WritableHasPeer(w, s, o);
    WritableIs(w, s, o);
    FlushIs(w, s, o);
    if WantsMore(w.g[s], o) {
      WrittenFlows(w, s, o);
    } else if w.g[s].closing {
      WrittenFlows(w, s, o);
      FlushGood(w, s, o);
      CloseFlows(Touch(w, s, Written(w.g[s], o)), s);
    } else {
      CompletedFlows(w, s, o);
    }
  }

  /** A request for a service of the host joins the peer of the smart socket to the new service socket. */
  lemma JoinFlows(w: World, ss: Socket, s2: Socket)
    requires Good(w) && Flows(w) && ss in w.g && w.g[ss].kind == SmartKind && !w.g[ss].dead && s2 !in w.g
    ensures
      var s := w.g[ss].peer;
      && s != null && s in w.g
      && var w1 := Join(Install(w, s2), ss, s, s2); Flows(Touch(w1, s2, w1.g[s2].(reading := true)))
  {
    SmartFacts(w, ss);
    var s: Socket := w.g[ss].peer;
    var w1 := Join(Install(w, s2), ss, s, s2);
    var w2 := Touch(w1, s2, w1.g[s2].(reading := true));
    assert FlowOk(w, s);
    forall x | x in w2.g ensures FlowOk(w2, x) {
      assert x != s2 ==> LinkOk(w, x) && FlowOk(w, x);
    }
  }

  /** A request for a device leaves the peer of the smart socket without a peer. */
  lemma HandFlows(w: World, ss: Socket, t: nat)
    requires Good(w) && Flows(w) && ss in w.g && w.g[ss].kind == SmartKind && !w.g[ss].dead
    ensures
      var s := w.g[ss].peer;
      s != null && s in w.g && Flows(Hand(w, ss, s, w.g[s].(peer := null, transport := Some(t))))
  {
    SmartFacts(w, ss);
    var s: Socket := w.g[ss].peer;
    var w' := Hand(w, ss, s, w.g[s].(peer := null, transport := Some(t)));
    forall x | x in w'.g ensures FlowOk(w', x) {
      assert LinkOk(w, x) && FlowOk(w, x);
    }
  }

  lemma AttendFlows(w: World, s: Socket, ss: Socket)
    requires Good(w) && Flows(w) && s in w.list && s in w.g && w.g[s].peer == null && ss !in w.g
    ensures var w1 := Attend(w, s, ss); Flows(Touch(w1, s, w1.g[s].(reading := true)))
  {
    var w1 := Attend(w, s, ss);
    var w2 := Touch(w1, s, w1.g[s].(reading := true));
    forall x | x in w2.g ensures FlowOk(w2, x) {
      assert x != ss ==> LinkOk(w, x) && FlowOk(w, x);
    }
  }

  /** What happens to a socket of a stream, whose peer is a remote one or none, wakes and stalls no other. */
  lemma StreamFlows(w: World, w': World, s: Socket)
    requires Good(w) && Good(w') && Flows(w) && s in w.g && !OffStream(w, s)
    requires Elsewhere(w, w', s) && PeerKept(w, w', s)
    requires forall x :: x in w.g ==> x in w'.g && w'.g[x].kind == w.g[x].kind
    ensures Flows(w')
  {
    forall x | x in w'.g ensures FlowOk(w', x) {
      assert LinkOk(w', x);
      if x in w.g {
        assert LinkOk(w, x) && FlowOk(w, x);
      }
    }
  }

  lemma HandledFlows(w: World, w': World, out: seq<Packet>, p: Packet, o: WriteResult)
    requires Good(w) && Good(w') && Flows(w) && Handled(w, w', out, p, o) && OwnerPeerKept(w, w', p.arg1)
    requires forall x :: x in w.g ==> x in w'.g && w'.g[x].kind == w.g[x].kind
    requires p.arg1 in w.owner && w.owner[p.arg1] in w.g ==> !OffStream(w, w.owner[p.arg1])
    ensures Flows(w')
  {
    hide GoodBut, OnPacket, Flows, OffStream;
    if p.arg1 in w.owner {
      OwnedFacts(w, p.arg1);
      StreamFlows(w, w', w.owner[p.arg1]);
    }
  }

  lemma OpenedFlows(w: World, s: Socket, r: Socket, id: nat, t: nat)
    requires Good(w) && Flows(w) && s !in w.g && r !in w.g && r != s
    ensures Flows(Opened(w, s, r, id, t))
  {
    var w' := Opened(w, s, r, id, t);
    forall x | x in w'.g ensures FlowOk(w', x) {
      assert x in w.g ==> LinkOk(w, x) && FlowOk(w, x);
    }
  }

  /**
   A full buffer read because of a hangup: s waits for p, which has [7] queued, and p takes all at once, so it gives
   up FDE_WRITE without calling ready.
   */
  lemma HandoverLeavesIdle(s: Socket, p: Socket, data: Bytes)
    requires s != p && |data| == MAX_PAYLOAD
    ensures
      var m := NewNode(LocalKind, 2, None).(peer := s, queue := [7], reading := true, writing := true);
      var w := World(map[s := NewNode(LocalKind, 1, None).(peer := p), p := m], [s, p], [], 3, map[1 := s, 2 := p]);
      Good(w) && Flows(w) && !Flows(HandoverW(w, s, data, Wrote(MAX_PAYLOAD + 1)))
  {
    var m := NewNode(LocalKind, 2, None).(peer := s, queue := [7], reading := true, writing := true);
    var w := World(map[s := NewNode(LocalKind, 1, None).(peer := p), p := m], [s, p], [], 3, map[1 := s, 2 := p]);
    assert LinkOk(w, s) && LinkOk(w, p) && FlagsOk(w, s) && FlagsOk(w, p);
    assert FlowOk(w, s) && FlowOk(w, p);
    HandoverFlows(w, s, data, Wrote(MAX_PAYLOAD + 1));
  }

  // ----- what a client's bytes do to the graph

  /** The client of smart socket ss is joined to service socket s2, which reads. */
  function JoinedW(w: World, ss: Socket, s: Socket, s2: Socket): World
    requires ss in w.g && s in w.g
  {
    var w1 := Join(Install(w, s2), ss, s, s2);
    Touch(w1, s2, w1.g[s2].(reading := true))
  }

  /** The client of smart socket ss is on its way to transport t. */
  function OpeningW(w: World, ss: Socket, s: Socket, t: nat): World
    requires ss in w.g && s in w.g
  {
    Hand(w, ss, s, w.g[s].(peer := null, transport := Some(t)))
  }

  /** From w to w', a whole request of the client of smart socket ss was dispatched. */
  ghost predicate Dispatched(w: World, w': World, ss: Socket, act: Dispatch) {
    && ss in w.g
    && var s := w.g[ss].peer;
    && s != null && s in w.g
    && match act
       case Refused => w' == CloseW(w, ss)
       case Selected => w' == w
       case HostService =>
         && s in w'.g && w'.g[s].peer != null && w'.g[s].peer !in w.g
         && w' == JoinedW(w, ss, s, w'.g[s].peer)
       case OpenRemote(t) => w' == OpeningW(w, ss, s, t)
  }

  /** The bytes d the smart socket has decide what happens. */
  ghost predicate Requested(w: World, w': World, ss: Socket, d: Bytes, act: Dispatch) {
    && ss in w.g && (w.g[ss].peer != null ==> w.g[ss].peer in w.g)
    && match Decode(d)
       case More => w' == w
       case BadSize => w' == CloseW(w, ss)
       case BadId => w' == w
       case Whole(_) => Dispatched(w, w', ss, act)
  }

  /** The client is sent on its way over a transport. */
  predicate Opens(d: Bytes, act: Dispatch) {
    Decode(d).Whole? && act.OpenRemote?
  }

  /** What the smart socket has afterwards, unless it is gone. */
  predicate BufferAfter(smartData: Bytes, d: Bytes, act: Dispatch) {
    match Decode(d)
    case More => smartData == d
    case BadSize => true
    case BadId => |d| >= 4 && smartData == Terminated(d)
    case Whole(_) => act.Selected? ==> smartData == []
  }

  /** connect_to_remote. */
  function OpenOut(act: Dispatch, id: nat): seq<Packet> {
    if act.OpenRemote? then [Packet(OPEN, id, 0, [])] else []
  }

  /** From w to w', socket s handed data to its smart peer, which then has bytes d. */
  ghost predicate SmartHands(w: World, w': World, s: Socket, d: Bytes, act: Dispatch) {
    && s in w.g && w.g[s].peer != null && w.g[s].peer in w.g
    && if Opens(d, act) then
         var w1 := OpeningW(w, w.g[s].peer, s, act.transport);
         w' == Touch(w1, s, w1.g[s].(reading := false))
       else
         Requested(w, w', w.g[s].peer, d, act)
  }

  /** From w to w', socket s handed data to its local or smart peer, which then has bytes d. */
  ghost predicate HandsOver(w: World, w': World, s: Socket, data: Bytes, d: Bytes, act: Dispatch, o: WriteResult) {
    && s in w.g && w.g[s].peer != null && w.g[s].peer in w.g && w.g[s].peer != s
    && var p := w.g[s].peer;
       if w.g[p].kind == LocalKind then
         !w.g[p].closing && Plausible(o, w.g[p].queue + data) && w' == HandoverW(w, s, data, o)
       else
         SmartHands(w, w', s, d, act)
  }

  /** A local peer of s has `data` behind all it had, in its queue or at its fd. */
  predicate Passed(w: World, w': World, s: Socket, data: Bytes) {
    s in w.g && w.g[s].peer != null && w.g[s].peer in w.g && w.g[w.g[s].peer].kind == LocalKind ==>
      && w.g[s].peer in w'.g
      && var (n, m) := (w.g[w.g[s].peer], w'.g[w.g[s].peer]); m.wrote + m.queue == n.wrote + n.queue + data
  }

  lemma PassedNothing(w: World, s: Socket)
    ensures Passed(w, w, s, [])
  {
  }

  /** From w to w', socket s was closed. */
  ghost predicate Parted(w: World, w': World, s: Socket) {
    s in w.g && (w.g[s].peer != null ==> w.g[s].peer in w.g) && w' == CloseW(w, s)
  }

  lemma OpensHand(w: World, w': World, ss: Socket, d: Bytes, act: Dispatch)
    requires Requested(w, w', ss, d, act) && Opens(d, act)
    ensures w.g[ss].peer != null && w.g[ss].peer in w.g && w' == OpeningW(w, ss, w.g[ss].peer, act.transport)
  {
    hide Decode;
  }

  /** Its peer, if any, is not a remote socket, so a close of s sends nothing. */
  predicate Nearby(w: World, s: Socket) {
    s in w.g && ShutdownOut(w, s) == []
  }

  lemma NearbyPeer(w: World, s: Socket)
    requires s in w.g && (w.g[s].peer != null && w.g[s].peer in w.g ==> w.g[w.g[s].peer].kind != RemoteKind)
    ensures Nearby(w, s)
  {
  }

  lemma LocalStaysNearby(w: World, s: Socket, data: Bytes, o: WriteResult)
    requires s in w.g && w.g[s].peer != null && w.g[s].peer in w.g && w.g[s].peer != s
    requires
      var n := w.g[w.g[s].peer];
      !n.closing && n.kind == LocalKind && Plausible(o, n.queue + data)
    ensures var w' := HandoverW(w, s, data, o); Nearby(w', s) && w'.g[s].id == w.g[s].id
  {
    EnqueuedHandsOver(w, s, w.g[s].peer, data, o);
    hide Enqueued, WantsMore;
  }

  lemma SmartStaysNearby(w: World, w': World, s: Socket, d: Bytes, act: Dispatch)
    requires SmartHands(w, w', s, d, act) && w.g[s].peer != s && w.g[w.g[s].peer].peer == s && !Refuses(d, act)
    requires w.g[w.g[s].peer].kind == SmartKind
    ensures Nearby(w', s) && w'.g[s].id == w.g[s].id
  {
    hide Decode, CloseW;
  }

  lemma StaysNearby(w: World, w': World, s: Socket, data: Bytes, d: Bytes, act: Dispatch, o: WriteResult)
    requires HandsOver(w, w', s, data, d, act, o) && w.g[w.g[s].peer].kind != RemoteKind && w.g[w.g[s].peer].peer == s
    requires w.g[w.g[s].peer].kind == SmartKind ==> !Refuses(d, act)
    ensures Nearby(w', s) && w'.g[s].id == w.g[s].id
  {
    hide HandoverW, SmartHands, Nearby, Refuses;
    if w.g[w.g[s].peer].kind == LocalKind {
      LocalStaysNearby(w, s, data, o);
    } else {
      SmartStaysNearby(w, w', s, d, act);
    }
  }

  /** Only what is decoded from the bytes matters. */
  lemma SameRequest(w: World, w': World, s: Socket, d: Bytes, d': Bytes, act: Dispatch)
    requires SmartHands(w, w', s, d, act) && Decode(d) == Decode(d')
    ensures SmartHands(w, w', s, d', act) && (Unparsed(d) <==> Unparsed(d')) && (Refuses(d, act) <==> Refuses(d', act))
  {
    hide Decode, Dispatched, CloseW, OpeningW;
  }

  lemma InstallFlows(w: World, s: Socket)
    requires Good(w) && Flows(w) && s !in w.g
    ensures Flows(Install(w, s))
  {
    forall x | x in Install(w, s).g ensures FlowOk(Install(w, s), x) {
      assert x in w.g ==> LinkOk(w, x) && FlowOk(w, x);
    }
  }
}
