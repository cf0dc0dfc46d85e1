/**
 The sockets of one adb process as src/sockets.cpp keeps them: heap objects joined by
 peer pointers, a list of live local sockets and a list of closing ones. This module has
 the objects, a snapshot of their graph as a value, and the graph invariant; module
 SocketTable has the code that walks and changes the objects.
 */
module SocketGraph {
  import opened Seqs
  import opened Wire
  import opened Asocket

  /** Which of the three vtables a socket has. */
  datatype Kind = LocalKind | RemoteKind | SmartKind

  /** An asocket. `dead` records that it has been deleted; the other ghost fields are the history of Asocket.Conn. */
  class Socket {
    const kind: Kind
    var id: nat
    var peer: Socket?
    var transport: Option<nat>
    var closing: bool
    var writeError: bool
    var queue: Bytes
    var reading: bool
    var writing: bool
    var smartData: Bytes
    ghost var dead: bool
    ghost var sent: Bytes
    ghost var wrote: Bytes
    ghost var forced: bool
    ghost var finned: bool

    constructor (kind: Kind, id: nat, transport: Option<nat>, peer: Socket?)
      ensures NodeOf(this) == NewNode(kind, id, transport).(peer := peer) && smartData == []
    {
      this.kind, this.id, this.transport, this.peer := kind, id, transport, peer;
      closing, writeError, queue, reading, writing := false, false, [], false, false;
      smartData, dead, sent, wrote, forced, finned := [], false, [], [], false, false;
    }
  }

  datatype Node = Node(kind: Kind, id: nat, peer: Socket?, transport: Option<nat>, closing: bool, dead: bool,
                       writeError: bool, queue: Bytes, reading: bool, writing: bool,
                       sent: Bytes, wrote: Bytes, forced: bool, finned: bool) {
    /** A close leaves the socket waiting for its queue to drain. */
    predicate Lingers() {
      kind == LocalKind && !closing && !writeError && queue != []
    }
  }

  function NewNode(kind: Kind, id: nat, transport: Option<nat>): Node {
    Node(kind, id, null, transport, false, false, false, [], false, false, [], [], false, false)
  }

  ghost function NodeOf(s: Socket): Node reads s {
    Node(s.kind, s.id, s.peer, s.transport, s.closing, s.dead, s.writeError, s.queue, s.reading, s.writing,
         s.sent, s.wrote, s.forced, s.finned)
  }

  /** All sockets ever made, the two lists, the id counter, and which local socket got which id. */
  datatype World = World(g: map<Socket, Node>, list: seq<Socket>, closing: seq<Socket>, nextId: nat,
                         owner: map<nat, Socket>)

  // ----- the invariant

  /** A socket that has not been given data to write or to send. */
  predicate Blank(n: Node) {
    n.queue == [] && !n.writeError && n.sent == [] && n.wrote == [] && !n.forced && !n.finned
  }

  /** Every peer link is answered and no link leads to or from a deleted or closing socket. */
  predicate LinkOk(w: World, s: Socket)
    requires s in w.g
  {
    var n := w.g[s];
    && (n.peer != null ==> n.peer in w.g && w.g[n.peer].peer == s && n.peer != s && !n.dead && !n.closing)
    && if n.kind == LocalKind then
         && 0 < n.id < w.nextId && n.id in w.owner && w.owner[n.id] == s
         && (!n.dead ==> if n.closing then s in w.closing else s in w.list)
       else
         !n.dead ==>
           n.peer != null && n.peer in w.g && w.g[n.peer].kind == LocalKind && (n.kind == RemoteKind <==> n.id != 0)
  }

  /**
   A listed socket is subscribed to FDE_WRITE when it has bytes it can write, and is blank until it is
   paired: with nobody, or only a smart socket, for a peer. A closing socket waits only to write.
   */
  predicate FlagsOk(w: World, s: Socket)
    requires s in w.g
  {
    var n := w.g[s];
    n.kind == LocalKind && !n.dead ==>
      if n.closing then
        n.queue != [] && !n.writeError && n.writing && !n.reading
      else
        && (n.writing ==> n.queue != [])
        && (n.queue != [] && !n.writeError ==> n.writing)
        && (n.peer == null || (n.peer in w.g && w.g[n.peer].kind == SmartKind) ==> Blank(n))
  }

  predicate Listing(n: Node) {
    n.kind == LocalKind && !n.dead && !n.closing
  }

  predicate Parking(n: Node) {
    n.kind == LocalKind && !n.dead && n.closing
  }

  ghost predicate ListsOk(w: World) {
    && (forall s :: s in w.list ==> s in w.g && Listing(w.g[s]))
    && (forall s :: s in w.closing ==> s in w.g && Parking(w.g[s]))
  }

  ghost predicate OwnersOk(w: World) {
    forall i :: i in w.owner ==> w.owner[i] in w.g && w.g[w.owner[i]].kind == LocalKind && w.g[w.owner[i]].id == i
  }

  /** The invariant, with the flags of socket `e` perhaps out of step inside a handler. */
  ghost predicate GoodBut(w: World, e: Socket?) {
    && ListsOk(w)
    && OwnersOk(w)
    && (forall s :: s in w.g ==> LinkOk(w, s))
    && (forall s :: s in w.g && s != e ==> FlagsOk(w, s))
  }

  ghost predicate Good(w: World) {
    GoodBut(w, null)
  }

  /** The lists and the id table do not care about peers, data or other kinds of sockets. */
  lemma ShapeKept(w: World, w': World)
    requires ListsOk(w) && OwnersOk(w)
    requires w'.list == w.list && w'.closing == w.closing && w'.owner == w.owner && w.g.Keys <= w'.g.Keys
    requires forall x :: x in w.g && w.g[x].kind == LocalKind ==>
      && w'.g[x].kind == LocalKind && w'.g[x].id == w.g[x].id
      && w'.g[x].dead == w.g[x].dead && w'.g[x].closing == w.g[x].closing
    ensures ListsOk(w') && OwnersOk(w')
  {
  }

  // ----- closing

  /** A socket once closed: parked until its queue drains, or deleted. */
  function Settle(n: Node): Node {
    if n.Lingers() then n.(peer := null, closing := true, reading := false)
    else n.(peer := null, dead := true, reading := false, writing := false)
  }

  function Park(q: seq<Socket>, s: Socket, n: Node): seq<Socket> {
    Without(q, s) + if n.Lingers() then [s] else []
  }

  /** A close does not care whether the link was cut before. */
  lemma SettleUnlinked(n: Node)
    ensures Settle(n.(peer := null)) == Settle(n)
    ensures forall q, s :: Park(q, s, n.(peer := null)) == Park(q, s, n)
  {
  }

  lemma ParkAbsent(list: seq<Socket>, q: seq<Socket>, s: Socket, n: Node)
    requires s !in list && s !in q && !n.Lingers()
    ensures Without(list, s) == list && Park(q, s, n) == q
  {
  }

  lemma ParkOther(q: seq<Socket>, s: Socket, n: Node, x: Socket)
    requires x != s
    ensures x in Park(q, s, n) <==> x in q
  {
  }

  /** s->close(s): the peer, if any, is closed first, then s; both settle and no other socket changes. */
  function CloseW(w: World, s: Socket): World
    requires s in w.g && (w.g[s].peer != null ==> w.g[s].peer in w.g)
  {
    var p := w.g[s].peer;
    if p == null then
      w.(g := w.g[s := Settle(w.g[s])], list := Without(w.list, s), closing := Park(w.closing, s, w.g[s]))
    else
      w.(g := w.g[p := Settle(w.g[p])][s := Settle(w.g[s])], list := Without<Socket>(Without<Socket>(w.list, p), s),
         closing := Park(Park(w.closing, p, w.g[p]), s, w.g[s]))
  }

  /** A remote peer's shutdown sends a CLSE; local and smart peers have none. */
  function ShutdownOut(w: World, s: Socket): seq<Packet>
    requires s in w.g
  {
    var n := w.g[s];
    if n.kind == LocalKind && n.peer != null && n.peer in w.g && w.g[n.peer].kind == RemoteKind
    then [Packet(CLSE, n.id, w.g[n.peer].id, [])] else []
  }

  /** What may be closed: a socket that if it lingers is subscribed to FDE_WRITE. */
  ghost predicate Closable(w: World, s: Socket) {
    GoodBut(w, s) && s in w.g && !w.g[s].dead && (w.g[s].Lingers() ==> w.g[s].writing)
  }

  /** What a close does to socket x. */
  lemma CloseAt(w: World, s: Socket, x: Socket)
    requires s in w.g && (w.g[s].peer != null ==> w.g[s].peer in w.g)
    ensures
      var w' := CloseW(w, s);
      && w'.g.Keys == w.g.Keys
      && (x in w'.list <==> x in w.list && x != s && x != w.g[s].peer)
      && (x in w.g ==> w'.g[x].transport == w.g[x].transport)
      && (x != s && x != w.g[s].peer ==> (x in w.g ==> w'.g[x] == w.g[x]) && (x in w'.closing <==> x in w.closing))
  {
    hide Without;
  }

  /** What a close does to the two sockets it ends. */
  lemma CloseSettles(w: World, s: Socket, x: Socket)
    requires s in w.g && (w.g[s].peer != null ==> w.g[s].peer in w.g) && x in w.g && x in {s, w.g[s].peer}
    ensures
      var w' := CloseW(w, s);
      x in w'.g && w'.g[x] == Settle(w.g[x]) && (w.g[x].Lingers() ==> x in w'.closing)
  {
    hide Without, Settle;
  }

  /**
   A socket that is closed leaves the list. It waits on the closing list with all its queue, exactly if it has bytes
   to write, no write has failed and it was not closing before; else it is gone.
   */
  predicate Ended(n: Node, m: Node, listed: bool, parked: bool) {
    var waits := n.queue != [] && !n.writeError && !n.closing;
    && !listed && (parked <==> waits) && (m.dead <==> n.dead || !waits)
    && (waits ==> m.closing && m.writing == n.writing) && m.peer == null && !m.reading
    && m.queue == n.queue && m.wrote == n.wrote && m.sent == n.sent
  }

  lemma EndsOne(w: World, s: Socket, x: Socket)
    requires s in w.g && (w.g[s].peer != null ==> w.g[s].peer in w.g && w.g[s].peer != s)
    requires x in w.g && x in {s, w.g[s].peer} && w.g[x].kind == LocalKind
    ensures
      var w' := CloseW(w, s);
      x in w'.g && Ended(w.g[x], w'.g[x], x in w'.list, x in w'.closing)
  {
    hide Without;
    CloseSettles(w, s, x);
    CloseAt(w, s, x);
  }

  lemma EndsBoth(w: World, s: Socket)
    requires s in w.g && (w.g[s].peer != null ==> w.g[s].peer in w.g && w.g[s].peer != s)
    ensures
      var w' := CloseW(w, s);
      forall x :: x in w.g && x in {s, w.g[s].peer} && w.g[x].kind == LocalKind ==>
        x in w'.g && Ended(w.g[x], w'.g[x], x in w'.list, x in w'.closing)
  {
    hide CloseW, Ended;
    forall x | x in w.g && x in {s, w.g[s].peer} && w.g[x].kind == LocalKind
      ensures x in CloseW(w, s).g && Ended(w.g[x], CloseW(w, s).g[x], x in CloseW(w, s).list, x in CloseW(w, s).closing)
    {
      EndsOne(w, s, x);
    }
  }

  lemma SettledLink(w: World, s: Socket, x: Socket)
    requires s in w.g && (w.g[s].peer != null ==> w.g[s].peer in w.g)
    requires x in w.g && x in {s, w.g[s].peer} && LinkOk(w, x)
    ensures CloseW(w, s).g.Keys == w.g.Keys && LinkOk(CloseW(w, s), x)
  {
    CloseSettles(w, s, x);
    CloseAt(w, s, x);
    CloseIds(w, s);
    hide CloseW;
  }

  lemma CloseIds(w: World, s: Socket)
    requires s in w.g && (w.g[s].peer != null ==> w.g[s].peer in w.g)
    ensures CloseW(w, s).nextId == w.nextId && CloseW(w, s).owner == w.owner
  {
    hide Without, Park;
  }

  lemma BystanderLink(w: World, s: Socket, x: Socket)
    requires s in w.g && (w.g[s].peer != null ==> w.g[s].peer in w.g)
    requires x in w.g && x !in {s, w.g[s].peer} && LinkOk(w, s) && LinkOk(w, x)
    ensures CloseW(w, s).g.Keys == w.g.Keys && LinkOk(CloseW(w, s), x) && (FlagsOk(w, x) ==> FlagsOk(CloseW(w, s), x))
  {
    CloseAt(w, s, x);
    CloseIds(w, s);
    if w.g[x].peer != null {
      CloseAt(w, s, w.g[x].peer);
    }
    hide CloseW;
  }

  lemma SettledFlags(w: World, s: Socket, x: Socket)
    requires s in w.g && (w.g[s].peer != null ==> w.g[s].peer in w.g)
    requires x in w.g && x in {s, w.g[s].peer}
    requires w.g[x].Lingers() ==> w.g[x].writing
    ensures x in CloseW(w, s).g && FlagsOk(CloseW(w, s), x)
  {
    CloseSettles(w, s, x);
    hide CloseW;
  }

  lemma CloseKeepsOne(w: World, s: Socket, x: Socket)
    requires Closable(w, s) && x in w.g
    requires w.g[s].peer != null ==> w.g[s].peer in w.g
    ensures CloseW(w, s).g.Keys == w.g.Keys && LinkOk(CloseW(w, s), x) && FlagsOk(CloseW(w, s), x)
  {
    assert LinkOk(w, s) && LinkOk(w, x) && (x != s ==> FlagsOk(w, x));
    assert x in {s, w.g[s].peer} && w.g[x].Lingers() ==> w.g[x].writing;
    hide CloseW, LinkOk, FlagsOk;
    if x in {s, w.g[s].peer} {
      SettledLink(w, s, x);
      SettledFlags(w, s, x);
    } else {
      BystanderLink(w, s, x);
    }
  }

  lemma CloseListed(w: World, s: Socket)
    requires ListsOk(w)
    requires s in w.g && !w.g[s].dead && (w.g[s].peer != null ==> w.g[s].peer in w.g && !w.g[w.g[s].peer].dead)
    ensures forall x :: x in CloseW(w, s).list ==> x in w.g && Listing(CloseW(w, s).g[x])
  {
    hide Without, Park;
  }

  lemma CloseParked(w: World, s: Socket)
    requires ListsOk(w)
    requires s in w.g && !w.g[s].dead && (w.g[s].peer != null ==> w.g[s].peer in w.g && !w.g[w.g[s].peer].dead)
    ensures forall x :: x in CloseW(w, s).closing ==> x in w.g && Parking(CloseW(w, s).g[x])
  {
    hide Without;
  }

  lemma CloseOwners(w: World, s: Socket)
    requires OwnersOk(w) && s in w.g && (w.g[s].peer != null ==> w.g[s].peer in w.g)
    ensures OwnersOk(CloseW(w, s))
  {
    hide Without, Park;
  }

  lemma CloseLists(w: World, s: Socket)
    requires ListsOk(w) && OwnersOk(w)
    requires s in w.g && !w.g[s].dead && (w.g[s].peer != null ==> w.g[s].peer in w.g && !w.g[w.g[s].peer].dead)
    ensures ListsOk(CloseW(w, s)) && OwnersOk(CloseW(w, s))
  {
    CloseListed(w, s);
    CloseParked(w, s);
    CloseOwners(w, s);
    CloseAt(w, s, s);
    hide CloseW;
  }

  lemma CloseGood(w: World, s: Socket)
    requires Closable(w, s)
    ensures w.g[s].peer != null ==> w.g[s].peer in w.g
    ensures Good(CloseW(w, s))
  {
    hide FlagsOk, ListsOk, OwnersOk;
    assert LinkOk(w, s);
    assert w.g[s].peer != null ==> LinkOk(w, w.g[s].peer);
    hide LinkOk, CloseW;
    CloseLists(w, s);
    var w' := CloseW(w, s);
    CloseAt(w, s, s);
    forall x | x in w'.g ensures LinkOk(w', x) && FlagsOk(w', x) {
      CloseKeepsOne(w, s, x);
    }
  }

  /** What a close relies on: only local sockets are listed, and a peer is another socket linked back. */
  lemma CloseOnLists(w: World, s: Socket)
    requires Closable(w, s)
    ensures w.g[s].kind != LocalKind ==> s !in w.list && s !in w.closing
    ensures
      var p := w.g[s].peer;
      p != null ==>
        && p in w.g && p != s && w.g[p].peer == s && (w.g[p].Lingers() ==> w.g[p].writing)
        && (w.g[p].kind != LocalKind ==> p !in w.list && p !in w.closing)
  {
    var p := w.g[s].peer;
    assert LinkOk(w, s);
    if p != null {
      assert LinkOk(w, p) && FlagsOk(w, p);
    }
  }

  /** The socket or its peer runs over transport t. */
  predicate Bound(g: map<Socket, Node>, s: Socket, t: nat) {
    s in g && (g[s].transport == Some(t) || (g[s].peer != null && g[s].peer in g && g[g[s].peer].transport == Some(t)))
  }

  lemma AboutListed(w: World, s: Socket)
    requires Good(w) && s in w.list
    ensures s in w.g && !w.g[s].dead && !w.g[s].closing && w.g[s].kind == LocalKind && Closable(w, s)
    ensures w.g[s].peer != null ==> w.g[s].peer in w.g && w.g[s].peer != s
  {
    assert LinkOk(w, s) && FlagsOk(w, s);
  }

  /** From w to w', socket x was not listed anew, and if it was not bound to t it kept state and place. */
  predicate SparesOne(w: World, w': World, t: nat, x: Socket)
    requires x in w.g && x in w'.g
  {
    && (x in w'.list ==> x in w.list)
    && w'.g[x].transport == w.g[x].transport
    && (!Bound(w.g, x, t) ==>
          w'.g[x] == w.g[x] && (x in w'.list <==> x in w.list) && (x in w'.closing <==> x in w.closing))
  }

  ghost predicate Spares(w: World, w': World, t: nat) {
    w'.g.Keys == w.g.Keys && forall x :: x in w.g ==> SparesOne(w, w', t, x)
  }

  lemma SparesMeans(w: World, w': World, t: nat)
    requires Spares(w, w', t)
    ensures forall x :: x in w.list && x in w.g && !Bound(w.g, x, t) ==> x in w'.list && x in w'.g && w'.g[x] == w.g[x]
  {
    hide Bound;
    forall x | x in w.list && x in w.g && !Bound(w.g, x, t) ensures x in w'.list && x in w'.g && w'.g[x] == w.g[x] {
      assert SparesOne(w, w', t, x);
    }
  }

  lemma SparesSelf(w: World, t: nat)
    ensures Spares(w, w, t)
  {
  }

  lemma BoundBefore(w0: World, w: World, x: Socket, t: nat)
    requires Spares(w0, w, t) && Bound(w.g, x, t)
    ensures Bound(w0.g, x, t)
  {
    assert SparesOne(w0, w, t, x);
    var p := w.g[x].peer;
    assert p != null && p in w0.g ==> SparesOne(w0, w, t, p);
  }

  lemma PeerBound(w: World, s: Socket, t: nat)
    requires Closable(w, s) && Bound(w.g, s, t)
    ensures var p := w.g[s].peer; p != null ==> p in w.g && Bound(w.g, p, t)
  {
    assert LinkOk(w, s);
  }

  /** Closing a socket bound to t spares the others: its peer is bound too. */
  lemma CloseSpares(w0: World, w: World, s: Socket, t: nat)
    requires Spares(w0, w, t) && s in w.g && Closable(w, s) && Bound(w.g, s, t)
    ensures w.g[s].peer != null ==> w.g[s].peer in w.g
    ensures Spares(w0, CloseW(w, s), t)
  {
    hide Without, Closable, Bound, CloseW;
    PeerBound(w, s, t);
    BoundBefore(w0, w, s, t);
    var p := w.g[s].peer;
    if p != null {
      BoundBefore(w0, w, p, t);
    }
    CloseAt(w, s, s);
    forall x | x in w0.g ensures SparesOne(w0, CloseW(w, s), t, x) {
      CloseSparesOne(w0, w, s, t, x);
    }
  }

  lemma CloseSparesOne(w0: World, w: World, s: Socket, t: nat, x: Socket)
    requires x in w0.g && x in w.g && SparesOne(w0, w, t, x)
    requires s in w.g && (w.g[s].peer != null ==> w.g[s].peer in w.g)
    requires Bound(w0.g, s, t) && (w.g[s].peer != null ==> Bound(w0.g, w.g[s].peer, t))
    ensures x in CloseW(w, s).g && SparesOne(w0, CloseW(w, s), t, x)
  {
    hide Bound, CloseW;
    CloseAt(w, s, x);
  }

  lemma CloseShortens(w: World, s: Socket)
    requires s in w.list && s in w.g && (w.g[s].peer != null ==> w.g[s].peer in w.g && w.g[s].peer != s)
    ensures |CloseW(w, s).list| < |w.list|
  {
    hide Without;
  }

  // ----- closing many

  /** From w0 to w, socket x is as it was, or was listed and has been closed. */
  predicate SweptAt(w0: World, w: World, x: Socket)
    requires x in w0.g && x in w.g
  {
    && w.g[x].kind == w0.g[x].kind && w.g[x].id == w0.g[x].id
    && (x in w0.list ==>
          if x in w.list then w.g[x] == w0.g[x] else Ended(w0.g[x], w.g[x], false, x in w.closing))
  }

  ghost predicate SweptAll(w0: World, w: World) {
    w.g.Keys == w0.g.Keys && forall x :: x in w0.g ==> SweptAt(w0, w, x)
  }

  /** The sockets of `closed` were closed in this order, and with each its peer. */
  ghost predicate SweptOff(w0: World, w: World, closed: seq<Socket>) {
    && Distinct(closed) && (forall x :: x in closed ==> x in w0.list && x in w0.g && x !in w.list)
    && (forall x :: x in w.list ==> x in w0.list)
    && (forall x :: x in w0.list && x in w0.g && x !in w.list ==> x in closed || w0.g[x].peer in closed)
  }

  ghost predicate Swept(w0: World, w: World, closed: seq<Socket>) {
    SweptAll(w0, w) && SweptOff(w0, w, closed)
  }

  /** The CLSEs of sockets closed one after the other. */
  function Shutdowns(w: World, closed: seq<Socket>): seq<Packet> {
    if closed == [] then []
    else
      var (front, s) := (closed[..|closed| - 1], closed[|closed| - 1]);
      Shutdowns(w, front) + if s in w.g then ShutdownOut(w, s) else []
  }

  lemma ShutdownsMore(w: World, closed: seq<Socket>, s: Socket)
    requires s in w.g
    ensures Shutdowns(w, closed + [s]) == Shutdowns(w, closed) + ShutdownOut(w, s)
  {
    assert (closed + [s])[..|closed|] == closed;
  }

  lemma ShutdownsNone(w: World)
    ensures Shutdowns(w, []) == []
  {
  }

  lemma SweptSelf(w: World)
    ensures Swept(w, w, [])
  {
  }

  lemma SweptOne(w0: World, w: World, s: Socket, x: Socket)
    requires x in w0.g && x in w.g && SweptAt(w0, w, x) && s in w.list && s in w.g
    requires w.g[s].kind == LocalKind && (x in w0.list ==> w.g[x].kind == LocalKind)
    requires w.g[s].peer != null ==> w.g[s].peer in w.g && w.g[s].peer != s && w.g[w.g[s].peer].peer == s
    ensures x in CloseW(w, s).g && SweptAt(w0, CloseW(w, s), x)
  {
    CloseAt(w, s, x);
    CloseIds(w, s);
    if x in {s, w.g[s].peer} {
      CloseSettles(w, s, x);
      if w.g[x].kind == LocalKind {
        EndsOne(w, s, x);
      }
    }
    hide CloseW;
  }

  /** What is known of a listed socket in the middle of the sweep. */
  lemma SweptFacts(w0: World, w: World, closed: seq<Socket>, s: Socket)
    requires Good(w) && Swept(w0, w, closed) && s in w.list && s in w.g
    ensures s in w0.g && s in w0.list && w.g[s] == w0.g[s] && w.g[s].kind == LocalKind
    ensures
      var p := w.g[s].peer;
      p != null ==>
        && p in w.g && p in w0.g && p != s && w.g[p].peer == s && (p in w.list ==> w0.g[p].peer == s)
        && w.g[p].kind == w0.g[p].kind && w.g[p].id == w0.g[p].id
  {
    AboutListed(w, s);
    assert LinkOk(w, s) && SweptAt(w0, w, s);
    var p := w.g[s].peer;
    if p != null {
      assert SweptAt(w0, w, p);
    }
    hide GoodBut, Closable, Ended;
  }

  lemma ListedKinds(w: World)
    requires Good(w)
    ensures forall x :: x in w.list ==> x in w.g && w.g[x].kind == LocalKind
  {
  }

  lemma SweptClose(w0: World, w: World, closed: seq<Socket>, s: Socket)
    requires Good(w0) && Good(w) && Swept(w0, w, closed) && s in w.list && s in w.g
    ensures w.g[s].peer != null ==> w.g[s].peer in w.g
    ensures Swept(w0, CloseW(w, s), closed + [s]) && s in w0.g && ShutdownOut(w, s) == ShutdownOut(w0, s)
  {
    SweptFacts(w0, w, closed, s);
    SameShutdown(w0, w, s);
    hide GoodBut, SweptAll, SweptOff, CloseW, ShutdownOut;
    SweptNodes(w0, w, s);
    SweptLists(w0, w, closed, s);
  }

  lemma SameShutdown(w0: World, w: World, s: Socket)
    requires s in w.g && s in w0.g && w.g[s] == w0.g[s]
    requires
      var p := w.g[s].peer;
      p != null ==> p in w.g && p in w0.g && w.g[p].kind == w0.g[p].kind && w.g[p].id == w0.g[p].id
    ensures ShutdownOut(w, s) == ShutdownOut(w0, s)
  {
  }

  lemma SweptNodes(w0: World, w: World, s: Socket)
    requires Good(w0) && SweptAll(w0, w) && s in w.list && s in w.g && w.g[s].kind == LocalKind
    requires w.g[s].peer != null ==> w.g[s].peer in w.g && w.g[s].peer != s && w.g[w.g[s].peer].peer == s
    ensures SweptAll(w0, CloseW(w, s))
  {
    ListedKinds(w0);
    hide GoodBut, SweptAt, CloseW;
    CloseAt(w, s, s);
    forall x | x in w0.g ensures x in CloseW(w, s).g && SweptAt(w0, CloseW(w, s), x) {
      assert SweptAt(w0, w, x);
      SweptKind(w0, w, x);
      SweptOne(w0, w, s, x);
    }
  }

  lemma SweptKind(w0: World, w: World, x: Socket)
    requires x in w0.g && x in w.g && SweptAt(w0, w, x)
    ensures w.g[x].kind == w0.g[x].kind
  {
  }

  lemma SweptLists(w0: World, w: World, closed: seq<Socket>, s: Socket)
    requires SweptOff(w0, w, closed) && s in w.list && s in w.g && s in w0.g
    requires w.g[s].peer != null ==> w.g[s].peer in w.g && w.g[s].peer in w0.g
    requires w.g[s] == w0.g[s] && (w.g[s].peer != null && w.g[s].peer in w.list ==> w0.g[w.g[s].peer].peer == s)
    ensures SweptOff(w0, CloseW(w, s), closed + [s])
  {
    forall x ensures x in CloseW(w, s).list <==> x in w.list && x != s && x != w.g[s].peer {
      CloseAt(w, s, x);
    }
    PushDistinct(closed, s);
    hide CloseW, Distinct;
  }

  // ----- one socket as a value of module Asocket

  function NodeConn(n: Node, peer: Peer): Conn {
    Conn(if n.dead then Gone else if n.closing then Closing else Listed, peer,
         n.queue, n.reading, n.writing, n.writeError, n.sent, n.wrote, n.forced, n.finned)
  }

  function PeerOf(w: World, n: Node): Peer {
    if n.peer != null && n.peer in w.g then Remote(w.g[n.peer].id) else NoPeer
  }

  function AbsOf(w: World, s: Socket): Conn
    requires s in w.g
  {
    NodeConn(w.g[s], PeerOf(w, w.g[s]))
  }

  /** The node with the data and flags of `c`. */
  function Put(n: Node, c: Conn): Node {
    n.(queue := c.queue, reading := c.reading, writing := c.writing, writeError := c.broken,
       sent := c.sent, wrote := c.wrote, forced := c.forced, finned := c.finned)
  }

  function Touch(w: World, s: Socket, n: Node): World {
    w.(g := w.g[s := n])
  }

  lemma TouchTwice(w: World, s: Socket, m: Node, n: Node)
    ensures Touch(Touch(w, s, m), s, n) == Touch(w, s, n)
  {
    assert w.g[s := m][s := n] == w.g[s := n];
  }

  lemma TouchKeeps(w: World, s: Socket, n: Node, x: Socket)
    requires s in w.g && x in w.g && LinkOk(w, x)
    requires n.kind == w.g[s].kind && n.id == w.g[s].id && n.peer == w.g[s].peer
    requires n.closing == w.g[s].closing && n.dead == w.g[s].dead
    ensures LinkOk(Touch(w, s, n), x) && (x != s && FlagsOk(w, x) ==> FlagsOk(Touch(w, s, n), x))
  {
  }

  /** Changing the data and flags of one socket leaves the graph intact. */
  lemma TouchGood(w: World, s: Socket, n: Node)
    requires GoodBut(w, s) && s in w.g
    requires n.kind == w.g[s].kind && n.id == w.g[s].id && n.peer == w.g[s].peer
    requires n.closing == w.g[s].closing && n.dead == w.g[s].dead
    ensures GoodBut(Touch(w, s, n), s)
    ensures FlagsOk(Touch(w, s, n), s) ==> Good(Touch(w, s, n))
  {
    hide LinkOk, FlagsOk;
    var w' := Touch(w, s, n);
    forall x | x in w'.g ensures LinkOk(w', x) && (x != s ==> FlagsOk(w', x)) {
      TouchKeeps(w, s, n, x);
    }
  }

  // ----- local_socket_flush_incoming

  /** The write blocked or took only part of the queue. */
  predicate WantsMore(n: Node, o: WriteResult) {
    n.queue != [] && (o.Again? || (o.Wrote? && o.n < |n.queue|))
  }

  /** The node after adb_writev and the subscription change, before a closing socket is destroyed. */
  function Written(n: Node, o: WriteResult): Node
    requires Plausible(o, n.queue)
  {
    var took := if n.queue != [] && o.Wrote? then o.n else 0;
    n.(wrote := n.wrote + n.queue[..took], queue := n.queue[took..],
       writing := WantsMore(n, o) || (n.closing && n.writing),
       writeError := n.writeError || (n.queue != [] && o.Failed?))
  }

  function FlushW(w: World, s: Socket, o: WriteResult): World
    requires s in w.g && Plausible(o, w.g[s].queue) && (w.g[s].closing ==> w.g[s].peer == null)
  {
    var w1 := Touch(w, s, Written(w.g[s], o));
    if w.g[s].closing && !WantsMore(w.g[s], o) then CloseW(w1, s) else w1
  }

  /** A socket that may be flushed: closing, or paired so that it may hold data. */
  ghost predicate Flushable(w: World, s: Socket, o: WriteResult) {
    && GoodBut(w, s) && s in w.g && w.g[s].kind == LocalKind && !w.g[s].dead && Plausible(o, w.g[s].queue)
    && if w.g[s].closing then w.g[s].peer == null && FlagsOk(w, s)
       else w.g[s].peer != null && w.g[s].peer != s && w.g[s].peer in w.g && w.g[w.g[s].peer].kind != SmartKind
  }

  lemma FlushGood(w: World, s: Socket, o: WriteResult)
    requires Flushable(w, s, o)
    ensures Good(FlushW(w, s, o))
    ensures w.g[s].closing && !WantsMore(w.g[s], o) ==> Closable(Touch(w, s, Written(w.g[s], o)), s)
  {
    hide Without, CloseW, GoodBut;
    var n1 := Written(w.g[s], o);
    var w1 := Touch(w, s, n1);
    TouchGood(w, s, n1);
    if w.g[s].closing && !WantsMore(w.g[s], o) {
      CloseGood(w1, s);
    }
  }

  lemma FlushResultIs(n: Node, peer: Peer, o: WriteResult)
    requires !n.dead && Plausible(o, n.queue)
    ensures Flush(NodeConn(n, peer), o).1 ==
      if WantsMore(n, o) then TryAgain else if n.closing then Destroyed else Completed
  {
  }

  /** The first `k` bytes of a queue and the rest, at the two ends. */
  lemma Ends(q: Bytes, w: Bytes)
    ensures q[0..] == q && w + q[..0] == w && q[|q|..] == [] && w + q[..|q|] == w + q
  {
    assert q[..|q|] == q && q[..0] == [];
  }

  lemma FlushNode(n: Node, peer: Peer, o: WriteResult)
    requires n.kind == LocalKind && !n.dead && Plausible(o, n.queue) && (n.closing ==> peer == NoPeer)
    requires WantsMore(n, o) || !n.closing
    ensures Flush(NodeConn(n, peer), o).0 == NodeConn(Written(n, o), peer)
  {
    Ends(n.queue, n.wrote);
  }

  lemma FlushLastNode(n: Node, o: WriteResult)
    requires n.kind == LocalKind && !n.dead && Plausible(o, n.queue) && n.closing && !WantsMore(n, o)
    ensures Flush(NodeConn(n, NoPeer), o).0 == NodeConn(Settle(Written(n, o)), NoPeer)
  {
    Ends(n.queue, n.wrote);
  }

  /** The heap code does to the socket what Asocket.Flush says. */
  lemma FlushIs(w: World, s: Socket, o: WriteResult)
    requires s in w.g && w.g[s].kind == LocalKind && !w.g[s].dead && Plausible(o, w.g[s].queue)
    requires w.g[s].closing ==> w.g[s].peer == null
    requires w.g[s].peer != s
    ensures s in FlushW(w, s, o).g
    ensures AbsOf(FlushW(w, s, o), s) == Flush(AbsOf(w, s), o).0
    ensures Flush(AbsOf(w, s), o).1 ==
      if WantsMore(w.g[s], o) then TryAgain else if w.g[s].closing then Destroyed else Completed
  {
    hide Without, Park, Flush;
    if w.g[s].closing && !WantsMore(w.g[s], o) {
      FlushLastNode(w.g[s], o);
    } else {
      FlushNode(w.g[s], PeerOf(w, w.g[s]), o);
    }
    FlushResultIs(w.g[s], PeerOf(w, w.g[s]), o);
  }

  /** It touches no other socket, and no link. */
  lemma FlushElsewhere(w: World, s: Socket, o: WriteResult)
    requires s in w.g && Plausible(o, w.g[s].queue) && (w.g[s].closing ==> w.g[s].peer == null)
    ensures FlushW(w, s, o).g.Keys == w.g.Keys && FlushW(w, s, o).owner == w.owner
    ensures FlushW(w, s, o).g[s].peer == w.g[s].peer && FlushW(w, s, o).g[s].id == w.g[s].id
    ensures forall x :: x in w.g && x != s ==> FlushW(w, s, o).g[x] == w.g[x]
  {
    hide Without, Park;
  }

  // ----- what the handlers rely on

  /** A listed local socket subscribed to FDE_WRITE has a peer, and not a smart one. */
  lemma WritableHasPeer(w: World, s: Socket, o: WriteResult)
    requires Good(w) && s in w.g && w.g[s].kind == LocalKind && !w.g[s].dead && w.g[s].writing
    requires Plausible(o, w.g[s].queue)
    ensures Flushable(w, s, o)
    ensures !w.g[s].closing ==> w.g[s].peer in w.g && w.g[w.g[s].peer].peer == s
  {
    assert LinkOk(w, s) && FlagsOk(w, s);
  }

  /** ready() of a paired local socket: only FDE_READ is subscribed. */
  lemma ReadyGood(w: World, s: Socket)
    requires Good(w) && s in w.g && w.g[s].kind == LocalKind && w.g[s].peer != null
    ensures Good(Touch(w, s, w.g[s].(reading := true)))
  {
    assert LinkOk(w, s) && FlagsOk(w, s);
    TouchGood(w, s, w.g[s].(reading := true));
  }

  lemma RemoteFacts(w: World, p: Socket)
    requires Good(w) && p in w.g && w.g[p].kind == RemoteKind && !w.g[p].dead
    ensures
      var s := w.g[p].peer;
      && s != null && s in w.g && w.g[s].kind == LocalKind && w.g[s].peer == p && s in w.list
      && !w.g[s].dead && !w.g[s].closing && s != p && w.g[p].id != 0
  {
    assert LinkOk(w, p) && LinkOk(w, w.g[p].peer);
  }

  lemma SendGood(w: World, s: Socket, data: Bytes)
    requires Good(w) && s in w.list && s in w.g && w.g[s].peer != null
    requires w.g[s].peer in w.g && w.g[w.g[s].peer].kind == RemoteKind
    ensures Good(Touch(w, s, Handed(w.g[s], data)))
  {
    assert LinkOk(w, s) && FlagsOk(w, s);
    TouchGood(w, s, Handed(w.g[s], data));
  }

  lemma EnqueueFlushable(w: World, s: Socket, data: Bytes, o: WriteResult)
    requires Good(w) && s in w.list && s in w.g && w.g[s].peer != null && Plausible(o, w.g[s].queue + data)
    requires w.g[s].peer in w.g && w.g[w.g[s].peer].kind != SmartKind
    ensures Flushable(Touch(w, s, w.g[s].(queue := w.g[s].queue + data)), s, o)
  {
    assert LinkOk(w, s) && FlagsOk(w, s);
    TouchGood(w, s, w.g[s].(queue := w.g[s].queue + data));
  }

  lemma PauseGood(w: World, s: Socket)
    requires Good(w) && s in w.g
    ensures Good(Touch(w, s, w.g[s].(reading := false)))
  {
    assert LinkOk(w, s) && FlagsOk(w, s);
    TouchGood(w, s, w.g[s].(reading := false));
  }

  /** Any live local socket may be closed. */
  lemma LiveClosable(w: World, s: Socket)
    requires Good(w) && s in w.g && !w.g[s].dead
    ensures Closable(w, s)
  {
    assert FlagsOk(w, s);
  }

  /** Closing the socket of a stream is Asocket.Close, and its peer's CLSE is Asocket.CloseOut. */
  lemma CloseIs(w: World, s: Socket)
    requires Closable(w, s) && w.g[s].kind == LocalKind
    requires w.g[s].peer != null ==> w.g[s].peer in w.g && w.g[w.g[s].peer].kind == RemoteKind
    ensures CloseW(w, s).g.Keys == w.g.Keys
    ensures AbsOf(CloseW(w, s), s) == Close(AbsOf(w, s))
    ensures ShutdownOut(w, s) == CloseOut(w.g[s].id, AbsOf(w, s))
  {
    hide Without, Park;
    assert LinkOk(w, s);
  }

  lemma StreamFacts(w: World, s: Socket)
    requires Good(w) && s in w.g && w.g[s].kind == LocalKind && !w.g[s].dead
    ensures w.g[s].peer != null ==>
      w.g[s].peer in w.g && w.g[w.g[s].peer].peer == s && !w.g[w.g[s].peer].dead && s in w.list && w.g[s].peer != s
  {
    assert LinkOk(w, s);
    assert w.g[s].peer != null ==> LinkOk(w, w.g[s].peer);
  }

  // ----- local_socket_flush_outgoing of a stream's socket

  /** The history of a socket that handed data over, asked or not. */
  function Handed(n: Node, data: Bytes): Node {
    n.(sent := n.sent + data, forced := n.forced || !n.reading)
  }

  function SendW(w: World, s: Socket, data: Bytes): World
    requires s in w.g
  {
    var n := w.g[s];
    if data == [] || n.peer == null then w
    else Touch(w, s, n.(sent := n.sent + data, forced := n.forced || !n.reading, reading := false))
  }

  function SendOut(w: World, s: Socket, data: Bytes): seq<Packet>
    requires s in w.g
  {
    var n := w.g[s];
    if data == [] || n.peer == null || n.peer !in w.g then [] else [Packet(WRTE, n.id, w.g[n.peer].id, data)]
  }

  lemma SendKeeps(w: World, s: Socket, data: Bytes)
    requires Good(w) && s in w.g && w.g[s].kind == LocalKind && !w.g[s].dead
    requires w.g[s].peer != null ==> w.g[s].peer in w.g && w.g[w.g[s].peer].kind == RemoteKind
    ensures
      var w1 := SendW(w, s, data);
      && Closable(w1, s) && Good(w1) && w1.g.Keys == w.g.Keys && w1.g[s].peer == w.g[s].peer && w1.g[s].id == w.g[s].id
  {
    hide GoodBut, Without;
    var w1 := SendW(w, s, data);
    StreamFacts(w, s);
    if data != [] && w.g[s].peer != null {
      SendGood(w, s, data);
      PauseGood(Touch(w, s, Handed(w.g[s], data)), s);
      TouchTwice(w, s, Handed(w.g[s], data), w1.g[s]);
    }
    LiveClosable(w1, s);
  }

  lemma SendKinds(w: World, s: Socket, data: Bytes)
    requires s in w.g
    ensures var w1 := SendW(w, s, data);
      w1.g.Keys == w.g.Keys && forall x :: x in w.g ==> w1.g[x].kind == w.g[x].kind
  {
  }

  lemma SendIs(w: World, s: Socket, data: Bytes)
    requires s in w.g && (w.g[s].peer != null ==> w.g[s].peer in w.g && w.g[s].peer != s)
    ensures s in SendW(w, s, data).g
    ensures AbsOf(SendW(w, s, data), s) == OnReadable(w.g[s].id, AbsOf(w, s), data, false).0
  {
  }

  lemma ReadThenClose(i: nat, c: Conn, data: Bytes)
    ensures OnReadable(i, c, data, true).0 == Close(OnReadable(i, c, data, false).0)
  {
    hide Close;
  }

  /** Sending what was read and then, at its end, closing, is Asocket.OnReadable. */
  lemma ReadableIs(w: World, s: Socket, data: Bytes, eof: bool)
    requires Good(w) && s in w.g && w.g[s].kind == LocalKind && !w.g[s].dead
    requires w.g[s].peer != null ==> w.g[s].peer in w.g && w.g[w.g[s].peer].kind == RemoteKind && w.g[s].peer != s
    ensures
      var w1 := SendW(w, s, data);
      && w1.g.Keys == w.g.Keys && (w1.g[s].peer != null ==> w1.g[s].peer in w1.g) && CloseW(w1, s).g.Keys == w.g.Keys
      && AbsOf(if eof then CloseW(w1, s) else w1, s) == OnReadable(w.g[s].id, AbsOf(w, s), data, eof).0
  {
    hide GoodBut, CloseW, Close, Closable, SendW, AbsOf;
    SendKeeps(w, s, data);
    SendKinds(w, s, data);
    CloseIs(SendW(w, s, data), s);
    SendIs(w, s, data);
    ReadThenClose(w.g[s].id, AbsOf(w, s), data);
    hide OnReadable;
  }

  lemma ReadableSends(w: World, s: Socket, data: Bytes, eof: bool)
    requires s in w.g && w.g[s].kind == LocalKind
    requires w.g[s].peer != null ==> w.g[s].peer in w.g && w.g[w.g[s].peer].kind == RemoteKind && w.g[s].peer != s
    ensures SendOut(w, s, data) + (if eof then ShutdownOut(SendW(w, s, data), s) else [])
         == OnReadable(w.g[s].id, AbsOf(w, s), data, eof).1
  {
    hide Close;
  }

  // ----- handle_packet

  /** The local socket that has, or had, id i. */
  function Owner(w: World, i: nat): Option<Socket> {
    if i in w.owner && w.owner[i] in w.g then Some(w.owner[i]) else None
  }

  /** A socket that is on no stream: joined to another local socket or still to a smart one. */
  predicate OffStream(w: World, s: Socket)
    requires s in w.g
  {
    w.g[s].peer != null && w.g[s].peer in w.g && w.g[w.g[s].peer].kind != RemoteKind
  }

  /** From w to w' at most socket s and its peer changed, and new sockets appeared. */
  ghost predicate Elsewhere(w: World, w': World, s: Socket)
    requires s in w.g
  {
    && w.g.Keys <= w'.g.Keys && w'.owner == w.owner
    && forall x :: x in w.g && x != s && x != w.g[s].peer ==> w'.g[x] == w.g[x]
  }

  /**
   From w to w', sending `out`, the OKAY, CLSE or WRTE `p` did to the socket it names what Asocket.OnPacket
   says; an id never installed is answered as a destroyed one would be.
   */
  ghost predicate Handled(w: World, w': World, out: seq<Packet>, p: Packet, o: WriteResult) {
    match Owner(w, p.arg1)
    case None => w' == w && out == if p.cmd == OKAY && p.arg0 != 0 then [Packet(CLSE, p.arg1, p.arg0, [])] else []
    case Some(s) =>
      && Elsewhere(w, w', s)
      && (!OffStream(w, s) && (p.cmd == WRTE ==> Plausible(o, w.g[s].queue + p.data)) ==>
        && s in w'.g
        && AbsOf(w', s) == OnPacket(p.arg1, AbsOf(w, s), p, o).0
        && out == OnPacket(p.arg1, AbsOf(w, s), p, o).1)
  }

  /** A listed socket without peer, and one with. */
  lemma OkayPairs(w: World, s: Socket, r: Socket, p: Packet, o: WriteResult, t: nat)
    requires Good(w) && s in w.list && s in w.g && w.g[s].peer == null && r !in w.g && p.cmd == OKAY && p.arg0 != 0
    requires p.arg1 in w.owner && w.owner[p.arg1] == s
    ensures
      var w1 := Pair(w, s, r, p.arg0, t);
      Handled(w, Touch(w1, s, w1.g[s].(reading := true)), [], p, o)
  {
    hide GoodBut;
    AboutListed(w, s);
  }

  lemma OkayReadies(w: World, s: Socket, p: Packet, o: WriteResult)
    requires Good(w) && s in w.list && s in w.g && w.g[s].peer != null
    requires w.g[s].peer in w.g && p.cmd == OKAY && p.arg0 != 0
    requires p.arg1 in w.owner && w.owner[p.arg1] == s
    ensures Handled(w, if w.g[w.g[s].peer].id == p.arg0 then Touch(w, s, w.g[s].(reading := true)) else w, [], p, o)
  {
    hide GoodBut;
    AboutListed(w, s);
  }

  lemma OkayMisses(w: World, p: Packet)
    requires Good(w) && p.cmd == OKAY && p.arg0 != 0 && (p.arg1 in w.owner ==> w.owner[p.arg1] !in w.list)
    ensures Handled(w, w, [Packet(CLSE, p.arg1, p.arg0, [])], p, Again)
  {
    if p.arg1 in w.owner {
      assert LinkOk(w, w.owner[p.arg1]);
    }
  }

  lemma ClseMisses(w: World, p: Packet, o: WriteResult)
    requires Good(w) && p.cmd == CLSE && p.arg1 != 0
    requires p.arg1 in w.owner && w.owner[p.arg1] in w.list ==>
      var n := w.g[w.owner[p.arg1]]; p.arg0 != 0 && !(n.peer != null && w.g[n.peer].id == p.arg0)
    ensures Handled(w, w, [], p, o)
  {
    if p.arg1 in w.owner {
      assert LinkOk(w, w.owner[p.arg1]);
    }
  }

  lemma FinGood(w: World, s: Socket, fin: bool)
    requires Good(w) && s in w.g && (w.g[s].dead || w.g[s].closing)
    ensures Good(Touch(w, s, w.g[s].(finned := fin)))
  {
    assert LinkOk(w, s) && FlagsOk(w, s);
    TouchGood(w, s, w.g[s].(finned := fin));
  }

  /** A CLSE that found s closes it. */
  function Closed(w: World, s: Socket): World
    requires s in w.g && (w.g[s].peer != null ==> w.g[s].peer in w.g && w.g[s].peer != s)
  {
    var w1 := CloseW(w, s);
    CloseEnds(w, s);
    Touch(w1, s, w1.g[s].(finned := w.g[s].peer != null))
  }

  lemma ClosedGood(w: World, s: Socket)
    requires Good(w) && s in w.list && s in w.g
    ensures (w.g[s].peer != null ==> w.g[s].peer in w.g && w.g[s].peer != s) && Good(Closed(w, s))
  {
    hide Without, CloseW, GoodBut;
    AboutListed(w, s);
    CloseGood(w, s);
    CloseEnds(w, s);
    FinGood(CloseW(w, s), s, w.g[s].peer != null);
  }

  lemma ClseCloses(w: World, s: Socket, p: Packet)
    requires Good(w) && s in w.list && s in w.g && p.cmd == CLSE && p.arg1 in w.owner && w.owner[p.arg1] == s
    requires w.g[s].peer != null ==> w.g[s].peer in w.g && w.g[s].peer != s
    requires p.arg0 == 0 || (w.g[s].peer != null && w.g[w.g[s].peer].id == p.arg0)
    ensures Handled(w, Closed(w, s), ShutdownOut(w, s), p, Again)
  {
    hide Without, CloseW, GoodBut, ShutdownOut;
    AboutListed(w, s);
    OwnedFacts(w, p.arg1);
    CloseEnds(w, s);
    if !OffStream(w, s) {
      CloseIs(w, s);
    }
    hide Closable, Close;
  }

  /** FDE_WRITE: a flush and, if it completed, the peer's ready. */
  function WritableW(w: World, s: Socket, o: WriteResult): World
    requires s in w.g && Plausible(o, w.g[s].queue) && (w.g[s].closing ==> w.g[s].peer == null)
  {
    var w1, p := FlushW(w, s, o), w.g[s].peer;
    if Flush(AbsOf(w, s), o).1 == Completed && p != null && p in w1.g && w1.g[p].kind == LocalKind
    then Touch(w1, p, w1.g[p].(reading := true)) else w1
  }

  function WritableOut(w: World, s: Socket, o: WriteResult): seq<Packet>
    requires s in w.g && Plausible(o, w.g[s].queue)
  {
    var p := w.g[s].peer;
    if Flush(AbsOf(w, s), o).1 == Completed && p != null && p in w.g && w.g[p].kind == RemoteKind
    then [Packet(OKAY, w.g[s].id, w.g[p].id, [])] else []
  }

  lemma WritableIs(w: World, s: Socket, o: WriteResult)
    requires Good(w) && s in w.g && w.g[s].kind == LocalKind && !w.g[s].dead
    requires w.g[s].writing && Plausible(o, w.g[s].queue)
    ensures w.g[s].closing ==> w.g[s].peer == null
    ensures s in WritableW(w, s, o).g && Elsewhere(w, WritableW(w, s, o), s) && PeerKept(w, WritableW(w, s, o), s)
    ensures !OffStream(w, s) ==>
      (AbsOf(WritableW(w, s, o), s), WritableOut(w, s, o)) == OnWritable(w.g[s].id, AbsOf(w, s), o)
    ensures Flush(AbsOf(w, s), o).1 == Completed ==>
      !w.g[s].closing && w.g[s].peer != null && w.g[s].peer in w.g && w.g[s].peer != s
  {
    hide FlushW, Flush, GoodBut;
    WritableHasPeer(w, s, o);
    FlushIs(w, s, o);
    FlushElsewhere(w, s, o);
    hide AbsOf;
    assert !OffStream(w, s) ==> AbsOf(w, s).peer == PeerOf(w, w.g[s]);
  }

  lemma ReadableElsewhere(w: World, s: Socket, data: Bytes)
    requires s in w.g && (w.g[s].peer != null ==> w.g[s].peer in w.g && w.g[s].peer != s)
    ensures s in SendW(w, s, data).g && SendW(w, s, data).g[s].peer == w.g[s].peer
    ensures w.g.Keys <= SendW(w, s, data).g.Keys
    ensures Elsewhere(w, SendW(w, s, data), s) && Elsewhere(w, CloseW(SendW(w, s, data), s), s)
    ensures PeerKept(w, SendW(w, s, data), s) && PeerKept(w, CloseW(SendW(w, s, data), s), s)
  {
    hide Without, CloseW;
    CloseEnds(SendW(w, s, data), s);
  }

  lemma OwnedFacts(w: World, i: nat)
    requires Good(w) && i in w.owner
    ensures w.owner[i] in w.g && w.g[w.owner[i]].id == i && w.g[w.owner[i]].kind == LocalKind
  {
  }

  lemma CloseEnds(w: World, s: Socket)
    requires s in w.g && (w.g[s].peer != null ==> w.g[s].peer in w.g) && w.g[s].peer != s
    ensures
      var w1 := CloseW(w, s);
      s in w1.g && (w1.g[s].dead || w1.g[s].closing) && w1.g[s].peer == null && Elsewhere(w, w1, s)
  {
    hide Without;
  }

  lemma WrteFlushes(w: World, s: Socket, p: Packet, o: WriteResult)
    requires Good(w) && s in w.list && s in w.g && p.cmd == WRTE
    requires p.arg1 in w.owner && w.owner[p.arg1] == s && p.arg0 != 0
    requires w.g[s].peer != null && w.g[s].peer in w.g && w.g[w.g[s].peer].id == p.arg0
    requires Plausible(o, w.g[s].queue + p.data)
    ensures w.g[w.g[s].peer].kind != SmartKind && w.g[s].id == p.arg1 && !w.g[s].closing
    ensures
      var w1 := Touch(w, s, w.g[s].(queue := w.g[s].queue + p.data));
      var out := if Flush(AbsOf(w1, s), o).1 == TryAgain then [] else [Packet(OKAY, w.g[s].id, p.arg0, [])];
      Handled(w, FlushW(w1, s, o), out, p, o)
  {
    hide FlushW, Flush;
    AboutListed(w, s);
    OwnedFacts(w, p.arg1);
    assert LinkOk(w, s) && LinkOk(w, w.g[s].peer) && FlagsOk(w, s);
    hide GoodBut, Closable;
    var w1 := Touch(w, s, w.g[s].(queue := w.g[s].queue + p.data));
    FlushIs(w1, s, o);
    FlushElsewhere(w1, s, o);
    FlushNotDestroyed(AbsOf(w1, s), o);
  }

  lemma WrteKeepsPeer(w: World, s: Socket, data: Bytes, o: WriteResult)
    requires s in w.g && Plausible(o, w.g[s].queue + data) && !w.g[s].closing
    ensures
      var w1 := Touch(w, s, w.g[s].(queue := w.g[s].queue + data));
      var w2 := FlushW(w1, s, o);
      && w1.g[s] == w.g[s].(queue := w.g[s].queue + data) && w2.g.Keys == w.g.Keys && PeerKept(w, w2, s)
      && PeerOf(w1, w1.g[s]) == PeerOf(w1, w.g[s])
  {
    FlushElsewhere(Touch(w, s, w.g[s].(queue := w.g[s].queue + data)), s, o);
    hide FlushW;
  }

  lemma FlushNotDestroyed(c: Conn, o: WriteResult)
    requires Plausible(o, c.queue) && c.phase == Listed
    ensures Flush(c, o).1 != Destroyed
  {
  }

  lemma WrteMisses(w: World, p: Packet, o: WriteResult)
    requires Good(w) && p.cmd == WRTE && p.arg1 != 0 && p.arg0 != 0
    requires p.arg1 in w.owner && w.owner[p.arg1] in w.list ==>
      var n := w.g[w.owner[p.arg1]]; !(n.peer != null && w.g[n.peer].id == p.arg0)
    ensures Handled(w, w, [], p, o)
  {
    if p.arg1 in w.owner {
      assert LinkOk(w, w.owner[p.arg1]);
    }
  }

  lemma OwnerFacts(w: World, s: Socket)
    requires Good(w) && s in w.g && w.g[s].kind == LocalKind
    ensures w.g[s].id in w.owner && w.owner[w.g[s].id] == s
  {
    assert LinkOk(w, s);
  }

  // ----- making and linking sockets

  /** create_local_socket: a new local socket on the list, with the next id. */
  function Install(w: World, s: Socket): World {
    World(w.g[s := NewNode(LocalKind, w.nextId, None)], w.list + [s], w.closing, w.nextId + 1, w.owner[w.nextId := s])
  }

  lemma InstallShape(w: World, s: Socket)
    requires s !in w.g
    ensures
      var w' := Install(w, s);
      && w'.g.Keys == w.g.Keys + {s} && s in w'.list && w'.g[s] == NewNode(LocalKind, w.nextId, None)
      && w'.nextId == w.nextId + 1 && forall x :: x in w.g ==> w'.g[x] == w.g[x]
  {
  }

  lemma InstallGood(w: World, s: Socket)
    requires Good(w) && s !in w.g && w.nextId > 0
    ensures Good(Install(w, s))
  {
    var w' := Install(w, s);
    forall x | x in w'.g ensures LinkOk(w', x) && FlagsOk(w', x) {
      assert x != s ==> LinkOk(w, x) && FlagsOk(w, x);
    }
  }

  /** A new remote socket for remote id `id` becomes the peer of s. */
  function Pair(w: World, s: Socket, r: Socket, id: nat, t: nat): World
    requires s in w.g
  {
    w.(g := w.g[r := NewNode(RemoteKind, id, Some(t)).(peer := s)][s := w.g[s].(peer := r)])
  }

  lemma PairsRemote(w: World, s: Socket, r: Socket, id: nat, t: nat)
    requires s in w.g && r != s
    ensures
      var w' := Pair(w, s, r, id, t);
      s in w'.g && r in w'.g && w'.g[s].peer == r && w'.g[r].kind == RemoteKind && w'.owner == w.owner
  {
  }

  lemma PairKeepsOne(w: World, s: Socket, r: Socket, id: nat, t: nat, x: Socket)
    requires s in w.g && Listing(w.g[s]) && w.g[s].peer == null && r !in w.g && id != 0 && x in w.g.Keys + {r}
    requires x != r ==> LinkOk(w, x) && FlagsOk(w, x)
    ensures LinkOk(Pair(w, s, r, id, t), x) && FlagsOk(Pair(w, s, r, id, t), x)
  {
  }

  lemma PairGood(w: World, s: Socket, r: Socket, id: nat, t: nat)
    requires Good(w) && s in w.list && s in w.g && w.g[s].peer == null && r !in w.g && id != 0
    ensures Good(Pair(w, s, r, id, t))
  {
    AboutListed(w, s);
    var w' := Pair(w, s, r, id, t);
    hide LinkOk, FlagsOk;
    ShapeKept(w, w');
    forall x | x in w'.g ensures LinkOk(w', x) && FlagsOk(w', x) {
      PairKeepsOne(w, s, r, id, t, x);
    }
  }

  function Buried(n: Node): Node {
    n.(peer := null, dead := true, reading := false, writing := false)
  }

  /** A smart socket lets go of its peer and is deleted; the peer gets a new peer, or none and a transport. */
  function Hand(w: World, ss: Socket, s: Socket, n: Node): World
    requires ss in w.g
  {
    w.(g := w.g[s := n][ss := Buried(w.g[ss])])
  }

  lemma HandKeepsOne(w: World, ss: Socket, s: Socket, t: nat, x: Socket)
    requires ss in w.g && w.g[ss].kind == SmartKind && w.g[ss].peer == s && s in w.g && w.g[s].peer == ss
    requires w.g[s].kind == LocalKind && Blank(w.g[s]) && x in w.g && LinkOk(w, x) && FlagsOk(w, x)
    ensures
      var w' := Hand(w, ss, s, w.g[s].(peer := null, transport := Some(t)));
      LinkOk(w', x) && FlagsOk(w', x)
  {
  }

  lemma HandOffGood(w: World, ss: Socket, t: nat)
    requires Good(w) && ss in w.g && w.g[ss].kind == SmartKind && !w.g[ss].dead
    ensures
      var s := w.g[ss].peer;
      && s != null && s in w.g && s != ss && w.g[s].kind == LocalKind && w.g[s].peer == ss
      && !w.g[s].dead && Blank(w.g[s])
      && Good(Hand(w, ss, s, w.g[s].(peer := null, transport := Some(t))))
  {
    assert LinkOk(w, ss);
    var s: Socket := w.g[ss].peer;
    assert LinkOk(w, s) && FlagsOk(w, s);
    var w' := Hand(w, ss, s, w.g[s].(peer := null, transport := Some(t)));
    hide ListsOk, OwnersOk, LinkOk, FlagsOk;
    ShapeKept(w, w');
    forall x | x in w'.g ensures LinkOk(w', x) && FlagsOk(w', x) {
      HandKeepsOne(w, ss, s, t, x);
    }
  }

  /** The peer of the smart socket is joined to local service socket s2 instead. */
  function Join(w: World, ss: Socket, s: Socket, s2: Socket): World
    requires ss in w.g && s in w.g && s2 in w.g
  {
    w.(g := w.g[s := w.g[s].(peer := s2)][s2 := w.g[s2].(peer := s)][ss := Buried(w.g[ss])])
  }

  lemma JoinKeepsOne(w: World, ss: Socket, s: Socket, s2: Socket, x: Socket)
    requires ss in w.g && w.g[ss].kind == SmartKind && !w.g[ss].dead && w.g[ss].peer == s
    requires s2 in w.list && s2 in w.g && w.g[s2].peer == null
    requires s in w.g && x in w.g && !w.g[s2].dead && !w.g[s2].closing
    requires LinkOk(w, ss) && LinkOk(w, s) && FlagsOk(w, s) && LinkOk(w, s2)
    requires FlagsOk(w, s2) && w.g[s2].kind == LocalKind
    requires LinkOk(w, x) && FlagsOk(w, x)
    ensures LinkOk(Join(w, ss, s, s2), x) && FlagsOk(Join(w, ss, s, s2), x)
  {
  }

  lemma JoinGood(w: World, ss: Socket, s2: Socket)
    requires Good(w) && ss in w.g && w.g[ss].kind == SmartKind && !w.g[ss].dead
    requires s2 in w.list && s2 in w.g && w.g[s2].peer == null
    ensures
      var s := w.g[ss].peer;
      s != null && s in w.g && s != ss && s != s2 && s2 != ss && w.g[s].kind == LocalKind && Good(Join(w, ss, s, s2))
  {
    assert LinkOk(w, ss);
    var s: Socket := w.g[ss].peer;
    AboutListed(w, s2);
    var w' := Join(w, ss, s, s2);
    hide ListsOk, OwnersOk, LinkOk, FlagsOk;
    ShapeKept(w, w');
    forall x | x in w'.g ensures LinkOk(w', x) && FlagsOk(w', x) {
      JoinKeepsOne(w, ss, s, s2, x);
    }
  }

  /** connect_to_smartsocket, before s is made ready. */
  function Attend(w: World, s: Socket, ss: Socket): World
    requires s in w.g
  {
    w.(g := w.g[ss := NewNode(SmartKind, 0, None).(peer := s)][s := w.g[s].(peer := ss)])
  }

  lemma AttendKeepsOne(w: World, s: Socket, ss: Socket, x: Socket)
    requires s in w.g && Listing(w.g[s]) && w.g[s].peer == null && ss !in w.g && x in w.g.Keys + {ss}
    requires x != ss ==> LinkOk(w, x) && FlagsOk(w, x)
    ensures LinkOk(Attend(w, s, ss), x) && FlagsOk(Attend(w, s, ss), x)
  {
  }

  lemma AttendGood(w: World, s: Socket, ss: Socket)
    requires Good(w) && s in w.list && s in w.g && w.g[s].peer == null && ss !in w.g
    ensures Good(Attend(w, s, ss))
  {
    AboutListed(w, s);
    var w' := Attend(w, s, ss);
    hide LinkOk, FlagsOk;
    ShapeKept(w, w');
    forall x | x in w'.g ensures LinkOk(w', x) && FlagsOk(w', x) {
      AttendKeepsOne(w, s, ss, x);
    }
  }

  lemma JoinShape(w: World, ss: Socket, s: Socket, s2: Socket)
    requires ss in w.g && s in w.g && s != ss && s2 !in w.g
    ensures
      var w' := Join(Install(w, s2), ss, s, s2);
      && w'.g.Keys == w.g.Keys + {s2} && w'.list == w.list + [s2] && w'.g[s2].peer == s && w'.g[s].peer == s2
      && w'.nextId > w.nextId
  {
  }

  lemma SmartFacts(w: World, ss: Socket)
    requires Good(w) && ss in w.g && w.g[ss].kind == SmartKind && !w.g[ss].dead
    ensures
      var s := w.g[ss].peer;
      && s != null && s in w.g && s != ss && w.g[s].peer == ss && w.g[s].kind == LocalKind
      && s in w.list && Closable(w, ss)
  {
    assert LinkOk(w, ss) && LinkOk(w, w.g[ss].peer);
  }

  lemma LinkFacts(w: World, s: Socket)
    requires Good(w) && s in w.g && w.g[s].peer != null
    ensures w.g[s].peer in w.g
  {
    assert LinkOk(w, s);
  }

  lemma NearbyFacts(w: World, p: Socket)
    requires Good(w) && p in w.g && !w.g[p].dead && w.g[p].peer != null && w.g[p].peer in w.g
    ensures w.g[p].kind == LocalKind ==> p in w.list && !w.g[p].closing && w.g[p].peer != p
    ensures w.g[w.g[p].peer].kind == LocalKind ==> w.g[p].peer in w.list
  {
    assert LinkOk(w, p) && LinkOk(w, w.g[p].peer);
  }

  lemma PeerFacts(w: World, s: Socket)
    requires Good(w) && s in w.list && s in w.g && w.g[s].peer != null && w.g[s].peer in w.g
    ensures
      var p := w.g[s].peer;
      !w.g[p].dead && w.g[p].peer == s && !w.g[s].dead && w.g[s].kind == LocalKind
  {
    assert LinkOk(w, w.g[s].peer) && LinkOk(w, s);
  }

  /** Every byte handed to a local socket is in its queue or at its fd. */
  lemma EnqueueMoves(w: World, p: Socket, data: Bytes, o: WriteResult)
    requires p in w.g && !w.g[p].closing && w.g[p].peer != p
    requires Plausible(o, w.g[p].queue + data) && w.g[p].kind == LocalKind && !w.g[p].dead
    ensures
      var w1 := Touch(w, p, w.g[p].(queue := w.g[p].queue + data));
      var w2 := FlushW(w1, p, o);
      && p in w2.g && w2.g.Keys == w.g.Keys && w2.list == w.list
      && w2.g[p].wrote + w2.g[p].queue == w.g[p].wrote + w.g[p].queue + data
  {
    hide Without, Park;
    var n := w.g[p].(queue := w.g[p].queue + data);
    Assoc(w.g[p].wrote, w.g[p].queue, data);
    if o.Wrote? && n.queue != [] {
      Assoc(n.wrote, n.queue[..o.n], n.queue[o.n..]);
      assert n.queue[..o.n] + n.queue[o.n..] == n.queue;
    }
  }

  // ----- the streams of the endpoint as module Asocket sees them

  /** Id i is on a stream, unpaired or paired with a remote socket, in state c. */
  predicate ShowsAt(w: World, i: nat, c: Conn) {
    i in w.owner && w.owner[i] in w.g && !OffStream(w, w.owner[i]) && AbsOf(w, w.owner[i]) == c
  }

  /** A local socket paired with a remote one is among the streams of e. */
  predicate CoveredAt(w: World, e: Endpoint, x: Socket)
    requires x in w.g
  {
    var n := w.g[x];
    n.kind == LocalKind && n.peer != null && n.peer in w.g && w.g[n.peer].kind == RemoteKind ==> n.id in e
  }

  ghost predicate Covers(w: World, e: Endpoint) {
    forall x :: x in w.g ==> CoveredAt(w, e, x)
  }

  /**
   The ids of e are on streams, in the states e says, and all paired with remote sockets are among them. Other
   sockets may be joined to local or smart ones.
   */
  ghost predicate Shows(w: World, e: Endpoint) {
    (forall i :: i in e ==> ShowsAt(w, i, e[i])) && Covers(w, e)
  }

  lemma UntouchedAt(w: World, w': World, i: nat, c: Conn)
    requires ShowsAt(w, i, c) && i in w'.owner && w'.owner[i] == w.owner[i]
    requires
      var x := w.owner[i];
      && x in w'.g && w'.g[x] == w.g[x]
      && (w.g[x].peer != null ==> w.g[x].peer in w.g && w.g[x].peer in w'.g && w'.g[w.g[x].peer] == w.g[w.g[x].peer])
    ensures ShowsAt(w', i, c)
  {
  }

  /** The remote peer of another socket of a stream is another remote socket. */
  lemma OthersShow(w: World, w': World, i: nat, k: nat, c: Conn, d: Conn)
    requires Good(w) && ShowsAt(w, i, c) && ShowsAt(w, k, d) && k != i && Elsewhere(w, w', w.owner[i])
    ensures ShowsAt(w', k, d)
  {
    var s, x := w.owner[i], w.owner[k];
    OwnedFacts(w, i);
    OwnedFacts(w, k);
    assert LinkOk(w, s) && LinkOk(w, x);
    hide GoodBut;
    UntouchedAt(w, w', k, d);
  }

  lemma ElsewhereCovers(w: World, w': World, e: Endpoint, i: nat, c: Conn)
    requires Good(w) && Good(w') && Covers(w, e) && i in e && i in w.owner && w.owner[i] in w.g
    requires Elsewhere(w, w', w.owner[i]) && !OffStream(w, w.owner[i])
    requires forall x :: x in w.g ==> x in w'.g && w'.g[x].kind == w.g[x].kind
    ensures Covers(w', e[i := c])
  {
    var s := w.owner[i];
    OwnedFacts(w, i);
    assert LinkOk(w, s);
    forall x | x in w'.g && w'.g[x].kind == LocalKind ensures CoveredAt(w', e[i := c], x) {
      OwnerFacts(w', x);
      OwnedFacts(w, w'.g[x].id);
      assert CoveredAt(w, e, x) && LinkOk(w, x);
    }
  }

  /** Only id i of the endpoint changed. */
  lemma ElsewhereShows(w: World, w': World, e: Endpoint, i: nat)
    requires Good(w) && Good(w') && Shows(w, e) && i in e && i in w.owner && w.owner[i] in w.g
    requires Elsewhere(w, w', w.owner[i]) && PeerKept(w, w', w.owner[i])
    requires forall x :: x in w.g ==> x in w'.g && w'.g[x].kind == w.g[x].kind
    ensures Shows(w', e[i := AbsOf(w', w.owner[i])])
  {
    assert ShowsAt(w, i, e[i]);
    SelfShows(w, w', i);
    hide GoodBut, AbsOf, ShowsAt, Covers;
    ElsewhereCovers(w, w', e, i, AbsOf(w', w.owner[i]));
    forall k | k in e && k != i ensures ShowsAt(w', k, e[k]) {
      assert ShowsAt(w, k, e[k]);
      OthersShow(w, w', i, k, e[i], e[k]);
    }
  }

  lemma SelfShows(w: World, w': World, i: nat)
    requires i in w.owner && w.owner[i] in w.g && !OffStream(w, w.owner[i])
    requires w'.owner == w.owner && PeerKept(w, w', w.owner[i])
    requires forall x :: x in w.g ==> x in w'.g && w'.g[x].kind == w.g[x].kind
    requires w.g[w.owner[i]].peer != null ==> w.g[w.owner[i]].peer in w.g
    ensures w.owner[i] in w'.g && ShowsAt(w', i, AbsOf(w', w.owner[i]))
  {
  }

  /** A change of sockets that are on no stream, none of which comes to be paired with a remote one unless in e'. */
  lemma OffShows(w: World, w': World, e: Endpoint, e': Endpoint, changed: set<Socket>)
    requires Good(w) && Shows(w, e) && (forall i :: i in e ==> i in e' && e'[i] == e[i])
    requires forall i :: i in w.owner ==> i in w'.owner && w'.owner[i] == w.owner[i]
    requires forall x :: x in w.g && x !in changed ==> x in w'.g && w'.g[x] == w.g[x]
    requires forall x :: x in changed && x in w.g ==>
      w.g[x].kind != RemoteKind && (w.g[x].kind == LocalKind ==> w.g[x].id !in e)
      && (x in w'.g ==> w'.g[x].kind == w.g[x].kind)
    requires forall x :: x in w'.g && (x !in w.g || x in changed) ==> CoveredAt(w', e', x)
    requires forall i :: i in e' && i !in e ==> ShowsAt(w', i, e'[i])
    ensures Shows(w', e')
  {
    forall i | i in e ensures ShowsAt(w', i, e[i]) {
      assert ShowsAt(w, i, e[i]);
      OwnedFacts(w, i);
      assert LinkOk(w, w.owner[i]);
      hide GoodBut;
      UntouchedAt(w, w', i, e[i]);
    }
    forall x | x in w'.g ensures CoveredAt(w', e', x) {
      if x in w.g && x !in changed {
        assert CoveredAt(w, e, x) && LinkOk(w, x);
        UnchangedCovered(w, w', e, e', x, changed);
      }
    }
  }

  lemma UnchangedCovered(w: World, w': World, e: Endpoint, e': Endpoint, x: Socket, changed: set<Socket>)
    requires x in w.g && LinkOk(w, x) && CoveredAt(w, e, x) && (forall i :: i in e ==> i in e')
    requires forall y :: y in w.g && y !in changed ==> y in w'.g && w'.g[y] == w.g[y]
    requires forall y :: y in changed && y in w.g ==> w.g[y].kind != RemoteKind
    requires x !in changed && x in w'.g
    requires w.g[x].peer != null && w.g[x].peer in changed && w.g[x].peer in w'.g ==>
      w'.g[w.g[x].peer].kind != RemoteKind
    ensures CoveredAt(w', e', x)
  {
  }

  /** Only a WRTE makes anything of what the fd does. */
  lemma HandledAny(w: World, w': World, out: seq<Packet>, p: Packet, o: WriteResult)
    requires p.cmd in {OKAY, CLSE} && Handled(w, w', out, p, Again)
    ensures Handled(w, w', out, p, o)
  {
  }

  /** Socket s has lost its peer, kept it, or got a remote one. */
  predicate PeerKept(w: World, w': World, s: Socket) {
    && s in w.g && s in w'.g
    && var p := w'.g[s].peer;
       p == null || p == w.g[s].peer || (p in w'.g && w'.g[p].kind == RemoteKind)
  }

  predicate OwnerPeerKept(w: World, w': World, i: nat) {
    i in w.owner ==> PeerKept(w, w', w.owner[i])
  }

  lemma UnchangedPeers(w: World, i: nat)
    requires Good(w)
    ensures OwnerPeerKept(w, w, i)
  {
    if i in w.owner {
      OwnedFacts(w, i);
    }
  }

  lemma HandledKeys(w: World, w': World, out: seq<Packet>, p: Packet, o: WriteResult)
    requires Handled(w, w', out, p, o)
    ensures w.g.Keys <= w'.g.Keys
  {
    hide OnPacket;
  }

  /** The packet is for a socket of a stream, or for none; a WRTE to a socket of a stream can be written so. */
  predicate ForStream(w: World, e: Endpoint, p: Packet, o: WriteResult) {
    && (p.arg1 in w.owner && p.cmd != OPEN ==> p.arg1 in e)
    && (p.cmd == WRTE && p.arg1 in e ==> Plausible(o, e[p.arg1].queue + p.data))
  }

  lemma HandledRefines(w: World, w': World, out: seq<Packet>, e: Endpoint, p: Packet, svc: Option<nat>, o: WriteResult)
    requires Good(w) && Good(w') && Shows(w, e) && p.cmd != OPEN && p.arg1 != 0 && ForStream(w, e, p, o)
    requires Handled(w, w', out, p, o) && OwnerPeerKept(w, w', p.arg1)
    requires forall x :: x in w.g ==> x in w'.g && w'.g[x].kind == w.g[x].kind
    ensures Shows(w', HandlePacket(e, p, svc, o).0) && out == HandlePacket(e, p, svc, o).1
  {
    hide GoodBut, OnPacket;
    ShownOwned(w, e);
    if p.arg1 in w.owner {
      OwnedFacts(w, p.arg1);
      assert ShowsAt(w, p.arg1, e[p.arg1]);
      ElsewhereShows(w, w', e, p.arg1);
    }
  }

  /** A local socket of a stream, under its own id. */
  lemma OnItsStream(w: World, e: Endpoint, s: Socket)
    requires Good(w) && Shows(w, e) && s in w.g && w.g[s].kind == LocalKind && w.g[s].id in e
    ensures w.g[s].id in w.owner && w.owner[w.g[s].id] == s && e[w.g[s].id] == AbsOf(w, s) && !OffStream(w, s)
    ensures w.g[s].peer != null ==> w.g[s].peer in w.g && w.g[w.g[s].peer].kind == RemoteKind
  {
    OwnerFacts(w, s);
    assert LinkOk(w, s) && ShowsAt(w, w.g[s].id, e[w.g[s].id]);
  }

  /** The packets handle_packet drops at its first check. */
  predicate Ignored(p: Packet) {
    match p.cmd
    case OPEN => p.arg0 == 0 || p.arg1 != 0
    case CLSE => p.arg1 == 0
    case OKAY => p.arg0 == 0 || p.arg1 == 0
    case WRTE => p.arg0 == 0 || p.arg1 == 0
  }

  lemma IgnoredRefines(e: Endpoint, p: Packet, svc: Option<nat>, o: WriteResult)
    requires Ignored(p) && (p.cmd == WRTE && p.arg1 in e ==> Plausible(o, e[p.arg1].queue + p.data))
    ensures HandlePacket(e, p, svc, o) == (e, [])
  {
    if p.arg1 in e {
      assert e[p.arg1 := e[p.arg1]] == e;
    }
  }

  /** The socket an OPEN is given: new, paired with the opener and reading. */
  function Opened(w: World, s: Socket, r: Socket, id: nat, t: nat): World {
    var w1 := Pair(Install(w, s), s, r, id, t);
    Touch(w1, s, w1.g[s].(reading := true))
  }

  lemma OpenedShape(w: World, s: Socket, r: Socket, id: nat, t: nat)
    requires s !in w.g && r !in w.g && r != s
    ensures
      var w' := Opened(w, s, r, id, t);
      && w'.owner == w.owner[w.nextId := s] && ShowsAt(w', w.nextId, FRESH.(peer := Remote(id), reading := true))
      && w'.g.Keys == w.g.Keys + {s, r} && w'.g[s].id == w.nextId && w'.g[r].kind == RemoteKind
      && forall x :: x in w.g ==> w'.g[x] == w.g[x]
  {
  }

  lemma OpenedShows(w: World, w': World, e: Endpoint, c: Conn, s: Socket, r: Socket)
    requires Good(w) && Shows(w, e) && s !in w.g && r !in w.g && w.nextId !in w.owner && w.nextId !in e
    requires w'.owner == w.owner[w.nextId := s] && ShowsAt(w', w.nextId, c)
    requires w'.g.Keys == w.g.Keys + {s, r} && w'.g[s].id == w.nextId && w'.g[r].kind == RemoteKind
    requires forall x :: x in w.g ==> w'.g[x] == w.g[x]
    ensures Shows(w', e[w.nextId := c])
  {
    hide GoodBut, ShowsAt, Shows;
    OffShows(w, w', e, e[w.nextId := c], {});
  }

  lemma OpenedRefines(w: World, s: Socket, r: Socket, e: Endpoint, p: Packet, t: nat, o: WriteResult)
    requires Good(w) && Shows(w, e) && s !in w.g && r !in w.g && r != s
    requires p.cmd == OPEN && p.arg0 != 0 && p.arg1 == 0
    ensures
      var (e', out) := HandlePacket(e, p, Some(w.nextId), o);
      Shows(Opened(w, s, r, p.arg0, t), e') && out == [Packet(OKAY, w.nextId, p.arg0, [])]
  {
    OpenedShape(w, s, r, p.arg0, t);
    NextIdUnused(w);
    var c := FRESH.(peer := Remote(p.arg0), reading := true);
    assert HandlePacket(e, p, Some(w.nextId), o).0 == e[w.nextId := c];
    ShownOwned(w, e);
    hide GoodBut, Opened, ShowsAt, Shows, HandlePacket;
    OpenedShows(w, Opened(w, s, r, p.arg0, t), e, c, s, r);
  }

  lemma NextIdUnused(w: World)
    requires Good(w)
    ensures w.nextId !in w.owner
  {
    forall i | i in w.owner ensures i < w.nextId {
      OwnedFacts(w, i);
      assert LinkOk(w, w.owner[i]);
    }
  }

  /** Ids that show are ids of sockets. */
  lemma ShownOwned(w: World, e: Endpoint)
    requires Shows(w, e)
    ensures forall i :: i in e ==> i in w.owner
  {
    forall i | i in e ensures i in w.owner {
      assert ShowsAt(w, i, e[i]);
    }
  }

  /** A new socket on its way to a service of transport t. */
  function Opener(w: World, s: Socket, t: nat): World {
    var w1 := Install(w, s);
    w1.(g := w1.g[s := w1.g[s].(peer := null, transport := Some(t))])
  }

  lemma OpenerGood(w: World, s: Socket, t: nat)
    requires Good(w) && s !in w.g && w.nextId > 0
    ensures Good(Opener(w, s, t))
  {
    hide GoodBut;
    var w1 := Install(w, s);
    InstallGood(w, s);
    AboutListed(w1, s);
    TouchGood(w1, s, w1.g[s].(peer := null, transport := Some(t)));
  }

  lemma OpenerShape(w: World, s: Socket, t: nat)
    requires s !in w.g
    ensures
      var w' := Opener(w, s, t);
      && w'.owner == w.owner[w.nextId := s] && ShowsAt(w', w.nextId, FRESH)
      && w'.g.Keys == w.g.Keys + {s} && w'.g[s].id == w.nextId && forall x :: x in w.g ==> w'.g[x] == w.g[x]
  {
  }

  lemma OpenerShows(w: World, e: Endpoint, s: Socket, t: nat)
    requires Good(w) && Shows(w, e) && s !in w.g
    ensures w.nextId !in e && Shows(Opener(w, s, t), e[w.nextId := FRESH])
  {
    OpenerShape(w, s, t);
    NextIdUnused(w);
    ShownOwned(w, e);
    hide GoodBut, Opener, ShowsAt, Shows;
    OffShows(w, Opener(w, s, t), e, e[w.nextId := FRESH], {});
  }
}
