/**
 A client of the host, from its first bytes on: readable events of its socket, each of which hands one chunk to its
 smart socket.
 */
module Clients {
  import opened Seqs
  import opened Wire
  import opened Asocket
  import opened SmartRequest
  import opened SocketGraph
  import opened JoinedFlow
  import opened SocketTable

  /** s is a listed client of the table, and its peer a smart socket. */
  ghost predicate Client(x: Table, s: Socket)
    reads x`g, x`list, x`closingList, x`nextId, x`owner, x.g.Keys, s
  {
    x.Valid() && s in x.list && s in x.g && s.peer != null && s.peer in x.g && s.peer.kind == SmartKind
  }

  predicate AllData(chunks: seq<Bytes>) {
    forall k :: 0 <= k < |chunks| ==> chunks[k] != []
  }

  /** One readable event; if it comes with end of file, then on a request whose transport id does not parse. */
  method Step(x: Table, s: Socket, chunk: Bytes, eof: bool, act: Dispatch) returns (kept: bool)
    requires Client(x, s) && chunk != [] && (act.HostService? ==> 0 < x.nextId < 0xFFFF_FFFF)
    requires eof ==> Unparsed(s.peer.smartData + chunk)
    modifies x, x.g.Keys
    ensures x.Valid() && x.Grown()
    ensures
      var d := old(s.peer.smartData) + chunk;
      && SmartHands(old(x.State()), x.State(), s, d, act) && BufferAfter(old(s.peer).smartData, d, act)
      && (kept <==> !Unparsed(d) && !Refuses(d, act)) && (s in x.list <==> !Refuses(d, act))
    ensures !Decode(old(s.peer.smartData) + chunk).Whole? && !Refuses(old(s.peer.smartData) + chunk, act) ==>
      x.State() == old(x.State()) && s.peer == old(s.peer)
  {
    hide GoodBut, Decode, BufferAfter, NodeOf, Flows, LeavesIdle, Dispatched, OpeningW;
    x.Synced(s);
    x.Synced(s.peer);
    ghost var mid;
    kept, mid := x.FlushNearby(s, chunk, eof, act, Again);
    x.Synced(s);
  }

  /**
   A request that arrives in chunks, up to the event that completes it. What happens depends on the bytes alone,
   however they are split.
   */
  method Feed(x: Table, s: Socket, chunks: seq<Bytes>, act: Dispatch) returns (kept: bool)
    requires Client(x, s) && Decode(s.peer.smartData).More? && AllData(chunks)
    requires act.HostService? ==> 0 < x.nextId < 0xFFFF_FFFF
    modifies x, x.g.Keys
    ensures x.Valid() && x.Grown()
    ensures
      var d := old(s.peer.smartData) + Flat(chunks);
      && SmartHands(old(x.State()), x.State(), s, d, act)
      && (kept <==> !Unparsed(d) && !Refuses(d, act)) && (s in x.list <==> !Refuses(d, act))
      && (Decode(d).More? ==> Client(x, s) && s.peer == old(s.peer) && s.peer.smartData == d)
      && (Unparsed(d) ==> Client(x, s) && s.peer == old(s.peer) && Unparsed(s.peer.smartData))
  {
    hide GoodBut, Decode, NodeOf, Dispatched, OpeningW, SmartHands;
    ghost var p, all := s.peer, s.peer.smartData + Flat(chunks);
    assert s.peer.smartData + Flat(chunks[0..]) == all by { assert chunks[0..] == chunks; }
    for i := 0 to |chunks|
      invariant Client(x, s) && s.peer == p && Decode(p.smartData).More? && p.smartData + Flat(chunks[i..]) == all
      invariant x.State() == old(x.State())
    {
      var d := s.peer.smartData + chunks[i];
      ghost var rest := Flat(chunks[i + 1..]);
      assert chunks[i..][1..] == chunks[i + 1..];
      Assoc(p.smartData, chunks[i], rest);
      kept := Step(x, s, chunks[i], false, act);
      if !Decode(d).More? {
        DecodeStable(d, rest);
        SameRequest(old(x.State()), x.State(), s, d, all, act);
        if Unparsed(d) {
          StillUnparsed(d);
        }
        return;
      }
    }
    assert p.smartData + [] == all by { assert Flat(chunks[|chunks|..]) == []; }
    assert p.smartData == all;
    x.Synced(s);
    PeerFacts(x.State(), s);
    Waits(x.State(), s, all, act);
    kept := true;
  }

  /**
   A client whose transport id did not parse: every later event that brings bytes returns false and leaves it listed
   and unserved, even at end of file.
   */
  method Ignore(x: Table, s: Socket, chunks: seq<Bytes>, eof: bool, act: Dispatch) returns (kept: seq<bool>)
    requires Client(x, s) && Unparsed(s.peer.smartData) && AllData(chunks)
    requires act.HostService? ==> 0 < x.nextId < 0xFFFF_FFFF
    modifies x, x.g.Keys
    ensures Client(x, s) && s.peer == old(s.peer) && Unparsed(s.peer.smartData) && x.State() == old(x.State())
    ensures |kept| == |chunks| && forall k :: 0 <= k < |kept| ==> !kept[k]
  {
    hide GoodBut, Decode, NodeOf, Dispatched, OpeningW, SmartHands;
    kept := [];
    ghost var p := s.peer;
    for i := 0 to |chunks|
      invariant Client(x, s) && s.peer == p && Unparsed(p.smartData) && x.State() == old(x.State())
      invariant |kept| == i && forall k :: 0 <= k < |kept| ==> !kept[k]
    {
      DecodeStable(p.smartData, chunks[i]);
      StillUnparsed(p.smartData + chunks[i]);
      var one := Step(x, s, chunks[i], eof, act);
      kept := kept + [one];
    }
  }

  lemma StillUnparsed(d: Bytes)
    requires Unparsed(d)
    ensures |d| >= 4 && Unparsed(Terminated(d))
  {
    hide Decode, Terminated;
    BadIdIsLong(d);
    BadIdForEver(d, []);
    assert Terminated(d) + [] == Terminated(d);
  }

  lemma Waits(w: World, s: Socket, d: Bytes, act: Dispatch)
    requires Decode(d).More? && s in w.g && w.g[s].peer != null && w.g[s].peer in w.g
    requires w.g[w.g[s].peer].peer == s
    ensures SmartHands(w, w, s, d, act)
  {
    hide Decode;
  }

  /** A new table with one client that has sent nothing yet. */
  method NewClient() returns (x: Table, s: Socket)
    ensures fresh(x) && fresh(x.g.Keys) && Client(x, s) && Flows(x.State()) && x.nextId == 2
    ensures x.g[s].peer == s.peer && x.g[s.peer].kind == SmartKind && x.g[s.peer].peer == s && s.peer.smartData == []
  {
    hide GoodBut, NodeOf, Flows;
    x := new Table();
    ghost var w := x.State();
    NoFlows(w);
    s := x.CreateLocal();
    InstallFlows(w, s);
    InstallShape(w, s);
    x.Synced(s);
    var ss := x.ConnectToSmart(s);
    x.Synced(ss);
  }

  /** A client served by the host itself, as a joined pair. */
  method JoinedClient() returns (x: Table, s: Socket)
    ensures fresh(x) && fresh(x.g.Keys) && x.Valid() && Flows(x.State()) && s in x.list && s in x.g
    ensures
      var p := x.g[s].peer;
      && p != null && p in x.g && p != s && x.g[p].kind == LocalKind && x.g[p].queue == [] && x.g[p].wrote == []
      && !x.g[p].closing && !x.g[p].dead
  {
    hide GoodBut, Decode, NodeOf, Flows, LeavesIdle, Framed, HandsOver;
    x, s := NewClient();
    ghost var w := x.State();
    TrackRequest();
    IdleOnlyLocal(w, s, Framed(TRACK), Again);
    assert [] + Framed(TRACK) == Framed(TRACK);
    var kept, mid := x.FlushNearby(s, Framed(TRACK), false, HostService, Again);
    HostServes(w, x.State(), s, Framed(TRACK), Framed(TRACK), Again);
  }

  const TRACK := Ascii("host:track-devices")

  lemma TrackRequest()
    ensures |Framed(TRACK)| > 0 && Decode(Framed(TRACK)) == Whole(TRACK)
  {
    assert TRACK[4] == 58 && BY_ID[4] == 45;
    assert 0 !in TRACK;
    hide Decode;
    DecodeFramed(TRACK);
  }

  lemma HostServes(w: World, w': World, s: Socket, data: Bytes, d: Bytes, o: WriteResult)
    requires HandsOver(w, w', s, data, d, HostService, o) && w.g[w.g[s].peer].kind == SmartKind && Decode(d).Whole?
    requires w.g[w.g[s].peer].peer == s
    ensures
      var p := w'.g[s].peer;
      && p != null && p in w'.g && p !in w.g && p != s
      && w'.g[p] == NewNode(LocalKind, w.nextId, None).(peer := s, reading := true)
      && w'.g[s] == w.g[s].(peer := p)
  {
    hide Decode;
  }

  /**
   Then the service stops taking bytes, so the client waits for it. A hangup of the client makes its handler read a
   full buffer all the same, the service takes everything, and neither fd is subscribed for the client's bytes.
   */
  method IdlePair(data: Bytes) returns (x: Table, s: Socket)
    requires |data| == MAX_PAYLOAD
    ensures fresh(x) && x.Valid() && s in x.list && s in x.g && !Flows(x.State())
    ensures
      var p := x.g[s].peer;
      && p != null && p in x.g && x.g[p].kind == LocalKind
      && !s.dead && !s.reading && !p.dead && !p.writing && p.queue == [] && x.g[p].wrote == [7] + data
  {
    hide GoodBut, NodeOf, Flows, HandoverW, Decode, LeavesIdle;
    x, s := JoinedClient();
    x.Synced(s);
    x.Synced(s.peer);
    ghost var w, p := x.State(), s.peer;
    Blocks(w, s);
    var kept, mid := x.FlushNearby(s, [7], false, Refused, Again);
    x.Synced(s);
    x.Synced(p);
    ghost var w1 := x.State();
    Drains(w1, s, data);
    kept, mid := x.FlushNearby(s, data, false, Refused, Wrote(MAX_PAYLOAD + 1));
    x.Synced(s);
    x.Synced(p);
    PeerFacts(x.State(), s);
  }

  lemma Blocks(w: World, s: Socket)
    requires s in w.g && w.g[s].peer != null && w.g[s].peer in w.g && w.g[s].peer != s
    requires var n := w.g[w.g[s].peer]; n.kind == LocalKind && n.queue == [] && !n.closing
    ensures !LeavesIdle(w, s, [7], Again)
    ensures
      var (p, w') := (w.g[s].peer, HandoverW(w, s, [7], Again));
      && s in w'.g && p in w'.g && w'.g[s] == w.g[s].(reading := false)
      && w'.g[p] == w.g[p].(queue := [7], writing := true)
  {
    var n := w.g[w.g[s].peer].(queue := [7]);
    assert w.g[w.g[s].peer].queue + [7] == [7];
    assert Written(n, Again) == n.(writing := true);
  }

  lemma Drains(w: World, s: Socket, data: Bytes)
    requires |data| == MAX_PAYLOAD && s in w.g && w.g[s].peer != null && w.g[s].peer in w.g && w.g[s].peer != s
    requires var n := w.g[w.g[s].peer]; n.kind == LocalKind && n.queue == [7] && n.wrote == [] && !n.closing
    requires !w.g[s].reading
    ensures Plausible(Wrote(MAX_PAYLOAD + 1), [7] + data) && LeavesIdle(w, s, data, Wrote(MAX_PAYLOAD + 1))
    ensures
      var (p, w') := (w.g[s].peer, HandoverW(w, s, data, Wrote(MAX_PAYLOAD + 1)));
      && s in w'.g && p in w'.g && w'.g[s] == w.g[s]
      && w'.g[p] == w.g[p].(queue := [], wrote := [7] + data, writing := false)
  {
    var n := w.g[w.g[s].peer].(queue := [7] + data);
    assert n.queue[..MAX_PAYLOAD + 1] == n.queue && n.queue[MAX_PAYLOAD + 1..] == [];
    assert [] + ([7] + data) == [7] + data;
    assert Written(n, Wrote(MAX_PAYLOAD + 1)) == n.(queue := [], wrote := [7] + data, writing := false);
  }

  lemma NoFlows(w: World)
    requires w.g == map[]
    ensures Flows(w)
  {
  }
}
