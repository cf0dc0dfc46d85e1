/**
 One local asocket as a value, and what each handler of src/sockets.cpp and
 handle_packet of src/adb.cpp does to it. An endpoint remembers every id it ever
 installed, so that bytes and packets of destroyed sockets can still be spoken of.
 */
module Asocket {
  import opened Seqs
  import opened Wire

  datatype Peer = NoPeer | Remote(id: nat)

  /** On local_socket_list, on local_socket_closing_list, or destroyed. */
  datatype Phase = Listed | Closing | Gone

  /**
   `reading` and `writing` are the FDE_READ and FDE_WRITE subscriptions, `broken` is
   has_write_error. The last four fields are history: the bytes handed to peer->enqueue,
   the bytes the fd accepted, whether data was ever read without FDE_READ subscribed
   (a hangup fakes a read), and whether a CLSE from the peer closed the socket.
   */
  datatype Conn = Conn(phase: Phase, peer: Peer, queue: Bytes, reading: bool, writing: bool, broken: bool,
                       sent: Bytes, wrote: Bytes, forced: bool, finned: bool)

  type Endpoint = map<nat, Conn>

  /** adb_writev: took the first n bytes, would block, or failed. */
  datatype WriteResult = Wrote(n: nat) | Again | Failed

  datatype FlushResult = Destroyed | TryAgain | Completed

  /** A writev never takes more than it was offered. */
  predicate Plausible(o: WriteResult, queue: Bytes) {
    o.Wrote? && queue != [] ==> 0 < o.n <= |queue|
  }

  const FRESH := Conn(Listed, NoPeer, [], false, false, false, [], [], false, false)

  function Destroy(c: Conn): Conn {
    c.(phase := Gone, peer := NoPeer, reading := false, writing := false)
  }

  /** local_socket_close, apart from the packet its peer's shutdown sends. */
  function Close(c: Conn): Conn {
    if c.phase == Closing || c.broken || c.queue == [] then Destroy(c)
    else c.(phase := Closing, peer := NoPeer, reading := false)
  }

  /** remote_socket_shutdown of the peer, if there is one. */
  function CloseOut(i: nat, c: Conn): seq<Packet> {
    match c.peer
    case NoPeer => []
    case Remote(r) => [Packet(CLSE, i, r, [])]
  }

  /** local_socket_flush_incoming. */
  function Flush(c: Conn, o: WriteResult): (Conn, FlushResult)
    requires Plausible(o, c.queue)
  {
    if c.queue != [] && o.Wrote? && o.n < |c.queue| then
      (c.(wrote := c.wrote + c.queue[..o.n], queue := c.queue[o.n..], writing := true), TryAgain)
    else if c.queue != [] && o.Again? then
      (c.(writing := true), TryAgain)
    else
      var d := if c.queue == [] then c
               else if o.Wrote? then c.(wrote := c.wrote + c.queue, queue := [])
               else c.(broken := true);
      if d.phase == Closing then (Close(d), Destroyed) else (d.(writing := false), Completed)
  }

  /** local_socket_event_func on FDE_WRITE: a completed flush calls peer->ready, which sends an OKAY. */
  function OnWritable(i: nat, c: Conn, o: WriteResult): (Conn, seq<Packet>)
    requires Plausible(o, c.queue)
  {
    var (d, res) := Flush(c, o);
    (d, if res == Completed && c.peer.Remote? then [Packet(OKAY, i, c.peer.id, [])] else [])
  }

  /** local_socket_flush_outgoing after its read loop got `data`, then perhaps end of file or an error. */
  function OnReadable(i: nat, c: Conn, data: Bytes, eof: bool): (Conn, seq<Packet>) {
    var (d, out) :=
      if data != [] && c.peer.Remote? then
        (c.(sent := c.sent + data, reading := false, forced := c.forced || !c.reading),
         [Packet(WRTE, i, c.peer.id, data)])
      else (c, []);
    if eof then (Close(d), out + CloseOut(i, d)) else (d, out)
  }

  /** find_local_socket, for an id that has been installed: still listed, and paired with `r` unless r is 0. */
  predicate Finds(c: Conn, r: nat) {
    c.phase == Listed && (r == 0 || c.peer == Remote(r))
  }

  /** handle_packet of an OKAY, CLSE or WRTE addressed to installed id `i`; `o` is what the fd makes of a WRTE. */
  function OnPacket(i: nat, c: Conn, p: Packet, o: WriteResult): (Conn, seq<Packet>)
    requires p.cmd == WRTE ==> Plausible(o, c.queue + p.data)
  {
    match p.cmd
    case OPEN => (c, [])
    case OKAY =>
      if p.arg0 == 0 then (c, [])
      else if !Finds(c, 0) then (c, [Packet(CLSE, i, p.arg0, [])])
      else if c.peer in {NoPeer, Remote(p.arg0)} then (c.(peer := Remote(p.arg0), reading := true), [])
      else (c, [])
    case CLSE =>
      if Finds(c, p.arg0) then (Close(c).(finned := c.peer.Remote?), CloseOut(i, c)) else (c, [])
    case WRTE =>
      if p.arg0 == 0 || !Finds(c, p.arg0) then (c, [])
      else
        var (d, res) := Flush(c.(queue := c.queue + p.data), o);
        (d, if res == Completed then [Packet(OKAY, i, p.arg0, [])] else [])
  }

  /**
   handle_packet on an online transport. `svc` is the id a service socket got for an OPEN, None when
   there is no such service.
   */
  function HandlePacket(e: Endpoint, p: Packet, svc: Option<nat>, o: WriteResult): (Endpoint, seq<Packet>)
    requires p.cmd == WRTE && p.arg1 in e ==> Plausible(o, e[p.arg1].queue + p.data)
  {
    if p.cmd == OPEN then
      if p.arg0 == 0 || p.arg1 != 0 then (e, [])
      else if svc.None? then (e, [Packet(CLSE, 0, p.arg0, [])])
      else (e[svc.value := FRESH.(peer := Remote(p.arg0), reading := true)],
            [Packet(OKAY, svc.value, p.arg0, [])])
    else if p.arg1 == 0 then (e, [])
    else if p.arg1 in e then
      var (d, out) := OnPacket(p.arg1, e[p.arg1], p, o);
      (e[p.arg1 := d], out)
    else if p.cmd == OKAY && p.arg0 != 0 then (e, [Packet(CLSE, p.arg1, p.arg0, [])])
    else (e, [])
  }
}
