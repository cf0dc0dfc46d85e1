/**
 The port forwards of src/adb_listeners.cpp and the disconnect records of src/transport.cpp that point back
 at them: two lists that refer to each other and must agree at all times, even while one is iterated.
 */
module Listeners {
  import opened Seqs

  /** An atransport as listeners see it. A record of `disconnects` is the one embedded in its listener. */
  class Transport {
    var disconnects: seq<Listener>
    var offline: bool
  }

  class Listener {
    var name: string
    var connectTo: string
    var transport: Transport?

    constructor (name: string, connectTo: string)
      ensures this.name == name && this.connectTo == connectTo && transport == null
    {
      this.name, this.connectTo, transport := name, connectTo, null;
    }
  }

  /** Listeners such as *smartsocket* are not forwards. */
  predicate Special(connectTo: string) {
    connectTo != [] && connectTo[0] == '*'
  }

  /** They are those whose target starts with an asterisk. */
  lemma SpecialAre(s: string)
    ensures Special("*" + s) && (s != "" && s[0] != '*' ==> !Special(s)) && !Special("")
  {
    assert ("*" + s)[0] == '*';
  }

  datatype Status = Ok | InternalError | CannotRebind | CannotBind | NotFound

  /** What socket_spec_listen made of the name: nothing, the name itself, or a port the system chose. */
  datatype Listen = Refused | Bound | Resolved(name: string)

  class Table {
    var list: seq<Listener>
    ghost var ts: set<Transport>

    /** The records of t that are still to be answered: all of them, or `rest` while t0's are being run. */
    ghost function Records(t: Transport, t0: Transport?, rest: seq<Listener>): seq<Listener> reads t`disconnects {
      if t == t0 then rest else t.disconnects
    }

    /** Names are unique. */
    ghost predicate NamesOk() reads this`list, list`name {
      && Distinct(list)
      && forall i, j :: 0 <= i < j < |list| ==> list[i].name != list[j].name
    }

    /** Each listener but `e` that is bound to a transport has a record there. */
    ghost predicate ListBut(e: Listener?, t0: Transport?, rest: seq<Listener>)
      reads this`list, this`ts, ts`disconnects, list`transport, list`connectTo
    {
      forall l :: l in list && l != e ==>
        if l.transport == null then Special(l.connectTo) else l.transport in ts && l in Records(l.transport, t0, rest)
    }

    ghost predicate ListOk(t0: Transport?, rest: seq<Listener>)
      reads this`list, this`ts, ts`disconnects, list`transport, list`connectTo
    {
      ListBut(null, t0, rest)
    }

    /** Each record is the only one of a live listener bound to that transport. */
    ghost predicate RecordsOk(t0: Transport?, rest: seq<Listener>)
      reads this`list, this`ts, ts`disconnects, list`transport
    {
      forall t :: t in ts ==>
        && Distinct(Records(t, t0, rest))
        && forall l :: l in Records(t, t0, rest) ==> l in list && l.transport == t
    }

    ghost predicate ValidBut(t0: Transport?, rest: seq<Listener>)
      reads this, ts`disconnects, list`name, list`transport, list`connectTo
    {
      NamesOk() && ListOk(t0, rest) && RecordsOk(t0, rest)
    }

    ghost predicate Valid() reads this, ts`disconnects, list`name, list`transport, list`connectTo {
      ValidBut(null, [])
    }

    constructor ()
      ensures Valid() && list == [] && ts == {}
    {
      list, ts := [], {};
    }

    /** A transport without records becomes known. */
    ghost method Know(t: Transport)
      requires Valid() && t !in ts && t.disconnects == []
      modifies this`ts
      ensures Valid() && ts == old(ts) + {t}
    {
      ts := ts + {t};
    }

    /** listener_list.erase, and with it the destructor: the record goes too. */
    method Erase(i: nat)
      requires Valid() && i < |list|
      modifies this`list, ts`disconnects
      ensures Valid() && list == Cut(old(list), i)
      ensures forall t :: t in ts ==> t.disconnects == Without(old(t.disconnects), old(list)[i])
    {
      hide Without;
      var l := list[i];
      CutMembers(list, i);
      NoRecords(l);
      if l.transport != null {
        WithoutDistinct(l.transport.disconnects, l);
        l.transport.disconnects := Without(l.transport.disconnects, l);
      }
      list := Cut(list, i);
    }

    /** Only the transport of l has a record of it. */
    lemma NoRecords(l: Listener)
      requires Valid()
      ensures forall t :: t in ts && t != l.transport ==> Without(t.disconnects, l) == t.disconnects
    {
      forall t | t in ts && t != l.transport ensures Without(t.disconnects, l) == t.disconnects {
        assert l !in Records(t, null, []);
      }
    }

    /** remove_listener. */
    method Remove(name: string) returns (r: Status)
      requires Valid()
      modifies this`list, ts`disconnects
      ensures Valid()
      ensures r == Ok <==> exists l :: l in old(list) && old(l.name) == name
      ensures r in {Ok, NotFound}
      ensures r == NotFound ==> list == old(list) && forall t :: t in ts ==> t.disconnects == old(t.disconnects)
      ensures forall l :: l in list <==> l in old(list) && old(l.name) != name
    {
      hide ListOk, RecordsOk, Without;
      for i := 0 to |list|
        invariant forall k :: 0 <= k < i ==> list[k].name != name
      {
        if list[i].name == name {
          CutMembers(list, i);
          Erase(i);
          return Ok;
        }
      }
      return NotFound;
    }

    /** remove_all_listeners. */
    method RemoveAll()
      requires Valid()
      modifies this`list, ts`disconnects
      ensures Valid() && forall l :: l in list <==> l in old(list) && Special(l.connectTo)
    {
      hide NamesOk, ListOk, RecordsOk, Without;
      var i := 0;
      while i < |list|
        invariant Valid() && i <= |list|
        invariant forall l :: l in list ==> l in old(list)
        invariant forall l :: l in old(list) && Special(l.connectTo) ==> l in list
        invariant forall k :: 0 <= k < i ==> Special(list[k].connectTo)
        decreases |list| - i
      {
        if Special(list[i].connectTo) {
          i := i + 1;
        } else {
          NamesDistinct();
          CutMembers(list, i);
          Erase(i);
        }
      }
    }

    lemma NamesDistinct()
      requires NamesOk()
      ensures Distinct(list)
    {
    }

    /** RemoveDisconnect, by a listener that is about to be bound elsewhere. */
    method RemoveDisconnect(l: Listener)
      requires Valid() && l in list && l.transport != null
      modifies l.transport`disconnects
      ensures ListBut(l, null, []) && RecordsOk(null, []) && NamesOk()
      ensures forall t :: t in ts ==> l !in t.disconnects && t.disconnects == Without(old(t.disconnects), l)
    {
      hide Without, NamesOk, Distinct;
      NoRecords(l);
      WithoutDistinct(l.transport.disconnects, l);
      l.transport.disconnects := Without(l.transport.disconnects, l);
    }

    /** AddDisconnect, by a listener being bound. */
    method AddDisconnect(l: Listener, transport: Transport)
      requires NamesOk() && ListBut(l, null, []) && RecordsOk(null, []) && l in list && transport in ts
      requires forall t :: t in ts ==> l !in t.disconnects
      modifies l`transport, transport`disconnects
      ensures Valid() && l.transport == transport && transport.disconnects == old(transport.disconnects) + [l]
    {
      hide NamesOk, Distinct;
      PushDistinct(transport.disconnects, l);
      l.transport := transport;
      transport.disconnects := transport.disconnects + [l];
    }

    /** The rebinding of install_listener: the record moves with the listener. */
    method Rebind(l: Listener, connectTo: string, transport: Transport)
      requires Valid() && l in list && l.transport != null && transport in ts
      modifies ts`disconnects, l`connectTo, l`transport
      ensures Valid() && l.transport == transport && l.connectTo == connectTo
    {
      hide NamesOk, RecordsOk, Without;
      l.connectTo := connectTo;
      if l.transport != transport {
        RemoveDisconnect(l);
        AddDisconnect(l, transport);
      }
    }

    /** The creation of install_listener, once the name or port is bound. */
    method Create(name: string, connectTo: string, transport: Transport?) returns (l: Listener)
      requires Valid() && (forall x :: x in list ==> x.name != name)
      requires if transport == null then Special(connectTo) else transport in ts
      modifies this`list, ts`disconnects
      ensures Valid() && fresh(l) && list == old(list) + [l]
      ensures l.name == name && l.connectTo == connectTo && l.transport == transport
    {
      hide Distinct;
      l := new Listener(name, connectTo);
      assert forall t :: t in ts ==> l !in Records(t, null, []);
      PushDistinct(list, l);
      list := list + [l];
      if transport != null {
        AddDisconnect(l, transport);
      }
    }

    /** Whether some listener has the name, and the first that has. */
    method Find(name: string) returns (i: nat)
      requires NamesOk()
      ensures i <= |list| && (i < |list| ==> list[i].name == name)
      ensures i == |list| ==> forall l :: l in list ==> l.name != name
    {
      for k := 0 to |list|
        invariant forall j :: 0 <= j < k ==> list[j].name != name
      {
        if list[k].name == name {
          return k;
        }
      }
      return |list|;
    }

    /** install_listener. Its callers pass no transport only for a special listener on a name of its own. */
    method Install(name: string, connectTo: string, transport: Transport?, noRebind: bool, listen: Listen)
      returns (r: Status)
      requires Valid() && (transport != null ==> transport in ts)
      requires transport == null ==>
        Special(connectTo) && forall l :: l in list && l.name == name ==> Special(l.connectTo)
      requires listen.Resolved? ==> forall l :: l in list ==> l.name != listen.name
      modifies this`list, ts`disconnects, list`connectTo, list`transport
      ensures Valid()
      ensures
        var taken := exists l :: l in old(list) && old(l.name) == name;
        var special := exists l :: l in old(list) && old(l.name) == name && Special(old(l.connectTo));
        && (r == InternalError <==> special) && (r == CannotRebind <==> taken && !special && noRebind)
        && (r == CannotBind <==> !taken && listen.Refused?) && r != NotFound
        && (r == Ok && !taken ==> |list| == |old(list)| + 1 && list[..|old(list)|] == old(list))
      ensures r == Ok ==>
        exists l :: l in list && l.connectTo == connectTo && l.transport == transport
          && (l.name == name || (listen.Resolved? && l.name == listen.name))
      ensures r != Ok || (exists l :: l in old(list) && l.name == name) ==> list == old(list)
      ensures forall l :: l in old(list) && l.name != name ==>
        l in list && l.connectTo == old(l.connectTo) && l.transport == old(l.transport)
    {
      hide RecordsOk, Without;
      var i := Find(name);
      if i < |list| {
        if Special(list[i].connectTo) {
          return InternalError;
        }
        assert forall l :: l in list && l.name == name ==> l == list[i];
        if noRebind {
          return CannotRebind;
        }
        Rebind(list[i], connectTo, transport);
        assert list[i] in list;
        return Ok;
      }
      match listen
      case Refused => return CannotBind;
      case Bound =>
        var l := Create(name, connectTo, transport);
        assert l in list;
        return Ok;
      case Resolved(port) =>
        var l := Create(port, connectTo, transport);
        assert l in list;
        return Ok;
    }

    /** listener_disconnect: erased without touching the records of t0, which are being iterated. */
    method Disconnect(l: Listener, ghost t0: Transport, ghost rest: seq<Listener>)
      requires ValidBut(t0, rest) && rest != [] && rest[0] == l && t0 in ts
      modifies this`list, l`transport
      ensures ValidBut(t0, rest[1..]) && list == Without(old(list), l)
    {
      hide Without;
      WithoutDistinct(list, l);
      assert l in Records(t0, t0, rest);
      for i := 0 to |list|
        invariant forall k :: 0 <= k < i ==> list[k] != l
      {
        if list[i] == l {
          list[i].transport := null;
          CutMembers(list, i);
          CutIsWithout(list, i);
          list := Cut(list, i);
          return;
        }
      }
    }

    /** The records of t are those of the listeners bound to it. */
    lemma BoundTo(t: Transport)
      requires Valid() && t in ts
      ensures ValidBut(t, t.disconnects)
      ensures forall l :: l in list ==> (l in t.disconnects <==> l.transport == t)
      ensures forall l :: l in t.disconnects ==> l in list
    {
      assert Records(t, null, []) == t.disconnects;
    }

    /** With no record left to answer, the list may be cleared. */
    method ClearRecords(t: Transport)
      requires ValidBut(t, []) && t in ts
      modifies t`disconnects
      ensures Valid() && t.disconnects == []
    {
      hide NamesOk;
      t.disconnects := [];
    }

    /** RunDisconnects: every listener bound to t goes, and the list of records stays put until the end. */
    method RunDisconnects(t: Transport)
      requires Valid() && t in ts
      modifies this`list, t`disconnects, list`transport
      ensures Valid() && t.disconnects == []
      ensures forall l :: l in list <==> l in old(list) && old(l.transport) != t
    {
      hide NamesOk, ListBut, RecordsOk, Without;
      ghost var ds := t.disconnects;
      BoundTo(t);
      assert ds[0..] == ds;
      for i := 0 to |t.disconnects|
        invariant t.disconnects == ds && ValidBut(t, ds[i..])
        invariant forall l :: l in list <==> l in old(list) && l !in ds[..i]
      {
        assert ds[i] in ds && ds[i] in old(list);
        assert ds[..i + 1] == ds[..i] + [ds[i]] && ds[i..][1..] == ds[i + 1..];
        Disconnect(t.disconnects[i], t, ds[i..]);
      }
      assert ds[|ds|..] == [] && ds[..|ds|] == ds;
      ClearRecords(t);
    }

    /** handle_offline, as far as listeners go. */
    method HandleOffline(t: Transport)
      requires Valid() && t in ts
      modifies this`list, t`disconnects, t`offline, list`transport
      ensures Valid() && t.offline
      ensures !old(t.offline) ==> t.disconnects == [] && forall l :: l in list ==> l.transport != t
      ensures !old(t.offline) ==> forall l :: l in list <==> l in old(list) && old(l.transport) != t
      ensures old(t.offline) ==> list == old(list)
    {
      if t.offline {
        return;
      }
      t.offline := true;
      RunDisconnects(t);
    }
  }
}
