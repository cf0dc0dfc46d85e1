/**
 The event loop of src/fdevent.cpp. Callbacks are arbitrary: each may create, set, add, del and destroy
 any fdevents, any number of times. What a dispatch must deliver is defined on the history of the
 loop alone, and the loop's own flags and list are proved to agree with it.
 */
module EventLoop {
  import opened Seqs

  /** FDE_READ, FDE_WRITE and FDE_ERROR. */
  datatype Mask = Mask(read: bool, write: bool, error: bool) {
    function And(m: Mask): Mask { Mask(read && m.read, write && m.write, error && m.error) }
    function Or(m: Mask): Mask { Mask(read || m.read, write || m.write, error || m.error) }
    function Minus(m: Mask): Mask { Mask(read && !m.read, write && !m.write, error && !m.error) }
    predicate Within(m: Mask) { And(m) == this }
  }

  const NONE := Mask(false, false, false)

  /** The revents of one pollfd. */
  datatype Revents = Revents(pollIn: bool, pollOut: bool, err: bool, hup: bool, nval: bool, rdhup: bool) {
    predicate Hangup() { err || hup || nval || rdhup }

    /** An error or hangup fakes a read. */
    function Events(): Mask { Mask(pollIn || Hangup(), pollOut, Hangup()) }
  }

  class Fdevent {
    const fd: nat
    var active: bool
    var pending: bool
    var want: Mask
    var events: Mask

    constructor (fd: nat)
      ensures this.fd == fd && active && !pending && want == NONE && events == NONE
    {
      this.fd, active, pending, want, events := fd, true, false, NONE, NONE;
    }
  }

  /** What poll said of its fd is what f has: a read for data or trouble, a write, an error for trouble alone. */
  predicate Reported(f: Fdevent, r: Revents) reads f {
    && (f.events.read <==> r.pollIn || r.err || r.hup || r.nval || r.rdhup)
    && (f.events.write <==> r.pollOut)
    && (f.events.error <==> r.err || r.hup || r.nval || r.rdhup)
    && (f.pending <==> r.pollIn || r.pollOut || r.err || r.hup || r.nval || r.rdhup)
  }

  datatype PollNode = PollNode(fde: Fdevent, pollIn: bool, pollOut: bool)

  // ----- histories

  /** A poll reported events, the subscription changed, the callback was called, the fdevent was destroyed. */
  datatype Entry =
    | Polled(fde: Fdevent, events: Mask)
    | Changed(fde: Fdevent, events: Mask)
    | Dispatched(fde: Fdevent, events: Mask)
    | Destroyed(fde: Fdevent)

  /** What is due to f after e, when `d` was due before. */
  function After(d: Mask, e: Entry, f: Fdevent): Mask {
    if e.fde != f then d
    else if e.Polled? then d.Or(e.events)
    else if e.Changed? then d.And(e.events)
    else NONE
  }

  /** What the next call of f's callback has to deliver: all polled since the last call, less what was unsubscribed. */
  ghost function Due(t: seq<Entry>, f: Fdevent): Mask {
    if t == [] then NONE else After(Due(t[..|t| - 1], f), t[|t| - 1], f)
  }

  ghost predicate Follows(t: seq<Entry>, e: Entry) {
    && Destroyed(e.fde) !in t
    && (e.Polled? ==> e.events != NONE)
    && (e.Dispatched? ==> e.events != NONE && e.events == Due(t, e.fde))
  }

  /** Every call delivers exactly what is due, and nothing ever happens to a destroyed fdevent again. */
  ghost predicate WellTraced(t: seq<Entry>) {
    forall k :: 0 <= k < |t| ==> Follows(t[..k], t[k])
  }

  lemma DueMore(t: seq<Entry>, e: Entry, f: Fdevent)
    ensures Due(t + [e], f) == After(Due(t, f), e, f)
  {
    assert (t + [e])[..|t|] == t;
  }

  lemma TracedMore(t: seq<Entry>, e: Entry)
    requires WellTraced(t) && Follows(t, e)
    ensures WellTraced(t + [e])
  {
    hide Due;
    forall k | 0 <= k < |t| + 1 ensures Follows((t + [e])[..k], (t + [e])[k]) {
      assert (t + [e])[..k] == t[..k];
    }
    assert t[..|t|] == t;
  }

  /** Without a new poll, a subscription change limits what is due for good. */
  lemma {:induction false} ChangeLimits(t: seq<Entry>, i: nat, f: Fdevent, m: Mask)
    requires i < |t| && t[i] == Changed(f, m)
    requires forall k :: i < k < |t| ==> !(t[k].Polled? && t[k].fde == f)
    ensures Due(t, f).Within(m)
  {
    var s := t[..|t| - 1];
    if i < |s| {
      assert s[i] == t[i];
      ChangeLimits(s, i, f, m);
    }
  }

  /** Whatever is called, is called with no more than a subscription change since the last poll allows. */
  lemma ChangeRestrictsDelivery(t: seq<Entry>, i: nat, j: nat, f: Fdevent, m: Mask, e: Mask)
    requires WellTraced(t) && i < j < |t| && t[i] == Changed(f, m) && t[j] == Dispatched(f, e)
    requires forall k :: i < k < j ==> !(t[k].Polled? && t[k].fde == f)
    ensures e.Within(m)
  {
    assert Follows(t[..j], t[j]);
    assert t[..j][i] == t[i];
    ChangeLimits(t[..j], i, f, m);
  }

  lemma {:induction false} NothingDue(t: seq<Entry>, i: nat, f: Fdevent)
    requires i <= |t| && (i == 0 || (t[i - 1].Dispatched? && t[i - 1].fde == f))
    requires forall k :: i <= k < |t| ==> !(t[k].Polled? && t[k].fde == f)
    ensures Due(t, f) == NONE
    decreases |t|
  {
    if i < |t| {
      var s := t[..|t| - 1];
      assert i > 0 ==> s[i - 1] == t[i - 1];
      NothingDue(s, i, f);
    }
  }

  /** A call of f's callback since the beginning or the last call is preceded by a poll of f. */
  lemma OneCallPerPoll(t: seq<Entry>, i: nat, j: nat, f: Fdevent)
    requires WellTraced(t) && i <= j < |t| && t[j].Dispatched? && t[j].fde == f
    requires i == 0 || (t[i - 1].Dispatched? && t[i - 1].fde == f)
    ensures exists k :: i <= k < j && t[k].Polled? && t[k].fde == f
  {
    assert Follows(t[..j], t[j]);
    if !exists k :: i <= k < j && t[k].Polled? && t[k].fde == f {
      NothingDue(t[..j], i, f);
    }
  }

  class Loop {
    var nodes: map<nat, PollNode>
    var pending: seq<Fdevent>
    ghost var all: set<Fdevent>
    ghost var trace: seq<Entry>

    /** The poll map: who is in it, and that its masks are the subscriptions. */
    ghost predicate NodesOk() reads this`nodes, this`all, all`active, all`want {
      && (forall fd :: fd in nodes ==>
           var n := nodes[fd];
           && n.fde in all && n.fde.active && n.fde.fd == fd
           && n.pollIn == n.fde.want.read && n.pollOut == n.fde.want.write)
      && (forall f :: f in all && f.active ==> f.fd in nodes && nodes[f.fd].fde == f)
    }

    /** FDE_PENDING holds of exactly the listed ones, which are listed once and, but for `e`, have events to deliver. */
    ghost predicate PendingBut(e: Fdevent?) reads this`pending, this`all, all`active, all`pending, all`events {
      && Distinct(pending)
      && (forall f :: f in pending ==> f in all && f.active && f.pending)
      && (forall f :: f in all && f.pending ==> f in pending && (f != e ==> f.events != NONE))
      && (forall f :: f in all && !f.pending ==> f.events == NONE)
    }

    ghost predicate PendingOk() reads this`pending, this`all, all`active, all`pending, all`events {
      PendingBut(null)
    }

    ghost predicate HistoryOk() reads this`trace, this`all, all`active, all`events {
      && WellTraced(trace)
      && (forall f :: f in all ==> f.events == Due(trace, f) && (f.active ==> Destroyed(f) !in trace))
      && (forall k :: 0 <= k < |trace| ==> trace[k].fde in all)
    }

    ghost predicate Valid() reads this, all {
      NodesOk() && PendingOk() && HistoryOk()
    }

    constructor ()
      ensures Valid() && nodes == map[] && pending == [] && trace == [] && all == {}
    {
      nodes, pending, trace, all := map[], [], [], {};
    }

    /** fdevent_create. The fd number may have belonged to an fdevent destroyed since. */
    method Create(fd: nat) returns (f: Fdevent)
      requires Valid() && fd !in nodes
      modifies this`nodes, this`all
      ensures Valid() && fresh(f) && all == old(all) + {f} && nodes == old(nodes)[fd := PollNode(f, false, false)]
      ensures f.fd == fd && f.active && f.want == NONE
    {
      hide PendingBut, HistoryOk;
      f := new Fdevent(fd);
      Admit(f);
      nodes := nodes[fd := PollNode(f, false, false)];
    }

    /** An fdevent nothing has happened to. */
    ghost method Admit(f: Fdevent)
      requires PendingOk() && HistoryOk() && f !in all && f.active && !f.pending && f.events == NONE
      modifies this`all
      ensures PendingOk() && HistoryOk() && all == old(all) + {f}
    {
      hide Due, WellTraced, Distinct;
      NeverMentioned(trace, f);
      all := all + {f};
    }

    /**
     A destroyed fdevent is out of map and list, and nothing has happened to it since, also if its fd is in use
     again.
     */
    lemma SilentOnceDestroyed(i: nat)
      requires Valid() && i < |trace| && trace[i].Destroyed?
      ensures
        var f := trace[i].fde;
        && f in all && !f.active && f !in pending && f.events == NONE
        && (f.fd in nodes ==> nodes[f.fd].fde != f)
        && forall j :: i < j < |trace| ==> trace[j].fde != f
    {
      hide Due, Distinct;
      var f := trace[i].fde;
      assert Destroyed(f) in trace;
      forall j | i < j < |trace| ensures trace[j].fde != f {
        assert Follows(trace[..j], trace[j]);
        assert trace[..j][i] == trace[i];
      }
    }

    /** One more entry of the history. */
    ghost method Note(e: Entry)
      requires HistoryOk() && e.fde in all && Follows(trace, e)
      modifies this`trace
      ensures trace == old(trace) + [e] && WellTraced(trace)
      ensures forall f :: f in all ==> Due(trace, f) == After(f.events, e, f)
      ensures forall f :: f in all && f.active && Destroyed(f) != e ==> Destroyed(f) !in trace
      ensures forall k :: 0 <= k < |trace| ==> trace[k].fde in all
    {
      hide Due, Follows;
      TracedMore(trace, e);
      forall f | f in all ensures Due(trace + [e], f) == After(f.events, e, f) {
        DueMore(trace, e, f);
      }
      trace := trace + [e];
    }

    /** Takes f off the pending list. */
    method Unlist(f: Fdevent)
      requires PendingBut(f) && f in all && f.pending
      modifies this`pending, f`pending, f`events
      ensures PendingOk() && !f.pending && f.events == NONE && pending == Without(old(pending), f)
    {
      hide Without, Distinct;
      WithoutDistinct(pending, f);
      pending := Without(pending, f);
      f.events, f.pending := NONE, false;
    }

    /** f leaves the pending list and its history ends. */
    method Retire(f: Fdevent)
      requires PendingOk() && HistoryOk() && f in all && f.active
      modifies this`pending, this`trace, f`active, f`pending, f`events
      ensures PendingOk() && HistoryOk() && !f.active && trace == old(trace) + [Destroyed(f)]
      ensures pending == Without(old(pending), f)
    {
      hide Due, WellTraced, Without, Distinct;
      Note(Destroyed(f));
      if f.pending {
        Unlist(f);
      }
      f.active := false;
    }

    /** fdevent_destroy: out of the poll map, out of the pending list, never heard of again. */
    method Destroy(f: Fdevent)
      requires Valid() && f in all && f.active
      modifies this`nodes, this`pending, this`trace, f
      ensures Valid() && !f.active && nodes == old(nodes) - {f.fd} && trace == old(trace) + [Destroyed(f)]
      ensures pending == Without(old(pending), f)
    {
      hide PendingBut, HistoryOk, Without;
      nodes := nodes - {f.fd};
      Retire(f);
      f.want := NONE;
    }

    /** fdevent_update. */
    method Update(f: Fdevent, m: Mask)
      requires NodesOk() && f in all && f.active
      modifies this`nodes, f`want
      ensures NodesOk() && f.want == m && nodes.Keys == old(nodes.Keys)
      ensures nodes == old(nodes)[f.fd := PollNode(f, m.read, m.write)]
    {
      nodes := nodes[f.fd := PollNode(f, m.read, m.write)];
      f.want := m;
    }

    /** A pending fdevent keeps no event outside m. */
    method Restrict(f: Fdevent, m: Mask)
      requires PendingOk() && HistoryOk() && f in all && f.active
      modifies this`pending, this`trace, f`pending, f`events
      ensures PendingOk() && HistoryOk() && f.events == old(f.events).And(m) && trace == old(trace) + [Changed(f, m)]
      ensures pending == if f.events == NONE then Without(old(pending), f) else old(pending)
    {
      hide Due, WellTraced, Without, Distinct;
      Note(Changed(f, m));
      if f.pending {
        f.events := f.events.And(m);
        if f.events == NONE {
          Unlist(f);
        }
      }
    }

    /** fdevent_set: only a real change touches a pending fdevent, and then keeps no event that is not wanted. */
    method Set(f: Fdevent, m: Mask)
      requires Valid() && f in all && f.active
      modifies this`nodes, this`pending, this`trace, f`want, f`events, f`pending
      ensures Valid() && f.want == m && nodes.Keys == old(nodes.Keys)
      ensures f.events == if old(f.want) == m then old(f.events) else old(f.events).And(m)
      ensures old(f.want) != m ==>
        && (f.events.read <==> old(f.events.read) && m.read) && (f.events.write <==> old(f.events.write) && m.write)
        && (f.events.error <==> old(f.events.error) && m.error)
      ensures pending == if f.events == NONE then Without(old(pending), f) else old(pending)
      ensures trace == old(trace) + if old(f.want) == m then [] else [Changed(f, m)]
    {
      hide NodesOk, HistoryOk, Without;
      if f.want == m {
        assert trace + [] == trace;
        return;
      }
      hide PendingBut;
      Update(f, m);
      Restrict(f, m);
    }

    method Add(f: Fdevent, m: Mask)
      requires Valid() && f in all && f.active
      modifies this`nodes, this`pending, this`trace, f`want, f`events, f`pending
      ensures Valid() && nodes.Keys == old(nodes.Keys)
      ensures (f.want.read <==> old(f.want.read) || m.read) && (f.want.write <==> old(f.want.write) || m.write)
      ensures f.want.error <==> old(f.want.error) || m.error
      ensures f.events.And(m) == old(f.events).And(m)
      ensures (forall x :: x in pending ==> x in old(pending)) && |pending| <= |old(pending)|
    {
      hide Due, WellTraced, Distinct;
      Set(f, f.want.Or(m));
    }

    method Del(f: Fdevent, m: Mask)
      requires Valid() && f in all && f.active
      modifies this`nodes, this`pending, this`trace, f`want, f`events, f`pending
      ensures Valid() && nodes.Keys == old(nodes.Keys)
      ensures (f.want.read <==> old(f.want.read) && !m.read) && (f.want.write <==> old(f.want.write) && !m.write)
      ensures f.want.error <==> old(f.want.error) && !m.error
      ensures old(f.want).And(m) != NONE ==> f.events == old(f.events).And(f.want)
      ensures (forall x :: x in pending ==> x in old(pending)) && |pending| <= |old(pending)|
    {
      hide Due, WellTraced, Distinct;
      Set(f, f.want.Minus(m));
    }

    /** One fdevent that poll reported becomes pending. */
    method Report(f: Fdevent, ev: Mask)
      requires Valid() && f in all && f.active && ev != NONE && !f.pending
      modifies this`pending, this`trace, f`pending, f`events
      ensures Valid() && f.pending
      ensures pending == old(pending) + [f] && f.events == ev && trace == old(trace) + [Polled(f, ev)]
    {
      hide Due, WellTraced, NodesOk, PendingBut;
      Idle(f);
      Note(Polled(f, ev));
      Push(f, ev);
    }

    lemma Idle(f: Fdevent)
      requires PendingOk() && f in all && !f.pending
      ensures f.events == NONE
    {
    }

    /** f joins the list. */
    method Push(f: Fdevent, ev: Mask)
      requires PendingOk() && f in all && f.active && ev != NONE && !f.pending
      modifies this`pending, f`pending, f`events
      ensures PendingOk() && f.pending && pending == old(pending) + [f] && f.events == ev
    {
      hide Distinct;
      PushDistinct(pending, f);
      f.events := f.events.Or(ev);
      f.pending := true;
      pending := pending + [f];
    }

    /** What poll said of the fd of f. */
    method Convey(f: Fdevent, r: Revents)
      requires Valid() && f in all && f.active && !f.pending && f.events == NONE
      modifies this`pending, this`trace, f`pending, f`events
      ensures Valid() && Reported(f, r) && f.events == r.Events() && old(trace) <= trace
      ensures pending == old(pending) + if r.Events() != NONE then [f] else []
    {
      hide HistoryOk, PendingBut, NodesOk;
      if r.Events() != NONE {
        Report(f, r.Events());
      }
    }

    /**
     fdevent_process, with the pollfds in whatever order the map yields them. poll answers only what it was
     asked, and hangups; so a read delivered without FDE_READ subscribed comes with FDE_ERROR.
     */
    method Process(order: seq<nat>, poll: map<nat, Revents>)
      requires Valid() && pending == [] && Enumerates(order, nodes.Keys) && poll.Keys == nodes.Keys
      requires forall fd :: fd in nodes ==>
        (poll[fd].pollIn ==> nodes[fd].pollIn) && (poll[fd].pollOut ==> nodes[fd].pollOut)
      modifies this`pending, this`trace, all`pending, all`events
      ensures Valid() && pending == Fired(order, poll, nodes) && old(trace) <= trace
      ensures forall f :: f in pending ==> Explained(f, poll)
      ensures forall fd :: fd in nodes ==> Reported(nodes[fd].fde, poll[fd])
    {
      hide HistoryOk, PendingBut, Fired, Reported, NodesOk, Revents.Events, Explained;
      FiredNone(order[..0], poll, nodes);
      NodeFacts(order);
      NobodyPending();
      for i := 0 to |order|
        invariant Valid() && old(trace) <= trace && pending == Fired(order[..i], poll, nodes)
        invariant forall k :: i <= k < |order| ==> !nodes[order[k]].fde.pending && nodes[order[k]].fde.events == NONE
        invariant forall k :: 0 <= k < i ==> Reported(nodes[order[k]].fde, poll[order[k]])
      {
        FiredMore(order, i, poll, nodes);
        Convey(nodes[order[i]].fde, poll[order[i]]);
      }
      assert order[..|order|] == order;
      ReportsExplain(poll);
    }

    lemma NodeFacts(order: seq<nat>)
      requires NodesOk() && forall k :: 0 <= k < |order| ==> order[k] in nodes
      ensures forall k :: 0 <= k < |order| ==>
        var f := nodes[order[k]].fde;
        f in all && f.active && f.fd == order[k]
    {
    }

    lemma ReportsExplain(poll: map<nat, Revents>)
      requires NodesOk() && PendingOk() && poll.Keys == nodes.Keys
      requires forall fd :: fd in nodes ==> Reported(nodes[fd].fde, poll[fd])
      requires forall fd :: fd in nodes ==>
        (poll[fd].pollIn ==> nodes[fd].pollIn) && (poll[fd].pollOut ==> nodes[fd].pollOut)
      ensures forall f :: f in pending ==> Explained(f, poll)
    {
      hide Distinct;
      forall f | f in pending ensures Explained(f, poll) {
        assert Reported(nodes[f.fd].fde, poll[f.fd]);
      }
    }

    lemma NobodyPending()
      requires PendingOk() && pending == []
      ensures forall f :: f in all ==> !f.pending && f.events == NONE
    {
    }

    /** The events of f are what poll said of its fd; a read it did not ask for comes with an error. */
    ghost predicate Explained(f: Fdevent, poll: map<nat, Revents>) reads this, f {
      && f.fd in nodes && nodes[f.fd].fde == f && f.fd in poll && f.events == poll[f.fd].Events()
      && (f.events.write ==> f.want.write) && (f.events.read && !f.want.read ==> f.events.error)
    }

    /** What a callback may do: neither poll nor dispatch, and put nobody on the pending list. */
    twostate predicate Tame() reads this {
      && old(all) <= all && (forall f :: f in all && f !in old(all) ==> fresh(f))
      && |pending| <= |old(pending)| && (forall f :: f in pending ==> f in old(pending))
      && old(trace) <= trace
      && forall k :: |old(trace)| <= k < |trace| ==> trace[k].Changed? || trace[k].Destroyed?
    }

    /** One arbitrary call a callback makes. */
    method AnyCall()
      requires Valid()
      modifies this, all
      ensures Valid() && Tame()
    {
      hide NodesOk, PendingBut, HistoryOk;
      var fd: nat, m: Mask := *, *;
      if fd !in nodes {
        var f := Create(fd);
      } else {
        Registered(fd);
        var f := nodes[fd].fde;
        if
        case true => Set(f, m);
        case true => Destroy(f);
      }
    }

    lemma Registered(fd: nat)
      requires NodesOk() && fd in nodes
      ensures nodes[fd].fde in all && nodes[fd].fde.active
    {
    }

    /** A callback: any number of calls. */
    method Callback()
      requires Valid()
      modifies this, all
      ensures Valid() && Tame()
    {
      hide NodesOk, PendingBut, HistoryOk;
      var calls: int := *;
      while calls > 0
        invariant Valid() && Tame()
      {
        AnyCall();
        calls := calls - 1;
      }
    }

    /** The pop of fdevent_loop and fdevent_call_fdfunc up to the call, with the events to be delivered. */
    method Take() returns (f: Fdevent, ev: Mask)
      requires Valid() && pending != []
      modifies this`pending, this`trace, pending[0]
      ensures Valid() && f == old(pending)[0] && f.active && ev == old(pending[0].events) && ev != NONE
      ensures pending == old(pending)[1..] && trace == old(trace) + [Dispatched(f, ev)]
    {
      hide Due, WellTraced, NodesOk, PendingBut;
      FirstPending();
      f := pending[0];
      ev := f.events;
      Note(Dispatched(f, ev));
      Pop(f);
    }

    lemma FirstPending()
      requires PendingOk() && pending != []
      ensures pending[0] in all && pending[0].active && pending[0].events != NONE
    {
    }

    /** The head of the list has nothing to deliver any more. */
    method Pop(f: Fdevent)
      requires PendingOk() && pending != [] && f == pending[0]
      modifies this`pending, f`pending, f`events
      ensures PendingOk() && pending == old(pending)[1..] && f.events == NONE
    {
      pending := pending[1..];
      f.events := NONE;
      f.pending := false;
    }

    /** Since the trace was `t0` nothing was polled, and all of `q` were called, changed or destroyed. */
    ghost predicate Answered(t0: seq<Entry>, q: seq<Fdevent>) reads this`trace {
      && t0 <= trace
      && (forall k :: |t0| <= k < |trace| ==> !trace[k].Polled?)
      && forall f :: f in q ==> exists k :: |t0| <= k < |trace| && trace[k].fde == f
    }

    /** The inner loop of fdevent_loop. It ends, whatever the callbacks do. */
    method Drain()
      requires Valid()
      modifies this, all
      ensures Valid() && pending == [] && Answered(old(trace), old(pending))
      ensures old(all) <= all && forall f :: f in all && f !in old(all) ==> fresh(f)
    {
      hide NodesOk, PendingBut, HistoryOk, Due;
      DueIfPending();
      while pending != []
        invariant Valid() && old(trace) <= trace && old(all) <= all
        invariant (forall f :: f in all && f !in old(all) ==> fresh(f))
        invariant forall k :: |old(trace)| <= k < |trace| ==> !trace[k].Polled?
        decreases |pending|
      {
        DueIfPending();
        var f, ev := Take();
        Callback();
      }
      DueIfPending();
      forall f | f in old(pending) ensures exists k :: |old(trace)| <= k < |trace| && trace[k].fde == f {
        DueStays(old(trace), trace, f);
      }
    }

    lemma DueIfPending()
      requires PendingOk() && HistoryOk()
      ensures forall f :: f in pending ==> f in all && Due(trace, f) != NONE
      ensures forall f :: f in all && f !in pending ==> Due(trace, f) == NONE
    {
    }
  }

  /** `order` lists each member of `s` once. */
  predicate Enumerates(order: seq<nat>, s: set<nat>) {
    && (forall i, j :: 0 <= i < j < |order| ==> order[i] != order[j])
    && (forall i :: 0 <= i < |order| ==> order[i] in s)
    && (forall x :: x in s ==> x in order)
  }

  /** The fdevents that poll has events for. */
  function Fired(order: seq<nat>, poll: map<nat, Revents>, nodes: map<nat, PollNode>): seq<Fdevent>
    requires forall i :: 0 <= i < |order| ==> order[i] in poll && order[i] in nodes
  {
    if order == [] then []
    else
      var fd := order[|order| - 1];
      Fired(order[..|order| - 1], poll, nodes) + if poll[fd].Events() != NONE then [nodes[fd].fde] else []
  }

  /** What is due to f changes only by an entry about f. */
  lemma {:induction false} DueStays(t0: seq<Entry>, t: seq<Entry>, f: Fdevent)
    requires t0 <= t && Due(t0, f) != Due(t, f)
    ensures exists k :: |t0| <= k < |t| && t[k].fde == f
  {
    assert t[..|t0|] == t0 && t[..|t|] == t;
    if t[|t| - 1].fde != f {
      DueStays(t0, t[..|t| - 1], f);
    }
  }

  lemma FiredNone(order: seq<nat>, poll: map<nat, Revents>, nodes: map<nat, PollNode>)
    requires order == []
    ensures Fired(order, poll, nodes) == []
  {
  }

  lemma FiredMore(order: seq<nat>, i: nat, poll: map<nat, Revents>, nodes: map<nat, PollNode>)
    requires i < |order| && forall k :: 0 <= k < |order| ==> order[k] in poll && order[k] in nodes
    ensures Fired(order[..i + 1], poll, nodes)
         == Fired(order[..i], poll, nodes) + if poll[order[i]].Events() != NONE then [nodes[order[i]].fde] else []
  {
    assert order[..i + 1][..i] == order[..i];
  }

  lemma {:induction false} NeverMentioned(t: seq<Entry>, f: Fdevent)
    requires forall k :: 0 <= k < |t| ==> t[k].fde != f
    ensures Due(t, f) == NONE && Destroyed(f) !in t
  {
    if t != [] {
      NeverMentioned(t[..|t| - 1], f);
    }
  }
}
