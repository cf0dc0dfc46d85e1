/**
 The life of a transport in src/transport.cpp, from registration to deletion, as a state machine over the
 registration channel, the error closures on the run queue, and the reconnect handler's thread. Messages on
 the channel are atomic; Stop and Kick happen on the main thread.
 */
module Transports {
  import opened Seqs
  import opened Wire

  /** The connection a transport holds now: not started, started, or started and its error callback called. */
  datatype Conn = Idle | Live | Broken

  /** `calls` counts the Reconnect calls since the transport was last tracked; `deleted` the deletions. */
  datatype Transport = Transport(tcp: bool, noPerm: bool, refCount: nat, kicked: bool, conn: Conn,
                                 parked: bool, dropped: bool, deleted: nat, calls: nat)

  datatype Msg = Register(t: nat) | Remove(t: nat)

  datatype Attempt = Attempt(t: nat, left: nat)

  const MAX_ATTEMPTS := 6

  /**
   `running` is the handler's flag, `joined` says that Stop has returned. The main thread is inside Stop
   when neither holds.
   */
  datatype State = State(ts: map<nat, Transport>, pending: set<nat>, listed: set<nat>, channel: seq<Msg>,
                         closures: seq<nat>, queue: seq<Attempt>, inFlight: Option<Attempt>,
                         running: bool, joined: bool) {
    predicate MainFree() { running || joined }
  }

  const INIT := State(map[], {}, {}, [], [], [], None, true, false)

  datatype Result = Retry | Success | Abort

  datatype Action =
    | New(t: nat, tcp: bool, noPerm: bool)   // register_socket_transport, register_usb_transport
    | Handle(kick: bool)                     // transport_registration_func; a failing send_connect kicks
    | Fail(t: nat)                           // a read or write thread calls the error callback
    | Kick(t: nat)                           // atransport::Kick of a listed transport
    | RunClosure                             // the error closure: handle_offline and transport_unref
    | Evict(k: nat)                          // the handler's scan finds a kicked transport
    | Pick(k: nat)                           // the handler takes an attempt and calls Reconnect
    | Finish(r: Result)                      // Reconnect returns
    | StopRequest                            // ReconnectHandler::Stop up to the join
    | StopJoin                               // the join and the draining of the queue

  predicate Enabled(s: State, a: Action) {
    match a
    case New(t, tcp, noPerm) => t !in s.ts && !(tcp && noPerm)
    case Handle(_) => s.MainFree() && s.channel != [] && s.channel[0].t in s.ts
    case Fail(t) => t in s.ts && s.ts[t].conn != Idle
    case Kick(t) => s.MainFree() && t in s.ts && t in s.listed
    case RunClosure => s.MainFree() && s.closures != [] && s.closures[0] in s.ts
    case Evict(k) => s.running && s.inFlight.None? && k < |s.queue| && s.queue[k].t in s.ts && s.ts[s.queue[k].t].kicked
    case Pick(k) => s.running && s.inFlight.None? && k < |s.queue| && s.queue[k].t in s.ts && !s.ts[s.queue[k].t].kicked
    case Finish(_) => s.inFlight.Some? && s.inFlight.value.t in s.ts
    case StopRequest => s.running && s.MainFree()
    case StopJoin => !s.running && !s.joined && s.inFlight.None?
  }

  function Put(s: State, t: nat, x: Transport): State {
    s.(ts := s.ts[t := x])
  }

  /** The error callback, which call_once lets through once for each connection. */
  function ErrorOnce(s: State, t: nat): State
    requires t in s.ts
  {
    if s.ts[t].conn != Live then s
    else Put(s, t, s.ts[t].(conn := Broken)).(closures := s.closures + [t])
  }

  /** atransport::Kick: the first one stops the connection. */
  function KickNow(s: State, t: nat): State
    requires t in s.ts
  {
    if s.ts[t].kicked then s else ErrorOnce(Put(s, t, s.ts[t].(kicked := true)), t)
  }

  /** transport_unref, once its reference count is positive: stop, then track, drop or remove. */
  function Unref(s: State, t: nat): State
    requires t in s.ts && s.ts[t].refCount > 0
  {
    var x := s.ts[t].(refCount := s.ts[t].refCount - 1);
    if x.refCount > 0 then Put(s, t, x)
    else
      var s1 := ErrorOnce(Put(s, t, x), t);
      var y := s1.ts[t];
      if !(y.tcp && !y.kicked) then s1.(channel := s1.channel + [Remove(t)])
      else if !s1.running then Put(s1, t, y.(dropped := true))
      else Put(s1, t, y.(calls := 0)).(queue := s1.queue + [Attempt(t, MAX_ATTEMPTS)])
  }

  /** A message of transport_registration_func. */
  function HandleMsg(s: State, m: Msg): State
    requires m.t in s.ts
  {
    var x := s.ts[m.t];
    match m
    case Remove(t) => Put(s, t, x.(deleted := x.deleted + 1)).(listed := s.listed - {t})
    case Register(t) =>
      var s1 := Put(s, t, if x.noPerm then x.(parked := true) else x.(refCount := x.refCount + 1, conn := Live));
      if t in s.pending then s1.(pending := s.pending - {t}, listed := s.listed + {t}) else s1
  }

  /** transport_registration_func, apart from a kick by send_connect. */
  function Handled(s: State): State
    requires s.channel != [] && s.channel[0].t in s.ts
  {
    HandleMsg(s.(channel := s.channel[1..]), s.channel[0])
  }

  /** What the handler does with the answer of Reconnect. */
  function Settle(s: State, a: Attempt, r: Result): State
    requires a.t in s.ts
  {
    match r
    case Retry =>
      if a.left == 0 then s.(channel := s.channel + [Remove(a.t)])
      else s.(queue := s.queue + [Attempt(a.t, a.left - 1)])
    case Success => Put(s, a.t, s.ts[a.t].(conn := Idle)).(channel := s.channel + [Register(a.t)])
    case Abort => s.(channel := s.channel + [Remove(a.t)])
  }

  function Removes(q: seq<Attempt>): seq<Msg> {
    seq(|q|, i requires 0 <= i < |q| => Remove(q[i].t))
  }

  /** CHECK_GT(ref_count, 0) of transport_unref is the only check of Next, see RefCountHolds. */
  function Next(s: State, a: Action): State
    requires Enabled(s, a) && (a.RunClosure? ==> s.ts[s.closures[0]].refCount > 0)
  {
    match a
    case New(t, tcp, noPerm) =>
      Put(s, t, Transport(tcp, noPerm, 0, false, Idle, false, false, 0, 0))
        .(pending := s.pending + {t}, channel := s.channel + [Register(t)])
    case Handle(kick) =>
      var m := s.channel[0];
      if kick && m.Register? && !s.ts[m.t].noPerm then KickNow(Handled(s), m.t) else Handled(s)
    case Fail(t) => ErrorOnce(s, t)
    case Kick(t) => KickNow(s, t)
    case RunClosure => Unref(s.(closures := s.closures[1..]), s.closures[0])
    case Evict(k) => s.(queue := Cut(s.queue, k), channel := s.channel + [Remove(s.queue[k].t)])
    case Pick(k) =>
      var t := s.queue[k].t;
      Put(s, t, s.ts[t].(calls := s.ts[t].calls + 1)).(queue := Cut(s.queue, k), inFlight := Some(s.queue[k]))
    case Finish(r) => Settle(s.(inFlight := None), s.inFlight.value, r)
    case StopRequest => s.(running := false)
    case StopJoin => s.(joined := true, queue := [], channel := s.channel + Removes(s.queue))
  }

  // ----- tokens

  function Waiting(q: seq<Attempt>, t: nat): nat {
    if q == [] then 0 else Bit(q[0].t == t) + Waiting(q[1..], t)
  }

  function Posted(c: seq<Msg>, t: nat): nat {
    multiset(c)[Register(t)] + multiset(c)[Remove(t)]
  }

  /** In how many places transport t is: with exactly one of them the next move for t rests. */
  function Tokens(s: State, t: nat): nat
    requires t in s.ts
  {
    var x := s.ts[t];
    Posted(s.channel, t) + Bit(x.conn == Live) + multiset(s.closures)[t] + Waiting(s.queue, t)
      + Bit(s.inFlight.Some? && s.inFlight.value.t == t) + Bit(x.parked) + x.deleted + Bit(x.dropped)
  }

  /** What holds of each transport. */
  predicate Ok(s: State, t: nat)
    requires t in s.ts
  {
    var x := s.ts[t];
    && Tokens(s, t) == 1
    && x.refCount == Bit(x.conn == Live) + multiset(s.closures)[t]
    && (Register(t) in s.channel ==> x.conn == Idle)
    && (t in s.pending ==> Register(t) in s.channel)
    && !(t in s.pending && t in s.listed)
    && (x.deleted > 0 ==> t !in s.listed)
    && x.calls <= MAX_ATTEMPTS + 1
    && !(x.tcp && x.noPerm)
    && (x.noPerm && Register(t) in s.channel ==> t in s.pending)
  }

  /** A network transport whose calls and attempts left make up n. */
  predicate Tracked(s: State, a: Attempt, n: nat) {
    a.t in s.ts && s.ts[a.t].tcp && s.ts[a.t].calls + a.left == n
  }

  predicate Known(s: State) {
    && (forall m :: m in s.channel ==> m.t in s.ts)
    && (forall t :: t in s.closures ==> t in s.ts)
    && (forall k :: 0 <= k < |s.queue| ==> Tracked(s, s.queue[k], MAX_ATTEMPTS))
    && (s.inFlight.Some? ==> Tracked(s, s.inFlight.value, MAX_ATTEMPTS + 1))
    && s.pending <= s.ts.Keys && s.listed <= s.ts.Keys
    && (s.joined ==> !s.running && s.queue == [] && s.inFlight.None?)
  }

  predicate Inv(s: State) {
    Known(s) && forall t :: t in s.ts ==> Ok(s, t)
  }

  // ----- counting

  lemma {:induction false} WaitingMore(q: seq<Attempt>, a: Attempt, t: nat)
    ensures Waiting(q + [a], t) == Waiting(q, t) + Bit(a.t == t)
  {
    if q == [] {
      assert q + [a] == [a] && [a][1..] == [];
    } else {
      assert (q + [a])[1..] == q[1..] + [a];
      WaitingMore(q[1..], a, t);
    }
  }

  lemma {:induction false} WaitingCut(q: seq<Attempt>, k: nat, t: nat)
    requires k < |q|
    ensures Waiting(q, t) == Waiting(Cut(q, k), t) + Bit(q[k].t == t)
  {
    if k == 0 {
      assert Cut(q, k) == q[1..];
    } else {
      assert Cut(q, k)[1..] == Cut(q[1..], k - 1);
      WaitingCut(q[1..], k - 1, t);
    }
  }

  lemma PostedMore(c: seq<Msg>, m: Msg, t: nat)
    ensures Posted(c + [m], t) == Posted(c, t) + Bit(m.t == t)
    ensures Register(t) in c + [m] <==> Register(t) in c || m == Register(t)
  {
  }

  lemma PostedFirst(c: seq<Msg>, t: nat)
    requires c != []
    ensures Posted(c, t) == Posted(c[1..], t) + Bit(c[0].t == t)
    ensures Register(t) in c <==> Register(t) in c[1..] || c[0] == Register(t)
    ensures Register(t) in c ==> Posted(c, t) > 0
    ensures Register(t) in c[1..] ==> Posted(c[1..], t) > 0
  {
    assert c == [c[0]] + c[1..];
  }

  lemma {:induction false} PostedRemoves(c: seq<Msg>, q: seq<Attempt>, t: nat)
    ensures Posted(c + Removes(q), t) == Posted(c, t) + Waiting(q, t)
    ensures Register(t) in c + Removes(q) <==> Register(t) in c
    decreases |q|
  {
    if q == [] {
      assert c + Removes(q) == c;
    } else {
      var m := Remove(q[0].t);
      assert Removes(q) == [m] + Removes(q[1..]);
      assert c + Removes(q) == c + [m] + Removes(q[1..]);
      PostedMore(c, m, t);
      PostedRemoves(c + [m], q[1..], t);
    }
  }

  lemma FirstClosure(c: seq<nat>, t: nat)
    requires c != []
    ensures multiset(c)[t] == multiset(c[1..])[t] + Bit(c[0] == t)
  {
    assert c == [c[0]] + c[1..];
  }

  /** A channel that holds a registration holds the token. */
  lemma Registered(s: State, t: nat)
    requires t in s.ts && Ok(s, t) && Register(t) in s.channel
    ensures Posted(s.channel, t) == 1 && s.ts[t].conn == Idle && multiset(s.closures)[t] == 0
  {
    assert multiset(s.channel)[Register(t)] > 0;
  }

  // ----- what every step keeps

  lemma {:induction false} NotWaiting(q: seq<Attempt>, t: nat)
    requires forall k :: 0 <= k < |q| ==> q[k].t != t
    ensures Waiting(q, t) == 0
  {
    if q != [] {
      NotWaiting(q[1..], t);
    }
  }

  lemma Unknown(s: State, t: nat)
    requires Known(s) && t !in s.ts
    ensures Posted(s.channel, t) == 0 && multiset(s.closures)[t] == 0 && Waiting(s.queue, t) == 0
    ensures t !in s.pending && t !in s.listed && Register(t) !in s.channel
    ensures Remove(t) !in s.channel && t !in s.closures
  {
    NotWaiting(s.queue, t);
    assert Register(t) !in s.channel && Remove(t) !in s.channel;
  }

  lemma {:induction false} IsWaiting(q: seq<Attempt>, k: nat)
    requires k < |q|
    ensures Waiting(q, q[k].t) > 0
  {
    if k > 0 {
      IsWaiting(q[1..], k - 1);
    }
  }

  /** From s to s' nothing that concerns x has changed. */
  predicate Same(s: State, s': State, x: nat) {
    && x in s.ts && x in s'.ts && s'.ts[x] == s.ts[x]
    && Posted(s'.channel, x) == Posted(s.channel, x) && (Register(x) in s'.channel <==> Register(x) in s.channel)
    && multiset(s'.closures)[x] == multiset(s.closures)[x] && Waiting(s'.queue, x) == Waiting(s.queue, x)
    && (s'.inFlight.Some? && s'.inFlight.value.t == x <==> s.inFlight.Some? && s.inFlight.value.t == x)
    && (x in s'.pending <==> x in s.pending) && (x in s'.listed <==> x in s.listed)
  }

  lemma SameOk(s: State, s': State, x: nat)
    requires Same(s, s', x) && Ok(s, x)
    ensures Ok(s', x)
  {
    hide Posted, Waiting;
  }

  lemma NewOk(s: State, t: nat, tcp: bool, noPerm: bool, x: nat)
    requires Inv(s) && Enabled(s, New(t, tcp, noPerm)) && x in Next(s, New(t, tcp, noPerm)).ts
    ensures Ok(Next(s, New(t, tcp, noPerm)), x)
  {
    hide Posted, Waiting;
    PostedMore(s.channel, Register(t), x);
    if x == t {
      Unknown(s, t);
    } else {
      hide Ok;
      SameOk(s, Next(s, New(t, tcp, noPerm)), x);
    }
  }

  lemma NewKeeps(s: State, t: nat, tcp: bool, noPerm: bool)
    requires Inv(s) && Enabled(s, New(t, tcp, noPerm))
    ensures Inv(Next(s, New(t, tcp, noPerm)))
  {
    hide Ok;
    var s' := Next(s, New(t, tcp, noPerm));
    forall x | x in s'.ts ensures Ok(s', x) {
      NewOk(s, t, tcp, noPerm, x);
    }
  }

  lemma OthersHandled(s: State, x: nat)
    requires Inv(s) && s.channel != [] && s.channel[0].t in s.ts && x in s.ts && x != s.channel[0].t
    ensures x in Handled(s).ts && Ok(Handled(s), x)
  {
    hide Posted, Waiting, Known, Ok;
    PostedFirst(s.channel, x);
    SameOk(s, Handled(s), x);
  }

  lemma RegisterHandled(s: State, x: nat)
    requires Inv(s) && s.channel != [] && s.channel[0].t in s.ts && s.channel[0] == Register(x)
    ensures Ok(Handled(s), x)
  {
    hide Posted, Waiting, Known;
    assert Ok(s, x);
    PostedFirst(s.channel, x);
    Registered(s, x);
  }

  lemma RemoveHandled(s: State, x: nat)
    requires Inv(s) && s.channel != [] && s.channel[0].t in s.ts && s.channel[0] == Remove(x)
    ensures Ok(Handled(s), x)
  {
    hide Posted, Waiting, Known;
    assert Ok(s, x);
    PostedFirst(s.channel, x);
  }

  lemma HandledKnown(s: State)
    requires Known(s) && s.channel != [] && s.channel[0].t in s.ts
    ensures Known(Handled(s)) && Handled(s).ts.Keys == s.ts.Keys
  {
  }

  lemma HandledKeeps(s: State)
    requires Inv(s) && s.channel != [] && s.channel[0].t in s.ts
    ensures Inv(Handled(s))
  {
    hide Ok;
    HandledKnown(s);
    hide Known;
    var s', m := Handled(s), s.channel[0];
    forall x | x in s'.ts ensures Ok(s', x) {
      if x != m.t {
        OthersHandled(s, x);
      } else if m.Register? {
        RegisterHandled(s, x);
      } else {
        RemoveHandled(s, x);
      }
    }
  }

  lemma ErrorOk(s: State, t: nat, x: nat)
    requires t in s.ts && x in s.ts && Ok(s, x)
    ensures x in ErrorOnce(s, t).ts && Ok(ErrorOnce(s, t), x)
  {
    hide Posted, Waiting;
  }

  lemma ErrorKeeps(s: State, t: nat)
    requires Inv(s) && t in s.ts
    ensures Inv(ErrorOnce(s, t))
  {
    hide Ok;
    var s' := ErrorOnce(s, t);
    forall x | x in s'.ts ensures Ok(s', x) {
      ErrorOk(s, t, x);
    }
  }

  lemma KickedOk(s: State, t: nat, x: nat)
    requires t in s.ts && x in s.ts && Ok(s, x)
    ensures Ok(Put(s, t, s.ts[t].(kicked := true)), x)
  {
    hide Posted, Waiting;
  }

  lemma KickKeeps(s: State, t: nat)
    requires Inv(s) && t in s.ts
    ensures Inv(KickNow(s, t))
  {
    hide Ok;
    if !s.ts[t].kicked {
      var s1 := Put(s, t, s.ts[t].(kicked := true));
      forall x | x in s1.ts ensures Ok(s1, x) {
        KickedOk(s, t, x);
      }
      ErrorKeeps(s1, t);
    }
  }

  lemma HandleKeeps(s: State, kick: bool)
    requires Inv(s) && Enabled(s, Handle(kick))
    ensures Inv(Next(s, Handle(kick)))
  {
    hide Inv, KickNow;
    HandledKeeps(s);
    KickKeeps(Handled(s), s.channel[0].t);
  }

  /** The reference count is 0 or 1, so CHECK_GT(ref_count, 0) of transport_unref never fires. */
  lemma RefCountHolds(s: State)
    requires Inv(s) && Enabled(s, RunClosure)
    ensures s.ts[s.closures[0]].refCount == 1 && s.ts[s.closures[0]].conn != Live
    ensures Waiting(s.queue, s.closures[0]) == 0 && !(s.inFlight.Some? && s.inFlight.value.t == s.closures[0])
  {
    hide Posted, Waiting;
    assert Ok(s, s.closures[0]);
    FirstClosure(s.closures, s.closures[0]);
  }

  lemma UnrefSelf(s: State, x: nat)
    requires Inv(s) && Enabled(s, RunClosure) && s.ts[s.closures[0]].refCount > 0 && x == s.closures[0]
    ensures x in Next(s, RunClosure).ts && Ok(Next(s, RunClosure), x)
  {
    hide Posted, Waiting, Known;
    RefCountHolds(s);
    FirstClosure(s.closures, x);
    PostedMore(s.channel, Remove(x), x);
    WaitingMore(s.queue, Attempt(x, MAX_ATTEMPTS), x);
    assert Ok(s, x);
  }

  lemma UnrefSame(s: State, t: nat, x: nat)
    requires t in s.ts && s.ts[t].refCount > 0 && s.ts[t].conn != Live && x in s.ts && x != t
    ensures Same(s, Unref(s, t), x)
  {
    hide Posted, Waiting;
    PostedMore(s.channel, Remove(t), x);
    WaitingMore(s.queue, Attempt(t, MAX_ATTEMPTS), x);
  }

  lemma UnrefOther(s: State, x: nat)
    requires Inv(s) && Enabled(s, RunClosure) && s.ts[s.closures[0]].refCount > 0 && x in s.ts && x != s.closures[0]
    ensures x in Next(s, RunClosure).ts && Ok(Next(s, RunClosure), x)
  {
    hide Posted, Waiting, Known, Ok, Unref;
    var t, s1 := s.closures[0], s.(closures := s.closures[1..]);
    RefCountHolds(s);
    FirstClosure(s.closures, x);
    SameOk(s, s1, x);
    UnrefSame(s1, t, x);
    SameOk(s1, Unref(s1, t), x);
  }

  lemma UnrefKeeps(s: State)
    requires Inv(s) && Enabled(s, RunClosure) && s.ts[s.closures[0]].refCount > 0
    ensures Inv(Next(s, RunClosure))
  {
    hide Ok, Waiting;
    var s' := Next(s, RunClosure);
    RefCountHolds(s);
    forall k | 0 <= k < |s.queue| ensures s.queue[k].t != s.closures[0] {
      IsWaiting(s.queue, k);
    }
    forall x | x in s'.ts ensures Ok(s', x) {
      if x == s.closures[0] {
        UnrefSelf(s, x);
      } else {
        UnrefOther(s, x);
      }
    }
  }

  /** An attempt that waits is the only place its transport is. */
  lemma OnlyWaiting(s: State, k: nat)
    requires Inv(s) && k < |s.queue| && s.queue[k].t in s.ts
    ensures forall j :: 0 <= j < |Cut(s.queue, k)| ==> Cut(s.queue, k)[j].t != s.queue[k].t
    ensures s.inFlight.Some? ==> s.inFlight.value.t != s.queue[k].t
    ensures s.ts[s.queue[k].t].conn != Live && Register(s.queue[k].t) !in s.channel
  {
    hide Waiting;
    var t := s.queue[k].t;
    assert Ok(s, t);
    WaitingCut(s.queue, k, t);
    forall j | 0 <= j < |Cut(s.queue, k)| ensures Cut(s.queue, k)[j].t != t {
      if Cut(s.queue, k)[j].t == t {
        IsWaiting(Cut(s.queue, k), j);
      }
    }
  }

  lemma TakenOk(s: State, k: nat, x: nat)
    requires Inv(s) && k < |s.queue| && s.queue[k].t in s.ts && x in s.ts && s.inFlight.None?
    ensures Enabled(s, Evict(k)) ==> Ok(Next(s, Evict(k)), x)
    ensures Enabled(s, Pick(k)) ==> Ok(Next(s, Pick(k)), x)
  {
    hide Posted, Waiting;
    assert Ok(s, x);
    WaitingCut(s.queue, k, x);
    PostedMore(s.channel, Remove(s.queue[k].t), x);
    assert s.ts[s.queue[k].t].calls + s.queue[k].left == MAX_ATTEMPTS;
  }

  lemma EvictKeeps(s: State, k: nat)
    requires Inv(s) && Enabled(s, Evict(k))
    ensures Inv(Next(s, Evict(k)))
  {
    hide Ok;
    var s' := Next(s, Evict(k));
    OnlyWaiting(s, k);
    forall x | x in s'.ts ensures Ok(s', x) {
      TakenOk(s, k, x);
    }
  }

  lemma PickKeeps(s: State, k: nat)
    requires Inv(s) && Enabled(s, Pick(k))
    ensures Inv(Next(s, Pick(k)))
  {
    hide Ok;
    var s' := Next(s, Pick(k));
    OnlyWaiting(s, k);
    forall x | x in s'.ts ensures Ok(s', x) {
      TakenOk(s, k, x);
    }
  }

  lemma OthersSettled(s: State, r: Result, x: nat)
    requires Inv(s) && Enabled(s, Finish(r)) && x in s.ts && x != s.inFlight.value.t
    ensures x in Next(s, Finish(r)).ts && Ok(Next(s, Finish(r)), x)
  {
    hide Posted, Waiting, Known, Ok;
    var a := s.inFlight.value;
    PostedMore(s.channel, Remove(a.t), x);
    PostedMore(s.channel, Register(a.t), x);
    if a.left > 0 {
      WaitingMore(s.queue, Attempt(a.t, a.left - 1), x);
    }
    SameOk(s, Next(s, Finish(r)), x);
  }

  lemma AttemptSettled(s: State, r: Result, x: nat)
    requires Inv(s) && Enabled(s, Finish(r)) && x == s.inFlight.value.t
    ensures Ok(Next(s, Finish(r)), x)
  {
    hide Posted, Waiting;
    var a := s.inFlight.value;
    assert Tracked(s, a, MAX_ATTEMPTS + 1);
    hide Known;
    assert Ok(s, x);
    PostedMore(s.channel, Remove(x), x);
    PostedMore(s.channel, Register(x), x);
    if a.left > 0 {
      WaitingMore(s.queue, Attempt(x, a.left - 1), x);
    }
  }

  lemma FinishKeeps(s: State, r: Result)
    requires Inv(s) && Enabled(s, Finish(r))
    ensures Inv(Next(s, Finish(r)))
  {
    hide Ok;
    var s' := Next(s, Finish(r));
    forall x | x in s'.ts ensures Ok(s', x) {
      if x == s.inFlight.value.t {
        AttemptSettled(s, r, x);
      } else {
        OthersSettled(s, r, x);
      }
    }
  }

  lemma StopKeeps(s: State)
    requires Inv(s)
    ensures Enabled(s, StopRequest) ==> Inv(Next(s, StopRequest))
    ensures Enabled(s, StopJoin) ==> Inv(Next(s, StopJoin))
  {
    hide Posted;
    var s1, s2 := s.(running := false), s.(joined := true, queue := [], channel := s.channel + Removes(s.queue));
    forall x | x in s.ts ensures Ok(s1, x) && Ok(s2, x) {
      assert Ok(s, x);
      PostedRemoves(s.channel, s.queue, x);
    }
  }

  lemma NextKeeps(s: State, a: Action)
    requires Inv(s) && Enabled(s, a)
    ensures a.RunClosure? ==> s.ts[s.closures[0]].refCount > 0
    ensures Inv(Next(s, a))
  {
    hide Inv, Next;
    match a
    case New(t, tcp, noPerm) => NewKeeps(s, t, tcp, noPerm);
    case Handle(kick) => HandleKeeps(s, kick);
    case Fail(t) => FailKeeps(s, t);
    case Kick(t) => KickStepKeeps(s, t);
    case RunClosure => RefCountHolds(s); UnrefKeeps(s);
    case Evict(k) => EvictKeeps(s, k);
    case Pick(k) => PickKeeps(s, k);
    case Finish(r) => FinishKeeps(s, r);
    case StopRequest => StopKeeps(s);
    case StopJoin => StopKeeps(s);
  }

  lemma KickStepKeeps(s: State, t: nat)
    requires Inv(s) && Enabled(s, Kick(t))
    ensures Inv(Next(s, Kick(t)))
  {
    hide Inv;
    KickKeeps(s, t);
  }

  lemma FailKeeps(s: State, t: nat)
    requires Inv(s) && Enabled(s, Fail(t))
    ensures Inv(Next(s, Fail(t)))
  {
    ErrorKeeps(s, t);
  }

  // ----- whole runs

  /** A run that stops short of a failing check. */
  predicate IsRun(s: State, run: seq<Action>)
    decreases |run|
  {
    run != [] ==>
      && Enabled(s, run[0]) && (run[0].RunClosure? ==> s.ts[s.closures[0]].refCount > 0)
      && IsRun(Next(s, run[0]), run[1..])
  }

  function Final(s: State, run: seq<Action>): State
    requires IsRun(s, run)
    decreases |run|
  {
    if run == [] then s else Final(Next(s, run[0]), run[1..])
  }

  ghost predicate Reachable(s: State) {
    exists run :: IsRun(INIT, run) && Final(INIT, run) == s
  }

  lemma {:induction false} RunKeeps(s: State, run: seq<Action>)
    requires Inv(s) && IsRun(s, run)
    ensures Inv(Final(s, run))
    decreases |run|
  {
    hide Inv, Next;
    if run != [] {
      NextKeeps(s, run[0]);
      RunKeeps(Next(s, run[0]), run[1..]);
    }
  }

  lemma ReachableInv(s: State)
    requires Reachable(s)
    ensures Inv(s)
  {
    var run :| IsRun(INIT, run) && Final(INIT, run) == s;
    RunKeeps(INIT, run);
  }

  /** Every transport is in exactly one place, and referenced exactly while its connection lives or closure waits. */
  lemma OneToken(s: State, t: nat)
    requires Reachable(s) && t in s.ts
    ensures Tokens(s, t) == 1
    ensures s.ts[t].refCount <= 1
    ensures s.ts[t].refCount == 1 <==> s.ts[t].conn == Live || t in s.closures
  {
    hide Reachable, Posted, Waiting;
    ReachableInv(s);
    assert Ok(s, t);
  }

  /** Deleted at most once, and then in neither list, and nothing anywhere still leads to it. */
  lemma DeletedForGood(s: State, t: nat)
    requires Reachable(s) && t in s.ts && s.ts[t].deleted > 0
    ensures s.ts[t].deleted == 1 && t !in s.pending && t !in s.listed
    ensures Register(t) !in s.channel && Remove(t) !in s.channel && t !in s.closures && s.ts[t].conn != Live
    ensures (forall k :: 0 <= k < |s.queue| ==> s.queue[k].t != t) && (s.inFlight.Some? ==> s.inFlight.value.t != t)
  {
    ReachableInv(s);
    assert Ok(s, t);
    forall k | 0 <= k < |s.queue| ensures s.queue[k].t != t {
      if s.queue[k].t == t {
        IsWaiting(s.queue, k);
      }
    }
  }

  /** Each tracking makes at most kMaxAttempts + 1 Reconnect calls. */
  lemma BoundedReconnects(s: State, t: nat)
    requires Reachable(s) && t in s.ts
    ensures s.ts[t].calls <= MAX_ATTEMPTS + 1
  {
    ReachableInv(s);
    assert Ok(s, t);
  }

  /** No check fails in any run: the closure that runs finds a reference, the connection that starts is fresh. */
  lemma ChecksHold(s: State)
    requires Reachable(s)
    ensures Enabled(s, RunClosure) ==> s.ts[s.closures[0]].refCount == 1
    ensures Enabled(s, Handle(false)) && s.channel[0].Register? ==> s.ts[s.channel[0].t].conn == Idle
  {
    hide Reachable, Posted, Waiting;
    ReachableInv(s);
    if Enabled(s, RunClosure) {
      RefCountHolds(s);
    }
    if Enabled(s, Handle(false)) {
      assert Ok(s, s.channel[0].t) && s.channel[0] in s.channel;
    }
  }

  // ----- when a kick is lost

  predicate InFlight(s: State, t: nat) {
    s.inFlight.Some? && s.inFlight.value.t == t
  }

  /** Some way to go on gives t a live connection. */
  ghost predicate CanLive(s: State, t: nat) {
    exists run :: IsRun(s, run) && t in Final(s, run).ts && Final(s, run).ts[t].conn == Live
  }

  /** Kicked, without a connection, and without a registration or an attempt that could bring one. */
  predicate Doomed(s: State, t: nat) {
    t in s.ts && s.ts[t].kicked && s.ts[t].conn != Live && Register(t) !in s.channel && !InFlight(s, t)
  }

  lemma DoomedHandle(s: State, kick: bool, t: nat)
    requires Enabled(s, Handle(kick)) && Doomed(s, t)
    ensures Doomed(Next(s, Handle(kick)), t)
  {
    assert s.channel[0] in s.channel;
    assert forall m :: m in s.channel[1..] ==> m in s.channel;
  }

  lemma DoomedPut(s: State, u: nat, x: Transport, t: nat)
    requires Doomed(s, t) && u in s.ts && (u == t ==> x.kicked && x.conn != Live)
    ensures Doomed(Put(s, u, x), t)
  {
  }

  lemma DoomedClosure(s: State, t: nat)
    requires Enabled(s, RunClosure) && Doomed(s, t)
    requires s.ts[s.closures[0]].refCount == 1 && s.ts[s.closures[0]].conn != Live
    ensures Doomed(Next(s, RunClosure), t)
  {
    var s0, u := s.(closures := s.closures[1..]), s.closures[0];
    assert Doomed(s0, t);
    var x := s.ts[u].(refCount := 0);
    DoomedPut(s0, u, x, t);
    var s1 := Put(s0, u, x);
    assert Next(s, RunClosure) ==
      if !(x.tcp && !x.kicked) then s1.(channel := s1.channel + [Remove(u)])
      else if !s1.running then Put(s1, u, x.(dropped := true))
      else Put(s1, u, x.(calls := 0)).(queue := s1.queue + [Attempt(u, MAX_ATTEMPTS)]);
    DoomedPut(s1, u, x.(dropped := true), t);
    DoomedPut(s1, u, x.(calls := 0), t);
  }

  lemma DoomedAttempt(s: State, a: Action, t: nat)
    requires Enabled(s, a) && Doomed(s, t) && (a.Evict? || a.Pick? || a.Finish?)
    ensures Doomed(Next(s, a), t)
  {
  }

  lemma DoomedStep(s: State, a: Action, t: nat)
    requires Inv(s) && Enabled(s, a) && Doomed(s, t)
    ensures a.RunClosure? ==> s.ts[s.closures[0]].refCount > 0
    ensures Doomed(Next(s, a), t)
  {
    hide Inv;
    match a
    case Handle(kick) => DoomedHandle(s, kick, t);
    case RunClosure => RefCountHolds(s); DoomedClosure(s, t);
    case Evict(_) => DoomedAttempt(s, a, t);
    case Pick(_) => DoomedAttempt(s, a, t);
    case Finish(_) => DoomedAttempt(s, a, t);
    case StopJoin => hide Posted, Waiting; PostedRemoves(s.channel, s.queue, t);
    case _ =>
  }

  lemma {:induction false} DoomedRun(s: State, run: seq<Action>, t: nat)
    requires Inv(s) && Doomed(s, t) && IsRun(s, run)
    ensures Doomed(Final(s, run), t)
    decreases |run|
  {
    hide Inv, Doomed, Next, Enabled;
    if run != [] {
      DoomedStep(s, run[0], t);
      NextKeeps(s, run[0]);
      DoomedRun(Next(s, run[0]), run[1..], t);
    }
  }

  /** Handling the head of the channel starts t, or leaves its registration on the way. */
  lemma HandlesNext(s: State, t: nat)
    requires Inv(s) && s.MainFree() && Register(t) in s.channel && t in s.ts && !s.ts[t].noPerm
    ensures Enabled(s, Handle(false)) && Inv(Handled(s)) && t in Handled(s).ts && |Handled(s).channel| < |s.channel|
    ensures
      if s.channel[0] == Register(t) then Handled(s).ts[t].conn == Live
      else Register(t) in Handled(s).channel && !Handled(s).ts[t].noPerm && Handled(s).MainFree()
  {
    hide Ok;
    assert s.channel[0] in s.channel;
    HandledKeeps(s);
    hide Inv;
    assert s.channel == [s.channel[0]] + s.channel[1..];
  }

  /** A registration on its way will be handled. */
  lemma {:induction false} RegisteredLives(s: State, t: nat)
    requires Inv(s) && s.MainFree() && Register(t) in s.channel && t in s.ts && !s.ts[t].noPerm
    ensures CanLive(s, t)
    decreases |s.channel|
  {
    HandlesNext(s, t);
    var s1, a := Handled(s), Handle(false);
    assert Next(s, a) == s1;
    hide Inv, Next, Enabled;
    if s.channel[0] == Register(t) {
      assert IsRun(s1, []) && Final(s1, []) == s1;
      LivesEarlier(s, a, [], t);
    } else {
      RegisteredLives(s1, t);
      var run :| IsRun(s1, run) && t in Final(s1, run).ts && Final(s1, run).ts[t].conn == Live;
      LivesEarlier(s, a, run, t);
    }
  }

  lemma LivesEarlier(s: State, a: Action, run: seq<Action>, t: nat)
    requires Enabled(s, a) && !a.RunClosure? && IsRun(Next(s, a), run)
    requires t in Final(Next(s, a), run).ts && Final(Next(s, a), run).ts[t].conn == Live
    ensures CanLive(s, t)
  {
    hide Next, Enabled;
    assert ([a] + run)[1..] == run;
    assert IsRun(s, [a] + run) && Final(s, [a] + run) == Final(Next(s, a), run);
  }

  /** An attempt in flight may succeed. */
  lemma AttemptLives(s: State, t: nat)
    requires Inv(s) && s.MainFree() && InFlight(s, t)
    ensures CanLive(s, t)
  {
    var a := Finish(Success);
    assert Tracked(s, s.inFlight.value, MAX_ATTEMPTS + 1) && Ok(s, t);
    FinishKeeps(s, Success);
    var s1 := Next(s, a);
    PostedMore(s.channel, Register(t), t);
    hide Inv, Posted, Waiting;
    RegisteredLives(s1, t);
    var run :| IsRun(s1, run) && t in Final(s1, run).ts && Final(s1, run).ts[t].conn == Live;
    LivesEarlier(s, a, run, t);
  }

  /**
   A kick is lost, that is its transport can have a live connection again, exactly if a registration of the
   transport is on its way or an attempt to reconnect it is in flight.
   */
  lemma KickIsLost(s: State, t: nat)
    requires Reachable(s) && Enabled(s, Kick(t)) && !s.ts[t].kicked
    ensures CanLive(Next(s, Kick(t)), t) <==> Register(t) in s.channel || InFlight(s, t)
  {
    hide Reachable, Posted, Waiting;
    ReachableInv(s);
    assert Ok(s, t);
    KickStepKeeps(s, t);
    var s1 := Next(s, Kick(t));
    hide Inv;
    if Register(t) in s.channel {
      RegisteredLives(s1, t);
    } else if InFlight(s, t) {
      AttemptLives(s1, t);
    } else {
      forall run | IsRun(s1, run) ensures Doomed(Final(s1, run), t) {
        DoomedRun(s1, run, t);
      }
    }
  }

  /** No later kick makes up for it. */
  lemma SecondKickDoesNothing(s: State, t: nat)
    requires Enabled(s, Kick(t)) && s.ts[t].kicked
    ensures Next(s, Kick(t)) == s
  {
  }

  lemma {:induction false} RunMore(s: State, run: seq<Action>, a: Action)
    requires IsRun(s, run) && Enabled(Final(s, run), a)
    requires a.RunClosure? ==> Final(s, run).ts[Final(s, run).closures[0]].refCount > 0
    ensures IsRun(s, run + [a]) && Final(s, run + [a]) == Next(Final(s, run), a)
    decreases |run|
  {
    hide Next, Enabled;
    if run == [] {
      assert run + [a] == [a] && [a][1..] == [];
      assert IsRun(Next(s, a), []);
    } else {
      assert (run + [a])[1..] == run[1..] + [a];
      RunMore(Next(s, run[0]), run[1..], a);
    }
  }

  lemma ReachMore(s: State, a: Action)
    requires Reachable(s) && Enabled(s, a)
    ensures a.RunClosure? ==> s.ts[s.closures[0]].refCount > 0
    ensures Reachable(Next(s, a))
  {
    hide Next, Enabled, Inv;
    ReachableInv(s);
    NextKeeps(s, a);
    var run :| IsRun(INIT, run) && Final(INIT, run) == s;
    RunMore(INIT, run, a);
  }

  const FRESH := Transport(true, false, 0, false, Idle, false, false, 0, 0)

  /** Only transport 1, a listed one unless its first registration is still to come. */
  function One(x: Transport, isPending: bool, channel: seq<Msg>, closures: seq<nat>, queue: seq<Attempt>,
               f: Option<Attempt>): State
  {
    State(map[1 := x], if isPending then {1} else {}, if isPending then {} else {1},
          channel, closures, queue, f, true, false)
  }

  lemma Starts()
    ensures Reachable(One(FRESH.(refCount := 1, conn := Live), false, [], [], [], None))
  {
    assert Reachable(INIT) by { assert IsRun(INIT, []) && Final(INIT, []) == INIT; }
    var s := One(FRESH, true, [Register(1)], [], [], None);
    assert Next(INIT, New(1, true, false)) == s;
    assert Next(s, Handle(false)) == One(FRESH.(refCount := 1, conn := Live), false, [], [], [], None);
    hide Reachable;
    ReachMore(INIT, New(1, true, false));
    ReachMore(s, Handle(false));
  }

  lemma Breaks()
    ensures Reachable(One(FRESH.(conn := Broken), false, [], [], [Attempt(1, 6)], None))
  {
    hide Reachable;
    Starts();
    var s := One(FRESH.(refCount := 1, conn := Live), false, [], [], [], None);
    var s1 := One(FRESH.(refCount := 1, conn := Broken), false, [], [1], [], None);
    assert Next(s, Fail(1)) == s1;
    assert Next(s1, RunClosure) == One(FRESH.(conn := Broken), false, [], [], [Attempt(1, 6)], None);
    ReachMore(s, Fail(1));
    ReachMore(s1, RunClosure);
  }

  lemma Attempts()
    ensures Reachable(One(FRESH.(conn := Broken, calls := 1), false, [], [], [], Some(Attempt(1, 6))))
  {
    hide Reachable;
    Breaks();
    var s := One(FRESH.(conn := Broken), false, [], [], [Attempt(1, 6)], None);
    assert Next(s, Pick(0)) == One(FRESH.(conn := Broken, calls := 1), false, [], [], [], Some(Attempt(1, 6)));
    ReachMore(s, Pick(0));
  }

  lemma Reconnects()
    ensures Reachable(One(FRESH.(calls := 1), false, [Register(1)], [], [], None))
  {
    hide Reachable;
    Attempts();
    var s := One(FRESH.(conn := Broken, calls := 1), false, [], [], [], Some(Attempt(1, 6)));
    assert Next(s, Finish(Success)) == One(FRESH.(calls := 1), false, [Register(1)], [], [], None);
    ReachMore(s, Finish(Success));
  }

  /** A kick while Reconnect runs is lost. */
  lemma KickInFlightIsLost()
    ensures exists s, t ::
      && Reachable(s) && Enabled(s, Kick(t)) && !s.ts[t].kicked && Register(t) !in s.channel
      && CanLive(Next(s, Kick(t)), t)
  {
    Attempts();
    var s := One(FRESH.(conn := Broken, calls := 1), false, [], [], [], Some(Attempt(1, 6)));
    assert Enabled(s, Kick(1)) && InFlight(s, 1);
    KickIsLost(s, 1);
    hide Reachable, CanLive, Next;
    assert Reachable(s) && CanLive(Next(s, Kick(1)), 1);
  }

  /** So is one after it, until the registration starts the new connection; from then on no kick does anything. */
  lemma KickCanBeLost()
    ensures exists s, t ::
      Reachable(s) && Enabled(s, Kick(t)) && s.ts[t].kicked && s.ts[t].conn == Live && Next(s, Kick(t)) == s
  {
    hide Reachable;
    Reconnects();
    var s := One(FRESH.(calls := 1), false, [Register(1)], [], [], None);
    var s1 := One(FRESH.(calls := 1, kicked := true), false, [Register(1)], [], [], None);
    var s2 := One(FRESH.(calls := 1, kicked := true, refCount := 1, conn := Live), false, [], [], [], None);
    assert Next(s, Kick(1)) == s1;
    assert Next(s1, Handle(false)) == s2;
    ReachMore(s, Kick(1));
    ReachMore(s1, Handle(false));
    assert Reachable(s2) && Enabled(s2, Kick(1)) && Next(s2, Kick(1)) == s2;
  }
}
