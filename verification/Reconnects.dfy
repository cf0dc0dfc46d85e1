/**
 What each step of the life of a transport decides, for every state that can be reached, and how often a transport
 that keeps failing is tried again: exactly MAX_ATTEMPTS + 1 times.
 */
module Reconnects {
  import opened Seqs
  import opened Wire
  import opened Transports

  /** Where transport t is now. */
  predicate ToRegister(s: State, t: nat) { Register(t) in s.channel }

  predicate ToRemove(s: State, t: nat) { Remove(t) in s.channel }

  predicate InQueue(s: State, t: nat) { exists k :: 0 <= k < |s.queue| && s.queue[k].t == t }

  predicate Running(s: State, t: nat) { t in s.ts && s.ts[t].conn == Live }

  lemma {:induction false} WaitingIs(q: seq<Attempt>, t: nat)
    ensures Waiting(q, t) > 0 <==> exists k :: 0 <= k < |q| && q[k].t == t
  {
    if exists k :: 0 <= k < |q| && q[k].t == t {
      var k :| 0 <= k < |q| && q[k].t == t;
      IsWaiting(q, k);
    } else {
      NotWaiting(q, t);
    }
  }

  lemma RemoveCounts(c: seq<Msg>, t: nat)
    ensures Register(t) in c || Remove(t) in c <==> Posted(c, t) > 0
    ensures Register(t) in c && Remove(t) in c ==> Posted(c, t) > 1
  {
  }

  /** A transport is in one place only. */
  lemma OnePlace(s: State, t: nat)
    requires Inv(s) && t in s.ts
    ensures InQueue(s, t) ==> !InFlight(s, t) && !ToRegister(s, t) && !ToRemove(s, t) && !Running(s, t)
    ensures InFlight(s, t) ==> !ToRegister(s, t) && !ToRemove(s, t) && !Running(s, t)
    ensures ToRegister(s, t) ==> !ToRemove(s, t) && !Running(s, t)
    ensures ToRemove(s, t) ==> !Running(s, t)
    ensures s.ts[t].deleted > 0 ==> !InQueue(s, t) && !InFlight(s, t) && !ToRegister(s, t) && !ToRemove(s, t)
    ensures t in s.closures ==> !InQueue(s, t) && !InFlight(s, t) && !ToRegister(s, t) && !ToRemove(s, t)
  {
    hide Waiting;
    assert Ok(s, t);
    WaitingIs(s.queue, t);
    RemoveCounts(s.channel, t);
    if t in s.closures {
      assert multiset(s.closures)[t] > 0;
    }
  }

  // ----- the answers of Reconnect

  /** Retry: another attempt is queued, or, after the last one, the transport is removed. */
  lemma RetryDecides(s: State)
    requires Inv(s) && Enabled(s, Finish(Retry))
    ensures
      var (t, n) := (s.inFlight.value.t, Next(s, Finish(Retry)));
      && t in n.ts && n.ts[t].calls == s.ts[t].calls && !InFlight(n, t) && !ToRegister(n, t)
      && (ToRemove(n, t) <==> s.ts[t].calls == MAX_ATTEMPTS + 1)
      && (InQueue(n, t) <==> s.ts[t].calls < MAX_ATTEMPTS + 1)
  {
    var a := s.inFlight.value;
    OnePlace(s, a.t);
    hide Ok;
    var n := Next(s, Finish(Retry));
    if a.left > 0 {
      assert n.queue[|s.queue|].t == a.t;
    } else {
      assert n.channel[|s.channel|] == Remove(a.t);
    }
  }

  /** Success: the transport is registered again, with a connection not started yet. */
  lemma SuccessDecides(s: State)
    requires Inv(s) && Enabled(s, Finish(Success))
    ensures
      var (t, n) := (s.inFlight.value.t, Next(s, Finish(Success)));
      && t in n.ts && ToRegister(n, t) && !ToRemove(n, t) && !InQueue(n, t) && !InFlight(n, t) && n.ts[t].conn == Idle
  {
    var t := s.inFlight.value.t;
    OnePlace(s, t);
    hide Ok;
    assert Next(s, Finish(Success)).channel[|s.channel|] == Register(t);
  }

  /** Abort: it is removed. */
  lemma AbortDecides(s: State)
    requires Inv(s) && Enabled(s, Finish(Abort))
    ensures
      var (t, n) := (s.inFlight.value.t, Next(s, Finish(Abort)));
      && t in n.ts && ToRemove(n, t) && !ToRegister(n, t) && !InQueue(n, t) && !InFlight(n, t)
  {
    var t := s.inFlight.value.t;
    OnePlace(s, t);
    hide Ok;
    assert Next(s, Finish(Abort)).channel[|s.channel|] == Remove(t);
  }

  // ----- the end of a connection

  /**
   After its error closure a transport is tracked, exactly if it is a network one that nobody kicked and the handler
   runs; it is forgotten if the handler does not run, and removed otherwise.
   */
  lemma ClosureDecides(s: State)
    requires Inv(s) && Enabled(s, RunClosure)
    ensures s.ts[s.closures[0]].refCount > 0
    ensures
      var (t, n) := (s.closures[0], Next(s, RunClosure));
      var again := s.ts[t].tcp && !s.ts[t].kicked;
      && t in n.ts && n.ts[t].refCount == 0 && !Running(n, t) && !ToRegister(n, t)
      && (InQueue(n, t) <==> again && s.running) && (InQueue(n, t) ==> n.ts[t].calls == 0)
      && (n.ts[t].dropped <==> again && !s.running) && (ToRemove(n, t) <==> !again)
  {
    var t := s.closures[0];
    RefCountHolds(s);
    assert t in s.closures && Ok(s, t);
    OnePlace(s, t);
    FirstClosure(s.closures, t);
    assert !s.ts[t].dropped by { hide Posted, Waiting; }
    var n := Next(s, RunClosure);
    hide Ok;
    if !(s.ts[t].tcp && !s.ts[t].kicked) {
      assert n.channel[|s.channel|] == Remove(t);
    } else if s.running {
      assert n.queue[|s.queue|].t == t;
    }
  }

  /** A read or write thread that fails: only a running connection ends, once, and its closure is posted. */
  lemma FailDecides(s: State, t: nat)
    requires Inv(s) && Enabled(s, Fail(t))
    ensures
      var n := Next(s, Fail(t));
      && t in n.ts && !Running(n, t) && n.closures == s.closures + (if Running(s, t) then [t] else [])
      && n.ts[t].kicked == s.ts[t].kicked && n.channel == s.channel && n.queue == s.queue
  {
    assert s.closures + [] == s.closures;
  }

  /** The first kick ends a running connection the same way, and the transport stays kicked. */
  lemma KickDecides(s: State, t: nat)
    requires Inv(s) && Enabled(s, Kick(t))
    ensures
      var n := Next(s, Kick(t));
      && t in n.ts && n.ts[t].kicked
      && n.closures == s.closures + (if !s.ts[t].kicked && Running(s, t) then [t] else [])
      && n.channel == s.channel && n.queue == s.queue && n.inFlight == s.inFlight
  {
    assert s.closures + [] == s.closures;
  }

  // ----- the registration channel

  /**
   A registration starts the connection and makes a pending transport a listed one, unless its device may not be
   opened; a removal deletes it.
   */
  lemma HandleDecides(s: State)
    requires Inv(s) && Enabled(s, Handle(false))
    ensures
      var (m, n) := (s.channel[0], Next(s, Handle(false)));
      && n.channel == s.channel[1..] && m.t in n.ts && m.t !in n.pending
      && (m.Register? ==> (Running(n, m.t) <==> !s.ts[m.t].noPerm) && n.ts[m.t].deleted == 0)
      && (m.Register? ==> (m.t in n.listed <==> m.t in s.listed || m.t in s.pending))
      && (m.Remove? ==> n.ts[m.t].deleted == 1 && m.t !in n.listed && !Running(n, m.t))
      && forall u :: u != m.t ==> (u in n.listed <==> u in s.listed) && (u in n.pending <==> u in s.pending)
  {
    var m := s.channel[0];
    assert m in s.channel && Ok(s, m.t);
    OnePlace(s, m.t);
    hide Posted, Waiting;
    RemoveMeans(s, m);
  }

  /** A send_connect that fails kicks the transport it has just started. */
  lemma HandleKicks(s: State)
    requires Inv(s) && Enabled(s, Handle(true)) && s.channel[0].Register? && !s.ts[s.channel[0].t].noPerm
    requires !s.ts[s.channel[0].t].kicked
    ensures
      var (t, n) := (s.channel[0].t, Next(s, Handle(true)));
      t in n.ts && n.ts[t].kicked && !Running(n, t) && n.closures == s.closures + [t] && n.channel == s.channel[1..]
  {
  }

  lemma RemoveMeans(s: State, m: Msg)
    requires Inv(s) && m in s.channel
    ensures m.t in s.ts && s.ts[m.t].deleted == 0 && s.ts[m.t].conn != Live && (m.Remove? ==> m.t !in s.pending)
  {
    assert Ok(s, m.t);
    RemoveCounts(s.channel, m.t);
    OnePlace(s, m.t);
    hide Waiting;
  }

  /** A new transport is pending, and its registration on the way. */
  lemma NewDecides(s: State, t: nat, tcp: bool, noPerm: bool)
    requires Inv(s) && Enabled(s, New(t, tcp, noPerm))
    ensures
      var n := Next(s, New(t, tcp, noPerm));
      && t in n.ts && t in n.pending && t !in n.listed && n.channel == s.channel + [Register(t)]
      && n.ts[t].tcp == tcp && n.ts[t].noPerm == noPerm && !n.ts[t].kicked && n.ts[t].conn == Idle
      && forall u :: u in s.ts ==> n.ts[u] == s.ts[u]
  {
    Unknown(s, t);
  }

  // ----- the handler

  /** The scan takes a kicked transport from the queue for good. */
  lemma EvictDecides(s: State, k: nat)
    requires Inv(s) && Enabled(s, Evict(k))
    ensures
      var (t, n) := (s.queue[k].t, Next(s, Evict(k)));
      s.ts[t].kicked && ToRemove(n, t) && !InQueue(n, t)
  {
    var t := s.queue[k].t;
    assert Ok(s, t);
    hide Posted;
    WaitingIs(s.queue, t);
    WaitingCut(s.queue, k, t);
    WaitingIs(Cut(s.queue, k), t);
    assert Next(s, Evict(k)).channel[|s.channel|] == Remove(t);
  }

  /** Any other one is tried. */
  lemma PickDecides(s: State, k: nat)
    requires Inv(s) && Enabled(s, Pick(k))
    ensures
      var (t, n) := (s.queue[k].t, Next(s, Pick(k)));
      !s.ts[t].kicked && InFlight(n, t) && !InQueue(n, t) && t in n.ts && n.ts[t].calls == s.ts[t].calls + 1
  {
    var t := s.queue[k].t;
    assert Ok(s, t);
    hide Posted;
    WaitingIs(s.queue, t);
    WaitingCut(s.queue, k, t);
    WaitingIs(Cut(s.queue, k), t);
  }

  /** Stop removes all that wait. */
  lemma StopDecides(s: State, t: nat)
    requires Inv(s) && Enabled(s, StopJoin) && InQueue(s, t)
    ensures ToRemove(Next(s, StopJoin), t) && Next(s, StopJoin).queue == []
  {
    var k :| 0 <= k < |s.queue| && s.queue[k].t == t;
    assert Next(s, StopJoin).channel[|s.channel| + k] == Remove(t);
  }

  // ----- how often

  /** Nobody kicks t, the handler goes on, and every Reconnect of t answers Retry. */
  predicate Patient(s: State, a: Action, t: nat) {
    a != Kick(t) && !a.StopRequest? && (a.Finish? && InFlight(s, t) ==> a.r == Retry)
  }

  predicate AlwaysPatient(s: State, run: seq<Action>, t: nat)
    requires IsRun(s, run)
    decreases |run|
  {
    run != [] ==> Patient(s, run[0], t) && AlwaysPatient(Next(s, run[0]), run[1..], t)
  }

  /** The handler calls Reconnect of t. */
  predicate Calls(s: State, a: Action, t: nat) {
    a.Pick? && a.k < |s.queue| && s.queue[a.k].t == t
  }

  /** How often it does so in a run. */
  function CallsOf(s: State, run: seq<Action>, t: nat): nat
    requires IsRun(s, run)
    decreases |run|
  {
    if run == [] then 0
    else Bit(Calls(s, run[0], t)) + CallsOf(Next(s, run[0]), run[1..], t)
  }

  /** After c calls: waiting for the next one, in it, or removed after the last. */
  predicate Trying(s: State, t: nat, c: nat) {
    && t in s.ts && s.running && !s.ts[t].kicked && s.ts[t].calls == c
    && ((InQueue(s, t) && c <= MAX_ATTEMPTS) || (InFlight(s, t) && 0 < c <= MAX_ATTEMPTS + 1)
        || ((ToRemove(s, t) || s.ts[t].deleted > 0) && c == MAX_ATTEMPTS + 1))
  }

  predicate Removed(s: State, t: nat) {
    t in s.ts && (ToRemove(s, t) || s.ts[t].deleted > 0)
  }

  lemma HandleShape(s: State, kick: bool)
    requires Enabled(s, Handle(kick))
    ensures
      var (m, n) := (s.channel[0], Next(s, Handle(kick)));
      && n.queue == s.queue && n.inFlight == s.inFlight && n.running == s.running && n.channel == s.channel[1..]
      && (forall u :: u in s.ts ==> u in n.ts && (u != m.t ==> n.ts[u] == s.ts[u]))
      && (m.Remove? ==> n.ts[m.t] == s.ts[m.t].(deleted := s.ts[m.t].deleted + 1))
  {
  }

  lemma TryingHandle(s: State, kick: bool, t: nat, c: nat)
    requires Inv(s) && Enabled(s, Handle(kick)) && Trying(s, t, c)
    ensures Trying(Next(s, Handle(kick)), t, c)
  {
    var m, n := s.channel[0], Next(s, Handle(kick));
    HandleShape(s, kick);
    OnePlace(s, t);
    hide Inv, Next, Enabled;
    assert m in s.channel && s.channel == [m] + s.channel[1..];
    assert m.t == t ==> m == Remove(t);
    assert ToRemove(s, t) && m.t != t ==> Remove(t) in n.channel;
    assert InQueue(s, t) ==> InQueue(n, t);
  }

  lemma TryingClosure(s: State, t: nat, c: nat)
    requires Inv(s) && Enabled(s, RunClosure) && Trying(s, t, c)
    ensures s.ts[s.closures[0]].refCount > 0 && Trying(Next(s, RunClosure), t, c)
  {
    RefCountHolds(s);
    OnePlace(s, t);
    assert s.closures[0] in s.closures;
    hide Inv, Posted, Waiting;
    var n, u := Next(s, RunClosure), s.closures[0];
    assert n.ts[t] == s.ts[t] && n.inFlight == s.inFlight;
    assert s.queue <= n.queue && s.channel <= n.channel;
    Kept(s, n, t);
  }

  lemma Kept(s: State, n: State, t: nat)
    requires s.queue <= n.queue && s.channel <= n.channel
    ensures (InQueue(s, t) ==> InQueue(n, t)) && (ToRemove(s, t) ==> ToRemove(n, t))
  {
    if InQueue(s, t) {
      var k :| 0 <= k < |s.queue| && s.queue[k].t == t;
      assert n.queue[k].t == t;
    }
  }

  lemma TryingPicked(s: State, k: nat, t: nat, c: nat)
    requires Inv(s) && Enabled(s, Pick(k)) && Trying(s, t, c) && s.queue[k].t == t
    ensures Trying(Next(s, Pick(k)), t, c + 1)
  {
    assert Tracked(s, s.queue[k], MAX_ATTEMPTS);
    hide Inv, InQueue;
  }

  lemma TryingPassed(s: State, a: Action, t: nat, c: nat)
    requires Enabled(s, a) && Trying(s, t, c) && (a.Evict? || a.Pick?) && s.queue[a.k].t != t && !InFlight(s, t)
    ensures Trying(Next(s, a), t, c)
  {
    var n := Next(s, a);
    CutKeeps(s.queue, a.k, t);
    assert n.queue == Cut(s.queue, a.k) && s.channel <= n.channel && n.ts[t] == s.ts[t];
    hide Next, Enabled;
    assert ToRemove(s, t) ==> ToRemove(n, t);
  }

  lemma CutKeeps(q: seq<Attempt>, k: nat, t: nat)
    requires k < |q| && q[k].t != t
    ensures (exists l :: 0 <= l < |q| && q[l].t == t) ==> exists l :: 0 <= l < |Cut(q, k)| && Cut(q, k)[l].t == t
  {
    hide Waiting;
    WaitingIs(q, t);
    WaitingCut(q, k, t);
    WaitingIs(Cut(q, k), t);
  }

  lemma TryingTaken(s: State, a: Action, t: nat, c: nat)
    requires Inv(s) && Enabled(s, a) && Trying(s, t, c) && (a.Evict? || a.Pick?)
    ensures Trying(Next(s, a), t, c + Bit(Calls(s, a, t)))
  {
    if s.queue[a.k].t == t {
      assert a.Pick?;
      hide Inv, Trying;
      TryingPicked(s, a.k, t, c);
    } else {
      hide Inv, Trying;
      TryingPassed(s, a, t, c);
    }
  }

  lemma TryingFinish(s: State, r: Result, t: nat, c: nat)
    requires Inv(s) && Enabled(s, Finish(r)) && Trying(s, t, c) && (InFlight(s, t) ==> r == Retry)
    ensures Trying(Next(s, Finish(r)), t, c)
  {
    var n := Next(s, Finish(r));
    if InFlight(s, t) {
      RetryDecides(s);
    } else {
      hide Inv, Posted, Waiting;
      assert s.queue <= n.queue && s.channel <= n.channel;
      Kept(s, n, t);
    }
  }

  lemma TryingStep(s: State, a: Action, t: nat, c: nat)
    requires Inv(s) && Enabled(s, a) && Trying(s, t, c) && Patient(s, a, t)
    ensures a.RunClosure? ==> s.ts[s.closures[0]].refCount > 0
    ensures Trying(Next(s, a), t, c + Bit(Calls(s, a, t)))
  {
    assert s.running;
    hide Inv, Trying;
    match a
    case Handle(kick) => TryingHandle(s, kick, t, c);
    case RunClosure => TryingClosure(s, t, c);
    case Evict(_) => TryingTaken(s, a, t, c);
    case Pick(_) => TryingTaken(s, a, t, c);
    case Finish(r) => TryingFinish(s, r, t, c);
    case New(_, _, _) => TryingElse(s, a, t, c);
    case Fail(_) => TryingElse(s, a, t, c);
    case Kick(_) => TryingElse(s, a, t, c);
    case StopJoin =>
  }

  lemma TryingElse(s: State, a: Action, t: nat, c: nat)
    requires Inv(s) && Enabled(s, a) && Trying(s, t, c) && Patient(s, a, t) && (a.New? || a.Fail? || a.Kick?)
    ensures Trying(Next(s, a), t, c)
  {
    OnePlace(s, t);
    hide Inv;
    var n := Next(s, a);
    ElseShape(s, a, t);
    hide Next, Enabled;
    Kept(s, n, t);
  }

  lemma ElseShape(s: State, a: Action, t: nat)
    requires Enabled(s, a) && t in s.ts && s.ts[t].conn != Live && a != Kick(t) && (a.New? || a.Fail? || a.Kick?)
    ensures
      var n := Next(s, a);
      && t in n.ts && n.ts[t] == s.ts[t] && n.running == s.running && n.inFlight == s.inFlight
      && s.queue == n.queue && s.channel <= n.channel
  {
  }

  lemma {:induction false} TryingRun(s: State, run: seq<Action>, t: nat, c: nat)
    requires Inv(s) && IsRun(s, run) && Trying(s, t, c) && AlwaysPatient(s, run, t)
    ensures Trying(Final(s, run), t, c + CallsOf(s, run, t))
    decreases |run|
  {
    hide Inv, Trying, Next, Enabled, Patient, Calls;
    if run != [] {
      TryingStep(s, run[0], t, c);
      NextKeeps(s, run[0]);
      TryingRun(Next(s, run[0]), run[1..], t, c + Bit(Calls(s, run[0], t)));
    }
  }

  /**
   A transport that has just been tracked, over any run in which nobody kicks it, the handler goes on and every
   answer is Retry: it is removed if and only if no attempt waits or is in flight, and then after exactly
   MAX_ATTEMPTS + 1 calls of Reconnect.
   */
  lemma ExactAttempts(s: State, run: seq<Action>, t: nat)
    requires Reachable(s) && IsRun(s, run) && AlwaysPatient(s, run, t)
    requires t in s.ts && s.running && !s.ts[t].kicked && InQueue(s, t) && s.ts[t].calls == 0
    ensures
      var (n, c) := (Final(s, run), CallsOf(s, run, t));
      && (Removed(n, t) <==> !InQueue(n, t) && !InFlight(n, t))
      && (Removed(n, t) ==> c == MAX_ATTEMPTS + 1) && (InQueue(n, t) ==> c <= MAX_ATTEMPTS)
      && (InFlight(n, t) ==> 0 < c <= MAX_ATTEMPTS + 1)
  {
    hide Reachable, IsRun, Final, AlwaysPatient, CallsOf, Inv, InQueue;
    ReachableInv(s);
    TryingRun(s, run, t, 0);
    RunKeeps(s, run);
    OnePlace(Final(s, run), t);
  }

  /** An attempt begins. */
  lemma TryOnce(s: State, t: nat, c: nat) returns (k: nat)
    requires Inv(s) && Trying(s, t, c) && InQueue(s, t) && s.inFlight.None?
    ensures Enabled(s, Pick(k)) && Patient(s, Pick(k), t)
    ensures Inv(Next(s, Pick(k))) && Trying(Next(s, Pick(k)), t, c + 1) && InFlight(Next(s, Pick(k)), t)
  {
    k :| 0 <= k < |s.queue| && s.queue[k].t == t;
    assert Calls(s, Pick(k), t);
    PickDecides(s, k);
    NextKeeps(s, Pick(k));
    TryingTaken(s, Pick(k), t, c);
    hide Inv, Trying;
  }

  /** And fails. */
  lemma FailOnce(s: State, t: nat, c: nat)
    requires Inv(s) && Trying(s, t, c) && InFlight(s, t)
    ensures Enabled(s, Finish(Retry)) && Patient(s, Finish(Retry), t)
    ensures
      var n := Next(s, Finish(Retry));
      && Inv(n) && Trying(n, t, c) && n.inFlight.None?
      && (if c == MAX_ATTEMPTS + 1 then Removed(n, t) else c <= MAX_ATTEMPTS && InQueue(n, t))
  {
    OnePlace(s, t);
    assert Enabled(s, Finish(Retry)) && s.ts[t].calls == c <= MAX_ATTEMPTS + 1;
    RetryDecides(s);
    NextKeeps(s, Finish(Retry));
    TryingFinish(s, Retry, t, c);
    hide Inv, Trying, InQueue, Posted, Waiting;
  }

  lemma TwoSteps(s: State, a: Action, b: Action, rest: seq<Action>, t: nat)
    requires Enabled(s, a) && !a.RunClosure? && Enabled(Next(s, a), b) && !b.RunClosure?
    requires Patient(s, a, t) && Patient(Next(s, a), b, t) && IsRun(Next(Next(s, a), b), rest)
    requires AlwaysPatient(Next(Next(s, a), b), rest, t)
    ensures
      var run := [a] + ([b] + rest);
      IsRun(s, run) && AlwaysPatient(s, run, t) && Final(s, run) == Final(Next(Next(s, a), b), rest)
  {
    hide Next, Enabled, Patient;
    var run := [a] + ([b] + rest);
    assert run[1..] == [b] + rest && ([b] + rest)[1..] == rest;
    assert IsRun(Next(s, a), [b] + rest) && AlwaysPatient(Next(s, a), [b] + rest, t);
    assert Final(Next(s, a), [b] + rest) == Final(Next(Next(s, a), b), rest);
  }

  /** The handler gets to the end of them. */
  lemma {:induction false} AttemptsRunOut(s: State, t: nat, c: nat) returns (run: seq<Action>)
    requires Inv(s) && Trying(s, t, c) && InQueue(s, t) && s.inFlight.None? && c <= MAX_ATTEMPTS
    ensures IsRun(s, run) && AlwaysPatient(s, run, t) && Removed(Final(s, run), t)
    decreases MAX_ATTEMPTS + 1 - c
  {
    hide Inv, Trying, Next, Enabled, Patient, InQueue, Removed;
    var k := TryOnce(s, t, c);
    var s1 := Next(s, Pick(k));
    FailOnce(s1, t, c + 1);
    var s2 := Next(s1, Finish(Retry));
    var rest := [];
    if c < MAX_ATTEMPTS {
      rest := AttemptsRunOut(s2, t, c + 1);
    }
    TwoSteps(s, Pick(k), Finish(Retry), rest, t);
    run := [Pick(k)] + ([Finish(Retry)] + rest);
  }
}
