/**
 The cross-thread run queue of src/fdevent.cpp: threads post closures under run_queue_mutex and wake the
 main thread with a byte on a socket pair. A run is any interleaving of posters, which may be other threads
 or closures and callbacks on the main thread itself, with the steps of the main thread.
 */
module RunQueue {
  type Job = nat

  /** Who holds run_queue_mutex. The main thread as a flusher holds it for a single step only. */
  datatype Lock = Free | Poster(onMain: bool)

  /** A flush belongs to the setup or to a turn of the loop. */
  datatype Flush = AtSetup | AtLoop

  /** Where the main thread is. */
  datatype Main =
    | Start                       // before fdevent_run_setup
    | Flushing(why: Flush)        // about to look at the queue in fdevent_run_flush
    | Running(why: Flush)         // inside a closure
    | Polling                     // about to poll, or blocked in it
    | Callbacks(notified: bool)   // draining the pending list; the notify fd is among it or not
    | Drained                     // about to test run_needs_flush
    | Clearing                    // about to reset run_needs_flush

  /** The notify fd holds `bytes` of at most `capacity` bytes. `posted` and `executed` are history. */
  datatype State = State(queue: seq<Job>, open: bool, bytes: nat, capacity: nat, needsFlush: bool, lock: Lock,
                         main: Main, posted: seq<Job>, executed: seq<Job>)

  predicate Initial(s: State) {
    && s.queue == [] && !s.open && s.bytes == 0 && s.capacity > 0 && !s.needsFlush && s.lock == Free
    && s.main == Start && s.posted == [] && s.executed == []
  }

  datatype Action =
    | Push(job: Job, onMain: bool)   // fdevent_run_on_main_thread up to the write
    | Notify                         // its write, and the unlock
    | Setup                          // the locked part of fdevent_run_setup
    | Look                           // one locked look of fdevent_run_flush: take a closure or stop
    | Return                         // the closure returns
    | Poll                           // poll returns
    | RunFunc                        // fdevent_run_func
    | EndDrain                       // the pending list is empty
    | Test                           // if (run_needs_flush)
    | Clear                          // run_needs_flush = false

  /** The main thread is where it may run code that posts. */
  predicate MayPost(m: Main) {
    m.Running? || m.Callbacks? || m.Start?
  }

  predicate Enabled(s: State, a: Action) {
    var mainFree := s.lock != Poster(true);
    match a
    case Push(_, onMain) => s.lock == Free && (onMain ==> MayPost(s.main))
    case Notify => s.lock.Poster?
    case Setup => s.main.Start? && s.lock == Free
    case Look => s.main.Flushing? && s.lock == Free
    case Return => s.main.Running? && mainFree
    case Poll => s.main.Polling?
    case RunFunc => s.main == Callbacks(true) && mainFree
    case EndDrain => s.main == Callbacks(false) && mainFree
    case Test => s.main.Drained?
    case Clear => s.main.Clearing?
  }

  function Min(a: nat, b: nat): nat { if a < b then a else b }

  function Next(s: State, a: Action): State
    requires Enabled(s, a)
  {
    match a
    case Push(job, onMain) => s.(queue := s.queue + [job], posted := s.posted + [job], lock := Poster(onMain))
    case Notify => s.(bytes := if s.open then Min(s.bytes + 1, s.capacity) else s.bytes, lock := Free)
    case Setup => s.(open := true, main := Flushing(AtSetup))
    case Look =>
      if s.queue != [] then
        s.(queue := s.queue[1..], executed := s.executed + [s.queue[0]], main := Running(s.main.why))
      else
        s.(main := if s.main.why == AtSetup then Polling else Clearing)
    case Return => s.(main := Flushing(s.main.why))
    case Poll => s.(main := Callbacks(s.bytes > 0))
    case RunFunc => s.(bytes := s.bytes - Min(s.bytes, 1024), needsFlush := true, main := Callbacks(false))
    case EndDrain => s.(main := Drained)
    case Test => s.(main := if s.needsFlush then Flushing(AtLoop) else Polling)
    case Clear => s.(needsFlush := false, main := Polling)
  }

  predicate IsRun(s: State, run: seq<Action>)
    decreases |run|
  {
    run != [] ==> Enabled(s, run[0]) && IsRun(Next(s, run[0]), run[1..])
  }

  function Final(s: State, run: seq<Action>): State
    requires IsRun(s, run)
    decreases |run|
  {
    if run == [] then s else Final(Next(s, run[0]), run[1..])
  }

  ghost predicate Reachable(s: State) {
    exists s0, run :: Initial(s0) && IsRun(s0, run) && Final(s0, run) == s
  }

  // ----- the invariant

  /** The main thread will look at the queue before it polls again, and poll will not block it before. */
  predicate FlushDue(s: State) {
    || s.main.Start? || s.main.Flushing? || s.main.Running?
    || (s.needsFlush && (s.main.Callbacks? || s.main.Drained?))
  }

  predicate BeforeLoop(m: Main) {
    m.Start? || ((m.Flushing? || m.Running?) && m.why == AtSetup)
  }

  predicate Inv(s: State) {
    && s.executed + s.queue == s.posted
    && s.bytes <= s.capacity && s.capacity > 0
    && (s.open <==> !s.main.Start?)
    && (s.main == Callbacks(true) ==> s.bytes > 0)
    && (s.main.Polling? || BeforeLoop(s.main) ==> !s.needsFlush)
    && (s.lock == Poster(true) ==> MayPost(s.main))
    && (s.queue != [] ==> s.bytes > 0 || s.lock.Poster? || FlushDue(s))
  }

  lemma NextKeeps(s: State, a: Action)
    requires Inv(s) && Enabled(s, a)
    ensures Inv(Next(s, a))
  {
    match a
    case Push(job, _) => assert s.executed + (s.queue + [job]) == s.executed + s.queue + [job];
    case Look =>
      if s.queue != [] {
        assert s.executed + [s.queue[0]] + s.queue[1..] == s.executed + s.queue;
      }
    case _ =>
  }

  lemma {:induction false} RunKeeps(s: State, run: seq<Action>)
    requires Inv(s) && IsRun(s, run)
    ensures Inv(Final(s, run))
    decreases |run|
  {
    if run != [] {
      NextKeeps(s, run[0]);
      RunKeeps(Next(s, run[0]), run[1..]);
    }
  }

  lemma ReachableInv(s: State)
    requires Reachable(s)
    ensures Inv(s)
  {
    var s0, run :| Initial(s0) && IsRun(s0, run) && Final(s0, run) == s;
    RunKeeps(s0, run);
  }

  // ----- theorems

  /** Closures run once each, in the order they were posted, and none is dropped. */
  lemma FifoExactlyOnce(s: State)
    requires Reachable(s)
    ensures s.executed + s.queue == s.posted
  {
    ReachableInv(s);
  }

  /** A posted closure always has something on its way that will make the main thread look at the queue. */
  lemma NoLostWakeup(s: State)
    requires Reachable(s) && s.queue != []
    ensures s.bytes > 0 || s.lock.Poster? || FlushDue(s)
    ensures s.main.Polling? && s.lock == Free ==> s.bytes > 0
  {
    ReachableInv(s);
  }

  /** fdevent_run_func never finds the notify fd empty, which would be fatal. */
  lemma ReadNeverBlocks(s: State)
    requires Reachable(s) && Enabled(s, RunFunc)
    ensures s.bytes > 0
  {
    ReachableInv(s);
  }

  /** It takes all there is, or as much as its buffer holds. */
  lemma NotifyDrained(s: State)
    requires Reachable(s) && Enabled(s, RunFunc)
    ensures
      var n := Next(s, RunFunc);
      n.bytes < s.bytes && (n.bytes == 0 <==> s.bytes <= 1024) && (n.bytes > 0 ==> n.bytes + 1024 == s.bytes)
  {
    ReachableInv(s);
  }

  const FROM_POLL := [Poll, RunFunc, EndDrain, Test, Look]

  /** The steps the main thread takes, when nobody else posts, until it starts the next closure. */
  function Serve(s: State): seq<Action> {
    match s.main
    case Start => [Setup, Look]
    case Flushing(_) => [Look]
    case Running(_) => [Return, Look]
    case Polling => FROM_POLL
    case Callbacks(n) =>
      (if n then [RunFunc] else []) + if n || s.needsFlush then [EndDrain, Test, Look] else [EndDrain, Test] + FROM_POLL
    case Drained => if s.needsFlush then [Test, Look] else [Test] + FROM_POLL
    case Clearing => [Clear] + FROM_POLL
  }

  ghost predicate Runs(s: State, run: seq<Action>, job: Job) {
    IsRun(s, run) && Final(s, run).executed == s.executed + [job]
  }

  lemma Before(s: State, a: Action, run: seq<Action>, job: Job)
    requires Enabled(s, a) && Runs(Next(s, a), run, job) && a != Look
    ensures Runs(s, [a] + run, job)
  {
    assert ([a] + run)[1..] == run;
  }

  lemma LookRuns(s: State)
    requires Enabled(s, Look) && s.queue != []
    ensures Runs(s, [Look], s.queue[0])
  {
    assert [Look][1..] == [];
    assert IsRun(Next(s, Look), []);
  }

  lemma DrainRuns(s: State)
    requires s.main == Callbacks(false) && s.needsFlush && s.lock == Free && s.queue != []
    ensures Runs(s, [EndDrain, Test, Look], s.queue[0])
  {
    hide Runs;
    var s1 := Next(s, EndDrain);
    var s2 := Next(s1, Test);
    LookRuns(s2);
    Before(s1, Test, [Look], s.queue[0]);
    Before(s, EndDrain, [Test] + [Look], s.queue[0]);
    assert [EndDrain] + ([Test] + [Look]) == [EndDrain, Test, Look];
  }

  lemma PollRuns(s: State)
    requires s.main.Polling? && s.bytes > 0 && s.lock == Free && s.queue != []
    ensures Runs(s, FROM_POLL, s.queue[0])
  {
    hide Runs;
    var s1 := Next(s, Poll);
    DrainRuns(Next(s1, RunFunc));
    Before(s1, RunFunc, [EndDrain, Test, Look], s.queue[0]);
    Before(s, Poll, [RunFunc] + [EndDrain, Test, Look], s.queue[0]);
    assert [Poll] + ([RunFunc] + [EndDrain, Test, Look]) == FROM_POLL;
  }

  lemma ServesCallbacks(s: State)
    requires Inv(s) && s.main.Callbacks? && s.queue != [] && s.lock == Free
    ensures Runs(s, Serve(s), s.queue[0])
  {
    hide Runs;
    var job := s.queue[0];
    if s.main.notified {
      DrainRuns(Next(s, RunFunc));
      Before(s, RunFunc, [EndDrain, Test, Look], job);
    } else if s.needsFlush {
      DrainRuns(s);
      assert Serve(s) == [EndDrain, Test, Look];
    } else {
      var s1 := Next(s, EndDrain);
      PollRuns(Next(s1, Test));
      Before(s1, Test, FROM_POLL, job);
      Before(s, EndDrain, [Test] + FROM_POLL, job);
      assert Serve(s) == [EndDrain] + ([Test] + FROM_POLL);
    }
  }

  lemma ServesDrained(s: State)
    requires Inv(s) && (s.main.Drained? || s.main.Clearing?) && s.queue != [] && s.lock == Free
    ensures Runs(s, Serve(s), s.queue[0])
  {
    hide Runs;
    var job := s.queue[0];
    if s.main.Clearing? {
      PollRuns(Next(s, Clear));
      Before(s, Clear, FROM_POLL, job);
    } else if s.needsFlush {
      LookRuns(Next(s, Test));
      Before(s, Test, [Look], job);
      assert [Test] + [Look] == Serve(s);
    } else {
      PollRuns(Next(s, Test));
      Before(s, Test, FROM_POLL, job);
    }
  }

  lemma ServesElsewhere(s: State)
    requires Inv(s) && (s.main.Start? || s.main.Flushing? || s.main.Running? || s.main.Polling?)
    requires s.queue != [] && s.lock == Free
    ensures Runs(s, Serve(s), s.queue[0])
  {
    hide Runs;
    var job := s.queue[0];
    match s.main
    case Start =>
      LookRuns(Next(s, Setup));
      Before(s, Setup, [Look], job);
      assert [Setup] + [Look] == Serve(s);
    case Flushing(_) => LookRuns(s);
    case Running(_) =>
      LookRuns(Next(s, Return));
      Before(s, Return, [Look], job);
      assert [Return] + [Look] == Serve(s);
    case Polling => PollRuns(s);
  }

  /** Wherever the main thread is, a waiting closure is run next, without anybody posting again. */
  lemma ServesNext(s: State)
    requires Reachable(s) && s.queue != [] && s.lock == Free
    ensures IsRun(s, Serve(s)) && Final(s, Serve(s)).executed == s.executed + [s.queue[0]]
  {
    hide Runs, Reachable, Serve, Inv;
    ReachableInv(s);
    match s.main {
      case Callbacks(_) => ServesCallbacks(s);
      case Drained => ServesDrained(s);
      case Clearing => ServesDrained(s);
      case _ => ServesElsewhere(s);
    }
    RunsMeans(s, Serve(s), s.queue[0]);
  }

  lemma RunsMeans(s: State, run: seq<Action>, job: Job)
    requires Runs(s, run, job)
    ensures IsRun(s, run) && Final(s, run).executed == s.executed + [job]
  {
  }
}
