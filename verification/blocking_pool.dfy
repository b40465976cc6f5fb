/** The blocking thread pool: a mutex-guarded queue, worker threads that park on a condition
    variable, and a shutdown that must run every mandatory job.

    `Core` is what the mutex guards. The functions on it describe one critical section each;
    the class `Shared` performs the same sections step by step and is proved equal to them.
    The system around it (`Pool`) interleaves those sections for any number of workers, with
    spurious wakes, timeouts, failing spawns and a concurrent shutdown. */
module BlockingPool {
  import opened Basics

  datatype Job = Job(id: nat, mandatory: bool)

  datatype Core = Core(queue: seq<Job>, numNotify: nat, numThreads: nat, numIdle: nat, shutdown: bool)

  datatype DispatchResult = Notified | Spawned | LeftQueued | ShutDown | SpawnFailed

  predicate Accepted(r: DispatchResult) { r.Notified? || r.Spawned? || r.LeftQueued? }

  function SaturatingInc(n: nat): nat { if n < U32_MAX then n + 1 else n }

  function SaturatingDec(n: nat): nat { if n > 0 then n - 1 else 0 }

  /** `dispatch_with`: what a dispatch leaves behind, and how it was served. */
  function Dispatched(c: Core, cap: nat, job: Job, spawnOk: bool): (Core, DispatchResult) {
    if c.shutdown then (c, ShutDown)
    else if c.numIdle > 0 then
      (c.(queue := c.queue + [job], numIdle := c.numIdle - 1, numNotify := SaturatingInc(c.numNotify)), Notified)
    else if c.numThreads >= cap then (c.(queue := c.queue + [job]), LeftQueued)
    else if spawnOk then (c.(queue := c.queue + [job], numThreads := c.numThreads + 1), Spawned)
    else if c.numThreads > 0 then (c.(queue := c.queue + [job]), LeftQueued)
    else (c, SpawnFailed)
  }

  /** What draining a queue yields: the jobs dropped on the way, then the first one to run. */
  datatype Drain = Drain(dropped: seq<Job>, next: Option<Job>, rest: seq<Job>)

  function Drained(q: seq<Job>, shutdown: bool): Drain {
    if q == [] then Drain([], None, [])
    else if shutdown && !q[0].mandatory then
      var d := Drained(q[1..], shutdown);
      Drain([q[0]] + d.dropped, d.next, d.rest)
    else Drain([], Some(q[0]), q[1..])
  }

  datatype WakeResult = Continue | Leave

  /** A worker back from the condition variable: consume a notification, or undo the idle count
      and perhaps leave. */
  function Woken(c: Core, timedOut: bool): (Core, WakeResult) {
    if c.numNotify > 0 then (c.(numNotify := c.numNotify - 1), Continue)
    else
      (c.(numIdle := SaturatingDec(c.numIdle)),
       if c.shutdown || (timedOut && c.queue == []) then Leave else Continue)
  }

  /** Draining splits the queue in order; only optional jobs are dropped, only in shutdown, and
      never a mandatory one; it stops early only at a job to run. */
  lemma {:induction false} DrainedSplits(q: seq<Job>, shutdown: bool)
    ensures var d := Drained(q, shutdown);
            && q == d.dropped + (match d.next case Some(j) => [j] case None => []) + d.rest
            && (forall j | j in d.dropped :: !j.mandatory)
            && (!shutdown ==> d.dropped == [])
            && (d.next.None? ==> d.rest == [])
            && (d.next.Some? && shutdown ==> d.next.value.mandatory)
  {
    if q != [] && shutdown && !q[0].mandatory {
      DrainedSplits(q[1..], shutdown);
      var d := Drained(q[1..], shutdown);
      assert q == [q[0]] + q[1..];
    }
  }

  // ----- the guarded state, step by step -----

  class Shared {
    var queue: seq<Job>
    var numNotify: nat
    var numThreads: nat
    var numIdle: nat
    var shutdown: bool
    const threadCap: nat

    function View(): Core
      reads this
    {
      Core(queue, numNotify, numThreads, numIdle, shutdown)
    }

    constructor (cap: nat)
      requires cap > 0
      ensures View() == Core([], 0, 0, 0, false) && threadCap == cap
    {
      queue, numNotify, numThreads, numIdle, shutdown := [], 0, 0, 0, false;
      threadCap := cap;
    }

    /** `spawnOk` is the operating system's answer when a worker thread is requested. */
    method DispatchWith(job: Job, spawnOk: bool) returns (r: DispatchResult)
      modifies this
      ensures (View(), r) == Dispatched(old(View()), threadCap, job, spawnOk)
    {
      if shutdown {
        return ShutDown;
      }
      queue := queue + [job];
      if numIdle > 0 {
        numIdle := numIdle - 1;
        numNotify := SaturatingInc(numNotify);
        return Notified;
      }
      if numThreads < threadCap {
        if spawnOk {
          numThreads := numThreads + 1;
          return Spawned;
        }
        if numThreads > 0 {
          return LeftQueued;
        }
        queue := queue[..|queue| - 1];
        assert queue == old(queue);
        return SpawnFailed;
      }
      return LeftQueued;
    }

    /** The inner loop of `worker_loop`, and of `shutdown` once the flag is set: pop until there
        is a job to run or nothing left. */
    method DrainNext() returns (next: Option<Job>, dropped: seq<Job>)
      modifies this`queue
      ensures Drain(dropped, next, queue) == Drained(old(queue), shutdown)
    {
      next, dropped := None, [];
      while queue != []
        invariant Drained(old(queue), shutdown)
               == Drain(dropped + Drained(queue, shutdown).dropped, Drained(queue, shutdown).next, Drained(queue, shutdown).rest)
        decreases |queue|
      {
        var job := queue[0];
        assert shutdown && !job.mandatory ==>
            dropped + Drained(queue, shutdown).dropped == dropped + [job] + Drained(queue[1..], shutdown).dropped;
        queue := queue[1..];
        if shutdown && !job.mandatory {
          dropped := dropped + [job];
        } else {
          assert dropped + [] == dropped;
          return Some(job), dropped;
        }
      }
      assert dropped + [] == dropped;
    }

    method AfterWait(timedOut: bool) returns (r: WakeResult)
      modifies this
      ensures (View(), r) == Woken(old(View()), timedOut)
    {
      if numNotify > 0 {
        numNotify := numNotify - 1;
        return Continue;
      }
      numIdle := SaturatingDec(numIdle);
      if shutdown {
        return Leave;
      }
      if timedOut && queue == [] {
        return Leave;
      }
      return Continue;
    }
  }

  // ----- the pool as a whole -----

  /** The thread that called `shutdown` first; while it waits for the workers, `woken` says that a
      notification has reached it since it last looked. */
  datatype Owner =
    | NotShutting
    | Draining
    | RunningMandatory(id: nat)
    | Waiting(woken: bool)
    | Returned(allExited: bool)

  datatype Pool = Pool(
    cap: nat,
    timed: bool,          // the first shutdown call has a deadline
    core: Core,
    ready: nat,           // workers about to take the mutex and drain
    parked: nat,          // workers on the condition variable
    signalled: nat,       // of those, the ones a notify has reached
    running: set<nat>,    // jobs being executed, one per busy worker
    owner: Owner,
    accepted: seq<Job>,   // every job ever accepted, in dispatch order
    popped: nat,          // how many of them have left the queue
    finished: set<nat>,
    dropped: set<nat>)

  datatype Event =
    | Dispatch(mandatory: bool, spawnOk: bool)
    | WorkerDrain
    | WorkerWake(wasSignalled: bool, timedOut: bool)
    | JobDone(id: nat)
    | ShutdownStart
    | OwnerDrain
    | OwnerJobDone
    | OwnerLook(expired: bool)

  predicate Enabled(s: Pool, e: Event) {
    match e
    case Dispatch(_, _) => true
    case WorkerDrain => s.ready > 0
    case WorkerWake(sig, _) => if sig then s.parked > 0 && s.signalled > 0 else s.parked > s.signalled
    case JobDone(id) => id in s.running
    case ShutdownStart => s.owner.NotShutting?
    case OwnerDrain => s.owner.Draining?
    case OwnerJobDone => s.owner.RunningMandatory?
    case OwnerLook(expired) => s.owner.Waiting? && (expired ==> s.timed)
  }

  /** The ids of the jobs accepted as numbers `lo` to `hi - 1`. */
  function Ids(lo: nat, hi: nat): (r: set<nat>)
    ensures forall i :: i in r <==> lo <= i < hi
  {
    if hi <= lo then {} else Ids(lo, hi - 1) + {hi - 1}
  }

  function DoDispatch(s: Pool, mandatory: bool, spawnOk: bool): Pool {
    var job := Job(|s.accepted|, mandatory);
    var (core, r) := Dispatched(s.core, s.cap, job, spawnOk);
    var t := s.(core := core, accepted := if Accepted(r) then s.accepted + [job] else s.accepted);
    if r.Notified? && s.signalled < s.parked then t.(signalled := s.signalled + 1)
    else if r.Spawned? then t.(ready := s.ready + 1)
    else t
  }

  /** Take jobs off the queue, noting what was dropped. */
  function Pop(s: Pool): Pool {
    var d := Drained(s.core.queue, s.core.shutdown);
    var n := s.popped + |d.dropped|;
    s.(core := s.core.(queue := d.rest),
       dropped := s.dropped + Ids(s.popped, n),
       popped := if d.next.Some? then n + 1 else n)
  }

  /** A worker holding the mutex and counted nowhere else drains, then runs, leaves or parks. */
  function Serve(s: Pool): Pool {
    var d := Drained(s.core.queue, s.core.shutdown);
    var t := Pop(s);
    if d.next.Some? then t.(running := t.running + {d.next.value.id})
    else if t.core.shutdown then Exit(t)
    else t.(core := t.core.(numIdle := t.core.numIdle + 1), parked := t.parked + 1)
  }

  /** Thread exit: one worker fewer, and everybody on the condition variable is notified. */
  function Exit(s: Pool): Pool {
    s.(core := s.core.(numThreads := SaturatingDec(s.core.numThreads)), signalled := s.parked,
       owner := if s.owner.Waiting? then Waiting(true) else s.owner)
  }

  function DoWake(s: Pool, wasSignalled: bool, timedOut: bool): Pool
    requires Enabled(s, WorkerWake(wasSignalled, timedOut))
  {
    var (core, r) := Woken(s.core, timedOut);
    var t := s.(core := core, parked := s.parked - 1,
                signalled := if wasSignalled then s.signalled - 1 else s.signalled);
    if r.Continue? then Serve(t) else Exit(t)
  }

  function DoOwnerDrain(s: Pool): Pool {
    var d := Drained(s.core.queue, s.core.shutdown);
    var t := Pop(s);
    t.(owner := if d.next.Some? then RunningMandatory(d.next.value.id) else Waiting(true))
  }

  function Step(s: Pool, e: Event): Pool
    requires Enabled(s, e)
  {
    match e
    case Dispatch(m, ok) => DoDispatch(s, m, ok)
    case WorkerDrain => Serve(s.(ready := s.ready - 1))
    case WorkerWake(sig, timedOut) => DoWake(s, sig, timedOut)
    case JobDone(id) => s.(running := s.running - {id}, finished := s.finished + {id}, ready := s.ready + 1)
    case ShutdownStart => s.(core := s.core.(shutdown := true), signalled := s.parked, owner := Draining)
    case OwnerDrain => DoOwnerDrain(s)
    case OwnerJobDone => s.(finished := s.finished + {s.owner.id}, owner := Draining)
    case OwnerLook(expired) =>
      s.(owner := if s.core.numThreads == 0 || expired then Returned(s.core.numThreads == 0) else Waiting(false))
  }

  function Init(cap: nat, timed: bool): Pool {
    Pool(cap, timed, Core([], 0, 0, 0, false), 0, 0, 0, {}, NotShutting, [], 0, {}, {})
  }

  // ----- invariant -----

  /** The thread count is exact; `extra` workers hold the mutex, between two places where they
      are counted. */
  predicate Threads(s: Pool, extra: nat) {
    && s.core.numThreads == s.ready + s.parked + |s.running| + extra
    && s.core.numThreads <= s.cap
    && s.signalled <= s.parked && s.core.numNotify <= U32_MAX
  }

  /** The idle and notify counters add up to the workers on the condition variable. */
  predicate Exact(s: Pool) { s.core.numIdle + s.core.numNotify == s.parked }

  predicate Progress(s: Pool, extra: nat) {
    !s.core.shutdown && s.core.queue != [] ==> s.ready + |s.running| + extra > 0 || s.core.numNotify > 0
  }

  predicate Counted(s: Pool, extra: nat) { Exact(s) && s.core.numNotify <= s.signalled && Progress(s, extra) }

  /** A dispatch that finds an idle worker while the 32-bit notification counter is full. */
  predicate Saturates(s: Pool, e: Event) {
    e.Dispatch? && !s.core.shutdown && s.core.numIdle > 0 && s.core.numNotify == U32_MAX
  }

  /** How many of the places a popped job can be in hold job `i`. */
  function Places(s: Pool, i: nat): nat {
    (if i in s.finished then 1 else 0) + (if i in s.dropped then 1 else 0)
    + (if i in s.running then 1 else 0) + (if s.owner == RunningMandatory(i) then 1 else 0)
  }

  /** The queue is the accepted jobs not yet popped, in order; every popped job is in exactly
      one place and every other in none. */
  ghost predicate Jobs(s: Pool) {
    && s.popped <= |s.accepted|
    && (forall i | 0 <= i < |s.accepted| :: s.accepted[i].id == i)
    && s.core.queue == s.accepted[s.popped..]
    && (forall i: nat :: Places(s, i) == if i < s.popped then 1 else 0)
    && (forall i | i in s.dropped :: i < |s.accepted| && !s.accepted[i].mandatory && s.core.shutdown)
  }

  predicate Shutdown(s: Pool) {
    && (s.owner.NotShutting? <==> !s.core.shutdown)
    && (s.owner.Waiting? || s.owner.Returned? ==> s.core.queue == [])
    && (s.owner == Returned(false) ==> s.timed)
    && (s.owner == Returned(true) ==> s.core.numThreads == 0)
    && (s.owner == Waiting(false) ==> s.core.numThreads > 0)
  }

  ghost predicate Inv(s: Pool) { 0 < s.cap && Threads(s, 0) && Jobs(s) && Shutdown(s) }

  // ----- proof -----

  /** Popping keeps the order; the job to run, if any, is the next in order, and what is dropped
      on the way is optional and in shutdown. */
  lemma PopOrder(s: Pool)
    requires Jobs(s)
    ensures var d := Drained(s.core.queue, s.core.shutdown);
            var t := Pop(s);
            && t == s.(core := s.core.(queue := t.core.queue), dropped := t.dropped, popped := t.popped)
            && s.popped <= t.popped - (if d.next.Some? then 1 else 0) <= t.popped <= |s.accepted|
            && t.core.queue == s.accepted[t.popped..]
            && (d.next.None? ==> t.core.queue == [])
            && (d.next.Some? ==> d.next.value == s.accepted[t.popped - 1])
            && t.dropped == s.dropped + Ids(s.popped, t.popped - (if d.next.Some? then 1 else 0))
            && (forall i | i in t.dropped :: i < |s.accepted| && !s.accepted[i].mandatory && s.core.shutdown)
  {
    hide Drained, Ids, Jobs, Places;
    forall i | i in Pop(s).dropped ensures i < |s.accepted| && !s.accepted[i].mandatory && s.core.shutdown {
      DropsOptional(s, i);
    }
    PopSplits(s);
  }

  lemma PopSplits(s: Pool)
    requires Jobs(s)
    ensures var d := Drained(s.core.queue, s.core.shutdown);
            var t := Pop(s);
            && s.popped <= t.popped - (if d.next.Some? then 1 else 0) <= t.popped <= |s.accepted|
            && t.core.queue == s.accepted[t.popped..]
            && (d.next.None? ==> t.core.queue == [])
            && (d.next.Some? ==> d.next.value == s.accepted[t.popped - 1])
  {
    hide Drained, Ids;
    var d := Drained(s.core.queue, s.core.shutdown);
    assert s.core.queue == s.accepted[s.popped..] && s.popped <= |s.accepted|;
    hide Jobs;
    DrainedSplits(s.core.queue, s.core.shutdown);
    SplitTail(s.accepted, s.popped, d.dropped, d.next, d.rest);
  }

  lemma DropsOptional(s: Pool, i: nat)
    requires Jobs(s) && i in Pop(s).dropped
    ensures i < |s.accepted| && !s.accepted[i].mandatory && s.core.shutdown
  {
    var q, d := s.core.queue, Drained(s.core.queue, s.core.shutdown);
    DrainedSplits(q, s.core.shutdown);
    hide Drained;
    if i !in s.dropped {
      assert q[i - s.popped] == d.dropped[i - s.popped];
      assert d.dropped[i - s.popped] in d.dropped;
    }
  }

  lemma SplitTail(all: seq<Job>, popped: nat, dropped: seq<Job>, next: Option<Job>, rest: seq<Job>)
    requires popped <= |all|
    requires all[popped..] == dropped + (match next case Some(j) => [j] case None => []) + rest
    ensures next.Some? ==> popped + |dropped| < |all| && next.value == all[popped + |dropped|]
    ensures var end := popped + |dropped| + (if next.Some? then 1 else 0); end <= |all| && rest == all[end..]
  {
    var q := all[popped..];
    if next.Some? {
      assert q[|dropped|] == next.value;
    }
    assert rest == q[|q| - |rest|..];
  }

  /** The popped range minus the job handed out: everything in exactly one place. */
  lemma PopPlaces(s: Pool, i: nat)
    requires Jobs(s)
    ensures var d := Drained(s.core.queue, s.core.shutdown);
            Places(Pop(s), i) == if i < Pop(s).popped - (if d.next.Some? then 1 else 0) then 1 else 0
  {
    hide Pop, Drained, Jobs;
    PopOrder(s);
    assert Places(s, i) == if i < s.popped then 1 else 0 by { JobsPlace(s, i); }
  }

  lemma JobsPlace(s: Pool, i: nat)
    requires Jobs(s)
    ensures Places(s, i) == if i < s.popped then 1 else 0
  {
  }

  lemma ServeKeepsJobs(s: Pool)
    requires Jobs(s)
    ensures Jobs(Serve(s))
    ensures var d := Drained(s.core.queue, s.core.shutdown);
            d.next.Some? ==> d.next.value.id !in s.running
  {
    hide Pop, Drained;
    PopOrder(s);
    var t := Serve(s);
    var d := Drained(s.core.queue, s.core.shutdown);
    forall i: nat ensures Places(t, i) == if i < t.popped then 1 else 0 {
      PopPlaces(s, i);
    }
    if d.next.Some? {
      PopPlaces(s, d.next.value.id);
    }
  }

  lemma ServeKeepsThreads(s: Pool)
    requires Jobs(s) && Threads(s, 1) && Shutdown(s)
    ensures Threads(Serve(s), 0) && Shutdown(Serve(s))
    ensures Serve(s).cap == s.cap
    ensures Exact(s) && s.core.numNotify <= s.signalled ==> Counted(Serve(s), 0)
  {
    PopOrder(s);
    ServeKeepsJobs(s);
    hide Pop, Drained, Jobs;
    var d := Drained(s.core.queue, s.core.shutdown);
    if d.next.Some? {
      assert |s.running + {d.next.value.id}| == |s.running| + 1;
    }
  }

  lemma WakeKeepsInv(s: Pool, wasSignalled: bool, timedOut: bool)
    requires Inv(s) && Enabled(s, WorkerWake(wasSignalled, timedOut))
    ensures Inv(DoWake(s, wasSignalled, timedOut))
  {
    hide Serve;
    var (core, r) := Woken(s.core, timedOut);
    var t := s.(core := core, parked := s.parked - 1,
                signalled := if wasSignalled then s.signalled - 1 else s.signalled);
    assert Jobs(t) by {
      forall i: nat ensures Places(t, i) == if i < t.popped then 1 else 0 {
        JobsPlace(s, i);
      }
    }
    hide Jobs;
    if r.Continue? {
      ServeKeepsJobs(t);
      ServeKeepsThreads(t);
    } else {
      FramedJobs(t, Exit(t));
    }
  }

  /** `Jobs` does not look at the thread counters. */
  lemma FramedJobs(s: Pool, t: Pool)
    requires Jobs(s)
    requires t.core.queue == s.core.queue && (s.core.shutdown ==> t.core.shutdown)
    requires t.accepted == s.accepted && t.popped == s.popped
    requires t.running == s.running && t.finished == s.finished && t.dropped == s.dropped
    requires forall i :: t.owner == RunningMandatory(i) <==> s.owner == RunningMandatory(i)
    ensures Jobs(t)
  {
    forall i: nat ensures Places(t, i) == if i < t.popped then 1 else 0 {
      JobsPlace(s, i);
    }
  }

  lemma OwnerDrainKeepsInv(s: Pool)
    requires Inv(s) && s.owner.Draining?
    ensures Inv(DoOwnerDrain(s))
  {
    hide Pop, Drained, Jobs, Places, Ids;
    OwnerDrainKeepsJobs(s);
    PopOrder(s);
  }

  lemma OwnerDrainKeepsJobs(s: Pool)
    requires Jobs(s) && s.owner.Draining?
    ensures Jobs(DoOwnerDrain(s))
  {
    hide Pop, Drained;
    PopOrder(s);
    var t := DoOwnerDrain(s);
    forall i: nat ensures Places(t, i) == if i < t.popped then 1 else 0 {
      PopPlaces(s, i);
    }
  }

  lemma DispatchKeepsJobs(s: Pool, mandatory: bool, spawnOk: bool)
    requires Jobs(s)
    ensures Jobs(DoDispatch(s, mandatory, spawnOk))
  {
    var t := DoDispatch(s, mandatory, spawnOk);
    forall i: nat ensures Places(t, i) == if i < t.popped then 1 else 0 {
      JobsPlace(s, i);
    }
    if t.accepted != s.accepted {
      assert t.core.queue == s.core.queue + [t.accepted[|s.accepted|]] == t.accepted[s.popped..];
    }
  }

  lemma DispatchKeepsInv(s: Pool, mandatory: bool, spawnOk: bool)
    requires Inv(s)
    ensures Inv(DoDispatch(s, mandatory, spawnOk))
  {
    hide Jobs;
    DispatchKeepsJobs(s, mandatory, spawnOk);
    if s.core.shutdown {
    } else if s.core.numIdle > 0 {
    } else if s.core.numThreads >= s.cap {
    } else {
    }
  }

  lemma JobDoneKeepsInv(s: Pool, id: nat)
    requires Inv(s) && id in s.running
    ensures Inv(Step(s, JobDone(id)))
  {
    var t := Step(s, JobDone(id));
    forall i: nat ensures Places(t, i) == if i < t.popped then 1 else 0 {
      JobsPlace(s, i);
    }
    assert |s.running - {id}| == |s.running| - 1;
  }

  lemma OwnerKeepsInv(s: Pool, e: Event)
    requires Inv(s) && Enabled(s, e)
    requires e.ShutdownStart? || e.OwnerJobDone? || e.OwnerLook?
    ensures Inv(Step(s, e))
  {
    var t := Step(s, e);
    forall i: nat ensures Places(t, i) == if i < t.popped then 1 else 0 {
      JobsPlace(s, i);
    }
  }

  lemma WorkerDrainKeepsInv(s: Pool)
    requires Inv(s) && s.ready > 0
    ensures Inv(Serve(s.(ready := s.ready - 1)))
  {
    hide Serve, Jobs;
    var t := s.(ready := s.ready - 1);
    FramedJobs(s, t);
    ServeKeepsJobs(t);
    ServeKeepsThreads(t);
  }

  lemma StepKeepsInv(s: Pool, e: Event)
    requires Inv(s) && Enabled(s, e)
    ensures Inv(Step(s, e))
  {
    hide Inv, Serve, DoWake, DoOwnerDrain, DoDispatch;
    match e
    case Dispatch(m, ok) => DispatchKeepsInv(s, m, ok);
    case WorkerDrain => WorkerDrainKeepsInv(s);
    case WorkerWake(sig, timedOut) => WakeKeepsInv(s, sig, timedOut);
    case JobDone(id) => JobDoneKeepsInv(s, id);
    case OwnerDrain => OwnerDrainKeepsInv(s);
    case _ => OwnerKeepsInv(s, e);
  }

  // ----- the counters -----

  lemma WakeKeepsCounted(s: Pool, wasSignalled: bool, timedOut: bool)
    requires Inv(s) && Counted(s, 0) && Enabled(s, WorkerWake(wasSignalled, timedOut))
    ensures Counted(DoWake(s, wasSignalled, timedOut), 0)
  {
    hide Serve;
    var (core, r) := Woken(s.core, timedOut);
    var t := s.(core := core, parked := s.parked - 1,
                signalled := if wasSignalled then s.signalled - 1 else s.signalled);
    FramedJobs(s, t);
    hide Jobs;
    if r.Continue? {
      ServeKeepsThreads(t);
    }
  }

  lemma DrainKeepsCounted(s: Pool)
    requires Inv(s) && Counted(s, 0) && s.ready > 0
    ensures Counted(Serve(s.(ready := s.ready - 1)), 0)
  {
    hide Serve, Jobs;
    var t := s.(ready := s.ready - 1);
    FramedJobs(s, t);
    ServeKeepsThreads(t);
  }

  lemma DispatchCounts(s: Pool, e: Event)
    requires Inv(s) && Counted(s, 0) && e.Dispatch?
    ensures !Saturates(s, e) ==> Counted(Step(s, e), 0)
    ensures Saturates(s, e) ==> !Exact(Step(s, e))
  {
    hide Jobs;
    if s.core.shutdown {
    } else if s.core.numIdle > 0 {
    } else if s.core.numThreads >= s.cap {
    } else {
    }
  }

  lemma OtherKeepsCounted(s: Pool, e: Event)
    requires Inv(s) && Counted(s, 0) && Enabled(s, e)
    requires !e.Dispatch? && !e.WorkerDrain? && !e.WorkerWake?
    ensures Counted(Step(s, e), 0)
  {
    if e.OwnerDrain? {
      PopOrder(s);
      hide Pop, Drained, Jobs;
    } else {
      hide Jobs, Pop;
      if e.JobDone? {
        assert |s.running - {e.id}| == |s.running| - 1;
      }
    }
  }

  lemma StepKeepsCounted(s: Pool, e: Event)
    requires Inv(s) && Counted(s, 0) && Enabled(s, e) && !Saturates(s, e)
    ensures Counted(Step(s, e), 0)
  {
    if e.Dispatch? {
      DispatchCounts(s, e);
    } else if e.WorkerDrain? {
      DrainKeepsCounted(s);
    } else if e.WorkerWake? {
      WakeKeepsCounted(s, e.wasSignalled, e.timedOut);
    } else {
      OtherKeepsCounted(s, e);
    }
  }

  // ----- every run -----

  ghost predicate IsRun(states: seq<Pool>, events: seq<Event>, cap: nat, timed: bool) {
    && 0 < cap
    && |states| == |events| + 1
    && states[0] == Init(cap, timed)
    && forall i | 0 <= i < |events| :: Enabled(states[i], events[i]) && states[i + 1] == Step(states[i], events[i])
  }

  lemma {:induction false} InvAlong(states: seq<Pool>, events: seq<Event>, cap: nat, timed: bool, k: nat)
    requires IsRun(states, events, cap, timed) && k < |states|
    ensures Inv(states[k])
  {
    if k > 0 {
      InvAlong(states, events, cap, timed, k - 1);
      StepKeepsInv(states[k - 1], events[k - 1]);
    }
  }

  ghost predicate NeverSaturates(states: seq<Pool>, events: seq<Event>, k: nat)
    requires k <= |events| < |states|
  {
    forall i | 0 <= i < k :: !Saturates(states[i], events[i])
  }

  lemma {:induction false} CountedAlong(states: seq<Pool>, events: seq<Event>, cap: nat, timed: bool, k: nat)
    requires IsRun(states, events, cap, timed) && k < |states| && NeverSaturates(states, events, k)
    ensures Counted(states[k], 0)
  {
    if k > 0 {
      hide Inv, Counted, Step, Enabled;
      CountedAlong(states, events, cap, timed, k - 1);
      InvAlong(states, events, cap, timed, k - 1);
      StepKeepsCounted(states[k - 1], events[k - 1]);
    }
  }

  /** In every run the thread count is exact and within the cap. As long as no dispatch met a full
      notification counter, the idle and notify counters add up to the workers on the condition
      variable, no saturating subtraction saturates, and every outstanding notification has a
      worker it has reached. */
  lemma CountersExact(states: seq<Pool>, events: seq<Event>, cap: nat, timed: bool, k: nat)
    requires IsRun(states, events, cap, timed) && k < |states|
    ensures var s := states[k];
            && s.core.numThreads == s.ready + s.parked + |s.running| <= cap
            && s.signalled <= s.parked
            && (NeverSaturates(states, events, k) ==>
                  && Exact(s) && s.core.numNotify <= s.signalled
                  && (k < |events| && events[k].WorkerWake? && s.core.numNotify == 0 ==> s.core.numIdle > 0))
  {
    InvAlong(states, events, cap, timed, k);
    CapAlong(states, events, cap, timed, k);
    if NeverSaturates(states, events, k) {
      CountedAlong(states, events, cap, timed, k);
    }
  }

  /** The condition is exact: the counters have added up all along if and only if no dispatch so
      far found an idle worker with the notification counter full. */
  lemma {:induction false} ExactIffNeverSaturates(states: seq<Pool>, events: seq<Event>, cap: nat, timed: bool, k: nat)
    requires IsRun(states, events, cap, timed) && k < |states|
    ensures (forall i | 0 <= i <= k :: Exact(states[i])) <==> NeverSaturates(states, events, k)
  {
    if k > 0 {
      ExactIffNeverSaturates(states, events, cap, timed, k - 1);
      if NeverSaturates(states, events, k - 1) {
        CountedAlong(states, events, cap, timed, k - 1);
        InvAlong(states, events, cap, timed, k - 1);
        var s, e := states[k - 1], events[k - 1];
        assert states[k] == Step(s, e);
        if Saturates(s, e) {
          DispatchCounts(s, e);
          assert !Exact(states[k]);
        } else {
          CountedAlong(states, events, cap, timed, k);
        }
      }
    }
  }

  /** A cap of at most `u32::MAX` threads rules saturation out, so then the counters are exact in
      every state of every run. */
  lemma {:induction false} BoundedCapNeverSaturates(states: seq<Pool>, events: seq<Event>, cap: nat, timed: bool, k: nat)
    requires IsRun(states, events, cap, timed) && k < |states| && cap <= U32_MAX
    ensures NeverSaturates(states, events, k) && Exact(states[k])
  {
    if k > 0 {
      BoundedCapNeverSaturates(states, events, cap, timed, k - 1);
      CountersExact(states, events, cap, timed, k - 1);
      assert !Saturates(states[k - 1], events[k - 1]);
    }
    CountedAlong(states, events, cap, timed, k);
  }

  /** With room for one more thread than the counter can hold, one dispatch breaks the sum: every
      worker is parked, all but one are notified, and the last one is idle. */
  lemma FullCounterLosesOne() returns (s: Pool)
    ensures Inv(s) && Counted(s, 0) && s.cap == U32_MAX + 1
    ensures Saturates(s, Dispatch(false, true)) && !Exact(Step(s, Dispatch(false, true)))
  {
    var n := U32_MAX + 1;
    s := Init(n, false).(core := Core([], U32_MAX, n, 1, false), parked := n, signalled := U32_MAX);
  }

  lemma {:induction false} CapAlong(states: seq<Pool>, events: seq<Event>, cap: nat, timed: bool, k: nat)
    requires IsRun(states, events, cap, timed) && k < |states|
    ensures states[k].cap == cap && states[k].timed == timed
  {
    if k > 0 {
      CapAlong(states, events, cap, timed, k - 1);
    }
  }

  /** Progress: before shutdown, a non-empty queue has a worker that is not parked, or one that
      a notification has reached and that will consume it. */
  lemma QueueHasAWorker(states: seq<Pool>, events: seq<Event>, cap: nat, timed: bool, k: nat)
    requires IsRun(states, events, cap, timed) && k < |states|
    requires NeverSaturates(states, events, k)
    requires !states[k].core.shutdown && states[k].core.queue != []
    ensures states[k].ready + |states[k].running| > 0 || (states[k].core.numNotify > 0 && states[k].signalled > 0)
  {
    InvAlong(states, events, cap, timed, k);
    CountedAlong(states, events, cap, timed, k);
  }

  /** Why that needs the counters: a dispatch can strand its job only when every worker is parked
      and the counters have forgotten them all. */
  lemma DispatchStrandsIff(s: Pool, mandatory: bool, spawnOk: bool)
    requires Inv(s) && Progress(s, 0) && !s.core.shutdown
    ensures !Progress(DoDispatch(s, mandatory, spawnOk), 0) <==>
              && s.ready + |s.running| == 0 && s.parked > 0
              && s.core.numIdle == 0 && s.core.numNotify == 0
              && (s.core.numThreads >= s.cap || !spawnOk)
  {
    hide Jobs;
    if s.core.numIdle > 0 {
    } else if s.core.numThreads >= s.cap {
    } else {
    }
  }

  /** Conservation: job `i` is still queued, or has left in dispatch order and is in exactly one
      of running, finished and dropped; only optional jobs are dropped, and only in shutdown. */
  lemma JobsConserved(states: seq<Pool>, events: seq<Event>, cap: nat, timed: bool, k: nat, i: nat)
    requires IsRun(states, events, cap, timed) && k < |states|
    requires i < |states[k].accepted|
    ensures var s := states[k];
            && s.popped <= |s.accepted| && s.core.queue == s.accepted[s.popped..]
            && s.accepted[i].id == i
            && Places(s, i) == (if i < s.popped then 1 else 0)
            && (i in s.dropped ==> !s.accepted[i].mandatory && s.core.shutdown)
  {
    InvAlong(states, events, cap, timed, k);
    JobsPlace(states[k], i);
  }

  /** Accepted jobs and the popped prefix only grow; finished and dropped are final. */
  predicate Forward(s: Pool, t: Pool) {
    s.accepted <= t.accepted && s.popped <= t.popped && s.finished <= t.finished && s.dropped <= t.dropped
  }

  lemma StepMovesForward(s: Pool, e: Event)
    requires Enabled(s, e)
    ensures Forward(s, Step(s, e))
  {
    hide Drained, Dispatched, Ids;
  }

  lemma ForwardReflexive(s: Pool)
    ensures Forward(s, s)
  {
  }

  lemma ForwardTransitive(s: Pool, t: Pool, u: Pool)
    requires Forward(s, t) && Forward(t, u)
    ensures Forward(s, u)
  {
  }

  /** A job is started at most once and never revived: along a run, accepted jobs and the popped
      prefix only grow, and finished or dropped is final. */
  lemma {:induction false} JobsMoveForward(states: seq<Pool>, events: seq<Event>, cap: nat, timed: bool, j: nat, k: nat)
    requires IsRun(states, events, cap, timed) && j <= k < |states|
    ensures Forward(states[j], states[k])
  {
    hide Step, Forward, Enabled;
    if j == k {
      ForwardReflexive(states[k]);
    } else {
      JobsMoveForward(states, events, cap, timed, j, k - 1);
      StepMovesForward(states[k - 1], events[k - 1]);
      ForwardTransitive(states[j], states[k - 1], states[k]);
    }
  }

  /** A job is left without a worker of its own only when nobody is idle and no thread can be added;
      an idle worker is notified, and otherwise one more thread is started if there may be. */
  lemma DispatchIsServed(s: Pool, mandatory: bool, spawnOk: bool)
    requires Inv(s) && Counted(s, 0) && !s.core.shutdown
    ensures var t := DoDispatch(s, mandatory, spawnOk);
            if s.core.numIdle > 0 then
              && t.core.numThreads == s.core.numThreads && t.ready == s.ready
              && t.core.numIdle == s.core.numIdle - 1
              && (s.core.numNotify < U32_MAX ==> t.core.numNotify == s.core.numNotify + 1)
              && t.signalled == if s.signalled < s.parked then s.signalled + 1 else s.signalled
            else if s.core.numThreads < s.cap && spawnOk then
              t.core.numThreads == s.core.numThreads + 1 && t.ready == s.ready + 1 && t.signalled == s.signalled
            else t.core.numThreads == s.core.numThreads && t.ready == s.ready && t.signalled == s.signalled
  {
    hide Jobs;
  }

  /** A worker back from the condition variable leaves the pool exactly when it has no notification
      and the pool is shutting down or its wait timed out with nothing to do. Otherwise it serves the
      queue: it runs the next job if there is one, leaves if that ends the shutdown, and parks again
      if not. */
  lemma WorkerLeavesIff(s: Pool, wasSignalled: bool, timedOut: bool)
    requires Inv(s) && Enabled(s, WorkerWake(wasSignalled, timedOut))
    ensures var t := DoWake(s, wasSignalled, timedOut);
            var next := Drained(s.core.queue, s.core.shutdown).next;
            var leaves := s.core.numNotify == 0 && (s.core.shutdown || (timedOut && s.core.queue == []));
            && (t.core.numThreads < s.core.numThreads <==> leaves || (next.None? && s.core.shutdown))
            && (leaves ==> t.core.queue == s.core.queue && t.running == s.running && t.parked == s.parked - 1)
            && (!leaves && next.Some? ==> t.running == s.running + {next.value.id} && t.parked == s.parked - 1)
            && (!leaves && next.None? && !s.core.shutdown ==> t.parked == s.parked && t.running == s.running)
  {
    hide Jobs, Drained, Ids;
  }

  lemma ShutdownStep(s: Pool, e: Event)
    requires Enabled(s, e) && (s.core.shutdown ==> s.signalled == s.parked)
    ensures Step(s, e).core.shutdown ==> Step(s, e).signalled == Step(s, e).parked
  {
    hide Drained, Ids;
  }

  /** Once shutdown has started, a wake is on its way to every parked worker, and no worker parks
      again. */
  lemma {:induction false} ParkedAreSignalled(states: seq<Pool>, events: seq<Event>, cap: nat, timed: bool, k: nat)
    requires IsRun(states, events, cap, timed) && k < |states| && states[k].core.shutdown
    ensures states[k].signalled == states[k].parked
    ensures k < |events| ==> states[k + 1].parked <= states[k].parked
  {
    ShutdownAlong(states, events, cap, timed, k);
    if k < |events| {
      NobodyParks(states[k], events[k]);
    }
  }

  lemma {:induction false} ShutdownAlong(states: seq<Pool>, events: seq<Event>, cap: nat, timed: bool, k: nat)
    requires IsRun(states, events, cap, timed) && k < |states|
    ensures states[k].core.shutdown ==> states[k].signalled == states[k].parked
  {
    if k > 0 {
      hide Step, Enabled;
      ShutdownAlong(states, events, cap, timed, k - 1);
      ShutdownStep(states[k - 1], events[k - 1]);
    }
  }

  lemma NobodyParks(s: Pool, e: Event)
    requires Enabled(s, e) && s.core.shutdown
    ensures Step(s, e).parked <= s.parked
  {
    hide Drained, Ids;
  }

  /** A refused dispatch leaves the queue and every counter as they were. */
  lemma RefusalChangesNothing(s: Pool, mandatory: bool, spawnOk: bool)
    ensures var t := DoDispatch(s, mandatory, spawnOk);
            var r := Dispatched(s.core, s.cap, Job(|s.accepted|, mandatory), spawnOk).1;
            && (!Accepted(r) ==> t == s)
            && (Accepted(r) ==> t.core.queue == s.core.queue + [Job(|s.accepted|, mandatory)])
            && (!Accepted(r) <==> s.core.shutdown || (s.core.numIdle == 0 && s.core.numThreads == 0 && s.cap > 0 && !spawnOk))
  {
  }

  /** The shutdown does not hang: as long as its thread waits with no notification on the way there
      is a worker left, and once there is none its next look ends the wait. */
  lemma ShutdownIsWoken(states: seq<Pool>, events: seq<Event>, cap: nat, timed: bool, k: nat)
    requires IsRun(states, events, cap, timed) && k < |states| && states[k].owner.Waiting?
    ensures states[k].core.numThreads == 0 ==> states[k].owner == Waiting(true)
    ensures k < |events| && events[k].OwnerLook? && states[k].core.numThreads == 0 ==> states[k + 1].owner == Returned(true)
  {
    InvAlong(states, events, cap, timed, k);
  }

  /** When a shutdown without a deadline returns, every accepted mandatory job has finished,
      every other job has finished or been dropped, and no worker is left. */
  lemma UntimedShutdownIsComplete(states: seq<Pool>, events: seq<Event>, cap: nat, k: nat, i: nat)
    requires IsRun(states, events, cap, false) && k < |states|
    requires states[k].owner.Returned? && i < |states[k].accepted|
    ensures var s := states[k];
            && s.ready == 0 && s.parked == 0 && s.running == {} && s.core.numThreads == 0
            && (i in s.finished || i in s.dropped)
            && (s.accepted[i].mandatory ==> i in s.finished)
  {
    InvAlong(states, events, cap, false, k);
    CapAlong(states, events, cap, false, k);
    JobsPlace(states[k], i);
  }
}
