/** The task protocol: pollers, wakers, the join handle and the scheduler-owned reference
    racing on one state word that is also the only lock of two plain cells, the stage
    (future or output) and the join waker.

    Every atomic operation on the word is one step, and so is every access to a cell: a party
    whose program counter stands at an access *is* accessing that cell until its next step, so
    two overlapping accesses show up as two program counters in one state. The number of
    wakers, of concurrent `wake_by_ref`/`abort` calls and of threads about to drop a reference
    is unbounded; parties that hold no state of their own are counted, not named. */
module TaskCell {
  import opened Basics
  import opened TaskWord

  datatype Outcome = Returned(value: nat) | PanicError | CancelError

  datatype Stage = Future | Finished(output: Outcome) | Consumed

  /** Where the thread inside `poll` stands. It holds one reference until it is `NoPoll`. */
  datatype Poller =
    | NoPoll
    | Polling                    // inside the future's `poll`
    | Storing(output: Outcome)   // future dropped, about to store the output
    | ToIdlePc                   // poll was pending, about to leave RUNNING
    | Cancelling(dropped: bool)  // in `cancel_task`, replacing the future by an error
    | Completing                 // about to set COMPLETE
    | DroppingOutput             // nobody will join: dropping the output
    | WakingJoin                 // reading the join waker
    | UnsettingWaker             // about to clear JOIN_WAKER
    | DroppingWaker              // the join handle is gone: dropping its waker

  /** Where the join handle stands; the waker passed to the current poll is carried along. */
  datatype Join =
    | JoinIdle
    | Comparing(waker: nat)      // reading the stored waker
    | Unsetting(waker: nat)      // about to clear JOIN_WAKER
    | Reloading(waker: nat)      // about to load the word again
    | Writing(waker: nat)        // writing the waker cell
    | SettingBit(waker: nat)     // about to set JOIN_WAKER
    | Clearing                   // completion won the race: emptying the waker cell
    | Taking                     // taking the output
    | Dropping                   // fast path failed, about to clear JOIN_INTEREST
    | DropOutput(andWaker: bool) // dropping the output, then perhaps the stored waker
    | DropWaker                  // dropping the stored waker
    | JoinGone

  /** Calls that borrow a reference instead of owning one. */
  datatype Lent = Lent(submitting: nat, returning: nat) {
    predicate Quiet() { submitting == 0 && returning == 0 }
  }

  datatype Lender = ByWaker | ByPoll | ByJoin | ByOwned

  datatype Crew = Crew(
    queued: nat,        // run-queue tokens handed to the scheduler, not yet run
    submitOwn: nat,     // threads holding one reference and one fresh token, about to schedule it
    releasing: nat,     // threads about to drop their reference
    wakers: nat,        // owned wakers
    viaWaker: Lent, viaPoll: Lent, viaJoin: Lent, viaOwned: Lent,
    freeing: nat,       // threads that saw the count reach zero
    freed: nat)         // deallocations so far

  datatype Log = Log(
    discarded: bool,         // the scheduler dropped a token instead of running it
    pended: bool,            // some poll returned Pending
    produced: Option<Outcome>,
    taken: Option<Outcome>,
    droppedByJoin: bool,
    droppedByPoller: bool,
    lastPending: Option<nat>,  // waker of the join handle's last poll, if that was Pending
    woken: Option<nat>)        // join waker woken by completion

  datatype Task = Task(
    word: Snapshot, stage: Stage, cell: Option<nat>,
    poller: Poller, join: Join, owned: bool,
    crew: Crew, log: Log,
    fault: bool)  // an assertion failed, or code documented as unreachable was reached

  // ----- accounting -----

  function Tokens(s: Task): nat {
    s.crew.queued + s.crew.submitOwn + s.crew.viaWaker.submitting + s.crew.viaPoll.submitting
    + s.crew.viaJoin.submitting + s.crew.viaOwned.submitting
  }

  /** References that are alive somewhere. */
  function RefsHeld(s: Task): nat {
    Tokens(s) + s.crew.submitOwn + s.crew.releasing + s.crew.wakers
    + (if s.poller.NoPoll? then 0 else 1) + (if s.join.JoinGone? then 0 else 1) + (if s.owned then 1 else 0)
  }

  function LentBy(s: Task, l: Lender): Lent {
    match l
    case ByWaker => s.crew.viaWaker
    case ByPoll => s.crew.viaPoll
    case ByJoin => s.crew.viaJoin
    case ByOwned => s.crew.viaOwned
  }

  function SetLent(s: Task, l: Lender, v: Lent): Task {
    match l
    case ByWaker => s.(crew := s.crew.(viaWaker := v))
    case ByPoll => s.(crew := s.crew.(viaPoll := v))
    case ByJoin => s.(crew := s.crew.(viaJoin := v))
    case ByOwned => s.(crew := s.crew.(viaOwned := v))
  }

  /** The lender holds a reference it can lend right now. */
  predicate CanLend(s: Task, l: Lender) {
    match l
    case ByWaker => s.crew.wakers > 0
    case ByPoll => s.poller.Polling?
    case ByJoin => s.join.JoinIdle?
    case ByOwned => s.owned
  }

  /** An owned waker may be consumed: while calls on borrowed wakers are in flight, the wakers
      they borrow stay, so at least one remains. */
  predicate WakerFree(s: Task) {
    s.crew.wakers >= 2 || (s.crew.wakers == 1 && s.crew.viaWaker.Quiet())
  }

  // ----- accesses to the plain cells -----

  datatype Access = NoAccess | Read | Write

  function PollerStage(p: Poller): Access {
    if p.Polling? || p.Storing? || p.Cancelling? || p.DroppingOutput? then Write else NoAccess
  }

  function JoinStage(j: Join): Access {
    if j.Taking? || j.DropOutput? then Write else NoAccess
  }

  function PollerCell(p: Poller): Access {
    if p.WakingJoin? then Read else if p.DroppingWaker? then Write else NoAccess
  }

  function JoinCell(j: Join): Access {
    if j.Comparing? then Read else if j.Writing? || j.Clearing? || j.DropWaker? then Write else NoAccess
  }

  predicate Conflict(a: Access, b: Access) {
    (a.Write? && !b.NoAccess?) || (b.Write? && !a.NoAccess?)
  }

  /** No access to a cell overlaps a write by another party, deallocation included. */
  predicate NoRace(s: Task) {
    && !Conflict(PollerStage(s.poller), JoinStage(s.join))
    && !Conflict(PollerCell(s.poller), JoinCell(s.join))
    && (s.crew.freeing > 0 ==> s.poller.NoPoll? && s.join.JoinGone? && s.crew.freeing == 1)
  }

  // ----- steps -----

  datatype Event =
    // scheduler
    | Run | DropToken
    | ScheduleOwn(discard: bool) | ScheduleLent(lender: Lender, discard: bool) | ReturnLent(lender: Lender)
    // references
    | CloneWaker(lender: Lender) | DropWakerRef | DropOwned | Release | Free
    // wakes and cancellation
    | WakeByRef(lender: Lender) | WakeByVal | Abort(lender: Lender)
    // the poller
    | FutureReady(output: Outcome) | StoreOutput | FuturePending | GoIdle
    | CancelDrop | CancelStore | Complete | PollerDropOutput | WakeJoin | UnsetJoinWaker | PollerDropWaker
    // the join handle
    | JoinPoll(waker: nat) | JoinCompare | JoinUnset | JoinReload | JoinWrite | JoinSetBit | JoinClear
    | JoinTake | JoinDrop(spurious: bool) | JoinDropSlow | JoinDropOutput | JoinDropWaker

  /** The step adds a reference. */
  predicate AddsReference(s: Task, e: Event) {
    match e
    case CloneWaker(_) => true
    case WakeByRef(_) => s.word.Idle() && !s.word.notified
    case WakeByVal => s.word.Idle() && !s.word.notified
    case Abort(_) => s.word.Idle() && !s.word.notified && !s.word.cancelled
    case GoIdle => s.word.notified && !s.word.cancelled
    case _ => false
  }

  /** When a step can be taken. `CanInc` is the source's own guard on adding a reference; beyond
      it the process aborts. */
  predicate Enabled(s: Task, e: Event) {
    (AddsReference(s, e) ==> CanInc(s.word)) &&
    match e
    case Run => s.crew.queued > 0
    case DropToken => s.crew.queued > 0
    case ScheduleOwn(_) => s.crew.submitOwn > 0
    case ScheduleLent(l, _) => LentBy(s, l).submitting > 0
    case ReturnLent(l) => LentBy(s, l).returning > 0
    case CloneWaker(l) => (l.ByWaker? || l.ByPoll?) && CanLend(s, l)
    case DropWakerRef => WakerFree(s)
    case DropOwned => s.owned && s.crew.viaOwned.Quiet()
    case Release => s.crew.releasing > 0
    case Free => s.crew.freeing > 0
    case WakeByRef(l) => (l.ByWaker? || l.ByPoll?) && CanLend(s, l)
    case WakeByVal => WakerFree(s)
    case Abort(l) => (l.ByJoin? || l.ByOwned?) && CanLend(s, l)
    case FutureReady(_) => s.poller.Polling? && s.crew.viaPoll.Quiet()
    case StoreOutput => s.poller.Storing?
    case FuturePending => s.poller.Polling? && s.crew.viaPoll.Quiet()
    case GoIdle => s.poller.ToIdlePc?
    case CancelDrop => s.poller == Cancelling(false)
    case CancelStore => s.poller == Cancelling(true)
    case Complete => s.poller.Completing?
    case PollerDropOutput => s.poller.DroppingOutput?
    case WakeJoin => s.poller.WakingJoin?
    case UnsetJoinWaker => s.poller.UnsettingWaker?
    case PollerDropWaker => s.poller.DroppingWaker?
    case JoinPoll(_) => s.join.JoinIdle? && s.crew.viaJoin.Quiet()
    case JoinCompare => s.join.Comparing?
    case JoinUnset => s.join.Unsetting?
    case JoinReload => s.join.Reloading?
    case JoinWrite => s.join.Writing?
    case JoinSetBit => s.join.SettingBit?
    case JoinClear => s.join.Clearing?
    case JoinTake => s.join.Taking?
    case JoinDrop(_) => s.join.JoinIdle? && s.crew.viaJoin.Quiet()
    case JoinDropSlow => s.join.Dropping?
    case JoinDropOutput => s.join.DropOutput?
    case JoinDropWaker => s.join.DropWaker?
  }

  function Fail(s: Task): Task { s.(fault := true) }

  /** A party is about to call `drop_reference`. */
  function ToRelease(s: Task): Task { s.(crew := s.crew.(releasing := s.crew.releasing + 1)) }

  function ToFree(s: Task): Task { s.(crew := s.crew.(freeing := s.crew.freeing + 1)) }

  /** `Task::run` up to the first decision in `poll`. */
  function DoRun(s: Task): Task
    requires s.crew.queued > 0
  {
    var t := s.(crew := s.crew.(queued := s.crew.queued - 1));
    match ToRunning(s.word)
    case Panicked => Fail(s)
    case Keep(_) => Fail(s)
    case Swap(RunFailed, w) => t.(word := w)
    case Swap(RunDealloc, w) => ToFree(t.(word := w))
    case Swap(RunSuccess, w) =>
      if !s.poller.NoPoll? || !s.stage.Future? then Fail(s)
      else t.(word := w, poller := Polling)
    case Swap(RunCancelled, w) =>
      if !s.poller.NoPoll? then Fail(s) else t.(word := w, poller := Cancelling(false))
  }

  /** `schedule` hands the token to the scheduler, which queues it or drops it. */
  function HandOver(s: Task, discard: bool): Task {
    if discard then ToRelease(s.(log := s.log.(discarded := true)))
    else s.(crew := s.crew.(queued := s.crew.queued + 1))
  }

  function DoScheduleOwn(s: Task, discard: bool): Task
    requires s.crew.submitOwn > 0
  {
    ToRelease(HandOver(s.(crew := s.crew.(submitOwn := s.crew.submitOwn - 1)), discard))
  }

  function DoScheduleLent(s: Task, l: Lender, discard: bool): Task
    requires LentBy(s, l).submitting > 0
  {
    var v := LentBy(s, l);
    HandOver(SetLent(s, l, Lent(v.submitting - 1, v.returning + 1)), discard)
  }

  function DoReturnLent(s: Task, l: Lender): Task
    requires LentBy(s, l).returning > 0
  {
    SetLent(s, l, LentBy(s, l).(returning := LentBy(s, l).returning - 1))
  }

  function DoRelease(s: Task): Task
    requires s.crew.releasing > 0
  {
    if s.word.refs == 0 then Fail(s)
    else
      var t := s.(word := s.word.(refs := s.word.refs - 1), crew := s.crew.(releasing := s.crew.releasing - 1));
      if s.word.refs == 1 then ToFree(t) else t
  }

  function DoFree(s: Task): Task
    requires s.crew.freeing > 0
  {
    s.(crew := s.crew.(freeing := s.crew.freeing - 1, freed := s.crew.freed + 1))
  }

  function DoClone(s: Task): Task {
    s.(word := s.word.(refs := s.word.refs + 1), crew := s.crew.(wakers := s.crew.wakers + 1))
  }

  function LoseWaker(s: Task): Task
    requires s.crew.wakers > 0
  {
    s.(crew := s.crew.(wakers := s.crew.wakers - 1))
  }

  function Submit(s: Task, l: Lender): Task {
    SetLent(s, l, LentBy(s, l).(submitting := LentBy(s, l).submitting + 1))
  }

  function DoWakeByRef(s: Task, l: Lender): Task {
    match ToNotifiedByRef(s.word)
    case Panicked => Fail(s)
    case Keep(_) => s
    case Swap(NotifySubmit, w) => Submit(s.(word := w), l)
    case Swap(_, w) => s.(word := w)
  }

  function DoWakeByVal(s: Task): Task
    requires s.crew.wakers > 0
  {
    var t := LoseWaker(s);
    match ToNotifiedByVal(s.word)
    case Panicked => Fail(s)
    case Keep(_) => Fail(s)
    case Swap(NotifyNothing, w) => t.(word := w)
    case Swap(NotifyDealloc, w) => ToFree(t.(word := w))
    case Swap(NotifySubmit, w) => t.(word := w, crew := t.crew.(submitOwn := t.crew.submitOwn + 1))
  }

  function DoAbort(s: Task, l: Lender): Task {
    match ToCancelled(s.word)
    case Panicked => Fail(s)
    case Keep(_) => s
    case Swap(CancelNothing, w) => s.(word := w)
    case Swap(CancelSubmit, w) => Submit(s.(word := w), l)
  }

  function DoGoIdle(s: Task): Task {
    match ToIdle(s.word)
    case Panicked => Fail(s)
    case Keep(_) => s.(poller := Cancelling(false))
    case Swap(IdleOk, w) => s.(word := w, poller := NoPoll)
    case Swap(IdleDealloc, w) => ToFree(s.(word := w, poller := NoPoll))
    case Swap(IdleNotified, w) =>
      s.(word := w, poller := NoPoll, crew := s.crew.(submitOwn := s.crew.submitOwn + 1))
    case Swap(IdleCancelled, _) => Fail(s)
  }

  function DoComplete(s: Task): Task {
    if !s.word.running || s.word.complete then Fail(s)
    else
      var w := s.word.(running := false, complete := true);
      if !w.joinInterest then s.(word := w, poller := DroppingOutput)
      else if w.joinWaker then s.(word := w, poller := WakingJoin)
      else ToRelease(s.(word := w, poller := NoPoll))
  }

  function DoWakeJoin(s: Task): Task {
    if s.cell.None? then Fail(s)
    else s.(poller := UnsettingWaker, log := s.log.(woken := s.cell))
  }

  function DoUnsetJoinWaker(s: Task): Task {
    if !s.word.complete || !s.word.joinWaker then Fail(s)
    else
      var w := s.word.(joinWaker := false);
      if !w.joinInterest then s.(word := w, poller := DroppingWaker)
      else ToRelease(s.(word := w, poller := NoPoll))
  }

  function DoJoinPoll(s: Task, waker: nat): Task {
    if !s.word.joinInterest then Fail(s)
    else if s.word.complete then s.(join := Taking)
    else if s.word.joinWaker then s.(join := Comparing(waker))
    else s.(join := Writing(waker))
  }

  function JoinPending(s: Task, waker: nat): Task {
    s.(join := JoinIdle, log := s.log.(lastPending := Some(waker)))
  }

  function DoJoinCompare(s: Task): Task
    requires s.join.Comparing?
  {
    if s.cell.None? then Fail(s)
    else if s.cell == Some(s.join.waker) then JoinPending(s, s.join.waker)
    else s.(join := Unsetting(s.join.waker))
  }

  function DoJoinUnset(s: Task): Task
    requires s.join.Unsetting?
  {
    match UnsetWaker(s.word)
    case Panicked => Fail(s)
    case Keep(_) => s.(join := Taking)
    case Swap(_, w) => s.(word := w, join := Reloading(s.join.waker))
  }

  function DoJoinReload(s: Task): Task
    requires s.join.Reloading?
  {
    if !s.word.joinInterest || s.word.joinWaker then Fail(s) else s.(join := Writing(s.join.waker))
  }

  function DoJoinSetBit(s: Task): Task
    requires s.join.SettingBit?
  {
    match SetJoinWaker(s.word)
    case Panicked => Fail(s)
    case Keep(_) => s.(join := Clearing)
    case Swap(_, w) => JoinPending(s.(word := w), s.join.waker)
  }

  /** Taking twice is the caller's error and panics in the caller; anything else that finds no
      output would be ours. */
  function DoJoinTake(s: Task): Task {
    match s.stage
    case Finished(o) =>
      s.(stage := Consumed, join := JoinIdle, log := s.log.(taken := Some(o), lastPending := None))
    case _ => if s.log.taken.None? then Fail(s) else s.(stage := Consumed, join := JoinIdle, log := s.log.(lastPending := None))
  }

  function DoJoinDrop(s: Task, spurious: bool): Task {
    if !spurious && s.word == INITIAL
    then s.(word := INITIAL.(joinInterest := false, refs := 1), join := JoinGone)
    else s.(join := Dropping)
  }

  function JoinRelease(s: Task): Task { ToRelease(s.(join := JoinGone)) }

  function DoJoinDropSlow(s: Task): Task {
    match ToJoinHandleDropped(s.word)
    case Panicked => Fail(s)
    case Keep(_) => Fail(s)
    case Swap(d, w) =>
      var t := s.(word := w);
      if d.dropOutput then t.(join := DropOutput(d.dropWaker))
      else if d.dropWaker then t.(join := DropWaker)
      else JoinRelease(t)
  }

  function DoJoinDropOutput(s: Task): Task
    requires s.join.DropOutput?
  {
    var t := s.(stage := Consumed,
                log := if s.stage.Finished? then s.log.(droppedByJoin := true) else s.log);
    if s.join.andWaker then t.(join := DropWaker) else JoinRelease(t)
  }

  function DoDropToken(s: Task): Task
    requires s.crew.queued > 0
  {
    ToRelease(s.(crew := s.crew.(queued := s.crew.queued - 1), log := s.log.(discarded := true)))
  }

  function DoFutureReady(s: Task, output: Outcome): Task { s.(stage := Consumed, poller := Storing(output)) }

  function DoStore(s: Task, output: Outcome): Task {
    s.(stage := Finished(output), poller := Completing, log := s.log.(produced := Some(output)))
  }

  function DoFuturePending(s: Task): Task { s.(poller := ToIdlePc, log := s.log.(pended := true)) }

  function DoPollerDropOutput(s: Task): Task {
    ToRelease(s.(stage := Consumed, poller := NoPoll,
                 log := if s.stage.Finished? then s.log.(droppedByPoller := true) else s.log))
  }

  function DoJoinWrite(s: Task): Task
    requires s.join.Writing?
  {
    s.(cell := Some(s.join.waker), join := SettingBit(s.join.waker))
  }

  function Step(s: Task, e: Event): Task
    requires Enabled(s, e)
  {
    match e
    case Run => DoRun(s)
    case DropToken => DoDropToken(s)
    case ScheduleOwn(d) => DoScheduleOwn(s, d)
    case ScheduleLent(l, d) => DoScheduleLent(s, l, d)
    case ReturnLent(l) => DoReturnLent(s, l)
    case CloneWaker(_) => DoClone(s)
    case DropWakerRef => ToRelease(LoseWaker(s))
    case DropOwned => ToRelease(s.(owned := false))
    case Release => DoRelease(s)
    case Free => DoFree(s)
    case WakeByRef(l) => DoWakeByRef(s, l)
    case WakeByVal => DoWakeByVal(s)
    case Abort(l) => DoAbort(s, l)
    case FutureReady(o) => DoFutureReady(s, o)
    case StoreOutput => DoStore(s, s.poller.output)
    case FuturePending => DoFuturePending(s)
    case GoIdle => DoGoIdle(s)
    case CancelDrop => s.(stage := Consumed, poller := Cancelling(true))
    case CancelStore => DoStore(s, CancelError)
    case Complete => DoComplete(s)
    case PollerDropOutput => DoPollerDropOutput(s)
    case WakeJoin => DoWakeJoin(s)
    case UnsetJoinWaker => DoUnsetJoinWaker(s)
    case PollerDropWaker => ToRelease(s.(cell := None, poller := NoPoll))
    case JoinPoll(w) => DoJoinPoll(s, w)
    case JoinCompare => DoJoinCompare(s)
    case JoinUnset => DoJoinUnset(s)
    case JoinReload => DoJoinReload(s)
    case JoinWrite => DoJoinWrite(s)
    case JoinSetBit => DoJoinSetBit(s)
    case JoinClear => s.(cell := None, join := Taking)
    case JoinTake => DoJoinTake(s)
    case JoinDrop(sp) => DoJoinDrop(s, sp)
    case JoinDropSlow => DoJoinDropSlow(s)
    case JoinDropOutput => DoJoinDropOutput(s)
    case JoinDropWaker => JoinRelease(s.(cell := None))
  }

  /** `new_task` and `new_owned_task`: one token in the caller's hands, one join handle and,
      for a local task, the scheduler-owned reference. */
  function Init(owned: bool): Task {
    Task(INITIAL.(refs := if owned then 3 else 2), Future, None, NoPoll, JoinIdle, owned,
         Crew(1, 0, 0, 0, Lent(0, 0), Lent(0, 0), Lent(0, 0), Lent(0, 0), 0, 0),
         Log(false, false, None, None, false, false, None, None),
         false)
  }

  // ----- the inductive invariant -----

  predicate InvRefs(s: Task) {
    && s.word.refs == RefsHeld(s)
    && (s.crew.freeing + s.crew.freed == if s.word.refs == 0 then 1 else 0)
    && (!s.crew.viaWaker.Quiet() ==> s.crew.wakers > 0)
    && (!s.crew.viaPoll.Quiet() ==> s.poller.Polling?)
    && (!s.crew.viaJoin.Quiet() ==> s.join.JoinIdle?)
    && (!s.crew.viaOwned.Quiet() ==> s.owned)
  }

  predicate InvLifecycle(s: Task) {
    && !(s.word.running && s.word.complete)
    && (s.word.running <==>
        s.poller.Polling? || s.poller.Storing? || s.poller.ToIdlePc? || s.poller.Cancelling? || s.poller.Completing?)
    && (s.poller.DroppingOutput? || s.poller.WakingJoin? || s.poller.UnsettingWaker? || s.poller.DroppingWaker?
        ==> s.word.complete)
    && (s.poller.Cancelling? ==> s.word.cancelled)
  }

  predicate InvTokens(s: Task) {
    && Tokens(s) <= 1
    && (Tokens(s) == 1 ==> s.word.Idle() && s.word.notified)
    && (s.word.Idle() && s.word.notified && !s.log.discarded ==> Tokens(s) == 1)
    && (s.word.cancelled && s.word.Idle() ==> s.word.notified)
    && (s.poller.ToIdlePc? ==> s.log.pended)
    && (!s.log.pended ==>
        && s.crew.submitOwn == 0 && s.crew.viaWaker.Quiet() && s.crew.viaPoll.Quiet()
        && s.crew.viaJoin.Quiet() && s.crew.viaOwned.Quiet()
        && (s.word.Idle() ==> s.word.notified))
  }

  predicate InvStage(s: Task) {
    && (s.poller.NoPoll? && !s.word.complete ==> s.stage.Future?)
    && (s.poller.Polling? || s.poller.ToIdlePc? || s.poller == Cancelling(false) ==> s.stage.Future?)
    && (s.poller.Storing? || s.poller == Cancelling(true) ==> s.stage.Consumed?)
    && (s.poller.Completing? || s.poller.DroppingOutput? ==> s.stage.Finished?)
    && (s.log.produced.Some? <==> s.poller.Completing? || s.word.complete)
    && (s.stage.Finished? ==> s.log.produced == Some(s.stage.output))
    && (s.log.taken.Some? ==> s.log.taken == s.log.produced)
    && (s.word.complete ==> !s.stage.Future?)
    // one consumer at most, and an unconsumed output always has one coming
    && Consumers(s) + (if s.stage.Finished? then 1 else 0) == (if s.log.produced.Some? then 1 else 0)
    && (s.stage.Finished? && s.word.complete ==>
        s.word.joinInterest || s.join.DropOutput? || s.poller.DroppingOutput?)
    && (s.poller.DroppingOutput? ==> s.join.DropWaker? || s.join.JoinGone?)
    && (s.join.Taking? || s.join.DropOutput? || s.join.Clearing? ==> s.word.complete)
    && (s.log.droppedByJoin ==> s.join.DropWaker? || s.join.JoinGone?)
    && (s.log.droppedByPoller ==> !s.word.joinInterest)
  }

  function Consumers(s: Task): nat {
    (if s.log.taken.Some? then 1 else 0) + (if s.log.droppedByJoin then 1 else 0)
    + (if s.log.droppedByPoller then 1 else 0)
  }

  predicate InvJoinCell(s: Task) {
    && (s.word.joinInterest <==> !(s.join.DropOutput? || s.join.DropWaker? || s.join.JoinGone?))
    && (s.word.joinWaker && !s.word.complete ==> s.cell.Some? && s.word.joinInterest)
    && (s.join.Writing? || s.join.SettingBit? || s.join.Reloading? || s.join.Clearing? ==> !s.word.joinWaker)
    && (s.join.Comparing? || s.join.Unsetting? ==> s.cell.Some? && (s.word.complete || s.word.joinWaker))
    && (s.join.SettingBit? ==> s.cell == Some(s.join.waker))
    && (s.poller.WakingJoin? || s.poller.UnsettingWaker? ==> s.word.joinWaker && s.cell.Some?)
    && (s.word.complete && s.word.joinWaker ==> s.poller.WakingJoin? || s.poller.UnsettingWaker?)
    && (s.poller.DroppingWaker? ==> s.join.JoinGone? || s.join == DropOutput(false))
    && (s.join == DropOutput(true) || s.join.DropWaker? ==> !s.word.joinWaker)
  }

  predicate InvJoinWake(s: Task) {
    && (s.join.JoinIdle? && s.log.lastPending.Some? ==> Promised(s, s.log.lastPending))
    && (s.join.Comparing? ==> Promised(s, s.cell))
    && (s.log.woken.Some? ==> s.word.complete && !s.poller.WakingJoin?)
  }

  /** The stored waker is `w` and will be, or has been, woken by completion. */
  predicate Promised(s: Task, w: Option<nat>) {
    && (!s.word.complete ==> s.word.joinWaker && s.cell == w)
    && (s.word.complete ==> (s.poller.WakingJoin? && s.cell == w) || s.log.woken == w)
  }

  predicate Inv(s: Task) {
    !s.fault && InvRefs(s) && InvLifecycle(s) && InvTokens(s) && InvStage(s) && InvJoinCell(s) && InvJoinWake(s)
  }

  // ----- one lemma per step -----

  lemma StepKeepsInv(s: Task, e: Event)
    requires Inv(s) && Enabled(s, e)
    ensures Inv(Step(s, e))
  {
    hide Inv, ToRelease, LoseWaker, JoinRelease,
      DoAbort, DoClone, DoComplete, DoDropToken, DoFree, DoFuturePending, DoFutureReady, DoGoIdle, DoJoinCompare, DoJoinDrop,
      DoJoinDropOutput, DoJoinDropSlow, DoJoinPoll, DoJoinReload, DoJoinSetBit, DoJoinTake, DoJoinUnset, DoJoinWrite, DoPollerDropOutput, DoRelease,
      DoReturnLent, DoRun, DoScheduleLent, DoScheduleOwn, DoStore, DoUnsetJoinWaker, DoWakeByRef, DoWakeByVal, DoWakeJoin;
    match e
    case Run => RunKeepsInv(s);
    case DropToken => DropTokenKeepsInv(s);
    case ScheduleOwn(d) => ScheduleOwnKeepsInv(s, d);
    case ScheduleLent(l, d) => ScheduleLentKeepsInv(s, l, d);
    case ReturnLent(l) => ReturnLentKeepsInv(s, l);
    case CloneWaker(l) => CloneWakerKeepsInv(s, l);
    case DropWakerRef => DropWakerRefKeepsInv(s);
    case DropOwned => DropOwnedKeepsInv(s);
    case Release => ReleaseKeepsInv(s);
    case Free => FreeKeepsInv(s);
    case WakeByRef(l) => WakeByRefKeepsInv(s, l);
    case WakeByVal => WakeByValKeepsInv(s);
    case Abort(l) => AbortKeepsInv(s, l);
    case FutureReady(o) => FutureReadyKeepsInv(s, o);
    case StoreOutput => StoreOutputKeepsInv(s);
    case FuturePending => FuturePendingKeepsInv(s);
    case GoIdle => GoIdleKeepsInv(s);
    case CancelDrop => CancelDropKeepsInv(s);
    case CancelStore => CancelStoreKeepsInv(s);
    case Complete => CompleteKeepsInv(s);
    case PollerDropOutput => PollerDropOutputKeepsInv(s);
    case WakeJoin => WakeJoinKeepsInv(s);
    case UnsetJoinWaker => UnsetJoinWakerKeepsInv(s);
    case PollerDropWaker => PollerDropWakerKeepsInv(s);
    case JoinPoll(w) => JoinPollKeepsInv(s, w);
    case JoinCompare => JoinCompareKeepsInv(s);
    case JoinUnset => JoinUnsetKeepsInv(s);
    case JoinReload => JoinReloadKeepsInv(s);
    case JoinWrite => JoinWriteKeepsInv(s);
    case JoinSetBit => JoinSetBitKeepsInv(s);
    case JoinClear => JoinClearKeepsInv(s);
    case JoinTake => JoinTakeKeepsInv(s);
    case JoinDrop(sp) => JoinDropKeepsInv(s, sp);
    case JoinDropSlow => JoinDropSlowKeepsInv(s);
    case JoinDropOutput => JoinDropOutputKeepsInv(s);
    case JoinDropWaker => JoinDropWakerKeepsInv(s);
  }

  lemma RunKeepsInv(s: Task)
    requires Inv(s)
    requires s.crew.queued > 0
    ensures Inv(DoRun(s))
  {
  }

  lemma DropTokenKeepsInv(s: Task)
    requires Inv(s)
    requires s.crew.queued > 0
    ensures Inv(DoDropToken(s))
  {
  }

  lemma ScheduleOwnKeepsInv(s: Task, d: bool)
    requires Inv(s)
    requires s.crew.submitOwn > 0
    ensures Inv(DoScheduleOwn(s, d))
  {
  }

  lemma ScheduleLentKeepsInv(s: Task, l: Lender, d: bool)
    requires Inv(s)
    requires LentBy(s, l).submitting > 0
    ensures Inv(DoScheduleLent(s, l, d))
  {
    match l {
      case ByWaker =>
      case ByPoll =>
      case ByJoin =>
      case ByOwned =>
    }
  }

  lemma ReturnLentKeepsInv(s: Task, l: Lender)
    requires Inv(s)
    requires LentBy(s, l).returning > 0
    ensures Inv(DoReturnLent(s, l))
  {
    match l {
      case ByWaker =>
      case ByPoll =>
      case ByJoin =>
      case ByOwned =>
    }
  }

  lemma CloneWakerKeepsInv(s: Task, l: Lender)
    requires Inv(s) && (AddsReference(s, CloneWaker(l)) ==> CanInc(s.word))
    requires (l.ByWaker? || l.ByPoll?) && CanLend(s, l)
    ensures Inv(DoClone(s))
  {
    match l {
      case ByWaker =>
      case ByPoll =>
      case ByJoin =>
      case ByOwned =>
    }
  }

  lemma DropWakerRefKeepsInv(s: Task)
    requires Inv(s)
    requires WakerFree(s)
    ensures Inv(ToRelease(LoseWaker(s)))
  {
  }

  lemma DropOwnedKeepsInv(s: Task)
    requires Inv(s)
    requires s.owned && s.crew.viaOwned.Quiet()
    ensures Inv(ToRelease(s.(owned := false)))
  {
  }

  lemma ReleaseKeepsInv(s: Task)
    requires Inv(s)
    requires s.crew.releasing > 0
    ensures Inv(DoRelease(s))
  {
    if s.word.refs == 1 {
    } else {
    }
  }

  lemma FreeKeepsInv(s: Task)
    requires Inv(s)
    requires s.crew.freeing > 0
    ensures Inv(DoFree(s))
  {
  }

  lemma WakeByRefKeepsInv(s: Task, l: Lender)
    requires Inv(s) && (AddsReference(s, WakeByRef(l)) ==> CanInc(s.word))
    requires (l.ByWaker? || l.ByPoll?) && CanLend(s, l)
    ensures Inv(DoWakeByRef(s, l))
  {
    if s.word.complete {
    } else if s.word.notified {
    } else if s.word.running {
    } else {
      match l {
        case ByWaker =>
        case ByPoll =>
        case ByJoin =>
        case ByOwned =>
      }
    }
  }

  lemma WakeByValKeepsInv(s: Task)
    requires Inv(s) && (AddsReference(s, WakeByVal) ==> CanInc(s.word))
    requires WakerFree(s)
    ensures Inv(DoWakeByVal(s))
  {
    hide Inv, DoWakeByVal;
    if s.word.running {
      WakeByValRunning(s);
    } else if s.word.complete || s.word.notified {
      WakeByValRedundant(s);
    } else {
      WakeByValSubmits(s);
    }
  }

  lemma WakeByValRunning(s: Task)
    requires Inv(s) && WakerFree(s) && s.word.running
    ensures Inv(DoWakeByVal(s))
  {
    assert s.word.refs >= 2;
  }

  lemma WakeByValRedundant(s: Task)
    requires Inv(s) && WakerFree(s) && !s.word.running && (s.word.complete || s.word.notified)
    ensures Inv(DoWakeByVal(s))
  {
    if s.word.refs == 1 {
    } else {
    }
  }

  lemma WakeByValSubmits(s: Task)
    requires Inv(s) && CanInc(s.word) && WakerFree(s) && s.word.Idle() && !s.word.notified
    ensures Inv(DoWakeByVal(s))
  {
  }

  lemma AbortKeepsInv(s: Task, l: Lender)
    requires Inv(s) && (AddsReference(s, Abort(l)) ==> CanInc(s.word))
    requires (l.ByJoin? || l.ByOwned?) && CanLend(s, l)
    ensures Inv(DoAbort(s, l))
  {
    if s.word.complete || s.word.cancelled {
    } else if s.word.running || s.word.notified {
    } else {
      match l {
        case ByWaker =>
        case ByPoll =>
        case ByJoin =>
        case ByOwned =>
      }
    }
  }

  lemma FutureReadyKeepsInv(s: Task, o: Outcome)
    requires Inv(s)
    requires s.poller.Polling? && s.crew.viaPoll.Quiet()
    ensures Inv(DoFutureReady(s, o))
  {
  }

  lemma StoreOutputKeepsInv(s: Task)
    requires Inv(s)
    requires s.poller.Storing?
    ensures Inv(DoStore(s, s.poller.output))
  {
  }

  lemma FuturePendingKeepsInv(s: Task)
    requires Inv(s)
    requires s.poller.Polling? && s.crew.viaPoll.Quiet()
    ensures Inv(DoFuturePending(s))
  {
  }

  lemma GoIdleKeepsInv(s: Task)
    requires Inv(s) && (AddsReference(s, GoIdle) ==> CanInc(s.word))
    requires s.poller.ToIdlePc?
    ensures Inv(DoGoIdle(s))
  {
    if s.word.cancelled {
    } else if s.word.notified {
    } else if s.word.refs == 1 {
    } else {
    }
  }

  lemma CancelDropKeepsInv(s: Task)
    requires Inv(s)
    requires s.poller == Cancelling(false)
    ensures Inv(s.(stage := Consumed, poller := Cancelling(true)))
  {
  }

  lemma CancelStoreKeepsInv(s: Task)
    requires Inv(s)
    requires s.poller == Cancelling(true)
    ensures Inv(DoStore(s, CancelError))
  {
  }

  lemma CompleteKeepsInv(s: Task)
    requires Inv(s)
    requires s.poller.Completing?
    ensures Inv(DoComplete(s))
  {
  }

  lemma PollerDropOutputKeepsInv(s: Task)
    requires Inv(s)
    requires s.poller.DroppingOutput?
    ensures Inv(DoPollerDropOutput(s))
  {
  }

  lemma WakeJoinKeepsInv(s: Task)
    requires Inv(s)
    requires s.poller.WakingJoin?
    ensures Inv(DoWakeJoin(s))
  {
  }

  lemma UnsetJoinWakerKeepsInv(s: Task)
    requires Inv(s)
    requires s.poller.UnsettingWaker?
    ensures Inv(DoUnsetJoinWaker(s))
  {
  }

  lemma PollerDropWakerKeepsInv(s: Task)
    requires Inv(s)
    requires s.poller.DroppingWaker?
    ensures Inv(ToRelease(s.(cell := None, poller := NoPoll)))
  {
  }

  lemma JoinPollKeepsInv(s: Task, w: nat)
    requires Inv(s)
    requires s.join.JoinIdle? && s.crew.viaJoin.Quiet()
    ensures Inv(DoJoinPoll(s, w))
  {
    if s.word.complete {
    } else if s.word.joinWaker {
    } else {
    }
  }

  lemma JoinCompareKeepsInv(s: Task)
    requires Inv(s)
    requires s.join.Comparing?
    ensures Inv(DoJoinCompare(s))
  {
    if s.cell == Some(s.join.waker) {
    } else {
    }
  }

  lemma JoinUnsetKeepsInv(s: Task)
    requires Inv(s)
    requires s.join.Unsetting?
    ensures Inv(DoJoinUnset(s))
  {
  }

  lemma JoinReloadKeepsInv(s: Task)
    requires Inv(s)
    requires s.join.Reloading?
    ensures Inv(DoJoinReload(s))
  {
  }

  lemma JoinWriteKeepsInv(s: Task)
    requires Inv(s)
    requires s.join.Writing?
    ensures Inv(DoJoinWrite(s))
  {
  }

  lemma JoinSetBitKeepsInv(s: Task)
    requires Inv(s)
    requires s.join.SettingBit?
    ensures Inv(DoJoinSetBit(s))
  {
  }

  lemma JoinClearKeepsInv(s: Task)
    requires Inv(s)
    requires s.join.Clearing?
    ensures Inv(s.(cell := None, join := Taking))
  {
  }

  lemma JoinTakeKeepsInv(s: Task)
    requires Inv(s)
    requires s.join.Taking?
    ensures Inv(DoJoinTake(s))
  {
  }

  lemma JoinDropKeepsInv(s: Task, sp: bool)
    requires Inv(s)
    requires s.join.JoinIdle? && s.crew.viaJoin.Quiet()
    ensures Inv(DoJoinDrop(s, sp))
  {
  }

  lemma JoinDropSlowKeepsInv(s: Task)
    requires Inv(s)
    requires s.join.Dropping?
    ensures Inv(DoJoinDropSlow(s))
  {
    if s.word.complete {
      if s.word.joinWaker {
      } else {
      }
    } else {
    }
  }

  lemma JoinDropOutputKeepsInv(s: Task)
    requires Inv(s)
    requires s.join.DropOutput?
    ensures Inv(DoJoinDropOutput(s))
  {
  }

  lemma JoinDropWakerKeepsInv(s: Task)
    requires Inv(s)
    requires s.join.DropWaker?
    ensures Inv(JoinRelease(s.(cell := None)))
  {
  }
}
