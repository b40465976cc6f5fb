/** The life of a oneshot io_uring operation: its slot in the table, the future that observes it,
    the kernel that owns the request until the terminal completion, and the payload that must
    outlive the request and reach its typed `complete` once. */
module UringOneshot {
  import opened Basics
  import OpTables

  type OpKey = OpTables.OpKey
  type Payload = nat
  type Waker = nat
  type Cqe = nat

  // ----- the slot -----

  datatype Observer = Unobserved | WaitingWith(waker: Waker) | DetachedWith(payload: Payload)

  datatype CancelSqe = NeedPush | InFlight

  datatype Oneshot =
    | Submitted
    | Waiting(waker: Waker)
    | Completed(cqe: Cqe)
    | Detached(payload: Payload)
    | Canceling(observer: Observer, sqe: CancelSqe)

  /** What a terminal completion does to a slot: its next state or its removal, a task to wake,
      and a detached payload to run `complete` on. */
  datatype Effect = Effect(state: Oneshot, remove: bool, wake: Option<Waker>, cleanup: Option<Payload>)

  function Complete(o: Oneshot, c: Cqe): Effect {
    match o
    case Submitted => Effect(Completed(c), false, None, None)
    case Waiting(w) => Effect(Completed(c), false, Some(w), None)
    case Detached(p) => Effect(Submitted, true, None, Some(p))
    case Canceling(Unobserved, _) => Effect(Completed(c), false, None, None)
    case Canceling(WaitingWith(w), _) => Effect(Completed(c), false, Some(w), None)
    case Canceling(DetachedWith(p), _) => Effect(Submitted, true, None, Some(p))
    case Completed(_) => Effect(o, false, None, None)
  }

  /** The slot after a cancel request, and whether a cancel must be pushed to the kernel. */
  function RequestCancel(o: Oneshot): (Oneshot, bool) {
    match o
    case Submitted => (Canceling(Unobserved, NeedPush), true)
    case Waiting(w) => (Canceling(WaitingWith(w), NeedPush), true)
    case Detached(p) => (Canceling(DetachedWith(p), NeedPush), true)
    case Canceling(_, NeedPush) => (o, true)
    case Canceling(_, InFlight) => (o, false)
    case Completed(_) => (o, false)
  }

  function MarkInFlight(o: Oneshot): Oneshot {
    if o.Canceling? then o.(sqe := InFlight) else o
  }

  datatype Polled = StillPending(state: Oneshot) | Ready(cqe: Cqe) | PollPanic

  function Poll(o: Oneshot, w: Waker): Polled {
    match o
    case Submitted => StillPending(Waiting(w))
    case Waiting(_) => StillPending(Waiting(w))
    case Canceling(Unobserved, sqe) => StillPending(Canceling(WaitingWith(w), sqe))
    case Canceling(WaitingWith(_), sqe) => StillPending(Canceling(WaitingWith(w), sqe))
    case Completed(c) => Ready(c)
    case Detached(_) => PollPanic
    case Canceling(DetachedWith(_), _) => PollPanic
  }

  datatype Removed = Kept(state: Oneshot) | Retired(cqe: Cqe) | RemovePanic

  /** Detaching the observer: its payload moves into the slot until the completion arrives; a
      completion already there is handed back. */
  function Remove(o: Oneshot, data: Option<Payload>): Removed {
    match o
    case Submitted => if data.Some? then Kept(Detached(data.value)) else RemovePanic
    case Waiting(_) => if data.Some? then Kept(Detached(data.value)) else RemovePanic
    case Canceling(DetachedWith(_), _) => RemovePanic
    case Canceling(_, sqe) => if data.Some? then Kept(Canceling(DetachedWith(data.value), sqe)) else RemovePanic
    case Completed(c) => Retired(c)
    case Detached(_) => RemovePanic
  }

  /** The payload a slot holds, and the task it would wake. */
  function HeldPayload(o: Oneshot): Option<Payload> {
    match o
    case Detached(p) => Some(p)
    case Canceling(DetachedWith(p), _) => Some(p)
    case _ => None
  }

  function HeldWaker(o: Oneshot): Option<Waker> {
    match o
    case Waiting(w) => Some(w)
    case Canceling(WaitingWith(w), _) => Some(w)
    case _ => None
  }

  // ----- one operation and everyone who deals with it -----

  datatype Future = NoFuture | Alive(data: Option<Payload>)

  /** `slot` is the entry in the operation table and `future` the `Op` in some task, with its
      payload until that is taken. A submission in progress holds the payload in `starting`.
      `cleanup` and `wake` are deferred until the backend is released. The rest records what
      happened: whether the kernel still owes the terminal completion and what that said, what was
      submitted, where the payload went, whom the last pending poll and the last wake named,
      whether a wake was dropped, and whether an unreachable branch or failed `expect` was hit. */
  datatype Life = Life(
    slot: Option<Oneshot>,
    starting: Option<Payload>,
    future: Future,
    cleanup: Option<(Payload, Cqe)>,
    wake: Option<Waker>,
    inKernel: bool,
    cqe: Option<Cqe>,
    submitted: Payload,
    refused: Option<Payload>,
    completed: Option<(Payload, Cqe)>,
    abandoned: Option<(Payload, Cqe)>,
    lastPoll: Option<Waker>,
    woken: Option<Waker>,
    unwoken: bool,
    fault: bool)

  /** A call that hands control to the kernel is two events, so completions can arrive in
      between. `CancelPushed` is the push of a cancel request succeeding, at once or on a later
      turn; dropping a future is `CancelOp` and then `DropFuture`. `ArriveAgain` is a duplicate of a
      terminal completion. `Abandon` is a dispatch that fails after having applied completions:
      what it deferred is dropped without being run. */
  datatype Event =
    | Submit(key: OpKey, payload: Payload)
    | SubmitAccepted(key: OpKey)
    | SubmitRefused(key: OpKey)
    | PollFuture(key: OpKey, waker: Waker)
    | CancelOp(key: OpKey)
    | CancelPushed(key: OpKey)
    | DropFuture(key: OpKey)
    | Arrive(key: OpKey, cqe: Cqe)
    | ArriveAgain(key: OpKey, cqe: Cqe)
    | RunCleanup(key: OpKey)
    | RunWake(key: OpKey)
    | Abandon(key: OpKey)

  predicate EnabledIn(l: Life, e: Event) {
    match e
    case Submit(_, _) => false
    case SubmitAccepted(_) => l.starting.Some?
    case SubmitRefused(_) => l.starting.Some?
    case PollFuture(_, _) => l.future.Alive? && l.future.data.Some?
    case CancelOp(_) => true
    case CancelPushed(_) => true
    case DropFuture(_) => l.future.Alive?
    case Arrive(_, _) => l.inKernel
    case ArriveAgain(_, _) => l.cqe.Some?
    case RunCleanup(_) => l.cleanup.Some?
    case RunWake(_) => l.wake.Some?
    case Abandon(_) => l.cleanup.Some? || l.wake.Some?
  }

  function Born(p: Payload): Life {
    Life(Some(Submitted), Some(p), NoFuture, None, None, false, None, p, None, None, None, None, None, false, false)
  }

  function Fail(l: Life): Life { l.(fault := true) }

  /** The typed `complete`, which consumes the payload; a second one would be a fault. */
  function TypedComplete(l: Life, p: Payload, c: Cqe): Life {
    l.(completed := Some((p, c)), fault := l.fault || l.completed.Some?)
  }

  function AfterPoll(l: Life, w: Waker): Life
    requires l.future.Alive? && l.future.data.Some?
  {
    if l.slot.None? then Fail(l)
    else match Poll(l.slot.value, w)
      case StillPending(o) => l.(slot := Some(o), lastPoll := Some(w))
      case Ready(c) => TypedComplete(l.(slot := None, future := Alive(None)), l.future.data.value, c)
      case PollPanic => Fail(l)
  }

  /** A payload dropped with its future, never having reached `complete`, is a fault. */
  function AfterDrop(l: Life): Life
    requires l.future.Alive?
  {
    var t := l.(future := NoFuture);
    var data := l.future.data;
    if l.slot.None? then (if data.Some? then Fail(t) else t)
    else match Remove(l.slot.value, data)
      case Kept(o) => t.(slot := Some(o))
      case Retired(c) => if data.Some? then TypedComplete(t.(slot := None), data.value, c) else t.(slot := None)
      case RemovePanic => Fail(t)
  }

  function Dispatch(l: Life, c: Cqe): Life {
    if l.slot.None? then l
    else
      var e := Complete(l.slot.value, c);
      l.(slot := if e.remove then None else Some(e.state),
         wake := if e.wake.Some? then e.wake else l.wake,
         cleanup := if e.cleanup.Some? then Some((e.cleanup.value, c)) else l.cleanup)
  }

  function StepIn(l: Life, e: Event): Life
    requires EnabledIn(l, e)
  {
    match e
    case SubmitAccepted(_) => l.(starting := None, future := Alive(l.starting), inKernel := true)
    case SubmitRefused(_) => l.(slot := None, starting := None, refused := l.starting)
    case PollFuture(_, w) => AfterPoll(l, w)
    case CancelOp(_) => if l.slot.Some? then l.(slot := Some(RequestCancel(l.slot.value).0)) else l
    case CancelPushed(_) => if l.slot.Some? then l.(slot := Some(MarkInFlight(l.slot.value))) else l
    case DropFuture(_) => AfterDrop(l)
    case Arrive(_, c) => Dispatch(l, c).(inKernel := false, cqe := Some(c))
    case ArriveAgain(_, c) => Dispatch(l, c)
    case RunCleanup(_) => TypedComplete(l.(cleanup := None), l.cleanup.value.0, l.cleanup.value.1)
    case RunWake(_) => l.(wake := None, woken := l.wake)
    case Abandon(_) =>
      l.(cleanup := None, wake := None,
         unwoken := l.unwoken || l.wake.Some?,
         abandoned := if l.cleanup.Some? then l.cleanup else l.abandoned)
  }

  // ----- what holds of an operation at every moment -----

  function One(b: bool): nat { if b then 1 else 0 }

  function SlotPayload(l: Life): Option<Payload> { if l.slot.Some? then HeldPayload(l.slot.value) else None }

  function SlotWaker(l: Life): Option<Waker> { if l.slot.Some? then HeldWaker(l.slot.value) else None }

  predicate Observed(l: Life) { l.future.Alive? && l.future.data.Some? }

  /** Every place the payload can be. */
  function Owners(l: Life): nat {
    One(l.starting.Some?) + One(Observed(l)) + One(SlotPayload(l).Some?)
    + One(l.cleanup.Some?) + One(l.completed.Some?) + One(l.abandoned.Some?) + One(l.refused.Some?)
  }

  /** Whoever has the payload has the one that was submitted. */
  predicate Genuine(l: Life) {
    && (l.starting.Some? ==> l.starting.value == l.submitted)
    && (Observed(l) ==> l.future.data.value == l.submitted)
    && (SlotPayload(l).Some? ==> SlotPayload(l).value == l.submitted)
    && (l.cleanup.Some? ==> l.cleanup.value.0 == l.submitted)
    && (l.completed.Some? ==> l.completed.value.0 == l.submitted)
    && (l.abandoned.Some? ==> l.abandoned.value.0 == l.submitted)
    && (l.refused.Some? ==> l.refused.value == l.submitted)
  }

  /** The slot is there while the operation is being submitted, while the kernel has it, and
      until an observer has taken the completion. */
  predicate SlotOk(l: Life) {
    && (l.slot.Some? <==> l.starting.Some? || l.inKernel || (l.cqe.Some? && Observed(l)))
    && (l.slot.Some? ==> (l.slot.value.Completed? <==> l.cqe.Some?))
    && (l.slot.Some? && l.slot.value.Completed? ==> l.slot.value.cqe == l.cqe.value)
    && (SlotPayload(l).Some? <==> l.inKernel && !l.future.Alive?)
    && (l.starting.Some? ==> !l.future.Alive? && !l.inKernel && l.lastPoll.None?)
    && (l.inKernel && l.future.Alive? ==> Observed(l))
    && (l.future.Alive? ==> l.inKernel || l.cqe.Some?)
    && !(l.inKernel && l.cqe.Some?)
    && (l.starting.Some? ==> l.cqe.None?)
  }

  /** What the completion said travels with the payload, and nothing completes without one. */
  predicate CqeOk(l: Life) {
    && (l.cleanup.Some? ==> Some(l.cleanup.value.1) == l.cqe)
    && (l.completed.Some? ==> Some(l.completed.value.1) == l.cqe)
    && (l.abandoned.Some? ==> Some(l.abandoned.value.1) == l.cqe)
    && (l.refused.Some? ==> !l.future.Alive? && !l.inKernel && l.cqe.None?)
  }

  predicate WakeOk(l: Life) {
    && (SlotWaker(l).Some? ==> SlotWaker(l) == l.lastPoll)
    && (l.inKernel && Observed(l) ==> SlotWaker(l) == l.lastPoll)
    && (l.cqe.Some? && Observed(l) && l.lastPoll.Some? ==> l.wake.Some? || l.woken.Some? || l.unwoken)
    && (l.wake.Some? ==> l.wake == l.lastPoll)
    && (l.woken.Some? ==> l.woken == l.lastPoll)
    && (l.wake.Some? || l.woken.Some? || l.unwoken ==> l.cqe.Some?)
    && !(l.wake.Some? && l.cleanup.Some?)
  }

  predicate LifeOk(l: Life) { !l.fault && Owners(l) == 1 && Genuine(l) && SlotOk(l) && CqeOk(l) && WakeOk(l) }

  lemma StepKeepsLife(l: Life, e: Event)
    requires LifeOk(l) && EnabledIn(l, e)
    ensures LifeOk(StepIn(l, e))
  {
    match e
    case SubmitAccepted(_) =>
    case SubmitRefused(_) =>
    case PollFuture(_, _) =>
    case CancelOp(_) =>
    case CancelPushed(_) =>
    case DropFuture(_) =>
    case Arrive(_, _) =>
    case ArriveAgain(_, _) =>
    case RunCleanup(_) =>
    case RunWake(_) =>
    case Abandon(_) =>
  }

  // ----- any number of operations, over any run -----

  /** Every operation ever submitted, by its key; keys are never issued twice. */
  type Sys = map<OpKey, Life>

  predicate Enabled(s: Sys, e: Event) {
    match e
    case Submit(k, _) => k !in s
    case CancelOp(_) => true
    case _ => e.key in s && EnabledIn(s[e.key], e)
  }

  function Step(s: Sys, e: Event): Sys
    requires Enabled(s, e)
  {
    match e
    case Submit(k, p) => s[k := Born(p)]
    case _ => if e.key in s then s[e.key := StepIn(s[e.key], e)] else s
  }

  ghost predicate IsRun(states: seq<Sys>, events: seq<Event>) {
    && |states| == |events| + 1 && states[0] == map[]
    && forall i | 0 <= i < |events| :: Enabled(states[i], events[i]) && states[i + 1] == Step(states[i], events[i])
  }

  lemma {:induction false} OkAlong(states: seq<Sys>, events: seq<Event>, i: nat, k: OpKey)
    requires IsRun(states, events) && i < |states| && k in states[i]
    ensures LifeOk(states[i][k])
  {
    hide LifeOk, StepIn;
    if i > 0 {
      var s, e := states[i - 1], events[i - 1];
      if k in s {
        OkAlong(states, events, i - 1, k);
        if k == e.key {
          StepKeepsLife(s[k], e);
        }
      } else {
        BornOk(e.payload);
      }
    }
  }

  lemma BornOk(p: Payload)
    ensures LifeOk(Born(p))
  {
  }

  /** No `expect` fails and no unreachable branch is reached, whatever the order of submission,
      polls, cancels, drops and completions. */
  lemma NoPanic(states: seq<Sys>, events: seq<Event>, i: nat, k: OpKey)
    requires IsRun(states, events) && i < |states| && k in states[i]
    ensures !states[i][k].fault
  {
    OkAlong(states, events, i, k);
  }

  /** At every moment the payload is in exactly one place, and it is the one that was submitted;
      while the kernel has the request that place is the future or the slot. */
  lemma OneOwner(states: seq<Sys>, events: seq<Event>, i: nat, k: OpKey)
    requires IsRun(states, events) && i < |states| && k in states[i]
    ensures Owners(states[i][k]) == 1 && Genuine(states[i][k])
    ensures states[i][k].inKernel ==>
              One(Observed(states[i][k])) + One(SlotPayload(states[i][k]).Some?) == 1
  {
    OkAlong(states, events, i, k);
  }

  /** The slot cannot be recycled before the terminal completion, nor while an observer may
      still ask for it. */
  lemma SlotOutlivesRequest(states: seq<Sys>, events: seq<Event>, i: nat, k: OpKey)
    requires IsRun(states, events) && i < |states| && k in states[i]
    ensures states[i][k].inKernel || Observed(states[i][k]) ==> states[i][k].slot.Some?
    ensures states[i][k].inKernel ==> states[i][k].cqe.None?
  {
    OkAlong(states, events, i, k);
  }

  /** `complete` runs only after the terminal completion, on the payload that was submitted and
      with that completion; and once the completion is in, the operation has completed, or waits
      for its future, or for its deferred cleanup, or was abandoned by a failed dispatch. */
  lemma CompletedExactlyOnce(states: seq<Sys>, events: seq<Event>, i: nat, k: OpKey)
    requires IsRun(states, events) && i < |states| && k in states[i]
    ensures var l := states[i][k];
            && (l.completed.Some? ==> l.cqe.Some? && l.completed == Some((l.submitted, l.cqe.value)))
            && (l.cqe.Some? ==>
                  One(l.completed.Some?) + One(Observed(l)) + One(l.cleanup.Some?) + One(l.abandoned.Some?) == 1)
            && (l.cqe.Some? && Observed(l) ==> l.slot == Some(Completed(l.cqe.value)))
            && (l.cqe.Some? && l.cleanup.Some? ==> l.cleanup == Some((l.submitted, l.cqe.value)))
  {
    OkAlong(states, events, i, k);
  }

  lemma StepKeepsCompletion(l: Life, e: Event)
    requires LifeOk(l) && EnabledIn(l, e) && l.completed.Some?
    ensures StepIn(l, e).completed == l.completed
  {
  }

  /** A completion once delivered is never delivered again, to anyone. */
  lemma {:induction false} CompletionIsFinal(states: seq<Sys>, events: seq<Event>, i: nat, j: nat, k: OpKey)
    requires IsRun(states, events) && i <= j < |states| && k in states[i] && states[i][k].completed.Some?
    ensures k in states[j] && states[j][k].completed == states[i][k].completed
  {
    hide LifeOk, StepIn;
    if i < j {
      CompletionIsFinal(states, events, i, j - 1, k);
      OkAlong(states, events, j - 1, k);
      if events[j - 1].key == k {
        StepKeepsCompletion(states[j - 1][k], events[j - 1]);
      }
    }
  }

  /** Completion wakes the task of the latest pending poll, unless its dispatch failed (module
      `UringTurns` says exactly when); until then the slot remembers that task and no other. */
  lemma LatestWakerIsWoken(states: seq<Sys>, events: seq<Event>, i: nat, k: OpKey)
    requires IsRun(states, events) && i < |states| && k in states[i]
    ensures var l := states[i][k];
            Observed(l) && l.lastPoll.Some? ==>
              if l.cqe.None? then SlotWaker(l) == l.lastPoll
              else l.wake == l.lastPoll || l.woken == l.lastPoll || l.unwoken
  {
    OkAlong(states, events, i, k);
  }

  // ----- cancel requests -----

  /** Somebody asked to cancel the operation. */
  predicate Asked(states: seq<Sys>, events: seq<Event>, i: nat, k: OpKey)
    requires i <= |events| && |states| == |events| + 1
  {
    exists j | 0 <= j < i :: events[j] == CancelOp(k) && k in states[j]
  }

  /** After that the ring took a cancel for it. */
  predicate Told(states: seq<Sys>, events: seq<Event>, i: nat, k: OpKey)
    requires i <= |events| && |states| == |events| + 1
  {
    exists j | 0 <= j < i :: events[j] == CancelPushed(k) && Asked(states, events, j, k)
  }

  predicate Unfinished(l: Life) { l.slot.Some? && !l.slot.value.Completed? }

  predicate IsCanceling(l: Life) { l.slot.Some? && l.slot.value.Canceling? }

  predicate IsInFlight(l: Life) { IsCanceling(l) && l.slot.value.sqe.InFlight? }

  lemma CancelStep(l: Life, e: Event)
    requires LifeOk(l) && EnabledIn(l, e) && Unfinished(StepIn(l, e))
    ensures Unfinished(l)
    ensures IsCanceling(StepIn(l, e)) <==> IsCanceling(l) || e.CancelOp?
    ensures IsInFlight(StepIn(l, e)) <==> IsInFlight(l) || (IsCanceling(l) && e.CancelPushed?)
  {
  }

  lemma OlderAsked(states: seq<Sys>, events: seq<Event>, i: nat, k: OpKey)
    requires |states| == |events| + 1 && 0 < i <= |events|
    ensures Asked(states, events, i, k) <==>
              Asked(states, events, i - 1, k) || (events[i - 1] == CancelOp(k) && k in states[i - 1])
    ensures Told(states, events, i, k) <==>
              Told(states, events, i - 1, k) || (events[i - 1] == CancelPushed(k) && Asked(states, events, i - 1, k))
  {
  }

  lemma {:induction false} UnbornIsUnasked(states: seq<Sys>, events: seq<Event>, i: nat, k: OpKey)
    requires IsRun(states, events) && i < |states| && k !in states[i]
    ensures !Asked(states, events, i, k) && !Told(states, events, i, k)
  {
    if i > 0 {
      assert k !in states[i - 1] by { hide StepIn; }
      UnbornIsUnasked(states, events, i - 1, k);
      OlderAsked(states, events, i, k);
    }
  }

  /** A cancel request reaches the kernel or is owed: an unfinished operation is being cancelled
      exactly when somebody asked for it, whatever it was doing then, and the slot takes the request
      for delivered exactly when the ring has taken one since. */
  lemma {:induction false} CancelIsOwedUntilTaken(states: seq<Sys>, events: seq<Event>, i: nat, k: OpKey)
    requires IsRun(states, events) && i < |states| && k in states[i] && Unfinished(states[i][k])
    ensures IsCanceling(states[i][k]) <==> Asked(states, events, i, k)
    ensures IsInFlight(states[i][k]) <==> Told(states, events, i, k)
  {
    hide LifeOk, StepIn;
    var s, e := states[i - 1], events[i - 1];
    OlderAsked(states, events, i, k);
    if k !in s {
      UnbornIsUnasked(states, events, i - 1, k);
      assert states[i][k] == Born(e.payload);
    } else {
      if e.key == k {
        OkAlong(states, events, i - 1, k);
        CancelStep(s[k], e);
      }
      CancelIsOwedUntilTaken(states, events, i - 1, k);
    }
  }

  /** A duplicate of the terminal completion changes nothing. */
  lemma DuplicateIsIgnored(states: seq<Sys>, events: seq<Event>, i: nat, k: OpKey, c: Cqe)
    requires IsRun(states, events) && i < |states| && k in states[i] && states[i][k].cqe.Some?
    ensures Step(states[i], ArriveAgain(k, c)) == states[i]
  {
    OkAlong(states, events, i, k);
  }
}
