/** The kqueue backend: readiness registrations, one waiter per descriptor and direction, and
    blocking jobs whose completions come back through a queue. */
module Kqueue {
  import opened Basics
  import OpTables

  type OpKey = OpTables.OpKey
  type Payload = nat
  type Waker = nat

  /** What a completion says. */
  datatype Content = Result(code: int) | Canceled | Interrupted | AlreadyExists

  datatype Direction = Read | Write

  /** A kqueue filter: at most one operation can wait on it. */
  datatype Interest = Interest(fd: int, direction: Direction)

  datatype OnReady = Retry | CompleteSocketError

  datatype Registration = Registration(interest: Interest, onReady: OnReady)

  datatype Observer = WaitingWith(waker: Waker) | DetachedWith(payload: Payload)

  datatype Status =
    | Submitted
    | Ready
    | Waiting(waker: Waker)
    | Completed(content: Content)
    | Detached(payload: Payload)
    | Canceling(observer: Observer)

  datatype Slot = Slot(status: Status, registration: Option<Registration>)

  // ----- one slot -----

  datatype Effect = Effect(status: Status, remove: bool, wake: Option<Waker>, cleanup: Option<Payload>)

  function Complete(s: Status, c: Content): Effect {
    match s
    case Submitted => Effect(Completed(c), false, None, None)
    case Ready => Effect(Completed(c), false, None, None)
    case Waiting(w) => Effect(Completed(c), false, Some(w), None)
    case Detached(p) => Effect(Submitted, true, None, Some(p))
    case Canceling(WaitingWith(w)) => Effect(Completed(c), false, Some(w), None)
    case Canceling(DetachedWith(p)) => Effect(Submitted, true, None, Some(p))
    case Completed(_) => Effect(s, false, None, None)
  }

  function BecomeReady(s: Status): Effect {
    match s
    case Submitted => Effect(Ready, false, None, None)
    case Waiting(w) => Effect(Ready, false, Some(w), None)
    case Detached(_) => Effect(s, true, None, None)
    case Canceling(DetachedWith(_)) => Effect(s, true, None, None)
    case Canceling(WaitingWith(_)) => Effect(s, false, None, None)
    case Ready => Effect(s, false, None, None)
    case Completed(_) => Effect(s, false, None, None)
  }

  /** The task that waits for the operation, and the payload an abandoned one keeps. */
  function HeldWaker(s: Status): Option<Waker> {
    match s
    case Waiting(w) => Some(w)
    case Canceling(WaitingWith(w)) => Some(w)
    case _ => None
  }

  function HeldPayload(s: Status): Option<Payload> {
    match s
    case Detached(p) => Some(p)
    case Canceling(DetachedWith(p)) => Some(p)
    case _ => None
  }

  predicate Orphaned(s: Status) { s.Detached? || (s.Canceling? && s.observer.DetachedWith?) }

  /** Waiting for a blocking job rather than for readiness. */
  predicate Blocked(s: Slot) { s.status.Detached? || s.status.Canceling? || (s.status.Waiting? && s.registration.None?) }

  // ----- the backend -----

  /** `ops` is the operation table, `interests` the waiter of each filter, `done` the queue that
      blocking jobs post to. The rest records the environment: `jobs` has the operations whose job
      still holds its completion guard, `futures` those that are observed; `dispatched` and
      `answered` are those that ever had a job accepted and those a job's completion reached. */
  datatype Kq = Kq(
    ops: map<OpKey, Slot>,
    interests: map<Interest, OpKey>,
    done: seq<(OpKey, Content)>,
    jobs: set<OpKey>,
    futures: set<OpKey>,
    issued: set<OpKey>,
    dispatched: set<OpKey>,
    answered: set<OpKey>)

  const INIT := Kq(map[], map[], [], {}, {}, {}, {}, {})

  function Install(q: Kq, k: OpKey, r: Registration): Kq
    requires k in q.ops
  {
    q.(interests := q.interests[r.interest := k], ops := q.ops[k := q.ops[k].(registration := Some(r))])
  }

  function Take(q: Kq, k: OpKey): Kq
    requires k in q.ops
  {
    if q.ops[k].registration.None? then q
    else
      var i := q.ops[k].registration.value.interest;
      q.(ops := q.ops[k := q.ops[k].(registration := None)],
         interests := if i in q.interests && q.interests[i] == k then q.interests - {i} else q.interests)
  }

  function SetStatus(q: Kq, k: OpKey, s: Status): Kq
    requires k in q.ops
  {
    q.(ops := q.ops[k := q.ops[k].(status := s)])
  }

  function Settle(q: Kq, k: OpKey, e: Effect): Kq
    requires k in q.ops
  {
    if e.remove then q.(ops := q.ops - {k}) else SetStatus(q, k, e.status)
  }

  // ----- readiness events -----

  datatype KEvent = KEvent(key: OpKey, interest: Interest, readable: bool, writable: bool, error: Content, writeError: Content)

  predicate IsCurrent(q: Kq, k: OpKey, i: Interest) {
    k in q.ops && q.ops[k].registration.Some? && q.ops[k].registration.value.interest == i
  }

  /** What readiness does to a registered operation: retry on the next poll, or complete with the
      socket's error. */
  function OnEvent(s: Slot, c: Content): Effect
    requires s.registration.Some?
  {
    if s.registration.value.onReady.Retry? then BecomeReady(s.status) else Complete(s.status, c)
  }

  function MarkedReady(q: Kq, k: OpKey, i: Interest, c: Content): Kq {
    if k !in q.ops || q.ops[k].registration.None? then q
    else if q.ops[k].registration.value.interest != i then Install(Take(q, k), k, q.ops[k].registration.value)
    else Settle(Take(q, k), k, OnEvent(q.ops[k], c))
  }

  /** End of file on a read filter also readies the writer of the descriptor. */
  function DispatchEvent(q: Kq, e: KEvent): Kq {
    if !IsCurrent(q, e.key, e.interest) then q
    else
      var t := MarkedReady(q, e.key, e.interest, e.error);
      var w := Interest(e.interest.fd, Write);
      if e.readable && e.writable && w in t.interests then MarkedReady(t, t.interests[w], w, e.writeError) else t
  }

  // ----- blocking completions -----

  function DrainOne(q: Kq): Kq
    requires q.done != []
  {
    var (k, c) := q.done[0];
    var t := q.(done := q.done[1..]);
    if k in t.ops then Settle(t, k, Complete(t.ops[k].status, c)).(answered := t.answered + {k}) else t
  }

  // ----- calls -----

  /** What a non-blocking attempt led to: a result; a filter to wait on, and kqueue's refusal if
      any; a blocking job, and the pool's refusal if any. A refused job's guard is dropped, and posts
      its own completion, before the refusal is seen. */
  datatype Attempt =
    | Immediate(content: Content)
    | Register(registration: Registration, refusal: Option<Content>)
    | Block(refusal: Option<Content>)

  datatype Outcome = StillPending | Finished(content: Content) | PollPanic

  function AfterAttempt(q: Kq, k: OpKey, w: Waker, a: Attempt): (Kq, Outcome)
    requires k in q.ops
  {
    var gone := q.(ops := q.ops - {k}, futures := q.futures - {k});
    match a
    case Immediate(c) => (gone, Finished(c))
    case Register(r, refusal) =>
      if r.interest in q.interests then (gone, Finished(AlreadyExists))
      else if refusal.Some? then (gone, Finished(refusal.value))
      else (SetStatus(Install(q, k, r), k, Waiting(w)), StillPending)
    case Block(refusal) =>
      if refusal.None? then
        (SetStatus(q, k, Waiting(w)).(jobs := q.jobs + {k}, dispatched := q.dispatched + {k}), StillPending)
      else (gone.(done := q.done + [(k, Interrupted)], dispatched := q.dispatched + {k}), Finished(refusal.value))
  }

  function Poll(q: Kq, k: OpKey, w: Waker, a: Attempt): (Kq, Outcome) {
    if k !in q.ops then (q, PollPanic)
    else match q.ops[k].status
      case Completed(c) => (q.(ops := q.ops - {k}, futures := q.futures - {k}), Finished(c))
      case Submitted => AfterAttempt(q, k, w, a)
      case Ready => AfterAttempt(SetStatus(q, k, Submitted), k, w, a)
      case Waiting(_) => (SetStatus(q, k, Waiting(w)), StillPending)
      case Canceling(WaitingWith(_)) => (SetStatus(q, k, Canceling(WaitingWith(w))), StillPending)
      case Canceling(DetachedWith(_)) => (q, PollPanic)
      case Detached(_) => (q, PollPanic)
  }

  function Cancel(q: Kq, k: OpKey): Kq {
    if k !in q.ops then q
    else match q.ops[k].status
      case Submitted => SetStatus(q, k, Completed(Canceled))
      case Ready => SetStatus(q, k, Completed(Canceled))
      case Waiting(w) =>
        if q.ops[k].registration.Some? then SetStatus(Take(q, k), k, Completed(Canceled))
        else SetStatus(q, k, Canceling(WaitingWith(w)))
      case Detached(p) => SetStatus(q, k, Canceling(DetachedWith(p)))
      case Canceling(_) => q
      case Completed(_) => q
  }

  /** The observer leaves. A readiness wait is undone at once; a blocking job keeps the payload. */
  function Remove(q: Kq, k: OpKey, data: Payload): (Kq, Option<Content>) {
    var t := q.(futures := q.futures - {k});
    if k !in q.ops then (t, None)
    else
      var gone := t.(ops := q.ops - {k});
      match q.ops[k].status
      case Submitted => (gone, None)
      case Ready => (gone, None)
      case Waiting(_) =>
        if q.ops[k].registration.Some? then (Take(t, k).(ops := q.ops - {k}), None)
        else (SetStatus(t, k, Detached(data)), None)
      case Canceling(WaitingWith(_)) =>
        if q.ops[k].registration.Some? then (Take(t, k).(ops := q.ops - {k}), None)
        else (SetStatus(t, k, Canceling(DetachedWith(data))), None)
      case Completed(c) => (gone, Some(c))
      case Detached(_) => (t, None)
      case Canceling(DetachedWith(_)) => (t, None)
  }

  datatype Event =
    | Submit(key: OpKey)
    | PollOp(key: OpKey, waker: Waker, attempt: Attempt)
    | CancelOp(key: OpKey)
    | RemoveOp(key: OpKey, data: Payload)
    | Readiness(event: KEvent)
    | JobDone(key: OpKey, content: Content)
    | Drain

  /** Polls and drops come from a live future; a job answers once, because answering takes the
      guard's notifier. Readiness events are arbitrary. */
  predicate Enabled(q: Kq, e: Event) {
    match e
    case Submit(k) => k !in q.issued
    case PollOp(k, _, _) => k in q.futures
    case CancelOp(_) => true
    case RemoveOp(k, _) => k in q.futures
    case Readiness(_) => true
    case JobDone(k, _) => k in q.jobs
    case Drain => q.done != []
  }

  function Step(q: Kq, e: Event): Kq
    requires Enabled(q, e)
  {
    match e
    case Submit(k) =>
      q.(ops := q.ops[k := Slot(Submitted, None)], futures := q.futures + {k}, issued := q.issued + {k})
    case PollOp(k, w, a) => Poll(q, k, w, a).0
    case CancelOp(k) => Cancel(q, k)
    case RemoveOp(k, data) => Remove(q, k, data).0
    case Readiness(event) => DispatchEvent(q, event)
    case JobDone(k, c) => q.(jobs := q.jobs - {k}, done := q.done + [(k, c)])
    case Drain => DrainOne(q)
  }

  // ----- what holds at every moment -----

  function Count(done: seq<(OpKey, Content)>, k: OpKey): nat {
    if done == [] then 0 else Count(done[..|done| - 1], k) + if done[|done| - 1].0 == k then 1 else 0
  }

  lemma {:induction false} CountFront(done: seq<(OpKey, Content)>, k: OpKey)
    requires done != []
    ensures Count(done, k) == Count(done[1..], k) + if done[0].0 == k then 1 else 0
  {
    if |done| > 1 {
      CountFront(done[..|done| - 1], k);
      assert done[..|done| - 1][1..] == done[1..][..|done[1..]| - 1];
    }
  }

  lemma CountAppend(done: seq<(OpKey, Content)>, k: OpKey, x: (OpKey, Content))
    ensures Count(done + [x], k) == Count(done, k) + if x.0 == k then 1 else 0
  {
    assert (done + [x])[..|done|] == done;
  }

  /** Answers of blocking jobs that have not reached the table yet. */
  function Outstanding(q: Kq, k: OpKey): nat { Count(q.done, k) + if k in q.jobs then 1 else 0 }

  /** A registered slot waits, and its filter knows it. */
  predicate RegisteredOk(q: Kq, k: OpKey) {
    k in q.ops && q.ops[k].registration.Some? ==>
      && q.ops[k].status.Waiting?
      && q.ops[k].registration.value.interest in q.interests
      && q.interests[q.ops[k].registration.value.interest] == k
  }

  /** … and the operation a filter names is registered for it. */
  predicate InterestOk(q: Kq, i: Interest) { i in q.interests ==> IsCurrent(q, q.interests[i], i) }

  predicate JobOk(q: Kq, k: OpKey) {
    && Outstanding(q, k) <= 1
    && (Outstanding(q, k) > 0 || k in q.answered ==> k in q.dispatched)
    && (k in q.answered ==> Outstanding(q, k) == 0)
    && (k in q.ops ==> (Blocked(q.ops[k]) <==> Outstanding(q, k) == 1))
    && (k in q.ops && k in q.dispatched ==> Blocked(q.ops[k]) || (k in q.answered && q.ops[k].status.Completed?))
    && (k in q.ops || k in q.dispatched || k in q.futures ==> k in q.issued)
  }

  predicate FutureOk(q: Kq, k: OpKey) {
    && (k in q.futures ==> k in q.ops && !Orphaned(q.ops[k].status))
    && (k in q.ops && k !in q.futures ==> Orphaned(q.ops[k].status))
  }

  predicate KeyOk(q: Kq, k: OpKey) { RegisteredOk(q, k) && JobOk(q, k) && FutureOk(q, k) }

  ghost predicate Inv(q: Kq) { (forall k :: KeyOk(q, k)) && (forall i :: InterestOk(q, i)) }

  /** One state may follow another if every slot, job, future and filter is still in order. */
  lemma SubmitKeeps(q: Kq, k: OpKey, j: OpKey, i: Interest)
    requires Inv(q) && k !in q.issued
    ensures KeyOk(Step(q, Submit(k)), j) && InterestOk(Step(q, Submit(k)), i)
  {
    assert KeyOk(q, j) && KeyOk(q, k) && InterestOk(q, i);
  }

  lemma JobDoneKeeps(q: Kq, k: OpKey, c: Content, j: OpKey, i: Interest)
    requires Inv(q) && k in q.jobs
    ensures KeyOk(Step(q, JobDone(k, c)), j) && InterestOk(Step(q, JobDone(k, c)), i)
  {
    assert KeyOk(q, j) && InterestOk(q, i);
    CountAppend(q.done, j, (k, c));
  }

  /** An operation that the step does not concern is as well off as before. */
  lemma OtherKeeps(q: Kq, t: Kq, j: OpKey)
    requires KeyOk(q, j) && t.interests == q.interests && Outstanding(t, j) == Outstanding(q, j)
    requires (j in t.ops <==> j in q.ops) && (j in q.ops ==> t.ops[j] == q.ops[j])
    requires (j in t.futures <==> j in q.futures) && (j in t.issued <==> j in q.issued)
    requires (j in t.dispatched <==> j in q.dispatched) && (j in t.answered <==> j in q.answered)
    ensures KeyOk(t, j)
  {
    hide Outstanding;
  }

  lemma DrainKeeps(q: Kq, j: OpKey, i: Interest)
    requires Inv(q) && q.done != []
    ensures KeyOk(DrainOne(q), j) && InterestOk(DrainOne(q), i)
  {
    var k := q.done[0].0;
    assert KeyOk(q, j) && KeyOk(q, k) && InterestOk(q, i);
    CountFront(q.done, j);
    CountFront(q.done, k);
    hide Inv, Count;
    if j != k {
      hide KeyOk;
      OtherKeeps(q, DrainOne(q), j);
    } else if k in q.ops {
      assert Blocked(q.ops[k]);
    }
    DrainKeepsInterest(q, i);
    hide InterestOk;
  }

  lemma DrainKeepsInterest(q: Kq, i: Interest)
    requires q.done != [] && InterestOk(q, i) && KeyOk(q, q.done[0].0)
    ensures InterestOk(DrainOne(q), i)
  {
    CountFront(q.done, q.done[0].0);
    hide Count;
  }

  lemma CancelKeeps(q: Kq, k: OpKey, j: OpKey, i: Interest)
    requires Inv(q)
    ensures KeyOk(Cancel(q, k), j) && InterestOk(Cancel(q, k), i)
  {
    assert KeyOk(q, j) && KeyOk(q, k) && InterestOk(q, i);
  }

  lemma RemoveKeeps(q: Kq, k: OpKey, data: Payload, j: OpKey, i: Interest)
    requires Inv(q) && k in q.futures
    ensures KeyOk(Remove(q, k, data).0, j) && InterestOk(Remove(q, k, data).0, i)
  {
    assert KeyOk(q, j) && KeyOk(q, k) && InterestOk(q, i);
  }

  /** The slot goes away, with its future; nothing was registered or outstanding. */
  function Gone(q: Kq, k: OpKey): Kq { q.(ops := q.ops - {k}, futures := q.futures - {k}) }

  lemma GoneKeeps(q: Kq, k: OpKey, j: OpKey, i: Interest)
    requires Inv(q) && k in q.ops && q.ops[k].registration.None? && !Blocked(q.ops[k])
    ensures KeyOk(Gone(q, k), j) && InterestOk(Gone(q, k), i)
  {
    assert KeyOk(q, j) && KeyOk(q, k) && InterestOk(q, i);
  }

  lemma RegisterKeeps(q: Kq, k: OpKey, w: Waker, r: Registration, j: OpKey, i: Interest)
    requires Inv(q) && k in q.futures && k in q.ops && q.ops[k].status.Submitted? && r.interest !in q.interests
    ensures KeyOk(SetStatus(Install(q, k, r), k, Waiting(w)), j)
    ensures InterestOk(SetStatus(Install(q, k, r), k, Waiting(w)), i)
  {
    assert KeyOk(q, j) && KeyOk(q, k) && InterestOk(q, i);
  }

  /** The job is accepted … */
  lemma BlockKeeps(q: Kq, k: OpKey, w: Waker, j: OpKey, i: Interest)
    requires Inv(q) && k in q.futures && k in q.ops && q.ops[k].status.Submitted?
    ensures KeyOk(AfterAttempt(q, k, w, Block(None)).0, j)
    ensures InterestOk(AfterAttempt(q, k, w, Block(None)).0, i)
  {
    assert KeyOk(q, j) && KeyOk(q, k) && InterestOk(q, i);
    hide Inv, Count;
  }

  /** … or refused, and then its guard posts an answer that finds no slot. */
  function RefusedJob(q: Kq, k: OpKey): Kq {
    Gone(q, k).(done := q.done + [(k, Interrupted)], dispatched := q.dispatched + {k})
  }

  lemma RefusedBlockKeeps(q: Kq, k: OpKey, j: OpKey, i: Interest)
    requires Inv(q) && k in q.futures && k in q.ops && q.ops[k].status.Submitted?
    ensures KeyOk(RefusedJob(q, k), j) && InterestOk(RefusedJob(q, k), i)
  {
    hide KeyOk, InterestOk, RefusedJob;
    assert KeyOk(q, j) && KeyOk(q, k) && InterestOk(q, i);
    hide Inv;
    if j == k {
      RefusedKeepsOwn(q, k);
    } else {
      RefusedKeepsOther(q, k, j);
    }
    RefusedKeepsInterest(q, k, i);
  }

  lemma RefusedKeepsOther(q: Kq, k: OpKey, j: OpKey)
    requires KeyOk(q, j) && j != k
    ensures KeyOk(RefusedJob(q, k), j)
  {
    CountAppend(q.done, j, (k, Interrupted));
    hide Count, KeyOk;
    OtherKeeps(q, RefusedJob(q, k), j);
  }

  lemma RefusedKeepsInterest(q: Kq, k: OpKey, i: Interest)
    requires KeyOk(q, k) && InterestOk(q, i) && k in q.ops && q.ops[k].status.Submitted?
    ensures InterestOk(RefusedJob(q, k), i)
  {
    hide Count;
  }

  lemma RefusedKeepsOwn(q: Kq, k: OpKey)
    requires KeyOk(q, k) && k in q.futures && k in q.ops && q.ops[k].status.Submitted?
    ensures KeyOk(RefusedJob(q, k), k)
  {
    CountAppend(q.done, k, (k, Interrupted));
    hide Count;
  }

  lemma AttemptKeeps(q: Kq, k: OpKey, w: Waker, a: Attempt, j: OpKey, i: Interest)
    requires Inv(q) && k in q.futures && k in q.ops && q.ops[k].status.Submitted?
    ensures KeyOk(AfterAttempt(q, k, w, a).0, j) && InterestOk(AfterAttempt(q, k, w, a).0, i)
  {
    assert KeyOk(q, k);
    match a
    case Immediate(_) => GoneKeeps(q, k, j, i);
    case Register(r, refusal) =>
      if r.interest in q.interests || refusal.Some? {
        GoneKeeps(q, k, j, i);
      } else {
        RegisterKeeps(q, k, w, r, j, i);
      }
    case Block(refusal) =>
      if refusal.None? {
        BlockKeeps(q, k, w, j, i);
      } else {
        RefusedBlockKeeps(q, k, j, i);
      }
  }

  /** The slot's status is put back to `Submitted` before the attempt, which nothing notices. */
  lemma ResetKeeps(q: Kq, k: OpKey)
    requires Inv(q) && k in q.ops && q.ops[k].status.Ready?
    ensures Inv(SetStatus(q, k, Submitted))
  {
    var t := SetStatus(q, k, Submitted);
    assert KeyOk(q, k);
    forall j ensures KeyOk(t, j) {
      assert KeyOk(q, j);
    }
    forall i ensures InterestOk(t, i) {
      assert InterestOk(q, i);
    }
  }

  lemma PollKeeps(q: Kq, k: OpKey, w: Waker, a: Attempt, j: OpKey, i: Interest)
    requires Inv(q) && k in q.futures
    ensures KeyOk(Poll(q, k, w, a).0, j) && InterestOk(Poll(q, k, w, a).0, i)
    ensures !Poll(q, k, w, a).1.PollPanic?
  {
    assert KeyOk(q, j) && KeyOk(q, k) && InterestOk(q, i);
    if q.ops[k].status.Submitted? {
      AttemptKeeps(q, k, w, a, j, i);
    } else if q.ops[k].status.Ready? {
      ResetKeeps(q, k);
      AttemptKeeps(SetStatus(q, k, Submitted), k, w, a, j, i);
    } else {
      hide Inv, AfterAttempt;
    }
  }

  /** A registered operation is waiting, so readiness makes it ready or completes it. */
  lemma ReadinessAlwaysCounts(q: Kq, k: OpKey, x: Interest, c: Content)
    requires Inv(q) && IsCurrent(q, k, x)
    ensures MarkedReady(q, k, x, c) ==
              SetStatus(Take(q, k), k, if q.ops[k].registration.value.onReady.Retry? then Ready else Completed(c))
  {
    assert KeyOk(q, k);
  }

  lemma TakenKeeps(q: Kq, k: OpKey, s: Status, j: OpKey, i: Interest)
    requires Inv(q) && k in q.ops && q.ops[k].registration.Some? && (s.Ready? || s.Completed?)
    ensures KeyOk(SetStatus(Take(q, k), k, s), j) && InterestOk(SetStatus(Take(q, k), k, s), i)
  {
    assert KeyOk(q, j) && KeyOk(q, k) && InterestOk(q, i);
    hide Inv;
  }

  lemma MarkReadyKeeps(q: Kq, k: OpKey, x: Interest, c: Content)
    requires Inv(q) && IsCurrent(q, k, x)
    ensures Inv(MarkedReady(q, k, x, c))
  {
    ReadinessAlwaysCounts(q, k, x, c);
    var s := if q.ops[k].registration.value.onReady.Retry? then Ready else Completed(c);
    var t := SetStatus(Take(q, k), k, s);
    hide KeyOk, InterestOk, MarkedReady, Take, SetStatus;
    forall j ensures KeyOk(t, j) {
      TakenKeeps(q, k, s, j, x);
    }
    forall i ensures InterestOk(t, i) {
      TakenKeeps(q, k, s, k, i);
    }
  }

  lemma DispatchKeeps(q: Kq, e: KEvent)
    requires Inv(q)
    ensures Inv(DispatchEvent(q, e))
  {
    if IsCurrent(q, e.key, e.interest) {
      var t, w := MarkedReady(q, e.key, e.interest, e.error), Interest(e.interest.fd, Write);
      MarkReadyKeeps(q, e.key, e.interest, e.error);
      assert InterestOk(t, w);
      hide MarkedReady;
      if w in t.interests {
        MarkReadyKeeps(t, t.interests[w], w, e.writeError);
      }
    }
  }

  lemma StepKeepsKey(q: Kq, e: Event, j: OpKey, i: Interest)
    requires Inv(q) && Enabled(q, e) && !e.Readiness?
    ensures KeyOk(Step(q, e), j) && InterestOk(Step(q, e), i)
  {
    hide KeyOk, InterestOk, Poll, Cancel, Remove, DrainOne;
    match e
    case Submit(k) => SubmitKeeps(q, k, j, i);
    case PollOp(k, w, a) => PollKeeps(q, k, w, a, j, i);
    case CancelOp(k) => CancelKeeps(q, k, j, i);
    case RemoveOp(k, data) => RemoveKeeps(q, k, data, j, i);
    case JobDone(k, c) => JobDoneKeeps(q, k, c, j, i);
    case Drain => DrainKeeps(q, j, i);
  }

  lemma StepKeepsInv(q: Kq, e: Event)
    requires Inv(q) && Enabled(q, e)
    ensures Inv(Step(q, e))
  {
    if e.Readiness? {
      DispatchKeeps(q, e.event);
    } else {
      var t := Step(q, e);
      hide KeyOk, InterestOk, Step;
      forall j ensures KeyOk(t, j) {
        StepKeepsKey(q, e, j, Interest(0, Read));
      }
      forall i ensures InterestOk(t, i) {
        StepKeepsKey(q, e, OpTables.OpKey(0, 1), i);
      }
    }
  }

  ghost predicate IsRun(states: seq<Kq>, events: seq<Event>) {
    && |states| == |events| + 1 && states[0] == INIT
    && forall n | 0 <= n < |events| :: Enabled(states[n], events[n]) && states[n + 1] == Step(states[n], events[n])
  }

  lemma {:induction false} InvAlong(states: seq<Kq>, events: seq<Event>, n: nat)
    requires IsRun(states, events) && n < |states|
    ensures Inv(states[n])
  {
    if n > 0 {
      hide Inv, Step, Enabled;
      InvAlong(states, events, n - 1);
      StepKeepsInv(states[n - 1], events[n - 1]);
    }
  }

  // ----- what the backend promises -----

  /** The filter map and the registrations are inverse to each other, and a registered operation
      is waiting. */
  lemma RegistrationsAreInverse(states: seq<Kq>, events: seq<Event>, n: nat, k: OpKey, i: Interest)
    requires IsRun(states, events) && n < |states|
    ensures i in states[n].interests && states[n].interests[i] == k <==> IsCurrent(states[n], k, i)
    ensures IsCurrent(states[n], k, i) ==> states[n].ops[k].status.Waiting?
  {
    InvAlong(states, events, n);
    assert KeyOk(states[n], k) && InterestOk(states[n], i);
  }

  /** A readiness event can change only the operation registered for its filter and, at end of
      file, the writer registered for the same descriptor. An event for anything else (a key that
      is gone, another filter, a filter that was deleted) changes nothing. */
  lemma EventsTouchTheirOwn(states: seq<Kq>, events: seq<Event>, n: nat, e: KEvent, k: OpKey)
    requires IsRun(states, events) && n < |states| && k in states[n].ops
    requires !IsCurrent(states[n], k, e.interest)
    requires !(e.readable && e.writable && IsCurrent(states[n], k, Interest(e.interest.fd, Write)))
    ensures k in DispatchEvent(states[n], e).ops && DispatchEvent(states[n], e).ops[k] == states[n].ops[k]
  {
    InvAlong(states, events, n);
    assert InterestOk(states[n], Interest(e.interest.fd, Write));
  }

  lemma StaleEventsChangeNothing(q: Kq, e: KEvent)
    requires Inv(q) && !(e.interest in q.interests && q.interests[e.interest] == e.key)
    ensures DispatchEvent(q, e) == q
  {
    assert KeyOk(q, e.key);
  }

  /** A registration taken by a mismatched lookup and put back is as it was. */
  lemma PuttingBackRestores(q: Kq, k: OpKey, x: Interest, c: Content)
    requires Inv(q) && k in q.ops && q.ops[k].registration.Some? && q.ops[k].registration.value.interest != x
    ensures MarkedReady(q, k, x, c) == q
  {
    assert KeyOk(q, k);
    var r := q.ops[k].registration.value;
    var t := Install(Take(q, k), k, r);
    assert t.ops[k] == q.ops[k];
    assert t.ops == q.ops;
    assert t.interests == q.interests;
  }

  /** A live operation waits for a blocking answer exactly when one is outstanding, and then there
      is only one: no job is answered twice and no blocked operation is forgotten. */
  lemma OneAnswerPerJob(states: seq<Kq>, events: seq<Event>, n: nat, k: OpKey)
    requires IsRun(states, events) && n < |states|
    ensures Outstanding(states[n], k) <= 1
    ensures k in states[n].ops ==> (Blocked(states[n].ops[k]) <==> Outstanding(states[n], k) == 1)
  {
    InvAlong(states, events, n);
    assert KeyOk(states[n], k);
  }

  /** When an answer is drained, its operation has not been answered before; an answer for a
      slot that is gone (a refused job's guard posts one) reaches nobody. */
  lemma AnswersReachAtMostOnce(states: seq<Kq>, events: seq<Event>, n: nat)
    requires IsRun(states, events) && n < |events| && events[n] == Drain
    ensures var (k, c) := states[n].done[0];
            && k !in states[n].answered
            && (k in states[n].ops ==> Blocked(states[n].ops[k]) && states[n + 1].answered == states[n].answered + {k})
            && (k !in states[n].ops ==> states[n + 1] == states[n].(done := states[n].done[1..]))
  {
    InvAlong(states, events, n);
    var k := states[n].done[0].0;
    assert KeyOk(states[n], k);
    CountFront(states[n].done, k);
  }

  /** No `expect` fails and no unreachable branch is reached when a live future is polled or
      dropped. */
  lemma FuturesFindTheirSlot(states: seq<Kq>, events: seq<Event>, n: nat, k: OpKey, w: Waker, a: Attempt)
    requires IsRun(states, events) && n < |states| && k in states[n].futures
    ensures !Poll(states[n], k, w, a).1.PollPanic?
    ensures k in states[n].ops && !Orphaned(states[n].ops[k].status)
  {
    InvAlong(states, events, n);
    PollKeeps(states[n], k, w, a, k, Interest(0, Read));
    assert KeyOk(states[n], k);
  }

  // ----- the backend's own loops -----

  /** Work deferred until the backend is released, and the operation it is for. */
  datatype Action =
    | WakeTask(key: OpKey, waker: Waker)
    | RunComplete(key: OpKey, payload: Payload, content: Content)

  function Actions(k: OpKey, e: Effect, c: Content): seq<Action> {
    (if e.wake.Some? then [WakeTask(k, e.wake.value)] else [])
    + if e.cleanup.Some? then [RunComplete(k, e.cleanup.value, c)] else []
  }

  function ReadyActions(q: Kq, k: OpKey, i: Interest, c: Content): seq<Action> {
    if IsCurrent(q, k, i) then Actions(k, OnEvent(q.ops[k], c), c) else []
  }

  function EventActions(q: Kq, e: KEvent): seq<Action> {
    if !IsCurrent(q, e.key, e.interest) then []
    else
      var t := MarkedReady(q, e.key, e.interest, e.error);
      var w := Interest(e.interest.fd, Write);
      ReadyActions(q, e.key, e.interest, e.error)
      + if e.readable && e.writable && w in t.interests then ReadyActions(t, t.interests[w], w, e.writeError) else []
  }

  /** A batch of events, in order. */
  function DispatchAll(q: Kq, events: seq<KEvent>): (Kq, seq<Action>) {
    if events == [] then (q, [])
    else
      var (t, actions) := DispatchAll(q, events[..|events| - 1]);
      var e := events[|events| - 1];
      (DispatchEvent(t, e), actions + EventActions(t, e))
  }

  function DrainActions(q: Kq): seq<Action>
    requires q.done != []
  {
    var (k, c) := q.done[0];
    if k in q.ops then Actions(k, Complete(q.ops[k].status, c), c) else []
  }

  /** The whole queue of blocking answers, in order. */
  function DrainAll(q: Kq): (Kq, seq<Action>)
    decreases |q.done|
  {
    if q.done == [] then (q, [])
    else
      var (t, actions) := DrainAll(DrainOne(q));
      (t, DrainActions(q) + actions)
  }

  /** Readiness of the filter an operation waits on wakes the task that waits, and only that. */
  lemma ReadinessWakes(q: Kq, k: OpKey, i: Interest, c: Content)
    requires Inv(q) && IsCurrent(q, k, i)
    ensures HeldWaker(q.ops[k].status).Some?
    ensures ReadyActions(q, k, i, c) == [WakeTask(k, HeldWaker(q.ops[k].status).value)]
  {
    assert KeyOk(q, k);
  }

  /** A current event reaches whoever waits on its filter and, at end of file, on the write filter of
      the descriptor: they become ready or complete, and their tasks are handed out. */
  lemma EventReaches(q: Kq, e: KEvent, k: OpKey, i: Interest)
    requires Inv(q) && IsCurrent(q, e.key, e.interest) && IsCurrent(q, k, i)
    requires i == e.interest || (e.readable && e.writable && i == Interest(e.interest.fd, Write))
    ensures var t := DispatchEvent(q, e);
            && k in t.ops && (t.ops[k].status.Ready? || t.ops[k].status.Completed?) && t.ops[k].registration.None?
            && q.ops[k].status.Waiting? && WakeTask(k, q.ops[k].status.waker) in EventActions(q, e)
  {
    var t, w := MarkedReady(q, e.key, e.interest, e.error), Interest(e.interest.fd, Write);
    assert KeyOk(q, k) && KeyOk(q, e.key);
    MarkReadyKeeps(q, e.key, e.interest, e.error);
    ReadinessAlwaysCounts(q, e.key, e.interest, e.error);
    ReadinessWakes(q, e.key, e.interest, e.error);
    assert InterestOk(t, w) && KeyOk(t, k);
    if e.readable && e.writable && w in t.interests {
      ReadinessAlwaysCounts(t, t.interests[w], w, e.writeError);
      ReadinessWakes(t, t.interests[w], w, e.writeError);
    }
    hide Inv;
  }

  /** The answer of a blocking job wakes the task that waits for it or, if the future is gone, runs
      `complete` on the payload with that very answer: one of these, and nothing else. */
  lemma AnswerIsHandedOn(q: Kq)
    requires Inv(q) && q.done != [] && q.done[0].0 in q.ops
    ensures var (k, c) := q.done[0];
            var s := q.ops[k].status;
            && HeldWaker(s).Some? != HeldPayload(s).Some?
            && (HeldWaker(s).Some? ==> DrainActions(q) == [WakeTask(k, HeldWaker(s).value)])
            && (HeldPayload(s).Some? ==> DrainActions(q) == [RunComplete(k, HeldPayload(s).value, c)])
  {
    var k := q.done[0].0;
    assert KeyOk(q, k);
    CountFront(q.done, k);
    assert Blocked(q.ops[k]);
  }

  class KqueueBackend {
    var ops: map<OpKey, Slot>
    var interests: map<Interest, OpKey>
    var done: seq<(OpKey, Content)>
    ghost var jobs: set<OpKey>
    ghost var futures: set<OpKey>
    ghost var issued: set<OpKey>
    ghost var dispatched: set<OpKey>
    ghost var answered: set<OpKey>

    ghost function Model(): Kq
      reads this
    {
      Kq(ops, interests, done, jobs, futures, issued, dispatched, answered)
    }

    constructor ()
      ensures Model() == INIT && Inv(Model())
    {
      ops, interests, done, jobs, futures, issued, dispatched, answered := map[], map[], [], {}, {}, {}, {}, {};
    }

    method TakeRegistration(k: OpKey) returns (r: Option<Registration>)
      modifies `ops, `interests
      ensures r == if k in old(ops) then old(ops)[k].registration else None
      ensures Model() == if k in old(ops) then Take(old(Model()), k) else old(Model())
    {
      if k !in ops || ops[k].registration.None? {
        return None;
      }
      r := ops[k].registration;
      ops := ops[k := ops[k].(registration := None)];
      var i := r.value.interest;
      if i in interests && interests[i] == k {
        interests := interests - {i};
      }
    }

    method InstallRegistration(k: OpKey, r: Registration)
      requires k in ops
      modifies `ops, `interests
      ensures Model() == Install(old(Model()), k, r)
    {
      interests := interests[r.interest := k];
      ops := ops[k := ops[k].(registration := Some(r))];
    }

    method MarkReady(k: OpKey, i: Interest, c: Content) returns (deferred: seq<Action>)
      requires Inv(Model())
      modifies `ops, `interests
      ensures Model() == MarkedReady(old(Model()), k, i, c)
      ensures deferred == ReadyActions(old(Model()), k, i, c)
      ensures IsCurrent(old(Model()), k, i) ==>
                old(ops)[k].status.Waiting? && deferred == [WakeTask(k, old(ops)[k].status.waker)]
    {
      ghost var before := Model();
      var r := TakeRegistration(k);
      if r.None? {
        return [];
      }
      if r.value.interest != i {
        InstallRegistration(k, r.value);
        return [];
      }
      var effect := if r.value.onReady.Retry? then BecomeReady(ops[k].status) else Complete(ops[k].status, c);
      if effect.remove {
        ops := ops - {k};
      } else {
        ops := ops[k := ops[k].(status := effect.status)];
      }
      ReadinessWakes(before, k, i, c);
      assert KeyOk(before, k);
      return Actions(k, effect, c);
    }

    /** One batch of readiness events: every one that is still current takes effect, in order. */
    method DispatchCompletions(events: seq<KEvent>) returns (deferred: seq<Action>)
      requires Inv(Model())
      modifies `ops, `interests
      ensures Inv(Model())
      ensures (Model(), deferred) == DispatchAll(old(Model()), events)
    {
      deferred := [];
      var n := 0;
      while n < |events|
        invariant 0 <= n <= |events|
        invariant Inv(Model())
        invariant (Model(), deferred) == DispatchAll(old(Model()), events[..n])
      {
        assert events[..n + 1][..n] == events[..n];
        var more := DispatchOne(events[n]);
        deferred := deferred + more;
        n := n + 1;
      }
      assert events[..n] == events;
    }

    method DispatchOne(e: KEvent) returns (deferred: seq<Action>)
      requires Inv(Model())
      modifies `ops, `interests
      ensures Inv(Model()) && Model() == DispatchEvent(old(Model()), e)
      ensures deferred == EventActions(old(Model()), e)
    {
      DispatchKeeps(Model(), e);
      if !(e.key in ops && ops[e.key].registration.Some? && ops[e.key].registration.value.interest == e.interest) {
        return [];
      }
      MarkReadyKeeps(Model(), e.key, e.interest, e.error);
      hide Inv, MarkedReady;
      deferred := MarkReady(e.key, e.interest, e.error);
      var w := Interest(e.interest.fd, Write);
      if e.readable && e.writable && w in interests {
        var more := MarkReady(interests[w], w, e.writeError);
        deferred := deferred + more;
      }
    }

    /** Applies every answer that blocking jobs have posted. */
    method DrainBlockingCompletions() returns (deferred: seq<Action>)
      requires Inv(Model())
      modifies `ops, `done, `answered
      ensures Inv(Model()) && done == []
      ensures (Model(), deferred) == DrainAll(old(Model()))
    {
      hide Inv, DrainOne, DrainActions;
      deferred := [];
      assert deferred + DrainAll(Model()).1 == DrainAll(Model()).1;
      while done != []
        invariant Inv(Model())
        invariant DrainAll(old(Model())).0 == DrainAll(Model()).0
        invariant DrainAll(old(Model())).1 == deferred + DrainAll(Model()).1
        decreases |done|
      {
        ghost var q, before := Model(), deferred;
        StepKeepsInv(q, Drain);
        var actions := DrainNext();
        deferred := deferred + actions;
        assert before + (actions + DrainAll(Model()).1) == deferred + DrainAll(Model()).1;
      }
      assert deferred + [] == deferred;
    }

    /** The oldest answer. */
    method DrainNext() returns (actions: seq<Action>)
      requires done != []
      modifies `ops, `done, `answered
      ensures Model() == DrainOne(old(Model())) && actions == DrainActions(old(Model()))
      ensures |done| < |old(done)|
    {
      var (k, c) := done[0];
      done := done[1..];
      actions := [];
      if k in ops {
        var effect := Complete(ops[k].status, c);
        actions := Actions(k, effect, c);
        if effect.remove {
          ops := ops - {k};
        } else {
          ops := ops[k := ops[k].(status := effect.status)];
        }
        answered := answered + {k};
      }
    }

    /** Stops a readiness wait at once; a blocking job is left to answer. */
    method CancelOp(k: OpKey) returns (woken: Option<Waker>)
      requires Inv(Model())
      modifies `ops, `interests
      ensures Inv(Model()) && Model() == Cancel(old(Model()), k)
      ensures woken == if k in old(ops) && old(ops)[k].registration.Some? && old(ops)[k].status.Waiting? then Some(old(ops)[k].status.waker) else None
    {
      StepKeepsInv(Model(), Event.CancelOp(k));
      assert KeyOk(Model(), k);
      hide Inv;
      woken := None;
      if k !in ops {
        return;
      }
      match ops[k].status
      case Submitted => ops := ops[k := ops[k].(status := Completed(Canceled))];
      case Ready => ops := ops[k := ops[k].(status := Completed(Canceled))];
      case Waiting(w) =>
        var r := TakeRegistration(k);
        if r.Some? {
          ops := ops[k := ops[k].(status := Completed(Canceled))];
          woken := Some(w);
        } else {
          ops := ops[k := ops[k].(status := Canceling(WaitingWith(w)))];
        }
      case Detached(p) => ops := ops[k := ops[k].(status := Canceling(DetachedWith(p)))];
      case Canceling(_) =>
      case Completed(_) =>
    }
  
    /** The first poll attempts the operation: it finishes, waits for readiness on a filter nobody
        else waits on, or is handed to the blocking pool. Later polls only renew the waker. */
    method PollOp(k: OpKey, w: Waker, a: Attempt) returns (r: Outcome)
      requires Inv(Model()) && k in futures
      modifies this
      ensures Inv(Model()) && (Model(), r) == Poll(old(Model()), k, w, a)
      ensures !r.PollPanic?
    {
      StepKeepsInv(Model(), Event.PollOp(k, w, a));
      PollKeeps(Model(), k, w, a, k, Interest(0, Read));
      assert KeyOk(Model(), k);
      hide Inv;
      match ops[k].status {
        case Completed(c) =>
          ops := ops - {k};
          r := Finished(c);
        case Waiting(_) =>
          ops := ops[k := ops[k].(status := Waiting(w))];
          return StillPending;
        case Canceling(_) =>
          ops := ops[k := ops[k].(status := Canceling(WaitingWith(w)))];
          return StillPending;
        case Submitted => r := TryAttempt(k, w, a);
        case Ready =>
          ops := ops[k := ops[k].(status := Submitted)];
          r := TryAttempt(k, w, a);
      }
      if r.Finished? {
        futures := futures - {k};
      }
    }

    method TryAttempt(k: OpKey, w: Waker, a: Attempt) returns (r: Outcome)
      requires k in ops
      modifies this
      ensures var (q, outcome) := AfterAttempt(old(Model()), k, w, a);
              r == outcome && Model() == if r.Finished? then q.(futures := old(futures)) else q
      ensures !r.PollPanic?
    {
      match a {
        case Immediate(c) =>
          ops := ops - {k};
          return Finished(c);
        case Register(registration, refusal) =>
          if registration.interest in interests {
            ops := ops - {k};
            return Finished(AlreadyExists);
          }
          if refusal.Some? {
            ops := ops - {k};
            return Finished(refusal.value);
          }
          InstallRegistration(k, registration);
          ops := ops[k := ops[k].(status := Waiting(w))];
          return StillPending;
        case Block(refusal) =>
          ops := ops[k := ops[k].(status := Waiting(w))];
          dispatched := dispatched + {k};
          if refusal.Some? {
            done := done + [(k, Interrupted)];
            ops := ops - {k};
            return Finished(refusal.value);
          }
          jobs := jobs + {k};
          return StillPending;
      }
    }

    /** The observer leaves: `kept` says whether its payload stayed in the slot for a blocking
        job. */
    method RemoveOp(k: OpKey, data: Payload) returns (completion: Option<Content>, kept: bool)
      requires Inv(Model()) && k in futures
      modifies `ops, `interests, `futures
      ensures Inv(Model()) && (Model(), completion) == Remove(old(Model()), k, data)
      ensures kept <==> Outstanding(old(Model()), k) == 1
      ensures kept ==> k in ops && Orphaned(ops[k].status)
      ensures !kept ==> k !in ops
    {
      StepKeepsInv(Model(), Event.RemoveOp(k, data));
      assert KeyOk(Model(), k);
      hide Inv;
      futures := futures - {k};
      completion, kept := None, false;
      match ops[k].status {
        case Completed(c) =>
          ops := ops - {k};
          completion := Some(c);
        case Waiting(_) =>
          var r := TakeRegistration(k);
          if r.Some? {
            ops := ops - {k};
            assert ops == old(ops) - {k};
          } else {
            ops := ops[k := ops[k].(status := Detached(data))];
            kept := true;
          }
        case Canceling(_) =>
          ops := ops[k := ops[k].(status := Canceling(DetachedWith(data)))];
          kept := true;
        case Submitted => ops := ops - {k};
        case Ready => ops := ops - {k};
      }
    }
  }

  /** What a blocking job holds: it posts to the backend's queue once, on completion or, if the job
      never completes, when it is dropped. */
  class BlockingCompletionGuard {
    var notifier: Option<OpKey>

    constructor (key: OpKey)
      ensures notifier == Some(key)
    {
      notifier := Some(key);
    }

    method Send(backend: KqueueBackend, c: Content)
      modifies this, backend`done
      ensures notifier == None
      ensures backend.done == old(backend.done) + if old(notifier).Some? then [(old(notifier).value, c)] else []
    {
      if notifier.Some? {
        backend.done := backend.done + [(notifier.value, c)];
        notifier := None;
      }
    }

    method Drop(backend: KqueueBackend)
      modifies this, backend`done
      ensures notifier == None
      ensures backend.done ==
                old(backend.done) + if old(notifier).Some? then [(old(notifier).value, Interrupted)] else []
    {
      Send(backend, Interrupted);
    }

    /** Completing consumes the guard, so it is dropped right after; exactly one entry is posted. */
    method Complete(backend: KqueueBackend, c: Content)
      requires notifier.Some?
      modifies this, backend`done
      ensures backend.done == old(backend.done) + [(old(notifier).value, c)]
    {
      Send(backend, c);
      Drop(backend);
    }
  }
}
