/** The kqueue backend over whole runs: who is woken, what completions say and where they come
    from, in terms of the events of the run. */
module KqueueRuns {
  import opened Basics
  import OpTables
  import opened Kqueue

  /** What a step hands out: tasks to wake and payloads to complete. Cancelling wakes at once. */
  function Handed(q: Kq, e: Event): seq<Action>
    requires Enabled(q, e)
  {
    match e
    case Readiness(event) => EventActions(q, event)
    case Drain => DrainActions(q)
    case CancelOp(k) => (
      if k in q.ops && q.ops[k].registration.Some? && q.ops[k].status.Waiting?
      then [WakeTask(k, q.ops[k].status.waker)] else [])
    case _ => []
  }

  predicate Polls(e: Event, k: OpKey) { e.PollOp? && e.key == k }

  /** The waker of the latest poll. */
  function LastPoll(events: seq<Event>, n: nat, k: OpKey): Option<Waker>
    requires n <= |events|
  {
    if n == 0 then None
    else if Polls(events[n - 1], k) then Some(events[n - 1].waker)
    else LastPoll(events, n - 1, k)
  }

  function WakerAt(q: Kq, k: OpKey): Option<Waker> { if k in q.ops then HeldWaker(q.ops[k].status) else None }

  // ----- one step -----

  /** The slot keeps its task, or hands it out. */
  predicate KeepsOrHands(q: Kq, k: OpKey, t: Kq, actions: seq<Action>) {
    || WakerAt(t, k) == WakerAt(q, k)
    || (WakerAt(t, k).None? && WakerAt(q, k).Some? && WakeTask(k, WakerAt(q, k).value) in actions)
  }

  /** Only tasks that wait are woken. */
  ghost predicate WakesWaiters(q: Kq, actions: seq<Action>) {
    forall a | a in actions && a.WakeTask? :: WakerAt(q, a.key) == Some(a.waker)
  }

  lemma MarkWakes(q: Kq, j: OpKey, i: Interest, c: Content, k: OpKey)
    requires Inv(q) && IsCurrent(q, j, i)
    ensures KeepsOrHands(q, k, MarkedReady(q, j, i, c), ReadyActions(q, j, i, c))
    ensures k != j ==> WakerAt(MarkedReady(q, j, i, c), k) == WakerAt(q, k)
    ensures WakesWaiters(q, ReadyActions(q, j, i, c))
  {
    ReadinessAlwaysCounts(q, j, i, c);
    ReadinessWakes(q, j, i, c);
  }

  lemma EventWakes(q: Kq, e: KEvent, k: OpKey)
    requires Inv(q)
    ensures KeepsOrHands(q, k, DispatchEvent(q, e), EventActions(q, e))
    ensures WakesWaiters(q, EventActions(q, e))
  {
    if IsCurrent(q, e.key, e.interest) {
      var t, w := MarkedReady(q, e.key, e.interest, e.error), Interest(e.interest.fd, Write);
      MarkReadyKeeps(q, e.key, e.interest, e.error);
      MarkWakes(q, e.key, e.interest, e.error, k);
      assert InterestOk(t, w);
      if e.readable && e.writable && w in t.interests {
        var j := t.interests[w];
        MarkWakes(t, j, w, e.writeError, k);
        SecondIsAnother(q, e, t, j, w);
        hide Inv, MarkedReady, ReadyActions;
      }
    }
  }

  /** The writer that end of file readies is not the operation already readied. */
  lemma SecondIsAnother(q: Kq, e: KEvent, t: Kq, j: OpKey, w: Interest)
    requires Inv(q) && IsCurrent(q, e.key, e.interest)
    requires t == MarkedReady(q, e.key, e.interest, e.error) && IsCurrent(t, j, w)
    ensures j != e.key && WakerAt(t, j) == WakerAt(q, j)
    ensures WakesWaiters(q, ReadyActions(t, j, w, e.writeError))
  {
    ReadinessAlwaysCounts(q, e.key, e.interest, e.error);
    MarkReadyKeeps(q, e.key, e.interest, e.error);
    ReadinessWakes(t, j, w, e.writeError);
  }

  lemma DrainWakes(q: Kq, k: OpKey)
    requires Inv(q) && q.done != []
    ensures KeepsOrHands(q, k, DrainOne(q), DrainActions(q))
    ensures WakesWaiters(q, DrainActions(q))
  {
    if q.done[0].0 in q.ops {
      AnswerIsHandedOn(q);
    }
  }

  lemma CancelWakes(q: Kq, j: OpKey, k: OpKey)
    requires Inv(q)
    ensures KeepsOrHands(q, k, Cancel(q, j), Handed(q, CancelOp(j)))
    ensures WakesWaiters(q, Handed(q, CancelOp(j)))
  {
    assert KeyOk(q, j);
  }

  lemma PollRemembers(q: Kq, j: OpKey, w: Waker, a: Attempt, k: OpKey)
    requires Inv(q) && j in q.futures && k in Poll(q, j, w, a).0.futures
    ensures WakerAt(Poll(q, j, w, a).0, k) == if k == j then Some(w) else WakerAt(q, k)
  {
    assert KeyOk(q, j);
  }

  /** A poll that leaves the future alive leaves its waker in the slot; any other step leaves the
      waker there or hands it out; and nobody else is woken. */
  lemma StepWakes(q: Kq, e: Event, k: OpKey)
    requires Inv(q) && Enabled(q, e)
    ensures WakesWaiters(q, Handed(q, e))
    ensures k in q.futures && k in Step(q, e).futures ==>
              if Polls(e, k) then WakerAt(Step(q, e), k) == Some(e.waker)
              else KeepsOrHands(q, k, Step(q, e), Handed(q, e))
  {
    assert KeyOk(q, k);
    hide DispatchEvent, EventActions, DrainOne, DrainActions, Poll, Inv, Cancel, KeepsOrHands;
    match e
    case Submit(_) =>
      KeptIsKept(q, k, Step(q, e));
    case PollOp(j, w, a) =>
      if k in Step(q, e).futures {
        PollRemembers(q, j, w, a, k);
        KeptIsKept(q, k, Step(q, e));
      }
    case CancelOp(j) => CancelWakes(q, j, k);
    case RemoveOp(j, data) =>
      RemoveLeavesOthers(q, j, data, k);
      KeptIsKept(q, k, Step(q, e));
    case Readiness(event) => EventWakes(q, event, k);
    case JobDone(_, _) => KeptIsKept(q, k, Step(q, e));
    case Drain => DrainWakes(q, k);
  }

  lemma KeptIsKept(q: Kq, k: OpKey, t: Kq)
    ensures WakerAt(t, k) == WakerAt(q, k) ==> KeepsOrHands(q, k, t, [])
  {
  }

  lemma RemoveLeavesOthers(q: Kq, j: OpKey, data: Payload, k: OpKey)
    ensures k != j ==> WakerAt(Remove(q, j, data).0, k) == WakerAt(q, k)
    ensures j !in Remove(q, j, data).0.futures
  {
  }

  // ----- futures and their wakers -----

  lemma FutureStep(q: Kq, e: Event, k: OpKey)
    requires Inv(q) && Enabled(q, e) && k in Step(q, e).futures && k !in q.futures
    ensures e == Submit(k) && WakerAt(Step(q, e), k) == None && k !in q.issued
  {
    assert KeyOk(q, k);
  }

  lemma {:induction false} UnissuedIsUnpolled(states: seq<Kq>, events: seq<Event>, n: nat, k: OpKey)
    requires IsRun(states, events) && n < |states| && k !in states[n].issued
    ensures LastPoll(events, n, k) == None && LastDrop(events, n, k) == None
  {
    if n > 0 {
      InvAlong(states, events, n - 1);
      assert KeyOk(states[n - 1], k);
      IssuedGrows(states[n - 1], events[n - 1]);
      hide Inv, Step;
      UnissuedIsUnpolled(states, events, n - 1, k);
    }
  }

  lemma IssuedGrows(q: Kq, e: Event)
    requires Enabled(q, e)
    ensures q.issued <= Step(q, e).issued
  {
  }

  /** Some step from the latest poll on handed out the wake of that poll's task. */
  ghost predicate WokenSince(states: seq<Kq>, events: seq<Event>, n: nat, k: OpKey, w: Waker)
    requires n <= |events| < |states|
  {
    exists m | 0 <= m < n ::
      Enabled(states[m], events[m]) && WakeTask(k, w) in Handed(states[m], events[m])
      && forall i | m <= i < n :: !Polls(events[i], k)
  }

  lemma WokenSinceStep(states: seq<Kq>, events: seq<Event>, n: nat, k: OpKey, w: Waker)
    requires 0 < n <= |events| < |states| && !Polls(events[n - 1], k)
    requires || WokenSince(states, events, n - 1, k, w)
             || (Enabled(states[n - 1], events[n - 1]) && WakeTask(k, w) in Handed(states[n - 1], events[n - 1]))
    ensures WokenSince(states, events, n, k, w)
  {
    hide Handed, Enabled;
    if WokenSince(states, events, n - 1, k, w) {
      var m :| 0 <= m < n - 1 && Enabled(states[m], events[m]) && WakeTask(k, w) in Handed(states[m], events[m])
               && forall i | m <= i < n - 1 :: !Polls(events[i], k);
      assert forall i | m <= i < n :: !Polls(events[i], k);
    } else {
      assert forall i | n - 1 <= i < n :: !Polls(events[i], k);
    }
  }

  /** No wakeup is lost: a live future whose latest poll was pending is remembered with the waker of
      that poll as long as it waits, and once it has something to see that very waker has been
      handed out since. */
  lemma {:induction false} PendingFutureIsWoken(states: seq<Kq>, events: seq<Event>, n: nat, k: OpKey)
    requires IsRun(states, events) && n < |states| && k in states[n].futures
    ensures WakerAt(states[n], k).Some? ==> WakerAt(states[n], k) == LastPoll(events, n, k)
    ensures WakerAt(states[n], k).None? && LastPoll(events, n, k).Some? ==>
              WokenSince(states, events, n, k, LastPoll(events, n, k).value)
  {
    hide Inv, Step, Enabled, Handed, WakerAt, WakesWaiters;
    var q, e := states[n - 1], events[n - 1];
    InvAlong(states, events, n - 1);
    if k !in q.futures {
      FutureStep(q, e, k);
      UnissuedIsUnpolled(states, events, n - 1, k);
    } else {
      StepWakes(q, e, k);
      PendingFutureIsWoken(states, events, n - 1, k);
      if !Polls(e, k) && WakerAt(states[n], k).None? && LastPoll(events, n, k).Some? {
        WokenSinceStep(states, events, n, k, LastPoll(events, n, k).value);
      }
    }
  }

  /** Nobody is woken for nothing: a wake handed out for an operation is for the task of the latest
      poll of its future, which is alive and waiting. */
  lemma WakesAreForTheLatestPoll(states: seq<Kq>, events: seq<Event>, n: nat, a: Action)
    requires IsRun(states, events) && n < |events| && a in Handed(states[n], events[n]) && a.WakeTask?
    ensures a.key in states[n].futures && LastPoll(events, n, a.key) == Some(a.waker)
  {
    InvAlong(states, events, n);
    StepWakes(states[n], events[n], a.key);
    assert KeyOk(states[n], a.key);
    PendingFutureIsWoken(states, events, n, a.key);
  }

  // ----- abandoned payloads -----

  /** The payload of the latest drop. */
  function LastDrop(events: seq<Event>, n: nat, k: OpKey): Option<Payload>
    requires n <= |events|
  {
    if n == 0 then None
    else if events[n - 1].RemoveOp? && events[n - 1].key == k then Some(events[n - 1].data)
    else LastDrop(events, n - 1, k)
  }

  function PayloadAt(q: Kq, k: OpKey): Option<Payload> { if k in q.ops then HeldPayload(q.ops[k].status) else None }

  lemma MarkKeepsPayload(q: Kq, j: OpKey, i: Interest, c: Content, k: OpKey)
    requires Inv(q) && IsCurrent(q, j, i)
    ensures var t := MarkedReady(q, j, i, c);
            t.futures == q.futures && t.ops.Keys == q.ops.Keys && PayloadAt(t, k) == PayloadAt(q, k)
  {
    ReadinessAlwaysCounts(q, j, i, c);
    assert KeyOk(q, j);
  }

  lemma EventKeepsPayload(q: Kq, e: KEvent, k: OpKey)
    requires Inv(q)
    ensures var t := DispatchEvent(q, e);
            t.futures == q.futures && t.ops.Keys == q.ops.Keys && PayloadAt(t, k) == PayloadAt(q, k)
  {
    if IsCurrent(q, e.key, e.interest) {
      var t, w := MarkedReady(q, e.key, e.interest, e.error), Interest(e.interest.fd, Write);
      MarkReadyKeeps(q, e.key, e.interest, e.error);
      MarkKeepsPayload(q, e.key, e.interest, e.error, k);
      assert InterestOk(t, w);
      hide Inv, MarkedReady;
      if w in t.interests {
        MarkKeepsPayload(t, t.interests[w], w, e.writeError, k);
      }
    }
  }

  lemma PayloadStep(q: Kq, e: Event, k: OpKey)
    requires Inv(q) && Enabled(q, e) && k in Step(q, e).ops && k !in Step(q, e).futures
    ensures k in q.ops
    ensures if e.RemoveOp? && e.key == k then PayloadAt(Step(q, e), k) == Some(e.data)
            else k !in q.futures && PayloadAt(Step(q, e), k) == PayloadAt(q, k)
  {
    assert KeyOk(q, k);
    if e.Readiness? {
      EventKeepsPayload(q, e.event, k);
      hide DispatchEvent, Inv;
    } else if e.PollOp? {
      PollKeepsPayload(q, e.key, e.waker, e.attempt, k);
      hide Poll, Inv;
    } else {
      hide Inv, AfterAttempt, DispatchEvent;
    }
  }

  lemma PollKeepsPayload(q: Kq, j: OpKey, w: Waker, a: Attempt, k: OpKey)
    requires Inv(q) && j in q.futures && k in Poll(q, j, w, a).0.ops && k !in Poll(q, j, w, a).0.futures
    ensures k in q.ops && k !in q.futures && PayloadAt(Poll(q, j, w, a).0, k) == PayloadAt(q, k)
  {
    assert KeyOk(q, j);
    hide Inv;
  }

  lemma {:induction false} PayloadIsKept(states: seq<Kq>, events: seq<Event>, n: nat, k: OpKey)
    requires IsRun(states, events) && n < |states| && k in states[n].ops && k !in states[n].futures
    ensures PayloadAt(states[n], k) == LastDrop(events, n, k)
  {
    hide Inv, Step, PayloadAt;
    InvAlong(states, events, n - 1);
    PayloadStep(states[n - 1], events[n - 1], k);
    if !(events[n - 1].RemoveOp? && events[n - 1].key == k) {
      PayloadIsKept(states, events, n - 1, k);
    }
  }

  /** The answer of a blocking job goes to whoever is there: the task of the latest poll while the
      future lives and, once it was dropped, the typed `complete` with the payload that was
      dropped. */
  lemma AnswerReachesTheObserver(states: seq<Kq>, events: seq<Event>, n: nat)
    requires IsRun(states, events) && n < |events| && events[n] == Drain && states[n].done[0].0 in states[n].ops
    ensures var (k, c) := states[n].done[0];
            if k in states[n].futures
            then LastPoll(events, n, k).Some? && Handed(states[n], Drain) == [WakeTask(k, LastPoll(events, n, k).value)]
            else LastDrop(events, n, k).Some? && Handed(states[n], Drain) == [RunComplete(k, LastDrop(events, n, k).value, c)]
  {
    var k := states[n].done[0].0;
    InvAlong(states, events, n);
    AnswerIsHandedOn(states[n]);
    assert KeyOk(states[n], k);
    hide Inv;
    if k in states[n].futures {
      PendingFutureIsWoken(states, events, n, k);
    } else {
      PayloadIsKept(states, events, n, k);
    }
  }

  /** … and `complete` is run for nothing else. */
  lemma CompletesOnlyOnAnswer(states: seq<Kq>, events: seq<Event>, n: nat, a: Action)
    requires IsRun(states, events) && n < |events| && a in Handed(states[n], events[n]) && a.RunComplete?
    ensures events[n] == Drain && states[n].done[0] == (a.key, a.content)
  {
    InvAlong(states, events, n);
    if events[n].Readiness? {
      EventOnlyWakes(states[n], events[n].event);
    }
  }

  lemma EventOnlyWakes(q: Kq, e: KEvent)
    requires Inv(q)
    ensures forall a | a in EventActions(q, e) :: a.WakeTask?
  {
    if IsCurrent(q, e.key, e.interest) {
      var t, w := MarkedReady(q, e.key, e.interest, e.error), Interest(e.interest.fd, Write);
      MarkReadyKeeps(q, e.key, e.interest, e.error);
      ReadinessWakes(q, e.key, e.interest, e.error);
      assert InterestOk(t, w);
      if w in t.interests {
        ReadinessWakes(t, t.interests[w], w, e.writeError);
      }
    }
  }

  // ----- where completions come from -----

  /** The step answers the operation with that content: its job's answer, a cancel while no job is
      under way, or the socket error of the filter it waits on. */
  predicate Answers(q: Kq, e: Event, k: OpKey, c: Content)
    requires Enabled(q, e)
  {
    match e
    case Drain => q.done[0] == (k, c)
    case CancelOp(j) => j == k && c == Canceled && Outstanding(q, k) == 0
    case Readiness(event) =>
      && k in q.ops && q.ops[k].registration.Some? && q.ops[k].registration.value.onReady.CompleteSocketError?
      && var i := q.ops[k].registration.value.interest;
         || (i == event.interest && c == event.error)
         || (i == Interest(event.interest.fd, Write) && event.readable && event.writable && c == event.writeError)
    case _ => false
  }

  lemma EventCompletes(q: Kq, e: KEvent, k: OpKey, c: Content)
    requires Inv(q) && k in DispatchEvent(q, e).ops && DispatchEvent(q, e).ops[k].status == Completed(c)
    ensures k in q.ops && (q.ops[k].status == Completed(c) || Answers(q, Readiness(e), k, c))
  {
    if IsCurrent(q, e.key, e.interest) {
      var t, w := MarkedReady(q, e.key, e.interest, e.error), Interest(e.interest.fd, Write);
      MarkReadyKeeps(q, e.key, e.interest, e.error);
      ReadinessAlwaysCounts(q, e.key, e.interest, e.error);
      assert InterestOk(t, w);
      if e.readable && e.writable && w in t.interests {
        ReadinessAlwaysCounts(t, t.interests[w], w, e.writeError);
      }
      hide Inv;
    }
  }

  lemma PollCompletesNobody(q: Kq, j: OpKey, w: Waker, a: Attempt, k: OpKey)
    requires k in Poll(q, j, w, a).0.ops && Poll(q, j, w, a).0.ops[k].status.Completed?
    ensures k in q.ops && Poll(q, j, w, a).0.ops[k].status == q.ops[k].status
  {
  }

  lemma CompletedStep(q: Kq, e: Event, k: OpKey, c: Content)
    requires Inv(q) && Enabled(q, e) && k in Step(q, e).ops && Step(q, e).ops[k].status == Completed(c)
    ensures (k in q.ops && q.ops[k].status == Completed(c)) || Answers(q, e, k, c)
  {
    assert KeyOk(q, k);
    if e.Readiness? {
      EventCompletes(q, e.event, k, c);
    } else if e.PollOp? {
      PollCompletesNobody(q, e.key, e.waker, e.attempt, k);
      hide Poll, Inv, Count;
    } else {
      hide Inv, AfterAttempt, DispatchEvent, Count;
    }
  }

  ghost predicate WasAnswered(states: seq<Kq>, events: seq<Event>, n: nat, k: OpKey, c: Content)
    requires n <= |events| < |states|
  {
    exists m | 0 <= m < n :: Enabled(states[m], events[m]) && Answers(states[m], events[m], k, c)
  }

  lemma {:induction false} CompletedWasAnswered(states: seq<Kq>, events: seq<Event>, n: nat, k: OpKey, c: Content)
    requires IsRun(states, events) && n < |states| && k in states[n].ops && states[n].ops[k].status == Completed(c)
    ensures WasAnswered(states, events, n, k, c)
  {
    hide Inv, Step, Enabled, Answers;
    InvAlong(states, events, n - 1);
    CompletedStep(states[n - 1], events[n - 1], k, c);
    if k in states[n - 1].ops && states[n - 1].ops[k].status == Completed(c) {
      CompletedWasAnswered(states, events, n - 1, k, c);
    }
  }

  /** What the attempt itself came to, given the filters already taken. */
  predicate AttemptSays(q: Kq, a: Attempt, c: Content) {
    match a
    case Immediate(x) => c == x
    case Register(r, refusal) => if r.interest in q.interests then c == AlreadyExists else refusal == Some(c)
    case Block(refusal) => refusal == Some(c)
  }

  /** A future gets a result that somebody gave: what answered the operation earlier, or what the
      attempt it just made came to. */
  lemma ResultsAreGenuine(states: seq<Kq>, events: seq<Event>, n: nat, k: OpKey, w: Waker, a: Attempt, c: Content)
    requires IsRun(states, events) && n < |events| && events[n] == PollOp(k, w, a)
    requires Poll(states[n], k, w, a).1 == Finished(c)
    ensures k in states[n].ops
    ensures states[n].ops[k].status.Completed? ==> WasAnswered(states, events, n, k, c)
    ensures !states[n].ops[k].status.Completed? ==> AttemptSays(states[n], a, c)
    ensures k !in states[n + 1].ops && k !in states[n + 1].futures
  {
    if states[n].ops[k].status.Completed? {
      CompletedWasAnswered(states, events, n, k, c);
    }
  }

  /** So does a dropped future's completion. */
  lemma DroppedResultsAreGenuine(states: seq<Kq>, events: seq<Event>, n: nat, k: OpKey, data: Payload)
    requires IsRun(states, events) && n < |events| && events[n] == RemoveOp(k, data)
    ensures match Remove(states[n], k, data).1
            case Some(c) => WasAnswered(states, events, n, k, c)
            case None => k in states[n].ops && !states[n].ops[k].status.Completed?
  {
    InvAlong(states, events, n);
    assert KeyOk(states[n], k);
    hide Inv;
    if states[n].ops[k].status.Completed? {
      CompletedWasAnswered(states, events, n, k, states[n].ops[k].status.content);
    }
  }

  /** An answer in the queue was posted by its job, or by the guard of a job the pool refused. */
  lemma {:induction false} AnswersComeFromJobs(states: seq<Kq>, events: seq<Event>, n: nat, k: OpKey, c: Content)
    requires IsRun(states, events) && n < |states| && (k, c) in states[n].done
    ensures exists m | 0 <= m < n :: events[m] == JobDone(k, c) || (c == Interrupted && Polls(events[m], k))
  {
    PostStep(states[n - 1], events[n - 1], k, c);
    hide Step, Enabled;
    if (k, c) in states[n - 1].done {
      AnswersComeFromJobs(states, events, n - 1, k, c);
    }
  }

  lemma PostStep(q: Kq, e: Event, k: OpKey, c: Content)
    requires Enabled(q, e) && (k, c) in Step(q, e).done
    ensures (k, c) in q.done || e == JobDone(k, c) || (c == Interrupted && Polls(e, k))
  {
  }

  // ----- cancelling -----

  predicate Ending(s: Status) { s.Completed? || s.Canceling? }

  lemma EventKeepsEnding(q: Kq, e: KEvent, k: OpKey)
    requires Inv(q) && k in q.ops && Ending(q.ops[k].status)
    ensures k in DispatchEvent(q, e).ops && DispatchEvent(q, e).ops[k] == q.ops[k]
  {
    assert KeyOk(q, k);
    if IsCurrent(q, e.key, e.interest) {
      var t, w := MarkedReady(q, e.key, e.interest, e.error), Interest(e.interest.fd, Write);
      MarkReadyKeeps(q, e.key, e.interest, e.error);
      ReadinessAlwaysCounts(q, e.key, e.interest, e.error);
      assert InterestOk(t, w) && KeyOk(t, k);
      if e.readable && e.writable && w in t.interests {
        ReadinessAlwaysCounts(t, t.interests[w], w, e.writeError);
      }
      hide Inv;
    }
  }

  lemma EndingStep(q: Kq, e: Event, k: OpKey)
    requires Inv(q) && Enabled(q, e) && k in q.ops && (Ending(q.ops[k].status) || e == CancelOp(k))
    ensures k in Step(q, e).ops ==> Ending(Step(q, e).ops[k].status)
    ensures e == CancelOp(k) && k in q.futures ==>
              Step(q, e).ops[k].status.Completed? != Step(q, e).ops[k].status.Canceling?
              && (Step(q, e).ops[k].status.Canceling? <==> Outstanding(q, k) == 1)
  {
    assert KeyOk(q, k);
    if e.Readiness? {
      EventKeepsEnding(q, e.event, k);
    } else {
      hide Inv;
    }
  }

  lemma GoneStep(q: Kq, e: Event, k: OpKey)
    requires Inv(q) && Enabled(q, e) && k in q.issued && k !in q.ops
    ensures k in Step(q, e).issued && k !in Step(q, e).ops
  {
    assert KeyOk(q, k);
    if e.Readiness? {
      EventKeepsPayload(q, e.event, k);
    } else {
      hide Inv;
    }
  }

  /** A cancelled operation is complete, or waits for its job's answer, from then on until its slot
      is gone for good; it never runs again. */
  lemma {:induction false} CancelledStaysCancelled(states: seq<Kq>, events: seq<Event>, m: nat, n: nat, k: OpKey)
    requires IsRun(states, events) && m < n < |states| && events[m] == CancelOp(k) && k in states[m].ops
    ensures k in states[n].ops ==> Ending(states[n].ops[k].status)
  {
    hide Inv, Step, Enabled, Ending;
    InvAlong(states, events, n - 1);
    if n == m + 1 {
      EndingStep(states[m], events[m], k);
    } else {
      CancelledStaysCancelled(states, events, m, n - 1, k);
      if k in states[n - 1].ops {
        EndingStep(states[n - 1], events[n - 1], k);
      } else {
        IssuedBefore(states, events, m, n - 1, k);
        GoneStep(states[n - 1], events[n - 1], k);
      }
    }
  }

  lemma {:induction false} IssuedBefore(states: seq<Kq>, events: seq<Event>, m: nat, n: nat, k: OpKey)
    requires IsRun(states, events) && m <= n < |states| && k in states[m].ops
    ensures k in states[n].issued
  {
    hide Step, Enabled;
    if m < n {
      IssuedBefore(states, events, m, n - 1, k);
      IssuedGrows(states[n - 1], events[n - 1]);
    } else {
      InvAlong(states, events, m);
      assert KeyOk(states[m], k);
    }
  }
}
