/** The task protocol over whole runs. What is promised is said in terms of the events of the run:
    who woke, aborted, polled or dropped, and when. */
module TaskRuns {
  import opened Basics
  import opened TaskWord
  import opened TaskCell

  /** A finite run: it starts from a freshly spawned task and takes enabled steps. */
  ghost predicate IsRun(states: seq<Task>, events: seq<Event>) {
    && |states| == |events| + 1
    && (states[0] == Init(false) || states[0] == Init(true))
    && forall i | 0 <= i < |events| :: Enabled(states[i], events[i]) && states[i + 1] == Step(states[i], events[i])
  }

  lemma {:induction false} InvAlong(states: seq<Task>, events: seq<Event>, k: nat)
    requires IsRun(states, events) && k < |states|
    ensures Inv(states[k])
  {
    if k > 0 {
      InvAlong(states, events, k - 1);
      StepKeepsInv(states[k - 1], events[k - 1]);
    }
  }

  /** Mutual exclusion: in no reachable state does an access to the stage or to the join-waker
      cell overlap a write by another party, and no assertion of a transition, no
      "unreachable" arm and no missing-waker panic is ever hit. */
  lemma NoRaceNoFailedAssertion(states: seq<Task>, events: seq<Event>, k: nat)
    requires IsRun(states, events) && k < |states|
    ensures !states[k].fault && NoRace(states[k])
  {
    InvAlong(states, events, k);
    var s := states[k];
    assert Inv(s);
    if s.crew.freeing > 0 {
      assert RefsHeld(s) == 0;
    }
  }

  // ----- references -----

  /** Reference accounting: the packed count is the number of live references; the task is
      freed once and only once that number is zero; and a freed task takes no further step. */
  lemma ReferencesExact(states: seq<Task>, events: seq<Event>, k: nat)
    requires IsRun(states, events) && k < |states|
    ensures var s := states[k];
            && s.word.refs == RefsHeld(s)
            && s.crew.freed <= 1
            && (s.crew.freeing + s.crew.freed == 1 <==> RefsHeld(s) == 0)
            && (s.crew.freed == 1 ==> forall e :: !Enabled(s, e))
  {
    InvAlong(states, events, k);
    var s := states[k];
    if s.crew.freed == 1 {
      FreedIsDead(s);
    }
  }

  lemma FreedIsQuiet(s: Task)
    requires Inv(s) && s.crew.freed == 1
    ensures RefsHeld(s) == 0 && s.crew.freeing == 0
    ensures s.poller.NoPoll? && s.join.JoinGone? && !s.owned
    ensures s.crew.viaWaker.Quiet() && s.crew.viaPoll.Quiet() && s.crew.viaJoin.Quiet() && s.crew.viaOwned.Quiet()
  {
  }

  lemma FreedIsDead(s: Task)
    requires Inv(s) && s.crew.freed == 1
    ensures forall e :: !Enabled(s, e)
  {
    forall e ensures !Enabled(s, e) {
      FreedRefuses(s, e);
    }
  }

  lemma FreedRefuses(s: Task, e: Event)
    requires Inv(s) && s.crew.freed == 1
    ensures !Enabled(s, e)
  {
    FreedIsQuiet(s);
    hide Inv;
    if e.ScheduleLent? {
      match e.lender { case ByWaker => case ByPoll => case ByJoin => case ByOwned => }
    } else if e.ReturnLent? {
      match e.lender { case ByWaker => case ByPoll => case ByJoin => case ByOwned => }
    }
  }

  predicate IsWake(e: Event) { e.WakeByRef? || e.WakeByVal? }

  predicate Schedules(e: Event) { e.ScheduleOwn? || e.ScheduleLent? }

  /** The scheduler throws a token away instead of running it. */
  predicate Discards(e: Event) { e.DropToken? || (Schedules(e) && e.discard) }

  // ----- who changes what -----

  datatype Party = Others | Runner | PollSide | JoinSide

  /** Whose step it is. */
  function PartyOf(e: Event): Party {
    match e
    case Run => Runner
    case FutureReady(_) => PollSide
    case StoreOutput => PollSide
    case FuturePending => PollSide
    case GoIdle => PollSide
    case CancelDrop => PollSide
    case CancelStore => PollSide
    case Complete => PollSide
    case PollerDropOutput => PollSide
    case WakeJoin => PollSide
    case UnsetJoinWaker => PollSide
    case PollerDropWaker => PollSide
    case JoinPoll(_) => JoinSide
    case JoinCompare => JoinSide
    case JoinUnset => JoinSide
    case JoinReload => JoinSide
    case JoinWrite => JoinSide
    case JoinSetBit => JoinSide
    case JoinClear => JoinSide
    case JoinTake => JoinSide
    case JoinDrop(_) => JoinSide
    case JoinDropSlow => JoinSide
    case JoinDropOutput => JoinSide
    case JoinDropWaker => JoinSide
    case _ => Others
  }

  /** Each party moves itself and records what it does, and leaves the rest alone. */
  predicate Local(s: Task, e: Event, t: Task) {
    match PartyOf(e)
    case Others =>
      && t.poller == s.poller && t.join == s.join && t.stage == s.stage
      && t.log == s.log.(discarded := s.log.discarded || Discards(e))
    case Runner => t.join == s.join && t.stage == s.stage && t.log == s.log
    case PollSide =>
      && t.join == s.join
      && t.log.discarded == s.log.discarded && t.log.pended == (s.log.pended || e.FuturePending?)
      && t.log.lastPending == s.log.lastPending && t.log.taken == s.log.taken
      && t.log.woken == if e.WakeJoin? && s.cell.Some? then s.cell else s.log.woken
    case JoinSide =>
      && t.poller == s.poller
      && t.log.discarded == s.log.discarded && t.log.pended == s.log.pended
      && t.log.produced == s.log.produced && t.log.woken == s.log.woken
      && t.log.taken == if e.JoinTake? && s.stage.Finished? then Some(s.stage.output) else s.log.taken
  }

  lemma LentIsLocal(s: Task, e: Event)
    requires Enabled(s, e) && (e.ScheduleLent? || e.ReturnLent?)
    ensures Local(s, e, Step(s, e))
  {
    match e.lender { case ByWaker => case ByPoll => case ByJoin => case ByOwned => }
  }

  lemma SubmitIsLocal(s: Task, e: Event)
    requires Enabled(s, e) && (e.WakeByRef? || e.Abort?)
    ensures Local(s, e, Step(s, e))
  {
    match e.lender { case ByWaker => case ByPoll => case ByJoin => case ByOwned => }
  }

  lemma CrewIsLocal(s: Task, e: Event)
    requires Enabled(s, e)
    requires e.DropToken? || e.ScheduleOwn? || e.CloneWaker? || e.DropWakerRef? || e.DropOwned? || e.Release? || e.Free?
             || e.WakeByVal? || e.Run?
    ensures Local(s, e, Step(s, e))
  {
  }

  lemma PollSideIsLocal(s: Task, e: Event)
    requires Enabled(s, e) && PartyOf(e).PollSide?
    ensures Local(s, e, Step(s, e))
  {
  }

  /** Polling the join handle, up to its answer. */
  predicate JoinPolls(e: Event) {
    e.JoinPoll? || e.JoinCompare? || e.JoinUnset? || e.JoinReload? || e.JoinWrite? || e.JoinSetBit?
  }

  lemma JoinPollsIsLocal(s: Task, e: Event)
    requires Enabled(s, e) && JoinPolls(e)
    ensures Local(s, e, Step(s, e))
  {
  }

  lemma JoinTakesIsLocal(s: Task, e: Event)
    requires Enabled(s, e) && (e.JoinClear? || e.JoinTake?)
    ensures Local(s, e, Step(s, e))
  {
  }

  lemma JoinDropsIsLocal(s: Task, e: Event)
    requires Enabled(s, e) && (e.JoinDrop? || e.JoinDropSlow? || e.JoinDropOutput? || e.JoinDropWaker?)
    ensures Local(s, e, Step(s, e))
  {
  }

  lemma StepIsLocal(s: Task, e: Event)
    requires Enabled(s, e)
    ensures Local(s, e, Step(s, e))
  {
    hide Local, Step, Enabled;
    if e.ScheduleLent? || e.ReturnLent? {
      LentIsLocal(s, e);
    } else if e.WakeByRef? || e.Abort? {
      SubmitIsLocal(s, e);
    } else if PartyOf(e).PollSide? {
      PollSideIsLocal(s, e);
    } else if JoinPolls(e) {
      JoinPollsIsLocal(s, e);
    } else if e.JoinClear? || e.JoinTake? {
      JoinTakesIsLocal(s, e);
    } else if PartyOf(e).JoinSide? {
      JoinDropsIsLocal(s, e);
    } else {
      CrewIsLocal(s, e);
    }
  }

  // ----- wakes, aborts and tokens -----

  /** Some wake came after the last time a token was run. */
  predicate WokenSince(events: seq<Event>, k: nat)
    requires k <= |events|
  {
    exists j | 0 <= j < k :: IsWake(events[j]) && forall m | j < m < k :: !events[m].Run?
  }

  predicate Aborted(events: seq<Event>, k: nat)
    requires k <= |events|
  {
    exists j | 0 <= j < k :: events[j].Abort?
  }

  /** The marks of a task move as the events say: a wake marks it, running a token takes the mark,
      an abort cancels, and nothing else marks or cancels. */
  predicate Moves(s: Snapshot, e: Event, t: Snapshot) {
    !t.complete ==>
      && !s.complete
      && (IsWake(e) ==> t.notified)
      && (e.Run? ==> !t.notified)
      && (s.notified && !e.Run? ==> t.notified)
      && (t.notified && !IsWake(e) && !e.Abort? ==> s.notified)
      && (t.cancelled <==> s.cancelled || e.Abort?)
      && (t.running ==> s.running || e.Run?)
  }

  lemma RunMoves(s: Task)
    requires Inv(s) && s.crew.queued > 0
    ensures Moves(s.word, Run, DoRun(s).word)
  {
    assert InvTokens(s) && InvLifecycle(s);
  }

  lemma WakeMoves(s: Task, e: Event)
    requires Inv(s) && Enabled(s, e) && IsWake(e)
    ensures Moves(s.word, e, Step(s, e).word)
  {
    StepKeepsInv(s, e);
    hide InvStage, InvTokens, InvJoinCell, InvJoinWake, InvRefs, InvLifecycle;
    if e.WakeByRef? {
      match e.lender { case ByWaker => case ByPoll => case ByJoin => case ByOwned => }
    }
  }

  lemma AbortMoves(s: Task, e: Event)
    requires Inv(s) && Enabled(s, e) && e.Abort?
    ensures Moves(s.word, e, Step(s, e).word)
  {
    StepKeepsInv(s, e);
    hide InvStage, InvTokens, InvJoinCell, InvJoinWake, InvRefs, InvLifecycle;
    match e.lender { case ByWaker => case ByPoll => case ByJoin => case ByOwned => }
  }

  lemma LentMoves(s: Task, e: Event)
    requires Enabled(s, e) && (e.ScheduleLent? || e.ReturnLent?)
    ensures Step(s, e).word == s.word
  {
    match e.lender { case ByWaker => case ByPoll => case ByJoin => case ByOwned => }
  }

  lemma PollerMoves(s: Task, e: Event)
    requires Enabled(s, e)
    requires e.FutureReady? || e.StoreOutput? || e.FuturePending? || e.GoIdle? || e.CancelDrop? || e.CancelStore?
             || e.Complete? || e.PollerDropOutput? || e.WakeJoin? || e.UnsetJoinWaker? || e.PollerDropWaker?
    ensures Moves(s.word, e, Step(s, e).word)
  {
  }

  /** The join handle's steps on the word, and those that leave it alone. */
  lemma JoinMoves(s: Task, e: Event)
    requires Enabled(s, e) && (e.JoinUnset? || e.JoinSetBit? || e.JoinDrop? || e.JoinDropSlow?)
    ensures Moves(s.word, e, Step(s, e).word)
  {
    match e
    case JoinUnset =>
    case JoinSetBit =>
    case JoinDrop(_) =>
    case JoinDropSlow =>
  }

  lemma JoinKeepsWord(s: Task, e: Event)
    requires Enabled(s, e)
    requires e.JoinPoll? || e.JoinCompare? || e.JoinReload? || e.JoinWrite? || e.JoinClear? || e.JoinTake?
             || e.JoinDropOutput? || e.JoinDropWaker?
    ensures Step(s, e).word == s.word
  {
  }

  lemma StepMoves(s: Task, e: Event)
    requires Inv(s) && Enabled(s, e)
    ensures Moves(s.word, e, Step(s, e).word)
  {
    if e.Run? {
      RunMoves(s);
    } else if IsWake(e) {
      WakeMoves(s, e);
    } else if e.Abort? {
      AbortMoves(s, e);
    } else if e.ScheduleLent? || e.ReturnLent? {
      LentMoves(s, e);
    } else if e.DropToken? || e.ScheduleOwn? || e.CloneWaker? || e.DropWakerRef? || e.DropOwned? || e.Release? || e.Free? {
      hide Inv;
    } else if e.JoinUnset? || e.JoinSetBit? || e.JoinDrop? || e.JoinDropSlow? {
      JoinMoves(s, e);
    } else if e.JoinPoll? || e.JoinCompare? || e.JoinReload? || e.JoinWrite? || e.JoinClear? || e.JoinTake?
              || e.JoinDropOutput? || e.JoinDropWaker? {
      JoinKeepsWord(s, e);
    } else {
      PollerMoves(s, e);
    }
  }

  /** An incomplete task is cancelled if and only if somebody aborted it. */
  lemma {:induction false} CancelledIff(states: seq<Task>, events: seq<Event>, k: nat)
    requires IsRun(states, events) && k < |states| && !states[k].word.complete
    ensures states[k].word.cancelled <==> Aborted(events, k)
  {
    hide Inv, Step, Enabled;
    if k > 0 {
      InvAlong(states, events, k - 1);
      StepMoves(states[k - 1], events[k - 1]);
      CancelledIff(states, events, k - 1);
    }
  }

  lemma RunningIsIncomplete(states: seq<Task>, events: seq<Event>, k: nat)
    requires IsRun(states, events) && k < |states| && states[k].word.running
    ensures !states[k].word.complete
  {
    InvAlong(states, events, k);
    assert InvLifecycle(states[k]);
  }

  lemma {:induction false} RunningHasRun(states: seq<Task>, events: seq<Event>, k: nat)
    requires IsRun(states, events) && k < |states| && states[k].word.running
    ensures exists j | 0 <= j < k :: events[j].Run?
  {
    hide Inv, Step, Enabled;
    RunningIsIncomplete(states, events, k);
    InvAlong(states, events, k - 1);
    StepMoves(states[k - 1], events[k - 1]);
    if !events[k - 1].Run? {
      RunningHasRun(states, events, k - 1);
    }
  }

  /** A wake since the last run of a token leaves its mark … */
  lemma {:induction false} WokenIsMarked(states: seq<Task>, events: seq<Event>, k: nat)
    requires IsRun(states, events) && k < |states| && !states[k].word.complete && WokenSince(events, k)
    ensures states[k].word.notified
  {
    hide Inv, Step, Enabled;
    InvAlong(states, events, k - 1);
    StepMoves(states[k - 1], events[k - 1]);
    var j :| 0 <= j < k && IsWake(events[j]) && forall m | j < m < k :: !events[m].Run?;
    if j < k - 1 {
      WokenIsMarked(states, events, k - 1);
    }
  }

  /** … and once a token has run, only a wake since then or an abort leaves one. */
  lemma {:induction false} MarkedIsWoken(states: seq<Task>, events: seq<Event>, k: nat)
    requires IsRun(states, events) && k < |states| && !states[k].word.complete
    requires (exists i | 0 <= i < k :: events[i].Run?) && states[k].word.notified
    ensures WokenSince(events, k) || Aborted(events, k)
  {
    hide Inv, Step, Enabled;
    InvAlong(states, events, k - 1);
    StepMoves(states[k - 1], events[k - 1]);
    if !IsWake(events[k - 1]) && !events[k - 1].Abort? {
      assert !events[k - 1].Run?;
      MarkedIsWoken(states, events, k - 1);
      if WokenSince(events, k - 1) {
        var j :| 0 <= j < k - 1 && IsWake(events[j]) && forall m | j < m < k - 1 :: !events[m].Run?;
        assert forall m | j < m < k :: !events[m].Run?;
      }
    }
  }

  lemma {:induction false} DiscardedMeans(states: seq<Task>, events: seq<Event>, k: nat)
    requires IsRun(states, events) && k < |states| && states[k].log.discarded
    ensures exists j | 0 <= j < k :: Discards(events[j])
  {
    hide Step, Enabled;
    if !states[k - 1].log.discarded {
      DiscardStep(states[k - 1], events[k - 1]);
    } else {
      DiscardedMeans(states, events, k - 1);
    }
  }

  lemma DiscardStep(s: Task, e: Event)
    requires Enabled(s, e) && !s.log.discarded && Step(s, e).log.discarded
    ensures Discards(e)
  {
    StepIsLocal(s, e);
    hide Step;
  }

  /** At most one run-queue token exists, and running it always finds the task idle and
      NOTIFIED with nobody inside `poll`: the poll starts, unless the task was aborted, and then
      cancellation does. Polls never overlap. */
  lemma TokenStartsThePoll(states: seq<Task>, events: seq<Event>, k: nat)
    requires IsRun(states, events) && k < |states|
    ensures Tokens(states[k]) <= 1
    ensures Tokens(states[k]) == 1 ==> states[k].poller.NoPoll? && states[k].word.Idle() && states[k].word.notified
    ensures k < |events| && events[k].Run? ==>
              states[k + 1].poller == if Aborted(events, k) then Cancelling(false) else Polling
  {
    InvAlong(states, events, k);
    var s := states[k];
    assert InvTokens(s) && InvLifecycle(s);
    if k < |events| && events[k].Run? {
      CancelledIff(states, events, k);
    }
  }

  /** No lost wakeup: unless the scheduler threw a token away, an incomplete task that was
      woken since a token last ran, or aborted, is queued, or is running and marked so that the
      poller will look again. */
  lemma NoLostWakeup(states: seq<Task>, events: seq<Event>, k: nat)
    requires IsRun(states, events) && k < |states| && !states[k].word.complete
    requires forall j | 0 <= j < k :: !Discards(events[j])
    requires WokenSince(events, k) || Aborted(events, k)
    ensures if states[k].word.running then states[k].word.notified || states[k].word.cancelled
            else Tokens(states[k]) == 1
  {
    InvAlong(states, events, k);
    assert InvTokens(states[k]);
    if WokenSince(events, k) {
      WokenIsMarked(states, events, k);
    } else {
      CancelledIff(states, events, k);
    }
    if states[k].log.discarded {
      DiscardedMeans(states, events, k);
    }
  }

  /** No wakeup out of nothing: once the first token has run, an incomplete task is marked or
      has a token only if it was woken since a token last ran, or was aborted. */
  lemma QueuedOnlyIfWoken(states: seq<Task>, events: seq<Event>, k: nat)
    requires IsRun(states, events) && k < |states| && !states[k].word.complete
    requires exists i | 0 <= i < k :: events[i].Run?
    requires states[k].word.notified || Tokens(states[k]) > 0
    ensures WokenSince(events, k) || Aborted(events, k)
  {
    InvAlong(states, events, k);
    assert InvTokens(states[k]);
    MarkedIsWoken(states, events, k);
  }

  /** So a pending poll during which nobody woke the task leaves it idle, with no token. */
  lemma UnwokenTaskGoesIdle(states: seq<Task>, events: seq<Event>, k: nat)
    requires IsRun(states, events) && k < |events| && events[k].GoIdle?
    requires !WokenSince(events, k) && !Aborted(events, k)
    ensures var t := states[k + 1]; t.poller.NoPoll? && t.word.Idle() && !t.word.notified && Tokens(t) == 0
  {
    InvAlong(states, events, k);
    InvAlong(states, events, k + 1);
    var s := states[k];
    assert InvLifecycle(s) && InvTokens(states[k + 1]);
    RunningHasRun(states, events, k);
    CancelledIff(states, events, k);
    if s.word.notified {
      MarkedIsWoken(states, events, k);
    }
    assert ToIdle(s.word).Swap?;
  }

  /** A task whose polls never return Pending never reaches `schedule` or `yield_now`; the
      blocking pool's scheduler relies on it. */
  lemma ReadyTaskIsNeverScheduled(states: seq<Task>, events: seq<Event>, k: nat)
    requires IsRun(states, events) && k <= |events|
    requires forall j | 0 <= j < k :: !events[j].FuturePending?
    ensures forall j | 0 <= j < k :: !Schedules(events[j])
  {
    forall j | 0 <= j < k ensures !Schedules(events[j]) {
      NeverPended(states, events, j);
      InvAlong(states, events, j);
      assert InvTokens(states[j]);
    }
  }

  lemma {:induction false} NeverPended(states: seq<Task>, events: seq<Event>, k: nat)
    requires IsRun(states, events) && k < |states|
    requires forall j | 0 <= j < k :: !events[j].FuturePending?
    ensures !states[k].log.pended
  {
    if k > 0 {
      NeverPended(states, events, k - 1);
      PendedStep(states[k - 1], events[k - 1]);
    }
  }

  lemma PendedStep(s: Task, e: Event)
    requires Enabled(s, e) && !e.FuturePending?
    ensures Step(s, e).log.pended == s.log.pended
  {
    StepIsLocal(s, e);
    hide Step;
  }

  // ----- the join handle -----

  /** A poll with `w` is under way, or was Pending and its waker is still the latest; `late` says
      that the task was complete when the poll began. */
  predicate Carrying(s: Task, w: nat, late: bool) {
    && (late ==> s.join.Taking?)
    && match s.join
       case Comparing(v) => v == w
       case Unsetting(v) => v == w
       case Reloading(v) => v == w
       case Writing(v) => v == w
       case SettingBit(v) => v == w
       case JoinIdle => s.log.lastPending == Some(w)
       case _ => true
  }

  lemma CarryStep(s: Task, e: Event, w: nat, late: bool)
    requires Enabled(s, e) && !e.JoinPoll? && !e.JoinTake? && Carrying(s, w, late)
    ensures Carrying(Step(s, e), w, late)
  {
    StepIsLocal(s, e);
    if !PartyOf(e).JoinSide? {
      hide Step;
    }
  }

  lemma {:induction false} CarriedAlong(states: seq<Task>, events: seq<Event>, j: nat, k: nat, w: nat)
    requires IsRun(states, events) && j < k < |states| && events[j] == JoinPoll(w)
    requires forall m | j < m < k :: !events[m].JoinPoll? && !events[m].JoinTake?
    ensures Carrying(states[k], w, states[j].word.complete)
  {
    if j + 1 == k {
      InvAlong(states, events, j);
      assert InvJoinCell(states[j]);
    } else {
      CarriedAlong(states, events, j, k - 1, w);
      CarryStep(states[k - 1], events[k - 1], w, states[j].word.complete);
    }
  }

  lemma WokenStep(s: Task, e: Event)
    requires Enabled(s, e) && Step(s, e).log.woken != s.log.woken
    ensures e.WakeJoin? && s.cell == Step(s, e).log.woken
  {
    StepIsLocal(s, e);
    hide Step;
  }

  lemma {:induction false} WokenMeans(states: seq<Task>, events: seq<Event>, j: nat, k: nat)
    requires IsRun(states, events) && j <= k < |states| && states[j].log.woken.None? && states[k].log.woken.Some?
    ensures exists m | j <= m < k :: events[m].WakeJoin? && states[m].cell == states[k].log.woken
  {
    hide Step, Enabled;
    if states[k - 1].log.woken == states[k].log.woken {
      WokenMeans(states, events, j, k - 1);
    } else {
      WokenStep(states[k - 1], events[k - 1]);
    }
  }

  /** A join handle whose last poll was Pending is woken by completion, with the waker of that
      very poll, whatever the race with replacing it: before completion that waker is stored
      and flagged, afterwards the completer is waking it or has done so since that poll. */
  lemma JoinIsWoken(states: seq<Task>, events: seq<Event>, j: nat, k: nat, w: nat)
    requires IsRun(states, events) && j < k < |states| && events[j] == JoinPoll(w)
    requires forall m | j < m < k :: !events[m].JoinPoll? && !events[m].JoinTake?
    requires states[k].join.JoinIdle?
    ensures !states[k].word.complete ==> states[k].word.joinWaker && states[k].cell == Some(w)
    ensures states[k].word.complete ==>
              || (states[k].poller.WakingJoin? && states[k].cell == Some(w))
              || exists m | j < m < k :: events[m].WakeJoin? && states[m].cell == Some(w)
  {
    CarriedAlong(states, events, j, k, w);
    InvAlong(states, events, k);
    assert InvJoinWake(states[k]);
    if states[k].word.complete && !states[k].poller.WakingJoin? {
      InvAlong(states, events, j);
      assert InvJoinWake(states[j]);
      WokenMeans(states, events, j, k);
    }
  }

  // ----- the output -----

  /** What the last poll of the task came to, if it has ended. */
  function Ended(events: seq<Event>, k: nat): Option<Outcome>
    requires k <= |events|
  {
    if k == 0 then None
    else match events[k - 1]
      case FutureReady(o) => Some(o)
      case CancelDrop => Some(CancelError)
      case _ => Ended(events, k - 1)
  }

  /** The outcome the poller carries or has stored. */
  function OutcomeOf(s: Task): Option<Outcome> {
    match s.poller
    case Storing(o) => Some(o)
    case Cancelling(true) => Some(CancelError)
    case _ => s.log.produced
  }

  lemma OutcomeStep(s: Task, e: Event)
    requires Inv(s) && Enabled(s, e)
    ensures OutcomeOf(Step(s, e)) ==
              match e
              case FutureReady(o) => Some(o)
              case CancelDrop => Some(CancelError)
              case _ => OutcomeOf(s)
  {
    StepIsLocal(s, e);
    if PartyOf(e).JoinSide? || PartyOf(e).Others? {
      hide Step;
    }
  }

  lemma {:induction false} OutcomeIsEnded(states: seq<Task>, events: seq<Event>, k: nat)
    requires IsRun(states, events) && k < |states|
    ensures OutcomeOf(states[k]) == Ended(events, k)
  {
    if k > 0 {
      InvAlong(states, events, k - 1);
      OutcomeIsEnded(states, events, k - 1);
      OutcomeStep(states[k - 1], events[k - 1]);
    }
  }

  /** The output is what the future returned: the one event that ended the last poll says what is
      stored, by `FutureReady` its value and by cancellation the cancel error, which needs an abort;
      it is stored exactly when the poller is past storing it. */
  lemma OutputIsWhatThePollReturned(states: seq<Task>, events: seq<Event>, k: nat)
    requires IsRun(states, events) && k < |states|
    ensures states[k].log.produced ==
              if states[k].poller.Storing? || states[k].poller.Cancelling? then None else Ended(events, k)
    ensures states[k].stage.Finished? ==> Ended(events, k) == Some(states[k].stage.output)
    ensures k < |events| && (events[k].FutureReady? || events[k].CancelDrop?) ==> Ended(events, k) == None
    ensures k < |events| && events[k].CancelDrop? ==> Aborted(events, k)
  {
    OutcomeIsEnded(states, events, k);
    InvAlong(states, events, k);
    assert InvStage(states[k]) && InvLifecycle(states[k]);
    if k < |events| && events[k].CancelDrop? {
      CancelledIff(states, events, k);
    }
  }

  lemma TakenStep(s: Task, e: Event)
    requires Inv(s) && Enabled(s, e) && Step(s, e).log.taken != s.log.taken
    ensures e.JoinTake? && s.log.taken.None? && s.stage.Finished? && Step(s, e).log.taken == Some(s.stage.output)
  {
    StepIsLocal(s, e);
    hide Step;
  }

  lemma {:induction false} TakenMeans(states: seq<Task>, events: seq<Event>, k: nat)
    requires IsRun(states, events) && k < |states| && states[k].log.taken.Some?
    ensures exists m | 0 <= m < k :: events[m].JoinTake? && states[m].stage == Finished(states[k].log.taken.value)
  {
    hide Step, Enabled, Inv;
    InvAlong(states, events, k - 1);
    if states[k - 1].log.taken == states[k].log.taken {
      TakenMeans(states, events, k - 1);
    } else {
      TakenStep(states[k - 1], events[k - 1]);
    }
  }

  /** A join that takes the output finds what the last poll came to, unless an earlier one has
      taken it. */
  lemma JoinTakesTheOutput(states: seq<Task>, events: seq<Event>, k: nat)
    requires IsRun(states, events) && k < |events| && events[k].JoinTake?
    ensures || (states[k].stage.Finished? && Some(states[k].stage.output) == Ended(events, k))
            || exists m | 0 <= m < k :: events[m].JoinTake? && states[m].stage.Finished?
  {
    OutputIsWhatThePollReturned(states, events, k);
    InvAlong(states, events, k + 1);
    assert !states[k + 1].fault;
    if !states[k].stage.Finished? {
      TakeNeedsOutput(states[k]);
      TakenMeans(states, events, k);
    }
  }

  lemma TakeNeedsOutput(s: Task)
    requires !DoJoinTake(s).fault && !s.stage.Finished?
    ensures s.log.taken.Some?
  {
  }

  /** The output has exactly one consumer: it is taken by the join, dropped by the join handle
      or dropped by the completer, never two of them; what is taken is what the last poll came to;
      and once a completed task has no references left it has been consumed. */
  lemma OutputConsumedOnce(states: seq<Task>, events: seq<Event>, k: nat)
    requires IsRun(states, events) && k < |states|
    ensures Consumers(states[k]) <= 1
    ensures states[k].stage.Finished? ==> Consumers(states[k]) == 0
    ensures states[k].word.complete && states[k].word.refs == 0 ==> Consumers(states[k]) == 1
    ensures states[k].log.taken.Some? ==> states[k].log.taken == Ended(events, k)
  {
    hide Step, Enabled;
    InvAlong(states, events, k);
    OutputIsWhatThePollReturned(states, events, k);
    ConsumersOf(states[k]);
  }

  lemma ConsumersOf(s: Task)
    requires Inv(s)
    ensures Consumers(s) <= 1
    ensures s.stage.Finished? ==> Consumers(s) == 0
    ensures s.word.complete && s.word.refs == 0 ==> Consumers(s) == 1
    ensures s.log.taken.Some? ==> s.log.taken == s.log.produced && !s.poller.Storing? && !s.poller.Cancelling?
  {
    assert InvStage(s) && InvJoinCell(s) && InvLifecycle(s);
    if s.word.complete && s.word.refs == 0 {
      assert RefsHeld(s) == 0;
    }
  }
}
