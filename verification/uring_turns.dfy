/** The io_uring backend over whole runs: any number of operations and streams, and turns of the
    completion queue that apply completions first and may fail afterwards. A turn that fails drops
    what it deferred. Here is exactly what that loses.

    A turn can begin inside another one, because pushing an entry to a full ring can dispatch
    completions again; open turns form a stack. While one is open the backend is borrowed, so no
    task can poll, drop, cancel or submit. */
module UringTurns {
  import opened Basics
  import OpTables
  import One = UringOneshot
  import Many = UringMultishot
  import Backend = UringBackend

  type OpKey = OpTables.OpKey

  /** An open turn: what it has deferred, the streams it has to cancel, and whether it has to
      re-arm the wakeup. */
  datatype Frame = Frame(deferred: seq<Backend.Action>, cancels: seq<OpKey>, rearm: bool)

  datatype Sys = Sys(ones: map<OpKey, One.Life>, manys: map<OpKey, Many.Life>, frames: seq<Frame>)

  const INIT := Sys(map[], map[], [])

  // ----- the operation table -----

  function SlotOf(s: Sys, k: OpKey): Option<Backend.State> {
    if k in s.ones then
      (if s.ones[k].slot.Some? then Some(Backend.Oneshot(s.ones[k].slot.value)) else None)
    else if k in s.manys && s.manys[k].slot.Some? then Some(Backend.Multishot(s.manys[k].slot.value))
    else None
  }

  ghost function Table(s: Sys): Backend.Ops {
    map k | k in s.ones.Keys + s.manys.Keys && SlotOf(s, k).Some? :: SlotOf(s, k).value
  }

  lemma TableAt(s: Sys, k: OpKey)
    ensures Backend.At(Table(s), k) == SlotOf(s, k)
  {
  }

  ghost function AsTurn(s: Sys, f: Frame): Backend.Turn {
    Backend.Turn(Table(s), f.deferred, f.cancels, [], f.rearm)
  }

  // ----- steps -----

  /** `TaskStep` is a call made for a oneshot operation, `StreamStep` a poll or drop of a stream.
      `RunDeferred` runs what a finished turn handed out for an operation. */
  datatype Event =
    | TaskStep(step: One.Event)
    | OpenStream(key: OpKey, data: nat, limit: Option<nat>)
    | StreamStep(key: OpKey, event: Many.Event)
    | CancelPushed(key: OpKey)
    | TurnBegin
    | Entry(cqe: Backend.RawCqe)
    | TurnEnd(accepts: set<OpKey>, rearmAccepted: bool)
    | RunDeferred(key: OpKey)

  predicate ByTask(e: One.Event) {
    e.Submit? || e.SubmitAccepted? || e.SubmitRefused? || e.PollFuture? || e.CancelOp? || e.DropFuture?
  }

  function Flat(frames: seq<Frame>): seq<Backend.Action> {
    if frames == [] then [] else Flat(frames[..|frames| - 1]) + frames[|frames| - 1].deferred
  }

  /** What open turns hold for an operation. */
  function Held(s: Sys, k: OpKey): seq<Backend.Action> { Backend.Own(Flat(s.frames), k) }

  function Top(s: Sys): Frame
    requires s.frames != []
  {
    s.frames[|s.frames| - 1]
  }

  predicate Names(e: Backend.RawCqe, k: OpKey) { Backend.Names(e, k) }

  /** The kernel completes a oneshot request once, and a stream while it is armed; a duplicate, a
      stale key and a malformed word are possible. */
  predicate Deliverable(s: Sys, e: Backend.RawCqe) {
    match OpTables.Decode(e.userData)
    case Some(Operation(k)) =>
      && (k in s.ones ==> s.ones[k].inKernel || s.ones[k].cqe.Some?)
      && (k in s.manys ==> s.manys[k].armed)
    case _ => true
  }

  predicate Enabled(s: Sys, e: Event) {
    match e
    case TaskStep(step) =>
      && s.frames == [] && ByTask(step)
      && (if step.Submit? then step.key !in s.ones && step.key !in s.manys
          else step.CancelOp? || (step.key in s.ones && One.EnabledIn(s.ones[step.key], step)))
    case OpenStream(k, _, _) => s.frames == [] && k !in s.ones && k !in s.manys
    case StreamStep(k, event) =>
      s.frames == [] && k in s.manys && (event.Next? || event.Drop?) && Many.Enabled(s.manys[k], event)
    case CancelPushed(_) => true
    case TurnBegin => true
    case Entry(cqe) => s.frames != [] && Deliverable(s, cqe)
    case TurnEnd(_, _) => s.frames != []
    case RunDeferred(k) =>
      Held(s, k) == [] &&
      ((k in s.ones && (s.ones[k].cleanup.Some? || s.ones[k].wake.Some?)) || (k in s.manys && s.manys[k].wake.Some?))
  }

  function StepOne(s: Sys, k: OpKey, e: One.Event): Sys
    requires k in s.ones && One.EnabledIn(s.ones[k], e)
  {
    s.(ones := s.ones[k := One.StepIn(s.ones[k], e)])
  }

  function StepMany(s: Sys, k: OpKey, e: Many.Event): Sys
    requires k in s.manys && Many.Enabled(s.manys[k], e)
  {
    s.(manys := s.manys[k := Many.Step(s.manys[k], e)])
  }

  function DoTask(s: Sys, e: One.Event): Sys
    requires Enabled(s, TaskStep(e))
  {
    if e.Submit? then s.(ones := s.ones[e.key := One.Born(e.payload)])
    else if e.key in s.ones then StepOne(s, e.key, e)
    else s
  }

  function Deliver(s: Sys, k: OpKey, e: Backend.RawCqe): Sys
    requires k in s.ones ==> s.ones[k].inKernel || s.ones[k].cqe.Some?
    requires k in s.manys ==> s.manys[k].armed
  {
    if k in s.ones then
      StepOne(s, k, if s.ones[k].inKernel then One.Arrive(k, e.content) else One.ArriveAgain(k, e.content))
    else if k in s.manys then StepMany(s, k, Many.Arrive(e.content, e.more))
    else s
  }

  /** One entry of the completion queue, as `DispatchOne` treats it. */
  ghost function DoEntry(s: Sys, e: Backend.RawCqe): Sys
    requires Enabled(s, Entry(e))
  {
    var t := Backend.DispatchOne(AsTurn(s, Top(s)), e, false);
    var u := match OpTables.Decode(e.userData)
      case Some(Operation(k)) => Deliver(s, k, e)
      case _ => s;
    u.(frames := s.frames[..|s.frames| - 1] + [Frame(t.deferred, t.cancels, t.rearm)])
  }

  function AbandonOne(l: One.Life, k: OpKey): One.Life {
    if l.cleanup.Some? || l.wake.Some? then One.StepIn(l, One.Abandon(k)) else l
  }

  function AbandonMany(l: Many.Life): Many.Life { if l.wake.Some? then Many.Step(l, Many.Abandon) else l }

  ghost predicate TurnFails(s: Sys, e: Event) {
    e.TurnEnd? && s.frames != [] && Backend.Fails(AsTurn(s, Top(s)), e.accepts, e.rearmAccepted)
  }

  /** The turn ends. If it fails, everything it deferred is dropped. */
  ghost function DoEnd(s: Sys, e: Event): Sys
    requires e.TurnEnd? && s.frames != []
  {
    var t := s.(frames := s.frames[..|s.frames| - 1]);
    if !TurnFails(s, e) then t
    else t.(ones := map k | k in s.ones ::
              if Backend.Own(Top(s).deferred, k) != [] then AbandonOne(s.ones[k], k) else s.ones[k],
            manys := map k | k in s.manys ::
              if Backend.Own(Top(s).deferred, k) != [] then AbandonMany(s.manys[k]) else s.manys[k])
  }

  function DoRun(s: Sys, k: OpKey): Sys
    requires Enabled(s, RunDeferred(k))
  {
    if k in s.ones && s.ones[k].cleanup.Some? then StepOne(s, k, One.RunCleanup(k))
    else if k in s.ones && s.ones[k].wake.Some? then StepOne(s, k, One.RunWake(k))
    else StepMany(s, k, Many.RunWake)
  }

  ghost function Step(s: Sys, e: Event): Sys
    requires Enabled(s, e)
  {
    match e
    case TaskStep(step) => DoTask(s, step)
    case OpenStream(k, data, limit) => s.(manys := s.manys[k := Many.Step(Many.Init(data, limit), Many.Start(true))])
    case StreamStep(k, event) => StepMany(s, k, event)
    case CancelPushed(k) => if k in s.ones then StepOne(s, k, One.CancelPushed(k)) else s
    case TurnBegin => s.(frames := s.frames + [Frame([], [], false)])
    case Entry(cqe) => DoEntry(s, cqe)
    case TurnEnd(_, _) => DoEnd(s, e)
    case RunDeferred(k) => DoRun(s, k)
  }

  // ----- what holds at every moment -----

  /** An action is what the operation itself has deferred. */
  predicate Matches(s: Sys, a: Backend.Action) {
    match a
    case WakeTask(k, w) => (k in s.ones && s.ones[k].wake == Some(w)) || (k in s.manys && s.manys[k].wake == Some(w))
    case RunComplete(k, p, c) => k in s.ones && s.ones[k].cleanup == Some((p, c))
  }

  ghost predicate KeyOk(s: Sys, k: OpKey) {
    && (k in s.ones ==> One.LifeOk(s.ones[k]))
    && (k in s.manys ==> Many.Ok(s.manys[k]) && !s.manys[k].phase.Unsubmitted?)
    && !(k in s.ones && k in s.manys)
    && (Held(s, k) == [] || (|Held(s, k)| == 1 && Held(s, k)[0].key == k && Matches(s, Held(s, k)[0])))
  }

  ghost predicate Inv(s: Sys) { forall k :: KeyOk(s, k) }

  lemma TaskKeeps(s: Sys, e: One.Event, k: OpKey)
    requires KeyOk(s, k) && Enabled(s, TaskStep(e))
    ensures KeyOk(DoTask(s, e), k)
  {
    hide Many.Ok, One.LifeOk, One.StepIn;
    if k == e.key {
      if e.Submit? {
        One.BornOk(e.payload);
      } else if k in s.ones {
        One.StepKeepsLife(s.ones[k], e);
      }
    }
  }

  lemma OpenKeeps(s: Sys, j: OpKey, data: nat, limit: Option<nat>, k: OpKey)
    requires KeyOk(s, k) && Enabled(s, OpenStream(j, data, limit))
    ensures KeyOk(Step(s, OpenStream(j, data, limit)), k)
  {
    if k == j {
      assert Many.Ok(Many.Init(data, limit));
      Many.StartKeepsOk(Many.Init(data, limit), true);
    }
    hide Many.Ok, One.LifeOk;
  }

  lemma StreamKeeps(s: Sys, j: OpKey, e: Many.Event, k: OpKey)
    requires KeyOk(s, k) && Enabled(s, StreamStep(j, e))
    ensures KeyOk(StepMany(s, j, e), k)
  {
    if k == j {
      Many.StepKeepsOk(s.manys[k], e);
      Many.StepFollows(s.manys[k], e);
    }
    hide Many.Ok, One.LifeOk, Many.Step;
  }

  lemma PushedKeeps(s: Sys, j: OpKey, k: OpKey)
    requires KeyOk(s, k)
    ensures KeyOk(Step(s, CancelPushed(j)), k)
  {
    if k == j && k in s.ones {
      One.StepKeepsLife(s.ones[k], One.CancelPushed(k));
    }
    hide Many.Ok, One.LifeOk;
  }

  lemma FlatPush(frames: seq<Frame>, f: Frame)
    ensures Flat(frames + [f]) == Flat(frames) + f.deferred
  {
    assert (frames + [f])[..|frames|] == frames;
  }

  lemma BeginKeeps(s: Sys, k: OpKey)
    requires KeyOk(s, k)
    ensures KeyOk(Step(s, TurnBegin), k)
  {
    FlatPush(s.frames, Frame([], [], false));
    assert Flat(s.frames) + [] == Flat(s.frames);
    hide Many.Ok, One.LifeOk, Flat, Backend.Own;
  }

  // ----- an entry of the completion queue -----

  function NewActions(s: Sys, e: Backend.RawCqe, k: OpKey): seq<Backend.Action> {
    if Names(e, k) then Backend.SlotActions(SlotOf(s, k), k, e) else []
  }

  /** What the open turns hold for an operation grows by what its own slot hands on. */
  lemma EntryHolds(s: Sys, e: Backend.RawCqe, k: OpKey)
    requires Enabled(s, Entry(e))
    ensures Held(DoEntry(s, e), k) == Held(s, k) + NewActions(s, e, k)
  {
    hide Flat, Backend.Own, Backend.DispatchOne, Backend.SlotActions, Deliver, Table, SlotOf;
    var front, top := s.frames[..|s.frames| - 1], Top(s);
    var t := Backend.DispatchOne(AsTurn(s, top), e, false);
    Backend.DispatchOneExtends(AsTurn(s, top), e, false);
    FlatPush(front, top);
    FlatPush(front, Frame(t.deferred, t.cancels, t.rearm));
    assert front + [top] == s.frames;
    var decoded := OpTables.Decode(e.userData);
    if decoded.Some? && decoded.value.Operation? {
      var j := decoded.value.key;
      TableAt(s, j);
      var more := Backend.SlotActions(SlotOf(s, j), j, e);
      assert Flat(front) + (top.deferred + more) == Flat(s.frames) + more;
      Backend.OwnConcat(Flat(s.frames), more, k);
      Backend.SlotActionsOwn(SlotOf(s, j), j, e, k);
    } else {
      assert t.deferred == top.deferred;
      assert Held(s, k) + [] == Held(s, k);
    }
  }

  predicate Fits(k: OpKey, actions: seq<Backend.Action>, wake: Option<nat>, cleanup: Option<(nat, nat)>) {
    || (actions == [] && wake.None? && cleanup.None?)
    || (wake.Some? && actions == [Backend.WakeTask(k, wake.value)])
    || (cleanup.Some? && actions == [Backend.RunComplete(k, cleanup.value.0, cleanup.value.1)])
  }

  /** The first completion of an operation: what the turn defers is what the operation defers. */
  lemma ArrivalFits(l: One.Life, k: OpKey, e: Backend.RawCqe)
    requires One.LifeOk(l) && l.inKernel
    ensures l.wake.None? && l.cleanup.None? && l.slot.Some?
    ensures var t := One.StepIn(l, One.Arrive(k, e.content));
            Fits(k, Backend.SlotActions(Some(Backend.Oneshot(l.slot.value)), k, e), t.wake, t.cleanup)
  {
    match l.slot.value
    case Canceling(o, _) => match o { case Unobserved => case WaitingWith(_) => case DetachedWith(_) => }
    case Submitted =>
    case Waiting(_) =>
    case Detached(_) =>
    case Completed(_) =>
  }

  lemma DuplicateFits(l: One.Life, k: OpKey, e: Backend.RawCqe)
    requires One.LifeOk(l) && !l.inKernel && l.cqe.Some?
    ensures One.StepIn(l, One.ArriveAgain(k, e.content)) == l
    ensures l.slot.Some? ==> Backend.SlotActions(Some(Backend.Oneshot(l.slot.value)), k, e) == []
  {
  }

  lemma StreamArrivalFits(l: Many.Life, k: OpKey, e: Backend.RawCqe)
    requires Many.Ok(l) && l.armed
    ensures l.slot.Some?
    ensures var t := Many.Step(l, Many.Arrive(e.content, e.more));
            var more := Backend.SlotActions(Some(Backend.Multishot(l.slot.value)), k, e);
            if l.wake.Some? then more == [] && t.wake == l.wake else Fits(k, more, t.wake, None)
  {
    hide Many.QueueOk, Many.ResultsOk, Many.Supply, Many.Balance;
    match l.slot.value
    case Active(_, _, _) =>
    case Stopping(_, _) =>
    case Cancelled(_, _) =>
    case Finished(_) =>
  }

  lemma EntryKeepsOther(s: Sys, e: Backend.RawCqe, k: OpKey)
    requires KeyOk(s, k) && Enabled(s, Entry(e)) && !Names(e, k)
    ensures KeyOk(DoEntry(s, e), k)
  {
    hide Many.Ok, One.LifeOk, Held, Backend.DispatchOne, One.StepIn, Many.Step, Backend.SlotActions, Table;
    EntryHolds(s, e, k);
    assert Held(s, k) + [] == Held(s, k);
  }

  lemma EntryKeepsOne(s: Sys, e: Backend.RawCqe, k: OpKey)
    requires KeyOk(s, k) && Enabled(s, Entry(e)) && Names(e, k) && k in s.ones
    ensures KeyOk(DoEntry(s, e), k)
  {
    hide Many.Ok, One.LifeOk, Held, Backend.DispatchOne, One.StepIn, Backend.SlotActions, Table;
    EntryHolds(s, e, k);
    var l, t := s.ones[k], DoEntry(s, e);
    if l.inKernel {
      One.StepKeepsLife(l, One.Arrive(k, e.content));
      ArrivalFits(l, k, e);
      assert t.ones[k] == One.StepIn(l, One.Arrive(k, e.content));
      assert Held(s, k) == [];
      assert Held(t, k) == NewActions(s, e, k);
    } else {
      DuplicateFits(l, k, e);
      Backend.GoneStaysGone(k, e);
      assert t.ones[k] == l;
      assert NewActions(s, e, k) == [];
      assert Held(t, k) == Held(s, k);
    }
  }

  lemma EntryKeepsMany(s: Sys, e: Backend.RawCqe, k: OpKey)
    requires KeyOk(s, k) && Enabled(s, Entry(e)) && Names(e, k) && k in s.manys
    ensures KeyOk(DoEntry(s, e), k)
  {
    hide Many.Ok, One.LifeOk, Held, Backend.DispatchOne, Many.Step, Backend.SlotActions, Table;
    EntryHolds(s, e, k);
    var l, t := s.manys[k], DoEntry(s, e);
    var event := Many.Arrive(e.content, e.more);
    Many.StepKeepsOk(l, event);
    Many.StepFollows(l, event);
    StreamArrivalFits(l, k, e);
    assert t.manys[k] == Many.Step(l, event);
    if l.wake.Some? {
      assert NewActions(s, e, k) == [];
      assert Held(t, k) == Held(s, k);
    } else {
      assert Held(s, k) == [];
      assert Held(t, k) == NewActions(s, e, k);
    }
  }

  lemma EntryKeeps(s: Sys, e: Backend.RawCqe, k: OpKey)
    requires KeyOk(s, k) && Enabled(s, Entry(e))
    ensures KeyOk(DoEntry(s, e), k)
  {
    hide KeyOk, DoEntry;
    if !Names(e, k) {
      EntryKeepsOther(s, e, k);
    } else if k in s.ones {
      EntryKeepsOne(s, e, k);
    } else if k in s.manys {
      EntryKeepsMany(s, e, k);
    } else {
      EntryKeepsUnknown(s, e, k);
    }
  }

  lemma EntryKeepsUnknown(s: Sys, e: Backend.RawCqe, k: OpKey)
    requires KeyOk(s, k) && Enabled(s, Entry(e)) && Names(e, k) && k !in s.ones && k !in s.manys
    ensures KeyOk(DoEntry(s, e), k)
  {
    hide Many.Ok, One.LifeOk, Held, Backend.DispatchOne, One.StepIn, Many.Step, Backend.SlotActions, Table;
    Backend.GoneStaysGone(k, e);
    EntryHolds(s, e, k);
    assert Held(s, k) + [] == Held(s, k);
  }

  // ----- the end of a turn -----

  /** What the top turn holds for an operation is all that is held for it. */
  lemma TopHolds(s: Sys, k: OpKey)
    requires KeyOk(s, k) && s.frames != []
    ensures var own := Backend.Own(Top(s).deferred, k);
            var below := Backend.Own(Flat(s.frames[..|s.frames| - 1]), k);
            && Held(s, k) == below + own
            && (own == [] || below == [])
            && (own != [] ==> own == Held(s, k))
  {
    hide Backend.Own, Many.Ok, One.LifeOk, Matches;
    Backend.OwnConcat(Flat(s.frames[..|s.frames| - 1]), Top(s).deferred, k);
  }

  lemma EndKeeps(s: Sys, e: Event, k: OpKey)
    requires KeyOk(s, k) && e.TurnEnd? && s.frames != []
    ensures KeyOk(DoEnd(s, e), k)
  {
    hide Flat, Backend.Own, Many.Ok, One.LifeOk, TurnFails, One.StepIn, Many.Step;
    TopHolds(s, k);
    if TurnFails(s, e) && Backend.Own(Top(s).deferred, k) != [] {
      if k in s.ones && (s.ones[k].cleanup.Some? || s.ones[k].wake.Some?) {
        One.StepKeepsLife(s.ones[k], One.Abandon(k));
      }
      if k in s.manys && s.manys[k].wake.Some? {
        Many.StepKeepsOk(s.manys[k], Many.Abandon);
        Many.StepFollows(s.manys[k], Many.Abandon);
      }
    }
  }

  lemma RunKeeps(s: Sys, j: OpKey, k: OpKey)
    requires KeyOk(s, k) && Enabled(s, RunDeferred(j))
    ensures KeyOk(DoRun(s, j), k)
  {
    hide Flat, Backend.Own, Many.Ok, One.LifeOk, One.StepIn, Many.Step;
    if k == j {
      if k in s.ones && s.ones[k].cleanup.Some? {
        One.StepKeepsLife(s.ones[k], One.RunCleanup(k));
      } else if k in s.ones && s.ones[k].wake.Some? {
        One.StepKeepsLife(s.ones[k], One.RunWake(k));
      } else if k in s.manys {
        Many.StepKeepsOk(s.manys[k], Many.RunWake);
        Many.StepFollows(s.manys[k], Many.RunWake);
      }
    }
  }

  lemma StepKeepsKey(s: Sys, e: Event, k: OpKey)
    requires KeyOk(s, k) && Enabled(s, e)
    ensures KeyOk(Step(s, e), k)
  {
    hide KeyOk, DoTask, DoEntry, DoEnd, DoRun, StepMany, Held;
    match e
    case TaskStep(step) => TaskKeeps(s, step, k);
    case OpenStream(j, data, limit) => OpenKeeps(s, j, data, limit, k);
    case StreamStep(j, event) => StreamKeeps(s, j, event, k);
    case CancelPushed(j) => PushedKeeps(s, j, k);
    case TurnBegin => BeginKeeps(s, k);
    case Entry(cqe) => EntryKeeps(s, cqe, k);
    case TurnEnd(_, _) => EndKeeps(s, e, k);
    case RunDeferred(j) => RunKeeps(s, j, k);
  }

  // ----- every run -----

  ghost predicate IsRun(states: seq<Sys>, events: seq<Event>) {
    && |states| == |events| + 1 && states[0] == INIT
    && forall i | 0 <= i < |events| :: Enabled(states[i], events[i]) && states[i + 1] == Step(states[i], events[i])
  }

  lemma {:induction false} OkAlong(states: seq<Sys>, events: seq<Event>, i: nat, k: OpKey)
    requires IsRun(states, events) && i < |states|
    ensures KeyOk(states[i], k)
  {
    if i > 0 {
      hide KeyOk, Step, Enabled;
      OkAlong(states, events, i - 1, k);
      StepKeepsKey(states[i - 1], events[i - 1], k);
    }
  }

  predicate Known(s: Sys, k: OpKey) { k in s.ones || k in s.manys }

  lemma StepKeepsKnown(s: Sys, e: Event, k: OpKey)
    requires Enabled(s, e)
    ensures k in s.ones ==> k in Step(s, e).ones
    ensures k in s.manys ==> k in Step(s, e).manys
    ensures k in Step(s, e).ones && k !in s.ones ==> e.TaskStep? && e.step.Submit? && e.step.key == k
    ensures k in Step(s, e).manys && k !in s.manys ==> e.OpenStream? && e.key == k
  {
    hide One.StepIn, Many.Step, Held, AsTurn, TurnFails;
  }

  lemma {:induction false} UnknownBefore(states: seq<Sys>, events: seq<Event>, j: nat, i: nat, k: OpKey)
    requires IsRun(states, events) && j <= i < |states| && !Known(states[i], k)
    ensures !Known(states[j], k)
  {
    hide Step, Enabled;
    if j < i {
      StepKeepsKnown(states[i - 1], events[i - 1], k);
      UnknownBefore(states, events, j, i - 1, k);
    }
  }

  // ----- what is lost -----

  /** The top turn fails while it holds the `complete` of an operation; while it holds a wake. */
  ghost predicate LosesComplete(s: Sys, e: Event, k: OpKey) {
    TurnFails(s, e) && exists a :: a in Top(s).deferred && a.RunComplete? && a.key == k
  }

  ghost predicate LosesWake(s: Sys, e: Event, k: OpKey) {
    TurnFails(s, e) && exists a :: a in Top(s).deferred && a.WakeTask? && a.key == k
  }

  lemma TopAction(s: Sys, k: OpKey)
    requires KeyOk(s, k) && s.frames != []
    ensures var own := Backend.Own(Top(s).deferred, k);
            && (own == [] <==> forall a :: a in Top(s).deferred ==> a.key != k)
            && (own != [] ==> own == [own[0]] && own[0] in Top(s).deferred && own[0].key == k && Matches(s, own[0])
                              && forall a :: a in Top(s).deferred && a.key == k ==> a == own[0])
  {
    TopHolds(s, k);
    var own := Backend.Own(Top(s).deferred, k);
    forall a ensures a in own <==> a in Top(s).deferred && a.key == k {
      Backend.OwnMember(Top(s).deferred, k, a);
    }
    hide Backend.Own, Flat, Many.Ok, One.LifeOk, Matches;
    if own != [] {
      assert own[0] in own;
    }
  }

  lemma LosesNeedsKnown(s: Sys, e: Event, k: OpKey)
    requires KeyOk(s, k) && (LosesComplete(s, e, k) || LosesWake(s, e, k))
    ensures Known(s, k)
  {
    hide Many.Ok, One.LifeOk, Held, Backend.Fails;
    TopAction(s, k);
  }

  lemma OnlyAbandonLoses(l: One.Life, e: One.Event)
    requires One.EnabledIn(l, e) && !e.Abandon?
    ensures One.StepIn(l, e).abandoned == l.abandoned && One.StepIn(l, e).unwoken == l.unwoken
  {
  }

  lemma AbandonedOne(l: One.Life, k: OpKey)
    ensures var t := AbandonOne(l, k);
            && t.wake.None? && t.cleanup.None?
            && (t.abandoned.Some? <==> l.abandoned.Some? || l.cleanup.Some?)
            && (t.unwoken <==> l.unwoken || l.wake.Some?)
  {
  }

  lemma AbandonedMany(l: Many.Life)
    ensures AbandonMany(l).wake.None? && (AbandonMany(l).unwoken <==> l.unwoken || l.wake.Some?)
  {
  }

  /** One operation defers a wake or a `complete`, and is no stream. */
  lemma Apart(s: Sys, k: OpKey)
    requires KeyOk(s, k)
    ensures !(k in s.ones && k in s.manys)
    ensures k in s.ones ==> !(s.ones[k].wake.Some? && s.ones[k].cleanup.Some?)
  {
    hide Held, Many.Ok;
  }

  /** The end of a turn touches an operation if the turn fails and holds something for it. */
  lemma EndTouches(s: Sys, e: Event, k: OpKey)
    requires e.TurnEnd? && s.frames != []
    ensures var t, hit := DoEnd(s, e), TurnFails(s, e) && Backend.Own(Top(s).deferred, k) != [];
            && t.ones.Keys == s.ones.Keys && t.manys.Keys == s.manys.Keys
            && (k in s.ones ==> t.ones[k] == if hit then AbandonOne(s.ones[k], k) else s.ones[k])
            && (k in s.manys ==> t.manys[k] == if hit then AbandonMany(s.manys[k]) else s.manys[k])
  {
    hide TurnFails, AbandonOne, AbandonMany, Backend.Own;
  }

  lemma EndLosesOne(s: Sys, e: Event, k: OpKey)
    requires KeyOk(s, k) && e.TurnEnd? && s.frames != [] && k in s.ones
    ensures k in DoEnd(s, e).ones
    ensures var l, t := s.ones[k], DoEnd(s, e).ones[k];
            && (t.abandoned.Some? <==> l.abandoned.Some? || LosesComplete(s, e, k))
            && (t.unwoken <==> l.unwoken || LosesWake(s, e, k))
  {
    hide KeyOk, TurnFails, Backend.Own, AbandonOne, AbandonMany, DoEnd;
    Apart(s, k);
    TopAction(s, k);
    EndTouches(s, e, k);
    AbandonedOne(s.ones[k], k);
  }

  /** Apart from the end of a turn, a step is at most one step of an operation, and no loss. */
  lemma OneStepAtATime(s: Sys, e: Event, k: OpKey) returns (step: Option<One.Event>)
    requires Enabled(s, e) && k in s.ones && k !in s.manys && !e.TurnEnd?
    ensures k in Step(s, e).ones
    ensures step.None? ==> Step(s, e).ones[k] == s.ones[k]
    ensures step.Some? ==>
              && One.EnabledIn(s.ones[k], step.value) && !step.value.Abandon?
              && Step(s, e).ones[k] == One.StepIn(s.ones[k], step.value)
  {
    hide One.StepIn, Many.Step, AsTurn, Held;
    var l := s.ones[k];
    step := None;
    match e
    case TaskStep(t) =>
      if t.key == k {
        step := Some(t);
      }
    case CancelPushed(j) =>
      if j == k {
        step := Some(One.CancelPushed(k));
      }
    case Entry(cqe) =>
      if Names(cqe, k) {
        step := Some(if l.inKernel then One.Arrive(k, cqe.content) else One.ArriveAgain(k, cqe.content));
      }
    case RunDeferred(j) =>
      if j == k {
        step := Some(if l.cleanup.Some? then One.RunCleanup(k) else One.RunWake(k));
      }
    case OpenStream(_, _, _) =>
    case StreamStep(_, _) =>
    case TurnBegin =>
  }

  lemma StepLosesOne(s: Sys, e: Event, k: OpKey)
    requires KeyOk(s, k) && Enabled(s, e) && k in s.ones
    ensures k in Step(s, e).ones
    ensures Step(s, e).ones[k].abandoned.Some? <==> s.ones[k].abandoned.Some? || LosesComplete(s, e, k)
    ensures Step(s, e).ones[k].unwoken <==> s.ones[k].unwoken || LosesWake(s, e, k)
  {
    if e.TurnEnd? {
      EndLosesOne(s, e, k);
    } else {
      assert k !in s.manys;
      hide One.StepIn, Many.Step, KeyOk, Held, AsTurn, Step, Enabled;
      var step := OneStepAtATime(s, e, k);
      if step.Some? {
        OnlyAbandonLoses(s.ones[k], step.value);
      }
    }
  }

  ghost predicate CompleteLostBefore(states: seq<Sys>, events: seq<Event>, i: nat, k: OpKey)
    requires i <= |events| < |states|
  {
    exists j :: 0 <= j < i && LosesComplete(states[j], events[j], k)
  }

  ghost predicate WakeLostBefore(states: seq<Sys>, events: seq<Event>, i: nat, k: OpKey)
    requires i <= |events| < |states|
  {
    exists j :: 0 <= j < i && LosesWake(states[j], events[j], k)
  }

  lemma OneMoreStep(states: seq<Sys>, events: seq<Event>, i: nat, k: OpKey)
    requires 0 < i <= |events| < |states|
    ensures CompleteLostBefore(states, events, i, k) <==>
              CompleteLostBefore(states, events, i - 1, k) || LosesComplete(states[i - 1], events[i - 1], k)
    ensures WakeLostBefore(states, events, i, k) <==>
              WakeLostBefore(states, events, i - 1, k) || LosesWake(states[i - 1], events[i - 1], k)
  {
    hide LosesComplete, LosesWake;
  }

  lemma {:induction false} LossesOfOne(states: seq<Sys>, events: seq<Event>, i: nat, k: OpKey)
    requires IsRun(states, events) && i < |states| && k in states[i].ones
    ensures states[i].ones[k].abandoned.Some? <==> CompleteLostBefore(states, events, i, k)
    ensures states[i].ones[k].unwoken <==> WakeLostBefore(states, events, i, k)
  {
    hide KeyOk, Step, Enabled, LosesComplete, LosesWake;
    if i > 0 {
      if k in states[i - 1].ones {
        LossesOfOne(states, events, i - 1, k);
        OkAlong(states, events, i - 1, k);
        StepLosesOne(states[i - 1], events[i - 1], k);
        OneMoreStep(states, events, i, k);
        hide CompleteLostBefore, WakeLostBefore;
      } else {
        NewOperationLostNothing(states, events, i, k);
      }
    }
  }

  /** A detached operation whose completion arrived misses its `complete` for good if and only if
      a turn failed while holding it: the ring refused the cancel of a stream that overflowed in
      that turn, or the read that re-arms the wakeup. */
  lemma CompleteLostIff(states: seq<Sys>, events: seq<Event>, i: nat, k: OpKey)
    requires IsRun(states, events) && i < |states| && k in states[i].ones
    ensures states[i].ones[k].abandoned.Some? <==> exists j :: 0 <= j < i && LosesComplete(states[j], events[j], k)
  {
    hide IsRun, LosesComplete;
    LossesOfOne(states, events, i, k);
  }

  lemma NewOperationLostNothing(states: seq<Sys>, events: seq<Event>, i: nat, k: OpKey)
    requires IsRun(states, events) && 0 < i < |states| && k in states[i].ones && k !in states[i - 1].ones
    ensures !states[i].ones[k].abandoned.Some? && !states[i].ones[k].unwoken
    ensures forall j | 0 <= j < i :: !LosesComplete(states[j], events[j], k) && !LosesWake(states[j], events[j], k)
  {
    StepKeepsKnown(states[i - 1], events[i - 1], k);
    assert !Known(states[i - 1], k);
    forall j | 0 <= j < i ensures !LosesComplete(states[j], events[j], k) && !LosesWake(states[j], events[j], k) {
      UnknownBefore(states, events, j, i - 1, k);
      OkAlong(states, events, j, k);
      if LosesComplete(states[j], events[j], k) || LosesWake(states[j], events[j], k) {
        LosesNeedsKnown(states[j], events[j], k);
      }
    }
  }

  /** The wake of a oneshot operation is lost if and only if a turn failed while holding it. So a
      task whose last poll was pending is remembered by the slot, or after the completion its wake
      is on its way, or has been run, or such a turn has failed. */
  lemma WakeLostIff(states: seq<Sys>, events: seq<Event>, i: nat, k: OpKey)
    requires IsRun(states, events) && i < |states| && k in states[i].ones
    ensures var l := states[i].ones[k];
            && (l.unwoken <==> exists j :: 0 <= j < i && LosesWake(states[j], events[j], k))
            && (One.Observed(l) && l.lastPoll.Some? ==>
                  if l.cqe.None? then One.SlotWaker(l) == l.lastPoll
                  else l.wake == l.lastPoll || l.woken == l.lastPoll || l.unwoken)
  {
    hide IsRun, LosesWake;
    LossesOfOne(states, events, i, k);
    OkAlong(states, events, i, k);
  }

  // ----- streams -----

  /** The stream is polled again, or dropped. */
  predicate Repolled(e: Event, k: OpKey) { e.StreamStep? && e.key == k }

  lemma EndLosesMany(s: Sys, e: Event, k: OpKey)
    requires KeyOk(s, k) && e.TurnEnd? && s.frames != [] && k in s.manys
    ensures k in DoEnd(s, e).manys
    ensures var l, t := s.manys[k], DoEnd(s, e).manys[k]; t.unwoken <==> l.unwoken || LosesWake(s, e, k)
  {
    hide KeyOk, TurnFails, Backend.Own, AbandonOne, AbandonMany, DoEnd;
    Apart(s, k);
    TopAction(s, k);
    EndTouches(s, e, k);
    AbandonedMany(s.manys[k]);
  }

  lemma StreamStepLoses(l: Many.Life, e: Many.Event)
    requires Many.Ok(l) && Many.Enabled(l, e)
    ensures e.Arrive? || e.RunWake? ==> Many.Step(l, e).unwoken == l.unwoken
    ensures e.Next? || e.Drop? ==> !Many.Step(l, e).unwoken
  {
    hide Many.Push, Many.Poll, Many.Remove, Many.Supply, Many.Balance, Many.ResultsOk;
    if e.Next? && l.phase.Streaming? {
      match Many.Poll(l.slot.value, e.waker) { case Parked(_) => case Over(_) => case Popped(_, _) => }
    }
  }

  lemma StreamStepAtATime(s: Sys, e: Event, k: OpKey) returns (step: Option<Many.Event>)
    requires Enabled(s, e) && k in s.manys && k !in s.ones && !e.TurnEnd?
    ensures k in Step(s, e).manys
    ensures step.None? ==> !Repolled(e, k) && Step(s, e).manys[k] == s.manys[k]
    ensures step.Some? ==>
              && Many.Enabled(s.manys[k], step.value)
              && Step(s, e).manys[k] == Many.Step(s.manys[k], step.value)
              && (if Repolled(e, k) then step.value.Next? || step.value.Drop?
                  else step.value.Arrive? || step.value.RunWake?)
  {
    hide One.StepIn, Many.Step, AsTurn, Held;
    step := None;
    match e
    case StreamStep(j, event) =>
      if j == k {
        step := Some(event);
      }
    case Entry(cqe) =>
      if Names(cqe, k) {
        step := Some(Many.Arrive(cqe.content, cqe.more));
      }
    case RunDeferred(j) =>
      if j == k {
        step := Some(Many.RunWake);
      }
    case TaskStep(_) =>
    case CancelPushed(_) =>
    case OpenStream(_, _, _) =>
    case TurnBegin =>
  }

  lemma StepLosesMany(s: Sys, e: Event, k: OpKey)
    requires KeyOk(s, k) && Enabled(s, e) && k in s.manys
    ensures k in Step(s, e).manys
    ensures Step(s, e).manys[k].unwoken <==> (s.manys[k].unwoken && !Repolled(e, k)) || LosesWake(s, e, k)
  {
    if e.TurnEnd? {
      EndLosesMany(s, e, k);
    } else {
      assert k !in s.ones && Many.Ok(s.manys[k]);
      hide One.StepIn, Many.Step, KeyOk, Held, AsTurn, Step, Enabled;
      var step := StreamStepAtATime(s, e, k);
      if step.Some? {
        StreamStepLoses(s.manys[k], step.value);
      }
    }
  }

  /** A turn failed while holding the stream's wake, and the stream was not polled since. */
  ghost predicate LostSincePoll(states: seq<Sys>, events: seq<Event>, i: nat, k: OpKey)
    requires i <= |events| < |states|
  {
    exists j :: 0 <= j < i && LosesWake(states[j], events[j], k) && QuietSince(events, j, i, k)
  }

  predicate QuietSince(events: seq<Event>, j: nat, i: nat, k: OpKey)
    requires i <= |events|
  {
    forall m | j < m < i :: !Repolled(events[m], k)
  }

  lemma OneMoreTurn(states: seq<Sys>, events: seq<Event>, i: nat, k: OpKey)
    requires 0 < i <= |events| < |states|
    ensures LostSincePoll(states, events, i, k) <==>
              || (LostSincePoll(states, events, i - 1, k) && !Repolled(events[i - 1], k))
              || LosesWake(states[i - 1], events[i - 1], k)
  {
    hide LosesWake;
    if LosesWake(states[i - 1], events[i - 1], k) {
      assert QuietSince(events, i - 1, i, k);
    }
    if LostSincePoll(states, events, i - 1, k) && !Repolled(events[i - 1], k) {
      var j :| 0 <= j < i - 1 && LosesWake(states[j], events[j], k) && QuietSince(events, j, i - 1, k);
      assert QuietSince(events, j, i, k);
    }
    if LostSincePoll(states, events, i, k) {
      var j :| 0 <= j < i && LosesWake(states[j], events[j], k) && QuietSince(events, j, i, k);
      if j < i - 1 {
        assert QuietSince(events, j, i - 1, k);
      }
    }
  }

  lemma NewStreamLostNothing(states: seq<Sys>, events: seq<Event>, i: nat, k: OpKey)
    requires IsRun(states, events) && 0 < i < |states| && k in states[i].manys && k !in states[i - 1].manys
    ensures !states[i].manys[k].unwoken
    ensures forall j | 0 <= j < i :: !LosesWake(states[j], events[j], k)
  {
    StepKeepsKnown(states[i - 1], events[i - 1], k);
    assert !Known(states[i - 1], k);
    forall j | 0 <= j < i ensures !LosesWake(states[j], events[j], k) {
      UnknownBefore(states, events, j, i - 1, k);
      OkAlong(states, events, j, k);
      if LosesWake(states[j], events[j], k) {
        LosesNeedsKnown(states[j], events[j], k);
      }
    }
  }

  /** A parked stream is left without a waker and without a wake if and only if a turn failed while
      holding its wake and the stream was not polled since; in every other case a task that has
      something to see is about to be woken or has been. */
  lemma {:induction false} StreamWakeLostIff(states: seq<Sys>, events: seq<Event>, i: nat, k: OpKey)
    requires IsRun(states, events) && i < |states| && k in states[i].manys
    ensures states[i].manys[k].unwoken <==> LostSincePoll(states, events, i, k)
  {
    hide KeyOk, Step, Enabled, LosesComplete, LosesWake;
    if i > 0 {
      if k in states[i - 1].manys {
        StreamWakeLostIff(states, events, i - 1, k);
        OkAlong(states, events, i - 1, k);
        StepLosesMany(states[i - 1], events[i - 1], k);
        OneMoreTurn(states, events, i, k);
        hide LostSincePoll;
      } else {
        NewStreamLostNothing(states, events, i, k);
      }
    }
  }

  /** What a parked stream can count on: it is remembered by its slot, or its wake is deferred, or
      it has been woken, unless such a turn failed; and with something to see, or at the end of the
      request, it is not merely remembered. */
  lemma ParkedStreamIsServed(states: seq<Sys>, events: seq<Event>, i: nat, k: OpKey)
    requires IsRun(states, events) && i < |states| && k in states[i].manys && states[i].manys[k].parked.Some?
    requires !LostSincePoll(states, events, i, k)
    ensures var l := states[i].manys[k];
            && (Many.Remembered(l) == l.parked || l.wake == l.parked || l.woken)
            && (Many.Pending(l) != [] || !l.armed ==> l.wake == l.parked || l.woken)
  {
    OkAlong(states, events, i, k);
    StreamWakeLostIff(states, events, i, k);
    hide IsRun, LostSincePoll, Many.QueueOk, Many.ResultsOk, Many.Supply, Many.Balance;
  }

  // ----- a turn that ends -----

  lemma EndDecidesOne(s: Sys, e: Event, a: Backend.Action)
    requires KeyOk(s, a.key) && e.TurnEnd? && s.frames != [] && a in Top(s).deferred && a.key in s.ones
    ensures TurnFails(s, e) <==> !Matches(DoEnd(s, e), a)
  {
    hide KeyOk, TurnFails, Backend.Own, AbandonOne, AbandonMany, DoEnd;
    Apart(s, a.key);
    TopAction(s, a.key);
    EndTouches(s, e, a.key);
    AbandonedOne(s.ones[a.key], a.key);
  }

  lemma EndDecidesMany(s: Sys, e: Event, a: Backend.Action)
    requires KeyOk(s, a.key) && e.TurnEnd? && s.frames != [] && a in Top(s).deferred && a.key in s.manys
    ensures TurnFails(s, e) <==> !Matches(DoEnd(s, e), a)
  {
    hide KeyOk, TurnFails, Backend.Own, AbandonOne, AbandonMany, DoEnd;
    Apart(s, a.key);
    TopAction(s, a.key);
    EndTouches(s, e, a.key);
    AbandonedMany(s.manys[a.key]);
  }

  lemma HandedOut(s: Sys, e: Event, a: Backend.Action)
    requires KeyOk(s, a.key) && e.TurnEnd? && s.frames != [] && a in Top(s).deferred && !TurnFails(s, e)
    ensures Enabled(DoEnd(s, e), RunDeferred(a.key))
  {
    TopAction(s, a.key);
    TopHolds(s, a.key);
    hide Many.Ok, One.LifeOk, TurnFails, Backend.Own, Flat;
  }

  /** The end of a turn decides about everything it holds: if it fails the operation has lost it,
      otherwise it is as it was and can be run. */
  lemma TurnDecides(states: seq<Sys>, events: seq<Event>, i: nat, a: Backend.Action)
    requires IsRun(states, events) && i < |events| && events[i].TurnEnd? && a in Top(states[i]).deferred
    ensures TurnFails(states[i], events[i]) <==> !Matches(states[i + 1], a)
    ensures !TurnFails(states[i], events[i]) ==> Enabled(states[i + 1], RunDeferred(a.key))
  {
    var s, e, k := states[i], events[i], a.key;
    OkAlong(states, events, i, k);
    TopAction(s, k);
    assert Known(s, k);
    assert states[i + 1] == DoEnd(s, e);
    hide IsRun, KeyOk, DoEnd, TurnFails, Matches, Enabled;
    if k in s.ones {
      EndDecidesOne(s, e, a);
    } else {
      EndDecidesMany(s, e, a);
    }
    if !TurnFails(s, e) {
      HandedOut(s, e, a);
    }
  }

  // ----- the turn is the backend's -----

  lemma EntryAt(s: Sys, e: Backend.RawCqe, k: OpKey)
    requires Enabled(s, Entry(e))
    ensures SlotOf(DoEntry(s, e), k) == Backend.At(Backend.DispatchOne(AsTurn(s, Top(s)), e, false).ops, k)
  {
    hide Backend.DispatchOne, Table, One.Complete, Many.Push;
    Backend.DispatchOneAt(AsTurn(s, Top(s)), e, false, k);
    TableAt(s, k);
    if Names(e, k) {
      if k in s.ones {} else if k in s.manys {}
    }
  }

  /** An entry does to the table what the backend's dispatch loop does, and the turn defers, cancels
      and re-arms what that does. */
  lemma EntryIsDispatchOne(s: Sys, e: Backend.RawCqe)
    requires Enabled(s, Entry(e))
    ensures var t, u := DoEntry(s, e), Backend.DispatchOne(AsTurn(s, Top(s)), e, false);
            && Table(t) == u.ops
            && Top(t) == Frame(u.deferred, u.cancels, u.rearm)
  {
    var t, u := DoEntry(s, e), Backend.DispatchOne(AsTurn(s, Top(s)), e, false);
    hide Backend.DispatchOne, Deliver;
    forall k ensures Backend.At(Table(t), k) == Backend.At(u.ops, k) {
      TableAt(t, k);
      EntryAt(s, e, k);
    }
    hide Table, DoEntry;
    SameTable(Table(t), u.ops);
  }

  /** What an entry discards of a stream's completions is what the backend gives to its cleanup. */
  lemma EntryDiscards(s: Sys, e: Backend.RawCqe, k: OpKey)
    requires Enabled(s, Entry(e)) && Names(e, k) && k in s.manys && k !in s.ones
    ensures DoEntry(s, e).manys[k].discarded ==
              s.manys[k].discarded + Backend.DispatchOne(AsTurn(s, Top(s)), e, false).discarded
  {
    TableAt(s, k);
    hide Table;
    var l := s.manys[k];
    if l.slot.None? {
      assert l.discarded + [] == l.discarded;
    } else {
      assert Backend.At(Table(s), k) == Some(Backend.Multishot(l.slot.value));
      var p := Many.Push(l.slot.value, Many.Cqe(e.content), e.more);
      assert [] + p.discarded == p.discarded;
    }
  }

  lemma SameTable(a: Backend.Ops, b: Backend.Ops)
    requires forall k :: Backend.At(a, k) == Backend.At(b, k)
    ensures a == b
  {
    forall k ensures (k in a <==> k in b) && (k in a && k in b ==> a[k] == b[k]) {
      assert Backend.At(a, k) == Backend.At(b, k);
    }
  }

  // ----- runs that lose something -----

  ghost function Last(states: seq<Sys>): Sys
    requires states != []
  {
    states[|states| - 1]
  }

  lemma Extend(states: seq<Sys>, events: seq<Event>, e: Event) returns (longer: seq<Sys>, more: seq<Event>)
    requires IsRun(states, events) && Enabled(Last(states), e)
    ensures IsRun(longer, more) && Last(longer) == Step(Last(states), e) && |more| == |events| + 1
  {
    hide Enabled, Step;
    longer, more := states + [Step(Last(states), e)], events + [e];
  }

  /** The completion queue holds one completion and the wakeup's. */
  function Completion(k: OpKey, c: nat, more: bool): Backend.RawCqe { Backend.RawCqe(OpTables.Raw(k), c, more) }

  const WAKEUP := Backend.RawCqe(OpTables.WAKE_RAW, 0, false)

  /** A turn that begins, reads a completion, and holds what the slot hands on. */
  lemma FirstEntry(s: Sys, k: OpKey, c: nat, more: bool) returns (s1: Sys, s2: Sys)
    requires s.frames == [] && OpTables.Representable(k) && Deliverable(s, Completion(k, c, more))
    ensures s1 == s.(frames := [Frame([], [], false)]) && Enabled(s1, Entry(Completion(k, c, more)))
    ensures s2 == DoEntry(s1, Completion(k, c, more)) && |s2.frames| == 1
    ensures s2.frames[0].deferred == Backend.SlotActions(SlotOf(s, k), k, Completion(k, c, more))
    ensures OpTables.Decode(Completion(k, c, more).userData) == Some(OpTables.Operation(k))
  {
    OpTables.RawRoundTrip(k);
    var e := Completion(k, c, more);
    s1 := s.(frames := [Frame([], [], false)]);
    s2 := DoEntry(s1, e);
    Backend.DispatchOneExtends(AsTurn(s1, Top(s1)), e, false);
    TableAt(s1, k);
    hide Table, Backend.DispatchOne, Backend.SlotActions;
  }

  /** … then reads the wakeup's, and fails because the ring refuses to read that again. */
  lemma SecondEntry(s: Sys)
    requires |s.frames| == 1
    ensures Enabled(s, Entry(WAKEUP))
    ensures DoEntry(s, WAKEUP) == s.(frames := [s.frames[0].(rearm := true)])
    ensures TurnFails(DoEntry(s, WAKEUP), TurnEnd({}, false))
  {
    hide Table;
    assert s.frames[..0] == [];
  }

  lemma ClosingTurn(s: Sys, k: OpKey, a: Backend.Action)
    requires |s.frames| == 1 && s.frames[0].deferred == [a] && a.key == k && TurnFails(s, TurnEnd({}, false))
    ensures var t := DoEnd(s, TurnEnd({}, false));
            && t.frames == []
            && (k in s.ones ==> k in t.ones && t.ones[k] == AbandonOne(s.ones[k], k))
            && (k in s.manys ==> k in t.manys && t.manys[k] == AbandonMany(s.manys[k]))
  {
    hide TurnFails, One.StepIn, Many.Step;
    Backend.OwnOf(k, s.frames[0].deferred, k);
  }

  /** Four steps that take one action from an operation and lose it. */
  lemma LosingSteps(s: Sys, k: OpKey, c: nat, more: bool, a: Backend.Action) returns (s1: Sys, s2: Sys, s3: Sys, s4: Sys)
    requires s.frames == [] && OpTables.Representable(k) && Deliverable(s, Completion(k, c, more))
    requires OpTables.Decode(Completion(k, c, more).userData) == Some(OpTables.Operation(k))
    requires Backend.SlotActions(SlotOf(s, k), k, Completion(k, c, more)) == [a] && a.key == k
    ensures Enabled(s, TurnBegin) && s1 == Step(s, TurnBegin)
    ensures Enabled(s1, Entry(Completion(k, c, more))) && s2 == Step(s1, Entry(Completion(k, c, more)))
    ensures Enabled(s2, Entry(WAKEUP)) && s3 == Step(s2, Entry(WAKEUP))
    ensures Enabled(s3, TurnEnd({}, false)) && s4 == Step(s3, TurnEnd({}, false)) && s4.frames == []
    ensures var d := Deliver(s, k, Completion(k, c, more));
            && (k in d.ones ==> k in s4.ones && s4.ones[k] == AbandonOne(d.ones[k], k))
            && (k in d.manys ==> k in s4.manys && s4.manys[k] == AbandonMany(d.manys[k]))
  {
    hide TurnFails, Table, Backend.DispatchOne, Backend.SlotActions, SlotOf, DoEnd, Deliver, AbandonOne, AbandonMany;
    var d := Deliver(s, k, Completion(k, c, more));
    s1, s2 := FirstEntry(s, k, c, more);
    assert s2.ones == d.ones && s2.manys == d.manys by { DeliverIgnoresFrames(s, s1, k, Completion(k, c, more)); }
    hide DoEntry;
    SecondEntry(s2);
    s3 := DoEntry(s2, WAKEUP);
    ClosingTurn(s3, k, a);
    s4 := DoEnd(s3, TurnEnd({}, false));
  }

  /** Any run with no turn open can be followed by them. */
  lemma LosingTurn(states: seq<Sys>, events: seq<Event>, k: OpKey, c: nat, more: bool, a: Backend.Action)
    returns (longer: seq<Sys>, after: seq<Event>)
    requires IsRun(states, events) && Last(states).frames == []
    requires OpTables.Representable(k) && Deliverable(Last(states), Completion(k, c, more))
    requires OpTables.Decode(Completion(k, c, more).userData) == Some(OpTables.Operation(k))
    requires Backend.SlotActions(SlotOf(Last(states), k), k, Completion(k, c, more)) == [a] && a.key == k
    ensures IsRun(longer, after) && |after| == |events| + 4 && Last(longer).frames == []
    ensures var d := Deliver(Last(states), k, Completion(k, c, more));
            && (k in d.ones ==> k in Last(longer).ones && Last(longer).ones[k] == AbandonOne(d.ones[k], k))
            && (k in d.manys ==> k in Last(longer).manys && Last(longer).manys[k] == AbandonMany(d.manys[k]))
  {
    hide Step, Enabled, Deliver, AbandonOne, AbandonMany, Backend.SlotActions, SlotOf;
    var s1, s2, s3, s4 := LosingSteps(Last(states), k, c, more, a);
    longer, after := Extend(states, events, TurnBegin);
    longer, after := Extend(longer, after, Entry(Completion(k, c, more)));
    longer, after := Extend(longer, after, Entry(WAKEUP));
    longer, after := Extend(longer, after, TurnEnd({}, false));
  }

  lemma DeliverIgnoresFrames(s: Sys, t: Sys, k: OpKey, e: Backend.RawCqe)
    requires t == s.(frames := t.frames) && Deliverable(s, e) && OpTables.Decode(e.userData) == Some(OpTables.Operation(k))
    ensures Deliver(t, k, e).ones == Deliver(s, k, e).ones && Deliver(t, k, e).manys == Deliver(s, k, e).manys
  {
  }

  /** A detached operation completes in a turn that also sees the wakeup, and the ring refuses to
      read it again: the slot is gone and nothing will ever run `complete`. */
  lemma RefusedRearmLosesAComplete(p: nat, c: nat) returns (states: seq<Sys>, events: seq<Event>, k: OpKey)
    ensures IsRun(states, events) && |events| == 8
    ensures var s := Last(states);
            && s.frames == [] && k in s.ones && s.ones[k].cqe == Some(c) && s.ones[k].slot.None?
            && s.ones[k].abandoned == Some((p, c)) && s.ones[k].completed.None? && s.ones[k].cleanup.None?
  {
    k := OpTables.OpKey(0, 1);
    OpTables.RawRoundTrip(k);
    var l;
    states, events, l := DetachedRun(k, p);
    hide IsRun;
    states, events := LosingTurn(states, events, k, c, false, Backend.RunComplete(k, p, c));
  }

  lemma DetachedRun(k: OpKey, p: nat) returns (states: seq<Sys>, events: seq<Event>, l: One.Life)
    ensures IsRun(states, events) && |events| == 4
    ensures Last(states) == Sys(map[k := l], map[], [])
    ensures l.inKernel && l.cqe.None? && l.slot == Some(One.Canceling(One.DetachedWith(p), One.NeedPush))
    ensures l.abandoned.None? && l.completed.None? && l.cleanup.None? && l.wake.None?
  {
    var l1 := One.Born(p);
    var l2 := One.StepIn(l1, One.SubmitAccepted(k));
    var l3 := One.StepIn(l2, One.CancelOp(k));
    l := One.StepIn(l3, One.DropFuture(k));
    assert l3.slot == Some(One.Canceling(One.Unobserved, One.NeedPush)) && l3.future == One.Alive(Some(p));
    hide One.StepIn, One.AfterDrop, One.RequestCancel;
    states := [INIT, Sys(map[k := l1], map[], []), Sys(map[k := l2], map[], []), Sys(map[k := l3], map[], []),
               Sys(map[k := l], map[], [])];
    events := [TaskStep(One.Submit(k, p)), TaskStep(One.SubmitAccepted(k)), TaskStep(One.CancelOp(k)),
               TaskStep(One.DropFuture(k))];
    assert states[1] == Step(states[0], events[0]) && states[2] == Step(states[1], events[1]);
    assert states[3] == Step(states[2], events[2]) && states[4] == Step(states[3], events[3]);
    hide Step, Enabled;
  }

  /** A stream is parked when an item arrives in such a turn: the item is staged, the slot has
      forgotten the task, and nothing will wake it. */
  lemma RefusedRearmStrandsAStream(data: nat, w: nat, c: nat) returns (states: seq<Sys>, events: seq<Event>, k: OpKey)
    ensures IsRun(states, events) && |events| == 6
    ensures k in Last(states).manys && Last(states).frames == []
    ensures var l := Last(states).manys[k];
            && l.parked == Some(w) && Many.Pending(l) == [Many.Cqe(c)]
            && Many.Remembered(l).None? && l.wake.None? && !l.woken && l.unwoken
  {
    k := OpTables.OpKey(0, 1);
    OpTables.RawRoundTrip(k);
    var l;
    states, events, l := ParkedRun(k, data, w);
    hide IsRun;
    ArrivalAtParked(l, c);
    states, events := LosingTurn(states, events, k, c, true, Backend.WakeTask(k, w));
  }

  lemma ArrivalAtParked(l: Many.Life, c: nat)
    requires l.slot.Some? && l.slot.value.Active? && l.slot.value.pending == [] && l.slot.value.limit.None? && l.armed
    ensures var m := Many.Step(l, Many.Arrive(c, true));
            && m.slot == Some(Many.Active(None, [Many.Cqe(c)], None))
            && m.wake == (if l.slot.value.waker.Some? then l.slot.value.waker else l.wake)
            && m.parked == l.parked && m.woken == l.woken && m.unwoken == l.unwoken
  {
    assert [] + [Many.Cqe(c)] == [Many.Cqe(c)];
  }

  lemma ParkedRun(k: OpKey, data: nat, w: nat) returns (states: seq<Sys>, events: seq<Event>, l: Many.Life)
    ensures IsRun(states, events) && |events| == 2
    ensures Last(states) == Sys(map[], map[k := l], [])
    ensures l.slot == Some(Many.Active(Some(w), [], None)) && l.parked == Some(w) && l.armed
    ensures l.wake.None? && !l.woken && !l.unwoken
  {
    var l1 := Many.Step(Many.Init(data, None), Many.Start(true));
    l := Many.Step(l1, Many.Next(w, false));
    assert l.slot == Some(Many.Active(Some(w), [], None));
    states := [INIT, Sys(map[], map[k := l1], []), Sys(map[], map[k := l], [])];
    events := [OpenStream(k, data, None), StreamStep(k, Many.Next(w, false))];
    hide Many.Step;
    assert states[1] == Step(states[0], events[0]) && states[2] == Step(states[1], events[1]);
    hide Step, Enabled;
  }
}
