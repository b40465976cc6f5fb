/** The io_uring backend: the operation table holding oneshot and multishot states, and the calls
    the driver makes on it. Whether the ring takes an entry is the environment's choice, given to
    each call; the calls are proved against functions on the map the table stands for. */
module UringBackend {
  import opened Basics
  import OpTables
  import One = UringOneshot
  import Many = UringMultishot

  type OpKey = OpTables.OpKey
  type Payload = nat
  type Waker = nat

  datatype State = Oneshot(one: One.Oneshot) | Multishot(many: Many.Multishot)

  type Ops = map<OpKey, State>

  /** A completion queue entry: the word it was submitted with, what it says, and whether the
      request stays armed. */
  datatype RawCqe = RawCqe(userData: nat, content: nat, more: bool)

  /** Work deferred until the backend is released, and the operation it is for. */
  datatype Action =
    | WakeTask(key: OpKey, waker: Waker)
    | RunComplete(key: OpKey, payload: Payload, content: nat)

  // ----- one turn of the completion queue, as a function -----

  datatype Turn = Turn(ops: Ops, deferred: seq<Action>, cancels: seq<OpKey>, discarded: seq<Many.Item>, rearm: bool)

  function Wakes(k: OpKey, w: Option<Waker>): seq<Action> { if w.Some? then [WakeTask(k, w.value)] else [] }

  function Cleanups(k: OpKey, p: Option<Payload>, content: nat): seq<Action> {
    if p.Some? then [RunComplete(k, p.value, content)] else []
  }

  function Apply(t: Turn, k: OpKey, e: RawCqe): Turn
    requires k in t.ops
  {
    match t.ops[k]
    case Oneshot(o) =>
      var f := One.Complete(o, e.content);
      t.(ops := if f.remove then t.ops - {k} else t.ops[k := Oneshot(f.state)],
         deferred := t.deferred + Wakes(k, f.wake) + Cleanups(k, f.cleanup, e.content))
    case Multishot(m) =>
      var f := Many.Push(m, Many.Cqe(e.content), e.more);
      t.(ops := if f.remove then t.ops - {k} else t.ops[k := Multishot(f.state)],
         deferred := t.deferred + Wakes(k, f.wake),
         cancels := if f.cancel then t.cancels + [k] else t.cancels,
         discarded := t.discarded + f.discarded)
  }

  /** A malformed word, a cancel result and a key that finds nothing are skipped. */
  function DispatchOne(t: Turn, e: RawCqe, shuttingDown: bool): Turn {
    match OpTables.Decode(e.userData)
    case None => t
    case Some(Wake) => t.(rearm := !shuttingDown)
    case Some(Cancel) => t
    case Some(WakeCancel) => t
    case Some(Operation(k)) => if k in t.ops then Apply(t, k, e) else t
  }

  function DispatchAll(t: Turn, queue: seq<RawCqe>, shuttingDown: bool): Turn {
    if queue == [] then t
    else DispatchOne(DispatchAll(t, queue[..|queue| - 1], shuttingDown), queue[|queue| - 1], shuttingDown)
  }

  /** A turn fails when the ring refuses the cancel of a stream that overflowed in it, or the read
      that re-arms the wakeup; what it deferred is then dropped. */
  ghost predicate Fails(t: Turn, accepts: set<OpKey>, rearmAccepted: bool) {
    (exists k :: k in t.cancels && k !in accepts) || (t.rearm && !rearmAccepted)
  }

  predicate NeedsPush(s: State) { s.Oneshot? && s.one.Canceling? && s.one.sqe.NeedPush? }

  /** Every cancel that still has to reach the kernel is pushed again. */
  function Retried(ops: Ops, accepts: set<OpKey>): Ops {
    map k | k in ops :: if NeedsPush(ops[k]) && k in accepts then Oneshot(One.MarkInFlight(ops[k].one)) else ops[k]
  }

  // ----- the turn, one operation at a time -----

  predicate Names(e: RawCqe, k: OpKey) { OpTables.Decode(e.userData) == Some(OpTables.Operation(k)) }

  function Naming(queue: seq<RawCqe>, k: OpKey): seq<RawCqe> {
    if queue == [] then []
    else Naming(queue[..|queue| - 1], k) + if Names(queue[|queue| - 1], k) then [queue[|queue| - 1]] else []
  }

  function At(ops: Ops, k: OpKey): Option<State> { if k in ops then Some(ops[k]) else None }

  /** The state of one slot after one completion. */
  function SlotAfter(s: Option<State>, e: RawCqe): Option<State> {
    match s
    case None => None
    case Some(Oneshot(o)) =>
      var f := One.Complete(o, e.content);
      if f.remove then None else Some(Oneshot(f.state))
    case Some(Multishot(m)) =>
      var f := Many.Push(m, Many.Cqe(e.content), e.more);
      if f.remove then None else Some(Multishot(f.state))
  }

  function SlotAfterAll(s: Option<State>, queue: seq<RawCqe>): Option<State> {
    if queue == [] then s else SlotAfter(SlotAfterAll(s, queue[..|queue| - 1]), queue[|queue| - 1])
  }

  /** A turn treats each operation by its own completions, in order, and is blind to the rest. */
  lemma {:induction false} OperationsDoNotInterfere(t: Turn, queue: seq<RawCqe>, shuttingDown: bool, k: OpKey)
    ensures At(DispatchAll(t, queue, shuttingDown).ops, k) == SlotAfterAll(At(t.ops, k), Naming(queue, k))
  {
    if queue != [] {
      var init, e := queue[..|queue| - 1], queue[|queue| - 1];
      OperationsDoNotInterfere(t, init, shuttingDown, k);
      var u := DispatchAll(t, init, shuttingDown);
      DispatchOneAt(u, e, shuttingDown, k);
      if Names(e, k) {
        assert (Naming(init, k) + [e])[..|Naming(init, k)|] == Naming(init, k);
      } else {
        assert Naming(queue, k) == Naming(init, k);
      }
    }
  }

  lemma DispatchOneAt(t: Turn, e: RawCqe, shuttingDown: bool, k: OpKey)
    ensures At(DispatchOne(t, e, shuttingDown).ops, k) == if Names(e, k) then SlotAfter(At(t.ops, k), e) else At(t.ops, k)
  {
  }

  /** A cancelled or finished operation stays so: no completion turns it back into a running
      one. */
  predicate Ending(s: State) { s.Oneshot? && (s.one.Canceling? || s.one.Completed?) }

  lemma {:induction false} EndingStaysEnding(s: Option<State>, queue: seq<RawCqe>)
    requires s.Some? ==> Ending(s.value)
    ensures SlotAfterAll(s, queue).Some? ==> Ending(SlotAfterAll(s, queue).value)
  {
    if queue != [] {
      EndingStaysEnding(s, queue[..|queue| - 1]);
    }
  }

  // ----- what a turn hands out -----

  /** The actions for one operation, in order. */
  function Own(actions: seq<Action>, k: OpKey): seq<Action> {
    if actions == [] then []
    else
      var last := actions[|actions| - 1];
      Own(actions[..|actions| - 1], k) + if last.key == k then [last] else []
  }

  lemma {:induction false} OwnConcat(a: seq<Action>, b: seq<Action>, k: OpKey)
    ensures Own(a + b, k) == Own(a, k) + Own(b, k)
  {
    if b == [] {
      assert a + b == a;
    } else {
      OwnConcat(a, b[..|b| - 1], k);
      assert (a + b)[..|a + b| - 1] == a + b[..|b| - 1];
    }
  }

  lemma {:induction false} OwnMember(actions: seq<Action>, k: OpKey, x: Action)
    ensures x in Own(actions, k) <==> x in actions && x.key == k
  {
    if actions != [] {
      OwnMember(actions[..|actions| - 1], k, x);
      assert actions == actions[..|actions| - 1] + [actions[|actions| - 1]];
    }
  }

  /** What one completion defers for the slot it names. */
  function SlotActions(s: Option<State>, k: OpKey, e: RawCqe): seq<Action> {
    match s
    case None => []
    case Some(Oneshot(o)) =>
      var f := One.Complete(o, e.content);
      Wakes(k, f.wake) + Cleanups(k, f.cleanup, e.content)
    case Some(Multishot(m)) => Wakes(k, Many.Push(m, Many.Cqe(e.content), e.more).wake)
  }

  function SlotActionsAll(s: Option<State>, k: OpKey, queue: seq<RawCqe>): seq<Action> {
    if queue == [] then []
    else
      var front := queue[..|queue| - 1];
      SlotActionsAll(s, k, front) + SlotActions(SlotAfterAll(s, front), k, queue[|queue| - 1])
  }

  lemma SlotActionsOwn(s: Option<State>, j: OpKey, e: RawCqe, k: OpKey)
    ensures Own(SlotActions(s, j, e), k) == if j == k then SlotActions(s, j, e) else []
  {
    OwnOf(j, SlotActions(s, j, e), k);
  }

  /** A completion defers, at the end of the list, what the slot it names has to hand on. */
  lemma DispatchOneExtends(t: Turn, e: RawCqe, shuttingDown: bool)
    ensures DispatchOne(t, e, shuttingDown).deferred ==
              t.deferred + match OpTables.Decode(e.userData)
                           case Some(Operation(k)) => SlotActions(At(t.ops, k), k, e)
                           case _ => []
  {
    var decoded := OpTables.Decode(e.userData);
    if decoded.Some? && decoded.value.Operation? && decoded.value.key in t.ops {
      ApplyDefers(t, decoded.value.key, e);
      hide Apply, SlotActions;
    }
  }

  lemma DispatchOneDefers(t: Turn, e: RawCqe, shuttingDown: bool, k: OpKey)
    ensures Own(DispatchOne(t, e, shuttingDown).deferred, k) ==
              Own(t.deferred, k) + if Names(e, k) then SlotActions(At(t.ops, k), k, e) else []
  {
    var decoded := OpTables.Decode(e.userData);
    if decoded.Some? && decoded.value.Operation? && decoded.value.key in t.ops {
      var j := decoded.value.key;
      ApplyDefers(t, j, e);
      hide Apply, SlotActions, Own;
      var more := SlotActions(At(t.ops, j), j, e);
      OwnConcat(t.deferred, more, k);
      OwnOf(j, more, k);
    }
  }

  lemma ApplyDefers(t: Turn, k: OpKey, e: RawCqe)
    requires k in t.ops
    ensures Apply(t, k, e).deferred == t.deferred + SlotActions(Some(t.ops[k]), k, e)
    ensures forall i | 0 <= i < |SlotActions(Some(t.ops[k]), k, e)| :: SlotActions(Some(t.ops[k]), k, e)[i].key == k
  {
  }

  lemma {:induction false} OwnOf(j: OpKey, actions: seq<Action>, k: OpKey)
    requires forall i | 0 <= i < |actions| :: actions[i].key == j
    ensures Own(actions, k) == if j == k then actions else []
  {
    if actions != [] {
      var front, last := actions[..|actions| - 1], actions[|actions| - 1];
      assert forall i | 0 <= i < |front| :: front[i].key == j;
      OwnOf(j, front, k);
      assert Own(actions, k) == Own(front, k) + if last.key == k then [last] else [];
      hide Own;
      assert last.key == j;
      assert actions == front + [last];
    }
  }

  /** What a turn defers for an operation is decided by that operation's own completions. */
  lemma {:induction false} DeferredByOperation(t: Turn, queue: seq<RawCqe>, shuttingDown: bool, k: OpKey)
    ensures Own(DispatchAll(t, queue, shuttingDown).deferred, k) ==
              Own(t.deferred, k) + SlotActionsAll(At(t.ops, k), k, Naming(queue, k))
  {
    if queue != [] {
      var front, e := queue[..|queue| - 1], queue[|queue| - 1];
      DeferredByOperation(t, front, shuttingDown, k);
      OperationsDoNotInterfere(t, front, shuttingDown, k);
      DispatchOneDefers(DispatchAll(t, front, shuttingDown), e, shuttingDown, k);
      if Names(e, k) {
        assert (Naming(front, k) + [e])[..|Naming(front, k)|] == Naming(front, k);
      } else {
        assert Naming(queue, k) == Naming(front, k);
      }
    }
  }

  /** The completion overflows a stream whose request goes on. */
  predicate Overflows(s: Option<State>, e: RawCqe) {
    && s.Some? && s.value.Multishot? && s.value.many.Active? && e.more
    && s.value.many.limit.Some? && |s.value.many.pending| >= s.value.many.limit.value
  }

  lemma DispatchOneCancels(t: Turn, e: RawCqe, shuttingDown: bool, k: OpKey)
    ensures k in DispatchOne(t, e, shuttingDown).cancels <==> k in t.cancels || (Names(e, k) && Overflows(At(t.ops, k), e))
  {
  }

  /** Some completion of the operation, applied after those before it, overflows it. */
  predicate OverflowsIn(s: Option<State>, queue: seq<RawCqe>) {
    queue != [] &&
    (OverflowsIn(s, queue[..|queue| - 1]) || Overflows(SlotAfterAll(s, queue[..|queue| - 1]), queue[|queue| - 1]))
  }

  /** A turn cancels a stream exactly when one of its completions in that turn overflows it. */
  lemma {:induction false} CancelsIffOverflow(t: Turn, queue: seq<RawCqe>, shuttingDown: bool, k: OpKey)
    ensures k in DispatchAll(t, queue, shuttingDown).cancels <==>
              k in t.cancels || OverflowsIn(At(t.ops, k), Naming(queue, k))
  {
    if queue != [] {
      var front, e := queue[..|queue| - 1], queue[|queue| - 1];
      CancelsIffOverflow(t, front, shuttingDown, k);
      OperationsDoNotInterfere(t, front, shuttingDown, k);
      DispatchOneCancels(DispatchAll(t, front, shuttingDown), e, shuttingDown, k);
      hide Overflows, DispatchOne, SlotAfterAll;
      if Names(e, k) {
        assert (Naming(front, k) + [e])[..|Naming(front, k)|] == Naming(front, k);
      } else {
        assert Naming(queue, k) == Naming(front, k);
      }
    }
  }

  predicate IsWakeup(e: RawCqe) { OpTables.Decode(e.userData) == Some(OpTables.Wake) }

  /** The wakeup read has to be armed again exactly when its completion was in the queue, unless the
      backend is shutting down. */
  lemma {:induction false} RearmIff(t: Turn, queue: seq<RawCqe>, shuttingDown: bool)
    ensures DispatchAll(t, queue, shuttingDown).rearm <==>
              if exists i | 0 <= i < |queue| :: IsWakeup(queue[i]) then !shuttingDown else t.rearm
  {
    if queue != [] {
      RearmIff(t, queue[..|queue| - 1], shuttingDown);
      assert queue == queue[..|queue| - 1] + [queue[|queue| - 1]];
    }
  }

  /** The task a slot would wake. */
  function StoredWaker(s: State): Option<Waker> {
    match s
    case Oneshot(o) => One.HeldWaker(o)
    case Multishot(m) => if m.Active? || m.Stopping? then m.waker else None
  }

  function StoredPayload(s: State): Option<Payload> { if s.Oneshot? then One.HeldPayload(s.one) else None }

  /** Of the completions naming an operation the first decides what is deferred; what it took from
      the slot, no later one finds. */
  lemma {:induction false} FirstCompletionDecides(s: State, k: OpKey, queue: seq<RawCqe>)
    requires queue != []
    ensures SlotActionsAll(Some(s), k, queue) ==
              Wakes(k, StoredWaker(s)) + Cleanups(k, StoredPayload(s), queue[0].content)
    ensures var after := SlotAfterAll(Some(s), queue);
            && (StoredPayload(s).Some? ==> after.None?)
            && (after.Some? ==> StoredWaker(after.value).None? && StoredPayload(after.value).None?)
  {
    hide SlotAfter, SlotActions, StoredWaker, StoredPayload, Wakes, Cleanups;
    var front, e := queue[..|queue| - 1], queue[|queue| - 1];
    if front == [] {
      assert SlotActionsAll(Some(s), k, front) == [] && SlotAfterAll(Some(s), front) == Some(s);
      CompletionTakes(s, k, e);
    } else {
      FirstCompletionDecides(s, k, front);
      assert queue[0] == front[0];
      var before := SlotAfterAll(Some(s), front);
      if before.Some? {
        CompletionTakes(before.value, k, e);
        NothingStored(k, e.content);
      } else {
        GoneStaysGone(k, e);
      }
    }
  }

  lemma CompletionTakes(s: State, k: OpKey, e: RawCqe)
    ensures SlotActions(Some(s), k, e) == Wakes(k, StoredWaker(s)) + Cleanups(k, StoredPayload(s), e.content)
    ensures var after := SlotAfter(Some(s), e);
            && (StoredPayload(s).Some? ==> after.None?)
            && (after.Some? ==> StoredWaker(after.value).None? && StoredPayload(after.value).None?)
  {
    if s.Oneshot? {
      match s.one { case Canceling(o, _) => case _ => }
    } else {
      match s.many { case Active(_, _, _) => case _ => }
    }
  }

  lemma NothingStored(k: OpKey, content: nat)
    ensures Wakes(k, None) + Cleanups(k, None, content) == []
  {
  }

  lemma GoneStaysGone(k: OpKey, e: RawCqe)
    ensures SlotAfter(None, e) == None && SlotActions(None, k, e) == []
  {
  }

  /** The slot of a detached operation is freed by its completion whatever happens to the turn,
      and its one `complete` is handed out if and only if the turn does not fail. */
  lemma CompleteHandedOutIff(
    ops: Ops, queue: seq<RawCqe>, shuttingDown: bool, accepts: set<OpKey>, rearmAccepted: bool, k: OpKey)
    requires k in ops && StoredPayload(ops[k]).Some? && Naming(queue, k) != []
    ensures var t := DispatchAll(Turn(ops, [], [], [], false), queue, shuttingDown);
            var action := RunComplete(k, StoredPayload(ops[k]).value, Naming(queue, k)[0].content);
            && k !in t.ops
            && Own(t.deferred, k) == [action]
            && (HandsOut(t, accepts, rearmAccepted, action) <==> !Fails(t, accepts, rearmAccepted))
  {
    var t := DispatchAll(Turn(ops, [], [], [], false), queue, shuttingDown);
    DeferredByOperation(Turn(ops, [], [], [], false), queue, shuttingDown, k);
    OperationsDoNotInterfere(Turn(ops, [], [], [], false), queue, shuttingDown, k);
    FirstCompletionDecides(ops[k], k, Naming(queue, k));
    var action := RunComplete(k, StoredPayload(ops[k]).value, Naming(queue, k)[0].content);
    assert Own(t.deferred, k) == [action];
    OwnMember(t.deferred, k, action);
  }

  /** The task that waits for an operation or a stream is taken out of the slot by the first
      completion, and its one wake is handed out if and only if the turn does not fail. */
  lemma WakeHandedOutIff(
    ops: Ops, queue: seq<RawCqe>, shuttingDown: bool, accepts: set<OpKey>, rearmAccepted: bool, k: OpKey)
    requires k in ops && StoredWaker(ops[k]).Some? && Naming(queue, k) != []
    ensures var t := DispatchAll(Turn(ops, [], [], [], false), queue, shuttingDown);
            var action := WakeTask(k, StoredWaker(ops[k]).value);
            && (k in t.ops ==> StoredWaker(t.ops[k]).None?)
            && Own(t.deferred, k) == [action]
            && (HandsOut(t, accepts, rearmAccepted, action) <==> !Fails(t, accepts, rearmAccepted))
  {
    var t := DispatchAll(Turn(ops, [], [], [], false), queue, shuttingDown);
    DeferredByOperation(Turn(ops, [], [], [], false), queue, shuttingDown, k);
    OperationsDoNotInterfere(Turn(ops, [], [], [], false), queue, shuttingDown, k);
    FirstCompletionDecides(ops[k], k, Naming(queue, k));
    var action := WakeTask(k, StoredWaker(ops[k]).value);
    assert Own(t.deferred, k) == [action];
    OwnMember(t.deferred, k, action);
  }

  /** What a turn returns to the driver. */
  ghost function Returned(t: Turn, accepts: set<OpKey>, rearmAccepted: bool): Option<seq<Action>> {
    if Fails(t, accepts, rearmAccepted) then None else Some(t.deferred)
  }

  ghost predicate HandsOut(t: Turn, accepts: set<OpKey>, rearmAccepted: bool, a: Action) {
    var returned := Returned(t, accepts, rearmAccepted);
    returned.Some? && a in returned.value
  }

  /** A turn that loses a completion: the queue holds the completion of a detached operation and
      one that overflows a stream, and the ring refuses the stream's cancel. */
  lemma FullRingLosesACompletion(p: Payload, c: nat, d: nat) returns (ops: Ops, queue: seq<RawCqe>, k: OpKey)
    ensures k in ops && StoredPayload(ops[k]) == Some(p)
    ensures var t := DispatchAll(Turn(ops, [], [], [], false), queue, false);
            && k !in t.ops
            && RunComplete(k, p, c) in t.deferred
            && !HandsOut(t, {}, true, RunComplete(k, p, c))
  {
    k := OpTables.OpKey(0, 1);
    var stream := OpTables.OpKey(1, 1);
    ops := map[k := Oneshot(One.Detached(p)), stream := Multishot(Many.Active(None, [], Some(0)))];
    queue := [RawCqe(OpTables.Raw(k), c, false), RawCqe(OpTables.Raw(stream), d, true)];
    OpTables.RawRoundTrip(k);
    OpTables.RawRoundTrip(stream);
    var t0 := Turn(ops, [], [], [], false);
    var t1 := DispatchOne(t0, queue[0], false);
    var t2 := DispatchOne(t1, queue[1], false);
    assert queue[..1] == [queue[0]] && queue[..1][..0] == [];
    assert DispatchAll(t0, queue[..1], false) == t1;
    assert DispatchAll(t0, queue, false) == t2;
    assert stream in t2.cancels;
    assert RunComplete(k, p, c) in t2.deferred;
  }

  // ----- cancelling -----

  /** The kernel has the request and has not been told to cancel it. */
  predicate Untold(s: State) {
    match s
    case Oneshot(o) => !o.Completed? && !(o.Canceling? && o.sqe.InFlight?)
    case Multishot(m) => m.Active? || m.Stopping?
  }

  /** A cancel request reaches any live oneshot operation, whether or not the ring takes it now. */
  function CancelRequested(ops: Ops, k: OpKey, pushed: bool): Ops {
    if k in ops && ops[k].Oneshot? then
      var o := One.RequestCancel(ops[k].one).0;
      ops[k := Oneshot(if pushed && One.RequestCancel(ops[k].one).1 then One.MarkInFlight(o) else o)]
    else ops
  }

  /** The operation is ending from then on, and the request has reached the kernel or is owed; its
      task and its payload stay where they are. A finished operation and one whose request is
      already under way are left alone. */
  lemma CancelReaches(ops: Ops, k: OpKey, pushed: bool)
    requires k in ops && ops[k].Oneshot?
    ensures var after := CancelRequested(ops, k, pushed);
            && k in after && Ending(after[k])
            && (NeedsPush(after[k]) <==> Untold(ops[k]) && !pushed)
            && (!ops[k].one.Completed? ==> after[k].one.Canceling?)
            && StoredWaker(after[k]) == StoredWaker(ops[k]) && StoredPayload(after[k]) == StoredPayload(ops[k])
            && (!Untold(ops[k]) ==> after[k] == ops[k])
  {
  }

  lemma CancelTouchesOne(ops: Ops, k: OpKey, pushed: bool)
    ensures CancelRequested(ops, k, pushed).Keys == ops.Keys
    ensures forall j | j in ops && j != k :: CancelRequested(ops, k, pushed)[j] == ops[j]
    ensures CancelRequested(CancelRequested(ops, k, true), k, true) == CancelRequested(ops, k, true)
  {
  }

  /** Retrying leaves no cancel owed that the ring would take, and changes nothing else. */
  lemma RetryReaches(ops: Ops, accepts: set<OpKey>, k: OpKey)
    requires k in ops
    ensures var after := Retried(ops, accepts);
            && k in after
            && (NeedsPush(after[k]) <==> NeedsPush(ops[k]) && k !in accepts)
            && (NeedsPush(ops[k]) ==> after[k].Oneshot? && after[k].one.Canceling?)
            && StoredWaker(after[k]) == StoredWaker(ops[k]) && StoredPayload(after[k]) == StoredPayload(ops[k])
            && (!NeedsPush(ops[k]) ==> after[k] == ops[k])
  {
  }

  // ----- the future -----

  class Op {
    const key: OpKey
    var data: Option<Payload>

    constructor (key: OpKey, data: Payload)
      ensures this.key == key && this.data == Some(data)
    {
      this.key, this.data := key, Some(data);
    }

    method TakeData() returns (d: Option<Payload>)
      modifies this
      ensures d == old(data) && data == None
    {
      d, data := data, None;
    }
  }

  datatype Submitted = Accepted(key: OpKey) | Refused(data: Payload)

  datatype PollOutcome = Pending | Ready(content: nat)

  datatype NextOutcome = Parked | Item(item: Many.Item) | End

  class IoUringBackend {
    const ops: OpTables.OpTable<State>
    var shuttingDown: bool
    var wakeupReadArmed: bool

    ghost function View(): Ops
      reads ops, ops.entries
    {
      ops.View()
    }

    ghost predicate Valid()
      reads ops, ops.entries
    {
      ops.Valid()
    }

    constructor ()
      ensures Valid() && View() == map[] && ops.issued == {} && fresh(ops) && fresh(ops.entries) && !shuttingDown
    {
      ops := new OpTables.OpTable<State>(OpTables.GENERATION_MAX);
      shuttingDown, wakeupReadArmed := false, true;
    }

    /** A refused submission returns the payload and leaves no trace in the table; an accepted one
        has a key that was never issued before. `pushed` says whether the ring took the entry. */
    method SubmitOp(data: Payload, pushed: bool) returns (r: Submitted)
      requires Valid()
      modifies ops, ops.entries
      ensures Valid()
      ensures r.Refused? ==> r.data == data && View() == old(View())
      ensures r.Accepted? ==>
                pushed && !shuttingDown && r.key !in old(ops.issued) && r.key !in old(View())
                && View() == old(View())[r.key := Oneshot(One.Submitted)]
      ensures old(ops.issued) <= ops.issued && (r.Accepted? ==> r.key in ops.issued)
    {
      hide OpTables.OpTable<State>.View, OpTables.OpTable<State>.Valid;
      if shuttingDown {
        return Refused(data);
      }
      var key := ops.Insert(Oneshot(One.Submitted));
      if key.None? {
        return Refused(data);
      }
      if !pushed {
        var _ := ops.Remove(key.value);
        assert old(View())[key.value := Oneshot(One.Submitted)] - {key.value} == old(View());
        return Refused(data);
      }
      return Accepted(key.value);
    }
  
    /** Idempotent, and a no-op for a key that finds nothing. */
    method CancelOp(key: OpKey, accepted: bool) returns (pushed: bool)
      requires Valid()
      modifies ops, ops.entries
      ensures Valid() && ops.issued == old(ops.issued)
      ensures View() == CancelRequested(old(View()), key, accepted)
      ensures pushed <==> accepted && key in old(View()) && Untold(old(View()[key]))
      ensures key in old(View()) && old(View()[key]).Oneshot? && Untold(old(View()[key])) && !accepted ==>
                key in View() && NeedsPush(View()[key])
    {
      hide OpTables.OpTable<State>.View, OpTables.OpTable<State>.Valid;
      var state := ops.Get(key);
      if state.None? {
        return false;
      }
      match state.value
      case Oneshot(o) =>
        var (next, wants) := One.RequestCancel(o);
        ops.Set(key, Oneshot(next));
        pushed := wants && accepted;
        if pushed {
          ops.Set(key, Oneshot(One.MarkInFlight(next)));
        }
      case Multishot(m) =>
        pushed := (m.Active? || m.Stopping?) && accepted;
    }

    /** The observer leaves: its payload moves into the slot, or the completion that is already
        there is handed back and the slot freed. */
    method RemoveOp(op: Op) returns (completion: Option<nat>)
      requires Valid()
      requires op.key in View() ==> View()[op.key].Oneshot? && !One.Remove(View()[op.key].one, op.data).RemovePanic?
      modifies op, ops, ops.entries
      ensures Valid() && ops.issued == old(ops.issued)
      ensures var before := old(View());
              if op.key !in before then completion == None && View() == before && op.data == old(op.data)
              else match One.Remove(before[op.key].one, old(op.data))
                case Kept(o) => completion == None && View() == before[op.key := Oneshot(o)] && op.data == None
                case Retired(c) => completion == Some(c) && View() == before - {op.key} && op.data == old(op.data)
                case RemovePanic => false
    {
      hide OpTables.OpTable<State>.View, OpTables.OpTable<State>.Valid;
      var state := ops.Get(op.key);
      if state.None? {
        return None;
      }
      var one := state.value.one;
      if one.Completed? {
        var _ := ops.Remove(op.key);
        return Some(one.cqe);
      }
      var data := op.TakeData();
      if one.Canceling? {
        ops.Set(op.key, Oneshot(one.(observer := One.DetachedWith(data.value))));
      } else {
        ops.Set(op.key, Oneshot(One.Detached(data.value)));
      }
      return None;
    }

    /** A pending poll leaves the caller's task in the slot; a ready one frees the slot. */
    method PollOp(op: Op, waker: Waker) returns (r: PollOutcome)
      requires Valid()
      requires op.key in View() && View()[op.key].Oneshot? && !One.Poll(View()[op.key].one, waker).PollPanic?
      modifies ops, ops.entries
      ensures Valid() && ops.issued == old(ops.issued)
      ensures match One.Poll(old(View()[op.key].one), waker)
              case StillPending(o) => r == Pending && View() == old(View())[op.key := Oneshot(o)]
              case Ready(c) => r == Ready(c) && View() == old(View()) - {op.key}
              case PollPanic => false
    {
      hide OpTables.OpTable<State>.View, OpTables.OpTable<State>.Valid;
      var state := ops.Get(op.key);
      var one := state.value.one;
      if one.Completed? {
        var _ := ops.Remove(op.key);
        return Ready(one.cqe);
      }
      if one.Canceling? {
        ops.Set(op.key, Oneshot(one.(observer := One.WaitingWith(waker))));
      } else {
        ops.Set(op.key, Oneshot(One.Waiting(waker)));
      }
      return Pending;
    }

    /** Applies the whole completion queue, pushes the cancels it calls for and those still owed,
        and re-arms the wakeup. It fails exactly when the ring refuses the cancel of an overflowed
        stream or the wakeup read, and then what it deferred is lost: `None`. */
    method DispatchCompletions(queue: seq<RawCqe>, accepts: set<OpKey>, rearmAccepted: bool)
      returns (deferred: Option<seq<Action>>, discarded: seq<Many.Item>)
      requires Valid()
      modifies `wakeupReadArmed, ops, ops.entries
      ensures Valid() && ops.issued == old(ops.issued)
      ensures var t := DispatchAll(Turn(old(View()), [], [], [], false), queue, shuttingDown);
              var refused := exists k :: k in t.cancels && k !in accepts;
              && discarded == t.discarded
              && deferred == Returned(t, accepts, rearmAccepted)
              && View() == if refused then t.ops else Retried(t.ops, accepts)
      ensures wakeupReadArmed ==
                if exists i | 0 <= i < |queue| :: IsWakeup(queue[i]) then !shuttingDown && deferred.Some?
                else old(wakeupReadArmed)
    {
      hide OpTables.OpTable<State>.View, OpTables.OpTable<State>.Valid;
      ghost var start := Turn(View(), [], [], [], false);
      var actions: seq<Action>, cancels: seq<OpKey>, rearm := [], [], false;
      discarded := [];
      var i := 0;
      while i < |queue|
        invariant 0 <= i <= |queue|
        invariant Valid() && ops.issued == old(ops.issued)
        invariant Turn(View(), actions, cancels, discarded, rearm) == DispatchAll(start, queue[..i], shuttingDown)
        invariant wakeupReadArmed == if exists j | 0 <= j < i :: IsWakeup(queue[j]) then false else old(wakeupReadArmed)
      {
        assert queue[..i + 1][..i] == queue[..i];
        var e := queue[i];
        var decoded := OpTables.Decode(e.userData);
        if decoded.Some? && decoded.value.Wake? {
          wakeupReadArmed := false;
          rearm := !shuttingDown;
        } else if decoded.Some? && decoded.value.Operation? {
          actions, cancels, discarded := ApplyCompletion(decoded.value.key, e, actions, cancels, discarded, rearm);
        }
        i := i + 1;
      }
      assert queue[..i] == queue;
      ghost var t := DispatchAll(start, queue, shuttingDown);
      RearmIff(start, queue, shuttingDown);
      i := 0;
      while i < |cancels|
        invariant 0 <= i <= |cancels|
        invariant forall j | 0 <= j < i :: cancels[j] in accepts
      {
        if cancels[i] !in accepts {
          return None, discarded;
        }
        i := i + 1;
      }
      RetryCancels(accepts);
      if rearm {
        if !rearmAccepted {
          return None, discarded;
        }
        wakeupReadArmed := true;
      }
      return Some(actions), discarded;
    }

    /** The body of the dispatch loop, for a word that names an operation. */
    method ApplyCompletion(
      key: OpKey, e: RawCqe, actions: seq<Action>, cancels: seq<OpKey>, discarded: seq<Many.Item>, ghost rearm: bool)
      returns (actions': seq<Action>, cancels': seq<OpKey>, discarded': seq<Many.Item>)
      requires Valid()
      modifies ops, ops.entries
      ensures Valid() && ops.issued == old(ops.issued)
      ensures var t := Turn(old(View()), actions, cancels, discarded, rearm);
              Turn(View(), actions', cancels', discarded', rearm) == if key in t.ops then Apply(t, key, e) else t
    {
      hide OpTables.OpTable<State>.View, OpTables.OpTable<State>.Valid;
      actions', cancels', discarded' := actions, cancels, discarded;
      var state := ops.Get(key);
      if state.None? {
        return;
      }
      var remove;
      match state.value {
        case Oneshot(o) =>
          var f := One.Complete(o, e.content);
          ops.Set(key, Oneshot(f.state));
          actions' := actions' + Wakes(key, f.wake) + Cleanups(key, f.cleanup, e.content);
          remove := f.remove;
        case Multishot(m) =>
          var f := Many.Push(m, Many.Cqe(e.content), e.more);
          ops.Set(key, Multishot(f.state));
          if f.cancel {
            cancels' := cancels' + [key];
          }
          actions' := actions' + Wakes(key, f.wake);
          discarded' := discarded' + f.discarded;
          remove := f.remove;
      }
      ghost var updated := View();
      if remove {
        var _ := ops.Remove(key);
        assert updated - {key} == old(View()) - {key};
      }
    }

    method RetryCancels(accepts: set<OpKey>)
      requires Valid()
      modifies ops, ops.entries
      ensures Valid() && ops.issued == old(ops.issued)
      ensures View() == Retried(old(View()), accepts)
      ensures forall k | k in View() && k in accepts :: !NeedsPush(View()[k])
    {
      hide OpTables.OpTable<State>.View, OpTables.OpTable<State>.Valid;
      var keys := ops.Keys();
      var i := 0;
      ghost var before := View();
      while i < |keys|
        invariant 0 <= i <= |keys|
        invariant Valid() && ops.issued == old(ops.issued) && View().Keys == before.Keys
        invariant forall j | 0 <= j < i :: View()[keys[j]] == Retried(before, accepts)[keys[j]]
        invariant forall j | i <= j < |keys| :: View()[keys[j]] == before[keys[j]]
      {
        var state := ops.Get(keys[i]);
        if NeedsPush(state.value) && keys[i] in accepts {
          ops.Set(keys[i], Oneshot(One.MarkInFlight(state.value.one)));
        }
        i := i + 1;
      }
      forall k | k in before ensures View()[k] == Retried(before, accepts)[k] {
        assert k in keys;
      }
    }

    // ----- multishot requests -----

    /** Dropping a stream: staged items are discarded; a finished slot is freed, any other keeps
        the payload and asks the kernel to cancel. */
    method RemoveMultiOp(key: OpKey, data: Payload) returns (discarded: seq<Many.Item>)
      requires Valid() && (key in View() ==> View()[key].Multishot?)
      modifies ops, ops.entries
      ensures Valid() && ops.issued == old(ops.issued)
      ensures var before := old(View());
              if key !in before then View() == before && discarded == []
              else
                var (slot, items) := Many.Remove(before[key].many, data);
                discarded == items
                && View() == if slot.Some? then before[key := Multishot(slot.value)] else before - {key}
    {
      hide OpTables.OpTable<State>.View, OpTables.OpTable<State>.Valid;
      var state := ops.Get(key);
      if state.None? {
        return [];
      }
      var many := state.value.many;
      discarded := [];
      var i := 0;
      while i < |many.pending|
        invariant 0 <= i <= |many.pending| && discarded == many.pending[..i]
      {
        discarded := discarded + [many.pending[i]];
        i := i + 1;
      }
      if many.Finished? {
        var _ := ops.Remove(key);
      } else if many.Cancelled? && many.payload.Some? {
        ops.Set(key, Multishot(Many.Cancelled([], many.payload)));
      } else {
        ops.Set(key, Multishot(Many.Cancelled([], Some(data))));
      }
    }

    method PollMultiOp(key: OpKey, waker: Waker) returns (r: NextOutcome)
      requires Valid() && key in View() && View()[key].Multishot?
      modifies ops, ops.entries
      ensures Valid() && ops.issued == old(ops.issued)
      ensures match Many.Poll(old(View()[key].many), waker)
              case Popped(m, item) => r == Item(item) && View() == old(View())[key := Multishot(m)]
              case Parked(m) => r == Parked && View() == old(View())[key := Multishot(m)]
              case Over(remove) => r == End && View() == if remove then old(View()) - {key} else old(View())
    {
      hide OpTables.OpTable<State>.View, OpTables.OpTable<State>.Valid;
      var state := ops.Get(key);
      match state.value.many
      case Cancelled(_, _) => return End;
      case Finished(pending) =>
        if pending != [] {
          ops.Set(key, Multishot(Many.Finished(pending[1..])));
          return Item(pending[0]);
        }
        var _ := ops.Remove(key);
        return End;
      case Active(registered, pending, limit) =>
        if pending != [] {
          ops.Set(key, Multishot(Many.Active(registered, pending[1..], limit)));
          return Item(pending[0]);
        }
        ops.Set(key, Multishot(Many.Active(Some(waker), [], limit)));
        return Parked;
      case Stopping(registered, pending) =>
        if pending != [] {
          ops.Set(key, Multishot(Many.Stopping(registered, pending[1..])));
          return Item(pending[0]);
        }
        ops.Set(key, Multishot(Many.Stopping(Some(waker), [])));
        return Parked;
    }
  }
}
