/** Multishot io_uring requests: one submission, many completions, staged in the operation's slot
    and consumed through a stream. */
module UringMultishot {
  import opened Basics

  type Payload = nat
  type Waker = nat

  /** A staged completion: one the kernel delivered, or the error that ends a stream whose queue
      overflowed. */
  datatype Item = Cqe(id: nat) | CapacityError

  // ----- the slot -----

  datatype Multishot =
    | Active(waker: Option<Waker>, pending: seq<Item>, limit: Option<nat>)
    | Stopping(waker: Option<Waker>, pending: seq<Item>)
    | Finished(pending: seq<Item>)
    | Cancelled(pending: seq<Item>, payload: Option<Payload>)

  /** What one completion does: the next state or removal, a task to wake, whether to ask the
      kernel to cancel, and what was given to the cleanup policy. */
  datatype Pushed = Pushed(state: Multishot, remove: bool, wake: Option<Waker>, cancel: bool, discarded: seq<Item>)

  function Push(m: Multishot, c: Item, more: bool): Pushed {
    match m
    case Active(w, pending, limit) =>
      if limit.Some? && |pending| >= limit.value then
        var q := pending + [CapacityError];
        Pushed(if more then Stopping(None, q) else Finished(q), false, w, more, [c])
      else
        var q := pending + [c];
        Pushed(if more then Active(None, q, limit) else Finished(q), false, w, false, [])
    case Stopping(w, pending) =>
      Pushed(if more then Stopping(None, pending) else Finished(pending), false, w, false, [c])
    case Cancelled(pending, payload) =>
      if more then Pushed(m, false, None, false, [c])
      else Pushed(Cancelled([], payload), true, None, false, [c] + pending)
    case Finished(_) => Pushed(m, false, None, false, [])
  }

  datatype Polled = Popped(state: Multishot, item: Item) | Parked(state: Multishot) | Over(remove: bool)

  function Poll(m: Multishot, w: Waker): Polled {
    match m
    case Active(waker, pending, limit) =>
      if pending != [] then Popped(Active(waker, pending[1..], limit), pending[0]) else Parked(Active(Some(w), [], limit))
    case Stopping(waker, pending) =>
      if pending != [] then Popped(Stopping(waker, pending[1..]), pending[0]) else Parked(Stopping(Some(w), []))
    case Finished(pending) =>
      if pending != [] then Popped(Finished(pending[1..]), pending[0]) else Over(true)
    case Cancelled(_, _) => Over(false)
  }

  /** Dropping the stream: what was staged is discarded, and the payload stays in the slot while
      the kernel may still use it. `None` means the slot is freed. */
  function Remove(m: Multishot, data: Payload): (Option<Multishot>, seq<Item>) {
    match m
    case Active(_, pending, _) => (Some(Cancelled([], Some(data))), pending)
    case Stopping(_, pending) => (Some(Cancelled([], Some(data))), pending)
    case Finished(pending) => (None, pending)
    case Cancelled(pending, payload) => (Some(Cancelled([], if payload.Some? then payload else Some(data))), pending)
  }

  // ----- the stream -----

  datatype Phase = Unsubmitted(data: Payload) | Streaming(data: Payload) | Terminated

  datatype Outcome = Yield(item: Item) | SubmissionError

  /** `slot` is the entry in the operation table and `phase` the stream's own state. The rest is a
      record: whether the kernel may still deliver, what it delivered, how many deliveries were
      staged, what was handed to the operation and what to the cleanup policy, the items the
      stream yielded before it first ended, and how often it reported its end. `data` is what was
      submitted. `parked` is the task of a pending poll; its wake is then deferred until the backend
      is released (`wake`), and has been run (`woken`) or dropped (`unwoken`). */
  datatype Life = Life(
    slot: Option<Multishot>,
    phase: Phase,
    data: Payload,
    armed: bool,
    limit: Option<nat>,
    received: seq<Item>,
    staged: nat,
    overflowed: bool,
    taken: seq<Item>,
    discarded: seq<Item>,
    results: seq<Outcome>,
    ends: nat,
    parked: Option<Waker>,
    wake: Option<Waker>,
    woken: bool,
    unwoken: bool,
    fault: bool)

  function Init(data: Payload, limit: Option<nat>): Life {
    Life(None, Unsubmitted(data), data, false, limit, [], 0, false, [], [], [], 0, None, None, false, false, false)
  }

  /** `Start` is the submission made by the first poll, `Next(_, last)` a poll whose item, if it
      gets one, ends the stream when `last`. `RunWake` runs the deferred wake; `Abandon` is a
      dispatch that fails after having applied completions, so that what it deferred is dropped. */
  datatype Event =
    | Start(accepted: bool)
    | Next(waker: Waker, last: bool)
    | Drop
    | Arrive(id: nat, more: bool)
    | RunWake
    | Abandon

  predicate Enabled(l: Life, e: Event) {
    match e
    case Start(_) => l.phase.Unsubmitted?
    case Next(_, _) => !l.phase.Unsubmitted?
    case Drop => l.phase.Streaming?
    case Arrive(_, _) => l.armed
    case RunWake => l.wake.Some?
    case Abandon => l.wake.Some?
  }

  /** A poll supersedes the park before it, and a wake still deferred for that. */
  function Unparked(l: Life): Life { l.(parked := None, wake := None, woken := false, unwoken := false) }

  function Fail(l: Life): Life { l.(fault := true) }

  /** An item after the stream's end would be a fault. */
  function Report(l: Life, o: Outcome): Life {
    l.(results := l.results + [o], fault := l.fault || l.ends > 0)
  }

  function DoStart(l: Life, accepted: bool): Life
    requires l.phase.Unsubmitted?
  {
    if accepted then l.(slot := Some(Active(None, [], l.limit)), phase := Streaming(l.phase.data), armed := true)
    else Report(l.(phase := Terminated), SubmissionError)
  }

  /** Hands the stream's data back to the slot, or drops both. */
  function DoRemove(l: Life): Life
    requires l.phase.Streaming?
  {
    var t := Unparked(l).(phase := Terminated);
    if l.slot.None? then t
    else
      var (slot, discarded) := Remove(l.slot.value, l.phase.data);
      t.(slot := slot, discarded := l.discarded + discarded)
  }

  function DoNext(l: Life, w: Waker, last: bool): Life
    requires !l.phase.Unsubmitted?
  {
    if l.phase.Terminated? then l.(ends := l.ends + 1)
    else if l.slot.None? then Fail(l)
    else match Poll(l.slot.value, w)
      case Parked(m) => Unparked(l).(slot := Some(m), parked := Some(w))
      case Over(remove) =>
        Unparked(l).(slot := if remove then None else l.slot, phase := Terminated, ends := l.ends + 1)
      case Popped(m, item) =>
        var t := Unparked(l).(slot := Some(m), taken := l.taken + [item]);
        if last then DoRemove(t).(ends := l.ends + 1) else Report(t, Yield(item))
  }

  function DoArrive(l: Life, c: Item, more: bool): Life {
    var t := l.(received := l.received + [c], armed := more);
    if l.slot.None? then t
    else
      var p := Push(l.slot.value, c, more);
      var over := l.slot.value.Active? && p.discarded != [];
      t.(slot := if p.remove then None else Some(p.state),
         staged := if l.slot.value.Active? && !over then l.staged + 1 else l.staged,
         overflowed := l.overflowed || over,
         discarded := l.discarded + p.discarded,
         wake := if p.wake.Some? then p.wake else l.wake)
  }

  function Step(l: Life, e: Event): Life
    requires Enabled(l, e)
  {
    match e
    case Start(accepted) => DoStart(l, accepted)
    case Next(w, last) => DoNext(l, w, last)
    case Drop => DoRemove(l)
    case Arrive(id, more) => DoArrive(l, Cqe(id), more)
    case RunWake => l.(wake := None, woken := true)
    case Abandon => l.(wake := None, unwoken := true)
  }

  // ----- what holds at every moment -----

  function Pending(l: Life): seq<Item> { if l.slot.Some? then l.slot.value.pending else [] }

  /** The items meant for the stream: the staged completions in order, and after an overflow
      the capacity error. */
  function Meant(l: Life): seq<Item>
    requires l.staged <= |l.received|
  {
    l.received[..l.staged] + if l.overflowed then [CapacityError] else []
  }

  function Yields(items: seq<Item>): (r: seq<Outcome>)
    ensures |r| == |items| && forall i | 0 <= i < |items| :: r[i] == Yield(items[i])
  {
    if items == [] then [] else [Yield(items[0])] + Yields(items[1..])
  }

  ghost predicate QueueOk(l: Life) {
    && (forall i | 0 <= i < |l.received| :: l.received[i].Cqe?)
    && l.staged <= |l.received|
    && (l.phase.Streaming? ==> l.slot.Some? && !l.slot.value.Cancelled? && l.taken + Pending(l) == Meant(l))
    && l.taken <= Meant(l)
    && (l.slot.Some? && l.slot.value.Active? ==> l.staged == |l.received| && !l.overflowed && l.slot.value.limit == l.limit)
    && (l.slot.Some? && l.slot.value.Stopping? ==> l.overflowed)
    && (l.limit.Some? ==> |Pending(l)| <= l.limit.value + if l.overflowed then 1 else 0)
    && (l.limit.None? ==> !l.overflowed)
    && (l.phase.Unsubmitted? ==> l == Init(l.phase.data, l.limit))
  }

  /** The kernel's request keeps its slot and its payload. */
  predicate StorageOk(l: Life) {
    && (l.armed <==> l.slot.Some? && !l.slot.value.Finished?)
    && (l.slot.Some? && l.slot.value.Cancelled? ==>
          l.phase.Terminated? && l.slot.value.payload == Some(l.data) && l.slot.value.pending == [])
    && (l.slot.Some? && !l.slot.value.Cancelled? ==> l.phase.Streaming?)
    && (!l.phase.Terminated? ==> l.phase.data == l.data)
  }

  function One(b: bool): nat { if b then 1 else 0 }

  /** The task the slot would wake. */
  function Remembered(l: Life): Option<Waker> {
    if l.slot.Some? && (l.slot.value.Active? || l.slot.value.Stopping?) then l.slot.value.waker else None
  }

  /** A parked task is remembered by the slot, or its wake is deferred, run or dropped: exactly one
      of these. It is remembered only while nothing is staged. */
  predicate WakeOk(l: Life) {
    && (Remembered(l).Some? ==> Remembered(l) == l.parked && l.slot.value.pending == [])
    && (l.wake.Some? ==> l.wake == l.parked)
    && (l.parked.Some? ==> l.phase.Streaming?)
    && One(Remembered(l).Some?) + One(l.wake.Some?) + One(l.woken) + One(l.unwoken) == One(l.parked.Some?)
  }

  ghost predicate ResultsOk(l: Life) {
    && (l.ends > 0 ==> l.phase.Terminated?)
    && (l.results == Yields(l.taken)
        || (l.results == [SubmissionError] && l.taken == [] && l.slot.None? && l.phase.Terminated?)
        || (l.ends > 0 && |l.taken| > 0 && l.results == Yields(l.taken[..|l.taken| - 1])))
    && (l.phase.Streaming? ==> l.results == Yields(l.taken))
  }

  /** Everything delivered, plus the capacity error, is with the operation, with the cleanup
      policy, or still staged. */
  function Balance(l: Life): multiset<Item> { multiset(l.taken) + multiset(l.discarded) + multiset(Pending(l)) }

  function Supply(l: Life): multiset<Item> {
    multiset(l.received) + if l.overflowed then multiset{CapacityError} else multiset{}
  }

  ghost predicate StagingOk(l: Life) {
    !l.fault && QueueOk(l) && StorageOk(l) && WakeOk(l) && Supply(l) == Balance(l)
  }

  ghost predicate Ok(l: Life) { StagingOk(l) && ResultsOk(l) }

  lemma StartKeepsOk(l: Life, accepted: bool)
    requires Ok(l) && l.phase.Unsubmitted?
    ensures Ok(DoStart(l, accepted))
  {
  }

  lemma RemoveKeepsStaging(l: Life)
    requires StagingOk(l) && l.phase.Streaming?
    ensures StagingOk(DoRemove(l))
  {
  }

  /** The three answers of a poll of a live stream. */
  lemma ParkedKeepsOk(l: Life, w: Waker, last: bool)
    requires Ok(l) && l.phase.Streaming? && Pending(l) == [] && !l.slot.value.Finished?
    ensures Ok(DoNext(l, w, last))
  {
    if l.slot.value.Active? {} else {}
  }

  lemma OverKeepsOk(l: Life, w: Waker, last: bool)
    requires Ok(l) && l.phase.Streaming? && Pending(l) == [] && l.slot.value.Finished?
    ensures Ok(DoNext(l, w, last))
  {
  }

  function Tail(m: Multishot): Multishot
    requires m.pending != [] && !m.Cancelled?
  {
    match m
    case Active(w, pending, limit) => Active(w, pending[1..], limit)
    case Stopping(w, pending) => Stopping(w, pending[1..])
    case Finished(pending) => Finished(pending[1..])
  }

  function Pop(l: Life): Life
    requires l.slot.Some? && Pending(l) != [] && !l.slot.value.Cancelled?
  {
    Unparked(l).(slot := Some(Tail(l.slot.value)), taken := l.taken + [Pending(l)[0]])
  }

  lemma PopBalances(l: Life)
    requires l.slot.Some? && Pending(l) != [] && !l.slot.value.Cancelled? && Supply(l) == Balance(l)
    ensures Supply(Pop(l)) == Balance(Pop(l))
  {
    var t, item := Pop(l), Pending(l)[0];
    assert Pending(l) == [item] + Pending(t);
    assert t.taken == l.taken + [item] && t.discarded == l.discarded;
    assert t.received == l.received && t.overflowed == l.overflowed;
    hide Pending, Pop;
    assert Balance(l) == multiset(l.taken) + multiset(l.discarded) + (multiset{item} + multiset(Pending(t)));
    assert Balance(t) == (multiset(l.taken) + multiset{item}) + multiset(l.discarded) + multiset(Pending(t));
  }

  lemma PopKeepsQueue(l: Life)
    requires QueueOk(l) && l.phase.Streaming? && Pending(l) != []
    ensures QueueOk(Pop(l))
  {
    var t := Pop(l);
    PopShifts(l);
    assert t.received == l.received && t.staged == l.staged && t.overflowed == l.overflowed && t.limit == l.limit;
    assert Meant(t) == Meant(l);
    hide Pending, Meant;
  }

  lemma PopShifts(l: Life)
    requires l.slot.Some? && Pending(l) != [] && !l.slot.value.Cancelled?
    ensures Pop(l).taken + Pending(Pop(l)) == l.taken + Pending(l) && |Pending(Pop(l))| < |Pending(l)|
  {
    assert Pending(l) == [Pending(l)[0]] + Pending(Pop(l));
  }

  lemma PopKeepsWake(l: Life)
    requires StorageOk(l) && WakeOk(l) && l.phase.Streaming? && Pending(l) != []
    requires l.slot.Some? && !l.slot.value.Cancelled?
    ensures StorageOk(Pop(l)) && WakeOk(Pop(l))
  {
  }

  lemma PopMovesOneItem(l: Life)
    requires Ok(l) && l.phase.Streaming? && Pending(l) != []
    ensures StagingOk(Pop(l))
  {
    PopKeepsQueue(l);
    hide QueueOk, Supply, Balance, ResultsOk;
    PopBalances(l);
    PopKeepsWake(l);
    hide StorageOk, WakeOk, Pending;
  }

  /** A poll of a stream with something staged, in terms of `Pop`. */
  lemma NextPops(l: Life, w: Waker)
    requires Ok(l) && l.phase.Streaming? && Pending(l) != []
    ensures l.slot.Some? && !l.slot.value.Cancelled? && l.ends == 0 && l.results == Yields(l.taken)
    ensures DoNext(l, w, true) == DoRemove(Pop(l)).(ends := 1)
    ensures DoNext(l, w, false) == Report(Pop(l), Yield(Pending(l)[0]))
  {
    TakesFromSlot(l, w);
    hide Supply, Balance, WakeOk, QueueOk, StorageOk, Poll, Tail, Remove, Yields;
  }

  lemma TakenKeepsOk(l: Life, w: Waker)
    requires Ok(l) && l.phase.Streaming? && Pending(l) != []
    ensures Ok(DoNext(l, w, false))
  {
    hide StagingOk, DoNext, Pending, Tail;
    NextPops(l, w);
    PopMovesOneItem(l);
    var item := Pending(l)[0];
    ReportKeepsStaging(Pop(l), Yield(item));
    assert Yields(l.taken + [item]) == Yields(l.taken) + [Yield(item)];
    hide Yields;
  }

  lemma LastKeepsOk(l: Life, w: Waker)
    requires Ok(l) && l.phase.Streaming? && Pending(l) != []
    ensures Ok(DoNext(l, w, true))
  {
    hide StagingOk, DoNext, Pending, Pop, DoRemove, Yields, ResultsOk;
    NextPops(l, w);
    PopMovesOneItem(l);
    var t := Pop(l);
    PopFacts(l);
    RemoveKeepsResults(t);
    RemoveKeepsStaging(t);
    EndKeepsStaging(DoRemove(t));
    LastResults(l, DoNext(l, w, true));
  }

  lemma PopFacts(l: Life)
    requires l.slot.Some? && Pending(l) != [] && !l.slot.value.Cancelled?
    ensures var t := Pop(l);
            t.taken == l.taken + [Pending(l)[0]] && t.results == l.results && t.phase == l.phase && t.ends == l.ends
  {
  }

  lemma LastResults(l: Life, t: Life)
    requires l.results == Yields(l.taken) && t.results == l.results && t.ends > 0 && t.phase.Terminated?
    requires |t.taken| == |l.taken| + 1 && l.taken <= t.taken
    ensures ResultsOk(t)
  {
    assert t.taken[..|t.taken| - 1] == l.taken;
    hide Yields;
  }

  lemma RemoveKeepsResults(l: Life)
    requires l.phase.Streaming?
    ensures DoRemove(l).results == l.results && DoRemove(l).taken == l.taken && DoRemove(l).ends == l.ends
    ensures DoRemove(l).phase.Terminated?
  {
  }

  lemma NextKeepsOk(l: Life, w: Waker, last: bool)
    requires Ok(l) && !l.phase.Unsubmitted?
    ensures Ok(DoNext(l, w, last))
  {
    if l.phase.Terminated? {
      EndKeepsStaging(l);
    } else if Pending(l) != [] {
      if last {
        LastKeepsOk(l, w);
      } else {
        TakenKeepsOk(l, w);
      }
    } else if l.slot.value.Finished? {
      OverKeepsOk(l, w, last);
    } else {
      ParkedKeepsOk(l, w, last);
    }
  }

  lemma TakesFromSlot(l: Life, w: Waker)
    requires Ok(l) && l.phase.Streaming? && Pending(l) != []
    ensures l.slot.Some? && !l.slot.value.Cancelled? && l.ends == 0
    ensures Poll(l.slot.value, w) == Popped(Tail(l.slot.value), Pending(l)[0])
  {
  }

  lemma EndKeepsStaging(l: Life)
    requires StagingOk(l) && !l.phase.Unsubmitted?
    ensures StagingOk(l.(ends := l.ends + 1))
  {
  }

  lemma ReportKeepsStaging(l: Life, o: Outcome)
    requires StagingOk(l) && !l.phase.Unsubmitted? && l.ends == 0
    ensures StagingOk(Report(l, o))
  {
  }

  // ----- a completion arrives -----

  lemma AddBoth(r: multiset<Item>, o: multiset<Item>, t: multiset<Item>, d: multiset<Item>, p: multiset<Item>, c: Item)
    requires r + o == t + d + p
    ensures r + multiset{c} + o == t + (d + multiset{c}) + p
    ensures r + multiset{c} + o == t + d + (p + multiset{c})
  {
    assert r + multiset{c} + o == (r + o) + multiset{c};
    assert t + (d + multiset{c}) + p == (t + d + p) + multiset{c};
    assert t + d + (p + multiset{c}) == (t + d + p) + multiset{c};
  }

  /** One delivery adds one item to the books, or two with the capacity error. */
  lemma OverflowBalances(l: Life, c: Item, more: bool)
    requires l.slot.Some? && l.slot.value.Active? && !l.overflowed && Supply(l) == Balance(l)
    requires l.slot.value.limit.Some? && |Pending(l)| >= l.slot.value.limit.value
    ensures Supply(DoArrive(l, c, more)) == Balance(DoArrive(l, c, more))
  {
    var t := DoArrive(l, c, more);
    assert Pending(t) == Pending(l) + [CapacityError] && t.discarded == l.discarded + [c];
    assert t.overflowed && t.received == l.received + [c] && t.taken == l.taken;
    hide Push, Pending;
    AddBoth(multiset(l.received), multiset{}, multiset(l.taken), multiset(l.discarded), multiset(Pending(l)), c);
    AddBoth(multiset(t.received), multiset{}, multiset(t.taken), multiset(t.discarded), multiset(Pending(l)), CapacityError);
  }

  lemma StageBalances(l: Life, c: Item, more: bool)
    requires l.slot.Some? && l.slot.value.Active? && !l.overflowed && Supply(l) == Balance(l)
    requires l.slot.value.limit.Some? ==> |Pending(l)| < l.slot.value.limit.value
    ensures Supply(DoArrive(l, c, more)) == Balance(DoArrive(l, c, more))
  {
    var t := DoArrive(l, c, more);
    assert Pending(t) == Pending(l) + [c] && t.discarded == l.discarded;
    assert !t.overflowed && t.received == l.received + [c] && t.taken == l.taken;
    hide Push, Pending;
    AddBoth(multiset(l.received), multiset{}, multiset(l.taken), multiset(l.discarded), multiset(Pending(l)), c);
  }

  lemma DiscardBalances(l: Life, c: Item, more: bool)
    requires l.armed && StorageOk(l) && !l.slot.value.Active? && Supply(l) == Balance(l)
    ensures Supply(DoArrive(l, c, more)) == Balance(DoArrive(l, c, more))
  {
    var t := DoArrive(l, c, more);
    assert l.slot.value.Cancelled? ==> [c] + l.slot.value.pending == [c];
    assert Pending(t) == Pending(l) && t.discarded == l.discarded + [c];
    assert t.overflowed == l.overflowed && t.received == l.received + [c] && t.taken == l.taken;
    hide Push, Pending;
    AddBoth(multiset(l.received), if l.overflowed then multiset{CapacityError} else multiset{}, multiset(l.taken), multiset(l.discarded), multiset(Pending(l)), c);
  }

  lemma ArriveKeepsQueue(l: Life, c: Item, more: bool)
    requires Ok(l) && l.armed && c.Cqe?
    ensures QueueOk(DoArrive(l, c, more))
  {
    hide WakeOk, ResultsOk, Supply, Balance;
    var t, m := DoArrive(l, c, more), l.slot.value;
    if m.Active? && m.limit.Some? && |m.pending| >= m.limit.value {
      assert t.received[..t.staged] == l.received[..l.staged];
      assert t.taken + Pending(t) == l.taken + Pending(l) + [CapacityError];
    } else if m.Active? {
      assert t.received[..t.staged] == l.received[..l.staged] + [c];
      assert t.taken + Pending(t) == l.taken + Pending(l) + [c];
    } else {
      assert t.received[..t.staged] == l.received[..l.staged];
    }
  }

  lemma ArriveKeepsWake(l: Life, c: Item, more: bool)
    requires StorageOk(l) && WakeOk(l) && l.armed
    ensures StorageOk(DoArrive(l, c, more)) && WakeOk(DoArrive(l, c, more))
  {
    match l.slot.value
    case Active(_, _, _) =>
    case Stopping(_, _) =>
    case Cancelled(_, _) =>
  }

  lemma ArriveKeepsOk(l: Life, c: Item, more: bool)
    requires Ok(l) && l.armed && c.Cqe?
    ensures Ok(DoArrive(l, c, more))
  {
    if !l.slot.value.Active? {
      DiscardBalances(l, c, more);
    } else if l.limit.Some? && |Pending(l)| >= l.limit.value {
      OverflowBalances(l, c, more);
    } else {
      StageBalances(l, c, more);
    }
    ArriveKeepsQueue(l, c, more);
    ArriveKeepsWake(l, c, more);
    hide Supply, Balance, QueueOk, WakeOk, StorageOk, Push;
  }

  // ----- every run of a stream -----

  ghost predicate IsRun(lives: seq<Life>, events: seq<Event>, data: Payload, limit: Option<nat>) {
    && |lives| == |events| + 1 && lives[0] == Init(data, limit)
    && forall i | 0 <= i < |events| :: Enabled(lives[i], events[i]) && lives[i + 1] == Step(lives[i], events[i])
  }

  lemma StepKeepsOk(l: Life, e: Event)
    requires Ok(l) && Enabled(l, e)
    ensures Ok(Step(l, e))
  {
    hide Ok, Push, Poll, Remove;
    match e
    case Start(accepted) => StartKeepsOk(l, accepted);
    case Next(w, last) => NextKeepsOk(l, w, last);
    case Drop => DropKeepsOk(l);
    case Arrive(id, more) => ArriveKeepsOk(l, Cqe(id), more);
    case RunWake => WakeSettledKeepsOk(l, Step(l, e));
    case Abandon => WakeSettledKeepsOk(l, Step(l, e));
  }

  lemma WakeSettledKeepsOk(l: Life, t: Life)
    requires Ok(l) && l.wake.Some? && (t == l.(wake := None, woken := true) || t == l.(wake := None, unwoken := true))
    ensures Ok(t)
  {
  }

  /** What no step changes, and that items once taken stay taken. */
  predicate Follows(l: Life, t: Life) {
    t.limit == l.limit && t.data == l.data && l.taken <= t.taken && (t.phase.Unsubmitted? ==> l.phase.Unsubmitted?)
  }

  lemma RemoveFollows(l: Life)
    requires l.phase.Streaming?
    ensures Follows(l, DoRemove(l))
  {
    hide Remove;
  }

  lemma NextFollows(l: Life, w: Waker, last: bool)
    requires !l.phase.Unsubmitted?
    ensures Follows(l, DoNext(l, w, last))
  {
    hide Poll, DoRemove;
    if l.phase.Streaming? && l.slot.Some? {
      match Poll(l.slot.value, w)
      case Parked(_) =>
      case Over(_) =>
      case Popped(m, item) =>
        if last {
          RemoveFollows(Unparked(l).(slot := Some(m), taken := l.taken + [item]));
        }
    }
  }

  lemma ArriveFollows(l: Life, c: Item, more: bool)
    ensures Follows(l, DoArrive(l, c, more))
  {
    hide Push;
  }

  lemma StepFollows(l: Life, e: Event)
    requires Enabled(l, e)
    ensures Follows(l, Step(l, e))
  {
    hide DoNext, DoArrive, DoRemove;
    match e
    case Start(_) =>
    case Next(w, last) => NextFollows(l, w, last);
    case Drop => RemoveFollows(l);
    case Arrive(id, more) => ArriveFollows(l, Cqe(id), more);
    case RunWake =>
    case Abandon =>
  }

  lemma {:induction false} OkAlong(lives: seq<Life>, events: seq<Event>, data: Payload, limit: Option<nat>, i: nat)
    requires IsRun(lives, events, data, limit) && i < |lives|
    ensures Ok(lives[i]) && lives[i].limit == limit && lives[i].data == data
  {
    if i == 0 {
      assert Ok(Init(data, limit));
    } else {
      hide Ok, Step;
      OkAlong(lives, events, data, limit, i - 1);
      StepKeepsOk(lives[i - 1], events[i - 1]);
      StepFollows(lives[i - 1], events[i - 1]);
    }
  }

  lemma DropKeepsOk(l: Life)
    requires Ok(l) && l.phase.Streaming?
    ensures Ok(DoRemove(l))
  {
    RemoveKeepsStaging(l);
    hide StagingOk, Remove;
  }

  /** Every completion the kernel delivered, and the capacity error if there is one, has been
      handed to the operation once, or discarded once, or is still staged; once the slot is gone
      nothing is staged. No unreachable branch or failed `expect` is ever hit. */
  lemma EveryCompletionAccountedFor(lives: seq<Life>, events: seq<Event>, data: Payload, limit: Option<nat>, i: nat)
    requires IsRun(lives, events, data, limit) && i < |lives|
    ensures Supply(lives[i]) == multiset(lives[i].taken) + multiset(lives[i].discarded) + multiset(Pending(lives[i]))
    ensures lives[i].slot.None? ==> Supply(lives[i]) == multiset(lives[i].taken) + multiset(lives[i].discarded)
    ensures !lives[i].fault
  {
    OkAlong(lives, events, data, limit, i);
  }

  /** What a stream hands out is, in order, a prefix of what the kernel delivered, and then only
      possibly the one capacity error; as long as the stream lives nothing is skipped. */
  lemma StreamIsFifo(lives: seq<Life>, events: seq<Event>, data: Payload, limit: Option<nat>, i: nat)
    requires IsRun(lives, events, data, limit) && i < |lives|
    ensures lives[i].staged <= |lives[i].received| && lives[i].taken <= Meant(lives[i])
    ensures lives[i].phase.Streaming? ==> lives[i].taken + Pending(lives[i]) == Meant(lives[i])
    ensures forall j | 0 <= j < |lives[i].taken| ::
              if lives[i].taken[j] == CapacityError then j == |lives[i].taken| - 1 && lives[i].overflowed
              else j < |lives[i].received| && lives[i].taken[j] == lives[i].received[j]
  {
    OkAlong(lives, events, data, limit, i);
  }

  /** The queue is bounded by the limit and the one capacity error, and overflow needs a limit. */
  lemma QueueIsBounded(lives: seq<Life>, events: seq<Event>, data: Payload, limit: Option<nat>, i: nat)
    requires IsRun(lives, events, data, limit) && i < |lives|
    ensures limit.Some? ==> |Pending(lives[i])| <= limit.value + 1
    ensures lives[i].overflowed ==> limit.Some?
  {
    OkAlong(lives, events, data, limit, i);
  }

  /** A completion overflows a live stream exactly when it finds the limit reached; otherwise it is
      staged behind the others. Overflow stages the one capacity error, discards the completion and
      asks the kernel to cancel if the request goes on; nothing else asks for that. */
  lemma OverflowsIff(lives: seq<Life>, events: seq<Event>, data: Payload, limit: Option<nat>, i: nat, id: nat, more: bool)
    requires IsRun(lives, events, data, limit) && i < |events| && events[i] == Arrive(id, more)
    requires lives[i].phase.Streaming? && !lives[i].overflowed
    ensures var l, t := lives[i], lives[i + 1];
            && l.slot.Some?
            && (t.overflowed <==> limit.Some? && |Pending(l)| >= limit.value)
            && Pending(t) == Pending(l) + [if t.overflowed then CapacityError else Cqe(id)]
            && t.discarded == l.discarded + (if t.overflowed then [Cqe(id)] else [])
            && (Push(l.slot.value, Cqe(id), more).cancel <==> t.overflowed && more)
  {
    OkAlong(lives, events, data, limit, i);
    hide ResultsOk, Supply, Balance, WakeOk;
    assert lives[i].slot.value.Active?;
  }

  /** After an overflow a live stream stages nothing more and asks for nothing more. */
  lemma OverflowedStagesNothing(lives: seq<Life>, events: seq<Event>, data: Payload, limit: Option<nat>, i: nat, id: nat, more: bool)
    requires IsRun(lives, events, data, limit) && i < |events| && events[i] == Arrive(id, more)
    requires lives[i].phase.Streaming? && lives[i].overflowed
    ensures var l, t := lives[i], lives[i + 1];
            && l.slot.Some?
            && t.overflowed && Pending(t) == Pending(l) && t.discarded == l.discarded + [Cqe(id)]
            && !Push(l.slot.value, Cqe(id), more).cancel
  {
    OkAlong(lives, events, data, limit, i);
    hide ResultsOk, Supply, Balance, WakeOk;
    assert lives[i].slot.value.Stopping?;
  }

  /** A parked task is remembered by the slot, or its wake is deferred, has been run, or was lost
      with a failed dispatch: exactly one of these. Once there is something for it to see, or the
      request has ended, it is not the first. */
  lemma ParkedStreamIsWoken(lives: seq<Life>, events: seq<Event>, data: Payload, limit: Option<nat>, i: nat)
    requires IsRun(lives, events, data, limit) && i < |lives|
    ensures var l := lives[i];
            && One(Remembered(l).Some?) + One(l.wake.Some?) + One(l.woken) + One(l.unwoken) == One(l.parked.Some?)
            && (Remembered(l).Some? ==> Remembered(l) == l.parked && Pending(l) == [] && l.armed)
            && (l.wake.Some? ==> l.wake == l.parked)
  {
    OkAlong(lives, events, data, limit, i);
  }

  /** While the kernel may still deliver, the slot exists and the payload is with the stream or
      in the slot. */
  lemma PayloadOutlivesRequest(lives: seq<Life>, events: seq<Event>, data: Payload, limit: Option<nat>, i: nat)
    requires IsRun(lives, events, data, limit) && i < |lives| && lives[i].armed
    ensures lives[i].slot.Some?
    ensures lives[i].phase == Streaming(data)
            || (lives[i].slot.value.Cancelled? && lives[i].slot.value.payload == Some(data))
  {
    OkAlong(lives, events, data, limit, i);
  }

  /** The items of a stream are what it was handed, or the one submission error; the last
      completion may be the one that ended it. */
  lemma ResultsAreTheItems(lives: seq<Life>, events: seq<Event>, data: Payload, limit: Option<nat>, i: nat)
    requires IsRun(lives, events, data, limit) && i < |lives|
    ensures ResultsOk(lives[i])
  {
    OkAlong(lives, events, data, limit, i);
  }

  lemma EndIsFinal(l: Life, e: Event)
    requires Ok(l) && Enabled(l, e) && l.phase.Terminated?
    ensures Step(l, e).phase.Terminated? && Step(l, e).results == l.results && Step(l, e).taken == l.taken
    ensures e.Next? ==> Step(l, e).ends == l.ends + 1
  {
  }

  /** Once the stream has reported its end it never yields again, and every later poll
      reports the end. */
  lemma {:induction false} EndedStaysEnded(lives: seq<Life>, events: seq<Event>, data: Payload, limit: Option<nat>, i: nat, j: nat)
    requires IsRun(lives, events, data, limit) && i <= j < |lives| && lives[i].ends > 0
    ensures lives[j].phase.Terminated? && lives[j].results == lives[i].results
    ensures j < |events| && events[j].Next? ==> lives[j + 1].ends == lives[j].ends + 1
  {
    if i < j {
      EndedStaysEnded(lives, events, data, limit, i, j - 1);
      OkAlong(lives, events, data, limit, j - 1);
      EndIsFinal(lives[j - 1], events[j - 1]);
    }
    OkAlong(lives, events, data, limit, j);
  }

  lemma {:induction false} TakenGrows(lives: seq<Life>, events: seq<Event>, data: Payload, limit: Option<nat>, i: nat, j: nat)
    requires IsRun(lives, events, data, limit) && i <= j < |lives|
    ensures lives[i].taken <= lives[j].taken
  {
    hide Step, Enabled;
    if i < j {
      TakenGrows(lives, events, data, limit, i, j - 1);
      StepFollows(lives[j - 1], events[j - 1]);
    }
  }

  /** The capacity error is the last thing a stream hands out: after it come only waiting and
      the end. */
  lemma NothingAfterCapacityError(lives: seq<Life>, events: seq<Event>, data: Payload, limit: Option<nat>, i: nat, j: nat)
    requires IsRun(lives, events, data, limit) && i <= j < |lives| && CapacityError in lives[i].taken
    ensures lives[j].taken == lives[i].taken
  {
    TakenGrows(lives, events, data, limit, i, j);
    StreamIsFifo(lives, events, data, limit, i);
    StreamIsFifo(lives, events, data, limit, j);
    var n := |lives[i].taken| - 1;
    assert lives[j].taken[n] == lives[i].taken[n] == CapacityError;
  }
}
