/** One signal listener: a wrapping delivery counter, a waker behind a mutex, and signal handlers
    that bump the counter and then merely try the mutex. Handlers are unboundedly many and run
    at any point, even while the listener itself holds the mutex. */
module SignalListener {

  import opened Basics

  /** Who holds the waker mutex; a handler holds it while it takes the waker and wakes it. */
  datatype Mutex = Free | ByListener | Taking | Waking(waker: nat)

  /** Where the task calling `recv` stands. */
  datatype Listener =
    | Idle
    | WantLock(waker: nat)   // first check found nothing new
    | Storing(waker: nat)    // holds the mutex
    | Rechecking(waker: nat)
    | Parked(waker: nat)     // the poll returned Pending

  datatype State = State(
    counter: nat,
    lastSeen: nat,
    slot: Option<nat>,
    mutex: Mutex,
    bumped: nat,          // handlers between the counter bump and `try_lock`
    listener: Listener,
    woken: bool,          // the waker stored last has been woken
    deliveries: nat,      // deliveries ever, unwrapped
    seenAt: nat,          // deliveries when `last_seen` was last loaded
    ready: nat)           // how often `recv` has completed

  datatype Event =
    | Deliver | TryLock | Take | Wake
    | Poll(waker: nat) | AcquireLock | Store | Recheck

  predicate Enabled(s: State, e: Event) {
    match e
    case Deliver => true
    case TryLock => s.bumped > 0
    case Take => s.mutex.Taking?
    case Wake => s.mutex.Waking?
    case Poll(_) => s.listener.Idle? || s.listener.Parked?
    case AcquireLock => s.listener.WantLock? && s.mutex.Free?
    case Store => s.listener.Storing?
    case Recheck => s.listener.Rechecking?
  }

  /** Compare the counter with the last value seen: complete, or go on. */
  function Check(s: State, otherwise: Listener): State {
    if s.counter != s.lastSeen
    then s.(lastSeen := s.counter, seenAt := s.deliveries, listener := Idle, ready := s.ready + 1)
    else s.(listener := otherwise)
  }

  function Step(s: State, e: Event): State
    requires Enabled(s, e)
  {
    match e
    case Deliver =>
      s.(counter := (s.counter + 1) % WORD_LIMIT, deliveries := s.deliveries + 1, bumped := s.bumped + 1)
    case TryLock => s.(bumped := s.bumped - 1, mutex := if s.mutex.Free? then Taking else s.mutex)
    case Take => s.(slot := None, mutex := if s.slot.Some? then Waking(s.slot.value) else Free)
    case Wake =>
      s.(mutex := Free,
         woken := s.woken || (Registered(s.listener) && s.listener.waker == s.mutex.waker))
    case Poll(w) => Check(s, WantLock(w))
    case AcquireLock => s.(mutex := ByListener, listener := Storing(s.listener.waker))
    case Store =>
      s.(slot := Some(s.listener.waker), mutex := Free, woken := false, listener := Rechecking(s.listener.waker))
    case Recheck => Check(s, Parked(s.listener.waker))
  }

  /** `Signal::new` loads the counter of a listener that deliveries may already have reached. */
  predicate Init(s: State) {
    s == State(s.counter, s.counter, None, Free, s.bumped, Idle, false, s.deliveries, s.deliveries, 0)
    && s.counter == s.deliveries % WORD_LIMIT
  }

  predicate HandlerInFlight(s: State) { s.bumped > 0 || s.mutex.Taking? || s.mutex.Waking? }

  predicate Registered(l: Listener) { l.Rechecking? || l.Parked? }

  predicate Inv(s: State) {
    && s.counter == s.deliveries % WORD_LIMIT
    && s.lastSeen == s.seenAt % WORD_LIMIT
    && s.seenAt <= s.deliveries
    && (s.mutex.ByListener? <==> s.listener.Storing?)
    && (s.mutex.Waking? ==> s.slot.None?)
    && (Registered(s.listener) && !s.woken ==>
        s.slot == Some(s.listener.waker) || s.mutex == Waking(s.listener.waker))
    && (s.listener.Parked? && s.counter != s.lastSeen && !s.woken ==>
        s.mutex == Waking(s.listener.waker) || s.bumped > 0 || s.mutex.Taking?)
    && s.ready <= s.seenAt
  }

  lemma StepKeepsInv(s: State, e: Event)
    requires Inv(s) && Enabled(s, e)
    ensures Inv(Step(s, e))
  {
    match e
    case Deliver => WrapStep(s.deliveries);
    case _ =>
  }

  lemma WrapStep(n: nat)
    ensures (n % WORD_LIMIT + 1) % WORD_LIMIT == (n + 1) % WORD_LIMIT
  {
  }

  ghost predicate IsRun(states: seq<State>, events: seq<Event>) {
    && |states| == |events| + 1
    && Init(states[0])
    && forall i | 0 <= i < |events| :: Enabled(states[i], events[i]) && states[i + 1] == Step(states[i], events[i])
  }

  lemma {:induction false} InvAlong(states: seq<State>, events: seq<Event>, k: nat)
    requires IsRun(states, events) && k < |states|
    ensures Inv(states[k])
  {
    if k > 0 {
      InvAlong(states, events, k - 1);
      StepKeepsInv(states[k - 1], events[k - 1]);
    }
  }

  // ----- who is woken -----

  /** The waker of the latest poll. */
  function LastPoll(events: seq<Event>, k: nat): Option<nat>
    requires k <= |events|
  {
    if k == 0 then None else if events[k - 1].Poll? then Some(events[k - 1].waker) else LastPoll(events, k - 1)
  }

  /** A listener that is not idle deals with the waker of its latest poll. */
  lemma {:induction false} ListenerHasTheLatestWaker(states: seq<State>, events: seq<Event>, k: nat)
    requires IsRun(states, events) && k < |states| && !states[k].listener.Idle?
    ensures LastPoll(events, k) == Some(states[k].listener.waker)
  {
    if !events[k - 1].Poll? {
      ListenerHasTheLatestWaker(states, events, k - 1);
    }
  }

  /** Since the latest poll a handler has woken that waker. */
  ghost predicate WokenSince(states: seq<State>, events: seq<Event>, k: nat, waker: nat)
    requires k <= |events| < |states|
  {
    exists m | 0 <= m < k ::
      events[m].Wake? && states[m].mutex == Waking(waker) && forall i | m <= i < k :: !events[i].Poll?
  }

  lemma WokenSinceStep(states: seq<State>, events: seq<Event>, k: nat, waker: nat)
    requires 0 < k <= |events| < |states| && !events[k - 1].Poll?
    requires WokenSince(states, events, k - 1, waker) || (events[k - 1].Wake? && states[k - 1].mutex == Waking(waker))
    ensures WokenSince(states, events, k, waker)
  {
    if WokenSince(states, events, k - 1, waker) {
      var m :| 0 <= m < k - 1 && events[m].Wake? && states[m].mutex == Waking(waker)
               && forall i | m <= i < k - 1 :: !events[i].Poll?;
      assert forall i | m <= i < k :: !events[i].Poll?;
    } else {
      assert forall i | k - 1 <= i < k :: !events[i].Poll?;
    }
  }

  lemma WokenStep(s: State, e: Event)
    requires Enabled(s, e) && Registered(Step(s, e).listener) && Step(s, e).woken
    ensures !e.Poll?
    ensures || (Registered(s.listener) && s.woken && s.listener.waker == Step(s, e).listener.waker)
            || (e.Wake? && s.mutex == Waking(Step(s, e).listener.waker))
  {
  }

  lemma {:induction false} WokenMeans(states: seq<State>, events: seq<Event>, k: nat)
    requires IsRun(states, events) && k < |states| && Registered(states[k].listener) && states[k].woken
    ensures WokenSince(states, events, k, states[k].listener.waker)
  {
    WokenStep(states[k - 1], events[k - 1]);
    if Registered(states[k - 1].listener) && states[k - 1].woken {
      WokenMeans(states, events, k - 1);
    }
    WokenSinceStep(states, events, k, states[k].listener.waker);
  }

  /** No lost notification: once no handler is in flight, a parked listener has been woken through
      the waker of its latest poll, or there is nothing new to see. */
  lemma NotificationNotLost(states: seq<State>, events: seq<Event>, k: nat)
    requires IsRun(states, events) && k < |states|
    requires states[k].listener.Parked? && !HandlerInFlight(states[k])
    ensures LastPoll(events, k).Some?
    ensures WokenSince(states, events, k, LastPoll(events, k).value) || states[k].counter == states[k].lastSeen
  {
    InvAlong(states, events, k);
    ListenerHasTheLatestWaker(states, events, k);
    if states[k].woken {
      WokenMeans(states, events, k);
    }
  }

  /** A poll that finds something new is ready at once. */
  lemma NewsIsReady(s: State, e: Event)
    requires Enabled(s, e) && (e.Poll? || e.Recheck?)
    ensures Step(s, e).ready > s.ready <==> s.counter != s.lastSeen
    ensures Step(s, e).ready > s.ready ==> Step(s, e).listener.Idle? && Step(s, e).lastSeen == s.counter
  {
  }

  /** How often the signal was delivered. */
  function Delivered(events: seq<Event>, k: nat): nat
    requires k <= |events|
  {
    if k == 0 then 0 else Delivered(events, k - 1) + if events[k - 1].Deliver? then 1 else 0
  }

  lemma {:induction false} DeliveriesAreCounted(states: seq<State>, events: seq<Event>, k: nat)
    requires IsRun(states, events) && k < |states|
    ensures states[k].deliveries == states[0].deliveries + Delivered(events, k)
  {
    if k > 0 {
      DeliveriesAreCounted(states, events, k - 1);
    }
  }

  /** What "nothing new" means, given that the counter wraps: it can hide deliveries only in
      exact multiples of 2^64 since the last look, and none below that. */
  lemma NothingNewMeansNoDelivery(states: seq<State>, events: seq<Event>, k: nat)
    requires IsRun(states, events) && k < |states|
    ensures var s := states[k];
            && s.seenAt <= s.deliveries
            && (s.counter == s.lastSeen <==> (s.deliveries - s.seenAt) % WORD_LIMIT == 0)
            && (s.deliveries - s.seenAt < WORD_LIMIT ==>
                (s.counter == s.lastSeen <==> s.deliveries == s.seenAt))
  {
    InvAlong(states, events, k);
    SameRemainder(states[k].deliveries, states[k].seenAt);
  }

  lemma SameRemainder(a: nat, b: nat)
    requires b <= a
    ensures a % WORD_LIMIT == b % WORD_LIMIT <==> (a - b) % WORD_LIMIT == 0
  {
    var q, r := a / WORD_LIMIT, b / WORD_LIMIT;
    assert a - b == (q - r) * WORD_LIMIT + (a % WORD_LIMIT - b % WORD_LIMIT);
  }

  /** `recv` completes only for deliveries made since the last time it looked, so it never
      completes more often than the signal was delivered. */
  lemma ReadyOnlyOnDelivery(states: seq<State>, events: seq<Event>, k: nat)
    requires IsRun(states, events) && k < |events|
    ensures states[k + 1].ready != states[k].ready ==>
              states[k + 1].ready == states[k].ready + 1 && states[k].deliveries > states[k].seenAt
    ensures states[k].ready <= Delivered(events, k)
  {
    InvAlong(states, events, k);
    DeliveriesAreCounted(states, events, k);
    ReadyAfterStart(states, events, k);
  }

  lemma {:induction false} ReadyAfterStart(states: seq<State>, events: seq<Event>, k: nat)
    requires IsRun(states, events) && k < |states|
    ensures states[k].ready + states[0].deliveries <= states[k].seenAt
  {
    if k > 0 {
      ReadyAfterStart(states, events, k - 1);
      InvAlong(states, events, k - 1);
    }
  }
}
