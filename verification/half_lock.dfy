/** The half-lock of the signal registry: readers that only bump one of two counters, and a
    writer that swaps a pointer and then waits until both counters have been seen at zero
    before freeing the old value. Readers are unboundedly many and may be interrupted between
    any two of their operations; every load of the writer's spin loop is a step of its own. */
module HalfLock {
  import opened Basics

  /** `isize::MAX`: a reader that finds more guards than this aborts the process. */
  const MAX_GUARDS: nat := 0x7fff_ffff_ffff_ffff

  /** A call of `read`: generation loaded, counter bumped, pointer loaded. */
  datatype Reader =
    | Entering(slot: nat)
    | Locked(slot: nat)
    | Holding(slot: nat, ptr: nat)

  /** The thread that owns the write mutex. `seen0` and `seen1` are the `seen_zero` array. */
  datatype Writer =
    | NoWriter
    | Loading(retired: nat, flipped: bool, slot: nat, seen0: bool, seen1: bool)
    | Flipping(retired: nat, seen0: bool, seen1: bool)
    | Freeing(retired: nat)

  datatype Lock = Lock(
    data: nat,
    generation: nat,
    lock0: nat, lock1: nat,
    writer: Writer,
    readers: map<nat, Reader>,
    nextPtr: nat,       // allocation order names the values ever stored
    freed: set<nat>)

  datatype Event =
    | ReadGeneration(r: nat) | ReadLock(r: nat) | ReadData(r: nat) | ReadUnlock(r: nat)
    | WriteSwap | WriteLoad | WriteFlip | WriteFree

  function Count(s: Lock, slot: nat): nat { if slot == 0 then s.lock0 else s.lock1 }

  function SetCount(s: Lock, slot: nat, n: nat): Lock {
    if slot == 0 then s.(lock0 := n) else s.(lock1 := n)
  }

  predicate Enabled(s: Lock, e: Event) {
    match e
    case ReadGeneration(r) => r !in s.readers
    case ReadLock(r) => r in s.readers && s.readers[r].Entering? && Count(s, s.readers[r].slot) <= MAX_GUARDS
    case ReadData(r) => r in s.readers && s.readers[r].Locked?
    case ReadUnlock(r) => r in s.readers && s.readers[r].Holding?
    case WriteSwap => s.writer.NoWriter?
    case WriteLoad => s.writer.Loading?
    case WriteFlip => s.writer.Flipping?
    case WriteFree => s.writer.Freeing?
  }

  function DoReadLock(s: Lock, r: nat): Lock
    requires r in s.readers
  {
    var slot := s.readers[r].slot;
    SetCount(s.(readers := s.readers[r := Locked(slot)]), slot, Count(s, slot) + 1)
  }

  function DoReadUnlock(s: Lock, r: nat): Lock
    requires r in s.readers
  {
    var slot := s.readers[r].slot;
    var n := Count(s, slot);
    SetCount(s.(readers := s.readers - {r}), slot, if n > 0 then n - 1 else WORD_LIMIT - 1)
  }

  /** The loop condition of `write_barrier`. */
  function CheckSeen(retired: nat, seen0: bool, seen1: bool): Writer {
    if seen0 && seen1 then Freeing(retired) else Loading(retired, true, 0, seen0, seen1)
  }

  /** One slot of `update_seen`; a slot already seen is not loaded again. */
  function DoWriteLoad(s: Lock): Lock
    requires s.writer.Loading?
  {
    var w := s.writer;
    if w.slot == 0 then s.(writer := w.(slot := 1, seen0 := w.seen0 || s.lock0 == 0))
    else
      var seen1 := w.seen1 || s.lock1 == 0;
      s.(writer := if w.flipped then CheckSeen(w.retired, w.seen0, seen1) else Flipping(w.retired, w.seen0, seen1))
  }

  function Step(s: Lock, e: Event): Lock
    requires Enabled(s, e)
  {
    match e
    case ReadGeneration(r) => s.(readers := s.readers[r := Entering(s.generation % 2)])
    case ReadLock(r) => DoReadLock(s, r)
    case ReadData(r) => s.(readers := s.readers[r := Holding(s.readers[r].slot, s.data)])
    case ReadUnlock(r) => DoReadUnlock(s, r)
    case WriteSwap =>
      s.(data := s.nextPtr, nextPtr := s.nextPtr + 1, writer := Loading(s.data, false, 0, false, false))
    case WriteLoad => DoWriteLoad(s)
    case WriteFlip =>
      s.(generation := (s.generation + 1) % WORD_LIMIT,
         writer := CheckSeen(s.writer.retired, s.writer.seen0, s.writer.seen1))
    case WriteFree => s.(freed := s.freed + {s.writer.retired}, writer := NoWriter)
  }

  const INIT: Lock := Lock(0, 0, 0, 0, NoWriter, map[], 1, {})

  // ----- invariant -----

  /** Readers counted in `slot`. */
  function Guards(s: Lock, slot: nat): set<nat> {
    set r | r in s.readers && !s.readers[r].Entering? && s.readers[r].slot == slot
  }

  predicate Seen(w: Writer, slot: nat) {
    match w
    case NoWriter => false
    case Loading(_, _, _, s0, s1) => if slot == 0 then s0 else s1
    case Flipping(_, s0, s1) => if slot == 0 then s0 else s1
    case Freeing(_) => true
  }

  predicate CountersExact(s: Lock) {
    && s.lock0 == |Guards(s, 0)|
    && s.lock1 == |Guards(s, 1)|
    && (forall r | r in s.readers :: s.readers[r].slot < 2)
  }

  /** A reader's pointer is the current value, or the value being retired through a slot the
      writer has not yet seen empty. */
  predicate Protected(s: Lock) {
    forall r | r in s.readers && s.readers[r].Holding? ::
      s.readers[r].ptr == s.data
      || (!s.writer.NoWriter? && s.readers[r].ptr == s.writer.retired && !Seen(s.writer, s.readers[r].slot))
  }

  predicate Pointers(s: Lock) {
    && s.data < s.nextPtr && s.data !in s.freed
    && (!s.writer.NoWriter? ==> s.writer.retired < s.nextPtr && s.writer.retired != s.data && s.writer.retired !in s.freed)
    && (forall p | p in s.freed :: p < s.nextPtr)
    && (s.writer.Loading? ==> s.writer.slot < 2)
  }

  predicate Inv(s: Lock) { CountersExact(s) && Protected(s) && Pointers(s) }

  lemma ReadLockKeepsCounters(s: Lock, r: nat)
    requires CountersExact(s) && Enabled(s, ReadLock(r))
    ensures CountersExact(DoReadLock(s, r))
  {
    var t, i := DoReadLock(s, r), s.readers[r].slot;
    assert r !in Guards(s, i);
    if i == 0 {
      assert Guards(t, 0) == Guards(s, 0) + {r};
      assert Guards(t, 1) == Guards(s, 1);
    } else {
      assert Guards(t, 1) == Guards(s, 1) + {r};
      assert Guards(t, 0) == Guards(s, 0);
    }
  }

  lemma ReadUnlockKeepsCounters(s: Lock, r: nat)
    requires CountersExact(s) && Enabled(s, ReadUnlock(r))
    ensures CountersExact(DoReadUnlock(s, r))
  {
    var t, i := DoReadUnlock(s, r), s.readers[r].slot;
    assert r in Guards(s, i);
    assert Guards(t, i) == Guards(s, i) - {r};
    assert Guards(t, 1 - i) == Guards(s, 1 - i);
  }

  lemma ReadLoadKeepsCounters(s: Lock, e: Event)
    requires CountersExact(s) && Enabled(s, e) && (e.ReadGeneration? || e.ReadData?)
    ensures CountersExact(Step(s, e))
  {
    var t := Step(s, e);
    assert Guards(t, 0) == Guards(s, 0);
    assert Guards(t, 1) == Guards(s, 1);
  }

  /** A slot at zero holds nobody, so nobody holds the old pointer through it any more. */
  lemma ZeroMeansEmpty(s: Lock, slot: nat, r: nat)
    requires CountersExact(s) && slot < 2 && Count(s, slot) == 0
    requires r in s.readers && s.readers[r].slot == slot
    ensures s.readers[r].Entering?
  {
    assert !s.readers[r].Entering? ==> r in Guards(s, slot);
  }

  lemma WriterKeepsInv(s: Lock, e: Event)
    requires Inv(s) && Enabled(s, e)
    requires e.WriteSwap? || e.WriteLoad? || e.WriteFlip? || e.WriteFree?
    ensures Inv(Step(s, e))
  {
    var t := Step(s, e);
    assert Guards(t, 0) == Guards(s, 0) && Guards(t, 1) == Guards(s, 1);
    if e.WriteLoad? && Count(s, s.writer.slot) == 0 {
      forall r | r in s.readers && s.readers[r].slot == s.writer.slot ensures s.readers[r].Entering? {
        ZeroMeansEmpty(s, s.writer.slot, r);
      }
    }
  }

  lemma StepKeepsInv(s: Lock, e: Event)
    requires Inv(s) && Enabled(s, e)
    ensures Inv(Step(s, e))
  {
    match e
    case ReadLock(r) => ReadLockKeepsCounters(s, r);
    case ReadUnlock(r) => ReadUnlockKeepsCounters(s, r);
    case ReadGeneration(_) => ReadLoadKeepsCounters(s, e);
    case ReadData(_) => ReadLoadKeepsCounters(s, e);
    case _ => WriterKeepsInv(s, e);
  }

  // ----- every run -----

  ghost predicate IsRun(states: seq<Lock>, events: seq<Event>) {
    && |states| == |events| + 1
    && states[0] == INIT
    && forall i | 0 <= i < |events| :: Enabled(states[i], events[i]) && states[i + 1] == Step(states[i], events[i])
  }

  lemma {:induction false} InvAlong(states: seq<Lock>, events: seq<Event>, k: nat)
    requires IsRun(states, events) && k < |states|
    ensures Inv(states[k])
  {
    if k > 0 {
      InvAlong(states, events, k - 1);
      StepKeepsInv(states[k - 1], events[k - 1]);
    } else {
      assert Guards(INIT, 0) == {} && Guards(INIT, 1) == {};
    }
  }

  /** Safety: a pointer a reader holds has not been freed, and in particular no reader holds the
      value the writer is about to free. The value readers will load next is never freed. */
  lemma NoUseAfterFree(states: seq<Lock>, events: seq<Event>, k: nat, r: nat)
    requires IsRun(states, events) && k < |states|
    ensures states[k].data !in states[k].freed
    ensures r in states[k].readers && states[k].readers[r].Holding? ==>
              && states[k].readers[r].ptr !in states[k].freed
              && (states[k].writer.Freeing? ==> states[k].readers[r].ptr != states[k].writer.retired)
  {
    InvAlong(states, events, k);
  }

  /** Each value is freed at most once, after it was replaced. */
  lemma FreedOnce(states: seq<Lock>, events: seq<Event>, k: nat)
    requires IsRun(states, events) && k < |events| && events[k].WriteFree?
    ensures states[k].writer.retired !in states[k].freed && states[k].writer.retired != states[k].data
  {
    InvAlong(states, events, k);
  }

  lemma StepRetires(s: Lock, e: Event, p: nat)
    requires Inv(s) && Enabled(s, e)
    requires p in s.freed <==> p < s.nextPtr && p != s.data && !(!s.writer.NoWriter? && p == s.writer.retired)
    ensures var t := Step(s, e);
            p in t.freed <==> p < t.nextPtr && p != t.data && !(!t.writer.NoWriter? && p == t.writer.retired)
  {
  }

  /** Nothing leaks: of the values ever stored, exactly those are freed that are neither current nor
      being retired by the writer at work; so whenever there is no writer, all replaced values are. */
  lemma {:induction false} ReplacedIsFreed(states: seq<Lock>, events: seq<Event>, k: nat, p: nat)
    requires IsRun(states, events) && k < |states|
    ensures var s := states[k];
            p in s.freed <==> p < s.nextPtr && p != s.data && !(!s.writer.NoWriter? && p == s.writer.retired)
  {
    if k > 0 {
      ReplacedIsFreed(states, events, k - 1, p);
      InvAlong(states, events, k - 1);
      StepRetires(states[k - 1], events[k - 1], p);
    }
  }

  /** How many values were stored so far. */
  function Stores(events: seq<Event>, k: nat): nat
    requires k <= |events|
  {
    if k == 0 then 0 else Stores(events, k - 1) + if events[k - 1].WriteSwap? then 1 else 0
  }

  lemma {:induction false} CurrentIsTheLastStored(states: seq<Lock>, events: seq<Event>, k: nat)
    requires IsRun(states, events) && k < |states|
    ensures states[k].data == Stores(events, k) && states[k].nextPtr == Stores(events, k) + 1
  {
    if k > 0 {
      CurrentIsTheLastStored(states, events, k - 1);
    }
  }

  /** A reader gets the value stored last, and keeps it until it unlocks. */
  lemma {:induction false} ReaderHoldsWhatItLoaded(states: seq<Lock>, events: seq<Event>, j: nat, k: nat, r: nat)
    requires IsRun(states, events) && j < k < |states| && events[j] == ReadData(r)
    requires forall m | j < m < k :: events[m] != ReadUnlock(r)
    ensures r in states[k].readers && states[k].readers[r].Holding? && states[k].readers[r].ptr == Stores(events, j)
  {
    if j + 1 < k {
      ReaderHoldsWhatItLoaded(states, events, j, k - 1, r);
      HoldingStays(states[k - 1], events[k - 1], r);
    } else {
      CurrentIsTheLastStored(states, events, j);
    }
  }

  lemma HoldingStays(s: Lock, e: Event, r: nat)
    requires Enabled(s, e) && e != ReadUnlock(r) && r in s.readers && s.readers[r].Holding?
    ensures r in Step(s, e).readers && Step(s, e).readers[r] == s.readers[r]
  {
  }

  // ----- draining -----

  /** Readers that hold, or can still enter, `slot`. */
  function Bound(s: Lock, slot: nat): set<nat> {
    set r | r in s.readers && s.readers[r].slot == slot
  }

  lemma StepDrains(s: Lock, e: Event, slot: nat)
    requires Enabled(s, e) && !e.WriteFlip? && slot != s.generation % 2
    ensures Bound(Step(s, e), slot) <= Bound(s, slot)
    ensures Step(s, e).generation == s.generation
  {
  }

  /** Drain: after a generation flip, and until the next one, the readers of the retiring slot
      never grow in number, so the slot empties when those that are left finish … */
  lemma {:induction false} RetiringSlotDrains(states: seq<Lock>, events: seq<Event>, j: nat, k: nat, slot: nat)
    requires IsRun(states, events) && j <= k < |states|
    requires forall i | j <= i < k :: !events[i].WriteFlip?
    requires slot != states[j].generation % 2
    ensures Bound(states[k], slot) <= Bound(states[j], slot)
    ensures states[k].generation == states[j].generation
  {
    if j < k {
      RetiringSlotDrains(states, events, j, k - 1, slot);
      StepDrains(states[k - 1], events[k - 1], slot);
    }
  }

  /** … and the flip does retire the slot that was active before it; … */
  lemma FlipRetiresTheActiveSlot(s: Lock)
    requires s.writer.Flipping?
    ensures Step(s, WriteFlip).generation % 2 != s.generation % 2
  {
  }

  /** … once it is empty, the writer's next look at it ends the wait for it. */
  lemma EmptySlotIsSeen(states: seq<Lock>, events: seq<Event>, k: nat)
    requires IsRun(states, events) && k < |events| && events[k].WriteLoad?
    requires Bound(states[k], states[k].writer.slot) == {}
    ensures Seen(states[k + 1].writer, states[k].writer.slot)
  {
    InvAlong(states, events, k);
    var s := states[k];
    assert Guards(s, s.writer.slot) <= Bound(s, s.writer.slot);
  }

  /** Having flipped, the writer starts another round only for a slot it has not seen empty, and the
      round in which it has seen both ends the barrier. */
  lemma {:induction false} WaitsOnlyForReaders(states: seq<Lock>, events: seq<Event>, k: nat)
    requires IsRun(states, events) && k < |states| && states[k].writer.Loading? && states[k].writer.flipped
    ensures states[k].writer.slot == 0 ==> !states[k].writer.seen0 || !states[k].writer.seen1
    ensures k < |events| && events[k].WriteLoad? && states[k].writer.slot == 1 ==>
              (states[k + 1].writer.Freeing? <==>
                 Seen(states[k].writer, 0) && (Seen(states[k].writer, 1) || states[k].lock1 == 0))
  {
    var s, e := states[k - 1], events[k - 1];
    if s.writer.Loading? && s.writer.flipped {
      WaitsOnlyForReaders(states, events, k - 1);
      InvAlong(states, events, k - 1);
    }
  }

  /** What the writer has seen empty it does not wait for again. */
  lemma SeenStaysSeen(s: Lock, e: Event, slot: nat)
    requires Enabled(s, e) && Seen(s.writer, slot) && !e.WriteFree?
    ensures Seen(Step(s, e).writer, slot)
  {
  }

  /** The comment in `write_barrier` says one slot is always zero when a barrier starts, because
      the previous writer drained it. Here is a run where neither is: the previous writer saw
      both at zero before its flip, and a reader entered between that look and the flip. The
      barrier is still safe; only the expectation of an already drained slot fails. */
  lemma BarrierCanStartWithBothSlotsBusy() returns (states: seq<Lock>, events: seq<Event>)
    ensures IsRun(states, events)
    ensures var s := states[|events|];
            s.writer.Loading? && !s.writer.flipped && s.writer.slot == 0 && s.lock0 > 0 && s.lock1 > 0
  {
    events := [WriteSwap, WriteLoad, WriteLoad, ReadGeneration(0), ReadLock(0), WriteFlip, WriteFree,
               ReadGeneration(1), ReadLock(1), WriteSwap];
    var s1 := Step(INIT, WriteSwap);
    var s2 := Step(s1, WriteLoad);
    var s3 := Step(s2, WriteLoad);
    var s4 := Step(s3, ReadGeneration(0));
    var s5 := Step(s4, ReadLock(0));
    var s6 := Step(s5, WriteFlip);
    var s7 := Step(s6, WriteFree);
    var s8 := Step(s7, ReadGeneration(1));
    var s9 := Step(s8, ReadLock(1));
    var s10 := Step(s9, WriteSwap);
    assert s10.writer.Loading? && !s10.writer.flipped && s10.writer.slot == 0 && s10.lock0 > 0 && s10.lock1 > 0;
    states := [INIT, s1, s2, s3, s4, s5, s6, s7, s8, s9, s10];
    hide Step, Enabled;
  }
}
