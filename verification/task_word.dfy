/** The packed task state word: six flag bits and a reference count in one `usize`.

    Two descriptions of every transition live here. The functions on `Snapshot` are the
    readable ones and are what the task protocol (module `TaskCell`) is built from. The `Raw`
    functions work on the 64-bit word exactly as the source's bit operations do. The
    `…Refines` lemmas show that the second is the first under `Unpack`, so no operation on the
    count ever disturbs a flag, and no flag operation the count. */
module TaskWord {
  import opened Basics

  /** `isize::MAX`: the largest word to which a reference may be added. */
  const INC_LIMIT: nat := 0x7fff_ffff_ffff_ffff
  /** The number of references at which that limit is passed. */
  const REF_LIMIT: nat := 0x0200_0000_0000_0000

  // Bit positions of the flags; the count occupies the bits from REF_SHIFT upwards.
  const RUNNING: nat := 0
  const COMPLETE: nat := 1
  const NOTIFIED: nat := 2
  const JOIN_INTEREST: nat := 3
  const JOIN_WAKER: nat := 4
  const CANCELLED: nat := 5
  const REF_SHIFT: nat := 6
  const REF_ONE: nat := 64

  /** Two references, `JOIN_INTEREST` and `NOTIFIED`. */
  const INITIAL_STATE: nat := 2 * 64 + 8 + 4

  datatype Snapshot = Snapshot(
    running: bool, complete: bool, notified: bool,
    joinInterest: bool, joinWaker: bool, cancelled: bool,
    refs: nat)
  {
    predicate Idle() { !running && !complete }
  }

  const INITIAL: Snapshot := Snapshot(false, false, true, true, false, false, 2)

  // ----- the closures handed to `fetch_update`, as functions of the decoded word -----

  /** What one pass of a `fetch_update` closure decides: fail an assertion, return without
      writing, or return and write. */
  datatype Update<A, W> = Panicked | Keep(action: A) | Swap(action: A, next: W)

  datatype RunAction = RunSuccess | RunCancelled | RunFailed | RunDealloc
  datatype IdleAction = IdleOk | IdleNotified | IdleDealloc | IdleCancelled
  datatype NotifyAction = NotifyNothing | NotifySubmit | NotifyDealloc
  datatype CancelAction = CancelNothing | CancelSubmit
  datatype JoinHandleDrop = JoinHandleDrop(dropWaker: bool, dropOutput: bool)

  function ToRunning(s: Snapshot): Update<RunAction, Snapshot> {
    if !s.notified then Panicked
    else if !s.Idle() then
      if s.refs == 0 then Panicked
      else Swap(if s.refs == 1 then RunDealloc else RunFailed, s.(refs := s.refs - 1))
    else
      Swap(if s.cancelled then RunCancelled else RunSuccess, s.(running := true, notified := false))
  }

  function ToIdle(s: Snapshot): Update<IdleAction, Snapshot> {
    if !s.running then Panicked
    else if s.cancelled then Keep(IdleCancelled)
    else if !s.notified then
      if s.refs == 0 then Panicked
      else Swap(if s.refs == 1 then IdleDealloc else IdleOk, s.(running := false, refs := s.refs - 1))
    else if !CanInc(s) then Panicked
    else Swap(IdleNotified, s.(running := false, refs := s.refs + 1))
  }

  function ToNotifiedByVal(s: Snapshot): Update<NotifyAction, Snapshot> {
    if s.running then
      if s.refs <= 1 then Panicked
      else Swap(NotifyNothing, s.(notified := true, refs := s.refs - 1))
    else if s.complete || s.notified then
      if s.refs == 0 then Panicked
      else Swap(if s.refs == 1 then NotifyDealloc else NotifyNothing, s.(refs := s.refs - 1))
    else if !CanInc(s) then Panicked
    else Swap(NotifySubmit, s.(notified := true, refs := s.refs + 1))
  }

  function ToNotifiedByRef(s: Snapshot): Update<NotifyAction, Snapshot> {
    if s.complete then Keep(NotifyNothing)
    else if s.notified then Swap(NotifyNothing, s)
    else if s.running then Swap(NotifyNothing, s.(notified := true))
    else if !CanInc(s) then Panicked
    else Swap(NotifySubmit, s.(notified := true, refs := s.refs + 1))
  }

  function ToCancelled(s: Snapshot): Update<CancelAction, Snapshot> {
    if s.complete || s.cancelled then Keep(CancelNothing)
    else if s.Idle() && !s.notified then
      if !CanInc(s) then Panicked
      else Swap(CancelSubmit, s.(cancelled := true, notified := true, refs := s.refs + 1))
    else Swap(CancelNothing, s.(cancelled := true))
  }

  function ToJoinHandleDropped(s: Snapshot): Update<JoinHandleDrop, Snapshot> {
    if !s.joinInterest then Panicked
    else
      var n := if s.complete then s.(joinInterest := false) else s.(joinInterest := false, joinWaker := false);
      Swap(JoinHandleDrop(!n.joinWaker, s.complete), n)
  }

  function SetJoinWaker(s: Snapshot): Update<(), Snapshot> {
    if !s.joinInterest || s.joinWaker then Panicked
    else if s.complete then Keep(())
    else Swap((), s.(joinWaker := true))
  }

  function UnsetWaker(s: Snapshot): Update<(), Snapshot> {
    if !s.joinInterest then Panicked
    else if s.complete then Keep(())
    else if !s.joinWaker then Panicked
    else Swap((), s.(joinWaker := false))
  }

  /** The assertion guarding every increment (`WordBounds` relates it to the word). */
  predicate CanInc(s: Snapshot) { s.refs < REF_LIMIT }

  // ----- the word -----

  /** Bit `k` of `w`. */
  predicate Has(w: nat, k: nat)
  {
    if k == 0 then w % 2 == 1 else Has(w / 2, k - 1)
  }

  /** `w >> k`. */
  function Shr(w: nat, k: nat): nat
  {
    if k == 0 then w else Shr(w / 2, k - 1)
  }

  /** `w | (1 << k)` when `b`, `w & !(1 << k)` otherwise. */
  function Put(w: nat, k: nat, b: bool): nat
  {
    if k == 0 then 2 * (w / 2) + (if b then 1 else 0) else 2 * Put(w / 2, k - 1, b) + w % 2
  }

  function Set(w: nat, k: nat): nat { Put(w, k, true) }

  function Clear(w: nat, k: nat): nat { Put(w, k, false) }

  /** `w + (1 << k)` (or minus), computed on the bits from `k` upwards. */
  function Bump(w: nat, k: nat, up: bool): nat
    requires up || Shr(w, k) >= 1
  {
    if k == 0 then if up then w + 1 else w - 1 else 2 * Bump(w / 2, k - 1, up) + w % 2
  }

  function Unpack(w: nat): Snapshot {
    Snapshot(Has(w, RUNNING), Has(w, COMPLETE), Has(w, NOTIFIED),
             Has(w, JOIN_INTEREST), Has(w, JOIN_WAKER), Has(w, CANCELLED), Shr(w, REF_SHIFT))
  }

  lemma {:induction false} HasPut(w: nat, k: nat, b: bool, j: nat)
    ensures Has(Put(w, k, b), j) == if j == k then b else Has(w, j)
  {
    if k > 0 && j > 0 {
      HasPut(w / 2, k - 1, b, j - 1);
    }
  }

  lemma {:induction false} ShrPut(w: nat, k: nat, b: bool, j: nat)
    requires k < j
    ensures Shr(Put(w, k, b), j) == Shr(w, j)
  {
    if k > 0 {
      ShrPut(w / 2, k - 1, b, j - 1);
    }
  }

  lemma {:induction false} HasBump(w: nat, k: nat, up: bool, j: nat)
    requires j < k
    requires up || Shr(w, k) >= 1
    ensures Has(Bump(w, k, up), j) == Has(w, j)
  {
    if j > 0 {
      HasBump(w / 2, k - 1, up, j - 1);
    }
  }

  lemma {:induction false} ShrBump(w: nat, k: nat, up: bool)
    requires up || Shr(w, k) >= 1
    ensures Shr(Bump(w, k, up), k) == if up then Shr(w, k) + 1 else Shr(w, k) - 1
  {
    if k > 0 {
      ShrBump(w / 2, k - 1, up);
    }
  }

  function Pow2(k: nat): (p: nat)
    ensures p >= 1
  {
    if k == 0 then 1 else 2 * Pow2(k - 1)
  }

  /** `Bump` is the machine's addition and subtraction of `1 << k`. */
  lemma {:induction false} BumpIsArithmetic(w: nat, k: nat, up: bool)
    ensures Shr(w, k) >= 1 <==> w >= Pow2(k)
    ensures up ==> Bump(w, k, up) == w + Pow2(k)
    ensures !up && Shr(w, k) >= 1 ==> Bump(w, k, up) == w - Pow2(k)
  {
    if k > 0 {
      BumpIsArithmetic(w / 2, k - 1, up);
    }
  }

  /** The word and its decoding determine each other. */
  lemma UnpackInjective(v: nat, w: nat)
    requires Unpack(v) == Unpack(w)
    ensures v == w
  {
    BitsDetermine(v, w, REF_SHIFT);
  }

  lemma {:induction false} BitsDetermine(v: nat, w: nat, k: nat)
    requires forall j | 0 <= j < k :: Has(v, j) == Has(w, j)
    requires Shr(v, k) == Shr(w, k)
    ensures v == w
  {
    if k > 0 {
      assert Has(v, 0) == Has(w, 0);
      forall j | 0 <= j < k - 1 ensures Has(v / 2, j) == Has(w / 2, j) {
        assert Has(v, j + 1) == Has(w, j + 1);
      }
      BitsDetermine(v / 2, w / 2, k - 1);
    }
  }

  /** The decoded word with one flag replaced. */
  function With(s: Snapshot, k: nat, b: bool): Snapshot {
    s.(running := if k == RUNNING then b else s.running,
       complete := if k == COMPLETE then b else s.complete,
       notified := if k == NOTIFIED then b else s.notified,
       joinInterest := if k == JOIN_INTEREST then b else s.joinInterest,
       joinWaker := if k == JOIN_WAKER then b else s.joinWaker,
       cancelled := if k == CANCELLED then b else s.cancelled)
  }

  /** Setting or clearing a flag changes that flag and nothing else. */
  lemma FlagOp(w: nat, k: nat, b: bool)
    requires k < REF_SHIFT
    ensures Unpack(Put(w, k, b)) == With(Unpack(w), k, b)
  {
    forall j | 0 <= j < REF_SHIFT ensures Has(Put(w, k, b), j) == if j == k then b else Has(w, j) {
      HasPut(w, k, b, j);
    }
    ShrPut(w, k, b, REF_SHIFT);
  }

  /** Adding or subtracting one reference changes the count and no flag. */
  lemma CountOp(w: nat, up: bool)
    requires up || w >= REF_ONE
    ensures Shr(w, REF_SHIFT) >= 1 <==> w >= REF_ONE
    ensures Unpack(if up then w + REF_ONE else w - REF_ONE)
            == Unpack(w).(refs := if up then Unpack(w).refs + 1 else Unpack(w).refs - 1)
  {
    BumpIsArithmetic(w, REF_SHIFT, up);
    forall j | 0 <= j < REF_SHIFT ensures Has(Bump(w, REF_SHIFT, up), j) == Has(w, j) {
      HasBump(w, REF_SHIFT, up, j);
    }
    ShrBump(w, REF_SHIFT, up);
  }

  /** The two width checks of the source, read off the count. */
  lemma WordBounds(w: nat)
    ensures w <= INC_LIMIT <==> Unpack(w).refs < REF_LIMIT
    ensures w < WORD_LIMIT <==> Unpack(w).refs < 2 * REF_LIMIT
  {
    var a, b, c := w / 2, w / 2 / 2, w / 2 / 2 / 2;
    var d, e := c / 2, c / 2 / 2;
    assert Shr(w, 6) == Shr(a, 5);
    assert Shr(a, 5) == Shr(b, 4);
    assert Shr(b, 4) == Shr(c, 3);
    assert Shr(c, 3) == Shr(d, 2);
    assert Shr(d, 2) == Shr(e, 1);
    assert Shr(e, 1) == Shr(e / 2, 0) == e / 2;
  }

  // ----- the closures on the word itself -----

  function RefCount(w: nat): nat { Shr(w, REF_SHIFT) }

  /** `Snapshot::ref_inc`: assert, then add. */
  function RawInc<A>(action: A, w: nat): Update<A, nat> {
    if w > INC_LIMIT then Panicked else Swap(action, w + REF_ONE)
  }

  /** `Snapshot::ref_dec`: assert, then subtract. */
  function RawDec(w: nat): Update<(), nat> {
    if RefCount(w) == 0 || w < REF_ONE then Panicked else Swap((), w - REF_ONE)
  }

  function RawToRunning(w: nat): Update<RunAction, nat> {
    if !Has(w, NOTIFIED) then Panicked
    else if Has(w, RUNNING) || Has(w, COMPLETE) then
      match RawDec(w)
      case Swap(_, n) => Swap(if RefCount(n) == 0 then RunDealloc else RunFailed, n)
      case _ => Panicked
    else
      var n := Clear(Set(w, RUNNING), NOTIFIED);
      Swap(if Has(n, CANCELLED) then RunCancelled else RunSuccess, n)
  }

  function RawToIdle(w: nat): Update<IdleAction, nat> {
    if !Has(w, RUNNING) then Panicked
    else if Has(w, CANCELLED) then Keep(IdleCancelled)
    else
      var n := Clear(w, RUNNING);
      if !Has(n, NOTIFIED) then
        match RawDec(n)
        case Swap(_, m) => Swap(if RefCount(m) == 0 then IdleDealloc else IdleOk, m)
        case _ => Panicked
      else RawInc(IdleNotified, n)
  }

  function RawToNotifiedByVal(w: nat): Update<NotifyAction, nat> {
    if Has(w, RUNNING) then
      match RawDec(Set(w, NOTIFIED))
      case Swap(_, n) => if RefCount(n) > 0 then Swap(NotifyNothing, n) else Panicked
      case _ => Panicked
    else if Has(w, COMPLETE) || Has(w, NOTIFIED) then
      match RawDec(w)
      case Swap(_, n) => Swap(if RefCount(n) == 0 then NotifyDealloc else NotifyNothing, n)
      case _ => Panicked
    else RawInc(NotifySubmit, Set(w, NOTIFIED))
  }

  function RawToNotifiedByRef(w: nat): Update<NotifyAction, nat> {
    if Has(w, COMPLETE) then Keep(NotifyNothing)
    else if Has(w, NOTIFIED) then Swap(NotifyNothing, w)
    else if Has(w, RUNNING) then Swap(NotifyNothing, Set(w, NOTIFIED))
    else RawInc(NotifySubmit, Set(w, NOTIFIED))
  }

  function RawToCancelled(w: nat): Update<CancelAction, nat> {
    if Has(w, COMPLETE) || Has(w, CANCELLED) then Keep(CancelNothing)
    else
      var n := Set(w, CANCELLED);
      if !Has(n, RUNNING) && !Has(n, COMPLETE) && !Has(n, NOTIFIED)
      then RawInc(CancelSubmit, Set(n, NOTIFIED))
      else Swap(CancelNothing, n)
  }

  function RawToJoinHandleDropped(w: nat): Update<JoinHandleDrop, nat> {
    if !Has(w, JOIN_INTEREST) then Panicked
    else
      var n := Clear(w, JOIN_INTEREST);
      var m := if !Has(n, COMPLETE) then Clear(n, JOIN_WAKER) else n;
      Swap(JoinHandleDrop(!Has(m, JOIN_WAKER), Has(n, COMPLETE)), m)
  }

  function RawSetJoinWaker(w: nat): Update<(), nat> {
    if !Has(w, JOIN_INTEREST) || Has(w, JOIN_WAKER) then Panicked
    else if Has(w, COMPLETE) then Keep(())
    else Swap((), Set(w, JOIN_WAKER))
  }

  function RawUnsetWaker(w: nat): Update<(), nat> {
    if !Has(w, JOIN_INTEREST) then Panicked
    else if Has(w, COMPLETE) then Keep(())
    else if !Has(w, JOIN_WAKER) then Panicked
    else Swap((), Clear(w, JOIN_WAKER))
  }

  /** A raw outcome read through `Unpack`. */
  function Lift<A>(u: Update<A, nat>): Update<A, Snapshot> {
    match u
    case Panicked => Panicked
    case Keep(a) => Keep(a)
    case Swap(a, w) => Swap(a, Unpack(w))
  }

  lemma RawDecRefines(w: nat)
    ensures RawDec(w) == if Unpack(w).refs == 0 then Panicked else Swap((), w - REF_ONE)
    ensures Unpack(w).refs > 0 ==> w >= REF_ONE && Unpack(w - REF_ONE) == Unpack(w).(refs := Unpack(w).refs - 1)
  {
    BumpIsArithmetic(w, REF_SHIFT, false);
    if w >= REF_ONE {
      CountOp(w, false);
    }
  }

  lemma RawIncRefines<A>(action: A, w: nat)
    ensures Lift(RawInc(action, w))
            == if CanInc(Unpack(w)) then Swap(action, Unpack(w).(refs := Unpack(w).refs + 1)) else Panicked
  {
    WordBounds(w);
    CountOp(w, true);
  }

  lemma ToRunningRefines(w: nat)
    ensures Lift(RawToRunning(w)) == ToRunning(Unpack(w))
  {
    RawDecRefines(w);
    FlagOp(w, RUNNING, true);
    FlagOp(Set(w, RUNNING), NOTIFIED, false);
  }

  lemma ToIdleRefines(w: nat)
    ensures Lift(RawToIdle(w)) == ToIdle(Unpack(w))
  {
    var n := Clear(w, RUNNING);
    FlagOp(w, RUNNING, false);
    RawDecRefines(n);
    RawIncRefines(IdleNotified, n);
  }

  lemma ToNotifiedByValRefines(w: nat)
    ensures Lift(RawToNotifiedByVal(w)) == ToNotifiedByVal(Unpack(w))
  {
    var n := Set(w, NOTIFIED);
    FlagOp(w, NOTIFIED, true);
    RawDecRefines(n);
    RawDecRefines(w);
    RawIncRefines(NotifySubmit, n);
  }

  lemma ToNotifiedByRefRefines(w: nat)
    ensures Lift(RawToNotifiedByRef(w)) == ToNotifiedByRef(Unpack(w))
  {
    FlagOp(w, NOTIFIED, true);
    RawIncRefines(NotifySubmit, Set(w, NOTIFIED));
  }

  lemma ToCancelledRefines(w: nat)
    ensures Lift(RawToCancelled(w)) == ToCancelled(Unpack(w))
  {
    var n := Set(w, CANCELLED);
    FlagOp(w, CANCELLED, true);
    FlagOp(n, NOTIFIED, true);
    RawIncRefines(CancelSubmit, Set(n, NOTIFIED));
  }

  lemma JoinWakerOpsRefine(w: nat)
    ensures Lift(RawToJoinHandleDropped(w)) == ToJoinHandleDropped(Unpack(w))
    ensures Lift(RawSetJoinWaker(w)) == SetJoinWaker(Unpack(w))
    ensures Lift(RawUnsetWaker(w)) == UnsetWaker(Unpack(w))
  {
    FlagOp(w, JOIN_INTEREST, false);
    FlagOp(Clear(w, JOIN_INTEREST), JOIN_WAKER, false);
    FlagOp(w, JOIN_WAKER, true);
    FlagOp(w, JOIN_WAKER, false);
  }

  // ----- the atomic cell -----

  class State {
    var word: nat

    ghost predicate Valid()
      reads this
    {
      word < WORD_LIMIT
    }

    constructor ()
      ensures Valid() && Unpack(word) == INITIAL
    {
      word := INITIAL_STATE;
      new;
      InitialWord();
    }

    /** The compare-exchange loop. `others` is what the rest of the program does to the word
        while the loop runs: before the k-th attempt the word is set to `others[k]`.
        Whatever the interference, the outcome is the closure applied to the value the word
        held at one instant, and when the closure asks for a write it is that value, and no
        other, that is replaced. */
    method FetchUpdate<A>(f: nat -> Update<A, nat>, others: seq<nat>)
      returns (out: Update<A, nat>, seen: nat)
      modifies this
      ensures out == f(seen)
      ensures seen == old(word) || seen in others
      ensures word == if out.Swap? then out.next else seen
    {
      var curr := word;
      var i := 0;
      while true
        invariant 0 <= i <= |others|
        invariant word == curr
        invariant curr == old(word) || curr in others
        decreases |others| - i
      {
        out := f(curr);
        if !out.Swap? {
          return out, curr;
        }
        if i < |others| {
          word := others[i];
          i := i + 1;
          if word != curr {
            curr := word;
            continue;
          }
        }
        word := out.next;
        return out, curr;
      }
    }

    /** `fetch_xor(RUNNING | COMPLETE)`, then two assertions on the previous value. */
    method TransitionToComplete() returns (ok: bool)
      requires Valid()
      modifies this
      ensures Valid()
      ensures Unpack(word) == Unpack(old(word)).(running := !Unpack(old(word)).running,
                                                 complete := !Unpack(old(word)).complete)
      ensures ok <==> Unpack(old(word)).running && !Unpack(old(word)).complete
    {
      var prev := word;
      var next := Put(prev, RUNNING, !Has(prev, RUNNING));
      FlagOp(prev, RUNNING, !Has(prev, RUNNING));
      FlagOp(next, COMPLETE, !Has(next, COMPLETE));
      word := Put(next, COMPLETE, !Has(next, COMPLETE));
      WordBounds(prev);
      WordBounds(word);
      ok := Has(prev, RUNNING) && !Has(prev, COMPLETE);
    }

    /** `fetch_and(!JOIN_WAKER)`, then two assertions on the previous value. */
    method UnsetWakerAfterComplete() returns (ok: bool)
      requires Valid()
      modifies this
      ensures Valid()
      ensures Unpack(word) == Unpack(old(word)).(joinWaker := false)
      ensures ok <==> Unpack(old(word)).complete && Unpack(old(word)).joinWaker
    {
      var prev := word;
      FlagOp(prev, JOIN_WAKER, false);
      word := Clear(prev, JOIN_WAKER);
      WordBounds(prev);
      WordBounds(word);
      ok := Has(prev, COMPLETE) && Has(prev, JOIN_WAKER);
    }

    /** `fetch_add(REF_ONE)`; the process aborts when the previous word was beyond `isize::MAX`. */
    method RefInc() returns (aborts: bool)
      requires Valid()
      modifies this
      ensures Valid()
      ensures aborts <==> Unpack(old(word)).refs >= REF_LIMIT
      ensures !aborts ==> Unpack(word) == Unpack(old(word)).(refs := Unpack(old(word)).refs + 1)
    {
      CountOp(word, true);
      WordBounds(word);
      hide Unpack;
      aborts := word > INC_LIMIT;
      word := (word + REF_ONE) % WORD_LIMIT;
    }

    /** `fetch_sub(REF_ONE)`, then an assertion; `last` asks the caller to free the task. */
    method RefDec() returns (ok: bool, last: bool)
      requires Valid()
      modifies this
      ensures Valid()
      ensures ok <==> Unpack(old(word)).refs >= 1
      ensures ok ==> Unpack(word) == Unpack(old(word)).(refs := Unpack(old(word)).refs - 1)
      ensures last <==> Unpack(old(word)).refs == 1
    {
      var prev := word;
      RawDecRefines(prev);
      BumpIsArithmetic(prev, REF_SHIFT, false);
      word := (prev + WORD_LIMIT - REF_ONE) % WORD_LIMIT;
      ok := RefCount(prev) >= 1;
      last := RefCount(prev) == 1;
    }

    /** The join handle's shortcut: one compare-exchange against the untouched initial word,
        which may also fail for no reason. */
    method DropJoinHandleFast(spurious: bool) returns (ok: bool)
      requires Valid()
      modifies this
      ensures Valid()
      ensures ok <==> !spurious && Unpack(old(word)) == INITIAL
      ensures Unpack(word) == if ok then INITIAL.(joinInterest := false, refs := 1) else Unpack(old(word))
    {
      InitialWord();
      if !spurious && word == INITIAL_STATE {
        word := INITIAL_STATE - REF_ONE - 8;
        return true;
      }
      if Unpack(word) == INITIAL {
        UnpackInjective(word, INITIAL_STATE);
      }
      return false;
    }
  }

  lemma InitialWord()
    ensures Unpack(INITIAL_STATE) == INITIAL
    ensures Unpack(INITIAL_STATE - REF_ONE - 8) == INITIAL.(joinInterest := false, refs := 1)
  {
    assert Unpack(0) == Snapshot(false, false, false, false, false, false, 0);
    FlagOp(0, NOTIFIED, true);
    CountOp(4, true);
    assert Put(0, 2, true) == 4;
    FlagOp(68, JOIN_INTEREST, true);
    assert Put(68, 3, true) == 76;
    CountOp(76, true);
  }
}
