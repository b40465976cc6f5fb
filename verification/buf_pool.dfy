/** The provided-buffer ring: buffers move between the kernel's ring, completions that name one,
    leases held by the application, and the allocator. */
module BufPool {
  import opened Basics
  import opened Slabs

  type Ptr = nat

  const U16: nat := 0x1_0000
  const MAX_RING: nat := 32768

  // ----- ring arithmetic -----

  lemma MulAtLeast(k: int, n: nat)
    requires k >= 1
    ensures k * n >= n
  {
    assert k * n == (k - 1) * n + n;
  }

  lemma Distr(a: int, b: int, n: int)
    ensures (a - b) * n == a * n - b * n
  {
  }

  lemma RemainderUnique(x: int, n: int, q: int, r: int)
    requires 0 <= r < n && x == q * n + r
    ensures r == x % n
  {
    var q', r' := x / n, x % n;
    assert x == q' * n + r';
    Distr(q, q', n);
    Distr(q', q, n);
    if q > q' {
      MulAtLeast(q - q', n);
    } else if q < q' {
      MulAtLeast(q' - q, n);
    }
  }

  /** A 16-bit counter indexes the ring like the unbounded count would, across its wrap, when the
      ring length divides the counter's range. */
  lemma WrapKeepsIndex(x: nat, n: nat)
    requires n > 0 && U16 % n == 0
    ensures (x % U16) % n == x % n
  {
    var m, q, r := U16 / n, x / U16, x % U16;
    var i, j := r / n, r % n;
    assert x == q * U16 + r && r == i * n + j && U16 == m * n;
    Assoc(q, m, n);
    Plus(q * m, i, n);
    RemainderUnique(x, n, q * m + i, j);
  }

  lemma Assoc(q: int, m: int, n: int)
    ensures q * (m * n) == (q * m) * n
  {
  }

  lemma Plus(a: int, b: int, n: int)
    ensures (a + b) * n == a * n + b * n
  {
  }

  /** Two counts less than a ring apart have different indexes. */
  lemma NearbyIndexesDiffer(a: nat, b: nat, n: nat)
    requires a < b < a + n
    ensures a % n != b % n
  {
    if a % n == b % n {
      var qa, qb := a / n, b / n;
      Distr(qb, qa, n);
      Distr(qa, qb, n);
      if qb > qa {
        MulAtLeast(qb - qa, n);
      } else if qa > qb {
        MulAtLeast(qa - qb, n);
      }
    }
  }

  // ----- the pool -----

  /** A ring entry: which buffer, and where its memory is. */
  datatype Entry = Entry(bid: nat, ptr: Ptr)

  /** `entries`, `tail` and `bufs` are the ring shared with the kernel and the slot table; `alive`
      says that the root exists. The rest is what they mean: `home` the memory of each buffer,
      `head` how many entries the kernel has consumed, `window` the buffers published and not
      consumed, `unclaimed` those a completion names that nobody has claimed yet, `leases` the
      live leases, `freed` the memory given back, `registered` whether the kernel may still use
      the ring. A `fault` is memory freed twice, or freed while the kernel can reach it. */
  datatype Pool = Pool(
    entries: seq<Entry>,
    tail: nat,
    bufs: seq<Option<Ptr>>,
    alive: bool,
    home: seq<Ptr>,
    head: nat,
    window: seq<nat>,
    unclaimed: set<nat>,
    leases: map<nat, Ptr>,
    freed: set<Ptr>,
    registered: bool,
    fault: bool)

  /** The ring slot of a count. */
  function Index(count: nat, len: nat): (i: nat)
    requires len > 0
    ensures i < len
  {
    count % len
  }

  function Wrap(count: nat): nat { count % U16 }

  /** The slot of the ring the next entry goes to. */
  function NextIndex(tail: nat, offset: nat, len: nat): (i: nat)
    requires len > 0
    ensures i < len
  {
    Index(Wrap(tail + offset), len)
  }

  /** The tail counter, wrapped, stands for the unbounded count of entries published. */
  lemma TailCounts(end: nat, offset: nat, n: nat)
    requires n > 0 && U16 % n == 0
    ensures NextIndex(Wrap(end), offset, n) == Index(end + offset, n)
    ensures Wrap(Wrap(end) + offset) == Wrap(end + offset)
  {
    WrapAgain(end, offset);
    IndexOfWrapped(end + offset, n);
    hide Wrap, Index;
  }

  lemma WrapAgain(end: nat, offset: nat)
    ensures Wrap(Wrap(end) + offset) == Wrap(end + offset)
  {
  }

  lemma IndexOfWrapped(count: nat, n: nat)
    requires n > 0 && U16 % n == 0
    ensures Index(Wrap(count), n) == Index(count, n)
  {
    WrapKeepsIndex(count, n);
  }

  lemma IndexBelow(count: nat, n: nat)
    requires count < n
    ensures Index(count, n) == count
  {
  }

  lemma StageIndex(id: nat, n: nat)
    requires id < n <= MAX_RING
    ensures NextIndex(0, id, n) == id
  {
    IndexBelow(id, n);
  }

  lemma SlotsDiffer(a: nat, b: nat, n: nat)
    requires a < b < a + n
    ensures Index(a, n) != Index(b, n)
  {
    NearbyIndexesDiffer(a, b, n);
  }

  /** `reset_buffer`: one entry written at the tail, then published. */
  function Publish(p: Pool, b: nat, ptr: Ptr): Pool
    requires |p.entries| > 0
  {
    p.(entries := p.entries[NextIndex(p.tail, 0, |p.entries|) := Entry(b, ptr)],
       tail := Wrap(p.tail + 1),
       window := p.window + [b])
  }

  /** `dealloc`. */
  function Free(p: Pool, ptr: Ptr): Pool {
    p.(freed := p.freed + {ptr},
       fault := p.fault || ptr in p.freed || (p.registered && exists b | b in p.window :: b < |p.home| && p.home[b] == ptr))
  }

  // ----- calls and kernel steps -----

  function TakenSlot(p: Pool, b: nat): Option<Ptr> { if b < |p.bufs| then p.bufs[b] else None }

  /** `take`: whoever names a slot that is filled gets its memory. */
  function Claim(p: Pool, b: nat): Pool {
    if TakenSlot(p, b).None? then p
    else p.(bufs := p.bufs[b := None], unclaimed := p.unclaimed - {b}, leases := p.leases[b := p.bufs[b].value])
  }

  /** `reset` by id: taken and put straight back into the ring. */
  function Recycle(p: Pool, b: nat): Pool
    requires |p.entries| > 0
  {
    if TakenSlot(p, b).None? then p else Publish(p.(unclaimed := p.unclaimed - {b}), b, p.bufs[b].value)
  }

  function WithoutLease(p: Pool, b: nat): Pool
    requires |p.entries| > 0 && b in p.leases
  {
    var t := p.(leases := p.leases - {b});
    if !p.alive then Free(t, p.leases[b])
    else if b < |p.bufs| then Publish(t.(bufs := p.bufs[b := Some(p.leases[b])]), b, p.leases[b])
    else Free(t, p.leases[b])
  }

  function FreeSlots(p: Pool, slots: seq<Option<Ptr>>): Pool {
    if slots == [] then p
    else
      var t := FreeSlots(p, slots[..|slots| - 1]);
      if slots[|slots| - 1].Some? then Free(t, slots[|slots| - 1].value) else t
  }

  /** Once the kernel has let go of the ring every filled slot is freed; if it has not, everything
      it may reach is left allocated. */
  function TornDown(p: Pool, unregistered: bool): Pool {
    if unregistered then
      FreeSlots(p.(alive := false, bufs := [], registered := false, window := [], unclaimed := {}), p.bufs)
    else p.(alive := false, bufs := [])
  }

  /** The kernel consumes the oldest entry and posts a completion naming its buffer. */
  function Select(p: Pool): Pool
    requires |p.entries| > 0 && p.window != []
  {
    p.(head := p.head + 1, window := p.window[1..], unclaimed := p.unclaimed + {p.entries[Index(p.head, |p.entries|)].bid})
  }

  // ----- what holds at every moment -----

  predicate Shape(p: Pool) {
    var n := |p.entries|;
    && 0 < n <= MAX_RING && U16 % n == 0 && |p.home| == n
    && forall i, j | 0 <= i < j < n :: p.home[i] != p.home[j]
  }

  predicate EntryOk(p: Pool, i: nat)
    requires |p.entries| > 0 && i < |p.window|
  {
    p.window[i] < |p.home| && p.entries[Index(p.head + i, |p.entries|)] == Entry(p.window[i], p.home[p.window[i]])
  }

  /** The window is where the counters say it is, holds each buffer at most once, and fits. */
  predicate WindowOk(p: Pool)
    requires |p.entries| > 0
  {
    && p.tail == Wrap(p.head + |p.window|)
    && Distinct(p.window) && |p.window| <= |p.entries|
    && forall i | 0 <= i < |p.window| :: EntryOk(p, i)
  }

  function One(b: bool): nat { if b then 1 else 0 }

  /** Everywhere a buffer can be. */
  function Places(p: Pool, b: nat): nat
    requires b < |p.home|
  {
    One(b in p.window) + One(b in p.unclaimed) + One(b in p.leases) + One(p.home[b] in p.freed)
  }

  predicate BufferOk(p: Pool, b: nat) {
    if b < |p.home| then
      && Places(p, b) == 1
      && (b in p.leases ==> p.leases[b] == p.home[b])
      && (p.alive && b < |p.bufs| ==> p.bufs[b] == if b in p.leases then None else Some(p.home[b]))
    else b !in p.window && b !in p.unclaimed && b !in p.leases
  }

  predicate StatusOk(p: Pool) {
    && !p.fault
    && (p.alive ==> |p.bufs| == |p.entries| && p.registered && p.freed == {})
    && (!p.registered ==> p.window == [] && p.unclaimed == {})
  }

  ghost predicate Inv(p: Pool) {
    Shape(p) && (p.registered ==> WindowOk(p)) && StatusOk(p) && forall b: nat :: BufferOk(p, b)
  }

  /** A buffer outside the window leaves room for one more entry. */
  lemma RoomForOne(p: Pool, b: nat)
    requires Shape(p) && WindowOk(p) && b < |p.home| && b !in p.window
    ensures |p.window| < |p.entries|
  {
    DistinctCard(p.window);
    forall x | x in p.window ensures x < |p.home| {
      var i :| 0 <= i < |p.window| && p.window[i] == x;
      assert EntryOk(p, i);
    }
    CardLe(Elements(p.window), Range(|p.home|) - {b});
  }

  /** Publishing a buffer that is not in the ring writes the slot just after the window: no
      entry the kernel has yet to consume is overwritten, even when the 16-bit tail wraps. */
  lemma PublishKeepsWindow(p: Pool, b: nat)
    requires Shape(p) && WindowOk(p) && b < |p.home| && b !in p.window
    ensures Shape(Publish(p, b, p.home[b])) && WindowOk(Publish(p, b, p.home[b]))
  {
    var n, t := |p.entries|, Publish(p, b, p.home[b]);
    var end := p.head + |p.window|;
    RoomForOne(p, b);
    TailCounts(end, 0, n);
    TailCounts(end, 1, n);
    hide Index, Wrap;
    forall i | 0 <= i < |t.window| ensures EntryOk(t, i) {
      if i < |p.window| {
        assert EntryOk(p, i);
        SlotsDiffer(p.head + i, end, n);
      }
    }
  }

  lemma SelectKeepsInv(p: Pool)
    requires Inv(p) && p.registered && p.window != []
    ensures Inv(Select(p))
  {
    var t := Select(p);
    assert EntryOk(p, 0);
    assert p.window == [p.window[0]] + t.window;
    hide Index, Wrap;
    forall i | 0 <= i < |t.window| ensures EntryOk(t, i) {
      assert EntryOk(p, i + 1);
    }
    forall j: nat ensures BufferOk(t, j) {
      assert BufferOk(p, j);
    }
  }

  lemma ClaimKeepsInv(p: Pool, b: nat)
    requires Inv(p) && p.alive && b in p.unclaimed
    ensures Inv(Claim(p, b)) && b < |p.home| && Claim(p, b).leases == p.leases[b := p.home[b]]
  {
    var t := Claim(p, b);
    assert BufferOk(p, b);
    hide Index, Wrap;
    forall i | 0 <= i < |t.window| ensures EntryOk(t, i) {
      assert EntryOk(p, i);
    }
    forall j: nat ensures BufferOk(t, j) {
      assert BufferOk(p, j);
    }
  }

  lemma RecycleKeepsInv(p: Pool, b: nat)
    requires Inv(p) && p.alive && b in p.unclaimed
    ensures Inv(Recycle(p, b)) && Recycle(p, b).window == p.window + [b]
  {
    var q := p.(unclaimed := p.unclaimed - {b});
    assert BufferOk(p, b);
    hide Index, Wrap;
    forall i | 0 <= i < |q.window| ensures EntryOk(q, i) {
      assert EntryOk(p, i);
    }
    PublishKeepsWindow(q, b);
    var t := Recycle(p, b);
    forall j: nat ensures BufferOk(t, j) {
      assert BufferOk(p, j);
    }
  }

  lemma ReturnKeepsInv(p: Pool, b: nat)
    requires Inv(p) && p.alive && b in p.leases
    ensures Inv(WithoutLease(p, b)) && WithoutLease(p, b).window == p.window + [b]
  {
    assert BufferOk(p, b);
    var q := p.(leases := p.leases - {b}, bufs := p.bufs[b := Some(p.leases[b])]);
    hide Index, Wrap;
    forall i | 0 <= i < |q.window| ensures EntryOk(q, i) {
      assert EntryOk(p, i);
    }
    PublishKeepsWindow(q, b);
    var t := WithoutLease(p, b);
    forall j: nat ensures BufferOk(t, j) {
      assert BufferOk(p, j);
    }
  }

  lemma LateDropKeepsInv(p: Pool, b: nat)
    requires Inv(p) && !p.alive && b in p.leases
    ensures Inv(WithoutLease(p, b)) && b < |p.home| && WithoutLease(p, b).freed == p.freed + {p.home[b]}
  {
    assert BufferOk(p, b);
    hide Index, Wrap;
    var t := WithoutLease(p, b);
    forall i | 0 <= i < |t.window| ensures EntryOk(t, i) {
      assert EntryOk(p, i);
    }
    forall j: nat ensures BufferOk(t, j) {
      assert BufferOk(p, j);
    }
    forall x | x in p.window ensures !(x < |p.home| && p.home[x] == p.leases[b]) {
      assert BufferOk(p, x);
    }
  }

  function Filled(slots: seq<Option<Ptr>>): set<Ptr> {
    if slots == [] then {}
    else Filled(slots[..|slots| - 1]) + if slots[|slots| - 1].Some? then {slots[|slots| - 1].value} else {}
  }

  lemma {:induction false} FilledMember(slots: seq<Option<Ptr>>, ptr: Ptr)
    ensures ptr in Filled(slots) <==> Some(ptr) in slots
  {
    if slots != [] {
      FilledMember(slots[..|slots| - 1], ptr);
      assert slots == slots[..|slots| - 1] + [slots[|slots| - 1]];
    }
  }

  /** Freeing the slot table frees each buffer in it once. */
  lemma {:induction false} FreeSlotsFreesEach(p: Pool, slots: seq<Option<Ptr>>)
    requires !p.registered
    requires forall i, j | 0 <= i < j < |slots| && slots[i].Some? :: slots[i] != slots[j]
    requires forall i | 0 <= i < |slots| && slots[i].Some? :: slots[i].value !in p.freed
    ensures FreeSlots(p, slots) == p.(freed := p.freed + Filled(slots))
  {
    if slots != [] {
      var front, last := slots[..|slots| - 1], slots[|slots| - 1];
      FreeSlotsFreesEach(p, front);
      if last.Some? {
        FilledMember(front, last.value);
        assert p.freed + Filled(slots) == p.freed + Filled(front) + {last.value};
      } else {
        assert Filled(slots) == Filled(front);
      }
    } else {
      assert p.freed + Filled(slots) == p.freed;
    }
  }

  lemma UnregisterKeepsInv(p: Pool)
    requires Inv(p) && p.alive
    ensures Inv(TornDown(p, true))
  {
    hide Index, Wrap, WindowOk;
    var q := p.(alive := false, bufs := [], registered := false, window := [], unclaimed := {});
    forall b | 0 <= b < |p.bufs| ensures p.bufs[b] == if b in p.leases then None else Some(p.home[b]) {
      assert BufferOk(p, b);
    }
    FreeSlotsFreesEach(q, p.bufs);
    var t := q.(freed := {} + Filled(p.bufs));
    assert t == TornDown(p, true);
    forall j: nat ensures BufferOk(t, j) {
      assert BufferOk(p, j);
      if j < |p.home| {
        FilledMember(p.bufs, p.home[j]);
        assert p.bufs[j] in p.bufs;
      }
    }
  }

  lemma LeakKeepsInv(p: Pool)
    requires Inv(p) && p.alive
    ensures Inv(TornDown(p, false)) && TornDown(p, false).freed == {}
  {
    hide Index, Wrap;
    var t := TornDown(p, false);
    forall j: nat ensures BufferOk(t, j) {
      assert BufferOk(p, j);
    }
    forall i | 0 <= i < |t.window| ensures EntryOk(t, i) {
      assert EntryOk(p, i);
    }
  }

  // ----- every run -----

  function Fresh(home: seq<Ptr>): Pool {
    var n := |home|;
    Pool(seq(n, i requires 0 <= i < n => Entry(i, home[i])), Wrap(n), seq(n, i requires 0 <= i < n => Some(home[i])),
         true, home, 0, seq(n, i => i), {}, map[], {}, true, false)
  }

  /** `Claimed` and `Recycled` are calls with the id of a completion that was not used before. */
  datatype Event =
    | Selected
    | Claimed(bid: nat)
    | Recycled(bid: nat)
    | LeaseDropped(bid: nat)
    | Released(unregistered: bool)

  predicate Enabled(p: Pool, e: Event) {
    match e
    case Selected => p.registered && p.window != []
    case Claimed(b) => p.alive && b in p.unclaimed
    case Recycled(b) => p.alive && b in p.unclaimed
    case LeaseDropped(b) => b in p.leases
    case Released(_) => p.alive
  }

  function Step(p: Pool, e: Event): Pool
    requires |p.entries| > 0 && Enabled(p, e)
  {
    match e
    case Selected => Select(p)
    case Claimed(b) => Claim(p, b)
    case Recycled(b) => Recycle(p, b)
    case LeaseDropped(b) => WithoutLease(p, b)
    case Released(unregistered) => TornDown(p, unregistered)
  }

  lemma StepKeepsInv(p: Pool, e: Event)
    requires Inv(p) && Enabled(p, e)
    ensures Inv(Step(p, e))
  {
    hide Inv, Select, Claim, Recycle, WithoutLease, TornDown;
    match e
    case Selected => SelectKeepsInv(p);
    case Claimed(b) => ClaimKeepsInv(p, b);
    case Recycled(b) => RecycleKeepsInv(p, b);
    case LeaseDropped(b) =>
      if p.alive {
        ReturnKeepsInv(p, b);
      } else {
        LateDropKeepsInv(p, b);
      }
    case Released(unregistered) =>
      if unregistered {
        UnregisterKeepsInv(p);
      } else {
        LeakKeepsInv(p);
      }
  }

  ghost predicate IsRun(pools: seq<Pool>, events: seq<Event>, home: seq<Ptr>) {
    && 0 < |home| <= MAX_RING && U16 % |home| == 0
    && (forall i, j | 0 <= i < j < |home| :: home[i] != home[j])
    && |pools| == |events| + 1 && pools[0] == Fresh(home)
    && forall k | 0 <= k < |events| ::
         |pools[k].entries| > 0 && Enabled(pools[k], events[k]) && pools[k + 1] == Step(pools[k], events[k])
  }

  lemma FreshOk(home: seq<Ptr>)
    requires 0 < |home| <= MAX_RING && U16 % |home| == 0
    requires forall i, j | 0 <= i < j < |home| :: home[i] != home[j]
    ensures Inv(Fresh(home))
  {
    var p := Fresh(home);
    hide Index, Wrap;
    forall i | 0 <= i < |p.window| ensures EntryOk(p, i) {
      IndexBelow(i, |p.entries|);
    }
    forall b: nat ensures BufferOk(p, b) {
      if b < |home| {
        assert p.window[b] == b;
      }
    }
  }

  lemma {:induction false} InvAlong(pools: seq<Pool>, events: seq<Event>, home: seq<Ptr>, k: nat)
    requires IsRun(pools, events, home) && k < |pools|
    ensures Inv(pools[k])
  {
    if k == 0 {
      FreshOk(home);
    } else {
      hide Inv, Step, Enabled;
      InvAlong(pools, events, home, k - 1);
      StepKeepsInv(pools[k - 1], events[k - 1]);
    }
  }

  /** Every buffer is in exactly one place: the ring, a completion nobody has used, a lease, or
      back with the allocator. */
  lemma OnePlace(pools: seq<Pool>, events: seq<Event>, home: seq<Ptr>, k: nat, b: nat)
    requires IsRun(pools, events, home) && k < |pools| && b < |pools[k].home|
    ensures Places(pools[k], b) == 1
  {
    InvAlong(pools, events, home, k);
    assert BufferOk(pools[k], b);
  }

  /** As long as the kernel has the ring: the entries it has yet to consume are those published
      and are for distinct buffers, at most as many as the ring has slots, each with the memory
      of its buffer. */
  lemma RingIsIntact(pools: seq<Pool>, events: seq<Event>, home: seq<Ptr>, k: nat, i: nat)
    requires IsRun(pools, events, home) && k < |pools| && pools[k].registered && i < |pools[k].window|
    ensures |pools[k].window| <= |pools[k].entries| && Distinct(pools[k].window)
    ensures EntryOk(pools[k], i)
  {
    InvAlong(pools, events, home, k);
  }

  /** No memory is freed twice, none is freed while the kernel can reach it, and none is freed
      before the pool is released. */
  lemma NothingFreedInUse(pools: seq<Pool>, events: seq<Event>, home: seq<Ptr>, k: nat, b: nat)
    requires IsRun(pools, events, home) && k < |pools|
    ensures !pools[k].fault
    ensures b in pools[k].window && b < |pools[k].home| ==> pools[k].home[b] !in pools[k].freed
    ensures pools[k].alive ==> pools[k].freed == {}
  {
    InvAlong(pools, events, home, k);
    assert BufferOk(pools[k], b);
  }

  /** The condition on callers is exact: taking any id at all is safe, except one that is still
      in the ring. */
  lemma TakeIsSafeIff(p: Pool, b: nat)
    requires Inv(p) && p.alive
    ensures Inv(Claim(p, b)) <==> b !in p.window
    ensures b !in p.window && b !in p.unclaimed ==> Claim(p, b) == p
  {
    assert BufferOk(p, b);
    if b in p.unclaimed {
      ClaimKeepsInv(p, b);
    }
    if b in p.window {
      assert !BufferOk(Claim(p, b), b);
    }
  }

  lemma RecycleIsSafeIff(p: Pool, b: nat)
    requires Inv(p) && p.alive
    ensures Inv(Recycle(p, b)) <==> b !in p.window
  {
    assert BufferOk(p, b);
    if b in p.unclaimed {
      RecycleKeepsInv(p, b);
    }
    if b in p.window {
      var t := Recycle(p, b);
      var i :| 0 <= i < |p.window| && p.window[i] == b;
      assert t.window[i] == t.window[|p.window|] == b;
      assert !Distinct(t.window);
    }
  }

  /** A fresh pool and id 0: the buffer is still in the ring, and neither call notices. */
  lemma RingBufferTakenTwice(home: seq<Ptr>)
    requires 0 < |home| <= MAX_RING && U16 % |home| == 0
    requires forall i, j | 0 <= i < j < |home| :: home[i] != home[j]
    ensures var p := Fresh(home);
            && Inv(p) && 0 in p.window
            && Places(Claim(p, 0), 0) == 2 && !Inv(Claim(p, 0)) && !Inv(Recycle(p, 0))
  {
    var p := Fresh(home);
    FreshOk(home);
    assert p.window[0] == 0;
    TakeIsSafeIff(p, 0);
    RecycleIsSafeIff(p, 0);
    assert BufferOk(p, 0);
  }

  // ----- the ring and the pool in memory -----

  /** The ring length: a power of two, so it divides the range of the tail counter. `None` is the
      error for more than the kernel supports. */
  method RingLength(requested: nat) returns (n: Option<nat>)
    ensures n.None? <==> requested > MAX_RING
    ensures n.Some? ==> requested <= n.value && 0 < n.value <= MAX_RING && U16 % n.value == 0
    ensures n.Some? && n.value > 1 ==> n.value < 2 * requested
  {
    if requested > MAX_RING {
      return None;
    }
    var size := 1;
    while size < requested
      invariant size in {1, 2, 4, 8, 16, 32, 64, 128, 256, 512, 1024, 2048, 4096, 8192, 16384, 32768}
      invariant size > 1 ==> size < 2 * requested
      decreases requested - size
    {
      size := 2 * size;
    }
    return Some(size);
  }

  class BufferPool {
    const entries: array<Entry>
    var tail: nat
    var bufs: seq<Option<Ptr>>
    var alive: bool
    ghost var home: seq<Ptr>
    ghost var head: nat
    ghost var window: seq<nat>
    ghost var unclaimed: set<nat>
    ghost var leases: map<nat, Ptr>
    ghost var freed: set<Ptr>
    ghost var registered: bool
    ghost var fault: bool

    ghost function Model(): Pool
      reads this, entries
    {
      Pool(entries[..], tail, bufs, alive, home, head, window, unclaimed, leases, freed, registered, fault)
    }

    /** Registering stages every buffer at its own offset and publishes them together. */
    constructor (memory: seq<Ptr>)
      requires 0 < |memory| <= MAX_RING && U16 % |memory| == 0
      ensures Model() == Fresh(memory) && fresh(entries)
    {
      entries := new Entry[|memory|](_ => Entry(0, 0));
      tail, bufs, alive := 0, seq(|memory|, i requires 0 <= i < |memory| => Some(memory[i])), true;
      home, head, window := memory, 0, seq(|memory|, i => i);
      unclaimed, leases, freed, registered, fault := {}, map[], {}, true, false;
      new;
      var id := 0;
      while id < entries.Length
        invariant 0 <= id <= entries.Length && tail == 0
        invariant forall i | 0 <= i < id :: entries[i] == Entry(i, memory[i])
        modifies entries
      {
        StageIndex(id, entries.Length);
        AddBuffer(id, memory[id], id);
        id := id + 1;
      }
      Commit(entries.Length);
      assert entries[..] == Fresh(memory).entries;
    }

    method AddBuffer(b: nat, ptr: Ptr, offset: nat)
      requires entries.Length > 0
      modifies entries
      ensures entries[..] == old(entries[..])[NextIndex(tail, offset, entries.Length) := Entry(b, ptr)]
    {
      entries[NextIndex(tail, offset, entries.Length)] := Entry(b, ptr);
    }

    method Commit(count: nat)
      modifies `tail
      ensures tail == Wrap(old(tail) + count)
    {
      tail := Wrap(tail + count);
    }

    method ResetBuffer(b: nat, ptr: Ptr)
      requires entries.Length > 0
      modifies `tail, `window, entries
      ensures Model() == Publish(old(Model()), b, ptr)
    {
      AddBuffer(b, ptr, 0);
      Commit(1);
      window := window + [b];
    }

    /** With the id of a completion the caller gets that buffer for itself; an id that is leased or
        unknown gives nothing. An id that is still in the ring gives the buffer away twice. */
    method Take(b: nat) returns (ptr: Option<Ptr>)
      requires Inv(Model()) && alive
      modifies `bufs, `unclaimed, `leases
      ensures Model() == Claim(old(Model()), b)
      ensures Inv(Model()) <==> b !in old(window)
      ensures ptr.Some? <==> b in old(unclaimed) || b in old(window)
      ensures ptr.Some? ==> b < |home| && ptr.value == home[b] && b in leases
    {
      TakeIsSafeIff(Model(), b);
      assert BufferOk(Model(), b);
      hide Inv, Index, Wrap;
      if b >= |bufs| || bufs[b].None? {
        return None;
      }
      ptr := bufs[b];
      bufs := bufs[b := None];
      unclaimed, leases := unclaimed - {b}, leases[b := ptr.value];
    }

    /** The other use of a completion's id: the buffer goes back to the end of the ring. */
    method Reset(b: nat) returns (done: bool)
      requires Inv(Model()) && alive
      modifies `bufs, `unclaimed, `tail, `window, entries
      ensures Model() == Recycle(old(Model()), b)
      ensures Inv(Model()) <==> b !in old(window)
      ensures done <==> b in old(unclaimed) || b in old(window)
    {
      RecycleIsSafeIff(Model(), b);
      assert BufferOk(Model(), b);
      hide Inv, Index, Wrap;
      if b >= |bufs| || bufs[b].None? {
        return false;
      }
      var ptr := bufs[b].value;
      bufs := bufs[b := None];
      unclaimed := unclaimed - {b};
      bufs := bufs[b := Some(ptr)];
      assert bufs == old(bufs);
      ResetBuffer(b, ptr);
      return true;
    }

    method Dealloc(ptr: Ptr)
      modifies `freed, `fault
      ensures Model() == Free(old(Model()), ptr)
    {
      fault := fault || ptr in freed || (registered && exists b | b in window :: b < |home| && home[b] == ptr);
      freed := freed + {ptr};
    }

    /** Dropping a lease recycles the buffer, or frees it if the pool is gone. */
    method DropLease(b: nat, ptr: Ptr)
      requires Inv(Model()) && b in leases && leases[b] == ptr
      modifies `bufs, `leases, `tail, `window, `freed, `fault, entries
      ensures Inv(Model()) && Model() == WithoutLease(old(Model()), b)
      ensures alive ==> window == old(window) + [b] && freed == old(freed)
      ensures !alive ==> window == old(window) && freed == old(freed) + {ptr}
    {
      ghost var p := Model();
      if alive {
        ReturnKeepsInv(p, b);
      } else {
        LateDropKeepsInv(p, b);
      }
      assert BufferOk(p, b);
      hide Inv, Index, Wrap;
      leases := leases - {b};
      if alive {
        bufs := bufs[b := Some(ptr)];
        ResetBuffer(b, ptr);
      } else {
        Dealloc(ptr);
      }
    }
  
    /** Tearing the pool down: with the ring unregistered every buffer not on lease is freed;
        otherwise nothing is. */
    method Release(unregistered: bool)
      requires Inv(Model()) && alive
      modifies this
      ensures Inv(Model()) && Model() == TornDown(old(Model()), unregistered)
      ensures !unregistered ==> freed == {} && window == old(window)
      ensures unregistered ==> forall b | 0 <= b < |home| :: home[b] in freed <==> b !in leases
    {
      ghost var p := Model();
      if !unregistered {
        LeakKeepsInv(p);
        alive, bufs := false, [];
        return;
      }
      UnregisterKeepsInv(p);
      UnregisterFreesTheRest(p);
      var slots := bufs;
      hide Inv, Index, Wrap, Free, FreeSlots;
      alive, bufs, registered, window, unclaimed := false, [], false, [], {};
      ghost var q := Model();
      FreeTable(slots);
      assert Model() == TornDown(p, true);
    }

    method FreeTable(slots: seq<Option<Ptr>>)
      modifies `freed, `fault
      ensures Model() == FreeSlots(old(Model()), slots)
    {
      var i := 0;
      while i < |slots|
        invariant 0 <= i <= |slots| && Model() == FreeSlots(old(Model()), slots[..i])
      {
        assert slots[..i + 1][..i] == slots[..i];
        if slots[i].Some? {
          Dealloc(slots[i].value);
        }
        i := i + 1;
      }
      assert slots[..i] == slots;
    }
  }

  lemma UnregisterFreesTheRest(p: Pool)
    requires Inv(p) && p.alive
    ensures var t := TornDown(p, true);
            t.home == p.home && t.leases == p.leases
            && forall b | 0 <= b < |p.home| :: p.home[b] in t.freed <==> b !in p.leases
  {
    var t := TornDown(p, true);
    UnregisterKeepsInv(p);
    FreeKeepsRest(p.(alive := false, bufs := [], registered := false, window := [], unclaimed := {}), p.bufs);
    forall b | 0 <= b < |p.home| ensures p.home[b] in t.freed <==> b !in p.leases {
      assert BufferOk(t, b);
    }
  }

  lemma {:induction false} FreeKeepsRest(p: Pool, slots: seq<Option<Ptr>>)
    ensures var t := FreeSlots(p, slots);
            t.home == p.home && t.leases == p.leases && t.window == p.window && t.unclaimed == p.unclaimed
  {
    if slots != [] {
      FreeKeepsRest(p, slots[..|slots| - 1]);
    }
  }
}
