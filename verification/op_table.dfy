/** Generational operation keys, and the table that issues them. A key names a slot and the
    generation of that slot; a slot whose generations are used up is retired instead of
    wrapping, so no key is ever issued twice and a late completion can never reach a newer
    operation in the same slot. */
module OpTables {
  import opened Basics
  import opened Slabs

  // A `usize` of 64 bits split in two halves.
  const HALF: nat := 0x1_0000_0000
  const GENERATION_MAX: nat := HALF - 2
  const MAX_CAPACITY: nat := HALF - 1
  /** A key by its two halves; `Raw` is the word that travels through the kernel. */
  datatype OpKey = OpKey(slot: nat, generation: nat)

  datatype CompletionKey = Operation(key: OpKey) | Wake | Cancel | WakeCancel

  const WAKE_RAW: nat := USIZE_MAX
  const CANCEL_RAW: nat := USIZE_MAX - 1
  const WAKE_CANCEL_RAW: nat := USIZE_MAX - 2

  predicate Representable(k: OpKey) { k.slot < MAX_CAPACITY && 1 <= k.generation <= GENERATION_MAX }

  /** `(generation << 32) | (slot + 1)`; the two halves do not overlap. */
  function Raw(k: OpKey): nat { k.generation * HALF + k.slot + 1 }

  function FromRaw(raw: nat): Option<OpKey> {
    var oneBased, generation := raw % HALF, raw / HALF;
    if oneBased == 0 || generation == 0 || generation > GENERATION_MAX then None
    else Some(OpKey(oneBased - 1, generation))
  }

  function Decode(raw: nat): Option<CompletionKey> {
    if raw == WAKE_RAW then Some(Wake)
    else if raw == CANCEL_RAW then Some(Cancel)
    else if raw == WAKE_CANCEL_RAW then Some(WakeCancel)
    else match FromRaw(raw)
      case Some(k) => Some(Operation(k))
      case None => None
  }

  /** Encoding fits the word, decodes to the same slot and generation, and is none of the
      control tokens … */
  lemma RawRoundTrip(k: OpKey)
    requires Representable(k)
    ensures Raw(k) <= USIZE_MAX && FromRaw(Raw(k)) == Some(k) && Decode(Raw(k)) == Some(Operation(k))
  {
    assert Raw(k) / HALF == k.generation && Raw(k) % HALF == k.slot + 1;
  }

  /** … and what decodes is the encoding of exactly one key, so encoding is injective. */
  lemma RawDetermined(raw: nat)
    requires FromRaw(raw).Some?
    ensures Representable(FromRaw(raw).value) && Raw(FromRaw(raw).value) == raw
  {
  }

  lemma RawInjective(j: OpKey, k: OpKey)
    requires Representable(j) && Representable(k) && Raw(j) == Raw(k)
    ensures j == k
  {
    RawRoundTrip(j);
    RawRoundTrip(k);
  }

  /** A control token is never an operation, and an operation word never a control token. */
  lemma ControlTokensAreNotKeys(raw: nat)
    requires raw <= USIZE_MAX
    ensures raw == WAKE_RAW || raw == CANCEL_RAW || raw == WAKE_CANCEL_RAW ==>
              FromRaw(raw) == None && Decode(raw).Some? && !Decode(raw).value.Operation?
    ensures Decode(raw).Some? && Decode(raw).value.Operation? ==>
              Representable(Decode(raw).value.key) && Raw(Decode(raw).value.key) == raw
  {
    if raw >= WAKE_CANCEL_RAW {
      assert raw / HALF == HALF - 1;
    }
    if FromRaw(raw).Some? {
      RawDetermined(raw);
    }
  }

  // ----- what the table stores, as a value -----

  /** `slots` and `generations` are the table's own; `issued` records every key ever returned. */
  datatype Table<T> = Table(slots: seq<Entry<Option<T>>>, generations: seq<nat>, issued: set<OpKey>)

  /** Slot `s` holds an operation. A retired slot is occupied by nothing. */
  predicate Live<T>(t: Table<T>, s: nat) {
    s < |t.slots| && t.slots[s].Occupied? && t.slots[s].value.Some?
  }

  /** `get`: what the table answers for any key whatever. */
  function Find<T>(t: Table<T>, key: OpKey): Option<T> {
    if key.slot < |t.generations| && t.generations[key.slot] == key.generation && Live(t, key.slot)
    then t.slots[key.slot].value
    else None
  }

  /** The finite map the table stands for. */
  ghost function Contents<T>(t: Table<T>): map<OpKey, T> {
    map k | k in t.issued && Find(t, k).Some? :: Find(t, k).value
  }

  /** An issued key names the past of its slot, or its present, and then the slot is in use or
      retired: it will not be handed out under that key again. */
  predicate IssuedBefore<T>(t: Table<T>, k: OpKey)
    requires |t.generations| == |t.slots|
  {
    && Representable(k)
    && k.slot < |t.generations| && k.generation <= t.generations[k.slot]
    && (k.generation == t.generations[k.slot] ==> t.slots[k.slot].Occupied?)
  }

  ghost predicate Sound<T>(t: Table<T>, limit: nat) {
    && 1 <= limit <= GENERATION_MAX
    && |t.generations| == |t.slots| <= MAX_CAPACITY
    && (forall s | 0 <= s < |t.generations| :: 1 <= t.generations[s] <= limit)
    && (forall k | k in t.issued :: IssuedBefore(t, k))
    && (forall s | 0 <= s < |t.generations| && Live(t, s) :: OpKey(s, t.generations[s]) in t.issued)
  }

  /** A lookup is a lookup in the map, for every key: an unissued, stale, retired or malformed
      key finds nothing. */
  lemma FindIsLookup<T>(t: Table<T>, limit: nat, key: OpKey)
    requires Sound(t, limit)
    ensures Find(t, key) == if key in Contents(t) then Some(Contents(t)[key]) else None
  {
    assert Find(t, key).Some? ==> key == OpKey(key.slot, t.generations[key.slot]);
  }

  function Inserted<T>(t: Table<T>, slot: nat, v: T): Table<T>
    requires slot <= |t.slots| == |t.generations|
  {
    if slot < |t.slots|
    then t.(slots := t.slots[slot := Occupied(Some(v))], issued := t.issued + {OpKey(slot, t.generations[slot])})
    else Table(t.slots + [Occupied(Some(v))], t.generations + [1], t.issued + {OpKey(slot, 1)})
  }

  /** A key issued for a vacant slot is new, and the table then maps it to the value and every
      other key as before. */
  lemma InsertedIsUpdate<T>(t: Table<T>, limit: nat, slot: nat, v: T)
    requires Sound(t, limit) && slot <= |t.slots| && slot < MAX_CAPACITY
    requires slot < |t.slots| ==> t.slots[slot].Vacant?
    ensures var u := Inserted(t, slot, v);
            var key := OpKey(slot, u.generations[slot]);
            && Sound(u, limit)
            && key !in t.issued
            && Contents(u) == Contents(t)[key := v]
  {
    var u := Inserted(t, slot, v);
    var key := OpKey(slot, u.generations[slot]);
    assert key in t.issued ==> IssuedBefore(t, key);
    forall k | k in t.issued ensures IssuedBefore(u, k) && Find(u, k) == Find(t, k) {
      assert IssuedBefore(t, k);
    }
    assert Find(u, key) == Some(v);
  }

  /** Writing through a lookup changes what that one key maps to. */
  lemma StoredIsUpdate<T>(t: Table<T>, limit: nat, slot: nat, v: T)
    requires Sound(t, limit) && Live(t, slot)
    ensures var u := t.(slots := t.slots[slot := Occupied(Some(v))]);
            Sound(u, limit) && Contents(u) == Contents(t)[OpKey(slot, t.generations[slot]) := v]
  {
    var u := t.(slots := t.slots[slot := Occupied(Some(v))]);
    var key := OpKey(slot, t.generations[slot]);
    forall k | k in t.issued ensures IssuedBefore(u, k) && (k != key ==> Find(u, k) == Find(t, k)) {
      assert IssuedBefore(t, k);
    }
    assert Find(u, key) == Some(v) && Find(t, key).Some?;
  }

  function Removed<T>(t: Table<T>, limit: nat, slot: nat, link: nat): Table<T>
    requires slot < |t.slots| == |t.generations|
  {
    if t.generations[slot] >= limit then t.(slots := t.slots[slot := Occupied(None)])
    else t.(slots := t.slots[slot := Vacant(link)], generations := t.generations[slot := t.generations[slot] + 1])
  }

  /** Emptying a slot forgets the key it was known by, and nothing else, whether the slot is
      recycled under the next generation or retired. */
  lemma RemovedIsDeletion<T>(t: Table<T>, limit: nat, slot: nat, link: nat)
    requires Sound(t, limit) && Live(t, slot)
    ensures var u := Removed(t, limit, slot, link);
            && Sound(u, limit)
            && Contents(u) == Contents(t) - {OpKey(slot, t.generations[slot])}
            && OpKey(slot, t.generations[slot]) in Contents(t)
  {
    var u := Removed(t, limit, slot, link);
    var key := OpKey(slot, t.generations[slot]);
    forall k | k in t.issued ensures IssuedBefore(u, k) && (k != key ==> Find(u, k) == Find(t, k)) {
      assert IssuedBefore(t, k);
    }
    assert Find(u, key) == None && Find(t, key).Some?;
  }

  /** A slot is given up for good exactly when its generations are used up; before that it is free
      for the next operation, under a later generation. */
  lemma RetiredIff<T>(t: Table<T>, limit: nat, slot: nat, link: nat)
    requires slot < |t.slots| == |t.generations|
    ensures var u := Removed(t, limit, slot, link);
            && |u.slots| == |t.slots| && |u.generations| == |t.generations|
            && (u.slots[slot].Vacant? <==> t.generations[slot] < limit)
            && (u.slots[slot].Vacant? ==> u.slots[slot].next == link && u.generations[slot] == t.generations[slot] + 1)
  {
  }

  lemma RemovedEmptiesOneSlot<T>(t: Table<T>, limit: nat, slot: nat, link: nat, s: nat)
    requires slot < |t.slots| == |t.generations|
    ensures Live(Removed(t, limit, slot, link), s) <==> s != slot && Live(t, s)
  {
  }

  lemma NothingLive<T>(t: Table<T>)
    requires forall s | 0 <= s < |t.slots| :: !Live(t, s)
    ensures Contents(t) == map[]
  {
    forall k | k in t.issued ensures Find(t, k) == None {
      assert k.slot < |t.slots| ==> !Live(t, k.slot);
    }
  }

  // ----- any run of the table -----

  datatype Change<T> = Insertion(slot: nat, value: T) | Removal(slot: nat, link: nat)

  predicate Allowed<T>(t: Table<T>, c: Change<T>) {
    |t.slots| == |t.generations| &&
    match c
    case Insertion(slot, _) => slot <= |t.slots| && slot < MAX_CAPACITY && (slot < |t.slots| ==> t.slots[slot].Vacant?)
    case Removal(slot, _) => Live(t, slot)
  }

  function After<T>(t: Table<T>, limit: nat, c: Change<T>): Table<T>
    requires Allowed(t, c)
  {
    match c
    case Insertion(slot, v) => Inserted(t, slot, v)
    case Removal(slot, link) => Removed(t, limit, slot, link)
  }

  ghost predicate IsRun<T>(states: seq<Table<T>>, changes: seq<Change<T>>, limit: nat) {
    && 1 <= limit <= GENERATION_MAX
    && |states| == |changes| + 1
    && states[0] == Table([], [], {})
    && forall i | 0 <= i < |changes| ::
         Allowed(states[i], changes[i]) && states[i + 1] == After(states[i], limit, changes[i])
  }

  lemma {:induction false} SoundAlong<T>(states: seq<Table<T>>, changes: seq<Change<T>>, limit: nat, k: nat)
    requires IsRun(states, changes, limit) && k < |states|
    ensures Sound(states[k], limit)
  {
    if k > 0 {
      SoundAlong(states, changes, limit, k - 1);
      var t, c := states[k - 1], changes[k - 1];
      match c
      case Insertion(slot, v) => InsertedIsUpdate(t, limit, slot, v);
      case Removal(slot, link) => RemovedIsDeletion(t, limit, slot, link);
    }
  }

  lemma ChangeKeepsStale<T>(t: Table<T>, limit: nat, c: Change<T>, key: OpKey)
    requires Sound(t, limit) && Allowed(t, c)
    requires key in t.issued && Find(t, key) == None
    ensures key in After(t, limit, c).issued && Find(After(t, limit, c), key) == None
  {
    assert IssuedBefore(t, key);
  }

  /** In any run, whatever slots are reused, recycled or retired: once an issued key finds
      nothing, it finds nothing for ever, and no later insertion issues it again. */
  lemma {:induction false} StaleKeysStayStale<T>(
    states: seq<Table<T>>, changes: seq<Change<T>>, limit: nat, j: nat, k: nat, key: OpKey)
    requires IsRun(states, changes, limit) && j <= k < |states|
    requires key in states[j].issued && Find(states[j], key) == None
    ensures key in states[k].issued && Find(states[k], key) == None
    ensures k < |changes| && changes[k].Insertion? ==>
              OpKey(changes[k].slot, states[k + 1].generations[changes[k].slot]) != key
  {
    if j < k {
      StaleKeysStayStale(states, changes, limit, j, k - 1, key);
      SoundAlong(states, changes, limit, k - 1);
      ChangeKeepsStale(states[k - 1], limit, changes[k - 1], key);
    }
    SoundAlong(states, changes, limit, k);
    if k < |changes| && changes[k].Insertion? {
      InsertedIsUpdate(states[k], limit, changes[k].slot, changes[k].value);
    }
  }

  // ----- the table -----

  class OpTable<T> {
    const entries: Slab<Option<T>>
    var generations: seq<nat>
    const generationLimit: nat
    var activeLen: nat
    ghost var issued: set<OpKey>

    ghost function Model(): Table<T>
      reads this, entries
    {
      Table(entries.entries, generations, issued)
    }

    /** The abstract value: a finite map from keys to operations. */
    ghost function View(): map<OpKey, T>
      reads this, entries
    {
      Contents(Model())
    }

    ghost predicate Valid()
      reads this, entries
    {
      entries.Valid() && Sound(Model(), generationLimit) && activeLen == |View()|
    }

    constructor (limit: nat)
      requires 1 <= limit <= GENERATION_MAX
      ensures Valid() && View() == map[] && issued == {} && generationLimit == limit
      ensures fresh(entries)
    {
      entries := new Slab<Option<T>>();
      generations, generationLimit, activeLen, issued := [], limit, 0, {};
      new;
      assert View() == map[];
    }

    method Get(key: OpKey) returns (value: Option<T>)
      requires Valid()
      ensures value == if key in View() then Some(View()[key]) else None
    {
      FindIsLookup(Model(), generationLimit, key);
      if key.slot >= |generations| || generations[key.slot] != key.generation {
        return None;
      }
      var stored := entries.Get(key.slot);
      return if stored.Some? then stored.value else None;
    }

    /** A successful insert issues a key that was never issued before and maps it to the value;
        it fails only when every representable slot is in use or retired. */
    method Insert(value: T) returns (key: Option<OpKey>)
      requires Valid()
      modifies this, entries
      ensures Valid()
      ensures key.None? <==> old(entries.next) >= MAX_CAPACITY
      ensures key.None? ==> View() == old(View()) && issued == old(issued)
      ensures key.Some? ==>
                && key.value !in old(issued) && key.value !in old(View()) && issued == old(issued) + {key.value}
                && View() == old(View())[key.value := value]
    {
      var slot := entries.next;
      if slot >= MAX_CAPACITY {
        return None;
      }
      entries.HeadIsVacant();
      InsertedIsUpdate(Model(), generationLimit, slot, value);
      if |generations| <= slot {
        generations := generations + [1];
      }
      var k := OpKey(slot, generations[slot]);
      var _ := entries.Insert(Some(value));
      issued := issued + {k};
      activeLen := activeLen + 1;
      hide Sound, Contents;
      assert Model() == Inserted(old(Model()), slot, value);
      return Some(k);
    }

    /** `get_mut` followed by an assignment. */
    method Set(key: OpKey, value: T)
      requires Valid() && key in View()
      modifies this, entries
      ensures Valid() && issued == old(issued)
      ensures View() == old(View())[key := value]
    {
      FindIsLookup(Model(), generationLimit, key);
      StoredIsUpdate(Model(), generationLimit, key.slot, value);
      entries.Put(key.slot, Some(value));
      hide Sound, Contents;
      assert View() == old(View())[key := value];
    }

    /** The iterator: every live key exactly once. */
    method Keys() returns (keys: seq<OpKey>)
      requires Valid()
      ensures forall k :: k in keys <==> k in View()
      ensures forall i, j | 0 <= i < j < |keys| :: keys[i] != keys[j]
    {
      var slots := entries.Keys();
      keys := [];
      var i := 0;
      while i < |slots|
        invariant 0 <= i <= |slots|
        invariant forall k | k in keys :: k.slot in slots[..i] && Live(Model(), k.slot) && k == OpKey(k.slot, generations[k.slot])
        invariant forall j | 0 <= j < i && Live(Model(), slots[j]) :: OpKey(slots[j], generations[slots[j]]) in keys
        invariant forall a, b | 0 <= a < b < |keys| :: keys[a] != keys[b]
      {
        assert slots[..i + 1] == slots[..i] + [slots[i]];
        if HoldsOperation(slots[i]) {
          keys := keys + [OpKey(slots[i], generations[slots[i]])];
        }
        i := i + 1;
      }
      forall k ensures k in keys <==> k in View() {
        FindIsLookup(Model(), generationLimit, k);
        if k in View() {
          assert k.slot in entries.Contents();
        }
      }
    }

    /** Removing a key forgets it for good; a key that finds nothing changes nothing. */
    method Remove(key: OpKey) returns (value: Option<T>)
      requires Valid()
      modifies this, entries
      ensures Valid()
      ensures value == if key in old(View()) then Some(old(View())[key]) else None
      ensures issued == old(issued)
      ensures View() == old(View()) - {key}
    {
      FindIsLookup(Model(), generationLimit, key);
      if key.slot >= |generations| || generations[key.slot] != key.generation {
        return None;
      }
      var stored := entries.Get(key.slot);
      if stored.None? || stored.value.None? {
        return None;
      }
      value := stored.value;
      RemovedIsDeletion(Model(), generationLimit, key.slot, entries.next);
      hide Sound, Contents;
      activeLen := activeLen - 1;
      Vacate(key.slot);
    }

    /** The tail of `remove`, and one turn of `clear`: take the value out of the slot, then
        recycle the slot or retire it. */
    method Vacate(slot: nat)
      requires entries.Valid() && Sound(Model(), generationLimit) && Live(Model(), slot)
      modifies this`generations, entries
      ensures entries.Valid() && issued == old(issued) && |entries.entries| == |old(entries.entries)| == |generations|
      ensures Model() == Removed(old(Model()), generationLimit, slot, old(entries.next))
    {
      entries.Put(slot, None);
      if generations[slot] < generationLimit {
        generations := generations[slot := generations[slot] + 1];
        var _ := entries.TryRemove(slot);
      }
    }

    /** Clearing forgets every key; what was issued stays issued. */
    method Clear()
      requires Valid()
      modifies this, entries
      ensures Valid()
      ensures View() == map[] && issued == old(issued)
    {
      assert |generations| == |entries.entries|;
      hide Sound, Contents, Removed;
      var i := 0;
      while i < |entries.entries|
        invariant 0 <= i <= |entries.entries| == |generations|
        invariant entries.Valid() && Sound(Model(), generationLimit) && issued == old(issued)
        invariant forall s | 0 <= s < i :: !Live(Model(), s)
        decreases |entries.entries| - i
      {
        if HoldsOperation(i) {
          ghost var t := Model();
          RemovedIsDeletion(t, generationLimit, i, entries.next);
          forall s | 0 <= s <= i ensures !Live(Removed(t, generationLimit, i, entries.next), s) {
            RemovedEmptiesOneSlot(t, generationLimit, i, entries.next, s);
          }
          Vacate(i);
        }
        i := i + 1;
      }
      activeLen := 0;
      NothingLive(Model());
    }

    predicate HoldsOperation(s: nat)
      reads entries
    {
      s < |entries.entries| && entries.entries[s].Occupied? && entries.entries[s].value.Some?
    }
  }
}
