/** Cancellation scopes: a generational table of scopes, each with the operations running under
    it, and the inverse index from an operation to its scopes. */
module Scopes {
  import opened Basics
  import opened Slabs
  import OpTables

  type OpKey = OpTables.OpKey

  datatype ScopeId = ScopeId(table: nat, slot: nat, generation: nat)

  /** `waiters` maps a registration to the waker it holds. */
  datatype Scope = Active(ops: set<OpKey>, waiters: map<nat, nat>) | Cancelled

  // ----- the packed half of an id -----

  /** `from_parts` and the accessors that take the packed word apart again. */
  function FromParts(table: nat, slot: nat, generation: nat): Option<(nat, nat)> {
    if slot > U32_MAX || generation == 0 then None else Some((table, generation * 0x1_0000_0000 + slot))
  }

  function ToParts(packed: (nat, nat)): ScopeId {
    ScopeId(packed.0, packed.1 % 0x1_0000_0000, packed.1 / 0x1_0000_0000)
  }

  /** Packing loses nothing, so an id is exactly its table, slot and generation; only slot
      numbers beyond 32 bits have none. */
  lemma PartsRoundTrip(table: nat, slot: nat, generation: nat)
    requires 1 <= generation <= U32_MAX
    ensures FromParts(table, slot, generation).None? <==> slot > U32_MAX
    ensures slot <= U32_MAX ==>
              && FromParts(table, slot, generation).value.1 <= USIZE_MAX
              && ToParts(FromParts(table, slot, generation).value) == ScopeId(table, slot, generation)
  {
    if slot <= U32_MAX {
      var packed := generation * 0x1_0000_0000 + slot;
      assert packed / 0x1_0000_0000 == generation && packed % 0x1_0000_0000 == slot;
    }
  }

  // ----- the compact list of scopes of one operation -----

  datatype AttachedScopes = Empty | One(a: ScopeId) | Two(a: ScopeId, b: ScopeId) | More(ids: seq<ScopeId>) {

    function Items(): seq<ScopeId> {
      match this
      case Empty => []
      case One(a) => [a]
      case Two(a, b) => [a, b]
      case More(ids) => ids
    }

    predicate Contains(id: ScopeId) {
      match this
      case Empty => false
      case One(a) => a == id
      case Two(a, b) => a == id || b == id
      case More(ids) => id in ids
    }

    function Insert(id: ScopeId): AttachedScopes {
      if Contains(id) then this
      else match this
        case Empty => One(id)
        case One(a) => Two(a, id)
        case Two(a, b) => More([a, b, id])
        case More(ids) => More(ids + [id])
    }

    function Ids(): set<ScopeId> { Among(Items()) }
  }

  function Among(ids: seq<ScopeId>): set<ScopeId> { set id | id in ids }

  /** The four shapes are one list: an insertion appends what was missing and repeats nothing. */
  lemma InsertAppendsOnce(s: AttachedScopes, id: ScopeId)
    ensures s.Contains(id) <==> id in s.Items()
    ensures s.Insert(id).Items() == if id in s.Items() then s.Items() else s.Items() + [id]
    ensures s.Insert(id).Ids() == s.Ids() + {id}
  {
    match s
    case Empty =>
    case One(_) =>
    case Two(_, _) =>
    case More(_) =>
  }

  ghost function IndexOf(attachments: map<OpKey, AttachedScopes>): map<OpKey, set<ScopeId>> {
    map key | key in attachments :: attachments[key].Ids()
  }

  lemma IndexInsert(attachments: map<OpKey, AttachedScopes>, key: OpKey, id: ScopeId)
    ensures var attached := if key in attachments then attachments[key] else Empty;
            var index := IndexOf(attachments);
            IndexOf(attachments[key := attached.Insert(id)]) == index[key := (if key in index then index[key] else {}) + {id}]
  {
    var attached := if key in attachments then attachments[key] else Empty;
    InsertAppendsOnce(attached, id);
    var index := IndexOf(attachments);
    assert attached.Ids() == if key in index then index[key] else {};
    assert IndexOf(attachments[key := attached.Insert(id)]) == index[key := attached.Ids() + {id}];
  }

  // ----- the table as a value -----

  /** The scopes that exist, the index, and every id ever issued. */
  datatype Registry = Registry(live: map<ScopeId, Scope>, index: map<OpKey, set<ScopeId>>, issued: set<ScopeId>)

  /** A missing, stale or foreign id counts as cancelled. */
  predicate IsCancelled(r: Registry, id: ScopeId) { id !in r.live || r.live[id].Cancelled? }

  function ScopesOf(r: Registry, key: OpKey): set<ScopeId> { if key in r.index then r.index[key] else {} }

  /** The scope-to-operation sets and the operation-to-scope index agree on active scopes. */
  predicate AgreeOn(r: Registry, id: ScopeId, key: OpKey) {
    !IsCancelled(r, id) ==> (key in r.live[id].ops <==> id in ScopesOf(r, key))
  }

  ghost predicate Agree(r: Registry) {
    && (forall id, key :: AgreeOn(r, id, key))
    && r.live.Keys <= r.issued
    && (forall key | key in r.index :: r.index[key] <= r.issued)
  }

  function Opened(r: Registry, id: ScopeId): Registry {
    r.(live := r.live[id := Active({}, map[])], issued := r.issued + {id})
  }

  function Stopped(r: Registry, id: ScopeId): Registry {
    if id in r.live then r.(live := r.live[id := Cancelled]) else r
  }

  /** Dropping the source: cancelled, then forgotten, unless its slot is out of generations. */
  function Closed(r: Registry, id: ScopeId): Registry {
    if id in r.live && id.generation < U32_MAX then r.(live := r.live - {id}) else Stopped(r, id)
  }

  function Joined(r: Registry, id: ScopeId, key: OpKey): Registry {
    if IsCancelled(r, id) then r
    else r.(live := r.live[id := r.live[id].(ops := r.live[id].ops + {key})],
            index := r.index[key := ScopesOf(r, key) + {id}])
  }

  function WithoutOp(s: Scope, key: OpKey): Scope { if s.Active? then s.(ops := s.ops - {key}) else s }

  function Without(live: map<ScopeId, Scope>, ids: set<ScopeId>, key: OpKey): map<ScopeId, Scope> {
    map id | id in live :: if id in ids then WithoutOp(live[id], key) else live[id]
  }

  lemma WithoutNone(live: map<ScopeId, Scope>, key: OpKey)
    ensures Without(live, Among([]), key) == live
  {
  }

  lemma WithoutOneMore(live: map<ScopeId, Scope>, ids: seq<ScopeId>, i: nat, key: OpKey)
    requires i < |ids|
    ensures var before := Without(live, Among(ids[..i]), key);
            Without(live, Among(ids[..i + 1]), key) ==
              if ids[i] in before then before[ids[i] := WithoutOp(before[ids[i]], key)] else before
  {
    assert ids[..i + 1] == ids[..i] + [ids[i]];
    assert Among(ids[..i + 1]) == Among(ids[..i]) + {ids[i]};
    var before := Without(live, Among(ids[..i]), key);
    if ids[i] in before {
      assert WithoutOp(before[ids[i]], key) == WithoutOp(live[ids[i]], key);
    }
  }

  function Left(r: Registry, key: OpKey): Registry {
    r.(live := Without(r.live, ScopesOf(r, key), key), index := r.index - {key})
  }

  function Waiting(r: Registry, id: ScopeId, waiters: map<nat, nat>): Registry {
    if IsCancelled(r, id) then r else r.(live := r.live[id := r.live[id].(waiters := waiters)])
  }

  datatype Change =
    | Open(id: ScopeId) | Stop(id: ScopeId) | Close(id: ScopeId)
    | Join(id: ScopeId, key: OpKey) | Leave(key: OpKey) | Wait(id: ScopeId, waiters: map<nat, nat>)

  predicate Allowed(r: Registry, c: Change) { c.Open? ==> c.id !in r.issued }

  function After(r: Registry, c: Change): Registry {
    match c
    case Open(id) => Opened(r, id)
    case Stop(id) => Stopped(r, id)
    case Close(id) => Closed(r, id)
    case Join(id, key) => Joined(r, id, key)
    case Leave(key) => Left(r, key)
    case Wait(id, waiters) => Waiting(r, id, waiters)
  }

  lemma AgreesOnAfter(r: Registry, c: Change, id: ScopeId, key: OpKey)
    requires Agree(r) && Allowed(r, c)
    ensures AgreeOn(After(r, c), id, key)
  {
    assert AgreeOn(r, id, key);
    match c
    case Open(_) =>
    case Stop(_) =>
    case Close(_) =>
    case Join(_, k) => assert AgreeOn(r, id, k);
    case Leave(_) =>
    case Wait(_, _) =>
  }

  lemma ChangeKeepsAgreement(r: Registry, c: Change)
    requires Agree(r) && Allowed(r, c)
    ensures Agree(After(r, c))
  {
    forall id, key ensures AgreeOn(After(r, c), id, key) {
      AgreesOnAfter(r, c, id, key);
    }
  }

  lemma ChangeKeepsCancelled(r: Registry, c: Change, id: ScopeId)
    requires Allowed(r, c) && id in r.issued && IsCancelled(r, id)
    ensures id in After(r, c).issued && IsCancelled(After(r, c), id)
  {
  }

  /** Every registration in use has a number below `n`. */
  ghost predicate WaitersBelow(live: map<ScopeId, Scope>, n: nat) {
    forall id, w | id in live && live[id].Active? && w in live[id].waiters :: w < n
  }

  lemma ChangeKeepsBelow(r: Registry, c: Change, n: nat)
    requires WaitersBelow(r.live, n) && (c.Wait? ==> forall w | w in c.waiters :: w < n)
    ensures WaitersBelow(After(r, c).live, n)
  {
  }

  ghost predicate IsRun(states: seq<Registry>, changes: seq<Change>) {
    && |states| == |changes| + 1
    && states[0] == Registry(map[], map[], {})
    && forall i | 0 <= i < |changes| :: Allowed(states[i], changes[i]) && states[i + 1] == After(states[i], changes[i])
  }

  /** In every reachable state the two indexes agree. */
  lemma {:induction false} IndexesAgree(states: seq<Registry>, changes: seq<Change>, k: nat)
    requires IsRun(states, changes) && k < |states|
    ensures Agree(states[k])
  {
    if k > 0 {
      IndexesAgree(states, changes, k - 1);
      ChangeKeepsAgreement(states[k - 1], changes[k - 1]);
    }
  }

  /** An issued id once cancelled stays cancelled, whatever happens to its slot. */
  lemma {:induction false} CancellationIsSticky(states: seq<Registry>, changes: seq<Change>, j: nat, k: nat, id: ScopeId)
    requires IsRun(states, changes) && j <= k < |states|
    requires id in states[j].issued && IsCancelled(states[j], id)
    ensures id in states[k].issued && IsCancelled(states[k], id)
  {
    if j < k {
      CancellationIsSticky(states, changes, j, k - 1, id);
      ChangeKeepsCancelled(states[k - 1], changes[k - 1], id);
    }
  }

  /** The change ends the scope. */
  predicate Ends(c: Change, id: ScopeId) { c == Stop(id) || c == Close(id) }

  /** What one change does to whether an id is active. */
  lemma ActiveStep(r: Registry, c: Change, id: ScopeId)
    requires Agree(r) && Allowed(r, c)
    ensures !IsCancelled(After(r, c), id) <==> c == Open(id) || (!IsCancelled(r, id) && !Ends(c, id))
    ensures id in After(r, c).issued <==> c == Open(id) || id in r.issued
  {
  }

  /** The scope was opened and nothing has ended it since. */
  predicate OpenSince(changes: seq<Change>, k: nat, id: ScopeId)
    requires k <= |changes|
  {
    exists j | 0 <= j < k :: changes[j] == Open(id) && forall m | j < m < k :: !Ends(changes[m], id)
  }

  lemma OpenSinceStep(changes: seq<Change>, k: nat, id: ScopeId)
    requires 0 < k <= |changes|
    ensures OpenSince(changes, k, id) <==>
              changes[k - 1] == Open(id) || (OpenSince(changes, k - 1, id) && !Ends(changes[k - 1], id))
  {
    if OpenSince(changes, k - 1, id) && !Ends(changes[k - 1], id) {
      var j :| 0 <= j < k - 1 && changes[j] == Open(id) && forall m | j < m < k - 1 :: !Ends(changes[m], id);
      assert forall m | j < m < k :: !Ends(changes[m], id);
    }
  }

  /** A scope is active from the moment it is opened until it is cancelled or dropped, and at no
      other time; in particular nothing makes it active again. */
  lemma {:induction false} ActiveUntilStopped(states: seq<Registry>, changes: seq<Change>, k: nat, id: ScopeId)
    requires IsRun(states, changes) && k < |states|
    ensures !IsCancelled(states[k], id) <==> OpenSince(changes, k, id)
  {
    if k > 0 {
      ActiveUntilStopped(states, changes, k - 1, id);
      IndexesAgree(states, changes, k - 1);
      ActiveStep(states[k - 1], changes[k - 1], id);
      OpenSinceStep(changes, k, id);
    }
  }

  /** Cancelling or dropping a scope that was issued cancels it for good. */
  lemma StoppedForGood(states: seq<Registry>, changes: seq<Change>, j: nat, k: nat, id: ScopeId)
    requires IsRun(states, changes) && j < k < |states| && id in states[j].issued && Ends(changes[j], id)
    ensures IsCancelled(states[k], id)
  {
    IndexesAgree(states, changes, j);
    ActiveStep(states[j], changes[j], id);
    CancellationIsSticky(states, changes, j + 1, k, id);
  }

  /** The operation joined the scope while that was active, and has not left since. */
  predicate JoinedSince(states: seq<Registry>, changes: seq<Change>, k: nat, id: ScopeId, key: OpKey)
    requires k <= |changes| < |states|
  {
    exists j | 0 <= j < k ::
      changes[j] == Join(id, key) && !IsCancelled(states[j], id) && forall m | j < m < k :: changes[m] != Leave(key)
  }

  lemma JoinedSinceStep(states: seq<Registry>, changes: seq<Change>, k: nat, id: ScopeId, key: OpKey)
    requires 0 < k <= |changes| < |states|
    ensures JoinedSince(states, changes, k, id, key) <==>
              || (changes[k - 1] == Join(id, key) && !IsCancelled(states[k - 1], id))
              || (JoinedSince(states, changes, k - 1, id, key) && changes[k - 1] != Leave(key))
  {
    if JoinedSince(states, changes, k - 1, id, key) && changes[k - 1] != Leave(key) {
      var j :| 0 <= j < k - 1 && changes[j] == Join(id, key) && !IsCancelled(states[j], id)
               && forall m | j < m < k - 1 :: changes[m] != Leave(key);
      assert forall m | j < m < k :: changes[m] != Leave(key);
    }
  }

  lemma MemberStep(r: Registry, c: Change, id: ScopeId, key: OpKey)
    requires Agree(r) && Allowed(r, c) && !IsCancelled(After(r, c), id)
    ensures key in After(r, c).live[id].ops <==>
              || c == Join(id, key)
              || (!IsCancelled(r, id) && key in r.live[id].ops && c != Leave(key))
  {
    assert AgreeOn(r, id, key);
  }

  lemma {:induction false} NeverOpenedNeverJoined(states: seq<Registry>, changes: seq<Change>, k: nat, id: ScopeId, key: OpKey)
    requires IsRun(states, changes) && k < |states| && id !in states[k].issued
    ensures !JoinedSince(states, changes, k, id, key)
  {
    if k > 0 {
      IndexesAgree(states, changes, k - 1);
      ActiveStep(states[k - 1], changes[k - 1], id);
      NeverOpenedNeverJoined(states, changes, k - 1, id, key);
      JoinedSinceStep(states, changes, k, id, key);
    }
  }

  /** An active scope lists exactly the operations that joined it and have not left. */
  lemma {:induction false} MembersAreThoseWhoJoined(states: seq<Registry>, changes: seq<Change>, k: nat, id: ScopeId, key: OpKey)
    requires IsRun(states, changes) && k < |states| && !IsCancelled(states[k], id)
    ensures key in states[k].live[id].ops <==> JoinedSince(states, changes, k, id, key)
  {
    var r, c := states[k - 1], changes[k - 1];
    IndexesAgree(states, changes, k - 1);
    ActiveStep(r, c, id);
    MemberStep(r, c, id, key);
    JoinedSinceStep(states, changes, k, id, key);
    if c == Open(id) {
      NeverOpenedNeverJoined(states, changes, k - 1, id, key);
    } else {
      MembersAreThoseWhoJoined(states, changes, k - 1, id, key);
    }
  }

  /** The waiters last stored for the scope. */
  function LastWaiters(changes: seq<Change>, k: nat, id: ScopeId): map<nat, nat>
    requires k <= |changes|
  {
    if k == 0 || changes[k - 1] == Open(id) then map[]
    else if changes[k - 1].Wait? && changes[k - 1].id == id then changes[k - 1].waiters
    else LastWaiters(changes, k - 1, id)
  }

  /** An active scope has the waiters that were stored last, and none if none were. */
  lemma {:induction false} WaitersAreTheLastStored(states: seq<Registry>, changes: seq<Change>, k: nat, id: ScopeId)
    requires IsRun(states, changes) && k < |states| && !IsCancelled(states[k], id)
    ensures states[k].live[id].waiters == LastWaiters(changes, k, id)
  {
    var r, c := states[k - 1], changes[k - 1];
    IndexesAgree(states, changes, k - 1);
    ActiveStep(r, c, id);
    if c != Open(id) {
      WaitersAreTheLastStored(states, changes, k - 1, id);
    }
  }

  /** What cancelling and dropping a scope mean for the table: that scope is cancelled, a dropped
      one is forgotten while its slot has generations left, and nothing else changes. */
  lemma StopCancels(r: Registry, id: ScopeId)
    ensures IsCancelled(Stopped(r, id), id) && IsCancelled(Closed(r, id), id)
    ensures id.generation < U32_MAX ==> id !in Closed(r, id).live
    ensures Stopped(r, id).live - {id} == r.live - {id} && Closed(r, id).live - {id} == r.live - {id}
    ensures Stopped(r, id).(live := r.live) == r && Closed(r, id).(live := r.live) == r
  {
  }

  // ----- slots and generations -----

  datatype Table = Table(id: nat, slots: seq<Entry<Scope>>, generations: seq<nat>, issued: set<ScopeId>)

  function Lookup(t: Table, id: ScopeId): Option<Scope> {
    if id.table == t.id && id.slot < |t.generations| && t.generations[id.slot] == id.generation
       && id.slot < |t.slots| && t.slots[id.slot].Occupied?
    then Some(t.slots[id.slot].value)
    else None
  }

  ghost function LiveScopes(t: Table): map<ScopeId, Scope> {
    map id | id in t.issued && Lookup(t, id).Some? :: Lookup(t, id).value
  }

  /** An issued id names the past of its slot, or its present while the slot is occupied. */
  predicate IssuedEarlier(t: Table, id: ScopeId)
    requires |t.slots| <= |t.generations|
  {
    && id.table == t.id && id.slot < |t.slots| && id.generation <= t.generations[id.slot]
    && (id.generation == t.generations[id.slot] ==> t.slots[id.slot].Occupied?)
  }

  ghost predicate Sound(t: Table) {
    && |t.slots| <= U32_MAX + 1 && |t.slots| <= |t.generations| <= |t.slots| + 1
    && (forall s | 0 <= s < |t.generations| :: 1 <= t.generations[s] <= U32_MAX)
    && (|t.generations| > |t.slots| ==> t.generations[|t.slots|] == 1)
    && (forall id | id in t.issued :: IssuedEarlier(t, id))
    && (forall s | 0 <= s < |t.slots| && t.slots[s].Occupied? :: ScopeId(t.id, s, t.generations[s]) in t.issued)
  }

  /** Looking an id up in its slot is looking it up in the registry, for every id. */
  lemma LookupIsMembership(t: Table, id: ScopeId)
    requires Sound(t)
    ensures Lookup(t, id) == if id in LiveScopes(t) then Some(LiveScopes(t)[id]) else None
  {
    assert Lookup(t, id).Some? ==> id == ScopeId(t.id, id.slot, t.generations[id.slot]);
  }

  /** The id handed out for a vacant slot was never issued before. */
  lemma FreshSlot(t: Table, slot: nat, link: Table)
    requires Sound(t) && slot <= |t.slots| && slot <= U32_MAX && |t.generations| > slot
    requires slot < |t.slots| ==> t.slots[slot].Vacant?
    requires link == t.(slots := if slot < |t.slots| then t.slots[slot := Occupied(Active({}, map[]))]
                                 else t.slots + [Occupied(Active({}, map[]))],
                        issued := t.issued + {ScopeId(t.id, slot, t.generations[slot])})
    ensures ScopeId(t.id, slot, t.generations[slot]) !in t.issued
    ensures Sound(link)
    ensures LiveScopes(link) == LiveScopes(t)[ScopeId(t.id, slot, t.generations[slot]) := Active({}, map[])]
  {
    var id := ScopeId(t.id, slot, t.generations[slot]);
    assert id in t.issued ==> IssuedEarlier(t, id);
    forall j | j in t.issued ensures IssuedEarlier(link, j) && Lookup(link, j) == Lookup(t, j) {
      assert IssuedEarlier(t, j);
    }
    assert Lookup(link, id) == Some(Active({}, map[]));
  }

  lemma SlotUpdate(t: Table, id: ScopeId, s: Scope)
    requires Sound(t) && id in LiveScopes(t)
    ensures var u := t.(slots := t.slots[id.slot := Occupied(s)]);
            Sound(u) && LiveScopes(u) == LiveScopes(t)[id := s]
  {
    var u := t.(slots := t.slots[id.slot := Occupied(s)]);
    forall j | j in t.issued ensures IssuedEarlier(u, j) && (j != id ==> Lookup(u, j) == Lookup(t, j)) {
      assert IssuedEarlier(t, j);
    }
    assert Lookup(u, id) == Some(s);
  }

  /** Freeing the slot under the next generation forgets the id and no other. */
  lemma SlotRecycled(t: Table, id: ScopeId, link: nat)
    requires Sound(t) && id in LiveScopes(t) && id.generation < U32_MAX
    ensures var u := t.(slots := t.slots[id.slot := Vacant(link)],
                        generations := t.generations[id.slot := id.generation + 1]);
            Sound(u) && LiveScopes(u) == LiveScopes(t) - {id}
  {
    var u := t.(slots := t.slots[id.slot := Vacant(link)], generations := t.generations[id.slot := id.generation + 1]);
    forall j | j in t.issued ensures IssuedEarlier(u, j) && (j != id ==> Lookup(u, j) == Lookup(t, j)) {
      assert IssuedEarlier(t, j);
    }
    assert Lookup(u, id) == None;
  }

  // ----- the table -----

  datatype AttachResult = Attached | AlreadyCancelled

  /** `Exhausted` is the panic when no number is left for a new registration. */
  datatype SubscribeResult = Ready | Pending(registration: nat) | Exhausted

  class ScopeTable {
    const id: nat
    const entries: Slab<Scope>
    var generations: seq<nat>
    var attachments: map<OpKey, AttachedScopes>
    var nextWaiter: nat
    ghost var issued: set<ScopeId>

    ghost function Model(): Table
      reads this, entries
    {
      Table(id, entries.entries, generations, issued)
    }

    ghost function View(): Registry
      reads this, entries
    {
      Registry(LiveScopes(Model()), IndexOf(attachments), issued)
    }

    ghost predicate Valid()
      reads this, entries
    {
      && entries.Valid() && Sound(Model()) && Agree(View())
      && WaitersBelow(LiveScopes(Model()), nextWaiter) && nextWaiter <= USIZE_MAX
    }

    constructor (id: nat)
      ensures Valid() && View() == Registry(map[], map[], {}) && this.id == id && fresh(entries)
    {
      this.id := id;
      entries := new Slab<Scope>();
      generations, attachments, nextWaiter, issued := [], map[], 1, {};
      new;
      assert View() == Registry(map[], map[], {});
    }

    method Get(id: ScopeId) returns (scope: Option<Scope>)
      requires entries.Valid() && Sound(Model())
      ensures scope == if id in View().live then Some(View().live[id]) else None
    {
      LookupIsMembership(Model(), id);
      if id.table != this.id || id.slot >= |generations| || generations[id.slot] != id.generation {
        return None;
      }
      return entries.Get(id.slot);
    }

    /** Writes through `get_mut`. */
    method Store(id: ScopeId, s: Scope)
      requires entries.Valid() && Sound(Model()) && id in LiveScopes(Model())
      modifies entries
      ensures entries.Valid() && Sound(Model()) && LiveScopes(Model()) == old(LiveScopes(Model()))[id := s]
    {
      SlotUpdate(Model(), id, s);
      entries.Put(id.slot, s);
    }

    /** A new scope gets an id that was never issued before; `None` is the panic when the slot
        number no longer fits 32 bits. */
    method Insert() returns (id: Option<ScopeId>)
      requires Valid()
      modifies this, entries
      ensures Valid()
      ensures id.None? ==> old(entries.next) > U32_MAX && View() == old(View())
      ensures id.Some? ==> Allowed(old(View()), Open(id.value)) && View() == Opened(old(View()), id.value)
    {
      var slot := entries.next;
      entries.HeadIsVacant();
      assert View() == old(View());
      if |generations| <= slot {
        generations := generations + [1];
        SameScopes(old(Model()), Model());
      }
      if slot > U32_MAX {
        return None;
      }
      ghost var t := Model();
      var newId := ScopeId(this.id, slot, generations[slot]);
      var _ := entries.Insert(Active({}, map[]));
      issued := issued + {newId};
      FreshSlot(t, slot, Model());
      ChangeKeepsAgreement(old(View()), Open(newId));
      ChangeKeepsBelow(old(View()), Open(newId), nextWaiter);
      hide Sound, LiveScopes, Agree, WaitersBelow;
      assert View() == Opened(old(View()), newId);
      return Some(newId);
    }

    /** Marks the scope cancelled and hands back its operations and waiters; a second call, or a
        call with an id that is gone, hands back nothing. */
    method Cancel(id: ScopeId) returns (ops: set<OpKey>, waiters: map<nat, nat>)
      requires Valid()
      modifies this, entries
      ensures Valid() && View() == Stopped(old(View()), id) && nextWaiter == old(nextWaiter)
      ensures IsCancelled(View(), id) && View().live - {id} == old(View()).live - {id}
      ensures if IsCancelled(old(View()), id) then ops == {} && waiters == map[]
              else Active(ops, waiters) == old(View()).live[id]
    {
      hide Agree, Sound, LiveScopes, WaitersBelow, Slab<Scope>.Valid, Slab<Scope>.Contents;
      var scope := Get(id);
      ChangeKeepsAgreement(View(), Stop(id));
      ChangeKeepsBelow(View(), Stop(id), nextWaiter);
      StopCancels(View(), id);
      if scope.None? {
        return {}, map[];
      }
      Store(id, Cancelled);
      assert View() == Stopped(old(View()), id);
      match scope.value
      case Active(o, w) => return o, w;
      case Cancelled => return {}, map[];
    }

    method Remove(id: ScopeId) returns (ops: set<OpKey>, waiters: map<nat, nat>)
      requires Valid()
      modifies this, entries
      ensures Valid() && View() == Closed(old(View()), id)
      ensures IsCancelled(View(), id) && View().live - {id} == old(View()).live - {id}
      ensures if IsCancelled(old(View()), id) then ops == {} && waiters == map[]
              else Active(ops, waiters) == old(View()).live[id]
    {
      hide Agree, Sound, LiveScopes, WaitersBelow, Slab<Scope>.Valid, Slab<Scope>.Contents;
      ChangeKeepsAgreement(View(), Close(id));
      ChangeKeepsBelow(View(), Close(id), nextWaiter);
      StopCancels(View(), id);
      ops, waiters := Cancel(id);
      var scope := Get(id);
      if scope.None? {
        return;
      }
      if id.generation < U32_MAX {
        Recycle(id);
        assert View() == Closed(old(View()), id);
      }
    }

    method Recycle(id: ScopeId)
      requires entries.Valid() && Sound(Model()) && id in LiveScopes(Model()) && id.generation < U32_MAX
      modifies this`generations, entries
      ensures entries.Valid() && Sound(Model()) && LiveScopes(Model()) == old(LiveScopes(Model())) - {id}
    {
      SlotRecycled(Model(), id, entries.next);
      var _ := entries.TryRemove(id.slot);
      generations := generations[id.slot := id.generation + 1];
    }

    /** Registers the operation on both sides, or on neither. */
    method Attach(id: ScopeId, key: OpKey) returns (r: AttachResult)
      requires Valid()
      modifies this, entries
      ensures Valid() && View() == Joined(old(View()), id, key)
      ensures r.AlreadyCancelled? <==> IsCancelled(old(View()), id)
    {
      hide Agree, Sound, LiveScopes, WaitersBelow, IndexOf, Slab<Scope>.Valid, Slab<Scope>.Contents;
      var scope := Get(id);
      ChangeKeepsAgreement(View(), Join(id, key));
      ChangeKeepsBelow(View(), Join(id, key), nextWaiter);
      if scope.None? || scope.value.Cancelled? {
        return AlreadyCancelled;
      }
      var joined := scope.value.(ops := scope.value.ops + {key});
      Store(id, joined);
      var attached := if key in attachments then attachments[key] else Empty;
      IndexInsert(attachments, key, id);
      attachments := attachments[key := attached.Insert(id)];
      assert View() == Joined(old(View()), id, key);
      return Attached;
    }

    /** Takes the operation out of every scope that registered it. */
    method Detach(key: OpKey)
      requires Valid()
      modifies this, entries
      ensures Valid() && View() == Left(old(View()), key)
    {
      hide Agree, Sound, LiveScopes, WaitersBelow, Slab<Scope>.Valid, Slab<Scope>.Contents;
      ChangeKeepsAgreement(View(), Leave(key));
      ChangeKeepsBelow(View(), Leave(key), nextWaiter);
      if key !in attachments {
        assert View() == Left(old(View()), key);
        return;
      }
      var items := attachments[key].Items();
      assert IndexOf(attachments - {key}) == IndexOf(attachments) - {key};
      attachments := attachments - {key};
      ghost var live := LiveScopes(Model());
      var i := 0;
      WithoutNone(live, key);
      hide Without, Among;
      while i < |items|
        invariant 0 <= i <= |items|
        invariant entries.Valid() && Sound(Model()) && issued == old(issued) && attachments == old(attachments) - {key}
        invariant nextWaiter == old(nextWaiter)
        invariant LiveScopes(Model()) == Without(live, Among(items[..i]), key)
      {
        var scope := Get(items[i]);
        WithoutOneMore(live, items, i, key);
        if scope.Some? && scope.value.Active? {
          Store(items[i], scope.value.(ops := scope.value.ops - {key}));
        }
        i := i + 1;
      }
      assert items[..i] == items;
    }

    /** A live registration gets the new waker under the same number; any other call registers
        under a number that no waiter of any scope has. An inactive scope registers nothing and is
        ready at once. */
    method Subscribe(id: ScopeId, registration: Option<nat>, waker: nat) returns (r: SubscribeResult)
      requires Valid()
      modifies this, entries
      ensures Valid() && nextWaiter >= old(nextWaiter)
      ensures var renews := registration.Some? && !IsCancelled(old(View()), id)
                            && registration.value in old(View()).live[id].waiters;
              var inactive := IsCancelled(old(View()), id);
              && (r.Exhausted? <==> old(nextWaiter) == USIZE_MAX && !renews && !(registration.Some? && inactive))
              && (r.Ready? <==> inactive && !r.Exhausted?)
              && (r.Pending? ==>
                    && r.registration == (if renews then registration.value else old(nextWaiter))
                    && View() == Waiting(old(View()), id, old(View()).live[id].waiters[r.registration := waker])
                    && (!renews ==> forall j | j in old(View()).live && old(View()).live[j].Active? ::
                                      r.registration !in old(View()).live[j].waiters))
      ensures !r.Pending? ==> View() == old(View())
    {
      var scope := Get(id);
      if registration.Some? {
        if scope.None? || scope.value.Cancelled? {
          return Ready;
        }
        if registration.value in scope.value.waiters {
          SetWaiters(id, scope.value, scope.value.waiters[registration.value := waker]);
          return Pending(registration.value);
        }
      }
      var newest := nextWaiter;
      if newest == USIZE_MAX {
        return Exhausted;
      }
      nextWaiter := nextWaiter + 1;
      assert View() == old(View());
      if scope.None? || scope.value.Cancelled? {
        return Ready;
      }
      SetWaiters(id, scope.value, scope.value.waiters[newest := waker]);
      return Pending(newest);
    }

    method Unsubscribe(id: ScopeId, registration: nat)
      requires Valid()
      modifies this, entries
      ensures Valid() && nextWaiter == old(nextWaiter)
      ensures View() == if IsCancelled(old(View()), id) then old(View())
                        else Waiting(old(View()), id, old(View()).live[id].waiters - {registration})
    {
      var scope := Get(id);
      if scope.Some? && scope.value.Active? {
        SetWaiters(id, scope.value, scope.value.waiters - {registration});
      }
    }

    method SetWaiters(id: ScopeId, scope: Scope, waiters: map<nat, nat>)
      requires Valid() && id in View().live && scope == View().live[id] && scope.Active?
      requires forall w | w in waiters :: w < nextWaiter
      modifies entries
      ensures Valid() && View() == Waiting(old(View()), id, waiters)
    {
      hide Agree, Sound, LiveScopes, WaitersBelow, Slab<Scope>.Valid, Slab<Scope>.Contents;
      ChangeKeepsAgreement(View(), Wait(id, waiters));
      ChangeKeepsBelow(View(), Wait(id, waiters), nextWaiter);
      Store(id, scope.(waiters := waiters));
      assert View() == Waiting(old(View()), id, waiters);
    }
  }

  /** Making room for one more generation changes no scope. */
  lemma SameScopes(t: Table, u: Table)
    requires Sound(t) && |t.generations| == |t.slots| && u == t.(generations := t.generations + [1])
    ensures Sound(u) && LiveScopes(u) == LiveScopes(t)
  {
    forall j | j in t.issued ensures IssuedEarlier(u, j) && Lookup(u, j) == Lookup(t, j) {
      assert IssuedEarlier(t, j);
    }
  }
}
