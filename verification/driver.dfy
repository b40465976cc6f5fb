/** The driver: submission under the cancellation scopes that are current, and cancellation of a
    scope reaching every operation that was submitted under it. */
module Driver {
  import opened Basics
  import opened Slabs
  import OpTables
  import One = UringOneshot
  import Backend = UringBackend
  import Scopes

  type OpKey = OpTables.OpKey
  type ScopeId = Scopes.ScopeId

  // ----- reach -----

  /** The scopes an operation was submitted under, for every operation. */
  type Bindings = map<OpKey, set<ScopeId>>

  /** An operation that nobody has asked to stop runs under active scopes only, and each of
      them has it on its list. */
  ghost predicate Reached(ops: Backend.Ops, r: Scopes.Registry, bound: Bindings, k: OpKey) {
    k in ops && ops[k].Oneshot? && !Backend.Ending(ops[k]) && k in bound ==>
      forall id | id in bound[k] :: !Scopes.IsCancelled(r, id) && k in r.live[id].ops
  }

  ghost predicate Reach(ops: Backend.Ops, r: Scopes.Registry, bound: Bindings) {
    forall k :: Reached(ops, r, bound, k)
  }

  /** What the invariant means for a caller: a scope that is cancelled or gone has no operation
      left that is not being cancelled or already complete. */
  lemma CancelledScopeIsQuiet(ops: Backend.Ops, r: Scopes.Registry, bound: Bindings, k: OpKey, id: ScopeId)
    requires Reach(ops, r, bound) && Scopes.IsCancelled(r, id)
    requires k in ops && ops[k].Oneshot? && k in bound && id in bound[k]
    ensures ops[k].one.Canceling? || ops[k].one.Completed?
  {
    assert Reached(ops, r, bound, k);
  }

  /** Steps of the table that start nothing: what runs afterwards ran before. */
  ghost predicate StartsNothing(ops: Backend.Ops, after: Backend.Ops) {
    forall k | k in after && after[k].Oneshot? && !Backend.Ending(after[k]) ::
      k in ops && ops[k].Oneshot? && !Backend.Ending(ops[k])
  }

  lemma StartsNothingKeepsReach(ops: Backend.Ops, after: Backend.Ops, r: Scopes.Registry, bound: Bindings)
    requires Reach(ops, r, bound) && StartsNothing(ops, after)
    ensures Reach(after, r, bound)
  {
    forall k ensures Reached(after, r, bound, k) {
      assert Reached(ops, r, bound, k);
    }
  }

  predicate Running(s: Option<Backend.State>) { s.Some? && s.value.Oneshot? && !Backend.Ending(s.value) }

  lemma {:induction false} RunningBefore(s: Option<Backend.State>, queue: seq<Backend.RawCqe>)
    ensures Running(Backend.SlotAfterAll(s, queue)) ==> Running(s)
  {
    if queue != [] {
      RunningBefore(s, queue[..|queue| - 1]);
    }
  }

  lemma DispatchStartsNothing(t: Backend.Turn, queue: seq<Backend.RawCqe>, shuttingDown: bool)
    ensures StartsNothing(t.ops, Backend.DispatchAll(t, queue, shuttingDown).ops)
  {
    var after := Backend.DispatchAll(t, queue, shuttingDown).ops;
    forall k | k in after && after[k].Oneshot? && !Backend.Ending(after[k])
      ensures k in t.ops && t.ops[k].Oneshot? && !Backend.Ending(t.ops[k])
    {
      Backend.OperationsDoNotInterfere(t, queue, shuttingDown, k);
      RunningBefore(Backend.At(t.ops, k), Backend.Naming(queue, k));
    }
  }

  lemma RetryStartsNothing(ops: Backend.Ops, accepts: set<OpKey>)
    ensures StartsNothing(ops, Backend.Retried(ops, accepts))
  {
  }

  lemma StartsNothingTransitive(a: Backend.Ops, b: Backend.Ops, c: Backend.Ops)
    requires StartsNothing(a, b) && StartsNothing(b, c)
    ensures StartsNothing(a, c)
  {
  }

  lemma CancelStartsNothing(ops: Backend.Ops, k: OpKey, pushed: bool)
    ensures StartsNothing(ops, Backend.CancelRequested(ops, k, pushed))
    ensures k in ops && ops[k].Oneshot? ==> Backend.Ending(Backend.CancelRequested(ops, k, pushed)[k])
  {
  }

  lemma OpenKeepsReach(ops: Backend.Ops, r: Scopes.Registry, bound: Bindings, id: ScopeId)
    requires Reach(ops, r, bound) && Scopes.Agree(r) && id !in r.issued
    ensures Reach(ops, Scopes.Opened(r, id), bound)
  {
    forall k ensures Reached(ops, Scopes.Opened(r, id), bound, k) {
      assert Reached(ops, r, bound, k);
    }
  }

  /** Binding to one more scope: the operation joins an active scope, or is being cancelled. */
  lemma BindKeepsReach(ops: Backend.Ops, r: Scopes.Registry, bound: Bindings, key: OpKey, id: ScopeId)
    requires Reach(ops, r, bound) && key in bound
    requires Scopes.IsCancelled(r, id) && key in ops && ops[key].Oneshot? ==> Backend.Ending(ops[key])
    ensures Reach(ops, Scopes.Joined(r, id, key), bound[key := bound[key] + {id}])
  {
    var joined, rebound := Scopes.Joined(r, id, key), bound[key := bound[key] + {id}];
    forall k ensures Reached(ops, joined, rebound, k) {
      assert Reached(ops, r, bound, k);
    }
  }

  lemma LeaveKeepsReach(ops: Backend.Ops, r: Scopes.Registry, bound: Bindings, key: OpKey)
    requires Reach(ops, r, bound)
    requires key in ops && ops[key].Oneshot? ==> Backend.Ending(ops[key])
    ensures Reach(ops, Scopes.Left(r, key), bound)
  {
    forall k ensures Reached(ops, Scopes.Left(r, key), bound, k) {
      assert Reached(ops, r, bound, k);
    }
  }

  /** Cancelling every operation on the scope's list makes up for the scope being gone. */
  lemma StopKeepsReach(ops: Backend.Ops, after: Backend.Ops, r: Scopes.Registry, stopped: Scopes.Registry, bound: Bindings, id: ScopeId)
    requires Reach(ops, r, bound) && StartsNothing(ops, after)
    requires stopped == Scopes.Stopped(r, id) || stopped == Scopes.Closed(r, id)
    requires !Scopes.IsCancelled(r, id) ==>
               forall k | k in r.live[id].ops && k in after && after[k].Oneshot? :: Backend.Ending(after[k])
    ensures Reach(after, stopped, bound)
  {
    forall k ensures Reached(after, stopped, bound, k) {
      assert Reached(ops, r, bound, k);
    }
  }

  // ----- several at once -----

  /** Joining every scope of a list, in order. */
  function JoinedAll(r: Scopes.Registry, ids: seq<ScopeId>, key: OpKey): Scopes.Registry {
    if ids == [] then r else Scopes.Joined(JoinedAll(r, ids[..|ids| - 1], key), ids[|ids| - 1], key)
  }

  /** Every active scope of the list gets the operation, the others and the rest stay as they are. */
  lemma {:induction false} JoinedAllReaches(r: Scopes.Registry, ids: seq<ScopeId>, key: OpKey, id: ScopeId)
    ensures var after := JoinedAll(r, ids, key);
            && (Scopes.IsCancelled(after, id) <==> Scopes.IsCancelled(r, id))
            && (!Scopes.IsCancelled(r, id) ==>
                  after.live[id] == r.live[id].(ops := r.live[id].ops + if id in ids then {key} else {}))
  {
    if ids != [] {
      JoinedAllReaches(r, ids[..|ids| - 1], key, id);
      JoinedAllReaches(r, ids[..|ids| - 1], key, ids[|ids| - 1]);
      assert ids == ids[..|ids| - 1] + [ids[|ids| - 1]];
    }
  }

  /** The operations on the list of an active scope. */
  function Listed(r: Scopes.Registry, id: ScopeId): set<OpKey> {
    if Scopes.IsCancelled(r, id) then {} else r.live[id].ops
  }

  /** Every operation of the list as a cancel request leaves it. */
  ghost predicate CancelledAll(ops: Backend.Ops, list: set<OpKey>, accepts: set<OpKey>, after: Backend.Ops) {
    && after.Keys == ops.Keys
    && forall k | k in ops ::
         after[k] == if k in list then Backend.CancelRequested(ops, k, k in accepts)[k] else ops[k]
  }

  lemma CancelledAllStartsNothing(ops: Backend.Ops, list: set<OpKey>, accepts: set<OpKey>, after: Backend.Ops)
    requires CancelledAll(ops, list, accepts, after)
    ensures StartsNothing(ops, after)
    ensures forall k | k in list && k in after && after[k].Oneshot? :: Backend.Ending(after[k])
    ensures forall k | k in list && k in after && after[k].Oneshot? ::
              Backend.NeedsPush(after[k]) <==> Backend.Untold(ops[k]) && k !in accepts
  {
    forall k | k in list && k in after && after[k].Oneshot?
      ensures Backend.Ending(after[k])
      ensures Backend.NeedsPush(after[k]) <==> Backend.Untold(ops[k]) && k !in accepts
    {
      assert ops[k].Oneshot?;
      Backend.CancelReaches(ops, k, k in accepts);
    }
  }

  // ----- the driver -----

  /** What the typed `complete` of an operation was given. */
  datatype Completed = Completed(payload: nat, content: nat)

  class Driver {
    const backend: Backend.IoUringBackend
    const scopes: Scopes.ScopeTable
    ghost var bound: Bindings

    ghost predicate Parts()
      reads this, backend, backend.ops, backend.ops.entries, scopes, scopes.entries
    {
      && backend.Valid() && scopes.Valid()
      && bound.Keys <= backend.ops.issued
    }

    ghost predicate Valid()
      reads this, backend, backend.ops, backend.ops.entries, scopes, scopes.entries
    {
      Parts() && Reach(backend.View(), scopes.View(), bound)
    }

    constructor (id: nat)
      ensures Valid() && bound == map[] && backend.View() == map[]
    {
      backend := new Backend.IoUringBackend();
      scopes := new Scopes.ScopeTable(id);
      bound := map[];
    }

    method CurrentScopesBlockSubmit(current: seq<ScopeId>) returns (blocked: bool)
      requires Valid()
      ensures blocked <==> exists id :: id in current && Scopes.IsCancelled(scopes.View(), id)
    {
      hide Scopes.Agree, Scopes.Sound, Slab<Scopes.Scope>.Valid, Reach, Backend.IoUringBackend.Valid;
      blocked := false;
      var i := 0;
      while i < |current|
        invariant 0 <= i <= |current|
        invariant blocked <==> exists j :: 0 <= j < i && Scopes.IsCancelled(scopes.View(), current[j])
      {
        var scope := scopes.Get(current[i]);
        if scope.None? || scope.value.Cancelled? {
          blocked := true;
        }
        i := i + 1;
      }
    }
  
    /** Every scope of the stack is told about the operation, or the operation is told to stop. */
    method BindKeyToCurrentScopes(key: OpKey, current: seq<ScopeId>, accepted: bool)
      requires Valid() && key in bound && bound[key] == {}
      modifies this, backend.ops, backend.ops.entries, scopes, scopes.entries
      ensures Valid() && bound == old(bound)[key := Scopes.Among(current)]
      ensures backend.ops.issued == old(backend.ops.issued)
      ensures backend.View().Keys == old(backend.View()).Keys
      ensures scopes.View() == JoinedAll(old(scopes.View()), current, key)
      ensures (forall id | id in current :: !Scopes.IsCancelled(old(scopes.View()), id)) ==> backend.View() == old(backend.View())
    {
      hide Backend.IoUringBackend.Valid, Backend.IoUringBackend.View, Scopes.ScopeTable.Valid, Scopes.ScopeTable.View, Reach,
        Backend.CancelRequested, Scopes.Joined, Scopes.IsCancelled, StartsNothing;
      var i := 0;
      assert bound[key] == Scopes.Among(current[..0]);
      while i < |current|
        invariant 0 <= i <= |current|
        invariant backend.Valid() && scopes.Valid() && backend.ops.issued == old(backend.ops.issued)
        invariant backend.View().Keys == old(backend.View()).Keys
        invariant Reach(backend.View(), scopes.View(), bound)
        invariant bound == old(bound)[key := Scopes.Among(current[..i])]
        invariant scopes.View() == JoinedAll(old(scopes.View()), current[..i], key)
        invariant (forall id | id in current :: !Scopes.IsCancelled(old(scopes.View()), id)) ==>
                    backend.View() == old(backend.View())
      {
        ghost var r := scopes.View();
        assert current[..i + 1][..i] == current[..i];
        JoinedAllReaches(old(scopes.View()), current[..i], key, current[i]);
        var attached := scopes.Attach(current[i], key);
        if attached.AlreadyCancelled? {
          CancelStartsNothing(backend.View(), key, accepted);
          StartsNothingKeepsReach(backend.View(), Backend.CancelRequested(backend.View(), key, accepted), r, bound);
          Backend.CancelTouchesOne(backend.View(), key, accepted);
          var _ := backend.CancelOp(key, accepted);
        }
        BindKeepsReach(backend.View(), r, bound, key, current[i]);
        bound := bound[key := bound[key] + {current[i]}];
        assert current[..i + 1] == current[..i] + [current[i]];
        assert Scopes.Among(current[..i + 1]) == Scopes.Among(current[..i]) + {current[i]};
        i := i + 1;
      }
      assert current[..i] == current;
    }

    /** Under a cancelled scope nothing is submitted and the payload comes back; otherwise a
        payload that is refused comes back too, and an accepted operation is bound to every
        current scope. */
    method TrySubmitOp(data: nat, current: seq<ScopeId>, pushed: bool, accepted: bool) returns (r: Backend.Submitted)
      requires Valid()
      modifies this, backend.ops, backend.ops.entries, scopes, scopes.entries
      ensures Valid()
      ensures (exists id :: id in current && Scopes.IsCancelled(old(scopes.View()), id)) ==> r == Backend.Refused(data)
      ensures r.Refused? ==>
                r.data == data && bound == old(bound) && backend.View() == old(backend.View()) && scopes.View() == old(scopes.View())
      ensures r.Accepted? ==>
                && r.key !in old(backend.View()) && r.key !in old(bound)
                && backend.View() == old(backend.View())[r.key := Backend.Oneshot(One.Submitted)]
                && scopes.View() == JoinedAll(old(scopes.View()), current, r.key)
                && bound == old(bound)[r.key := Scopes.Among(current)]
    {
      hide Backend.IoUringBackend.Valid, Backend.IoUringBackend.View, Scopes.ScopeTable.Valid, Scopes.ScopeTable.View, Reach;
      var blocked := CurrentScopesBlockSubmit(current);
      if blocked {
        return Backend.Refused(data);
      }
      r := backend.SubmitOp(data, pushed);
      if r.Accepted? {
        NewKeyKeepsReach(old(backend.View()), scopes.View(), bound, r.key);
        bound := bound[r.key := {}];
        BindKeyToCurrentScopes(r.key, current, accepted);
      }
    }

    method InsertScope() returns (id: Option<ScopeId>)
      requires Valid()
      modifies scopes, scopes.entries
      ensures Valid()
      ensures id.None? ==> scopes.View() == old(scopes.View())
      ensures id.Some? ==>
                id.value !in old(scopes.View()).issued && scopes.View() == Scopes.Opened(old(scopes.View()), id.value)
    {
      assert Scopes.Agree(scopes.View());
      hide Backend.IoUringBackend.Valid, Backend.IoUringBackend.View, Scopes.ScopeTable.Valid, Scopes.ScopeTable.View, Reach;
      id := scopes.Insert();
      if id.Some? {
        OpenKeepsReach(backend.View(), old(scopes.View()), bound, id.value);
      }
    }

    /** After a scope is cancelled, every live oneshot operation submitted under it is being
        cancelled or complete, whether or not the ring took the cancel requests, and its waiters
        are handed out to be woken. */
    method CancelScope(id: ScopeId, accepts: set<OpKey>) returns (woken: map<nat, nat>)
      requires Valid()
      modifies backend.ops, backend.ops.entries, scopes, scopes.entries
      ensures Valid() && scopes.View() == Scopes.Stopped(old(scopes.View()), id)
      ensures Scopes.IsCancelled(scopes.View(), id)
      ensures scopes.View().live - {id} == old(scopes.View()).live - {id}
      ensures CancelledAll(old(backend.View()), Listed(old(scopes.View()), id), accepts, backend.View())
      ensures forall k | k in backend.View() && backend.View()[k].Oneshot? && k in bound && id in bound[k] ::
                Backend.Ending(backend.View()[k])
      ensures woken == if Scopes.IsCancelled(old(scopes.View()), id) then map[] else old(scopes.View()).live[id].waiters
    {
      hide Backend.IoUringBackend.Valid, Backend.IoUringBackend.View, Scopes.ScopeTable.Valid, Scopes.ScopeTable.View;
      var ops;
      ops, woken := scopes.Cancel(id);
      ApplyScopeCancel(ops, accepts);
      CancelledAllStartsNothing(old(backend.View()), ops, accepts, backend.View());
      StopKeepsReach(old(backend.View()), backend.View(), old(scopes.View()), scopes.View(), bound, id);
      forall k | k in backend.View() && backend.View()[k].Oneshot? && k in bound && id in bound[k]
        ensures Backend.Ending(backend.View()[k])
      {
        CancelledScopeIsQuiet(backend.View(), scopes.View(), bound, k, id);
      }
    }

    /** Dropping the source reaches as far as cancelling it. */
    method RemoveScope(id: ScopeId, accepts: set<OpKey>) returns (woken: map<nat, nat>)
      requires Valid()
      modifies backend.ops, backend.ops.entries, scopes, scopes.entries
      ensures Valid() && scopes.View() == Scopes.Closed(old(scopes.View()), id)
      ensures Scopes.IsCancelled(scopes.View(), id)
      ensures scopes.View().live - {id} == old(scopes.View()).live - {id}
      ensures CancelledAll(old(backend.View()), Listed(old(scopes.View()), id), accepts, backend.View())
      ensures forall k | k in backend.View() && backend.View()[k].Oneshot? && k in bound && id in bound[k] ::
                Backend.Ending(backend.View()[k])
      ensures woken == if Scopes.IsCancelled(old(scopes.View()), id) then map[] else old(scopes.View()).live[id].waiters
    {
      hide Backend.IoUringBackend.Valid, Backend.IoUringBackend.View, Scopes.ScopeTable.Valid, Scopes.ScopeTable.View;
      var ops;
      ops, woken := scopes.Remove(id);
      ApplyScopeCancel(ops, accepts);
      CancelledAllStartsNothing(old(backend.View()), ops, accepts, backend.View());
      StopKeepsReach(old(backend.View()), backend.View(), old(scopes.View()), scopes.View(), bound, id);
      forall k | k in backend.View() && backend.View()[k].Oneshot? && k in bound && id in bound[k]
        ensures Backend.Ending(backend.View()[k])
      {
        CancelledScopeIsQuiet(backend.View(), scopes.View(), bound, k, id);
      }
    }

    /** Cancels each operation of the snapshot, in any order, and no other. */
    method ApplyScopeCancel(snapshot: set<OpKey>, accepts: set<OpKey>)
      requires backend.Valid()
      modifies backend.ops, backend.ops.entries
      ensures backend.Valid() && backend.ops.issued == old(backend.ops.issued)
      ensures CancelledAll(old(backend.View()), snapshot, accepts, backend.View())
    {
      hide Backend.IoUringBackend.Valid, Backend.IoUringBackend.View;
      var todo := snapshot;
      while todo != {}
        invariant todo <= snapshot
        invariant backend.Valid() && backend.ops.issued == old(backend.ops.issued)
        invariant CancelledAll(old(backend.View()), snapshot - todo, accepts, backend.View())
        decreases |todo|
      {
        var k :| k in todo;
        Backend.CancelTouchesOne(backend.View(), k, k in accepts);
        var _ := backend.CancelOp(k, k in accepts);
        todo := todo - {k};
      }
    }

    /** Dropping a future: cancel, leave the scopes, detach. A completion that was waiting for the
        future goes to the typed `complete` with the future's payload; otherwise the payload is in
        the slot. */
    method DropOp(op: Backend.Op, accepted: bool) returns (completed: Option<Completed>)
      requires Valid()
      requires op.key in backend.View() ==>
                 backend.View()[op.key].Oneshot? && !One.Remove(backend.View()[op.key].one, op.data).RemovePanic?
      modifies op, backend.ops, backend.ops.entries, scopes, scopes.entries
      ensures Valid()
      ensures scopes.View() == Scopes.Left(old(scopes.View()), op.key)
      ensures var before := old(backend.View());
              if op.key !in before then completed == None && backend.View() == before
              else if before[op.key].one.Completed? then
                && backend.View() == before - {op.key}
                && completed == if old(op.data).Some? then Some(Completed(old(op.data).value, before[op.key].one.cqe)) else None
              else
                && completed == None && op.data == None
                && backend.View().Keys == before.Keys && Backend.Ending(backend.View()[op.key])
                && (Backend.NeedsPush(backend.View()[op.key]) <==> Backend.Untold(before[op.key]) && !accepted)
                && One.HeldPayload(backend.View()[op.key].one) == old(op.data)
    {
      hide Backend.IoUringBackend.Valid, Backend.IoUringBackend.View, Scopes.ScopeTable.Valid, Scopes.ScopeTable.View, Reach;
      ghost var before := backend.View();
      CancelStartsNothing(before, op.key, accepted);
      if op.key in before {
        Backend.CancelReaches(before, op.key, accepted);
      }
      StartsNothingKeepsReach(before, Backend.CancelRequested(before, op.key, accepted), scopes.View(), bound);
      var _ := backend.CancelOp(op.key, accepted);
      LeaveKeepsReach(backend.View(), scopes.View(), bound, op.key);
      scopes.Detach(op.key);
      ghost var canceled := backend.View();
      var completion := backend.RemoveOp(op);
      StartsNothingKeepsReach(canceled, backend.View(), scopes.View(), bound);
      completed := None;
      if completion.Some? {
        var data := op.TakeData();
        if data.Some? {
          completed := Some(Completed(data.value, completion.value));
        }
      }
    }

    /** A ready poll leaves the scopes and runs the typed `complete` on the future's payload. */
    method PollOp(op: Backend.Op, waker: nat) returns (completed: Option<Completed>)
      requires Valid() && op.data.Some?
      requires op.key in backend.View() && backend.View()[op.key].Oneshot?
               && !One.Poll(backend.View()[op.key].one, waker).PollPanic?
      modifies op, backend.ops, backend.ops.entries, scopes, scopes.entries
      ensures Valid()
      ensures var before := old(backend.View());
              if before[op.key].one.Completed? then
                && completed == Some(Completed(old(op.data).value, before[op.key].one.cqe)) && op.data == None
                && backend.View() == before - {op.key}
                && scopes.View() == Scopes.Left(old(scopes.View()), op.key)
              else
                && completed == None && op.data == old(op.data)
                && backend.View().Keys == before.Keys && backend.View()[op.key].Oneshot?
                && One.HeldWaker(backend.View()[op.key].one) == Some(waker)
                && scopes.View() == old(scopes.View())
    {
      hide Backend.IoUringBackend.Valid, Backend.IoUringBackend.View, Scopes.ScopeTable.Valid, Scopes.ScopeTable.View, Reach;
      var r := backend.PollOp(op, waker);
      StartsNothingKeepsReach(old(backend.View()), backend.View(), scopes.View(), bound);
      if r.Pending? {
        return None;
      }
      LeaveKeepsReach(backend.View(), scopes.View(), bound, op.key);
      scopes.Detach(op.key);
      var data := op.TakeData();
      return Some(Completed(data.value, r.content));
    }

    /** A driver turn is the backend's, hands on what that returns, and keeps the reach of every
        scope. */
    method DispatchCompletions(queue: seq<Backend.RawCqe>, accepts: set<OpKey>, rearmAccepted: bool)
      returns (deferred: Option<seq<Backend.Action>>)
      requires Valid()
      modifies backend`wakeupReadArmed, backend.ops, backend.ops.entries
      ensures Valid() && scopes.View() == old(scopes.View())
      ensures StartsNothing(old(backend.View()), backend.View())
      ensures deferred == Backend.Returned(
                Backend.DispatchAll(Backend.Turn(old(backend.View()), [], [], [], false), queue, backend.shuttingDown),
                accepts, rearmAccepted)
    {
      hide Backend.IoUringBackend.Valid, Backend.IoUringBackend.View, Scopes.ScopeTable.Valid, Scopes.ScopeTable.View, Reach;
      ghost var start := Backend.Turn(backend.View(), [], [], [], false);
      DispatchStartsNothing(start, queue, backend.shuttingDown);
      RetryStartsNothing(Backend.DispatchAll(start, queue, backend.shuttingDown).ops, accepts);
      var discarded;
      deferred, discarded := backend.DispatchCompletions(queue, accepts, rearmAccepted);
      StartsNothingTransitive(start.ops, Backend.DispatchAll(start, queue, backend.shuttingDown).ops,
                              Backend.Retried(Backend.DispatchAll(start, queue, backend.shuttingDown).ops, accepts));
      StartsNothingKeepsReach(start.ops, backend.View(), scopes.View(), bound);
    }
  }

  lemma NewKeyKeepsReach(ops: Backend.Ops, r: Scopes.Registry, bound: Bindings, key: OpKey)
    requires Reach(ops, r, bound) && key !in bound
    ensures Reach(ops[key := Backend.Oneshot(One.Submitted)], r, bound[key := {}])
  {
    var after, rebound := ops[key := Backend.Oneshot(One.Submitted)], bound[key := {}];
    forall k ensures Reached(after, r, rebound, k) {
      assert Reached(ops, r, bound, k);
    }
  }
}
