/** Slot storage with a free list threaded through the vacant slots. */
module Slabs {
  import opened Basics

  datatype Entry<T> = Vacant(next: nat) | Occupied(value: T)

  /** Following the links from `head` visits `free`, slot by slot, and ends at the vector length. */
  predicate Chain<T>(entries: seq<Entry<T>>, head: nat, free: seq<nat>)
    decreases |free|
  {
    if free == [] then head == |entries|
    else
      && head == free[0] < |entries| && entries[head].Vacant?
      && Chain(entries, entries[head].next, free[1..])
  }

  /** The links determine the list: there is only one way to follow them. */
  lemma {:induction false} ChainUnique<T>(entries: seq<Entry<T>>, head: nat, a: seq<nat>, b: seq<nat>)
    requires Chain(entries, head, a) && Chain(entries, head, b)
    ensures a == b
    decreases |a|
  {
    if a != [] && b != [] {
      ChainUnique(entries, entries[head].next, a[1..], b[1..]);
      assert a == [head] + a[1..] && b == [head] + b[1..];
    }
  }

  lemma {:induction false} ChainMember<T>(entries: seq<Entry<T>>, head: nat, free: seq<nat>, k: nat)
    requires Chain(entries, head, free) && k in free
    ensures k < |entries| && entries[k].Vacant?
    decreases |free|
  {
    if k != free[0] {
      ChainMember(entries, entries[head].next, free[1..], k);
    }
  }

  /** A slot outside the list can change without the list noticing. */
  lemma {:induction false} ChainFrame<T>(entries: seq<Entry<T>>, head: nat, free: seq<nat>, k: nat, e: Entry<T>)
    requires Chain(entries, head, free) && k < |entries| && k !in free
    ensures Chain(entries[k := e], head, free)
    decreases |free|
  {
    if free != [] {
      ChainFrame(entries, entries[head].next, free[1..], k, e);
    }
  }

  predicate Distinct(s: seq<nat>) { forall i, j | 0 <= i < j < |s| :: s[i] != s[j] }

  class Slab<T> {
    var entries: seq<Entry<T>>
    var len: nat
    var next: nat
    ghost var free: seq<nat>

    /** The free list visits every vacant slot exactly once, and the rest are counted by `len`. */
    ghost predicate Valid()
      reads this
    {
      && Chain(entries, next, free)
      && Distinct(free)
      && (forall k | 0 <= k < |entries| && entries[k].Vacant? :: k in free)
      && len + |free| == |entries|
    }

    function Contents(): map<nat, T>
      reads this
    {
      map k | 0 <= k < |entries| && entries[k].Occupied? :: entries[k].value
    }

    constructor ()
      ensures Valid() && Contents() == map[] && entries == [] && next == 0
    {
      entries, len, next, free := [], 0, 0, [];
    }

    function Get(key: nat): (r: Option<T>)
      reads this
      ensures r == if key in Contents() then Some(Contents()[key]) else None
    {
      if key < |entries| && entries[key].Occupied? then Some(entries[key].value) else None
    }

    /** Stores at the head of the free list, or in a new slot when the list is empty; the key
        was not in use. */
    method Insert(val: T) returns (key: nat)
      requires Valid()
      modifies this
      ensures Valid()
      ensures key == old(next) && key !in old(Contents()) && key <= |old(entries)|
      ensures Contents() == old(Contents())[key := val]
      ensures len == old(len) + 1
      ensures entries == if key < |old(entries)| then old(entries)[key := Occupied(val)] else old(entries) + [Occupied(val)]
    {
      key := next;
      len := len + 1;
      if key == |entries| {
        assert free == [];
        entries := entries + [Occupied(val)];
        next := key + 1;
      } else {
        assert free[0] == key && key !in free[1..];
        next := entries[key].next;
        ChainFrame(entries, next, free[1..], key, Occupied(val));
        entries := entries[key := Occupied(val)];
        free := free[1..];
      }
    }

    /** Empties an occupied slot and makes it the next one to be reused. */
    method TryRemove(key: nat) returns (val: Option<T>)
      requires Valid()
      modifies this
      ensures Valid()
      ensures val == old(Get(key))
      ensures Contents() == old(Contents()) - {key}
      ensures val.Some? ==> next == key && len == old(len) - 1
      ensures val.None? ==> entries == old(entries) && len == old(len) && next == old(next)
      ensures val.Some? ==> entries == old(entries)[key := Vacant(old(next))]
    {
      if key < |entries| && entries[key].Occupied? {
        val := Some(entries[key].value);
        if key in free {
          ChainMember(entries, next, free, key);
        }
        ChainFrame(entries, next, free, key, Vacant(next));
        SomeOccupied(key);
        entries := entries[key := Vacant(next)];
        free := [key] + free;
        len := len - 1;
        next := key;
        assert free[1..] == old(free);
      } else {
        val := None;
      }
    }

    /** The next key is a vacant slot, or the slot about to be appended. */
    lemma HeadIsVacant()
      requires Valid()
      ensures next <= |entries|
      ensures next < |entries| ==> entries[next].Vacant?
    {
    }

    /** An occupied slot is counted: distinct vacant slots cannot fill the vector. */
    lemma SomeOccupied(key: nat)
      requires Valid() && key < |entries| && entries[key].Occupied?
      ensures len > 0
    {
      forall k | k in free ensures k < |entries| && k != key {
        ChainMember(entries, next, free, k);
      }
      DistinctCard(free);
      CardLe(Elements(free), Range(|entries|) - {key});
    }

    /** `get_mut` followed by an assignment. */
    method Put(key: nat, val: T)
      requires Valid() && key in Contents()
      modifies this
      ensures Valid()
      ensures Contents() == old(Contents())[key := val]
      ensures entries == old(entries)[key := Occupied(val)] && len == old(len) && next == old(next)
    {
      if key in free {
        ChainMember(entries, next, free, key);
      }
      ChainFrame(entries, next, free, key, Occupied(val));
      entries := entries[key := Occupied(val)];
    }

    /** The iterator: every stored key once, in ascending order, and exactly `len` of them, so
        the length it advertises is never wrong. */
    method Keys() returns (keys: seq<nat>)
      requires Valid()
      ensures forall k :: k in keys <==> k in Contents()
      ensures forall i, j | 0 <= i < j < |keys| :: keys[i] < keys[j]
      ensures |keys| == len
    {
      keys := [];
      var i := 0;
      ghost var vacant: set<nat> := {};
      while i < |entries|
        invariant 0 <= i <= |entries|
        invariant forall k :: k in keys <==> 0 <= k < i && entries[k].Occupied?
        invariant forall a | 0 <= a < |keys| :: keys[a] < i
        invariant forall a, b | 0 <= a < b < |keys| :: keys[a] < keys[b]
        invariant forall k :: k in vacant <==> 0 <= k < i && entries[k].Vacant?
        invariant |keys| + |vacant| == i
      {
        if entries[i].Occupied? {
          keys := keys + [i];
        } else {
          vacant := vacant + {i};
        }
        i := i + 1;
      }
      forall k | k in free ensures k in vacant {
        ChainMember(entries, next, free, k);
      }
      assert vacant == Elements(free);
      DistinctCard(free);
    }
  }

  function Elements(s: seq<nat>): set<nat> { set k | k in s }

  lemma {:induction false} DistinctCard(s: seq<nat>)
    requires Distinct(s)
    ensures |Elements(s)| == |s|
  {
    if s == [] {
      assert Elements(s) == {};
    } else {
      DistinctCard(s[1..]);
      assert s[0] !in Elements(s[1..]);
      assert Elements(s) == Elements(s[1..]) + {s[0]};
    }
  }

  function Range(n: nat): (r: set<nat>)
    ensures forall k :: k in r <==> 0 <= k < n
    ensures |r| == n
  {
    if n == 0 then {} else Range(n - 1) + {n - 1}
  }

  lemma {:induction false} CardLe<T>(a: set<T>, b: set<T>)
    requires a <= b
    ensures |a| <= |b|
  {
    if a != {} {
      var x :| x in a;
      CardLe(a - {x}, b - {x});
    }
  }
}
