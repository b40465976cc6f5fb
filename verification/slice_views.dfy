/** Owned views of completion buffers: slices of slices, and cursors into collections of buffers.
    A view denotes a stretch of the initialized bytes and a stretch of the capacity of what lies
    beneath; `None` stands for a panic. */
module SliceViews {
  import opened Basics

  /** One byte of an allocation; `None` was never written. */
  type Cell = Option<nat>

  /** A buffer: its whole capacity, how much of it is initialized, and whether that is fixed (an
      array, a mapping) or follows `set_len` (a vector). */
  datatype Buf = Buf(cells: seq<Cell>, len: nat, fixed: bool) {
    predicate Ok() { len <= |cells| && (fixed ==> len == |cells|) }
  }

  datatype View = Base(buf: Buf) | Slice(inner: View, start: nat, end: Option<nat>) {
    predicate Ok() {
      match this
      case Base(b) => b.Ok()
      case Slice(inner, _, _) => inner.Ok()
    }
  }

  function Min(a: nat, b: nat): nat { if a <= b then a else b }

  function Cut(s: seq<Cell>, start: nat, end: Option<nat>): Option<seq<Cell>> {
    var e := if end.Some? then Min(end.value, |s|) else |s|;
    if start <= e then Some(s[start..e]) else None
  }

  function CutOf(s: Option<seq<Cell>>, start: nat, end: Option<nat>): Option<seq<Cell>> {
    if s.Some? then Cut(s.value, start, end) else None
  }

  /** `as_init`. */
  function Init(v: View): Option<seq<Cell>>
    requires v.Ok()
  {
    match v
    case Base(b) => Some(b.cells[..b.len])
    case Slice(inner, start, end) => CutOf(Init(inner), start, end)
  }

  /** `as_uninit`. */
  function Cap(v: View): Option<seq<Cell>> {
    match v
    case Base(b) => Some(b.cells)
    case Slice(inner, start, end) => CutOf(Cap(inner), start, end)
  }

  // ----- flattening and chaining -----

  function Plus(a: nat, b: nat): Option<nat> { if a + b <= USIZE_MAX then Some(a + b) else None }

  /** The end of a flattened view: the inner end moved by the outer start and clipped to the outer
      end, or the outer end. The outer option is the overflow panic. */
  function FlatEnd(outerStart: nat, outerEnd: Option<nat>, innerEnd: Option<nat>): Option<Option<nat>> {
    if innerEnd.None? then Some(outerEnd)
    else match Plus(outerStart, innerEnd.value)
      case None => None
      case Some(e) => Some(Some(if outerEnd.Some? then Min(e, outerEnd.value) else e))
  }

  function Flatten(v: View): Option<View>
    requires v.Slice? && v.inner.Slice?
  {
    var outer := v.inner;
    match Plus(outer.start, v.start)
    case None => None
    case Some(start) =>
      match FlatEnd(outer.start, outer.end, v.end)
      case None => None
      case Some(end) => Some(Slice(outer.inner, start, end))
  }

  lemma CutOfCut(s: seq<Cell>, outerStart: nat, outerEnd: Option<nat>, start: nat, end: Option<nat>)
    requires FlatEnd(outerStart, outerEnd, end).Some?
    ensures CutOf(Cut(s, outerStart, outerEnd), start, end) == Cut(s, outerStart + start, FlatEnd(outerStart, outerEnd, end).value)
  {
    var nested := CutOf(Cut(s, outerStart, outerEnd), start, end);
    var flat := Cut(s, outerStart + start, FlatEnd(outerStart, outerEnd, end).value);
    assert nested.Some? <==> flat.Some?;
    if flat.Some? {
      var outer := Cut(s, outerStart, outerEnd).value;
      assert |nested.value| == |flat.value|;
      forall i | 0 <= i < |flat.value| ensures nested.value[i] == flat.value[i] {
        assert nested.value[i] == outer[start + i] == s[outerStart + start + i];
      }
      assert nested.value == flat.value;
    }
  }

  /** A flattened view denotes the same initialized bytes and the same capacity as the nested one,
      whatever the lengths of the buffer beneath, and panics on access exactly when that does. */
  lemma FlattenPreservesMeaning(v: View)
    requires v.Ok() && v.Slice? && v.inner.Slice? && Flatten(v).Some?
    ensures Flatten(v).value.Ok() && Init(Flatten(v).value) == Init(v) && Cap(Flatten(v).value) == Cap(v)
  {
    var outer := v.inner;
    if Init(outer.inner).Some? {
      CutOfCut(Init(outer.inner).value, outer.start, outer.end, v.start, v.end);
    }
    if Cap(outer.inner).Some? {
      CutOfCut(Cap(outer.inner).value, outer.start, outer.end, v.start, v.end);
    }
  }

  /** Flattening itself fails exactly when an offset does not fit a `usize` … */
  lemma FlattenSucceedsIff(v: View)
    requires v.Slice? && v.inner.Slice?
    ensures Flatten(v).Some? <==>
              && v.inner.start + v.start <= USIZE_MAX
              && (v.end.Some? ==> v.inner.start + v.end.value <= USIZE_MAX)
  {
  }

  datatype Bound = Included(n: nat) | Excluded(n: nat) | Unbounded

  function StartOf(b: Bound): Option<nat> {
    match b
    case Included(n) => Some(n)
    case Excluded(n) => Plus(n, 1)
    case Unbounded => Some(0)
  }

  function EndOf(b: Bound): Option<Option<nat>> {
    match b
    case Included(n) => if Plus(n, 1).Some? then Some(Plus(n, 1)) else None
    case Excluded(n) => Some(Some(n))
    case Unbounded => Some(None)
  }

  predicate InRange(v: View, start: nat, end: Option<nat>)
    requires v.Ok()
  {
    Init(v).Some? && start <= |Init(v).value| && (end.Some? ==> start <= end.value)
  }

  /** `IoBufExt::slice`: a view around whatever is there. */
  function Nested(v: View, lo: Bound, hi: Bound): Option<View>
    requires v.Ok()
  {
    if StartOf(lo).None? || EndOf(hi).None? || !InRange(v, StartOf(lo).value, EndOf(hi).value) then None
    else Some(Slice(v, StartOf(lo).value, EndOf(hi).value))
  }

  /** `Slice::slice`: a view relative to this one, without nesting. */
  function Chained(v: View, lo: Bound, hi: Bound): Option<View>
    requires v.Ok() && v.Slice?
  {
    if StartOf(lo).None? || EndOf(hi).None? then None
    else
      var relativeStart, relativeEnd := StartOf(lo).value, EndOf(hi).value;
      if !InRange(v, relativeStart, relativeEnd) then None
      else match Plus(v.start, relativeStart)
        case None => None
        case Some(start) =>
          match FlatEnd(v.start, v.end, relativeEnd)
          case None => None
          case Some(end) => Some(Slice(v.inner, start, end))
  }

  /** … and a view that reads perfectly well can be one of those: nested with the largest end
      inside a view that does not start at zero. */
  lemma FlattenCanOverflow() returns (v: View)
    ensures v.Ok() && v.Slice? && v.inner.Slice?
    ensures Nested(v.inner, Unbounded, Excluded(USIZE_MAX)) == Some(v)
    ensures Init(v) == Some([Some(7)]) && Flatten(v).None?
  {
    var outer := Slice(Base(Buf([Some(6), Some(7)], 2, false)), 1, None);
    v := Slice(outer, 0, Some(USIZE_MAX));
    assert Init(outer).value == [Some(7)];
    assert Init(v).value == [Some(7)];
  }

  /** A chained slice is the nested one flattened, panics included. */
  lemma ChainedIsNestedFlattened(v: View, lo: Bound, hi: Bound)
    requires v.Ok() && v.Slice?
    ensures Chained(v, lo, hi) == if Nested(v, lo, hi).Some? then Flatten(Nested(v, lo, hi).value) else None
  {
  }

  /** The range as the caller means it: byte `i` is at or after the lower bound and before the upper. */
  predicate Selects(lo: Bound, hi: Bound, i: nat) {
    && (lo.Included? ==> lo.n <= i) && (lo.Excluded? ==> lo.n < i)
    && (hi.Included? ==> i <= hi.n) && (hi.Excluded? ==> i < hi.n)
  }

  /** A bound that cannot be turned into an offset, a range that starts beyond what is initialized, or
      one that ends before it starts. */
  predicate BadRange(lo: Bound, hi: Bound, len: nat) {
    || (lo.Excluded? && lo.n >= USIZE_MAX) || (hi.Included? && hi.n >= USIZE_MAX)
    || (lo.Included? && lo.n > len) || (lo.Excluded? && lo.n + 1 > len)
    || (lo.Included? && ((hi.Included? && hi.n + 1 < lo.n) || (hi.Excluded? && hi.n < lo.n)))
    || (lo.Excluded? && ((hi.Included? && hi.n < lo.n) || (hi.Excluded? && hi.n < lo.n + 1)))
  }

  /** A slice shows exactly the initialized bytes its range selects, and is refused exactly for a bad
      range. */
  lemma SliceShowsItsRange(v: View, lo: Bound, hi: Bound) returns (a: nat, b: nat)
    requires v.Ok() && Init(v).Some?
    ensures Nested(v, lo, hi).None? <==> BadRange(lo, hi, |Init(v).value|)
    ensures Nested(v, lo, hi).Some? ==>
              && a <= b <= |Init(v).value|
              && Nested(v, lo, hi).value.Ok() && Init(Nested(v, lo, hi).value) == Some(Init(v).value[a..b])
              && forall i | 0 <= i < |Init(v).value| :: Selects(lo, hi, i) <==> a <= i < b
  {
    a, b := 0, 0;
    if Nested(v, lo, hi).Some? {
      var end := EndOf(hi).value;
      a := StartOf(lo).value;
      b := if end.Some? then Min(end.value, |Init(v).value|) else |Init(v).value|;
    }
  }

  /** Any number of chained slices, against the same number of nested ones. */
  function ChainAll(v: View, ranges: seq<(Bound, Bound)>): Option<View>
    requires v.Ok() && v.Slice?
    ensures var w := ChainAll(v, ranges); w.Some? ==> w.value.Ok() && w.value.Slice?
  {
    if ranges == [] then Some(v)
    else
      var w := ChainAll(v, ranges[..|ranges| - 1]);
      if w.None? then None else Chained(w.value, ranges[|ranges| - 1].0, ranges[|ranges| - 1].1)
  }

  function NestAll(v: View, ranges: seq<(Bound, Bound)>): Option<View>
    requires v.Ok()
    ensures var w := NestAll(v, ranges); w.Some? ==> w.value.Ok()
  {
    if ranges == [] then Some(v)
    else
      var w := NestAll(v, ranges[..|ranges| - 1]);
      if w.None? then None else Nested(w.value, ranges[|ranges| - 1].0, ranges[|ranges| - 1].1)
  }

  lemma {:induction false} ChainDenotesTheNest(v: View, ranges: seq<(Bound, Bound)>)
    requires v.Ok() && v.Slice? && ChainAll(v, ranges).Some?
    ensures NestAll(v, ranges).Some?
    ensures Init(NestAll(v, ranges).value) == Init(ChainAll(v, ranges).value)
    ensures Cap(NestAll(v, ranges).value) == Cap(ChainAll(v, ranges).value)
  {
    if ranges != [] {
      var front := ranges[..|ranges| - 1];
      var (lo, hi) := ranges[|ranges| - 1];
      ChainDenotesTheNest(v, front);
      var w := ChainAll(v, front).value;
      ChainedIsNestedFlattened(w, lo, hi);
      FlattenPreservesMeaning(Nested(w, lo, hi).value);
    }
  }

  // ----- writing through a view -----

  function Offset(v: View): nat { if v.Base? then 0 else Offset(v.inner) + v.start }

  function BaseOf(v: View): Buf { if v.Base? then v.buf else BaseOf(v.inner) }

  function WithBase(v: View, b: Buf): View { if v.Base? then Base(b) else v.(inner := WithBase(v.inner, b)) }

  function Put(cells: seq<Cell>, pos: nat, data: seq<Cell>): seq<Cell>
    requires pos + |data| <= |cells|
  {
    cells[..pos] + data + cells[pos + |data|..]
  }

  lemma Subrange(s: seq<Cell>, a: nat, b: nat, c: nat, d: nat)
    requires a <= b <= |s| && c <= d <= b - a
    ensures s[a..b][c..d] == s[a + c..a + d]
  {
    var x, y := s[a..b][c..d], s[a + c..a + d];
    assert |x| == |y|;
    forall i | 0 <= i < |x| ensures x[i] == y[i] {
      assert x[i] == s[a..b][c + i] == s[a + c + i];
    }
  }

  lemma PutInside(s: seq<Cell>, a: nat, b: nat, data: seq<Cell>)
    requires a <= b <= |s| && |data| <= b - a
    ensures Put(s, a, data)[a..b] == Put(s[a..b], 0, data)
  {
  }

  lemma {:induction false} CapIsInside(v: View)
    requires Cap(v).Some?
    ensures Offset(v) + |Cap(v).value| <= |BaseOf(v).cells|
    ensures Cap(v).value == BaseOf(v).cells[Offset(v)..Offset(v) + |Cap(v).value|]
  {
    if v.Slice? {
      CapIsInside(v.inner);
      var all, inner, n := BaseOf(v).cells, Cap(v.inner).value, |Cap(v).value|;
      assert Cap(v).value == inner[v.start..v.start + n];
      Subrange(all, Offset(v.inner), Offset(v.inner) + |inner|, v.start, v.start + n);
    } else {
      assert v.buf.cells[0..|v.buf.cells|] == v.buf.cells;
    }
  }

  /** `data` written at the start of the view's capacity. */
  function Write(v: View, data: seq<Cell>): View
    requires Cap(v).Some? && |data| <= |Cap(v).value|
  {
    CapIsInside(v);
    WithBase(v, BaseOf(v).(cells := Put(BaseOf(v).cells, Offset(v), data)))
  }

  function SetLen(v: View, n: nat): Option<View>
    decreases v
  {
    match v
    case Base(b) => if n > |b.cells| then None else Some(Base(if b.fixed then b else b.(len := n)))
    case Slice(inner, start, end) =>
      match Plus(start, n)
      case None => None
      case Some(m) =>
        match SetLen(inner, m)
        case None => None
        case Some(w) => Some(Slice(w, start, end))
  }

  lemma {:induction false} SetLenOfGrowable(v: View, n: nat)
    requires v.Ok() && Cap(v).Some? && n <= |Cap(v).value|
    requires !BaseOf(v).fixed && |BaseOf(v).cells| <= USIZE_MAX
    ensures SetLen(v, n).Some? && SetLen(v, n).value.Ok()
    ensures Init(SetLen(v, n).value) == Some(Cap(v).value[..n])
    ensures BaseOf(SetLen(v, n).value) == BaseOf(v).(len := Offset(v) + n)
    decreases v
  {
    if v.Slice? {
      CapIsInside(v);
      SetLenOfGrowable(v.inner, v.start + n);
      var inner := Cap(v.inner).value;
      var e := v.start + |Cap(v).value|;
      assert Cap(v).value == inner[v.start..e];
      Subrange(inner, v.start, e, 0, n);
      Subrange(inner, 0, v.start + n, v.start, v.start + n);
      assert Init(SetLen(v, n).value).value == inner[..v.start + n][v.start..v.start + n];
    }
  }

  /** A fixed buffer is initialized all the way, through any view, and stays as it is. */
  lemma {:induction false} SetLenOfFixed(v: View, n: nat)
    requires v.Ok() && Cap(v).Some? && n <= |Cap(v).value|
    requires BaseOf(v).fixed && |BaseOf(v).cells| <= USIZE_MAX
    ensures SetLen(v, n) == Some(v) && Init(v) == Cap(v)
    decreases v
  {
    if v.Slice? {
      CapIsInside(v);
      SetLenOfFixed(v.inner, v.start + n);
    } else {
      assert v.buf.cells[..v.buf.len] == v.buf.cells;
    }
  }

  /** Setting the length of a view makes exactly that much of its capacity its initialized bytes if
      and only if the buffer is growable, or fixed and the view is filled. */
  lemma SetLenExposes(v: View, n: nat)
    requires v.Ok() && Cap(v).Some? && n <= |Cap(v).value| && |BaseOf(v).cells| <= USIZE_MAX
    ensures SetLen(v, n).Some? && SetLen(v, n).value.Ok()
    ensures Init(SetLen(v, n).value) == Some(Cap(v).value[..n]) <==> !BaseOf(v).fixed || n == |Cap(v).value|
    ensures BaseOf(SetLen(v, n).value) == if BaseOf(v).fixed then BaseOf(v) else BaseOf(v).(len := Offset(v) + n)
  {
    if BaseOf(v).fixed {
      SetLenOfFixed(v, n);
      assert n == |Cap(v).value| ==> Cap(v).value[..n] == Cap(v).value;
      assert n < |Cap(v).value| ==> |Cap(v).value[..n]| != |Cap(v).value|;
    } else {
      SetLenOfGrowable(v, n);
    }
  }

  lemma {:induction false} WriteChangesCap(v: View, data: seq<Cell>)
    requires Cap(v).Some? && |data| <= |Cap(v).value|
    ensures Cap(Write(v, data)) == Some(Put(Cap(v).value, 0, data)) && BaseOf(Write(v, data)).len == BaseOf(v).len
    ensures BaseOf(Write(v, data)).fixed == BaseOf(v).fixed && Offset(Write(v, data)) == Offset(v)
    ensures BaseOf(Write(v, data)).cells == (CapIsInside(v); Put(BaseOf(v).cells, Offset(v), data))
  {
    CapIsInside(v);
    var b := BaseOf(v).(cells := Put(BaseOf(v).cells, Offset(v), data));
    SameShape(v, b);
    CapIsInside(WithBase(v, b));
    PutInside(BaseOf(v).cells, Offset(v), Offset(v) + |Cap(v).value|, data);
    hide Put, Cap;
  }

  lemma {:induction false} SameShape(v: View, b: Buf)
    requires Cap(v).Some? && |b.cells| == |BaseOf(v).cells|
    ensures Cap(WithBase(v, b)).Some? && |Cap(WithBase(v, b)).value| == |Cap(v).value|
    ensures Offset(WithBase(v, b)) == Offset(v) && BaseOf(WithBase(v, b)) == b
    ensures b.Ok() ==> WithBase(v, b).Ok()
  {
    if v.Slice? {
      SameShape(v.inner, b);
    }
  }

  lemma {:induction false} OkIsBase(v: View)
    ensures v.Ok() <==> BaseOf(v).Ok()
  {
    if v.Slice? {
      OkIsBase(v.inner);
    }
  }

  /** Filling a view and setting its length: the view then reads back what was written, and the
      buffer beneath is initialized exactly up to its end, with what came before untouched. A fixed
      buffer is initialized to its own end whatever is set, so there the first needs the view to
      be filled and the second needs it to reach the end. */
  lemma WriteThenSetLen(v: View, data: seq<Cell>)
    requires v.Ok() && Cap(v).Some? && |data| <= |Cap(v).value| && |BaseOf(v).cells| <= USIZE_MAX
    ensures var w := SetLen(Write(v, data), |data|);
            && w.Some? && w.value.Ok()
            && (Init(w.value) == Some(data) <==> !BaseOf(v).fixed || |data| == |Cap(v).value|)
            && BaseOf(w.value).len <= |BaseOf(w.value).cells|
            && Offset(v) + |data| <= |BaseOf(v).cells|
            && (BaseOf(w.value).cells[..BaseOf(w.value).len] == BaseOf(v).cells[..Offset(v)] + data
                <==> !BaseOf(v).fixed || Offset(v) + |data| == |BaseOf(v).cells|)
            && BaseOf(w.value).cells == Put(BaseOf(v).cells, Offset(v), data)
  {
    CapIsInside(v);
    OkIsBase(v);
    WriteChangesCap(v, data);
    OkIsBase(Write(v, data));
    SetLenExposes(Write(v, data), |data|);
    assert Put(Cap(v).value, 0, data)[..|data|] == data;
    var cells := BaseOf(v).cells;
    assert Put(cells, Offset(v), data)[..Offset(v) + |data|] == cells[..Offset(v)] + data;
    if BaseOf(v).fixed && Offset(v) + |data| < |cells| {
      assert |Put(cells, Offset(v), data)| != |cells[..Offset(v)] + data|;
    }
    hide Put, Cap, Init, SetLen, Write;
  }

  // ----- collections -----

  function Concat(parts: seq<seq<Cell>>): seq<Cell> { if parts == [] then [] else parts[0] + Concat(parts[1..]) }

  predicate AllOk(bufs: seq<Buf>) { forall i | 0 <= i < |bufs| :: bufs[i].Ok() }

  function Inits(bufs: seq<Buf>): seq<seq<Cell>>
    requires AllOk(bufs)
  {
    seq(|bufs|, i requires 0 <= i < |bufs| => bufs[i].cells[..bufs[i].len])
  }

  function Caps(bufs: seq<Buf>): seq<seq<Cell>> { seq(|bufs|, i requires 0 <= i < |bufs| => bufs[i].cells) }

  /** Where a position in the concatenation falls. */
  predicate Located(parts: seq<seq<Cell>>, start: nat, index: nat, offset: nat) {
    && index <= |parts|
    && |Concat(parts[..index])| + offset == start
    && (if index < |parts| then offset < |parts[index]| else offset == 0)
  }

  /** What the cursor iterates over. */
  function Remaining(parts: seq<seq<Cell>>, index: nat, offset: nat): seq<seq<Cell>> {
    if index < |parts| then [parts[index][Min(offset, |parts[index]|)..]] + parts[index + 1..] else []
  }

  lemma {:induction false} ConcatSplit(parts: seq<seq<Cell>>, i: nat)
    requires i <= |parts|
    ensures Concat(parts) == Concat(parts[..i]) + Concat(parts[i..])
  {
    if i == 0 {
      assert parts[..0] == [] && parts[0..] == parts;
    } else {
      ConcatSplit(parts[1..], i - 1);
      assert parts[..i][1..] == parts[1..][..i - 1];
      assert parts[i..] == parts[1..][i - 1..];
    }
  }

  /** The cursor iterates over exactly the concatenation minus its first `start` bytes. */
  lemma CursorIsTheRest(parts: seq<seq<Cell>>, start: nat, index: nat, offset: nat)
    requires Located(parts, start, index, offset)
    ensures start <= |Concat(parts)| && Concat(Remaining(parts, index, offset)) == Concat(parts)[start..]
  {
    ConcatSplit(parts, index);
    if index < |parts| {
      assert parts[index..][1..] == parts[index + 1..];
      assert Remaining(parts, index, offset)[1..] == parts[index + 1..];
      DropInto(Concat(parts[..index]), parts[index], Concat(parts[index + 1..]), offset);
    } else {
      assert parts[..index] == parts;
    }
  }

  lemma DropInto(before: seq<Cell>, part: seq<Cell>, after: seq<Cell>, offset: nat)
    requires offset <= |part|
    ensures (before + (part + after))[|before| + offset..] == part[offset..] + after
  {
  }

  /** `from_initialized`, and `slice_mut` over capacities: walks the components until the position
      falls inside one. A start beyond the end is the panic. */
  method Locate(parts: seq<seq<Cell>>, start: nat) returns (r: Option<(nat, nat)>)
    ensures r.None? <==> start > |Concat(parts)|
    ensures r.Some? ==> Located(parts, start, r.value.0, r.value.1)
    ensures r.Some? ==> Concat(Remaining(parts, r.value.0, r.value.1)) == Concat(parts)[start..]
  {
    if start > |Concat(parts)| {
      return None;
    }
    var remaining: nat, index: nat := start, 0;
    assert parts[..0] == [];
    while index < |parts|
      invariant 0 <= index <= |parts| && |Concat(parts[..index])| + remaining == start
    {
      if remaining < |parts[index]| {
        break;
      }
      ConcatStep(parts, index);
      remaining := remaining - |parts[index]|;
      index := index + 1;
    }
    if index == |parts| {
      assert parts[..index] == parts;
    }
    CursorIsTheRest(parts, start, index, remaining);
    return Some((index, remaining));
  }

  lemma ConcatStep(parts: seq<seq<Cell>>, i: nat)
    requires i < |parts|
    ensures Concat(parts[..i + 1]) == Concat(parts[..i]) + parts[i]
  {
    ConcatSplit(parts[..i + 1], i);
    assert parts[..i + 1][..i] == parts[..i] && parts[..i + 1][i..] == [parts[i]];
    assert Concat([parts[i]]) == parts[i] + Concat([]);
  }

  // ----- setting the length of a collection -----

  function SetOne(b: Buf, n: nat): Buf { if b.fixed then b else b.(len := n) }

  /** Each component in turn takes as much of the length as it has room for. */
  function Distribute(bufs: seq<Buf>, n: nat): (r: seq<Buf>)
    ensures |r| == |bufs|
  {
    if bufs == [] then []
    else
      var k := Min(n, |bufs[0].cells|);
      [SetOne(bufs[0], k)] + Distribute(bufs[1..], n - k)
  }

  lemma {:induction false} DistributeOk(bufs: seq<Buf>, n: nat)
    requires AllOk(bufs)
    ensures AllOk(Distribute(bufs, n)) && Caps(Distribute(bufs, n)) == Caps(bufs)
  {
    if bufs != [] {
      var k := Min(n, |bufs[0].cells|);
      DistributeOk(bufs[1..], n - k);
      var rest := Distribute(bufs[1..], n - k);
      forall i | 0 <= i < |bufs| ensures Distribute(bufs, n)[i].Ok() && Distribute(bufs, n)[i].cells == bufs[i].cells {
        if i > 0 {
          assert Distribute(bufs, n)[i] == rest[i - 1];
          assert Caps(rest)[i - 1] == Caps(bufs[1..])[i - 1];
        }
      }
    }
  }

  lemma InitsCons(b: Buf, rest: seq<Buf>)
    requires b.Ok() && AllOk(rest)
    ensures AllOk([b] + rest)
    ensures Concat(Inits([b] + rest)) == b.cells[..b.len] + Concat(Inits(rest))
    ensures Concat(Caps([b] + rest)) == b.cells + Concat(Caps(rest))
  {
    assert Inits([b] + rest)[1..] == Inits(rest);
    assert Caps([b] + rest)[1..] == Caps(rest);
  }

  /** How much of a fixed component the length leaves out; such a component is initialized all
      the same. */
  function Surplus(bufs: seq<Buf>, n: nat): nat {
    if bufs == [] then 0
    else
      var k := Min(n, |bufs[0].cells|);
      (if bufs[0].fixed then |bufs[0].cells| - k else 0) + Surplus(bufs[1..], n - k)
  }

  /** The initialized bytes of the collection are the first `n` bytes of its capacity if and only
      if no fixed component reaches beyond them. */
  lemma {:induction false} DistributeExposes(bufs: seq<Buf>, n: nat)
    requires AllOk(bufs) && n <= |Concat(Caps(bufs))|
    ensures AllOk(Distribute(bufs, n))
    ensures |Concat(Inits(Distribute(bufs, n)))| == n + Surplus(bufs, n)
    ensures Concat(Inits(Distribute(bufs, n))) == Concat(Caps(bufs))[..n] <==> Surplus(bufs, n) == 0
  {
    DistributeOk(bufs, n);
    if bufs == [] {
      assert Concat(Caps(bufs)) == [];
    } else {
      var b, rest := bufs[0], bufs[1..];
      var k := Min(n, |b.cells|);
      assert bufs == [b] + rest;
      InitsCons(b, rest);
      DistributeOk(rest, n - k);
      DistributeExposes(rest, n - k);
      InitsCons(SetOne(b, k), Distribute(rest, n - k));
      ExposesCons(b, k, Concat(Caps(rest)), n, Concat(Inits(Distribute(rest, n - k))));
    }
  }

  lemma ExposesCons(b: Buf, k: nat, rest: seq<Cell>, n: nat, tail: seq<Cell>)
    requires b.Ok() && k == Min(n, |b.cells|) && n <= |b.cells| + |rest|
    requires |tail| >= n - k
    requires tail == rest[..n - k] <==> |tail| == n - k
    ensures SetOne(b, k).cells[..SetOne(b, k).len] + tail == (b.cells + rest)[..n]
            <==> SetOne(b, k).len + |tail| == n
  {
    var head := SetOne(b, k).cells[..SetOne(b, k).len];
    if SetOne(b, k).len + |tail| == n {
      assert SetOne(b, k).len == k && tail == rest[..n - k];
      assert head + tail == (b.cells + rest)[..n];
    } else {
      assert |head + tail| != n;
    }
  }

  // ----- filling a collection through its cursor -----

  /** `data` goes into the cursor's slices in order: from `offset` in component `index`, then from
      the start of each component after it. */
  function Fill(bufs: seq<Buf>, index: nat, offset: nat, data: seq<Cell>): (r: seq<Buf>)
    ensures |r| == |bufs|
    decreases |bufs|
  {
    if bufs == [] then []
    else if index > 0 then [bufs[0]] + Fill(bufs[1..], index - 1, offset, data)
    else if offset > |bufs[0].cells| then bufs
    else
      var k := Min(|data|, |bufs[0].cells| - offset);
      [bufs[0].(cells := Put(bufs[0].cells, offset, data[..k]))] + Fill(bufs[1..], 0, 0, data[k..])
  }

  /** Same sizes, lengths and kinds; the contents may differ. */
  predicate SamePattern(a: seq<Buf>, b: seq<Buf>) {
    |a| == |b| && forall i | 0 <= i < |a| ::
      |a[i].cells| == |b[i].cells| && a[i].len == b[i].len && a[i].fixed == b[i].fixed
  }

  lemma {:induction false} FillKeepsPattern(bufs: seq<Buf>, index: nat, offset: nat, data: seq<Cell>)
    ensures SamePattern(Fill(bufs, index, offset, data), bufs)
    decreases |bufs|
  {
    if bufs != [] {
      var r := Fill(bufs, index, offset, data);
      if index > 0 {
        FillKeepsPattern(bufs[1..], index - 1, offset, data);
        assert r[1..] == Fill(bufs[1..], index - 1, offset, data);
        PatternCons(r, bufs);
      } else if offset <= |bufs[0].cells| {
        var k := Min(|data|, |bufs[0].cells| - offset);
        FillKeepsPattern(bufs[1..], 0, 0, data[k..]);
        assert r[1..] == Fill(bufs[1..], 0, 0, data[k..]);
        PatternCons(r, bufs);
      }
    }
  }

  lemma PatternCons(a: seq<Buf>, b: seq<Buf>)
    requires |a| == |b| > 0 && SamePattern(a[1..], b[1..])
    requires |a[0].cells| == |b[0].cells| && a[0].len == b[0].len && a[0].fixed == b[0].fixed
    ensures SamePattern(a, b)
  {
    forall i | 0 <= i < |a| ensures |a[i].cells| == |b[i].cells| && a[i].len == b[i].len && a[i].fixed == b[i].fixed {
      if i > 0 {
        assert a[i] == a[1..][i - 1] && b[i] == b[1..][i - 1];
      }
    }
  }

  lemma {:induction false} PatternDecides(a: seq<Buf>, b: seq<Buf>, n: nat)
    requires SamePattern(a, b)
    ensures Surplus(a, n) == Surplus(b, n) && |Concat(Caps(a))| == |Concat(Caps(b))|
    ensures AllOk(b) ==> AllOk(a)
  {
    if a != [] {
      PatternDecides(a[1..], b[1..], n - Min(n, |a[0].cells|));
      assert a == [a[0]] + a[1..] && b == [b[0]] + b[1..];
      CapsCons(a[0], a[1..]);
      CapsCons(b[0], b[1..]);
    }
  }

  lemma PutAcross(b: seq<Cell>, all: seq<Cell>, pos: nat, data: seq<Cell>, k: nat)
    requires pos <= |b| && k == Min(|data|, |b| - pos) && pos + |data| <= |b| + |all|
    ensures Put(b, pos, data[..k]) + Put(all, 0, data[k..]) == Put(b + all, pos, data)
  {
    if k == |data| {
      assert data[..k] == data && data[k..] == [];
    } else {
      assert pos + k == |b|;
      assert data == data[..k] + data[k..];
    }
  }

  lemma PutBeyond(b: seq<Cell>, all: seq<Cell>, pos: nat, data: seq<Cell>)
    requires |b| <= pos && pos + |data| <= |b| + |all|
    ensures b + Put(all, pos - |b|, data) == Put(b + all, pos, data)
  {
  }

  lemma {:induction false} FillFront(bufs: seq<Buf>, offset: nat, data: seq<Cell>)
    requires bufs != [] ==> offset <= |bufs[0].cells|
    requires offset + |data| <= |Concat(Caps(bufs))|
    ensures Concat(Caps(Fill(bufs, 0, offset, data))) == Put(Concat(Caps(bufs)), offset, data)
    decreases |bufs|
  {
    if bufs != [] {
      var b, rest := bufs[0], bufs[1..];
      assert bufs == [b] + rest;
      CapsCons(b, rest);
      var k := Min(|data|, |b.cells| - offset);
      var head := b.(cells := Put(b.cells, offset, data[..k]));
      FillFront(rest, 0, data[k..]);
      CapsCons(head, Fill(rest, 0, 0, data[k..]));
      PutAcross(b.cells, Concat(Caps(rest)), offset, data, k);
      hide Concat, Caps, Put;
    }
  }

  /** A cursor points into the collection: at a byte of a component, or at the end. */
  predicate InBounds(bufs: seq<Buf>, index: nat, offset: nat) {
    index <= |bufs| && (if index < |bufs| then offset <= |bufs[index].cells| else offset == 0)
  }

  /** The byte of the concatenated capacity it points at. */
  function Position(bufs: seq<Buf>, index: nat, offset: nat): nat
    requires InBounds(bufs, index, offset)
  {
    |Concat(Caps(bufs)[..index])| + offset
  }

  /** Filling through a cursor is one write where it points. */
  lemma {:induction false} FillIsOneWrite(bufs: seq<Buf>, index: nat, offset: nat, data: seq<Cell>)
    requires InBounds(bufs, index, offset)
    requires Position(bufs, index, offset) + |data| <= |Concat(Caps(bufs))|
    ensures Concat(Caps(Fill(bufs, index, offset, data))) == Put(Concat(Caps(bufs)), Position(bufs, index, offset), data)
    decreases |bufs|
  {
    if index == 0 {
      assert Caps(bufs)[..0] == [];
      FillFront(bufs, offset, data);
    } else {
      var b, rest := bufs[0], bufs[1..];
      assert bufs == [b] + rest;
      CapsCons(b, rest);
      PositionInRest(b, rest, index, offset);
      FillIsOneWrite(rest, index - 1, offset, data);
      CapsCons(b, Fill(rest, index - 1, offset, data));
      PutBeyond(b.cells, Concat(Caps(rest)), Position(bufs, index, offset), data);
      hide Concat, Caps, Put, Position;
    }
  }

  lemma PositionInRest(b: Buf, rest: seq<Buf>, index: nat, offset: nat)
    requires InBounds([b] + rest, index, offset) && index > 0
    ensures InBounds(rest, index - 1, offset)
    ensures Position([b] + rest, index, offset) == |b.cells| + Position(rest, index - 1, offset)
  {
    assert Caps([b] + rest)[1..] == Caps(rest);
    assert Caps([b] + rest)[..index][1..] == Caps(rest)[..index - 1];
  }

  /** Filling `n` bytes through a view and setting its length to `n`: the collection is then
      initialized for its first `start + n` bytes, in component order, and these are the bytes it
      had with the data written where the cursor points (a fixed component stays initialized all
      the way, so it must not reach further). */
  lemma FillThenSetLen(bufs: seq<Buf>, start: nat, index: nat, offset: nat, data: seq<Cell>)
    requires AllOk(bufs) && InBounds(bufs, index, offset) && start <= Position(bufs, index, offset)
    requires Position(bufs, index, offset) + |data| <= |Concat(Caps(bufs))|
    ensures var r := Distribute(Fill(bufs, index, offset, data), start + |data|);
            && AllOk(r)
            && |Concat(Inits(r))| == start + |data| + Surplus(bufs, start + |data|)
            && (Concat(Inits(r)) == Put(Concat(Caps(bufs)), Position(bufs, index, offset), data)[..start + |data|]
                <==> Surplus(bufs, start + |data|) == 0)
  {
    FillIsOneWrite(bufs, index, offset, data);
    FillKeepsPattern(bufs, index, offset, data);
    PatternDecides(Fill(bufs, index, offset, data), bufs, start + |data|);
    DistributeExposes(Fill(bufs, index, offset, data), start + |data|);
  }

  /** The collection reads back what was written: what it had up to `start`, and then the data. */
  predicate ReadsBack(bufs: seq<Buf>, start: nat, index: nat, offset: nat, data: seq<Cell>)
    requires start <= |Concat(Caps(bufs))|
  {
    var r := Distribute(Fill(bufs, index, offset, data), start + |data|);
    AllOk(r) && Concat(Inits(r)) == Concat(Caps(bufs))[..start] + data
  }

  predicate Fitting(bufs: seq<Buf>, start: nat, index: nat, offset: nat, data: seq<Cell>)
    requires InBounds(bufs, index, offset)
  {
    Position(bufs, index, offset) + |data| <= |Concat(Caps(bufs))| && Surplus(bufs, start + |data|) == 0
  }

  /** A view whose cursor points at `start` reads back whatever is written through it; … */
  lemma AlignedViewReadsBack(bufs: seq<Buf>, start: nat, index: nat, offset: nat, data: seq<Cell>)
    requires AllOk(bufs) && InBounds(bufs, index, offset) && Position(bufs, index, offset) == start
    requires start + |data| <= |Concat(Caps(bufs))|
    ensures ReadsBack(bufs, start, index, offset, data) <==> Surplus(bufs, start + |data|) == 0
  {
    FillThenSetLen(bufs, start, index, offset, data);
    assert Put(Concat(Caps(bufs)), start, data)[..start + |data|] == Concat(Caps(bufs))[..start] + data;
  }

  /** … one that points further on does not: some byte is written where it is not read. */
  lemma MisalignedViewLoses(bufs: seq<Buf>, start: nat, index: nat, offset: nat) returns (data: seq<Cell>)
    requires AllOk(bufs) && InBounds(bufs, index, offset)
    requires start < Position(bufs, index, offset) < |Concat(Caps(bufs))|
    ensures |data| == 1 && !ReadsBack(bufs, start, index, offset, data)
  {
    var all := Concat(Caps(bufs));
    data := [if all[start] == Some(0) then Some(1) else Some(0)];
    FillThenSetLen(bufs, start, index, offset, data);
    var r := Distribute(Fill(bufs, index, offset, data), start + 1);
    if Surplus(bufs, start + 1) == 0 {
      var p := Position(bufs, index, offset);
      assert Put(all, p, data)[..start + 1][start] == all[start];
      assert (all[..start] + data)[start] == data[0];
    } else {
      assert |Concat(Inits(r))| != |all[..start] + data|;
    }
  }

  /** So reading back, for every data that fits, is the cursor pointing at `start`. */
  lemma ViewReadsBackIff(bufs: seq<Buf>, start: nat, index: nat, offset: nat)
    requires AllOk(bufs) && InBounds(bufs, index, offset)
    requires start <= Position(bufs, index, offset) < |Concat(Caps(bufs))| && Surplus(bufs, start + 1) == 0
    ensures (forall data | Fitting(bufs, start, index, offset, data) :: ReadsBack(bufs, start, index, offset, data))
            <==> Position(bufs, index, offset) == start
  {
    hide ReadsBack, Surplus, Position;
    if Position(bufs, index, offset) == start {
      forall data | Fitting(bufs, start, index, offset, data) ensures ReadsBack(bufs, start, index, offset, data) {
        AlignedViewReadsBack(bufs, start, index, offset, data);
      }
    } else {
      var data := MisalignedViewLoses(bufs, start, index, offset);
      assert Fitting(bufs, start, index, offset, data);
    }
  }

  /** A view made over capacities points at its `start`. */
  lemma CapacityViewIsAligned(bufs: seq<Buf>, start: nat, index: nat, offset: nat)
    requires Located(Caps(bufs), start, index, offset)
    ensures InBounds(bufs, index, offset) && Position(bufs, index, offset) == start
  {
  }

  predicate FullBefore(bufs: seq<Buf>, index: nat)
    requires index <= |bufs|
  {
    forall i | 0 <= i < index :: bufs[i].len == |bufs[i].cells|
  }

  lemma {:induction false} SpareBefore(bufs: seq<Buf>, i: nat)
    requires AllOk(bufs) && i <= |bufs|
    ensures |Concat(Inits(bufs)[..i])| <= |Concat(Caps(bufs)[..i])|
    ensures |Concat(Inits(bufs)[..i])| == |Concat(Caps(bufs)[..i])| <==> FullBefore(bufs, i)
  {
    if i > 0 {
      SpareBefore(bufs, i - 1);
      ConcatStep(Inits(bufs), i - 1);
      ConcatStep(Caps(bufs), i - 1);
      hide Concat;
    }
  }

  /** A view made over initialized bytes points at its `start`, as the capacity side of the code
      takes it to, if and only if every component before the cursor is full. */
  lemma InitializedViewIsAlignedIff(bufs: seq<Buf>, start: nat, index: nat, offset: nat)
    requires AllOk(bufs) && Located(Inits(bufs), start, index, offset)
    ensures InBounds(bufs, index, offset) && start <= Position(bufs, index, offset)
    ensures Position(bufs, index, offset) == start <==> FullBefore(bufs, index)
  {
    SpareBefore(bufs, index);
  }

  /** A view that skips initialized bytes reads back what is written through it, for every data that
      fits, if and only if every component before its cursor is full. */
  lemma InitializedViewReadsBackIff(bufs: seq<Buf>, start: nat, index: nat, offset: nat)
    requires AllOk(bufs) && Located(Inits(bufs), start, index, offset)
    requires InBounds(bufs, index, offset) && Position(bufs, index, offset) < |Concat(Caps(bufs))|
    requires start <= |Concat(Caps(bufs))| && Surplus(bufs, start + 1) == 0
    ensures (forall data | Fitting(bufs, start, index, offset, data) :: ReadsBack(bufs, start, index, offset, data))
            <==> FullBefore(bufs, index)
  {
    InitializedViewIsAlignedIff(bufs, start, index, offset);
    ViewReadsBackIff(bufs, start, index, offset);
  }

  predicate Written(s: seq<Cell>) { forall i | 0 <= i < |s| :: s[i].Some? }

  /** Whether everything that then reads as initialized was ever written depends on the bytes
      before the cursor that the length covers: for a view that points at its `start`, those it
      skipped. */
  lemma SkippedBytesMustBeWritten(bufs: seq<Buf>, start: nat, index: nat, offset: nat, data: seq<Cell>)
    requires AllOk(bufs) && InBounds(bufs, index, offset) && start <= Position(bufs, index, offset)
    requires Position(bufs, index, offset) + |data| <= |Concat(Caps(bufs))|
    requires Surplus(bufs, start + |data|) == 0 && Written(data)
    ensures var r := Distribute(Fill(bufs, index, offset, data), start + |data|);
            && AllOk(r)
            && (Written(Concat(Inits(r))) <==>
                  Written(Concat(Caps(bufs))[..Min(Position(bufs, index, offset), start + |data|)]))
  {
    FillThenSetLen(bufs, start, index, offset, data);
    PrefixWritten(Concat(Caps(bufs)), Position(bufs, index, offset), data, start + |data|);
  }

  lemma PrefixWritten(all: seq<Cell>, pos: nat, data: seq<Cell>, end: nat)
    requires pos + |data| <= |all| && end <= pos + |data| && Written(data)
    ensures Written(Put(all, pos, data)[..end]) <==> Written(all[..Min(pos, end)])
  {
    var x, y := Put(all, pos, data)[..end], all[..Min(pos, end)];
    forall i | 0 <= i < |x| ensures x[i] == if i < |y| then y[i] else data[i - pos] {
    }
    if Written(x) {
      forall i | 0 <= i < |y| ensures y[i].Some? {
        assert x[i] == y[i];
      }
    }
  }

  predicate GrowableOnly(bufs: seq<Buf>) { forall i | 0 <= i < |bufs| :: !bufs[i].fixed }

  lemma {:induction false} GrowableHasNoSurplus(bufs: seq<Buf>, n: nat)
    requires GrowableOnly(bufs)
    ensures Surplus(bufs, n) == 0
  {
    if bufs != [] {
      GrowableHasNoSurplus(bufs[1..], n - Min(n, |bufs[0].cells|));
    }
  }

  // ----- inputs on which it fails -----

  /** Two vectors of length 2 and capacity 4, and a view that skips 3 initialized bytes: its cursor
      is at byte 5 of the capacity. */
  lemma TwoVectors() returns (bufs: seq<Buf>)
    ensures AllOk(bufs) && GrowableOnly(bufs) && Located(Inits(bufs), 3, 1, 1) && !FullBefore(bufs, 1)
    ensures Concat(Caps(bufs)) == [Some(1), Some(2), None, None, Some(3), Some(4), None, None]
    ensures InBounds(bufs, 1, 1) && Position(bufs, 1, 1) == 5
  {
    var a, b := Buf([Some(1), Some(2), None, None], 2, false), Buf([Some(3), Some(4), None, None], 2, false);
    bufs := [a, b];
    assert Inits(bufs)[..1] == [a.cells[..2]] && Caps(bufs)[..1] == [a.cells];
    assert Concat([a.cells[..2]]) == a.cells[..2] + Concat([]) && Concat([a.cells]) == a.cells + Concat([]);
    assert bufs == [a] + [b] && [b] == [b] + [];
    CapsCons(a, [b]);
    CapsCons(b, []);
    assert Concat(Caps(bufs)) == a.cells + b.cells;
  }

  /** One byte written through that view is lost, and two bytes that were never written read as
      initialized. */
  lemma InitializedViewLosesAByte() returns (bufs: seq<Buf>)
    ensures AllOk(bufs) && Located(Inits(bufs), 3, 1, 1) && !FullBefore(bufs, 1)
    ensures var r := Distribute(Fill(bufs, 1, 1, [Some(9)]), 4);
            AllOk(r) && Concat(Inits(r)) == [Some(1), Some(2), None, None] && !Written(Concat(Inits(r)))
  {
    hide Concat, Caps, Inits, Fill, Distribute, Surplus, Position, Located;
    bufs := TwoVectors();
    GrowableHasNoSurplus(bufs, 4);
    FillThenSetLen(bufs, 3, 1, 1, [Some(9)]);
    var exposed: seq<Cell> := [Some(1), Some(2), None, None];
    assert Put(Concat(Caps(bufs)), 5, [Some(9)])[..4] == exposed;
    assert exposed[2].None?;
  }

  /** A skipped spare byte: it reads as initialized and was never written. */
  lemma SpareByteIsExposed() returns (bufs: seq<Buf>)
    ensures AllOk(bufs) && Located(Caps(bufs), 1, 0, 1)
    ensures var r := Distribute(Fill(bufs, 0, 1, [Some(5)]), 2);
            AllOk(r) && Concat(Inits(r)) == [None, Some(5)] && !Written(Concat(Inits(r)))
  {
    var b := Buf([None, None, None], 0, false);
    bufs := [b];
    assert Caps(bufs)[..0] == [] && bufs == [b] + [];
    CapsCons(b, []);
    assert Concat(Caps(bufs)) == b.cells;
    FillThenSetLen(bufs, 1, 0, 1, [Some(5)]);
    assert Put(b.cells, 1, [Some(5)])[..2] == [None, Some(5)];
    var exposed: seq<Cell> := [None, Some(5)];
    assert exposed[0].None?;
  }

  /** An array of two bytes stays two bytes long. */
  lemma ArrayStaysInitialized() returns (bufs: seq<Buf>)
    ensures AllOk(bufs) && |Concat(Caps(bufs))| == 2 && Surplus(bufs, 1) == 1
    ensures AllOk(Distribute(bufs, 1)) && Concat(Inits(Distribute(bufs, 1))) != Concat(Caps(bufs))[..1]
  {
    bufs := [Buf([Some(1), Some(2)], 2, true)];
    assert Caps(bufs) == [[Some(1), Some(2)]];
    assert Concat(Caps(bufs)) == [Some(1), Some(2)] + Concat([]);
    DistributeExposes(bufs, 1);
  }

  /** An owned cursor into a collection. */
  class VectoredSlice {
    const bufs: array<Buf>
    const start: nat
    const index: nat
    const offset: nat

    constructor (bufs: array<Buf>, start: nat, index: nat, offset: nat)
      ensures this.bufs == bufs && this.start == start && this.index == index && this.offset == offset
    {
      this.bufs, this.start, this.index, this.offset := bufs, start, index, offset;
    }

    /** The length of the whole is that of what was skipped plus that of the view; the call
        panics, the components already changed, when there is not enough capacity. */
    method SetLen(len: nat) returns (ok: bool)
      modifies bufs
      ensures ok <==> start + len <= USIZE_MAX && start + len <= |Concat(Caps(old(bufs[..])))|
      ensures start + len <= USIZE_MAX ==> bufs[..] == Distribute(old(bufs[..]), start + len)
      ensures start + len > USIZE_MAX ==> bufs[..] == old(bufs[..])
    {
      if start + len > USIZE_MAX {
        return false;
      }
      ok := SetLenOf(bufs, start + len);
    }
  }

  /** What is left of the length when the loop comes to component `i`. */
  function Left(bufs: seq<Buf>, i: nat, n: nat): nat
    requires i <= |bufs|
  {
    if i == 0 then n else Left(bufs, i - 1, n) - Min(Left(bufs, i - 1, n), |bufs[i - 1].cells|)
  }

  lemma {:induction false} LeftOfRest(bufs: seq<Buf>, i: nat, n: nat)
    requires 0 < i <= |bufs|
    ensures Left(bufs, i, n) == Left(bufs[1..], i - 1, n - Min(n, |bufs[0].cells|))
  {
    if i > 1 {
      LeftOfRest(bufs, i - 1, n);
    }
  }

  lemma {:induction false} DistributeAt(bufs: seq<Buf>, i: nat, n: nat)
    requires i < |bufs|
    ensures Distribute(bufs, n)[i] == SetOne(bufs[i], Min(Left(bufs, i, n), |bufs[i].cells|))
  {
    if i > 0 {
      LeftOfRest(bufs, i, n);
      DistributeAt(bufs[1..], i - 1, n - Min(n, |bufs[0].cells|));
    }
  }

  lemma {:induction false} NothingLeftIff(bufs: seq<Buf>, n: nat)
    ensures Left(bufs, |bufs|, n) == 0 <==> n <= |Concat(Caps(bufs))|
  {
    if bufs == [] {
      assert Concat(Caps(bufs)) == [];
    } else {
      LeftOfRest(bufs, |bufs|, n);
      NothingLeftIff(bufs[1..], n - Min(n, |bufs[0].cells|));
      assert bufs == [bufs[0]] + bufs[1..];
      CapsCons(bufs[0], bufs[1..]);
    }
  }

  /** The component loop. */
  method SetLenOf(bufs: array<Buf>, len: nat) returns (ok: bool)
    modifies bufs
    ensures bufs[..] == Distribute(old(bufs[..]), len)
    ensures ok <==> len <= |Concat(Caps(old(bufs[..])))|
  {
    ghost var before := bufs[..];
    var remaining: nat, i := len, 0;
    while i < bufs.Length
      invariant 0 <= i <= bufs.Length && remaining == Left(before, i, len)
      invariant forall j | 0 <= j < i :: bufs[j] == Distribute(before, len)[j]
      invariant forall j | i <= j < bufs.Length :: bufs[j] == before[j]
    {
      DistributeAt(before, i, len);
      var initialized := Min(remaining, |bufs[i].cells|);
      bufs[i] := SetOne(bufs[i], initialized);
      remaining := remaining - initialized;
      i := i + 1;
    }
    NothingLeftIff(before, len);
    return remaining == 0;
  }

  lemma CapsCons(b: Buf, rest: seq<Buf>)
    ensures Concat(Caps([b] + rest)) == b.cells + Concat(Caps(rest))
  {
    assert Caps([b] + rest)[1..] == Caps(rest);
  }
}
