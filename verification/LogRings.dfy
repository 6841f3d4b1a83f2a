/**
 The in-memory log rings and their merge (packages/common/src/logger.ts).

 `emitted` is every record the console accepted, in order. Trace records have a ring of their
 own, and a file-only record uses up an id without entering either ring.
 */
module LogRings {
  import opened Options

  datatype Entry = Entry(id: int, trace: bool, line: string)

  /** A JavaScript number used as a limit. */
  datatype Number = NaN | Infinity(positive: bool) | Finite(value: real)

  function Min(a: int, b: int): int {
    if a < b then a else b
  }

  function Last<T>(s: seq<T>, n: nat): seq<T> {
    s[|s| - Min(n, |s|)..]
  }

  lemma LastPush<T>(s: seq<T>, x: T, n: nat)
    requires n > 0
    ensures |Last(s, n)| == Min(n, |s|)
    ensures Last(s + [x], n) == (if |s| < n then Last(s, n) else Last(s, n)[1..]) + [x]
  {
  }

  lemma HeldLength<T>(s: seq<T>, n: nat)
    ensures |Last(s, n)| == Min(n, |s|)
  {
  }

  lemma LastWithin<T>(s: seq<T>, n: nat)
    ensures forall e :: e in Last(s, n) ==> e in s
  {
  }

  // ------------------------------------------------------------------ one ring

  function Slot(start: nat, i: nat, cap: nat): (r: nat)
    requires start < cap && i <= cap
    ensures r < cap
  {
    if start + i < cap then start + i else start + i - cap
  }

  lemma Wraps(start: nat, i: nat, cap: nat)
    requires start < cap && i <= cap
    ensures (start + i) % cap == Slot(start, i, cap)
  {
    if start + i >= cap {
      WrapsOnce(start + i - cap, cap);
    }
  }

  lemma WrapsOnce(r: nat, cap: nat)
    requires r < cap
    ensures (cap + r) % cap == r
  {
    var q := (cap + r) / cap;
    assert (q - 1) * cap == r - (cap + r) % cap;
    ProductGrows(q - 1, cap);
  }

  lemma ProductGrows(k: int, cap: int)
    requires cap > 0
    ensures k >= 1 ==> k * cap >= cap
    ensures k <= -1 ==> k * cap <= -cap
  {
  }

  class RingBuffer<T> {
    const cap: nat
    const buf: array<Option<T>>
    var start: nat
    var count: nat
    ghost var pushed: seq<T>

    /** The buffer holds exactly the newest `cap` of everything pushed, from `start` round the array. */
    ghost predicate Valid()
      reads this, buf
    {
      && 0 < cap == buf.Length && start < cap
      && count == Min(cap, |pushed|) && (count < cap ==> start == 0)
      && forall i :: 0 <= i < count ==> buf[Slot(start, i, cap)] == Some(Last(pushed, cap)[i])
    }

    constructor (cap: nat)
      requires cap > 0
      ensures Valid() && pushed == [] && this.cap == cap && fresh(buf)
    {
      this.cap := cap;
      buf := new Option<T>[cap](_ => None);
      start, count, pushed := 0, 0, [];
    }

    method Push(item: T)
      requires Valid()
      modifies `start, `count, `pushed, buf
      ensures Valid() && pushed == old(pushed) + [item]
    {
      hide Last;
      LastPush(pushed, item, cap);
      var end := (start + count) % cap;
      Wraps(start, count, cap);
      Wraps(start, 1, cap);
      buf[end] := Some(item);
      pushed := pushed + [item];
      if count < cap {
        count := count + 1;
      } else {
        start := (start + 1) % cap;
      }
    }

    /** Counts back from the newest record. */
    method Newest(offset: nat) returns (r: Option<T>)
      requires Valid()
      ensures r == var held := Last(pushed, cap); if offset < |held| then Some(held[|held| - 1 - offset]) else None
    {
      if offset >= count {
        return None;
      }
      Wraps(start, count - 1 - offset, cap);
      r := buf[(start + count - 1 - offset) % cap];
    }
  }

  // ------------------------------------------------------------------ merging by id

  ghost predicate Increasing(s: seq<Entry>) {
    forall i, j :: 0 <= i < j < |s| ==> s[i].id < s[j].id
  }

  /** The merge of two sequences, taking the larger id from the back. */
  function Merge(a: seq<Entry>, b: seq<Entry>): seq<Entry>
    decreases |a| + |b|
  {
    if a == [] then b
    else if b == [] then a
    else if a[|a| - 1].id > b[|b| - 1].id then Merge(a[..|a| - 1], b) + [a[|a| - 1]]
    else Merge(a, b[..|b| - 1]) + [b[|b| - 1]]
  }

  ghost predicate Apart(a: seq<Entry>, b: seq<Entry>) {
    forall i, j :: 0 <= i < |a| && 0 <= j < |b| ==> a[i].id != b[j].id
  }

  lemma SplitLast(s: seq<Entry>)
    requires s != []
    ensures multiset(s) == multiset(s[..|s| - 1]) + multiset{s[|s| - 1]}
  {
    assert s == s[..|s| - 1] + [s[|s| - 1]];
  }

  lemma {:induction false} MergeIsUnion(a: seq<Entry>, b: seq<Entry>)
    ensures multiset(Merge(a, b)) == multiset(a) + multiset(b)
    decreases |a| + |b|
  {
    if a == [] || b == [] {
      return;
    }
    if a[|a| - 1].id > b[|b| - 1].id {
      MergeIsUnion(a[..|a| - 1], b);
      SplitLast(a);
    } else {
      MergeIsUnion(a, b[..|b| - 1]);
      SplitLast(b);
    }
  }

  /** With `MergeIsUnion`: the merge is the id-sorted union. */
  lemma {:induction false} MergeIsSorted(a: seq<Entry>, b: seq<Entry>)
    requires Increasing(a) && Increasing(b) && Apart(a, b)
    ensures Increasing(Merge(a, b))
    decreases |a| + |b|
  {
    if a != [] && b != [] {
      var x, y := a[|a| - 1], b[|b| - 1];
      assert x.id != y.id;
      if x.id > y.id {
        MergeIsSorted(a[..|a| - 1], b);
        MergeIsUnion(a[..|a| - 1], b);
        TopStaysIncreasing(a[..|a| - 1], b, Merge(a[..|a| - 1], b), x);
      } else {
        MergeIsSorted(a, b[..|b| - 1]);
        MergeIsUnion(a, b[..|b| - 1]);
        TopStaysIncreasing(a, b[..|b| - 1], Merge(a, b[..|b| - 1]), y);
      }
    }
  }

  lemma TopStaysIncreasing(a: seq<Entry>, b: seq<Entry>, m: seq<Entry>, top: Entry)
    requires multiset(m) == multiset(a) + multiset(b) && Increasing(m)
    requires (forall i :: 0 <= i < |a| ==> a[i].id < top.id) && (forall i :: 0 <= i < |b| ==> b[i].id < top.id)
    ensures Increasing(m + [top])
  {
    forall i | 0 <= i < |m| ensures m[i].id < top.id {
      assert m[i] in multiset(m);
      assert m[i] in a || m[i] in b;
    }
  }

  function OfKind(s: seq<Entry>, trace: bool): seq<Entry> {
    if s == [] then []
    else
      var rest := OfKind(s[..|s| - 1], trace);
      if s[|s| - 1].trace == trace then rest + [s[|s| - 1]] else rest
  }

  /** The log without what a ring of `n` ordinary and one of `t` trace records have let go. */
  function Retained(s: seq<Entry>, n: nat, t: nat): seq<Entry> {
    if s == [] then []
    else
      var x := s[|s| - 1];
      var init := s[..|s| - 1];
      if x.trace then (if t > 0 then Retained(init, n, t - 1) + [x] else Retained(init, n, 0))
      else if n > 0 then Retained(init, n - 1, t) + [x] else Retained(init, 0, t)
  }

  lemma {:induction false} OfKindWithin(s: seq<Entry>, trace: bool)
    ensures forall e :: e in OfKind(s, trace) ==> e in s && e.trace == trace
  {
    if s != [] {
      OfKindWithin(s[..|s| - 1], trace);
    }
  }

  /** Merging the rings gives back the log itself, in order, less what each ring has let go. */
  lemma {:induction false} MergeIsRetained(s: seq<Entry>, n: nat, t: nat)
    requires Increasing(s)
    ensures Merge(Last(OfKind(s, false), n), Last(OfKind(s, true), t)) == Retained(s, n, t)
  {
    hide Last, Merge;
    if s == [] {
      assert Merge([], []) == [] by { MergeLength([], []); }
      HeldLength<Entry>([], n);
      HeldLength<Entry>([], t);
      return;
    }
    var x, init := s[|s| - 1], s[..|s| - 1];
    var a, b := OfKind(init, false), OfKind(init, true);
    OfKindWithin(init, false);
    OfKindWithin(init, true);
    LastWithin(a, n);
    LastWithin(b, t);
    if x.trace {
      if t > 0 {
        MergeIsRetained(init, n, t - 1);
        LastSplits(b, x, t);
        MergeTopRight(Last(a, n), Last(b, t - 1), x);
      } else {
        MergeIsRetained(init, n, 0);
        HeldLength(b, 0);
        HeldLength(b + [x], 0);
      }
    } else {
      if n > 0 {
        MergeIsRetained(init, n - 1, t);
        LastSplits(a, x, n);
        MergeTopLeft(Last(a, n - 1), Last(b, t), x);
      } else {
        MergeIsRetained(init, 0, t);
        HeldLength(a, 0);
        HeldLength(a + [x], 0);
      }
    }
  }

  lemma LastSplits<T>(s: seq<T>, x: T, n: nat)
    requires n > 0
    ensures Last(s + [x], n) == Last(s, n - 1) + [x]
  {
  }

  lemma MergeTopLeft(a: seq<Entry>, b: seq<Entry>, x: Entry)
    requires forall e :: e in b ==> e.id < x.id
    ensures Merge(a + [x], b) == Merge(a, b) + [x]
  {
    assert (a + [x])[..|a|] == a;
    if b != [] {
      assert b[|b| - 1] in b;
    }
  }

  lemma MergeTopRight(a: seq<Entry>, b: seq<Entry>, x: Entry)
    requires forall e :: e in a ==> e.id < x.id
    ensures Merge(a, b + [x]) == Merge(a, b) + [x]
  {
    assert (b + [x])[..|b|] == b;
    if a != [] {
      assert a[|a| - 1] in a;
    }
  }

  lemma {:induction false} MergeLength(a: seq<Entry>, b: seq<Entry>)
    ensures |Merge(a, b)| == |a| + |b|
    decreases |a| + |b|
  {
    if a != [] && b != [] {
      if a[|a| - 1].id > b[|b| - 1].id {
        MergeLength(a[..|a| - 1], b);
      } else {
        MergeLength(a, b[..|b| - 1]);
      }
    }
  }

  /** The last of a merge is the last of one side, and the rest is the merge without it. */
  ghost predicate TakesLeft(a: seq<Entry>, b: seq<Entry>) {
    a != [] && (b == [] || a[|a| - 1].id > b[|b| - 1].id)
  }

  lemma MergeStepLeft(a: seq<Entry>, b: seq<Entry>)
    requires TakesLeft(a, b)
    ensures Merge(a, b) == Merge(a[..|a| - 1], b) + [a[|a| - 1]]
  {
    if b == [] {
      assert a == a[..|a| - 1] + [a[|a| - 1]];
      assert Merge(a[..|a| - 1], b) == a[..|a| - 1];
    }
  }

  lemma MergeStepRight(a: seq<Entry>, b: seq<Entry>)
    requires !TakesLeft(a, b) && (a != [] || b != [])
    ensures b != [] && Merge(a, b) == Merge(a, b[..|b| - 1]) + [b[|b| - 1]]
  {
    if a == [] {
      assert b == b[..|b| - 1] + [b[|b| - 1]];
      assert Merge(a, b[..|b| - 1]) == b[..|b| - 1];
    }
  }

  /** `tail` is the end of the merge, made of the newest `n` of `a` and `t` of `b`. */
  ghost predicate Filled(a: seq<Entry>, b: seq<Entry>, n: nat, t: nat, tail: seq<Entry>) {
    n <= |a| && t <= |b| && Merge(a, b) == Merge(a[..|a| - n], b[..|b| - t]) + tail
  }

  lemma FilledFromNothing(a: seq<Entry>, b: seq<Entry>)
    ensures Filled(a, b, 0, 0, [])
  {
    assert a[..|a|] == a && b[..|b|] == b;
  }

  lemma FilledLeft(a: seq<Entry>, b: seq<Entry>, n: nat, t: nat, tail: seq<Entry>)
    requires Filled(a, b, n, t, tail) && n < |a| && (t == |b| || a[|a| - 1 - n].id > b[|b| - 1 - t].id)
    ensures Filled(a, b, n + 1, t, [a[|a| - 1 - n]] + tail)
  {
    var a', b' := a[..|a| - n], b[..|b| - t];
    MergeStepLeft(a', b');
    assert a'[..|a'| - 1] == a[..|a| - n - 1];
  }

  lemma FilledRight(a: seq<Entry>, b: seq<Entry>, n: nat, t: nat, tail: seq<Entry>)
    requires Filled(a, b, n, t, tail) && t < |b| && !(n < |a| && a[|a| - 1 - n].id > b[|b| - 1 - t].id)
    ensures Filled(a, b, n, t + 1, [b[|b| - 1 - t]] + tail)
  {
    var a', b' := a[..|a| - n], b[..|b| - t];
    MergeStepRight(a', b');
    assert b'[..|b'| - 1] == b[..|b| - t - 1];
  }

  lemma FilledIsLast(a: seq<Entry>, b: seq<Entry>, n: nat, t: nat, tail: seq<Entry>)
    requires Filled(a, b, n, t, tail)
    ensures |tail| == n + t && tail == Last(Merge(a, b), n + t)
  {
    MergeLength(a, b);
    MergeLength(a[..|a| - n], b[..|b| - t]);
  }

  /** Rings that never overflowed show the whole log. */
  lemma {:induction false} NothingLetGo(s: seq<Entry>, n: nat, t: nat)
    requires |OfKind(s, false)| <= n && |OfKind(s, true)| <= t
    ensures Retained(s, n, t) == s
  {
    if s != [] {
      var x := s[|s| - 1];
      NothingLetGo(s[..|s| - 1], if x.trace then n else n - 1, if x.trace then t - 1 else t);
      assert s == s[..|s| - 1] + [x];
    }
  }

  // ------------------------------------------------------------------ the logger

  /** Math.trunc. */
  function Truncated(x: real): int {
    if x >= 0.0 then x.Floor else -((-x).Floor)
  }

  class Logger {
    const normal: RingBuffer<Entry>
    const trace: RingBuffer<Entry>
    var nextId: int
    ghost var emitted: seq<Entry>

    ghost predicate Valid()
      reads this, normal, trace, normal.buf, trace.buf
    {
      && normal != trace && normal.buf != trace.buf && normal.Valid() && trace.Valid()
      && normal.pushed == OfKind(emitted, false) && trace.pushed == OfKind(emitted, true)
      && Increasing(emitted) && forall i :: 0 <= i < |emitted| ==> emitted[i].id < nextId
    }

    constructor (normalCap: nat, traceCap: nat)
      requires normalCap > 0 && traceCap > 0
      ensures Valid() && emitted == [] && nextId == 1 && normal.cap == normalCap && trace.cap == traceCap
    {
      normal := new RingBuffer(normalCap);
      trace := new RingBuffer(traceCap);
      nextId, emitted := 1, [];
    }

    /** A record nobody wants costs nothing; one only the file wants costs an id. */
    method Emit(isTrace: bool, line: string, console: bool, file: bool)
      requires Valid()
      modifies this, normal, trace, normal.buf, trace.buf
      ensures Valid()
      ensures emitted == if console then old(emitted) + [Entry(old(nextId), isTrace, line)] else old(emitted)
      ensures nextId == if console || (file && !isTrace) then old(nextId) + 1 else old(nextId)
    {
      var passesFile := !isTrace && file;
      if !console && !passesFile {
        return;
      }
      var entry := Entry(nextId, isTrace, line);
      nextId := nextId + 1;
      if console {
        assert (emitted + [entry])[..|emitted|] == emitted;
        emitted := emitted + [entry];
        if isTrace {
          trace.Push(entry);
        } else {
          normal.Push(entry);
        }
      }
    }

    /** The newest record not yet taken, from whichever ring has it. */
    method Pick(normalOffset: nat, traceOffset: nat) returns (entry: Entry, fromNormal: bool)
      requires Valid() && normalOffset + traceOffset < normal.count + trace.count
      requires normalOffset <= normal.count && traceOffset <= trace.count
      ensures
        var a, b := Last(normal.pushed, normal.cap), Last(trace.pushed, trace.cap);
        var left := normalOffset < |a| && (traceOffset >= |b| || a[|a| - 1 - normalOffset].id > b[|b| - 1 - traceOffset].id);
        && fromNormal == left && (left || traceOffset < |b|)
        && entry == if left then a[|a| - 1 - normalOffset] else b[|b| - 1 - traceOffset]
    {
      hide Increasing, OfKind, Slot;
      var n := normal.Newest(normalOffset);
      var t := trace.Newest(traceOffset);
      fromNormal := n.Some? && (t == None || n.value.id > t.value.id);
      entry := if fromNormal then n.value else t.value;
    }

    /** Fills the answer from its end, visiting only the requested tail of each ring. */
    method TakeNewest(take: nat) returns (entries: seq<Entry>)
      requires Valid() && take <= normal.count + trace.count
      ensures entries == Last(Retained(emitted, normal.cap, trace.cap), take)
    {
      hide Filled, Merge, Retained, OfKind, Increasing, Slot, Last;
      ghost var a, b := Last(normal.pushed, normal.cap), Last(trace.pushed, trace.cap);
      HeldLength(normal.pushed, normal.cap);
      HeldLength(trace.pushed, trace.cap);
      FilledFromNothing(a, b);
      var out := new Entry[take];
      var i := take - 1;
      var normalOffset, traceOffset := 0, 0;
      ghost var tail := [];
      while i >= 0
        invariant -1 <= i < take && normalOffset <= |a| && traceOffset <= |b| && normalOffset + traceOffset == take - 1 - i
        invariant |tail| == take - 1 - i && forall k :: 0 <= k < |tail| ==> out[i + 1 + k] == tail[k]
        invariant Filled(a, b, normalOffset, traceOffset, tail)
      {
        var entry, fromNormal := Pick(normalOffset, traceOffset);
        out[i] := entry;
        if fromNormal {
          FilledLeft(a, b, normalOffset, traceOffset, tail);
          normalOffset := normalOffset + 1;
        } else {
          FilledRight(a, b, normalOffset, traceOffset, tail);
          traceOffset := traceOffset + 1;
        }
        tail := [entry] + tail;
        i := i - 1;
      }
      FilledIsLast(a, b, normalOffset, traceOffset, tail);
      MergeIsRetained(emitted, normal.cap, trace.cap);
      entries := out[..];
      assert entries == tail;
    }

    method MergeLogRings(limit: Option<nat>) returns (entries: seq<Entry>)
      requires Valid()
      ensures
        var log := Retained(emitted, normal.cap, trace.cap);
        entries == if limit.Some? then Last(log, limit.value) else log
    {
      hide Merge, Retained, OfKind, Increasing, Slot;
      MergeIsRetained(emitted, normal.cap, trace.cap);
      MergeLength(Last(normal.pushed, normal.cap), Last(trace.pushed, trace.cap));
      var total := normal.count + trace.count;
      entries := TakeNewest(if limit.Some? then Min(limit.value, total) else total);
    }

    method Snapshot() returns (entries: seq<Entry>)
      requires Valid()
      ensures entries == Retained(emitted, normal.cap, trace.cap)
    {
      entries := MergeLogRings(None);
    }

    /** A suffix of the snapshot: at least one record, and all of them for NaN. */
    method Recent(limit: Number) returns (entries: seq<Entry>)
      requires Valid()
      ensures
        var log := Retained(emitted, normal.cap, trace.cap);
        match limit
        case NaN => entries == log
        case Infinity(positive) => entries == if positive then log else Last(log, 1)
        case Finite(x) => entries == if x < 1.0 then Last(log, 1) else Last(log, x.Floor)
    {
      match limit
      case NaN => entries := MergeLogRings(None);
      case Infinity(positive) =>
        entries := MergeLogRings(if positive then None else Some(1));
      case Finite(x) =>
        var n := Truncated(x);
        entries := MergeLogRings(Some(if n < 1 then 1 else n));
    }
  }
}
