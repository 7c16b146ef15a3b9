/** Source mute intervals: the bounded mailbox and the consumer's interval history. */
module Mute {
  import opened Common

  /** How many spans one call may announce; the mailbox has room for twice that. */
  const MAX_SPANS: nat := 64
  const QUEUE: nat := MAX_SPANS * 2

  datatype Span = Span(start: nat, end: nat)
  datatype Stamp = Stamp(generation: nat, source: nat)
  datatype Interval = Interval(generation: nat, span: Span)
  datatype Position = Position(generation: nat, low: nat, high: nat)

  // ---------------------------------------------------------------- interval meaning

  predicate Nonempty(i: Interval) {
    i.span.start < i.span.end
  }

  predicate Holds(i: Interval, generation: nat, source: nat) {
    i.generation == generation && i.span.start <= source < i.span.end
  }

  predicate Covers(entries: seq<Interval>, generation: nat, source: nat) {
    exists k | 0 <= k < |entries| :: Holds(entries[k], generation, source)
  }

  /** Some source sample of the position's support is covered. */
  ghost predicate Meets(entries: seq<Interval>, p: Position) {
    exists x: nat | p.low <= x <= p.high :: Covers(entries, p.generation, x)
  }

  predicate Before(a: Interval, b: Interval) {
    a.generation < b.generation || (a.generation == b.generation && a.span.end < b.span.start)
  }

  /** Sorted by generation and start, disjoint and not even touching. */
  predicate Separated(entries: seq<Interval>) {
    && (forall k | 0 <= k < |entries| :: Nonempty(entries[k]))
    && (forall j, k | 0 <= j < k < |entries| :: Before(entries[j], entries[k]))
  }

  // ---------------------------------------------------------------- history on values

  predicate Touches(a: Interval, b: Interval) {
    a.generation == b.generation && a.span.end >= b.span.start && a.span.start <= b.span.end
  }

  function Join(a: Interval, b: Interval): Interval {
    Interval(a.generation, Span(Min(a.span.start, b.span.start), Max(a.span.end, b.span.end)))
  }

  datatype Absorbed = Absorbed(rest: seq<Interval>, merged: Interval)

  /** One pass: remove every entry the growing interval touches. */
  function Absorb(entries: seq<Interval>, i: Interval): (r: Absorbed)
    ensures |r.rest| <= |entries|
    decreases |entries|
  {
    if entries == [] then Absorbed([], i)
    else if Touches(entries[0], i) then Absorb(entries[1..], Join(i, entries[0]))
    else
      var tail := Absorb(entries[1..], i);
      Absorbed([entries[0]] + tail.rest, tail.merged)
  }

  /** Number of leading entries the key comparison accepts. */
  function CountBelow(entries: seq<Interval>, generation: nat, start: nat): (n: nat)
    ensures n <= |entries|
    decreases |entries|
  {
    if entries == [] || !Below(entries[0], generation, start) then 0
    else 1 + CountBelow(entries[1..], generation, start)
  }

  predicate Below(i: Interval, generation: nat, start: nat) {
    i.generation < generation || (i.generation == generation && i.span.start < start)
  }

  /** The new union, or nothing when a bounded list has no room and nothing merged. */
  function Inserted(entries: seq<Interval>, capacity: nat, i: Interval): (r: Option<seq<Interval>>)
  {
    var a := Absorb(entries, i);
    if |a.rest| == capacity then None
    else
      var at := CountBelow(a.rest, a.merged.generation, a.merged.span.start);
      Some(a.rest[..at] + [a.merged] + a.rest[at..])
  }

  function Retired(entries: seq<Interval>, p: Position): seq<Interval>
    decreases |entries|
  {
    if entries != [] && (entries[0].generation != p.generation || entries[0].span.end <= p.low)
    then Retired(entries[1..], p)
    else entries
  }

  /** Look only at the last entry starting at or before the support's end. */
  function IsMuted(entries: seq<Interval>, p: Position): bool {
    var n := CountBelow(entries, p.generation, p.high + 1);
    n > 0 && entries[n - 1].generation == p.generation && entries[n - 1].span.end > p.low
  }

  // ---------------------------------------------------------------- laws of the history

  lemma {:induction false} MergedStaysAfter(entries: seq<Interval>, i: Interval, bound: nat)
    requires bound < i.span.start
    requires forall k | 0 <= k < |entries| && entries[k].generation == i.generation :: bound < entries[k].span.start
    ensures bound < Absorb(entries, i).merged.span.start
    decreases |entries|
  {
    if entries != [] {
      MergedStaysAfter(entries[1..], if Touches(entries[0], i) then Join(i, entries[0]) else i, bound);
    }
  }

  lemma {:induction false} NothingToAbsorb(entries: seq<Interval>, i: Interval)
    requires forall k | 0 <= k < |entries| :: !Touches(entries[k], i)
    ensures Absorb(entries, i) == Absorbed(entries, i)
    decreases |entries|
  {
    if entries != [] {
      NothingToAbsorb(entries[1..], i);
    }
  }

  /** An entry the interval does not touch stays clear of everything it grows into. */
  lemma UntouchedStaysClear(e: Interval, tail: seq<Interval>, i: Interval)
    requires Nonempty(e) && Nonempty(i) && !Touches(e, i)
    requires forall k | 0 <= k < |tail| :: Nonempty(tail[k]) && Before(e, tail[k])
    ensures !Touches(e, Absorb(tail, i).merged) || Absorb(tail, i).merged.generation != i.generation
  {
    if e.generation == i.generation {
      if e.span.end < i.span.start {
        MergedStaysAfter(tail, i, e.span.end);
      } else {
        NothingToAbsorb(tail, i);
      }
    }
  }

  lemma {:induction false} AbsorbGrows(entries: seq<Interval>, i: Interval)
    requires Nonempty(i)
    ensures Nonempty(Absorb(entries, i).merged) && Absorb(entries, i).merged.generation == i.generation
    ensures forall k | 0 <= k < |Absorb(entries, i).rest| :: Absorb(entries, i).rest[k] in entries
    decreases |entries|
  {
    if entries != [] {
      AbsorbGrows(entries[1..], if Touches(entries[0], i) then Join(i, entries[0]) else i);
    }
  }

  /** The single pass leaves a separated list that the grown interval does not touch. */
  lemma {:induction false} AbsorbSeparates(entries: seq<Interval>, i: Interval)
    requires Separated(entries) && Nonempty(i)
    ensures
      var a := Absorb(entries, i);
      && Separated(a.rest) && Nonempty(a.merged) && a.merged.generation == i.generation
      && (forall k | 0 <= k < |a.rest| :: !Touches(a.rest[k], a.merged))
    decreases |entries|
  {
    AbsorbGrows(entries, i);
    if entries != [] {
      var e, tail := entries[0], entries[1..];
      assert forall k | 0 <= k < |tail| :: Nonempty(tail[k]) && Before(e, tail[k]);
      if Touches(e, i) {
        AbsorbSeparates(tail, Join(i, e));
      } else {
        AbsorbSeparates(tail, i);
        UntouchedStaysClear(e, tail, i);
        AbsorbGrows(tail, i);
        hide Touches, Absorb;
        SeparatedCons(e, tail, Absorb(tail, i).rest);
      }
    }
  }

  lemma SeparatedCons(e: Interval, tail: seq<Interval>, rest: seq<Interval>)
    requires Nonempty(e) && Separated(rest)
    requires forall k | 0 <= k < |tail| :: Before(e, tail[k])
    requires forall k | 0 <= k < |rest| :: rest[k] in tail
    ensures Separated([e] + rest)
  {
    hide Before, Nonempty;
    var s := [e] + rest;
    assert forall k | 1 <= k < |s| :: s[k] == rest[k - 1];
    assert forall k | 0 <= k < |rest| :: Before(e, rest[k]);
  }

  /** Absorbing covers exactly what the list and the interval covered. */
  lemma {:induction false} AbsorbCovers(entries: seq<Interval>, i: Interval, generation: nat, source: nat)
    requires Nonempty(i) && forall k | 0 <= k < |entries| :: Nonempty(entries[k])
    ensures
      var a := Absorb(entries, i);
      Covers(entries, generation, source) || Holds(i, generation, source) <==>
        Covers(a.rest, generation, source) || Holds(a.merged, generation, source)
    decreases |entries|
  {
    if entries != [] {
      var e, tail := entries[0], entries[1..];
      CoversCons(e, tail, generation, source);
      assert entries == [e] + tail;
      if Touches(e, i) {
        AbsorbCovers(tail, Join(i, e), generation, source);
      } else {
        AbsorbCovers(tail, i, generation, source);
        CoversCons(e, Absorb(tail, i).rest, generation, source);
      }
    }
  }

  lemma CoversCons(e: Interval, tail: seq<Interval>, generation: nat, source: nat)
    ensures Covers([e] + tail, generation, source) <==> Holds(e, generation, source) || Covers(tail, generation, source)
  {
    CoversConcat([e], tail, generation, source);
    assert Holds([e][0], generation, source) <==> Holds(e, generation, source);
  }

  lemma CoversConcat(a: seq<Interval>, b: seq<Interval>, generation: nat, source: nat)
    ensures Covers(a + b, generation, source) <==> Covers(a, generation, source) || Covers(b, generation, source)
  {
    if Covers(a, generation, source) {
      var k :| 0 <= k < |a| && Holds(a[k], generation, source);
      assert Holds((a + b)[k], generation, source);
    }
    if Covers(b, generation, source) {
      var k :| 0 <= k < |b| && Holds(b[k], generation, source);
      assert Holds((a + b)[|a| + k], generation, source);
    }
  }

  /** In a separated list the key comparison accepts exactly a prefix. */
  lemma {:induction false} CountBelowSplits(entries: seq<Interval>, generation: nat, start: nat)
    requires Separated(entries)
    ensures
      var n := CountBelow(entries, generation, start);
      && (forall k | 0 <= k < n :: Below(entries[k], generation, start))
      && (forall k | n <= k < |entries| :: !Below(entries[k], generation, start))
    decreases |entries|
  {
    if entries != [] && Below(entries[0], generation, start) {
      CountBelowSplits(entries[1..], generation, start);
      assert forall k | 1 <= k < |entries| :: entries[k] == entries[1..][k - 1];
    }
  }

  /** A successful insert keeps the list separated and adds exactly the interval. */
  lemma InsertAdds(entries: seq<Interval>, capacity: nat, i: Interval)
    requires Separated(entries) && |entries| <= capacity && Nonempty(i)
    ensures
      var r := Inserted(entries, capacity, i);
      && (r.None? <==> |entries| == capacity && forall k | 0 <= k < |entries| :: !Touches(entries[k], i))
      && (r.Some? ==>
            && Separated(r.value) && |r.value| <= capacity
            && forall g: nat, x: nat :: Covers(r.value, g, x) <==> Covers(entries, g, x) || Holds(i, g, x))
  {
    var a := Absorb(entries, i);
    AbsorbSeparates(entries, i);
    AbsorbShrinks(entries, i);
    if |a.rest| != capacity {
      var at := CountBelow(a.rest, a.merged.generation, a.merged.span.start);
      CountBelowSplits(a.rest, a.merged.generation, a.merged.span.start);
      SeparatedAround(a.rest, at, a.merged);
      forall g: nat, x: nat
        ensures Covers(a.rest[..at] + [a.merged] + a.rest[at..], g, x) <==> Covers(entries, g, x) || Holds(i, g, x)
      {
        AbsorbCovers(entries, i, g, x);
        CoversAround(a.rest, at, a.merged, g, x);
      }
    }
  }

  lemma {:induction false} AbsorbShrinks(entries: seq<Interval>, i: Interval)
    ensures |Absorb(entries, i).rest| == |entries| <==> forall k | 0 <= k < |entries| :: !Touches(entries[k], i)
    decreases |entries|
  {
    if entries != [] {
      if !Touches(entries[0], i) {
        AbsorbShrinks(entries[1..], i);
        assert forall k | 1 <= k < |entries| :: entries[k] == entries[1..][k - 1];
      }
    }
  }

  /** A pass that removes nothing leaves the list as it was. */
  lemma {:induction false} FullMeansUnchanged(entries: seq<Interval>, i: Interval)
    ensures |Absorb(entries, i).rest| == |entries| ==> Absorb(entries, i).rest == entries
    decreases |entries|
  {
    if entries != [] && !Touches(entries[0], i) {
      FullMeansUnchanged(entries[1..], i);
    }
  }

  lemma SeparatedAround(entries: seq<Interval>, at: nat, m: Interval)
    requires Separated(entries) && Nonempty(m) && at <= |entries|
    requires forall k | 0 <= k < |entries| :: !Touches(entries[k], m)
    requires forall k | 0 <= k < at :: Below(entries[k], m.generation, m.span.start)
    requires forall k | at <= k < |entries| :: !Below(entries[k], m.generation, m.span.start)
    ensures Separated(entries[..at] + [m] + entries[at..])
  {
    assert forall k | 0 <= k < at :: Before(entries[k], m);
    assert forall k | at <= k < |entries| :: Before(m, entries[k]);
  }

  lemma CoversAround(entries: seq<Interval>, at: nat, m: Interval, g: nat, x: nat)
    requires at <= |entries|
    ensures Covers(entries[..at] + [m] + entries[at..], g, x) <==> Covers(entries, g, x) || Holds(m, g, x)
  {
    CoversConcat(entries[..at] + [m], entries[at..], g, x);
    CoversConcat(entries[..at], [m], g, x);
    CoversConcat(entries[..at], entries[at..], g, x);
    CoversCons(m, [], g, x);
    assert entries[..at] + entries[at..] == entries && [m] + [] == [m];
  }

  /** Retiring drops nothing of the position's generation at or after its support. */
  lemma {:induction false} RetireSpares(entries: seq<Interval>, p: Position)
    requires Separated(entries)
    ensures Separated(Retired(entries, p)) && |Retired(entries, p)| <= |entries|
    ensures forall x: nat | x >= p.low ::
        Covers(Retired(entries, p), p.generation, x) <==> Covers(entries, p.generation, x)
    decreases |entries|
  {
    if entries != [] && (entries[0].generation != p.generation || entries[0].span.end <= p.low) {
      RetireSpares(entries[1..], p);
      forall x: nat | x >= p.low
        ensures Covers(entries, p.generation, x) <==> Covers(entries[1..], p.generation, x)
      {
        assert entries == [entries[0]] + entries[1..];
        CoversCons(entries[0], entries[1..], p.generation, x);
      }
    }
  }

  /** And nothing passed is kept: every entry left of the generation still reaches beyond the support's start. */
  lemma {:induction false} RetireDropsPassed(entries: seq<Interval>, p: Position, k: nat)
    requires Separated(entries) && k < |Retired(entries, p)|
    ensures Retired(entries, p)[0].generation == p.generation
    ensures Retired(entries, p)[k].generation == p.generation ==> Retired(entries, p)[k].span.end > p.low
    decreases |entries|
  {
    if entries[0].generation != p.generation || entries[0].span.end <= p.low {
      assert forall j | 0 <= j < |entries| - 1 :: entries[1..][j] == entries[j + 1];
      RetireDropsPassed(entries[1..], p, k);
    } else if k > 0 {
      assert Before(entries[0], entries[k]) && Nonempty(entries[k]);
    }
  }

  /** The one-entry lookup answers for the whole list. */
  lemma LookupIsExact(entries: seq<Interval>, p: Position)
    requires Separated(entries) && p.low <= p.high
    ensures IsMuted(entries, p) <==> Meets(entries, p)
  {
    var n := CountBelow(entries, p.generation, p.high + 1);
    CountBelowSplits(entries, p.generation, p.high + 1);
    if IsMuted(entries, p) {
      var e := entries[n - 1];
      var x := Max(e.span.start, p.low);
      assert Holds(e, p.generation, x) && Covers(entries, p.generation, x);
    }
    if Meets(entries, p) {
      var x: nat :| p.low <= x <= p.high && Covers(entries, p.generation, x);
      var k :| 0 <= k < |entries| && Holds(entries[k], p.generation, x);
      assert Below(entries[k], p.generation, p.high + 1);
      assert k <= n - 1;
      assert k < n - 1 ==> Before(entries[k], entries[n - 1]);
    }
  }

  // ---------------------------------------------------------------- whole runs

  datatype Op = Record(interval: Interval) | Emit(position: Position)

  function Step(entries: seq<Interval>, capacity: nat, op: Op): seq<Interval> {
    match op
    case Record(i) =>
      var r := Inserted(entries, capacity, i);
      if r.Some? then r.value else entries
    case Emit(p) => Retired(entries, p)
  }

  function HistoryAfter(capacity: nat, ops: seq<Op>): seq<Interval>
    decreases |ops|
  {
    if ops == [] then [] else Step(HistoryAfter(capacity, ops[..|ops| - 1]), capacity, ops[|ops| - 1])
  }

  /** Every span whose insert succeeded, kept for ever. */
  function Naive(capacity: nat, ops: seq<Op>): seq<Interval>
    decreases |ops|
  {
    if ops == [] then []
    else
      var before, op := ops[..|ops| - 1], ops[|ops| - 1];
      Naive(capacity, before) +
      if op.Record? && Inserted(HistoryAfter(capacity, before), capacity, op.interval).Some? then [op.interval] else []
  }

  /** Nonempty spans of any generation; emissions of one, never moving back. */
  predicate Playing(generation: nat, ops: seq<Op>) {
    && (forall k | 0 <= k < |ops| && ops[k].Record? :: Nonempty(ops[k].interval))
    && (forall k | 0 <= k < |ops| && ops[k].Emit? :: ops[k].position.generation == generation)
    && (forall j, k | 0 <= j < k < |ops| && ops[j].Emit? && ops[k].Emit? ::
          ops[j].position.low <= ops[k].position.low)
  }

  predicate NotBefore(ops: seq<Op>, x: nat) {
    forall k | 0 <= k < |ops| && ops[k].Emit? :: ops[k].position.low <= x
  }

  lemma {:induction false} HistoryCoversNaive(capacity: nat, generation: nat, ops: seq<Op>)
    requires Playing(generation, ops)
    ensures Separated(HistoryAfter(capacity, ops)) && |HistoryAfter(capacity, ops)| <= capacity
    ensures forall x: nat | NotBefore(ops, x) ::
        Covers(HistoryAfter(capacity, ops), generation, x) <==> Covers(Naive(capacity, ops), generation, x)
    decreases |ops|
  {
    if ops != [] {
      var before, op := ops[..|ops| - 1], ops[|ops| - 1];
      HistoryCoversNaive(capacity, generation, before);
      var entries := HistoryAfter(capacity, before);
      match op {
        case Record(i) => InsertAdds(entries, capacity, i);
        case Emit(p) => RetireSpares(entries, p);
      }
      forall x: nat | NotBefore(ops, x)
        ensures Covers(HistoryAfter(capacity, ops), generation, x) <==> Covers(Naive(capacity, ops), generation, x)
      {
        assert forall k | 0 <= k < |before| :: before[k] == ops[k];
        assert NotBefore(before, x);
        if op.Emit? {
          assert ops[|ops| - 1].position.low <= x;
          assert Naive(capacity, before) + [] == Naive(capacity, before);
        } else {
          CoversConcat(Naive(capacity, before), [op.interval], generation, x);
          CoversCons(op.interval, [], generation, x);
          assert [op.interval] + [] == [op.interval];
        }
      }
    }
  }

  /**
   The bounded, merged, pruned history answers every later lookup as the union
   of all spans ever successfully inserted would.
   */
  lemma HistoryRefinesNaive(capacity: nat, generation: nat, ops: seq<Op>, p: Position)
    requires Playing(generation, ops + [Emit(p)]) && p.low <= p.high
    ensures IsMuted(HistoryAfter(capacity, ops), p) <==> Meets(Naive(capacity, ops), p)
  {
    assert forall k | 0 <= k < |ops| :: (ops + [Emit(p)])[k] == ops[k];
    assert (ops + [Emit(p)])[|ops|] == Emit(p);
    HistoryCoversNaive(capacity, generation, ops);
    LookupIsExact(HistoryAfter(capacity, ops), p);
    assert forall x: nat | x >= p.low :: NotBefore(ops, x);
  }
}
