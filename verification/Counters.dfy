/** What the counters of one timer accumulate between start and stop, how the counters of several
    threads are merged, and what an enabled event is worth. */
module Counters {
  import opened Papi

  const BADCOUNT: int := -999999

  /** What reading the hardware counters of a thread gives. */
  datatype Reading = Read(values: seq<int>) | Failed

  datatype Stats = Stats(last: seq<int>, accum: seq<int>)

  function Stopped(accum: int, delta: int, multiplexed: bool): int {
    if !multiplexed && delta < 0 then BADCOUNT else accum + delta
  }

  function AddCounts(a: int, b: int): int {
    if a == BADCOUNT || b == BADCOUNT then BADCOUNT else a + b
  }

  /** A derived event's value; no division by zero. */
  function Quotient(num: int, denom: int): real {
    if denom > 0 then num as real / denom as real else 0.0
  }

  /** The first n entries of s are replaced. */
  function Overwritten(s: seq<int>, values: seq<int>): seq<int>
    requires |values| <= |s|
  {
    values + s[|values|..]
  }

  function StoppedAll(s: Stats, values: seq<int>, multiplexed: bool): seq<int>
    requires |values| <= |s.last| && |values| <= |s.accum|
  {
    seq(|s.accum|, k requires 0 <= k < |s.accum| =>
      if k < |values| then Stopped(s.accum[k], values[k] - s.last[k], multiplexed) else s.accum[k])
  }

  class Papistats {
    const last: array<int>
    const accum: array<int>

    constructor ()
      ensures Valid() && fresh(last) && fresh(accum)
      ensures forall k :: 0 <= k < MAX_AUX ==> last[k] == 0 && accum[k] == 0
    {
      last := new int[MAX_AUX](_ => 0);
      accum := new int[MAX_AUX](_ => 0);
    }

    ghost predicate Valid() {
      last.Length == MAX_AUX && accum.Length == MAX_AUX && last != accum
    }

    ghost function State(): Stats
      reads last, accum
    {
      Stats(last[..], accum[..])
    }

    method Start(npapiEvents: nat, r: Reading) returns (ok: bool)
      requires Valid() && npapiEvents <= MAX_AUX && (r.Read? ==> |r.values| == npapiEvents)
      modifies last
      ensures ok == (npapiEvents == 0 || r.Read?)
      ensures
        var s := old(State());
        State() == s.(last := if r.Read? then Overwritten(s.last, r.values) else s.last)
    {
      if npapiEvents == 0 { return true; }
      if r.Failed? { return false; }
      for n := 0 to npapiEvents
        invariant forall k :: 0 <= k < n ==> last[k] == r.values[k]
        invariant forall k :: n <= k < MAX_AUX ==> last[k] == old(last[k])
      {
        last[n] := r.values[n];
      }
      ok := true;
    }

    method Stop(npapiEvents: nat, r: Reading, multiplexed: bool) returns (ok: bool)
      requires Valid() && npapiEvents <= MAX_AUX && (r.Read? ==> |r.values| == npapiEvents)
      modifies accum
      ensures ok == (npapiEvents == 0 || r.Read?)
      ensures
        var s := old(State());
        State() == s.(accum := if r.Read? then StoppedAll(s, r.values, multiplexed) else s.accum)
    {
      if npapiEvents == 0 { return true; }
      if r.Failed? { return false; }
      for n := 0 to npapiEvents
        invariant last[..] == old(last[..])
        invariant forall k :: 0 <= k < n ==> accum[k] == Stopped(old(accum[k]), r.values[k] - last[k], multiplexed)
        invariant forall k :: n <= k < MAX_AUX ==> accum[k] == old(accum[k])
      {
        var delta := r.values[n] - last[n];
        if !multiplexed && delta < 0 {
          accum[n] := BADCOUNT;
        } else {
          accum[n] := accum[n] + delta;
        }
      }
      ok := true;
    }

    /** Adds the counters of `auxin`, which may be this object. */
    method Add(npapiEvents: nat, auxin: Papistats)
      requires Valid() && auxin.Valid() && npapiEvents <= MAX_AUX
      modifies accum
      ensures forall k :: 0 <= k < npapiEvents ==> accum[k] == AddCounts(old(accum[k]), old(auxin.accum[k]))
      ensures forall k :: npapiEvents <= k < MAX_AUX ==> accum[k] == old(accum[k])
    {
      for n := 0 to npapiEvents
        invariant forall k :: 0 <= k < n ==> accum[k] == AddCounts(old(accum[k]), old(auxin.accum[k]))
        invariant forall k :: n <= k < MAX_AUX ==> accum[k] == old(accum[k]) && auxin.accum[k] == old(auxin.accum[k])
      {
        if auxin.accum[n] == BADCOUNT || accum[n] == BADCOUNT {
          accum[n] := BADCOUNT;
        } else {
          accum[n] := accum[n] + auxin.accum[n];
        }
      }
    }

    /** The value of the event that is stored under a name, or a failure if there is none: what the
        event's own counter has accumulated, or the quotient of the two shared counters that define
        it. */
    method GetEventValue(tables: Tables, name: string) returns (ok: bool, value: real)
      requires Valid() && tables.Valid() && Integrity(tables.State())
      ensures ok <==> IndexOfName(tables.State().printed, name) >= 0
      ensures ok ==>
                var g := tables.State();
                Worth(g.raw, g.printed[IndexOfName(g.printed, name)], accum[..], value)
    {
      value := 0.0;
      for n := 0 to tables.nEvents
        invariant forall k :: 0 <= k < n ==> tables.prEvent[k].name != name
      {
        var p := tables.prEvent[n];
        assert p == tables.State().printed[n] && PointsRight(p, tables.State().raw);
        if p.name == name {
          NameIndex(tables.State().printed, name, n);
          if p.denomidx > -1 {
            value := Quotient(accum[p.numidx], accum[p.denomidx]);
          } else {
            value := accum[p.numidx] as real;
          }
          return true, value;
        }
      }
      ok := false;
    }
  }

  /** The value of a printed event, in terms of the counters that it is defined from. */
  ghost predicate Worth(raw: seq<Counter>, p: Printed, sums: seq<int>, value: real) {
    && 0 <= p.numidx < |raw| <= |sums|
    && match p.event
       case Raw(c) => raw[p.numidx] == c && value == sums[p.numidx] as real
       case Derived(r) =>
         && 0 <= p.denomidx < |raw|
         && (raw[p.numidx], raw[p.denomidx]) in Definitions(r)
         && value == Quotient(sums[p.numidx], sums[p.denomidx])
  }

  /** The same without the table of definitions: the value of a quotient is what gives the numerator
      when multiplied by a positive denominator, and 0 otherwise. */
  lemma WorthIs(raw: seq<Counter>, p: Printed, sums: seq<int>, value: real)
    requires Worth(raw, p, sums, value)
    ensures
      && 0 <= p.numidx < |raw| <= |sums|
      && match p.event
         case Raw(c) => raw[p.numidx] == c && value == sums[p.numidx] as real
         case Derived(r) =>
           && 0 <= p.denomidx < |raw| && MadeOf(r, raw[p.numidx], raw[p.denomidx])
           && (sums[p.denomidx] > 0 ==> value * sums[p.denomidx] as real == sums[p.numidx] as real)
           && (sums[p.denomidx] <= 0 ==> value == 0.0)
  {
  }

  lemma SameIndex(raw: seq<Counter>, i: int, j: int)
    requires NoDuplicates(raw) && 0 <= i < |raw| && 0 <= j < |raw| && raw[i] == raw[j]
    ensures i == j
  {
  }

  lemma ChainRule(x: real, y: real, z: real, a: real, b: real, c: real)
    requires a > 0.0 && b > 0.0 && x * a == y && z * b == a && c * b == y
    ensures c == x * z
  {
    assert c * b == x * (z * b) == (x * z) * b;
    assert (c - x * z) * b == 0.0;
  }

  /** Floating point operations per cycle are those per instruction times the instructions per
      cycle. */
  lemma PerCycle(raw: seq<Counter>, fpc: Printed, fpi: Printed, ipc: Printed, sums: seq<int>, x: real, y: real, z: real)
    requires NoDuplicates(raw) && Worth(raw, fpc, sums, x) && Worth(raw, fpi, sums, y) && Worth(raw, ipc, sums, z)
    requires fpc.event == Derived(FPC) && fpi.event == Derived(FPI) && ipc.event == Derived(IPC)
    requires sums[fpi.denomidx] > 0 && sums[ipc.denomidx] > 0
    ensures x == y * z
  {
    WorthIs(raw, fpc, sums, x);
    WorthIs(raw, fpi, sums, y);
    WorthIs(raw, ipc, sums, z);
    SameIndex(raw, fpc.numidx, fpi.numidx);
    SameIndex(raw, fpi.denomidx, ipc.numidx);
    SameIndex(raw, fpc.denomidx, ipc.denomidx);
    ChainRule(y, sums[fpi.numidx] as real, z, sums[fpi.denomidx] as real, sums[ipc.denomidx] as real, x);
  }

  /** Where computational intensity and the load-store fraction count loads and stores by the same
      counter, their product is the floating point operations per instruction. */
  lemma PerLoadStore(raw: seq<Counter>, fpi: Printed, ci: Printed, lst: Printed, sums: seq<int>,
                     x: real, y: real, z: real)
    requires NoDuplicates(raw) && Worth(raw, fpi, sums, x) && Worth(raw, ci, sums, y) && Worth(raw, lst, sums, z)
    requires fpi.event == Derived(FPI) && ci.event == Derived(CI) && lst.event == Derived(LSTPI)
    requires ci.denomidx == lst.numidx && sums[ci.denomidx] > 0 && sums[lst.denomidx] > 0
    ensures x == y * z
  {
    WorthIs(raw, fpi, sums, x);
    WorthIs(raw, ci, sums, y);
    WorthIs(raw, lst, sums, z);
    SameIndex(raw, fpi.numidx, ci.numidx);
    SameIndex(raw, fpi.denomidx, lst.denomidx);
    ChainRule(y, sums[ci.numidx] as real, z, sums[ci.denomidx] as real, sums[lst.denomidx] as real, x);
  }

  lemma Reciprocal(x: real, y: real, m: real, a: real)
    requires m > 0.0 && x * a == m && y * m == a
    ensures x * y == 1.0
  {
    var t := y * m;
    assert x * t == m;
    assert (x * y) * m == x * t;
    assert (x * y - 1.0) * m == 0.0;
  }

  /** The miss rate is the reciprocal of the accesses per miss, where those are counted by the
      accesses. */
  lemma MissesAndHits(raw: seq<Counter>, rate: Printed, per: Printed, sums: seq<int>, x: real, y: real)
    requires NoDuplicates(raw) && Worth(raw, rate, sums, x) && Worth(raw, per, sums, y)
    requires rate.event == Derived(DCMRT) && per.event == Derived(LSTPDCM) && raw[per.numidx] == L1Dca
    requires sums[rate.denomidx] > 0 && sums[per.denomidx] > 0
    ensures x * y == 1.0
  {
    WorthIs(raw, rate, sums, x);
    WorthIs(raw, per, sums, y);
    SameIndex(raw, rate.numidx, per.denomidx);
    SameIndex(raw, rate.denomidx, per.numidx);
    Reciprocal(x, y, sums[rate.numidx] as real, sums[rate.denomidx] as real);
  }

  function Sum(s: seq<int>): int {
    if s == [] then 0 else Sum(s[..|s| - 1]) + s[|s| - 1]
  }

  /** One timed interval: the counters at start and at stop. */
  datatype Lap = Lap(start: seq<int>, stop: seq<int>)

  ghost predicate Laps(laps: seq<Lap>, n: nat) {
    forall i :: 0 <= i < |laps| ==> |laps[i].start| == n && |laps[i].stop| == n
  }

  function AfterLap(s: Stats, lap: Lap, multiplexed: bool): Stats
    requires |lap.start| == |lap.stop| <= |s.last| && |s.last| == |s.accum|
  {
    var started := s.(last := Overwritten(s.last, lap.start));
    started.(accum := StoppedAll(started, lap.stop, multiplexed))
  }

  function AfterLaps(s: Stats, laps: seq<Lap>, n: nat, multiplexed: bool): (t: Stats)
    requires Laps(laps, n) && n <= |s.last| && |s.last| == |s.accum|
    ensures |t.last| == |t.accum| == |s.accum|
  {
    if laps == [] then s
    else AfterLap(AfterLaps(s, laps[..|laps| - 1], n, multiplexed), laps[|laps| - 1], multiplexed)
  }

  function Deltas(laps: seq<Lap>, k: nat): seq<int>
    requires forall i :: 0 <= i < |laps| ==> k < |laps[i].start| && k < |laps[i].stop|
  {
    seq(|laps|, i requires 0 <= i < |laps| => laps[i].stop[k] - laps[i].start[k])
  }

  /** No interval went backwards, or going backwards is tolerated. */
  ghost predicate Clean(deltas: seq<int>, multiplexed: bool) {
    multiplexed || forall i :: 0 <= i < |deltas| ==> deltas[i] >= 0
  }

  lemma DropLastDelta(laps: seq<Lap>, k: nat)
    requires laps != [] && forall i :: 0 <= i < |laps| ==> k < |laps[i].start| && k < |laps[i].stop|
    ensures Deltas(laps, k)[..|laps| - 1] == Deltas(laps[..|laps| - 1], k)
  {
  }

  /** Over any run of intervals, a counter accumulates the sum of its differences. */
  lemma {:induction false} Accumulates(s: Stats, laps: seq<Lap>, n: nat, k: nat, multiplexed: bool)
    requires Laps(laps, n) && k < n <= |s.last| && |s.last| == |s.accum|
    requires Clean(Deltas(laps, k), multiplexed)
    ensures AfterLaps(s, laps, n, multiplexed).accum[k] == s.accum[k] + Sum(Deltas(laps, k))
  {
    if laps != [] {
      DropLastDelta(laps, k);
      var front := laps[..|laps| - 1];
      assert Deltas(front, k) == Deltas(laps, k)[..|front|];
      Accumulates(s, front, n, k, multiplexed);
    }
  }

  /** The last interval that went backwards is number b. */
  ghost predicate LastBad(deltas: seq<int>, b: nat) {
    b < |deltas| && deltas[b] < 0 && forall i :: b < i < |deltas| ==> deltas[i] >= 0
  }

  /** After an interval that went backwards, later intervals are added to the bad count itself. */
  lemma {:induction false} AccumulatesAfterBad(s: Stats, laps: seq<Lap>, n: nat, k: nat, b: nat)
    requires Laps(laps, n) && k < n <= |s.last| && |s.last| == |s.accum|
    requires LastBad(Deltas(laps, k), b)
    ensures AfterLaps(s, laps, n, false).accum[k] == BADCOUNT + Sum(Deltas(laps, k)[b + 1..])
  {
    DropLastDelta(laps, k);
    var front := laps[..|laps| - 1];
    var deltas := Deltas(laps, k);
    if b < |front| {
      assert Deltas(front, k) == deltas[..|front|];
      AccumulatesAfterBad(s, front, n, k, b);
      assert deltas[b + 1..][..|deltas| - b - 2] == deltas[..|front|][b + 1..];
    }
  }

  lemma {:induction false} SumOfCounts(s: seq<int>)
    requires forall i :: 0 <= i < |s| ==> s[i] >= 0
    ensures Sum(s) >= 0
    ensures Sum(s) == 0 <==> forall i :: 0 <= i < |s| ==> s[i] == 0
  {
    if s != [] {
      SumOfCounts(s[..|s| - 1]);
      assert forall i :: 0 <= i < |s| - 1 ==> s[..|s| - 1][i] == s[i];
    }
  }

  /** When a run that is not multiplexed ends with the bad count: an interval went backwards and
      its counter has not moved in any later interval. A run with a bad interval that goes on
      counting is therefore not reported as bad. */
  lemma ReportedBad(s: Stats, laps: seq<Lap>, n: nat, k: nat)
    requires Laps(laps, n) && k < n <= |s.last| && |s.last| == |s.accum| && s.accum[k] >= 0
    ensures AfterLaps(s, laps, n, false).accum[k] == -999999 <==>
            exists b: nat :: LastBad(Deltas(laps, k), b)
                             && forall i :: b < i < |laps| ==> laps[i].stop[k] == laps[i].start[k]
  {
    var deltas := Deltas(laps, k);
    if b: nat :| b < |deltas| && deltas[b] < 0 {
      var last := LastBadOf(deltas);
      AccumulatesAfterBad(s, laps, n, k, last);
      var rest := deltas[last + 1..];
      SumOfCounts(rest);
      assert forall i :: last < i < |laps| ==> rest[i - last - 1] == laps[i].stop[k] - laps[i].start[k];
      assert (forall i :: 0 <= i < |rest| ==> rest[i] == 0)
             <==> forall i :: last < i < |laps| ==> laps[i].stop[k] == laps[i].start[k] by {
        assert forall i :: 0 <= i < |rest| ==> rest[i] == laps[i + last + 1].stop[k] - laps[i + last + 1].start[k];
      }
      assert forall c: nat :: LastBad(deltas, c) ==> c == last;
    } else {
      Accumulates(s, laps, n, k, false);
      SumOfCounts(deltas);
    }
  }

  lemma {:induction false} LastBadOf(deltas: seq<int>) returns (b: nat)
    requires exists i :: 0 <= i < |deltas| && deltas[i] < 0
    ensures LastBad(deltas, b)
  {
    var last := |deltas| - 1;
    if deltas[last] < 0 {
      b := last;
    } else {
      assert forall i :: 0 <= i < last ==> deltas[..last][i] == deltas[i];
      b := LastBadOf(deltas[..last]);
    }
  }

  /** A run whose bad interval is forgotten. */
  lemma BadIsForgotten()
    ensures
      var s := Stats([0], [0]);
      var laps := [Lap([7], [5]), Lap([5], [6])];
      Laps(laps, 1) && AfterLaps(s, laps, 1, false).accum[0] == BADCOUNT + 1
  {
    var s := Stats([0], [0]);
    var laps := [Lap([7], [5]), Lap([5], [6])];
    assert laps[..1] == [Lap([7], [5])] && laps[..1][..0] == [];
    assert Deltas(laps, 0) == [-2, 1];
    AccumulatesAfterBad(s, laps, 1, 0, 0);
    assert Deltas(laps, 0)[1..] == [1];
    assert [1][..0] == [];
  }

  /** The sums of the differences of the enabled counters. */
  function Totals(laps: seq<Lap>, n: nat): seq<int>
    requires Laps(laps, n)
  {
    seq(n, k requires 0 <= k < n => Sum(Deltas(laps, k)))
  }

  /** From zeroed counters and clean intervals, a derived event is worth the quotient of the sums
      of its two counters, and a raw event is worth its own sum. */
  lemma ValueOfRun(g: Registry, laps: seq<Lap>, p: Printed, value: real, multiplexed: bool)
    requires Integrity(g) && p in g.printed && Laps(laps, |g.raw|)
    requires forall k :: 0 <= k < |g.raw| ==> Clean(Deltas(laps, k), multiplexed)
    ensures
      var zero := seq(MAX_AUX, _ => 0);
      var accum := AfterLaps(Stats(zero, zero), laps, |g.raw|, multiplexed).accum;
      Worth(g.raw, p, accum, value) <==> Worth(g.raw, p, Totals(laps, |g.raw|), value)
  {
    var s := Stats(seq(MAX_AUX, _ => 0), seq(MAX_AUX, _ => 0));
    forall k | 0 <= k < |g.raw|
      ensures AfterLaps(s, laps, |g.raw|, multiplexed).accum[k] == Totals(laps, |g.raw|)[k]
    {
      Accumulates(s, laps, |g.raw|, k, multiplexed);
    }
  }

  /** Merging the counters of one thread after another into an accumulator. */
  function Merged(acc: int, cs: seq<int>): int {
    if cs == [] then acc else AddCounts(Merged(acc, cs[..|cs| - 1]), cs[|cs| - 1])
  }

  predicate IsCount(c: int) {
    c >= 0 || c == BADCOUNT
  }

  /** The merged count is bad exactly if one of the counts is, and their sum otherwise. */
  lemma {:induction false} MergedIs(acc: int, cs: seq<int>)
    requires IsCount(acc) && forall c :: c in cs ==> IsCount(c)
    ensures Merged(acc, cs) == if acc == BADCOUNT || BADCOUNT in cs then BADCOUNT else acc + Sum(cs)
    ensures BADCOUNT !in cs ==> Sum(cs) >= 0
  {
    if cs != [] {
      var front := cs[..|cs| - 1];
      assert cs == front + [cs[|cs| - 1]];
      assert cs[|cs| - 1] in cs;
      MergedIs(acc, front);
    }
  }

  lemma {:induction false} SumConcat(a: seq<int>, b: seq<int>)
    ensures Sum(a + b) == Sum(a) + Sum(b)
  {
    if b == [] {
      assert a + b == a;
    } else {
      SumConcat(a, b[..|b| - 1]);
      assert (a + b)[..|a + b| - 1] == a + b[..|b| - 1];
    }
  }

  lemma SumWithout(left: seq<int>, x: int, right: seq<int>)
    ensures Sum(left + [x] + right) == Sum(left + right) + x
  {
    SumConcat(left, right);
    SumConcat(left + [x], right);
    assert (left + [x])[..|left|] == left;
  }

  lemma TakenOut(a: seq<int>, front: seq<int>, x: int, left: seq<int>, right: seq<int>, b: seq<int>)
    requires multiset(a) == multiset(b) && a == front + [x] && b == left + [x] + right
    ensures multiset(front) == multiset(left + right)
  {
    assert multiset(a) == multiset(front) + multiset{x};
    assert multiset(b) == multiset(left + right) + multiset{x};
    assert multiset(front) == multiset(a) - multiset{x} == multiset(left + right);
  }

  lemma {:induction false} SumIsOfMultiset(a: seq<int>, b: seq<int>)
    requires multiset(a) == multiset(b)
    ensures Sum(a) == Sum(b)
    decreases |a|
  {
    if a == [] {
      assert |b| == |multiset(b)| == 0;
    } else {
      var x := a[|a| - 1];
      var front := a[..|a| - 1];
      assert a == front + [x];
      assert x in multiset(a);
      assert x in b;
      var i :| 0 <= i < |b| && b[i] == x;
      var left, right := b[..i], b[i + 1..];
      TakenOut(a, front, x, left, right, b);
      SumIsOfMultiset(front, left + right);
      SumWithout(left, x, right);
    }
  }

  /** The order in which threads are merged does not matter. */
  lemma MergedInAnyOrder(acc: int, cs: seq<int>, ds: seq<int>)
    requires IsCount(acc) && (forall c :: c in cs ==> IsCount(c)) && multiset(cs) == multiset(ds)
    ensures Merged(acc, cs) == Merged(acc, ds)
  {
    assert forall c :: c in ds ==> c in multiset(cs);
    assert forall c :: c in cs ==> c in multiset(ds);
    MergedIs(acc, cs);
    MergedIs(acc, ds);
    SumIsOfMultiset(cs, ds);
  }

  /** On the way the sum equals the bad count, by accident or because it started there. */
  ghost predicate Reaches(acc: int, cs: seq<int>) {
    exists n: nat :: ReachesAt(acc, cs, n)
  }

  predicate ReachesAt(acc: int, cs: seq<int>, n: nat) {
    n <= |cs| && acc + Sum(cs[..n]) == BADCOUNT
  }

  lemma ReachesLater(acc: int, cs: seq<int>)
    requires cs != []
    ensures Reaches(acc, cs) <==> Reaches(acc, cs[..|cs| - 1]) || acc + Sum(cs) == BADCOUNT
  {
    var front := cs[..|cs| - 1];
    assert cs[..|cs|] == cs;
    forall n: nat | n < |cs| ensures ReachesAt(acc, cs, n) <==> ReachesAt(acc, front, n) {
      assert cs[..n] == front[..n];
    }
    assert ReachesAt(acc, cs, |cs|) <==> acc + Sum(cs) == BADCOUNT;
  }

  /** Exactly what a merge of any integers is: the bad count if one of them is or if the sum
      equals it on the way, and the sum otherwise. */
  lemma {:induction false} MergedExact(acc: int, cs: seq<int>)
    ensures Merged(acc, cs) == if BADCOUNT in cs || Reaches(acc, cs) then BADCOUNT else acc + Sum(cs)
    decreases |cs|
  {
    if cs == [] {
      assert ReachesAt(acc, cs, 0) <==> acc == BADCOUNT;
      assert Reaches(acc, cs) ==> acc == BADCOUNT;
    } else {
      var front := cs[..|cs| - 1];
      assert cs == front + [cs[|cs| - 1]];
      MergedExact(acc, front);
      assert front[..|front|] == front;
      assert ReachesAt(acc, front, |front|) <==> acc + Sum(front) == BADCOUNT;
      ReachesLater(acc, cs);
    }
  }

  /** Two orders of merging the same counters differ if and only if no counter is bad, the total is
      not the bad count, and one order reaches the bad count on the way and the other does not. */
  lemma OrderMattersWhen(acc: int, cs: seq<int>, ds: seq<int>)
    requires multiset(cs) == multiset(ds)
    ensures Merged(acc, cs) != Merged(acc, ds) <==>
            BADCOUNT !in cs && acc + Sum(cs) != BADCOUNT && (Reaches(acc, cs) <==> !Reaches(acc, ds))
  {
    MergedExact(acc, cs);
    MergedExact(acc, ds);
    SumIsOfMultiset(cs, ds);
    assert BADCOUNT in cs <==> BADCOUNT in multiset(cs);
    assert BADCOUNT in ds <==> BADCOUNT in multiset(ds);
  }

  /** The order matters once a bad interval has been forgotten: two such counts can add up to the bad
      count by accident. */
  lemma OrderMatters()
    ensures
      var a, b, c := BADCOUNT + 999990, BADCOUNT + 9, 1;
      Merged(0, [a, b, c]) == BADCOUNT && Merged(0, [a, c, b]) == BADCOUNT + 1
  {
    var a, b, c := BADCOUNT + 999990, BADCOUNT + 9, 1;
    forall x, y, z
      ensures Merged(0, [x, y, z]) == AddCounts(AddCounts(AddCounts(0, x), y), z)
    {
      assert [x, y, z][..2] == [x, y] && [x, y][..1] == [x] && [x][..0] == [];
      assert Merged(0, [x]) == AddCounts(0, x);
      assert Merged(0, [x, y]) == AddCounts(AddCounts(0, x), y);
    }
  }
}
