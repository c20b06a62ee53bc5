/** Two ways to order the instructions of several systems: the interleaving in which the VM
    executed them, and the replay that runs whole phases one after another. */
module Replay {

  /** One executed instruction: the system and the source text. */
  type Event = (nat, string)

  function Count(s: seq<nat>, x: nat): nat {
    if s == [] then 0
    else Count(s[..|s| - 1], x) + if s[|s| - 1] == x then 1 else 0
  }

  function Tag(i: nat, texts: seq<string>): (r: seq<Event>)
    ensures |r| == |texts| && forall k :: 0 <= k < |r| ==> r[k] == (i, texts[k])
  {
    seq(|texts|, k requires 0 <= k < |texts| => (i, texts[k]))
  }

  /** Runs the phases in the order of the run sequence: the k-th occurrence of a system runs
      its phase k. */
  function Replayed(runs: seq<nat>, phases: seq<seq<seq<string>>>): seq<Event> {
    if runs == [] then []
    else
      var init, l := runs[..|runs| - 1], runs[|runs| - 1];
      var k := Count(init, l);
      Replayed(init, phases) + Segment(phases, l, k)
  }

  /** The events of phase k of system l. */
  function Segment(phases: seq<seq<seq<string>>>, l: nat, k: nat): seq<Event> {
    if l < |phases| && k < |phases[l]| then Tag(l, phases[l][k]) else []
  }

  /** Runs single instructions in the order of the instruction sequence: the k-th occurrence of
      a system runs its instruction k. */
  function Interleaved(instrs: seq<nat>, texts: seq<seq<string>>): seq<Event> {
    if instrs == [] then []
    else
      var init, l := instrs[..|instrs| - 1], instrs[|instrs| - 1];
      var k := Count(init, l);
      Interleaved(init, texts) + if l < |texts| && k < |texts[l]| then [(l, texts[l][k])] else []
  }

  /** What systems i and j together observe of an order of events. */
  function Project(evs: seq<Event>, i: nat, j: nat): seq<Event> {
    if evs == [] then []
    else
      var e := evs[|evs| - 1];
      Project(evs[..|evs| - 1], i, j) + if e.0 == i || e.0 == j then [e] else []
  }

  /** The last of the systems i and j to have started a phase is i. */
  predicate LastIs(runs: seq<nat>, i: nat, j: nat) {
    runs != [] &&
    var l := runs[|runs| - 1];
    l == i || (l != j && LastIs(runs[..|runs| - 1], i, j))
  }

  lemma CountAppend(s: seq<nat>, l: nat, x: nat)
    ensures Count(s + [l], x) == Count(s, x) + if l == x then 1 else 0
  {
    assert (s + [l])[..|s|] == s;
  }

  lemma LastIsAppend(runs: seq<nat>, l: nat, i: nat, j: nat)
    ensures LastIs(runs + [l], i, j) <==> l == i || (l != j && LastIs(runs, i, j))
  {
    assert (runs + [l])[..|runs|] == runs;
  }

  lemma {:induction false} ProjectAppend(a: seq<Event>, b: seq<Event>, i: nat, j: nat)
    ensures Project(a + b, i, j) == Project(a, i, j) + Project(b, i, j)
    decreases |b|
  {
    if b == [] {
      assert a + b == a;
    } else {
      assert (a + b)[..|a + b| - 1] == a + b[..|b| - 1];
      ProjectAppend(a, b[..|b| - 1], i, j);
    }
  }

  lemma {:induction false} ProjectTag(l: nat, texts: seq<string>, i: nat, j: nat)
    ensures Project(Tag(l, texts), i, j) == if l == i || l == j then Tag(l, texts) else []
    decreases |texts|
  {
    if texts != [] {
      var t := texts[..|texts| - 1];
      assert Tag(l, texts)[..|texts| - 1] == Tag(l, t);
      ProjectTag(l, t, i, j);
    }
  }

  /** Phase k of one system is the same in a and b. */
  predicate SamePhase(a: seq<seq<string>>, b: seq<seq<string>>, k: nat) {
    (k < |a| <==> k < |b|) && (k < |a| ==> a[k] == b[k])
  }

  /** The phases that a run sequence reaches are the same in p and q. */
  predicate AgreeOn(runs: seq<nat>, p: seq<seq<seq<string>>>, q: seq<seq<seq<string>>>) {
    |p| == |q| && forall i: nat, k: nat :: i < |p| && k < Count(runs, i) ==> SamePhase(p[i], q[i], k)
  }

  lemma {:induction false} ReplayedFrame(runs: seq<nat>, p: seq<seq<seq<string>>>, q: seq<seq<seq<string>>>)
    requires AgreeOn(runs, p, q)
    ensures Replayed(runs, p) == Replayed(runs, q)
    decreases |runs|
  {
    if runs != [] {
      var init, l := runs[..|runs| - 1], runs[|runs| - 1];
      assert l < |p| ==> SamePhase(p[l], q[l], Count(init, l));
      ReplayedFrame(init, p, q);
    }
  }

  lemma {:induction false} InterleavedFrame(instrs: seq<nat>, p: seq<seq<string>>, i: nat, x: string)
    requires i < |p| && Count(instrs, i) <= |p[i]|
    ensures Interleaved(instrs, p[i := p[i] + [x]]) == Interleaved(instrs, p)
    decreases |instrs|
  {
    if instrs != [] {
      InterleavedFrame(instrs[..|instrs| - 1], p, i, x);
    }
  }

  /** Executing the next instruction of system i appends it to the interleaving. */
  lemma InterleavedStep(instrs: seq<nat>, p: seq<seq<string>>, i: nat, x: string)
    requires i < |p| && Count(instrs, i) == |p[i]|
    ensures Interleaved(instrs + [i], p[i := p[i] + [x]]) == Interleaved(instrs, p) + [(i, x)]
  {
    assert (instrs + [i])[..|instrs|] == instrs;
    InterleavedFrame(instrs, p, i, x);
  }

  /** Starting a new phase of system i with one instruction appends that instruction. */
  lemma ReplayedStart(runs: seq<nat>, p: seq<seq<seq<string>>>, i: nat, x: string)
    requires i < |p| && Count(runs, i) == |p[i]|
    ensures Replayed(runs + [i], p[i := p[i] + [[x]]]) == Replayed(runs, p) + [(i, x)]
  {
    var q := p[i := p[i] + [[x]]];
    assert (runs + [i])[..|runs|] == runs;
    ReplayedFrame(runs, p, q);
    assert Tag(i, [x]) == [(i, x)];
  }

  /** p with x appended to the last phase of system i. */
  function Extended(p: seq<seq<seq<string>>>, i: nat, x: string): (q: seq<seq<seq<string>>>)
    requires i < |p| && p[i] != []
    ensures |q| == |p|
  {
    var k := |p[i]| - 1;
    p[i := p[i][k := p[i][k] + [x]]]
  }

  lemma ExtendedAgrees(runs: seq<nat>, p: seq<seq<seq<string>>>, i: nat, x: string)
    requires i < |p| && p[i] != [] && Count(runs, i) < |p[i]|
    ensures AgreeOn(runs, p, Extended(p, i, x))
  {
  }

  /** A pair of systems sees a replay grow by the phases of its own systems only. */
  lemma ProjectReplayed(runs: seq<nat>, p: seq<seq<seq<string>>>, i: nat, j: nat)
    requires runs != []
    ensures
      var init, l := runs[..|runs| - 1], runs[|runs| - 1];
      Project(Replayed(runs, p), i, j)
      == Project(Replayed(init, p), i, j) + if l == i || l == j then Segment(p, l, Count(init, l)) else []
  {
    var init, l := runs[..|runs| - 1], runs[|runs| - 1];
    var k := Count(init, l);
    ProjectAppend(Replayed(init, p), Segment(p, l, k), i, j);
    if l < |p| && k < |p[l]| {
      ProjectTag(l, p[l][k], i, j);
    }
  }

  lemma SegmentExtended(p: seq<seq<seq<string>>>, i: nat, x: string)
    requires i < |p| && p[i] != []
    ensures Segment(Extended(p, i, x), i, |p[i]| - 1) == Segment(p, i, |p[i]| - 1) + [(i, x)]
  {
  }

  lemma SamePast(init: seq<nat>, p: seq<seq<seq<string>>>, i: nat, x: string)
    requires i < |p| && p[i] != [] && Count(init, i) == |p[i]| - 1
    ensures Replayed(init, Extended(p, i, x)) == Replayed(init, p)
  {
    ExtendedAgrees(init, p, i, x);
    ReplayedFrame(init, p, Extended(p, i, x));
  }

  lemma {:induction false} ContinueLast(init: seq<nat>, p: seq<seq<seq<string>>>, i: nat, j: nat, x: string)
    requires i < |p| && p[i] != [] && Count(init, i) == |p[i]| - 1
    ensures
      Project(Replayed(init + [i], Extended(p, i, x)), i, j) == Project(Replayed(init + [i], p), i, j) + [(i, x)]
  {
    var q := Extended(p, i, x);
    assert (init + [i])[..|init|] == init;
    ProjectReplayed(init + [i], p, i, j);
    ProjectReplayed(init + [i], q, i, j);
    SamePast(init, p, i, x);
    SegmentExtended(p, i, x);
  }

  /** One more instruction in the open phase of system i comes last for any pair (i, j) in which
      i was the last to start a phase, wherever that phase stands in the whole run sequence. */
  lemma {:induction false} ReplayedContinue(runs: seq<nat>, p: seq<seq<seq<string>>>, i: nat, j: nat, x: string)
    requires i < |p| && p[i] != [] && Count(runs, i) == |p[i]|
    requires LastIs(runs, i, j)
    ensures Project(Replayed(runs, Extended(p, i, x)), i, j) == Project(Replayed(runs, p), i, j) + [(i, x)]
    decreases |runs|
  {
    var init, l := runs[..|runs| - 1], runs[|runs| - 1];
    if l == i {
      assert runs == init + [i];
      ContinueLast(init, p, i, j, x);
    } else {
      ProjectReplayed(runs, p, i, j);
      ProjectReplayed(runs, Extended(p, i, x), i, j);
      ReplayedContinue(init, p, i, j, x);
    }
  }

  /** Systems outside the pair do not matter to it. */
  lemma {:induction false} ProjectOthers(runs: seq<nat>, p: seq<seq<seq<string>>>, i: nat, x: string, a: nat, b: nat)
    requires i < |p| && p[i] != [] && i != a && i != b
    ensures Project(Replayed(runs, Extended(p, i, x)), a, b) == Project(Replayed(runs, p), a, b)
    decreases |runs|
  {
    if runs != [] {
      ProjectReplayed(runs, p, a, b);
      ProjectReplayed(runs, Extended(p, i, x), a, b);
      ProjectOthers(runs[..|runs| - 1], p, i, x, a, b);
    }
  }

  lemma {:induction false} ProjectSwap(evs: seq<Event>, i: nat, j: nat)
    ensures Project(evs, i, j) == Project(evs, j, i)
    decreases |evs|
  {
    if evs != [] {
      ProjectSwap(evs[..|evs| - 1], i, j);
    }
  }

  /** All events belong to the first n systems. */
  predicate Among(evs: seq<Event>, n: nat) {
    forall k :: 0 <= k < |evs| ==> evs[k].0 < n
  }

  lemma {:induction false} ReplayedAmong(runs: seq<nat>, phases: seq<seq<seq<string>>>)
    ensures Among(Replayed(runs, phases), |phases|)
    decreases |runs|
  {
    if runs != [] {
      ReplayedAmong(runs[..|runs| - 1], phases);
    }
  }

  lemma {:induction false} InterleavedAmong(instrs: seq<nat>, texts: seq<seq<string>>)
    ensures Among(Interleaved(instrs, texts), |texts|)
    decreases |instrs|
  {
    if instrs != [] {
      InterleavedAmong(instrs[..|instrs| - 1], texts);
    }
  }

  lemma LastProjected(evs: seq<Event>, i: nat, j: nat)
    requires evs != [] && evs[|evs| - 1].0 == i
    ensures Project(evs, i, j) != [] && Project(evs, i, j)[|Project(evs, i, j)| - 1] == evs[|evs| - 1]
    ensures Project(evs, j, i) != [] && Project(evs, j, i)[|Project(evs, j, i)| - 1] == evs[|evs| - 1]
  {
  }

  ghost predicate SameViews(a: seq<Event>, b: seq<Event>, n: nat) {
    forall i: nat, j: nat :: i < n && j < n ==> Project(a, i, j) == Project(b, i, j)
  }

  lemma SameLast(a: seq<Event>, b: seq<Event>, n: nat)
    requires Among(a, n) && Among(b, n) && SameViews(a, b, n) && a != []
    ensures b != [] && a[|a| - 1] == b[|b| - 1]
    ensures SameViews(a[..|a| - 1], b[..|b| - 1], n)
  {
    var i := a[|a| - 1].0;
    LastProjected(a, i, i);
    assert Project(a, i, i) == Project(b, i, i);
    assert b != [];
    var j := b[|b| - 1].0;
    LastProjected(a, i, j);
    LastProjected(b, j, i);
    assert Project(a, i, j) == Project(b, i, j);
    var af, bf := a[..|a| - 1], b[..|b| - 1];
    forall x: nat, y: nat | x < n && y < n ensures Project(af, x, y) == Project(bf, x, y) {
      assert Project(a, x, y) == Project(b, x, y);
      FrontProjected(a, x, y);
      FrontProjected(b, x, y);
    }
  }

  lemma FrontProjected(evs: seq<Event>, i: nat, j: nat)
    requires evs != []
    ensures
      var e := evs[|evs| - 1];
      var p := Project(evs, i, j);
      Project(evs[..|evs| - 1], i, j) == if (e.0 == i || e.0 == j) && p != [] then p[..|p| - 1] else p
  {
  }

  /** What all pairs of systems see determines the whole order. */
  lemma {:induction false} ViewsDetermine(a: seq<Event>, b: seq<Event>, n: nat)
    requires Among(a, n) && Among(b, n) && SameViews(a, b, n)
    ensures a == b
    decreases |a|
  {
    if a != [] {
      SameLast(a, b, n);
      ViewsDetermine(a[..|a| - 1], b[..|b| - 1], n);
      assert a == a[..|a| - 1] + [a[|a| - 1]] && b == b[..|b| - 1] + [b[|b| - 1]];
    } else if b != [] {
      SameLast(b, a, n);
    }
  }
}
