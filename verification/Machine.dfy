/** The replay VM as a state machine: every step the VM takes on one system, and what every
    run of such steps keeps, whatever order the steps come in. */
module Machine {
  import opened Trace
  import opened Engine
  import opened Phases
  import opened Replay

  datatype Vm = Vm(sys: seq<Sys>, instrSeq: seq<nat>, runSeq: seq<nat>)

  /** The steps of the VM on system i, each at a clock. */
  datatype Action =
    | Boot(i: nat, tic: int)       // enter INIT
    | Fetch(i: nat, tic: int)      // fetch and decode, or finalize at the end of the log
    | Quiesce(i: nat, tic: int)    // move to QUIESCENT
    | Visit(i: nat, tic: int)      // the ready test, with the knock-back of READY dependents
    | Start(i: nat, tic: int)      // READY to RUN and the first instruction of a phase
    | Continue(i: nat, tic: int)   // a further instruction of the open phase

  predicate Active(s: Sys) { s.st.READY? || s.st.RUN? }

  predicate Settled(s: Sys) { s.st.FINALIZE? || s.pending.Some? }

  predicate RunningDependent(maps: seq<seq<int>>, sys: seq<Sys>, i: nat) {
    exists d: nat :: d < |sys| && Dependent(maps, i, d) && sys[d].st.RUN?
  }

  function KnockedBack(maps: seq<seq<int>>, sys: seq<Sys>, i: nat): (r: seq<Sys>)
    ensures |r| == |sys|
  {
    seq(|sys|, k requires 0 <= k < |sys| =>
      if Dependent(maps, i, k) && sys[k].st.READY? then sys[k].(st := INIT) else sys[k])
  }

  function Visited(maps: seq<seq<int>>, sys: seq<Sys>, i: nat): (r: seq<Sys>)
    requires i < |sys|
    ensures |r| == |sys|
  {
    if sys[i].st.RUN? || sys[i].st.INVALID? || sys[i].st.FINALIZE? || RunningDependent(maps, sys, i) then sys
    else KnockedBack(maps, sys, i)[i := sys[i].(st := READY)]
  }

  predicate Enabled(m: Vm, a: Action) {
    && a.i < |m.sys|
    && var s := m.sys[a.i];
    match a
    case Boot(_, _) => s.st.INVALID?
    case Fetch(_, _) => !s.st.INVALID? && !s.st.FINALIZE? && (s.pending.Some? || !NextEntry(s.unread).Corrupt?)
    case Quiesce(_, _) => !s.st.INVALID? && Settled(s)
    case Visit(_, _) => !s.st.INVALID? && Settled(s)
    case Start(_, _) => s.st.READY? && s.pending.Some?
    case Continue(_, _) => s.st.RUN? && s.pending.Some?
  }

  function Apply(maps: seq<seq<int>>, m: Vm, a: Action): (r: Vm)
    requires Enabled(m, a)
    ensures |r.sys| == |m.sys|
  {
    var i, s := a.i, m.sys[a.i];
    match a
    case Boot(_, tic) => m.(sys := m.sys[i := Transition(s, INIT, tic)])
    case Fetch(_, tic) => m.(sys := m.sys[i := Refill(s, tic)])
    case Quiesce(_, tic) => m.(sys := m.sys[i := Transition(s, QUIESCENT, tic)])
    case Visit(_, tic) => m.(sys := Visited(maps, m.sys, i))
    case Start(_, tic) => Vm(m.sys[i := Started(s, tic)], m.instrSeq + [i], m.runSeq + [i])
    case Continue(_, tic) =>
      Vm(m.sys[i := Continued(s, tic)], m.instrSeq + [i], m.runSeq)
  }

  /** A run is a sequence of enabled steps. */
  predicate Legal(maps: seq<seq<int>>, m: Vm, run: seq<Action>)
    decreases |run|, 0
  {
    run == [] || (Legal(maps, m, run[..|run| - 1]) && Enabled(After(maps, m, run[..|run| - 1]), run[|run| - 1]))
  }

  function After(maps: seq<seq<int>>, m: Vm, run: seq<Action>): (r: Vm)
    requires Legal(maps, m, run)
    ensures |r.sys| == |m.sys|
    decreases |run|, 1
  {
    if run == [] then m else Apply(maps, After(maps, m, run[..|run| - 1]), run[|run| - 1])
  }

  lemma LegalAppend(maps: seq<seq<int>>, m: Vm, run: seq<Action>, a: Action)
    requires Legal(maps, m, run) && Enabled(After(maps, m, run), a)
    ensures Legal(maps, m, run + [a])
    ensures After(maps, m, run + [a]) == Apply(maps, After(maps, m, run), a)
  {
    assert (run + [a])[..|run|] == run;
  }

  predicate Untouched(s: Sys) {
    s == Sys(INVALID, s.unread, None, 0, [], [], [], s.tic)
  }

  predicate Initial(m: Vm) {
    m.instrSeq == [] && m.runSeq == []
    && forall i :: 0 <= i < |m.sys| ==>
         Untouched(m.sys[i])
  }

  /** The traces a machine starts from. */
  function Logs(sys: seq<Sys>): (logs: seq<Log>)
    ensures |logs| == |sys| && forall i :: 0 <= i < |sys| ==> logs[i] == Parse(sys[i].unread)
  {
    seq(|sys|, i requires 0 <= i < |sys| => Parse(sys[i].unread))
  }

  function AllPhases(sys: seq<Sys>): (r: seq<seq<seq<string>>>)
    ensures |r| == |sys| && forall i :: 0 <= i < |sys| ==> r[i] == PhasesOf(sys[i].src)
  {
    seq(|sys|, i requires 0 <= i < |sys| => PhasesOf(sys[i].src))
  }

  function AllDone(sys: seq<Sys>): (r: seq<seq<string>>)
    ensures |r| == |sys| && forall i :: 0 <= i < |sys| ==> r[i] == Done(sys[i])
  {
    seq(|sys|, i requires 0 <= i < |sys| => Done(sys[i]))
  }

  /** No two dependent systems are both READY or RUN. */
  ghost predicate Exclusive(maps: seq<seq<int>>, sys: seq<Sys>) {
    forall i: nat, j: nat :: i < |sys| && j < |sys| && Dependent(maps, i, j) ==> !(Active(sys[i]) && Active(sys[j]))
  }

  /** The run sequence names each system once per phase, the instruction sequence once per
      executed instruction. */
  ghost predicate Counted(m: Vm) {
    && (forall k :: 0 <= k < |m.runSeq| ==> m.runSeq[k] < |m.sys|)
    && forall i: nat :: i < |m.sys| ==>
      Count(m.runSeq, i) == |PhasesOf(m.sys[i].src)| && Count(m.instrSeq, i) == NumDone(m.sys[i])
  }

  predicate Related(maps: seq<seq<int>>, i: nat, j: nat) {
    i == j || Dependent(maps, i, j)
  }

  ghost predicate Recent(maps: seq<seq<int>>, m: Vm) {
    forall i: nat, j: nat :: i < |m.sys| && m.sys[i].st.RUN? && Related(maps, i, j) ==> LastIs(m.runSeq, i, j)
  }

  /** Systems i and j see the same order of their instructions whether whole phases are replayed
      in the order of the run sequence or single instructions in the order of execution. */
  ghost predicate SameOrder(m: Vm, i: nat, j: nat) {
    Project(Replayed(m.runSeq, AllPhases(m.sys)), i, j) == Project(Interleaved(m.instrSeq, AllDone(m.sys)), i, j)
  }

  ghost predicate Serial(maps: seq<seq<int>>, m: Vm) {
    forall i: nat, j: nat :: i < |m.sys| && j < |m.sys| && Related(maps, i, j) ==> SameOrder(m, i, j)
  }

  ghost predicate AllOk(sys: seq<Sys>, logs: seq<Log>) {
    |logs| == |sys| && forall i :: 0 <= i < |sys| ==> SysOk(sys[i], logs[i])
  }

  ghost predicate Ordered(maps: seq<seq<int>>, m: Vm) {
    Exclusive(maps, m.sys) && Counted(m) && Recent(maps, m) && Serial(maps, m)
  }

  ghost predicate Inv(maps: seq<seq<int>>, m: Vm, logs: seq<Log>) {
    AllOk(m.sys, logs) && Ordered(maps, m)
  }

  lemma InitialInv(maps: seq<seq<int>>, m: Vm)
    requires Initial(m)
    ensures Inv(maps, m, Logs(m.sys))
  {
    forall i | 0 <= i < |m.sys| ensures SysOk(m.sys[i], Parse(m.sys[i].unread)) {
      assert Parse(m.sys[i].unread).entries[0..] == Parse(m.sys[i].unread).entries;
    }
  }

  /** A step that executes nothing and starts nothing. */
  lemma QuietStep(maps: seq<seq<int>>, m: Vm, r: Vm)
    requires Counted(m) && Recent(maps, m) && Serial(maps, m)
    requires r.instrSeq == m.instrSeq && r.runSeq == m.runSeq && |r.sys| == |m.sys|
    requires forall k :: 0 <= k < |m.sys| ==> PhasesOf(r.sys[k].src) == PhasesOf(m.sys[k].src)
    requires forall k :: 0 <= k < |m.sys| && r.sys[k].st.RUN? ==> m.sys[k].st.RUN?
    ensures Counted(r) && Recent(maps, r) && Serial(maps, r)
  {
    assert AllPhases(r.sys) == AllPhases(m.sys);
    assert AllDone(r.sys) == AllDone(m.sys);
    forall i: nat, j: nat | i < |r.sys| && j < |r.sys| && Related(maps, i, j) ensures SameOrder(r, i, j) {
      assert SameOrder(m, i, j);
    }
  }

  lemma AllOkUpdate(sys: seq<Sys>, logs: seq<Log>, i: nat, t: Sys)
    requires AllOk(sys, logs) && i < |sys| && SysOk(t, logs[i])
    ensures AllOk(sys[i := t], logs)
  {
  }

  /** A step that changes one system, executes nothing and starts nothing. */
  lemma LoneStep(maps: seq<seq<int>>, m: Vm, i: nat, t: Sys)
    requires Ordered(maps, m) && i < |m.sys|
    requires PhasesOf(t.src) == PhasesOf(m.sys[i].src)
    requires Active(t) ==> t.st == m.sys[i].st
    ensures Ordered(maps, m.(sys := m.sys[i := t]))
  {
    QuietStep(maps, m, m.(sys := m.sys[i := t]));
  }

  lemma FetchInv(maps: seq<seq<int>>, m: Vm, i: nat, tic: int, logs: seq<Log>)
    requires Inv(maps, m, logs) && Enabled(m, Fetch(i, tic))
    ensures Inv(maps, Apply(maps, m, Fetch(i, tic)), logs)
  {
    RefillOk(m.sys[i], logs[i], tic);
    AllOkUpdate(m.sys, logs, i, Refill(m.sys[i], tic));
    LoneStep(maps, m, i, Refill(m.sys[i], tic));
  }

  lemma BootInv(maps: seq<seq<int>>, m: Vm, i: nat, tic: int, logs: seq<Log>)
    requires Inv(maps, m, logs) && Enabled(m, Boot(i, tic))
    ensures Inv(maps, Apply(maps, m, Boot(i, tic)), logs)
  {
    SilentOk(m.sys[i], logs[i], INIT);
    AllOkUpdate(m.sys, logs, i, m.sys[i].(st := INIT));
    LoneStep(maps, m, i, m.sys[i].(st := INIT));
  }

  lemma QuiesceInv(maps: seq<seq<int>>, m: Vm, i: nat, tic: int, logs: seq<Log>)
    requires Inv(maps, m, logs) && Enabled(m, Quiesce(i, tic))
    ensures Inv(maps, Apply(maps, m, Quiesce(i, tic)), logs)
  {
    QuiesceOk(m.sys[i], logs[i], tic);
    AllOkUpdate(m.sys, logs, i, Transition(m.sys[i], QUIESCENT, tic));
    LoneStep(maps, m, i, Transition(m.sys[i], QUIESCENT, tic));
  }

  lemma KnockBackOk(maps: seq<seq<int>>, sys: seq<Sys>, i: nat, logs: seq<Log>)
    requires AllOk(sys, logs)
    ensures AllOk(KnockedBack(maps, sys, i), logs)
  {
    forall k | 0 <= k < |sys| ensures SysOk(KnockedBack(maps, sys, i)[k], logs[k]) {
      if sys[k].st.READY? {
        SilentOk(sys[k], logs[k], INIT);
      }
    }
  }

  /** The visited system becomes READY only with no dependent in RUN, and leaves none in READY. */
  lemma VisitExclusive(maps: seq<seq<int>>, sys: seq<Sys>, i: nat)
    requires Exclusive(maps, sys) && i < |sys|
    ensures Exclusive(maps, Visited(maps, sys, i))
  {
    var r := Visited(maps, sys, i);
    if r != sys {
      forall a: nat, b: nat | a < |r| && b < |r| && Dependent(maps, a, b) ensures !(Active(r[a]) && Active(r[b])) {
        DependentSymmetric(maps, a, b);
        assert !(Active(sys[a]) && Active(sys[b]));
      }
    }
  }

  lemma VisitInv(maps: seq<seq<int>>, m: Vm, i: nat, tic: int, logs: seq<Log>)
    requires Inv(maps, m, logs) && Enabled(m, Visit(i, tic))
    ensures Inv(maps, Apply(maps, m, Visit(i, tic)), logs)
  {
    var r := Apply(maps, m, Visit(i, tic));
    if r.sys != m.sys {
      KnockBackOk(maps, m.sys, i, logs);
      SilentOk(m.sys[i], logs[i], READY);
      AllOkUpdate(KnockedBack(maps, m.sys, i), logs, i, m.sys[i].(st := READY));
      VisitExclusive(maps, m.sys, i);
      VisitOrdered(maps, m, i);
    }
  }

  lemma VisitOrdered(maps: seq<seq<int>>, m: Vm, i: nat)
    requires Ordered(maps, m) && i < |m.sys|
    ensures Ordered(maps, m.(sys := Visited(maps, m.sys, i)))
  {
    VisitExclusive(maps, m.sys, i);
    QuietStep(maps, m, m.(sys := Visited(maps, m.sys, i)));
  }

  lemma RecentStart(maps: seq<seq<int>>, m: Vm, r: Vm, i: nat)
    requires Recent(maps, m) && Exclusive(maps, m.sys) && i < |m.sys| && Active(m.sys[i])
    requires r.runSeq == m.runSeq + [i] && |r.sys| == |m.sys|
    requires forall k :: 0 <= k < |m.sys| && k != i ==> r.sys[k] == m.sys[k]
    ensures Recent(maps, r)
  {
    forall a: nat, b: nat | a < |r.sys| && r.sys[a].st.RUN? && Related(maps, a, b) ensures LastIs(r.runSeq, a, b) {
      LastIsAppend(m.runSeq, i, a, b);
    }
  }

  /** Executing the next instruction x of system i keeps the order seen by every pair, if the
      replay grows by x for the pairs that system i belongs to. */
  lemma SerialStep(maps: seq<seq<int>>, m: Vm, r: Vm, i: nat, x: string)
    requires Serial(maps, m) && Counted(m) && i < |m.sys| && |r.sys| == |m.sys|
    requires r.instrSeq == m.instrSeq + [i]
    requires AllDone(r.sys) == AllDone(m.sys)[i := AllDone(m.sys)[i] + [x]]
    requires forall a: nat, b: nat :: a < |m.sys| && b < |m.sys| && Related(maps, a, b) ==> GrowsBy(m, r, i, x, a, b)
    ensures Serial(maps, r)
  {
    InterleavedStep(m.instrSeq, AllDone(m.sys), i, x);
    forall a: nat, b: nat | a < |r.sys| && b < |r.sys| && Related(maps, a, b) ensures SameOrder(r, a, b) {
      assert SameOrder(m, a, b) && GrowsBy(m, r, i, x, a, b);
      ProjectAppend(Interleaved(m.instrSeq, AllDone(m.sys)), [(i, x)], a, b);
      assert [(i, x)][..0] == [];
    }
  }

  /** For the pair (a, b), the replay of r is the replay of m and then the event (i, x). */
  ghost predicate GrowsBy(m: Vm, r: Vm, i: nat, x: string, a: nat, b: nat) {
    Project(Replayed(r.runSeq, AllPhases(r.sys)), a, b)
    == Project(Replayed(m.runSeq, AllPhases(m.sys)), a, b) + if i == a || i == b then [(i, x)] else []
  }

  lemma StartSerial(maps: seq<seq<int>>, m: Vm, r: Vm, i: nat, x: string)
    requires Serial(maps, m) && Counted(m) && i < |m.sys| && |r.sys| == |m.sys|
    requires r.instrSeq == m.instrSeq + [i] && r.runSeq == m.runSeq + [i]
    requires AllPhases(r.sys) == AllPhases(m.sys)[i := AllPhases(m.sys)[i] + [[x]]]
    requires AllDone(r.sys) == AllDone(m.sys)[i := AllDone(m.sys)[i] + [x]]
    ensures Serial(maps, r)
  {
    ReplayedStart(m.runSeq, AllPhases(m.sys), i, x);
    forall a: nat, b: nat | a < |m.sys| && b < |m.sys| && Related(maps, a, b) ensures GrowsBy(m, r, i, x, a, b) {
      ProjectAppend(Replayed(m.runSeq, AllPhases(m.sys)), [(i, x)], a, b);
      assert [(i, x)][..0] == [];
    }
    SerialStep(maps, m, r, i, x);
  }

  /** Starting a phase of system i: it is now the last to have started, and both orders grow by
      the same event. */
  lemma StartInv(maps: seq<seq<int>>, m: Vm, i: nat, tic: int, logs: seq<Log>)
    requires Inv(maps, m, logs) && Enabled(m, Start(i, tic))
    ensures Inv(maps, Apply(maps, m, Start(i, tic)), logs)
  {
    var t := Started(m.sys[i], tic);
    StartOk(m.sys[i], logs[i], tic);
    AllOkUpdate(m.sys, logs, i, t);
    StartEffect(m.sys[i], tic);
    StartOrdered(maps, m, i, t, m.sys[i].pending.value.text);
  }

  lemma StartOrdered(maps: seq<seq<int>>, m: Vm, i: nat, t: Sys, x: string)
    requires Ordered(maps, m) && i < |m.sys| && m.sys[i].st.READY?
    requires PhasesOf(t.src) == PhasesOf(m.sys[i].src) + [[x]] && Done(t) == Done(m.sys[i]) + [x]
    ensures Ordered(maps, Vm(m.sys[i := t], m.instrSeq + [i], m.runSeq + [i]))
  {
    var r := Vm(m.sys[i := t], m.instrSeq + [i], m.runSeq + [i]);
    CountedGrows(m, r, i);
    RecentStart(maps, m, r, i);
    assert AllPhases(r.sys) == AllPhases(m.sys)[i := AllPhases(m.sys)[i] + [[x]]];
    assert AllDone(r.sys) == AllDone(m.sys)[i := AllDone(m.sys)[i] + [x]];
    StartSerial(maps, m, r, i, x);
  }

  lemma CountedGrows(m: Vm, r: Vm, i: nat)
    requires Counted(m) && |r.sys| == |m.sys| && i < |m.sys|
    requires forall k :: 0 <= k < |m.sys| && k != i ==> r.sys[k] == m.sys[k]
    requires r.instrSeq == m.instrSeq + [i] && NumDone(r.sys[i]) == NumDone(m.sys[i]) + 1
    requires (r.runSeq == m.runSeq && |PhasesOf(r.sys[i].src)| == |PhasesOf(m.sys[i].src)|)
             || (r.runSeq == m.runSeq + [i] && |PhasesOf(r.sys[i].src)| == |PhasesOf(m.sys[i].src)| + 1)
    ensures Counted(r)
  {
    forall k: nat | k < |r.sys|
      ensures Count(r.runSeq, k) == |PhasesOf(r.sys[k].src)| && Count(r.instrSeq, k) == NumDone(r.sys[k])
    {
      CountAppend(m.instrSeq, i, k);
      CountAppend(m.runSeq, i, k);
    }
  }

  /** Continuing a phase of system i: no dependent system has started since that phase began. */
  lemma ContinueInv(maps: seq<seq<int>>, m: Vm, i: nat, tic: int, logs: seq<Log>)
    requires Inv(maps, m, logs) && Enabled(m, Continue(i, tic))
    ensures Inv(maps, Apply(maps, m, Continue(i, tic)), logs)
  {
    var x := m.sys[i].pending.value.text;
    var t := Continued(m.sys[i], tic);
    ContinueOk(m.sys[i], logs[i], tic);
    AllOkUpdate(m.sys, logs, i, t);
    ContinueEffect(m.sys[i], tic);
    ContinueOrdered(maps, m, i, t, x);
  }

  lemma ContinueOrdered(maps: seq<seq<int>>, m: Vm, i: nat, t: Sys, x: string)
    requires Ordered(maps, m) && i < |m.sys| && m.sys[i].st.RUN? && PhasesOf(m.sys[i].src) != []
    requires t.st.RUN? && Done(t) == Done(m.sys[i]) + [x]
    requires var ph := PhasesOf(m.sys[i].src); PhasesOf(t.src) == ph[|ph| - 1 := ph[|ph| - 1] + [x]]
    ensures Ordered(maps, Vm(m.sys[i := t], m.instrSeq + [i], m.runSeq))
  {
    var r := Vm(m.sys[i := t], m.instrSeq + [i], m.runSeq);
    CountedGrows(m, r, i);
    assert AllPhases(r.sys) == Extended(AllPhases(m.sys), i, x);
    assert AllDone(r.sys) == AllDone(m.sys)[i := AllDone(m.sys)[i] + [x]];
    forall a: nat, b: nat | a < |m.sys| && b < |m.sys| && Related(maps, a, b) ensures GrowsBy(m, r, i, x, a, b) {
      ContinueOrder(maps, m, i, x, a, b);
    }
    SerialStep(maps, m, r, i, x);
  }

  lemma ContinueOrder(maps: seq<seq<int>>, m: Vm, i: nat, x: string, a: nat, b: nat)
    requires Counted(m) && Recent(maps, m) && i < |m.sys| && m.sys[i].st.RUN? && PhasesOf(m.sys[i].src) != []
    requires Related(maps, a, b)
    ensures
      var p := AllPhases(m.sys);
      Project(Replayed(m.runSeq, Extended(p, i, x)), a, b)
      == Project(Replayed(m.runSeq, p), a, b) + if i == a || i == b then [(i, x)] else []
  {
    var p := AllPhases(m.sys);
    if i == a {
      ReplayedContinue(m.runSeq, p, i, b, x);
    } else if i == b {
      DependentSymmetric(maps, a, b);
      ReplayedContinue(m.runSeq, p, i, a, x);
      ProjectSwap(Replayed(m.runSeq, p), a, b);
      ProjectSwap(Replayed(m.runSeq, Extended(p, i, x)), a, b);
    } else {
      ProjectOthers(m.runSeq, p, i, x, a, b);
    }
  }

  /** Every step of the VM keeps the invariant. */
  lemma StepInv(maps: seq<seq<int>>, m: Vm, a: Action, logs: seq<Log>)
    requires Inv(maps, m, logs) && Enabled(m, a)
    ensures Inv(maps, Apply(maps, m, a), logs)
  {
    match a
    case Visit(i, tic) => VisitInv(maps, m, i, tic, logs);
    case Start(i, tic) => StartInv(maps, m, i, tic, logs);
    case Continue(i, tic) => ContinueInv(maps, m, i, tic, logs);
    case Boot(i, tic) => BootInv(maps, m, i, tic, logs);
    case Fetch(i, tic) => FetchInv(maps, m, i, tic, logs);
    case Quiesce(i, tic) => QuiesceInv(maps, m, i, tic, logs);
  }

  /** Every run of the VM keeps the invariant. */
  lemma {:induction false} RunInv(maps: seq<seq<int>>, m: Vm, run: seq<Action>)
    requires Initial(m) && Legal(maps, m, run)
    ensures Inv(maps, After(maps, m, run), Logs(m.sys))
    decreases |run|
  {
    if run == [] {
      InitialInv(maps, m);
    } else {
      var before := run[..|run| - 1];
      RunInv(maps, m, before);
      StepInv(maps, After(maps, m, before), run[|run| - 1], Logs(m.sys));
    }
  }

  /** State m is reachable: some run from the initial state leads to it. */
  ghost predicate Reached(maps: seq<seq<int>>, start: Vm, m: Vm) {
    Initial(start) && exists run :: Legal(maps, start, run) && After(maps, start, run) == m
  }

  lemma ReachedInitial(maps: seq<seq<int>>, start: Vm)
    requires Initial(start)
    ensures Reached(maps, start, start)
  {
    assert Legal(maps, start, []);
  }

  lemma ReachedStep(maps: seq<seq<int>>, start: Vm, m: Vm, a: Action)
    requires Reached(maps, start, m) && Enabled(m, a)
    ensures Reached(maps, start, Apply(maps, m, a))
  {
    var run :| Legal(maps, start, run) && After(maps, start, run) == m;
    LegalAppend(maps, start, run, a);
  }

  lemma ReachedBoot(maps: seq<seq<int>>, start: Vm, m: Vm, i: nat, tic: int)
    requires Reached(maps, start, m) && i < |m.sys| && m.sys[i].st.INVALID?
    ensures Reached(maps, start, m.(sys := m.sys[i := Transition(m.sys[i], INIT, tic)]))
  {
    ReachedStep(maps, start, m, Boot(i, tic));
  }

  lemma ReachedFetch(maps: seq<seq<int>>, start: Vm, m: Vm, i: nat, tic: int)
    requires Reached(maps, start, m) && i < |m.sys| && !m.sys[i].st.INVALID? && !m.sys[i].st.FINALIZE?
    requires m.sys[i].pending.Some? || !NextEntry(m.sys[i].unread).Corrupt?
    ensures Reached(maps, start, m.(sys := m.sys[i := Refill(m.sys[i], tic)]))
  {
    ReachedStep(maps, start, m, Fetch(i, tic));
  }

  lemma ReachedQuiesce(maps: seq<seq<int>>, start: Vm, m: Vm, i: nat, tic: int)
    requires Reached(maps, start, m) && i < |m.sys| && !m.sys[i].st.INVALID? && Settled(m.sys[i])
    ensures Reached(maps, start, m.(sys := m.sys[i := Transition(m.sys[i], QUIESCENT, tic)]))
  {
    ReachedStep(maps, start, m, Quiesce(i, tic));
  }

  lemma ReachedVisit(maps: seq<seq<int>>, start: Vm, m: Vm, i: nat, tic: int)
    requires Reached(maps, start, m) && i < |m.sys| && !m.sys[i].st.INVALID? && Settled(m.sys[i])
    ensures Reached(maps, start, m.(sys := Visited(maps, m.sys, i)))
  {
    ReachedStep(maps, start, m, Visit(i, tic));
  }

  lemma ReachedStart(maps: seq<seq<int>>, start: Vm, m: Vm, i: nat, tic: int)
    requires Reached(maps, start, m) && i < |m.sys| && m.sys[i].st.READY? && m.sys[i].pending.Some?
    ensures Reached(maps, start, Vm(m.sys[i := Started(m.sys[i], tic)], m.instrSeq + [i], m.runSeq + [i]))
  {
    ReachedStep(maps, start, m, Start(i, tic));
  }

  lemma ReachedContinue(maps: seq<seq<int>>, start: Vm, m: Vm, i: nat, tic: int)
    requires Reached(maps, start, m) && i < |m.sys| && m.sys[i].st.RUN? && m.sys[i].pending.Some?
    ensures Reached(maps, start, Vm(m.sys[i := Continued(m.sys[i], tic)], m.instrSeq + [i], m.runSeq))
  {
    ReachedStep(maps, start, m, Continue(i, tic));
  }

  lemma ReachedInv(maps: seq<seq<int>>, start: Vm, m: Vm)
    requires Reached(maps, start, m)
    ensures Inv(maps, m, Logs(start.sys))
  {
    var run :| Legal(maps, start, run) && After(maps, start, run) == m;
    RunInv(maps, start, run);
  }
}
