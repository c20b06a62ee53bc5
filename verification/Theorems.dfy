/** What every reachable state of the VM guarantees, whatever order its steps came in and
    whichever systems were paused. */
module Theorems {
  import opened Trace
  import opened Engine
  import opened Phases
  import opened Replay
  import opened Machine
  import Driver

  /** Mutual exclusion: in no reachable state, also in the middle of a pass, are two dependent
      systems both in READY or RUN. */
  lemma MutualExclusion(maps: seq<seq<int>>, start: Vm, m: Vm, i: nat, j: nat)
    requires Reached(maps, start, m)
    requires i < |m.sys| && j < |m.sys| && Dependent(maps, i, j)
    ensures !(Active(m.sys[i]) && Active(m.sys[j]))
  {
    ReachedInv(maps, start, m);
  }

  /** Serialisability: in every reachable state, every system by itself and every pair of
      dependent systems see the replay of whole phases in the same order as the interleaved
      execution. */
  lemma Serialisable(maps: seq<seq<int>>, start: Vm, m: Vm, i: nat, j: nat)
    requires Reached(maps, start, m)
    requires i < |m.sys| && j < |m.sys| && Related(maps, i, j)
    ensures Project(Replayed(m.runSeq, AllPhases(m.sys)), i, j)
            == Project(Interleaved(m.instrSeq, AllDone(m.sys)), i, j)
  {
    ReachedInv(maps, start, m);
    assert SameOrder(m, i, j);
  }

  /** On communicator maps that have ranks and no negative colours, all systems depend on each
      other. */
  lemma AllRelated(maps: seq<seq<int>>, i: nat, j: nat)
    requires i < |maps| && j < |maps|
    requires forall k :: 0 <= k < |maps| ==> |maps[k]| > 0 && maps[k][0] >= 0
    ensures Related(maps, i, j)
  {
    if i != j {
      assert Overlap(maps[i], maps[j]) by {
        assert maps[i][0] >= 0 && maps[j][0] >= 0;
      }
    }
  }

  /** If all systems depend on each other, replaying whole phases is the interleaved execution
      itself, call by call. */
  lemma WholeOrder(maps: seq<seq<int>>, start: Vm, m: Vm)
    requires Reached(maps, start, m)
    requires forall i: nat, j: nat :: i < |m.sys| && j < |m.sys| ==> Related(maps, i, j)
    ensures Replayed(m.runSeq, AllPhases(m.sys)) == Interleaved(m.instrSeq, AllDone(m.sys))
  {
    var a, b := Replayed(m.runSeq, AllPhases(m.sys)), Interleaved(m.instrSeq, AllDone(m.sys));
    ReplayedAmong(m.runSeq, AllPhases(m.sys));
    InterleavedAmong(m.instrSeq, AllDone(m.sys));
    forall i: nat, j: nat | i < |m.sys| && j < |m.sys| ensures Project(a, i, j) == Project(b, i, j) {
      assert Related(maps, i, j);
      Serialisable(maps, start, m, i, j);
    }
    ViewsDetermine(a, b, |m.sys|);
  }

  lemma StepTransitions(maps: seq<seq<int>>, m: Vm, a: Action, i: nat)
    requires Enabled(m, a) && i < |m.sys|
    requires m.sys[i].st.READY? || m.sys[i].st.QUIESCENT? ==> m.sys[i].pending.Some?
    ensures
      var s, t := m.sys[i], Apply(maps, m, a).sys[i];
      && (s.st.FINALIZE? ==> t == s)
      && (t.st.FINALIZE? && !s.st.FINALIZE? ==>
           (s.st.RUN? || s.st.INIT?) && s.pending.None? && NextEntry(s.unread).End?)
      && (t.st.RUN? && !s.st.RUN? ==> s.st.READY?)
  {
  }

  /** Which changes of state occur: FINALIZE is absorbing, an engine finalizes only from RUN or,
      with an empty trace, from INIT, and neither the READY-to-FINALIZE nor the QUIESCENT-to-RUN
      callback ever fires. */
  lemma Transitions(maps: seq<seq<int>>, start: Vm, m: Vm, a: Action, i: nat)
    requires Reached(maps, start, m) && Enabled(m, a) && i < |m.sys|
    ensures
      var s, t := m.sys[i], Apply(maps, m, a).sys[i];
      && (s.st.FINALIZE? ==> t == s)
      && (t.st.FINALIZE? && !s.st.FINALIZE? ==> s.st.RUN? || (s.st.INIT? && Logs(start.sys)[i].entries == []))
      && !(s.st.READY? && t.st.FINALIZE?)
      && !(s.st.QUIESCENT? && t.st.RUN?)
      && (t.st.RUN? && !s.st.RUN? ==> s.st.READY?)
  {
    ReachedInv(maps, start, m);
    var s, log := m.sys[i], Logs(start.sys)[i];
    assert OnTrack(s, log);
    StepTransitions(maps, m, a, i);
    if s.st.INIT? && s.pending.None? && NextEntry(s.unread).End? {
      assert log.entries[0..] == log.entries;
    }
  }

  /** A READY or QUIESCENT engine always holds a cached call, and an INIT engine lacks one only
      before its first fetch. */
  lemma Cached(maps: seq<seq<int>>, start: Vm, m: Vm, i: nat)
    requires Reached(maps, start, m) && i < |m.sys|
    ensures m.sys[i].st.READY? || m.sys[i].st.QUIESCENT? ==> m.sys[i].pending.Some?
    ensures m.sys[i].st.INIT? && m.sys[i].pending.None? ==> m.sys[i].src == []
  {
    ReachedInv(maps, start, m);
  }

  predicate HoldsCall(s: Sys) {
    s.st.RUN? || s.st.FINALIZE? || s.pending.Some?
  }

  lemma HoldsCallStep(maps: seq<seq<int>>, m: Vm, a: Action, i: nat)
    requires Enabled(m, a) && i < |m.sys|
    requires HoldsCall(m.sys[i]) || (a.Fetch? && a.i == i)
    ensures HoldsCall(Apply(maps, m, a).sys[i])
  {
  }

  /** From a system's first fetch on, whatever steps follow, it holds a cached call unless it is in
      RUN or FINALIZE. */
  lemma {:induction false} CachedSinceFetch(maps: seq<seq<int>>, start: Vm, run: seq<Action>, k: nat, i: nat)
    requires Legal(maps, start, run) && i < |start.sys|
    requires k < |run| && run[k].Fetch? && run[k].i == i
    ensures HoldsCall(After(maps, start, run).sys[i])
    decreases |run|
  {
    var init := run[..|run| - 1];
    if k < |init| {
      CachedSinceFetch(maps, start, init, k, i);
    }
    HoldsCallStep(maps, After(maps, start, init), run[|run| - 1], i);
  }

  /** Phase structure, at every moment: the source of a system is a sequence of non-empty phases
      numbered from 0, the last one open exactly while the engine is in RUN, all closed by a
      dispatcher once it is in FINALIZE; the system occurs once per phase in the run sequence and
      once per executed call in the instruction sequence. */
  lemma PhaseStructure(maps: seq<seq<int>>, start: Vm, m: Vm, i: nat)
    requires Reached(maps, start, m) && i < |m.sys|
    ensures
      var s := m.sys[i];
      var ph := PhasesOf(s.src);
      && (forall k :: 0 <= k < |ph| ==> ph[k] != [])
      && s.funcs == Iota(|ph|)
      && Count(m.runSeq, i) == |ph|
      && Count(m.instrSeq, i) == |Flatten(ph)|
      && (s.st.RUN? ==> ph != [] && s.src == RenderOpen(ph))
      && (s.st.FINALIZE? ==> s.src == if ph == [] then [] else Render(ph) + [Dispatcher(Iota(|ph|))])
      && (!s.st.RUN? && !s.st.FINALIZE? ==> s.src == Render(ph))
  {
    ReachedInv(maps, start, m);
    assert Structured(m.sys[i]);
  }

  ghost predicate Finished(sys: seq<Sys>) {
    forall i :: 0 <= i < |sys| ==> sys[i].st.FINALIZE?
  }

  /** The log was readable to its end; the source holds exactly its calls, in order, each once,
      in consecutively numbered non-empty phases closed by one dispatcher over all of them; the
      run sequence names the system once per phase, the instruction sequence once per call. */
  ghost predicate Complete(log: Log, s: Sys, starts: nat, executed: nat) {
    var ph := PhasesOf(s.src);
    && log.ok
    && Flatten(ph) == Texts(log.entries)
    && (forall k :: 0 <= k < |ph| ==> ph[k] != [])
    && s.src == (if log.entries == [] then [] else Render(ph) + [Dispatcher(Iota(|ph|))])
    && s.funcs == Iota(|ph|)
    && starts == |ph|
    && executed == |log.entries|
  }

  /** Completeness: once all engines are in FINALIZE, every system has emitted its own trace. */
  lemma Completeness(maps: seq<seq<int>>, start: Vm, m: Vm, i: nat)
    requires Reached(maps, start, m) && Finished(m.sys) && i < |m.sys|
    ensures |start.sys| == |m.sys|
    ensures Complete(Logs(start.sys)[i], m.sys[i], Count(m.runSeq, i), Count(m.instrSeq, i))
  {
    ReachedInv(maps, start, m);
    var s, log := m.sys[i], Logs(start.sys)[i];
    assert SysOk(s, log);
    assert log.entries[..|log.entries|] == log.entries;
    NonEmptyFlatten(PhasesOf(s.src));
  }

  lemma NonEmptyFlatten(ph: seq<seq<string>>)
    requires forall k :: 0 <= k < |ph| ==> ph[k] != []
    ensures Flatten(ph) == [] <==> ph == []
  {
  }

  /** The instruction texts of the traces that are still to be read. */
  function AllTexts(logs: seq<Log>): (r: seq<seq<string>>)
    ensures |r| == |logs| && forall i :: 0 <= i < |logs| ==> r[i] == Texts(logs[i].entries)
  {
    seq(|logs|, i requires 0 <= i < |logs| => Texts(logs[i].entries))
  }

  /** For the systems i and j, replaying whole phases in the order of the run sequence gives the
      same order of calls as the interleaved execution of the traces. */
  ghost predicate ReplayFaithful(logs: seq<Log>, m: Vm, i: nat, j: nat) {
    Project(Replayed(m.runSeq, AllPhases(m.sys)), i, j) == Project(Interleaved(m.instrSeq, AllTexts(logs)), i, j)
  }

  lemma FinishedOrder(maps: seq<seq<int>>, start: Vm, m: Vm, i: nat, j: nat)
    requires Reached(maps, start, m) && Finished(m.sys)
    requires i < |m.sys| && j < |m.sys| && Related(maps, i, j)
    ensures ReplayFaithful(Logs(start.sys), m, i, j)
  {
    Serialisable(maps, start, m, i, j);
    ReachedInv(maps, start, m);
    forall k | 0 <= k < |m.sys| ensures AllDone(m.sys)[k] == AllTexts(Logs(start.sys))[k] {
      Completeness(maps, start, m, k);
    }
    assert AllDone(m.sys) == AllTexts(Logs(start.sys));
  }

  ghost predicate AllComplete(logs: seq<Log>, m: Vm) {
    |logs| == |m.sys| && forall i: nat :: i < |m.sys| ==>
      Complete(logs[i], m.sys[i], Count(m.runSeq, i), Count(m.instrSeq, i))
  }

  ghost predicate AllFaithful(maps: seq<seq<int>>, logs: seq<Log>, m: Vm) {
    forall i: nat, j: nat :: i < |m.sys| && j < |m.sys| && Related(maps, i, j) ==> ReplayFaithful(logs, m, i, j)
  }

  lemma FinishedRun(maps: seq<seq<int>>, start: Vm, m: Vm)
    requires Reached(maps, start, m) && Finished(m.sys)
    ensures AllComplete(Logs(start.sys), m) && AllFaithful(maps, Logs(start.sys), m)
  {
    ReachedInv(maps, start, m);
    forall i: nat | i < |m.sys|
      ensures Complete(Logs(start.sys)[i], m.sys[i], Count(m.runSeq, i), Count(m.instrSeq, i))
    {
      Completeness(maps, start, m, i);
    }
    forall i: nat, j: nat | i < |m.sys| && j < |m.sys| && Related(maps, i, j)
      ensures ReplayFaithful(Logs(start.sys), m, i, j)
    {
      FinishedOrder(maps, start, m, i, j);
    }
  }

  /** The generated driver, given the run sequence of a finished VM, makes the calls that the
      sequence stands for if and only if that sequence is 0, 1, 2, .... */
  lemma DriverOfFinishedRun(maps: seq<seq<int>>, start: Vm, m: Vm)
    requires Reached(maps, start, m) && Finished(m.sys)
    ensures
      Driver.Driven(AllPhases(m.sys), |m.runSeq|) == Driver.Drive(Replayed(m.runSeq, AllPhases(m.sys)), true)
      <==> forall k :: 0 <= k < |m.runSeq| ==> m.runSeq[k] == k
  {
    ReachedInv(maps, start, m);
    forall i: nat | i < |m.sys|
      ensures var ph := PhasesOf(m.sys[i].src); forall k :: 0 <= k < |ph| ==> ph[k] != []
    {
      Completeness(maps, start, m, i);
    }
    Driver.DriverFaithful(m.runSeq, AllPhases(m.sys));
  }
}
