/** A finished execution that the generated driver does not replay: two dependent systems with one
    call each, where the first system's call was entered later. */
module DriverRun {
  import opened Trace
  import opened Engine
  import opened Phases
  import opened Replay
  import opened Machine
  import opened Runs
  import opened Executions
  import opened LaunchOrder
  import opened LastPhase
  import opened DriverOrder
  import opened Theorems

  function OneCall(t: real, text: string): Sys {
    Sys(INVALID, [Fields(t, text), Fields(t, "")], None, 0, [], [], [], 0)
  }

  lemma OneEntry(t: real, text: string)
    ensures Parse(OneCall(t, text).unread) == Log([Entry(t, t, Commented(text))], true)
  {
    var lines := OneCall(t, text).unread;
    assert lines[2..] == [];
    assert NextEntry(lines) == Got(Entry(t, t, Commented(text)), []);
    assert Parse([]) == Log([], true);
  }

  /** A system that has executed its only call has the one phase with it. */
  lemma OnlyPhase(ph: seq<seq<string>>, x: string)
    requires Flatten(ph) == [x] && forall k :: 0 <= k < |ph| ==> ph[k] != []
    ensures ph == [[x]]
  {
    var n := |ph| - 1;
    assert Flatten(ph) == Flatten(ph[..n]) + ph[n];
    NonEmptyFlatten(ph[..n]);
    assert ph[n] == [x] && Flatten(ph[..n]) == [];
    assert ph == ph[..n] + [ph[n]];
  }

  lemma OneCallAtEnd(s: Sys, log: Log, x: string)
    requires SysOk(s, log) && s.st.FINALIZE? && Texts(log.entries) == [x]
    ensures PhasesOf(s.src) == [[x]]
  {
    assert log.entries[..|log.entries|] == log.entries;
    OnlyPhase(PhasesOf(s.src), x);
  }

  /** Two systems that have started once each, the second before the first. */
  lemma SecondFirst(logs: seq<Log>, runs: seq<nat>)
    requires |logs| == 2 && InOrder(logs, runs) && !Later(logs, 1, 0) && logs[0].entries != [] && logs[1].entries != []
    requires (forall k :: 0 <= k < |runs| ==> runs[k] < 2) && Count(runs, 0) == 1 && Count(runs, 1) == 1
    ensures runs == [1, 0]
  {
    TwoCounts(runs);
    NamedOnce(runs, 1);
    assert !(runs[0] == 0 && runs[1] == 1) by {
      assert Later(logs, runs[1], runs[0]);
    }
    assert Count(runs[..1], runs[0]) == 1 by { assert runs[..1][..0] == []; }
    assert runs[..|runs| - 1] == runs[..1];
  }

  lemma {:induction false} TwoCounts(runs: seq<nat>)
    requires forall k :: 0 <= k < |runs| ==> runs[k] < 2
    ensures |runs| == Count(runs, 0) + Count(runs, 1)
    decreases |runs|
  {
    if runs != [] {
      TwoCounts(runs[..|runs| - 1]);
    }
  }

  /** A system with one call, at the end of an execution. */
  lemma EndOfOne(maps: seq<seq<int>>, sys: seq<Sys>, rs: seq<Run>, end: Vm, i: nat, x: string)
    requires AllReadable(sys) && IsRun(maps, sys, rs) && i < |sys| && end == rs[|rs| - 1].m && Finished(end.sys)
    requires Texts(Logs(sys)[i].entries) == [x]
    ensures |end.sys| == |sys| && PhasesOf(end.sys[i].src) == [[x]]
  {
    SystemAt(maps, sys, rs, |rs| - 1, i);
    OneCallAtEnd(end.sys[i], Logs(sys)[i], x);
  }

  lemma EndOf(maps: seq<seq<int>>, sys: seq<Sys>, rs: seq<Run>, end: Vm, x: string, y: string)
    requires |sys| == 2 && AllReadable(sys) && IsRun(maps, sys, rs) && end == rs[|rs| - 1].m && Finished(end.sys)
    requires Texts(Logs(sys)[0].entries) == [x] && Texts(Logs(sys)[1].entries) == [y]
    ensures |end.sys| == 2 && AllPhases(end.sys) == [[[x]], [[y]]]
    ensures Count(end.runSeq, 0) == 1 && Count(end.runSeq, 1) == 1
    ensures forall k :: 0 <= k < |end.runSeq| ==> end.runSeq[k] < 2
  {
    EndOfOne(maps, sys, rs, end, 0, x);
    EndOfOne(maps, sys, rs, end, 1, y);
    EndCounts(maps, sys, rs, end);
    TwoCounted(end, x, y);
  }

  lemma TwoCounted(end: Vm, x: string, y: string)
    requires |end.sys| == 2 && Counts(end)
    requires PhasesOf(end.sys[0].src) == [[x]] && PhasesOf(end.sys[1].src) == [[y]]
    ensures AllPhases(end.sys) == [[[x]], [[y]]]
    ensures Count(end.runSeq, 0) == 1 && Count(end.runSeq, 1) == 1
    ensures forall k :: 0 <= k < |end.runSeq| ==> end.runSeq[k] < 2
  {
    assert Count(end.runSeq, 0) == |PhasesOf(end.sys[0].src)|;
    assert Count(end.runSeq, 1) == |PhasesOf(end.sys[1].src)|;
    forall k | 0 <= k < |end.runSeq| ensures end.runSeq[k] < 2 {
      assert end.runSeq[k] in end.runSeq;
    }
  }

  lemma TwoReplays(x: string, y: string)
    ensures Replayed([1, 0], [[[x]], [[y]]]) == [(1, y), (0, x)]
    ensures Driver.Driven([[[x]], [[y]]], 2) == Driver.Drive([(0, x), (1, y)], true)
  {
    var runs: seq<nat>, phases := [1, 0], [[[x]], [[y]]];
    assert runs[..1] == [1] && runs[..1][..0] == [];
    assert Count([1], 0) == 0;
    assert Replayed([1], phases) == [(1, y)];
    assert Driver.Driven(phases, 1) == Driver.Drive([(0, x)], true);
  }

  lemma TwoTied(maps: seq<seq<int>>)
    requires Dependent(maps, 0, 1)
    ensures AllTied(maps, 2)
  {
    DependentSymmetric(maps, 0, 1);
    forall i: nat, j: nat | i < 2 && j < 2 ensures Related(maps, i, j) {
      assert i == j || (i == 0 && j == 1) || (i == 1 && j == 0);
    }
  }

  lemma OneCallReadable(sys: seq<Sys>, t: real, u: real)
    requires sys == [OneCall(t, "a"), OneCall(u, "b")]
    ensures AllReadable(sys) && |Logs(sys)| == 2
    ensures Logs(sys)[0].entries == [Entry(t, t, Commented("a"))]
    ensures Logs(sys)[1].entries == [Entry(u, u, Commented("b"))]
  {
    OneEntry(t, "a");
    OneEntry(u, "b");
  }

  /** Any finished execution of two such systems starts the second one first. */
  lemma StartsSecond(maps: seq<seq<int>>, sys: seq<Sys>, rs: seq<Run>, end: Vm)
    requires AllTied(maps, 2) && |sys| == 2 && AllReadable(sys) && IsRun(maps, sys, rs)
    requires end == rs[|rs| - 1].m && Finished(end.sys)
    requires
      var a, b := Logs(sys)[0].entries, Logs(sys)[1].entries;
      |a| == |b| == 1 && a[0].enter > b[0].enter
    ensures
      var x, y := Logs(sys)[0].entries[0].text, Logs(sys)[1].entries[0].text;
      end.runSeq == [1, 0] && AllPhases(end.sys) == [[[x]], [[y]]]
  {
    var x, y := Logs(sys)[0].entries[0].text, Logs(sys)[1].entries[0].text;
    assert Texts(Logs(sys)[0].entries) == [x] && Texts(Logs(sys)[1].entries) == [y];
    EndOf(maps, sys, rs, end, x, y);
    StartsInOrder(maps, sys, rs, |rs| - 1);
    SecondFirst(Logs(sys), end.runSeq);
  }

  lemma FinishedRunOf(maps: seq<seq<int>>, sys: seq<Sys>) returns (rs: seq<Run>, end: Vm)
    requires AllReadable(sys)
    ensures IsRun(maps, sys, rs) && end == rs[|rs| - 1].m && Finished(end.sys)
  {
    rs := RunToEnd(maps, sys);
    end := rs[|rs| - 1].m;
  }

  /** The driver calls the two systems in the order of the list, without noticing that the VM has
      started them in the other one. */
  lemma DriverCounterexample(maps: seq<seq<int>>, t: real, u: real) returns (sys: seq<Sys>, rs: seq<Run>, end: Vm)
    requires Dependent(maps, 0, 1) && t > u
    ensures sys == [OneCall(t, "a"), OneCall(u, "b")] && AllReadable(sys) && IsRun(maps, sys, rs)
    ensures end == rs[|rs| - 1].m && Finished(end.sys) && end.runSeq == [1, 0]
    ensures Replayed(end.runSeq, AllPhases(end.sys)) == [(1, Commented("b")), (0, Commented("a"))]
    ensures Driver.Driven(AllPhases(end.sys), |end.runSeq|)
            == Driver.Drive([(0, Commented("a")), (1, Commented("b"))], true)
  {
    sys := [OneCall(t, "a"), OneCall(u, "b")];
    OneCallReadable(sys, t, u);
    TwoTied(maps);
    rs, end := FinishedRunOf(maps, sys);
    StartsSecond(maps, sys, rs, end);
    TwoReplays(Commented("a"), Commented("b"));
  }
}
