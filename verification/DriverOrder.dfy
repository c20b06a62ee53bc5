/** For which logs the generated driver replays what the VM has recorded, when all systems depend on
    each other. */
module DriverOrder {
  import opened Trace
  import opened Engine
  import opened Phases
  import opened Replay
  import opened Machine
  import opened Runs
  import opened Executions
  import opened LaunchOrder
  import opened LastPhase
  import opened Totals
  import opened Theorems

  /** The systems with calls come first in the list. */
  ghost predicate NonEmptyFirst(logs: seq<Log>) {
    forall i, j :: 0 <= i < j < |logs| && logs[j].entries != [] ==> logs[i].entries != []
  }

  /** Their first calls were entered one after another, in the order of the list. */
  ghost predicate Ascending(logs: seq<Log>) {
    forall i, j :: 0 <= i < j < |logs| && logs[i].entries != [] && logs[j].entries != [] ==>
      logs[i].entries[0].enter < logs[j].entries[0].enter
  }

  ghost predicate CountsUp(runs: seq<nat>) {
    forall k :: 0 <= k < |runs| ==> runs[k] == k
  }

  /** What a finished execution has recorded about the starts of phases. */
  ghost predicate Records(logs: seq<Log>, runs: seq<nat>) {
    && (forall i: nat :: i in runs <==> i < |logs| && logs[i].entries != [])
    && (forall i: nat :: i + 1 < |logs| ==> Count(runs, i) <= 1)
    && (|logs| > 0 ==> (NeverAsks(logs[|logs| - 1]) <==> Count(runs, |logs| - 1) <= 1))
    && InOrder(logs, runs)
  }

  lemma SystemEnd(s: Sys, log: Log)
    requires SysOk(s, log) && s.st.FINALIZE?
    ensures PhasesOf(s.src) != [] <==> log.entries != []
  {
    NonEmptyFlatten(PhasesOf(s.src));
    assert log.entries[..|log.entries|] == log.entries;
  }

  lemma EndNames(maps: seq<seq<int>>, sys: seq<Sys>, rs: seq<Run>, end: Vm, i: nat)
    requires AllUntouched(sys) && IsRun(maps, sys, rs) && i < |sys|
    requires end == rs[|rs| - 1].m && Finished(end.sys)
    ensures |end.sys| == |sys| && (PhasesOf(end.sys[i].src) != [] <==> Logs(sys)[i].entries != [])
  {
    SystemAt(maps, sys, rs, |rs| - 1, i);
    SystemEnd(end.sys[i], Logs(sys)[i]);
  }

  /** The counts and the names of the run sequence. */
  ghost predicate Counts(m: Vm) {
    && (forall i: nat :: i < |m.sys| ==> Count(m.runSeq, i) == |PhasesOf(m.sys[i].src)|)
    && NamesStarted(m)
  }

  lemma EndCounts(maps: seq<seq<int>>, sys: seq<Sys>, rs: seq<Run>, end: Vm)
    requires AllUntouched(sys) && IsRun(maps, sys, rs) && end == rs[|rs| - 1].m
    ensures Counts(end)
  {
    RunReached(maps, sys, rs, |rs| - 1);
    ReachedInv(maps, Vm(sys, [], []), end);
    ReachedNames(maps, Vm(sys, [], []), end);
  }

  /** The phases of the systems at the end. */
  ghost predicate EndPhases(logs: seq<Log>, end: Vm) {
    && |end.sys| == |logs|
    && (forall i: nat :: i < |logs| ==> (PhasesOf(end.sys[i].src) != [] <==> logs[i].entries != []))
    && (forall i: nat :: i + 1 < |logs| ==> |PhasesOf(end.sys[i].src)| <= 1)
  }

  lemma EndOnce(maps: seq<seq<int>>, sys: seq<Sys>, rs: seq<Run>, end: Vm, i: nat)
    requires AllUntouched(sys) && IsRun(maps, sys, rs) && end == rs[|rs| - 1].m && i + 1 < |sys|
    ensures |end.sys| == |sys| && |PhasesOf(end.sys[i].src)| <= 1
  {
    OnePhase(maps, sys, rs, |rs| - 1, i);
  }

  lemma PhasesAtEnd(maps: seq<seq<int>>, sys: seq<Sys>, rs: seq<Run>, end: Vm)
    requires AllUntouched(sys) && IsRun(maps, sys, rs) && end == rs[|rs| - 1].m && Finished(end.sys) && sys != []
    ensures EndPhases(Logs(sys), end)
  {
    EndNames(maps, sys, rs, end, 0);
    forall i: nat | i < |sys| ensures PhasesOf(end.sys[i].src) != [] <==> Logs(sys)[i].entries != [] {
      EndNames(maps, sys, rs, end, i);
    }
    forall i: nat | i + 1 < |sys| ensures |PhasesOf(end.sys[i].src)| <= 1 {
      EndOnce(maps, sys, rs, end, i);
    }
  }

  lemma EndInOrder(maps: seq<seq<int>>, sys: seq<Sys>, rs: seq<Run>, end: Vm)
    requires AllUntouched(sys) && IsRun(maps, sys, rs) && AllTied(maps, |sys|) && end == rs[|rs| - 1].m
    ensures InOrder(Logs(sys), end.runSeq)
  {
    StartsInOrder(maps, sys, rs, |rs| - 1);
  }

  lemma FinishedRecords(maps: seq<seq<int>>, sys: seq<Sys>, rs: seq<Run>, end: Vm)
    requires AllUntouched(sys) && IsRun(maps, sys, rs) && AllTied(maps, |sys|) && sys != []
    requires end == rs[|rs| - 1].m && Finished(end.sys)
    ensures Records(Logs(sys), end.runSeq)
  {
    var logs := Logs(sys);
    assert Counts(end) by { EndCounts(maps, sys, rs, end); }
    assert InOrder(logs, end.runSeq) by { EndInOrder(maps, sys, rs, end); }
    assert EndPhases(logs, end) by { PhasesAtEnd(maps, sys, rs, end); }
    LastPhases(maps, sys, rs, end);
    EndRecords(logs, end);
  }

  lemma EndRecords(logs: seq<Log>, end: Vm)
    requires Counts(end) && logs != [] && EndPhases(logs, end) && InOrder(logs, end.runSeq)
    requires |PhasesOf(end.sys[|logs| - 1].src)| > 1 <==> !NeverAsks(logs[|logs| - 1])
    ensures Records(logs, end.runSeq)
  {
  }

  /** The entries of a sequence that names nothing twice. */
  lemma {:induction false} NamedOnce(runs: seq<nat>, b: nat)
    requires b < |runs| && Count(runs, runs[b]) <= 1
    ensures runs[b] !in runs[..b]
    decreases |runs|
  {
    var last := |runs| - 1;
    if b < last {
      assert runs[..last][..b] == runs[..b];
      Driver.CountPrefix(runs, last, runs[b]);
      assert runs[..last] == runs[..|runs| - 1];
      NamedOnce(runs[..last], b);
    } else {
      CountIn(runs[..b], runs[b]);
    }
  }

  lemma CountsAtMostOnce(runs: seq<nat>, x: nat)
    requires CountsUp(runs)
    ensures Count(runs, x) <= 1
  {
    Driver.CountIota(runs, x);
  }

  /** Increasing starts that name a prefix of the list count up. */
  lemma {:induction false} IncreasingCounts(runs: seq<nat>, k: nat)
    requires forall a, b :: 0 <= a < b < |runs| ==> runs[a] < runs[b]
    requires forall i: nat, j: nat :: i < j && j in runs ==> i in runs
    requires k <= |runs|
    ensures forall a :: 0 <= a < k ==> runs[a] == a
    decreases k
  {
    if k > 0 {
      IncreasingCounts(runs, k - 1);
      var a := k - 1;
      assert runs[a] >= a by {
        if a > 0 {
          assert runs[a - 1] < runs[a];
        }
      }
      assert a in runs by {
        assert runs[a] in runs;
      }
      var q :| 0 <= q < |runs| && runs[q] == a;
    }
  }

  lemma OrderCounts(logs: seq<Log>, runs: seq<nat>)
    requires Records(logs, runs) && logs != []
    requires NonEmptyFirst(logs) && Ascending(logs) && NeverAsks(logs[|logs| - 1])
    ensures CountsUp(runs)
  {
    forall a, b | 0 <= a < b < |runs| ensures runs[a] < runs[b] {
      assert runs[a] in runs && runs[b] in runs;
      assert Count(runs, runs[b]) <= 1;
      NamedOnce(runs, b);
      assert Later(logs, runs[b], runs[a]);
    }
    forall i: nat, j: nat | i < j && j in runs ensures i in runs {
      assert logs[j].entries != [];
    }
    IncreasingCounts(runs, |runs|);
  }

  lemma CountsOrder(logs: seq<Log>, runs: seq<nat>)
    requires Records(logs, runs) && logs != [] && CountsUp(runs)
    ensures NonEmptyFirst(logs) && Ascending(logs) && NeverAsks(logs[|logs| - 1])
  {
    CountsAtMostOnce(runs, |logs| - 1);
    forall i, j | 0 <= i < j < |logs| && logs[j].entries != []
      ensures logs[i].entries != [] && logs[i].entries[0].enter < logs[j].entries[0].enter
    {
      assert j in runs;
      assert runs[j] == j && runs[i] == i;
      assert i in runs;
      CountsAtMostOnce(runs, j);
      NamedOnce(runs, j);
      assert Later(logs, runs[j], runs[i]);
    }
  }

  ghost predicate RightOrder(logs: seq<Log>)
    requires logs != []
  {
    NonEmptyFirst(logs) && Ascending(logs) && NeverAsks(logs[|logs| - 1])
  }

  lemma CountsUpWhen(logs: seq<Log>, runs: seq<nat>)
    requires Records(logs, runs) && logs != []
    ensures CountsUp(runs) <==> RightOrder(logs)
  {
    if CountsUp(runs) {
      CountsOrder(logs, runs);
    }
    if RightOrder(logs) {
      OrderCounts(logs, runs);
    }
  }

  ghost predicate DriverRight(end: Vm) {
    Driver.Driven(AllPhases(end.sys), |end.runSeq|) == Driver.Drive(Replayed(end.runSeq, AllPhases(end.sys)), true)
  }

  lemma DriverRightWhen(maps: seq<seq<int>>, sys: seq<Sys>, rs: seq<Run>, end: Vm)
    requires AllUntouched(sys) && IsRun(maps, sys, rs) && end == rs[|rs| - 1].m && Finished(end.sys)
    ensures DriverRight(end) <==> CountsUp(end.runSeq)
  {
    RunReached(maps, sys, rs, |rs| - 1);
    DriverOfFinishedRun(maps, Vm(sys, [], []), end);
  }

  /** After a finished execution, the driver makes the recorded calls if and only if the systems
      with calls come first in the list, in the strict order of their first calls, and no gap in the
      trace of the last system of the list asks for a pause. */
  lemma DriverOfLogs(maps: seq<seq<int>>, sys: seq<Sys>, rs: seq<Run>, end: Vm)
    requires AllUntouched(sys) && IsRun(maps, sys, rs) && AllTied(maps, |sys|) && sys != []
    requires end == rs[|rs| - 1].m && Finished(end.sys)
    ensures DriverRight(end) <==> RightOrder(Logs(sys))
  {
    DriverRightWhen(maps, sys, rs, end);
    FinishedRecords(maps, sys, rs, end);
    CountsUpWhen(Logs(sys), end.runSeq);
  }

  /** The same in plain sums: the systems with calls come first, in the strict order of their first
      calls, and no gap in the trace of the last system of the list is long. */
  lemma DriverBySums(maps: seq<seq<int>>, sys: seq<Sys>, rs: seq<Run>, end: Vm, last: Log)
    requires AllUntouched(sys) && IsRun(maps, sys, rs) && AllTied(maps, |sys|) && sys != []
    requires end == rs[|rs| - 1].m && Finished(end.sys)
    requires last == Logs(sys)[|sys| - 1] && Unmarked(last)
    ensures DriverRight(end)
            <==> NonEmptyFirst(Logs(sys)) && Ascending(Logs(sys)) && forall e: nat :: !LongGap(last, e)
  {
    DriverOfLogs(maps, sys, rs, end);
    NeverLong(last);
  }
}
