/** What the quiescence check computes over whole executions: the totals are sums of the gaps
    between calls, and a gap asks for a pause when it exceeds ten times their average. */
module Totals {
  import opened Trace
  import opened Engine
  import opened Phases
  import opened Machine
  import opened RunPass
  import opened Bookkeeping
  import opened Quiescence
  import opened Rounds
  import opened Runs
  import opened Executions
  import opened LaunchOrder
  import opened LastPhase

  /** The sum of the first e gaps of a trace. */
  function GapSum(log: Log, e: nat): real
    requires e == 0 || e < |log.entries|
  {
    if e == 0 then 0.0 else GapSum(log, e - 1) + (log.entries[e].enter - log.entries[e - 1].exit)
  }

  /** The gap after the first e calls, multiplied by the calls less one, exceeds ten times the sum of
      the gaps up to it. */
  predicate LongGap(log: Log, e: nat) {
    2 <= e < |log.entries|
    && (log.entries[e].enter - log.entries[e - 1].exit) * (e - 1) as real > 10.0 * GapSum(log, e)
  }

  /** No sum of gaps is the value that stands for a total that has not started. */
  ghost predicate Unmarked(log: Log) {
    forall e: nat :: 0 < e < |log.entries| - 1 ==> GapSum(log, e) != -1.0
  }

  lemma {:induction false} CalmSums(log: Log, e: nat)
    requires Calm(log) && (e == 0 || e < |log.entries|)
    ensures GapSum(log, e) >= 0.0
  {
    if e > 0 {
      CalmSums(log, e - 1);
    }
  }

  lemma CalmUnmarked(log: Log)
    requires Calm(log)
    ensures Unmarked(log)
  {
    forall e: nat | 0 < e < |log.entries| - 1 ensures GapSum(log, e) != -1.0 {
      CalmSums(log, e);
    }
  }

  lemma {:induction false} TotalIsSum(log: Log, e: nat)
    requires 2 <= e <= |log.entries|
    requires forall k: nat :: 0 < k < e - 1 ==> GapSum(log, k) != -1.0
    ensures TotalTo(log, e) == GapSum(log, e - 1)
  {
    if e == 2 {
      assert GapSum(log, 1) == GapSum(log, 0) + (log.entries[1].enter - log.entries[0].exit);
      assert TotalTo(log, 1) == -1.0;
    } else {
      TotalIsSum(log, e - 1);
      assert GapSum(log, e - 2) != -1.0;
    }
  }

  ghost predicate SumsThroughout(log: Log) {
    forall e: nat :: 2 <= e <= |log.entries| ==> TotalTo(log, e) == GapSum(log, e - 1)
  }

  /** The totals are the sums of the gaps if and only if none of the sums that are added to is -1. */
  lemma SumsExactly(log: Log)
    ensures SumsThroughout(log) <==> Unmarked(log)
  {
    if Unmarked(log) {
      forall e: nat | 2 <= e <= |log.entries| ensures TotalTo(log, e) == GapSum(log, e - 1) {
        TotalIsSum(log, e);
      }
    }
    if SumsThroughout(log) {
      forall e: nat | 0 < e < |log.entries| - 1 ensures GapSum(log, e) != -1.0 {
        assert TotalTo(log, e + 1) == GapSum(log, e);
        assert TotalTo(log, e + 2) == GapSum(log, e + 1) == GapSum(log, e) + GapAfter(log, e + 1);
      }
    }
  }

  /** On a trace whose calls do not overlap, the gap after the first e calls asks for a pause if and
      only if it exceeds ten times the sum of the gaps, divided by the calls less one. */
  lemma AsksExactly(log: Log, e: nat)
    requires Unmarked(log)
    ensures AsksAfter(log, e) <==> LongGap(log, e)
  {
    if 2 <= e < |log.entries| {
      TotalIsSum(log, e);
      FiresExactly(TotalTo(log, e), e, GapAfter(log, e), GapSum(log, e));
    }
  }

  // ---- The totals in every execution ----

  /** A system that has not started has no total yet; one in its first phase has the total of its trace. */
  ghost predicate TotalOk(log: Log, s: Sys, total: real) {
    var n, e := |PhasesOf(s.src)|, NumDone(s);
    && (n == 0 ==> total == -1.0 && !s.st.RUN?)
    && (n == 1 && s.st.RUN? ==> 0 < e <= |log.entries| && total == TotalTo(log, e))
  }

  lemma FetchedTotal(s: Sys, log: Log, total: real, booting: bool, tic: int)
    requires SysOk(s, log) && TotalOk(log, s, total) && (s.st.INVALID? <==> booting) && !s.st.READY?
    requires s.st.FINALIZE? || s.pending.Some? || !NextEntry(s.unread).Corrupt?
    ensures
      var f := Refetched(Booted(s, booting, tic), tic);
      SysOk(f, log) && Settled(f) && TotalOk(log, f, total) && !f.st.INVALID? && !f.st.READY?
  {
    if !s.st.FINALIZE? {
      if booting {
        SilentOk(s, log, INIT);
      }
      RefillOk(Booted(s, booting, tic), log, tic);
    }
  }

  lemma WaitingTotal(s: Sys, log: Log, total: real, q: Sys, v: Sys, t: int)
    requires SysOk(s, log) && Settled(s) && TotalOk(log, s, total)
    requires !s.st.RUN? && !s.st.INVALID? && !s.st.READY?
    requires q == s || (!s.st.FINALIZE? && q == s.(st := QUIESCENT))
    requires VisitedFrom(q, v)
    ensures TotalOk(log, Ran(v, t), total)
  {
    TurnResult(q, v, t);
    if !s.st.FINALIZE? {
      HoldsEntry(s, log);
    }
  }

  lemma GoingTotal(s: Sys, log: Log, total: real, v: Sys, t: int)
    requires SysOk(s, log) && Settled(s) && s.st.RUN? && TotalOk(log, s, total) && VisitedFrom(s, v)
    requires 0 < NumDone(s) < |log.entries|
    ensures TotalOk(log, Ran(v, t), AddGap(total, GapAfter(log, NumDone(s))))
  {
    TurnResult(s, v, t);
  }

  lemma PausedTotal(s: Sys, log: Log, total: real, sum: real, tic: int, v: Sys, t: int)
    requires SysOk(s, log) && Settled(s) && s.st.RUN? && TotalOk(log, s, total)
    requires VisitedFrom(Transition(s, QUIESCENT, tic), v)
    ensures TotalOk(log, Ran(v, t), sum)
  {
    PhasesAppend(s.src, Suffix);
    TurnResult(Transition(s, QUIESCENT, tic), v, t);
  }

  /** A running system has its gap added, unless it is the last one and is paused. */
  lemma RunningSum(r: Run, k: nat)
    requires Shaped(r) && k < |r.m.sys| && Fetches(r)[k].st.RUN?
    requires k + 1 < |r.m.sys| || CheckOf(r).fired == []
    ensures CheckOf(r).sums[k] == AddGap(r.totals[k], Gap(r.stamps, Stamps(Fetches(r)), k))
  {
    var s := Fetches(r);
    var gap := Gap(r.stamps, Stamps(s), k);
    CheckBySums(s, r.stamps, Stamps(s), DoneCounts(s), r.totals, k, |s|, CheckOf(r), gap,
      AddGap(r.totals[k], gap));
  }

  lemma SumSeen(logs: seq<Log>, r: Run, k: nat, e: nat)
    requires RunOk(logs, r) && Reads(r.m.sys) && k < |r.m.sys| && Fetches(r)[k].st.RUN?
    requires r.m.sys[k].st.RUN? && e == NumDone(r.m.sys[k])
    ensures 0 < e < |logs[k].entries| && NumDone(Fetches(r)[k]) == e
    ensures k + 1 < |r.m.sys| || CheckOf(r).fired == [] ==>
              CheckOf(r).sums[k] == AddGap(r.totals[k], GapAfter(logs[k], e))
  {
    SeesGap(logs[k], r.m.sys[k], Fetches(r)[k], r.stamps[k], r.tic);
    if k + 1 < |r.m.sys| || CheckOf(r).fired == [] {
      RunningSum(r, k);
    }
  }

  lemma RunningTurned(s: Sys, log: Log, total: real, sum: real, paused: bool, tic: int, v: Sys, t: int)
    requires SysOk(s, log) && Settled(s) && s.st.RUN? && TotalOk(log, s, total)
    requires 0 < NumDone(s) < |log.entries|
    requires !paused ==> sum == AddGap(total, GapAfter(log, NumDone(s)))
    requires VisitedFrom(if paused then Transition(s, QUIESCENT, tic) else s, v)
    ensures TotalOk(log, Ran(v, t), sum)
  {
    if paused {
      PausedTotal(s, log, total, sum, tic, v, t);
    } else {
      GoingTotal(s, log, total, v, t);
    }
  }

  lemma RunningTotal(maps: seq<seq<int>>, logs: seq<Log>, r: Run, k: nat)
    requires RunOk(logs, r) && Reads(r.m.sys) && k < |r.m.sys| && Fetches(r)[k].st.RUN?
    requires TotalOk(logs[k], r.m.sys[k], r.totals[k]) && Live(Fetches(r)) > 0
    ensures TotalOk(logs[k], NextRound(maps, r).m.sys[k], CheckOf(r).sums[k])
  {
    var s, f := r.m.sys[k], Fetches(r)[k];
    WasRunning(s, logs[k], r.tic);
    FetchedTotal(s, logs[k], r.totals[k], false, r.tic);
    SumSeen(logs, r, k, NumDone(s));
    PausesAt(r, k);
    var v, t := RoundOf(maps, logs, r, k);
    var paused := k + 1 == |r.m.sys| && CheckOf(r).fired != [];
    RunningTurned(f, logs[k], r.totals[k], CheckOf(r).sums[k], paused, r.tic, v, t);
  }

  lemma WaitedTotal(maps: seq<seq<int>>, logs: seq<Log>, r: Run, k: nat)
    requires RunOk(logs, r) && Reads(r.m.sys) && k < |r.m.sys| && !Fetches(r)[k].st.RUN?
    requires TotalOk(logs[k], r.m.sys[k], r.totals[k]) && Live(Fetches(r)) > 0
    ensures TotalOk(logs[k], NextRound(maps, r).m.sys[k], CheckOf(r).sums[k])
  {
    FetchedTotal(r.m.sys[k], logs[k], r.totals[k], false, r.tic);
    IdleTotal(r, k);
    PausesAt(r, k);
    var v, t := RoundOf(maps, logs, r, k);
    WaitingTotal(Fetches(r)[k], logs[k], r.totals[k], Pauses(r)[k], v, t);
  }

  lemma RoundTotal(maps: seq<seq<int>>, logs: seq<Log>, r: Run, k: nat)
    requires RunOk(logs, r) && Reads(r.m.sys) && k < |r.m.sys| && TotalOk(logs[k], r.m.sys[k], r.totals[k])
    ensures TotalOk(logs[k], NextRound(maps, r).m.sys[k], NextRound(maps, r).totals[k])
  {
    if Live(Fetches(r)) == 0 {
      FetchedTotal(r.m.sys[k], logs[k], r.totals[k], false, r.tic);
    } else if Fetches(r)[k].st.RUN? {
      RunningTotal(maps, logs, r, k);
    } else {
      WaitedTotal(maps, logs, r, k);
    }
  }

  lemma OpeningFetches(sys: seq<Sys>, k: nat)
    requires AllUntouched(sys) && Reads(sys) && k < |sys|
    ensures
      var s := FetchedUpTo(sys, true, 0, |sys|);
      && Rested(s) && SysOk(s[k], Logs(sys)[k]) && Settled(s[k]) && TotalOk(Logs(sys)[k], s[k], -1.0)
      && !s[k].st.RUN? && !s[k].st.INVALID? && !s[k].st.READY?
  {
    UntouchedOk(sys);
    FetchRound(sys, true, 0);
    FetchedTotal(sys[k], Logs(sys)[k], -1.0, true, 0);
  }

  lemma OpeningTotal(maps: seq<seq<int>>, sys: seq<Sys>, k: nat)
    requires AllUntouched(sys) && Reads(sys) && k < |sys|
    ensures TotalOk(Logs(sys)[k], Opening(maps, sys).m.sys[k], Opening(maps, sys).totals[k])
  {
    var s, none := FetchedUpTo(sys, true, 0, |sys|), seq(|sys|, _ => INF_QTIME);
    OpeningFetches(sys, k);
    var v, t := DispatchOf(maps, Vm(s, [], []), Stamps(s), none, 0, k);
    WaitingTotal(s[k], Logs(sys)[k], -1.0, s[k], v, t);
  }

  lemma TotalsKept(maps: seq<seq<int>>, sys: seq<Sys>, rs: seq<Run>, j: nat, k: nat)
    requires AllUntouched(sys) && IsRun(maps, sys, rs) && j < |rs| && k < |sys|
    ensures RunOk(Logs(sys), rs[j]) && TotalOk(Logs(sys)[k], rs[j].m.sys[k], rs[j].totals[k])
  {
    var P := (r: Run) => RunOk(Logs(sys), r) && TotalOk(Logs(sys)[k], r.m.sys[k], r.totals[k]);
    FirstOk(maps, sys, rs);
    OpeningTotal(maps, sys, k);
    forall i: nat | i + 1 < |rs| && P(rs[i]) ensures P(rs[i + 1]) {
      StepOk(maps, sys, rs, i);
      assert LinkAt(rs, Step(maps), i);
      RoundTotal(maps, Logs(sys), rs[i], k);
    }
    Throughout(rs, P, j);
  }

  /** At every moment of every execution, a system that is in its first phase has no total yet after
      its first call, and the sum of the gaps between its calls from then on. */
  lemma TotalsAreSums(maps: seq<seq<int>>, sys: seq<Sys>, rs: seq<Run>, j: nat, k: nat)
    requires AllUntouched(sys) && IsRun(maps, sys, rs) && j < |rs| && k < |sys| && Unmarked(Logs(sys)[k])
    ensures |rs[j].m.sys| == |rs[j].totals| == |sys|
    ensures
      var s := rs[j].m.sys[k];
      s.st.RUN? && |PhasesOf(s.src)| == 1 ==>
        && 0 < NumDone(s) <= |Logs(sys)[k].entries|
        && rs[j].totals[k] == if NumDone(s) == 1 then -1.0 else GapSum(Logs(sys)[k], NumDone(s) - 1)
  {
    TotalsKept(maps, sys, rs, j, k);
    var s, log := rs[j].m.sys[k], Logs(sys)[k];
    if s.st.RUN? && |PhasesOf(s.src)| == 1 && NumDone(s) > 1 {
      TotalIsSum(log, NumDone(s));
    }
  }

  /** A gap in the first phase of a system is too long for the check exactly if it is in its trace. */
  lemma FiresInFirstPhase(logs: seq<Log>, r: Run, k: nat)
    requires RunOk(logs, r) && Reads(r.m.sys) && k < |r.m.sys| && Fetches(r)[k].st.RUN?
    requires TotalOk(logs[k], r.m.sys[k], r.totals[k]) && Unmarked(logs[k]) && |PhasesOf(r.m.sys[k].src)| <= 1
    ensures FiresAt(Fetches(r), r.stamps, Stamps(Fetches(r)), DoneCounts(Fetches(r)), r.totals, k)
            <==> LongGap(logs[k], NumDone(r.m.sys[k]))
  {
    var s, e := Fetches(r), NumDone(r.m.sys[k]);
    WasRunning(r.m.sys[k], logs[k], r.tic);
    SeesGap(logs[k], r.m.sys[k], s[k], r.stamps[k], r.tic);
    assert Gap(r.stamps, Stamps(s), k) == GapAfter(logs[k], e) && DoneCounts(s)[k] == e;
    AsksExactly(logs[k], e);
  }

  /** The system goes on running after the round's fetch, and the gap before its next call is long. */
  ghost predicate WaitsLong(logs: seq<Log>, r: Run, k: nat)
    requires k < |r.m.sys| == |logs|
  {
    Fetches(r)[k].st.RUN? && LongGap(logs[k], NumDone(r.m.sys[k]))
  }

  /** The check of the round that follows finds the gap of this system too long. */
  predicate FiresIn(r: Run, k: nat)
    requires Shaped(r) && k < |r.m.sys|
  {
    var s := Fetches(r);
    FiresAt(s, r.stamps, Stamps(s), DoneCounts(s), r.totals, k)
  }

  lemma FiresWhen(maps: seq<seq<int>>, sys: seq<Sys>, rs: seq<Run>, r: Run, j: nat, k: nat)
    requires AllUntouched(sys) && IsRun(maps, sys, rs) && j < |rs| && r == rs[j] && Reads(r.m.sys)
    requires k < |sys| == |r.m.sys| && Unmarked(Logs(sys)[k]) && Shaped(r)
    requires k + 1 == |sys| ==> |PhasesOf(r.m.sys[k].src)| <= 1
    ensures FiresIn(r, k) <==> WaitsLong(Logs(sys), r, k)
  {
    if Fetches(r)[k].st.RUN? {
      TotalsKept(maps, sys, rs, j, k);
      if k + 1 < |sys| {
        OnePhase(maps, sys, rs, j, k);
      }
      FiresInFirstPhase(Logs(sys), r, k);
    }
  }

  lemma OneFires(r: Run) returns (k: nat)
    requires Shaped(r) && CheckOf(r).fired != []
    ensures k < |r.m.sys| && FiresIn(r, k)
  {
    var s := Fetches(r);
    k := CheckOf(r).fired[0];
    assert k in CheckOf(r).fired;
    CheckExact(s, r.stamps, Stamps(s), DoneCounts(s), r.totals, |r.m.sys|);
  }

  lemma FiringAsks(r: Run, k: nat)
    requires Shaped(r) && k < |r.m.sys| && FiresIn(r, k)
    ensures CheckOf(r).fired != []
  {
    var s := Fetches(r);
    CheckExact(s, r.stamps, Stamps(s), DoneCounts(s), r.totals, |r.m.sys|);
  }

  ghost predicate SomeWaitsLong(logs: seq<Log>, r: Run) {
    exists k: nat :: k < |logs| && |logs| == |r.m.sys| && WaitsLong(logs, r, k)
  }

  ghost predicate AllUnmarked(logs: seq<Log>) {
    forall k :: 0 <= k < |logs| ==> Unmarked(logs[k])
  }

  lemma SomeoneWaits(logs: seq<Log>, r: Run, k: nat)
    requires k < |logs| == |r.m.sys| && WaitsLong(logs, r, k)
    ensures SomeWaitsLong(logs, r)
  {
  }

  lemma AskedFor(maps: seq<seq<int>>, sys: seq<Sys>, rs: seq<Run>, r: Run, j: nat, n: nat)
    requires AllUntouched(sys) && IsRun(maps, sys, rs) && j < |rs| && r == rs[j] && Reads(r.m.sys)
    requires n + 1 == |sys| == |r.m.sys| && AllUnmarked(Logs(sys))
    requires Shaped(r) && |PhasesOf(r.m.sys[n].src)| <= 1 && CheckOf(r).fired != []
    ensures SomeWaitsLong(Logs(sys), r)
  {
    var k := OneFires(r);
    FiresWhen(maps, sys, rs, r, j, k);
    SomeoneWaits(Logs(sys), r, k);
  }

  lemma WaitingAsks(maps: seq<seq<int>>, sys: seq<Sys>, rs: seq<Run>, r: Run, j: nat, n: nat, k: nat)
    requires AllUntouched(sys) && IsRun(maps, sys, rs) && j < |rs| && r == rs[j] && Reads(r.m.sys)
    requires n + 1 == |sys| == |r.m.sys| && AllUnmarked(Logs(sys))
    requires Shaped(r) && |PhasesOf(r.m.sys[n].src)| <= 1 && k < |sys| && WaitsLong(Logs(sys), r, k)
    ensures CheckOf(r).fired != []
  {
    FiresWhen(maps, sys, rs, r, j, k);
    FiringAsks(r, k);
  }

  /** In every round of every execution up to the first pause, the check asks for a pause if and only
      if some running system has a long gap. */
  lemma AsksWhen(maps: seq<seq<int>>, sys: seq<Sys>, rs: seq<Run>, r: Run, j: nat, n: nat)
    requires AllUntouched(sys) && IsRun(maps, sys, rs) && j < |rs| && r == rs[j] && Reads(r.m.sys)
    requires n + 1 == |sys| == |r.m.sys| && AllUnmarked(Logs(sys))
    requires Shaped(r) && |PhasesOf(r.m.sys[n].src)| <= 1
    ensures CheckOf(r).fired != [] <==> SomeWaitsLong(Logs(sys), r)
  {
    if CheckOf(r).fired != [] {
      AskedFor(maps, sys, rs, r, j, n);
    } else if SomeWaitsLong(Logs(sys), r) {
      var k: nat :| k < |sys| && WaitsLong(Logs(sys), r, k);
      WaitingAsks(maps, sys, rs, r, j, n, k);
    }
  }

  /** In every execution, the last system of the list, running in its first phase, leaves it before
      the end of its trace if and only if its trace goes on and some running system has a long gap. */
  lemma FirstPause(maps: seq<seq<int>>, sys: seq<Sys>, rs: seq<Run>, j: nat, n: nat)
    requires AllUntouched(sys) && IsRun(maps, sys, rs) && j + 1 < |rs| && n + 1 == |sys| == |rs[j].m.sys|
    requires AllUnmarked(Logs(sys))
    requires rs[j].m.sys[n].st.RUN? && |PhasesOf(rs[j].m.sys[n].src)| == 1
    ensures |rs[j + 1].m.sys| == |sys|
    ensures BreaksOff(rs[j].m.sys[n], rs[j + 1].m.sys[n])
            <==> Fetches(rs[j])[n].st.RUN? && SomeWaitsLong(Logs(sys), rs[j])
  {
    var r := rs[j];
    assert LinkAt(rs, Step(maps), j);
    RoundsOk(maps, sys, rs, j);
    AsksWhen(maps, sys, rs, r, j, n);
    BrokenOff(maps, Logs(sys), r, n);
  }

  /** The last system of a finished execution in which all systems depend on each other has more than
      one phase if and only if its trace has a long gap. */
  lemma LastPhasesBySums(maps: seq<seq<int>>, sys: seq<Sys>, rs: seq<Run>, end: Vm, log: Log)
    requires AllUntouched(sys) && IsRun(maps, sys, rs) && AllTied(maps, |sys|) && sys != []
    requires end == rs[|rs| - 1].m && forall i :: 0 <= i < |end.sys| ==> end.sys[i].st.FINALIZE?
    requires log == Logs(sys)[|sys| - 1] && Unmarked(log)
    ensures |end.sys| == |sys|
    ensures |PhasesOf(end.sys[|sys| - 1].src)| > 1 <==> exists e: nat :: LongGap(log, e)
  {
    LastPhases(maps, sys, rs, end);
    NeverLong(log);
  }

  lemma NeverLong(log: Log)
    requires Unmarked(log)
    ensures NeverAsks(log) <==> forall e: nat :: !LongGap(log, e)
  {
    forall e: nat ensures AsksAfter(log, e) <==> LongGap(log, e) {
      AsksExactly(log, e);
    }
  }
}
