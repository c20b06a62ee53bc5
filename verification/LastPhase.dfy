/** When the last system of the list is paused in the middle of its trace, given that all systems
    depend on each other: exactly if one of its own gaps asks for it. */
module LastPhase {
  import opened Trace
  import opened Engine
  import opened Phases
  import opened Machine
  import opened RunPass
  import opened Bookkeeping
  import opened Quiescence
  import opened Rounds
  import opened Runs
  import opened Executions
  import opened LaunchOrder

  /** The time between the e-th call of a trace and the next. */
  function GapAfter(log: Log, e: nat): real
    requires 0 < e < |log.entries|
  {
    log.entries[e].enter - log.entries[e - 1].exit
  }

  /** The total of the gaps between the first e calls. */
  function TotalTo(log: Log, e: nat): real
    requires 0 < e <= |log.entries|
  {
    if e == 1 then INF_QTIME else AddGap(TotalTo(log, e - 1), GapAfter(log, e - 1))
  }

  /** After e calls in a row, the gap that follows asks for a pause. */
  predicate AsksAfter(log: Log, e: nat) {
    0 < e < |log.entries| && Fires(AddGap(TotalTo(log, e), GapAfter(log, e)), e, GapAfter(log, e))
  }

  ghost predicate NeverAsks(log: Log) {
    forall e: nat :: !AsksAfter(log, e)
  }

  ghost predicate NotYet(log: Log, n: nat) {
    forall e: nat :: e < n ==> !AsksAfter(log, e)
  }

  /** Where the last system is with its trace: it has not started, or is in its first phase with its
      total being that of its trace, or has ended in one phase, or has been paused. */
  ghost predicate LastState(log: Log, s: Sys, total: real) {
    var n, e := |PhasesOf(s.src)|, NumDone(s);
    || (n == 0 && total == INF_QTIME && !s.st.RUN?)
    || (n == 1 && s.st.RUN? && 0 < e <= |log.entries| && total == TotalTo(log, e) && NotYet(log, e))
    || (n == 1 && s.st.FINALIZE? && NeverAsks(log))
    || (n == 1 && (s.st.INIT? || s.st.QUIESCENT?) && !NeverAsks(log))
    || (n > 1 && !NeverAsks(log))
  }

  ghost predicate LastOk(logs: seq<Log>, r: Run) {
    && Shaped(r) && |logs| == |r.m.sys| > 0
    && var n := |logs| - 1; LastState(logs[n], r.m.sys[n], r.totals[n])
  }

  lemma AllAsked(log: Log)
    requires NotYet(log, |log.entries|)
    ensures NeverAsks(log)
  {
  }

  /** The gap that the check sees of a running system is the one after its executed calls. */
  lemma SeesGap(log: Log, s: Sys, t: Sys, prev: Stamp, tic: int)
    requires SysOk(s, log) && s.st.RUN? && StampedAt(log, Left(s), prev)
    requires (s.pending.Some? || !NextEntry(s.unread).Corrupt?) && t == Refetched(s, tic) && t.st.RUN?
    ensures 0 < NumDone(s) < |log.entries| && NumDone(t) == NumDone(s)
    ensures Row(t).0.0 - prev.1 == GapAfter(log, NumDone(s))
  {
    RefillOk(s, log, tic);
    assert Rest(s) == log.entries[NumDone(s)..];
    PendingEntry(t, log);
  }

  /** With a system that is running, no other one is. */
  lemma RunsAlone(maps: seq<seq<int>>, start: Vm, m: Vm, i: nat, j: nat)
    requires Reached(maps, start, m) && AllTied(maps, |m.sys|) && i < |m.sys| && j < |m.sys| && i != j
    requires m.sys[i].st.RUN?
    ensures !m.sys[j].st.RUN?
  {
    ReachedInv(maps, start, m);
    assert Related(maps, i, j);
  }

  /** The check while only the last system runs. */
  lemma AloneChecked(sys: seq<Sys>, prev: seq<Stamp>, cur: seq<Stamp>, ninstr: seq<int>, totals: seq<real>, n: nat,
                     sum: real, fires: bool)
    requires n + 1 == |sys| == |prev| == |cur| == |ninstr| == |totals| && sys[n].st.RUN?
    requires forall i :: 0 <= i < n ==> !sys[i].st.RUN?
    requires sum == AddGap(totals[n], Gap(prev, cur, n)) && fires == Fires(sum, ninstr[n], Gap(prev, cur, n))
    ensures
      var c := Checked(sys, prev, cur, ninstr, totals, n + 1);
      (c.fired != [] <==> fires) && c.sums[n] == sum
  {
    NoneFired(sys, prev, cur, ninstr, totals, n);
    SumsStep(sys, prev, cur, ninstr, totals, n);
  }

  lemma FetchedAlone(maps: seq<seq<int>>, start: Vm, logs: seq<Log>, r: Run, n: nat)
    requires Reached(maps, start, r.m) && RunOk(logs, r) && Reads(r.m.sys) && AllTied(maps, |r.m.sys|)
    requires n + 1 == |r.m.sys| && Fetches(r)[n].st.RUN?
    ensures forall i :: 0 <= i < n ==> !Fetches(r)[i].st.RUN?
  {
    FetchedReached(maps, start, logs, r);
    forall i | 0 <= i < n ensures !Fetches(r)[i].st.RUN? {
      RunsAlone(maps, start, r.m.(sys := Fetches(r)), n, i);
    }
  }

  /** The check of a round in which the last system is the one that runs. */
  lemma LastChecked(r: Run, n: nat, sum: real, fires: bool)
    requires Shaped(r) && n + 1 == |r.m.sys| && Fetches(r)[n].st.RUN?
    requires forall i :: 0 <= i < n ==> !Fetches(r)[i].st.RUN?
    requires
      var s := Fetches(r);
      var gap := Gap(r.stamps, Stamps(s), n);
      sum == AddGap(r.totals[n], gap) && fires == Fires(sum, DoneCounts(s)[n], gap)
    ensures (CheckOf(r).fired != [] <==> fires) && CheckOf(r).sums[n] == sum
  {
    var s := Fetches(r);
    AloneChecked(s, r.stamps, Stamps(s), DoneCounts(s), r.totals, n, sum, fires);
  }

  /** The total of a system that does not run stays as it is. */
  lemma IdleTotal(r: Run, n: nat)
    requires Shaped(r) && n < |r.m.sys| && !Fetches(r)[n].st.RUN?
    ensures CheckOf(r).sums[n] == r.totals[n]
  {
    var s := Fetches(r);
    CheckExact(s, r.stamps, Stamps(s), DoneCounts(s), r.totals, |s|);
  }

  /** A visit and a turn: systems in RUN execute a call, those in FINALIZE do nothing, and waiting
      ones go on waiting or start a phase with their first call. */
  lemma TurnResult(q: Sys, v: Sys, t: int)
    requires VisitedFrom(q, v) && Settled(q) && !q.st.READY? && !q.st.INVALID?
    requires q.st.RUN? ==> PhasesOf(q.src) != []
    ensures
      var r, n := Ran(v, t), |PhasesOf(q.src)|;
      && (q.st.FINALIZE? ==> r == q)
      && (q.st.RUN? ==> r.st.RUN? && |PhasesOf(r.src)| == n && NumDone(r) == NumDone(q) + 1)
      && (q.st.INIT? || q.st.QUIESCENT? ==>
            || ((r.st.INIT? || r.st.QUIESCENT?) && r.src == q.src)
            || (r.st.RUN? && |PhasesOf(r.src)| == n + 1 && NumDone(r) == NumDone(q) + 1))
  {
    if v.st.READY? {
      StartEffect(v, t);
    } else if v.st.RUN? {
      ContinueEffect(v, t);
    }
  }

  lemma FetchedState(s: Sys, log: Log, total: real, tic: int)
    requires SysOk(s, log) && LastState(log, s, total) && !s.st.INVALID? && !s.st.READY?
    requires s.st.FINALIZE? || s.pending.Some? || !NextEntry(s.unread).Corrupt?
    ensures
      var f := Refetched(s, tic);
      SysOk(f, log) && Settled(f) && LastState(log, f, total) && !f.st.INVALID? && !f.st.READY?
  {
    if !s.st.FINALIZE? {
      RefillOk(s, log, tic);
    }
  }

  /** A system that does not run keeps its total. */
  lemma IdleState(s: Sys, log: Log, total: real, q: Sys, v: Sys, t: int)
    requires SysOk(s, log) && Settled(s) && LastState(log, s, total)
    requires !s.st.RUN? && !s.st.INVALID? && !s.st.READY?
    requires q == s || (!s.st.FINALIZE? && q == s.(st := QUIESCENT))
    requires VisitedFrom(q, v)
    ensures LastState(log, Ran(v, t), total)
  {
    TurnResult(q, v, t);
    if !s.st.FINALIZE? {
      HoldsEntry(s, log);
    }
  }

  /** A running system that is not paused. */
  lemma GoingState(s: Sys, log: Log, total: real, v: Sys, t: int)
    requires SysOk(s, log) && Settled(s) && s.st.RUN? && LastState(log, s, total) && VisitedFrom(s, v)
    requires 0 < NumDone(s) < |log.entries|
    requires |PhasesOf(s.src)| == 1 ==> !AsksAfter(log, NumDone(s))
    ensures LastState(log, Ran(v, t), AddGap(total, GapAfter(log, NumDone(s))))
  {
    TurnResult(s, v, t);
  }

  lemma PausedState(s: Sys, log: Log, total: real, sum: real, tic: int, v: Sys, t: int)
    requires SysOk(s, log) && Settled(s) && s.st.RUN? && LastState(log, s, total)
    requires VisitedFrom(Transition(s, QUIESCENT, tic), v)
    requires |PhasesOf(s.src)| == 1 ==> AsksAfter(log, NumDone(s))
    ensures LastState(log, Ran(v, t), sum)
  {
    var q := Transition(s, QUIESCENT, tic);
    PhasesAppend(s.src, Suffix);
    TurnResult(q, v, t);
  }

  /** The last system in a round in which it is running after the fetch: what the check sees. */
  lemma RunningChecked(maps: seq<seq<int>>, start: Vm, logs: seq<Log>, r: Run, n: nat, e: nat, sum: real)
    requires Reached(maps, start, r.m) && RunOk(logs, r) && Reads(r.m.sys) && AllTied(maps, |r.m.sys|)
    requires n + 1 == |r.m.sys| && r.m.sys[n].st.RUN? && Fetches(r)[n].st.RUN? && e == NumDone(r.m.sys[n])
    requires 0 < e < |logs[n].entries| && sum == AddGap(r.totals[n], GapAfter(logs[n], e))
    ensures CheckOf(r).sums[n] == sum
    ensures CheckOf(r).fired != [] <==> Fires(sum, e, GapAfter(logs[n], e))
  {
    var s := Fetches(r);
    FetchedAlone(maps, start, logs, r, n);
    SeesGap(logs[n], r.m.sys[n], s[n], r.stamps[n], r.tic);
    assert Gap(r.stamps, Stamps(s), n) == GapAfter(logs[n], e) && DoneCounts(s)[n] == e;
    LastChecked(r, n, sum, Fires(sum, e, GapAfter(logs[n], e)));
  }

  lemma FirstAsks(s: Sys, log: Log, total: real, e: nat, sum: real)
    requires s.st.RUN? && LastState(log, s, total) && |PhasesOf(s.src)| == 1 && e == NumDone(s)
    requires 0 < e < |log.entries| && sum == AddGap(total, GapAfter(log, e))
    ensures Fires(sum, e, GapAfter(log, e)) <==> AsksAfter(log, e)
  {
  }

  lemma RunningTurn(s: Sys, log: Log, total: real, sum: real, paused: bool, tic: int, v: Sys, t: int)
    requires SysOk(s, log) && Settled(s) && s.st.RUN? && LastState(log, s, total)
    requires 0 < NumDone(s) < |log.entries| && sum == AddGap(total, GapAfter(log, NumDone(s)))
    requires |PhasesOf(s.src)| == 1 ==> (paused <==> AsksAfter(log, NumDone(s)))
    requires VisitedFrom(if paused then Transition(s, QUIESCENT, tic) else s, v)
    ensures LastState(log, Ran(v, t), sum)
  {
    if paused {
      PausedState(s, log, total, sum, tic, v, t);
    } else {
      GoingState(s, log, total, v, t);
    }
  }

  lemma WasRunning(s: Sys, log: Log, tic: int)
    requires SysOk(s, log) && !s.st.INVALID? && Refetched(s, tic).st.RUN?
    ensures s.st.RUN?
  {
  }

  lemma RunningRound(maps: seq<seq<int>>, start: Vm, logs: seq<Log>, r: Run, n: nat)
    requires Reached(maps, start, r.m) && RunOk(logs, r) && Reads(r.m.sys) && AllTied(maps, |r.m.sys|)
    requires n + 1 == |r.m.sys| && Fetches(r)[n].st.RUN? && LastState(logs[n], r.m.sys[n], r.totals[n])
    requires Live(Fetches(r)) > 0
    ensures LastState(logs[n], NextRound(maps, r).m.sys[n], CheckOf(r).sums[n])
  {
    var s, f, log := r.m.sys[n], Fetches(r)[n], logs[n];
    WasRunning(s, log, r.tic);
    SeesGap(log, s, f, r.stamps[n], r.tic);
    var e := NumDone(s);
    var sum := AddGap(r.totals[n], GapAfter(log, e));
    FetchedState(s, log, r.totals[n], r.tic);
    RunningChecked(maps, start, logs, r, n, e, sum);
    if |PhasesOf(f.src)| == 1 {
      FirstAsks(f, log, r.totals[n], e, sum);
    }
    PausesAt(r, n);
    var v, t := RoundOf(maps, logs, r, n);
    RunningTurn(f, log, r.totals[n], sum, CheckOf(r).fired != [], r.tic, v, t);
  }

  /** The last system in any other round. */
  lemma WaitingRound(maps: seq<seq<int>>, logs: seq<Log>, r: Run, n: nat)
    requires RunOk(logs, r) && Reads(r.m.sys) && Live(Fetches(r)) > 0
    requires n + 1 == |r.m.sys| && !Fetches(r)[n].st.RUN? && LastState(logs[n], r.m.sys[n], r.totals[n])
    ensures LastState(logs[n], NextRound(maps, r).m.sys[n], CheckOf(r).sums[n])
  {
    var f, log := Fetches(r)[n], logs[n];
    FetchedState(r.m.sys[n], log, r.totals[n], r.tic);
    IdleTotal(r, n);
    PausesAt(r, n);
    var v, t := RoundOf(maps, logs, r, n);
    IdleState(f, log, r.totals[n], Pauses(r)[n], v, t);
  }

  lemma LastRound(maps: seq<seq<int>>, start: Vm, logs: seq<Log>, r: Run)
    requires Reached(maps, start, r.m) && RunOk(logs, r) && Reads(r.m.sys) && AllTied(maps, |r.m.sys|)
    requires LastOk(logs, r)
    ensures LastOk(logs, NextRound(maps, r))
  {
    var n := |logs| - 1;
    if Live(Fetches(r)) == 0 {
      FetchedState(r.m.sys[n], logs[n], r.totals[n], r.tic);
    } else if Fetches(r)[n].st.RUN? {
      RunningRound(maps, start, logs, r, n);
    } else {
      WaitingRound(maps, logs, r, n);
    }
  }

  lemma OpeningLast(maps: seq<seq<int>>, sys: seq<Sys>)
    requires AllUntouched(sys) && Reads(sys) && sys != []
    ensures LastOk(Logs(sys), Opening(maps, sys))
  {
    var n, s := |sys| - 1, FetchedUpTo(sys, true, 0, |sys|);
    UntouchedOk(sys);
    FetchRound(sys, true, 0);
    FetchOk(sys, Logs(sys), true, 0);
    FetchOnce(sys[n], Logs(sys)[n], true, 0);
    var v, t := DispatchOf(maps, Vm(s, [], []), Stamps(s), seq(|sys|, _ => INF_QTIME), 0, n);
    OpeningState(sys[n], Logs(sys)[n]);
    IdleState(s[n], Logs(sys)[n], INF_QTIME, s[n], v, t);
  }

  lemma OpeningState(s: Sys, log: Log)
    requires Untouched(s) && SysOk(s, log) && !NextEntry(s.unread).Corrupt?
    ensures LastState(log, Refetched(Booted(s, true, 0), 0), INF_QTIME)
  {
    SilentOk(s, log, INIT);
    RefillOk(Booted(s, true, 0), log, 0);
  }

  /** At every moment of every execution, the last system has been paused if and only if one of its
      gaps so far has asked for it. */
  lemma LastSystem(maps: seq<seq<int>>, sys: seq<Sys>, rs: seq<Run>, k: nat)
    requires AllUntouched(sys) && IsRun(maps, sys, rs) && AllTied(maps, |sys|) && sys != [] && k < |rs|
    ensures LastOk(Logs(sys), rs[k])
  {
    var P := (r: Run) => RunOk(Logs(sys), r) && LastOk(Logs(sys), r);
    FirstOk(maps, sys, rs);
    OpeningLast(maps, sys);
    forall j: nat | j + 1 < |rs| && P(rs[j]) ensures P(rs[j + 1]) {
      StepOk(maps, sys, rs, j);
      assert LinkAt(rs, Step(maps), j);
      RunReached(maps, sys, rs, j);
      LastRound(maps, Vm(sys, [], []), Logs(sys), rs[j]);
    }
    Throughout(rs, P, k);
  }

  lemma EndState(s: Sys, log: Log, total: real)
    requires SysOk(s, log) && LastState(log, s, total) && s.st.FINALIZE?
    ensures |PhasesOf(s.src)| > 1 <==> !NeverAsks(log)
  {
    if PhasesOf(s.src) == [] {
      assert NumDone(s) == 0;
    }
  }

  lemma SystemAt(maps: seq<seq<int>>, sys: seq<Sys>, rs: seq<Run>, k: nat, i: nat)
    requires AllUntouched(sys) && IsRun(maps, sys, rs) && k < |rs| && i < |sys|
    ensures |rs[k].m.sys| == |sys| && SysOk(rs[k].m.sys[i], Logs(sys)[i])
  {
    RoundsOk(maps, sys, rs, k);
  }

  lemma LastAt(logs: seq<Log>, r: Run, n: nat)
    requires LastOk(logs, r) && n + 1 == |logs|
    ensures |r.m.sys| == |logs| && |r.totals| == |logs| && LastState(logs[n], r.m.sys[n], r.totals[n])
  {
  }

  lemma LastFacts(maps: seq<seq<int>>, sys: seq<Sys>, rs: seq<Run>, end: Vm, n: nat) returns (total: real)
    requires AllUntouched(sys) && IsRun(maps, sys, rs) && AllTied(maps, |sys|) && n + 1 == |sys|
    requires end == rs[|rs| - 1].m
    ensures |end.sys| == |sys| && SysOk(end.sys[n], Logs(sys)[n]) && LastState(Logs(sys)[n], end.sys[n], total)
  {
    var r, logs := rs[|rs| - 1], Logs(sys);
    LastSystem(maps, sys, rs, |rs| - 1);
    LastAt(logs, r, n);
    SystemAt(maps, sys, rs, |rs| - 1, n);
    total := r.totals[n];
  }

  /** The last system of a finished execution has more than one phase if and only if some gap of its
      trace asks for a pause. */
  lemma LastPhases(maps: seq<seq<int>>, sys: seq<Sys>, rs: seq<Run>, end: Vm)
    requires AllUntouched(sys) && IsRun(maps, sys, rs) && AllTied(maps, |sys|) && sys != []
    requires end == rs[|rs| - 1].m && forall i :: 0 <= i < |end.sys| ==> end.sys[i].st.FINALIZE?
    ensures |end.sys| == |sys|
    ensures |PhasesOf(end.sys[|sys| - 1].src)| > 1 <==> !NeverAsks(Logs(sys)[|sys| - 1])
  {
    var total := LastFacts(maps, sys, rs, end, |sys| - 1);
    EndState(end.sys[|sys| - 1], Logs(sys)[|sys| - 1], total);
  }
}
