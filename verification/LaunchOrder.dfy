/** In which order the systems start when all of them depend on each other: by the time stamps of
    their first calls. */
module LaunchOrder {
  import opened Trace
  import opened Engine
  import opened Phases
  import opened Replay
  import opened Machine
  import opened ReadyPass
  import opened RunPass
  import opened Bookkeeping
  import opened Quiescence
  import opened Rounds
  import opened Runs
  import opened Executions

  /** Any two of the first n systems are the same or depend on each other. */
  ghost predicate AllTied(maps: seq<seq<int>>, n: nat) {
    forall i: nat, j: nat :: i < n && j < n ==> Related(maps, i, j)
  }

  /** The systems that a run pass starts, in order. */
  function Launched(sys: seq<Sys>, order: seq<nat>): seq<nat>
    requires forall p :: 0 <= p < |order| ==> order[p] < |sys|
  {
    if order == [] then []
    else
      var v := order[|order| - 1];
      Launched(sys, order[..|order| - 1]) + if sys[v].st.READY? && sys[v].pending.Some? then [v] else []
  }

  lemma {:induction false} RunSeqGrows(m: Vm, order: seq<nat>, tic: int)
    requires Distinct(order, |m.sys|)
    ensures RanAll(m, order, tic).0.runSeq == m.runSeq + Launched(m.sys, order)
    decreases |order|
  {
    if order != [] {
      var init, v := order[..|order| - 1], order[|order| - 1];
      RunSeqGrows(m, init, tic);
      OneTurn(m, init, tic);
      assert v !in init;
    }
  }

  lemma {:induction false} OnlyOneLaunched(sys: seq<Sys>, order: seq<nat>, i: nat)
    requires Distinct(order, |sys|) && forall k :: 0 <= k < |sys| && sys[k].st.READY? ==> k == i
    requires i < |sys| && sys[i].pending.Some?
    ensures Launched(sys, order) == if i in order && sys[i].st.READY? then [i] else []
    decreases |order|
  {
    if order != [] {
      var init, v := order[..|order| - 1], order[|order| - 1];
      assert order == init + [v] && v !in init;
      OnlyOneLaunched(sys, init, i);
    }
  }

  lemma {:induction false} NobodyLaunched(sys: seq<Sys>, order: seq<nat>)
    requires forall p :: 0 <= p < |order| ==> order[p] < |sys|
    requires forall k :: 0 <= k < |sys| ==> !sys[k].st.READY?
    ensures Launched(sys, order) == []
    decreases |order|
  {
    if order != [] {
      NobodyLaunched(sys, order[..|order| - 1]);
    }
  }

  /** The system that starts is eligible, and all other eligible ones come before it in the order of
      visits. */
  ghost predicate IsNext(maps: seq<seq<int>>, sys: seq<Sys>, ts: seq<real>, i: nat)
    requires |ts| == |sys|
  {
    Eligible(maps, sys, i) && forall j: nat :: Eligible(maps, sys, j) && j != i ==> Before(ts, j, i)
  }

  lemma ReadyIsNext(maps: seq<seq<int>>, sys: seq<Sys>, ts: seq<real>, i: nat)
    requires |ts| == |sys| && i < |sys| && AllTied(maps, |sys|) && Rested(sys)
    requires VisitAll(maps, sys, VisitOrder(ts))[i].st.READY?
    ensures IsNext(maps, sys, ts, i)
  {
    ReadyAreLocalMinima(maps, sys, ts, i);
    forall j: nat | Eligible(maps, sys, j) && j != i ensures Before(ts, j, i) {
      assert Related(maps, i, j);
    }
  }

  /** A dispatch starts at most one system, the next one. */
  lemma DispatchLaunches(maps: seq<seq<int>>, m: Vm, times: seq<Stamp>, totals: seq<real>, tic: int)
    requires Rested(m.sys) && AllSettled(m.sys) && AllTied(maps, |m.sys|) && |times| == |totals| == |m.sys|
    ensures
      var r := Dispatch(maps, m, times, totals, tic).m;
      r.runSeq == m.runSeq
      || exists i: nat :: IsNext(maps, m.sys, Starts(times), i) && r.runSeq == m.runSeq + [i]
  {
    var ts := Starts(times);
    var order := VisitOrder(ts);
    var v := VisitAll(maps, m.sys, order);
    RunSeqGrows(m.(sys := v), order, tic);
    if i: nat :| i < |v| && v[i].st.READY? {
      ReadyIsNext(maps, m.sys, ts, i);
      forall k | 0 <= k < |v| && v[k].st.READY? ensures k == i {
        ReadyIsNext(maps, m.sys, ts, k);
      }
      PassKeeps(maps, m.sys, order);
      assert Restated(m.sys[i], v[i]);
      OnlyOneLaunched(v, order, i);
    } else {
      NobodyLaunched(v, order);
    }
  }

  /** System j's first call was entered after system i's, or at the same time with j before i in the
      list. */
  predicate Later(logs: seq<Log>, j: nat, i: nat) {
    && i < |logs| && j < |logs| && logs[i].entries != [] && logs[j].entries != []
    && var t, u := logs[i].entries[0].enter, logs[j].entries[0].enter;
       u > t || (u == t && j < i)
  }

  /** Systems that have not started yet come later than those that have, and the order of the first
      starts is that of the first calls. */
  ghost predicate InOrder(logs: seq<Log>, runs: seq<nat>) {
    && (forall i, j: nat :: i in runs && j < |logs| && j !in runs && logs[j].entries != [] ==> Later(logs, j, i))
    && (forall a, b :: 0 <= a < b < |runs| && runs[b] !in runs[..b] ==> Later(logs, runs[b], runs[a]))
  }

  lemma InOrderGrows(logs: seq<Log>, runs: seq<nat>, i: nat)
    requires InOrder(logs, runs) && i < |logs| && logs[i].entries != []
    requires i !in runs ==>
               forall j: nat :: j < |logs| && j != i && j !in runs && logs[j].entries != [] ==> Later(logs, j, i)
    ensures InOrder(logs, runs + [i])
  {
    var more := runs + [i];
    forall x, j: nat | x in more && j < |logs| && j !in more && logs[j].entries != [] ensures Later(logs, j, x) {
      assert j !in runs && j != i;
      assert x in runs || x == i;
    }
    forall a, b | 0 <= a < b < |more| && more[b] !in more[..b] ensures Later(logs, more[b], more[a]) {
      if b < |runs| {
        assert more[..b] == runs[..b] && more[b] == runs[b] && more[a] == runs[a];
      } else {
        assert more[..b] == runs && more[a] == runs[a] && runs[a] in runs;
      }
    }
  }

  /** The run sequence names exactly the systems that have a phase. */
  ghost predicate NamesStarted(m: Vm) {
    && (forall i: nat :: i in m.runSeq ==> i < |m.sys|)
    && forall i: nat :: i < |m.sys| ==> (i in m.runSeq <==> PhasesOf(m.sys[i].src) != [])
  }

  lemma {:induction false} CountIn(s: seq<nat>, x: nat)
    ensures x in s <==> Count(s, x) > 0
    decreases |s|
  {
    if s != [] {
      CountIn(s[..|s| - 1], x);
      assert s == s[..|s| - 1] + [s[|s| - 1]];
    }
  }

  lemma ReachedNames(maps: seq<seq<int>>, start: Vm, m: Vm)
    requires Reached(maps, start, m)
    ensures NamesStarted(m)
  {
    ReachedInv(maps, start, m);
    forall i: nat | i < |m.sys| ensures i in m.runSeq <==> PhasesOf(m.sys[i].src) != [] {
      CountIn(m.runSeq, i);
    }
  }

  /** A system without a phase whose trace is not empty holds its first call. */
  lemma NotStarted(s: Sys, log: Log)
    requires SysOk(s, log) && !s.st.READY? && !s.st.INVALID? && Settled(s)
    requires PhasesOf(s.src) == [] && log.entries != []
    ensures (s.st.INIT? || s.st.QUIESCENT?) && s.pending == Some(log.entries[0])
  {
    assert log.entries[0..] == log.entries;
    if s.pending.Some? {
      assert Rest(s)[0] == s.pending.value;
    }
  }

  lemma HoldsEntry(s: Sys, log: Log)
    requires SysOk(s, log) && !s.st.FINALIZE? && s.pending.Some?
    ensures log.entries != []
  {
    assert Rest(s) != [];
  }

  /** What starts next is in order. */
  lemma NextInOrder(maps: seq<seq<int>>, logs: seq<Log>, m: Vm, i: nat)
    requires AllOk(m.sys, logs) && NamesStarted(m) && Rested(m.sys) && AllSettled(m.sys) && AllTied(maps, |m.sys|)
    requires IsNext(maps, m.sys, Starts(Stamps(m.sys)), i) && InOrder(logs, m.runSeq)
    ensures InOrder(logs, m.runSeq + [i])
  {
    var ts := Starts(Stamps(m.sys));
    HoldsEntry(m.sys[i], logs[i]);
    if i !in m.runSeq {
      NotStarted(m.sys[i], logs[i]);
      forall j: nat | j < |logs| && j != i && j !in m.runSeq && logs[j].entries != [] ensures Later(logs, j, i) {
        NotStarted(m.sys[j], logs[j]);
        NobodyRuns(maps, m.sys, i, j);
        assert Eligible(maps, m.sys, j) && Before(ts, j, i);
      }
    }
    InOrderGrows(logs, m.runSeq, i);
  }

  lemma NobodyRuns(maps: seq<seq<int>>, sys: seq<Sys>, i: nat, j: nat)
    requires AllTied(maps, |sys|) && Eligible(maps, sys, i) && j < |sys|
    ensures !RunningDependent(maps, sys, j)
  {
    forall d: nat | d < |sys| && Dependent(maps, j, d) ensures !sys[d].st.RUN? {
      assert Related(maps, i, d);
    }
  }

  lemma DispatchInOrder(maps: seq<seq<int>>, logs: seq<Log>, m: Vm, totals: seq<real>, tic: int)
    requires AllOk(m.sys, logs) && NamesStarted(m) && Rested(m.sys) && AllSettled(m.sys) && AllTied(maps, |m.sys|)
    requires |totals| == |m.sys| && InOrder(logs, m.runSeq)
    ensures InOrder(logs, Dispatch(maps, m, Stamps(m.sys), totals, tic).m.runSeq)
  {
    DispatchLaunches(maps, m, Stamps(m.sys), totals, tic);
    var r := Dispatch(maps, m, Stamps(m.sys), totals, tic).m;
    if r.runSeq != m.runSeq {
      var i: nat :| IsNext(maps, m.sys, Starts(Stamps(m.sys)), i) && r.runSeq == m.runSeq + [i];
      NextInOrder(maps, logs, m, i);
    }
  }

  lemma OpeningInOrder(maps: seq<seq<int>>, sys: seq<Sys>)
    requires AllUntouched(sys) && Reads(sys) && AllTied(maps, |sys|)
    ensures InOrder(Logs(sys), Opening(maps, sys).m.runSeq)
  {
    var start, s := Vm(sys, [], []), FetchedUpTo(sys, true, 0, |sys|);
    ReachedInitial(maps, start);
    FetchesReached(maps, start, start, true, 0, |sys|);
    ReachedNames(maps, start, Vm(s, [], []));
    UntouchedOk(sys);
    FetchOk(sys, Logs(sys), true, 0);
    FetchRound(sys, true, 0);
    DispatchInOrder(maps, Logs(sys), Vm(s, [], []), seq(|sys|, _ => INF_QTIME), 0);
  }

  lemma RoundInOrder(maps: seq<seq<int>>, start: Vm, logs: seq<Log>, r: Run)
    requires Reached(maps, start, r.m) && RunOk(logs, r) && Reads(r.m.sys) && AllTied(maps, |r.m.sys|)
    requires InOrder(logs, r.m.runSeq)
    ensures InOrder(logs, NextRound(maps, r).m.runSeq)
  {
    if Live(Fetches(r)) > 0 {
      var m := r.m.(sys := Pauses(r));
      PausedReached(maps, start, logs, r);
      ReachedNames(maps, start, m);
      PausesOk(logs, r);
      DispatchInOrder(maps, logs, m, CheckOf(r).sums, r.tic);
    }
  }

  /** At every moment of every execution, the systems have started in the order of their first
      calls. */
  lemma StartsInOrder(maps: seq<seq<int>>, sys: seq<Sys>, rs: seq<Run>, k: nat)
    requires AllUntouched(sys) && IsRun(maps, sys, rs) && AllTied(maps, |sys|) && k < |rs|
    ensures InOrder(Logs(sys), rs[k].m.runSeq)
  {
    var P := (r: Run) => RunOk(Logs(sys), r) && InOrder(Logs(sys), r.m.runSeq);
    FirstOk(maps, sys, rs);
    OpeningInOrder(maps, sys);
    forall j: nat | j + 1 < |rs| && P(rs[j]) ensures P(rs[j + 1]) {
      StepOk(maps, sys, rs, j);
      assert LinkAt(rs, Step(maps), j);
      RunReached(maps, sys, rs, j);
      RoundInOrder(maps, Vm(sys, [], []), Logs(sys), rs[j]);
    }
    Throughout(rs, P, k);
  }
}
