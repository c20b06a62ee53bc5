/** Every execution as a sequence of rounds is a run of the state machine, and what the quiescence
    check as written does to the phases over whole executions. */
module Executions {
  import opened Trace
  import opened Engine
  import opened Machine
  import opened ReadyPass
  import opened RunPass
  import opened Bookkeeping
  import opened Quiescence
  import opened Rounds
  import opened Runs

  lemma FetchOneReached(maps: seq<seq<int>>, start: Vm, m: Vm, i: nat, booting: bool, tic: int)
    requires Reached(maps, start, m) && i < |m.sys| && (m.sys[i].st.INVALID? <==> booting)
    requires m.sys[i].st.FINALIZE? || m.sys[i].pending.Some? || !NextEntry(m.sys[i].unread).Corrupt?
    ensures Reached(maps, start, m.(sys := m.sys[i := Refetched(Booted(m.sys[i], booting, tic), tic)]))
  {
    var s := m.sys[i];
    var b := Booted(s, booting, tic);
    var n := m.(sys := m.sys[i := b]);
    if booting {
      ReachedBoot(maps, start, m, i, tic);
    } else {
      assert n == m;
    }
    if b.st.FINALIZE? {
      assert m.sys[i := Refetched(b, tic)] == n.sys;
    } else {
      ReachedFetch(maps, start, n, i, tic);
      assert n.sys[i := Refill(b, tic)] == m.sys[i := Refetched(b, tic)];
    }
  }

  lemma {:induction false} FetchesReached(maps: seq<seq<int>>, start: Vm, m: Vm, booting: bool, tic: int, n: nat)
    requires Reached(maps, start, m) && n <= |m.sys| && Reads(m.sys)
    requires forall k :: 0 <= k < |m.sys| ==> (m.sys[k].st.INVALID? <==> booting)
    ensures Reached(maps, start, m.(sys := FetchedUpTo(m.sys, booting, tic, n)))
  {
    if n == 0 {
      FetchedNone(m.sys, booting, tic);
    } else {
      FetchesReached(maps, start, m, booting, tic, n - 1);
      FetchedStep(m.sys, booting, tic, n - 1);
      FetchOneReached(maps, start, m.(sys := FetchedUpTo(m.sys, booting, tic, n - 1)), n - 1, booting, tic);
    }
  }

  lemma MovedReached(maps: seq<seq<int>>, start: Vm, m: Vm, moved: bool, tic: int)
    requires Reached(maps, start, m) && m.sys != [] && Rested(m.sys) && AllSettled(m.sys)
    ensures Reached(maps, start, m.(sys := Moved(m.sys, moved, tic)))
  {
    ReachedQuiesce(maps, start, m, |m.sys| - 1, tic);
  }

  lemma {:induction false} VisitsReached(maps: seq<seq<int>>, start: Vm, m: Vm, order: seq<nat>, tic: int)
    requires Reached(maps, start, m) && Rested(m.sys) && AllSettled(m.sys)
    requires forall p :: 0 <= p < |order| ==> order[p] < |m.sys|
    ensures Reached(maps, start, m.(sys := VisitAll(maps, m.sys, order)))
    decreases |order|
  {
    if order != [] {
      var init, v := order[..|order| - 1], order[|order| - 1];
      VisitsReached(maps, start, m, init, tic);
      PassKeeps(maps, m.sys, init);
      assert Restated(m.sys[v], VisitAll(maps, m.sys, init)[v]);
      ReachedVisit(maps, start, m.(sys := VisitAll(maps, m.sys, init)), v, tic);
    }
  }

  lemma TurnReached(maps: seq<seq<int>>, start: Vm, m: Vm, i: nat, tic: int)
    requires Reached(maps, start, m) && i < |m.sys|
    ensures Reached(maps, start, Turn(m, i, tic))
  {
    if m.sys[i].pending.Some? && m.sys[i].st.READY? {
      ReachedStart(maps, start, m, i, tic);
    } else if m.sys[i].pending.Some? && m.sys[i].st.RUN? {
      ReachedContinue(maps, start, m, i, tic);
    }
  }

  lemma {:induction false} TurnsReached(maps: seq<seq<int>>, start: Vm, m: Vm, order: seq<nat>, tic: int)
    requires Reached(maps, start, m) && forall p :: 0 <= p < |order| ==> order[p] < |m.sys|
    ensures Reached(maps, start, RanAll(m, order, tic).0)
    decreases |order|
  {
    if order != [] {
      var init, v := order[..|order| - 1], order[|order| - 1];
      TurnsReached(maps, start, m, init, tic);
      var (n, t) := RanAll(m, init, tic);
      TurnReached(maps, start, n, v, t);
    }
  }

  lemma DispatchReached(maps: seq<seq<int>>, start: Vm, m: Vm, times: seq<Stamp>, totals: seq<real>, tic: int)
    requires Reached(maps, start, m) && Rested(m.sys) && AllSettled(m.sys) && |times| == |totals| == |m.sys|
    ensures Reached(maps, start, Dispatch(maps, m, times, totals, tic).m)
  {
    var order := VisitOrder(Starts(times));
    VisitsReached(maps, start, m, order, tic);
    TurnsReached(maps, start, m.(sys := VisitAll(maps, m.sys, order)), order, tic);
  }

  lemma OpeningReached(maps: seq<seq<int>>, sys: seq<Sys>)
    requires AllUntouched(sys) && Reads(sys)
    ensures Reached(maps, Vm(sys, [], []), Opening(maps, sys).m)
  {
    var start, s := Vm(sys, [], []), FetchedUpTo(sys, true, 0, |sys|);
    ReachedInitial(maps, start);
    FetchesReached(maps, start, start, true, 0, |sys|);
    UntouchedOk(sys);
    FetchOk(sys, Logs(sys), true, 0);
    FetchRound(sys, true, 0);
    DispatchReached(maps, start, Vm(s, [], []), Stamps(s), seq(|sys|, _ => INF_QTIME), 0);
  }

  lemma FetchedReached(maps: seq<seq<int>>, start: Vm, logs: seq<Log>, r: Run)
    requires Reached(maps, start, r.m) && RunOk(logs, r) && Reads(r.m.sys)
    ensures Reached(maps, start, r.m.(sys := Fetches(r)))
    ensures Rested(Fetches(r)) && AllSettled(Fetches(r))
  {
    FetchesReached(maps, start, r.m, false, r.tic, |r.m.sys|);
    FetchOk(r.m.sys, logs, false, r.tic);
    FetchRound(r.m.sys, false, r.tic);
  }

  lemma PausedReached(maps: seq<seq<int>>, start: Vm, logs: seq<Log>, r: Run)
    requires Reached(maps, start, r.m) && RunOk(logs, r) && Reads(r.m.sys) && Live(Fetches(r)) > 0
    ensures Reached(maps, start, r.m.(sys := Pauses(r)))
  {
    FetchedReached(maps, start, logs, r);
    MovedReached(maps, start, r.m.(sys := Fetches(r)), CheckOf(r).fired != [], r.tic);
  }

  lemma NextReached(maps: seq<seq<int>>, start: Vm, logs: seq<Log>, r: Run)
    requires Reached(maps, start, r.m) && RunOk(logs, r) && Reads(r.m.sys)
    ensures Reached(maps, start, NextRound(maps, r).m)
  {
    if Live(Fetches(r)) > 0 {
      PausedReached(maps, start, logs, r);
      PausesOk(logs, r);
      DispatchReached(maps, start, r.m.(sys := Pauses(r)), Stamps(Fetches(r)), CheckOf(r).sums, r.tic);
    } else {
      FetchedReached(maps, start, logs, r);
    }
  }

  /** Every state of every execution is reachable, so what holds of all reachable states holds of
      it. */
  lemma RunReached(maps: seq<seq<int>>, sys: seq<Sys>, rs: seq<Run>, k: nat)
    requires AllUntouched(sys) && IsRun(maps, sys, rs) && k < |rs|
    ensures Reached(maps, Vm(sys, [], []), rs[k].m)
  {
    var start := Vm(sys, [], []);
    var P := (r: Run) => RunOk(Logs(sys), r) && Reached(maps, start, r.m);
    FirstOk(maps, sys, rs);
    OpeningReached(maps, sys);
    forall j: nat | j + 1 < |rs| && P(rs[j]) ensures P(rs[j + 1]) {
      StepOk(maps, sys, rs, j);
      assert LinkAt(rs, Step(maps), j);
      NextReached(maps, start, Logs(sys), rs[j]);
    }
    Throughout(rs, P, k);
  }

  lemma RunGoesOn(maps: seq<seq<int>>, sys: seq<Sys>, rs: seq<Run>) returns (t: Run)
    requires AllReadable(sys) && IsRun(maps, sys, rs)
    ensures IsRun(maps, sys, rs + [t])
    ensures Live(t.m.sys) > 0 ==> Work(t.m.sys) < Work(rs[|rs| - 1].m.sys)
  {
    var r := rs[|rs| - 1];
    RoundsOk(maps, sys, rs, |rs| - 1);
    OkReads(r.m.sys, Logs(sys));
    t := NextRound(maps, r);
    RoundDue(maps, sys, rs, r, t);
  }

  lemma {:induction false} RunEnds(maps: seq<seq<int>>, sys: seq<Sys>, rs: seq<Run>) returns (more: seq<Run>)
    requires AllReadable(sys) && IsRun(maps, sys, rs)
    ensures IsRun(maps, sys, more) && forall s :: s in more[|more| - 1].m.sys ==> s.st.FINALIZE?
    decreases Work(rs[|rs| - 1].m.sys)
  {
    var t := RunGoesOn(maps, sys, rs);
    if Live(t.m.sys) > 0 {
      more := RunEnds(maps, sys, rs + [t]);
    } else {
      more := rs + [t];
      LiveZero(t.m.sys);
    }
  }

  /** On logs that can be read to their ends there is an execution to the end. */
  lemma RunToEnd(maps: seq<seq<int>>, sys: seq<Sys>) returns (rs: seq<Run>)
    requires AllReadable(sys)
    ensures IsRun(maps, sys, rs) && forall s :: s in rs[|rs| - 1].m.sys ==> s.st.FINALIZE?
  {
    rs := RunOfLength(maps, sys, 1);
    rs := RunEnds(maps, sys, rs);
  }
}
