/** One round of the VM: what fetching, pausing, the ready pass and the run pass together do to
    the systems. */
module Rounds {
  import opened Trace
  import opened Engine
  import opened Phases
  import opened Machine
  import opened ReadyPass
  import opened RunPass
  import opened Bookkeeping
  import opened Quiescence

  /** Between rounds nobody is READY or INVALID. */
  ghost predicate Rested(sys: seq<Sys>) {
    forall i :: 0 <= i < |sys| ==> !sys[i].st.READY? && !sys[i].st.INVALID?
  }

  ghost predicate AllSettled(sys: seq<Sys>) {
    forall i :: 0 <= i < |sys| ==> Settled(sys[i])
  }

  /** The effect of the fetch pass on one system. */
  function Refetched(s: Sys, tic: int): Sys {
    if s.st.FINALIZE? || (s.pending.None? && NextEntry(s.unread).Corrupt?) then s else Refill(s, tic)
  }

  function Booted(s: Sys, booting: bool, tic: int): Sys {
    if booting then Transition(s, INIT, tic) else s
  }

  /** The effect of the fetch pass on the first n systems. */
  function FetchedUpTo(sys: seq<Sys>, booting: bool, tic: int, n: nat): (r: seq<Sys>)
    ensures |r| == |sys|
  {
    seq(|sys|, k requires 0 <= k < |sys| => if k < n then Refetched(Booted(sys[k], booting, tic), tic) else sys[k])
  }

  lemma FetchedNone(sys: seq<Sys>, booting: bool, tic: int)
    ensures FetchedUpTo(sys, booting, tic, 0) == sys
  {
  }

  lemma FetchedStep(sys: seq<Sys>, booting: bool, tic: int, n: nat)
    requires n < |sys|
    ensures FetchedUpTo(sys, booting, tic, n)[n] == sys[n]
    ensures FetchedUpTo(sys, booting, tic, n)[n := Refetched(Booted(sys[n], booting, tic), tic)]
            == FetchedUpTo(sys, booting, tic, n + 1)
  {
  }

  /** The row of the VM's lists that a fetched system fills: zeros once it is finalized. */
  function Row(t: Sys): (Stamp, string) {
    if t.st.FINALIZE? || t.pending.None? then ((0.0, 0.0), "")
    else ((t.pending.value.enter, t.pending.value.exit), t.pending.value.text)
  }

  /** The rows that the first n systems fill when fetched. */
  ghost predicate ListedUpTo(sys: seq<Sys>, booting: bool, tic: int, times: seq<Stamp>, instrs: seq<string>, n: nat) {
    |times| == |instrs| == n <= |sys|
    && forall k :: 0 <= k < n ==>
         var t := Refetched(Booted(sys[k], booting, tic), tic); Settled(t) && (times[k], instrs[k]) == Row(t)
  }

  lemma ListedStep(sys: seq<Sys>, booting: bool, tic: int, times: seq<Stamp>, instrs: seq<string>,
                   t: Stamp, instr: string)
    requires ListedUpTo(sys, booting, tic, times, instrs, |times|) && |times| < |sys|
    requires var r := Refetched(Booted(sys[|times|], booting, tic), tic); Settled(r) && (t, instr) == Row(r)
    ensures ListedUpTo(sys, booting, tic, times + [t], instrs + [instr], |times| + 1)
  {
    var n := |times|;
    forall k | 0 <= k < n + 1
      ensures
        var r := Refetched(Booted(sys[k], booting, tic), tic);
        Settled(r) && ((times + [t])[k], (instrs + [instr])[k]) == Row(r)
    {
      if k < n {
        assert (times + [t])[k] == times[k] && (instrs + [instr])[k] == instrs[k];
      }
    }
  }

  lemma ListedAll(sys: seq<Sys>, booting: bool, tic: int, times: seq<Stamp>, instrs: seq<string>)
    requires ListedUpTo(sys, booting, tic, times, instrs, |sys|)
    ensures AllSettled(FetchedUpTo(sys, booting, tic, |sys|))
    ensures Listed(FetchedUpTo(sys, booting, tic, |sys|), times, instrs)
  {
  }

  /** Fetching leaves as much to do as before and makes nobody READY or RUN. */
  predicate SameDuty(s: Sys, t: Sys) {
    Left(t) == Left(s) && (t.st.RUN? ==> s.st.RUN?) && !t.st.READY? && !t.st.INVALID?
  }

  lemma RefetchedDuty(s: Sys, booting: bool, tic: int)
    requires s.st.INVALID? <==> booting
    requires !s.st.READY?
    ensures SameDuty(s, Refetched(Booted(s, booting, tic), tic))
  {
  }

  lemma FetchRound(sys: seq<Sys>, booting: bool, tic: int)
    requires forall i :: 0 <= i < |sys| ==> (sys[i].st.INVALID? <==> booting) && !sys[i].st.READY?
    ensures forall i :: 0 <= i < |sys| ==> SameDuty(sys[i], FetchedUpTo(sys, booting, tic, |sys|)[i])
    ensures Rested(FetchedUpTo(sys, booting, tic, |sys|))
    ensures Work(FetchedUpTo(sys, booting, tic, |sys|)) <= Work(sys)
  {
    var r := FetchedUpTo(sys, booting, tic, |sys|);
    forall i | 0 <= i < |sys| ensures SameDuty(sys[i], r[i]) {
      RefetchedDuty(sys[i], booting, tic);
    }
    WorkFalls(sys, r, -1);
  }

  lemma StampedSame(logs: seq<Log>, sys: seq<Sys>, r: seq<Sys>, prev: seq<Stamp>)
    requires Stamped(logs, sys, prev) && |r| == |sys|
    requires forall i :: 0 <= i < |sys| && r[i].st.RUN? ==> sys[i].st.RUN? && Left(r[i]) == Left(sys[i])
    ensures Stamped(logs, r, prev)
  {
  }

  /** A move to QUIESCENT executes nothing. */
  predicate Paused(s: Sys, t: Sys) {
    && t.pending == s.pending && Left(t) == Left(s) && (t.st.FINALIZE? <==> s.st.FINALIZE?)
    && (t.st.RUN? ==> s.st.RUN?) && (t.st.READY? ==> s.st.READY?) && (t.st.INVALID? ==> s.st.INVALID?)
  }

  lemma PausedOne(s: Sys, tic: int)
    ensures Paused(s, Transition(s, QUIESCENT, tic))
  {
  }

  lemma MovedPaused(sys: seq<Sys>, moved: bool, tic: int)
    requires sys != []
    ensures forall i :: 0 <= i < |sys| ==> Paused(sys[i], Moved(sys, moved, tic)[i])
  {
    PausedOne(sys[|sys| - 1], tic);
  }

  /** The check moves at most one system, to QUIESCENT, with nothing executed. */
  lemma MoveRound(sys: seq<Sys>, r: seq<Sys>)
    requires |r| == |sys| && forall i :: 0 <= i < |sys| ==> Paused(sys[i], r[i])
    requires Rested(sys) && AllSettled(sys)
    ensures Rested(r) && AllSettled(r) && Live(r) == Live(sys) && Work(r) <= Work(sys)
  {
    LiveSame(sys, r);
    WorkFalls(sys, r, -1);
  }

  /** The ready pass and the run pass together. */
  function Dispatched(maps: seq<seq<int>>, m: Vm, order: seq<nat>, tic: int): (r: Vm)
    requires forall p :: 0 <= p < |order| ==> order[p] < |m.sys|
    ensures |r.sys| == |m.sys|
  {
    RanAll(m.(sys := VisitAll(maps, m.sys, order)), order, tic).0
  }

  /** What a round does to one system: it either executes its cached call and ends in RUN, or
      executes nothing and does not run. */
  predicate Served(s: Sys, r: Sys) {
    && (r.st.FINALIZE? <==> s.st.FINALIZE?) && !r.st.READY? && !r.st.INVALID?
    && (r.st.RUN? ==> s.pending.Some? && !s.st.FINALIZE? && Left(r) + 1 == Left(s))
    && (!r.st.RUN? ==> Left(r) == Left(s))
  }

  lemma ServedOne(s: Sys, v: Sys, r: Sys)
    requires Settled(s) && !s.st.INVALID? && Restated(s, v) && HadTurn(v, r)
    ensures Served(s, r)
  {
  }

  lemma DispatchServes(maps: seq<seq<int>>, m: Vm, order: seq<nat>, tic: int)
    requires Rested(m.sys) && AllSettled(m.sys)
    requires Distinct(order, |m.sys|) && forall i: nat :: i < |m.sys| ==> i in order
    ensures forall i :: 0 <= i < |m.sys| ==>
              HadTurn(VisitAll(maps, m.sys, order)[i], Dispatched(maps, m, order, tic).sys[i])
              && Served(m.sys[i], Dispatched(maps, m, order, tic).sys[i])
  {
    var sys := m.sys;
    var v, r := VisitAll(maps, sys, order), Dispatched(maps, m, order, tic).sys;
    PassKeeps(maps, sys, order);
    forall i | 0 <= i < |sys| && Active(v[i]) ensures v[i].pending.Some? {
      assert Restated(sys[i], v[i]);
    }
    RunPassEffect(m.(sys := v), order, tic);
    forall i | 0 <= i < |sys| ensures HadTurn(v[i], r[i]) && Served(sys[i], r[i]) {
      ServedOne(sys[i], v[i], r[i]);
    }
  }

  /** A round over unfinished systems executes at least one call. */
  lemma DispatchRound(maps: seq<seq<int>>, m: Vm, order: seq<nat>, tic: int)
    requires Rested(m.sys) && AllSettled(m.sys)
    requires Distinct(order, |m.sys|) && forall i: nat :: i < |m.sys| ==> i in order
    ensures
      var r := Dispatched(maps, m, order, tic).sys;
      Rested(r) && Live(r) == Live(m.sys) && (Live(m.sys) > 0 ==> Work(r) < Work(m.sys))
  {
    var sys, r := m.sys, Dispatched(maps, m, order, tic).sys;
    DispatchServes(maps, m, order, tic);
    forall i | 0 <= i < |sys|
      ensures !r[i].st.READY? && !r[i].st.INVALID? && Left(r[i]) <= Left(sys[i])
              && (r[i].st.FINALIZE? <==> sys[i].st.FINALIZE?)
    {
      assert Served(sys[i], r[i]);
    }
    LiveSame(sys, r);
    if Live(sys) > 0 {
      var k := SomeoneRuns(maps, sys, order);
      assert HadTurn(VisitAll(maps, sys, order)[k], r[k]) && Served(sys[k], r[k]);
      WorkFalls(sys, r, k);
    }
  }

  lemma SomeoneRuns(maps: seq<seq<int>>, sys: seq<Sys>, order: seq<nat>) returns (k: nat)
    requires Rested(sys) && Live(sys) > 0
    requires Distinct(order, |sys|) && forall i: nat :: i < |sys| ==> i in order
    ensures k < |sys| && Active(VisitAll(maps, sys, order)[k])
  {
    LiveZero(sys);
    if i: nat :| i < |sys| && sys[i].st.RUN? {
      PassExact(maps, sys, order);
      assert i in order;
      var p :| 0 <= p < |order| && order[p] == i;
      k := i;
      assert VisitAll(maps, sys, order)[order[p]] == sys[i];
    } else {
      var i: nat :| i < |sys| && !sys[i].st.FINALIZE?;
      SomeReady(maps, sys, order, i);
      k :| k < |sys| && VisitAll(maps, sys, order)[k].st.READY?;
    }
  }

  lemma StampedRound(logs: seq<Log>, sys: seq<Sys>, r: seq<Sys>, cur: seq<Stamp>)
    requires AllOk(sys, logs) && |r| == |sys| == |cur|
    requires forall i :: 0 <= i < |sys| ==> Served(sys[i], r[i]) && cur[i] == Row(sys[i]).0
    ensures Stamped(logs, r, cur)
  {
    forall i | 0 <= i < |sys| && r[i].st.RUN? ensures StampedAt(logs[i], Left(r[i]), cur[i]) {
      assert Served(sys[i], r[i]) && OnTrack(sys[i], logs[i]);
      PendingEntry(sys[i], logs[i]);
    }
  }

  /** The ready pass leaves the tally as it is. */
  lemma TallyVisit(maps: seq<seq<int>>, counts: seq<int>, sys: seq<Sys>, order: seq<nat>)
    requires |counts| == |sys| && forall p :: 0 <= p < |order| ==> order[p] < |sys|
    ensures Tally(counts, VisitAll(maps, sys, order)) == Tally(counts, sys)
  {
    PassKeeps(maps, sys, order);
    forall i | 0 <= i < |sys| ensures Left(VisitAll(maps, sys, order)[i]) == Left(sys[i]) {
      assert Restated(sys[i], VisitAll(maps, sys, order)[i]);
    }
  }

  function Starts(times: seq<Stamp>): (r: seq<real>)
    ensures |r| == |times| && forall k :: 0 <= k < |r| ==> r[k] == times[k].0
  {
    seq(|times|, k requires 0 <= k < |times| => times[k].0)
  }

  /** The VM's lists hold the cached calls of the live systems. */
  ghost predicate Listed(sys: seq<Sys>, times: seq<Stamp>, instrs: seq<string>) {
    |times| == |instrs| == |sys| && forall k :: 0 <= k < |sys| ==> (times[k], instrs[k]) == Row(sys[k])
  }

  lemma VisitedListed(maps: seq<seq<int>>, sys: seq<Sys>, order: seq<nat>, times: seq<Stamp>, instrs: seq<string>)
    requires Listed(sys, times, instrs) && AllSettled(sys)
    requires forall p :: 0 <= p < |order| ==> order[p] < |sys|
    ensures forall k :: 0 <= k < |sys| && Active(VisitAll(maps, sys, order)[k]) ==>
              VisitAll(maps, sys, order)[k].pending.Some?
              && instrs[k] == VisitAll(maps, sys, order)[k].pending.value.text
  {
    PassKeeps(maps, sys, order);
    forall k | 0 <= k < |sys| && Active(VisitAll(maps, sys, order)[k])
      ensures VisitAll(maps, sys, order)[k].pending.Some?
              && instrs[k] == VisitAll(maps, sys, order)[k].pending.value.text
    {
      assert Restated(sys[k], VisitAll(maps, sys, order)[k]);
      assert (times[k], instrs[k]) == Row(sys[k]);
    }
  }

  /** Executed and remaining calls add up to the trace. */
  ghost predicate AddsUp(logs: seq<Log>, counts: seq<int>, sys: seq<Sys>) {
    |counts| == |sys| == |logs| && Tally(counts, sys) == Lengths(logs)
  }

  function Lengths(logs: seq<Log>): seq<int> {
    seq(|logs|, k requires 0 <= k < |logs| => |logs[k].entries|)
  }

  lemma TallySame(counts: seq<int>, sys: seq<Sys>, r: seq<Sys>)
    requires |counts| == |sys| == |r| && forall i :: 0 <= i < |sys| ==> Left(r[i]) == Left(sys[i])
    ensures Tally(counts, r) == Tally(counts, sys)
  {
  }

  lemma PausedListed(sys: seq<Sys>, r: seq<Sys>, times: seq<Stamp>, instrs: seq<string>)
    requires Listed(sys, times, instrs) && |r| == |sys| && forall i :: 0 <= i < |sys| ==> Paused(sys[i], r[i])
    ensures Listed(r, times, instrs)
  {
    forall k | 0 <= k < |r| ensures (times[k], instrs[k]) == Row(r[k]) {
      assert Paused(sys[k], r[k]) && (times[k], instrs[k]) == Row(sys[k]);
    }
  }

  /** The first half of a round: fetching from s0 gives s1, the check turns that into s2. */
  lemma FirstHalf(s0: seq<Sys>, s1: seq<Sys>, s2: seq<Sys>, moved: bool, tic: int, times: seq<Stamp>,
                  instrs: seq<string>, ninstr: seq<int>)
    requires Rested(s0) && s0 != [] && s1 == FetchedUpTo(s0, false, tic, |s0|) && s2 == Moved(s1, moved, tic)
    requires AllSettled(s1) && Listed(s1, times, instrs) && |ninstr| == |s0|
    ensures Rested(s2) && AllSettled(s2) && Listed(s2, times, instrs)
    ensures Live(s2) == Live(s1) && Work(s2) <= Work(s0) && Tally(ninstr, s2) == Tally(ninstr, s0)
  {
    FetchRound(s0, false, tic);
    MovedPaused(s1, moved, tic);
    MoveRound(s1, s2);
    PausedListed(s1, s2, times, instrs);
    forall i | 0 <= i < |s0| ensures Left(s2[i]) == Left(s0[i]) {
      assert SameDuty(s0[i], s1[i]) && Paused(s1[i], s2[i]);
    }
    TallySame(ninstr, s0, s2);
  }

  lemma FetchStamped(logs: seq<Log>, s0: seq<Sys>, s1: seq<Sys>, tic: int, prev: seq<Stamp>)
    requires Rested(s0) && s1 == FetchedUpTo(s0, false, tic, |s0|) && Stamped(logs, s0, prev)
    ensures Rested(s1) && Stamped(logs, s1, prev)
  {
    FetchRound(s0, false, tic);
    forall i | 0 <= i < |s0| && s1[i].st.RUN? ensures s0[i].st.RUN? && Left(s1[i]) == Left(s0[i]) {
      assert SameDuty(s0[i], s1[i]);
    }
    StampedSame(logs, s0, s1, prev);
  }

  /** Start-up: fetching from the initial state s0 gives s1. */
  lemma BootHalf(s0: seq<Sys>, s1: seq<Sys>, tic: int, ninstr: seq<int>)
    requires forall i :: 0 <= i < |s0| ==> s0[i].st.INVALID?
    requires s1 == FetchedUpTo(s0, true, tic, |s0|) && |ninstr| == |s0|
    ensures Rested(s1) && Tally(ninstr, s1) == Tally(ninstr, s0)
  {
    FetchRound(s0, true, tic);
    forall i | 0 <= i < |s0| ensures Left(s1[i]) == Left(s0[i]) {
      assert SameDuty(s0[i], s1[i]);
    }
    TallySame(ninstr, s0, s1);
  }

  lemma FetchGaps(logs: seq<Log>, s1: seq<Sys>, prev: seq<Stamp>, times: seq<Stamp>, instrs: seq<string>)
    requires AllOk(s1, logs) && AllSettled(s1) && Stamped(logs, s1, prev) && Listed(s1, times, instrs)
    requires forall i :: 0 <= i < |s1| ==> Calm(logs[i])
    ensures GapsOk(s1, prev, times)
  {
    forall i | 0 <= i < |s1| && s1[i].st.RUN?
      ensures s1[i].pending.Some? && times[i].0 == s1[i].pending.value.enter
    {
      assert Settled(s1[i]) && (times[i], instrs[i]) == Row(s1[i]);
    }
    CalmGaps(logs, s1, prev, times);
  }

  /** The second half of a round, in which m is dispatched. */
  lemma SecondHalf(maps: seq<seq<int>>, logs: seq<Log>, m: Vm, times: seq<Stamp>, instrs: seq<string>, tic: int)
    requires Rested(m.sys) && AllSettled(m.sys) && Listed(m.sys, times, instrs) && AllOk(m.sys, logs)
    ensures
      var r := Dispatched(maps, m, VisitOrder(Starts(times)), tic).sys;
      && Rested(r) && Live(r) == Live(m.sys) && (Live(m.sys) > 0 ==> Work(r) < Work(m.sys))
      && Stamped(logs, r, times)
  {
    var order := VisitOrder(Starts(times));
    var r := Dispatched(maps, m, order, tic).sys;
    DispatchRound(maps, m, order, tic);
    DispatchServes(maps, m, order, tic);
    forall i | 0 <= i < |m.sys| ensures Served(m.sys[i], r[i]) && times[i] == Row(m.sys[i]).0 {
      assert (times[i], instrs[i]) == Row(m.sys[i]);
    }
    StampedRound(logs, m.sys, r, times);
  }
}
