/** What the clock and the tics that the systems record mean: the clock counts executed calls, each
    system's tics are where its phases begin in the instruction sequence, and the run sequence is the
    merge of those tics. */
module Clock {
  import opened Trace
  import opened Engine
  import opened Phases
  import opened Replay
  import opened Machine
  import opened ReadyPass
  import opened RunPass
  import opened Bookkeeping
  import opened Quiescence
  import opened Rounds
  import opened Runs

  // ---- One system ----

  /** The call at position t is one of system i, and the calls of i before it are those of these phases. */
  predicate BeginsAt(t: int, before: seq<seq<string>>, order: seq<nat>, i: nat) {
    0 <= t < |order| && order[t] == i && Count(order[..t], i) == |Flatten(before)|
  }

  /** The calls of system i in the order are those of the phases, which begin at the recorded tics. */
  predicate Clocked(starts: seq<int>, ph: seq<seq<string>>, order: seq<nat>, i: nat) {
    && |starts| == |ph| && Count(order, i) == |Flatten(ph)|
    && forall p :: 0 <= p < |ph| ==> BeginsAt(starts[p], ph[..p], order, i)
  }

  lemma CountNext(order: seq<nat>, v: nat, i: nat)
    ensures Count(order + [v], i) == Count(order, i) + if v == i then 1 else 0
  {
    assert (order + [v])[..|order|] == order;
  }

  lemma BeginsStill(t: int, before: seq<seq<string>>, order: seq<nat>, i: nat, v: nat)
    requires BeginsAt(t, before, order, i)
    ensures BeginsAt(t, before, order + [v], i)
  {
    assert (order + [v])[..t] == order[..t];
  }

  lemma OtherClocked(starts: seq<int>, ph: seq<seq<string>>, order: seq<nat>, i: nat, v: nat)
    requires Clocked(starts, ph, order, i) && v != i
    ensures Clocked(starts, ph, order + [v], i)
  {
    CountNext(order, v, i);
    forall p | 0 <= p < |ph| ensures BeginsAt(starts[p], ph[..p], order + [v], i) {
      BeginsStill(starts[p], ph[..p], order, i, v);
    }
  }

  lemma StartClocked(starts: seq<int>, ph: seq<seq<string>>, order: seq<nat>, i: nat, x: string)
    requires Clocked(starts, ph, order, i)
    ensures Clocked(starts + [|order|], ph + [[x]], order + [i], i)
  {
    CountNext(order, i, i);
    FlattenStart(ph, x);
    forall p | 0 <= p <= |ph|
      ensures BeginsAt((starts + [|order|])[p], (ph + [[x]])[..p], order + [i], i)
    {
      assert (ph + [[x]])[..p] == ph[..p];
      if p < |ph| {
        BeginsStill(starts[p], ph[..p], order, i, i);
      } else {
        assert ph[..p] == ph && (order + [i])[..|order|] == order;
      }
    }
  }

  lemma ContinueClocked(starts: seq<int>, ph: seq<seq<string>>, order: seq<nat>, i: nat, x: string)
    requires Clocked(starts, ph, order, i) && ph != []
    ensures Clocked(starts, ph[|ph| - 1 := ph[|ph| - 1] + [x]], order + [i], i)
  {
    var now := ph[|ph| - 1 := ph[|ph| - 1] + [x]];
    CountNext(order, i, i);
    FlattenContinue(ph, x);
    forall p | 0 <= p < |ph| ensures BeginsAt(starts[p], now[..p], order + [i], i) {
      assert now[..p] == ph[..p];
      BeginsStill(starts[p], ph[..p], order, i, i);
    }
  }

  // ---- All systems ----

  /** The tics of system i among the tics of all starts. */
  function Picked(at: seq<int>, runs: seq<nat>, i: nat): seq<int>
    requires |at| == |runs|
  {
    if at == [] then []
    else
      var n := |at| - 1;
      Picked(at[..n], runs[..n], i) + if runs[n] == i then [at[n]] else []
  }

  lemma PickedNext(at: seq<int>, runs: seq<nat>, t: int, v: nat, i: nat)
    requires |at| == |runs|
    ensures Picked(at + [t], runs + [v], i) == Picked(at, runs, i) + if v == i then [t] else []
  {
    assert (at + [t])[..|at|] == at && (runs + [v])[..|runs|] == runs;
  }

  /** The tics of all starts increase, and at each of them the system is called that the run sequence
      names. */
  predicate Merges(at: seq<int>, runs: seq<nat>, order: seq<nat>) {
    && |at| == |runs| && (forall k :: 0 <= k < |at| ==> 0 <= at[k] < |order| && order[at[k]] == runs[k])
    && forall k, l :: 0 <= k < l < |at| ==> at[k] < at[l]
  }

  predicate InTime(s: Sys, at: seq<int>, runs: seq<nat>, order: seq<nat>, i: nat)
    requires |at| == |runs|
  {
    Clocked(s.starts, PhasesOf(s.src), order, i) && s.starts == Picked(at, runs, i)
  }

  predicate AllInTime(sys: seq<Sys>, at: seq<int>, runs: seq<nat>, order: seq<nat>)
    requires |at| == |runs|
  {
    forall i: nat :: i < |sys| ==> InTime(sys[i], at, runs, order, i)
  }

  predicate OnClock(m: Vm, at: seq<int>, t: int) {
    t == |m.instrSeq| && Merges(at, m.runSeq, m.instrSeq) && AllInTime(m.sys, at, m.runSeq, m.instrSeq)
  }

  lemma StartInTime(s: Sys, at: seq<int>, runs: seq<nat>, order: seq<nat>, i: nat)
    requires |at| == |runs| && InTime(s, at, runs, order, i) && s.st.READY? && s.pending.Some?
    ensures InTime(Started(s, |order|), at + [|order|], runs + [i], order + [i], i)
  {
    PickedNext(at, runs, |order|, i, i);
    StartEffect(s, |order|);
    StartClocked(s.starts, PhasesOf(s.src), order, i, s.pending.value.text);
  }

  lemma ContinueInTime(s: Sys, at: seq<int>, runs: seq<nat>, order: seq<nat>, i: nat)
    requires |at| == |runs| && InTime(s, at, runs, order, i) && PhasesOf(s.src) != [] && s.pending.Some?
    ensures InTime(Continued(s, |order|), at, runs, order + [i], i)
  {
    ContinueEffect(s, |order|);
    ContinueClocked(s.starts, PhasesOf(s.src), order, i, s.pending.value.text);
  }

  /** The records of a system stay right when another one starts or goes on. */
  lemma OtherInTime(s: Sys, at: seq<int>, runs: seq<nat>, order: seq<nat>, i: nat, v: nat)
    requires |at| == |runs| && InTime(s, at, runs, order, i) && v != i
    ensures InTime(s, at, runs, order + [v], i)
    ensures InTime(s, at + [|order|], runs + [v], order + [v], i)
  {
    PickedNext(at, runs, |order|, v, i);
    OtherClocked(s.starts, PhasesOf(s.src), order, i, v);
  }

  lemma OneInTime(sys: seq<Sys>, s: Sys, v: nat, at: seq<int>, runs: seq<nat>, order: seq<nat>)
    requires |at| == |runs| && v < |sys| && InTime(s, at, runs, order, v)
    requires forall i: nat :: i < |sys| && i != v ==> InTime(sys[i], at, runs, order, i)
    ensures AllInTime(sys[v := s], at, runs, order)
  {
  }

  lemma MergesNext(at: seq<int>, runs: seq<nat>, order: seq<nat>, v: nat)
    requires Merges(at, runs, order)
    ensures Merges(at, runs, order + [v]) && Merges(at + [|order|], runs + [v], order + [v])
  {
  }

  lemma StartOnClock(m: Vm, at: seq<int>, t: int, v: nat)
    requires OnClock(m, at, t) && v < |m.sys| && m.sys[v].st.READY? && m.sys[v].pending.Some?
    ensures OnClock(Turn(m, v, t), at + [t], t + 1)
  {
    var order, runs := m.instrSeq, m.runSeq;
    MergesNext(at, runs, order, v);
    StartInTime(m.sys[v], at, runs, order, v);
    forall i: nat | i < |m.sys| && i != v ensures InTime(m.sys[i], at + [t], runs + [v], order + [v], i) {
      OtherInTime(m.sys[i], at, runs, order, i, v);
    }
    OneInTime(m.sys, Started(m.sys[v], t), v, at + [t], runs + [v], order + [v]);
  }

  lemma ContinueOnClock(m: Vm, at: seq<int>, t: int, v: nat)
    requires OnClock(m, at, t) && v < |m.sys| && m.sys[v].st.RUN? && m.sys[v].pending.Some?
    requires PhasesOf(m.sys[v].src) != []
    ensures OnClock(Turn(m, v, t), at, t + 1)
  {
    var order, runs := m.instrSeq, m.runSeq;
    MergesNext(at, runs, order, v);
    ContinueInTime(m.sys[v], at, runs, order, v);
    forall i: nat | i < |m.sys| && i != v ensures InTime(m.sys[i], at, runs, order + [v], i) {
      OtherInTime(m.sys[i], at, runs, order, i, v);
    }
    OneInTime(m.sys, Continued(m.sys[v], t), v, at, runs, order + [v]);
  }

  /** What a turn needs of a system: if active, a cached call, and an open phase if it runs. */
  predicate CanTurn(s: Sys) {
    Active(s) ==> s.pending.Some? && (s.st.RUN? ==> PhasesOf(s.src) != [])
  }

  lemma {:induction false} RunPassOnClock(m: Vm, order: seq<nat>, at: seq<int>, t: int) returns (after: seq<int>)
    requires OnClock(m, at, t) && Distinct(order, |m.sys|)
    requires forall i :: 0 <= i < |m.sys| ==> CanTurn(m.sys[i])
    ensures OnClock(RanAll(m, order, t).0, after, RanAll(m, order, t).1)
    decreases |order|
  {
    after := at;
    if order != [] {
      var init, v := order[..|order| - 1], order[|order| - 1];
      after := RunPassOnClock(m, init, at, t);
      var (n, clock) := RanAll(m, init, t);
      OneTurn(m, init, t);
      assert v !in init && n.sys[v] == m.sys[v] && CanTurn(m.sys[v]);
      if m.sys[v].st.READY? {
        StartOnClock(n, after, clock, v);
        after := after + [clock];
      } else if m.sys[v].st.RUN? {
        ContinueOnClock(n, after, clock, v);
      }
    }
  }

  // ---- Every round ----

  /** A change that records nothing and executes nothing. */
  predicate SameRecord(s: Sys, t: Sys) {
    t.starts == s.starts && PhasesOf(t.src) == PhasesOf(s.src)
  }

  lemma SameOnClock(m: Vm, sys: seq<Sys>, at: seq<int>, t: int)
    requires OnClock(m, at, t) && |sys| == |m.sys| && forall i :: 0 <= i < |sys| ==> SameRecord(m.sys[i], sys[i])
    ensures OnClock(m.(sys := sys), at, t)
  {
    forall i: nat | i < |sys| ensures InTime(sys[i], at, m.runSeq, m.instrSeq, i) {
      assert InTime(m.sys[i], at, m.runSeq, m.instrSeq, i) && SameRecord(m.sys[i], sys[i]);
    }
  }

  lemma VisitedCanTurn(s: Sys, v: Sys, log: Log)
    requires SysOk(s, log) && Settled(s) && VisitedFrom(s, v)
    ensures CanTurn(v) && SameRecord(s, v)
  {
  }

  lemma DispatchOnClock(maps: seq<seq<int>>, logs: seq<Log>, m: Vm, times: seq<Stamp>, totals: seq<real>,
                        at: seq<int>, t: int) returns (after: seq<int>)
    requires OnClock(m, at, t) && Rested(m.sys) && AllSettled(m.sys) && AllOk(m.sys, logs)
    requires |times| == |totals| == |m.sys|
    ensures OnClock(Dispatch(maps, m, times, totals, t).m, after, Dispatch(maps, m, times, totals, t).tic)
  {
    var order := VisitOrder(Starts(times));
    var w := VisitAll(maps, m.sys, order);
    forall i: nat | i < |w| ensures CanTurn(w[i]) && SameRecord(m.sys[i], w[i]) {
      VisitOf(maps, m.sys, order, i);
      VisitedCanTurn(m.sys[i], w[i], logs[i]);
    }
    SameOnClock(m, w, at, t);
    after := RunPassOnClock(m.(sys := w), order, at, t);
  }

  lemma RefillStarts(s: Sys, tic: int)
    requires s.pending.Some? || !NextEntry(s.unread).Corrupt?
    ensures Refill(s, tic).starts == s.starts
  {
  }

  lemma RefillRecord(s: Sys, log: Log, tic: int)
    requires SysOk(s, log) && !s.st.FINALIZE? && !s.st.INVALID?
    requires s.pending.Some? || !NextEntry(s.unread).Corrupt?
    ensures SameRecord(s, Refill(s, tic))
  {
    RefillStarts(s, tic);
    RefillOk(s, log, tic);
  }

  lemma FetchedRecord(s: Sys, log: Log, booting: bool, tic: int)
    requires SysOk(s, log) && (s.st.INVALID? <==> booting)
    requires s.st.FINALIZE? || s.pending.Some? || !NextEntry(s.unread).Corrupt?
    ensures SameRecord(s, Refetched(Booted(s, booting, tic), tic))
  {
    if !s.st.FINALIZE? {
      var b := Booted(s, booting, tic);
      assert SysOk(b, log) && SameRecord(s, b) && !b.st.FINALIZE? && !b.st.INVALID? by {
        if booting {
          SilentOk(s, log, INIT);
        }
      }
      assert SameRecord(b, Refill(b, tic)) by {
        RefillRecord(b, log, tic);
      }
    }
  }

  lemma FetchesOnClock(m: Vm, logs: seq<Log>, booting: bool, tic: int, at: seq<int>)
    requires OnClock(m, at, tic) && AllOk(m.sys, logs) && Reads(m.sys)
    requires forall k :: 0 <= k < |m.sys| ==> (m.sys[k].st.INVALID? <==> booting)
    ensures OnClock(m.(sys := FetchedUpTo(m.sys, booting, tic, |m.sys|)), at, tic)
  {
    var s := FetchedUpTo(m.sys, booting, tic, |m.sys|);
    forall i | 0 <= i < |s| ensures SameRecord(m.sys[i], s[i]) {
      FetchedRecord(m.sys[i], logs[i], booting, tic);
    }
    SameOnClock(m, s, at, tic);
  }

  lemma PausedRecord(s: Sys, tic: int)
    ensures SameRecord(s, Transition(s, QUIESCENT, tic))
  {
    PhasesAppend(s.src, Suffix);
  }

  lemma MovedRecord(sys: seq<Sys>, moved: bool, tic: int)
    requires sys != []
    ensures forall i :: 0 <= i < |sys| ==> SameRecord(sys[i], Moved(sys, moved, tic)[i])
  {
    PausedRecord(sys[|sys| - 1], tic);
  }

  lemma PausesOnClock(logs: seq<Log>, r: Run, at: seq<int>)
    requires RunOk(logs, r) && Reads(r.m.sys) && Live(Fetches(r)) > 0
    requires OnClock(r.m.(sys := Fetches(r)), at, r.tic)
    ensures OnClock(r.m.(sys := Pauses(r)), at, r.tic)
  {
    FetchOk(r.m.sys, logs, false, r.tic);
    MovedRecord(Fetches(r), CheckOf(r).fired != [], r.tic);
    SameOnClock(r.m.(sys := Fetches(r)), Pauses(r), at, r.tic);
  }

  lemma RoundOnClock(maps: seq<seq<int>>, logs: seq<Log>, r: Run, at: seq<int>) returns (after: seq<int>)
    requires RunOk(logs, r) && Reads(r.m.sys) && OnClock(r.m, at, r.tic)
    ensures OnClock(NextRound(maps, r).m, after, NextRound(maps, r).tic)
  {
    FetchesOnClock(r.m, logs, false, r.tic, at);
    after := at;
    if Live(Fetches(r)) > 0 {
      PausesOnClock(logs, r, at);
      PausesOk(logs, r);
      var m := r.m.(sys := Pauses(r));
      after := DispatchOnClock(maps, logs, m, Stamps(Fetches(r)), CheckOf(r).sums, at, r.tic);
    }
  }

  lemma OpeningFetches(sys: seq<Sys>)
    requires AllUntouched(sys) && Reads(sys)
    ensures
      var s := FetchedUpTo(sys, true, 0, |sys|);
      OnClock(Vm(s, [], []), [], 0) && Rested(s) && AllSettled(s) && AllOk(s, Logs(sys))
  {
    var m := Vm(sys, [], []);
    UntouchedOk(sys);
    assert OnClock(m, [], 0) by {
      forall i: nat | i < |sys| ensures InTime(sys[i], [], [], [], i) {
        assert Untouched(sys[i]);
      }
    }
    FetchesOnClock(m, Logs(sys), true, 0, []);
    FetchRound(sys, true, 0);
    FetchOk(sys, Logs(sys), true, 0);
  }

  lemma OpeningOnClock(maps: seq<seq<int>>, sys: seq<Sys>) returns (after: seq<int>)
    requires AllUntouched(sys) && Reads(sys)
    ensures OnClock(Opening(maps, sys).m, after, Opening(maps, sys).tic)
  {
    var s := FetchedUpTo(sys, true, 0, |sys|);
    OpeningFetches(sys);
    after := DispatchOnClock(maps, Logs(sys), Vm(s, [], []), Stamps(s), seq(|sys|, _ => INF_QTIME), [], 0);
  }

  ghost predicate Timed(r: Run) {
    exists at :: OnClock(r.m, at, r.tic)
  }

  /** At every moment of every execution, the clock is the number of executed calls; each system has
      recorded for each of its phases the position in the instruction sequence of the phase's first
      call; and the run sequence is the merge of those tics in time order. */
  lemma ClockCounts(maps: seq<seq<int>>, sys: seq<Sys>, rs: seq<Run>, j: nat) returns (at: seq<int>)
    requires AllUntouched(sys) && IsRun(maps, sys, rs) && j < |rs|
    ensures
      var m, t := rs[j].m, rs[j].tic;
      && t == |m.instrSeq| && Merges(at, m.runSeq, m.instrSeq)
      && forall i: nat :: i < |m.sys| ==>
           m.sys[i].starts == Picked(at, m.runSeq, i) && Clocked(m.sys[i].starts, PhasesOf(m.sys[i].src), m.instrSeq, i)
  {
    var P := r => RunOk(Logs(sys), r) && Timed(r);
    FirstOk(maps, sys, rs);
    var begun := OpeningOnClock(maps, sys);
    forall k: nat | k + 1 < |rs| && P(rs[k]) ensures P(rs[k + 1]) {
      StepOk(maps, sys, rs, k);
      assert LinkAt(rs, Step(maps), k);
      var before :| OnClock(rs[k].m, before, rs[k].tic);
      var now := RoundOnClock(maps, Logs(sys), rs[k], before);
    }
    Throughout(rs, P, j);
    at :| OnClock(rs[j].m, at, rs[j].tic);
    forall i: nat | i < |rs[j].m.sys|
      ensures InTime(rs[j].m.sys[i], at, rs[j].m.runSeq, rs[j].m.instrSeq, i)
    {
    }
  }
}
