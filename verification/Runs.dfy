/** The whole execution of the VM as a sequence of rounds, each a function of the one before, and
    what holds in every round of every execution. */
module Runs {
  import opened Trace
  import opened Engine
  import opened Phases
  import opened Machine
  import opened ReadyPass
  import opened RunPass
  import opened Bookkeeping
  import opened Quiescence
  import opened Rounds

  /** What the VM remembers between rounds: the systems and the two sequences, the time stamps of
      the calls fetched last, the totals of the gaps, and the clock. */
  datatype Run = Run(m: Vm, stamps: seq<Stamp>, totals: seq<real>, tic: int)

  predicate Shaped(r: Run) {
    |r.m.sys| == |r.stamps| == |r.totals|
  }

  function Stamps(sys: seq<Sys>): (r: seq<Stamp>)
    ensures |r| == |sys| && forall k :: 0 <= k < |r| ==> r[k] == Row(sys[k]).0
  {
    seq(|sys|, k requires 0 <= k < |sys| => Row(sys[k]).0)
  }

  /** How many calls each system has executed. */
  function DoneCounts(sys: seq<Sys>): (r: seq<int>)
    ensures |r| == |sys| && forall k :: 0 <= k < |r| ==> r[k] == NumDone(sys[k])
  {
    seq(|sys|, k requires 0 <= k < |sys| => NumDone(sys[k]))
  }

  /** The ready pass and the run pass in descending order of the given time stamps. */
  function Dispatch(maps: seq<seq<int>>, m: Vm, times: seq<Stamp>, totals: seq<real>, tic: int): (r: Run)
    requires |m.sys| == |times| == |totals|
    ensures Shaped(r) && |r.m.sys| == |m.sys|
  {
    var order := VisitOrder(Starts(times));
    var (n, clock) := RanAll(m.(sys := VisitAll(maps, m.sys, order)), order, tic);
    Run(n, times, totals, clock)
  }

  /** The passes before the main loop. */
  function Opening(maps: seq<seq<int>>, sys: seq<Sys>): (r: Run)
    ensures Shaped(r) && |r.m.sys| == |sys|
  {
    var s := FetchedUpTo(sys, true, 0, |sys|);
    Dispatch(maps, Vm(s, [], []), Stamps(s), seq(|sys|, _ => INF_QTIME), 0)
  }

  /** The systems after a round's fetches. */
  function Fetches(r: Run): (s: seq<Sys>)
    ensures |s| == |r.m.sys|
  {
    FetchedUpTo(r.m.sys, false, r.tic, |r.m.sys|)
  }

  /** A round's check. */
  function CheckOf(r: Run): (c: Check)
    requires Shaped(r)
    ensures |c.sums| == |r.m.sys|
  {
    var s := Fetches(r);
    Checked(s, r.stamps, Stamps(s), DoneCounts(s), r.totals, |s|)
  }

  /** One iteration of the main loop. */
  function NextRound(maps: seq<seq<int>>, r: Run): (t: Run)
    requires Shaped(r)
    ensures Shaped(t) && |t.m.sys| == |r.m.sys|
  {
    var s, c := Fetches(r), CheckOf(r);
    if Live(s) == 0 then r.(m := r.m.(sys := s))
    else Dispatch(maps, r.m.(sys := Moved(s, c.fired != [], r.tic)), Stamps(s), c.sums, r.tic)
  }

  /** No fetch from these systems finds a corrupt line. */
  predicate Reads(sys: seq<Sys>) {
    forall k :: 0 <= k < |sys| ==> sys[k].st.FINALIZE? || sys[k].pending.Some? || !NextEntry(sys[k].unread).Corrupt?
  }

  predicate Follows(maps: seq<seq<int>>, r: Run, t: Run) {
    Shaped(r) && Reads(r.m.sys) && t == NextRound(maps, r)
  }

  function Step(maps: seq<seq<int>>): (Run, Run) -> bool {
    (r, t) => Follows(maps, r, t)
  }

  predicate LinkAt<R>(rs: seq<R>, link: (R, R) -> bool, k: nat) {
    k + 1 < |rs| ==> link(rs[k], rs[k + 1])
  }

  /** Each element of the list is linked to the next. */
  ghost predicate Chain<R>(rs: seq<R>, link: (R, R) -> bool) {
    rs != [] && forall k: nat :: LinkAt(rs, link, k)
  }

  lemma ChainExtended<R>(rs: seq<R>, t: R, link: (R, R) -> bool)
    requires Chain(rs, link) && link(rs[|rs| - 1], t)
    ensures Chain(rs + [t], link)
  {
    forall k: nat ensures LinkAt(rs + [t], link, k) {
      assert LinkAt(rs, link, k);
    }
  }

  /** A property of the first element of a chain that every link keeps holds throughout. */
  lemma {:induction false} Throughout<R>(rs: seq<R>, P: R -> bool, k: nat)
    requires k < |rs| && P(rs[0])
    requires forall j: nat :: j + 1 < |rs| && P(rs[j]) ==> P(rs[j + 1])
    ensures P(rs[k])
  {
    if k > 0 {
      Throughout(rs, P, k - 1);
    }
  }

  lemma {:induction false} ThroughoutAt<R>(rs: seq<R>, P: (R, nat) -> bool, k: nat)
    requires k < |rs| && P(rs[0], 0)
    requires forall j: nat :: j < k && P(rs[j], j) ==> P(rs[j + 1], j + 1)
    ensures P(rs[k], k)
  {
    if k > 0 {
      ThroughoutAt(rs, P, k - 1);
    }
  }

  /** The states between rounds of an execution that started from these systems and has found no
      corrupt line so far. */
  ghost predicate IsRun(maps: seq<seq<int>>, sys: seq<Sys>, rs: seq<Run>) {
    Reads(sys) && Chain(rs, Step(maps)) && rs[0] == Opening(maps, sys)
  }

  lemma FirstState(maps: seq<seq<int>>, sys: seq<Sys>)
    requires Reads(sys)
    ensures IsRun(maps, sys, [Opening(maps, sys)])
  {
  }

  lemma RunExtended(maps: seq<seq<int>>, sys: seq<Sys>, rs: seq<Run>, t: Run)
    requires IsRun(maps, sys, rs) && Follows(maps, rs[|rs| - 1], t)
    ensures IsRun(maps, sys, rs + [t])
  {
    ChainExtended(rs, t, Step(maps));
  }

  /** What every round keeps. */
  ghost predicate RunOk(logs: seq<Log>, r: Run) {
    Shaped(r) && AllOk(r.m.sys, logs) && Rested(r.m.sys) && Stamped(logs, r.m.sys, r.stamps)
  }

  lemma ReadsSettled(sys: seq<Sys>, booting: bool, tic: int)
    requires AllSettled(FetchedUpTo(sys, booting, tic, |sys|))
    requires forall k :: 0 <= k < |sys| ==> (sys[k].st.INVALID? <==> booting)
    ensures Reads(sys)
  {
    var r := FetchedUpTo(sys, booting, tic, |sys|);
    forall k | 0 <= k < |sys| && !sys[k].st.FINALIZE? && sys[k].pending.None?
      ensures !NextEntry(sys[k].unread).Corrupt?
    {
      assert Settled(r[k]);
    }
  }

  lemma FetchOneOk(s: Sys, log: Log, booting: bool, tic: int)
    requires SysOk(s, log) && (s.st.INVALID? <==> booting)
    requires s.st.FINALIZE? || s.pending.Some? || !NextEntry(s.unread).Corrupt?
    ensures
      var r := Refetched(Booted(s, booting, tic), tic);
      SysOk(r, log) && Settled(r) && NumDone(r) == NumDone(s)
  {
    if !s.st.FINALIZE? {
      if booting {
        SilentOk(s, log, INIT);
      }
      RefillOk(Booted(s, booting, tic), log, tic);
    }
  }

  lemma FetchOk(sys: seq<Sys>, logs: seq<Log>, booting: bool, tic: int)
    requires AllOk(sys, logs) && Reads(sys)
    requires forall k :: 0 <= k < |sys| ==> (sys[k].st.INVALID? <==> booting)
    ensures
      var r := FetchedUpTo(sys, booting, tic, |sys|);
      AllOk(r, logs) && AllSettled(r) && DoneCounts(r) == DoneCounts(sys)
  {
    var r := FetchedUpTo(sys, booting, tic, |sys|);
    forall k | 0 <= k < |sys| ensures SysOk(r[k], logs[k]) && Settled(r[k]) && NumDone(r[k]) == NumDone(sys[k]) {
      FetchOneOk(sys[k], logs[k], booting, tic);
    }
  }

  lemma VisitedOk(maps: seq<seq<int>>, sys: seq<Sys>, i: nat, logs: seq<Log>)
    requires AllOk(sys, logs) && i < |sys| && Settled(sys[i])
    ensures AllOk(Visited(maps, sys, i), logs)
  {
    if Visited(maps, sys, i) != sys {
      KnockBackOk(maps, sys, i, logs);
      SilentOk(sys[i], logs[i], READY);
      AllOkUpdate(KnockedBack(maps, sys, i), logs, i, sys[i].(st := READY));
    }
  }

  lemma {:induction false} VisitAllOk(maps: seq<seq<int>>, sys: seq<Sys>, order: seq<nat>, logs: seq<Log>)
    requires AllOk(sys, logs) && AllSettled(sys) && forall p :: 0 <= p < |order| ==> order[p] < |sys|
    ensures AllOk(VisitAll(maps, sys, order), logs)
    decreases |order|
  {
    if order != [] {
      var init, v := order[..|order| - 1], order[|order| - 1];
      VisitAllOk(maps, sys, init, logs);
      PassKeeps(maps, sys, init);
      assert Restated(sys[v], VisitAll(maps, sys, init)[v]) && Settled(sys[v]);
      VisitedOk(maps, VisitAll(maps, sys, init), v, logs);
    }
  }

  lemma RanOk(s: Sys, log: Log, tic: int)
    requires SysOk(s, log)
    ensures SysOk(Ran(s, tic), log)
  {
    if s.pending.Some? && s.st.READY? {
      StartOk(s, log, tic);
    } else if s.pending.Some? && s.st.RUN? {
      ContinueOk(s, log, tic);
    }
  }

  lemma {:induction false} RanAllOk(m: Vm, order: seq<nat>, tic: int, logs: seq<Log>)
    requires AllOk(m.sys, logs) && forall p :: 0 <= p < |order| ==> order[p] < |m.sys|
    ensures AllOk(RanAll(m, order, tic).0.sys, logs)
    decreases |order|
  {
    if order != [] {
      var init, v := order[..|order| - 1], order[|order| - 1];
      RanAllOk(m, init, tic, logs);
      var (n, t) := RanAll(m, init, tic);
      RanOk(n.sys[v], logs[v], t);
      AllOkUpdate(n.sys, logs, v, Ran(n.sys[v], t));
    }
  }

  lemma MovedOk(sys: seq<Sys>, moved: bool, tic: int, logs: seq<Log>)
    requires AllOk(sys, logs) && AllSettled(sys) && sys != []
    ensures AllOk(Moved(sys, moved, tic), logs)
  {
    var n := |sys| - 1;
    QuiesceOk(sys[n], logs[n], tic);
    AllOkUpdate(sys, logs, n, Transition(sys[n], QUIESCENT, tic));
  }

  /** The lists that the VM fills from fetched systems. */
  lemma StampsListed(sys: seq<Sys>, times: seq<Stamp>, instrs: seq<string>)
    requires Listed(sys, times, instrs)
    ensures times == Stamps(sys)
  {
    forall k | 0 <= k < |sys| ensures times[k] == Stamps(sys)[k] {
      assert (times[k], instrs[k]) == Row(sys[k]);
    }
  }

  function Calls(sys: seq<Sys>): (r: seq<string>)
    ensures |r| == |sys| && forall k :: 0 <= k < |r| ==> r[k] == Row(sys[k]).1
  {
    seq(|sys|, k requires 0 <= k < |sys| => Row(sys[k]).1)
  }

  lemma DispatchOk(maps: seq<seq<int>>, logs: seq<Log>, m: Vm, times: seq<Stamp>, totals: seq<real>, tic: int)
    requires Rested(m.sys) && AllSettled(m.sys) && AllOk(m.sys, logs) && times == Stamps(m.sys)
    requires |totals| == |m.sys|
    ensures
      var r := Dispatch(maps, m, times, totals, tic);
      && RunOk(logs, r) && Live(r.m.sys) == Live(m.sys) && (Live(m.sys) > 0 ==> Work(r.m.sys) < Work(m.sys))
  {
    var order := VisitOrder(Starts(times));
    SecondHalf(maps, logs, m, times, Calls(m.sys), tic);
    VisitAllOk(maps, m.sys, order, logs);
    RanAllOk(m.(sys := VisitAll(maps, m.sys, order)), order, tic, logs);
  }

  lemma OpeningOk(maps: seq<seq<int>>, sys: seq<Sys>, logs: seq<Log>)
    requires AllOk(sys, logs) && Reads(sys) && forall k :: 0 <= k < |sys| ==> sys[k].st.INVALID?
    ensures RunOk(logs, Opening(maps, sys))
    ensures Live(Opening(maps, sys).m.sys) == Live(FetchedUpTo(sys, true, 0, |sys|))
  {
    var s := FetchedUpTo(sys, true, 0, |sys|);
    FetchOk(sys, logs, true, 0);
    BootHalf(sys, s, 0, DoneCounts(sys));
    DispatchOk(maps, logs, Vm(s, [], []), Stamps(s), seq(|sys|, _ => INF_QTIME), 0);
  }

  /** The systems after a round's check. */
  function Pauses(r: Run): (s: seq<Sys>)
    requires Shaped(r) && Live(Fetches(r)) > 0
    ensures |s| == |r.m.sys|
  {
    Moved(Fetches(r), CheckOf(r).fired != [], r.tic)
  }

  lemma PausesOk(logs: seq<Log>, r: Run)
    requires RunOk(logs, r) && Reads(r.m.sys) && Live(Fetches(r)) > 0
    ensures Rested(Pauses(r)) && AllSettled(Pauses(r)) && AllOk(Pauses(r), logs)
    ensures Stamps(Pauses(r)) == Stamps(Fetches(r))
    ensures Live(Pauses(r)) == Live(Fetches(r)) && Work(Pauses(r)) <= Work(r.m.sys)
  {
    var s := Fetches(r);
    FetchOk(r.m.sys, logs, false, r.tic);
    FirstHalf(r.m.sys, s, Pauses(r), CheckOf(r).fired != [], r.tic, Stamps(s), Calls(s), DoneCounts(s));
    MovedOk(s, CheckOf(r).fired != [], r.tic, logs);
    StampsListed(Pauses(r), Stamps(s), Calls(s));
  }

  /** An iteration keeps what holds between rounds, and while some system is live it leaves
      strictly less to execute. */
  lemma NextRoundOk(maps: seq<seq<int>>, logs: seq<Log>, r: Run)
    requires RunOk(logs, r) && Reads(r.m.sys)
    ensures RunOk(logs, NextRound(maps, r)) && Live(NextRound(maps, r).m.sys) == Live(Fetches(r))
    ensures Live(Fetches(r)) > 0 ==> Work(NextRound(maps, r).m.sys) < Work(r.m.sys)
  {
    var s := Fetches(r);
    if Live(s) == 0 {
      FetchOk(r.m.sys, logs, false, r.tic);
      FetchStamped(logs, r.m.sys, s, r.tic, r.stamps);
    } else {
      PausesOk(logs, r);
      DispatchOk(maps, logs, r.m.(sys := Pauses(r)), Stamps(s), CheckOf(r).sums, r.tic);
    }
  }

  ghost predicate AllUntouched(sys: seq<Sys>) {
    forall k :: 0 <= k < |sys| ==> Untouched(sys[k])
  }

  lemma UntouchedOk(sys: seq<Sys>)
    requires AllUntouched(sys)
    ensures AllOk(sys, Logs(sys))
  {
    InitialInv([], Vm(sys, [], []));
  }

  lemma FirstOk(maps: seq<seq<int>>, sys: seq<Sys>, rs: seq<Run>)
    requires AllUntouched(sys) && IsRun(maps, sys, rs)
    ensures RunOk(Logs(sys), rs[0])
  {
    UntouchedOk(sys);
    OpeningOk(maps, sys, Logs(sys));
  }

  lemma StepOk(maps: seq<seq<int>>, sys: seq<Sys>, rs: seq<Run>, k: nat)
    requires IsRun(maps, sys, rs) && k + 1 < |rs| && RunOk(Logs(sys), rs[k])
    ensures RunOk(Logs(sys), rs[k + 1])
    ensures AllCalm(Logs(sys)) && Counting(rs[k].totals) ==> Counting(rs[k + 1].totals)
  {
    assert LinkAt(rs, Step(maps), k);
    NextRoundOk(maps, Logs(sys), rs[k]);
    if AllCalm(Logs(sys)) && Counting(rs[k].totals) {
      CheckOfBound(Logs(sys), rs[k]);
    }
  }

  /** Every state of an execution is in order. */
  lemma RoundsOk(maps: seq<seq<int>>, sys: seq<Sys>, rs: seq<Run>, k: nat)
    requires AllUntouched(sys) && IsRun(maps, sys, rs) && k < |rs|
    ensures RunOk(Logs(sys), rs[k])
  {
    var P := r => RunOk(Logs(sys), r);
    FirstOk(maps, sys, rs);
    forall j: nat | j + 1 < |rs| && P(rs[j]) ensures P(rs[j + 1]) {
      StepOk(maps, sys, rs, j);
    }
    Throughout(rs, P, k);
  }

  /** A log that can be read to its end is never found corrupt on the way. */
  lemma OkReads(sys: seq<Sys>, logs: seq<Log>)
    requires AllOk(sys, logs) && forall k :: 0 <= k < |logs| ==> logs[k].ok
    ensures Reads(sys)
  {
    forall k | 0 <= k < |sys| && !sys[k].st.FINALIZE? && sys[k].pending.None?
      ensures !NextEntry(sys[k].unread).Corrupt?
    {
      assert OnTrack(sys[k], logs[k]);
    }
  }

  ghost predicate AllReadable(sys: seq<Sys>) {
    AllUntouched(sys) && forall k :: 0 <= k < |Logs(sys)| ==> Logs(sys)[k].ok
  }

  /** On logs that can be read to their ends, an execution starts and can always go on. */
  lemma ReadsFirst(maps: seq<seq<int>>, sys: seq<Sys>)
    requires AllReadable(sys)
    ensures IsRun(maps, sys, [Opening(maps, sys)])
  {
    UntouchedOk(sys);
    OkReads(sys, Logs(sys));
    FirstState(maps, sys);
  }

  lemma ReadsOn(maps: seq<seq<int>>, sys: seq<Sys>, rs: seq<Run>)
    requires AllReadable(sys) && IsRun(maps, sys, rs)
    ensures Shaped(rs[|rs| - 1]) && IsRun(maps, sys, rs + [NextRound(maps, rs[|rs| - 1])])
  {
    RoundsOk(maps, sys, rs, |rs| - 1);
    OkReads(rs[|rs| - 1].m.sys, Logs(sys));
    RunExtended(maps, sys, rs, NextRound(maps, rs[|rs| - 1]));
  }

  /** There are executions of any length. */
  lemma {:induction false} RunOfLength(maps: seq<seq<int>>, sys: seq<Sys>, n: nat) returns (rs: seq<Run>)
    requires AllReadable(sys) && n > 0
    ensures IsRun(maps, sys, rs) && |rs| == n
  {
    if n == 1 {
      ReadsFirst(maps, sys);
      rs := [Opening(maps, sys)];
    } else {
      rs := RunOfLength(maps, sys, n - 1);
      rs := OneMore(maps, sys, rs);
    }
  }

  lemma OneMore(maps: seq<seq<int>>, sys: seq<Sys>, rs: seq<Run>) returns (more: seq<Run>)
    requires AllReadable(sys) && IsRun(maps, sys, rs)
    ensures IsRun(maps, sys, more) && |more| == |rs| + 1
  {
    ReadsOn(maps, sys, rs);
    more := rs + [NextRound(maps, rs[|rs| - 1])];
  }

  // ---- The quiescence bound ----

  ghost predicate AllCalm(logs: seq<Log>) {
    forall i :: 0 <= i < |logs| ==> Calm(logs[i])
  }

  /** The system's gap asks for a pause in the round that follows r. */
  predicate Asks(r: Run, i: nat)
    requires Shaped(r)
  {
    i in CheckOf(r).fired
  }

  lemma CheckOfBound(logs: seq<Log>, r: Run)
    requires RunOk(logs, r) && Reads(r.m.sys) && AllCalm(logs) && Counting(r.totals)
    ensures Counting(CheckOf(r).sums)
    ensures forall i: nat :: Asks(r, i) ==> i < |r.m.sys| && NumDone(r.m.sys[i]) >= 12
  {
    var s := Fetches(r);
    FetchOk(r.m.sys, logs, false, r.tic);
    FetchStamped(logs, r.m.sys, s, r.tic, r.stamps);
    FetchGaps(logs, s, r.stamps, Stamps(s), Calls(s));
    CheckBound(s, r.stamps, Stamps(s), DoneCounts(s), r.totals);
    forall i: nat | Asks(r, i) ensures i < |r.m.sys| && NumDone(r.m.sys[i]) >= 12 {
      assert DoneCounts(s)[i] == DoneCounts(r.m.sys)[i];
    }
  }

  lemma TotalsCounting(maps: seq<seq<int>>, sys: seq<Sys>, rs: seq<Run>, k: nat)
    requires AllUntouched(sys) && IsRun(maps, sys, rs) && AllCalm(Logs(sys)) && k < |rs|
    ensures Counting(rs[k].totals)
  {
    var P := r => RunOk(Logs(sys), r) && Counting(r.totals);
    FirstOk(maps, sys, rs);
    forall j: nat | j + 1 < |rs| && P(rs[j]) ensures P(rs[j + 1]) {
      StepOk(maps, sys, rs, j);
    }
    Throughout(rs, P, k);
  }

  /** The quiescence bound over whole executions: on traces whose calls do not overlap, whatever
      round it is, a system whose gap asks for a pause has executed at least 12 calls. */
  lemma QuietRounds(maps: seq<seq<int>>, sys: seq<Sys>, rs: seq<Run>, k: nat, i: nat)
    requires AllUntouched(sys) && IsRun(maps, sys, rs) && AllCalm(Logs(sys))
    requires k < |rs| && Shaped(rs[k]) && Reads(rs[k].m.sys) && Asks(rs[k], i)
    ensures i < |rs[k].m.sys| && NumDone(rs[k].m.sys[i]) >= 12
  {
    RoundsOk(maps, sys, rs, k);
    TotalsCounting(maps, sys, rs, k);
    CheckOfBound(Logs(sys), rs[k]);
  }

  /** What a ready pass can do to a system: systems in RUN and FINALIZE are not touched, the others
      become READY or INIT or stay as they are. */
  predicate VisitedFrom(s: Sys, v: Sys) {
    v == s.(st := v.st)
    && (v.st == s.st || (!s.st.RUN? && !s.st.FINALIZE? && (v.st.READY? || v.st.INIT?)))
  }

  lemma VisitOf(maps: seq<seq<int>>, sys: seq<Sys>, order: seq<nat>, k: nat)
    requires Rested(sys) && Distinct(order, |sys|) && k < |sys| && k in order
    ensures VisitedFrom(sys[k], VisitAll(maps, sys, order)[k])
  {
    PassExact(maps, sys, order);
    var p :| 0 <= p < |order| && order[p] == k;
    assert VisitedFrom(sys[order[p]], VisitAll(maps, sys, order)[order[p]]);
  }

  lemma TurnAt(m: Vm, order: seq<nat>, tic: int, k: nat) returns (t: int)
    requires Distinct(order, |m.sys|) && k < |m.sys| && k in order
    ensures RanAll(m, order, tic).0.sys[k] == Ran(m.sys[k], t)
  {
    OneTurn(m, order, tic);
    var p :| 0 <= p < |order| && order[p] == k;
    assert TookTurn(m.sys[order[p]], RanAll(m, order, tic).0.sys[order[p]]);
    t :| RanAll(m, order, tic).0.sys[k] == Ran(m.sys[k], t);
  }

  /** What a dispatch does to one system: a visit and a turn. */
  lemma DispatchOf(maps: seq<seq<int>>, m: Vm, times: seq<Stamp>, totals: seq<real>, tic: int, k: nat)
    returns (v: Sys, t: int)
    requires Rested(m.sys) && |times| == |totals| == |m.sys| && k < |m.sys|
    ensures VisitedFrom(m.sys[k], v) && Dispatch(maps, m, times, totals, tic).m.sys[k] == Ran(v, t)
  {
    var order := VisitOrder(Starts(times));
    var w := VisitAll(maps, m.sys, order);
    VisitOf(maps, m.sys, order, k);
    v := w[k];
    t := TurnAt(m.(sys := w), order, tic, k);
  }

  lemma PausesAt(r: Run, k: nat)
    requires Shaped(r) && Live(Fetches(r)) > 0 && k < |r.m.sys|
    ensures
      var s := Fetches(r)[k];
      Pauses(r)[k] == if k + 1 == |r.m.sys| && CheckOf(r).fired != [] then Transition(s, QUIESCENT, r.tic) else s
  {
  }

  /** What a round does to one system after the fetch: perhaps a pause, a visit and a turn. */
  lemma RoundOf(maps: seq<seq<int>>, logs: seq<Log>, r: Run, k: nat) returns (v: Sys, t: int)
    requires RunOk(logs, r) && Reads(r.m.sys) && Live(Fetches(r)) > 0 && k < |r.m.sys|
    ensures VisitedFrom(Pauses(r)[k], v) && NextRound(maps, r).m.sys[k] == Ran(v, t)
  {
    PausesOk(logs, r);
    v, t := DispatchOf(maps, r.m.(sys := Pauses(r)), Stamps(Fetches(r)), CheckOf(r).sums, r.tic, k);
  }

  lemma RefetchedRunning(s: Sys, log: Log, tic: int)
    requires SysOk(s, log) && s.st.RUN? && (s.pending.Some? || !NextEntry(s.unread).Corrupt?)
    ensures
      var t := Refetched(s, tic);
      (t.st.RUN? || t.st.FINALIZE?) && PhasesOf(t.src) == PhasesOf(s.src) && PhasesOf(t.src) != []
  {
    RefillOk(s, log, tic);
  }

  lemma FetchesRunning(logs: seq<Log>, r: Run, k: nat)
    requires RunOk(logs, r) && Reads(r.m.sys) && k < |r.m.sys| && r.m.sys[k].st.RUN?
    ensures
      var s := Fetches(r)[k];
      && (s.st.RUN? || s.st.FINALIZE?) && Settled(s)
      && PhasesOf(s.src) == PhasesOf(r.m.sys[k].src) && PhasesOf(s.src) != []
  {
    RefetchedRunning(r.m.sys[k], logs[k], r.tic);
  }

  /** A system that was running has left its phase without having reached the end of its trace. */
  predicate BreaksOff(s: Sys, t: Sys) {
    !t.st.FINALIZE? && (!t.st.RUN? || |PhasesOf(t.src)| != |PhasesOf(s.src)|)
  }

  lemma PausedBreaksOff(s: Sys, tic: int, v: Sys, t: int)
    requires s.st.RUN? && s.pending.Some? && VisitedFrom(Transition(s, QUIESCENT, tic), v)
    ensures BreaksOff(s, Ran(v, t))
  {
    PhasesAppend(s.src, Suffix);
    if v.st.READY? {
      StartEffect(v, t);
    }
  }

  lemma OthersGoOn(s: Sys, v: Sys, t: int)
    requires (s.st.RUN? && PhasesOf(s.src) != []) || s.st.FINALIZE?
    requires VisitedFrom(s, v)
    ensures !BreaksOff(s, Ran(v, t))
  {
    if s.st.RUN? && s.pending.Some? {
      ContinueEffect(s, t);
    }
  }

  /** In a round, a running system breaks off its phase if and only if it is the last one of the
      list, its trace goes on, and the gap of some system asks for a pause. */
  lemma BrokenOff(maps: seq<seq<int>>, logs: seq<Log>, r: Run, k: nat)
    requires RunOk(logs, r) && Reads(r.m.sys) && k < |r.m.sys| && r.m.sys[k].st.RUN?
    ensures BreaksOff(r.m.sys[k], NextRound(maps, r).m.sys[k])
            <==> k + 1 == |r.m.sys| && Fetches(r)[k].st.RUN? && CheckOf(r).fired != []
  {
    var s := Fetches(r)[k];
    FetchesRunning(logs, r, k);
    LiveZero(Fetches(r));
    if Live(Fetches(r)) > 0 {
      var v, t := RoundOf(maps, logs, r, k);
      PausesAt(r, k);
      if k + 1 == |r.m.sys| && s.st.RUN? && CheckOf(r).fired != [] {
        PausedBreaksOff(s, r.tic, v, t);
      } else {
        OthersGoOn(s, v, t);
      }
    }
  }

  // ---- All systems but the last have one phase ----

  /** The system has not started, or is in its first phase, or has ended after at most one. */
  predicate Once(s: Sys) {
    var n := |PhasesOf(s.src)|;
    (n == 0 && (s.st.INIT? || s.st.FINALIZE?)) || (n == 1 && (s.st.RUN? || s.st.FINALIZE?))
  }

  lemma FetchOnce(s: Sys, log: Log, booting: bool, tic: int)
    requires SysOk(s, log) && (s.st.INVALID? <==> booting) && (booting || Once(s))
    requires s.st.FINALIZE? || s.pending.Some? || !NextEntry(s.unread).Corrupt?
    ensures Once(Refetched(Booted(s, booting, tic), tic)) && Settled(Refetched(Booted(s, booting, tic), tic))
  {
    if !s.st.FINALIZE? {
      if booting {
        SilentOk(s, log, INIT);
      }
      RefillOk(Booted(s, booting, tic), log, tic);
    }
  }

  lemma TurnOnce(s: Sys, v: Sys, t: int)
    requires Once(s) && Settled(s) && VisitedFrom(s, v)
    ensures Once(Ran(v, t))
  {
    if v.pending.Some? && v.st.READY? {
      StartEffect(v, t);
    } else if v.pending.Some? && v.st.RUN? {
      ContinueEffect(v, t);
    }
  }

  lemma OpeningOnce(maps: seq<seq<int>>, sys: seq<Sys>, k: nat)
    requires AllUntouched(sys) && Reads(sys) && k < |sys|
    ensures Once(Opening(maps, sys).m.sys[k])
  {
    var s := FetchedUpTo(sys, true, 0, |sys|);
    UntouchedOk(sys);
    FetchRound(sys, true, 0);
    FetchOnce(sys[k], Logs(sys)[k], true, 0);
    var v, t := DispatchOf(maps, Vm(s, [], []), Stamps(s), seq(|sys|, _ => INF_QTIME), 0, k);
    TurnOnce(s[k], v, t);
  }

  lemma RoundOnce(maps: seq<seq<int>>, logs: seq<Log>, r: Run, k: nat)
    requires RunOk(logs, r) && Reads(r.m.sys) && k + 1 < |r.m.sys| && Once(r.m.sys[k])
    ensures Once(NextRound(maps, r).m.sys[k])
  {
    FetchOnce(r.m.sys[k], logs[k], false, r.tic);
    if Live(Fetches(r)) > 0 {
      var v, t := RoundOf(maps, logs, r, k);
      PausesAt(r, k);
      TurnOnce(Fetches(r)[k], v, t);
    }
  }

  /** At every moment of every execution, each system but the last one of the list has one phase if
      it has executed a call, and none otherwise. */
  lemma OnePhase(maps: seq<seq<int>>, sys: seq<Sys>, rs: seq<Run>, j: nat, k: nat)
    requires AllUntouched(sys) && IsRun(maps, sys, rs) && j < |rs| && k + 1 < |sys|
    ensures |rs[j].m.sys| == |sys|
    ensures |PhasesOf(rs[j].m.sys[k].src)| == if NumDone(rs[j].m.sys[k]) > 0 then 1 else 0
  {
    var P := (r: Run) => RunOk(Logs(sys), r) && Once(r.m.sys[k]);
    FirstOk(maps, sys, rs);
    OpeningOnce(maps, sys, k);
    forall i: nat | i + 1 < |rs| && P(rs[i]) ensures P(rs[i + 1]) {
      StepOk(maps, sys, rs, i);
      assert LinkAt(rs, Step(maps), i);
      RoundOnce(maps, Logs(sys), rs[i], k);
    }
    Throughout(rs, P, j);
    PhasesDone(rs[j].m.sys[k], Logs(sys)[k]);
  }

  lemma PhasesDone(s: Sys, log: Log)
    requires SysOk(s, log) && Once(s)
    ensures |PhasesOf(s.src)| == if NumDone(s) > 0 then 1 else 0
  {
    var ph := PhasesOf(s.src);
    if |ph| == 1 {
      assert Flatten(ph) == Flatten(ph[..0]) + ph[0];
    }
  }

  // ---- The facts that the program's round needs ----

  lemma CountsAreDone(logs: seq<Log>, sys: seq<Sys>, ninstr: seq<int>)
    requires AllOk(sys, logs) && AddsUp(logs, ninstr, sys)
    ensures ninstr == DoneCounts(sys)
  {
    forall k | 0 <= k < |sys| ensures ninstr[k] == NumDone(sys[k]) {
      assert OnTrack(sys[k], logs[k]);
      assert Tally(ninstr, sys)[k] == Lengths(logs)[k];
    }
  }

  lemma FetchTally(sys: seq<Sys>, booting: bool, tic: int, ninstr: seq<int>)
    requires |ninstr| == |sys|
    requires forall i :: 0 <= i < |sys| ==> (sys[i].st.INVALID? <==> booting) && !sys[i].st.READY?
    ensures Tally(ninstr, FetchedUpTo(sys, booting, tic, |sys|)) == Tally(ninstr, sys)
  {
    var r := FetchedUpTo(sys, booting, tic, |sys|);
    FetchRound(sys, booting, tic);
    forall i | 0 <= i < |sys| ensures Left(r[i]) == Left(sys[i]) {
      assert SameDuty(sys[i], r[i]);
    }
    TallySame(ninstr, sys, r);
  }

  /** What the program has fetched is what the round fetches. */
  lemma RoundFetched(logs: seq<Log>, r: Run, times: seq<Stamp>, instrs: seq<string>, ninstr: seq<int>)
    requires RunOk(logs, r) && AddsUp(logs, ninstr, r.m.sys)
    requires AllSettled(Fetches(r)) && Listed(Fetches(r), times, instrs)
    ensures Reads(r.m.sys) && Rested(Fetches(r)) && times == Stamps(Fetches(r))
    ensures AddsUp(logs, ninstr, Fetches(r)) && ninstr == DoneCounts(Fetches(r))
  {
    ReadsSettled(r.m.sys, false, r.tic);
    FetchOk(r.m.sys, logs, false, r.tic);
    FetchRound(r.m.sys, false, r.tic);
    FetchTally(r.m.sys, false, r.tic, ninstr);
    StampsListed(Fetches(r), times, instrs);
    CountsAreDone(logs, Fetches(r), ninstr);
  }

  /** What the round that is under way leads to. */
  lemma RoundDue(maps: seq<seq<int>>, sys: seq<Sys>, rs: seq<Run>, r: Run, t: Run)
    requires IsRun(maps, sys, rs) && r == rs[|rs| - 1] && RunOk(Logs(sys), r) && Reads(r.m.sys)
    requires t == NextRound(maps, r)
    ensures IsRun(maps, sys, rs + [t])
    ensures Live(t.m.sys) == Live(Fetches(r)) && (Live(t.m.sys) == 0 ==> t.m == r.m.(sys := Fetches(r)))
    ensures Live(t.m.sys) > 0 ==> Work(t.m.sys) < Work(r.m.sys)
  {
    NextRoundOk(maps, Logs(sys), r);
    RunExtended(maps, sys, rs, t);
  }

  /** The program's dispatch completes the round. */
  lemma RoundDone(maps: seq<seq<int>>, r: Run, order: seq<nat>, n: Vm, clock: int)
    requires Shaped(r) && Live(Fetches(r)) > 0 && order == VisitOrder(Starts(Stamps(Fetches(r))))
    requires (n, clock) == RanAll(r.m.(sys := VisitAll(maps, Pauses(r), order)), order, r.tic)
    ensures Run(n, Stamps(Fetches(r)), CheckOf(r).sums, clock) == NextRound(maps, r)
  {
  }

  /** The program's lists still hold after the check. */
  lemma RoundPaused(logs: seq<Log>, r: Run, times: seq<Stamp>, instrs: seq<string>, ninstr: seq<int>)
    requires RunOk(logs, r) && Reads(r.m.sys) && Live(Fetches(r)) > 0
    requires AddsUp(logs, ninstr, r.m.sys) && AllSettled(Fetches(r)) && Listed(Fetches(r), times, instrs)
    ensures Rested(Pauses(r)) && AllSettled(Pauses(r)) && Listed(Pauses(r), times, instrs)
    ensures AddsUp(logs, ninstr, Pauses(r))
  {
    FirstHalf(r.m.sys, Fetches(r), Pauses(r), CheckOf(r).fired != [], r.tic, times, instrs, ninstr);
  }

  /** The program's opening gives the first state of an execution. */
  lemma Opened(maps: seq<seq<int>>, sys: seq<Sys>, s: seq<Sys>, ninstr: seq<int>, counts: seq<int>, t: Run)
    requires AllUntouched(sys) && Reads(sys) && s == FetchedUpTo(sys, true, 0, |sys|) && t == Opening(maps, sys)
    requires AddsUp(Logs(sys), ninstr, s) && |counts| == |s| && Tally(counts, t.m.sys) == Tally(ninstr, s)
    ensures IsRun(maps, sys, [t]) && AddsUp(Logs(sys), counts, t.m.sys) && Live(t.m.sys) == Live(s)
  {
    UntouchedOk(sys);
    OpeningOk(maps, sys, Logs(sys));
    FirstState(maps, sys);
  }

  /** What the program's opening has fetched. */
  lemma OpeningFetched(sys: seq<Sys>, times: seq<Stamp>, instrs: seq<string>, ninstr: seq<int>)
    requires forall k :: 0 <= k < |sys| ==> sys[k].st.INVALID?
    requires AddsUp(Logs(sys), ninstr, sys)
    requires
      var s := FetchedUpTo(sys, true, 0, |sys|);
      AllSettled(s) && Listed(s, times, instrs)
    ensures
      var s := FetchedUpTo(sys, true, 0, |sys|);
      Reads(sys) && Rested(s) && times == Stamps(s) && AddsUp(Logs(sys), ninstr, s)
  {
    var s := FetchedUpTo(sys, true, 0, |sys|);
    ReadsSettled(sys, true, 0);
    FetchRound(sys, true, 0);
    FetchTally(sys, true, 0, ninstr);
    StampsListed(s, times, instrs);
  }

  /** In every round that has taken place, only systems with at least 12 executed calls have asked
      for a pause. */
  ghost predicate Quiet(rs: seq<Run>) {
    forall k: nat, i: nat :: k + 1 < |rs| && AsksAt(rs, k, i) ==> i < |rs[k].m.sys| && NumDone(rs[k].m.sys[i]) >= 12
  }

  predicate AsksAt(rs: seq<Run>, k: nat, i: nat)
    requires k < |rs|
  {
    Shaped(rs[k]) && Asks(rs[k], i)
  }

  lemma CalmIsQuiet(maps: seq<seq<int>>, sys: seq<Sys>, rs: seq<Run>)
    requires AllUntouched(sys) && IsRun(maps, sys, rs) && AllCalm(Logs(sys))
    ensures Quiet(rs)
  {
    forall k: nat, i: nat | k + 1 < |rs| && AsksAt(rs, k, i)
      ensures i < |rs[k].m.sys| && NumDone(rs[k].m.sys[i]) >= 12
    {
      assert LinkAt(rs, Step(maps), k);
      QuietRounds(maps, sys, rs, k, i);
    }
  }
}
