/** An execution that attains the quiescence bound. Two systems depend on each other; the first has
    twelve calls at time 0 and one at time 1, the second a single call at time 2, for which it waits
    until the first has ended. */
module QuietRun {
  import opened Trace
  import opened Engine
  import opened Phases
  import opened Machine
  import opened ReadyPass
  import opened RunPass
  import opened Bookkeeping
  import opened Quiescence
  import opened Rounds
  import opened Runs

  /** The two systems depend on each other. */
  predicate Tied(maps: seq<seq<int>>) {
    Dependent(maps, 0, 1) && Dependent(maps, 1, 0)
  }

  function Pair(t: real): seq<Line> {
    [Fields(t, ""), Fields(t, "")]
  }

  function EntryAt(t: real): Entry {
    Entry(t, t, Commented(""))
  }

  /** A log of n calls at time 0 and one call at time t. */
  function IdleLines(n: nat, t: real): seq<Line> {
    if n == 0 then Pair(t) else Pair(0.0) + IdleLines(n - 1, t)
  }

  function Waiting(lines: seq<Line>): Sys {
    Sys(INVALID, lines, None, 0, [], [], [], 0)
  }

  /** The first system has n + 1 calls, the second has one. */
  function Beginning(n: nat): seq<Sys> {
    [Waiting(IdleLines(n, 1.0)), Waiting(Pair(2.0))]
  }

  lemma NextIdle(n: nat, t: real)
    ensures NextEntry(IdleLines(n, t)) == if n == 0 then Got(EntryAt(t), []) else Got(EntryAt(0.0), IdleLines(n - 1, t))
  {
    if n == 0 {
      assert IdleLines(0, t)[2..] == [];
    } else {
      assert (Pair(0.0) + IdleLines(n - 1, t))[2..] == IdleLines(n - 1, t);
    }
  }

  lemma ParseNext(lines: seq<Line>, e: Entry, rest: seq<Line>)
    requires NextEntry(lines) == Got(e, rest)
    ensures Parse(lines) == Log([e] + Parse(rest).entries, Parse(rest).ok)
  {
  }

  lemma IdleEntries(e: Entry, rest: seq<Entry>, n: nat, t: real)
    requires e == EntryAt(0.0) && |rest| == n + 1
    requires forall k :: 0 <= k <= n ==> rest[k] == EntryAt(if k == n then t else 0.0)
    ensures forall k :: 0 <= k <= n + 1 ==> ([e] + rest)[k] == EntryAt(if k == n + 1 then t else 0.0)
  {
  }

  lemma {:induction false} ParseIdle(n: nat, t: real)
    ensures
      var log := Parse(IdleLines(n, t));
      log.ok && |log.entries| == n + 1
      && forall k :: 0 <= k <= n ==> log.entries[k] == EntryAt(if k == n then t else 0.0)
  {
    NextIdle(n, t);
    if n > 0 {
      ParseIdle(n - 1, t);
      ParseNext(IdleLines(n, t), EntryAt(0.0), IdleLines(n - 1, t));
      IdleEntries(EntryAt(0.0), Parse(IdleLines(n - 1, t)).entries, n - 1, t);
    }
  }

  lemma CalmIdle(n: nat, t: real)
    requires t >= 0.0
    ensures Parse(IdleLines(n, t)).ok && Calm(Parse(IdleLines(n, t)))
  {
    ParseIdle(n, t);
  }

  lemma BeginningReadable(n: nat)
    ensures AllReadable(Beginning(n)) && AllCalm(Logs(Beginning(n)))
  {
    CalmIdle(n, 1.0);
    CalmIdle(0, 2.0);
  }

  /** A running system that has e of its first n calls behind it. */
  predicate IdleAt(s: Sys, n: nat, e: nat, t: real) {
    1 <= e <= n && s.st.RUN? && s.pending.None? && s.unread == IdleLines(n - e, t)
  }

  /** The first system has e calls behind it, the second has been waiting. */
  predicate IdleRun(r: Run, n: nat, e: nat) {
    && |r.m.sys| == 2 && IdleAt(r.m.sys[0], n, e, 1.0)
    && r.m.sys[1].st.INIT? && r.m.sys[1].pending == Some(EntryAt(2.0))
    && r.stamps == [(0.0, 0.0), (2.0, 2.0)]
    && r.totals == [if e == 1 then INF_QTIME else 0.0, INF_QTIME]
  }

  /** While the first system runs, a ready pass changes nothing. */
  lemma FirstVisited(maps: seq<seq<int>>, sys: seq<Sys>, order: seq<nat>)
    requires Tied(maps) && |sys| == 2 && sys[0].st.RUN? && sys[1].st.INIT?
    requires Distinct(order, 2) && 0 in order && 1 in order
    ensures VisitAll(maps, sys, order) == sys
  {
    assert RunningDependent(maps, sys, 1);
    PassExact(maps, sys, order);
    VisitOf(maps, sys, order, 0);
    var p :| 0 <= p < |order| && order[p] == 1;
    assert VisitAll(maps, sys, order)[order[p]] == sys[1];
  }

  /** With nobody running, the call with the later time stamp is visited first, and the visit of the
      other one knocks its system back. */
  lemma BothVisited(maps: seq<seq<int>>, sys: seq<Sys>, ts: seq<real>)
    requires Tied(maps) && |sys| == |ts| == 2 && ts[0] < ts[1] && sys[0].st.INIT? && sys[1].st.INIT?
    ensures VisitAll(maps, sys, VisitOrder(ts)) == [sys[0].(st := READY), sys[1]]
  {
    assert Eligible(maps, sys, 0) && Eligible(maps, sys, 1);
    ReadyAreLocalMinima(maps, sys, ts, 0);
    forall j: nat | Eligible(maps, sys, j) && Dependent(maps, 0, j) ensures Before(ts, j, 0) {
      assert j == 1;
    }
    BeatenWaits(maps, sys, ts, 1, 0);
  }

  /** With the first system running or READY, a run pass executes its call alone. */
  lemma FirstExecutes(m: Vm, order: seq<nat>, tic: int)
    requires |m.sys| == 2 && Active(m.sys[0]) && m.sys[0].pending.Some? && m.sys[1].st.INIT?
    requires Distinct(order, 2) && forall i: nat :: i < 2 ==> i in order
    ensures
      var r := RanAll(m, order, tic).0;
      r.sys[0].st.RUN? && r.sys[0].pending.None? && r.sys[0].unread == m.sys[0].unread && r.sys[1] == m.sys[1]
  {
    RunPassEffect(m, order, tic);
    assert HadTurn(m.sys[0], RanAll(m, order, tic).0.sys[0]) && HadTurn(m.sys[1], RanAll(m, order, tic).0.sys[1]);
  }

  lemma FirstDispatched(maps: seq<seq<int>>, m: Vm, times: seq<Stamp>, totals: seq<real>, tic: int)
    requires Tied(maps) && |m.sys| == |times| == |totals| == 2
    requires m.sys[0].pending.Some? && m.sys[1].st.INIT?
    requires m.sys[0].st.RUN? || (m.sys[0].st.INIT? && times[0].0 < times[1].0)
    ensures
      var r := Dispatch(maps, m, times, totals, tic).m;
      r.sys[0].st.RUN? && r.sys[0].pending.None? && r.sys[0].unread == m.sys[0].unread && r.sys[1] == m.sys[1]
  {
    var order := VisitOrder(Starts(times));
    if m.sys[0].st.RUN? {
      FirstVisited(maps, m.sys, order);
    } else {
      BothVisited(maps, m.sys, Starts(times));
    }
    FirstExecutes(m.(sys := VisitAll(maps, m.sys, order)), order, tic);
  }

  lemma FetchIdle(s: Sys, n: nat, e: nat, t: real, tic: int)
    requires IdleAt(s, n, e, t)
    ensures
      var next := EntryAt(if e == n then t else 0.0);
      Refetched(s, tic) == s.(pending := Some(next), unread := if e == n then [] else IdleLines(n - e - 1, t))
  {
    NextIdle(n - e, t);
  }

  lemma IdleFetches(r: Run, n: nat, e: nat)
    requires Shaped(r) && IdleRun(r, n, e)
    ensures
      var s := Fetches(r);
      && Rested(s) && Live(s) > 0 && s[0].st.RUN? && s[1] == r.m.sys[1]
      && s[0].pending == Some(EntryAt(if e == n then 1.0 else 0.0))
      && (e < n ==> s[0].unread == IdleLines(n - e - 1, 1.0))
      && Stamps(s) == [if e == n then (1.0, 1.0) else (0.0, 0.0), (2.0, 2.0)]
  {
    FetchIdle(r.m.sys[0], n, e, 1.0, r.tic);
    LiveZero(Fetches(r));
  }

  lemma IdleCheck(r: Run, n: nat, e: nat)
    requires Shaped(r) && IdleRun(r, n, e) && e < n
    ensures CheckOf(r) == Check([0.0, INF_QTIME], [])
  {
    IdleFetches(r, n, e);
    var s := Fetches(r);
    var cur, counts := Stamps(s), DoneCounts(s);
    forall i: nat | i < 2 ensures !FiresAt(s, r.stamps, cur, counts, r.totals, i) {
      assert i == 0 ==> Gap(r.stamps, cur, i) == 0.0 && AddGap(r.totals[i], 0.0) == 0.0;
    }
    NoneFired(s, r.stamps, cur, counts, r.totals, 2);
    assert SumsUpTo(s, r.stamps, cur, r.totals, 2) == [0.0, INF_QTIME];
  }

  lemma IdleStep(maps: seq<seq<int>>, r: Run, n: nat, e: nat)
    requires Tied(maps) && Shaped(r) && IdleRun(r, n, e) && e < n
    ensures IdleRun(NextRound(maps, r), n, e + 1)
  {
    IdleFetches(r, n, e);
    IdleCheck(r, n, e);
    FirstDispatched(maps, r.m.(sys := Fetches(r)), Stamps(Fetches(r)), CheckOf(r).sums, r.tic);
  }

  lemma BootIdle(n: nat, t: real)
    ensures
      var s := Refetched(Booted(Waiting(IdleLines(n, t)), true, 0), 0);
      && s.st.INIT? && s.pending == Some(EntryAt(if n == 0 then t else 0.0))
      && s.unread == if n == 0 then [] else IdleLines(n - 1, t)
  {
    NextIdle(n, t);
  }

  lemma IdleOpening(maps: seq<seq<int>>, n: nat)
    requires Tied(maps) && n > 0
    ensures IdleRun(Opening(maps, Beginning(n)), n, 1)
  {
    BootIdle(n, 1.0);
    BootIdle(0, 2.0);
    assert IdleLines(0, 2.0) == Pair(2.0);
    var s := FetchedUpTo(Beginning(n), true, 0, 2);
    assert Stamps(s) == [(0.0, 0.0), (2.0, 2.0)];
    assert seq(2, _ => INF_QTIME) == [INF_QTIME, INF_QTIME];
    FirstDispatched(maps, Vm(s, [], []), Stamps(s), [INF_QTIME, INF_QTIME], 0);
  }

  lemma IdleHead(maps: seq<seq<int>>, n: nat, rs: seq<Run>)
    requires Tied(maps) && n > 0 && IsRun(maps, Beginning(n), rs)
    ensures IdleRun(rs[0], n, 1)
  {
    IdleOpening(maps, n);
  }

  lemma IdleLink(maps: seq<seq<int>>, n: nat, e: nat, r: Run, t: Run)
    requires Tied(maps) && e < n && IdleRun(r, n, e) && Follows(maps, r, t)
    ensures IdleRun(t, n, e + 1)
  {
    IdleStep(maps, r, n, e);
  }

  lemma IdleLinkAt(maps: seq<seq<int>>, n: nat, rs: seq<Run>, j: nat)
    requires Tied(maps) && j + 1 < n && j + 1 < |rs| && Chain(rs, Step(maps)) && IdleRun(rs[j], n, j + 1)
    ensures IdleRun(rs[j + 1], n, j + 2)
  {
    assert LinkAt(rs, Step(maps), j);
    IdleLink(maps, n, j + 1, rs[j], rs[j + 1]);
  }

  lemma IdleRounds(maps: seq<seq<int>>, n: nat, rs: seq<Run>, k: nat)
    requires Tied(maps) && k < n && k < |rs| && Chain(rs, Step(maps)) && IdleRun(rs[0], n, 1)
    ensures IdleRun(rs[k], n, k + 1)
  {
    var P := (r: Run, j: nat) => IdleRun(r, n, j + 1);
    forall j: nat | j < k && P(rs[j], j) ensures P(rs[j + 1], j + 1) {
      IdleLinkAt(maps, n, rs, j);
    }
    ThroughoutAt(rs, P, k);
  }

  lemma IdleDone(s: Sys, n: nat, e: nat, t: real)
    requires SysOk(s, Parse(IdleLines(n, t))) && IdleAt(s, n, e, t)
    ensures NumDone(s) == e
  {
    ParseIdle(n, t);
    ParseIdle(n - e, t);
    assert |Rest(s)| == n - e + 1;
  }

  lemma LastCheck(r: Run, n: nat)
    requires Shaped(r) && IdleRun(r, n, n) && n == QUIET
    requires NumDone(r.m.sys[0]) == QUIET && DoneCounts(Fetches(r)) == DoneCounts(r.m.sys)
    ensures CheckOf(r).fired == [0]
  {
    IdleFetches(r, n, n);
    var s := Fetches(r);
    var cur, counts := Stamps(s), DoneCounts(s);
    assert Gap(r.stamps, cur, 0) == 1.0 && counts[0] == QUIET;
    assert Fires(1.0, QUIET, 1.0);
    CheckStep(s, r.stamps, cur, counts, r.totals, 0);
    CheckStep(s, r.stamps, cur, counts, r.totals, 1);
    assert Checked(s, r.stamps, cur, counts, r.totals, 0).fired == [];
    assert Checked(s, r.stamps, cur, counts, r.totals, 1).fired == [0];
  }

  lemma LastRound(maps: seq<seq<int>>, n: nat, rs: seq<Run>)
    requires n == QUIET && IsRun(maps, Beginning(n), rs) && |rs| == n && IdleRun(rs[n - 1], n, n)
    ensures NumDone(rs[n - 1].m.sys[0]) == QUIET && Shaped(rs[n - 1]) && CheckOf(rs[n - 1]).fired == [0]
  {
    var r, logs := rs[n - 1], Logs(Beginning(n));
    BeginningReadable(n);
    RoundsOk(maps, Beginning(n), rs, n - 1);
    OkReads(r.m.sys, logs);
    assert SysOk(r.m.sys[0], logs[0]);
    IdleDone(r.m.sys[0], n, n, 1.0);
    FetchOk(r.m.sys, logs, false, r.tic);
    LastCheck(r, n);
  }

  /** The gap of the first system, which is running, asks for a pause; the second system, which was
      waiting, is the one moved. */
  predicate MovesOther(r: Run) {
    && Shaped(r) && |r.m.sys| == 2 && Asks(r, 0) && r.m.sys[1].st.INIT?
    && Live(Fetches(r)) > 0 && Pauses(r)[0].st.RUN? && Pauses(r)[1].st.QUIESCENT?
  }

  lemma LastPause(r: Run, n: nat)
    requires Shaped(r) && IdleRun(r, n, n) && CheckOf(r).fired == [0]
    ensures MovesOther(r)
  {
    IdleFetches(r, n, n);
  }

  /** The least number of executed calls after which a gap can ask for a pause. */
  const QUIET: nat := 12

  lemma AttainedAfter(maps: seq<seq<int>>, n: nat) returns (sys: seq<Sys>, rs: seq<Run>)
    requires Tied(maps) && n == QUIET
    ensures AllReadable(sys) && AllCalm(Logs(sys)) && IsRun(maps, sys, rs)
    ensures MovesOther(rs[|rs| - 1]) && NumDone(rs[|rs| - 1].m.sys[0]) == n
  {
    sys := Beginning(n);
    BeginningReadable(n);
    rs := RunOfLength(maps, sys, n);
    IdleHead(maps, n, rs);
    IdleRounds(maps, n, rs, n - 1);
    LastRound(maps, n, rs);
    LastPause(rs[n - 1], n);
  }

  /** The bound of 12 executed calls is attained, by two systems that depend on each other, on logs
      that can be read and whose calls do not overlap; the system that is paused is not the one that
      asked for it. */
  lemma QuietBoundAttained(maps: seq<seq<int>>) returns (sys: seq<Sys>, rs: seq<Run>)
    requires Dependent(maps, 0, 1)
    ensures AllReadable(sys) && AllCalm(Logs(sys)) && IsRun(maps, sys, rs)
    ensures MovesOther(rs[|rs| - 1]) && NumDone(rs[|rs| - 1].m.sys[0]) == 12
  {
    DependentSymmetric(maps, 0, 1);
    sys, rs := AttainedAfter(maps, QUIET);
  }
}
