/** The quiescence check: when the time between two calls of a running system is so long that
    the VM asks for a pause. */
module Quiescence {
  import opened Trace
  import opened Engine
  import opened Phases
  import opened Machine
  import opened Bookkeeping

  const INF_QTIME: real := -1.0

  /** When a call was entered and when it was left. */
  type Stamp = (real, real)

  /** The running total of the gaps of a system; it starts from a marker value. */
  function AddGap(total: real, gap: real): real {
    if total == INF_QTIME then gap else total + gap
  }

  /** The gap is more than ten times the average, taken over the executed calls but one. */
  predicate Fires(total: real, ninstr: int, gap: real) {
    var n := ninstr - 1;
    n > 0 && gap > total / (n as real) * 10.0
  }

  function Gap(prev: seq<Stamp>, cur: seq<Stamp>, i: int): real
    requires 0 <= i < |prev| && i < |cur|
  {
    cur[i].0 - prev[i].1
  }

  /** The running totals, and the systems whose gap asked for a pause, in order. */
  datatype Check = Check(sums: seq<real>, fired: seq<nat>)

  /** System i is still in RUN when its turn comes: the last system of the list may have been
      moved on behalf of an earlier one. */
  predicate StillRuns(sys: seq<Sys>, fired: seq<nat>, i: nat)
    requires i < |sys|
  {
    sys[i].st.RUN? && (i < |sys| - 1 || fired == [])
  }

  /** The check over the first n systems. */
  function Checked(sys: seq<Sys>, prev: seq<Stamp>, cur: seq<Stamp>, ninstr: seq<int>, totals: seq<real>, n: nat)
    : (c: Check)
    requires n <= |sys| == |prev| == |cur| == |ninstr| == |totals|
    ensures |c.sums| == |sys|
  {
    if n == 0 then Check(totals, [])
    else
      var c, i := Checked(sys, prev, cur, ninstr, totals, n - 1), n - 1;
      if !StillRuns(sys, c.fired, i) then c
      else
        var sum := AddGap(c.sums[i], Gap(prev, cur, i));
        Check(c.sums[i := sum], WithFired(c.fired, Fires(sum, ninstr[i], Gap(prev, cur, i)), i))
  }

  function WithFired(fired: seq<nat>, fires: bool, i: nat): seq<nat> {
    if fires then fired + [i] else fired
  }

  lemma CheckStep(sys: seq<Sys>, prev: seq<Stamp>, cur: seq<Stamp>, ninstr: seq<int>, totals: seq<real>, i: nat)
    requires i < |sys| == |prev| == |cur| == |ninstr| == |totals|
    ensures
      var c, d := Checked(sys, prev, cur, ninstr, totals, i), Checked(sys, prev, cur, ninstr, totals, i + 1);
      var runs, gap := StillRuns(sys, c.fired, i), Gap(prev, cur, i);
      var sum := if runs then AddGap(c.sums[i], gap) else c.sums[i];
      d.sums == c.sums[i := sum]
      && d.fired == WithFired(c.fired, runs && Fires(AddGap(c.sums[i], gap), ninstr[i], gap), i)
  {
  }

  predicate FiresAt(sys: seq<Sys>, prev: seq<Stamp>, cur: seq<Stamp>, ninstr: seq<int>, totals: seq<real>, i: nat)
    requires i < |sys| == |prev| == |cur| == |ninstr| == |totals|
  {
    sys[i].st.RUN? && Fires(AddGap(totals[i], Gap(prev, cur, i)), ninstr[i], Gap(prev, cur, i))
  }

  /** The check asks for a pause exactly when the gap of some running system is too long; every
      system that is still running has its gap added to its total, and nobody else. */
  lemma {:induction false} CheckExact(sys: seq<Sys>, prev: seq<Stamp>, cur: seq<Stamp>, ninstr: seq<int>,
                                      totals: seq<real>, n: nat)
    requires n <= |sys| == |prev| == |cur| == |ninstr| == |totals|
    ensures
      var c := Checked(sys, prev, cur, ninstr, totals, n);
      && (c.fired != [] <==> exists i: nat :: i < n && FiresAt(sys, prev, cur, ninstr, totals, i))
      && (forall i :: i in c.fired ==> i < n && FiresAt(sys, prev, cur, ninstr, totals, i))
      && (forall i: nat :: i < n && i < |sys| - 1 ==>
            (i in c.fired <==> FiresAt(sys, prev, cur, ninstr, totals, i))
            && c.sums[i] == if sys[i].st.RUN? then AddGap(totals[i], Gap(prev, cur, i)) else totals[i])
      && (forall i: nat :: i < |sys| ==>
            c.sums[i] == totals[i] || (i < n && sys[i].st.RUN? && c.sums[i] == AddGap(totals[i], Gap(prev, cur, i))))
      && (forall i: nat :: n <= i < |sys| ==> c.sums[i] == totals[i])
  {
    if n > 0 {
      CheckExact(sys, prev, cur, ninstr, totals, n - 1);
      assert FiresAt(sys, prev, cur, ninstr, totals, n - 1) || !FiresAt(sys, prev, cur, ninstr, totals, n - 1);
    }
  }

  /** The system list after the check: the last system of the list is the one that is moved. */
  function Moved(sys: seq<Sys>, moved: bool, tic: int): (r: seq<Sys>)
    requires sys != []
    ensures |r| == |sys|
  {
    var n := |sys| - 1;
    if moved then sys[n := Transition(sys[n], QUIESCENT, tic)] else sys
  }

  /** What the check is for: every running system whose gap is too long is moved itself. */
  function Intended(sys: seq<Sys>, prev: seq<Stamp>, cur: seq<Stamp>, ninstr: seq<int>,
                    totals: seq<real>, tic: int): (r: seq<Sys>)
    requires |sys| == |prev| == |cur| == |ninstr| == |totals|
    ensures |r| == |sys|
  {
    seq(|sys|, i requires 0 <= i < |sys| =>
      if FiresAt(sys, prev, cur, ninstr, totals, i) then Transition(sys[i], QUIESCENT, tic) else sys[i])
  }

  /** The totals if every running one of the first n systems has its gap added. */
  function SumsUpTo(sys: seq<Sys>, prev: seq<Stamp>, cur: seq<Stamp>, totals: seq<real>, n: nat): (r: seq<real>)
    requires |sys| == |prev| == |cur| == |totals|
    ensures |r| == |sys|
  {
    seq(|sys|, i requires 0 <= i < |sys| =>
      if i < n && sys[i].st.RUN? then AddGap(totals[i], Gap(prev, cur, i)) else totals[i])
  }

  predicate AsIntended(sys: seq<Sys>, prev: seq<Stamp>, cur: seq<Stamp>, ninstr: seq<int>,
                       totals: seq<real>, tic: int)
    requires 0 < |sys| == |prev| == |cur| == |ninstr| == |totals|
  {
    var c := Checked(sys, prev, cur, ninstr, totals, |sys|);
    && Moved(sys, c.fired != [], tic) == Intended(sys, prev, cur, ninstr, totals, tic)
    && c.sums == SumsUpTo(sys, prev, cur, totals, |sys|)
  }

  /** The gap of a running system with at least two calls, times its calls less one, exceeds ten times
      the total that includes the gap; -1 stands for no total yet. */
  predicate TooLong(sys: seq<Sys>, prev: seq<Stamp>, cur: seq<Stamp>, ninstr: seq<int>, totals: seq<real>, i: nat)
    requires i < |sys| == |prev| == |cur| == |ninstr| == |totals|
  {
    var gap := cur[i].0 - prev[i].1;
    var total := if totals[i] == -1.0 then gap else totals[i] + gap;
    sys[i].st.RUN? && ninstr[i] >= 2 && gap * (ninstr[i] - 1) as real > 10.0 * total
  }

  lemma FiresAtExactly(sys: seq<Sys>, prev: seq<Stamp>, cur: seq<Stamp>, ninstr: seq<int>, totals: seq<real>, i: nat)
    requires i < |sys| == |prev| == |cur| == |ninstr| == |totals|
    ensures FiresAt(sys, prev, cur, ninstr, totals, i) <==> TooLong(sys, prev, cur, ninstr, totals, i)
  {
    var gap := Gap(prev, cur, i);
    FiresExactly(totals[i], ninstr[i], gap, AddGap(totals[i], gap));
  }

  /** The check does what it is for if and only if no gap of a running system other than the last
      one is too long. */
  lemma MovesAsIntended(sys: seq<Sys>, prev: seq<Stamp>, cur: seq<Stamp>, ninstr: seq<int>,
                        totals: seq<real>, tic: int)
    requires 0 < |sys| == |prev| == |cur| == |ninstr| == |totals|
    ensures AsIntended(sys, prev, cur, ninstr, totals, tic)
            <==> forall i: nat :: i < |sys| - 1 ==> !TooLong(sys, prev, cur, ninstr, totals, i)
  {
    forall i: nat | i < |sys|
      ensures FiresAt(sys, prev, cur, ninstr, totals, i) <==> TooLong(sys, prev, cur, ninstr, totals, i)
    {
      FiresAtExactly(sys, prev, cur, ninstr, totals, i);
    }
    if i: nat :| i < |sys| - 1 && FiresAt(sys, prev, cur, ninstr, totals, i) {
      MovesAnother(sys, prev, cur, ninstr, totals, tic, i);
    } else {
      MovesRight(sys, prev, cur, ninstr, totals, tic, |sys| - 1);
    }
  }

  lemma MovesAnother(sys: seq<Sys>, prev: seq<Stamp>, cur: seq<Stamp>, ninstr: seq<int>,
                     totals: seq<real>, tic: int, i: nat)
    requires i + 1 < |sys| == |prev| == |cur| == |ninstr| == |totals|
    requires FiresAt(sys, prev, cur, ninstr, totals, i)
    ensures !AsIntended(sys, prev, cur, ninstr, totals, tic)
  {
    assert Intended(sys, prev, cur, ninstr, totals, tic)[i].st.QUIESCENT?;
    assert forall moved :: Moved(sys, moved, tic)[i] == sys[i];
  }

  lemma MovesRight(sys: seq<Sys>, prev: seq<Stamp>, cur: seq<Stamp>, ninstr: seq<int>,
                   totals: seq<real>, tic: int, n: nat)
    requires n + 1 == |sys| == |prev| == |cur| == |ninstr| == |totals|
    requires forall i: nat :: i < n ==> !FiresAt(sys, prev, cur, ninstr, totals, i)
    ensures AsIntended(sys, prev, cur, ninstr, totals, tic)
  {
    NoneFired(sys, prev, cur, ninstr, totals, n);
    SumsStep(sys, prev, cur, ninstr, totals, n);
    MovesLast(sys, prev, cur, ninstr, totals, tic);
  }

  lemma SumsStep(sys: seq<Sys>, prev: seq<Stamp>, cur: seq<Stamp>, ninstr: seq<int>,
                 totals: seq<real>, n: nat)
    requires n < |sys| == |prev| == |cur| == |ninstr| == |totals|
    requires Checked(sys, prev, cur, ninstr, totals, n) == Check(SumsUpTo(sys, prev, cur, totals, n), [])
    ensures
      var c := Checked(sys, prev, cur, ninstr, totals, n + 1);
      c.sums == SumsUpTo(sys, prev, cur, totals, n + 1)
      && c.fired == WithFired([], FiresAt(sys, prev, cur, ninstr, totals, n), n)
  {
    CheckStep(sys, prev, cur, ninstr, totals, n);
  }

  lemma {:induction false} NoneFired(sys: seq<Sys>, prev: seq<Stamp>, cur: seq<Stamp>, ninstr: seq<int>,
                                     totals: seq<real>, n: nat)
    requires n <= |sys| == |prev| == |cur| == |ninstr| == |totals|
    requires forall i: nat :: i < n ==> !FiresAt(sys, prev, cur, ninstr, totals, i)
    ensures Checked(sys, prev, cur, ninstr, totals, n) == Check(SumsUpTo(sys, prev, cur, totals, n), [])
  {
    if n == 0 {
      assert SumsUpTo(sys, prev, cur, totals, 0) == totals;
    } else {
      NoneFired(sys, prev, cur, ninstr, totals, n - 1);
      SumsStep(sys, prev, cur, ninstr, totals, n - 1);
    }
  }

  lemma MovesLast(sys: seq<Sys>, prev: seq<Stamp>, cur: seq<Stamp>, ninstr: seq<int>,
                  totals: seq<real>, tic: int)
    requires 0 < |sys| == |prev| == |cur| == |ninstr| == |totals|
    requires forall i: nat :: i < |sys| - 1 ==> !FiresAt(sys, prev, cur, ninstr, totals, i)
    ensures Moved(sys, FiresAt(sys, prev, cur, ninstr, totals, |sys| - 1), tic)
            == Intended(sys, prev, cur, ninstr, totals, tic)
  {
    var n := |sys| - 1;
    forall i: nat | i < |sys|
      ensures Moved(sys, FiresAt(sys, prev, cur, ninstr, totals, n), tic)[i]
              == Intended(sys, prev, cur, ninstr, totals, tic)[i]
    {
      assert i < n ==> !FiresAt(sys, prev, cur, ninstr, totals, i);
    }
  }

  lemma MovedTwice(sys: seq<Sys>, moved: bool, tic: int)
    requires sys != []
    ensures Moved(Moved(sys, moved, tic), true, tic) == Moved(sys, true, tic)
  {
    var n := |sys| - 1;
    assert Transition(Transition(sys[n], QUIESCENT, tic), QUIESCENT, tic) == Transition(sys[n], QUIESCENT, tic);
  }

  lemma MovedAt(sys: seq<Sys>, moved: bool, tic: int, i: nat)
    requires i < |sys|
    ensures var r, n := Moved(sys, moved, tic), |sys| - 1;
            && (r[i].st.RUN? <==> sys[i].st.RUN? && (i < n || !moved))
            && (!sys[n].st.INVALID? && Settled(sys[n]) ==> !r[n].st.INVALID? && Settled(r[n]))
  {
  }

  /** What one turn of the check does, given the systems as the turns before have left them. */
  lemma TurnOf(sys: seq<Sys>, prev: seq<Stamp>, cur: seq<Stamp>, ninstr: seq<int>, totals: seq<real>,
               tic: int, i: nat, c: Check)
    requires i < |sys| == |prev| == |cur| == |ninstr| == |totals|
    requires c == Checked(sys, prev, cur, ninstr, totals, i)
    ensures
      var now := Moved(sys, c.fired != [], tic);
      var gap := Gap(prev, cur, i);
      var runs := now[i].st.RUN?;
      var more := WithFired(c.fired, runs && Fires(AddGap(c.sums[i], gap), ninstr[i], gap), i);
      var sum := if runs then AddGap(c.sums[i], gap) else c.sums[i];
      && Checked(sys, prev, cur, ninstr, totals, i + 1) == Check(c.sums[i := sum], more)
      && Moved(sys, more != [], tic) == (if more != c.fired then Moved(now, true, tic) else now)
  {
    MovedAt(sys, c.fired != [], tic, i);
    MovedTwice(sys, c.fired != [], tic);
    CheckStep(sys, prev, cur, ninstr, totals, i);
  }

  /** The same in terms of the values before and after the turn. */
  lemma TurnDone(sys: seq<Sys>, prev: seq<Stamp>, cur: seq<Stamp>, ninstr: seq<int>, totals: seq<real>, tic: int,
                 i: nat, c: Check, now: seq<Sys>, gap: real, sum: real, fires: bool, after: seq<Sys>)
    requires i < |sys| == |prev| == |cur| == |ninstr| == |totals|
    requires c == Checked(sys, prev, cur, ninstr, totals, i) && now == Moved(sys, c.fired != [], tic)
    requires gap == cur[i].0 - prev[i].1
    requires
      && sum == (if now[i].st.RUN? then (if c.sums[i] == -1.0 then gap else c.sums[i] + gap) else c.sums[i])
      && fires == (now[i].st.RUN? && Fires(AddGap(c.sums[i], gap), ninstr[i], gap))
    requires after == if fires then Moved(now, true, tic) else now
    ensures
      var more := WithFired(c.fired, fires, i);
      && Checked(sys, prev, cur, ninstr, totals, i + 1) == Check(c.sums[i := sum], more)
      && after == Moved(sys, more != [], tic)
  {
    TurnOf(sys, prev, cur, ninstr, totals, tic, i, c);
  }

  /** The calls of a trace do not overlap. */
  ghost predicate Calm(log: Log) {
    forall k :: 0 < k < |log.entries| ==> log.entries[k].enter >= log.entries[k - 1].exit
  }

  lemma Quotients(t: real, n: real, gap: real)
    requires n > 0.0 && gap > t / n * 10.0
    ensures gap * n > t * 10.0
  {
    var q := t / n;
    assert q * n == t;
    assert gap > q * 10.0;
    assert (gap - q * 10.0) * n > 0.0;
    assert (gap - q * 10.0) * n == gap * n - (q * n) * 10.0;
  }

  lemma Products(t: real, n: real, gap: real)
    requires n > 0.0 && gap <= t / n * 10.0
    ensures gap * n <= t * 10.0
  {
    var q := t / n;
    assert q * n == t;
    assert (q * 10.0 - gap) * n >= 0.0;
    assert (q * 10.0 - gap) * n == (q * n) * 10.0 - gap * n;
  }

  /** When a gap asks for a pause: from the second executed call on, if it is more than ten times the
      total so far, itself included, divided by the number of executed calls less one. */
  lemma FiresExactly(total: real, ninstr: int, gap: real, sum: real)
    requires sum == if total == -1.0 then gap else total + gap
    ensures AddGap(total, gap) == sum
    ensures Fires(sum, ninstr, gap) <==> ninstr >= 2 && gap * (ninstr - 1) as real > 10.0 * sum
  {
    if ninstr >= 2 {
      var n := (ninstr - 1) as real;
      if gap > sum / n * 10.0 {
        Quotients(sum, n, gap);
      } else {
        Products(sum, n, gap);
      }
    }
  }

  /** Another system has asked for a pause, and i is the last one of the list. */
  predicate Skipped(fired: seq<nat>, last: bool, i: nat) {
    last && exists k :: k in fired && k != i
  }

  /** The check in plain sums. A running system has its gap added to its total, where -1 stands for no
      total yet, and it asks for a pause exactly when the gap times its calls less one exceeds ten times
      its new total; only the last system of the list is skipped if another one has asked. */
  lemma CheckBySums(sys: seq<Sys>, prev: seq<Stamp>, cur: seq<Stamp>, ninstr: seq<int>, totals: seq<real>,
                    i: nat, n: nat, c: Check, gap: real, sum: real)
    requires i < n == |sys| == |prev| == |cur| == |ninstr| == |totals|
    requires c == Checked(sys, prev, cur, ninstr, totals, n)
    requires gap == cur[i].0 - prev[i].1 && sum == if totals[i] == -1.0 then gap else totals[i] + gap
    ensures
      var turn := sys[i].st.RUN? && !Skipped(c.fired, i + 1 == n, i);
      && c.sums[i] == (if turn then sum else totals[i])
      && (i in c.fired <==> turn && ninstr[i] >= 2 && gap * (ninstr[i] - 1) as real > 10.0 * sum)
  {
    FiresExactly(totals[i], ninstr[i], gap, sum);
    if i + 1 < n {
      EarlyTurn(sys, prev, cur, ninstr, totals, i, n, c, gap, sum);
    } else {
      FinalTurn(sys, prev, cur, ninstr, totals, i, n, c, gap, sum);
    }
  }

  lemma EarlyTurn(sys: seq<Sys>, prev: seq<Stamp>, cur: seq<Stamp>, ninstr: seq<int>, totals: seq<real>,
                  i: nat, n: nat, c: Check, gap: real, sum: real)
    requires i + 1 < n == |sys| == |prev| == |cur| == |ninstr| == |totals|
    requires c == Checked(sys, prev, cur, ninstr, totals, n)
    requires gap == Gap(prev, cur, i) && sum == AddGap(totals[i], gap)
    ensures c.sums[i] == (if sys[i].st.RUN? then sum else totals[i])
    ensures i in c.fired <==> sys[i].st.RUN? && Fires(sum, ninstr[i], gap)
  {
    CheckExact(sys, prev, cur, ninstr, totals, n);
    assert FiresAt(sys, prev, cur, ninstr, totals, i) <==> sys[i].st.RUN? && Fires(sum, ninstr[i], gap);
  }

  lemma FinalTurn(sys: seq<Sys>, prev: seq<Stamp>, cur: seq<Stamp>, ninstr: seq<int>, totals: seq<real>,
                  i: nat, n: nat, c: Check, gap: real, sum: real)
    requires i + 1 == n == |sys| == |prev| == |cur| == |ninstr| == |totals|
    requires c == Checked(sys, prev, cur, ninstr, totals, n)
    requires gap == Gap(prev, cur, i) && sum == AddGap(totals[i], gap)
    ensures
      var turn := sys[i].st.RUN? && !Skipped(c.fired, true, i);
      && c.sums[i] == (if turn then sum else totals[i])
      && (i in c.fired <==> turn && Fires(sum, ninstr[i], gap))
  {
    var b := Checked(sys, prev, cur, ninstr, totals, i);
    assert b.sums[i] == totals[i] && forall k :: k in b.fired ==> k < i by {
      CheckExact(sys, prev, cur, ninstr, totals, i);
    }
    CheckStep(sys, prev, cur, ninstr, totals, i);
    LastTurn(b.fired, c.fired, sys[i].st.RUN? && b.fired == [] && Fires(sum, ninstr[i], gap), i);
  }

  lemma LastTurn(before: seq<nat>, fired: seq<nat>, fires: bool, i: nat)
    requires fired == WithFired(before, fires, i) && forall k :: k in before ==> k < i
    ensures i in fired <==> fires
    ensures Skipped(fired, true, i) <==> before != []
  {
    if before != [] {
      assert before[0] in before && before[0] in fired;
    }
  }

  lemma AtMostTen(gap: real, n: real)
    requires gap >= 0.0 && n <= 10.0
    ensures gap * n <= gap * 10.0
  {
  }

  /** With non-negative gaps, the check can only ask for a pause once the system has executed at
      least 12 calls: the total includes the gap itself. */
  lemma QuietBound(total: real, ninstr: int, gap: real)
    requires gap >= 0.0 && (total == INF_QTIME || total >= 0.0)
    requires Fires(AddGap(total, gap), ninstr, gap)
    ensures ninstr >= 12
  {
    var n := (ninstr - 1) as real;
    var t := AddGap(total, gap);
    Quotients(t, n, gap);
    assert t >= gap;
    if ninstr <= 11 {
      AtMostTen(gap, n);
      assert false;
    }
  }

  /** A cached call is the first of the calls left. */
  lemma PendingEntry(s: Sys, log: Log)
    requires OnTrack(s, log) && !s.st.FINALIZE? && s.pending.Some?
    ensures 0 < Left(s) <= |log.entries| && s.pending.value == log.entries[|log.entries| - Left(s)]
  {
    assert Rest(s)[0] == log.entries[NumDone(s)..][0];
  }

  /** The VM remembers for each running system when its last executed call was left. */
  ghost predicate Stamped(logs: seq<Log>, sys: seq<Sys>, prev: seq<Stamp>) {
    |logs| == |sys| == |prev|
    && forall i :: 0 <= i < |sys| && sys[i].st.RUN? ==> StampedAt(logs[i], Left(sys[i]), prev[i])
  }

  ghost predicate StampedAt(log: Log, left: nat, prev: Stamp) {
    left < |log.entries| && prev.1 == log.entries[|log.entries| - left - 1].exit
  }

  /** The gap that the check looks at is the time between two consecutive calls. */
  lemma GapNonNegative(log: Log, s: Sys, prev: Stamp, cur: Stamp)
    requires OnTrack(s, log) && s.st.RUN? && s.pending.Some? && Calm(log)
    requires StampedAt(log, Left(s), prev) && cur.0 == s.pending.value.enter
    ensures cur.0 - prev.1 >= 0.0
  {
    PendingEntry(s, log);
  }

  ghost predicate Counting(totals: seq<real>) {
    forall i :: 0 <= i < |totals| ==> totals[i] == INF_QTIME || totals[i] >= 0.0
  }

  ghost predicate GapsOk(sys: seq<Sys>, prev: seq<Stamp>, cur: seq<Stamp>) {
    |sys| == |prev| == |cur| && forall i: nat :: i < |sys| && sys[i].st.RUN? ==> Gap(prev, cur, i) >= 0.0
  }

  lemma CalmGaps(logs: seq<Log>, sys: seq<Sys>, prev: seq<Stamp>, cur: seq<Stamp>)
    requires |sys| == |prev| == |cur| && AllOk(sys, logs) && Stamped(logs, sys, prev)
    requires forall i :: 0 <= i < |sys| ==> Calm(logs[i])
    requires forall i :: 0 <= i < |sys| && sys[i].st.RUN? ==>
               sys[i].pending.Some? && cur[i].0 == sys[i].pending.value.enter
    ensures GapsOk(sys, prev, cur)
  {
    forall i: nat | i < |sys| && sys[i].st.RUN? ensures Gap(prev, cur, i) >= 0.0 {
      assert OnTrack(sys[i], logs[i]);
      GapNonNegative(logs[i], sys[i], prev[i], cur[i]);
    }
  }

  /** With non-negative gaps the totals stay so, and a pause is asked for only after 12 calls. */
  lemma CheckBound(sys: seq<Sys>, prev: seq<Stamp>, cur: seq<Stamp>, ninstr: seq<int>, totals: seq<real>)
    requires GapsOk(sys, prev, cur) && |ninstr| == |totals| == |sys| && Counting(totals)
    ensures
      var c := Checked(sys, prev, cur, ninstr, totals, |sys|);
      Counting(c.sums) && forall i :: i in c.fired ==> i < |sys| && ninstr[i] >= 12
  {
    CheckExact(sys, prev, cur, ninstr, totals, |sys|);
    var c := Checked(sys, prev, cur, ninstr, totals, |sys|);
    forall i | i in c.fired ensures i < |sys| && ninstr[i] >= 12 {
      assert FiresAt(sys, prev, cur, ninstr, totals, i);
      QuietBound(totals[i], ninstr[i], Gap(prev, cur, i));
    }
  }
}
