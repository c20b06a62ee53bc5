/** The generated driver, which calls the run functions of the systems. */
module Driver {
  import opened Replay

  /** What a driver run does: the calls it makes, and whether it got through without reading
      outside a list. */
  datatype Drive = Drive(events: seq<Event>, ok: bool)

  /** The first n turns of the driver's main loop. Turn i runs system i, in the phase that the
      system has come to. */
  function Driven(phases: seq<seq<seq<string>>>, n: nat): Drive {
    if n == 0 then Drive([], true)
    else
      var d := Driven(phases, n - 1);
      if d.ok && n - 1 < |phases| && phases[n - 1] != [] then Drive(d.events + Tag(n - 1, phases[n - 1][0]), true)
      else Drive(d.events, false)
  }

  /** The main loop over the run sequence. Its body uses the position in the run sequence as the
      index of the system, not the entry at that position. */
  method RunDriver(runs: seq<nat>, phases: seq<seq<seq<string>>>) returns (events: seq<Event>, ok: bool)
    ensures Drive(events, ok) == Driven(phases, |runs|)
  {
    events, ok := [], true;
    var phase: seq<nat> := seq(|phases|, _ => 0);
    for i := 0 to |runs|
      invariant Drive(events, ok) == Driven(phases, i) && ok
      invariant |phase| == |phases| && forall k :: i <= k < |phase| ==> phase[k] == 0
    {
      if i >= |phases| {
        DrivenStuck(phases, i + 1, |runs|);
        return events, false;
      }
      var p := phase[i];
      phase := phase[i := p + 1];
      if p >= |phases[i]| {
        DrivenStuck(phases, i + 1, |runs|);
        return events, false;
      }
      events := events + Tag(i, phases[i][p]);
    }
  }

  lemma {:induction false} DrivenStuck(phases: seq<seq<seq<string>>>, n: nat, k: nat)
    requires n <= k && !Driven(phases, n).ok
    ensures Driven(phases, k) == Driven(phases, n)
    decreases k
  {
    if n < k {
      DrivenStuck(phases, n, k - 1);
    }
  }

  /** The run sequence names every system once per phase, and no phase is empty. */
  ghost predicate Recorded(runs: seq<nat>, phases: seq<seq<seq<string>>>) {
    && (forall i: nat :: i < |phases| ==> Count(runs, i) == |phases[i]|)
    && (forall k :: 0 <= k < |runs| ==> runs[k] < |phases|)
    && forall i, k :: 0 <= i < |phases| && 0 <= k < |phases[i]| ==> phases[i][k] != []
  }

  ghost predicate Counting(runs: seq<nat>) {
    forall k :: 0 <= k < |runs| ==> runs[k] == k
  }

  lemma {:induction false} CountIota(runs: seq<nat>, x: nat)
    requires Counting(runs)
    ensures Count(runs, x) == if x < |runs| then 1 else 0
    decreases |runs|
  {
    if runs != [] {
      CountIota(runs[..|runs| - 1], x);
    }
  }

  lemma {:induction false} CountPrefix(runs: seq<nat>, n: nat, x: nat)
    requires n <= |runs|
    ensures Count(runs[..n], x) <= Count(runs, x)
    decreases |runs|
  {
    if n < |runs| {
      assert runs[..|runs| - 1][..n] == runs[..n];
      CountPrefix(runs[..|runs| - 1], n, x);
    } else {
      assert runs[..n] == runs;
    }
  }

  /** Replaying a longer run sequence continues the replay of a shorter one. */
  lemma {:induction false} ReplayedPrefix(runs: seq<nat>, phases: seq<seq<seq<string>>>, n: nat)
    requires n <= |runs|
    ensures Replayed(runs[..n], phases) <= Replayed(runs, phases)
    decreases |runs|
  {
    if n < |runs| {
      assert runs[..|runs| - 1][..n] == runs[..n];
      ReplayedPrefix(runs[..|runs| - 1], phases, n);
    } else {
      assert runs[..n] == runs;
    }
  }

  lemma {:induction false} DrivenPrefix(phases: seq<seq<seq<string>>>, n: nat, k: nat)
    requires n <= k
    ensures Driven(phases, n).events <= Driven(phases, k).events
    ensures Driven(phases, k).ok ==> Driven(phases, n).ok
    decreases k
  {
    if n < k {
      DrivenPrefix(phases, n, k - 1);
    }
  }

  /** The run sequence 0, 1, 2, ... is driven as it should be. */
  lemma {:induction false} CountingDriven(runs: seq<nat>, phases: seq<seq<seq<string>>>)
    requires Counting(runs) && |runs| <= |phases| && forall i :: 0 <= i < |runs| ==> phases[i] != []
    ensures Driven(phases, |runs|) == Drive(Replayed(runs, phases), true)
    decreases |runs|
  {
    if runs != [] {
      var init := runs[..|runs| - 1];
      CountingDriven(init, phases);
      CountIota(init, |runs| - 1);
    }
  }

  /** After the phases of the first k entries, the replay goes on with system runs[k]. */
  lemma NextReplayed(runs: seq<nat>, phases: seq<seq<seq<string>>>, k: nat)
    requires Recorded(runs, phases) && k < |runs|
    ensures
      var n := |Replayed(runs[..k], phases)|;
      n < |Replayed(runs, phases)| && Replayed(runs, phases)[n].0 == runs[k]
  {
    var upTo, l := runs[..k + 1], runs[k];
    assert upTo[..k] == runs[..k];
    CountPrefix(runs, k + 1, l);
    assert Count(upTo, l) == Count(runs[..k], l) + 1;
    var c := Count(runs[..k], l);
    assert phases[l][c] != [] && Segment(phases, l, c)[0].0 == l;
    ReplayedPrefix(runs, phases, k + 1);
    assert Replayed(upTo, phases) == Replayed(runs[..k], phases) + Segment(phases, l, c);
  }

  /** After its first k turns, a successful driver run goes on with system k. */
  lemma NextDriven(phases: seq<seq<seq<string>>>, k: nat, total: nat)
    requires k < total && Driven(phases, total).ok
    requires forall i, p :: 0 <= i < |phases| && 0 <= p < |phases[i]| ==> phases[i][p] != []
    ensures
      var n := |Driven(phases, k).events|;
      n < |Driven(phases, total).events| && Driven(phases, total).events[n].0 == k
      && k < |phases| && phases[k] != []
  {
    DrivenPrefix(phases, k + 1, total);
    assert phases[k][0] != [];
    assert Driven(phases, k + 1).events == Driven(phases, k).events + Tag(k, phases[k][0]);
  }

  lemma EnoughPhases(phases: seq<seq<seq<string>>>, k: nat, total: nat)
    requires k <= total && Driven(phases, total).ok
    requires forall i, p :: 0 <= i < |phases| && 0 <= p < |phases[i]| ==> phases[i][p] != []
    ensures k <= |phases| && forall i :: 0 <= i < k ==> phases[i] != []
  {
    forall i: nat | i < k ensures i < |phases| && phases[i] != [] {
      NextDriven(phases, i, total);
    }
    if k > 0 {
      NextDriven(phases, k - 1, total);
    }
  }

  lemma CountsOn(runs: seq<nat>, phases: seq<seq<seq<string>>>, k: nat)
    requires Recorded(runs, phases) && k < |runs| && Counting(runs[..k])
    requires Driven(phases, |runs|) == Drive(Replayed(runs, phases), true)
    ensures runs[k] == k
  {
    EnoughPhases(phases, k, |runs|);
    CountingDriven(runs[..k], phases);
    NextReplayed(runs, phases, k);
    NextDriven(phases, k, |runs|);
  }

  /** If the driver's calls are those of the replay, the run sequence counts up from 0. */
  lemma {:induction false} DrivenCounts(runs: seq<nat>, phases: seq<seq<seq<string>>>, n: nat)
    requires Recorded(runs, phases) && n <= |runs|
    requires Driven(phases, |runs|) == Drive(Replayed(runs, phases), true)
    ensures Counting(runs[..n])
    decreases n
  {
    if n > 0 {
      DrivenCounts(runs, phases, n - 1);
      CountsOn(runs, phases, n - 1);
      assert forall k :: 0 <= k < n - 1 ==> runs[..n][k] == runs[..n - 1][k];
    }
  }

  /** The driver as written performs the replay that the VM recorded if and only if the run
      sequence is 0, 1, 2, ...: no system has a second phase and they start in list order. */
  lemma DriverFaithful(runs: seq<nat>, phases: seq<seq<seq<string>>>)
    requires Recorded(runs, phases)
    ensures Driven(phases, |runs|) == Drive(Replayed(runs, phases), true) <==> Counting(runs)
  {
    if Counting(runs) {
      forall i: nat | i < |runs| ensures i < |phases| && phases[i] != [] {
        assert runs[i] < |phases|;
        CountIota(runs, i);
      }
      assert |runs| > 0 ==> runs[|runs| - 1] < |phases|;
      CountingDriven(runs, phases);
    }
    if Driven(phases, |runs|) == Drive(Replayed(runs, phases), true) {
      DrivenCounts(runs, phases, |runs|);
      assert runs[..|runs|] == runs;
    }
  }
}
