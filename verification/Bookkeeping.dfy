/** Counting the live systems and the work left. */
module Bookkeeping {
  import opened Engine
  import opened Phases

  /** The number of systems that are not in FINALIZE. */
  function Live(sys: seq<Sys>): nat {
    if sys == [] then 0 else Live(sys[..|sys| - 1]) + if sys[|sys| - 1].st.FINALIZE? then 0 else 1
  }

  /** The number of calls a system has still to execute. */
  function Left(s: Sys): nat {
    if s.st.FINALIZE? then 0 else |Rest(s)|
  }

  function Work(sys: seq<Sys>): nat {
    if sys == [] then 0 else Work(sys[..|sys| - 1]) + Left(sys[|sys| - 1])
  }

  lemma {:induction false} LiveUpdate(sys: seq<Sys>, i: nat, t: Sys)
    requires i < |sys|
    ensures Live(sys[i := t]) == Live(sys) - (if sys[i].st.FINALIZE? then 0 else 1) + if t.st.FINALIZE? then 0 else 1
    decreases |sys|
  {
    var n := |sys| - 1;
    if i < n {
      assert sys[i := t][..n] == sys[..n][i := t];
      LiveUpdate(sys[..n], i, t);
    } else {
      assert sys[i := t][..n] == sys[..n];
    }
  }

  lemma {:induction false} LiveZero(sys: seq<Sys>)
    ensures Live(sys) == 0 <==> forall i :: 0 <= i < |sys| ==> sys[i].st.FINALIZE?
    ensures (forall i :: 0 <= i < |sys| ==> !sys[i].st.FINALIZE?) ==> Live(sys) == |sys|
    decreases |sys|
  {
    if sys != [] {
      LiveZero(sys[..|sys| - 1]);
    }
  }

  lemma {:induction false} LiveSame(a: seq<Sys>, b: seq<Sys>)
    requires |a| == |b| && forall i :: 0 <= i < |a| ==> (a[i].st.FINALIZE? <==> b[i].st.FINALIZE?)
    ensures Live(a) == Live(b)
    decreases |a|
  {
    if a != [] {
      LiveSame(a[..|a| - 1], b[..|b| - 1]);
    }
  }

  /** No system has more to do, and system k has less: there is less work. */
  lemma {:induction false} WorkFalls(a: seq<Sys>, b: seq<Sys>, k: int)
    requires |a| == |b| && -1 <= k < |a|
    requires forall i :: 0 <= i < |a| ==> Left(b[i]) <= Left(a[i])
    requires k >= 0 ==> Left(b[k]) < Left(a[k])
    ensures if k >= 0 then Work(b) < Work(a) else Work(b) <= Work(a)
    decreases |a|
  {
    if a != [] {
      WorkFalls(a[..|a| - 1], b[..|b| - 1], if k == |a| - 1 then -1 else k);
    }
  }
}
