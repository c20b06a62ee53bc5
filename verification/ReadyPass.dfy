/** The ready pass: visiting the systems one after another, each visit knocking dependent READY
    systems back. */
module ReadyPass {
  import opened Engine
  import opened Machine

  /** Neither running nor finalized, and no dependent system runs. */
  ghost predicate Eligible(maps: seq<seq<int>>, sys: seq<Sys>, i: nat) {
    i < |sys| && (sys[i].st.INIT? || sys[i].st.READY? || sys[i].st.QUIESCENT?) && !RunningDependent(maps, sys, i)
  }

  function VisitAll(maps: seq<seq<int>>, sys: seq<Sys>, order: seq<nat>): (r: seq<Sys>)
    requires forall p :: 0 <= p < |order| ==> order[p] < |sys|
    ensures |r| == |sys|
  {
    if order == [] then sys
    else Visited(maps, VisitAll(maps, sys, order[..|order| - 1]), order[|order| - 1])
  }

  /** Positions of distinct systems. */
  ghost predicate Distinct(order: seq<nat>, n: nat) {
    (forall p :: 0 <= p < |order| ==> order[p] < n)
    && forall p, q :: 0 <= p < q < |order| ==> order[p] != order[q]
  }

  /** Nobody visited after position p is an eligible dependent. */
  ghost predicate Unbeaten(maps: seq<seq<int>>, sys: seq<Sys>, order: seq<nat>, p: nat)
    requires p < |order|
  {
    forall q :: p < q < |order| && Eligible(maps, sys, order[q]) ==> !Dependent(maps, order[p], order[q])
  }

  ghost predicate PassResult(maps: seq<seq<int>>, sys: seq<Sys>, order: seq<nat>, r: seq<Sys>) {
    |r| == |sys|
    && (forall i: nat :: i < |sys| && i !in order ==> r[i] == sys[i])
    && forall p: nat :: p < |order| && order[p] < |sys| ==>
         r[order[p]] ==
         if !Eligible(maps, sys, order[p]) then sys[order[p]]
         else sys[order[p]].(st := if Unbeaten(maps, sys, order, p) then READY else INIT)
  }

  lemma {:induction false} PassExact(maps: seq<seq<int>>, sys: seq<Sys>, order: seq<nat>)
    requires Distinct(order, |sys|)
    requires forall i :: 0 <= i < |sys| ==> !sys[i].st.READY?
    ensures PassResult(maps, sys, order, VisitAll(maps, sys, order))
    decreases |order|
  {
    if order != [] {
      var init, v := order[..|order| - 1], order[|order| - 1];
      PassExact(maps, sys, init);
      PassExtend(maps, sys, init, v, VisitAll(maps, sys, init));
      assert order == init + [v];
    }
  }

  lemma PassExtend(maps: seq<seq<int>>, sys: seq<Sys>, init: seq<nat>, v: nat, r: seq<Sys>)
    requires Distinct(init + [v], |sys|) && PassResult(maps, sys, init, r)
    requires forall i :: 0 <= i < |sys| ==> !sys[i].st.READY?
    ensures v < |r| && PassResult(maps, sys, init + [v], Visited(maps, r, v))
  {
    var order := init + [v];
    assert order[|init|] == v && forall q :: 0 <= q < |init| ==> order[q] == init[q];
    SameRunning(maps, sys, init, r);
    var t := Visited(maps, r, v);
    forall p: nat | p < |order| && order[p] < |sys|
      ensures t[order[p]] ==
        if !Eligible(maps, sys, order[p]) then sys[order[p]]
        else sys[order[p]].(st := if Unbeaten(maps, sys, order, p) then READY else INIT)
    {
      DependentSymmetric(maps, v, order[p]);
      if p < |init| {
        assert order[p] == init[p] && init[p] != v;
        UnbeatenExtend(maps, sys, init, v, p);
      }
    }
    forall i: nat | i < |sys| && i !in order ensures t[i] == sys[i] {
      assert v in order && forall x :: x in init ==> x in order;
    }
  }

  lemma UnbeatenExtend(maps: seq<seq<int>>, sys: seq<Sys>, init: seq<nat>, v: nat, p: nat)
    requires p < |init|
    ensures Unbeaten(maps, sys, init + [v], p) <==>
            Unbeaten(maps, sys, init, p) && !(Eligible(maps, sys, v) && Dependent(maps, init[p], v))
  {
    var order := init + [v];
    assert order[|init|] == v && forall q :: 0 <= q < |init| ==> order[q] == init[q];
  }

  /** A pass changes nobody's being in RUN, so eligibility is the same throughout. */
  lemma SameRunning(maps: seq<seq<int>>, sys: seq<Sys>, order: seq<nat>, r: seq<Sys>)
    requires PassResult(maps, sys, order, r) && Distinct(order, |sys|)
    ensures forall i: nat :: i < |sys| ==> (r[i].st.RUN? <==> sys[i].st.RUN?)
    ensures forall i: nat :: RunningDependent(maps, r, i) == RunningDependent(maps, sys, i)
  {
    forall i: nat | i < |sys| ensures r[i].st.RUN? <==> sys[i].st.RUN? {
      if i in order {
        var p :| 0 <= p < |order| && order[p] == i;
      }
    }
  }

  /** System a is visited before b: it has the later time stamp, or the same one and the smaller
      index (a stable sort in descending order). */
  predicate Before(ts: seq<real>, a: nat, b: nat)
    requires a < |ts| && b < |ts|
  {
    ts[a] > ts[b] || (ts[a] == ts[b] && a < b)
  }

  ghost predicate Descending(order: seq<nat>, ts: seq<real>) {
    && Distinct(order, |ts|)
    && (forall i: nat :: i < |ts| ==> i in order)
    && forall p, q :: 0 <= p < q < |order| ==> Before(ts, order[p], order[q])
  }

  /** Where system x goes among systems that are already in order. */
  function InsertAt(ts: seq<real>, order: seq<nat>, x: nat): (k: nat)
    requires x < |ts| && forall p :: 0 <= p < |order| ==> order[p] < x
    ensures k <= |order|
    ensures k < |order| ==> !Before(ts, order[k], x)
    ensures forall p :: 0 <= p < k ==> Before(ts, order[p], x)
  {
    if order == [] || !Before(ts, order[0], x) then 0 else 1 + InsertAt(ts, order[1..], x)
  }

  ghost predicate DescendingTo(order: seq<nat>, ts: seq<real>, n: nat)
    requires n <= |ts|
  {
    && |order| == n
    && Distinct(order, n)
    && (forall i: nat :: i < n ==> i in order)
    && forall p, q :: 0 <= p < q < |order| ==> Before(ts, order[p], order[q])
  }

  function Inserted(o: seq<nat>, k: nat, x: nat): (r: seq<nat>)
    requires k <= |o|
    ensures |r| == |o| + 1 && r[k] == x
    ensures forall p :: 0 <= p < k ==> r[p] == o[p]
    ensures forall p :: k < p < |r| ==> r[p] == o[p - 1]
  {
    o[..k] + [x] + o[k..]
  }

  lemma InsertedMembers(o: seq<nat>, k: nat, x: nat)
    requires k <= |o| && forall i: nat :: i < x ==> i in o
    ensures forall i: nat :: i < x + 1 ==> i in Inserted(o, k, x)
  {
    var r := Inserted(o, k, x);
    forall i: nat | i < x + 1 ensures i in r {
      if i != x {
        assert i in o;
        var p :| 0 <= p < |o| && o[p] == i;
        assert r[if p < k then p else p + 1] == i;
      }
    }
  }

  lemma InsertedOrder(ts: seq<real>, o: seq<nat>, k: nat, x: nat)
    requires x < |ts| && DescendingTo(o, ts, x) && k == InsertAt(ts, o, x)
    ensures forall p, q :: 0 <= p < q < |o| + 1 ==>
              var r := Inserted(o, k, x);
              r[p] < |ts| && r[q] < |ts| && Before(ts, r[p], r[q])
  {
    var r := Inserted(o, k, x);
    forall p, q | 0 <= p < q < |r| ensures r[p] < |ts| && r[q] < |ts| && Before(ts, r[p], r[q]) {
      if p == k && q > k + 1 {
        assert Before(ts, o[k], o[q - 1]);
      }
    }
  }

  lemma InsertedSorted(ts: seq<real>, o: seq<nat>, k: nat, x: nat)
    requires x < |ts| && DescendingTo(o, ts, x) && k == InsertAt(ts, o, x)
    ensures DescendingTo(Inserted(o, k, x), ts, x + 1)
  {
    var r := Inserted(o, k, x);
    InsertedMembers(o, k, x);
    InsertedOrder(ts, o, k, x);
    forall p, q | 0 <= p < q < |r| ensures r[p] != r[q] {
      assert Before(ts, r[p], r[q]);
    }
  }

  /** The first n systems, sorted by descending time stamp. */
  function SortedBy(ts: seq<real>, n: nat): (order: seq<nat>)
    requires n <= |ts|
    ensures DescendingTo(order, ts, n)
  {
    if n == 0 then []
    else
      var o := SortedBy(ts, n - 1);
      var k := InsertAt(ts, o, n - 1);
      InsertedSorted(ts, o, k, n - 1);
      Inserted(o, k, n - 1)
  }

  function VisitOrder(ts: seq<real>): (order: seq<nat>)
    ensures Descending(order, ts) && |order| == |ts|
  {
    SortedBy(ts, |ts|)
  }

  /** After a pass in descending order, a system is READY exactly when it is eligible and every
      eligible dependent was visited before it; the eligible others are in INIT, and nobody else
      has changed. */
  lemma ReadyAreLocalMinima(maps: seq<seq<int>>, sys: seq<Sys>, ts: seq<real>, i: nat)
    requires |ts| == |sys| && i < |sys|
    requires forall k :: 0 <= k < |sys| ==> !sys[k].st.READY?
    ensures
      var r := VisitAll(maps, sys, VisitOrder(ts))[i];
      && (r.st.READY? <==>
           Eligible(maps, sys, i)
           && forall j: nat :: Eligible(maps, sys, j) && Dependent(maps, i, j) ==> Before(ts, j, i))
      && r == if !Eligible(maps, sys, i) then sys[i] else sys[i].(st := if r.st.READY? then READY else INIT)
  {
    var order := VisitOrder(ts);
    PassExact(maps, sys, order);
    assert i in order;
    var p :| 0 <= p < |order| && order[p] == i;
    if Unbeaten(maps, sys, order, p) {
      forall j: nat | Eligible(maps, sys, j) && Dependent(maps, i, j) ensures Before(ts, j, i) {
        var q :| 0 <= q < |order| && order[q] == j;
        assert q != p && !(p < q);
      }
    } else {
      var q :| p < q < |order| && Eligible(maps, sys, order[q]) && Dependent(maps, order[p], order[q]);
      assert Before(ts, order[p], order[q]) && !Before(ts, order[q], order[p]);
    }
  }

  /** A system with an eligible dependent that is visited later is not READY after the pass. */
  lemma BeatenWaits(maps: seq<seq<int>>, sys: seq<Sys>, ts: seq<real>, i: nat, j: nat)
    requires |ts| == |sys| && i < |sys| && forall k :: 0 <= k < |sys| ==> !sys[k].st.READY?
    requires Eligible(maps, sys, i) && Eligible(maps, sys, j) && Dependent(maps, i, j) && !Before(ts, j, i)
    ensures VisitAll(maps, sys, VisitOrder(ts))[i] == sys[i].(st := INIT)
  {
    ReadyAreLocalMinima(maps, sys, ts, i);
  }

  /** Progress: if nothing runs and some system is unfinished, a pass over all systems, in
      whatever order, leaves some system READY. */
  lemma SomeReady(maps: seq<seq<int>>, sys: seq<Sys>, order: seq<nat>, i: nat)
    requires Distinct(order, |sys|) && i in order && i < |sys|
    requires forall k :: 0 <= k < |sys| ==> !sys[k].st.READY? && !sys[k].st.RUN? && !sys[k].st.INVALID?
    requires !sys[i].st.FINALIZE?
    ensures exists k: nat :: k < |sys| && VisitAll(maps, sys, order)[k].st.READY?
  {
    PassExact(maps, sys, order);
    var p :| 0 <= p < |order| && order[p] == i;
    assert Eligible(maps, sys, order[p]);
    var q := LastEligible(maps, sys, order, p);
    assert Unbeaten(maps, sys, order, q);
    assert VisitAll(maps, sys, order)[order[q]].st.READY?;
  }

  lemma LastEligible(maps: seq<seq<int>>, sys: seq<Sys>, order: seq<nat>, p: nat) returns (q: nat)
    requires p < |order| && Eligible(maps, sys, order[p])
    ensures p <= q < |order| && Eligible(maps, sys, order[q])
    ensures forall k :: q < k < |order| ==> !Eligible(maps, sys, order[k])
    decreases |order| - p
  {
    if k: nat :| p < k < |order| && Eligible(maps, sys, order[k]) {
      q := LastEligible(maps, sys, order, k);
    } else {
      q := p;
    }
  }

  /** A pass changes nothing but states, and neither finalizes nor revives a system. */
  lemma {:induction false} PassKeeps(maps: seq<seq<int>>, sys: seq<Sys>, order: seq<nat>)
    requires forall p :: 0 <= p < |order| ==> order[p] < |sys|
    ensures forall i :: 0 <= i < |sys| ==> Restated(sys[i], VisitAll(maps, sys, order)[i])
    decreases |order|
  {
    if order != [] {
      PassKeeps(maps, sys, order[..|order| - 1]);
    }
  }

  predicate Restated(s: Sys, t: Sys) {
    t == s.(st := t.st) && t.st.FINALIZE? == s.st.FINALIZE? && t.st.INVALID? == s.st.INVALID?
  }
}
