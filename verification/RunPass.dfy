/** The run pass: READY systems start a phase, running systems continue theirs. */
module RunPass {
  import opened Engine
  import opened Phases
  import opened Machine
  import opened ReadyPass
  import opened Bookkeeping

  /** One system's turn in the pass. */
  function Ran(s: Sys, tic: int): Sys {
    if s.pending.None? then s
    else if s.st.READY? then Started(s, tic)
    else if s.st.RUN? then Continued(s, tic)
    else s
  }

  /** The turn, with what it adds to the two sequences. */
  function Turn(m: Vm, i: nat, tic: int): (r: Vm)
    requires i < |m.sys|
    ensures r.sys == m.sys[i := Ran(m.sys[i], tic)]
  {
    var s := m.sys[i];
    if s.pending.None? || !Active(s) then m
    else if s.st.READY? then Vm(m.sys[i := Started(s, tic)], m.instrSeq + [i], m.runSeq + [i])
    else Vm(m.sys[i := Continued(s, tic)], m.instrSeq + [i], m.runSeq)
  }

  /** The pass over the systems in the given order; the clock ticks at each instruction. */
  function RanAll(m: Vm, order: seq<nat>, tic: int): (r: (Vm, int))
    requires forall p :: 0 <= p < |order| ==> order[p] < |m.sys|
    ensures |r.0.sys| == |m.sys|
  {
    if order == [] then (m, tic)
    else
      var (n, t) := RanAll(m, order[..|order| - 1], tic);
      var v := order[|order| - 1];
      (Turn(n, v, t), if Active(n.sys[v]) then t + 1 else t)
  }

  lemma RanOneMore(m: Vm, order: seq<nat>, k: nat, tic: int)
    requires k < |order| && forall p :: 0 <= p < |order| ==> order[p] < |m.sys|
    ensures
      var (n, t) := RanAll(m, order[..k], tic);
      var v := order[k];
      RanAll(m, order[..k + 1], tic) == (Turn(n, v, t), if Active(n.sys[v]) then t + 1 else t)
  {
    assert order[..k + 1][..k] == order[..k];
  }

  ghost predicate TookTurn(s: Sys, r: Sys) {
    exists t :: r == Ran(s, t)
  }

  /** Every system in the order has had exactly one turn, the others none. */
  lemma {:induction false} OneTurn(m: Vm, order: seq<nat>, tic: int)
    requires Distinct(order, |m.sys|)
    ensures forall i: nat :: i < |m.sys| && i !in order ==> RanAll(m, order, tic).0.sys[i] == m.sys[i]
    ensures forall p :: 0 <= p < |order| ==> TookTurn(m.sys[order[p]], RanAll(m, order, tic).0.sys[order[p]])
    decreases |order|
  {
    if order != [] {
      var init, v := order[..|order| - 1], order[|order| - 1];
      OneTurn(m, init, tic);
      assert v !in init;
      forall i: nat | i < |m.sys| && i !in order ensures RanAll(m, order, tic).0.sys[i] == m.sys[i] {
        assert i !in init && i != v by { assert order == init + [v]; }
      }
      var (n, t) := RanAll(m, init, tic);
      assert RanAll(m, order, tic).0.sys[v] == Ran(m.sys[v], t);
      forall p | 0 <= p < |order| ensures TookTurn(m.sys[order[p]], RanAll(m, order, tic).0.sys[order[p]]) {
        if p < |init| {
          assert order[p] == init[p] && init[p] != v;
        }
      }
    }
  }

  /** What a turn does: an active system runs, has its call executed and one call less to do. */
  predicate HadTurn(s: Sys, r: Sys) {
    if Active(s) then r.st.RUN? && r.pending.None? && Left(r) + 1 == Left(s) && r.unread == s.unread
    else r == s
  }

  lemma RanEffect(s: Sys, tic: int)
    requires Active(s) ==> s.pending.Some?
    ensures HadTurn(s, Ran(s, tic))
  {
  }

  lemma RunPassEffect(m: Vm, order: seq<nat>, tic: int)
    requires Distinct(order, |m.sys|) && forall i: nat :: i < |m.sys| ==> i in order
    requires forall i :: 0 <= i < |m.sys| && Active(m.sys[i]) ==> m.sys[i].pending.Some?
    ensures forall i :: 0 <= i < |m.sys| ==> HadTurn(m.sys[i], RanAll(m, order, tic).0.sys[i])
  {
    OneTurn(m, order, tic);
    forall i | 0 <= i < |m.sys| ensures HadTurn(m.sys[i], RanAll(m, order, tic).0.sys[i]) {
      assert i in order;
      var p :| 0 <= p < |order| && order[p] == i;
      var t :| RanAll(m, order, tic).0.sys[i] == Ran(m.sys[i], t);
      RanEffect(m.sys[i], t);
    }
  }

  /** A system whose turn has not come holds its first call. */
  lemma TurnReady(m: Vm, order: seq<nat>, k: nat, tic: int, instrs: seq<string>)
    requires k < |order| && Distinct(order, |m.sys|) && |instrs| == |m.sys|
    requires forall j :: 0 <= j < |m.sys| && Active(m.sys[j]) ==>
               m.sys[j].pending.Some? && instrs[j] == m.sys[j].pending.value.text
    ensures
      var s := RanAll(m, order[..k], tic).0.sys[order[k]];
      Active(s) ==> s.pending.Some? && instrs[order[k]] == s.pending.value.text
  {
    OneTurn(m, order[..k], tic);
    assert order[k] !in order[..k];
  }

  /** For each system, the instructions counted and those it has still to do. */
  function Tally(counts: seq<int>, sys: seq<Sys>): seq<int>
    requires |counts| == |sys|
  {
    seq(|sys|, k requires 0 <= k < |sys| => counts[k] + Left(sys[k]))
  }

  lemma TallyStep(counts: seq<int>, sys: seq<Sys>, i: nat, c: int, t: Sys)
    requires |counts| == |sys| && i < |sys| && c + Left(t) == counts[i] + Left(sys[i])
    ensures Tally(counts[i := c], sys[i := t]) == Tally(counts, sys)
  {
  }
}
