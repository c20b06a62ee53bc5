/** The virtual machine that executes the traces, and its proof against the state machine. */
module VirtualMachine {
  import opened Trace
  import opened Engine
  import opened Phases
  import opened Replay
  import opened Machine
  import opened ReadyPass
  import opened Theorems
  import opened Bookkeeping
  import opened RunPass
  import opened Quiescence
  import opened Rounds
  import opened Runs

  ghost predicate SomeCorrupt(sys: seq<Sys>) {
    exists i :: 0 <= i < |sys| && !Parse(sys[i].unread).ok
  }

  /** No two systems have the same id. */
  ghost predicate DistinctIds(iosys: seq<IOSys>) {
    forall a, b :: 0 <= a < b < |iosys| ==> iosys[a].iosysid != iosys[b].iosysid
  }

  ghost function ViewsOf(iosys: seq<IOSys>): (r: seq<Sys>)
    reads iosys, set s | s in iosys :: s.stream
    ensures |r| == |iosys| && forall i {:trigger iosys[i]} :: 0 <= i < |iosys| ==> r[i] == iosys[i].View()
  {
    if iosys == [] then [] else
      var n := |iosys| - 1;
      assert forall i :: 0 <= i < n ==> iosys[i] == iosys[..n][i];
      ViewsOf(iosys[..n]) + [iosys[n].View()]
  }

  lemma UpdateTwice<T>(s: seq<T>, i: nat, a: T, b: T)
    requires i < |s|
    ensures s[i := a][i := b] == s[i := b]
  {
  }

  lemma RowOf(s: Sys, tic: int)
    requires !s.st.FINALIZE? && !(s.pending.None? && NextEntry(s.unread).Corrupt?)
    ensures Settled(Refill(s, tic)) && Refetched(s, tic) == Refill(s, tic)
  {
  }

  lemma VisitedIs(maps: seq<seq<int>>, sys: seq<Sys>, i: nat, tic: int)
    requires i < |sys|
    ensures
      var ready := !sys[i].st.INVALID? && !sys[i].st.FINALIZE? && !RunningDependent(maps, sys, i);
      var back := KnockedBack(maps, sys, i);
      Visited(maps, sys, i) ==
      if sys[i].st.RUN? || !ready then sys else back[i := Transition(back[i], READY, tic)]
  {
  }

  class SPIOVM {
    const iosys: seq<IOSys>
    var instrSequence: seq<nat>
    var runSequence: seq<nat>

    ghost const wiring: Wiring
    ghost const start: Vm          // the state the VM was created in

    constructor (iosys: seq<IOSys>, ghost wiring: Wiring, ghost start: Vm)
      ensures this.iosys == iosys && this.wiring == wiring && this.start == start
      ensures instrSequence == [] && runSequence == []
    {
      this.iosys, this.wiring, this.start := iosys, wiring, start;
      instrSequence, runSequence := [], [];
    }

    /** Initialises every engine. */
    static method InitAll(iosys: seq<IOSys>) returns (ok: bool, ghost deps: seq<seq<seq<nat>>>)
      requires Separate(iosys) && DistinctIds(iosys)
      requires forall k :: 0 <= k < |iosys| ==> iosys[k].myIdx == -1 && iosys[k].deps == []
      modifies iosys`myIdx, iosys`deps
      ensures ok <==> SameLengths(iosys)
      ensures ok ==> |deps| == |iosys| && forall k :: 0 <= k < |iosys| ==>
                DependencyTable(deps[k], Maps(iosys)) && iosys[k].myIdx == k && iosys[k].deps == deps[k]
    {
      deps := [];
      ok := true;
      for i := 0 to |iosys|
        invariant i > 0 ==> SameLengths(iosys)
        invariant |deps| == i && forall k :: 0 <= k < i ==>
                    DependencyTable(deps[k], Maps(iosys)) && iosys[k].myIdx == k && iosys[k].deps == deps[k]
        invariant forall k :: i <= k < |iosys| ==> iosys[k].myIdx == -1 && iosys[k].deps == []
      {
        ok := iosys[i].Init(iosys);
        if !ok { return; }
        deps := deps + [iosys[i].deps];
      }
    }

    /** Builds the VM. It fails when the communicator maps of two systems differ in length. */
    static method Create(iosys: seq<IOSys>) returns (vm: SPIOVM?)
      requires Separate(iosys) && DistinctIds(iosys)
      requires forall k :: 0 <= k < |iosys| ==>
                 iosys[k].myIdx == -1 && iosys[k].deps == [] && Untouched(iosys[k].View())
      modifies iosys`myIdx, iosys`deps
      ensures vm != null <==> SameLengths(iosys)
      ensures vm != null ==> fresh(vm) && vm.iosys == iosys && vm.wiring.maps == Maps(iosys)
      ensures vm != null ==> vm.Sim() && vm.Now() == vm.start
    {
      ghost var views := ViewsOf(iosys);
      forall i | 0 <= i < |iosys| ensures Untouched(views[i]) {
        assert Untouched(iosys[i].View());
      }
      var ok;
      ghost var deps;
      ok, deps := InitAll(iosys);
      if !ok { return null; }
      ghost var wiring: Wiring := Tables(Maps(iosys), deps);
      vm := new SPIOVM(iosys, wiring, Vm(views, [], []));
      vm.ValuesAre(views);
      ReachedInitial(wiring.maps, vm.start);
    }

    ghost function Streams(): set<InstructionStream> {
      set s | s in iosys :: s.stream
    }

    /** The present values of the systems. */
    ghost function Values(): (r: seq<Sys>)
      reads iosys, Streams()
      ensures |r| == |iosys| && forall i {:trigger iosys[i]} :: 0 <= i < |iosys| ==> r[i] == iosys[i].View()
    {
      ViewsOf(iosys)
    }

    lemma ValuesAre(r: seq<Sys>)
      requires |r| == |iosys| && forall k {:trigger iosys[k]} :: 0 <= k < |iosys| ==> iosys[k].View() == r[k]
      ensures Values() == r
    {
      forall k | 0 <= k < |iosys| ensures Values()[k] == r[k] {
        assert iosys[k].View() == r[k];
      }
    }

    ghost function Now(): Vm
      reads this, iosys, Streams()
    {
      Vm(Values(), instrSequence, runSequence)
    }

    /** The systems are separate objects and every engine has its index and its dependency
        table. */
    ghost predicate Wired()
      reads iosys`myIdx, iosys`deps
    {
      && Separate(iosys) && wiring.maps == Maps(iosys)
      && forall i :: 0 <= i < |iosys| ==> iosys[i].myIdx == i && iosys[i].deps == wiring.deps[i]
    }

    /** The present state is reachable by steps of the state machine. */
    ghost predicate Sim()
      reads this, iosys, Streams()
    {
      Wired() && Reached(wiring.maps, start, Now())
    }

    method ChangeState(i: nat, to: State, tic: int)
      requires Separate(iosys) && i < |iosys|
      modifies iosys`state, iosys`src, iosys`runPhase, iosys`funcs, iosys`starts
      ensures Values() == old(Values())[i := Transition(old(Values())[i], to, tic)]
      ensures Wired() == old(Wired())
    {
      ghost var r := Values()[i := Transition(Values()[i], to, tic)];
      iosys[i].SetState(to, tic);
      ValuesAre(r);
    }

    method ExecuteOn(i: nat, text: string, tic: int)
      requires Separate(iosys) && i < |iosys| && !Values()[i].st.FINALIZE?
      modifies iosys`clockTic, iosys`src, Streams()
      ensures Values() == old(Values())[i := Executed(old(Values())[i], text, tic)]
      ensures Wired() == old(Wired())
    {
      assert iosys[i].View() == Values()[i];
      ghost var r := Values()[i := Executed(Values()[i], text, tic)];
      var ok := iosys[i].Execute(text, tic);
      ValuesAre(r);
    }

    method BootSystem(i: nat, tic: int)
      requires Sim() && i < |iosys| && Values()[i].st.INVALID?
      modifies iosys`state, iosys`src, iosys`runPhase, iosys`funcs, iosys`starts
      ensures Sim() && Values() == old(Values())[i := Transition(old(Values())[i], INIT, tic)]
    {
      ReachedBoot(wiring.maps, start, Now(), i, tic);
      ChangeState(i, INIT, tic);
    }

    method QuiesceSystem(i: nat, tic: int)
      requires Sim() && i < |iosys| && !Values()[i].st.INVALID? && Settled(Values()[i])
      modifies iosys`state, iosys`src, iosys`runPhase, iosys`funcs, iosys`starts
      ensures Sim() && Values() == old(Values())[i := Transition(old(Values())[i], QUIESCENT, tic)]
    {
      ReachedQuiesce(wiring.maps, start, Now(), i, tic);
      ChangeState(i, QUIESCENT, tic);
    }

    /** Fetches and decodes the next call of a live system, or finalizes the system. */
    static method FetchDecode(s: IOSys, tic: int) returns (f: Fetched, e: Entry)
      requires !s.state.FINALIZE?
      modifies s.stream, s`state, s`src, s`runPhase, s`funcs, s`starts
      ensures f.FetchedCorrupt? <==> old(s.View()).pending.None? && NextEntry(old(s.View()).unread).Corrupt?
      ensures !f.FetchedCorrupt? ==> s.View() == Refill(old(s.View()), tic)
      ensures f.FetchedEnd? ==> s.View().st.FINALIZE?
      ensures f.FetchedCall? ==> !s.View().st.FINALIZE? && s.View().pending == Some(e)
    {
      e := Entry(0.0, 0.0, "");
      f := s.stream.Fetch();
      match f {
        case FetchedCall => e := s.stream.Decode();
        case FetchedEnd => s.SetState(FINALIZE, tic);
        case FetchedCorrupt =>
      }
    }

    method FetchDecodeAt(i: nat, tic: int) returns (f: Fetched, e: Entry)
      requires Separate(iosys) && i < |iosys| && !Values()[i].st.FINALIZE?
      modifies Streams(), iosys`state, iosys`src, iosys`runPhase, iosys`funcs, iosys`starts
      ensures f.FetchedCorrupt? <==> old(Values())[i].pending.None? && NextEntry(old(Values())[i].unread).Corrupt?
      ensures !f.FetchedCorrupt? ==> Values() == old(Values())[i := Refill(old(Values())[i], tic)]
      ensures f.FetchedEnd? ==> Values()[i].st.FINALIZE?
      ensures f.FetchedCall? ==> !Values()[i].st.FINALIZE? && Values()[i].pending == Some(e)
      ensures Wired() == old(Wired())
    {
      assert iosys[i].View() == Values()[i];
      ghost var was := Values();
      f, e := FetchDecode(iosys[i], tic);
      ValuesAre(was[i := iosys[i].View()]);
    }

    method FetchSystem(i: nat, tic: int) returns (f: Fetched, e: Entry)
      requires Sim() && i < |iosys| && !Values()[i].st.INVALID? && !Values()[i].st.FINALIZE?
      modifies Streams(), iosys`state, iosys`src, iosys`runPhase, iosys`funcs, iosys`starts
      ensures f.FetchedCorrupt? <==> old(Values())[i].pending.None? && NextEntry(old(Values())[i].unread).Corrupt?
      ensures !f.FetchedCorrupt? ==> Sim() && Values() == old(Values())[i := Refill(old(Values())[i], tic)]
      ensures f.FetchedEnd? ==> Values()[i].st.FINALIZE?
      ensures f.FetchedCall? ==> !Values()[i].st.FINALIZE? && Values()[i].pending == Some(e)
    {
      ghost var was := Now();
      f, e := FetchDecodeAt(i, tic);
      if !f.FetchedCorrupt? {
        ReachedFetch(wiring.maps, start, was, i, tic);
      }
    }

    /** The ready test with its knock-back. */
    method TestReady(i: nat) returns (ready: bool)
      requires Wired() && i < |iosys|
      modifies iosys`state, iosys`src, iosys`runPhase, iosys`funcs, iosys`starts
      ensures ready <==>
              var s := old(Values()); !s[i].st.INVALID? && !s[i].st.FINALIZE? && !RunningDependent(wiring.maps, s, i)
      ensures Values() == if ready then KnockedBack(wiring.maps, old(Values()), i) else old(Values())
      ensures Wired() == old(Wired())
    {
      ghost var sys := Values();
      forall d: nat ensures d in iosys[i].deps[iosys[i].myIdx] <==> Dependent(wiring.maps, i, d) {
        assert DependencyTable(wiring.deps[i], wiring.maps);
      }
      forall d: nat | d < |sys| ensures iosys[d].state == sys[d].st {
        assert iosys[d].View() == sys[d];
      }
      ready := iosys[i].IsReady(iosys);
      ghost var back := if ready then KnockedBack(wiring.maps, sys, i) else sys;
      forall k: nat | k < |iosys| ensures iosys[k].View() == back[k] {
        assert sys[k] == old(iosys[k].View());
      }
      ValuesAre(back);
    }

    method TryReady(i: nat, tic: int)
      requires Wired() && i < |iosys|
      modifies iosys`state, iosys`src, iosys`runPhase, iosys`funcs, iosys`starts
      ensures Values() == Visited(wiring.maps, old(Values()), i)
      ensures Wired() == old(Wired())
    {
      assert iosys[i].View() == Values()[i];
      VisitedIs(wiring.maps, Values(), i, tic);
      if iosys[i].state != RUN {
        var ready := TestReady(i);
        if ready {
          ChangeState(i, READY, tic);
        }
      }
    }

    /** The ready test, and READY if it succeeds. */
    method VisitSystem(i: nat, tic: int)
      requires Sim() && i < |iosys| && !Values()[i].st.INVALID? && Settled(Values()[i])
      modifies iosys`state, iosys`src, iosys`runPhase, iosys`funcs, iosys`starts
      ensures Sim() && Values() == Visited(wiring.maps, old(Values()), i)
    {
      ReachedVisit(wiring.maps, start, Now(), i, tic);
      TryReady(i, tic);
    }

    method OpenAndExecute(i: nat, text: string, tic: int)
      requires Separate(iosys) && i < |iosys| && Values()[i].st.READY?
      requires Values()[i].pending.Some? && text == Values()[i].pending.value.text
      modifies Streams(), iosys`state, iosys`src, iosys`runPhase, iosys`funcs, iosys`starts, iosys`clockTic
      ensures Values() == old(Values())[i := Started(old(Values())[i], tic)]
      ensures Wired() == old(Wired())
    {
      ghost var was := Values();
      ghost var b := Transition(was[i], RUN, tic);
      ghost var mid := was[i := b];
      assert mid[i] == b && b.st.RUN?;
      ChangeState(i, RUN, tic);
      assert Values() == mid;
      ExecuteOn(i, text, tic);
      UpdateTwice(was, i, b, Executed(b, text, tic));
    }

    method AppendRun(i: nat)
      modifies this`runSequence
      ensures runSequence == old(runSequence) + [i] && Values() == old(Values())
      ensures Wired() == old(Wired())
    {
      ghost var was := Values();
      runSequence := runSequence + [i];
      ValuesAre(was);
    }

    method AppendInstr(i: nat)
      modifies this`instrSequence
      ensures instrSequence == old(instrSequence) + [i] && Values() == old(Values())
      ensures Wired() == old(Wired())
    {
      ghost var was := Values();
      instrSequence := instrSequence + [i];
      ValuesAre(was);
    }

    /** READY to RUN, which opens a phase, and its first instruction. */
    method StartSystem(i: nat, text: string, tic: int)
      requires Sim() && i < |iosys| && Values()[i].st.READY?
      requires Values()[i].pending.Some? && text == Values()[i].pending.value.text
      modifies this`runSequence, this`instrSequence, Streams(),
        iosys`state, iosys`src, iosys`runPhase, iosys`funcs, iosys`starts, iosys`clockTic
      ensures Sim() && Values() == old(Values())[i := Started(old(Values())[i], tic)]
      ensures instrSequence == old(instrSequence) + [i] && runSequence == old(runSequence) + [i]
    {
      ReachedStart(wiring.maps, start, Now(), i, tic);
      AppendInstr(i);
      AppendRun(i);
      OpenAndExecute(i, text, tic);
    }

    method ExecutePending(i: nat, text: string, tic: int)
      requires Separate(iosys) && i < |iosys| && Values()[i].st.RUN?
      requires Values()[i].pending.Some? && text == Values()[i].pending.value.text
      modifies Streams(), iosys`clockTic, iosys`src
      ensures Values() == old(Values())[i := Continued(old(Values())[i], tic)]
      ensures Wired() == old(Wired())
    {
      ExecuteOn(i, text, tic);
    }

    /** A further instruction of the open phase. */
    method ContinueSystem(i: nat, text: string, tic: int)
      requires Sim() && i < |iosys| && Values()[i].st.RUN?
      requires Values()[i].pending.Some? && text == Values()[i].pending.value.text
      modifies this`instrSequence, Streams(), iosys`clockTic, iosys`src
      ensures Sim() && Values() == old(Values())[i := Continued(old(Values())[i], tic)]
      ensures instrSequence == old(instrSequence) + [i]
    {
      ReachedContinue(wiring.maps, start, Now(), i, tic);
      AppendInstr(i);
      ExecutePending(i, text, tic);
    }

    /** Fetches for every live system. */
    method FetchPass(booting: bool, niosys: int, tic: int)
      returns (ok: bool, times: seq<Stamp>, instrs: seq<string>, live: int)
      requires Sim() && niosys == Live(Values())
      requires forall k :: 0 <= k < |iosys| ==> (Values()[k].st.INVALID? <==> booting)
      modifies Streams(), iosys`state, iosys`src, iosys`runPhase, iosys`funcs, iosys`starts
      ensures ok ==> Sim() && live == Live(Values()) && |times| == |instrs| == |iosys|
      ensures ok ==> Values() == FetchedUpTo(old(Values()), booting, tic, |iosys|)
      ensures ok ==> AllSettled(Values()) && Listed(Values(), times, instrs)
      ensures !ok ==> SomeCorrupt(start.sys)
    {
      ghost var was := Values();
      times, instrs, live, ok := [], [], niosys, true;
      FetchedNone(was, booting, tic);
      for i := 0 to |iosys|
        invariant Sim() && live == Live(Values())
        invariant Values() == FetchedUpTo(was, booting, tic, i)
        invariant ListedUpTo(was, booting, tic, times, instrs, i)
      {
        FetchedStep(was, booting, tic, i);
        var t, instr;
        ok, t, instr, live := BootAndFetchRow(i, booting, live, tic, Booted(was[i], booting, tic));
        if !ok { return; }
        ListedStep(was, booting, tic, times, instrs, t, instr);
        times := times + [t];
        instrs := instrs + [instr];
      }
      ListedAll(was, booting, tic, times, instrs);
    }

    method BootRow(i: nat, tic: int)
      requires Sim() && i < |iosys| && Values()[i].st.INVALID?
      modifies iosys`state, iosys`src, iosys`runPhase, iosys`funcs, iosys`starts
      ensures Sim() && Values() == old(Values())[i := Booted(old(Values())[i], true, tic)]
      ensures !Values()[i].st.INVALID? && Live(Values()) == Live(old(Values()))
    {
      ghost var was := Values();
      BootSystem(i, tic);
      LiveUpdate(was, i, Transition(was[i], INIT, tic));
    }

    method BootIf(i: nat, booting: bool, tic: int, ghost b: Sys)
      requires Sim() && i < |iosys| && (Values()[i].st.INVALID? <==> booting) && b == Booted(Values()[i], booting, tic)
      modifies iosys`state, iosys`src, iosys`runPhase, iosys`funcs, iosys`starts
      ensures Sim() && Values() == old(Values())[i := b]
      ensures !b.st.INVALID? && Live(Values()) == Live(old(Values()))
    {
      if booting {
        BootRow(i, tic);
      }
    }

    method BootAndFetchRow(i: nat, booting: bool, niosys: int, tic: int, ghost b: Sys)
      returns (ok: bool, t: Stamp, instr: string, live: int)
      requires Sim() && niosys == Live(Values()) && i < |iosys| && (Values()[i].st.INVALID? <==> booting)
      requires b == Booted(Values()[i], booting, tic)
      modifies Streams(), iosys`state, iosys`src, iosys`runPhase, iosys`funcs, iosys`starts
      ensures ok ==> Sim() && live == Live(Values())
      ensures ok ==> Values() == old(Values())[i := Refetched(b, tic)]
      ensures ok ==> Settled(Refetched(b, tic)) && (t, instr) == Row(Refetched(b, tic))
      ensures !ok ==> SomeCorrupt(start.sys)
    {
      ghost var was := Values();
      BootIf(i, booting, tic, b);
      ok, t, instr, live := FetchRow(i, niosys, tic);
      UpdateTwice(was, i, b, Refetched(b, tic));
    }

    method FetchRow(i: nat, niosys: int, tic: int) returns (ok: bool, t: Stamp, instr: string, live: int)
      requires Sim() && niosys == Live(Values()) && i < |iosys| && !Values()[i].st.INVALID?
      modifies Streams(), iosys`state, iosys`src, iosys`runPhase, iosys`funcs, iosys`starts
      ensures ok ==> Sim() && live == Live(Values())
      ensures ok ==> Values() == old(Values())[i := Refetched(old(Values())[i], tic)]
      ensures ok ==> Settled(Values()[i]) && (t, instr) == Row(Values()[i])
      ensures !ok ==> SomeCorrupt(start.sys)
    {
      ghost var was := Values();
      live := niosys;
      t, instr := (0.0, 0.0), "";
      assert iosys[i].View() == was[i];
      if iosys[i].state != FINALIZE {
        CorruptIsCorrupt(i);
        var f, e := FetchSystem(i, tic);
        if f.FetchedCorrupt? { return false, t, instr, live; }
        RowOf(was[i], tic);
        LiveUpdate(was, i, Values()[i]);
        if f.FetchedCall? {
          t, instr := (e.enter, e.exit), e.text;
        } else {
          live := live - 1;
        }
      }
      ok := true;
    }

    /** A log that cannot be read on is one that could not be read to its end. */
    lemma CorruptIsCorrupt(i: nat)
      requires Sim() && i < |iosys| && !Values()[i].st.FINALIZE?
      ensures Values()[i].pending.None? && NextEntry(Values()[i].unread).Corrupt? ==> SomeCorrupt(start.sys)
    {
      ReachedInv(wiring.maps, start, Now());
      assert SysOk(Values()[i], Logs(start.sys)[i]);
    }

    /** The ready pass, in the given order. */
    method ReadyPass(order: seq<nat>, tic: int)
      requires Sim() && forall p :: 0 <= p < |order| ==> order[p] < |iosys|
      requires Rested(Values()) && AllSettled(Values())
      modifies iosys`state, iosys`src, iosys`runPhase, iosys`funcs, iosys`starts
      ensures Sim() && Values() == VisitAll(wiring.maps, old(Values()), order)
    {
      ghost var was := Values();
      for k := 0 to |order|
        invariant Sim() && Values() == VisitAll(wiring.maps, was, order[..k])
      {
        PassKeeps(wiring.maps, was, order[..k]);
        assert order[..k + 1][..k] == order[..k];
        assert Restated(was[order[k]], Values()[order[k]]);
        VisitSystem(order[k], tic);
      }
      assert order[..|order|] == order;
    }

    /** One system's turn in the run pass. */
    method RunTurn(i: nat, text: string, ninstr: int, tic: int) returns (count: int, clock: int)
      requires Sim() && i < |iosys|
      requires Active(Values()[i]) ==> Values()[i].pending.Some? && text == Values()[i].pending.value.text
      modifies this`runSequence, this`instrSequence, Streams(),
        iosys`state, iosys`src, iosys`runPhase, iosys`funcs, iosys`starts, iosys`clockTic
      ensures Sim() && Now() == Turn(old(Now()), i, tic)
      ensures clock == if Active(old(Values())[i]) then tic + 1 else tic
      ensures count + Left(Values()[i]) == ninstr + Left(old(Values())[i])
    {
      ghost var s := Values()[i];
      RanEffect(s, tic);
      assert iosys[i].View() == s;
      count, clock := ninstr, tic;
      if iosys[i].state == READY {
        StartSystem(i, text, tic);
        count, clock := ninstr + 1, tic + 1;
      } else if iosys[i].state == RUN {
        ContinueSystem(i, text, tic);
        count, clock := ninstr + 1, tic + 1;
      }
    }

    /** A turn, with the executed calls counted. */
    method TallyTurn(i: nat, text: string, counts: seq<int>, now: int) returns (count: int, clock: int)
      requires Sim() && i < |iosys| && |counts| == |iosys|
      requires Active(Values()[i]) ==> Values()[i].pending.Some? && text == Values()[i].pending.value.text
      modifies this`runSequence, this`instrSequence, Streams(),
        iosys`state, iosys`src, iosys`runPhase, iosys`funcs, iosys`starts, iosys`clockTic
      ensures Sim() && Now() == Turn(old(Now()), i, now)
      ensures clock == if Active(old(Values())[i]) then now + 1 else now
      ensures Tally(counts[i := count], Values()) == Tally(counts, old(Values()))
    {
      ghost var cur := Values();
      count, clock := RunTurn(i, text, counts[i], now);
      TallyStep(counts, cur, i, count, Ran(cur[i], now));
    }

    method RunPass(order: seq<nat>, instrs: seq<string>, ninstr: seq<int>, tic: int)
      returns (counts: seq<int>, clock: int)
      requires Sim() && Distinct(order, |iosys|) && |instrs| == |ninstr| == |iosys|
      requires forall k :: 0 <= k < |iosys| && Active(Values()[k]) ==>
                 Values()[k].pending.Some? && instrs[k] == Values()[k].pending.value.text
      modifies this`runSequence, this`instrSequence, Streams(),
        iosys`state, iosys`src, iosys`runPhase, iosys`funcs, iosys`starts, iosys`clockTic
      ensures Sim() && (Now(), clock) == RanAll(old(Now()), order, tic) && |counts| == |iosys|
      ensures Tally(counts, Values()) == Tally(ninstr, old(Values()))
    {
      ghost var was := Now();
      ghost var so := (was, tic);
      counts, clock := ninstr, tic;
      for k := 0 to |order|
        invariant so == RanAll(was, order[..k], tic)
        invariant Sim() && Now() == so.0 && clock == so.1 && |counts| == |iosys|
        invariant Tally(counts, so.0.sys) == Tally(ninstr, was.sys)
      {
        var i := order[k];
        TurnReady(was, order, k, tic, instrs);
        RanOneMore(was, order, k, tic);
        so := RanAll(was, order[..k + 1], tic);
        var c;
        c, clock := TallyTurn(i, instrs[i], counts, clock);
        counts := counts[i := c];
      }
      assert order[..|order|] == order;
    }

    /** The quiescence check over all running systems. */
    method QuiescePass(prev: seq<Stamp>, cur: seq<Stamp>, ninstr: seq<int>, totals: seq<real>, tic: int)
      returns (sums: seq<real>)
      requires Sim() && iosys != [] && |prev| == |cur| == |ninstr| == |totals| == |iosys|
      requires Rested(Values()) && AllSettled(Values())
      modifies iosys`state, iosys`src, iosys`runPhase, iosys`funcs, iosys`starts
      ensures sums == Checked(old(Values()), prev, cur, ninstr, totals, |iosys|).sums
      ensures
        var c := Checked(old(Values()), prev, cur, ninstr, totals, |iosys|);
        Values() == Moved(old(Values()), c.fired != [], tic)
      ensures Sim()
    {
      ghost var was := Values();
      sums := totals;
      ghost var fired := [];
      for i := 0 to |iosys|
        invariant Check(sums, fired) == Checked(was, prev, cur, ninstr, totals, i)
        invariant Sim() && Values() == Moved(was, fired != [], tic)
      {
        var sum;
        sum, fired := CheckTurn(i, prev, cur, ninstr, totals, sums, tic, was, fired);
        sums := sums[i := sum];
      }
    }

    method CheckTurn(i: nat, prev: seq<Stamp>, cur: seq<Stamp>, ninstr: seq<int>, ghost totals: seq<real>,
                     sums: seq<real>, tic: int, ghost was: seq<Sys>, ghost fired: seq<nat>)
      returns (sum: real, ghost more: seq<nat>)
      requires Sim() && i < |iosys| && |prev| == |cur| == |ninstr| == |totals| == |iosys| == |was|
      requires Rested(was) && AllSettled(was)
      requires Check(sums, fired) == Checked(was, prev, cur, ninstr, totals, i)
      requires Values() == Moved(was, fired != [], tic)
      modifies iosys`state, iosys`src, iosys`runPhase, iosys`funcs, iosys`starts
      ensures Check(sums[i := sum], more) == Checked(was, prev, cur, ninstr, totals, i + 1)
      ensures Sim() && Values() == Moved(was, more != [], tic)
    {
      ghost var fires;
      ghost var now := Values();
      MovedAt(was, fired != [], tic, |iosys| - 1);
      var gap := cur[i].0 - prev[i].1;
      sum, fires := GapTurn(i, gap, ninstr[i], sums[i], tic);
      more := WithFired(fired, fires, i);
      TurnDone(was, prev, cur, ninstr, totals, tic, i, Check(sums, fired), now, gap, sum, fires, Values());
    }

    method GapTurn(i: nat, qtime: real, ninstr: int, total: real, tic: int) returns (sum: real, ghost fires: bool)
      requires Sim() && i < |iosys| && iosys != []
      requires !Values()[|iosys| - 1].st.INVALID? && Settled(Values()[|iosys| - 1])
      modifies iosys`state, iosys`src, iosys`runPhase, iosys`funcs, iosys`starts
      ensures sum == if old(Values())[i].st.RUN? then (if total == -1.0 then qtime else total + qtime) else total
      ensures fires == (old(Values())[i].st.RUN? && Fires(AddGap(total, qtime), ninstr, qtime))
      ensures Sim() && Values() == if fires then Moved(old(Values()), true, tic) else old(Values())
    {
      assert iosys[i].View() == Values()[i];
      sum, fires := total, false;
      if iosys[i].state == RUN {
        sum := if total == INF_QTIME then qtime else total + qtime;
        var nqtimes := ninstr - 1;
        if nqtimes > 0 && qtime > sum / (nqtimes as real) * 10.0 {
          QuiesceSystem(|iosys| - 1, tic);
          fires := true;
        }
      }
    }

    /** The ready pass and the run pass, in descending order of time stamps. */
    method Dispatch(times: seq<Stamp>, instrs: seq<string>, ninstr: seq<int>, tic: int)
      returns (counts: seq<int>, clock: int)
      requires Sim() && Rested(Values()) && AllSettled(Values())
      requires Listed(Values(), times, instrs) && |ninstr| == |iosys|
      modifies this`runSequence, this`instrSequence, Streams(),
        iosys`state, iosys`src, iosys`runPhase, iosys`funcs, iosys`starts, iosys`clockTic
      ensures Sim() && |counts| == |iosys|
      ensures var order := VisitOrder(Starts(times));
              var m := old(Now());
              (Now(), clock) == RanAll(m.(sys := VisitAll(wiring.maps, m.sys, order)), order, tic)
      ensures Tally(counts, Values()) == Tally(ninstr, old(Values()))
    {
      ghost var was := Values();
      var order := VisitOrder(Starts(times));
      VisitedListed(wiring.maps, was, order, times, instrs);
      TallyVisit(wiring.maps, ninstr, was, order);
      ReadyPass(order, tic);
      counts, clock := RunPass(order, instrs, ninstr, tic);
    }

    ghost function TraceLogs(): seq<Log> { Logs(start.sys) }

    /** What holds between rounds: the program's variables are the last state of an execution. */
    ghost predicate RoundInv(niosys: int, prev: seq<Stamp>, ninstr: seq<int>, totals: seq<real>, tic: int, rs: seq<Run>)
      reads this, iosys, Streams()
    {
      && Sim() && niosys == Live(Values()) && AddsUp(TraceLogs(), ninstr, Values())
      && IsRun(wiring.maps, start.sys, rs) && rs[|rs| - 1] == Run(Now(), prev, totals, tic)
      && |prev| == |totals| == |iosys|
    }

    /** The present state of the systems is the last one of this execution. */
    ghost predicate WentThrough(rs: seq<Run>)
      reads this, iosys, Streams()
    {
      IsRun(wiring.maps, start.sys, rs) && rs[|rs| - 1].m == Now()
    }

    lemma StartUntouched()
      requires Sim()
      ensures Initial(start) && AllUntouched(start.sys)
    {
    }

    lemma Underway(rs: seq<Run>)
      requires AllUntouched(start.sys) && IsRun(wiring.maps, start.sys, rs)
      ensures RunOk(TraceLogs(), rs[|rs| - 1])
    {
      RoundsOk(wiring.maps, start.sys, rs, |rs| - 1);
    }

    /** The first part of an iteration. */
    method FetchIn(niosys: int, ghost ninstr: seq<int>, tic: int, ghost rs: seq<Run>, ghost r: Run)
      returns (ok: bool, live: int, times: seq<Stamp>, instrs: seq<string>)
      requires Sim() && niosys == Live(Values()) && AddsUp(TraceLogs(), ninstr, Values())
      requires IsRun(wiring.maps, start.sys, rs) && r == rs[|rs| - 1] && r.m == Now() && r.tic == tic
      modifies Streams(), iosys`state, iosys`src, iosys`runPhase, iosys`funcs, iosys`starts
      ensures !ok ==> SomeCorrupt(start.sys)
      ensures ok ==> RunOk(TraceLogs(), r) && Reads(r.m.sys)
      ensures ok ==> Sim() && live == Live(Values()) && Now() == r.m.(sys := Fetches(r))
      ensures ok ==> AllSettled(Values()) && Rested(Values()) && Listed(Values(), times, instrs)
      ensures ok ==> times == Stamps(Values()) && ninstr == DoneCounts(Values())
    {
      StartUntouched();
      Underway(rs);
      ok, times, instrs, live := FetchPass(false, niosys, tic);
      if ok {
        RoundFetched(TraceLogs(), r, times, instrs, ninstr);
      }
    }

    /** One iteration of the main loop. */
    method Round(niosys: int, prev: seq<Stamp>, ninstr: seq<int>, totals: seq<real>, tic: int, ghost rs: seq<Run>)
      returns (ok: bool, live: int, times: seq<Stamp>, counts: seq<int>, sums: seq<real>, clock: int,
               ghost more: seq<Run>)
      requires RoundInv(niosys, prev, ninstr, totals, tic, rs) && niosys > 0
      modifies this`runSequence, this`instrSequence, Streams(),
        iosys`state, iosys`src, iosys`runPhase, iosys`funcs, iosys`starts, iosys`clockTic
      ensures !ok ==> SomeCorrupt(start.sys)
      ensures ok ==> Sim() && live == Live(Values()) && WentThrough(more)
      ensures ok && live > 0 ==> RoundInv(live, times, counts, sums, clock, more)
      ensures ok && live > 0 ==> Work(Values()) < Work(old(Values()))
    {
      counts, sums, clock, more := ninstr, totals, tic, rs;
      ghost var r := rs[|rs| - 1];
      var instrs;
      ok, live, times, instrs := FetchIn(niosys, ninstr, tic, rs, r);
      if !ok { return; }
      if live == 0 {
        more := LastState(rs, r);
      } else {
        counts, sums, clock, more := FinishRound(live, prev, times, instrs, ninstr, totals, tic, rs, r);
      }
    }

    /** An iteration after whose fetches no system is live any more. */
    lemma LastState(rs: seq<Run>, r: Run) returns (more: seq<Run>)
      requires IsRun(wiring.maps, start.sys, rs) && r == rs[|rs| - 1] && RunOk(TraceLogs(), r) && Reads(r.m.sys)
      requires Now() == r.m.(sys := Fetches(r)) && Live(Values()) == 0
      ensures WentThrough(more)
    {
      var t := NextRound(wiring.maps, r);
      RoundDue(wiring.maps, start.sys, rs, r, t);
      more := rs + [t];
    }

    /** The rest of an iteration while some system is live. */
    method FinishRound(live: int, prev: seq<Stamp>, times: seq<Stamp>, instrs: seq<string>, ninstr: seq<int>,
                       totals: seq<real>, tic: int, ghost rs: seq<Run>, ghost r: Run)
      returns (counts: seq<int>, sums: seq<real>, clock: int, ghost more: seq<Run>)
      requires IsRun(wiring.maps, start.sys, rs) && r == rs[|rs| - 1] && live == Live(Values()) > 0
      requires Sim() && RunOk(TraceLogs(), r) && Reads(r.m.sys)
      requires r.stamps == prev && r.totals == totals && r.tic == tic && |prev| == |totals| == |iosys|
      requires Now() == r.m.(sys := Fetches(r))
      requires AllSettled(Values()) && Rested(Values()) && Listed(Values(), times, instrs)
      requires times == Stamps(Values()) && ninstr == DoneCounts(Values()) && AddsUp(TraceLogs(), ninstr, r.m.sys)
      modifies this`runSequence, this`instrSequence, Streams(),
        iosys`state, iosys`src, iosys`runPhase, iosys`funcs, iosys`starts, iosys`clockTic
      ensures RoundInv(live, times, counts, sums, clock, more) && Work(Values()) < Work(r.m.sys)
    {
      counts, sums, clock := PauseAndDispatch(prev, times, instrs, ninstr, totals, tic, r);
      ghost var t := Run(Now(), times, sums, clock);
      RoundDue(wiring.maps, start.sys, rs, r, t);
      more := rs + [t];
    }

    /** The second part of an iteration, after the fetches. */
    method PauseAndDispatch(prev: seq<Stamp>, times: seq<Stamp>, instrs: seq<string>, ninstr: seq<int>,
                            totals: seq<real>, tic: int, ghost r: Run)
      returns (counts: seq<int>, sums: seq<real>, clock: int)
      requires Sim() && RunOk(TraceLogs(), r) && Reads(r.m.sys) && Live(Fetches(r)) > 0
      requires r.stamps == prev && r.totals == totals && r.tic == tic && |prev| == |totals| == |iosys|
      requires Now() == r.m.(sys := Fetches(r))
      requires AllSettled(Values()) && Rested(Values()) && Listed(Values(), times, instrs)
      requires times == Stamps(Values()) && ninstr == DoneCounts(Values()) && AddsUp(TraceLogs(), ninstr, r.m.sys)
      modifies this`runSequence, this`instrSequence, Streams(),
        iosys`state, iosys`src, iosys`runPhase, iosys`funcs, iosys`starts, iosys`clockTic
      ensures Sim() && AddsUp(TraceLogs(), counts, Values())
      ensures Run(Now(), times, sums, clock) == NextRound(wiring.maps, r)
    {
      sums := PauseIn(prev, times, ninstr, totals, tic, r);
      RoundPaused(TraceLogs(), r, times, instrs, ninstr);
      counts, clock := Dispatch(times, instrs, ninstr, tic);
      RoundDone(wiring.maps, r, VisitOrder(Starts(times)), Now(), clock);
    }

    /** The check of the round that is under way. */
    method PauseIn(prev: seq<Stamp>, times: seq<Stamp>, ninstr: seq<int>, totals: seq<real>, tic: int, ghost r: Run)
      returns (sums: seq<real>)
      requires Sim() && Shaped(r) && Live(Fetches(r)) > 0
      requires r.stamps == prev && r.totals == totals && r.tic == tic
      requires Values() == Fetches(r) && AllSettled(Values()) && Rested(Values())
      requires times == Stamps(Values()) && ninstr == DoneCounts(Values())
      modifies iosys`state, iosys`src, iosys`runPhase, iosys`funcs, iosys`starts
      ensures Sim() && Values() == Pauses(r) && sums == CheckOf(r).sums
    {
      sums := QuiescePass(prev, times, ninstr, totals, tic);
    }

    lemma StartTally(ninstr: seq<int>)
      requires Initial(start) && |ninstr| == |start.sys| && forall k :: 0 <= k < |ninstr| ==> ninstr[k] == 0
      ensures AddsUp(TraceLogs(), ninstr, start.sys)
    {
    }

    /** The first part of the opening. */
    method FetchFirst(ghost ninstr: seq<int>) returns (ok: bool, live: int, times: seq<Stamp>, instrs: seq<string>)
      requires Sim() && Now() == start && AllUntouched(start.sys) && AddsUp(TraceLogs(), ninstr, start.sys)
      modifies Streams(), iosys`state, iosys`src, iosys`runPhase, iosys`funcs, iosys`starts
      ensures !ok ==> SomeCorrupt(start.sys)
      ensures ok ==> Sim() && Reads(start.sys) && Now() == Vm(FetchedUpTo(start.sys, true, 0, |start.sys|), [], [])
      ensures ok ==> live == Live(Values()) && Rested(Values()) && AllSettled(Values())
      ensures ok ==> times == Stamps(Values()) && Listed(Values(), times, instrs)
      ensures ok ==> AddsUp(TraceLogs(), ninstr, Values())
    {
      assert |iosys| == Live(Values()) by { LiveZero(Values()); }
      ok, times, instrs, live := FetchPass(true, |iosys|, 0);
      if ok {
        OpeningFetched(start.sys, times, instrs, ninstr);
      }
    }

    /** The passes before the main loop. */
    method Begin(ninstr: seq<int>, totals: seq<real>)
      returns (ok: bool, live: int, times: seq<Stamp>, counts: seq<int>, clock: int, ghost rs: seq<Run>)
      requires Sim() && Now() == start && |ninstr| == |iosys| && totals == seq(|iosys|, _ => INF_QTIME)
      requires forall k :: 0 <= k < |iosys| ==> ninstr[k] == 0
      modifies this`runSequence, this`instrSequence, Streams(),
        iosys`state, iosys`src, iosys`runPhase, iosys`funcs, iosys`starts, iosys`clockTic
      ensures !ok ==> SomeCorrupt(start.sys)
      ensures ok ==> RoundInv(live, times, counts, totals, clock, rs)
    {
      counts, clock, rs := ninstr, 0, [];
      StartUntouched();
      StartTally(ninstr);
      var instrs;
      ok, live, times, instrs := FetchFirst(ninstr);
      if ok {
        counts, clock, rs := BeginDispatch(times, instrs, ninstr, totals);
      }
    }

    /** The second part of the opening, after the fetches. */
    method BeginDispatch(times: seq<Stamp>, instrs: seq<string>, ninstr: seq<int>, ghost totals: seq<real>)
      returns (counts: seq<int>, clock: int, ghost rs: seq<Run>)
      requires Sim() && AllUntouched(start.sys) && Reads(start.sys) && |start.sys| == |iosys|
      requires Now() == Vm(FetchedUpTo(start.sys, true, 0, |start.sys|), [], [])
      requires Rested(Values()) && AllSettled(Values())
      requires times == Stamps(Values()) && Listed(Values(), times, instrs) && AddsUp(TraceLogs(), ninstr, Values())
      requires totals == seq(|iosys|, _ => INF_QTIME)
      modifies this`runSequence, this`instrSequence, Streams(),
        iosys`state, iosys`src, iosys`runPhase, iosys`funcs, iosys`starts, iosys`clockTic
      ensures RoundInv(Live(old(Values())), times, counts, totals, clock, rs)
    {
      ghost var s := Values();
      counts, clock := Dispatch(times, instrs, ninstr, 0);
      ghost var t := Run(Now(), times, totals, clock);
      assert t == Opening(wiring.maps, start.sys);
      Opened(wiring.maps, start.sys, s, ninstr, counts, t);
      rs := [t];
    }

    /** Executes all the traces. It fails exactly when some log is corrupt; otherwise it ends with
        every engine in FINALIZE, every trace executed and emitted completely, and a replay of
        whole phases that is faithful for all systems that depend on each other. It goes through
        the states of an execution as specified, in which, if the calls of no trace overlap, no
        system asks for a pause before it has executed 12 calls. */
    method Execute() returns (ok: bool)
      requires Sim() && Now() == start
      modifies this`runSequence, this`instrSequence, Streams(),
        iosys`state, iosys`src, iosys`runPhase, iosys`funcs, iosys`starts, iosys`clockTic
      ensures ok <==> !SomeCorrupt(start.sys)
      ensures ok ==> Sim() && Finished(Values())
      ensures ok ==> AllComplete(TraceLogs(), Now())
      ensures ok ==> AllFaithful(wiring.maps, TraceLogs(), Now())
      ensures ok ==> exists rs :: WentThrough(rs) && (AllCalm(TraceLogs()) ==> Quiet(rs))
    {
      var totals := seq(|iosys|, _ => INF_QTIME);
      var ninstr: seq<int> := seq(|iosys|, _ => 0);
      var niosys, tstamps, tic;
      ghost var rs;
      ok, niosys, tstamps, ninstr, tic, rs := Begin(ninstr, totals);
      if !ok { return; }
      while niosys > 0
        invariant Sim() && niosys == Live(Values()) && WentThrough(rs)
        invariant niosys > 0 ==> RoundInv(niosys, tstamps, ninstr, totals, tic, rs)
        decreases Work(Values())
      {
        ok, niosys, tstamps, ninstr, totals, tic, rs := Round(niosys, tstamps, ninstr, totals, tic, rs);
        if !ok { return; }
        if niosys == 0 { break; }
      }
      Conclude();
      StartUntouched();
      if AllCalm(TraceLogs()) {
        CalmIsQuiet(wiring.maps, start.sys, rs);
      }
    }

    lemma Conclude()
      requires Sim() && Live(Values()) == 0
      ensures Finished(Values()) && !SomeCorrupt(start.sys)
      ensures AllComplete(TraceLogs(), Now()) && AllFaithful(wiring.maps, TraceLogs(), Now())
    {
      LiveZero(Values());
      ReachedInv(wiring.maps, start, Now());
      FinishedRun(wiring.maps, start, Now());
      forall i | 0 <= i < |start.sys| ensures Parse(start.sys[i].unread).ok {
        assert Complete(TraceLogs()[i], Now().sys[i], Count(Now().runSeq, i), Count(Now().instrSeq, i));
      }
    }
  }
}
