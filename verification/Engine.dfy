/** An I/O system together with its execution engine: the six engine states, the callbacks that
    emit source text on a change of state, and the dependency test between systems. */
module Engine {
  import opened Trace

  datatype Option<T> = None | Some(value: T)

  datatype State = INVALID | INIT | READY | RUN | QUIESCENT | FINALIZE

  /** A piece of emitted C++ source. Run functions are named by their phase number. */
  datatype Emit = Prefix(phase: nat) | Instr(text: string) | Suffix | Dispatcher(funcs: seq<nat>)

  /** The value of an I/O system, its engine and its instruction stream at one moment. */
  datatype Sys = Sys(
    st: State,
    unread: seq<Line>,
    pending: Option<Entry>,   // the cached call, fetched but not yet executed
    phase: nat,
    funcs: seq<nat>,          // the run functions of the phases started so far
    starts: seq<int>,         // the clock at which each phase was started
    src: seq<Emit>,
    tic: int)                 // the clock at the last execution

  /** A change of engine state with the callback it triggers. FINALIZE is absorbing. */
  function Transition(s: Sys, to: State, tic: int): Sys {
    if s.st.FINALIZE? then s
    else
      var t := s.(st := to);
      match (s.st, to)
      case (READY, RUN) =>
        t.(starts := s.starts + [tic], src := s.src + [Prefix(s.phase)], funcs := s.funcs + [s.phase])
      case (RUN, QUIESCENT) => t.(src := s.src + [Suffix], phase := s.phase + 1)
      case (QUIESCENT, RUN) => t.(src := s.src + [Prefix(s.phase)])
      case (RUN, FINALIZE) => t.(src := s.src + [Suffix] + [Dispatcher(s.funcs)])
      case (READY, FINALIZE) => t.(src := s.src + [Suffix] + [Dispatcher(s.funcs)])
      case _ => t
  }

  /** Executing the cached call writes its text and frees the stream's cache. */
  function Executed(s: Sys, text: string, tic: int): Sys {
    s.(src := s.src + [Instr(text)], pending := None, tic := tic)
  }

  /** A call to fetch followed by decode, on a log that is not corrupt at this point;
      a system whose log has ended is finalized. */
  function Refill(s: Sys, tic: int): Sys
    requires s.pending.Some? || !NextEntry(s.unread).Corrupt?
  {
    if s.pending.Some? then s
    else match NextEntry(s.unread)
      case End(after) => Transition(s.(unread := after), FINALIZE, tic)
      case Got(e, rest) => s.(unread := rest, pending := Some(e))
  }

  /** Some MPI rank belongs to both communicators. */
  predicate Overlap(a: seq<int>, b: seq<int>) {
    exists r :: 0 <= r < |a| && r < |b| && a[r] >= 0 && b[r] >= 0
  }

  predicate Dependent(maps: seq<seq<int>>, i: nat, j: nat) {
    i < |maps| && j < |maps| && i != j && Overlap(maps[i], maps[j])
  }

  lemma DependentSymmetric(maps: seq<seq<int>>, i: nat, j: nat)
    ensures Dependent(maps, i, j) == Dependent(maps, j, i)
  {
    if i < |maps| && j < |maps| {
      assert Overlap(maps[i], maps[j]) == Overlap(maps[j], maps[i]) by {
        if Overlap(maps[i], maps[j]) {
          var r :| 0 <= r < |maps[i]| && r < |maps[j]| && maps[i][r] >= 0 && maps[j][r] >= 0;
        }
        if Overlap(maps[j], maps[i]) {
          var r :| 0 <= r < |maps[j]| && r < |maps[i]| && maps[j][r] >= 0 && maps[i][r] >= 0;
        }
      }
    }
  }

  /** The pair of systems (a, b), in either order, comes before the pair (i, j) in the double
      loop over i < j. */
  predicate PairBefore(a: nat, b: nat, i: nat, j: nat) {
    var lo, hi := if a < b then a else b, if a < b then b else a;
    lo < hi && (lo < i || (lo == i && hi < j))
  }

  /** Position i holds the last system with the given id, or is -1 when there is none. */
  predicate IsLastWithId(i: int, iosys: seq<IOSys>, id: int) {
    -1 <= i < |iosys|
    && (i >= 0 ==> iosys[i].iosysid == id)
    && forall k :: i < k < |iosys| ==> iosys[k].iosysid != id
  }

  /** The table with j added to row i, and i to row j. */
  function WithPair(deps: seq<seq<nat>>, i: nat, j: nat): (r: seq<seq<nat>>)
    requires i < |deps| && j < |deps| && i != j
    ensures |r| == |deps|
    ensures forall a: nat, b: nat :: a < |deps| ==>
              (b in r[a] <==> b in deps[a] || (a == i && b == j) || (a == j && b == i))
  {
    deps[i := deps[i] + [j]][j := deps[j] + [i]]
  }

  /** Row a of the table lists exactly the other systems that share a rank with system a. */
  ghost predicate DependencyTable(deps: seq<seq<nat>>, maps: seq<seq<int>>) {
    |deps| == |maps|
    && forall a: nat, b: nat :: a < |deps| ==> (b in deps[a] <==> Dependent(maps, a, b))
  }

  /** The dependency tables that the engines have built, one for each engine. */
  datatype Tables = Tables(maps: seq<seq<int>>, deps: seq<seq<seq<nat>>>) {
    ghost predicate Correct() {
      |deps| == |maps| && forall i :: 0 <= i < |deps| ==> DependencyTable(deps[i], maps)
    }
  }

  type Wiring = w: Tables | w.Correct() witness Tables([], [])

  function Maps(iosys: seq<IOSys>): (m: seq<seq<int>>)
    ensures |m| == |iosys| && forall k :: 0 <= k < |iosys| ==> m[k] == iosys[k].commMap
  {
    seq(|iosys|, k requires 0 <= k < |iosys| => iosys[k].commMap)
  }

  /** All systems are described over the same world communicator. */
  predicate SameLengths(iosys: seq<IOSys>) {
    forall a, b :: 0 <= a < b < |iosys| ==> |iosys[a].commMap| == |iosys[b].commMap|
  }

  /** No two positions share a system or a stream. */
  ghost predicate Separate(iosys: seq<IOSys>) {
    forall a, b :: 0 <= a < b < |iosys| ==> iosys[a] != iosys[b] && iosys[a].stream != iosys[b].stream
  }

  class IOSys {
    const iosysid: int
    const commMap: seq<int>
    const stream: InstructionStream
    var src: seq<Emit>
    var runPhase: nat
    var funcs: seq<nat>
    var starts: seq<int>
    var state: State
    var clockTic: int
    var myIdx: int
    var deps: seq<seq<nat>>

    constructor (iosysid: int, commMap: seq<int>, read: string -> Numeral, log: seq<string>)
      ensures this.iosysid == iosysid && this.commMap == commMap && fresh(stream)
      ensures View() == Sys(INVALID, Meanings(read, log), None, 0, [], [], [], 0)
      ensures myIdx == -1 && deps == []
    {
      this.iosysid, this.commMap := iosysid, commMap;
      stream := new InstructionStream(read, log);
      src, runPhase, funcs, starts := [], 0, [], [];
      state, clockTic, myIdx, deps := INVALID, 0, -1, [];
    }

    ghost function View(): Sys
      reads this, stream
    {
      Sys(state, stream.Unread(),
          if stream.instCached then Some(Entry(stream.enter, stream.exit, stream.instr)) else None,
          runPhase, funcs, starts, src, clockTic)
    }

    /** The dependency test; it fails on communicator maps of different lengths. */
    method IsDependent(other: IOSys) returns (r: Option<bool>)
      ensures r.Some? <==> |commMap| == |other.commMap|
      ensures r.Some? ==>
                (r.value <==> exists k :: 0 <= k < |commMap| && commMap[k] >= 0 && other.commMap[k] >= 0)
    {
      if |other.commMap| != |commMap| { return None; }
      for i := 0 to |other.commMap|
        invariant forall r :: 0 <= r < i ==> commMap[r] < 0 || other.commMap[r] < 0
      {
        if other.commMap[i] >= 0 && commMap[i] >= 0 { return Some(true); }
      }
      return Some(false);
    }

    /** Finds this system's own index, then the systems every system depends on. */
    method Init(iosys: seq<IOSys>) returns (ok: bool)
      requires myIdx == -1 && deps == []
      modifies this`myIdx, this`deps
      ensures IsLastWithId(myIdx, iosys, iosysid)
      ensures ok <==> SameLengths(iosys)
      ensures ok ==> |deps| == |iosys| && DependencyTable(deps, Maps(iosys))
    {
      FindIndex(iosys);
      ok := FindDependencies(iosys);
    }

    method FindIndex(iosys: seq<IOSys>)
      requires myIdx == -1
      modifies this`myIdx
      ensures IsLastWithId(myIdx, iosys, iosysid)
    {
      for i := 0 to |iosys|
        invariant IsLastWithId(myIdx, iosys[..i], iosysid)
      {
        if iosysid == iosys[i].iosysid { myIdx := i; }
      }
      assert iosys[..|iosys|] == iosys;
    }

    method FindDependencies(iosys: seq<IOSys>) returns (ok: bool)
      requires deps == []
      modifies this`deps
      ensures ok <==> SameLengths(iosys)
      ensures ok ==> |deps| == |iosys| && DependencyTable(deps, Maps(iosys))
    {
      ghost var maps := Maps(iosys);
      for i := 0 to |iosys|
        invariant |deps| == i && forall a :: 0 <= a < i ==> deps[a] == []
      {
        deps := deps + [[]];
      }
      for i := 0 to |iosys|
        invariant |deps| == |iosys|
        invariant forall a, b :: 0 <= a < b < |iosys| && a < i ==> |maps[a]| == |maps[b]|
        invariant forall a: nat, b: nat :: a < |deps| ==>
                    (b in deps[a] <==> PairBefore(a, b, i, i + 1) && Dependent(maps, a, b))
      {
        for j := i + 1 to |iosys|
          invariant |deps| == |iosys|
          invariant forall a, b :: 0 <= a < b < |iosys| && (a < i || (a == i && b < j)) ==> |maps[a]| == |maps[b]|
          invariant forall a: nat, b: nat :: a < |deps| ==>
                      (b in deps[a] <==> PairBefore(a, b, i, j) && Dependent(maps, a, b))
        {
          var d := iosys[i].IsDependent(iosys[j]);
          assert d.Some? ==> d.value == Overlap(maps[i], maps[j]);
          if d.None? {
            assert |maps[i]| != |maps[j]|;
            return false;
          }
          DependentSymmetric(maps, i, j);
          if d.value {
            deps := WithPair(deps, i, j);
          }
        }
      }
      ok := true;
    }

    method ReadyToRun(tic: int)
      modifies this`starts, this`src, this`funcs
      ensures starts == old(starts) + [tic] && src == old(src) + [Prefix(runPhase)]
      ensures funcs == old(funcs) + [runPhase]
    {
      starts := starts + [tic];
      src := src + [Prefix(runPhase)];
      funcs := funcs + [runPhase];
    }

    method RunToQuiescent()
      modifies this`src, this`runPhase
      ensures src == old(src) + [Suffix] && runPhase == old(runPhase) + 1
    {
      src := src + [Suffix];
      runPhase := runPhase + 1;
    }

    method QuiescentToRun()
      modifies this`src
      ensures src == old(src) + [Prefix(runPhase)]
    {
      src := src + [Prefix(runPhase)];
    }

    method RunToFinalize()
      modifies this`src
      ensures src == old(src) + [Suffix] + [Dispatcher(funcs)]
    {
      src := src + [Suffix];
      src := src + [Dispatcher(funcs)];
    }

    method SetState(to: State, tic: int)
      modifies this`state, this`src, this`runPhase, this`funcs, this`starts
      ensures View() == Transition(old(View()), to, tic)
    {
      if state != FINALIZE {
        var from := state;
        state := to;
        match (from, to)
        case (READY, RUN) => ReadyToRun(tic);
        case (RUN, QUIESCENT) => RunToQuiescent();
        case (QUIESCENT, RUN) => QuiescentToRun();
        case (RUN, FINALIZE) => RunToFinalize();
        case (READY, FINALIZE) => RunToFinalize();
        case _ =>
      }
    }

    /** Whether this system may run next. If it may, every dependent READY system goes back
        to INIT. */
    method IsReady(iosys: seq<IOSys>) returns (r: bool)
      requires 0 <= myIdx < |deps|
      requires forall d :: d in deps[myIdx] ==> d < |iosys|
      requires Separate(iosys)
      modifies iosys`state, iosys`src, iosys`runPhase, iosys`funcs, iosys`starts
      ensures r <==> !old(state).INVALID? && !old(state).FINALIZE?
                     && forall d :: d in deps[myIdx] ==> !old(iosys[d].state).RUN?
      ensures forall k: nat :: k < |iosys| ==>
                iosys[k].View() == if r && k in deps[myIdx] && old(iosys[k].View()).st.READY?
                                   then old(iosys[k].View()).(st := INIT) else old(iosys[k].View())
    {
      if state == INVALID || state == FINALIZE { return false; }
      var mine := deps[myIdx];
      assert forall k :: 0 <= k < |mine| ==> mine[k] in mine;
      for k := 0 to |mine|
        modifies {}
        invariant forall d :: d in mine[..k] ==> !iosys[d].state.RUN?
      {
        if iosys[mine[k]].state == RUN { return false; }
      }
      KnockBack(iosys, mine);
      r := true;
    }

    method KnockBack(iosys: seq<IOSys>, mine: seq<nat>)
      requires forall d :: d in mine ==> d < |iosys|
      requires Separate(iosys)
      modifies iosys`state, iosys`src, iosys`runPhase, iosys`funcs, iosys`starts
      ensures forall k: nat :: k < |iosys| ==>
                iosys[k].View() == if k in mine && old(iosys[k].View()).st.READY?
                                   then old(iosys[k].View()).(st := INIT) else old(iosys[k].View())
    {
      for k := 0 to |mine|
        invariant forall j: nat :: j < |iosys| ==>
                    iosys[j].View() == if j in mine[..k] && old(iosys[j].View()).st.READY?
                                       then old(iosys[j].View()).(st := INIT) else old(iosys[j].View())
      {
        var d := mine[k];
        assert d in mine && mine[..k+1] == mine[..k] + [d];
        if iosys[d].state == READY {
          iosys[d].SetState(INIT, clockTic);
        }
      }
      assert mine[..|mine|] == mine;
    }

    /** Executes one call: an engine in FINALIZE refuses. */
    method Execute(instr: string, tic: int) returns (ok: bool)
      modifies this`clockTic, this`src, stream`instCached
      ensures ok <==> !state.FINALIZE?
      ensures View() == if ok then Executed(old(View()), instr, tic) else old(View())
      ensures ok ==> clockTic == tic && src == old(src) + [Instr(instr)] && !stream.instCached
    {
      if state == FINALIZE { return false; }
      clockTic := tic;
      src := src + [Instr(instr)];
      stream.Reset();
      ok := true;
    }
  }
}
