/** How the source emitted for one system is cut into phases, and how far the system is in
    its trace. */
module Phases {
  import opened Trace
  import opened Engine

  /** The instructions of each phase, read off emitted source: a prefix opens a phase. */
  function PhasesOf(src: seq<Emit>): seq<seq<string>> {
    if src == [] then []
    else
      var ph := PhasesOf(src[..|src| - 1]);
      match src[|src| - 1]
      case Prefix(_) => ph + [[]]
      case Instr(x) => if ph == [] then [] else ph[|ph| - 1 := ph[|ph| - 1] + [x]]
      case Suffix => ph
      case Dispatcher(_) => ph
  }

  function Instrs(texts: seq<string>): (r: seq<Emit>)
    ensures |r| == |texts|
  {
    seq(|texts|, k requires 0 <= k < |texts| => Instr(texts[k]))
  }

  /** Source with the phases numbered from 0, the last one still open. */
  function RenderOpen(ph: seq<seq<string>>): seq<Emit>
    requires ph != []
    decreases |ph|, 0
  {
    Render(ph[..|ph| - 1]) + [Prefix(|ph| - 1)] + Instrs(ph[|ph| - 1])
  }

  /** Source with the phases numbered from 0, each with a prefix and a suffix. */
  function Render(ph: seq<seq<string>>): seq<Emit>
    decreases |ph|, 1
  {
    if ph == [] then [] else RenderOpen(ph) + [Suffix]
  }

  function Iota(n: nat): (r: seq<nat>)
    ensures |r| == n && forall k :: 0 <= k < n ==> r[k] == k
  {
    seq(n, k => k)
  }

  function Flatten(ph: seq<seq<string>>): seq<string> {
    if ph == [] then [] else Flatten(ph[..|ph| - 1]) + ph[|ph| - 1]
  }

  /** The instructions a system has executed. */
  function Done(s: Sys): seq<string> {
    Flatten(PhasesOf(s.src))
  }

  function NumDone(s: Sys): nat { |Done(s)| }

  /** The calls a system has still to execute. */
  function Rest(s: Sys): seq<Entry> {
    (if s.pending.Some? then [s.pending.value] else []) + Parse(s.unread).entries
  }

  /** The emitted source is a sequence of non-empty phases numbered from 0, open exactly while
      the engine is in RUN, closed by a dispatcher over all of them once it is in FINALIZE. */
  predicate Structured(s: Sys) {
    var ph := PhasesOf(s.src);
    && (forall k :: 0 <= k < |ph| ==> ph[k] != [])
    && s.funcs == Iota(|ph|)
    && match s.st
       case RUN => ph != [] && s.phase == |ph| - 1 && s.src == RenderOpen(ph)
       case FINALIZE => s.src == if ph == [] then [] else Render(ph) + [Dispatcher(Iota(|ph|))]
       case _ => s.phase == |ph| && s.src == Render(ph)
  }

  /** The executed instructions are the first calls of the trace, the cached call and the unread
      log are the others; READY and QUIESCENT engines always hold a cached call, and an INIT
      engine without one has not executed anything. */
  predicate OnTrack(s: Sys, log: Log) {
    var n := NumDone(s);
    && n <= |log.entries|
    && Done(s) == Texts(log.entries[..n])
    && (s.st.FINALIZE? ==> n == |log.entries| && log.ok)
    && (!s.st.FINALIZE? ==> Rest(s) == log.entries[n..] && Parse(s.unread).ok == log.ok)
    && (s.st.READY? || s.st.QUIESCENT? ==> s.pending.Some?)
    && (s.st.INVALID? ==> s.pending.None?)
    && ((s.st.INVALID? || s.st.INIT?) && s.pending.None? ==> s.src == [])
  }

  predicate SysOk(s: Sys, log: Log) {
    Structured(s) && OnTrack(s, log)
  }

  lemma PhasesAppend(src: seq<Emit>, e: Emit)
    ensures
      var ph := PhasesOf(src);
      PhasesOf(src + [e]) ==
      match e
      case Prefix(_) => ph + [[]]
      case Instr(x) => (if ph == [] then [] else ph[|ph| - 1 := ph[|ph| - 1] + [x]])
      case Suffix => ph
      case Dispatcher(_) => ph
  {
    assert (src + [e])[..|src|] == src;
  }

  lemma FlattenStart(ph: seq<seq<string>>, x: string)
    ensures Flatten(ph + [[x]]) == Flatten(ph) + [x]
  {
    assert (ph + [[x]])[..|ph|] == ph;
  }

  lemma FlattenContinue(ph: seq<seq<string>>, x: string)
    requires ph != []
    ensures Flatten(ph[|ph| - 1 := ph[|ph| - 1] + [x]]) == Flatten(ph) + [x]
  {
    assert ph[|ph| - 1 := ph[|ph| - 1] + [x]][..|ph| - 1] == ph[..|ph| - 1];
  }

  lemma InstrsAppend(texts: seq<string>, x: string)
    ensures Instrs(texts + [x]) == Instrs(texts) + [Instr(x)]
  {
  }

  /** The engine moves from READY to RUN and executes the cached call. */
  function Started(s: Sys, tic: int): Sys
    requires s.pending.Some?
  {
    Executed(Transition(s, RUN, tic), s.pending.value.text, tic)
  }

  /** A running engine executes the cached call. */
  function Continued(s: Sys, tic: int): Sys
    requires s.pending.Some?
  {
    Executed(s, s.pending.value.text, tic)
  }

  lemma StartEffect(s: Sys, tic: int)
    requires s.st.READY? && s.pending.Some?
    ensures
      var x := s.pending.value.text;
      PhasesOf(Started(s, tic).src) == PhasesOf(s.src) + [[x]] && Done(Started(s, tic)) == Done(s) + [x]
  {
    var x := s.pending.value.text;
    PhasesAppend(s.src, Prefix(s.phase));
    PhasesAppend(s.src + [Prefix(s.phase)], Instr(x));
    var begun := PhasesOf(s.src) + [[]];
    var k := |begun| - 1;
    assert begun[k] + [x] == [x];
    assert begun[k := begun[k] + [x]] == PhasesOf(s.src) + [[x]];
    FlattenStart(PhasesOf(s.src), x);
  }

  lemma ContinueEffect(s: Sys, tic: int)
    requires PhasesOf(s.src) != [] && s.pending.Some?
    ensures
      var ph, x := PhasesOf(s.src), s.pending.value.text;
      PhasesOf(Continued(s, tic).src) == ph[|ph| - 1 := ph[|ph| - 1] + [x]] && Done(Continued(s, tic)) == Done(s) + [x]
  {
    var x := s.pending.value.text;
    PhasesAppend(s.src, Instr(x));
    FlattenContinue(PhasesOf(s.src), x);
  }

  lemma DoneStep(s: Sys, t: Sys, log: Log)
    requires OnTrack(s, log) && !s.st.FINALIZE? && s.pending.Some?
    requires t.st.RUN? && t.unread == s.unread && t.pending.None?
    requires Done(t) == Done(s) + [s.pending.value.text]
    ensures OnTrack(t, log)
  {
    var n := NumDone(s);
    assert log.entries[n] == Rest(s)[0] == s.pending.value;
    assert log.entries[..n+1] == log.entries[..n] + [log.entries[n]];
    assert Rest(t) == Rest(s)[1..] == log.entries[n+1..];
  }

  /** Source with one more phase, still open and with one instruction. */
  lemma RenderStart(ph: seq<seq<string>>, x: string)
    ensures RenderOpen(ph + [[x]]) == Render(ph) + [Prefix(|ph|)] + [Instr(x)]
  {
    assert (ph + [[x]])[..|ph|] == ph;
    assert Instrs([x]) == [Instr(x)];
  }

  /** Source whose open phase has one more instruction. */
  lemma RenderContinue(ph: seq<seq<string>>, x: string)
    requires ph != []
    ensures RenderOpen(ph[|ph| - 1 := ph[|ph| - 1] + [x]]) == RenderOpen(ph) + [Instr(x)]
  {
    assert ph[|ph| - 1 := ph[|ph| - 1] + [x]][..|ph| - 1] == ph[..|ph| - 1];
    InstrsAppend(ph[|ph| - 1], x);
  }

  lemma IotaNext(n: nat)
    ensures Iota(n) + [n] == Iota(n + 1)
  {
  }

  lemma StartStructured(s: Sys, tic: int)
    requires Structured(s) && s.st.READY? && s.pending.Some?
    ensures Structured(Started(s, tic))
  {
    StartEffect(s, tic);
    RenderStart(PhasesOf(s.src), s.pending.value.text);
    IotaNext(|PhasesOf(s.src)|);
  }

  lemma ContinueStructured(s: Sys, tic: int)
    requires Structured(s) && s.st.RUN? && s.pending.Some?
    ensures Structured(Continued(s, tic))
  {
    ContinueEffect(s, tic);
    RenderContinue(PhasesOf(s.src), s.pending.value.text);
  }

  lemma StartOk(s: Sys, log: Log, tic: int)
    requires SysOk(s, log) && s.st.READY?
    ensures SysOk(Started(s, tic), log)
  {
    StartStructured(s, tic);
    StartEffect(s, tic);
    DoneStep(s, Started(s, tic), log);
  }

  lemma ContinueOk(s: Sys, log: Log, tic: int)
    requires SysOk(s, log) && s.st.RUN? && s.pending.Some?
    ensures SysOk(Continued(s, tic), log)
  {
    ContinueStructured(s, tic);
    ContinueEffect(s, tic);
    DoneStep(s, Continued(s, tic), log);
  }

  /** A change of state that emits nothing keeps the phases. */
  lemma SilentOk(s: Sys, log: Log, to: State)
    requires SysOk(s, log) && (s.st.INVALID? || s.st.INIT? || s.st.READY? || s.st.QUIESCENT?)
    requires to.INIT? || ((to.READY? || to.QUIESCENT?) && s.pending.Some?)
    ensures SysOk(s.(st := to), log)
  {
  }

  lemma QuiesceOk(s: Sys, log: Log, tic: int)
    requires SysOk(s, log) && (s.st.FINALIZE? || s.pending.Some?)
    ensures SysOk(Transition(s, QUIESCENT, tic), log)
    ensures PhasesOf(Transition(s, QUIESCENT, tic).src) == PhasesOf(s.src)
  {
    if s.st.RUN? {
      PhasesAppend(s.src, Suffix);
    } else if !s.st.FINALIZE? {
      SilentOk(s, log, QUIESCENT);
    }
  }

  lemma FinalizeStructured(s: Sys, tic: int)
    requires Structured(s) && (s.st.RUN? || (s.st.INIT? && s.src == []))
    ensures Structured(Transition(s, FINALIZE, tic))
    ensures PhasesOf(Transition(s, FINALIZE, tic).src) == PhasesOf(s.src)
  {
    if s.st.RUN? {
      PhasesAppend(s.src, Suffix);
      PhasesAppend(s.src + [Suffix], Dispatcher(s.funcs));
    }
  }

  lemma FinalizeOnTrack(s: Sys, log: Log, after: seq<Line>, t: Sys)
    requires OnTrack(s, log) && !s.st.FINALIZE? && s.pending.None?
    requires NextEntry(s.unread) == End(after)
    requires t.st.FINALIZE? && PhasesOf(t.src) == PhasesOf(s.src)
    ensures OnTrack(t, log)
  {
    assert log.entries[NumDone(s)..] == [];
  }

  /** Fetching never executes; a system finalizes only when its whole trace is done. */
  lemma RefillOk(s: Sys, log: Log, tic: int)
    requires SysOk(s, log) && !s.st.FINALIZE? && !s.st.INVALID?
    requires s.pending.Some? || !NextEntry(s.unread).Corrupt?
    ensures SysOk(Refill(s, tic), log)
    ensures PhasesOf(Refill(s, tic).src) == PhasesOf(s.src)
    ensures Refill(s, tic).st.FINALIZE? || (Refill(s, tic).st == s.st && Refill(s, tic).pending.Some?)
  {
    if s.pending.None? {
      match NextEntry(s.unread)
      case End(after) =>
        var s' := s.(unread := after);
        FinalizeStructured(s', tic);
        FinalizeOnTrack(s, log, after, Transition(s', FINALIZE, tic));
      case Got(e, rest) => assert Rest(Refill(s, tic)) == Rest(s);
    }
  }
}
