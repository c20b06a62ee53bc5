/** The registry of PAPI events: a list of raw hardware counters, and a list of printed events
    that index into it. */
module Papi {

  const MAX_AUX: nat := 9

  /** A hardware counter. The first ten appear in the definitions of derived events. They, the data
      TLB misses and the other presets are the rows of the preset table, everything else is a native
      event. */
  datatype Counter =
    | TotIns | TotCyc | FpOps | LstIns | L1Dca | L1Dcm | L2Tcm | L2Tca | L3Tcm | L3Tcr
    | TlbDm | Preset(row: nat) | Native(code: int)

  datatype Ratio = IPC | CI | FPC | FPI | LSTPI | DCMRT | LSTPDCM | L2MRT | LSTPL2M | L3MRT

  /** What an event can be requested as. */
  datatype Event = Raw(counter: Counter) | Derived(ratio: Ratio)

  datatype Option = Verbose | Multiplex | NarrowPrint | PerSec

  datatype Request = Flag(option: Option) | Count(event: Event)

  /** A printed event with the name that it is looked up by and its indexes into the raw list; -1
      says that there is no denominator. */
  datatype Printed = Printed(event: Event, name: string, numidx: int, denomidx: int)

  datatype Flags = Flags(verbose: bool, multiplex: bool, narrow: bool, persec: bool)

  datatype Registry = Registry(raw: seq<Counter>, printed: seq<Printed>, flags: Flags)

  datatype Name = Nameless | Named(text: string)

  /** What the PAPI library answers during one call: whether it initialises, which counters the
      machine has, and the names of counters; for those in the preset table that have no name below,
      the name in the table. */
  datatype Library = Library(ready: bool, available: Counter -> bool, nameOf: Counter -> Name)

  function RatioName(r: Ratio): string {
    match r
    case IPC => "GPTL_IPC"
    case CI => "GPTL_CI"
    case FPC => "GPTL_FPC"
    case FPI => "GPTL_FPI"
    case LSTPI => "GPTL_LSTPI"
    case DCMRT => "GPTL_DCMRT"
    case LSTPDCM => "GPTL_LSTPDCM"
    case L2MRT => "GPTL_L2MRT"
    case LSTPL2M => "GPTL_LSTPL2M"
    case L3MRT => "GPTL_L3MRT"
  }

  function CounterName(c: Counter, nameOf: Counter -> Name): string {
    match c
    case TotIns => "PAPI_TOT_INS"
    case TotCyc => "PAPI_TOT_CYC"
    case FpOps => "PAPI_FP_OPS"
    case LstIns => "PAPI_LST_INS"
    case L1Dca => "PAPI_L1_DCA"
    case L1Dcm => "PAPI_L1_DCM"
    case L2Tcm => "PAPI_L2_TCM"
    case L2Tca => "PAPI_L2_TCA"
    case L3Tcm => "PAPI_L3_TCM"
    case L3Tcr => "PAPI_L3_TCR"
    case TlbDm => "PAPI_TLB_DM"
    case _ => match nameOf(c) case Nameless => "" case Named(text) => text
  }

  /** The full name of an event. */
  function FullName(e: Event, nameOf: Counter -> Name): string {
    match e
    case Raw(c) => CounterName(c, nameOf)
    case Derived(r) => RatioName(r)
  }

  const NATIVE_CHARS: nat := 12

  /** What the row for data TLB misses holds as a name: two strings without a comma between them. */
  const TLB_DM_TEXT: string := "PAPI_TLB_DMTLB_DM  "

  /** The name that an event is stored under: that of a native event is cut, and the row for data
      TLB misses has its own. */
  function Shown(e: Event, full: string): string {
    match e
    case Derived(_) => full
    case Raw(TlbDm) => TLB_DM_TEXT
    case Raw(Native(_)) => if |full| > NATIVE_CHARS then full[..NATIVE_CHARS] else full
    case Raw(_) => full
  }

  /** The quotients that may define a derived event, in order of preference. */
  function Definitions(r: Ratio): (ds: seq<(Counter, Counter)>)
    ensures 1 <= |ds| <= 2 && forall k :: 0 <= k < |ds| ==> ds[k].0 != ds[k].1
  {
    match r
    case IPC => [(TotIns, TotCyc)]
    case CI => [(FpOps, LstIns), (FpOps, L1Dca)]
    case FPC => [(FpOps, TotCyc)]
    case FPI => [(FpOps, TotIns)]
    case LSTPI => [(LstIns, TotIns), (L1Dca, TotIns)]
    case DCMRT => [(L1Dcm, L1Dca)]
    case LSTPDCM => [(LstIns, L1Dcm), (L1Dca, L1Dcm)]
    case L2MRT => [(L2Tcm, L2Tca)]
    case LSTPL2M => [(LstIns, L2Tcm), (L1Dca, L2Tcm)]
    case L3MRT => [(L3Tcm, L3Tcr)]
  }

  /** The index of a counter in the raw list, or -1. */
  function IndexOf(raw: seq<Counter>, c: Counter): (i: int)
    ensures -1 <= i < |raw|
    ensures i >= 0 ==> raw[i] == c
    ensures i == -1 <==> c !in raw
  {
    if raw == [] then -1
    else if raw[0] == c then 0
    else var i := IndexOf(raw[1..], c); if i == -1 then -1 else i + 1
  }

  predicate AlreadyEnabled(g: Registry, e: Event) {
    exists k :: 0 <= k < |g.printed| && g.printed[k].event == e
  }

  function Enabled(raw: seq<Counter>, c: Counter): seq<Counter> {
    if c in raw then raw else raw + [c]
  }

  predicate CanEnable2(g: Registry, lib: Library, d: (Counter, Counter)) {
    |g.raw| + 2 <= MAX_AUX && lib.available(d.0) && lib.available(d.1)
  }

  function WithFlag(f: Flags, o: Option, val: bool): Flags {
    match o
    case Verbose => f.(verbose := val)
    case Multiplex => f.(multiplex := val)
    case NarrowPrint => f.(narrow := val)
    case PerSec => f.(persec := val)
  }

  /** Enables both counters of a definition and prints their quotient. */
  function AddPair(g: Registry, r: Ratio, d: (Counter, Counter)): Registry {
    var raw := Enabled(Enabled(g.raw, d.0), d.1);
    g.(raw := raw, printed := g.printed + [Printed(Derived(r), RatioName(r), IndexOf(raw, d.0), IndexOf(raw, d.1))])
  }

  /** A derived event takes the first of its definitions that the machine supports. */
  function AddDerived(g: Registry, r: Ratio, ds: seq<(Counter, Counter)>, lib: Library): (Registry, bool) {
    if ds == [] then (g, false)
    else if CanEnable2(g, lib, ds[0]) then (AddPair(g, r, ds[0]), true)
    else AddDerived(g, r, ds[1..], lib)
  }

  function AddRaw(g: Registry, c: Counter, lib: Library): (Registry, bool) {
    if c.Native? && lib.nameOf(c).Nameless? then (g, false)
    else if c in g.raw || (|g.raw| + 1 <= MAX_AUX && lib.available(c)) then
      var raw := Enabled(g.raw, c);
      var name := Shown(Raw(c), CounterName(c, lib.nameOf));
      (g.(raw := raw, printed := g.printed + [Printed(Raw(c), name, IndexOf(raw, c), -1)]), true)
    else (g, false)
  }

  /** The effect of one option call, and whether it succeeds. */
  function SetOption(g: Registry, q: Request, val: bool, lib: Library): (Registry, bool) {
    match q
    case Flag(o) => (g.(flags := WithFlag(g.flags, o, val)), true)
    case Count(e) =>
      if !val then (g, !AlreadyEnabled(g, e))
      else if AlreadyEnabled(g, e) || !lib.ready || |g.printed| + 1 > MAX_AUX then (g, false)
      else match e
        case Derived(r) => AddDerived(g, r, Definitions(r), lib)
        case Raw(c) => AddRaw(g, c, lib)
  }

  /** The indexes of a printed event point at the counters that the event is defined from. */
  ghost predicate PointsRight(p: Printed, raw: seq<Counter>) {
    && 0 <= p.numidx < |raw|
    && match p.event
       case Raw(c) => raw[p.numidx] == c && p.denomidx == -1
       case Derived(r) => 0 <= p.denomidx < |raw| && (raw[p.numidx], raw[p.denomidx]) in Definitions(r)
  }

  ghost predicate NoDuplicates(raw: seq<Counter>) {
    forall i, j :: 0 <= i < j < |raw| ==> raw[i] != raw[j]
  }

  /** Index integrity of the two tables. */
  ghost predicate Integrity(g: Registry) {
    && |g.raw| <= MAX_AUX && NoDuplicates(g.raw)
    && |g.printed| <= MAX_AUX
    && (forall i, j :: 0 <= i < j < |g.printed| ==> g.printed[i].event != g.printed[j].event)
    && forall i :: 0 <= i < |g.printed| ==> PointsRight(g.printed[i], g.raw)
  }

  lemma EnabledKeeps(raw: seq<Counter>, c: Counter)
    requires NoDuplicates(raw)
    ensures var r := Enabled(raw, c); NoDuplicates(r) && raw <= r && c in r && |r| <= |raw| + 1
  {
  }

  lemma PointsOn(p: Printed, raw: seq<Counter>, longer: seq<Counter>)
    requires PointsRight(p, raw) && raw <= longer
    ensures PointsRight(p, longer)
  {
    assert longer[p.numidx] == raw[p.numidx];
    if p.event.Derived? {
      assert longer[p.denomidx] == raw[p.denomidx];
    }
  }

  /** A registry with one more printed event over a longer raw list. */
  lemma AppendKeeps(g: Registry, raw: seq<Counter>, p: Printed)
    requires Integrity(g) && g.raw <= raw && NoDuplicates(raw) && |raw| <= MAX_AUX
    requires |g.printed| < MAX_AUX && !AlreadyEnabled(g, p.event) && PointsRight(p, raw)
    ensures Integrity(g.(raw := raw, printed := g.printed + [p]))
  {
    forall i | 0 <= i < |g.printed| ensures PointsRight(g.printed[i], raw) {
      PointsOn(g.printed[i], g.raw, raw);
    }
  }

  /** What a successful request for an event does: it adds that event at the end, and no more raw
      counters than the event needs, at the end too. */
  ghost predicate Added(g: Registry, h: Registry, e: Event, nameOf: Counter -> Name) {
    && g.raw <= h.raw && |h.raw| <= |g.raw| + (if e.Derived? then 2 else 1)
    && |h.printed| == |g.printed| + 1 && g.printed <= h.printed && h.printed[|g.printed|].event == e
    && h.printed[|g.printed|].name == Shown(e, FullName(e, nameOf))
    && h.flags == g.flags
    && forall c :: c in h.raw && c !in g.raw ==> UsedBy(c, h.printed[|g.printed|], h.raw)
  }

  ghost predicate UsedBy(c: Counter, p: Printed, raw: seq<Counter>) {
    (0 <= p.numidx < |raw| && raw[p.numidx] == c) || (0 <= p.denomidx < |raw| && raw[p.denomidx] == c)
  }

  lemma AddPairKeeps(g: Registry, r: Ratio, d: (Counter, Counter))
    requires Integrity(g) && |g.printed| < MAX_AUX && !AlreadyEnabled(g, Derived(r))
    requires d in Definitions(r) && |g.raw| + 2 <= MAX_AUX
    ensures Integrity(AddPair(g, r, d)) && forall names :: Added(g, AddPair(g, r, d), Derived(r), names)
  {
    var one := Enabled(g.raw, d.0);
    EnabledKeeps(g.raw, d.0);
    EnabledKeeps(one, d.1);
    var raw := Enabled(one, d.1);
    var p := Printed(Derived(r), RatioName(r), IndexOf(raw, d.0), IndexOf(raw, d.1));
    assert d.0 in raw by { assert raw[IndexOf(one, d.0)] == d.0; }
    AppendKeeps(g, raw, p);
    forall c | c in raw && c !in g.raw ensures UsedBy(c, p, raw) {
      assert c == d.0 || c == d.1;
    }
  }

  lemma {:induction false} AddDerivedKeeps(g: Registry, r: Ratio, ds: seq<(Counter, Counter)>, lib: Library)
    requires Integrity(g) && |g.printed| < MAX_AUX && !AlreadyEnabled(g, Derived(r))
    requires forall k :: 0 <= k < |ds| ==> ds[k] in Definitions(r)
    ensures
      var (h, ok) := AddDerived(g, r, ds, lib);
      Integrity(h) && (ok ==> Added(g, h, Derived(r), lib.nameOf)) && (!ok ==> h == g)
      && (ok <==> exists k :: 0 <= k < |ds| && CanEnable2(g, lib, ds[k]))
    decreases |ds|
  {
    if ds != [] {
      if CanEnable2(g, lib, ds[0]) {
        AddPairKeeps(g, r, ds[0]);
      } else {
        AddDerivedKeeps(g, r, ds[1..], lib);
        assert forall k :: 1 <= k < |ds| ==> ds[k] == ds[1..][k - 1];
      }
    }
  }

  lemma AddRawKeeps(g: Registry, c: Counter, lib: Library)
    requires Integrity(g) && |g.printed| < MAX_AUX && !AlreadyEnabled(g, Raw(c))
    ensures
      var (h, ok) := AddRaw(g, c, lib);
      Integrity(h) && (ok ==> Added(g, h, Raw(c), lib.nameOf)) && (!ok ==> h == g)
  {
    var (h, ok) := AddRaw(g, c, lib);
    if ok {
      EnabledKeeps(g.raw, c);
      AppendKeeps(g, h.raw, Printed(Raw(c), Shown(Raw(c), CounterName(c, lib.nameOf)), IndexOf(h.raw, c), -1));
    }
  }

  /** Every call keeps the index integrity. A successful request adds its event, everything else
      leaves both tables alone; a failing call changes nothing at all. */
  lemma SetOptionKeeps(g: Registry, q: Request, val: bool, lib: Library)
    requires Integrity(g)
    ensures
      var (h, ok) := SetOption(g, q, val, lib);
      && Integrity(h)
      && (!ok ==> h == g)
      && (ok && q.Count? && val ==> Added(g, h, q.event, lib.nameOf))
      && (q.Flag? || !val ==> h.raw == g.raw && h.printed == g.printed)
      && (q.Flag? ==>
            && ok
            && h.flags.verbose == (if q.option.Verbose? then val else g.flags.verbose)
            && h.flags.multiplex == (if q.option.Multiplex? then val else g.flags.multiplex)
            && h.flags.narrow == (if q.option.NarrowPrint? then val else g.flags.narrow)
            && h.flags.persec == (if q.option.PerSec? then val else g.flags.persec))
  {
    if q.Count? && val && !AlreadyEnabled(g, q.event) && lib.ready && |g.printed| < MAX_AUX {
      match q.event
      case Derived(r) => AddDerivedKeeps(g, r, Definitions(r), lib);
      case Raw(c) => AddRawKeeps(g, c, lib);
    }
  }

  /** One option call of a client, with the library's answers during it. */
  datatype Call = Call(q: Request, val: bool, lib: Library)

  function AfterCalls(g: Registry, calls: seq<Call>): Registry {
    if calls == [] then g
    else
      var c := calls[|calls| - 1];
      SetOption(AfterCalls(g, calls[..|calls| - 1]), c.q, c.val, c.lib).0
  }

  /** After any calls, under any hardware, the tables are in order and earlier entries have not
      moved. */
  lemma {:induction false} AnyCallsKeep(g: Registry, calls: seq<Call>)
    requires Integrity(g)
    ensures Integrity(AfterCalls(g, calls)) && |AfterCalls(g, calls).raw| <= 9 && |AfterCalls(g, calls).printed| <= 9
    ensures g.raw <= AfterCalls(g, calls).raw && g.printed <= AfterCalls(g, calls).printed
    decreases |calls|
  {
    if calls != [] {
      var c := calls[|calls| - 1];
      var before := AfterCalls(g, calls[..|calls| - 1]);
      AnyCallsKeep(g, calls[..|calls| - 1]);
      SetOptionKeeps(before, c.q, c.val, c.lib);
    }
  }

  /** Every printed event is stored under the name shown for it. */
  ghost predicate NamesRight(printed: seq<Printed>, nameOf: Counter -> Name) {
    forall i :: 0 <= i < |printed| ==> printed[i].name == Shown(printed[i].event, FullName(printed[i].event, nameOf))
  }

  /** If the library gives the same names throughout, the stored names are right after any calls. */
  lemma {:induction false} AnyCallsName(g: Registry, calls: seq<Call>, nameOf: Counter -> Name)
    requires Integrity(g) && NamesRight(g.printed, nameOf)
    requires forall i :: 0 <= i < |calls| ==> calls[i].lib.nameOf == nameOf
    ensures NamesRight(AfterCalls(g, calls).printed, nameOf)
    decreases |calls|
  {
    if calls != [] {
      var c := calls[|calls| - 1];
      var before := AfterCalls(g, calls[..|calls| - 1]);
      AnyCallsName(g, calls[..|calls| - 1], nameOf);
      AnyCallsKeep(g, calls[..|calls| - 1]);
      NamesAfter(before, c.q, c.val, c.lib);
    }
  }

  lemma NamesAfter(g: Registry, q: Request, val: bool, lib: Library)
    requires Integrity(g) && NamesRight(g.printed, lib.nameOf)
    ensures NamesRight(SetOption(g, q, val, lib).0.printed, lib.nameOf)
  {
    var (h, ok) := SetOption(g, q, val, lib);
    SetOptionKeeps(g, q, val, lib);
    if ok && q.Count? && val {
      NamesAppend(g.printed, h.printed, lib.nameOf);
    }
  }

  lemma NamesAppend(a: seq<Printed>, b: seq<Printed>, nameOf: Counter -> Name)
    requires NamesRight(a, nameOf) && |b| == |a| + 1 && a <= b
    requires b[|a|].name == Shown(b[|a|].event, FullName(b[|a|].event, nameOf))
    ensures NamesRight(b, nameOf)
  {
  }

  /** The first printed event with a name, or -1. */
  function IndexOfName(printed: seq<Printed>, name: string): (i: int)
    ensures -1 <= i < |printed|
    ensures i >= 0 ==> printed[i].name == name && forall k :: 0 <= k < i ==> printed[k].name != name
    ensures i == -1 <==> forall k :: 0 <= k < |printed| ==> printed[k].name != name
  {
    if printed == [] then -1
    else if printed[0].name == name then 0
    else var i := IndexOfName(printed[1..], name); if i == -1 then -1 else i + 1
  }

  lemma NameIndex(printed: seq<Printed>, name: string, n: nat)
    requires n < |printed| && printed[n].name == name && forall k :: 0 <= k < n ==> printed[k].name != name
    ensures IndexOfName(printed, name) == n
  {
  }

  /** Which names are stored unchanged. */
  lemma ShownInFull(e: Event, nameOf: Counter -> Name)
    ensures Shown(e, FullName(e, nameOf)) == FullName(e, nameOf)
            <==> e != Raw(TlbDm) && (e.Raw? && e.counter.Native? ==> |FullName(e, nameOf)| <= 12)
  {
    if e == Raw(TlbDm) {
      assert |TLB_DM_TEXT| == 19 && |FullName(e, nameOf)| == 11;
    }
  }

  /** The name that each event is stored under. */
  lemma StoredName(e: Event, nameOf: Counter -> Name)
    ensures
      var name := Shown(e, FullName(e, nameOf));
      match e
      case Derived(IPC) => name == "GPTL_IPC"
      case Derived(CI) => name == "GPTL_CI"
      case Derived(FPC) => name == "GPTL_FPC"
      case Derived(FPI) => name == "GPTL_FPI"
      case Derived(LSTPI) => name == "GPTL_LSTPI"
      case Derived(DCMRT) => name == "GPTL_DCMRT"
      case Derived(LSTPDCM) => name == "GPTL_LSTPDCM"
      case Derived(L2MRT) => name == "GPTL_L2MRT"
      case Derived(LSTPL2M) => name == "GPTL_LSTPL2M"
      case Derived(L3MRT) => name == "GPTL_L3MRT"
      case Raw(TotIns) => name == "PAPI_TOT_INS"
      case Raw(TotCyc) => name == "PAPI_TOT_CYC"
      case Raw(FpOps) => name == "PAPI_FP_OPS"
      case Raw(LstIns) => name == "PAPI_LST_INS"
      case Raw(L1Dca) => name == "PAPI_L1_DCA"
      case Raw(L1Dcm) => name == "PAPI_L1_DCM"
      case Raw(L2Tcm) => name == "PAPI_L2_TCM"
      case Raw(L2Tca) => name == "PAPI_L2_TCA"
      case Raw(L3Tcm) => name == "PAPI_L3_TCM"
      case Raw(L3Tcr) => name == "PAPI_L3_TCR"
      case Raw(TlbDm) => name == "PAPI_TLB_DMTLB_DM  "
      case Raw(Preset(row)) => nameOf(Preset(row)).Named? ==> name == nameOf(Preset(row)).text
      case Raw(Native(code)) =>
        nameOf(Native(code)).Named? ==>
          var full := nameOf(Native(code)).text;
          name <= full && |name| == if |full| < 12 then |full| else 12
  {
  }

  /** An enabled event is found by its full name if and only if that name is stored unchanged and no
      event enabled earlier is stored under it. */
  lemma FoundByName(printed: seq<Printed>, n: nat, nameOf: Counter -> Name)
    requires NamesRight(printed, nameOf) && n < |printed|
    ensures
      var e := printed[n].event;
      var full := FullName(e, nameOf);
      IndexOfName(printed, full) == n
      <==> e != Raw(TlbDm) && (e.Raw? && e.counter.Native? ==> |full| <= 12)
           && forall k :: 0 <= k < n ==> Shown(printed[k].event, FullName(printed[k].event, nameOf)) != full
  {
    ShownInFull(printed[n].event, nameOf);
  }

  /** Definition k is the first one whose two counters the machine has. */
  ghost predicate FirstSupported(ds: seq<(Counter, Counter)>, k: nat, lib: Library) {
    && k < |ds| && lib.available(ds[k].0) && lib.available(ds[k].1)
    && forall j :: 0 <= j < k ==> !(lib.available(ds[j].0) && lib.available(ds[j].1))
  }

  lemma {:induction false} DerivedChoice(g: Registry, r: Ratio, ds: seq<(Counter, Counter)>, k: nat, lib: Library)
    requires FirstSupported(ds, k, lib)
    ensures AddDerived(g, r, ds, lib) == if |g.raw| + 2 <= MAX_AUX then (AddPair(g, r, ds[k]), true) else (g, false)
    decreases |ds|
  {
    if k > 0 {
      assert !(lib.available(ds[0].0) && lib.available(ds[0].1));
      DerivedChoice(g, r, ds[1..], k - 1, lib);
    } else if |g.raw| + 2 > MAX_AUX {
      DerivedRefused(g, r, ds, lib);
    }
  }

  lemma {:induction false} DerivedRefused(g: Registry, r: Ratio, ds: seq<(Counter, Counter)>, lib: Library)
    requires forall k :: 0 <= k < |ds| ==> !CanEnable2(g, lib, ds[k])
    ensures AddDerived(g, r, ds, lib) == (g, false)
    decreases |ds|
  {
    if ds != [] {
      DerivedRefused(g, r, ds[1..], lib);
    }
  }

  lemma SomeSupported(r: Ratio, lib: Library) returns (k: nat)
    requires
      var ds := Definitions(r);
      exists i :: 0 <= i < |ds| && lib.available(ds[i].0) && lib.available(ds[i].1)
    ensures FirstSupported(Definitions(r), k, lib)
  {
    var ds := Definitions(r);
    k := if lib.available(ds[0].0) && lib.available(ds[0].1) then 0 else 1;
  }

  /** The machine has the counters of one of an event's definitions. */
  lemma SupportedWhen(r: Ratio, lib: Library)
    ensures
      (exists k: nat :: FirstSupported(Definitions(r), k, lib)) <==>
      match r
      case IPC => lib.available(TotIns) && lib.available(TotCyc)
      case CI => lib.available(FpOps) && (lib.available(LstIns) || lib.available(L1Dca))
      case FPC => lib.available(FpOps) && lib.available(TotCyc)
      case FPI => lib.available(FpOps) && lib.available(TotIns)
      case LSTPI => (lib.available(LstIns) || lib.available(L1Dca)) && lib.available(TotIns)
      case DCMRT => lib.available(L1Dcm) && lib.available(L1Dca)
      case LSTPDCM => (lib.available(LstIns) || lib.available(L1Dca)) && lib.available(L1Dcm)
      case L2MRT => lib.available(L2Tcm) && lib.available(L2Tca)
      case LSTPL2M => (lib.available(LstIns) || lib.available(L1Dca)) && lib.available(L2Tcm)
      case L3MRT => lib.available(L3Tcm) && lib.available(L3Tcr)
  {
    var ds := Definitions(r);
    assert FirstSupported(ds, 0, lib) <==> lib.available(ds[0].0) && lib.available(ds[0].1);
    if |ds| == 2 && !(lib.available(ds[0].0) && lib.available(ds[0].1)) {
      assert FirstSupported(ds, 1, lib) <==> lib.available(ds[1].0) && lib.available(ds[1].1);
    }
  }

  /** When a request is granted. A raw counter that is counted already needs no free slot; a
      derived event asks for two free slots, even if its counters are counted already. */
  lemma Granted(g: Registry, e: Event, lib: Library)
    requires Integrity(g)
    ensures SetOption(g, Count(e), true, lib).1 <==>
            && (forall k :: 0 <= k < |g.printed| ==> g.printed[k].event != e)
            && lib.ready && |g.printed| < 9
            && match e
               case Raw(c) => (c.Native? ==> lib.nameOf(c).Named?) && (c in g.raw || (|g.raw| < 9 && lib.available(c)))
               case Derived(r) => |g.raw| <= 7 && exists k: nat :: FirstSupported(Definitions(r), k, lib)
  {
    if e.Derived? && !AlreadyEnabled(g, e) && lib.ready && |g.printed| < MAX_AUX {
      var r := e.ratio;
      var ds := Definitions(r);
      AddDerivedKeeps(g, r, ds, lib);
      if k :| 0 <= k < |ds| && CanEnable2(g, lib, ds[k]) {
        var first := SomeSupported(r, lib);
      } else if k: nat :| FirstSupported(ds, k, lib) {
        assert CanEnable2(g, lib, ds[k]) <==> |g.raw| <= MAX_AUX - 2;
      }
    }
  }

  /** A request to disable an event succeeds, without any effect, if the event is not enabled. */
  lemma DisableRefused(g: Registry, e: Event, lib: Library)
    ensures SetOption(g, Count(e), false, lib).0 == g
    ensures SetOption(g, Count(e), false, lib).1 <==> forall k :: 0 <= k < |g.printed| ==> g.printed[k].event != e
  {
  }

  /** A granted derived event is the quotient of the first definition that the machine supports;
      later ones are fallbacks only. */
  lemma Chosen(g: Registry, r: Ratio, k: nat, lib: Library)
    requires Integrity(g) && SetOption(g, Count(Derived(r)), true, lib).1
    requires FirstSupported(Definitions(r), k, lib)
    ensures
      var h := SetOption(g, Count(Derived(r)), true, lib).0;
      && |h.printed| == |g.printed| + 1
      && var p := h.printed[|g.printed|];
         && 0 <= p.numidx < |h.raw| && h.raw[p.numidx] == Definitions(r)[k].0
         && 0 <= p.denomidx < |h.raw| && h.raw[p.denomidx] == Definitions(r)[k].1
  {
    DerivedChoice(g, r, Definitions(r), k, lib);
    var d := Definitions(r)[k];
    AddPairKeeps(g, r, d);
    var one := Enabled(g.raw, d.0);
    assert Enabled(one, d.1)[IndexOf(one, d.0)] == d.0;
  }

  /** The counters that a granted event is the quotient of. Loads and stores are counted by the L1
      data cache accesses where the machine does not count them themselves. */
  lemma EventCounters(g: Registry, r: Ratio, lib: Library)
    requires Integrity(g) && SetOption(g, Count(Derived(r)), true, lib).1
    ensures
      var h := SetOption(g, Count(Derived(r)), true, lib).0;
      && |h.printed| == |g.printed| + 1
      && var p := h.printed[|g.printed|];
         && 0 <= p.numidx < |h.raw| && 0 <= p.denomidx < |h.raw|
         && var num, denom := h.raw[p.numidx], h.raw[p.denomidx];
            match r
            case IPC => num == TotIns && denom == TotCyc
            case CI => num == FpOps && denom == if lib.available(LstIns) && lib.available(FpOps) then LstIns else L1Dca
            case FPC => num == FpOps && denom == TotCyc
            case FPI => num == FpOps && denom == TotIns
            case LSTPI =>
              num == (if lib.available(LstIns) && lib.available(TotIns) then LstIns else L1Dca) && denom == TotIns
            case DCMRT => num == L1Dcm && denom == L1Dca
            case LSTPDCM =>
              num == (if lib.available(LstIns) && lib.available(L1Dcm) then LstIns else L1Dca) && denom == L1Dcm
            case L2MRT => num == L2Tcm && denom == L2Tca
            case LSTPL2M =>
              num == (if lib.available(LstIns) && lib.available(L2Tcm) then LstIns else L1Dca) && denom == L2Tcm
            case L3MRT => num == L3Tcm && denom == L3Tcr
  {
    var ds := Definitions(r);
    Granted(g, Derived(r), lib);
    var k: nat :| FirstSupported(ds, k, lib);
    Chosen(g, r, k, lib);
    assert k == 0 <==> lib.available(ds[0].0) && lib.available(ds[0].1);
  }

  /** In tables that are in order, every printed event points at counters that it is made of. */
  lemma PrintedCounters(g: Registry, i: nat)
    requires Integrity(g) && i < |g.printed|
    ensures
      var p := g.printed[i];
      && 0 <= p.numidx < |g.raw|
      && var num := g.raw[p.numidx];
         match p.event
         case Raw(c) => num == c && p.denomidx == -1
         case Derived(r) =>
           && 0 <= p.denomidx < |g.raw|
           && MadeOf(r, num, g.raw[p.denomidx])
  {
    assert PointsRight(g.printed[i], g.raw);
  }

  /** The quotient that an event stands for, by the counters. */
  predicate MadeOf(r: Ratio, num: Counter, denom: Counter) {
    match r
    case IPC => num == TotIns && denom == TotCyc
    case CI => num == FpOps && (denom == LstIns || denom == L1Dca)
    case FPC => num == FpOps && denom == TotCyc
    case FPI => num == FpOps && denom == TotIns
    case LSTPI => (num == LstIns || num == L1Dca) && denom == TotIns
    case DCMRT => num == L1Dcm && denom == L1Dca
    case LSTPDCM => (num == LstIns || num == L1Dca) && denom == L1Dcm
    case L2MRT => num == L2Tcm && denom == L2Tca
    case LSTPL2M => (num == LstIns || num == L1Dca) && denom == L2Tcm
    case L3MRT => num == L3Tcm && denom == L3Tcr
  }

  /** The static tables, changed in place. */
  class Tables {
    const papiEventList: array<Counter>
    const prEvent: array<Printed>
    var npapiEvents: nat
    var nEvents: nat
    var flags: Flags

    constructor ()
      ensures Valid() && fresh(papiEventList) && fresh(prEvent)
      ensures State() == Registry([], [], Flags(false, false, true, true)) && Integrity(State())
    {
      papiEventList := new Counter[MAX_AUX](_ => Native(0));
      prEvent := new Printed[MAX_AUX](_ => Printed(Raw(Native(0)), "", 0, 0));
      npapiEvents, nEvents := 0, 0;
      flags := Flags(false, false, true, true);
    }

    ghost predicate Valid()
      reads this
    {
      papiEventList.Length == MAX_AUX && prEvent.Length == MAX_AUX && npapiEvents <= MAX_AUX && nEvents <= MAX_AUX
    }

    ghost function State(): Registry
      requires Valid()
      reads this, papiEventList, prEvent
    {
      Registry(papiEventList[..npapiEvents], prEvent[..nEvents], flags)
    }

    method IsEnabled(e: Event) returns (r: bool)
      requires Valid()
      ensures r == AlreadyEnabled(State(), e)
    {
      for n := 0 to nEvents
        invariant forall k :: 0 <= k < n ==> prEvent[k].event != e
      {
        if prEvent[n].event == e {
          assert State().printed[n].event == e;
          return true;
        }
      }
      r := false;
    }

    /** The index of a counter in the raw list, or -1. */
    method PapiEventIsEnabled(c: Counter) returns (i: int)
      requires Valid() && NoDuplicates(papiEventList[..npapiEvents])
      ensures i == IndexOf(papiEventList[..npapiEvents], c)
    {
      for n := 0 to npapiEvents
        invariant c !in papiEventList[..n]
      {
        if papiEventList[n] == c {
          IndexUnique(papiEventList[..npapiEvents], c, n);
          return n;
        }
        assert papiEventList[..n + 1] == papiEventList[..n] + [papiEventList[n]];
      }
      i := -1;
    }

    /** Enables a raw counter, which has a free slot unless it is there already; returns its
        index. */
    method Enable(c: Counter) returns (i: int)
      requires Valid() && NoDuplicates(State().raw)
      requires c in State().raw || npapiEvents < MAX_AUX
      modifies this`npapiEvents, papiEventList
      ensures Valid() && NoDuplicates(State().raw)
      ensures State() == old(State()).(raw := Enabled(old(State()).raw, c))
      ensures i == IndexOf(State().raw, c)
    {
      ghost var was := papiEventList[..npapiEvents];
      EnabledKeeps(was, c);
      i := PapiEventIsEnabled(c);
      if i >= 0 { return; }
      papiEventList[npapiEvents] := c;
      npapiEvents := npapiEvents + 1;
      assert papiEventList[..npapiEvents] == was + [c];
      i := npapiEvents - 1;
      IndexUnique(papiEventList[..npapiEvents], c, i);
    }

    method CanEnable(c: Counter, lib: Library) returns (r: bool)
      requires Valid()
      ensures r == (npapiEvents + 1 <= MAX_AUX && lib.available(c))
    {
      if npapiEvents + 1 > MAX_AUX { return false; }
      r := lib.available(c);
    }

    method CanEnablePair(c: Counter, d: Counter, lib: Library) returns (r: bool)
      requires Valid()
      ensures r == CanEnable2(State(), lib, (c, d))
    {
      if npapiEvents + 2 > MAX_AUX { return false; }
      if !lib.available(c) { return false; }
      r := lib.available(d);
    }

    method Print(p: Printed)
      requires Valid() && nEvents < MAX_AUX
      modifies this`nEvents, prEvent
      ensures Valid() && State() == old(State()).(printed := old(State()).printed + [p])
    {
      prEvent[nEvents] := p;
      nEvents := nEvents + 1;
      assert prEvent[..nEvents] == old(prEvent[..nEvents]) + [p];
    }

    method SetPair(r: Ratio, d: (Counter, Counter))
      requires Valid() && NoDuplicates(State().raw) && nEvents < MAX_AUX && npapiEvents + 2 <= MAX_AUX
      modifies this, papiEventList, prEvent
      ensures Valid() && State() == AddPair(old(State()), r, d)
    {
      ghost var was := State().raw;
      ghost var one := Enabled(was, d.0);
      EnabledKeeps(was, d.0);
      EnabledKeeps(one, d.1);
      IndexGrows(one, Enabled(one, d.1), d.0);
      var num := Enable(d.0);
      assert npapiEvents == |State().raw|;
      var denom := Enable(d.1);
      Print(Printed(Derived(r), RatioName(r), num, denom));
    }

    method SetDerived(r: Ratio, lib: Library) returns (ok: bool)
      requires Valid() && Integrity(State()) && nEvents < MAX_AUX
      modifies this, papiEventList, prEvent
      ensures Valid() && (State(), ok) == AddDerived(old(State()), r, Definitions(r), lib)
    {
      var ds := Definitions(r);
      var k := 0;
      while k < |ds|
        invariant 0 <= k <= |ds| && Valid() && nEvents == old(nEvents) && State() == old(State())
        invariant AddDerived(old(State()), r, ds, lib) == AddDerived(old(State()), r, ds[k..], lib)
      {
        var can := CanEnablePair(ds[k].0, ds[k].1, lib);
        if can {
          SetPair(r, ds[k]);
          return true;
        }
        assert ds[k..][1..] == ds[k + 1..];
        k := k + 1;
      }
      ok := false;
    }

    method SetRaw(c: Counter, lib: Library) returns (ok: bool)
      requires Valid() && Integrity(State()) && nEvents < MAX_AUX
      modifies this, papiEventList, prEvent
      ensures Valid() && (State(), ok) == AddRaw(old(State()), c, lib)
    {
      if c.Native? && lib.nameOf(c).Nameless? { return false; }
      var numidx := PapiEventIsEnabled(c);
      if numidx < 0 {
        var can := CanEnable(c, lib);
        if !can { return false; }
        numidx := Enable(c);
      }
      Print(Printed(Raw(c), Shown(Raw(c), CounterName(c, lib.nameOf)), numidx, -1));
      ok := true;
    }

    /** One option call. */
    method Set(q: Request, val: bool, lib: Library) returns (ok: bool)
      requires Valid() && Integrity(State())
      modifies this, papiEventList, prEvent
      ensures Valid() && (State(), ok) == SetOption(old(State()), q, val, lib)
      ensures Integrity(State()) && (!ok ==> State() == old(State()))
    {
      SetOptionKeeps(State(), q, val, lib);
      if q.Flag? {
        flags := WithFlag(flags, q.option, val);
        return true;
      }
      var enabled := IsEnabled(q.event);
      if !val { return !enabled; }
      if enabled || !lib.ready || nEvents + 1 > MAX_AUX { return false; }
      match q.event
      case Derived(r) => ok := SetDerived(r, lib);
      case Raw(c) => ok := SetRaw(c, lib);
    }
  }

  lemma IndexUnique(raw: seq<Counter>, c: Counter, i: nat)
    requires NoDuplicates(raw) && i < |raw| && raw[i] == c
    ensures IndexOf(raw, c) == i
  {
  }

  lemma IndexGrows(raw: seq<Counter>, longer: seq<Counter>, c: Counter)
    requires c in raw && raw <= longer && NoDuplicates(longer)
    ensures IndexOf(longer, c) == IndexOf(raw, c)
  {
    IndexUnique(longer, c, IndexOf(raw, c));
  }
}
