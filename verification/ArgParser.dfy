/** Command-line options without regular expressions. */
module CommandLine {

  const NOVAL_OPT_STR: string := "noval"

  /** The position of the first '=' from k on, or the end. */
  function EqFrom(s: string, k: nat): (e: nat)
    requires k <= |s|
    ensures k <= e <= |s| && (forall i :: k <= i < e ==> s[i] != '=') && (e < |s| ==> s[e] == '=')
    decreases |s| - k
  {
    if k == |s| || s[k] == '=' then k else EqFrom(s, k + 1)
  }

  /** The tokens of an argument: an option and a value, an option alone, or none. */
  function Tokens(s: string): seq<string> {
    if |s| < 3 || s[0] != '-' || s[1] != '-' then []
    else
      var e := EqFrom(s, 2);
      if e == |s| then [s[2..]]
      else if e == 2 then []
      else if e + 1 == |s| then [s[2..e]]
      else [s[2..e], s[e + 1..]]
  }

  predicate OptionName(o: string) {
    o != "" && '=' !in o
  }

  /** The argument is --o=v. */
  predicate Valued(s: string, o: string, v: string) {
    OptionName(o) && v != "" && s == "--" + o + "=" + v
  }

  /** The argument is --o or --o=. */
  predicate Named(s: string, o: string) {
    OptionName(o) && (s == "--" + o || s == "--" + o + "=")
  }

  lemma NameEnds(s: string, o: string)
    requires '=' !in o && |s| >= |o| + 2 && s[2..|o| + 2] == o && (s[|o| + 2..] == "" || s[|o| + 2] == '=')
    ensures EqFrom(s, 2) == |o| + 2
  {
    assert forall i :: 0 <= i < |o| ==> s[i + 2] == o[i];
    assert forall i :: 2 <= i < |o| + 2 ==> s[i] == o[i - 2];
  }

  lemma ValuedTokens(s: string, o: string, v: string)
    ensures Tokens(s) == [o, v] <==> o != "" && '=' !in o && v != "" && s == "--" + o + "=" + v
    ensures Valued(s, o, v) <==> Tokens(s) == [o, v]
  {
    if Valued(s, o, v) {
      NameEnds(s, o);
    }
    if Tokens(s) == [o, v] {
      var e := EqFrom(s, 2);
      assert s == "--" + s[2..e] + "=" + s[e + 1..];
    }
  }

  lemma NamedTokens(s: string, o: string)
    ensures Tokens(s) == [o] <==> o != "" && '=' !in o && (s == "--" + o || s == "--" + o + "=")
    ensures Named(s, o) <==> Tokens(s) == [o]
  {
    if Named(s, o) {
      NameEnds(s, o);
    }
    if Tokens(s) == [o] {
      var e := EqFrom(s, 2);
      assert s == "--" + s[2..e] + s[e..];
    }
  }

  /** Exactly which arguments give which tokens; all others give none. */
  lemma TokensExact(s: string)
    ensures |Tokens(s)| <= 2
    ensures forall o, v :: Valued(s, o, v) <==> Tokens(s) == [o, v]
    ensures forall o :: Named(s, o) <==> Tokens(s) == [o]
    ensures Tokens(s) == [] <==> !(exists o :: Named(s, o)) && !(exists o, v :: Valued(s, o, v))
  {
    forall o, v ensures Valued(s, o, v) <==> Tokens(s) == [o, v] {
      ValuedTokens(s, o, v);
    }
    forall o ensures Named(s, o) <==> Tokens(s) == [o] {
      NamedTokens(s, o);
    }
    var ts := Tokens(s);
    if |ts| == 1 {
      assert ts == [ts[0]] && Named(s, ts[0]);
    } else if |ts| == 2 {
      assert ts == [ts[0], ts[1]] && Valued(s, ts[0], ts[1]);
    }
  }

  /** An argument that sets an option: it names one that is registered and is not the help
      option, which is always there. */
  predicate Accepted(opts: map<string, string>, s: string) {
    s != "--help" && Tokens(s) != [] && Tokens(s)[0] in opts
  }

  predicate Sets(s: string, o: string) {
    Tokens(s) != [] && Tokens(s)[0] == o
  }

  function ValueOf(s: string): string {
    if |Tokens(s)| == 2 then Tokens(s)[1] else NOVAL_OPT_STR
  }

  /** How parsing ends, with the arguments that were stored until then. */
  datatype Outcome =
    | Parsed(args: map<string, string>)
    | HelpShown(args: map<string, string>)
    | Invalid(args: map<string, string>)

  function ParseOne(opts: map<string, string>, args: map<string, string>, s: string): Outcome {
    var ts := Tokens(s);
    if |ts| == 2 then
      if ts[0] in opts then Parsed(args[ts[0] := ts[1]]) else Invalid(args)
    else if |ts| == 1 then
      if s == "--help" || s == "-h" then HelpShown(args)
      else if ts[0] in opts then Parsed(args[ts[0] := NOVAL_OPT_STR])
      else Invalid(args)
    else Invalid(args)
  }

  /** Parsing stops at the first argument that is not accepted. */
  function ParseAll(opts: map<string, string>, args: map<string, string>, argv: seq<string>): Outcome
    decreases |argv|
  {
    if argv == [] then Parsed(args)
    else
      match ParseOne(opts, args, argv[0])
      case Parsed(more) => ParseAll(opts, more, argv[1..])
      case stopped => stopped
  }

  /** Which arguments set a registered option, and what they store for it. */
  lemma AcceptedExactly(opts: map<string, string>, s: string)
    ensures Accepted(opts, s) <==>
            s != "--help"
            && exists o :: o in opts && o != "" && '=' !in o && (s == "--" + o || exists v :: s == "--" + o + "=" + v)
  {
    TokensExact(s);
    var ts := Tokens(s);
    if Accepted(opts, s) {
      var o := ts[0];
      if |ts| == 1 {
        assert ts == [o];
        NamedTokens(s, o);
        assert "--" + o + "=" == "--" + o + "=" + "";
      } else {
        assert ts == [o, ts[1]];
        ValuedTokens(s, o, ts[1]);
      }
    }
    if o :| o in opts && o != "" && '=' !in o && (s == "--" + o || exists v :: s == "--" + o + "=" + v) {
      SetsExactly(s, o);
    }
  }

  lemma SetsExactly(s: string, o: string)
    requires o != "" && '=' !in o && (s == "--" + o || exists v :: s == "--" + o + "=" + v)
    ensures Sets(s, o)
  {
    if s == "--" + o {
      NamedTokens(s, o);
    } else {
      var v :| s == "--" + o + "=" + v;
      if v == "" {
        NamedTokens(s, o);
      } else {
        ValuedTokens(s, o, v);
      }
    }
  }

  lemma StoredValue(s: string, o: string, v: string)
    requires o != "" && '=' !in o
    ensures s == "--" + o || s == "--" + o + "=" ==> Sets(s, o) && ValueOf(s) == "noval"
    ensures v != "" && s == "--" + o + "=" + v ==> Sets(s, o) && ValueOf(s) == v
  {
    NamedTokens(s, o);
    ValuedTokens(s, o, v);
  }

  lemma HelpTokens()
    ensures Tokens("--help") == ["help"]
  {
    NamedTokens("--help", "help");
  }

  lemma OneIsExact(opts: map<string, string>, args: map<string, string>, s: string)
    ensures ParseOne(opts, args, s) ==
            if Accepted(opts, s) then Parsed(args[Tokens(s)[0] := ValueOf(s)])
            else if s == "--help" then HelpShown(args)
            else Invalid(args)
  {
    HelpTokens();
    TokensExact(s);
  }

  /** The stored arguments are the last ones given, on top of those from before. */
  ghost predicate LastWins(before: map<string, string>, argv: seq<string>, args: map<string, string>) {
    && (forall o :: o in args <==> o in before || exists i :: 0 <= i < |argv| && Sets(argv[i], o))
    && (forall o, i :: 0 <= i < |argv| && Sets(argv[i], o) && (forall j :: i < j < |argv| ==> !Sets(argv[j], o))
                       ==> args[o] == ValueOf(argv[i]))
    && (forall o :: o in before && (forall i :: 0 <= i < |argv| ==> !Sets(argv[i], o)) ==> args[o] == before[o])
  }

  lemma LastWinsFront(before: map<string, string>, s: string, argv: seq<string>, args: map<string, string>)
    requires Tokens(s) != [] && LastWins(before[Tokens(s)[0] := ValueOf(s)], argv, args)
    ensures LastWins(before, [s] + argv, args)
  {
    var all := [s] + argv;
    var more := before[Tokens(s)[0] := ValueOf(s)];
    assert all[0] == s && forall i :: 1 <= i < |all| ==> all[i] == argv[i - 1];
    forall o
      ensures (exists i :: 0 <= i < |all| && Sets(all[i], o))
              <==> Sets(s, o) || exists i :: 0 <= i < |argv| && Sets(argv[i], o)
    {
      if i :| 0 <= i < |argv| && Sets(argv[i], o) {
        assert Sets(all[i + 1], o);
      }
    }
    forall o, i | 0 <= i < |all| && Sets(all[i], o) && (forall j :: i < j < |all| ==> !Sets(all[j], o))
      ensures args[o] == ValueOf(all[i])
    {
      forall j | 0 <= j < |argv| && j > i - 1 ensures !Sets(argv[j], o) {
        assert argv[j] == all[j + 1];
      }
      if i > 0 {
        assert Sets(argv[i - 1], o);
      } else {
        assert o in more && more[o] == ValueOf(s);
      }
    }
    forall o | o in before && (forall i :: 0 <= i < |all| ==> !Sets(all[i], o)) ensures args[o] == before[o] {
      forall i | 0 <= i < |argv| ensures !Sets(argv[i], o) {
        assert argv[i] == all[i + 1];
      }
      assert !Sets(all[0], o);
      assert more[o] == before[o];
    }
  }

  /** The first n arguments are all accepted, and the next one, if any, is not. */
  ghost predicate StopsAt(opts: map<string, string>, argv: seq<string>, n: nat) {
    n <= |argv| && (forall i :: 0 <= i < n ==> Accepted(opts, argv[i])) && (n < |argv| ==> !Accepted(opts, argv[n]))
  }

  lemma StopsLater(opts: map<string, string>, argv: seq<string>, n: nat)
    requires StopsAt(opts, argv, n) && n > 0
    ensures StopsAt(opts, argv[1..], n - 1)
    ensures [argv[0]] + argv[1..][..n - 1] == argv[..n]
  {
    assert forall i :: 0 <= i < |argv[1..]| ==> argv[1..][i] == argv[i + 1];
  }

  /** Parsing stores the last occurrence of every option before the first argument that is not
      accepted. It succeeds if there is no such argument, shows the help if that is what the
      argument asks for, and raises an error otherwise. */
  lemma {:induction false} ParseExact(opts: map<string, string>, args: map<string, string>, argv: seq<string>, n: nat)
    requires StopsAt(opts, argv, n)
    ensures LastWins(args, argv[..n], ParseAll(opts, args, argv).args)
    ensures ParseAll(opts, args, argv).Parsed? <==> n == |argv|
    ensures ParseAll(opts, args, argv).HelpShown? <==> n < |argv| && argv[n] == "--help"
    decreases |argv|
  {
    if argv != [] {
      OneIsExact(opts, args, argv[0]);
      if n > 0 {
        StopsLater(opts, argv, n);
        var more := args[Tokens(argv[0])[0] := ValueOf(argv[0])];
        ParseExact(opts, more, argv[1..], n - 1);
        LastWinsFront(args, argv[0], argv[1..][..n - 1], ParseAll(opts, args, argv).args);
      }
    }
  }

  /** Which options have a stored argument after parsing: those that had one before, and those that
      an argument sets before the first one that is not accepted. */
  lemma StoredOptions(opts: map<string, string>, args: map<string, string>, argv: seq<string>, n: nat, o: string)
    requires StopsAt(opts, argv, n)
    ensures o in ParseAll(opts, args, argv).args <==> o in args || exists i :: 0 <= i < n && Sets(argv[i], o)
    ensures o in ParseAll(opts, args, argv).args ==> o in args || o in opts
  {
    ParseExact(opts, args, argv, n);
    var first := argv[..n];
    assert forall i :: 0 <= i < n ==> first[i] == argv[i];
  }

  lemma {:induction false} StopExists(opts: map<string, string>, argv: seq<string>) returns (n: nat)
    ensures StopsAt(opts, argv, n)
    decreases |argv|
  {
    if argv == [] || !Accepted(opts, argv[0]) {
      n := 0;
    } else {
      n := StopExists(opts, argv[1..]);
      n := n + 1;
      assert forall i :: 1 <= i < |argv| ==> argv[i] == argv[1..][i - 1];
    }
  }

  /** An argument list is parsed without an error or the help text exactly if every argument sets a
      registered option. */
  lemma ParseSucceeds(opts: map<string, string>, args: map<string, string>, argv: seq<string>)
    ensures ParseAll(opts, args, argv).Parsed? <==> forall i :: 0 <= i < |argv| ==> Accepted(opts, argv[i])
  {
    var n := StopExists(opts, argv);
    ParseExact(opts, args, argv, n);
  }

  /** Neither "-h" nor "--help=" asks for the help text: the one is too short to have tokens, the
      other is an ordinary option that has to be registered. */
  lemma HelpOnlyLong(args: map<string, string>)
    ensures ParseAll(map[], args, ["--help"]) == HelpShown(args)
    ensures ParseAll(map[], args, ["-h"]) == Invalid(args)
    ensures ParseAll(map[], args, ["--help="]) == Invalid(args)
  {
    OneIsExact(map[], args, "--help");
    OneIsExact(map[], args, "-h");
    OneIsExact(map[], args, "--help=");
  }

  class ArgParser {
    var optsMap: map<string, string>
    var argMap: map<string, string>
    var progName: string
    const isRoot: bool
    var printedUsage: bool

    constructor (isRoot: bool)
      ensures optsMap == map[] && argMap == map[] && this.isRoot == isRoot && !printedUsage
    {
      this.isRoot := isRoot;
      optsMap, argMap, progName, printedUsage := map[], map[], "", false;
    }

    method AddOpt(opt: string, helpStr: string)
      modifies this`optsMap
      ensures optsMap == old(optsMap)[opt := helpStr]
    {
      optsMap := optsMap[opt := helpStr];
    }

    method TokenizeCmdLineArgs(str: string) returns (tokens: seq<string>)
      ensures tokens == Tokens(str)
    {
      tokens := [];
      if |str| < 3 { return; }
      if str[0] != '-' || str[1] != '-' { return; }
      ghost var eq := EqFrom(str, 2);
      var tok := "";
      var idx := 2;
      while idx < |str|
        invariant 2 <= idx <= eq && tok == str[2..idx] && tokens == []
      {
        if str[idx] == '=' {
          if |tok| == 0 { return; }
          tokens := tokens + [tok];
          tok := "";
          idx := idx + 1;
          break;
        }
        assert str[2..idx + 1] == str[2..idx] + [str[idx]];
        tok := tok + [str[idx]];
        idx := idx + 1;
      }
      ghost var from := if tokens == [] then 2 else eq + 1;
      while idx < |str|
        invariant from <= idx <= |str| && tok == str[from..idx]
      {
        assert str[from..idx + 1] == str[from..idx] + [str[idx]];
        tok := tok + [str[idx]];
        idx := idx + 1;
      }
      assert idx == |str|;
      assert str[from..|str|] == str[from..];
      if |tok| > 0 {
        tokens := tokens + [tok];
      }
    }

    /** Parses the arguments after the program's name; `ok` is false where parsing raises an
        exception. */
    method NoRegexParse(argv: seq<string>) returns (ok: bool)
      requires |argv| > 0
      modifies this`argMap, this`progName, this`printedUsage
      ensures progName == argv[0]
      ensures
        var r := ParseAll(optsMap, old(argMap), argv[1..]);
        argMap == r.args && (ok <==> !r.Invalid?) && printedUsage == (old(printedUsage) || (r.HelpShown? && isRoot))
    {
      progName := argv[0];
      ghost var all := ParseAll(optsMap, argMap, argv[1..]);
      for i := 1 to |argv|
        invariant ParseAll(optsMap, argMap, argv[i..]) == all
        invariant printedUsage == old(printedUsage) && progName == argv[0]
      {
        assert argv[i..][0] == argv[i] && argv[i..][1..] == argv[i + 1..];
        var tokens := TokenizeCmdLineArgs(argv[i]);
        if |tokens| == 2 {
          if tokens[0] !in optsMap { return false; }
          argMap := argMap[tokens[0] := tokens[1]];
        } else if |tokens| == 1 {
          if argv[i] == "--help" || argv[i] == "-h" {
            PrintUsage();
            return true;
          }
          if tokens[0] !in optsMap { return false; }
          argMap := argMap[tokens[0] := NOVAL_OPT_STR];
        } else {
          return false;
        }
      }
      assert argv[|argv|..] == [];
      ok := true;
    }

    method PrintUsage()
      modifies this`printedUsage
      ensures printedUsage == (old(printedUsage) || isRoot)
    {
      if printedUsage || !isRoot { return; }
      printedUsage := true;
    }

    method HasArg(opt: string) returns (r: bool)
      ensures r <==> opt in argMap
    {
      r := opt in argMap;
    }

    /** The value of an option that was given; `ok` is false where that raises an exception,
        which the placeholder for a missing value does. */
    method GetArg(opt: string) returns (ok: bool, value: string)
      requires opt in argMap
      ensures ok <==> argMap[opt] != "noval"
      ensures ok ==> value == argMap[opt]
    {
      value := argMap[opt];
      ok := value != NOVAL_OPT_STR;
    }
  }

  /** Which arguments set the option "help". */
  lemma SetsHelp(s: string)
    ensures Sets(s, "help") <==> s == "--help" || exists v :: s == "--help=" + v
  {
    TokensExact(s);
    var ts := Tokens(s);
    assert OptionName("help");
    assert "--" + "help" == "--help" && "--" + "help" + "=" == "--help=";
    if Sets(s, "help") {
      if |ts| == 1 {
        assert ts == ["help"];
        assert Named(s, "help");
        assert "--help=" == "--help=" + "";
      } else {
        assert ts == ["help", ts[1]];
        assert Valued(s, "help", ts[1]);
        assert s == "--help=" + ts[1];
      }
    }
    if v :| s == "--help=" + v {
      if v == "" {
        assert Named(s, "help");
      } else {
        assert Valued(s, "help", v);
      }
    }
  }

  /** A program that asks for the option "help" after parsing finds it only if the option was given
      with an equals sign; the plain help option is never stored. */
  lemma HelpStored(opts: map<string, string>, argv: seq<string>, n: nat)
    requires StopsAt(opts, argv, n)
    ensures "help" in ParseAll(opts, map[], argv).args <==> exists i, v :: 0 <= i < n && argv[i] == "--help=" + v
  {
    StoredOptions(opts, map[], argv, n, "help");
    forall i | 0 <= i < n ensures Sets(argv[i], "help") <==> exists v :: argv[i] == "--help=" + v {
      SetsHelp(argv[i]);
    }
  }

  /** How the test program starts: it parses its arguments, and stops if help was asked for. */
  method GetUserOptions(ap: ArgParser, argv: seq<string>) returns (ok: bool, stop: bool)
    requires |argv| > 0 && ap.argMap == map[]
    modifies ap`argMap, ap`progName, ap`printedUsage
    ensures ok <==> !ParseAll(ap.optsMap, map[], argv[1..]).Invalid?
    ensures stop <==> ok && "help" in ParseAll(ap.optsMap, map[], argv[1..]).args
  {
    stop := false;
    ok := ap.NoRegexParse(argv);
    if ok {
      stop := ap.HasArg("help");
    }
  }

  lemma ValueGiven(s: string, o: string)
    requires Sets(s, o)
    ensures ValueOf(s) != "noval" <==> exists v :: Valued(s, o, v) && v != "noval"
  {
    var ts := Tokens(s);
    if |ts| == 2 {
      assert ts == [o, ts[1]];
      ValuedTokens(s, o, ts[1]);
    }
    forall v | Valued(s, o, v) ensures ValueOf(s) == v {
      ValuedTokens(s, o, v);
    }
  }

  lemma LastValue(opts: map<string, string>, argv: seq<string>, o: string, i: nat)
    requires forall j :: 0 <= j < |argv| ==> Accepted(opts, argv[j])
    requires i < |argv| && Sets(argv[i], o) && forall j :: i < j < |argv| ==> !Sets(argv[j], o)
    ensures
      var args := ParseAll(opts, map[], argv).args;
      o in args && args[o] == ValueOf(argv[i])
  {
    ParseExact(opts, map[], argv, |argv|);
    assert argv[..|argv|] == argv;
  }

  /** After parsing, the value of a given option can be had exactly if its last occurrence has a
      value other than the placeholder: --o=noval cannot be told from --o. */
  lemma ValueReadable(opts: map<string, string>, argv: seq<string>, o: string, i: nat)
    requires forall j :: 0 <= j < |argv| ==> Accepted(opts, argv[j])
    requires i < |argv| && Sets(argv[i], o) && forall j :: i < j < |argv| ==> !Sets(argv[j], o)
    ensures
      var args := ParseAll(opts, map[], argv).args;
      o in args && (args[o] != "noval" <==> exists v :: Valued(argv[i], o, v) && v != "noval")
  {
    LastValue(opts, argv, o, i);
    ValueGiven(argv[i], o);
  }
}
