/** Trace logs and the instruction stream that reads them. */
module Trace {

  /** What a log line says. A Fields line carries the time stamp and the text of the call. */
  datatype Line = Blank | Rule | Fields(stamp: real, text: string) | Malformed

  /** What a text is as a number. */
  datatype Numeral = NotANumber | Number(value: real)

  /** White space as Python strips it. */
  predicate IsSpace(c: char) {
    c in " \t\n\r\U{0B}\U{0C}\U{1C}\U{1D}\U{1E}\U{1F}\U{85}\U{A0}\U{1680}\U{2028}\U{2029}\U{202F}\U{205F}\U{3000}"
    || '\U{2000}' <= c <= '\U{200A}'
  }

  predicate IsBlank(s: string) {
    forall c :: c in s ==> IsSpace(c)
  }

  /** The line without its line end. */
  function Body(s: string): string {
    if s != "" && s[|s| - 1] == '\n' then s[..|s| - 1] else s
  }

  predicate IsRule(s: string) {
    Body(s) != "" && forall c :: c in Body(s) ==> c == '='
  }

  /** A line split at its colons. */
  function Tokens(s: string): (ts: seq<string>)
    ensures ts != []
  {
    if s == "" then [""]
    else
      var ts := Tokens(s[1..]);
      if s[0] == ':' then [""] + ts else [[s[0]] + ts[0]] + ts[1..]
  }

  /** What a line says, where `read` gives the value of a time stamp. */
  function Meaning(read: string -> Numeral, s: string): Line {
    if IsBlank(s) then Blank
    else if IsRule(s) then Rule
    else
      var ts := Tokens(s);
      if |ts| != 3 then Malformed
      else match read(ts[1])
        case NotANumber => Malformed
        case Number(t) => Fields(t, ts[2])
  }

  function Meanings(read: string -> Numeral, lines: seq<string>): (r: seq<Line>)
    ensures |r| == |lines|
  {
    seq(|lines|, k requires 0 <= k < |lines| => Meaning(read, lines[k]))
  }

  /** The line is three fields with a colon between each two. */
  predicate ThreeFields(s: string, a: string, b: string, c: string) {
    ':' !in a && ':' !in b && ':' !in c && s == a + ":" + b + ":" + c
  }

  lemma {:induction false} TokensOf(a: string)
    requires ':' !in a
    ensures Tokens(a) == [a]
  {
    if a != "" {
      TokensOf(a[1..]);
      assert a == [a[0]] + a[1..];
    }
  }

  lemma {:induction false} TokensAfter(a: string, rest: string)
    requires ':' !in a
    ensures Tokens(a + (":" + rest)) == [a] + Tokens(rest)
  {
    if a == "" {
      assert a + (":" + rest) == ":" + rest;
      assert (":" + rest)[1..] == rest;
    } else {
      assert (a + (":" + rest))[1..] == a[1..] + (":" + rest);
      TokensAfter(a[1..], rest);
      assert a == [a[0]] + a[1..];
    }
  }

  function Joined(ts: seq<string>): string
    requires ts != []
  {
    if |ts| == 1 then ts[0] else ts[0] + (":" + Joined(ts[1..]))
  }

  lemma {:induction false} TokensJoined(s: string)
    ensures Joined(Tokens(s)) == s && forall k :: 0 <= k < |Tokens(s)| ==> ':' !in Tokens(s)[k]
  {
    if s != "" {
      var ts := Tokens(s[1..]);
      TokensJoined(s[1..]);
      if s[0] == ':' {
        assert Tokens(s) == [""] + ts && ([""] + ts)[1..] == ts;
        assert "" + (":" + Joined(ts)) == [s[0]] + s[1..];
      } else {
        var us := [[s[0]] + ts[0]] + ts[1..];
        assert us[1..] == ts[1..];
        if |ts| > 1 {
          assert Joined(us) == ([s[0]] + ts[0]) + (":" + Joined(ts[1..]));
          assert Joined(us) == [s[0]] + Joined(ts);
        }
        assert [s[0]] + s[1..] == s;
      }
    }
  }

  lemma ThreeTokens(s: string, a: string, b: string, c: string)
    ensures Tokens(s) == [a, b, c] <==> ThreeFields(s, a, b, c)
  {
    if ThreeFields(s, a, b, c) {
      assert s == a + (":" + (b + (":" + c)));
      TokensAfter(a, b + (":" + c));
      TokensAfter(b, c);
      TokensOf(c);
    }
    if Tokens(s) == [a, b, c] {
      TokensJoined(s);
      var ts := Tokens(s);
      assert ts[0] == a && ts[1] == b && ts[2] == c;
      assert ts[1..] == [b, c] && [b, c][1..] == [c];
      assert Joined([b, c]) == b + (":" + c);
    }
  }

  lemma SignsAreNotSpace()
    ensures !IsSpace(':') && !IsSpace('=')
  {
  }

  lemma RuleSigns(s: string, k: nat)
    requires IsRule(s) && k < |s|
    ensures s[k] == '=' || (s[k] == '\n' && k == |s| - 1)
  {
    if k < |Body(s)| {
      assert Body(s)[k] in Body(s);
    }
  }

  /** A line with three fields is neither blank nor a rule. */
  lemma FieldsAreNeither(s: string, a: string, b: string, c: string)
    requires ThreeFields(s, a, b, c)
    ensures !IsBlank(s) && !IsRule(s)
  {
    SignsAreNotSpace();
    assert s[|a|] == ':' && s[|a|] in s;
    if IsRule(s) {
      RuleSigns(s, |a|);
    }
  }

  /** Exactly which lines carry a call's time stamp and text; only the second field has to be a
      number. */
  lemma FieldsExactly(read: string -> Numeral, s: string, t: real, text: string)
    ensures Meaning(read, s) == Fields(t, text) <==> exists a, b :: ThreeFields(s, a, b, text) && read(b) == Number(t)
  {
    var ts := Tokens(s);
    if Meaning(read, s) == Fields(t, text) {
      assert ts == [ts[0], ts[1], ts[2]];
      ThreeTokens(s, ts[0], ts[1], ts[2]);
    }
    if a, b :| ThreeFields(s, a, b, text) && read(b) == Number(t) {
      ThreeTokens(s, a, b, text);
      FieldsAreNeither(s, a, b, text);
    }
  }

  /** White space among the ASCII characters. */
  predicate IsAsciiSpace(c: char) {
    c == ' ' || '\t' <= c <= '\r' || '\U{1C}' <= c <= '\U{1F}'
  }

  predicate IsAscii(s: string) {
    forall c :: c in s ==> c <= '\U{7F}'
  }

  lemma OnlyBlanks(read: string -> Numeral, s: string)
    requires forall c :: c in s ==> IsAsciiSpace(c)
    ensures Meaning(read, s) == Blank
  {
  }

  lemma VisibleIsNotSpace(c: char)
    requires '!' <= c <= '~'
    ensures !IsSpace(c)
  {
  }

  /** Exactly which lines of ASCII characters are blank: those of spaces, tabs, line ends and the
      other control characters that count as white space. */
  lemma BlankExactly(read: string -> Numeral, s: string)
    requires IsAscii(s)
    ensures Meaning(read, s) == Blank
            <==> forall c :: c in s ==> c == ' ' || '\t' <= c <= '\r' || '\U{1C}' <= c <= '\U{1F}'
  {
    assert forall c :: c in s ==> (IsSpace(c) <==> c == ' ' || '\t' <= c <= '\r' || '\U{1C}' <= c <= '\U{1F}');
  }

  /** A line with a visible character is not blank. */
  lemma VisibleIsNotBlank(read: string -> Numeral, s: string, c: char)
    requires c in s && '!' <= c <= '~'
    ensures Meaning(read, s) != Blank
  {
    VisibleIsNotSpace(c);
  }

  function Equals(n: nat): (r: string)
    ensures |r| == n && forall k :: 0 <= k < n ==> r[k] == '='
  {
    if n == 0 then "" else "=" + Equals(n - 1)
  }

  /** Exactly which lines end a log: equals signs, perhaps with a line end. */
  lemma RuleExactly(read: string -> Numeral, s: string)
    ensures Meaning(read, s) == Rule <==> exists n: nat :: n > 0 && (s == Equals(n) || s == Equals(n) + "\n")
  {
    SignsAreNotSpace();
    if IsRule(s) {
      var n := |Body(s)|;
      forall k | 0 <= k < n ensures Body(s)[k] == '=' {
        assert Body(s)[k] in Body(s);
      }
      assert Body(s) == Equals(n);
      assert s == Body(s) || s == Body(s) + "\n";
      assert s[0] == '=' && s[0] in s;
    }
    if n: nat :| n > 0 && (s == Equals(n) || s == Equals(n) + "\n") {
      assert Body(s) == Equals(n);
      assert s[0] == '=' && s[0] in s;
    }
  }

  /** One traced call: when it was entered and left, and the source text it becomes. */
  datatype Entry = Entry(enter: real, exit: real, text: string)

  /** What one read of the log yields. */
  datatype Next = End(after: seq<Line>) | Corrupt | Got(entry: Entry, rest: seq<Line>)

  function Commented(text: string): string {
    "/*" + text + "*/"
  }

  /** The next call in the unread part of a log: blank lines are skipped, a rule or the end of
      the file ends the trace, and an entry line must be followed by its exit line. */
  function NextEntry(lines: seq<Line>): (n: Next)
    ensures n.Got? ==> |n.rest| < |lines|
  {
    if lines == [] then End([])
    else if lines[0].Blank? then NextEntry(lines[1..])
    else if lines[0].Rule? then End(lines[1..])
    else if lines[0].Fields? && |lines| > 1 && lines[1].Fields? then
      Got(Entry(lines[0].stamp, lines[1].stamp, Commented(lines[0].text)), lines[2..])
    else Corrupt
  }

  /** The whole content of a log: its calls, and whether it can be read to its end. */
  datatype Log = Log(entries: seq<Entry>, ok: bool)

  function Parse(lines: seq<Line>): Log
    decreases |lines|
  {
    match NextEntry(lines)
    case End(_) => Log([], true)
    case Corrupt => Log([], false)
    case Got(e, rest) => var l := Parse(rest); Log([e] + l.entries, l.ok)
  }

  /** A call as it is written to a log: blank lines, an entry line and an exit line. What the exit
      line says besides its time does not matter. */
  datatype Written = Written(blanks: nat, enter: real, exit: real, text: string, exitText: string)

  function Lines(ws: seq<Written>, rest: seq<Line>): seq<Line> {
    if ws == [] then rest
    else
      var w := ws[0];
      AfterBlanks(w.blanks, [Fields(w.enter, w.text), Fields(w.exit, w.exitText)] + Lines(ws[1..], rest))
  }

  function AfterBlanks(n: nat, lines: seq<Line>): seq<Line> {
    if n == 0 then lines else [Blank] + AfterBlanks(n - 1, lines)
  }

  /** Where a log ends: at a rule, whatever follows it, or at the end of the file. */
  predicate Ending(rest: seq<Line>) {
    rest == [] || rest[0].Rule?
  }

  lemma {:induction false} SkipsBlanks(n: nat, lines: seq<Line>)
    ensures NextEntry(AfterBlanks(n, lines)) == NextEntry(lines)
  {
    if n > 0 {
      assert AfterBlanks(n, lines)[1..] == AfterBlanks(n - 1, lines);
      SkipsBlanks(n - 1, lines);
    }
  }

  lemma ReadsPair(enter: Line, exit: Line, lines: seq<Line>)
    requires enter.Fields? && exit.Fields?
    ensures NextEntry([enter, exit] + lines) == Got(Entry(enter.stamp, exit.stamp, Commented(enter.text)), lines)
  {
    assert ([enter, exit] + lines)[2..] == lines;
  }

  /** Reading a written log gives back its calls; blank lines do not matter before an entry and
      at the end. */
  lemma {:induction false} ReadsWritten(ws: seq<Written>, n: nat, rest: seq<Line>)
    requires Ending(rest)
    ensures
      var log := Parse(Lines(ws, AfterBlanks(n, rest)));
      && log.ok && |log.entries| == |ws|
      && forall k :: 0 <= k < |ws| ==> log.entries[k] == Entry(ws[k].enter, ws[k].exit, "/*" + ws[k].text + "*/")
    decreases |ws|
  {
    if ws == [] {
      SkipsBlanks(n, rest);
    } else {
      var w, after := ws[0], Lines(ws[1..], AfterBlanks(n, rest));
      var enter, exit := Fields(w.enter, w.text), Fields(w.exit, w.exitText);
      SkipsBlanks(w.blanks, [enter, exit] + after);
      ReadsPair(enter, exit, after);
      ReadsWritten(ws[1..], n, rest);
      var log := Parse(Lines(ws, AfterBlanks(n, rest)));
      assert log.entries == [Entry(w.enter, w.exit, Commented(w.text))] + Parse(after).entries;
    }
  }

  /** How many blank lines a log starts with, and what comes after them. */
  lemma {:induction false} SplitBlanks(lines: seq<Line>) returns (n: nat, rest: seq<Line>)
    ensures lines == AfterBlanks(n, rest) && (rest == [] || !rest[0].Blank?) && |rest| <= |lines|
  {
    if lines == [] || !lines[0].Blank? {
      n, rest := 0, lines;
    } else {
      n, rest := SplitBlanks(lines[1..]);
      n := n + 1;
    }
  }

  lemma {:induction false} WrittenOf(lines: seq<Line>) returns (ws: seq<Written>, n: nat, rest: seq<Line>)
    requires Parse(lines).ok
    ensures lines == Lines(ws, AfterBlanks(n, rest)) && Ending(rest)
    decreases |lines|
  {
    var tail;
    n, tail := SplitBlanks(lines);
    SkipsBlanks(n, tail);
    if Ending(tail) {
      ws, rest := [], tail;
    } else {
      var w := Written(n, tail[0].stamp, tail[1].stamp, tail[0].text, tail[1].text);
      var more;
      more, n, rest := WrittenOf(tail[2..]);
      ws := [w] + more;
      assert tail == [tail[0], tail[1]] + tail[2..];
    }
  }

  ghost predicate WellWritten(lines: seq<Line>) {
    exists ws, n, rest :: Ending(rest) && lines == Lines(ws, AfterBlanks(n, rest))
  }

  /** A log can be read to its end if and only if it consists of entry lines each followed by its
      exit line, with blank lines before entries and at the end only, up to a rule or the end of
      the file. */
  lemma ReadableExactly(lines: seq<Line>)
    ensures Parse(lines).ok <==> WellWritten(lines)
  {
    if Parse(lines).ok {
      var ws, n, rest := WrittenOf(lines);
    }
    if WellWritten(lines) {
      var ws, n, rest :| Ending(rest) && lines == Lines(ws, AfterBlanks(n, rest));
      ReadsWritten(ws, n, rest);
    }
  }

  // ---- Logs as lines of text ----

  /** A call as two lines of text, with the lines that precede it. */
  datatype TextCall = TextCall(before: seq<string>, enter: string, exit: string, call: Entry)

  function TextLines(ws: seq<TextCall>, rest: seq<string>): seq<string> {
    if ws == [] then rest else ws[0].before + ([ws[0].enter, ws[0].exit] + TextLines(ws[1..], rest))
  }

  /** Every line consists of such white space. */
  predicate AllEmpty(lines: seq<string>) {
    forall k, c :: 0 <= k < |lines| && c in lines[k] ==> IsAsciiSpace(c)
  }

  lemma MeaningsRest(read: string -> Numeral, lines: seq<string>)
    requires lines != []
    ensures Meanings(read, lines)[1..] == Meanings(read, lines[1..])
    ensures Meanings(read, lines)[0] == Meaning(read, lines[0])
  {
  }

  lemma MeaningsConcat(read: string -> Numeral, a: seq<string>, b: seq<string>)
    ensures Meanings(read, a + b) == Meanings(read, a) + Meanings(read, b)
  {
  }

  /** Empty lines before anything else do not matter. */
  lemma {:induction false} EmptySkipped(read: string -> Numeral, empty: seq<string>, lines: seq<string>)
    requires AllEmpty(empty)
    ensures NextEntry(Meanings(read, empty + lines)) == NextEntry(Meanings(read, lines))
    ensures Parse(Meanings(read, empty + lines)) == Parse(Meanings(read, lines))
  {
    if empty == [] {
      assert empty + lines == lines;
    } else {
      OnlyBlanks(read, empty[0]);
      assert (empty + lines)[0] == empty[0] && (empty + lines)[1..] == empty[1..] + lines;
      assert Meanings(read, empty + lines)[1..] == Meanings(read, empty[1..] + lines);
      EmptySkipped(read, empty[1..], lines);
    }
  }

  /** The two lines of a call: three fields each, of which the entry line gives time and text and the
      exit line the time. */
  ghost predicate IsCall(read: string -> Numeral, enter: string, exit: string, call: Entry) {
    exists a, t, text, b, u, c ::
      && ThreeFields(enter, a, t, text) && read(t) == Number(call.enter) && call.text == "/*" + text + "*/"
      && ThreeFields(exit, b, u, c) && read(u) == Number(call.exit)
  }

  lemma MeaningOf(read: string -> Numeral, s: string, a: string, b: string, c: string, t: real)
    requires ThreeFields(s, a, b, c) && read(b) == Number(t)
    ensures Meaning(read, s) == Fields(t, c)
  {
    ThreeTokens(s, a, b, c);
    FieldsAreNeither(s, a, b, c);
  }

  lemma CallRead(read: string -> Numeral, enter: string, exit: string, call: Entry, lines: seq<string>)
    requires IsCall(read, enter, exit, call)
    ensures NextEntry(Meanings(read, [enter, exit] + lines)) == Got(call, Meanings(read, lines))
  {
    var a, t, text, b, u, c :|
      && ThreeFields(enter, a, t, text) && read(t) == Number(call.enter) && call.text == "/*" + text + "*/"
      && ThreeFields(exit, b, u, c) && read(u) == Number(call.exit);
    MeaningOf(read, enter, a, t, text, call.enter);
    MeaningOf(read, exit, b, u, c, call.exit);
    MeaningsConcat(read, [enter, exit], lines);
    ReadsPair(Meaning(read, enter), Meaning(read, exit), Meanings(read, lines));
    assert Meanings(read, [enter, exit]) == [Meaning(read, enter), Meaning(read, exit)];
  }

  /** A log ends at a line of equals signs, or at the end of the file. */
  ghost predicate EndsHere(rest: seq<string>) {
    rest == [] || exists n: nat :: n > 0 && (rest[0] == Equals(n) || rest[0] == Equals(n) + "\n")
  }

  lemma RuleRead(read: string -> Numeral, s: string, n: nat)
    requires n > 0 && (s == Equals(n) || s == Equals(n) + "\n")
    ensures Meaning(read, s) == Rule
  {
    RuleExactly(read, s);
  }

  lemma EndRead(read: string -> Numeral, rest: seq<string>)
    requires EndsHere(rest)
    ensures Parse(Meanings(read, rest)) == Log([], true)
  {
    if rest != [] {
      var n: nat :| n > 0 && (rest[0] == Equals(n) || rest[0] == Equals(n) + "\n");
      RuleRead(read, rest[0], n);
    }
  }

  /** These are the calls that the lines stand for, and only empty lines come before them. */
  ghost predicate AllCalls(read: string -> Numeral, ws: seq<TextCall>) {
    forall k :: 0 <= k < |ws| ==> AllEmpty(ws[k].before) && IsCall(read, ws[k].enter, ws[k].exit, ws[k].call)
  }

  /** Reading a log of text lines gives back its calls, wherever there are empty lines before a call
      or before the end. */
  lemma {:induction false} ReadsText(read: string -> Numeral, ws: seq<TextCall>, empty: seq<string>, rest: seq<string>)
    requires AllCalls(read, ws) && AllEmpty(empty) && EndsHere(rest)
    ensures
      var log := Parse(Meanings(read, TextLines(ws, empty + rest)));
      log.ok && |log.entries| == |ws| && forall k :: 0 <= k < |ws| ==> log.entries[k] == ws[k].call
    decreases |ws|
  {
    if ws == [] {
      EmptySkipped(read, empty, rest);
      EndRead(read, rest);
    } else {
      var w, after := ws[0], TextLines(ws[1..], empty + rest);
      EmptySkipped(read, w.before, [w.enter, w.exit] + after);
      CallRead(read, w.enter, w.exit, w.call, after);
      ReadsText(read, ws[1..], empty, rest);
    }
  }

  predicate AllAscii(lines: seq<string>) {
    forall k :: 0 <= k < |lines| ==> IsAscii(lines[k])
  }

  lemma {:induction false} SplitEmpty(read: string -> Numeral, lines: seq<string>)
    returns (empty: seq<string>, tail: seq<string>)
    requires AllAscii(lines)
    ensures lines == empty + tail && AllEmpty(empty) && (tail == [] || Meaning(read, tail[0]) != Blank)
    ensures AllAscii(tail)
  {
    if lines == [] || Meaning(read, lines[0]) != Blank {
      empty, tail := [], lines;
    } else {
      empty, tail := SplitEmpty(read, lines[1..]);
      BlankExactly(read, lines[0]);
      empty := [lines[0]] + empty;
    }
  }

  lemma CallOf(read: string -> Numeral, lines: seq<string>) returns (call: Entry)
    requires lines != [] && (Meaning(read, lines[0]).Fields? || Meaning(read, lines[0]).Malformed?)
    requires Parse(Meanings(read, lines)).ok && AllAscii(lines)
    ensures |lines| >= 2 && IsCall(read, lines[0], lines[1], call)
    ensures Parse(Meanings(read, lines[2..])).ok && AllAscii(lines[2..])
  {
    var first, second := Meaning(read, lines[0]), Meaning(read, lines[1]);
    assert Meanings(read, lines)[2..] == Meanings(read, lines[2..]);
    FieldsExactly(read, lines[0], first.stamp, first.text);
    FieldsExactly(read, lines[1], second.stamp, second.text);
    call := Entry(first.stamp, second.stamp, "/*" + first.text + "*/");
  }

  /** The lines are these calls, then empty lines, and then the end of the log. */
  ghost predicate Spells(read: string -> Numeral, lines: seq<string>, ws: seq<TextCall>, empty: seq<string>,
                         rest: seq<string>)
  {
    AllCalls(read, ws) && AllEmpty(empty) && EndsHere(rest) && lines == TextLines(ws, empty + rest)
  }

  lemma SpellsMore(read: string -> Numeral, before: seq<string>, lines: seq<string>, call: Entry,
                   ws: seq<TextCall>, empty: seq<string>, rest: seq<string>)
    requires AllEmpty(before) && |lines| >= 2 && IsCall(read, lines[0], lines[1], call)
    requires Spells(read, lines[2..], ws, empty, rest)
    ensures Spells(read, before + lines, [TextCall(before, lines[0], lines[1], call)] + ws, empty, rest)
  {
    assert lines == [lines[0], lines[1]] + lines[2..];
  }

  lemma EndOf(read: string -> Numeral, lines: seq<string>)
    requires lines == [] || Meaning(read, lines[0]).Rule?
    ensures EndsHere(lines)
  {
    if lines != [] {
      RuleExactly(read, lines[0]);
    }
  }

  lemma {:induction false} TextOf(read: string -> Numeral, lines: seq<string>)
    returns (ws: seq<TextCall>, empty: seq<string>, rest: seq<string>)
    requires Parse(Meanings(read, lines)).ok && AllAscii(lines)
    ensures Spells(read, lines, ws, empty, rest)
    decreases |lines|
  {
    var before, tail := SplitEmpty(read, lines);
    EmptySkipped(read, before, tail);
    if tail == [] || Meaning(read, tail[0]).Rule? {
      EndOf(read, tail);
      ws, empty, rest := [], before, tail;
    } else {
      var call := CallOf(read, tail);
      var more;
      more, empty, rest := TextOf(read, tail[2..]);
      SpellsMore(read, before, tail, call, more, empty, rest);
      ws := [TextCall(before, tail[0], tail[1], call)] + more;
    }
  }

  ghost predicate WellWrittenText(read: string -> Numeral, lines: seq<string>) {
    exists ws, empty, rest :: Spells(read, lines, ws, empty, rest)
  }

  /** Exactly which logs of ASCII characters can be read to their end. */
  lemma ReadableText(read: string -> Numeral, lines: seq<string>)
    requires AllAscii(lines)
    ensures Parse(Meanings(read, lines)).ok <==> WellWrittenText(read, lines)
  {
    if Parse(Meanings(read, lines)).ok {
      var ws, empty, rest := TextOf(read, lines);
    }
    if WellWrittenText(read, lines) {
      var ws, empty, rest :| Spells(read, lines, ws, empty, rest);
      ReadsText(read, ws, empty, rest);
    }
  }

  function Texts(es: seq<Entry>): (ts: seq<string>)
    ensures |ts| == |es|
    ensures forall k :: 0 <= k < |es| ==> ts[k] == es[k].text
  {
    seq(|es|, k requires 0 <= k < |es| => es[k].text)
  }

  datatype Fetched = FetchedCall | FetchedEnd | FetchedCorrupt

  /** The stream over one open log file. A call fetched and decoded stays cached until the
      engine has executed it. */
  class InstructionStream {
    const read: string -> Numeral
    var lines: seq<string>
    var instCached: bool
    var enter: real
    var exit: real
    var instr: string

    constructor (read: string -> Numeral, lines: seq<string>)
      ensures this.read == read && this.lines == lines && !instCached && instr == ""
    {
      this.read, this.lines := read, lines;
      instCached := false;
      enter, exit, instr := 0.0, 0.0, "";
    }

    /** What the lines that have not been read say. */
    ghost function Unread(): seq<Line>
      reads this
    {
      Meanings(read, lines)
    }

    /** Reads the next call unless one is cached. */
    method Fetch() returns (f: Fetched)
      modifies this
      ensures instCached == old(instCached)
      ensures old(instCached) ==>
                f == FetchedCall && lines == old(lines)
                && enter == old(enter) && exit == old(exit) && instr == old(instr)
      ensures !old(instCached) ==>
                match NextEntry(old(Unread()))
                case End(after) => f == FetchedEnd && Unread() == after && instr == old(instr)
                case Corrupt => f == FetchedCorrupt
                case Got(e, rest) => f == FetchedCall && Unread() == rest && e == Entry(enter, exit, Commented(instr))
    {
      if instCached { return FetchedCall; }
      while lines != [] && IsBlank(lines[0])
        invariant NextEntry(Unread()) == NextEntry(old(Unread()))
        invariant instCached == old(instCached) && enter == old(enter) && exit == old(exit) && instr == old(instr)
        decreases |lines|
      {
        MeaningsRest(read, lines);
        lines := lines[1..];
      }
      if lines == [] { return FetchedEnd; }
      MeaningsRest(read, lines);
      var line := lines[0];
      lines := lines[1..];
      if IsRule(line) { return FetchedEnd; }
      var ok;
      ok, enter, instr := ReadFields(line);
      if !ok { return FetchedCorrupt; }
      if lines == [] { return FetchedCorrupt; }
      MeaningsRest(read, lines);
      var exitLine := lines[0];
      lines := lines[1..];
      var text;
      ok, exit, text := ReadFields(exitLine);
      return if ok then FetchedCall else FetchedCorrupt;
    }

    /** Splits a line and takes its time stamp and its text, if it has three fields. */
    method ReadFields(line: string) returns (ok: bool, stamp: real, text: string)
      ensures ok <==> Meaning(read, line).Fields?
      ensures ok ==> Meaning(read, line) == Fields(stamp, text)
    {
      var toks := Tokens(line);
      ok, stamp, text := false, 0.0, "";
      if |toks| != 3 { return; }
      assert toks == [toks[0], toks[1], toks[2]];
      ThreeTokens(line, toks[0], toks[1], toks[2]);
      FieldsAreNeither(line, toks[0], toks[1], toks[2]);
      match read(toks[1]) {
        case NotANumber =>
        case Number(t) => ok, stamp, text := true, t, toks[2];
      }
    }

    /** Turns the fetched call into source text, once, and caches it. */
    method Decode() returns (e: Entry)
      modifies this
      ensures instCached && lines == old(lines) && enter == old(enter) && exit == old(exit)
      ensures instr == if old(instCached) then old(instr) else Commented(old(instr))
      ensures e == Entry(enter, exit, instr)
    {
      if !instCached {
        instr := "/*" + instr + "*/";
        instCached := true;
      }
      e := Entry(enter, exit, instr);
    }

    method Reset()
      modifies this`instCached
      ensures !instCached
    {
      instCached := false;
    }
  }
}
