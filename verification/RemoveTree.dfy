/** Removing a directory with everything below it, with an explicit stack of open directories. */
module RemoveTree {

  /** A path is the list of its components. */
  type Path = seq<string>

  /** What a directory stream lists: files, symbolic links and directories. The names "." and ".."
      are listed too. */
  datatype Node = File | Link(target: Path) | Dir(entries: seq<Entry>)
  datatype Entry = Entry(name: string, node: Node)

  /** A call that removes something. */
  datatype Call = Unlink(path: Path) | Rmdir(path: Path)

  predicate IsDot(name: string) {
    name == "." || name == ".."
  }

  /** Recursive removal, contents before directories. */
  function PostOrder(p: Path, entries: seq<Entry>): seq<Call>
    decreases entries, 1
  {
    if entries == [] then [] else PostOrderOne(p, entries[0]) + PostOrder(p, entries[1..])
  }

  function PostOrderOne(p: Path, e: Entry): seq<Call>
    decreases e, 0
  {
    if IsDot(e.name) then [] else
    match e.node
    case Dir(es) => PostOrder(p + [e.name], es) + [Rmdir(p + [e.name])]
    case _ => [Unlink(p + [e.name])]
  }

  /** The directory lists an entry with this relative path, going through directories only and not
      through the names "." and "..". */
  ghost predicate Lists(entries: seq<Entry>, q: Path)
    decreases |q|, 0
  {
    q != [] && q[0] != "." && q[0] != ".."
    && exists i :: 0 <= i < |entries| && entries[i].name == q[0] && LeadsTo(entries[i].node, q[1..])
  }

  ghost predicate LeadsTo(n: Node, q: Path)
    decreases |q|, 1
  {
    q == [] || (n.Dir? && Lists(n.entries, q))
  }

  predicate CallsOn(calls: seq<Call>, x: Path) {
    exists k :: 0 <= k < |calls| && calls[k].path == x
  }

  lemma CallsOnConcat(a: seq<Call>, b: seq<Call>, x: Path)
    ensures CallsOn(a + b, x) <==> CallsOn(a, x) || CallsOn(b, x)
  {
    if k :| 0 <= k < |a| && a[k].path == x {
      assert (a + b)[k].path == x;
    }
    if k :| 0 <= k < |b| && b[k].path == x {
      assert (a + b)[|a| + k].path == x;
    }
  }

  lemma ListsRest(entries: seq<Entry>, q: Path)
    requires entries != []
    ensures Lists(entries, q) <==>
            Lists(entries[1..], q)
            || (q != [] && q[0] != "." && q[0] != ".." && entries[0].name == q[0] && LeadsTo(entries[0].node, q[1..]))
  {
    assert forall i :: 0 <= i < |entries| - 1 ==> entries[1..][i] == entries[i + 1];
    if i :| q != [] && 0 < i < |entries| && entries[i].name == q[0] && LeadsTo(entries[i].node, q[1..]) {
      assert entries[1..][i - 1] == entries[i];
    }
  }

  /** Recursive removal makes a call for exactly the entries that are listed, at every depth; the
      names "." and ".." give no call. */
  lemma {:induction false} CallsListed(p: Path, entries: seq<Entry>, q: Path)
    ensures CallsOn(PostOrder(p, entries), p + q) <==> Lists(entries, q)
    decreases entries, 1
  {
    if entries != [] {
      CallsOnConcat(PostOrderOne(p, entries[0]), PostOrder(p, entries[1..]), p + q);
      CallsListedOne(p, entries[0], q);
      CallsListed(p, entries[1..], q);
      ListsRest(entries, q);
    }
  }

  lemma {:induction false} CallsListedOne(p: Path, e: Entry, q: Path)
    ensures CallsOn(PostOrderOne(p, e), p + q)
            <==> q != [] && q[0] != "." && q[0] != ".." && e.name == q[0] && LeadsTo(e.node, q[1..])
    decreases e, 0
  {
    var x := p + [e.name];
    SplitPath(p, e.name, q);
    if !IsDot(e.name) && e.node.Dir? {
      CallsOnConcat(PostOrder(x, e.node.entries), [Rmdir(x)], p + q);
      assert [Rmdir(x)][0].path == x;
      if q != [] && e.name == q[0] {
        CallsListed(x, e.node.entries, q[1..]);
      } else {
        NoOthers(x, e.node.entries, p + q);
      }
    } else if !IsDot(e.name) {
      assert [Unlink(x)][0].path == x;
    }
  }

  lemma SplitPath(p: Path, name: string, q: Path)
    ensures p + [name] == p + q <==> q == [name]
    ensures q != [] && q[0] == name ==> p + q == p + [name] + q[1..]
    ensures q == [] || q[0] != name ==> !(p + [name] <= p + q)
  {
    if q != [] {
      assert (p + q)[|p|] == q[0];
    }
    assert (p + [name])[|p|] == name;
    if p + [name] == p + q {
      assert q == (p + q)[|p|..] == (p + [name])[|p|..] == [name];
    }
  }

  /** No call is made outside the directory. */
  lemma {:induction false} NoOthers(p: Path, entries: seq<Entry>, x: Path)
    requires !(p <= x)
    ensures !CallsOn(PostOrder(p, entries), x)
    decreases entries, 1
  {
    if entries != [] {
      var e := entries[0];
      CallsOnConcat(PostOrderOne(p, e), PostOrder(p, entries[1..]), x);
      NoOthers(p, entries[1..], x);
      if e.node.Dir? {
        NoOthers(p + [e.name], e.node.entries, x);
        CallsOnConcat(PostOrder(p + [e.name], e.node.entries), [Rmdir(p + [e.name])], x);
      }
    }
  }

  /** An open directory: its path and what its stream has not listed yet. */
  datatype DirInfo = DirInfo(dname: Path, dstream: seq<Entry>)

  /** What is left to do in one directory, and then for the directories around it. */
  function Todo(dinfo: DirInfo, dinfos: seq<DirInfo>): seq<Call>
    decreases |dinfos|, 1
  {
    PostOrder(dinfo.dname, dinfo.dstream) + ([Rmdir(dinfo.dname)] + Pending(dinfos))
  }

  function Pending(dinfos: seq<DirInfo>): seq<Call>
    decreases |dinfos|, 0
  {
    if dinfos == [] then [] else Todo(dinfos[|dinfos| - 1], dinfos[..|dinfos| - 1])
  }

  function Size(entries: seq<Entry>): nat {
    if entries == [] then 0
    else 1 + (match entries[0].node case Dir(es) => Size(es) case _ => 0) + Size(entries[1..])
  }

  function TotalSize(dinfos: seq<DirInfo>): nat {
    if dinfos == [] then 0 else Size(dinfos[|dinfos| - 1].dstream) + TotalSize(dinfos[..|dinfos| - 1])
  }

  function Listed(dinfo: DirInfo): DirInfo
    requires dinfo.dstream != []
  {
    dinfo.(dstream := dinfo.dstream[1..])
  }

  /** What listing one entry does to the work that is left. */
  lemma Step(dinfo: DirInfo, dinfos: seq<DirInfo>)
    requires dinfo.dstream != []
    ensures
      var e := dinfo.dstream[0];
      var q := dinfo.dname + [e.name];
      Todo(dinfo, dinfos) ==
      if IsDot(e.name) then Todo(Listed(dinfo), dinfos)
      else if e.node.Dir? then Todo(DirInfo(q, e.node.entries), dinfos + [Listed(dinfo)])
      else [Unlink(q)] + Todo(Listed(dinfo), dinfos)
  {
    var e := dinfo.dstream[0];
    var q := dinfo.dname + [e.name];
    var tail := [Rmdir(dinfo.dname)] + Pending(dinfos);
    var one, rest := PostOrderOne(dinfo.dname, e), PostOrder(dinfo.dname, dinfo.dstream[1..]);
    assert Todo(dinfo, dinfos) == one + (rest + tail);
    assert (dinfos + [Listed(dinfo)])[..|dinfos|] == dinfos;
    assert Pending(dinfos + [Listed(dinfo)]) == rest + tail;
  }

  lemma StepSize(dinfo: DirInfo, dinfos: seq<DirInfo>)
    requires dinfo.dstream != []
    ensures Size(Listed(dinfo).dstream) < Size(dinfo.dstream)
    ensures
      var e := dinfo.dstream[0];
      e.node.Dir? ==>
        Size(e.node.entries) + TotalSize(dinfos + [Listed(dinfo)]) < Size(dinfo.dstream) + TotalSize(dinfos)
  {
    assert (dinfos + [Listed(dinfo)])[..|dinfos|] == dinfos;
  }

  lemma AppendCall(calls: seq<Call>, c: Call, rest: seq<Call>)
    ensures calls + ([c] + rest) == calls + [c] + rest
  {
  }

  lemma LastCall(dinfo: DirInfo, dinfos: seq<DirInfo>)
    requires dinfo.dstream == []
    ensures Todo(dinfo, dinfos) == [Rmdir(dinfo.dname)] + Pending(dinfos)
  {
  }

  /** The calls that remove the directory at `dname`; none if it cannot be opened. */
  method RmdirF(dname: Path, node: Node) returns (calls: seq<Call>)
    ensures calls == if node.Dir? then PostOrder(dname, node.entries) + [Rmdir(dname)] else []
  {
    calls := [];
    var dinfos: seq<DirInfo> := [];
    if node.Dir? {
      dinfos := [DirInfo(dname, node.entries)];
      assert dinfos[..0] == [] && [Rmdir(dname)] + Pending([]) == [Rmdir(dname)];
    }
    ghost var all := Pending(dinfos);
    while dinfos != []
      invariant calls + Pending(dinfos) == all
      decreases TotalSize(dinfos) + |dinfos|
    {
      ghost var size := TotalSize(dinfos) + |dinfos|;
      var dinfo := dinfos[|dinfos| - 1];
      dinfos := dinfos[..|dinfos| - 1];
      while dinfo.dstream != []
        invariant calls + Todo(dinfo, dinfos) == all
        invariant TotalSize(dinfos) + |dinfos| + Size(dinfo.dstream) < size
        decreases Size(dinfo.dstream) + TotalSize(dinfos)
      {
        Step(dinfo, dinfos);
        StepSize(dinfo, dinfos);
        var e := dinfo.dstream[0];
        dinfo := Listed(dinfo);
        if IsDot(e.name) { continue; }
        var fdname := dinfo.dname + [e.name];
        if e.node.Dir? {
          dinfos := dinfos + [dinfo];
          dinfo := DirInfo(fdname, e.node.entries);
        } else {
          AppendCall(calls, Unlink(fdname), Todo(dinfo, dinfos));
          calls := calls + [Unlink(fdname)];
        }
      }
      LastCall(dinfo, dinfos);
      AppendCall(calls, Rmdir(dinfo.dname), Pending(dinfos));
      calls := calls + [Rmdir(dinfo.dname)];
    }
  }

  // ---- What the calls do to a file system ----

  datatype Kind = AFile | ALink(target: Path) | ADir

  type Files = map<Path, Kind>

  predicate Below(p: Path, q: Path) {
    p <= q && p != q
  }

  datatype Outcome = Succeeds(files: Files) | Fails

  /** A directory can be removed only if it is empty, and only directories can be removed that
      way. */
  ghost function Perform(files: Files, c: Call): Outcome {
    if c.path !in files then Fails
    else match c
      case Unlink(q) => if files[q].ADir? then Fails else Succeeds(files - {q})
      case Rmdir(q) => if !files[q].ADir? || exists r :: r in files && Below(q, r) then Fails else Succeeds(files - {q})
  }

  ghost function PerformAll(files: Files, calls: seq<Call>): Outcome {
    if calls == [] then Succeeds(files)
    else match Perform(files, calls[0])
      case Fails => Fails
      case Succeeds(rest) => PerformAll(rest, calls[1..])
  }

  /** If calls succeed one after another, then each of them removes an entry of its own, a
      directory goes after everything below it, and what no call names stays. */
  lemma {:induction false} EachOnce(files: Files, calls: seq<Call>)
    requires PerformAll(files, calls).Succeeds?
    ensures forall i :: 0 <= i < |calls| ==> calls[i].path in files
    ensures forall i, j :: 0 <= i < j < |calls| ==> calls[i].path != calls[j].path
    ensures forall i, j :: 0 <= i < j < |calls| && calls[i].Rmdir? ==> !Below(calls[i].path, calls[j].path)
    ensures forall q :: q in PerformAll(files, calls).files
                        <==> q in files && forall i :: 0 <= i < |calls| ==> calls[i].path != q
    decreases |calls|
  {
    if calls != [] {
      var rest := Perform(files, calls[0]).files;
      EachOnce(rest, calls[1..]);
      assert forall i :: 1 <= i < |calls| ==> calls[i] == calls[1..][i - 1];
      forall i, j | 0 <= i < j < |calls|
        ensures calls[i].path != calls[j].path && (calls[i].Rmdir? ==> !Below(calls[i].path, calls[j].path))
      {
        assert calls[j].path in rest;
        if i > 0 {
          assert calls[i] == calls[1..][i - 1] && calls[j] == calls[1..][j - 1];
        }
      }
    }
  }

  function KindOf(n: Node): Kind {
    match n
    case File => AFile
    case Link(t) => ALink(t)
    case Dir(_) => ADir
  }

  /** The files below p. */
  function Contents(p: Path, entries: seq<Entry>): Files
    decreases entries, 1
  {
    if entries == [] then map[] else Contents(p, entries[1..]) + ContentsOne(p, entries[0])
  }

  function ContentsOne(p: Path, e: Entry): Files
    decreases e, 0
  {
    if e.name == "." || e.name == ".." then map[]
    else
      var here: Files := map[p + [e.name] := KindOf(e.node)];
      match e.node
      case Dir(es) => here + Contents(p + [e.name], es)
      case _ => here
  }

  /** Apart from the dots, no directory lists a name twice. */
  predicate WellFormed(entries: seq<Entry>) {
    && (forall i, j :: 0 <= i < j < |entries| && entries[i].name == entries[j].name ==>
          entries[i].name == "." || entries[i].name == "..")
    && forall i :: 0 <= i < |entries| && entries[i].node.Dir? ==> WellFormed(entries[i].node.entries)
  }

  lemma {:induction false} ContentsBelow(p: Path, entries: seq<Entry>, q: Path)
    requires q in Contents(p, entries)
    ensures exists i :: 0 <= i < |entries| && entries[i].name != "." && entries[i].name != ".."
              && p + [entries[i].name] <= q
    decreases entries
  {
    var e := entries[0];
    if q in ContentsOne(p, e) {
      if e.node.Dir? && q in Contents(p + [e.name], e.node.entries) {
        ContentsBelow(p + [e.name], e.node.entries, q);
      }
      assert p + [entries[0].name] <= q;
    } else {
      ContentsBelow(p, entries[1..], q);
      var i :|
        0 <= i < |entries[1..]| && entries[1..][i].name != "." && entries[1..][i].name != ".."
        && p + [entries[1..][i].name] <= q;
      assert entries[i + 1] == entries[1..][i];
    }
  }

  lemma Prefixes(p: Path, name: string, q: Path)
    ensures p + [name] <= q <==> Below(p, q) && q[|p|] == name
  {
  }

  lemma {:induction false} PerformConcat(files: Files, a: seq<Call>, b: seq<Call>)
    requires PerformAll(files, a).Succeeds?
    ensures PerformAll(files, a + b) == PerformAll(PerformAll(files, a).files, b)
  {
    if a == [] {
      assert a + b == b;
    } else {
      assert (a + b)[1..] == a[1..] + b;
      PerformConcat(Perform(files, a[0]).files, a[1..], b);
    }
  }

  /** Nothing outside is at or below one of these entries. */
  predicate Clear(outside: Files, p: Path, entries: seq<Entry>) {
    forall q, i :: q in outside && 0 <= i < |entries| && entries[i].name != "." && entries[i].name != ".." ==>
      !(p + [entries[i].name] <= q)
  }

  lemma {:induction false} RemovesOne(outside: Files, p: Path, e: Entry)
    requires WellFormed([e]) && Clear(outside, p, [e])
    ensures PerformAll(outside + ContentsOne(p, e), PostOrderOne(p, e)) == Succeeds(outside)
    decreases e, 0
  {
    if e.name == "." || e.name == ".." {
      assert outside + ContentsOne(p, e) == outside;
    } else {
      var q := p + [e.name];
      assert [e][0] == e;
      assert q !in outside;
      var here := outside[q := KindOf(e.node)];
      assert here - {q} == outside;
      if e.node.Dir? {
        var es := e.node.entries;
        assert outside + ContentsOne(p, e) == here + Contents(q, es);
        forall r, i | r in here && 0 <= i < |es| && es[i].name != "." && es[i].name != ".."
          ensures !(q + [es[i].name] <= r)
        {
          Prefixes(q, es[i].name, r);
        }
        RemovesAll(here, q, es);
        PerformConcat(here + Contents(q, es), PostOrder(q, es), [Rmdir(q)]);
        assert !exists r :: r in here && Below(q, r);
        assert Perform(here, Rmdir(q)) == Succeeds(outside);
      } else {
        assert outside + ContentsOne(p, e) == here;
        assert Perform(here, Unlink(q)) == Succeeds(outside);
      }
    }
  }

  lemma {:induction false} RemovesAll(outside: Files, p: Path, entries: seq<Entry>)
    requires WellFormed(entries) && Clear(outside, p, entries)
    ensures PerformAll(outside + Contents(p, entries), PostOrder(p, entries)) == Succeeds(outside)
    decreases entries, 1
  {
    if entries == [] {
      assert outside + Contents(p, entries) == outside;
    } else {
      var e, rest := entries[0], entries[1..];
      var others := outside + Contents(p, rest);
      assert others + ContentsOne(p, e) == outside + Contents(p, entries);
      forall q, i | q in others && 0 <= i < |[e]| && [e][i].name != "." && [e][i].name != ".."
        ensures !(p + [[e][i].name] <= q)
      {
        if q in Contents(p, rest) {
          ContentsBelow(p, rest, q);
          var j :| 0 <= j < |rest| && rest[j].name != "." && rest[j].name != ".." && p + [rest[j].name] <= q;
          assert rest[j] == entries[j + 1] && entries[0] == e;
          Prefixes(p, rest[j].name, q);
          Prefixes(p, e.name, q);
        } else {
          assert entries[0] == e;
        }
      }
      assert forall i :: 0 <= i < |rest| ==> rest[i] == entries[i + 1];
      RemovesOne(others, p, e);
      RemovesAll(outside, p, rest);
      PerformConcat(outside + Contents(p, entries), PostOrderOne(p, e), PostOrder(p, rest));
    }
  }

  /** The calls that remove a directory all succeed, which means that every entry is removed once
      and every directory after its contents; they remove the directory and all its contents, and
      nothing else, so what a link points to stays. */
  lemma RemovesTree(outside: Files, p: Path, entries: seq<Entry>)
    requires WellFormed(entries) && forall q :: q in outside ==> !(p <= q)
    ensures PerformAll(outside[p := ADir] + Contents(p, entries), PostOrder(p, entries) + [Rmdir(p)])
            == Succeeds(outside)
  {
    var here := outside[p := ADir];
    forall q, i | q in here && 0 <= i < |entries| && entries[i].name != "." && entries[i].name != ".."
      ensures !(p + [entries[i].name] <= q)
    {
      Prefixes(p, entries[i].name, q);
    }
    RemovesAll(here, p, entries);
    PerformConcat(here + Contents(p, entries), PostOrder(p, entries), [Rmdir(p)]);
    assert here - {p} == outside;
    assert Perform(here, Rmdir(p)) == Succeeds(outside);
  }
}
