/** What admin/show_dependencies.py computes from environment.yaml before it
    draws its tables: the conda and pip entries, the classification of each
    entry, the external tools described in the comment block above the
    `dependencies:` key, and the summary counts. */
module Dependencies {
  import opened Wrappers
  import opened PyStr
  import opened Lists

  /** One item of the `dependencies` list of the parsed YAML. */
  datatype Dependency =
    | CondaSpec(spec: string)              // a plain string
    | Mapping(pip: Option<seq<string>>)    // a dict, with its 'pip' list if it has one
    | OtherItem                            // anything else

  /** The conda list: the string items, in order. */
  function CondaSpecs(deps: seq<Dependency>): (r: seq<string>)
    ensures forall s :: s in r <==> CondaSpec(s) in deps
    decreases |deps|
  {
    if deps == [] then []
    else
      var init := deps[..|deps| - 1];
      assert deps == init + [deps[|deps| - 1]];
      CondaSpecs(init) + (if deps[|deps| - 1].CondaSpec? then [deps[|deps| - 1].spec] else [])
  }

  /** The pip list: the 'pip' lists of the dict items, concatenated in order. */
  function PipSpecs(deps: seq<Dependency>): seq<string>
    decreases |deps|
  {
    if deps == [] then []
    else
      var last := deps[|deps| - 1];
      PipSpecs(deps[..|deps| - 1]) + (if last.Mapping? && last.pip.Some? then last.pip.value else [])
  }

  /** The collection loop of `show_dependencies`. */
  method CollectDependencies(deps: seq<Dependency>) returns (conda: seq<string>, pip: seq<string>)
    ensures conda == CondaSpecs(deps) && pip == PipSpecs(deps)
  {
    conda, pip := [], [];
    var i := 0;
    while i < |deps|
      invariant 0 <= i <= |deps|
      invariant conda == CondaSpecs(deps[..i]) && pip == PipSpecs(deps[..i])
    {
      var dep := deps[i];
      match dep {
        case CondaSpec(s) => conda := conda + [s];
        case Mapping(p) =>
          if p.Some? {
            pip := pip + p.value;
          }
        case OtherItem =>
      }
      assert deps[..i + 1][..i] == deps[..i];
      i := i + 1;
    }
    assert deps[..|deps|] == deps;
  }

  lemma CollectSnoc(xs: seq<Dependency>, d: Dependency)
    ensures CondaSpecs(xs + [d]) == CondaSpecs(xs) + (if d.CondaSpec? then [d.spec] else [])
    ensures PipSpecs(xs + [d]) == PipSpecs(xs) + (if d.Mapping? && d.pip.Some? then d.pip.value else [])
  {
    assert (xs + [d])[..|xs + [d]| - 1] == xs;
  }

  /** Collection distributes over the list: each item contributes on its
      own, strings to the conda list, pip lists to the pip list, everything
      else nothing. */
  lemma CollectAppend(xs: seq<Dependency>, ys: seq<Dependency>)
    ensures CondaSpecs(xs + ys) == CondaSpecs(xs) + CondaSpecs(ys)
    ensures PipSpecs(xs + ys) == PipSpecs(xs) + PipSpecs(ys)
  {
    CondaAppend(xs, ys);
    PipAppend(xs, ys);
  }

  lemma {:induction false} CondaAppend(xs: seq<Dependency>, ys: seq<Dependency>)
    ensures CondaSpecs(xs + ys) == CondaSpecs(xs) + CondaSpecs(ys)
    decreases |ys|
  {
    if ys == [] {
      assert xs + ys == xs;
    } else {
      var init := ys[..|ys| - 1];
      var last := ys[|ys| - 1];
      CondaAppend(xs, init);
      SnocSplit(xs, ys);
      CollectSnoc(xs + init, last);
      CollectSnoc(init, last);
      AppendAssoc(CondaSpecs(xs), CondaSpecs(init), if last.CondaSpec? then [last.spec] else []);
    }
  }

  lemma {:induction false} PipAppend(xs: seq<Dependency>, ys: seq<Dependency>)
    ensures PipSpecs(xs + ys) == PipSpecs(xs) + PipSpecs(ys)
    decreases |ys|
  {
    if ys == [] {
      assert xs + ys == xs;
    } else {
      var init := ys[..|ys| - 1];
      var last := ys[|ys| - 1];
      PipAppend(xs, init);
      SnocSplit(xs, ys);
      CollectSnoc(xs + init, last);
      CollectSnoc(init, last);
      AppendAssoc(PipSpecs(xs), PipSpecs(init), if last.Mapping? && last.pip.Some? then last.pip.value else []);
    }
  }

  lemma CollectOne(d: Dependency)
    ensures CondaSpecs([d]) == (if d.CondaSpec? then [d.spec] else [])
    ensures PipSpecs([d]) == (if d.Mapping? && d.pip.Some? then d.pip.value else [])
  {
    assert [d][..0] == [];
  }

  /** A row of the conda table. */
  datatype CondaRow = CondaRow(package: string, versionOrChannel: string)

  /** The classification of one conda entry. */
  function ClassifyConda(dep: string): (r: CondaRow)
    ensures Contains(dep, "::") ==>
      r.versionOrChannel == "from " + Before(dep, "::") && Before(dep, "::") + "::" + r.package == dep
    ensures !Contains(dep, "::") && Contains(dep, "=") ==>
      r.package + "=" + r.versionOrChannel == dep && '=' !in r.package
    ensures !Contains(dep, "::") && !Contains(dep, "=") ==> r == CondaRow(dep, "latest")
  {
    if Contains(dep, "::") then
      CondaRow(After(dep, "::"), "from " + Before(dep, "::"))
    else if Contains(dep, "=") then
      var parts := Split(dep, '=');
      SplitFirst(dep, '=');
      assert "=" == ['='];
      CondaRow(parts[0], Join(parts[1..], '='))
    else CondaRow(dep, "latest")
  }

  /** Examples: a channel prefix wins over a version, and a double "="
      leaves one "=" in the version. */
  lemma CondaExamples()
    ensures ClassifyConda("x==1") == CondaRow("x", "=1")
    ensures ClassifyConda("python") == CondaRow("python", "latest")
  {
    var s := "x==1";
    assert s == ['x', '=', '=', '1'];
    assert s[1..][..1] == ['='];
    assert StartsWith(s[1..], "=");
    assert s[..1] == ['x'];
    assert !StartsWith(s, "=") && !StartsWith(s, ":");
    ContainsAt(s, "=", 1);
    forall j | 0 <= j <= |s| ensures !StartsWith(s[j..], "::") {
      if j < |s| {
        assert s[j] != ':';
      }
    }
    NotContains(s, "::");
    var p := "python";
    forall j | 0 <= j <= |p| ensures !StartsWith(p[j..], "::") && !StartsWith(p[j..], "=") {
      if j < |p| {
        assert p[j] != ':' && p[j] != '=';
      }
    }
    NotContains(p, "::");
    NotContains(p, "=");
    CondaRowEquals(s);
  }

  lemma CondaRowEquals(s: string)
    requires s == "x==1" && !Contains(s, "::") && Contains(s, "=")
    ensures ClassifyConda(s) == CondaRow("x", "=1")
  {
    var r := ClassifyConda(s);
    assert r.package + "=" + r.versionOrChannel == s && '=' !in r.package;
    assert s[|r.package|] == '=';
    assert forall k :: 0 <= k < |r.package| ==> r.package[k] == s[k];
    assert |r.package| == 1;
    assert s[2..] == r.versionOrChannel;
  }

  /** How a pip entry is labelled. */
  datatype PipKind = RequirementsFile | Editable | GitRepository | PipPackage

  function PipKindLabel(k: PipKind): string {
    match k
    case RequirementsFile => "requirements file"
    case Editable => "editable"
    case GitRepository => "git repository"
    case PipPackage => "pip package"
  }

  /** A row of the pip table. */
  datatype PipRow = PipRow(source: string, kind: PipKind)

  /** The classification of one pip entry, the first matching prefix
      deciding. */
  function ClassifyPip(dep: string): (r: PipRow)
    ensures r.kind == RequirementsFile <==> StartsWith(dep, "-r ")
    ensures r.kind == Editable <==> StartsWith(dep, "-e ")
    ensures r.kind == GitRepository <==> !StartsWith(dep, "-r ") && !StartsWith(dep, "-e ") && StartsWith(dep, "git+")
    ensures r.kind in {RequirementsFile, Editable} ==> dep == dep[..3] + r.source
    ensures r.kind in {GitRepository, PipPackage} ==> r.source == dep
  {
    if StartsWith(dep, "-r ") then PipRow(dep[3..], RequirementsFile)
    else if StartsWith(dep, "-e ") then PipRow(dep[3..], Editable)
    else if StartsWith(dep, "git+") then PipRow(dep, GitRepository)
    else PipRow(dep, PipPackage)
  }

  /** Building a table: one row per entry, in order. */
  method CondaRows(conda: seq<string>) returns (rows: seq<CondaRow>)
    ensures |rows| == |conda|
    ensures forall i :: 0 <= i < |conda| ==> rows[i] == ClassifyConda(conda[i])
  {
    rows := [];
    for i := 0 to |conda|
      invariant |rows| == i
      invariant forall j :: 0 <= j < i ==> rows[j] == ClassifyConda(conda[j])
    {
      rows := rows + [ClassifyConda(conda[i])];
    }
  }

  method PipRows(pip: seq<string>) returns (rows: seq<PipRow>)
    ensures |rows| == |pip|
    ensures forall i :: 0 <= i < |pip| ==> rows[i] == ClassifyPip(pip[i])
  {
    rows := [];
    for i := 0 to |pip|
      invariant |rows| == i
      invariant forall j :: 0 <= j < i ==> rows[j] == ClassifyPip(pip[j])
    {
      rows := rows + [ClassifyPip(pip[i])];
    }
  }

  // The external tools comment block.

  datatype Tool = Tool(name: string, description: string, commands: seq<string>)

  /** The text the tools are read from: what comes before the first
      "dependencies:", when both markers occur and "EXTERNAL TOOLS" is in
      that part. */
  function ExternalSection(content: string): (r: Option<string>)
    ensures r.Some? <==>
      Contains(content, "dependencies:") && Contains(Before(content, "dependencies:"), "EXTERNAL TOOLS")
    ensures r.Some? ==> StartsWith(content, r.value + "dependencies:")
    ensures r.Some? ==> forall j :: 0 <= j < |r.value| ==> !StartsWith(content[j..], "dependencies:")
  {
    if Contains(content, "EXTERNAL TOOLS") && Contains(content, "dependencies:") then
      var section := Before(content, "dependencies:");
      if Contains(section, "EXTERNAL TOOLS") then
        FirstMarker(content, "dependencies:");
        Some(section)
      else None
    else if Contains(content, "dependencies:") then
      PrefixContains(content, Before(content, "dependencies:"), "dependencies:", "EXTERNAL TOOLS");
      None
    else None
  }

  /** No "dependencies:" starts before the end of the text preceding the
      first one. */
  lemma FirstMarker(content: string, marker: string)
    requires Contains(content, marker)
    ensures forall j :: 0 <= j < |Before(content, marker)| ==> !StartsWith(content[j..], marker)
  {
    var k := Find(content, marker).value;
    assert Before(content, marker) == content[..k];
  }

  /** Text found in a prefix is found in the whole text. */
  lemma PrefixContains(s: string, prefix: string, rest: string, sub: string)
    requires StartsWith(s, prefix + rest)
    ensures Contains(prefix, sub) ==> Contains(s, sub)
  {
    if Contains(prefix, sub) {
      var k := Find(prefix, sub).value;
      assert prefix == (prefix + rest)[..|prefix|] == s[..|prefix|];
      assert s[k..][..|sub|] == prefix[k..][..|sub|];
      ContainsAt(s, sub, k);
    }
  }

  /** A (stripped) line that opens a new tool. */
  predicate IsToolLine(line: string) {
    StartsWith(line, "# - ") && Contains(line, ":")
  }

  /** The tool name: between the first "# - " and the next one, up to the
      first ":", stripped. */
  function ToolName(line: string): (r: string)
    requires IsToolLine(line)
    ensures |r| <= |line| && (r == [] || !IsSpace(r[0]))
  {
    ContainsAt(line, "# - ", 0);
    var between := Before(After(line, "# - "), "# - ");
    Strip(Before(between, ":"))
  }

  /** The description: everything after the first ":", stripped. */
  function ToolDescription(line: string): string
    requires IsToolLine(line)
  {
    Strip(After(line, ":"))
  }

  /** On a tool line "# - <name>:<description>" whose name holds neither
      ":" nor "# - ", the name and the description are those two parts,
      stripped. */
  lemma ToolLineParts(n: string, d: string)
    requires ':' !in n && !Contains(n, "# - ")
    ensures IsToolLine("# - " + n + ":" + d)
    ensures ToolName("# - " + n + ":" + d) == Strip(n)
    ensures ToolDescription("# - " + n + ":" + d) == Strip(d)
  {
    var line := "# - " + n + ":" + d;
    var rest := n + ":" + d;
    assert line == "# - " + rest;
    assert StartsWith(line, "# - ");
    assert StartsWith(line[|n| + 4..], ":");
    ContainsAt(line, ":", |n| + 4);
    // The name: the text after the leading "# - ".
    FindAt(line, "# - ", 0);
    assert Before(line, "# - ") == "";
    assert After(line, "# - ") == rest;
    NameBeforeMarker(n, d);
    BeforeColon(Before(rest, "# - "), n);
    // The description: the text after the first ":".
    assert ':' !in "# - " + n;
    BeforeColon(line, "# - " + n);
    assert Before(line, ":") + ":" + After(line, ":") == line;
    assert After(line, ":") == line[|n| + 5..] == d;
  }

  /** `s.find(sub)` is the first position at which `sub` occurs. */
  lemma FindAt(s: string, sub: string, k: nat)
    requires k + |sub| <= |s| && StartsWith(s[k..], sub)
    requires forall j :: 0 <= j < k ==> !StartsWith(s[j..], sub)
    ensures Find(s, sub) == Some(k)
  {
  }

  /** Text starting with a name free of ":" and then ":" splits at that ":". */
  lemma BeforeColon(t: string, n: string)
    requires ':' !in n && StartsWith(t, n + ":")
    ensures Before(t, ":") == n
  {
    assert t[|n|] == ':';
    forall j | 0 <= j < |n| ensures !StartsWith(t[j..], ":") {
      assert t[j] == n[j];
    }
    FindAt(t, ":", |n|);
  }

  /** Cutting `name:description` at its first "# - " keeps `name:`. */
  lemma NameBeforeMarker(n: string, d: string)
    requires ':' !in n && !Contains(n, "# - ")
    ensures StartsWith(Before(n + ":" + d, "# - "), n + ":")
  {
    var s := n + ":" + d;
    if Contains(s, "# - ") {
      var k := Find(s, "# - ").value;
      if k <= |n| {
        NoMarkerAt(n, d, k);
      }
      assert Before(s, "# - ") == s[..k];
      assert s[..k][..|n| + 1] == s[..|n| + 1] == n + ":";
    }
  }

  /** No "# - " starts within the name or at the ":" after it. */
  lemma NoMarkerAt(n: string, d: string, j: nat)
    requires ':' !in n && !Contains(n, "# - ") && j <= |n|
    ensures !StartsWith((n + ":" + d)[j..], "# - ")
  {
    var s := n + ":" + d;
    if j + 4 <= |n| {
      assert n[j..][..4] == s[j..][..4];
      if StartsWith(s[j..], "# - ") {
        ContainsAt(n, "# - ", j);
      }
    } else {
      assert s[|n|] == ':';
      if j + 4 <= |s| {
        assert s[j..][..4][|n| - j] == ':';
      }
    }
  }

  const CommandIndent: string := "#     "

  /** The command a continuation line carries: every indent removed, then
      stripped. */
  function CommandOf(line: string): string {
    Strip(ReplaceAll(line, CommandIndent, ""))
  }

  predicate KeepsCommand(command: string) {
    command != "" && !StartsWith(command, "# ")
  }

  /** What a stripped line of the block is: a tool line, an indented
      continuation line, or anything else. */
  datatype LineKind = ToolLine(name: string, description: string) | CommandLine(command: string) | OtherLine

  function Interpret(line: string): LineKind {
    if IsToolLine(line) then ToolLine(ToolName(line), ToolDescription(line))
    else if StartsWith(line, CommandIndent) then CommandLine(CommandOf(line))
    else OtherLine
  }

  lemma InterpretKind(line: string)
    ensures Interpret(line).ToolLine? <==> IsToolLine(line)
    ensures Interpret(line).CommandLine? <==> !IsToolLine(line) && StartsWith(line, CommandIndent)
  {
  }

  /** The kinds of the lines: each raw line is stripped, then interpreted. */
  function Kinds(lines: seq<string>): seq<LineKind>
    decreases |lines|
  {
    if lines == [] then [] else [Interpret(Strip(lines[0]))] + Kinds(lines[1..])
  }

  lemma {:induction false} KindsLength(lines: seq<string>)
    ensures |Kinds(lines)| == |lines|
    decreases |lines|
  {
    if lines != [] {
      KindsLength(lines[1..]);
    }
  }

  lemma {:induction false} KindAt(lines: seq<string>, i: nat)
    requires i < |lines|
    ensures |Kinds(lines)| == |lines| && Kinds(lines)[i] == Interpret(Strip(lines[i]))
    decreases i
  {
    KindsLength(lines);
    var head := [Interpret(Strip(lines[0]))];
    assert Kinds(lines) == head + Kinds(lines[1..]);
    if i > 0 {
      KindAt(lines[1..], i - 1);
      assert lines[1..][i - 1] == lines[i];
      assert (head + Kinds(lines[1..]))[i] == Kinds(lines[1..])[i - 1];
    }
  }

  /** Lines none of which is a tool line have no tool kinds. */
  lemma {:induction false} KindsNoTool(lines: seq<string>)
    requires forall i :: 0 <= i < |lines| ==> !IsToolLine(Strip(lines[i]))
    ensures forall i :: 0 <= i < |Kinds(lines)| ==> !Kinds(lines)[i].ToolLine?
  {
    KindsLength(lines);
    forall i | 0 <= i < |lines| ensures !Kinds(lines)[i].ToolLine? {
      KindAt(lines, i);
      InterpretKind(Strip(lines[i]));
    }
  }

  lemma {:induction false} KindsAppend(xs: seq<string>, ys: seq<string>)
    ensures Kinds(xs + ys) == Kinds(xs) + Kinds(ys)
    decreases |xs|
  {
    if xs == [] {
      assert xs + ys == ys;
    } else {
      assert (xs + ys)[1..] == xs[1..] + ys;
      KindsAppend(xs[1..], ys);
    }
  }

  /** `current_tool["commands"].append(command)`: the current tool is
      always the last one appended. */
  function AddCommand(tools: seq<Tool>, command: string): (r: seq<Tool>)
    requires tools != []
    ensures |r| == |tools| && r[..|r| - 1] == tools[..|tools| - 1]
    ensures r[|r| - 1] == tools[|tools| - 1].(commands := tools[|tools| - 1].commands + [command])
  {
    var current := tools[|tools| - 1];
    tools[..|tools| - 1] + [current.(commands := current.commands + [command])]
  }

  /** One line of the block applied to the tools so far. A continuation line
      before any tool, or whose command is empty or starts with "# ", is
      dropped. */
  function Step(tools: seq<Tool>, k: LineKind): seq<Tool> {
    match k
    case ToolLine(name, description) => tools + [Tool(name, description, [])]
    case CommandLine(command) =>
      if tools != [] && KeepsCommand(command) then AddCommand(tools, command) else tools
    case OtherLine => tools
  }

  /** The tools parsed from the lines of kinds `ks`, starting from `tools`. */
  function ParseFrom(tools: seq<Tool>, ks: seq<LineKind>): seq<Tool>
    decreases |ks|
  {
    if ks == [] then tools else ParseFrom(Step(tools, ks[0]), ks[1..])
  }

  /** The tools of a comment block. */
  function ParseTools(section: string): seq<Tool> {
    ParseFrom([], Kinds(Split(section, '\n')))
  }

  /** The tool parsing loop of `show_dependencies`. */
  method ParseExternalTools(section: string) returns (tools: seq<Tool>)
    ensures tools == ParseTools(section)
  {
    tools := ParseToolLines(Split(section, '\n'));
  }

  /** One pass of the loop body, on a stripped line. */
  method ParseLine(tools: seq<Tool>, line: string) returns (next: seq<Tool>)
    ensures next == Step(tools, Interpret(line))
  {
    ghost var k := Interpret(line);
    next := tools;
    if StartsWith(line, "# - ") && Contains(line, ":") {
      assert k == ToolLine(ToolName(line), ToolDescription(line));
      next := tools + [Tool(ToolName(line), ToolDescription(line), [])];
    } else if StartsWith(line, CommandIndent) && tools != [] {
      var command := Strip(ReplaceAll(line, CommandIndent, ""));
      assert k == CommandLine(command);
      if command != "" && !StartsWith(command, "# ") {
        var current := tools[|tools| - 1];
        next := tools[..|tools| - 1] + [current.(commands := current.commands + [command])];
        assert next == AddCommand(tools, command);
      }
    } else {
      assert k.OtherLine? || (k.CommandLine? && tools == []);
    }
  }

  /** The loop itself, over the lines of the block. */
  method ParseToolLines(lines: seq<string>) returns (tools: seq<Tool>)
    ensures tools == ParseFrom([], Kinds(lines))
  {
    ghost var ks := Kinds(lines);
    KindsLength(lines);
    tools := [];
    var i := 0;
    while i < |lines|
      invariant 0 <= i <= |lines|
      invariant ParseFrom(tools, ks[i..]) == ParseFrom([], ks)
    {
      KindAt(lines, i);
      ghost var before := tools;
      tools := ParseLine(tools, Strip(lines[i]));
      assert ParseFrom(before, ks[i..]) == ParseFrom(Step(before, ks[i]), ks[i..][1..]);
      assert ks[i..][1..] == ks[i + 1..];
      i := i + 1;
    }
  }

  lemma {:induction false} ParseAppend(tools: seq<Tool>, xs: seq<LineKind>, ys: seq<LineKind>)
    ensures ParseFrom(tools, xs + ys) == ParseFrom(ParseFrom(tools, xs), ys)
    decreases |xs|
  {
    if xs == [] {
      assert xs + ys == ys;
    } else {
      assert (xs + ys)[1..] == xs[1..] + ys;
      ParseAppend(Step(tools, xs[0]), xs[1..], ys);
    }
  }

  /** Lines before the first tool line, continuation lines included,
      produce nothing. */
  lemma {:induction false} NoToolBeforeFirst(ks: seq<LineKind>)
    requires forall i :: 0 <= i < |ks| ==> !ks[i].ToolLine?
    ensures ParseFrom([], ks) == []
    decreases |ks|
  {
    if ks != [] {
      NoToolBeforeFirst(ks[1..]);
    }
  }

  /** So the tools of a block are those of its part from the first tool
      line on. */
  lemma LeadingLinesIgnored(pre: seq<string>, rest: seq<string>)
    requires forall i :: 0 <= i < |pre| ==> !IsToolLine(Strip(pre[i]))
    ensures ParseFrom([], Kinds(pre + rest)) == ParseFrom([], Kinds(rest))
  {
    KindsAppend(pre, rest);
    KindsNoTool(pre);
    ParseAppend([], Kinds(pre), Kinds(rest));
    NoToolBeforeFirst(Kinds(pre));
  }

  function IsToolKind(): LineKind -> bool {
    (k: LineKind) => k.ToolLine?
  }

  /** One tool per tool line. */
  lemma {:induction false} ToolPerToolLine(tools: seq<Tool>, ks: seq<LineKind>)
    ensures |ParseFrom(tools, ks)| == |tools| + |Filter(IsToolKind(), ks)|
    decreases |ks|
  {
    if ks != [] {
      var next := Step(tools, ks[0]);
      assert |next| == |tools| + (if ks[0].ToolLine? then 1 else 0);
      ToolPerToolLine(next, ks[1..]);
      assert ks == [ks[0]] + ks[1..];
      FilterAppend(IsToolKind(), [ks[0]], ks[1..]);
      assert [ks[0]] == [] + [ks[0]];
      FilterSnoc(IsToolKind(), [], ks[0]);
    }
  }

  /** A line never renames a tool already opened. */
  lemma StepNames(tools: seq<Tool>, k: LineKind)
    ensures |Step(tools, k)| >= |tools|
    ensures forall i :: 0 <= i < |tools| ==>
      Step(tools, k)[i].name == tools[i].name && Step(tools, k)[i].description == tools[i].description
    ensures k.ToolLine? ==> Step(tools, k)[|tools|] == Tool(k.name, k.description, [])
  {
    var next := Step(tools, k);
    if k.CommandLine? && tools != [] && KeepsCommand(k.command) {
      var n := |tools|;
      forall i | 0 <= i < n - 1 ensures next[i] == tools[i] {
        assert next[i] == next[..n - 1][i];
      }
    }
  }

  /** Tools keep the name and description of the line that opened them. */
  lemma {:induction false} ParseKeepsNames(tools: seq<Tool>, ks: seq<LineKind>)
    ensures |ParseFrom(tools, ks)| >= |tools|
    ensures forall i :: 0 <= i < |tools| ==>
      ParseFrom(tools, ks)[i].name == tools[i].name && ParseFrom(tools, ks)[i].description == tools[i].description
    decreases |ks|
  {
    if ks != [] {
      StepNames(tools, ks[0]);
      ParseKeepsNames(Step(tools, ks[0]), ks[1..]);
    }
  }

  /** The names and descriptions of the tool lines among `ks`, in order. */
  function ToolLines(ks: seq<LineKind>): seq<(string, string)>
    decreases |ks|
  {
    if ks == [] then []
    else (if ks[0].ToolLine? then [(ks[0].name, ks[0].description)] else []) + ToolLines(ks[1..])
  }

  /** The tools opened by `ks`, in order, carry the names and descriptions
      of its tool lines, in order. */
  lemma {:induction false} ToolsNamed(tools: seq<Tool>, ks: seq<LineKind>)
    ensures |ParseFrom(tools, ks)| == |tools| + |ToolLines(ks)|
    ensures forall i :: 0 <= i < |ToolLines(ks)| ==>
      (ParseFrom(tools, ks)[|tools| + i].name, ParseFrom(tools, ks)[|tools| + i].description) == ToolLines(ks)[i]
    decreases |ks|
  {
    if ks != [] {
      var next := Step(tools, ks[0]);
      var rest := ToolLines(ks[1..]);
      StepNames(tools, ks[0]);
      ToolsNamed(next, ks[1..]);
      ParseKeepsNames(next, ks[1..]);
      assert ParseFrom(tools, ks) == ParseFrom(next, ks[1..]);
      if ks[0].ToolLine? {
        assert ToolLines(ks) == [(ks[0].name, ks[0].description)] + rest;
        forall i | 0 <= i < |ToolLines(ks)|
          ensures (ParseFrom(tools, ks)[|tools| + i].name, ParseFrom(tools, ks)[|tools| + i].description) == ToolLines(ks)[i]
        {
          if i > 0 {
            assert ToolLines(ks)[i] == rest[i - 1];
            assert |tools| + i == |next| + (i - 1);
          }
        }
      } else {
        assert ToolLines(ks) == rest;
      }
    }
  }

  /** Every kept command is non-empty and does not start with "# ". */
  predicate CommandsKept(tools: seq<Tool>) {
    forall i, j :: 0 <= i < |tools| && 0 <= j < |tools[i].commands| ==> KeepsCommand(tools[i].commands[j])
  }

  lemma StepKeepsCommands(tools: seq<Tool>, k: LineKind)
    requires CommandsKept(tools)
    ensures CommandsKept(Step(tools, k))
  {
    var next := Step(tools, k);
    if k.CommandLine? && tools != [] && KeepsCommand(k.command) {
      var n := |tools|;
      forall i, j | 0 <= i < n && 0 <= j < |next[i].commands| ensures KeepsCommand(next[i].commands[j]) {
        if i < n - 1 {
          assert next[i] == next[..n - 1][i] == tools[..n - 1][i] == tools[i];
        }
      }
    }
  }

  lemma {:induction false} ParseKeepsCommands(tools: seq<Tool>, ks: seq<LineKind>)
    requires CommandsKept(tools)
    ensures CommandsKept(ParseFrom(tools, ks))
    decreases |ks|
  {
    if ks != [] {
      StepKeepsCommands(tools, ks[0]);
      ParseKeepsCommands(Step(tools, ks[0]), ks[1..]);
    }
  }

  /** The kept commands of the continuation lines at the front of `ks`, up
      to the first tool line. */
  function CommandsUntilTool(ks: seq<LineKind>): seq<string>
    decreases |ks|
  {
    if ks == [] then []
    else match ks[0]
      case ToolLine(_, _) => []
      case CommandLine(c) => (if KeepsCommand(c) then [c] else []) + CommandsUntilTool(ks[1..])
      case OtherLine => CommandsUntilTool(ks[1..])
  }

  /** The tools a block describes, read line by line without a current
      tool: each tool line opens a tool whose commands are the kept commands
      of the continuation lines after it, up to the next tool line. */
  function Grouped(ks: seq<LineKind>): seq<Tool>
    decreases |ks|
  {
    if ks == [] then []
    else if ks[0].ToolLine? then
      [Tool(ks[0].name, ks[0].description, CommandsUntilTool(ks[1..]))] + Grouped(ks[1..])
    else Grouped(ks[1..])
  }

  /** The last tool with `cmds` appended to its commands. */
  function Extend(tools: seq<Tool>, cmds: seq<string>): seq<Tool> {
    if tools == [] then []
    else
      var current := tools[|tools| - 1];
      tools[..|tools| - 1] + [current.(commands := current.commands + cmds)]
  }

  lemma ExtendNothing(tools: seq<Tool>)
    ensures Extend(tools, []) == tools
  {
    if tools != [] {
      var current := tools[|tools| - 1];
      assert current.commands + [] == current.commands;
      assert tools == tools[..|tools| - 1] + [current];
    }
  }

  lemma ExtendTwice(tools: seq<Tool>, xs: seq<string>, ys: seq<string>)
    ensures Extend(Extend(tools, xs), ys) == Extend(tools, xs + ys)
  {
    if tools != [] {
      var once := Extend(tools, xs);
      assert once[..|once| - 1] == tools[..|tools| - 1];
      assert tools[|tools| - 1].commands + xs + ys == tools[|tools| - 1].commands + (xs + ys);
    }
  }

  /** A tool line opens a tool that collects the commands after it. */
  lemma ExtendOpened(tools: seq<Tool>, name: string, description: string, cmds: seq<string>)
    ensures Extend(tools + [Tool(name, description, [])], cmds) == tools + [Tool(name, description, cmds)]
  {
    var t := Tool(name, description, []);
    assert (tools + [t])[..|tools|] == tools;
    assert t.commands + cmds == cmds;
  }

  /** Adding a command to the current tool is extending it by one. */
  lemma AddCommandExtends(tools: seq<Tool>, c: string)
    requires tools != []
    ensures AddCommand(tools, c) == Extend(tools, [c])
  {
  }

  /** One line, as seen by the grouped reading. */
  lemma StepGrouped(tools: seq<Tool>, k: LineKind, rest: seq<LineKind>)
    ensures Extend(Step(tools, k), CommandsUntilTool(rest)) + Grouped(rest) ==
      Extend(tools, CommandsUntilTool([k] + rest)) + Grouped([k] + rest)
  {
    var ks := [k] + rest;
    assert ks[0] == k && ks[1..] == rest;
    match k
    case ToolLine(name, description) =>
      ExtendOpened(tools, name, description, CommandsUntilTool(rest));
      ExtendNothing(tools);
    case CommandLine(c) =>
      assert Grouped(ks) == Grouped(rest);
      if KeepsCommand(c) {
        assert CommandsUntilTool(ks) == [c] + CommandsUntilTool(rest);
        if tools != [] {
          AddCommandExtends(tools, c);
          ExtendTwice(tools, [c], CommandsUntilTool(rest));
        }
      } else {
        assert CommandsUntilTool(ks) == [] + CommandsUntilTool(rest) == CommandsUntilTool(rest);
      }
    case OtherLine =>
  }

  /** The parser agrees with the grouped reading: after `ks`, the tool that
      was current has gained the kept commands before the first tool line,
      and each tool line of `ks` has opened its own tool with the kept
      commands that follow it. */
  lemma {:induction false} ParseGrouped(tools: seq<Tool>, ks: seq<LineKind>)
    ensures ParseFrom(tools, ks) == Extend(tools, CommandsUntilTool(ks)) + Grouped(ks)
    decreases |ks|
  {
    if ks == [] {
      ExtendNothing(tools);
    } else {
      ParseGrouped(Step(tools, ks[0]), ks[1..]);
      assert ks == [ks[0]] + ks[1..];
      StepGrouped(tools, ks[0], ks[1..]);
    }
  }

  /** A block's tools are its grouped reading: the i-th tool holds the kept
      commands of the continuation lines between the i-th tool line and the
      next, in order, and continuation lines before the first tool line are
      dropped. */
  lemma ToolsOfBlockGrouped(section: string)
    ensures ParseTools(section) == Grouped(Kinds(Split(section, '\n')))
  {
    ParseGrouped([], Kinds(Split(section, '\n')));
  }

  /** A kept command is appended to the tool opened by the nearest tool line
      before it: a tool line followed by a continuation line gets that
      line's command first. */
  lemma CommandJoinsTool(name: string, description: string, command: string, rest: seq<LineKind>)
    requires KeepsCommand(command)
    ensures Grouped([ToolLine(name, description), CommandLine(command)] + rest)[0].commands ==
      [command] + CommandsUntilTool(rest)
  {
    var ks := [ToolLine(name, description), CommandLine(command)] + rest;
    assert ks[1..] == [CommandLine(command)] + rest;
    assert ks[1..][1..] == rest;
  }

  /** The tools of a comment block: one per tool line, and only kept
      commands. */
  lemma ToolsOfBlock(section: string)
    ensures |ParseTools(section)| == |Filter(IsToolKind(), Kinds(Split(section, '\n')))|
    ensures CommandsKept(ParseTools(section))
  {
    ToolPerToolLine([], Kinds(Split(section, '\n')));
    ParseKeepsCommands([], Kinds(Split(section, '\n')));
  }

  /** The i-th tool of a comment block has the name and description of its
      i-th tool line. */
  lemma ToolNamesOfBlock(section: string)
    ensures |ParseTools(section)| == |ToolLines(Kinds(Split(section, '\n')))|
    ensures forall i :: 0 <= i < |ParseTools(section)| ==>
      (ParseTools(section)[i].name, ParseTools(section)[i].description) == ToolLines(Kinds(Split(section, '\n')))[i]
  {
    ToolsNamed([], Kinds(Split(section, '\n')));
  }

  /** The Sample Command column. */
  function SampleCommand(t: Tool): (r: string)
    ensures t.commands != [] ==> r == t.commands[0]
    ensures t.commands == [] ==> r == "See documentation"
  {
    if t.commands != [] then t.commands[0] else "See documentation"
  }

  datatype ToolRow = ToolRow(name: string, description: string, sampleCommand: string)

  /** The rows of the external tools table, one per tool. */
  method ToolRows(tools: seq<Tool>) returns (rows: seq<ToolRow>)
    ensures |rows| == |tools|
    ensures forall i :: 0 <= i < |tools| ==>
      rows[i] == ToolRow(tools[i].name, tools[i].description, SampleCommand(tools[i]))
  {
    rows := [];
    for i := 0 to |tools|
      invariant |rows| == i
      invariant forall j :: 0 <= j < i ==>
        rows[j] == ToolRow(tools[j].name, tools[j].description, SampleCommand(tools[j]))
    {
      var t := tools[i];
      var sample := if t.commands != [] then t.commands[0] else "See documentation";
      rows := rows + [ToolRow(t.name, t.description, sample)];
    }
  }

  /** Everything the report shows, or why there is none. */
  datatype Report =
    | EnvironmentFileMissing
    | LoadError
    | Shown(condaRows: seq<CondaRow>, pipRows: seq<PipRow>, toolRows: seq<ToolRow>,
            totalConda: nat, totalPip: nat)

  /** `show_dependencies`, given whether environment.yaml exists, its parsed
      `dependencies` list (None when it cannot be loaded) and its text. */
  method ShowDependencies(fileExists: bool, parsed: Option<seq<Dependency>>, content: string)
    returns (r: Report)
    ensures !fileExists ==> r == EnvironmentFileMissing
    ensures fileExists && parsed.None? ==> r == LoadError
    ensures fileExists && parsed.Some? ==>
      r.Shown? && r.totalConda == |CondaSpecs(parsed.value)| && r.totalPip == |PipSpecs(parsed.value)| &&
      |r.condaRows| == r.totalConda && |r.pipRows| == r.totalPip
    ensures fileExists && parsed.Some? ==>
      (forall i :: 0 <= i < |r.condaRows| ==> r.condaRows[i] == ClassifyConda(CondaSpecs(parsed.value)[i])) &&
      (forall i :: 0 <= i < |r.pipRows| ==> r.pipRows[i] == ClassifyPip(PipSpecs(parsed.value)[i]))
    ensures fileExists && parsed.Some? && ExternalSection(content).None? ==> r.toolRows == []
    ensures fileExists && parsed.Some? && ExternalSection(content).Some? ==>
      var tools := ParseTools(ExternalSection(content).value);
      |r.toolRows| == |tools| &&
      forall i :: 0 <= i < |tools| ==>
        r.toolRows[i] == ToolRow(tools[i].name, tools[i].description, SampleCommand(tools[i]))
  {
    if !fileExists {
      return EnvironmentFileMissing;
    }
    if parsed.None? {
      return LoadError;
    }
    var conda, pip := CollectDependencies(parsed.value);
    var condaRows := CondaRows(conda);
    var pipRows := PipRows(pip);
    var toolRows := [];
    var section := ExternalSection(content);
    if section.Some? {
      var tools := ParseExternalTools(section.value);
      toolRows := ToolRows(tools);
    }
    r := Shown(condaRows, pipRows, toolRows, |conda|, |pip|);
  }
}
