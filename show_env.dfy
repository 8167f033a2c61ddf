/** The `.env` viewer of admin/show_env.py (`show_env_file`): which lines
    of the file become table rows, how each is split into a variable and a
    value, and which values are masked. The file is given by its lines
    (None when it does not exist); the table is the list of rows added to
    it, in order. */
module ShowEnv {
  import opened Wrappers
  import opened PyStr
  import opened Lists

  /** One `table.add_row(variable, value)`. */
  datatype Row = Row(variable: string, value: string)

  const SensitiveKeywords: seq<string> := ["KEY", "SECRET", "TOKEN", "PASSWORD"]

  const MaskedValue: string := "[red]******** (masked for security)[/red]"

  const EmptyNotice: Row := Row("[i]File is empty or contains only comments[/i]", "")

  /** The single row shown when the file does not exist. */
  function NotFound(path: string): Row {
    Row("[i]File not found[/i]", "[grey50]" + path + "[/grey50]")
  }

  /** A line the comprehension keeps: not blank, and not a comment once
      stripped. */
  predicate Retained(line: string) {
    Strip(line) != [] && !StartsWith(Strip(line), "#")
  }

  /** A line is discarded exactly when it is whitespace only or its first
      non-blank character starts a comment. */
  lemma Discarded(line: string)
    ensures !Retained(line) <==>
      (forall i :: 0 <= i < |line| ==> IsSpace(line[i])) || StartsWith(Strip(line), "#")
  {
    StripEmpty(line);
  }

  /** The upper-cased variable name contains one of the sensitive keywords. */
  predicate Sensitive(key: string) {
    exists j :: 0 <= j < |SensitiveKeywords| && Contains(Upper(key), SensitiveKeywords[j])
  }

  /** The row for a retained line containing '=': the stripped line split
      at its first '=', the value masked when the name is sensitive. */
  function RowOf(line: string): Row
    requires '=' in line
  {
    StripKeeps(line, '=');
    var kv := SplitOnce(Strip(line), '=');
    Row(kv.0, if Sensitive(kv.0) then MaskedValue else kv.1)
  }

  /** The variable is the stripped line up to its first '=', and the value
      is replaced by the mask iff the variable name is sensitive. */
  lemma RowMeaning(line: string)
    requires '=' in line
    ensures '=' !in RowOf(line).variable && StartsWith(Strip(line), RowOf(line).variable + "=")
    ensures Sensitive(RowOf(line).variable) ==> RowOf(line).value == MaskedValue
    ensures !Sensitive(RowOf(line).variable) ==> RowOf(line).variable + "=" + RowOf(line).value == Strip(line)
  {
    StripKeeps(line, '=');
    var kv := SplitOnce(Strip(line), '=');
    assert Strip(line)[..|kv.0 + "="|] == kv.0 + "=";
  }

  /** The lines that produce a row. */
  predicate HasAssignment(line: string) {
    '=' in line
  }

  /** The rows the loop adds for the retained lines, in file order. */
  function EnvRows(lines: seq<string>): (r: seq<Row>)
    ensures |r| == |Filter(HasAssignment, lines)|
    decreases |lines|
  {
    if lines == [] then []
    else
      var last := lines[|lines| - 1];
      EnvRows(lines[..|lines| - 1]) + (if '=' in last then [RowOf(last)] else [])
  }

  /** One row per line containing '=', in file order; lines without '='
      add nothing. */
  lemma {:induction false} EnvRowsOrder(lines: seq<string>)
    ensures forall i :: 0 <= i < |Filter(HasAssignment, lines)| ==>
      '=' in Filter(HasAssignment, lines)[i] && EnvRows(lines)[i] == RowOf(Filter(HasAssignment, lines)[i])
    decreases |lines|
  {
    if lines != [] {
      var init := lines[..|lines| - 1];
      var last := lines[|lines| - 1];
      EnvRowsOrder(init);
      assert lines == init + [last];
      EnvRowsNext(init, last);
    }
  }

  lemma EnvRowsNext(init: seq<string>, last: string)
    requires forall i :: 0 <= i < |Filter(HasAssignment, init)| ==>
      '=' in Filter(HasAssignment, init)[i] && EnvRows(init)[i] == RowOf(Filter(HasAssignment, init)[i])
    ensures forall i :: 0 <= i < |Filter(HasAssignment, init + [last])| ==>
      '=' in Filter(HasAssignment, init + [last])[i] &&
      EnvRows(init + [last])[i] == RowOf(Filter(HasAssignment, init + [last])[i])
  {
    var lines := init + [last];
    assert lines[..|lines| - 1] == init && lines[|lines| - 1] == last;
    var kept := Filter(HasAssignment, init);
    var rows := EnvRows(init);
    var k := Filter(HasAssignment, lines);
    var e := EnvRows(lines);
    assert k == kept + (if HasAssignment(last) then [last] else []);
    assert e == rows + (if HasAssignment(last) then [RowOf(last)] else []);
    forall i | 0 <= i < |k| ensures '=' in k[i] && e[i] == RowOf(k[i]) {
      if i < |kept| {
        assert k[i] == kept[i] && e[i] == rows[i];
      }
    }
  }

  /** The loop over the retained lines. */
  method AddRows(lines: seq<string>) returns (rows: seq<Row>)
    ensures rows == EnvRows(lines)
  {
    rows := [];
    for i := 0 to |lines|
      invariant rows == EnvRows(lines[..i])
    {
      assert lines[..i + 1][..i] == lines[..i];
      var line := lines[i];
      if '=' in line {
        rows := rows + [RowOf(line)];
      }
    }
    assert lines[..|lines|] == lines;
  }

  /** `show_env_file()` on the file at `path`: the rows of its table. */
  method ShowEnvFile(path: string, file: Option<seq<string>>) returns (rows: seq<Row>)
    ensures file.None? ==> rows == [NotFound(path)]
    ensures file.Some? ==>
      var retained := Filter(Retained, file.value);
      rows == (if retained == [] then [EmptyNotice] else []) + EnvRows(retained)
  {
    if file.None? {
      return [NotFound(path)];
    }
    var lines := Filter(Retained, file.value);
    rows := [];
    if lines == [] {
      rows := rows + [EmptyNotice];
    }
    var added := AddRows(lines);
    rows := rows + added;
  }

  /** The notice row appears iff every line of the file is blank or a
      comment. */
  lemma EmptyNoticeIff(lines: seq<string>)
    ensures Filter(Retained, lines) == [] <==> forall l :: l in lines ==> !Retained(l)
  {
    FilterKeepsNone(Retained, lines);
  }
}
