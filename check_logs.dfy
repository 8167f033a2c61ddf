/** The log scanner of admin/check_logs.py (`parse_log_file`): which lines
    count as errors and warnings, how they are numbered and formatted, the
    counts, the verdict, and what is written to the log. Regular expression
    search is an oracle: `search(pattern, line)` says whether the
    case-insensitive pattern occurs in the line. */
module CheckLogs {
  import opened Wrappers
  import opened PyStr

  /** `re.search(pattern, line, re.IGNORECASE)`, for any pattern and line. */
  type Search = (string, string) -> bool

  /** Some pattern occurs in the line. */
  predicate AnyMatch(search: Search, patterns: seq<string>, line: string) {
    exists j :: 0 <= j < |patterns| && search(patterns[j], line)
  }

  /** The inner loop over the patterns, which stops at the first match. */
  method FirstMatch(search: Search, patterns: seq<string>, line: string) returns (found: bool)
    ensures found <==> AnyMatch(search, patterns, line)
  {
    found := false;
    var j := 0;
    while j < |patterns|
      invariant 0 <= j <= |patterns|
      invariant !found && forall k :: 0 <= k < j ==> !search(patterns[k], line)
    {
      if search(patterns[j], line) {
        found := true;
        return;
      }
      j := j + 1;
    }
  }

  /** The numbers (from 1) of the lines some pattern occurs in, in file
      order. */
  function Hits(search: Search, patterns: seq<string>, lines: seq<string>): (r: seq<nat>)
    ensures |r| <= |lines|
    decreases |lines|
  {
    if lines == [] then []
    else
      Hits(search, patterns, lines[..|lines| - 1])
      + (if AnyMatch(search, patterns, lines[|lines| - 1]) then [|lines|] else [])
  }

  /** The hits are increasing line numbers, and a line is a hit iff some
      pattern occurs in it: one entry per line, however many patterns
      match. */
  lemma {:induction false} HitsMeaning(search: Search, patterns: seq<string>, lines: seq<string>)
    ensures forall a, b :: 0 <= a < b < |Hits(search, patterns, lines)| ==>
      Hits(search, patterns, lines)[a] < Hits(search, patterns, lines)[b]
    ensures forall n :: n in Hits(search, patterns, lines) ==> 1 <= n <= |lines|
    ensures forall n :: 1 <= n <= |lines| ==>
      (n in Hits(search, patterns, lines) <==> AnyMatch(search, patterns, lines[n - 1]))
    decreases |lines|
  {
    if lines != [] {
      var n := |lines|;
      var init := lines[..n - 1];
      HitsMeaning(search, patterns, init);
      var h := Hits(search, patterns, init);
      var extra: seq<nat> := if AnyMatch(search, patterns, lines[n - 1]) then [n] else [];
      var r := Hits(search, patterns, lines);
      assert r == h + extra;
      forall a, b | 0 <= a < b < |r| ensures r[a] < r[b] {
        if b >= |h| {
          assert r[a] == h[a] && h[a] in h;
        }
      }
      forall m | 1 <= m <= n ensures m in r <==> AnyMatch(search, patterns, lines[m - 1]) {
        if m < n {
          assert lines[m - 1] == init[m - 1];
          assert m in r <==> m in h;
        } else {
          assert n !in h;
        }
      }
    }
  }

  /** `f"L{line_number}: {line.strip()}"` */
  function Entry(n: nat, line: string): string {
    "L" + NatToString(n) + ": " + Strip(line)
  }

  /** The entries of the matching lines, in file order. */
  function Entries(search: Search, patterns: seq<string>, lines: seq<string>): (r: seq<string>)
    ensures |r| == |Hits(search, patterns, lines)|
    decreases |lines|
  {
    if lines == [] then []
    else
      var n := |lines|;
      Entries(search, patterns, lines[..n - 1])
      + (if AnyMatch(search, patterns, lines[n - 1]) then [Entry(n, lines[n - 1])] else [])
  }

  /** Each entry names its hit and carries that line, stripped. */
  lemma EntriesOfHits(search: Search, patterns: seq<string>, lines: seq<string>, j: nat)
    requires j < |Hits(search, patterns, lines)|
    ensures 1 <= Hits(search, patterns, lines)[j] <= |lines|
    ensures Entries(search, patterns, lines)[j] == Entry(Hits(search, patterns, lines)[j], lines[Hits(search, patterns, lines)[j] - 1])
  {
    HitAt(search, patterns, lines, j);
    EntryAt(search, patterns, lines, j);
  }

  /** The `j`-th hit is the number of a line of the file. */
  lemma {:induction false} HitAt(search: Search, patterns: seq<string>, lines: seq<string>, j: nat)
    requires j < |Hits(search, patterns, lines)|
    ensures 1 <= Hits(search, patterns, lines)[j] <= |lines|
    decreases |lines|
  {
    var init := lines[..|lines| - 1];
    if j < |Hits(search, patterns, init)| {
      EarlierAt(search, patterns, lines, j);
      HitAt(search, patterns, init, j);
    } else {
      LastAt(search, patterns, lines, j);
    }
  }

  /** The `j`-th entry names the `j`-th hit and carries that line. */
  lemma {:induction false} EntryAt(search: Search, patterns: seq<string>, lines: seq<string>, j: nat)
    requires j < |Hits(search, patterns, lines)| && 1 <= Hits(search, patterns, lines)[j] <= |lines|
    ensures Entries(search, patterns, lines)[j] == Entry(Hits(search, patterns, lines)[j], lines[Hits(search, patterns, lines)[j] - 1])
    decreases |lines|
  {
    var init := lines[..|lines| - 1];
    if j < |Hits(search, patterns, init)| {
      EarlierAt(search, patterns, lines, j);
      HitAt(search, patterns, init, j);
      EntryAt(search, patterns, init, j);
      var h := Hits(search, patterns, init)[j];
      assert init[h - 1] == lines[h - 1];
    } else {
      LastAt(search, patterns, lines, j);
    }
  }

  /** A hit before the last line keeps its place and its entry. */
  lemma EarlierAt(search: Search, patterns: seq<string>, lines: seq<string>, j: nat)
    requires lines != [] && j < |Hits(search, patterns, lines[..|lines| - 1])|
    ensures j < |Hits(search, patterns, lines)|
    ensures Hits(search, patterns, lines)[j] == Hits(search, patterns, lines[..|lines| - 1])[j]
    ensures Entries(search, patterns, lines)[j] == Entries(search, patterns, lines[..|lines| - 1])[j]
  {
  }

  /** A hit past those of the earlier lines is the last line. */
  lemma LastAt(search: Search, patterns: seq<string>, lines: seq<string>, j: nat)
    requires lines != [] && |Hits(search, patterns, lines[..|lines| - 1])| <= j < |Hits(search, patterns, lines)|
    ensures Hits(search, patterns, lines)[j] == |lines|
    ensures Entries(search, patterns, lines)[j] == Entry(|lines|, lines[|lines| - 1])
  {
  }

  /** What `parse_log_file` returns when the file can be read. */
  datatype Scan = Scan(ok: bool, errorCount: nat, warningCount: nat, errors: seq<string>, warnings: seq<string>)

  /** `warning_patterns` when given and non-empty, else none. */
  function WarningPatterns(warningPatterns: Option<seq<string>>): seq<string> {
    if warningPatterns.Some? then warningPatterns.value else []
  }

  /** The summary written for `entries` of one kind: the count, the first
      ten entries, and how many more there are. */
  function Summary(entries: seq<string>, noun: string, path: string): (r: seq<string>)
  {
    if entries == [] then []
    else
      var n := |entries|;
      var shown := if n > 10 then entries[..10] else entries;
      ["Found " + NatToString(n) + " " + noun + "(s) in " + path + ":"]
      + seq(|shown|, i requires 0 <= i < |shown| => "  " + shown[i])
      + (if n > 10 then ["  ...and " + NatToString(n - 10) + " more " + noun + "s."] else [])
  }

  /** At most ten entries are written, the first ten, followed by the
      number left out when there are more. */
  lemma SummaryShape(entries: seq<string>, noun: string, path: string)
    ensures var r := Summary(entries, noun, path);
      var n := |entries|;
      (n == 0 ==> r == []) &&
      (n > 0 ==> (|r| == 1 + (if n > 10 then 11 else n) &&
        (forall i :: 0 <= i < n && i < 10 ==> r[1 + i] == "  " + entries[i]) &&
        (n > 10 ==> r[11] == "  ...and " + NatToString(n - 10) + " more " + noun + "s.")))
  {
    var n := |entries|;
    if n > 0 {
      var shown := if n > 10 then entries[..10] else entries;
      var head := ["Found " + NatToString(n) + " " + noun + "(s) in " + path + ":"];
      var body := seq(|shown|, i requires 0 <= i < |shown| => "  " + shown[i]);
      var tail := if n > 10 then ["  ...and " + NatToString(n - 10) + " more " + noun + "s."] else [];
      var r := Summary(entries, noun, path);
      assert r == head + body + tail;
      forall i | 0 <= i < n && i < 10 ensures r[1 + i] == "  " + entries[i] {
        assert r[1 + i] == body[i];
      }
    }
  }

  /** The loop of `parse_log_file` over the lines of the file; the warning
      patterns are tried only when there are some. */
  method ScanLines(search: Search, errorPatterns: seq<string>, warningPatterns: seq<string>, lines: seq<string>)
    returns (errors: seq<string>, warnings: seq<string>)
    ensures errors == Entries(search, errorPatterns, lines)
    ensures warnings == Entries(search, warningPatterns, lines)
  {
    errors, warnings := [], [];
    for i := 0 to |lines|
      invariant errors == Entries(search, errorPatterns, lines[..i])
      invariant warnings == Entries(search, warningPatterns, lines[..i])
    {
      assert lines[..i + 1][..i] == lines[..i];
      var line := lines[i];
      var isError := FirstMatch(search, errorPatterns, line);
      if isError {
        errors := errors + [Entry(i + 1, line)];
      }
      if warningPatterns != [] {
        var isWarning := FirstMatch(search, warningPatterns, line);
        if isWarning {
          warnings := warnings + [Entry(i + 1, line)];
        }
      } else {
        assert !AnyMatch(search, warningPatterns, line);
      }
    }
    assert lines[..|lines|] == lines;
  }

  /** `parse_log_file(path, error_patterns, warning_patterns)` on the lines
      of the file (None when it does not exist). `log` is what it writes to
      the log, in order. */
  method ParseLogFile(path: string, file: Option<seq<string>>, search: Search,
                      errorPatterns: seq<string>, warningPatterns: Option<seq<string>>)
    returns (r: Scan, log: seq<string>)
    ensures file.None? ==> r == Scan(false, 0, 0, [], []) && log == ["Log file not found: " + path]
    ensures file.Some? ==>
      r.errors == Entries(search, errorPatterns, file.value) &&
      r.warnings == Entries(search, WarningPatterns(warningPatterns), file.value) &&
      r.errorCount == |r.errors| && r.warningCount == |r.warnings| &&
      (r.ok <==> r.errorCount == 0)
    ensures file.Some? ==>
      log == ["Scanning log file: " + path]
        + Summary(r.errors, "error", path) + Summary(r.warnings, "warning", path)
        + (if r.errorCount == 0 && r.warningCount == 0
           then ["No critical errors or specified warnings found in " + path + "."] else [])
  {
    if file.None? {
      return Scan(false, 0, 0, [], []), ["Log file not found: " + path];
    }
    var lines := file.value;
    var errors, warnings := ScanLines(search, errorPatterns, WarningPatterns(warningPatterns), lines);
    var errorCount := |errors|;
    var warningCount := |warnings|;
    var checkWarnings := warningPatterns.Some? && warningPatterns.value != [];
    var errorLog: seq<string> := [];
    if errorCount > 0 {
      errorLog := Summary(errors, "error", path);
    } else {
      assert errors == [];
    }
    var warningLog: seq<string> := [];
    if checkWarnings && warningCount > 0 {
      warningLog := Summary(warnings, "warning", path);
    } else {
      if !checkWarnings {
        NoWarningPatterns(search, lines, warningPatterns);
      }
      assert warnings == [];
    }
    var cleanLog: seq<string> := [];
    if errorCount == 0 && warningCount == 0 {
      cleanLog := ["No critical errors or specified warnings found in " + path + "."];
    }
    log := ["Scanning log file: " + path] + errorLog + warningLog + cleanLog;
    r := Scan(errorCount == 0, errorCount, warningCount, errors, warnings);
  }

  /** Without warning patterns no warning is ever counted, and the verdict
      depends on errors alone. */
  lemma NoWarningPatterns(search: Search, lines: seq<string>, warningPatterns: Option<seq<string>>)
    requires warningPatterns.None? || warningPatterns.value == []
    ensures Entries(search, WarningPatterns(warningPatterns), lines) == []
  {
    HitsMeaning(search, WarningPatterns(warningPatterns), lines);
    var hits := Hits(search, WarningPatterns(warningPatterns), lines);
    if hits != [] {
      assert hits[0] in hits;
    }
  }
}
