/** The pure-Python fallback tree printer of admin/tree.py
    (`print_basic_tree`): the ignore filter over `fnmatch` patterns, the
    ordering of a directory's entries (directories before files, then by
    lower-cased name), the `├── `/`└── ` pointers and the prefix each level
    adds. The directory being listed is a value: a tree of entries, each
    directory carrying what listing it does (succeed, fail because it is
    gone, or fail otherwise). */
module Tree {
  import opened Wrappers
  import opened PyStr
  import opened Lists

  /** What `iterdir()` does on a directory: list its entries, raise
      `FileNotFoundError` (caught: logged, nothing printed), or raise any
      other `OSError` such as `PermissionError` (not caught: it leaves every
      enclosing call and ends the printout). */
  datatype Listing = Listable | Missing | Unreadable

  /** An entry of a directory. `Other` is neither a regular file nor a
      directory (a dangling link, say): `is_file()` and `is_dir()` are both
      false for it. */
  datatype Node =
    | File(name: string)
    | Dir(name: string, listing: Listing, children: seq<Node>)
    | Other(name: string)

  /** The lines printed, and whether an exception escaped after them. */
  datatype Printout = Printout(lines: seq<string>, raised: bool)

  const IgnoreList: seq<string> := [
    ".git", "__pycache__", ".pytest_cache", "node_modules", ".virtual_documents",
    ".ipynb_checkpoints", "dist", "build", ".angular", "allure-results",
    "allure-report", ".vscode", "*.pyc", "*.zip"
  ]

  // Globs

  /** `fnmatch.fnmatch(name, pattern)` on a case-sensitive file system, for
      patterns built from literal characters, `*` and `?`. */
  predicate GlobMatch(pattern: string, name: string)
    decreases |pattern| + |name|
  {
    if pattern == [] then name == []
    else if pattern[0] == '*' then
      GlobMatch(pattern[1..], name) || (name != [] && GlobMatch(pattern, name[1..]))
    else
      name != [] && (pattern[0] == '?' || pattern[0] == name[0]) && GlobMatch(pattern[1..], name[1..])
  }

  /** A pattern without wildcards. */
  predicate Literal(pattern: string) {
    forall i :: 0 <= i < |pattern| ==> pattern[i] != '*' && pattern[i] != '?'
  }

  /** A pattern without wildcards matches only itself. */
  lemma {:induction false} GlobLiteral(pattern: string, name: string)
    requires Literal(pattern)
    ensures GlobMatch(pattern, name) <==> name == pattern
    decreases |pattern|
  {
    if pattern != [] && name != [] {
      GlobLiteral(pattern[1..], name[1..]);
      if name == pattern {
        assert name[1..] == pattern[1..];
      }
      if GlobMatch(pattern, name) {
        assert name == [name[0]] + name[1..];
        assert pattern == [pattern[0]] + pattern[1..];
      }
    }
  }

  /** `*` followed by a literal suffix matches exactly the names ending with
      that suffix (`*.pyc`, `*.zip`). */
  lemma {:induction false} GlobStarSuffix(suffix: string, name: string)
    requires Literal(suffix)
    ensures GlobMatch("*" + suffix, name) <==> EndsWith(name, suffix)
    decreases |name|
  {
    var pattern := "*" + suffix;
    assert pattern[1..] == suffix;
    GlobLiteral(suffix, name);
    if name != [] {
      GlobStarSuffix(suffix, name[1..]);
      if |suffix| <= |name[1..]| {
        assert name[1..][|name[1..]| - |suffix|..] == name[|name| - |suffix|..];
      }
    }
  }

  /** The default list hides twelve names exactly and every name ending in
      ".pyc" or ".zip". */
  lemma DefaultIgnores(name: string)
    ensures Ignored(name, IgnoreList) <==>
      name in IgnoreList[..12] || EndsWith(name, ".pyc") || EndsWith(name, ".zip")
  {
    forall i | 0 <= i < 12 ensures GlobMatch(IgnoreList[i], name) <==> name == IgnoreList[i] {
      LiteralNames(i);
      GlobLiteral(IgnoreList[i], name);
    }
    assert IgnoreList[12] == "*" + ".pyc";
    assert IgnoreList[13] == "*" + ".zip";
    GlobStarSuffix(".pyc", name);
    GlobStarSuffix(".zip", name);
    assert name in IgnoreList[..12] <==> exists i :: 0 <= i < 12 && name == IgnoreList[i];
  }

  /** The first twelve default patterns hold no wildcard. */
  lemma LiteralNames(i: nat)
    requires i < 12
    ensures Literal(IgnoreList[i])
  {
    if i < 6 {
      LiteralFirstHalf(i);
    } else {
      LiteralSecondHalf(i);
    }
  }

  lemma LiteralFirstHalf(i: nat)
    requires i < 6
    ensures Literal(IgnoreList[i])
  {
    var p := IgnoreList[i];
    match i
    case 0 => assert p == ".git";
    case 1 => assert p == "__pycache__";
    case 2 => assert p == ".pytest_cache";
    case 3 => assert p == "node_modules";
    case 4 => assert p == ".virtual_documents";
    case 5 => assert p == ".ipynb_checkpoints";
  }

  lemma LiteralSecondHalf(i: nat)
    requires 6 <= i < 12
    ensures Literal(IgnoreList[i])
  {
    var p := IgnoreList[i];
    match i
    case 6 => assert p == "dist";
    case 7 => assert p == "build";
    case 8 => assert p == ".angular";
    case 9 => assert p == "allure-results";
    case 10 => assert p == "allure-report";
    case 11 => assert p == ".vscode";
  }

  /** `any(fnmatch.fnmatch(name, pattern) for pattern in ignore)` */
  predicate Ignored(name: string, ignore: seq<string>) {
    exists i :: 0 <= i < |ignore| && GlobMatch(ignore[i], name)
  }

  function Shown(ignore: seq<string>): Node -> bool {
    (n: Node) => !Ignored(n.name, ignore)
  }

  /** The filtering loop: the entries whose names match no pattern, in
      listing order. */
  method KeepEntries(entries: seq<Node>, ignore: seq<string>) returns (kept: seq<Node>)
    ensures kept == Filter(Shown(ignore), entries)
  {
    kept := [];
    for i := 0 to |entries|
      invariant kept == Filter(Shown(ignore), entries[..i])
    {
      FilterSnoc(Shown(ignore), entries[..i], entries[i]);
      assert entries[..i + 1] == entries[..i] + [entries[i]];
      var isIgnored := Ignored(entries[i].name, ignore);
      if !isIgnored {
        kept := kept + [entries[i]];
      }
    }
    assert entries[..|entries|] == entries;
  }

  /** An entry survives the filter iff no pattern matches its name. */
  lemma KeptEntries(entries: seq<Node>, ignore: seq<string>)
    ensures forall n :: n in Filter(Shown(ignore), entries) <==>
      n in entries && forall i :: 0 <= i < |ignore| ==> !GlobMatch(ignore[i], n.name)
  {
    FilterElems(Shown(ignore), entries);
    forall n | n in entries ensures n in Filter(Shown(ignore), entries) <==> Shown(ignore)(n) {
      FilterMember(Shown(ignore), entries, n);
    }
  }

  // Ordering

  /** Python's `<=` on strings: code point by code point. */
  predicate LexLe(a: string, b: string)
    decreases |a|
  {
    a == [] || (b != [] && (a[0] < b[0] || (a[0] == b[0] && LexLe(a[1..], b[1..]))))
  }

  lemma {:induction false} LexTotal(a: string, b: string)
    ensures LexLe(a, b) || LexLe(b, a)
    decreases |a|
  {
    if a != [] && b != [] && a[0] == b[0] {
      LexTotal(a[1..], b[1..]);
    }
  }

  /** The sort key `(p.is_file(), p.name.lower())`. */
  function SortKey(n: Node): (bool, string) {
    (n.File?, Lower(n.name))
  }

  /** Tuples compare field by field, and `False < True`. */
  predicate KeyLe(a: (bool, string), b: (bool, string)) {
    (!a.0 && b.0) || (a.0 == b.0 && LexLe(a.1, b.1))
  }

  lemma KeyTotal(a: (bool, string), b: (bool, string))
    ensures KeyLe(a, b) || KeyLe(b, a)
  {
    LexTotal(a.1, b.1);
  }

  /** `x` goes before the first entry whose key is not smaller. */
  function Insert(x: Node, ys: seq<Node>): (r: seq<Node>)
    ensures multiset(r) == multiset(ys) + multiset{x}
    ensures |r| == |ys| + 1
  {
    if ys == [] then [x]
    else if KeyLe(SortKey(x), SortKey(ys[0])) then [x] + ys
    else
      assert ys == [ys[0]] + ys[1..];
      [ys[0]] + Insert(x, ys[1..])
  }

  /** `sorted(entries, key=lambda p: (p.is_file(), p.name.lower()))` */
  function SortEntries(xs: seq<Node>): (r: seq<Node>)
    ensures multiset(r) == multiset(xs)
    ensures |r| == |xs|
  {
    if xs == [] then []
    else
      assert xs == [xs[0]] + xs[1..];
      Insert(xs[0], SortEntries(xs[1..]))
  }

  predicate Sorted(xs: seq<Node>) {
    forall i :: 0 <= i < |xs| - 1 ==> KeyLe(SortKey(xs[i]), SortKey(xs[i + 1]))
  }

  lemma {:induction false} InsertSorted(x: Node, ys: seq<Node>)
    requires Sorted(ys)
    ensures Sorted(Insert(x, ys))
    decreases |ys|
  {
    if ys != [] && !KeyLe(SortKey(x), SortKey(ys[0])) {
      KeyTotal(SortKey(x), SortKey(ys[0]));
      InsertSorted(x, ys[1..]);
      var rest := Insert(x, ys[1..]);
      assert rest[0] == x || (|ys| > 1 && rest[0] == ys[1]) by {
        if |ys| > 1 && !KeyLe(SortKey(x), SortKey(ys[1])) {
          assert rest == [ys[1]] + Insert(x, ys[2..]) by {
            assert ys[1..][0] == ys[1] && ys[1..][1..] == ys[2..];
          }
        }
      }
    }
  }

  /** The entries come out in key order... */
  lemma {:induction false} SortSorted(xs: seq<Node>)
    ensures Sorted(SortEntries(xs))
    decreases |xs|
  {
    if xs != [] {
      SortSorted(xs[1..]);
      InsertSorted(xs[0], SortEntries(xs[1..]));
    }
  }

  function SameKey(k: (bool, string)): Node -> bool {
    (n: Node) => SortKey(n) == k
  }

  /** ...and entries with equal keys keep their listing order: inserting
      `x` puts it before every entry with the same key. */
  lemma {:induction false} InsertStable(x: Node, ys: seq<Node>, k: (bool, string))
    ensures Filter(SameKey(k), Insert(x, ys)) ==
      (if SortKey(x) == k then [x] else []) + Filter(SameKey(k), ys)
    decreases |ys|
  {
    var same := SameKey(k);
    var fx: seq<Node> := if SortKey(x) == k then [x] else [];
    if ys == [] || KeyLe(SortKey(x), SortKey(ys[0])) {
      assert Insert(x, ys) == [x] + ys;
      FilterCons(same, x, ys);
      assert Filter(same, Insert(x, ys)) == fx + Filter(same, ys);
    } else {
      var rest := ys[1..];
      var f0: seq<Node> := if same(ys[0]) then [ys[0]] else [];
      assert ys == [ys[0]] + rest;
      assert Insert(x, ys) == [ys[0]] + Insert(x, rest);
      InsertStable(x, rest, k);
      FilterCons(same, ys[0], Insert(x, rest));
      FilterCons(same, ys[0], rest);
      assert Filter(same, Insert(x, ys)) == f0 + (fx + Filter(same, rest));
      assert fx + Filter(same, ys) == fx + (f0 + Filter(same, rest));
      if SortKey(ys[0]) == SortKey(x) {
        LexRefl(SortKey(x).1);
        assert false;
      }
      SwapEmpty(f0, fx, Filter(same, rest));
    }
  }

  lemma SwapEmpty<T>(a: seq<T>, b: seq<T>, c: seq<T>)
    requires a == [] || b == []
    ensures a + (b + c) == b + (a + c)
  {
  }

  lemma {:induction false} LexRefl(a: string)
    ensures LexLe(a, a)
    decreases |a|
  {
    if a != [] {
      LexRefl(a[1..]);
    }
  }

  /** Sorting is stable: the entries of each key appear in listing order. */
  lemma {:induction false} SortStable(xs: seq<Node>, k: (bool, string))
    ensures Filter(SameKey(k), SortEntries(xs)) == Filter(SameKey(k), xs)
    decreases |xs|
  {
    if xs != [] {
      SortStable(xs[1..], k);
      InsertStable(xs[0], SortEntries(xs[1..]), k);
      FilterCons(SameKey(k), xs[0], xs[1..]);
      assert xs == [xs[0]] + xs[1..];
    }
  }

  // Printing

  const Tee: string := "\U{251C}\U{2500}\U{2500} "
  const Last: string := "\U{2514}\U{2500}\U{2500} "

  /** `["├── "] * (n - 1) + ["└── "]`: for a non-empty directory, one
      pointer per entry, the last one different. */
  function Pointers(n: nat): (r: seq<string>)
    ensures |r| == if n == 0 then 1 else n
    ensures forall i :: 0 <= i < |r| ==> r[i] == (if i == |r| - 1 then Last else Tee)
  {
    seq(if n == 0 then 0 else n - 1, _ => Tee) + [Last]
  }

  /** What the prefix grows by below an entry. */
  function Extension(pointer: string): string {
    if pointer == Last then "    " else "\U{2502}   "
  }

  /** The printed line of an entry: a "/" marks a directory. */
  function EntryLine(prefix: string, pointer: string, n: Node): string {
    prefix + pointer + n.name + (if n.Dir? then "/" else "")
  }

  /** The entries of `d` to print, in printing order: exactly the entries
      no pattern matches. */
  function Listed(d: Node, ignore: seq<string>): (r: seq<Node>)
    requires d.Dir?
    ensures forall n :: n in r <==> n in d.children && !Ignored(n.name, ignore)
  {
    var kept := Filter(Shown(ignore), d.children);
    KeptEntries(d.children, ignore);
    var r := SortEntries(kept);
    assert forall n :: n in r <==> n in multiset(kept);
    r
  }

  /** What `print_basic_tree(d, prefix, ignore)` prints. A directory that is
      gone prints nothing (the error goes to the log); one that cannot be
      listed for another reason raises. */
  function TreeLines(d: Node, prefix: string, ignore: seq<string>): Printout
    requires d.Dir?
    decreases d, 1
  {
    match d.listing
    case Missing => Printout([], false)
    case Unreadable => Printout([], true)
    case Listable => EntryLines(Listed(d, ignore), 0, prefix, ignore, d)
  }

  /** The output of the entries `paths[i..]` of the directory `parent`: each
      entry's line, then, for a directory, its own tree one level deeper; an
      exception from that tree ends the loop. */
  function EntryLines(paths: seq<Node>, i: nat, prefix: string, ignore: seq<string>, ghost parent: Node): Printout
    requires parent.Dir? && i <= |paths|
    requires forall n :: n in paths ==> n in parent.children
    decreases parent, 0, |paths| - i
  {
    if i == |paths| then Printout([], false)
    else
      var pointer := Pointers(|paths|)[i];
      var node := paths[i];
      assert node in parent.children;
      var below := if node.Dir? then TreeLines(node, prefix + Extension(pointer), ignore) else Printout([], false);
      if below.raised then Printout([EntryLine(prefix, pointer, node)] + below.lines, true)
      else
        var rest := EntryLines(paths, i + 1, prefix, ignore, parent);
        Printout([EntryLine(prefix, pointer, node)] + below.lines + rest.lines, rest.raised)
  }

  /** `print_basic_tree(directory, prefix, ignore_list)`: the module's
      ignore list when none is given. */
  function PrintBasicTree(directory: Node, prefix: string, ignore: Option<seq<string>>): (r: Printout)
    requires directory.Dir?
    ensures r.raised <==> !Sound(directory, ignore.GetOr(IgnoreList))
    ensures forall line :: line in r.lines ==> StartsWith(line, prefix)
    ensures !r.raised ==> |r.lines| == Visible(directory, ignore.GetOr(IgnoreList))
  {
    var patterns := ignore.GetOr(IgnoreList);
    TreeLinesRaise(directory, prefix, patterns);
    TreeLinesPrefix(directory, prefix, patterns);
    TreeLinesCount(directory, prefix, patterns);
    TreeLines(directory, prefix, patterns)
  }

  /** Every printed line starts with the prefix it was given... */
  lemma {:induction false} TreeLinesPrefix(d: Node, prefix: string, ignore: seq<string>)
    requires d.Dir?
    ensures forall line :: line in TreeLines(d, prefix, ignore).lines ==> StartsWith(line, prefix)
    decreases d, 1
  {
    if d.listing.Listable? {
      EntryLinesPrefix(Listed(d, ignore), 0, prefix, ignore, d);
    }
  }

  lemma {:induction false} EntryLinesPrefix(paths: seq<Node>, i: nat, prefix: string, ignore: seq<string>, parent: Node)
    requires parent.Dir? && i <= |paths|
    requires forall n :: n in paths ==> n in parent.children
    ensures forall line :: line in EntryLines(paths, i, prefix, ignore, parent).lines ==> StartsWith(line, prefix)
    decreases parent, 0, |paths| - i
  {
    if i < |paths| {
      var pointer := Pointers(|paths|)[i];
      var node := paths[i];
      assert node in parent.children;
      var first := EntryLine(prefix, pointer, node);
      assert first == prefix + (pointer + node.name + (if node.Dir? then "/" else ""));
      var below := if node.Dir? then TreeLines(node, prefix + Extension(pointer), ignore) else Printout([], false);
      if node.Dir? {
        TreeLinesPrefix(node, prefix + Extension(pointer), ignore);
        forall line | line in below.lines ensures StartsWith(line, prefix) {
          assert line[..|prefix|] == line[..|prefix + Extension(pointer)|][..|prefix|];
        }
      }
      if !below.raised {
        EntryLinesPrefix(paths, i + 1, prefix, ignore, parent);
      }
    }
  }

  /** ...a directory prints nothing exactly when it is gone or cannot be
      listed, or all its entries are ignored (an empty directory
      included)... */
  lemma NothingPrinted(d: Node, prefix: string, ignore: seq<string>)
    requires d.Dir?
    ensures TreeLines(d, prefix, ignore).lines == [] <==>
      !d.listing.Listable? || forall n :: n in d.children ==> Ignored(n.name, ignore)
  {
    if d.listing.Listable? {
      var paths := Listed(d, ignore);
      if paths != [] {
        assert paths[0] in paths;
      }
    }
  }

  /** A directory whose printout runs to the end: it is gone, or it can be
      listed and so can every shown directory below it that still exists. */
  predicate Sound(d: Node, ignore: seq<string>)
    decreases d
  {
    d.Dir? ==>
      match d.listing
      case Missing => true
      case Unreadable => false
      case Listable => forall c :: c in d.children && !Ignored(c.name, ignore) ==> Sound(c, ignore)
  }

  /** ...the printout is cut short by an exception exactly when some shown
      directory below (or the directory itself) cannot be listed for a
      reason other than being gone... */
  lemma {:induction false} TreeLinesRaise(d: Node, prefix: string, ignore: seq<string>)
    requires d.Dir?
    ensures TreeLines(d, prefix, ignore).raised <==> !Sound(d, ignore)
    decreases d, 1
  {
    if d.listing.Listable? {
      var paths := Listed(d, ignore);
      EntryLinesRaise(paths, 0, prefix, ignore, d);
      assert forall c :: c in paths <==> exists j :: 0 <= j < |paths| && paths[j] == c;
    }
  }

  lemma {:induction false} EntryLinesRaise(paths: seq<Node>, i: nat, prefix: string, ignore: seq<string>, parent: Node)
    requires parent.Dir? && i <= |paths|
    requires forall n :: n in paths ==> n in parent.children
    ensures EntryLines(paths, i, prefix, ignore, parent).raised <==>
      exists j :: i <= j < |paths| && !Sound(paths[j], ignore)
    decreases parent, 0, |paths| - i
  {
    if i < |paths| {
      var pointer := Pointers(|paths|)[i];
      var node := paths[i];
      assert node in parent.children;
      var below := if node.Dir? then TreeLines(node, prefix + Extension(pointer), ignore) else Printout([], false);
      if node.Dir? {
        TreeLinesRaise(node, prefix + Extension(pointer), ignore);
      }
      assert below.raised <==> !Sound(node, ignore);
      EntryLinesRaise(paths, i + 1, prefix, ignore, parent);
      if !Sound(node, ignore) {
        assert i <= i < |paths| && !Sound(paths[i], ignore);
      } else {
        forall j | i <= j < |paths| && !Sound(paths[j], ignore) ensures i + 1 <= j {
        }
      }
    }
  }

  /** The number of entries below `d` that are shown: every entry whose name
      no pattern matches, and, below a shown directory, its own shown
      entries. */
  function Visible(d: Node, ignore: seq<string>): nat
    decreases d, 1
  {
    if d.Dir? && d.listing.Listable? then VisibleFrom(d, 0, ignore) else 0
  }

  function VisibleFrom(d: Node, i: nat, ignore: seq<string>): nat
    requires d.Dir? && i <= |d.children|
    decreases d, 0, |d.children| - i
  {
    if i == |d.children| then 0
    else
      var c := d.children[i];
      (if Ignored(c.name, ignore) then 0 else 1 + Visible(c, ignore)) + VisibleFrom(d, i + 1, ignore)
  }

  /** The lines an entry accounts for. */
  function Weight(ignore: seq<string>): Node -> nat {
    (c: Node) => if Ignored(c.name, ignore) then 0 else 1 + Visible(c, ignore)
  }

  function SumOf(w: Node -> nat, xs: seq<Node>): nat
    decreases |xs|
  {
    if xs == [] then 0 else w(xs[0]) + SumOf(w, xs[1..])
  }

  lemma {:induction false} SumAppend(w: Node -> nat, xs: seq<Node>, ys: seq<Node>)
    ensures SumOf(w, xs + ys) == SumOf(w, xs) + SumOf(w, ys)
    decreases |xs|
  {
    if xs == [] {
      assert xs + ys == ys;
    } else {
      assert (xs + ys)[1..] == xs[1..] + ys;
      SumAppend(w, xs[1..], ys);
    }
  }

  lemma {:induction false} SumInsert(w: Node -> nat, x: Node, ys: seq<Node>)
    ensures SumOf(w, Insert(x, ys)) == w(x) + SumOf(w, ys)
    decreases |ys|
  {
    if ys != [] && !KeyLe(SortKey(x), SortKey(ys[0])) {
      SumInsert(w, x, ys[1..]);
      assert Insert(x, ys)[1..] == Insert(x, ys[1..]);
    }
  }

  lemma {:induction false} SumSort(w: Node -> nat, xs: seq<Node>)
    ensures SumOf(w, SortEntries(xs)) == SumOf(w, xs)
    decreases |xs|
  {
    if xs != [] {
      SumSort(w, xs[1..]);
      SumInsert(w, xs[0], SortEntries(xs[1..]));
    }
  }

  /** Dropping entries of weight zero keeps the sum. */
  lemma {:induction false} SumFilter(w: Node -> nat, keep: Node -> bool, xs: seq<Node>)
    requires forall x :: !keep(x) ==> w(x) == 0
    ensures SumOf(w, Filter(keep, xs)) == SumOf(w, xs)
    decreases |xs|
  {
    if xs != [] {
      var init := xs[..|xs| - 1];
      var last := xs[|xs| - 1];
      SumFilter(w, keep, init);
      assert xs == init + [last];
      SumAppend(w, init, [last]);
      SumAppend(w, Filter(keep, init), if keep(last) then [last] else []);
    }
  }

  lemma {:induction false} VisibleFromSum(d: Node, i: nat, ignore: seq<string>)
    requires d.Dir? && i <= |d.children|
    ensures VisibleFrom(d, i, ignore) == SumOf(Weight(ignore), d.children[i..])
    decreases |d.children| - i
  {
    if i < |d.children| {
      VisibleFromSum(d, i + 1, ignore);
      assert d.children[i..][1..] == d.children[i + 1..];
    }
  }

  /** ...and a printout that runs to the end gives every shown entry below
      the directory exactly one line: one per shown entry, recursing into
      directories only. */
  lemma {:induction false} TreeLinesCount(d: Node, prefix: string, ignore: seq<string>)
    requires d.Dir?
    ensures !TreeLines(d, prefix, ignore).raised ==> |TreeLines(d, prefix, ignore).lines| == Visible(d, ignore)
    decreases d, 1
  {
    if d.listing.Listable? {
      var w := Weight(ignore);
      var kept := Filter(Shown(ignore), d.children);
      var paths := Listed(d, ignore);
      EntryLinesCount(paths, 0, prefix, ignore, d);
      assert paths[0..] == paths;
      SumSort(w, kept);
      SumFilter(w, Shown(ignore), d.children);
      VisibleFromSum(d, 0, ignore);
      assert d.children[0..] == d.children;
    }
  }

  lemma {:induction false} EntryLinesCount(paths: seq<Node>, i: nat, prefix: string, ignore: seq<string>, parent: Node)
    requires parent.Dir? && i <= |paths|
    requires forall n :: n in paths ==> n in parent.children && !Ignored(n.name, ignore)
    ensures !EntryLines(paths, i, prefix, ignore, parent).raised ==>
      |EntryLines(paths, i, prefix, ignore, parent).lines| == SumOf(Weight(ignore), paths[i..])
    decreases parent, 0, |paths| - i
  {
    if i < |paths| {
      var pointer := Pointers(|paths|)[i];
      var node := paths[i];
      assert node in parent.children;
      if node.Dir? {
        TreeLinesCount(node, prefix + Extension(pointer), ignore);
      }
      EntryLinesCount(paths, i + 1, prefix, ignore, parent);
      assert paths[i..][1..] == paths[i + 1..];
    }
  }

  /** A directory whose listing shows an unreadable directory `a` first
      and another entry `b` after it (for example an unreadable `a/` and a
      readable `b/`): the line for `a/` is printed, then the exception ends
      the printout before `b`. */
  lemma UnreadableStopsSiblings(name: string, a: Node, b: Node)
    requires a.Dir? && a.listing.Unreadable?
    requires KeyLe(SortKey(a), SortKey(b))
    ensures TreeLines(Dir(name, Listable, [a, b]), "", []) == Printout([Tee + a.name + "/"], true)
  {
    var root := Dir(name, Listable, [a, b]);
    ListedInOrder(root, a, b);
    var shown := Listed(root, []);
    assert shown == [a, b];
    RootFirstRaises(root, "", []);
    var pointer := Pointers(|shown|)[0];
    assert pointer == Tee;
    assert "" + pointer == pointer;
  }

  /** A directory whose first shown entry cannot be listed prints that
      entry's line and raises. */
  lemma RootFirstRaises(root: Node, prefix: string, ignore: seq<string>)
    requires root.Dir? && root.listing.Listable?
    requires Listed(root, ignore) != [] && Listed(root, ignore)[0].Dir? && Listed(root, ignore)[0].listing.Unreadable?
    ensures TreeLines(root, prefix, ignore) ==
      Printout([EntryLine(prefix, Pointers(|Listed(root, ignore)|)[0], Listed(root, ignore)[0])], true)
  {
    var paths := Listed(root, ignore);
    assert TreeLines(root, prefix, ignore) == EntryLines(paths, 0, prefix, ignore, root);
    FirstRaises(paths, prefix, ignore, root);
  }

  /** With nothing ignored, entries already in key order are listed as
      they are. */
  lemma ListedInOrder(root: Node, a: Node, b: Node)
    requires root.Dir? && root.children == [a, b] && KeyLe(SortKey(a), SortKey(b))
    ensures Listed(root, []) == [a, b]
  {
    assert !Ignored(a.name, []) && !Ignored(b.name, []);
    assert Filter(Shown([]), [a, b]) == [a, b] by {
      assert [a, b][..1] == [a] && [a][..0] == [];
    }
    assert [a, b][1..] == [b];
    assert SortEntries([b]) == [b];
    assert Insert(a, [b]) == [a, b];
  }

  /** An unreadable first entry ends the listing right after its own
      line. */
  lemma FirstRaises(paths: seq<Node>, prefix: string, ignore: seq<string>, parent: Node)
    requires parent.Dir? && paths != [] && forall n :: n in paths ==> n in parent.children
    requires paths[0].Dir? && paths[0].listing.Unreadable?
    ensures EntryLines(paths, 0, prefix, ignore, parent) ==
      Printout([EntryLine(prefix, Pointers(|paths|)[0], paths[0])], true)
  {
    assert paths[0] in parent.children;
    var below := TreeLines(paths[0], prefix + Extension(Pointers(|paths|)[0]), ignore);
    assert below == Printout([], true);
    assert [EntryLine(prefix, Pointers(|paths|)[0], paths[0])] + below.lines == [EntryLine(prefix, Pointers(|paths|)[0], paths[0])];
  }
}
