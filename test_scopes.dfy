/** Test-scope selection of the pytest hooks in conftest.py: the scope table
    built at import time, the per-item scope and implementation predicates,
    and the collection hook that splits the collected items into selected and
    deselected ones and narrows pytest's item list in place.

    Paths are strings; `os.path.normcase` is taken as on POSIX, where it
    returns its argument unchanged, and `pathlib`'s `/` joins with "/". */
module TestScopes {
  import opened Wrappers
  import opened PyStr
  import Config

  import opened Lists

  /** The directories config/config.py derives from the project root. */
  datatype Layout = Layout(root: string, presentationDir: string, businessDir: string,
                           dataDir: string, validationDir: string)

  function PathJoin(dir: string, name: string): string {
    dir + "/" + name
  }

  function PresentationTests(l: Layout): string {
    PathJoin(l.presentationDir, "tests")
  }

  /** A scope's path whitelist; None is the ROOT scope's "no restriction". */
  type Whitelist = Option<seq<string>>

  /** STATIC_SCOPES_CONFIG updated with PERSONA_SCOPES_CONFIG. */
  function BaseScopes(l: Layout): map<string, Whitelist> {
    var tests := PresentationTests(l);
    map[
      "ROOT" := None,
      "SYSTEM" := Some([PathJoin(l.root, "tests")]),
      "PRESENTATION" := Some([tests]),
      "DESIGNER_COMPILE" := Some([PathJoin(tests, "test_designer.py")]),
      "CONSTRUCTOR_BLUEPRINTS" := Some([tests]),
      "PERSONA_CRITIQUES" := Some([tests]),
      "BUSINESS" := Some([PathJoin(l.businessDir, "tests")]),
      "DATA" := Some([PathJoin(l.dataDir, "tests")]),
      "VALIDATION" := Some([PathJoin(l.validationDir, "tests")]),
      "REGRESSION_FULL_LIFECYCLE" := Some([tests]),
      "ARCHITECT" := Some([PathJoin(tests, "test_architect.py")]),
      "CONTRACTOR" := Some([PathJoin(tests, "test_contractor.py")]),
      "DESIGNER" := Some([PathJoin(tests, "test_designer.py")]),
      "QA_ENGINEER" := Some([PathJoin(tests, "test_qa_engineer.py")]),
      "CONSTRUCTOR" := Some([tests]),
      "OBSERVER" := Some([tests])
    ]
  }

  /** PLATFORM_SCOPE_EXTRAS.get(platform, []) */
  function PlatformExtras(l: Layout, platform: string): seq<string> {
    if platform == "flask" then [PathJoin(PresentationTests(l), "test_brand_routes.py")] else []
  }

  /** The scope a presentation platform gets. */
  function ScopeName(platform: string): string {
    Upper(platform) + "_PRESENTATION"
  }

  /** Its paths: the platform's primary test file, then the declared extras. */
  function PlatformPaths(l: Layout, platform: string): seq<string> {
    [PathJoin(PresentationTests(l), "test_" + platform + "_app.py")] + PlatformExtras(l, platform)
  }

  /** The platform loop of `_build_dynamic_scopes`, applied to `scopes`:
      each platform in turn sets its scope (a later one wins). */
  function AddPlatforms(scopes: map<string, Whitelist>, l: Layout, platforms: seq<string>): map<string, Whitelist>
    decreases |platforms|
  {
    if platforms == [] then scopes
    else AddPlatforms(scopes[ScopeName(platforms[0]) := Some(PlatformPaths(l, platforms[0]))], l, platforms[1..])
  }

  /** `_build_dynamic_scopes`, for the given list of presentation platforms. */
  method BuildDynamicScopes(l: Layout, platforms: seq<string>) returns (scopes: map<string, Whitelist>)
    ensures scopes == AddPlatforms(BaseScopes(l), l, platforms)
  {
    scopes := BaseScopes(l);
    var i := 0;
    while i < |platforms|
      invariant 0 <= i <= |platforms|
      invariant AddPlatforms(scopes, l, platforms[i..]) == AddPlatforms(BaseScopes(l), l, platforms)
    {
      assert platforms[i..][1..] == platforms[i + 1..];
      scopes := scopes[ScopeName(platforms[i]) := Some(PlatformPaths(l, platforms[i]))];
      i := i + 1;
    }
  }

  /** SCOPES, the table the hook uses: the configured presentation apps. */
  function Scopes(l: Layout): map<string, Whitelist> {
    AddPlatforms(BaseScopes(l), l, Config.PresentationAppKeys)
  }

  /** No platform scope name is one of the static or persona scope names,
      since every platform scope name ends in "_PRESENTATION". */
  lemma PlatformNameIsNew(l: Layout, platform: string)
    ensures ScopeName(platform) !in BaseScopes(l)
  {
    var n := ScopeName(platform);
    assert EndsWith(n, "_PRESENTATION");
    assert !EndsWith("PRESENTATION", "_PRESENTATION");
  }

  /** Platform keys are the only keys the loop adds, and the entries it
      does not name stay as they were. */
  lemma {:induction false} AddPlatformsKeeps(scopes: map<string, Whitelist>, l: Layout, platforms: seq<string>, k: string)
    requires forall p :: p in platforms ==> ScopeName(p) != k
    ensures k in AddPlatforms(scopes, l, platforms) <==> k in scopes
    ensures k in scopes ==> AddPlatforms(scopes, l, platforms)[k] == scopes[k]
    decreases |platforms|
  {
    if platforms != [] {
      AddPlatformsKeeps(scopes[ScopeName(platforms[0]) := Some(PlatformPaths(l, platforms[0]))], l, platforms[1..], k);
    }
  }

  /** A platform whose scope name no later platform shares keeps its own
      whitelist: its primary test file followed by its extras. */
  lemma {:induction false} AddPlatformsSets(scopes: map<string, Whitelist>, l: Layout, platforms: seq<string>, i: nat)
    requires i < |platforms|
    requires forall j :: i < j < |platforms| ==> ScopeName(platforms[j]) != ScopeName(platforms[i])
    ensures ScopeName(platforms[i]) in AddPlatforms(scopes, l, platforms)
    ensures AddPlatforms(scopes, l, platforms)[ScopeName(platforms[i])] == Some(PlatformPaths(l, platforms[i]))
    decreases |platforms|
  {
    var next := scopes[ScopeName(platforms[0]) := Some(PlatformPaths(l, platforms[0]))];
    if i == 0 {
      forall p | p in platforms[1..] ensures ScopeName(p) != ScopeName(platforms[0]) {
        var j :| 0 <= j < |platforms[1..]| && platforms[1..][j] == p;
        assert platforms[j + 1] == p;
      }
      AddPlatformsKeeps(next, l, platforms[1..], ScopeName(platforms[0]));
    } else {
      AddPlatformsSets(next, l, platforms[1..], i - 1);
    }
  }

  /** A scope name begins with its platform's initial, upper-cased. */
  lemma ScopeNameInitial(platform: string)
    requires platform != []
    ensures ScopeName(platform)[0] == UpperChar(platform[0])
  {
  }

  /** The configured platform keys differ already in their first letter, so
      their scope names are pairwise distinct. */
  lemma AppScopeNamesDistinct()
    ensures forall i, j :: 0 <= i < j < |Config.PresentationAppKeys| ==>
      ScopeName(Config.PresentationAppKeys[i]) != ScopeName(Config.PresentationAppKeys[j])
  {
    var ps := Config.PresentationAppKeys;
    Config.AppKeysInitials();
    forall i, j | 0 <= i < j < |ps| ensures ScopeName(ps[i]) != ScopeName(ps[j]) {
      ScopeNameInitial(ps[i]);
      ScopeNameInitial(ps[j]);
      UpperCharDistinct(ps[i][0], ps[j][0]);
    }
  }

  lemma UpperCharDistinct(a: char, b: char)
    requires IsAsciiLower(a) && IsAsciiLower(b) && a != b
    ensures UpperChar(a) != UpperChar(b)
  {
  }

  /** Every configured platform has its `<PLATFORM>_PRESENTATION` scope whose
      whitelist is its primary test file followed by its extras, and every
      static or persona scope keeps its declared whitelist. */
  lemma ScopesTable(l: Layout)
    ensures forall k :: k in BaseScopes(l) ==> k in Scopes(l) && Scopes(l)[k] == BaseScopes(l)[k]
    ensures forall p :: p in Config.PresentationAppKeys ==>
      ScopeName(p) in Scopes(l) && Scopes(l)[ScopeName(p)] == Some(PlatformPaths(l, p))
  {
    forall k | k in BaseScopes(l) ensures k in Scopes(l) && Scopes(l)[k] == BaseScopes(l)[k] {
      BaseScopeKept(l, k);
    }
    AppScopeNamesDistinct();
    forall p | p in Config.PresentationAppKeys
      ensures ScopeName(p) in Scopes(l) && Scopes(l)[ScopeName(p)] == Some(PlatformPaths(l, p))
    {
      PlatformScopeSet(l, p);
    }
  }

  lemma BaseScopeKept(l: Layout, k: string)
    requires k in BaseScopes(l)
    ensures k in Scopes(l) && Scopes(l)[k] == BaseScopes(l)[k]
  {
    var ps := Config.PresentationAppKeys;
    forall p | p in ps ensures ScopeName(p) != k {
      PlatformNameIsNew(l, p);
    }
    AddPlatformsKeeps(BaseScopes(l), l, ps, k);
  }

  lemma PlatformScopeSet(l: Layout, p: string)
    requires p in Config.PresentationAppKeys
    requires forall i, j :: 0 <= i < j < |Config.PresentationAppKeys| ==>
      ScopeName(Config.PresentationAppKeys[i]) != ScopeName(Config.PresentationAppKeys[j])
    ensures ScopeName(p) in Scopes(l) && Scopes(l)[ScopeName(p)] == Some(PlatformPaths(l, p))
  {
    var ps := Config.PresentationAppKeys;
    var i :| 0 <= i < |ps| && ps[i] == p;
    AddPlatformsSets(BaseScopes(l), l, ps, i);
  }

  /** Only flask declares an extra test file. */
  lemma FlaskExtras(l: Layout, platform: string)
    ensures |PlatformPaths(l, platform)| == (if platform == "flask" then 2 else 1)
    ensures PlatformPaths(l, platform)[0] == PathJoin(PresentationTests(l), "test_" + platform + "_app.py")
  {
  }

  /** A collected pytest item: its path and its node id. */
  datatype TestItem = TestItem(path: string, nodeId: string)

  /** `Path(p).name`: the text after the last "/". */
  function BaseName(p: string): (r: string)
    ensures '/' !in r
    ensures EndsWith(p, r)
    ensures |r| < |p| ==> p[|p| - |r| - 1] == '/'
    decreases |p|
  {
    if p == [] || p[|p| - 1] == '/' then []
    else
      var init := p[..|p| - 1];
      var r := BaseName(init);
      assert p == init + [p[|p| - 1]];
      assert p[|p| - |r| - 1..] == init[|init| - |r|..] + [p[|p| - 1]];
      r + [p[|p| - 1]]
  }

  function Name(item: TestItem): string {
    BaseName(item.path)
  }

  /** The persona test files OBSERVER and PERSONA_CRITIQUES accept. */
  const PersonaTestFiles: seq<string> := ["test_architect.py", "test_contractor.py", "test_designer.py", "test_qa_engineer.py"]

  /** REGRESSION_FULL_LIFECYCLE's list: the same files in workflow order. */
  const OrderedTestFiles: seq<string> := ["test_architect.py", "test_designer.py", "test_contractor.py", "test_qa_engineer.py"]

  /** Some whitelisted path is a prefix of the item's path. */
  predicate UnderSomePrefix(path: string, prefixes: seq<string>) {
    exists p :: p in prefixes && StartsWith(path, p)
  }

  /** `_is_in_scope(item, scope, whitelisted_paths)` */
  predicate IsInScope(item: TestItem, scope: string, whitelist: Whitelist) {
    if whitelist.Some? && |whitelist.value| > 0 && !UnderSomePrefix(item.path, whitelist.value) then false
    else if scope == "DESIGNER_COMPILE" then Contains(item.nodeId, "DESIGNER-compile-scss")
    else if scope == "CONSTRUCTOR_BLUEPRINTS" then Contains(item.path, "test_constructor_")
    else if scope == "CONSTRUCTOR" then Contains(Name(item), "test_constructor_")
    else if scope == "OBSERVER" then Name(item) in PersonaTestFiles || Contains(Name(item), "test_constructor_")
    else if scope == "PERSONA_CRITIQUES" then Name(item) in PersonaTestFiles || Contains(Name(item), "test_constructor_")
    else if scope == "REGRESSION_FULL_LIFECYCLE" then Name(item) in OrderedTestFiles || Contains(Name(item), "test_constructor_")
    else true
  }

  /** With a non-empty whitelist, a path under none of its prefixes is out
      of scope whatever the scope; with no whitelist the path is not looked
      at, and a scope without a special filter then accepts everything. */
  lemma PathCheck(item: TestItem, scope: string, whitelist: Whitelist)
    ensures whitelist.Some? && |whitelist.value| > 0 && !UnderSomePrefix(item.path, whitelist.value)
      ==> !IsInScope(item, scope, whitelist)
    ensures (whitelist.None? || whitelist == Some([])) && scope !in SpecialScopes ==> IsInScope(item, scope, whitelist)
  {
  }

  /** The scopes that filter by name after the path check. */
  const SpecialScopes: set<string> := {"DESIGNER_COMPILE", "CONSTRUCTOR_BLUEPRINTS", "CONSTRUCTOR",
                                        "OBSERVER", "PERSONA_CRITIQUES", "REGRESSION_FULL_LIFECYCLE"}

  /** The persona-critique scopes accept exactly the four persona test files
      and the constructor test files (once past the path check); the
      lifecycle scope lists the same four files in another order. */
  lemma PersonaScopes(item: TestItem, scope: string, whitelist: Whitelist)
    requires scope == "OBSERVER" || scope == "PERSONA_CRITIQUES" || scope == "REGRESSION_FULL_LIFECYCLE"
    requires whitelist.None? || UnderSomePrefix(item.path, whitelist.value)
    ensures IsInScope(item, scope, whitelist) <==>
      Name(item) in PersonaTestFiles || Contains(Name(item), "test_constructor_")
  {
    assert forall f :: f in OrderedTestFiles <==> f in PersonaTestFiles;
  }

  /** The map from a test file to the implementation directory it needs. */
  function ImplementationMap(l: Layout): map<string, string> {
    var tests := PresentationTests(l);
    map[
      PathJoin(tests, "test_angular_app.py") := PathJoin(l.presentationDir, "angular_app"),
      PathJoin(tests, "test_react_app.py") := PathJoin(l.presentationDir, "react_app"),
      PathJoin(tests, "test_vue_app.py") := PathJoin(l.presentationDir, "vue_app")
    ]
  }

  /** `_implementation_exists`: an item outside the map always passes; an item
      in it passes iff its directory exists (`existing` holds the paths that
      exist on disk). */
  predicate ImplementationExists(item: TestItem, implMap: map<string, string>, existing: set<string>) {
    item.path in implMap ==> implMap[item.path] in existing
  }

  /** What the collection hook decides an item by. */
  datatype Selection = Selection(scope: string, whitelist: Whitelist, implMap: map<string, string>, existing: set<string>)

  predicate Selects(sel: Selection, item: TestItem) {
    IsInScope(item, sel.scope, sel.whitelist) && ImplementationExists(item, sel.implMap, sel.existing)
  }

  function SelectsFn(sel: Selection): TestItem -> bool {
    item => Selects(sel, item)
  }

  /** The selection loop of `pytest_collection_modifyitems`: the selected
      and the deselected items, each in collection order. */
  method Partition(sel: Selection, items: seq<TestItem>) returns (selected: seq<TestItem>, deselected: seq<TestItem>)
    ensures selected == Filter(SelectsFn(sel), items)
    ensures deselected == Reject(SelectsFn(sel), items)
  {
    selected, deselected := [], [];
    var i := 0;
    while i < |items|
      invariant 0 <= i <= |items|
      invariant selected == Filter(SelectsFn(sel), items[..i])
      invariant deselected == Reject(SelectsFn(sel), items[..i])
    {
      assert items[..i + 1] == items[..i] + [items[i]];
      FilterSnoc(SelectsFn(sel), items[..i], items[i]);
      if SelectsFn(sel)(items[i]) {
        selected := selected + [items[i]];
      } else {
        deselected := deselected + [items[i]];
      }
      i := i + 1;
    }
    assert items[..|items|] == items;
  }

  /** Selected and deselected form a stable partition of the items: each
      item lands in exactly one of them, selected iff it is in scope and its
      implementation exists, and both keep the collection order. */
  lemma SelectionPartition(sel: Selection, items: seq<TestItem>, xs: seq<TestItem>, ys: seq<TestItem>)
    requires items == xs + ys
    ensures multiset(Filter(SelectsFn(sel), items)) + multiset(Reject(SelectsFn(sel), items)) == multiset(items)
    ensures forall x :: x in items ==>
      (x in Filter(SelectsFn(sel), items) <==> IsInScope(x, sel.scope, sel.whitelist) && ImplementationExists(x, sel.implMap, sel.existing))
    ensures forall x :: x in items ==> (x in Reject(SelectsFn(sel), items) <==> !Selects(sel, x))
    ensures Filter(SelectsFn(sel), items) == Filter(SelectsFn(sel), xs) + Filter(SelectsFn(sel), ys)
    ensures Reject(SelectsFn(sel), items) == Reject(SelectsFn(sel), xs) + Reject(SelectsFn(sel), ys)
  {
    FilterPartition(SelectsFn(sel), items);
    forall x | x in items
      ensures x in Filter(SelectsFn(sel), items) <==> Selects(sel, x)
      ensures x in Reject(SelectsFn(sel), items) <==> !Selects(sel, x)
    {
      FilterMember(SelectsFn(sel), items, x);
    }
    FilterAppend(SelectsFn(sel), xs, ys);
  }

  /** pytest's list of collected items, which the hook narrows in place. */
  class CollectedItems {
    var items: seq<TestItem>

    constructor (items: seq<TestItem>)
      ensures this.items == items
    {
      this.items := items;
    }
  }

  /** The selection pytest_collection_modifyitems makes for a `--scope`
      option: the upper-cased scope, its SCOPES entry (None for an unknown
      scope) and the implementation map. */
  function SelectionFor(l: Layout, scopeOption: string, existing: set<string>): Selection {
    var scope := Upper(scopeOption);
    var scopes := Scopes(l);
    Selection(scope, if scope in scopes then scopes[scope] else None, ImplementationMap(l), existing)
  }

  /** `pytest_collection_modifyitems`: returns the items it reports as
      deselected; the list is overwritten with the selected items only when
      something was deselected, and otherwise left as it was. */
  method CollectionModifyItems(l: Layout, scopeOption: string, existing: set<string>, collected: CollectedItems)
    returns (deselected: seq<TestItem>)
    modifies collected
    ensures deselected == Reject(SelectsFn(SelectionFor(l, scopeOption, existing)), old(collected.items))
    ensures deselected != [] ==> collected.items == Filter(SelectsFn(SelectionFor(l, scopeOption, existing)), old(collected.items))
    ensures deselected == [] ==> collected.items == old(collected.items)
  {
    var scope := Upper(scopeOption);
    var scopes := BuildDynamicScopes(l, Config.PresentationAppKeys);
    var whitelist := if scope in scopes then scopes[scope] else None;
    var sel := Selection(scope, whitelist, ImplementationMap(l), existing);
    var selected;
    selected, deselected := Partition(sel, collected.items);
    if deselected != [] {
      collected.items := selected;
    }
  }
}
