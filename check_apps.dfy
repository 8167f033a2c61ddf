/** The status checker of the presentation apps (admin/check_apps.py): where
    each app lives, which of its key files exist, the resulting health, and
    the pass/fail verdict of the status tests. The file system is the set
    of paths that exist. */
module CheckApps {
  import opened Wrappers
  import opened PyStr
  import opened Lists
  import opened Config

  /** `base / name` */
  function JoinPath(base: string, name: string): string {
    base + "/" + name
  }

  /** `get_platform_paths()`, below the presentation directory `dir`. */
  function PlatformPaths(dir: string): seq<(string, string)> {
    [ ("console", JoinPath(dir, "console_app")),
      ("flask", JoinPath(JoinPath(dir, "api_server"), "flask_app")),
      ("angular", JoinPath(dir, "angular_app")),
      ("react", JoinPath(dir, "react_app")),
      ("vue", JoinPath(dir, "vue_app")) ]
  }

  /** The files whose presence marks an app as scaffolded. */
  function KeyFiles(key: string): seq<string> {
    if key == "flask" then ["app.py", "routes", "templates", "static"]
    else if key == "angular" then ["src", "package.json", "angular.json"]
    else if key == "react" then ["src", "package.json", "public"]
    else if key == "vue" then ["src", "package.json", "vite.config.js"]
    else if key == "console" then ["__init__.py"]
    else []
  }

  datatype Health = Healthy | Partial | Empty | NotScaffolded | NoPathDefined

  function HealthLabel(h: Health): string {
    match h
    case Healthy => "healthy"
    case Partial => "partial"
    case Empty => "empty"
    case NotScaffolded => "not_scaffolded"
    case NoPathDefined => "no_path_defined"
  }

  /** The dictionary `check_app_status` returns. */
  datatype AppStatus = AppStatus(
    platform: string, name: string, displayName: string, path: Option<string>,
    dirExists: bool, files: seq<string>, health: Health)

  /** The health for `found` of `total` key files. */
  function HealthOf(found: nat, total: nat): Health {
    if found == total then Healthy else if found > 0 then Partial else Empty
  }

  /** Whether a key file exists below the app directory `path`. */
  function ExistsIn(path: string, existing: set<string>): string -> bool {
    file => JoinPath(path, file) in existing
  }

  /** The configured name, or "Unknown-<key>" for an unconfigured key. */
  function AppNameOf(key: string): string {
    var config := Lookup(PresentationApps, key);
    if config.Some? then config.value.name else "Unknown-" + key
  }

  /** The configured display name, or the capitalised key. */
  function DisplayNameOf(key: string): string {
    var config := Lookup(PresentationApps, key);
    if config.Some? then config.value.displayName else Capitalize(key)
  }

  /** The status of the app `key`: no path, a missing directory, or the key
      files found in it and the health they give. */
  function StatusOf(key: string, dir: string, existing: set<string>): AppStatus {
    var path := Lookup(PlatformPaths(dir), key);
    var name, displayName := AppNameOf(key), DisplayNameOf(key);
    if path.None? then AppStatus(key, name, displayName, None, false, [], NoPathDefined)
    else if path.value !in existing then AppStatus(key, name, displayName, path, false, [], NotScaffolded)
    else
      var found := Filter(ExistsIn(path.value, existing), KeyFiles(key));
      AppStatus(key, name, displayName, path, true, found, HealthOf(|found|, |KeyFiles(key)|))
  }

  /** The loop over the key files: those present below `path`, in order. */
  method FindKeyFiles(path: string, existing: set<string>, keyFiles: seq<string>) returns (found: seq<string>)
    ensures found == Filter(ExistsIn(path, existing), keyFiles)
  {
    found := [];
    for i := 0 to |keyFiles|
      invariant found == Filter(ExistsIn(path, existing), keyFiles[..i])
    {
      FilterSnoc(ExistsIn(path, existing), keyFiles[..i], keyFiles[i]);
      assert keyFiles[..i + 1] == keyFiles[..i] + [keyFiles[i]];
      if JoinPath(path, keyFiles[i]) in existing {
        found := found + [keyFiles[i]];
      }
    }
    assert keyFiles[..|keyFiles|] == keyFiles;
  }

  /** `check_app_status(platform_key)` */
  method CheckAppStatus(key: string, dir: string, existing: set<string>) returns (status: AppStatus)
    ensures status == StatusOf(key, dir, existing)
  {
    var path := Lookup(PlatformPaths(dir), key);
    status := AppStatus(key, AppNameOf(key), DisplayNameOf(key), path, false, [], NoPathDefined);
    if path.None? {
      return;
    }
    status := status.(dirExists := path.value in existing);
    if !status.dirExists {
      status := status.(health := NotScaffolded);
      return;
    }
    var keyFiles := KeyFiles(key);
    var found := FindKeyFiles(path.value, existing, keyFiles);
    status := status.(files := found);
    if |found| == |keyFiles| {
      status := status.(health := Healthy);
    } else if |found| > 0 {
      status := status.(health := Partial);
    } else {
      status := status.(health := Empty);
    }
  }

  /** Only the five presentation platforms have a path; the name and the
      display name fall back to "Unknown-<key>" and the capitalised key. */
  lemma StatusIdentity(key: string, dir: string, existing: set<string>)
    ensures var s := StatusOf(key, dir, existing);
      s.platform == key &&
      (s.path.Some? <==> key in ["console", "flask", "angular", "react", "vue"]) &&
      (key !in PresentationAppKeys ==> s.name == "Unknown-" + key && s.displayName == Capitalize(key))
  {
    assert Keys(PlatformPaths(dir)) == ["console", "flask", "angular", "react", "vue"];
  }

  /** No path, or a path that does not exist: nothing found, and the health
      says which. */
  lemma StatusWithoutDirectory(key: string, dir: string, existing: set<string>)
    ensures var s := StatusOf(key, dir, existing);
      (s.path.None? ==> s.health == NoPathDefined && !s.dirExists && s.files == []) &&
      (s.path.Some? && s.path.value !in existing ==> s.health == NotScaffolded && !s.dirExists && s.files == []) &&
      (s.dirExists <==> s.path.Some? && s.path.value in existing)
  {
  }

  /** The files listed are exactly the key files present, in key-file
      order; the app is healthy iff all are present, partial iff only some
      are, empty iff none of a non-empty list is. */
  lemma {:induction false} StatusHealth(key: string, dir: string, existing: set<string>)
    requires StatusOf(key, dir, existing).dirExists
    ensures var s := StatusOf(key, dir, existing);
      var present := ExistsIn(s.path.value, existing);
      s.files == Filter(present, KeyFiles(key)) &&
      (forall f :: f in s.files <==> f in KeyFiles(key) && present(f)) &&
      (s.health == Healthy <==> forall f :: f in KeyFiles(key) ==> present(f)) &&
      (s.health == Empty <==> KeyFiles(key) != [] && forall f :: f in KeyFiles(key) ==> !present(f)) &&
      (s.health == Partial <==> (exists f :: f in KeyFiles(key) && present(f)) &&
                                (exists f :: f in KeyFiles(key) && !present(f)))
  {
    var s := StatusOf(key, dir, existing);
    var present := ExistsIn(s.path.value, existing);
    var files := KeyFiles(key);
    FilterElems(present, files);
    forall f | f in files ensures f in s.files <==> present(f) {
      FilterMember(present, files, f);
    }
    FilterKeepsAll(present, files);
    FilterKeepsNone(present, files);
  }

  /** `_test_single_status`: healthy and partial apps pass. */
  predicate Passes(status: AppStatus) {
    status.health in [Healthy, Partial]
  }

  /** So an app passes iff its directory exists and it has some key file
      (or none are expected). */
  lemma PassesMeaning(key: string, dir: string, existing: set<string>)
    ensures var s := StatusOf(key, dir, existing);
      Passes(s) <==> s.dirExists && (KeyFiles(key) == [] || exists f :: f in KeyFiles(key) && ExistsIn(s.path.value, existing)(f))
  {
    var s := StatusOf(key, dir, existing);
    if s.dirExists {
      StatusHealth(key, dir, existing);
    }
  }

  /** `check_all_apps()`: one status per presentation app key, in order. */
  method CheckAllApps(dir: string, existing: set<string>) returns (results: seq<(string, AppStatus)>)
    ensures results == StatusTable(PresentationAppKeys, dir, existing)
    ensures Keys(results) == PresentationAppKeys
    ensures forall i :: 0 <= i < |results| ==> results[i].1 == StatusOf(results[i].0, dir, existing)
  {
    results := StatusesOf(PresentationAppKeys, dir, existing);
  }

  function StatusFn(dir: string, existing: set<string>): string -> AppStatus {
    k => StatusOf(k, dir, existing)
  }

  /** The entries `check_all_apps` builds for `keys`, in order. */
  function StatusTable(keys: seq<string>, dir: string, existing: set<string>): seq<(string, AppStatus)> {
    Tabulate(keys, StatusFn(dir, existing))
  }

  /** The loop of `check_all_apps` over the given keys. */
  method StatusesOf(keys: seq<string>, dir: string, existing: set<string>) returns (results: seq<(string, AppStatus)>)
    ensures results == StatusTable(keys, dir, existing)
    ensures Keys(results) == keys
    ensures forall i :: 0 <= i < |results| ==> results[i].1 == StatusOf(results[i].0, dir, existing)
  {
    results := [];
    for i := 0 to |keys|
      invariant results == StatusTable(keys[..i], dir, existing)
    {
      var status := CheckAppStatus(keys[i], dir, existing);
      assert keys[..i + 1][..i] == keys[..i];
      results := results + [(keys[i], status)];
    }
    assert keys[..|keys|] == keys;
    TabulateEntries(keys, StatusFn(dir, existing));
  }

  /** The apps whose status test fails, in key order. */
  function FailingApps(keys: seq<string>, dir: string, existing: set<string>): seq<string> {
    Filter((k: string) => !Passes(StatusOf(k, dir, existing)), keys)
  }

  /** No app fails exactly when every app passes. */
  lemma NoFailingApps(keys: seq<string>, dir: string, existing: set<string>)
    ensures FailingApps(keys, dir, existing) == [] <==> forall k :: k in keys ==> Passes(StatusOf(k, dir, existing))
  {
    FilterKeepsNone((k: string) => !Passes(StatusOf(k, dir, existing)), keys);
  }

  /** A status table entry whose test fails. */
  function Fails(): ((string, AppStatus)) -> bool {
    (e: (string, AppStatus)) => !Passes(e.1)
  }

  /** The failing entries of the status table are those of the failing
      apps. */
  lemma FailingTable(keys: seq<string>, dir: string, existing: set<string>)
    ensures Keys(Filter(Fails(), StatusTable(keys, dir, existing))) == FailingApps(keys, dir, existing)
  {
    FilterTabulate(keys, StatusFn(dir, existing), Fails(), (k: string) => !Passes(StatusOf(k, dir, existing)));
  }

  /** The loop of `test_app_status` over the status table: every entry is
      tested, a failure clears the flag and logs a warning. */
  method TestEach(statuses: seq<(string, AppStatus)>) returns (passed: bool, failed: seq<string>)
    ensures failed == Keys(Filter(Fails(), statuses))
    ensures passed <==> failed == []
  {
    passed := true;
    failed := [];
    for i := 0 to |statuses|
      invariant failed == Keys(Filter(Fails(), statuses[..i]))
      invariant passed <==> failed == []
    {
      FailedNext(statuses, i);
      var ok := Passes(statuses[i].1);
      if !ok {
        passed := false;
        failed := failed + [statuses[i].0];
      }
    }
    assert statuses[..|statuses|] == statuses;
  }

  /** One more entry tested adds its key to the failures iff it fails. */
  lemma FailedNext(statuses: seq<(string, AppStatus)>, i: nat)
    requires i < |statuses|
    ensures Keys(Filter(Fails(), statuses[..i + 1])) ==
      Keys(Filter(Fails(), statuses[..i])) + (if Passes(statuses[i].1) then [] else [statuses[i].0])
  {
    var e := statuses[i];
    var kept: seq<(string, AppStatus)> := if Fails()(e) then [e] else [];
    assert statuses[..i + 1] == statuses[..i] + [e];
    FilterSnoc(Fails(), statuses[..i], e);
    KeysAppend(Filter(Fails(), statuses[..i]), kept);
  }

  /** `test_app_status(platform_key)`: one app when a key is given, otherwise
      every app, each checked even after a failure. `failed` lists the
      platforms for which the failure warning is logged. */
  method TestAppStatus(key: Option<string>, dir: string, existing: set<string>)
    returns (passed: bool, failed: seq<string>)
    ensures key.Some? && key.value != "" ==>
      passed == Passes(StatusOf(key.value, dir, existing)) && failed == (if passed then [] else [key.value])
    ensures !(key.Some? && key.value != "") ==>
      (passed <==> forall k :: k in PresentationAppKeys ==> Passes(StatusOf(k, dir, existing))) &&
      failed == FailingApps(PresentationAppKeys, dir, existing)
  {
    if key.Some? && key.value != "" {
      var status := CheckAppStatus(key.value, dir, existing);
      passed := Passes(status);
      failed := if passed then [] else [key.value];
      return;
    }
    var statuses := CheckAllApps(dir, existing);
    passed, failed := TestEach(statuses);
    FailingTable(PresentationAppKeys, dir, existing);
    NoFailingApps(PresentationAppKeys, dir, existing);
  }
}
