/** The prompt side of DataCollectService
    (src/business/ai/data_collect_service.py): filling `{{key}}` placeholders
    of a prompt template from a context dictionary over a table of defaults,
    and the control flow that gathers repository data, loads the template and
    populates it. */
module PromptTemplate {
  import opened Wrappers
  import opened PyStr
  import opened Lists

  /** A template context `Dict[str, Optional[str]]`, as its items in
      insertion order; a present value is already the text `str(value)`
      gives. */
  type Context = seq<(string, Option<string>)>

  /** `populated_data`: the placeholder values, as dictionary items. */
  type Data = seq<(string, string)>

  /** The texts the five known placeholders start with. */
  const Defaults: Data := [
    ("readme_content", "README.md not found or empty."),
    ("requirements_txt_content", "requirements.txt" + " not found or empty."),
    ("environment_yaml_content", "environment.yaml" + " not found or empty."),
    ("existing_min_sys_reqs_content", "No existing min-sys-requirements" + " file found or empty."),
    ("repository_description", "No repository description" + " provided.")
  ]

  /** `populated_data` once the items of `ctx` have been merged over the
      defaults: a present value overrides, None leaves things as they were. */
  function Merged(ctx: Context): Data
    decreases |ctx|
  {
    if ctx == [] then Defaults
    else
      var m := Merged(ctx[..|ctx| - 1]);
      var item := ctx[|ctx| - 1];
      if item.1.Some? then DictSet(m, item.0, item.1.value) else m
  }

  /** The last present value the context gives `key`, if any. */
  function LastValue(ctx: Context, key: string): (r: Option<string>)
    ensures r.None? <==> forall i :: 0 <= i < |ctx| && ctx[i].0 == key ==> ctx[i].1.None?
    ensures r.Some? ==>
      exists i :: 0 <= i < |ctx| && ctx[i] == (key, r) &&
        forall j :: i < j < |ctx| && ctx[j].0 == key ==> ctx[j].1.None?
    decreases |ctx|
  {
    if ctx == [] then None
    else if ctx[|ctx| - 1].0 == key && ctx[|ctx| - 1].1.Some? then ctx[|ctx| - 1].1
    else
      var init := ctx[..|ctx| - 1];
      var r := LastValue(init, key);
      assert forall i :: 0 <= i < |init| ==> init[i] == ctx[i];
      r
  }

  /** A key ends up with its last present context value; a key the context
      never sets keeps its default, and has none if it is not one of the
      five. */
  lemma {:induction false} MergedMeaning(ctx: Context, key: string)
    ensures LastValue(ctx, key).Some? ==> Lookup(Merged(ctx), key) == LastValue(ctx, key)
    ensures LastValue(ctx, key).None? ==> Lookup(Merged(ctx), key) == Lookup(Defaults, key)
    decreases |ctx|
  {
    if ctx != [] {
      MergedMeaning(ctx[..|ctx| - 1], key);
    }
  }

  /** The override loop of `_populate_prompt_template`. */
  method MergeContext(ctx: Context) returns (data: Data)
    ensures data == Merged(ctx)
  {
    data := Defaults;
    var i := 0;
    while i < |ctx|
      invariant 0 <= i <= |ctx|
      invariant data == Merged(ctx[..i])
    {
      var item := ctx[i];
      if item.1.Some? {
        data := DictSet(data, item.0, item.1.value);
      }
      assert ctx[..i + 1][..i] == ctx[..i];
      i := i + 1;
    }
    assert ctx[..|ctx|] == ctx;
  }

  /** What a placeholder named `key` is replaced with. */
  function ValueFor(data: Data, key: string): string {
    match Lookup(data, key)
    case Some(v) => v
    case None => key + " not found or empty."
  }

  /** Every placeholder gets its last present context value, else its
      default, else the generic "<key> not found or empty." text. */
  lemma PlaceholderValue(ctx: Context, key: string)
    ensures ValueFor(Merged(ctx), key) ==
      if LastValue(ctx, key).Some? then LastValue(ctx, key).value
      else if Lookup(Defaults, key).Some? then Lookup(Defaults, key).value
      else key + " not found or empty."
  {
    MergedMeaning(ctx, key);
  }

  /** Where the lazy `(.*?)}}` part of the placeholder pattern ends when it is
      tried at the start of `t`: at the first "}}", provided no line break
      comes before it (`.` does not match a newline). */
  function CloseAt(t: string): (r: Option<nat>)
    ensures r.Some? ==> r.value + 2 <= |t| && t[r.value..r.value + 2] == "}}" && '\n' !in t[..r.value]
    decreases |t|
  {
    if StartsWith(t, "}}") then Some(0)
    else if |t| > 0 && t[0] != '\n' then
      match CloseAt(t[1..])
      case Some(e) =>
        assert t[1..][..e] == t[1..e + 1];
        Some(e + 1)
      case None => None
    else None
  }

  /** `re.findall(r"{{(.*?)}}", s)`: scanning left to right, a match at
      "{{" captures up to the nearest "}}" on the same line and the scan goes
      on after it; where no match starts the scan moves one character on. */
  function FindAll(s: string): (r: seq<string>)
    ensures forall i :: 0 <= i < |r| ==> '\n' !in r[i]
    decreases |s|
  {
    if s == [] then []
    else if StartsWith(s, "{{") then
      match CloseAt(s[2..])
      case Some(e) => [s[2..2 + e]] + FindAll(s[2 + e + 2..])
      case None => FindAll(s[1..])
    else FindAll(s[1..])
  }

  /** The distinct names of a list, in order of first appearance. */
  function Distinct(xs: seq<string>): (r: seq<string>)
    ensures forall x :: x in r <==> x in xs
    ensures forall i, j :: 0 <= i < j < |r| ==> r[i] != r[j]
    decreases |xs|
  {
    if xs == [] then []
    else
      var init := xs[..|xs| - 1];
      assert xs == init + [xs[|xs| - 1]];
      var d := Distinct(init);
      if xs[|xs| - 1] in d then d else d + [xs[|xs| - 1]]
  }

  /** The placeholder names of a template, each once. */
  function Placeholders(template: string): seq<string> {
    Distinct(FindAll(template))
  }

  function Marker(key: string): (r: string)
    ensures |r| == |key| + 4 && r[..2] == "{{" && r[2..|key| + 2] == key && r[|key| + 2..] == "}}"
  {
    "{{" + key + "}}"
  }

  /** The template after the replacement loop has handled `keys` in order. */
  function SubstituteAll(s: string, keys: seq<string>, data: Data): string
    decreases |keys|
  {
    if keys == [] then s
    else
      var key := keys[|keys| - 1];
      ReplaceAll(SubstituteAll(s, keys[..|keys| - 1], data), Marker(key), ValueFor(data, key))
  }

  /** What `_populate_prompt_template(template, ctx)` returns, the distinct
      placeholders taken in order of first appearance. */
  function Populate(template: string, ctx: Context): string {
    SubstituteAll(template, Placeholders(template), Merged(ctx))
  }

  /** `_populate_prompt_template` */
  method PopulatePromptTemplate(template: string, ctx: Context) returns (prompt: string)
    ensures prompt == Populate(template, ctx)
  {
    var data := MergeContext(ctx);
    prompt := template;
    var keys := Placeholders(template);
    var i := 0;
    while i < |keys|
      invariant 0 <= i <= |keys|
      invariant prompt == SubstituteAll(template, keys[..i], data)
    {
      var key := keys[i];
      assert keys[..i + 1][..i] == keys[..i];
      prompt := ReplaceAll(prompt, Marker(key), ValueFor(data, key));
      i := i + 1;
    }
    assert keys[..|keys|] == keys;
  }

  /** A template with no "{{" has no placeholder. */
  lemma {:induction false} NoOpenNoPlaceholder(s: string)
    requires !Contains(s, "{{")
    ensures FindAll(s) == []
    decreases |s|
  {
    if s != [] {
      assert s[0..] == s;
      forall j | 0 <= j <= |s[1..]| ensures !StartsWith(s[1..][j..], "{{") {
        assert s[1..][j..] == s[j + 1..];
      }
      NotContains(s[1..], "{{");
      NoOpenNoPlaceholder(s[1..]);
    }
  }

  /** A template without placeholders comes back unchanged, whatever the
      context. */
  lemma PlainTemplateUnchanged(template: string, ctx: Context)
    requires !Contains(template, "{{")
    ensures Populate(template, ctx) == template
  {
    NoOpenNoPlaceholder(template);
  }

  // A well-formed template: literal text and `{{key}}` placeholders.

  datatype Piece = Text(text: string) | Hole(key: string)

  predicate CleanKey(key: string) {
    '{' !in key && '}' !in key && '\n' !in key
  }

  /** Text without "{", placeholder names without braces or line breaks. */
  predicate Clean(ps: seq<Piece>) {
    forall i :: 0 <= i < |ps| ==>
      (ps[i].Text? ==> '{' !in ps[i].text) && (ps[i].Hole? ==> CleanKey(ps[i].key))
  }

  function PieceText(p: Piece): string {
    match p
    case Text(t) => t
    case Hole(k) => Marker(k)
  }

  function Render(ps: seq<Piece>): string {
    if ps == [] then "" else PieceText(ps[0]) + Render(ps[1..])
  }

  function HoleKeys(ps: seq<Piece>): seq<string> {
    if ps == [] then []
    else (if ps[0].Hole? then [ps[0].key] else []) + HoleKeys(ps[1..])
  }

  /** The intended result: every placeholder replaced by its value. */
  function Fill(ps: seq<Piece>, data: Data): (r: seq<Piece>)
    ensures |r| == |ps|
    ensures forall i :: 0 <= i < |ps| ==> r[i] == if ps[i].Hole? then Text(ValueFor(data, ps[i].key)) else ps[i]
  {
    if ps == [] then []
    else [if ps[0].Hole? then Text(ValueFor(data, ps[0].key)) else ps[0]] + Fill(ps[1..], data)
  }

  /** The placeholders named in `keys` replaced, the others left. */
  function FillKeys(ps: seq<Piece>, keys: seq<string>, data: Data): seq<Piece> {
    if ps == [] then []
    else
      var head := if ps[0].Hole? && ps[0].key in keys then Text(ValueFor(data, ps[0].key)) else ps[0];
      [head] + FillKeys(ps[1..], keys, data)
  }

  /** The placeholders named `key` replaced by `value`. */
  function FillKey(ps: seq<Piece>, key: string, value: string): seq<Piece> {
    if ps == [] then []
    else [if ps[0] == Hole(key) then Text(value) else ps[0]] + FillKey(ps[1..], key, value)
  }

  lemma {:induction false} FindAllSkip(t: string, rest: string)
    requires '{' !in t
    ensures FindAll(t + rest) == FindAll(rest)
    decreases |t|
  {
    if t == [] {
      assert t + rest == rest;
    } else {
      var s := t + rest;
      assert s[0] == t[0] && t[0] in t;
      assert !StartsWith(s, "{{") by {
        if |s| >= 2 {
          assert s[..2][0] == s[0];
        }
      }
      assert FindAll(s) == FindAll(s[1..]);
      assert s[1..] == t[1..] + rest;
      FindAllSkip(t[1..], rest);
    }
  }

  lemma {:induction false} CloseAfterKey(key: string, rest: string)
    requires '}' !in key && '\n' !in key
    ensures CloseAt(key + "}}" + rest) == Some(|key|)
    decreases |key|
  {
    var t := key + "}}" + rest;
    if key == [] {
      assert t[..2] == "}}";
    } else {
      assert t[0] == key[0];
      assert t[1..] == key[1..] + "}}" + rest;
      CloseAfterKey(key[1..], rest);
    }
  }

  lemma FindAllHole(key: string, rest: string)
    requires '}' !in key && '\n' !in key
    ensures FindAll(Marker(key) + rest) == [key] + FindAll(rest)
  {
    var t := key + "}}" + rest;
    var s := Marker(key) + rest;
    assert s == "{{" + t;
    assert s[2..] == t && StartsWith(s, "{{");
    CloseAfterKey(key, rest);
    assert CloseAt(s[2..]) == Some(|key|);
    assert s[2..2 + |key|] == key;
    assert s[2 + |key| + 2..] == rest;
  }

  /** The placeholder scan of a well-formed template finds exactly its
      placeholders, in order. */
  lemma {:induction false} FindAllRender(ps: seq<Piece>)
    requires Clean(ps)
    ensures FindAll(Render(ps)) == HoleKeys(ps)
    decreases |ps|
  {
    if ps != [] {
      assert Clean(ps[1..]) by {
        forall i | 0 <= i < |ps[1..]| ensures ps[1..][i] == ps[i + 1] { }
      }
      FindAllRender(ps[1..]);
      match ps[0]
      case Text(t) => FindAllSkip(t, Render(ps[1..]));
      case Hole(k) => FindAllHole(k, Render(ps[1..]));
    }
  }

  /** No occurrence of another placeholder starts inside `{{j}}`. */
  lemma HoleNoMatch(j: string, k: string, rest: string, i: nat)
    requires CleanKey(j) && CleanKey(k) && j != k && i < |Marker(j)|
    ensures !StartsWith((Marker(j) + rest)[i..], Marker(k))
  {
    var s := (Marker(j) + rest)[i..];
    var p := Marker(k);
    if |p| <= |s| {
      if i == 0 {
        if |j| < |k| {
          assert s[2 + |j|] == '}' && p[2 + |j|] == k[|j|];
          assert s[..|p|][2 + |j|] != p[2 + |j|];
        } else if |k| < |j| {
          assert s[2 + |k|] == j[|k|] && p[2 + |k|] == '}';
          assert s[..|p|][2 + |k|] != p[2 + |k|];
        } else {
          assert exists q :: 0 <= q < |j| && j[q] != k[q];
          var q :| 0 <= q < |j| && j[q] != k[q];
          assert s[2 + q] == j[q] && p[2 + q] == k[q];
          assert s[..|p|][2 + q] != p[2 + q];
        }
      } else if i == 1 {
        assert s[1] != '{';
        assert s[..|p|][1] != p[1];
      } else {
        assert s[0] != '{';
        assert s[..|p|][0] != p[0];
      }
    }
  }

  /** Replacing one placeholder name in a well-formed template replaces
      exactly the placeholders with that name. */
  lemma {:induction false} ReplaceRender(ps: seq<Piece>, key: string, value: string)
    requires Clean(ps) && CleanKey(key)
    ensures ReplaceAll(Render(ps), Marker(key), value) == Render(FillKey(ps, key, value))
    decreases |ps|
  {
    if ps != [] {
      var rest := Render(ps[1..]);
      var pat := Marker(key);
      assert Clean(ps[1..]) by {
        forall i | 0 <= i < |ps[1..]| ensures ps[1..][i] == ps[i + 1] { }
      }
      ReplaceRender(ps[1..], key, value);
      match ps[0]
      case Text(t) =>
        forall i | 0 <= i < |t| ensures !StartsWith((t + rest)[i..], pat) {
          assert (t + rest)[i..][0] == t[i];
        }
        ReplaceSkip(t, rest, pat, value);
      case Hole(j) =>
        if j == key {
          var s := pat + rest;
          assert s[..|pat|] == pat;
          assert s[|pat|..] == rest;
        } else {
          forall i | 0 <= i < |Marker(j)| ensures !StartsWith((Marker(j) + rest)[i..], pat) {
            HoleNoMatch(j, key, rest, i);
          }
          ReplaceSkip(Marker(j), rest, pat, value);
        }
    }
  }

  lemma {:induction false} FillKeysNone(ps: seq<Piece>, data: Data)
    ensures FillKeys(ps, [], data) == ps
    decreases |ps|
  {
    if ps != [] {
      FillKeysNone(ps[1..], data);
    }
  }

  lemma {:induction false} FillKeysSnoc(ps: seq<Piece>, keys: seq<string>, key: string, data: Data)
    ensures FillKeys(ps, keys + [key], data) == FillKey(FillKeys(ps, keys, data), key, ValueFor(data, key))
    decreases |ps|
  {
    if ps != [] {
      FillKeysSnoc(ps[1..], keys, key, data);
    }
  }

  lemma {:induction false} FillKeysClean(ps: seq<Piece>, keys: seq<string>, data: Data)
    requires Clean(ps)
    requires forall k :: k in keys ==> '{' !in ValueFor(data, k)
    ensures Clean(FillKeys(ps, keys, data))
    decreases |ps|
  {
    if ps != [] {
      assert Clean(ps[1..]) by {
        forall i | 0 <= i < |ps[1..]| ensures ps[1..][i] == ps[i + 1] { }
      }
      FillKeysClean(ps[1..], keys, data);
      var r := FillKeys(ps, keys, data);
      var tail := FillKeys(ps[1..], keys, data);
      assert forall i :: 1 <= i < |r| ==> r[i] == tail[i - 1];
    }
  }

  /** Substituting a list of clean names into a well-formed template fills
      exactly the placeholders with those names. */
  lemma {:induction false} SubstituteRender(ps: seq<Piece>, keys: seq<string>, data: Data)
    requires Clean(ps)
    requires forall k :: k in keys ==> CleanKey(k) && '{' !in ValueFor(data, k)
    ensures SubstituteAll(Render(ps), keys, data) == Render(FillKeys(ps, keys, data))
    decreases |keys|
  {
    if keys == [] {
      FillKeysNone(ps, data);
    } else {
      var init := keys[..|keys| - 1];
      var key := keys[|keys| - 1];
      assert keys == init + [key];
      SubstituteRender(ps, init, data);
      FillKeysClean(ps, init, data);
      ReplaceRender(FillKeys(ps, init, data), key, ValueFor(data, key));
      FillKeysSnoc(ps, init, key, data);
    }
  }

  lemma {:induction false} FillKeysAll(ps: seq<Piece>, keys: seq<string>, data: Data)
    requires forall k :: k in HoleKeys(ps) ==> k in keys
    ensures FillKeys(ps, keys, data) == Fill(ps, data)
    decreases |ps|
  {
    if ps != [] {
      FillKeysAll(ps[1..], keys, data);
    }
  }

  lemma {:induction false} HoleKeysClean(ps: seq<Piece>)
    requires Clean(ps)
    ensures forall k :: k in HoleKeys(ps) ==> CleanKey(k)
    decreases |ps|
  {
    if ps != [] {
      assert Clean(ps[1..]) by {
        forall i | 0 <= i < |ps[1..]| ensures ps[1..][i] == ps[i + 1] { }
      }
      HoleKeysClean(ps[1..]);
    }
  }

  /** No default text holds "{". */
  lemma DefaultsNoBrace()
    ensures forall i :: 0 <= i < |Defaults| ==> '{' !in Defaults[i].1
  {
    FileDefaultsNoBrace();
    assert '{' !in "No existing min-sys-requirements" && '{' !in " file found or empty.";
    assert '{' !in "No repository description" && '{' !in " provided.";
  }

  /** The three "<file> not found or empty." texts hold no "{". */
  lemma FileDefaultsNoBrace()
    ensures forall i :: 0 <= i < 3 ==> '{' !in Defaults[i].1
  {
    assert '{' !in "README.md not found or empty.";
    assert '{' !in "requirements.txt" && '{' !in "environment.yaml" && '{' !in " not found or empty.";
  }

  /** When neither the defaults nor the context values hold "{", no value in
      `populated_data` does. */
  lemma {:induction false} MergedNoBrace(ctx: Context)
    requires forall i :: 0 <= i < |ctx| && ctx[i].1.Some? ==> '{' !in ctx[i].1.value
    ensures forall e :: e in Merged(ctx) ==> '{' !in e.1
    decreases |ctx|
  {
    if ctx == [] {
      DefaultsNoBrace();
    } else {
      var init := ctx[..|ctx| - 1];
      assert forall i :: 0 <= i < |init| ==> init[i] == ctx[i];
      MergedNoBrace(init);
    }
  }

  /** Correctness of the substitution: in a well-formed template whose
      context values hold no "{", every placeholder is replaced by its
      value and all other text is kept, in whatever order the distinct
      names are processed. */
  lemma PopulateAnyOrder(ps: seq<Piece>, ctx: Context, keys: seq<string>)
    requires Clean(ps)
    requires forall i :: 0 <= i < |ctx| && ctx[i].1.Some? ==> '{' !in ctx[i].1.value
    requires forall k :: k in keys <==> k in HoleKeys(ps)
    ensures SubstituteAll(Render(ps), keys, Merged(ctx)) == Render(Fill(ps, Merged(ctx)))
  {
    var data := Merged(ctx);
    HoleKeysClean(ps);
    MergedNoBrace(ctx);
    forall k | k in keys ensures CleanKey(k) && '{' !in ValueFor(data, k) {
      var v := Lookup(data, k);
      if v.None? {
        assert ValueFor(data, k) == k + " not found or empty.";
      } else {
        var i :| 0 <= i < |data| && data[i] == (k, v.value);
        assert data[i] in data;
      }
    }
    SubstituteRender(ps, keys, data);
    FillKeysAll(ps, keys, data);
  }

  /** The populated prompt of a well-formed template is the template with
      each placeholder replaced by its value. */
  lemma PopulateCorrect(ps: seq<Piece>, ctx: Context)
    requires Clean(ps)
    requires forall i :: 0 <= i < |ctx| && ctx[i].1.Some? ==> '{' !in ctx[i].1.value
    ensures Populate(Render(ps), ctx) == Render(Fill(ps, Merged(ctx)))
  {
    FindAllRender(ps);
    PopulateAnyOrder(ps, ctx, Placeholders(Render(ps)));
  }

  // prepare_analysis_data_and_prompt

  /** The system information dictionary, seen through what the flow uses:
      how many entries it has (its truth value) and its `str()`. */
  datatype SystemInfo = SystemInfo(entryCount: nat, text: string)

  /** What `repo_data_collector.collect_repository_data` did. */
  datatype Collected = CollectorRaised(exc: Exc) | CollectorReturned(data: Context)

  /** An error entry that is a non-empty text naming an invalid path. */
  predicate InvalidPathError(data: Context) {
    var error := Lookup(data, "error");
    error.Some? && error.value.Some? && error.value.value != ""
    && Contains(error.value.value, "Invalid repository path")
  }

  /** `_collect_repository_info`: None when the collector raised or reported
      an invalid path, the collected data otherwise. */
  function CollectRepositoryInfo(c: Collected): (r: Option<Context>)
    ensures r.None? <==> c.CollectorRaised? || InvalidPathError(c.data)
    ensures r.Some? ==> r.value == c.data
  {
    match c
    case CollectorRaised(_) => None
    case CollectorReturned(data) => if InvalidPathError(data) then None else Some(data)
  }

  /** An error entry that does not mention an invalid path is passed on as
      data. */
  lemma OtherErrorsPassed(c: Collected, e: string)
    requires c.CollectorReturned? && Lookup(c.data, "error") == Some(Some(e))
    requires !Contains(e, "Invalid repository path")
    ensures CollectRepositoryInfo(c) == Some(c.data)
  {
  }

  /** The context the template is filled from: the repository data, plus
      "system_info" when the system information is non-empty. */
  function TemplateContext(repo: Context, sys: Option<SystemInfo>): (r: Context)
    ensures sys.Some? && sys.value.entryCount > 0 ==>
      Lookup(r, "system_info") == Some(Some(sys.value.text)) &&
      forall k :: k != "system_info" ==> Lookup(r, k) == Lookup(repo, k)
    ensures !(sys.Some? && sys.value.entryCount > 0) ==> r == repo
  {
    if sys.Some? && sys.value.entryCount > 0 then DictSet(repo, "system_info", Some(sys.value.text))
    else repo
  }

  datatype Analysis = Analysis(systemInfo: Option<SystemInfo>, repoInfo: Context, prompt: string)

  /** `prepare_analysis_data_and_prompt`, given the system information, what
      the repository collector did and the template text (None when the file
      is missing or unreadable). */
  method PrepareAnalysisDataAndPrompt(sys: Option<SystemInfo>, collected: Collected, template: Option<string>)
    returns (r: Option<Analysis>)
    ensures r.None? <==>
      CollectRepositoryInfo(collected) == None || collected.data == [] || template == None || template == Some("")
    ensures r.Some? ==>
      r.value.systemInfo == sys && r.value.repoInfo == collected.data &&
      r.value.prompt == Populate(template.value, TemplateContext(collected.data, sys))
  {
    var repo := CollectRepositoryInfo(collected);
    if repo.None? || repo.value == [] {
      return None;
    }
    if template.None? || template.value == "" {
      return None;
    }
    var context := TemplateContext(repo.value, sys);
    var prompt := PopulatePromptTemplate(template.value, context);
    r := Some(Analysis(sys, repo.value, prompt));
  }
}
