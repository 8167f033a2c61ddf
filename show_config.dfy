/** The configuration viewer of admin/show_config.py
    (`show_configuration`): which attributes of the configuration module
    are shown, and how their values are written. The attributes are given
    in the order `dir()` lists them, each with its value. */
module ShowConfig {
  import opened PyStr
  import opened Lists

  /** An attribute value: a list (of the strings its items print as) or
      any other value (as `str()` prints it). */
  datatype Value = ListValue(items: seq<string>) | Other(text: string)

  /** The naming convention for configuration constants: public and upper
      case. */
  predicate IsConstantName(name: string) {
    !StartsWith(name, "_") && IsUpperStr(name)
  }

  predicate IsConstant(attr: (string, Value)) {
    IsConstantName(attr.0)
  }

  /** `f"• {item}"` for each item. */
  function Bullets(items: seq<string>): (r: seq<string>)
    ensures |r| == |items|
    ensures forall i :: 0 <= i < |items| ==> r[i] == "\U{2022} " + items[i]
  {
    if items == [] then [] else ["\U{2022} " + items[0]] + Bullets(items[1..])
  }

  /** The text of the value column. */
  function Render(v: Value): string {
    match v
    case ListValue(items) => Join(Bullets(items), '\n')
    case Other(text) => text
  }

  /** A list shows one bullet line per item, in order (items that are one
      line each); an empty list shows nothing. */
  lemma BulletLines(items: seq<string>)
    requires forall i :: 0 <= i < |items| ==> '\n' !in items[i]
    ensures items == [] ==> Render(ListValue(items)) == ""
    ensures items != [] ==> Split(Render(ListValue(items)), '\n') == Bullets(items)
  {
    if items != [] {
      var b := Bullets(items);
      forall i | 0 <= i < |b| ensures '\n' !in b[i] {
        assert b[i] == "\U{2022} " + items[i];
      }
      SplitJoin(b, '\n');
    }
  }

  /** The rows of the table: one per constant, in `dir()` order. */
  function ConfigRows(attrs: seq<(string, Value)>): (rows: seq<(string, string)>)
    ensures |rows| == |Filter(IsConstant, attrs)|
    decreases |attrs|
  {
    if attrs == [] then []
    else
      var last := attrs[|attrs| - 1];
      ConfigRows(attrs[..|attrs| - 1]) + (if IsConstantName(last.0) then [(last.0, Render(last.1))] else [])
  }

  /** Exactly the constant names appear, in `dir()` order, each with its
      rendered value. */
  lemma ConfigRowsOrder(attrs: seq<(string, Value)>)
    ensures Keys(ConfigRows(attrs)) == Filter(IsConstantName, Keys(attrs))
    ensures forall i :: 0 <= i < |ConfigRows(attrs)| ==>
      ConfigRows(attrs)[i].1 == Render(Filter(IsConstant, attrs)[i].1)
  {
    FilterKeys(attrs, IsConstant, IsConstantName);
    ConfigRowsKeys(attrs);
    forall i | 0 <= i < |ConfigRows(attrs)|
      ensures ConfigRows(attrs)[i].1 == Render(Filter(IsConstant, attrs)[i].1)
    {
      RowAt(attrs, i);
    }
  }

  /** The row names are the names of the constants. */
  lemma {:induction false} ConfigRowsKeys(attrs: seq<(string, Value)>)
    ensures Keys(ConfigRows(attrs)) == Keys(Filter(IsConstant, attrs))
    decreases |attrs|
  {
    if attrs != [] {
      var init := attrs[..|attrs| - 1];
      var last := attrs[|attrs| - 1];
      var kept: seq<(string, Value)> := if IsConstant(last) then [last] else [];
      var extra: seq<(string, string)> := if IsConstant(last) then [(last.0, Render(last.1))] else [];
      ConfigRowsKeys(init);
      SnocSplit([], attrs);
      FilterSnoc(IsConstant, init, last);
      KeysAppend(ConfigRows(init), extra);
      KeysAppend(Filter(IsConstant, init), kept);
      assert Keys(extra) == Keys(kept);
    }
  }

  /** The `i`-th row renders the value of the `i`-th constant. */
  lemma {:induction false} RowAt(attrs: seq<(string, Value)>, i: nat)
    requires i < |ConfigRows(attrs)|
    ensures ConfigRows(attrs)[i].1 == Render(Filter(IsConstant, attrs)[i].1)
    decreases |attrs|
  {
    var init := attrs[..|attrs| - 1];
    var last := attrs[|attrs| - 1];
    SnocSplit([], attrs);
    FilterSnoc(IsConstant, init, last);
    if i < |ConfigRows(init)| {
      RowAt(init, i);
    }
  }

  /** `show_configuration(console)`: the rows added to the table. */
  method ShowConfiguration(attrs: seq<(string, Value)>) returns (rows: seq<(string, string)>)
    ensures rows == ConfigRows(attrs)
  {
    rows := [];
    for i := 0 to |attrs|
      invariant rows == ConfigRows(attrs[..i])
    {
      assert attrs[..i + 1][..i] == attrs[..i];
      var (key, value) := attrs[i];
      if !StartsWith(key, "_") && IsUpperStr(key) {
        var valueStr;
        if value.ListValue? {
          valueStr := Join(Bullets(value.items), '\n');
        } else {
          valueStr := value.text;
        }
        rows := rows + [(key, valueStr)];
      }
    }
    assert attrs[..|attrs|] == attrs;
  }

  /** `isupper()` accepts a leading underscore, so the "_" test is what
      keeps a private upper-case name such as "_X" out. */
  lemma PrivateUpperHidden()
    ensures IsUpperStr("_X") && !IsConstantName("_X")
  {
    assert IsAsciiUpper("_X"[1]);
  }
}
