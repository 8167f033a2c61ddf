/** The handful of Python `str` operations the admin scripts rely on, with
    Python's semantics: substring search (`in`, `find`), `startswith`,
    `split`/`join`, `replace`, `strip`, ASCII case mapping, `str(int)` and
    the `repr` of a list of strings. */
module PyStr {
  import opened Wrappers

  /** `s.startswith(p)` */
  predicate StartsWith(s: string, p: string) {
    |p| <= |s| && s[..|p|] == p
  }

  /** `s.endswith(p)` */
  predicate EndsWith(s: string, p: string) {
    |p| <= |s| && s[|s| - |p|..] == p
  }

  /** `s.find(sub)`: the first index at which `sub` occurs, or None. */
  function Find(s: string, sub: string): (r: Option<nat>)
    ensures r.Some? ==> r.value + |sub| <= |s| && StartsWith(s[r.value..], sub)
    ensures r.Some? ==> forall j :: 0 <= j < r.value ==> !StartsWith(s[j..], sub)
    ensures r.None? ==> forall j :: 0 <= j <= |s| ==> !StartsWith(s[j..], sub)
    decreases |s|
  {
    if StartsWith(s, sub) then Some(0)
    else if |s| == 0 then None
    else
      var rest := Find(s[1..], sub);
      assert forall j :: 1 <= j <= |s| ==> s[j..] == s[1..][j - 1..];
      match rest
      case Some(k) => Some(k + 1)
      case None => None
  }

  /** `sub in s` */
  predicate Contains(s: string, sub: string) {
    Find(s, sub).Some?
  }

  /** `s.split(sep, 1)[0]`: the text before the first `sep`, or all of `s`. */
  function Before(s: string, sep: string): (r: string)
    ensures Contains(s, sep) ==> StartsWith(s, r + sep)
    ensures |sep| > 0 && Contains(s, sep) ==> !Contains(r + sep[..|sep| - 1], sep)
    ensures !Contains(s, sep) ==> r == s
  {
    match Find(s, sep)
    case Some(k) =>
      FirstOccurrence(s, sep, k);
      s[..k]
    case None => s
  }

  /** `s.split(sep, 1)[1]`: the text after the first `sep`. */
  function After(s: string, sep: string): (r: string)
    requires Contains(s, sep)
    ensures Before(s, sep) + sep + r == s
  {
    var k := Find(s, sep).value;
    assert s[k..][..|sep|] == s[k..k + |sep|];
    assert s == s[..k] + s[k..k + |sep|] + s[k + |sep|..];
    s[k + |sep|..]
  }

  /** No occurrence of `sep` starts inside `s[..k] + sep[..|sep| - 1]` when `k`
      is the first occurrence. */
  lemma FirstOccurrence(s: string, sep: string, k: nat)
    requires Find(s, sep) == Some(k)
    ensures |sep| == 0 || !Contains(s[..k] + sep[..|sep| - 1], sep)
  {
    if |sep| > 0 {
      var t := s[..k] + sep[..|sep| - 1];
      assert s[k..][..|sep|] == sep;
      assert t == s[..k + |sep| - 1];
      forall j | 0 <= j <= |t| ensures !StartsWith(t[j..], sep) {
        if j + |sep| <= |t| {
          assert t[j..][..|sep|] == s[j..][..|sep|];
        }
      }
      NotContains(t, sep);
    }
  }

  /** `sub in s` is false when no position of `s` starts with `sub`. */
  lemma NotContains(s: string, sub: string)
    requires forall j :: 0 <= j <= |s| ==> !StartsWith(s[j..], sub)
    ensures !Contains(s, sub)
  {
  }

  /** `sub in s` holds when some position of `s` starts with `sub`. */
  lemma ContainsAt(s: string, sub: string, j: nat)
    requires j <= |s| && StartsWith(s[j..], sub)
    ensures Contains(s, sub)
  {
  }

  /** `s.replace(pat, repl)` for a non-empty `pat`: every occurrence, scanned
      left to right without overlap, is replaced. */
  function ReplaceAll(s: string, pat: string, repl: string): string
    requires |pat| > 0
    decreases |s|
  {
    if |s| < |pat| then s
    else if s[..|pat|] == pat then repl + ReplaceAll(s[|pat|..], pat, repl)
    else [s[0]] + ReplaceAll(s[1..], pat, repl)
  }

  /** A string in which `pat` does not occur is left unchanged by `replace`. */
  lemma {:induction false} ReplaceAbsent(s: string, pat: string, repl: string)
    requires |pat| > 0 && !Contains(s, pat)
    ensures ReplaceAll(s, pat, repl) == s
    decreases |s|
  {
    if |s| >= |pat| {
      assert s[0..] == s;
      forall j | 0 <= j <= |s[1..]| ensures !StartsWith(s[1..][j..], pat) {
        assert s[1..][j..] == s[j + 1..];
      }
      NotContains(s[1..], pat);
      ReplaceAbsent(s[1..], pat, repl);
    }
  }

  /** `replace` skips a prefix `t` in which no occurrence of `pat` starts. */
  lemma {:induction false} ReplaceSkip(t: string, rest: string, pat: string, repl: string)
    requires |pat| > 0
    requires forall i :: 0 <= i < |t| ==> !StartsWith((t + rest)[i..], pat)
    ensures ReplaceAll(t + rest, pat, repl) == t + ReplaceAll(rest, pat, repl)
    decreases |t|
  {
    if |t| == 0 {
      assert t + rest == rest;
    } else {
      var s := t + rest;
      assert !StartsWith(s[0..], pat);
      assert s[0..] == s;
      if |s| < |pat| {
        ReplaceShort(s, pat, repl);
        ReplaceShort(rest, pat, repl);
      } else {
        assert s[..|pat|] != pat;
        assert ReplaceAll(s, pat, repl) == [s[0]] + ReplaceAll(s[1..], pat, repl);
        assert s[1..] == t[1..] + rest;
        forall i | 0 <= i < |t[1..]|
          ensures !StartsWith((t[1..] + rest)[i..], pat)
        {
          assert (t[1..] + rest)[i..] == s[i + 1..];
        }
        ReplaceSkip(t[1..], rest, pat, repl);
        assert t == [s[0]] + t[1..];
      }
    }
  }

  lemma ReplaceShort(s: string, pat: string, repl: string)
    requires |pat| > 0 && |s| < |pat|
    ensures ReplaceAll(s, pat, repl) == s
  {
  }

  /** Characters Python's `str.isspace` accepts (and `strip()` removes). */
  predicate IsSpace(c: char) {
    c == ' ' || ('\t' <= c <= '\r') || ('\U{001C}' <= c <= '\U{001F}')
    || c == '\U{0085}' || c == '\U{00A0}' || c == '\U{1680}' || ('\U{2000}' <= c <= '\U{200A}')
    || c == '\U{2028}' || c == '\U{2029}' || c == '\U{202F}' || c == '\U{205F}' || c == '\U{3000}'
  }

  function StripLeft(s: string): (r: string)
    ensures |r| <= |s| && r == s[|s| - |r|..]
    ensures r == [] || !IsSpace(r[0])
  {
    if |s| > 0 && IsSpace(s[0]) then StripLeft(s[1..]) else s
  }

  /** What `StripLeft` drops is whitespace. */
  lemma {:induction false} StripLeftSpaces(s: string)
    ensures forall i :: 0 <= i < |s| - |StripLeft(s)| ==> IsSpace(s[i])
    decreases |s|
  {
    if |s| > 0 && IsSpace(s[0]) {
      var t := s[1..];
      var n := |t| - |StripLeft(t)|;
      assert |s| - |StripLeft(s)| == n + 1;
      StripLeftSpaces(t);
      SpacesBefore(s[0], t, n);
      assert s == [s[0]] + t;
    }
  }

  lemma SpacesBefore(c: char, t: string, n: nat)
    requires IsSpace(c) && n <= |t|
    requires forall i :: 0 <= i < n ==> IsSpace(t[i])
    ensures forall i :: 0 <= i < n + 1 ==> IsSpace(([c] + t)[i])
  {
    forall i | 0 <= i < n + 1 ensures IsSpace(([c] + t)[i]) {
      if i > 0 {
        assert ([c] + t)[i] == t[i - 1];
      }
    }
  }

  function StripRight(s: string): (r: string)
    ensures |r| <= |s| && r == s[..|r|]
    ensures r == [] || !IsSpace(r[|r| - 1])
  {
    if |s| > 0 && IsSpace(s[|s| - 1]) then StripRight(s[..|s| - 1]) else s
  }

  /** What `StripRight` drops is whitespace. */
  lemma {:induction false} StripRightSpaces(s: string)
    ensures forall i :: |StripRight(s)| <= i < |s| ==> IsSpace(s[i])
    decreases |s|
  {
    if |s| > 0 && IsSpace(s[|s| - 1]) {
      StripRightSpaces(s[..|s| - 1]);
    }
  }

  /** `s.strip()`: the longest infix of `s` that neither starts nor ends with
      whitespace; only whitespace is dropped around it. */
  function Strip(s: string): (r: string)
    ensures |r| <= |s|
    ensures r == [] || (!IsSpace(r[0]) && !IsSpace(r[|r| - 1]))
  {
    StripRight(StripLeft(s))
  }

  /** A string that neither starts nor ends with whitespace is its own
      strip. */
  lemma StripUnchanged(s: string)
    requires s == [] || (!IsSpace(s[0]) && !IsSpace(s[|s| - 1]))
    ensures Strip(s) == s
  {
  }

  /** Stripping keeps every non-space character: a string made only of
      whitespace strips to "" and any other string does not. */
  lemma StripEmpty(s: string)
    ensures Strip(s) == [] <==> forall i :: 0 <= i < |s| ==> IsSpace(s[i])
  {
    var l := StripLeft(s);
    StripLeftSpaces(s);
    StripRightSpaces(l);
    assert |l| > 0 ==> l[0] == s[|s| - |l|];
    assert |l| > 0 ==> StripRight(l) != [];
  }

  predicate IsAsciiUpper(c: char) { 'A' <= c <= 'Z' }
  predicate IsAsciiLower(c: char) { 'a' <= c <= 'z' }

  function UpperChar(c: char): char {
    if IsAsciiLower(c) then (c as int - 32) as char else c
  }

  function LowerChar(c: char): char {
    if IsAsciiUpper(c) then (c as int + 32) as char else c
  }

  /** `s.upper()` on ASCII letters. */
  function Upper(s: string): (r: string)
    ensures |r| == |s| && forall i :: 0 <= i < |s| ==> r[i] == UpperChar(s[i])
  {
    if s == [] then [] else [UpperChar(s[0])] + Upper(s[1..])
  }

  /** `s.lower()` on ASCII letters. */
  function Lower(s: string): (r: string)
    ensures |r| == |s| && forall i :: 0 <= i < |s| ==> r[i] == LowerChar(s[i])
  {
    if s == [] then [] else [LowerChar(s[0])] + Lower(s[1..])
  }

  /** `s.capitalize()` on ASCII letters: first character upper, rest lower. */
  function Capitalize(s: string): (r: string)
    ensures |r| == |s|
    ensures |s| > 0 ==> r[0] == UpperChar(s[0]) && r[1..] == Lower(s[1..])
  {
    if s == [] then [] else [UpperChar(s[0])] + Lower(s[1..])
  }

  /** `s.isupper()` on ASCII: some cased character and no lower-case one. */
  predicate IsUpperStr(s: string) {
    (exists i :: 0 <= i < |s| && IsAsciiUpper(s[i]))
    && forall i :: 0 <= i < |s| ==> !IsAsciiLower(s[i])
  }

  /** `s.split(c)` for a one-character separator. */
  function Split(s: string, c: char): (r: seq<string>)
    ensures |r| >= 1
    ensures forall i :: 0 <= i < |r| ==> c !in r[i]
  {
    if s == [] then [""]
    else
      var rest := Split(s[1..], c);
      if s[0] == c then [""] + rest else [[s[0]] + rest[0]] + rest[1..]
  }

  /** `c.join(parts)` */
  function Join(parts: seq<string>, c: char): string {
    if parts == [] then ""
    else if |parts| == 1 then parts[0]
    else parts[0] + [c] + Join(parts[1..], c)
  }

  /** Splitting and re-joining on the same separator gives the string back. */
  lemma {:induction false} JoinSplit(s: string, c: char)
    ensures Join(Split(s, c), c) == s
  {
    if s != [] {
      var rest := Split(s[1..], c);
      JoinSplit(s[1..], c);
      if s[0] != c {
        if |rest| > 1 {
          assert Join(rest, c) == rest[0] + [c] + Join(rest[1..], c);
        }
      }
    }
  }

  /** The first piece of `s.split(c)` is the text before the first `c`, and
      the other pieces re-joined with `c` are the text after it. */
  lemma {:induction false} SplitFirst(s: string, c: char)
    requires Contains(s, [c])
    ensures Before(s, [c]) == Split(s, c)[0]
    ensures After(s, [c]) == Join(Split(s, c)[1..], c)
  {
    if s[0] == c {
      assert StartsWith(s, [c]);
      JoinSplit(s[1..], c);
    } else {
      assert !StartsWith(s, [c]);
      var k := Find(s[1..], [c]).value;
      assert Find(s, [c]) == Some(k + 1);
      assert s[..k + 1] == [s[0]] + s[1..][..k];
      assert s[k + 2..] == s[1..][k + 1..];
      SplitFirst(s[1..], c);
    }
  }

  /** Splitting the join of pieces that do not contain the separator gives
      the pieces back: each piece is one field of the joined text. */
  lemma {:induction false} SplitJoin(parts: seq<string>, c: char)
    requires |parts| > 0 && forall i :: 0 <= i < |parts| ==> c !in parts[i]
    ensures Split(Join(parts, c), c) == parts
    decreases |parts|, |parts[0]|
  {
    if |parts| == 1 {
      SplitNoSeparator(parts[0], c);
    } else {
      var t := Join(parts[1..], c);
      SplitJoin(parts[1..], c);
      SplitPrefix(parts[0], t, c);
    }
  }

  /** A string without the separator is a single field. */
  lemma {:induction false} SplitNoSeparator(s: string, c: char)
    requires c !in s
    ensures Split(s, c) == [s]
    decreases |s|
  {
    if s != [] {
      assert c !in s[1..];
      SplitNoSeparator(s[1..], c);
      assert [s[0]] + s[1..] == s;
    }
  }

  /** A separator-free head followed by the separator is the first field. */
  lemma {:induction false} SplitPrefix(head: string, t: string, c: char)
    requires c !in head
    ensures Split(head + [c] + t, c) == [head] + Split(t, c)
    decreases |head|
  {
    var s := head + [c] + t;
    if head == [] {
      assert s[0] == c && s[1..] == t;
    } else {
      assert s[0] == head[0] && s[1..] == head[1..] + [c] + t;
      assert c !in head[1..];
      SplitPrefix(head[1..], t, c);
      assert [head[0]] + head[1..] == head;
    }
  }

  /** `s.index(c)`: the first position of the character `c`. */
  function IndexOf(s: string, c: char): (r: nat)
    requires c in s
    ensures r < |s| && s[r] == c && c !in s[..r]
  {
    if s[0] == c then 0
    else
      var k := IndexOf(s[1..], c);
      assert s[..k + 1] == [s[0]] + s[1..][..k];
      k + 1
  }

  /** `s.split(c, 1)` when `c` occurs in `s`: the text before its first
      occurrence and everything after it, which may contain `c` again. */
  function SplitOnce(s: string, c: char): (r: (string, string))
    requires c in s
    ensures r.0 + [c] + r.1 == s
    ensures c !in r.0
  {
    var k := IndexOf(s, c);
    assert s == s[..k] + [c] + s[k + 1..];
    (s[..k], s[k + 1..])
  }

  /** `strip()` removes only whitespace, so a character that is not
      whitespace survives it. */
  lemma StripKeeps(s: string, c: char)
    requires c in s && !IsSpace(c)
    ensures c in Strip(s)
  {
    var l := StripLeft(s);
    StripLeftSpaces(s);
    var i :| 0 <= i < |s| && s[i] == c;
    assert i >= |s| - |l|;
    assert l[i - (|s| - |l|)] == c;
    StripRightSpaces(l);
    var r := StripRight(l);
    assert r[i - (|s| - |l|)] == c;
  }

  /** The decimal digit for `d < 10`. */
  function Digit(d: nat): char
    requires d < 10
  {
    "0123456789"[d]
  }

  /** `str(n)` for a natural number: its decimal digits, no leading zero. */
  function NatToString(n: nat): (r: string)
    ensures |r| > 0 && forall i :: 0 <= i < |r| ==> '0' <= r[i] <= '9'
    ensures |r| > 1 ==> r[0] != '0'
    decreases n
  {
    if n < 10 then [Digit(n)] else NatToString(n / 10) + [Digit(n % 10)]
  }

  /** The value a string of decimal digits denotes. */
  function DigitsValue(s: string): nat
    requires forall i :: 0 <= i < |s| ==> '0' <= s[i] <= '9'
  {
    if s == [] then 0 else DigitsValue(s[..|s| - 1]) * 10 + (s[|s| - 1] as int - '0' as int)
  }

  /** `str(n)` denotes `n`, so different counts render differently. */
  lemma {:induction false} NatToStringValue(n: nat)
    ensures DigitsValue(NatToString(n)) == n
    decreases n
  {
    if n >= 10 {
      var r := NatToString(n);
      assert r[..|r| - 1] == NatToString(n / 10);
      NatToStringValue(n / 10);
    }
  }

  /** `repr(s)` for a string without quotes or backslashes: `'s'`. */
  function QuoteRepr(s: string): string {
    "'" + s + "'"
  }

  /** `str(items)` for a list of strings: `['a', 'b']`. */
  function ListRepr(items: seq<string>): string {
    "[" + JoinWith(Map(items), ", ") + "]"
  }

  function Map(items: seq<string>): (r: seq<string>)
    ensures |r| == |items| && forall i :: 0 <= i < |items| ==> r[i] == QuoteRepr(items[i])
  {
    if items == [] then [] else [QuoteRepr(items[0])] + Map(items[1..])
  }

  /** `sep.join(parts)` for a string separator. */
  function JoinWith(parts: seq<string>, sep: string): string {
    if parts == [] then ""
    else if |parts| == 1 then parts[0]
    else parts[0] + sep + JoinWith(parts[1..], sep)
  }
}
