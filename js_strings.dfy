/** The few JavaScript value semantics the gateway's token handling relies on:
    truthiness of a string property that may be missing, `||` on such values,
    `String.prototype.trim`, `String.prototype.split` with a one-character
    separator, and array indexing that yields `undefined` past the end. */
module JsStrings {

  datatype Option<+T> = None | Some(value: T)

  /** Truthiness of a property that holds a string or is undefined/null (None):
      only a present, non-empty string is truthy. */
  function Truthy(v: Option<string>): (b: bool)
    ensures !b <==> v == None || v == Some("")
  {
    v.Some? && v.value != ""
  }

  /** The value of `a || b`: `a` when it is truthy, otherwise `b` as it is
      (which may itself be falsy). */
  function Or(a: Option<string>, b: Option<string>): (r: Option<string>)
    ensures Truthy(r) <==> Truthy(a) || Truthy(b)
    ensures Truthy(a) ==> r == a
    ensures !Truthy(a) ==> r == b
  {
    if Truthy(a) then a else b
  }

  /** `xs[i]` on a JavaScript array: undefined (None) past the end. */
  function At(xs: seq<string>, i: nat): (r: Option<string>)
    ensures r.Some? <==> i < |xs|
    ensures r.Some? ==> r.value == xs[i]
  {
    if i < |xs| then Some(xs[i]) else None
  }

  /** The ECMAScript WhiteSpace and LineTerminator code points, the set
      `String.prototype.trim` removes from both ends. */
  const WhiteSpace: set<char> := {
    '\t', '\n', '\U{000B}', '\U{000C}', '\r', ' ', '\U{00A0}', '\U{1680}',
    '\U{2000}', '\U{2001}', '\U{2002}', '\U{2003}', '\U{2004}', '\U{2005}',
    '\U{2006}', '\U{2007}', '\U{2008}', '\U{2009}', '\U{200A}',
    '\U{2028}', '\U{2029}', '\U{202F}', '\U{205F}', '\U{3000}', '\U{FEFF}'
  }

  /** The number of characters from `ws` at the start of `s`. */
  function LeadingRun(s: string, ws: set<char>): (n: nat)
    ensures n <= |s|
    ensures forall i :: 0 <= i < n ==> s[i] in ws
    ensures n == |s| || s[n] !in ws
  {
    if s != [] && s[0] in ws then
      assert forall i :: 1 <= i < |s| ==> s[1..][i - 1] == s[i];
      1 + LeadingRun(s[1..], ws)
    else 0
  }

  /** The number of characters from `ws` at the end of `s`. */
  function TrailingRun(s: string, ws: set<char>): (n: nat)
    ensures n <= |s|
    ensures forall i :: |s| - n <= i < |s| ==> s[i] in ws
    ensures n == |s| || s[|s| - n - 1] !in ws
  {
    if s != [] && s[|s| - 1] in ws then
      assert forall i :: 0 <= i < |s| - 1 ==> s[..|s| - 1][i] == s[i];
      1 + TrailingRun(s[..|s| - 1], ws)
    else 0
  }

  /** `s` with the characters from `ws` removed at both ends: empty when `s`
      holds nothing else, otherwise the stretch between the two runs. The
      result neither starts nor ends with a character from `ws`. */
  function TrimChars(s: string, ws: set<char>): (r: string)
    ensures |r| <= |s|
    ensures r == [] || (r[0] !in ws && r[|r| - 1] !in ws)
  {
    var lead := LeadingRun(s, ws);
    if lead == |s| then []
    else s[lead..|s| - TrailingRun(s, ws)]
  }

  /** What `TrimChars` removes: the result is the infix `s[k..k + |r|]`,
      where every character before `k` and after the infix is from `ws`. */
  lemma TrimCharsInfix(s: string, ws: set<char>) returns (k: nat)
    ensures var r := TrimChars(s, ws);
      && k + |r| <= |s| && r == s[k..k + |r|]
      && (forall i :: 0 <= i < k ==> s[i] in ws)
      && (forall i :: k + |r| <= i < |s| ==> s[i] in ws)
  {
    k := LeadingRun(s, ws);
  }

  /** A string that neither starts nor ends with a character from `ws` is
      left as it is. */
  lemma TrimCharsUnchanged(s: string, ws: set<char>)
    requires s == [] || (s[0] !in ws && s[|s| - 1] !in ws)
    ensures TrimChars(s, ws) == s
  {
    assert s != [] ==> LeadingRun(s, ws) == 0 && TrailingRun(s, ws) == 0;
  }

  /** When only characters from `ws` lie before `first` and after `last`,
      and the characters at both are not from `ws`, trimming keeps exactly
      `s[first..last + 1]`. */
  lemma TrimCharsBetween(s: string, ws: set<char>, first: nat, last: nat)
    requires first <= last < |s| && s[first] !in ws && s[last] !in ws
    requires forall i :: 0 <= i < first ==> s[i] in ws
    requires forall i :: last < i < |s| ==> s[i] in ws
    ensures TrimChars(s, ws) == s[first..last + 1]
  {
    assert LeadingRun(s, ws) == first;
    assert TrailingRun(s, ws) == |s| - 1 - last;
  }

  /** A run of characters from `ws` on either side of a string that neither
      starts nor ends with one is exactly what is removed. */
  lemma TrimCharsPadding(pre: string, core: string, post: string, ws: set<char>)
    requires forall i :: 0 <= i < |pre| ==> pre[i] in ws
    requires forall i :: 0 <= i < |post| ==> post[i] in ws
    requires core != [] && core[0] !in ws && core[|core| - 1] !in ws
    ensures TrimChars(pre + core + post, ws) == core
  {
    var s := pre + core + post;
    var first, last := |pre|, |pre| + |core| - 1;
    assert s[first] == core[0] && s[last] == core[|core| - 1];
    assert forall m :: 0 <= m < first ==> s[m] == pre[m];
    assert forall m :: last < m < |s| ==> s[m] == post[m - |pre| - |core|];
    TrimCharsBetween(s, ws, first, last);
    assert s[first..last + 1] == core;
  }

  /** `s.trim()`. */
  function Trim(s: string): (r: string)
    ensures |r| <= |s|
    ensures r == [] || (r[0] !in WhiteSpace && r[|r| - 1] !in WhiteSpace)
  {
    TrimChars(s, WhiteSpace)
  }

  /** White-space padding around a string whose two ends are not white
      space is exactly what `trim` removes. */
  lemma TrimStripsPadding(pre: string, core: string, post: string)
    requires forall i :: 0 <= i < |pre| ==> pre[i] in WhiteSpace
    requires forall i :: 0 <= i < |post| ==> post[i] in WhiteSpace
    requires core != [] && core[0] !in WhiteSpace && core[|core| - 1] !in WhiteSpace
    ensures Trim(pre + core + post) == core
  {
    TrimCharsPadding(pre, core, post, WhiteSpace);
  }

  /** Trimming twice is trimming once. */
  lemma TrimIdempotent(s: string)
    ensures Trim(Trim(s)) == Trim(s)
  {
    TrimCharsUnchanged(Trim(s), WhiteSpace);
  }

  /** Index of the first occurrence of `c` in `s`. */
  function IndexOf(s: string, c: char): (i: nat)
    requires c in s
    ensures i < |s| && s[i] == c && c !in s[..i]
  {
    if s[0] == c then 0
    else
      var j := IndexOf(s[1..], c);
      assert s[..j + 1] == [s[0]] + s[1..][..j];
      j + 1
  }

  /** The first occurrence is the only position whose prefix holds no `c`. */
  lemma IndexOfUnique(s: string, c: char, i: nat)
    requires i < |s| && s[i] == c && c !in s[..i]
    ensures IndexOf(s, c) == i
  {
    var j := IndexOf(s, c);
    assert forall m :: 0 <= m < i ==> s[..i][m] == s[m];
    assert forall m :: 0 <= m < j ==> s[..j][m] == s[m];
  }

  /** `fields.join(sep)` with a one-character separator. */
  function Join(fields: seq<string>, sep: char): string {
    if |fields| == 0 then ""
    else if |fields| == 1 then fields[0]
    else fields[0] + [sep] + Join(fields[1..], sep)
  }

  /** `s.split(sep)` with a one-character separator string: the maximal runs
      between separators, in order, empty runs included (so `"a  b"` has
      three fields and `""` has one). No field holds the separator and
      joining the fields back gives `s`. */
  function Split(s: string, sep: char): (fields: seq<string>)
    ensures |fields| >= 1
    ensures forall i :: 0 <= i < |fields| ==> sep !in fields[i]
    ensures Join(fields, sep) == s
    decreases |s|
  {
    if sep !in s then [s]
    else
      var i := IndexOf(s, sep);
      var rest := Split(s[i + 1..], sep);
      assert s[..i] + [sep] + s[i + 1..] == s;
      [s[..i]] + rest
  }

  /** Splitting `f sep tail`, where `f` holds no separator, gives `f`
      followed by the fields of `tail`. */
  lemma SplitCons(f: string, sep: char, tail: string)
    requires sep !in f
    ensures Split(f + [sep] + tail, sep) == [f] + Split(tail, sep)
  {
    var s := f + [sep] + tail;
    assert s[..|f|] == f;
    assert s[|f|] == sep;
    IndexOfUnique(s, sep, |f|);
    assert s[|f| + 1..] == tail;
  }

  /** Splitting a join of separator-free fields gives those fields back:
      `Split` is the inverse of `Join`. */
  lemma {:induction false} SplitJoin(fields: seq<string>, sep: char)
    requires |fields| >= 1
    requires forall i :: 0 <= i < |fields| ==> sep !in fields[i]
    ensures Split(Join(fields, sep), sep) == fields
    decreases |fields|
  {
    if |fields| > 1 {
      SplitCons(fields[0], sep, Join(fields[1..], sep));
      SplitJoin(fields[1..], sep);
      assert fields == [fields[0]] + fields[1..];
    }
  }
}
