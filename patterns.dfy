/** Explicit stand-ins for the regular expressions the library uses. A
    pattern is given by the length of its match at the front of a string
    (0 for no match), or by a test of "a match starts here and runs to the
    end"; the backtracking each pattern needs is worked out by hand in the
    comment above its function. */
module Patterns {
  import opened Wrappers
  import opened Text

  /** `re.sub(p, '', s)` for a pattern `p` that never matches the empty
      string, given as `m`: scanning left to right, a match is dropped and
      scanning resumes after it; otherwise one character is kept. */
  function RemoveMatches(s: string, m: string -> nat): (r: string)
    ensures |r| <= |s|
    ensures forall x :: x in r ==> x in s
    decreases |s|
  {
    if s == [] then []
    else
      var n := m(s);
      if 0 < n <= |s| then
        var r := RemoveMatches(s[n..], m);
        assert forall x :: x in s[n..] ==> x in s;
        r
      else
        var r := [s[0]] + RemoveMatches(s[1..], m);
        assert forall x :: x in s[1..] ==> x in s;
        r
  }

  /** A pattern that does not match at the front of any suffix leaves the string as it is. */
  lemma {:induction false} RemoveNoMatches(s: string, m: string -> nat)
    requires forall i :: 0 <= i < |s| ==> m(s[i..]) == 0
    ensures RemoveMatches(s, m) == s
    decreases |s|
  {
    if s != [] {
      assert m(s[0..]) == 0 by { assert s[0..] == s; }
      forall i | 0 <= i < |s[1..]| ensures m(s[1..][i..]) == 0 {
        assert s[1..][i..] == s[i + 1..];
      }
      RemoveNoMatches(s[1..], m);
    }
  }

  /** Case-insensitive literal `kw` (given in lower case) at index `i`. */
  predicate LiteralAt(t: string, i: nat, kw: string) {
    i + |kw| <= |t| && Lower(t[i..i + |kw|]) == kw
  }

  /** The alternation `(?:k0|k1|...)` at index `i`: the length of the first
      alternative that matches there, 0 if none does. */
  function KeywordLen(t: string, i: nat, keywords: seq<string>): (k: nat)
    ensures k > 0 ==> i + k <= |t| && exists j :: 0 <= j < |keywords| && |keywords[j]| == k && LiteralAt(t, i, keywords[j])
    ensures k == 0 ==> forall j :: 0 <= j < |keywords| && keywords[j] != [] ==> !LiteralAt(t, i, keywords[j])
  {
    if keywords == [] then 0
    else if keywords[0] != [] && LiteralAt(t, i, keywords[0]) then |keywords[0]|
    else
      var k := KeywordLen(t, i, keywords[1..]);
      assert k > 0 ==> exists j :: 0 <= j < |keywords[1..]| && |keywords[1..][j]| == k && LiteralAt(t, i, keywords[1..][j]);
      assert forall j :: 1 <= j < |keywords| ==> keywords[j] == keywords[1..][j - 1];
      k
  }

  /** `\s*[\[\(]?(?:k0|k1|...)\s*\d+[\]\)]?` at the front of `t`. The leading
      blanks are taken whole (a blank cannot start what follows), an opening
      bracket is taken when present (no keyword starts with one), the digits
      are taken whole, and a closing bracket after them is taken when present. */
  function DiscMarkerLen(t: string, keywords: seq<string>): (n: nat)
    ensures n <= |t|
  {
    var a := |LeadingSpaces(t)|;
    var b := if a < |t| && (t[a] == '[' || t[a] == '(') then a + 1 else a;
    var k := KeywordLen(t, b, keywords);
    if k == 0 then 0
    else
      var c := b + k + |LeadingSpaces(t[b + k..])|;
      var d := |LeadingDigits(t[c..])|;
      if d == 0 then 0
      else
        var e := c + d;
        if e < |t| && (t[e] == ']' || t[e] == ')') then e + 1 else e
  }

  /** A disc marker holds a digit: the first of its number. */
  lemma MarkerDigit(t: string, keywords: seq<string>) returns (c: nat)
    requires DiscMarkerLen(t, keywords) > 0
    ensures c < |t| && IsDigit(t[c])
  {
    var a := |LeadingSpaces(t)|;
    var b := if a < |t| && (t[a] == '[' || t[a] == '(') then a + 1 else a;
    var k := KeywordLen(t, b, keywords);
    c := b + k + |LeadingSpaces(t[b + k..])|;
    var ds := LeadingDigits(t[c..]);
    assert ds != [];
    assert ds[0] == t[c..][0];
  }

  /** `\s*<open>[^<close>]*<word>[^<close>]*<close>`, case-insensitive, at the
      front of `t`: blanks, the opening bracket, then the text up to the
      first closing bracket, which must exist and contain `word`. */
  function GroupLen(t: string, open: char, close: char, word: string): (n: nat)
    ensures n <= |t|
    ensures n > 0 ==> t[n - 1] == close
  {
    var q := |LeadingSpaces(t)|;
    if q < |t| && t[q] == open then
      var inner := BeforeFirst(t[q + 1..], close);
      if q + 1 + |inner| < |t| && Contains(Lower(inner), word) then q + 2 + |inner| else 0
    else 0
  }

  /** `\s*,?\s*vol(?:ume)?\.?\s*\d+`, case-insensitive, at the front of `t`.
      Each optional part is taken when present: leaving it out would put a
      character no later part accepts in front of the rest. */
  function VolumeLen(t: string): (n: nat)
    ensures n <= |t|
  {
    var a := |LeadingSpaces(t)|;
    var b := if a < |t| && t[a] == ',' then a + 1 else a;
    var c := b + |LeadingSpaces(t[b..])|;
    if !LiteralAt(t, c, "vol") then 0
    else
      var d := if LiteralAt(t, c + 3, "ume") then c + 6 else c + 3;
      var e := if d < |t| && t[d] == '.' then d + 1 else d;
      var f := e + |LeadingSpaces(t[e..])|;
      var g := |LeadingDigits(t[f..])|;
      if g == 0 then 0 else f + g
  }

  /** The first index `q >= p` at which `at(t, q)` holds. */
  function FirstWhere(t: string, at: (string, nat) -> bool, p: nat): (q: Option<nat>)
    ensures q.Some? ==> p <= q.value <= |t| && at(t, q.value) && forall j :: p <= j < q.value ==> !at(t, j)
    ensures q.None? ==> forall j :: p <= j <= |t| ==> !at(t, j)
    decreases |t| + 1 - p
  {
    if p > |t| then None
    else if at(t, p) then Some(p)
    else FirstWhere(t, at, p + 1)
  }

  /** `re.sub(p + '$', '', t)` for a pattern matched from `q` to the end when
      `at(t, q)` holds: the leftmost such match is removed. */
  function CutTail(t: string, at: (string, nat) -> bool): (r: string)
    ensures r <= t
    ensures forall x :: x in r ==> x in t
    ensures r != t ==> at(t, |r|) && forall j :: 0 <= j < |r| ==> !at(t, j)
    ensures r == t ==> forall j :: 0 <= j < |t| ==> !at(t, j)
  {
    var q := FirstWhere(t, at, 0);
    if q.Some? then
      assert forall x :: x in t[..q.value] ==> x in t;
      t[..q.value]
    else t
  }
}
