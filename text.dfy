/** Python's `str` built-ins that the library relies on, over `seq<char>`:
    whitespace as `str.isspace` and the regex class `\s` see it, `split()`,
    `' '.join`, `strip`, `replace`, `lower`, `upper`, `find`, `int()`,
    `str(int)` and `zfill`. */
module Text {
  import opened Wrappers

  /** The characters `str.split()`, `str.strip()` and the regex class `\s` treat as whitespace. */
  predicate IsSpace(c: char) {
    c == ' ' || ('\t' <= c <= '\r') || ('\U{1C}' <= c <= '\U{1F}') || c == '\U{85}' || c == '\U{A0}'
    || c == '\U{1680}' || ('\U{2000}' <= c <= '\U{200A}') || c == '\U{2028}' || c == '\U{2029}'
    || c == '\U{202F}' || c == '\U{205F}' || c == '\U{3000}'
  }

  /** The ASCII digits `0`-`9`. Python's `\d` and `int()` accept every
      Unicode decimal digit; the model recognises these ten only. */
  predicate IsDigit(c: char) { '0' <= c <= '9' }

  predicate AllDigits(s: string) { forall i :: 0 <= i < |s| ==> IsDigit(s[i]) }

  predicate IsUpper(c: char) { ('A' <= c <= 'Z') || ('\U{C0}' <= c <= '\U{DE}' && c != '\U{D7}') }
  predicate IsLower(c: char) { ('a' <= c <= 'z') || ('\U{E0}' <= c <= '\U{FE}' && c != '\U{F7}') }

  function LowerChar(c: char): (r: char)
    ensures !IsUpper(r)
    ensures IsUpper(c) || r == c
  {
    if IsUpper(c) then (c as int + 32) as char else c
  }

  function UpperChar(c: char): (r: char)
    ensures !IsLower(r)
    ensures IsLower(c) || r == c
  {
    if IsLower(c) then (c as int - 32) as char else c
  }

  /** `s.lower()` (Basic Latin and Latin-1 letters). */
  function Lower(s: string): (r: string)
    ensures |r| == |s|
    ensures forall i :: 0 <= i < |s| ==> r[i] == LowerChar(s[i])
  {
    if s == [] then [] else [LowerChar(s[0])] + Lower(s[1..])
  }

  /** `s.upper()` (Basic Latin and Latin-1 letters other than the German sharp s). */
  function Upper(s: string): (r: string)
    ensures |r| == |s|
    ensures forall i :: 0 <= i < |s| ==> r[i] == UpperChar(s[i])
  {
    if s == [] then [] else [UpperChar(s[0])] + Upper(s[1..])
  }

  lemma LowerIdempotent(s: string)
    ensures Lower(Lower(s)) == Lower(s)
  {
  }

  lemma LowerHasNoUpper(s: string)
    ensures forall x :: x in Lower(s) ==> !IsUpper(x)
  {
    forall x | x in Lower(s) ensures !IsUpper(x) {
      var k :| 0 <= k < |s| && Lower(s)[k] == x;
    }
  }

  /** `a.lower() == b.lower()`: the comparison used by every `re.IGNORECASE` literal below. */
  predicate EqualsIgnoreCase(a: string, b: string) { Lower(a) == Lower(b) }

  predicate StartsWith(s: string, p: string) { p <= s }

  predicate EndsWith(s: string, p: string) { |p| <= |s| && s[|s| - |p|..] == p }

  /** `sub` occurs in `s` at index `j`. */
  predicate OccursAt(s: string, sub: string, j: int) {
    0 <= j && j + |sub| <= |s| && s[j..j + |sub|] == sub
  }

  lemma OccursAtTail(s: string, sub: string, j: int)
    requires s != [] && j >= 1
    ensures OccursAt(s, sub, j) <==> OccursAt(s[1..], sub, j - 1)
  {
    if j + |sub| <= |s| {
      var a, b := s[j..j + |sub|], s[1..][j - 1..j - 1 + |sub|];
      forall k | 0 <= k < |a| ensures a[k] == b[k] {
        assert a[k] == s[j + k] && b[k] == s[j + k];
      }
      assert a == b;
    }
  }

  /** `s.find(sub)`: the first index where `sub` occurs, or -1. */
  function Find(s: string, sub: string): (r: int)
    ensures -1 <= r <= |s|
    ensures r >= 0 ==> OccursAt(s, sub, r)
    ensures forall j :: 0 <= j <= |s| && (r < 0 || j < r) ==> !OccursAt(s, sub, j)
    decreases |s|
  {
    if sub <= s then 0
    else if s == [] then -1
    else
      var k := Find(s[1..], sub);
      assert forall j :: 1 <= j <= |s| ==> (OccursAt(s, sub, j) <==> OccursAt(s[1..], sub, j - 1)) by {
        forall j | 1 <= j <= |s| ensures OccursAt(s, sub, j) <==> OccursAt(s[1..], sub, j - 1) {
          OccursAtTail(s, sub, j);
        }
      }
      if k < 0 then -1 else k + 1
  }

  /** `sub in s`. */
  predicate Contains(s: string, sub: string) { Find(s, sub) >= 0 }

  lemma ContainsAt(s: string, sub: string, j: nat)
    requires OccursAt(s, sub, j)
    ensures Contains(s, sub)
  {
  }

  /** `s.replace(c, r)` for a single character `c`. */
  function ReplaceChar(s: string, c: char, r: string): (t: string)
    ensures forall x :: x in t ==> (x in s && x != c) || x in r
    ensures c !in r ==> c !in t
    ensures c !in s ==> t == s
  {
    if s == [] then [] else (if s[0] == c then r else [s[0]]) + ReplaceChar(s[1..], c, r)
  }

  /** Every character of `s` that is in `cs` removed (`s.replace(c, '')` for each `c` in `cs`). */
  function DeleteChars(s: string, cs: set<char>): (t: string)
    ensures forall x :: x in t ==> x in s && x !in cs
    ensures |t| <= |s|
    ensures (forall i :: 0 <= i < |s| ==> s[i] !in cs) ==> t == s
  {
    if s == [] then [] else (if s[0] in cs then [] else [s[0]]) + DeleteChars(s[1..], cs)
  }

  // ---------------------------------------------------------------- strip

  function TrimStartWith(s: string, cs: set<char>): (r: string)
    ensures |r| <= |s| && r == s[|s| - |r|..]
    ensures r != [] ==> r[0] !in cs
    ensures forall i :: 0 <= i < |s| - |r| ==> s[i] in cs
  {
    if s != [] && s[0] in cs then TrimStartWith(s[1..], cs) else s
  }

  function TrimEndWith(s: string, cs: set<char>): (r: string)
    ensures |r| <= |s| && r == s[..|r|]
    ensures r != [] ==> r[|r| - 1] !in cs
    ensures forall i :: |r| <= i < |s| ==> s[i] in cs
  {
    if s != [] && s[|s| - 1] in cs then TrimEndWith(s[..|s| - 1], cs) else s
  }

  /** `s.strip(chars)`. */
  function StripChars(s: string, cs: set<char>): (r: string)
    ensures r != [] ==> r[0] !in cs && r[|r| - 1] !in cs
    ensures |r| <= |s|
  {
    TrimEndWith(TrimStartWith(s, cs), cs)
  }

  function TrimStart(s: string): (r: string)
    ensures |r| <= |s| && r == s[|s| - |r|..]
    ensures r != [] ==> !IsSpace(r[0])
    ensures forall i :: 0 <= i < |s| - |r| ==> IsSpace(s[i])
  {
    if s != [] && IsSpace(s[0]) then TrimStart(s[1..]) else s
  }

  function TrimEnd(s: string): (r: string)
    ensures |r| <= |s| && r == s[..|r|]
    ensures r != [] ==> !IsSpace(r[|r| - 1])
    ensures forall i :: |r| <= i < |s| ==> IsSpace(s[i])
  {
    if s != [] && IsSpace(s[|s| - 1]) then TrimEnd(s[..|s| - 1]) else s
  }

  /** `s.strip()`. */
  function Strip(s: string): (r: string)
    ensures r != [] ==> !IsSpace(r[0]) && !IsSpace(r[|r| - 1])
    ensures |r| <= |s|
    ensures forall x :: x in r ==> x in s
  {
    TrimEnd(TrimStart(s))
  }

  // ------------------------------------------------------- split and join

  /** A non-empty run of non-whitespace characters: one element of `s.split()`. */
  predicate IsWord(w: string) { w != [] && forall i :: 0 <= i < |w| ==> !IsSpace(w[i]) }

  /** The longest prefix of `s` holding no whitespace. */
  function TakeWord(s: string): (w: string)
    ensures w <= s
    ensures forall i :: 0 <= i < |w| ==> !IsSpace(w[i])
    ensures |w| < |s| ==> IsSpace(s[|w|])
  {
    if s == [] || IsSpace(s[0]) then [] else [s[0]] + TakeWord(s[1..])
  }

  /** `s.split()`: the maximal runs of non-whitespace characters, in order. */
  function Words(s: string): (ws: seq<string>)
    ensures forall k :: 0 <= k < |ws| ==> IsWord(ws[k])
    decreases |s|
  {
    var t := TrimStart(s);
    if t == [] then []
    else
      var w := TakeWord(t);
      assert |w| > 0;
      [w] + Words(t[|w|..])
  }

  lemma SliceChars(s: string, i: nat, j: nat)
    requires i <= j <= |s|
    ensures forall x :: x in s[i..j] ==> x in s
  {
    forall x | x in s[i..j] ensures x in s {
      var k :| 0 <= k < j - i && s[i..j][k] == x;
      assert s[i + k] == x;
    }
  }

  lemma {:induction false} WordsChars(s: string)
    ensures forall w, x :: w in Words(s) && x in w ==> x in s
    decreases |s|
  {
    var t := TrimStart(s);
    if t != [] {
      var w0 := TakeWord(t);
      var rest := t[|w0|..];
      WordsChars(rest);
      assert Words(s) == [w0] + Words(rest);
      SliceChars(s, |s| - |t|, |s|);
      SliceChars(t, 0, |w0|);
      SliceChars(t, |w0|, |t|);
      assert w0 == t[0..|w0|];
    }
  }

  /** `sep.join(ws)`. */
  function Join(ws: seq<string>, sep: string): (r: string)
    ensures forall x :: x in r ==> x in sep || exists w :: w in ws && x in w
  {
    if ws == [] then [] else if |ws| == 1 then ws[0] else ws[0] + sep + Join(ws[1..], sep)
  }

  /** No whitespace other than single blanks between non-blank characters:
      no leading, trailing or repeated whitespace. */
  predicate Tidy(s: string) {
    forall i :: 0 <= i < |s| && IsSpace(s[i]) ==> s[i] == ' ' && 0 < i < |s| - 1 && !IsSpace(s[i + 1])
  }

  lemma {:induction false} JoinWordsTidy(ws: seq<string>)
    requires forall k :: 0 <= k < |ws| ==> IsWord(ws[k])
    ensures Tidy(Join(ws, " "))
    ensures ws != [] ==> Join(ws, " ") != [] && !IsSpace(Join(ws, " ")[0])
  {
    if |ws| > 1 {
      JoinWordsTidy(ws[1..]);
      var a, b := ws[0], Join(ws[1..], " ");
      var r := a + " " + b;
      assert Join(ws, " ") == r;
      forall i | 0 <= i < |r| && IsSpace(r[i])
        ensures r[i] == ' ' && 0 < i < |r| - 1 && !IsSpace(r[i + 1])
      {
        if i > |a| {
          assert r[i] == b[i - |a| - 1];
          assert r[i + 1] == b[i - |a|];
        }
      }
    }
  }

  /** `' '.join(s.split())`: whitespace runs collapsed to one blank, ends trimmed. */
  function Collapse(s: string): (r: string)
    ensures Tidy(r)
    ensures forall x :: x in r ==> x == ' ' || x in s
    ensures r != [] ==> !IsSpace(r[0]) && !IsSpace(r[|r| - 1])
  {
    var ws := Words(s);
    JoinWordsTidy(ws);
    WordsChars(s);
    var r := Join(ws, " ");
    assert forall x :: x in r ==> x == ' ' || x in s by {
      forall x | x in r ensures x == ' ' || x in s {
        if x != ' ' {
          var w :| w in ws && x in w;
        }
      }
    }
    r
  }

  lemma TidyEnds(s: string)
    requires Tidy(s) && s != []
    ensures !IsSpace(s[0]) && !IsSpace(s[|s| - 1])
  {
  }

  /** What follows a blank of a tidy string is tidy. */
  lemma TidyAfterBlank(s: string, k: nat)
    requires Tidy(s) && k < |s| && s[k] == ' '
    ensures Tidy(s[k + 1..])
  {
    var y := s[k + 1..];
    forall i | 0 <= i < |y| && IsSpace(y[i]) ensures y[i] == ' ' && 0 < i < |y| - 1 && !IsSpace(y[i + 1]) {
      assert y[i] == s[k + 1 + i];
      assert i + 1 < |y| ==> y[i + 1] == s[k + 2 + i];
    }
  }

  /** A tidy string is its own `' '.join(s.split())`. */
  lemma {:induction false} CollapseTidy(s: string)
    requires Tidy(s)
    ensures Collapse(s) == s
  {
    JoinWordsOfTidy(s);
  }

  /** Splitting a tidy string at its first blank: the first word, then the words of the rest. */
  lemma WordsOfTidyStep(s: string, w: string)
    requires Tidy(s) && s != [] && w == TakeWord(s) && |w| < |s|
    ensures |w| + 1 < |s| && s == w + " " + s[|w| + 1..]
    ensures Tidy(s[|w| + 1..])
    ensures Words(s) == [w] + Words(s[|w| + 1..]) && Words(s[|w| + 1..]) != []
  {
    TidyEnds(s);
    assert TrimStart(s) == s;
    assert s[|w|] == ' ' && !IsSpace(s[|w| + 1]);
    var y := s[|w| + 1..];
    assert TrimStart(s[|w|..]) == y by {
      assert s[|w|..][1..] == y;
    }
    assert TrimStart(y) == y;
    TidyAfterBlank(s, |w|);
    BlankSplit(s, w);
  }

  lemma BlankSplit(s: string, w: string)
    requires w <= s && |w| < |s| && s[|w|] == ' '
    ensures s == w + " " + s[|w| + 1..]
  {
    assert s == s[..|w|] + s[|w|..|w| + 1] + s[|w| + 1..];
  }

  lemma JoinCons(w: string, ws: seq<string>, sep: string)
    requires ws != []
    ensures Join([w] + ws, sep) == w + sep + Join(ws, sep)
  {
    assert ([w] + ws)[1..] == ws;
  }

  lemma {:induction false} JoinWordsOfTidy(s: string)
    requires Tidy(s)
    ensures Join(Words(s), " ") == s
    decreases |s|
  {
    if s != [] {
      TidyEnds(s);
      assert TrimStart(s) == s;
      var w := TakeWord(s);
      if |w| == |s| {
        assert w == s;
        assert Words(s) == [s];
      } else {
        var y := s[|w| + 1..];
        WordsOfTidyStep(s, w);
        JoinWordsOfTidy(y);
        JoinCons(w, Words(y), " ");
      }
    }
  }

  lemma TidyNoDoubleBlank(s: string, i: nat)
    requires Tidy(s) && i + 1 < |s|
    ensures !(s[i] == ' ' && s[i + 1] == ' ')
  {
  }

  /** Cutting a tidy string and stripping the cut keeps it tidy: `s[:n].strip()`. */
  lemma {:induction false} StripPrefixTidy(s: string, n: nat)
    requires Tidy(s) && n <= |s|
    ensures Tidy(Strip(s[..n]))
    ensures |Strip(s[..n])| <= n
  {
    var t := s[..n];
    var a := TrimStart(t);
    assert a == t by {
      if t != [] { assert !IsSpace(s[0]); }
    }
    var r := TrimEnd(a);
    assert r == t[..|r|];
    forall i | 0 <= i < |r| && IsSpace(r[i])
      ensures r[i] == ' ' && 0 < i < |r| - 1 && !IsSpace(r[i + 1])
    {
      assert r[i] == s[i];
      assert i < |s| - 1 && !IsSpace(s[i + 1]);
      if i == |r| - 1 {
        assert false;
      }
      assert r[i + 1] == s[i + 1];
    }
  }

  // ------------------------------------------------------------- numbers

  function DigitChar(d: nat): (c: char)
    requires d < 10
    ensures IsDigit(c)
  {
    ('0' as int + d) as char
  }

  function DigitValue(c: char): (d: nat)
    requires IsDigit(c)
    ensures d < 10
  {
    c as int - '0' as int
  }

  /** The value of a run of decimal digits. */
  function DigitsValue(s: string): nat
    requires AllDigits(s)
  {
    if s == [] then 0 else 10 * DigitsValue(s[..|s| - 1]) + DigitValue(s[|s| - 1])
  }

  /** `str(n)` for a natural number. */
  function NatToString(n: nat): (s: string)
    ensures s != [] && AllDigits(s)
    ensures |s| == 1 <==> n < 10
  {
    if n < 10 then [DigitChar(n)] else NatToString(n / 10) + [DigitChar(n % 10)]
  }

  /** `str(i)`. */
  function IntToString(i: int): (s: string)
    ensures s != []
  {
    if i < 0 then "-" + NatToString(-i) else NatToString(i)
  }

  lemma {:induction false} NatToStringValue(n: nat)
    ensures DigitsValue(NatToString(n)) == n
  {
    if n >= 10 {
      NatToStringValue(n / 10);
      var s := NatToString(n);
      assert s[..|s| - 1] == NatToString(n / 10);
    }
  }

  /** `int(s)`: surrounding whitespace, an optional sign, then decimal digits. */
  function ParseInt(s: string): Option<int>
  {
    var t := Strip(s);
    if t == [] then None
    else if (t[0] == '-' || t[0] == '+') then
      (if |t| > 1 && AllDigits(t[1..]) then
         Some(if t[0] == '-' then -(DigitsValue(t[1..]) as int) else DigitsValue(t[1..]))
       else None)
    else if AllDigits(t) then
      Some(DigitsValue(t))
    else None
  }

  lemma DigitNotSpace(c: char)
    requires IsDigit(c)
    ensures !IsSpace(c) && c != '-' && c != '+'
  {
  }

  /** `int(str(n)) == n`. */
  lemma ParseNatToString(n: nat)
    ensures ParseInt(NatToString(n)) == Some(n)
  {
    NatToStringValue(n);
    var s := NatToString(n);
    DigitNotSpace(s[0]);
    DigitNotSpace(s[|s| - 1]);
    assert TrimStart(s) == s;
    assert TrimEnd(s) == s;
    assert Strip(s) == s;
  }

  function Zeros(n: nat): (z: string)
    ensures |z| == n && AllDigits(z)
  {
    if n == 0 then [] else "0" + Zeros(n - 1)
  }

  /** `s.zfill(width)`: zeros inserted after an optional sign up to `width` characters. */
  function ZFill(s: string, width: nat): (r: string)
    ensures |r| == if |s| >= width then |s| else width
    ensures |s| >= width ==> r == s
    ensures AllDigits(s) ==> AllDigits(r) && EndsWith(r, s)
  {
    if |s| >= width then s
    else if s != [] && (s[0] == '+' || s[0] == '-') then [s[0]] + Zeros(width - |s|) + s[1..]
    else Zeros(width - |s|) + s
  }

  /** `s.split(sep)[0]`: the text before the first `sep`. */
  function BeforeFirst(s: string, sep: char): (r: string)
    ensures r <= s && sep !in r
    ensures |r| < |s| ==> s[|r|] == sep
  {
    if s == [] || s[0] == sep then [] else [s[0]] + BeforeFirst(s[1..], sep)
  }

  /** `s.split(sep)` for a one-character separator. */
  function SplitOn(s: string, sep: char): (parts: seq<string>)
    ensures |parts| >= 1
    ensures forall k :: 0 <= k < |parts| ==> sep !in parts[k]
    ensures sep !in s ==> parts == [s]
    ensures sep in s ==> |parts| >= 2
    decreases |s|
  {
    var head := BeforeFirst(s, sep);
    if |head| == |s| then
      assert head == s;
      [s]
    else [head] + SplitOn(s[|head| + 1..], sep)
  }

  /** `BeforeFirst` stops at the first separator. */
  lemma {:induction false} BeforeFirstOfJoin(a: string, sep: char, b: string)
    requires sep !in a
    ensures BeforeFirst(a + [sep] + b, sep) == a
  {
    if a != [] {
      assert (a + [sep] + b)[1..] == a[1..] + [sep] + b;
      BeforeFirstOfJoin(a[1..], sep, b);
    }
  }

  /** Two separator-free parts joined by the separator split back into them. */
  lemma SplitPair(a: string, sep: char, b: string)
    requires sep !in a && sep !in b
    ensures SplitOn(a + [sep] + b, sep) == [a, b]
  {
    BeforeFirstOfJoin(a, sep, b);
    assert (a + [sep] + b)[|a| + 1..] == b;
  }

  /** The maximal run of digits at the front of `s`. */
  function LeadingDigits(s: string): (r: string)
    ensures r <= s && AllDigits(r)
    ensures |r| < |s| ==> !IsDigit(s[|r|])
  {
    if s == [] || !IsDigit(s[0]) then [] else [s[0]] + LeadingDigits(s[1..])
  }

  /** The maximal run of whitespace at the front of `s`. */
  function LeadingSpaces(s: string): (r: string)
    ensures r <= s
    ensures forall i :: 0 <= i < |r| ==> IsSpace(r[i])
    ensures |r| < |s| ==> !IsSpace(s[|r|])
  {
    if s == [] || !IsSpace(s[0]) then [] else [s[0]] + LeadingSpaces(s[1..])
  }

  /** The maximal run of digits at the end of `s`. */
  function TrailingDigits(s: string): (r: string)
    ensures EndsWith(s, r) && AllDigits(r)
    ensures |r| < |s| ==> !IsDigit(s[|s| - |r| - 1])
  {
    if s == [] || !IsDigit(s[|s| - 1]) then [] else TrailingDigits(s[..|s| - 1]) + [s[|s| - 1]]
  }

  /** A tidy string is its own strip. */
  lemma StripTidy(s: string)
    requires Tidy(s)
    ensures Strip(s) == s
  {
    if s != [] {
      assert !IsSpace(s[0]) && !IsSpace(s[|s| - 1]);
    }
  }

  /** Digits followed by a non-digit: the leading run is those digits. */
  lemma {:induction false} LeadingDigitsOf(d: string, rest: string)
    requires AllDigits(d) && (rest == [] || !IsDigit(rest[0]))
    ensures LeadingDigits(d + rest) == d
  {
    if d != [] {
      assert (d + rest)[1..] == d[1..] + rest;
      LeadingDigitsOf(d[1..], rest);
    } else {
      assert d + rest == rest;
    }
  }

  /** Digits after a non-digit: the trailing run is those digits. */
  lemma {:induction false} TrailingDigitsOf(p: string, d: string)
    requires AllDigits(d) && p != [] && !IsDigit(p[|p| - 1])
    ensures TrailingDigits(p + d) == d
  {
    if d != [] {
      assert (p + d)[..|p + d| - 1] == p + d[..|d| - 1];
      TrailingDigitsOf(p, d[..|d| - 1]);
      assert d == d[..|d| - 1] + [d[|d| - 1]];
    } else {
      assert p + d == p;
    }
  }

  lemma {:induction false} ZerosAreZero(z: nat)
    ensures forall i :: 0 <= i < |Zeros(z)| ==> Zeros(z)[i] == '0'
  {
    if z > 0 {
      ZerosAreZero(z - 1);
      assert forall i :: 1 <= i < z ==> Zeros(z)[i] == Zeros(z - 1)[i - 1];
    }
  }

  lemma {:induction false} AllZeroValue(s: string)
    requires forall i :: 0 <= i < |s| ==> s[i] == '0'
    ensures AllDigits(s) && DigitsValue(s) == 0
  {
    if s != [] {
      AllZeroValue(s[..|s| - 1]);
    }
  }

  lemma {:induction false} PrefixedValue(a: string, s: string)
    requires AllDigits(a) && DigitsValue(a) == 0 && AllDigits(s)
    ensures AllDigits(a + s) && DigitsValue(a + s) == DigitsValue(s)
  {
    if s != [] {
      assert (a + s)[..|a + s| - 1] == a + s[..|s| - 1];
      PrefixedValue(a, s[..|s| - 1]);
    } else {
      assert a + s == a;
    }
  }

  /** Zero padding does not change a number's value: `int(s.zfill(w)) == int(s)`. */
  lemma ZFillValue(s: string, width: nat)
    requires AllDigits(s)
    ensures AllDigits(ZFill(s, width)) && DigitsValue(ZFill(s, width)) == DigitsValue(s)
  {
    if |s| < width {
      ZerosAreZero(width - |s|);
      AllZeroValue(Zeros(width - |s|));
      PrefixedValue(Zeros(width - |s|), s);
    }
  }

  // ------------------------------------------------------------- ordering

  /** Python's order on text: by code points, a proper prefix first. */
  predicate LexLess(x: string, y: string) {
    if x == [] then y != []
    else if y == [] then false
    else x[0] < y[0] || (x[0] == y[0] && LexLess(x[1..], y[1..]))
  }

  lemma {:induction false} LexLessAsymmetric(x: string, y: string)
    requires LexLess(x, y)
    ensures !LexLess(y, x)
  {
    if x != [] && y != [] && x[0] == y[0] {
      LexLessAsymmetric(x[1..], y[1..]);
    }
  }

  lemma {:induction false} LexLessTransitive(x: string, y: string, z: string)
    requires LexLess(x, y) && LexLess(y, z)
    ensures LexLess(x, z)
  {
    if x != [] && y != [] && z != [] && x[0] == y[0] && y[0] == z[0] {
      LexLessTransitive(x[1..], y[1..], z[1..]);
    }
  }

  lemma {:induction false} LexLessTotal(x: string, y: string)
    ensures LexLess(x, y) || x == y || LexLess(y, x)
  {
    if x != [] && y != [] && x[0] == y[0] {
      LexLessTotal(x[1..], y[1..]);
      if x[1..] == y[1..] {
        assert x == [x[0]] + x[1..] && y == [y[0]] + y[1..];
      }
    }
  }

  /** Neither of two texts sorting before the next one, the first does not
      sort before the last. */
  lemma NotLexLessTransitive(x: string, y: string, z: string)
    requires !LexLess(x, y) && !LexLess(y, z)
    ensures !LexLess(x, z)
  {
    if LexLess(x, z) {
      LexLessTotal(x, y);
      if LexLess(y, x) {
        LexLessTransitive(y, x, z);
      }
    }
  }
}
