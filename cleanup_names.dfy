/** The album-name cleanup script: the rules that rewrite a folder name, the
    test for a name that looks cut short, the scan that sorts the folders of
    an artist directory, and the guarded folder renames. The directory is
    its listing plus the set of names that exist in it. */
module CleanupNames {
  import opened Wrappers
  import opened Text
  import Patterns

  // ------------------------------------------------------ disc notation

  /** `\s*\[Disc\s+(\d+)\]$` (with `bracketed`) or `\s*<kw>\s+(\d+)$`
      (without), case-insensitive, matched from `q` to the end of `t`. The
      blanks before the keyword and after it are taken whole, as nothing
      that follows them is a blank. */
  predicate NotationAt(t: string, q: nat, kw: string, bracketed: bool) {
    q <= |t| &&
    var u := t[q..];
    var a := |LeadingSpaces(u)|;
    var b := if bracketed then a + 1 else a;
    (bracketed ==> a < |u| && u[a] == '[') &&
    Patterns.LiteralAt(u, b, kw) &&
    var s := |LeadingSpaces(u[b + |kw|..])|;
    var c := b + |kw| + s;
    var d := |LeadingDigits(u[c..])|;
    s > 0 && d > 0 && c + d + (if bracketed then 1 else 0) == |u| && (bracketed ==> u[c + d] == ']')
  }

  predicate BracketDiscAt(t: string, q: nat) { NotationAt(t, q, "disc", true) }
  predicate DiscAt(t: string, q: nat) { NotationAt(t, q, "disc", false) }
  predicate DiskAt(t: string, q: nat) { NotationAt(t, q, "disk", false) }

  /** A disc notation ends the name: its last character is a digit or `]`,
      and a digit occurs in it. */
  lemma NotationEnd(t: string, q: nat, kw: string, bracketed: bool)
    requires NotationAt(t, q, kw, bracketed)
    ensures t != [] && (IsDigit(t[|t| - 1]) || t[|t| - 1] == ']')
    ensures exists i :: 0 <= i < |t| && IsDigit(t[i])
  {
    var p, d := NumberAt(t, q, kw, bracketed);
    EndOfDigits(t, p, d, bracketed);
  }

  /** Where a notation's number starts and how many digits it has. */
  lemma NumberAt(t: string, q: nat, kw: string, bracketed: bool) returns (p: nat, d: nat)
    requires NotationAt(t, q, kw, bracketed)
    ensures d > 0 && p + d + (if bracketed then 1 else 0) == |t|
    ensures AllDigits(t[p..p + d]) && (bracketed ==> t[p + d] == ']')
  {
    var u := t[q..];
    var a := |LeadingSpaces(u)|;
    var b := if bracketed then a + 1 else a;
    var s := |LeadingSpaces(u[b + |kw|..])|;
    var c := b + |kw| + s;
    var w := u[c..];
    var ds := LeadingDigits(w);
    p, d := q + c, |ds|;
    assert |u| == |t| - q && c + d + (if bracketed then 1 else 0) == |u|;
    var r := t[p..p + d];
    forall i | 0 <= i < d ensures IsDigit(r[i]) {
      assert r[i] == w[i] == ds[i];
    }
    if bracketed {
      assert u[c + d] == t[p + d];
    }
  }

  /** A name ending in a run of digits, or in digits and a `]`. */
  lemma EndOfDigits(t: string, p: nat, d: nat, bracketed: bool)
    requires d > 0 && p + d + (if bracketed then 1 else 0) == |t|
    requires AllDigits(t[p..p + d]) && (bracketed ==> t[p + d] == ']')
    ensures t != [] && (IsDigit(t[|t| - 1]) || t[|t| - 1] == ']')
    ensures exists i :: 0 <= i < |t| && IsDigit(t[i])
  {
    assert t[p..p + d][0] == t[p];
    if !bracketed {
      assert t[p..p + d][d - 1] == t[|t| - 1];
    }
  }

  /** A disc notation found at the end of a name: where it starts, and its number as written. */
  datatype Notation = Notation(start: nat, digits: string)

  /** The number of a notation matched at `q`: the digits before the end (or before the `]`). */
  function NotationDigits(t: string, bracketed: bool): string {
    if bracketed && t != [] then TrailingDigits(t[..|t| - 1]) else TrailingDigits(t)
  }

  /** The disc notation of `clean_album_name`: the first of the three
      patterns with a match, at its leftmost match. */
  function FindNotation(name: string): (m: Option<Notation>)
    ensures m.Some? ==> m.value.start <= |name| && m.value.digits != [] && AllDigits(m.value.digits)
    ensures m.Some? ==> m.value.digits == NotationDigits(name, true) || m.value.digits == NotationDigits(name, false)
    ensures m.Some? ==> BracketDiscAt(name, m.value.start) || DiscAt(name, m.value.start) || DiskAt(name, m.value.start)
    ensures m.None? ==> forall q :: 0 <= q <= |name| ==> !BracketDiscAt(name, q) && !DiscAt(name, q) && !DiskAt(name, q)
  {
    var p1 := Patterns.FirstWhere(name, BracketDiscAt, 0);
    if p1.Some? then NotationFound(name, p1.value, "disc", true)
    else
      var p2 := Patterns.FirstWhere(name, DiscAt, 0);
      if p2.Some? then NotationFound(name, p2.value, "disc", false)
      else
        var p3 := Patterns.FirstWhere(name, DiskAt, 0);
        if p3.Some? then NotationFound(name, p3.value, "disk", false)
        else None
  }

  function NotationFound(name: string, q: nat, kw: string, bracketed: bool): (m: Option<Notation>)
    requires NotationAt(name, q, kw, bracketed)
    ensures m == Some(Notation(q, NotationDigits(name, bracketed)))
    ensures NotationDigits(name, bracketed) != []
  {
    NotationNumber(name, q, kw, bracketed);
    Some(Notation(q, NotationDigits(name, bracketed)))
  }

  /** The number of a notation is the run of digits it ends with. */
  lemma NotationNumber(t: string, q: nat, kw: string, bracketed: bool)
    requires NotationAt(t, q, kw, bracketed)
    ensures NotationDigits(t, bracketed) != []
  {
    var p, d := NumberAt(t, q, kw, bracketed);
    var x := if bracketed then t[..|t| - 1] else t;
    assert x != [] && x[|x| - 1] == t[p..p + d][d - 1];
  }

  // ---------------------------------------------------- separator rules

  /** `re.sub(r'_\s+', ': ', s)`. */
  function ColonUnderscores(s: string): (r: string)
    ensures forall x :: x in r ==> x in s || x == ':' || x == ' '
    ensures '_' !in s ==> r == s
    decreases |s|
  {
    if s == [] then []
    else
      var k := |LeadingSpaces(s[1..])|;
      if s[0] == '_' && k > 0 then
        assert forall x :: x in s[1 + k..] ==> x in s;
        ": " + ColonUnderscores(s[1 + k..])
      else
        assert forall x :: x in s[1..] ==> x in s;
        [s[0]] + ColonUnderscores(s[1..])
  }

  /** `re.sub(r'_(\d{4})', r' (\1)', s)`. */
  function YearUnderscores(s: string): (r: string)
    ensures forall x :: x in r ==> x in s || x == '(' || x == ')' || x == ' '
    ensures '_' !in s ==> r == s
    decreases |s|
  {
    if s == [] then []
    else if s[0] == '_' && |s| >= 5 && AllDigits(s[1..5]) then
      assert forall x :: x in s[1..5] ==> x in s;
      assert forall x :: x in s[5..] ==> x in s;
      " (" + s[1..5] + ")" + YearUnderscores(s[5..])
    else
      assert forall x :: x in s[1..] ==> x in s;
      [s[0]] + YearUnderscores(s[1..])
  }

  /** `re.sub(r'\[([^\]]+)\]', r'(\1)', s)`: a `[` whose first `]` comes
      after at least one character turns, with that `]`, into parentheses. */
  function BracketsToParens(s: string): (r: string)
    ensures forall x :: x in r ==> x in s || x == '(' || x == ')'
    ensures '[' !in s ==> r == s
    decreases |s|
  {
    if s == [] then []
    else
      var inner := BeforeFirst(s[1..], ']');
      if s[0] == '[' && inner != [] && 1 + |inner| < |s| then
        assert forall x :: x in inner ==> x in s;
        assert forall x :: x in s[2 + |inner|..] ==> x in s;
        "(" + inner + ")" + BracketsToParens(s[2 + |inner|..])
      else
        assert forall x :: x in s[1..] ==> x in s;
        [s[0]] + BracketsToParens(s[1..])
  }

  /** A bracket group whose text has no `]` becomes a parenthesised group,
      when nothing before it is a `[`. */
  lemma BracketGroupToParens(a: string, x: string, b: string)
    requires '[' !in a && x != [] && ']' !in x
    ensures BracketsToParens(a + ['['] + x + [']'] + b) == a + ['('] + x + [')'] + BracketsToParens(b)
  {
    Regroup(a, '[', x, ']', b);
    Regroup(a, '(', x, ')', BracketsToParens(b));
    PlainPrefix(a, ['['] + x + [']'] + b);
    GroupAtFront(x, b);
  }

  lemma Regroup(a: string, o: char, x: string, c: char, b: string)
    ensures a + [o] + x + [c] + b == a + ([o] + x + [c] + b)
  {
  }

  /** A prefix with no `[` is kept as it is. */
  lemma {:induction false} PlainPrefix(a: string, g: string)
    requires '[' !in a
    ensures BracketsToParens(a + g) == a + BracketsToParens(g)
    decreases |a|
  {
    if a != [] {
      var t := a[1..] + g;
      calc {
        BracketsToParens(a + g);
        { assert a + g == [a[0]] + t; }
        BracketsToParens([a[0]] + t);
        { PlainStep(a[0], t); }
        [a[0]] + BracketsToParens(t);
        { PlainPrefix(a[1..], g); }
        [a[0]] + (a[1..] + BracketsToParens(g));
        { HeadThenTail(a, BracketsToParens(g)); }
        a + BracketsToParens(g);
      }
    } else {
      assert a + g == g;
    }
  }

  lemma HeadThenTail(a: string, v: string)
    requires a != []
    ensures [a[0]] + (a[1..] + v) == a + v
  {
    assert a == [a[0]] + a[1..];
  }

  /** A character other than `[` is kept as it is. */
  lemma PlainStep(c: char, t: string)
    requires c != '['
    ensures BracketsToParens([c] + t) == [c] + BracketsToParens(t)
  {
    assert ([c] + t)[1..] == t;
  }

  lemma GroupAtFront(x: string, b: string)
    requires x != [] && ']' !in x
    ensures BracketsToParens(['['] + x + [']'] + b) == ['('] + x + [')'] + BracketsToParens(b)
  {
    var s := ['['] + x + [']'] + b;
    assert s[1..] == x + [']'] + b;
    BeforeFirstOfJoin(x, ']', b);
    assert s[2 + |x|..] == b;
  }

  /** No two whitespace characters in a row. */
  predicate NoDoubleSpace(s: string) {
    forall i :: 0 <= i < |s| - 1 ==> !(IsSpace(s[i]) && IsSpace(s[i + 1]))
  }

  /** `re.sub(r'\s{2,}', ' ', s)`. */
  function CollapseRuns(s: string): (r: string)
    ensures forall x :: x in r ==> x in s || x == ' '
    ensures NoDoubleSpace(s) ==> r == s
    decreases |s|
  {
    if s == [] then []
    else
      var k := |LeadingSpaces(s)|;
      if k >= 2 then
        assert IsSpace(s[0]) && IsSpace(s[1]);
        assert forall x :: x in s[k..] ==> x in s;
        " " + CollapseRuns(s[k..])
      else
        assert forall x :: x in s[1..] ==> x in s;
        assert NoDoubleSpace(s) ==> NoDoubleSpace(s[1..]) by {
          if NoDoubleSpace(s) {
            forall i | 0 <= i < |s[1..]| - 1 ensures !(IsSpace(s[1..][i]) && IsSpace(s[1..][i + 1])) {
              assert s[1..][i] == s[i + 1] && s[1..][i + 1] == s[i + 2];
            }
          }
        }
        [s[0]] + CollapseRuns(s[1..])
  }

  /** `re.sub(r'\s*<sep>\s*', '<sep> ', s)` for `:` and `,`. */
  function SpaceAfter(s: string, sep: char): (r: string)
    ensures forall x :: x in r ==> x in s || x == ' '
    ensures sep !in s ==> r == s
    decreases |s|
  {
    if s == [] then []
    else
      var k := |LeadingSpaces(s)|;
      if k < |s| && s[k] == sep then
        var j := k + 1 + |LeadingSpaces(s[k + 1..])|;
        assert forall x :: x in s[j..] ==> x in s;
        [sep, ' '] + SpaceAfter(s[j..], sep)
      else
        assert forall x :: x in s[1..] ==> x in s;
        [s[0]] + SpaceAfter(s[1..], sep)
  }

  /** `(?<!\d)\s*-\s*(?!\d)` at the front of `s`, not preceded by a digit:
      the length of the match, 0 if none. The blanks after the hyphen give
      back one blank when a digit follows them. */
  function HyphenLen(s: string): (n: nat)
    ensures n <= |s|
    ensures n > 0 ==> s[n - 1] == '-' || IsSpace(s[n - 1])
  {
    var k := |LeadingSpaces(s)|;
    if k < |s| && s[k] == '-' then
      var m := |LeadingSpaces(s[k + 1..])|;
      var e := k + 1 + m;
      if e == |s| || !IsDigit(s[e]) then
        assert m > 0 ==> s[e - 1] == s[k + 1..][m - 1];
        e
      else if m > 0 then
        assert s[e - 2] == '-' || s[e - 2] == s[k + 1..][m - 2];
        e - 1
      else 0
    else 0
  }

  /** `re.sub(r'(?<!\d)\s*-\s*(?!\d)', ' - ', s)`; `afterDigit` tells
      whether the character before `s` is a digit. */
  function SpaceHyphens(s: string, afterDigit: bool): (r: string)
    ensures forall x :: x in r ==> x in s || x == ' '
    ensures '-' !in s ==> r == s
    decreases |s|
  {
    if s == [] then []
    else
      var n := if afterDigit then 0 else HyphenLen(s);
      if n > 0 then
        assert '-' in s by {
          var k := |LeadingSpaces(s)|;
          assert s[k] == '-';
        }
        assert forall x :: x in s[n..] ==> x in s;
        " - " + SpaceHyphens(s[n..], false)
      else
        assert forall x :: x in s[1..] ==> x in s;
        [s[0]] + SpaceHyphens(s[1..], IsDigit(s[0]))
  }

  // --------------------------------------------------- clean_album_name

  /** The characters the rules may put into a name: separators, parentheses
      and the letters of the restored notation. */
  const Inserted: set<char> := {' ', ':', '(', ')', '-', ',', '[', ']', 'D', 'i', 's', 'c'}

  /** The name without its disc notation, and the number of the notation to restore. */
  function SplitNotation(name: string): (r: (string, Option<string>))
    ensures r.0 <= name
    ensures r.1.Some? ==> r.1.value != [] && AllDigits(r.1.value)
    ensures r.1.Some? ==> forall x :: x in r.1.value ==> x in name
    ensures r.1.Some? <==> FindNotation(name).Some?
    ensures r.1.Some? ==> r.1.value == FindNotation(name).value.digits
  {
    var m := FindNotation(name);
    if m.Some? then
      NotationDigitsIn(name);
      assert forall x :: x in m.value.digits ==> x in name;
      (name[..m.value.start], Some(m.value.digits))
    else (name, None)
  }

  /** The digits of a notation are characters of the name. */
  lemma NotationDigitsIn(name: string)
    ensures forall x :: x in NotationDigits(name, true) ==> x in name
    ensures forall x :: x in NotationDigits(name, false) ==> x in name
  {
    if name != [] {
      assert EndsWith(name[..|name| - 1], TrailingDigits(name[..|name| - 1]));
      assert forall x :: x in name[..|name| - 1] ==> x in name;
    }
    assert EndsWith(name, TrailingDigits(name));
  }

  /** The separator rules applied to a name whose disc notation is removed. */
  function Standardize(s: string): (r: string)
    ensures '_' !in r
    ensures forall x :: x in r ==> x in s || x in Inserted
  {
    var a := ColonUnderscores(s);
    var b := YearUnderscores(a);
    var c := ReplaceChar(b, '_', " ");
    assert Drawn(c, s) by {
      forall x | x in c ensures x in s || x in Inserted {
        if x != ' ' {
          assert x in b;
          assert x in a || x in Inserted;
        }
      }
    }
    var d := BracketsToParens(c);
    DrawnStep(c, d, s);
    var e := CollapseRuns(d);
    DrawnStep(d, e, s);
    var f := SpaceAfter(e, ':');
    DrawnStep(e, f, s);
    var g := SpaceHyphens(f, false);
    DrawnStep(f, g, s);
    var h := SpaceAfter(g, ',');
    DrawnStep(g, h, s);
    var r := Strip(h);
    DrawnStep(h, r, s);
    r
  }

  /** No underscore, and every character from `s` or one the rules insert. */
  predicate Drawn(r: string, s: string) {
    '_' !in r && forall x :: x in r ==> x in s || x in Inserted
  }

  /** A rule that only inserts separators keeps a result drawn from `s`. */
  lemma DrawnStep(a: string, b: string, s: string)
    requires Drawn(a, s)
    requires forall x :: x in b ==> x in a || x in Inserted
    ensures Drawn(b, s)
  {
  }

  /** ` [Disc N]`. */
  function NotationTail(digits: string): (t: string)
    requires AllDigits(digits)
    ensures '_' !in t
    ensures forall x :: x in t ==> x in digits || x in Inserted
  {
    var t := " [Disc " + digits + "]";
    assert forall i :: 0 <= i < |t| ==> t[i] in digits || t[i] in Inserted by {
      forall i | 0 <= i < |t| ensures t[i] in digits || t[i] in Inserted {
        if 7 <= i < 7 + |digits| {
          assert t[i] == digits[i - 7];
        }
      }
    }
    t
  }

  /** `clean_album_name(name)`: the disc notation is taken off the end, the
      separator rules are applied to the rest, and the notation comes back
      at the end as ` [Disc N]`. The result has no underscore and no
      character that is not in the name, a separator or part of the notation. */
  function CleanAlbumName(name: string): (r: string)
    ensures '_' !in r
    ensures forall x :: x in r ==> x in name || x in Inserted
    ensures FindNotation(name).Some? ==> EndsWith(r, NotationTail(FindNotation(name).value.digits))
    ensures FindNotation(name).None? ==> r == Standardize(name)
  {
    var (body, disc) := SplitNotation(name);
    var cleaned := Standardize(body);
    assert forall x :: x in body ==> x in name;
    if disc.Some? then
      var tail := NotationTail(disc.value);
      var r := cleaned + tail;
      assert r[|r| - |tail|..] == tail;
      r
    else cleaned
  }

  /** A tidy name with no separator to fix, no bracket and no digit (so no
      disc notation) is already clean. */
  lemma PlainNameUnchanged(name: string)
    requires Tidy(name)
    requires '_' !in name && '[' !in name && ':' !in name && '-' !in name && ',' !in name
    requires forall i :: 0 <= i < |name| ==> !IsDigit(name[i])
    ensures CleanAlbumName(name) == name
  {
    NoNotation(name);
    assert NoDoubleSpace(name);
    StripTidy(name);
  }

  /** A name without digits has no disc notation. */
  lemma NoNotation(name: string)
    requires forall i :: 0 <= i < |name| ==> !IsDigit(name[i])
    ensures FindNotation(name).None?
  {
    var m := FindNotation(name);
    if m.Some? {
      var q := m.value.start;
      if BracketDiscAt(name, q) {
        NotationEnd(name, q, "disc", true);
      } else if DiscAt(name, q) {
        NotationEnd(name, q, "disc", false);
      } else {
        NotationEnd(name, q, "disk", false);
      }
    }
  }

  // --------------------------------------------------- detect_truncation

  /** The short last words that are not taken as a sign of truncation. */
  const ValidShort: seq<string> := ["2", "3", "4", "5", "6", "7", "8", "9", "10", "II", "III", "IV", "UK", "US", "CD", "EP", "LP"]

  /** The characters stripped from the last word before it is measured. */
  const WordPunctuation: set<char> := {'.', ',', '!', '?', ';', ':'}

  /** The name the later patterns see: a trailing `[Disc N]`, then a trailing `Disc N`, removed. */
  function TruncationTest(name: string): (t: string)
    ensures t <= name
  {
    var a := Patterns.CutTail(name, BracketDiscAt);
    var b := Patterns.CutTail(a, DiscAt);
    assert b <= a <= name;
    b
  }

  /** `_\s*$`: an underscore followed by nothing but whitespace. */
  predicate EndsWithUnderscore(t: string) {
    var e := TrimEnd(t);
    e != [] && e[|e| - 1] == '_'
  }

  /** The last word, stripped of `.,!?;:`, is shorter than three characters,
      is not an accepted short word and is not a number. */
  predicate ShortLastWord(t: string) {
    var ws := Words(t);
    ws != [] &&
    var w := StripChars(ws[|ws| - 1], WordPunctuation);
    |w| < 3 && w !in ValidShort && !(w != [] && AllDigits(w))
  }

  /** `detect_truncation(name)`. */
  function DetectTruncation(name: string): (r: bool)
    ensures r <==> EndsWith(TruncationTest(name), "...") || EndsWithUnderscore(TruncationTest(name))
                   || ShortLastWord(TruncationTest(name))
  {
    var t := TruncationTest(name);
    if EndsWith(t, "...") then true
    else if EndsWithUnderscore(t) then true
    else ShortLastWord(t)
  }

  /** A name ending in neither a digit nor `]` has no disc notation to remove. */
  lemma TestKeepsName(name: string)
    requires name != [] && !IsDigit(name[|name| - 1]) && name[|name| - 1] != ']'
    ensures TruncationTest(name) == name
  {
  }

  /** A name ending in an ellipsis is taken as truncated. */
  lemma EllipsisTruncated(name: string)
    requires EndsWith(name, "...")
    ensures DetectTruncation(name)
  {
    assert name[|name| - 1] == "..."[2];
    TestKeepsName(name);
  }

  /** A name ending in an underscore (and perhaps whitespace) is taken as truncated. */
  lemma UnderscoreTruncated(name: string)
    requires EndsWithUnderscore(name)
    ensures DetectTruncation(name)
  {
    var e := TrimEnd(name);
    assert name[|name| - 1] == '_' || IsSpace(name[|name| - 1]);
    TestKeepsName(name);
  }

  /** A cleaned name never shows the underscore sign of truncation. */
  lemma CleanedHasNoUnderscoreSign(name: string)
    ensures !EndsWithUnderscore(TruncationTest(CleanAlbumName(name)))
  {
    var r := CleanAlbumName(name);
    var t := TruncationTest(r);
    var e := TrimEnd(t);
    if e != [] {
      assert e[|e| - 1] == t[|e| - 1] == r[|e| - 1];
    }
  }

  // --------------------------------------------------------- scan_albums

  /** One entry of the needs-cleaning list. */
  datatype Cleanup = Cleanup(oldName: string, newName: string, reason: string)

  /** The reasons reported for a name that cleaning changes. */
  function Reasons(folder: string): seq<string> {
    (if '_' in folder then ["underscores"] else [])
    + (if '[' in folder && !Contains(folder, "Disc") then ["brackets"] else [])
    + (if Contains(folder, "  ") then ["spacing"] else [])
  }

  predicate Changes(folder: string) { CleanAlbumName(folder) != folder }
  predicate IsClean(folder: string) { !Changes(folder) && !DetectTruncation(folder) }

  /** The needs-cleaning list: every folder that cleaning changes, with its new name. */
  function NeedsCleaning(folders: seq<string>): (cs: seq<Cleanup>)
    ensures forall c :: c in cs ==> c.oldName in folders && c.newName == CleanAlbumName(c.oldName) != c.oldName
  {
    if folders == [] then []
    else
      var f := folders[|folders| - 1];
      NeedsCleaning(folders[..|folders| - 1]) + NeedsEntry(f)
  }

  function NeedsEntry(f: string): (cs: seq<Cleanup>)
    ensures forall c :: c in cs ==> c.oldName == f && c.newName == CleanAlbumName(f) != f
  {
    if Changes(f) then [Cleanup(f, CleanAlbumName(f), Join(Reasons(f), ", "))] else []
  }

  /** The truncated list, in listing order. */
  function Truncated(folders: seq<string>): (ts: seq<string>)
    ensures forall f :: f in ts <==> f in folders && DetectTruncation(f)
  {
    if folders == [] then []
    else
      var f := folders[|folders| - 1];
      Truncated(folders[..|folders| - 1]) + TruncatedEntry(f)
  }

  /** The clean list, in listing order. */
  function CleanList(folders: seq<string>): (cs: seq<string>)
    ensures forall f :: f in cs <==> f in folders && IsClean(f)
  {
    if folders == [] then []
    else
      var f := folders[|folders| - 1];
      CleanList(folders[..|folders| - 1]) + CleanEntry(f)
  }

  function TruncatedEntry(f: string): (ts: seq<string>)
    ensures forall g :: g in ts <==> g == f && DetectTruncation(f)
  {
    if DetectTruncation(f) then [f] else []
  }

  function CleanEntry(f: string): (cs: seq<string>)
    ensures forall g :: g in cs <==> g == f && IsClean(f)
  {
    if IsClean(f) then [f] else []
  }

  /** The folders that cleaning leaves unchanged but that look truncated. */
  function UnchangedTruncated(folders: seq<string>): seq<string> {
    if folders == [] then []
    else
      var f := folders[|folders| - 1];
      UnchangedTruncated(folders[..|folders| - 1]) + (if !Changes(f) && DetectTruncation(f) then [f] else [])
  }

  /** Each folder is counted exactly once: it needs cleaning, or it is clean,
      or it is unchanged but looks truncated. */
  lemma {:induction false} ScanPartition(folders: seq<string>)
    ensures |NeedsCleaning(folders)| + |CleanList(folders)| + |UnchangedTruncated(folders)| == |folders|
  {
    if folders != [] {
      ScanPartition(folders[..|folders| - 1]);
    }
  }

  /** The three lists of a scan. */
  datatype Scan = Scan(needs: seq<Cleanup>, truncated: seq<string>, clean: seq<string>)

  /** What one folder adds to each list. */
  function ScanStep(r: Scan, f: string): Scan {
    Scan(r.needs + NeedsEntry(f), r.truncated + TruncatedEntry(f), r.clean + CleanEntry(f))
  }

  function ScanOf(folders: seq<string>): Scan {
    if folders == [] then Scan([], [], [])
    else ScanStep(ScanOf(folders[..|folders| - 1]), folders[|folders| - 1])
  }

  lemma {:induction false} ScanOfLists(folders: seq<string>)
    ensures ScanOf(folders) == Scan(NeedsCleaning(folders), Truncated(folders), CleanList(folders))
  {
    if folders != [] {
      ScanOfLists(folders[..|folders| - 1]);
    }
  }

  /** `scan_albums` over the listed folders. */
  method ScanAlbums(folders: seq<string>) returns (needs: seq<Cleanup>, truncated: seq<string>, clean: seq<string>)
    ensures needs == NeedsCleaning(folders)
    ensures truncated == Truncated(folders)
    ensures clean == CleanList(folders)
  {
    var r := Scan([], [], []);
    var i := 0;
    while i < |folders|
      invariant 0 <= i <= |folders|
      invariant r == ScanOf(folders[..i])
    {
      assert folders[..i + 1][..i] == folders[..i];
      r := ScanStep(r, folders[i]);
      i := i + 1;
    }
    assert folders[..i] == folders;
    ScanOfLists(folders);
    needs, truncated, clean := r.needs, r.truncated, r.clean;
  }

  // -------------------------------------------------- rename_album_folder

  /** `rename_album_folder`, on the names that exist in the artist directory.
      The same name is a success with nothing to do; a dry run succeeds
      without renaming; an existing target fails; a rename of a missing
      folder, or one the file system refuses, fails; otherwise the folder
      takes its new name. */
  function RenameAlbumFolder(existing: set<string>, oldName: string, newName: string, dryRun: bool, refused: set<string>)
    : (r: (bool, set<string>))
    ensures oldName == newName || dryRun ==> r == (true, existing)
    ensures oldName != newName && !dryRun && newName in existing ==> r == (false, existing)
    ensures r.1 == existing || r.1 == existing - {oldName} + {newName}
    ensures r.1 != existing ==> r.0 && oldName in existing && newName !in existing
  {
    if oldName == newName then (true, existing)
    else if dryRun then (true, existing)
    else if newName in existing then (false, existing)
    else if oldName !in existing || oldName in refused then (false, existing)
    else (true, existing - {oldName} + {newName})
  }

  /** A rename keeps the number of names in the directory. */
  lemma RenameKeepsCount(existing: set<string>, oldName: string, newName: string, dryRun: bool, refused: set<string>)
    ensures |RenameAlbumFolder(existing, oldName, newName, dryRun, refused).1| == |existing|
  {
    var r := RenameAlbumFolder(existing, oldName, newName, dryRun, refused);
    if r.1 != existing {
      assert |existing - {oldName}| == |existing| - 1;
    }
  }

  // -------------------------------------------------------- batch_cleanup

  datatype Tally = Tally(existing: set<string>, success: nat, errors: nat)

  /** The renames of the needs-cleaning list, applied in order. */
  function BatchRenames(existing: set<string>, cs: seq<Cleanup>, dryRun: bool, refused: set<string>): (t: Tally)
    ensures t.success + t.errors == |cs|
    ensures |t.existing| == |existing|
  {
    if cs == [] then Tally(existing, 0, 0)
    else
      var t := BatchRenames(existing, cs[..|cs| - 1], dryRun, refused);
      var c := cs[|cs| - 1];
      var r := RenameAlbumFolder(t.existing, c.oldName, c.newName, dryRun, refused);
      RenameKeepsCount(t.existing, c.oldName, c.newName, dryRun, refused);
      if r.0 then Tally(r.1, t.success + 1, t.errors) else Tally(r.1, t.success, t.errors + 1)
  }

  /** In a dry run every rename succeeds and nothing changes. */
  lemma {:induction false} DryRunAllSucceed(existing: set<string>, cs: seq<Cleanup>, refused: set<string>)
    ensures BatchRenames(existing, cs, true, refused) == Tally(existing, |cs|, 0)
  {
    if cs != [] {
      DryRunAllSucceed(existing, cs[..|cs| - 1], refused);
    }
  }

  /** `batch_cleanup`: the folders are scanned, and each one that needs
      cleaning is renamed to its cleaned name; every rename is counted as a
      success or an error, and the directory keeps its number of names. */
  method BatchCleanup(folders: seq<string>, existing: set<string>, dryRun: bool, refused: set<string>)
    returns (after: set<string>, successCount: nat, errorCount: nat)
    ensures Tally(after, successCount, errorCount) == BatchRenames(existing, NeedsCleaning(folders), dryRun, refused)
    ensures successCount + errorCount == |NeedsCleaning(folders)|
    ensures |after| == |existing|
    ensures dryRun ==> after == existing && successCount == |NeedsCleaning(folders)| && errorCount == 0
  {
    var needs, truncated, clean := ScanAlbums(folders);
    if dryRun {
      DryRunAllSucceed(existing, needs, refused);
    }
    if needs == [] {
      return existing, 0, 0;
    }
    var t := RenamePass(existing, needs, dryRun, refused);
    after, successCount, errorCount := t.existing, t.success, t.errors;
  }

  /** The rename loop of `batch_cleanup`. */
  method RenamePass(existing: set<string>, needs: seq<Cleanup>, dryRun: bool, refused: set<string>) returns (t: Tally)
    ensures t == BatchRenames(existing, needs, dryRun, refused)
  {
    t := Tally(existing, 0, 0);
    var i := 0;
    while i < |needs|
      invariant 0 <= i <= |needs|
      invariant t == BatchRenames(existing, needs[..i], dryRun, refused)
    {
      assert needs[..i + 1][..i] == needs[..i];
      var c := needs[i];
      var r := RenameAlbumFolder(t.existing, c.oldName, c.newName, dryRun, refused);
      if r.0 {
        t := Tally(r.1, t.success + 1, t.errors);
      } else {
        t := Tally(r.1, t.success, t.errors + 1);
      }
      i := i + 1;
    }
    assert needs[..i] == needs;
  }
}
