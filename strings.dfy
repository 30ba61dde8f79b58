/** The parts of Python's `str` that the utilities rely on, over `seq<char>`:
    startswith/endswith, `in`, find, count, split, join, strip, lower,
    splitlines and integer formatting. Character classes that Python defines
    over all of Unicode (isspace) are written out; lower() and isalnum() are
    restricted to ASCII. */
module Strings {
  import opened Wrappers

  predicate StartsWith(s: string, p: string) {
    |p| <= |s| && s[..|p|] == p
  }

  predicate EndsWith(s: string, p: string) {
    |p| <= |s| && s[|s| - |p|..] == p
  }

  /** `sub` occurs in `s` starting at index `i`. */
  predicate OccursAt(s: string, sub: string, i: int) {
    0 <= i && i + |sub| <= |s| && s[i..i + |sub|] == sub
  }

  /** s[:n]: the first `n` characters, or all of `s` when it is shorter. */
  function Take(s: string, n: nat): (r: string)
    ensures |r| == if |s| <= n then |s| else n
    ensures StartsWith(s, r)
  {
    if |s| <= n then s else s[..n]
  }

  /** A prefix of a prefix is a prefix. */
  lemma PrefixOfPrefix(s: string, p: string, k: nat)
    requires StartsWith(s, p) && k <= |p|
    ensures StartsWith(s, p[..k])
  {
    assert s[..k] == p[..k];
  }

  /** The first occurrence of `sub` at or after index `i`. */
  function FindFrom(s: string, sub: string, i: nat): (r: Option<nat>)
    requires i <= |s|
    ensures r.Some? ==> i <= r.value && OccursAt(s, sub, r.value)
    ensures r.Some? ==> forall j :: i <= j < r.value ==> !OccursAt(s, sub, j)
    ensures r.None? ==> forall j :: i <= j <= |s| ==> !OccursAt(s, sub, j)
    decreases |s| - i
  {
    if OccursAt(s, sub, i) then Some(i)
    else if i == |s| then None
    else FindFrom(s, sub, i + 1)
  }

  /** The search from `i` stops at `p` when `sub` occurs there and nowhere
      in between. */
  lemma FindFromFirst(s: string, sub: string, i: nat, p: nat)
    requires i <= p <= |s| && OccursAt(s, sub, p)
    requires forall j :: i <= j < p ==> !OccursAt(s, sub, j)
    ensures FindFrom(s, sub, i) == Some(p)
  {
  }

  /** str.find: the index of the first occurrence of `sub`, if any. */
  function Find(s: string, sub: string): (r: Option<nat>)
    ensures r.Some? ==> OccursAt(s, sub, r.value)
    ensures r.Some? ==> forall j :: 0 <= j < r.value ==> !OccursAt(s, sub, j)
    ensures r.None? ==> forall j :: 0 <= j <= |s| ==> !OccursAt(s, sub, j)
  {
    FindFrom(s, sub, 0)
  }

  /** Python's `sub in s`. */
  predicate Contains(s: string, sub: string) {
    Find(s, sub).Some?
  }

  lemma ContainsAt(s: string, sub: string, i: int)
    requires OccursAt(s, sub, i)
    ensures Contains(s, sub)
  {
  }

  /** The index of the first `c` at or after `i`, or |s| when there is none. */
  function IndexOf(s: string, c: char, i: nat): (j: nat)
    requires i <= |s|
    ensures i <= j <= |s| && (j < |s| ==> s[j] == c)
    decreases |s| - i
  {
    if i == |s| || s[i] == c then i else IndexOf(s, c, i + 1)
  }

  /** No `c` lies between `i` and IndexOf(s, c, i). */
  lemma {:induction false} IndexOfSkips(s: string, c: char, i: nat)
    requires i <= |s|
    ensures forall m :: i <= m < IndexOf(s, c, i) ==> s[m] != c
    decreases |s| - i
  {
    if i < |s| && s[i] != c {
      IndexOfSkips(s, c, i + 1);
    }
  }

  /** str.count: the number of non-overlapping occurrences, scanning left to right. */
  function Count(s: string, sub: string): (r: nat)
    requires |sub| > 0
    ensures r > 0 <==> Contains(s, sub)
    decreases |s|
  {
    match Find(s, sub)
    case None => 0
    case Some(i) => 1 + Count(s[i + |sub|..], sub)
  }

  /** str.split(sep) for a non-empty separator. */
  function Split(s: string, sep: string): (r: seq<string>)
    requires |sep| > 0
    ensures |r| == Count(s, sep) + 1
    decreases |s|
  {
    match Find(s, sep)
    case None => [s]
    case Some(i) => [s[..i]] + Split(s[i + |sep|..], sep)
  }

  /** No piece of a split holds the separator. */
  lemma {:induction false} SplitPieces(s: string, sep: string)
    requires |sep| > 0
    ensures forall k :: 0 <= k < |Split(s, sep)| ==> !Contains(Split(s, sep)[k], sep)
    decreases |s|
  {
    match Find(s, sep)
    case None =>
    case Some(i) =>
      PrefixBeforeFirst(s, sep, i);
      SplitPieces(s[i + |sep|..], sep);
      assert Split(s, sep) == [s[..i]] + Split(s[i + |sep|..], sep);
  }

  /** str.split(sep, maxsplit): at most `maxsplit` cuts, the rest stays whole. */
  function SplitN(s: string, sep: string, maxsplit: nat): (r: seq<string>)
    requires |sep| > 0
    ensures 1 <= |r| <= maxsplit + 1
    decreases maxsplit
  {
    if maxsplit == 0 then [s]
    else
      match Find(s, sep)
      case None => [s]
      case Some(i) => [s[..i]] + SplitN(s[i + |sep|..], sep, maxsplit - 1)
  }

  lemma PrefixBeforeFirst(s: string, sep: string, i: nat)
    requires |sep| > 0
    requires OccursAt(s, sep, i)
    requires forall j :: 0 <= j < i ==> !OccursAt(s, sep, j)
    ensures !Contains(s[..i], sep)
  {
    if Contains(s[..i], sep) {
      var j := Find(s[..i], sep).value;
      assert s[..i][j..j + |sep|] == s[j..j + |sep|];
      assert OccursAt(s, sep, j);
      assert false;
    }
  }

  /** The first occurrence inside a prefix is the first occurrence of the
      whole text. */
  lemma FindInPrefix(p: string, x: string, sub: string, i: nat)
    requires OccursAt(p, sub, i)
    requires forall j :: 0 <= j < i ==> !OccursAt(p, sub, j)
    ensures Find(p + x, sub) == Some(i)
  {
    var s := p + x;
    assert s[i..i + |sub|] == p[i..i + |sub|];
    assert OccursAt(s, sub, i);
    forall j | 0 <= j < i ensures !OccursAt(s, sub, j) {
      assert !OccursAt(p, sub, j);
      assert s[j..j + |sub|] == p[j..j + |sub|];
    }
    match Find(s, sub)
    case None =>
    case Some(k) =>
      assert !(k < i) && !(i < k);
  }

  /** split("---", 2) of a text that starts with "---": the first part is
      empty, the second runs up to the next "---", and the pieces rebuild the text. */
  lemma {:induction false} SplitFrontmatter(c: string)
    requires StartsWith(c, "---")
    ensures var parts := SplitN(c, "---", 2);
            var t := c[3..];
            && (|parts| >= 3 <==> Find(t, "---").Some?)
            && (|parts| >= 3 ==>
                  && |parts| == 3 && parts[0] == ""
                  && parts[1] == t[..Find(t, "---").value]
                  && parts[2] == t[Find(t, "---").value + 3..]
                  && !Contains(parts[1], "---")
                  && c == "---" + parts[1] + "---" + parts[2])
  {
    assert OccursAt(c, "---", 0);
    assert Find(c, "---") == Some(0);
    var t := c[3..];
    assert c == "---" + t;
    assert SplitN(c, "---", 2) == [""] + SplitN(t, "---", 1);
    match Find(t, "---")
    case None =>
    case Some(j) =>
      assert SplitN(t, "---", 1) == [t[..j]] + SplitN(t[j + 3..], "---", 0);
      PrefixBeforeFirst(t, "---", j);
      assert t == t[..j] + "---" + t[j + 3..];
  }

  /** A text that starts with "---" and whose first later "---" lies inside
      the prefix `q`: the frontmatter is the part of `q` before it. */
  lemma FrontmatterInPrefix(q: string, y: string, k: nat)
    requires OccursAt(q, "---", k)
    requires forall j :: 0 <= j < k ==> !OccursAt(q, "---", j)
    ensures var parts := SplitN("---" + (q + y), "---", 2);
            |parts| == 3 && parts[1] == q[..k]
  {
    FindInPrefix(q, y, "---", k);
    var c := "---" + (q + y);
    assert c[..3] == "---" && c[3..] == q + y;
    SplitFrontmatter(c);
    assert (q + y)[..k] == q[..k];
  }

  /** An occurrence after a prefix is an occurrence in the rest, shifted. */
  lemma OccursAfterPrefix(p: string, s: string, sub: string, j: nat)
    ensures OccursAt(p + s, sub, |p| + j) == OccursAt(s, sub, j)
  {
    if j + |sub| <= |s| {
      assert (p + s)[|p| + j..|p| + j + |sub|] == s[j..j + |sub|];
    }
  }

  /** sep.join(parts). */
  function Join(parts: seq<string>, sep: string): string {
    if |parts| == 0 then ""
    else if |parts| == 1 then parts[0]
    else parts[0] + sep + Join(parts[1..], sep)
  }

  /** Joining with a trailing empty part ends the text with one more
      separator: the shape of `output.append("")` before a join. */
  lemma {:induction false} JoinTrailingEmpty(parts: seq<string>, sep: string)
    requires |parts| > 0
    ensures Join(parts + [""], sep) == Join(parts, sep) + sep
    decreases |parts|
  {
    if |parts| > 1 {
      assert (parts + [""])[1..] == parts[1..] + [""];
      JoinTrailingEmpty(parts[1..], sep);
    }
  }

  /** c * n. */
  function Repeat(c: char, n: nat): (r: string)
    ensures |r| == n && forall k :: 0 <= k < n ==> r[k] == c
  {
    if n == 0 then "" else Repeat(c, n - 1) + [c]
  }

  /** Splitting and joining again with the same separator gives the input back. */
  lemma {:induction false} JoinSplit(s: string, sep: string)
    requires |sep| > 0
    ensures Join(Split(s, sep), sep) == s
    decreases |s|
  {
    match Find(s, sep)
    case None =>
    case Some(i) =>
      var rest := s[i + |sep|..];
      JoinSplit(rest, sep);
      assert Split(s, sep) == [s[..i]] + Split(rest, sep);
      assert s == s[..i] + sep + rest;
  }

  /** In `p + sep + rest`, with no separator inside `p`, the first separator
      is the one right after `p`. */
  lemma FindAfterPiece(p: string, sep: string, rest: string)
    requires |sep| == 1 && !Contains(p, sep)
    ensures Find(p + sep + rest, sep) == Some(|p|)
  {
    var s := p + sep + rest;
    assert OccursAt(s, sep, |p|) by {
      assert s[|p|..|p| + 1] == sep;
    }
    forall j | 0 <= j < |p| ensures !OccursAt(s, sep, j) {
      if OccursAt(s, sep, j) {
        assert p[j..j + 1] == s[j..j + 1];
        ContainsAt(p, sep, j);
      }
    }
  }

  lemma SplitAfterPiece(p: string, sep: string, rest: string)
    requires |sep| == 1 && !Contains(p, sep)
    ensures Split(p + sep + rest, sep) == [p] + Split(rest, sep)
  {
    var s := p + sep + rest;
    FindAfterPiece(p, sep, rest);
    assert s[..|p|] == p;
    assert s[|p| + 1..] == rest;
  }

  /** For a one-character separator, splitting a join of separator-free parts
      gives the parts back. */
  lemma {:induction false} SplitJoin(parts: seq<string>, sep: string)
    requires |sep| == 1 && |parts| > 0
    requires forall k :: 0 <= k < |parts| ==> !Contains(parts[k], sep)
    ensures Split(Join(parts, sep), sep) == parts
    decreases |parts|
  {
    if |parts| == 1 {
      assert Find(parts[0], sep).None?;
    } else {
      var p := parts[0];
      var rest := Join(parts[1..], sep);
      assert Join(parts, sep) == p + sep + rest;
      SplitAfterPiece(p, sep, rest);
      SplitJoin(parts[1..], sep);
      assert parts == [p] + parts[1..];
    }
  }

  /** Characters for which Python's str.isspace() holds. */
  predicate IsSpace(c: char) {
    c in SpaceChars
  }

  const SpaceChars: set<char> := {
    ' ', '\t', '\n', '\U{0B}', '\U{0C}', '\r', '\U{1C}', '\U{1D}', '\U{1E}', '\U{1F}', '\U{85}', '\U{A0}',
    '\U{1680}', '\U{2000}', '\U{2001}', '\U{2002}', '\U{2003}', '\U{2004}', '\U{2005}', '\U{2006}',
    '\U{2007}', '\U{2008}', '\U{2009}', '\U{200A}', '\U{2028}', '\U{2029}', '\U{202F}', '\U{205F}', '\U{3000}'}

  /** The index of the first non-space character at or after `i`. */
  function SkipSpace(s: string, i: nat): (k: nat)
    requires i <= |s|
    ensures i <= k <= |s| && (k == |s| || !IsSpace(s[k]))
    decreases |s| - i
  {
    if i < |s| && IsSpace(s[i]) then SkipSpace(s, i + 1) else i
  }

  /** Everything SkipSpace passes over is a space. */
  lemma {:induction false} SkipSpaceSkips(s: string, i: nat)
    requires i <= |s|
    ensures forall j :: i <= j < SkipSpace(s, i) ==> IsSpace(s[j])
    decreases |s| - i
  {
    if i < |s| && IsSpace(s[i]) {
      SkipSpaceSkips(s, i + 1);
    }
  }

  /** A run of spaces that ends at j is skipped exactly up to j. */
  lemma {:induction false} SkipSpaceRun(s: string, i: nat, j: nat)
    requires i <= j <= |s|
    requires forall k :: i <= k < j ==> IsSpace(s[k])
    requires j == |s| || !IsSpace(s[j])
    ensures SkipSpace(s, i) == j
    decreases j - i
  {
    if i < j {
      SkipSpaceRun(s, i + 1, j);
    }
  }

  /** The end of `s[..e]` once trailing spaces are dropped. */
  function SkipSpaceBack(s: string, e: nat): (k: nat)
    requires e <= |s|
    ensures k <= e && (k == 0 || !IsSpace(s[k - 1]))
    decreases e
  {
    if e > 0 && IsSpace(s[e - 1]) then SkipSpaceBack(s, e - 1) else e
  }

  /** Everything SkipSpaceBack passes over is a space. */
  lemma {:induction false} SkipSpaceBackSkips(s: string, e: nat)
    requires e <= |s|
    ensures forall j :: SkipSpaceBack(s, e) <= j < e ==> IsSpace(s[j])
    decreases e
  {
    if e > 0 && IsSpace(s[e - 1]) {
      SkipSpaceBackSkips(s, e - 1);
    }
  }

  /** str.lstrip() with no argument. */
  function LStrip(s: string): string {
    s[SkipSpace(s, 0)..]
  }

  /** str.rstrip() with no argument. */
  function RStrip(s: string): string {
    s[..SkipSpaceBack(s, |s|)]
  }

  /** str.strip() with no argument. */
  function Strip(s: string): string {
    RStrip(LStrip(s))
  }

  predicate IsAsciiUpper(c: char) { 'A' <= c <= 'Z' }
  predicate IsAsciiLower(c: char) { 'a' <= c <= 'z' }
  predicate IsAsciiDigit(c: char) { '0' <= c <= '9' }
  predicate IsAsciiAlpha(c: char) { IsAsciiUpper(c) || IsAsciiLower(c) }
  predicate IsAsciiAlnum(c: char) { IsAsciiAlpha(c) || IsAsciiDigit(c) }

  function LowerChar(c: char): char {
    if IsAsciiUpper(c) then (c as int - 'A' as int + 'a' as int) as char else c
  }

  function UpperChar(c: char): char {
    if IsAsciiLower(c) then (c as int - 'a' as int + 'A' as int) as char else c
  }

  /** str.lower(), on ASCII letters. */
  function Lower(s: string): (r: string)
    ensures |r| == |s|
  {
    seq(|s|, i requires 0 <= i < |s| => LowerChar(s[i]))
  }

  /** Lower-casing twice is lower-casing once. */
  lemma LowerIdempotent(s: string)
    ensures Lower(Lower(s)) == Lower(s)
  {
    forall i | 0 <= i < |s|
      ensures Lower(Lower(s))[i] == Lower(s)[i]
    {
      assert LowerChar(LowerChar(s[i])) == LowerChar(s[i]);
    }
  }

  /** Python's line boundaries for str.splitlines(). */
  predicate IsLineBreak(c: char) {
    c == '\n' || c == '\r' || c == '\U{0B}' || c == '\U{0C}' || ('\U{1C}' <= c <= '\U{1E}')
    || c == '\U{85}' || c == '\U{2028}' || c == '\U{2029}'
  }

  /** str.splitlines(): lines without their terminators; "\r\n" is one
      terminator and a final terminator does not open an empty line. */
  function SplitLines(s: string): (r: seq<string>)
    ensures s == [] <==> r == []
    decreases |s|, 1, 0
  {
    if s == [] then []
    else LineAt(s, 0)
  }

  /** Helper of SplitLines: `s[..i]` is a line in progress that holds no break. */
  function LineAt(s: string, i: nat): (r: seq<string>)
    requires i <= |s| && s != []
    ensures r != []
    decreases |s|, 0, |s| - i
  {
    if i == |s| then [s]
    else if IsLineBreak(s[i]) then
      var next := if s[i] == '\r' && i + 1 < |s| && s[i + 1] == '\n' then i + 2 else i + 1;
      [s[..i]] + SplitLines(s[next..])
    else LineAt(s, i + 1)
  }

  /** Decimal digits of a natural number, as str(n) prints it. */
  function NatToString(n: nat): (r: string)
    ensures |r| > 0 && forall k :: 0 <= k < |r| ==> IsAsciiDigit(r[k])
    decreases n
  {
    if n < 10 then [DigitChar(n)] else NatToString(n / 10) + [DigitChar(n % 10)]
  }

  function DigitChar(d: nat): (c: char)
    requires d < 10
    ensures IsAsciiDigit(c)
  {
    ('0' as int + d) as char
  }

  /** int(s) for a string of ASCII digits. */
  function DigitsValue(s: string): nat
    requires forall k :: 0 <= k < |s| ==> IsAsciiDigit(s[k])
    decreases |s|
  {
    if s == [] then 0
    else
      assert IsAsciiDigit(s[|s| - 1]);
      DigitsValue(s[..|s| - 1]) * 10 + (s[|s| - 1] as int - '0' as int)
  }

  /** The end of the run of ASCII digits starting at `i` (the greedy `\d+`). */
  function SkipDigits(s: string, i: nat): (k: nat)
    requires i <= |s|
    ensures i <= k <= |s| && (k == |s| || !IsAsciiDigit(s[k]))
    decreases |s| - i
  {
    if i < |s| && IsAsciiDigit(s[i]) then SkipDigits(s, i + 1) else i
  }

  /** Everything SkipDigits passes over is a digit. */
  lemma {:induction false} SkipDigitsSkips(s: string, i: nat)
    requires i <= |s|
    ensures forall j :: i <= j < SkipDigits(s, i) ==> IsAsciiDigit(s[j])
    decreases |s| - i
  {
    if i < |s| && IsAsciiDigit(s[i]) {
      SkipDigitsSkips(s, i + 1);
    }
  }

  /** A run of digits that ends at j is skipped exactly up to j. */
  lemma {:induction false} SkipDigitsRun(s: string, i: nat, j: nat)
    requires i <= j <= |s|
    requires forall k :: i <= k < j ==> IsAsciiDigit(s[k])
    requires j == |s| || !IsAsciiDigit(s[j])
    ensures SkipDigits(s, i) == j
    decreases j - i
  {
    if i < j {
      SkipDigitsRun(s, i + 1, j);
    }
  }

  /** Reading back the digits str(n) prints gives n. */
  lemma {:induction false} DigitsValueOfNatToString(n: nat)
    ensures DigitsValue(NatToString(n)) == n
    decreases n
  {
    var s := NatToString(n);
    if n >= 10 {
      DigitsValueOfNatToString(n / 10);
      assert s[..|s| - 1] == NatToString(n / 10);
    }
  }

  /** str(i) for any integer. */
  function IntToString(i: int): string {
    if i < 0 then "-" + NatToString(-i) else NatToString(i)
  }

  /** Python's `<=` on str: code point by code point, a proper prefix first. */
  predicate LessEq(a: string, b: string)
    decreases |a|
  {
    a == [] || (b != [] && (a[0] < b[0] || (a[0] == b[0] && LessEq(a[1..], b[1..]))))
  }

  lemma {:induction false} LessEqTotal(a: string, b: string)
    ensures LessEq(a, b) || LessEq(b, a)
    decreases |a|
  {
    if a != [] && b != [] && a[0] == b[0] {
      LessEqTotal(a[1..], b[1..]);
    }
  }

  lemma {:induction false} LessEqTrans(a: string, b: string, c: string)
    requires LessEq(a, b) && LessEq(b, c)
    ensures LessEq(a, c)
    decreases |a|
  {
    if a != [] && a[0] == b[0] && b[0] == c[0] {
      LessEqTrans(a[1..], b[1..], c[1..]);
    }
  }

  lemma {:induction false} LessEqAntisym(a: string, b: string)
    requires LessEq(a, b) && LessEq(b, a)
    ensures a == b
    decreases |a|
  {
    if a != [] {
      LessEqAntisym(a[1..], b[1..]);
      assert a == [a[0]] + a[1..] && b == [b[0]] + b[1..];
    }
  }

  predicate Sorted(s: seq<string>) {
    forall i, j :: 0 <= i < j < |s| ==> LessEq(s[i], s[j])
  }

  /** Inserts `x` before the first element it is not above. */
  function Insert(x: string, s: seq<string>): (r: seq<string>)
    ensures |r| == |s| + 1
  {
    if s == [] || LessEq(x, s[0]) then [x] + s else [s[0]] + Insert(x, s[1..])
  }

  /** sorted(): insertion sort, front to back. */
  function SortStrings(s: seq<string>): (r: seq<string>)
    ensures |r| == |s|
  {
    if s == [] then [] else Insert(s[|s| - 1], SortStrings(s[..|s| - 1]))
  }

  /** Inserting adds exactly one occurrence of `x`. */
  lemma {:induction false} InsertMultiset(x: string, s: seq<string>)
    ensures multiset(Insert(x, s)) == multiset(s) + multiset{x}
    decreases |s|
  {
    if s != [] && !LessEq(x, s[0]) {
      InsertMultiset(x, s[1..]);
      assert s == [s[0]] + s[1..];
    }
  }

  /** A sorted sequence stays sorted behind an element at or below all of it. */
  lemma SortedCons(y: string, t: seq<string>)
    requires Sorted(t) && forall j :: 0 <= j < |t| ==> LessEq(y, t[j])
    ensures Sorted([y] + t)
  {
    var r := [y] + t;
    forall i, j | 0 <= i < j < |r| ensures LessEq(r[i], r[j]) {
      if i > 0 { assert r[i] == t[i - 1] && r[j] == t[j - 1]; }
      else { assert r[j] == t[j - 1]; }
    }
  }

  lemma {:induction false} InsertSorted(x: string, s: seq<string>)
    requires Sorted(s)
    ensures Sorted(Insert(x, s))
    decreases |s|
  {
    if s == [] {
    } else if LessEq(x, s[0]) {
      forall j | 0 <= j < |s| ensures LessEq(x, s[j]) {
        if j > 0 { LessEqTrans(x, s[0], s[j]); }
      }
      SortedCons(x, s);
    } else {
      LessEqTotal(x, s[0]);
      var t := s[1..];
      SortedTail(s);
      InsertSorted(x, t);
      InsertMultiset(x, t);
      var r := Insert(x, t);
      forall j | 0 <= j < |r| ensures LessEq(s[0], r[j]) {
        assert r[j] in multiset(r);
        if r[j] != x {
          assert r[j] in multiset(t);
          var k :| 0 <= k < |t| && t[k] == r[j];
          assert t[k] == s[k + 1];
        }
      }
      SortedCons(s[0], r);
    }
  }

  lemma {:induction false} SortStringsSorted(s: seq<string>)
    ensures Sorted(SortStrings(s)) && multiset(SortStrings(s)) == multiset(s)
    decreases |s|
  {
    if s != [] {
      var p := s[..|s| - 1];
      SortStringsSorted(p);
      InsertSorted(s[|s| - 1], SortStrings(p));
      InsertMultiset(s[|s| - 1], SortStrings(p));
      assert s == p + [s[|s| - 1]];
    }
  }

  lemma {:induction false} LessEqRefl(a: string)
    ensures LessEq(a, a)
    decreases |a|
  {
    if a != [] {
      LessEqRefl(a[1..]);
    }
  }

  lemma SortedTail(s: seq<string>)
    requires Sorted(s) && s != []
    ensures Sorted(s[1..])
  {
    var t := s[1..];
    forall i, j | 0 <= i < j < |t| ensures LessEq(t[i], t[j]) {
      assert t[i] == s[i + 1] && t[j] == s[j + 1];
    }
  }

  /** The first element of a sorted sequence is at or below every element. */
  lemma SortedHead(s: seq<string>, x: string)
    requires Sorted(s) && x in s
    ensures LessEq(s[0], x)
  {
    var j :| 0 <= j < |s| && s[j] == x;
    if j == 0 { LessEqRefl(x); }
  }

  lemma MultisetTail<T>(s: seq<T>)
    requires s != []
    ensures multiset(s[1..]) == multiset(s) - multiset{s[0]}
  {
    assert s == [s[0]] + s[1..];
  }

  /** Two sorted orderings of the same strings are the same sequence. */
  lemma {:induction false} SortedUnique(a: seq<string>, b: seq<string>)
    requires Sorted(a) && Sorted(b) && multiset(a) == multiset(b)
    ensures a == b
    decreases |a|
  {
    assert |a| == |multiset(a)| == |multiset(b)| == |b|;
    if a != [] {
      assert a[0] in multiset(b) && b[0] in multiset(a);
      SortedHead(b, a[0]);
      SortedHead(a, b[0]);
      LessEqAntisym(a[0], b[0]);
      var a', b' := a[1..], b[1..];
      MultisetTail(a);
      MultisetTail(b);
      SortedTail(a);
      SortedTail(b);
      SortedUnique(a', b');
    }
  }

  /** The number of characters equal to `c`. */
  function CharCount(s: string, c: char): nat {
    if s == [] then 0 else (if s[0] == c then 1 else 0) + CharCount(s[1..], c)
  }

  lemma {:induction false} CharCountAppend(a: string, b: string, c: char)
    ensures CharCount(a + b, c) == CharCount(a, c) + CharCount(b, c)
    decreases |a|
  {
    if a != [] {
      CharCountAppend(a[1..], b, c);
      assert (a + b)[1..] == a[1..] + b && (a + b)[0] == a[0];
    } else {
      assert a + b == b;
    }
  }

  lemma {:induction false} CharCountNone(s: string, c: char)
    requires forall j :: 0 <= j < |s| ==> s[j] != c
    ensures CharCount(s, c) == 0
    decreases |s|
  {
    if s != [] {
      CharCountNone(s[1..], c);
    }
  }

  /** str.count of a one-character string counts every occurrence of it. */
  lemma {:induction false} CountChar(s: string, c: char)
    ensures Count(s, [c]) == CharCount(s, c)
    decreases |s|
  {
    match Find(s, [c])
    case None =>
      forall j | 0 <= j < |s| ensures s[j] != c {
        assert !OccursAt(s, [c], j);
      }
      CharCountNone(s, c);
    case Some(i) =>
      var rest := s[i + 1..];
      CountChar(rest, c);
      assert s == s[..i] + ([s[i]] + rest);
      forall j | 0 <= j < i ensures s[..i][j] != c {
        assert !OccursAt(s, [c], j);
      }
      CharCountNone(s[..i], c);
      CharCountAppend(s[..i], [s[i]] + rest, c);
  }

  /** The texts `render` gives the items, one after another. */
  function ConcatMap<T>(xs: seq<T>, render: T -> string): string {
    if xs == [] then "" else ConcatMap(xs[..|xs| - 1], render) + render(xs[|xs| - 1])
  }

  /** `html += render(x)` for each item in turn. */
  method AppendEach<T>(start: string, xs: seq<T>, render: T -> string) returns (html: string)
    ensures html == start + ConcatMap(xs, render)
  {
    html := start;
    for i := 0 to |xs|
      invariant html == start + ConcatMap(xs[..i], render)
    {
      assert xs[..i + 1][..i] == xs[..i];
      html := html + render(xs[i]);
    }
    assert xs[..|xs|] == xs;
  }
}
