/** Python `str` operations used by the core, on `seq<char>`.
    Case mapping and the letter, digit and word classes are those of ASCII;
    whitespace is the set `str.isspace()` accepts. */
module Text {

  /* ---------------- character classes ---------------- */

  /** `c.isspace()` (and the regular-expression class `\s`): ASCII tab to
      carriage return, the separators U+001C..U+001F, space, and the Unicode
      space characters. */
  predicate IsSpace(c: char) {
    c == ' ' || ('\t' <= c <= '\r') || ('\U{1c}' <= c <= '\U{1f}')
    || c == '\U{85}' || c == '\U{a0}' || c == '\U{1680}'
    || ('\U{2000}' <= c <= '\U{200a}') || c == '\U{2028}' || c == '\U{2029}'
    || c == '\U{202f}' || c == '\U{205f}' || c == '\U{3000}'
  }

  predicate IsDigit(c: char) { '0' <= c <= '9' }
  predicate IsUpper(c: char) { 'A' <= c <= 'Z' }
  predicate IsLower(c: char) { 'a' <= c <= 'z' }
  predicate IsAlpha(c: char) { IsUpper(c) || IsLower(c) }

  /** The regular-expression class `\w`. */
  predicate IsWord(c: char) { IsAlpha(c) || IsDigit(c) || c == '_' }

  /** `[\w.-]`, the characters of file names and e-mail addresses. */
  predicate IsNameChar(c: char) {
    IsWord(c) || c == '.' || c == '-'
  }

  predicate NameChars(s: string) {
    forall j | 0 <= j < |s| :: IsNameChar(s[j])
  }

  function LowerChar(c: char): (r: char)
    ensures !IsUpper(r)
    ensures IsSpace(r) <==> IsSpace(c)
    ensures r == ' ' <==> c == ' '
  {
    if IsUpper(c) then (c as int + 32) as char else c
  }

  function UpperChar(c: char): char {
    if IsLower(c) then (c as int - 32) as char else c
  }

  /* ---------------- case ---------------- */

  /** `s.lower()` */
  function Lower(s: string): (r: string)
    ensures |r| == |s|
    ensures forall i :: 0 <= i < |s| ==> r[i] == LowerChar(s[i])
  {
    seq(|s|, i requires 0 <= i < |s| => LowerChar(s[i]))
  }

  lemma LowerNoUpper(s: string)
    requires forall i :: 0 <= i < |s| ==> !IsUpper(s[i])
    ensures Lower(s) == s
  {}

  lemma LowerIdempotent(s: string)
    ensures Lower(Lower(s)) == Lower(s)
  {}

  /** `s.title()`: a letter that follows a letter is lower-cased, any other
      letter is upper-cased; other characters are kept. */
  function Title(s: string): string {
    TitleAfter(s, false)
  }

  function TitleAfter(s: string, prevCased: bool): (r: string)
    ensures |r| == |s|
    decreases |s|
  {
    if s == [] then []
    else
      var c := s[0];
      var c' := if IsAlpha(c) then (if prevCased then LowerChar(c) else UpperChar(c)) else c;
      [c'] + TitleAfter(s[1..], IsAlpha(c))
  }

  /** `s.capitalize()`: first character upper-cased, the rest lower-cased. */
  function Capitalize(s: string): (r: string)
    ensures |r| == |s|
  {
    if s == [] then [] else [UpperChar(s[0])] + Lower(s[1..])
  }

  /* ---------------- stripping ---------------- */

  function LStrip(s: string, p: char -> bool): (r: string)
    ensures |r| <= |s|
    ensures r != [] ==> !p(r[0])
    decreases |s|
  {
    if s != [] && p(s[0]) then LStrip(s[1..], p) else s
  }

  function RStrip(s: string, p: char -> bool): (r: string)
    ensures |r| <= |s|
    ensures r != [] ==> !p(r[|r| - 1])
    decreases |s|
  {
    if s != [] && p(s[|s| - 1]) then RStrip(s[..|s| - 1], p) else s
  }

  /** Stripping on the right keeps a prefix. */
  lemma {:induction false} RStripPrefix(s: string, p: char -> bool)
    ensures RStrip(s, p) == s[..|RStrip(s, p)|]
    decreases |s|
  {
    if s != [] && p(s[|s| - 1]) {
      RStripPrefix(s[..|s| - 1], p);
    }
  }

  /** `s.strip(chars)` for the characters that satisfy `p`. */
  function StripWith(s: string, p: char -> bool): (r: string)
    ensures |r| <= |s|
    ensures r != [] ==> !p(r[0]) && !p(r[|r| - 1])
  {
    var l := LStrip(s, p);
    RStripPrefix(l, p);
    RStrip(l, p)
  }

  /** `s.strip()` */
  function Strip(s: string): string {
    StripWith(s, IsSpace)
  }


  lemma {:induction false} LStripNone(s: string, p: char -> bool)
    requires s != [] ==> !p(s[0])
    ensures LStrip(s, p) == s
  {}

  lemma {:induction false} RStripNone(s: string, p: char -> bool)
    requires s != [] ==> !p(s[|s| - 1])
    ensures RStrip(s, p) == s
  {}

  lemma StripWithNone(s: string, p: char -> bool)
    requires s != [] ==> !p(s[0]) && !p(s[|s| - 1])
    ensures StripWith(s, p) == s
  {
    LStripNone(s, p);
    RStripNone(s, p);
  }

  /** Stripping twice strips nothing more. */
  lemma StripWithIdempotent(s: string, p: char -> bool)
    ensures StripWith(StripWith(s, p), p) == StripWith(s, p)
  {
    var r := StripWith(s, p);
    LStripNone(r, p);
    RStripNone(r, p);
  }

  /** Stripping on the left keeps a suffix. */
  lemma {:induction false} LStripSuffix(s: string, p: char -> bool)
    ensures LStrip(s, p) == s[|s| - |LStrip(s, p)|..]
    decreases |s|
  {
    if s != [] && p(s[0]) {
      LStripSuffix(s[1..], p);
    }
  }

  /* ---------------- searching ---------------- */

  /** `lit` occurs in `s` at index `i`. */
  predicate StartsAt(s: string, i: int, lit: string) {
    0 <= i && i + |lit| <= |s| && s[i..i + |lit|] == lit
  }

  /** `s.startswith(lit)` */
  predicate StartsWith(s: string, lit: string) {
    StartsAt(s, 0, lit)
  }

  /** `sub in s` */
  predicate Contains(s: string, sub: string) {
    exists i | 0 <= i <= |s| :: StartsAt(s, i, sub)
  }

  /** `any(p in s for p in subs)` */
  predicate ContainsAny(s: string, subs: seq<string>) {
    exists j | 0 <= j < |subs| :: Contains(s, subs[j])
  }

  lemma ContainsAt(s: string, sub: string, i: int)
    requires StartsAt(s, i, sub)
    ensures Contains(s, sub)
  {}

  /** A string contains every string it is concatenated from. */
  lemma ContainsMiddle(a: string, b: string, c: string)
    ensures Contains(a + b + c, b)
  {
    assert (a + b + c)[|a|..|a| + |b|] == b;
    ContainsAt(a + b + c, b, |a|);
  }

  /** A string ends with its last part. */
  lemma ContainsSuffix(a: string, b: string)
    ensures Contains(a + b, b)
  {
    assert (a + b)[|a|..|a| + |b|] == b;
    ContainsAt(a + b, b, |a|);
  }

  /** Appending keeps every occurrence. */
  lemma ContainsExtend(s: string, t: string, sub: string)
    requires Contains(s, sub)
    ensures Contains(s + t, sub)
  {
    var i :| 0 <= i <= |s| && StartsAt(s, i, sub);
    assert (s + t)[i..i + |sub|] == s[i..i + |sub|];
    ContainsAt(s + t, sub, i);
  }

  /** A string lacking one of the characters of `sub` does not contain it. */
  lemma MissingChar(s: string, sub: string, j: nat)
    requires j < |sub|
    requires forall i | 0 <= i < |s| :: s[i] != sub[j]
    ensures !Contains(s, sub)
  {
    forall i | 0 <= i <= |s| ensures !StartsAt(s, i, sub) {
      if i + |sub| <= |s| {
        assert s[i..i + |sub|][j] != sub[j];
      }
    }
  }

  lemma ContainsTooLong(s: string, sub: string)
    requires |sub| > |s|
    ensures !Contains(s, sub)
  {}

  /** An occurrence inside a slice is an occurrence in the whole string. */
  lemma ContainsInSlice(s: string, a: nat, b: nat, sub: string)
    requires a <= b <= |s|
    requires Contains(s[a..b], sub)
    ensures Contains(s, sub)
  {
    var i :| 0 <= i <= b - a && StartsAt(s[a..b], i, sub);
    forall k | 0 <= k < |sub| ensures s[a + i + k] == sub[k] {
      assert sub[k] == s[a..b][i..i + |sub|][k];
    }
    assert s[a + i..a + i + |sub|] == sub;
    ContainsAt(s, sub, a + i);
  }

  /** Stripping keeps a slice: what `LStrip` removed comes before it. */
  lemma StripSlice(s: string)
    ensures var d := |s| - |LStrip(s, IsSpace)|;
            d + |Strip(s)| <= |s| && Strip(s) == s[d..d + |Strip(s)|]
  {
    var l := LStrip(s, IsSpace);
    LStripSuffix(s, IsSpace);
    RStripPrefix(l, IsSpace);
  }

  /** Stripping creates no occurrence. */
  lemma StripContains(s: string, sub: string)
    requires Contains(Strip(s), sub)
    ensures Contains(s, sub)
  {
    StripSlice(s);
    var d := |s| - |LStrip(s, IsSpace)|;
    ContainsInSlice(s, d, d + |Strip(s)|, sub);
  }

  /** `LStrip` stops at the first character it keeps. */
  lemma {:induction false} LStripKeeps(s: string, p: char -> bool, i: nat)
    requires i < |s| && !p(s[i])
    ensures |s| - |LStrip(s, p)| <= i
    decreases |s|
  {
    if p(s[0]) {
      LStripKeeps(s[1..], p, i - 1);
    }
  }

  /** `RStrip` stops at the last character it keeps. */
  lemma {:induction false} RStripKeeps(s: string, p: char -> bool, i: nat)
    requires i < |s| && !p(s[i])
    ensures i < |RStrip(s, p)|
    decreases |s|
  {
    if p(s[|s| - 1]) {
      RStripKeeps(s[..|s| - 1], p, i);
    }
  }

  /** Every character that is not whitespace survives `strip()`. */
  lemma StripKeeps(s: string, i: nat)
    requires i < |s| && !IsSpace(s[i])
    ensures exists j | 0 <= j < |Strip(s)| :: Strip(s)[j] == s[i]
  {
    var l := LStrip(s, IsSpace);
    var d := |s| - |l|;
    LStripKeeps(s, IsSpace, i);
    LStripSuffix(s, IsSpace);
    assert l[i - d] == s[i];
    var r := RStrip(l, IsSpace);
    RStripKeeps(l, IsSpace, i - d);
    RStripPrefix(l, IsSpace);
    assert r[i - d] == l[i - d];
    assert Strip(s) == r;
  }

  /** Whitespace only: `lstrip()` removes everything. */
  lemma {:induction false} LStripBlank(s: string)
    requires NoWord(s)
    ensures LStrip(s, IsSpace) == []
    decreases |s|
  {
    if s != [] {
      assert IsSpace(s[0]);
      assert NoWord(s[1..]) by {
        forall j | 0 <= j < |s[1..]| ensures IsSpace(s[1..][j]) {
          assert s[1..][j] == s[j + 1];
        }
      }
      LStripBlank(s[1..]);
    }
  }

  /** A string of whitespace strips to nothing. */
  lemma StripBlank(s: string)
    requires NoWord(s)
    ensures Strip(s) == []
  {
    LStripBlank(s);
  }

  /** A string that begins with a word `w` followed by whitespace or the
      end still does after `strip()`. */
  lemma StripStartsWith(s: string, w: string)
    requires w != [] && NoSpace(w) && StartsWith(s, w)
    requires |s| == |w| || IsSpace(s[|w|])
    ensures StartsWith(Strip(s), w)
    ensures |Strip(s)| == |w| || IsSpace(Strip(s)[|w|])
  {
    assert s[0] == w[0];
    LStripNone(s, IsSpace);
    assert s[|w| - 1] == w[|w| - 1];
    RStripKeeps(s, IsSpace, |w| - 1);
    RStripPrefix(s, IsSpace);
    var r := RStrip(s, IsSpace);
    assert r[..|w|] == s[..|w|];
  }

  /** The first word of a string that begins with `w` followed by whitespace
      or the end is `w`. */
  lemma SplitFirst(s: string, w: string)
    requires w != [] && NoSpace(w) && StartsWith(s, w)
    requires |s| == |w| || IsSpace(s[|w|])
    ensures Split(s) != [] && Split(s)[0] == w
  {
    assert s[0] == w[0];
    forall j | 0 <= j < |w| ensures NotSpace(s[j]) {
      assert s[j] == w[j];
    }
    RunLenIs(s, 0, |w|, NotSpace);
    assert s[..|w|] == w;
  }

  lemma StripLacks(s: string, sub: string)
    requires !Contains(s, sub)
    ensures !Contains(Strip(s), sub)
  {
    if Contains(Strip(s), sub) {
      StripContains(s, sub);
    }
  }

  /** The text before the first occurrence of `sep`, or all of `s`:
      `s.split(sep)[0]`. */
  function BeforeFirst(s: string, sep: string): (r: string)
    requires sep != []
    ensures |r| <= |s| && r == s[..|r|]
    decreases |s|
  {
    if s == [] || StartsAt(s, 0, sep) then [] else [s[0]] + BeforeFirst(s[1..], sep)
  }

  /** No occurrence starts inside the part before the first one. */
  lemma {:induction false} BeforeFirstNoEarlier(s: string, sep: string, i: nat)
    requires sep != []
    requires i < |BeforeFirst(s, sep)|
    ensures !StartsAt(s, i, sep)
    decreases |s|
  {
    if i > 0 {
      BeforeFirstNoEarlier(s[1..], sep, i - 1);
      if i + |sep| <= |s| {
        assert s[1..][i - 1..i - 1 + |sep|] == s[i..i + |sep|];
      }
    }
  }

  /** The part before the first occurrence holds no occurrence. */
  lemma BeforeFirstLacks(s: string, sep: string)
    requires sep != []
    ensures !Contains(BeforeFirst(s, sep), sep)
  {
    var r := BeforeFirst(s, sep);
    if Contains(r, sep) {
      var i :| 0 <= i <= |r| && StartsAt(r, i, sep);
      assert s[i..i + |sep|] == r[i..i + |sep|];
      BeforeFirstNoEarlier(s, sep, i);
      assert false;
    }
  }

  /** The text after the first occurrence of `sep` ([] when there is none). */
  function AfterFirst(s: string, sep: string): (r: string)
    ensures |r| <= |s|
    decreases |s|
  {
    if s == [] then []
    else if StartsAt(s, 0, sep) then s[|sep|..]
    else AfterFirst(s[1..], sep)
  }

  /** `s.split(sep)[1]` when `sep` occurs in `s`. */
  function SecondPart(s: string, sep: string): (r: string)
    requires sep != []
    ensures !Contains(r, sep)
  {
    BeforeFirstLacks(AfterFirst(s, sep), sep);
    BeforeFirst(AfterFirst(s, sep), sep)
  }

  /** Index of the first line break at or after `i`, or `|s|`: where the
      regular-expression tail `.*` starting at `i` stops. */
  function LineEnd(s: string, i: nat): (e: nat)
    requires i <= |s|
    ensures i <= e <= |s|
    decreases |s| - i
  {
    if i == |s| || s[i] == '\n' then i else LineEnd(s, i + 1)
  }

  lemma {:induction false} LineEndFacts(s: string, i: nat)
    requires i <= |s|
    ensures forall j :: i <= j < LineEnd(s, i) ==> s[j] != '\n'
    ensures LineEnd(s, i) < |s| ==> s[LineEnd(s, i)] == '\n'
    decreases |s| - i
  {
    if i < |s| && s[i] != '\n' {
      LineEndFacts(s, i + 1);
    }
  }

  /* ---------------- splitting and joining ---------------- */

  /** Length of the run of characters satisfying `p` that starts at `i`. */
  function RunLen(s: string, i: nat, p: char -> bool): (n: nat)
    requires i <= |s|
    ensures i + n <= |s|
    decreases |s| - i
  {
    if i < |s| && p(s[i]) then 1 + RunLen(s, i + 1, p) else 0
  }

  /** The run is maximal: every character in it satisfies `p`, the next one does not. */
  lemma {:induction false} RunLenFacts(s: string, i: nat, p: char -> bool)
    requires i <= |s|
    ensures forall j :: i <= j < i + RunLen(s, i, p) ==> p(s[j])
    ensures i + RunLen(s, i, p) < |s| ==> !p(s[i + RunLen(s, i, p)])
    decreases |s| - i
  {
    if i < |s| && p(s[i]) {
      RunLenFacts(s, i + 1, p);
    }
  }

  /** A run of `n` characters satisfying `p`, followed by the end or by
      one that does not, has length `n`. */
  lemma {:induction false} RunLenIs(s: string, i: nat, n: nat, p: char -> bool)
    requires i + n <= |s|
    requires forall j | i <= j < i + n :: p(s[j])
    requires i + n < |s| ==> !p(s[i + n])
    ensures RunLen(s, i, p) == n
    decreases n
  {
    if n > 0 {
      RunLenIs(s, i + 1, n - 1, p);
    }
  }

  predicate NotSpace(c: char) { !IsSpace(c) }

  predicate NoSpace(t: string) {
    forall j :: 0 <= j < |t| ==> !IsSpace(t[j])
  }

  /** `s.split()`: the maximal runs of non-whitespace characters. */
  function Split(s: string): (r: seq<string>)
    ensures forall k :: 0 <= k < |r| ==> r[k] != [] && NoSpace(r[k])
    decreases |s|
  {
    if s == [] then []
    else if IsSpace(s[0]) then Split(s[1..])
    else
      var n := RunLen(s, 0, NotSpace);
      var w := s[..n];
      assert n > 0 && NoSpace(w) by {
        RunLenFacts(s, 0, NotSpace);
        forall j | 0 <= j < |w| ensures !IsSpace(w[j]) { assert NotSpace(s[j]); }
      }
      [w] + Split(s[n..])
  }

  /** Only a string of whitespace splits into no words. */
  lemma SplitEmpty(s: string)
    ensures Split(s) == [] <==> NoWord(s)
  {}

  predicate NoWord(s: string) {
    forall j :: 0 <= j < |s| ==> IsSpace(s[j])
  }

  /** `sep.join(parts)` */
  function Join(sep: string, parts: seq<string>): string {
    if parts == [] then ""
    else if |parts| == 1 then parts[0]
    else parts[0] + sep + Join(sep, parts[1..])
  }

  /** The joined text begins with the first part. */
  lemma JoinFirst(sep: string, parts: seq<string>)
    requires parts != []
    ensures |parts[0]| <= |Join(sep, parts)| && Join(sep, parts)[..|parts[0]|] == parts[0]
  {
    if |parts| > 1 {
      var rest := sep + Join(sep, parts[1..]);
      assert Join(sep, parts) == parts[0] + rest;
    }
  }

  /** The joined text ends with the last part. */
  lemma {:induction false} JoinLast(sep: string, parts: seq<string>)
    requires parts != []
    ensures var j := Join(sep, parts); var l := parts[|parts| - 1];
            |l| <= |j| && j[|j| - |l|..] == l
    decreases |parts|
  {
    if |parts| > 1 {
      JoinLast(sep, parts[1..]);
      var j := Join(sep, parts[1..]);
      assert Join(sep, parts) == (parts[0] + sep) + j;
      assert parts[1..][|parts[1..]| - 1] == parts[|parts| - 1];
    }
  }

  /* ---------------- replacing ---------------- */

  /** `s.replace(a, b)` for single characters. */
  function ReplaceChar(s: string, a: char, b: char): (r: string)
    ensures |r| == |s|
    ensures forall i :: 0 <= i < |s| ==> r[i] == (if s[i] == a then b else s[i])
  {
    seq(|s|, i requires 0 <= i < |s| => if s[i] == a then b else s[i])
  }

  /** `s.replace(pat, rep)`: every non-overlapping occurrence, left to right. */
  function ReplaceAll(s: string, pat: string, rep: string): (r: string)
    requires pat != []
    ensures (forall j :: 0 <= j < |rep| ==> rep[j] != ' ') && (forall j :: 0 <= j < |s| ==> s[j] != ' ')
            ==> forall j :: 0 <= j < |r| ==> r[j] != ' '
    decreases |s|
  {
    if |s| < |pat| then s
    else if s[..|pat|] == pat then rep + ReplaceAll(s[|pat|..], pat, rep)
    else [s[0]] + ReplaceAll(s[1..], pat, rep)
  }

  /* ---------------- numbers ---------------- */

  function DigitChar(d: nat): char
    requires d < 10
  {
    "0123456789"[d]
  }

  /** `str(n)` for a natural number. */
  function NatToString(n: nat): (r: string)
    ensures r != []
    ensures forall i :: 0 <= i < |r| ==> IsDigit(r[i])
  {
    if n < 10 then [DigitChar(n)] else NatToString(n / 10) + [DigitChar(n % 10)]
  }

  /** `str(n)` for an integer. */
  function IntToString(n: int): string {
    if n < 0 then "-" + NatToString(-n) else NatToString(n)
  }
}
