/** The regular expressions of the memory detector, as matchers that follow
    Python's `re.search`: the leftmost starting index wins, and at one index
    alternatives are tried in order while a greedy `.*` gives characters
    back one at a time from the end of the line.

    Every expression used has the shape `head tail`, where `head` is one of
    a list of literal alternatives (an optional `(?:my )?` or `(?:a |an )?`
    is written out as more alternatives, longest first, in the order the
    engine tries them) and `tail` captures group 1. */
module Patterns {
  import opened Base
  import opened Text

  datatype Tail =
    /** `(.*)` */
    | RestOfLine
    /** `(.*) (?:s1|s2|...)`; with `keep` the suffix is inside the group, as in `(.* intern)` */
    | UpTo(suffixes: seq<string>, keep: bool)
    /** `(\d+)suffix` */
    | DigitsThen(suffix: string)
    /** `([\w\s]+)` */
    | WordRun
    /** `.*` + mid + `(?:opt)?([\w\s]+)` */
    | GapRun(mid: string, opt: string)

  datatype Pattern = Pattern(heads: seq<string>, tail: Tail)

  /** A group: the half-open index range `[start, end)` of the text. */
  type Span = (nat, nat)

  predicate ValidSpan(t: string, sp: Span) {
    sp.0 <= sp.1 <= |t|
  }

  /** The class `[\w\s]`. */
  predicate IsWordOrSpace(c: char) { IsWord(c) || IsSpace(c) }

  /** Length of the first suffix, in list order, that occurs at `e`. */
  function SuffixLen(t: string, e: nat, sfx: seq<string>): (r: Option<nat>)
    ensures r.Some? ==> e + r.value <= |t|
  {
    if sfx == [] then None
    else if StartsAt(t, e, sfx[0]) then Some(|sfx[0]|)
    else SuffixLen(t, e, sfx[1..])
  }

  /** `(.*)(?:suffixes)` with the `.*` tried from length `e - g` down to 0. */
  function UpToFrom(t: string, g: nat, e: nat, sfx: seq<string>, keep: bool): (r: Option<Span>)
    requires g <= e <= |t|
    ensures r.Some? ==> r.value.0 == g && ValidSpan(t, r.value)
    decreases e
  {
    match SuffixLen(t, e, sfx)
    case Some(n) => Some((g, if keep then e + n else e))
    case None => if e == g then None else UpToFrom(t, g, e - 1, sfx, keep)
  }

  /** `(\d+)suffix` with the digit run tried from length `m` down to 1. */
  function DigitsFrom(t: string, g: nat, m: nat, suffix: string): (r: Option<Span>)
    requires g + m <= |t|
    ensures r.Some? ==> r.value.0 == g && g < r.value.1 <= g + m
    decreases m
  {
    if m == 0 then None
    else if StartsAt(t, g + m, suffix) then Some((g, g + m))
    else DigitsFrom(t, g, m - 1, suffix)
  }

  /** `(?:opt)?([\w\s]+)` at `q`: the optional part first, then without it. */
  function RunAfter(t: string, q: nat, opt: string): (r: Option<Span>)
    requires q <= |t|
    ensures r.Some? ==> ValidSpan(t, r.value) && r.value.0 < r.value.1
  {
    if StartsAt(t, q, opt) && RunLen(t, q + |opt|, IsWordOrSpace) > 0 then
      Some((q + |opt|, q + |opt| + RunLen(t, q + |opt|, IsWordOrSpace)))
    else if RunLen(t, q, IsWordOrSpace) > 0 then
      Some((q, q + RunLen(t, q, IsWordOrSpace)))
    else None
  }

  /** `.*` + mid + `(?:opt)?([\w\s]+)` with the `.*` tried from length `e - g` down to 0. */
  function GapRunFrom(t: string, g: nat, e: nat, mid: string, opt: string): (r: Option<Span>)
    requires g <= e <= |t|
    ensures r.Some? ==> ValidSpan(t, r.value)
    decreases e
  {
    var here := if StartsAt(t, e, mid) then RunAfter(t, e + |mid|, opt) else None;
    if here.Some? then here
    else if e == g then None
    else GapRunFrom(t, g, e - 1, mid, opt)
  }

  /** The group the tail captures when it starts matching at `g`. */
  function TailAt(t: string, g: nat, tail: Tail): (r: Option<Span>)
    requires g <= |t|
    ensures r.Some? ==> ValidSpan(t, r.value)
  {
    match tail
    case RestOfLine => Some((g, LineEnd(t, g)))
    case UpTo(sfx, keep) => UpToFrom(t, g, LineEnd(t, g), sfx, keep)
    case DigitsThen(suffix) => DigitsFrom(t, g, RunLen(t, g, IsDigit), suffix)
    case WordRun =>
      var n := RunLen(t, g, IsWordOrSpace);
      if n > 0 then Some((g, g + n)) else None
    case GapRun(mid, opt) => GapRunFrom(t, g, LineEnd(t, g), mid, opt)
  }

  /** The alternatives of the head tried in order at index `i`. */
  function HeadsAt(t: string, i: nat, heads: seq<string>, tail: Tail): (r: Option<Span>)
    requires i <= |t|
    ensures r.Some? ==> ValidSpan(t, r.value)
  {
    if heads == [] then None
    else if StartsAt(t, i, heads[0]) && TailAt(t, i + |heads[0]|, tail).Some? then
      TailAt(t, i + |heads[0]|, tail)
    else HeadsAt(t, i, heads[1..], tail)
  }

  /** A match at `i` begins with one of the head alternatives. */
  lemma {:induction false} HeadsAtNeedsHead(t: string, i: nat, heads: seq<string>, tail: Tail)
    requires i <= |t|
    requires HeadsAt(t, i, heads, tail).Some?
    ensures exists j | 0 <= j < |heads| :: StartsAt(t, i, heads[j])
  {
    if !(StartsAt(t, i, heads[0]) && TailAt(t, i + |heads[0]|, tail).Some?) {
      HeadsAtNeedsHead(t, i, heads[1..], tail);
      var j :| 0 <= j < |heads[1..]| && StartsAt(t, i, heads[1..][j]);
      assert heads[j + 1] == heads[1..][j];
    }
  }

  /** No match can start where none of the head alternatives occurs. */
  lemma {:induction false} HeadsAtNone(t: string, i: nat, heads: seq<string>, tail: Tail)
    requires i <= |t|
    requires forall j | 0 <= j < |heads| :: !StartsAt(t, i, heads[j])
    ensures HeadsAt(t, i, heads, tail) == None
  {
    if heads != [] {
      assert forall j | 0 <= j < |heads[1..]| :: heads[1..][j] == heads[j + 1];
      HeadsAtNone(t, i, heads[1..], tail);
    }
  }

  /** The match that starts at the smallest index `>= i`. */
  function SearchFrom(t: string, p: Pattern, i: nat): (r: Option<Span>)
    requires i <= |t|
    ensures r.Some? ==> ValidSpan(t, r.value)
    decreases |t| - i
  {
    var here := HeadsAt(t, i, p.heads, p.tail);
    if here.Some? then here
    else if i == |t| then None
    else SearchFrom(t, p, i + 1)
  }

  /** `re.search(p, t).group(1)`, or `None` when there is no match. */
  function Search(t: string, p: Pattern): Option<string> {
    match SearchFrom(t, p, 0)
    case Some(sp) => Some(t[sp.0..sp.1])
    case None => None
  }

  /** An expression none of whose head alternatives occurs in the text
      does not match. */
  lemma SearchNeedsHead(t: string, p: Pattern)
    requires forall j | 0 <= j < |p.heads| :: !Contains(t, p.heads[j])
    ensures Search(t, p) == None
  {
    SearchFromNeedsHead(t, p, 0);
  }

  lemma {:induction false} SearchFromNeedsHead(t: string, p: Pattern, i: nat)
    requires i <= |t|
    requires forall j | 0 <= j < |p.heads| :: !Contains(t, p.heads[j])
    ensures SearchFrom(t, p, i) == None
    decreases |t| - i
  {
    HeadsAtNone(t, i, p.heads, p.tail);
    if i < |t| {
      SearchFromNeedsHead(t, p, i + 1);
    }
  }

  /** A match at `j` means the search from any `i <= j` finds one. */
  lemma {:induction false} SearchFromReaches(t: string, p: Pattern, i: nat, j: nat)
    requires i <= j <= |t| && HeadsAt(t, j, p.heads, p.tail).Some?
    ensures SearchFrom(t, p, i).Some?
    decreases j - i
  {
    if HeadsAt(t, i, p.heads, p.tail).None? {
      SearchFromReaches(t, p, i + 1, j);
    }
  }

  /** The search reports the match at the first index, from `i` on,
      where one starts. */
  lemma {:induction false} SearchFromFirst(t: string, p: Pattern, i: nat, j: nat)
    requires i <= j <= |t| && HeadsAt(t, j, p.heads, p.tail).Some?
    requires forall k | i <= k < j :: HeadsAt(t, k, p.heads, p.tail).None?
    ensures SearchFrom(t, p, i) == HeadsAt(t, j, p.heads, p.tail)
    decreases j - i
  {
    if i < j {
      SearchFromFirst(t, p, i + 1, j);
    }
  }

  /** A match at index 0 is the one `re.search` reports. */
  lemma SearchAtStart(t: string, p: Pattern)
    requires HeadsAt(t, 0, p.heads, p.tail).Some?
    ensures SearchFrom(t, p, 0) == HeadsAt(t, 0, p.heads, p.tail)
  {}
}
