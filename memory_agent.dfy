/** The deterministic half of `MemoryAgent` (app/agents/memory_agent.py):
    the statement detector, the recall-question detector, the fold of a
    conversation into a slot map, and the reply formatters. */
module MemoryAgent {
  import opened Base
  import opened Text
  import opened Patterns

  /* =====================================================================
     Detecting a memory statement
     ===================================================================== */

  /** The characters of `strip("?!.")`. */
  predicate EndPunct(c: char) { c == '?' || c == '!' || c == '.' }

  /** The characters of `strip(" .")`. */
  predicate SpaceOrDot(c: char) { c == ' ' || c == '.' }

  /** The characters of `strip(" .?")`. */
  predicate SpaceDotOrQuery(c: char) { c == ' ' || c == '.' || c == '?' }

  /** Neither end of `v` is a space or a period. */
  predicate Clean(v: string) {
    v != [] ==> !SpaceOrDot(v[0]) && !SpaceOrDot(v[|v| - 1])
  }

  /** `text.lower().strip().strip("?!.")` */
  function Normalize(text: string): string {
    StripWith(Strip(Lower(text)), EndPunct)
  }

  /** What `detect_memory_update` returns: kind (`type`), value and the
      original message. */
  datatype MemoryUpdate = MemoryUpdate(kind: string, value: string, original: string)

  /** The category rules, in the order they are tried. */
  const UpdateRules: seq<(string, seq<Pattern>)> := [
    ("age", [Pattern(["i am "], DigitsThen(" years old")),
             Pattern(["my age is "], DigitsThen("")),
             Pattern(["i'm "], DigitsThen(" years old"))]),
    ("location", [Pattern(["i live in "], RestOfLine),
                  Pattern(["i am from "], RestOfLine),
                  Pattern(["my city is "], RestOfLine)]),
    ("certificate", [Pattern(["i got ", "i completed ", "i have "], UpTo([" certificate", " certification"], false)),
                     Pattern(["my certificate is ", "my certification is "], RestOfLine)]),
    ("project", [Pattern(["i am working on "], UpTo([" project"], false)),
                 Pattern(["working on "], RestOfLine),
                 Pattern(["my project is "], RestOfLine)]),
    ("exam_date", [Pattern(["my exam is on "], RestOfLine),
                   Pattern(["i have an exam on "], RestOfLine)]),
    ("job", [Pattern(["my job is "], RestOfLine),
             Pattern(["i work as a ", "i work as an ", "i work as "], RestOfLine),
             Pattern(["i am a ", "i am an ", "i am "], UpTo([" intern"], true))]),
    ("name", [Pattern(["my name is "], RestOfLine),
              Pattern(["call me "], RestOfLine),
              Pattern(["i am "], RestOfLine)])
  ]

  /** Slots the generic "my X is Y" rule never produces. */
  const StopSlots: seq<string> := ["problem", "issue", "question", "request", "goal"]

  /** `group.strip(" .")` */
  function CleanValue(g: string): (v: string)
    ensures Clean(v)
  {
    StripWith(g, SpaceOrDot)
  }

  /** A would-be name of more than two words, or one mentioning "working"
      or "living", is not taken as a name. */
  predicate NameRejected(v: string) {
    |Split(v)| > 2 || Contains(v, "working") || Contains(v, "living")
  }

  /** A category table: each kind with its patterns, in the order tried. */
  type Rules = seq<(string, seq<Pattern>)>

  /** The patterns of one category tried in order from the `j`-th; a
      rejected name moves on to the category's next pattern. */
  function KindMatch(kind: string, ps: seq<Pattern>, t: string, j: nat): Option<string>
    requires j <= |ps|
    decreases |ps| - j
  {
    if j == |ps| then None
    else match Search(t, ps[j])
      case Some(g) =>
        if kind == "name" && NameRejected(CleanValue(g)) then KindMatch(kind, ps, t, j + 1)
        else Some(CleanValue(g))
      case None => KindMatch(kind, ps, t, j + 1)
  }

  /** What the `m`-th category accepts in the text, if anything. */
  function Accepts(rules: Rules, t: string, m: nat): Option<string>
    requires m < |rules|
  {
    KindMatch(rules[m].0, rules[m].1, t, 0)
  }

  /** The first category, from the `j`-th on, one of whose patterns is accepted. */
  function RuleMatch(rules: Rules, t: string, j: nat): Option<(string, string)>
    requires j <= |rules|
    decreases |rules| - j
  {
    if j == |rules| then None
    else match Accepts(rules, t, j)
      case Some(v) => Some((rules[j].0, v))
      case None => RuleMatch(rules, t, j + 1)
  }

  /** `^my ([\w\s]{1,20}) is (.*)$`: group 1 tried from `n` characters
      down to one; `$` accepts the end of the text or a final line break. */
  function GenericFrom(t: string, n: nat): (r: Option<(string, string)>)
    requires StartsWith(t, "my ") && 3 + n <= |t|
    decreases n
  {
    if n == 0 then None
    else if StartsAt(t, 3 + n, " is ") && LineEnd(t, 7 + n) + 1 >= |t| then
      Some((t[3..3 + n], t[7 + n..LineEnd(t, 7 + n)]))
    else GenericFrom(t, n - 1)
  }

  function GenericMatch(t: string): Option<(string, string)> {
    if StartsWith(t, "my ") then
      var run := RunLen(t, 3, IsWordOrSpace);
      GenericFrom(t, if run < 20 then run else 20)
    else None
  }

  /** `group(1).strip().replace(" ", "_").lower()`: a slot name without spaces. */
  function SlotName(g: string): (s: string)
    ensures forall j :: 0 <= j < |s| ==> s[j] != ' '
  {
    Lower(ReplaceChar(Strip(g), ' ', '_'))
  }

  /** The generic rule, with the stop-list applied. */
  function GenericUpdate(t: string): (r: Option<(string, string)>)
    ensures r.Some? ==> r.value.0 !in StopSlots
  {
    match GenericMatch(t)
    case Some((g1, g2)) =>
      var slot := SlotName(g1);
      if slot in StopSlots then None else Some((slot, CleanValue(g2)))
    case None => None
  }

  /** The cascade on the normalised text `t`: the categories in order,
      then the generic rule. */
  function DetectWith(rules: Rules, t: string, original: string): Option<MemoryUpdate> {
    match RuleMatch(rules, t, 0)
    case Some((k, v)) => Some(MemoryUpdate(k, v, original))
    case None =>
      match GenericUpdate(t)
      case Some((k, v)) => Some(MemoryUpdate(k, v, original))
      case None => None
  }

  /** `detect_memory_update(text)` */
  function DetectUpdate(text: string): Option<MemoryUpdate> {
    DetectWith(UpdateRules, Normalize(text), text)
  }

  /* ---------------- properties of the cascade ---------------- */

  /** What one category accepts is stripped of spaces and periods, and a
      name is never one `NameRejected` refuses. */
  lemma {:induction false} KindMatchShape(kind: string, ps: seq<Pattern>, t: string, j: nat)
    requires j <= |ps| && KindMatch(kind, ps, t, j).Some?
    ensures var v := KindMatch(kind, ps, t, j).value;
            Clean(v)
            && (kind == "name" ==> !NameRejected(v))
    decreases |ps| - j
  {
    var g := Search(t, ps[j]);
    if g.None? || (kind == "name" && NameRejected(CleanValue(g.value))) {
      KindMatchShape(kind, ps, t, j + 1);
    }
  }

  /** Categories that all reject the text are passed over. */
  lemma {:induction false} RuleMatchSkip(rules: Rules, t: string, i: nat, j: nat)
    requires i <= j <= |rules|
    requires forall m | i <= m < j :: Accepts(rules, t, m).None?
    ensures RuleMatch(rules, t, i) == RuleMatch(rules, t, j)
    decreases j - i
  {
    if i < j {
      RuleMatchSkip(rules, t, i + 1, j);
    }
  }

  /** The categories are tried in order and the first accepted one wins:
      when category `j` accepts the text and no earlier one does, the
      cascade reports category `j` with that value. */
  lemma RuleMatchFirst(rules: Rules, t: string, j: nat)
    requires j < |rules|
    requires forall m | 0 <= m < j :: Accepts(rules, t, m).None?
    requires Accepts(rules, t, j).Some?
    ensures RuleMatch(rules, t, 0) == Some((rules[j].0, Accepts(rules, t, j).value))
  {
    RuleMatchSkip(rules, t, 0, j);
  }

  /** Index of the first category from the `j`-th on that accepts the
      text, or `|rules|` when none does. */
  function FirstAccepting(rules: Rules, t: string, j: nat): (m: nat)
    requires j <= |rules|
    ensures j <= m <= |rules|
    ensures m < |rules| ==> Accepts(rules, t, m).Some?
    ensures forall i | j <= i < m :: Accepts(rules, t, i).None?
    decreases |rules| - j
  {
    if j == |rules| || Accepts(rules, t, j).Some? then j
    else FirstAccepting(rules, t, j + 1)
  }

  /** Conversely, the cascade reports exactly the first accepting
      category, every category before it having rejected the text. */
  lemma RuleMatchSource(rules: Rules, t: string, j: nat)
    requires j <= |rules|
    ensures var m := FirstAccepting(rules, t, j);
            (m < |rules| ==> RuleMatch(rules, t, j) == Some((rules[m].0, Accepts(rules, t, m).value)))
            && (m == |rules| ==> RuleMatch(rules, t, j) == None)
  {
    RuleMatchSkip(rules, t, j, FirstAccepting(rules, t, j));
  }

  /** No kind of the table is stop-listed or contains a space. */
  predicate KindsOk(rules: Rules) {
    forall j | 0 <= j < |rules| ::
      rules[j].0 !in StopSlots && forall c | 0 <= c < |rules[j].0| :: rules[j].0[c] != ' '
  }

  lemma UpdateRulesOk()
    ensures KindsOk(UpdateRules)
  {
    forall j | 0 <= j < |UpdateRules|
      ensures UpdateRules[j].0 !in StopSlots && forall c | 0 <= c < |UpdateRules[j].0| :: UpdateRules[j].0[c] != ' '
    {
      assert UpdateRules[j].0 in ["age", "location", "certificate", "project", "exam_date", "job", "name"];
    }
  }

  /** The shape of a detected statement, for any table of good kinds. */
  lemma DetectWithShape(rules: Rules, t: string, original: string)
    requires KindsOk(rules) && DetectWith(rules, t, original).Some?
    ensures var u := DetectWith(rules, t, original).value;
            u.kind !in StopSlots
            && (forall c | 0 <= c < |u.kind| :: u.kind[c] != ' ')
            && Clean(u.value)
            && u.original == original
  {
    RuleMatchSource(rules, t, 0);
    var m := FirstAccepting(rules, t, 0);
    if m < |rules| {
      KindMatchShape(rules[m].0, rules[m].1, t, 0);
    } else {
      var g := GenericMatch(t).value;
      assert DetectWith(rules, t, original).value.kind == SlotName(g.0);
      assert DetectWith(rules, t, original).value.value == CleanValue(g.1);
    }
  }

  /** A detected memory statement never has a stop-listed kind, never a
      kind with a space, and its value is stripped of spaces and periods. */
  lemma DetectUpdateShape(text: string)
    requires DetectUpdate(text).Some?
    ensures var u := DetectUpdate(text).value;
            u.kind !in StopSlots
            && (forall c | 0 <= c < |u.kind| :: u.kind[c] != ' ')
            && Clean(u.value)
            && u.original == text
  {
    UpdateRulesOk();
    DetectWithShape(UpdateRules, Normalize(text), text);
  }

  /** A name found by the category rules has at most two words and
      mentions neither "working" nor "living". */
  lemma DetectedNameAccepted(rules: Rules, t: string)
    requires RuleMatch(rules, t, 0).Some? && RuleMatch(rules, t, 0).value.0 == "name"
    ensures !NameRejected(RuleMatch(rules, t, 0).value.1)
  {
    RuleMatchSource(rules, t, 0);
    var m := FirstAccepting(rules, t, 0);
    KindMatchShape(rules[m].0, rules[m].1, t, 0);
  }

  /** The cascade looks only at the normalised text: two messages with the
      same normal form are detected alike. */
  lemma DetectWithOriginal(rules: Rules, t: string, o1: string, o2: string)
    ensures DetectWith(rules, t, o1).None? <==> DetectWith(rules, t, o2).None?
    ensures DetectWith(rules, t, o1).Some? ==>
              DetectWith(rules, t, o1).value.kind == DetectWith(rules, t, o2).value.kind
              && DetectWith(rules, t, o1).value.value == DetectWith(rules, t, o2).value.value
  {}

  /** Detection ignores letter case. */
  lemma DetectUpdateIgnoresCase(text: string)
    ensures DetectUpdate(Lower(text)).None? <==> DetectUpdate(text).None?
    ensures DetectUpdate(text).Some? ==>
              DetectUpdate(Lower(text)).value.kind == DetectUpdate(text).value.kind
              && DetectUpdate(Lower(text)).value.value == DetectUpdate(text).value.value
  {
    LowerIdempotent(text);
    assert Normalize(Lower(text)) == Normalize(text);
    DetectWithOriginal(UpdateRules, Normalize(text), text, Lower(text));
  }

  /** A non-empty run of decimal digits. */
  predicate AllDigits(d: string) {
    d != [] && forall j :: 0 <= j < |d| ==> IsDigit(d[j])
  }

  /** "i am <digits> years old" is already in normal form. */
  lemma AgeSentenceNormal(d: string)
    requires AllDigits(d)
    ensures Normalize("i am " + d + " years old") == "i am " + d + " years old"
  {
    var t := "i am " + d + " years old";
    forall i | 0 <= i < |t| ensures !IsUpper(t[i]) {
      if 5 <= i < 5 + |d| {
        assert t[i] == d[i - 5];
      }
    }
    LowerNoUpper(t);
    StripWithNone(t, IsSpace);
    StripWithNone(t, EndPunct);
  }

  /** The digit run of an age statement is the number. */
  lemma AgeDigitRun(d: string)
    requires AllDigits(d)
    ensures RunLen("i am " + d + " years old", 5, IsDigit) == |d|
  {
    var t := "i am " + d + " years old";
    forall j | 5 <= j < 5 + |d| ensures IsDigit(t[j]) {
      assert t[j] == d[j - 5];
    }
    assert t[5 + |d|] == ' ';
    RunLenIs(t, 5, |d|, IsDigit);
  }

  /** The first age pattern captures exactly the digits. */
  lemma AgePatternMatches(d: string)
    requires AllDigits(d)
    ensures Search("i am " + d + " years old", UpdateRules[0].1[0]) == Some(d)
  {
    var t := "i am " + d + " years old";
    AgeDigitRun(d);
    assert StartsAt(t, 5 + |d|, " years old");
    assert StartsAt(t, 0, "i am ");
    var p := UpdateRules[0].1[0];
    assert HeadsAt(t, 0, p.heads, p.tail) == Some((5, 5 + |d|));
    SearchAtStart(t, p);
    assert t[5..5 + |d|] == d;
  }

  /** When the first pattern of a category other than `name` matches, the
      category accepts its cleaned group. */
  lemma KindMatchFirstPattern(kind: string, ps: seq<Pattern>, t: string, g: string)
    requires |ps| > 0 && Search(t, ps[0]) == Some(g) && kind != "name"
    ensures KindMatch(kind, ps, t, 0) == Some(CleanValue(g))
  {}

  /** When the first category accepts the text, the cascade reports it. */
  lemma DetectWithFirst(rules: Rules, t: string, original: string, v: string)
    requires |rules| > 0 && Accepts(rules, t, 0) == Some(v)
    ensures DetectWith(rules, t, original) == Some(MemoryUpdate(rules[0].0, v, original))
  {}

  /** The age category accepts the digits of "i am <digits> years old". */
  lemma AgeKindAccepts(d: string)
    requires AllDigits(d)
    ensures KindMatch("age", UpdateRules[0].1, "i am " + d + " years old", 0) == Some(d)
  {
    AgePatternMatches(d);
    StripWithNone(d, SpaceOrDot);
    KindMatchFirstPattern("age", UpdateRules[0].1, "i am " + d + " years old", d);
  }

  /** An age statement is an age and never a name, although "i am ..."
      is also a name pattern: "i am 22 years old" yields `age` 22. */
  lemma AgeBeforeName(d: string)
    requires AllDigits(d)
    ensures DetectUpdate("i am " + d + " years old") == Some(MemoryUpdate("age", d, "i am " + d + " years old"))
  {
    var t := "i am " + d + " years old";
    AgeSentenceNormal(d);
    AgeKindAccepts(d);
    DetectWithFirst(UpdateRules, t, t, d);
  }

  /* =====================================================================
     Detecting a recall question
     ===================================================================== */

  const NamePhrases: seq<string> := ["what is my name", "who am i", "tell me my name"]
  const AgePhrases: seq<string> := ["how old am i", "what is my age", "did i tell you my age"]
  const LocationPhrases: seq<string> := ["where do i live", "which city did i mention"]

  /** The task-slot keyword table, in its insertion order. */
  const RecallKeywords: seq<(string, seq<string>)> := [
    ("certificate", ["what certificate", "what certification", "my certificate", "my certification"]),
    ("exam_date", ["when is my exam", "my exam date"]),
    ("project", ["what project", "my project"]),
    ("job", ["what is my job", "what do i do", "my job"])
  ]

  const TellAbout := Pattern(["what did i tell you about my ", "what did i tell you about "], WordRun)
  const RememberMy := Pattern(["do you remember my "], WordRun)
  const WasMy := Pattern(["what was my "], WordRun)
  const RemindAbout := Pattern(["remind me "], GapRun(" about ", "my "))
  /** `(?:you )?(?:remember|know) (?:my )?([\w\s]+)` */
  const FuzzyRemember := Pattern(["you remember my ", "you remember ", "you know my ", "you know ",
                                  "remember my ", "remember ", "know my ", "know "], WordRun)

  /** The first keyword entry one of whose phrases occurs in the text. */
  function KeywordSlot(table: seq<(string, seq<string>)>, t: string): (r: Option<string>)
    ensures r.Some? ==> exists j | 0 <= j < |table| :: table[j].0 == r.value
  {
    if table == [] then None
    else if ContainsAny(t, table[0].1) then Some(table[0].0)
    else
      var r := KeywordSlot(table[1..], t);
      assert forall j | 1 <= j < |table| :: table[j] == table[1..][j - 1];
      r
  }

  /** `group(1).strip(" .?").replace("right", "").strip().replace(" ", "_").lower()` */
  function FuzzySlotName(g: string): (s: string)
    ensures forall j :: 0 <= j < |s| ==> s[j] != ' '
  {
    Lower(ReplaceChar(Strip(ReplaceAll(StripWith(g, SpaceDotOrQuery), "right", "")), ' ', '_'))
  }

  /** Everything `detect_memory_recall` tries before its last pattern. */
  function RecallBeforeFuzzy(t: string): (r: Option<string>)
    ensures r.Some? ==> forall j :: 0 <= j < |r.value| ==> r.value[j] != ' '
  {
    if ContainsAny(t, NamePhrases) then Some("name")
    else if ContainsAny(t, AgePhrases) then Some("age")
    else if ContainsAny(t, LocationPhrases) then Some("location")
    else match KeywordSlot(RecallKeywords, t)
      case Some(s) => assert s in ["certificate", "exam_date", "project", "job"]; Some(s)
      case None =>
        match Search(t, TellAbout)
        case Some(g) => Some(SlotName(g))
        case None =>
          match Search(t, RememberMy)
          case Some(g) => Some(SlotName(g))
          case None =>
            match Search(t, WasMy)
            case Some(g) => Some(SlotName(g))
            case None =>
              match Search(t, RemindAbout)
              case Some(g) => Some(SlotName(g))
              case None => None
  }

  /** `detect_memory_recall(text)` as written: the fuzzy branch first
      evaluates `group(1).split()[0]`, which raises `IndexError` when the
      captured group is all whitespace. */
  function DetectRecallAsWritten(text: string): Outcome<Option<string>> {
    var t := Normalize(text);
    match RecallBeforeFuzzy(t)
    case Some(s) => Returns(Some(s))
    case None =>
      match Search(t, FuzzyRemember)
      case Some(g) => if Split(g) == [] then Raises("IndexError") else Returns(Some(FuzzySlotName(g)))
      case None => Returns(None)
  }

  /** `detect_memory_recall(text)` without the discarded first assignment
      of the fuzzy branch, whose value is overwritten on the next line. */
  function DetectRecall(text: string): Option<string> {
    var t := Normalize(text);
    match RecallBeforeFuzzy(t)
    case Some(s) => Some(s)
    case None =>
      match Search(t, FuzzyRemember)
      case Some(g) => Some(FuzzySlotName(g))
      case None => None
  }

  /** A requested slot never contains a space. */
  lemma RecallSlotHasNoSpace(text: string)
    requires DetectRecall(text).Some?
    ensures forall j :: 0 <= j < |DetectRecall(text).value| ==> DetectRecall(text).value[j] != ' '
  {}

  /** The literal identity, age and location phrases take precedence over
      the keyword table and the generic patterns, in that order. */
  lemma LiteralPhrasesFirst(text: string)
    ensures ContainsAny(Normalize(text), NamePhrases) ==> DetectRecall(text) == Some("name")
    ensures !ContainsAny(Normalize(text), NamePhrases) && ContainsAny(Normalize(text), AgePhrases)
            ==> DetectRecall(text) == Some("age")
    ensures (!ContainsAny(Normalize(text), NamePhrases) && !ContainsAny(Normalize(text), AgePhrases)
             && ContainsAny(Normalize(text), LocationPhrases)) ==> DetectRecall(text) == Some("location")
  {}

  /** The corrected detector agrees with the code as written whenever the
      code returns, and the code raises only on an all-whitespace group. */
  lemma RecallAsWrittenAgrees(text: string)
    ensures DetectRecallAsWritten(text).Returns? ==> DetectRecallAsWritten(text).value == DetectRecall(text)
    ensures DetectRecallAsWritten(text).Raises? <==>
              RecallBeforeFuzzy(Normalize(text)).None?
              && Search(Normalize(text), FuzzyRemember).Some?
              && Split(Search(Normalize(text), FuzzyRemember).value) == []
  {}

  lemma CrashTextLower()
    ensures Lower("know  .") == "know  ."
  {
    LowerNoUpper("know  .");
  }

  lemma CrashTextStrip()
    ensures Strip("know  .") == "know  ."
  {
    StripWithNone("know  .", IsSpace);
  }

  lemma CrashTextPeriod()
    ensures RStrip("know  .", EndPunct) == RStrip("know  ", EndPunct)
  {}

  lemma CrashTextPunctRight()
    ensures RStrip("know  ", EndPunct) == "know  "
  {
    RStripNone("know  ", EndPunct);
  }

  lemma CrashTextPunctLeft()
    ensures LStrip("know  .", EndPunct) == "know  ."
  {
    LStripNone("know  .", EndPunct);
  }

  lemma CrashTextNormal()
    ensures Normalize("know  .") == "know  "
  {
    CrashTextLower();
    CrashTextStrip();
    CrashTextPunctLeft();
    CrashTextPeriod();
    CrashTextPunctRight();
  }

  lemma CrashTextNoPhrase()
    ensures !ContainsAny("know  ", NamePhrases)
    ensures !ContainsAny("know  ", AgePhrases)
    ensures !ContainsAny("know  ", LocationPhrases)
    ensures KeywordSlot(RecallKeywords, "know  ") == None
  {
    CrashTextNoPhraseIn(NamePhrases);
    CrashTextNoPhraseIn(AgePhrases);
    CrashTextNoPhraseIn(LocationPhrases);
    CrashTextNoKeyword();
  }

  /** Phrases longer than the text are not in it. */
  lemma CrashTextNoPhraseIn(phrases: seq<string>)
    requires forall j | 0 <= j < |phrases| :: |phrases[j]| > 6
    ensures !ContainsAny("know  ", phrases)
  {
    var t := "know  ";
    forall j | 0 <= j < |phrases| ensures !Contains(t, phrases[j]) { ContainsTooLong(t, phrases[j]); }
  }

  lemma CrashTextNoKeyword()
    ensures KeywordSlot(RecallKeywords, "know  ") == None
  {
    var t := "know  ";
    CrashTextNoPhraseIn(RecallKeywords[0].1);
    CrashTextNoPhraseIn(RecallKeywords[1].1);
    CrashTextNoPhraseIn(RecallKeywords[2].1);
    var job := RecallKeywords[3].1;
    forall j | 0 <= j < |job| ensures !Contains(t, job[j]) {
      if j == 2 {
        MissingChar(t, "my job", 0);
      } else {
        ContainsTooLong(t, job[j]);
      }
    }
    KeywordSlotNone(RecallKeywords, t);
  }

  /** No entry's phrase occurs: no slot. */
  lemma {:induction false} KeywordSlotNone(table: seq<(string, seq<string>)>, t: string)
    requires forall k | 0 <= k < |table| :: !ContainsAny(t, table[k].1)
    ensures KeywordSlot(table, t) == None
  {
    if table != [] {
      assert forall k | 1 <= k < |table| :: table[k] == table[1..][k - 1];
      KeywordSlotNone(table[1..], t);
    }
  }

  lemma CrashTextNoGenericPattern()
    ensures Search("know  ", TellAbout) == None
    ensures Search("know  ", RememberMy) == None
    ensures Search("know  ", WasMy) == None
    ensures Search("know  ", RemindAbout) == None
  {
    var t := "know  ";
    forall j | 0 <= j < |TellAbout.heads| ensures !Contains(t, TellAbout.heads[j]) { ContainsTooLong(t, TellAbout.heads[j]); }
    SearchNeedsHead(t, TellAbout);
    forall j | 0 <= j < |RememberMy.heads| ensures !Contains(t, RememberMy.heads[j]) { ContainsTooLong(t, RememberMy.heads[j]); }
    SearchNeedsHead(t, RememberMy);
    forall j | 0 <= j < |WasMy.heads| ensures !Contains(t, WasMy.heads[j]) { ContainsTooLong(t, WasMy.heads[j]); }
    SearchNeedsHead(t, WasMy);
    forall j | 0 <= j < |RemindAbout.heads| ensures !Contains(t, RemindAbout.heads[j]) { ContainsTooLong(t, RemindAbout.heads[j]); }
    SearchNeedsHead(t, RemindAbout);
  }

  lemma CrashTextFuzzyGroup()
    ensures Search("know  ", FuzzyRemember) == Some(" ")
  {
    var t := "know  ";
    CrashTextFuzzyHeads();
    SearchAtStart(t, FuzzyRemember);
    assert t[5..6] == " ";
  }

  lemma CrashTextFuzzyHeads()
    ensures HeadsAt("know  ", 0, FuzzyRemember.heads, WordRun) == Some((5, 6))
  {
    var t := "know  ";
    assert StartsAt(t, 0, "know ");
    assert RunLen(t, 6, IsWordOrSpace) == 0;
    assert RunLen(t, 5, IsWordOrSpace) == 1;
  }

  lemma CrashTextNoEarlierPattern()
    ensures RecallBeforeFuzzy("know  ") == None
  {
    CrashTextNoPhrase();
    CrashTextNoGenericPattern();
  }

  lemma CrashTextSlot()
    ensures Split(" ") == []
    ensures FuzzySlotName(" ") == ""
  {
    assert StripWith(" ", SpaceDotOrQuery) == "";
  }

  /** Both detectors on a text whose normal form reaches the fuzzy pattern. */
  lemma FuzzyOutcome(text: string, t: string, g: string)
    requires Normalize(text) == t && RecallBeforeFuzzy(t).None? && Search(t, FuzzyRemember) == Some(g)
    ensures DetectRecallAsWritten(text) == (if Split(g) == [] then Raises("IndexError") else Returns(Some(FuzzySlotName(g))))
    ensures DetectRecall(text) == Some(FuzzySlotName(g))
  {}

  /** "know  ." crashes the detector as written; the corrected detector
      answers with the empty slot. */
  lemma RecallCrashExample()
    ensures DetectRecallAsWritten("know  .") == Raises("IndexError")
    ensures DetectRecall("know  .") == Some("")
  {
    CrashTextNormal();
    CrashTextNoEarlierPattern();
    CrashTextFuzzyGroup();
    CrashTextSlot();
    FuzzyOutcome("know  .", "know  ", " ");
  }

  /* =====================================================================
     Folding a conversation into a slot map
     ===================================================================== */

  /** A stored message; `role` is `None` when the message has no role. */
  datatype Message = Message(role: Option<string>, content: string)

  /** `update["type"].lower().replace(" ", "_")` */
  function SlotKey(kind: string): string {
    ReplaceChar(Lower(kind), ' ', '_')
  }

  /** The effect of one message on the slot map. */
  function Step(slots: Dict<string>, m: Message): Dict<string> {
    if m.role == Some("user") then
      match DetectUpdate(m.content)
      case Some(u) => Put(slots, SlotKey(u.kind), u.value)
      case None => slots
    else slots
  }

  /** The slot map after the messages, oldest first. */
  function Fold(ms: seq<Message>): Dict<string> {
    if ms == [] then [] else Step(Fold(ms[..|ms| - 1]), ms[|ms| - 1])
  }

  /** `certificate` and `certification` are copied onto each other when
      only one of them is present. */
  function Mirror(slots: Dict<string>): Dict<string> {
    if HasKey(slots, "certification") && !HasKey(slots, "certificate") then
      Put(slots, "certificate", Get(slots, "certification").value)
    else if HasKey(slots, "certificate") && !HasKey(slots, "certification") then
      Put(slots, "certification", Get(slots, "certificate").value)
    else slots
  }

  function SlotsOf(ms: seq<Message>): Dict<string> {
    Mirror(Fold(ms))
  }

  /** The loop of `_extract_slots_from_messages` over the messages. */
  method CollectSlots(messages: seq<Message>) returns (slots: Dict<string>)
    ensures slots == Fold(messages)
  {
    slots := [];
    var i := 0;
    while i < |messages|
      invariant 0 <= i <= |messages|
      invariant slots == Fold(messages[..i])
    {
      var msg := messages[i];
      if msg.role == Some("user") {
        var update := DetectUpdate(msg.content);
        if update.Some? {
          var key := SlotKey(update.value.kind);
          slots := Put(slots, key, update.value.value);
        }
      }
      assert messages[..i + 1][..i] == messages[..i];
      assert Fold(messages[..i + 1]) == Step(Fold(messages[..i]), msg);
      i := i + 1;
    }
    assert messages[..|messages|] == messages;
  }

  /** `_extract_slots_from_messages(messages)` */
  method ExtractSlotsFromMessages(messages: seq<Message>) returns (slots: Dict<string>)
    ensures slots == SlotsOf(messages)
  {
    slots := CollectSlots(messages);
    if HasKey(slots, "certification") && !HasKey(slots, "certificate") {
      slots := Put(slots, "certificate", Get(slots, "certification").value);
    } else if HasKey(slots, "certificate") && !HasKey(slots, "certification") {
      slots := Put(slots, "certification", Get(slots, "certificate").value);
    }
  }

  lemma FoldSnoc(ms: seq<Message>, m: Message)
    ensures Fold(ms + [m]) == Step(Fold(ms), m)
  {
    assert (ms + [m])[..|ms|] == ms;
  }

  /** Messages that are not the user's leave the slot map unchanged. */
  lemma OnlyUserMessagesCount(ms: seq<Message>, m: Message)
    requires m.role != Some("user")
    ensures Fold(ms + [m]) == Fold(ms)
  {
    FoldSnoc(ms, m);
  }

  /** The latest statement about a slot replaces every earlier one, and
      leaves the other slots as they were. */
  lemma LastWriteWins(ms: seq<Message>, m: Message)
    requires m.role == Some("user") && DetectUpdate(m.content).Some?
    ensures Get(Fold(ms + [m]), SlotKey(DetectUpdate(m.content).value.kind)) == Some(DetectUpdate(m.content).value.value)
    ensures forall k :: k != SlotKey(DetectUpdate(m.content).value.kind) ==> Get(Fold(ms + [m]), k) == Get(Fold(ms), k)
  {
    FoldSnoc(ms, m);
    var u := DetectUpdate(m.content).value;
    PutGet(Fold(ms), SlotKey(u.kind), u.value);
  }

  /** After the fold, `certificate` and `certification` are both present
      or both absent. */
  lemma MirrorBothOrNeither(slots: Dict<string>)
    ensures HasKey(Mirror(slots), "certificate") <==> HasKey(Mirror(slots), "certification")
  {
    if HasKey(slots, "certification") && !HasKey(slots, "certificate") {
      assert Keys(Mirror(slots)) == Keys(slots) + ["certificate"];
    } else if HasKey(slots, "certificate") && !HasKey(slots, "certification") {
      assert Keys(Mirror(slots)) == Keys(slots) + ["certification"];
    }
  }

  /** The slot map never holds a key twice. */
  lemma {:induction false} FoldUniqueKeys(ms: seq<Message>)
    ensures UniqueKeys(Fold(ms))
    ensures UniqueKeys(SlotsOf(ms))
  {
    if ms != [] {
      FoldUniqueKeys(ms[..|ms| - 1]);
      var m := ms[|ms| - 1];
      var prev := Fold(ms[..|ms| - 1]);
      if m.role == Some("user") && DetectUpdate(m.content).Some? {
        var u := DetectUpdate(m.content).value;
        PutUnique(prev, SlotKey(u.kind), u.value);
      }
    }
    var f := Fold(ms);
    if HasKey(f, "certification") && !HasKey(f, "certificate") {
      PutUnique(f, "certificate", Get(f, "certification").value);
    } else if HasKey(f, "certificate") && !HasKey(f, "certification") {
      PutUnique(f, "certification", Get(f, "certificate").value);
    }
  }

  /* =====================================================================
     Answering a recall question
     ===================================================================== */

  const NoInfo := "I don't have that information yet."

  /** `slot.lower().replace(" ", "_")` */
  function LookupKey(slot: string): string {
    ReplaceChar(Lower(slot), ' ', '_')
  }

  /** No key of the map contains the lookup key or is contained in it. */
  predicate NoOverlap(slots: Dict<string>, lk: string) {
    forall i | 0 <= i < |slots| :: !Contains(slots[i].0, lk) && !Contains(lk, slots[i].0)
  }

  /** The first entry whose key contains the lookup key or is contained in it. */
  function FirstOverlap(slots: Dict<string>, lk: string): (r: Option<(string, string)>)
    ensures r.Some? ==> r.value in slots
    ensures r.Some? ==> Contains(r.value.0, lk) || Contains(lk, r.value.0)
    ensures r.None? ==> NoOverlap(slots, lk)
  {
    if slots == [] then None
    else if Contains(slots[0].0, lk) || Contains(lk, slots[0].0) then Some(slots[0])
    else
      var r := FirstOverlap(slots[1..], lk);
      assert forall i | 1 <= i < |slots| :: slots[i] == slots[1..][i - 1];
      r
  }

  /** The slot the answer is about and its value, or `None` when the
      looked-up value is missing or empty. The exact key keeps the slot as
      asked; the substring fallback answers about the key it found. */
  function Resolve(slot: string, slots: Dict<string>): Option<(string, string)> {
    var lk := LookupKey(slot);
    match Get(slots, lk)
    case Some(v) =>
      if v != "" then Some((slot, v))
      else (match FirstOverlap(slots, lk)
            case Some(kv) => if kv.1 != "" then Some(kv) else None
            case None => None)
    case None =>
      match FirstOverlap(slots, lk)
      case Some(kv) => if kv.1 != "" then Some(kv) else None
      case None => None
  }

  /** The sentence for a slot and its value. */
  function Answer(slot: string, val: string): (r: string)
    ensures |r| > 0 && r[0] == 'Y'
  {
    if slot == "name" then "Your name is " + Title(Strip(val)) + "."
    else if slot == "age" then "You are " + val + " years old."
    else if slot == "location" then "You live in " + Title(Strip(val)) + "."
    else if Contains(slot, "exam") then "Your exam is on " + val + "."
    else if slot == "certificate" || slot == "certification" then "You mentioned " + val + "."
    else if slot == "project" then "You said you are working on " + val + "."
    else if slot == "job" then "You mentioned your job is " + val + "."
    else "You mentioned that your " + ReplaceChar(slot, '_', ' ') + " is " + val + "."
  }

  function RecallReply(slot: string, slots: Dict<string>): string {
    match Resolve(slot, slots)
    case Some((s, v)) => Answer(s, v)
    case None => NoInfo
  }

  /** `generate_recall_response(slot, slots)` */
  method GenerateRecallResponse(slot: string, slots: Dict<string>) returns (reply: string)
    ensures reply == RecallReply(slot, slots)
  {
    var lookupKey := LookupKey(slot);
    var val := Get(slots, lookupKey);
    var about := slot;
    if val.None? || val.value == "" {
      var i := 0;
      while i < |slots|
        invariant 0 <= i <= |slots|
        invariant FirstOverlap(slots, lookupKey) == FirstOverlap(slots[i..], lookupKey)
      {
        var (k, v) := slots[i];
        if Contains(k, lookupKey) || Contains(lookupKey, k) {
          val := Some(v);
          about := k;
          break;
        }
        assert slots[i..][1..] == slots[i + 1..];
        i := i + 1;
      }
    }
    if val.None? || val.value == "" {
      reply := NoInfo;
    } else {
      reply := Answer(about, val.value);
    }
  }

  /** Recall never fabricates: an answer other than "I don't have that
      information yet." quotes a non-empty value stored in the map, and
      that fixed sentence is given exactly when nothing usable was found. */
  lemma RecallNeverFabricates(slot: string, slots: Dict<string>)
    ensures RecallReply(slot, slots) == NoInfo <==> Resolve(slot, slots).None?
    ensures Resolve(slot, slots).Some? ==>
              var (s, v) := Resolve(slot, slots).value;
              v != "" && (exists k :: (k, v) in slots) && RecallReply(slot, slots) == Answer(s, v)
  {
    var lk := LookupKey(slot);
    if Get(slots, lk).Some? {
      GetIn(slots, lk);
    }
    if Resolve(slot, slots).Some? {
      assert Answer(Resolve(slot, slots).value.0, Resolve(slot, slots).value.1)[0] != NoInfo[0];
    }
  }

  /** No entry overlaps: the fallback finds nothing. */
  lemma {:induction false} NoOverlapFound(slots: Dict<string>, lk: string)
    requires NoOverlap(slots, lk)
    ensures FirstOverlap(slots, lk) == None
  {
    if slots != [] {
      assert forall i | 0 <= i < |slots[1..]| :: slots[1..][i] == slots[i + 1];
      NoOverlapFound(slots[1..], lk);
    }
  }

  /** With no usable exact value and no key overlapping the lookup key,
      the reply is exactly "I don't have that information yet.". */
  lemma NoOverlapNoInfo(slot: string, slots: Dict<string>)
    requires Get(slots, LookupKey(slot)).None? || Get(slots, LookupKey(slot)) == Some("")
    requires NoOverlap(slots, LookupKey(slot))
    ensures RecallReply(slot, slots) == NoInfo
  {
    NoOverlapFound(slots, LookupKey(slot));
  }

  /** An exact, non-empty value is used as it is, under the slot as asked. */
  lemma ExactHit(slot: string, slots: Dict<string>, v: string)
    requires Get(slots, LookupKey(slot)) == Some(v) && v != ""
    ensures RecallReply(slot, slots) == Answer(slot, v)
  {}

  /* =====================================================================
     Acknowledging a memory statement
     ===================================================================== */

  /** `generate_acknowledgement({"type": kind, "value": val})` */
  function Acknowledgement(kind: string, val: string): string {
    if kind == "name" then "Nice to meet you, " + Capitalize(val) + ". I'll remember that."
    else if kind == "age" then "Got it. You are " + val + " years old."
    else if kind == "location" then "Understood. You live in " + Title(val) + "."
    else "I've noted that your " + ReplaceChar(kind, '_', ' ') + " is " + val + "."
  }

  /** The value shown in the acknowledgement of a statement of `kind`. */
  function Shown(kind: string, val: string): string {
    if kind == "name" then Capitalize(val) else if kind == "location" then Title(val) else val
  }

  /** The acknowledgement repeats the remembered value (capitalised for a
      name, title-cased for a location). */
  lemma AcknowledgementQuotesValue(kind: string, val: string)
    ensures Contains(Acknowledgement(kind, val), Shown(kind, val))
  {
    var a := Acknowledgement(kind, val);
    if kind == "name" {
      ContainsMiddle("Nice to meet you, ", Capitalize(val), ". I'll remember that.");
    } else if kind == "age" {
      ContainsMiddle("Got it. You are ", val, " years old.");
    } else if kind == "location" {
      ContainsMiddle("Understood. You live in ", Title(val), ".");
    } else {
      ContainsMiddle("I've noted that your " + ReplaceChar(kind, '_', ' ') + " is ", val, ".");
    }
  }

  /** For any other kind the acknowledgement is fully determined: the fixed
      opening, the kind with every underscore read as a space, then the
      value as given. */
  lemma AcknowledgementOther(kind: string, val: string)
    requires kind != "name" && kind != "age" && kind != "location"
    ensures var a := Acknowledgement(kind, val);
            var n := |"I've noted that your "|;
            |a| == n + |kind| + |val| + 5
            && a[..n] == "I've noted that your "
            && (forall i :: 0 <= i < |kind| ==> a[n + i] == (if kind[i] == '_' then ' ' else kind[i]))
            && a[n + |kind|..] == " is " + val + "."
  {
    var n := |"I've noted that your "|;
    var k := ReplaceChar(kind, '_', ' ');
    var a := "I've noted that your " + k + " is " + val + ".";
    assert a == "I've noted that your " + (k + (" is " + val + "."));
    assert a[n + |kind|..] == " is " + val + ".";
  }
}
