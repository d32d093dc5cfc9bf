/** The structured memory service: one JSON document per user and
    conversation, holding five categories of key/value facts and a running
    conversation summary.

    The document store is not modelled: each operation takes the document
    the store loaded (`None` when there is none yet) and returns the one it
    saves.  The language model's reply (`None` unless its status is
    "success"), `json.loads` (`None` for text it rejects) and the cosine
    similarity of each memory key to the query are inputs. */
module MemoryV2 {
  import opened Base
  import opened Text

  /** The categories, in the order recall and the summary scan them. */
  const Categories: seq<string> := ["identity", "preferences", "tasks", "bookings", "facts"]

  const SummaryKey := "conversation_summary"

  /** An empty object under each of `categories`, in order. */
  function Empties(categories: seq<string>): (d: Dict<Json>)
    ensures Keys(d) == categories
  {
    if categories == [] then [] else [(categories[0], JObj([]))] + Empties(categories[1..])
  }

  /** The document of a conversation that has none yet: the five empty
      categories, then the empty summary. */
  const Default: Dict<Json> := Empties(Categories) + [(SummaryKey, JStr(""))]

  /** `load_memory`: the stored document, or the default one. */
  function Load(stored: Option<Dict<Json>>): Dict<Json> {
    if stored.Some? then stored.value else Default
  }

  /** A missing document loads with the five categories and the summary,
      in that order, and nothing else. */
  lemma DefaultKeys()
    ensures Keys(Default) == Categories + [SummaryKey]
  {
    var tail := [(SummaryKey, JStr(""))];
    assert Keys(Default) == Keys(Empties(Categories)) + Keys(tail);
  }

  /** Every category of a missing document is an empty object. */
  lemma DefaultCategories()
    ensures forall k | 0 <= k < |Categories| :: Get(Default, Categories[k]) == Some(JObj([]))
  {
    var tail := [(SummaryKey, JStr(""))];
    forall k | 0 <= k < |Categories| ensures Get(Default, Categories[k]) == Some(JObj([])) {
      GetEmpties(Categories, tail, Categories[k]);
    }
  }

  /** The summary of a missing document is empty. */
  lemma DefaultSummary()
    ensures Get(Default, SummaryKey) == Some(JStr(""))
  {
    var tail := [(SummaryKey, JStr(""))];
    assert |SummaryKey| == 20;
    assert SummaryKey !in Categories;
    GetEmpties(Categories, tail, SummaryKey);
  }

  lemma {:induction false} GetEmpties(categories: seq<string>, tail: Dict<Json>, c: string)
    ensures Get(Empties(categories) + tail, c) == if c in categories then Some(JObj([])) else Get(tail, c)
    decreases |categories|
  {
    if categories != [] {
      var d := Empties(categories) + tail;
      var rest := Empties(categories[1..]) + tail;
      assert d == [(categories[0], JObj([]))] + rest;
      if c == categories[0] {
        assert Get(d, c) == Some(JObj([]));
      } else {
        assert d[1..] == rest;
        assert Get(d, c) == Get(rest, c);
        assert c in categories <==> c in categories[1..];
        GetEmpties(categories[1..], tail, c);
      }
    } else {
      assert Empties(categories) + tail == tail;
    }
  }

  /* ---------------------------------------------------------------------
     Structured extraction: the merge loop
     --------------------------------------------------------------------- */

  /** The text handed to `json.loads`: the stripped reply, or, when it opens
      with a code fence, the stripped text up to the closing fence. */
  function ExtractionPayload(content: string): (r: string)
    ensures !StartsWith(Strip(content), "```") ==> r == Strip(content)
    ensures StartsWith(Strip(content), "```") ==> !Contains(r, "```")
  {
    var c := Strip(content);
    if StartsWith(c, "```json") then
      var part := BeforeFirst(SecondPart(c, "```json"), "```");
      BeforeFirstLacks(SecondPart(c, "```json"), "```");
      StripLacks(part, "```");
      Strip(part)
    else if StartsWith(c, "```") then
      var part := BeforeFirst(SecondPart(c, "```"), "```");
      BeforeFirstLacks(SecondPart(c, "```"), "```");
      StripLacks(part, "```");
      Strip(part)
    else c
  }

  /** The value an item would be stored as, and where: present exactly when
      type, key and value are all truthy and the type is a string naming a
      top-level member of the document. */
  predicate Writable(memory: Dict<Json>, item: Json) {
    item.JObj?
    && var t := MemberOrNull(item.members, "type");
       Truthy(t) && Truthy(MemberOrNull(item.members, "key")) && Truthy(MemberOrNull(item.members, "value"))
       && t.JStr? && HasKey(memory, t.s)
  }

  /** One pass of the loop body: `memory[m_type][key] = value` when the
      guard holds.  Raising (a non-object item, an unhashable type, a
      target that is not an object) ends the whole merge. */
  function MergeItem(memory: Dict<Json>, item: Json): (r: Outcome<Dict<Json>>)
    ensures r.Returns? && !Writable(memory, item) ==> r.value == memory
    ensures r.Returns? ==> Keys(r.value) == Keys(memory)
  {
    if !item.JObj? then Raises("AttributeError")
    else
      var t := MemberOrNull(item.members, "type");
      var key := MemberOrNull(item.members, "key");
      var value := MemberOrNull(item.members, "value");
      if !(Truthy(t) && Truthy(key) && Truthy(value)) then Returns(memory)
      else if t.JArr? || t.JObj? then Raises("TypeError")
      else if !(t.JStr? && HasKey(memory, t.s)) then Returns(memory)
      else
        var target := Get(memory, t.s).value;
        if target.JObj? && key.JStr? then
          Returns(Put(memory, t.s, JObj(Put(target.members, key.s, value))))
        else Raises("TypeError")
  }

  /** A written item is found under its type and key afterwards, and every
      other member of the document is unchanged. */
  lemma MergeItemWrites(memory: Dict<Json>, item: Json)
    requires Writable(memory, item) && MergeItem(memory, item).Returns?
    ensures var t := MemberOrNull(item.members, "type").s;
            var r := MergeItem(memory, item).value;
            && Get(r, t).Some? && Get(r, t).value.JObj?
            && MemberOrNull(item.members, "key").JStr?
            && Get(Get(r, t).value.members, MemberOrNull(item.members, "key").s)
               == Some(MemberOrNull(item.members, "value"))
            && forall k :: k != t ==> Get(r, k) == Get(memory, k)
  {
    var t := MemberOrNull(item.members, "type").s;
    var target := Get(memory, t).value;
    var key := MemberOrNull(item.members, "key").s;
    var value := MemberOrNull(item.members, "value");
    PutGet(target.members, key, value);
    PutGet(memory, t, JObj(Put(target.members, key, value)));
  }

  /** The whole loop: the items in order, stopping at the first that raises. */
  function MergeAll(memory: Dict<Json>, items: seq<Json>): Outcome<Dict<Json>>
    decreases |items|
  {
    if items == [] then Returns(memory)
    else
      match MergeItem(memory, items[0])
      case Raises(e) => Raises(e)
      case Returns(m) => MergeAll(m, items[1..])
  }

  /** The merge never adds or removes a top-level member. */
  lemma {:induction false} MergeKeepsKeys(memory: Dict<Json>, items: seq<Json>)
    requires MergeAll(memory, items).Returns?
    ensures Keys(MergeAll(memory, items).value) == Keys(memory)
    decreases |items|
  {
    if items != [] {
      MergeKeepsKeys(MergeItem(memory, items[0]).value, items[1..]);
    }
  }

  /** A merge that completes without any item passing the guard leaves the
      document as it was. */
  lemma {:induction false} MergeNothingWritable(memory: Dict<Json>, items: seq<Json>)
    requires MergeAll(memory, items).Returns?
    requires forall k | 0 <= k < |items| :: !Writable(memory, items[k])
    ensures MergeAll(memory, items) == Returns(memory)
    decreases |items|
  {
    if items != [] {
      assert !Writable(memory, items[0]);
      assert forall k | 0 <= k < |items[1..]| :: items[1..][k] == items[k + 1];
      MergeNothingWritable(memory, items[1..]);
    }
  }

  /** `extract_structured_memory`: the document it saves, or `None` when it
      saves nothing (no successful reply, a payload `json.loads` rejects or
      that is not a list, or an item that raises). */
  function StructuredUpdate(stored: Option<Dict<Json>>, reply: Option<string>,
                            loads: string -> Option<Json>): Option<Dict<Json>> {
    if reply.None? then None
    else
      var extractions := loads(ExtractionPayload(reply.value));
      if extractions.Some? && extractions.value.JArr? then
        match MergeAll(Load(stored), extractions.value.items)
        case Returns(m) => Some(m)
        case Raises(_) => None
      else None
  }

  /** The saved document keeps the loaded document's members. */
  lemma StructuredUpdateKeepsKeys(stored: Option<Dict<Json>>, reply: Option<string>,
                                  loads: string -> Option<Json>)
    requires StructuredUpdate(stored, reply, loads).Some?
    ensures Keys(StructuredUpdate(stored, reply, loads).value) == Keys(Load(stored))
  {
    var items := loads(ExtractionPayload(reply.value)).value.items;
    MergeKeepsKeys(Load(stored), items);
  }

  /** The merge loop of `extract_structured_memory` on the parsed reply. */
  method ExtractStructuredMemory(stored: Option<Dict<Json>>, reply: Option<string>,
                                 loads: string -> Option<Json>) returns (saved: Option<Dict<Json>>)
    ensures saved == StructuredUpdate(stored, reply, loads)
  {
    if reply.None? {
      return None;
    }
    var extractions := loads(ExtractionPayload(reply.value));
    if !(extractions.Some? && extractions.value.JArr?) {
      return None;
    }
    var items := extractions.value.items;
    var memory := Load(stored);
    var i := 0;
    while i < |items|
      invariant 0 <= i <= |items|
      invariant MergeAll(Load(stored), items) == MergeAll(memory, items[i..])
    {
      assert items[i..][1..] == items[i + 1..];
      var item := items[i];
      if !item.JObj? {
        return None;
      }
      var mType := MemberOrNull(item.members, "type");
      var key := MemberOrNull(item.members, "key");
      var value := MemberOrNull(item.members, "value");
      if Truthy(mType) && Truthy(key) && Truthy(value) {
        if mType.JArr? || mType.JObj? {
          return None;
        }
        if mType.JStr? && HasKey(memory, mType.s) {
          var target := Get(memory, mType.s).value;
          if !(target.JObj? && key.JStr?) {
            return None;
          }
          memory := Put(memory, mType.s, JObj(Put(target.members, key.s, value)));
        }
      }
      i := i + 1;
    }
    saved := Some(memory);
  }

  /* ---------------------------------------------------------------------
     Recall: the best key above the threshold
     --------------------------------------------------------------------- */

  /** `memory.get(m_type, {}).items()`; a member that is not an object has
      no `items`. */
  function Section(memory: Dict<Json>, category: string): Outcome<Dict<Json>> {
    var v := Get(memory, category);
    if v.None? then Returns([])
    else if v.value.JObj? then Returns(v.value.members)
    else Raises("AttributeError")
  }

  /** The (key, value) pairs the nested loops visit, in order. */
  function Entries(memory: Dict<Json>, categories: seq<string>): Outcome<Dict<Json>>
    decreases |categories|
  {
    if categories == [] then Returns([])
    else
      match Entries(memory, categories[..|categories| - 1])
      case Raises(e) => Raises(e)
      case Returns(seen) =>
        match Section(memory, categories[|categories| - 1])
        case Raises(e) => Raises(e)
        case Returns(items) => Returns(seen + items)
  }

  lemma {:induction false} EntriesRaise(memory: Dict<Json>, categories: seq<string>, n: nat)
    requires n <= |categories| && Entries(memory, categories[..n]).Raises?
    ensures Entries(memory, categories) == Entries(memory, categories[..n])
    decreases |categories| - n
  {
    if n < |categories| {
      assert categories[..n + 1][..n] == categories[..n];
      EntriesRaise(memory, categories, n + 1);
    } else {
      assert categories[..n] == categories;
    }
  }

  /** A similarity the loop can take: above the threshold and above the
      starting best, -1. */
  predicate Candidate(sim: real, threshold: real) {
    sim > threshold && sim > -1.0
  }

  /** The loop's (best_match, highest_sim) after visiting `entries`. */
  function Scan(entries: Dict<Json>, score: string -> real, threshold: real): (r: (Option<Json>, real))
    ensures r.0.None? ==> r.1 == -1.0
    ensures r.0.Some? ==> Candidate(r.1, threshold)
    decreases |entries|
  {
    if entries == [] then (None, -1.0)
    else
      var (best, highest) := Scan(entries[..|entries| - 1], score, threshold);
      var (key, value) := entries[|entries| - 1];
      var sim := score(key);
      if sim > threshold && sim > highest then (Some(value), sim) else (best, highest)
  }

  /** Entry `i` is the one recall answers with: its similarity is above
      the threshold, no entry's is higher, and every earlier entry's is
      lower. */
  predicate Chosen(entries: Dict<Json>, score: string -> real, threshold: real, i: int) {
    0 <= i < |entries| && Candidate(score(entries[i].0), threshold)
    && (forall j | 0 <= j < |entries| :: score(entries[j].0) <= score(entries[i].0))
    && (forall j | 0 <= j < i :: score(entries[j].0) < score(entries[i].0))
  }

  /** The scan finds nothing exactly when no similarity exceeds both the
      threshold and -1; otherwise it holds the value of the first entry of
      highest similarity. */
  lemma ScanBest(entries: Dict<Json>, score: string -> real, threshold: real)
    ensures Scan(entries, score, threshold).0.None?
            <==> forall i | 0 <= i < |entries| :: !Candidate(score(entries[i].0), threshold)
    ensures Scan(entries, score, threshold).0.Some? ==>
            exists i :: Chosen(entries, score, threshold, i)
                        && Scan(entries, score, threshold) == (Some(entries[i].1), score(entries[i].0))
  {
    ScanNoneIff(entries, score, threshold);
    if Scan(entries, score, threshold).0.Some? {
      var i := ScanChosen(entries, score, threshold);
    }
  }

  lemma {:induction false} ScanNoneIff(entries: Dict<Json>, score: string -> real, threshold: real)
    ensures Scan(entries, score, threshold).0.None?
            <==> forall i | 0 <= i < |entries| :: !Candidate(score(entries[i].0), threshold)
    decreases |entries|
  {
    if entries != [] {
      var init := entries[..|entries| - 1];
      ScanNoneIff(init, score, threshold);
      assert forall j | 0 <= j < |init| :: init[j] == entries[j];
    }
  }

  /** The index of the entry a successful scan holds. */
  lemma {:induction false} ScanChosen(entries: Dict<Json>, score: string -> real, threshold: real) returns (i: int)
    requires Scan(entries, score, threshold).0.Some?
    ensures Chosen(entries, score, threshold, i)
    ensures Scan(entries, score, threshold) == (Some(entries[i].1), score(entries[i].0))
    decreases |entries|
  {
    var init := entries[..|entries| - 1];
    var n := |init|;
    assert forall j | 0 <= j < n :: init[j] == entries[j];
    var (best, highest) := Scan(init, score, threshold);
    var sim := score(entries[n].0);
    if sim > threshold && sim > highest {
      if best.Some? {
        var k := ScanChosen(init, score, threshold);
      } else {
        ScanNoneIff(init, score, threshold);
      }
      i := n;
      forall j | 0 <= j < n ensures score(entries[j].0) < sim {
        assert score(init[j].0) < sim;
      }
    } else {
      i := ScanChosen(init, score, threshold);
      forall j | 0 <= j < |entries| ensures score(entries[j].0) <= score(entries[i].0) {
        if j < n {
          assert score(init[j].0) <= score(init[i].0);
        }
      }
      forall j | 0 <= j < i ensures score(entries[j].0) < score(entries[i].0) {
        assert score(init[j].0) < score(init[i].0);
      }
    }
  }

  /** `recall_memory`: the value answered with, or the error the scan
      raises. */
  function Recall(memory: Dict<Json>, score: string -> real, threshold: real): Outcome<Option<Json>> {
    RecallOver(memory, Categories, score, threshold)
  }

  function RecallOver(memory: Dict<Json>, categories: seq<string>, score: string -> real,
                      threshold: real): Outcome<Option<Json>> {
    match Entries(memory, categories)
    case Raises(e) => Raises(e)
    case Returns(entries) => Returns(Scan(entries, score, threshold).0)
  }

  /** Categories that are all absent or empty give nothing to scan. */
  lemma {:induction false} EntriesEmpty(memory: Dict<Json>, categories: seq<string>)
    requires forall k | 0 <= k < |categories| :: Section(memory, categories[k]) == Returns([])
    ensures Entries(memory, categories) == Returns([])
    decreases |categories|
  {
    if categories != [] {
      var init := categories[..|categories| - 1];
      assert forall k | 0 <= k < |init| :: init[k] == categories[k];
      EntriesEmpty(memory, init);
      var none: Dict<Json> := [];
      assert Section(memory, categories[|categories| - 1]) == Returns(none);
      assert none + none == none;
    }
  }

  /** A conversation without a document answers nothing. */
  lemma RecallDefault(stored: Option<Dict<Json>>, score: string -> real, threshold: real)
    requires stored.None?
    ensures Recall(Load(stored), score, threshold) == Returns(None)
  {
    DefaultCategories();
    DefaultSummary();
    EntriesEmpty(Default, Categories);
  }

  /** `recall_memory` on the loaded document. */
  method RecallMemory(stored: Option<Dict<Json>>, score: string -> real, threshold: real)
    returns (r: Outcome<Option<Json>>)
    ensures r == Recall(Load(stored), score, threshold)
  {
    var memory := Load(stored);
    r := ScanCategories(memory, Categories, score, threshold);
  }

  /** The inner loop of `recall_memory` over one category's items, going
      on from the best match over the entries `seen` before them. */
  method ScanItems(ghost seen: Dict<Json>, items: Dict<Json>, score: string -> real, threshold: real,
                   bestMatch0: Option<Json>, highestSim0: real)
    returns (bestMatch: Option<Json>, highestSim: real)
    requires (bestMatch0, highestSim0) == Scan(seen, score, threshold)
    ensures (bestMatch, highestSim) == Scan(seen + items, score, threshold)
  {
    bestMatch, highestSim := bestMatch0, highestSim0;
    assert seen + items[..0] == seen;
    var j := 0;
    while j < |items|
      invariant 0 <= j <= |items|
      invariant (bestMatch, highestSim) == Scan(seen + items[..j], score, threshold)
    {
      assert (seen + items[..j + 1])[..|seen + items[..j]|] == seen + items[..j];
      var (key, value) := items[j];
      var sim := score(key);
      if sim > threshold && sim > highestSim {
        highestSim := sim;
        bestMatch := Some(value);
      }
      j := j + 1;
    }
    assert items[..|items|] == items;
  }

  /** The nested loops of `recall_memory`, over the given categories. */
  method ScanCategories(memory: Dict<Json>, categories: seq<string>, score: string -> real, threshold: real)
    returns (r: Outcome<Option<Json>>)
    ensures r == RecallOver(memory, categories, score, threshold)
  {
    var bestMatch: Option<Json> := None;
    var highestSim := -1.0;
    ghost var seen: Dict<Json> := [];
    var n := 0;
    while n < |categories|
      invariant 0 <= n <= |categories|
      invariant Entries(memory, categories[..n]) == Returns(seen)
      invariant (bestMatch, highestSim) == Scan(seen, score, threshold)
    {
      assert categories[..n + 1][..n] == categories[..n];
      var section := Section(memory, categories[n]);
      if section.Raises? {
        EntriesRaise(memory, categories, n + 1);
        return Raises(section.error);
      }
      var items := section.value;
      bestMatch, highestSim := ScanItems(seen, items, score, threshold, bestMatch, highestSim);
      seen := seen + items;
      n := n + 1;
    }
    assert categories[..|categories|] == categories;
    r := Returns(bestMatch);
  }

  /* ---------------------------------------------------------------------
     The summary
     --------------------------------------------------------------------- */

  /** `f"{k}={v}"` for each item, in order. */
  function Pairs(items: Dict<Json>): (r: seq<string>)
    ensures |r| == |items|
  {
    if items == [] then [] else [items[0].0 + "=" + Str(items[0].1)] + Pairs(items[1..])
  }

  /** The part of a category: its capitalised name, ": " and its pairs. */
  function Part(category: string, items: Dict<Json>): (r: string)
    ensures |category| < |r| && r[|category|] == ':'
  {
    Capitalize(category) + ": " + Join(", ", Pairs(items))
  }

  /** The part a category contributes when its value is truthy; a truthy
      value that is not an object has no `items`. */
  function CategoryPart(memory: Dict<Json>, category: string): Outcome<Option<string>> {
    var v := MemberOrNull(memory, category);
    if !Truthy(v) then Returns(None)
    else if v.JObj? then Returns(Some(Part(category, v.members)))
    else Raises("AttributeError")
  }

  /** The parts of the categories, in order. */
  function Parts(memory: Dict<Json>, categories: seq<string>): (r: Outcome<seq<string>>)
    ensures r.Returns? ==> forall k | 0 <= k < |r.value| :: ':' in r.value[k]
    decreases |categories|
  {
    if categories == [] then Returns([])
    else
      match Parts(memory, categories[..|categories| - 1])
      case Raises(e) => Raises(e)
      case Returns(done) =>
        match CategoryPart(memory, categories[|categories| - 1])
        case Raises(e) => Raises(e)
        case Returns(None) => Returns(done)
        case Returns(Some(p)) =>
          var c := categories[|categories| - 1];
          assert p[|c|] == ':';
          Returns(done + [p])
  }

  /** The last part, present when the summary is truthy. */
  function SummaryPart(memory: Dict<Json>): Option<string> {
    var v := MemberOrNull(memory, SummaryKey);
    if Truthy(v) then Some("Summary: " + Str(v)) else None
  }

  const NoMemory := "No memory stored."

  /** The category parts followed by the summary part, when present. */
  function AllParts(memory: Dict<Json>, done: seq<string>): seq<string> {
    var p := SummaryPart(memory);
    if p.Some? then done + [p.value] else done
  }

  /** `get_memory_summary` on the loaded document. */
  function Summary(memory: Dict<Json>): Outcome<string> {
    match Parts(memory, Categories)
    case Raises(e) => Raises(e)
    case Returns(done) =>
      var all := AllParts(memory, done);
      Returns(if all == [] then NoMemory else Join(" | ", all))
  }

  /** No category is truthy. */
  predicate NoCategory(memory: Dict<Json>, categories: seq<string>) {
    forall k | 0 <= k < |categories| :: !Truthy(MemberOrNull(memory, categories[k]))
  }

  /** One step of `Parts`: a truthy last category adds its part. */
  lemma PartsStep(memory: Dict<Json>, categories: seq<string>)
    requires categories != [] && Parts(memory, categories).Returns?
    ensures var init := categories[..|categories| - 1];
            var v := MemberOrNull(memory, categories[|categories| - 1]);
            Parts(memory, init).Returns?
            && Parts(memory, categories).value
               == Parts(memory, init).value + (if Truthy(v) then [Part(categories[|categories| - 1], v.members)] else [])
  {
  }

  lemma NoCategorySnoc(memory: Dict<Json>, categories: seq<string>)
    requires categories != []
    ensures NoCategory(memory, categories)
            <==> NoCategory(memory, categories[..|categories| - 1]) && !Truthy(MemberOrNull(memory, categories[|categories| - 1]))
  {
    var init := categories[..|categories| - 1];
    assert forall k | 0 <= k < |init| :: init[k] == categories[k];
  }

  lemma {:induction false} PartsEmpty(memory: Dict<Json>, categories: seq<string>)
    requires Parts(memory, categories).Returns?
    ensures Parts(memory, categories).value == [] <==> NoCategory(memory, categories)
    decreases |categories|
  {
    if categories != [] {
      PartsStep(memory, categories);
      PartsEmpty(memory, categories[..|categories| - 1]);
      NoCategorySnoc(memory, categories);
    }
  }

  /** Joined parts, each holding a colon, never read as the empty reply. */
  lemma JoinedParts(memory: Dict<Json>, done: seq<string>)
    requires forall k | 0 <= k < |done| :: ':' in done[k]
    ensures AllParts(memory, done) == [] <==> done == [] && !Truthy(MemberOrNull(memory, SummaryKey))
    ensures AllParts(memory, done) != [] ==> Join(" | ", AllParts(memory, done)) != NoMemory
  {
    var all := AllParts(memory, done);
    if all != [] {
      JoinFirst(" | ", all);
      var j := Join(" | ", all);
      var first := all[0];
      assert ':' in first by {
        if done == [] {
          assert first == "Summary: " + Str(MemberOrNull(memory, SummaryKey));
          assert first[7] == ':';
        }
      }
      var k :| 0 <= k < |first| && first[k] == ':';
      assert j[k] == ':';
      assert ':' !in NoMemory;
    }
  }

  /** "No memory stored." is the answer exactly when every category and the
      summary are empty. */
  lemma SummaryEmptyIff(memory: Dict<Json>)
    requires Summary(memory).Returns?
    ensures Summary(memory).value == NoMemory
            <==> NoCategory(memory, Categories) && !Truthy(MemberOrNull(memory, SummaryKey))
  {
    var done := Parts(memory, Categories).value;
    PartsEmpty(memory, Categories);
    JoinedParts(memory, done);
  }

  /** The summary part, when present, comes last. */
  lemma SummaryLast(memory: Dict<Json>)
    requires Summary(memory).Returns? && Truthy(MemberOrNull(memory, SummaryKey))
    ensures var s := Summary(memory).value; var p := "Summary: " + Str(MemberOrNull(memory, SummaryKey));
            |p| <= |s| && s[|s| - |p|..] == p
  {
    var done := Parts(memory, Categories).value;
    var all := AllParts(memory, done);
    JoinLast(" | ", all);
  }

  /** The first category, when it contributes, gives the first part. */
  lemma {:induction false} PartsFirst(memory: Dict<Json>, categories: seq<string>, p: string)
    requires categories != [] && CategoryPart(memory, categories[0]) == Returns(Some(p))
    requires Parts(memory, categories).Returns?
    ensures Parts(memory, categories).value != [] && Parts(memory, categories).value[0] == p
    decreases |categories|
  {
    var init := categories[..|categories| - 1];
    if |categories| > 1 {
      assert Parts(memory, init).Returns?;
      assert init[0] == categories[0];
      PartsFirst(memory, init, p);
    } else {
      assert Parts(memory, init) == Returns([]);
    }
  }

  /** The part of the first category, identity, comes first whenever
      there is one. */
  lemma SummaryIdentityFirst(memory: Dict<Json>, p: string)
    requires Summary(memory).Returns? && CategoryPart(memory, Categories[0]) == Returns(Some(p))
    ensures var s := Summary(memory).value; |p| <= |s| && s[..|p|] == p
  {
    PartsFirst(memory, Categories, p);
    var all := AllParts(memory, Parts(memory, Categories).value);
    assert all[0] == p;
    JoinFirst(" | ", all);
  }

  /** `get_memory_summary` on the loaded document. */
  method GetMemorySummary(stored: Option<Dict<Json>>) returns (r: Outcome<string>)
    ensures r == Summary(Load(stored))
  {
    var memory := Load(stored);
    var collected := CollectParts(memory, Categories);
    if collected.Raises? {
      return Raises(collected.error);
    }
    var summaryParts := collected.value;
    var summary := MemberOrNull(memory, SummaryKey);
    if Truthy(summary) {
      summaryParts := summaryParts + ["Summary: " + Str(summary)];
    }
    assert summaryParts == AllParts(memory, collected.value);
    r := Returns(if summaryParts == [] then NoMemory else Join(" | ", summaryParts));
  }

  /** The loop of `get_memory_summary` over the given categories. */
  method CollectParts(memory: Dict<Json>, categories: seq<string>) returns (r: Outcome<seq<string>>)
    ensures r == Parts(memory, categories)
  {
    var summaryParts: seq<string> := [];
    var n := 0;
    while n < |categories|
      invariant 0 <= n <= |categories|
      invariant Parts(memory, categories[..n]) == Returns(summaryParts)
    {
      assert categories[..n + 1][..n] == categories[..n];
      var category := categories[n];
      var items := MemberOrNull(memory, category);
      if Truthy(items) {
        if !items.JObj? {
          PartsRaise(memory, categories, n + 1);
          return Raises("AttributeError");
        }
        summaryParts := summaryParts + [Part(category, items.members)];
      }
      n := n + 1;
    }
    assert categories[..|categories|] == categories;
    r := Returns(summaryParts);
  }

  lemma {:induction false} PartsRaise(memory: Dict<Json>, categories: seq<string>, n: nat)
    requires n <= |categories| && Parts(memory, categories[..n]).Raises?
    ensures Parts(memory, categories) == Parts(memory, categories[..n])
    decreases |categories| - n
  {
    if n < |categories| {
      assert categories[..n + 1][..n] == categories[..n];
      PartsRaise(memory, categories, n + 1);
    } else {
      assert categories[..n] == categories;
    }
  }

  lemma {:induction false} PartsNone(memory: Dict<Json>, categories: seq<string>)
    requires NoCategory(memory, categories)
    ensures Parts(memory, categories) == Returns([])
    decreases |categories|
  {
    if categories != [] {
      var init := categories[..|categories| - 1];
      assert forall k | 0 <= k < |init| :: init[k] == categories[k];
      PartsNone(memory, init);
    }
  }

  /** Empty categories and an empty summary give "No memory stored.". */
  lemma SummaryOfNothing(memory: Dict<Json>)
    requires NoCategory(memory, Categories) && !Truthy(MemberOrNull(memory, SummaryKey))
    ensures Summary(memory) == Returns(NoMemory)
  {
    PartsNone(memory, Categories);
  }

  /* ---------------------------------------------------------------------
     Summary update
     --------------------------------------------------------------------- */

  /** `update_conversation_summary`: the saved document. */
  method UpdateConversationSummary(stored: Option<Dict<Json>>, summary: string) returns (saved: Dict<Json>)
    ensures saved == Put(Load(stored), SummaryKey, JStr(summary))
  {
    var memory := Load(stored);
    memory := Put(memory, SummaryKey, JStr(summary));
    saved := memory;
  }

  /** Only the summary changes: it holds the new text, every other member
      keeps its value, and the members keep their order. */
  lemma UpdateOnlySummary(memory: Dict<Json>, summary: string)
    ensures Get(Put(memory, SummaryKey, JStr(summary)), SummaryKey) == Some(JStr(summary))
    ensures forall k :: k != SummaryKey ==> Get(Put(memory, SummaryKey, JStr(summary)), k) == Get(memory, k)
    ensures Keys(Put(memory, SummaryKey, JStr(summary)))
            == if HasKey(memory, SummaryKey) then Keys(memory) else Keys(memory) + [SummaryKey]
  {
    PutGet(memory, SummaryKey, JStr(summary));
  }

  /** A summary written by the update is what the summary ends with. */
  lemma UpdatedSummaryShown(memory: Dict<Json>, summary: string)
    requires summary != ""
    requires Summary(Put(memory, SummaryKey, JStr(summary))).Returns?
    ensures var s := Summary(Put(memory, SummaryKey, JStr(summary))).value;
            var p := "Summary: " + summary;
            |p| <= |s| && s[|s| - |p|..] == p
  {
    var m := Put(memory, SummaryKey, JStr(summary));
    PutGetSame(memory, SummaryKey, JStr(summary));
    assert Str(MemberOrNull(m, SummaryKey)) == summary;
    SummaryLast(m);
  }
}
