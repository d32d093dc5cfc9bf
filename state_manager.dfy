/** The conversation state manager.  For each message it tries, in this
    order, to store new memory, to answer from stored memory, and to chat.

    Every call into a model is an input here: the extraction and recall
    replies are the text the language model returned (or the exception it
    raised), `loads` is `json.loads` (`None` for text it rejects), the chat
    result is what the orchestration graph returned (or raised), `embed` is
    the embedding model, `stored` is the document the memory store loaded
    and `now` is the timestamp `_persist_state` writes. */
module StateManager {
  import opened Base
  import opened Text
  import opened Embeddings

  /** The memory categories of a state, in the order they are scanned. */
  const Categories: seq<string> := ["identity", "preferences", "facts"]

  /* ---------------------------------------------------------------------
     Canonical keys
     --------------------------------------------------------------------- */

  /** `CANONICAL_KEYS` */
  const CanonicalKeys: Dict<string> :=
    [("programming_language", "favorite_language"),
     ("destination_city", "destination"),
     ("study_session", "study_time")]

  /** `CANONICAL_KEYS.get(k, k)` */
  function CanonicalKey(k: string): string {
    match Get(CanonicalKeys, k)
    case Some(c) => c
    case None => k
  }

  /** A listed key is renamed, any other is kept, and a canonical name is
      never renamed again. */
  lemma CanonicalKeyFacts(k: string)
    ensures !HasKey(CanonicalKeys, k) ==> CanonicalKey(k) == k
    ensures HasKey(CanonicalKeys, k) ==> CanonicalKey(k) != k
    ensures !HasKey(CanonicalKeys, CanonicalKey(k))
    ensures CanonicalKey(CanonicalKey(k)) == CanonicalKey(k)
  {
    assert Keys(CanonicalKeys) == ["programming_language", "destination_city", "study_session"];
  }

  /* ---------------------------------------------------------------------
     Reading the model's reply
     --------------------------------------------------------------------- */

  const Fence := "```"

  /** The text `_safe_json_parse` hands to `json.loads`: the stripped reply,
      or, when it holds a code fence, the stripped text between its first
      and second fence.  It never holds a fence itself. */
  function Payload(content: string): (r: string)
    ensures !Contains(r, Fence)
    ensures !Contains(content, Fence) ==> r == Strip(content)
  {
    var c := Strip(content);
    if Contains(c, Fence) then
      StripContains(content, Fence);
      var part := SecondPart(c, Fence);
      StripLacks(part, Fence);
      Strip(part)
    else
      c
  }

  /** `_safe_json_parse(content)`: an empty reply and a payload `json.loads`
      rejects both read as the empty object. */
  function SafeJsonParse(content: string, loads: string -> Option<Json>): Json {
    if content == "" then JObj([])
    else
      match loads(Payload(content))
      case Some(j) => j
      case None => JObj([])
  }

  /* ---------------------------------------------------------------------
     Memory extraction: the filter applied to the parsed reply
     --------------------------------------------------------------------- */

  /** One item of the list `_extract_memory` returns. */
  datatype Update = Update(category: string, key: string, value: string)

  /** The member has a string value that is not blank. */
  predicate Keeps(item: (string, Json)) {
    item.1.JStr? && Strip(item.1.s) != ""
  }

  /** The update a kept member becomes: stripped canonical key, stripped value. */
  function UpdateOf(category: string, item: (string, Json)): Update
    requires item.1.JStr?
  {
    Update(category, CanonicalKey(Strip(item.0)), Strip(item.1.s))
  }

  /** The updates the members of one category object yield, in member order. */
  function ItemUpdates(category: string, items: Dict<Json>): (r: seq<Update>)
    ensures |r| <= |items|
    decreases |items|
  {
    if items == [] then []
    else
      var item := items[|items| - 1];
      ItemUpdates(category, items[..|items| - 1]) +
      (if Keeps(item) then [UpdateOf(category, item)] else [])
  }

  /** The updates of the categories `cats` of a parsed object, in order; a
      category that is absent or not an object yields none. */
  function CategoryUpdates(parsed: Dict<Json>, cats: seq<string>): seq<Update>
    decreases |cats|
  {
    if cats == [] then []
    else
      var c := cats[|cats| - 1];
      CategoryUpdates(parsed, cats[..|cats| - 1]) +
      match Member(parsed, c)
      case Some(JObj(items)) => ItemUpdates(c, items)
      case _ => []
  }

  /** The updates of a parsed reply. A reply that is not an object has no
      `get`; the exception is caught and nothing is extracted. */
  function Extracted(parsed: Json): seq<Update> {
    match parsed
    case JObj(members) => CategoryUpdates(members, Categories)
    case _ => []
  }

  /** `_extract_memory` as a function of the model's reply. */
  function ExtractedFromReply(reply: Outcome<string>, loads: string -> Option<Json>): seq<Update> {
    match reply
    case Raises(_) => []
    case Returns(content) => Extracted(SafeJsonParse(content, loads))
  }

  /** The update comes from a kept member of `items`. */
  predicate FromItem(u: Update, items: Dict<Json>) {
    exists i | 0 <= i < |items| :: Keeps(items[i]) && u == UpdateOf(u.category, items[i])
  }

  /** Every update of a category object comes from one of its members with a
      non-blank string value; its value is stripped and not blank and its key
      is canonical. */
  lemma {:induction false} ItemUpdatesSound(category: string, items: Dict<Json>, u: Update)
    requires u in ItemUpdates(category, items)
    ensures u.category == category && FromItem(u, items)
    ensures u.value != "" && Strip(u.value) == u.value
    ensures CanonicalKey(u.key) == u.key
    decreases |items|
  {
    var init := items[..|items| - 1];
    var item := items[|items| - 1];
    if u in ItemUpdates(category, init) {
      ItemUpdatesSound(category, init, u);
      var i :| 0 <= i < |init| && Keeps(init[i]) && u == UpdateOf(u.category, init[i]);
      assert items[i] == init[i];
    } else {
      assert Keeps(item) && u == UpdateOf(category, item);
      StripWithIdempotent(item.1.s, IsSpace);
      CanonicalKeyFacts(Strip(item.0));
      assert items[|items| - 1] == item;
    }
  }

  /** Every member with a non-blank string value yields its update. */
  lemma {:induction false} ItemUpdatesComplete(category: string, items: Dict<Json>, i: nat)
    requires i < |items| && Keeps(items[i])
    ensures UpdateOf(category, items[i]) in ItemUpdates(category, items)
    decreases |items|
  {
    if i < |items| - 1 {
      var init := items[..|items| - 1];
      assert init[i] == items[i];
      ItemUpdatesComplete(category, init, i);
    }
  }

  /** The category object an update of the first `n` categories came from. */
  predicate FromCategory(u: Update, parsed: Dict<Json>) {
    match Member(parsed, u.category)
    case Some(JObj(items)) => FromItem(u, items)
    case _ => false
  }

  lemma {:induction false} CategoryUpdatesSound(parsed: Dict<Json>, cats: seq<string>, u: Update)
    requires u in CategoryUpdates(parsed, cats)
    ensures u.category in cats && FromCategory(u, parsed)
    ensures u.value != "" && Strip(u.value) == u.value && CanonicalKey(u.key) == u.key
    decreases |cats|
  {
    var init := cats[..|cats| - 1];
    var c := cats[|cats| - 1];
    if u in CategoryUpdates(parsed, init) {
      CategoryUpdatesSound(parsed, init, u);
      assert u.category in init ==> u.category in cats;
    } else {
      match Member(parsed, c)
      case Some(JObj(items)) =>
        ItemUpdatesSound(c, items, u);
    }
  }

  /** Updates come only from the three categories, each from a member of its
      category object whose value is a non-blank string; the key is the
      member's stripped name mapped through `CANONICAL_KEYS` and the value is
      stripped. */
  lemma ExtractedSound(parsed: Json, u: Update)
    requires u in Extracted(parsed)
    ensures parsed.JObj? && u.category in Categories && FromCategory(u, parsed.members)
    ensures u.value != "" && Strip(u.value) == u.value && CanonicalKey(u.key) == u.key
  {
    CategoryUpdatesSound(parsed.members, Categories, u);
  }

  lemma {:induction false} CategoryUpdatesComplete(parsed: Dict<Json>, cats: seq<string>, c: string,
                                                   items: Dict<Json>, i: nat)
    requires c in cats && Member(parsed, c) == Some(JObj(items))
    requires i < |items| && Keeps(items[i])
    ensures UpdateOf(c, items[i]) in CategoryUpdates(parsed, cats)
    decreases |cats|
  {
    var init := cats[..|cats| - 1];
    if c in init {
      CategoryUpdatesComplete(parsed, init, c, items, i);
    } else {
      assert c == cats[|cats| - 1];
      ItemUpdatesComplete(c, items, i);
    }
  }

  /** Conversely, every member of a category object with a non-blank string
      value is extracted. */
  lemma ExtractedComplete(members: Dict<Json>, c: string, items: Dict<Json>, i: nat)
    requires c in Categories && Member(members, c) == Some(JObj(items))
    requires i < |items| && Keeps(items[i])
    ensures UpdateOf(c, items[i]) in Extracted(JObj(members))
  {
    CategoryUpdatesComplete(members, Categories, c, items, i);
  }

  /* ---------------------------------------------------------------------
     The conversation state
     --------------------------------------------------------------------- */

  /** A stored conversation document: the memory categories present (each a
      JSON object), the embedding index when present, and every other member
      (`conversation_id`, `active_task`, `last_updated`, ...). */
  datatype Document = Document(sections: Dict<Dict<Json>>, embeddingIndex: Option<Dict<Vector>>,
                               rest: Dict<Json>)

  /** The categories after `state.setdefault(c, {})` for each `c` of `cats`. */
  function SetDefaultAll(sections: Dict<Dict<Json>>, cats: seq<string>): Dict<Dict<Json>>
    decreases |cats|
  {
    if cats == [] then sections
    else
      var s := SetDefaultAll(sections, cats[..|cats| - 1]);
      var c := cats[|cats| - 1];
      if HasKey(s, c) then s else Put(s, c, [])
  }

  /** The `setdefault` loop of `_load_state` over `cats`. */
  method SetDefaultLoop(sections0: Dict<Dict<Json>>, cats: seq<string>) returns (sections: Dict<Dict<Json>>)
    ensures sections == SetDefaultAll(sections0, cats)
  {
    sections := sections0;
    var i := 0;
    while i < |cats|
      invariant 0 <= i <= |cats|
      invariant sections == SetDefaultAll(sections0, cats[..i])
    {
      var c := cats[i];
      assert cats[..i + 1][..i] == cats[..i];
      if !HasKey(sections, c) {
        sections := Put(sections, c, []);
      }
      i := i + 1;
    }
    assert cats[..|cats|] == cats;
  }

  /** The document `_load_state` returns. */
  function WithDefaults(doc: Document): Document {
    doc.(sections := SetDefaultAll(doc.sections, Categories),
         embeddingIndex := Some(if doc.embeddingIndex.Some? then doc.embeddingIndex.value else []))
  }

  /** `setdefault` keeps every category already present. */
  lemma {:induction false} SetDefaultsKeeps(sections: Dict<Dict<Json>>, cats: seq<string>, k: string)
    requires HasKey(sections, k)
    ensures Get(SetDefaultAll(sections, cats), k) == Get(sections, k)
    decreases |cats|
  {
    if cats != [] {
      var s := SetDefaultAll(sections, cats[..|cats| - 1]);
      SetDefaultsKeeps(sections, cats[..|cats| - 1], k);
      if !HasKey(s, cats[|cats| - 1]) {
        PutGet(s, cats[|cats| - 1], []);
      }
    }
  }

  /** `setdefault` adds only the categories it is given. */
  lemma {:induction false} SetDefaultsAdds(sections: Dict<Dict<Json>>, cats: seq<string>, k: string)
    requires HasKey(SetDefaultAll(sections, cats), k)
    ensures HasKey(sections, k) || k in cats
    decreases |cats|
  {
    if cats != [] {
      var init := cats[..|cats| - 1];
      if HasKey(SetDefaultAll(sections, init), k) {
        SetDefaultsAdds(sections, init, k);
        assert k in init ==> k in cats;
      } else {
        assert k == cats[|cats| - 1];
      }
    }
  }

  /** A category given to `setdefault` that was missing holds `{}`; every
      category given is present. */
  lemma {:induction false} SetDefaultsFills(sections: Dict<Dict<Json>>, cats: seq<string>, c: string)
    requires c in cats
    ensures HasKey(SetDefaultAll(sections, cats), c)
    ensures !HasKey(sections, c) ==> Get(SetDefaultAll(sections, cats), c) == Some([])
    decreases |cats|
  {
    var init := cats[..|cats| - 1];
    var s := SetDefaultAll(sections, init);
    var last := cats[|cats| - 1];
    if !HasKey(s, last) {
      PutGet(s, last, []);
    }
    if c in init {
      SetDefaultsFills(sections, init, c);
    } else {
      assert c == last;
      if HasKey(s, c) {
        SetDefaultsAdds(sections, init, c);
      }
    }
  }

  /** After `_load_state` the three categories and the embedding index are
      present. */
  lemma LoadedComplete(doc: Document)
    ensures forall c | c in Categories :: HasKey(WithDefaults(doc).sections, c)
    ensures WithDefaults(doc).embeddingIndex.Some?
  {
    forall c | c in Categories ensures HasKey(WithDefaults(doc).sections, c) {
      SetDefaultsFills(doc.sections, Categories, c);
    }
  }

  /** `_load_state` keeps every stored value: a present category keeps its
      members, a present index its vectors, and the other members stay. */
  lemma LoadedKeeps(doc: Document, k: string)
    requires HasKey(doc.sections, k)
    ensures Get(WithDefaults(doc).sections, k) == Get(doc.sections, k)
    ensures doc.embeddingIndex.Some? ==> WithDefaults(doc).embeddingIndex == doc.embeddingIndex
    ensures WithDefaults(doc).rest == doc.rest
  {
    SetDefaultsKeeps(doc.sections, Categories, k);
  }

  /** A missing category starts as the empty object, and nothing but the
      three categories is added. */
  lemma LoadedDefault(doc: Document, k: string)
    requires !HasKey(doc.sections, k)
    ensures k in Categories ==> Get(WithDefaults(doc).sections, k) == Some([])
    ensures k !in Categories ==> !HasKey(WithDefaults(doc).sections, k)
  {
    if k in Categories {
      SetDefaultsFills(doc.sections, Categories, k);
    } else if HasKey(WithDefaults(doc).sections, k) {
      SetDefaultsAdds(doc.sections, Categories, k);
    }
  }

  /** The members of a category (`state.get(category, {})`). */
  function SectionOf(sections: Dict<Dict<Json>>, category: string): Dict<Json> {
    match Get(sections, category)
    case Some(s) => s
    case None => []
  }

  /** Every update's category is in the state (`state[cat]` does not raise). */
  predicate Covers(sections: Dict<Dict<Json>>, updates: seq<Update>) {
    forall j | 0 <= j < |updates| :: HasKey(sections, updates[j].category)
  }

  /** Categories, index and embedding cache after `_apply_memory_updates`:
      each update stores its value and then indexes its key. */
  function Applied(sections: Dict<Dict<Json>>, index: Dict<Vector>, cache: Dict<Vector>,
                   updates: seq<Update>, embed: string -> Vector): (Dict<Dict<Json>>, Dict<Vector>, Dict<Vector>)
    decreases |updates|
  {
    if updates == [] then (sections, index, cache)
    else
      var (s, ix, c) := Applied(sections, index, cache, updates[..|updates| - 1], embed);
      var u := updates[|updates| - 1];
      var (c', ix') := IndexAfter(c, ix, [u.key], embed);
      (Put(s, u.category, Put(SectionOf(s, u.category), u.key, JStr(u.value))), ix', c')
  }

  /** No later update writes the same key of the same category. */
  predicate LastWrite(updates: seq<Update>, j: nat)
    requires j < |updates|
  {
    forall k | j < k < |updates| :: !(updates[k].category == updates[j].category && updates[k].key == updates[j].key)
  }

  /** `state[u.category][u.key] = u.value` */
  function Store(s: Dict<Dict<Json>>, u: Update): Dict<Dict<Json>> {
    Put(s, u.category, Put(SectionOf(s, u.category), u.key, JStr(u.value)))
  }

  /** The value just stored is read back. */
  lemma StoreReads(s: Dict<Dict<Json>>, u: Update)
    ensures Get(SectionOf(Store(s, u), u.category), u.key) == Some(JStr(u.value))
  {
    PutGetSame(s, u.category, Put(SectionOf(s, u.category), u.key, JStr(u.value)));
    PutGetSame(SectionOf(s, u.category), u.key, JStr(u.value));
  }

  /** Every other key of every category is left as it was. */
  lemma StoreKeeps(s: Dict<Dict<Json>>, u: Update, cat: string, key: string)
    requires !(u.category == cat && u.key == key)
    ensures Get(SectionOf(Store(s, u), cat), key) == Get(SectionOf(s, cat), key)
  {
    var sec := Put(SectionOf(s, u.category), u.key, JStr(u.value));
    if u.category == cat {
      PutGetSame(s, cat, sec);
      PutGetOther(SectionOf(s, cat), u.key, JStr(u.value), key);
    } else {
      PutGetOther(s, u.category, sec, cat);
    }
  }

  /** The categories alone after the updates, applied in order. */
  function Stored(sections: Dict<Dict<Json>>, updates: seq<Update>): Dict<Dict<Json>>
    decreases |updates|
  {
    if updates == [] then sections
    else Store(Stored(sections, updates[..|updates| - 1]), updates[|updates| - 1])
  }

  /** Indexing does not affect the categories. */
  lemma {:induction false} AppliedStored(sections: Dict<Dict<Json>>, index: Dict<Vector>, cache: Dict<Vector>,
                                         updates: seq<Update>, embed: string -> Vector)
    ensures Applied(sections, index, cache, updates, embed).0 == Stored(sections, updates)
    decreases |updates|
  {
    if updates != [] {
      AppliedStored(sections, index, cache, updates[..|updates| - 1], embed);
    }
  }

  lemma {:induction false} StoredLastWins(sections: Dict<Dict<Json>>, updates: seq<Update>, j: nat)
    requires j < |updates| && LastWrite(updates, j)
    ensures Get(SectionOf(Stored(sections, updates), updates[j].category), updates[j].key) == Some(JStr(updates[j].value))
    decreases |updates|
  {
    var init := updates[..|updates| - 1];
    var u := updates[|updates| - 1];
    var w := updates[j];
    if j == |updates| - 1 {
      StoreReads(Stored(sections, init), u);
    } else {
      assert init[j] == w;
      assert LastWrite(init, j) by {
        forall k | j < k < |init|
          ensures !(init[k].category == w.category && init[k].key == w.key)
        {
          assert init[k] == updates[k];
        }
      }
      StoredLastWins(sections, init, j);
      StoreKeeps(Stored(sections, init), u, w.category, w.key);
    }
  }

  lemma {:induction false} StoredUntouched(sections: Dict<Dict<Json>>, updates: seq<Update>, cat: string, key: string)
    requires forall j | 0 <= j < |updates| :: !(updates[j].category == cat && updates[j].key == key)
    ensures Get(SectionOf(Stored(sections, updates), cat), key) == Get(SectionOf(sections, cat), key)
    decreases |updates|
  {
    if updates != [] {
      var init := updates[..|updates| - 1];
      StoreKeeps(Stored(sections, init), updates[|updates| - 1], cat, key);
      assert forall j | 0 <= j < |init| :: init[j] == updates[j];
      StoredUntouched(sections, init, cat, key);
    }
  }

  /** Each updated key holds its last value in its category. */
  lemma AppliedLastWins(sections: Dict<Dict<Json>>, index: Dict<Vector>, cache: Dict<Vector>,
                        updates: seq<Update>, embed: string -> Vector, j: nat)
    requires j < |updates| && LastWrite(updates, j)
    ensures Get(SectionOf(Applied(sections, index, cache, updates, embed).0, updates[j].category), updates[j].key)
            == Some(JStr(updates[j].value))
  {
    AppliedStored(sections, index, cache, updates, embed);
    StoredLastWins(sections, updates, j);
  }

  /** A key no update writes keeps its value in every category. */
  lemma AppliedUntouched(sections: Dict<Dict<Json>>, index: Dict<Vector>, cache: Dict<Vector>,
                         updates: seq<Update>, embed: string -> Vector, cat: string, key: string)
    requires forall j | 0 <= j < |updates| :: !(updates[j].category == cat && updates[j].key == key)
    ensures Get(SectionOf(Applied(sections, index, cache, updates, embed).0, cat), key)
            == Get(SectionOf(sections, cat), key)
  {
    AppliedStored(sections, index, cache, updates, embed);
    StoredUntouched(sections, updates, cat, key);
  }

  /** Every updated key is in the embedding index afterwards. */
  lemma {:induction false} AppliedIndexed(sections: Dict<Dict<Json>>, index: Dict<Vector>, cache: Dict<Vector>,
                                          updates: seq<Update>, embed: string -> Vector, j: nat)
    requires j < |updates|
    ensures HasKey(Applied(sections, index, cache, updates, embed).1, updates[j].key)
    decreases |updates|
  {
    var init := updates[..|updates| - 1];
    var (s, ix, c) := Applied(sections, index, cache, init, embed);
    var u := updates[|updates| - 1];
    if j < |updates| - 1 {
      assert init[j] == updates[j];
      AppliedIndexed(sections, index, cache, init, embed, j);
      IndexAfterKeeps(c, ix, [u.key], embed, updates[j].key);
    } else {
      IndexAfterHasKeys(c, ix, [u.key], embed, u.key);
    }
  }

  /** Vectors already in the index are kept. */
  lemma {:induction false} AppliedKeepsVectors(sections: Dict<Dict<Json>>, index: Dict<Vector>, cache: Dict<Vector>,
                                               updates: seq<Update>, embed: string -> Vector, key: string)
    requires HasKey(index, key)
    ensures Get(Applied(sections, index, cache, updates, embed).1, key) == Get(index, key)
    decreases |updates|
  {
    if updates != [] {
      var init := updates[..|updates| - 1];
      var (s, ix, c) := Applied(sections, index, cache, init, embed);
      var u := updates[|updates| - 1];
      AppliedKeepsVectors(sections, index, cache, init, embed, key);
      IndexAfterKeeps(c, ix, [u.key], embed, key);
    }
  }

  /** With every category present, updating adds no category. */
  lemma {:induction false} AppliedKeepsCategories(sections: Dict<Dict<Json>>, index: Dict<Vector>, cache: Dict<Vector>,
                                                  updates: seq<Update>, embed: string -> Vector)
    requires Covers(sections, updates)
    ensures Keys(Applied(sections, index, cache, updates, embed).0) == Keys(sections)
    decreases |updates|
  {
    if updates != [] {
      var init := updates[..|updates| - 1];
      assert forall j | 0 <= j < |init| :: init[j] == updates[j];
      AppliedKeepsCategories(sections, index, cache, init, embed);
      assert HasKey(sections, updates[|updates| - 1].category);
    }
  }

  /** `state`, the dictionary `_load_state` builds and the other steps
      change in place. */
  class ConversationState {
    var sections: Dict<Dict<Json>>
    var embeddingIndex: Option<Dict<Vector>>
    var rest: Dict<Json>

    function Snapshot(): Document
      reads this
    {
      Document(sections, embeddingIndex, rest)
    }

    /** The document as the memory store loaded it. */
    constructor (doc: Document)
      ensures Snapshot() == doc
    {
      sections := doc.sections;
      embeddingIndex := doc.embeddingIndex;
      rest := doc.rest;
    }

    /** The `setdefault` calls of `_load_state`. */
    method SetDefaults()
      modifies this
      ensures Snapshot() == WithDefaults(old(Snapshot()))
    {
      sections := SetDefaultLoop(sections, Categories);
      if embeddingIndex.None? {
        embeddingIndex := Some([]);
      }
    }
  }

  /* ---------------------------------------------------------------------
     Semantic recall: the gate applied to the parsed reply
     --------------------------------------------------------------------- */

  /** `d.update(e)` */
  function UpdateWith(d: Dict<Json>, e: Dict<Json>): Dict<Json>
    decreases |e|
  {
    if e == [] then d else UpdateWith(Put(d, e[0].0, e[0].1), e[1..])
  }

  /** The stored memory: the three categories merged in order. */
  function Merged(sections: Dict<Dict<Json>>, n: nat): Dict<Json>
    requires n <= |Categories|
  {
    if n == 0 then [] else UpdateWith(Merged(sections, n - 1), SectionOf(sections, Categories[n - 1]))
  }

  /** After `d.update(e)` a key of `e` holds its value there, any other key
      its value in `d`. */
  lemma {:induction false} UpdateWithGet(d: Dict<Json>, e: Dict<Json>, k: string)
    requires UniqueKeys(e)
    ensures Get(UpdateWith(d, e), k) == if HasKey(e, k) then Get(e, k) else Get(d, k)
    decreases |e|
  {
    if e != [] {
      var (k0, v0) := e[0];
      assert Keys(e) == [k0] + Keys(e[1..]);
      assert UniqueKeys(e[1..]) by {
        assert forall i | 0 <= i < |Keys(e[1..])| :: Keys(e[1..])[i] == Keys(e)[i + 1];
      }
      UpdateWithGet(Put(d, k0, v0), e[1..], k);
      PutGet(d, k0, v0);
      if k == k0 {
        forall i | 0 <= i < |Keys(e[1..])| ensures Keys(e[1..])[i] != k0 {
          assert Keys(e[1..])[i] == Keys(e)[i + 1];
        }
      }
    }
  }

  lemma {:induction false} UpdateWithNonEmpty(d: Dict<Json>, e: Dict<Json>)
    ensures UpdateWith(d, e) == [] <==> d == [] && e == []
    decreases |e|
  {
    if e != [] {
      var p := Put(d, e[0].0, e[0].1);
      assert |Keys(p)| >= 1;
      UpdateWithNonEmpty(p, e[1..]);
    }
  }

  /** A key of several categories answers with its value from the last of
      them: facts over preferences over identity. */
  lemma MergedValue(sections: Dict<Dict<Json>>, k: string)
    requires forall c | c in Categories :: UniqueKeys(SectionOf(sections, c))
    ensures Get(Merged(sections, |Categories|), k) ==
            if HasKey(SectionOf(sections, "facts"), k) then Get(SectionOf(sections, "facts"), k)
            else if HasKey(SectionOf(sections, "preferences"), k) then Get(SectionOf(sections, "preferences"), k)
            else Get(SectionOf(sections, "identity"), k)
  {
    assert Categories[0] == "identity" && Categories[1] == "preferences" && Categories[2] == "facts";
    UpdateWithGet(Merged(sections, 0), SectionOf(sections, "identity"), k);
    UpdateWithGet(Merged(sections, 1), SectionOf(sections, "preferences"), k);
    UpdateWithGet(Merged(sections, 2), SectionOf(sections, "facts"), k);
  }

  /** The stored memory is empty exactly when all three categories are. */
  lemma MergedEmpty(sections: Dict<Dict<Json>>)
    ensures Merged(sections, |Categories|) == [] <==>
            SectionOf(sections, "identity") == [] && SectionOf(sections, "preferences") == []
            && SectionOf(sections, "facts") == []
  {
    assert Categories[0] == "identity" && Categories[1] == "preferences" && Categories[2] == "facts";
    UpdateWithNonEmpty(Merged(sections, 0), SectionOf(sections, "identity"));
    UpdateWithNonEmpty(Merged(sections, 1), SectionOf(sections, "preferences"));
    UpdateWithNonEmpty(Merged(sections, 2), SectionOf(sections, "facts"));
  }

  /** `parsed.get("confidence", 0) < 0.6`.  A Boolean compares as 0 or 1;
      a string, list, object or `None` raises `TypeError`. */
  function ConfidenceBelow(parsed: Dict<Json>): Outcome<bool> {
    match Member(parsed, "confidence")
    case None => Returns(true)
    case Some(JInt(i)) => Returns((i as real) < 0.6)
    case Some(JFloat(f)) => Returns(f < 0.6)
    case Some(JBool(b)) => Returns((if b then 1.0 else 0.0) < 0.6)
    case Some(_) => Raises("TypeError")
  }

  /** The answer of a parsed recall reply.  `.strip()` on a non-string
      answer raises `AttributeError`; every exception reads as no answer. */
  function Gate(parsed: Json): (r: Option<string>)
    ensures r.Some? ==> r.value != "" && Strip(r.value) == r.value
  {
    match parsed
    case JObj(p) =>
      if !Truthy(MemberOrNull(p, "relevant")) then None
      else if ConfidenceBelow(p) != Returns(false) then None
      else
        (match Member(p, "answer")
         case None => None
         case Some(JStr(a)) =>
           if Strip(a) == "" then None
           else
             StripWithIdempotent(a, IsSpace);
             Some(Strip(a))
         case Some(_) => None)
    case _ => None
  }

  /** `_semantic_recall(state, text)`: no model call on empty memory. */
  function SemanticRecall(sections: Dict<Dict<Json>>, reply: Outcome<string>,
                          loads: string -> Option<Json>): (r: Option<string>)
    ensures r.Some? ==> Merged(sections, |Categories|) != [] && r.value != "" && Strip(r.value) == r.value
  {
    if Merged(sections, |Categories|) == [] then None
    else
      match reply
      case Raises(_) => None
      case Returns(content) =>
        Gate(SafeJsonParse(content, loads))
  }

  /** The parsed reply is an object whose `relevant` is truthy, whose
      confidence is a number of at least 0.6, and whose `answer` is a string
      that strips to `a`, which is not blank. */
  predicate Accepted(parsed: Json, a: string) {
    && parsed.JObj?
    && Truthy(MemberOrNull(parsed.members, "relevant"))
    && ConfidenceBelow(parsed.members) == Returns(false)
    && Member(parsed.members, "answer").Some?
    && Member(parsed.members, "answer").value.JStr?
    && a == Strip(Member(parsed.members, "answer").value.s)
    && a != ""
  }

  /** The gate answers `a` exactly when the reply is accepted with `a`. */
  lemma GateIff(parsed: Json, a: string)
    ensures Gate(parsed) == Some(a) <==> Accepted(parsed, a)
  {
    if parsed.JObj? && Truthy(MemberOrNull(parsed.members, "relevant"))
       && ConfidenceBelow(parsed.members) == Returns(false) {
      match Member(parsed.members, "answer")
      case None =>
      case Some(v) =>
    }
  }

  /** Recall answers exactly when memory is not empty and the model replied
      with an accepted object; it returns None when memory is empty, when
      `relevant` is falsy, when the confidence is below 0.6 or not a number,
      and when the stripped answer is empty. */
  lemma RecallIff(sections: Dict<Dict<Json>>, reply: Outcome<string>, loads: string -> Option<Json>, a: string)
    ensures SemanticRecall(sections, reply, loads) == Some(a) <==>
            Merged(sections, |Categories|) != [] && reply.Returns?
            && Accepted(SafeJsonParse(reply.value, loads), a)
  {
    if reply.Returns? {
      GateIff(SafeJsonParse(reply.value, loads), a);
    }
  }

  /* ---------------------------------------------------------------------
     General chat and the output sanitiser
     --------------------------------------------------------------------- */

  /** The members of `decision_output` tried in order. */
  const AnswerKeys: seq<string> := ["answer", "final_recommendation", "executive_summary"]

  const NoValidResponse := "No valid response generated."
  const NoStructuredOutput := "No structured output."
  const NoAnswer := "No answer generated."

  /** A string whose stripped length exceeds 5. */
  predicate Usable(v: Option<Json>) {
    v.Some? && v.value.JStr? && |Strip(v.value.s)| > 5
  }

  /** The stripped value of the first usable member from index `i` on. */
  function FirstUsable(d: Dict<Json>, i: nat): (r: Option<string>)
    requires i <= |AnswerKeys|
    ensures r.Some? ==> |r.value| > 5 && Strip(r.value) == r.value
    decreases |AnswerKeys| - i
  {
    if i == |AnswerKeys| then None
    else if Usable(Member(d, AnswerKeys[i])) then
      StripWithIdempotent(Member(d, AnswerKeys[i]).value.s, IsSpace);
      Some(Strip(Member(d, AnswerKeys[i]).value.s))
    else FirstUsable(d, i + 1)
  }

  /** `_sanitize_graph_output(graph_result)`: a stripped answer longer than
      five characters, or one of the three fixed texts. */
  function Sanitized(g: Json): (r: string)
    ensures r in [NoValidResponse, NoStructuredOutput, NoAnswer] || (|r| > 5 && Strip(r) == r)
  {
    match g
    case JObj(m) =>
      var out := match Member(m, "decision_output") case Some(v) => v case None => JObj([]);
      if !out.JObj? then NoStructuredOutput
      else
        (match FirstUsable(out.members, 0)
         case Some(a) => a
         case None => NoAnswer)
    case _ => NoValidResponse
  }

  lemma {:induction false} FirstUsableIs(d: Dict<Json>, from: nat, i: nat)
    requires from <= i < |AnswerKeys| && Usable(Member(d, AnswerKeys[i]))
    requires forall j | from <= j < i :: !Usable(Member(d, AnswerKeys[j]))
    ensures FirstUsable(d, from) == Some(Strip(Member(d, AnswerKeys[i]).value.s))
    decreases i - from
  {
    if from < i {
      FirstUsableIs(d, from + 1, i);
    }
  }

  lemma {:induction false} FirstUsableNone(d: Dict<Json>, from: nat)
    requires from <= |AnswerKeys|
    requires forall j | from <= j < |AnswerKeys| :: !Usable(Member(d, AnswerKeys[j]))
    ensures FirstUsable(d, from) == None
    decreases |AnswerKeys| - from
  {
    if from < |AnswerKeys| {
      FirstUsableNone(d, from + 1);
    }
  }

  /** The sanitiser returns the first of `answer`, `final_recommendation`
      and `executive_summary` whose stripped length exceeds 5, stripped. */
  lemma SanitizedFirst(m: Dict<Json>, d: Dict<Json>, i: nat)
    requires Member(m, "decision_output") == Some(JObj(d))
    requires i < |AnswerKeys| && Usable(Member(d, AnswerKeys[i]))
    requires forall j | 0 <= j < i :: !Usable(Member(d, AnswerKeys[j]))
    ensures Sanitized(JObj(m)) == Strip(Member(d, AnswerKeys[i]).value.s)
  {
    FirstUsableIs(d, 0, i);
  }

  /** With none of them usable it returns "No answer generated.". */
  lemma SanitizedNone(m: Dict<Json>, d: Dict<Json>)
    requires Member(m, "decision_output") == Some(JObj(d))
    requires forall j | 0 <= j < |AnswerKeys| :: !Usable(Member(d, AnswerKeys[j]))
    ensures Sanitized(JObj(m)) == NoAnswer
  {
    FirstUsableNone(d, 0);
  }

  /** `_general_chat_with_context` given the graph's result. */
  function GeneralChat(result: Outcome<Json>): (r: string)
    ensures r != ""
  {
    match result
    case Raises(_) => "Something went wrong."
    case Returns(g) => Sanitized(g)
  }

  /* ---------------------------------------------------------------------
     The response
     --------------------------------------------------------------------- */

  /** `{"decision_question": ..., "action": ...}` */
  datatype Intent = Intent(decisionQuestion: string, action: string)

  /** The dictionary `_build_response` returns: `question`, `intent`,
      `decision_output` (its only member `answer`), `sources` and `mode`. */
  datatype Response = Response(question: string, intent: Intent, answer: string,
                               sources: seq<Json>, mode: string)

  /** `_build_response(question, action, answer)`: the question is echoed
      twice, the action and answer are carried, there are no sources and
      the mode is "chat". */
  function BuildResponse(question: string, action: string, answer: string): (r: Response)
    ensures r.question == question && r.intent.decisionQuestion == question
    ensures r.intent.action == action && r.answer == answer
    ensures r.sources == [] && r.mode == "chat"
  {
    Response(question, Intent(question, action), answer, [], "chat")
  }

  const StoredReply := "Your information has been securely stored."

  /* ---------------------------------------------------------------------
     One message
     --------------------------------------------------------------------- */

  /** What `handle_message` returns, what it saves (if anything) and the
      embedding cache it leaves. */
  datatype Handled = Handled(response: Response, persisted: Option<Document>, cache: Dict<Vector>)

  function Handle(cache: Dict<Vector>, text: string, stored: Document, extraction: Outcome<string>,
                  recallReply: Outcome<string>, chat: Outcome<Json>, loads: string -> Option<Json>,
                  embed: string -> Vector, now: string): Handled
  {
    var doc := WithDefaults(stored);
    var updates := ExtractedFromReply(extraction, loads);
    if updates != [] then
      var (s, ix, c) := Applied(doc.sections, doc.embeddingIndex.value, cache, updates, embed);
      Handled(BuildResponse(text, "memory_update", StoredReply),
              Some(Document(s, Some(ix), Put(doc.rest, "last_updated", JStr(now)))), c)
    else
      match SemanticRecall(doc.sections, recallReply, loads)
      case Some(a) => Handled(BuildResponse(text, "memory_recall", a), None, cache)
      case None => Handled(BuildResponse(text, "general_chat", GeneralChat(chat)), None, cache)
  }

  /** Exactly one action per message: "memory_update" whenever extraction
      yields an update, otherwise "memory_recall" when recall answers,
      otherwise "general_chat".  Only the update branch saves, and what it
      saves carries the new `last_updated`. */
  lemma HandleBranches(cache: Dict<Vector>, text: string, stored: Document, extraction: Outcome<string>,
                       recallReply: Outcome<string>, chat: Outcome<Json>, loads: string -> Option<Json>,
                       embed: string -> Vector, now: string)
    ensures var h := Handle(cache, text, stored, extraction, recallReply, chat, loads, embed, now);
            var updates := ExtractedFromReply(extraction, loads);
            var recall := SemanticRecall(WithDefaults(stored).sections, recallReply, loads);
            && h.response.intent.action ==
               (if updates != [] then "memory_update"
                else if recall.Some? then "memory_recall" else "general_chat")
            && h.response.question == text
            && (h.persisted.Some? <==> updates != [])
            && (h.persisted.Some? ==> Get(h.persisted.value.rest, "last_updated") == Some(JStr(now)))
            && (h.persisted.None? ==> h.cache == cache)
  {
    var doc := WithDefaults(stored);
    var updates := ExtractedFromReply(extraction, loads);
    if updates != [] {
      PutGet(doc.rest, "last_updated", JStr(now));
    }
  }

  /** The saved document holds every update's last value in its category,
      indexes every updated key, and keeps every other stored entry. */
  lemma PersistedUpdates(cache: Dict<Vector>, text: string, stored: Document, extraction: Outcome<string>,
                         recallReply: Outcome<string>, chat: Outcome<Json>, loads: string -> Option<Json>,
                         embed: string -> Vector, now: string, j: nat)
    requires var updates := ExtractedFromReply(extraction, loads);
             j < |updates| && LastWrite(updates, j)
    ensures var h := Handle(cache, text, stored, extraction, recallReply, chat, loads, embed, now);
            var u := ExtractedFromReply(extraction, loads)[j];
            && h.persisted.Some?
            && Get(SectionOf(h.persisted.value.sections, u.category), u.key) == Some(JStr(u.value))
            && HasKey(h.persisted.value.embeddingIndex.value, u.key)
  {
    var doc := WithDefaults(stored);
    var updates := ExtractedFromReply(extraction, loads);
    AppliedLastWins(doc.sections, doc.embeddingIndex.value, cache, updates, embed, j);
    AppliedIndexed(doc.sections, doc.embeddingIndex.value, cache, updates, embed, j);
  }

  /** `ConversationStateManager`, with the embedding manager it owns.  The task
      manager it also builds is never used by `handle_message`. */
  class ConversationStateManager {
    const embeddings: EmbeddingIndexManager

    constructor (embeddings: EmbeddingIndexManager)
      ensures this.embeddings == embeddings
    {
      this.embeddings := embeddings;
    }

    /** `_load_state`: the stored document with the missing categories and
        index added. */
    method LoadState(stored: Document) returns (state: ConversationState)
      ensures fresh(state)
      ensures state.Snapshot() == WithDefaults(stored)
    {
      state := new ConversationState(stored);
      state.SetDefaults();
    }

    /** The filtering half of `_extract_memory`, on the model's reply. */
    method ExtractMemory(reply: Outcome<string>, loads: string -> Option<Json>) returns (updates: seq<Update>)
      ensures updates == ExtractedFromReply(reply, loads)
    {
      if reply.Raises? {
        return [];
      }
      var parsed := SafeJsonParse(reply.value, loads);
      if !parsed.JObj? {
        return [];
      }
      updates := [];
      var n := 0;
      while n < |Categories|
        invariant 0 <= n <= |Categories|
        invariant updates == CategoryUpdates(parsed.members, Categories[..n])
      {
        var category := Categories[n];
        assert Categories[..n + 1][..n] == Categories[..n];
        var data := Member(parsed.members, category);
        if data.Some? && data.value.JObj? {
          var found := ItemsOf(category, data.value.members);
          updates := updates + found;
        }
        n := n + 1;
      }
      assert Categories[..|Categories|] == Categories;
    }

    /** The inner loop of `_extract_memory` over one category object. */
    method ItemsOf(category: string, items: Dict<Json>) returns (found: seq<Update>)
      ensures found == ItemUpdates(category, items)
    {
      found := [];
      var i := 0;
      while i < |items|
        invariant 0 <= i <= |items|
        invariant found == ItemUpdates(category, items[..i])
      {
        assert items[..i + 1][..i] == items[..i];
        var (key, value) := items[i];
        if value.JStr? && Strip(value.s) != "" {
          found := found + [Update(category, CanonicalKey(Strip(key)), Strip(value.s))];
        }
        i := i + 1;
      }
      assert items[..|items|] == items;
    }

    /** `_apply_memory_updates(state, updates)`: each update is written into
        its category and its key indexed. */
    method ApplyMemoryUpdates(state: ConversationState, updates: seq<Update>, embed: string -> Vector)
      requires Covers(state.sections, updates) && state.embeddingIndex.Some?
      modifies state, embeddings
      ensures state.embeddingIndex.Some? && state.rest == old(state.rest)
      ensures (state.sections, state.embeddingIndex.value, embeddings.cache)
              == Applied(old(state.sections), old(state.embeddingIndex.value), old(embeddings.cache), updates, embed)
    {
      var i := 0;
      while i < |updates|
        invariant 0 <= i <= |updates|
        invariant state.embeddingIndex.Some? && state.rest == old(state.rest)
        invariant (state.sections, state.embeddingIndex.value, embeddings.cache)
                  == Applied(old(state.sections), old(state.embeddingIndex.value), old(embeddings.cache), updates[..i], embed)
      {
        assert updates[..i + 1][..i] == updates[..i];
        var u := updates[i];
        state.sections := Put(state.sections, u.category, Put(SectionOf(state.sections, u.category), u.key, JStr(u.value)));
        var index := embeddings.UpdateIndex(state.embeddingIndex.value, [u.key], embed);
        state.embeddingIndex := Some(index);
        i := i + 1;
      }
      assert updates[..|updates|] == updates;
    }

    /** `_persist_state`: stamps `last_updated`; the result is the document
        handed to the store. */
    method PersistState(state: ConversationState, now: string) returns (saved: Document)
      modifies state
      ensures state.sections == old(state.sections) && state.embeddingIndex == old(state.embeddingIndex)
      ensures state.rest == Put(old(state.rest), "last_updated", JStr(now))
      ensures saved == state.Snapshot()
    {
      state.rest := Put(state.rest, "last_updated", JStr(now));
      saved := state.Snapshot();
    }

    /** `handle_message`: update, else recall, else chat. */
    method HandleMessage(text: string, stored: Document, extraction: Outcome<string>,
                         recallReply: Outcome<string>, chat: Outcome<Json>,
                         loads: string -> Option<Json>, embed: string -> Vector, now: string)
      returns (response: Response, persisted: Option<Document>)
      modifies embeddings
      ensures Handled(response, persisted, embeddings.cache)
              == Handle(old(embeddings.cache), text, stored, extraction, recallReply, chat, loads, embed, now)
    {
      var state := LoadState(stored);
      var updates := ExtractMemory(extraction, loads);
      if updates != [] {
        LoadedComplete(stored);
        forall j | 0 <= j < |updates| ensures HasKey(state.sections, updates[j].category) {
          assert updates[j] in updates;
          ExtractedSound(SafeJsonParse(extraction.value, loads), updates[j]);
        }
        ApplyMemoryUpdates(state, updates, embed);
        var saved := PersistState(state, now);
        persisted := Some(saved);
        response := BuildResponse(text, "memory_update", StoredReply);
        return;
      }
      persisted := None;
      var recall := SemanticRecall(state.sections, recallReply, loads);
      if recall.Some? {
        response := BuildResponse(text, "memory_recall", recall.value);
        return;
      }
      var answer := GeneralChat(chat);
      response := BuildResponse(text, "general_chat", answer);
    }
  }
}
