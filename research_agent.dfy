/** The source-merging step of the research agent: the Wikipedia page and
    the web search hits are merged into one list of sources, de-duplicated
    by URL with the first occurrence winning, cut to the first five, and
    replaced by a single placeholder entry when nothing is left.  The text
    handed to the synthesis prompt is built from the web sources only. */
module Research {
  import opened Base
  import opened Text

  datatype Kind = Wikipedia | Web

  /** One merged source.  Only the fallback entry has no content. */
  datatype Source = Source(kind: Kind, title: string, url: string, content: Option<string>)

  /** What the Wikipedia lookup returned; each field is `None` when the
      key is absent.  The whole page is `None` when the lookup failed or
      returned an empty result. */
  datatype WikiPage = WikiPage(summary: Option<string>, url: Option<string>, title: Option<string>)

  /** One web search hit; each field is `None` when the key is absent. */
  datatype Hit = Hit(url: Option<string>, title: Option<string>, body: Option<string>)

  /** How many merged sources are kept. */
  const Limit := 5

  /** `d.get(key, default)` for a string field. */
  function OrDefault(o: Option<string>, default: string): (r: string)
    ensures o.None? ==> r == default
    ensures o.Some? ==> r == o.value
  {
    if o.Some? then o.value else default
  }

  /** `wiki_raw`: the page summary, or "" when there is no page or no summary. */
  function WikiRaw(wiki: Option<WikiPage>): string {
    if wiki.Some? then OrDefault(wiki.value.summary, "") else ""
  }

  /** The Wikipedia entry, present only when both the summary and the URL
      are non-empty. */
  function WikiEntry(wiki: Option<WikiPage>): (r: Option<Source>)
    ensures r.Some? <==> WikiRaw(wiki) != "" && wiki.Some? && Filled(wiki.value.url)
    ensures r.Some? ==> r.value.kind == Wikipedia && r.value.url != "" && r.value.content == Some(WikiRaw(wiki))
  {
    if WikiRaw(wiki) != "" && wiki.Some? && Filled(wiki.value.url) then
      Some(Source(Wikipedia, OrDefault(wiki.value.title, "Wikipedia"), wiki.value.url.value, Some(WikiRaw(wiki))))
    else None
  }

  /** The URL-keyed dictionary before the web hits are added. */
  function Start(wiki: Option<WikiPage>): Dict<Source> {
    if WikiEntry(wiki).Some? then [(WikiEntry(wiki).value.url, WikiEntry(wiki).value)] else []
  }

  /** The entry built for a web hit with a non-empty URL. */
  function WebSource(h: Hit): (r: Source)
    requires Filled(h.url)
    ensures r.kind == Web && r.url == h.url.value && r.content.Some?
  {
    Source(Web, OrDefault(h.title, "Web Result"), h.url.value, Some(OrDefault(h.body, "")))
  }

  /** One pass of the loop over the hits: a hit is added when its URL is
      non-empty and not yet a key. */
  function Step(d: Dict<Source>, h: Hit): Dict<Source> {
    if Filled(h.url) && !HasKey(d, h.url.value) then Put(d, h.url.value, WebSource(h)) else d
  }

  /** The dictionary after the loop has run over `hits`, starting from `d`. */
  function Collect(d: Dict<Source>, hits: seq<Hit>): Dict<Source>
    decreases |hits|
  {
    if hits == [] then d else Collect(Step(d, hits[0]), hits[1..])
  }

  /** `list(d.values())`. */
  function Values(d: Dict<Source>): (r: seq<Source>)
    ensures |r| == |d|
    ensures forall i :: 0 <= i < |d| ==> r[i] == d[i].1
  {
    if d == [] then [] else [d[0].1] + Values(d[1..])
  }

  /** `vs[:5]`: a prefix of `vs` of at most five entries, all of `vs` when
      it is shorter. */
  function Top(vs: seq<Source>): (r: seq<Source>)
    ensures |r| <= Limit && |r| <= |vs|
    ensures r == vs[..|r|]
    ensures |r| < Limit ==> r == vs
  {
    if |vs| <= Limit then vs else vs[..Limit]
  }

  /** `final_sources_list` before the fallback. */
  function Merged(wiki: Option<WikiPage>, hits: seq<Hit>): seq<Source> {
    Top(Values(Collect(Start(wiki), hits)))
  }

  /** The placeholder source used when nothing was found. */
  function Fallback(question: string): Source {
    Source(Web, "Search: " + question, "", None)
  }

  /** `final_sources_list` after the fallback. */
  function Finalized(question: string, wiki: Option<WikiPage>, hits: seq<Hit>): seq<Source> {
    var merged := Merged(wiki, hits);
    if merged == [] then [Fallback(question)] else merged
  }

  /** One line of `ddg_raw`. */
  function Line(s: Source): string {
    s.title + ": " + OrDefault(s.content, "")
  }

  /** The lines of `ddg_raw`, one per web source, in list order. */
  function WebLines(sources: seq<Source>): (r: seq<string>)
    ensures |r| <= |sources|
  {
    if sources == [] then []
    else if sources[0].kind == Web then [Line(sources[0])] + WebLines(sources[1..])
    else WebLines(sources[1..])
  }

  /** `ddg_raw`. */
  function DdgRaw(sources: seq<Source>): string {
    Join("\n", WebLines(sources))
  }

  /* ---------------------------------------------------------------------
     The merge as the agent runs it.
     --------------------------------------------------------------------- */

  /** Merges the Wikipedia page and the hits, returning the final source
      list and the web text for the synthesis prompt. */
  method MergeSources(question: string, wiki: Option<WikiPage>, hits: seq<Hit>)
    returns (sources: seq<Source>, ddgRaw: string)
    ensures sources == Finalized(question, wiki, hits)
    ensures ddgRaw == DdgRaw(Merged(wiki, hits))
  {
    var raw := WikiRaw(wiki);
    var unique: Dict<Source> := [];
    if raw != "" && wiki.Some? && Filled(wiki.value.url) {
      var url := wiki.value.url.value;
      unique := Put(unique, url, Source(Wikipedia, OrDefault(wiki.value.title, "Wikipedia"), url, Some(raw)));
    }
    assert unique == Start(wiki);
    for i := 0 to |hits|
      invariant Collect(unique, hits[i..]) == Collect(Start(wiki), hits)
    {
      assert hits[i..][1..] == hits[i + 1..];
      var url := hits[i].url;
      if url.Some? && url.value != "" && !HasKey(unique, url.value) {
        var entry := Source(Web, OrDefault(hits[i].title, "Web Result"), url.value, Some(OrDefault(hits[i].body, "")));
        unique := Put(unique, url.value, entry);
      }
    }
    assert hits[|hits|..] == [];
    sources := Top(Values(unique));
    ddgRaw := DdgRaw(sources);
    if sources == [] {
      sources := sources + [Fallback(question)];
    }
  }

  /* ---------------------------------------------------------------------
     What the merge guarantees.
     --------------------------------------------------------------------- */

  /** Every key is the URL of its entry, keys are distinct and none is empty. */
  predicate WellKeyed(d: Dict<Source>) {
    UniqueKeys(d) && forall i :: 0 <= i < |d| ==> d[i].1.url == d[i].0 && d[i].0 != ""
  }

  lemma StepWellKeyed(d: Dict<Source>, h: Hit)
    requires WellKeyed(d)
    ensures WellKeyed(Step(d, h))
    ensures Step(d, h)[..|d|] == d
  {
    if Filled(h.url) && !HasKey(d, h.url.value) {
      PutUnique(d, h.url.value, WebSource(h));
      PutNew(d, h.url.value, WebSource(h));
    }
  }

  /** The loop keeps the dictionary well keyed. */
  lemma {:induction false} CollectWellKeyed(d: Dict<Source>, hits: seq<Hit>)
    requires WellKeyed(d)
    ensures WellKeyed(Collect(d, hits))
    decreases |hits|
  {
    if hits != [] {
      StepWellKeyed(d, hits[0]);
      CollectWellKeyed(Step(d, hits[0]), hits[1..]);
    }
  }

  /** The loop only ever appends. */
  lemma {:induction false} CollectExtends(d: Dict<Source>, hits: seq<Hit>)
    ensures |d| <= |Collect(d, hits)| && Collect(d, hits)[..|d|] == d
    decreases |hits|
  {
    if hits != [] {
      var h := hits[0];
      var next := Step(d, h);
      CollectExtends(next, hits[1..]);
      var c := Collect(next, hits[1..]);
      if Filled(h.url) && !HasKey(d, h.url.value) {
        PutNew(d, h.url.value, WebSource(h));
        assert c[..|d|] == c[..|next|][..|d|];
      }
    }
  }

  /** Running the loop over `a + b` is running it over `a`, then over `b`. */
  lemma {:induction false} CollectAppend(d: Dict<Source>, a: seq<Hit>, b: seq<Hit>)
    ensures Collect(d, a + b) == Collect(Collect(d, a), b)
    decreases |a|
  {
    if a != [] {
      assert (a + b)[0] == a[0];
      assert (a + b)[1..] == a[1..] + b;
      CollectAppend(Step(d, a[0]), a[1..], b);
    } else {
      assert a + b == b;
    }
  }

  /** A hit with a missing or empty URL is dropped. */
  lemma UnlinkedDropped(d: Dict<Source>, a: seq<Hit>, h: Hit, b: seq<Hit>)
    requires !Filled(h.url)
    ensures Collect(d, a + [h] + b) == Collect(d, a + b)
  {
    CollectAppend(d, a + [h], b);
    CollectAppend(d, a, [h]);
    CollectAppend(d, a, b);
    assert Collect(Collect(d, a), [h]) == Collect(Step(Collect(d, a), h), []);
  }

  /** A hit whose URL is already a key is dropped: the first occurrence wins. */
  lemma DuplicateDropped(d: Dict<Source>, a: seq<Hit>, h: Hit, b: seq<Hit>)
    requires h.url.Some? && HasKey(Collect(d, a), h.url.value)
    ensures Collect(d, a + [h] + b) == Collect(d, a + b)
  {
    CollectAppend(d, a + [h], b);
    CollectAppend(d, a, [h]);
    CollectAppend(d, a, b);
    assert Collect(Collect(d, a), [h]) == Collect(Step(Collect(d, a), h), []);
  }

  /** The index of the first hit whose URL is `u`. */
  function FirstWith(hits: seq<Hit>, u: string): (r: Option<nat>)
    ensures r.None? <==> forall i :: 0 <= i < |hits| ==> hits[i].url != Some(u)
    ensures r.Some? ==>
      r.value < |hits| && hits[r.value].url == Some(u) && forall j :: 0 <= j < r.value ==> hits[j].url != Some(u)
  {
    if hits == [] then None
    else if hits[0].url == Some(u) then Some(0)
    else
      var rest := FirstWith(hits[1..], u);
      assert forall i :: 1 <= i < |hits| ==> hits[i] == hits[1..][i - 1];
      if rest.None? then None else Some(rest.value + 1)
  }

  /** The entry stored under a URL is the one already there, else the one
      built from the first hit carrying that URL; a URL no hit carries is
      absent. */
  lemma {:induction false} FirstWins(d: Dict<Source>, hits: seq<Hit>, u: string)
    requires u != ""
    ensures Get(Collect(d, hits), u) ==
      if HasKey(d, u) then Get(d, u)
      else if FirstWith(hits, u).None? then None
      else Some(WebSource(hits[FirstWith(hits, u).value]))
    decreases |hits|
  {
    if hits != [] {
      var h := hits[0];
      var next := Step(d, h);
      FirstWins(next, hits[1..], u);
      if Filled(h.url) && !HasKey(d, h.url.value) {
        if h.url.value == u {
          PutGetSame(d, u, WebSource(h));
        } else {
          PutGetOther(d, h.url.value, WebSource(h), u);
        }
      }
      var f := FirstWith(hits[1..], u);
      if f.Some? && h.url != Some(u) {
        assert FirstWith(hits, u) == Some(f.value + 1);
      }
    }
  }

  /** Merged sources have distinct, non-empty URLs. */
  lemma MergedUrls(wiki: Option<WikiPage>, hits: seq<Hit>)
    ensures forall i :: 0 <= i < |Merged(wiki, hits)| ==> Merged(wiki, hits)[i].url != ""
    ensures forall i, j :: 0 <= i < j < |Merged(wiki, hits)| ==> Merged(wiki, hits)[i].url != Merged(wiki, hits)[j].url
  {
    var d := Collect(Start(wiki), hits);
    CollectWellKeyed(Start(wiki), hits);
    var ks := Keys(d);
    assert Distinct(ks);
    var m := Merged(wiki, hits);
    assert forall i :: 0 <= i < |m| ==> m[i] == d[i].1 && m[i].url == ks[i];
  }

  /** When there is a Wikipedia entry, it comes first. */
  lemma WikiFirst(wiki: Option<WikiPage>, hits: seq<Hit>)
    requires WikiEntry(wiki).Some?
    ensures Merged(wiki, hits) != [] && Merged(wiki, hits)[0] == WikiEntry(wiki).value
  {
    CollectExtends(Start(wiki), hits);
    var d := Collect(Start(wiki), hits);
    assert d[..1] == Start(wiki);
    assert d[0] == Start(wiki)[0];
  }

  /** Every entry from position `n` on is a web source. */
  predicate WebFrom(d: Dict<Source>, n: nat) {
    forall i :: n <= i < |d| ==> d[i].1.kind == Web
  }

  /** Everything the loop appends is a web source. */
  lemma {:induction false} CollectKinds(d: Dict<Source>, hits: seq<Hit>)
    ensures WebFrom(Collect(d, hits), |d|)
    decreases |hits|
  {
    if hits != [] {
      var h := hits[0];
      var next := Step(d, h);
      CollectKinds(next, hits[1..]);
      if Filled(h.url) && !HasKey(d, h.url.value) {
        var c := Collect(next, hits[1..]);
        PutNew(d, h.url.value, WebSource(h));
        CollectExtends(next, hits[1..]);
        forall i | |d| <= i < |c|
          ensures c[i].1.kind == Web
        {
          if i < |next| {
            assert c[i] == c[..|next|][i] == next[i];
          }
        }
      }
    }
  }

  /** After the Wikipedia entry, if any, every merged source is a web source. */
  lemma MergedKinds(wiki: Option<WikiPage>, hits: seq<Hit>, i: nat)
    requires |Start(wiki)| <= i < |Merged(wiki, hits)|
    ensures Merged(wiki, hits)[i].kind == Web
  {
    CollectKinds(Start(wiki), hits);
  }

  /** The fallback replaces the merged list exactly when it is empty. */
  lemma FallbackIff(question: string, wiki: Option<WikiPage>, hits: seq<Hit>)
    ensures 1 <= |Finalized(question, wiki, hits)| <= Limit
    ensures Finalized(question, wiki, hits) == [Fallback(question)] <==> Merged(wiki, hits) == []
    ensures Merged(wiki, hits) != [] ==> Finalized(question, wiki, hits) == Merged(wiki, hits)
  {
    MergedUrls(wiki, hits);
  }

  /** The web lines of a concatenation are the lines of each part. */
  lemma {:induction false} WebLinesAppend(a: seq<Source>, b: seq<Source>)
    ensures WebLines(a + b) == WebLines(a) + WebLines(b)
  {
    if a == [] {
      assert a + b == b;
    } else {
      var c := a + b;
      assert c[0] == a[0] && c[1..] == a[1..] + b;
      WebLinesAppend(a[1..], b);
      var head := WebLines([a[0]]);
      assert WebLines(c) == head + WebLines(c[1..]);
      assert WebLines(a) == head + WebLines(a[1..]);
    }
  }

  /** A Wikipedia source contributes nothing to `ddg_raw`; a web source
      contributes its own line, in place. */
  lemma WebLinesOnlyWeb(a: seq<Source>, s: Source, b: seq<Source>)
    ensures s.kind == Wikipedia ==> WebLines(a + [s] + b) == WebLines(a + b)
    ensures s.kind == Web ==> WebLines(a + [s] + b) == WebLines(a) + [Line(s)] + WebLines(b)
  {
    var tail := [s] + b;
    assert a + [s] + b == a + tail;
    WebLinesAppend(a, tail);
    WebLinesAppend(a, b);
    assert tail[0] == s && tail[1..] == b;
  }
}
