/** `EmbeddingIndexManager` (app/services/embedding_manager.py): a cache of
    embeddings keyed by normalised text, a thresholded ranking of index
    keys against a query, and completion of an index in place.

    The embedding model is the parameter `embed` (a function of the text it
    is given) and `math.sqrt` is the parameter `sqrt`; the cache file is
    the initial cache passed to the constructor. */
module Embeddings {
  import opened Base
  import opened Text

  type Vector = seq<real>

  /** `settings.embedding_similarity_threshold` */
  const DefaultThreshold: real := 0.7

  /* ---------------------------------------------------------------------
     The cache key
     --------------------------------------------------------------------- */

  /** `text.lower().strip()` */
  function CacheKey(text: string): string {
    Strip(Lower(text))
  }

  lemma {:induction false} LowerRStrip(s: string)
    ensures Lower(RStrip(s, IsSpace)) == RStrip(Lower(s), IsSpace)
    decreases |s|
  {
    if s != [] && IsSpace(s[|s| - 1]) {
      assert Lower(s)[..|s| - 1] == Lower(s[..|s| - 1]);
      LowerRStrip(s[..|s| - 1]);
    }
  }

  lemma {:induction false} LowerLStrip(s: string)
    ensures Lower(LStrip(s, IsSpace)) == LStrip(Lower(s), IsSpace)
    decreases |s|
  {
    if s != [] && IsSpace(s[0]) {
      assert Lower(s)[1..] == Lower(s[1..]);
      LowerLStrip(s[1..]);
    }
  }

  /** Lower-casing and stripping whitespace commute. */
  lemma LowerStrip(s: string)
    ensures Lower(Strip(s)) == Strip(Lower(s))
  {
    LowerLStrip(s);
    LowerRStrip(LStrip(s, IsSpace));
  }

  /** Texts that differ only in letter case or surrounding whitespace share
      one cache key. */
  lemma CacheKeyNormalises(text: string)
    ensures CacheKey(Lower(text)) == CacheKey(text)
    ensures CacheKey(Strip(text)) == CacheKey(text)
  {
    LowerIdempotent(text);
    LowerStrip(text);
    StripWithIdempotent(Lower(text), IsSpace);
  }

  /** The vector `get_embedding(text)` returns from a cache. */
  function EmbeddingFor(cache: Dict<Vector>, text: string, embed: string -> Vector): Vector {
    match Get(cache, CacheKey(text))
    case Some(v) => v
    case None => embed(text)
  }

  /** The cache after `get_embedding(text)`: a miss adds exactly the new key. */
  function CacheAfter(cache: Dict<Vector>, text: string, embed: string -> Vector): Dict<Vector> {
    if HasKey(cache, CacheKey(text)) then cache else Put(cache, CacheKey(text), embed(text))
  }

  /** The cache only grows, and every entry it had keeps its vector. */
  lemma CacheNeverEvicts(cache: Dict<Vector>, text: string, embed: string -> Vector, k: string)
    requires HasKey(cache, k)
    ensures Get(CacheAfter(cache, text, embed), k) == Get(cache, k)
    ensures Get(CacheAfter(cache, text, embed), CacheKey(text)) == Some(EmbeddingFor(cache, text, embed))
  {
    if !HasKey(cache, CacheKey(text)) {
      PutGet(cache, CacheKey(text), embed(text));
    }
  }

  /** After one lookup, the same text or any text with the same key is
      answered from the cache with the same vector. */
  lemma SecondLookupHits(cache: Dict<Vector>, text: string, other: string, embed: string -> Vector)
    requires CacheKey(other) == CacheKey(text)
    ensures HasKey(CacheAfter(cache, text, embed), CacheKey(other))
    ensures EmbeddingFor(CacheAfter(cache, text, embed), other, embed) == EmbeddingFor(cache, text, embed)
    ensures CacheAfter(CacheAfter(cache, text, embed), other, embed) == CacheAfter(cache, text, embed)
  {
    if !HasKey(cache, CacheKey(text)) {
      PutGet(cache, CacheKey(text), embed(text));
    }
  }

  /* ---------------------------------------------------------------------
     Cosine similarity
     --------------------------------------------------------------------- */

  /** `sum(a * b for a, b in zip(v1, v2))`: `zip` stops at the shorter vector. */
  function Dot(v1: Vector, v2: Vector): real {
    if v1 == [] || v2 == [] then 0.0 else v1[0] * v2[0] + Dot(v1[1..], v2[1..])
  }

  /** `math.sqrt(sum(a * a for a in v))` */
  function Magnitude(v: Vector, sqrt: real -> real): real {
    sqrt(Dot(v, v))
  }

  /** `cosine_similarity(v1, v2)`: 0.0 when either magnitude is zero. */
  function Cosine(v1: Vector, v2: Vector, sqrt: real -> real): real {
    var m1 := Magnitude(v1, sqrt);
    var m2 := Magnitude(v2, sqrt);
    if m1 == 0.0 || m2 == 0.0 then 0.0 else Dot(v1, v2) / (m1 * m2)
  }

  lemma {:induction false} DotSymmetric(v1: Vector, v2: Vector)
    ensures Dot(v1, v2) == Dot(v2, v1)
  {
    if v1 != [] && v2 != [] {
      DotSymmetric(v1[1..], v2[1..]);
    }
  }

  /** The score does not depend on the order of its arguments. */
  lemma CosineSymmetric(v1: Vector, v2: Vector, sqrt: real -> real)
    ensures Cosine(v1, v2, sqrt) == Cosine(v2, v1, sqrt)
  {
    DotSymmetric(v1, v2);
  }

  predicate IsZero(v: Vector) {
    forall i | 0 <= i < |v| :: v[i] == 0.0
  }

  lemma {:induction false} ZeroDot(v: Vector)
    requires IsZero(v)
    ensures Dot(v, v) == 0.0
  {
    if v != [] {
      ZeroDot(v[1..]);
    }
  }

  /** A zero vector (whose magnitude is `sqrt(0.0)`, that is 0.0) scores
      0.0 against every vector, on either side. */
  lemma ZeroVectorScoresZero(v: Vector, w: Vector, sqrt: real -> real)
    requires IsZero(v) && sqrt(0.0) == 0.0
    ensures Cosine(v, w, sqrt) == 0.0 && Cosine(w, v, sqrt) == 0.0
  {
    ZeroDot(v);
  }

  /* ---------------------------------------------------------------------
     Search
     --------------------------------------------------------------------- */

  type Match = (string, real)

  /** The loop of `search`: the index entries scoring at least `threshold`,
      in index order. */
  function Scored(q: Vector, index: Dict<Vector>, threshold: real, sqrt: real -> real): seq<Match>
    decreases |index|
  {
    if index == [] then []
    else
      var prev := Scored(q, index[..|index| - 1], threshold, sqrt);
      var (k, e) := index[|index| - 1];
      var score := Cosine(q, e, sqrt);
      if score >= threshold then prev + [(k, score)] else prev
  }

  /** Every kept pair is an index key with its score, and that score
      reaches the threshold. */
  lemma {:induction false} ScoredSound(q: Vector, index: Dict<Vector>, threshold: real, sqrt: real -> real, m: Match)
    requires m in Scored(q, index, threshold, sqrt)
    ensures m.1 >= threshold
    ensures exists i | 0 <= i < |index| :: index[i].0 == m.0 && m.1 == Cosine(q, index[i].1, sqrt)
    decreases |index|
  {
    var init := index[..|index| - 1];
    var (k, e) := index[|index| - 1];
    if m in Scored(q, init, threshold, sqrt) {
      ScoredSound(q, init, threshold, sqrt, m);
      var i :| 0 <= i < |init| && init[i].0 == m.0 && m.1 == Cosine(q, init[i].1, sqrt);
      assert index[i] == init[i];
    } else {
      assert index[|index| - 1].0 == m.0;
    }
  }

  /** Every index entry that reaches the threshold is kept. */
  lemma {:induction false} ScoredComplete(q: Vector, index: Dict<Vector>, threshold: real, sqrt: real -> real, i: nat)
    requires i < |index| && Cosine(q, index[i].1, sqrt) >= threshold
    ensures (index[i].0, Cosine(q, index[i].1, sqrt)) in Scored(q, index, threshold, sqrt)
    decreases |index|
  {
    if i < |index| - 1 {
      var init := index[..|index| - 1];
      assert init[i] == index[i];
      ScoredComplete(q, init, threshold, sqrt, i);
    }
  }

  predicate SortedDesc(ms: seq<Match>) {
    forall i, j | 0 <= i < j < |ms| :: ms[i].1 >= ms[j].1
  }

  /** Inserts after every element scoring at least as much, so that equal
      scores keep their order. */
  function Insert(m: Match, ms: seq<Match>): (r: seq<Match>)
    ensures multiset(r) == multiset(ms) + multiset{m}
    ensures |r| == |ms| + 1
  {
    if ms == [] then [m]
    else if ms[0].1 >= m.1 then
      assert ms == [ms[0]] + ms[1..];
      [ms[0]] + Insert(m, ms[1..])
    else [m] + ms
  }

  lemma {:induction false} InsertSorted(m: Match, ms: seq<Match>)
    requires SortedDesc(ms)
    ensures SortedDesc(Insert(m, ms))
  {
    if ms != [] && ms[0].1 >= m.1 {
      InsertSorted(m, ms[1..]);
      var r := Insert(m, ms[1..]);
      forall x: Match | x in multiset(r) ensures ms[0].1 >= x.1 {
        assert x in multiset(ms[1..]) + multiset{m};
        if x in multiset(ms[1..]) {
          var j :| 0 <= j < |ms[1..]| && ms[1..][j] == x;
          assert ms[j + 1] == x;
        }
      }
      forall j | 0 <= j < |r| ensures ms[0].1 >= r[j].1 {
        assert r[j] in multiset(r);
      }
    }
  }

  /** `sorted(matches, key=lambda x: x[1], reverse=True)` (a stable sort). */
  function SortDesc(ms: seq<Match>): (r: seq<Match>)
    ensures multiset(r) == multiset(ms)
    ensures |r| == |ms|
  {
    if ms == [] then []
    else
      assert ms == ms[..|ms| - 1] + [ms[|ms| - 1]];
      Insert(ms[|ms| - 1], SortDesc(ms[..|ms| - 1]))
  }

  lemma {:induction false} SortDescSorted(ms: seq<Match>)
    ensures SortedDesc(SortDesc(ms))
  {
    if ms != [] {
      SortDescSorted(ms[..|ms| - 1]);
      InsertSorted(ms[|ms| - 1], SortDesc(ms[..|ms| - 1]));
    }
  }

  /** `search(query, index, threshold)` as a value: the cache after looking
      up the query, and the ranked matches. */
  function SearchResult(cache: Dict<Vector>, query: string, index: Dict<Vector>, threshold: Option<real>,
                        embed: string -> Vector, sqrt: real -> real): seq<Match> {
    var th := match threshold case Some(t) => t case None => DefaultThreshold;
    SortDesc(Scored(EmbeddingFor(cache, query, embed), index, th, sqrt))
  }

  /** The ranking is sorted by score, highest first, and holds exactly the
      index keys that reach the threshold, each with its score. */
  lemma SearchSpec(cache: Dict<Vector>, query: string, index: Dict<Vector>, th: real,
                   embed: string -> Vector, sqrt: real -> real)
    ensures var r := SearchResult(cache, query, index, Some(th), embed, sqrt);
            var q := EmbeddingFor(cache, query, embed);
            SortedDesc(r)
            && (forall m | m in r :: m.1 >= th && exists i | 0 <= i < |index| :: index[i].0 == m.0 && m.1 == Cosine(q, index[i].1, sqrt))
            && (forall i | 0 <= i < |index| && Cosine(q, index[i].1, sqrt) >= th :: (index[i].0, Cosine(q, index[i].1, sqrt)) in r)
  {
    var q := EmbeddingFor(cache, query, embed);
    var s := Scored(q, index, th, sqrt);
    var r := SortDesc(s);
    SortDescSorted(s);
    forall m | m in r
      ensures m.1 >= th && exists i | 0 <= i < |index| :: index[i].0 == m.0 && m.1 == Cosine(q, index[i].1, sqrt)
    {
      assert m in multiset(r);
      ScoredSound(q, index, th, sqrt, m);
    }
    forall i | 0 <= i < |index| && Cosine(q, index[i].1, sqrt) >= th
      ensures (index[i].0, Cosine(q, index[i].1, sqrt)) in r
    {
      ScoredComplete(q, index, th, sqrt, i);
      assert (index[i].0, Cosine(q, index[i].1, sqrt)) in multiset(s);
    }
  }

  /* ---------------------------------------------------------------------
     Completing an index
     --------------------------------------------------------------------- */

  /** The cache and the index after `update_index(index, keys)`. */
  function IndexAfter(cache: Dict<Vector>, index: Dict<Vector>, keys: seq<string>,
                      embed: string -> Vector): (Dict<Vector>, Dict<Vector>)
    decreases |keys|
  {
    if keys == [] then (cache, index)
    else
      var (c, ix) := IndexAfter(cache, index, keys[..|keys| - 1], embed);
      var key := keys[|keys| - 1];
      if HasKey(ix, key) then (c, ix)
      else (CacheAfter(c, key, embed), Put(ix, key, EmbeddingFor(c, key, embed)))
  }

  /** Afterwards every requested key is in the index. */
  lemma {:induction false} IndexAfterHasKeys(cache: Dict<Vector>, index: Dict<Vector>, keys: seq<string>,
                                             embed: string -> Vector, k: string)
    requires k in keys
    ensures HasKey(IndexAfter(cache, index, keys, embed).1, k)
    decreases |keys|
  {
    var init := keys[..|keys| - 1];
    var key := keys[|keys| - 1];
    var prev := IndexAfter(cache, index, init, embed);
    if k != key {
      assert keys == init + [key];
      IndexAfterHasKeys(cache, index, init, embed, k);
      if !HasKey(prev.1, key) {
        PutGet(prev.1, key, EmbeddingFor(prev.0, key, embed));
      }
    } else if !HasKey(prev.1, key) {
      PutGet(prev.1, key, EmbeddingFor(prev.0, key, embed));
    }
  }

  /** Every entry the index had keeps its vector. */
  lemma {:induction false} IndexAfterKeeps(cache: Dict<Vector>, index: Dict<Vector>, keys: seq<string>,
                                           embed: string -> Vector, k: string)
    requires HasKey(index, k)
    ensures Get(IndexAfter(cache, index, keys, embed).1, k) == Get(index, k)
    decreases |keys|
  {
    if keys != [] {
      var init := keys[..|keys| - 1];
      var key := keys[|keys| - 1];
      var prev := IndexAfter(cache, index, init, embed);
      IndexAfterKeeps(cache, index, init, embed, k);
      if !HasKey(prev.1, key) {
        PutGet(prev.1, key, EmbeddingFor(prev.0, key, embed));
      }
    }
  }

  /** A second `update_index` with the same keys changes neither the index
      nor the cache. */
  lemma {:induction false} IndexAfterIdempotent(cache: Dict<Vector>, index: Dict<Vector>, keys: seq<string>,
                                                embed: string -> Vector)
    ensures var (c, ix) := IndexAfter(cache, index, keys, embed);
            IndexAfter(c, ix, keys, embed) == (c, ix)
  {
    var (c, ix) := IndexAfter(cache, index, keys, embed);
    forall k | k in keys ensures HasKey(ix, k) {
      IndexAfterHasKeys(cache, index, keys, embed, k);
    }
    AllPresentUnchanged(c, ix, keys, embed);
  }

  /** Keys already present cause no lookup and no change. */
  lemma {:induction false} AllPresentUnchanged(cache: Dict<Vector>, index: Dict<Vector>, keys: seq<string>,
                                               embed: string -> Vector)
    requires forall k | k in keys :: HasKey(index, k)
    ensures IndexAfter(cache, index, keys, embed) == (cache, index)
    decreases |keys|
  {
    if keys != [] {
      assert keys[|keys| - 1] in keys;
      AllPresentUnchanged(cache, index, keys[..|keys| - 1], embed);
    }
  }

  /* ---------------------------------------------------------------------
     The manager
     --------------------------------------------------------------------- */

  class EmbeddingIndexManager {
    /** `_cache` */
    var cache: Dict<Vector>
    /** The texts sent to the embedding model, oldest first. */
    ghost var requests: seq<string>

    /** `__init__`, with the cache as `_load_cache` found it. */
    constructor (loaded: Dict<Vector>)
      ensures cache == loaded && requests == []
    {
      cache := loaded;
      requests := [];
    }

    /** `get_embedding(text)`: a hit answers from the cache without calling
        the embedding model; a miss calls it on the original text and stores
        the vector under the normalised key. */
    method GetEmbedding(text: string, embed: string -> Vector) returns (v: Vector)
      modifies this
      ensures v == EmbeddingFor(old(cache), text, embed)
      ensures cache == CacheAfter(old(cache), text, embed)
      ensures requests == old(requests) + (if HasKey(old(cache), CacheKey(text)) then [] else [text])
    {
      var cleanText := Lower(text);
      cleanText := Strip(cleanText);
      var hit := Get(cache, cleanText);
      if hit.Some? {
        return hit.value;
      }
      v := embed(text);
      requests := requests + [text];
      cache := Put(cache, cleanText, v);
    }

    /** `search(query, index, threshold)` */
    method Search(query: string, index: Dict<Vector>, threshold: Option<real>,
                  embed: string -> Vector, sqrt: real -> real) returns (matches: seq<Match>)
      modifies this
      ensures matches == SearchResult(old(cache), query, index, threshold, embed, sqrt)
      ensures cache == CacheAfter(old(cache), query, embed)
      ensures requests == old(requests) + (if HasKey(old(cache), CacheKey(query)) then [] else [query])
    {
      var th := if threshold.None? then DefaultThreshold else threshold.value;
      var queryEmb := GetEmbedding(query, embed);
      var found: seq<Match> := [];
      var i := 0;
      while i < |index|
        invariant 0 <= i <= |index|
        invariant found == Scored(queryEmb, index[..i], th, sqrt)
      {
        var (key, keyEmb) := index[i];
        var score := Cosine(queryEmb, keyEmb, sqrt);
        assert index[..i + 1][..i] == index[..i];
        if score >= th {
          found := found + [(key, score)];
        }
        i := i + 1;
      }
      assert index[..|index|] == index;
      matches := SortDesc(found);
    }

    /** `update_index(index, keys)`; the index the caller passes is updated
        in place in the source, and is returned here. */
    method UpdateIndex(index: Dict<Vector>, keys: seq<string>, embed: string -> Vector) returns (r: Dict<Vector>)
      modifies this
      ensures (cache, r) == IndexAfter(old(cache), index, keys, embed)
    {
      r := index;
      var i := 0;
      while i < |keys|
        invariant 0 <= i <= |keys|
        invariant (cache, r) == IndexAfter(old(cache), index, keys[..i], embed)
      {
        var key := keys[i];
        assert keys[..i + 1][..i] == keys[..i];
        if !HasKey(r, key) {
          var e := GetEmbedding(key, embed);
          r := Put(r, key, e);
        }
        i := i + 1;
      }
      assert keys[..|keys|] == keys;
    }
  }
}
