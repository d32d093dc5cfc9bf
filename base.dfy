/** Values shared by every component: optional values, insertion-ordered
    dictionaries (Python's `dict`) and decoded JSON documents. */
module Base {
  import opened Text

  datatype Option<+T> = None | Some(value: T)

  /** The result of a call that can raise: a value, or the name of the
      Python exception it raises. */
  datatype Outcome<+T> = Returns(value: T) | Raises(error: string)

  /* ---------------------------------------------------------------------
     Insertion-ordered dictionaries with string keys.  A Python `dict`
     remembers the order in which keys were first inserted; assigning to an
     existing key keeps its position.  A dictionary is a sequence of
     (key, value) pairs whose keys are distinct.
     --------------------------------------------------------------------- */

  type Dict<V> = seq<(string, V)>

  function Keys<V>(d: Dict<V>): (ks: seq<string>)
    ensures |ks| == |d|
    ensures forall i :: 0 <= i < |d| ==> ks[i] == d[i].0
  {
    if d == [] then [] else [d[0].0] + Keys(d[1..])
  }

  predicate Distinct(s: seq<string>) {
    forall i, j :: 0 <= i < j < |s| ==> s[i] != s[j]
  }

  predicate UniqueKeys<V>(d: Dict<V>) {
    Distinct(Keys(d))
  }

  predicate HasKey<V>(d: Dict<V>, k: string) {
    k in Keys(d)
  }

  /** `d.get(k)`: the value stored under `k`, if any (its first entry). */
  function Get<V>(d: Dict<V>, k: string): (r: Option<V>)
    ensures r.Some? <==> HasKey(d, k)
  {
    if d == [] then None
    else if d[0].0 == k then Some(d[0].1)
    else Get(d[1..], k)
  }

  /** `d[k] = v`: replaces the value in place when `k` is present,
      otherwise appends the new pair at the end. */
  function Put<V>(d: Dict<V>, k: string, v: V): (r: Dict<V>)
    ensures Keys(r) == if HasKey(d, k) then Keys(d) else Keys(d) + [k]
  {
    if d == [] then [(k, v)]
    else if d[0].0 == k then [(k, v)] + d[1..]
    else
      var r := [d[0]] + Put(d[1..], k, v);
      assert Keys(r) == [d[0].0] + Keys(Put(d[1..], k, v));
      assert Keys(d) == [d[0].0] + Keys(d[1..]);
      r
  }

  lemma {:induction false} PutGet<V>(d: Dict<V>, k: string, v: V)
    ensures Get(Put(d, k, v), k) == Some(v)
    ensures forall k' :: k' != k ==> Get(Put(d, k, v), k') == Get(d, k')
  {
    if d != [] && d[0].0 != k {
      PutGet(d[1..], k, v);
      assert Put(d, k, v) == [d[0]] + Put(d[1..], k, v);
    }
  }

  /** The value just stored is the one read back. */
  lemma {:induction false} PutGetSame<V>(d: Dict<V>, k: string, v: V)
    ensures Get(Put(d, k, v), k) == Some(v)
  {
    if d != [] && d[0].0 != k {
      PutGetSame(d[1..], k, v);
      assert Put(d, k, v) == [d[0]] + Put(d[1..], k, v);
    }
  }

  /** Storing under one key leaves every other key as it was. */
  lemma {:induction false} PutGetOther<V>(d: Dict<V>, k: string, v: V, k': string)
    requires k' != k
    ensures Get(Put(d, k, v), k') == Get(d, k')
  {
    if d != [] && d[0].0 != k {
      PutGetOther(d[1..], k, v, k');
      assert Put(d, k, v) == [d[0]] + Put(d[1..], k, v);
    }
  }

  /** Storing under a new key appends the pair at the end. */
  lemma {:induction false} PutNew<V>(d: Dict<V>, k: string, v: V)
    requires !HasKey(d, k)
    ensures Put(d, k, v) == d + [(k, v)]
  {
    if d != [] {
      assert Keys(d) == [d[0].0] + Keys(d[1..]);
      PutNew(d[1..], k, v);
      assert Put(d, k, v) == [d[0]] + (d[1..] + [(k, v)]);
      assert [d[0]] + (d[1..] + [(k, v)]) == d + [(k, v)];
    }
  }

  lemma GetIn<V>(d: Dict<V>, k: string)
    requires HasKey(d, k)
    ensures (k, Get(d, k).value) in d
  {}

  lemma PutUnique<V>(d: Dict<V>, k: string, v: V)
    requires UniqueKeys(d)
    ensures UniqueKeys(Put(d, k, v))
  {
    var ks := Keys(d);
    if !HasKey(d, k) {
      assert Keys(Put(d, k, v)) == ks + [k];
      assert forall i :: 0 <= i < |ks| ==> ks[i] != k;
    }
  }

  /* ---------------------------------------------------------------------
     Decoded JSON, as `json.loads` returns it.  Integers and floats are told
     apart as Python does; object members keep their order and are taken to
     have distinct names (what a decoded `dict` holds).
     --------------------------------------------------------------------- */

  datatype Json =
    | JNull
    | JBool(b: bool)
    | JInt(i: int)
    | JFloat(f: real)
    | JStr(s: string)
    | JArr(items: seq<Json>)
    | JObj(members: Dict<Json>)

  /** Python truthiness of a decoded value. */
  predicate Truthy(j: Json) {
    match j
    case JNull => false
    case JBool(b) => b
    case JInt(i) => i != 0
    case JFloat(f) => f != 0.0
    case JStr(s) => s != ""
    case JArr(items) => items != []
    case JObj(members) => members != []
  }

  /** `obj.get(k)` on an object; `None` when the member is absent. */
  function Member(members: Dict<Json>, k: string): Option<Json> {
    Get(members, k)
  }

  /** `obj.get(k)` with Python's result `None` for an absent member. */
  function MemberOrNull(members: Dict<Json>, k: string): Json {
    match Get(members, k)
    case Some(v) => v
    case None => JNull
  }

  /** `str(v)` of a decoded scalar. Floats, lists and objects are rendered
      by the fixed text "<value>". */
  function Str(j: Json): string {
    match j
    case JNull => "None"
    case JBool(b) => if b then "True" else "False"
    case JInt(i) => IntToString(i)
    case JStr(s) => s
    case _ => "<value>"
  }

  /** Truthiness of an optional string field (`None` and "" are false). */
  predicate Filled(o: Option<string>) {
    o.Some? && o.value != ""
  }
}
