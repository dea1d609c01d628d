/** JSON values as the converter sees them after `json.load`, with objects kept
    as ordered key/value sequences so that Python's insertion order is part of
    the model. */
module Json {
  import opened Wrappers

  datatype Json =
    | JNull
    | JBool(b: bool)
    | JInt(i: int)
    | JFloat(f: real)
    | JStr(s: string)
    | JArr(items: seq<Json>)
    | JObj(fields: Obj)

  /** A JSON object: key/value pairs in insertion order. */
  type Obj = seq<(string, Json)>

  predicate NoDuplicates<T(==)>(s: seq<T>) {
    forall i, j :: 0 <= i < j < |s| ==> s[i] != s[j]
  }

  /** `list(d.keys())` */
  function Keys(o: Obj): (ks: seq<string>)
    ensures |ks| == |o|
  {
    if o == [] then [] else [o[0].0] + Keys(o[1..])
  }

  /** `list(d.values())` */
  function Values(o: Obj): (vs: seq<Json>)
    ensures |vs| == |o|
    ensures forall i :: 0 <= i < |o| ==> vs[i] == o[i].1
  {
    if o == [] then [] else [o[0].1] + Values(o[1..])
  }

  /** The i-th key is the key of the i-th entry. */
  lemma {:induction false} KeysAt(o: Obj)
    ensures forall i :: 0 <= i < |o| ==> Keys(o)[i] == o[i].0
  {
    if o != [] {
      KeysAt(o[1..]);
      assert Keys(o) == [o[0].0] + Keys(o[1..]);
    }
  }

  /** `k in d` */
  predicate Has(o: Obj, k: string) {
    k in Keys(o)
  }

  /** A well-formed dictionary: no key occurs twice. */
  predicate DistinctKeys(o: Obj) {
    NoDuplicates(Keys(o))
  }

  /** `d[k]`, defined only when the key is present. */
  function Get(o: Obj, k: string): (v: Json)
    requires Has(o, k)
  {
    if o[0].0 == k then o[0].1 else Get(o[1..], k)
  }

  /** In a well-formed dictionary the value under the i-th key is the i-th
      value. */
  lemma {:induction false} GetAt(o: Obj, i: nat)
    requires DistinctKeys(o) && i < |o|
    ensures Has(o, o[i].0) && Get(o, o[i].0) == o[i].1
  {
    KeysAt(o);
    if i > 0 {
      var ks := Keys(o);
      assert ks == [o[0].0] + Keys(o[1..]);
      assert ks[i] != ks[0];
      forall a, b | 0 <= a < b < |Keys(o[1..])| ensures Keys(o[1..])[a] != Keys(o[1..])[b] {
        assert Keys(o[1..])[a] == ks[a + 1] && Keys(o[1..])[b] == ks[b + 1];
      }
      GetAt(o[1..], i - 1);
    }
  }

  /** `d.get(k)` read as an Option. */
  function Lookup(o: Obj, k: string): (r: Option<Json>)
    ensures r.Some? <==> Has(o, k)
    ensures r.Some? ==> r.value == Get(o, k)
  {
    if Has(o, k) then Some(Get(o, k)) else None
  }

  /** `d[k] = v`: an existing key keeps its position and takes the new value;
      a new key is appended at the end. */
  function Set(o: Obj, k: string, v: Json): (r: Obj)
    ensures Keys(r) == if Has(o, k) then Keys(o) else Keys(o) + [k]
    ensures Has(r, k) && Get(r, k) == v
    ensures forall k' :: k' != k && Has(o, k') ==> Get(r, k') == Get(o, k')
  {
    if o == [] then [(k, v)]
    else if o[0].0 == k then [(k, v)] + o[1..]
    else
      var r := [o[0]] + Set(o[1..], k, v);
      assert Keys(r) == [o[0].0] + Keys(Set(o[1..], k, v));
      assert Has(o, k) == Has(o[1..], k);
      r
  }

  /** The keys after `d[k] = v` are the old ones and `k`. */
  lemma SetHas(o: Obj, k: string, v: Json)
    ensures forall k' :: Has(Set(o, k, v), k') <==> k' == k || Has(o, k')
  {
  }

  /** Appending after a known concatenation. */
  lemma AppendAfter<T>(a: seq<T>, b: seq<T>, c: seq<T>, ab: seq<T>)
    requires ab == a + b
    ensures ab + c == a + (b + c)
  {
  }

  lemma NoDuplicatesAppend<T>(s: seq<T>, x: T)
    requires NoDuplicates(s) && x !in s
    ensures NoDuplicates(s + [x])
  {
    var t := s + [x];
    forall i, j | 0 <= i < j < |t|
      ensures t[i] != t[j]
    {
      if j == |s| {
        assert t[i] == s[i];
      }
    }
  }

  /** Assigning a key never makes a dictionary's keys repeat. */
  lemma SetKeepsDistinct(o: Obj, k: string, v: Json)
    requires DistinctKeys(o)
    ensures DistinctKeys(Set(o, k, v))
  {
    if !Has(o, k) {
      NoDuplicatesAppend(Keys(o), k);
    }
  }

  /** Two dictionaries with the same keys in the same order and the same
      value under every key are the same dictionary. */
  lemma {:induction false} SameEntries(a: Obj, b: Obj)
    requires Keys(a) == Keys(b) && DistinctKeys(a)
    requires forall k :: Has(a, k) ==> Get(a, k) == Get(b, k)
    ensures a == b
  {
    if a != [] {
      var ka := Keys(a);
      assert ka == [a[0].0] + Keys(a[1..]) && Keys(b) == [b[0].0] + Keys(b[1..]);
      assert a[0].0 == ka[0] == b[0].0;
      assert Keys(a[1..]) == ka[1..] == Keys(b[1..]);
      assert Get(a, a[0].0) == a[0].1 && Get(b, b[0].0) == b[0].1;
      assert a[0] == b[0];
      forall i, j | 0 <= i < j < |Keys(a[1..])| ensures Keys(a[1..])[i] != Keys(a[1..])[j] {
        assert Keys(a[1..])[i] == ka[i + 1] && Keys(a[1..])[j] == ka[j + 1];
      }
      forall k | Has(a[1..], k) ensures Has(b[1..], k) && Get(a[1..], k) == Get(b[1..], k) {
        var j :| 0 <= j < |Keys(a[1..])| && Keys(a[1..])[j] == k;
        assert ka[j + 1] == k && ka[0] == a[0].0;
        assert Has(a, k) && k != a[0].0;
      }
      SameEntries(a[1..], b[1..]);
      assert a == [a[0]] + a[1..] && b == [b[0]] + b[1..];
    }
  }

  /** Assigning a key the dictionary lacks appends it. */
  lemma {:induction false} SetFresh(o: Obj, k: string, v: Json)
    requires !Has(o, k)
    ensures Set(o, k, v) == o + [(k, v)]
  {
    if o != [] {
      assert Keys(o) == [o[0].0] + Keys(o[1..]);
      SetFresh(o[1..], k, v);
      assert o + [(k, v)] == [o[0]] + (o[1..] + [(k, v)]);
    }
  }

  /** Python truthiness of a JSON value (`if x:` / `if not x:`). */
  predicate Truthy(v: Json) {
    match v
    case JNull => false
    case JBool(b) => b
    case JInt(i) => i != 0
    case JFloat(f) => f != 0.0
    case JStr(s) => |s| > 0
    case JArr(items) => |items| > 0
    case JObj(fields) => |fields| > 0
  }

  /** Python's `needle in hay` on strings. */
  predicate IsSubstring(needle: string, hay: string)
    decreases |hay|
  {
    needle <= hay || (|hay| > 0 && IsSubstring(needle, hay[1..]))
  }

  /** Python's `key in v` for a string key: key membership for a dict, element
      equality for a list, substring for a string; any other value raises
      TypeError, modelled as None. */
  function PyContains(v: Json, key: string): (r: Option<bool>)
    ensures v.JObj? ==> r == Some(Has(v.fields, key))
    ensures r.None? <==> !(v.JObj? || v.JArr? || v.JStr?)
  {
    match v
    case JObj(fields) => Some(Has(fields, key))
    case JArr(items) => Some(JStr(key) in items)
    case JStr(s) => Some(IsSubstring(key, s))
    case _ => None
  }
}
