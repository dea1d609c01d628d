/** `find_similar_keys`: the candidate keys whose similarity to a target field
    name reaches a threshold, best first. The similarity ratio itself (difflib's
    SequenceMatcher on lower-cased strings) is a parameter of the model. */
module Similarity {

  /** A similarity ratio in [0, 1]. */
  type Ratio = r: real | 0.0 <= r <= 1.0

  /** The score of a candidate key against a target field name. */
  type Scorer = (string, string) -> Ratio

  /** The default `threshold=0.6`. */
  const DefaultThreshold: real := 0.6

  /** A candidate key paired with its score. */
  type Match = (string, Ratio)

  ghost predicate SortedByScore(ms: seq<Match>) {
    forall i, j :: 0 <= i < j < |ms| ==> ms[i].1 >= ms[j].1
  }

  /** The matches that carry exactly the score `v`, in their order. */
  function WithScore(ms: seq<Match>, v: real): seq<Match> {
    if ms == [] then []
    else (if ms[0].1 == v then [ms[0]] else []) + WithScore(ms[1..], v)
  }

  /** The loop that collects `(key, score)` for every key at or above the
      threshold, in key order. */
  function Candidates(target: string, keys: seq<string>, sim: Scorer, threshold: real): (ms: seq<Match>)
    ensures forall m :: m in ms <==> m.0 in keys && m.1 == sim(target, m.0) && m.1 >= threshold
    ensures |ms| <= |keys|
  {
    if keys == [] then []
    else
      var score := sim(target, keys[0]);
      var rest := Candidates(target, keys[1..], sim, threshold);
      if score >= threshold then [(keys[0], score)] + rest else rest
  }

  /** Places `x` in front of the first element that does not outscore it. */
  function Insert(x: Match, ys: seq<Match>): (r: seq<Match>)
    ensures multiset(r) == multiset(ys) + multiset{x}
  {
    if ys == [] then [x]
    else if x.1 >= ys[0].1 then [x] + ys
    else
      assert ys == [ys[0]] + ys[1..];
      [ys[0]] + Insert(x, ys[1..])
  }

  lemma {:induction false} InsertSorted(x: Match, ys: seq<Match>)
    requires SortedByScore(ys)
    ensures SortedByScore(Insert(x, ys))
  {
    if ys != [] && x.1 < ys[0].1 {
      var rest := Insert(x, ys[1..]);
      InsertSorted(x, ys[1..]);
      var r := [ys[0]] + rest;
      forall i, j | 0 <= i < j < |r| ensures r[i].1 >= r[j].1 {
        assert r[j] == rest[j - 1];
        if i == 0 {
          assert r[j] in multiset(ys[1..]) + multiset{x};
          if r[j] != x {
            var k :| 0 <= k < |ys[1..]| && ys[1..][k] == r[j];
            assert ys[k + 1] == r[j];
          }
        } else {
          assert r[i] == rest[i - 1];
        }
      }
      assert Insert(x, ys) == r;
    }
  }

  lemma {:induction false} InsertWithScore(x: Match, ys: seq<Match>, v: real)
    ensures WithScore(Insert(x, ys), v) == if x.1 == v then [x] + WithScore(ys, v) else WithScore(ys, v)
  {
    if ys == [] {
      assert WithScore([x], v) == (if x.1 == v then [x] else []) + WithScore([], v);
    } else if x.1 >= ys[0].1 {
      assert ([x] + ys)[1..] == ys;
    } else {
      var rest := Insert(x, ys[1..]);
      InsertWithScore(x, ys[1..], v);
      assert ([ys[0]] + rest)[1..] == rest;
    }
  }

  /** `sorted(ms, key=score, reverse=True)`: Python's sort is stable, so equal
      scores keep their input order (reverse sorting keeps it too). */
  function SortByScore(ms: seq<Match>): (r: seq<Match>)
    ensures multiset(r) == multiset(ms)
    ensures SortedByScore(r)
    ensures forall v :: WithScore(r, v) == WithScore(ms, v)
  {
    if ms == [] then []
    else
      var rest := SortByScore(ms[1..]);
      assert ms == [ms[0]] + ms[1..];
      InsertSorted(ms[0], rest);
      forall v ensures WithScore(Insert(ms[0], rest), v) == WithScore(ms, v) {
        InsertWithScore(ms[0], rest, v);
      }
      Insert(ms[0], rest)
  }

  /** `find_similar_keys(target, keys, threshold)`. */
  function FindSimilarKeys(target: string, keys: seq<string>, sim: Scorer, threshold: real): (r: seq<Match>)
    ensures forall m :: m in r <==> m.0 in keys && m.1 == sim(target, m.0) && m.1 >= threshold
    ensures SortedByScore(r)
    ensures multiset(r) == multiset(Candidates(target, keys, sim, threshold))
    ensures forall v :: WithScore(r, v) == WithScore(Candidates(target, keys, sim, threshold), v)
  {
    var c := Candidates(target, keys, sim, threshold);
    var r := SortByScore(c);
    assert forall m :: m in r <==> m in multiset(r);
    r
  }
}
