/**
 * The survey's collected answers: a Python dict from question key to answer
 * text. Python dicts keep insertion order and an assignment to an existing key
 * keeps that key's position, so the dict is an association list with unique keys.
 */
module Answers {
  import opened Wrappers

  type Answers = seq<(string, string)>

  const Empty: Answers := []

  predicate UniqueKeys(a: Answers)
  {
    forall i, j :: 0 <= i < j < |a| ==> a[i].0 != a[j].0
  }

  /** The keys in insertion order. */
  function Keys(a: Answers): (ks: seq<string>)
    ensures |ks| == |a|
    ensures forall i :: 0 <= i < |a| ==> ks[i] == a[i].0
  {
    if a == [] then [] else [a[0].0] + Keys(a[1..])
  }

  /** `d.get(k)`: the value of the first entry with key `k`. */
  function Get(a: Answers, k: string): (r: Option<string>)
    ensures r.None? <==> k !in Keys(a)
    ensures r.Some? ==> exists i :: 0 <= i < |a| && a[i] == (k, r.value)
  {
    if a == [] then None
    else if a[0].0 == k then Some(a[0].1)
    else Get(a[1..], k)
  }

  /** `d.get(k, default)`. */
  function GetOr(a: Answers, k: string, default: string): string
  {
    Get(a, k).GetOr(default)
  }

  /** `d[k] = v`: overwrite in place when the key is present, append otherwise. */
  function Set(a: Answers, k: string, v: string): (r: Answers)
    ensures |r| == if k in Keys(a) then |a| else |a| + 1
  {
    if a == [] then [(k, v)]
    else if a[0].0 == k then [(k, v)] + a[1..]
    else [a[0]] + Set(a[1..], k, v)
  }

  /** After `d[k] = v`, `d[k]` is `v` and every other key reads as before. */
  lemma {:induction false} SetGet(a: Answers, k: string, v: string, k': string)
    ensures Get(Set(a, k, v), k') == if k' == k then Some(v) else Get(a, k')
  {
    if a != [] && a[0].0 != k {
      SetGet(a[1..], k, v, k');
    }
  }

  /** `d[k] = v` keeps the order of the existing keys and appends a new key at the end. */
  lemma {:induction false} SetKeys(a: Answers, k: string, v: string)
    ensures Keys(Set(a, k, v)) == if k in Keys(a) then Keys(a) else Keys(a) + [k]
  {
    if a != [] && a[0].0 != k {
      SetKeys(a[1..], k, v);
      assert Keys(a) == [a[0].0] + Keys(a[1..]);
    }
  }

  /** The dict invariant: keys stay unique under assignment. */
  lemma {:induction false} SetUnique(a: Answers, k: string, v: string)
    requires UniqueKeys(a)
    ensures UniqueKeys(Set(a, k, v))
  {
    var r := Set(a, k, v);
    SetKeys(a, k, v);
    var ks := Keys(a);
    var rs := Keys(r);
    assert forall i, j :: 0 <= i < j < |ks| ==> ks[i] != ks[j];
    forall i, j | 0 <= i < j < |r| ensures r[i].0 != r[j].0 {
      assert rs[i] == r[i].0 && rs[j] == r[j].0;
    }
  }
}
