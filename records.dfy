/** A JavaScript object with string values, as an ordered list of entries: the
    order is the insertion order `Object.entries` reports, and `{...obj, [k]: v}`
    keeps an existing key in its place and appends a new one. */
module Records {
  import opened Options

  type Entries = seq<(string, string)>

  function Keys(es: Entries): (ks: seq<string>)
    ensures |ks| == |es|
    ensures forall i :: 0 <= i < |es| ==> ks[i] == es[i].0
  {
    if es == [] then [] else [es[0].0] + Keys(es[1..])
  }

  predicate UniqueKeys(es: Entries) {
    forall i, j :: 0 <= i < j < |es| ==> es[i].0 != es[j].0
  }

  /** `obj[k]`: the value of the first entry with key `k`, if any. */
  function Get(es: Entries, k: string): (r: Option<string>)
    ensures r.Some? <==> k in Keys(es)
    ensures r.Some? ==> (k, r.value) in es
  {
    if es == [] then None
    else if es[0].0 == k then Some(es[0].1)
    else Get(es[1..], k)
  }

  /** `{...es, [k]: v}`. */
  function Put(es: Entries, k: string, v: string): Entries {
    if es == [] then [(k, v)]
    else if es[0].0 == k then [(k, v)] + es[1..]
    else [es[0]] + Put(es[1..], k, v)
  }

  /** After `Put`, `k` reads back as `v` and every other key reads as before. */
  lemma {:induction false} GetPut(es: Entries, k: string, v: string, k': string)
    ensures Get(Put(es, k, v), k') == if k' == k then Some(v) else Get(es, k')
  {
    if es != [] && es[0].0 != k {
      GetPut(es[1..], k, v, k');
      assert Put(es, k, v)[1..] == Put(es[1..], k, v);
    }
  }

  /** `Put` keeps existing keys in place and appends a new key at the end. */
  lemma {:induction false} PutKeys(es: Entries, k: string, v: string)
    ensures Keys(Put(es, k, v)) == if k in Keys(es) then Keys(es) else Keys(es) + [k]
  {
    if es != [] && es[0].0 != k {
      PutKeys(es[1..], k, v);
      assert Keys(es) == [es[0].0] + Keys(es[1..]);
      assert Put(es, k, v)[1..] == Put(es[1..], k, v);
    }
  }

  /** `Put` never duplicates a key. */
  lemma {:induction false} PutUnique(es: Entries, k: string, v: string)
    requires UniqueKeys(es)
    ensures UniqueKeys(Put(es, k, v))
  {
    PutKeys(es, k, v);
    var r := Put(es, k, v);
    assert forall i :: 0 <= i < |r| ==> Keys(r)[i] == r[i].0;
    assert forall i :: 0 <= i < |es| ==> Keys(es)[i] == es[i].0;
  }
}
