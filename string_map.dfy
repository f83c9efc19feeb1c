/** A JavaScript `Map<string, string>` as the labeller and the providers use
    it: entries in insertion order, each key at most once. `set` on a present
    key replaces its value in place; `new Map(pairs)` sets the pairs in order,
    so a later pair wins. */
module StringMap {
  import opened Wrappers

  datatype StrMap = StrMap(entries: seq<(string, string)>)

  const Empty := StrMap([])

  predicate HasKey(m: StrMap, k: string) {
    exists i :: 0 <= i < |m.entries| && m.entries[i].0 == k
  }

  function FindEntry(es: seq<(string, string)>, k: string): (r: Option<string>)
    ensures r.None? <==> forall i :: 0 <= i < |es| ==> es[i].0 != k
    ensures r.Some? ==> exists i :: 0 <= i < |es| && es[i] == (k, r.value)
  {
    if es == [] then None
    else if es[0].0 == k then Some(es[0].1)
    else
      var r := FindEntry(es[1..], k);
      assert r.Some? ==> exists i :: 0 <= i < |es[1..]| && es[1..][i] == (k, r.value);
      assert forall i :: 0 <= i < |es[1..]| ==> es[1..][i] == es[i + 1];
      r
  }

  /** `m.get(k)` */
  function Get(m: StrMap, k: string): (r: Option<string>)
    ensures r.Some? <==> HasKey(m, k)
    ensures r.Some? ==> exists i :: 0 <= i < |m.entries| && m.entries[i] == (k, r.value)
  {
    FindEntry(m.entries, k)
  }

  function PutEntry(es: seq<(string, string)>, k: string, v: string): (r: seq<(string, string)>)
    ensures FindEntry(r, k) == Some(v)
    ensures forall k' :: k' != k ==> FindEntry(r, k') == FindEntry(es, k')
  {
    if es == [] then [(k, v)]
    else if es[0].0 == k then [(k, v)] + es[1..]
    else
      var rest := PutEntry(es[1..], k, v);
      assert forall i :: 0 <= i < |es[1..]| ==> es[1..][i] == es[i + 1];
      [es[0]] + rest
  }

  /** `m.set(k, v)`: afterwards `k` maps to `v` and every other key is as
      before. */
  function Put(m: StrMap, k: string, v: string): (r: StrMap)
    ensures Get(r, k) == Some(v)
    ensures forall k' :: k' != k ==> Get(r, k') == Get(m, k')
  {
    StrMap(PutEntry(m.entries, k, v))
  }

  /** `[...m.values()]` */
  function Values(m: StrMap): (r: seq<string>)
    ensures |r| == |m.entries|
    ensures forall i :: 0 <= i < |r| ==> r[i] == m.entries[i].1
  {
    seq(|m.entries|, i requires 0 <= i < |m.entries| => m.entries[i].1)
  }

  /** The value of the last pair with key `k`. */
  function LastValue(pairs: seq<(string, string)>, k: string): (r: Option<string>)
    ensures r.None? <==> forall i :: 0 <= i < |pairs| ==> pairs[i].0 != k
  {
    if pairs == [] then None
    else if pairs[|pairs| - 1].0 == k then Some(pairs[|pairs| - 1].1)
    else
      var front := pairs[..|pairs| - 1];
      assert forall i :: 0 <= i < |front| ==> front[i] == pairs[i];
      LastValue(front, k)
  }

  /** `new Map(pairs)`: each key gets the value of its last pair. */
  function FromPairs(pairs: seq<(string, string)>): (r: StrMap)
    ensures forall k :: Get(r, k) == LastValue(pairs, k)
  {
    if pairs == [] then Empty
    else
      var last := pairs[|pairs| - 1];
      Put(FromPairs(pairs[..|pairs| - 1]), last.0, last.1)
  }
}
