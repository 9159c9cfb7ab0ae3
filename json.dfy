/** The JSON-shaped values the docking summary is built from, and the
    `dict`s that are handed to the datastore. A `dict` keeps its insertion
    order, so an object is a sequence of (key, value) members. */
module Json {
  import opened Wrappers

  /** A floating-point affinity score. No arithmetic is done on it here. */
  type Score(==)

  datatype Value =
    | Str(s: string)
    | Int(i: int)
    | Number(x: Score)
    | Object(members: seq<(string, Value)>)

  type Members = seq<(string, Value)>

  function Keys(d: Members): (ks: seq<string>)
    ensures |ks| == |d|
    ensures forall i :: 0 <= i < |d| ==> ks[i] == d[i].0
  {
    if d == [] then [] else [d[0].0] + Keys(d[1..])
  }

  predicate DistinctKeys(d: Members) {
    forall i, j :: 0 <= i < j < |d| ==> d[i].0 != d[j].0
  }

  /** `d.get(k)`: the value stored under `k`, if any. */
  function Lookup(d: Members, k: string): (r: Option<Value>)
    ensures r.Some? <==> k in Keys(d)
  {
    if d == [] then None
    else if d[0].0 == k then Some(d[0].1)
    else Lookup(d[1..], k)
  }

  /** `d[k] = v` on a `dict`: a key already present keeps its position and
      takes the new value; a new key goes to the end. */
  function Insert(d: Members, k: string, v: Value): (r: Members)
    ensures Lookup(r, k) == Some(v)
    ensures k !in Keys(d) ==> r == d + [(k, v)]
    ensures k in Keys(d) ==> Keys(r) == Keys(d)
  {
    if d == [] then [(k, v)]
    else if d[0].0 == k then
      var r := [(k, v)] + d[1..];
      assert r[0] == (k, v) && r[1..] == d[1..];
      r
    else
      var rest := Insert(d[1..], k, v);
      var r := [d[0]] + rest;
      assert r[0] == d[0] && r[1..] == rest;
      r
  }

  /** Assigning one key leaves every other key's value as it was. */
  lemma {:induction false} InsertOthers(d: Members, k: string, v: Value, k': string)
    requires k' != k
    ensures Lookup(Insert(d, k, v), k') == Lookup(d, k')
  {
    if d != [] && d[0].0 != k {
      InsertOthers(d[1..], k, v, k');
    }
  }

  /** Assignment never duplicates a key. */
  lemma InsertDistinct(d: Members, k: string, v: Value)
    requires DistinctKeys(d)
    ensures DistinctKeys(Insert(d, k, v))
  {
    var r := Insert(d, k, v);
    if k in Keys(d) {
      assert forall i :: 0 <= i < |r| ==> r[i].0 == Keys(r)[i] == Keys(d)[i] == d[i].0;
    }
  }

  /** In an object with distinct keys, the member at position `i` is what a lookup of its key finds. */
  lemma {:induction false} LookupAt(d: Members, i: nat)
    requires DistinctKeys(d) && i < |d|
    ensures Lookup(d, d[i].0) == Some(d[i].1)
    decreases i
  {
    if i > 0 {
      assert d[0].0 != d[i].0;
      assert d[1..][i - 1] == d[i];
      LookupAt(d[1..], i - 1);
    }
  }
}
