/**
 * Query parameters as the SDK builds them: a PHP array with string keys,
 * which keeps insertion order and holds each key once.
 */
module Params {
  import opened Wrappers

  /** The PHP values that reach a query here: null, booleans and strings. */
  datatype Value = Null | Bool(b: bool) | Str(s: string)

  datatype Entry = Entry(key: string, value: Value)

  type Params = seq<Entry>

  /** The keys in order. */
  function Keys(p: Params): (ks: seq<string>)
    ensures |ks| == |p|
  {
    if p == [] then [] else [p[0].key] + Keys(p[1..])
  }

  /** `$p[$k] ?? null`, as an Option. */
  function Lookup(p: Params, k: string): (r: Option<Value>)
    ensures r.Some? <==> k in Keys(p)
  {
    if p == [] then None
    else if p[0].key == k then Some(p[0].value)
    else Lookup(p[1..], k)
  }

  predicate NoDuplicates(ks: seq<string>) {
    forall i, j :: 0 <= i < j < |ks| ==> ks[i] != ks[j]
  }

  /**
   * `$p[$k] = $v`: an existing key is overwritten in place, a new key is
   * appended; every other key keeps its value.
   */
  function Put(p: Params, k: string, v: Value): (r: Params)
    ensures Keys(r) == if k in Keys(p) then Keys(p) else Keys(p) + [k]
    ensures Lookup(r, k) == Some(v)
    ensures forall j :: j != k ==> Lookup(r, j) == Lookup(p, j)
    ensures NoDuplicates(Keys(p)) ==> NoDuplicates(Keys(r))
  {
    if p == [] then [Entry(k, v)]
    else if p[0].key == k then [Entry(k, v)] + p[1..]
    else [p[0]] + Put(p[1..], k, v)
  }

  /** A four-entry array literal with distinct keys: its keys in order, each with its value. */
  lemma FourEntries(a: Entry, b: Entry, c: Entry, d: Entry)
    requires NoDuplicates([a.key, b.key, c.key, d.key])
    ensures Keys([a, b, c, d]) == [a.key, b.key, c.key, d.key]
    ensures Lookup([a, b, c, d], a.key) == Some(a.value)
    ensures Lookup([a, b, c, d], b.key) == Some(b.value)
    ensures Lookup([a, b, c, d], c.key) == Some(c.value)
    ensures Lookup([a, b, c, d], d.key) == Some(d.value)
  {
    var ks := [a.key, b.key, c.key, d.key];
    assert ks[0] != ks[1] && ks[0] != ks[2] && ks[0] != ks[3];
    assert ks[1] != ks[2] && ks[1] != ks[3] && ks[2] != ks[3];
    var p3 := [d];
    var p2 := [c] + p3;
    var p1 := [b] + p2;
    var p := [a] + p1;
    assert p == [a, b, c, d];
    assert p[1..] == p1 && p1[1..] == p2 && p2[1..] == p3 && p3[1..] == [];
    assert Keys(p3) == [d.key];
    assert Keys(p2) == [c.key, d.key];
    assert Keys(p1) == [b.key, c.key, d.key];
    assert Lookup(p3, d.key) == Some(d.value);
    assert Lookup(p2, c.key) == Some(c.value) && Lookup(p2, d.key) == Some(d.value);
    assert Lookup(p1, b.key) == Some(b.value) && Lookup(p1, c.key) == Some(c.value);
    assert Lookup(p1, d.key) == Some(d.value);
  }
}
