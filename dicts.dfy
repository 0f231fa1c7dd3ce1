/** Insertion-ordered dictionaries, as Python's `dict` behaves: a list of
    key/value pairs with distinct keys, where storing under a present key
    replaces its value in place and storing under a new key appends. */
module Dicts {

  /** The keys of a pair list, in order. */
  function KeysOf<V>(d: seq<(string, V)>): (ks: seq<string>)
    ensures |ks| == |d|
    ensures forall i :: 0 <= i < |d| ==> ks[i] == d[i].0
  {
    if |d| == 0 then [] else KeysOf(d[..|d| - 1]) + [d[|d| - 1].0]
  }

  /** The values of a pair list, in order (Python's `list(d.values())`). */
  function ValuesOf<V>(d: seq<(string, V)>): (vs: seq<V>)
    ensures |vs| == |d|
    ensures forall i :: 0 <= i < |d| ==> vs[i] == d[i].1
  {
    if |d| == 0 then [] else ValuesOf(d[..|d| - 1]) + [d[|d| - 1].1]
  }

  /** No key occurs twice. */
  ghost predicate DistinctKeys<V>(d: seq<(string, V)>)
  {
    forall i, j :: 0 <= i < j < |d| ==> d[i].0 != d[j].0
  }

  /** `k in d`. */
  predicate HasKey<V>(d: seq<(string, V)>, k: string)
  {
    exists i :: 0 <= i < |d| && d[i].0 == k
  }

  /** Position of `k`, searched from the front. */
  function IndexOf<V>(d: seq<(string, V)>, k: string): (i: int)
    ensures -1 <= i < |d|
    ensures i >= 0 ==> d[i].0 == k && forall j :: 0 <= j < i ==> d[j].0 != k
    ensures i == -1 <==> !HasKey(d, k)
  {
    if |d| == 0 then -1
    else if d[0].0 == k then 0
    else
      var j := IndexOf(d[1..], k);
      assert HasKey(d[1..], k) ==> HasKey(d, k) by {
        if HasKey(d[1..], k) {
          var m :| 0 <= m < |d[1..]| && d[1..][m].0 == k;
          assert d[m + 1].0 == k;
        }
      }
      assert HasKey(d, k) ==> HasKey(d[1..], k) by {
        if HasKey(d, k) {
          var m :| 0 <= m < |d| && d[m].0 == k;
          assert m != 0 && d[1..][m - 1].0 == k;
        }
      }
      if j == -1 then -1 else j + 1
  }

  /** `d[k]`, for a present key. */
  function Get<V>(d: seq<(string, V)>, k: string): V
    requires HasKey(d, k)
  {
    d[IndexOf(d, k)].1
  }

  /** `d[k] = v`: replace in place when present, append when new. */
  function Put<V>(d: seq<(string, V)>, k: string, v: V): (r: seq<(string, V)>)
    ensures HasKey(r, k) && Get(r, k) == v
    ensures HasKey(d, k) ==> |r| == |d|
    ensures !HasKey(d, k) ==> r == d + [(k, v)]
  {
    var i := IndexOf(d, k);
    if i == -1 then
      IndexOfLast(d, k, v);
      d + [(k, v)]
    else
      var r := d[i := (k, v)];
      assert r[i].0 == k;
      assert forall j :: 0 <= j < i ==> r[j].0 != k;
      r
  }

  /** The first occurrence of a key new to `d` in `d + [(k, v)]` is the last position. */
  lemma IndexOfLast<V>(d: seq<(string, V)>, k: string, v: V)
    requires !HasKey(d, k)
    ensures IndexOf(d + [(k, v)], k) == |d|
  {
    var r := d + [(k, v)];
    assert r[|d|].0 == k;
    assert forall j :: 0 <= j < |d| ==> r[j].0 != k;
  }

  /** Appending pairs does not move the first occurrence of a present key. */
  lemma IndexOfExtend<V>(d: seq<(string, V)>, e: seq<(string, V)>, k: string)
    requires HasKey(d, k)
    ensures HasKey(d + e, k) && IndexOf(d + e, k) == IndexOf(d, k)
  {
    var i := IndexOf(d, k);
    assert (d + e)[i].0 == k;
  }

  /** Storing under `k` leaves every other key's presence and value as it was. */
  lemma PutOther<V>(d: seq<(string, V)>, k: string, v: V, k': string)
    requires k' != k
    ensures HasKey(Put(d, k, v), k') <==> HasKey(d, k')
    ensures HasKey(d, k') ==> Get(Put(d, k, v), k') == Get(d, k')
  {
    if HasKey(d, k) {
      ReplaceOther(d, IndexOf(d, k), (k, v), k');
    } else if HasKey(d, k') {
      IndexOfExtend(d, [(k, v)], k');
    } else {
      var r := d + [(k, v)];
      assert forall j :: 0 <= j < |r| ==> r[j].0 != k' by {
        assert forall j :: 0 <= j < |d| ==> r[j] == d[j];
      }
    }
  }

  /** Replacing the pair at position i by one with another key leaves the
      presence and value of `k'` as they were. */
  lemma ReplaceOther<V>(d: seq<(string, V)>, i: int, p: (string, V), k': string)
    requires 0 <= i < |d| && d[i].0 != k' && p.0 != k'
    ensures HasKey(d[i := p], k') <==> HasKey(d, k')
    ensures HasKey(d, k') ==> IndexOf(d[i := p], k') == IndexOf(d, k') && Get(d[i := p], k') == Get(d, k')
  {
    var r := d[i := p];
    assert forall j :: 0 <= j < |d| && j != i ==> r[j] == d[j];
    if HasKey(d, k') {
      var m := IndexOf(d, k');
      assert r[m].0 == k';
      var n := IndexOf(r, k');
      assert n <= m && d[n].0 == k';
    }
    if HasKey(r, k') {
      var n := IndexOf(r, k');
      assert d[n].0 == k';
    }
  }

  /** Storing keeps the keys distinct. */
  lemma PutDistinct<V>(d: seq<(string, V)>, k: string, v: V)
    requires DistinctKeys(d)
    ensures DistinctKeys(Put(d, k, v))
  {
    var r := Put(d, k, v);
    if HasKey(d, k) {
      var i := IndexOf(d, k);
      assert r == d[i := (k, v)];
      assert forall j :: 0 <= j < |d| ==> r[j].0 == d[j].0;
    } else {
      assert forall j :: 0 <= j < |d| ==> r[j] == d[j];
    }
  }

  /** Every key `k'` of `d[k] = v` is `k` or a key of `d`. */
  lemma PutKeys<V>(d: seq<(string, V)>, k: string, v: V)
    ensures forall k' :: HasKey(Put(d, k, v), k') ==> k' == k || HasKey(d, k')
  {
    forall k' | k' != k ensures HasKey(Put(d, k, v), k') ==> HasKey(d, k') {
      PutOther(d, k, v, k');
    }
  }

  /** Replaces every entry of a map, one key at a time (the body of a
      `for key, value in d.items(): ...` loop that rewrites each value), by
      `f` of its key and value. */
  method UpdateEach<V>(m: map<string, V>, f: (string, V) -> V) returns (next: map<string, V>)
    ensures next.Keys == m.Keys
    ensures forall u :: u in next ==> next[u] == f(u, m[u])
  {
    next := m;
    var todo := m.Keys;
    while todo != {}
      invariant todo <= m.Keys
      invariant next.Keys == m.Keys
      invariant forall u :: u in next ==> next[u] == if u in todo then m[u] else f(u, m[u])
      decreases |todo|
    {
      var u :| u in todo;
      next := next[u := f(u, m[u])];
      todo := todo - {u};
    }
  }
}
