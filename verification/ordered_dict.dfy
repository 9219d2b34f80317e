/** An insertion-ordered dictionary with string keys: a sequence of entries in which overwriting a
    key keeps its position and a new key goes to the end. */
module OrderedDict {
  datatype Option<+T> = None | Some(value: T)

  datatype Entry<+V> = Entry(key: string, value: V)

  predicate Distinct<V>(d: seq<Entry<V>>) {
    forall i, j :: 0 <= i < j < |d| ==> d[i].key != d[j].key
  }

  predicate Has<V>(d: seq<Entry<V>>, k: string) {
    exists i :: 0 <= i < |d| && d[i].key == k
  }

  /** Position of the first entry with key `k`; the length when there is none. */
  function IndexOf<V>(d: seq<Entry<V>>, k: string): (r: nat)
    ensures r <= |d|
    ensures r < |d| ==> d[r].key == k
    ensures forall i :: 0 <= i < r ==> d[i].key != k
  {
    if d == [] then 0 else if d[0].key == k then 0 else 1 + IndexOf(d[1..], k)
  }

  function Put<V>(d: seq<Entry<V>>, k: string, v: V): seq<Entry<V>> {
    var i := IndexOf(d, k);
    if i < |d| then d[i := Entry(k, v)] else d + [Entry(k, v)]
  }

  function Get<V>(d: seq<Entry<V>>, k: string): Option<V> {
    var i := IndexOf(d, k);
    if i < |d| then Some(d[i].value) else None
  }

  function PutAll<V>(d: seq<Entry<V>>, es: seq<Entry<V>>): seq<Entry<V>> {
    if es == [] then d
    else Put(PutAll(d, es[..|es| - 1]), es[|es| - 1].key, es[|es| - 1].value)
  }

  /** The value of the last entry with key `k`. */
  function LastOf<V>(es: seq<Entry<V>>, k: string): Option<V> {
    if es == [] then None
    else if es[|es| - 1].key == k then Some(es[|es| - 1].value)
    else LastOf(es[..|es| - 1], k)
  }

  /** The values as entries under their keys, in order. */
  function EntriesBy<V>(vs: seq<V>, key: V -> string): (r: seq<Entry<V>>)
    ensures |r| == |vs|
    ensures forall i :: 0 <= i < |r| ==> r[i] == Entry(key(vs[i]), vs[i])
  {
    seq(|vs|, i requires 0 <= i < |vs| => Entry(key(vs[i]), vs[i]))
  }

  function Values<V>(d: seq<Entry<V>>): (r: seq<V>)
    ensures |r| == |d|
    ensures forall i :: 0 <= i < |d| ==> r[i] == d[i].value
  {
    seq(|d|, i requires 0 <= i < |d| => d[i].value)
  }

  lemma PutGet<V>(d: seq<Entry<V>>, k: string, v: V, q: string)
    requires Distinct(d)
    ensures Distinct(Put(d, k, v))
    ensures Get(Put(d, k, v), q) == if q == k then Some(v) else Get(d, q)
  {
    var e := Put(d, k, v);
    var i, j := IndexOf(d, q), IndexOf(e, q);
    if q != k {
      if i < |d| { assert e[i].key == q && j == i; }
      if j < |e| { assert e[j].key == q && j < |d| && d[j].key == q; }
    } else if i < |d| {
      assert e[i].key == q;
    } else {
      assert e[|d|].key == q;
    }
  }

  /** Filling a dictionary in order: the last write to a key wins, everything else is kept. */
  lemma {:induction false} PutAllGet<V>(d: seq<Entry<V>>, es: seq<Entry<V>>, q: string)
    requires Distinct(d)
    ensures Distinct(PutAll(d, es))
    ensures Get(PutAll(d, es), q) == if LastOf(es, q).Some? then LastOf(es, q) else Get(d, q)
  {
    if es != [] {
      var n := |es| - 1;
      PutAllGet(d, es[..n], q);
      PutGet(PutAll(d, es[..n]), es[n].key, es[n].value, q);
    }
  }

  lemma {:induction false} PutAllAppend<V>(d: seq<Entry<V>>, a: seq<Entry<V>>, b: seq<Entry<V>>)
    ensures PutAll(d, a + b) == PutAll(PutAll(d, a), b)
  {
    if b == [] {
      assert a + b == a;
    } else {
      var n := |b| - 1;
      assert (a + b)[..|a + b| - 1] == a + b[..n];
      PutAllAppend(d, a, b[..n]);
    }
  }

  /** Entries whose keys are all different build themselves, in the same order. */
  lemma {:induction false} PutAllDistinct<V>(es: seq<Entry<V>>)
    requires Distinct(es)
    ensures PutAll([], es) == es
  {
    if es != [] {
      var n := |es| - 1;
      PutAllDistinct(es[..n]);
      assert es == es[..n] + [es[n]];
    }
  }

  /** Overwriting only existing keys leaves every key where it was. */
  lemma {:induction false} PutAllInPlace<V>(d: seq<Entry<V>>, es: seq<Entry<V>>)
    requires forall j :: 0 <= j < |es| ==> Has(d, es[j].key)
    ensures |PutAll(d, es)| == |d|
    ensures forall i :: 0 <= i < |d| ==> PutAll(d, es)[i].key == d[i].key
  {
    if es != [] {
      var n := |es| - 1;
      PutAllInPlace(d, es[..n]);
      assert Has(d, es[n].key);
    }
  }

  lemma GetAt<V>(d: seq<Entry<V>>, i: nat)
    requires Distinct(d) && i < |d|
    ensures IndexOf(d, d[i].key) == i && Get(d, d[i].key) == Some(d[i].value)
  {
  }

  lemma {:induction false} LastOfIn<V>(es: seq<Entry<V>>, k: string)
    ensures LastOf(es, k).Some? <==> Has(es, k)
    ensures LastOf(es, k).Some? ==> exists i :: 0 <= i < |es| && es[i] == Entry(k, LastOf(es, k).value)
  {
    if es != [] {
      var n := |es| - 1;
      LastOfIn(es[..n], k);
      if es[n].key == k {
        assert es[n] == Entry(k, es[n].value);
      } else if Has(es, k) {
        var i :| 0 <= i < |es| && es[i].key == k;
        assert es[..n][i].key == k;
      }
    }
  }
}
