/** Values shared by the server and the client model: optional values, results
    carrying an exception, insertion-ordered string-keyed dictionaries (a
    Python `dict` keeps its keys in insertion order, and so does a parsed JSON
    object for non-numeric keys such as the class names; JavaScript lists
    integer-like keys first), and the `startswith` test both sides apply to
    media types. */
module Common {

  datatype Option<T> = None | Some(value: T)

  /** The outcome of a step that may raise: its value, or the exception. */
  datatype Result<T, E> = Ok(value: T) | Err(error: E)

  /** An insertion-ordered dictionary: its entries in insertion order. */
  type Dict<V> = seq<(string, V)>

  /** The keys of a dictionary, in order (Python `d.keys()`; JS `Object.keys(d)`
      for non-numeric keys such as the class names). */
  function Keys<V>(d: Dict<V>): (ks: seq<string>)
    ensures |ks| == |d|
    ensures forall i :: 0 <= i < |d| ==> ks[i] == d[i].0
  {
    if d == [] then [] else [d[0].0] + Keys(d[1..])
  }

  predicate Distinct(s: seq<string>)
  {
    forall i, j :: 0 <= i < j < |s| ==> s[i] != s[j]
  }

  /** What every real dictionary satisfies: no key occurs twice. */
  predicate DistinctKeys<V>(d: Dict<V>)
  {
    Distinct(Keys(d))
  }

  /** `d[k]`, or None when `k` is not a key (Python `d.get(k)`). */
  function Lookup<V>(d: Dict<V>, k: string): (r: Option<V>)
    ensures r.Some? <==> k in Keys(d)
    ensures r.Some? ==> (k, r.value) in d
  {
    if d == [] then None
    else if d[0].0 == k then Some(d[0].1)
    else Lookup(d[1..], k)
  }

  /** The assignment `d[k] = v`: an existing key keeps its position and gets the
      new value, a new key is appended at the end. */
  function Store<V>(d: Dict<V>, k: string, v: V): Dict<V>
  {
    if d == [] then [(k, v)]
    else if d[0].0 == k then [(k, v)] + d[1..]
    else [d[0]] + Store(d[1..], k, v)
  }

  /** Storing a new key appends it. */
  lemma {:induction false} StoreNewKey<V>(d: Dict<V>, k: string, v: V)
    requires k !in Keys(d)
    ensures Store(d, k, v) == d + [(k, v)]
  {
    if d != [] {
      assert Keys(d[1..]) == Keys(d)[1..];
      StoreNewKey(d[1..], k, v);
      assert d + [(k, v)] == [d[0]] + (d[1..] + [(k, v)]);
    }
  }

  /** After `d[k] = v`, `k` maps to `v` and every other key to what it mapped
      to before. */
  lemma {:induction false} StoreLookup<V>(d: Dict<V>, k: string, v: V, x: string)
    ensures Lookup(Store(d, k, v), x) == if x == k then Some(v) else Lookup(d, x)
  {
    if d != [] && d[0].0 != k {
      StoreLookup(d[1..], k, v, x);
      assert Store(d, k, v)[1..] == Store(d[1..], k, v);
    } else if d != [] {
      assert Store(d, k, v)[1..] == d[1..];
    }
  }

  /** In a dictionary without repeated keys, looking up the key of an entry
      finds that entry's value. */
  lemma {:induction false} LookupEntry<V>(d: Dict<V>, i: nat)
    requires DistinctKeys(d) && i < |d|
    ensures Lookup(d, d[i].0) == Some(d[i].1)
  {
    if i > 0 {
      assert Keys(d[1..]) == Keys(d)[1..];
      LookupEntry(d[1..], i - 1);
    }
  }

  /** Two dictionaries whose entries carry the same keys position by position
      have the same key sequence. */
  lemma SameKeys<V, W>(d: Dict<V>, e: Dict<W>)
    requires |d| == |e| && forall j :: 0 <= j < |d| ==> d[j].0 == e[j].0
    ensures Keys(d) == Keys(e)
  {
  }

  /** Python `str.startswith` and JavaScript `String.prototype.startsWith`. */
  predicate StartsWith(s: string, prefix: string)
  {
    |prefix| <= |s| && s[..|prefix|] == prefix
  }
}
