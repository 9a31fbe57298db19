/**
 * JavaScript plain objects used as dictionaries. Keys keep their insertion order,
 * which is the order `Object.keys` reports for the non-numeric keys used here, and
 * assigning to a key that is already present replaces its value where it stands.
 */
module JsObject {
  import opened Wrappers

  type Dict<V> = seq<(string, V)>

  /** `Object.keys(d)` */
  function Keys<V>(d: Dict<V>): (ks: seq<string>)
    ensures |ks| == |d|
    ensures forall i :: 0 <= i < |d| ==> ks[i] == d[i].0
  {
    if d == [] then [] else [d[0].0] + Keys(d[1..])
  }

  /** `d[k]`, with None for a missing key. */
  function Lookup<V>(d: Dict<V>, k: string): (r: Option<V>)
    ensures r.Some? <==> k in Keys(d)
    ensures r.Some? ==> (k, r.value) in d
  {
    if d == [] then None
    else if d[0].0 == k then Some(d[0].1)
    else Lookup(d[1..], k)
  }

  /** `k in d` */
  predicate Has<V>(d: Dict<V>, k: string) {
    Lookup(d, k).Some?
  }

  /** `d[k]` for a key that is present. */
  function Get<V>(d: Dict<V>, k: string): V
    requires Has(d, k)
  {
    Lookup(d, k).value
  }

  /** No key appears twice: every dictionary built with Put has this shape. */
  predicate UniqueKeys<V>(d: Dict<V>) {
    forall i, j :: 0 <= i < j < |d| ==> d[i].0 != d[j].0
  }

  /** `d[k] = v`: a new key goes last, an existing key keeps its place. */
  function Put<V>(d: Dict<V>, k: string, v: V): (r: Dict<V>)
    ensures Keys(r) == if k in Keys(d) then Keys(d) else Keys(d) + [k]
    ensures Lookup(r, k) == Some(v)
    ensures forall k' :: k' != k ==> Lookup(r, k') == Lookup(d, k')
  {
    if d == [] then [(k, v)]
    else if d[0].0 == k then [(k, v)] + d[1..]
    else [d[0]] + Put(d[1..], k, v)
  }

  /** Assigning keeps every key unique. */
  lemma {:induction false} PutUnique<V>(d: Dict<V>, k: string, v: V)
    requires UniqueKeys(d)
    ensures UniqueKeys(Put(d, k, v))
  {
    var r := Put(d, k, v);
    forall i, j | 0 <= i < j < |r| ensures r[i].0 != r[j].0 {
      assert Keys(r)[i] == r[i].0 && Keys(r)[j] == r[j].0;
      if j < |d| {
        assert Keys(d)[i] == d[i].0 && Keys(d)[j] == d[j].0;
      } else {
        assert !Has(d, k) && Keys(r)[j] == k;
        assert Keys(d)[i] in Keys(d);
      }
    }
  }

  /** The keys of two dictionaries laid end to end. */
  lemma {:induction false} KeysConcat<V>(a: Dict<V>, b: Dict<V>)
    ensures Keys(a + b) == Keys(a) + Keys(b)
  {
    assert forall i :: 0 <= i < |a + b| ==> Keys(a + b)[i] == (Keys(a) + Keys(b))[i];
  }

  predicate Fills<V>(e: Option<(string, V)>, key: string) {
    e.Some? && e.value.0 == key
  }

  /** The table left by `d[key] = value` for each entry in turn, starting from `{}`. */
  function Table<V>(es: seq<Option<(string, V)>>): Dict<V> {
    if es == [] then []
    else
      var prev := Table(es[..|es| - 1]);
      match es[|es| - 1]
      case None => prev
      case Some(e) => Put(prev, e.0, e.1)
  }

  /** A key is in the table exactly when some entry fills it. */
  lemma {:induction false} TableHas<V>(es: seq<Option<(string, V)>>, key: string)
    ensures Has(Table(es), key) <==> exists i :: 0 <= i < |es| && Fills(es[i], key)
  {
    assert Filled(es, key) <==> exists i :: 0 <= i < |es| && Fills(es[i], key);
    if es != [] {
      var init := es[..|es| - 1];
      TableHas(init, key);
      TableStep(es, key);
      FillsSplit(es, key);
    }
  }

  /** One more entry adds its key, if any, and keeps the others. */
  lemma {:induction false} TableStep<V>(es: seq<Option<(string, V)>>, key: string)
    requires es != []
    ensures Has(Table(es), key) <==> Has(Table(es[..|es| - 1]), key) || Fills(es[|es| - 1], key)
  {
  }

  /** Some entry fills `key`. */
  predicate Filled<V>(es: seq<Option<(string, V)>>, key: string) {
    exists i :: 0 <= i < |es| && Fills(es[i], key)
  }

  lemma {:induction false} FillsSplit<V>(es: seq<Option<(string, V)>>, key: string)
    requires es != []
    ensures Filled(es, key) <==> Filled(es[..|es| - 1], key) || Fills(es[|es| - 1], key)
  {
    var init := es[..|es| - 1];
    if i :| 0 <= i < |es| && Fills(es[i], key) {
      if i < |init| {
        assert Fills(init[i], key);
      }
    }
    if i :| 0 <= i < |init| && Fills(init[i], key) {
      assert Fills(es[i], key);
    }
  }

  /** A key holds the value of the last entry that fills it. */
  lemma {:induction false} TableLast<V>(es: seq<Option<(string, V)>>, key: string, i: nat)
    requires i < |es| && Fills(es[i], key)
    requires forall j :: i < j < |es| ==> !Fills(es[j], key)
    ensures Lookup(Table(es), key) == Some(es[i].value.1)
  {
    var init := es[..|es| - 1];
    if i < |es| - 1 {
      assert Lookup(Table(es), key) == Lookup(Table(init), key);
      TableLast(init, key, i);
    }
  }

  /** Folding one entry more assigns it to the table of the others. */
  lemma {:induction false} TableSnoc<V>(es: seq<Option<(string, V)>>, e: Option<(string, V)>)
    ensures Table(es + [e]) == if e.Some? then Put(Table(es), e.value.0, e.value.1) else Table(es)
  {
    assert (es + [e])[..|es|] == es;
  }

  /** Some entry of `a + b` fills `key` exactly when one of `a` or one of `b` does. */
  lemma {:induction false} FilledConcat<V>(a: seq<Option<(string, V)>>, b: seq<Option<(string, V)>>, key: string)
    ensures Filled(a + b, key) <==> Filled(a, key) || Filled(b, key)
  {
    if Filled(a + b, key) {
      var i :| 0 <= i < |a + b| && Fills((a + b)[i], key);
      if i < |a| {
        assert Fills(a[i], key);
      } else {
        assert Fills(b[i - |a|], key);
      }
    }
    if Filled(a, key) {
      var i :| 0 <= i < |a| && Fills(a[i], key);
      assert Fills((a + b)[i], key);
    }
    if Filled(b, key) {
      var i :| 0 <= i < |b| && Fills(b[i], key);
      assert Fills((a + b)[|a| + i], key);
    }
  }

  /** `Filled` on a list of up to six entries, entry by entry. */
  lemma {:induction false} FilledSmall<V>(es: seq<Option<(string, V)>>, key: string)
    requires |es| <= 6
    ensures Filled(es, key) <==>
              (|es| > 0 && Fills(es[0], key)) || (|es| > 1 && Fills(es[1], key)) ||
              (|es| > 2 && Fills(es[2], key)) || (|es| > 3 && Fills(es[3], key)) ||
              (|es| > 4 && Fills(es[4], key)) || (|es| > 5 && Fills(es[5], key))
  {
    if Filled(es, key) {
      var i :| 0 <= i < |es| && Fills(es[i], key);
      assert i == 0 || i == 1 || i == 2 || i == 3 || i == 4 || i == 5;
    }
  }

  /** The table is empty exactly when no entry fills anything. */
  lemma {:induction false} TableEmpty<V>(es: seq<Option<(string, V)>>)
    ensures Table(es) == [] <==> forall i :: 0 <= i < |es| ==> es[i].None?
  {
    if es != [] {
      var init := es[..|es| - 1];
      TableEmpty(init);
      if es[|es| - 1].Some? {
        var e := es[|es| - 1].value;
        assert Lookup(Table(es), e.0) == Some(e.1);
      } else {
        assert forall i :: 0 <= i < |init| ==> init[i] == es[i];
      }
    }
  }

  /** When every entry filling `key` carries `v`, a filled `key` holds `v`. */
  lemma {:induction false} TableConst<V>(es: seq<Option<(string, V)>>, key: string, v: V)
    requires forall i :: 0 <= i < |es| && Fills(es[i], key) ==> es[i].value.1 == v
    requires Filled(es, key)
    ensures Lookup(Table(es), key) == Some(v)
  {
    var init := es[..|es| - 1];
    if !Fills(es[|es| - 1], key) {
      FillsSplit(es, key);
      assert forall i :: 0 <= i < |init| ==> init[i] == es[i];
      TableConst(init, key, v);
    }
  }

  /** A table keeps every key once. */
  lemma {:induction false} TableUnique<V>(es: seq<Option<(string, V)>>)
    ensures UniqueKeys(Table(es))
  {
    if es != [] {
      TableUnique(es[..|es| - 1]);
      if es[|es| - 1].Some? {
        PutUnique(Table(es[..|es| - 1]), es[|es| - 1].value.0, es[|es| - 1].value.1);
      }
    }
  }

  /** In a dictionary without repeated keys, each entry is what its key looks up. */
  lemma {:induction false} UniqueLookup<V>(d: Dict<V>, i: nat)
    requires UniqueKeys(d) && i < |d|
    ensures Lookup(d, d[i].0) == Some(d[i].1)
  {
    if i > 0 {
      assert d[0].0 != d[i].0;
      UniqueTail(d);
      UniqueLookup(d[1..], i - 1);
    }
  }

  /** Dropping the first entry keeps the keys unique. */
  lemma {:induction false} UniqueTail<V>(d: Dict<V>)
    requires UniqueKeys(d) && d != []
    ensures UniqueKeys(d[1..])
  {
    forall a, b | 0 <= a < b < |d[1..]| ensures d[1..][a].0 != d[1..][b].0 {
      assert d[1..][a] == d[a + 1] && d[1..][b] == d[b + 1];
    }
  }

  /** Looking a key up in a dictionary with a known first entry. */
  lemma {:induction false} LookupCons<V>(e: (string, V), rest: Dict<V>, k: string)
    ensures Lookup([e] + rest, k) == if e.0 == k then Some(e.1) else Lookup(rest, k)
  {
    assert ([e] + rest)[1..] == rest;
  }
}
