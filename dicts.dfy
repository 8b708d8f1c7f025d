/**
 * Insertion-ordered dictionaries with string keys, as Python's `dict` behaves:
 * assigning to a key that is already present replaces its value where it stands,
 * assigning to a new key appends it, and iteration follows insertion order.
 */
module Dicts {
  import opened Wrappers

  /** One entry of a dictionary. */
  datatype Pair<V> = Pair(key: string, val: V)

  /** The keys, in iteration order. */
  function Keys<V>(d: seq<Pair<V>>): (ks: seq<string>)
    ensures |ks| == |d|
    ensures forall i :: 0 <= i < |d| ==> ks[i] == d[i].key
  {
    if d == [] then [] else [d[0].key] + Keys(d[1..])
  }

  /** No key occurs twice: what every Python dict satisfies. */
  ghost predicate Unique<V>(d: seq<Pair<V>>) {
    forall i, j :: 0 <= i < j < |d| ==> d[i].key != d[j].key
  }

  /** `d.get(k)`: the value stored under `k`, if any (the first entry with that key). */
  function Get<V>(d: seq<Pair<V>>, k: string): (r: Option<V>)
    ensures r.None? <==> k !in Keys(d)
  {
    if d == [] then None
    else if d[0].key == k then Some(d[0].val)
    else Get(d[1..], k)
  }

  /** `d[k] = v`. */
  function Put<V>(d: seq<Pair<V>>, k: string, v: V): (r: seq<Pair<V>>)
    ensures Get(r, k) == Some(v)
    ensures Keys(r) == if k in Keys(d) then Keys(d) else Keys(d) + [k]
    decreases |d|
  {
    if d == [] then [Pair(k, v)]
    else if d[0].key == k then
      var r := [Pair(k, v)] + d[1..];
      assert r[0].key == k && r[1..] == d[1..];
      r
    else
      var rest := Put(d[1..], k, v);
      var r := [d[0]] + rest;
      assert r[0] == d[0] && r[1..] == rest;
      KeysStep(d[0].key, Keys(d[1..]), Keys(rest), k);
      r
  }

  /** The key list of an assignment below a different first key. */
  lemma KeysStep(x: string, ks: seq<string>, kr: seq<string>, k: string)
    requires x != k
    requires kr == if k in ks then ks else ks + [k]
    ensures [x] + kr == if k in [x] + ks then [x] + ks else [x] + ks + [k]
  {
    assert k in [x] + ks <==> k in ks;
  }

  /** Assigning to `k` leaves every other key's value as it was. */
  lemma {:induction false} GetPutOther<V>(d: seq<Pair<V>>, k: string, v: V, k': string)
    requires k' != k
    ensures Get(Put(d, k, v), k') == Get(d, k')
    decreases |d|
  {
    if d != [] && d[0].key != k && d[0].key != k' {
      GetPutOther(d[1..], k, v, k');
    }
  }

  /** Assignment keeps the keys distinct. */
  lemma PutUnique<V>(d: seq<Pair<V>>, k: string, v: V)
    requires Unique(d)
    ensures Unique(Put(d, k, v))
  {
    var r := Put(d, k, v);
    forall i, j | 0 <= i < j < |r| ensures r[i].key != r[j].key {
      assert Keys(r)[i] == r[i].key && Keys(r)[j] == r[j].key;
      if k !in Keys(d) && j == |d| {
        assert Keys(d)[i] == r[i].key;
      } else {
        assert Keys(d)[i] == r[i].key && Keys(d)[j] == r[j].key;
      }
    }
  }

  /** `d.update(e)`: every entry of `e` assigned into `d`, in order. */
  function Update<V>(d: seq<Pair<V>>, e: seq<Pair<V>>): (r: seq<Pair<V>>)
    decreases |e|
  {
    if e == [] then d else Update(Put(d, e[0].key, e[0].val), e[1..])
  }

  /** Updating keeps the keys distinct. */
  lemma {:induction false} UpdateUnique<V>(d: seq<Pair<V>>, e: seq<Pair<V>>)
    requires Unique(d)
    ensures Unique(Update(d, e))
    decreases |e|
  {
    if e != [] {
      PutUnique(d, e[0].key, e[0].val);
      UpdateUnique(Put(d, e[0].key, e[0].val), e[1..]);
    }
  }

  /** The value of the last entry of `e` with key `k`: the one that survives assignment in order. */
  function LastVal<V>(e: seq<Pair<V>>, k: string): Option<V>
    decreases |e|
  {
    if e == [] then None
    else if e[|e| - 1].key == k then Some(e[|e| - 1].val)
    else LastVal(e[..|e| - 1], k)
  }

  /** `LastVal` read from the front: the tail decides when it mentions `k`. */
  lemma {:induction false} LastValCons<V>(e: seq<Pair<V>>, k: string)
    requires e != []
    ensures LastVal(e, k) == if LastVal(e[1..], k).Some? then LastVal(e[1..], k)
                             else if e[0].key == k then Some(e[0].val) else None
    decreases |e|
  {
    if |e| > 1 && e[|e| - 1].key != k {
      assert e[1..][..|e[1..]| - 1] == e[..|e| - 1][1..];
      LastValCons(e[..|e| - 1], k);
    }
  }

  /** After `d.update(e)`, a key holds the last value `e` gives it, or else what `d` held. */
  lemma {:induction false} GetUpdate<V>(d: seq<Pair<V>>, e: seq<Pair<V>>, k: string)
    ensures Get(Update(d, e), k) == if LastVal(e, k).Some? then LastVal(e, k) else Get(d, k)
    decreases |e|
  {
    if e != [] {
      var d' := Put(d, e[0].key, e[0].val);
      GetUpdate(d', e[1..], k);
      LastValCons(e, k);
      if e[0].key != k {
        GetPutOther(d, e[0].key, e[0].val, k);
      }
    }
  }

  /** Updating with `a` and then with `b` is updating with `a + b`. */
  lemma {:induction false} UpdateAppend<V>(d: seq<Pair<V>>, a: seq<Pair<V>>, b: seq<Pair<V>>)
    ensures Update(Update(d, a), b) == Update(d, a + b)
    decreases |a|
  {
    if a == [] {
      assert a + b == b;
    } else {
      assert (a + b)[0] == a[0] && (a + b)[1..] == a[1..] + b;
      UpdateAppend(Put(d, a[0].key, a[0].val), a[1..], b);
    }
  }

  /** The tail of a dictionary with distinct keys has distinct keys. */
  lemma UniqueTail<V>(d: seq<Pair<V>>)
    requires Unique(d) && d != []
    ensures Unique(d[1..])
  {
    var t := d[1..];
    forall a, b | 0 <= a < b < |t| ensures t[a].key != t[b].key {
      assert t[a] == d[a + 1] && t[b] == d[b + 1];
    }
  }

  /** Assigning a key the dictionary does not hold appends it. */
  lemma {:induction false} PutFresh<V>(d: seq<Pair<V>>, k: string, v: V)
    requires k !in Keys(d)
    ensures Put(d, k, v) == d + [Pair(k, v)]
    decreases |d|
  {
    if d != [] {
      KeysTail(d, k);
      PutFresh(d[1..], k, v);
      PutCons(d, k, v);
      ConsAppend(d, [Pair(k, v)]);
    }
  }

  /** A key missing from `d` is not its first key and is missing from its tail. */
  lemma KeysTail<V>(d: seq<Pair<V>>, k: string)
    requires d != [] && k !in Keys(d)
    ensures d[0].key != k && k !in Keys(d[1..])
  {
    assert Keys(d) == [d[0].key] + Keys(d[1..]);
  }

  /** Assigning below a different first key keeps that first entry. */
  lemma PutCons<V>(d: seq<Pair<V>>, k: string, v: V)
    requires d != [] && d[0].key != k
    ensures Put(d, k, v) == [d[0]] + Put(d[1..], k, v)
  {
  }

  /** Appending after the first element is appending to the whole. */
  lemma ConsAppend<T>(d: seq<T>, e: seq<T>)
    requires d != []
    ensures [d[0]] + (d[1..] + e) == d + e
  {
    assert d == [d[0]] + d[1..];
  }

  /** Moving the head of `e` to the end of `d` keeps `d + e`. */
  lemma AppendHead<V>(d: seq<Pair<V>>, e: seq<Pair<V>>)
    requires e != []
    ensures (d + [e[0]]) + e[1..] == d + e
  {
  }

  /** Updating with entries whose keys are distinct and new to `d` appends them. */
  lemma {:induction false} UpdateFresh<V>(d: seq<Pair<V>>, e: seq<Pair<V>>)
    requires Unique(e)
    requires forall i :: 0 <= i < |e| ==> e[i].key !in Keys(d)
    ensures Update(d, e) == d + e
    decreases |e|
  {
    if e == [] {
      assert d + e == d;
    } else {
      PutFresh(d, e[0].key, e[0].val);
      var d' := d + [e[0]];
      var e' := e[1..];
      assert Keys(d') == Keys(d) + [e[0].key];
      assert Unique(e') by {
        forall a, b | 0 <= a < b < |e'| ensures e'[a].key != e'[b].key {
          assert e'[a] == e[a + 1] && e'[b] == e[b + 1];
        }
      }
      forall i | 0 <= i < |e'| ensures e'[i].key !in Keys(d') {
        assert e'[i] == e[i + 1];
      }
      UpdateFresh(d', e');
      assert Update(d, e) == Update(d', e');
      AppendHead(d, e);
    }
  }

  /** `LastVal` finds a value exactly for the keys `e` mentions. */
  lemma {:induction false} LastValIn<V>(e: seq<Pair<V>>, k: string)
    ensures LastVal(e, k).Some? <==> k in Keys(e)
    decreases |e|
  {
    if e != [] {
      var f := e[..|e| - 1];
      LastValIn(f, k);
      KeysLast(e);
      assert k in Keys(f) + [e[|e| - 1].key] <==> k in Keys(f) || k == e[|e| - 1].key;
    }
  }

  /** The keys of a nonempty dictionary end with the key of its last entry. */
  lemma {:induction false} KeysLast<V>(e: seq<Pair<V>>)
    requires e != []
    ensures Keys(e) == Keys(e[..|e| - 1]) + [e[|e| - 1].key]
    decreases |e|
  {
    var init := e[..|e| - 1];
    if |e| == 1 {
      assert init == [];
    } else {
      var t := e[1..];
      KeysLast(t);
      assert t[..|t| - 1] == init[1..] && t[|t| - 1] == e[|e| - 1];
      assert init[0] == e[0];
      assert Keys(init) == [e[0].key] + Keys(init[1..]);
      assert Keys(e) == [e[0].key] + Keys(t);
    }
  }

  /** The keys after `d.update(e)` are those of `d` and those of `e`. */
  lemma UpdateKeys<V>(d: seq<Pair<V>>, e: seq<Pair<V>>, k: string)
    ensures k in Keys(Update(d, e)) <==> k in Keys(d) || k in Keys(e)
  {
    GetUpdate(d, e, k);
    LastValIn(e, k);
  }

  /** The last value in `a + b` comes from `b` when `b` mentions the key. */
  lemma {:induction false} LastValAppend<V>(a: seq<Pair<V>>, b: seq<Pair<V>>, k: string)
    ensures LastVal(a + b, k) == if LastVal(b, k).Some? then LastVal(b, k) else LastVal(a, k)
    decreases |b|
  {
    if b == [] {
      assert a + b == a;
    } else {
      assert (a + b)[..|a + b| - 1] == a + b[..|b| - 1];
      LastValAppend(a, b[..|b| - 1], k);
    }
  }

  /** In a dictionary with distinct keys, the last entry for a key is the first. */
  lemma {:induction false} LastValUnique<V>(d: seq<Pair<V>>, k: string)
    requires Unique(d)
    ensures LastVal(d, k) == Get(d, k)
    decreases |d|
  {
    if d != [] {
      LastValCons(d, k);
      var t := d[1..];
      UniqueTail(d);
      if d[0].key == k {
        assert k !in Keys(t) by {
          var ks := Keys(t);
          forall i | 0 <= i < |t| ensures ks[i] != k {
            assert t[i] == d[i + 1];
          }
        }
        LastValIn(t, k);
      } else {
        LastValUnique(t, k);
      }
    }
  }
}
