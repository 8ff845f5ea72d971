/**
 * PHP arrays with string keys, as the bundle uses them: an ordered list of
 * key/value pairs in which a key occurs at most once. Writing `$a[$k] = $v`
 * replaces the value in place when the key exists and appends otherwise;
 * `array_merge` with string keys is a sequence of such writes.
 */
module PhpArray {
  import opened Wrappers

  /** The keys of `a`, in order. */
  function Keys<V>(a: seq<(string, V)>): (ks: seq<string>)
    ensures |ks| == |a|
    ensures forall i :: 0 <= i < |a| ==> ks[i] == a[i].0
  {
    seq(|a|, i requires 0 <= i < |a| => a[i].0)
  }

  /** Every key occurs once, as in every PHP array. */
  predicate UniqueKeys<V>(a: seq<(string, V)>) {
    forall i, j :: 0 <= i < j < |a| ==> a[i].0 != a[j].0
  }

  /** `$a[$k]`, with None for a missing key (PHP's null). */
  function Get<V>(a: seq<(string, V)>, k: string): Option<V> {
    if a == [] then None
    else if a[0].0 == k then Some(a[0].1)
    else Get(a[1..], k)
  }

  /** The keys of a non-empty array: the first key, then the keys of the rest. */
  lemma KeysCons<V>(a: seq<(string, V)>)
    requires |a| > 0
    ensures Keys(a) == [a[0].0] + Keys(a[1..])
  {
    var ks := [a[0].0] + Keys(a[1..]);
    forall i | 0 <= i < |a| ensures Keys(a)[i] == ks[i] {
      if i > 0 {
        assert a[1..][i - 1] == a[i];
      }
    }
  }

  /** The keys of a non-empty array: the keys before the last entry, then its key. */
  lemma KeysSnoc<V>(es: seq<(string, V)>)
    requires |es| > 0
    ensures Keys(es) == Keys(es[..|es| - 1]) + [es[|es| - 1].0]
  {
    var init, ks := es[..|es| - 1], Keys(es[..|es| - 1]) + [es[|es| - 1].0];
    forall i | 0 <= i < |es| ensures Keys(es)[i] == ks[i] {
      if i < |init| {
        assert init[i] == es[i];
      }
    }
  }

  /** The keys of a concatenation. */
  lemma KeysAppend<V>(a: seq<(string, V)>, b: seq<(string, V)>)
    ensures Keys(a + b) == Keys(a) + Keys(b)
  {
    var ks := Keys(a) + Keys(b);
    forall i | 0 <= i < |a + b| ensures Keys(a + b)[i] == ks[i] {
      if i >= |a| {
        assert (a + b)[i] == b[i - |a|];
      }
    }
  }

  /** Uniqueness read from the front: the first key is not among the others, which are unique. */
  lemma UniqueCons<V>(a: seq<(string, V)>)
    requires |a| > 0
    ensures UniqueKeys(a) <==> a[0].0 !in Keys(a[1..]) && UniqueKeys(a[1..])
  {
    var t := a[1..];
    if UniqueKeys(a) {
      forall m | 0 <= m < |t| ensures Keys(t)[m] != a[0].0 {
        assert t[m] == a[m + 1];
      }
      forall i, j | 0 <= i < j < |t| ensures t[i].0 != t[j].0 {
        assert t[i] == a[i + 1] && t[j] == a[j + 1];
      }
    }
    if a[0].0 !in Keys(t) && UniqueKeys(t) {
      forall i, j | 0 <= i < j < |a| ensures a[i].0 != a[j].0 {
        assert a[j] == t[j - 1];
        if i == 0 {
          assert Keys(t)[j - 1] == a[j].0;
        } else {
          assert a[i] == t[i - 1];
        }
      }
    }
  }

  /** Dropping the last entry keeps the keys unique, and that key is not among the others. */
  lemma UniqueKeysOfPrefix<V>(a: seq<(string, V)>)
    requires |a| > 0 && UniqueKeys(a)
    ensures UniqueKeys(a[..|a| - 1])
    ensures a[|a| - 1].0 !in Keys(a[..|a| - 1])
  {
    var init := a[..|a| - 1];
    forall m | 0 <= m < |init| ensures Keys(init)[m] != a[|a| - 1].0 {
      assert init[m] == a[m];
    }
  }

  /** Two arrays with unique and disjoint keys concatenate to one with unique keys. */
  lemma UniqueAppend<V>(a: seq<(string, V)>, b: seq<(string, V)>)
    requires UniqueKeys(a) && UniqueKeys(b)
    requires forall k :: k in Keys(a) ==> k !in Keys(b)
    ensures UniqueKeys(a + b)
  {
    forall i, j | 0 <= i < j < |a + b| ensures (a + b)[i].0 != (a + b)[j].0 {
      if i >= |a| {
        assert (a + b)[i] == b[i - |a|] && (a + b)[j] == b[j - |a|];
      } else if j < |a| {
        assert (a + b)[i] == a[i] && (a + b)[j] == a[j];
      } else {
        assert (a + b)[i] == a[i] && (a + b)[j] == b[j - |a|];
        assert Keys(a)[i] == a[i].0 && Keys(b)[j - |a|] == b[j - |a|].0;
        assert a[i].0 in Keys(a) && b[j - |a|].0 in Keys(b);
      }
    }
  }

  /** A key looks up a value exactly when it is one of the keys. */
  lemma {:induction false} GetSome<V>(a: seq<(string, V)>, k: string)
    ensures Get(a, k).Some? <==> k in Keys(a)
  {
    if a != [] {
      KeysCons(a);
      if a[0].0 != k {
        GetSome(a[1..], k);
      }
    }
  }

  /** The first entry with key `k` is what `k` looks up. */
  lemma {:induction false} GetFirst<V>(a: seq<(string, V)>, k: string, j: int)
    requires 0 <= j < |a| && a[j].0 == k
    requires forall i :: 0 <= i < j ==> a[i].0 != k
    ensures Get(a, k) == Some(a[j].1)
  {
    if j > 0 {
      assert a[0].0 != k;
      forall i | 0 <= i < j - 1 ensures a[1..][i].0 != k {
        assert a[1..][i] == a[i + 1];
      }
      GetFirst(a[1..], k, j - 1);
    }
  }

  /** In an array with unique keys, each entry is what its key looks up. */
  lemma GetAt<V>(a: seq<(string, V)>, i: int)
    requires UniqueKeys(a) && 0 <= i < |a|
    ensures Get(a, a[i].0) == Some(a[i].1)
  {
    GetFirst(a, a[i].0, i);
  }

  /** Two arrays that agree, position by position, on where `k` is and what it holds look `k` up alike. */
  lemma {:induction false} GetAlike<V>(a: seq<(string, V)>, b: seq<(string, V)>, k: string)
    requires |a| == |b|
    requires forall i :: 0 <= i < |a| ==> (a[i].0 == k <==> b[i].0 == k)
    requires forall i :: 0 <= i < |a| && a[i].0 == k ==> a[i].1 == b[i].1
    ensures Get(a, k) == Get(b, k)
  {
    if a != [] && a[0].0 != k {
      forall i | 0 <= i < |a| - 1 ensures (a[1..][i].0 == k <==> b[1..][i].0 == k) {
        assert a[1..][i] == a[i + 1] && b[1..][i] == b[i + 1];
      }
      GetAlike(a[1..], b[1..], k);
    }
  }

  /** Looking up in a concatenation: the first part wins. */
  lemma {:induction false} GetAppend<V>(a: seq<(string, V)>, b: seq<(string, V)>, k: string)
    ensures Get(a + b, k) == if k in Keys(a) then Get(a, k) else Get(b, k)
  {
    if a != [] {
      assert (a + b)[1..] == a[1..] + b;
      GetAppend(a[1..], b, k);
      KeysCons(a);
    } else {
      assert a + b == b;
    }
  }

  /** Looking up in an array split before its last entry: the earlier entries win. */
  lemma GetSnoc<V>(es: seq<(string, V)>, k: string)
    requires |es| > 0
    ensures var init, last := es[..|es| - 1], es[|es| - 1];
      Get(es, k) == if k in Keys(init) then Get(init, k) else if k == last.0 then Some(last.1) else None
  {
    var init, tail := es[..|es| - 1], es[|es| - 1..];
    assert es == init + tail;
    GetAppend(init, tail, k);
    assert tail[1..] == [];
  }

  /** `$a[$k] = $v`. */
  function Put<V>(a: seq<(string, V)>, k: string, v: V): (r: seq<(string, V)>)
    ensures Keys(r) == if k in Keys(a) then Keys(a) else Keys(a) + [k]
    ensures Get(r, k) == Some(v)
    ensures forall k' :: k' != k ==> Get(r, k') == Get(a, k')
    ensures UniqueKeys(a) ==> UniqueKeys(r)
  {
    if k in Keys(a) then
      var r := seq(|a|, i requires 0 <= i < |a| => if a[i].0 == k then (k, v) else a[i]);
      PutInPlace(a, k, v, r);
      r
    else
      PutAppended(a, k, v);
      a + [(k, v)]
  }

  /** Writing an existing key: the value changes where the key stands, nothing else does. */
  lemma PutInPlace<V>(a: seq<(string, V)>, k: string, v: V, r: seq<(string, V)>)
    requires k in Keys(a)
    requires |r| == |a| && forall i :: 0 <= i < |a| ==> r[i] == if a[i].0 == k then (k, v) else a[i]
    ensures Keys(r) == Keys(a)
    ensures Get(r, k) == Some(v)
    ensures forall k' :: k' != k ==> Get(r, k') == Get(a, k')
    ensures UniqueKeys(a) ==> UniqueKeys(r)
  {
    forall i | 0 <= i < |a| ensures Keys(r)[i] == Keys(a)[i] {
    }
    GetReplaced(a, k, v, r);
    forall k' | k' != k ensures Get(r, k') == Get(a, k') {
      GetAlike(a, r, k');
    }
  }

  /** The key written in place looks up the new value. */
  lemma {:induction false} GetReplaced<V>(a: seq<(string, V)>, k: string, v: V, r: seq<(string, V)>)
    requires k in Keys(a)
    requires |r| == |a| && forall i :: 0 <= i < |a| ==> r[i] == if a[i].0 == k then (k, v) else a[i]
    ensures Get(r, k) == Some(v)
  {
    KeysCons(a);
    if a[0].0 != k {
      forall i | 0 <= i < |a| - 1 ensures r[1..][i] == if a[1..][i].0 == k then (k, v) else a[1..][i] {
        assert r[1..][i] == r[i + 1] && a[1..][i] == a[i + 1];
      }
      GetReplaced(a[1..], k, v, r[1..]);
    }
  }

  /** Writing a new key appends it. */
  lemma PutAppended<V>(a: seq<(string, V)>, k: string, v: V)
    requires k !in Keys(a)
    ensures Keys(a + [(k, v)]) == Keys(a) + [k]
    ensures Get(a + [(k, v)], k) == Some(v)
    ensures forall k' :: k' != k ==> Get(a + [(k, v)], k') == Get(a, k')
    ensures UniqueKeys(a) ==> UniqueKeys(a + [(k, v)])
  {
    KeysAppend(a, [(k, v)]);
    assert Keys([(k, v)]) == [k];
    forall k' ensures Get(a + [(k, v)], k') == if k' == k then Some(v) else Get(a, k') {
      GetAppend(a, [(k, v)], k');
      GetSome(a, k');
    }
    if UniqueKeys(a) {
      UniqueAppend(a, [(k, v)]);
    }
  }

  /**
   * A write leaves every other key alone. Callers that name keys by string
   * literals use this step rather than leave the verifier to search `Put`'s contract.
   */
  lemma PutOther<V>(a: seq<(string, V)>, k: string, v: V, k': string)
    requires k' != k
    ensures Get(Put(a, k, v), k') == Get(a, k')
  {
  }

  /** `array_merge($a, $es)` for string keys: the entries of `es` written in order. */
  function PutAll<V>(a: seq<(string, V)>, es: seq<(string, V)>): seq<(string, V)>
  {
    if es == [] then a else Put(PutAll(a, es[..|es| - 1]), es[|es| - 1].0, es[|es| - 1].1)
  }

  /** After `array_merge`, a key of `es` looks up its value in `es`; every other key is untouched. */
  lemma {:induction false} PutAllGet<V>(a: seq<(string, V)>, es: seq<(string, V)>, k: string)
    requires UniqueKeys(es)
    ensures Get(PutAll(a, es), k) == if k in Keys(es) then Get(es, k) else Get(a, k)
  {
    if es != [] {
      var init, last := es[..|es| - 1], es[|es| - 1];
      UniqueKeysOfPrefix(es);
      PutAllGet(a, init, k);
      GetSnoc(es, k);
      KeysSnoc(es);
      if k != last.0 {
        PutOther(PutAll(a, init), last.0, last.1, k);
      }
    }
  }

  /** `array_merge` keeps an array's keys unique. */
  lemma {:induction false} PutAllUnique<V>(a: seq<(string, V)>, es: seq<(string, V)>)
    requires UniqueKeys(a)
    ensures UniqueKeys(PutAll(a, es))
  {
    if es != [] {
      PutAllUnique(a, es[..|es| - 1]);
    }
  }

  /** A key that `array_merge` does not write keeps its value. */
  lemma {:induction false} PutAllOther<V>(a: seq<(string, V)>, es: seq<(string, V)>, k: string)
    requires k !in Keys(es)
    ensures Get(PutAll(a, es), k) == Get(a, k)
  {
    if es != [] {
      var init, last := es[..|es| - 1], es[|es| - 1];
      assert k != last.0 by {
        assert Keys(es)[|es| - 1] == last.0;
      }
      assert k !in Keys(init) by {
        forall i | 0 <= i < |init| ensures Keys(init)[i] != k {
          assert Keys(es)[i] == init[i].0;
        }
      }
      PutAllOther(a, init, k);
      PutOther(PutAll(a, init), last.0, last.1, k);
    }
  }

  /** `array_merge` of a concatenation is two merges in a row. */
  lemma {:induction false} PutAllAppend<V>(a: seq<(string, V)>, x: seq<(string, V)>, y: seq<(string, V)>)
    ensures PutAll(a, x + y) == PutAll(PutAll(a, x), y)
  {
    if y != [] {
      assert (x + y)[..|x + y| - 1] == x + y[..|y| - 1];
      assert (x + y)[|x + y| - 1] == y[|y| - 1];
      PutAllAppend(a, x, y[..|y| - 1]);
    } else {
      assert x + y == x;
    }
  }

  /** `unset($a[$k])`. */
  function Remove<V>(a: seq<(string, V)>, k: string): (r: seq<(string, V)>)
    ensures forall k' :: Get(r, k') == if k' == k then None else Get(a, k')
    ensures forall k' :: k' in Keys(r) ==> k' in Keys(a) && k' != k
    ensures UniqueKeys(a) ==> UniqueKeys(r)
  {
    if a == [] then []
    else
      var rest := Remove(a[1..], k);
      if a[0].0 == k then
        RemoveHead(a, k, rest);
        rest
      else
        RemoveKeep(a, k, rest);
        [a[0]] + rest
  }

  /** `unset` of the first key: the rest, already without it. */
  lemma RemoveHead<V>(a: seq<(string, V)>, k: string, rest: seq<(string, V)>)
    requires |a| > 0 && a[0].0 == k
    requires forall k' :: Get(rest, k') == if k' == k then None else Get(a[1..], k')
    requires forall k' :: k' in Keys(rest) ==> k' in Keys(a[1..]) && k' != k
    requires UniqueKeys(a[1..]) ==> UniqueKeys(rest)
    ensures forall k' :: Get(rest, k') == if k' == k then None else Get(a, k')
    ensures forall k' :: k' in Keys(rest) ==> k' in Keys(a) && k' != k
    ensures UniqueKeys(a) ==> UniqueKeys(rest)
  {
    KeysCons(a);
    UniqueCons(a);
  }

  /** `unset` of another key keeps the first entry in front of the rest. */
  lemma RemoveKeep<V>(a: seq<(string, V)>, k: string, rest: seq<(string, V)>)
    requires |a| > 0 && a[0].0 != k
    requires forall k' :: Get(rest, k') == if k' == k then None else Get(a[1..], k')
    requires forall k' :: k' in Keys(rest) ==> k' in Keys(a[1..]) && k' != k
    requires UniqueKeys(a[1..]) ==> UniqueKeys(rest)
    ensures forall k' :: Get([a[0]] + rest, k') == if k' == k then None else Get(a, k')
    ensures forall k' :: k' in Keys([a[0]] + rest) ==> k' in Keys(a) && k' != k
    ensures UniqueKeys(a) ==> UniqueKeys([a[0]] + rest)
  {
    var r := [a[0]] + rest;
    assert r[0] == a[0] && r[1..] == rest;
    forall k' ensures Get(r, k') == if k' == k then None else Get(a, k') {
    }
    RemoveKeepKeys(a, k, rest);
    if UniqueKeys(a) {
      RemoveKeepUnique(a, rest);
    }
  }

  lemma RemoveKeepKeys<V>(a: seq<(string, V)>, k: string, rest: seq<(string, V)>)
    requires |a| > 0 && a[0].0 != k
    requires forall k' :: k' in Keys(rest) ==> k' in Keys(a[1..]) && k' != k
    ensures forall k' :: k' in Keys([a[0]] + rest) ==> k' in Keys(a) && k' != k
  {
    var r := [a[0]] + rest;
    assert r[0] == a[0] && r[1..] == rest;
    KeysCons(a);
    KeysCons(r);
    forall k' | k' in Keys(r) ensures k' in Keys(a) && k' != k {
      if k' != a[0].0 {
        assert k' in Keys(rest);
      }
    }
  }

  lemma RemoveKeepUnique<V>(a: seq<(string, V)>, rest: seq<(string, V)>)
    requires |a| > 0 && UniqueKeys(a)
    requires forall k' :: k' in Keys(rest) ==> k' in Keys(a[1..])
    requires UniqueKeys(a[1..]) ==> UniqueKeys(rest)
    ensures UniqueKeys([a[0]] + rest)
  {
    var r := [a[0]] + rest;
    assert r[0] == a[0] && r[1..] == rest;
    UniqueCons(a);
    UniqueCons(r);
  }

  /** After `unset($a[$k])` the key looks up nothing (see `PutOther` for why this is a step of its own). */
  lemma RemoveGet<V>(a: seq<(string, V)>, k: string)
    ensures Get(Remove(a, k), k) == None
  {
  }

  /** Unsetting a key the array does not have changes nothing. */
  lemma {:induction false} RemoveAbsent<V>(a: seq<(string, V)>, k: string)
    requires k !in Keys(a)
    ensures Remove(a, k) == a
  {
    if a != [] {
      assert a[0].0 != k && k !in Keys(a[1..]) by {
        KeysCons(a);
      }
      calc {
        Remove(a, k);
        [a[0]] + Remove(a[1..], k);
        { RemoveAbsent(a[1..], k); }
        [a[0]] + a[1..];
      }
    }
  }

  /** `unset($a[$k])` for each `k` of `ks` in turn. */
  function RemoveAll<V>(a: seq<(string, V)>, ks: seq<string>): (r: seq<(string, V)>)
    ensures forall k :: Get(r, k) == if k in ks then None else Get(a, k)
    ensures UniqueKeys(a) ==> UniqueKeys(r)
  {
    if ks == [] then a
    else
      var r := Remove(RemoveAll(a, ks[..|ks| - 1]), ks[|ks| - 1]);
      forall k ensures k in ks <==> k in ks[..|ks| - 1] || k == ks[|ks| - 1] {
        assert ks == ks[..|ks| - 1] + [ks[|ks| - 1]];
      }
      r
  }

  /** Unsetting keys the array does not have changes nothing. */
  lemma {:induction false} RemoveAllAbsent<V>(a: seq<(string, V)>, ks: seq<string>)
    requires forall k :: k in ks ==> k !in Keys(a)
    ensures RemoveAll(a, ks) == a
  {
    if ks != [] {
      RemoveAllAbsent(a, ks[..|ks| - 1]);
      RemoveAbsent(a, ks[|ks| - 1]);
    }
  }

  /** `array_intersect_key($a, array_flip($names))`: the entries of `a` whose key is one of `names`, in `a`'s order. */
  function IntersectKey<V>(a: seq<(string, V)>, names: seq<string>): (r: seq<(string, V)>)
    ensures forall k :: Get(r, k) == if k in names then Get(a, k) else None
    ensures forall i :: 0 <= i < |r| ==> r[i].0 in names
  {
    if a == [] then []
    else
      var rest := IntersectKey(a[1..], names);
      if a[0].0 in names then
        var r := [a[0]] + rest;
        assert r[1..] == rest;
        r
      else rest
  }

  /** Keeping only some keys keeps them unique. */
  lemma {:induction false} IntersectKeyUnique<V>(a: seq<(string, V)>, names: seq<string>)
    requires UniqueKeys(a)
    ensures UniqueKeys(IntersectKey(a, names))
  {
    if a != [] {
      var rest := IntersectKey(a[1..], names);
      UniqueCons(a);
      IntersectKeyUnique(a[1..], names);
      if a[0].0 in names {
        var r := [a[0]] + rest;
        assert r[0] == a[0] && r[1..] == rest;
        assert a[0].0 !in Keys(rest) by {
          GetSome(rest, a[0].0);
          GetSome(a[1..], a[0].0);
        }
        UniqueCons(r);
      }
    }
  }

  /** The names of `required` that `a` lacks, in order (`array_keys(array_diff_key($required, $a))`). */
  function MissingKeys<V>(a: seq<(string, V)>, required: seq<string>): (missing: seq<string>)
    ensures forall k :: k in missing <==> k in required && k !in Keys(a)
  {
    if required == [] then []
    else
      var rest := MissingKeys(a, required[..|required| - 1]);
      var k := required[|required| - 1];
      assert forall k' :: k' in required <==> k' in required[..|required| - 1] || k' == k by {
        assert required == required[..|required| - 1] + [k];
      }
      if k in Keys(a) then rest else rest + [k]
  }

  lemma NoneMissing<V>(a: seq<(string, V)>, required: seq<string>)
    requires forall k :: k in required ==> k in Keys(a)
    ensures MissingKeys(a, required) == []
  {
  }

  /** A list of distinct names has as many elements as its set. */
  lemma {:induction false} DistinctCount(ks: seq<string>)
    requires forall i, j :: 0 <= i < j < |ks| ==> ks[i] != ks[j]
    ensures |set k | k in ks| == |ks|
  {
    if ks != [] {
      var init, last := ks[..|ks| - 1], ks[|ks| - 1];
      DistinctCount(init);
      assert last !in init by {
        forall i | 0 <= i < |init| ensures init[i] != last {
          assert init[i] == ks[i];
        }
      }
      assert (set k | k in ks) == (set k | k in init) + {last} by {
        assert ks == init + [last];
      }
    }
  }

  /** The keys `array_intersect_key` keeps: the names the array has. */
  lemma IntersectKeyKeys<V>(a: seq<(string, V)>, names: seq<string>, k: string)
    ensures k in Keys(IntersectKey(a, names)) <==> k in names && k in Keys(a)
  {
    GetSome(IntersectKey(a, names), k);
    GetSome(a, k);
  }

  /**
   * The test `count($required) != count(array_intersect_key($a, $required))`:
   * with distinct required names, the counts agree exactly when no name is missing.
   */
  lemma IntersectKeyCount<V>(a: seq<(string, V)>, names: seq<string>)
    requires UniqueKeys(a)
    requires forall i, j :: 0 <= i < j < |names| ==> names[i] != names[j]
    ensures |IntersectKey(a, names)| == |names| <==> MissingKeys(a, names) == []
  {
    var r := IntersectKey(a, names);
    IntersectKeyUnique(a, names);
    DistinctCount(names);
    DistinctCount(Keys(r));
    var present := set k | k in Keys(r);
    var all := set k | k in names;
    assert present <= all by {
      forall k | k in present ensures k in all {
        IntersectKeyKeys(a, names, k);
      }
    }
    if MissingKeys(a, names) == [] {
      assert all <= present by {
        forall k | k in all ensures k in present {
          IntersectKeyKeys(a, names, k);
        }
      }
      assert |r| == |names| by {
        assert present == all;
      }
    } else {
      var k := MissingKeys(a, names)[0];
      assert k in all && k !in present by {
        IntersectKeyKeys(a, names, k);
      }
      assert |r| < |names| by {
        SubsetSmaller(present, all - {k});
        assert |all - {k}| == |all| - 1;
      }
    }
  }

  lemma SubsetSmaller(s: set<string>, t: set<string>)
    requires s <= t
    ensures |s| <= |t|
  {
    assert t == s + (t - s);
  }

  /** Writing the value a key already holds changes nothing. */
  lemma PutSame<V>(a: seq<(string, V)>, k: string, v: V)
    requires UniqueKeys(a) && Get(a, k) == Some(v)
    ensures Put(a, k, v) == a
  {
    GetSome(a, k);
    var r := Put(a, k, v);
    forall i | 0 <= i < |a| ensures r[i] == a[i] {
      if a[i].0 == k {
        GetAt(a, i);
      }
    }
  }

  /** Merging entries every one of which the array already holds changes nothing. */
  lemma {:induction false} PutAllSame<V>(a: seq<(string, V)>, es: seq<(string, V)>)
    requires UniqueKeys(a)
    requires forall i :: 0 <= i < |es| ==> Get(a, es[i].0) == Some(es[i].1)
    ensures PutAll(a, es) == a
  {
    if es != [] {
      var init := es[..|es| - 1];
      forall i | 0 <= i < |init| ensures Get(a, init[i].0) == Some(init[i].1) {
        assert init[i] == es[i];
      }
      PutAllSame(a, init);
      PutSame(a, es[|es| - 1].0, es[|es| - 1].1);
    }
  }

  // ---------------------------------------------------------------- plain sequences

  /** Growing a prefix by one element. */
  lemma SliceSnoc<T>(s: seq<T>, i: int)
    requires 0 <= i < |s|
    ensures s[..i] + [s[i]] == s[..i + 1]
  {
  }

  /** Concatenation is associative. */
  lemma AppendAssoc<T>(a: seq<T>, b: seq<T>, c: seq<T>)
    ensures a + b + c == a + (b + c)
  {
  }

  /** The calls that sending `e` to each of `targets` in turn makes. */
  function Calls<T, E>(targets: seq<T>, e: E): (cs: seq<(T, E)>)
    ensures |cs| == |targets| && forall i :: 0 <= i < |targets| ==> cs[i] == (targets[i], e)
  {
    seq(|targets|, i requires 0 <= i < |targets| => (targets[i], e))
  }

  /** Sending to two groups in turn makes the first group's calls, then the second's. */
  lemma CallsAppend<T, E>(a: seq<T>, b: seq<T>, e: E)
    ensures Calls(a + b, e) == Calls(a, e) + Calls(b, e)
  {
  }
}
