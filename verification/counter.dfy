/**
 * `collections.Counter` filled by one left-to-right loop: each element either
 * yields a key, whose count goes up by one, or is skipped. Both distribution
 * reports are instances of `Tally`.
 */
module Counter {
  import opened Wrappers

  /** `counter[k] += 1`: a missing key starts from zero. */
  function Inc<K>(m: map<K, nat>, k: K): (r: map<K, nat>)
    ensures r.Keys == m.Keys + {k}
    ensures r[k] == (if k in m then m[k] else 0) + 1
    ensures forall j :: j in m && j != k ==> r[j] == m[j]
  {
    m[k := (if k in m then m[k] else 0) + 1]
  }

  /** The counter after the loop has consumed `s`. */
  function Tally<T, K>(key: T -> Option<K>, s: seq<T>): (r: map<K, nat>)
    ensures forall k :: k in r ==> r[k] >= 1
    decreases |s|
  {
    if s == [] then map[]
    else
      var m := Tally(key, s[..|s| - 1]);
      match key(s[|s| - 1])
      case None => m
      case Some(k) => Inc(m, k)
  }

  /** The keys the counted elements of `s` yield, one per counted element, in order. */
  function KeysOf<T, K>(key: T -> Option<K>, s: seq<T>): (ks: seq<K>)
    ensures |ks| <= |s|
  {
    if s == [] then []
    else
      (match key(s[0]) case None => [] case Some(k) => [k]) + KeysOf(key, s[1..])
  }

  /** The sum of the counts in a counter. */
  ghost function SumValues<K>(m: map<K, nat>): nat
  {
    SumOver(m, m.Keys)
  }

  ghost function SumOver<K>(m: map<K, nat>, ks: set<K>): nat
    requires ks <= m.Keys
    decreases ks
  {
    if ks == {} then 0 else var k :| k in ks; m[k] + SumOver(m, ks - {k})
  }

  // ---------------------------------------------------------------------
  // Sums

  /** Any key can be taken out of the sum first. */
  lemma {:induction false} SumOverPick<K>(m: map<K, nat>, ks: set<K>, j: K)
    requires ks <= m.Keys && j in ks
    ensures SumOver(m, ks) == m[j] + SumOver(m, ks - {j})
    decreases ks
  {
    var k :| k in ks && SumOver(m, ks) == m[k] + SumOver(m, ks - {k});
    if k != j {
      SumOverPick(m, ks - {k}, j);
      SumOverPick(m, ks - {j}, k);
      assert ks - {k} - {j} == ks - {j} - {k};
    }
  }

  lemma {:induction false} SumOverAgree<K>(m1: map<K, nat>, m2: map<K, nat>, ks: set<K>)
    requires ks <= m1.Keys && ks <= m2.Keys
    requires forall k :: k in ks ==> m1[k] == m2[k]
    ensures SumOver(m1, ks) == SumOver(m2, ks)
    decreases ks
  {
    if ks != {} {
      var j :| j in ks;
      SumOverPick(m1, ks, j);
      SumOverPick(m2, ks, j);
      SumOverAgree(m1, m2, ks - {j});
    }
  }

  /** One increment adds one to the sum of the counts. */
  lemma SumInc<K>(m: map<K, nat>, k: K)
    ensures SumValues(Inc(m, k)) == SumValues(m) + 1
  {
    var r := Inc(m, k);
    SumOverPick(r, r.Keys, k);
    if k in m {
      assert r.Keys == m.Keys;
      SumOverPick(m, m.Keys, k);
      SumOverAgree(r, m, m.Keys - {k});
    } else {
      assert r.Keys - {k} == m.Keys;
      SumOverAgree(r, m, m.Keys);
    }
  }

  // ---------------------------------------------------------------------
  // Keys of the counted elements

  lemma {:induction false} KeysOfAppend<T, K>(key: T -> Option<K>, a: seq<T>, b: seq<T>)
    ensures KeysOf(key, a + b) == KeysOf(key, a) + KeysOf(key, b)
    decreases |a|
  {
    if a == [] {
      assert a + b == b;
    } else {
      assert (a + b)[1..] == a[1..] + b;
      KeysOfAppend(key, a[1..], b);
    }
  }

  /** Appending one element appends its key, if any. */
  lemma KeysOfSnoc<T, K>(key: T -> Option<K>, s: seq<T>, x: T)
    ensures KeysOf(key, s + [x])
         == KeysOf(key, s) + (match key(x) case None => [] case Some(k) => [k])
  {
    KeysOfAppend(key, s, [x]);
    assert [x][1..] == [];
  }

  lemma MultisetRemove<T>(b: seq<T>, i: nat)
    requires i < |b|
    ensures multiset(b[..i] + b[i + 1..]) == multiset(b) - multiset{b[i]}
  {
    assert b == b[..i] + [b[i]] + b[i + 1..];
  }

  lemma MultisetShuffle<K>(p: seq<K>, q: seq<K>, r: seq<K>)
    ensures multiset(p + q + r) == multiset(q) + multiset(p + r)
  {
  }

  lemma KeysOfSplit<T, K>(key: T -> Option<K>, b: seq<T>, i: nat)
    requires i < |b|
    ensures KeysOf(key, b) == KeysOf(key, b[..i]) + KeysOf(key, [b[i]]) + KeysOf(key, b[i + 1..])
  {
    var s := b[i..];
    assert b == b[..i] + s;
    KeysOfAppend(key, b[..i], s);
    KeysOfCons(key, s);
    assert s[0] == b[i] && s[1..] == b[i + 1..];
  }

  lemma KeysOfCons<T, K>(key: T -> Option<K>, s: seq<T>)
    requires s != []
    ensures KeysOf(key, s) == KeysOf(key, [s[0]]) + KeysOf(key, s[1..])
  {
    assert s == [s[0]] + s[1..];
    KeysOfAppend(key, [s[0]], s[1..]);
  }

  /** The values of the `Some` entries of `ks`, in order. */
  function Present<K>(ks: seq<Option<K>>): (r: seq<K>)
    ensures |r| <= |ks|
  {
    if ks == [] then [] else (match ks[0] case None => [] case Some(k) => [k]) + Present(ks[1..])
  }

  /** When element `i` yields `ks[i]` for every `i`, the keys are the present entries of `ks`. */
  lemma {:induction false} KeysOfPointwise<T, K>(key: T -> Option<K>, s: seq<T>, ks: seq<Option<K>>)
    requires |s| == |ks|
    requires forall i :: 0 <= i < |s| ==> key(s[i]) == ks[i]
    ensures KeysOf(key, s) == Present(ks)
    decreases |s|
  {
    if s != [] {
      assert key(s[0]) == ks[0];
      forall i | 0 <= i < |s[1..]| ensures key(s[1..][i]) == ks[1..][i] {
        assert key(s[i + 1]) == ks[i + 1];
      }
      KeysOfPointwise(key, s[1..], ks[1..]);
    }
  }

  /** Taking element `i` out of `b` takes its key out of `b`'s keys. */
  lemma KeysOfRemove<T, K>(key: T -> Option<K>, b: seq<T>, i: nat)
    requires i < |b|
    ensures multiset(KeysOf(key, b))
         == multiset(KeysOf(key, [b[i]])) + multiset(KeysOf(key, b[..i] + b[i + 1..]))
  {
    KeysOfSplit(key, b, i);
    KeysOfAppend(key, b[..i], b[i + 1..]);
    var kl, kx, kr := KeysOf(key, b[..i]), KeysOf(key, [b[i]]), KeysOf(key, b[i + 1..]);
    MultisetShuffle(kl, kx, kr);
  }

  /** Reordering the elements reorders their keys and nothing more. */
  lemma {:induction false} KeysOfPermutation<T, K>(key: T -> Option<K>, a: seq<T>, b: seq<T>)
    requires multiset(a) == multiset(b)
    ensures multiset(KeysOf(key, a)) == multiset(KeysOf(key, b))
    decreases |a|
  {
    if a == [] {
      assert |b| == |multiset(b)| == 0;
      assert b == [];
    } else {
      var x, tail := a[0], a[1..];
      assert x in multiset(b);
      var i :| 0 <= i < |b| && b[i] == x;
      var rest := b[..i] + b[i + 1..];
      MultisetRemove(b, i);
      assert a == [x] + tail;
      assert multiset(tail) == multiset(rest);
      KeysOfPermutation(key, tail, rest);
      KeysOfRemove(key, b, i);
      KeysOfAppend(key, [x], tail);
      calc {
        multiset(KeysOf(key, a));
        multiset(KeysOf(key, [x]) + KeysOf(key, tail));
        multiset(KeysOf(key, [x])) + multiset(KeysOf(key, tail));
        multiset(KeysOf(key, [x])) + multiset(KeysOf(key, rest));
        multiset(KeysOf(key, b));
      }
    }
  }

  // ---------------------------------------------------------------------
  // What the counter holds

  lemma {:induction false} TallyAt<T, K>(key: T -> Option<K>, s: seq<T>, k: K)
    ensures k in Tally(key, s) <==> k in multiset(KeysOf(key, s))
    ensures k in Tally(key, s) ==> Tally(key, s)[k] == multiset(KeysOf(key, s))[k]
    decreases |s|
  {
    if s != [] {
      var p, x := s[..|s| - 1], s[|s| - 1];
      assert s == p + [x];
      TallyAt(key, p, k);
      KeysOfSnoc(key, p, x);
    }
  }

  /** The counter holds exactly the keys of the counted elements, each with its
      number of occurrences among them. */
  lemma TallyContents<T, K>(key: T -> Option<K>, s: seq<T>)
    ensures forall k :: k in Tally(key, s) <==> k in KeysOf(key, s)
    ensures forall k :: k in Tally(key, s) ==> Tally(key, s)[k] == multiset(KeysOf(key, s))[k]
  {
    var t, ks := Tally(key, s), KeysOf(key, s);
    forall k
      ensures k in t <==> k in ks
    {
      TallyAt(key, s, k);
    }
    forall k | k in t
      ensures t[k] == multiset(ks)[k]
    {
      TallyAt(key, s, k);
    }
  }

  /** Counters over two sequences agree when their counted elements yield the same keys. */
  lemma TallyDeterminedByKeys<T, K>(key: T -> Option<K>, a: seq<T>, b: seq<T>)
    requires multiset(KeysOf(key, a)) == multiset(KeysOf(key, b))
    ensures Tally(key, a) == Tally(key, b)
  {
    var ta, tb := Tally(key, a), Tally(key, b);
    forall k
      ensures k in ta <==> k in tb
    {
      TallyAt(key, a, k);
      TallyAt(key, b, k);
    }
    forall k | k in ta
      ensures k in tb && ta[k] == tb[k]
    {
      TallyAt(key, a, k);
      TallyAt(key, b, k);
    }
    CountersEqual(ta, tb);
  }

  /** A map that holds each key of the counted elements with its number of occurrences is the counter. */
  lemma TallyFromKeys<T, K>(key: T -> Option<K>, s: seq<T>, m: map<K, nat>)
    requires forall k :: k in KeysOf(key, s) ==> k in m
    requires forall k :: k in m ==> k in KeysOf(key, s) && m[k] == multiset(KeysOf(key, s))[k]
    ensures Tally(key, s) == m
  {
    var t := Tally(key, s);
    forall k | k in t ensures k in m && t[k] == m[k] {
      TallyAt(key, s, k);
    }
    forall k | k in m ensures k in t {
      TallyAt(key, s, k);
    }
    CountersEqual(t, m);
  }

  lemma CountersEqual<K>(m1: map<K, nat>, m2: map<K, nat>)
    requires forall k :: k in m1 <==> k in m2
    requires forall k :: k in m1 ==> m1[k] == m2[k]
    ensures m1 == m2
  {
    assert m1.Keys == m2.Keys;
  }

  /** The counts add up to the number of counted elements. */
  lemma {:induction false} TallySum<T, K>(key: T -> Option<K>, s: seq<T>)
    ensures SumValues(Tally(key, s)) == |KeysOf(key, s)|
    decreases |s|
  {
    if s != [] {
      var p, x := s[..|s| - 1], s[|s| - 1];
      assert s == p + [x];
      TallySum(key, p);
      KeysOfSnoc(key, p, x);
      if key(x).Some? {
        SumInc(Tally(key, p), key(x).value);
      }
    }
  }

  /** The counter does not depend on the order of the elements. */
  lemma TallyPermutation<T, K>(key: T -> Option<K>, a: seq<T>, b: seq<T>)
    requires multiset(a) == multiset(b)
    ensures Tally(key, a) == Tally(key, b)
  {
    KeysOfPermutation(key, a, b);
    TallyDeterminedByKeys(key, a, b);
  }

  /** An element that yields no key leaves the counter as it would be without it. */
  lemma TallySkips<T, K>(key: T -> Option<K>, a: seq<T>, x: T, b: seq<T>)
    requires key(x).None?
    ensures Tally(key, a + [x] + b) == Tally(key, a + b)
  {
    KeysOfSnoc(key, a, x);
    KeysOfAppend(key, a + [x], b);
    KeysOfAppend(key, a, b);
    assert KeysOf(key, a + [x] + b) == KeysOf(key, a + b);
    TallyDeterminedByKeys(key, a + [x] + b, a + b);
  }
}
