/** Insertion-ordered tallies (a Python dict updated with `d[k] = d.get(k, 0) + v`),
    the first extreme element (`max`/`min` with a key, which keep the first of
    equal candidates) and the stable descending order of
    `sorted(items, key=value, reverse=True)`. */
module Ranking {
  import opened Stats

  datatype Entry<K> = Entry(key: K, value: real)

  function Keys<K>(e: seq<Entry<K>>): (ks: seq<K>)
    ensures |ks| == |e| && forall i :: 0 <= i < |e| ==> ks[i] == e[i].key
  {
    seq(|e|, i requires 0 <= i < |e| => e[i].key)
  }

  function Values<K>(e: seq<Entry<K>>): (vs: seq<real>)
    ensures |vs| == |e| && forall i :: 0 <= i < |e| ==> vs[i] == e[i].value
  {
    seq(|e|, i requires 0 <= i < |e| => e[i].value)
  }

  predicate DistinctKeys<K(==)>(e: seq<Entry<K>>)
  {
    forall i, j :: 0 <= i < j < |e| ==> e[i].key != e[j].key
  }

  /** `d.get(k, 0)`. */
  function Get<K(==)>(e: seq<Entry<K>>, k: K): real
  {
    if |e| == 0 then 0.0 else if e[0].key == k then e[0].value else Get(e[1..], k)
  }

  /** `d[k] = d.get(k, 0) + v`: a present key keeps its place, a new key goes last. */
  function Add<K(==)>(e: seq<Entry<K>>, k: K, v: real): (r: seq<Entry<K>>)
  {
    if |e| == 0 then [Entry(k, v)]
    else if e[0].key == k then [Entry(k, e[0].value + v)] + e[1..]
    else [e[0]] + Add(e[1..], k, v)
  }

  lemma SumCons(x: real, s: seq<real>)
    ensures Sum([x] + s) == x + Sum(s)
  {
    SumConcat([x], s);
    assert Sum([x]) == Sum([]) + x;
  }

  lemma ValuesCons<K>(x: Entry<K>, e: seq<Entry<K>>)
    ensures Values([x] + e) == [x.value] + Values(e)
  {
  }

  lemma DistinctTail<K>(e: seq<Entry<K>>)
    requires |e| > 0 && DistinctKeys(e)
    ensures DistinctKeys(e[1..])
    ensures forall i :: 1 <= i < |e| ==> e[i].key != e[0].key
  {
    var rest := e[1..];
    forall i, j | 0 <= i < j < |rest| ensures rest[i].key != rest[j].key {
      assert rest[i] == e[i + 1] && rest[j] == e[j + 1];
    }
  }

  /** Adding to a tally grows its keys by k exactly when k is new. */
  lemma {:induction false} AddKeys<K>(e: seq<Entry<K>>, k: K, v: real)
    ensures Keys(Add(e, k, v)) == if k in Keys(e) then Keys(e) else Keys(e) + [k]
  {
    if |e| > 0 && e[0].key != k {
      AddKeys(e[1..], k, v);
      AddKeysPast(e, k, v);
    } else if |e| > 0 {
      assert Keys(Add(e, k, v)) == Keys(e);
    } else {
      assert Keys(Add(e, k, v)) == [k];
    }
  }

  /** The step of AddKeys past a head entry with another key. */
  lemma AddKeysPast<K>(e: seq<Entry<K>>, k: K, v: real)
    requires |e| > 0 && e[0].key != k
    requires Keys(Add(e[1..], k, v)) == if k in Keys(e[1..]) then Keys(e[1..]) else Keys(e[1..]) + [k]
    ensures Keys(Add(e, k, v)) == if k in Keys(e) then Keys(e) else Keys(e) + [k]
  {
    var rest := e[1..];
    var r' := Add(rest, k, v);
    assert Keys(e) == [e[0].key] + Keys(rest);
    assert Add(e, k, v) == [e[0]] + r';
    assert Keys(Add(e, k, v)) == [e[0].key] + Keys(r');
    assert k in Keys(e) <==> k in Keys(rest);
    if k !in Keys(rest) {
      assert [e[0].key] + (Keys(rest) + [k]) == ([e[0].key] + Keys(rest)) + [k];
    }
  }

  /** Adding to a tally keeps its keys distinct. */
  lemma {:induction false} AddDistinct<K>(e: seq<Entry<K>>, k: K, v: real)
    requires DistinctKeys(e)
    ensures DistinctKeys(Add(e, k, v))
  {
    if |e| > 0 && e[0].key != k {
      var rest := e[1..];
      DistinctTail(e);
      AddDistinct(rest, k, v);
      AddKeys(rest, k, v);
      var r' := Add(rest, k, v);
      var r := Add(e, k, v);
      assert r == [e[0]] + r';
      forall i | 0 <= i < |r'| ensures r'[i].key != e[0].key {
        assert Keys(r')[i] == r'[i].key;
        if i < |rest| {
          assert Keys(r')[i] == Keys(rest)[i] == e[i + 1].key;
        }
      }
      forall i, j | 0 <= i < j < |r| ensures r[i].key != r[j].key {
        assert r[j] == r'[j - 1];
        if i > 0 {
          assert r[i] == r'[i - 1];
        }
      }
    } else if |e| > 0 {
      DistinctTail(e);
      var r := Add(e, k, v);
      forall i, j | 0 <= i < j < |r| ensures r[i].key != r[j].key {
        assert r[j] == e[j];
        if i > 0 {
          assert r[i] == e[i];
        }
      }
    }
  }

  /** Adding v under k raises the entry for k by v and leaves every other entry alone. */
  lemma {:induction false} AddGet<K>(e: seq<Entry<K>>, k: K, v: real, k': K)
    requires DistinctKeys(e)
    ensures Get(Add(e, k, v), k') == Get(e, k') + (if k' == k then v else 0.0)
  {
    if |e| > 0 {
      DistinctTail(e);
      if e[0].key != k {
        AddGet(e[1..], k, v, k');
      } else if k' != k {
        assert Add(e, k, v)[1..] == e[1..];
      } else {
        GetAbsent(e[1..], k);
      }
    }
  }

  /** In a tally with distinct keys, looking up an entry's key finds it. */
  lemma {:induction false} GetAt<K>(e: seq<Entry<K>>, j: nat)
    requires DistinctKeys(e) && j < |e|
    ensures Get(e, e[j].key) == e[j].value
  {
    if j > 0 {
      DistinctTail(e);
      GetAt(e[1..], j - 1);
    }
  }

  lemma {:induction false} GetAbsent<K>(e: seq<Entry<K>>, k: K)
    requires forall i :: 0 <= i < |e| ==> e[i].key != k
    ensures Get(e, k) == 0.0
  {
    if |e| > 0 {
      GetAbsent(e[1..], k);
    }
  }

  /** Adding v to a tally raises its total by v. */
  lemma {:induction false} AddSum<K>(e: seq<Entry<K>>, k: K, v: real)
    ensures Sum(Values(Add(e, k, v))) == Sum(Values(e)) + v
  {
    var r := Add(e, k, v);
    if |e| == 0 {
      SumCons(v, []);
      assert Values(r) == [v] + [];
    } else {
      var rest := e[1..];
      assert e == [e[0]] + rest;
      ValuesCons(e[0], rest);
      SumCons(e[0].value, Values(rest));
      if e[0].key == k {
        ValuesCons(r[0], rest);
        SumCons(e[0].value + v, Values(rest));
      } else {
        AddSum(rest, k, v);
        ValuesCons(e[0], Add(rest, k, v));
        SumCons(e[0].value, Values(Add(rest, k, v)));
      }
    }
  }

  /** The dictionary after adding vs[i] under ks[i] for every i in turn. */
  function Tally<K(==)>(ks: seq<K>, vs: seq<real>): seq<Entry<K>>
    requires |ks| == |vs|
  {
    if |ks| == 0 then []
    else Add(Tally(ks[..|ks| - 1], vs[..|vs| - 1]), ks[|ks| - 1], vs[|vs| - 1])
  }

  /** One more row extends the tally by one `Add`. */
  lemma TallyStep<K>(ks: seq<K>, vs: seq<real>, i: nat)
    requires |ks| == |vs| && i < |ks|
    ensures Tally(ks[..i + 1], vs[..i + 1]) == Add(Tally(ks[..i], vs[..i]), ks[i], vs[i])
  {
    assert ks[..i + 1][..i] == ks[..i];
    assert vs[..i + 1][..i] == vs[..i];
  }

  /** Sum of the vs[i] filed under key k. */
  function SumWhere<K(==)>(ks: seq<K>, vs: seq<real>, k: K): real
    requires |ks| == |vs|
  {
    if |ks| == 0 then 0.0
    else SumWhere(ks[..|ks| - 1], vs[..|vs| - 1], k) + (if ks[|ks| - 1] == k then vs[|vs| - 1] else 0.0)
  }

  /** A tally lists each key of the input once, in order of first appearance. */
  lemma {:induction false} TallyKeys<K>(ks: seq<K>, vs: seq<real>)
    requires |ks| == |vs|
    ensures DistinctKeys(Tally(ks, vs))
    ensures forall k :: k in Keys(Tally(ks, vs)) <==> k in ks
  {
    if |ks| > 0 {
      var n := |ks|;
      var ks', vs' := ks[..n - 1], vs[..n - 1];
      TallyKeys(ks', vs');
      var t := Tally(ks', vs');
      AddKeys(t, ks[n - 1], vs[n - 1]);
      AddDistinct(t, ks[n - 1], vs[n - 1]);
      assert ks == ks' + [ks[n - 1]];
    }
  }

  /** A tally holds for every key the sum of the values filed under it. */
  lemma {:induction false} TallyGet<K>(ks: seq<K>, vs: seq<real>, k: K)
    requires |ks| == |vs|
    ensures Get(Tally(ks, vs), k) == SumWhere(ks, vs, k)
  {
    if |ks| > 0 {
      var n := |ks|;
      var ks', vs' := ks[..n - 1], vs[..n - 1];
      TallyGet(ks', vs', k);
      TallyKeys(ks', vs');
      AddGet(Tally(ks', vs'), ks[n - 1], vs[n - 1], k);
    }
  }

  /** The values of a tally add up to the sum of all values. */
  lemma {:induction false} TallyTotal<K>(ks: seq<K>, vs: seq<real>)
    requires |ks| == |vs|
    ensures Sum(Values(Tally(ks, vs))) == Sum(vs)
  {
    if |ks| > 0 {
      var n := |ks|;
      var ks', vs' := ks[..n - 1], vs[..n - 1];
      TallyTotal(ks', vs');
      AddSum(Tally(ks', vs'), ks[n - 1], vs[n - 1]);
      assert vs == vs' + [vs[n - 1]];
      SumAppend(vs', vs[n - 1]);
    }
  }

  /** In a tally the number of entries is the number of distinct keys. */
  lemma {:induction false} DistinctCount<K>(e: seq<Entry<K>>)
    requires DistinctKeys(e)
    ensures |set i | 0 <= i < |e| :: e[i].key| == |e|
  {
    if |e| > 0 {
      var init := e[..|e| - 1];
      DistinctCount(init);
      var s := set i | 0 <= i < |init| :: init[i].key;
      assert (set i | 0 <= i < |e| :: e[i].key) == s + {e[|e| - 1].key};
      assert e[|e| - 1].key !in s;
    }
  }

  /** The distinct keys of a sequence. */
  function KeySet<K>(ks: seq<K>): set<K>
  {
    set i | 0 <= i < |ks| :: ks[i]
  }

  /** A tally has one entry per distinct key. */
  lemma TallySize<K>(ks: seq<K>, vs: seq<real>)
    requires |ks| == |vs|
    ensures |Tally(ks, vs)| == |KeySet(ks)|
  {
    var t := Tally(ks, vs);
    TallyKeys(ks, vs);
    DistinctCount(t);
    var keys := set i | 0 <= i < |t| :: t[i].key;
    forall k | k in keys ensures k in KeySet(ks) {
      var j :| 0 <= j < |t| && t[j].key == k;
      assert Keys(t)[j] == k && k in ks;
      var i :| 0 <= i < |ks| && ks[i] == k;
      assert ks[i] in KeySet(ks);
    }
    forall k | k in KeySet(ks) ensures k in keys {
      var i :| 0 <= i < |ks| && ks[i] == k;
      assert k in Keys(t);
      var j :| 0 <= j < |t| && Keys(t)[j] == k;
      assert t[j].key in keys;
    }
    assert keys == KeySet(ks);
  }

  /** Whether a strictly beats b: larger in descending order, smaller otherwise. */
  predicate Beats(a: real, b: real, desc: bool)
  {
    if desc then a > b else a < b
  }

  /** Index of the first entry with the largest value (the smallest when
      !desc): Python's `max`/`min` with a key function. */
  function BestIndex<K>(e: seq<Entry<K>>, desc: bool): (i: nat)
    requires |e| > 0
    ensures i < |e|
    ensures forall j :: 0 <= j < |e| ==> !Beats(e[j].value, e[i].value, desc)
    ensures forall j :: 0 <= j < i ==> Beats(e[i].value, e[j].value, desc)
  {
    if |e| == 1 then 0
    else
      var b := BestIndex(e[..|e| - 1], desc);
      assert forall j :: 0 <= j < |e| - 1 ==> e[..|e| - 1][j] == e[j];
      if Beats(e[|e| - 1].value, e[b].value, desc) then |e| - 1 else b
  }

  /** `sorted(e, key=value, reverse=True)`: repeatedly take the first largest
      remaining entry, which is Python's stable descending sort. */
  function Rank<K>(e: seq<Entry<K>>): (r: seq<Entry<K>>)
    ensures |r| == |e|
    decreases |e|
  {
    if |e| == 0 then []
    else
      var i := BestIndex(e, true);
      [e[i]] + Rank(e[..i] + e[i + 1..])
  }

  predicate NonIncreasing<K>(r: seq<Entry<K>>)
  {
    forall i, j :: 0 <= i < j < |r| ==> r[i].value >= r[j].value
  }

  /** The ranking reorders the entries: nothing is added, lost or duplicated. */
  lemma {:induction false} RankPermutation<K>(e: seq<Entry<K>>)
    ensures multiset(Rank(e)) == multiset(e)
    decreases |e|
  {
    if |e| > 0 {
      var i := BestIndex(e, true);
      var rest := e[..i] + e[i + 1..];
      RankPermutation(rest);
      assert e == e[..i] + [e[i]] + e[i + 1..];
      assert Rank(e) == [e[i]] + Rank(rest);
    }
  }

  /** An entry taken from around position i is no larger than a largest e[i]. */
  lemma RestBelowBest<K>(e: seq<Entry<K>>, i: nat, x: Entry<K>)
    requires i < |e| && forall j :: 0 <= j < |e| ==> e[j].value <= e[i].value
    requires x in multiset(e[..i] + e[i + 1..])
    ensures x.value <= e[i].value
  {
    var rest := e[..i] + e[i + 1..];
    assert x in rest;
    var j :| 0 <= j < |rest| && rest[j] == x;
    if j < i {
      assert rest[j] == e[j];
    } else {
      assert rest[j] == e[j + 1];
    }
  }

  /** The ranking lists the entries largest first, the first largest at the head. */
  lemma {:induction false} RankOrdered<K>(e: seq<Entry<K>>)
    ensures NonIncreasing(Rank(e))
    ensures |e| > 0 ==> Rank(e)[0] == e[BestIndex(e, true)]
    decreases |e|
  {
    if |e| > 0 {
      var i := BestIndex(e, true);
      var rest := e[..i] + e[i + 1..];
      RankOrdered(rest);
      RankPermutation(rest);
      var r := Rank(e);
      var r' := Rank(rest);
      assert r == [e[i]] + r';
      forall a, b | 0 <= a < b < |r| ensures r[a].value >= r[b].value {
        assert r[b] == r'[b - 1];
        if a == 0 {
          assert r'[b - 1] in multiset(r');
          RestBelowBest(e, i, r'[b - 1]);
        } else {
          assert r[a] == r'[a - 1];
        }
      }
    }
  }

  function MinNat(a: nat, b: nat): nat
  {
    if a < b then a else b
  }

  /** `sorted(..., reverse=True)[:k]`. */
  function TopK<K>(e: seq<Entry<K>>, k: nat): (r: seq<Entry<K>>)
    ensures |r| == MinNat(k, |e|)
  {
    Rank(e)[..MinNat(k, |e|)]
  }

  /** The top k are largest first, each taken from the input, and no entry
      left out is larger than the last one kept. */
  lemma TopKSpec<K>(e: seq<Entry<K>>, k: nat)
    ensures NonIncreasing(TopK(e, k))
    ensures forall x :: x in TopK(e, k) ==> x in e
    ensures forall j :: MinNat(k, |e|) <= j < |e| && k > 0 ==> Rank(e)[j].value <= TopK(e, k)[|TopK(e, k)| - 1].value
  {
    RankPermutation(e);
    RankOrdered(e);
    var r := Rank(e);
    forall x | x in TopK(e, k) ensures x in e {
      assert x in r;
      assert x in multiset(r);
    }
  }

  /** The top k of a tally are largest first, each entry a key of the input
      with its own total. */
  lemma TallyTop<K>(ks: seq<K>, vs: seq<real>, k: nat)
    requires |ks| == |vs|
    ensures NonIncreasing(TopK(Tally(ks, vs), k))
    ensures forall x :: x in TopK(Tally(ks, vs), k) ==> x.key in ks && x.value == SumWhere(ks, vs, x.key)
  {
    var t := Tally(ks, vs);
    TopKSpec(t, k);
    TallyKeys(ks, vs);
    forall x | x in TopK(t, k) ensures x.key in ks && x.value == SumWhere(ks, vs, x.key) {
      var j :| 0 <= j < |t| && t[j] == x;
      assert Keys(t)[j] == x.key;
      GetAt(t, j);
      TallyGet(ks, vs, x.key);
    }
  }

  /** No key left out of the top k of a tally totals more than the last one kept. */
  lemma TallyLeftOut<K>(ks: seq<K>, vs: seq<real>, k: nat, key: K)
    requires |ks| == |vs| && k > 0
    requires key in ks && key !in Keys(TopK(Tally(ks, vs), k))
    ensures SumWhere(ks, vs, key) <= TopK(Tally(ks, vs), k)[|TopK(Tally(ks, vs), k)| - 1].value
  {
    var t := Tally(ks, vs);
    var r := Rank(t);
    TallyKeys(ks, vs);
    var j :| 0 <= j < |t| && Keys(t)[j] == key;
    GetAt(t, j);
    TallyGet(ks, vs, key);
    RankPermutation(t);
    assert t[j] in multiset(r);
    var p :| 0 <= p < |r| && r[p] == t[j];
    assert p >= MinNat(k, |t|) by {
      var top := TopK(t, k);
      assert forall q :: 0 <= q < |top| ==> Keys(top)[q] == r[q].key;
    }
    TopKSpec(t, k);
  }
}
