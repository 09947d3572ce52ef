/**
 * The insertion-ordered JavaScript `Map` from a key to the wells carrying it, as built by
 * the grouping loops of the service (by street name, by cluster) and counted by the list
 * component (by cluster id). A key function returning `None` means "skip this well".
 */
module KeyedIndex {
  import opened Wrappers
  import opened Models
  import opened Seqs

  /** The distinct keys of `xs` in the order they are first seen: the Map's iteration order. */
  function Keys<K(==,!new)>(xs: seq<Brond>, key: Brond -> Option<K>): (ks: seq<K>)
    ensures forall k :: k in ks <==> exists i :: 0 <= i < |xs| && key(xs[i]) == Some(k)
    ensures Distinct(ks)
  {
    if xs == [] then []
    else
      var init := xs[..|xs| - 1];
      var ks := Keys(init, key);
      assert forall i :: 0 <= i < |init| ==> init[i] == xs[i];
      match key(xs[|xs| - 1])
      case None => ks
      case Some(k) => if k in ks then ks else ks + [k]
  }

  predicate Distinct<K(==,!new)>(ks: seq<K>) {
    forall p, q :: 0 <= p < q < |ks| ==> ks[p] != ks[q]
  }

  /** The wells whose key is `k`, in input order: the array the Map holds under `k`. */
  function MembersOf<K(==,!new)>(xs: seq<Brond>, key: Brond -> Option<K>, k: K): (ms: seq<Brond>)
    ensures |ms| <= |xs|
    ensures forall x :: x in ms ==> x in xs && key(x) == Some(k)
    ensures forall i :: 0 <= i < |xs| && key(xs[i]) == Some(k) ==> xs[i] in ms
    ensures |ms| > 0 <==> k in Keys(xs, key)
  {
    if xs == [] then []
    else
      var init := xs[..|xs| - 1];
      var last := xs[|xs| - 1];
      assert xs == init + [last];
      MembersOf(init, key, k) + if key(last) == Some(k) then [last] else []
  }

  /** How many wells carry key `k`. */
  function Occurrences<K(==,!new)>(xs: seq<Brond>, key: Brond -> Option<K>, k: K): nat {
    |MembersOf(xs, key, k)|
  }

  /** The index of the first well carrying key `k`, or `|xs|` when there is none. */
  function FirstOccurrence<K(==,!new)>(xs: seq<Brond>, key: Brond -> Option<K>, k: K): (f: nat)
    ensures f <= |xs|
    ensures f < |xs| ==> key(xs[f]) == Some(k)
    ensures forall j :: 0 <= j < f ==> key(xs[j]) != Some(k)
    ensures f < |xs| <==> k in Keys(xs, key)
  {
    if xs == [] then 0
    else
      var init := xs[..|xs| - 1];
      var f := FirstOccurrence(init, key, k);
      if f < |init| then f
      else if key(xs[|xs| - 1]) == Some(k) then |xs| - 1
      else |xs|
  }

  /** Builds the Map one well at a time, as `get(key) || []`, `push`, `set(key, …)` do. */
  method BuildIndex<K(==,!new)>(xs: seq<Brond>, key: Brond -> Option<K>)
    returns (keys: seq<K>, index: map<K, seq<Brond>>)
    ensures keys == Keys(xs, key)
    ensures forall k :: k in index <==> k in keys
    ensures forall k :: k in index ==> index[k] == MembersOf(xs, key, k)
  {
    keys, index := [], map[];
    for i := 0 to |xs|
      invariant IndexOf(xs[..i], key, keys, index)
    {
      IndexAppend(xs[..i], xs[i], key, keys, index);
      PrefixSnoc(xs, i);
      match key(xs[i]) {
        case None =>
        case Some(k) =>
          var existing := if k in index then index[k] else [];
          index := index[k := existing + [xs[i]]];
          if k !in keys {
            keys := keys + [k];
          }
      }
    }
    assert xs[..|xs|] == xs;
  }

  /** `keys` and `index` are the Map built from `xs`: its keys in order, and each key's wells. */
  ghost predicate IndexOf<K(!new)>(xs: seq<Brond>, key: Brond -> Option<K>, keys: seq<K>, index: map<K, seq<Brond>>) {
    && keys == Keys(xs, key)
    && (forall k :: k in index <==> k in keys)
    && (forall k :: k in index ==> index[k] == MembersOf(xs, key, k))
  }

  /** One more well: its key is appended if new, and the well is pushed onto that key's array. */
  lemma IndexAppend<K(!new)>(xs: seq<Brond>, x: Brond, key: Brond -> Option<K>, keys: seq<K>, index: map<K, seq<Brond>>)
    requires IndexOf(xs, key, keys, index)
    ensures match key(x)
      case None => IndexOf(xs + [x], key, keys, index)
      case Some(k) =>
        IndexOf(xs + [x], key, if k in keys then keys else keys + [k],
                index[k := (if k in index then index[k] else []) + [x]])
  {
    KeysAppend(xs, x, key);
    match key(x)
    case None =>
      forall j | j in index
        ensures index[j] == MembersOf(xs + [x], key, j)
      {
        MembersAppend(xs, x, key, j);
      }
    case Some(k) =>
      var existing := if k in index then index[k] else [];
      var index' := index[k := existing + [x]];
      DomainAppend(keys, index, k, existing + [x]);
      forall j | j in index'
        ensures index'[j] == MembersOf(xs + [x], key, j)
      {
        MembersAppend(xs, x, key, j);
        if j == k && k !in index {
          assert |MembersOf(xs, key, k)| == 0;
        }
      }
      var keys' := if k in keys then keys else keys + [k];
      assert keys' == Keys(xs + [x], key);
      assert forall j :: j in index' <==> j in keys';
      assert IndexOf(xs + [x], key, keys', index');
  }

  /** Setting a key in a Map whose keys are `keys` lists it at the end if it is new. */
  lemma DomainAppend<K, V>(keys: seq<K>, m: map<K, V>, k: K, v: V)
    requires forall j :: j in m <==> j in keys
    ensures forall j :: j in m[k := v] <==> j in keys || j == k
  {
  }

  /** Appending a well adds its key to the end of the keys, unless the key was seen. */
  lemma KeysAppend<K(!new)>(xs: seq<Brond>, x: Brond, key: Brond -> Option<K>)
    ensures Keys(xs + [x], key) == match key(x)
      case None => Keys(xs, key)
      case Some(k) => if k in Keys(xs, key) then Keys(xs, key) else Keys(xs, key) + [k]
  {
    assert (xs + [x])[..|xs|] == xs;
  }

  /** Appending a well adds it to the members of its own key and of no other. */
  lemma MembersAppend<K(!new)>(xs: seq<Brond>, x: Brond, key: Brond -> Option<K>, k: K)
    ensures MembersOf(xs + [x], key, k) == MembersOf(xs, key, k) + if key(x) == Some(k) then [x] else []
  {
    assert (xs + [x])[..|xs|] == xs;
  }

  /** The keys seen in a prefix of the input are a prefix of all keys: the Map only appends. */
  lemma {:induction false} KeysOfPrefix<K(!new)>(xs: seq<Brond>, key: Brond -> Option<K>, j: nat)
    requires j <= |xs|
    ensures Keys(xs[..j], key) <= Keys(xs, key)
    decreases |xs|
  {
    if j < |xs| {
      var init := xs[..|xs| - 1];
      assert init[..j] == xs[..j];
      KeysOfPrefix(init, key, j);
    } else {
      assert xs[..j] == xs;
    }
  }

  /** Keys are listed in the order of their first occurrence in the input. */
  lemma {:induction false} KeysFollowFirstOccurrence<K(!new)>(xs: seq<Brond>, key: Brond -> Option<K>, p: nat, q: nat)
    requires p < q < |Keys(xs, key)|
    ensures FirstOccurrence(xs, key, Keys(xs, key)[p]) < FirstOccurrence(xs, key, Keys(xs, key)[q])
  {
    var n := |xs|;
    var init := xs[..n - 1];
    var ks := Keys(xs, key);
    var kp, kq := ks[p], ks[q];
    assert ks[..|Keys(init, key)|] == Keys(init, key);
    if q < |Keys(init, key)| {
      KeysFollowFirstOccurrence(init, key, p, q);
    } else {
      assert kq !in Keys(init, key);
      assert FirstOccurrence(xs, key, kq) == n - 1;
    }
  }

  /** The first member under a key is the well where that key first occurs. */
  lemma {:induction false} FirstMember<K(!new)>(xs: seq<Brond>, key: Brond -> Option<K>, k: K)
    requires k in Keys(xs, key)
    ensures MembersOf(xs, key, k)[0] == xs[FirstOccurrence(xs, key, k)]
  {
    var init := xs[..|xs| - 1];
    if k in Keys(init, key) {
      FirstMember(init, key, k);
    } else {
      assert MembersOf(init, key, k) == [];
    }
  }

  /** The sum of the member counts over the keys `ks`. */
  function SumOfSizes<K(==,!new)>(xs: seq<Brond>, key: Brond -> Option<K>, ks: seq<K>): nat {
    if ks == [] then 0
    else SumOfSizes(xs, key, ks[..|ks| - 1]) + Occurrences(xs, key, ks[|ks| - 1])
  }

  /** The number of wells that carry some key. */
  function KeyedCount<K>(xs: seq<Brond>, key: Brond -> Option<K>): nat {
    if xs == [] then 0
    else KeyedCount(xs[..|xs| - 1], key) + if key(xs[|xs| - 1]).Some? then 1 else 0
  }

  /** Appending one well adds one to the count of its own key and to no other. */
  lemma OccurrencesAppend<K(!new)>(xs: seq<Brond>, key: Brond -> Option<K>, x: Brond, k: K)
    ensures Occurrences(xs + [x], key, k) == Occurrences(xs, key, k) + if key(x) == Some(k) then 1 else 0
  {
    assert (xs + [x])[..|xs|] == xs;
  }

  /** Appending one well grows the sum over distinct keys by one exactly when its key is among them. */
  lemma {:induction false} SumOfSizesAppend<K(!new)>(xs: seq<Brond>, key: Brond -> Option<K>, x: Brond, ks: seq<K>)
    requires Distinct(ks)
    ensures SumOfSizes(xs + [x], key, ks)
         == SumOfSizes(xs, key, ks) + if key(x).Some? && key(x).value in ks then 1 else 0
  {
    if ks != [] {
      var init := ks[..|ks| - 1];
      var last := ks[|ks| - 1];
      assert ks == init + [last];
      SumOfSizesAppend(xs, key, x, init);
      OccurrencesAppend(xs, key, x, last);
    }
  }

  /** Every keyed well is counted exactly once over all keys: the Map is a partition. */
  lemma {:induction false} KeysPartition<K(!new)>(xs: seq<Brond>, key: Brond -> Option<K>)
    ensures SumOfSizes(xs, key, Keys(xs, key)) == KeyedCount(xs, key)
  {
    if xs != [] {
      var init := xs[..|xs| - 1];
      var x := xs[|xs| - 1];
      var ks := Keys(init, key);
      assert xs == init + [x];
      KeysPartition(init, key);
      SumOfSizesAppend(init, key, x, ks);
      match key(x)
      case None =>
      case Some(k) =>
        if k !in ks {
          assert (ks + [k])[..|ks|] == ks;
          OccurrencesAppend(init, key, x, k);
        }
    }
  }

  /** The members under `k` are exactly what `Array.prototype.filter` on the key would return. */
  lemma {:induction false} MembersOfIsFilter<K(!new)>(xs: seq<Brond>, key: Brond -> Option<K>, k: K, p: Brond -> bool)
    requires forall i :: 0 <= i < |xs| ==> (p(xs[i]) <==> key(xs[i]) == Some(k))
    ensures MembersOf(xs, key, k) == Keep(xs, p)
  {
    if xs != [] {
      var init := xs[..|xs| - 1];
      var last := xs[|xs| - 1];
      MembersOfIsFilter(init, key, k, p);
      LastSplit(xs);
      KeepSnoc(init, last, p);
    }
  }

  /** When every well carries a key, the keyed count is the number of wells. */
  lemma {:induction false} KeyedCountTotal<K>(xs: seq<Brond>, key: Brond -> Option<K>)
    requires forall i :: 0 <= i < |xs| ==> key(xs[i]).Some?
    ensures KeyedCount(xs, key) == |xs|
  {
    if xs != [] {
      KeyedCountTotal(xs[..|xs| - 1], key);
    }
  }
}
