/** The in-place sort of the street groups by street name under the Danish collation. */
module Sorting {
  import opened Models
  import opened Filtering
  import opened Seqs

  /** Every pair of neighbours is in collation order. */
  ghost predicate SortedByVejNavn(gs: seq<Brondgruppe>, le: (string, string) -> bool) {
    forall i :: 0 < i < |gs| ==> le(gs[i - 1].vejNavn, gs[i].vejNavn)
  }

  /** Every two strings are comparable. */
  ghost predicate Total(le: (string, string) -> bool) {
    forall a, b :: le(a, b) || le(b, a)
  }

  /**
   * `grupper.sort((a, b) => a.vejNavn.localeCompare(b.vejNavn, 'da'))`: sorts the array in
   * place into collation order, as a permutation of its contents. Written as an insertion
   * sort that swaps neighbours only when they are strictly out of order.
   */
  method SortByVejNavn(a: array<Brondgruppe>, le: (string, string) -> bool)
    requires Total(le)
    modifies a
    ensures SortedByVejNavn(a[..], le)
    ensures multiset(a[..]) == multiset(old(a[..]))
  {
    for i := 0 to a.Length
      invariant SortedBetween(a[..], 0, i, le)
      invariant multiset(a[..]) == multiset(old(a[..]))
    {
      var j := i;
      while j > 0 && !le(a[j - 1].vejNavn, a[j].vejNavn)
        invariant 0 <= j <= i
        invariant Inserting(a[..], i, j, le)
        invariant multiset(a[..]) == multiset(old(a[..]))
      {
        ghost var s := a[..];
        SwapNeighbours(a, j);
        InsertingStep(s, i, j, le);
        j := j - 1;
      }
      InsertingDone(a[..], i, j, le);
    }
  }

  /** Neighbours in collation order from position `lo` up to, not including, `hi`. */
  ghost predicate SortedBetween(s: seq<Brondgruppe>, lo: nat, hi: nat, le: (string, string) -> bool)
    requires hi <= |s|
  {
    forall p :: lo < p < hi ==> le(s[p - 1].vejNavn, s[p].vejNavn)
  }

  /**
   * The state of the inner loop while the element that started at `i` moves down to `j`:
   * both runs on either side of it are sorted, and its two neighbours are in order.
   */
  ghost predicate Inserting(s: seq<Brondgruppe>, i: nat, j: nat, le: (string, string) -> bool)
    requires j <= i < |s|
  {
    && SortedBetween(s, 0, j, le)
    && SortedBetween(s, j, i + 1, le)
    && (0 < j < i ==> le(s[j - 1].vejNavn, s[j + 1].vejNavn))
  }

  /** Exchanges two neighbours of the array. */
  method SwapNeighbours(a: array<Brondgruppe>, j: nat)
    requires 0 < j < a.Length
    modifies a
    ensures a[..] == old(a[..])[j - 1 := old(a[j])][j := old(a[j - 1])]
    ensures multiset(a[..]) == multiset(old(a[..]))
  {
    a[j - 1], a[j] := a[j], a[j - 1];
  }

  /** Swapping an out-of-order pair moves the inserted element one place down. */
  lemma InsertingStep(s: seq<Brondgruppe>, i: nat, j: nat, le: (string, string) -> bool)
    requires Total(le)
    requires 0 < j <= i < |s|
    requires Inserting(s, i, j, le)
    requires !le(s[j - 1].vejNavn, s[j].vejNavn)
    ensures Inserting(s[j - 1 := s[j]][j := s[j - 1]], i, j - 1, le)
  {
    var t := s[j - 1 := s[j]][j := s[j - 1]];
    assert le(t[j - 1].vejNavn, t[j].vejNavn);
    forall p | j - 1 < p < i + 1
      ensures le(t[p - 1].vejNavn, t[p].vejNavn)
    {
      if p == j + 1 {
        assert t[p - 1] == s[j - 1];
      }
    }
  }

  /** When the inserted element stops, the prefix up to and including `i` is sorted. */
  lemma InsertingDone(s: seq<Brondgruppe>, i: nat, j: nat, le: (string, string) -> bool)
    requires j <= i < |s|
    requires Inserting(s, i, j, le)
    requires j == 0 || le(s[j - 1].vejNavn, s[j].vejNavn)
    ensures SortedBetween(s, 0, i + 1, le)
  {
  }

  /** With a transitive collation, neighbour order is order between every two groups. */
  lemma {:induction false} SortedIsPairwise(gs: seq<Brondgruppe>, le: (string, string) -> bool)
    requires TotalPreorder(le)
    requires SortedByVejNavn(gs, le)
    ensures forall i, j :: 0 <= i < j < |gs| ==> le(gs[i].vejNavn, gs[j].vejNavn)
  {
    if |gs| > 1 {
      var n := |gs|;
      var init := gs[..n - 1];
      SortedIsPairwise(init, le);
      forall i | 0 <= i < n - 1
        ensures le(gs[i].vejNavn, gs[n - 1].vejNavn)
      {
        if i < n - 2 {
          assert le(init[i].vejNavn, init[n - 2].vejNavn);
        }
      }
    }
  }

  /** Two strings that sort no later than each other are the same string. */
  ghost predicate Antisymmetric(le: (string, string) -> bool) {
    forall a, b :: le(a, b) && le(b, a) ==> a == b
  }

  predicate DistinctNames(gs: seq<Brondgruppe>) {
    forall i, j :: 0 <= i < j < |gs| ==> gs[i].vejNavn != gs[j].vejNavn
  }

  /** Filtering keeps names distinct. */
  lemma {:induction false} KeepDistinctNames(gs: seq<Brondgruppe>, p: Brondgruppe -> bool)
    requires DistinctNames(gs)
    ensures DistinctNames(Keep(gs, p))
  {
    if gs != [] {
      var rest := gs[1..];
      assert forall i :: 1 <= i < |gs| ==> rest[i - 1] == gs[i];
      KeepDistinctNames(rest, p);
      var kept := Keep(rest, p);
      if p(gs[0]) {
        assert Keep(gs, p) == [gs[0]] + kept;
        forall y | y in kept
          ensures y.vejNavn != gs[0].vejNavn
        {
          var j :| 0 <= j < |rest| && rest[j] == y;
          assert gs[j + 1] == y;
        }
      } else {
        assert Keep(gs, p) == kept;
      }
    }
  }

  /** Dropping the first group keeps the rest sorted and their names distinct. */
  lemma TailStaysSorted(gs: seq<Brondgruppe>, le: (string, string) -> bool)
    requires gs != []
    ensures SortedByVejNavn(gs, le) ==> SortedByVejNavn(gs[1..], le)
    ensures DistinctNames(gs) ==> DistinctNames(gs[1..])
  {
    assert forall i :: 0 <= i < |gs| - 1 ==> gs[1..][i] == gs[i + 1];
  }

  /**
   * The sort is deterministic: under a collation that orders all strings totally, groups
   * with distinct names have exactly one sorted arrangement.
   */
  lemma {:induction false} SortedArrangementIsUnique(xs: seq<Brondgruppe>, ys: seq<Brondgruppe>, le: (string, string) -> bool)
    requires TotalPreorder(le) && Antisymmetric(le)
    requires DistinctNames(xs)
    requires SortedByVejNavn(xs, le) && SortedByVejNavn(ys, le)
    requires multiset(xs) == multiset(ys)
    ensures xs == ys
    decreases |xs|
  {
    if xs != [] {
      assert |ys| == |xs| by {
        assert |multiset(ys)| == |multiset(xs)|;
      }
      SortedIsPairwise(xs, le);
      SortedIsPairwise(ys, le);
      assert ys[0] in multiset(xs) by {
        assert ys[0] in ys;
      }
      var m :| 0 <= m < |xs| && xs[m] == ys[0];
      assert xs[0] in multiset(ys) by {
        assert xs[0] in xs;
      }
      var k :| 0 <= k < |ys| && ys[k] == xs[0];
      assert m == 0;
      MultisetTail(xs);
      MultisetTail(ys);
      TailStaysSorted(xs, le);
      TailStaysSorted(ys, le);
      SortedArrangementIsUnique(xs[1..], ys[1..], le);
    }
  }
}
