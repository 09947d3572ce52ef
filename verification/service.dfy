/**
 * `BrondDataService`: the loaded wells, the current filter and the selected cluster, and
 * the views computed from them (the sorted street groups, their two counts and the hull
 * features).
 */
module BrondData {
  import opened Wrappers
  import opened Models
  import opened KeyedIndex
  import opened Grouping
  import opened Filtering
  import opened Sorting
  import opened Hulls

  /** The HTTP resource holding the wells: still loading, loaded, or failed. */
  datatype ResourceState = Loading | Loaded(broende: seq<Brond>) | Failed

  /** The wells the views see: the loaded ones, or none while loading or after a failure. */
  function WellsOf(resource: ResourceState): seq<Brond> {
    if resource.Loaded? then resource.broende else []
  }

  /** The street groups left by the filter, before sorting. */
  function Visible(bs: seq<Brond>, f: BrondgruppeFilter, lower: string -> string): seq<Brondgruppe> {
    ApplyFilter(Grouped(bs), f, lower)
  }

  /**
   * The service. The signals become fields: `filter` is the filter signal, `resource` the
   * state of the HTTP resource, `selectedClusterId` the selection the list and the map share.
   */
  class BrondDataService {
    var resource: ResourceState
    var filter: BrondgruppeFilter
    var selectedClusterId: Option<int>

    /** The filter starts as `{}` and nothing is selected. */
    constructor (resource: ResourceState)
      ensures this.resource == resource
      ensures filter == NoFilter
      ensures selectedClusterId == None
    {
      this.resource := resource;
      filter := NoFilter;
      selectedClusterId := None;
    }

    function Broende(): seq<Brond>
      reads this
    {
      WellsOf(resource)
    }

    /**
     * `brondgrupper`: groups the wells by street, filters the groups, and sorts them in
     * place by street name. The result is in collation order and holds exactly the groups
     * that pass the filter.
     */
    method Brondgrupper(c: Collation) returns (grupper: seq<Brondgruppe>)
      requires Total(c.le)
      ensures SortedByVejNavn(grupper, c.le)
      ensures multiset(grupper) == multiset(Visible(Broende(), filter, c.lower))
    {
      var grouped := GroupByVejNavn(Broende());
      var filtered := ApplyFilter(grouped, filter, c.lower);
      var a := new Brondgruppe[|filtered|](i requires 0 <= i < |filtered| => filtered[i]);
      assert a[..] == filtered;
      SortByVejNavn(a, c.le);
      grupper := a[..];
    }

    /** `antalGrupper`: the number of groups that pass the filter, never more than there are streets. */
    method CountGroups(c: Collation) returns (n: nat)
      requires Total(c.le)
      ensures n == |Visible(Broende(), filter, c.lower)|
      ensures n <= |Keys(Broende(), VejNavnKey)|
    {
      var grupper := Brondgrupper(c);
      n := AntalGrupper(grupper);
      assert |multiset(grupper)| == |multiset(Visible(Broende(), filter, c.lower))|;
      ApplyFilterIsConjunction(Grouped(Broende()), filter, c.lower);
    }

    /**
     * `antalBroende`: the wells summed over the groups that pass the filter; never more than
     * all wells, and all of them when no criterion is active.
     */
    method CountWells(c: Collation) returns (n: nat)
      requires Total(c.le)
      ensures n == AntalBroende(Visible(Broende(), filter, c.lower))
      ensures n <= |Broende()|
      ensures !SearchActive(filter) && !MinActive(filter) && !StatusActive(filter) ==> n == |Broende()|
    {
      var grupper := Brondgrupper(c);
      n := AntalBroende(grupper);
      AntalBroendeOfPermutation(grupper, Visible(Broende(), filter, c.lower));
      VisibleWellsBound(Broende(), filter, c.lower);
    }

    /** `brondgrupperGeoJSON`: the hull features of the loaded wells; the filter plays no part. */
    method BrondgrupperGeoJSON(kit: GeometryKit) returns (features: seq<HullFeature>)
      ensures features == HullFeatures(Broende(), kit)
    {
      features := Hulls.BrondgrupperGeoJSON(Broende(), kit);
    }

    /** `updateFilter`: the properties present in the update replace the current ones. */
    method UpdateFilter(update: FilterUpdate)
      modifies this
      ensures filter == MergeFilter(old(filter), update)
      ensures resource == old(resource) && selectedClusterId == old(selectedClusterId)
    {
      filter := MergeFilter(filter, update);
    }

    /** `clearFilters`: back to `{}`, where no criterion is active. */
    method ClearFilters()
      modifies this
      ensures filter == NoFilter
      ensures !SearchActive(filter) && !MinActive(filter) && !StatusActive(filter)
      ensures resource == old(resource) && selectedClusterId == old(selectedClusterId)
    {
      filter := NoFilter;
    }

    /** `selectClusterId`: records the selected cluster. */
    method SelectClusterId(id: Option<int>)
      modifies this
      ensures selectedClusterId == id
      ensures resource == old(resource) && filter == old(filter)
    {
      selectedClusterId := id;
    }
  }

  /**
   * The filtered groups hold no more wells than were loaded, and exactly those wells when
   * no criterion is active.
   */
  lemma VisibleWellsBound(bs: seq<Brond>, f: BrondgruppeFilter, lower: string -> string)
    ensures AntalBroende(Visible(bs, f, lower)) <= |bs|
    ensures !SearchActive(f) && !MinActive(f) && !StatusActive(f) ==> AntalBroende(Visible(bs, f, lower)) == |bs|
  {
    var gs := Grouped(bs);
    ApplyFilterIsConjunction(gs, f, lower);
    AntalBroendeOfKeep(gs, PassesFilter(f, lower));
    GroupSizesSumToWells(bs);
    if !SearchActive(f) && !MinActive(f) && !StatusActive(f) {
      InactiveFilterIsIdentity(gs, f, lower, f.dateRange);
    }
  }

  /**
   * `brondgrupper` is determined by the wells, the filter and the collation: with a
   * collation that orders every two distinct names strictly, any two results of the sort
   * are the same sequence.
   */
  lemma BrondgrupperIsDeterminate(bs: seq<Brond>, f: BrondgruppeFilter, c: Collation, xs: seq<Brondgruppe>, ys: seq<Brondgruppe>)
    requires TotalPreorder(c.le) && Antisymmetric(c.le)
    requires SortedByVejNavn(xs, c.le) && multiset(xs) == multiset(Visible(bs, f, c.lower))
    requires SortedByVejNavn(ys, c.le) && multiset(ys) == multiset(Visible(bs, f, c.lower))
    ensures xs == ys
  {
    var gs := Grouped(bs);
    GroupingIsPartition(bs);
    assert DistinctNames(gs);
    ApplyFilterIsConjunction(gs, f, c.lower);
    KeepDistinctNames(gs, PassesFilter(f, c.lower));
    MultisetDistinctNames(Visible(bs, f, c.lower), xs);
    SortedArrangementIsUnique(xs, ys, c.le);
  }

  /** A rearrangement of groups with distinct names has distinct names. */
  lemma MultisetDistinctNames(gs: seq<Brondgruppe>, hs: seq<Brondgruppe>)
    requires DistinctNames(gs)
    requires multiset(gs) == multiset(hs)
    ensures DistinctNames(hs)
  {
    forall i, j | 0 <= i < j < |hs|
      ensures hs[i].vejNavn != hs[j].vejNavn
    {
      if hs[i].vejNavn == hs[j].vejNavn {
        assert hs[i] in multiset(gs);
        assert hs[j] in multiset(gs);
        var p :| 0 <= p < |gs| && gs[p] == hs[i];
        var q :| 0 <= q < |gs| && gs[q] == hs[j];
        assert p == q;
        SameTwice(hs, i, j);
        AtMostOnce(gs, hs[i]);
        assert false;
      }
    }
  }

  /** An element at two positions is counted at least twice. */
  lemma SameTwice(hs: seq<Brondgruppe>, i: nat, j: nat)
    requires i < j < |hs| && hs[i] == hs[j]
    ensures multiset(hs)[hs[i]] >= 2
  {
    assert hs == hs[..j] + hs[j..];
    assert hs[i] in hs[..j];
    assert hs[j] == hs[j..][0];
    assert multiset(hs) == multiset(hs[..j]) + multiset(hs[j..]);
  }

  /** Groups with distinct names hold each group at most once. */
  lemma {:induction false} AtMostOnce(gs: seq<Brondgruppe>, x: Brondgruppe)
    requires DistinctNames(gs)
    ensures multiset(gs)[x] <= 1
  {
    if gs != [] {
      var rest := gs[1..];
      assert gs == [gs[0]] + rest;
      assert forall i :: 1 <= i < |gs| ==> rest[i - 1] == gs[i];
      AtMostOnce(rest, x);
      if x == gs[0] {
        assert x !in rest;
      }
    }
  }
}
