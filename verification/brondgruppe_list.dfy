/**
 * The street-group list component: the search box, which writes the street-name search into
 * the service's filter, and `zoomToGroup`, which selects the cluster most wells of a group
 * belong to.
 */
module BrondgruppeListComponent {
  import opened Wrappers
  import opened Models
  import opened Seqs
  import opened KeyedIndex
  import opened Filtering
  import opened BrondData

  /** The key of the count Map: the cluster id; wells without one are skipped. */
  function ClusterIdOf(b: Brond): Option<int> {
    b.clusterId
  }

  /** How many wells of `xs` belong to cluster `k`. */
  function Count(xs: seq<Brond>, k: int): nat {
    Occurrences(xs, ClusterIdOf, k)
  }

  /** A cluster has wells exactly when its id is among the ids seen. */
  lemma CountPositive(xs: seq<Brond>, k: int)
    ensures Count(xs, k) > 0 <==> k in Keys(xs, ClusterIdOf)
  {
  }

  /**
   * `best` is the most common cluster id of `xs`: none exactly when no well has a cluster
   * id; otherwise no cluster has more wells, and of the clusters with as many, `best` is
   * the one seen first.
   */
  ghost predicate MostCommon(xs: seq<Brond>, best: Option<int>) {
    && (best.None? <==> forall i :: 0 <= i < |xs| ==> xs[i].clusterId.None?)
    && (best.Some? ==>
          forall k :: Count(xs, k) <= Count(xs, best.value)
            && (Count(xs, k) == Count(xs, best.value) ==>
                  FirstOccurrence(xs, ClusterIdOf, best.value) <= FirstOccurrence(xs, ClusterIdOf, k)))
  }

  /**
   * The first loop of `zoomToGroup`: the Map from cluster id to count, as
   * `set(id, (get(id) || 0) + 1)` for every well with a cluster id. Written for any key
   * function; `zoomToGroup` passes `ClusterIdOf`.
   */
  method CountClusters<K(==,!new)>(xs: seq<Brond>, key: Brond -> Option<K>) returns (ids: seq<K>, clusterCounts: map<K, nat>)
    ensures ids == Keys(xs, key)
    ensures forall k :: k in clusterCounts <==> k in ids
    ensures forall k :: k in clusterCounts ==> clusterCounts[k] == Occurrences(xs, key, k)
  {
    ids, clusterCounts := [], map[];
    for i := 0 to |xs|
      invariant CountsOf(xs[..i], key, ids, clusterCounts)
    {
      CountAppend(xs[..i], xs[i], key, ids, clusterCounts);
      PrefixSnoc(xs, i);
      match key(xs[i]) {
        case None =>
        case Some(id) =>
          var count := if id in clusterCounts then clusterCounts[id] else 0;
          clusterCounts := clusterCounts[id := count + 1];
          if id !in ids {
            ids := ids + [id];
          }
      }
    }
    assert xs[..|xs|] == xs;
  }

  /** `ids` and `clusterCounts` are the count Map of `xs`: its keys in order, and each key's count. */
  ghost predicate CountsOf<K(!new)>(xs: seq<Brond>, key: Brond -> Option<K>, ids: seq<K>, clusterCounts: map<K, nat>) {
    && ids == Keys(xs, key)
    && (forall k :: k in clusterCounts <==> k in ids)
    && (forall k :: k in clusterCounts ==> clusterCounts[k] == Occurrences(xs, key, k))
  }

  /** One more well: its id is appended if new, and its count goes up by one. */
  lemma CountAppend<K(!new)>(xs: seq<Brond>, x: Brond, key: Brond -> Option<K>, ids: seq<K>, clusterCounts: map<K, nat>)
    requires CountsOf(xs, key, ids, clusterCounts)
    ensures match key(x)
      case None => CountsOf(xs + [x], key, ids, clusterCounts)
      case Some(k) =>
        CountsOf(xs + [x], key, if k in ids then ids else ids + [k],
                 clusterCounts[k := (if k in clusterCounts then clusterCounts[k] else 0) + 1])
  {
    match key(x)
    case None => CountAppendSkip(xs, x, key, ids, clusterCounts);
    case Some(k) => CountAppendKey(xs, x, key, k, ids, clusterCounts);
  }

  /** A well without a cluster id changes neither the ids nor the counts. */
  lemma CountAppendSkip<K(!new)>(xs: seq<Brond>, x: Brond, key: Brond -> Option<K>, ids: seq<K>, clusterCounts: map<K, nat>)
    requires CountsOf(xs, key, ids, clusterCounts)
    requires key(x).None?
    ensures CountsOf(xs + [x], key, ids, clusterCounts)
  {
    KeysAppend(xs, x, key);
    forall j | j in clusterCounts
      ensures clusterCounts[j] == Occurrences(xs + [x], key, j)
    {
      OccurrencesAppend(xs, key, x, j);
    }
  }

  /** A well with cluster id `k` raises the count of `k` alone. */
  lemma CountAppendKey<K(!new)>(xs: seq<Brond>, x: Brond, key: Brond -> Option<K>, k: K, ids: seq<K>, clusterCounts: map<K, nat>)
    requires CountsOf(xs, key, ids, clusterCounts)
    requires key(x) == Some(k)
    ensures CountsOf(xs + [x], key, if k in ids then ids else ids + [k],
                     clusterCounts[k := (if k in clusterCounts then clusterCounts[k] else 0) + 1])
  {
    KeysAppend(xs, x, key);
    var count := if k in clusterCounts then clusterCounts[k] else 0;
    var counts': map<K, nat> := clusterCounts[k := count + 1];
    DomainAppend(ids, clusterCounts, k, count + 1);
    forall j | j in counts'
      ensures counts'[j] == Occurrences(xs + [x], key, j)
    {
      OccurrencesAppend(xs, key, x, j);
      if j == k && k !in clusterCounts {
        assert |MembersOf(xs, key, k)| == 0;
      }
    }
    var ids' := if k in ids then ids else ids + [k];
    assert ids' == Keys(xs + [x], key);
    assert forall j :: j in counts' <==> j in ids';
    assert CountsOf(xs + [x], key, ids', counts');
  }

  /**
   * The second loop of `zoomToGroup`: walks the ids in Map order and keeps the first one
   * whose count is strictly larger than every count before it. `bi` is the position of the
   * id kept.
   */
  method PickFirstMaximum(ids: seq<int>, clusterCounts: map<int, nat>)
    returns (bestClusterId: Option<int>, maxCount: nat, ghost bi: nat)
    requires forall s :: 0 <= s < |ids| ==> ids[s] in clusterCounts && clusterCounts[ids[s]] > 0
    ensures bestClusterId.None? <==> ids == []
    ensures bestClusterId.None? ==> maxCount == 0
    ensures bestClusterId.Some? ==>
      bi < |ids| && bestClusterId.value == ids[bi] && maxCount == clusterCounts[ids[bi]]
    ensures forall s :: 0 <= s < |ids| ==> clusterCounts[ids[s]] <= maxCount
    ensures forall s :: 0 <= s < bi && s < |ids| ==> clusterCounts[ids[s]] < maxCount
  {
    bestClusterId, maxCount, bi := None, 0, 0;
    for t := 0 to |ids|
      invariant bestClusterId.None? <==> t == 0
      invariant bestClusterId.None? ==> maxCount == 0 && bi == 0
      invariant bestClusterId.Some? ==>
        bi < t && bestClusterId.value == ids[bi] && maxCount == clusterCounts[ids[bi]]
      invariant forall s :: 0 <= s < t ==> clusterCounts[ids[s]] <= maxCount
      invariant forall s :: 0 <= s < bi && s < |ids| ==> clusterCounts[ids[s]] < maxCount
    {
      var id := ids[t];
      var count := clusterCounts[id];
      if count > maxCount {
        maxCount := count;
        bestClusterId := Some(id);
        bi := t;
      }
    }
  }

  /** No id is seen exactly when no well has a cluster id. */
  lemma NoIdsWithoutClusters(xs: seq<Brond>)
    ensures Keys(xs, ClusterIdOf) == [] <==> forall i :: 0 <= i < |xs| ==> xs[i].clusterId.None?
  {
    if Keys(xs, ClusterIdOf) == [] {
      forall i | 0 <= i < |xs|
        ensures xs[i].clusterId.None?
      {
        assert ClusterIdOf(xs[i]) == xs[i].clusterId;
      }
    } else {
      var k := Keys(xs, ClusterIdOf)[0];
      var i :| 0 <= i < |xs| && ClusterIdOf(xs[i]) == Some(k);
      assert xs[i].clusterId.Some?;
    }
  }

  /**
   * An id at position `bi` of the Map order whose count is the largest, and strictly larger
   * than the counts of the ids before it, comes first among the most common ids.
   */
  lemma FirstMaximumComesFirst(xs: seq<Brond>, bi: nat, k: int)
    requires bi < |Keys(xs, ClusterIdOf)|
    requires var ids := Keys(xs, ClusterIdOf);
      && (forall s :: 0 <= s < |ids| ==> Count(xs, ids[s]) <= Count(xs, ids[bi]))
      && (forall s :: 0 <= s < bi ==> Count(xs, ids[s]) < Count(xs, ids[bi]))
    ensures var b := Keys(xs, ClusterIdOf)[bi];
      && Count(xs, k) <= Count(xs, b)
      && (Count(xs, k) == Count(xs, b) ==>
            FirstOccurrence(xs, ClusterIdOf, b) <= FirstOccurrence(xs, ClusterIdOf, k))
  {
    var ids := Keys(xs, ClusterIdOf);
    var b := ids[bi];
    if k in ids {
      var s :| 0 <= s < |ids| && ids[s] == k;
      if bi < s {
        KeysFollowFirstOccurrence(xs, ClusterIdOf, bi, s);
      }
    } else {
      CountPositive(xs, k);
      CountPositive(xs, b);
    }
  }

  /**
   * Keeping the first strictly larger count, in the order the ids are first seen, finds
   * the most common cluster id.
   */
  lemma FirstMaximumIsMostCommon(xs: seq<Brond>, best: Option<int>, bi: nat)
    requires best.None? <==> Keys(xs, ClusterIdOf) == []
    requires best.Some? ==>
      var ids := Keys(xs, ClusterIdOf);
      && bi < |ids| && best.value == ids[bi]
      && (forall s :: 0 <= s < |ids| ==> Count(xs, ids[s]) <= Count(xs, best.value))
      && (forall s :: 0 <= s < bi ==> Count(xs, ids[s]) < Count(xs, best.value))
    ensures MostCommon(xs, best)
  {
    NoIdsWithoutClusters(xs);
    if best.Some? {
      forall k
        ensures Count(xs, k) <= Count(xs, best.value)
        ensures Count(xs, k) == Count(xs, best.value) ==>
          FirstOccurrence(xs, ClusterIdOf, best.value) <= FirstOccurrence(xs, ClusterIdOf, k)
      {
        FirstMaximumComesFirst(xs, bi, k);
      }
    }
  }

  /**
   * Both loops of `zoomToGroup`: counts the wells per cluster, then walks the Map in
   * insertion order keeping the first id with a strictly larger count.
   */
  method MostCommonCluster(xs: seq<Brond>) returns (bestClusterId: Option<int>, maxCount: nat)
    ensures MostCommon(xs, bestClusterId)
    ensures maxCount == if bestClusterId.Some? then Count(xs, bestClusterId.value) else 0
  {
    var ids, clusterCounts := CountClusters(xs, ClusterIdOf);
    forall s | 0 <= s < |ids|
      ensures ids[s] in clusterCounts && clusterCounts[ids[s]] == Count(xs, ids[s]) > 0
    {
      var id := ids[s];
      assert id in ids;
      CountPositive(xs, id);
    }
    ghost var bi;
    bestClusterId, maxCount, bi := PickFirstMaximum(ids, clusterCounts);
    FirstMaximumIsMostCommon(xs, bestClusterId, bi);
  }

  /** The most common cluster is well defined: two answers that meet the description agree. */
  lemma MostCommonIsUnique(xs: seq<Brond>, a: Option<int>, b: Option<int>)
    requires MostCommon(xs, a) && MostCommon(xs, b)
    ensures a == b
  {
    if a.Some? && b.Some? {
      MostCommonOccurs(xs, a);
      var fa := FirstOccurrence(xs, ClusterIdOf, a.value);
      assert Count(xs, a.value) == Count(xs, b.value);
      assert fa == FirstOccurrence(xs, ClusterIdOf, b.value);
      assert ClusterIdOf(xs[fa]) == Some(b.value);
    }
  }

  /** A most common cluster occurs in the group. */
  lemma MostCommonOccurs(xs: seq<Brond>, best: Option<int>)
    requires MostCommon(xs, best) && best.Some?
    ensures FirstOccurrence(xs, ClusterIdOf, best.value) < |xs|
  {
    var i :| 0 <= i < |xs| && xs[i].clusterId.Some?;
    var c := xs[i].clusterId.value;
    assert ClusterIdOf(xs[i]) == Some(c);
    CountPositive(xs, c);
    assert Count(xs, c) <= Count(xs, best.value);
    CountPositive(xs, best.value);
  }

  /** The component. `dataService` is the injected service, `searchQuery` the search signal. */
  class BrondgruppeList {
    const dataService: BrondDataService
    var searchQuery: string

    constructor (dataService: BrondDataService)
      ensures this.dataService == dataService
      ensures searchQuery == ""
    {
      this.dataService := dataService;
      searchQuery := "";
    }

    /** `onSearchChange`: the query becomes the search, and the search criterion of the filter. */
    method OnSearchChange(query: string)
      modifies this, dataService
      ensures searchQuery == query
      ensures dataService.filter == old(dataService.filter).(vejNavnSearch := Some(query))
      ensures dataService.resource == old(dataService.resource)
      ensures dataService.selectedClusterId == old(dataService.selectedClusterId)
    {
      searchQuery := query;
      dataService.UpdateFilter(NoUpdate.(vejNavnSearch := Some(Some(query))));
    }

    /** `clearSearch`: an empty search, which switches the search criterion off. */
    method ClearSearch()
      modifies this, dataService
      ensures searchQuery == ""
      ensures dataService.filter == old(dataService.filter).(vejNavnSearch := Some(""))
      ensures !SearchActive(dataService.filter)
      ensures dataService.resource == old(dataService.resource)
      ensures dataService.selectedClusterId == old(dataService.selectedClusterId)
    {
      searchQuery := "";
      dataService.UpdateFilter(NoUpdate.(vejNavnSearch := Some(Some(""))));
    }

    /** `zoomToGroup`: selects the most common cluster id of the group's wells, or none. */
    method ZoomToGroup(gruppe: Brondgruppe)
      modifies dataService
      ensures MostCommon(gruppe.broende, dataService.selectedClusterId)
      ensures dataService.resource == old(dataService.resource)
      ensures dataService.filter == old(dataService.filter)
    {
      var bestClusterId, maxCount := MostCommonCluster(gruppe.broende);
      dataService.SelectClusterId(bestClusterId);
    }
  }
}
