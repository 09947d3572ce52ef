# Brøndsug: a verified model of the well dashboard's data core

This project models the data core of the *broendsug* dashboard. The dashboard shows
sewer wells (*brønde*) grouped by street (*vej*), so they can be planned for suction
cleaning. The model covers two parts of the Angular application.

- `BrondDataService` holds the loaded wells, the filter and the selected cluster. From
  them it computes:
  - the street groups (*brøndgrupper*), each with its statistics;
  - the filtered, collation-sorted list of those groups;
  - the number of groups and the number of wells in the list;
  - one hull polygon feature per well cluster, for the map.
- `BrondgruppeList` is the list component. Its search box writes the street-name search
  into the filter. Its `zoomToGroup` selects the cluster that most wells of a street
  belong to.

Modules, one concept each:

| module | file | what it holds |
|---|---|---|
| `Wrappers` | `wrappers.dfy` | `Option` with `GetOr`, JavaScript's `??` |
| `Models` | `models.dfy` | the records `Brond`, `BrondgruppeStatistik`, `Brondgruppe`, `BrondgruppeFilter`, and the partial update `FilterUpdate` |
| `Seqs` | `seqs.dfy` | `Keep` (`Array.prototype.filter`) and how filters compose |
| `KeyedIndex` | `keyed_index.dfy` | the insertion-ordered JavaScript `Map` from a key to its wells, as the grouping loops build it |
| `Statistik` | `statistik.dfy` | `calculateStatistik` |
| `Grouping` | `grouping.dfy` | grouping by street name, and the two count reductions |
| `Filtering` | `filtering.dfy` | the three-part filter, and the `{ ...current, ...update }` merge |
| `Sorting` | `sorting.dfy` | the in-place sort by street name |
| `Hulls` | `hulls.dfy` | the cluster hull features |
| `BrondData` | `service.dfy` | the service as a class |
| `BrondgruppeListComponent` | `brondgruppe_list.dfy` | the component as a class, and the most-common-cluster loops |

Modelling choices:

- **Records.** The records follow `src/app/models/brond.model.ts:32-43` and
  `src/app/models/brondgruppe.model.ts:6-12`, `:17-27` and `:32-40`.
  - `Brond.clusterId` is declared as a number, but the code tests it against `null`. It is
    therefore an `Option<int>`.
  - An optional filter property is an `Option`.
  - A `Partial<BrondgruppeFilter>` is an `Option<Option<T>>` per property. `None` means
    the key is absent. `Some(None)` means the key is present and holds `undefined`.
- **Signals.** The service's signals become fields of the class: `resource`, `filter`
  and `selectedClusterId`. The `computed` values become methods that read those fields.
  Each method is proved against a specification function of the fields: `Visible`,
  `HullFeatures`, `AntalBroende`.
- **Platform services.** `toLowerCase` and `localeCompare(…, 'da')` are the parameters
  of a `Collation`. The sort asks only that the comparison be total. The lemmas that
  relate sorted lists also ask that it be transitive.
- **Geometry.** The turf functions `bbox`, `concave` and `convex`, together with
  `Math.hypot`, are the parameters of a `GeometryKit`.
- **Arithmetic.** The statistics are exact integer arithmetic. `Math.floor(n * 0.6)` is
  the `u` with `10u <= 6n < 10(u+1)`. `Math.round` is rounding half up.
- **Imperative code.** The Map-building loops, the feature loop, the two loops of
  `zoomToGroup` and the in-place `sort` are methods with loop invariants. The sort works
  on an `array`.
- **Colour index.** `color_index` is not the cluster key modulo 12 in the mathematical
  sense. The code uses JavaScript's `%`, which keeps the sign of the dividend. Wells
  without a cluster id are pooled under the key -1, and that pool gets `color_index` -1
  when it has a hull. The model follows the code (`Hulls.ColorIndex`).

## Model

| member | source | states |
|---|---|---|
| Statistik.CalculateStatistik | src/app/services/brond-data.service.ts:197-217 | The size is the number of wells. `antalPPladser` is the number of wells within 10 m of parking (`NearCount`, counted independently of the `filter`), so it is at most the size. It equals the size exactly when every well lies within 10 m of parking, and is 0 exactly when none does. `antalUdfoerte` is the floor of 60 % of the size and `antalDefekte` the floor of 5 %. `procentUdfoert` is 0 for an empty group and otherwise within one half of `antalUdfoerte / n * 100`, rounded half up. It never exceeds 100. |
| Statistik.KeepCountsNear | src/app/services/brond-data.service.ts:201 | The length of `broende.filter((b) => b.pPladsDistance <= 10)` is the number of wells within 10 m of parking, as counted by `NearCount`. |
| Statistik.SixTenths | src/app/services/brond-data.service.ts:205 | The result is the largest `u` with `10u <= 6n`, i.e. `Math.floor(n * 0.6)`. |
| Statistik.OneTwentieth | src/app/services/brond-data.service.ts:206 | The result is the largest `d` with `20d <= n`, i.e. `Math.floor(n * 0.05)`. |
| Statistik.PercentOf | src/app/services/brond-data.service.ts:208-209 | For a non-empty group, the percentage is within one half of `u / n * 100`, rounding halves up. For a share of at most 60 % it is at most 60. |
| KeyedIndex.BuildIndex | src/app/services/brond-data.service.ts:48-53 | The keys come in the order they are first seen. The Map's domain is exactly those keys. Under each key sit exactly the wells carrying it, in input order. |
| KeyedIndex.KeysFollowFirstOccurrence | src/app/services/brond-data.service.ts:56 | The Map iterates its keys in the order of their first occurrence in the input. |
| KeyedIndex.FirstMember | src/app/services/brond-data.service.ts:63 | The first well under a key is the first well in the input carrying that key. |
| KeyedIndex.MembersOfIsFilter | src/app/services/brond-data.service.ts:48-53 | The wells under a key are what filtering the input on that key returns. |
| KeyedIndex.KeysPartition | src/app/services/brond-data.service.ts:48-53 | Summed over all keys, the member counts equal the number of wells that carry a key. No well is lost or counted twice. |
| KeyedIndex.KeyedCountTotal | src/app/services/brond-data.service.ts:48-53 | When every well carries a key, the keyed count is the number of wells. |
| Grouping.GroupByVejNavn | src/app/services/brond-data.service.ts:48-69 | The Map loop followed by `Array.from(entries).map(...)` gives one group per street name, in first-seen order. |
| Grouping.GroupAt | src/app/services/brond-data.service.ts:56-69 | Each group, as `MakeGruppe` builds it from a Map entry, is non-empty. Its wells are exactly the wells of its street, in input order. Its `vejKode` is that of the street's first well. Its statistics are `calculateStatistik` of its wells. |
| Grouping.GroupingIsPartition | src/app/services/brond-data.service.ts:48-53 | Street names are distinct across groups. Every well is in the group of its own street. |
| Grouping.GroupSizesSumToWells | src/app/services/brond-data.service.ts:48-69 | The group sizes add up to the number of wells. |
| Grouping.AntalBroendeOfPermutation | src/app/services/brond-data.service.ts:101-103 | The `reduce` sum of group sizes (`AntalBroende`) does not depend on the order of the groups. |
| Grouping.AntalBroendeOfKeep | src/app/services/brond-data.service.ts:101-103 | Filtering groups never raises the `reduce` sum. |
| Filtering.ContainsIsOccurrence | src/app/services/brond-data.service.ts:75 | `includes` holds exactly when the search string occurs at some position of the name. |
| Filtering.ApplyFilterIsConjunction | src/app/services/brond-data.service.ts:72-89 | The three conditional filter steps (`ApplyFilter`, each step applied only when its criterion is truthy) keep exactly the groups that meet every active criterion, in their original order. |
| Filtering.InactiveFilterIsIdentity | src/app/services/brond-data.service.ts:72-89 | With an empty search, a zero or absent minimum and an empty or absent status list, nothing is filtered out, whatever `dateRange` holds. |
| Filtering.DateRangeIrrelevant | src/app/services/brond-data.service.ts:72-89 | For every filter, active or not, `dateRange` never changes the result: the filter steps never read it. |
| Filtering.StepOrderIrrelevant | src/app/services/brond-data.service.ts:72-89 | The filter steps commute: status first, then size, then search keeps the same groups in the same order as the source's search, size, status. |
| Filtering.MergeFilter | src/app/services/brond-data.service.ts:162-164 | For each property, one present in the update (even as `undefined`) replaces the current value. One that is absent keeps it. |
| Filtering.MergeLaws | src/app/services/brond-data.service.ts:162-164 | Merging `{}` changes nothing. Merging the same update twice equals merging it once. Two merges equal one merge of the combined update. |
| Sorting.SortByVejNavn | src/app/services/brond-data.service.ts:92 | After the in-place sort, every two neighbours are in collation order. The array is a permutation of its old contents. |
| Sorting.SortedIsPairwise | src/app/services/brond-data.service.ts:92 | Under a transitive collation, neighbour order implies order between every two groups. |
| Sorting.KeepDistinctNames | src/app/services/brond-data.service.ts:72-89 | Filtering keeps the street names distinct. |
| Sorting.SortedArrangementIsUnique | src/app/services/brond-data.service.ts:92 | Under a collation that orders distinct strings strictly, groups with distinct names have exactly one sorted arrangement. |
| Hulls.MaxEdgeKm | src/app/services/brond-data.service.ts:128-131 | The edge is 0.12 km without spread. Otherwise it is eight times the spread, clamped to [0.08, 0.2]. It always lies in [0.08, 0.2]. |
| Hulls.ColorIndex | src/app/services/brond-data.service.ts:151 | JavaScript's `% 12`: the result differs from the id by a multiple of 12, lies strictly between -12 and 12, and has the sign of the id. |
| Hulls.ClusterFeature | src/app/services/brond-data.service.ts:119-153 | A cluster pushes at most one feature. Its key is `ClusterKey`, the id or -1 for a missing one (line 111). It pushes one only with at least 3 wells, and then with the cluster's id and well count. The concave hull is tried first, then the convex one (`Hull`, line 132); a multi-polygon is reduced to its first polygon (`AsPolygon`, lines 135-143). |
| Hulls.PushFeatures | src/app/services/brond-data.service.ts:117-154 | The loop over the Map's entries pushes, in key order, each cluster's feature. |
| Hulls.BrondgrupperGeoJSON | src/app/services/brond-data.service.ts:108-157 | Building the cluster Map and then looping over it gives exactly the hull features of the wells. |
| Hulls.FeaturesForProperties | src/app/services/brond-data.service.ts:145-153 | Every feature has at least 3 wells, exactly as many as carry its id. Its colour is that of its id, and its geometry is the hull of its wells. |
| Hulls.FeaturesForIds | src/app/services/brond-data.service.ts:118-133 | A cluster gets a feature exactly when it is one of the keys and has a buildable hull of at least 3 wells. |
| Hulls.FeaturesForDistinct | src/app/services/brond-data.service.ts:118 | No cluster gets two features. |
| Hulls.HullFeaturesFacts | src/app/services/brond-data.service.ts:108-157 | These hold for the whole feature collection. There is one feature per cluster key (the id, or -1) that has at least 3 wells and a buildable hull, and no key twice. `antal_broende` is the key's well count. `color_index` is the key's colour. |
| BrondData.BrondDataService.constructor | src/app/services/brond-data.service.ts:35 | The filter starts as `{}` and nothing is selected. |
| BrondData.BrondDataService.Brondgrupper | src/app/services/brond-data.service.ts:43-95 | The wells are those of the resource, or none while it loads or after it fails (`WellsOf`, lines 26-29). The result is in collation order. It is a permutation of the groups of the loaded wells that pass the current filter. |
| BrondData.BrondDataService.CountGroups | src/app/services/brond-data.service.ts:98 | `antalGrupper` is the number of groups that pass the filter. It is at most the number of distinct street names. |
| BrondData.BrondDataService.CountWells | src/app/services/brond-data.service.ts:101-103 | `antalBroende` is the sum of the visible group sizes. It is at most the number of loaded wells, and equals it when no criterion is active. |
| BrondData.BrondDataService.BrondgrupperGeoJSON | src/app/services/brond-data.service.ts:106-157 | The hull features are those of all loaded wells. The filter plays no part. |
| BrondData.BrondDataService.UpdateFilter | src/app/services/brond-data.service.ts:162-164 | The new filter is the merge of the old one and the update. Nothing else changes. |
| BrondData.BrondDataService.ClearFilters | src/app/services/brond-data.service.ts:169-171 | The filter becomes `{}`, with no criterion active. Nothing else changes. |
| BrondData.BrondDataService.SelectClusterId | src/app/components/brondgruppe-list/brondgruppe-list.ts:46 | The selection becomes the given id. Nothing else changes. |
| BrondData.VisibleWellsBound | src/app/services/brond-data.service.ts:101-103 | The visible groups hold at most all loaded wells, and all of them when no criterion is active. |
| BrondData.BrondgrupperIsDeterminate | src/app/services/brond-data.service.ts:43-95 | Under a collation that orders distinct strings strictly, the sorted list depends only on the wells and the filter. |
| BrondData.MultisetDistinctNames | src/app/services/brond-data.service.ts:92 | A rearrangement of groups with distinct names still has distinct names. |
| BrondgruppeListComponent.CountClusters | src/app/components/brondgruppe-list/brondgruppe-list.ts:28-33 | The count Map holds exactly the cluster ids that occur, in first-seen order. Each id is mapped to its number of wells. Wells without an id are skipped. |
| BrondgruppeListComponent.PickFirstMaximum | src/app/components/brondgruppe-list/brondgruppe-list.ts:36-43 | The kept id is absent exactly when there are no ids. Otherwise its count is the largest, and every id before it has a strictly smaller count. |
| BrondgruppeListComponent.NoIdsWithoutClusters | src/app/components/brondgruppe-list/brondgruppe-list.ts:30 | The count Map is empty exactly when no well has a cluster id. |
| BrondgruppeListComponent.FirstMaximumIsMostCommon | src/app/components/brondgruppe-list/brondgruppe-list.ts:36-43 | Keeping the first strictly larger count, in first-seen order, finds the most common cluster. On a tie, that is the cluster seen first. |
| BrondgruppeListComponent.MostCommonCluster | src/app/components/brondgruppe-list/brondgruppe-list.ts:26-43 | Both loops together return the most common cluster id, or none when no well has one, together with its count. |
| BrondgruppeListComponent.MostCommonIsUnique | src/app/components/brondgruppe-list/brondgruppe-list.ts:27 | "The most common cluster", with its first-seen tie-break, names a single answer. |
| BrondgruppeListComponent.BrondgruppeList.constructor | src/app/components/brondgruppe-list/brondgruppe-list.ts:13-14 | The component keeps the injected service, and the search starts empty. |
| BrondgruppeListComponent.BrondgruppeList.OnSearchChange | src/app/components/brondgruppe-list/brondgruppe-list.ts:16-19 | The query becomes the search text and the filter's street-name search. The other criteria, the wells and the selection are unchanged. |
| BrondgruppeListComponent.BrondgruppeList.ClearSearch | src/app/components/brondgruppe-list/brondgruppe-list.ts:21-24 | The search becomes empty, which switches the search criterion off. The rest is unchanged. |
| BrondgruppeListComponent.BrondgruppeList.ZoomToGroup | src/app/components/brondgruppe-list/brondgruppe-list.ts:26-47 | The selection becomes the group's most common cluster id, or none. The wells and the filter are unchanged. |

## Left out

- `calculateCenterPoint` (src/app/services/brond-data.service.ts:223-238) and the group's `centerPoint` are not modelled. They are floating-point averages.
- Floating-point rounding is not modelled.
  - `n * 0.6`, `n * 0.05` and `u / n * 100` are computed exactly.
  - Coordinates, `pPladsDistance` and the hull edge are Dafny reals.
- Non-integer or `NaN` values of `minAntalBroende` and `clusterId` are not modelled; both are integers here.
- Loading is not modelled.
  - The `httpResource` and `mapFeatureToBrond` (src/app/services/brond-data.service.ts:21-32, :176-192) are replaced by a `ResourceState` of already-mapped wells.
  - While loading, or after a failure, the service sees no wells.
  - `isLoading`, `error` and `hasValue` (:38-40) are not modelled.
- Reactivity is not modelled. The signals and `computed` values become fields and methods, and recomputation happens on each call.
- `console.log` in `zoomToGroup` is not modelled.
- The turf geometry and `Math.hypot` are opaque `GeometryKit` functions. An empty MultiPolygon becomes a polygon with no rings.
- `selectClusterId` is called by the component but is not part of `brond-data.service.ts`. It is modelled as a plain field and its setter.
- The map view, the filter dialog, the main view and the application configuration are not part of this model.
- Sorting.SortByVejNavn: stability is not stated. `Array.prototype.sort` keeps groups whose names compare equal in their first-seen order. The model states only that the result is a sorted permutation. It proves the order unique when distinct names compare strictly (`BrondData.BrondgrupperIsDeterminate`).
- Sorting.SortByVejNavn: `localeCompare`'s Danish collation is a parameter. Only its totality, and for some lemmas its transitivity and antisymmetry, are assumed.
