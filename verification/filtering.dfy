/**
 * The three-part filter on street groups (text search, minimum size, status allow-list,
 * combined by AND) and the partial-update merge of the filter criteria.
 */
module Filtering {
  import opened Wrappers
  import opened Models
  import opened Seqs

  /**
   * The string services the filter and the sort take from the platform: `toLowerCase`
   * and `localeCompare(…, 'da')`, the latter seen as "a sorts no later than b".
   */
  datatype Collation = Collation(lower: string -> string, le: (string, string) -> bool)

  /** `localeCompare` is assumed to order all strings as a total preorder. */
  ghost predicate TotalPreorder(le: (string, string) -> bool) {
    && (forall a, b :: le(a, b) || le(b, a))
    && (forall a, b, c :: le(a, b) && le(b, c) ==> le(a, c))
  }

  /** `s.includes(sub)`, checked position by position. */
  predicate Contains(s: string, sub: string) {
    if sub <= s then true
    else if s == [] then false
    else Contains(s[1..], sub)
  }

  /** `sub` occurs in `s` starting at index `i`. */
  predicate OccursAt(s: string, sub: string, i: nat) {
    i + |sub| <= |s| && s[i..i + |sub|] == sub
  }

  /** `includes` holds exactly when `sub` occurs somewhere in `s`. */
  lemma {:induction false} ContainsIsOccurrence(s: string, sub: string)
    ensures Contains(s, sub) <==> exists i: nat :: OccursAt(s, sub, i)
  {
    if sub <= s {
      assert OccursAt(s, sub, 0);
    } else if s == [] {
      assert forall i: nat :: !OccursAt(s, sub, i);
    } else {
      ContainsIsOccurrence(s[1..], sub);
      if i: nat :| OccursAt(s, sub, i) {
        if i > 0 {
          assert s[1..][i - 1..i - 1 + |sub|] == sub;
          assert OccursAt(s[1..], sub, i - 1);
        }
      }
      if Contains(s[1..], sub) {
        var i: nat :| OccursAt(s[1..], sub, i);
        assert s[i + 1..i + 1 + |sub|] == sub;
        assert OccursAt(s, sub, i + 1);
      }
    }
  }

  // A criterion is active only when its value is truthy: a non-empty search, a non-zero
  // minimum, a non-empty status list. `dateRange` is never consulted.

  predicate SearchActive(f: BrondgruppeFilter) {
    f.vejNavnSearch.Some? && f.vejNavnSearch.value != ""
  }

  predicate MinActive(f: BrondgruppeFilter) {
    f.minAntalBroende.Some? && f.minAntalBroende.value != 0
  }

  predicate StatusActive(f: BrondgruppeFilter) {
    f.statusFilter.Some? && |f.statusFilter.value| > 0
  }

  /** The lower-cased street name contains the lower-cased search. */
  function MatchesSearch(search: string, lower: string -> string): Brondgruppe -> bool {
    (g: Brondgruppe) => Contains(lower(g.vejNavn), lower(search))
  }

  /** The group has at least `min` wells. */
  function HasMinSize(min: int): Brondgruppe -> bool {
    (g: Brondgruppe) => g.statistik.antalBroende >= min
  }

  /** Some well of the group has one of the listed statuses. */
  function HasStatus(statuses: seq<string>): Brondgruppe -> bool {
    (g: Brondgruppe) => exists b :: b in g.broende && b.objektStatus in statuses
  }

  /** The filter steps of `brondgrupper`, each applied only when its criterion is active. */
  function ApplyFilter(gs: seq<Brondgruppe>, f: BrondgruppeFilter, lower: string -> string): seq<Brondgruppe> {
    var afterSearch := if SearchActive(f) then Keep(gs, MatchesSearch(f.vejNavnSearch.value, lower)) else gs;
    var afterMin := if MinActive(f) then Keep(afterSearch, HasMinSize(f.minAntalBroende.value)) else afterSearch;
    if StatusActive(f) then Keep(afterMin, HasStatus(f.statusFilter.value)) else afterMin
  }

  // Each criterion as a predicate that an inactive criterion satisfies trivially.

  function SearchCriterion(f: BrondgruppeFilter, lower: string -> string): Brondgruppe -> bool {
    (g: Brondgruppe) => SearchActive(f) ==> MatchesSearch(f.vejNavnSearch.value, lower)(g)
  }

  function SizeCriterion(f: BrondgruppeFilter): Brondgruppe -> bool {
    (g: Brondgruppe) => MinActive(f) ==> HasMinSize(f.minAntalBroende.value)(g)
  }

  function StatusCriterion(f: BrondgruppeFilter): Brondgruppe -> bool {
    (g: Brondgruppe) => StatusActive(f) ==> HasStatus(f.statusFilter.value)(g)
  }

  /** A group passes the filter when it meets every active criterion. */
  predicate Passes(g: Brondgruppe, f: BrondgruppeFilter, lower: string -> string) {
    SearchCriterion(f, lower)(g) && SizeCriterion(f)(g) && StatusCriterion(f)(g)
  }

  function PassesFilter(f: BrondgruppeFilter, lower: string -> string): Brondgruppe -> bool {
    (g: Brondgruppe) => Passes(g, f, lower)
  }

  /** One conditional filter step equals filtering by its criterion. */
  lemma ConditionalStep(gs: seq<Brondgruppe>, active: bool, p: Brondgruppe -> bool, criterion: Brondgruppe -> bool)
    requires forall i :: 0 <= i < |gs| ==> criterion(gs[i]) == (active ==> p(gs[i]))
    ensures (if active then Keep(gs, p) else gs) == Keep(gs, criterion)
  {
    if active {
      KeepAgree(gs, p, criterion);
    } else {
      KeepAll(gs, criterion);
    }
  }

  /**
   * The successive filter steps give exactly the groups that meet every active criterion,
   * in their original order.
   */
  lemma ApplyFilterIsConjunction(gs: seq<Brondgruppe>, f: BrondgruppeFilter, lower: string -> string)
    ensures ApplyFilter(gs, f, lower) == Keep(gs, PassesFilter(f, lower))
    ensures forall g :: g in ApplyFilter(gs, f, lower) <==> g in gs && Passes(g, f, lower)
  {
    ApplyFilterIsKeep(gs, f, lower);
    forall g
      ensures g in ApplyFilter(gs, f, lower) <==> g in gs && Passes(g, f, lower)
    {
      assert PassesFilter(f, lower)(g) == Passes(g, f, lower);
    }
  }

  /** The three conditional steps, composed, are one filter by the conjunction. */
  lemma ApplyFilterIsKeep(gs: seq<Brondgruppe>, f: BrondgruppeFilter, lower: string -> string)
    ensures ApplyFilter(gs, f, lower) == Keep(gs, PassesFilter(f, lower))
  {
    var search, size, status := SearchCriterion(f, lower), SizeCriterion(f), StatusCriterion(f);
    var searchAndSize: Brondgruppe -> bool := g => search(g) && size(g);
    var searchStep := MatchesSearch(f.vejNavnSearch.GetOr(""), lower);
    var sizeStep := HasMinSize(f.minAntalBroende.GetOr(0));
    var statusStep := HasStatus(f.statusFilter.GetOr([]));
    var afterSearch := if SearchActive(f) then Keep(gs, searchStep) else gs;
    ConditionalStep(gs, SearchActive(f), searchStep, search);
    var afterMin := if MinActive(f) then Keep(afterSearch, sizeStep) else afterSearch;
    ConditionalStep(afterSearch, MinActive(f), sizeStep, size);
    KeepThenKeep(gs, search, size, searchAndSize);
    assert ApplyFilter(gs, f, lower) == if StatusActive(f) then Keep(afterMin, statusStep) else afterMin;
    ConditionalStep(afterMin, StatusActive(f), statusStep, status);
    KeepThenKeep(gs, searchAndSize, status, PassesFilter(f, lower));
  }

  /** A filter with no active criterion is the identity. */
  lemma InactiveFilterIsIdentity(gs: seq<Brondgruppe>, f: BrondgruppeFilter, lower: string -> string, d: Option<DateRange>)
    requires !SearchActive(f) && !MinActive(f) && !StatusActive(f)
    ensures ApplyFilter(gs, f, lower) == gs
    ensures ApplyFilter(gs, f.(dateRange := d), lower) == ApplyFilter(gs, f, lower)
  {
    DateRangeIrrelevant(gs, f, lower, d);
  }

  /** `dateRange` is never consulted: whatever it holds, the filter keeps the same groups. */
  lemma DateRangeIrrelevant(gs: seq<Brondgruppe>, f: BrondgruppeFilter, lower: string -> string, d: Option<DateRange>)
    ensures ApplyFilter(gs, f.(dateRange := d), lower) == ApplyFilter(gs, f, lower)
  {
  }

  /**
   * The order of the steps does not matter: applying the status step first, then the size
   * step, then the search step keeps the same groups in the same order.
   */
  lemma StepOrderIrrelevant(gs: seq<Brondgruppe>, f: BrondgruppeFilter, lower: string -> string)
    ensures ApplyFilter(gs, f, lower) == Keep(Keep(Keep(gs, StatusCriterion(f)), SizeCriterion(f)), SearchCriterion(f, lower))
  {
    var search, size, status := SearchCriterion(f, lower), SizeCriterion(f), StatusCriterion(f);
    var sizeAndSearch: Brondgruppe -> bool := g => size(g) && search(g);
    ApplyFilterIsKeep(gs, f, lower);
    KeepCommute(Keep(gs, status), size, search);
    KeepThenKeep(Keep(gs, status), search, size, sizeAndSearch);
    KeepCommute(gs, status, sizeAndSearch);
    KeepThenKeep(gs, sizeAndSearch, status, PassesFilter(f, lower));
  }

  /** `{ ...current, ...update }` for one property. */
  function Overwrite<T>(current: Option<T>, update: Option<Option<T>>): Option<T> {
    match update
    case None => current
    case Some(v) => v
  }

  /**
   * `updateFilter`'s merge: each property present in the update, even as `undefined`,
   * replaces the current value; each absent one keeps it.
   */
  function MergeFilter(current: BrondgruppeFilter, update: FilterUpdate): (r: BrondgruppeFilter)
    ensures update.vejNavnSearch.Some? ==> r.vejNavnSearch == update.vejNavnSearch.value
    ensures update.vejNavnSearch.None? ==> r.vejNavnSearch == current.vejNavnSearch
    ensures update.minAntalBroende.Some? ==> r.minAntalBroende == update.minAntalBroende.value
    ensures update.minAntalBroende.None? ==> r.minAntalBroende == current.minAntalBroende
    ensures update.statusFilter.Some? ==> r.statusFilter == update.statusFilter.value
    ensures update.statusFilter.None? ==> r.statusFilter == current.statusFilter
    ensures update.dateRange.Some? ==> r.dateRange == update.dateRange.value
    ensures update.dateRange.None? ==> r.dateRange == current.dateRange
  {
    BrondgruppeFilter(
      Overwrite(current.vejNavnSearch, update.vejNavnSearch),
      Overwrite(current.minAntalBroende, update.minAntalBroende),
      Overwrite(current.statusFilter, update.statusFilter),
      Overwrite(current.dateRange, update.dateRange))
  }

  /** `{ ...p, ...q }` on two partial updates. */
  function ThenUpdate(p: FilterUpdate, q: FilterUpdate): FilterUpdate {
    FilterUpdate(
      if q.vejNavnSearch.Some? then q.vejNavnSearch else p.vejNavnSearch,
      if q.minAntalBroende.Some? then q.minAntalBroende else p.minAntalBroende,
      if q.statusFilter.Some? then q.statusFilter else p.statusFilter,
      if q.dateRange.Some? then q.dateRange else p.dateRange)
  }

  /**
   * Merging `{}` changes nothing, merging the same update twice is merging it once, and two
   * successive merges are one merge of the combined update.
   */
  lemma MergeLaws(c: BrondgruppeFilter, p: FilterUpdate, q: FilterUpdate)
    ensures MergeFilter(c, NoUpdate) == c
    ensures MergeFilter(MergeFilter(c, p), p) == MergeFilter(c, p)
    ensures MergeFilter(MergeFilter(c, p), q) == MergeFilter(c, ThenUpdate(p, q))
  {
  }
}
