/** Grouping the wells by street name (`vejNavn`) into street groups, and the two count reductions. */
module Grouping {
  import opened Wrappers
  import opened Models
  import opened Seqs
  import opened KeyedIndex
  import opened Statistik

  /** The grouping key: the street name; every well has one. */
  function VejNavnKey(b: Brond): Option<string> {
    Some(b.vejNavn)
  }

  /** The filter callback `b => b.vejNavn == name`. */
  function OnStreet(name: string): Brond -> bool {
    (b: Brond) => b.vejNavn == name
  }

  /** One Map entry turned into a group; the street code is taken from the first well. */
  function MakeGruppe(vejNavn: string, broende: seq<Brond>): Brondgruppe
    requires |broende| > 0
  {
    Brondgruppe(vejNavn, broende[0].vejKode, broende, CalculateStatistik(broende))
  }

  /** The groups for the street names `ks`, in that order. */
  function GroupsOf(bs: seq<Brond>, ks: seq<string>): seq<Brondgruppe>
    requires forall k :: k in ks ==> k in Keys(bs, VejNavnKey)
  {
    seq(|ks|, i requires 0 <= i < |ks| => MakeGruppe(ks[i], MembersOf(bs, VejNavnKey, ks[i])))
  }

  /** All street groups of `bs`, in the order the street names first occur. */
  function Grouped(bs: seq<Brond>): seq<Brondgruppe> {
    GroupsOf(bs, Keys(bs, VejNavnKey))
  }

  /** The Map-building loop followed by `Array.from(entries).map(...)`. */
  method GroupByVejNavn(bs: seq<Brond>) returns (grupper: seq<Brondgruppe>)
    ensures grupper == Grouped(bs)
  {
    var keys, index := BuildIndex(bs, VejNavnKey);
    grupper := seq(|keys|, i requires 0 <= i < |keys| => MakeGruppe(keys[i], index[keys[i]]));
  }

  /** `antalBroende`: the sum of the group sizes, accumulated left to right as `reduce` does. */
  function AntalBroende(gs: seq<Brondgruppe>): nat {
    if gs == [] then 0
    else AntalBroende(gs[..|gs| - 1]) + gs[|gs| - 1].statistik.antalBroende
  }

  /** `antalGrupper`: the number of groups. */
  function AntalGrupper(gs: seq<Brondgruppe>): nat {
    |gs|
  }

  /**
   * One street group: non-empty; its wells are exactly those of its street in input order
   * (what filtering the input by the name returns); its street code is that of the
   * street's first well in the input; its statistics are those of its wells.
   */
  lemma GroupAt(bs: seq<Brond>, i: nat)
    requires i < |Grouped(bs)|
    ensures var g := Grouped(bs)[i];
      && |g.broende| > 0
      && g.broende == Keep(bs, OnStreet(g.vejNavn))
      && g.vejKode == bs[FirstOccurrence(bs, VejNavnKey, g.vejNavn)].vejKode
      && g.statistik == CalculateStatistik(g.broende)
  {
    var k := Keys(bs, VejNavnKey)[i];
    var ms := MembersOf(bs, VejNavnKey, k);
    var g := Grouped(bs)[i];
    assert g == MakeGruppe(k, ms);
    MembersOfIsFilter(bs, VejNavnKey, k, OnStreet(k));
    FirstMember(bs, VejNavnKey, k);
  }

  /**
   * Grouping is a partition: street names are distinct across groups, and every well lands
   * in the group of its own street (and, by `GroupAt`, in no other).
   */
  lemma GroupingIsPartition(bs: seq<Brond>)
    ensures var gs := Grouped(bs);
      && (forall i, j :: 0 <= i < j < |gs| ==> gs[i].vejNavn != gs[j].vejNavn)
      && (forall j :: 0 <= j < |bs| ==>
            exists i :: 0 <= i < |gs| && gs[i].vejNavn == bs[j].vejNavn && bs[j] in gs[i].broende)
  {
    GroupNamesAreKeys(bs);
    forall j | 0 <= j < |bs|
      ensures exists i :: 0 <= i < |Grouped(bs)| && Grouped(bs)[i].vejNavn == bs[j].vejNavn && bs[j] in Grouped(bs)[i].broende
    {
      WellInOwnGroup(bs, j);
    }
  }

  /** The group names are the street names in order of first occurrence. */
  lemma GroupNamesAreKeys(bs: seq<Brond>)
    ensures |Grouped(bs)| == |Keys(bs, VejNavnKey)|
    ensures forall i :: 0 <= i < |Grouped(bs)| ==> Grouped(bs)[i].vejNavn == Keys(bs, VejNavnKey)[i]
  {
  }

  /** The well at position `j` is among the wells of the group of its street. */
  lemma WellInOwnGroup(bs: seq<Brond>, j: nat)
    requires j < |bs|
    ensures exists i :: 0 <= i < |Grouped(bs)| && Grouped(bs)[i].vejNavn == bs[j].vejNavn && bs[j] in Grouped(bs)[i].broende
  {
    var ks := Keys(bs, VejNavnKey);
    assert VejNavnKey(bs[j]) == Some(bs[j].vejNavn);
    assert bs[j].vejNavn in ks;
    var i :| 0 <= i < |ks| && ks[i] == bs[j].vejNavn;
    var ms := MembersOf(bs, VejNavnKey, ks[i]);
    assert Grouped(bs)[i] == MakeGruppe(ks[i], ms);
    assert bs[j] in ms;
  }

  /** Sizes summed over groups built from distinct street names. */
  lemma {:induction false} AntalBroendeOfGroups(bs: seq<Brond>, ks: seq<string>)
    requires forall k :: k in ks ==> k in Keys(bs, VejNavnKey)
    ensures AntalBroende(GroupsOf(bs, ks)) == SumOfSizes(bs, VejNavnKey, ks)
  {
    if ks != [] {
      var init := ks[..|ks| - 1];
      assert GroupsOf(bs, ks)[..|ks| - 1] == GroupsOf(bs, init);
      AntalBroendeOfGroups(bs, init);
    }
  }

  /** No well is lost or counted twice: the group sizes add up to the number of wells. */
  lemma GroupSizesSumToWells(bs: seq<Brond>)
    ensures AntalBroende(Grouped(bs)) == |bs|
  {
    AntalBroendeOfGroups(bs, Keys(bs, VejNavnKey));
    KeysPartition(bs, VejNavnKey);
    KeyedCountTotal(bs, VejNavnKey);
  }

  /** `antalBroende` does not depend on the order of the groups. */
  lemma {:induction false} AntalBroendeOfPermutation(gs: seq<Brondgruppe>, hs: seq<Brondgruppe>)
    requires multiset(gs) == multiset(hs)
    ensures AntalBroende(gs) == AntalBroende(hs)
    decreases |gs|
  {
    if gs != [] {
      var last := gs[|gs| - 1];
      MultisetRemove(gs, |gs| - 1);
      assert gs[..|gs| - 1] + gs[|gs|..] == gs[..|gs| - 1];
      assert last in multiset(hs) by {
        assert last in gs;
      }
      var k :| 0 <= k < |hs| && hs[k] == last;
      MultisetRemove(hs, k);
      AntalBroendeOfPermutation(gs[..|gs| - 1], hs[..k] + hs[k + 1..]);
      AntalBroendeRemove(hs, k);
    }
  }

  /** Filtering the groups never raises `antalBroende`. */
  lemma {:induction false} AntalBroendeOfKeep(gs: seq<Brondgruppe>, p: Brondgruppe -> bool)
    ensures AntalBroende(Keep(gs, p)) <= AntalBroende(gs)
  {
    if gs != [] {
      var init := gs[..|gs| - 1];
      var last := gs[|gs| - 1];
      LastSplit(gs);
      KeepAppend(init, [last], p);
      AntalBroendeOfKeep(init, p);
      var kept := Keep(init, p);
      if p(last) {
        assert Keep([last], p) == [last];
        assert (kept + [last])[..|kept|] == kept;
      } else {
        assert Keep([last], p) == [];
        assert kept + [] == kept;
      }
    }
  }

  /** Taking one group out of the sum lowers it by that group's size. */
  lemma {:induction false} AntalBroendeRemove(hs: seq<Brondgruppe>, k: nat)
    requires k < |hs|
    ensures AntalBroende(hs) == AntalBroende(hs[..k] + hs[k + 1..]) + hs[k].statistik.antalBroende
  {
    var n := |hs|;
    if k < n - 1 {
      var init := hs[..n - 1];
      AntalBroendeRemove(init, k);
      assert init[..k] + init[k + 1..] == (hs[..k] + hs[k + 1..])[..n - 2];
    } else {
      assert hs[..k] + hs[k + 1..] == hs[..n - 1];
    }
  }
}
