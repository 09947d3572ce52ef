/** The statistics of one street group (`calculateStatistik`). */
module Statistik {
  import opened Models
  import opened Seqs

  /** A well counts as a parking spot when it lies within 10 m of one. */
  predicate NearParking(b: Brond) {
    b.pPladsDistance <= 10.0
  }

  /**
   * Counts and percentage for the wells of one group. The completed and defective counts
   * are fixed stand-in ratios of the size, 60 % and 5 %, rounded down; the percentage is
   * the completed share rounded half up, and 0 for an empty group.
   */
  function CalculateStatistik(broende: seq<Brond>): (s: BrondgruppeStatistik)
    ensures s.antalBroende == |broende|
    ensures s.antalPPladser == NearCount(broende)
    ensures s.antalPPladser <= s.antalBroende
    ensures s.antalPPladser == s.antalBroende <==> forall i :: 0 <= i < |broende| ==> NearParking(broende[i])
    ensures s.antalPPladser == 0 <==> forall i :: 0 <= i < |broende| ==> !NearParking(broende[i])
    // antalUdfoerte is the floor of 0.6 n, antalDefekte the floor of 0.05 n
    ensures 10 * s.antalUdfoerte <= 6 * |broende| < 10 * (s.antalUdfoerte + 1)
    ensures 20 * s.antalDefekte <= |broende| < 20 * (s.antalDefekte + 1)
    // procentUdfoert is antalUdfoerte / n * 100 rounded half up: within one half of it
    ensures |broende| == 0 ==> s.procentUdfoert == 0
    ensures |broende| > 0 ==>
      2 * |broende| * s.procentUdfoert <= 200 * s.antalUdfoerte + |broende| < 2 * |broende| * (s.procentUdfoert + 1)
    ensures s.procentUdfoert <= 100
  {
    var n := |broende|;
    var nearParking := Keep(broende, NearParking);
    KeepLength(broende, NearParking);
    KeepCountsNear(broende);
    var udfoerte := SixTenths(n);
    var defekte := OneTwentieth(n);
    var procent := if n > 0 then PercentOf(udfoerte, n) else 0;
    BrondgruppeStatistik(n, |nearParking|, udfoerte, defekte, procent)
  }

  /** The number of wells within 10 m of parking, counted one well at a time from the end. */
  function NearCount(broende: seq<Brond>): nat {
    if broende == [] then 0
    else NearCount(broende[..|broende| - 1]) + if NearParking(broende[|broende| - 1]) then 1 else 0
  }

  /** The length of the `filter` result is the number of wells within 10 m of parking. */
  lemma {:induction false} KeepCountsNear(broende: seq<Brond>)
    ensures |Keep(broende, NearParking)| == NearCount(broende)
  {
    if broende != [] {
      var front, last := broende[..|broende| - 1], broende[|broende| - 1];
      KeepCountsNear(front);
      LastSplit(broende);
      KeepSnoc(front, last, NearParking);
    }
  }

  /** `Math.floor(n * 0.6)`. */
  function SixTenths(n: nat): (u: nat)
    ensures 10 * u <= 6 * n < 10 * (u + 1)
  {
    DivBounds(6 * n, 10);
    (6 * n) / 10
  }

  /** `Math.floor(n * 0.05)`. */
  function OneTwentieth(n: nat): (d: nat)
    ensures 20 * d <= n < 20 * (d + 1)
  {
    DivBounds(n, 20);
    n / 20
  }

  /**
   * `Math.round(u / n * 100)`: within one half of the exact percentage, so the exact value
   * rounded half up; at most 60 for a share of at most 60 %.
   */
  function PercentOf(u: nat, n: nat): (p: nat)
    requires n > 0
    requires 10 * u <= 6 * n
    ensures 2 * n * p <= 200 * u + n < 2 * n * (p + 1)
    ensures p <= 60
  {
    RoundedPercent(n, u);
    (200 * u + n) / (2 * n)
  }

  /** Integer division by `d` rounds down: `x / d` is the largest `q` with `d * q <= x`. */
  lemma DivBounds(x: nat, d: nat)
    requires d > 0
    ensures d * (x / d) <= x < d * (x / d) + d
  {
  }

  lemma MulMonotone(d: int, a: int, b: int)
    requires d > 0 && a <= b
    ensures d * a <= d * b
  {
    assert d * b - d * a == d * (b - a);
  }

  /**
   * `(200 u + n) / (2 n)` is `u / n * 100` rounded half up, and for a share of at most
   * 60 % it is at most 60.
   */
  lemma RoundedPercent(n: nat, u: nat)
    requires n > 0
    requires 10 * u <= 6 * n
    ensures var p := (200 * u + n) / (2 * n);
      2 * n * p <= 200 * u + n < 2 * n * (p + 1) && p <= 60
  {
    var d, x := 2 * n, 200 * u + n;
    var p := x / d;
    DivBounds(x, d);
    assert d * (p + 1) == d * p + d;
    assert x < d * 61;
    if p > 60 {
      MulMonotone(d, 61, p);
    }
  }
}
