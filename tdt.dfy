/** The transmission/disequilibrium test of one marker: the standard TDT over
    complete informative case trios (classMarker.py:213-232,
    classMarker.py:634-651), its extension to incomplete trios by lower and
    upper bounds on the transmission counts (classMarker.py:236-261,
    classMarker.py:654-680), and the choice of the minimum and maximum
    statistic over those bounds (classMarker.py:266-284). The statistic is
    kept as the exact fraction (B - C)^2 / (B + C); the chi-square p-value
    is not part of this model. */
module Tdt {
  import opened Genetics
  import opened Tables
  import opened Counts

  /** Sum of products of coefficient and count over the pairs that Python's
      `zip` forms: it stops at the shorter of the two sequences */
  function Dot(a: seq<nat>, v: seq<nat>): nat
  {
    if |a| == 0 || |v| == 0 then 0 else a[0] * v[0] + Dot(a[1..], v[1..])
  }

  /** One term never exceeds the whole sum */
  lemma {:induction false} DotGeCell(a: seq<nat>, v: seq<nat>, i: nat)
    requires i < |a| && i < |v|
    ensures Dot(a, v) >= a[i] * v[i]
  {
    if i > 0 {
      DotGeCell(a[1..], v[1..], i - 1);
    }
  }

  /** One more trio in cell i adds that cell's coefficient */
  lemma {:induction false} DotIncrement(a: seq<nat>, v: seq<nat>, i: nat)
    requires i < |a| && i < |v|
    ensures Dot(a, v[i := v[i] + 1]) == Dot(a, v) + a[i]
  {
    if i > 0 {
      assert v[i := v[i] + 1][1..] == v[1..][i - 1 := v[i] + 1];
      DotIncrement(a[1..], v[1..], i - 1);
    }
  }

  /** No trios, no transmissions */
  lemma {:induction false} DotZeros(a: seq<nat>, v: seq<nat>)
    requires forall j :: 0 <= j < |v| ==> v[j] == 0
    ensures Dot(a, v) == 0
  {
    if |a| > 0 && |v| > 0 {
      DotZeros(a[1..], v[1..]);
    }
  }

  /** Counts in a single cell contribute that cell's coefficient times the count */
  lemma {:induction false} DotSingleCell(a: seq<nat>, v: seq<nat>, i: nat)
    requires i < |a| && i < |v|
    requires forall j :: 0 <= j < |v| && j != i ==> v[j] == 0
    ensures Dot(a, v) == a[i] * v[i]
  {
    if i == 0 {
      DotZeros(a[1..], v[1..]);
    } else {
      DotSingleCell(a[1..], v[1..], i - 1);
    }
  }

  // ---------------------------------------------------------------------
  // Standard TDT

  /** B: reference alleles transmitted to affected offspring, counted over
      the complete informative case trios of both offspring sexes */
  function CompleteB(chrom: Chromosome, model: Model, c: TrioTypeCounts): nat
  {
    Dot(InformativeBinc(chrom, model, Male), c.completeInformativeCaseMale)
    + Dot(InformativeBinc(chrom, model, Female), c.completeInformativeCaseFemale)
  }

  /** C: alternate alleles transmitted to affected offspring */
  function CompleteC(chrom: Chromosome, model: Model, c: TrioTypeCounts): nat
  {
    Dot(InformativeCinc(chrom, model, Male), c.completeInformativeCaseMale)
    + Dot(InformativeCinc(chrom, model, Female), c.completeInformativeCaseFemale)
  }

  /** The McNemar statistic (b - c)^2 / (b + c), undefined ("NA") when the
      denominator is zero */
  function ChiSquare(b: nat, c: nat): (r: Option<real>)
    ensures r.None? <==> b + c == 0
    ensures r.Some? ==> 0.0 <= r.value <= (b + c) as real
    ensures r.Some? ==> (r.value == 0.0 <==> b == c)
  {
    if b + c == 0 then None
    else
      McNemarBounds(b, c);
      Some(((b - c) * (b - c)) as real / (b + c) as real)
  }

  /** (b - c)^2 lies between 0 and (b + c)^2, and is 0 only when b == c */
  lemma SquaredDifferenceBounds(b: nat, c: nat)
    ensures 0 <= (b - c) * (b - c) <= (b + c) * (b + c)
    ensures (b - c) * (b - c) == 0 <==> b == c
  {
    var d, s := b - c, b + c;
    assert s * s - d * d == 4 * b * c;
    assert b * c >= 0;
    if d != 0 {
      assert d * d > 0;
    }
  }

  /** The McNemar quotient lies in [0, b + c] and is 0 only when b == c */
  lemma McNemarBounds(b: nat, c: nat)
    requires b + c > 0
    ensures var q := ((b - c) * (b - c)) as real / (b + c) as real;
            0.0 <= q <= (b + c) as real && (q == 0.0 <==> b == c)
  {
    SquaredDifferenceBounds(b, c);
    var n, s := ((b - c) * (b - c)) as real, (b + c) as real;
    assert n <= s * s;
    DivAtMost(n, s, s);
  }

  /** p / q <= m follows from p <= m * q when q is positive */
  lemma DivAtMost(p: real, q: real, m: real)
    requires q > 0.0 && p <= m * q
    ensures p / q <= m
  {
  }

  /** The standard TDT statistic of a marker under a genetic model */
  function StdChiSquare(chrom: Chromosome, model: Model, c: TrioTypeCounts): Option<real>
  {
    ChiSquare(CompleteB(chrom, model, c), CompleteC(chrom, model, c))
  }

  /** Under the additive model on an autosome, one more complete case trio of
      category 3 (heterozygous parents, heterozygous offspring) transmits one
      allele of each kind: B and C both grow by one, so B - C is unchanged.
      The same holds whichever sex the offspring has. */
  lemma HeterozygousTrioAddsToBoth(c: TrioTypeCounts, male: bool)
    requires |c.completeInformativeCaseMale| == 7 && |c.completeInformativeCaseFemale| == 7
    ensures var c' := if male then c.(completeInformativeCaseMale := c.completeInformativeCaseMale[3 := c.completeInformativeCaseMale[3] + 1])
                      else c.(completeInformativeCaseFemale := c.completeInformativeCaseFemale[3 := c.completeInformativeCaseFemale[3] + 1]);
            CompleteB(Autosome, Additive, c') == CompleteB(Autosome, Additive, c) + 1
            && CompleteC(Autosome, Additive, c') == CompleteC(Autosome, Additive, c) + 1
  {
    if male {
      DotIncrement(InformativeTrioBincAdditive, c.completeInformativeCaseMale, 3);
      DotIncrement(InformativeTrioCincAdditive, c.completeInformativeCaseMale, 3);
    } else {
      DotIncrement(InformativeTrioBincAdditive, c.completeInformativeCaseFemale, 3);
      DotIncrement(InformativeTrioCincAdditive, c.completeInformativeCaseFemale, 3);
    }
  }

  /** A marker whose only complete case trios are n > 0 trios of category 3
      has B = C = n and an additive TDT statistic of zero (for example ten
      such trios give B = C = 10) */
  lemma OnlyHeterozygousTrios(c: TrioTypeCounts, n: nat)
    requires |c.completeInformativeCaseMale| == 7 && c.completeInformativeCaseMale[3] == n > 0
    requires forall j :: 0 <= j < 7 && j != 3 ==> c.completeInformativeCaseMale[j] == 0
    requires forall j :: 0 <= j < |c.completeInformativeCaseFemale| ==> c.completeInformativeCaseFemale[j] == 0
    ensures CompleteB(Autosome, Additive, c) == n == CompleteC(Autosome, Additive, c)
    ensures StdChiSquare(Autosome, Additive, c) == Some(0.0)
  {
    DotSingleCell(InformativeTrioBincAdditive, c.completeInformativeCaseMale, 3);
    DotSingleCell(InformativeTrioCincAdditive, c.completeInformativeCaseMale, 3);
    DotZeros(InformativeTrioBincAdditive, c.completeInformativeCaseFemale);
    DotZeros(InformativeTrioCincAdditive, c.completeInformativeCaseFemale);
  }

  // ---------------------------------------------------------------------
  // Extended TDT

  /** Largest number of reference alleles the incomplete informative case
      trios can have transmitted */
  function BMaxIncrement(chrom: Chromosome, model: Model, c: TrioTypeCounts): nat
  {
    Dot(IncompleteBinc(chrom, model, Male), c.incompleteInformativeCaseMale)
    + Dot(IncompleteBinc(chrom, model, Female), c.incompleteInformativeCaseFemale)
  }

  /** Largest number of alternate alleles they can have transmitted */
  function CMaxIncrement(chrom: Chromosome, model: Model, c: TrioTypeCounts): nat
  {
    Dot(IncompleteCinc(chrom, model, Male), c.incompleteInformativeCaseMale)
    + Dot(IncompleteCinc(chrom, model, Female), c.incompleteInformativeCaseFemale)
  }

  /** Reference alleles that the incomplete case trios transmit whatever the
      missing genotype is: autosomal category 8 under the additive and
      dominant models; on chrX male category 4, and female category 5 except
      under the recessive model */
  function BMinExtra(chrom: Chromosome, model: Model, c: TrioTypeCounts): nat
    requires c.WellFormed(chrom)
  {
    WellFormedLengths(c, chrom);
    var male, female := c.incompleteInformativeCaseMale, c.incompleteInformativeCaseFemale;
    match chrom
    case Autosome => if model == Recessive then 0 else male[8] + female[8]
    case ChrX => male[4] + (if model == Recessive then 0 else female[5])
  }

  /** Alternate alleles transmitted whatever the missing genotype is:
      autosomal category 10 under the additive and recessive models; on chrX
      male category 5, and female category 7 except under the dominant
      model */
  function CMinExtra(chrom: Chromosome, model: Model, c: TrioTypeCounts): nat
    requires c.WellFormed(chrom)
  {
    WellFormedLengths(c, chrom);
    var male, female := c.incompleteInformativeCaseMale, c.incompleteInformativeCaseFemale;
    match chrom
    case Autosome => if model == Dominant then 0 else male[10] + female[10]
    case ChrX => male[5] + (if model == Dominant then 0 else female[7])
  }

  /** The bounds the extended TDT computes on B and C */
  datatype Bounds = Bounds(bMin: nat, bMax: nat, cMin: nat, cMax: nat)

  /** bMin and cMin add the certain transmissions to the complete counts,
      bMax and cMax the largest possible ones */
  function ExtendedBounds(chrom: Chromosome, model: Model, c: TrioTypeCounts): (r: Bounds)
    requires c.WellFormed(chrom)
    ensures CompleteB(chrom, model, c) <= r.bMin <= r.bMax
    ensures CompleteC(chrom, model, c) <= r.cMin <= r.cMax
  {
    var b, cc := CompleteB(chrom, model, c), CompleteC(chrom, model, c);
    CertainWithinPossible(chrom, model, c);
    Bounds(b + BMinExtra(chrom, model, c), b + BMaxIncrement(chrom, model, c),
           cc + CMinExtra(chrom, model, c), cc + CMaxIncrement(chrom, model, c))
  }

  /** The bounds built from given complete counts b and c are the extended
      bounds when b and c are the complete counts of the record */
  lemma ExtendedBoundsFrom(chrom: Chromosome, model: Model, c: TrioTypeCounts, b: nat, cc: nat)
    requires c.WellFormed(chrom)
    requires b == CompleteB(chrom, model, c) && cc == CompleteC(chrom, model, c)
    ensures ExtendedBounds(chrom, model, c)
         == Bounds(b + BMinExtra(chrom, model, c), b + BMaxIncrement(chrom, model, c),
                   cc + CMinExtra(chrom, model, c), cc + CMaxIncrement(chrom, model, c))
  {
  }

  /** The certain transmissions are among the possible ones: every category
      added into bMin (cMin) carries a coefficient of at least one in the
      table of largest B-increments (C-increments) */
  lemma CertainWithinPossible(chrom: Chromosome, model: Model, c: TrioTypeCounts)
    requires c.WellFormed(chrom)
    ensures BMinExtra(chrom, model, c) <= BMaxIncrement(chrom, model, c)
    ensures CMinExtra(chrom, model, c) <= CMaxIncrement(chrom, model, c)
  {
    WellFormedLengths(c, chrom);
    var male, female := c.incompleteInformativeCaseMale, c.incompleteInformativeCaseFemale;
    CertainCoefficients(chrom, model);
    match chrom
    case Autosome =>
      if model != Recessive {
        CountedAtLeastOnce(IncompleteBinc(chrom, model, Male), male, 8);
        CountedAtLeastOnce(IncompleteBinc(chrom, model, Female), female, 8);
      }
      if model != Dominant {
        CountedAtLeastOnce(IncompleteCinc(chrom, model, Male), male, 10);
        CountedAtLeastOnce(IncompleteCinc(chrom, model, Female), female, 10);
      }
    case ChrX =>
      CountedAtLeastOnce(IncompleteBinc(chrom, model, Male), male, 4);
      CountedAtLeastOnce(IncompleteCinc(chrom, model, Male), male, 5);
      if model != Recessive {
        CountedAtLeastOnce(IncompleteBinc(chrom, model, Female), female, 5);
      }
      if model != Dominant {
        CountedAtLeastOnce(IncompleteCinc(chrom, model, Female), female, 7);
      }
  }

  /** The table entries behind the certain transmissions */
  lemma CertainCoefficients(chrom: Chromosome, model: Model)
    ensures chrom == Autosome && model != Recessive ==>
      IncompleteBinc(chrom, model, Male)[8] >= 1 && IncompleteBinc(chrom, model, Female)[8] >= 1
    ensures chrom == Autosome && model != Dominant ==>
      IncompleteCinc(chrom, model, Male)[10] >= 1 && IncompleteCinc(chrom, model, Female)[10] >= 1
    ensures chrom == ChrX ==> IncompleteBinc(chrom, model, Male)[4] >= 1 && IncompleteCinc(chrom, model, Male)[5] >= 1
    ensures chrom == ChrX && model != Recessive ==> IncompleteBinc(chrom, model, Female)[5] >= 1
    ensures chrom == ChrX && model != Dominant ==> IncompleteCinc(chrom, model, Female)[7] >= 1
  {
  }

  /** A cell whose coefficient is at least one is counted at least once */
  lemma CountedAtLeastOnce(a: seq<nat>, v: seq<nat>, i: nat)
    requires i < |a| && i < |v| && a[i] >= 1
    ensures Dot(a, v) >= v[i]
  {
    DotGeCell(a, v, i);
    MulMono(1, a[i], v[i]);
  }

  /** Without incomplete informative case trios the bounds collapse onto the
      standard counts */
  lemma {:induction false} NoIncompleteTrios(chrom: Chromosome, model: Model, c: TrioTypeCounts)
    requires c.WellFormed(chrom)
    requires forall j :: 0 <= j < |c.incompleteInformativeCaseMale| ==> c.incompleteInformativeCaseMale[j] == 0
    requires forall j :: 0 <= j < |c.incompleteInformativeCaseFemale| ==> c.incompleteInformativeCaseFemale[j] == 0
    ensures var r := ExtendedBounds(chrom, model, c);
            r.bMin == r.bMax == CompleteB(chrom, model, c) && r.cMin == r.cMax == CompleteC(chrom, model, c)
  {
    DotZeros(IncompleteBinc(chrom, model, Male), c.incompleteInformativeCaseMale);
    DotZeros(IncompleteBinc(chrom, model, Female), c.incompleteInformativeCaseFemale);
    DotZeros(IncompleteCinc(chrom, model, Male), c.incompleteInformativeCaseMale);
    DotZeros(IncompleteCinc(chrom, model, Female), c.incompleteInformativeCaseFemale);
  }

  // ---------------------------------------------------------------------
  // Minimum and maximum statistic

  /** The extended statistics: the minimum and the maximum TDT statistic */
  datatype StatisticRange = StatisticRange(min: Option<real>, max: Option<real>)

  /** When the B range lies above the C range, (bMin, cMax) gives the
      smallest statistic and (bMax, cMin) the largest; when it lies below,
      the other way round; when the ranges overlap, the minimum is zero and
      the maximum the larger of the two (an undefined statistic, "NA",
      compares above every number in Python 2, so it wins the max) */
  function MinMaxStatistic(bounds: Bounds): StatisticRange
  {
    var stat1 := ChiSquare(bounds.bMin, bounds.cMax);
    var stat2 := ChiSquare(bounds.bMax, bounds.cMin);
    if bounds.bMin >= bounds.cMax then StatisticRange(stat1, stat2)
    else if bounds.bMax <= bounds.cMin then StatisticRange(stat2, stat1)
    else
      var larger := if stat1.Some? && stat2.Some? then Some(if stat1.value >= stat2.value then stat1.value else stat2.value) else None;
      StatisticRange(Some(0.0), larger)
  }

  /** Away from the diagonal the statistic grows as b and c move apart */
  lemma ChiSquareMonotone(b: nat, c: nat, b': nat, c': nat)
    requires c <= b && b <= b' && c' <= c && b + c > 0
    ensures ChiSquare(b, c).value <= ChiSquare(b', c').value
  {
    ChiGrowsWithB(b, c, b');
    ChiGrowsAsCShrinks(b', c, c');
  }

  /** Raising b above c raises the statistic */
  lemma ChiGrowsWithB(b: nat, c: nat, b': nat)
    requires c <= b <= b' && b + c > 0
    ensures ChiSquare(b, c).value <= ChiSquare(b', c).value
  {
    var x, s, d := b - c, b + c, b' - b;
    CrossGrowsWithB(x, s, d);
    assert b' - c == x + d && b' + c == s + d;
    DivCross(x * x, s, (x + d) * (x + d), s + d);
  }

  /** Lowering c below b raises the statistic */
  lemma ChiGrowsAsCShrinks(b: nat, c: nat, c': nat)
    requires c' <= c <= b && b + c > 0
    ensures ChiSquare(b, c).value <= ChiSquare(b, c').value
  {
    var x, s, e := b - c, b + c, c - c';
    CrossGrowsAsCShrinks(x, s, e);
    assert b - c' == x + e && b + c' == s - e;
    DivCross(x * x, s, (x + e) * (x + e), s - e);
  }

  /** x^2 / s <= (x + d)^2 / (s + d), cross-multiplied, when x <= s */
  lemma CrossGrowsWithB(x: nat, s: nat, d: nat)
    requires x <= s
    ensures x * x * (s + d) <= (x + d) * (x + d) * s
  {
    var u: nat := s - x;
    var t: nat := x * u + x * s + d * s;
    assert (x + d) * (x + d) * s - x * x * (s + d) == d * t;
  }

  /** x^2 / s <= (x + e)^2 / (s - e), cross-multiplied */
  lemma CrossGrowsAsCShrinks(x: nat, s: nat, e: nat)
    requires e <= s
    ensures x * x * (s - e) <= (x + e) * (x + e) * s
  {
    var t: nat := 2 * x * s + e * s + x * x;
    assert (x + e) * (x + e) * s - x * x * (s - e) == e * t;
  }

  /** m <= n times a non-negative factor */
  lemma MulMono(m: nat, n: nat, k: nat)
    requires m <= n
    ensures m * k <= n * k
  {
  }

  /** Comparing fractions of integers by cross-multiplication */
  lemma DivCross(p: int, q: int, p': int, q': int)
    requires q > 0 && q' > 0 && p * q' <= p' * q
    ensures p as real / q as real <= p' as real / q' as real
  {
    var P, Q, P', Q' := p as real, q as real, p' as real, q' as real;
    assert P * Q' <= P' * Q;
    assert P / Q == (P * Q') / (Q * Q');
    assert P' / Q' == (P' * Q) / (Q * Q');
  }

  /** The statistic does not depend on which allele is called B */
  lemma ChiSquareSymmetric(b: nat, c: nat)
    ensures ChiSquare(b, c) == ChiSquare(c, b)
  {
    assert (b - c) * (b - c) == (c - b) * (c - b);
  }

  /** In the overlapping branch both statistics are defined, so the maximum
      is always a number there */
  lemma OverlapDefined(bounds: Bounds)
    requires bounds.bMin < bounds.cMax && bounds.bMax > bounds.cMin
    ensures MinMaxStatistic(bounds).min == Some(0.0)
    ensures MinMaxStatistic(bounds).max.Some?
  {
  }

  /** The reported minimum and maximum bracket the statistic of every pair
      (b, c) inside the bounds; in particular min <= max whenever both are
      defined */
  lemma MinMaxBrackets(bounds: Bounds, b: nat, c: nat)
    requires bounds.bMin <= b <= bounds.bMax && bounds.cMin <= c <= bounds.cMax
    requires b + c > 0
    ensures var r := MinMaxStatistic(bounds);
            (r.min.Some? ==> r.min.value <= ChiSquare(b, c).value)
            && (r.max.Some? ==> ChiSquare(b, c).value <= r.max.value)
  {
    var r := MinMaxStatistic(bounds);
    var bMin, bMax, cMin, cMax := bounds.bMin, bounds.bMax, bounds.cMin, bounds.cMax;
    if bMin >= cMax {
      if bMin + cMax > 0 {
        ChiSquareMonotone(bMin, cMax, b, c);
      }
      ChiSquareMonotone(b, c, bMax, cMin);
    } else if bMax <= cMin {
      ChiSquareSymmetric(b, c);
      ChiSquareSymmetric(bMin, cMax);
      ChiSquareSymmetric(bMax, cMin);
      if bMax + cMin > 0 {
        ChiSquareMonotone(cMin, bMax, c, b);
      }
      ChiSquareMonotone(c, b, cMax, bMin);
    } else {
      if b >= c {
        ChiSquareMonotone(b, c, bMax, cMin);
      } else {
        ChiSquareSymmetric(b, c);
        ChiSquareSymmetric(bMin, cMax);
        ChiSquareMonotone(c, b, cMax, bMin);
      }
    }
  }

  /** The minimum statistic never exceeds the maximum one */
  lemma MinAtMostMax(bounds: Bounds)
    requires bounds.bMin <= bounds.bMax && bounds.cMin <= bounds.cMax
    ensures var r := MinMaxStatistic(bounds);
            r.min.Some? && r.max.Some? ==> r.min.value <= r.max.value
  {
    var r := MinMaxStatistic(bounds);
    if r.min.Some? && r.max.Some? && bounds.bMin >= bounds.cMax {
      MinMaxBrackets(bounds, bounds.bMin, bounds.cMax);
    } else if r.min.Some? && r.max.Some? && bounds.bMax <= bounds.cMin {
      MinMaxBrackets(bounds, bounds.bMax, bounds.cMin);
    }
  }

  /** With no incomplete informative case trios the extended test reports
      the standard statistic as both its minimum and its maximum */
  lemma ExtendedWithoutIncompleteTrios(chrom: Chromosome, model: Model, c: TrioTypeCounts)
    requires c.WellFormed(chrom)
    requires forall j :: 0 <= j < |c.incompleteInformativeCaseMale| ==> c.incompleteInformativeCaseMale[j] == 0
    requires forall j :: 0 <= j < |c.incompleteInformativeCaseFemale| ==> c.incompleteInformativeCaseFemale[j] == 0
    ensures var r := MinMaxStatistic(ExtendedBounds(chrom, model, c));
            r.min == r.max == StdChiSquare(chrom, model, c)
  {
    NoIncompleteTrios(chrom, model, c);
  }
}
