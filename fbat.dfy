/** The family-based association test of one marker: the score U and its
    variance over complete informative trios, weighted by the phenotype
    offset (classMarker.py:393-425, classMarker.py:683-715), and its
    extension to incomplete trios by a lower and an upper bound on U
    (classMarker.py:428-485, classMarker.py:719-777). The statistic is kept
    as Z^2 = U^2 / Var(U); the square root and the normal p-value are not
    part of this model. */
module Fbat {
  import opened Genetics
  import opened Tables
  import opened Classifier
  import opened Counts

  /** Sum of products of coefficient and count over the pairs that Python's
      `zip` forms, on real coefficients */
  function DotR(a: seq<real>, v: seq<nat>): real
  {
    if |a| == 0 || |v| == 0 then 0.0 else a[0] * v[0] as real + DotR(a[1..], v[1..])
  }

  predicate NonNegative(a: seq<real>)
  {
    forall i :: 0 <= i < |a| ==> a[i] >= 0.0
  }

  /** Cell by cell, a never exceeds b */
  predicate Below(a: seq<real>, b: seq<real>)
  {
    |a| == |b| && forall i :: 0 <= i < |a| ==> a[i] <= b[i]
  }

  /** Non-negative coefficients give a non-negative sum */
  lemma {:induction false} DotRNonNegative(a: seq<real>, v: seq<nat>)
    requires NonNegative(a)
    ensures DotR(a, v) >= 0.0
  {
    if |a| > 0 && |v| > 0 {
      DotRNonNegative(a[1..], v[1..]);
    }
  }

  /** Smaller coefficients give a smaller sum */
  lemma {:induction false} DotRMonotone(a: seq<real>, b: seq<real>, v: seq<nat>)
    requires Below(a, b)
    ensures DotR(a, v) <= DotR(b, v)
  {
    if |a| > 0 && |v| > 0 {
      DotRMonotone(a[1..], b[1..], v[1..]);
    }
  }

  /** No trios, no score */
  lemma {:induction false} DotRZeros(a: seq<real>, v: seq<nat>)
    requires forall j :: 0 <= j < |v| ==> v[j] == 0
    ensures DotR(a, v) == 0.0
  {
    if |a| > 0 && |v| > 0 {
      DotRZeros(a[1..], v[1..]);
    }
  }

  // ---------------------------------------------------------------------
  // Facts about the coefficient tables

  /** Every variance coefficient of a complete informative trio is >= 0 */
  lemma InformativeVarUNonNegative(chrom: Chromosome, model: Model, sex: Sex)
    ensures NonNegative(InformativeVarU(chrom, model, sex))
  {
  }

  /** Every variance bound coefficient of an incomplete trio is >= 0 */
  lemma IncompleteVarUNonNegative(chrom: Chromosome, model: Model, sex: Sex, status: Status, bound: Bound)
    ensures NonNegative(IncompleteVarU(chrom, model, sex, status, bound))
  {
    match (chrom, sex)
    case (Autosome, _) => AutosomalBoundVarUNonNegative(model, status, bound);
    case (ChrX, Male) => assert NonNegative(MaleBoundVarU(status, bound));
    case (ChrX, Female) => FemaleBoundVarUNonNegative(model, status, bound);
  }

  lemma AutosomalBoundVarUNonNegative(model: Model, status: Status, bound: Bound)
    ensures NonNegative(AutosomalBoundVarU(model, status, bound))
  {
    match model
    case Additive => assert NonNegative(AutosomalBoundVarU(Additive, status, bound));
    case Dominant => assert NonNegative(AutosomalBoundVarU(Dominant, status, bound));
    case Recessive => assert NonNegative(AutosomalBoundVarU(Recessive, status, bound));
  }

  lemma FemaleBoundVarUNonNegative(model: Model, status: Status, bound: Bound)
    ensures NonNegative(FemaleBoundVarU(model, status, bound))
  {
    match model
    case Additive => assert NonNegative(FemaleBoundVarU(Additive, status, bound));
    case Dominant => assert NonNegative(FemaleBoundVarU(Dominant, status, bound));
    case Recessive => assert NonNegative(FemaleBoundVarU(Recessive, status, bound));
  }

  /** The control tables mirror the case tables: the lower bound for cases
      is the upper bound for controls and the other way round */
  lemma CaseControlMirror(chrom: Chromosome, model: Model, sex: Sex)
    ensures IncompleteU(chrom, model, sex, Case, Min) == IncompleteU(chrom, model, sex, Control, Max)
    ensures IncompleteU(chrom, model, sex, Case, Max) == IncompleteU(chrom, model, sex, Control, Min)
    ensures IncompleteVarU(chrom, model, sex, Case, Min) == IncompleteVarU(chrom, model, sex, Control, Max)
    ensures IncompleteVarU(chrom, model, sex, Case, Max) == IncompleteVarU(chrom, model, sex, Control, Min)
  {
  }

  /** Each lower-bound score coefficient for cases is at most its
      upper-bound coefficient */
  lemma CaseMinBelowMax(chrom: Chromosome, model: Model, sex: Sex)
    ensures Below(IncompleteU(chrom, model, sex, Case, Min), IncompleteU(chrom, model, sex, Case, Max))
  {
    match (chrom, sex, model)
    case (Autosome, _, Additive) => assert Below(AutosomalBoundU(Additive, Case, Min), AutosomalBoundU(Additive, Case, Max));
    case (Autosome, _, Dominant) => assert Below(AutosomalBoundU(Dominant, Case, Min), AutosomalBoundU(Dominant, Case, Max));
    case (Autosome, _, Recessive) => assert Below(AutosomalBoundU(Recessive, Case, Min), AutosomalBoundU(Recessive, Case, Max));
    case (ChrX, Male, _) => assert Below(MaleBoundU(Case, Min), MaleBoundU(Case, Max));
    case (ChrX, Female, Additive) => assert Below(FemaleBoundU(Additive, Case, Min), FemaleBoundU(Additive, Case, Max));
    case (ChrX, Female, Dominant) => assert Below(FemaleBoundU(Dominant, Case, Min), FemaleBoundU(Dominant, Case, Max));
    case (ChrX, Female, Recessive) => assert Below(FemaleBoundU(Recessive, Case, Min), FemaleBoundU(Recessive, Case, Max));
  }

  // ---------------------------------------------------------------------
  // Standard FBAT

  /** Offset-weighted score of the affected offspring: each case trio's
      score is scaled by (1 - offset) */
  function CaseU(chrom: Chromosome, model: Model, offset: real, c: TrioTypeCounts): real
  {
    (1.0 - offset) * (DotR(InformativeU(chrom, model, Male), c.completeInformativeCaseMale)
                      + DotR(InformativeU(chrom, model, Female), c.completeInformativeCaseFemale))
  }

  /** Offset-weighted score of the unaffected offspring, scaled by (0 - offset) */
  function ControlU(chrom: Chromosome, model: Model, offset: real, c: TrioTypeCounts): real
  {
    (0.0 - offset) * (DotR(InformativeU(chrom, model, Male), c.completeInformativeControlMale)
                      + DotR(InformativeU(chrom, model, Female), c.completeInformativeControlFemale))
  }

  /** Variance of the case score, scaled by (1 - offset)^2 */
  function CaseVarU(chrom: Chromosome, model: Model, offset: real, c: TrioTypeCounts): (r: real)
    ensures r >= 0.0
  {
    InformativeVarUNonNegative(chrom, model, Male);
    InformativeVarUNonNegative(chrom, model, Female);
    DotRNonNegative(InformativeVarU(chrom, model, Male), c.completeInformativeCaseMale);
    DotRNonNegative(InformativeVarU(chrom, model, Female), c.completeInformativeCaseFemale);
    SquareSign(1.0 - offset);
    var weight := Square(1.0 - offset);
    var sum := DotR(InformativeVarU(chrom, model, Male), c.completeInformativeCaseMale)
               + DotR(InformativeVarU(chrom, model, Female), c.completeInformativeCaseFemale);
    ProductNonNegative(weight, sum);
    weight * sum
  }

  /** Variance of the control score, scaled by (0 - offset)^2 */
  function ControlVarU(chrom: Chromosome, model: Model, offset: real, c: TrioTypeCounts): (r: real)
    ensures r >= 0.0
  {
    InformativeVarUNonNegative(chrom, model, Male);
    InformativeVarUNonNegative(chrom, model, Female);
    DotRNonNegative(InformativeVarU(chrom, model, Male), c.completeInformativeControlMale);
    DotRNonNegative(InformativeVarU(chrom, model, Female), c.completeInformativeControlFemale);
    SquareSign(0.0 - offset);
    var weight := Square(0.0 - offset);
    var sum := DotR(InformativeVarU(chrom, model, Male), c.completeInformativeControlMale)
               + DotR(InformativeVarU(chrom, model, Female), c.completeInformativeControlFemale);
    ProductNonNegative(weight, sum);
    weight * sum
  }

  lemma ProductNonNegative(k: real, x: real)
    requires k >= 0.0 && x >= 0.0
    ensures k * x >= 0.0
  {
  }

  function Product(x: real, y: real): real
  {
    x * y
  }

  /** x^2, kept behind a function so that the solver treats it as a product */
  function Square(x: real): real
  {
    Product(x, x)
  }

  lemma ProductPositive(x: real, y: real)
    requires x > 0.0 && y > 0.0
    ensures Product(x, y) > 0.0
  {
  }

  lemma ProductNegated(x: real, y: real)
    ensures Product(-x, -y) == Product(x, y)
  {
  }

  /** A square is non-negative, and zero exactly at zero */
  lemma SquareSign(x: real)
    ensures Square(x) >= 0.0
    ensures Square(x) == 0.0 <==> x == 0.0
  {
    if x > 0.0 {
      ProductPositive(x, x);
    } else if x < 0.0 {
      ProductPositive(-x, -x);
      ProductNegated(x, x);
    }
  }

  /** Dividing by a positive number keeps the sign */
  lemma QuotientSign(s: real, v: real)
    requires s >= 0.0 && v > 0.0
    ensures s / v >= 0.0
    ensures s / v == 0.0 <==> s == 0.0
  {
  }

  /** Z^2 = U^2 / Var(U); undefined ("NA") when the variance is zero, where
      the division by sqrt(Var(U)) fails. Z itself has the sign of U. */
  function ZSquared(u: real, varU: real): (r: Option<real>)
    requires varU >= 0.0
    ensures r.None? <==> varU == 0.0
    ensures r.Some? ==> r.value >= 0.0 && (r.value == 0.0 <==> u == 0.0)
  {
    if varU == 0.0 then None
    else
      SquareSign(u);
      QuotientSign(Square(u), varU);
      Some(Square(u) / varU)
  }

  /** The standard FBAT score and its variance */
  function StdU(chrom: Chromosome, model: Model, offset: real, c: TrioTypeCounts): real
  {
    CaseU(chrom, model, offset, c) + ControlU(chrom, model, offset, c)
  }

  function StdVarU(chrom: Chromosome, model: Model, offset: real, c: TrioTypeCounts): (r: real)
    ensures r >= 0.0
  {
    CaseVarU(chrom, model, offset, c) + ControlVarU(chrom, model, offset, c)
  }

  /** The counts with the roles of affected and unaffected offspring swapped */
  function SwapStatus(c: TrioTypeCounts): (r: TrioTypeCounts)
    ensures r.completeInformativeCaseMale == c.completeInformativeControlMale
    ensures r.completeInformativeControlMale == c.completeInformativeCaseMale
    ensures r.incompleteInformativeCaseFemale == c.incompleteInformativeControlFemale
  {
    c.(completeInformativeCaseMale := c.completeInformativeControlMale,
       completeInformativeCaseFemale := c.completeInformativeControlFemale,
       completeInformativeControlMale := c.completeInformativeCaseMale,
       completeInformativeControlFemale := c.completeInformativeCaseFemale,
       completeNonInformativeCase := c.completeNonInformativeControl,
       completeNonInformativeControl := c.completeNonInformativeCase,
       incompleteInformativeCaseMale := c.incompleteInformativeControlMale,
       incompleteInformativeCaseFemale := c.incompleteInformativeControlFemale,
       incompleteInformativeControlMale := c.incompleteInformativeCaseMale,
       incompleteInformativeControlFemale := c.incompleteInformativeCaseFemale,
       incompleteNonInformativeCase := c.incompleteNonInformativeControl,
       incompleteNonInformativeControl := c.incompleteNonInformativeCase)
  }

  /** At the default offset 0.5, swapping cases and controls exchanges the
      case and control scores with their signs flipped, and exchanges the
      variances */
  lemma StdTermsSwap(chrom: Chromosome, model: Model, c: TrioTypeCounts)
    ensures CaseU(chrom, model, 0.5, SwapStatus(c)) == -ControlU(chrom, model, 0.5, c)
    ensures ControlU(chrom, model, 0.5, SwapStatus(c)) == -CaseU(chrom, model, 0.5, c)
    ensures CaseVarU(chrom, model, 0.5, SwapStatus(c)) == ControlVarU(chrom, model, 0.5, c)
    ensures ControlVarU(chrom, model, 0.5, SwapStatus(c)) == CaseVarU(chrom, model, 0.5, c)
  {
  }

  /** Hence the standard score is antisymmetric in the phenotype: swapping
      cases and controls negates U and keeps Var(U) */
  lemma StdSwapSymmetry(chrom: Chromosome, model: Model, c: TrioTypeCounts)
    ensures StdU(chrom, model, 0.5, SwapStatus(c)) == -StdU(chrom, model, 0.5, c)
    ensures StdVarU(chrom, model, 0.5, SwapStatus(c)) == StdVarU(chrom, model, 0.5, c)
  {
    StdTermsSwap(chrom, model, c);
  }

  // ---------------------------------------------------------------------
  // Extended FBAT

  /** Score contribution of the incomplete informative trios of one status
      at one bound, before the offset weight */
  function IncompleteScore(chrom: Chromosome, model: Model, c: TrioTypeCounts, status: Status, bound: Bound): real
  {
    DotR(IncompleteU(chrom, model, Male, status, bound), c.Vector(IncompleteInformative(status, Male)))
    + DotR(IncompleteU(chrom, model, Female, status, bound), c.Vector(IncompleteInformative(status, Female)))
  }

  /** Variance contribution of the same trios, before the offset weight */
  function IncompleteVariance(chrom: Chromosome, model: Model, c: TrioTypeCounts, status: Status, bound: Bound): (r: real)
    ensures r >= 0.0
  {
    IncompleteVarUNonNegative(chrom, model, Male, status, bound);
    IncompleteVarUNonNegative(chrom, model, Female, status, bound);
    DotRNonNegative(IncompleteVarU(chrom, model, Male, status, bound), c.Vector(IncompleteInformative(status, Male)));
    DotRNonNegative(IncompleteVarU(chrom, model, Female, status, bound), c.Vector(IncompleteInformative(status, Female)));
    DotR(IncompleteVarU(chrom, model, Male, status, bound), c.Vector(IncompleteInformative(status, Male)))
    + DotR(IncompleteVarU(chrom, model, Female, status, bound), c.Vector(IncompleteInformative(status, Female)))
  }

  /** The offset-weighted total of the case and control scores plus the
      incomplete trios' contributions s (cases) and t (controls) */
  function Weighted(offset: real, caseU: real, controlU: real, s: real, t: real): real
  {
    caseU + (1.0 - offset) * s + (controlU + (0.0 - offset) * t)
  }

  /** Umin or Umax: the standard score plus the incomplete trios' bound
      contributions, cases weighted by (1 - offset), controls by (0 - offset) */
  function UBound(chrom: Chromosome, model: Model, offset: real, c: TrioTypeCounts, bound: Bound): real
  {
    Weighted(offset, CaseU(chrom, model, offset, c), ControlU(chrom, model, offset, c),
             IncompleteScore(chrom, model, c, Case, bound), IncompleteScore(chrom, model, c, Control, bound))
  }

  /** The same total for variances, weighted by the squared offsets */
  function WeightedVariance(offset: real, caseVarU: real, controlVarU: real, s: real, t: real): (r: real)
    requires caseVarU >= 0.0 && controlVarU >= 0.0 && s >= 0.0 && t >= 0.0
    ensures r >= 0.0
  {
    SquareSign(1.0 - offset);
    SquareSign(0.0 - offset);
    ProductNonNegative(Square(1.0 - offset), s);
    ProductNonNegative(Square(0.0 - offset), t);
    caseVarU + Square(1.0 - offset) * s + (controlVarU + Square(0.0 - offset) * t)
  }

  /** VarUmin or VarUmax */
  function VarUBound(chrom: Chromosome, model: Model, offset: real, c: TrioTypeCounts, bound: Bound): (r: real)
    ensures r >= 0.0
  {
    WeightedVariance(offset, CaseVarU(chrom, model, offset, c), ControlVarU(chrom, model, offset, c),
                     IncompleteVariance(chrom, model, c, Case, bound), IncompleteVariance(chrom, model, c, Control, bound))
  }

  /** The incomplete case trios' lower-bound score is at most their
      upper-bound score, and for controls the other way round */
  lemma IncompleteScoresOrdered(chrom: Chromosome, model: Model, c: TrioTypeCounts)
    ensures IncompleteScore(chrom, model, c, Case, Min) <= IncompleteScore(chrom, model, c, Case, Max)
    ensures IncompleteScore(chrom, model, c, Control, Max) <= IncompleteScore(chrom, model, c, Control, Min)
  {
    CaseControlMirror(chrom, model, Male);
    CaseControlMirror(chrom, model, Female);
    CaseMinBelowMax(chrom, model, Male);
    CaseMinBelowMax(chrom, model, Female);
    DotRMonotone(IncompleteU(chrom, model, Male, Case, Min), IncompleteU(chrom, model, Male, Case, Max), c.Vector(IncompleteInformative(Case, Male)));
    DotRMonotone(IncompleteU(chrom, model, Female, Case, Min), IncompleteU(chrom, model, Female, Case, Max), c.Vector(IncompleteInformative(Case, Female)));
    DotRMonotone(IncompleteU(chrom, model, Male, Control, Max), IncompleteU(chrom, model, Male, Control, Min), c.Vector(IncompleteInformative(Control, Male)));
    DotRMonotone(IncompleteU(chrom, model, Female, Control, Max), IncompleteU(chrom, model, Female, Control, Min), c.Vector(IncompleteInformative(Control, Female)));
  }

  /** For an offset in [0, 1] the lower bound on the score never exceeds
      the upper bound */
  lemma UMinAtMostUMax(chrom: Chromosome, model: Model, offset: real, c: TrioTypeCounts)
    requires 0.0 <= offset <= 1.0
    ensures UBound(chrom, model, offset, c, Min) <= UBound(chrom, model, offset, c, Max)
  {
    IncompleteScoresOrdered(chrom, model, c);
    WeightedOrdered(offset, CaseU(chrom, model, offset, c), ControlU(chrom, model, offset, c),
      IncompleteScore(chrom, model, c, Case, Min), IncompleteScore(chrom, model, c, Case, Max),
      IncompleteScore(chrom, model, c, Control, Min), IncompleteScore(chrom, model, c, Control, Max));
  }

  /** The bound formula is monotone in the incomplete trios' scores: cases
      enter with the weight 1 - offset >= 0, controls with -offset <= 0 */
  lemma WeightedOrdered(offset: real, caseU: real, controlU: real,
                        caseMin: real, caseMax: real, controlMin: real, controlMax: real)
    requires 0.0 <= offset <= 1.0 && caseMin <= caseMax && controlMax <= controlMin
    ensures Weighted(offset, caseU, controlU, caseMin, controlMin) <= Weighted(offset, caseU, controlU, caseMax, controlMax)
  {
    var w, n := 1.0 - offset, 0.0 - offset;
    ScaleMonotone(w, caseMin, caseMax);
    ScaleMonotone(offset, controlMax, controlMin);
    assert n * controlMin == -(offset * controlMin);
    assert n * controlMax == -(offset * controlMax);
    SumMonotone(w * caseMin, w * caseMax, n * controlMin, n * controlMax, caseU, controlU);
  }

  lemma SumMonotone(a: real, b: real, c: real, d: real, x: real, y: real)
    requires a <= b && c <= d
    ensures x + a + (y + c) <= x + b + (y + d)
  {
  }

  /** Multiplying by a non-negative factor keeps the order */
  lemma ScaleMonotone(k: real, x: real, y: real)
    requires k >= 0.0 && x <= y
    ensures k * x <= k * y
  {
    assert k * y - k * x == k * (y - x);
    assert k * (y - x) >= 0.0;
  }

  /** With the default offset 0.5, swapping cases and controls turns the
      lower bound on the score into the negated upper bound */
  lemma ExtendedSwapSymmetry(chrom: Chromosome, model: Model, c: TrioTypeCounts)
    ensures UBound(chrom, model, 0.5, SwapStatus(c), Min) == -UBound(chrom, model, 0.5, c, Max)
  {
    var d := SwapStatus(c);
    CaseControlMirror(chrom, model, Male);
    CaseControlMirror(chrom, model, Female);
    assert IncompleteScore(chrom, model, d, Case, Min) == IncompleteScore(chrom, model, c, Control, Max);
    assert IncompleteScore(chrom, model, d, Control, Min) == IncompleteScore(chrom, model, c, Case, Max);
    StdTermsSwap(chrom, model, c);
    WeightedHalfSwap(CaseU(chrom, model, 0.5, c), ControlU(chrom, model, 0.5, c),
                     IncompleteScore(chrom, model, c, Case, Max), IncompleteScore(chrom, model, c, Control, Max));
  }

  lemma WeightedHalfSwap(caseU: real, controlU: real, s: real, t: real)
    ensures Weighted(0.5, -controlU, -caseU, t, s) == -Weighted(0.5, caseU, controlU, s, t)
  {
  }

  /** ... and the lower bound on the variance into the upper bound */
  lemma ExtendedVarianceSwapSymmetry(chrom: Chromosome, model: Model, c: TrioTypeCounts)
    ensures VarUBound(chrom, model, 0.5, SwapStatus(c), Min) == VarUBound(chrom, model, 0.5, c, Max)
  {
    var d := SwapStatus(c);
    CaseControlMirror(chrom, model, Male);
    CaseControlMirror(chrom, model, Female);
    assert IncompleteVariance(chrom, model, d, Case, Min) == IncompleteVariance(chrom, model, c, Control, Max);
    assert IncompleteVariance(chrom, model, d, Control, Min) == IncompleteVariance(chrom, model, c, Case, Max);
    StdTermsSwap(chrom, model, c);
    WeightedVarianceHalfSwap(CaseVarU(chrom, model, 0.5, c), ControlVarU(chrom, model, 0.5, c),
                             IncompleteVariance(chrom, model, c, Case, Max), IncompleteVariance(chrom, model, c, Control, Max));
  }

  lemma WeightedVarianceHalfSwap(caseVarU: real, controlVarU: real, s: real, t: real)
    requires caseVarU >= 0.0 && controlVarU >= 0.0 && s >= 0.0 && t >= 0.0
    ensures WeightedVariance(0.5, controlVarU, caseVarU, t, s) == WeightedVariance(0.5, caseVarU, controlVarU, s, t)
  {
  }

  /** Without incomplete informative trios both bounds on the score equal
      the standard score */
  lemma ExtendedScoreWithoutIncompleteTrios(chrom: Chromosome, model: Model, offset: real, c: TrioTypeCounts, bound: Bound)
    requires forall s: Status, x: Sex, j :: 0 <= j < |c.Vector(IncompleteInformative(s, x))| ==> c.Vector(IncompleteInformative(s, x))[j] == 0
    ensures UBound(chrom, model, offset, c, bound) == StdU(chrom, model, offset, c)
  {
    NoIncompleteScore(chrom, model, c, Case, bound);
    NoIncompleteScore(chrom, model, c, Control, bound);
  }

  /** ... and both bounds on the variance the standard variance */
  lemma ExtendedVarianceWithoutIncompleteTrios(chrom: Chromosome, model: Model, offset: real, c: TrioTypeCounts, bound: Bound)
    requires forall s: Status, x: Sex, j :: 0 <= j < |c.Vector(IncompleteInformative(s, x))| ==> c.Vector(IncompleteInformative(s, x))[j] == 0
    ensures VarUBound(chrom, model, offset, c, bound) == StdVarU(chrom, model, offset, c)
  {
    NoIncompleteScore(chrom, model, c, Case, bound);
    NoIncompleteScore(chrom, model, c, Control, bound);
  }

  /** Incomplete trio vectors of zeros contribute nothing */
  lemma NoIncompleteScore(chrom: Chromosome, model: Model, c: TrioTypeCounts, status: Status, bound: Bound)
    requires forall x: Sex, j :: 0 <= j < |c.Vector(IncompleteInformative(status, x))| ==> c.Vector(IncompleteInformative(status, x))[j] == 0
    ensures IncompleteScore(chrom, model, c, status, bound) == 0.0
    ensures IncompleteVariance(chrom, model, c, status, bound) == 0.0
  {
    DotRZeros(IncompleteU(chrom, model, Male, status, bound), c.Vector(IncompleteInformative(status, Male)));
    DotRZeros(IncompleteU(chrom, model, Female, status, bound), c.Vector(IncompleteInformative(status, Female)));
    DotRZeros(IncompleteVarU(chrom, model, Male, status, bound), c.Vector(IncompleteInformative(status, Male)));
    DotRZeros(IncompleteVarU(chrom, model, Female, status, bound), c.Vector(IncompleteInformative(status, Female)));
  }
}
