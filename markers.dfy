/** One marker (one row of the genotype matrix) and everything the driver
    asks of it: extracting the pedigrees' genotypes, the genotype check, the
    minor allele frequency, the variant distribution, the trio-type count
    vectors, and the TDT and FBAT statistics with their extended versions
    (classMarker.py:154-487 for autosomes, classMarker.py:490-777 for chrX).
    The chromosome kind is a constant of the object; every method is proved
    against the pure definitions of the modules it imports. */
module Markers {
  import opened Genetics
  import opened Tables
  import opened Classifier
  import opened Counts
  import opened Tdt
  import opened Fbat
  import opened Summaries

  class Marker {
    const chrom: Chromosome

    /** The genotypes of pedigree i's father, mother and offspring */
    var sampleGenotypes: seq<Trio>
    var maf: real
    /** [homozygous reference, heterozygous, homozygous alternate, missing] */
    var nVariantType: seq<nat>

    /** The twelve trio-type count vectors and the MIE counter */
    var counts: TrioTypeCounts

    // TDT: transmissions of the reference (b) and alternate (c) allele
    var bComplete: nat
    var cComplete: nat
    var bMaxIncrement: nat
    var cMaxIncrement: nat
    var bMin: nat
    var cMin: nat
    var bMax: nat
    var cMax: nat
    /** None stands for the source's "NA" */
    var chiSqStdTDT: Option<real>
    var minChiSqExtTDT: Option<real>
    var maxChiSqExtTDT: Option<real>

    // FBAT: the score U, its variance, and Z^2 = U^2 / Var(U)
    var caseU: real
    var caseVarU: real
    var controlU: real
    var controlVarU: real
    var zSquaredStdFBAT: Option<real>
    var minZSquaredExtFBAT: Option<real>
    var maxZSquaredExtFBAT: Option<real>

    /** Every vector has its table's length, and the stored variances are
        variances */
    ghost predicate Valid()
      reads this
    {
      counts.WellFormed(chrom) && |nVariantType| == 4
      && caseVarU >= 0.0 && controlVarU >= 0.0
    }

    /** A fresh marker: no genotypes, every count zero, every statistic zero */
    constructor (chrom: Chromosome)
      ensures Valid()
      ensures this.chrom == chrom
      ensures sampleGenotypes == [] && maf == 0.0 && nVariantType == [0, 0, 0, 0]
      ensures counts == Empty(chrom)
      ensures bComplete == cComplete == bMin == bMax == cMin == cMax == 0
      ensures bMaxIncrement == cMaxIncrement == 0
      ensures chiSqStdTDT == minChiSqExtTDT == maxChiSqExtTDT == Some(0.0)
      ensures caseU == controlU == caseVarU == controlVarU == 0.0
      ensures zSquaredStdFBAT == minZSquaredExtFBAT == maxZSquaredExtFBAT == Some(0.0)
    {
      this.chrom := chrom;
      sampleGenotypes := [];
      maf := 0.0;
      nVariantType := [0, 0, 0, 0];
      // every vector of its table's length, every cell zero
      counts := Empty(chrom);
      bComplete, cComplete, bMaxIncrement, cMaxIncrement := 0, 0, 0, 0;
      bMin, cMin, bMax, cMax := 0, 0, 0, 0;
      chiSqStdTDT, minChiSqExtTDT, maxChiSqExtTDT := Some(0.0), Some(0.0), Some(0.0);
      caseU, caseVarU, controlU, controlVarU := 0.0, 0.0, 0.0, 0.0;
      zSquaredStdFBAT, minZSquaredExtFBAT, maxZSquaredExtFBAT := Some(0.0), Some(0.0), Some(0.0);
    }

    // -------------------------------------------------------------------
    // Genotypes and summaries

    /** Pick each pedigree's three calls out of the marker row */
    method GetSampleGenotypes(row: seq<Genotype>, peds: seq<Pedigree>)
      requires forall i :: 0 <= i < |peds| ==>
                 peds[i].fatherCol < |row| && peds[i].motherCol < |row| && peds[i].childCol < |row|
      modifies this`sampleGenotypes
      ensures |sampleGenotypes| == |peds|
      ensures forall i :: 0 <= i < |peds| ==>
                sampleGenotypes[i] == Trio(row[peds[i].fatherCol], row[peds[i].motherCol], row[peds[i].childCol])
    {
      var trios: seq<Trio> := [];
      var i := 0;
      while i < |peds|
        invariant 0 <= i <= |peds| && |trios| == i
        invariant forall j :: 0 <= j < i ==>
                    trios[j] == Trio(row[peds[j].fatherCol], row[peds[j].motherCol], row[peds[j].childCol])
      {
        var p := peds[i];
        trios := trios + [Trio(row[p.fatherCol], row[p.motherCol], row[p.childCol])];
        i := i + 1;
      }
      sampleGenotypes := trios;
    }

    /** 1 (true) when every pedigree's genotypes pass the check, stopping at
        the first pedigree that fails */
    method HasValidGenotypes(peds: seq<Pedigree>) returns (valid: bool)
      requires |peds| == |sampleGenotypes|
      ensures valid <==> AllValid(chrom, sampleGenotypes, peds)
    {
      var i := 0;
      while i < |sampleGenotypes|
        invariant 0 <= i <= |sampleGenotypes|
        invariant forall j :: 0 <= j < i ==> ValidTrio(chrom, sampleGenotypes[j], peds[j].childSex)
      {
        var t := sampleGenotypes[i];
        var ok := CheckTrio(t, peds[i].childSex);
        if !ok {
          return false;
        }
        i := i + 1;
      }
      return true;
    }

    /** The membership tests on one pedigree's calls */
    method CheckTrio(t: Trio, sexCode: int) returns (ok: bool)
      ensures ok <==> ValidTrio(chrom, t, sexCode)
    {
      var alphabet := {G0, G1, G2, NA};
      var hemizygous := {G0, G1, NA};
      match chrom
      case Autosome =>
        ok := t.father in alphabet && t.mother in alphabet && t.child in alphabet;
      case ChrX =>
        if t.father !in hemizygous || t.mother !in alphabet {
          ok := false;
        } else if (sexCode == 1 && t.child !in hemizygous) || (sexCode == 2 && t.child !in alphabet) {
          ok := false;
        } else {
          ok := true;
        }
    }

    /** Count reference and alternate alleles over the called genotypes and
        store the frequency of the rarer one. Returns false, leaving maf as
        it was, where the source divides by a zero allele total. */
    method ComputeMAF(peds: seq<Pedigree>) returns (ok: bool)
      requires |peds| == |sampleGenotypes|
      modifies this`maf
      ensures ok <==> MinorAlleleFrequency(AlleleCounts(chrom, sampleGenotypes, peds)).Some?
      ensures ok ==> maf == MinorAlleleFrequency(AlleleCounts(chrom, sampleGenotypes, peds)).value
      ensures !ok ==> maf == old(maf)
    {
      var alleles := Alleles(0, 0);
      var i := 0;
      while i < |sampleGenotypes|
        invariant 0 <= i <= |sampleGenotypes| && maf == old(maf)
        invariant alleles == AlleleCounts(chrom, sampleGenotypes[..i], peds[..i])
      {
        var trio := CountTrioAlleles(sampleGenotypes[i], peds[i].childSex);
        alleles := alleles.Plus(trio);
        assert sampleGenotypes[..i + 1][..i] == sampleGenotypes[..i];
        assert peds[..i + 1][..i] == peds[..i];
        i := i + 1;
      }
      assert sampleGenotypes[..i] == sampleGenotypes && peds[..i] == peds;
      var refCount, altCount := alleles.ref, alleles.alt;
      var total := refCount + altCount;
      if total == 0 {
        return false;
      }
      if refCount < altCount {
        maf := refCount as real / total as real;
      } else {
        maf := altCount as real / total as real;
      }
      return true;
    }

    /** The reference and alternate alleles of one trio's calls, visited in
        the order father, mother, offspring */
    method CountTrioAlleles(t: Trio, sexCode: int) returns (a: Alleles)
      ensures a == TrioAlleles(chrom, t, sexCode)
    {
      a := Alleles(0, 0);
      var k := 0;
      while k < 3
        invariant 0 <= k <= 3
        invariant a == FirstCallsAlleles(chrom, t, sexCode, k)
      {
        var g, p := CallAt(t, k), Copies(chrom, RoleAt(k), sexCode);
        if g.IsCalled() && p > 0 {
          a := a.Plus(Alleles(p - g.Dosage(), g.Dosage()));
        } else {
          a := a.Plus(Alleles(0, 0));
        }
        k := k + 1;
      }
      TrioAllelesByCalls(chrom, t, sexCode);
    }

    /** Tally the genotype calls into [homozygous reference, heterozygous,
        homozygous alternate, missing], continuing from the current counts.
        Returns false, leaving the counts as they were, where the source
        indexes past the end of the four-bin list. */
    method GetVariantDistribution(peds: seq<Pedigree>) returns (ok: bool)
      requires Valid() && |peds| == |sampleGenotypes|
      modifies this`nVariantType
      ensures Valid()
      ensures ok <==> Distribution(chrom, old(nVariantType), sampleGenotypes, peds).Some?
      ensures ok ==> nVariantType == Distribution(chrom, old(nVariantType), sampleGenotypes, peds).value
      ensures !ok ==> nVariantType == old(nVariantType)
    {
      var v := nVariantType;
      var i := 0;
      while i < |sampleGenotypes|
        invariant 0 <= i <= |sampleGenotypes| && |v| == 4
        invariant nVariantType == old(nVariantType)
        invariant Distribution(chrom, nVariantType, sampleGenotypes[..i], peds[..i]) == Some(v)
      {
        var placed, w := PlaceTrio(v, sampleGenotypes[i], peds[i].childSex);
        assert sampleGenotypes[..i + 1][..i] == sampleGenotypes[..i];
        assert peds[..i + 1][..i] == peds[..i];
        if !placed {
          DistributionFailureSticks(chrom, nVariantType, sampleGenotypes, peds, i + 1);
          return false;
        }
        v := w;
        i := i + 1;
      }
      assert sampleGenotypes[..i] == sampleGenotypes && peds[..i] == peds;
      nVariantType := v;
      return true;
    }

    /** Add one trio's calls to the distribution v, in the order father,
        mother, offspring; placed is false where a call falls past the
        fourth bin */
    method PlaceTrio(v: seq<nat>, t: Trio, sexCode: int) returns (placed: bool, w: seq<nat>)
      requires |v| == 4
      ensures |w| == 4
      ensures placed <==> AddTrio(chrom, Some(v), t, sexCode).Some?
      ensures placed ==> AddTrio(chrom, Some(v), t, sexCode) == Some(w)
    {
      w := v;
      var k := 0;
      while k < 3
        invariant 0 <= k <= 3 && |w| == 4
        invariant FirstCallsAdded(chrom, Some(v), t, sexCode, k) == Some(w)
      {
        match Place(chrom, RoleAt(k), sexCode, CallAt(t, k)) {
          case Bin(j) =>
            w := w[j := w[j] + 1];
          case Skip =>
          case OutOfRange =>
            assert FirstCallsAdded(chrom, Some(v), t, sexCode, k + 1).None?;
            FirstCallsFailureSticks(chrom, Some(v), t, sexCode, k + 1, 3);
            TrioByCalls(chrom, Some(v), t, sexCode);
            return false, w;
        }
        k := k + 1;
      }
      TrioByCalls(chrom, Some(v), t, sexCode);
      return true, w;
    }

    // -------------------------------------------------------------------
    // Trio-type count vectors

    /** Add one to cell `index` of the vector behind `slot` */
    method Increment(slot: Slot, index: nat)
      requires index < |counts.Vector(slot)|
      modifies this`counts
      ensures counts == old(counts).Record(Counted(slot, index))
    {
      var v := counts.Vector(slot);
      counts := counts.WithVector(slot, v[index := v[index] + 1]);
    }

    /** Classify every pedigree's trio and count it: in the cell of its
        trio type, in the MIE counter when no table lists it, or nowhere when
        its status or offspring sex is not 1 or 2 */
    method PopulateTrioTypeCountVectors(peds: seq<Pedigree>)
      requires Valid() && |peds| == |sampleGenotypes|
      modifies this`counts
      ensures Valid()
      ensures counts == Tally(chrom, old(counts), Outcomes(chrom, sampleGenotypes, peds))
      ensures counts.Total() == old(counts).Total() + Assigned(peds)
    {
      ghost var outcomes := Outcomes(chrom, sampleGenotypes, peds);
      var i := 0;
      while i < |sampleGenotypes|
        invariant 0 <= i <= |sampleGenotypes|
        invariant Valid()
        invariant counts == Tally(chrom, old(counts), outcomes[..i])
      {
        var o := ClassifyTrio(peds, i);
        CountTrio(o);
        TallyStep(chrom, old(counts), outcomes, i);
        i := i + 1;
      }
      assert outcomes[..i] == outcomes;
      TallyConservesTrios(chrom, old(counts), outcomes);
      RecordedAreAssigned(chrom, sampleGenotypes, peds);
    }

    // -------------------------------------------------------------------
    // Transmission disequilibrium test

    /** Reference (b) and alternate (c) alleles transmitted to affected
        offspring by the complete informative trios, and the McNemar
        statistic (b - c)^2 / (b + c), "NA" when b + c is zero */
    method StdTDT(model: Model)
      modifies this`bComplete, this`cComplete, this`chiSqStdTDT
      ensures bComplete == CompleteB(chrom, model, counts)
      ensures cComplete == CompleteC(chrom, model, counts)
      ensures chiSqStdTDT == StdChiSquare(chrom, model, counts)
    {
      cComplete := CompleteC(chrom, model, counts);
      bComplete := CompleteB(chrom, model, counts);
      chiSqStdTDT := ChiSquare(bComplete, cComplete);
    }

    /** Widen b and c by what the incomplete informative case trios can
        transmit: bMin and cMin add the certain transmissions, bMax and cMax
        the largest possible ones, on top of the complete counts stored by
        the last StdTDT; then store the smallest and largest statistic */
    method ExtendedTDT(model: Model)
      requires Valid()
      modifies this`bMaxIncrement, this`cMaxIncrement, this`bMin, this`cMin, this`bMax, this`cMax
      modifies this`minChiSqExtTDT, this`maxChiSqExtTDT
      ensures bMaxIncrement == BMaxIncrement(chrom, model, counts)
      ensures cMaxIncrement == CMaxIncrement(chrom, model, counts)
      ensures bMin == bComplete + BMinExtra(chrom, model, counts) && bMax == bComplete + bMaxIncrement
      ensures cMin == cComplete + CMinExtra(chrom, model, counts) && cMax == cComplete + cMaxIncrement
      ensures bMin <= bMax && cMin <= cMax
      ensures StatisticRange(minChiSqExtTDT, maxChiSqExtTDT) == MinMaxStatistic(Bounds(bMin, bMax, cMin, cMax))
    {
      SetBounds(model);
      var range := GetMinMaxStatistic();
      minChiSqExtTDT, maxChiSqExtTDT := range.min, range.max;
    }

    /** The bounds on b and c */
    method SetBounds(model: Model)
      requires Valid()
      modifies this`bMaxIncrement, this`cMaxIncrement, this`bMin, this`cMin, this`bMax, this`cMax
      ensures bMaxIncrement == BMaxIncrement(chrom, model, counts)
      ensures cMaxIncrement == CMaxIncrement(chrom, model, counts)
      ensures bMin == bComplete + BMinExtra(chrom, model, counts) && bMax == bComplete + bMaxIncrement
      ensures cMin == cComplete + CMinExtra(chrom, model, counts) && cMax == cComplete + cMaxIncrement
      ensures bMin <= bMax && cMin <= cMax
    {
      bMaxIncrement := BMaxIncrement(chrom, model, counts);
      cMaxIncrement := CMaxIncrement(chrom, model, counts);
      bMin := bComplete + BMinExtra(chrom, model, counts);
      cMin := cComplete + CMinExtra(chrom, model, counts);
      bMax := bComplete + bMaxIncrement;
      cMax := cComplete + cMaxIncrement;
      CertainWithinPossible(chrom, model, counts);
    }

    /** The statistics at the corners (bMin, cMax) and (bMax, cMin) of the
        stored bounds, ordered by where the b range lies against the c
        range; with overlapping ranges the minimum is zero. The result
        brackets the statistic of every (b, c) within the bounds. */
    method GetMinMaxStatistic() returns (range: StatisticRange)
      ensures range == MinMaxStatistic(Bounds(bMin, bMax, cMin, cMax))
      ensures forall b: nat, c: nat :: bMin <= b <= bMax && cMin <= c <= cMax && b + c > 0 ==>
                (range.min.Some? ==> range.min.value <= ChiSquare(b, c).value)
                && (range.max.Some? ==> ChiSquare(b, c).value <= range.max.value)
    {
      var ext1 := ChiSquare(bMin, cMax);
      var ext2 := ChiSquare(bMax, cMin);
      if bMin >= cMax {
        range := StatisticRange(ext1, ext2);
      } else if bMax <= cMin {
        range := StatisticRange(ext2, ext1);
      } else {
        // Python 2 orders the string "NA" above every number
        var larger := if ext1.None? || ext2.None? then None
                      else Some(if ext1.value >= ext2.value then ext1.value else ext2.value);
        range := StatisticRange(Some(0.0), larger);
      }
      forall b: nat, c: nat | bMin <= b <= bMax && cMin <= c <= cMax && b + c > 0
        ensures (range.min.Some? ==> range.min.value <= ChiSquare(b, c).value)
                && (range.max.Some? ==> ChiSquare(b, c).value <= range.max.value)
      {
        MinMaxBrackets(Bounds(bMin, bMax, cMin, cMax), b, c);
      }
    }

    // -------------------------------------------------------------------
    // Family-based association test

    /** The offset-weighted scores of case and control offspring and their
        variances, from the complete informative trios, and Z^2 = U^2 / Var(U)
        with U and Var(U) the sums of the case and control parts; "NA" when
        the variance is zero */
    method StdFBAT(model: Model, offset: real)
      requires Valid()
      modifies this`caseU, this`controlU, this`caseVarU, this`controlVarU, this`zSquaredStdFBAT
      ensures Valid()
      ensures caseU == CaseU(chrom, model, offset, counts) && controlU == ControlU(chrom, model, offset, counts)
      ensures caseVarU == CaseVarU(chrom, model, offset, counts) && controlVarU == ControlVarU(chrom, model, offset, counts)
      ensures zSquaredStdFBAT == ZSquared(StdU(chrom, model, offset, counts), StdVarU(chrom, model, offset, counts))
    {
      caseU := CaseU(chrom, model, offset, counts);
      controlU := ControlU(chrom, model, offset, counts);
      caseVarU := CaseVarU(chrom, model, offset, counts);
      controlVarU := ControlVarU(chrom, model, offset, counts);
      zSquaredStdFBAT := ZSquared(caseU + controlU, caseVarU + controlVarU);
    }

    /** Add the incomplete informative trios' lower-bound and upper-bound
        contributions to the scores and variances stored by the last
        StdFBAT, and store Z^2 at both bounds */
    method ExtendedFBAT(model: Model, offset: real)
      requires Valid()
      modifies this`minZSquaredExtFBAT, this`maxZSquaredExtFBAT
      ensures minZSquaredExtFBAT == ZSquared(Extended(model, offset, Min), ExtendedVariance(model, offset, Min))
      ensures maxZSquaredExtFBAT == ZSquared(Extended(model, offset, Max), ExtendedVariance(model, offset, Max))
      ensures caseU == CaseU(chrom, model, offset, counts) && controlU == ControlU(chrom, model, offset, counts)
              && caseVarU == CaseVarU(chrom, model, offset, counts) && controlVarU == ControlVarU(chrom, model, offset, counts)
              ==> minZSquaredExtFBAT == ZSquared(UBound(chrom, model, offset, counts, Min), VarUBound(chrom, model, offset, counts, Min))
                  && maxZSquaredExtFBAT == ZSquared(UBound(chrom, model, offset, counts, Max), VarUBound(chrom, model, offset, counts, Max))
    {
      var uMin, varUMin := Extended(model, offset, Min), ExtendedVariance(model, offset, Min);
      minZSquaredExtFBAT := ZSquared(uMin, varUMin);
      var uMax, varUMax := Extended(model, offset, Max), ExtendedVariance(model, offset, Max);
      maxZSquaredExtFBAT := ZSquared(uMax, varUMax);
    }

    /** Umin or Umax from the stored scores */
    function Extended(model: Model, offset: real, bound: Bound): real
      reads this
    {
      Weighted(offset, caseU, controlU,
               IncompleteScore(chrom, model, counts, Case, bound), IncompleteScore(chrom, model, counts, Control, bound))
    }

    /** VarUmin or VarUmax from the stored variances */
    function ExtendedVariance(model: Model, offset: real, bound: Bound): (r: real)
      requires Valid()
      reads this
      ensures r >= 0.0
    {
      WeightedVariance(offset, caseVarU, controlVarU,
                       IncompleteVariance(chrom, model, counts, Case, bound), IncompleteVariance(chrom, model, counts, Control, bound))
    }

    /** Count one classified trio: its cell, the MIE counter, or nothing */
    method CountTrio(o: Outcome)
      requires Valid() && Fits(chrom, o)
      modifies this`counts
      ensures Valid()
      ensures counts == old(counts).Record(o)
    {
      match o
      case Counted(slot, index) => Increment(slot, index);
      case MIE => counts := counts.(mie := counts.mie + 1);
      case Ignored =>
    }

    /** Look up the trio type of pedigree i */
    method ClassifyTrio(peds: seq<Pedigree>, i: nat) returns (o: Outcome)
      requires |peds| == |sampleGenotypes| && i < |peds|
      ensures o == Outcomes(chrom, sampleGenotypes, peds)[i]
    {
      o := Classify(chrom, sampleGenotypes[i], peds[i].status, peds[i].childSex);
    }
  }
}
