/** Per-marker summaries computed before any test: the genotype check,
    the allele counts behind the minor allele frequency, and the four-bin
    variant distribution (classMarker.py:293-328, classMarker.py:510-567).
    These are the specifications the marker's loops are proved against. */
module Summaries {
  import opened Genetics
  import opened Classifier

  /** Every pedigree's trio passes the marker's genotype check */
  predicate AllValid(chrom: Chromosome, trios: seq<Trio>, peds: seq<Pedigree>)
    requires |trios| == |peds|
  {
    forall i :: 0 <= i < |trios| ==> ValidTrio(chrom, trios[i], peds[i].childSex)
  }

  lemma AllValidPrefix(chrom: Chromosome, trios: seq<Trio>, peds: seq<Pedigree>, n: nat)
    requires |trios| == |peds| && n <= |trios| && AllValid(chrom, trios, peds)
    ensures AllValid(chrom, trios[..n], peds[..n])
  {
    forall i | 0 <= i < n
      ensures ValidTrio(chrom, trios[..n][i], peds[..n][i].childSex)
    {
      assert trios[..n][i] == trios[i] && peds[..n][i] == peds[i];
    }
  }

  // ---------------------------------------------------------------------
  // Allele counts and the minor allele frequency

  datatype Role = Father | Mother | Offspring

  /** Allele copies one member carries at the marker, 0 when its call is
      not counted: two everywhere on autosomes; on chrX one for the father,
      two for the mother, and for the offspring one or two by sex code,
      none for any other code */
  function Copies(chrom: Chromosome, role: Role, sexCode: int): nat
  {
    if chrom == Autosome then 2
    else match role
      case Father => 1
      case Mother => 2
      case Offspring => if sexCode == 1 then 1 else if sexCode == 2 then 2 else 0
  }

  datatype Alleles = Alleles(ref: int, alt: int)
  {
    function Plus(other: Alleles): Alleles
    {
      Alleles(ref + other.ref, alt + other.alt)
    }
  }

  /** Number of alleles counted */
  function Size(a: Alleles): int
  {
    a.ref + a.alt
  }

  /** Adding allele counts adds their sizes */
  lemma SizePlus(a: Alleles, b: Alleles)
    ensures Size(a.Plus(b)) == Size(a) + Size(b)
  {
  }

  /** Neither count is negative */
  predicate NonNegative(a: Alleles)
  {
    a.ref >= 0 && a.alt >= 0
  }

  /** Adding counts that are not negative gives counts that are not negative */
  lemma NonNegativePlus(a: Alleles, b: Alleles)
    requires NonNegative(a) && NonNegative(b)
    ensures NonNegative(a.Plus(b))
  {
  }

  /** Adding allele counts is associative */
  lemma PlusAssociative(a: Alleles, b: Alleles, c: Alleles)
    ensures a.Plus(b).Plus(c) == a.Plus(b.Plus(c))
  {
  }

  /** The reference and alternate alleles one call adds: a called dosage d
      of a member with p copies adds p - d reference and d alternate
      alleles; a missing call, or a member with no counted copies, adds
      nothing */
  function CallAlleles(chrom: Chromosome, role: Role, sexCode: int, g: Genotype): Alleles
  {
    var p := Copies(chrom, role, sexCode);
    if g.IsCalled() && p > 0 then Alleles(p - g.Dosage(), g.Dosage()) else Alleles(0, 0)
  }

  /** Allele copies behind one call: the member's copies when called */
  function CallCopies(chrom: Chromosome, role: Role, sexCode: int, g: Genotype): nat
  {
    if g.IsCalled() then Copies(chrom, role, sexCode) else 0
  }

  /** One call adds as many alleles as it has copies */
  lemma CallAllelesSize(chrom: Chromosome, role: Role, sexCode: int, g: Genotype)
    ensures Size(CallAlleles(chrom, role, sexCode, g)) == CallCopies(chrom, role, sexCode, g)
  {
  }

  /** A call that fits its copies adds no negative count */
  lemma CallAllelesNonNegative(chrom: Chromosome, role: Role, sexCode: int, g: Genotype)
    requires FitsCopies(chrom, role, sexCode, g)
    ensures NonNegative(CallAlleles(chrom, role, sexCode, g))
  {
  }

  function TrioAlleles(chrom: Chromosome, t: Trio, sexCode: int): Alleles
  {
    CallAlleles(chrom, Father, sexCode, t.father)
      .Plus(CallAlleles(chrom, Mother, sexCode, t.mother))
      .Plus(CallAlleles(chrom, Offspring, sexCode, t.child))
  }

  /** The role of call k of a trio, in the order father, mother, offspring */
  function RoleAt(k: nat): Role
    requires k < 3
  {
    if k == 0 then Father else if k == 1 then Mother else Offspring
  }

  /** Call k of a trio, in the order father, mother, offspring */
  function CallAt(t: Trio, k: nat): Genotype
    requires k < 3
  {
    if k == 0 then t.father else if k == 1 then t.mother else t.child
  }

  /** The alleles added by the first k calls of a trio */
  function FirstCallsAlleles(chrom: Chromosome, t: Trio, sexCode: int, k: nat): Alleles
    requires k <= 3
  {
    if k == 0 then Alleles(0, 0)
    else FirstCallsAlleles(chrom, t, sexCode, k - 1).Plus(CallAlleles(chrom, RoleAt(k - 1), sexCode, CallAt(t, k - 1)))
  }

  /** Visiting a trio's calls one by one adds the trio's alleles */
  lemma TrioAllelesByCalls(chrom: Chromosome, t: Trio, sexCode: int)
    ensures FirstCallsAlleles(chrom, t, sexCode, 3) == TrioAlleles(chrom, t, sexCode)
  {
    var f := CallAlleles(chrom, Father, sexCode, t.father);
    assert FirstCallsAlleles(chrom, t, sexCode, 1) == f;
  }

  /** Allele counts over the first |trios| pedigrees */
  function AlleleCounts(chrom: Chromosome, trios: seq<Trio>, peds: seq<Pedigree>): Alleles
    requires |trios| == |peds|
    decreases |trios|
  {
    if |trios| == 0 then Alleles(0, 0)
    else
      var n := |trios| - 1;
      AlleleCounts(chrom, trios[..n], peds[..n]).Plus(TrioAlleles(chrom, trios[n], peds[n].childSex))
  }

  /** Number of allele copies behind the called genotypes */
  function CalledCopies(chrom: Chromosome, trios: seq<Trio>, peds: seq<Pedigree>): nat
    requires |trios| == |peds|
    decreases |trios|
  {
    if |trios| == 0 then 0
    else
      var n := |trios| - 1;
      CalledCopies(chrom, trios[..n], peds[..n]) + TrioCopies(chrom, trios[n], peds[n].childSex)
  }

  /** Number of allele copies behind the called genotypes of one trio */
  function TrioCopies(chrom: Chromosome, t: Trio, sexCode: int): nat
  {
    CallCopies(chrom, Father, sexCode, t.father) + CallCopies(chrom, Mother, sexCode, t.mother)
    + CallCopies(chrom, Offspring, sexCode, t.child)
  }

  /** Every counted copy is either a reference or an alternate allele */
  lemma {:induction false} AllelesCoverCalledCopies(chrom: Chromosome, trios: seq<Trio>, peds: seq<Pedigree>)
    requires |trios| == |peds|
    ensures Size(AlleleCounts(chrom, trios, peds)) == CalledCopies(chrom, trios, peds)
    decreases |trios|
  {
    if |trios| > 0 {
      var n := |trios| - 1;
      var before, last := AlleleCounts(chrom, trios[..n], peds[..n]), TrioAlleles(chrom, trios[n], peds[n].childSex);
      AllelesCoverCalledCopies(chrom, trios[..n], peds[..n]);
      TrioAllelesCover(chrom, trios[n], peds[n].childSex);
      SizePlus(before, last);
      assert AlleleCounts(chrom, trios, peds) == before.Plus(last);
    }
  }

  /** The alleles of one trio account for its called copies */
  lemma TrioAllelesCover(chrom: Chromosome, t: Trio, sexCode: int)
    ensures Size(TrioAlleles(chrom, t, sexCode)) == TrioCopies(chrom, t, sexCode)
  {
    CallAllelesSize(chrom, Father, sexCode, t.father);
    CallAllelesSize(chrom, Mother, sexCode, t.mother);
    CallAllelesSize(chrom, Offspring, sexCode, t.child);
    SizeOfThree(CallAlleles(chrom, Father, sexCode, t.father), CallAlleles(chrom, Mother, sexCode, t.mother),
                CallAlleles(chrom, Offspring, sexCode, t.child));
  }

  lemma SizeOfThree(a: Alleles, b: Alleles, c: Alleles)
    ensures Size(a.Plus(b).Plus(c)) == Size(a) + Size(b) + Size(c)
  {
  }

  /** A called genotype of a counted member carries at most as many
      alternate alleles as the member has copies */
  predicate FitsCopies(chrom: Chromosome, role: Role, sexCode: int, g: Genotype)
  {
    g.IsCalled() && Copies(chrom, role, sexCode) > 0 ==> g.Dosage() <= Copies(chrom, role, sexCode)
  }

  /** Every call of a trio that passes the genotype check fits its copies */
  lemma ValidTrioFits(chrom: Chromosome, t: Trio, sexCode: int)
    requires ValidTrio(chrom, t, sexCode)
    ensures FitsCopies(chrom, Father, sexCode, t.father)
    ensures FitsCopies(chrom, Mother, sexCode, t.mother)
    ensures FitsCopies(chrom, Offspring, sexCode, t.child)
  {
    if chrom == ChrX {
      assert t.father == G0 || t.father == G1 || t.father == NA;
      assert sexCode == 1 ==> t.child == G0 || t.child == G1 || t.child == NA;
    }
  }

  lemma ValidCallAlleles(chrom: Chromosome, t: Trio, sexCode: int)
    requires ValidTrio(chrom, t, sexCode)
    ensures NonNegative(TrioAlleles(chrom, t, sexCode))
  {
    ValidTrioFits(chrom, t, sexCode);
    var f, m, o := CallAlleles(chrom, Father, sexCode, t.father), CallAlleles(chrom, Mother, sexCode, t.mother),
                   CallAlleles(chrom, Offspring, sexCode, t.child);
    CallAllelesNonNegative(chrom, Father, sexCode, t.father);
    CallAllelesNonNegative(chrom, Mother, sexCode, t.mother);
    CallAllelesNonNegative(chrom, Offspring, sexCode, t.child);
    NonNegativePlus(f, m);
    NonNegativePlus(f.Plus(m), o);
  }

  /** With valid genotypes both allele counts are non-negative */
  lemma {:induction false} ValidAllelesNonNegative(chrom: Chromosome, trios: seq<Trio>, peds: seq<Pedigree>)
    requires |trios| == |peds| && AllValid(chrom, trios, peds)
    ensures NonNegative(AlleleCounts(chrom, trios, peds))
    decreases |trios|
  {
    if |trios| > 0 {
      var n := |trios| - 1;
      AllValidPrefix(chrom, trios, peds, n);
      ValidAllelesNonNegative(chrom, trios[..n], peds[..n]);
      ValidCallAlleles(chrom, trios[n], peds[n].childSex);
      NonNegativePlus(AlleleCounts(chrom, trios[..n], peds[..n]), TrioAlleles(chrom, trios[n], peds[n].childSex));
    }
  }

  /** The frequency of the rarer allele; undefined when no allele was
      counted, where the division by the allele total fails */
  function MinorAlleleFrequency(a: Alleles): (r: Option<real>)
    ensures r.None? <==> a.ref + a.alt == 0
    ensures r.Some? && a.ref >= 0 && a.alt >= 0 ==> 0.0 <= r.value <= 0.5
    ensures r.Some? ==> r.value * (a.ref + a.alt) as real == (if a.ref < a.alt then a.ref else a.alt) as real
  {
    var total := a.ref + a.alt;
    if total == 0 then None
    else
      var minor := if a.ref < a.alt then a.ref else a.alt;
      FractionBounds(minor, total);
      Some(minor as real / total as real)
  }

  /** m / t times t is m, and a non-negative m at most half of t gives a
      fraction in [0, 1/2] */
  lemma FractionBounds(m: int, t: int)
    requires t != 0
    ensures (m as real / t as real) * t as real == m as real
    ensures 0 <= m && 2 * m <= t ==> 0.0 <= m as real / t as real <= 0.5
  {
  }

  /** Swapping which allele is called reference leaves the minor allele
      frequency unchanged */
  lemma MinorAlleleFrequencySymmetric(a: Alleles)
    ensures MinorAlleleFrequency(Alleles(a.alt, a.ref)) == MinorAlleleFrequency(a)
  {
  }

  /** With valid genotypes the frequency is defined exactly when some allele
      copy was called, and then lies in [0, 1/2] */
  lemma ValidMinorAlleleFrequency(chrom: Chromosome, trios: seq<Trio>, peds: seq<Pedigree>)
    requires |trios| == |peds| && AllValid(chrom, trios, peds)
    ensures var r := MinorAlleleFrequency(AlleleCounts(chrom, trios, peds));
            (r.Some? <==> CalledCopies(chrom, trios, peds) > 0) && (r.Some? ==> 0.0 <= r.value <= 0.5)
  {
    AllelesCoverCalledCopies(chrom, trios, peds);
    ValidAllelesNonNegative(chrom, trios, peds);
  }

  // ---------------------------------------------------------------------
  // Variant distribution: [homozygous reference, heterozygous,
  // homozygous alternate, missing]

  /** Where one call lands: in a bin, nowhere, or past the end of the
      four-bin list (an IndexError in the source) */
  datatype Placement = Bin(i: nat) | Skip | OutOfRange

  /** On autosomes a called dosage d goes to bin d. On chrX a hemizygous
      member (the father, a male offspring) goes to bin 0 for "0" and bin 2
      for "1" and nowhere otherwise; a diploid member (the mother, a female
      offspring) goes to bin d; an offspring of unknown sex goes nowhere.
      A missing call always goes to bin 3. */
  function Place(chrom: Chromosome, role: Role, sexCode: int, g: Genotype): (r: Placement)
    ensures !g.IsCalled() ==> r == Bin(3)
    ensures r.Bin? ==> r.i < 4
    ensures r.OutOfRange? <==> g.IsCalled() && g.Dosage() >= 4 && Copies(chrom, role, sexCode) == 2
    ensures chrom == Autosome ==> !r.Skip?
  {
    if !g.IsCalled() then Bin(3)
    else if Copies(chrom, role, sexCode) == 1 then
      if g == G0 then Bin(0) else if g == G1 then Bin(2) else Skip
    else if Copies(chrom, role, sexCode) == 2 then
      if g.Dosage() < 4 then Bin(g.Dosage()) else OutOfRange
    else Skip
  }

  /** The distribution after adding one call, None after an IndexError */
  function AddCall(d: Option<seq<nat>>, p: Placement): (r: Option<seq<nat>>)
    requires d.Some? ==> |d.value| == 4
    requires p.Bin? ==> p.i < 4
    ensures r.Some? ==> |r.value| == 4
    ensures r.Some? <==> d.Some? && !p.OutOfRange?
  {
    match d
    case None => None
    case Some(v) =>
      match p
      case Bin(i) => Some(v[i := v[i] + 1])
      case Skip => d
      case OutOfRange => None
  }

  function AddTrio(chrom: Chromosome, d: Option<seq<nat>>, t: Trio, sexCode: int): (r: Option<seq<nat>>)
    requires d.Some? ==> |d.value| == 4
    ensures r.Some? ==> |r.value| == 4
  {
    var d1 := AddCall(d, Place(chrom, Father, sexCode, t.father));
    var d2 := AddCall(d1, Place(chrom, Mother, sexCode, t.mother));
    AddCall(d2, Place(chrom, Offspring, sexCode, t.child))
  }

  /** The distribution after adding the first k calls of a trio */
  function FirstCallsAdded(chrom: Chromosome, d: Option<seq<nat>>, t: Trio, sexCode: int, k: nat): (r: Option<seq<nat>>)
    requires d.Some? ==> |d.value| == 4
    requires k <= 3
    ensures r.Some? ==> |r.value| == 4
  {
    if k == 0 then d
    else AddCall(FirstCallsAdded(chrom, d, t, sexCode, k - 1), Place(chrom, RoleAt(k - 1), sexCode, CallAt(t, k - 1)))
  }

  /** Visiting a trio's calls one by one adds the trio */
  lemma TrioByCalls(chrom: Chromosome, d: Option<seq<nat>>, t: Trio, sexCode: int)
    requires d.Some? ==> |d.value| == 4
    ensures FirstCallsAdded(chrom, d, t, sexCode, 3) == AddTrio(chrom, d, t, sexCode)
  {
    var d1 := AddCall(d, Place(chrom, Father, sexCode, t.father));
    var d2 := AddCall(d1, Place(chrom, Mother, sexCode, t.mother));
    assert FirstCallsAdded(chrom, d, t, sexCode, 1) == d1;
    assert FirstCallsAdded(chrom, d, t, sexCode, 2) == d2;
  }

  /** Once a call of a trio falls out of range, the trio fails */
  lemma {:induction false} FirstCallsFailureSticks(chrom: Chromosome, d: Option<seq<nat>>, t: Trio, sexCode: int, j: nat, k: nat)
    requires d.Some? ==> |d.value| == 4
    requires j <= k <= 3
    requires FirstCallsAdded(chrom, d, t, sexCode, j).None?
    ensures FirstCallsAdded(chrom, d, t, sexCode, k).None?
    decreases k
  {
    if j < k {
      FirstCallsFailureSticks(chrom, d, t, sexCode, j, k - 1);
    }
  }

  /** The distribution over the first |trios| pedigrees, starting from d */
  function Distribution(chrom: Chromosome, d: seq<nat>, trios: seq<Trio>, peds: seq<Pedigree>): (r: Option<seq<nat>>)
    requires |d| == 4 && |trios| == |peds|
    ensures r.Some? ==> |r.value| == 4
    decreases |trios|
  {
    if |trios| == 0 then Some(d)
    else
      var n := |trios| - 1;
      AddTrio(chrom, Distribution(chrom, d, trios[..n], peds[..n]), trios[n], peds[n].childSex)
  }

  /** Once an IndexError has occurred the distribution stays undefined */
  lemma {:induction false} DistributionFailureSticks(chrom: Chromosome, d: seq<nat>, trios: seq<Trio>, peds: seq<Pedigree>, n: nat)
    requires |d| == 4 && |trios| == |peds| && n <= |trios|
    requires Distribution(chrom, d, trios[..n], peds[..n]).None?
    ensures Distribution(chrom, d, trios, peds).None?
    decreases |trios|
  {
    if n < |trios| {
      var m := |trios| - 1;
      assert trios[..m][..n] == trios[..n] && peds[..m][..n] == peds[..n];
      DistributionFailureSticks(chrom, d, trios[..m], peds[..m], n);
    } else {
      assert trios[..n] == trios && peds[..n] == peds;
    }
  }

  /** Number of calls a four-bin distribution holds */
  function Total(v: seq<nat>): nat
    requires |v| == 4
  {
    v[0] + v[1] + v[2] + v[3]
  }

  /** A call that passes the genotype check always lands in a bin */
  lemma ValidTrioPlaced(chrom: Chromosome, t: Trio, sexCode: int)
    requires ValidTrio(chrom, t, sexCode)
    ensures !Place(chrom, Father, sexCode, t.father).OutOfRange?
    ensures !Place(chrom, Mother, sexCode, t.mother).OutOfRange?
    ensures !Place(chrom, Offspring, sexCode, t.child).OutOfRange?
    ensures chrom == Autosome || sexCode == 1 || sexCode == 2 ==> Place(chrom, Offspring, sexCode, t.child).Bin?
    ensures Place(chrom, Father, sexCode, t.father).Bin? && Place(chrom, Mother, sexCode, t.mother).Bin?
  {
  }

  /** A call placed in a bin adds one to the distribution's total */
  lemma BinnedCallAddsOne(v: seq<nat>, p: Placement)
    requires |v| == 4 && p.Bin? && p.i < 4
    ensures AddCall(Some(v), p).Some?
    ensures Total(AddCall(Some(v), p).value) == Total(v) + 1
  {
    var w := AddCall(Some(v), p).value;
    assert w == v[p.i := v[p.i] + 1];
  }

  /** One valid trio adds three calls on an autosome, and on chrX when the
      offspring's sex is known */
  lemma ValidTrioAddsThree(chrom: Chromosome, v: seq<nat>, t: Trio, sexCode: int)
    requires |v| == 4 && ValidTrio(chrom, t, sexCode) && (chrom == Autosome || sexCode == 1 || sexCode == 2)
    ensures AddTrio(chrom, Some(v), t, sexCode).Some?
    ensures Total(AddTrio(chrom, Some(v), t, sexCode).value) == Total(v) + 3
  {
    ValidTrioPlaced(chrom, t, sexCode);
    var p1, p2, p3 := Place(chrom, Father, sexCode, t.father), Place(chrom, Mother, sexCode, t.mother), Place(chrom, Offspring, sexCode, t.child);
    BinnedCallAddsOne(v, p1);
    var v1 := AddCall(Some(v), p1).value;
    BinnedCallAddsOne(v1, p2);
    var v2 := AddCall(Some(v1), p2).value;
    BinnedCallAddsOne(v2, p3);
  }

  /** With valid genotypes the distribution is always defined, and every
      member is counted exactly once: on an autosome whatever the offspring's
      sex, on chrX when every offspring's sex is known */
  lemma {:induction false} ValidDistributionCountsEveryone(chrom: Chromosome, d: seq<nat>, trios: seq<Trio>, peds: seq<Pedigree>)
    requires |d| == 4 && |trios| == |peds| && AllValid(chrom, trios, peds)
    requires chrom == Autosome || forall i :: 0 <= i < |peds| ==> peds[i].childSex == 1 || peds[i].childSex == 2
    ensures Distribution(chrom, d, trios, peds).Some?
    ensures Total(Distribution(chrom, d, trios, peds).value) == Total(d) + 3 * |trios|
    decreases |trios|
  {
    if |trios| > 0 {
      var n := |trios| - 1;
      AllValidPrefix(chrom, trios, peds, n);
      assert forall i :: 0 <= i < n ==> peds[..n][i] == peds[i];
      ValidDistributionCountsEveryone(chrom, d, trios[..n], peds[..n]);
      ValidTrioAddsThree(chrom, Distribution(chrom, d, trios[..n], peds[..n]).value, trios[n], peds[n].childSex);
    }
  }

  /** The alleles a distribution accounts for on autosomes: two reference
      alleles per homozygous reference call, one of each per heterozygous
      call, two alternate alleles per homozygous alternate call */
  function BinAlleles(v: seq<nat>): Alleles
    requires |v| == 4
  {
    Alleles(2 * v[0] + v[1], v[1] + 2 * v[2])
  }

  /** An autosomal call in the alphabet moves the distribution's alleles by
      exactly the call's alleles */
  lemma AutosomalCallAlleles(v: seq<nat>, role: Role, sexCode: int, g: Genotype)
    requires |v| == 4 && InAlphabet(g)
    ensures AddCall(Some(v), Place(Autosome, role, sexCode, g)).Some?
    ensures BinAlleles(AddCall(Some(v), Place(Autosome, role, sexCode, g)).value)
         == BinAlleles(v).Plus(CallAlleles(Autosome, role, sexCode, g))
  {
    var a := BinAlleles(v);
    match g {
      case G0 =>
        assert BinAlleles(v[0 := v[0] + 1]) == a.Plus(Alleles(2, 0));
      case G1 =>
        assert BinAlleles(v[1 := v[1] + 1]) == a.Plus(Alleles(1, 1));
      case G2 =>
        assert BinAlleles(v[2 := v[2] + 1]) == a.Plus(Alleles(0, 2));
      case NA =>
        assert BinAlleles(v[3 := v[3] + 1]) == a.Plus(Alleles(0, 0));
    }
  }

  lemma AutosomalTrioAlleles(v: seq<nat>, t: Trio, sexCode: int)
    requires |v| == 4 && ValidTrio(Autosome, t, sexCode)
    ensures AddTrio(Autosome, Some(v), t, sexCode).Some?
    ensures BinAlleles(AddTrio(Autosome, Some(v), t, sexCode).value) == BinAlleles(v).Plus(TrioAlleles(Autosome, t, sexCode))
  {
    var f, m, o := CallAlleles(Autosome, Father, sexCode, t.father), CallAlleles(Autosome, Mother, sexCode, t.mother),
                   CallAlleles(Autosome, Offspring, sexCode, t.child);
    AutosomalCallAlleles(v, Father, sexCode, t.father);
    var v1 := AddCall(Some(v), Place(Autosome, Father, sexCode, t.father)).value;
    AutosomalCallAlleles(v1, Mother, sexCode, t.mother);
    var v2 := AddCall(Some(v1), Place(Autosome, Mother, sexCode, t.mother)).value;
    AutosomalCallAlleles(v2, Offspring, sexCode, t.child);
    var v3 := AddCall(Some(v2), Place(Autosome, Offspring, sexCode, t.child)).value;
    assert AddTrio(Autosome, Some(v), t, sexCode) == Some(v3);
    assert BinAlleles(v3) == BinAlleles(v).Plus(f).Plus(m).Plus(o);
    PlusAssociative(BinAlleles(v), f, m);
    PlusAssociative(BinAlleles(v), f.Plus(m), o);
  }

  /** On autosomes the distribution determines the allele counts */
  lemma {:induction false} AutosomalAllelesFromDistribution(trios: seq<Trio>, peds: seq<Pedigree>)
    requires |trios| == |peds| && AllValid(Autosome, trios, peds)
    ensures Distribution(Autosome, [0, 0, 0, 0], trios, peds).Some?
    ensures AlleleCounts(Autosome, trios, peds) == BinAlleles(Distribution(Autosome, [0, 0, 0, 0], trios, peds).value)
    decreases |trios|
  {
    if |trios| > 0 {
      var n := |trios| - 1;
      AllValidPrefix(Autosome, trios, peds, n);
      AutosomalAllelesFromDistribution(trios[..n], peds[..n]);
      AutosomalTrioAlleles(Distribution(Autosome, [0, 0, 0, 0], trios[..n], peds[..n]).value, trios[n], peds[n].childSex);
    }
  }
}
