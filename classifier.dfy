/** Trio classification (classMarker.py:330-391 for autosomes,
    classMarker.py:570-630 for chrX): one trio, given the offspring's
    affection status and sex, lands in exactly one cell of one count vector,
    or is counted as a Mendelian inconsistency (MIE), or is ignored. The
    lookups are Python's `list.index`, which raises when the key is absent;
    the raise sends the trio to the next lookup. */
module Classifier {
  import opened Genetics
  import opened Tables

  /** Python's `list.index`: the first position of `x` in `s`, None where
      Python raises ValueError */
  function IndexOf<T(==)>(s: seq<T>, x: T): (r: Option<nat>)
    ensures r.None? <==> x !in s
    ensures r.Some? ==> r.value < |s| && s[r.value] == x
  {
    if |s| == 0 then None
    else if s[0] == x then Some(0)
    else
      match IndexOf(s[1..], x)
      case None => None
      case Some(i) => Some(i + 1)
  }

  /** `IndexOf` finds the first occurrence */
  lemma {:induction false} IndexOfIsFirst<T>(s: seq<T>, x: T, j: nat)
    requires IndexOf(s, x).Some? && j < IndexOf(s, x).value
    ensures s[j] != x
  {
    if j > 0 {
      IndexOfIsFirst(s[1..], x, j - 1);
    }
  }

  /** A trio is complete when none of its three genotypes is "NA" */
  predicate IsComplete(t: Trio)
  {
    t.father != NA && t.mother != NA && t.child != NA
  }

  /** The twelve count vectors of a marker */
  datatype Slot =
    | CompleteInformative(status: Status, sex: Sex)
    | CompleteNonInformative(status: Status)
    | IncompleteInformative(status: Status, sex: Sex)
    | IncompleteNonInformative(status: Status)
  {
    predicate IsComplete() { CompleteInformative? || CompleteNonInformative? }
    predicate IsInformative() { CompleteInformative? || IncompleteInformative? }
  }

  /** Length of the count vector behind a slot */
  function SlotLength(chrom: Chromosome, s: Slot): nat
  {
    match s
    case CompleteInformative(_, sex) => CategoryCount(chrom, true, true, sex)
    case CompleteNonInformative(_) => CategoryCount(chrom, true, false, Male)
    case IncompleteInformative(_, sex) => CategoryCount(chrom, false, true, sex)
    case IncompleteNonInformative(_) => CategoryCount(chrom, false, false, Male)
  }

  /** What populating does with one trio: add one to a cell, add one to the
      MIE counter, or nothing (status or sex code outside {1, 2}) */
  datatype Outcome = Counted(slot: Slot, index: nat) | MIE | Ignored

  /** The mating-type key of the informative tables for chrX: father, mother,
      offspring, in that order */
  function ChrXInformativeKeys(complete: bool, sex: Sex): (r: seq<ChrXKey>)
    ensures |r| == CategoryCount(ChrX, complete, true, sex)
  {
    match (complete, sex)
    case (true, Male) => InformativeTrioTypeChrXMaleNB
    case (true, Female) => InformativeTrioTypeChrXFemaleNB
    case (false, Male) => IncompleteTrioTypeChrXMaleNB
    case (false, Female) => IncompleteTrioTypeChrXFemaleNB
  }

  /** Position of the trio in the informative key table that applies to it */
  function InformativeIndex(chrom: Chromosome, t: Trio, sex: Sex): (r: Option<nat>)
    ensures r.Some? ==> r.value < CategoryCount(chrom, IsComplete(t), true, sex)
  {
    match chrom
    case Autosome =>
      IndexOf(if IsComplete(t) then InformativeTrioType else IncompleteTrioType,
              ({t.father, t.mother}, t.child))
    case ChrX =>
      IndexOf(ChrXInformativeKeys(IsComplete(t), sex), (t.father, t.mother, t.child))
  }

  /** Position of the trio's mating type in the non-informative table:
      the unordered parental pair on autosomes, the mother alone on chrX */
  function NonInformativeIndex(chrom: Chromosome, t: Trio): (r: Option<nat>)
    ensures r.Some? ==> r.value < CategoryCount(chrom, true, false, Male)
  {
    match chrom
    case Autosome => IndexOf(NonInformativeMatingType, {t.father, t.mother})
    case ChrX => IndexOf(NonInformativeMotherTypeChrX, t.mother)
  }

  /** The outcome of one trio. Status and sex are the raw integer codes: the
      informative lookup runs only inside the branches for status 2 or 1 and
      sex 2 or 1, so a trio with any other code raises nothing and is left
      uncounted. A failed informative lookup falls back to the
      non-informative table, and a failed fallback counts an MIE. */
  function Classify(chrom: Chromosome, t: Trio, status: int, sex: int): (o: Outcome)
    ensures o.Ignored? <==> StatusOf(status).None? || SexOf(sex).None?
    ensures o.Counted? ==> o.index < SlotLength(chrom, o.slot)
    ensures o.Counted? ==> o.slot.status == StatusOf(status).value
    ensures o.Counted? ==> o.slot.IsComplete() == IsComplete(t)
    ensures o.Counted? && o.slot.IsInformative() ==> o.slot.sex == SexOf(sex).value
  {
    if StatusOf(status).None? || SexOf(sex).None? then Ignored
    else
      var st, sx := StatusOf(status).value, SexOf(sex).value;
      var complete := IsComplete(t);
      match InformativeIndex(chrom, t, sx)
      case Some(i) =>
        Counted(if complete then CompleteInformative(st, sx) else IncompleteInformative(st, sx), i)
      case None =>
        match NonInformativeIndex(chrom, t)
        case Some(i) =>
          Counted(if complete then CompleteNonInformative(st) else IncompleteNonInformative(st), i)
        case None => MIE
  }

  // ---------------------------------------------------------------------
  // Reference definitions from Mendelian inheritance

  /** Genotype validity as the marker checks it (classMarker.py:293-300,
      classMarker.py:510-519): every call in the alphabet on autosomes; on
      chrX a hemizygous father ("0", "1", "NA"), any mother, and an offspring
      checked by sex code, male like the father, female like the mother, any
      other code unchecked. */
  predicate ValidTrio(chrom: Chromosome, t: Trio, sexCode: int)
  {
    match chrom
    case Autosome => InAlphabet(t.father) && InAlphabet(t.mother) && InAlphabet(t.child)
    case ChrX =>
      t.father in {G0, G1, NA} && InAlphabet(t.mother)
      && (sexCode == 1 ==> t.child in {G0, G1, NA})
      && (sexCode == 2 ==> InAlphabet(t.child))
  }

  /** A mating is non-informative when no transmission can be told apart:
      on autosomes both parents homozygous, on chrX a homozygous mother
      (a father passes his only X to every daughter and none to a son). */
  predicate NonInformativeMating(chrom: Chromosome, t: Trio)
  {
    match chrom
    case Autosome => t.father in {G0, G2} && t.mother in {G0, G2}
    case ChrX => t.mother in {G0, G2}
  }

  /** Whether a diploid parent with genotype g can pass on the allele
      (0 reference, 1 alternate); a missing genotype can pass either. */
  predicate CanTransmit(g: Genotype, allele: int)
  {
    match g
    case G0 => allele == 0
    case G1 => allele == 0 || allele == 1
    case G2 => allele == 1
    case NA => allele == 0 || allele == 1
    case Other(_) => false
  }

  /** The allele a chrX father passes to a daughter: his only one */
  predicate FatherPassesX(g: Genotype, allele: int)
  {
    match g
    case G0 => allele == 0
    case G1 => allele == 1
    case NA => allele == 0 || allele == 1
    case _ => false
  }

  /** Whether the offspring's genotype can arise from the parents' genotypes
      for some resolution of the missing calls */
  predicate MendelConsistent(chrom: Chromosome, t: Trio, sex: Sex)
  {
    t.child == NA ||
    match chrom
    case Autosome =>
      (CanTransmit(t.father, 0) && CanTransmit(t.mother, t.child.Dosage()))
      || (CanTransmit(t.father, 1) && CanTransmit(t.mother, t.child.Dosage() - 1))
    case ChrX =>
      if sex == Male then CanTransmit(t.mother, t.child.Dosage())
      else
        (FatherPassesX(t.father, 0) && CanTransmit(t.mother, t.child.Dosage()))
        || (FatherPassesX(t.father, 1) && CanTransmit(t.mother, t.child.Dosage() - 1))
  }

  // ---------------------------------------------------------------------
  // The key tables agree with Mendelian inheritance

  /** Two unordered pairs are equal exactly when they match in one order or
      the other */
  lemma PairSetEquality(f: Genotype, m: Genotype, a: Genotype, b: Genotype)
    ensures {f, m} == {a, b} <==> (f == a && m == b) || (f == b && m == a)
  {
    if {f, m} == {a, b} {
      assert f in {a, b} && m in {a, b} && a in {f, m} && b in {f, m};
    }
  }

  /** The complete autosomal key table (classMarker.py:12) lists exactly the
      Mendel-consistent complete trios of informative matings */
  lemma CompleteAutosomalKeys(t: Trio, sex: Sex)
    requires ValidTrio(Autosome, t, 1) && IsComplete(t)
    ensures ({t.father, t.mother}, t.child) in InformativeTrioType
      <==> !NonInformativeMating(Autosome, t) && MendelConsistent(Autosome, t, sex)
  {
    PairSetEquality(t.father, t.mother, G0, G1);
    PairSetEquality(t.father, t.mother, G1, G1);
    PairSetEquality(t.father, t.mother, G1, G2);
  }

  /** The incomplete autosomal key table (classMarker.py:63) lists exactly the
      Mendel-consistent incomplete trios of informative matings */
  lemma IncompleteAutosomalKeys(t: Trio, sex: Sex)
    requires ValidTrio(Autosome, t, 1) && !IsComplete(t)
    ensures ({t.father, t.mother}, t.child) in IncompleteTrioType
      <==> !NonInformativeMating(Autosome, t) && MendelConsistent(Autosome, t, sex)
  {
    PairSetEquality(t.father, t.mother, NA, NA);
    PairSetEquality(t.father, t.mother, NA, G0);
    PairSetEquality(t.father, t.mother, NA, G1);
    PairSetEquality(t.father, t.mother, NA, G2);
    PairSetEquality(t.father, t.mother, G0, G1);
    PairSetEquality(t.father, t.mother, G1, G1);
    PairSetEquality(t.father, t.mother, G1, G2);
  }

  /** The non-informative mating table (classMarker.py:21) lists exactly the
      pairs of homozygous parents */
  lemma NonInformativeAutosomalMatings(t: Trio)
    requires ValidTrio(Autosome, t, 1)
    ensures {t.father, t.mother} in NonInformativeMatingType <==> NonInformativeMating(Autosome, t)
  {
    PairSetEquality(t.father, t.mother, G0, G0);
    PairSetEquality(t.father, t.mother, G0, G2);
    PairSetEquality(t.father, t.mother, G2, G2);
  }

  /** Classification agrees with Mendelian inheritance. For a trio that
      passes the genotype check and has status and sex codes in {1, 2}: it is
      counted as non-informative exactly when the mating is non-informative,
      counted as informative exactly when the mating is informative and the
      offspring is Mendel-consistent, and counted as an MIE exactly when the
      mating is informative and the offspring is not Mendel-consistent. */
  lemma ClassificationIsMendelian(chrom: Chromosome, t: Trio, status: int, sex: int)
    requires StatusOf(status).Some? && SexOf(sex).Some?
    requires ValidTrio(chrom, t, sex)
    ensures var o := Classify(chrom, t, status, sex);
      (o.Counted? && !o.slot.IsInformative()) <==> NonInformativeMating(chrom, t)
    ensures var o := Classify(chrom, t, status, sex);
      (o.Counted? && o.slot.IsInformative())
        <==> !NonInformativeMating(chrom, t) && MendelConsistent(chrom, t, SexOf(sex).value)
    ensures Classify(chrom, t, status, sex).MIE?
      <==> !NonInformativeMating(chrom, t) && !MendelConsistent(chrom, t, SexOf(sex).value)
  {
    var sx := SexOf(sex).value;
    LookupsAreMendelian(chrom, t, sex);
    var o := Classify(chrom, t, status, sex);
    if InformativeIndex(chrom, t, sx).Some? {
      assert o.Counted? && o.slot.IsInformative();
    } else if NonInformativeIndex(chrom, t).Some? {
      assert o.Counted? && !o.slot.IsInformative();
    } else {
      assert o.MIE?;
    }
  }

  /** Both lookups of the classifier succeed exactly on the Mendelian
      conditions */
  lemma LookupsAreMendelian(chrom: Chromosome, t: Trio, sex: int)
    requires SexOf(sex).Some? && ValidTrio(chrom, t, sex)
    ensures InformativeIndex(chrom, t, SexOf(sex).value).Some?
      <==> !NonInformativeMating(chrom, t) && MendelConsistent(chrom, t, SexOf(sex).value)
    ensures NonInformativeIndex(chrom, t).Some? <==> NonInformativeMating(chrom, t)
  {
    var sx := SexOf(sex).value;
    match chrom
    case Autosome =>
      if IsComplete(t) {
        CompleteAutosomalKeys(t, sx);
      } else {
        IncompleteAutosomalKeys(t, sx);
      }
      NonInformativeAutosomalMatings(t);
    case ChrX =>
      ChrXKeys(t, sex);
  }

  /** The chrX key tables (classMarker.py:15-23, classMarker.py:65-67) list
      exactly the Mendel-consistent trios of informative matings, and the
      non-informative table exactly the homozygous mothers */
  lemma ChrXKeys(t: Trio, sex: int)
    requires SexOf(sex).Some? && ValidTrio(ChrX, t, sex)
    ensures (t.father, t.mother, t.child) in ChrXInformativeKeys(IsComplete(t), SexOf(sex).value)
      <==> !NonInformativeMating(ChrX, t) && MendelConsistent(ChrX, t, SexOf(sex).value)
    ensures t.mother in NonInformativeMotherTypeChrX <==> NonInformativeMating(ChrX, t)
  {
  }

  // ---------------------------------------------------------------------
  // Shapes of the classification

  /** The autosomal key is a set, so the order of the parents never matters */
  lemma AutosomalParentOrderIrrelevant(f: Genotype, m: Genotype, c: Genotype, status: int, sex: int)
    ensures Classify(Autosome, Trio(f, m, c), status, sex) == Classify(Autosome, Trio(m, f, c), status, sex)
  {
    var t, u := Trio(f, m, c), Trio(m, f, c);
    assert {f, m} == {m, f};
    assert IsComplete(t) == IsComplete(u);
    forall sx: Sex ensures InformativeIndex(Autosome, t, sx) == InformativeIndex(Autosome, u, sx) {
      assert ({f, m}, c) == ({m, f}, c);
    }
    assert NonInformativeIndex(Autosome, t) == NonInformativeIndex(Autosome, u);
  }

  /** A complete autosomal trio is an MIE exactly when the parents are
      {0, 1} and the offspring 2, or the parents are {1, 2} and the
      offspring 0 */
  lemma AutosomalCompleteMIE(t: Trio, status: int, sex: int)
    requires StatusOf(status).Some? && SexOf(sex).Some?
    requires ValidTrio(Autosome, t, sex) && IsComplete(t)
    ensures Classify(Autosome, t, status, sex).MIE?
      <==> (({t.father, t.mother} == {G0, G1} && t.child == G2)
            || ({t.father, t.mother} == {G1, G2} && t.child == G0))
  {
    ClassificationIsMendelian(Autosome, t, status, sex);
    PairSetEquality(t.father, t.mother, G0, G1);
    PairSetEquality(t.father, t.mother, G1, G2);
  }

  /** An incomplete autosomal trio is an MIE exactly when the one known
      parent is 0 and the offspring 2, or the one known parent is 2 and the
      offspring 0 */
  lemma AutosomalIncompleteMIE(t: Trio, status: int, sex: int)
    requires StatusOf(status).Some? && SexOf(sex).Some?
    requires ValidTrio(Autosome, t, sex) && !IsComplete(t)
    ensures Classify(Autosome, t, status, sex).MIE?
      <==> (({t.father, t.mother} == {NA, G0} && t.child == G2)
            || ({t.father, t.mother} == {NA, G2} && t.child == G0))
  {
    ClassificationIsMendelian(Autosome, t, status, sex);
    IncompleteInconsistency(t, SexOf(sex).value);
    PairSetEquality(t.father, t.mother, NA, G0);
    PairSetEquality(t.father, t.mother, NA, G2);
  }

  /** The incomplete autosomal trios of informative matings that no
      resolution of the missing call makes Mendel-consistent */
  lemma IncompleteInconsistency(t: Trio, sex: Sex)
    requires ValidTrio(Autosome, t, 1) && !IsComplete(t)
    ensures var (f, m, c) := (t.father, t.mother, t.child);
      !NonInformativeMating(Autosome, t) && !MendelConsistent(Autosome, t, sex)
      <==> ((((f == NA && m == G0) || (f == G0 && m == NA)) && c == G2)
            || (((f == NA && m == G2) || (f == G2 && m == NA)) && c == G0))
  {
    match t.child
    case G0 =>
    case G1 =>
    case G2 =>
    case NA =>
  }

  /** Matings {0, 0}, {0, 2} and {2, 2} are counted as non-informative
      whatever the offspring's genotype, valid or not */
  lemma HomozygousMatingNonInformative(t: Trio, status: int, sex: int)
    requires StatusOf(status).Some? && SexOf(sex).Some?
    requires t.father in {G0, G2} && t.mother in {G0, G2}
    ensures Classify(Autosome, t, status, sex).Counted?
    ensures !Classify(Autosome, t, status, sex).slot.IsInformative()
  {
    HomozygousMatingLookups(t, SexOf(sex).value);
    var o := Classify(Autosome, t, status, sex);
    assert o.Counted? && !o.slot.IsInformative();
  }

  /** For two homozygous parents the informative lookup always fails and the
      non-informative one always succeeds */
  lemma HomozygousMatingLookups(t: Trio, sex: Sex)
    requires t.father in {G0, G2} && t.mother in {G0, G2}
    ensures InformativeIndex(Autosome, t, sex).None?
    ensures NonInformativeIndex(Autosome, t).Some?
  {
    var key := ({t.father, t.mother}, t.child);
    assert {t.father, t.mother} in NonInformativeMatingType by {
      PairSetEquality(t.father, t.mother, G0, G0);
      PairSetEquality(t.father, t.mother, G0, G2);
      PairSetEquality(t.father, t.mother, G2, G2);
    }
    if IsComplete(t) {
      assert key !in InformativeTrioType by {
        PairSetEquality(t.father, t.mother, G0, G1);
        PairSetEquality(t.father, t.mother, G1, G1);
        PairSetEquality(t.father, t.mother, G1, G2);
      }
    } else {
      assert key !in IncompleteTrioType by {
        PairSetEquality(t.father, t.mother, NA, NA);
        PairSetEquality(t.father, t.mother, NA, G0);
        PairSetEquality(t.father, t.mother, NA, G1);
        PairSetEquality(t.father, t.mother, NA, G2);
        PairSetEquality(t.father, t.mother, G0, G1);
        PairSetEquality(t.father, t.mother, G1, G1);
        PairSetEquality(t.father, t.mother, G1, G2);
      }
    }
  }

  /** On chrX a mother of 0 or 2 makes the trio non-informative whatever
      the father's and offspring's genotypes */
  lemma HomozygousMotherNonInformative(t: Trio, status: int, sex: int)
    requires StatusOf(status).Some? && SexOf(sex).Some?
    requires t.mother in {G0, G2}
    ensures Classify(ChrX, t, status, sex).Counted?
    ensures !Classify(ChrX, t, status, sex).slot.IsInformative()
  {
    HomozygousMotherLookups(t, SexOf(sex).value);
    var o := Classify(ChrX, t, status, sex);
    assert o.Counted? && !o.slot.IsInformative();
  }

  /** For a homozygous mother the chrX informative lookup always fails and
      the non-informative one always succeeds */
  lemma HomozygousMotherLookups(t: Trio, sex: Sex)
    requires t.mother in {G0, G2}
    ensures InformativeIndex(ChrX, t, sex).None?
    ensures NonInformativeIndex(ChrX, t).Some?
  {
    var keys := ChrXInformativeKeys(IsComplete(t), sex);
    assert forall k :: k in keys ==> k.1 in {G1, NA};
    assert t.mother in NonInformativeMotherTypeChrX;
  }

  /** On chrX, with a heterozygous mother and a male offspring, every valid
      complete trio is informative */
  lemma HeterozygousMotherMaleInformative(t: Trio, status: int)
    requires StatusOf(status).Some?
    requires ValidTrio(ChrX, t, 1) && IsComplete(t) && t.mother == G1
    ensures Classify(ChrX, t, status, 1).Counted?
    ensures Classify(ChrX, t, status, 1).slot == CompleteInformative(StatusOf(status).value, Male)
  {
    ClassificationIsMendelian(ChrX, t, status, 1);
  }

  /** On chrX, a daughter with genotype 2 of a father 0, or with genotype 0
      of a father 1, is an MIE when the mother is 1 or missing */
  lemma DaughterOfWrongFatherMIE(t: Trio, status: int)
    requires StatusOf(status).Some?
    requires t.mother in {G1, NA}
    requires (t.father == G0 && t.child == G2) || (t.father == G1 && t.child == G0)
    ensures Classify(ChrX, t, status, 2).MIE?
  {
    assert ValidTrio(ChrX, t, 2);
    assert !MendelConsistent(ChrX, t, Female);
    ClassificationIsMendelian(ChrX, t, status, 2);
  }
}
