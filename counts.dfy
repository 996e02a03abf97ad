/** The twelve trio-type count vectors and the MIE counter of one marker
    (classMarker.py:162-174, classMarker.py:496-507), and their population
    over all pedigrees (classMarker.py:330-391, classMarker.py:570-630) as a
    pure fold: the specification of `Marker.PopulateTrioTypeCountVectors`. */
module Counts {
  import opened Genetics
  import opened Tables
  import opened Classifier

  /** The count vectors by slot, in the source's naming: complete or
      incomplete, informative or not, case or control, male or female
      offspring, and the MIE counter */
  datatype TrioTypeCounts = TrioTypeCounts(
    completeInformativeCaseMale: seq<nat>,
    completeInformativeCaseFemale: seq<nat>,
    completeInformativeControlMale: seq<nat>,
    completeInformativeControlFemale: seq<nat>,
    completeNonInformativeCase: seq<nat>,
    completeNonInformativeControl: seq<nat>,
    incompleteInformativeCaseMale: seq<nat>,
    incompleteInformativeCaseFemale: seq<nat>,
    incompleteInformativeControlMale: seq<nat>,
    incompleteInformativeControlFemale: seq<nat>,
    incompleteNonInformativeCase: seq<nat>,
    incompleteNonInformativeControl: seq<nat>,
    mie: nat)
  {
    /** The count vector behind a slot */
    function Vector(s: Slot): seq<nat>
    {
      match s
      case CompleteInformative(Case, Male) => completeInformativeCaseMale
      case CompleteInformative(Case, Female) => completeInformativeCaseFemale
      case CompleteInformative(Control, Male) => completeInformativeControlMale
      case CompleteInformative(Control, Female) => completeInformativeControlFemale
      case CompleteNonInformative(Case) => completeNonInformativeCase
      case CompleteNonInformative(Control) => completeNonInformativeControl
      case IncompleteInformative(Case, Male) => incompleteInformativeCaseMale
      case IncompleteInformative(Case, Female) => incompleteInformativeCaseFemale
      case IncompleteInformative(Control, Male) => incompleteInformativeControlMale
      case IncompleteInformative(Control, Female) => incompleteInformativeControlFemale
      case IncompleteNonInformative(Case) => incompleteNonInformativeCase
      case IncompleteNonInformative(Control) => incompleteNonInformativeControl
    }

    /** The same counts with the vector behind `s` replaced by `v` */
    function WithVector(s: Slot, v: seq<nat>): (r: TrioTypeCounts)
      ensures r.Vector(s) == v
      ensures forall s' :: s' != s ==> r.Vector(s') == Vector(s')
      ensures r.mie == mie
    {
      match s
      case CompleteInformative(Case, Male) => this.(completeInformativeCaseMale := v)
      case CompleteInformative(Case, Female) => this.(completeInformativeCaseFemale := v)
      case CompleteInformative(Control, Male) => this.(completeInformativeControlMale := v)
      case CompleteInformative(Control, Female) => this.(completeInformativeControlFemale := v)
      case CompleteNonInformative(Case) => this.(completeNonInformativeCase := v)
      case CompleteNonInformative(Control) => this.(completeNonInformativeControl := v)
      case IncompleteInformative(Case, Male) => this.(incompleteInformativeCaseMale := v)
      case IncompleteInformative(Case, Female) => this.(incompleteInformativeCaseFemale := v)
      case IncompleteInformative(Control, Male) => this.(incompleteInformativeControlMale := v)
      case IncompleteInformative(Control, Female) => this.(incompleteInformativeControlFemale := v)
      case IncompleteNonInformative(Case) => this.(incompleteNonInformativeCase := v)
      case IncompleteNonInformative(Control) => this.(incompleteNonInformativeControl := v)
    }

    /** Every vector has the length of the table keyed on it */
    ghost predicate WellFormed(chrom: Chromosome)
    {
      forall s :: |Vector(s)| == SlotLength(chrom, s)
    }

    /** Apply the outcome of one trio: one cell, or the MIE counter, goes up
        by one; an ignored trio changes nothing */
    function Record(o: Outcome): (r: TrioTypeCounts)
      requires o.Counted? ==> o.index < |Vector(o.slot)|
      ensures forall s :: |r.Vector(s)| == |Vector(s)|
      ensures o.Counted? ==> r.Vector(o.slot) == Vector(o.slot)[o.index := Vector(o.slot)[o.index] + 1]
      ensures forall s :: !(o.Counted? && s == o.slot) ==> r.Vector(s) == Vector(s)
      ensures r.mie == mie + (if o.MIE? then 1 else 0)
    {
      match o
      case Counted(s, i) =>
        var v := Vector(s);
        WithVector(s, v[i := v[i] + 1])
      case MIE =>
        this.(mie := mie + 1)
      case Ignored => this
    }

    /** The number of trios counted so far: all cells and the MIE counter */
    function Total(): nat
    {
      Sum(completeInformativeCaseMale) + Sum(completeInformativeCaseFemale)
      + Sum(completeInformativeControlMale) + Sum(completeInformativeControlFemale)
      + Sum(completeNonInformativeCase) + Sum(completeNonInformativeControl)
      + Sum(incompleteInformativeCaseMale) + Sum(incompleteInformativeCaseFemale)
      + Sum(incompleteInformativeControlMale) + Sum(incompleteInformativeControlFemale)
      + Sum(incompleteNonInformativeCase) + Sum(incompleteNonInformativeControl)
      + mie
    }
  }

  /** Replacing one vector changes the total by the difference of the sums */
  lemma WithVectorTotal(c: TrioTypeCounts, s: Slot, v: seq<nat>)
    ensures c.WithVector(s, v).Total() == c.Total() - Sum(c.Vector(s)) + Sum(v)
  {
    match s
    case CompleteInformative(Case, Male) =>
    case CompleteInformative(Case, Female) =>
    case CompleteInformative(Control, Male) =>
    case CompleteInformative(Control, Female) =>
    case CompleteNonInformative(Case) =>
    case CompleteNonInformative(Control) =>
    case IncompleteInformative(Case, Male) =>
    case IncompleteInformative(Case, Female) =>
    case IncompleteInformative(Control, Male) =>
    case IncompleteInformative(Control, Female) =>
    case IncompleteNonInformative(Case) =>
    case IncompleteNonInformative(Control) =>
  }

  /** Recording a trio adds one to the total, unless the trio is ignored */
  lemma RecordTotal(c: TrioTypeCounts, o: Outcome)
    requires o.Counted? ==> o.index < |c.Vector(o.slot)|
    ensures c.Record(o).Total() == c.Total() + (if o.Ignored? then 0 else 1)
  {
    match o
    case Counted(s, i) =>
      var v := c.Vector(s);
      var w := v[i := v[i] + 1];
      assert c.Record(o) == c.WithVector(s, w);
      SumIncrement(v, i);
      WithVectorTotal(c, s, w);
    case MIE =>
    case Ignored =>
  }

  /** The length a well-formed record gives each named vector */
  lemma WellFormedLengths(c: TrioTypeCounts, chrom: Chromosome)
    requires c.WellFormed(chrom)
    ensures |c.completeInformativeCaseMale| == CategoryCount(chrom, true, true, Male)
    ensures |c.completeInformativeCaseFemale| == CategoryCount(chrom, true, true, Female)
    ensures |c.completeInformativeControlMale| == CategoryCount(chrom, true, true, Male)
    ensures |c.completeInformativeControlFemale| == CategoryCount(chrom, true, true, Female)
    ensures |c.incompleteInformativeCaseMale| == CategoryCount(chrom, false, true, Male)
    ensures |c.incompleteInformativeCaseFemale| == CategoryCount(chrom, false, true, Female)
    ensures |c.incompleteInformativeControlMale| == CategoryCount(chrom, false, true, Male)
    ensures |c.incompleteInformativeControlFemale| == CategoryCount(chrom, false, true, Female)
  {
    assert |c.Vector(CompleteInformative(Case, Male))| == SlotLength(chrom, CompleteInformative(Case, Male));
    assert |c.Vector(CompleteInformative(Case, Female))| == SlotLength(chrom, CompleteInformative(Case, Female));
    assert |c.Vector(CompleteInformative(Control, Male))| == SlotLength(chrom, CompleteInformative(Control, Male));
    assert |c.Vector(CompleteInformative(Control, Female))| == SlotLength(chrom, CompleteInformative(Control, Female));
    assert |c.Vector(IncompleteInformative(Case, Male))| == SlotLength(chrom, IncompleteInformative(Case, Male));
    assert |c.Vector(IncompleteInformative(Case, Female))| == SlotLength(chrom, IncompleteInformative(Case, Female));
    assert |c.Vector(IncompleteInformative(Control, Male))| == SlotLength(chrom, IncompleteInformative(Control, Male));
    assert |c.Vector(IncompleteInformative(Control, Female))| == SlotLength(chrom, IncompleteInformative(Control, Female));
  }

  /** Sum of a count vector */
  function Sum(v: seq<nat>): nat
  {
    if |v| == 0 then 0 else Sum(v[..|v| - 1]) + v[|v| - 1]
  }

  /** Adding one to a cell adds one to the sum */
  lemma {:induction false} SumIncrement(v: seq<nat>, i: nat)
    requires i < |v|
    ensures Sum(v[i := v[i] + 1]) == Sum(v) + 1
  {
    var w := v[i := v[i] + 1];
    if i == |v| - 1 {
      assert w[..|w| - 1] == v[..|v| - 1];
    } else {
      assert w[..|w| - 1] == v[..|v| - 1][i := v[i] + 1];
      SumIncrement(v[..|v| - 1], i);
    }
  }

  /** A zero vector of length n */
  function Zeros(n: nat): (r: seq<nat>)
    ensures |r| == n && forall i :: 0 <= i < n ==> r[i] == 0
    ensures Sum(r) == 0
  {
    SumZeros(seq(n, _ => 0));
    seq(n, _ => 0)
  }

  /** A zero vector sums to zero */
  lemma {:induction false} SumZeros(v: seq<nat>)
    requires forall i :: 0 <= i < |v| ==> v[i] == 0
    ensures Sum(v) == 0
  {
    if |v| > 0 {
      SumZeros(v[..|v| - 1]);
    }
  }

  /** The counts of a freshly built marker: every vector of its table's
      length, every cell zero */
  function Empty(chrom: Chromosome): (r: TrioTypeCounts)
    ensures forall s :: r.Vector(s) == Zeros(SlotLength(chrom, s))
    ensures r.WellFormed(chrom)
  {
    TrioTypeCounts(
      Zeros(CategoryCount(chrom, true, true, Male)), Zeros(CategoryCount(chrom, true, true, Female)),
      Zeros(CategoryCount(chrom, true, true, Male)), Zeros(CategoryCount(chrom, true, true, Female)),
      Zeros(CategoryCount(chrom, true, false, Male)), Zeros(CategoryCount(chrom, true, false, Male)),
      Zeros(CategoryCount(chrom, false, true, Male)), Zeros(CategoryCount(chrom, false, true, Female)),
      Zeros(CategoryCount(chrom, false, true, Male)), Zeros(CategoryCount(chrom, false, true, Female)),
      Zeros(CategoryCount(chrom, false, false, Male)), Zeros(CategoryCount(chrom, false, false, Male)),
      0)
  }

  /** A fresh marker has counted no trio */
  lemma EmptyTotal(chrom: Chromosome)
    ensures Empty(chrom).Total() == 0
  {
  }

  /** The outcome of classifying each pedigree's trio; trio i belongs to
      pedigree i */
  function Outcomes(chrom: Chromosome, trios: seq<Trio>, peds: seq<Pedigree>): (r: seq<Outcome>)
    requires |trios| == |peds|
    ensures |r| == |trios|
    ensures forall k :: 0 <= k < |r| ==> Fits(chrom, r[k])
  {
    seq(|trios|, k requires 0 <= k < |trios| => Classify(chrom, trios[k], peds[k].status, peds[k].childSex))
  }

  /** A counted outcome names a cell inside its vector */
  predicate Fits(chrom: Chromosome, o: Outcome)
  {
    o.Counted? ==> o.index < SlotLength(chrom, o.slot)
  }

  /** The counts after recording the outcomes in order, starting from `c` */
  function Tally(chrom: Chromosome, c: TrioTypeCounts, outcomes: seq<Outcome>): (r: TrioTypeCounts)
    requires c.WellFormed(chrom)
    requires forall k :: 0 <= k < |outcomes| ==> Fits(chrom, outcomes[k])
    ensures r.WellFormed(chrom)
    decreases |outcomes|
  {
    if |outcomes| == 0 then c
    else
      var n := |outcomes| - 1;
      var prev := Tally(chrom, c, outcomes[..n]);
      assert Fits(chrom, outcomes[n]);
      assert outcomes[n].Counted? ==> |prev.Vector(outcomes[n].slot)| == SlotLength(chrom, outcomes[n].slot);
      prev.Record(outcomes[n])
  }

  /** Tallying one more outcome records it on top of the earlier tally */
  lemma TallyStep(chrom: Chromosome, c: TrioTypeCounts, outcomes: seq<Outcome>, i: nat)
    requires c.WellFormed(chrom) && i < |outcomes|
    requires forall k :: 0 <= k < |outcomes| ==> Fits(chrom, outcomes[k])
    ensures Tally(chrom, c, outcomes[..i + 1]) == Tally(chrom, c, outcomes[..i]).Record(outcomes[i])
  {
    assert outcomes[..i + 1][..i] == outcomes[..i];
  }

  /** Number of outcomes that are not Ignored */
  function Recorded(outcomes: seq<Outcome>): nat
  {
    if |outcomes| == 0 then 0
    else
      var n := |outcomes| - 1;
      Recorded(outcomes[..n]) + (if outcomes[n].Ignored? then 0 else 1)
  }

  /** Number of pedigrees whose status and sex codes are both in {1, 2} */
  function Assigned(peds: seq<Pedigree>): nat
  {
    if |peds| == 0 then 0
    else
      var n := |peds| - 1;
      Assigned(peds[..n])
      + (if StatusOf(peds[n].status).Some? && SexOf(peds[n].childSex).Some? then 1 else 0)
  }

  /** Conservation: every recorded outcome adds exactly one count, in one
      cell or in the MIE counter */
  lemma {:induction false} TallyConservesTrios(chrom: Chromosome, c: TrioTypeCounts, outcomes: seq<Outcome>)
    requires c.WellFormed(chrom)
    requires forall k :: 0 <= k < |outcomes| ==> Fits(chrom, outcomes[k])
    ensures Tally(chrom, c, outcomes).Total() == c.Total() + Recorded(outcomes)
    decreases |outcomes|
  {
    if |outcomes| > 0 {
      var n := |outcomes| - 1;
      TallyConservesTrios(chrom, c, outcomes[..n]);
      RecordTotal(Tally(chrom, c, outcomes[..n]), outcomes[n]);
    }
  }

  /** Exactly the pedigrees whose status and sex codes are both in {1, 2}
      are recorded */
  lemma {:induction false} RecordedAreAssigned(chrom: Chromosome, trios: seq<Trio>, peds: seq<Pedigree>)
    requires |trios| == |peds|
    ensures Recorded(Outcomes(chrom, trios, peds)) == Assigned(peds)
    decreases |trios|
  {
    if |trios| > 0 {
      var n := |trios| - 1;
      var os := Outcomes(chrom, trios, peds);
      assert os[..n] == Outcomes(chrom, trios[..n], peds[..n]);
      RecordedAreAssigned(chrom, trios[..n], peds[..n]);
    }
  }
}
