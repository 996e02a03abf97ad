# miTDT per-marker engine in Dafny

This project models the per-marker engine of miTDT. miTDT is a family-based association tester. It works on parent–offspring trios and reports, per genetic marker, the transmission/disequilibrium test (TDT) and the family-based association test (FBAT). Each test comes in two versions:

- a standard version over complete trios;
- an extended version that bounds the statistic when a genotype is missing.

The modelled code is `classMarker.py`:

- the lookup tables;
- the autosomal marker class;
- the chrX marker class that overrides it.

The two classes become one class, `Markers.Marker`. Its constant `chrom` selects autosomal or chrX behaviour.

Modules:

- `Genetics` (types.dfy): genotype calls, trios, pedigree metadata, genetic models and chromosome kinds.
- `Tables` (tables.dfy):
  - the category-key tables and all coefficient tables, with the source's values;
  - the accessors that select a table by chromosome, model and offspring sex.
- `Classifier` (classifier.dfy):
  - trio classification, with the source's `list.index` lookups and their fallback order: informative, then non-informative, then MIE;
  - reference definitions from Mendelian inheritance, against which the key tables are proved.
- `Counts` (counts.dfy):
  - the twelve count vectors and the MIE counter;
  - their population as a pure fold, `Tally`;
  - conservation of trios.
- `Summaries` (summaries.dfy): the genotype check, the allele counts and minor allele frequency, and the four-bin variant distribution.
- `Tdt` (tdt.dfy): B and C counts, the McNemar statistic, the extended bounds, and the min/max statistic rule.
- `Fbat` (fbat.dfy): offset-weighted scores and variances, Z² and the extended bounds.
- `Markers` (markers.dfy): the marker object.
  - Its methods update its fields as the source's methods do.
  - Each method is proved against the pure definitions above.

Numbers:

- Integers are unbounded, as Python's are.
- Floating-point values are exact reals, so 2/float(3) is the rational 2/3.
- The source's string "NA" for an undefined statistic is `None`.

Two behaviours of classMarker.py are kept as written:

- **Trios that are counted.** A trio whose offspring sex code is not 1 or 2 is counted nowhere, even when its affection status is determined. `Counts.RecordedAreAssigned` states this.
- **Overlapping ranges in the extended TDT.** The maximum statistic is `max(stat1, stat2)`. In Python 2 the string "NA" compares above every number, so an undefined statistic wins that max. `Tdt.MinMaxStatistic` keeps this, and `Tdt.OverlapDefined` shows that in the overlapping branch both statistics are in fact defined.

## Model

| member | source | states |
|---|---|---|
| Tables.InformativeBinc | classMarker.py:25-41 | the B-increment table chosen for (chromosome, model, offspring sex) has the length of the complete informative count vector it weighs (7 on autosomes, 4 on chrX) |
| Tables.InformativeCinc | classMarker.py:25-41 | the same for the C-increment tables |
| Tables.InformativeU | classMarker.py:43-59 | the FBAT score table chosen has the length of the complete informative vector |
| Tables.InformativeVarU | classMarker.py:43-59 | the FBAT variance table chosen has the length of the complete informative vector |
| Tables.IncompleteBinc | classMarker.py:69-85 | the largest-B-increment table of incomplete trios has the length of the incomplete informative vector (17 autosomal, 14 chrX male, 16 chrX female) |
| Tables.IncompleteCinc | classMarker.py:69-85 | the same for the largest C-increments |
| Tables.IncompleteU | classMarker.py:87-149 | each of the extended-FBAT score bound tables has the length of the incomplete informative vector it weighs |
| Tables.IncompleteVarU | classMarker.py:87-149 | the same for the variance bound tables |
| Classifier.IndexOf | classMarker.py:353 | Python's `list.index`: None exactly when the key is absent (the ValueError), otherwise a position holding the key |
| Classifier.IndexOfIsFirst | classMarker.py:353 | the position found is the first one holding the key |
| Classifier.ChrXInformativeKeys | classMarker.py:15-17 | the chrX key table chosen by completeness and offspring sex has the length of the count vector it indexes |
| Classifier.InformativeIndex | classMarker.py:348-382 | a successful informative lookup indexes inside the vector of the trio's completeness and offspring sex |
| Classifier.NonInformativeIndex | classMarker.py:362-388 | a successful non-informative lookup (unordered parent pair on autosomes, mother alone on chrX) indexes inside the non-informative vector |
| Classifier.Classify | classMarker.py:330-391 | a trio is ignored exactly when its status or sex code is not 1 or 2. A counted trio lands inside the vector of its own status, completeness and (if informative) sex. A failed informative lookup falls back to the non-informative one, and a failed fallback gives MIE. |
| Classifier.CompleteAutosomalKeys | classMarker.py:12 | the complete autosomal key table lists exactly the Mendel-consistent complete trios of informative matings |
| Classifier.IncompleteAutosomalKeys | classMarker.py:63 | the incomplete autosomal key table lists exactly the incomplete trios of informative matings that some resolution of the missing call makes Mendel-consistent |
| Classifier.NonInformativeAutosomalMatings | classMarker.py:21 | the non-informative table lists exactly the pairs of homozygous parents |
| Classifier.ChrXKeys | classMarker.py:13-23 | the four chrX key tables list exactly the Mendel-consistent trios with a heterozygous or missing mother, and the chrX non-informative table exactly the homozygous mothers |
| Classifier.LookupsAreMendelian | classMarker.py:348-391 | for a valid trio each lookup of the classifier succeeds exactly on its Mendelian condition |
| Classifier.ClassificationIsMendelian | classMarker.py:330-391 | for a valid trio with status and sex codes in {1, 2}: counted non-informative iff the mating is homozygous. Counted informative iff the mating is informative and the offspring Mendel-consistent. MIE iff the mating is informative and the offspring inconsistent. Each holds in both directions. |
| Classifier.AutosomalParentOrderIrrelevant | classMarker.py:353 | swapping father and mother never changes an autosomal classification |
| Classifier.AutosomalCompleteMIE | classMarker.py:348-370 | a valid complete autosomal trio is an MIE exactly for parents {0,1} with offspring 2, or parents {1,2} with offspring 0 |
| Classifier.AutosomalIncompleteMIE | classMarker.py:371-391 | a valid incomplete autosomal trio is an MIE exactly when the one known parent is 0 and the offspring 2, or that parent is 2 and the offspring 0 |
| Classifier.IncompleteInconsistency | classMarker.py:63 | characterises the incomplete autosomal trios that no resolution of the missing call makes consistent |
| Classifier.HomozygousMatingNonInformative | classMarker.py:362-367 | autosomal parents {0,0}, {0,2}, {2,2} are always counted non-informative, whatever the offspring's genotype |
| Classifier.HomozygousMatingLookups | classMarker.py:353-365 | for such parents the informative lookup fails and the non-informative one succeeds |
| Classifier.HomozygousMotherNonInformative | classMarker.py:601-606 | on chrX a mother of 0 or 2 is always counted non-informative, whatever the father and offspring carry |
| Classifier.HomozygousMotherLookups | classMarker.py:592-606 | for such a mother the chrX informative lookup fails and the non-informative one succeeds |
| Classifier.HeterozygousMotherMaleInformative | classMarker.py:593-594 | on chrX a valid complete trio with a heterozygous mother and a son is always complete informative, in the male vector of its status |
| Classifier.DaughterOfWrongFatherMIE | classMarker.py:587-609 | on chrX a daughter 2 of father 0, or a daughter 0 of father 1, with mother 1 or missing, is an MIE |
| Counts.TrioTypeCounts.WithVector | classMarker.py:353-391 | replacing one vector changes that vector only and leaves the MIE counter alone |
| Counts.TrioTypeCounts.Record | classMarker.py:353-391 | counting one trio adds one to exactly one cell (or to the MIE counter), and every other vector and every length is unchanged |
| Counts.WithVectorTotal | classMarker.py:353-391 | replacing one vector changes the total count by the difference of the vector sums |
| Counts.RecordTotal | classMarker.py:353-391 | counting one trio adds one to the total, unless the trio is ignored |
| Counts.WellFormedLengths | classMarker.py:163-174 | in a well-formed record the informative vectors have their tables' lengths |
| Counts.Zeros | classMarker.py:162-174 | `[0]*n`: length n, every cell 0, sum 0 |
| Counts.Empty | classMarker.py:162-507 | autosomal code at lines 162-175, chrX code at lines 496-507: a fresh marker's vectors are zero vectors of their tables' lengths (autosomal 7/3/17, chrX 4/2/14/16) |
| Counts.EmptyTotal | classMarker.py:162-175 | a fresh marker has counted no trio |
| Counts.Outcomes | classMarker.py:332-340 | one outcome per pedigree, each naming a cell inside its vector |
| Counts.Tally | classMarker.py:330-391 | tallying a sequence of outcomes keeps every vector at its table's length |
| Counts.TallyStep | classMarker.py:332 | tallying one more pedigree records its outcome on top of the earlier tally |
| Counts.TallyConservesTrios | classMarker.py:330-391 | conservation: the counts grow by exactly the number of outcomes that are not ignored, spread over the cells and the MIE counter |
| Counts.RecordedAreAssigned | classMarker.py:351-391 | the pedigrees recorded are exactly those whose status and sex codes are both 1 or 2 |
| Summaries.AllValidPrefix | classMarker.py:293-300 | genotype validity of all pedigrees carries over to every prefix |
| Summaries.CallAllelesSize | classMarker.py:532-544 | one call adds as many alleles as its member has copies (2, or on chrX 1 for the father and a son, 2 for the mother and a daughter), none when missing |
| Summaries.CallAllelesNonNegative | classMarker.py:532-544 | a call whose dosage fits its copies adds no negative allele count |
| Summaries.TrioAllelesByCalls | classMarker.py:528-544 | visiting a trio's calls in the order father, mother, offspring adds up to the trio's allele counts |
| Summaries.AllelesCoverCalledCopies | classMarker.py:303-544 | autosomal code at lines 303-310, chrX code at lines 526-544: every counted copy is a reference or an alternate allele: ref + alt is the number of called copies |
| Summaries.TrioAllelesCover | classMarker.py:528-544 | the same for one trio |
| Summaries.ValidTrioFits | classMarker.py:510-519 | every call of a trio that passes the genotype check carries at most as many alternate alleles as its member has copies |
| Summaries.ValidCallAlleles | classMarker.py:510-544 | a valid trio adds no negative allele count |
| Summaries.ValidAllelesNonNegative | classMarker.py:293-548 | autosomal code at lines 293-316, chrX code at lines 510-548: with valid genotypes both allele counts are non-negative |
| Summaries.MinorAlleleFrequency | classMarker.py:312-548 | autosomal code at lines 312-315, chrX code at lines 545-548: undefined exactly when no allele was counted (the ZeroDivisionError). Otherwise the frequency times the allele total is the rarer count, and it lies in [0, 1/2] when both counts are non-negative. |
| Summaries.MinorAlleleFrequencySymmetric | classMarker.py:312-315 | which allele is called reference does not change the frequency |
| Summaries.ValidMinorAlleleFrequency | classMarker.py:303-548 | autosomal code at lines 303-316, chrX code at lines 522-548: with valid genotypes the frequency is defined exactly when some allele copy was called, and then lies in [0, 1/2] |
| Summaries.Place | classMarker.py:319-566 | autosomal code at lines 319-327, chrX code at lines 551-566: a missing call goes to bin 3. A placed call lands in one of the four bins. The list index is out of range exactly for a diploid member's dosage of 4 or more. Autosomal calls are never skipped. |
| Summaries.AddCall | classMarker.py:325-327 | the distribution keeps four bins and fails exactly on an out-of-range call or an earlier failure |
| Summaries.AddTrio | classMarker.py:553-566 | adding a trio keeps four bins |
| Summaries.FirstCallsAdded | classMarker.py:555-566 | adding a trio's first k calls keeps four bins |
| Summaries.TrioByCalls | classMarker.py:555-566 | adding a trio's calls one by one is adding the trio |
| Summaries.FirstCallsFailureSticks | classMarker.py:325 | once a call of a trio is out of range, the trio fails |
| Summaries.Distribution | classMarker.py:319-566 | autosomal code at lines 319-327, chrX code at lines 551-566: the distribution over all pedigrees keeps four bins |
| Summaries.DistributionFailureSticks | classMarker.py:321-325 | once an IndexError has occurred the distribution stays undefined |
| Summaries.ValidTrioPlaced | classMarker.py:293-566 | a trio that passes the genotype check of lines 293-300 or 510-519 has no call out of range in the binning of lines 319-327 or 553-566. The parents are always binned, and so is the offspring on an autosome or when its sex code is 1 or 2. |
| Summaries.BinnedCallAddsOne | classMarker.py:325-327 | a binned call adds one to the distribution's total |
| Summaries.ValidTrioAddsThree | classMarker.py:319-566 | a valid trio adds exactly three calls: on an autosome whatever the offspring's sex (lines 319-327), on chrX when the offspring's sex is known (lines 553-566) |
| Summaries.ValidDistributionCountsEveryone | classMarker.py:319-566 | autosomal code at lines 319-327, chrX code at lines 551-566: with valid genotypes the distribution is defined and counts every member exactly once (3 per pedigree). On autosomes this holds whatever the sex codes; on chrX it needs every offspring's sex to be known. |
| Summaries.AutosomalCallAlleles | classMarker.py:309-327 | code at lines 309-310 and lines 324-327: an autosomal call moves the distribution's implied allele counts by exactly the alleles the frequency computation counts for it |
| Summaries.AutosomalTrioAlleles | classMarker.py:309-327 | code at lines 309-310 and lines 321-327: the same for one trio |
| Summaries.AutosomalAllelesFromDistribution | classMarker.py:303-327 | on autosomes with valid genotypes the variant distribution determines the allele counts behind the minor allele frequency |
| Tdt.ChiSquare | classMarker.py:227-232 | undefined exactly when b + c = 0. Otherwise it lies in [0, b + c] and is 0 exactly when b = c. |
| Tdt.SquaredDifferenceBounds | classMarker.py:228 | (b − c)² lies in [0, (b + c)²] and is 0 exactly when b = c |
| Tdt.McNemarBounds | classMarker.py:228 | the quotient (b − c)²/(b + c) lies in [0, b + c] and is 0 exactly when b = c |
| Tdt.HeterozygousTrioAddsToBoth | classMarker.py:216-219 | under the additive model, one more complete case trio of category 3 (1×1→1) adds one to both B and C, whatever the offspring's sex |
| Tdt.OnlyHeterozygousTrios | classMarker.py:216-228 | n > 0 such trios and nothing else give B = C = n and a statistic of 0 |
| Tdt.ExtendedBounds | classMarker.py:236-679 | autosomal code at lines 236-261, chrX code at lines 654-679: B ≤ bMin ≤ bMax and C ≤ cMin ≤ cMax |
| Tdt.ExtendedBoundsFrom | classMarker.py:243-679 | autosomal code at lines 243-261, chrX code at lines 661-679: the bounds built on the stored complete counts are the extended bounds of the record |
| Tdt.CertainWithinPossible | classMarker.py:240-676 | autosomal code at lines 240-258, chrX code at lines 658-676: the certain transmissions added into bMin (cMin) are among the possible ones counted into bMaxIncrement (cMaxIncrement) |
| Tdt.CertainCoefficients | classMarker.py:70-85 | the categories counted as certain carry a coefficient of at least one in the increment tables |
| Tdt.NoIncompleteTrios | classMarker.py:236-261 | without incomplete informative case trios the bounds collapse onto B and C |
| Tdt.ChiSquareMonotone | classMarker.py:266-284 | for b ≥ c the statistic grows as b rises and c falls |
| Tdt.ChiGrowsWithB | classMarker.py:266-284 | raising b above c raises the statistic |
| Tdt.ChiGrowsAsCShrinks | classMarker.py:266-284 | lowering c below b raises the statistic |
| Tdt.ChiSquareSymmetric | classMarker.py:214 | the statistic does not depend on which allele is called B |
| Tdt.OverlapDefined | classMarker.py:283-284 | when the b and c ranges overlap the minimum is 0 and the maximum is defined |
| Tdt.MinMaxBrackets | classMarker.py:266-284 | the reported minimum and maximum bracket the statistic of every (b, c) within the bounds |
| Tdt.MinAtMostMax | classMarker.py:266-284 | the minimum statistic never exceeds the maximum one |
| Tdt.ExtendedWithoutIncompleteTrios | classMarker.py:236-262 | with no incomplete informative case trios the extended test reports the standard statistic as both minimum and maximum |
| Fbat.InformativeVarUNonNegative | classMarker.py:47-59 | every variance coefficient of a complete informative trio is ≥ 0 |
| Fbat.IncompleteVarUNonNegative | classMarker.py:87-149 | every variance bound coefficient of an incomplete trio is ≥ 0 |
| Fbat.AutosomalBoundVarUNonNegative | classMarker.py:87-113 | the same for the autosomal tables |
| Fbat.FemaleBoundVarUNonNegative | classMarker.py:124-149 | the same for the chrX female tables |
| Fbat.CaseControlMirror | classMarker.py:87-149 | the lower-bound table for cases is the upper-bound table for controls and the other way round, for scores and variances |
| Fbat.CaseMinBelowMax | classMarker.py:87-149 | each lower-bound score coefficient for cases is at most its upper-bound coefficient |
| Fbat.CaseVarU | classMarker.py:401-691 | autosomal code at line 401, chrX code at line 691: the case variance (1 − offset)² · Σ is ≥ 0 for every offset |
| Fbat.ControlVarU | classMarker.py:402-692 | autosomal code at line 402, chrX code at line 692: the control variance (0 − offset)² · Σ is ≥ 0 for every offset |
| Fbat.ZSquared | classMarker.py:418-425 | undefined exactly when the variance is 0 (the ZeroDivisionError). Otherwise Z² ≥ 0, and it is 0 exactly when U = 0. |
| Fbat.StdVarU | classMarker.py:419 | Var(U) is ≥ 0, so the square root never fails |
| Fbat.StdTermsSwap | classMarker.py:393-416 | at offset 0.5, swapping cases and controls exchanges the case and control scores with signs flipped, and exchanges their variances |
| Fbat.StdSwapSymmetry | classMarker.py:393-419 | at offset 0.5, swapping cases and controls negates U and keeps Var(U) |
| Fbat.IncompleteVariance | classMarker.py:432-440 | the incomplete trios' variance contribution is ≥ 0 |
| Fbat.WeightedVariance | classMarker.py:432-440 | the offset-weighted variance total is ≥ 0 for every offset |
| Fbat.VarUBound | classMarker.py:469-479 | VarUmin and VarUmax are ≥ 0 |
| Fbat.IncompleteScoresOrdered | classMarker.py:431-440 | the incomplete case trios' lower-bound score is at most their upper-bound score, and for controls the other way round |
| Fbat.UMinAtMostUMax | classMarker.py:428-478 | for an offset in [0, 1], Umin ≤ Umax |
| Fbat.WeightedOrdered | classMarker.py:431-439 | the bound formula is monotone in the incomplete trios' scores (cases weighted 1 − offset ≥ 0, controls −offset ≤ 0) |
| Fbat.ExtendedSwapSymmetry | classMarker.py:428-478 | at offset 0.5, swapping cases and controls turns Umin into −Umax |
| Fbat.ExtendedVarianceSwapSymmetry | classMarker.py:428-479 | at offset 0.5, swapping cases and controls turns VarUmin into VarUmax |
| Fbat.ExtendedScoreWithoutIncompleteTrios | classMarker.py:428-469 | with no incomplete informative trios both score bounds equal the standard U |
| Fbat.ExtendedVarianceWithoutIncompleteTrios | classMarker.py:428-470 | with no incomplete informative trios both variance bounds equal the standard Var(U) |
| Fbat.NoIncompleteScore | classMarker.py:431-440 | zero incomplete vectors contribute nothing to score or variance |
| Markers.Marker.constructor | classMarker.py:157-507 | autosomal code at lines 157-210, chrX code at lines 493-507: a fresh marker: no genotypes, maf 0, four empty variant bins, zero vectors of the chromosome's lengths, every statistic 0 |
| Markers.Marker.GetSampleGenotypes | classMarker.py:287-290 | pedigree i's trio is the row's values at its father, mother and offspring columns |
| Markers.Marker.HasValidGenotypes | classMarker.py:293-519 | autosomal code at lines 293-300, chrX code at lines 510-519: true exactly when every pedigree's trio passes the genotype check of the chromosome kind |
| Markers.Marker.CheckTrio | classMarker.py:297-518 | autosomal code at line 297, chrX code at lines 514-518: true exactly when one trio passes the check |
| Markers.Marker.ComputeMAF | classMarker.py:303-548 | autosomal code at lines 303-315, chrX code at lines 522-548: succeeds exactly when the minor allele frequency of the counted alleles is defined, and then stores it; otherwise maf is unchanged |
| Markers.Marker.CountTrioAlleles | classMarker.py:528-544 | the reference and alternate alleles of one trio's calls |
| Markers.Marker.GetVariantDistribution | classMarker.py:319-566 | autosomal code at lines 319-327, chrX code at lines 551-566: succeeds exactly when no call indexes past the fourth bin, and then stores the distribution continued from the old counts; otherwise the counts are unchanged |
| Markers.Marker.PlaceTrio | classMarker.py:555-566 | adds one trio's calls to a distribution, failing exactly when the trio fails |
| Markers.Marker.Increment | classMarker.py:353 | adds one to exactly one cell |
| Markers.Marker.PopulateTrioTypeCountVectors | classMarker.py:330-630 | autosomal code at lines 330-391, chrX code at lines 570-630: the new counts are the old counts with every pedigree's classification recorded. The total grows by exactly the number of pedigrees with status and sex codes in {1, 2}. |
| Markers.Marker.StdTDT | classMarker.py:213-651 | autosomal code at lines 213-232, chrX code at lines 634-651: stores B, C and the McNemar statistic of the complete informative case trios |
| Markers.Marker.ExtendedTDT | classMarker.py:236-680 | autosomal code at lines 236-262, chrX code at lines 654-680: stores the increments and the bounds built on the stored B and C, with bMin ≤ bMax and cMin ≤ cMax, and the min/max statistic of those bounds |
| Markers.Marker.SetBounds | classMarker.py:238-679 | autosomal code at lines 238-261, chrX code at lines 656-679: stores the bounds on b and c, with bMin ≤ bMax and cMin ≤ cMax |
| Markers.Marker.GetMinMaxStatistic | classMarker.py:266-284 | returns the min/max rule applied to the stored bounds, and the result brackets the statistic of every (b, c) within them |
| Markers.Marker.StdFBAT | classMarker.py:393-715 | autosomal code at lines 393-425, chrX code at lines 683-715: stores the weighted case and control scores and variances and Z² of their sums |
| Markers.Marker.ExtendedFBAT | classMarker.py:428-776 | autosomal code at lines 428-485, chrX code at lines 719-776: stores Z² at both bounds, built on the stored scores and variances. When those are the current standard ones, this is Z² of (Umin, VarUmin) and of (Umax, VarUmax). |
| Markers.Marker.ExtendedVariance | classMarker.py:469-479 | the variance at a bound from the stored variances is ≥ 0 |
| Markers.Marker.CountTrio | classMarker.py:353-391 | records one classified trio |
| Markers.Marker.ClassifyTrio | classMarker.py:332-340 | the classification of pedigree i |

## Left out

- p-values: the chi-square and normal distribution functions (scipy) are not modelled, and neither are the p-value fields. `StatisticRange` carries only the statistics, not the overlapping branch's p-values of 1 and min(p1, p2).
- Square root: FBAT is modelled by Z² = U²/Var(U). The sign of Z is therefore not stored.
- Floating point: reals are exact rationals, so 2/float(3) and its rounding are idealised.
- Printing: the diagnostic line printed for an MIE and `markerID` are left out.
- Unknown model letters: `Model` has only the additive, dominant and recessive models. With any other letter the source's methods still run their shared tail on the old counts. stdTDT recomputes the statistic from the old B and C (classMarker.py:227-232), stdFBAT recomputes Z from the old scores (418-425), and extendedTDT recomputes bMax, cMax and the min/max statistics (260-262). extendedFBAT raises UnboundLocalError at line 469. The driver only ever passes "a", "d" or "r" (miTDT.py:361-412).
- Pedigree shape: each pedigree is a trio of exactly one father, mother and offspring. Members beyond these, which the autosomal genotype check, allele count and variant distribution would also visit, are not modelled.
- Dictionaries: pedigrees are a sequence in dictionary iteration order. Every result is a sum over pedigrees, so the order does not matter.
- Missing phenotype or sex: a pedigree absent from the phenotype or sex dictionary (a KeyError outside any handler in the source) is not modelled. Every pedigree carries its codes.
- Markers.Marker.GetSampleGenotypes: requires every member column to lie inside the row, where the source raises IndexError. It replaces the genotypes rather than adding to a dictionary, which is the same for a fresh marker.
- Markers.Marker.ComputeMAF: an empty allele total (a ZeroDivisionError that ends the source) returns false and leaves maf unchanged.
- Markers.Marker.GetVariantDistribution: an out-of-range dosage (an IndexError that ends the source) returns false and leaves the counts unchanged. The source would already have changed some bins at that point.
- Markers.Marker.ExtendedTDT: states its bounds in terms of the stored B and C. `Tdt.ExtendedBoundsFrom` links them to `Tdt.ExtendedBounds` when those are the record's own complete counts.
- Markers.Marker.constructor: the source's `chiSq`, `Z` and bound fields start at 0.0. Here they start at `Some(0.0)`.
- Count vectors: the twelve vectors and the MIE counter are one field holding a `TrioTypeCounts` value, rather than thirteen attributes.
- Allele counting: reference and alternate counts are kept as one `Alleles` pair.
