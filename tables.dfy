/** The lookup tables of the per-marker engine (classMarker.py:6-149): the
    category keys that identify a trio's mating-type shape, and, index-aligned
    with them, the coefficient vectors of the standard and extended TDT and
    FBAT for each genetic model. The accessor functions at the end select a
    table by chromosome kind, genetic model and offspring sex, and state the
    length every count vector keyed on that table must have. */
module Tables {
  import opened Genetics

  /** Autosomal key: the unordered pair of parental genotypes (a Python set,
      so {1,1} is {1}) and the offspring's genotype */
  type AutosomalKey = (set<Genotype>, Genotype)

  /** chrX key: the ordered triple [father, mother, offspring] */
  type ChrXKey = (Genotype, Genotype, Genotype)

  // classMarker.py:12, categories X_50, X_51, X_40, X_41, X_42, X_21, X_22
  const InformativeTrioType: seq<AutosomalKey> :=
    [({G0, G1}, G0), ({G0, G1}, G1), ({G1, G1}, G0), ({G1, G1}, G1), ({G1, G1}, G2), ({G1, G2}, G1), ({G1, G2}, G2)]

  // classMarker.py:15
  const InformativeTrioTypeChrXMaleNB: seq<ChrXKey> :=
    [(G0, G1, G0), (G0, G1, G1), (G1, G1, G0), (G1, G1, G1)]

  // classMarker.py:17
  const InformativeTrioTypeChrXFemaleNB: seq<ChrXKey> :=
    [(G0, G1, G0), (G0, G1, G1), (G1, G1, G1), (G1, G1, G2)]

  // classMarker.py:21
  const NonInformativeMatingType: seq<set<Genotype>> :=
    [{G0, G0}, {G0, G2}, {G2, G2}]

  // classMarker.py:23: on chrX a homozygous mother makes any mating non-informative
  const NonInformativeMotherTypeChrX: seq<Genotype> :=
    [G0, G2]

  // classMarker.py:63
  const IncompleteTrioType: seq<AutosomalKey> :=
    [({NA, NA}, NA), ({NA, NA}, G0), ({NA, NA}, G1), ({NA, NA}, G2),
     ({NA, G0}, NA), ({NA, G0}, G0), ({NA, G0}, G1),
     ({NA, G1}, NA), ({NA, G1}, G0), ({NA, G1}, G1), ({NA, G1}, G2),
     ({NA, G2}, NA), ({NA, G2}, G1), ({NA, G2}, G2),
     ({G0, G1}, NA), ({G1, G1}, NA), ({G1, G2}, NA)]

  // classMarker.py:65
  const IncompleteTrioTypeChrXMaleNB: seq<ChrXKey> :=
    [(NA, NA, NA), (NA, NA, G0), (NA, NA, G1), (NA, G1, NA), (NA, G1, G0), (NA, G1, G1),
     (G0, NA, NA), (G0, NA, G0), (G0, NA, G1), (G1, NA, NA), (G1, NA, G0), (G1, NA, G1),
     (G0, G1, NA), (G1, G1, NA)]

  // classMarker.py:67
  const IncompleteTrioTypeChrXFemaleNB: seq<ChrXKey> :=
    [(NA, NA, NA), (NA, NA, G0), (NA, NA, G1), (NA, NA, G2), (NA, G1, NA), (NA, G1, G0), (NA, G1, G1), (NA, G1, G2),
     (G0, NA, NA), (G0, NA, G0), (G0, NA, G1), (G1, NA, NA), (G1, NA, G1), (G1, NA, G2),
     (G0, G1, NA), (G1, G1, NA)]

  // classMarker.py:26
  const InformativeTrioBincAdditive: seq<nat> :=
    [1, 0, 2, 1, 0, 1, 0]
  // classMarker.py:27
  const InformativeTrioCincAdditive: seq<nat> :=
    [0, 1, 0, 1, 2, 0, 1]
  // classMarker.py:28
  const InformativeTrioBincDominant: seq<nat> :=
    [1, 0, 1, 0, 0, 0, 0]
  // classMarker.py:29
  const InformativeTrioCincDominant: seq<nat> :=
    [0, 1, 0, 1, 1, 0, 0]
  // classMarker.py:30
  const InformativeTrioBincRecessive: seq<nat> :=
    [0, 0, 1, 1, 0, 1, 0]
  // classMarker.py:31
  const InformativeTrioCincRecessive: seq<nat> :=
    [0, 0, 0, 0, 1, 0, 1]
  // classMarker.py:33
  const InformativeTrioBincAllModelsChrXMaleNB: seq<nat> :=
    [1, 0, 1, 0]
  // classMarker.py:34
  const InformativeTrioCincAllModelsChrXMaleNB: seq<nat> :=
    [0, 1, 0, 1]
  // classMarker.py:36
  const InformativeTrioBincAdditiveChrXFemaleNB: seq<nat> :=
    [1, 0, 1, 0]
  // classMarker.py:37
  const InformativeTrioCincAdditiveChrXFemaleNB: seq<nat> :=
    [0, 1, 0, 1]
  // classMarker.py:38
  const InformativeTrioBincDominantChrXFemaleNB: seq<nat> :=
    [1, 0, 0, 0]
  // classMarker.py:39
  const InformativeTrioCincDominantChrXFemaleNB: seq<nat> :=
    [0, 1, 0, 0]
  // classMarker.py:40
  const InformativeTrioBincRecessiveChrXFemaleNB: seq<nat> :=
    [0, 0, 1, 0]
  // classMarker.py:41
  const InformativeTrioCincRecessiveChrXFemaleNB: seq<nat> :=
    [0, 0, 0, 1]
  // classMarker.py:44
  const InformativeTrioUAdditive: seq<real> :=
    [-0.5, 0.5, -1.0, 0.0, 1.0, -0.5, 0.5]
  // classMarker.py:45
  const InformativeTrioUDominant: seq<real> :=
    [-0.5, 0.5, -2.0/3.0, 1.0/3.0, 1.0/3.0, 0.0, 0.0]
  // classMarker.py:46
  const InformativeTrioURecessive: seq<real> :=
    [0.0, 0.0, -1.0/3.0, 2.0/3.0, 2.0/3.0, -0.5, 0.5]
  // classMarker.py:47
  const InformativeTrioVarUAdditive: seq<real> :=
    [0.25, 0.25, 0.5, 0.5, 0.5, 0.25, 0.25]
  // classMarker.py:48
  const InformativeTrioVarUDominant: seq<real> :=
    [0.25, 0.25, 2.0/9.0, 2.0/9.0, 2.0/9.0, 0.0, 0.0]
  // classMarker.py:49
  const InformativeTrioVarURecessive: seq<real> :=
    [0.0, 0.0, 2.0/9.0, 2.0/9.0, 2.0/9.0, 0.25, 0.25]
  // classMarker.py:51
  const InformativeTrioUAllModelsChrXMaleNB: seq<real> :=
    [-0.5, 0.5, -0.5, 0.5]
  // classMarker.py:52
  const InformativeTrioVarUAllModelsChrXMaleNB: seq<real> :=
    [0.25, 0.25, 0.25, 0.25]
  // classMarker.py:54
  const InformativeTrioUAdditiveChrXFemaleNB: seq<real> :=
    [-0.5, 0.5, -0.5, 0.5]
  // classMarker.py:55
  const InformativeTrioVarUAdditiveChrXFemaleNB: seq<real> :=
    [0.25, 0.25, 0.25, 0.25]
  // classMarker.py:56
  const InformativeTrioUDominantChrXFemaleNB: seq<real> :=
    [-0.5, 0.5, 0.0, 0.0]
  // classMarker.py:57
  const InformativeTrioVarUDominantChrXFemaleNB: seq<real> :=
    [0.25, 0.25, 0.0, 0.0]
  // classMarker.py:58
  const InformativeTrioURecessiveChrXFemaleNB: seq<real> :=
    [0.0, 0.0, -0.5, 0.5]
  // classMarker.py:59
  const InformativeTrioVarURecessiveChrXFemaleNB: seq<real> :=
    [0.0, 0.0, 0.25, 0.25]
  // classMarker.py:70
  const IncompleteTrioBincAdditive: seq<nat> :=
    [2, 2, 1, 0, 1, 1, 0, 2, 2, 1, 0, 1, 1, 0, 1, 2, 1]
  // classMarker.py:71
  const IncompleteTrioCincAdditive: seq<nat> :=
    [2, 0, 1, 2, 1, 0, 1, 2, 0, 1, 2, 1, 0, 1, 1, 2, 1]
  // classMarker.py:72
  const IncompleteTrioBincDominant: seq<nat> :=
    [1, 1, 0, 0, 1, 1, 0, 1, 1, 0, 0, 0, 0, 0, 1, 1, 0]
  // classMarker.py:73
  const IncompleteTrioCincDominant: seq<nat> :=
    [1, 0, 1, 1, 1, 0, 1, 1, 0, 1, 1, 0, 0, 0, 1, 1, 0]
  // classMarker.py:74
  const IncompleteTrioBincRecessive: seq<nat> :=
    [1, 1, 1, 0, 0, 0, 0, 1, 1, 1, 0, 1, 1, 0, 0, 1, 1]
  // classMarker.py:75
  const IncompleteTrioCincRecessive: seq<nat> :=
    [1, 0, 0, 1, 0, 0, 0, 1, 0, 0, 1, 1, 0, 1, 0, 1, 1]
  // classMarker.py:77
  const IncompleteTrioBincAllModelsChrXMaleNB: seq<nat> :=
    [1, 1, 0, 1, 1, 0, 1, 1, 0, 1, 1, 0, 1, 1]
  // classMarker.py:78
  const IncompleteTrioCincAllModelsChrXMaleNB: seq<nat> :=
    [1, 0, 1, 1, 0, 1, 1, 0, 1, 1, 0, 1, 1, 1]
  // classMarker.py:80
  const IncompleteTrioBincAdditiveChrXFemaleNB: seq<nat> :=
    [1, 1, 1, 0, 1, 1, 1, 0, 1, 1, 0, 1, 1, 0, 1, 1]
  // classMarker.py:81
  const IncompleteTrioCincAdditiveChrXFemaleNB: seq<nat> :=
    [1, 0, 1, 1, 1, 0, 1, 1, 1, 0, 1, 1, 0, 1, 1, 1]
  // classMarker.py:82
  const IncompleteTrioBincDominantChrXFemaleNB: seq<nat> :=
    [1, 1, 0, 0, 1, 1, 0, 0, 1, 1, 0, 0, 0, 0, 1, 0]
  // classMarker.py:83
  const IncompleteTrioCincDominantChrXFemaleNB: seq<nat> :=
    [1, 0, 1, 0, 1, 0, 1, 0, 1, 0, 1, 0, 0, 0, 1, 0]
  // classMarker.py:84
  const IncompleteTrioBincRecessiveChrXFemaleNB: seq<nat> :=
    [1, 0, 1, 0, 1, 0, 1, 0, 0, 0, 0, 1, 1, 0, 0, 1]
  // classMarker.py:85
  const IncompleteTrioCincRecessiveChrXFemaleNB: seq<nat> :=
    [1, 0, 0, 1, 1, 0, 0, 1, 0, 0, 0, 1, 0, 1, 0, 1]
  // classMarker.py:88
  const IncompleteCaseTrioUminAdditive: seq<real> :=
    [-1.0, -1.0, -0.5, 0.0, -0.5, -0.5, 0.0, -1.0, -1.0, -0.5, 0.5, -0.5, -0.5, 0.0, -0.5, -1.0, -0.5]
  // classMarker.py:89
  const IncompleteCaseTrioVarUminAdditive: seq<real> :=
    [0.5, 0.5, 0.25, 0.0, 0.25, 0.25, 0.0, 0.5, 0.5, 0.25, 0.25, 0.25, 0.25, 0.0, 0.25, 0.5, 0.25]
  // classMarker.py:90
  const IncompleteControlTrioUminAdditive: seq<real> :=
    [1.0, 0.0, 0.5, 1.0, 0.5, 0.0, 0.5, 1.0, -0.5, 0.5, 1.0, 0.5, 0.0, 0.5, 0.5, 1.0, 0.5]
  // classMarker.py:91
  const IncompleteControlTrioVarUminAdditive: seq<real> :=
    [0.5, 0.0, 0.25, 0.5, 0.25, 0.0, 0.25, 0.5, 0.25, 0.25, 0.5, 0.25, 0.0, 0.25, 0.25, 0.5, 0.25]
  // classMarker.py:92
  const IncompleteCaseTrioUmaxAdditive: seq<real> :=
    [1.0, 0.0, 0.5, 1.0, 0.5, 0.0, 0.5, 1.0, -0.5, 0.5, 1.0, 0.5, 0.0, 0.5, 0.5, 1.0, 0.5]
  // classMarker.py:93
  const IncompleteCaseTrioVarUmaxAdditive: seq<real> :=
    [0.5, 0.0, 0.25, 0.5, 0.25, 0.0, 0.25, 0.5, 0.25, 0.25, 0.5, 0.25, 0.0, 0.25, 0.25, 0.5, 0.25]
  // classMarker.py:94
  const IncompleteControlTrioUmaxAdditive: seq<real> :=
    [-1.0, -1.0, -0.5, 0.0, -0.5, -0.5, 0.0, -1.0, -1.0, -0.5, 0.5, -0.5, -0.5, 0.0, -0.5, -1.0, -0.5]
  // classMarker.py:95
  const IncompleteControlTrioVarUmaxAdditive: seq<real> :=
    [0.5, 0.5, 0.25, 0.0, 0.25, 0.25, 0.0, 0.5, 0.5, 0.25, 0.25, 0.25, 0.25, 0.0, 0.25, 0.5, 0.25]
  // classMarker.py:97
  const IncompleteCaseTrioUminDominant: seq<real> :=
    [-2.0/3.0, -2.0/3.0, 0.0, 0.0, -0.5, -0.5, 0.0, -2.0/3.0, -2.0/3.0, 0.0, 0.0, 0.0, 0.0, 0.0, -0.5, -2.0/3.0, 0.0]
  // classMarker.py:98
  const IncompleteCaseTrioVarUminDominant: seq<real> :=
    [2.0/9.0, 2.0/9.0, 0.0, 0.0, 0.25, 0.25, 0.0, 2.0/9.0, 2.0/9.0, 0.0, 0.0, 0.0, 0.0, 0.0, 0.25, 2.0/9.0, 0.0]
  // classMarker.py:99
  const IncompleteControlTrioUminDominant: seq<real> :=
    [0.5, 0.0, 0.5, 1.0/3.0, 0.5, 0.0, 0.5, 0.5, -0.5, 0.5, 1.0/3.0, 0.0, 0.0, 0.0, 0.5, 1.0/3.0, 0.0]
  // classMarker.py:100
  const IncompleteControlTrioVarUminDominant: seq<real> :=
    [0.25, 0.0, 0.25, 2.0/9.0, 0.25, 0.0, 0.25, 0.25, 0.25, 0.25, 2.0/9.0, 0.0, 0.0, 0.0, 0.25, 2.0/9.0, 0.0]
  // classMarker.py:101
  const IncompleteCaseTrioUmaxDominant: seq<real> :=
    [0.5, 0.0, 0.5, 1.0/3.0, 0.5, 0.0, 0.5, 0.5, -0.5, 0.5, 1.0/3.0, 0.0, 0.0, 0.0, 0.5, 1.0/3.0, 0.0]
  // classMarker.py:102
  const IncompleteCaseTrioVarUmaxDominant: seq<real> :=
    [0.25, 0.0, 0.25, 2.0/9.0, 0.25, 0.0, 0.25, 0.25, 0.25, 0.25, 2.0/9.0, 0.0, 0.0, 0.0, 0.25, 2.0/9.0, 0.0]
  // classMarker.py:103
  const IncompleteControlTrioUmaxDominant: seq<real> :=
    [-2.0/3.0, -2.0/3.0, 0.0, 0.0, -0.5, -0.5, 0.0, -2.0/3.0, -2.0/3.0, 0.0, 0.0, 0.0, 0.0, 0.0, -0.5, -2.0/3.0, 0.0]
  // classMarker.py:104
  const IncompleteControlTrioVarUmaxDominant: seq<real> :=
    [2.0/9.0, 2.0/9.0, 0.0, 0.0, 0.25, 0.25, 0.0, 2.0/9.0, 2.0/9.0, 0.0, 0.0, 0.0, 0.0, 0.0, 0.25, 2.0/9.0, 0.0]
  // classMarker.py:106
  const IncompleteCaseTrioUminRecessive: seq<real> :=
    [-0.5, -1.0/3.0, -0.5, 0.0, 0.0, 0.0, 0.0, -0.5, -1.0/3.0, -0.5, 0.5, -0.5, -0.5, 0.0, 0.0, -1.0/3.0, -0.5]
  // classMarker.py:107
  const IncompleteCaseTrioVarUminRecessive: seq<real> :=
    [0.25, 2.0/9.0, 0.25, 0.0, 0.0, 0.0, 0.0, 0.25, 2.0/9.0, 0.25, 0.25, 0.25, 0.25, 0.0, 0.0, 2.0/9.0, 0.25]
  // classMarker.py:108
  const IncompleteControlTrioUminRecessive: seq<real> :=
    [2.0/3.0, 0.0, 2.0/3.0, 2.0/3.0, 0.0, 0.0, 0.0, 2.0/3.0, 0.0, 2.0/3.0, 2.0/3.0, 0.5, 0.0, 0.5, 0.0, 2.0/3.0, 0.5]
  // classMarker.py:109
  const IncompleteControlTrioVarUminRecessive: seq<real> :=
    [2.0/9.0, 0.0, 2.0/9.0, 2.0/9.0, 0.0, 0.0, 0.0, 2.0/9.0, 0.0, 2.0/9.0, 2.0/9.0, 0.25, 0.0, 0.25, 0.0, 2.0/9.0, 0.25]
  // classMarker.py:110
  const IncompleteCaseTrioUmaxRecessive: seq<real> :=
    [2.0/3.0, 0.0, 2.0/3.0, 2.0/3.0, 0.0, 0.0, 0.0, 2.0/3.0, 0.0, 2.0/3.0, 2.0/3.0, 0.5, 0.0, 0.5, 0.0, 2.0/3.0, 0.5]
  // classMarker.py:111
  const IncompleteCaseTrioVarUmaxRecessive: seq<real> :=
    [2.0/9.0, 0.0, 2.0/9.0, 2.0/9.0, 0.0, 0.0, 0.0, 2.0/9.0, 0.0, 2.0/9.0, 2.0/9.0, 0.25, 0.0, 0.25, 0.0, 2.0/9.0, 0.25]
  // classMarker.py:112
  const IncompleteControlTrioUmaxRecessive: seq<real> :=
    [-0.5, -1.0/3.0, -0.5, 0.0, 0.0, 0.0, 0.0, -0.5, -1.0/3.0, -0.5, 0.5, -0.5, -0.5, 0.0, 0.0, -1.0/3.0, -0.5]
  // classMarker.py:113
  const IncompleteControlTrioVarUmaxRecessive: seq<real> :=
    [0.25, 2.0/9.0, 0.25, 0.0, 0.0, 0.0, 0.0, 0.25, 2.0/9.0, 0.25, 0.25, 0.25, 0.25, 0.0, 0.0, 2.0/9.0, 0.25]
  // classMarker.py:115
  const IncompleteCaseTrioUminAllModelsChrXMaleNB: seq<real> :=
    [-0.5, -0.5, 0.0, -0.5, -0.5, 0.5, -0.5, -0.5, 0.0, -0.5, -0.5, 0.0, -0.5, -0.5]
  // classMarker.py:116
  const IncompleteCaseTrioVarUminAllModelsChrXMaleNB: seq<real> :=
    [0.25, 0.25, 0.0, 0.25, 0.25, 0.25, 0.25, 0.25, 0.0, 0.25, 0.25, 0.0, 0.25, 0.25]
  // classMarker.py:117
  const IncompleteControlTrioUminAllModelsChrXMaleNB: seq<real> :=
    [0.5, 0.0, 0.5, 0.5, -0.5, 0.5, 0.5, 0.0, 0.5, 0.5, 0.0, 0.5, 0.5, 0.5]
  // classMarker.py:118
  const IncompleteControlTrioVarUminAllModelsChrXMaleNB: seq<real> :=
    [0.25, 0.0, 0.25, 0.25, 0.25, 0.25, 0.25, 0.0, 0.25, 0.25, 0.0, 0.25, 0.25, 0.25]
  // classMarker.py:119
  const IncompleteCaseTrioUmaxAllModelsChrXMaleNB: seq<real> :=
    [0.5, 0.0, 0.5, 0.5, -0.5, 0.5, 0.5, 0.0, 0.5, 0.5, 0.0, 0.5, 0.5, 0.5]
  // classMarker.py:120
  const IncompleteCaseTrioVarUmaxAllModelsChrXMaleNB: seq<real> :=
    [0.25, 0.0, 0.25, 0.25, 0.25, 0.25, 0.25, 0.0, 0.25, 0.25, 0.0, 0.25, 0.25, 0.25]
  // classMarker.py:121
  const IncompleteControlTrioUmaxAllModelsChrXMaleNB: seq<real> :=
    [-0.5, -0.5, 0.0, -0.5, -0.5, 0.5, -0.5, -0.5, 0.0, -0.5, -0.5, 0.0, -0.5, -0.5]
  // classMarker.py:122
  const IncompleteControlTrioVarUmaxAllModelsChrXMaleNB: seq<real> :=
    [0.25, 0.25, 0.0, 0.25, 0.25, 0.25, 0.25, 0.25, 0.0, 0.25, 0.25, 0.0, 0.25, 0.25]
  // classMarker.py:124
  const IncompleteCaseTrioUminAdditiveChrXFemaleNB: seq<real> :=
    [-0.5, -0.5, -0.5, 0.0, -0.5, -0.5, -0.5, 0.5, -0.5, -0.5, 0.0, -0.5, -0.5, 0.0, -0.5, -0.5]
  // classMarker.py:125
  const IncompleteCaseTrioVarUminAdditiveChrXFemaleNB: seq<real> :=
    [0.25, 0.25, 0.25, 0.0, 0.25, 0.25, 0.25, 0.25, 0.25, 0.25, 0.0, 0.25, 0.25, 0.0, 0.25, 0.25]
  // classMarker.py:126
  const IncompleteControlTrioUminAdditiveChrXFemaleNB: seq<real> :=
    [0.5, 0.0, 0.5, 0.5, 0.5, -0.5, 0.5, 0.5, 0.5, 0.0, 0.5, 0.5, 0.0, 0.5, 0.5, 0.5]
  // classMarker.py:127
  const IncompleteControlTrioVarUminAdditiveChrXFemaleNB: seq<real> :=
    [0.25, 0.0, 0.25, 0.25, 0.25, 0.25, 0.25, 0.25, 0.25, 0.0, 0.25, 0.25, 0.0, 0.25, 0.25, 0.25]
  // classMarker.py:128
  const IncompleteCaseTrioUmaxAdditiveChrXFemaleNB: seq<real> :=
    [0.5, 0.0, 0.5, 0.5, 0.5, -0.5, 0.5, 0.5, 0.5, 0.0, 0.5, 0.5, 0.0, 0.5, 0.5, 0.5]
  // classMarker.py:129
  const IncompleteCaseTrioVarUmaxAdditiveChrXFemaleNB: seq<real> :=
    [0.25, 0.0, 0.25, 0.25, 0.25, 0.25, 0.25, 0.25, 0.25, 0.0, 0.25, 0.25, 0.0, 0.25, 0.25, 0.25]
  // classMarker.py:130
  const IncompleteControlTrioUmaxAdditiveChrXFemaleNB: seq<real> :=
    [-0.5, -0.5, -0.5, 0.0, -0.5, -0.5, -0.5, 0.5, -0.5, -0.5, 0.0, -0.5, -0.5, 0.0, -0.5, -0.5]
  // classMarker.py:131
  const IncompleteControlTrioVarUmaxAdditiveChrXFemaleNB: seq<real> :=
    [0.25, 0.25, 0.25, 0.0, 0.25, 0.25, 0.25, 0.25, 0.25, 0.25, 0.0, 0.25, 0.25, 0.0, 0.25, 0.25]
  // classMarker.py:133
  const IncompleteCaseTrioUminDominantChrXFemaleNB: seq<real> :=
    [-0.5, -0.5, 0.0, 0.0, -0.5, -0.5, 0.0, 0.0, -0.5, -0.5, 0.0, 0.0, 0.0, 0.0, -0.5, 0.0]
  // classMarker.py:134
  const IncompleteCaseTrioVarUminDominantChrXFemaleNB: seq<real> :=
    [0.25, 0.25, 0.0, 0.0, 0.25, 0.25, 0.0, 0.0, 0.25, 0.25, 0.0, 0.0, 0.0, 0.0, 0.25, 0.0]
  // classMarker.py:135
  const IncompleteControlTrioUminDominantChrXFemaleNB: seq<real> :=
    [0.5, 0.0, 0.5, 0.0, 0.5, -0.5, 0.5, 0.0, 0.5, 0.0, 0.5, 0.0, 0.0, 0.0, 0.5, 0.0]
  // classMarker.py:136
  const IncompleteControlTrioVarUminDominantChrXFemaleNB: seq<real> :=
    [0.25, 0.0, 0.25, 0.0, 0.25, 0.25, 0.25, 0.0, 0.25, 0.0, 0.25, 0.0, 0.0, 0.0, 0.25, 0.0]
  // classMarker.py:137
  const IncompleteCaseTrioUmaxDominantChrXFemaleNB: seq<real> :=
    [0.5, 0.0, 0.5, 0.0, 0.5, -0.5, 0.5, 0.0, 0.5, 0.0, 0.5, 0.0, 0.0, 0.0, 0.5, 0.0]
  // classMarker.py:138
  const IncompleteCaseTrioVarUmaxDominantChrXFemaleNB: seq<real> :=
    [0.25, 0.0, 0.25, 0.0, 0.25, 0.25, 0.25, 0.0, 0.25, 0.0, 0.25, 0.0, 0.0, 0.0, 0.25, 0.0]
  // classMarker.py:139
  const IncompleteControlTrioUmaxDominantChrXFemaleNB: seq<real> :=
    [-0.5, -0.5, 0.0, 0.0, -0.5, -0.5, 0.0, 0.0, -0.5, -0.5, 0.0, 0.0, 0.0, 0.0, -0.5, 0.0]
  // classMarker.py:140
  const IncompleteControlTrioVarUmaxDominantChrXFemaleNB: seq<real> :=
    [0.25, 0.25, 0.0, 0.0, 0.25, 0.25, 0.0, 0.0, 0.25, 0.25, 0.0, 0.0, 0.0, 0.0, 0.25, 0.0]
  // classMarker.py:142
  const IncompleteCaseTrioUminRecessiveChrXFemaleNB: seq<real> :=
    [-0.5, 0.0, -0.5, 0.0, -0.5, 0.0, -0.5, 0.5, 0.0, 0.0, 0.0, -0.5, -0.5, 0.0, 0.0, -0.5]
  // classMarker.py:143
  const IncompleteCaseTrioVarUminRecessiveChrXFemaleNB: seq<real> :=
    [0.25, 0.0, 0.25, 0.0, 0.25, 0.0, 0.25, 0.25, 0.0, 0.0, 0.0, 0.25, 0.25, 0.0, 0.0, 0.25]
  // classMarker.py:144
  const IncompleteControlTrioUminRecessiveChrXFemaleNB: seq<real> :=
    [0.5, 0.0, 0.0, 0.5, 0.5, 0.0, 0.0, 0.5, 0.0, 0.0, 0.0, 0.5, 0.0, 0.5, 0.0, 0.5]
  // classMarker.py:145
  const IncompleteControlTrioVarUminRecessiveChrXFemaleNB: seq<real> :=
    [0.25, 0.0, 0.0, 0.25, 0.25, 0.0, 0.0, 0.25, 0.0, 0.0, 0.0, 0.25, 0.0, 0.25, 0.0, 0.25]
  // classMarker.py:146
  const IncompleteCaseTrioUmaxRecessiveChrXFemaleNB: seq<real> :=
    [0.5, 0.0, 0.0, 0.5, 0.5, 0.0, 0.0, 0.5, 0.0, 0.0, 0.0, 0.5, 0.0, 0.5, 0.0, 0.5]
  // classMarker.py:147
  const IncompleteCaseTrioVarUmaxRecessiveChrXFemaleNB: seq<real> :=
    [0.25, 0.0, 0.0, 0.25, 0.25, 0.0, 0.0, 0.25, 0.0, 0.0, 0.0, 0.25, 0.0, 0.25, 0.0, 0.25]
  // classMarker.py:148
  const IncompleteControlTrioUmaxRecessiveChrXFemaleNB: seq<real> :=
    [-0.5, 0.0, -0.5, 0.0, -0.5, 0.0, -0.5, 0.5, 0.0, 0.0, 0.0, -0.5, -0.5, 0.0, 0.0, -0.5]
  // classMarker.py:149
  const IncompleteControlTrioVarUmaxRecessiveChrXFemaleNB: seq<real> :=
    [0.25, 0.0, 0.25, 0.0, 0.25, 0.0, 0.25, 0.25, 0.0, 0.0, 0.0, 0.25, 0.25, 0.0, 0.0, 0.25]

  /** Which of the eight incomplete-trio FBAT bound tables: lower or upper bound */
  datatype Bound = Min | Max

  /** Length of a count vector (classMarker.py:163-174 for autosomes,
      classMarker.py:496-507 for chrX), which is also the length of every
      table keyed on it. */
  function CategoryCount(chrom: Chromosome, complete: bool, informative: bool, sex: Sex): nat
  {
    match chrom
    case Autosome =>
      if !informative then 3 else if complete then 7 else 17
    case ChrX =>
      if !informative then 2
      else if complete then 4
      else if sex == Male then 14 else 16
  }

  /** B-increments (reference alleles transmitted) of complete informative trios */
  function InformativeBinc(chrom: Chromosome, model: Model, sex: Sex): (r: seq<nat>)
    ensures |r| == CategoryCount(chrom, true, true, sex)
  {
    match (chrom, model, sex)
    case (Autosome, Additive, _) => InformativeTrioBincAdditive
    case (Autosome, Dominant, _) => InformativeTrioBincDominant
    case (Autosome, Recessive, _) => InformativeTrioBincRecessive
    case (ChrX, _, Male) => InformativeTrioBincAllModelsChrXMaleNB
    case (ChrX, Additive, Female) => InformativeTrioBincAdditiveChrXFemaleNB
    case (ChrX, Dominant, Female) => InformativeTrioBincDominantChrXFemaleNB
    case (ChrX, Recessive, Female) => InformativeTrioBincRecessiveChrXFemaleNB
  }

  /** C-increments (alternate alleles transmitted) of complete informative trios */
  function InformativeCinc(chrom: Chromosome, model: Model, sex: Sex): (r: seq<nat>)
    ensures |r| == CategoryCount(chrom, true, true, sex)
  {
    match (chrom, model, sex)
    case (Autosome, Additive, _) => InformativeTrioCincAdditive
    case (Autosome, Dominant, _) => InformativeTrioCincDominant
    case (Autosome, Recessive, _) => InformativeTrioCincRecessive
    case (ChrX, _, Male) => InformativeTrioCincAllModelsChrXMaleNB
    case (ChrX, Additive, Female) => InformativeTrioCincAdditiveChrXFemaleNB
    case (ChrX, Dominant, Female) => InformativeTrioCincDominantChrXFemaleNB
    case (ChrX, Recessive, Female) => InformativeTrioCincRecessiveChrXFemaleNB
  }

  /** FBAT score contributions of complete informative trios */
  function InformativeU(chrom: Chromosome, model: Model, sex: Sex): (r: seq<real>)
    ensures |r| == CategoryCount(chrom, true, true, sex)
  {
    match (chrom, model, sex)
    case (Autosome, Additive, _) => InformativeTrioUAdditive
    case (Autosome, Dominant, _) => InformativeTrioUDominant
    case (Autosome, Recessive, _) => InformativeTrioURecessive
    case (ChrX, _, Male) => InformativeTrioUAllModelsChrXMaleNB
    case (ChrX, Additive, Female) => InformativeTrioUAdditiveChrXFemaleNB
    case (ChrX, Dominant, Female) => InformativeTrioUDominantChrXFemaleNB
    case (ChrX, Recessive, Female) => InformativeTrioURecessiveChrXFemaleNB
  }

  /** FBAT variance contributions of complete informative trios */
  function InformativeVarU(chrom: Chromosome, model: Model, sex: Sex): (r: seq<real>)
    ensures |r| == CategoryCount(chrom, true, true, sex)
  {
    match (chrom, model, sex)
    case (Autosome, Additive, _) => InformativeTrioVarUAdditive
    case (Autosome, Dominant, _) => InformativeTrioVarUDominant
    case (Autosome, Recessive, _) => InformativeTrioVarURecessive
    case (ChrX, _, Male) => InformativeTrioVarUAllModelsChrXMaleNB
    case (ChrX, Additive, Female) => InformativeTrioVarUAdditiveChrXFemaleNB
    case (ChrX, Dominant, Female) => InformativeTrioVarUDominantChrXFemaleNB
    case (ChrX, Recessive, Female) => InformativeTrioVarURecessiveChrXFemaleNB
  }

  /** Largest possible B-increments of incomplete informative trios */
  function IncompleteBinc(chrom: Chromosome, model: Model, sex: Sex): (r: seq<nat>)
    ensures |r| == CategoryCount(chrom, false, true, sex)
  {
    match (chrom, model, sex)
    case (Autosome, Additive, _) => IncompleteTrioBincAdditive
    case (Autosome, Dominant, _) => IncompleteTrioBincDominant
    case (Autosome, Recessive, _) => IncompleteTrioBincRecessive
    case (ChrX, _, Male) => IncompleteTrioBincAllModelsChrXMaleNB
    case (ChrX, Additive, Female) => IncompleteTrioBincAdditiveChrXFemaleNB
    case (ChrX, Dominant, Female) => IncompleteTrioBincDominantChrXFemaleNB
    case (ChrX, Recessive, Female) => IncompleteTrioBincRecessiveChrXFemaleNB
  }

  /** Largest possible C-increments of incomplete informative trios */
  function IncompleteCinc(chrom: Chromosome, model: Model, sex: Sex): (r: seq<nat>)
    ensures |r| == CategoryCount(chrom, false, true, sex)
  {
    match (chrom, model, sex)
    case (Autosome, Additive, _) => IncompleteTrioCincAdditive
    case (Autosome, Dominant, _) => IncompleteTrioCincDominant
    case (Autosome, Recessive, _) => IncompleteTrioCincRecessive
    case (ChrX, _, Male) => IncompleteTrioCincAllModelsChrXMaleNB
    case (ChrX, Additive, Female) => IncompleteTrioCincAdditiveChrXFemaleNB
    case (ChrX, Dominant, Female) => IncompleteTrioCincDominantChrXFemaleNB
    case (ChrX, Recessive, Female) => IncompleteTrioCincRecessiveChrXFemaleNB
  }

  /** Autosomal extended-FBAT score bound tables */
  function AutosomalBoundU(model: Model, status: Status, bound: Bound): seq<real>
  {
    match (model, status, bound)
    case (Additive, Case, Min) => IncompleteCaseTrioUminAdditive
    case (Additive, Control, Min) => IncompleteControlTrioUminAdditive
    case (Additive, Case, Max) => IncompleteCaseTrioUmaxAdditive
    case (Additive, Control, Max) => IncompleteControlTrioUmaxAdditive
    case (Dominant, Case, Min) => IncompleteCaseTrioUminDominant
    case (Dominant, Control, Min) => IncompleteControlTrioUminDominant
    case (Dominant, Case, Max) => IncompleteCaseTrioUmaxDominant
    case (Dominant, Control, Max) => IncompleteControlTrioUmaxDominant
    case (Recessive, Case, Min) => IncompleteCaseTrioUminRecessive
    case (Recessive, Control, Min) => IncompleteControlTrioUminRecessive
    case (Recessive, Case, Max) => IncompleteCaseTrioUmaxRecessive
    case (Recessive, Control, Max) => IncompleteControlTrioUmaxRecessive
  }

  /** Autosomal extended-FBAT variance bound tables */
  function AutosomalBoundVarU(model: Model, status: Status, bound: Bound): seq<real>
  {
    match (model, status, bound)
    case (Additive, Case, Min) => IncompleteCaseTrioVarUminAdditive
    case (Additive, Control, Min) => IncompleteControlTrioVarUminAdditive
    case (Additive, Case, Max) => IncompleteCaseTrioVarUmaxAdditive
    case (Additive, Control, Max) => IncompleteControlTrioVarUmaxAdditive
    case (Dominant, Case, Min) => IncompleteCaseTrioVarUminDominant
    case (Dominant, Control, Min) => IncompleteControlTrioVarUminDominant
    case (Dominant, Case, Max) => IncompleteCaseTrioVarUmaxDominant
    case (Dominant, Control, Max) => IncompleteControlTrioVarUmaxDominant
    case (Recessive, Case, Min) => IncompleteCaseTrioVarUminRecessive
    case (Recessive, Control, Min) => IncompleteControlTrioVarUminRecessive
    case (Recessive, Case, Max) => IncompleteCaseTrioVarUmaxRecessive
    case (Recessive, Control, Max) => IncompleteControlTrioVarUmaxRecessive
  }

  /** chrX extended-FBAT score bound tables for male offspring (all models) */
  function MaleBoundU(status: Status, bound: Bound): seq<real>
  {
    match (status, bound)
    case (Case, Min) => IncompleteCaseTrioUminAllModelsChrXMaleNB
    case (Control, Min) => IncompleteControlTrioUminAllModelsChrXMaleNB
    case (Case, Max) => IncompleteCaseTrioUmaxAllModelsChrXMaleNB
    case (Control, Max) => IncompleteControlTrioUmaxAllModelsChrXMaleNB
  }

  /** chrX extended-FBAT variance bound tables for male offspring (all models) */
  function MaleBoundVarU(status: Status, bound: Bound): seq<real>
  {
    match (status, bound)
    case (Case, Min) => IncompleteCaseTrioVarUminAllModelsChrXMaleNB
    case (Control, Min) => IncompleteControlTrioVarUminAllModelsChrXMaleNB
    case (Case, Max) => IncompleteCaseTrioVarUmaxAllModelsChrXMaleNB
    case (Control, Max) => IncompleteControlTrioVarUmaxAllModelsChrXMaleNB
  }

  /** chrX extended-FBAT score bound tables for female offspring */
  function FemaleBoundU(model: Model, status: Status, bound: Bound): seq<real>
  {
    match (model, status, bound)
    case (Additive, Case, Min) => IncompleteCaseTrioUminAdditiveChrXFemaleNB
    case (Additive, Control, Min) => IncompleteControlTrioUminAdditiveChrXFemaleNB
    case (Additive, Case, Max) => IncompleteCaseTrioUmaxAdditiveChrXFemaleNB
    case (Additive, Control, Max) => IncompleteControlTrioUmaxAdditiveChrXFemaleNB
    case (Dominant, Case, Min) => IncompleteCaseTrioUminDominantChrXFemaleNB
    case (Dominant, Control, Min) => IncompleteControlTrioUminDominantChrXFemaleNB
    case (Dominant, Case, Max) => IncompleteCaseTrioUmaxDominantChrXFemaleNB
    case (Dominant, Control, Max) => IncompleteControlTrioUmaxDominantChrXFemaleNB
    case (Recessive, Case, Min) => IncompleteCaseTrioUminRecessiveChrXFemaleNB
    case (Recessive, Control, Min) => IncompleteControlTrioUminRecessiveChrXFemaleNB
    case (Recessive, Case, Max) => IncompleteCaseTrioUmaxRecessiveChrXFemaleNB
    case (Recessive, Control, Max) => IncompleteControlTrioUmaxRecessiveChrXFemaleNB
  }

  /** chrX extended-FBAT variance bound tables for female offspring */
  function FemaleBoundVarU(model: Model, status: Status, bound: Bound): seq<real>
  {
    match (model, status, bound)
    case (Additive, Case, Min) => IncompleteCaseTrioVarUminAdditiveChrXFemaleNB
    case (Additive, Control, Min) => IncompleteControlTrioVarUminAdditiveChrXFemaleNB
    case (Additive, Case, Max) => IncompleteCaseTrioVarUmaxAdditiveChrXFemaleNB
    case (Additive, Control, Max) => IncompleteControlTrioVarUmaxAdditiveChrXFemaleNB
    case (Dominant, Case, Min) => IncompleteCaseTrioVarUminDominantChrXFemaleNB
    case (Dominant, Control, Min) => IncompleteControlTrioVarUminDominantChrXFemaleNB
    case (Dominant, Case, Max) => IncompleteCaseTrioVarUmaxDominantChrXFemaleNB
    case (Dominant, Control, Max) => IncompleteControlTrioVarUmaxDominantChrXFemaleNB
    case (Recessive, Case, Min) => IncompleteCaseTrioVarUminRecessiveChrXFemaleNB
    case (Recessive, Control, Min) => IncompleteControlTrioVarUminRecessiveChrXFemaleNB
    case (Recessive, Case, Max) => IncompleteCaseTrioVarUmaxRecessiveChrXFemaleNB
    case (Recessive, Control, Max) => IncompleteControlTrioVarUmaxRecessiveChrXFemaleNB
  }

  /** Extended-FBAT score bound coefficients of incomplete informative trios,
      selected by chromosome, model, offspring sex, affection status and bound */
  function IncompleteU(chrom: Chromosome, model: Model, sex: Sex, status: Status, bound: Bound): (r: seq<real>)
    ensures |r| == CategoryCount(chrom, false, true, sex)
  {
    match (chrom, sex)
    case (Autosome, _) => AutosomalBoundU(model, status, bound)
    case (ChrX, Male) => MaleBoundU(status, bound)
    case (ChrX, Female) => FemaleBoundU(model, status, bound)
  }

  /** Extended-FBAT variance bound coefficients of incomplete informative trios */
  function IncompleteVarU(chrom: Chromosome, model: Model, sex: Sex, status: Status, bound: Bound): (r: seq<real>)
    ensures |r| == CategoryCount(chrom, false, true, sex)
  {
    match (chrom, sex)
    case (Autosome, _) => AutosomalBoundVarU(model, status, bound)
    case (ChrX, Male) => MaleBoundVarU(status, bound)
    case (ChrX, Female) => FemaleBoundVarU(model, status, bound)
  }
}
