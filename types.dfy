/** The vocabulary shared by the trio classifier, the marker aggregator and
    the statistic engine: genotype calls, trios, pedigree metadata, genetic
    models and chromosome kinds. */
module Genetics {

  datatype Option<T> = None | Some(value: T)

  /** One cell of the genotype matrix. The matrix holds decimal digit strings
      or "NA"; "0", "1" and "2" are the dosage codes, and Other(n) stands for
      any other digit string, read as the integer n. On chrX, males use "0"
      and "1" for the hemizygous reference and alternate allele. */
  datatype Genotype = G0 | G1 | G2 | NA | Other(n: nat)
  {
    /** Python's `str.isdigit()` on the cell */
    predicate IsCalled() { !NA? }

    /** Python's `int()` on a called cell */
    function Dosage(): nat
      requires IsCalled()
    {
      match this
      case G0 => 0
      case G1 => 1
      case G2 => 2
      case Other(n) => n
    }
  }

  /** The four-symbol alphabet "0", "1", "2", "NA" */
  predicate InAlphabet(g: Genotype) { !g.Other? }

  /** The three genotypes of one pedigree at one marker, by member role */
  datatype Trio = Trio(father: Genotype, mother: Genotype, child: Genotype)

  /** Per-pedigree metadata supplied by the driver: the columns of the father,
      mother and offspring in a marker row, the offspring's affection status
      (1 control, 2 case) and the offspring's sex (1 male, 2 female). */
  datatype Pedigree = Pedigree(fatherCol: nat, motherCol: nat, childCol: nat, status: int, childSex: int)

  datatype Status = Case | Control
  datatype Sex = Male | Female

  /** Affection status code 2 is a case, 1 a control; anything else is neither. */
  function StatusOf(code: int): Option<Status>
  {
    if code == 2 then Some(Case) else if code == 1 then Some(Control) else None
  }

  /** Sex code 1 is male, 2 female; anything else is neither. */
  function SexOf(code: int): Option<Sex>
  {
    if code == 1 then Some(Male) else if code == 2 then Some(Female) else None
  }

  /** The genetic model selected by the letter codes "a", "d" and "r" */
  datatype Model = Additive | Dominant | Recessive

  datatype Chromosome = Autosome | ChrX
}
