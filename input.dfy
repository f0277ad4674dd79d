/**
 * One row of the tab-separated submission table, with the fields the
 * converter reads, and the record that pairs it with the chosen assembly.
 * Deserialisation itself is not modelled: a row arrives already parsed.
 */
module Input {
  import opened Wrappers
  import opened Text

  datatype Assembly = GRCh37 | GRCh38 {
    /** The `Display` of the assembly tag. */
    function Name(): string
    {
      match this
      case GRCh37 => "GRCh37"
      case GRCh38 => "GRCh38"
    }
  }

  datatype ClinicalSignificance =
    | Benign | Pathogenic | UncertainSignificance | NotProvided
    | LikelyBenign | LikelyPathogenic | Other | DrugResponse
  {
    /** The JSON string serde writes for the value (renames apply both ways). */
    function Json(): string
    {
      match this
      case Benign => "\"Benign\""
      case Pathogenic => "\"Pathogenic\""
      case UncertainSignificance => "\"Uncertain_significance\""
      case NotProvided => "\"not_provided\""
      case LikelyBenign => "\"Likely_benign\""
      case LikelyPathogenic => "\"Likely_pathogenic\""
      case Other => "\"other\""
      case DrugResponse => "\"drug_response\""
    }
  }

  datatype CodeType = ICD10 | SnomedCt

  datatype ConditionIdType = MeSH | MedGen | OMIM | HPO | Orphanet

  datatype DiseaseArea1 = Cancer | Dementia | InfectiousDiseases | Others | RareIntractableDiseases
  {
    function Json(): string
    {
      match this
      case Cancer => "\"Cancer\""
      case Dementia => "\"Dementia\""
      case InfectiousDiseases => "\"Infectious_diseases\""
      case Others => "\"Others\""
      case RareIntractableDiseases => "\"Rare/Intractable_diseases\""
    }
  }

  datatype DiseaseArea2 = Germline | HIV | HTLV1 | Hepatitis | Somatic
  {
    function Json(): string
    {
      match this
      case Germline => "\"Germline\""
      case HIV => "\"HIV\""
      case HTLV1 => "\"HTLV-1\""
      case Hepatitis => "\"Hepatitis\""
      case Somatic => "\"Somatic\""
    }
  }

  /** Renamed for reading only, so serde writes the variant names. */
  datatype DataOrigin = GWAS | Variant
  {
    function Json(): string
    {
      match this
      case GWAS => "\"GWAS\""
      case Variant => "\"Variant\""
    }
  }

  datatype AlleleOrigin = Germline | Somatic | Unknown | NotProvided
  {
    function Json(): string
    {
      match this
      case Germline => "\"Germline\""
      case Somatic => "\"Somatic\""
      case Unknown => "\"Unknown\""
      case NotProvided => "\"NotProvided\""
    }
  }

  /** The thirteen numerators of an age distribution: the decades from 0-9 up to 90-99, then 100 and over, unknown and not provided. */
  datatype AgeCounts = AgeCounts(
    from0To9: i32, from10To19: i32, from20To29: i32, from30To39: i32, from40To49: i32,
    from50To59: i32, from60To69: i32, from70To79: i32, from80To89: i32, from90To99: i32,
    from100: i32, unknown: i32, notProvided: i32)
  {
    function Values(): (r: seq<i32>)
      ensures |r| == 13
      ensures r[0] == from0To9 && r[1] == from10To19 && r[2] == from20To29 && r[3] == from30To39
      ensures r[4] == from40To49 && r[5] == from50To59 && r[6] == from60To69 && r[7] == from70To79
      ensures r[8] == from80To89 && r[9] == from90To99 && r[10] == from100
      ensures r[11] == unknown && r[12] == notProvided
    {
      [from0To9, from10To19, from20To29, from30To39, from40To49, from50To59, from60To69,
       from70To79, from80To89, from90To99, from100, unknown, notProvided]
    }
  }

  /** The five sex numerators of a row. */
  datatype SexCounts = SexCounts(male: i32, female: i32, mixedGender: i32, unknown: i32, notProvided: i32)

  datatype Row = Row(
    chr: string,
    rs: Option<string>,
    start: i32,
    end: i32,
    reference: Option<string>,
    alternate: Option<string>,
    gene: Option<string>,
    hgvs: Option<string>,
    clinicalSignificance: ClinicalSignificance,
    sex: SexCounts,
    age0To9Denominator: i32,
    age: AgeCounts,
    ageOfOnset: AgeCounts,
    codeType: Option<CodeType>,
    codeValue: Option<string>,
    conditionIdType: Option<ConditionIdType>,
    conditionIdValue: Option<string>,
    diseaseName: Option<string>,
    diseaseArea1: Option<DiseaseArea1>,
    diseaseArea2: Option<DiseaseArea2>,
    dataOrigin: Option<DataOrigin>,
    alleleOrigin: Option<AlleleOrigin>,
    /** A missing column reads as the empty string. */
    submissionId: string,
    submitterName1: Option<string>,
    submitterInstitute1: Option<string>,
    submitterName2: Option<string>,
    submitterInstitute2: Option<string>)

  datatype Record = Record(assembly: Assembly, row: Row)
}
