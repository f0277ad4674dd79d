/** Cross-references of a case to terminologies, and the URI each one is written as. */
module XRefs {
  import opened Wrappers
  import opened Text

  /** A reference into one vocabulary; the identifier is kept as the input gives it. */
  datatype XRef =
    | ICD10(id: string)
    | SnomedCt(id: string)
    | MeSH(id: string)
    | MedGenUID(id: string)
    | MedGenCID(id: string)
    | OMIM(id: string)
    | OMIMPS(id: string)
    | HPO(id: string)
    | Orphanet(id: string)
  {
    /** The fixed URI stem of the vocabulary. */
    function Stem(): string
    {
      match this
      case ICD10(_) => "http://purl.bioontology.org/ontology/ICD10CM/"
      case SnomedCt(_) => "http://identifiers.org/snomedct/"
      case MeSH(_) => "http://identifiers.org/mesh/"
      case MedGenUID(_) => "http://identifiers.org/medgen/"
      case MedGenCID(_) => "http://www.ncbi.nlm.nih.gov/medgen/"
      case OMIM(_) => "https://omim.org/entry/"
      case OMIMPS(_) => "https://omim.org/phenotypicSeries/"
      case HPO(_) => "http://purl.obolibrary.org/obo/HP_"
      case Orphanet(_) => "http://purl.obolibrary.org/obo/Orphanet_"
    }

    /** The `Display` text, which is also what serialisation writes: the stem, then the identifier verbatim. */
    function Display(): (r: string)
      ensures |r| == |Stem()| + |id|
      ensures Stem() <= r && r[|Stem()|..] == id
    {
      Stem() + id
    }

    /** The same vocabulary with another identifier. */
    function WithId(x: string): (r: XRef)
      ensures r.Stem() == Stem() && r.id == x
    {
      match this
      case ICD10(_) => ICD10(x)
      case SnomedCt(_) => SnomedCt(x)
      case MeSH(_) => MeSH(x)
      case MedGenUID(_) => MedGenUID(x)
      case MedGenCID(_) => MedGenCID(x)
      case OMIM(_) => OMIM(x)
      case OMIMPS(_) => OMIMPS(x)
      case HPO(_) => HPO(x)
      case Orphanet(_) => Orphanet(x)
    }
  }

  /**
   * The vocabulary a URI can only belong to, told apart by the characters
   * where the stems first differ (scheme, host, then path).
   */
  function Vocabulary(uri: string): Option<XRef>
  {
    if CharAt(uri, 4) == 's' then
      (if CharAt(uri, 17) == 'e' then Some(OMIM(""))
       else if CharAt(uri, 17) == 'p' then Some(OMIMPS(""))
       else None)
    else if CharAt(uri, 7) == 'w' then Some(MedGenCID(""))
    else if CharAt(uri, 7) == 'i' then
      (if CharAt(uri, 23) == 's' then Some(SnomedCt(""))
       else if CharAt(uri, 25) == 's' then Some(MeSH(""))
       else if CharAt(uri, 25) == 'd' then Some(MedGenUID(""))
       else None)
    else if CharAt(uri, 7) == 'p' then
      (if CharAt(uri, 12) == 'b' then Some(ICD10(""))
       else if CharAt(uri, 31) == 'H' then Some(HPO(""))
       else if CharAt(uri, 31) == 'O' then Some(Orphanet(""))
       else None)
    else None
  }

  /** The character at `k`, or a NUL past the end. */
  function CharAt(s: string, k: nat): char
  {
    if k < |s| then s[k] else '\0'
  }

  /** Reads a cross-reference back from its URI. */
  function Parse(uri: string): (r: Option<XRef>)
    ensures r.Some? ==> r.value.Display() == uri
  {
    match Vocabulary(uri)
    case None => None
    case Some(v) =>
      if v.Stem() <= uri then
        var x := v.WithId(uri[|v.Stem()|..]);
        assert x.Display() == uri;
        Some(x)
      else None
  }

  /** Every displayed cross-reference reads back as itself. */
  lemma ParseDisplay(x: XRef)
    ensures Parse(x.Display()) == Some(x)
  {
    match x
    case ICD10(_) => VocabularyOfICD10(x);
    case SnomedCt(_) => VocabularyOfSnomedCt(x);
    case MeSH(_) => VocabularyOfMeSH(x);
    case MedGenUID(_) => VocabularyOfMedGenUID(x);
    case MedGenCID(_) => VocabularyOfMedGenCID(x);
    case OMIM(_) => VocabularyOfOMIM(x);
    case OMIMPS(_) => VocabularyOfOMIMPS(x);
    case HPO(_) => VocabularyOfHPO(x);
    case Orphanet(_) => VocabularyOfOrphanet(x);
  }

  /** Within the stem, the URI's characters are the stem's. */
  lemma StemChar(x: XRef, k: nat)
    requires k < |x.Stem()|
    ensures CharAt(x.Display(), k) == x.Stem()[k]
  {
  }

  // Each vocabulary is recognised from the characters its stem is told apart by.

  lemma VocabularyOfICD10(x: XRef)
    requires x.ICD10?
    ensures Vocabulary(x.Display()) == Some(x.WithId(""))
  {
    StemChar(x, 4); StemChar(x, 7); StemChar(x, 12);
  }

  lemma VocabularyOfSnomedCt(x: XRef)
    requires x.SnomedCt?
    ensures Vocabulary(x.Display()) == Some(x.WithId(""))
  {
    StemChar(x, 4); StemChar(x, 7); StemChar(x, 23);
  }

  lemma VocabularyOfMeSH(x: XRef)
    requires x.MeSH?
    ensures Vocabulary(x.Display()) == Some(x.WithId(""))
  {
    StemChar(x, 4); StemChar(x, 7); StemChar(x, 23); StemChar(x, 25);
  }

  lemma VocabularyOfMedGenUID(x: XRef)
    requires x.MedGenUID?
    ensures Vocabulary(x.Display()) == Some(x.WithId(""))
  {
    StemChar(x, 4); StemChar(x, 7); StemChar(x, 23); StemChar(x, 25);
  }

  lemma VocabularyOfMedGenCID(x: XRef)
    requires x.MedGenCID?
    ensures Vocabulary(x.Display()) == Some(x.WithId(""))
  {
    StemChar(x, 4); StemChar(x, 7);
  }

  lemma VocabularyOfOMIM(x: XRef)
    requires x.OMIM?
    ensures Vocabulary(x.Display()) == Some(x.WithId(""))
  {
    StemChar(x, 4); StemChar(x, 17);
  }

  lemma VocabularyOfOMIMPS(x: XRef)
    requires x.OMIMPS?
    ensures Vocabulary(x.Display()) == Some(x.WithId(""))
  {
    StemChar(x, 4); StemChar(x, 17);
  }

  lemma VocabularyOfHPO(x: XRef)
    requires x.HPO?
    ensures Vocabulary(x.Display()) == Some(x.WithId(""))
  {
    StemChar(x, 4); StemChar(x, 7); StemChar(x, 12); StemChar(x, 31);
  }

  lemma VocabularyOfOrphanet(x: XRef)
    requires x.Orphanet?
    ensures Vocabulary(x.Display()) == Some(x.WithId(""))
  {
    StemChar(x, 4); StemChar(x, 7); StemChar(x, 12); StemChar(x, 31);
  }

  /** Two cross-references with the same URI are the same: no stem is a prefix of another. */
  lemma DisplayInjective(x: XRef, y: XRef)
    requires x.Display() == y.Display()
    ensures x == y
  {
    ParseDisplay(x);
    ParseDisplay(y);
  }
}
