/**
 * A case: one row's observation of a variant in a submission, with the
 * disease it was seen with, its cross-references to terminologies, the
 * allele and data origin, and the age and sex counts of the patients.
 */
module Cases {
  import opened Wrappers
  import opened Text
  import opened Input
  import opened Turtle
  import opened Patterns
  import XRefs
  import Variants
  import Diseases

  // ---------------------------------------------------------------------
  // Identity
  // ---------------------------------------------------------------------

  /** `Case::id`: the submission, `#`, the variant, and `_` with the disease id when the row names a disease. */
  function Id(r: Record, digest: Diseases.Digest): (id: string)
    ensures r.row.submissionId + "#" + Variants.Id(r) <= id
    ensures Diseases.Id(r, digest).None? <==> id == r.row.submissionId + "#" + Variants.Id(r)
  {
    var key := r.row.submissionId + "#" + Variants.Id(r);
    match Diseases.Id(r, digest)
    case None => key
    case Some(d) => key + "_" + d
  }

  /** The disease id as a list of at most one field. */
  function DiseaseField(r: Record, digest: Diseases.Digest): seq<string>
  {
    match Diseases.Id(r, digest)
    case None => []
    case Some(d) => [d]
  }

  /** Hex digits are neither of the two separators of a case id. */
  lemma HexHasNoSeparator(d: string)
    requires forall i :: 0 <= i < |d| ==> IsLowerHexDigit(d[i])
    ensures '#' !in d && '_' !in d
  {
  }

  /** What follows the `#` of a case id: the variant id, and `_` with the disease id when there is one. */
  function Tail(r: Record, digest: Diseases.Digest): string
  {
    match Diseases.Id(r, digest)
    case None => Variants.Id(r)
    case Some(d) => Variants.Id(r) + "_" + d
  }

  lemma IdThenTail(r: Record, digest: Diseases.Digest)
    ensures Id(r, digest) == r.row.submissionId + ['#'] + Tail(r, digest)
  {
    var sub := r.row.submissionId;
    var key := Variants.Id(r);
    match Diseases.Id(r, digest)
    case None =>
    case Some(d) =>
      assert sub + "#" + key + "_" + d == sub + ['#'] + (key + "_" + d);
  }

  /** After the `#`, the variant's fields and then the disease id, separated by `_`. */
  lemma TailFields(r: Record, digest: Diseases.Digest)
    requires Variants.Separable(r)
    ensures '#' !in Variants.Id(r) ==> '#' !in Tail(r, digest)
    ensures Split(Tail(r, digest), '_') == Variants.KeyFields(r) + DiseaseField(r, digest)
  {
    var key := Variants.Id(r);
    Variants.IdFields(r);
    match Diseases.Id(r, digest)
    case None =>
    case Some(d) =>
      HexHasNoSeparator(d);
      assert key + "_" + d == key + ['_'] + d;
      SplitBefore(key, d, '_');
  }

  /**
   * When neither the submission id nor the variant id holds a `#` and no
   * variant field holds a `_`, the case id reads back as the submission
   * id, then the variant's fields and the disease id.
   */
  lemma IdParts(r: Record, digest: Diseases.Digest)
    requires '#' !in r.row.submissionId && '#' !in Variants.Id(r) && Variants.Separable(r)
    ensures |Split(Id(r, digest), '#')| == 2
    ensures Split(Id(r, digest), '#')[0] == r.row.submissionId
    ensures Split(Split(Id(r, digest), '#')[1], '_') == Variants.KeyFields(r) + DiseaseField(r, digest)
  {
    var tail := Tail(r, digest);
    IdThenTail(r, digest);
    TailFields(r, digest);
    SplitAfter(r.row.submissionId, tail, '#');
    SplitNoSep(tail, '#');
  }

  // ---------------------------------------------------------------------
  // Type tags and cross-references
  // ---------------------------------------------------------------------

  const CASE_TYPE := "mgendo:Case"
  const SO_SOMATIC_VARIANT := "obo:SO_0001777"
  const SO_GERMLINE_VARIANT := "obo:SO_0001778"

  /** The type tags of a case: `mgendo:Case`, then the Sequence Ontology class of a somatic or a germline variant. */
  function Types(origin: Option<AlleleOrigin>): (t: seq<string>)
    ensures 1 <= |t| <= 2 && t[0] == CASE_TYPE
    ensures |t| == 2 <==> origin == Some(AlleleOrigin.Somatic) || origin == Some(AlleleOrigin.Germline)
  {
    if origin == Some(AlleleOrigin.Somatic) then [CASE_TYPE, SO_SOMATIC_VARIANT]
    else if origin == Some(AlleleOrigin.Germline) then [CASE_TYPE, SO_GERMLINE_VARIANT]
    else [CASE_TYPE]
  }

  /** A case is tagged somatic exactly when its allele origin is somatic, and germline exactly when it is germline. */
  lemma TypesTagOrigin(origin: Option<AlleleOrigin>)
    ensures SO_SOMATIC_VARIANT in Types(origin) <==> origin == Some(AlleleOrigin.Somatic)
    ensures SO_GERMLINE_VARIANT in Types(origin) <==> origin == Some(AlleleOrigin.Germline)
  {
    assert SO_SOMATIC_VARIANT[13] != SO_GERMLINE_VARIANT[13];
  }

  /** The reference the code pair yields: ICD-10 keeps the first code-shaped match, SNOMED CT the value as it is. */
  function CodeXRefs(codeType: Option<CodeType>, value: Option<string>): (r: seq<XRefs.XRef>)
    ensures |r| <= 1
    ensures r != [] ==> codeType.Some? && value.Some? && (r[0].ICD10? || r[0].SnomedCt?)
    ensures codeType == Some(CodeType.SnomedCt) && value.Some? ==> r == [XRefs.SnomedCt(value.value)]
    ensures codeType == Some(CodeType.ICD10) && value.Some? ==>
      (r != [] <==> exists i :: MatchesAt(Icd10, value.value, i)) &&
      (r != [] ==> r[0] == XRefs.ICD10(Find(Icd10, value.value).value) && Icd10Code(r[0].id))
  {
    if codeType.None? || value.None? then []
    else
      match codeType.value
      case ICD10 =>
        (match Find(Icd10, value.value)
         case None => []
         case Some(t) => FindIcd10(value.value); [XRefs.ICD10(t)])
      case SnomedCt => [XRefs.SnomedCt(value.value)]
  }

  /** An ICD-10 code keeps its whole match; a value with no code in it yields nothing. */
  lemma Icd10Examples()
    ensures CodeXRefs(Some(CodeType.ICD10), Some("C34.9")) == [XRefs.ICD10("C34.9")]
    ensures CodeXRefs(Some(CodeType.ICD10), Some("notacode")) == []
  {
    var v := "C34.9";
    FindFirstMatch(Icd10, v, 0);
    assert DigitRun(v, 3) == 0;
    assert DigitRun(v, 2) == 1;
    assert DigitRun(v, 1) == 2;
    assert MatchEnd(Icd10, v, 0) == 5 && v[0..5] == v;
    var w := "notacode";
    forall i | 0 <= i
      ensures !MatchesAt(Icd10, w, i)
    {
      if i + 1 < |w| {
        assert !IsAsciiUpper(w[i]);
      }
    }
  }

  /** The first run of digits in `s`, as the reference `make` builds, if there is one. */
  function DigitsXRef(s: string, make: string -> XRefs.XRef): (r: seq<XRefs.XRef>)
    ensures |r| <= 1
    ensures r != [] <==> exists i :: MatchesAt(Digits, s, i)
    ensures r != [] ==> r[0] == make(Find(Digits, s).value)
    ensures r != [] ==> exists t :: t != [] && AllDigits(t) && r[0] == make(t)
  {
    match Find(Digits, s)
    case None => []
    case Some(t) => FindDigits(s); [make(t)]
  }

  /**
   * The reference the condition pair yields: MeSH keeps the first
   * identifier-shaped match; MedGen and OMIM keep the whole value when it
   * has one of two shapes, the concept or phenotypic-series shape first;
   * HPO and Orphanet keep the first run of digits.
   */
  function ConditionXRefs(idType: Option<ConditionIdType>, value: Option<string>): (r: seq<XRefs.XRef>)
    ensures |r| <= 1
    ensures r != [] ==> idType.Some? && value.Some? && !r[0].ICD10? && !r[0].SnomedCt?
    ensures idType == Some(ConditionIdType.MeSH) && value.Some? ==>
      (r != [] <==> exists i :: MatchesAt(MeshId, value.value, i)) &&
      (r != [] ==> r[0] == XRefs.MeSH(Find(MeshId, value.value).value) && MeshCode(r[0].id))
    ensures idType == Some(ConditionIdType.MedGen) && value.Some? ==>
      (r != [] <==> IsMedGenCid(value.value) || IsMedGenUid(value.value)) &&
      (r != [] ==> r[0].id == value.value && (if IsMedGenCid(value.value) then r[0].MedGenCID? else r[0].MedGenUID?))
    ensures idType == Some(ConditionIdType.OMIM) && value.Some? ==>
      (r != [] <==> IsOmimPs(value.value) || IsOmimNumber(value.value)) &&
      (r != [] ==> r[0].id == value.value && (if IsOmimPs(value.value) then r[0].OMIMPS? else r[0].OMIM?))
    ensures idType == Some(ConditionIdType.HPO) && value.Some? ==>
      (r != [] <==> exists i :: MatchesAt(Digits, value.value, i)) &&
      (r != [] ==> r[0] == XRefs.HPO(Find(Digits, value.value).value) && r[0].id != [] && AllDigits(r[0].id))
    ensures idType == Some(ConditionIdType.Orphanet) && value.Some? ==>
      (r != [] <==> exists i :: MatchesAt(Digits, value.value, i)) &&
      (r != [] ==> r[0] == XRefs.Orphanet(Find(Digits, value.value).value) && r[0].id != [] && AllDigits(r[0].id))
  {
    if idType.None? || value.None? then []
    else
      var v := value.value;
      match idType.value
      case MeSH =>
        (match Find(MeshId, v)
         case None => []
         case Some(t) => FindMesh(v); [XRefs.MeSH(t)])
      case MedGen =>
        if IsMedGenCid(v) then [XRefs.MedGenCID(v)]
        else if IsMedGenUid(v) then [XRefs.MedGenUID(v)]
        else []
      case OMIM =>
        if IsOmimPs(v) then [XRefs.OMIMPS(v)]
        else if IsOmimNumber(v) then [XRefs.OMIM(v)]
        else []
      case HPO => DigitsXRef(v, t => XRefs.HPO(t))
      case Orphanet => DigitsXRef(v, t => XRefs.Orphanet(t))
  }

  // ---------------------------------------------------------------------
  // Age histograms and sex counts
  // ---------------------------------------------------------------------

  /** A bin of a histogram: its type and the number of patients in it. */
  datatype Item = Item(typ: string, frequency: i32)

  /** A position of an ordered list, counted from one. */
  datatype Slot = Slot(index: nat, item: Item)

  /** An age distribution as an ordered list of bins. */
  datatype Histogram = Histogram(typ: seq<string>, length: nat, ageType: string, ageUnit: string, slots: seq<Slot>)

  const HISTOGRAM_TYPES := ["m2r:FrequencyDistribution", "olo:OrderedList"]
  const AGE_UNIT := "sio:SIO_001013"
  const BIN_PREFIX := "mgendo:Bin"

  /** The item type of bin `n`: `mgendo:Bin` and `n` padded with zeros to two digits. */
  function BinType(n: nat): string
  {
    BIN_PREFIX + PadZero2(NatToString(n))
  }

  /** Bins 1 to 99 carry exactly two digits, which read back as the bin's number. */
  lemma BinTypeDigits(n: nat)
    requires 1 <= n <= 99
    ensures |BinType(n)| == |BIN_PREFIX| + 2 && BinType(n)[..|BIN_PREFIX|] == BIN_PREFIX
    ensures AllDigits(BinType(n)[|BIN_PREFIX|..]) && DecimalValue(BinType(n)[|BIN_PREFIX|..]) == n
  {
    var s := NatToString(n);
    var ds := PadZero2(s);
    assert BinType(n)[|BIN_PREFIX|..] == ds;
    DecimalRoundTrip(n);
    if n < 10 {
      assert ds == ['0'] + s;
      assert ds[..1] == "0";
    } else {
      assert |NatToString(n / 10)| == 1;
    }
  }

  /** Different bins up to the ninety-ninth have different types. */
  lemma BinTypeInjective(m: nat, n: nat)
    requires 1 <= m <= 99 && 1 <= n <= 99 && BinType(m) == BinType(n)
    ensures m == n
  {
    BinTypeDigits(m);
    BinTypeDigits(n);
  }

  /** `Histogram::new`: one slot per value, numbered from one, each with its bin type and the value. */
  function NewHistogram(values: seq<i32>, ageType: string, ageUnit: string): (h: Histogram)
    ensures h.typ == HISTOGRAM_TYPES && h.ageType == ageType && h.ageUnit == ageUnit
    ensures h.length == |values| == |h.slots|
    ensures forall i :: 0 <= i < |values| ==> h.slots[i].index == i + 1 && h.slots[i].item.frequency == values[i]
    ensures forall i :: 0 <= i < |values| ==> h.slots[i].item.typ == BinType(i + 1)
  {
    Histogram(HISTOGRAM_TYPES, |values|, ageType, ageUnit,
      seq(|values|, i requires 0 <= i < |values| => Slot(i + 1, Item(BinType(i + 1), values[i]))))
  }

  /** The bins of a histogram of at most 99 values have pairwise different types. */
  lemma HistogramBinsDistinct(values: seq<i32>, ageType: string, ageUnit: string, i: nat, j: nat)
    requires |values| <= 99 && i < j < |values|
    ensures NewHistogram(values, ageType, ageUnit).slots[i].item.typ != NewHistogram(values, ageType, ageUnit).slots[j].item.typ
  {
    if BinType(i + 1) == BinType(j + 1) {
      BinTypeInjective(i + 1, j + 1);
    }
  }

  /** The count of patients of one sex. */
  datatype SexCount = SexCount(typ: string, labelText: string, count: i32)

  const SEX_COUNT_TYPE := "mgendo:SexCount"
  const SEX_LABELS := ["male", "female", "mixed gender", "unknown", "not provided"]

  /** `SexCount::new`. */
  function NewSexCount(labelText: string, count: i32): SexCount
  {
    SexCount(SEX_COUNT_TYPE, labelText, count)
  }

  /** The five sex counts of a row: male, female, mixed gender, unknown and not provided, in that order. */
  function SexCountsOf(s: SexCounts): (r: seq<SexCount>)
    ensures |r| == |SEX_LABELS|
    ensures forall i :: 0 <= i < |r| ==> r[i].typ == SEX_COUNT_TYPE && r[i].labelText == SEX_LABELS[i]
    ensures r[0].count == s.male && r[1].count == s.female && r[2].count == s.mixedGender
    ensures r[3].count == s.unknown && r[4].count == s.notProvided
  {
    [NewSexCount(SEX_LABELS[0], s.male), NewSexCount(SEX_LABELS[1], s.female),
     NewSexCount(SEX_LABELS[2], s.mixedGender), NewSexCount(SEX_LABELS[3], s.unknown),
     NewSexCount(SEX_LABELS[4], s.notProvided)]
  }

  // ---------------------------------------------------------------------
  // Blank nodes of the Turtle statement
  // ---------------------------------------------------------------------

  /** The item of a bin: its type and its frequency. */
  function ItemTerm(it: Item): Term
  {
    Blank([PredObjs("a", Inline, [Name(it.typ)]),
           PredObjs("rdf:value", Stacked, [Name(IntToString(it.frequency))])])
  }

  /** A bin's slot: its index and its item. */
  function SlotTerm(s: Slot): Term
  {
    Blank([PredObjs("olo:index", Stacked, [Name(NatToString(s.index))]),
           PredObjs("olo:item", Stacked, [ItemTerm(s.item)])])
  }

  function SlotTerms(slots: seq<Slot>): (r: seq<Term>)
    ensures |r| == |slots| && forall i :: 0 <= i < |slots| ==> r[i] == SlotTerm(slots[i])
  {
    seq(|slots|, i requires 0 <= i < |slots| => SlotTerm(slots[i]))
  }

  /** A histogram: its types, its length, the age type as a literal, the unit, then its slots. */
  function HistogramTerm(h: Histogram): Term
  {
    Blank([PredObjs("a", Inline, [Name(Join(h.typ, ", "))]),
           PredObjs("olo:length", Stacked, [Name(NatToString(h.length))]),
           PredObjs("mgendo:age_type", Stacked, [Name(Literal(h.ageType))]),
           PredObjs("sio:SIO_000221", Stacked, [Name(Pname(h.ageUnit))]),
           PredObjs("olo:slot", Nested, SlotTerms(h.slots))])
  }

  function HistogramTerms(hs: seq<Histogram>): (r: seq<Term>)
    ensures |r| == |hs| && forall i :: 0 <= i < |hs| ==> r[i] == HistogramTerm(hs[i])
  {
    seq(|hs|, i requires 0 <= i < |hs| => HistogramTerm(hs[i]))
  }

  /** A sex count: its type, its label as a literal and the count. */
  function SexCountTerm(x: SexCount): Term
  {
    Blank([PredObjs("a", Inline, [Name(x.typ)]),
           PredObjs("rdfs:label", Stacked, [Name(Literal(x.labelText))]),
           PredObjs("rdf:value", Stacked, [Name(IntToString(x.count))])])
  }

  function SexCountTerms(xs: seq<SexCount>): (r: seq<Term>)
    ensures |r| == |xs| && forall i :: 0 <= i < |xs| ==> r[i] == SexCountTerm(xs[i])
  {
    seq(|xs|, i requires 0 <= i < |xs| => SexCountTerm(xs[i]))
  }

  // ----- items -----
  // Every piece of layout below is written as the layout functions give
  // it for the blank node's depth; they are the spaces the converter writes.

  /** The item of a bin at depth three: its type, its frequency and the closing bracket. */
  method WriteItem(buf: string, it: Item) returns (out: string)
    ensures out == buf + RenderTerm(ItemTerm(it), 3)
  {
    var value := IntToString(it.frequency);
    var open := "\n" + Indent(4) + "a" + " ";
    var mid := Next(4) + "rdf:value" + " ";
    var close := "\n" + Indent(3) + "]";
    out := buf + "[" + open + it.typ + mid + value + close;
    Blank2Names(PredObjs("a", Inline, [Name(it.typ)]), PredObjs("rdf:value", Stacked, [Name(value)]), 3);
    Chain6(buf, "[", open, it.typ, mid, value, close);
  }

  // ----- bins -----

  /** A bin's slot at depth two: its index, then its item. */
  method WriteBin(buf: string, s: Slot) returns (out: string)
    ensures out == buf + RenderTerm(SlotTerm(s), 2)
  {
    var index := NatToString(s.index);
    var open := "\n" + Indent(3) + "olo:index" + " ";
    var mid := Next(3) + "olo:item" + " ";
    var close := "\n" + Indent(2) + "]";
    out := WriteItem(buf + "[" + open + index + mid, s.item);
    ghost var item := RenderTerm(ItemTerm(s.item), 3);
    out := out + close;
    Blank2(PredObjs("olo:index", Stacked, [Name(index)]), PredObjs("olo:item", Stacked, [ItemTerm(s.item)]), 2);
    Chain6(buf, "[", open, index, mid, item, close);
  }

  /** Slot `i` of a histogram, after the ones before it. */
  method WriteBinObject(buf: string, line: string, slots: seq<Slot>, i: nat) returns (out: string)
    requires i < |slots|
    requires line == buf + Lines([PredObjs("olo:slot", Nested, SlotTerms(slots)[..i])], 2, Next(2))
    ensures out == buf + Lines([PredObjs("olo:slot", Nested, SlotTerms(slots)[..i + 1])], 2, Next(2))
  {
    var written := if i == 0 then Next(2) + "olo:slot" + " " else " , ";
    NestedStep(buf, "olo:slot", SlotTerms(slots), i, 2, written);
    out := WriteBin(line + written, slots[i]);
  }

  /** The slots line of a histogram: the predicate before the first slot, ` , ` before each later one. */
  method WriteBins(buf: string, slots: seq<Slot>) returns (out: string)
    ensures out == buf + Lines([PredObjs("olo:slot", Nested, SlotTerms(slots))], 2, Next(2))
  {
    out := buf;
    var i := 0;
    LinesSingle(PredObjs("olo:slot", Nested, SlotTerms(slots)[..0]), 2, Next(2));
    while i < |slots|
      invariant 0 <= i <= |slots|
      invariant out == buf + Lines([PredObjs("olo:slot", Nested, SlotTerms(slots)[..i])], 2, Next(2))
    {
      out := WriteBinObject(buf, out, slots, i);
      i := i + 1;
    }
    assert SlotTerms(slots)[..i] == SlotTerms(slots);
  }

  // ----- histograms -----

  /** The first line of a blank node of one-name lines at depth one, written after `buf`. */
  lemma OpeningAt(pos: seq<PredObjs>, lead: string, buf: string, out: string)
    requires pos != [] && |pos[0].objs| == 1 && pos[0].objs[0].Name?
    requires out == buf + (lead + pos[0].pred + " " + pos[0].objs[0].text)
    ensures AnyWritten(pos[..1]) && out == buf + Lines(pos[..1], 2, lead)
  {
    FirstLine(pos, 2, lead);
    RenderOne(pos[0], 2);
  }

  /** The four name lines that open a histogram at depth one. */
  method WriteHistogramHead(buf: string, h: Histogram) returns (out: string)
    ensures AnyWritten(HistogramTerm(h).pos[..4])
    ensures out == buf + Lines(HistogramTerm(h).pos[..4], 2, "\n" + Indent(2))
  {
    var pos := HistogramTerm(h).pos;
    var lead := "\n" + Indent(2);
    out := buf + (lead + "a" + " " + Join(h.typ, ", "));
    OpeningAt(pos, lead, buf, out);
    var before := out;
    var piece := Next(2) + "olo:length" + " " + NatToString(h.length);
    NameLineAt(pos[1], 2, Next(2) + "olo:length" + " ");
    out := out + piece;
    LinesAppend(pos, 1, 2, lead, buf, before, piece);
    before := out;
    piece := Next(2) + "mgendo:age_type" + " " + Literal(h.ageType);
    NameLineAt(pos[2], 2, Next(2) + "mgendo:age_type" + " ");
    out := out + piece;
    LinesAppend(pos, 2, 2, lead, buf, before, piece);
    before := out;
    piece := Next(2) + "sio:SIO_000221" + " " + Pname(h.ageUnit);
    NameLineAt(pos[3], 2, Next(2) + "sio:SIO_000221" + " ");
    out := out + piece;
    LinesAppend(pos, 3, 2, lead, buf, before, piece);
  }

  /** A histogram at depth one: the four name lines, the slots, and the closing bracket. */
  method WriteHistogram(buf: string, h: Histogram) returns (out: string)
    ensures out == buf + RenderTerm(HistogramTerm(h), 1)
  {
    var pos := HistogramTerm(h).pos;
    var lead := "\n" + Indent(2);
    var start := buf + "[";
    out := WriteHistogramHead(start, h);
    var before := out;
    out := WriteBins(out, h.slots);
    LinesAppend(pos, 4, 2, lead, start, before, Lines([pos[4]], 2, Next(2)));
    assert pos[..5] == pos;
    var close := "\n" + Indent(1) + "]";
    out := out + close;
    BlankAfter(buf, pos, 1, Lines(pos, 2, lead), close, out);
  }

  /** Histogram `i` of a case, after the ones before it. */
  method WriteHistogramObject(buf: string, line: string, hs: seq<Histogram>, i: nat) returns (out: string)
    requires i < |hs|
    requires line == buf + Lines([PredObjs("mgendo:case_age_range_count", Nested, HistogramTerms(hs)[..i])], 1, Next(1))
    ensures out == buf + Lines([PredObjs("mgendo:case_age_range_count", Nested, HistogramTerms(hs)[..i + 1])], 1, Next(1))
  {
    var written := if i == 0 then Next(1) + "mgendo:case_age_range_count" + " " else " , ";
    NestedStep(buf, "mgendo:case_age_range_count", HistogramTerms(hs), i, 1, written);
    out := WriteHistogram(line + written, hs[i]);
  }

  /** The age histograms of a case, one blank node each. */
  method WriteHistograms(buf: string, hs: seq<Histogram>) returns (out: string)
    ensures out == buf + Lines([PredObjs("mgendo:case_age_range_count", Nested, HistogramTerms(hs))], 1, Next(1))
  {
    out := buf;
    var i := 0;
    LinesSingle(PredObjs("mgendo:case_age_range_count", Nested, HistogramTerms(hs)[..0]), 1, Next(1));
    while i < |hs|
      invariant 0 <= i <= |hs|
      invariant out == buf + Lines([PredObjs("mgendo:case_age_range_count", Nested, HistogramTerms(hs)[..i])], 1, Next(1))
    {
      out := WriteHistogramObject(buf, out, hs, i);
      i := i + 1;
    }
    assert HistogramTerms(hs)[..i] == HistogramTerms(hs);
  }

  // ----- sex counts -----

  /** A sex count at depth one: its type, its label, its count and the closing bracket. */
  method WriteSexCount(buf: string, x: SexCount) returns (out: string)
    ensures out == buf + RenderTerm(SexCountTerm(x), 1)
  {
    var labelText := Literal(x.labelText);
    var count := IntToString(x.count);
    var open := "\n" + Indent(2) + "a" + " " + x.typ;
    var mid1 := Next(2) + "rdfs:label" + " ";
    var mid2 := Next(2) + "rdf:value" + " ";
    var close := "\n" + Indent(1) + "]";
    out := buf + "[" + open + mid1 + labelText + mid2 + count + close;
    Blank3(PredObjs("a", Inline, [Name(x.typ)]), PredObjs("rdfs:label", Stacked, [Name(labelText)]),
           PredObjs("rdf:value", Stacked, [Name(count)]), 1);
    Chain7(buf, "[", open, mid1, labelText, mid2, count, close);
  }

  /** Sex count `i` of a case, after the ones before it. */
  method WriteSexCountObject(buf: string, line: string, xs: seq<SexCount>, i: nat) returns (out: string)
    requires i < |xs|
    requires line == buf + Lines([PredObjs("mgendo:case_sex_count", Nested, SexCountTerms(xs)[..i])], 1, Next(1))
    ensures out == buf + Lines([PredObjs("mgendo:case_sex_count", Nested, SexCountTerms(xs)[..i + 1])], 1, Next(1))
  {
    var written := if i == 0 then Next(1) + "mgendo:case_sex_count" + " " else " , ";
    NestedStep(buf, "mgendo:case_sex_count", SexCountTerms(xs), i, 1, written);
    out := WriteSexCount(line + written, xs[i]);
  }

  /** The sex counts of a case, one blank node each. */
  method WriteSexCounts(buf: string, xs: seq<SexCount>) returns (out: string)
    ensures out == buf + Lines([PredObjs("mgendo:case_sex_count", Nested, SexCountTerms(xs))], 1, Next(1))
  {
    out := buf;
    var i := 0;
    LinesSingle(PredObjs("mgendo:case_sex_count", Nested, SexCountTerms(xs)[..0]), 1, Next(1));
    while i < |xs|
      invariant 0 <= i <= |xs|
      invariant out == buf + Lines([PredObjs("mgendo:case_sex_count", Nested, SexCountTerms(xs)[..i])], 1, Next(1))
    {
      out := WriteSexCountObject(buf, out, xs, i);
      i := i + 1;
    }
    assert SexCountTerms(xs)[..i] == SexCountTerms(xs);
  }

  // ---------------------------------------------------------------------
  // The case
  // ---------------------------------------------------------------------

  /** The `<uri>` forms of the cross-references, in order. */
  function Iris(xs: seq<XRefs.XRef>): (r: seq<string>)
    ensures |r| == |xs| && forall i :: 0 <= i < |xs| ==> r[i] == "<" + xs[i].Display() + ">"
  {
    seq(|xs|, i requires 0 <= i < |xs| => "<" + xs[i].Display() + ">")
  }

  /** One case, the fields as `From` sets them. */
  datatype Case = Case(
    id: string,
    typ: seq<string>,
    variant: string,
    disease: Option<string>,
    submission: string,
    variantType: Option<DataOrigin>,
    alleleOrigin: Option<AlleleOrigin>,
    diseaseArea: Option<DiseaseArea1>,
    subDiseaseArea: Option<DiseaseArea2>,
    xref: seq<XRefs.XRef>,
    significance: ClinicalSignificance,
    countTotal: i32,
    ageRangeCount: seq<Histogram>,
    sexCount: seq<SexCount>)
  {
    function Subject(): string
    {
      "mgend_case:" + Pname(id)
    }

    function Opening(): PredObjs
    {
      PredObjs("a", Inline, [Name(Join(typ, ", "))])
    }

    /** The cross-references as one line of `<uri>`s, when there are any. */
    function SeeAlso(): Option<string>
    {
      if xref == [] then None else Some(Join(Iris(xref), ", "))
    }

    /** The cross-references, the significance and the total count. */
    function Facts(): seq<PredObjs>
    {
      [PredObjs("rdfs:seeAlso", Stacked, Named(SeeAlso())),
       PredObjs("mgendo:case_significance", Stacked, [Name(significance.Json())]),
       PredObjs("mgendo:case_count_total", Stacked, [Name(IntToString(countTotal))])]
    }

    /** The age histograms and the sex counts, as blank nodes. */
    function Counts(): seq<PredObjs>
    {
      [PredObjs("mgendo:case_age_range_count", Nested, HistogramTerms(ageRangeCount)),
       PredObjs("mgendo:case_sex_count", Nested, SexCountTerms(sexCount))]
    }

    /** The predicate lines of the case's statement, in the order `to_ttl` writes them. */
    function Doc(): seq<PredObjs>
    {
      [Opening()] + Links() + Origins() + Facts() + Counts()
    }

    method WriteOpening() returns (out: string)
      ensures out == Subject() + Lines([Opening()], 1, " ")
    {
      out := "mgend_case:" + Pname(id) + " a " + Join(typ, ", ");
      OpeningLine(Subject(), [Opening()]);
      assert [Opening()][..1] == [Opening()];
    }

    function DiseaseName(): Option<string>
    {
      if disease.Some? then Some(Pname(disease.value)) else None
    }

    /** The links to the variant, the submission and the disease. */
    function Links(): seq<PredObjs>
    {
      [PredObjs("mgendo:variant", Stacked, [Name(Pname(variant))]),
       PredObjs("mgendo:submission", Stacked, [Name(Pname(submission))]),
       PredObjs("mgendo:disease", Stacked, Named(DiseaseName()))]
    }

    method WriteLinks(buf: string) returns (out: string)
      ensures out == buf + Lines(Links(), 1, Next(1))
    {
      out := WriteNamed(buf, "mgendo:variant", Pname(variant));
      out := WriteNamed(out, "mgendo:submission", Pname(submission));
      out := WriteOptionalNamed(out, "mgendo:disease", DiseaseName());
      Group3(buf, Links()[0], Links()[1], Links()[2], out);
    }

    function VariantTypeJson(): Option<string> { if variantType.Some? then Some(variantType.value.Json()) else None }
    function AlleleOriginJson(): Option<string> { if alleleOrigin.Some? then Some(alleleOrigin.value.Json()) else None }
    function DiseaseAreaJson(): Option<string> { if diseaseArea.Some? then Some(diseaseArea.value.Json()) else None }
    function SubDiseaseAreaJson(): Option<string>
    {
      if subDiseaseArea.Some? then Some(subDiseaseArea.value.Json()) else None
    }

    /** The data origin, allele origin and disease areas, each as its JSON string when present. */
    function Origins(): seq<PredObjs>
    {
      [PredObjs("mgendo:variant_type", Stacked, Named(VariantTypeJson())),
       PredObjs("mgendo:allele_origin", Stacked, Named(AlleleOriginJson())),
       PredObjs("mgendo:disease_area", Stacked, Named(DiseaseAreaJson())),
       PredObjs("mgendo:sub_disease_area", Stacked, Named(SubDiseaseAreaJson()))]
    }

    method WriteOrigins(buf: string) returns (out: string)
      ensures out == buf + Lines(Origins(), 1, Next(1))
    {
      out := WriteOptionalNamed(buf, "mgendo:variant_type", VariantTypeJson());
      out := WriteOptionalNamed(out, "mgendo:allele_origin", AlleleOriginJson());
      out := WriteOptionalNamed(out, "mgendo:disease_area", DiseaseAreaJson());
      out := WriteOptionalNamed(out, "mgendo:sub_disease_area", SubDiseaseAreaJson());
      Group4(buf, Origins()[0], Origins()[1], Origins()[2], Origins()[3], out);
    }

    method WriteFacts(buf: string) returns (out: string)
      ensures out == buf + Lines(Facts(), 1, Next(1))
    {
      out := WriteOptionalNamed(buf, "rdfs:seeAlso", SeeAlso());
      out := WriteNamed(out, "mgendo:case_significance", significance.Json());
      out := WriteNamed(out, "mgendo:case_count_total", IntToString(countTotal));
      Group3(buf, Facts()[0], Facts()[1], Facts()[2], out);
    }

    method WriteCounts(buf: string) returns (out: string)
      ensures out == buf + Lines(Counts(), 1, Next(1))
    {
      out := WriteHistograms(buf, ageRangeCount);
      out := WriteSexCounts(out, sexCount);
      Group2(buf, Counts()[0], Counts()[1], out);
    }

    /** `Case::to_ttl`: the statement of the case, line by line, then ` .`. */
    method ToTtl() returns (out: string)
      ensures out == Statement(Subject(), Doc())
    {
      var h := WriteOpening();
      out := WriteLinks(h);
      out := WriteOrigins(out);
      out := WriteFacts(out);
      out := WriteCounts(out);
      out := out + " .\n";
      StatementOfGroups(Subject(), Opening(), Links(), Origins(), Facts(), Counts(), h,
                        Lines(Links(), 1, Next(1)), Lines(Origins(), 1, Next(1)),
                        Lines(Facts(), 1, Next(1)), Lines(Counts(), 1, Next(1)));
    }
  }

  /** The links have a disease line exactly when the case has a disease. */
  lemma LinksEmitDisease(c: Case)
    ensures Emits(c.Links(), "mgendo:disease") <==> c.disease.Some?
  {
    assert "mgendo:variant"[7] != "mgendo:disease"[7];
    if c.disease.Some? {
      assert c.Links()[2].pred == "mgendo:disease";
    }
  }

  /** No other group of lines has a disease line. */
  lemma OnlyLinksEmitDisease(c: Case)
    ensures !Emits([c.Opening()], "mgendo:disease") && !Emits(c.Origins(), "mgendo:disease")
    ensures !Emits(c.Facts(), "mgendo:disease") && !Emits(c.Counts(), "mgendo:disease")
  {
  }

  /** The statement has a disease line exactly when the case has a disease. */
  lemma DiseaseLineIffPresent(c: Case)
    ensures Emits(c.Doc(), "mgendo:disease") <==> c.disease.Some?
  {
    var pred := "mgendo:disease";
    EmitsConcat([c.Opening()], c.Links(), pred);
    EmitsConcat([c.Opening()] + c.Links(), c.Origins(), pred);
    EmitsConcat([c.Opening()] + c.Links() + c.Origins(), c.Facts(), pred);
    EmitsConcat([c.Opening()] + c.Links() + c.Origins() + c.Facts(), c.Counts(), pred);
    LinksEmitDisease(c);
    OnlyLinksEmitDisease(c);
  }

  /** The statement has a `rdfs:seeAlso` line exactly when the case has cross-references. */
  lemma SeeAlsoLineIffXRefs(c: Case)
    ensures Emits(c.Doc(), "rdfs:seeAlso") <==> c.xref != []
  {
    var pred := "rdfs:seeAlso";
    EmitsConcat([c.Opening()], c.Links(), pred);
    EmitsConcat([c.Opening()] + c.Links(), c.Origins(), pred);
    EmitsConcat([c.Opening()] + c.Links() + c.Origins(), c.Facts(), pred);
    EmitsConcat([c.Opening()] + c.Links() + c.Origins() + c.Facts(), c.Counts(), pred);
    if c.xref != [] {
      assert c.Facts()[0].pred == pred;
    }
  }

  /** The type tags, pushed one by one: `mgendo:Case`, then the variant's class for a somatic or germline origin. */
  method TypeTags(origin: Option<AlleleOrigin>) returns (typ: seq<string>)
    ensures typ == Types(origin)
  {
    typ := [CASE_TYPE];
    if origin == Some(AlleleOrigin.Somatic) {
      typ := typ + [SO_SOMATIC_VARIANT];
    } else if origin == Some(AlleleOrigin.Germline) {
      typ := typ + [SO_GERMLINE_VARIANT];
    }
  }

  /** The cross-references, pushed one by one: the code pair's first, then the condition pair's. */
  method CollectXRefs(row: Row) returns (xref: seq<XRefs.XRef>)
    ensures xref == CodeXRefs(row.codeType, row.codeValue) + ConditionXRefs(row.conditionIdType, row.conditionIdValue)
    ensures |xref| <= 2
  {
    xref := [];
    xref := xref + CodeXRefs(row.codeType, row.codeValue);
    xref := xref + ConditionXRefs(row.conditionIdType, row.conditionIdValue);
  }

  /**
   * The case `From<&Record> for Case` builds: the id, the type tags and the
   * cross-references, the links to the variant, the submission and the
   * disease, the row's origins, significance and total, the two age
   * histograms and the sex counts.
   */
  function CaseOf(r: Record, digest: Diseases.Digest): Case
  {
    var row := r.row;
    var disease := Diseases.Id(r, digest);
    Case(
      Id(r, digest),
      Types(row.alleleOrigin),
      "mgend_variant:" + Variants.Id(r),
      if disease.Some? then Some("mgend_disease:" + disease.value) else None,
      "mgend_submission:" + row.submissionId,
      row.dataOrigin,
      row.alleleOrigin,
      row.diseaseArea1,
      row.diseaseArea2,
      CodeXRefs(row.codeType, row.codeValue) + ConditionXRefs(row.conditionIdType, row.conditionIdValue),
      row.clinicalSignificance,
      row.age0To9Denominator,
      [NewHistogram(row.age.Values(), "Age", AGE_UNIT), NewHistogram(row.ageOfOnset.Values(), "AgeOfOnset", AGE_UNIT)],
      SexCountsOf(row.sex))
  }

  /**
   * Every field of the case is what the row says: the id and the type tags,
   * the disease link exactly when the row names a disease, the links to the
   * variant and the submission, the origins, the significance, the total
   * (the denominator of the youngest age bin), the code pair's references
   * before the condition's, the two histograms and the sex counts.
   */
  lemma CaseOfFields(r: Record, digest: Diseases.Digest)
    ensures var c := CaseOf(r, digest);
      && c.id == Id(r, digest) && c.typ == Types(r.row.alleleOrigin)
      && (c.disease.None? <==> r.row.diseaseName.None?)
      && (c.disease.Some? ==> c.disease.value == "mgend_disease:" + Diseases.Id(r, digest).value)
      && c.variant == "mgend_variant:" + Variants.Id(r) && c.submission == "mgend_submission:" + r.row.submissionId
      && c.variantType == r.row.dataOrigin && c.alleleOrigin == r.row.alleleOrigin
      && c.diseaseArea == r.row.diseaseArea1 && c.subDiseaseArea == r.row.diseaseArea2
      && c.significance == r.row.clinicalSignificance && c.countTotal == r.row.age0To9Denominator
      && c.xref == CodeXRefs(r.row.codeType, r.row.codeValue) + ConditionXRefs(r.row.conditionIdType, r.row.conditionIdValue)
      && c.ageRangeCount == [NewHistogram(r.row.age.Values(), "Age", AGE_UNIT),
                             NewHistogram(r.row.ageOfOnset.Values(), "AgeOfOnset", AGE_UNIT)]
      && c.sexCount == SexCountsOf(r.row.sex)
  {
  }

  /**
   * A case has at most the code pair and the condition pair as
   * cross-references, and two histograms of thirteen bins, by age and by
   * age of onset, whose frequencies are the row's counts in bin order.
   */
  lemma CaseOfShape(r: Record, digest: Diseases.Digest)
    ensures var c := CaseOf(r, digest);
      && |c.xref| <= 2
      && |c.ageRangeCount| == 2 && c.ageRangeCount[0].ageType == "Age" && c.ageRangeCount[1].ageType == "AgeOfOnset"
      && (forall h :: h in c.ageRangeCount ==> h.length == 13 && |h.slots| == 13 && h.ageUnit == AGE_UNIT)
      && (forall i :: 0 <= i < 13 ==> c.ageRangeCount[0].slots[i].item.frequency == r.row.age.Values()[i])
      && (forall i :: 0 <= i < 13 ==> c.ageRangeCount[1].slots[i].item.frequency == r.row.ageOfOnset.Values()[i])
  {
    var c := CaseOf(r, digest);
    AgeHistograms(r.row.age.Values(), r.row.ageOfOnset.Values(), c.ageRangeCount);
  }

  /** The pair of histograms a case holds, for thirteen counts each. */
  lemma AgeHistograms(age: seq<i32>, onset: seq<i32>, hs: seq<Histogram>)
    requires |age| == 13 && |onset| == 13
    requires hs == [NewHistogram(age, "Age", AGE_UNIT), NewHistogram(onset, "AgeOfOnset", AGE_UNIT)]
    ensures |hs| == 2 && hs[0].ageType == "Age" && hs[1].ageType == "AgeOfOnset"
    ensures forall h :: h in hs ==> h.length == 13 && |h.slots| == 13 && h.ageUnit == AGE_UNIT
    ensures forall i :: 0 <= i < 13 ==> hs[0].slots[i].item.frequency == age[i]
    ensures forall i :: 0 <= i < 13 ==> hs[1].slots[i].item.frequency == onset[i]
  {
  }

  /** `From<&Record> for Case`, with the type tags and cross-references pushed one by one. */
  method From(r: Record, digest: Diseases.Digest) returns (c: Case)
    ensures c == CaseOf(r, digest)
  {
    var row := r.row;
    var typ := TypeTags(row.alleleOrigin);
    var xref := CollectXRefs(row);
    var disease := Diseases.Id(r, digest);
    c := Case(
      Id(r, digest),
      typ,
      "mgend_variant:" + Variants.Id(r),
      if disease.Some? then Some("mgend_disease:" + disease.value) else None,
      "mgend_submission:" + row.submissionId,
      row.dataOrigin,
      row.alleleOrigin,
      row.diseaseArea1,
      row.diseaseArea2,
      xref,
      row.clinicalSignificance,
      row.age0To9Denominator,
      [NewHistogram(row.age.Values(), "Age", AGE_UNIT), NewHistogram(row.ageOfOnset.Values(), "AgeOfOnset", AGE_UNIT)],
      SexCountsOf(row.sex));
  }
}
