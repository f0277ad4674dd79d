/**
 * Variants: one per distinct assembly, chromosome, span and allele pair,
 * classified by the lengths of its alleles and placed on the reference by
 * a FALDO location, with the cases and diseases that mention it.
 */
module Variants {
  import opened Wrappers
  import opened Text
  import opened Input
  import opened Turtle
  import Genes

  // ---------------------------------------------------------------------
  // Identity
  // ---------------------------------------------------------------------

  /** An allele as the identifier writes it: `.` when the column is empty. */
  function AlleleOrDot(a: Option<string>): string
  {
    a.GetOr(".")
  }

  /** The six fields of a variant's identifier; the chromosome is the column as given, not normalised. */
  function KeyFields(r: Record): (f: seq<string>)
    ensures |f| == 6 && f[1] == r.row.chr
  {
    [r.assembly.Name(), r.row.chr, IntToString(r.row.start), IntToString(r.row.end),
     AlleleOrDot(r.row.reference), AlleleOrDot(r.row.alternate)]
  }

  /** `Variant::id`: assembly, chromosome, start, end, reference and alternate allele, separated by `_`. */
  function Id(r: Record): string
  {
    Join(KeyFields(r), "_")
  }

  /** A decimal number is digits after an optional minus sign, so it holds no `_`. */
  lemma IntHasNoUnderscore(x: int)
    ensures '_' !in IntToString(x)
  {
    var n := if x < 0 then -x else x;
    var ds := NatToString(n);
    assert forall i :: 0 <= i < |ds| ==> ds[i] != '_';
    if x < 0 {
      assert IntToString(x) == "-" + ds;
    }
  }

  /** The fields a variant identifier can be read back from: the columns that may hold text hold no `_`. */
  predicate Separable(r: Record)
  {
    '_' !in r.row.chr && '_' !in AlleleOrDot(r.row.reference) && '_' !in AlleleOrDot(r.row.alternate)
  }

  /** Splitting a variant identifier at `_` gives back its six fields, the raw chromosome among them. */
  lemma IdFields(r: Record)
    requires Separable(r)
    ensures Split(Id(r), '_') == KeyFields(r)
    ensures Split(Id(r), '_')[1] == r.row.chr
  {
    IntHasNoUnderscore(r.row.start);
    IntHasNoUnderscore(r.row.end);
    assert '_' !in r.assembly.Name();
    var f := KeyFields(r);
    assert forall i :: 0 <= i < |f| ==> '_' !in f[i] by {
      forall i | 0 <= i < |f| ensures '_' !in f[i] {
        if i == 0 { } else if i == 1 { } else if i == 2 { } else if i == 3 { } else if i == 4 { } else { }
      }
    }
    JoinSplit(f, '_');
  }

  /** Two such rows name the same variant exactly when their six fields agree. */
  lemma IdInjective(r1: Record, r2: Record)
    requires Separable(r1) && Separable(r2)
    ensures Id(r1) == Id(r2) <==> KeyFields(r1) == KeyFields(r2)
  {
    if Id(r1) == Id(r2) {
      IdFields(r1);
      IdFields(r2);
    }
  }

  /**
   * Without `Separable` two different variants can share an identifier:
   * alleles `a`/`b_c` and `a_b`/`c` at the same place both end in `_a_b_c`
   * (for instance `A`/`C_D` and `A_C`/`D`).
   */
  lemma IdCollision(r1: Record, r2: Record, a: string, b: string, c: string)
    requires r1.assembly == r2.assembly && r1.row.chr == r2.row.chr
    requires r1.row.start == r2.row.start && r1.row.end == r2.row.end
    requires r1.row.reference == Some(a) && r1.row.alternate == Some(b + "_" + c)
    requires r2.row.reference == Some(a + "_" + b) && r2.row.alternate == Some(c)
    ensures Id(r1) == Id(r2) && KeyFields(r1) != KeyFields(r2)
  {
    var f1, f2 := KeyFields(r1), KeyFields(r2);
    assert |f1[4]| < |f2[4]|;
    assert f1[4..][1..] == [f1[5]] && f2[4..][1..] == [f2[5]];
    assert Join(f1[4..], "_") == a + "_" + (b + "_" + c);
    assert Join(f2[4..], "_") == (a + "_" + b) + "_" + c;
    SameTail(f1, f2, 3);
    SameTail(f1, f2, 2);
    SameTail(f1, f2, 1);
    SameTail(f1, f2, 0);
    assert f1[0..] == f1 && f2[0..] == f2;
  }

  /** Joins that agree from `k + 1` on and on the field at `k` agree from `k` on. */
  lemma SameTail(f1: seq<string>, f2: seq<string>, k: nat)
    requires k + 1 < |f1| && k + 1 < |f2| && f1[k] == f2[k]
    requires Join(f1[k + 1..], "_") == Join(f2[k + 1..], "_")
    ensures Join(f1[k..], "_") == Join(f2[k..], "_")
  {
    assert f1[k..][1..] == f1[k + 1..] && f2[k..][1..] == f2[k + 1..];
  }

  // ---------------------------------------------------------------------
  // Classification
  // ---------------------------------------------------------------------

  datatype VariantType = SNV | MNV | Ins | Del | Indel
  {
    /** The `Display` of the type: the variant's name. */
    function Name(): string
    {
      match this
      case SNV => "SNV"
      case MNV => "MNV"
      case Ins => "Ins"
      case Del => "Del"
      case Indel => "Indel"
    }
  }

  /** The panic of `VariantType::new` when both alleles are present and empty, with their `Debug` forms. */
  const ERR_EMPTY_ALLELES := "Error resolving variant type. Some(\"\")/Some(\"\")"

  /** The panic of `VariantType::new` when neither allele is present. */
  const ERR_NO_ALLELES := "Error resolving variant type. None/None"

  /** `str::len`: the number of bytes of the string's UTF-8 encoding. */
  function Len(s: string): nat
  {
    |Utf8Encode(s)|
  }

  /**
   * `VariantType::new`: one byte each is an SNV, equal longer alleles an
   * MNV, alleles of different lengths an indel, an alternate allele alone
   * an insertion and a reference allele alone a deletion; no allele at
   * all, or two empty ones, is a panic. Lengths are counted in bytes.
   */
  function Classify(reference: Option<string>, alternate: Option<string>): (r: Result<VariantType>)
    ensures r == Success(SNV) <==>
      reference.Some? && alternate.Some? && Len(reference.value) == 1 && Len(alternate.value) == 1
    ensures r == Success(MNV) <==>
      reference.Some? && alternate.Some? && Len(reference.value) == Len(alternate.value) > 1
    ensures r == Success(Indel) <==>
      reference.Some? && alternate.Some? && Len(reference.value) != Len(alternate.value)
    ensures r == Success(Ins) <==> reference.None? && alternate.Some?
    ensures r == Success(Del) <==> reference.Some? && alternate.None?
    ensures r.Failure? <==>
      (reference.None? && alternate.None?) ||
      (reference.Some? && alternate.Some? && reference.value == [] && alternate.value == [])
    ensures r.Failure? ==> r.error == if reference.None? then ERR_NO_ALLELES else ERR_EMPTY_ALLELES
  {
    match (reference, alternate)
    case (Some(x), Some(y)) =>
      Utf8Length(x);
      Utf8Length(y);
      if Len(x) == 1 && Len(y) == 1 then Success(SNV)
      else if Len(x) > 1 && Len(y) > 1 && Len(x) == Len(y) then Success(MNV)
      else if Len(x) != Len(y) && (Len(x) != 0 || Len(y) != 0) then Success(Indel)
      else Failure(ERR_EMPTY_ALLELES)
    case (None, Some(_)) => Success(Ins)
    case (Some(_), None) => Success(Del)
    case (None, None) => Failure(ERR_NO_ALLELES)
  }

  /** An SNV is a pair of single ASCII characters; a non-ASCII character already counts as an indel or MNV. */
  lemma SnvIsAscii(x: string, y: string)
    ensures Classify(Some(x), Some(y)) == Success(SNV) <==>
      |x| == 1 && |y| == 1 && x[0] as int < 0x80 && y[0] as int < 0x80
  {
    Utf8Length(x);
    Utf8Length(y);
  }

  // ---------------------------------------------------------------------
  // Location
  // ---------------------------------------------------------------------

  /** `Location::new`'s chromosome: every `chr` removed, scanning left to right, then `M` read as `MT`. */
  function Chromosome(chrom: string): (c: string)
    ensures RemoveAll(chrom, "chr") == "M" ==> c == "MT"
    ensures RemoveAll(chrom, "chr") != "M" ==> c == RemoveAll(chrom, "chr")
    ensures (forall i :: !OccursAt(chrom, "chr", i)) && chrom != "M" ==> c == chrom
  {
    var c := RemoveAll(chrom, "chr");
    if c == "M" then "MT" else c
  }

  /** A leading `chr` makes no difference to the chromosome. */
  lemma ChromosomeIgnoresPrefix(s: string)
    ensures Chromosome("chr" + s) == Chromosome(s)
  {
    var t := "chr" + s;
    assert t[..3] == "chr" && t[3..] == s;
  }

  /** The mitochondrial chromosome is written `MT` however the row spells it. */
  lemma MitochondrialChromosome()
    ensures Chromosome("M") == "MT" && Chromosome("chrM") == "MT" && Chromosome("MT") == "MT"
  {
    ChromosomeIgnoresPrefix("M");
    assert !OccursAt("MT", "chr", 0) && !OccursAt("MT", "chr", 1);
  }

  datatype ExactPosition = ExactPosition(position: i32, reference: string)

  datatype Location =
    | Exact(at: ExactPosition)
    | Region(begin: ExactPosition, end: ExactPosition)
    | InBetween(after: ExactPosition, before: ExactPosition)
  {
    function Positions(): seq<ExactPosition>
    {
      match this
      case Exact(p) => [p]
      case Region(b, e) => [b, e]
      case InBetween(a, b) => [a, b]
    }
  }

  /** The sequence a location refers to: the chromosome within the assembly. */
  function SequenceReference(chrom: string, assembly: Assembly): string
  {
    "hco:" + Chromosome(chrom) + "/" + assembly.Name()
  }

  /** The insertion's `end + 1` stays an `i32`. */
  predicate EndFits(typ: VariantType, end: i32)
  {
    typ == Ins ==> end < I32_MAX
  }

  /**
   * `Location::new`: an SNV sits at its start, an MNV, deletion or indel
   * spans its start to its end, and an insertion lies between its start and
   * the position after its end; every position refers to the same sequence.
   */
  function NewLocation(typ: VariantType, chrom: string, assembly: Assembly, start: i32, end: i32): (l: Location)
    requires EndFits(typ, end)
    ensures l.Exact? <==> typ == SNV
    ensures l.Region? <==> typ == MNV || typ == Del || typ == Indel
    ensures l.InBetween? <==> typ == Ins
    ensures l.Exact? ==> l.at.position == start
    ensures l.Region? ==> l.begin.position == start && l.end.position == end
    ensures l.InBetween? ==> l.after.position == start && l.before.position == end + 1
    ensures forall p :: p in l.Positions() ==> p.reference == SequenceReference(chrom, assembly)
  {
    var reference := SequenceReference(chrom, assembly);
    match typ
    case SNV => Exact(ExactPosition(start, reference))
    case MNV => Region(ExactPosition(start, reference), ExactPosition(end, reference))
    case Del => Region(ExactPosition(start, reference), ExactPosition(end, reference))
    case Indel => Region(ExactPosition(start, reference), ExactPosition(end, reference))
    case Ins => InBetween(ExactPosition(start, reference), ExactPosition(end + 1, reference))
  }

  // ---------------------------------------------------------------------
  // The other fields
  // ---------------------------------------------------------------------

  datatype Info = Info(labelText: string, value: string)

  /** The `info` of a variant: one `RS` entry with what follows `rs` in the rs column, when it starts so. */
  function Infos(rs: Option<string>): (r: seq<Info>)
    ensures |r| <= 1
    ensures r != [] <==> rs.Some? && "rs" <= rs.value
    ensures r != [] ==> r[0].labelText == "RS" && "rs" + r[0].value == rs.value
  {
    if rs.Some? && StripPrefix(rs.value, "rs").Some? then [Info("RS", StripPrefix(rs.value, "rs").value)] else []
  }

  /** The gene references: each symbol of the gene column qualified as a gene. */
  function GeneRefs(r: Record): (g: Option<seq<string>>)
    ensures g.None? <==> r.row.gene.None?
    ensures g.Some? ==> |g.value| == |Genes.Parse(r).value|
    ensures g.Some? ==> forall i :: 0 <= i < |g.value| ==> g.value[i] == "mgend_gene:" + Genes.Parse(r).value[i]
  {
    match Genes.Parse(r)
    case None => None
    case Some(symbols) => Some(seq(|symbols|, i requires 0 <= i < |symbols| => "mgend_gene:" + symbols[i]))
  }

  /** The notes: the HGVS column split at `,`, each piece trimmed. */
  function Notes(hgvs: Option<string>): (n: Option<seq<string>>)
    ensures n.None? <==> hgvs.None?
    ensures n.Some? ==> n.value == SplitTrimmed(hgvs.value, ',')
  {
    match hgvs
    case None => None
    case Some(h) => Some(SplitTrimmed(h, ','))
  }

  /** The rows a variant can be built from: its alleles have a type, and an insertion's end has a successor. */
  predicate Buildable(r: Record)
  {
    Classify(r.row.reference, r.row.alternate).Success? &&
    EndFits(Classify(r.row.reference, r.row.alternate).value, r.row.end)
  }

  // ---------------------------------------------------------------------
  // The document of a variant
  // ---------------------------------------------------------------------

  /** An exact position: its FALDO type, the position, and the sequence it is on. */
  function PositionTerm(p: ExactPosition): Term
  {
    Blank([PredObjs("a", Inline, [Name("faldo:ExactPosition")]),
           PredObjs("faldo:position", Stacked, [Name(IntToString(p.position))]),
           PredObjs("faldo:reference", Stacked, [Name(Pname(p.reference))])])
  }

  /** The location: a position, or a region or between-position with the two positions that bound it. */
  function LocationTerm(l: Location): Term
  {
    match l
    case Exact(p) => PositionTerm(p)
    case Region(b, e) =>
      Blank([PredObjs("a", Inline, [Name("faldo:Region")]),
             PredObjs("faldo:begin", Stacked, [PositionTerm(b)]),
             PredObjs("faldo:end", Stacked, [PositionTerm(e)])])
    case InBetween(a, b) =>
      Blank([PredObjs("a", Inline, [Name("faldo:InBetweenPosition")]),
             PredObjs("faldo:after", Stacked, [PositionTerm(a)]),
             PredObjs("faldo:before", Stacked, [PositionTerm(b)])])
  }

  /** The FALDO type a location is written with. */
  function LocationType(l: Location): string
  {
    match l
    case Exact(_) => "faldo:ExactPosition"
    case Region(_, _) => "faldo:Region"
    case InBetween(_, _) => "faldo:InBetweenPosition"
  }

  /** The location blank opens with the type of its shape, so the written type tells the three shapes apart. */
  lemma LocationTyped(l: Location)
    ensures LocationTerm(l).Blank? && LocationTerm(l).pos[0] == PredObjs("a", Inline, [Name(LocationType(l))])
    ensures LocationType(l) == "faldo:ExactPosition" <==> l.Exact?
    ensures LocationType(l) == "faldo:Region" <==> l.Region?
    ensures LocationType(l) == "faldo:InBetweenPosition" <==> l.InBetween?
  {
  }

  function InfoTerm(x: Info): Term
  {
    Blank([PredObjs("skos:label", Stacked, [Name(Literal(x.labelText))]),
           PredObjs("rdf:value", Stacked, [Name(Literal(x.value))])])
  }

  /** Every entry of `info` is a line of its own, the predicate repeated. */
  function InfoLines(info: seq<Info>): (r: seq<PredObjs>)
    ensures |r| == |info| && forall i :: 0 <= i < |info| ==> r[i] == PredObjs("gvo:info", Stacked, [InfoTerm(info[i])])
  {
    seq(|info|, i requires 0 <= i < |info| => PredObjs("gvo:info", Stacked, [InfoTerm(info[i])]))
  }

  /** The spacing of a position directly inside the location, for `WriteOuterPosition`. */
  lemma OuterPositionSpacing()
    ensures Next(2) + "faldo:position" + " " == " ;\n    faldo:position "
    ensures Next(2) + "faldo:reference" + " " == " ;\n    faldo:reference "
    ensures "\n" + Indent(1) + "]" == "\n  ]"
  {
    Indents();
  }

  /** The opening of a position directly inside the location, for `WriteOuterPosition`. */
  lemma OuterPositionOpening()
    ensures "\n" + Indent(2) + "a" + " " + "faldo:ExactPosition" == "\n    a faldo:ExactPosition"
  {
    Indents();
  }

  /** The spacing of a position bounding a region or a between-position, for `WriteInnerPosition`. */
  lemma InnerPositionSpacing()
    ensures Next(3) + "faldo:position" + " " == " ;\n      faldo:position "
    ensures Next(3) + "faldo:reference" + " " == " ;\n      faldo:reference "
    ensures "\n" + Indent(2) + "]" == "\n    ]"
  {
    Indents();
  }

  /** The opening of a position bounding a region or a between-position, for `WriteInnerPosition`. */
  lemma InnerPositionOpening()
    ensures "\n" + Indent(3) + "a" + " " + "faldo:ExactPosition" == "\n      a faldo:ExactPosition"
  {
    Indents();
  }

  /** The literal spacing of a region, for `WriteLocation`. */
  lemma RegionSpacing()
    ensures Next(2) + "faldo:begin" + " " == " ;\n    faldo:begin "
    ensures Next(2) + "faldo:end" + " " == " ;\n    faldo:end "
    ensures "\n" + Indent(1) + "]" == "\n  ]"
  {
    Indents();
  }

  /** The opening of a region, for `WriteLocation`. */
  lemma RegionOpening()
    ensures "\n" + Indent(2) + "a" + " " + "faldo:Region" == "\n    a faldo:Region"
  {
    Indents();
  }

  /** The literal spacing of a between-position, for `WriteLocation`. */
  lemma InBetweenSpacing()
    ensures Next(2) + "faldo:after" + " " == " ;\n    faldo:after "
    ensures Next(2) + "faldo:before" + " " == " ;\n    faldo:before "
    ensures "\n" + Indent(1) + "]" == "\n  ]"
  {
    Indents();
  }

  lemma InBetweenOpening()
    ensures "\n" + Indent(2) + "a" + " " + "faldo:InBetweenPosition" == "\n    a faldo:InBetweenPosition"
  {
    Indents();
  }

  /** A position directly inside the location, written piece by piece as `to_ttl` does. */
  method WriteOuterPosition(buf: string, p: ExactPosition) returns (out: string)
    ensures out == buf + RenderTerm(PositionTerm(p), 1)
  {
    out := buf + "[";
    out := out + "\n    a faldo:ExactPosition";
    out := out + " ;\n    faldo:position " + IntToString(p.position);
    out := out + " ;\n    faldo:reference " + Pname(p.reference);
    out := out + "\n  ]";
    ghost var pos := PositionTerm(p).pos;
    Blank3(pos[0], pos[1], pos[2], 1);
    OuterPositionOpening();
    OuterPositionSpacing();
    Chain7(buf, "[", "\n    a faldo:ExactPosition", " ;\n    faldo:position ", IntToString(p.position),
      " ;\n    faldo:reference ", Pname(p.reference), "\n  ]");
  }

  /** A position bounding a region or a between-position, written piece by piece as `to_ttl` does. */
  method WriteInnerPosition(buf: string, p: ExactPosition) returns (out: string)
    ensures out == buf + RenderTerm(PositionTerm(p), 2)
  {
    out := buf + "[";
    out := out + "\n      a faldo:ExactPosition";
    out := out + " ;\n      faldo:position " + IntToString(p.position);
    out := out + " ;\n      faldo:reference " + Pname(p.reference);
    out := out + "\n    ]";
    ghost var pos := PositionTerm(p).pos;
    Blank3(pos[0], pos[1], pos[2], 2);
    InnerPositionOpening();
    InnerPositionSpacing();
    Chain7(buf, "[", "\n      a faldo:ExactPosition", " ;\n      faldo:position ", IntToString(p.position),
      " ;\n      faldo:reference ", Pname(p.reference), "\n    ]");
  }

  /** The location blank of `to_ttl`, one branch per shape. */
  method WriteLocation(buf: string, l: Location) returns (out: string)
    ensures out == buf + RenderTerm(LocationTerm(l), 1)
  {
    ghost var pos := LocationTerm(l).pos;
    match l
    case Exact(p) =>
      out := WriteOuterPosition(buf, p);
    case Region(b, e) =>
      out := buf + "[";
      out := out + "\n    a faldo:Region";
      out := out + " ;\n    faldo:begin ";
      out := WriteInnerPosition(out, b);
      out := out + " ;\n    faldo:end ";
      out := WriteInnerPosition(out, e);
      out := out + "\n  ]";
      Blank3(pos[0], pos[1], pos[2], 1);
      RegionOpening();
      RegionSpacing();
      Chain7(buf, "[", "\n    a faldo:Region", " ;\n    faldo:begin ", RenderTerm(PositionTerm(b), 2),
        " ;\n    faldo:end ", RenderTerm(PositionTerm(e), 2), "\n  ]");
    case InBetween(a, b) =>
      out := buf + "[";
      out := out + "\n    a faldo:InBetweenPosition";
      out := out + " ;\n    faldo:after ";
      out := WriteInnerPosition(out, a);
      out := out + " ;\n    faldo:before ";
      out := WriteInnerPosition(out, b);
      out := out + "\n  ]";
      Blank3(pos[0], pos[1], pos[2], 1);
      InBetweenOpening();
      InBetweenSpacing();
      Chain7(buf, "[", "\n    a faldo:InBetweenPosition", " ;\n    faldo:after ", RenderTerm(PositionTerm(a), 2),
        " ;\n    faldo:before ", RenderTerm(PositionTerm(b), 2), "\n  ]");
  }

  /** The literal spacing of an info blank, for `WriteInfo`. */
  lemma InfoSpacing()
    ensures Next(1) + "gvo:info" + " " == " ;\n  gvo:info "
    ensures "\n" + Indent(2) + "skos:label" + " " == "\n    skos:label "
    ensures Next(2) + "rdf:value" + " " == " ;\n    rdf:value "
    ensures "\n" + Indent(1) + "]" == "\n  ]"
  {
    Indents();
  }

  /** Regrouping for `WriteInfo`: string bookkeeping, not a fact about the model. */
  lemma InfoRegroup(buf: string, p: string, o: string, a: string, l: string, b: string, v: string, c: string)
    ensures buf + (p + o) + a + l + b + v + c == buf + (p + (o + a + l + b + v + c))
  {
  }

  /** One `gvo:info` line: a blank with the entry's label and value, both quoted. */
  method WriteInfo(buf: string, x: Info) returns (out: string)
    ensures out == buf + Lines([PredObjs("gvo:info", Stacked, [InfoTerm(x)])], 1, Next(1))
  {
    out := buf + " ;\n  gvo:info [";
    out := out + "\n    skos:label " + Literal(x.labelText);
    out := out + " ;\n    rdf:value " + Literal(x.value);
    out := out + "\n  ]";
    ghost var pos := InfoTerm(x).pos;
    TermLine(PredObjs("gvo:info", Stacked, [InfoTerm(x)]), 1);
    Blank2(pos[0], pos[1], 1);
    InfoSpacing();
    assert " ;\n  gvo:info [" == " ;\n  gvo:info " + "[";
    InfoRegroup(buf, " ;\n  gvo:info ", "[", "\n    skos:label ", Literal(x.labelText), " ;\n    rdf:value ",
      Literal(x.value), "\n  ]");
  }

  /** The subject of a variant's statement: its escaped identifier in the variant namespace. */
  function VariantSubject(id: string): string
  {
    "mgend_variant:" + Pname(id)
  }

  /** The subject as `Variant::to_ttl` writes it: the escaped identifier in the case namespace. */
  function VariantSubjectAsWritten(id: string): string
  {
    "mgend_case:" + Pname(id)
  }

  const VARIANT_QUALIFIER := "mgend_variant:"

  lemma VariantQualifierUnreserved()
    ensures forall c :: c in VARIANT_QUALIFIER ==> !IsReserved(c)
  {
  }

  /**
   * Cases, diseases and the JSON-LD base name a variant `mgend_variant:`
   * followed by its identifier; written with `pname`, that is exactly the
   * subject of the variant's statement.
   */
  lemma SubjectIsReferenceName(id: string)
    ensures VariantSubject(id) == Pname("mgend_variant:" + id)
  {
    VariantQualifierUnreserved();
    PnameQualified(VARIANT_QUALIFIER, id);
    assert VARIANT_QUALIFIER == "mgend_variant:";
  }

  /** The subject as written never is that name, so no reference to the variant reaches its statement. */
  lemma SubjectAsWrittenMissesReference(id: string)
    ensures VariantSubjectAsWritten(id) != Pname("mgend_variant:" + id)
  {
    QualifiersDiffer();
    DifferentPrefixes("mgend_case:", VARIANT_QUALIFIER, Pname(id), Pname(id), 6);
    SubjectIsReferenceName(id);
  }

  /** The case and the variant namespaces part at their seventh character. */
  lemma QualifiersDiffer()
    ensures |"mgend_case:"| > 6 && |VARIANT_QUALIFIER| > 6 && "mgend_case:"[6] != VARIANT_QUALIFIER[6]
  {
  }

  class Variant {
    const id: string
    const typ: VariantType
    const location: Location
    const reference: Option<string>
    const alternate: Option<string>
    const gene: Option<seq<string>>
    var cases: seq<string>
    var diseases: set<string>
    const note: Option<seq<string>>
    const info: seq<Info>

    /**
     * `Variant::from`: the identifier, the type of the alleles and the
     * location it implies, the alleles, the qualified gene symbols, the
     * HGVS notes and the rs entry, with no cases and no diseases yet.
     */
    constructor From(r: Record)
      requires Buildable(r)
      ensures id == Id(r) && typ == Classify(r.row.reference, r.row.alternate).value
      ensures location == NewLocation(typ, r.row.chr, r.assembly, r.row.start, r.row.end)
      ensures reference == r.row.reference && alternate == r.row.alternate
      ensures gene == GeneRefs(r) && note == Notes(r.row.hgvs) && info == Infos(r.row.rs)
      ensures cases == [] && diseases == {}
    {
      var t := Classify(r.row.reference, r.row.alternate).value;
      id := Id(r);
      typ := t;
      location := NewLocation(t, r.row.chr, r.assembly, r.row.start, r.row.end);
      reference := r.row.reference;
      alternate := r.row.alternate;
      gene := GeneRefs(r);
      cases := [];
      diseases := {};
      note := Notes(r.row.hgvs);
      info := Infos(r.row.rs);
    }

    /** `Variant::add_case`: one more case reference at the end, duplicates kept. */
    method AddCase(caseId: string)
      modifies this
      ensures cases == old(cases) + ["mgend_case:" + caseId]
      ensures diseases == old(diseases)
    {
      cases := cases + ["mgend_case:" + caseId];
    }

    /** `Variant::add_disease`: the disease reference joins the set; adding it again changes nothing. */
    method AddDisease(diseaseId: string)
      modifies this
      ensures diseases == old(diseases) + {"mgend_disease:" + diseaseId}
      ensures cases == old(cases)
    {
      diseases := diseases + {"mgend_disease:" + diseaseId};
    }

    /** The subject `Variant::to_ttl` writes: the identifier in the case namespace. */
    function Subject(): string
    {
      VariantSubjectAsWritten(id)
    }

    /** The subject every reference to the variant names. */
    function IntendedSubject(): string
    {
      VariantSubject(id)
    }

    /** The lines before the diseases, which do not depend on the order the set is written in. */
    function Head(): seq<PredObjs>
      reads this
    {
      [PredObjs("a", Inline, [Name("gvo:" + typ.Name())]),
       PredObjs("faldo:location", Stacked, [LocationTerm(location)]),
       PredObjs("gvo:ref", Stacked, if reference.Some? then [Name(Literal(reference.value))] else []),
       PredObjs("gvo:alt", Stacked, if alternate.Some? then [Name(Literal(alternate.value))] else []),
       PredObjs("m2r:gene", Stacked, if gene.Some? then Names(gene.value, Pname) else []),
       PredObjs("mgendo:case", Stacked, Names(cases, Pname))]
    }

    /** The lines from the diseases on: diseases in the order `order`, the notes, and the info entries. */
    function Tail(order: seq<string>): seq<PredObjs>
      reads this
    {
      [PredObjs("m2r:disease", Stacked, Names(order, Pname)),
       PredObjs("skos:note", Stacked, if note.Some? then Names(note.value, Literal) else [])] +
      InfoLines(info)
    }

    /** The predicate lines of the variant's statement, with the diseases in the order `order`. */
    function Doc(order: seq<string>): seq<PredObjs>
      reads this
    {
      Head() + Tail(order)
    }

    /** The line of a known allele `allele`, written as `pred "allele"`. */
    static method WriteAllele(buf: string, pred: string, allele: Option<string>) returns (out: string)
      ensures out == buf + Lines([PredObjs(pred, Stacked, if allele.Some? then [Name(Literal(allele.value))] else [])], 1, Next(1))
    {
      out := buf;
      if allele.Some? {
        out := out + (" ;\n  " + pred + " " + Literal(allele.value));
      }
      OptionalNamedLine(PredObjs(pred, Stacked, if allele.Some? then [Name(Literal(allele.value))] else []), " ;\n  " + pred + " ");
    }

    /** The line of the genes, when the row names any. */
    method WriteGenes(buf: string) returns (out: string)
      ensures out == buf + Lines([Head()[4]], 1, Next(1))
    {
      if gene.Some? {
        out := WriteVec(buf, gene.value, "m2r:gene", Pname);
      } else {
        out := buf;
        LinesSingle(Head()[4], 1, Next(1));
      }
    }

    /** The opening `subject a type`. */
    method WriteOpening(subject: string) returns (out: string)
      ensures out == subject + Lines([Head()[0]], 1, " ")
    {
      ghost var head := Head();
      out := subject + " a " + ("gvo:" + typ.Name());
      OpeningLine(subject, head);
      assert [head[0]] == head[..1];
    }

    /** The location line: `faldo:location` and the location's blank node. */
    static method WriteLocationLine(buf: string, l: Location) returns (out: string)
      ensures out == buf + Lines([PredObjs("faldo:location", Stacked, [LocationTerm(l)])], 1, Next(1))
    {
      var written := " ;\n  " + "faldo:location" + " ";
      out := WriteLocation(buf + written, l);
      StackedTermAfter(buf, PredObjs("faldo:location", Stacked, [LocationTerm(l)]), written, out);
    }

    /** The type, the location, the alleles when known, the genes and the cases. */
    method WriteHead(subject: string) returns (out: string)
      ensures AnyWritten(Head()) && out == subject + Lines(Head(), 1, " ")
    {
      ghost var head := Head();
      ghost var l0 := Lines([head[0]], 1, " ");
      ghost var l1 := Lines([head[1]], 1, Next(1));
      ghost var l2 := Lines([head[2]], 1, Next(1));
      ghost var l3 := Lines([head[3]], 1, Next(1));
      ghost var l4 := Lines([head[4]], 1, Next(1));
      ghost var l5 := Lines([head[5]], 1, Next(1));
      out := WriteOpening(subject);
      out := WriteLocationLine(out, location);
      out := WriteAllele(out, "gvo:ref", reference);
      out := WriteAllele(out, "gvo:alt", alternate);
      out := WriteGenes(out);
      out := WriteVec(out, cases, "mgendo:case", Pname);
      assert out == subject + l0 + l1 + l2 + l3 + l4 + l5;
      Lines6(head, 1, " ");
      Chain6(subject, l0, l1, l2, l3, l4, l5);
    }

    /** The line of the notes, when the row has any. */
    static method WriteNotes(buf: string, note: Option<seq<string>>) returns (out: string)
      ensures out == buf + Lines([PredObjs("skos:note", Stacked, if note.Some? then Names(note.value, Literal) else [])], 1, Next(1))
    {
      if note.Some? {
        out := WriteVec(buf, note.value, "skos:note", Literal);
      } else {
        out := buf;
        LinesSingle(PredObjs("skos:note", Stacked, []), 1, Next(1));
      }
    }

    /** One `gvo:info` line per entry, in order. */
    static method WriteInfos(buf: string, info: seq<Info>) returns (out: string)
      ensures out == buf + Lines(InfoLines(info), 1, Next(1))
    {
      ghost var lines := InfoLines(info);
      out := buf;
      var i := 0;
      assert lines[..0] == [];
      while i < |info|
        invariant 0 <= i <= |info|
        invariant out == buf + Lines(lines[..i], 1, Next(1))
      {
        LinesStepNext(lines, i, 1);
        out := WriteInfo(out, info[i]);
        i := i + 1;
      }
      assert lines[..|info|] == lines;
    }

    /**
     * The statement of the variant under `subject`: the type, the location,
     * the alleles when known, the genes, cases and diseases, the notes, one
     * line per info entry, and ` .`; the diseases come in the order the set
     * yields them.
     */
    method WriteStatement(subject: string) returns (out: string, ghost order: seq<string>)
      ensures |order| == |diseases| && (forall x :: x in diseases <==> x in order)
      ensures forall i, j :: 0 <= i < j < |order| ==> order[i] != order[j]
      ensures out == Statement(subject, Doc(order))
    {
      var h := WriteHead(subject);
      var x;
      x, order := WriteSet("", diseases, "m2r:disease", Pname);
      var y := WriteNotes("", note);
      var z := WriteInfos("", info);
      out := h + x + y + z + " .\n";
      ghost var tail := Tail(order);
      StatementAfterHead(subject, Head(), tail[0], tail[1], InfoLines(info), h, x, y, z);
      assert tail == [tail[0], tail[1]] + InfoLines(info);
    }

    /** `Variant::to_ttl` as written: the statement under the case-namespace subject. */
    method ToTtl() returns (out: string, ghost order: seq<string>)
      ensures |order| == |diseases| && (forall x :: x in diseases <==> x in order)
      ensures forall i, j :: 0 <= i < j < |order| ==> order[i] != order[j]
      ensures out == Statement(Subject(), Doc(order))
    {
      out, order := WriteStatement(Subject());
    }

    /** `Variant::to_ttl` as intended: the statement under the name cases and diseases refer to. */
    method ToTtlIntended() returns (out: string, ghost order: seq<string>)
      ensures |order| == |diseases| && (forall x :: x in diseases <==> x in order)
      ensures forall i, j :: 0 <= i < j < |order| ==> order[i] != order[j]
      ensures out == Statement(Pname("mgend_variant:" + id), Doc(order))
    {
      SubjectIsReferenceName(id);
      out, order := WriteStatement(IntendedSubject());
    }
  }
}
