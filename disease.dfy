/** Diseases named by rows, identified by a digest of the name. */
module Diseases {
  import opened Wrappers
  import opened Text
  import opened Input
  import opened Turtle

  /** The SHA-256 digest of a byte string; the hash itself is not part of this model. */
  type Digest = seq<byte> -> seq<byte>

  const ERR_BLANK_DISEASE_ID := "disease id is blank"

  /**
   * `Disease::id`: nothing without a disease name; otherwise the digest of
   * the name's UTF-8 bytes in lower-case hex, two digits per byte, from
   * which the digest can be read back.
   */
  function Id(r: Record, digest: Digest): (id: Option<string>)
    ensures id.None? <==> r.row.diseaseName.None?
    ensures id.Some? ==> |id.value| == 2 * |digest(Utf8Encode(r.row.diseaseName.value))|
    ensures id.Some? ==> forall i :: 0 <= i < |id.value| ==> IsLowerHexDigit(id.value[i])
    ensures id.Some? ==> ParseHex(id.value) == digest(Utf8Encode(r.row.diseaseName.value))
  {
    match r.row.diseaseName
    case None => None
    case Some(name) =>
      HexRoundTrip(digest(Utf8Encode(name)));
      Some(LowerHex(digest(Utf8Encode(name))))
  }

  /** Rows with the same disease name get the same identifier. */
  lemma IdDependsOnNameOnly(r1: Record, r2: Record, digest: Digest)
    requires r1.row.diseaseName == r2.row.diseaseName
    ensures Id(r1, digest) == Id(r2, digest)
  {
  }

  /** Hex digits are not reserved characters. */
  lemma HexUnreserved(id: string)
    requires forall i :: 0 <= i < |id| ==> IsLowerHexDigit(id[i])
    ensures CountReserved(id) == 0
  {
    forall c | c in id
      ensures !IsReserved(c)
    {
      var i :| 0 <= i < |id| && id[i] == c;
      assert IsLowerHexDigit(id[i]);
    }
    Unreserved(id);
  }

  const DISEASE_QUALIFIER := "mgend_disease:"

  lemma QualifierUnreserved()
    ensures forall c :: c in DISEASE_QUALIFIER ==> !IsReserved(c)
  {
  }

  /** Hex digits are never escaped, so a reference `pname`-escapes to the disease's own subject. */
  lemma {:induction false} HexIdUnescaped(id: string)
    requires forall i :: 0 <= i < |id| ==> IsLowerHexDigit(id[i])
    ensures Pname("mgend_disease:" + id) == "mgend_disease:" + id
  {
    var q := DISEASE_QUALIFIER;
    QualifierUnreserved();
    HexUnreserved(id);
    PnameIdentity(id);
    PnameQualified(q, id);
  }

  class Disease {
    const id: string
    const typ: string
    const labelText: string
    var cases: seq<string>

    constructor (id: string, labelText: string)
      ensures this.id == id && this.labelText == labelText && typ == "m2r:Disease"
      ensures cases == []
    {
      this.id := id;
      this.typ := "m2r:Disease";
      this.labelText := labelText;
      this.cases := [];
    }

    /** `Disease::add_case`: one more case reference at the end, duplicates kept. */
    method AddCase(caseId: string)
      modifies this
      ensures cases == old(cases) + ["mgend_case:" + caseId]
    {
      cases := cases + ["mgend_case:" + caseId];
    }

    function Subject(): string
    {
      "mgend_disease:" + id
    }

    /** The predicate lines of the disease's statement. */
    function Doc(): seq<PredObjs>
      reads this
    {
      [PredObjs("a", Inline, [Name(typ)]),
       PredObjs("rdfs:label", Stacked, [Name(Literal(labelText))]),
       PredObjs("mgendo:case", Stacked, Names(cases, Pname))]
    }

    /** The type and label lines that open the statement. */
    lemma Head()
      ensures AnyWritten(Doc()[..2])
      ensures Lines(Doc()[..2], 1, " ") == " a " + typ + " ;\n  rdfs:label " + Literal(labelText)
    {
      Spacing();
      FirstTwo(Doc(), 1, " ");
    }

    /** `Disease::to_ttl`: the subject (identifier not escaped), type, quoted label, the cases, and ` .`. */
    method ToTtl() returns (out: string)
      ensures out == Statement(Subject(), Doc())
    {
      Head();
      out := "mgend_disease:" + id + " a " + typ + " ;\n  rdfs:label " + Literal(labelText);
      StatementLast(Subject(), Doc(), 2, out);
      out := WriteVec(out, cases, "mgendo:case", Pname);
      out := out + " .\n";
    }
  }

  /** The case predicate is written exactly when the disease has cases. */
  lemma CasesWrittenIffAny(d: Disease)
    ensures Emits(d.Doc(), "mgendo:case") <==> d.cases != []
  {
    if d.cases != [] {
      assert d.Doc()[2].pred == "mgendo:case";
    }
  }

  /**
   * `Disease::try_from`: a disease exactly when the row names one, labelled
   * with the name and identified by its digest, with no cases yet.
   */
  method TryFrom(r: Record, digest: Digest) returns (result: Result<Disease>)
    ensures result.Success? <==> r.row.diseaseName.Some?
    ensures result.Failure? ==> result.error == ERR_BLANK_DISEASE_ID
    ensures result.Success? ==> fresh(result.value)
    ensures result.Success? ==>
      result.value.id == Id(r, digest).value && result.value.labelText == r.row.diseaseName.value &&
      result.value.typ == "m2r:Disease" && result.value.cases == []
  {
    match r.row.diseaseName
    case None =>
      result := Failure(ERR_BLANK_DISEASE_ID);
    case Some(name) =>
      var d := new Disease(Id(r, digest).value, name);
      result := Success(d);
  }
}
