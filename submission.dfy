/** Submissions: who provided the rows that share a submission identifier, and the cases they carry. */
module Submissions {
  import opened Wrappers
  import opened Text
  import opened Input
  import opened Turtle

  datatype Organization = Organization(typ: string, labelText: string)

  datatype Submitter = Submitter(typ: string, name: string, organization: Organization)

  /** One position of the ordered list of submitters, numbered from one. */
  datatype Slot = Slot(index: nat, item: Submitter)

  /** The `pav:providedBy` list. */
  datatype SubmitterList = SubmitterList(typ: seq<string>, length: nat, submitters: seq<Slot>)

  /** The record `add_submitter` pushes: a person who is a member of an organization. */
  function Person(name: string, institute: string): Submitter
  {
    Submitter("foaf:Person", name, Organization("org:Organization", institute))
  }

  /** A submitter from one name/institute column pair, when both are present. */
  function Pair(name: Option<string>, institute: Option<string>): seq<Submitter>
  {
    if name.Some? && institute.Some? then [Person(name.value, institute.value)] else []
  }

  predicate Complete(name: Option<string>, institute: Option<string>)
  {
    name.Some? && institute.Some?
  }

  /**
   * The submitters a row names: the first column pair, then the second,
   * each only when both its name and its institute are given.
   */
  function Submitters(row: Row): (r: seq<Submitter>)
    ensures |r| == (if Complete(row.submitterName1, row.submitterInstitute1) then 1 else 0) +
      (if Complete(row.submitterName2, row.submitterInstitute2) then 1 else 0)
    ensures Complete(row.submitterName1, row.submitterInstitute1) ==>
      r[0] == Person(row.submitterName1.value, row.submitterInstitute1.value)
    ensures Complete(row.submitterName2, row.submitterInstitute2) ==>
      r[|r| - 1] == Person(row.submitterName2.value, row.submitterInstitute2.value)
  {
    Pair(row.submitterName1, row.submitterInstitute1) + Pair(row.submitterName2, row.submitterInstitute2)
  }

  /** `enumerate` numbered from one: slot `i` holds submitter `i` at index `i + 1`. */
  function Slots(submitters: seq<Submitter>): (r: seq<Slot>)
    ensures |r| == |submitters|
    ensures forall i :: 0 <= i < |r| ==> r[i].item == submitters[i]
    ensures forall i :: 0 <= i < |r| ==> r[i].index == i + 1
  {
    seq(|submitters|, i requires 0 <= i < |submitters| => Slot(i + 1, submitters[i]))
  }

  /** The slots are numbered 1, 2, … without gaps, so the last index is the list's length. */
  lemma SlotsNumbered(submitters: seq<Submitter>)
    ensures forall i, j :: 0 <= i < j < |Slots(submitters)| ==> Slots(submitters)[i].index < Slots(submitters)[j].index
    ensures submitters != [] ==> Slots(submitters)[|submitters| - 1].index == |submitters|
  {
  }

  /** Regrouping for `OrganizationText`: string bookkeeping, not a fact about the model. */
  lemma Assoc(x: string, a: string, b: string, l: string, c: string)
    ensures x + (a + b + l) + c == x + a + b + l + c
  {
  }

  /** Regrouping for `SlotText`: string bookkeeping, not a fact about the model. */
  lemma Assoc5(x: string, a: string, b: string, m: string, t: string, c: string)
    ensures x + ((a + b) + (m + t)) + c == x + a + b + m + t + c
  {
  }

  /** Regrouping the text of a blank with three lines, the last two with a text after a fixed part, for `PersonText`. */
  lemma ThreeLines(lead: string, a: string, next: string, b: string, l: string, m: string, t: string, ind: string)
    ensures "[" + (lead + a + (next + (b + l) + (next + (m + t)))) + "\n" + ind + "]" ==
      "[" + (lead + a) + (next + b) + l + (next + m) + t + ("\n" + ind + "]")
  {
  }

  const SUBMITTER_LIST_TYPES := ["mgendo:Submitters", "olo:OrderList"]

  // ---------------------------------------------------------------------
  // The document of a submission
  // ---------------------------------------------------------------------

  function OrganizationTerm(o: Organization): Term
  {
    Blank([PredObjs("a", Inline, [Name("org:Organization")]),
           PredObjs("rdfs:label", Stacked, [Name(Literal(o.labelText))])])
  }

  /** The person as written: its type is always written as `foaf:Person`. */
  function PersonTerm(p: Submitter): Term
  {
    Blank([PredObjs("a", Inline, [Name("foaf:Person")]),
           PredObjs("foaf:name", Stacked, [Name(Literal(p.name))]),
           PredObjs("org:memberOf", Stacked, [OrganizationTerm(p.organization)])])
  }

  function SlotTerm(s: Slot): Term
  {
    Blank([PredObjs("olo:index", Stacked, [Name(NatToString(s.index))]),
           PredObjs("olo:item", Stacked, [PersonTerm(s.item)])])
  }

  function SlotTerms(slots: seq<Slot>): (r: seq<Term>)
    ensures |r| == |slots| && forall i :: 0 <= i < |slots| ==> r[i] == SlotTerm(slots[i])
  {
    seq(|slots|, i requires 0 <= i < |slots| => SlotTerm(slots[i]))
  }

  function SubmitterListTerm(s: SubmitterList): Term
  {
    Blank([PredObjs("a", Inline, [Name(Join(s.typ, ", "))]),
           PredObjs("olo:length", Stacked, [Name(NatToString(s.length))]),
           PredObjs("olo:slot", Nested, SlotTerms(s.submitters))])
  }

  /** The spacing of the organization blank, four levels deep, for `OrganizationText`. */
  lemma OrganizationSpacing()
    ensures "\n" + Indent(5) + "a" + " " + "org:Organization" == "\n          a org:Organization"
    ensures Next(5) + "rdfs:label" + " " == " ;\n          rdfs:label "
    ensures "\n" + Indent(4) + "]" == "\n        ]"
  {
    Indents();
  }

  lemma OrganizationText(o: Organization)
    ensures RenderTerm(OrganizationTerm(o), 4) ==
      "[" + "\n          a org:Organization" + " ;\n          rdfs:label " + Literal(o.labelText) + "\n        ]"
  {
    var pos := OrganizationTerm(o).pos;
    FirstTwo(pos, 5, "\n" + Indent(5));
    assert pos[..2] == pos;
    var a := "\n" + Indent(5) + "a" + " " + "org:Organization";
    var b := Next(5) + "rdfs:label" + " ";
    var c := "\n" + Indent(4) + "]";
    assert RenderTerm(OrganizationTerm(o), 4) == "[" + (a + b + Literal(o.labelText)) + c;
    OrganizationSpacing();
    Assoc("[", a, b, Literal(o.labelText), c);
  }

  /** The spacing of the person blank, three levels deep, for `PersonText`. */
  lemma PersonSpacing()
    ensures "\n" + Indent(4) + ("a" + " " + "foaf:Person") == "\n        a foaf:Person"
    ensures Next(4) + ("foaf:name" + " ") == " ;\n        foaf:name "
    ensures Next(4) + ("org:memberOf" + " ") == " ;\n        org:memberOf "
    ensures "\n" + Indent(3) + "]" == "\n      ]"
  {
    Indents();
  }

  /** The person blank at depth three: type and name, then the organization it is a member of. */
  lemma PersonLines(p: Submitter)
    ensures RenderTerm(PersonTerm(p), 3) ==
      "[" + ("\n" + Indent(4) + ("a" + " " + "foaf:Person") +
             (Next(4) + ("foaf:name" + " " + Literal(p.name)) +
              (Next(4) + ("org:memberOf" + " " + RenderTerm(OrganizationTerm(p.organization), 4))))) +
      "\n" + Indent(3) + "]"
  {
    var pos := PersonTerm(p).pos;
    Lines3(pos[0], pos[1], pos[2], 4, "\n" + Indent(4));
    RenderOne(pos[0], 4);
    RenderOne(pos[1], 4);
    RenderSingle(pos[2], 4);
  }

  lemma PersonText(p: Submitter)
    ensures RenderTerm(PersonTerm(p), 3) ==
      "[" + "\n        a foaf:Person" + " ;\n        foaf:name " + Literal(p.name) +
      " ;\n        org:memberOf " + RenderTerm(OrganizationTerm(p.organization), 4) + "\n      ]"
  {
    PersonLines(p);
    PersonSpacing();
    ThreeLines("\n" + Indent(4), "a" + " " + "foaf:Person", Next(4), "foaf:name" + " ", Literal(p.name),
      "org:memberOf" + " ", RenderTerm(OrganizationTerm(p.organization), 4), Indent(3));
  }

  /** The spacing of a slot blank, two levels deep, for `SlotText`. */
  lemma SlotSpacing()
    ensures "\n" + Indent(3) + "olo:index" + " " == "\n      olo:index "
    ensures Next(3) + "olo:item" + " " == " ;\n      olo:item "
    ensures "\n" + Indent(2) + "]" == "\n    ]"
  {
    Indents();
  }

  /** The slot blank at depth two: its index, then the person it holds. */
  lemma SlotLines(s: Slot)
    ensures RenderTerm(SlotTerm(s), 2) ==
      "[" + (("\n" + Indent(3) + "olo:index" + " " + NatToString(s.index)) +
             (Next(3) + "olo:item" + " " + RenderTerm(PersonTerm(s.item), 3))) + ("\n" + Indent(2) + "]")
  {
    var pos := SlotTerm(s).pos;
    Lines2(pos[0], pos[1], 3, "\n" + Indent(3));
    RenderOne(pos[0], 3);
    RenderSingle(pos[1], 3);
  }

  lemma SlotText(s: Slot)
    ensures RenderTerm(SlotTerm(s), 2) ==
      "[" + "\n      olo:index " + NatToString(s.index) +
      " ;\n      olo:item " + RenderTerm(PersonTerm(s.item), 3) + "\n    ]"
  {
    SlotLines(s);
    SlotSpacing();
    Assoc5("[", "\n" + Indent(3) + "olo:index" + " ", NatToString(s.index), Next(3) + "olo:item" + " ",
      RenderTerm(PersonTerm(s.item), 3), "\n" + Indent(2) + "]");
  }

  /** The spacing of the submitter list, one level deep, for `SubmitterListText`. */
  lemma SubmitterListSpacing()
    ensures "\n" + Indent(2) + "a" + " " == "\n    a "
    ensures Next(2) + "olo:length" + " " == " ;\n    olo:length "
    ensures Next(2) + "olo:slot" + " " == " ;\n    olo:slot "
    ensures "\n" + Indent(1) + "]" == "\n  ]"
  {
    Indents();
  }

  /** The head of the list: its types joined and its length, before any slot. */
  lemma SubmitterListHead(s: SubmitterList)
    ensures AnyWritten(SubmitterListTerm(s).pos[..2])
    ensures Lines(SubmitterListTerm(s).pos[..2], 2, "\n" + Indent(2)) ==
      "\n    a " + Join(s.typ, ", ") + " ;\n    olo:length " + NatToString(s.length)
  {
    var lead := "\n" + Indent(2);
    FirstTwo(SubmitterListTerm(s).pos, 2, lead);
    SubmitterListSpacing();
  }

  /** The blanks of a slot open with the bracket that ends the line before them. */
  lemma SlotBrackets()
    ensures " ;\n      olo:item [" == " ;\n      olo:item " + "["
    ensures " ;\n        org:memberOf [" == " ;\n        org:memberOf " + "["
  {
  }

  /** Appending fifteen pieces one after the other nests them as the three blanks of a slot, for `WriteSlot`. */
  lemma SlotRegroup(buf: string, o: string, a: string, idx: string, b: string, p1: string, p2: string, name: string,
                    p3: string, q1: string, q2: string, lbl: string, q3: string, p4: string, c: string)
    ensures buf + o + a + idx + (b + o) + p1 + p2 + name + (p3 + o) + q1 + q2 + lbl + q3 + p4 + c ==
      buf + (o + a + idx + b + (o + p1 + p2 + name + p3 + (o + q1 + q2 + lbl + q3) + p4) + c)
  {
  }

  /** The nested blank of one slot, written piece by piece as `to_ttl` does. */
  method WriteSlot(buf: string, s: Slot) returns (out: string)
    ensures out == buf + RenderTerm(SlotTerm(s), 2)
  {
    var name := Literal(s.item.name);
    var institute := Literal(s.item.organization.labelText);
    out := buf + "[";
    out := out + "\n      olo:index " + NatToString(s.index);
    out := out + " ;\n      olo:item [";
    out := out + "\n        a foaf:Person";
    out := out + " ;\n        foaf:name " + name;
    out := out + " ;\n        org:memberOf [";
    out := out + "\n          a org:Organization";
    out := out + " ;\n          rdfs:label " + institute;
    out := out + "\n        ]";
    out := out + "\n      ]";
    out := out + "\n    ]";
    SlotBrackets();
    SlotRegroup(buf, "[", "\n      olo:index ", NatToString(s.index), " ;\n      olo:item ",
      "\n        a foaf:Person", " ;\n        foaf:name ", name, " ;\n        org:memberOf ",
      "\n          a org:Organization", " ;\n          rdfs:label ", institute, "\n        ]", "\n      ]", "\n    ]");
    OrganizationText(s.item.organization);
    PersonText(s.item);
    SlotText(s);
  }

  /** Writing slot `i` of the line: after the predicate when it is the first, after ` , ` otherwise. */
  lemma SlotObjectStep(terms: seq<Term>, i: nat, written: string)
    requires i < |terms| && written == if i == 0 then " ;\n    olo:slot " else " , "
    ensures Lines([PredObjs("olo:slot", Nested, terms[..i + 1])], 2, Next(2)) ==
      Lines([PredObjs("olo:slot", Nested, terms[..i])], 2, Next(2)) + written + RenderTerm(terms[i], 2)
  {
    ObjectStep("olo:slot", Nested, terms, i, 2);
    SubmitterListSpacing();
  }

  /** Slot `i` written after the slots before it on the `olo:slot` line. */
  method WriteSlotObject(buf: string, line: string, slots: seq<Slot>, i: nat) returns (out: string)
    requires i < |slots| && line == buf + Lines([PredObjs("olo:slot", Nested, SlotTerms(slots)[..i])], 2, Next(2))
    ensures out == buf + Lines([PredObjs("olo:slot", Nested, SlotTerms(slots)[..i + 1])], 2, Next(2))
  {
    var written := if i == 0 then " ;\n    olo:slot " else " , ";
    SlotObjectStep(SlotTerms(slots), i, written);
    out := WriteSlot(line + written, slots[i]);
  }

  /** The `olo:slot` line: the first slot after ` ;\n    olo:slot `, every later one after ` , `; nothing without slots. */
  method WriteSlots(buf: string, slots: seq<Slot>) returns (out: string)
    ensures out == buf + Lines([PredObjs("olo:slot", Nested, SlotTerms(slots))], 2, Next(2))
  {
    ghost var terms := SlotTerms(slots);
    out := buf;
    var i := 0;
    LinesSingle(PredObjs("olo:slot", Nested, terms[..0]), 2, Next(2));
    while i < |slots|
      invariant 0 <= i <= |slots|
      invariant out == buf + Lines([PredObjs("olo:slot", Nested, terms[..i])], 2, Next(2))
    {
      out := WriteSlotObject(buf, out, slots, i);
      i := i + 1;
    }
    assert terms[..i] == terms;
  }

  /** The submitter list as `to_ttl` writes it: the head, the slot line, and the closing bracket. */
  lemma SubmitterListText(s: SubmitterList)
    ensures RenderTerm(SubmitterListTerm(s), 1) ==
      "[" + "\n    a " + Join(s.typ, ", ") + " ;\n    olo:length " + NatToString(s.length) +
      Lines([PredObjs("olo:slot", Nested, SlotTerms(s.submitters))], 2, Next(2)) + "\n  ]"
  {
    var pos := SubmitterListTerm(s).pos;
    SubmitterListHead(s);
    LinesLast(pos, 2, 2, "\n" + Indent(2));
    ListClosing();
    BlankRegroup("[", "\n    a ", Join(s.typ, ", "), " ;\n    olo:length ", NatToString(s.length),
      Lines([PredObjs("olo:slot", Nested, SlotTerms(s.submitters))], 2, Next(2)), "\n  ]");
  }

  lemma ListClosing()
    ensures "\n" + Indent(1) + "]" == "\n  ]"
  {
    Indents();
  }

  /** Regrouping a blank node's bracket, five pieces and its closing, for `SubmitterListText`. */
  lemma BlankRegroup(o: string, a: string, j: string, b: string, n: string, x: string, c: string)
    ensures o + (a + j + b + n + x) + c == o + a + j + b + n + x + c
  {
  }

  /** Regrouping for `WriteProvidedBy`: string bookkeeping, not a fact about the model. */
  lemma BlankLineRegroup(buf: string, open: string, o: string, a: string, j: string, b: string, n: string, l: string, c: string)
    ensures buf + (open + (o + a + j + b + n + l + c)) == buf + (open + o) + a + j + b + n + l + c
  {
  }

  /** The literal spacing of the `pav:providedBy` line, for `WriteProvidedBy`. */
  lemma ProvidedBySpacing()
    ensures Next(1) + "pav:providedBy" + " " + "[" == " ;\n  pav:providedBy ["
  {
    Spacing();
  }

  /** The `pav:providedBy` line: the submitter list as a blank node with types, length and slots. */
  method WriteProvidedBy(buf: string, s: SubmitterList) returns (out: string)
    ensures out == buf + Lines([PredObjs("pav:providedBy", Stacked, [SubmitterListTerm(s)])], 1, Next(1))
  {
    out := buf + " ;\n  pav:providedBy [";
    out := out + "\n    a " + Join(s.typ, ", ");
    out := out + " ;\n    olo:length " + NatToString(s.length);
    out := WriteSlots(out, s.submitters);
    out := out + "\n  ]";
    TermLine(PredObjs("pav:providedBy", Stacked, [SubmitterListTerm(s)]), 1);
    SubmitterListText(s);
    ProvidedBySpacing();
    BlankLineRegroup(buf, Next(1) + "pav:providedBy" + " ", "[", "\n    a ", Join(s.typ, ", "), " ;\n    olo:length ",
      NatToString(s.length), Lines([PredObjs("olo:slot", Nested, SlotTerms(s.submitters))], 2, Next(2)), "\n  ]");
  }

  class Submission {
    const id: string
    const typ: string
    const labelText: string
    const submissions: SubmitterList
    const diseaseArea: Option<DiseaseArea1>
    var cases: seq<string>

    /**
     * `Submission::from`: identified and labelled by the row's submission
     * identifier, with the row's submitters numbered in column order and
     * its first disease area, and no cases yet.
     */
    constructor From(r: Record)
      ensures id == r.row.submissionId && labelText == r.row.submissionId && typ == "mgendo:Submission"
      ensures submissions.typ == SUBMITTER_LIST_TYPES
      ensures submissions.length == |submissions.submitters| == |Submitters(r.row)|
      ensures submissions.submitters == Slots(Submitters(r.row))
      ensures diseaseArea == r.row.diseaseArea1
      ensures cases == []
    {
      var row := r.row;
      var submitters: seq<Submitter> := [];
      if row.submitterName1.Some? && row.submitterInstitute1.Some? {
        submitters := submitters + [Person(row.submitterName1.value, row.submitterInstitute1.value)];
      }
      if row.submitterName2.Some? && row.submitterInstitute2.Some? {
        submitters := submitters + [Person(row.submitterName2.value, row.submitterInstitute2.value)];
      }
      id := row.submissionId;
      typ := "mgendo:Submission";
      labelText := row.submissionId;
      submissions := SubmitterList(SUBMITTER_LIST_TYPES, |submitters|, Slots(submitters));
      diseaseArea := row.diseaseArea1;
      cases := [];
    }

    /** `Submission::add_case`: one more case reference at the end, duplicates kept. */
    method AddCase(caseId: string)
      modifies this
      ensures cases == old(cases) + ["mgend_case:" + caseId]
    {
      cases := cases + ["mgend_case:" + caseId];
    }

    /** The subject is written without escaping the identifier. */
    function Subject(): string
    {
      "mgend_submission:" + id
    }

    function Doc(): seq<PredObjs>
      reads this
    {
      [PredObjs("a", Inline, [Name(typ)]),
       PredObjs("rdfs:label", Stacked, [Name(Literal(labelText))]),
       PredObjs("pav:providedBy", Stacked, [SubmitterListTerm(submissions)]),
       PredObjs("mgendo:disease_area", Stacked, if diseaseArea.Some? then [Name(diseaseArea.value.Json())] else []),
       PredObjs("mgendo:case", Stacked, Names(cases, Pname))]
    }

    /**
     * `Submission::to_ttl`: type, label, the submitter list, the disease
     * area when known, the cases, and ` .`.
     */
    method ToTtl() returns (out: string)
      ensures out == Statement(Subject(), Doc())
    {
      ghost var doc := Doc();
      ghost var before: string;
      out := "mgend_submission:" + id + " a " + typ;
      OpeningLine(Subject(), doc);
      before := out;
      out := out + (" ;\n  " + "rdfs:label" + " " + Literal(labelText));
      NamedLine(doc[1], " ;\n  " + "rdfs:label" + " ");
      StatementStep(Subject(), doc, 1, before);
      before := out;
      out := WriteProvidedBy(out, submissions);
      StatementStep(Subject(), doc, 2, before);
      before := out;
      if diseaseArea.Some? {
        out := out + (" ;\n  " + "mgendo:disease_area" + " " + diseaseArea.value.Json());
      }
      OptionalNamedLine(doc[3], " ;\n  " + "mgendo:disease_area" + " ");
      StatementStep(Subject(), doc, 3, before);
      StatementLast(Subject(), doc, 4, out);
      out := WriteVec(out, cases, "mgendo:case", Pname);
      out := out + " .\n";
    }
  }

  /** A submission lists exactly the submitters whose name and institute are both given, in column order. */
  lemma SubmittersOfRow(row: Row)
    ensures |Submitters(row)| <= 2
    ensures Submitters(row) == [] <==>
      !Complete(row.submitterName1, row.submitterInstitute1) && !Complete(row.submitterName2, row.submitterInstitute2)
    ensures Complete(row.submitterName1, row.submitterInstitute1) && Complete(row.submitterName2, row.submitterInstitute2) ==>
      Submitters(row) == [Person(row.submitterName1.value, row.submitterInstitute1.value),
                          Person(row.submitterName2.value, row.submitterInstitute2.value)]
  {
  }

  /** The disease area is written exactly when the row gives one. */
  lemma DiseaseAreaWrittenIffKnown(s: Submission)
    ensures Emits(s.Doc(), "mgendo:disease_area") <==> s.diseaseArea.Some?
  {
    if s.diseaseArea.Some? {
      assert s.Doc()[3].pred == "mgendo:disease_area";
    }
  }
}
