/** Genes named by a row, with the HGNC identifier of each symbol. */
module Genes {
  import opened Wrappers
  import opened Text
  import opened Input
  import opened NameSpaces
  import opened Turtle
  import opened Hgnc

  /** `Gene::parse`: the comma-separated symbols of the gene column, each trimmed, in order. */
  function Parse(r: Record): (symbols: Option<seq<string>>)
    ensures symbols.None? <==> r.row.gene.None?
    ensures symbols.Some? ==> |symbols.value| == |Split(r.row.gene.value, ',')| == multiset(r.row.gene.value)[','] + 1
    ensures symbols.Some? ==> forall i :: 0 <= i < |symbols.value| ==>
      symbols.value[i] == Trim(Split(r.row.gene.value, ',')[i])
    ensures symbols.Some? ==> forall i :: 0 <= i < |symbols.value| ==> symbols.value[i] != [] ==>
      !IsWhitespace(symbols.value[i][0]) && !IsWhitespace(symbols.value[i][|symbols.value[i]| - 1])
  {
    match r.row.gene
    case None => None
    case Some(g) => Some(SplitTrimmed(g, ','))
  }

  /** A gene resource. */
  datatype Gene = Gene(id: string, typ: string, labelText: string, xref: Option<string>)
  {
    /** The predicate lines of the gene's statement. */
    function Doc(): seq<PredObjs>
    {
      [PredObjs("a", Inline, [Name(typ)]),
       PredObjs("rdfs:label", Stacked, [Name(Literal(labelText))]),
       PredObjs("rdfs:seeAlso", Stacked, if xref.Some? then [Name("hgnc:" + xref.value)] else [])]
    }

    function Subject(): string
    {
      "mgend_gene:" + id
    }

    /** The type and label lines that open the statement. */
    lemma Head()
      ensures AnyWritten(Doc()[..2])
      ensures Lines(Doc()[..2], 1, " ") == " a " + typ + " ;\n  rdfs:label " + Literal(labelText)
    {
      Spacing();
      FirstTwo(Doc(), 1, " ");
    }

    /** `Gene::to_ttl`: the subject, its type, the quoted label, the HGNC link when known, and ` .`. */
    method ToTtl() returns (out: string)
      ensures out == Statement(Subject(), Doc())
    {
      Head();
      out := "mgend_gene:" + id + " a " + typ + " ;\n  rdfs:label " + Literal(labelText);
      StatementLast(Subject(), Doc(), 2, out);
      if xref.Some? {
        out := out + (" ;\n  rdfs:seeAlso " + ("hgnc:" + xref.value));
      }
      OptionalNamedLine(Doc()[2], " ;\n  rdfs:seeAlso ");
      out := out + " .\n";
    }
  }

  /** `Gene::new`: the symbol is both identifier and label, and the cross-reference is the table's entry for it. */
  function New(symbol: string, hgnc: HGNC): (g: Gene)
    ensures g.id == symbol && g.labelText == symbol && g.typ == "m2r:Gene"
    ensures g.xref.Some? <==> symbol in hgnc.definitions
    ensures g.xref.Some? ==> g.xref.value == hgnc.definitions[symbol]
  {
    Gene(symbol, Qualified(MED2RDF, "Gene"), symbol, hgnc.Find(symbol))
  }

  /** The statement links to HGNC exactly when the symbol has an entry. */
  lemma SeeAlsoIffKnown(symbol: string, hgnc: HGNC)
    ensures Emits(New(symbol, hgnc).Doc(), "rdfs:seeAlso") <==> symbol in hgnc.definitions
  {
    var doc := New(symbol, hgnc).Doc();
    if symbol in hgnc.definitions {
      assert doc[2].pred == "rdfs:seeAlso";
    }
  }
}
