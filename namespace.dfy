/** The namespaces the Turtle output qualifies its names with: a prefix and the IRI it abbreviates. */
module NameSpaces {

  datatype NameSpace = NameSpace(prefix: string, uri: string)

  const FALDO := NameSpace("faldo", "http://biohackathon.org/resource/faldo#")
  const FOAF := NameSpace("foaf", "http://xmlns.com/foaf/0.1/")
  const GVO := NameSpace("gvo", "http://genome-variation.org/")
  const HCO := NameSpace("hco", "http://identifiers.org/hco/")
  const HGNC := NameSpace("hgnc", "http://identifiers.org/hgnc/")
  const OBO := NameSpace("obo", "http://purl.obolibrary.org/obo/")
  const OLO := NameSpace("olo", "http://purl.org/ontology/olo/core#")
  const ORG := NameSpace("org", "https://www.w3.org/ns/org#")
  const PAV := NameSpace("pav", "http://purl.org/pav/")
  const RDF := NameSpace("rdf", "http://www.w3.org/1999/02/22-rdf-syntax-ns#")
  const RDFS := NameSpace("rdfs", "http://www.w3.org/2000/01/rdf-schema#")
  const SIO := NameSpace("sio", "http://semanticscience.org/resource/")
  const SKOS := NameSpace("skos", "http://www.w3.org/2004/02/skos/core#")
  const MED2RDF := NameSpace("m2r", "http://med2rdf.org/ontology/med2rdf#")
  const MGEND_ONTOLOGY := NameSpace("mgendo", "http://med2rdf.org/mgend/ontology#")
  const MGEND_CASE := NameSpace("mgend_case", "http://med2rdf.org/mgend/case/")
  const MGEND_DISEASE := NameSpace("mgend_disease", "http://med2rdf.org/mgend/disease/")
  const MGEND_GENE := NameSpace("mgend_gene", "http://med2rdf.org/mgend/gene/")
  const MGEND_SUBMISSION := NameSpace("mgend_submission", "http://med2rdf.org/mgend/submission/")
  const MGEND_VARIANT := NameSpace("mgend_variant", "http://med2rdf.org/mgend/variant/")

  /** The compact name `prefix:local` that `format!("{}:{}", NS.prefix, x)` builds. */
  function Qualified(ns: NameSpace, local: string): (r: string)
    ensures |r| == |ns.prefix| + 1 + |local|
    ensures r[..|ns.prefix|] == ns.prefix && r[|ns.prefix|] == ':' && r[|ns.prefix| + 1..] == local
  {
    ns.prefix + ":" + local
  }
}
