/**
 * The conversion loop over mutable resources: the cases in a list, and
 * the submissions, genes, variants and diseases in maps keyed as in the
 * output, the objects in them gaining case references in place. After
 * each row the `Collections` hold what `Aggregation.Run` describes for
 * the rows so far.
 */
module Conversion {
  import opened Wrappers
  import opened Input
  import opened Hgnc
  import opened Aggregation
  import Cases
  import Variants
  import Diseases
  import Genes
  import Submissions

  // ---------------------------------------------------------------------
  // What a map of objects holds, in terms of the tally's entries
  // ---------------------------------------------------------------------

  /** The submission `Submission::from` builds from the row. */
  predicate SubmissionFrom(s: Submissions.Submission, r: Record)
  {
    && s.id == r.row.submissionId && s.labelText == r.row.submissionId && s.typ == "mgendo:Submission"
    && s.submissions.typ == Submissions.SUBMITTER_LIST_TYPES
    && s.submissions.length == |Submissions.Submitters(r.row)|
    && s.submissions.submitters == Submissions.Slots(Submissions.Submitters(r.row))
    && s.diseaseArea == r.row.diseaseArea1
  }

  /** The variant `Variant::from` builds from the row. */
  predicate VariantFrom(v: Variants.Variant, r: Record)
  {
    && Variants.Buildable(r)
    && v.id == Variants.Id(r)
    && v.typ == Variants.Classify(r.row.reference, r.row.alternate).value
    && v.location == Variants.NewLocation(v.typ, r.row.chr, r.assembly, r.row.start, r.row.end)
    && v.reference == r.row.reference && v.alternate == r.row.alternate
    && v.gene == Variants.GeneRefs(r) && v.note == Variants.Notes(r.row.hgvs) && v.info == Variants.Infos(r.row.rs)
  }

  /** The disease `Disease::try_from` builds from the row. */
  predicate DiseaseFrom(d: Diseases.Disease, r: Record, digest: Diseases.Digest)
  {
    && r.row.diseaseName.Some?
    && d.id == Diseases.Id(r, digest).value && d.labelText == r.row.diseaseName.value && d.typ == "m2r:Disease"
  }

  /** `DiseaseFrom` for one digest. */
  function DiseaseBuilt(digest: Diseases.Digest): (Diseases.Disease, Record) -> bool
  {
    (d: Diseases.Disease, r: Record) => DiseaseFrom(d, r, digest)
  }

  /** The list holds the case `Case::from` makes of each row, in order. */
  ghost predicate Listed(cases: seq<Cases.Case>, rows: seq<Record>, digest: Diseases.Digest)
  {
    Mapped(cases, rows, digest, Cases.CaseOf)
  }

  /** `xs` holds, element by element, what `f` makes of `ys` under `d`. */
  ghost predicate Mapped<T, U, D>(xs: seq<T>, ys: seq<U>, d: D, f: (U, D) -> T)
  {
    && |xs| == |ys|
    && forall i :: 0 <= i < |xs| ==> xs[i] == f(ys[i], d)
  }

  /** Pushing the case of the next row keeps the list in step. */
  lemma ListedSnoc(cases: seq<Cases.Case>, rows: seq<Record>, digest: Diseases.Digest, c: Cases.Case, r: Record)
    requires Listed(cases, rows, digest) && c == Cases.CaseOf(r, digest)
    ensures Listed(cases + [c], rows + [r], digest)
  {
    MappedSnoc(cases, rows, digest, Cases.CaseOf, c, r);
  }

  /** A mapped list stays mapped when both sides grow by one related pair. */
  lemma MappedSnoc<T, U, D>(xs: seq<T>, ys: seq<U>, d: D, f: (U, D) -> T, x: T, y: U)
    requires Mapped(xs, ys, d, f) && x == f(y, d)
    ensures Mapped(xs + [x], ys + [y], d, f)
  {
  }

  /** Every key has an entry and holds the object built from that entry's first row. */
  ghost predicate Built<T>(m: map<string, T>, entries: map<string, Entry>, from: (T, Record) -> bool)
  {
    && (forall k :: k in m <==> k in entries)
    && (forall k {:trigger from(m[k], entries[k].first)} :: k in m ==> from(m[k], entries[k].first))
  }

  /** No object is held under two keys. */
  ghost predicate Distinct<T>(m: map<string, T>)
  {
    forall j, k :: j in m && k in m && j != k ==> m[j] != m[k]
  }

  /** Each submission has the case references of its entry. */
  ghost predicate SubmissionCases(m: map<string, Submissions.Submission>, entries: map<string, Entry>)
    reads m.Values
  {
    forall k :: k in m && k in entries ==> m[k].cases == entries[k].cases
  }

  /** Each variant has the case references of its entry and the disease references of its set. */
  ghost predicate VariantCases(m: map<string, Variants.Variant>, entries: map<string, Entry>, sets: map<string, set<string>>)
    reads m.Values
  {
    && (forall k :: k in m <==> k in sets)
    && forall k :: k in m && k in entries ==> m[k].cases == entries[k].cases && m[k].diseases == sets[k]
  }

  /** Each disease has the case references of its entry. */
  ghost predicate DiseaseCases(m: map<string, Diseases.Disease>, entries: map<string, Entry>)
    reads m.Values
  {
    forall k :: k in m && k in entries ==> m[k].cases == entries[k].cases
  }

  /** The map after `entry(key).or_insert(x)`, against the entries after `Upsert`. */
  lemma BuiltPut<T>(m: map<string, T>, entries: map<string, Entry>, from: (T, Record) -> bool,
                    key: string, x: T, r: Record, ref: string)
    requires Built(m, entries, from)
    requires key !in m ==> from(x, r)
    requires key in m ==> x == m[key]
    ensures Built(m[key := x], Upsert(entries, key, r, ref), from)
  {
  }

  /** Holding a new object under a new key keeps objects apart. */
  lemma DistinctPut<T>(m: map<string, T>, key: string, x: T)
    requires Distinct(m) && key !in m && x !in m.Values
    ensures Distinct(m[key := x])
  {
  }

  // ---------------------------------------------------------------------
  // One map at a time
  // ---------------------------------------------------------------------

  /**
   * `submissions.entry(Submission::id(&record)).or_insert(Submission::from(&record)).add_case(&case)`:
   * the submission of the row's identifier gains the case reference; the
   * one built from the row is inserted first when the identifier is new.
   * `from` stands for what the built submission is known to satisfy.
   */
  method IndexSubmission(m: map<string, Submissions.Submission>, ghost entries: map<string, Entry>,
                         ghost from: (Submissions.Submission, Record) -> bool, built: Submissions.Submission, r: Record, caseId: string,
                         ghost variants: map<string, Variants.Variant>, ghost variantEntries: map<string, Entry>,
                         ghost variantSets: map<string, set<string>>,
                         ghost diseases: map<string, Diseases.Disease>, ghost diseaseEntries: map<string, Entry>)
    returns (m': map<string, Submissions.Submission>)
    requires Built(m, entries, from) && Distinct(m) && SubmissionCases(m, entries)
    requires VariantCases(variants, variantEntries, variantSets) && DiseaseCases(diseases, diseaseEntries)
    requires from(built, r) && built !in m.Values && built.cases == []
    modifies if r.row.submissionId in m then m[r.row.submissionId] else built
    ensures var e' := Index(entries, Some(r.row.submissionId), r, "mgend_case:" + caseId);
      Built(m', e', from) && Distinct(m') && SubmissionCases(m', e')
    ensures m'.Values <= m.Values + {built}
    ensures VariantCases(variants, variantEntries, variantSets) && DiseaseCases(diseases, diseaseEntries)
  {
    var key := r.row.submissionId;
    var s: Submissions.Submission;
    if key in m {
      s := m[key];
      assert m[key := s] == m;
    } else {
      s := built;
      DistinctPut(m, key, s);
    }
    m' := m[key := s];
    BuiltPut(m, entries, from, key, s, r, "mgend_case:" + caseId);
    ghost var e' := Index(entries, Some(key), r, "mgend_case:" + caseId);
    assert e'[key].cases == s.cases + ["mgend_case:" + caseId];
    s.AddCase(caseId);
    forall k | k in m' && k in e'
      ensures m'[k].cases == e'[k].cases
    {
      if k != key {
        assert m'[k] == m[k] && m[k] != s;
      }
    }
    // only a submission changed
    forall k | k in variants && k in variantEntries
      ensures variants[k].cases == variantEntries[k].cases && variants[k].diseases == variantSets[k]
    {
      assert variants[k] as object != s as object;
    }
    forall k | k in diseases && k in diseaseEntries
      ensures diseases[k].cases == diseaseEntries[k].cases
    {
      assert diseases[k] as object != s as object;
    }
  }

  /** The gene loop: each symbol not yet in the map is inserted with `Gene::new`. */
  method AddSymbols(genes: map<string, Genes.Gene>, symbols: seq<string>, hgnc: HGNC) returns (g: map<string, Genes.Gene>)
    ensures g == AddGenes(genes, symbols, hgnc)
  {
    g := genes;
    for i := 0 to |symbols|
      invariant g == AddGenes(genes, symbols[..i], hgnc)
    {
      assert symbols[..i + 1][..i] == symbols[..i];
      if symbols[i] !in g {
        g := g[symbols[i] := Genes.New(symbols[i], hgnc)];
      }
    }
    assert symbols[..|symbols|] == symbols;
  }

  /**
   * `variants.entry(Variant::id(&record)).or_insert(Variant::from(&record))`,
   * then `add_case`, and `add_disease` when the row names a disease: the
   * variant of the row's identifier gains the case reference and the
   * disease reference; the one built from the row is inserted first when
   * the identifier is new.
   */
  method IndexVariant(m: map<string, Variants.Variant>, ghost entries: map<string, Entry>, ghost sets: map<string, set<string>>,
                      ghost from: (Variants.Variant, Record) -> bool, built: Variants.Variant, r: Record, caseId: string,
                      tried: Result<Diseases.Disease>,
                      ghost submissions: map<string, Submissions.Submission>, ghost submissionEntries: map<string, Entry>,
                      ghost diseases: map<string, Diseases.Disease>, ghost diseaseEntries: map<string, Entry>)
    returns (m': map<string, Variants.Variant>)
    requires Built(m, entries, from) && Distinct(m) && VariantCases(m, entries, sets)
    requires SubmissionCases(submissions, submissionEntries) && DiseaseCases(diseases, diseaseEntries)
    requires from(built, r) && built !in m.Values && built.cases == [] && built.diseases == {}
    modifies if built.id in m then m[built.id] else built
    ensures var e' := Index(entries, Some(built.id), r, "mgend_case:" + caseId);
      var sets' := AddDisease(sets, built.id, if tried.Success? then Some("mgend_disease:" + tried.value.id) else None);
      Built(m', e', from) && Distinct(m') && VariantCases(m', e', sets')
    ensures m'.Values <= m.Values + {built}
    ensures SubmissionCases(submissions, submissionEntries) && DiseaseCases(diseases, diseaseEntries)
  {
    var key := built.id;
    var v: Variants.Variant;
    if key in m {
      v := m[key];
      assert m[key := v] == m;
      assert v.cases == entries[key].cases && v.diseases == sets[key];
    } else {
      v := built;
      DistinctPut(m, key, v);
      assert key !in entries && key !in sets;
    }
    m' := m[key := v];
    BuiltPut(m, entries, from, key, v, r, "mgend_case:" + caseId);
    ghost var e' := Index(entries, Some(key), r, "mgend_case:" + caseId);
    ghost var dref := if tried.Success? then Some("mgend_disease:" + tried.value.id) else None;
    ghost var sets' := AddDisease(sets, key, dref);
    ghost var before := v.diseases;
    assert sets'[key] == before + (if dref.Some? then {dref.value} else {});
    assert e'[key].cases == v.cases + ["mgend_case:" + caseId];
    Mark(v, caseId, tried);
    forall k | k in m' && k in e'
      ensures m'[k].cases == e'[k].cases && m'[k].diseases == sets'[k]
    {
      if k != key {
        assert m'[k] == m[k] && m[k] != v;
      }
    }
    // only a variant changed
    forall k | k in submissions && k in submissionEntries
      ensures submissions[k].cases == submissionEntries[k].cases
    {
      assert submissions[k] as object != v as object;
    }
    forall k | k in diseases && k in diseaseEntries
      ensures diseases[k].cases == diseaseEntries[k].cases
    {
      assert diseases[k] as object != v as object;
    }
  }

  /** `add_case`, then `add_disease` when the row names a disease. */
  method Mark(v: Variants.Variant, caseId: string, tried: Result<Diseases.Disease>)
    modifies v
    ensures v.cases == old(v.cases) + ["mgend_case:" + caseId]
    ensures v.diseases == old(v.diseases) + (if tried.Success? then {"mgend_disease:" + tried.value.id} else {})
  {
    v.AddCase(caseId);
    if tried.Success? {
      v.AddDisease(tried.value.id);
    }
  }

  /**
   * `diseases.entry(format!("mgend_disease:{}", disease.id)).or_insert(disease).add_case(&case)`:
   * the disease under its reference gains the case reference; the one
   * just built is inserted first when the reference is new.
   */
  method IndexDisease(m: map<string, Diseases.Disease>, ghost entries: map<string, Entry>,
                      ghost from: (Diseases.Disease, Record) -> bool, tried: Result<Diseases.Disease>, r: Record, caseId: string,
                      ghost submissions: map<string, Submissions.Submission>, ghost submissionEntries: map<string, Entry>,
                      ghost variants: map<string, Variants.Variant>, ghost variantEntries: map<string, Entry>,
                      ghost variantSets: map<string, set<string>>)
    returns (m': map<string, Diseases.Disease>)
    requires Built(m, entries, from) && Distinct(m) && DiseaseCases(m, entries)
    requires SubmissionCases(submissions, submissionEntries) && VariantCases(variants, variantEntries, variantSets)
    requires tried.Success? ==> from(tried.value, r) && tried.value !in m.Values && tried.value.cases == []
    modifies if tried.Failure? then {}
             else if "mgend_disease:" + tried.value.id in m then {m["mgend_disease:" + tried.value.id]}
             else {tried.value}
    ensures var key := if tried.Success? then Some("mgend_disease:" + tried.value.id) else None;
      var e' := Index(entries, key, r, "mgend_case:" + caseId);
      Built(m', e', from) && Distinct(m') && DiseaseCases(m', e')
    ensures m'.Values <= m.Values + (if tried.Success? then {tried.value} else {})
    ensures SubmissionCases(submissions, submissionEntries) && VariantCases(variants, variantEntries, variantSets)
  {
    if tried.Failure? {
      return m;
    }
    var built := tried.value;
    var key := "mgend_disease:" + built.id;
    var d: Diseases.Disease;
    if key in m {
      d := m[key];
      assert m[key := d] == m;
    } else {
      d := built;
      DistinctPut(m, key, d);
    }
    m' := m[key := d];
    BuiltPut(m, entries, from, key, d, r, "mgend_case:" + caseId);
    ghost var e' := Index(entries, Some(key), r, "mgend_case:" + caseId);
    assert e'[key].cases == d.cases + ["mgend_case:" + caseId];
    d.AddCase(caseId);
    forall k | k in m' && k in e'
      ensures m'[k].cases == e'[k].cases
    {
      if k != key {
        assert m'[k] == m[k] && m[k] != d;
      }
    }
    // only a disease changed
    forall k | k in submissions && k in submissionEntries
      ensures submissions[k].cases == submissionEntries[k].cases
    {
      assert submissions[k] as object != d as object;
    }
    forall k | k in variants && k in variantEntries
      ensures variants[k].cases == variantEntries[k].cases && variants[k].diseases == variantSets[k]
    {
      assert variants[k] as object != d as object;
    }
  }

  // ---------------------------------------------------------------------
  // The loop
  // ---------------------------------------------------------------------

  /** The five collections `main` fills: the cases in order, the other resources by key. */
  datatype Collections = Collections(
    cases: seq<Cases.Case>,
    submissions: map<string, Submissions.Submission>,
    genes: map<string, Genes.Gene>,
    variants: map<string, Variants.Variant>,
    diseases: map<string, Diseases.Disease>)

  /** The collections before the first row. */
  const NoCollections := Collections([], map[], map[], map[], map[])

  /**
   * The digest cases and diseases are named with, and what the submission,
   * the variant and the disease built from a row satisfy. The proof of one
   * turn of the loop uses the latter only through these names; `Meant` says
   * what they are.
   */
  datatype Builders = Builders(
    digest: Diseases.Digest,
    submissionFrom: (Submissions.Submission, Record) -> bool,
    variantFrom: (Variants.Variant, Record) -> bool,
    diseaseFrom: (Diseases.Disease, Record) -> bool)

  /** `Case::from`, `Submission::from`, `Variant::from` and `Disease::try_from`, for one digest. */
  function Meant(digest: Diseases.Digest): Builders
  {
    Builders(digest, SubmissionFrom, VariantFrom, DiseaseBuilt(digest))
  }

  /**
   * The collections hold what the tally describes: one case per row taken,
   * and under each key of a map its own object, built from the entry's
   * first row, holding the entry's references.
   */
  ghost predicate Holds(col: Collections, t: Tally, b: Builders)
    reads col.submissions.Values, col.variants.Values, col.diseases.Values
  {
    && Listed(col.cases, t.processed, b.digest)
    && col.genes == t.genes
    && MapsHeld(col.submissions, col.variants, col.diseases,
                t.submissions, t.variants, t.variantDiseases, t.diseases, b)
  }

  /** The three maps of objects hold what the tally's entries describe. */
  ghost predicate MapsHeld(subs: map<string, Submissions.Submission>, vars: map<string, Variants.Variant>,
                           dis: map<string, Diseases.Disease>,
                           subEntries: map<string, Entry>, varEntries: map<string, Entry>,
                           varSets: map<string, set<string>>, disEntries: map<string, Entry>, b: Builders)
    reads subs.Values, vars.Values, dis.Values
  {
    && Built(subs, subEntries, b.submissionFrom) && Distinct(subs) && SubmissionCases(subs, subEntries)
    && Built(vars, varEntries, b.variantFrom) && Distinct(vars) && VariantCases(vars, varEntries, varSets)
    && Built(dis, disEntries, b.diseaseFrom) && Distinct(dis) && DiseaseCases(dis, disEntries)
  }

  /**
   * The submission, the variant and (when the row names one) the disease of
   * the row each gain the case reference, in the order of `main`; the maps
   * then hold the tally's entries indexed under the row's keys.
   */
  method IndexRow(col: Collections, ghost t: Tally, ghost b: Builders,
                  r: Record, caseId: string, submission: Submissions.Submission, symbols: Option<seq<string>>,
                  tried: Result<Diseases.Disease>, variant: Variants.Variant, ghost s: Sighting)
    returns (subs: map<string, Submissions.Submission>, vars: map<string, Variants.Variant>, dis: map<string, Diseases.Disease>)
    requires MapsHeld(col.submissions, col.variants, col.diseases,
                      t.submissions, t.variants, t.variantDiseases, t.diseases, b)
    requires Made(b, r, caseId, submission, symbols, tried, variant, s)
    requires submission !in col.submissions.Values && variant !in col.variants.Values
    requires tried.Success? ==> tried.value !in col.diseases.Values
    modifies col.submissions.Values, col.variants.Values, col.diseases.Values, submission, variant
    modifies if tried.Success? then {tried.value} else {}
    ensures MapsHeld(subs, vars, dis,
                     Index(t.submissions, Some(s.submission), s.row, s.ref), Index(t.variants, Some(s.variant), s.row, s.ref),
                     AddDisease(t.variantDiseases, s.variant, s.disease), Index(t.diseases, s.disease, s.row, s.ref), b)
    ensures subs.Values <= col.submissions.Values + {submission}
    ensures vars.Values <= col.variants.Values + {variant}
    ensures dis.Values <= col.diseases.Values + (if tried.Success? then {tried.value} else {})
  {
    subs := IndexSubmission(col.submissions, t.submissions, b.submissionFrom, submission, r, caseId,
                            col.variants, t.variants, t.variantDiseases, col.diseases, t.diseases);
    ghost var se := Index(t.submissions, Some(r.row.submissionId), r, "mgend_case:" + caseId);
    vars := IndexVariant(col.variants, t.variants, t.variantDiseases, b.variantFrom, variant, r, caseId, tried,
                         subs, se, col.diseases, t.diseases);
    ghost var ve := Index(t.variants, Some(variant.id), r, "mgend_case:" + caseId);
    ghost var vsets := AddDisease(t.variantDiseases, variant.id, s.disease);
    dis := IndexDisease(col.diseases, t.diseases, b.diseaseFrom, tried, r, caseId, subs, se, vars, ve, vsets);
  }

  /** The objects built from the row, fresh from their constructors, and the row's keys and references. */
  ghost predicate Made(b: Builders, r: Record, caseId: string, submission: Submissions.Submission,
                       symbols: Option<seq<string>>, tried: Result<Diseases.Disease>, variant: Variants.Variant,
                       s: Sighting)
    reads submission, variant, if tried.Success? then {tried.value} else {}
  {
    && b.submissionFrom(submission, r) && submission.cases == []
    && b.variantFrom(variant, r) && variant.cases == [] && variant.diseases == {}
    && (tried.Success? ==> b.diseaseFrom(tried.value, r) && tried.value.cases == [])
    && s.row == r && s.ref == "mgend_case:" + caseId
    && s.submission == r.row.submissionId && s.variant == variant.id
    && s.symbols == (if symbols.Some? then symbols.value else [])
    && s.disease == (if tried.Success? then Some("mgend_disease:" + tried.value.id) else None)
  }

  /**
   * The first half of the loop body: the submission, the gene symbols, the
   * disease (when the row names one) and the variant built from a row
   * whose variant can be built, and the row as the tally sees it.
   */
  method Take(r: Record, digest: Diseases.Digest, ghost b: Builders)
    returns (submission: Submissions.Submission, symbols: Option<seq<string>>,
             tried: Result<Diseases.Disease>, variant: Variants.Variant, ghost s: Sighting)
    requires b == Meant(digest) && Variants.Buildable(r)
    ensures s == Sight(r, digest) && Made(b, r, Cases.Id(r, digest), submission, symbols, tried, variant, s)
    ensures fresh(submission) && fresh(variant) && (tried.Success? ==> fresh(tried.value))
  {
    submission := new Submissions.Submission.From(r);
    symbols := Genes.Parse(r);
    tried := Diseases.TryFrom(r, digest);
    variant := new Variants.Variant.From(r);
    s := Sight(r, digest);
  }

  /**
   * The second half of the loop body: the row's case is made, every
   * collection takes in what was built from the row, and afterwards the
   * collections hold what one more `Step` of the tally describes.
   */
  method Ingest(col: Collections, ghost t: Tally, ghost b: Builders, digest: Diseases.Digest, hgnc: HGNC,
                r: Record, submission: Submissions.Submission, symbols: Option<seq<string>>,
                tried: Result<Diseases.Disease>, variant: Variants.Variant, ghost s: Sighting)
    returns (col': Collections)
    requires b.digest == digest && Holds(col, t, b) && Made(b, r, Cases.Id(r, digest), submission, symbols, tried, variant, s)
    requires submission !in col.submissions.Values && variant !in col.variants.Values
    requires tried.Success? ==> tried.value !in col.diseases.Values
    modifies col.submissions.Values, col.variants.Values, col.diseases.Values, submission, variant
    modifies if tried.Success? then {tried.value} else {}
    ensures Holds(col', Step(t, s, hgnc), b)
    ensures col'.submissions.Values <= col.submissions.Values + {submission}
    ensures col'.variants.Values <= col.variants.Values + {variant}
    ensures col'.diseases.Values <= col.diseases.Values + (if tried.Success? then {tried.value} else {})
  {
    var c := Cases.From(r, digest);
    var subs, vars, dis := IndexRow(col, t, b, r, c.id, submission, symbols, tried, variant, s);
    var gs := AddSymbols(col.genes, if symbols.Some? then symbols.value else [], hgnc);
    ListedSnoc(col.cases, t.processed, b.digest, c, r);
    col' := Collections(col.cases + [c], subs, gs, vars, dis);
    HoldsStep(col', t, s, hgnc, b);
  }

  /** Collections holding the tally's parts after a row hold what `Step` makes of the tally. */
  lemma HoldsStep(col: Collections, t: Tally, s: Sighting, hgnc: HGNC, b: Builders)
    requires Listed(col.cases, t.processed + [s.row], b.digest)
    requires col.genes == AddGenes(t.genes, s.symbols, hgnc)
    requires MapsHeld(col.submissions, col.variants, col.diseases,
                      Index(t.submissions, Some(s.submission), s.row, s.ref), Index(t.variants, Some(s.variant), s.row, s.ref),
                      AddDisease(t.variantDiseases, s.variant, s.disease), Index(t.diseases, s.disease, s.row, s.ref), b)
    ensures Holds(col, Step(t, s, hgnc), b)
  {
    // `Step` indexes the maps under the keys the row presents
    assert KeyOf(BySubmission, s) == Some(s.submission) && KeyOf(ByVariant, s) == Some(s.variant);
    assert KeyOf(ByDisease, s) == s.disease;
  }

  /**
   * One turn of the loop for a row whose variant can be built: what `Take`
   * builds from it goes into the collections with `Ingest`.
   */
  method Turn(col: Collections, ghost t: Tally, ghost b: Builders, digest: Diseases.Digest, hgnc: HGNC, r: Record)
    returns (col': Collections, ghost s: Sighting, submission: Submissions.Submission, variant: Variants.Variant,
             tried: Result<Diseases.Disease>)
    requires b == Meant(digest) && Variants.Buildable(r) && Holds(col, t, b)
    modifies col.submissions.Values, col.variants.Values, col.diseases.Values
    ensures s == Sight(r, digest) && Holds(col', Step(t, s, hgnc), b)
    ensures fresh(submission) && fresh(variant) && (tried.Success? ==> fresh(tried.value))
    ensures col'.submissions.Values <= col.submissions.Values + {submission}
    ensures col'.variants.Values <= col.variants.Values + {variant}
    ensures col'.diseases.Values <= col.diseases.Values + (if tried.Success? then {tried.value} else {})
  {
    var symbols;
    submission, symbols, tried, variant, s := Take(r, digest, b);
    assert submission !in col.submissions.Values && variant !in col.variants.Values;
    assert tried.Success? ==> tried.value !in col.diseases.Values;
    col' := Ingest(col, t, b, digest, hgnc, r, submission, symbols, tried, variant, s);
  }

  /**
   * One pass of the loop of `main` over row `i`: the row's panic when its
   * variant cannot be built, otherwise the row folded into the collections.
   */
  method Advance(col: Collections, ghost t: Tally, ghost b: Builders, digest: Diseases.Digest, hgnc: HGNC,
                 rows: seq<Record>, ghost trace: seq<Result<Tally>>, i: nat)
    returns (col': Collections, ghost t': Tally, stop: Option<string>,
             ghost submission: Option<Submissions.Submission>, ghost variant: Option<Variants.Variant>,
             ghost disease: Option<Diseases.Disease>)
    requires b == Meant(digest) && Traced(trace, rows, digest, hgnc) && i < |rows|
    requires Holds(col, t, b) && trace[i] == Success(t)
    modifies col.submissions.Values, col.variants.Values, col.diseases.Values
    ensures Holds(col', t', b)
    ensures stop.Some? ==> trace[i + 1] == Failure(stop.value)
    ensures stop.None? ==> trace[i + 1] == Success(t')
    ensures submission.Some? ==> fresh(submission.value)
    ensures variant.Some? ==> fresh(variant.value)
    ensures disease.Some? ==> fresh(disease.value)
    ensures col'.submissions.Values <= col.submissions.Values + (if submission.Some? then {submission.value} else {})
    ensures col'.variants.Values <= col.variants.Values + (if variant.Some? then {variant.value} else {})
    ensures col'.diseases.Values <= col.diseases.Values + (if disease.Some? then {disease.value} else {})
  {
    var r := rows[i];
    assert trace[i + 1] == Next(trace[i], r, digest, hgnc);
    NextTakes(t, r, digest, hgnc);
    if !Variants.Buildable(r) {
      col', t', stop := col, t, Abort(r);
      submission, variant, disease := None, None, None;
      return;
    }
    ghost var s;
    var built, made, tried;
    col', s, built, made, tried := Turn(col, t, b, digest, hgnc, r);
    t', stop := Step(t, s, hgnc), None;
    submission, variant := Some(built), Some(made);
    disease := if tried.Success? then Some(tried.value) else None;
  }

  /**
   * The loop of `main`: every row in turn, or only the first in a
   * rehearsal, until a row whose variant cannot be built stops it with
   * that row's panic. After the first `n` rows the collections hold the
   * tally, and `trace[n]` is that tally or that panic.
   */
  method Scan(rows: seq<Record>, rehearsal: bool, digest: Diseases.Digest, hgnc: HGNC, ghost trace: seq<Result<Tally>>)
    returns (col: Collections, stop: Option<string>, ghost tally: Tally, ghost n: nat)
    requires Traced(trace, rows, digest, hgnc)
    ensures Holds(col, tally, Meant(digest))
    ensures n <= |rows| && trace[n] == if stop.Some? then Failure(stop.value) else Success(tally)
    ensures stop.Some? ==> 0 < n && (rehearsal ==> n == 1)
    ensures stop.None? ==> n == |if rehearsal && |rows| > 1 then rows[..1] else rows|
  {
    ghost var b := Meant(digest);
    col, tally, stop := NoCollections, Empty, None;
    // the objects made so far, all of them allocated here
    ghost var subs: set<Submissions.Submission>, vars: set<Variants.Variant>, dis: set<Diseases.Disease> := {}, {}, {};
    var i := 0;
    while i < |rows|
      invariant 0 <= i <= |rows| && (rehearsal ==> i == 0)
      invariant Holds(col, tally, b) && trace[i] == Success(tally) && stop.None?
      invariant fresh(subs) && fresh(vars) && fresh(dis)
      invariant col.submissions.Values <= subs && col.variants.Values <= vars && col.diseases.Values <= dis
    {
      ghost var submission, variant, disease;
      col, tally, stop, submission, variant, disease := Advance(col, tally, b, digest, hgnc, rows, trace, i);
      subs := subs + (if submission.Some? then {submission.value} else {});
      vars := vars + (if variant.Some? then {variant.value} else {});
      dis := dis + (if disease.Some? then {disease.value} else {});
      i := i + 1;
      if stop.Some? || rehearsal {
        break;
      }
    }
    n := i;
  }

  /**
   * `main` up to the writing of the output: the panic of the first row
   * taken whose variant cannot be built, or, when there is none, the
   * collections holding what `Run` describes for the rows taken, with
   * objects built as `Meant` says.
   */
  method Convert(rows: seq<Record>, rehearsal: bool, digest: Diseases.Digest, hgnc: HGNC)
    returns (col: Collections, panic: Option<string>, ghost tally: Tally)
    ensures Holds(col, tally, Meant(digest))
    ensures var taken := if rehearsal && |rows| > 1 then rows[..1] else rows;
      && (panic.None? <==> Run(taken, digest, hgnc).Success?)
      && (panic.Some? ==> Run(taken, digest, hgnc) == Failure(panic.value))
      && (panic.None? ==> tally == Run(taken, digest, hgnc).value)
  {
    ghost var trace := Prefixes(rows, digest, hgnc);
    PrefixesTraced(rows, digest, hgnc);
    ghost var n;
    col, panic, tally, n := Scan(rows, rehearsal, digest, hgnc, trace);
    assert rows[..|rows|] == rows;
    if panic.Some? && !(rehearsal && |rows| > 1) {
      TracedStops(trace, rows, n, |rows|, digest, hgnc);
    }
  }
}
