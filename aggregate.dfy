/**
 * The conversion loop: every row becomes a case; the submission, the
 * variant and the disease the row names are looked up by key, built from
 * the row when the key is new, and handed the case's reference; the gene
 * symbols the row names are registered once each.
 *
 * A row enters the loop as a `Sighting`: the row with the keys it presents
 * and the reference of its case. `Tally` is the loop's state as values
 * (each keyed resource as the row it was first built from and the case
 * references it has received), `Step` one turn of the loop and `Run` the
 * whole loop; `Conversion.Convert` runs the same loop over the mutable
 * `Submission`, `Variant` and `Disease` objects and is proved to track
 * `Run`.
 */
module Aggregation {
  import opened Wrappers
  import opened Input
  import opened Hgnc
  import Cases
  import Variants
  import Diseases
  import Genes
  import Submissions

  /** `Variant::from` panics on alleles without a type and, in a checked build, on an insertion ending at the largest `i32`. */
  const ERR_END_OVERFLOW := "attempt to add with overflow"

  /**
   * What the loop looks at in a row: the reference of its case, the
   * submission and variant identifiers, the disease reference when the row
   * names a disease, the gene symbols, and the panic building its variant
   * raises, if any.
   */
  datatype Sighting = Sighting(
    row: Record,
    ref: string,
    submission: string,
    variant: string,
    disease: Option<string>,
    symbols: seq<string>,
    abort: Option<string>)

  /** The reference a disease gets in a variant's disease set, which is also the key of the disease map. */
  function DiseaseRef(r: Record, digest: Diseases.Digest): (d: Option<string>)
    ensures d.Some? <==> r.row.diseaseName.Some?
    ensures d.Some? ==> d.value == "mgend_disease:" + Diseases.Id(r, digest).value
  {
    match Diseases.Id(r, digest)
    case None => None
    case Some(id) => Some("mgend_disease:" + id)
  }

  function Symbols(r: Record): seq<string>
  {
    match Genes.Parse(r)
    case None => []
    case Some(symbols) => symbols
  }

  /** The panic `Variant::from` raises on the row, if any. */
  function Abort(r: Record): (e: Option<string>)
    ensures e.None? <==> Variants.Buildable(r)
    ensures Variants.Classify(r.row.reference, r.row.alternate).Failure? ==>
      e == Some(Variants.Classify(r.row.reference, r.row.alternate).error)
    ensures Variants.Classify(r.row.reference, r.row.alternate).Success? && !Variants.Buildable(r) ==>
      e == Some(ERR_END_OVERFLOW)
  {
    if Variants.Classify(r.row.reference, r.row.alternate).Failure? then Some(Variants.Classify(r.row.reference, r.row.alternate).error)
    else if !Variants.Buildable(r) then Some(ERR_END_OVERFLOW)
    else None
  }

  function Sight(r: Record, digest: Diseases.Digest): Sighting
  {
    Sighting(r, "mgend_case:" + Cases.Id(r, digest), r.row.submissionId, Variants.Id(r),
      DiseaseRef(r, digest), Symbols(r), Abort(r))
  }

  function Sightings(rows: seq<Record>, digest: Diseases.Digest): (s: seq<Sighting>)
    ensures |s| == |rows| && forall i :: 0 <= i < |rows| ==> s[i] == Sight(rows[i], digest)
  {
    seq(|rows|, i requires 0 <= i < |rows| => Sight(rows[i], digest))
  }

  /** A keyed resource: the row it was built from and the case references added to it, in order. */
  datatype Entry = Entry(first: Record, cases: seq<string>)

  /**
   * The state of the loop after some rows: the rows whose cases have been
   * pushed (the cases themselves are `CasesOf(processed)`), and the maps.
   */
  datatype Tally = Tally(
    processed: seq<Record>,
    submissions: map<string, Entry>,
    genes: map<string, Genes.Gene>,
    variants: map<string, Entry>,
    variantDiseases: map<string, set<string>>,
    diseases: map<string, Entry>)

  const Empty := Tally([], map[], map[], map[], map[], map[])

  /** The cases pushed for `rows`: one per row, in row order. */
  function CasesOf(rows: seq<Record>, digest: Diseases.Digest): seq<Cases.Case>
  {
    seq(|rows|, i requires 0 <= i < |rows| => Cases.CaseOf(rows[i], digest))
  }

  /** The three maps of keyed resources. */
  datatype Kind = BySubmission | ByVariant | ByDisease

  function Keyed(t: Tally, kind: Kind): map<string, Entry>
  {
    match kind
    case BySubmission => t.submissions
    case ByVariant => t.variants
    case ByDisease => t.diseases
  }

  /** The key under which a row reaches each map; a row without a disease does not reach the disease map. */
  function KeyOf(kind: Kind, s: Sighting): Option<string>
  {
    match kind
    case BySubmission => Some(s.submission)
    case ByVariant => Some(s.variant)
    case ByDisease => s.disease
  }

  /**
   * `entry(k).or_insert(built).add_case(case)`: an existing entry keeps the
   * row it was first built from and gains the reference at the end; a new
   * key gets an entry built from this row holding only the reference.
   */
  function Upsert(m: map<string, Entry>, k: string, r: Record, ref: string): (m': map<string, Entry>)
    ensures m'.Keys == m.Keys + {k}
    ensures m'[k].cases == (if k in m then m[k].cases else []) + [ref]
    ensures m'[k].first == (if k in m then m[k].first else r)
    ensures forall j :: j in m && j != k ==> m'[j] == m[j]
  {
    if k in m then m[k := Entry(m[k].first, m[k].cases + [ref])] else m[k := Entry(r, [ref])]
  }

  function Index(m: map<string, Entry>, key: Option<string>, r: Record, ref: string): map<string, Entry>
  {
    if key.None? then m else Upsert(m, key.value, r, ref)
  }

  /**
   * The gene loop: each symbol in turn is inserted with `Gene::new` unless
   * it is already present, so an entry, once there, is never replaced.
   */
  function AddGenes(genes: map<string, Genes.Gene>, symbols: seq<string>, hgnc: HGNC): (r: map<string, Genes.Gene>)
    ensures forall k :: k in r <==> k in genes || k in symbols
    ensures forall k :: k in genes ==> r[k] == genes[k]
    ensures forall k :: k in r && k !in genes ==> r[k] == Genes.New(k, hgnc)
    decreases |symbols|
  {
    if symbols == [] then genes
    else
      var g := AddGenes(genes, symbols[..|symbols| - 1], hgnc);
      var s := symbols[|symbols| - 1];
      assert symbols == symbols[..|symbols| - 1] + [s];
      if s in g then g else g[s := Genes.New(s, hgnc)]
  }

  /** The variant's disease set after the row: it gains the row's disease reference, if any. */
  function AddDisease(sets: map<string, set<string>>, v: string, d: Option<string>): map<string, set<string>>
  {
    sets[v := (if v in sets then sets[v] else {}) + (if d.Some? then {d.value} else {})]
  }

  /** One turn of the loop for a row whose variant can be built. */
  function Step(t: Tally, s: Sighting, hgnc: HGNC): Tally
  {
    Tally(
      t.processed + [s.row],
      Index(t.submissions, KeyOf(BySubmission, s), s.row, s.ref),
      AddGenes(t.genes, s.symbols, hgnc),
      Index(t.variants, KeyOf(ByVariant, s), s.row, s.ref),
      AddDisease(t.variantDiseases, s.variant, s.disease),
      Index(t.diseases, KeyOf(ByDisease, s), s.row, s.ref))
  }

  /** The map of one kind after the loop has taken every row of `ss`. */
  function IndexAll(ss: seq<Sighting>, kind: Kind): map<string, Entry>
    decreases |ss|
  {
    if ss == [] then map[]
    else
      var s := ss[|ss| - 1];
      Index(IndexAll(ss[..|ss| - 1], kind), KeyOf(kind, s), s.row, s.ref)
  }

  /** The gene map after the loop has taken every row of `ss`. */
  function GenesOf(ss: seq<Sighting>, hgnc: HGNC): map<string, Genes.Gene>
    decreases |ss|
  {
    if ss == [] then map[] else AddGenes(GenesOf(ss[..|ss| - 1], hgnc), ss[|ss| - 1].symbols, hgnc)
  }

  /** The variants' disease sets after the loop has taken every row of `ss`. */
  function DiseaseSets(ss: seq<Sighting>): map<string, set<string>>
    decreases |ss|
  {
    if ss == [] then map[] else AddDisease(DiseaseSets(ss[..|ss| - 1]), ss[|ss| - 1].variant, ss[|ss| - 1].disease)
  }

  /** The rows of the sightings. */
  function RowsOf(ss: seq<Sighting>): (rows: seq<Record>)
    ensures |rows| == |ss| && forall i :: 0 <= i < |ss| ==> rows[i] == ss[i].row
    decreases |ss|
  {
    if ss == [] then [] else RowsOf(ss[..|ss| - 1]) + [ss[|ss| - 1].row]
  }

  /** The state after the loop has taken every row of `ss`, field by field. */
  function Fold(ss: seq<Sighting>, hgnc: HGNC): Tally
  {
    Tally(RowsOf(ss), IndexAll(ss, BySubmission), GenesOf(ss, hgnc), IndexAll(ss, ByVariant),
      DiseaseSets(ss), IndexAll(ss, ByDisease))
  }

  /** `Fold` is the loop: it starts empty and takes the rows one `Step` at a time. */
  lemma FoldSnoc(ss: seq<Sighting>, s: Sighting, hgnc: HGNC)
    ensures Fold([], hgnc) == Empty
    ensures Fold(ss + [s], hgnc) == Step(Fold(ss, hgnc), s, hgnc)
  {
    var ss' := ss + [s];
    assert ss'[..|ss|] == ss;
    assert IndexAll(ss', BySubmission) == Index(IndexAll(ss, BySubmission), KeyOf(BySubmission, s), s.row, s.ref);
    assert IndexAll(ss', ByVariant) == Index(IndexAll(ss, ByVariant), KeyOf(ByVariant, s), s.row, s.ref);
    assert IndexAll(ss', ByDisease) == Index(IndexAll(ss, ByDisease), KeyOf(ByDisease, s), s.row, s.ref);
  }

  /** The panic of the first row that raises one. */
  function FirstAbort(ss: seq<Sighting>): Option<string>
    decreases |ss|
  {
    if ss == [] then None
    else if ss[0].abort.Some? then ss[0].abort
    else FirstAbort(ss[1..])
  }

  /**
   * The loop over the rows of the input. Building a row's variant panics
   * when its type cannot be resolved or its insertion end has no
   * successor; the panic ends the run, discarding what was gathered, and
   * is a `Failure` carrying its message.
   */
  function Run(rows: seq<Record>, digest: Diseases.Digest, hgnc: HGNC): Result<Tally>
  {
    var ss := Sightings(rows, digest);
    if FirstAbort(ss).Some? then Failure(FirstAbort(ss).value) else Success(Fold(ss, hgnc))
  }

  /** No panic is found exactly when no row raises one; a panic found is the first row's that raises one. */
  lemma {:induction false} FirstAbortFound(ss: seq<Sighting>)
    ensures FirstAbort(ss).None? <==> forall i :: 0 <= i < |ss| ==> ss[i].abort.None?
    ensures FirstAbort(ss).Some? ==>
      exists i :: 0 <= i < |ss| && ss[i].abort == FirstAbort(ss) && forall j :: 0 <= j < i ==> ss[j].abort.None?
    decreases |ss|
  {
    if ss != [] && ss[0].abort.None? {
      var rest := ss[1..];
      FirstAbortFound(rest);
      assert forall i :: 0 <= i < |rest| ==> rest[i] == ss[i + 1];
      if FirstAbort(rest).Some? {
        var i :| 0 <= i < |rest| && rest[i].abort == FirstAbort(rest) && forall j :: 0 <= j < i ==> rest[j].abort.None?;
        assert ss[i + 1].abort == FirstAbort(ss);
        forall j | 0 <= j < i + 1 ensures ss[j].abort.None? {
          if j > 0 { assert ss[j] == rest[j - 1]; }
        }
      } else {
        forall i | 0 <= i < |ss| ensures ss[i].abort.None? {
          if i > 0 { assert ss[i] == rest[i - 1]; }
        }
      }
    }
  }

  /** The panic found is that of the first row raising one. */
  lemma {:induction false} FirstAbortAt(ss: seq<Sighting>, i: nat)
    requires i < |ss| && ss[i].abort.Some? && forall j :: 0 <= j < i ==> ss[j].abort.None?
    ensures FirstAbort(ss) == ss[i].abort
    decreases i
  {
    if i > 0 {
      var rest := ss[1..];
      assert forall j :: 0 <= j < i - 1 ==> rest[j] == ss[j + 1];
      FirstAbortAt(rest, i - 1);
    }
  }

  /**
   * The run over the input completes exactly when every row's variant can
   * be built, and then it has processed every row, in order, with one case
   * per row; otherwise it fails with the panic of the first row whose
   * variant cannot be built.
   */
  lemma RunSucceeds(rows: seq<Record>, digest: Diseases.Digest, hgnc: HGNC)
    ensures Run(rows, digest, hgnc).Success? <==> forall i :: 0 <= i < |rows| ==> Variants.Buildable(rows[i])
    ensures Run(rows, digest, hgnc).Success? ==> Run(rows, digest, hgnc).value.processed == rows
    ensures Run(rows, digest, hgnc).Success? ==>
      |CasesOf(Run(rows, digest, hgnc).value.processed, digest)| == |rows| &&
      forall i :: 0 <= i < |rows| ==> CasesOf(Run(rows, digest, hgnc).value.processed, digest)[i] == Cases.CaseOf(rows[i], digest)
  {
    var ss := Sightings(rows, digest);
    FirstAbortFound(ss);
    assert RowsOf(ss) == rows;
  }

  /** A failed run carries the panic of the first row whose variant cannot be built. */
  lemma RunFails(rows: seq<Record>, digest: Diseases.Digest, hgnc: HGNC)
    requires Run(rows, digest, hgnc).Failure?
    ensures exists i ::
      && 0 <= i < |rows| && !Variants.Buildable(rows[i])
      && Abort(rows[i]) == Some(Run(rows, digest, hgnc).error)
      && forall j :: 0 <= j < i ==> Variants.Buildable(rows[j])
  {
    var ss := Sightings(rows, digest);
    FirstAbortFound(ss);
  }

  /**
   * One turn of the loop of `main` as it meets the next row: a panic
   * stops the loop for good; otherwise the row is one more `Step`.
   */
  function Next(before: Result<Tally>, r: Record, digest: Diseases.Digest, hgnc: HGNC): Result<Tally>
  {
    if before.Failure? then before
    else if Abort(r).Some? then Failure(Abort(r).value)
    else Success(Step(before.value, Sight(r, digest), hgnc))
  }

  /** The first panic among the sightings of one more row. */
  lemma {:induction false} FirstAbortSnoc(ss: seq<Sighting>, s: Sighting)
    ensures FirstAbort(ss + [s]) == if FirstAbort(ss).Some? then FirstAbort(ss) else s.abort
    decreases |ss|
  {
    if ss != [] {
      assert (ss + [s])[1..] == ss[1..] + [s];
      FirstAbortSnoc(ss[1..], s);
    }
  }

  /** A prefix of a sequence is the prefix one shorter and its last element. */
  lemma PrefixSnoc<T>(xs: seq<T>, k: nat)
    requires 0 < k <= |xs|
    ensures xs[..k] == xs[..k - 1] + [xs[k - 1]]
  {
  }

  /** The sightings of one more row. */
  lemma SightingsSnoc(rows: seq<Record>, r: Record, digest: Diseases.Digest)
    ensures Sightings(rows + [r], digest) == Sightings(rows, digest) + [Sight(r, digest)]
  {
    MapSnoc(rows, r, digest, Sight, Sightings(rows, digest), Sightings(rows + [r], digest));
  }

  /** A list mapped from `ys` by `f` under `d`, grown by one element, is mapped from `ys + [y]`. */
  lemma MapSnoc<U, D, T>(ys: seq<U>, y: U, d: D, f: (U, D) -> T, xs: seq<T>, xs': seq<T>)
    requires |xs| == |ys| && forall i :: 0 <= i < |ys| ==> xs[i] == f(ys[i], d)
    requires |xs'| == |ys| + 1 && forall i :: 0 <= i < |ys| + 1 ==> xs'[i] == f((ys + [y])[i], d)
    ensures xs' == xs + [f(y, d)]
  {
    forall i | 0 <= i < |xs'|
      ensures xs'[i] == (xs + [f(y, d)])[i]
    {
      if i < |ys| {
        assert (ys + [y])[i] == ys[i];
      }
    }
  }

  /** The run over one more row is one more turn of the loop. */
  lemma {:induction false} RunSnoc(rows: seq<Record>, r: Record, digest: Diseases.Digest, hgnc: HGNC)
    ensures Run(rows + [r], digest, hgnc) == Next(Run(rows, digest, hgnc), r, digest, hgnc)
  {
    SightingsSnoc(rows, r, digest);
    FirstAbortSnoc(Sightings(rows, digest), Sight(r, digest));
    FoldSnoc(Sightings(rows, digest), Sight(r, digest), hgnc);
  }

  /**
   * `trace[k]` is what the loop has made of the first `k` rows: it starts
   * empty and each entry is one `Next` of the one before it.
   */
  ghost predicate Traced(trace: seq<Result<Tally>>, rows: seq<Record>, digest: Diseases.Digest, hgnc: HGNC)
  {
    && |trace| == |rows| + 1 && trace[0] == Success(Empty)
    && forall k {:trigger Next(trace[k], rows[k], digest, hgnc)} :: 0 <= k < |rows| ==>
      trace[k + 1] == Next(trace[k], rows[k], digest, hgnc)
  }

  /** The run over each prefix of the rows. */
  function Prefixes(rows: seq<Record>, digest: Diseases.Digest, hgnc: HGNC): seq<Result<Tally>>
  {
    seq(|rows| + 1, k requires 0 <= k <= |rows| => Run(rows[..k], digest, hgnc))
  }

  /** The runs over the prefixes are a trace of the loop. */
  lemma PrefixesTraced(rows: seq<Record>, digest: Diseases.Digest, hgnc: HGNC)
    ensures Traced(Prefixes(rows, digest, hgnc), rows, digest, hgnc)
  {
    var trace := Prefixes(rows, digest, hgnc);
    assert trace[0] == Run([], digest, hgnc) by { assert rows[..0] == []; }
    forall k | 0 <= k < |rows|
      ensures trace[k + 1] == Next(trace[k], rows[k], digest, hgnc)
    {
      PrefixSnoc(rows, k + 1);
      RunSnoc(rows[..k], rows[k], digest, hgnc);
    }
  }

  /** A trace of the loop holds the run over each prefix: the loop is `Run`, one row at a time. */
  lemma {:induction false} TracedRuns(trace: seq<Result<Tally>>, rows: seq<Record>, k: nat, digest: Diseases.Digest, hgnc: HGNC)
    requires Traced(trace, rows, digest, hgnc) && k <= |rows|
    ensures trace[k] == Run(rows[..k], digest, hgnc)
    decreases k
  {
    if k == 0 {
      assert rows[..0] == [];
    } else {
      TracedRuns(trace, rows, k - 1, digest, hgnc);
      assert trace[k] == Next(trace[k - 1], rows[k - 1], digest, hgnc);
      PrefixSnoc(rows, k);
      RunSnoc(rows[..k - 1], rows[k - 1], digest, hgnc);
    }
  }

  /** A panic, once raised, passes through every later turn. */
  lemma NextStops(before: Result<Tally>, r: Record, digest: Diseases.Digest, hgnc: HGNC)
    requires before.Failure?
    ensures Next(before, r, digest, hgnc) == before
  {
  }

  /** A row whose variant can be built is one more `Step`; any other stops the loop with its panic. */
  lemma NextTakes(t: Tally, r: Record, digest: Diseases.Digest, hgnc: HGNC)
    ensures Variants.Buildable(r) ==> Next(Success(t), r, digest, hgnc) == Success(Step(t, Sight(r, digest), hgnc))
    ensures !Variants.Buildable(r) ==> Next(Success(t), r, digest, hgnc) == Failure(Abort(r).value)
  {
  }

  /** Once a panic stops the loop, the rows after it change nothing: the loop ends with that panic. */
  lemma {:induction false} TracedStops(trace: seq<Result<Tally>>, rows: seq<Record>, n: nat, m: nat,
                                       digest: Diseases.Digest, hgnc: HGNC)
    requires Traced(trace, rows, digest, hgnc) && n <= m <= |rows| && trace[n].Failure?
    ensures trace[m] == trace[n]
    decreases m
  {
    if n < m {
      TracedStops(trace, rows, n, m - 1, digest, hgnc);
      assert trace[m] == Next(trace[m - 1], rows[m - 1], digest, hgnc);
      NextStops(trace[m - 1], rows[m - 1], digest, hgnc);
    }
  }

  // ---------------------------------------------------------------------
  // What the maps hold after a run
  // ---------------------------------------------------------------------

  /** The references of the rows reaching key `k` of a map, in row order. */
  function Refs(ss: seq<Sighting>, kind: Kind, k: string): seq<string>
    decreases |ss|
  {
    if ss == [] then []
    else
      var s := ss[|ss| - 1];
      Refs(ss[..|ss| - 1], kind, k) + (if KeyOf(kind, s) == Some(k) then [s.ref] else [])
  }

  /** `i` is the first row reaching key `k`. */
  predicate FirstWith(ss: seq<Sighting>, kind: Kind, k: string, i: int)
  {
    0 <= i < |ss| && KeyOf(kind, ss[i]) == Some(k) &&
    forall j :: 0 <= j < i ==> KeyOf(kind, ss[j]) != Some(k)
  }

  /** After a run, a map has a key exactly when some row reaches it. */
  lemma {:induction false} IndexKeys(ss: seq<Sighting>, kind: Kind, k: string)
    ensures k in IndexAll(ss, kind) <==> exists i :: 0 <= i < |ss| && KeyOf(kind, ss[i]) == Some(k)
    decreases |ss|
  {
    if ss != [] {
      var init := ss[..|ss| - 1];
      IndexKeys(init, kind, k);
      if exists i :: 0 <= i < |ss| && KeyOf(kind, ss[i]) == Some(k) {
        var i :| 0 <= i < |ss| && KeyOf(kind, ss[i]) == Some(k);
        if i < |init| {
          assert init[i] == ss[i];
        }
      } else {
        assert forall i :: 0 <= i < |init| ==> init[i] == ss[i];
      }
    }
  }

  /** After a run, the entry of a key holds the references of the rows reaching it, in row order. */
  lemma {:induction false} IndexCases(ss: seq<Sighting>, kind: Kind, k: string)
    ensures Refs(ss, kind, k) == if k in IndexAll(ss, kind) then IndexAll(ss, kind)[k].cases else []
    decreases |ss|
  {
    if ss != [] {
      IndexCases(ss[..|ss| - 1], kind, k);
    }
  }

  /** After a run, the entry of a key was built from the first row reaching it: later rows never replace it. */
  lemma {:induction false} IndexFirst(ss: seq<Sighting>, kind: Kind, k: string)
    requires k in IndexAll(ss, kind)
    ensures exists i :: FirstWith(ss, kind, k, i) && IndexAll(ss, kind)[k].first == ss[i].row
    decreases |ss|
  {
    var init := ss[..|ss| - 1];
    var m := IndexAll(init, kind);
    if k in m {
      IndexFirst(init, kind, k);
      var i :| FirstWith(init, kind, k, i) && m[k].first == init[i].row;
      assert init[i] == ss[i];
      assert forall j :: 0 <= j < i ==> init[j] == ss[j];
      assert FirstWith(ss, kind, k, i);
    } else {
      IndexKeys(init, kind, k);
      assert forall j :: 0 <= j < |init| ==> init[j] == ss[j];
      assert FirstWith(ss, kind, k, |ss| - 1);
    }
  }

  /** The sum of the lengths of the case lists of a map. */
  ghost function Total(m: map<string, Entry>): nat
    decreases |m.Keys|
  {
    if m == map[] then 0
    else
      var k :| k in m;
      |m[k].cases| + Total(m - {k})
  }

  /** `Total` does not depend on the key it takes out first. */
  lemma {:induction false} TotalWithout(m: map<string, Entry>, k: string)
    requires k in m
    ensures Total(m) == |m[k].cases| + Total(m - {k})
    decreases |m.Keys|
  {
    var j :| j in m && Total(m) == |m[j].cases| + Total(m - {j});
    if j != k {
      assert |(m - {j}).Keys| < |m.Keys| by { assert m.Keys == (m - {j}).Keys + {j}; }
      assert |(m - {k}).Keys| < |m.Keys| by { assert m.Keys == (m - {k}).Keys + {k}; }
      TotalWithout(m - {j}, k);
      TotalWithout(m - {k}, j);
      assert m - {j} - {k} == m - {k} - {j};
    }
  }

  /** Upserting adds one reference to the total. */
  lemma TotalUpsert(m: map<string, Entry>, k: string, r: Record, ref: string)
    ensures Total(Upsert(m, k, r, ref)) == Total(m) + 1
  {
    var m' := Upsert(m, k, r, ref);
    TotalWithout(m', k);
    if k in m {
      TotalWithout(m, k);
      assert m' - {k} == m - {k};
    } else {
      assert m' - {k} == m;
    }
  }

  /** The number of rows that reach some key of a map. */
  function Reaching(ss: seq<Sighting>, kind: Kind): nat
    decreases |ss|
  {
    if ss == [] then 0
    else Reaching(ss[..|ss| - 1], kind) + (if KeyOf(kind, ss[|ss| - 1]).Some? then 1 else 0)
  }

  /** Every row reaches the submission map and the variant map. */
  lemma {:induction false} AllReach(ss: seq<Sighting>, kind: Kind)
    requires kind != ByDisease
    ensures Reaching(ss, kind) == |ss|
    decreases |ss|
  {
    if ss != [] {
      AllReach(ss[..|ss| - 1], kind);
    }
  }

  /** After a run, a map's case lists hold one reference per row reaching it. */
  lemma {:induction false} IndexTotal(ss: seq<Sighting>, kind: Kind)
    ensures Total(IndexAll(ss, kind)) == Reaching(ss, kind)
    decreases |ss|
  {
    if ss != [] {
      var s := ss[|ss| - 1];
      IndexTotal(ss[..|ss| - 1], kind);
      if KeyOf(kind, s).Some? {
        TotalUpsert(IndexAll(ss[..|ss| - 1], kind), KeyOf(kind, s).value, s.row, s.ref);
      }
    }
  }

  /** After `n` rows there are `n` cases, and the case lists of the variants and of the submissions each sum to `n`. */
  lemma CaseCounts(rows: seq<Record>, digest: Diseases.Digest, hgnc: HGNC)
    requires Run(rows, digest, hgnc).Success?
    ensures |CasesOf(Run(rows, digest, hgnc).value.processed, digest)| == |rows|
    ensures Total(Run(rows, digest, hgnc).value.variants) == |rows|
    ensures Total(Run(rows, digest, hgnc).value.submissions) == |rows|
  {
    var ss := Sightings(rows, digest);
    IndexTotal(ss, ByVariant);
    IndexTotal(ss, BySubmission);
    AllReach(ss, ByVariant);
    AllReach(ss, BySubmission);
  }

  /**
   * After a run the gene map has a symbol exactly when some row names it,
   * and its gene is the one `Gene::new` builds for that symbol.
   */
  lemma {:induction false} GenesNamed(ss: seq<Sighting>, hgnc: HGNC, k: string)
    ensures k in GenesOf(ss, hgnc) <==> exists i :: 0 <= i < |ss| && k in ss[i].symbols
    ensures k in GenesOf(ss, hgnc) ==> GenesOf(ss, hgnc)[k] == Genes.New(k, hgnc)
    decreases |ss|
  {
    if ss != [] {
      var init := ss[..|ss| - 1];
      GenesNamed(init, hgnc, k);
      assert forall i :: 0 <= i < |init| ==> init[i] == ss[i];
    }
  }

  /** A variant has a disease set exactly when some row names it, so every variant has one. */
  lemma {:induction false} DiseaseSetKeys(ss: seq<Sighting>, v: string)
    ensures v in DiseaseSets(ss) <==> exists i :: 0 <= i < |ss| && ss[i].variant == v
    ensures v in DiseaseSets(ss) <==> v in IndexAll(ss, ByVariant)
    decreases |ss|
  {
    if ss != [] {
      var init := ss[..|ss| - 1];
      DiseaseSetKeys(init, v);
      if exists i :: 0 <= i < |ss| && ss[i].variant == v {
        var i :| 0 <= i < |ss| && ss[i].variant == v;
        if i < |init| {
          assert init[i] == ss[i];
        }
      } else {
        assert forall i :: 0 <= i < |init| ==> init[i] == ss[i];
      }
    }
    IndexKeys(ss, ByVariant, v);
  }

  /** A variant's disease set holds exactly the disease references of the rows of that variant that name a disease. */
  lemma {:induction false} DiseaseSetContents(ss: seq<Sighting>, v: string, d: string)
    requires v in DiseaseSets(ss)
    ensures d in DiseaseSets(ss)[v] <==> exists i :: 0 <= i < |ss| && ss[i].variant == v && ss[i].disease == Some(d)
    decreases |ss|
  {
    var init := ss[..|ss| - 1];
    DiseaseSetKeys(init, v);
    if v in DiseaseSets(init) {
      DiseaseSetContents(init, v, d);
    }
    if exists i :: 0 <= i < |ss| && ss[i].variant == v && ss[i].disease == Some(d) {
      var i :| 0 <= i < |ss| && ss[i].variant == v && ss[i].disease == Some(d);
      if i < |init| {
        assert init[i] == ss[i];
      }
    } else {
      assert forall i :: 0 <= i < |init| ==> init[i] == ss[i];
    }
  }

  /** Feeding a row a second time leaves the variant's disease set and the gene map as the first time left them. */
  lemma StepTwiceSets(t: Tally, s: Sighting, hgnc: HGNC)
    ensures Step(Step(t, s, hgnc), s, hgnc).variantDiseases == Step(t, s, hgnc).variantDiseases
    ensures Step(Step(t, s, hgnc), s, hgnc).genes == Step(t, s, hgnc).genes
  {
    var once := Step(t, s, hgnc);
    var twice := Step(once, s, hgnc);
    assert once.variantDiseases[s.variant] == twice.variantDiseases[s.variant];
    assert twice.genes.Keys == once.genes.Keys;
  }

  /** Feeding a row a second time appends its reference again to the case lists of its submission, its variant and its disease. */
  lemma StepTwiceCases(t: Tally, s: Sighting, hgnc: HGNC, kind: Kind)
    requires KeyOf(kind, s).Some?
    ensures Keyed(Step(Step(t, s, hgnc), s, hgnc), kind)[KeyOf(kind, s).value].cases ==
      (if KeyOf(kind, s).value in Keyed(t, kind) then Keyed(t, kind)[KeyOf(kind, s).value].cases else []) + [s.ref, s.ref]
  {
  }
}
