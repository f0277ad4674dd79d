# mgend: clinical-genomics rows to RDF, modelled in Dafny

mgend reads the MGeND variant table, a tab-separated file in which each
row reports one case: a submission, a variant (assembly, chromosome,
positions, reference and alternate alleles), possibly a disease, the
genes, cross-references to terminologies, age histograms and sex
counts. It turns the rows into linked resources:

- a `Case` for every row;
- one `Submission`, `Variant`, `Disease` and `Gene` per distinct key, each
  collecting references to the cases that name it.

It then writes every resource as a Turtle statement (or as JSON-LD).

This project models:

- the conversion loop of `main`;
- the constructors of the five resources;
- their Turtle writers;
- the shared Turtle helpers;
- the cross-reference URIs;
- the HGNC symbol table.

The modules follow the program's files:

| module | models |
|---|---|
| `Turtle` | `format/turtle.rs`, together with a document model. Each writer is proved to emit the text of `Statement(subject, lines)`. |
| `NameSpaces`, `Input` | the namespaces and the input row |
| `XRefs` | `output.rs` |
| `Hgnc` | `hgnc.rs` |
| `Patterns` | the regular expressions, as leftmost-match functions |
| `Text` | UTF-8 length, `trim`, `split`, decimal and lower-hex formatting |
| `Cases`, `Variants`, `Diseases`, `Submissions`, `Genes` | the output models |
| `Aggregation` | the loop of `main` over values (`Step`, `Run`) and its properties |
| `Conversion` | the same loop over mutable objects, proved to track `Run` |

Resources whose fields the program updates in place are classes: `Variant`, `Disease` and `Submission`, through `add_case` and `add_disease`. `Case` and `Gene` are datatypes.

The SHA-256 digest that identifies a disease is a parameter (`Digest`). The HGNC table is a parameter built by `Hgnc.FromRows` from rows that are already parsed.

## Model

| member | source | states |
|---|---|---|
| Turtle.Literal | src/format/turtle.rs:10-12 | the literal is the text between two double quotes, nothing escaped |
| Turtle.Pname | src/format/turtle.rs:14-18 | every reserved character `.` `,` `/` `#` of the result is preceded by a backslash; the result grows by one character per reserved character |
| Turtle.PnameRoundTrip | src/format/turtle.rs:14-18 | a name written with `pname` reads back, under Turtle's local-name unescaping, as the original name |
| Turtle.PnameQualified | src/format/turtle.rs:14-18 | a qualifier without reserved characters passes through `pname` unchanged, so only the local part is escaped |
| Turtle.WriteVec | src/format/turtle.rs:20-39 | the appended text is exactly the predicate line for the items in order (` ;\n  pred x0` then ` ,\n    xi`), and nothing when there are no items |
| Turtle.WriteSet | src/format/turtle.rs:41-60 | the appended text is the predicate line for the set's elements in some order that lists every element exactly once |
| Turtle.Statement | src/models/output/disease.rs:104-114 | a statement starts with its subject and ends with the ` .` line |
| NameSpaces.Qualified | src/models/name_space.rs:1-54 | `prefix:local` is the prefix, a colon and the local name, with nothing lost on either side |
| XRefs.XRef.Display | src/models/output.rs:32-48 | the URI is the vocabulary's fixed stem followed by the identifier verbatim |
| XRefs.Parse | src/models/output.rs:32-48 | whatever a URI reads back as displays as that URI |
| XRefs.ParseDisplay | src/models/output.rs:32-48 | every displayed cross-reference reads back as itself (round trip) |
| XRefs.DisplayInjective | src/models/output.rs:32-48 | two different cross-references never display as the same URI |
| Hgnc.FromRows | src/models/hgnc.rs:19-44 | the loaded table is `Definitions(rows)`: rows read in order, later rows overwriting earlier keys |
| Hgnc.RejectedRow | src/models/hgnc.rs:31 | a row without `HGNC:<digits>` leaves the table unchanged |
| Hgnc.AcceptedRow | src/models/hgnc.rs:31-39 | after an accepted row its symbol and every `\|`-separated alias map to its digits, and every other key keeps its value |
| Hgnc.InsertAll | src/models/hgnc.rs:33-38 | inserting keys with one value: the keys are the old ones plus the inserted ones, inserted keys map to the value, others unchanged |
| Hgnc.HGNC.Find | src/models/hgnc.rs:46-48 | a value exactly when the symbol is a key, and then the stored one |
| Patterns.Find | src/models/output/case.rs:155-193 | a match is found exactly when the pattern matches somewhere, and it is the text matched at the leftmost matching position |
| Patterns.FindFirstMatch | src/models/output/case.rs:155-193 | when `i` is the first position where the pattern matches, the match found is exactly the text matched at `i` |
| Patterns.Leftmost | src/models/output/case.rs:155-193 | the position found is a match and no earlier position is |
| Patterns.FindDigits | src/models/output/case.rs:187-193 | the leftmost `\d+` match is a non-empty digit run, preceded by no digit and not followed by one |
| Patterns.FindIcd10 | src/models/output/case.rs:155 | the match has the shape capital letter, digits, optionally `.` and one of `-`, a digit, `+` |
| Patterns.FindMesh | src/models/output/case.rs:168 | the match is `C` or `D` followed by digits |
| Patterns.HgncNumber | src/models/hgnc.rs:31 | the captured group exists exactly when `HGNC:` followed by a digit occurs, and is the digit run of the leftmost such occurrence |
| Patterns.HgncNumberFirstMatch | src/models/hgnc.rs:31 | when `i` is the first position of `HGNC:\d+`, the group is exactly the digits matched after it |
| Patterns.MedGenCidDecides | src/models/output/case.rs:173-175 | the split-at-letter-run decision agrees with the anchored pattern `^[CN]+\d{4,7}$` in both directions |
| Patterns.AliasGroup | src/models/hgnc.rs:35 | the group exists exactly when the text has no newline; a leading double quote is dropped |
| Text.Utf8Length | src/models/output/variant.rs:315-330 | the UTF-8 byte length is never less than the character count; it is one only for a single ASCII character |
| Text.Trim | src/models/output/gene.rs:24-30 | `trim` keeps an infix that neither starts nor ends with whitespace, and only whitespace is cut off |
| Text.SplitJoin | src/models/output/gene.rs:24-30 | splitting loses nothing: joining the pieces with the separator gives the text back |
| Text.DecimalRoundTrip | src/models/output/case.rs:58 | a formatted natural number reads back as itself |
| Text.HexRoundTrip | src/models/output/disease.rs:31 | the lower-hex text of a digest byte sequence reads back as those bytes |
| Cases.Id | src/models/output/case.rs:124-129 | the case id starts with `submission#variant` and has a disease suffix exactly when the row names a disease |
| Cases.IdParts | src/models/output/case.rs:124-129 | when neither the submission id nor the variant id holds `#` and the chromosome and alleles hold no `_`, the id splits at `#` into the submission id and the variant key fields followed by the disease digest |
| Cases.Types | src/models/output/case.rs:140-149 | the type list starts with `mgendo:Case` and has a second entry exactly for a somatic or germline origin |
| Cases.TypesTagOrigin | src/models/output/case.rs:140-149 | the somatic tag appears exactly for a somatic origin, the germline tag exactly for a germline origin |
| Cases.TypeTags | src/models/output/case.rs:140-149 | the tags pushed one by one are `Types(origin)` |
| Cases.CodeXRefs | src/models/output/case.rs:151-163 | at most one reference: SNOMED CT verbatim, or ICD-10 exactly when the code contains an ICD-10 match, holding the text of the leftmost match |
| Cases.Icd10Examples | src/models/output/case.rs:151-163 | the ICD-10 code `C34.9` gives the reference `C34.9`; the text `notacode` gives none |
| Cases.ConditionXRefs | src/models/output/case.rs:164-197 | at most one reference, by condition type: MeSH exactly when `[CD]\d+` occurs, holding the leftmost match; MedGen exactly when the whole value is a concept id `^[CN]+\d{4,7}$` (CID) or `^\d{4,7}$` (UID), the concept shape first; OMIM exactly when the whole value is `^PS\d+$` (phenotypic series) or `^\d+$`, the series first; HPO and Orphanet exactly when a digit occurs, holding the leftmost digit run |
| Cases.DigitsXRef | src/models/output/case.rs:187-193 | a reference exactly when the value contains a digit, built from the leftmost digit run |
| Cases.CollectXRefs | src/models/output/case.rs:151-197 | the code pair's reference comes before the condition pair's, at most two in all |
| Cases.NewHistogram | src/models/output/case.rs:41-64 | one slot per value, numbered from 1, typed `mgendo:BinNN`, with the value as frequency |
| Cases.BinTypeDigits | src/models/output/case.rs:58 | bin types below 100 are the prefix followed by two digits whose value is the bin number |
| Cases.HistogramBinsDistinct | src/models/output/case.rs:41-64 | the bins of a histogram have pairwise different types |
| Cases.SexCountsOf | src/models/output/case.rs:239-245 | five counts, labelled male, female, mixed gender, unknown, not provided, with the row's numerators in that order |
| Cases.CaseOfFields | src/models/output/case.rs:137-263 | every field of the case as the row determines it: id, types, the variant, submission and disease links, origins, significance, total, references, histograms and sex counts |
| Cases.CaseOfShape | src/models/output/case.rs:199-261 | at most two references; two histograms of thirteen bins, by age then age of onset, carrying the row's counts in bin order |
| Cases.From | src/models/output/case.rs:137-263 | the case built is `CaseOf(row)` |
| Cases.Iris | src/models/output/case.rs:385-396 | each cross-reference becomes its URI in angle brackets, in order |
| Cases.WriteBins | src/models/output/case.rs:435-447 | the slot blank nodes are written, separated by ` , `, as the document model renders them |
| Cases.WriteHistograms | src/models/output/case.rs:410-450 | the age histogram blank nodes are written as the document model renders them |
| Cases.WriteSexCounts | src/models/output/case.rs:452-471 | the sex-count blank nodes are written as the document model renders them |
| Cases.Case.ToTtl | src/models/output/case.rs:331-477 | the text is the statement of the case: subject, types, links, origins, facts and counts, each line present when its value is |
| Cases.DiseaseLineIffPresent | src/models/output/case.rs:353-360 | the case has a disease line exactly when it has a disease |
| Cases.SeeAlsoLineIffXRefs | src/models/output/case.rs:385-396 | the case has an `rdfs:seeAlso` line exactly when it has cross-references |
| Variants.KeyFields | src/models/output/variant.rs:48-58 | the key has six fields, the chromosome second |
| Variants.IdFields | src/models/output/variant.rs:48-58 | when the chromosome and alleles hold no `_`, the id splits at `_` back into the key fields |
| Variants.IdInjective | src/models/output/variant.rs:48-58 | among rows whose chromosome and alleles hold no `_`, two rows get the same variant id exactly when their key fields agree |
| Variants.IdCollision | src/models/output/variant.rs:48-58 | without that condition ids collide: alleles `a`/`b_c` and `a_b`/`c` at the same place give the same id from different key fields |
| Variants.Classify | src/models/output/variant.rs:315-330 | SNV, MNV, indel, insertion and deletion each exactly under their byte-length condition; a panic with the exact message exactly for no alleles or two empty ones |
| Variants.SnvIsAscii | src/models/output/variant.rs:315-330 | an SNV is exactly a pair of single ASCII characters |
| Variants.Chromosome | src/models/output/variant.rs:379-419 | every occurrence of `chr` found scanning left to right is removed, then a bare `M` becomes `MT`; a name without `chr` other than `M` is kept |
| Text.RemoveAllFirst | src/models/output/variant.rs:386 | `replace("chr", "")` keeps the text before the first occurrence, drops that occurrence and treats the rest the same way; with the case of no occurrence, this fixes the result on every input |
| Text.RemoveAllOnePass | src/models/output/variant.rs:386 | removal is a single left-to-right pass: `cchrhr` becomes `chr`, which still contains `chr` |
| Variants.ChromosomeIgnoresPrefix | src/models/output/variant.rs:379-419 | a leading `chr` makes no difference |
| Variants.MitochondrialChromosome | src/models/output/variant.rs:379-419 | `M`, `chrM` and `MT` all become `MT` |
| Variants.NewLocation | src/models/output/variant.rs:379-419 | an SNV has an exact position at the start, MNV, deletion and indel a region from start to end, an insertion an in-between position from start to end + 1 |
| Variants.LocationTyped | src/models/output/variant.rs:174-253 | each location kind is written with its own FALDO type, and only that kind is |
| Variants.Infos | src/models/output/variant.rs:340-346 | an `RS` info exactly when the rs column starts with `rs`, holding the rest of it |
| Variants.GeneRefs | src/models/output/variant.rs:354-359 | one `mgend_gene:` reference per parsed symbol, in order, and none without a gene column |
| Variants.Notes | src/models/output/variant.rs:362-365 | the HGVS column split at commas and trimmed, when present |
| Variants.Variant.From | src/models/output/variant.rs:334-368 | the new variant's id, type, location, alleles, genes, notes and info as the row determines them, with no cases or diseases |
| Variants.Variant.AddCase | src/models/output/variant.rs:60-63 | one more case reference at the end; the diseases are unchanged |
| Variants.Variant.AddDisease | src/models/output/variant.rs:65-68 | the disease reference joins the set; the cases are unchanged |
| Variants.Variant.WriteHead | src/models/output/variant.rs:162-253 | the opening lines (type, chromosome, location, alleles, genes) are written as the document model renders them |
| Variants.WriteLocation | src/models/output/variant.rs:174-253 | the location blank node is written as the document model renders it |
| Variants.WriteInfo | src/models/output/variant.rs:286-296 | an info blank node with label and value is written as the document model renders it |
| Variants.Variant.ToTtl | src/models/output/variant.rs:162-302 | the program as written: the statement of the variant under the subject `mgend_case:<id>`, the diseases in an order that lists each once |
| Variants.Variant.ToTtlIntended | src/models/output/variant.rs:162-302 | the same statement under the subject `mgend_variant:<id>` |
| Variants.SubjectAsWrittenMissesReference | src/models/output/variant.rs:165-172 | the written subject is never the name cases use for the variant |
| Variants.SubjectIsReferenceName | src/models/output/variant.rs:165-172 | the intended subject is exactly the name cases use for the variant |
| Diseases.Id | src/models/output/disease.rs:24-34 | an id exactly when the row names a disease: the lower-hex digest of the name's UTF-8 bytes |
| Diseases.IdDependsOnNameOnly | src/models/output/disease.rs:24-34 | two rows naming the same disease get the same id |
| Diseases.HexIdUnescaped | src/models/output/disease.rs:101-118 | a hex id needs no escaping, so the subject is a valid name as written |
| Diseases.TryFrom | src/models/output/disease.rs:52-61 | a disease exactly when the row names one, identified by its digest, labelled with the name, without cases; otherwise the blank-id error |
| Diseases.Disease.AddCase | src/models/output/disease.rs:40-43 | one more case reference at the end, duplicates kept |
| Diseases.Disease.ToTtl | src/models/output/disease.rs:101-118 | the text is the statement of the disease: type, quoted label and its cases in order |
| Diseases.CasesWrittenIffAny | src/models/output/disease.rs:107-112 | the case line is written exactly when the disease has cases |
| Genes.Parse | src/models/output/gene.rs:24-30 | symbols exactly when the gene column is present: the comma-separated pieces, each trimmed, one more than there are commas |
| Genes.New | src/models/output/gene.rs:37-44 | the symbol is id and label, and the HGNC link is the table's entry exactly when there is one |
| Genes.SeeAlsoIffKnown | src/models/output/gene.rs:37-44 | the gene statement links to HGNC exactly when the symbol is in the table |
| Genes.Gene.ToTtl | src/models/output/gene.rs:69-82 | the text is the gene's statement: type, quoted label and the HGNC link when known |
| Submissions.Submitters | src/models/output/submission.rs:65-86 | a submitter for each of the two name/institute pairs that has both values, in column order |
| Submissions.SubmittersOfRow | src/models/output/submission.rs:65-86 | at most two submitters, none exactly when neither pair is complete |
| Submissions.Slots | src/models/output/submission.rs:97-105 | one slot per submitter, numbered from 1, in order |
| Submissions.SlotsNumbered | src/models/output/submission.rs:97-105 | slot numbers increase and the last one is the number of submitters |
| Submissions.Submission.From | src/models/output/submission.rs:77-110 | the new submission's id and label are the submission id, its submitter list is the numbered slots, its disease area the row's, with no cases |
| Submissions.Submission.AddCase | src/models/output/submission.rs:59-62 | one more case reference at the end |
| Submissions.WriteSlots | src/models/output/submission.rs:167-194 | the slot blank nodes are written, separated by ` , `, as the document model renders them |
| Submissions.WriteProvidedBy | src/models/output/submission.rs:164-195 | the `pav:providedBy` line with the submitter list blank node is written as the document model renders it |
| Submissions.SubmitterListText | src/models/output/submission.rs:164-195 | the text of the submitter list blank node, line by line |
| Submissions.Submission.ToTtl | src/models/output/submission.rs:152-214 | the text is the statement of the submission: type, label, submitters, disease area when known and cases |
| Submissions.DiseaseAreaWrittenIffKnown | src/models/output/submission.rs:197-201 | the disease-area line is written exactly when the area is known |
| Input.AgeCounts.Values | src/models/output/case.rs:199-237 | thirteen counts, each bin from its own field: the decades 0–9 through 90–99, then 100 and over, unknown and not provided |
| Aggregation.DiseaseRef | src/main.rs:123-133 | a disease reference exactly when the row names a disease: `mgend_disease:` and its id |
| Aggregation.Abort | src/main.rs:119 | no panic exactly when the row's variant can be built; the classification panic message when the alleles have no type, and the `end + 1` overflow panic when they classify but the location cannot be built |
| Aggregation.Upsert | src/main.rs:104-107 | `entry().or_insert().add_case()`: the key is present afterwards, keeps the row it was first built from, gains the case reference at the end; other keys unchanged |
| Aggregation.AddGenes | src/main.rs:109-115 | every symbol becomes a key, existing genes are kept, new ones are `Gene::new` of the symbol |
| Aggregation.RunSucceeds | src/main.rs:98-141 | the loop completes exactly when every row's variant can be built, and then yields one case per row, `CaseOf` of that row, in order |
| Aggregation.RunFails | src/main.rs:98-141 | a failed loop carries the panic of the first row whose variant cannot be built |
| Aggregation.RunSnoc | src/main.rs:98-141 | the loop over one more row is one more turn, `Next`, after the loop over the others |
| Aggregation.NextStops | src/main.rs:98-141 | once the loop has panicked no further row changes anything |
| Aggregation.NextTakes | src/main.rs:98-141 | a buildable row is one more step; an unbuildable one stops the loop with its panic |
| Aggregation.TracedStops | src/main.rs:98-141 | every later state of a stopped loop is the failure it stopped with |
| Aggregation.IndexKeys | src/main.rs:104-133 | a key is in a resource map exactly when some row presents it |
| Aggregation.IndexCases | src/main.rs:104-133 | the cases a resource collects are the references of the rows that present its key, in row order |
| Aggregation.IndexFirst | src/main.rs:104-133 | a resource is built from the first row that presents its key |
| Aggregation.CaseCounts | src/main.rs:98-141 | after a complete run over `n` rows there are `n` cases, the variants' case lists hold `n` references in all, and so do the submissions' |
| Aggregation.GenesNamed | src/main.rs:109-115 | a gene exists exactly when some row names its symbol, and it is `Gene::new` of that symbol |
| Aggregation.DiseaseSetKeys | src/main.rs:117-124 | a variant has a disease set exactly when it is in the variant map |
| Aggregation.DiseaseSetContents | src/main.rs:123-124 | a disease is in a variant's set exactly when some row pairs them |
| Aggregation.StepTwiceSets | src/main.rs:109-124 | the same row twice leaves the genes and disease sets as once |
| Aggregation.StepTwiceCases | src/main.rs:104-133 | the same row twice adds its case reference twice |
| Aggregation.TotalUpsert | src/main.rs:104-107 | each `add_case` adds exactly one reference in all |
| Conversion.Mark | src/main.rs:121-124 | the variant gains the case reference and, when the row names a disease, the disease reference |
| Conversion.AddSymbols | src/main.rs:109-115 | the gene loop over the symbols yields `AddGenes` |
| Conversion.Take | src/main.rs:100-123 | the submission, variant and disease built from one row are fresh, without cases, and have every field the constructors give them (`SubmissionFrom`, `VariantFrom`, `DiseaseFrom`); the gene symbols and the row's keys are those of `Sight` |
| Conversion.Ingest | src/main.rs:104-136 | the row's case `CaseOf(row)` is appended and folding the row's objects into the maps keeps every collection in step with `Step` of the value model |
| Conversion.IndexRow | src/main.rs:104-133 | indexing one row's submission, variant and disease keeps every map in step with its value model |
| Conversion.Turn | src/main.rs:100-136 | one turn of the loop on a buildable row moves the objects from the state of `t` to that of `Step(t, row)` |
| Conversion.Scan | src/main.rs:98-141 | the loop stops at the first panic or after the rows (after one row in rehearsal), its objects agreeing with the value model at that point |
| Conversion.Convert | src/main.rs:98-141 | the conversion fails exactly when `Run` does, with its error, and otherwise its maps and cases are those of `Run` |

## Left out

- Reading the input: the CLI options, the gzip reader, and tab-separated deserialisation with its `result?` row errors. The model starts from parsed `Record`s.
- Output files: the prefix lines, the per-type output files, JSON-LD (`write_jsonld`) and its contexts, and each model's list of namespaces. Each resource's Turtle text is modelled as a string.
- SHA-256 is a parameter `Digest` from bytes to bytes. The name is UTF-8 encoded explicitly, and `{:x}` is modelled as lower-hex formatting.
- HGNC loading: the file is read once into a `OnceCell`, and the `unwrap` panics when the file cannot be read. The table is instead a value built by `Hgnc.FromRows` from rows already parsed.
- `HashMap` and `HashSet` iteration order:
  - The variant's disease set is written in an order `WriteSet` chooses and reports.
  - The maps are modelled as `map`s, whose output order is not modelled.
- `or_insert(Gene::new(..))` evaluates `Gene::new` even for a known symbol. It is pure, so only the result of the first insertion is modelled.
- `String::from_utf8` in each `to_ttl` cannot fail on text built from strings. The error path is not modelled.
- The serde serialisation of the enums is modelled as fixed JSON strings (`Json()`).
- Patterns.FindDigits: `\d` is modelled as the ASCII digits `0`-`9`, while Rust's regex `\d` is any Unicode decimal digit (Nd). A non-ASCII digit in a condition identifier is therefore not matched by the model.
- Patterns.HgncNumber: `\d` is modelled as ASCII digits only, as for `FindDigits`.
- Patterns.MedGenCidDecides: `\d{4,7}` and the other MedGen, OMIM and HPO patterns use ASCII digits only, as for `FindDigits`.
- Variants.NewLocation: requires that an insertion's end is not `i32::MAX`.
  - In a checked (debug) build, `end + 1` panics with "attempt to add with overflow". `Aggregation.Abort` models this with `ERR_END_OVERFLOW`.
  - A release build wraps to `i32::MIN`. That wrap is not modelled.
- Aggregation.Abort: models only the checked-build panic for the end overflow (see above).
- Aggregation.Abort: `Variant::from` panics after the submission and the genes of the row were already updated. The run aborts, so this ordering is not observable and the model checks the row first.
- Variants.IdFields, Variants.IdInjective and Cases.IdParts hold only when the chromosome and alleles hold no `_` (and, for `IdParts`, neither id holds `#`). The program joins the fields with `_` without escaping, so other rows can collide: `Variants.IdCollision` shows two different variants that share an identifier, and with it their `Variant` object. The model keeps this behaviour and promises nothing about such rows.
- Cases.CaseOf has no contract of its own; its properties are stated by `Cases.CaseOfFields` and `Cases.CaseOfShape`.

## Findings

| source | as written | input that shows it | evidently intended | confidence | as-written member | corrected member |
|---|---|---|---|---|---|---|
| src/models/output/variant.rs:165-172 | the variant's statement is written under the case prefix, `mgend_case:<id>` | any variant, e.g. id `GRCh37_1_100_100_A_G` is written as `mgend_case:GRCh37_1_100_100_A_G`, while cases link to `mgend_variant:GRCh37_1_100_100_A_G` | the variant prefix, `mgend_variant:<id>`, the name every case uses for it | high, not executed | Variants.Variant.ToTtl, Variants.SubjectAsWrittenMissesReference | Variants.Variant.ToTtlIntended, Variants.SubjectIsReferenceName |
