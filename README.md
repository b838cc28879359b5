# Variant-to-report engine, modelled in Dafny

The engine turns annotated variant rows of an OpenCRAVAT SQLite file into a
clinical report for each sample of a cohort. It exists in two editions: the
`ClinReport` class in `clinreport.py`, and the older module-level functions in
`autoclin.py`. The two share most of their rules and differ in a few texts and
branches. This project models the engine's decisions as Dafny values,
functions and methods, and proves what they guarantee.

The stages, in the order the data flows through them:

- **Schema normaliser** (module `Normalizer`).
  - `get_extra_vcf_info` pivots the `;`-packed legacy `extra_vcf_info__CSQ_*`
    columns into per-block lists.
  - `annotate_legacy` copies the last block whose `CSQ_PICK` is `'1'`, along
    with some renamed sample and ClinVar columns, into the canonical keys.
  - The key rename goes through `str.lstrip`, which strips a character set,
    not a prefix. The model uses that set and proves which keys survive it.
- **Per-sample projector** (module `Projector`). `filter_variants` keeps the
  rows of one note, in the module edition always and in the class edition
  when a note is given. It then drops a row whose packed sample list lacks the
  sample, or whose filter entry at the sample's position is not `PASS`. In a
  kept row the zygosity, AD and DP columns become the entries at that
  position; AD keeps only its last comma token. Rows are values, so the
  caller's rows are never changed, as `variant.copy()` guarantees in the
  source.
- **Evidence** (module `Evidence`):
  - the gnomAD genome and exome counts taken together;
  - the five-score in-silico cascade;
  - the per-submitter ClinVar strings `Sig (N); Sig (N)`.

  The OMIM inheritance codes sit in `Normalizer`, where `annotate_legacy`
  uses them.
- **Classifier and table rows** (module `Classifier`):
  - `process_variant_data` computes the eight report columns of a variant;
  - `form_snv_table_data` reads them back as table rows (the module edition
    builds the same tuples straight from the row);
  - `sample_data_to_payload` flattens a sample into one record per variant.
- **Narrative** (modules `Narrative` and `Interpretation`). This is the
  interpretation loop of `create_doc`, written as blocks of a document
  (headings, paragraphs of runs, cited paragraphs, list items, tables). It
  covers:
  - the consequence cascade;
  - the locals `gene_part_msg` and `leading_to_msg`, which a later variant
    reuses when no branch assigns them and which are unbound for the first
    such variant;
  - the frequency, computational-evidence, ClinVar, equivalent-variant and
    alternative-variant paragraphs;
  - the co-occurrence sentence;
  - the shared reference list.

  Every citation appends a URL and then reads the list's new length. The
  list is the class attribute `sources` in one edition and a module global in
  the other, so it is a `Bibliography` object shared by reference.
- **Document** (module `Report`). `Report` holds the layout both editions
  give a report. `ClinReport` holds the class: its data assembly, its
  `create_doc` and `generate_reports`. `AutoClin` holds the module edition's
  `create_doc`.

Python exceptions (`KeyError`, `IndexError`, `ValueError`, `TypeError`,
`AttributeError`, and a local read before assignment) are an `Error` value.
Any step that can raise on a row of the canonical schema returns a `Result`;
a variant is a record holding every column the engine reads (see "Left
out" for what that typing rules out). While the narrative is written,
the state is a `Story`: the reference list as it stands, plus the blocks
written or the exception raised. An exception leaves behind every URL
appended before it, as in the source.

The main results:

- **Citations.**
  - A written report appends exactly the references of its causative
    variants, in order.
  - It cites them by consecutive, strictly increasing numbers after those
    already listed, so no number is cited twice.
  - With the ten base sources first, no citation points into them.
  - Over a whole cohort, each report cites only entries that it appended
    itself.
- **Document skeleton.** Apart from its running text, every report is the
  same skeleton: the case table, each caption with its table, the carrier
  table exactly when it is asked for, the technical table, and the whole
  reference list.
- **No findings.** Without a causative variant, a report carries the single
  "no significant findings" sentence and leaves the list unchanged.
- **Stage-level properties.** Each stage states its own results:
  - the projector's order preservation, exclusion rule and per-sample
    fields;
  - the cascades' first-match priority;
  - the gnomAD aggregation;
  - the ClinVar parse, with its round trip;
  - the inheritance codes, sorted and split back;
  - the last-picked-block rule of the normaliser.

Behaviour of the code worth noting:

- The projector replaces zygosity, AD and DP, and leaves the packed filter
  column as it is (`clinreport.py:402-404`).
- The class edition's co-occurrence sentence lists every other sample of the
  cohort, whether or not it carries the variant (`clinreport.py:356-361`). The
  module edition lists the samples packed in the variant row
  (`autoclin.py:217-221`).
- In the class edition, the ClinVar sentence depends on `clinvar_sig` being
  truthy, not on submitter counts being present. This comes from the
  precedence of `… or […] if clinvar_sig else []` (`clinreport.py:286`).
- A secondary finding (note 7) cannot be classified. `note2clinsig` has no
  key `'7'`, so `process_variant_data` raises `KeyError`
  (`clinreport.py:139`). A sample whose data is built therefore never has a
  record of note 7, and its secondary-findings table is always "Не
  обнаружено".

## Model

| member | source | states |
|---|---|---|
| Base.Show | clinreport.py:424 | `str(x)` of a nullable cell renders a present text as itself and None as `None` |
| Base.OrElse | clinreport.py:125-126 | `x or default`: the value when it is truthy, the default for None or the empty string |
| Base.Get | clinreport.py:141 | `d.get(k)` is present exactly for a key of the dictionary, and then holds its value |
| Base.GetOr | clinreport.py:137 | `d.get(k, default)` is the key's value when present, the default otherwise |
| Records.RowMap | clinreport.py:81 | `dict(zip(cols, row))` has exactly the row's columns, and the last column of the row has its value |
| Records.RowMapLastWins | clinreport.py:81 | every column of `dict(zip(cols, row))` holds the value of its last occurrence in the row |
| Tables.SortedCodesAreSorted | clinreport.py:521-531 | the sorted inheritance codes are strictly increasing and are exactly the values of `inheritance_map` |
| Text.SplitOn | clinreport.py:467 | `s.split(sep)` always yields at least one part |
| Text.Split | clinreport.py:398 | `s.split(c)` always yields at least one part |
| Text.JoinSplit | clinreport.py:467 | joining the parts of a split with the same separator gives the input back |
| Text.SplitJoin | clinreport.py:467 | splitting a join gives the parts back when no part holds the separator and the separator cannot overlap itself (as `'; '`) |
| Text.LastPart | clinreport.py:403 | `s.split(c)[-1]` is the text after the last `c`, or all of `s` when there is none |
| Text.LStrip | clinreport.py:514 | `lstrip(chars)` removes the longest prefix made of characters of the set: what it removed is all in the set and what is left starts outside it |
| Text.LStripStopsAt | clinreport.py:514 | `lstrip` stops at the first character outside the set |
| Text.IndexOf | clinreport.py:399 | `list.index(x)` is the first position holding `x` |
| Text.Capitalize | clinreport.py:139 | for Latin and Cyrillic letters, `capitalize()` keeps the length, upper-cases the first character and lower-cases the rest; other characters are left as they are |
| Text.CapitalizeLowerTail | clinreport.py:139 | capitalising a text whose tail has no capital changes only its first character |
| Text.DropLast | clinreport.py:468 | `s[:-1]` is `s` without its last character, and empty for the empty string |
| Text.DropPrefix | clinreport.py:113 | `s[n:]` is the text from position `n` on, and is empty past the end |
| Steps.CollectOrigins | clinreport.py:395-405 | a keep-skip-raise loop that gets through keeps the kept values of distinct steps at strictly increasing positions, and every kept step is represented |
| Steps.CollectFirstError | clinreport.py:395-405 | such a loop raises exactly when some step raises, and then raises the exception of the first such step |
| Steps.CollectStops | clinreport.py:395-405 | once a prefix of the loop has raised, the later steps change nothing |
| Steps.GatherOk | clinreport.py:95 | a list comprehension that may raise gets through exactly when every element does |
| Steps.GatherEach | clinreport.py:95 | a comprehension that gets through has one value per element, in order |
| Steps.GatherFirstError | clinreport.py:95 | a comprehension that raises raises the exception of its first failing element |
| Steps.GatherNext | autoclin.py:271-302 | one more element that produces a value appends it to the values so far |
| Steps.GatherStops | autoclin.py:271-302 | once a prefix of an append loop has raised, the later elements change nothing |
| Evidence.GnomadAggregated | clinreport.py:535-541 | AN is the sum of the truthy genome and exome AN; AC and AF are set exactly when AN is non-zero, AC being the sum of the truthy AC and AF times AN being AC |
| Evidence.GnomadFrequencyIsProportion | clinreport.py:540 | with non-negative counts and no more alleles than chromosomes the aggregated AF lies in [0, 1] |
| Evidence.FirstTruthy | clinreport.py:450-459 | the cascade's position is that of the first truthy score, every earlier score being falsy |
| Evidence.PredictInsilico | clinreport.py:442-460 | `predict_insilico`: decided by the first truthy score against its first threshold, False when none is truthy; see Evidence.PredictInsilicoIsFirstScore |
| Evidence.PredictInsilicoIsFirstScore | clinreport.py:442-460 | `predict_insilico` is decided by the first truthy score among scsnvada, metarnn, revel, alphamissense and phylop, against that predictor's first threshold, and is False when none is truthy |
| Evidence.ParseSigCount | clinreport.py:468 | unpacking `sig_count[:-1].split(' (')` succeeds exactly when there are two parts, which rebuild the text without its last character |
| Evidence.ParseSigCountRoundTrip | clinreport.py:468 | an entry written `Sig (N)` is read back as `(Sig, N)` |
| Evidence.ItemOutcomes | clinreport.py:467-469 | one outcome per `'; '`-separated item, in order |
| Evidence.ItemMsgsOk | clinreport.py:467-469 | the messages are built exactly when every item unpacks, and otherwise the call raises the first item's unpacking error |
| Evidence.ItemMsgsEach | clinreport.py:467-469 | one message per item, in order, naming the item's significance (its label when `clinsig2msg` has one) and count |
| Evidence.SigSubsMsgs | clinreport.py:463-470 | `clinvar_sig_subs2msgs`: no message for a falsy input, one per `'; '` item otherwise, or the first unpacking error; see Evidence.SigSubsMsgsCount, Evidence.ItemMsgsOk and Evidence.ItemMsgsEach |
| Evidence.SigSubsMsgsCount | clinreport.py:463-470 | empty or None input gives no message; otherwise there is one message per `'; '`-separated item |
| Evidence.SigSubsToMsgs | clinreport.py:463-470 | the loop of `clinvar_sig_subs2msgs` computes the messages, or the unpacking error, of the items |
| Projector.Select | clinreport.py:393 | a filtering comprehension keeps at most the input's elements |
| Projector.SelectOrigins | clinreport.py:393 | the kept elements are the selected elements at strictly increasing positions of the input, and every selected element is kept |
| Projector.SelectMembers | clinreport.py:393 | every kept element satisfies the condition and comes from the input; every satisfying input element is kept |
| Projector.WithNote | autoclin.py:251 | the rows kept for a note are exactly the input rows with that `base__note` |
| Projector.PackedAt | clinreport.py:400-404 | entry `i` of a `;`-packed column: `AttributeError` for None, `IndexError` past the last entry, and otherwise the `i`-th part |
| Projector.ProjectSample | clinreport.py:397-405 | a row is dropped exactly when the sample is absent from its packed list or its filter entry there is not `PASS`; a kept copy takes the zygosity and DP entries at the sample's first position and the last `,`-token of the AD entry, and is otherwise the row |
| Projector.Projections | clinreport.py:396-405 | the projection of every row, in order |
| Projector.SampleFilterOrigins | clinreport.py:394-405 | the survivors are projections of distinct input rows at strictly increasing positions, and every row whose projection keeps it is represented |
| Projector.SampleFilterFirstError | clinreport.py:394-405 | the sample loop raises exactly when some row's projection raises, with the first such row's exception |
| Projector.ProjectRow | clinreport.py:397-405 | the loop body on one row computes its projection |
| Projector.ProjectAll | clinreport.py:394-405 | the `by_sample` loop computes the survivors in order, or the first exception |
| Projector.FilterVariants | clinreport.py:390-408 | the class `filter_variants` keeps the note's rows when a note is given, then projects them on the sample when one is given |
| Projector.AutoFilterVariants | autoclin.py:250-266 | the module `filter_variants` always keeps the note's rows first, then projects them on the sample |
| Projector.AutoFilteredRows | autoclin.py:250-266 | every row the module filter returns has the requested note and is the projection, kept for the sample, of an input row of that note |
| Normalizer.StripCharsArePrefixChars | clinreport.py:514 | the character set `lstrip` strips is exactly the characters of `extra_vcf_info__` |
| Normalizer.CsqKeyStrip | clinreport.py:509-514 | a CSQ column loses exactly the `extra_vcf_info__` prefix, as the following `C` is not stripped |
| Normalizer.NblocksNeverStripped | clinreport.py:507-514 | no stripped key is `nblocks`, so no column overwrites the block count |
| Normalizer.EmptyBlocks | clinreport.py:511 | `[''] * nblocks` holds `nblocks` empty strings |
| Normalizer.PivotColumn | clinreport.py:509-514 | the loop body on one column: a CSQ column becomes its list of blocks, or empty blocks for None, and a number there raises; any other column is kept |
| Normalizer.GetExtraVcfInfo | clinreport.py:502-515 | the loop of `get_extra_vcf_info` builds the pivoted dictionary, or raises |
| Normalizer.ExtraVcfInfoNblocks | clinreport.py:506-507 | `nblocks` is the number of `;`-parts of `CSQ_Allele`, at least one, and survives every later column |
| Normalizer.ExtraVcfInfoOk | clinreport.py:506-514 | the pivot fails exactly when `CSQ_Allele` is missing or not text, or a CSQ column holds a number |
| Normalizer.ExtraVcfInfoCsq | clinreport.py:509-514 | every CSQ column becomes a list under its name without the prefix: its `;`-parts, or `nblocks` empty strings for None |
| Normalizer.ExtraVcfInfoPlain | clinreport.py:514 | any other column is kept under its stripped name |
| Normalizer.PickScanLast | clinreport.py:475-491 | when several blocks are picked the last one wins: no later block has `CSQ_PICK == '1'` |
| Normalizer.PickScanNone | clinreport.py:475-477 | the scan finds no block exactly when every `CSQ_PICK` entry is read and none is `'1'` |
| Normalizer.SortedMembers | clinreport.py:531 | the listed codes are exactly the members of the set that appear in the order |
| Normalizer.InherFromPhenoValue | clinreport.py:518-532 | `get_inher_from_omim_pheno` gives None for a falsy phenotype and the joined codes for a text |
| Normalizer.SortedMembersSorted | clinreport.py:531 | taking members in a strictly sorted order gives a strictly sorted list |
| Normalizer.InheritanceCodesSpec | clinreport.py:518-532 | the codes are sorted, duplicate-free and comma-joined; each is present exactly when its full inheritance name occurs in the phenotype; splitting on `,` gives the list back |
| Normalizer.Lookup | clinreport.py:492-497 | `d[col]` succeeds exactly for a present column and gives its value |
| Normalizer.CopyColumns | clinreport.py:493-497 | the rename loops add the renamed columns to the annotation, or raise the first missing column |
| Normalizer.ScanBlocks | clinreport.py:475-491 | the block loop yields the annotation of the last picked block, none, or the first fault |
| Normalizer.CompleteAnnotation | clinreport.py:492-498 | the statements after the block loop compute the tail of the annotation |
| Normalizer.AnnotateLegacy | clinreport.py:473-499 | `annotate_legacy` computes the normalised annotation of a legacy row, or its exception |
| Normalizer.LegacyNoPick | clinreport.py:475-492 | with no picked block the call fails on the unbound `annotation`, after the phenotype lookup |
| Normalizer.LegacyTailKeeps | clinreport.py:493-498 | the tail keeps every key outside the `tagsampler_new__` and `clinvar_new__` families |
| Normalizer.LegacyTailSets | clinreport.py:493-498 | the tail copies the sample columns from `vevatacmg_postaggregator__*` and sets the three ClinVar columns the legacy schema lacks to None |
| Normalizer.BlockAnnotationEntries | clinreport.py:478-491 | the picked block gives its symbol, the last `:`-token of its HGVSc and HGVSp, and a refseq that is None exactly when its MANE entry is empty |
| Normalizer.LegacyFromPicksLastBlock | clinreport.py:473-499 | a successful annotation comes from the last picked block and holds that block's entries and the renamed columns |
| Normalizer.RenamedKeys | clinreport.py:493-497 | every renamed column carries its target prefix |
| Classifier.Present | clinreport.py:117 | the truthy messages: none is empty, each truthy item is present, each present one is an item, and a single item is kept exactly when truthy |
| Classifier.PresentConcat | clinreport.py:117 | the messages of two lists in turn are those of the first followed by those of the second, so order and repetitions are those of the items |
| Classifier.CellLines | clinreport.py:117 | a `'\n'`-joined cell splits back into exactly its messages when none spans a line break |
| Classifier.VariationItems | clinreport.py:109-117 | the variation parts are five, the SPDI first |
| Classifier.VariationCellLines | clinreport.py:109-117 | the variation cell starts with the SPDI and its lines are exactly the present parts |
| Classifier.ZygosityCell | clinreport.py:119 | `zygosity2msg[z][1]`, `'-'` for an empty zygosity, and a `KeyError` exactly for an unknown one |
| Classifier.InheritanceLabelSpec | clinreport.py:122 | the inheritance label raises exactly when some comma-separated code is unknown, and otherwise names each code in order, joined by `', '` |
| Classifier.NormalisedCodesHaveLabels | clinreport.py:122 | codes derived from an OMIM phenotype always have a label |
| Classifier.FrequencyCell | clinreport.py:124 | the frequency cell formats a truthy AF and is `'н/д'` otherwise |
| Classifier.CoverageCell | clinreport.py:125-127 | the coverage cell ends in `x`, starts with `_x/` when AD is missing and ends with `_x` when DP is missing |
| Classifier.CoverageCellReadsBack | clinreport.py:125-127 | split at `/`, the coverage cell gives back the AD and DP counts (or `_`), each followed by `x` |
| Classifier.ClinsigLabel | clinreport.py:137 | `clinsig2msg.get(sig, default)`, where None is never a key |
| Classifier.PathogenicityCell | clinreport.py:134-139 | note 8 gives the ClinVar label or `'-'`; notes 1-3 give the capitalised `note2clinsig`; any other note raises |
| Classifier.RuTexts | clinreport.py:128-133 | the disease and inheritance texts: from the `secondary` annotations for note 7 and the `omim` ones otherwise when annotations are used, the OMIM phenotype and inheritance label otherwise; see Classifier.RuLookup and Classifier.DiseaseDefaultsToOmim |
| Classifier.RuLookup | clinreport.py:128-133 | the nested `.get(…, {})` chain gives the annotation text when every level has the key, the default otherwise |
| Classifier.ProcessVariantData | clinreport.py:98-152 | a variant is classified exactly when its zygosity and inheritance have labels and its note is 1, 2, 3 or 8, with the errors in evaluation order; the record keeps the row and holds the eight report columns |
| Classifier.DiseaseDefaultsToOmim | clinreport.py:120-133 | without annotations the disease column is the row's OMIM phenotype |
| Classifier.ClassifyAll | clinreport.py:95 | one classification outcome per variant, in order, with the annotations on |
| Classifier.ProcessVariantsData | clinreport.py:91-95 | `process_variants_data`: one classified record per variant in order, or the first variant's exception; see Classifier.ProcessVariantsDataEach |
| Classifier.ProcessVariantsDataEach | clinreport.py:91-95 | `process_variants_data` gets through exactly when every variant is classified, giving one record per variant, in order |
| Classifier.RowKeys | clinreport.py:412 | the table keys are report columns |
| Classifier.RowKeysWidth | clinreport.py:589-626 | the carrier header has seven columns and the SNV header six |
| Classifier.SnvRow | clinreport.py:413 | a table row reads the record's value of each key, in order |
| Classifier.SnvRowColumns | clinreport.py:589-596 | the SNV row holds gene, disease, variation, zygosity, frequency and coverage |
| Classifier.CarrierRowColumns | clinreport.py:618-626 | the carrier row is the SNV row with the pathogenicity inserted fifth |
| Classifier.FormSnvTableData | clinreport.py:411-414 | one row per record, in order |
| Classifier.AutoSnvRow | autoclin.py:272-302 | a module-edition tuple is built exactly when the zygosity and inheritance have labels; it has seven fields with the pathogenicity column (its fifth being `clinsig2msg.get(sig, '-')`) and six without; it starts with symbol and phenotype and ends with the genomes-AF frequency and the coverage |
| Classifier.AutoSnvOutcomes | autoclin.py:271-302 | one tuple outcome per variant, in order |
| Classifier.AutoFormSnvTableData | autoclin.py:269-303 | the append loop gives the tuples of all variants in order, or the first exception |
| Classifier.AutoSnvRowsEach | autoclin.py:269-303 | the module table gets through exactly when every variant's tuple does, and then holds one tuple per variant, in order |
| Classifier.VariantColumns | clinreport.py:172 | a payload record has exactly the eight report columns, each with the record's value |
| Classifier.SampleDataToPayload | clinreport.py:155-175 | the comprehension and the update loop compute the payload |
| Classifier.PayloadColumns | clinreport.py:156-175 | one payload record per variant, holding the twelve columns: the case columns, the same in every record, and its variant's report columns |
| Narrative.ShowRow | clinreport.py:424 | every cell is shown with `str` |
| Narrative.ShowRows | clinreport.py:422-424 | every row is shown, in order |
| Narrative.Transpose | clinreport.py:420 | `zip(*rows)` has as many lines as the shortest row, line `j` holding entry `j` of every row |
| Narrative.AddTable | clinreport.py:417-430 | `add_table`: the header above the records, transposed on request, with the "Не обнаружено" row exactly when there is no record; see Narrative.AddTableRows, Narrative.ShownTableRows and Narrative.AddTableRecord |
| Narrative.AddTableRows | clinreport.py:417-430 | an upright table is the header then one line per record, and gets the "Не обнаружено" row exactly when there is no record |
| Narrative.ShownTableRows | clinreport.py:417-430 | a table of shown records has the header first and row `k + 1` showing record `k`, and is "not found" exactly when empty |
| Narrative.AddTableRecord | clinreport.py:418-420 | a one-record table laid out sideways has one line per column holding its name and value |
| Narrative.Bibliography.constructor | clinreport.py:627-638 | the reference list starts with the ten base sources |
| Narrative.Bibliography.Cite | clinreport.py:340-341 | a citation appends the URL, then its number is the new length of the list |
| Narrative.Range | clinreport.py:341 | the numbers after `lo` up to `hi`, one per appended entry |
| Narrative.CitingUrls | clinreport.py:339-354 | a citing loop appends the items' URLs in order, up to the one that raises, and all of them when none does |
| Narrative.CitingLength | clinreport.py:344-354 | a citing loop that gets through lists one URL per item |
| Narrative.CitingNumbers | clinreport.py:339-354 | a citing loop writes one paragraph per item, citing the next numbers of the list in order |
| Narrative.CitingProse | clinreport.py:339-354 | a citing loop writes running text only |
| Narrative.CitingRaises | clinreport.py:344-354 | a citing loop raises exactly when some item's text raises, with the first such exception, after appending that item's URL |
| Narrative.CitingStops | clinreport.py:344-354 | once a citing loop has raised, later items change nothing |
| Narrative.CitingOne | clinreport.py:339-342 | one citing item appends its URL and cites the new length, or raises after the append |
| Narrative.CitingAppend | clinreport.py:339-354 | two citing loops in turn are one loop over both item lists |
| Narrative.RelatedText | clinreport.py:347 | the text of an equivalent or alternative is built exactly when its submitter string parses |
| Narrative.RelatedItems | clinreport.py:344-354 | each equivalent or alternative is cited by its ClinVar variation URL, with its own text |
| Narrative.CiteOneRelated | clinreport.py:345-348 | one pass appends the variation URL, reads the new length, then computes the messages |
| Narrative.CiteRelated | clinreport.py:344-354 | the equivalents or alternatives loop appends to the shared list exactly as the citing loop describes |
| Narrative.FirstMatch | clinreport.py:260-272 | the position of the first key the text contains, no earlier key being contained |
| Narrative.LeadEffectIsFirstMatch | clinreport.py:260-272 | the lead-in names the effect of the first of missense, synon, intron, shift, stop, splice that the consequence contains |
| Narrative.CascadesCompared | clinreport.py:312-337 | the lead-in and the evidence cascades agree on missense, truncating and unlisted variants, but a synonymous change in a splice region is introduced as synonymous and assessed as splicing |
| Narrative.MissenseRuns | clinreport.py:312-323 | a missense variant gets a conservation sentence exactly when it has a GERP score, then the prediction |
| Narrative.SpliceRuns | clinreport.py:326-331 | a splice variant gets the loss-of-function sentence only when splicing is predicted |
| Narrative.SpliceRegionRuns | clinreport.py:332-337 | a synonymous or intronic variant gets the splicing prediction and the call for functional analysis |
| Narrative.CompRuns | clinreport.py:311-337 | the evidence paragraph is plain text, empty exactly when no branch applies, with the sentences each branch calls for |
| Narrative.PositionMsg | clinreport.py:257 | the position clause is built exactly when the field has at least two `/`-parts, as indexing `split('/')[1]` needs (`1/3/5` reads as exon 1 of 3) |
| Narrative.GenePart | clinreport.py:256-259 | the gene part comes from the exon if set, else the intron, else it is the text carried from an earlier variant |
| Narrative.PositionMsgReadsBack | clinreport.py:257 | a VEP position `k/total` is read back as its two numbers |
| Interpretation.ProteinMsg | clinreport.py:250 | the protein message is empty for a falsy HGVSp, and in the class edition writes `%3D` as `=` |
| Interpretation.IndelKind | clinreport.py:267 | the indel word is "вставке" (insertion) exactly for a positive size, and "удалению" (deletion) otherwise |
| Interpretation.ClassLeadingTo | clinreport.py:260-272 | the class lead-in clause is assigned exactly when a listed effect matches |
| Interpretation.ModuleLeadingTo | autoclin.py:123-134 | the module lead-in clause is assigned exactly when a listed effect matches |
| Interpretation.ZygosityPhrase | clinreport.py:278 | the zygosity phrase is `zygosity2msg[z][2]`, empty for an empty zygosity, and a `KeyError` exactly for an unknown one |
| Interpretation.ClinvarMsgs | clinreport.py:286 | the class edition writes ClinVar messages only for a truthy significance, the module edition always; they are the submitter messages, or `как {label}` when there are none |
| Interpretation.NoteSignificance | clinreport.py:293 | `note2clinsig[note]` exactly for a causative note |
| Interpretation.ReadFacts | clinreport.py:243-293 | the locals of one variant are read, in evaluation order, exactly when each can be; the locals it leaves are the gene part and lead-in, newly computed or carried over |
| Interpretation.FreshReadNeedsPosition | clinreport.py:256-272 | a variant read with nothing carried over names its own exon or intron and has a listed effect |
| Interpretation.Paragraphs | clinreport.py:295-337 | the paragraphs before the first reference are running text and cite nothing |
| Interpretation.CitingVariantIsOneLoop | clinreport.py:339-354 | the ClinVar, equivalents and alternatives parts are one citing loop over all their items |
| Interpretation.SampleNumbers | clinreport.py:360 | each listed sample is shown by the part of its name before the first dot |
| Interpretation.CoOccurrence | clinreport.py:356-361 | without a target there is no sentence; with one, `remove` raises exactly when the sample is absent from the pool (the cohort in the class edition, the row's packed samples in the module edition), and the sentence is written exactly when another sample remains |
| Interpretation.CoOccurrenceLists | clinreport.py:356-361 | a written co-occurrence sentence lists the pool less one occurrence of the reported sample, by sample number in the class edition |
| Interpretation.RemoveFirstIsTheRest | clinreport.py:357-358 | `remove` leaves the pool less one occurrence of the sample |
| Interpretation.Closing | clinreport.py:367-369 | the closing paragraphs are running text and cite nothing |
| Interpretation.RelatedUrls | clinreport.py:345 | one ClinVar variation URL per related variant, in order |
| Interpretation.RelatedItemsUrls | clinreport.py:344-354 | the related items are cited by those URLs |
| Interpretation.CitingItemsUrls | clinreport.py:339-354 | a variant's citing items carry its references: its own record (when written), then each equivalent, then each alternative |
| Interpretation.CitingVariantCitations | clinreport.py:339-354 | a variant's citing paragraphs append a prefix of its references, and when they get through append all of them and cite them by the next numbers, in order |
| Interpretation.Tell | clinreport.py:243-369 | one pass of the interpretation loop: its reads in order, its paragraphs, and the references it appends and cites; see Interpretation.ReadFacts, Interpretation.TellCitations and Interpretation.TellerWritesProse |
| Interpretation.TellCitations | clinreport.py:242-369 | one pass of the loop appends a prefix of the variant's references, and when it gets through all of them, cited by the next numbers in order |
| Interpretation.ChainStops | clinreport.py:242 | once the loop over variants has raised, later variants change nothing |
| Interpretation.ChainCitations | clinreport.py:242-369 | a loop whose passes cite in order appends the references of all variants in order and cites them by consecutive numbers |
| Interpretation.ChainProse | clinreport.py:242-369 | a loop whose passes write running text writes running text |
| Interpretation.ChainFirst | clinreport.py:242-272 | a loop that gets through got through its first pass with nothing carried over |
| Interpretation.TellerCitesInOrder | clinreport.py:242-369 | the loop body of either edition cites its variant's references in order |
| Interpretation.InterpretationCitations | clinreport.py:242-369 | the interpretation of a sample appends the references of its causative variants in order and cites them by consecutive numbers after those listed |
| Interpretation.TellerWritesProse | clinreport.py:295-369 | the loop body of either edition writes running text only |
| Interpretation.InterpretationProse | clinreport.py:242-369 | the interpretation adds no heading, list item or table to the report |
| Interpretation.ChainFirstIsFresh | clinreport.py:255-272 | an interpretation that gets through has a first variant with its own exon or intron and a listed effect |
| Interpretation.CiteClinvar | clinreport.py:339-342 | the ClinVar paragraph appends the variant's record to the shared list exactly when messages are written |
| Interpretation.CiteVariant | clinreport.py:339-354 | the citing paragraphs of a variant update the shared list as the citing loop describes |
| Interpretation.TellVariant | clinreport.py:243-369 | the loop body updates the shared list and writes the blocks of one pass, or raises |
| Interpretation.Interpret | clinreport.py:242-369 | the loop over causative variants leaves the shared list and blocks of the whole chain of passes |
| Report.Document | clinreport.py:200-385 | the report document around the interpretation: only the interpretation cites, and the rest is the fixed skeleton; see Report.DocumentCitations and Report.DocumentOutline |
| Report.References | clinreport.py:380-381 | one numbered item per entry of the reference list, in order |
| Report.FindingsCitations | clinreport.py:239-371 | the outcome of the search cites what the interpretation cites, and nothing when there is none |
| Report.DocumentCitations | clinreport.py:200-385 | only the interpretation of a report cites |
| Report.DocumentOutline | clinreport.py:200-385 | apart from running text, a document is the fixed skeleton of headings, captions, tables and the reference list, whatever the interpretation says |
| Report.WrittenCitations | clinreport.py:239-381 | a written report appends the references of its causative variants in order and cites exactly the entries it appended |
| Report.WrittenCitesNewEntries | clinreport.py:339-354 | a written report cites by strictly increasing numbers, all after the entries listed before it |
| Report.WrittenOutline | clinreport.py:200-385 | besides its running text a written report is the skeleton ending with the whole list after the interpretation |
| Report.WrittenNoFindings | clinreport.py:239-240 | without causative variants the report has the single "no significant findings" sentence and the list is unchanged |
| ClinReport.EntryOutcomes | clinreport.py:48-67 | one entry outcome per sample of the cohort, in order |
| ClinReport.KeyedLookup | clinreport.py:48-67 | the dictionary comprehension has exactly the samples as keys, each with its own entry |
| ClinReport.SamplesDataOf | clinreport.py:48-67 | the data is the dictionary of the entries, or the first sample's exception |
| ClinReport.SamplesDataEntries | clinreport.py:43-67 | the data is built exactly when every sample's entry is, and then holds each sample's own entry |
| ClinReport.SampleEntryContents | clinreport.py:49-64 | an entry holds the fixed fields, the sample number before the first dot, and one classified record per variant kept for the sample, in order, none of note 7 |
| ClinReport.NoteRecords | clinreport.py:393 | the records kept for a note are exactly the sample's records of that note |
| ClinReport.NoteTableRows | clinreport.py:190-192 | a note's table lists its records under the header and reads "Не обнаружено" exactly when the sample has none of that note |
| ClinReport.SecondaryTableEmpty | clinreport.py:196 | with the data `get_data` builds, the secondary-findings table is always "Не обнаружено" |
| ClinReport.CausativeMembers | clinreport.py:198 | the causative list holds exactly the records of notes 1, 2 and 3, and is empty exactly when there is none |
| ClinReport.ClassReport | clinreport.py:178-387 | the class `create_doc` of one sample: `TypeError` before `get_data`, `KeyError` for a sample without data, otherwise the written report; see ClinReport.ClassReportCitations, ClinReport.ClassReportOutline and ClinReport.ClassReportNoFindings |
| ClinReport.ClassReportCitations | clinreport.py:178-387 | a written report appends its causative variants' references in order and cites them by the next numbers, each once and increasing, never a base source |
| ClinReport.ClassReportOutline | clinreport.py:200-387 | besides its running text a report is the skeleton of its tables, the carrier table being present exactly with `dzm` |
| ClinReport.ClassReportNoFindings | clinreport.py:239-240 | a sample without causative records gets the "no significant findings" report and adds nothing to the list |
| ClinReport.ReportsStops | clinreport.py:37-39 | once one report of the cohort has raised, later samples change nothing |
| ClinReport.ReportsLast | clinreport.py:37-39 | a run that gets through wrote every earlier report first, and the last one on the list they left |
| ClinReport.ReportsCiteAfterEarlierOnes | clinreport.py:37-39 | the last report of a cohort cites only entries after those the earlier reports appended |
| ClinReport.ClinReport.constructor | clinreport.py:15-21 | the target sample is the given one when truthy, the first sample otherwise; the clinician defaults to `''`; there is no data yet |
| ClinReport.ClinReport.MakeEntry | clinreport.py:49-64 | the entry of one sample in the `get_data` comprehension |
| ClinReport.ClinReport.GetData | clinreport.py:43-67 | `self.data` is assigned the built data only when every entry is built, and otherwise stays as it was while the call raises |
| ClinReport.ClinReport.CreateDoc | clinreport.py:178-387 | `create_doc` writes the report of the sample and updates the shared list exactly as the report function describes |
| ClinReport.ClinReport.GenerateReports | clinreport.py:31-40 | the data, then every sample's report in cohort order on the shared list; a failure to build the data leaves both the list and `self.data` untouched |
| AutoClin.RowsTableRows | autoclin.py:269-321 | the module table is built exactly when every record can be tabulated, and then lists them under the header in order, reading "Не обнаружено" exactly when empty |
| AutoClin.AutoTablesLayout | autoclin.py:54-95 | the tables are built only when the tables for notes 1, 2, 3 and 8 all are; the carrier table is shown exactly when asked for, and the secondary table is always empty |
| AutoClin.AutoCausativeNotes | autoclin.py:62 | once the tables are built, the causative list is too, and every variant in it has a causative note |
| AutoClin.AutoReport | autoclin.py:43-247 | the module `create_doc` of one sample: the tables, then the interpretation and the document; see AutoClin.AutoReportCitations, AutoClin.AutoReportOutline and AutoClin.AutoReportNoFindings |
| AutoClin.AutoReportCitations | autoclin.py:103-241 | a written module report appends its causative variants' references in order and cites them by the next numbers, each once and increasing, never a base source |
| AutoClin.AutoReportOutline | autoclin.py:64-245 | besides its running text a module report is the skeleton of its tables, with the carrier table exactly for `dzm and not target_sample` |
| AutoClin.AutoReportNoFindings | autoclin.py:103-104 | without causative records the module report has the "no significant findings" sentence and adds nothing to the list |
| AutoClin.FormSnvTable | autoclin.py:54 | the projection and tabulation of one note |
| AutoClin.MakeTables | autoclin.py:54-61 | the results tables in the order `create_doc` computes them |
| AutoClin.Causative | autoclin.py:62 | the note 1, 2 and 3 rows projected on the sample, in that order |
| AutoClin.CreateDoc | autoclin.py:43-247 | the module `create_doc` writes the report and updates the module-level list exactly as the report function describes |

## Left out

- The docx document is not modelled. Alignment, table styles, cell merging,
  heading levels and bold and italic runs other than those recorded are all
  left out. A table is modelled as its rows of cells, its italic flag and its
  "Не обнаружено" row.
- SQLite access is left out: `get_all_samples`, `get_variants_data`
  (including its note filter in SQL and its call of `annotate_legacy` on
  legacy files), the module edition's `main`, argparse and the `__main__`
  blocks. The rows and the cohort are inputs.
- `date.today()` is I/O. The date of issue is the text parameter `issued`.
- `float2percent` uses `log`, `floor` and `round` on binary floats, which
  cannot be stated faithfully. It is the parameter `percent`. Scores and
  frequencies are `real`, and the source only compares them with `>=` or
  tests them for zero.
- The `eval` of `clinvar_new__equivalents` and `clinvar_new__alternatives`
  is left out. These columns are already-decoded sequences of 5-tuples, so a
  malformed string is not modelled.
- The pandas `DataFrame` of `sample_data_to_payload` is a sequence of maps.
- `app.py` (a Tk GUI), `database.py` (Postgres I/O) and `utils.py` (JSON
  configuration) are not part of this model. `ru_annotations` is an input
  map.
- Evidence.PredictInsilicoIsFirstScore reads only the first threshold of
  each predictor, because the source never reads the other two.
- ClinReport.ClinReport.constructor requires a truthy target sample or a
  non-empty cohort. The `IndexError` of `all_samples[0]` on an empty cohort
  with no target is not modelled.
- Narrative.AddTable requires a non-empty header, and rows no narrower than
  the header. The source raises `IndexError` on a narrower row, and that
  error is not modelled. Every table the engine builds meets this
  requirement.
- Normalizer.GetExtraVcfInfo and Normalizer.AnnotateLegacy require the row's
  column names to be distinct. A Python dictionary always has distinct keys;
  the requirement restates that for the list representation.
- Classifier.AutoSnvRow leaves the variation and zygosity-inheritance fields
  of the module-edition tuple as computed and does not state their text.
- A variant is a record of the canonical columns the engine reads. The row
  is assumed to hold every one of them, and `note`, `chrom`, `ref_base`,
  `alt_base`, `pos`, `ref` and `alt` are never None. The SQL query selects
  rows by `base__note`, and OpenCRAVAT's base columns are non-null. Three
  things are therefore not modelled: the `KeyError` of `variant_data[...]`
  for a column the file lacks (`clinreport.py:103-121`,
  `autoclin.py:274-275`); a `None` written by `f'{chrom}-{pos}-{ref}-{alt}'`
  (`clinreport.py:109`); and the `AttributeError` of
  `base__alt_base.replace` on None (`clinreport.py:253`). The "exactly
  when" of Classifier.ProcessVariantData holds under this typing.
- Integers are unbounded. Python's integers are unbounded too, so no width
  is lost.
