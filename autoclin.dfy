/** The module-level `create_doc` of `autoclin.py`: the older edition of the
    report, which projects and tabulates a sample's variants from the raw
    rows on every call, has no secondary findings, shows the carrier table
    only for a non-target sample, and appends to the module-level `sources`
    list every call shares. */
module AutoClin {
  import opened Base
  import opened Tables
  import opened Records
  import opened Steps
  import opened Classifier
  import opened Projector
  import opened Narrative
  import opened Interpretation
  import opened Report

  // ----------------------------------------------------------- the tables

  /** `form_snv_table_data(rows, pathogenicity_col)` laid out as a table;
      a record the loop cannot tabulate raises. */
  function RowsTable(rows: seq<Variant>, pathogenicityCol: bool, italic: bool, percent: real -> string): Result<Grid> {
    var data :- Gather(AutoSnvOutcomes(rows, pathogenicityCol, percent));
    AutoSnvRowsEach(rows, pathogenicityCol, percent);
    Ok(AddTable(ShowRows(data), RowKeys(pathogenicityCol), italic, false))
  }

  /** The table is built exactly when every record can be tabulated; it
      then lists the records, one row each and in order, under its header,
      and reads "Не обнаружено" when there is none. */
  lemma RowsTableRows(rows: seq<Variant>, pathogenicityCol: bool, italic: bool, percent: real -> string)
    ensures RowsTable(rows, pathogenicityCol, italic, percent).Ok? <==>
      forall k :: 0 <= k < |rows| ==> AutoSnvRow(rows[k], pathogenicityCol, percent).Ok?
    ensures RowsTable(rows, pathogenicityCol, italic, percent).Ok? ==>
      var g := RowsTable(rows, pathogenicityCol, italic, percent).value;
      && |g.cells| == |rows| + 1
      && g.cells[0] == RowKeys(pathogenicityCol)
      && (forall k :: 0 <= k < |rows| ==> g.cells[k + 1] == ShowRow(AutoSnvRow(rows[k], pathogenicityCol, percent).value))
      && (g.notFound <==> |rows| == 0)
  {
    AutoSnvRowsEach(rows, pathogenicityCol, percent);
    var outcome := Gather(AutoSnvOutcomes(rows, pathogenicityCol, percent));
    if outcome.Ok? {
      RowKeysWidth(pathogenicityCol);
      ShownTableRows(outcome.value, RowKeys(pathogenicityCol), italic);
    }
  }

  /** `form_snv_table_data(filter_variants(variants_data, by_note=note,
      by_sample=sample), pathogenicity_col)` laid out as a table: either
      call may raise. */
  function SnvTable(vs: seq<Variant>, note: string, sample: string, pathogenicityCol: bool, italic: bool,
                    percent: real -> string): Result<Grid>
  {
    var rows :- AutoFiltered(vs, note, Some(sample));
    RowsTable(rows, pathogenicityCol, italic, percent)
  }

  /** The secondary-findings table of this edition is always empty. */
  const SecondaryTable := AddTable([], SnvTableHeader, true, false)

  /** The results tables, in the order `create_doc` computes them: notes 1,
      2 and 3, then the carrier table, which is computed even when it is not
      shown. */
  function AutoTables(vs: seq<Variant>, sample: string, showCarrier: bool, percent: real -> string): Result<ResultTables> {
    var pathogenic :- SnvTable(vs, "1", sample, false, true, percent);
    var likelyPathogenic :- SnvTable(vs, "2", sample, false, true, percent);
    var uncertain :- SnvTable(vs, "3", sample, false, true, percent);
    var carrier :- SnvTable(vs, "8", sample, true, false, percent);
    Ok(ResultTables(pathogenic, likelyPathogenic, uncertain, StructuralTable, MitochondrialTable, RepeatTable,
                    SecondaryTable, if showCarrier then Some(carrier) else None))
  }

  /** The tables are built only when every note's table can be, the
      carrier one included even when it is not shown; the carrier table is
      shown exactly when asked for, and the secondary-findings table holds
      no record. */
  lemma AutoTablesLayout(vs: seq<Variant>, sample: string, showCarrier: bool, percent: real -> string)
    ensures AutoTables(vs, sample, showCarrier, percent).Ok? <==>
      && SnvTable(vs, "1", sample, false, true, percent).Ok?
      && SnvTable(vs, "2", sample, false, true, percent).Ok?
      && SnvTable(vs, "3", sample, false, true, percent).Ok?
      && SnvTable(vs, "8", sample, true, false, percent).Ok?
    ensures AutoTables(vs, sample, showCarrier, percent).Ok? ==>
      var t := AutoTables(vs, sample, showCarrier, percent).value;
      && (t.carrier.Some? <==> showCarrier)
      && t.secondary.notFound
  {
    AddTableRows([], SnvTableHeader, true);
  }

  /** The variants to interpret: the sample's note 1, then note 2, then
      note 3 records, each projected onto the sample. */
  function AutoCausative(vs: seq<Variant>, sample: string): Result<seq<Variant>> {
    var pathogenic :- AutoFiltered(vs, "1", Some(sample));
    var likelyPathogenic :- AutoFiltered(vs, "2", Some(sample));
    var uncertain :- AutoFiltered(vs, "3", Some(sample));
    Ok(pathogenic + likelyPathogenic + uncertain)
  }

  /** The tables are built only after the projections the interpretation
      repeats, so the second pass cannot raise; every variant it reads has a
      causative note. */
  lemma AutoCausativeNotes(vs: seq<Variant>, sample: string, showCarrier: bool, percent: real -> string)
    requires AutoTables(vs, sample, showCarrier, percent).Ok?
    ensures AutoCausative(vs, sample).Ok?
    ensures forall w :: w in AutoCausative(vs, sample).value ==> w.note in NoteToClinsig
  {
    if sample != "" {
      AutoFilteredRows(vs, "1", sample);
      AutoFilteredRows(vs, "2", sample);
      AutoFilteredRows(vs, "3", sample);
    }
  }

  /** The case table: the sample id as written and three placeholders. */
  function AutoCaseTable(sample: string): Grid {
    AddTable([[sample, Placeholder, Placeholder, Placeholder]], CaseTableHeader, false, true)
  }

  /** The technical table, the two quality lines in a column each. */
  const AutoTechTable :=
    AddTable([[MethodText, DepthText, VolumeText, ReadTypeText, ReadLengthText, QualityQ20, QualityQ30]],
             AutoTechTableHeader, false, true)

  // ---------------------------------------------------------- create_doc

  /** What the interpretation reads: `target_sample` is a flag here. */
  function ModuleContext(sample: string, cohort: seq<string>, targetSample: bool, percent: real -> string, phrases: Wording): Context {
    Context(ModuleEdition, sample, cohort, targetSample, percent, phrases)
  }

  /** `create_doc(variants_data, sample, all_samples, target_sample, dzm)` on
      the shared list `listed`, with the technical table and the date of
      issue given; the clinician line stays blank. */
  function AutoReport(w: DocWording, ctx: Context, vs: seq<Variant>, dzm: bool, tech: Grid, issued: string,
                      listed: seq<string>): Story<seq<Block>>
  {
    match AutoTables(vs, ctx.sample, dzm && !ctx.target, ctx.percent)
    case Err(e) => Story(listed, Err(e))
    case Ok(tables) =>
      match AutoCausative(vs, ctx.sample)
      case Err(e) => Story(listed, Err(e))
      case Ok(causative) => Written(w, ctx, AutoCaseTable(ctx.sample), tables, causative, tech, issued, "", listed)
  }

  /** A report that gets written has appended the references of its
      causative variants, in order, and cites them by the next numbers of
      the list, each once and in increasing order; with the ten base
      entries listed first, no citation points into them. */
  lemma AutoReportCitations(w: DocWording, ctx: Context, vs: seq<Variant>, dzm: bool, tech: Grid, issued: string,
                            listed: seq<string>)
    requires AutoReport(w, ctx, vs, dzm, tech, issued, listed).outcome.Ok?
    ensures AutoCausative(vs, ctx.sample).Ok?
    ensures var s := AutoReport(w, ctx, vs, dzm, tech, issued, listed);
      && s.listed == listed + ChainUrls(UrlsOf(ctx.edition), AutoCausative(vs, ctx.sample).value)
      && Citations(s.outcome.value) == Range(|listed|, |s.listed|)
    ensures var c := Citations(AutoReport(w, ctx, vs, dzm, tech, issued, listed).outcome.value);
      && (forall i, j :: 0 <= i < j < |c| ==> c[i] < c[j])
      && (|listed| >= |BaseSources| ==> forall i :: 0 <= i < |c| ==> |BaseSources| < c[i])
  {
    var tables := AutoTables(vs, ctx.sample, dzm && !ctx.target, ctx.percent).value;
    var causative := AutoCausative(vs, ctx.sample).value;
    WrittenCitations(w, ctx, AutoCaseTable(ctx.sample), tables, causative, tech, issued, "", listed);
    WrittenCitesNewEntries(w, ctx, AutoCaseTable(ctx.sample), tables, causative, tech, issued, "", listed);
  }

  /** Besides its running text a written report is the fixed skeleton
      around its tables. */
  lemma AutoReportOutline(w: DocWording, ctx: Context, vs: seq<Variant>, dzm: bool, tech: Grid, issued: string,
                          listed: seq<string>)
    requires AutoReport(w, ctx, vs, dzm, tech, issued, listed).outcome.Ok?
    ensures AutoTables(vs, ctx.sample, dzm && !ctx.target, ctx.percent).Ok?
    ensures var s := AutoReport(w, ctx, vs, dzm, tech, issued, listed);
      var tables := AutoTables(vs, ctx.sample, dzm && !ctx.target, ctx.percent).value;
      Outline(s.outcome.value) == Skeleton(w, AutoCaseTable(ctx.sample), tables, tech, s.listed)
  {
    var tables := AutoTables(vs, ctx.sample, dzm && !ctx.target, ctx.percent).value;
    var causative := AutoCausative(vs, ctx.sample).value;
    WrittenOutline(w, ctx, AutoCaseTable(ctx.sample), tables, causative, tech, issued, "", listed);
  }

  /** A sample without causative records gets the report with the single
      "no significant findings" sentence, and adds nothing to the list. */
  lemma AutoReportNoFindings(w: DocWording, ctx: Context, vs: seq<Variant>, dzm: bool, tech: Grid, issued: string,
                             listed: seq<string>)
    requires AutoTables(vs, ctx.sample, dzm && !ctx.target, ctx.percent).Ok?
    requires AutoCausative(vs, ctx.sample) == Ok([])
    ensures AutoReport(w, ctx, vs, dzm, tech, issued, listed) ==
      Story(listed, Ok(Document(w, AutoCaseTable(ctx.sample), AutoTables(vs, ctx.sample, dzm && !ctx.target, ctx.percent).value,
                                None, tech, listed, issued, "")))
  {
  }

  /** The projection and tabulation of one note. */
  method FormSnvTable(vs: seq<Variant>, note: string, sample: string, pathogenicityCol: bool, italic: bool,
                      percent: real -> string) returns (r: Result<Grid>)
    ensures r == SnvTable(vs, note, sample, pathogenicityCol, italic, percent)
  {
    var rows := AutoFilterVariants(vs, note, Some(sample));
    if rows.Err? {
      return Err(rows.error);
    }
    var data := AutoFormSnvTableData(rows.value, pathogenicityCol, percent);
    if data.Err? {
      return Err(data.error);
    }
    AutoSnvRowsEach(rows.value, pathogenicityCol, percent);
    r := Ok(AddTable(ShowRows(data.value), RowKeys(pathogenicityCol), italic, false));
  }

  method MakeTables(vs: seq<Variant>, sample: string, showCarrier: bool, percent: real -> string) returns (r: Result<ResultTables>)
    ensures r == AutoTables(vs, sample, showCarrier, percent)
  {
    var pathogenic := FormSnvTable(vs, "1", sample, false, true, percent);
    if pathogenic.Err? {
      return Err(pathogenic.error);
    }
    var likelyPathogenic := FormSnvTable(vs, "2", sample, false, true, percent);
    if likelyPathogenic.Err? {
      return Err(likelyPathogenic.error);
    }
    var uncertain := FormSnvTable(vs, "3", sample, false, true, percent);
    if uncertain.Err? {
      return Err(uncertain.error);
    }
    var carrier := FormSnvTable(vs, "8", sample, true, false, percent);
    if carrier.Err? {
      return Err(carrier.error);
    }
    r := Ok(ResultTables(pathogenic.value, likelyPathogenic.value, uncertain.value, StructuralTable, MitochondrialTable,
                         RepeatTable, SecondaryTable, if showCarrier then Some(carrier.value) else None));
  }

  method Causative(vs: seq<Variant>, sample: string) returns (r: Result<seq<Variant>>)
    ensures r == AutoCausative(vs, sample)
  {
    var pathogenic := AutoFilterVariants(vs, "1", Some(sample));
    if pathogenic.Err? {
      return Err(pathogenic.error);
    }
    var likelyPathogenic := AutoFilterVariants(vs, "2", Some(sample));
    if likelyPathogenic.Err? {
      return Err(likelyPathogenic.error);
    }
    var uncertain := AutoFilterVariants(vs, "3", Some(sample));
    if uncertain.Err? {
      return Err(uncertain.error);
    }
    r := Ok(pathogenic.value + likelyPathogenic.value + uncertain.value);
  }

  /** `create_doc`, appending to the module-level list `sources`. */
  method CreateDoc(sources: Bibliography, vs: seq<Variant>, sample: string, allSamples: seq<string>, targetSample: bool,
                   dzm: bool, percent: real -> string, phrases: Wording, w: DocWording, issued: string)
    returns (r: Result<seq<Block>>)
    modifies sources
    ensures Story(sources.entries, r) ==
      AutoReport(w, ModuleContext(sample, allSamples, targetSample, percent, phrases), vs, dzm, AutoTechTable, issued,
                 old(sources.entries))
  {
    var ctx := ModuleContext(sample, allSamples, targetSample, percent, phrases);
    var tables := MakeTables(vs, sample, dzm && !targetSample, percent);
    if tables.Err? {
      return Err(tables.error);
    }
    var causative := Causative(vs, sample);
    if causative.Err? {
      return Err(causative.error);
    }
    var interpretation := Interpret(sources, ctx, causative.value);
    if interpretation.Err? {
      return Err(interpretation.error);
    }
    var found := if |causative.value| == 0 then None else Some(interpretation.value);
    r := Ok(Document(w, AutoCaseTable(sample), tables.value, found, AutoTechTable, sources.entries, issued, ""));
  }
}
