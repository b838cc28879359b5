/** The `ClinReport` class of `clinreport.py`: `get_data` assembles the
    data of every sample once, `create_doc` then writes the report of one
    sample, adding its references to the reference list every instance
    shares, and `generate_reports` does both for the whole cohort. */
module ClinReport {
  import opened Base
  import opened Text
  import opened Tables
  import opened Records
  import opened Steps
  import opened Classifier
  import opened Projector
  import opened Narrative
  import opened Interpretation
  import opened Report

  // ------------------------------------------------------------ get_data

  /** The fields `get_data` writes the same for every sample: placeholders
      for the patient's sex, age and diagnosis, and the technical fields of
      whole-genome sequencing. */
  const EntryTemplate: SampleData := SampleData("", Placeholder, Placeholder, Placeholder, MethodText, DepthText,
                                                VolumeText, ReadTypeText, ReadLengthText, QualityText, [])

  /** The entry `get_data` makes for one sample: the fixed fields of
      `template`, the sample number, and the sample's variants, projected
      onto it and classified. */
  function SampleEntry(template: SampleData, sample: string, vs: seq<Variant>, ru: Option<RuAnnotations>, percent: real -> string): Result<SampleData> {
    var filtered :- Filtered(vs, None, Some(sample));
    var classified :- ProcessVariantsData(filtered, ru, percent);
    Ok(template.(number := SampleNumber(sample), variants := classified))
  }

  /** The entry of every sample, in order. */
  function EntryOutcomes(template: SampleData, samples: seq<string>, vs: seq<Variant>, ru: Option<RuAnnotations>, percent: real -> string): (r: seq<Result<SampleData>>)
    ensures |r| == |samples| && forall j :: 0 <= j < |samples| ==> r[j] == SampleEntry(template, samples[j], vs, ru, percent)
  {
    seq(|samples|, j requires 0 <= j < |samples| => SampleEntry(template, samples[j], vs, ru, percent))
  }

  /** The dictionary pairing each key with its value, a later occurrence of
      a key overwriting an earlier one. */
  function Keyed<T>(keys: seq<string>, values: seq<T>): map<string, T>
    requires |keys| == |values|
    decreases |keys|
  {
    if |keys| == 0 then map[]
    else
      var n := |keys| - 1;
      Keyed(keys[..n], values[..n])[keys[n] := values[n]]
  }

  /** When equal keys carry equal values, the dictionary has exactly the
      keys and gives each key its own value. */
  lemma {:induction false} KeyedLookup<T>(keys: seq<string>, values: seq<T>)
    requires |keys| == |values|
    requires forall j, l :: 0 <= j < |keys| && 0 <= l < |keys| && keys[j] == keys[l] ==> values[j] == values[l]
    ensures forall x :: x in Keyed(keys, values) <==> x in keys
    ensures forall j :: 0 <= j < |keys| ==> Keyed(keys, values)[keys[j]] == values[j]
    decreases |keys|
  {
    if |keys| > 0 {
      var n := |keys| - 1;
      var ks, xs := keys[..n], values[..n];
      assert forall j :: 0 <= j < n ==> ks[j] == keys[j] && xs[j] == values[j];
      KeyedLookup(ks, xs);
      assert keys == ks + [keys[n]];
    }
  }

  /** The comprehension of `get_data`: the first sample whose entry raises
      stops it. */
  function SamplesData(template: SampleData, samples: seq<string>, vs: seq<Variant>, ru: Option<RuAnnotations>, percent: real -> string): Result<map<string, SampleData>> {
    var outcomes := EntryOutcomes(template, samples, vs, ru, percent);
    var entries :- Gather(outcomes);
    GatherEach(outcomes);
    Ok(Keyed(samples, entries))
  }

  /** The data is the dictionary of the entries, or the first exception. */
  lemma SamplesDataOf(template: SampleData, samples: seq<string>, vs: seq<Variant>, ru: Option<RuAnnotations>, percent: real -> string)
    ensures var g := Gather(EntryOutcomes(template, samples, vs, ru, percent));
      && (g.Ok? ==> |g.value| == |samples| && SamplesData(template, samples, vs, ru, percent) == Ok(Keyed(samples, g.value)))
      && (g.Err? ==> SamplesData(template, samples, vs, ru, percent) == Err(g.error))
  {
    var g := Gather(EntryOutcomes(template, samples, vs, ru, percent));
    if g.Ok? {
      GatherEach(EntryOutcomes(template, samples, vs, ru, percent));
    }
  }

  /** The data is built exactly when every sample's entry can be; it then
      holds one entry per sample of the cohort, the sample's own. */
  lemma SamplesDataEntries(template: SampleData, samples: seq<string>, vs: seq<Variant>, ru: Option<RuAnnotations>, percent: real -> string)
    ensures SamplesData(template, samples, vs, ru, percent).Ok? <==>
      forall j :: 0 <= j < |samples| ==> SampleEntry(template, samples[j], vs, ru, percent).Ok?
    ensures SamplesData(template, samples, vs, ru, percent).Ok? ==>
      forall x :: x in SamplesData(template, samples, vs, ru, percent).value <==> x in samples
    ensures SamplesData(template, samples, vs, ru, percent).Ok? ==> forall j :: 0 <= j < |samples| ==>
      SampleEntry(template, samples[j], vs, ru, percent).Ok? &&
      SamplesData(template, samples, vs, ru, percent).value[samples[j]] == SampleEntry(template, samples[j], vs, ru, percent).value
  {
    var outcomes := EntryOutcomes(template, samples, vs, ru, percent);
    GatherOk(outcomes);
    if Gather(outcomes).Ok? {
      var entries := Gather(outcomes).value;
      GatherEach(outcomes);
      forall j | 0 <= j < |samples|
        ensures SampleEntry(template, samples[j], vs, ru, percent) == Ok(entries[j])
      {
        assert outcomes[j] == Ok(entries[j]);
      }
      KeyedLookup(samples, entries);
    }
  }

  /** An entry carries the sample number, the part of the name before its
      first dot, and one classified record per variant kept for the sample,
      in order; none of them is a secondary finding (note 7), which
      `process_variant_data` cannot classify. */
  lemma SampleEntryContents(template: SampleData, sample: string, vs: seq<Variant>, ru: Option<RuAnnotations>, percent: real -> string)
    requires SampleEntry(template, sample, vs, ru, percent).Ok?
    ensures var e := SampleEntry(template, sample, vs, ru, percent).value;
      var kept := Filtered(vs, None, Some(sample)).value;
      && e == template.(number := SampleNumber(sample), variants := e.variants)
      && e.number == SampleNumber(sample)
      && |e.variants| == |kept|
      && (forall k :: 0 <= k < |kept| ==> e.variants[k].variant == kept[k])
      && (forall k :: 0 <= k < |kept| ==> kept[k].note == "8" || kept[k].note in NoteToClinsig)
  {
    var kept := Filtered(vs, None, Some(sample)).value;
    ProcessVariantsDataEach(kept, ru, percent);
    forall k | 0 <= k < |kept|
      ensures kept[k].note == "8" || kept[k].note in NoteToClinsig
    {
      assert ProcessVariantData(kept[k], ru, true, percent).Ok?;
    }
  }

  // ----------------------------------------------------------- the tables

  /** `filter_variants(records, by_note=note)` on classified records. */
  function NoteRecords(cs: seq<Classified>, note: string): (r: seq<Classified>)
    ensures forall c :: c in r <==> c in cs && c.variant.note == note
  {
    var keep := (c: Classified) => c.variant.note == note;
    SelectMembers(cs, keep);
    Select(cs, keep)
  }

  /** The table of the records of one note. */
  function NoteTable(cs: seq<Classified>, note: string, pathogenicityCol: bool, italic: bool): (g: Grid) {
    AddTable(ShowRows(FormSnvTableData(NoteRecords(cs, note), pathogenicityCol)), RowKeys(pathogenicityCol), italic, false)
  }

  /** A note's table lists the sample's records of that note, one row each,
      under its header, and reads "Не обнаружено" when there is none. */
  lemma NoteTableRows(cs: seq<Classified>, note: string, pathogenicityCol: bool, italic: bool)
    ensures NoteTable(cs, note, pathogenicityCol, italic).cells ==
      [RowKeys(pathogenicityCol)] + ShowRows(FormSnvTableData(NoteRecords(cs, note), pathogenicityCol))
    ensures NoteTable(cs, note, pathogenicityCol, italic).notFound <==> forall c :: c in cs ==> c.variant.note != note
  {
    var rows := ShowRows(FormSnvTableData(NoteRecords(cs, note), pathogenicityCol));
    AddTableRows(rows, RowKeys(pathogenicityCol), italic);
    if |NoteRecords(cs, note)| > 0 {
      assert NoteRecords(cs, note)[0] in NoteRecords(cs, note);
    }
  }

  /** The results tables of `create_doc`; the carrier table only with `dzm`. */
  function ClassTables(cs: seq<Classified>, dzm: bool): ResultTables {
    ResultTables(
      NoteTable(cs, "1", false, true), NoteTable(cs, "2", false, true), NoteTable(cs, "3", false, true),
      StructuralTable, MitochondrialTable, RepeatTable, NoteTable(cs, "7", false, true),
      if dzm then Some(NoteTable(cs, "8", true, false)) else None)
  }

  /** With the data `get_data` builds the secondary-findings table is always
      "Не обнаружено". */
  lemma SecondaryTableEmpty(template: SampleData, sample: string, vs: seq<Variant>, ru: Option<RuAnnotations>, percent: real -> string, dzm: bool)
    requires SampleEntry(template, sample, vs, ru, percent).Ok?
    ensures ClassTables(SampleEntry(template, sample, vs, ru, percent).value.variants, dzm).secondary.notFound
  {
    var cs := SampleEntry(template, sample, vs, ru, percent).value.variants;
    SampleEntryContents(template, sample, vs, ru, percent);
    forall c | c in cs
      ensures c.variant.note != "7"
    {
      var k :| 0 <= k < |cs| && cs[k] == c;
      assert c.variant.note == "8" || c.variant.note in NoteToClinsig;
    }
    NoteTableRows(cs, "7", false, true);
  }

  function CaseTable(sd: SampleData): Grid {
    AddTable([[sd.number, sd.sex, sd.age, sd.diagnosis]], CaseTableHeader, false, true)
  }

  function TechTable(sd: SampleData): Grid {
    AddTable([[sd.studyMethod, sd.depth, sd.volume, sd.readType, sd.readLength, sd.quality]], TechTableHeader, false, true)
  }

  // ---------------------------------------------------------- create_doc

  /** The causative records: those of note 1, then of note 2, then of note
      3, each in the sample's order. */
  function Causative(cs: seq<Classified>): seq<Classified> {
    NoteRecords(cs, "1") + NoteRecords(cs, "2") + NoteRecords(cs, "3")
  }

  /** The list is empty exactly when the sample has no record of a causative
      note, and holds every such record. */
  lemma CausativeMembers(cs: seq<Classified>)
    ensures forall c :: c in Causative(cs) <==> c in cs && c.variant.note in NoteToClinsig
    ensures |Causative(cs)| == 0 <==> forall c :: c in cs ==> c.variant.note !in NoteToClinsig
  {
    var r := Causative(cs);
    forall c | c in cs && c.variant.note in NoteToClinsig
      ensures c in r
    {
      assert c.variant.note == "1" || c.variant.note == "2" || c.variant.note == "3";
    }
    if |r| > 0 {
      assert r[0] in r;
    }
  }

  function VariantsOf(cs: seq<Classified>): (vs: seq<Variant>)
    ensures |vs| == |cs| && forall k :: 0 <= k < |cs| ==> vs[k] == cs[k].variant
  {
    seq(|cs|, k requires 0 <= k < |cs| => cs[k].variant)
  }

  /** What the class edition's loop reads besides the variant: `if
      self.target_sample:` is the truthiness of the target sample. */
  function ClassContext(sample: string, cohort: seq<string>, target: string, percent: real -> string, phrases: Wording): Context {
    Context(ClassEdition, sample, cohort, target != "", percent, phrases)
  }

  /** The report of a sample whose entry is `sd`, on the shared list
      `listed`: the interpretation of its causative records, then the
      document around it, whose reference list is the list once the
      interpretation is written. */
  function SampleReport(w: DocWording, ctx: Context, sd: SampleData, dzm: bool, clinician: string,
                        issued: string, listed: seq<string>): Story<seq<Block>>
  {
    Written(w, ctx, CaseTable(sd), ClassTables(sd.variants, dzm), VariantsOf(Causative(sd.variants)),
            TechTable(sd), issued, clinician, listed)
  }

  /** `create_doc(sample, dzm)`: `self.data[sample]` raises before anything
      is written when the data is missing or lacks the sample. */
  function ClassReport(w: DocWording, ctx: Context, data: Option<map<string, SampleData>>, dzm: bool,
                       clinician: string, issued: string, listed: seq<string>): Story<seq<Block>>
  {
    if data.None? then Story(listed, Err(TypeError("'NoneType' object is not subscriptable")))
    else if ctx.sample !in data.value then Story(listed, Err(KeyError(ctx.sample)))
    else SampleReport(w, ctx, data.value[ctx.sample], dzm, clinician, issued, listed)
  }

  /** A report that gets written has appended the references of its
      causative variants, in order, and cites them by the next numbers of
      the list, each once and in increasing order; with the ten base
      entries listed first, no citation points into them. */
  lemma ClassReportCitations(w: DocWording, ctx: Context, data: Option<map<string, SampleData>>, dzm: bool,
                             clinician: string, issued: string, listed: seq<string>)
    requires ClassReport(w, ctx, data, dzm, clinician, issued, listed).outcome.Ok?
    ensures data.Some? && ctx.sample in data.value
    ensures var s := ClassReport(w, ctx, data, dzm, clinician, issued, listed);
      && s.listed == listed + ChainUrls(UrlsOf(ctx.edition), VariantsOf(Causative(data.value[ctx.sample].variants)))
      && Citations(s.outcome.value) == Range(|listed|, |s.listed|)
    ensures var c := Citations(ClassReport(w, ctx, data, dzm, clinician, issued, listed).outcome.value);
      && (forall i, j :: 0 <= i < j < |c| ==> c[i] < c[j])
      && (|listed| >= |BaseSources| ==> forall i :: 0 <= i < |c| ==> |BaseSources| < c[i])
  {
    var sd := data.value[ctx.sample];
    WrittenCitations(w, ctx, CaseTable(sd), ClassTables(sd.variants, dzm), VariantsOf(Causative(sd.variants)),
                     TechTable(sd), issued, clinician, listed);
    WrittenCitesNewEntries(w, ctx, CaseTable(sd), ClassTables(sd.variants, dzm), VariantsOf(Causative(sd.variants)),
                           TechTable(sd), issued, clinician, listed);
  }

  /** Besides its running text a written report is the fixed skeleton: the
      case table, the note 1, 2 and 3 tables, the three empty ones, the
      secondary-findings table, the carrier table exactly when `dzm`, the
      technical table and the whole shared list as it stands after the
      interpretation. */
  lemma ClassReportOutline(w: DocWording, ctx: Context, data: Option<map<string, SampleData>>, dzm: bool,
                           clinician: string, issued: string, listed: seq<string>)
    requires ClassReport(w, ctx, data, dzm, clinician, issued, listed).outcome.Ok?
    ensures data.Some? && ctx.sample in data.value
    ensures var s := ClassReport(w, ctx, data, dzm, clinician, issued, listed);
      var sd := data.value[ctx.sample];
      Outline(s.outcome.value) == Skeleton(w, CaseTable(sd), ClassTables(sd.variants, dzm), TechTable(sd), s.listed)
    ensures ClassTables(data.value[ctx.sample].variants, dzm).carrier.Some? <==> dzm
  {
    var sd := data.value[ctx.sample];
    WrittenOutline(w, ctx, CaseTable(sd), ClassTables(sd.variants, dzm), VariantsOf(Causative(sd.variants)),
                   TechTable(sd), issued, clinician, listed);
  }

  /** A sample without a causative record gets the report with the single
      "no significant findings" sentence, and its report adds nothing to
      the shared list. */
  lemma ClassReportNoFindings(w: DocWording, ctx: Context, data: Option<map<string, SampleData>>, dzm: bool,
                              clinician: string, issued: string, listed: seq<string>)
    requires data.Some? && ctx.sample in data.value
    requires forall c :: c in data.value[ctx.sample].variants ==> c.variant.note !in NoteToClinsig
    ensures var s := ClassReport(w, ctx, data, dzm, clinician, issued, listed);
      var sd := data.value[ctx.sample];
      s == Story(listed, Ok(Document(w, CaseTable(sd), ClassTables(sd.variants, dzm), None, TechTable(sd), listed, issued, clinician)))
  {
    CausativeMembers(data.value[ctx.sample].variants);
    assert VariantsOf(Causative(data.value[ctx.sample].variants)) == [];
  }

  // ---------------------------------------------------- generate_reports

  /** What writes the report of a sample on a given list. */
  type Reporter = (string, seq<string>) -> Story<seq<Block>>

  /** The reports of `samples` in turn, each on the list the previous one
      left; the first exception stops the run. */
  function Reports(report: Reporter, samples: seq<string>, listed: seq<string>): Story<map<string, seq<Block>>>
    decreases |samples|
  {
    if |samples| == 0 then Story(listed, Ok(map[]))
    else
      var n := |samples| - 1;
      var prev := Reports(report, samples[..n], listed);
      match prev.outcome
      case Err(_) => prev
      case Ok(reports) =>
        var s := report(samples[n], prev.listed);
        Story(s.listed, match s.outcome
          case Err(e) => Err(e)
          case Ok(doc) => Ok(reports[samples[n] := doc]))
  }

  lemma {:induction false} ReportsStops(report: Reporter, samples: seq<string>, listed: seq<string>, i: nat)
    requires i <= |samples| && Reports(report, samples[..i], listed).outcome.Err?
    ensures Reports(report, samples, listed) == Reports(report, samples[..i], listed)
    decreases |samples| - i
  {
    if i < |samples| {
      assert samples[..i + 1][..i] == samples[..i];
      ReportsStops(report, samples, listed, i + 1);
    } else {
      assert samples[..i] == samples;
    }
  }

  /** A run that gets through wrote every earlier report first, and the
      last one on the list they left. */
  lemma ReportsLast(report: Reporter, samples: seq<string>, listed: seq<string>)
    requires |samples| > 0 && Reports(report, samples, listed).outcome.Ok?
    ensures var n := |samples| - 1;
      var prev := Reports(report, samples[..n], listed);
      var last := report(samples[n], prev.listed);
      && prev.outcome.Ok? && last.outcome.Ok?
      && Reports(report, samples, listed) == Story(last.listed, Ok(prev.outcome.value[samples[n] := last.outcome.value]))
  {
  }

  /** `self.create_doc(sample)` for the cohort, with the carrier table. */
  function ClassReporter(w: DocWording, cohort: seq<string>, target: string, percent: real -> string, phrases: Wording,
                         data: Option<map<string, SampleData>>, clinician: string, issued: string): Reporter
  {
    (sample: string, listed: seq<string>) =>
      ClassReport(w, ClassContext(sample, cohort, target, percent, phrases), data, true, clinician, issued, listed)
  }

  /** The reports of a cohort share one list: the last report's citations
      come after every reference the earlier ones appended, so no number is
      cited by two reports. */
  lemma ReportsCiteAfterEarlierOnes(w: DocWording, cohort: seq<string>, target: string, percent: real -> string, phrases: Wording,
                                    data: Option<map<string, SampleData>>, clinician: string, issued: string,
                                    samples: seq<string>, listed: seq<string>)
    requires |samples| > 0
    requires Reports(ClassReporter(w, cohort, target, percent, phrases, data, clinician, issued), samples, listed).outcome.Ok?
    ensures var n := |samples| - 1;
      var report := ClassReporter(w, cohort, target, percent, phrases, data, clinician, issued);
      var prev := Reports(report, samples[..n], listed);
      var last := report(samples[n], prev.listed);
      && last.outcome.Ok?
      && (forall i :: 0 <= i < |Citations(last.outcome.value)| ==>
            |prev.listed| < Citations(last.outcome.value)[i] <= |last.listed|)
  {
    var n := |samples| - 1;
    var report := ClassReporter(w, cohort, target, percent, phrases, data, clinician, issued);
    ReportsLast(report, samples, listed);
    var prev := Reports(report, samples[..n], listed);
    ClassReportCitations(w, ClassContext(samples[n], cohort, target, percent, phrases), data, true, clinician, issued, prev.listed);
  }

  // ------------------------------------------------------------ the class

  class ClinReport {
    const allSamples: seq<string>
    const targetSample: string
    const clinician: string
    const ruAnnotations: Option<RuAnnotations>
    /** `float2percent`. */
    const percent: real -> string
    /** The class attribute `sources`, the same list for every instance. */
    const sources: Bibliography
    /** The fixed fields of every entry and the texts of the report. */
    const template: SampleData
    const wording: DocWording
    const phrases: Wording
    var data: Option<map<string, SampleData>>

    /** `__init__` with the samples `get_all_samples` read from the database:
        without a target sample the first one is the target. */
    constructor (allSamples: seq<string>, targetSample: NStr, clinician: NStr, ruAnnotations: Option<RuAnnotations>,
                 sources: Bibliography, percent: real -> string)
      requires Truthy(targetSample) || |allSamples| > 0
      ensures this.allSamples == allSamples
      ensures this.targetSample == if Truthy(targetSample) then targetSample.value else allSamples[0]
      ensures this.clinician == OrElse(clinician, "")
      ensures this.ruAnnotations == ruAnnotations && this.sources == sources && this.percent == percent
      ensures template == EntryTemplate && wording == DocumentWording && phrases == ReportWording
      ensures data.None?
    {
      this.allSamples := allSamples;
      this.targetSample := if Truthy(targetSample) then targetSample.value else allSamples[0];
      this.clinician := OrElse(clinician, "");
      this.ruAnnotations := ruAnnotations;
      this.sources := sources;
      this.percent := percent;
      template := EntryTemplate;
      wording := DocumentWording;
      phrases := ReportWording;
      data := None;
    }

    /** The value of one sample in the comprehension of `get_data`. */
    method MakeEntry(sample: string, vs: seq<Variant>) returns (r: Result<SampleData>)
      ensures r == SampleEntry(template, sample, vs, ruAnnotations, percent)
    {
      var filtered := FilterVariants(vs, None, Some(sample));
      if filtered.Err? {
        return Err(filtered.error);
      }
      var classified := ProcessVariantsData(filtered.value, ruAnnotations, percent);
      if classified.Err? {
        return Err(classified.error);
      }
      r := Ok(template.(number := SampleNumber(sample), variants := classified.value));
    }

    /** `get_data` on the rows `get_variants_data` read: `self.data` is only
        assigned once every entry is built. */
    method GetData(vs: seq<Variant>) returns (r: Result<()>)
      modifies this
      ensures var built := SamplesData(template, allSamples, vs, ruAnnotations, percent);
        && (built.Ok? ==> r == Ok(()) && data == Some(built.value))
        && (built.Err? ==> r == Err(built.error) && data == old(data))
    {
      ghost var outcomes := EntryOutcomes(template, allSamples, vs, ruAnnotations, percent);
      var entries: seq<SampleData> := [];
      var i := 0;
      while i < |allSamples|
        invariant 0 <= i <= |allSamples|
        invariant Gather(outcomes[..i]) == Ok(entries)
        invariant data == old(data)
      {
        var made := MakeEntry(allSamples[i], vs);
        if made.Err? {
          assert outcomes[..i + 1][..i] == outcomes[..i];
          GatherStops(outcomes, i + 1);
          SamplesDataOf(template, allSamples, vs, ruAnnotations, percent);
          return Err(made.error);
        }
        GatherNext(outcomes, i, entries, made.value);
        entries := entries + [made.value];
        i := i + 1;
      }
      assert outcomes[..i] == outcomes;
      SamplesDataOf(template, allSamples, vs, ruAnnotations, percent);
      data := Some(Keyed(allSamples, entries));
      r := Ok(());
    }

    /** `create_doc(sample, dzm)`, the date of issue given as text. */
    method CreateDoc(sample: string, dzm: bool, issued: string) returns (r: Result<seq<Block>>)
      modifies sources
      ensures Story(sources.entries, r) ==
        ClassReport(wording, ClassContext(sample, allSamples, targetSample, percent, phrases), data, dzm,
                    clinician, issued, old(sources.entries))
    {
      if data.None? {
        return Err(TypeError("'NoneType' object is not subscriptable"));
      }
      if sample !in data.value {
        return Err(KeyError(sample));
      }
      var sd := data.value[sample];
      var tables := ClassTables(sd.variants, dzm);
      var causative := Causative(sd.variants);
      var ctx := ClassContext(sample, allSamples, targetSample, percent, phrases);
      var interpretation := Interpret(sources, ctx, VariantsOf(causative));
      if interpretation.Err? {
        return Err(interpretation.error);
      }
      var found := if |causative| == 0 then None else Some(interpretation.value);
      r := Ok(Document(wording, CaseTable(sd), tables, found, TechTable(sd), sources.entries, issued, clinician));
    }

    /** `generate_reports`: the data, then the report of every sample of the
        cohort in order, all with the carrier table. */
    method GenerateReports(vs: seq<Variant>, issued: string) returns (r: Result<map<string, seq<Block>>>)
      modifies this, sources
      ensures var built := SamplesData(template, allSamples, vs, ruAnnotations, percent);
        && (built.Err? ==> r == Err(built.error) && sources.entries == old(sources.entries) && data == old(data))
        && (built.Ok? ==> data == Some(built.value))
        && (built.Ok? ==>
              Story(sources.entries, r) ==
              Reports(ClassReporter(wording, allSamples, targetSample, percent, phrases, data, clinician, issued),
                      allSamples, old(sources.entries)))
    {
      var loaded := GetData(vs);
      if loaded.Err? {
        return Err(loaded.error);
      }
      ghost var before := sources.entries;
      ghost var report := ClassReporter(wording, allSamples, targetSample, percent, phrases, data, clinician, issued);
      var reports: map<string, seq<Block>> := map[];
      var i := 0;
      while i < |allSamples|
        invariant 0 <= i <= |allSamples|
        invariant data == Some(SamplesData(template, allSamples, vs, ruAnnotations, percent).value)
        invariant Reports(report, allSamples[..i], before) == Story(sources.entries, Ok(reports))
      {
        assert allSamples[..i + 1][..i] == allSamples[..i];
        var doc := CreateDoc(allSamples[i], true, issued);
        if doc.Err? {
          ReportsStops(report, allSamples, before, i + 1);
          return Err(doc.error);
        }
        reports := reports[allSamples[i] := doc.value];
        i := i + 1;
      }
      assert allSamples[..i] == allSamples;
      r := Ok(reports);
    }
  }
}
