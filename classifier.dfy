/** The classifier and the table rows: `process_variant_data` turns a
    variant into the eight report columns, `form_snv_table_data` reads those
    columns back as table rows (the module-level version builds the rows
    straight from the variant), and `sample_data_to_payload` flattens a
    sample into one record per variant. */
module Classifier {
  import opened Base
  import opened Text
  import opened Tables
  import opened Records
  import opened Steps
  import opened Evidence
  import Normalizer

  /** `[msg for msg in [...] if msg]`: the truthy messages, in order. */
  function Present(items: seq<NStr>): (r: seq<string>)
    ensures |r| <= |items|
    ensures forall j :: 0 <= j < |r| ==> r[j] != ""
    ensures forall j :: 0 <= j < |items| && Truthy(items[j]) ==> items[j].value in r
    ensures forall s :: s in r ==> Some(s) in items
    ensures |items| == 1 ==> r == (if Truthy(items[0]) then [items[0].value] else [])
    decreases |items|
  {
    if |items| == 0 then []
    else
      var n := |items| - 1;
      var prev := Present(items[..n]);
      assert forall j :: 0 <= j < n ==> items[..n][j] == items[j];
      prev + (if Truthy(items[n]) then [items[n].value] else [])
  }

  /** A multi-line cell splits back into exactly its messages when none of
      them spans a line break. */
  lemma CellLines(items: seq<NStr>)
    requires |Present(items)| >= 1
    requires forall j :: 0 <= j < |items| && items[j].Some? ==> '\n' !in items[j].value
    ensures Split(Join(Present(items), "\n"), '\n') == Present(items)
  {
    var lines := Present(items);
    forall j | 0 <= j < |lines|
      ensures !Contains(lines[j], "\n")
    {
      assert Some(lines[j]) in items;
      NoCharNoContains(lines[j], '\n');
    }
    SplitJoin(lines, "\n");
  }

  /** `f'{chrom}-{pos}-{ref}-{alt}'`. */
  function Spdi(v: Variant): string {
    v.chrom + "-" + v.pos + "-" + v.ref + "-" + v.alt
  }

  /** `f"p.({hgvsp[2:].replace('%3D', '=')})" if hgvsp else ''` (class version). */
  function HgvspMsg(hgvsp: NStr): string {
    if Truthy(hgvsp) then "p.(" + ReplaceAll(DropPrefix(hgvsp.value, 2), "%3D", "=") + ")" else ""
  }

  /** The variation cell of `process_variant_data`: SPDI, the transcript
      (the RefSeq one when known), the HGVS c. and p. notations and the rsID,
      one per line, empty ones skipped. */
  function VariationItems(v: Variant): (r: seq<NStr>)
    ensures |r| == 5 && r[0] == Some(Spdi(v))
  {
    var transcriptMsg := if Truthy(v.refseq) then v.refseq.value + ":" else Show(v.transcript) + ":";
    [Some(Spdi(v)), Some(transcriptMsg), v.hgvsc, Some(HgvspMsg(v.hgvsp)), Some(OrElse(v.rsid, ""))]
  }

  function VariationCell(v: Variant): string {
    Join(Present(VariationItems(v)), "\n")
  }

  /** The SPDI is never empty, so the variation cell always starts with it
      and, when no part holds a line break, its lines are exactly the
      present parts. */
  lemma VariationCellLines(v: Variant)
    requires forall j :: 0 <= j < 5 && VariationItems(v)[j].Some? ==> '\n' !in VariationItems(v)[j].value
    ensures Split(VariationCell(v), '\n') == Present(VariationItems(v))
    ensures Present(VariationItems(v))[0] == Spdi(v)
  {
    var items := VariationItems(v);
    assert Truthy(items[0]);
    assert Present(items[..1]) == [Spdi(v)] by {
      assert items[..1][..0] == [];
    }
    PresentPrefix(items, 1);
    CellLines(items);
  }

  /** The messages of a prefix come first. */
  lemma {:induction false} PresentPrefix(items: seq<NStr>, k: nat)
    requires k <= |items|
    ensures |Present(items[..k])| <= |Present(items)| && Present(items)[..|Present(items[..k])|] == Present(items[..k])
    decreases |items| - k
  {
    if k < |items| {
      PresentPrefix(items, k + 1);
      var n := |items| - 1;
      assert items[..k + 1][..k] == items[..k];
    } else {
      assert items[..k] == items;
    }
  }

  /** The messages of two lists in turn are those of the first, then those
      of the second: with the one-item case this fixes their order and
      their multiplicity. */
  lemma {:induction false} PresentConcat(a: seq<NStr>, b: seq<NStr>)
    ensures Present(a + b) == Present(a) + Present(b)
    decreases |b|
  {
    if |b| == 0 {
      assert a + b == a;
    } else {
      var n := |b| - 1;
      assert (a + b)[..|a + b| - 1] == a + b[..n];
      PresentConcat(a, b[..n]);
      assert b[..n] + [b[n]] == b;
      assert b[..|b| - 1] == b[..n];
    }
  }

  /** Column 1 of `zygosity2msg` (the table cell), `'-'` when unknown. */
  function ZygosityCell(zygosity: NStr): (r: Result<string>)
    ensures r.Err? <==> Truthy(zygosity) && zygosity.value !in ZygosityToMsg
    ensures r.Ok? && Truthy(zygosity) ==> r.value == ZygosityToMsg[zygosity.value].cell
    ensures !Truthy(zygosity) ==> r == Ok("-")
  {
    if !Truthy(zygosity) then Ok("-")
    else if zygosity.value in ZygosityToMsg then Ok(ZygosityToMsg[zygosity.value].cell)
    else Err(KeyError(zygosity.value))
  }

  /** `inher2msg[code]`. */
  function InheritanceName(code: string): Result<string> {
    if code in InherToMsg then Ok(InherToMsg[code]) else Err(KeyError(code))
  }

  function InheritanceNames(codes: seq<string>): (r: seq<Result<string>>)
    ensures |r| == |codes| && forall j :: 0 <= j < |codes| ==> r[j] == InheritanceName(codes[j])
  {
    seq(|codes|, j requires 0 <= j < |codes| => InheritanceName(codes[j]))
  }

  /** `', '.join(inher2msg[inh] for inh in inher.split(','))`, `'-'` when
      the column is empty. */
  function InheritanceLabel(inher: NStr): Result<string> {
    if !Truthy(inher) then Ok("-")
    else
      var names :- Gather(InheritanceNames(Split(inher.value, ',')));
      Ok(Join(names, ", "))
  }

  /** The names of codes that all have one. */
  function NamesOf(codes: seq<string>): (r: seq<string>)
    requires forall c :: c in codes ==> c in InherToMsg
    ensures |r| == |codes| && forall j :: 0 <= j < |codes| ==> r[j] == InherToMsg[codes[j]]
  {
    seq(|codes|, j requires 0 <= j < |codes| => InherToMsg[codes[j]])
  }

  /** The label raises exactly when some comma-separated code is not in the
      table, and names each code, in order, otherwise. */
  lemma InheritanceLabelSpec(inher: string)
    requires inher != ""
    ensures InheritanceLabel(Some(inher)).Ok? <==> forall c :: c in Split(inher, ',') ==> c in InherToMsg
    ensures InheritanceLabel(Some(inher)).Ok? ==>
      (forall c :: c in Split(inher, ',') ==> c in InherToMsg) &&
      InheritanceLabel(Some(inher)).value == Join(NamesOf(Split(inher, ',')), ", ")
  {
    var codes := Split(inher, ',');
    var steps := InheritanceNames(codes);
    GatherOk(steps);
    if InheritanceLabel(Some(inher)).Ok? {
      GatherEach(steps);
      var names := Gather(steps).value;
      assert names == NamesOf(codes);
    } else {
      var j :| 0 <= j < |steps| && !steps[j].Ok?;
      assert codes[j] !in InherToMsg;
    }
  }

  /** The codes the normaliser derives from an OMIM phenotype always have a
      label, so the inheritance column of a legacy row never raises. */
  lemma NormalisedCodesHaveLabels(phenotype: string)
    requires Normalizer.InheritanceCodes(phenotype) != ""
    ensures InheritanceLabel(Some(Normalizer.InheritanceCodes(phenotype))).Ok?
  {
    var s := Normalizer.InheritanceCodes(phenotype);
    Normalizer.InheritanceCodesSpec(phenotype);
    InheritanceLabelSpec(s);
    forall c | c in Split(s, ',')
      ensures c in InherToMsg
    {
      assert c in SortedCodes;
    }
  }

  /** `float2percent(AF) if AF else 'н/д'`; the formatting itself is the
      parameter `percent`. */
  function FrequencyCell(af: Option<real>, percent: real -> string): (r: string)
    ensures NumTruthy(af) ==> r == percent(af.value)
    ensures !NumTruthy(af) ==> r == "н/д"
  {
    if NumTruthy(af) then percent(af.value) else "н/д"
  }

  /** `f'{ad}x/{dp}x'` with `'_'` for a missing count. */
  function CoverageCell(v: Variant): (r: string)
    ensures |r| >= 5 && r[|r| - 1] == 'x'
    ensures !Truthy(v.ad) ==> r[..3] == "_x/"
    ensures !Truthy(v.dp) ==> r[|r| - 2..] == "_x"
  {
    var depth := OrElse(v.ad, "_") + "x";
    var total := OrElse(v.dp, "_") + "x";
    var cell := depth + "/" + total;
    assert cell[..|depth| + 1] == depth + "/" && cell[|cell| - |total|..] == total;
    cell
  }

  /** The coverage cell reads back as its two counts, a missing one as
      `_`, when neither count holds a slash. */
  lemma CoverageCellReadsBack(v: Variant)
    requires '/' !in OrElse(v.ad, "_") && '/' !in OrElse(v.dp, "_")
    ensures Split(CoverageCell(v), '/') == [OrElse(v.ad, "_") + "x", OrElse(v.dp, "_") + "x"]
  {
    var depth := OrElse(v.ad, "_") + "x";
    var total := OrElse(v.dp, "_") + "x";
    NoCharNoContains(depth, '/');
    NoCharNoContains(total, '/');
    assert Join([depth, total], "/") == depth + "/" + total;
    SplitJoin([depth, total], "/");
  }

  /** `clinsig2msg.get(sig, default)`; a None significance is not a key. */
  function ClinsigLabel(sig: NStr, default: string): (r: string)
    ensures sig.Some? && sig.value in ClinsigToMsg ==> r == ClinsigToMsg[sig.value]
    ensures (sig.None? || sig.value !in ClinsigToMsg) ==> r == default
  {
    if sig.Some? && sig.value in ClinsigToMsg then ClinsigToMsg[sig.value] else default
  }

  /** The `Патогенность` column: the ClinVar label for carrier variants
      (note 8), the capitalised significance of the note otherwise; any other
      note is not a key of `note2clinsig`. */
  function PathogenicityCell(note: string, sig: NStr): (r: Result<string>)
    ensures r.Err? <==> note != "8" && note !in NoteToClinsig
    ensures note == "8" ==> r == Ok(ClinsigLabel(sig, "-"))
    ensures note in NoteToClinsig ==> r == Ok(Capitalize(NoteToClinsig[note]))
  {
    if note == "8" then Ok(ClinsigLabel(sig, "-"))
    else if note in NoteToClinsig then Ok(Capitalize(NoteToClinsig[note]))
    else Err(KeyError(note))
  }

  /** `ru_annotations.get(section, {}).get(part, {}).get(symbol, default)`. */
  function RuLookup(ru: RuAnnotations, section: string, part: string, symbol: NStr, default: NStr): (r: NStr)
    ensures section in ru && part in ru[section] && symbol.Some? && symbol.value in ru[section][part] ==>
      r == Some(ru[section][part][symbol.value])
    ensures !(section in ru && part in ru[section] && symbol.Some? && symbol.value in ru[section][part]) ==>
      r == default
  {
    if section in ru && part in ru[section] && symbol.Some? && symbol.value in ru[section][part]
    then Some(ru[section][part][symbol.value])
    else default
  }

  /** The disease and inheritance texts after the Russian overrides: only
      when they are requested and the table is non-empty; a secondary finding
      (note 7) reads both from `secondary`, any other note only the disease
      from `omim`. */
  function RuTexts(v: Variant, ru: Option<RuAnnotations>, useRu: bool, inherMsg: string): (NStr, string) {
    if useRu && ru.Some? && |ru.value| > 0 then
      if v.note == "7" then
        (RuLookup(ru.value, "secondary", "Disease/Phentyope", v.symbol, v.omimPheno),
         RuLookup(ru.value, "secondary", "Inheritance", v.symbol, Some(inherMsg)).value)
      else (RuLookup(ru.value, "omim", "Ассоциированное заболевание", v.symbol, v.omimPheno), inherMsg)
    else (v.omimPheno, inherMsg)
  }

  /** `process_variant_data`. */
  function ProcessVariantData(v: Variant, ru: Option<RuAnnotations>, useRu: bool, percent: real -> string): (r: Result<Classified>)
    ensures r.Ok? <==> ZygosityCell(v.zygosity).Ok? && InheritanceLabel(v.omimInher).Ok? &&
                       (v.note == "8" || v.note in NoteToClinsig)
    ensures ZygosityCell(v.zygosity).Err? ==> r == Err(ZygosityCell(v.zygosity).error)
    ensures ZygosityCell(v.zygosity).Ok? && InheritanceLabel(v.omimInher).Err? ==> r == Err(InheritanceLabel(v.omimInher).error)
    ensures r.Ok? ==>
      && r.value.variant == v
      && r.value.gene == v.symbol
      && r.value.variation == VariationCell(v)
      && r.value.frequency == FrequencyCell(GnomadAggregated(v).af, percent)
      && r.value.coverage == CoverageCell(v)
      && r.value.pathogenicity == PathogenicityCell(v.note, v.clinvarSig).value
      && r.value.kind == Get(NoteToType, v.note)
      && r.value.disease == RuTexts(v, ru, useRu, InheritanceLabel(v.omimInher).value).0
      && r.value.zygosityInheritance ==
           ZygosityCell(v.zygosity).value + "\n(" + RuTexts(v, ru, useRu, InheritanceLabel(v.omimInher).value).1 + ")"
  {
    var zygosity :- ZygosityCell(v.zygosity);
    var inherMsg :- InheritanceLabel(v.omimInher);
    var gnomad := GnomadAggregated(v);
    var (disease, inher) := RuTexts(v, ru, useRu, inherMsg);
    var pathogenicity :- PathogenicityCell(v.note, v.clinvarSig);
    Ok(Classified(v, v.symbol, disease, VariationCell(v), zygosity + "\n(" + inher + ")",
                  FrequencyCell(gnomad.af, percent), CoverageCell(v), pathogenicity, Get(NoteToType, v.note)))
  }

  /** Without annotations, or for a variant without a gene symbol, the
      disease column is the OMIM phenotype of the row. */
  lemma DiseaseDefaultsToOmim(v: Variant, ru: Option<RuAnnotations>, useRu: bool, percent: real -> string)
    requires ProcessVariantData(v, ru, useRu, percent).Ok?
    requires !useRu || ru.None? || v.symbol.None?
    ensures ProcessVariantData(v, ru, useRu, percent).value.disease == v.omimPheno
  {
  }

  function ClassifyAll(vs: seq<Variant>, ru: Option<RuAnnotations>, percent: real -> string): (r: seq<Result<Classified>>)
    ensures |r| == |vs| && forall k :: 0 <= k < |vs| ==> r[k] == ProcessVariantData(vs[k], ru, true, percent)
  {
    seq(|vs|, k requires 0 <= k < |vs| => ProcessVariantData(vs[k], ru, true, percent))
  }

  /** `process_variants_data` (with the annotations on, its default). */
  function ProcessVariantsData(vs: seq<Variant>, ru: Option<RuAnnotations>, percent: real -> string): Result<seq<Classified>> {
    Gather(ClassifyAll(vs, ru, percent))
  }

  /** One classified record per variant, in order, each carrying its own
      row; a single unclassifiable variant makes the whole call raise. */
  lemma ProcessVariantsDataEach(vs: seq<Variant>, ru: Option<RuAnnotations>, percent: real -> string)
    ensures ProcessVariantsData(vs, ru, percent).Ok? <==>
      forall k :: 0 <= k < |vs| ==> ProcessVariantData(vs[k], ru, true, percent).Ok?
    ensures ProcessVariantsData(vs, ru, percent).Ok? ==>
      |ProcessVariantsData(vs, ru, percent).value| == |vs| &&
      forall k :: 0 <= k < |vs| ==> ProcessVariantsData(vs, ru, percent).value[k].variant == vs[k]
  {
    GatherOk(ClassifyAll(vs, ru, percent));
    if ProcessVariantsData(vs, ru, percent).Ok? {
      GatherEach(ClassifyAll(vs, ru, percent));
    }
  }

  /** The report column names are told apart by their first letter. */
  lemma ColumnNamesDistinct()
    ensures ColGene[0] == 'Г' && ColDisease[0] == 'А' && ColVariation[0] == 'И' && ColZygosity[0] == 'З'
    ensures ColFrequency[0] == 'Ч' && ColCoverage[0] == 'К' && ColPathogenicity[0] == 'П' && ColType[0] == 'Т'
  {
  }

  /** The eight report columns `process_variant_data` adds. */
  const VariantDataColumns: seq<string> :=
    [ColGene, ColDisease, ColVariation, ColZygosity, ColFrequency, ColCoverage, ColPathogenicity, ColType]

  /** `variant_data[col]` for a report column; texts the source stores as
      `str` appear as present values. */
  function ColumnValue(c: Classified, col: string): NStr
    requires col in VariantDataColumns
  {
    if col == ColGene then c.gene
    else if col == ColDisease then c.disease
    else if col == ColVariation then Some(c.variation)
    else if col == ColZygosity then Some(c.zygosityInheritance)
    else if col == ColFrequency then Some(c.frequency)
    else if col == ColCoverage then Some(c.coverage)
    else if col == ColPathogenicity then Some(c.pathogenicity)
    else c.kind
  }

  /** `keys`: the carrier header with the pathogenicity column, the SNV
      header otherwise. */
  function RowKeys(pathogenicityCol: bool): (keys: seq<string>)
    ensures forall j :: 0 <= j < |keys| ==> keys[j] in VariantDataColumns
  {
    if pathogenicityCol then CarrierTableHeader else SnvTableHeader
  }

  lemma RowKeysWidth(pathogenicityCol: bool)
    ensures |RowKeys(pathogenicityCol)| == if pathogenicityCol then 7 else 6
  {
  }

  /** `tuple(variant_data[key] for key in keys)`. */
  function SnvRow(c: Classified, pathogenicityCol: bool): (r: seq<NStr>)
    ensures |r| == |RowKeys(pathogenicityCol)|
    ensures forall j :: 0 <= j < |r| ==> r[j] == ColumnValue(c, RowKeys(pathogenicityCol)[j])
  {
    var keys := RowKeys(pathogenicityCol);
    seq(|keys|, j requires 0 <= j < |keys| => ColumnValue(c, keys[j]))
  }

  /** The SNV row holds gene, disease, variation, zygosity, frequency and
      coverage. */
  lemma SnvRowColumns(c: Classified)
    ensures SnvRow(c, false) ==
      [c.gene, c.disease, Some(c.variation), Some(c.zygosityInheritance), Some(c.frequency), Some(c.coverage)]
  {
    ColumnNamesDistinct();
    var snv := SnvRow(c, false);
    assert snv[0] == c.gene && snv[1] == c.disease;
    assert snv[2] == Some(c.variation) && snv[3] == Some(c.zygosityInheritance);
    assert snv[4] == Some(c.frequency) && snv[5] == Some(c.coverage);
  }

  /** The carrier row is the SNV row with the pathogenicity inserted fifth. */
  lemma CarrierRowColumns(c: Classified)
    ensures SnvRow(c, true) == SnvRow(c, false)[..4] + [Some(c.pathogenicity)] + SnvRow(c, false)[4..]
  {
    ColumnNamesDistinct();
    var carrier := SnvRow(c, true);
    assert carrier[0] == c.gene && carrier[1] == c.disease;
    assert carrier[2] == Some(c.variation) && carrier[3] == Some(c.zygosityInheritance);
    assert carrier[4] == Some(c.pathogenicity);
    assert carrier[5] == Some(c.frequency) && carrier[6] == Some(c.coverage);
    SnvRowColumns(c);
  }

  /** `form_snv_table_data` (class version): one row per record, in order. */
  function FormSnvTableData(cs: seq<Classified>, pathogenicityCol: bool): (r: seq<seq<NStr>>)
    ensures |r| == |cs| && forall i :: 0 <= i < |cs| ==> r[i] == SnvRow(cs[i], pathogenicityCol)
  {
    seq(|cs|, i requires 0 <= i < |cs| => SnvRow(cs[i], pathogenicityCol))
  }

  /** `f'{refseq}:{hgvsc}' if refseq else f'{transcript}:{hgvsc}'`. */
  function HgvscMsg(v: Variant): string {
    (if Truthy(v.refseq) then v.refseq.value else Show(v.transcript)) + ":" + Show(v.hgvsc)
  }

  /** `f' p.({hgvsp[2:]})' if hgvsp else ''` of the module-level table: a
      leading space and no `%3D` replacement. */
  function AutoHgvspMsg(hgvsp: NStr): string {
    if Truthy(hgvsp) then " p.(" + DropPrefix(hgvsp.value, 2) + ")" else ""
  }

  /** One tuple of the module-level `form_snv_table_data`. */
  function AutoSnvRow(v: Variant, pathogenicityCol: bool, percent: real -> string): (r: Result<seq<NStr>>)
    ensures r.Ok? <==> ZygosityCell(v.zygosity).Ok? && InheritanceLabel(v.omimInher).Ok?
    ensures r.Ok? ==> |r.value| == (if pathogenicityCol then 7 else 6)
    ensures r.Ok? ==> r.value[0] == v.symbol && r.value[1] == v.omimPheno
    ensures r.Ok? && pathogenicityCol ==> r.value[4] == Some(ClinsigLabel(v.clinvarSig, "-"))
    ensures r.Ok? ==> r.value[|r.value| - 2] == Some(FrequencyCell(v.genomesAF, percent))
    ensures r.Ok? ==> r.value[|r.value| - 1] == Some(CoverageCell(v))
  {
    var variation := Join(Present([Some(Spdi(v)), Some(HgvscMsg(v)), Some(AutoHgvspMsg(v.hgvsp)), Some(OrElse(v.rsid, ""))]), "\n");
    var zygosity :- ZygosityCell(v.zygosity);
    var inher :- InheritanceLabel(v.omimInher);
    var zygInher := zygosity + "\n(" + inher + ")";
    var af := FrequencyCell(v.genomesAF, percent);
    var cover := CoverageCell(v);
    if pathogenicityCol then
      Ok([v.symbol, v.omimPheno, Some(variation), Some(zygInher), Some(ClinsigLabel(v.clinvarSig, "-")), Some(af), Some(cover)])
    else
      Ok([v.symbol, v.omimPheno, Some(variation), Some(zygInher), Some(af), Some(cover)])
  }

  function AutoSnvOutcomes(vs: seq<Variant>, pathogenicityCol: bool, percent: real -> string): (r: seq<Result<seq<NStr>>>)
    ensures |r| == |vs| && forall k :: 0 <= k < |vs| ==> r[k] == AutoSnvRow(vs[k], pathogenicityCol, percent)
  {
    seq(|vs|, k requires 0 <= k < |vs| => AutoSnvRow(vs[k], pathogenicityCol, percent))
  }

  /** The loop of the module-level `form_snv_table_data`. */
  method AutoFormSnvTableData(vs: seq<Variant>, pathogenicityCol: bool, percent: real -> string) returns (r: Result<seq<seq<NStr>>>)
    ensures r == Gather(AutoSnvOutcomes(vs, pathogenicityCol, percent))
  {
    ghost var outcomes := AutoSnvOutcomes(vs, pathogenicityCol, percent);
    var rows: seq<seq<NStr>> := [];
    var i := 0;
    while i < |vs|
      invariant 0 <= i <= |vs|
      invariant Gather(outcomes[..i]) == Ok(rows)
    {
      var row := AutoSnvRow(vs[i], pathogenicityCol, percent);
      assert row == outcomes[i];
      if row.Err? {
        assert outcomes[..i + 1][..i] == outcomes[..i];
        GatherStops(outcomes, i + 1);
        return Err(row.error);
      }
      GatherNext(outcomes, i, rows, row.value);
      rows := rows + [row.value];
      i := i + 1;
    }
    assert outcomes[..i] == outcomes;
    r := Ok(rows);
  }

  /** One tuple per variant, in order; a variant whose zygosity or
      inheritance has no label makes the whole table raise. */
  lemma AutoSnvRowsEach(vs: seq<Variant>, pathogenicityCol: bool, percent: real -> string)
    ensures Gather(AutoSnvOutcomes(vs, pathogenicityCol, percent)).Ok? <==>
      forall k :: 0 <= k < |vs| ==> AutoSnvRow(vs[k], pathogenicityCol, percent).Ok?
    ensures Gather(AutoSnvOutcomes(vs, pathogenicityCol, percent)).Ok? ==>
      |Gather(AutoSnvOutcomes(vs, pathogenicityCol, percent)).value| == |vs| &&
      forall k :: 0 <= k < |vs| ==>
        Gather(AutoSnvOutcomes(vs, pathogenicityCol, percent)).value[k] == AutoSnvRow(vs[k], pathogenicityCol, percent).value
  {
    var outcomes := AutoSnvOutcomes(vs, pathogenicityCol, percent);
    GatherOk(outcomes);
    if Gather(outcomes).Ok? {
      GatherEach(outcomes);
    }
  }

  /** The four case columns copied into every payload record. */
  const CommonColumns: seq<string> := [ColSampleNumber, ColSex, ColAge, ColDiagnosis]

  function CommonValues(sd: SampleData): (m: map<string, NStr>) {
    map[ColSampleNumber := Some(sd.number), ColSex := Some(sd.sex), ColAge := Some(sd.age),
        ColDiagnosis := Some(sd.diagnosis)]
  }

  /** `{col: sample_variant_data[col] for col in variant_data_columns}`. */
  function VariantColumns(c: Classified): (m: map<string, NStr>)
    ensures m.Keys == set col | col in VariantDataColumns
    ensures forall col :: col in VariantDataColumns ==> m[col] == ColumnValue(c, col)
  {
    map col | col in VariantDataColumns :: ColumnValue(c, col)
  }

  /** The payload with every record extended by the case columns. */
  function Payload(sd: SampleData): seq<map<string, NStr>> {
    seq(|sd.variants|, i requires 0 <= i < |sd.variants| => VariantColumns(sd.variants[i]) + CommonValues(sd))
  }

  /** `sample_data_to_payload`: the comprehension, then the loop that
      updates each record in place with the case columns. */
  method SampleDataToPayload(sd: SampleData) returns (payload: seq<map<string, NStr>>)
    ensures payload == Payload(sd)
  {
    payload := seq(|sd.variants|, i requires 0 <= i < |sd.variants| => VariantColumns(sd.variants[i]));
    var i := 0;
    while i < |payload|
      invariant 0 <= i <= |payload| == |sd.variants|
      invariant forall k :: 0 <= k < i ==> payload[k] == VariantColumns(sd.variants[k]) + CommonValues(sd)
      invariant forall k :: i <= k < |payload| ==> payload[k] == VariantColumns(sd.variants[k])
    {
      payload := payload[i := payload[i] + CommonValues(sd)];
      i := i + 1;
    }
  }

  /** Every payload record holds the twelve columns: the case columns, the
      same in every record, and its own variant's report columns. */
  lemma PayloadColumns(sd: SampleData)
    ensures |Payload(sd)| == |sd.variants|
    ensures forall i :: 0 <= i < |sd.variants| ==>
      Payload(sd)[i].Keys == (set col | col in VariantDataColumns) + (set col | col in CommonColumns)
    ensures forall i, col :: 0 <= i < |sd.variants| && col in VariantDataColumns ==>
      Payload(sd)[i][col] == ColumnValue(sd.variants[i], col)
    ensures forall i :: 0 <= i < |sd.variants| ==>
      Payload(sd)[i][ColSampleNumber] == Some(sd.number) && Payload(sd)[i][ColSex] == Some(sd.sex) &&
      Payload(sd)[i][ColAge] == Some(sd.age) && Payload(sd)[i][ColDiagnosis] == Some(sd.diagnosis)
  {
    forall i, col | 0 <= i < |sd.variants| && col in VariantDataColumns
      ensures Payload(sd)[i][col] == ColumnValue(sd.variants[i], col)
    {
      assert col !in CommonValues(sd);
    }
  }
}
