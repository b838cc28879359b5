/** The layout both builders give a report (`create_doc`): the title and
    the case table, the results section with one bulleted table per kind of
    finding, the interpretation, the closing remarks, the technical table,
    the numbered reference list and the signature lines. */
module Report {
  import opened Base
  import opened Text
  import opened Tables
  import opened Records
  import opened Narrative
  import opened Interpretation

  /** The fixed headings, captions and sentences of the document. */
  datatype DocWording = DocWording(
    title: string, subtitle: string, results: string,
    pathogenic: string, likelyPathogenic: string, uncertain: string, structural: string,
    mitochondrial: string, repeats: string, secondary: string, carrier: string,
    footnote: string, interpretation: string, search: string, noneFound: string, noOthers: string,
    methodology: string, geneticist: string, technical: string, references: string, blank: string,
    issued: string, clinicianLabel: string)

  /** The texts both builders write. */
  const DocumentWording := DocWording(
    "ОТЧЕТ\n", "по результатам анализа\nданных секвенирования ДНК\n\n", "РЕЗУЛЬТАТЫ ИССЛЕДОВАНИЯ\n",
    "Патогенные варианты нуклеотидной последовательности, являющиеся вероятной причиной заболевания",
    "Вероятно патогенные варианты нуклеотидной последовательности, являющиеся возможной причиной заболевания",
    "Варианты нуклеотидной последовательности с неопределенной клинической значимостью",
    "Структурные генетические варианты",
    "Варианты в митохондриальной ДНК",
    "Исследование числа клинически значимых коротких тандемных повторов",
    "Клинически значимые варианты, не связанные с основным диагнозом",
    "Носительство вероятно патогенных вариантов, не связанных с основным диагнозом",
    "* Частоты аллелей отражают максимальную частоту в популяции и приведены по базе gnomAD v4.1.0 (выборка до 807,162 человек).\n",
    "ИНТЕРПРЕТАЦИЯ\n",
    "Был проведен поиск вариантов, ассоциированных с направительным диагнозом у пробанда и прочими наследственными заболеваниями со сходными фенотипическими проявлениями.",
    "\nЗначимых изменений, соответствующих критериям поиска, не обнаружено.",
    "\nДругих значимых изменений, соответствующих критериям поиска, не обнаружено.",
    "Оценка клинической значимости (патогенности) выявленных вариантов проводилась на основании российских рекомендаций для интерпретации данных, полученных методами массового параллельного секвенирования (MPS).",
    "Результаты данного исследования могут быть правильно интерпретированы только врачом-генетиком.",
    "ТЕХНИЧЕСКИЕ ХАРАКТЕРИСТИКИ\n", "СПИСОК ЛИТЕРАТУРЫ И БАЗ ДАННЫХ\n", "\n",
    "Дата выдачи отчета: ", "Клинический биоинформатик: ")

  /** The tables of the results section, in order; the carrier table only
      when it is added. */
  datatype ResultTables = ResultTables(
    pathogenic: Grid, likelyPathogenic: Grid, uncertain: Grid, structural: Grid,
    mitochondrial: Grid, repeats: Grid, secondary: Grid, carrier: Option<Grid>)

  /** The tables neither builder fills: structural variants, mitochondrial
      variants and tandem repeats are always "Не обнаружено". */
  const StructuralTable := AddTable([], CnvTableHeader, false, false)
  const MitochondrialTable := AddTable([], MtTableHeader, true, false)
  const RepeatTable := AddTable([], StrTableHeader, true, false)

  // ------------------------------------------------------------ the parts

  function Opening(w: DocWording, caseTable: Grid): seq<Block> {
    [Heading(w.title), Line(w.subtitle), Table(caseTable), Heading(w.results)]
  }

  /** Each kind of finding: its caption as a bullet, then its table. */
  function Sections(w: DocWording, t: ResultTables): seq<Block> {
    [Bullet(w.pathogenic), Table(t.pathogenic), Bullet(w.likelyPathogenic), Table(t.likelyPathogenic),
     Bullet(w.uncertain), Table(t.uncertain), Bullet(w.structural), Table(t.structural),
     Bullet(w.mitochondrial), Table(t.mitochondrial), Bullet(w.repeats), Table(t.repeats),
     Bullet(w.secondary), Table(t.secondary)] +
    (if t.carrier.Some? then [Bullet(w.carrier), Table(t.carrier.value)] else [])
  }

  function Lead(w: DocWording): seq<Block> {
    [Line(w.footnote), Heading(w.interpretation), Line(w.search)]
  }

  /** The outcome of the search: a single sentence when no causative variant
      was found (None), the interpretation followed by a closing sentence
      otherwise. */
  function Findings(w: DocWording, found: Option<seq<Block>>): seq<Block> {
    match found
    case None => [Line(w.noneFound)]
    case Some(blocks) => blocks + [Line(w.noOthers)]
  }

  /** `for source in sources: doc.add_paragraph(source, style='List Number')`. */
  function References(sources: seq<string>): (r: seq<Block>)
    ensures |r| == |sources| && forall j :: 0 <= j < |sources| ==> r[j] == Numbered(sources[j])
  {
    seq(|sources|, j requires 0 <= j < |sources| => Numbered(sources[j]))
  }

  function Remarks(w: DocWording): seq<Block> {
    [Line(w.methodology), Para([Bold(w.geneticist)])]
  }

  function Appendix(w: DocWording, techTable: Grid, sources: seq<string>): seq<Block> {
    [Heading(w.technical), Table(techTable), Heading(w.references)] + References(sources)
  }

  function Signature(w: DocWording, issued: string, clinician: string): seq<Block> {
    [Line(w.blank), Line(w.issued + issued), Line(w.clinicianLabel + clinician)]
  }

  /** What comes before the outcome of the search. */
  function Front(w: DocWording, caseTable: Grid, t: ResultTables): seq<Block> {
    Opening(w, caseTable) + Sections(w, t) + Lead(w)
  }

  /** What comes after it. */
  function Back(w: DocWording, techTable: Grid, sources: seq<string>, issued: string, clinician: string): seq<Block> {
    Remarks(w) + Appendix(w, techTable, sources) + Signature(w, issued, clinician)
  }

  /** The whole document, the reference list being the shared list as it
      stands once the interpretation is written. */
  function Document(w: DocWording, caseTable: Grid, t: ResultTables, found: Option<seq<Block>>,
                    techTable: Grid, sources: seq<string>, issued: string, clinician: string): seq<Block>
  {
    Front(w, caseTable, t) + Findings(w, found) + Back(w, techTable, sources, issued, clinician)
  }

  // ----------------------------------------------------------- citations

  /** Three parts of which only the middle one may cite. */
  lemma CitationsBetween(a: seq<Block>, b: seq<Block>, c: seq<Block>)
    requires Citations(a) == [] && Citations(c) == []
    ensures Citations(a + b + c) == Citations(b)
  {
    CitationsAppend(a, b);
    CitationsAppend(a + b, c);
    assert [] + Citations(b) + [] == Citations(b);
  }

  lemma UncitedParts(a: seq<Block>, b: seq<Block>, c: seq<Block>)
    requires Citations(a) == [] && Citations(b) == [] && Citations(c) == []
    ensures Citations(a + b + c) == []
  {
    CitationsBetween(a, b, c);
  }

  lemma OpeningUncited(w: DocWording, caseTable: Grid)
    ensures Citations(Opening(w, caseTable)) == []
  {
    CitationsNone(Opening(w, caseTable));
  }

  lemma SectionsUncited(w: DocWording, t: ResultTables)
    ensures Citations(Sections(w, t)) == []
  {
    CitationsNone(Sections(w, t));
  }

  lemma LeadUncited(w: DocWording)
    ensures Citations(Lead(w)) == []
  {
    CitationsNone(Lead(w));
  }

  lemma RemarksUncited(w: DocWording)
    ensures Citations(Remarks(w)) == []
  {
    CitationsNone(Remarks(w));
  }

  lemma AppendixUncited(w: DocWording, techTable: Grid, sources: seq<string>)
    ensures Citations(Appendix(w, techTable, sources)) == []
  {
    CitationsNone(Appendix(w, techTable, sources));
  }

  lemma SignatureUncited(w: DocWording, issued: string, clinician: string)
    ensures Citations(Signature(w, issued, clinician)) == []
  {
    CitationsNone(Signature(w, issued, clinician));
  }

  /** The fixed parts, the tables and the reference list hold no citation. */
  lemma LayoutUncited(w: DocWording, caseTable: Grid, t: ResultTables, techTable: Grid,
                      sources: seq<string>, issued: string, clinician: string)
    ensures Citations(Front(w, caseTable, t)) == []
    ensures Citations(Back(w, techTable, sources, issued, clinician)) == []
  {
    OpeningUncited(w, caseTable);
    SectionsUncited(w, t);
    LeadUncited(w);
    UncitedParts(Opening(w, caseTable), Sections(w, t), Lead(w));
    RemarksUncited(w);
    AppendixUncited(w, techTable, sources);
    SignatureUncited(w, issued, clinician);
    UncitedParts(Remarks(w), Appendix(w, techTable, sources), Signature(w, issued, clinician));
  }

  lemma FindingsCitations(w: DocWording, found: Option<seq<Block>>)
    ensures Citations(Findings(w, found)) == if found.Some? then Citations(found.value) else []
  {
    match found {
      case None =>
        CitationsSingle(Line(w.noneFound));
      case Some(blocks) =>
        CitationsAppend(blocks, [Line(w.noOthers)]);
        CitationsSingle(Line(w.noOthers));
    }
  }

  /** Only the interpretation cites. */
  lemma DocumentCitations(w: DocWording, caseTable: Grid, t: ResultTables, found: Option<seq<Block>>,
                          techTable: Grid, sources: seq<string>, issued: string, clinician: string)
    ensures Citations(Document(w, caseTable, t, found, techTable, sources, issued, clinician)) ==
      if found.Some? then Citations(found.value) else []
  {
    LayoutUncited(w, caseTable, t, techTable, sources, issued, clinician);
    FindingsCitations(w, found);
    CitationsBetween(Front(w, caseTable, t), Findings(w, found), Back(w, techTable, sources, issued, clinician));
  }

  // ------------------------------------------------------------- outline

  /** The blocks that are not running text, in order: the headings, the
      list items and the tables. */
  function Outline(blocks: seq<Block>): seq<Block>
    decreases |blocks|
  {
    if |blocks| == 0 then []
    else
      var n := |blocks| - 1;
      Outline(blocks[..n]) + (if IsProse(blocks[n]) then [] else [blocks[n]])
  }

  lemma {:induction false} OutlineAppend(a: seq<Block>, b: seq<Block>)
    ensures Outline(a + b) == Outline(a) + Outline(b)
    decreases |b|
  {
    if |b| == 0 {
      assert a + b == a;
    } else {
      var n := |b| - 1;
      assert (a + b)[..|a + b| - 1] == a + b[..n];
      OutlineAppend(a, b[..n]);
      AppendAssociates(Outline(a), Outline(b[..n]), if IsProse(b[n]) then [] else [b[n]]);
    }
  }

  lemma OutlineAppend3(a: seq<Block>, b: seq<Block>, c: seq<Block>)
    ensures Outline(a + b + c) == Outline(a) + Outline(b) + Outline(c)
  {
    OutlineAppend(a, b);
    OutlineAppend(a + b, c);
  }

  /** Running text leaves nothing in the outline. */
  lemma {:induction false} OutlineOfProse(blocks: seq<Block>)
    requires Prose(blocks)
    ensures Outline(blocks) == []
    decreases |blocks|
  {
    if |blocks| > 0 {
      var n := |blocks| - 1;
      assert Prose(blocks[..n]);
      OutlineOfProse(blocks[..n]);
    }
  }

  /** A part without running text is its own outline. */
  lemma {:induction false} OutlineOfLayout(blocks: seq<Block>)
    requires forall k :: 0 <= k < |blocks| ==> !IsProse(blocks[k])
    ensures Outline(blocks) == blocks
    decreases |blocks|
  {
    if |blocks| > 0 {
      var n := |blocks| - 1;
      assert forall k :: 0 <= k < n ==> blocks[..n][k] == blocks[k];
      OutlineOfLayout(blocks[..n]);
      assert blocks[..n] + [blocks[n]] == blocks;
    }
  }

  lemma OpeningOutline(w: DocWording, caseTable: Grid)
    ensures Outline(Opening(w, caseTable)) == [Heading(w.title), Table(caseTable), Heading(w.results)]
  {
    var head, tail := [Heading(w.title)], [Table(caseTable), Heading(w.results)];
    assert Opening(w, caseTable) == head + [Line(w.subtitle)] + tail;
    OutlineOfLayout(head);
    OutlineOfLayout(tail);
    OutlineOfProse([Line(w.subtitle)]);
    OutlineAppend3(head, [Line(w.subtitle)], tail);
  }

  lemma LeadOutline(w: DocWording)
    ensures Outline(Lead(w)) == [Heading(w.interpretation)]
  {
    assert Lead(w) == [Line(w.footnote)] + [Heading(w.interpretation)] + [Line(w.search)];
    OutlineOfProse([Line(w.footnote)]);
    OutlineOfLayout([Heading(w.interpretation)]);
    OutlineOfProse([Line(w.search)]);
    OutlineAppend3([Line(w.footnote)], [Heading(w.interpretation)], [Line(w.search)]);
  }

  /** What every report shows besides its running text. */
  function Skeleton(w: DocWording, caseTable: Grid, t: ResultTables, techTable: Grid, sources: seq<string>): seq<Block> {
    [Heading(w.title), Table(caseTable), Heading(w.results)] + Sections(w, t) +
    [Heading(w.interpretation)] + Appendix(w, techTable, sources)
  }

  lemma FrontOutline(w: DocWording, caseTable: Grid, t: ResultTables)
    ensures Outline(Front(w, caseTable, t)) ==
      [Heading(w.title), Table(caseTable), Heading(w.results)] + Sections(w, t) + [Heading(w.interpretation)]
  {
    OpeningOutline(w, caseTable);
    OutlineOfLayout(Sections(w, t));
    LeadOutline(w);
    OutlineAppend3(Opening(w, caseTable), Sections(w, t), Lead(w));
  }

  lemma BackOutline(w: DocWording, techTable: Grid, sources: seq<string>, issued: string, clinician: string)
    ensures Outline(Back(w, techTable, sources, issued, clinician)) == Appendix(w, techTable, sources)
  {
    var remarks, appendix, signature := Remarks(w), Appendix(w, techTable, sources), Signature(w, issued, clinician);
    OutlineOfProse(remarks);
    OutlineOfLayout(appendix);
    OutlineOfProse(signature);
    OutlineAppend(remarks, appendix);
    assert Outline(remarks + appendix) == appendix by {
      assert [] + appendix == appendix;
    }
    OutlineAppend(remarks + appendix, signature);
    assert appendix + [] == appendix;
  }

  /** Apart from its running text a report is the same skeleton whatever
      the interpretation says: the title, the case table, each caption
      with its table, the section headings, the technical table and the
      whole reference list. */
  lemma DocumentOutline(w: DocWording, caseTable: Grid, t: ResultTables, found: Option<seq<Block>>,
                        techTable: Grid, sources: seq<string>, issued: string, clinician: string)
    requires found.Some? ==> Prose(found.value)
    ensures Outline(Document(w, caseTable, t, found, techTable, sources, issued, clinician)) ==
      Skeleton(w, caseTable, t, techTable, sources)
  {
    FrontOutline(w, caseTable, t);
    assert Prose(Findings(w, found));
    OutlineOfProse(Findings(w, found));
    BackOutline(w, techTable, sources, issued, clinician);
    OutlineAppend3(Front(w, caseTable, t), Findings(w, found), Back(w, techTable, sources, issued, clinician));
  }

  // ------------------------------------------------------------ the report

  /** The report of one sample on the shared list `listed`: the
      interpretation of its causative variants, then the document around
      it, whose reference list is the list once the interpretation is
      written. An exception in the interpretation ends the call after the
      URLs appended so far. */
  function Written(w: DocWording, ctx: Context, caseTable: Grid, t: ResultTables, causative: seq<Variant>,
                   techTable: Grid, issued: string, clinician: string, listed: seq<string>): Story<seq<Block>>
  {
    var told := Chain(TellerOf(ctx), causative, listed);
    Story(told.listed,
      match told.outcome
      case Err(e) => Err(e)
      case Ok(done) =>
        Ok(Document(w, caseTable, t, if |causative| == 0 then None else Some(done.0), techTable, told.listed,
                    issued, clinician)))
  }

  /** A written report has appended the references of its causative
      variants, in order, and cites exactly the entries it appended. */
  lemma WrittenCitations(w: DocWording, ctx: Context, caseTable: Grid, t: ResultTables, causative: seq<Variant>,
                         techTable: Grid, issued: string, clinician: string, listed: seq<string>)
    requires Written(w, ctx, caseTable, t, causative, techTable, issued, clinician, listed).outcome.Ok?
    ensures var s := Written(w, ctx, caseTable, t, causative, techTable, issued, clinician, listed);
      && s.listed == listed + ChainUrls(UrlsOf(ctx.edition), causative)
      && Citations(s.outcome.value) == Range(|listed|, |s.listed|)
  {
    var told := Chain(TellerOf(ctx), causative, listed);
    InterpretationCitations(ctx, causative, listed);
    var found := if |causative| == 0 then None else Some(told.outcome.value.0);
    if |causative| == 0 {
      assert told.listed == listed;
    }
    DocumentCitations(w, caseTable, t, found, techTable, told.listed, issued, clinician);
  }

  /** The entries a written report cites come by increasing number, each
      once, all after those listed before it: with the ten base entries
      listed first, no citation points into them. */
  lemma WrittenCitesNewEntries(w: DocWording, ctx: Context, caseTable: Grid, t: ResultTables, causative: seq<Variant>,
                               techTable: Grid, issued: string, clinician: string, listed: seq<string>)
    requires Written(w, ctx, caseTable, t, causative, techTable, issued, clinician, listed).outcome.Ok?
    ensures var s := Written(w, ctx, caseTable, t, causative, techTable, issued, clinician, listed);
      var c := Citations(s.outcome.value);
      && (forall i, j :: 0 <= i < j < |c| ==> c[i] < c[j])
      && (forall i :: 0 <= i < |c| ==> |listed| < c[i] <= |s.listed|)
  {
    WrittenCitations(w, ctx, caseTable, t, causative, techTable, issued, clinician, listed);
  }

  /** Besides its running text a written report is the fixed skeleton,
      ending with the whole list as it stands after the interpretation. */
  lemma WrittenOutline(w: DocWording, ctx: Context, caseTable: Grid, t: ResultTables, causative: seq<Variant>,
                       techTable: Grid, issued: string, clinician: string, listed: seq<string>)
    requires Written(w, ctx, caseTable, t, causative, techTable, issued, clinician, listed).outcome.Ok?
    ensures var s := Written(w, ctx, caseTable, t, causative, techTable, issued, clinician, listed);
      Outline(s.outcome.value) == Skeleton(w, caseTable, t, techTable, s.listed)
  {
    var told := Chain(TellerOf(ctx), causative, listed);
    InterpretationProse(ctx, causative, listed);
    var found := if |causative| == 0 then None else Some(told.outcome.value.0);
    DocumentOutline(w, caseTable, t, found, techTable, told.listed, issued, clinician);
  }

  /** Without causative variants the report carries the single "no
      significant findings" sentence and adds nothing to the list. */
  lemma WrittenNoFindings(w: DocWording, ctx: Context, caseTable: Grid, t: ResultTables,
                          techTable: Grid, issued: string, clinician: string, listed: seq<string>)
    ensures Written(w, ctx, caseTable, t, [], techTable, issued, clinician, listed) ==
      Story(listed, Ok(Document(w, caseTable, t, None, techTable, listed, issued, clinician)))
  {
  }
}
