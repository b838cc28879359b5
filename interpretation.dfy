/** The body of the interpretation loop of `create_doc`, in both builders:
    the locals read from one causative variant, the paragraphs written about
    it, the references it appends to the shared list, and the loop over the
    causative variants of a sample. */
module Interpretation {
  import opened Base
  import opened Text
  import opened Tables
  import opened Records
  import opened Evidence
  import opened Classifier
  import opened Narrative

  /** The `ClinReport` method (`clinreport.py`) or the module function
      (`autoclin.py`): the two loop bodies differ in a few texts only. */
  datatype Edition = ClassEdition | ModuleEdition

  /** The fixed sentences of the paragraphs, both builders writing the same
      ones; `ReportWording` holds them. */
  datatype Wording = Wording(
    found: string, ofGene: string, depth: string,
    omimGene: string, omimLeads: string,
    gnomadFound: string, gnomadAbsent: string, alleles: string,
    genomesFound: string, genomesIn: string, genomesAbsent: string,
    clinvarAnnotated: string, clinvarIn: string,
    sharedBy: string,
    verdict: string, phenotype: string, confirmation: string)

  const ReportWording := Wording(
    "Обнаружен ранее _ описанный в литературе вариант (", " гена ", "с глубиной прочтения ",
    "Патогенные варианты в гене ", " приводят к ",
    "Вариант встречается в базе данных популяционных частот gnomAD v4.1.0 с частотой ",
    "Вариант не встречается в базе данных популяционных частот gnomAD v4.1.0.", " аллел(ей)",
    "Вариант встречается с частотой ", " в базах данных популяционных частот gnomAD",
    "Вариант не встречается в базах данных популяционных частот gnomAD.",
    "Вариант аннотирован ", " в базе данных ClinVar ",
    "Вариант обнаружен у ",
    "По совокупности сведений вариант расценивается как ",
    "Рекомендуется сопоставление фенотипа пациента с фенотипом заболеваний, ассоциированных с геном.",
    "Вариант требует обязательного подтверждения генотипа референсным методом (секвенирование по методу Сэнгера).")

  /** What the loop reads besides the variant: the sample being reported,
      the cohort, whether a target sample is set, `float2percent`, and the
      sentences it writes. */
  datatype Context = Context(edition: Edition, sample: string, cohort: seq<string>, target: bool,
                             percent: real -> string, wording: Wording)

  // ------------------------------------------------------------ the locals

  /** `hgvsp_msg`: only the class edition writes `%3D` as `=`. */
  function ProteinMsg(edition: Edition, hgvsp: NStr): (r: string)
    ensures !Truthy(hgvsp) ==> r == ""
    ensures edition == ClassEdition ==> r == HgvspMsg(hgvsp)
  {
    if edition == ClassEdition then HgvspMsg(hgvsp)
    else if Truthy(hgvsp) then "p.(" + DropPrefix(hgvsp.value, 2) + ")"
    else ""
  }

  /** `indel_size`: alternate minus reference bases, gaps (`-`) not counted. */
  function IndelSize(v: Variant): int {
    |ReplaceAll(v.altBase, "-", "")| - |ReplaceAll(v.refBase, "-", "")|
  }

  /** `indel_type`. */
  function IndelKind(size: int): (r: string)
    ensures r == "вставке" <==> size > 0
    ensures size <= 0 ==> r == "удалению"
  {
    if size > 0 then "вставке" else "удалению"
  }

  function Abs(x: int): nat {
    if x < 0 then -x else x
  }

  const LeadsTo := "который приводит к "
  const MissenseLead := "который приводит к аминокислотной замене "
  const ClassSpliceLead := "который приводит / может приводить к аберрантному сплайсингу"
  const ModuleSpliceLead := "который приводит / может приводить к абберантному сплайсингу"
  const ClassShiftLead := " нуклеотидов, сдвигу рамки считывания и образованию преждевременного стоп-кодона "
  const ModuleShiftLead := "который приводит к сдвигу рамки считывания и образованию преждевременного стоп-кодона "
  const StopLead := "который приводит к образованию преждевременного стоп-кодона "
  const SpliceSiteLead := "который приводит к разрушению канонического сайта сплайсинга"

  /** The class edition's `leading_to_msg`; None where no branch assigns it. */
  function ClassLeadingTo(effect: Effect, protein: string, indel: int): (r: Option<string>)
    ensures r.None? <==> effect == Unlisted
  {
    match effect
    case Missense => Some(MissenseLead + protein)
    case Synonymous => Some(ClassSpliceLead + " " + protein)
    case Intronic => Some(ClassSpliceLead)
    case Frameshift => Some(LeadsTo + IndelKind(indel) + " " + IntToString(Abs(indel)) + ClassShiftLead + protein)
    case StopGained => Some(StopLead + protein)
    case SpliceSite => Some(SpliceSiteLead)
    case Unlisted => None
  }

  /** The module edition's `leading_to_msg`: no indel size, and its own
      spelling of "aberrant". */
  function ModuleLeadingTo(effect: Effect, protein: string): (r: Option<string>)
    ensures r.None? <==> effect == Unlisted
  {
    match effect
    case Missense => Some(MissenseLead + protein)
    case Synonymous => Some(ModuleSpliceLead + " " + protein)
    case Intronic => Some(ModuleSpliceLead)
    case Frameshift => Some(ModuleShiftLead + protein)
    case StopGained => Some(StopLead + protein)
    case SpliceSite => Some(SpliceSiteLead)
    case Unlisted => None
  }

  function LeadingTo(edition: Edition, effect: Effect, protein: string, indel: int): Option<string> {
    if edition == ClassEdition then ClassLeadingTo(effect, protein, indel) else ModuleLeadingTo(effect, protein)
  }

  /** `dp_msg` (the read depth) or `ad_msg` (the allele depth), `_` when
      the column is empty. */
  function DepthMsg(ctx: Context, v: Variant): string {
    ctx.wording.depth + OrElse(if ctx.edition == ClassEdition then v.dp else v.ad, "_") + "x"
  }

  /** `zygosity2msg[zygosity][2]`, empty when the column is. */
  function ZygosityPhrase(zygosity: NStr): (r: Result<string>)
    ensures r.Err? <==> Truthy(zygosity) && zygosity.value !in ZygosityToMsg
    ensures r.Ok? && Truthy(zygosity) ==> r.value == ZygosityToMsg[zygosity.value].phrase
    ensures !Truthy(zygosity) ==> r == Ok("")
  {
    if !Truthy(zygosity) then Ok("")
    else if zygosity.value in ZygosityToMsg then Ok(ZygosityToMsg[zygosity.value].phrase)
    else Err(KeyError(zygosity.value))
  }

  /** `clinvar_sig_subs_msgs`: the class edition computes them only for a
      variant with a ClinVar significance, the module edition always; with
      no submitter entry both fall back to the significance itself. */
  function ClinvarMsgs(edition: Edition, v: Variant): (r: Result<seq<string>>)
    ensures edition == ClassEdition && !Truthy(v.clinvarSig) ==> r == Ok([])
    ensures (edition == ModuleEdition || Truthy(v.clinvarSig)) ==>
      (r.Ok? <==> SigSubsMsgs(v.clinvarSigSubs).Ok?)
    ensures r.Ok? ==> (|r.value| > 0 <==> edition == ModuleEdition || Truthy(v.clinvarSig))
    ensures r.Ok? && (edition == ModuleEdition || Truthy(v.clinvarSig)) ==>
      r.value == (if SigSubsMsgs(v.clinvarSigSubs).value != [] then SigSubsMsgs(v.clinvarSigSubs).value
                  else ["как " + ClinsigLabel(v.clinvarSig, Show(v.clinvarSig))])
  {
    if edition == ModuleEdition || Truthy(v.clinvarSig) then
      var msgs :- SigSubsMsgs(v.clinvarSigSubs);
      if |msgs| > 0 then Ok(msgs) else Ok(["как " + ClinsigLabel(v.clinvarSig, Show(v.clinvarSig))])
    else Ok([])
  }

  /** `note2clinsig[note]`. */
  function NoteSignificance(note: string): (r: Result<string>)
    ensures r.Ok? <==> note in NoteToClinsig
    ensures r.Ok? ==> r.value == NoteToClinsig[note]
  {
    if note in NoteToClinsig then Ok(NoteToClinsig[note]) else Err(KeyError(note))
  }

  /** The texts the paragraphs of one variant are written from. */
  datatype Facts = Facts(consequence: string, genePart: string, leadingTo: string, zygosity: string, clinvarMsgs: seq<string>,
                         clinsig: string)

  /** Whether the locals of a variant can all be read, in the order the
      loop body reads them. */
  predicate Readable(edition: Edition, v: Variant, carried: Carried) {
    && GenePart(v.exon, v.intron, carried.genePart).Ok?
    && v.consequence.Some?
    && ZygosityPhrase(v.zygosity).Ok?
    && ClinvarMsgs(edition, v).Ok?
    && v.note in NoteToClinsig
    && GenePart(v.exon, v.intron, carried.genePart).value.Some?
    && (LeadEffect(v.consequence.value) != Unlisted || carried.leadingTo.Some?)
  }

  /** The statements of the loop body up to the first paragraph: their
      exceptions in evaluation order, then the names left unbound. */
  function ReadFacts(edition: Edition, v: Variant, carried: Carried): (r: Result<(Facts, Carried)>)
    ensures r.Ok? <==> Readable(edition, v, carried)
    ensures GenePart(v.exon, v.intron, carried.genePart).Err? ==>
      r == Err(GenePart(v.exon, v.intron, carried.genePart).error)
    ensures GenePart(v.exon, v.intron, carried.genePart).Ok? && v.consequence.None? ==>
      r.Err? && r.error.TypeError?
    ensures r.Ok? ==>
      var (f, next) := r.value;
      && next == Carried(Some(f.genePart), Some(f.leadingTo))
      && v.consequence == Some(f.consequence)
      && ZygosityPhrase(v.zygosity) == Ok(f.zygosity)
      && ClinvarMsgs(edition, v) == Ok(f.clinvarMsgs)
      && f.clinsig == NoteToClinsig[v.note]
      && (Truthy(v.exon) || Truthy(v.intron) ==> GenePart(v.exon, v.intron, carried.genePart) == Ok(Some(f.genePart)))
      && (!Truthy(v.exon) && !Truthy(v.intron) ==> carried.genePart == Some(f.genePart))
      && (LeadEffect(v.consequence.value) != Unlisted ==>
            LeadingTo(edition, LeadEffect(v.consequence.value), ProteinMsg(edition, v.hgvsp), IndelSize(v)) ==
            Some(f.leadingTo))
      && (LeadEffect(v.consequence.value) == Unlisted ==> carried.leadingTo == Some(f.leadingTo))
  {
    var genePart :- GenePart(v.exon, v.intron, carried.genePart);
    if v.consequence.None? then Err(TypeError("argument of type 'NoneType' is not iterable"))
    else
      var effect := LeadEffect(v.consequence.value);
      var lead := LeadingTo(edition, effect, ProteinMsg(edition, v.hgvsp), IndelSize(v));
      var leading := if effect != Unlisted then lead else carried.leadingTo;
      var zygosity :- ZygosityPhrase(v.zygosity);
      var msgs :- ClinvarMsgs(edition, v);
      var clinsig :- NoteSignificance(v.note);
      if genePart.None? then Err(UnboundLocal("gene_part_msg"))
      else if leading.None? then Err(UnboundLocal("leading_to_msg"))
      else Ok((Facts(v.consequence.value, genePart.value, leading.value, zygosity, msgs, clinsig), Carried(genePart, leading)))
  }

  /** A variant read with nothing carried over names its own exon or intron
      and has a listed effect. */
  lemma FreshReadNeedsPosition(edition: Edition, v: Variant)
    requires ReadFacts(edition, v, NothingCarried).Ok?
    ensures Truthy(v.exon) || Truthy(v.intron)
    ensures LeadEffect(v.consequence.value) != Unlisted
  {
  }

  // ------------------------------------------------------------ paragraphs

  /** `variation_msg`. */
  function VariationMsg(v: Variant): string {
    Join(Present([v.hgvsg, Some(HgvscMsg(v)), v.rsid]), ", ")
  }

  /** `intro_paragraph`: a line break, the variant, the gene in italics and
      the effect. */
  function IntroRuns(ctx: Context, v: Variant, f: Facts): seq<Run> {
    [Plain("\n"),
     Plain(ctx.wording.found + VariationMsg(v) + ") " + f.zygosity + " " + f.genePart + ctx.wording.ofGene),
     Italic(Show(v.symbol)),
     Plain(", " + f.leadingTo + ", " + DepthMsg(ctx, v) + ".")]
  }

  /** `omim_paragraph`, written only for a variant with a phenotype. */
  function OmimRuns(w: Wording, v: Variant): seq<Run>
    requires Truthy(v.omimPheno)
  {
    [Plain(w.omimGene), Italic(Show(v.symbol)),
     Plain(w.omimLeads + v.omimPheno.value + " (" + Show(v.omimId) + ").")]
  }

  /** The population-frequency sentence: the class edition reads the
      aggregated genomes-and-exomes counts, the module edition the genomes
      frequency alone. */
  function FrequencyText(ctx: Context, v: Variant): string {
    var w := ctx.wording;
    if ctx.edition == ClassEdition then
      var g := GnomadAggregated(v);
      if g.an != 0 then
        var af := if NumTruthy(g.af) then ctx.percent(g.af.value) else "";
        var ac := if IntTruthy(g.ac) then IntToString(g.ac.value) + w.alleles else "";
        w.gnomadFound + af + " (" + ac + ")."
      else w.gnomadAbsent
    else if NumTruthy(v.genomesAF) then
      w.genomesFound + ctx.percent(v.genomesAF.value) + w.genomesIn
    else w.genomesAbsent
  }

  /** The paragraphs written before the first reference is appended: the
      introduction, the OMIM phenotype when there is one, the population
      frequency and the computational evidence (`comp_paragraph`). */
  function Paragraphs(ctx: Context, v: Variant, f: Facts): (r: seq<Block>)
    ensures Citations(r) == [] && Prose(r)
  {
    var omim := if Truthy(v.omimPheno) then [Para(OmimRuns(ctx.wording, v))] else [];
    var comp := CompRuns(f.consequence, v.gerp, PredictInsilico(v.scsnvAda, v.metarnn, v.revel, v.alphamissense, v.phylop));
    var intro := IntroRuns(ctx, v, f);
    var frequency := [Plain(FrequencyText(ctx, v))];
    ParagraphsUncited(intro, omim, frequency, comp);
    ParagraphsProse(intro, omim, frequency, comp);
    [Para(intro)] + omim + [Para(frequency), Para(comp)]
  }

  lemma ParagraphsUncited(intro: seq<Run>, omim: seq<Block>, frequency: seq<Run>, comp: seq<Run>)
    requires |omim| <= 1 && (|omim| == 1 ==> omim[0].Para?)
    ensures Citations([Para(intro)] + omim + [Para(frequency), Para(comp)]) == []
  {
    var head, tail := [Para(intro)], [Para(frequency), Para(comp)];
    CitationsSingle(Para(intro));
    if |omim| == 1 {
      assert omim == [omim[0]];
      CitationsSingle(omim[0]);
    } else {
      assert omim == [];
    }
    CitationsSingle(Para(frequency));
    CitationsSingle(Para(comp));
    CitationsAppend([Para(frequency)], [Para(comp)]);
    assert [Para(frequency)] + [Para(comp)] == tail;
    CitationsAppend(head, omim);
    CitationsAppend(head + omim, tail);
  }

  lemma ParagraphsProse(intro: seq<Run>, omim: seq<Block>, frequency: seq<Run>, comp: seq<Run>)
    requires |omim| <= 1 && (|omim| == 1 ==> omim[0].Para?)
    ensures Prose([Para(intro)] + omim + [Para(frequency), Para(comp)])
  {
    ProseAppend4([Para(intro)], omim, [Para(frequency)], [Para(comp)]);
    assert [Para(intro)] + omim + [Para(frequency)] + [Para(comp)] == [Para(intro)] + omim + [Para(frequency), Para(comp)];
  }

  /** The ClinVar paragraph, cited by the variant's own ClinVar record, when
      there are messages to write. */
  function ClinvarItems(w: Wording, v: Variant, msgs: seq<string>): seq<(string, Result<string>)> {
    if |msgs| > 0 then
      [(ClinvarVariationUrl + Show(v.clinvarId), Ok(w.clinvarAnnotated + Join(msgs, ", ") + w.clinvarIn))]
    else []
  }

  /** The three citing parts of a variant, each on the list the previous
      one left: its ClinVar record, then the loop over the equivalents, then
      the loop over the alternatives. */
  function CitingVariant(w: Wording, v: Variant, msgs: seq<string>, listed: seq<string>): Story<seq<Block>> {
    var own := Citing(ClinvarItems(w, v, msgs), listed);
    var same := Then(own, Citing(RelatedItems(v.equivalents, true), own.listed));
    Then(same, Citing(RelatedItems(v.alternatives, false), same.listed))
  }

  /** Every citing paragraph of a variant in order. */
  function CitingItems(w: Wording, v: Variant, msgs: seq<string>): seq<(string, Result<string>)> {
    ClinvarItems(w, v, msgs) + RelatedItems(v.equivalents, true) + RelatedItems(v.alternatives, false)
  }

  /** The three parts are one citing loop over all the items. */
  lemma CitingVariantIsOneLoop(w: Wording, v: Variant, msgs: seq<string>, listed: seq<string>)
    ensures CitingVariant(w, v, msgs, listed) == Citing(CitingItems(w, v, msgs), listed)
  {
    var head := ClinvarItems(w, v, msgs);
    var eq := RelatedItems(v.equivalents, true);
    CitingAppend(head, eq, listed);
    CitingAppend(head + eq, RelatedItems(v.alternatives, false), listed);
  }

  // ------------------------------------------------------- co-occurrence

  /** `str(sample).split('.')[0]`. */
  function SampleNumber(sample: string): string {
    Split(sample, '.')[0]
  }

  function SampleNumbers(samples: seq<string>): (r: seq<string>)
    ensures |r| == |samples| && forall j :: 0 <= j < |samples| ==> r[j] == SampleNumber(samples[j])
  {
    seq(|samples|, j requires 0 <= j < |samples| => SampleNumber(samples[j]))
  }

  /** The list `remove(sample)` is called on: the whole cohort in the class
      edition, the samples packed in the variant row in the module edition. */
  function Pool(ctx: Context, v: Variant): seq<string> {
    if ctx.edition == ClassEdition then ctx.cohort
    else if Truthy(v.samples) then Split(v.samples.value, ';')
    else []
  }

  /** The "found in" sentence, written only when a target sample is set
      and some other sample remains. */
  function CoOccurrence(ctx: Context, v: Variant): (r: Result<seq<Block>>)
    ensures !ctx.target ==> r == Ok([])
    ensures ctx.target ==> (r.Err? <==> ctx.sample !in Pool(ctx, v))
    ensures r.Ok? ==> |r.value| <= 1 && Citations(r.value) == [] && Prose(r.value)
    ensures r.Ok? ==> (|r.value| == 1 <==> ctx.target && |Pool(ctx, v)| > 1)
  {
    if !ctx.target then Ok([])
    else
      var pool := Pool(ctx, v);
      if ctx.sample !in pool then Err(ValueError("list.remove(x): x not in list"))
      else
        var others := RemoveFirst(pool, ctx.sample);
        if |others| == 0 then Ok([])
        else
          var names := if ctx.edition == ClassEdition then SampleNumbers(others) else others;
          var line := Line(ctx.wording.sharedBy + Join(names, ", "));
          CitationsSingle(line);
          Ok([line])
  }

  /** The samples the sentence lists are the pool less one occurrence of
      the reported sample. */
  lemma RemoveFirstIsTheRest(pool: seq<string>, sample: string)
    requires sample in pool
    ensures multiset(RemoveFirst(pool, sample)) + multiset{sample} == multiset(pool)
    ensures |RemoveFirst(pool, sample)| == |pool| - 1
  {
    var i := IndexOf(pool, sample);
    assert pool == pool[..i] + [sample] + pool[i + 1..];
  }

  /** What the sentence says: the samples of the pool less one occurrence
      of the reported sample, by number in the class edition. */
  lemma CoOccurrenceLists(ctx: Context, v: Variant)
    requires CoOccurrence(ctx, v).Ok? && |CoOccurrence(ctx, v).value| == 1
    ensures var others := RemoveFirst(Pool(ctx, v), ctx.sample);
      && multiset(others) + multiset{ctx.sample} == multiset(Pool(ctx, v))
      && CoOccurrence(ctx, v).value[0] == Line(ctx.wording.sharedBy + Join(if ctx.edition == ClassEdition then SampleNumbers(others) else others, ", "))
  {
    RemoveFirstIsTheRest(Pool(ctx, v), ctx.sample);
  }

  /** The closing paragraphs: the verdict, then the two recommendations. */
  function Closing(w: Wording, clinsig: string): (r: seq<Block>)
    ensures Citations(r) == [] && Prose(r)
  {
    var r := [Line(w.verdict + clinsig + "."), Line(w.phenotype), Line(w.confirmation)];
    CitationsNone(r);
    r
  }

  // ---------------------------------------------------------- one variant

  /** One pass of the loop body on the list `listed`: the list it leaves
      and its blocks with the locals it leaves, or the exception that
      stopped it. */
  function Tell(ctx: Context, v: Variant, carried: Carried, listed: seq<string>): Story<(seq<Block>, Carried)> {
    TellFrom(ctx, v, ReadFacts(ctx.edition, v, carried), listed)
  }

  /** The pass from the locals it has read. */
  function TellFrom(ctx: Context, v: Variant, facts: Result<(Facts, Carried)>, listed: seq<string>): Story<(seq<Block>, Carried)> {
    match facts
    case Err(e) => Story(listed, Err(e))
    case Ok(fc) =>
      var cited := CitingVariant(ctx.wording, v, fc.0.clinvarMsgs, listed);
      match cited.outcome
      case Err(e) => Story(cited.listed, Err(e))
      case Ok(paras) =>
        match CoOccurrence(ctx, v)
        case Err(e) => Story(cited.listed, Err(e))
        case Ok(co) => Story(cited.listed, Ok((Paragraphs(ctx, v, fc.0) + paras + co + Closing(ctx.wording, fc.0.clinsig), fc.1)))
  }

  function RelatedUrls(rs: seq<ClinvarRelated>): (r: seq<string>)
    ensures |r| == |rs| && forall j :: 0 <= j < |rs| ==> r[j] == ClinvarVariationUrl + rs[j].id
  {
    seq(|rs|, j requires 0 <= j < |rs| => ClinvarVariationUrl + rs[j].id)
  }

  /** The references a variant adds: its own ClinVar record (always in the
      module edition, with a significance in the class edition), then each
      equivalent, then each alternative. */
  function VariantUrls(edition: Edition, v: Variant): seq<string> {
    (if edition == ModuleEdition || Truthy(v.clinvarSig) then [ClinvarVariationUrl + Show(v.clinvarId)] else []) +
    RelatedUrls(v.equivalents) + RelatedUrls(v.alternatives)
  }

  lemma RelatedItemsUrls(rs: seq<ClinvarRelated>, same: bool)
    ensures Urls(RelatedItems(rs, same)) == RelatedUrls(rs)
  {
  }

  /** The URLs of the citing items are the variant's references. */
  lemma CitingItemsUrls(w: Wording, edition: Edition, v: Variant, msgs: seq<string>)
    requires ClinvarMsgs(edition, v) == Ok(msgs)
    ensures Urls(CitingItems(w, v, msgs)) == VariantUrls(edition, v)
  {
    var head := ClinvarItems(w, v, msgs);
    var eq := RelatedItems(v.equivalents, true);
    var alt := RelatedItems(v.alternatives, false);
    UrlsAppend(head, eq);
    UrlsAppend(head + eq, alt);
    RelatedItemsUrls(v.equivalents, true);
    RelatedItemsUrls(v.alternatives, false);
    assert Urls(head) == (if edition == ModuleEdition || Truthy(v.clinvarSig) then [ClinvarVariationUrl + Show(v.clinvarId)] else []);
  }

  /** The citing paragraphs of a variant append its references to the list
      and cite them by the next numbers, in order; when they raise they have
      appended a prefix of them. */
  lemma CitingVariantCitations(w: Wording, edition: Edition, v: Variant, msgs: seq<string>, listed: seq<string>)
    requires ClinvarMsgs(edition, v) == Ok(msgs)
    ensures var s := CitingVariant(w, v, msgs, listed);
      |listed| <= |s.listed| <= |listed| + |VariantUrls(edition, v)| &&
      s.listed == listed + VariantUrls(edition, v)[..|s.listed| - |listed|]
    ensures var s := CitingVariant(w, v, msgs, listed);
      s.outcome.Ok? ==> s.listed == listed + VariantUrls(edition, v) && Citations(s.outcome.value) == Range(|listed|, |s.listed|)
  {
    var items := CitingItems(w, v, msgs);
    CitingVariantIsOneLoop(w, v, msgs, listed);
    CitingUrls(items, listed);
    CitingItemsUrls(w, edition, v, msgs);
    if Citing(items, listed).outcome.Ok? {
      CitingNumbers(items, listed);
    }
  }

  /** Paragraphs without citations around cited ones leave the numbers as
      they are. */
  lemma CitationsAround(front: seq<Block>, cited: seq<Block>, co: seq<Block>, closing: seq<Block>)
    requires Citations(front) == [] && Citations(co) == [] && Citations(closing) == []
    ensures Citations(front + cited + co + closing) == Citations(cited)
  {
    CitationsAppend(front, cited);
    CitationsAppend(front + cited, co);
    CitationsAppend(front + cited + co, closing);
    assert [] + Citations(cited) + [] + [] == Citations(cited);
  }

  lemma TellFromCitations(ctx: Context, v: Variant, facts: Result<(Facts, Carried)>, listed: seq<string>)
    requires facts.Ok? ==> ClinvarMsgs(ctx.edition, v) == Ok(facts.value.0.clinvarMsgs)
    ensures var s := TellFrom(ctx, v, facts, listed);
      |listed| <= |s.listed| <= |listed| + |VariantUrls(ctx.edition, v)| &&
      s.listed == listed + VariantUrls(ctx.edition, v)[..|s.listed| - |listed|]
    ensures var s := TellFrom(ctx, v, facts, listed);
      s.outcome.Ok? ==>
        s.listed == listed + VariantUrls(ctx.edition, v) && Citations(s.outcome.value.0) == Range(|listed|, |s.listed|)
  {
    if facts.Err? {
      assert listed + VariantUrls(ctx.edition, v)[..0] == listed;
    } else {
      var (f, next) := facts.value;
      var cited := CitingVariant(ctx.wording, v, f.clinvarMsgs, listed);
      CitingVariantCitations(ctx.wording, ctx.edition, v, f.clinvarMsgs, listed);
      if cited.outcome.Ok? && CoOccurrence(ctx, v).Ok? {
        CitationsAround(Paragraphs(ctx, v, f), cited.outcome.value, CoOccurrence(ctx, v).value, Closing(ctx.wording, f.clinsig));
      }
    }
  }

  /** A told variant appends its references to the list and cites them by
      the next numbers, in order; one that raises has appended a prefix of
      them. */
  lemma TellCitations(ctx: Context, v: Variant, carried: Carried, listed: seq<string>)
    ensures var s := Tell(ctx, v, carried, listed);
      |listed| <= |s.listed| <= |listed| + |VariantUrls(ctx.edition, v)| &&
      s.listed == listed + VariantUrls(ctx.edition, v)[..|s.listed| - |listed|]
    ensures var s := Tell(ctx, v, carried, listed);
      s.outcome.Ok? ==>
        s.listed == listed + VariantUrls(ctx.edition, v) && Citations(s.outcome.value.0) == Range(|listed|, |s.listed|)
  {
    TellFromCitations(ctx, v, ReadFacts(ctx.edition, v, carried), listed);
  }

  // ---------------------------------------------------------- the loop

  /** One pass of a loop body: from the variant, the locals the previous
      pass left and the list before it, the list it leaves and its blocks
      with the locals it leaves, or its exception. */
  type Teller = (Variant, Carried, seq<string>) -> Story<(seq<Block>, Carried)>

  /** The loop over a sample's causative variants on the list `listed`,
      each variant starting from the locals the previous one left. */
  function Chain(tell: Teller, vs: seq<Variant>, listed: seq<string>): Story<(seq<Block>, Carried)>
    decreases |vs|
  {
    if |vs| == 0 then Story(listed, Ok(([], NothingCarried)))
    else
      var m := |vs| - 1;
      var prev := Chain(tell, vs[..m], listed);
      match prev.outcome
      case Err(_) => prev
      case Ok(done) =>
        var s := tell(vs[m], done.1, prev.listed);
        Story(s.listed,
          match s.outcome
          case Err(e) => Err(e)
          case Ok(step) => Ok((done.0 + step.0, step.1)))
  }

  /** One step of the loop, on a prefix that has not raised. */
  lemma ChainStep(tell: Teller, vs: seq<Variant>, listed: seq<string>, i: nat)
    requires i < |vs| && Chain(tell, vs[..i], listed).outcome.Ok?
    ensures var prev := Chain(tell, vs[..i], listed);
      var s := tell(vs[i], prev.outcome.value.1, prev.listed);
      Chain(tell, vs[..i + 1], listed) ==
        Story(s.listed,
          match s.outcome
          case Err(e) => Err(e)
          case Ok(step) => Ok((prev.outcome.value.0 + step.0, step.1)))
  {
    assert vs[..i + 1][..i] == vs[..i];
    assert vs[..i + 1][i] == vs[i];
  }

  /** Once the loop has raised, later variants change nothing. */
  lemma {:induction false} ChainStops(tell: Teller, vs: seq<Variant>, listed: seq<string>, i: nat)
    requires i <= |vs| && Chain(tell, vs[..i], listed).outcome.Err?
    ensures Chain(tell, vs, listed) == Chain(tell, vs[..i], listed)
    decreases |vs| - i
  {
    if i < |vs| {
      assert vs[..i + 1][..i] == vs[..i];
      ChainStops(tell, vs, listed, i + 1);
    } else {
      assert vs[..i] == vs;
    }
  }

  /** The references of the variants, one after the other. */
  function ChainUrls(urls: Variant -> seq<string>, vs: seq<Variant>): seq<string>
    decreases |vs|
  {
    if |vs| == 0 then [] else ChainUrls(urls, vs[..|vs| - 1]) + urls(vs[|vs| - 1])
  }

  /** A pass that gets through appends the references `urls` gives for its
      variant and cites them by the next numbers of the list, in order. */
  ghost predicate CitesInOrder(tell: Teller, urls: Variant -> seq<string>) {
    forall v, c, listed :: tell(v, c, listed).outcome.Ok? ==>
      tell(v, c, listed).listed == listed + urls(v) &&
      Citations(tell(v, c, listed).outcome.value.0) == Range(|listed|, |listed| + |urls(v)|)
  }

  /** Two runs of paragraphs citing consecutive numbers, in turn, cite the
      numbers of both. */
  lemma CitedInTurn(a: seq<Block>, b: seq<Block>, i: nat, j: nat, k: nat)
    requires i <= j <= k && Citations(a) == Range(i, j) && Citations(b) == Range(j, k)
    ensures Citations(a + b) == Range(i, k)
  {
    CitationsAppend(a, b);
    RangeAppend(i, j, k);
  }

  /** The loop's paragraphs cite the numbers after those already listed, in
      reading order, one number per appended reference, and the references
      appended are those of the variants in order. */
  lemma {:induction false} ChainCitations(tell: Teller, urls: Variant -> seq<string>, vs: seq<Variant>, listed: seq<string>)
    requires CitesInOrder(tell, urls)
    requires Chain(tell, vs, listed).outcome.Ok?
    ensures Chain(tell, vs, listed).listed == listed + ChainUrls(urls, vs)
    ensures Citations(Chain(tell, vs, listed).outcome.value.0) == Range(|listed|, |Chain(tell, vs, listed).listed|)
    decreases |vs|
  {
    if |vs| > 0 {
      ChainCitations(tell, urls, vs[..|vs| - 1], listed);
      ChainCitationsStep(tell, urls, vs, listed);
    } else {
      assert listed + [] == listed;
      assert Range(|listed|, |listed|) == [];
    }
  }

  /** The last pass of a loop whose earlier passes cited in order. */
  lemma ChainCitationsStep(tell: Teller, urls: Variant -> seq<string>, vs: seq<Variant>, listed: seq<string>)
    requires CitesInOrder(tell, urls)
    requires |vs| > 0 && Chain(tell, vs, listed).outcome.Ok?
    requires var prev := Chain(tell, vs[..|vs| - 1], listed);
      prev.outcome.Ok? && prev.listed == listed + ChainUrls(urls, vs[..|vs| - 1]) &&
      Citations(prev.outcome.value.0) == Range(|listed|, |prev.listed|)
    ensures Chain(tell, vs, listed).listed == listed + ChainUrls(urls, vs)
    ensures Citations(Chain(tell, vs, listed).outcome.value.0) == Range(|listed|, |Chain(tell, vs, listed).listed|)
  {
    var m := |vs| - 1;
    var prev := Chain(tell, vs[..m], listed);
    var s := tell(vs[m], prev.outcome.value.1, prev.listed);
    assert s.outcome.Ok?;
    var whole := Chain(tell, vs, listed);
    assert whole.listed == s.listed && whole.outcome.value.0 == prev.outcome.value.0 + s.outcome.value.0;
    assert s.listed == prev.listed + urls(vs[m]);
    assert ChainUrls(urls, vs) == ChainUrls(urls, vs[..m]) + urls(vs[m]);
    AppendAssociates(listed, ChainUrls(urls, vs[..m]), urls(vs[m]));
    CitedInTurn(prev.outcome.value.0, s.outcome.value.0, |listed|, |prev.listed|, |s.listed|);
  }

  /** Every pass that gets through writes running text only. */
  ghost predicate WritesProse(tell: Teller) {
    forall v, c, listed :: tell(v, c, listed).outcome.Ok? ==> Prose(tell(v, c, listed).outcome.value.0)
  }

  /** A loop whose passes write running text writes running text. */
  lemma {:induction false} ChainProse(tell: Teller, vs: seq<Variant>, listed: seq<string>)
    requires WritesProse(tell)
    requires Chain(tell, vs, listed).outcome.Ok?
    ensures Prose(Chain(tell, vs, listed).outcome.value.0)
    decreases |vs|
  {
    if |vs| > 0 {
      var m := |vs| - 1;
      var prev := Chain(tell, vs[..m], listed);
      ChainProse(tell, vs[..m], listed);
      var s := tell(vs[m], prev.outcome.value.1, prev.listed);
      assert s.outcome.Ok? && Prose(s.outcome.value.0);
      assert Chain(tell, vs, listed).outcome.value.0 == prev.outcome.value.0 + s.outcome.value.0;
    }
  }

  /** A loop that gets through has got through its first pass, begun with
      nothing carried over. */
  lemma {:induction false} ChainFirst(tell: Teller, vs: seq<Variant>, listed: seq<string>)
    requires |vs| > 0 && Chain(tell, vs, listed).outcome.Ok?
    ensures tell(vs[0], NothingCarried, listed).outcome.Ok?
    decreases |vs|
  {
    if |vs| == 1 {
      assert vs[..0] == [];
    } else {
      var m := |vs| - 1;
      ChainFirst(tell, vs[..m], listed);
    }
  }

  /** The loop body of a context. */
  function TellerOf(ctx: Context): Teller {
    (v, c, listed) => Tell(ctx, v, c, listed)
  }

  function UrlsOf(edition: Edition): Variant -> seq<string> {
    v => VariantUrls(edition, v)
  }

  lemma TellerCitesInOrder(ctx: Context)
    ensures CitesInOrder(TellerOf(ctx), UrlsOf(ctx.edition))
  {
    forall v, c, listed | TellerOf(ctx)(v, c, listed).outcome.Ok?
      ensures TellerOf(ctx)(v, c, listed).listed == listed + UrlsOf(ctx.edition)(v)
      ensures Citations(TellerOf(ctx)(v, c, listed).outcome.value.0) == Range(|listed|, |listed| + |UrlsOf(ctx.edition)(v)|)
    {
      assert TellerOf(ctx)(v, c, listed) == Tell(ctx, v, c, listed);
      assert UrlsOf(ctx.edition)(v) == VariantUrls(ctx.edition, v);
      TellCitations(ctx, v, c, listed);
    }
  }

  /** The interpretation of a sample appends the references of its causative
      variants, in order, and cites them by consecutive numbers after those
      already listed. */
  lemma InterpretationCitations(ctx: Context, vs: seq<Variant>, listed: seq<string>)
    requires Chain(TellerOf(ctx), vs, listed).outcome.Ok?
    ensures Chain(TellerOf(ctx), vs, listed).listed == listed + ChainUrls(UrlsOf(ctx.edition), vs)
    ensures Citations(Chain(TellerOf(ctx), vs, listed).outcome.value.0) ==
      Range(|listed|, |Chain(TellerOf(ctx), vs, listed).listed|)
  {
    TellerCitesInOrder(ctx);
    ChainCitations(TellerOf(ctx), UrlsOf(ctx.edition), vs, listed);
  }

  /** One pass writes paragraphs only: the ClinVar and related ones cite,
      the others do not. */
  lemma TellProse(ctx: Context, v: Variant, facts: Result<(Facts, Carried)>, listed: seq<string>)
    requires TellFrom(ctx, v, facts, listed).outcome.Ok?
    ensures Prose(TellFrom(ctx, v, facts, listed).outcome.value.0)
  {
    var f := facts.value.0;
    var cited := CitingVariant(ctx.wording, v, f.clinvarMsgs, listed);
    CitingVariantIsOneLoop(ctx.wording, v, f.clinvarMsgs, listed);
    CitingProse(CitingItems(ctx.wording, v, f.clinvarMsgs), listed);
    var co := CoOccurrence(ctx, v).value;
    ProseAppend4(Paragraphs(ctx, v, f), cited.outcome.value, co, Closing(ctx.wording, f.clinsig));
  }

  lemma TellerWritesProse(ctx: Context)
    ensures WritesProse(TellerOf(ctx))
  {
    forall v, c, listed | TellerOf(ctx)(v, c, listed).outcome.Ok?
      ensures Prose(TellerOf(ctx)(v, c, listed).outcome.value.0)
    {
      assert TellerOf(ctx)(v, c, listed) == Tell(ctx, v, c, listed);
      TellProse(ctx, v, ReadFacts(ctx.edition, v, c), listed);
    }
  }

  /** The interpretation of a sample is running text: it adds no heading,
      list item or table to the report. */
  lemma InterpretationProse(ctx: Context, vs: seq<Variant>, listed: seq<string>)
    requires Chain(TellerOf(ctx), vs, listed).outcome.Ok?
    ensures Prose(Chain(TellerOf(ctx), vs, listed).outcome.value.0)
  {
    TellerWritesProse(ctx);
    ChainProse(TellerOf(ctx), vs, listed);
  }

  /** An interpretation that gets through reads its first variant with
      nothing carried over, so that variant names its own exon or intron
      and has a listed effect. */
  lemma ChainFirstIsFresh(ctx: Context, vs: seq<Variant>, listed: seq<string>)
    requires |vs| > 0 && Chain(TellerOf(ctx), vs, listed).outcome.Ok?
    ensures Truthy(vs[0].exon) || Truthy(vs[0].intron)
    ensures vs[0].consequence.Some? && LeadEffect(vs[0].consequence.value) != Unlisted
  {
    ChainFirst(TellerOf(ctx), vs, listed);
    assert Tell(ctx, vs[0], NothingCarried, listed).outcome.Ok?;
    FreshReadNeedsPosition(ctx.edition, vs[0]);
  }

  // ------------------------------------------------------- the statements

  /** The ClinVar paragraph of the loop body, appending the variant's own
      record to the shared list when it writes one. */
  method CiteClinvar(sources: Bibliography, w: Wording, v: Variant, msgs: seq<string>) returns (cited: seq<Block>)
    modifies sources
    ensures Citing(ClinvarItems(w, v, msgs), old(sources.entries)) == Story(sources.entries, Ok(cited))
  {
    if |msgs| > 0 {
      CitingOne(ClinvarItems(w, v, msgs)[0], sources.entries);
      var index := sources.Cite(ClinvarVariationUrl + Show(v.clinvarId));
      cited := [Cited(w.clinvarAnnotated + Join(msgs, ", ") + w.clinvarIn, index)];
    } else {
      cited := [];
    }
  }

  /** The citing paragraphs of the loop body: the ClinVar record, then the
      equivalents, then the alternatives. */
  method CiteVariant(sources: Bibliography, w: Wording, v: Variant, msgs: seq<string>) returns (r: Result<seq<Block>>)
    modifies sources
    ensures CitingVariant(w, v, msgs, old(sources.entries)) == Story(sources.entries, r)
  {
    var cited := CiteClinvar(sources, w, v, msgs);
    var eq := CiteRelated(sources, v.equivalents, true);
    if eq.Err? {
      return Err(eq.error);
    }
    var alt := CiteRelated(sources, v.alternatives, false);
    if alt.Err? {
      return Err(alt.error);
    }
    r := Ok(cited + eq.value + alt.value);
  }

  /** The loop body, appending to the shared list. */
  method TellVariant(sources: Bibliography, ctx: Context, v: Variant, carried: Carried)
    returns (r: Result<(seq<Block>, Carried)>)
    modifies sources
    ensures Tell(ctx, v, carried, old(sources.entries)) == Story(sources.entries, r)
  {
    var facts := ReadFacts(ctx.edition, v, carried);
    if facts.Err? {
      return Err(facts.error);
    }
    var (f, next) := facts.value;
    var paras := CiteVariant(sources, ctx.wording, v, f.clinvarMsgs);
    if paras.Err? {
      return Err(paras.error);
    }
    var co := CoOccurrence(ctx, v);
    if co.Err? {
      return Err(co.error);
    }
    r := Ok((Paragraphs(ctx, v, f) + paras.value + co.value + Closing(ctx.wording, f.clinsig), next));
  }

  /** The loop over a sample's causative variants. */
  method Interpret(sources: Bibliography, ctx: Context, vs: seq<Variant>) returns (r: Result<seq<Block>>)
    modifies sources
    ensures sources.entries == Chain(TellerOf(ctx), vs, old(sources.entries)).listed
    ensures r == match Chain(TellerOf(ctx), vs, old(sources.entries)).outcome
                 case Ok(done) => Ok(done.0)
                 case Err(e) => Err(e)
  {
    ghost var before := sources.entries;
    ghost var tell := TellerOf(ctx);
    var blocks: seq<Block> := [];
    var carried := NothingCarried;
    var i := 0;
    while i < |vs|
      invariant 0 <= i <= |vs|
      invariant Chain(tell, vs[..i], before) == Story(sources.entries, Ok((blocks, carried)))
    {
      ChainStep(tell, vs, before, i);
      var step := TellVariant(sources, ctx, vs[i], carried);
      if step.Err? {
        ChainStops(tell, vs, before, i + 1);
        return Err(step.error);
      }
      blocks := blocks + step.value.0;
      carried := step.value.1;
      i := i + 1;
    }
    assert vs[..i] == vs;
    r := Ok(blocks);
  }
}
