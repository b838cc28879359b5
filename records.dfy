/** The records the report engine passes around.  A raw SQLite row is a
    list of (column, value) pairs; once the schema is normalised every later
    stage reads a fixed set of canonical columns, which `Variant` names. */
module Records {
  import opened Base

  /** An SQLite cell, or a list produced by splitting a packed CSQ column. */
  datatype Value =
    | VNone
    | VStr(s: string)
    | VInt(i: int)
    | VReal(r: real)
    | VList(items: seq<string>)

  /** A raw row in column order (`dict(zip(variant_cols, row))`). */
  type Row = seq<(string, Value)>

  /** A dictionary built from a row: later columns overwrite earlier ones. */
  function RowMap(row: Row): (m: map<string, Value>)
    ensures forall k :: k in m <==> exists i :: 0 <= i < |row| && row[i].0 == k
    ensures |row| > 0 ==> m[row[|row| - 1].0] == row[|row| - 1].1
    decreases |row|
  {
    if |row| == 0 then map[]
    else
      var m := RowMap(row[..|row| - 1]);
      assert forall i :: 0 <= i < |row| - 1 ==> row[..|row| - 1][i] == row[i];
      m[row[|row| - 1].0 := row[|row| - 1].1]
  }

  /** Every column keeps the value of its last occurrence in the row. */
  lemma {:induction false} RowMapLastWins(row: Row, i: nat)
    requires i < |row| && forall j :: i < j < |row| ==> row[j].0 != row[i].0
    ensures row[i].0 in RowMap(row) && RowMap(row)[row[i].0] == row[i].1
    decreases |row|
  {
    var n := |row| - 1;
    if i < n {
      var front := row[..n];
      assert front[i] == row[i];
      assert forall j :: i < j < |front| ==> front[j] == row[j];
      RowMapLastWins(front, i);
    }
  }

  /** One decoded entry of `clinvar_new__equivalents` or
      `clinvar_new__alternatives`: a 5-tuple whose fields 0, 1, 2 and 4 the
      report reads. */
  datatype ClinvarRelated = ClinvarRelated(
    id: string,        // [0] ClinVar variation id
    change: string,    // [1] the protein change
    sig: string,       // [2] the aggregate significance
    unused: NStr,      // [3] not read by the report
    sigSubs: NStr      // [4] the per-submitter significance string
  )

  /** A variant row in the canonical schema, one field per column the report
      engine reads. */
  datatype Variant = Variant(
    note: string,               // base__note
    chrom: string,              // base__chrom
    refBase: string,            // base__ref_base
    altBase: string,            // base__alt_base
    pos: string,                // extra_vcf_info__pos
    ref: string,                // extra_vcf_info__ref
    alt: string,                // extra_vcf_info__alt
    rsid: NStr,                 // dbsnp__rsid
    symbol: NStr,               // vep_csq__symbol
    transcript: NStr,           // vep_csq__transcript
    refseq: NStr,               // vep_csq__refseq
    hgvsc: NStr,                // vep_csq__hgvsc
    hgvsp: NStr,                // vep_csq__hgvsp
    hgvsg: NStr,                // vep_csq__hgvsg
    consequence: NStr,          // vep_csq__consequence
    exon: NStr,                 // vep_csq__exon
    intron: NStr,               // vep_csq__intron
    omimPheno: NStr,            // vep_omim_pheno__pheno
    omimId: NStr,               // vep_omim_pheno__id
    omimInher: NStr,            // vep_omim_pheno__inher
    zygosity: NStr,             // tagsampler_new__zygosity
    ad: NStr,                   // tagsampler_new__ad
    dp: NStr,                   // tagsampler_new__dp
    filter: NStr,               // tagsampler_new__filter
    samples: NStr,              // tagsampler_new__samples
    genomesAN: Option<int>,     // gnomad4genomes__AN
    exomesAN: Option<int>,      // gnomad4exomes__AN
    genomesAC: Option<int>,     // gnomad4genomes__AC
    exomesAC: Option<int>,      // gnomad4exomes__AC
    genomesAF: Option<real>,    // gnomad4genomes__AF
    gerp: Option<real>,         // gerp__gerp_rs
    scsnvAda: Option<real>,     // dbscsnv__ada_score
    metarnn: Option<real>,      // metarnn__score
    revel: Option<real>,        // revel__score
    alphamissense: Option<real>,// alphamissense__score
    phylop: Option<real>,       // phylop100__score
    clinvarId: NStr,            // clinvar_new__id
    clinvarSig: NStr,           // clinvar_new__sig
    clinvarSigSubs: NStr,       // clinvar_new__sig_subs
    equivalents: seq<ClinvarRelated>,   // clinvar_new__equivalents, decoded
    alternatives: seq<ClinvarRelated>   // clinvar_new__alternatives, decoded
  )

  /** A variant after `process_variant_data`: the row plus the report
      columns it adds. */
  datatype Classified = Classified(
    variant: Variant,
    gene: NStr,                 // Ген
    disease: NStr,              // Ассоциированное заболевание (OMIM)
    variation: string,          // Изменение ДНК (HG38) (Изменение белка)
    zygosityInheritance: string,// Зиготность (Тип наследования)
    frequency: string,          // Частота*
    coverage: string,           // Кол-во прочтений (АЛТ/ОБЩ)
    pathogenicity: string,      // Патогенность
    kind: NStr                  // Тип
  )

  /** One entry of `self.data`: the case fields of a sample and its
      classified variants. */
  datatype SampleData = SampleData(
    number: string,
    sex: string,
    age: string,
    diagnosis: string,
    studyMethod: string,
    depth: string,
    volume: string,
    readType: string,
    readLength: string,
    quality: string,
    variants: seq<Classified>
  )

  /** `ru_annotations`: section -> sub-section -> gene symbol -> text. */
  type RuAnnotations = map<string, map<string, map<string, string>>>
}
