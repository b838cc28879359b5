/** The legacy-schema normaliser: older SQLite files keep the VEP annotation
    as `;`-packed `extra_vcf_info__CSQ_*` columns, one entry per transcript
    block.  `get_extra_vcf_info` pivots them into per-block lists and
    `annotate_legacy` copies the picked block, and some renamed columns, into
    the canonical `vep_csq__*`, `tagsampler_new__*` and `clinvar_new__*` keys. */
module Normalizer {
  import opened Base
  import opened Text
  import opened Tables
  import opened Records

  const InfoPrefix := "extra_vcf_info__"
  const CsqPrefix := "extra_vcf_info__CSQ"
  const AlleleColumn := "extra_vcf_info__CSQ_Allele"
  const NblocksKey := "nblocks"

  /** The characters of `InfoPrefix`: `lstrip` strips any run of them. */
  const StripChars: set<char> := {'e', 'x', 't', 'r', 'a', '_', 'v', 'c', 'f', 'i', 'n', 'o'}

  lemma StripCharsArePrefixChars()
    ensures forall ch :: ch in StripChars <==> ch in InfoPrefix
  {
  }

  /** `key.lstrip('extra_vcf_info__')`. */
  function StripKey(key: string): string {
    LStrip(key, StripChars)
  }

  /** A CSQ column loses exactly the `extra_vcf_info__` prefix, because the
      `C` after it is not one of the stripped characters. */
  lemma CsqKeyStrip(key: string)
    requires StartsWith(key, CsqPrefix)
    ensures StripKey(key) == key[|InfoPrefix|..]
  {
    assert key[..|CsqPrefix|] == CsqPrefix;
    forall i | 0 <= i < |InfoPrefix|
      ensures key[i] in StripChars
    {
      assert key[i] == CsqPrefix[i];
    }
    assert key[|InfoPrefix|] == CsqPrefix[|InfoPrefix|] == 'C';
    LStripStopsAt(key, StripChars, |InfoPrefix|);
  }

  /** No stripped key starts with `n`, so no column can overwrite `nblocks`. */
  lemma NblocksNeverStripped(key: string)
    ensures StripKey(key) != NblocksKey
  {
    assert NblocksKey[0] == 'n';
  }

  /** The row is a dictionary: its columns are distinct. */
  predicate DistinctKeys(row: Row) {
    forall i, j :: 0 <= i < j < |row| ==> row[i].0 != row[j].0
  }

  /** `len(variant_data['extra_vcf_info__CSQ_Allele'].split(';'))`. */
  function NBlocks(row: Row): Result<nat> {
    var m := RowMap(row);
    if AlleleColumn !in m then Err(KeyError(AlleleColumn))
    else if !m[AlleleColumn].VStr? then Err(AttributeError(AlleleColumn))
    else Ok(|Split(m[AlleleColumn].s, ';')|)
  }

  /** `[''] * nblocks`. */
  function EmptyBlocks(nblocks: nat): (r: seq<string>)
    ensures |r| == nblocks && forall j :: 0 <= j < nblocks ==> r[j] == ""
  {
    seq(nblocks, _ => "")
  }

  /** The value stored for one column: a CSQ column becomes its list of
      blocks, `nblocks` empty strings when it is None; any other column is
      kept as it is.  A number in a CSQ column has no `split`. */
  function PivotValue(key: string, v: Value, nblocks: nat): Result<Value> {
    if !StartsWith(key, CsqPrefix) then Ok(v)
    else match v
      case VNone => Ok(VList(EmptyBlocks(nblocks)))
      case VStr(s) => Ok(VList(Split(s, ';')))
      case _ => Err(AttributeError(key))
  }

  /** The dictionary `get_extra_vcf_info` has built after the columns of
      `row`, in order, have been stored. */
  function Pivoted(row: Row, nblocks: nat): Result<map<string, Value>>
    decreases |row|
  {
    if |row| == 0 then Ok(map[NblocksKey := VInt(nblocks)])
    else
      var m :- Pivoted(row[..|row| - 1], nblocks);
      var (key, v) := row[|row| - 1];
      var v' :- PivotValue(key, v, nblocks);
      Ok(m[StripKey(key) := v'])
  }

  function ExtraVcfInfo(row: Row): Result<map<string, Value>> {
    var n :- NBlocks(row);
    Pivoted(row, n)
  }

  /** Once a prefix of the row fails, the whole pivot fails the same way. */
  lemma {:induction false} PivotedSticky(row: Row, i: nat, nblocks: nat)
    requires i <= |row| && Pivoted(row[..i], nblocks).Err?
    ensures Pivoted(row, nblocks) == Pivoted(row[..i], nblocks)
    decreases |row|
  {
    if i == |row| {
      assert row[..i] == row;
    } else {
      var front := row[..|row| - 1];
      assert front[..i] == row[..i];
      PivotedSticky(front, i, nblocks);
    }
  }

  /** The loop body of `get_extra_vcf_info` on one column. */
  method PivotColumn(key: string, value: Value, nblocks: nat) returns (r: Result<Value>)
    ensures r == PivotValue(key, value, nblocks)
  {
    r := Ok(value);
    if StartsWith(key, CsqPrefix) {
      if value.VNone? {
        r := Ok(VList(EmptyBlocks(nblocks)));
      } else if value.VStr? {
        r := Ok(VList(Split(value.s, ';')));
      } else {
        r := Err(AttributeError(key));
      }
    }
  }

  /** `get_extra_vcf_info`. */
  method GetExtraVcfInfo(row: Row) returns (r: Result<map<string, Value>>)
    requires DistinctKeys(row)
    ensures r == ExtraVcfInfo(row)
  {
    var m := RowMap(row);
    if AlleleColumn !in m {
      return Err(KeyError(AlleleColumn));
    }
    var allele := m[AlleleColumn];
    if !allele.VStr? {
      return Err(AttributeError(AlleleColumn));
    }
    var nblocks := |Split(allele.s, ';')|;
    var transformed := map[NblocksKey := VInt(nblocks)];
    var i := 0;
    while i < |row|
      invariant 0 <= i <= |row|
      invariant Pivoted(row[..i], nblocks) == Ok(transformed)
    {
      var (key, value) := row[i];
      assert row[..i + 1][..i] == row[..i];
      assert row[..i + 1][i] == row[i];
      assert Pivoted(row[..i + 1], nblocks) ==
        match PivotValue(key, value, nblocks)
        case Err(e) => Err(e)
        case Ok(p) => Ok(transformed[StripKey(key) := p]);
      var v := PivotColumn(key, value, nblocks);
      if v.Err? {
        PivotedSticky(row, i + 1, nblocks);
        return Err(v.error);
      }
      transformed := transformed[StripKey(key) := v.value];
      i := i + 1;
    }
    assert row[..|row|] == row;
    return Ok(transformed);
  }

  lemma {:induction false} PivotedNblocks(row: Row, nblocks: nat)
    requires Pivoted(row, nblocks).Ok?
    ensures NblocksKey in Pivoted(row, nblocks).value
    ensures Pivoted(row, nblocks).value[NblocksKey] == VInt(nblocks)
    decreases |row|
  {
    if |row| > 0 {
      PivotedNblocks(row[..|row| - 1], nblocks);
      NblocksNeverStripped(row[|row| - 1].0);
    }
  }

  /** `nblocks` is the number of `;`-parts of `CSQ_Allele`, at least one, and
      survives every later column. */
  lemma ExtraVcfInfoNblocks(row: Row)
    requires ExtraVcfInfo(row).Ok?
    ensures AlleleColumn in RowMap(row) && RowMap(row)[AlleleColumn].VStr?
    ensures NBlocks(row) == Ok(|Split(RowMap(row)[AlleleColumn].s, ';')|)
    ensures NBlocks(row).value >= 1
    ensures NblocksKey in ExtraVcfInfo(row).value
    ensures ExtraVcfInfo(row).value[NblocksKey] == VInt(NBlocks(row).value)
  {
    PivotedNblocks(row, NBlocks(row).value);
  }

  lemma {:induction false} PivotedOk(row: Row, nblocks: nat)
    ensures Pivoted(row, nblocks).Ok? <==>
      forall i :: 0 <= i < |row| ==> PivotValue(row[i].0, row[i].1, nblocks).Ok?
    decreases |row|
  {
    if |row| > 0 {
      var front := row[..|row| - 1];
      PivotedOk(front, nblocks);
      assert forall i :: 0 <= i < |front| ==> front[i] == row[i];
    }
  }

  /** The pivot fails exactly when `CSQ_Allele` is missing or not text, or a
      CSQ column holds a number. */
  lemma ExtraVcfInfoOk(row: Row)
    ensures ExtraVcfInfo(row).Ok? <==>
      NBlocks(row).Ok? &&
      forall i :: 0 <= i < |row| ==> PivotValue(row[i].0, row[i].1, NBlocks(row).value).Ok?
  {
    if NBlocks(row).Ok? {
      PivotedOk(row, NBlocks(row).value);
    }
  }

  lemma {:induction false} PivotedEntry(row: Row, nblocks: nat, i: nat)
    requires Pivoted(row, nblocks).Ok? && i < |row|
    requires forall j :: i < j < |row| ==> StripKey(row[j].0) != StripKey(row[i].0)
    ensures PivotValue(row[i].0, row[i].1, nblocks).Ok?
    ensures StripKey(row[i].0) in Pivoted(row, nblocks).value
    ensures Pivoted(row, nblocks).value[StripKey(row[i].0)] ==
      PivotValue(row[i].0, row[i].1, nblocks).value
    decreases |row|
  {
    if i < |row| - 1 {
      var front := row[..|row| - 1];
      assert front[i] == row[i];
      assert forall j :: i < j < |front| ==> front[j] == row[j];
      PivotedEntry(front, nblocks, i);
    }
  }

  /** Every CSQ column becomes a list under its name without the
      `extra_vcf_info__` prefix: the packed blocks, or `nblocks` empty strings
      for None.  A later column whose stripped name collides would win. */
  lemma ExtraVcfInfoCsq(row: Row, i: nat)
    requires ExtraVcfInfo(row).Ok? && i < |row| && StartsWith(row[i].0, CsqPrefix)
    requires forall j :: i < j < |row| ==> StripKey(row[j].0) != StripKey(row[i].0)
    ensures var key := row[i].0[|InfoPrefix|..];
      key in ExtraVcfInfo(row).value &&
      ExtraVcfInfo(row).value[key] ==
        match row[i].1
        case VNone => VList(seq(NBlocks(row).value, _ => ""))
        case VStr(s) => VList(Split(s, ';'))
        case _ => VNone
  {
    CsqKeyStrip(row[i].0);
    PivotedEntry(row, NBlocks(row).value, i);
  }

  /** Any other column is kept, under its stripped name. */
  lemma ExtraVcfInfoPlain(row: Row, i: nat)
    requires ExtraVcfInfo(row).Ok? && i < |row| && !StartsWith(row[i].0, CsqPrefix)
    requires forall j :: i < j < |row| ==> StripKey(row[j].0) != StripKey(row[i].0)
    ensures StripKey(row[i].0) in ExtraVcfInfo(row).value
    ensures ExtraVcfInfo(row).value[StripKey(row[i].0)] == row[i].1
  {
    PivotedEntry(row, NBlocks(row).value, i);
  }

  /** `extra_vcf_info[col][i]`: a list entry, or a character when the column
      kept a text value. */
  function Cell(info: map<string, Value>, col: string, i: nat): Result<string> {
    if col !in info then Err(KeyError(col))
    else match info[col]
      case VList(items) => if i < |items| then Ok(items[i]) else Err(IndexError(col))
      case VStr(s) => if i < |s| then Ok([s[i]]) else Err(IndexError(col))
      case _ => Err(TypeError(col))
  }

  /** The entries of one CSQ block that `annotate_legacy` reads. */
  datatype BlockFields = BlockFields(
    symbol: string, feature: string, hgvsc: string, hgvsp: string, hgvsg: string,
    consequence: string, biotype: string, exon: string, intron: string,
    strand: string, codons: string, mane: string)

  /** The entries of block `i`, read in the order the dictionary display
      lists them. */
  function BlockCells(info: map<string, Value>, i: nat): Result<BlockFields> {
    var symbol :- Cell(info, "CSQ_SYMBOL", i);
    var feature :- Cell(info, "CSQ_Feature", i);
    var hgvsc :- Cell(info, "CSQ_HGVSc", i);
    var hgvsp :- Cell(info, "CSQ_HGVSp", i);
    var hgvsg :- Cell(info, "CSQ_HGVSg", i);
    var consequence :- Cell(info, "CSQ_Consequence", i);
    var biotype :- Cell(info, "CSQ_BIOTYPE", i);
    var exon :- Cell(info, "CSQ_EXON", i);
    var intron :- Cell(info, "CSQ_INTRON", i);
    var strand :- Cell(info, "CSQ_STRAND", i);
    var codons :- Cell(info, "CSQ_Codons", i);
    var mane :- Cell(info, "CSQ_MANE_SELECT", i);
    Ok(BlockFields(symbol, feature, hgvsc, hgvsp, hgvsg, consequence, biotype, exon, intron,
      strand, codons, mane))
  }

  /** The annotation dictionary built from a block's entries. */
  function AnnotationMap(f: BlockFields): map<string, Value> {
    map[
      "vep_csq__symbol" := VStr(f.symbol),
      "vep_csq__transcript" := VStr(f.feature),
      "vep_csq__hgvsc" := VStr(Last(Split(f.hgvsc, ':'))),
      "vep_csq__hgvsp" := VStr(Last(Split(f.hgvsp, ':'))),
      "vep_csq__hgvsg" := VStr(f.hgvsg),
      "vep_csq__consequence" := VStr(f.consequence),
      "vep_csq__biotype" := VStr(f.biotype),
      "vep_csq__exon" := VStr(f.exon),
      "vep_csq__intron" := VStr(f.intron),
      "vep_csq__strand" := VStr(f.strand),
      "vep_csq__codons" := VStr(f.codons),
      "vep_csq__refseq" := if f.mane != "" then VStr(f.mane) else VNone
    ]
  }

  /** The annotation `annotate_legacy` builds from block `i`. */
  function BlockAnnotation(info: map<string, Value>, i: nat): Result<map<string, Value>> {
    var f :- BlockCells(info, i);
    Ok(AnnotationMap(f))
  }

  /** The scan over blocks `0 .. i-1`: the last block whose `CSQ_PICK` is
      `'1'`, or None; each picked block is built as it is met, so a fault in
      it stops the scan. */
  function PickScan(info: map<string, Value>, i: nat): Result<Option<nat>>
    decreases i
  {
    if i == 0 then Ok(None)
    else
      var prev :- PickScan(info, i - 1);
      var pick :- Cell(info, "CSQ_PICK", i - 1);
      if pick != "1" then Ok(prev)
      else
        var _ :- BlockAnnotation(info, i - 1);
        Ok(Some(i - 1))
  }

  lemma {:induction false} PickScanSticky(info: map<string, Value>, i: nat, n: nat)
    requires i <= n && PickScan(info, i).Err?
    ensures PickScan(info, n) == PickScan(info, i)
    decreases n
  {
    if i < n {
      PickScanSticky(info, i, n - 1);
    }
  }

  /** If several blocks are picked the last one wins. */
  lemma {:induction false} PickScanLast(info: map<string, Value>, i: nat)
    requires PickScan(info, i).Ok? && PickScan(info, i).value.Some?
    ensures var k := PickScan(info, i).value.value;
      k < i && Cell(info, "CSQ_PICK", k) == Ok("1") && BlockAnnotation(info, k).Ok? &&
      forall j :: k < j < i ==> Cell(info, "CSQ_PICK", j).Ok? && Cell(info, "CSQ_PICK", j).value != "1"
    decreases i
  {
    var pick := Cell(info, "CSQ_PICK", i - 1);
    if pick.value != "1" {
      PickScanLast(info, i - 1);
    }
  }

  /** The scan finds nothing exactly when every block's `CSQ_PICK` is read and
      none is `'1'`. */
  lemma {:induction false} PickScanNone(info: map<string, Value>, i: nat)
    ensures PickScan(info, i) == Ok(None) <==>
      forall j :: 0 <= j < i ==> Cell(info, "CSQ_PICK", j).Ok? && Cell(info, "CSQ_PICK", j).value != "1"
    decreases i
  {
    if i > 0 {
      PickScanNone(info, i - 1);
      if PickScan(info, i - 1).Ok? && PickScan(info, i - 1).value.Some? {
        PickScanLast(info, i - 1);
      }
    }
  }

  /** `get_inher_from_omim_pheno`: the codes whose inheritance name occurs in
      the phenotype text. */
  function InheritanceSet(phenotype: string): set<string> {
    set name | name in InheritanceMap && Contains(phenotype, name) :: InheritanceMap[name]
  }

  /** The codes whose name is an entry of a list (`name in phenotype` on a
      list value). */
  function ListInheritanceSet(items: seq<string>): set<string> {
    set name | name in InheritanceMap && name in items :: InheritanceMap[name]
  }

  /** The members of `codes`, in the order of `order`. */
  function SortedMembers(codes: set<string>, order: seq<string>): (r: seq<string>)
    ensures forall c :: c in r <==> c in codes && c in order
    decreases |order|
  {
    if |order| == 0 then []
    else (if order[0] in codes then [order[0]] else []) + SortedMembers(codes, order[1..])
  }

  function InheritanceCodes(phenotype: string): string {
    Join(SortedMembers(InheritanceSet(phenotype), SortedCodes), ",")
  }

  /** `get_inher_from_omim_pheno` on a cell of the raw row: None for a falsy
      value; a number has no `in`. */
  function InherFromPhenoValue(v: Value): (r: Result<Value>)
    ensures v.VStr? && v.s != "" ==> r == Ok(VStr(InheritanceCodes(v.s)))
    ensures v.VNone? || v == VStr("") ==> r == Ok(VNone)
  {
    match v
    case VNone => Ok(VNone)
    case VStr(s) => if s == "" then Ok(VNone) else Ok(VStr(InheritanceCodes(s)))
    case VInt(n) => if n == 0 then Ok(VNone) else Err(TypeError("phenotype"))
    case VReal(x) => if x == 0.0 then Ok(VNone) else Err(TypeError("phenotype"))
    case VList(items) =>
      if |items| == 0 then Ok(VNone)
      else Ok(VStr(Join(SortedMembers(ListInheritanceSet(items), SortedCodes), ",")))
  }

  lemma {:induction false} SortedMembersSorted(codes: set<string>, order: seq<string>)
    requires StrictlySorted(order)
    ensures StrictlySorted(SortedMembers(codes, order))
    decreases |order|
  {
    if |order| > 0 {
      assert StrictlySorted(order[1..]) by {
        forall i, j | 0 <= i < j < |order[1..]| ensures LexLess(order[1..][i], order[1..][j]) {
          assert order[1..][i] == order[i + 1] && order[1..][j] == order[j + 1];
        }
      }
      SortedMembersSorted(codes, order[1..]);
      var rest := SortedMembers(codes, order[1..]);
      if order[0] in codes {
        forall j | 0 < j < |[order[0]] + rest| ensures LexLess(([order[0]] + rest)[0], ([order[0]] + rest)[j]) {
          var x := rest[j - 1];
          assert x in order[1..];
          var k :| 0 <= k < |order[1..]| && order[1..][k] == x;
          assert order[k + 1] == x;
        }
      }
    }
  }

  lemma CodesHaveNoComma()
    ensures forall c :: c in SortedCodes ==> !Contains(c, ",")
  {
    NoCharNoContains("AD", ',');
    NoCharNoContains("AR", ',');
    NoCharNoContains("XD", ',');
    NoCharNoContains("XR", ',');
  }

  /** The codes are sorted, duplicate-free and comma-joined; each one is
      present iff its full inheritance name occurs in the phenotype, and
      splitting the result on `,` gives the list back. */
  lemma InheritanceCodesSpec(phenotype: string)
    ensures var codes := SortedMembers(InheritanceSet(phenotype), SortedCodes);
      StrictlySorted(codes) &&
      (forall c :: c in codes <==>
        exists name :: name in InheritanceMap && InheritanceMap[name] == c && Contains(phenotype, name)) &&
      InheritanceCodes(phenotype) == Join(codes, ",") &&
      (codes != [] ==> Split(InheritanceCodes(phenotype), ',') == codes)
  {
    var codes := SortedMembers(InheritanceSet(phenotype), SortedCodes);
    SortedCodesAreSorted();
    SortedMembersSorted(InheritanceSet(phenotype), SortedCodes);
    if codes != [] {
      CodesHaveNoComma();
      SplitJoin(codes, ",");
    }
  }

  /** `d[col]` on the raw row. */
  function Lookup(m: map<string, Value>, col: string): (r: Result<Value>)
    ensures r.Ok? <==> col in m
    ensures col in m ==> r.value == m[col]
  {
    if col in m then Ok(m[col]) else Err(KeyError(col))
  }

  /** `for col in cols: annotation[to + col] = variant_data[from + col]`. */
  function Renamed(m: map<string, Value>, cols: seq<string>, from: string, to: string): Result<map<string, Value>>
    decreases |cols|
  {
    if |cols| == 0 then Ok(map[])
    else
      var prev :- Renamed(m, cols[..|cols| - 1], from, to);
      var v :- Lookup(m, from + Last(cols));
      Ok(prev[to + Last(cols) := v])
  }

  lemma {:induction false} RenamedEntry(m: map<string, Value>, cols: seq<string>, from: string, to: string, i: nat)
    requires Renamed(m, cols, from, to).Ok? && i < |cols|
    requires forall j :: 0 <= j < |cols| && j != i ==> cols[j] != cols[i]
    ensures from + cols[i] in m && to + cols[i] in Renamed(m, cols, from, to).value
    ensures Renamed(m, cols, from, to).value[to + cols[i]] == m[from + cols[i]]
    decreases |cols|
  {
    if i < |cols| - 1 {
      var front := cols[..|cols| - 1];
      assert front[i] == cols[i];
      assert forall j :: 0 <= j < |front| && j != i ==> front[j] == cols[j];
      ConcatInjective(to, cols[|cols| - 1], cols[i]);
      RenamedEntry(m, front, from, to, i);
    }
  }

  lemma ConcatInjective(p: string, a: string, b: string)
    ensures p + a == p + b ==> a == b
  {
    if p + a == p + b {
      assert a == (p + a)[|p|..];
      assert b == (p + b)[|p|..];
    }
  }

  /** `into` updated with the renamed columns. */
  method CopyColumns(m: map<string, Value>, cols: seq<string>, from: string, to: string, into: map<string, Value>)
    returns (r: Result<map<string, Value>>)
    ensures Renamed(m, cols, from, to).Err? ==> r == Err(Renamed(m, cols, from, to).error)
    ensures Renamed(m, cols, from, to).Ok? ==> r == Ok(into + Renamed(m, cols, from, to).value)
  {
    var acc := into;
    ghost var done: map<string, Value> := map[];
    var i := 0;
    while i < |cols|
      invariant 0 <= i <= |cols|
      invariant Renamed(m, cols[..i], from, to) == Ok(done)
      invariant acc == into + done
    {
      assert cols[..i + 1][..i] == cols[..i];
      var col := cols[i];
      if from + col !in m {
        RenamedSticky(m, cols, from, to, i + 1);
        return Err(KeyError(from + col));
      }
      acc := acc[to + col := m[from + col]];
      done := done[to + col := m[from + col]];
      i := i + 1;
    }
    assert cols[..|cols|] == cols;
    return Ok(acc);
  }

  lemma {:induction false} RenamedSticky(m: map<string, Value>, cols: seq<string>, from: string, to: string, i: nat)
    requires i <= |cols| && Renamed(m, cols[..i], from, to).Err?
    ensures Renamed(m, cols, from, to) == Renamed(m, cols[..i], from, to)
    decreases |cols|
  {
    if i == |cols| {
      assert cols[..i] == cols;
    } else {
      var front := cols[..|cols| - 1];
      assert front[..i] == cols[..i];
      RenamedSticky(m, front, from, to, i);
    }
  }

  const TagColumns: seq<string> := ["filter", "zygosity", "ad", "dp"]
  const ClinvarColumns: seq<string> := ["id", "sig"]

  /** The part of `annotate_legacy` after the phenotype: the renamed sample
      and ClinVar columns, and None for the three ClinVar columns the legacy
      schema lacks. */
  function LegacyTail(m: map<string, Value>, a: map<string, Value>): Result<map<string, Value>> {
    var tags :- Renamed(m, TagColumns, "vevatacmg_postaggregator__", "tagsampler_new__");
    var samples :- Lookup(m, "vevatacmg_postaggregator__sample");
    var clinvar :- Renamed(m, ClinvarColumns, "clinvar__", "clinvar_new__");
    Ok(((a + tags)["tagsampler_new__samples" := samples] + clinvar)
      ["clinvar_new__sig_subs" := VNone]["clinvar_new__equivalents" := VNone]["clinvar_new__alternatives" := VNone])
  }

  /** What `annotate_legacy` returns, or the exception it raises. */
  function LegacyAnnotation(row: Row): Result<map<string, Value>> {
    var info :- ExtraVcfInfo(row);
    var n :- NBlocks(row);
    LegacyFrom(info, n, RowMap(row))
  }

  /** `annotate_legacy` once the pivot `info` with `n` blocks is built from
      the row dictionary `m`. */
  function LegacyFrom(info: map<string, Value>, n: nat, m: map<string, Value>): Result<map<string, Value>> {
    var picked :- PickScan(info, n);
    var phenotype :- Lookup(m, "vep_omim_pheno__pheno");
    var inher :- InherFromPhenoValue(phenotype);
    if picked.None? then Err(UnboundLocal("annotation"))
    else
      var block :- BlockAnnotation(info, picked.value);
      LegacyTail(m, block["vep_omim_pheno__inher" := inher])
  }

  /** The loop of `annotate_legacy` over the blocks: the annotation of the
      last picked block, if any. */
  method ScanBlocks(info: map<string, Value>, n: nat) returns (r: Result<Option<map<string, Value>>>)
    ensures PickScan(info, n).Err? ==> r == Err(PickScan(info, n).error)
    ensures PickScan(info, n) == Ok(None) ==> r == Ok(None)
    ensures PickScan(info, n).Ok? && PickScan(info, n).value.Some? ==>
      BlockAnnotation(info, PickScan(info, n).value.value).Ok? &&
      r == Ok(Some(BlockAnnotation(info, PickScan(info, n).value.value).value))
  {
    var annotation: Option<map<string, Value>> := None;
    ghost var last: Option<nat> := None;
    var i := 0;
    while i < n
      invariant 0 <= i <= n
      invariant PickScan(info, i) == Ok(last)
      invariant last.None? ==> annotation.None?
      invariant last.Some? ==>
        BlockAnnotation(info, last.value).Ok? && annotation == Some(BlockAnnotation(info, last.value).value)
    {
      var pick := Cell(info, "CSQ_PICK", i);
      if pick.Err? {
        PickScanSticky(info, i + 1, n);
        return Err(pick.error);
      }
      if pick.value == "1" {
        var block := BlockAnnotation(info, i);
        if block.Err? {
          PickScanSticky(info, i + 1, n);
          return Err(block.error);
        }
        annotation := Some(block.value);
        last := Some(i);
      }
      i := i + 1;
    }
    return Ok(annotation);
  }

  /** The statements of `annotate_legacy` after the phenotype. */
  method CompleteAnnotation(m: map<string, Value>, a: map<string, Value>) returns (r: Result<map<string, Value>>)
    ensures r == LegacyTail(m, a)
  {
    var tagged := CopyColumns(m, TagColumns, "vevatacmg_postaggregator__", "tagsampler_new__", a);
    if tagged.Err? {
      return tagged;
    }
    if "vevatacmg_postaggregator__sample" !in m {
      return Err(KeyError("vevatacmg_postaggregator__sample"));
    }
    var b := tagged.value["tagsampler_new__samples" := m["vevatacmg_postaggregator__sample"]];
    var withClinvar := CopyColumns(m, ClinvarColumns, "clinvar__", "clinvar_new__", b);
    if withClinvar.Err? {
      return withClinvar;
    }
    b := withClinvar.value["clinvar_new__sig_subs" := VNone]["clinvar_new__equivalents" := VNone]
      ["clinvar_new__alternatives" := VNone];
    return Ok(b);
  }

  /** `annotate_legacy`. */
  method AnnotateLegacy(row: Row) returns (r: Result<map<string, Value>>)
    requires DistinctKeys(row)
    ensures r == LegacyAnnotation(row)
  {
    var infoResult := GetExtraVcfInfo(row);
    if infoResult.Err? {
      return Err(infoResult.error);
    }
    var info := infoResult.value;
    ExtraVcfInfoNblocks(row);
    var n := NBlocks(row).value;
    var annotation := ScanBlocks(info, n);
    if annotation.Err? {
      return Err(annotation.error);
    }
    var m := RowMap(row);
    if "vep_omim_pheno__pheno" !in m {
      return Err(KeyError("vep_omim_pheno__pheno"));
    }
    var inher := InherFromPhenoValue(m["vep_omim_pheno__pheno"]);
    if inher.Err? {
      return Err(inher.error);
    }
    if annotation.value.None? {
      return Err(UnboundLocal("annotation"));
    }
    r := CompleteAnnotation(m, annotation.value.value["vep_omim_pheno__inher" := inher.value]);
  }

  /** With no picked block the annotation is never bound and the call fails:
      after the phenotype lookup, which Python evaluates first. */
  lemma LegacyNoPick(info: map<string, Value>, n: nat, m: map<string, Value>)
    requires forall j :: 0 <= j < n ==> Cell(info, "CSQ_PICK", j).Ok? && Cell(info, "CSQ_PICK", j).value != "1"
    requires "vep_omim_pheno__pheno" in m && InherFromPhenoValue(m["vep_omim_pheno__pheno"]).Ok?
    ensures LegacyFrom(info, n, m) == Err(UnboundLocal("annotation"))
  {
    PickScanNone(info, n);
  }

  /** The tail keeps every key outside the two renamed families. */
  lemma LegacyTailKeeps(m: map<string, Value>, a: map<string, Value>, key: string)
    requires LegacyTail(m, a).Ok? && key in a
    requires !StartsWith(key, "tagsampler_new__") && !StartsWith(key, "clinvar_new__")
    ensures key in LegacyTail(m, a).value && LegacyTail(m, a).value[key] == a[key]
  {
    var tags := Renamed(m, TagColumns, "vevatacmg_postaggregator__", "tagsampler_new__").value;
    var clinvar := Renamed(m, ClinvarColumns, "clinvar__", "clinvar_new__").value;
    RenamedKeys(m, TagColumns, "vevatacmg_postaggregator__", "tagsampler_new__");
    RenamedKeys(m, ClinvarColumns, "clinvar__", "clinvar_new__");
    assert key !in tags && key !in clinvar;
    assert key != "tagsampler_new__samples" by {
      assert StartsWith("tagsampler_new__samples", "tagsampler_new__");
    }
    assert key != "clinvar_new__sig_subs" && key != "clinvar_new__equivalents" &&
      key != "clinvar_new__alternatives" by {
      assert StartsWith("clinvar_new__sig_subs", "clinvar_new__");
      assert StartsWith("clinvar_new__equivalents", "clinvar_new__");
      assert StartsWith("clinvar_new__alternatives", "clinvar_new__");
    }
  }

  /** The tail sets the sample columns from the `vevatacmg_postaggregator__`
      ones and the three ClinVar columns the legacy schema lacks to None. */
  lemma LegacyTailSets(m: map<string, Value>, a: map<string, Value>)
    requires LegacyTail(m, a).Ok?
    ensures "vevatacmg_postaggregator__zygosity" in m && "vevatacmg_postaggregator__sample" in m
    ensures "tagsampler_new__zygosity" in LegacyTail(m, a).value
    ensures LegacyTail(m, a).value["tagsampler_new__zygosity"] == m["vevatacmg_postaggregator__zygosity"]
    ensures LegacyTail(m, a).value["tagsampler_new__samples"] == m["vevatacmg_postaggregator__sample"]
    ensures LegacyTail(m, a).value["clinvar_new__sig_subs"] == VNone
    ensures LegacyTail(m, a).value["clinvar_new__equivalents"] == VNone
    ensures LegacyTail(m, a).value["clinvar_new__alternatives"] == VNone
  {
    var tags := Renamed(m, TagColumns, "vevatacmg_postaggregator__", "tagsampler_new__").value;
    var clinvar := Renamed(m, ClinvarColumns, "clinvar__", "clinvar_new__").value;
    RenamedEntry(m, TagColumns, "vevatacmg_postaggregator__", "tagsampler_new__", 1);
    assert "tagsampler_new__" + TagColumns[1] == "tagsampler_new__zygosity";
    assert "vevatacmg_postaggregator__" + TagColumns[1] == "vevatacmg_postaggregator__zygosity";
    RenamedKeys(m, ClinvarColumns, "clinvar__", "clinvar_new__");
    FirstCharDiffers("tagsampler_new__zygosity", "clinvar_new__");
    FirstCharDiffers("tagsampler_new__samples", "clinvar_new__");
    assert "tagsampler_new__zygosity" !in clinvar;
    assert "tagsampler_new__samples" !in clinvar;
  }

  lemma FirstCharDiffers(s: string, p: string)
    requires |s| > 0 && |p| > 0 && s[0] != p[0]
    ensures !StartsWith(s, p)
  {
    if |p| <= |s| {
      assert s[..|p|][0] == s[0];
    }
  }

  lemma BlockCellsRead(info: map<string, Value>, k: nat)
    requires BlockCells(info, k).Ok?
    ensures Cell(info, "CSQ_SYMBOL", k) == Ok(BlockCells(info, k).value.symbol)
    ensures Cell(info, "CSQ_HGVSc", k) == Ok(BlockCells(info, k).value.hgvsc)
    ensures Cell(info, "CSQ_HGVSp", k) == Ok(BlockCells(info, k).value.hgvsp)
    ensures Cell(info, "CSQ_MANE_SELECT", k) == Ok(BlockCells(info, k).value.mane)
  {
  }

  lemma AnnotationMapEntries(f: BlockFields)
    ensures var a := AnnotationMap(f);
      a["vep_csq__symbol"] == VStr(f.symbol) &&
      a["vep_csq__hgvsc"] == VStr(Last(Split(f.hgvsc, ':'))) &&
      a["vep_csq__hgvsp"] == VStr(Last(Split(f.hgvsp, ':'))) &&
      (a["vep_csq__refseq"] == VNone <==> f.mane == "")
  {
  }

  /** What the picked block contributes: its symbol, the last `:`-token of its
      HGVSc and HGVSp, and None for refseq exactly when its MANE entry is
      empty. */
  lemma BlockAnnotationEntries(info: map<string, Value>, k: nat)
    requires BlockAnnotation(info, k).Ok?
    ensures var a := BlockAnnotation(info, k).value;
      Cell(info, "CSQ_SYMBOL", k).Ok? && Cell(info, "CSQ_HGVSc", k).Ok? &&
      Cell(info, "CSQ_HGVSp", k).Ok? && Cell(info, "CSQ_MANE_SELECT", k).Ok? &&
      a["vep_csq__symbol"] == VStr(Cell(info, "CSQ_SYMBOL", k).value) &&
      a["vep_csq__hgvsc"].VStr? && LastPartOf(Cell(info, "CSQ_HGVSc", k).value, ':', a["vep_csq__hgvsc"].s) &&
      a["vep_csq__hgvsp"].VStr? && LastPartOf(Cell(info, "CSQ_HGVSp", k).value, ':', a["vep_csq__hgvsp"].s) &&
      (a["vep_csq__refseq"] == VNone <==> Cell(info, "CSQ_MANE_SELECT", k).value == "")
  {
    var f := BlockCells(info, k).value;
    BlockCellsRead(info, k);
    AnnotationMapEntries(f);
    LastPart(f.hgvsc, ':');
    LastPart(f.hgvsp, ':');
  }

  /** A successful annotation comes from the last picked block `k`, and holds
      what that block and the renamed columns contribute. */
  lemma LegacyFromPicksLastBlock(info: map<string, Value>, n: nat, m: map<string, Value>) returns (k: nat, t: map<string, Value>)
    requires LegacyFrom(info, n, m).Ok?
    ensures LegacyFrom(info, n, m) == Ok(t)
    ensures k < n && Cell(info, "CSQ_PICK", k) == Ok("1")
    ensures forall j :: k < j < n ==> Cell(info, "CSQ_PICK", j).Ok? && Cell(info, "CSQ_PICK", j).value != "1"
    ensures BlockAnnotation(info, k).Ok?
    ensures forall key :: key in BlockKeys ==> key in t && t[key] == BlockAnnotation(info, k).value[key]
    ensures TailFacts(m, t)
  {
    var a;
    k, a := LegacyUnfold(info, n, m);
    t := LegacyTailFacts(m, a);
  }

  /** The columns `annotate_legacy` copies from the row after the block. */
  ghost predicate TailFacts(m: map<string, Value>, t: map<string, Value>) {
    && "vevatacmg_postaggregator__zygosity" in m && "vevatacmg_postaggregator__sample" in m
    && "tagsampler_new__zygosity" in t && "tagsampler_new__samples" in t
    && "clinvar_new__sig_subs" in t && "clinvar_new__equivalents" in t && "clinvar_new__alternatives" in t
    && t["tagsampler_new__zygosity"] == m["vevatacmg_postaggregator__zygosity"]
    && t["tagsampler_new__samples"] == m["vevatacmg_postaggregator__sample"]
    && t["clinvar_new__sig_subs"] == VNone && t["clinvar_new__equivalents"] == VNone
    && t["clinvar_new__alternatives"] == VNone
  }

  lemma LegacyTailFacts(m: map<string, Value>, a: map<string, Value>) returns (t: map<string, Value>)
    requires LegacyTail(m, a).Ok?
    requires forall key :: key in BlockKeys ==> key in a
    ensures LegacyTail(m, a) == Ok(t)
    ensures forall key :: key in BlockKeys ==> key in t && t[key] == a[key]
    ensures TailFacts(m, t)
  {
    BlockKeysUnprefixed();
    t := LegacyTail(m, a).value;
    forall key | key in BlockKeys
      ensures key in t && t[key] == a[key]
    {
      LegacyTailKeeps(m, a, key);
    }
    LegacyTailSets(m, a);
  }

  /** The successful path of `LegacyFrom`, named. */
  lemma LegacyUnfold(info: map<string, Value>, n: nat, m: map<string, Value>) returns (k: nat, a: map<string, Value>)
    requires LegacyFrom(info, n, m).Ok?
    ensures k < n && Cell(info, "CSQ_PICK", k) == Ok("1")
    ensures forall j :: k < j < n ==> Cell(info, "CSQ_PICK", j).Ok? && Cell(info, "CSQ_PICK", j).value != "1"
    ensures BlockAnnotation(info, k).Ok?
    ensures LegacyFrom(info, n, m) == LegacyTail(m, a)
    ensures forall key :: key in BlockKeys ==>
      key in a && a[key] == BlockAnnotation(info, k).value[key]
  {
    k := PickScan(info, n).value.value;
    PickScanLast(info, n);
    var inher := InherFromPhenoValue(m["vep_omim_pheno__pheno"]).value;
    var block := BlockAnnotation(info, k).value;
    a := block["vep_omim_pheno__inher" := inher];
    AnnotationMapHasKeys(BlockCells(info, k).value);
    InherKeepsBlockKeys(block, inher);
  }

  /** The four block columns the lemmas above follow. */
  const BlockKeys: seq<string> := ["vep_csq__symbol", "vep_csq__hgvsc", "vep_csq__hgvsp", "vep_csq__refseq"]

  lemma AnnotationMapHasKeys(f: BlockFields)
    ensures forall key :: key in BlockKeys ==> key in AnnotationMap(f)
  {
  }

  lemma InherKeepsBlockKeys(block: map<string, Value>, inher: Value)
    requires forall key :: key in BlockKeys ==> key in block
    ensures forall key :: key in BlockKeys ==>
      key in block["vep_omim_pheno__inher" := inher] && block["vep_omim_pheno__inher" := inher][key] == block[key]
  {
    forall key | key in BlockKeys
      ensures key != "vep_omim_pheno__inher"
    {
      assert key[4] == 'c' && "vep_omim_pheno__inher"[4] == 'o';
    }
  }

  lemma BlockKeysUnprefixed()
    ensures forall key :: key in BlockKeys ==>
      !StartsWith(key, "tagsampler_new__") && !StartsWith(key, "clinvar_new__")
  {
    forall key | key in BlockKeys
      ensures !StartsWith(key, "tagsampler_new__") && !StartsWith(key, "clinvar_new__")
    {
      FirstCharDiffers(key, "tagsampler_new__");
      FirstCharDiffers(key, "clinvar_new__");
    }
  }

  /** Every renamed column carries the target prefix. */
  lemma {:induction false} RenamedKeys(m: map<string, Value>, cols: seq<string>, from: string, to: string)
    requires Renamed(m, cols, from, to).Ok?
    ensures forall key :: key in Renamed(m, cols, from, to).value ==> StartsWith(key, to)
    decreases |cols|
  {
    if |cols| > 0 {
      RenamedKeys(m, cols[..|cols| - 1], from, to);
      assert (to + Last(cols))[..|to|] == to;
    }
  }
}
