/** The parts of the report document both versions of `create_doc` build
    the same way: the document as a sequence of blocks, `add_table`, the
    shared bibliography with its "append, then read the length" citations,
    the two consequence cascades, the gene-part clause and the paragraphs
    about ClinVar variants at the same protein position. */
module Narrative {
  import opened Base
  import opened Text
  import opened Tables
  import opened Records
  import opened Evidence

  /** A run of a paragraph, with the one character style the report sets. */
  datatype Run = Plain(text: string) | Italic(text: string) | Bold(text: string)

  /** An `add_table` result: the cells, whether its first column is set in
      italics, and whether a merged "Не обнаружено" row was added. */
  datatype Grid = Grid(cells: seq<seq<string>>, italic: bool, notFound: bool)

  /** What `create_doc` adds to the document, in order; alignment and
      styles other than the list styles are not modelled. */
  datatype Block =
    | Heading(title: string)
    | Para(runs: seq<Run>)
    | Cited(text: string, index: nat)  // f'{text}[{index}].': a paragraph ending in a citation
    | Bullet(item: string)      // style 'List Bullet'
    | Numbered(item: string)    // style 'List Number'
    | Table(grid: Grid)

  function Line(s: string): Block {
    Para([Plain(s)])
  }

  // ---------------------------------------------------------------- tables

  /** `str(cell)` of every cell of a row. */
  function ShowRow(row: seq<NStr>): (r: seq<string>)
    ensures |r| == |row| && forall j :: 0 <= j < |row| ==> r[j] == Show(row[j])
  {
    seq(|row|, j requires 0 <= j < |row| => Show(row[j]))
  }

  function ShowRows(rows: seq<seq<NStr>>): (r: seq<seq<string>>)
    ensures |r| == |rows| && forall i :: 0 <= i < |rows| ==> r[i] == ShowRow(rows[i])
  {
    seq(|rows|, i requires 0 <= i < |rows| => ShowRow(rows[i]))
  }

  /** The length of the shortest row: `zip` stops there. */
  function MinWidth(rows: seq<seq<string>>): (w: nat)
    requires |rows| > 0
    ensures forall i :: 0 <= i < |rows| ==> w <= |rows[i]|
    ensures exists i :: 0 <= i < |rows| && w == |rows[i]|
    decreases |rows|
  {
    if |rows| == 1 then |rows[0]|
    else
      var w := MinWidth(rows[1..]);
      assert forall i :: 1 <= i < |rows| ==> rows[1..][i - 1] == rows[i];
      if |rows[0]| <= w then |rows[0]| else w
  }

  /** `list(zip(*rows))`. */
  function Transpose(rows: seq<seq<string>>): (r: seq<seq<string>>)
    requires |rows| > 0
    ensures |r| == MinWidth(rows)
    ensures forall j, i :: 0 <= j < |r| && 0 <= i < |rows| ==> |r[j]| == |rows| && r[j][i] == rows[i][j]
  {
    seq(MinWidth(rows), j requires 0 <= j < MinWidth(rows) =>
      seq(|rows|, i requires 0 <= i < |rows| => rows[i][j]))
  }

  /** `add_table`: the header goes in front of the rows, the whole is
      transposed on request, and a table left with its header line alone
      gets the "Не обнаружено" row.  Every row is read up to the width of
      the first one; the header is never empty and no row is narrower than
      it (a narrower one raises in the source). */
  function AddTable(data: seq<seq<string>>, header: seq<string>, italic: bool, transpose: bool): (g: Grid)
    requires |header| > 0
    requires !transpose ==> forall i :: 0 <= i < |data| ==> |header| <= |data[i]|
  {
    var rows := [header] + data;
    var cells := if transpose then Transpose(rows) else seq(|rows|, i requires 0 <= i < |rows| => rows[i][..|header|]);
    Grid(cells, italic, |cells| == 1)
  }

  /** A table as rows: the header then one line per record, and the "not
      found" row exactly when there is no record. */
  lemma AddTableRows(data: seq<seq<string>>, header: seq<string>, italic: bool)
    requires |header| > 0
    requires forall i :: 0 <= i < |data| ==> |data[i]| == |header|
    ensures AddTable(data, header, italic, false).cells == [header] + data
    ensures AddTable(data, header, italic, false).notFound <==> |data| == 0
  {
    var rows := [header] + data;
    assert forall i :: 0 <= i < |rows| ==> rows[i][..|header|] == rows[i];
  }

  /** The same for records shown cell by cell: row `k + 1` shows record `k`. */
  lemma ShownTableRows(data: seq<seq<NStr>>, header: seq<string>, italic: bool)
    requires |header| > 0
    requires forall i :: 0 <= i < |data| ==> |data[i]| == |header|
    ensures var g := AddTable(ShowRows(data), header, italic, false);
      && |g.cells| == |data| + 1
      && g.cells[0] == header
      && (forall k :: 0 <= k < |data| ==> g.cells[k + 1] == ShowRow(data[k]))
      && (g.notFound <==> |data| == 0)
  {
    AddTableRows(ShowRows(data), header, italic);
  }

  /** A one-record table laid out sideways: one line per column, holding
      the column name and its value; it is never "not found" when it has
      more than one column. */
  lemma AddTableRecord(record: seq<string>, header: seq<string>, italic: bool)
    requires |header| > 0 && |record| == |header|
    ensures |AddTable([record], header, italic, true).cells| == |header|
    ensures forall j :: 0 <= j < |header| ==> AddTable([record], header, italic, true).cells[j] == [header[j], record[j]]
    ensures AddTable([record], header, italic, true).notFound <==> |header| == 1
  {
    var rows := [header] + [record];
    assert MinWidth(rows) == |header| by {
      assert rows[1..] == [record];
    }
  }

  // ------------------------------------------------------------ citations

  /** The shared reference list (`sources`): a class attribute in one
      version and a module global in the other, so every report adds to the
      same list. */
  class Bibliography {
    var entries: seq<string>

    constructor ()
      ensures entries == BaseSources
    {
      entries := BaseSources;
    }

    /** `sources.append(url); source_idx = len(sources)`. */
    method Cite(url: string) returns (index: nat)
      modifies this
      ensures entries == old(entries) + [url]
      ensures index == |entries|
    {
      entries := entries + [url];
      index := |entries|;
    }
  }

  function BlockCites(b: Block): seq<nat> {
    if b.Cited? then [b.index] else []
  }

  /** The text of a cited paragraph, the citation written as `[n]`. */
  function CitedText(b: Block): string
    requires b.Cited?
  {
    b.text + "[" + NatToString(b.index) + "]."
  }

  /** The citation numbers of a document part, in reading order. */
  function Citations(blocks: seq<Block>): seq<nat>
    decreases |blocks|
  {
    if |blocks| == 0 then [] else Citations(blocks[..|blocks| - 1]) + BlockCites(blocks[|blocks| - 1])
  }

  lemma {:induction false} CitationsAppend(a: seq<Block>, b: seq<Block>)
    ensures Citations(a + b) == Citations(a) + Citations(b)
    decreases |b|
  {
    if |b| == 0 {
      assert a + b == a;
    } else {
      var n := |b| - 1;
      assert (a + b)[..|a + b| - 1] == a + b[..n];
      CitationsAppend(a, b[..n]);
    }
  }

  lemma CitationsSingle(b: Block)
    ensures Citations([b]) == BlockCites(b)
  {
    assert [b][..0] == [];
  }

  /** Blocks without a citation contribute none. */
  lemma {:induction false} CitationsNone(blocks: seq<Block>)
    requires forall k :: 0 <= k < |blocks| ==> BlockCites(blocks[k]) == []
    ensures Citations(blocks) == []
    decreases |blocks|
  {
    if |blocks| > 0 {
      var n := |blocks| - 1;
      assert forall k :: 0 <= k < n ==> blocks[..n][k] == blocks[k];
      CitationsNone(blocks[..n]);
    }
  }

  /** The numbers `lo + 1, lo + 2, …, hi`. */
  function Range(lo: nat, hi: nat): (r: seq<nat>)
    requires lo <= hi
    ensures |r| == hi - lo && forall j :: 0 <= j < |r| ==> r[j] == lo + 1 + j
  {
    seq(hi - lo, j requires 0 <= j < hi - lo => lo + 1 + j)
  }

  lemma RangeAppend(lo: nat, mid: nat, hi: nat)
    requires lo <= mid <= hi
    ensures Range(lo, mid) + Range(mid, hi) == Range(lo, hi)
  {
    var a, b := Range(lo, mid), Range(mid, hi);
    assert forall j :: 0 <= j < hi - lo ==> (a + b)[j] == lo + 1 + j by {
      forall j | 0 <= j < hi - lo
        ensures (a + b)[j] == lo + 1 + j
      {
        if j < mid - lo {
          assert (a + b)[j] == a[j];
        } else {
          assert (a + b)[j] == b[j - (mid - lo)];
        }
      }
    }
  }

  /** The shared list after a part of the interpretation, and the blocks
      it produced or the exception that stopped it.  On an exception the
      appends made before it stay in the list. */
  datatype Story<T> = Story(listed: seq<string>, outcome: Result<T>)

  /** The URLs of citing items. */
  function Urls(items: seq<(string, Result<string>)>): (r: seq<string>)
    ensures |r| == |items| && forall j :: 0 <= j < |items| ==> r[j] == items[j].0
  {
    seq(|items|, j requires 0 <= j < |items| => items[j].0)
  }

  lemma UrlsAppend(a: seq<(string, Result<string>)>, b: seq<(string, Result<string>)>)
    ensures Urls(a + b) == Urls(a) + Urls(b)
  {
    assert forall j :: 0 <= j < |a + b| ==> Urls(a + b)[j] == (Urls(a) + Urls(b))[j];
  }

  /** A citing loop over a list holding `listed`: for each item its URL is
      appended first, then the text of its paragraph is computed (which may
      raise), and the paragraph cites the new length of the list. */
  function Citing(items: seq<(string, Result<string>)>, listed: seq<string>): Story<seq<Block>>
    decreases |items|
  {
    if |items| == 0 then Story(listed, Ok([]))
    else
      var m := |items| - 1;
      var prev := Citing(items[..m], listed);
      if prev.outcome.Err? then prev
      else
        var after := prev.listed + [items[m].0];
        match items[m].1
        case Err(e) => Story(after, Err(e))
        case Ok(t) => Story(after, Ok(prev.outcome.value + [Cited(t, |after|)]))
  }

  /** One step of the loop, on a prefix that has not raised. */
  lemma CitingStep(items: seq<(string, Result<string>)>, listed: seq<string>, i: nat)
    requires i < |items| && Citing(items[..i], listed).outcome.Ok?
    ensures var prev := Citing(items[..i], listed);
      var after := prev.listed + [items[i].0];
      Citing(items[..i + 1], listed) ==
        match items[i].1
        case Err(e) => Story(after, Err(e))
        case Ok(t) => Story(after, Ok(prev.outcome.value + [Cited(t, |after|)]))
  {
    assert items[..i + 1][..i] == items[..i];
  }

  /** The loop appends the URLs of the items in order, up to the one that
      raises, and all of them when none does. */
  lemma {:induction false} CitingUrls(items: seq<(string, Result<string>)>, listed: seq<string>)
    ensures var after := Citing(items, listed).listed;
      |listed| <= |after| <= |listed| + |items| && after == listed + Urls(items)[..|after| - |listed|]
    ensures Citing(items, listed).outcome.Ok? ==> Citing(items, listed).listed == listed + Urls(items)
    decreases |items|
  {
    if |items| == 0 {
      assert Urls(items)[..0] == [];
    } else {
      var m := |items| - 1;
      var prev := Citing(items[..m], listed);
      CitingUrls(items[..m], listed);
      var k := |prev.listed| - |listed|;
      assert Urls(items[..m])[..k] == Urls(items)[..k];
      if prev.outcome.Ok? {
        assert Urls(items)[..k + 1] == Urls(items)[..k] + [items[m].0];
        assert Urls(items[..m]) == Urls(items)[..m];
        assert Urls(items)[..m + 1] == Urls(items);
      }
    }
  }

  /** A loop that gets through lists one URL per item. */
  lemma CitingLength(items: seq<(string, Result<string>)>, listed: seq<string>)
    requires Citing(items, listed).outcome.Ok?
    ensures |Citing(items, listed).listed| == |listed| + |items|
  {
    CitingUrls(items, listed);
  }

  /** A paragraph citing the next number extends a run citing the numbers
      before it. */
  lemma CitedNext(blocks: seq<Block>, text: string, lo: nat, m: nat)
    requires |blocks| == m && Citations(blocks) == Range(lo, lo + m)
    ensures |blocks + [Cited(text, lo + m + 1)]| == m + 1
    ensures Citations(blocks + [Cited(text, lo + m + 1)]) == Range(lo, lo + m + 1)
  {
    var p := Cited(text, lo + m + 1);
    assert (blocks + [p])[..|blocks + [p]| - 1] == blocks;
    assert Citations(blocks + [p]) == Citations(blocks) + [lo + m + 1];
    RangeAppend(lo, lo + m, lo + m + 1);
    assert Range(lo + m, lo + m + 1) == [lo + m + 1];
  }

  /** One paragraph per item, citing the next numbers of the list in order. */
  lemma {:induction false} CitingNumbers(items: seq<(string, Result<string>)>, listed: seq<string>)
    requires Citing(items, listed).outcome.Ok?
    ensures |Citing(items, listed).outcome.value| == |items|
    ensures Citations(Citing(items, listed).outcome.value) == Range(|listed|, |listed| + |items|)
    decreases |items|
  {
    if |items| > 0 {
      var m := |items| - 1;
      var prev := Citing(items[..m], listed);
      CitingLength(items[..m], listed);
      CitingNumbers(items[..m], listed);
      assert Citing(items, listed).outcome.value ==
        prev.outcome.value + [Cited(items[m].1.value, |listed| + m + 1)];
      CitedNext(prev.outcome.value, items[m].1.value, |listed|, m);
    } else {
      assert Range(|listed|, |listed|) == [];
    }
  }

  /** A block of running text: a paragraph, cited or not. */
  predicate IsProse(b: Block) {
    b.Para? || b.Cited?
  }

  /** A document part made of running text only: no heading, list item or
      table. */
  predicate Prose(blocks: seq<Block>) {
    forall k :: 0 <= k < |blocks| ==> IsProse(blocks[k])
  }

  lemma ProseAppend4(a: seq<Block>, b: seq<Block>, c: seq<Block>, d: seq<Block>)
    requires Prose(a) && Prose(b) && Prose(c) && Prose(d)
    ensures Prose(a + b + c + d)
  {
  }

  /** A citing loop writes running text only. */
  lemma {:induction false} CitingProse(items: seq<(string, Result<string>)>, listed: seq<string>)
    requires Citing(items, listed).outcome.Ok?
    ensures Prose(Citing(items, listed).outcome.value)
    decreases |items|
  {
    if |items| > 0 {
      var m := |items| - 1;
      var prev := Citing(items[..m], listed);
      CitingProse(items[..m], listed);
      var p := Cited(items[m].1.value, |prev.listed| + 1);
      assert Citing(items, listed).outcome.value == prev.outcome.value + [p];
    }
  }

  /** The loop raises exactly when some item's text raises, with the first
      such exception, after appending the URLs up to and including that
      item's. */
  lemma {:induction false} CitingRaises(items: seq<(string, Result<string>)>, listed: seq<string>)
    ensures Citing(items, listed).outcome.Err? <==> exists j :: 0 <= j < |items| && items[j].1.Err?
    ensures Citing(items, listed).outcome.Err? ==>
      var k := |Citing(items, listed).listed| - |listed|;
      1 <= k <= |items| && items[k - 1].1 == Err(Citing(items, listed).outcome.error) &&
      forall j :: 0 <= j < k - 1 ==> items[j].1.Ok?
    decreases |items|
  {
    if |items| > 0 {
      var m := |items| - 1;
      CitingUrls(items[..m], listed);
      CitingRaises(items[..m], listed);
      assert forall j :: 0 <= j < m ==> items[..m][j] == items[j];
    }
  }

  /** Once the loop has raised, later items change nothing. */
  lemma {:induction false} CitingStops(items: seq<(string, Result<string>)>, listed: seq<string>, i: nat)
    requires i <= |items| && Citing(items[..i], listed).outcome.Err?
    ensures Citing(items, listed) == Citing(items[..i], listed)
    decreases |items| - i
  {
    if i < |items| {
      assert items[..i + 1][..i] == items[..i];
      CitingStops(items, listed, i + 1);
    } else {
      assert items[..i] == items;
    }
  }

  /** A loop over one item. */
  lemma CitingOne(item: (string, Result<string>), listed: seq<string>)
    ensures Citing([item], listed).listed == listed + [item.0]
    ensures item.1.Ok? ==> Citing([item], listed).outcome == Ok([Cited(item.1.value, |listed| + 1)])
    ensures item.1.Err? ==> Citing([item], listed).outcome == Err(item.1.error)
  {
    var one := [item];
    assert one[..0] == [];
    assert one[0] == item;
    var prev := Citing(one[..0], listed);
    assert prev == Story(listed, Ok([]));
    var after := listed + [item.0];
    assert |after| == |listed| + 1;
    match item.1
    case Err(e) =>
      assert Citing(one, listed) == Story(after, Err(e));
    case Ok(t) =>
      assert [] + [Cited(t, |after|)] == [Cited(t, |after|)];
      assert Citing(one, listed) == Story(after, Ok([Cited(t, |after|)]));
  }

  /** Two citing parts one after the other: the second runs on the list the
      first left, unless the first raised. */
  function Then(first: Story<seq<Block>>, second: Story<seq<Block>>): Story<seq<Block>> {
    match first.outcome
    case Err(_) => first
    case Ok(a) =>
      Story(second.listed, match second.outcome
        case Ok(b) => Ok(a + b)
        case Err(e) => Err(e))
  }

  /** Two citing loops run one after the other are one loop over both
      item lists. */
  lemma {:induction false} CitingAppend(a: seq<(string, Result<string>)>, b: seq<(string, Result<string>)>, listed: seq<string>)
    ensures Citing(a + b, listed) == Then(Citing(a, listed), Citing(b, Citing(a, listed).listed))
    decreases |b|
  {
    var sa := Citing(a, listed);
    if sa.outcome.Err? {
      assert (a + b)[..|a|] == a;
      CitingStops(a + b, listed, |a|);
    } else if |b| == 0 {
      assert a + b == a;
      assert sa.outcome.value + [] == sa.outcome.value;
    } else {
      var m := |b| - 1;
      assert (a + b)[..|a + b| - 1] == a + b[..m];
      assert (a + b)[|a + b| - 1] == b[m];
      CitingAppend(a, b[..m], listed);
      var sb := Citing(b[..m], sa.listed);
      if sb.outcome.Ok? {
        match b[m].1
        case Err(e) =>
        case Ok(t) =>
          var after := sb.listed + [b[m].0];
          assert (sa.outcome.value + sb.outcome.value) + [Cited(t, |after|)] ==
            sa.outcome.value + (sb.outcome.value + [Cited(t, |after|)]);
      }
    }
  }

  /** The text of the paragraph about one ClinVar variant at the same
      position: its own submitter messages, or its aggregate significance
      when it has none. */
  function RelatedText(e: ClinvarRelated, same: bool): (r: Result<string>)
    ensures r.Ok? <==> SigSubsMsgs(e.sigSubs).Ok?
  {
    var msgs :- SigSubsMsgs(e.sigSubs);
    Ok(RelatedSentence(e, same, msgs))
  }

  /** The sentence itself, from the submitter messages. */
  function RelatedSentence(e: ClinvarRelated, same: bool, msgs: seq<string>): string {
    var shown := if |msgs| > 0 then msgs else [e.sig];
    var change := if same then "Вариант с такой же аминокислотной заменой " else "Вариант с другой аминокислотной заменой ";
    change + e.change + " в той же позиции аннотирован " + Join(shown, ", ") + " "
  }

  /** The loop over equivalents (`same`) or alternatives: each one is cited
      by its variation URL. */
  function RelatedItems(rs: seq<ClinvarRelated>, same: bool): (r: seq<(string, Result<string>)>)
    ensures |r| == |rs|
    ensures forall j :: 0 <= j < |rs| ==> r[j] == (ClinvarVariationUrl + rs[j].id, RelatedText(rs[j], same))
  {
    seq(|rs|, j requires 0 <= j < |rs| => (ClinvarVariationUrl + rs[j].id, RelatedText(rs[j], same)))
  }

  /** The paragraph of a citing item that cites entry `index`. */
  function CitedOutcome(text: Result<string>, index: nat): Result<Block> {
    match text
    case Ok(t) => Ok(Cited(t, index))
    case Err(e) => Err(e)
  }

  /** A pass that appended the item's URL and produced `p` for it. */
  lemma CitingAdvance(items: seq<(string, Result<string>)>, listed: seq<string>, i: nat, now: seq<string>,
                      blocks: seq<Block>, p: Result<Block>)
    requires i < |items| && Citing(items[..i], listed) == Story(now, Ok(blocks))
    requires p == CitedOutcome(items[i].1, |now| + 1)
    ensures Citing(items[..i + 1], listed) ==
      Story(now + [items[i].0], match p case Ok(b) => Ok(blocks + [b]) case Err(e) => Err(e))
  {
    CitingStep(items, listed, i);
  }

  /** One pass of the equivalents or alternatives loop: append the URL,
      read the new length, then compute the messages. */
  method CiteOneRelated(sources: Bibliography, e: ClinvarRelated, same: bool) returns (r: Result<Block>)
    modifies sources
    ensures sources.entries == old(sources.entries) + [ClinvarVariationUrl + e.id]
    ensures r == CitedOutcome(RelatedText(e, same), |sources.entries|)
  {
    var index := sources.Cite(ClinvarVariationUrl + e.id);
    var msgs := SigSubsToMsgs(e.sigSubs);
    if msgs.Err? {
      return Err(msgs.error);
    }
    r := Ok(Cited(RelatedSentence(e, same, msgs.value), index));
  }

  /** The equivalents or alternatives loop, appending to the shared list. */
  method CiteRelated(sources: Bibliography, rs: seq<ClinvarRelated>, same: bool) returns (r: Result<seq<Block>>)
    modifies sources
    ensures sources.entries == Citing(RelatedItems(rs, same), old(sources.entries)).listed
    ensures r == Citing(RelatedItems(rs, same), old(sources.entries)).outcome
  {
    ghost var before := sources.entries;
    ghost var items := RelatedItems(rs, same);
    var blocks: seq<Block> := [];
    var i := 0;
    while i < |rs|
      invariant 0 <= i <= |rs|
      invariant Citing(items[..i], before) == Story(sources.entries, Ok(blocks))
    {
      ghost var now := sources.entries;
      assert items[i] == (ClinvarVariationUrl + rs[i].id, RelatedText(rs[i], same));
      var p := CiteOneRelated(sources, rs[i], same);
      CitingAdvance(items, before, i, now, blocks, p);
      if p.Err? {
        CitingStops(items, before, i + 1);
        return Err(p.error);
      }
      blocks := blocks + [p.value];
      i := i + 1;
    }
    assert items[..i] == items;
    r := Ok(blocks);
  }

  // ---------------------------------------------------- consequence cascades

  /** The effect the lead-in clause names. */
  datatype Effect = Missense | Synonymous | Intronic | Frameshift | StopGained | SpliceSite | Unlisted

  /** The `if 'missense' in consequence: … elif …` chain of the lead-in. */
  function LeadEffect(consequence: string): Effect {
    if Contains(consequence, "missense") then Missense
    else if Contains(consequence, "synon") then Synonymous
    else if Contains(consequence, "intron") then Intronic
    else if Contains(consequence, "shift") then Frameshift
    else if Contains(consequence, "stop") then StopGained
    else if Contains(consequence, "splice") then SpliceSite
    else Unlisted
  }

  const LeadOrder: seq<string> := ["missense", "synon", "intron", "shift", "stop", "splice"]
  const LeadEffects: seq<Effect> := [Missense, Synonymous, Intronic, Frameshift, StopGained, SpliceSite]

  /** The position of the first key the text contains, or the length. */
  function FirstMatch(s: string, keys: seq<string>): (i: nat)
    ensures i <= |keys|
    ensures i < |keys| ==> Contains(s, keys[i])
    ensures forall j :: 0 <= j < i ==> !Contains(s, keys[j])
    decreases |keys|
  {
    if |keys| == 0 then 0
    else if Contains(s, keys[0]) then 0
    else 1 + FirstMatch(s, keys[1..])
  }

  /** The lead-in names the effect of the first substring, in the order
      missense, synon, intron, shift, stop, splice, that the consequence
      contains. */
  lemma LeadEffectIsFirstMatch(consequence: string)
    ensures var i := FirstMatch(consequence, LeadOrder);
      LeadEffect(consequence) == if i < |LeadOrder| then LeadEffects[i] else Unlisted
  {
    var k := LeadOrder;
    var k1, k2, k3, k4, k5 := k[1..], k[2..], k[3..], k[4..], k[5..];
    assert k1[1..] == k2 && k2[1..] == k3 && k3[1..] == k4 && k4[1..] == k5 && k5[1..] == [];
    assert k1[0] == "synon" && k2[0] == "intron" && k3[0] == "shift" && k4[0] == "stop" && k5[0] == "splice";
    if !Contains(consequence, "missense") {
      assert FirstMatch(consequence, k) == 1 + FirstMatch(consequence, k1);
      if !Contains(consequence, "synon") {
        assert FirstMatch(consequence, k1) == 1 + FirstMatch(consequence, k2);
        if !Contains(consequence, "intron") {
          assert FirstMatch(consequence, k2) == 1 + FirstMatch(consequence, k3);
          if !Contains(consequence, "shift") {
            assert FirstMatch(consequence, k3) == 1 + FirstMatch(consequence, k4);
            if !Contains(consequence, "stop") {
              assert FirstMatch(consequence, k4) == 1 + FirstMatch(consequence, k5);
              if !Contains(consequence, "splice") {
                assert FirstMatch(consequence, k5) == 1 + FirstMatch(consequence, []);
              }
            }
          }
        }
      }
    }
  }

  /** The branch of the computational-evidence paragraph. */
  datatype Assessment = MissenseCase | TruncatingCase | SpliceCase | SpliceRegionCase | NoAssessment

  /** Its own chain: missense, then shift or stop, then splice, then synon
      or intron. */
  function CompAssessment(consequence: string): Assessment {
    if Contains(consequence, "missense") then MissenseCase
    else if Contains(consequence, "shift") || Contains(consequence, "stop") then TruncatingCase
    else if Contains(consequence, "splice") then SpliceCase
    else if Contains(consequence, "synon") || Contains(consequence, "intron") then SpliceRegionCase
    else NoAssessment
  }

  /** The two chains agree on missense and on truncating variants, but not
      on the others: a synonymous or intronic change that also touches a
      splice region, or is also a frameshift or a stop, is introduced by its
      first effect and assessed by the later one. */
  lemma CascadesCompared(consequence: string)
    ensures LeadEffect(consequence) == Missense <==> CompAssessment(consequence) == MissenseCase
    ensures LeadEffect(consequence) in {Frameshift, StopGained} ==> CompAssessment(consequence) == TruncatingCase
    ensures LeadEffect(consequence) == SpliceSite ==> CompAssessment(consequence) == SpliceCase
    ensures LeadEffect(consequence) in {Synonymous, Intronic} ==> CompAssessment(consequence) != NoAssessment
    ensures LeadEffect(consequence) == Unlisted <==> CompAssessment(consequence) == NoAssessment
    ensures Contains(consequence, "synon") && Contains(consequence, "splice") &&
            !Contains(consequence, "missense") && !Contains(consequence, "shift") && !Contains(consequence, "stop") ==>
      LeadEffect(consequence) == Synonymous && CompAssessment(consequence) == SpliceCase
  {
  }

  const LossOfFunctionText := "Вариант с большой долей вероятности приводит к потере функции соответствующей копии гена."
  const SplicePredictedText := "Вариант предсказан приводить к аберрантному сплайсингу компьютерными алгоритмами. "
  const SpliceNotPredictedText := "Вариант не предсказан приводить к аберрантному сплайсингу компьютерными алгоритмами. "

  /** The conservation sentence of a missense variant with a GERP score. */
  function ConservationText(gerp: real): string {
    if gerp >= 2.0 then "Вариант расположен в высококонсервативной позиции. "
    else if gerp >= 0.0 then "Вариант расположен в консервативной позиции. "
    else "Вариант расположен в неконсервативной позиции. "
  }

  /** `predict_insilico`'s verdict on the protein. */
  function PredictionText(insilico: bool): string {
    if insilico then "Компьютерные алгоритмы предсказывают патогенный эффект варианта на белок."
    else "Компьютерные алгоритмы предсказывают нейтральный эффект варианта на белок."
  }

  /** A missense variant: its conservation when it has a GERP score, then
      the prediction. */
  function MissenseRuns(gerp: Option<real>, insilico: bool): (r: seq<Run>)
    ensures |r| == (if NumTruthy(gerp) then 2 else 1)
    ensures forall j :: 0 <= j < |r| ==> r[j].Plain?
    ensures r[|r| - 1] == Plain(PredictionText(insilico))
  {
    var prediction := Plain(PredictionText(insilico));
    if NumTruthy(gerp) then [Plain(ConservationText(gerp.value)), prediction] else [prediction]
  }

  /** A splice-site variant: the loss of function only when the splicing
      effect is predicted. */
  function SpliceRuns(insilico: bool): (r: seq<Run>)
    ensures |r| == (if insilico then 2 else 1)
    ensures forall j :: 0 <= j < |r| ==> r[j].Plain?
  {
    if insilico then [Plain(SplicePredictedText), Plain(LossOfFunctionText)] else [Plain(SpliceNotPredictedText)]
  }

  /** A synonymous or intronic variant: the splicing prediction, then the
      call for a functional analysis. */
  function SpliceRegionRuns(insilico: bool): (r: seq<Run>)
    ensures |r| == 2
    ensures forall j :: 0 <= j < |r| ==> r[j].Plain?
  {
    [Plain(if insilico then SplicePredictedText else SpliceNotPredictedText),
     Plain("Требуется проведение функционального анализа.")]
  }

  /** The runs of the computational-evidence paragraph: text only, none
      when no branch applies, and as many sentences as the branch calls
      for. */
  function CompRuns(consequence: string, gerp: Option<real>, insilico: bool): (r: seq<Run>)
    ensures forall j :: 0 <= j < |r| ==> r[j].Plain?
    ensures |r| == 0 <==> CompAssessment(consequence) == NoAssessment
    ensures CompAssessment(consequence) == MissenseCase ==>
      r[|r| - 1] == Plain(PredictionText(insilico)) && (|r| == 2 <==> NumTruthy(gerp))
    ensures CompAssessment(consequence) == SpliceCase ==> |r| == (if insilico then 2 else 1)
  {
    match CompAssessment(consequence)
    case MissenseCase => MissenseRuns(gerp, insilico)
    case TruncatingCase => [Plain(LossOfFunctionText)]
    case SpliceCase => SpliceRuns(insilico)
    case SpliceRegionCase => SpliceRegionRuns(insilico)
    case NoAssessment => []
  }

  // ------------------------------------------------------------ gene part

  /** The Python locals `gene_part_msg` and `leading_to_msg`: assigned only in
      some branches, so a variant that matches none of them reuses the text
      of an earlier variant, and the very first such variant reads an
      unbound name. */
  datatype Carried = Carried(genePart: Option<string>, leadingTo: Option<string>)

  const NothingCarried := Carried(None, None)

  /** `f"в {x.split('/')[0]} {noun} из {x.split('/')[1]} {plural}"`. */
  function PositionMsg(field: string, noun: string, plural: string): (r: Result<string>)
    ensures r.Ok? <==> |Split(field, '/')| >= 2
  {
    var parts := Split(field, '/');
    if |parts| < 2 then Err(IndexError("split('/')[1]"))
    else Ok("в " + parts[0] + " " + noun + " из " + parts[1] + " " + plural)
  }

  /** The gene part: from the exon when it is set, else from the intron,
      else the text carried over. */
  function GenePart(exon: NStr, intron: NStr, carried: Option<string>): (r: Result<Option<string>>)
    ensures Truthy(exon) ==> (r.Ok? <==> PositionMsg(exon.value, "экзоне", "экзонов").Ok?)
    ensures Truthy(exon) && r.Ok? ==> r.value == Some(PositionMsg(exon.value, "экзоне", "экзонов").value)
    ensures !Truthy(exon) && Truthy(intron) ==> (r.Ok? <==> PositionMsg(intron.value, "интроне", "интронов").Ok?)
    ensures !Truthy(exon) && Truthy(intron) && r.Ok? ==> r.value == Some(PositionMsg(intron.value, "интроне", "интронов").value)
    ensures !Truthy(exon) && !Truthy(intron) ==> r == Ok(carried)
  {
    if Truthy(exon) then
      var msg :- PositionMsg(exon.value, "экзоне", "экзонов");
      Ok(Some(msg))
    else if Truthy(intron) then
      var msg :- PositionMsg(intron.value, "интроне", "интронов");
      Ok(Some(msg))
    else Ok(carried)
  }

  /** A VEP position `k/total` is read back as its two numbers. */
  lemma PositionMsgReadsBack(k: string, total: string, noun: string, plural: string)
    requires '/' !in k && '/' !in total
    ensures PositionMsg(k + "/" + total, noun, plural) == Ok("в " + k + " " + noun + " из " + total + " " + plural)
  {
    NoCharNoContains(k, '/');
    NoCharNoContains(total, '/');
    assert Join([k, total], "/") == k + "/" + total;
    SplitJoin([k, total], "/");
  }
}
