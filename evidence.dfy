/** The evidence a variant's interpretation rests on: the gnomAD allele
    counts of genomes and exomes taken together, the in-silico prediction
    cascade, the OMIM inheritance codes (in the normaliser module) and the
    per-submitter ClinVar significance strings. */
module Evidence {
  import opened Base
  import opened Text
  import opened Tables
  import opened Records
  import opened Steps

  /** The dictionary of `get_gnomad4aggregated`: AN is always a number (a
      sum, possibly empty), AC and AF stay None unless AN is non-zero. */
  datatype Gnomad = Gnomad(an: int, ac: Option<int>, af: Option<real>)

  /** What a count adds to `sum([value for value in [...] if value])`. */
  function Counted(o: Option<int>): int {
    if IntTruthy(o) then o.value else 0
  }

  function GnomadAggregated(v: Variant): (r: Gnomad)
    ensures r.an == Counted(v.genomesAN) + Counted(v.exomesAN)
    ensures r.an == 0 <==> r.ac.None?
    ensures r.an == 0 <==> r.af.None?
    ensures r.an != 0 ==> r.ac == Some(Counted(v.genomesAC) + Counted(v.exomesAC))
    ensures r.an != 0 ==> r.af.value * (r.an as real) == r.ac.value as real
  {
    var an := Counted(v.genomesAN) + Counted(v.exomesAN);
    if an != 0 then
      var ac := Counted(v.genomesAC) + Counted(v.exomesAC);
      Gnomad(an, Some(ac), Some(ac as real / an as real))
    else Gnomad(an, None, None)
  }

  /** With non-negative counts and no more alleles than chromosomes the
      aggregated frequency is a proportion. */
  lemma GnomadFrequencyIsProportion(v: Variant)
    requires Counted(v.genomesAN) + Counted(v.exomesAN) != 0
    requires 0 <= Counted(v.genomesAC) + Counted(v.exomesAC) <= Counted(v.genomesAN) + Counted(v.exomesAN)
    ensures 0.0 <= GnomadAggregated(v).af.value <= 1.0
  {
    var g := GnomadAggregated(v);
    var an := g.an as real;
    var ac := g.ac.value as real;
    assert an > 0.0;
    assert g.af.value == ac / an;
  }

  /** The first threshold of each predictor, in the cascade's order:
      dbscSNV ADA, MetaRNN, REVEL, AlphaMissense, phyloP.  Only the first
      entry of each threshold triple is read. */
  const PrimaryThresholds: seq<real> := [0.957813, 0.748, 0.644, 0.787, 7.52]

  /** `predict_insilico`. */
  function PredictInsilico(scsnvada: Option<real>, metarnn: Option<real>, revel: Option<real>,
                           alphamissense: Option<real>, phylop: Option<real>): bool
  {
    if NumTruthy(scsnvada) then scsnvada.value >= 0.957813
    else if NumTruthy(metarnn) then metarnn.value >= 0.748
    else if NumTruthy(revel) then revel.value >= 0.644
    else if NumTruthy(alphamissense) then alphamissense.value >= 0.787
    else if NumTruthy(phylop) then phylop.value >= 7.52
    else false
  }

  /** The position of the first truthy score, or the length when none is. */
  function FirstTruthy(scores: seq<Option<real>>): (i: nat)
    ensures i <= |scores|
    ensures i < |scores| ==> NumTruthy(scores[i])
    ensures forall j :: 0 <= j < i ==> !NumTruthy(scores[j])
    decreases |scores|
  {
    if |scores| == 0 then 0
    else if NumTruthy(scores[0]) then 0
    else 1 + FirstTruthy(scores[1..])
  }

  /** The rule the cascade implements: the first truthy score alone decides,
      against its own predictor's threshold; with no truthy score the
      prediction is negative. */
  predicate FirstScoreDecides(scores: seq<Option<real>>, thresholds: seq<real>)
    requires |scores| == |thresholds|
  {
    var i := FirstTruthy(scores);
    i < |scores| && scores[i].value >= thresholds[i]
  }

  lemma PredictInsilicoIsFirstScore(scsnvada: Option<real>, metarnn: Option<real>, revel: Option<real>,
                                    alphamissense: Option<real>, phylop: Option<real>)
    ensures PredictInsilico(scsnvada, metarnn, revel, alphamissense, phylop) ==
      FirstScoreDecides([scsnvada, metarnn, revel, alphamissense, phylop], PrimaryThresholds)
  {
    var s := [scsnvada, metarnn, revel, alphamissense, phylop];
    var s1, s2, s3, s4 := s[1..], s[2..], s[3..], s[4..];
    assert s1[1..] == s2 && s2[1..] == s3 && s3[1..] == s4 && s4[1..] == [];
    assert s1[0] == metarnn && s2[0] == revel && s3[0] == alphamissense && s4[0] == phylop;
    if !NumTruthy(scsnvada) {
      assert FirstTruthy(s) == 1 + FirstTruthy(s1);
      if !NumTruthy(metarnn) {
        assert FirstTruthy(s1) == 1 + FirstTruthy(s2);
        if !NumTruthy(revel) {
          assert FirstTruthy(s2) == 1 + FirstTruthy(s3);
          if !NumTruthy(alphamissense) {
            assert FirstTruthy(s3) == 1 + FirstTruthy(s4);
            if !NumTruthy(phylop) {
              assert FirstTruthy(s4) == 1 + FirstTruthy([]);
            }
          }
        }
      }
    }
  }

  /** `sig_count[:-1].split(' (')` unpacked into `sig, count`: anything but
      exactly two parts raises. */
  function ParseSigCount(item: string): (r: Result<(string, string)>)
    ensures r.Ok? <==> |SplitOn(DropLast(item), " (")| == 2
    ensures r.Ok? ==> DropLast(item) == r.value.0 + " (" + r.value.1
  {
    var parts := SplitOn(DropLast(item), " (");
    JoinSplit(DropLast(item), " (");
    if |parts| == 2 then Ok((parts[0], parts[1])) else Err(ValueError("sig_count"))
  }

  /** A submitter entry written as `Sig (N)` is read back as `(Sig, N)`. */
  lemma ParseSigCountRoundTrip(sig: string, count: string)
    requires !Contains(sig, " (") && !Contains(count, " (")
    ensures ParseSigCount(sig + " (" + count + ")") == Ok((sig, count))
  {
    var item := sig + " (" + count + ")";
    assert DropLast(item) == sig + " (" + count;
    assert Join([sig, count], " (") == sig + " (" + count;
    SplitJoin([sig, count], " (");
  }

  /** The message of one submitter entry. */
  function SigSubMsg(sig: string, count: string): string {
    "как " + GetOr(ClinsigToMsg, sig, sig) + " " + count + " лабораторией(ями)"
  }

  /** The message of one `'; '`-separated item, or its unpacking error. */
  function ItemMsg(item: string): Result<string> {
    var parsed :- ParseSigCount(item);
    Ok(SigSubMsg(parsed.0, parsed.1))
  }

  /** The outcome of every item, in order. */
  function ItemOutcomes(items: seq<string>): (r: seq<Result<string>>)
    ensures |r| == |items| && forall j :: 0 <= j < |items| ==> r[j] == ItemMsg(items[j])
  {
    seq(|items|, j requires 0 <= j < |items| => ItemMsg(items[j]))
  }

  /** The messages of the items in order, or the exception of the first item
      that does not parse. */
  function ItemMsgs(items: seq<string>): Result<seq<string>> {
    Gather(ItemOutcomes(items))
  }

  /** `clinvar_sig_subs2msgs`. */
  function SigSubsMsgs(sigSubs: NStr): Result<seq<string>> {
    if !Truthy(sigSubs) then Ok([]) else ItemMsgs(SplitOn(sigSubs.value, "; "))
  }

  /** The call raises exactly when some item does not parse, and then with
      the exception of the first such item. */
  lemma ItemMsgsOk(items: seq<string>)
    ensures ItemMsgs(items).Ok? <==> forall j :: 0 <= j < |items| ==> ParseSigCount(items[j]).Ok?
    ensures ItemMsgs(items).Err? ==>
      exists k :: (0 <= k < |items| && ParseSigCount(items[k]) == Err(ItemMsgs(items).error) &&
                   forall j :: 0 <= j < k ==> ParseSigCount(items[j]).Ok?)
  {
    var outcomes := ItemOutcomes(items);
    forall j | 0 <= j < |items|
      ensures outcomes[j].Ok? <==> ParseSigCount(items[j]).Ok?
      ensures outcomes[j].Err? ==> ParseSigCount(items[j]) == Err(outcomes[j].error)
    {
      assert outcomes[j] == ItemMsg(items[j]);
    }
    GatherOk(outcomes);
    if ItemMsgs(items).Err? {
      GatherFirstError(outcomes);
      var k :| 0 <= k < |outcomes| && outcomes[k] == Err(Gather(outcomes).error) &&
               forall j :: 0 <= j < k ==> outcomes[j].Ok?;
      assert ParseSigCount(items[k]) == Err(ItemMsgs(items).error);
    }
  }

  /** One message per item, in order, each naming the item's significance
      (its label when the table has one) and count. */
  lemma ItemMsgsEach(items: seq<string>)
    requires ItemMsgs(items).Ok?
    ensures |ItemMsgs(items).value| == |items|
    ensures forall j :: 0 <= j < |items| ==>
      (ParseSigCount(items[j]).Ok? &&
       ItemMsgs(items).value[j] == SigSubMsg(ParseSigCount(items[j]).value.0, ParseSigCount(items[j]).value.1))
  {
    GatherEach(ItemOutcomes(items));
  }

  /** Empty or None input yields no message; otherwise there is one message
      per `'; '`-separated item. */
  lemma SigSubsMsgsCount(sigSubs: NStr)
    requires SigSubsMsgs(sigSubs).Ok?
    ensures !Truthy(sigSubs) ==> SigSubsMsgs(sigSubs).value == []
    ensures Truthy(sigSubs) ==> |SigSubsMsgs(sigSubs).value| == |SplitOn(sigSubs.value, "; ")| >= 1
  {
    if Truthy(sigSubs) {
      ItemMsgsEach(SplitOn(sigSubs.value, "; "));
    }
  }

  /** The loop of `clinvar_sig_subs2msgs`. */
  method SigSubsToMsgs(sigSubs: NStr) returns (r: Result<seq<string>>)
    ensures r == SigSubsMsgs(sigSubs)
  {
    if !Truthy(sigSubs) {
      return Ok([]);
    }
    var items := SplitOn(sigSubs.value, "; ");
    ghost var outcomes := ItemOutcomes(items);
    var msgs: seq<string> := [];
    var i := 0;
    while i < |items|
      invariant 0 <= i <= |items|
      invariant Gather(outcomes[..i]) == Ok(msgs)
    {
      assert outcomes[..i + 1][..i] == outcomes[..i];
      assert outcomes[..i + 1][i] == ItemMsg(items[i]);
      var parsed := ParseSigCount(items[i]);
      if parsed.Err? {
        GatherStops(outcomes, i + 1);
        return Err(parsed.error);
      }
      var (sig, count) := parsed.value;
      msgs := msgs + [SigSubMsg(sig, count)];
      i := i + 1;
    }
    assert outcomes[..i] == outcomes;
    r := Ok(msgs);
  }
}
