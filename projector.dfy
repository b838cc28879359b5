/** `filter_variants`: selecting the rows of one note and projecting the
    multi-sample columns of a row onto one sample.  Rows are values, so the
    source's `variant.copy()` (which keeps the caller's rows unchanged) is
    implicit: every projection below builds a new `Variant`. */
module Projector {
  import opened Base
  import opened Text
  import opened Records
  import opened Steps

  /** `[x for x in xs if keep(x)]`. */
  function Select<T>(xs: seq<T>, keep: T -> bool): (r: seq<T>)
    ensures |r| <= |xs|
    decreases |xs|
  {
    if |xs| == 0 then []
    else
      var n := |xs| - 1;
      Select(xs[..n], keep) + (if keep(xs[n]) then [xs[n]] else [])
  }

  /** `sel` is the kept elements of `xs`, taken from the strictly
      increasing positions `idx`. */
  ghost predicate Picks<T>(xs: seq<T>, keep: T -> bool, sel: seq<T>, idx: seq<nat>) {
    && |idx| == |sel|
    && (forall j :: 0 <= j < |idx| ==> idx[j] < |xs| && sel[j] == xs[idx[j]])
    && (forall j, l :: 0 <= j < l < |idx| ==> idx[j] < idx[l])
    && (forall k :: 0 <= k < |xs| ==> (keep(xs[k]) <==> k in idx))
  }

  lemma PicksKept<T>(xs: seq<T>, keep: T -> bool, sel: seq<T>, idx: seq<nat>)
    requires |xs| > 0 && keep(xs[|xs| - 1]) && Picks(xs[..|xs| - 1], keep, sel, idx)
    ensures Picks(xs, keep, sel + [xs[|xs| - 1]], idx + [|xs| - 1])
  {
    var n := |xs| - 1;
    assert forall k :: 0 <= k < n ==> xs[..n][k] == xs[k];
    var idx' := idx + [n];
    var sel' := sel + [xs[n]];
    forall j | 0 <= j < |idx'|
      ensures idx'[j] < |xs| && sel'[j] == xs[idx'[j]]
    {
      if j < |idx| {
        assert idx'[j] == idx[j] && sel'[j] == sel[j];
      }
    }
    forall k | 0 <= k < |xs|
      ensures keep(xs[k]) <==> k in idx'
    {
      assert k in idx' <==> k in idx || k == n;
    }
  }

  lemma PicksDropped<T>(xs: seq<T>, keep: T -> bool, sel: seq<T>, idx: seq<nat>)
    requires |xs| > 0 && !keep(xs[|xs| - 1]) && Picks(xs[..|xs| - 1], keep, sel, idx)
    ensures Picks(xs, keep, sel, idx)
  {
    var n := |xs| - 1;
    assert forall k :: 0 <= k < n ==> xs[..n][k] == xs[k];
    forall k | 0 <= k < |xs|
      ensures keep(xs[k]) <==> k in idx
    {
      assert k in idx ==> k < n;
    }
  }

  /** Selection keeps the order of the input: the survivors are the kept
      elements at strictly increasing positions, and every kept element
      survives. */
  lemma {:induction false} SelectOrigins<T>(xs: seq<T>, keep: T -> bool) returns (idx: seq<nat>)
    ensures |idx| == |Select(xs, keep)|
    ensures forall j :: 0 <= j < |idx| ==> idx[j] < |xs| && Select(xs, keep)[j] == xs[idx[j]]
    ensures forall j, l :: 0 <= j < l < |idx| ==> idx[j] < idx[l]
    ensures forall k :: 0 <= k < |xs| ==> (keep(xs[k]) <==> k in idx)
    decreases |xs|
  {
    if |xs| == 0 {
      idx := [];
    } else {
      var n := |xs| - 1;
      var rest := SelectOrigins(xs[..n], keep);
      var front := Select(xs[..n], keep);
      assert Picks(xs[..n], keep, front, rest);
      if keep(xs[n]) {
        idx := rest + [n];
        PicksKept(xs, keep, front, rest);
        assert Select(xs, keep) == front + [xs[n]];
      } else {
        idx := rest;
        PicksDropped(xs, keep, front, rest);
        assert Select(xs, keep) == front + [];
        assert front + [] == front;
      }
      assert Picks(xs, keep, Select(xs, keep), idx);
    }
  }

  /** The selected elements are exactly the kept elements of the input. */
  lemma SelectMembers<T>(xs: seq<T>, keep: T -> bool)
    ensures forall j :: 0 <= j < |Select(xs, keep)| ==> keep(Select(xs, keep)[j]) && Select(xs, keep)[j] in xs
    ensures forall k :: 0 <= k < |xs| && keep(xs[k]) ==> xs[k] in Select(xs, keep)
  {
    var idx := SelectOrigins(xs, keep);
    forall k | 0 <= k < |xs| && keep(xs[k])
      ensures xs[k] in Select(xs, keep)
    {
      var j :| 0 <= j < |idx| && idx[j] == k;
      assert Select(xs, keep)[j] == xs[k];
    }
  }

  /** `[v for v in variants_data if v['base__note'] == note]`. */
  function WithNote(vs: seq<Variant>, note: string): (r: seq<Variant>)
    ensures forall v :: v in r <==> v in vs && v.note == note
  {
    var keep := (v: Variant) => v.note == note;
    SelectMembers(vs, keep);
    Select(vs, keep)
  }

  /** Entry `i` of a `;`-packed column, `column.split(';')[i]`: None has no
      `split`, and an index past the last entry raises. */
  function PackedAt(column: NStr, i: nat, name: string): (r: Result<string>)
    ensures column.None? ==> r == Err(AttributeError(name))
    ensures column.Some? && i >= |Split(column.value, ';')| ==> r == Err(IndexError(name))
    ensures r.Ok? ==> column.Some? && i < |Split(column.value, ';')| && r.value == Split(column.value, ';')[i]
  {
    if column.None? then Err(AttributeError(name))
    else
      var entries := Split(column.value, ';');
      if i < |entries| then Ok(entries[i]) else Err(IndexError(name))
  }

  /** Whether `filter_variants` drops a row for `sample`: the sample is not
      in the packed sample list, or the filter entry at its first position is
      not `PASS`. */
  predicate Excluded(v: Variant, sample: string)
    requires v.samples.Some?
  {
    var names := Split(v.samples.value, ';');
    sample !in names ||
      (v.filter.Some? && IndexOf(names, sample) < |Split(v.filter.value, ';')| &&
       Split(v.filter.value, ';')[IndexOf(names, sample)] != "PASS")
  }

  /** One iteration of the `by_sample` loop: None when the row is skipped,
      the projected copy when it is kept. */
  function ProjectSample(v: Variant, sample: string): (r: Result<Option<Variant>>)
    ensures v.samples.None? ==> r == Err(AttributeError("tagsampler_new__samples"))
    ensures v.samples.Some? ==> (r == Ok(None) <==> Excluded(v, sample))
    ensures r.Ok? && r.value.Some? ==>
      var w := r.value.value;
      var names := Split(v.samples.value, ';');
      && sample in names
      && var idx := IndexOf(names, sample);
      && PackedAt(v.filter, idx, "tagsampler_new__filter") == Ok("PASS")
      && v.zygosity.Some? && v.ad.Some? && v.dp.Some?
      && idx < |Split(v.zygosity.value, ';')| && w.zygosity == Some(Split(v.zygosity.value, ';')[idx])
      && idx < |Split(v.ad.value, ';')| && w.ad.Some? && LastPartOf(Split(v.ad.value, ';')[idx], ',', w.ad.value)
      && idx < |Split(v.dp.value, ';')| && w.dp == Some(Split(v.dp.value, ';')[idx])
      && w.(zygosity := v.zygosity, ad := v.ad, dp := v.dp) == v
  {
    if v.samples.None? then Err(AttributeError("tagsampler_new__samples"))
    else
      var names := Split(v.samples.value, ';');
      if sample !in names then Ok(None)
      else
        var idx := IndexOf(names, sample);
        var passed :- PackedAt(v.filter, idx, "tagsampler_new__filter");
        if passed != "PASS" then Ok(None)
        else
          var zygosity :- PackedAt(v.zygosity, idx, "tagsampler_new__zygosity");
          var ad :- PackedAt(v.ad, idx, "tagsampler_new__ad");
          var dp :- PackedAt(v.dp, idx, "tagsampler_new__dp");
          LastPart(ad, ',');
          Ok(Some(v.(zygosity := Some(zygosity), ad := Some(Last(Split(ad, ','))), dp := Some(dp))))
  }

  /** The projection of every row, in order. */
  function Projections(vs: seq<Variant>, sample: string): (r: seq<Result<Option<Variant>>>)
    ensures |r| == |vs| && forall k :: 0 <= k < |vs| ==> r[k] == ProjectSample(vs[k], sample)
  {
    seq(|vs|, k requires 0 <= k < |vs| => ProjectSample(vs[k], sample))
  }

  /** The `by_sample` loop over `vs`. */
  function SampleFilter(vs: seq<Variant>, sample: string): Result<seq<Variant>> {
    Collect(Projections(vs, sample))
  }

  /** Survivors keep input order: each output row is the projection of a
      distinct input row, at strictly increasing positions, and an input row
      is represented exactly when its projection keeps it. */
  lemma SampleFilterOrigins(vs: seq<Variant>, sample: string) returns (idx: seq<nat>)
    requires SampleFilter(vs, sample).Ok?
    ensures |idx| == |SampleFilter(vs, sample).value|
    ensures forall j :: 0 <= j < |idx| ==>
      idx[j] < |vs| && ProjectSample(vs[idx[j]], sample) == Ok(Some(SampleFilter(vs, sample).value[j]))
    ensures forall j, l :: 0 <= j < l < |idx| ==> idx[j] < idx[l]
    ensures forall k :: 0 <= k < |vs| ==> ProjectSample(vs[k], sample).Ok?
    ensures forall k :: 0 <= k < |vs| ==> (ProjectSample(vs[k], sample).value.Some? <==> k in idx)
  {
    idx := CollectOrigins(Projections(vs, sample));
  }

  /** The loop raises exactly when some row's projection raises, and then it
      raises the exception of the first such row. */
  lemma SampleFilterFirstError(vs: seq<Variant>, sample: string)
    ensures SampleFilter(vs, sample).Err? <==> exists k :: 0 <= k < |vs| && ProjectSample(vs[k], sample).Err?
    ensures SampleFilter(vs, sample).Err? ==>
      exists k :: 0 <= k < |vs| && ProjectSample(vs[k], sample) == Err(SampleFilter(vs, sample).error) &&
        forall j :: 0 <= j < k ==> ProjectSample(vs[j], sample).Ok?
  {
    CollectFirstError(Projections(vs, sample));
  }

  /** The body of the `by_sample` loop on one row: the projected copy, no
      row, or the exception the row raises. */
  method ProjectRow(variant: Variant, sample: string) returns (r: Result<Option<Variant>>)
    ensures r == ProjectSample(variant, sample)
  {
    if variant.samples.None? {
      return Err(AttributeError("tagsampler_new__samples"));
    }
    var names := Split(variant.samples.value, ';');
    if sample !in names {
      return Ok(None);
    }
    var idx := IndexOf(names, sample);
    var passed := PackedAt(variant.filter, idx, "tagsampler_new__filter");
    if passed.Err? {
      return Err(passed.error);
    }
    if passed.value != "PASS" {
      return Ok(None);
    }
    var zygosity := PackedAt(variant.zygosity, idx, "tagsampler_new__zygosity");
    if zygosity.Err? {
      return Err(zygosity.error);
    }
    var ad := PackedAt(variant.ad, idx, "tagsampler_new__ad");
    if ad.Err? {
      return Err(ad.error);
    }
    var dp := PackedAt(variant.dp, idx, "tagsampler_new__dp");
    if dp.Err? {
      return Err(dp.error);
    }
    r := Ok(Some(variant.(zygosity := Some(zygosity.value), ad := Some(Last(Split(ad.value, ','))),
                          dp := Some(dp.value))));
  }

  /** The `by_sample` loop of `filter_variants`, row by row. */
  method ProjectAll(vs: seq<Variant>, sample: string) returns (r: Result<seq<Variant>>)
    ensures r == SampleFilter(vs, sample)
  {
    ghost var steps := Projections(vs, sample);
    var filtered: seq<Variant> := [];
    var i := 0;
    while i < |vs|
      invariant 0 <= i <= |vs|
      invariant Collect(steps[..i]) == Ok(filtered)
    {
      assert steps[..i + 1][..i] == steps[..i];
      assert steps[..i + 1][i] == ProjectSample(vs[i], sample);
      var row := ProjectRow(vs[i], sample);
      if row.Err? {
        CollectStops(steps, i + 1);
        return Err(row.error);
      }
      if row.value.Some? {
        filtered := filtered + [row.value.value];
      }
      i := i + 1;
    }
    assert steps[..i] == steps;
    r := Ok(filtered);
  }

  /** What `ClinReport.filter_variants` returns: the rows of `by_note` when it
      is given, then, when `by_sample` is given, the loop above. */
  function Filtered(vs: seq<Variant>, byNote: NStr, bySample: NStr): Result<seq<Variant>> {
    var selected := if Truthy(byNote) then WithNote(vs, byNote.value) else vs;
    if Truthy(bySample) then SampleFilter(selected, bySample.value) else Ok(selected)
  }

  method FilterVariants(vs: seq<Variant>, byNote: NStr, bySample: NStr) returns (r: Result<seq<Variant>>)
    ensures r == Filtered(vs, byNote, bySample)
  {
    var selected := vs;
    if Truthy(byNote) {
      selected := WithNote(vs, byNote.value);
    }
    if Truthy(bySample) {
      r := ProjectAll(selected, bySample.value);
    } else {
      r := Ok(selected);
    }
  }

  /** What the module-level `filter_variants` returns: it always selects the
      rows of `by_note` first. */
  function AutoFiltered(vs: seq<Variant>, byNote: string, bySample: NStr): Result<seq<Variant>> {
    var selected := WithNote(vs, byNote);
    if Truthy(bySample) then SampleFilter(selected, bySample.value) else Ok(selected)
  }

  method AutoFilterVariants(vs: seq<Variant>, byNote: string, bySample: NStr) returns (r: Result<seq<Variant>>)
    ensures r == AutoFiltered(vs, byNote, bySample)
  {
    var selected := WithNote(vs, byNote);
    if Truthy(bySample) {
      r := ProjectAll(selected, bySample.value);
    } else {
      r := Ok(selected);
    }
  }

  /** Every row the module-level filter returns has the requested note, is
      represented among the input rows of that note, and was kept for the
      sample. */
  lemma AutoFilteredRows(vs: seq<Variant>, byNote: string, sample: string)
    requires AutoFiltered(vs, byNote, Some(sample)).Ok? && sample != ""
    ensures forall w :: w in AutoFiltered(vs, byNote, Some(sample)).value ==>
      w.note == byNote && exists v :: v in vs && v.note == byNote && ProjectSample(v, sample) == Ok(Some(w))
  {
    var selected := WithNote(vs, byNote);
    var idx := SampleFilterOrigins(selected, sample);
    var out := SampleFilter(selected, sample).value;
    forall w | w in out
      ensures w.note == byNote && exists v :: v in vs && v.note == byNote && ProjectSample(v, sample) == Ok(Some(w))
    {
      var j :| 0 <= j < |out| && out[j] == w;
      var v := selected[idx[j]];
      assert v in selected;
      assert ProjectSample(v, sample) == Ok(Some(w));
    }
  }
}
