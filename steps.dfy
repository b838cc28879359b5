/** The two loop shapes of the source that build a list and may raise on
    an element: a filter that keeps, skips or raises per element, and a map
    that produces or raises per element.  Stated once over the sequence of
    per-element outcomes, so that the loops' properties are proved once. */
module Steps {
  import opened Base

  /** A loop that, step by step, keeps a value, skips, or raises: the kept
      values in order, or the exception of the first step that raises. */
  function Collect<T>(steps: seq<Result<Option<T>>>): Result<seq<T>>
    decreases |steps|
  {
    if |steps| == 0 then Ok([])
    else
      var kept :- Collect(steps[..|steps| - 1]);
      var p :- steps[|steps| - 1];
      Ok(if p.Some? then kept + [p.value] else kept)
  }

  /** The kept values keep the order of the steps: each is the value of a
      distinct step, at strictly increasing positions, and a step is
      represented exactly when it keeps a value. */
  lemma {:induction false} CollectOrigins<T>(steps: seq<Result<Option<T>>>) returns (idx: seq<nat>)
    requires Collect(steps).Ok?
    ensures |idx| == |Collect(steps).value|
    ensures forall j :: 0 <= j < |idx| ==> idx[j] < |steps| && steps[idx[j]] == Ok(Some(Collect(steps).value[j]))
    ensures forall j, l :: 0 <= j < l < |idx| ==> idx[j] < idx[l]
    ensures forall k :: 0 <= k < |steps| ==> steps[k].Ok?
    ensures forall k :: 0 <= k < |steps| ==> (steps[k].value.Some? <==> k in idx)
    decreases |steps|
  {
    if |steps| == 0 {
      idx := [];
    } else {
      var n := |steps| - 1;
      var init := steps[..n];
      var rest := CollectOrigins(init);
      assert forall k :: 0 <= k < n ==> init[k] == steps[k];
      var kept := Collect(init).value;
      assert steps[n].Ok?;
      if steps[n].value.Some? {
        idx := rest + [n];
        assert Collect(steps).value == kept + [steps[n].value.value];
        forall k | 0 <= k < |steps|
          ensures steps[k].value.Some? <==> k in idx
        {
          assert k in idx <==> k in rest || k == n;
        }
      } else {
        idx := rest;
        assert Collect(steps).value == kept;
        forall k | 0 <= k < |steps|
          ensures steps[k].value.Some? <==> k in idx
        {
          assert k in rest ==> k < n;
        }
      }
    }
  }

  /** The loop raises exactly when some step raises, and then it raises the
      exception of the first such step. */
  lemma {:induction false} CollectFirstError<T>(steps: seq<Result<Option<T>>>)
    ensures Collect(steps).Err? <==> exists k :: 0 <= k < |steps| && steps[k].Err?
    ensures Collect(steps).Err? ==>
      exists k :: 0 <= k < |steps| && steps[k] == Err(Collect(steps).error) &&
        forall j :: 0 <= j < k ==> steps[j].Ok?
    decreases |steps|
  {
    if |steps| > 0 {
      var n := |steps| - 1;
      var init := steps[..n];
      CollectFirstError(init);
      assert forall k :: 0 <= k < n ==> init[k] == steps[k];
      if Collect(init).Err? {
        var k :| 0 <= k < n && init[k] == Err(Collect(init).error) && forall j :: 0 <= j < k ==> init[j].Ok?;
        assert steps[k] == Err(Collect(steps).error);
      } else if steps[n].Err? {
        assert forall j :: 0 <= j < n ==> steps[j].Ok?;
      } else {
        forall k | 0 <= k < |steps|
          ensures steps[k].Ok?
        {
          if k < n {
            assert init[k].Ok?;
          }
        }
      }
    }
  }

  /** Once a prefix of the steps raises, the whole loop raises that
      exception. */
  lemma {:induction false} CollectStops<T>(steps: seq<Result<Option<T>>>, i: nat)
    requires i <= |steps| && Collect(steps[..i]).Err?
    ensures Collect(steps) == Collect(steps[..i])
    decreases |steps| - i
  {
    if i < |steps| {
      assert steps[..i + 1][..i] == steps[..i];
      CollectStops(steps, i + 1);
    } else {
      assert steps[..i] == steps;
    }
  }

  /** A loop that produces one value per element or raises: the values in
      order, or the exception of the first element that raises. */
  function Gather<T>(steps: seq<Result<T>>): Result<seq<T>>
    decreases |steps|
  {
    if |steps| == 0 then Ok([])
    else
      var prev :- Gather(steps[..|steps| - 1]);
      var x :- steps[|steps| - 1];
      Ok(prev + [x])
  }

  /** The loop raises exactly when some element raises. */
  lemma {:induction false} GatherOk<T>(steps: seq<Result<T>>)
    ensures Gather(steps).Ok? <==> forall j :: 0 <= j < |steps| ==> steps[j].Ok?
    decreases |steps|
  {
    if |steps| > 0 {
      var n := |steps| - 1;
      var init := steps[..n];
      GatherOk(init);
      assert forall j :: 0 <= j < n ==> init[j] == steps[j];
      if Gather(init).Err? {
        var j :| 0 <= j < n && !init[j].Ok?;
        assert !steps[j].Ok?;
      }
    }
  }

  /** On success there is one value per element, in order. */
  lemma {:induction false} GatherEach<T>(steps: seq<Result<T>>)
    requires Gather(steps).Ok?
    ensures |Gather(steps).value| == |steps|
    ensures forall j :: 0 <= j < |steps| ==> steps[j] == Ok(Gather(steps).value[j])
    decreases |steps|
  {
    if |steps| > 0 {
      var n := |steps| - 1;
      var init := steps[..n];
      GatherEach(init);
      assert forall j :: 0 <= j < n ==> init[j] == steps[j];
    }
  }

  /** On failure the exception is that of the first element that raises. */
  lemma {:induction false} GatherFirstError<T>(steps: seq<Result<T>>)
    requires Gather(steps).Err?
    ensures exists k :: (0 <= k < |steps| && steps[k] == Err(Gather(steps).error) &&
                         forall j :: 0 <= j < k ==> steps[j].Ok?)
    decreases |steps|
  {
    var n := |steps| - 1;
    var init := steps[..n];
    assert forall j :: 0 <= j < n ==> init[j] == steps[j];
    if Gather(init).Err? {
      GatherFirstError(init);
      var k :| 0 <= k < n && init[k] == Err(Gather(init).error) && forall j :: 0 <= j < k ==> init[j].Ok?;
      assert steps[k] == Err(Gather(steps).error);
    } else {
      GatherOk(init);
      assert steps[n] == Err(Gather(steps).error);
    }
  }

  /** One more element that produces a value. */
  lemma GatherNext<T>(steps: seq<Result<T>>, i: nat, values: seq<T>, x: T)
    requires i < |steps| && Gather(steps[..i]) == Ok(values) && steps[i] == Ok(x)
    ensures Gather(steps[..i + 1]) == Ok(values + [x])
  {
    assert steps[..i + 1][..i] == steps[..i];
  }

  lemma {:induction false} GatherStops<T>(steps: seq<Result<T>>, i: nat)
    requires i <= |steps| && Gather(steps[..i]).Err?
    ensures Gather(steps) == Gather(steps[..i])
    decreases |steps| - i
  {
    if i < |steps| {
      assert steps[..i + 1][..i] == steps[..i];
      GatherStops(steps, i + 1);
    } else {
      assert steps[..i] == steps;
    }
  }
}
