/** Assembly of the training set (X, Y) across consecutive seasons, the loop
    that `svm_tuned` and `return_training_data` share in svm_classifier.py.

    The data loader, `clean_data` and `get_training` live outside this model;
    the loaded seasons are a parameter, and the two functions are parameters
    whose behaviour is left open. */
module SeasonAccumulation {
  import opened ScalerSelection

  /** The loop leaves X and Y unbound when it never runs; Python then raises
      at their first use. */
  datatype Error = UnboundTrainingData

  datatype Result<T> = Success(value: T) | Failure(error: Error)

  /** The default year range of `svm_tuned` (`START_YEAR`, `END_YEAR`). */
  const DefaultStartYear: int := 2003
  const DefaultEndYear: int := 2019

  /** Concatenation of chunks in order. */
  function Flatten<T>(chunks: seq<seq<T>>): seq<T>
  {
    if chunks == [] then [] else Flatten(chunks[..|chunks| - 1]) + chunks[|chunks| - 1]
  }

  /** The sum of the chunks' lengths. */
  function TotalLength<T>(chunks: seq<seq<T>>): nat
  {
    if chunks == [] then 0 else TotalLength(chunks[..|chunks| - 1]) + |chunks[|chunks| - 1]|
  }

  /** `range(0, end_year - start_year)` has this many elements. */
  function TransitionCount(startYear: int, endYear: int): (n: nat)
    ensures n > 0 <==> endYear > startYear
    ensures n > 0 ==> startYear + n == endYear
  {
    if endYear > startYear then endYear - startYear else 0
  }

  /** Step `i` of the loop: the cleaned seasons `i` and `i + 1`, the raw
      season `i + 1` and the calendar year `startYear + i + 1`. */
  function Transition<Raw, Clean, Row, Label>(
    seasons: seq<Raw>, startYear: int, i: nat,
    clean: Raw -> Clean, getTraining: (Clean, Clean, Raw, int) -> (seq<Row>, seq<Label>)
  ): (seq<Row>, seq<Label>)
    requires i + 1 < |seasons|
  {
    getTraining(clean(seasons[i]), clean(seasons[i + 1]), seasons[i + 1], startYear + i + 1)
  }

  /** The X chunks of the first `n` transitions, in loop order. */
  function FeatureChunks<Raw, Clean, Row, Label>(
    seasons: seq<Raw>, startYear: int, n: nat,
    clean: Raw -> Clean, getTraining: (Clean, Clean, Raw, int) -> (seq<Row>, seq<Label>)
  ): (chunks: seq<seq<Row>>)
    requires n == 0 || n < |seasons|
    ensures |chunks| == n
  {
    seq(n, i requires 0 <= i < n => Transition(seasons, startYear, i, clean, getTraining).0)
  }

  /** The Y chunks of the first `n` transitions, in loop order. */
  function LabelChunks<Raw, Clean, Row, Label>(
    seasons: seq<Raw>, startYear: int, n: nat,
    clean: Raw -> Clean, getTraining: (Clean, Clean, Raw, int) -> (seq<Row>, seq<Label>)
  ): (chunks: seq<seq<Label>>)
    requires n == 0 || n < |seasons|
    ensures |chunks| == n
  {
    seq(n, i requires 0 <= i < n => Transition(seasons, startYear, i, clean, getTraining).1)
  }

  /** The season loop. The first step binds X and Y to its chunks and every
      later step extends them (`+=` on lists); when the range is empty the
      loop never binds them and the result is the error. `seasons` holds the
      batches the loader read, one per year from `startYear` on. */
  method BuildTrainingData<Raw, Clean, Row, Label>(
    seasons: seq<Raw>, startYear: int, endYear: int,
    clean: Raw -> Clean, getTraining: (Clean, Clean, Raw, int) -> (seq<Row>, seq<Label>)
  ) returns (r: Result<(seq<Row>, seq<Label>)>)
    requires endYear > startYear ==> endYear - startYear < |seasons|
    ensures r.Failure? <==> endYear <= startYear
    ensures r.Success? ==>
      r.value.0 == Flatten(FeatureChunks(seasons, startYear, TransitionCount(startYear, endYear), clean, getTraining))
    ensures r.Success? ==>
      r.value.1 == Flatten(LabelChunks(seasons, startYear, TransitionCount(startYear, endYear), clean, getTraining))
  {
    var n := TransitionCount(startYear, endYear);
    ghost var xs := FeatureChunks(seasons, startYear, n, clean, getTraining);
    ghost var ys := LabelChunks(seasons, startYear, n, clean, getTraining);
    var bound := false;
    var x: seq<Row> := [];
    var y: seq<Label> := [];
    for i := 0 to n
      invariant bound <==> i > 0
      invariant x == Flatten(xs[..i])
      invariant y == Flatten(ys[..i])
    {
      var step := Transition(seasons, startYear, i, clean, getTraining);
      assert xs[..i + 1][..i] == xs[..i] && ys[..i + 1][..i] == ys[..i];
      if i == 0 {
        x, y := step.0, step.1;
        bound := true;
      } else {
        x := x + step.0;
        y := y + step.1;
      }
    }
    assert xs[..n] == xs && ys[..n] == ys;
    if bound {
      r := Success((x, y));
    } else {
      r := Failure(UnboundTrainingData);
    }
  }

  /** `return_training_data`: the same loop over the fixed range 2018 to
      2019, i.e. exactly one transition. */
  method ReturnTrainingData<Raw, Clean, Row, Label>(
    seasons: seq<Raw>,
    clean: Raw -> Clean, getTraining: (Clean, Clean, Raw, int) -> (seq<Row>, seq<Label>)
  ) returns (r: Result<(seq<Row>, seq<Label>)>)
    requires |seasons| > 1
    ensures r == Success(getTraining(clean(seasons[0]), clean(seasons[1]), seasons[1], 2019))
  {
    r := BuildTrainingData(seasons, 2018, 2019, clean, getTraining);
    var step := Transition(seasons, 2018, 0, clean, getTraining);
    assert Flatten([step.0]) == step.0 by { assert [step.0][..0] == []; }
    assert Flatten([step.1]) == step.1 by { assert [step.1][..0] == []; }
    assert FeatureChunks(seasons, 2018, 1, clean, getTraining) == [step.0];
    assert LabelChunks(seasons, 2018, 1, clean, getTraining) == [step.1];
  }

  /** The part of `svm_tuned` before the scikit-learn calls: the training
      set, and the scaler that the tag selects for it. */
  method PrepareTrainingInput<Raw, Clean, Row, Label>(
    seasons: seq<Raw>, startYear: int, endYear: int, tag: string,
    clean: Raw -> Clean, getTraining: (Clean, Clean, Raw, int) -> (seq<Row>, seq<Label>)
  ) returns (r: Result<(ScalerKind, seq<Row>, seq<Label>)>)
    requires endYear > startYear ==> endYear - startYear < |seasons|
    ensures r.Failure? <==> endYear <= startYear
    ensures r.Success? ==> r.value.0 == SelectScaler(tag)
    ensures r.Success? ==>
      r.value.1 == Flatten(FeatureChunks(seasons, startYear, TransitionCount(startYear, endYear), clean, getTraining))
    ensures r.Success? ==>
      r.value.2 == Flatten(LabelChunks(seasons, startYear, TransitionCount(startYear, endYear), clean, getTraining))
  {
    var data := BuildTrainingData(seasons, startYear, endYear, clean, getTraining);
    var kind := SelectScaler(tag);
    match data
    case Success((x, y)) => r := Success((kind, x, y));
    case Failure(e) => r := Failure(e);
  }

  /** `svm_tuned()` called with its defaults: the years 2003 to 2019 give
      sixteen transitions, and `G_VAL` selects the uniform quantile
      transformer. */
  method PrepareDefaultTrainingInput<Raw, Clean, Row, Label>(
    seasons: seq<Raw>,
    clean: Raw -> Clean, getTraining: (Clean, Clean, Raw, int) -> (seq<Row>, seq<Label>)
  ) returns (r: Result<(ScalerKind, seq<Row>, seq<Label>)>)
    requires |seasons| > 16
    ensures r.Success? && r.value.0 == QuantileUniform
    ensures TransitionCount(DefaultStartYear, DefaultEndYear) == 16
    ensures r.value.1 == Flatten(FeatureChunks(seasons, DefaultStartYear, 16, clean, getTraining))
    ensures r.value.2 == Flatten(LabelChunks(seasons, DefaultStartYear, 16, clean, getTraining))
  {
    r := PrepareTrainingInput(seasons, DefaultStartYear, DefaultEndYear, DefaultScalerTag, clean, getTraining);
    UnrecognisedTagsFallBack();
  }

  /** The length of a concatenation is the sum of the chunk lengths. */
  lemma {:induction false} FlattenLength<T>(chunks: seq<seq<T>>)
    ensures |Flatten(chunks)| == TotalLength(chunks)
  {
    if chunks != [] {
      FlattenLength(chunks[..|chunks| - 1]);
    }
  }

  lemma {:induction false} FlattenAppend<T>(a: seq<seq<T>>, b: seq<seq<T>>)
    ensures Flatten(a + b) == Flatten(a) + Flatten(b)
  {
    if b == [] {
      assert a + b == a;
    } else {
      var n := |b| - 1;
      assert (a + b)[..|a + b| - 1] == a + b[..n];
      FlattenAppend(a, b[..n]);
    }
  }

  /** Chunk `i` sits, unchanged, after the chunks before it and before the
      chunks after it. */
  lemma {:induction false} FlattenInOrder<T>(chunks: seq<seq<T>>, i: nat)
    requires i < |chunks|
    ensures Flatten(chunks) == Flatten(chunks[..i]) + chunks[i] + Flatten(chunks[i + 1..])
  {
    var before, here, after := chunks[..i], [chunks[i]], chunks[i + 1..];
    assert chunks == (before + here) + after;
    FlattenAppend(before + here, after);
    FlattenAppend(before, here);
    assert here[..0] == [];
  }

  /** Chunks of equal lengths concatenate to sequences of equal length. */
  lemma {:induction false} BalancedChunks<T, U>(xs: seq<seq<T>>, ys: seq<seq<U>>)
    requires |xs| == |ys|
    requires forall i :: 0 <= i < |xs| ==> |xs[i]| == |ys[i]|
    ensures |Flatten(xs)| == |Flatten(ys)|
  {
    if xs != [] {
      BalancedChunks(xs[..|xs| - 1], ys[..|ys| - 1]);
    }
  }

  /** When every transition yields as many labels as feature rows, the whole
      training set has as many labels as rows. */
  lemma TrainingSetBalanced<Raw, Clean, Row, Label>(
    seasons: seq<Raw>, startYear: int, n: nat,
    clean: Raw -> Clean, getTraining: (Clean, Clean, Raw, int) -> (seq<Row>, seq<Label>)
  )
    requires n < |seasons|
    requires forall i :: 0 <= i < n ==>
      |Transition(seasons, startYear, i, clean, getTraining).0| == |Transition(seasons, startYear, i, clean, getTraining).1|
    ensures |Flatten(FeatureChunks(seasons, startYear, n, clean, getTraining))|
         == |Flatten(LabelChunks(seasons, startYear, n, clean, getTraining))|
  {
    BalancedChunks(FeatureChunks(seasons, startYear, n, clean, getTraining),
                   LabelChunks(seasons, startYear, n, clean, getTraining));
  }
}
