/** The sliding-window sample builder both forecasting notebooks use, and their train/test cut.
    A data frame's values are a rectangular matrix: a sequence of rows of one common width. */
module Sequences {
  import opened Wrappers

  /** Why `create_sequences` raises: `ValueError` for too few rows, and numpy's `IndexError`
      when the matrix has no column 1 to take targets from. */
  datatype SequenceError = NotEnoughData | NoColumnOne

  predicate Rectangular<T>(data: seq<seq<T>>, width: nat) {
    forall r :: 0 <= r < |data| ==> |data[r]| == width
  }

  /** `m[lo:hi, 1]`: column 1 of a run of rows. */
  function ColumnOne<T>(rows: seq<seq<T>>): (col: seq<T>)
    requires forall r :: 0 <= r < |rows| ==> |rows[r]| >= 2
    ensures |col| == |rows|
    ensures forall r :: 0 <= r < |rows| ==> col[r] == rows[r][1]
  {
    seq(|rows|, r requires 0 <= r < |rows| => rows[r][1])
  }

  /** How many samples `range(len(data) - input_size - output_size + 1)` yields. */
  function SampleCount(rows: nat, inputSize: nat, outputSize: nat): nat
    requires rows >= inputSize + outputSize
  {
    rows - inputSize - outputSize + 1
  }

  /** The samples: the `inputSize` rows starting at each window position. */
  function Windows<T>(data: seq<seq<T>>, inputSize: nat, outputSize: nat): (xs: seq<seq<seq<T>>>)
    requires |data| >= inputSize + outputSize
    ensures |xs| == SampleCount(|data|, inputSize, outputSize)
    ensures forall i :: 0 <= i < |xs| ==> xs[i] == data[i..i + inputSize]
  {
    var n := SampleCount(|data|, inputSize, outputSize);
    seq(n, i requires 0 <= i < n => data[i..i + inputSize])
  }

  /** The targets: column 1 of the `outputSize` rows right after each sample. */
  function Targets<T>(data: seq<seq<T>>, width: nat, inputSize: nat, outputSize: nat): (ys: seq<seq<T>>)
    requires Rectangular(data, width) && width >= 2
    requires |data| >= inputSize + outputSize
    ensures |ys| == SampleCount(|data|, inputSize, outputSize)
    ensures forall i :: 0 <= i < |ys| ==> ys[i] == ColumnOne(data[i + inputSize..i + inputSize + outputSize])
  {
    var n := SampleCount(|data|, inputSize, outputSize);
    seq(n, i requires 0 <= i < n => ColumnOne(data[i + inputSize..i + inputSize + outputSize]))
  }

  /** What `create_sequences` returns: an error exactly when there are too few rows for one
      window or no column 1, and otherwise the samples and their targets. */
  function Samples<T>(data: seq<seq<T>>, width: nat, inputSize: nat, outputSize: nat): (r: Result<(seq<seq<seq<T>>>, seq<seq<T>>), SequenceError>)
    requires Rectangular(data, width)
    ensures r.Err? <==> |data| < inputSize + outputSize || width < 2
    ensures r.Err? ==> r.error == if |data| < inputSize + outputSize then NotEnoughData else NoColumnOne
  {
    if |data| < inputSize + outputSize then Err(NotEnoughData)
    else if width < 2 then Err(NoColumnOne)
    else Ok((Windows(data, inputSize, outputSize), Targets(data, width, inputSize, outputSize)))
  }

  /** `create_sequences(data, input_size, output_size)`: the loop appends one sample and one
      target per window position. */
  method CreateSequences<T>(data: seq<seq<T>>, width: nat, inputSize: nat, outputSize: nat)
    returns (r: Result<(seq<seq<seq<T>>>, seq<seq<T>>), SequenceError>)
    requires Rectangular(data, width)
    ensures r == Samples(data, width, inputSize, outputSize)
  {
    if |data| < inputSize + outputSize {
      return Err(NotEnoughData);
    }
    if width < 2 {
      return Err(NoColumnOne);
    }
    var xs: seq<seq<seq<T>>> := [];
    var ys: seq<seq<T>> := [];
    for i := 0 to |data| - inputSize - outputSize + 1
      invariant |xs| == i && |ys| == i
      invariant forall k :: 0 <= k < i ==> xs[k] == data[k..k + inputSize]
      invariant forall k :: 0 <= k < i ==> ys[k] == ColumnOne(data[k + inputSize..k + inputSize + outputSize])
    {
      xs := xs + [data[i..i + inputSize]];
      ys := ys + [ColumnOne(data[i + inputSize..i + inputSize + outputSize])];
    }
    assert xs == Windows(data, inputSize, outputSize);
    assert ys == Targets(data, width, inputSize, outputSize);
    r := Ok((xs, ys));
  }

  /** Neighbouring samples overlap: the next sample is this one without its first row, followed
      by the row that comes after it. */
  lemma SamplesSlide<T>(data: seq<seq<T>>, width: nat, inputSize: nat, outputSize: nat, i: nat)
    requires Rectangular(data, width)
    requires Samples(data, width, inputSize, outputSize).Ok?
    requires inputSize > 0 && i + 1 < |Samples(data, width, inputSize, outputSize).value.0|
    ensures var xs := Samples(data, width, inputSize, outputSize).value.0;
      xs[i + 1] == xs[i][1..] + [data[i + inputSize]]
  {
    var xs := Samples(data, width, inputSize, outputSize).value.0;
    assert xs[i + 1] == data[i + 1..i + 1 + inputSize];
    assert xs[i] == data[i..i + inputSize];
  }

  /** A target never overlaps its own sample: its rows start right where the sample ends. */
  lemma TargetFollowsSample<T>(data: seq<seq<T>>, width: nat, inputSize: nat, outputSize: nat, i: nat, j: nat)
    requires Rectangular(data, width)
    requires Samples(data, width, inputSize, outputSize).Ok?
    requires i < |Samples(data, width, inputSize, outputSize).value.0| && j < outputSize
    ensures Samples(data, width, inputSize, outputSize).value.1[i][j] == data[i + inputSize + j][1]
  {
    var ys := Samples(data, width, inputSize, outputSize).value.1;
    assert ys[i] == ColumnOne(data[i + inputSize..i + inputSize + outputSize]);
    assert data[i + inputSize..i + inputSize + outputSize][j] == data[i + inputSize + j];
  }

  /** The window sizes both notebooks use: 400 rows in, one row out. */
  const InputShape: nat := 400
  const OutputShape: nat := 1

  /** With those sizes a frame of `n` rows gives `n - 400` samples, and each target is the single
      column-1 value of the row right after its sample. */
  lemma NotebookSamples<T>(data: seq<seq<T>>, width: nat, i: nat)
    requires Rectangular(data, width) && width >= 2 && |data| > InputShape
    requires i < |data| - InputShape
    ensures var r := Samples(data, width, InputShape, OutputShape);
      && r.Ok?
      && |r.value.0| == |data| - InputShape
      && r.value.1[i] == [data[i + InputShape][1]]
  {
    var ys := Samples(data, width, InputShape, OutputShape).value.1;
    assert ys[i] == ColumnOne(data[i + InputShape..i + InputShape + OutputShape]);
    assert data[i + InputShape..i + InputShape + OutputShape] == [data[i + InputShape]];
  }

  /** Python's `xs[:k]` and `xs[k:]`, which clip a cut past the end. */
  function Head<T>(xs: seq<T>, k: nat): seq<T> {
    if k <= |xs| then xs[..k] else xs
  }

  function Tail<T>(xs: seq<T>, k: nat): seq<T> {
    if k <= |xs| then xs[k..] else []
  }

  /** `X[:split_index+1], X[split_index+1:]`. The split index comes from the row count of the
      frame, not the sample count, so the cut may lie past the end and leave no test samples. */
  function TrainTest<T>(xs: seq<T>, splitIndex: nat): (parts: (seq<T>, seq<T>)) {
    (Head(xs, splitIndex + 1), Tail(xs, splitIndex + 1))
  }

  /** The two parts concatenate back to the input, the training part has `split_index + 1`
      samples (or all of them), and the test part follows it. */
  lemma TrainTestPartition<T>(xs: seq<T>, splitIndex: nat)
    ensures var (train, test) := TrainTest(xs, splitIndex);
      && train + test == xs
      && |train| == (if splitIndex + 1 <= |xs| then splitIndex + 1 else |xs|)
      && (splitIndex + 1 >= |xs| ==> test == [])
  {
    var (train, test) := TrainTest(xs, splitIndex);
    if splitIndex + 1 <= |xs| {
      assert xs[..splitIndex + 1] + xs[splitIndex + 1..] == xs;
    }
  }

  /** Cutting samples and targets at the same index keeps them paired: the `i`-th training or
      test sample still goes with the `i`-th training or test target. */
  lemma TrainTestAligned<A, B>(xs: seq<A>, ys: seq<B>, splitIndex: nat)
    requires |xs| == |ys|
    ensures |TrainTest(xs, splitIndex).0| == |TrainTest(ys, splitIndex).0|
    ensures |TrainTest(xs, splitIndex).1| == |TrainTest(ys, splitIndex).1|
    ensures var k := |TrainTest(xs, splitIndex).0|;
      forall j :: 0 <= j < |TrainTest(xs, splitIndex).1| ==>
        TrainTest(xs, splitIndex).1[j] == xs[k + j] && TrainTest(ys, splitIndex).1[j] == ys[k + j]
  {
  }
}
