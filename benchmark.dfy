/**
 * The benchmark runner: a static table of models and input sizes, the two
 * lookups with their fallbacks, the timing loops of one measurement, the
 * triple loop over active models, input sizes and batch sizes that skips a
 * model that cannot be loaded and a point that cannot be measured, and the
 * guard that refuses to save an empty result list.
 *
 * Everything that runs a network is an oracle: whether a model loads (is
 * created, moved to the device and counted), and for each (model, input size,
 * batch size) point whether its `try` block completes and, if so, how many
 * batches its loader yields and how long each measured forward pass takes.
 */
module Benchmark {
  import opened Wrappers

  // ---------------------------------------------------------------------------
  // Configuration
  // ---------------------------------------------------------------------------

  /** One row of the model table: the input sizes to try and the default size. */
  datatype ModelConfig = ModelConfig(inputSizes: seq<nat>, defaultSize: nat)

  datatype Device = Musa | Cuda | Cpu

  datatype BenchmarkConfig = BenchmarkConfig(
    batchSizes: seq<nat>,
    modelConfigs: map<string, ModelConfig>,
    activeModels: seq<string>,
    numWarmup: nat,
    numIterations: nat,
    device: Device)

  /** The preferred accelerator: MUSA when present, else CUDA, else the CPU. */
  function SelectDevice(musaAvailable: bool, cudaAvailable: bool): (d: Device)
    ensures d == Musa <==> musaAvailable
    ensures d == Cuda <==> !musaAvailable && cudaAvailable
    ensures d == Cpu <==> !musaAvailable && !cudaAvailable
  {
    if musaAvailable then Musa else if cudaAvailable then Cuda else Cpu
  }

  const Standard := ModelConfig([224, 384], 224)
  const Fixed224 := ModelConfig([224], 224)

  /** The models tried at 224 and 384 pixels, 224 by default. */
  const StandardModels: set<string> := {
    "resnet18", "resnet34", "resnet50", "resnet101", "resnet152",
    "resnext50_32x4d", "resnext101_32x8d",
    "densenet121", "densenet169", "densenet201",
    "efficientnetv2_s", "efficientnetv2_m", "efficientnetv2_l",
    "mobilenetv2_100", "mobilenetv3_small_100", "mobilenetv3_large_100",
    "convnext_tiny", "convnext_small", "convnext_base", "convnext_large",
    "regnet_y_400mf", "regnet_y_800mf", "regnet_y_1_6gf", "regnet_y_3_2gf", "regnet_y_8gf",
    "coatnet_0", "coatnet_1", "coatnet_2",
    "maxvit_tiny", "maxvit_small", "maxvit_base",
    "repvgg_a0", "repvgg_b0", "repvgg_b1" }

  /** The models tried at 224 pixels only. */
  const Fixed224Models: set<string> := {
    "vit_tiny_patch16_224", "vit_small_patch16_224", "vit_base_patch16_224", "vit_large_patch16_224",
    "deit_tiny_patch16_224", "deit_small_patch16_224", "deit_base_patch16_224",
    "swin_tiny_patch4_window7_224", "swin_small_patch4_window7_224",
    "swin_base_patch4_window7_224", "swin_large_patch4_window7_224",
    "eva_large_patch14_224", "eva_giant_patch14_224" }

  /** The EfficientNet rows, each with its own pair of sizes. */
  function EfficientNets(): map<string, ModelConfig> {
    map[
      "efficientnet_b0" := ModelConfig([224, 240], 224),
      "efficientnet_b1" := ModelConfig([240, 260], 240),
      "efficientnet_b2" := ModelConfig([260, 288], 260),
      "efficientnet_b3" := ModelConfig([300, 320], 300),
      "efficientnet_b4" := ModelConfig([380, 400], 380),
      "efficientnet_b5" := ModelConfig([456, 476], 456),
      "efficientnet_b6" := ModelConfig([528, 548], 528),
      "efficientnet_b7" := ModelConfig([600, 620], 600)
    ]
  }

  /** The table of known models: 55 rows, grouped by their sizes. */
  function ModelConfigs(): map<string, ModelConfig> {
    (map m | m in StandardModels :: Standard) + (map m | m in Fixed224Models :: Fixed224) + EfficientNets()
  }

  function ActiveModels(): seq<string> {
    [ "resnet50", "resnet101", "resnet152",
      "densenet121", "mobilenetv2_100",
      "efficientnet_b0", "efficientnet_b1", "efficientnet_b2",
      "vit_small_patch16_224", "vit_base_patch16_224", "vit_large_patch16_224" ]
  }

  /** The configuration the runner builds, given which accelerators are present. */
  function NewConfig(musaAvailable: bool, cudaAvailable: bool): (c: BenchmarkConfig)
    ensures c.batchSizes == [1, 4, 16, 64, 128]
    ensures c.numWarmup == 10 && c.numIterations == 50
    ensures c.device == SelectDevice(musaAvailable, cudaAvailable)
  {
    BenchmarkConfig([1, 4, 16, 64, 128], ModelConfigs(), ActiveModels(), 10, 50, SelectDevice(musaAvailable, cudaAvailable))
  }

  /** The input sizes to try for a model: its row of the table, or 224 alone for a model the table lacks. */
  function InputSizes(config: BenchmarkConfig, model: string): (sizes: seq<nat>)
    ensures model in config.modelConfigs ==> sizes == config.modelConfigs[model].inputSizes
    ensures model !in config.modelConfigs ==> sizes == [224]
  {
    if model in config.modelConfigs then config.modelConfigs[model].inputSizes else [224]
  }

  /** The default input size of a model: its row of the table, or 224 for a model the table lacks. */
  function DefaultSize(config: BenchmarkConfig, model: string): (size: nat)
    ensures model in config.modelConfigs ==> size == config.modelConfigs[model].defaultSize
    ensures model !in config.modelConfigs ==> size == 224
  {
    if model in config.modelConfigs then config.modelConfigs[model].defaultSize else 224
  }

  // ---------------------------------------------------------------------------
  // One measurement
  // ---------------------------------------------------------------------------

  /** A wall-clock duration of one forward pass. */
  type Seconds = r: real | r > 0.0 witness 1.0

  /** The statistics kept of a list of samples. */
  datatype Timing = Timing(mean: Seconds, min: Seconds, max: Seconds)

  function Min(a: nat, b: nat): nat {
    if a <= b then a else b
  }

  /** The first `n` measured durations, in order. */
  function Samples(n: nat, elapsed: nat -> Seconds): (times: seq<Seconds>)
    ensures |times| == n && forall i :: 0 <= i < n ==> times[i] == elapsed(i)
  {
    if n == 0 then [] else Samples(n - 1, elapsed) + [elapsed(n - 1)]
  }

  function Sum(times: seq<Seconds>): real {
    if times == [] then 0.0 else Sum(times[..|times| - 1]) + times[|times| - 1]
  }

  function Minimum(times: seq<Seconds>): (m: Seconds)
    requires times != []
    ensures m in times && forall i :: 0 <= i < |times| ==> m <= times[i]
  {
    if |times| == 1 then times[0]
    else
      var rest := Minimum(times[..|times| - 1]);
      assert forall i :: 0 <= i < |times| - 1 ==> times[..|times| - 1][i] == times[i];
      if times[|times| - 1] < rest then times[|times| - 1] else rest
  }

  function Maximum(times: seq<Seconds>): (m: Seconds)
    requires times != []
    ensures m in times && forall i :: 0 <= i < |times| ==> times[i] <= m
  {
    if |times| == 1 then times[0]
    else
      var rest := Maximum(times[..|times| - 1]);
      assert forall i :: 0 <= i < |times| - 1 ==> times[..|times| - 1][i] == times[i];
      if rest < times[|times| - 1] then times[|times| - 1] else rest
  }

  /** The sum lies between the count times the smallest and the count times the largest sample. */
  lemma {:induction false} SumBetween(times: seq<Seconds>, lo: real, hi: real)
    requires forall i :: 0 <= i < |times| ==> lo <= times[i] <= hi
    ensures |times| as real * lo <= Sum(times) <= |times| as real * hi
  {
    if times != [] {
      var n := |times| - 1;
      assert forall i :: 0 <= i < n ==> times[..n][i] == times[i];
      SumBetween(times[..n], lo, hi);
    }
  }

  lemma QuotientBetween(s: real, n: real, lo: real, hi: real)
    requires n > 0.0 && n * lo <= s <= n * hi
    ensures lo <= s / n <= hi
  {
    assert s / n * n == s;
  }

  /** The arithmetic mean, which lies between the smallest and the largest sample. */
  function Mean(times: seq<Seconds>): (mean: Seconds)
    requires times != []
    ensures Minimum(times) <= mean <= Maximum(times)
  {
    var total, count, lo, hi := Sum(times), |times| as real, Minimum(times), Maximum(times);
    SumBetween(times, lo, hi);
    QuotientBetween(total, count, lo, hi);
    total / count
  }

  /**
   * Mean, minimum and maximum of the samples, or nothing when there are none
   * (the minimum of an empty list raises).
   */
  function Summarize(times: seq<Seconds>): (t: Option<Timing>)
    ensures t.None? <==> times == []
    ensures t.Some? ==>
      && t.value.min in times && t.value.max in times
      && (forall i :: 0 <= i < |times| ==> t.value.min <= times[i] <= t.value.max)
      && t.value.min <= t.value.mean <= t.value.max
  {
    if times == [] then None else Some(Timing(Mean(times), Minimum(times), Maximum(times)))
  }

  /**
   * One measurement over a loader of `batches` batches: a warm-up pass over
   * the first `numWarmup` batches, which records nothing, then a timed pass
   * over the first `numIterations` batches; `elapsed(i)` is the duration of
   * the `i`-th timed forward pass.  `passes` counts the forward passes run.
   */
  method MeasureInferenceTime(batches: nat, config: BenchmarkConfig, elapsed: nat -> Seconds)
    returns (timing: Option<Timing>, passes: nat)
    ensures timing == Summarize(Samples(Min(batches, config.numIterations), elapsed))
    ensures passes == Min(batches, config.numWarmup) + Min(batches, config.numIterations)
  {
    var i := 0;
    while i < batches
      invariant i <= batches && i <= config.numWarmup
    {
      if i >= config.numWarmup {
        break;
      }
      i := i + 1;
    }
    passes := i;
    var times: seq<Seconds> := [];
    i := 0;
    while i < batches
      invariant i <= batches && i <= config.numIterations
      invariant passes == Min(batches, config.numWarmup) + i
      invariant times == Samples(i, elapsed)
    {
      if i >= config.numIterations {
        break;
      }
      times := times + [elapsed(i)];
      passes := passes + 1;
      i := i + 1;
    }
    assert i == Min(batches, config.numIterations);
    timing := Summarize(times);
  }

  /** At most `numIterations` samples are kept, one per timed batch; the warm-up keeps none. */
  lemma SampleCount(batches: nat, numIterations: nat, elapsed: nat -> Seconds)
    ensures |Samples(Min(batches, numIterations), elapsed)| <= numIterations
    ensures |Samples(Min(batches, numIterations), elapsed)| <= batches
    ensures Summarize(Samples(Min(batches, numIterations), elapsed)).None? <==> batches == 0 || numIterations == 0
  {
  }

  // ---------------------------------------------------------------------------
  // Rates
  // ---------------------------------------------------------------------------

  /** Images per second at the mean batch duration. */
  function Fps(batchSize: nat, mean: Seconds): (fps: real)
    ensures fps * mean == batchSize as real
  {
    batchSize as real / mean
  }

  /** `mean` added to itself once per iteration, starting from 0. */
  function SumRepeated(mean: real, n: nat): real {
    if n == 0 then 0.0 else SumRepeated(mean, n - 1) + mean
  }

  lemma {:induction false} SumRepeatedIsProduct(mean: real, n: nat)
    ensures SumRepeated(mean, n) == n as real * mean
  {
    if n > 0 {
      SumRepeatedIsProduct(mean, n - 1);
    }
  }

  /**
   * Images per second over `n` iterations of the mean duration; dividing by
   * the empty sum raises, which is `None`.
   */
  function Throughput(batchSize: nat, n: nat, mean: Seconds): (throughput: Option<real>)
    ensures throughput.None? <==> n == 0
  {
    SumRepeatedIsProduct(mean, n);
    var total := SumRepeated(mean, n);
    if total == 0.0 then None else Some((batchSize * n) as real / total)
  }

  /** The throughput is the frame rate whenever there is at least one iteration, and undefined otherwise. */
  lemma ThroughputIsFps(batchSize: nat, n: nat, mean: Seconds)
    ensures n > 0 ==> Throughput(batchSize, n, mean) == Some(Fps(batchSize, mean))
    ensures n == 0 <==> Throughput(batchSize, n, mean).None?
  {
    SumRepeatedIsProduct(mean, n);
    if n > 0 {
      var b, k := batchSize as real, n as real;
      assert (batchSize * n) as real == b * k;
      assert k * mean > 0.0;
      CancelFactor(b, k, mean);
      assert SumRepeated(mean, n) == k * mean;
      assert Throughput(batchSize, n, mean) == Some((b * k) / (k * mean));
      assert Fps(batchSize, mean) == b / mean;
    }
  }

  /** `(b * k) / (k * m) == b / m` for positive `k` and `m`. */
  lemma CancelFactor(b: real, k: real, m: real)
    requires k > 0.0 && m > 0.0
    ensures (b * k) / (k * m) == b / m
  {
    var x := (b * k) / (k * m);
    assert x * (k * m) == b * k;
    assert (x * m) * k == b * k;
    assert x * m == b;
  }

  // ---------------------------------------------------------------------------
  // The benchmark run
  // ---------------------------------------------------------------------------

  /** One benchmark point. */
  datatype Point = Point(model: string, inputSize: nat, batchSize: nat)

  /**
   * What a point yields when nothing in its `try` block raises: the complexity
   * counts, the number of batches its loader delivers and the time of each timed pass.
   */
  datatype PointRun = PointRun(params: nat, macs: nat, batches: nat, elapsed: nat -> Seconds)

  /** One row of the results. */
  datatype BenchResult = BenchResult(
    model: string, inputSize: nat, batchSize: nat,
    params: nat, macs: nat,
    meanTime: real, minTime: real, maxTime: real,
    fps: real, throughput: real)

  function Key(r: BenchResult): Point {
    Point(r.model, r.inputSize, r.batchSize)
  }

  function Keys(results: seq<BenchResult>): (points: seq<Point>)
    ensures |points| == |results| && forall i :: 0 <= i < |results| ==> points[i] == Key(results[i])
  {
    if results == [] then [] else Keys(results[..|results| - 1]) + [Key(results[|results| - 1])]
  }

  /**
   * The row one point contributes, or nothing when anything in its `try`
   * block raises (`probe` gives `None`: the loader, the complexity count or a
   * forward pass), when it yields no sample, or when the throughput divides
   * by zero.
   */
  function PointResult(config: BenchmarkConfig, p: Point, probe: Point -> Option<PointRun>): (r: Option<BenchResult>)
    ensures r.Some? ==> probe(p).Some? && Key(r.value) == p
  {
    match probe(p)
    case None => None
    case Some(run) =>
      match Summarize(Samples(Min(run.batches, config.numIterations), run.elapsed))
      case None => None
      case Some(t) =>
        match Throughput(p.batchSize, config.numIterations, t.mean)
        case None => None
        case Some(throughput) =>
          Some(BenchResult(p.model, p.inputSize, p.batchSize, run.params, run.macs,
                           t.mean, t.min, t.max, Fps(p.batchSize, t.mean), throughput))
  }

  /** The row of every point, as one function: what the loops consult for each point. */
  function Outcomes(config: BenchmarkConfig, probe: Point -> Option<PointRun>): Point -> Option<BenchResult> {
    p => PointResult(config, p, probe)
  }

  /** The rows of the batch sizes at one input size, in order, given each point's outcome. */
  function Row(model: string, size: nat, batchSizes: seq<nat>, outcome: Point -> Option<BenchResult>): seq<BenchResult> {
    if batchSizes == [] then []
    else
      var n := |batchSizes| - 1;
      Row(model, size, batchSizes[..n], outcome)
        + match outcome(Point(model, size, batchSizes[n]))
          case None => []
          case Some(r) => [r]
  }

  /** The rows of one model: input sizes outside, batch sizes inside. */
  function Block(config: BenchmarkConfig, model: string, sizes: seq<nat>, outcome: Point -> Option<BenchResult>): seq<BenchResult> {
    if sizes == [] then []
    else Block(config, model, sizes[..|sizes| - 1], outcome) + Row(model, sizes[|sizes| - 1], config.batchSizes, outcome)
  }

  /** The results of the given models, in order; a model that does not load contributes nothing. */
  function Collect(config: BenchmarkConfig, models: seq<string>, loads: string -> bool, outcome: Point -> Option<BenchResult>): seq<BenchResult> {
    if models == [] then []
    else
      var model := models[|models| - 1];
      Collect(config, models[..|models| - 1], loads, outcome)
        + (if loads(model) then Block(config, model, InputSizes(config, model), outcome) else [])
  }

  /** One more input size adds its row to the block. */
  lemma BlockStep(config: BenchmarkConfig, model: string, sizes: seq<nat>, s: nat, outcome: Point -> Option<BenchResult>)
    requires s < |sizes|
    ensures Block(config, model, sizes[..s + 1], outcome) == Block(config, model, sizes[..s], outcome) + Row(model, sizes[s], config.batchSizes, outcome)
  {
    assert sizes[..s + 1][..s] == sizes[..s];
  }

  /** One more model adds its block, when it loads. */
  lemma CollectStep(config: BenchmarkConfig, models: seq<string>, m: nat, loads: string -> bool, outcome: Point -> Option<BenchResult>)
    requires m < |models|
    ensures Collect(config, models[..m + 1], loads, outcome)
      == Collect(config, models[..m], loads, outcome) + (if loads(models[m]) then Block(config, models[m], InputSizes(config, models[m]), outcome) else [])
  {
    assert models[..m + 1][..m] == models[..m];
  }

  /** Measures one point. */
  method BenchmarkPoint(config: BenchmarkConfig, p: Point, probe: Point -> Option<PointRun>) returns (r: Option<BenchResult>)
    ensures r == PointResult(config, p, probe)
  {
    r := None;
    var setUp := probe(p);
    if setUp.Some? {
      var run := setUp.value;
      var timing, _ := MeasureInferenceTime(run.batches, config, run.elapsed);
      if timing.Some? {
        var t := timing.value;
        var throughput := Throughput(p.batchSize, config.numIterations, t.mean);
        if throughput.Some? {
          r := Some(BenchResult(p.model, p.inputSize, p.batchSize, run.params, run.macs,
                                t.mean, t.min, t.max, Fps(p.batchSize, t.mean), throughput.value));
        }
      }
    }
  }

  /** Every batch size at one input size, in order. */
  method BenchmarkRow(config: BenchmarkConfig, model: string, size: nat, probe: Point -> Option<PointRun>) returns (row: seq<BenchResult>)
    ensures row == Row(model, size, config.batchSizes, Outcomes(config, probe))
  {
    row := [];
    var b := 0;
    while b < |config.batchSizes|
      invariant b <= |config.batchSizes|
      invariant row == Row(model, size, config.batchSizes[..b], Outcomes(config, probe))
    {
      var r := BenchmarkPoint(config, Point(model, size, config.batchSizes[b]), probe);
      if r.Some? {
        row := row + [r.value];
      }
      assert config.batchSizes[..b + 1][..b] == config.batchSizes[..b];
      b := b + 1;
    }
    assert config.batchSizes[..b] == config.batchSizes;
  }

  /** Every point of a loaded model, input sizes outside and batch sizes inside. */
  method BenchmarkModel(config: BenchmarkConfig, model: string, probe: Point -> Option<PointRun>) returns (rows: seq<BenchResult>)
    ensures rows == Block(config, model, InputSizes(config, model), Outcomes(config, probe))
  {
    var sizes := InputSizes(config, model);
    rows := [];
    var s := 0;
    while s < |sizes|
      invariant s <= |sizes|
      invariant rows == Block(config, model, sizes[..s], Outcomes(config, probe))
    {
      var row := BenchmarkRow(config, model, sizes[s], probe);
      BlockStep(config, model, sizes, s, Outcomes(config, probe));
      rows := rows + row;
      s := s + 1;
    }
    assert sizes[..s] == sizes;
  }

  /**
   * The whole run: every active model in order. `loads` says whether everything
   * in the model's `try` block before the loops succeeds: creating the model,
   * moving it to the device, counting its parameters.
   */
  method RunBenchmark(config: BenchmarkConfig, loads: string -> bool, probe: Point -> Option<PointRun>) returns (results: seq<BenchResult>)
    ensures results == Collect(config, config.activeModels, loads, Outcomes(config, probe))
  {
    results := [];
    var m := 0;
    while m < |config.activeModels|
      invariant m <= |config.activeModels|
      invariant results == Collect(config, config.activeModels[..m], loads, Outcomes(config, probe))
    {
      var model := config.activeModels[m];
      CollectStep(config, config.activeModels, m, loads, Outcomes(config, probe));
      if loads(model) {
        var rows := BenchmarkModel(config, model, probe);
        results := results + rows;
      }
      m := m + 1;
    }
    assert config.activeModels[..m] == config.activeModels;
  }

  // ---------------------------------------------------------------------------
  // Saving
  // ---------------------------------------------------------------------------

  datatype SaveOutcome = NothingToSave | Saved(rows: seq<BenchResult>)

  /** Saving writes every result, and writes nothing at all when there is no result. */
  function SaveResults(results: seq<BenchResult>): (outcome: SaveOutcome)
    ensures outcome == NothingToSave <==> results == []
    ensures outcome.Saved? ==> outcome.rows == results
  {
    if results == [] then NothingToSave else Saved(results)
  }
}
