/**
 * What the benchmark runner promises: the lookups' fallbacks agree with each
 * other, results come out in loop order and only for points that were
 * measured, a failure removes exactly the failing model or point, and every
 * row's throughput equals its frame rate.
 */
module BenchmarkFacts {
  import opened Wrappers
  import opened Benchmark

  // ---------------------------------------------------------------------------
  // The static configuration
  // ---------------------------------------------------------------------------

  /** Every row of the table lists its own default size among its input sizes. */
  lemma TableDefaultsListed()
    ensures forall m :: m in ModelConfigs() ==> ModelConfigs()[m].defaultSize in ModelConfigs()[m].inputSizes
  {
  }

  /** For every model name, known or not, the default size is one of the sizes tried. */
  lemma DefaultSizeListed(musaAvailable: bool, cudaAvailable: bool, model: string)
    ensures var config := NewConfig(musaAvailable, cudaAvailable);
      DefaultSize(config, model) in InputSizes(config, model)
  {
    TableDefaultsListed();
  }

  /** Every active model has a row in the table. */
  lemma ActiveModelsConfigured(musaAvailable: bool, cudaAvailable: bool)
    ensures var config := NewConfig(musaAvailable, cudaAvailable);
      |config.activeModels| == 11 && forall m :: m in config.activeModels ==> m in config.modelConfigs
  {
  }

  // ---------------------------------------------------------------------------
  // One point
  // ---------------------------------------------------------------------------

  /**
   * A point yields no row exactly when something in its `try` block raises
   * (the loader, the complexity count or a forward pass), its loader is empty
   * or no timed iteration is asked for.
   */
  lemma PointFails(config: BenchmarkConfig, p: Point, probe: Point -> Option<PointRun>)
    ensures PointResult(config, p, probe).None? <==>
      probe(p).None? || probe(p).value.batches == 0 || config.numIterations == 0
  {
    if probe(p).Some? {
      var run := probe(p).value;
      var times := Samples(Min(run.batches, config.numIterations), run.elapsed);
      if times != [] {
        ThroughputIsFps(p.batchSize, config.numIterations, Summarize(times).value.mean);
      }
    }
  }

  /** The row of a measured point: its key, the rate identities, and mean between minimum and maximum. */
  predicate WellFormedRow(r: BenchResult) {
    && r.meanTime > 0.0
    && r.minTime <= r.meanTime <= r.maxTime
    && r.fps == r.batchSize as real / r.meanTime
    && r.throughput == r.fps
  }

  lemma PointRow(config: BenchmarkConfig, p: Point, probe: Point -> Option<PointRun>)
    requires PointResult(config, p, probe).Some?
    ensures Key(PointResult(config, p, probe).value) == p
    ensures WellFormedRow(PointResult(config, p, probe).value)
  {
    var run := probe(p).value;
    var t := Summarize(Samples(Min(run.batches, config.numIterations), run.elapsed)).value;
    ThroughputIsFps(p.batchSize, config.numIterations, t.mean);
    var fps := Fps(p.batchSize, t.mean);
    var r := BenchResult(p.model, p.inputSize, p.batchSize, run.params, run.macs, t.mean, t.min, t.max, fps, fps);
    assert PointResult(config, p, probe).value == r;
  }

  // ---------------------------------------------------------------------------
  // Order and count
  // ---------------------------------------------------------------------------

  /** `a` is `b` with some elements left out, the rest in the same order. */
  predicate SubsequenceOf(a: seq<Point>, b: seq<Point>)
    decreases |b|
  {
    if b == [] then a == []
    else
      || SubsequenceOf(a, b[..|b| - 1])
      || (a != [] && a[|a| - 1] == b[|b| - 1] && SubsequenceOf(a[..|a| - 1], b[..|b| - 1]))
  }

  lemma {:induction false} SubsequenceLength(a: seq<Point>, b: seq<Point>)
    requires SubsequenceOf(a, b)
    ensures |a| <= |b|
  {
    if b != [] {
      if SubsequenceOf(a, b[..|b| - 1]) {
        SubsequenceLength(a, b[..|b| - 1]);
      } else {
        SubsequenceLength(a[..|a| - 1], b[..|b| - 1]);
      }
    }
  }

  lemma {:induction false} SubsequenceAppend(a1: seq<Point>, b1: seq<Point>, a2: seq<Point>, b2: seq<Point>)
    requires SubsequenceOf(a1, b1) && SubsequenceOf(a2, b2)
    ensures SubsequenceOf(a1 + a2, b1 + b2)
    decreases |b2|
  {
    if b2 == [] {
      assert a1 + a2 == a1 && b1 + b2 == b1;
    } else {
      var n := |b2| - 1;
      assert (b1 + b2)[..|b1 + b2| - 1] == b1 + b2[..n];
      if SubsequenceOf(a2, b2[..n]) {
        SubsequenceAppend(a1, b1, a2, b2[..n]);
      } else {
        SubsequenceAppend(a1, b1, a2[..|a2| - 1], b2[..n]);
        assert (a1 + a2)[..|a1 + a2| - 1] == a1 + a2[..|a2| - 1];
      }
    }
  }

  lemma SubsequenceOfItself(a: seq<Point>)
    requires |a| <= 1
    ensures SubsequenceOf(a, a) && SubsequenceOf([], a)
  {
    if a != [] {
      assert a[..0] == [];
    }
  }

  lemma {:induction false} KeysAppend(x: seq<BenchResult>, y: seq<BenchResult>)
    ensures Keys(x + y) == Keys(x) + Keys(y)
    decreases |y|
  {
    if y != [] {
      var n := |y| - 1;
      assert (x + y)[..|x + y| - 1] == x + y[..n];
      KeysAppend(x, y[..n]);
    }
  }

  /** Every point of the loops, in loop order, whether or not it succeeds. */
  function RowGrid(model: string, size: nat, batchSizes: seq<nat>): (points: seq<Point>)
    ensures |points| == |batchSizes|
  {
    if batchSizes == [] then []
    else RowGrid(model, size, batchSizes[..|batchSizes| - 1]) + [Point(model, size, batchSizes[|batchSizes| - 1])]
  }

  function BlockGrid(config: BenchmarkConfig, model: string, sizes: seq<nat>): (points: seq<Point>)
    ensures |points| == |sizes| * |config.batchSizes|
  {
    if sizes == [] then []
    else BlockGrid(config, model, sizes[..|sizes| - 1]) + RowGrid(model, sizes[|sizes| - 1], config.batchSizes)
  }

  function Grid(config: BenchmarkConfig, models: seq<string>): seq<Point> {
    if models == [] then []
    else Grid(config, models[..|models| - 1]) + BlockGrid(config, models[|models| - 1], InputSizes(config, models[|models| - 1]))
  }

  /** The row a point yields, when it yields one, is that point's row. */
  ghost predicate Keyed(outcome: Point -> Option<BenchResult>) {
    forall p :: outcome(p).Some? ==> Key(outcome(p).value) == p
  }

  lemma OutcomesKeyed(config: BenchmarkConfig, probe: Point -> Option<PointRun>)
    ensures Keyed(Outcomes(config, probe))
    ensures forall p :: Outcomes(config, probe)(p).Some? ==> WellFormedRow(Outcomes(config, probe)(p).value)
  {
    forall p | Outcomes(config, probe)(p).Some?
      ensures Key(Outcomes(config, probe)(p).value) == p && WellFormedRow(Outcomes(config, probe)(p).value)
    {
      PointRow(config, p, probe);
    }
  }

  lemma {:induction false} RowInOrder(model: string, size: nat, batchSizes: seq<nat>, outcome: Point -> Option<BenchResult>)
    requires Keyed(outcome)
    ensures SubsequenceOf(Keys(Row(model, size, batchSizes, outcome)), RowGrid(model, size, batchSizes))
  {
    if batchSizes != [] {
      var n := |batchSizes| - 1;
      RowInOrder(model, size, batchSizes[..n], outcome);
      var p := Point(model, size, batchSizes[n]);
      var last := match outcome(p) case None => [] case Some(r) => [r];
      KeysAppend(Row(model, size, batchSizes[..n], outcome), last);
      assert Keys(last) == [] || Keys(last) == [p];
      SubsequenceOfItself([p]);
      SubsequenceAppend(Keys(Row(model, size, batchSizes[..n], outcome)), RowGrid(model, size, batchSizes[..n]), Keys(last), [p]);
    }
  }

  lemma {:induction false} BlockInOrder(config: BenchmarkConfig, model: string, sizes: seq<nat>, outcome: Point -> Option<BenchResult>)
    requires Keyed(outcome)
    ensures SubsequenceOf(Keys(Block(config, model, sizes, outcome)), BlockGrid(config, model, sizes))
  {
    if sizes != [] {
      var n := |sizes| - 1;
      BlockInOrder(config, model, sizes[..n], outcome);
      RowInOrder(model, sizes[n], config.batchSizes, outcome);
      KeysAppend(Block(config, model, sizes[..n], outcome), Row(model, sizes[n], config.batchSizes, outcome));
      SubsequenceAppend(Keys(Block(config, model, sizes[..n], outcome)), BlockGrid(config, model, sizes[..n]),
                        Keys(Row(model, sizes[n], config.batchSizes, outcome)), RowGrid(model, sizes[n], config.batchSizes));
    }
  }

  lemma {:induction false} SubsequenceEmpty(b: seq<Point>)
    ensures SubsequenceOf([], b)
  {
    if b != [] {
      SubsequenceEmpty(b[..|b| - 1]);
    }
  }

  lemma {:induction false} CollectInOrderOf(config: BenchmarkConfig, models: seq<string>, loads: string -> bool, outcome: Point -> Option<BenchResult>)
    requires Keyed(outcome)
    ensures SubsequenceOf(Keys(Collect(config, models, loads, outcome)), Grid(config, models))
  {
    if models != [] {
      var n := |models| - 1;
      var model := models[n];
      CollectInOrderOf(config, models[..n], loads, outcome);
      var block := if loads(model) then Block(config, model, InputSizes(config, model), outcome) else [];
      if loads(model) {
        BlockInOrder(config, model, InputSizes(config, model), outcome);
      } else {
        SubsequenceEmpty(BlockGrid(config, model, InputSizes(config, model)));
      }
      KeysAppend(Collect(config, models[..n], loads, outcome), block);
      SubsequenceAppend(Keys(Collect(config, models[..n], loads, outcome)), Grid(config, models[..n]),
                        Keys(block), BlockGrid(config, model, InputSizes(config, model)));
    }
  }

  /**
   * The results follow the loops' order (active model, then input size, then
   * batch size) with failed models and points left out, so there are never
   * more results than points.
   */
  lemma CollectInOrder(config: BenchmarkConfig, models: seq<string>, loads: string -> bool, probe: Point -> Option<PointRun>)
    ensures SubsequenceOf(Keys(Collect(config, models, loads, Outcomes(config, probe))), Grid(config, models))
    ensures |Collect(config, models, loads, Outcomes(config, probe))| <= |Grid(config, models)|
  {
    OutcomesKeyed(config, probe);
    CollectInOrderOf(config, models, loads, Outcomes(config, probe));
    SubsequenceLength(Keys(Collect(config, models, loads, Outcomes(config, probe))), Grid(config, models));
  }

  // ---------------------------------------------------------------------------
  // Which points appear
  // ---------------------------------------------------------------------------

  lemma InPrefixOrLast<T>(s: seq<T>, x: T)
    requires s != []
    ensures x in s <==> x in s[..|s| - 1] || x == s[|s| - 1]
  {
    if x in s[..|s| - 1] {
      var i :| 0 <= i < |s| - 1 && s[..|s| - 1][i] == x;
      assert s[i] == x;
    }
  }

  lemma {:induction false} RowKeys(model: string, size: nat, batchSizes: seq<nat>, outcome: Point -> Option<BenchResult>, p: Point)
    requires Keyed(outcome)
    ensures p in Keys(Row(model, size, batchSizes, outcome)) <==>
      p.model == model && p.inputSize == size && p.batchSize in batchSizes && outcome(p).Some?
  {
    if batchSizes != [] {
      var n := |batchSizes| - 1;
      RowKeys(model, size, batchSizes[..n], outcome, p);
      var q := Point(model, size, batchSizes[n]);
      var last := match outcome(q) case None => [] case Some(r) => [r];
      KeysAppend(Row(model, size, batchSizes[..n], outcome), last);
      assert Keys(last) == if outcome(q).Some? then [q] else [];
      InPrefixOrLast(batchSizes, p.batchSize);
    }
  }

  lemma {:induction false} RowMeasured(model: string, size: nat, batchSizes: seq<nat>, outcome: Point -> Option<BenchResult>)
    requires Keyed(outcome)
    ensures forall r :: r in Row(model, size, batchSizes, outcome) ==> r.model == model && outcome(Key(r)) == Some(r)
  {
    if batchSizes != [] {
      RowMeasured(model, size, batchSizes[..|batchSizes| - 1], outcome);
    }
  }

  lemma {:induction false} BlockKeys(config: BenchmarkConfig, model: string, sizes: seq<nat>, outcome: Point -> Option<BenchResult>, p: Point)
    requires Keyed(outcome)
    ensures p in Keys(Block(config, model, sizes, outcome)) <==>
      p.model == model && p.inputSize in sizes && p.batchSize in config.batchSizes && outcome(p).Some?
  {
    if sizes != [] {
      var n := |sizes| - 1;
      BlockKeys(config, model, sizes[..n], outcome, p);
      RowKeys(model, sizes[n], config.batchSizes, outcome, p);
      KeysAppend(Block(config, model, sizes[..n], outcome), Row(model, sizes[n], config.batchSizes, outcome));
      InPrefixOrLast(sizes, p.inputSize);
    }
  }

  lemma {:induction false} BlockMeasured(config: BenchmarkConfig, model: string, sizes: seq<nat>, outcome: Point -> Option<BenchResult>)
    requires Keyed(outcome)
    ensures forall r :: r in Block(config, model, sizes, outcome) ==> r.model == model && outcome(Key(r)) == Some(r)
  {
    if sizes != [] {
      var n := |sizes| - 1;
      BlockMeasured(config, model, sizes[..n], outcome);
      RowMeasured(model, sizes[n], config.batchSizes, outcome);
    }
  }

  lemma {:induction false} CollectKeysOf(config: BenchmarkConfig, models: seq<string>, loads: string -> bool, outcome: Point -> Option<BenchResult>, p: Point)
    requires Keyed(outcome)
    ensures p in Keys(Collect(config, models, loads, outcome)) <==>
      && p.model in models && loads(p.model)
      && p.inputSize in InputSizes(config, p.model) && p.batchSize in config.batchSizes
      && outcome(p).Some?
  {
    if models != [] {
      var n := |models| - 1;
      var model := models[n];
      CollectKeysOf(config, models[..n], loads, outcome, p);
      var block := if loads(model) then Block(config, model, InputSizes(config, model), outcome) else [];
      BlockKeys(config, model, InputSizes(config, model), outcome, p);
      KeysAppend(Collect(config, models[..n], loads, outcome), block);
      assert p in Keys(block) <==> loads(model) && p in Keys(Block(config, model, InputSizes(config, model), outcome));
      InPrefixOrLast(models, p.model);
    }
  }

  /**
   * A point has a row exactly when its model is active and loaded, the point
   * is one the loops visit, and the point itself was measured: a failure
   * anywhere else does not remove it.
   */
  lemma CollectKeys(config: BenchmarkConfig, models: seq<string>, loads: string -> bool, probe: Point -> Option<PointRun>, p: Point)
    ensures p in Keys(Collect(config, models, loads, Outcomes(config, probe))) <==>
      && p.model in models && loads(p.model)
      && p.inputSize in InputSizes(config, p.model) && p.batchSize in config.batchSizes
      && PointResult(config, p, probe).Some?
  {
    OutcomesKeyed(config, probe);
    CollectKeysOf(config, models, loads, Outcomes(config, probe), p);
  }

  lemma {:induction false} CollectMeasuredOf(config: BenchmarkConfig, models: seq<string>, loads: string -> bool, outcome: Point -> Option<BenchResult>)
    requires Keyed(outcome)
    ensures forall r :: r in Collect(config, models, loads, outcome) ==> loads(r.model) && outcome(Key(r)) == Some(r)
  {
    if models != [] {
      var n := |models| - 1;
      CollectMeasuredOf(config, models[..n], loads, outcome);
      if loads(models[n]) {
        BlockMeasured(config, models[n], InputSizes(config, models[n]), outcome);
      }
    }
  }

  /**
   * Every row is what its own point measured, for a model that loaded, with
   * the rate identities of a measured point; in particular a model that
   * fails to load has no row.
   */
  lemma CollectMeasured(config: BenchmarkConfig, models: seq<string>, loads: string -> bool, probe: Point -> Option<PointRun>)
    ensures forall r :: r in Collect(config, models, loads, Outcomes(config, probe)) ==>
      loads(r.model) && PointResult(config, Key(r), probe) == Some(r) && WellFormedRow(r)
  {
    OutcomesKeyed(config, probe);
    CollectMeasuredOf(config, models, loads, Outcomes(config, probe));
  }

  /** A failure in one model does not stop the later ones: the run over `a + b` is the run over `a`, then over `b`. */
  lemma {:induction false} CollectAppend(config: BenchmarkConfig, a: seq<string>, b: seq<string>, loads: string -> bool, outcome: Point -> Option<BenchResult>)
    ensures Collect(config, a + b, loads, outcome) == Collect(config, a, loads, outcome) + Collect(config, b, loads, outcome)
    decreases |b|
  {
    if b == [] {
      assert a + b == a;
    } else {
      var n := |b| - 1;
      assert (a + b)[..|a + b| - 1] == a + b[..n];
      CollectAppend(config, a, b[..n], loads, outcome);
    }
  }
}
