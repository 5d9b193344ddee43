/** The loops of recsys/dlrm_main_pipeline.py that drive a pipeline: `_train`,
    `_evaluate` and `train_val_test`. Each builds a fresh iterator and a fresh
    pipeline and calls `progress` until StopIteration; any other exception escapes
    to the caller. */
module Driver {
  import opened Wrappers
  import opened Placement
  import opened Pipeline
  import opened TrainPipeline
  import opened Sequences

  /** The pipeline `_train` builds: the model in training mode, no metrics, and the
      model's own sparse and dense devices. */
  function TrainConfig(hasCriterion: bool, hasOptimizer: bool, sparseDevice: Device, denseDevice: Device): Config
  {
    Config(true, 0, hasCriterion, hasOptimizer, sparseDevice, denseDevice)
  }

  /** The pipeline `_evaluate` builds: the model in eval mode, the metrics
      [auroc, accuracy], and neither a criterion nor an optimizer. */
  function EvalConfig(sparseDevice: Device, denseDevice: Device): Config
  {
    Config(false, 2, false, false, sparseDevice, denseDevice)
  }

  /** Positions of the two metrics in `_evaluate`'s metric list. */
  const AurocIndex: nat := 0
  const AccuracyIndex: nat := 1

  /** The exception a driving loop lets escape: anything but StopIteration. */
  function Escaped(r: Run): Option<PyError>
  {
    if r.outcome.Raised? then Some(r.outcome.error) else None
  }

  /** `for _ in count(): try: pipe.progress(...) except StopIteration: break`, on a
      fresh pipeline over a fresh iterator of `items`. */
  method Drive(config: Config, a: Args, items: seq<BatchVal>) returns (err: Option<PyError>, trace: seq<Event>, steps: nat)
    requires a.Ok()
    ensures var r := RunSpec(config, a, Fresh, items);
            err == Escaped(r) && trace == r.events && steps == r.completed
  {
    ghost var r := RunSpec(config, a, Fresh, items);
    var it := new DataIter(items);
    var world := new Callbacks();
    var pipe := new TrainPipelineBase(config, world);
    var outcome;
    outcome, steps := Loop(pipe, it, a, r);
    err := if outcome.Raised? then Some(outcome.error) else None;
    trace := world.log;
  }

  /** The loop itself: `progress` until a call does not complete. */
  method Loop(pipe: TrainPipelineBase, it: DataIter, a: Args, ghost r: Run) returns (outcome: Outcome, steps: nat)
    requires it.Valid() && a.Ok()
    requires Remaining(r, pipe.config, a, pipe.State(), it.Rest(), pipe.world.log, 0)
    modifies pipe, it, pipe.world, pipe.Held()
    ensures outcome != Completed && r.outcome == outcome && r.events == pipe.world.log && r.completed == steps
  {
    outcome := Completed;
    steps := 0;
    while outcome == Completed
      invariant it.Valid() && fresh(pipe.Held() - old(pipe.Held()))
      invariant outcome == Completed ==> Remaining(r, pipe.config, a, pipe.State(), it.Rest(), pipe.world.log, steps)
      invariant outcome != Completed ==> r.outcome == outcome && r.events == pipe.world.log && r.completed == steps
      decreases |it.Rest()|, if outcome == Completed then 1 else 0
    {
      outcome, steps := Turn(pipe, it, a, r, steps);
    }
  }

  /** The whole loop's result r is the log so far followed by the loop from here. */
  ghost predicate Remaining(r: Run, c: Config, a: Args, v: View, rest: seq<BatchVal>, log: seq<Event>, steps: nat)
    requires a.Ok()
  {
    var t := RunSpec(c, a, v, rest);
    r.outcome == t.outcome && r.events == log + t.events && r.completed == steps + t.completed
  }

  /** One turn of the driving loop: a `progress` call. */
  method Turn(pipe: TrainPipelineBase, it: DataIter, a: Args, ghost r: Run, steps: nat) returns (outcome: Outcome, steps': nat)
    requires it.Valid() && a.Ok()
    requires Remaining(r, pipe.config, a, pipe.State(), it.Rest(), pipe.world.log, steps)
    modifies pipe, it, pipe.world, pipe.Held()
    ensures it.Valid() && fresh(pipe.Held() - old(pipe.Held())) && |it.Rest()| <= old(|it.Rest()|)
    ensures outcome == Completed ==>
              |it.Rest()| < old(|it.Rest()|)
              && Remaining(r, pipe.config, a, pipe.State(), it.Rest(), pipe.world.log, steps')
    ensures outcome != Completed ==> r.outcome == outcome && r.events == pipe.world.log && r.completed == steps'
  {
    ghost var v := pipe.State();
    ghost var rest := it.Rest();
    DriveStep(pipe.config, a, r, pipe.world.log, steps, v, rest);
    outcome := pipe.Progress(it, a);
    steps' := steps;
    if outcome == Completed {
      assert it.Rest() == rest[ProgressSpec(pipe.config, a, v, rest).pulled..];
      steps' := steps + 1;
    }
  }

  /** One turn of the driving loop, in terms of the whole loop's result r: the
      events so far, then one call, then the loop on what that call leaves. */
  lemma DriveStep(c: Config, a: Args, r: Run, log: seq<Event>, steps: nat, v: View, rest: seq<BatchVal>)
    requires a.Ok()
    requires var t := RunSpec(c, a, v, rest);
             r.outcome == t.outcome && r.events == log + t.events && r.completed == steps + t.completed
    ensures var s := ProgressSpec(c, a, v, rest);
            && (s.outcome != Completed ==>
                  r.outcome == s.outcome && r.events == log + s.events && r.completed == steps)
            && (s.outcome == Completed ==>
                  var t := RunSpec(c, a, s.view, rest[s.pulled..]);
                  r.outcome == t.outcome && r.events == (log + s.events) + t.events && r.completed == steps + 1 + t.completed)
  {
    var s := ProgressSpec(c, a, v, rest);
    if s.outcome == Completed {
      AppendAssoc(log, s.events, RunSpec(c, a, s.view, rest[s.pulled..]).events);
    }
  }

  /** `_train`: one epoch over the training items. */
  method Train(hasCriterion: bool, hasOptimizer: bool, sparseDevice: Device, denseDevice: Device, a: Args,
               items: seq<BatchVal>)
    returns (err: Option<PyError>, trace: seq<Event>)
    requires a.Ok()
    ensures var r := RunSpec(TrainConfig(hasCriterion, hasOptimizer, sparseDevice, denseDevice), a, Fresh, items);
            err == Escaped(r) && trace == r.events
  {
    var steps;
    err, trace, steps := Drive(TrainConfig(hasCriterion, hasOptimizer, sparseDevice, denseDevice), a, items);
  }

  /** With a criterion and an optimizer and without the distributed loader, an epoch
      raises nothing and runs one optimizer step per completed call, n - 1 of them
      for n items. */
  lemma TrainEpoch(hasCriterion: bool, hasOptimizer: bool, sparseDevice: Device, denseDevice: Device, a: Args,
                   items: seq<BatchVal>)
    requires a.Ok() && !a.isDist && hasCriterion && hasOptimizer
    ensures var r := RunSpec(TrainConfig(hasCriterion, hasOptimizer, sparseDevice, denseDevice), a, Fresh, items);
            && Escaped(r).None?
            && r.completed == (if items == [] then 0 else |items| - 1)
  {
    RunFromFresh(TrainConfig(hasCriterion, hasOptimizer, sparseDevice, denseDevice), a, items);
  }

  // ---------------------------------------------------------------------------
  // Evaluation
  // ---------------------------------------------------------------------------

  datatype MetricKind = Auroc | Accuracy

  /** A torchmetrics metric after an evaluation loop: the labels of each batch it
      was updated with, in order. `compute()` turns these (with the predictions)
      into a float. */
  datatype Score = Score(kind: MetricKind, updates: seq<seq<Label>>)

  /** The labels metric i was called with, call by call. */
  function MetricInputs(es: seq<Event>, i: nat): seq<seq<Label>>
  {
    if es == [] then []
    else
      var e := es[|es| - 1];
      MetricInputs(es[..|es| - 1], i) + if e.Metric? && e.index == i then [e.labels] else []
  }

  /** What `_evaluate` returns, as computed from the trace of its loop: AUROC first,
      accuracy second. */
  function EvalScores(es: seq<Event>): (Score, Score)
  {
    (Score(Auroc, MetricInputs(es, AurocIndex)), Score(Accuracy, MetricInputs(es, AccuracyIndex)))
  }

  /** `_evaluate`: the loop over the items in eval mode, then `auroc.compute()` and
      `accuracy.compute()`, returned in that order. */
  method Evaluate(sparseDevice: Device, denseDevice: Device, a: Args, items: seq<BatchVal>)
    returns (r: Result<(Score, Score), PyError>)
    requires a.Ok()
    ensures var run := RunSpec(EvalConfig(sparseDevice, denseDevice), a, Fresh, items);
            && (r.Failure? <==> Escaped(run).Some?)
            && (r.Failure? ==> r.error == Escaped(run).value)
            && (r.Success? ==> r.value == EvalScores(run.events))
  {
    var err, trace, steps := Drive(EvalConfig(sparseDevice, denseDevice), a, items);
    if err.Some? {
      return Failure(err.value);
    }
    var auroc := Score(Auroc, MetricInputs(trace, AurocIndex));
    var accuracy := Score(Accuracy, MetricInputs(trace, AccuracyIndex));
    return Success((auroc, accuracy));
  }

  lemma {:induction false} MetricInputsAppend(x: seq<Event>, y: seq<Event>, i: nat)
    ensures MetricInputs(x + y, i) == MetricInputs(x, i) + MetricInputs(y, i)
    decreases |y|
  {
    if y == [] {
      assert x + y == x;
    } else {
      assert (x + y)[..|x + y| - 1] == x + y[..|y| - 1];
      MetricInputsAppend(x, y[..|y| - 1], i);
    }
  }

  lemma {:induction false} NoMetricInputs(es: seq<Event>, i: nat)
    requires forall e :: e in es ==> !e.Metric?
    ensures MetricInputs(es, i) == []
    decreases |es|
  {
    if es != [] {
      var init := es[..|es| - 1];
      assert forall e :: e in init ==> e in es;
      assert es[|es| - 1] in es;
      NoMetricInputs(init, i);
    }
  }

  /** Metric i is called once per forward when it is in the list, never otherwise. */
  lemma {:induction false} MetricEventsInputs(m: nat, labels: seq<Label>, i: nat)
    ensures MetricInputs(MetricEvents(m, labels), i) == if i < m then [labels] else []
    decreases m
  {
    if m > 0 {
      var es := MetricEvents(m, labels);
      assert es[..m - 1] == MetricEvents(m - 1, labels);
      MetricEventsInputs(m - 1, labels, i);
    }
  }

  /** The labels the metrics see over n more completed calls on a pipeline that
      holds b: b's labels, then those of b restaged, and so on. */
  function LabelsSeen(c: Config, a: Args, b: BatchVal, n: nat): (r: seq<seq<Label>>)
    requires a.Ok() && !a.isDist
    ensures |r| == n
    ensures n > 0 ==> r[0] == b.labels.data
    decreases n
  {
    if n == 0 then []
    else [b.labels.data] + LabelsSeen(c, a, StageBatch(c, a, b).batch, n - 1)
  }

  /** Each entry is no longer than the one before, and over two or more ranks
      strictly shorter when the one before has two or more. */
  predicate Shrinking(r: seq<seq<Label>>, worldSize: nat)
  {
    forall i :: 0 < i < |r| ==> ShrinksFrom(r[i - 1], r[i], worldSize)
  }

  predicate ShrinksFrom(before: seq<Label>, after: seq<Label>, worldSize: nat)
  {
    |after| <= |before| && (worldSize >= 2 && |before| >= 2 ==> |after| < |before|)
  }

  lemma ShrinkingCons(x: seq<Label>, rest: seq<seq<Label>>, worldSize: nat)
    requires Shrinking(rest, worldSize)
    requires rest != [] ==> ShrinksFrom(x, rest[0], worldSize)
    ensures Shrinking([x] + rest, worldSize)
  {
    var r := [x] + rest;
    forall i | 0 < i < |r| ensures ShrinksFrom(r[i - 1], r[i], worldSize) {
      if i > 1 {
        assert r[i - 1] == rest[i - 2] && r[i] == rest[i - 1];
      }
    }
  }

  /** Each later call's metrics see the labels of the previous call's batch split
      again, so the labels never grow, and over two or more ranks they shrink while
      there are two or more of them. */
  lemma {:induction false} LabelsSeenShrink(c: Config, a: Args, b: BatchVal, n: nat)
    requires a.Ok() && !a.isDist
    ensures Shrinking(LabelsSeen(c, a, b, n), a.worldSize)
    decreases n
  {
    if n > 0 {
      var staged := StageBatch(c, a, b);
      LabelsSeenShrink(c, a, staged.batch, n - 1);
      RestageShrinks(c, a, b);
      assert staged.Labels() == staged.batch.labels;
      ShrinkingCons(b.labels.data, LabelsSeen(c, a, staged.batch, n - 1), a.worldSize);
    }
  }

  /** The events around the forward section call no metric. */
  lemma SetupWithoutMetrics(c: Config, i: nat)
    ensures MetricInputs(Setup(c), i) == []
  {
    SetupMembers(c);
    NoMetricInputs(Setup(c), i);
  }

  lemma TailWithoutMetrics(c: Config, b: BatchVal, i: nat)
    ensures MetricInputs(Tail(c, b), i) == []
  {
    TailMembers(c, b);
    NoMetricInputs(Tail(c, b), i);
  }

  lemma StepWithoutMetrics(c: Config, i: nat)
    ensures MetricInputs(When(c.training, [OptimizerStep]), i) == []
  {
    var o := When(c.training, [OptimizerStep]);
    assert forall e :: e in o ==> e.OptimizerStep?;
    NoMetricInputs(o, i);
  }

  /** The forward section calls metric i once, with b's labels, when it is in the list. */
  lemma BodyMetricInputs(c: Config, b: BatchVal, i: nat)
    requires i < c.metrics
    ensures MetricInputs(Body(c, b), i) == [b.labels.data]
  {
    var f := [Forward(b.serial, b.dense.data, b.sparse.data)];
    MetricEventsInputs(c.metrics, b.labels.data, i);
    MetricInputsAppend(f, MetricEvents(c.metrics, b.labels.data), i);
  }

  /** One completed call on a pipeline holding b: metric i sees b's labels once. */
  lemma CallMetricInputs(c: Config, b: BatchVal, serial: nat, i: nat)
    requires i < c.metrics
    ensures MetricInputs(CallEvents(c, b, serial), i) == [b.labels.data]
  {
    var p, st, bd, tl, o := [Pull(serial)], Setup(c), Body(c, b), Tail(c, b), When(c.training, [OptimizerStep]);
    NoMetricInputs(p, i);
    SetupWithoutMetrics(c, i);
    TailWithoutMetrics(c, b, i);
    StepWithoutMetrics(c, i);
    BodyMetricInputs(c, b, i);
    MetricInputsAppend(p, st, i);
    MetricInputsAppend(p + st, bd, i);
    MetricInputsAppend(p + st + bd, tl, i);
    MetricInputsAppend(p + st + bd + tl, o, i);
    assert CallEvents(c, b, serial) == p + st + bd + tl + o;
  }

  /** From a connected pipeline holding b, metric i is updated once per remaining
      item, with the labels of b restaged once more each time. */
  lemma {:induction false} RunMetricInputs(c: Config, a: Args, v: View, rest: seq<BatchVal>, b: BatchVal, i: nat)
    requires a.Ok() && !a.isDist && Runnable(c) && i < c.metrics
    requires v.connected && v.cur == Some(BatchV(b))
    ensures MetricInputs(RunSpec(c, a, v, rest).events, i) == LabelsSeen(c, a, b, |rest|)
    decreases |rest|
  {
    if rest != [] {
      CompleteCall(c, a, v, rest, b);
      var s := ProgressSpec(c, a, v, rest);
      CallMetricInputs(c, b, rest[0].serial, i);
      var b' := StageBatch(c, a, b).batch;
      assert s.view == v.(cur := Some(BatchV(b')));
      RunMetricInputs(c, a, s.view, rest[1..], b', i);
      MetricInputsAppend(s.events, RunSpec(c, a, s.view, rest[1..]).events, i);
    }
  }

  /** From a fresh pipeline over n items, metric i is updated n - 1 times: with the
      labels of the first item once staged by `_connect`, then restaged once more
      every call. */
  lemma FreshMetricInputs(c: Config, a: Args, items: seq<BatchVal>, i: nat)
    requires a.Ok() && !a.isDist && Runnable(c) && i < c.metrics
    ensures MetricInputs(RunSpec(c, a, Fresh, items).events, i)
         == if items == [] then [] else LabelsSeen(c, a, StageBatch(c, a, items[0]).batch, |items| - 1)
  {
    if |items| == 1 {
      FreshRunSingle(c, a, items);
      NoMetricInputs([Pull(items[0].serial), Staged(items[0].serial)], i);
    } else if |items| >= 2 {
      FreshMetricInputsLong(c, a, items, i);
    }
  }

  lemma FreshMetricInputsLong(c: Config, a: Args, items: seq<BatchVal>, i: nat)
    requires a.Ok() && !a.isDist && Runnable(c) && i < c.metrics && |items| >= 2
    ensures MetricInputs(RunSpec(c, a, Fresh, items).events, i)
         == LabelsSeen(c, a, StageBatch(c, a, items[0]).batch, |items| - 1)
  {
    var b := StageBatch(c, a, items[0]).batch;
    var staged := StageBatch(c, a, b);
    FreshRunUnfold(c, a, items);
    var v := View(Some(staged), true, false);
    var e1 := [Pull(items[0].serial), Staged(items[0].serial)];
    var e2 := CallEvents(c, b, items[1].serial);
    var e3 := RunSpec(c, a, v, items[2..]).events;
    NoMetricInputs(e1, i);
    CallMetricInputs(c, b, items[1].serial, i);
    RunMetricInputs(c, a, v, items[2..], staged.batch, i);
    var later := LabelsSeen(c, a, staged.batch, |items| - 2);
    assert LabelsSeen(c, a, b, |items| - 1) == [b.labels.data] + later;
    InputsOfThree(e1, e2, e3, i);
    Combine(RunSpec(c, a, Fresh, items).events, e1, e2, e3, i, b.labels.data, later);
  }

  /** Metric inputs of three segments, the first without metric calls and the second
      with one. */
  lemma Combine(all: seq<Event>, e1: seq<Event>, e2: seq<Event>, e3: seq<Event>, i: nat,
                labels: seq<Label>, later: seq<seq<Label>>)
    requires all == e1 + e2 + e3
    requires MetricInputs(all, i) == MetricInputs(e1, i) + MetricInputs(e2, i) + MetricInputs(e3, i)
    requires MetricInputs(e1, i) == [] && MetricInputs(e2, i) == [labels] && MetricInputs(e3, i) == later
    ensures MetricInputs(all, i) == [labels] + later
  {
  }

  lemma InputsOfThree(x: seq<Event>, y: seq<Event>, z: seq<Event>, i: nat)
    ensures MetricInputs(x + y + z, i) == MetricInputs(x, i) + MetricInputs(y, i) + MetricInputs(z, i)
  {
    MetricInputsAppend(x, y, i);
    MetricInputsAppend(x + y, z, i);
  }

  /** Without the distributed loader `_evaluate` raises nothing, and AUROC and
      accuracy are updated with the same labels: n - 1 updates for n items, each
      from the first item, restaged once more every call. */
  lemma EvaluateUpdates(sparseDevice: Device, denseDevice: Device, a: Args, items: seq<BatchVal>)
    requires a.Ok() && !a.isDist
    ensures var c := EvalConfig(sparseDevice, denseDevice);
            var run := RunSpec(c, a, Fresh, items);
            && Escaped(run).None?
            && EvalScores(run.events).0.updates == EvalScores(run.events).1.updates
            && EvalScores(run.events).0.updates
               == if items == [] then [] else LabelsSeen(c, a, StageBatch(c, a, items[0]).batch, |items| - 1)
  {
    var c := EvalConfig(sparseDevice, denseDevice);
    RunFromFresh(c, a, items);
    FreshMetricInputs(c, a, items, AurocIndex);
    FreshMetricInputs(c, a, items, AccuracyIndex);
  }

  // ---------------------------------------------------------------------------
  // train_val_test
  // ---------------------------------------------------------------------------

  /** `TrainValTestResults`, a dataclass whose lists start empty and whose test
      fields start as None. */
  class TrainValTestResults {
    var valAccuracies: seq<Score>
    var valAurocs: seq<Score>
    var testAccuracy: Option<Score>
    var testAuroc: Option<Score>

    constructor ()
      ensures valAccuracies == [] && valAurocs == [] && testAccuracy.None? && testAuroc.None?
    {
      valAccuracies := [];
      valAurocs := [];
      testAccuracy := None;
      testAuroc := None;
    }
  }

  /** What `range(epochs)` yields a count of. */
  function Epochs(epochs: int): nat
  {
    if epochs < 0 then 0 else epochs
  }

  /** What epoch k raises, if anything: `_train` over that epoch's pass of the
      training loader first, then `_evaluate` over its pass of the validation loader.
      `train(k)` and `val(k)` are the items `iter(data_loader)` yields in epoch k. */
  function EpochErrorAt(tc: Config, ec: Config, a: Args, train: nat -> seq<BatchVal>, val: nat -> seq<BatchVal>,
                        k: nat): Option<PyError>
    requires a.Ok()
  {
    var tr := Escaped(RunSpec(tc, a, Fresh, train(k)));
    if tr.Some? then tr else Escaped(RunSpec(ec, a, Fresh, val(k)))
  }

  /** What each epoch raises on its own. */
  function EpochErrors(tc: Config, ec: Config, a: Args, train: nat -> seq<BatchVal>, val: nat -> seq<BatchVal>)
    : nat -> Option<PyError>
    requires a.Ok()
  {
    (k: nat) => EpochErrorAt(tc, ec, a, train, val, k)
  }

  /** What `_evaluate` returns in epoch k when it raises nothing. */
  function EpochScores(ec: Config, a: Args, val: nat -> seq<BatchVal>, k: nat): (r: (Score, Score))
    requires a.Ok()
    ensures r.0.kind == Auroc && r.1.kind == Accuracy
  {
    EvalScores(RunSpec(ec, a, Fresh, val(k)).events)
  }

  /** The AUROC results of the first n epochs, one per epoch. */
  function EpochAurocs(ec: Config, a: Args, val: nat -> seq<BatchVal>, n: nat): (r: seq<Score>)
    requires a.Ok()
    ensures |r| == n && forall k :: 0 <= k < n ==> r[k] == EpochScores(ec, a, val, k).0 && r[k].kind == Auroc
  {
    if n == 0 then [] else EpochAurocs(ec, a, val, n - 1) + [EpochScores(ec, a, val, n - 1).0]
  }

  /** The accuracy results of the first n epochs, one per epoch. */
  function EpochAccuracies(ec: Config, a: Args, val: nat -> seq<BatchVal>, n: nat): (r: seq<Score>)
    requires a.Ok()
    ensures |r| == n && forall k :: 0 <= k < n ==> r[k] == EpochScores(ec, a, val, k).1 && r[k].kind == Accuracy
  {
    if n == 0 then [] else EpochAccuracies(ec, a, val, n - 1) + [EpochScores(ec, a, val, n - 1).1]
  }

  /** The error that ends the first n epochs early, given what each epoch raises on
      its own: the loop stops at the first. */
  function FirstError(errs: nat -> Option<PyError>, n: nat): Option<PyError>
  {
    if n == 0 then None
    else
      var before := FirstError(errs, n - 1);
      if before.Some? then before else errs(n - 1)
  }

  /** The first n epochs raise nothing exactly when none of them raises, and
      otherwise what escapes is the error of the earliest epoch that raises. */
  lemma {:induction false} FirstErrorSpec(errs: nat -> Option<PyError>, n: nat)
    ensures var r := FirstError(errs, n);
            && (r.None? <==> forall k: nat :: k < n ==> errs(k).None?)
            && (r.Some? ==> exists k: nat :: k < n && r == errs(k) && forall j: nat :: j < k ==> errs(j).None?)
    decreases n
  {
    if n > 0 {
      FirstErrorSpec(errs, n - 1);
      if FirstError(errs, n - 1).None? {
        var k := n - 1;
        assert forall j: nat :: j < k ==> errs(j).None?;
      }
    }
  }

  /** Once an epoch has raised, later epochs change nothing: the loop has stopped. */
  lemma {:induction false} FirstErrorStops(errs: nat -> Option<PyError>, n: nat, m: nat)
    requires n <= m && FirstError(errs, n).Some?
    ensures FirstError(errs, m) == FirstError(errs, n)
    decreases m
  {
    if n < m {
      FirstErrorStops(errs, n, m - 1);
    }
  }

  /** When every epoch raises the same as the first, the loop raises what the first
      epoch raises, and nothing when there are no epochs. */
  lemma {:induction false} FirstErrorSteady(errs: nat -> Option<PyError>, n: nat)
    requires forall k: nat :: errs(k) == errs(0)
    ensures FirstError(errs, n) == if n == 0 then None else errs(0)
    decreases n
  {
    if n > 1 {
      FirstErrorSteady(errs, n - 1);
    }
  }

  /** Loaders that yield the same items in every epoch make every epoch raise the
      same, so the loop raises exactly what one epoch over those items raises. */
  lemma EpochErrorsSteady(tc: Config, ec: Config, a: Args, train: nat -> seq<BatchVal>, val: nat -> seq<BatchVal>,
                          n: nat)
    requires a.Ok()
    requires forall k: nat :: train(k) == train(0) && val(k) == val(0)
    ensures FirstError(EpochErrors(tc, ec, a, train, val), n)
            == if n == 0 then None else EpochErrorAt(tc, ec, a, train, val, 0)
  {
    var errs := EpochErrors(tc, ec, a, train, val);
    forall k: nat ensures errs(k) == errs(0) {
      assert train(k) == train(0) && val(k) == val(0);
    }
    FirstErrorSteady(errs, n);
  }

  /** Epoch k of `train_val_test`, reached when no earlier epoch raised: `_train`
      over the k-th pass of the training loader, then `_evaluate` over the k-th pass
      of the validation loader, whose pair is appended to the lists unpacked in
      swapped order, so `val_accuracies` collects the AUROC results. */
  method RunEpoch(results: TrainValTestResults, hasCriterion: bool, hasOptimizer: bool,
                  sparseDevice: Device, denseDevice: Device, a: Args,
                  train: nat -> seq<BatchVal>, val: nat -> seq<BatchVal>, k: nat)
    returns (err: Option<PyError>)
    requires a.Ok()
    requires FirstError(EpochErrors(TrainConfig(hasCriterion, hasOptimizer, sparseDevice, denseDevice),
                                    EvalConfig(sparseDevice, denseDevice), a, train, val), k).None?
    requires results.valAccuracies == EpochAurocs(EvalConfig(sparseDevice, denseDevice), a, val, k)
    requires results.valAurocs == EpochAccuracies(EvalConfig(sparseDevice, denseDevice), a, val, k)
    modifies results
    ensures err == FirstError(EpochErrors(TrainConfig(hasCriterion, hasOptimizer, sparseDevice, denseDevice),
                                          EvalConfig(sparseDevice, denseDevice), a, train, val), k + 1)
    ensures err.Some? ==> unchanged(results)
    ensures err.None? ==>
              && results.valAccuracies == EpochAurocs(EvalConfig(sparseDevice, denseDevice), a, val, k + 1)
              && results.valAurocs == EpochAccuracies(EvalConfig(sparseDevice, denseDevice), a, val, k + 1)
              && results.testAccuracy == old(results.testAccuracy) && results.testAuroc == old(results.testAuroc)
  {
    ghost var errs := EpochErrors(TrainConfig(hasCriterion, hasOptimizer, sparseDevice, denseDevice),
                                  EvalConfig(sparseDevice, denseDevice), a, train, val);
    var trace;
    err, trace := Train(hasCriterion, hasOptimizer, sparseDevice, denseDevice, a, train(k));
    if err.Some? {
      assert errs(k) == err;
      return;
    }
    var scores := Evaluate(sparseDevice, denseDevice, a, val(k));
    if scores.Failure? {
      assert errs(k) == Some(scores.error);
      return Some(scores.error);
    }
    assert errs(k).None?;
    var (valAccuracy, valAuroc) := scores.value;
    results.valAccuracies := results.valAccuracies + [valAccuracy];
    results.valAurocs := results.valAurocs + [valAuroc];
  }

  /** The epoch loop of `train_val_test`: it stops at the first epoch that raises. */
  method RunEpochs(results: TrainValTestResults, epochs: int, hasCriterion: bool, hasOptimizer: bool,
                   sparseDevice: Device, denseDevice: Device, a: Args,
                   train: nat -> seq<BatchVal>, val: nat -> seq<BatchVal>)
    returns (err: Option<PyError>)
    requires a.Ok()
    requires results.valAccuracies == [] && results.valAurocs == []
    requires results.testAccuracy.None? && results.testAuroc.None?
    modifies results
    ensures var tc := TrainConfig(hasCriterion, hasOptimizer, sparseDevice, denseDevice);
            var ec := EvalConfig(sparseDevice, denseDevice);
            && err == FirstError(EpochErrors(tc, ec, a, train, val), Epochs(epochs))
            // the unpacking swaps the pair: `val_accuracies` collects the AUROC results
            && (err.None? ==>
                  && results.valAccuracies == EpochAurocs(ec, a, val, Epochs(epochs))
                  && results.valAurocs == EpochAccuracies(ec, a, val, Epochs(epochs)))
    ensures results.testAccuracy.None? && results.testAuroc.None?
  {
    ghost var errs := EpochErrors(TrainConfig(hasCriterion, hasOptimizer, sparseDevice, denseDevice),
                                  EvalConfig(sparseDevice, denseDevice), a, train, val);
    ghost var ec := EvalConfig(sparseDevice, denseDevice);
    var epoch: nat := 0;
    while epoch < epochs
      invariant epoch <= Epochs(epochs)
      invariant FirstError(errs, epoch).None?
      invariant results.valAccuracies == EpochAurocs(ec, a, val, epoch)
      invariant results.valAurocs == EpochAccuracies(ec, a, val, epoch)
      invariant results.testAccuracy.None? && results.testAuroc.None?
    {
      err := RunEpoch(results, hasCriterion, hasOptimizer, sparseDevice, denseDevice, a, train, val, epoch);
      if err.Some? {
        FirstErrorStops(errs, epoch + 1, Epochs(epochs));
        return;
      }
      epoch := epoch + 1;
    }
    assert epoch == Epochs(epochs);
    err := None;
  }

  /** `train_val_test`: for every epoch, train over a fresh pass of the training
      loader and evaluate over a fresh pass of the validation loader; then evaluate
      once over the test items. The pair `_evaluate` returns is (AUROC, accuracy),
      but it is unpacked as (accuracy, auroc), so `val_accuracies` and
      `test_accuracy` receive the AUROC and the `auroc` fields the accuracy. */
  method TrainValTest(epochs: int, hasCriterion: bool, hasOptimizer: bool, sparseDevice: Device, denseDevice: Device,
                      a: Args, train: nat -> seq<BatchVal>, val: nat -> seq<BatchVal>, test: seq<BatchVal>)
    returns (r: Result<TrainValTestResults, PyError>)
    requires a.Ok()
    ensures var first := FirstError(EpochErrors(TrainConfig(hasCriterion, hasOptimizer, sparseDevice, denseDevice),
                                                EvalConfig(sparseDevice, denseDevice), a, train, val), Epochs(epochs));
            var ec := EvalConfig(sparseDevice, denseDevice);
            var te := RunSpec(ec, a, Fresh, test);
            && (r.Failure? <==> first.Some? || Escaped(te).Some?)
            && (r.Failure? ==> r.error == if first.Some? then first.value else Escaped(te).value)
            && (r.Success? ==>
                  && fresh(r.value)
                  && r.value.valAccuracies == EpochAurocs(ec, a, val, Epochs(epochs))
                  && r.value.valAurocs == EpochAccuracies(ec, a, val, Epochs(epochs))
                  && r.value.testAccuracy == Some(EvalScores(te.events).0)
                  && r.value.testAuroc == Some(EvalScores(te.events).1))
    // the unpacking swaps the pair: the lists named after accuracy hold AUROC results
    ensures r.Success? ==>
              && (forall k :: 0 <= k < |r.value.valAccuracies| ==> r.value.valAccuracies[k].kind == Auroc)
              && (forall k :: 0 <= k < |r.value.valAurocs| ==> r.value.valAurocs[k].kind == Accuracy)
              && r.value.testAccuracy.value.kind == Auroc && r.value.testAuroc.value.kind == Accuracy
  {
    var results := new TrainValTestResults();
    var err := RunEpochs(results, epochs, hasCriterion, hasOptimizer, sparseDevice, denseDevice, a, train, val);
    if err.Some? {
      return Failure(err.value);
    }
    var scores := Evaluate(sparseDevice, denseDevice, a, test);
    if scores.Failure? {
      return Failure(scores.error);
    }
    var (testAccuracy, testAuroc) := scores.value;
    results.testAccuracy := Some(testAccuracy);
    results.testAuroc := Some(testAuroc);
    r := Success(results);
  }
}
