/** The two-slot training pipeline (TrainPipelineBase): one batch is staged on its
    devices while the previous one runs forward, metrics, criterion, backward and the
    optimizer step.

    The model, the criterion, the optimizer, the metrics and the CUDA streams are
    callbacks whose effect is recorded as an Event in a trace. The first half of the
    module states what one `progress` call does as pure functions over the pipeline's
    observable state (a View); the second half is the pipeline object itself, whose
    methods are proved to follow those functions. */
module Pipeline {
  import opened Wrappers
  import opened Sequences
  import opened Placement

  /** The Python exceptions that can escape `progress`. */
  datatype PyError =
    | AssertionError   // `assert cur_batch is not None`
    | AttributeError   // a tuple has no `record_stream` / `dense_features`; `None.step()`
    | TypeError        // calling `False` (a shadowed `_connect`) or a missing criterion

  /** How a call returns: normally, by StopIteration from the data iterator, or by an error. */
  datatype Outcome = Completed | StopIteration | Raised(error: PyError)

  /** What progress asks of the world, in the order it asks. */
  datatype Event =
    | Pull(serial: nat)              // next(dataloader_iter) produced this batch
    | Staged(serial: nat)            // put_data_in_device on this batch, on the copy stream
    | ZeroGrad                       // model.zero_grad()
    | Join                           // the current stream waits for the copy stream
    | Forward(serial: nat, dense: seq<DenseRow>, sparse: SparseFeatures)
    | Metric(index: nat, labels: seq<Label>)
    | Criterion(labels: seq<Label>)
    | Backward
    | OptimizerStep

  /** What a pipeline is built with: the model's training flag, how many metrics,
      whether a criterion and an optimizer were given, and the two devices. */
  datatype Config = Config(
    training: bool,
    metrics: nat,
    hasCriterion: bool,
    hasOptimizer: bool,
    sparseDevice: Device,
    denseDevice: Device)
  {
    /** A copy stream is created exactly when the sparse device is a CUDA device. */
    predicate HasStream() { sparseDevice.Cuda? }
  }

  /** The arguments progress forwards to put_data_in_device. */
  datatype Args = Args(isDist: bool, rank: nat, worldSize: nat)
  {
    /** A worker's rank is below the world size. */
    predicate Ok() { !isDist ==> rank < worldSize }
  }

  /** The observable pipeline state: the contents of `_cur_batch`, `_connected`, and
      whether `reset` has stored False under the name `_connect`. */
  datatype View = View(cur: Option<PlacedVal>, connected: bool, connectShadowed: bool)

  /** A newly constructed pipeline. */
  const Fresh := View(None, false, false)

  /** One call: how it returned, the state after it, how many items it pulled from
      the iterator and the events it produced. */
  datatype Step = Step(outcome: Outcome, view: View, pulled: nat, events: seq<Event>)

  // ---------------------------------------------------------------------------
  // One call, as functions of the state and the items the iterator has left
  // ---------------------------------------------------------------------------

  /** Staging as the pipeline calls it: its sparse device goes in the dense_device
      slot and its dense device in the sparse_device slot, so dense rows and labels
      land on the pipeline's sparse device and the sparse part on its dense device. */
  function StageBatch(c: Config, a: Args, b: BatchVal): (r: PlacedVal)
    requires a.Ok()
    ensures r.Dense().device == c.sparseDevice && r.Labels().device == c.sparseDevice
    ensures r.Sparse() == To(b.sparse, c.denseDevice)
    ensures r.TripleV? <==> a.isDist
  {
    Place(b, c.sparseDevice, c.denseDevice, a.isDist, a.rank, a.worldSize)
  }

  /** Each metric, in list order, called once with the given labels. */
  function MetricEvents(m: nat, labels: seq<Label>): (r: seq<Event>)
    ensures |r| == m
    ensures forall i :: 0 <= i < m ==> r[i] == Metric(i, labels)
  {
    seq(m, i requires 0 <= i < m => Metric(i, labels))
  }

  /** `_connect`: pull the first batch and stage it. */
  function ConnectSpec(c: Config, a: Args, v: View, rest: seq<BatchVal>): Step
    requires a.Ok()
  {
    if rest == [] then Step(StopIteration, v, 0, [])
    else
      var b := rest[0];
      Step(Completed, v.(cur := Some(StageBatch(c, a, b)), connected := true), 1, [Pull(b.serial), Staged(b.serial)])
  }

  /** `es` when the flag holds, nothing otherwise. */
  function When(flag: bool, es: seq<Event>): seq<Event>
  {
    if flag then es else []
  }

  /** Before the forward: zero_grad when training, then the wait when there is a stream. */
  function Setup(c: Config): seq<Event>
  {
    When(c.training, [ZeroGrad]) + When(c.HasStream(), [Join])
  }

  /** The forward on b and each metric with b's labels. */
  function Body(c: Config, b: BatchVal): seq<Event>
  {
    [Forward(b.serial, b.dense.data, b.sparse.data)] + MetricEvents(c.metrics, b.labels.data)
  }

  /** Criterion and backward when training, then restaging b. */
  function Tail(c: Config, b: BatchVal): seq<Event>
  {
    When(c.training, [Criterion(b.labels.data), Backward]) + [Staged(b.serial)]
  }

  /** What `progress` does with the current batch once `next` has returned:
      zero_grad, wait, forward, metrics, criterion and backward on it, restaging it
      (not the batch just pulled) and the optimizer step. */
  function ConsumeSpec(c: Config, a: Args, v: View): Step
    requires a.Ok() && v.cur.Some?
  {
    if v.cur.value.TripleV? then Step(Raised(AttributeError), v, 0, Setup(c))
    else
      var b := v.cur.value.batch;
      if c.training && !c.hasCriterion then Step(Raised(TypeError), v, 0, Setup(c) + Body(c, b))
      else
        var v' := v.(cur := Some(StageBatch(c, a, b)));
        if c.training && !c.hasOptimizer then Step(Raised(AttributeError), v', 0, Setup(c) + Body(c, b) + Tail(c, b))
        else Step(Completed, v', 0, Setup(c) + Body(c, b) + Tail(c, b) + When(c.training, [OptimizerStep]))
  }

  /** The body of `progress` after the connection check: pull the next batch, check
      that there is a current one, and consume it. */
  function ComputeSpec(c: Config, a: Args, v: View, rest: seq<BatchVal>): Step
    requires a.Ok()
  {
    if rest == [] then Step(StopIteration, v, 0, [])
    else if v.cur.None? then Step(Raised(AssertionError), v, 1, [Pull(rest[0].serial)])
    else
      var s := ConsumeSpec(c, a, v);
      Step(s.outcome, s.view, 1, [Pull(rest[0].serial)] + s.events)
  }

  /** The outcome of consuming batch b once the forward section has run on it. */
  lemma ConsumeAfterForward(c: Config, a: Args, v: View, b: BatchVal)
    requires a.Ok() && v.cur == Some(BatchV(b)) && !(c.training && !c.hasCriterion)
    ensures ConsumeSpec(c, a, v)
         == Step(if c.training && !c.hasOptimizer then Raised(AttributeError) else Completed,
                 v.(cur := Some(StageBatch(c, a, b))), 0,
                 Setup(c) + Body(c, b) + Tail(c, b) + When(c.training && c.hasOptimizer, [OptimizerStep]))
  {
  }

  /** A call whose forward part ran: its event list has a Forward. */
  predicate Forwarded(es: seq<Event>)
  {
    exists i :: 0 <= i < |es| && es[i].Forward?
  }

  /** One `progress` call. */
  function ProgressSpec(c: Config, a: Args, v: View, rest: seq<BatchVal>): (r: Step)
    requires a.Ok()
    // at most the current and the next batch are pulled
    ensures r.pulled <= |rest| && r.pulled <= 2
    ensures r.outcome == Completed ==> r.pulled == (if v.connected then 1 else 2) && r.view.connected
    // StopIteration exactly when the iterator runs out before the forward part
    ensures r.outcome == StopIteration <==>
              (v.connected || !v.connectShadowed) && |rest| < (if v.connected then 1 else 2)
    ensures r.outcome == StopIteration ==> r.pulled == |rest|
  {
    if !v.connected && v.connectShadowed then Step(Raised(TypeError), v, 0, [])
    else if !v.connected then
      var s1 := ConnectSpec(c, a, v, rest);
      if s1.outcome != Completed then s1
      else
        var s2 := ComputeSpec(c, a, s1.view, rest[1..]);
        Step(s2.outcome, s2.view, 1 + s2.pulled, s1.events + s2.events)
    else ComputeSpec(c, a, v, rest)
  }

  /** `reset`: `_cur_batch` becomes None and `_connect` (not `_connected`) False. */
  function ResetSpec(v: View): (r: View)
    ensures r.cur.None? && r.connectShadowed && r.connected == v.connected
  {
    View(None, v.connected, true)
  }

  // ---------------------------------------------------------------------------
  // Repeated calls until the first one that does not complete
  // ---------------------------------------------------------------------------

  /** A whole driving loop: the last call's outcome, the final state, the items
      pulled, the events, and how many calls completed. */
  datatype Run = Run(outcome: Outcome, view: View, pulled: nat, events: seq<Event>, completed: nat)

  function RunSpec(c: Config, a: Args, v: View, rest: seq<BatchVal>): (r: Run)
    requires a.Ok()
    ensures r.outcome != Completed
    ensures r.pulled <= |rest|
    decreases |rest|
  {
    var s := ProgressSpec(c, a, v, rest);
    if s.outcome != Completed then Run(s.outcome, s.view, s.pulled, s.events, 0)
    else
      var t := RunSpec(c, a, s.view, rest[s.pulled..]);
      Run(t.outcome, t.view, s.pulled + t.pulled, s.events + t.events, 1 + t.completed)
  }

  // ---------------------------------------------------------------------------
  // Properties of one call
  // ---------------------------------------------------------------------------

  /** The position of each kind of event in the fixed order of a call; metric i sits
      between the forward and the criterion, in list order. */
  function Rank(e: Event, m: nat): nat
  {
    match e
    case Pull(_) => 0
    case ZeroGrad => 1
    case Join => 2
    case Forward(_, _, _) => 3
    case Metric(i, _) => 4 + i
    case Criterion(_) => 4 + m
    case Backward => 5 + m
    case Staged(_) => 6 + m
    case OptimizerStep => 7 + m
  }

  /** Events in strictly increasing rank: each happens at most once, in that order. */
  predicate Ordered(es: seq<Event>, m: nat)
  {
    forall i, j :: 0 <= i < j < |es| ==> Rank(es[i], m) < Rank(es[j], m)
  }

  predicate RanksBelow(es: seq<Event>, m: nat, bound: nat)
  {
    forall i :: 0 <= i < |es| ==> Rank(es[i], m) < bound
  }

  predicate RanksFrom(es: seq<Event>, m: nat, bound: nat)
  {
    forall i :: 0 <= i < |es| ==> bound <= Rank(es[i], m)
  }

  lemma OrderedAppend(x: seq<Event>, y: seq<Event>, m: nat, bound: nat)
    requires Ordered(x, m) && Ordered(y, m) && RanksBelow(x, m, bound) && RanksFrom(y, m, bound)
    ensures Ordered(x + y, m)
  {
    forall i, j | 0 <= i < j < |x + y| ensures Rank((x + y)[i], m) < Rank((x + y)[j], m) {
      if j < |x| {
      } else if i >= |x| {
        assert (x + y)[i] == y[i - |x|] && (x + y)[j] == y[j - |x|];
      } else {
        assert (x + y)[i] == x[i] && (x + y)[j] == y[j - |x|];
      }
    }
  }

  /** The metric calls are ordered by list position and sit between ranks 4 and 4 + m. */
  lemma MetricEventsRanks(m: nat, labels: seq<Label>)
    ensures Ordered(MetricEvents(m, labels), m)
    ensures RanksFrom(MetricEvents(m, labels), m, 4) && RanksBelow(MetricEvents(m, labels), m, 4 + m)
  {
  }

  lemma SetupRanks(c: Config)
    ensures Ordered(Setup(c), c.metrics) && RanksFrom(Setup(c), c.metrics, 1) && RanksBelow(Setup(c), c.metrics, 3)
  {
  }

  lemma BodyRanks(c: Config, b: BatchVal)
    ensures Ordered(Body(c, b), c.metrics) && RanksFrom(Body(c, b), c.metrics, 3)
    ensures RanksBelow(Body(c, b), c.metrics, 4 + c.metrics)
  {
    MetricEventsRanks(c.metrics, b.labels.data);
    var f := [Forward(b.serial, b.dense.data, b.sparse.data)];
    OrderedAppend(f, MetricEvents(c.metrics, b.labels.data), c.metrics, 4);
  }

  lemma TailRanks(c: Config, b: BatchVal)
    ensures Ordered(Tail(c, b), c.metrics) && RanksFrom(Tail(c, b), c.metrics, 4 + c.metrics)
    ensures RanksBelow(Tail(c, b), c.metrics, 7 + c.metrics)
  {
  }

  lemma FinishRanks(c: Config)
    ensures Ordered(When(c.training, [OptimizerStep]), c.metrics)
    ensures RanksFrom(When(c.training, [OptimizerStep]), c.metrics, 7 + c.metrics)
  {
  }

  lemma RanksBelowAppend(x: seq<Event>, y: seq<Event>, m: nat, bound: nat)
    requires RanksBelow(x, m, bound) && RanksBelow(y, m, bound)
    ensures RanksBelow(x + y, m, bound)
  {
    assert forall i :: 0 <= i < |x + y| ==> (x + y)[i] == if i < |x| then x[i] else y[i - |x|];
  }

  lemma RanksFromAppend(x: seq<Event>, y: seq<Event>, m: nat, bound: nat)
    requires RanksFrom(x, m, bound) && RanksFrom(y, m, bound)
    ensures RanksFrom(x + y, m, bound)
  {
    assert forall i :: 0 <= i < |x + y| ==> (x + y)[i] == if i < |x| then x[i] else y[i - |x|];
  }

  /** Consuming the current batch produces its events in rank order, all after the pull. */
  lemma ConsumeOrdered(c: Config, a: Args, v: View)
    requires a.Ok() && v.cur.Some?
    ensures Ordered(ConsumeSpec(c, a, v).events, c.metrics)
    ensures RanksFrom(ConsumeSpec(c, a, v).events, c.metrics, 1)
  {
    var m := c.metrics;
    SetupRanks(c);
    if v.cur.value.BatchV? {
      var b := v.cur.value.batch;
      BodyRanks(c, b);
      TailRanks(c, b);
      FinishRanks(c);
      var e1 := Setup(c);
      OrderedAppend(e1, Body(c, b), m, 3);
      RanksFromAppend(e1, Body(c, b), m, 1);
      var e2 := e1 + Body(c, b);
      RanksBelowAppend(e1, Body(c, b), m, 4 + m);
      OrderedAppend(e2, Tail(c, b), m, 4 + m);
      RanksFromAppend(e2, Tail(c, b), m, 1);
      var e3 := e2 + Tail(c, b);
      RanksBelowAppend(e2, Tail(c, b), m, 7 + m);
      OrderedAppend(e3, When(c.training, [OptimizerStep]), m, 7 + m);
      RanksFromAppend(e3, When(c.training, [OptimizerStep]), m, 1);
    }
  }

  /** Whatever happens, one call's compute events come in the fixed order
      pull, zero_grad, wait, forward, metrics, criterion, backward, restage, step. */
  lemma ComputeOrdered(c: Config, a: Args, v: View, rest: seq<BatchVal>)
    requires a.Ok()
    ensures Ordered(ComputeSpec(c, a, v, rest).events, c.metrics)
  {
    if rest != [] && v.cur.Some? {
      ConsumeOrdered(c, a, v);
      OrderedAppend([Pull(rest[0].serial)], ConsumeSpec(c, a, v).events, c.metrics, 1);
    }
  }


  /** The events of a call that completes on batch b after pulling item `serial`. */
  function CallEvents(c: Config, b: BatchVal, serial: nat): seq<Event>
  {
    [Pull(serial)] + Setup(c) + Body(c, b) + Tail(c, b) + When(c.training, [OptimizerStep])
  }

  lemma SetupMembers(c: Config)
    ensures ZeroGrad in Setup(c) <==> c.training
    ensures Join in Setup(c) <==> c.HasStream()
    ensures forall e :: e in Setup(c) ==> e.ZeroGrad? || e.Join?
  {
  }

  lemma BodyMembers(c: Config, b: BatchVal)
    ensures Forward(b.serial, b.dense.data, b.sparse.data) in Body(c, b)
    ensures forall i :: 0 <= i < c.metrics ==> Metric(i, b.labels.data) in Body(c, b)
    ensures forall e :: e in Body(c, b) ==> e.Forward? || e.Metric?
  {
    var ms := MetricEvents(c.metrics, b.labels.data);
    assert Body(c, b) == [Forward(b.serial, b.dense.data, b.sparse.data)] + ms;
    forall i | 0 <= i < c.metrics ensures Metric(i, b.labels.data) in Body(c, b) {
      assert ms[i] == Metric(i, b.labels.data);
    }
  }

  lemma TailMembers(c: Config, b: BatchVal)
    ensures Criterion(b.labels.data) in Tail(c, b) <==> c.training
    ensures Backward in Tail(c, b) <==> c.training
    ensures Staged(b.serial) in Tail(c, b)
    ensures forall e :: e in Tail(c, b) ==> e.Criterion? || e.Backward? || e.Staged?
  {
  }

  lemma CallEventsMembers(c: Config, b: BatchVal, serial: nat)
    ensures var es := CallEvents(c, b, serial);
            && es[0] == Pull(serial)
            && Forward(b.serial, b.dense.data, b.sparse.data) in es
            && (forall i :: 0 <= i < c.metrics ==> Metric(i, b.labels.data) in es)
            && Staged(b.serial) in es
            && (ZeroGrad in es <==> c.training)
            && (Criterion(b.labels.data) in es <==> c.training)
            && (Backward in es <==> c.training)
            && (OptimizerStep in es <==> c.training)
            && (Join in es <==> c.HasStream())
  {
    var p, st, bd, tl, o := [Pull(serial)], Setup(c), Body(c, b), Tail(c, b), When(c.training, [OptimizerStep]);
    var es := p + st + bd + tl + o;
    assert CallEvents(c, b, serial) == es;
    SetupMembers(c);
    BodyMembers(c, b);
    TailMembers(c, b);
    assert forall e :: e in o ==> e.OptimizerStep?;
    assert forall e :: e in es <==> e in p || e in st || e in bd || e in tl || e in o;
  }

  /** With a runnable configuration, a call on a pipeline holding b pulls one item,
      completes with exactly the events of CallEvents, and restages b. */
  lemma CompleteCall(c: Config, a: Args, v: View, rest: seq<BatchVal>, b: BatchVal)
    requires a.Ok() && Runnable(c) && v.cur == Some(BatchV(b)) && rest != []
    ensures ComputeSpec(c, a, v, rest)
         == Step(Completed, v.(cur := Some(StageBatch(c, a, b))), 1, CallEvents(c, b, rest[0].serial))
  {
    ConsumeAfterForward(c, a, v, b);
    var p, st, bd, tl, o := [Pull(rest[0].serial)], Setup(c), Body(c, b), Tail(c, b), When(c.training, [OptimizerStep]);
    assert When(c.training && c.hasOptimizer, [OptimizerStep]) == o;
    AppendAssoc(p, st + bd + tl, o);
    AppendAssoc(p, st + bd, tl);
    AppendAssoc(p, st, bd);
  }

  /** The only forward of a completed call is on the batch it consumes. */
  lemma CallForwards(c: Config, b: BatchVal, serial: nat)
    ensures forall x :: x in CallEvents(c, b, serial) && x.Forward? ==> x.serial == b.serial
  {
    var p, st, bd, tl, o := [Pull(serial)], Setup(c), Body(c, b), Tail(c, b), When(c.training, [OptimizerStep]);
    assert CallEvents(c, b, serial) == p + st + bd + tl + o;
    SetupMembers(c);
    TailMembers(c, b);
    var ms := MetricEvents(c.metrics, b.labels.data);
    assert bd == [Forward(b.serial, b.dense.data, b.sparse.data)] + ms;
    assert forall x :: x in ms ==> x.Metric?;
    assert forall x :: x in o ==> x.OptimizerStep?;
  }

  /** A completed call on a connected pipeline holding batch b did exactly this:
      pulled the next item, ran forward on b, called every metric with b's labels,
      restaged b, and ran zero_grad, criterion, backward and the optimizer step
      exactly when training, and the wait exactly when there is a copy stream. */
  lemma CompletedCallSteps(c: Config, a: Args, v: View, rest: seq<BatchVal>)
    requires a.Ok() && v.connected
    requires ProgressSpec(c, a, v, rest).outcome == Completed
    ensures v.cur.Some? && v.cur.value.BatchV? && rest != []
    ensures var b := v.cur.value.batch;
            var es := ProgressSpec(c, a, v, rest).events;
            && Ordered(es, c.metrics)
            && es[0] == Pull(rest[0].serial)
            && Forward(b.serial, b.dense.data, b.sparse.data) in es
            && (forall i :: 0 <= i < c.metrics ==> Metric(i, b.labels.data) in es)
            && Staged(b.serial) in es
            && (ZeroGrad in es <==> c.training)
            && (Criterion(b.labels.data) in es <==> c.training)
            && (Backward in es <==> c.training)
            && (OptimizerStep in es <==> c.training)
            && (Join in es <==> c.HasStream())
  {
    assert ProgressSpec(c, a, v, rest) == ComputeSpec(c, a, v, rest);
    ComputeOrdered(c, a, v, rest);
    assert ProgressSpec(c, a, v, rest).events == CallEvents(c, v.cur.value.batch, rest[0].serial);
    CallEventsMembers(c, v.cur.value.batch, rest[0].serial);
  }

  /** The callbacks only a training step makes. */
  predicate TrainingOnly(e: Event)
  {
    e.ZeroGrad? || e.Criterion? || e.Backward? || e.OptimizerStep?
  }

  predicate Untrained(es: seq<Event>)
  {
    forall i :: 0 <= i < |es| ==> !TrainingOnly(es[i])
  }

  lemma UntrainedAppend(x: seq<Event>, y: seq<Event>)
    requires Untrained(x) && Untrained(y)
    ensures Untrained(x + y)
  {
    assert forall i :: 0 <= i < |x + y| ==> (x + y)[i] == if i < |x| then x[i] else y[i - |x|];
  }

  /** In eval mode, consuming the current batch makes no training-only call. */
  lemma UntrainedConsume(c: Config, a: Args, v: View)
    requires a.Ok() && !c.training && v.cur.Some?
    ensures Untrained(ConsumeSpec(c, a, v).events)
  {
    if v.cur.value.BatchV? {
      var b := v.cur.value.batch;
      assert Untrained(Setup(c));
      assert Untrained(Body(c, b)) by {
        assert forall i :: 1 <= i < |Body(c, b)| ==> Body(c, b)[i] == MetricEvents(c.metrics, b.labels.data)[i - 1];
      }
      UntrainedAppend(Setup(c), Body(c, b));
      UntrainedAppend(Setup(c) + Body(c, b), Tail(c, b));
      UntrainedAppend(Setup(c) + Body(c, b) + Tail(c, b), When(c.training, [OptimizerStep]));
    }
  }

  lemma UntrainedCompute(c: Config, a: Args, v: View, rest: seq<BatchVal>)
    requires a.Ok() && !c.training
    ensures Untrained(ComputeSpec(c, a, v, rest).events)
  {
    if rest != [] && v.cur.Some? {
      UntrainedConsume(c, a, v);
      UntrainedAppend([Pull(rest[0].serial)], ConsumeSpec(c, a, v).events);
    }
  }

  /** In evaluation mode a call never zeroes gradients, calls the criterion, runs
      backward or steps the optimizer, however it ends. */
  lemma EvalHasNoTraining(c: Config, a: Args, v: View, rest: seq<BatchVal>)
    requires a.Ok() && !c.training
    ensures forall e :: e in ProgressSpec(c, a, v, rest).events ==> !TrainingOnly(e)
  {
    if v.connected {
      UntrainedCompute(c, a, v, rest);
    } else if !v.connectShadowed && rest != [] {
      var s1 := ConnectSpec(c, a, v, rest);
      UntrainedCompute(c, a, s1.view, rest[1..]);
      UntrainedAppend(s1.events, ComputeSpec(c, a, s1.view, rest[1..]).events);
    }
  }

  /** `next` comes before anything touches the current batch: if it raises
      StopIteration, the call changes nothing but what `_connect` did, and no
      zero_grad, forward, backward or optimizer step happens. */
  lemma StopIterationFirst(c: Config, a: Args, v: View, rest: seq<BatchVal>)
    requires a.Ok()
    requires ProgressSpec(c, a, v, rest).outcome == StopIteration
    ensures var s := ProgressSpec(c, a, v, rest);
            && (v.connected ==> s.view == v && s.events == [])
            && (!v.connected ==> s.view == ConnectSpec(c, a, v, rest).view)
            && (forall e :: e in s.events ==> e.Pull? || e.Staged?)
  {
  }

  /** The pulled batch is dropped: after a completed call `_cur_batch` holds the
      restaged batch that was just consumed, not `next_batch`; without the
      distributed loader it is still the same batch, with the same serial. */
  lemma RestagesConsumedBatch(c: Config, a: Args, v: View, rest: seq<BatchVal>, b: BatchVal)
    requires a.Ok() && v.connected && v.cur == Some(BatchV(b))
    requires ProgressSpec(c, a, v, rest).outcome == Completed
    ensures ProgressSpec(c, a, v, rest).view.cur == Some(StageBatch(c, a, b))
    ensures !a.isDist ==> ProgressSpec(c, a, v, rest).view.cur.value.batch.serial == b.serial
    ensures rest[0].serial != b.serial && !a.isDist ==>
              ProgressSpec(c, a, v, rest).view.cur.value.batch.serial != rest[0].serial
  {
  }

  /** Restaging splits a batch whose rows were already split: without the
      distributed loader the restaged batch never has more dense rows or labels,
      and over two or more ranks it has strictly fewer once there are two or more. */
  lemma RestageShrinks(c: Config, a: Args, b: BatchVal)
    requires a.Ok() && !a.isDist
    ensures var p := StageBatch(c, a, b);
            && |p.Dense().data| <= |b.dense.data| && |p.Labels().data| <= |b.labels.data|
            && (a.worldSize >= 2 && |b.dense.data| >= 2 ==> |p.Dense().data| < |b.dense.data|)
            && (a.worldSize >= 2 && |b.labels.data| >= 2 ==> |p.Labels().data| < |b.labels.data|)
  {
    TensorSplitShrinks(b.dense.data, a.worldSize, a.rank);
    TensorSplitShrinks(b.labels.data, a.worldSize, a.rank);
  }

  /** After a completed call, dense rows and labels have been moved to the
      pipeline's sparse device and the sparse part to its dense device. */
  lemma DevicesSwapped(c: Config, a: Args, v: View, rest: seq<BatchVal>)
    requires a.Ok() && ProgressSpec(c, a, v, rest).outcome == Completed
    ensures var p := ProgressSpec(c, a, v, rest).view.cur;
            p.Some? && p.value.Dense().device == c.sparseDevice && p.value.Sparse().device == c.denseDevice
  {
  }

  /** After reset, a pipeline that had connected fails the `cur_batch is not None`
      assertion (once it has pulled an item), and one that never connected calls
      the False stored under `_connect` and raises TypeError without pulling. */
  lemma ProgressAfterReset(c: Config, a: Args, v: View, rest: seq<BatchVal>)
    requires a.Ok()
    ensures var s := ProgressSpec(c, a, ResetSpec(v), rest);
            && (v.connected && rest != [] ==> s.outcome == Raised(AssertionError) && s.pulled == 1)
            && (!v.connected ==> s.outcome == Raised(TypeError) && s.pulled == 0 && s.events == [])
  {
  }

  /** With the distributed loader the staged tuple cannot be used: the first call
      with two items available fails with AttributeError before any forward. */
  lemma DistributedFails(c: Config, a: Args, rest: seq<BatchVal>)
    requires a.Ok() && a.isDist && |rest| >= 2
    ensures var s := ProgressSpec(c, a, Fresh, rest);
            s.outcome == Raised(AttributeError) && !Forwarded(s.events)
  {
    var s := ProgressSpec(c, a, Fresh, rest);
    var m := ConnectSpec(c, a, Fresh, rest).view;
    assert m.cur.value.TripleV?;
    assert s.events == [Pull(rest[0].serial), Staged(rest[0].serial), Pull(rest[1].serial)]
                       + (if c.training then [ZeroGrad] else []) + (if c.HasStream() then [Join] else []);
  }

  // ---------------------------------------------------------------------------
  // Properties of a whole loop
  // ---------------------------------------------------------------------------

  /** A configuration whose training calls can complete. */
  predicate Runnable(c: Config)
  {
    c.training ==> c.hasCriterion && c.hasOptimizer
  }

  /** The number of Pull events. */
  function Pulls(es: seq<Event>): nat
  {
    if es == [] then 0 else Pulls(es[..|es| - 1]) + if es[|es| - 1].Pull? then 1 else 0
  }

  /** The number of Forward events. */
  function Forwards(es: seq<Event>): nat
  {
    if es == [] then 0 else Forwards(es[..|es| - 1]) + if es[|es| - 1].Forward? then 1 else 0
  }

  /** Starting with `held` batches pulled and not yet forwarded, every prefix of es
      keeps at most two: `cur_batch` and `next_batch`. */
  predicate Lookahead(held: nat, es: seq<Event>)
  {
    forall n :: 0 <= n <= |es| ==> held + Pulls(es[..n]) <= Forwards(es[..n]) + 2
  }

  lemma {:induction false} CountsAppend(x: seq<Event>, y: seq<Event>)
    ensures Pulls(x + y) == Pulls(x) + Pulls(y)
    ensures Forwards(x + y) == Forwards(x) + Forwards(y)
    decreases |y|
  {
    if y == [] {
      assert x + y == x;
    } else {
      assert (x + y)[..|x + y| - 1] == x + y[..|y| - 1];
      CountsAppend(x, y[..|y| - 1]);
    }
  }

  lemma LookaheadAppend(held: nat, x: seq<Event>, y: seq<Event>, next: nat)
    requires Lookahead(held, x)
    requires held + Pulls(x) >= Forwards(x) && held + Pulls(x) - Forwards(x) <= next
    requires Lookahead(next, y)
    ensures Lookahead(held, x + y)
  {
    forall n | 0 <= n <= |x + y| ensures held + Pulls((x + y)[..n]) <= Forwards((x + y)[..n]) + 2 {
      if n <= |x| {
        assert (x + y)[..n] == x[..n];
      } else {
        assert (x + y)[..n] == x + y[..n - |x|];
        CountsAppend(x, y[..n - |x|]);
      }
    }
  }

  /** In an ordered event list there is at most one Pull and at most one Forward. */
  lemma {:induction false} OrderedCounts(es: seq<Event>, m: nat)
    requires Ordered(es, m)
    ensures Pulls(es) <= 1 && Forwards(es) <= 1
    decreases |es|
  {
    if es != [] {
      var init := es[..|es| - 1];
      assert Ordered(init, m);
      OrderedCounts(init, m);
      var last := es[|es| - 1];
      if last.Pull? {
        assert init == [];
      }
      if last.Forward? {
        forall i | 0 <= i < |init| ensures !init[i].Forward? {
          assert Rank(es[i], m) < Rank(last, m);
        }
        NoForwards(init);
      }
    }
  }

  lemma {:induction false} ForwardCounted(es: seq<Event>, i: nat)
    requires i < |es| && es[i].Forward?
    ensures Forwards(es) >= 1
    decreases |es|
  {
    if i < |es| - 1 {
      ForwardCounted(es[..|es| - 1], i);
    }
  }

  lemma {:induction false} NoForwards(es: seq<Event>)
    requires forall i :: 0 <= i < |es| ==> !es[i].Forward?
    ensures Forwards(es) == 0
    decreases |es|
  {
    if es != [] {
      NoForwards(es[..|es| - 1]);
    }
  }

  /** One call on a connected pipeline pulls at most one item and never holds more
      than two batches; when it completes it has forwarded. */
  lemma ComputeLookahead(c: Config, a: Args, v: View, rest: seq<BatchVal>)
    requires a.Ok()
    ensures var s := ComputeSpec(c, a, v, rest);
            && Lookahead(1, s.events)
            && Pulls(s.events) <= 1 && Forwards(s.events) <= 1
            && (s.outcome == Completed ==> Forwards(s.events) == 1)
  {
    var s := ComputeSpec(c, a, v, rest);
    var es := s.events;
    var m := c.metrics;
    ComputeOrdered(c, a, v, rest);
    forall n | 0 <= n <= |es| ensures 1 + Pulls(es[..n]) <= Forwards(es[..n]) + 2 {
      assert Ordered(es[..n], m) by {
        forall i, j | 0 <= i < j < n ensures Rank(es[..n][i], m) < Rank(es[..n][j], m) {
          assert es[..n][i] == es[i] && es[..n][j] == es[j];
        }
      }
      OrderedCounts(es[..n], m);
    }
    OrderedCounts(es, m);
    if s.outcome == Completed {
      var b := v.cur.value.batch;
      CompleteCall(c, a, v, rest, b);
      CallEventsMembers(c, b, rest[0].serial);
      var f := Forward(b.serial, b.dense.data, b.sparse.data);
      var k :| 0 <= k < |es| && es[k] == f;
      ForwardCounted(es, k);
    }
  }

  /** Along a whole loop from a connected pipeline, no prefix of the trace holds
      more than two pulled batches that have not been forwarded. */
  lemma {:induction false} RunLookaheadConnected(c: Config, a: Args, v: View, rest: seq<BatchVal>)
    requires a.Ok() && v.connected
    ensures Lookahead(1, RunSpec(c, a, v, rest).events)
    decreases |rest|
  {
    var s := ProgressSpec(c, a, v, rest);
    ComputeLookahead(c, a, v, rest);
    if s.outcome == Completed {
      RunLookaheadConnected(c, a, s.view, rest[s.pulled..]);
      LookaheadAppend(1, s.events, RunSpec(c, a, s.view, rest[s.pulled..]).events, 1);
    }
  }

  /** Bounded lookahead from a fresh pipeline: `_connect` stages one batch, and from
      then on at most `cur_batch` and `next_batch` are held. */
  lemma RunLookahead(c: Config, a: Args, rest: seq<BatchVal>)
    requires a.Ok()
    ensures Lookahead(0, RunSpec(c, a, Fresh, rest).events)
  {
    if rest != [] {
      var s1 := ConnectSpec(c, a, Fresh, rest);
      var e := s1.events;
      assert e[..0] == [] && e[..1] == [Pull(rest[0].serial)] && e[..2] == e;
      assert Pulls(e[..1]) == 1 && Forwards(e[..1]) == 0;
      assert Pulls(e) == 1 && Forwards(e) == 0;
      assert Lookahead(0, e);
      var s2 := ComputeSpec(c, a, s1.view, rest[1..]);
      ComputeLookahead(c, a, s1.view, rest[1..]);
      LookaheadAppend(0, e, s2.events, 1);
      var s := ProgressSpec(c, a, Fresh, rest);
      assert s.events == e + s2.events;
      if s.outcome == Completed {
        CountsAppend(e, s2.events);
        RunLookaheadConnected(c, a, s.view, rest[s.pulled..]);
        LookaheadAppend(0, s.events, RunSpec(c, a, s.view, rest[s.pulled..]).events, 1);
      }
    }
  }

  /** Every forward in a loop on a connected, non-distributed pipeline holding batch
      b runs on b: the batches pulled later are never forwarded. With a runnable
      configuration the loop ends in StopIteration after one call per remaining item. */
  lemma {:induction false} RunFromConnected(c: Config, a: Args, v: View, rest: seq<BatchVal>, b: BatchVal)
    requires a.Ok() && !a.isDist && Runnable(c) && v.connected && v.cur.Some? && v.cur.value.BatchV?
    requires v.cur.value.batch.serial == b.serial
    ensures var r := RunSpec(c, a, v, rest);
            && r.outcome == StopIteration
            && r.completed == |rest| && r.pulled == |rest|
            && (forall e :: e in r.events && e.Forward? ==> e.serial == b.serial)
    decreases |rest|
  {
    if rest != [] {
      var bv := v.cur.value.batch;
      CompleteCall(c, a, v, rest, bv);
      var s := ProgressSpec(c, a, v, rest);
      RunFromConnected(c, a, s.view, rest[1..], b);
      CallForwards(c, bv, rest[0].serial);
    }
  }

  /** The first call on a fresh pipeline over two or more items connects on the
      first, completes on it after pulling the second, and leaves it restaged twice. */
  lemma FreshRunUnfold(c: Config, a: Args, items: seq<BatchVal>)
    requires a.Ok() && !a.isDist && Runnable(c) && |items| >= 2
    ensures var b := StageBatch(c, a, items[0]).batch;
            var v := View(Some(StageBatch(c, a, b)), true, false);
            var t := RunSpec(c, a, v, items[2..]);
            var r := RunSpec(c, a, Fresh, items);
            && StageBatch(c, a, b).BatchV?
            && r.outcome == t.outcome && r.pulled == 2 + t.pulled && r.completed == 1 + t.completed
            && r.events == [Pull(items[0].serial), Staged(items[0].serial)] + CallEvents(c, b, items[1].serial) + t.events
  {
    var b := StageBatch(c, a, items[0]).batch;
    var s1 := ConnectSpec(c, a, Fresh, items);
    assert s1.view == View(Some(BatchV(b)), true, false);
    CompleteCall(c, a, s1.view, items[1..], b);
    var s := ProgressSpec(c, a, Fresh, items);
    assert s.outcome == Completed && s.pulled == 2;
    assert s.events == s1.events + CallEvents(c, b, items[1].serial);
  }

  /** The first item alone: `_connect` stages it and the next call stops. */
  lemma FreshRunSingle(c: Config, a: Args, items: seq<BatchVal>)
    requires a.Ok() && |items| == 1
    ensures RunSpec(c, a, Fresh, items).events == [Pull(items[0].serial), Staged(items[0].serial)]
  {
  }

  /** `_train` / `_evaluate` on n items: n - 1 calls complete (none when n == 0), the
      loop ends in StopIteration having pulled every item, and every forward runs on
      the first item, which is restaged again and again. */
  lemma RunFromFresh(c: Config, a: Args, items: seq<BatchVal>)
    requires a.Ok() && !a.isDist && Runnable(c)
    ensures var r := RunSpec(c, a, Fresh, items);
            && r.outcome == StopIteration
            && r.pulled == |items|
            && r.completed == (if items == [] then 0 else |items| - 1)
            && (forall e :: e in r.events && e.Forward? ==> e.serial == items[0].serial)
  {
    if |items| == 1 {
      FreshRunSingle(c, a, items);
    } else if |items| >= 2 {
      var b := StageBatch(c, a, items[0]).batch;
      var v := View(Some(StageBatch(c, a, b)), true, false);
      FreshRunUnfold(c, a, items);
      RunFromConnected(c, a, v, items[2..], b);
      CallForwards(c, b, items[1].serial);
    }
  }
}
