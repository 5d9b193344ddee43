/** The pipeline object of recsys/dlrm_main_pipeline.py and the iterator it pulls
    from. Each method is proved to do what the matching function of module Pipeline
    says, so every property proved there holds of the object. */
module TrainPipeline {
  import opened Wrappers
  import opened Placement
  import opened Pipeline
  import opened Sequences

  /** An iterator over a data loader: each `next` builds a new batch object. */
  class DataIter {
    const items: seq<BatchVal>
    var pos: nat

    predicate Valid()
      reads this
    {
      pos <= |items|
    }

    /** The items `next` has yet to produce. */
    function Rest(): seq<BatchVal>
      reads this
      requires Valid()
    {
      items[pos..]
    }

    constructor (items: seq<BatchVal>)
      ensures this.items == items && pos == 0 && Valid()
    {
      this.items := items;
      pos := 0;
    }

    /** `next(it)`: None stands for the StopIteration Python raises at the end. */
    method Next() returns (r: Option<Batch>)
      requires Valid()
      modifies this
      ensures Valid()
      ensures old(Rest()) == [] ==> r.None? && pos == old(pos)
      ensures old(Rest()) != [] ==>
                r.Some? && fresh(r.value) && r.value.Value() == old(Rest())[0] && pos == old(pos) + 1
    {
      if pos == |items| {
        r := None;
      } else {
        var b := new Batch(items[pos]);
        r := Some(b);
        pos := pos + 1;
      }
    }
  }

  /** Where the model, the metrics, the criterion, the optimizer and the streams
      leave their mark: the sequence of calls made to them. */
  class Callbacks {
    var log: seq<Event>

    constructor ()
      ensures log == []
    {
      log := [];
    }
  }

  /** `_wait_for_batch(batch, stream)`: nothing without a copy stream; otherwise the
      current stream waits for the copy stream and the batch's `record_stream` is
      called, which a (dense, sparse, labels) tuple does not have. */
  method WaitForBatch(p: Placed, hasStream: bool, world: Callbacks) returns (ok: bool)
    modifies world
    ensures world.log == old(world.log) + When(hasStream, [Join])
    ensures ok <==> !(hasStream && p.Triple?)
  {
    if !hasStream {
      return true;
    }
    world.log := world.log + [Join];
    ok := !p.Triple?;
  }

  /** TrainPipelineBase: `_cur_batch`, `_connected`, and `_connect` once reset has
      overwritten it with False. */
  class TrainPipelineBase {
    const config: Config
    const world: Callbacks
    var cur: Option<Placed>
    var connected: bool
    var connectShadowed: bool

    /** The batch object `_cur_batch` refers to, if it is one. */
    function Held(): set<object>
      reads this
    {
      if cur.Some? then Objects(cur.value) else {}
    }

    /** The observable state, as Pipeline's functions see it. */
    function State(): View
      reads this, Held()
    {
      View(if cur.Some? then Some(ValueOf(cur.value)) else None, connected, connectShadowed)
    }

    constructor (config: Config, world: Callbacks)
      ensures this.config == config && this.world == world && State() == Fresh
    {
      this.config := config;
      this.world := world;
      cur := None;
      connected := false;
      connectShadowed := false;
    }

    /** `reset`. */
    method Reset()
      modifies this
      ensures State() == ResetSpec(old(State()))
    {
      connectShadowed := true;
      cur := None;
    }

    /** `_connect`: pull the first batch and stage it with the swapped devices. */
    method Connect(it: DataIter, a: Args) returns (ok: bool)
      requires it.Valid() && a.Ok()
      modifies this, it, world
      ensures it.Valid()
      ensures var s := ConnectSpec(config, a, old(State()), old(it.Rest()));
              && ok == (s.outcome == Completed)
              && State() == s.view
              && it.pos == old(it.pos) + s.pulled
              && world.log == old(world.log) + s.events
      ensures fresh(Held() - old(Held()))
    {
      var next := it.Next();
      if next.None? {
        return false;
      }
      var batch := next.value;
      world.log := world.log + [Pull(batch.serial)];
      cur := Some(InPlace(batch));
      var placed := PutDataInDevice(batch, config.sparseDevice, config.denseDevice, a.isDist, a.rank, a.worldSize);
      cur := Some(placed);
      world.log := world.log + [Staged(batch.serial)];
      connected := true;
      ok := true;
    }

    /** `for metric in self._metrics: metric(preds, cur_batch.labels)`. */
    method CallMetrics(labels: seq<Label>)
      modifies world
      ensures world.log == old(world.log) + MetricEvents(config.metrics, labels)
    {
      var i := 0;
      while i < config.metrics
        invariant 0 <= i <= config.metrics
        invariant world.log == old(world.log) + MetricEvents(i, labels)
      {
        assert MetricEvents(i + 1, labels) == MetricEvents(i, labels) + [Metric(i, labels)];
        world.log := world.log + [Metric(i, labels)];
        i := i + 1;
      }
    }

    /** The forward section: the model on the current batch and each metric; false
        when training without a criterion, which Python would call and fail on. */
    method RunModel(b: Batch) returns (ok: bool)
      modifies world
      ensures ok <==> !(config.training && !config.hasCriterion)
      ensures world.log == old(world.log) + Body(config, b.Value())
    {
      world.log := world.log + [Forward(b.serial, b.dense.data, b.sparse.data)];
      CallMetrics(b.labels.data);
      ok := !(config.training && !config.hasCriterion);
    }

    /** The rest of a call once the forward has run on b: criterion and backward when
        training; `self._cur_batch = next_batch`, overwritten at once by staging b, the
        batch just consumed; then the optimizer step when training (AttributeError
        when there is no optimizer). */
    method Restage(b: Batch, next: Batch, a: Args) returns (outcome: Outcome)
      requires a.Ok() && cur == Some(InPlace(b))
      modifies this, world, b
      ensures State() == old(State()).(cur := Some(StageBatch(config, a, old(b.Value()))))
      ensures world.log == old(world.log) + (Tail(config, old(b.Value()))
                                            + When(config.training && config.hasOptimizer, [OptimizerStep]))
      ensures outcome == if config.training && !config.hasOptimizer then Raised(AttributeError) else Completed
      ensures fresh(Held() - old(Held()))
      ensures !a.isDist ==> cur == old(cur)
    {
      if config.training {
        world.log := world.log + [Criterion(b.labels.data), Backward];
      }
      cur := Some(InPlace(next));
      var placed := PutDataInDevice(b, config.sparseDevice, config.denseDevice, a.isDist, a.rank, a.worldSize);
      cur := Some(placed);
      world.log := world.log + [Staged(b.serial)];
      if config.training {
        if !config.hasOptimizer {
          return Raised(AttributeError);
        }
        world.log := world.log + [OptimizerStep];
      }
      return Completed;
    }

    /** What `progress` does with `_cur_batch` once `next` has returned. */
    method Consume(next: Batch, a: Args) returns (outcome: Outcome)
      requires a.Ok() && cur.Some?
      modifies this, world, Held()
      ensures var s := ConsumeSpec(config, a, old(State()));
              && outcome == s.outcome
              && State() == s.view
              && world.log == old(world.log) + s.events
      ensures fresh(Held() - old(Held()))
      ensures !a.isDist && outcome == Completed ==> cur == old(cur)
    {
      ghost var v0 := State();
      var held := cur.value;
      if config.training {
        world.log := world.log + [ZeroGrad];
      }
      assert world.log == old(world.log) + When(config.training, [ZeroGrad]);
      var ok := WaitForBatch(held, config.HasStream(), world);
      AppendAssoc(old(world.log), When(config.training, [ZeroGrad]), When(config.HasStream(), [Join]));
      if !ok || held.Triple? {
        return Raised(AttributeError);
      }
      var b := held.batch;
      ghost var bv := b.Value();
      var fine := RunModel(b);
      ghost var sb := Setup(config) + Body(config, bv);
      AppendAssoc(old(world.log), Setup(config), Body(config, bv));
      if !fine {
        return Raised(TypeError);
      }
      outcome := Restage(b, next, a);
      ConsumeAfterForward(config, a, v0, bv);
      ghost var w := When(config.training && config.hasOptimizer, [OptimizerStep]);
      AppendAssoc(old(world.log), sb, Tail(config, bv) + w);
      AppendAssoc(sb, Tail(config, bv), w);
    }

    /** The body of `progress` after the connection check. */
    method Compute(it: DataIter, a: Args) returns (outcome: Outcome)
      requires it.Valid() && a.Ok()
      modifies this, it, world, Held()
      ensures it.Valid()
      ensures var s := ComputeSpec(config, a, old(State()), old(it.Rest()));
              && outcome == s.outcome
              && State() == s.view
              && it.pos == old(it.pos) + s.pulled
              && world.log == old(world.log) + s.events
      ensures fresh(Held() - old(Held()))
      ensures !a.isDist && outcome == Completed ==> cur == old(cur)
    {
      var next := it.Next();
      assert cur == old(cur) && unchanged(Held());
      if next.None? {
        return StopIteration;
      }
      world.log := world.log + [Pull(next.value.serial)];
      assert cur == old(cur) && unchanged(Held());
      if cur.None? {
        return Raised(AssertionError);
      }
      outcome := Consume(next.value, a);
    }

    /** `progress(dataloader_iter, use_distributed_dataloader, rank, world_size)`. */
    method Progress(it: DataIter, a: Args) returns (outcome: Outcome)
      requires it.Valid() && a.Ok()
      modifies this, it, world, Held()
      ensures it.Valid()
      ensures var s := ProgressSpec(config, a, old(State()), old(it.Rest()));
              && outcome == s.outcome
              && State() == s.view
              && it.pos == old(it.pos) + s.pulled
              && world.log == old(world.log) + s.events
      ensures fresh(Held() - old(Held()))
      // without the distributed loader the batch object is restaged in place
      ensures old(connected) && !a.isDist && outcome == Completed ==> cur == old(cur)
    {
      if !connected {
        if connectShadowed {
          return Raised(TypeError);
        }
        var ok := Connect(it, a);
        if !ok {
          return StopIteration;
        }
      }
      outcome := Compute(it, a);
    }
  }
}
