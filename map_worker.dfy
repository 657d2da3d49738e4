/**
 * The map worker: one step of its control loop takes the head job, skips it when a cache
 * tier already holds it (and the map view trusts its caches), otherwise renders it,
 * delivers the tile to the frame buffer, stores it in the caches, and stops the renderer
 * once the queue is drained. The renderer, the frame buffer and the thread's interrupt
 * flag are seen only through the results they give the step.
 */
module MapWorker {
  import opened Tiles

  /** What the collaborators answer during one step. */
  datatype StepInputs = StepInputs(
    renderSucceeded: bool,      // the result of `executeJob`
    interrupted: bool,          // `isInterrupted()` after rendering
    frameBufferAccepted: bool,  // the result of `FrameBuffer.drawBitmap`
    memoryEvicted: set<Job>,    // what the in-memory cache drops when a tile is put into it
    fileEvicted: set<Job>)      // what the file-system cache drops when a tile is put into it

  /**
   * The state a step reads and writes. The caches are seen through `containsKey` and
   * `put` only, so each tier is the set of jobs it holds; a `put` may evict other jobs. `renderLog` lists the jobs the
   * renderer was asked to render; the counters count renderer starts and stops and posted
   * invalidations.
   */
  datatype WorkerState = WorkerState(
    queue: seq<Job>,
    memoryTier: set<Job>,
    fileTier: set<Job>,
    rendererWorking: bool,
    rendererStarts: nat,
    rendererStops: nat,
    renderLog: seq<Job>,
    invalidations: nat)

  /** The head job is already cached and the caches are trusted: the step skips it. */
  predicate CacheHit(s: WorkerState, usesBackground: bool)
    requires |s.queue| > 0
  {
    usesBackground && (s.queue[0] in s.memoryTier || s.queue[0] in s.fileTier)
  }

  /** A rendered tile reaches the display: the render succeeded and no interrupt came. */
  predicate Delivered(inputs: StepInputs) {
    inputs.renderSucceeded && !inputs.interrupted
  }

  /** One call of `doWork`, on values. */
  function Step(s: WorkerState, usesBackground: bool, inputs: StepInputs): (t: WorkerState)
    requires |s.queue| > 0
    ensures t.queue == s.queue[1..]
    ensures t.rendererStarts == s.rendererStarts + (if s.rendererWorking then 0 else 1)
    ensures CacheHit(s, usesBackground) ==>
      t.renderLog == s.renderLog && t.memoryTier == s.memoryTier && t.fileTier == s.fileTier &&
      t.invalidations == s.invalidations && t.rendererWorking && t.rendererStops == s.rendererStops
    ensures !CacheHit(s, usesBackground) ==> t.renderLog == s.renderLog + [s.queue[0]]
    ensures !CacheHit(s, usesBackground) && !Delivered(inputs) ==>
      t.memoryTier == s.memoryTier && t.fileTier == s.fileTier && t.invalidations == s.invalidations
    ensures !CacheHit(s, usesBackground) && Delivered(inputs) ==>
      t.invalidations == s.invalidations + 1 &&
      t.memoryTier == (if inputs.frameBufferAccepted && usesBackground
                       then (s.memoryTier - inputs.memoryEvicted) + {s.queue[0]} else s.memoryTier) &&
      t.fileTier == (if usesBackground then (s.fileTier - inputs.fileEvicted) + {s.queue[0]} else s.fileTier)
    ensures !CacheHit(s, usesBackground) ==>
      (t.rendererWorking <==> t.queue != []) &&
      t.rendererStops == s.rendererStops + (if t.queue == [] then 1 else 0)
  {
    var job := s.queue[0];
    var started := s.(rendererWorking := true,
                      rendererStarts := if s.rendererWorking then s.rendererStarts else s.rendererStarts + 1);
    var polled := started.(queue := s.queue[1..]);
    if CacheHit(s, usesBackground) then polled
    else
      var rendered := polled.(renderLog := s.renderLog + [job]);
      var stored :=
        if Delivered(inputs) then
          rendered.(
            memoryTier := if inputs.frameBufferAccepted && usesBackground
                          then (s.memoryTier - inputs.memoryEvicted) + {job} else s.memoryTier,
            invalidations := s.invalidations + 1,
            fileTier := if usesBackground then (s.fileTier - inputs.fileEvicted) + {job} else s.fileTier)
        else rendered;
      if polled.queue == [] then stored.(rendererWorking := false, rendererStops := s.rendererStops + 1)
      else stored
  }

  /**
   * Successive steps, one per input, while the queue has work (no jobs are pushed in
   * between).
   */
  ghost function Run(s: WorkerState, usesBackground: bool, steps: seq<StepInputs>): (t: WorkerState)
    ensures |t.queue| <= |s.queue| && (|steps| >= |s.queue| ==> t.queue == [])
    ensures s.rendererStarts <= t.rendererStarts <= s.rendererStarts + |steps|
    ensures s.rendererStops <= t.rendererStops <= s.rendererStops + |steps|
    decreases |steps|
  {
    if steps == [] || s.queue == [] then s
    else Run(Step(s, usesBackground, steps[0]), usesBackground, steps[1..])
  }

  function Min(a: nat, b: nat): nat {
    if a <= b then a else b
  }

  /** Every job some step of the run may evict from the in-memory cache. */
  function MemoryEvicted(steps: seq<StepInputs>): (e: set<Job>)
    ensures forall i :: 0 <= i < |steps| ==> steps[i].memoryEvicted <= e
    decreases |steps|
  {
    if steps == [] then {} else steps[0].memoryEvicted + MemoryEvicted(steps[1..])
  }

  /** Every job some step of the run may evict from the file-system cache. */
  function FileEvicted(steps: seq<StepInputs>): (e: set<Job>)
    ensures forall i :: 0 <= i < |steps| ==> steps[i].fileEvicted <= e
    decreases |steps|
  {
    if steps == [] then {} else steps[0].fileEvicted + FileEvicted(steps[1..])
  }

  /**
   * One step appends at most one render and posts at most once; a tier loses only jobs
   * that its own cache evicted in this step and gains only the head job.
   */
  lemma StepBounds(s: WorkerState, usesBackground: bool, inputs: StepInputs)
    requires |s.queue| > 0
    ensures var t := Step(s, usesBackground, inputs);
      |s.renderLog| <= |t.renderLog| <= |s.renderLog| + 1 && t.renderLog[..|s.renderLog|] == s.renderLog &&
      s.memoryTier - inputs.memoryEvicted <= t.memoryTier <= s.memoryTier + {s.queue[0]} &&
      s.fileTier - inputs.fileEvicted <= t.fileTier <= s.fileTier + {s.queue[0]} &&
      t.invalidations <= s.invalidations + 1
  {
  }

  /** The two caches evict independently: a put may drop a job from memory while the file tier keeps it. */
  lemma TiersEvictIndependently(job: Job, other: Job)
    requires job != other
    ensures var t := Step(WorkerState([job], {other}, {other}, true, 0, 0, [], 0), true,
                          StepInputs(true, false, true, {other}, {}));
      other !in t.memoryTier && other in t.fileTier && job in t.memoryTier && job in t.fileTier
  {
  }

  /**
   * A run consumes the queue from the front, one job per step; it only appends to the
   * render log, renders at most one job per step, and a cached job leaves a tier only
   * by eviction.
   */
  lemma {:induction false} RunConsumesQueue(s: WorkerState, usesBackground: bool, steps: seq<StepInputs>)
    ensures var t := Run(s, usesBackground, steps);
      var n := Min(|steps|, |s.queue|);
      t.queue == s.queue[n..] &&
      |s.renderLog| <= |t.renderLog| <= |s.renderLog| + n && t.renderLog[..|s.renderLog|] == s.renderLog &&
      s.memoryTier - MemoryEvicted(steps) <= t.memoryTier && s.fileTier - FileEvicted(steps) <= t.fileTier &&
      t.invalidations <= s.invalidations + n
    decreases |steps|
  {
    if steps != [] && s.queue != [] {
      var next := Step(s, usesBackground, steps[0]);
      StepBounds(s, usesBackground, steps[0]);
      RunConsumesQueue(next, usesBackground, steps[1..]);
      var t := Run(s, usesBackground, steps);
      assert t == Run(next, usesBackground, steps[1..]);
      assert MemoryEvicted(steps) == steps[0].memoryEvicted + MemoryEvicted(steps[1..]);
      assert FileEvicted(steps) == steps[0].fileEvicted + FileEvicted(steps[1..]);
      assert Min(|steps|, |s.queue|) == Min(|steps| - 1, |next.queue|) + 1;
      assert s.queue[1..][Min(|steps| - 1, |s.queue| - 1)..] == s.queue[Min(|steps|, |s.queue|)..];
      assert t.renderLog[..|next.renderLog|][..|s.renderLog|] == t.renderLog[..|s.renderLog|];
    }
  }

  /**
   * With trusted caches, a job that is in a tier and stays there (no step of the run evicts
   * it from that tier, whatever the other tier does) is never handed to the renderer again
   * in the run.
   */
  lemma {:induction false} CachedJobNotRerendered(s: WorkerState, usesBackground: bool, steps: seq<StepInputs>, job: Job)
    requires usesBackground
    requires (job in s.memoryTier && job !in MemoryEvicted(steps)) ||
             (job in s.fileTier && job !in FileEvicted(steps))
    ensures var t := Run(s, usesBackground, steps);
      |s.renderLog| <= |t.renderLog| &&
      forall i :: |s.renderLog| <= i < |t.renderLog| ==> t.renderLog[i] != job
    decreases |steps|
  {
    if steps != [] && s.queue != [] {
      var next := Step(s, usesBackground, steps[0]);
      StepBounds(s, usesBackground, steps[0]);
      assert MemoryEvicted(steps) == steps[0].memoryEvicted + MemoryEvicted(steps[1..]);
      assert FileEvicted(steps) == steps[0].fileEvicted + FileEvicted(steps[1..]);
      CachedJobNotRerendered(next, usesBackground, steps[1..], job);
      RunConsumesQueue(next, usesBackground, steps[1..]);
      var t := Run(s, usesBackground, steps);
      forall i | |s.renderLog| <= i < |next.renderLog|
        ensures t.renderLog[i] != job
      {
        assert t.renderLog[..|next.renderLog|][i] == next.renderLog[i];
      }
    }
  }

  /**
   * With trusted caches, a job whose render is delivered is rendered at that step and,
   * while no later step evicts it from the file tier, never again: that tier holds it.
   */
  lemma RenderedAtMostOnce(s: WorkerState, steps: seq<StepInputs>)
    requires |s.queue| > 0 && |steps| > 0
    requires !CacheHit(s, true) && Delivered(steps[0])
    requires s.queue[0] !in FileEvicted(steps[1..])
    ensures var t := Run(s, true, steps);
      |s.renderLog| < |t.renderLog| && t.renderLog[|s.renderLog|] == s.queue[0] &&
      forall i :: |s.renderLog| < i < |t.renderLog| ==> t.renderLog[i] != s.queue[0]
  {
    var next := Step(s, true, steps[0]);
    assert next.renderLog == s.renderLog + [s.queue[0]] && s.queue[0] in next.fileTier;
    assert Run(s, true, steps) == Run(next, true, steps[1..]);
    CachedJobNotRerendered(next, true, steps[1..], s.queue[0]);
    RunConsumesQueue(next, true, steps[1..]);
  }

  /** Between steps of a run the renderer is running whenever jobs are still queued. */
  lemma {:induction false} RendererBusyWhileQueued(s: WorkerState, usesBackground: bool, steps: seq<StepInputs>)
    requires |s.queue| > 0 && |steps| > 0
    ensures var t := Run(s, usesBackground, steps);
      t.queue != [] ==> t.rendererWorking
    decreases |steps|
  {
    var next := Step(s, usesBackground, steps[0]);
    if |steps| > 1 && next.queue != [] {
      RendererBusyWhileQueued(next, usesBackground, steps[1..]);
    }
  }

  /**
   * A single job, rendered and accepted with trusted caches, ends up in both tiers, is
   * announced once, and the renderer is started once and stopped once.
   */
  lemma SingleJobScenario(job: Job, inputs: StepInputs)
    requires job.tile.zoomLevel == 10 && job.tile.tileX == 5 && job.tile.tileY == 3
    requires inputs == StepInputs(true, false, true, {}, {})
    ensures var t := Step(WorkerState([job], {}, {}, false, 0, 0, [], 0), true, inputs);
      job in t.memoryTier && job in t.fileTier && t.invalidations == 1 &&
      t.queue == [] && !t.rendererWorking && t.rendererStarts == 1 && t.rendererStops == 1 &&
      t.renderLog == [job]
  {
  }

  class Worker {
    var queue: seq<Job>
    var memoryTier: set<Job>
    var fileTier: set<Job>
    var rendererWorking: bool
    var rendererStarts: nat
    var rendererStops: nat
    var renderLog: seq<Job>
    var invalidations: nat
    /** Whether the scratch tile bitmap has been recycled. */
    var bitmapRecycled: bool
    /** `MapView.usesMapsforgeBackground()`: whether cached tiles are trusted and stored. */
    const usesBackground: bool

    /** Takes the queue and both caches of the map view; the renderer is not yet started. */
    constructor (queue: seq<Job>, memoryTier: set<Job>, fileTier: set<Job>, usesBackground: bool)
      ensures State() == WorkerState(queue, memoryTier, fileTier, false, 0, 0, [], 0)
      ensures this.usesBackground == usesBackground && !bitmapRecycled
    {
      this.queue := queue;
      this.memoryTier := memoryTier;
      this.fileTier := fileTier;
      this.usesBackground := usesBackground;
      rendererWorking := false;
      rendererStarts := 0;
      rendererStops := 0;
      renderLog := [];
      invalidations := 0;
      bitmapRecycled := false;
    }

    function State(): WorkerState
      reads this
    {
      WorkerState(queue, memoryTier, fileTier, rendererWorking, rendererStarts, rendererStops, renderLog, invalidations)
    }

    /** `hasWork`: there is a job to take. */
    function HasWork(): (r: bool)
      reads this
      ensures r <==> |queue| > 0
    {
      queue != []
    }

    /** `doWork`: one step of the loop; the thread only enters it when `HasWork()`. */
    method DoWork(inputs: StepInputs)
      requires HasWork()
      modifies this
      ensures State() == Step(old(State()), usesBackground, inputs)
      ensures bitmapRecycled == old(bitmapRecycled)
    {
      if !rendererWorking {
        rendererWorking := true;
        rendererStarts := rendererStarts + 1;
      }

      var job := queue[0];
      queue := queue[1..];

      if job in memoryTier && usesBackground {
        return;
      } else if job in fileTier && usesBackground {
        return;
      }

      renderLog := renderLog + [job];
      var success := inputs.renderSucceeded;

      if !inputs.interrupted && success {
        if inputs.frameBufferAccepted {
          if usesBackground {
            memoryTier := (memoryTier - inputs.memoryEvicted) + {job};
          }
        }
        invalidations := invalidations + 1;

        if usesBackground {
          fileTier := (fileTier - inputs.fileEvicted) + {job};
        }
      }
      if queue == [] {
        rendererWorking := false;
        rendererStops := rendererStops + 1;
      }
    }

    /** `afterRun`: recycles the scratch bitmap and changes nothing else. */
    method AfterRun()
      modifies this
      ensures bitmapRecycled && State() == old(State())
    {
      bitmapRecycled := true;
    }
  }
}
