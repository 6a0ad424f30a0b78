/**
 * The data processor template: a basic tool that works through a number of
 * batches, one per tick of a repeating timer, reporting progress after
 * each batch and completion (or failure, or cancellation) at the end. It
 * can be paused and resumed. The Blueprint hooks and the two delegates it
 * fires are recorded in the ghost `events` log; the progress broadcast of
 * the base tool lands in the base's own log.
 */
module DataProcessorTemplate {
  import opened TwinTypes
  import opened BasicToolTemplate

  datatype ProcessorEvent =
    | InitializeProcessing
    | ProcessDataBatch(batchIndex: int)
    | FinalizeProcessing
    | ProgressUpdated(progress: real, status: string)
    | ProcessingComplete(success: bool, result: string)

  /** The repeating processing timer: not set, ticking, or paused. */
  datatype TimerState = Cleared | Ticking | Suspended

  /** The metadata the template's constructor sets over the basic defaults. */
  function DataProcessorDefaults(supportedModes: seq<AppMode>): (m: ToolMetadata)
    ensures m.toolName == "Data Processor" && m.category == Analysis
    ensures m == BasicToolDefaults(supportedModes).(toolName := m.toolName, description := m.description,
                                                    category := m.category)
  {
    BasicToolDefaults(supportedModes).(toolName := "Data Processor",
                                       description := "A data processing tool template",
                                       category := Analysis)
  }

  /** Progress clamped to the unit interval. */
  function Clamp(p: real): (r: real)
    ensures 0.0 <= r <= 1.0
    ensures 0.0 <= p <= 1.0 ==> r == p
    ensures p < 0.0 ==> r == 0.0
    ensures p > 1.0 ==> r == 1.0
  {
    if p < 0.0 then 0.0 else if p > 1.0 then 1.0 else p
  }

  /** The status reported after a batch. */
  function BatchStatus(batch: int, total: int): string
  {
    "Processing batch " + IntText(batch) + "/" + IntText(total)
  }

  class DataProcessor {
    const core: BasicTool
    /** Whether the tool has a world, and so a timer manager. */
    const hasWorld: bool
    var isProcessing: bool
    var isPaused: bool
    var progress: real
    var status: string
    var currentBatch: int
    var totalBatches: int
    var timer: TimerState
    ghost var events: seq<ProcessorEvent>

    /**
     * The invariant that holds between any two steps, even in the middle of
     * starting: pausing needs a run, progress stays in [0, 1], and the timer
     * is only set while processing and with a world, paused exactly when the
     * run is paused.
     */
    ghost predicate Settled()
      reads this, core
    {
      core.Valid() &&
      (isPaused ==> isProcessing) &&
      0.0 <= progress <= 1.0 &&
      (!isProcessing ==> timer == Cleared) &&
      (timer != Cleared ==> hasWorld && (timer == Suspended <==> isPaused))
    }

    /**
     * Between public calls, also: a run has at least one batch and its batch
     * counter lies within [0, total], and with a world its timer is set.
     */
    ghost predicate Valid()
      reads this, core
    {
      Settled() &&
      (isProcessing ==> 0 < totalBatches && 0 <= currentBatch <= totalBatches) &&
      (isProcessing && hasWorld ==> timer != Cleared)
    }

    constructor(metadata: ToolMetadata, widgetClassLoads: bool, hasWorld: bool)
      ensures Valid() && fresh(core)
      ensures core.metadata == metadata && core.widgetClassLoads == widgetClassLoads
      ensures !core.isActive && !core.isInitialized && core.events == []
      ensures this.hasWorld == hasWorld
      ensures !isProcessing && !isPaused && progress == 0.0 && status == ""
      ensures currentBatch == 0 && totalBatches == 0 && timer == Cleared && events == []
    {
      core := new BasicTool(metadata, widgetClassLoads);
      this.hasWorld := hasWorld;
      isProcessing := false;
      isPaused := false;
      progress := 0.0;
      status := "";
      currentBatch := 0;
      totalBatches := 0;
      timer := Cleared;
      events := [];
    }

    /** A run in progress has a batch counter within its positive total; an idle processor has no timer. */
    function IsProcessing(): (r: bool)
      requires Valid()
      reads this, core
      ensures r ==> 0 < totalBatches && 0 <= currentBatch <= totalBatches
      ensures !r ==> !isPaused && timer == Cleared
    {
      isProcessing
    }

    /** Only a run in progress can be paused, and with a world its timer is then suspended. */
    function IsPaused(): (r: bool)
      requires Valid()
      reads this, core
      ensures r ==> isProcessing
      ensures hasWorld && isProcessing ==> (r <==> timer == Suspended)
    {
      isPaused
    }

    /** The progress always lies in the unit interval. */
    function GetProgress(): (r: real)
      requires Valid()
      reads this, core
      ensures 0.0 <= r <= 1.0
    {
      progress
    }

    /** Stores the clamped progress and the status, and announces both on both channels. */
    method UpdateProgress(p: real, newStatus: string)
      requires Settled()
      modifies this, core
      ensures Settled()
      ensures progress == Clamp(p) && status == newStatus
      ensures events == old(events) + [ProgressUpdated(Clamp(p), newStatus)]
      ensures core.events == old(core.events) + [ProgressReported(Clamp(p), newStatus)]
      ensures isProcessing == old(isProcessing) && isPaused == old(isPaused) && timer == old(timer)
      ensures currentBatch == old(currentBatch) && totalBatches == old(totalBatches)
      ensures core.isActive == old(core.isActive) && core.isInitialized == old(core.isInitialized)
    {
      progress := Clamp(p);
      status := newStatus;
      events := events + [ProgressUpdated(progress, status)];
      core.BroadcastProgress(progress, status);
    }

    /**
     * Ends a run: clears the timer, stops, and on success sets progress to 1
     * and finalises; then announces the outcome. Does nothing when idle.
     */
    method InternalCompleteProcessing(success: bool, result: string)
      requires Settled()
      modifies this, core
      ensures Valid()
      ensures !isProcessing && !isPaused && timer == Cleared
      ensures !old(isProcessing) ==> progress == old(progress) && events == old(events) && core.events == old(core.events)
      ensures old(isProcessing) ==>
                progress == (if success then 1.0 else old(progress)) &&
                events == old(events) + (if success then [FinalizeProcessing] else []) + [ProcessingComplete(success, result)] &&
                core.events == old(core.events) + [ProgressReported(progress, if success then "Completed" else "Failed")]
      ensures currentBatch == old(currentBatch) && totalBatches == old(totalBatches) && status == old(status)
      ensures core.isActive == old(core.isActive) && core.isInitialized == old(core.isInitialized)
    {
      if !isProcessing {
        return;
      }
      if hasWorld {
        timer := Cleared;
      }
      isProcessing := false;
      isPaused := false;
      if success {
        progress := 1.0;
        events := events + [FinalizeProcessing];
      }
      events := events + [ProcessingComplete(success, result)];
      core.BroadcastProgress(progress, if success then "Completed" else "Failed");
    }

    /** CompleteProcessing: the public entry to InternalCompleteProcessing. */
    method CompleteProcessing(success: bool, result: string)
      requires Valid()
      modifies this, core
      ensures Valid()
      ensures !isProcessing && !isPaused && timer == Cleared
      ensures !old(isProcessing) ==> progress == old(progress) && events == old(events) && core.events == old(core.events)
      ensures old(isProcessing) ==>
                progress == (if success then 1.0 else old(progress)) &&
                events == old(events) + (if success then [FinalizeProcessing] else []) + [ProcessingComplete(success, result)] &&
                core.events == old(core.events) + [ProgressReported(progress, if success then "Completed" else "Failed")]
      ensures currentBatch == old(currentBatch) && totalBatches == old(totalBatches) && status == old(status)
      ensures core.isActive == old(core.isActive) && core.isInitialized == old(core.isInitialized)
    {
      InternalCompleteProcessing(success, result);
    }

    /**
     * Begins a run of `totalFromBlueprint` batches. With no batches the run
     * fails at once; otherwise the Blueprint is initialised, the timer set
     * (when there is a world) and progress 0 announced.
     */
    method InternalStartProcessing(totalFromBlueprint: int)
      requires Valid() && !isProcessing
      modifies this, core
      ensures Valid()
      ensures currentBatch == 0 && totalBatches == totalFromBlueprint && progress == 0.0
      ensures totalFromBlueprint <= 0 ==>
                !isProcessing && !isPaused && timer == Cleared && status == old(status) &&
                events == old(events) + [ProcessingComplete(false, "No data to process")] &&
                core.events == old(core.events) + [ProgressReported(0.0, "Failed")]
      ensures totalFromBlueprint > 0 ==>
                isProcessing && !isPaused && timer == (if hasWorld then Ticking else Cleared) &&
                status == "Processing started" &&
                events == old(events) + [InitializeProcessing, ProgressUpdated(0.0, "Processing started")] &&
                core.events == old(core.events) + [ProgressReported(0.0, "Processing started")]
      ensures core.isActive == old(core.isActive) && core.isInitialized == old(core.isInitialized)
    {
      isProcessing := true;
      isPaused := false;
      progress := 0.0;
      currentBatch := 0;
      totalBatches := totalFromBlueprint;
      if totalBatches <= 0 {
        InternalCompleteProcessing(false, "No data to process");
        return;
      }
      events := events + [InitializeProcessing];
      if hasWorld {
        timer := Ticking;
      }
      UpdateProgress(0.0, "Processing started");
    }

    /**
     * StartProcessing: refused while a run is in progress or while the tool
     * is inactive; otherwise starts a run of the batches the Blueprint
     * reports.
     */
    method StartProcessing(totalFromBlueprint: int)
      requires Valid()
      modifies this, core
      ensures Valid()
      ensures old(isProcessing) || !core.isActive ==>
                isProcessing == old(isProcessing) && isPaused == old(isPaused) &&
                currentBatch == old(currentBatch) && totalBatches == old(totalBatches) &&
                progress == old(progress) && status == old(status) && timer == old(timer) && events == old(events) &&
                core.events == old(core.events)
      ensures !old(isProcessing) && core.isActive ==>
                currentBatch == 0 && progress == 0.0 && totalBatches == totalFromBlueprint &&
                (isProcessing <==> totalFromBlueprint > 0) && !isPaused
      ensures !old(isProcessing) && core.isActive && totalFromBlueprint <= 0 ==>
                timer == Cleared && status == old(status) &&
                events == old(events) + [ProcessingComplete(false, "No data to process")] &&
                core.events == old(core.events) + [ProgressReported(0.0, "Failed")]
      ensures !old(isProcessing) && core.isActive && totalFromBlueprint > 0 ==>
                timer == (if hasWorld then Ticking else Cleared) && status == "Processing started" &&
                events == old(events) + [InitializeProcessing, ProgressUpdated(0.0, "Processing started")] &&
                core.events == old(core.events) + [ProgressReported(0.0, "Processing started")]
      ensures core.isActive == old(core.isActive) && core.isInitialized == old(core.isInitialized)
    {
      if isProcessing {
        return;
      }
      if !core.isActive {
        return;
      }
      InternalStartProcessing(totalFromBlueprint);
    }

    /**
     * One timer tick. Idle or paused: nothing. All batches done: the run
     * completes successfully. Otherwise the next batch is processed and the
     * fraction of batches done is reported. The method itself does not look
     * at the timer, so the contract also covers a call in a run without a
     * world, which the engine never ticks.
     */
    method ProcessNextBatch()
      requires Valid()
      modifies this, core
      ensures Valid()
      ensures totalBatches == old(totalBatches) && isPaused == old(isPaused)
      ensures !old(isProcessing) || old(isPaused) ==>
                isProcessing == old(isProcessing) && currentBatch == old(currentBatch) &&
                progress == old(progress) && events == old(events) && timer == old(timer) &&
                status == old(status) && core.events == old(core.events)
      ensures old(isProcessing) && !old(isPaused) && old(currentBatch) >= totalBatches ==>
                !isProcessing && progress == 1.0 && currentBatch == old(currentBatch) && timer == Cleared &&
                status == old(status) &&
                events == old(events) + [FinalizeProcessing, ProcessingComplete(true, "Processing completed successfully")] &&
                core.events == old(core.events) + [ProgressReported(1.0, "Completed")]
      ensures old(isProcessing) && !old(isPaused) && old(currentBatch) < totalBatches ==>
                isProcessing && currentBatch == old(currentBatch) + 1 && timer == old(timer) &&
                progress == currentBatch as real / totalBatches as real &&
                status == BatchStatus(currentBatch, totalBatches) &&
                events == old(events) + [ProcessDataBatch(old(currentBatch)),
                                         ProgressUpdated(progress, BatchStatus(currentBatch, totalBatches))] &&
                core.events == old(core.events) + [ProgressReported(progress, BatchStatus(currentBatch, totalBatches))]
      ensures core.isActive == old(core.isActive) && core.isInitialized == old(core.isInitialized)
    {
      if !isProcessing || isPaused {
        return;
      }
      if currentBatch >= totalBatches {
        InternalCompleteProcessing(true, "Processing completed successfully");
        return;
      }
      ProcessBatch();
    }

    /** The working branch of a tick: processes the next batch and reports the fraction done. */
    method ProcessBatch()
      requires Valid() && isProcessing && !isPaused && currentBatch < totalBatches
      modifies this, core
      ensures Valid()
      ensures totalBatches == old(totalBatches) && isPaused == old(isPaused)
      ensures isProcessing && currentBatch == old(currentBatch) + 1 && timer == old(timer)
      ensures progress == currentBatch as real / totalBatches as real
      ensures status == BatchStatus(currentBatch, totalBatches)
      ensures events == old(events) + [ProcessDataBatch(old(currentBatch)),
                                       ProgressUpdated(progress, BatchStatus(currentBatch, totalBatches))]
      ensures core.events == old(core.events) + [ProgressReported(progress, BatchStatus(currentBatch, totalBatches))]
      ensures core.isActive == old(core.isActive) && core.isInitialized == old(core.isInitialized)
    {
      events := events + [ProcessDataBatch(currentBatch)];
      currentBatch := currentBatch + 1;
      var fraction := currentBatch as real / totalBatches as real;
      assert 0.0 <= fraction <= 1.0;
      UpdateProgress(fraction, BatchStatus(currentBatch, totalBatches));
    }

    /** Stops a run, resetting progress and the batch counter, and reports the cancellation as a failure. */
    method CancelProcessing()
      requires Valid()
      modifies this
      ensures Valid()
      ensures !isProcessing && !isPaused && timer == Cleared
      ensures old(isProcessing) ==>
                progress == 0.0 && currentBatch == 0 &&
                events == old(events) + [ProcessingComplete(false, "Processing cancelled")]
      ensures !old(isProcessing) ==> progress == old(progress) && currentBatch == old(currentBatch) && events == old(events)
      ensures totalBatches == old(totalBatches) && status == old(status)
    {
      if !isProcessing {
        return;
      }
      if hasWorld {
        timer := Cleared;
      }
      isProcessing := false;
      isPaused := false;
      progress := 0.0;
      currentBatch := 0;
      events := events + [ProcessingComplete(false, "Processing cancelled")];
    }

    /** Pauses a running, unpaused run and its timer; otherwise nothing. */
    method PauseProcessing()
      requires Valid()
      modifies this
      ensures Valid()
      ensures isPaused == old(isProcessing)
      ensures isProcessing == old(isProcessing) && progress == old(progress) && currentBatch == old(currentBatch)
      ensures totalBatches == old(totalBatches) && events == old(events)
      ensures status == old(status)
      ensures timer == (if isProcessing && hasWorld then Suspended else Cleared)
    {
      if !isProcessing || isPaused {
        return;
      }
      isPaused := true;
      if hasWorld {
        timer := Suspended;
      }
    }

    /** Resumes a paused run and its timer; otherwise nothing. */
    method ResumeProcessing()
      requires Valid()
      modifies this
      ensures Valid()
      ensures !isPaused
      ensures isProcessing == old(isProcessing) && progress == old(progress) && currentBatch == old(currentBatch)
      ensures totalBatches == old(totalBatches) && events == old(events)
      ensures status == old(status)
      ensures timer == (if isProcessing && hasWorld then Ticking else Cleared)
    {
      if !isProcessing || !isPaused {
        return;
      }
      isPaused := false;
      if hasWorld {
        timer := Ticking;
      }
    }
  }

  /**
   * A run of `total` batches on an active processor takes `total + 1`
   * ticks: one per batch, and one more, after the last batch, that
   * completes it with progress 1.
   */
  method RunToCompletion(total: int) returns (ticks: nat, finalProgress: real, stillProcessing: bool)
    requires total > 0
    ensures ticks == total + 1 && finalProgress == 1.0 && !stillProcessing
  {
    var p := new DataProcessor(DataProcessorDefaults([]), false, true);
    p.core.ActivateTool();
    p.StartProcessing(total);
    ticks := 0;
    while p.isProcessing
      invariant p.Valid()
      invariant p.core.isActive && p.totalBatches == total && !p.isPaused
      invariant ticks <= total + 1
      invariant p.isProcessing ==> p.currentBatch == ticks
      invariant !p.isProcessing ==> ticks == total + 1 && p.progress == 1.0
      decreases total + 1 - ticks
    {
      p.ProcessNextBatch();
      ticks := ticks + 1;
    }
    finalProgress := p.GetProgress();
    stillProcessing := p.IsProcessing();
  }

  /**
   * Ticks while paused do nothing: after one batch and a pause, further
   * ticks leave the batch count at one, and after resuming the next tick
   * processes the second batch.
   */
  method PausedTicksHold() returns (progressWhilePaused: real, progressAfterResume: real)
    ensures progressWhilePaused == 1.0 / 4.0 && progressAfterResume == 2.0 / 4.0
  {
    var p := new DataProcessor(DataProcessorDefaults([]), false, true);
    p.core.ActivateTool();
    p.StartProcessing(4);
    p.ProcessNextBatch();
    p.PauseProcessing();
    p.ProcessNextBatch();
    p.ProcessNextBatch();
    progressWhilePaused := p.GetProgress();
    p.ResumeProcessing();
    p.ProcessNextBatch();
    progressAfterResume := p.GetProgress();
  }
}
