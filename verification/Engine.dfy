/** The inspection engine and the shared unban/delete job as objects: every critical
    section is one method, tied to its function on flags, slot and board. */
module Engine {
  import opened Lifecycle
  import opened InspectionRun
  import opened Identity

  datatype Refusal =
    | ShuttingDown | AlreadyRunning | RowActionBusy | SlotBusy | NeedsResults | NoneInCategory | NothingToApply

  datatype Answer<T> = Accepted(value: T) | Refused(why: Refusal)

  datatype Mode = Full | Incremental | Category(wanted: string -> bool) | Sample

  function ClassOf(r: Row): string {
    match r.verdict
    case Probed(c) => c
    case TimedOut => "probe_error"
    case Cancelled => "probe_error"
  }

  /** Why a run in this mode cannot start on these rows, if the engine is free. */
  predicate HasInput(mode: Mode, rows: seq<Row>) {
    match mode
    case Full => true
    case Sample => true
    case Incremental => rows != []
    case Category(wanted) => exists i :: 0 <= i < |rows| && wanted(ClassOf(rows[i]))
  }

  /** The job of the shared slot, with the counters its status reports. */
  class UnbanJob {
    var running: bool
    var stopped: bool
    var runId: nat
    var total: nat
    var done: nat
    var enabled: nat
    var missing: nat
    var deleted: nat
    var failed: nat

    ghost function SlotView(): Slot
      reads this
    {
      Slot(running, stopped, runId)
    }

    constructor ()
      ensures SlotView() == Slot(false, false, 0)
    {
      running, stopped, runId := false, false, 0;
      total, done, enabled, missing, deleted, failed := 0, 0, 0, 0, 0, 0;
    }

    /** The claim's part under the job's own lock. */
    method Occupy(count: nat) returns (run: nat)
      modifies this
      ensures SlotView() == Claimed(old(SlotView())) && run == runId == old(runId) + 1
      ensures running && !stopped
      ensures total == count && done == enabled == missing == deleted == failed == 0
    {
      runId := runId + 1;
      run := runId;
      running, stopped := true, false;
      total, done, enabled, missing, deleted, failed := count, 0, 0, 0, 0, 0;
    }

    method Stop()
      modifies this`stopped
      ensures SlotView() == SlotStopped(old(SlotView()))
    {
      if !running {
        return;
      }
      stopped := true;
    }

    /** The run number is not looked at. */
    method Release(run: nat)
      modifies this`running
      ensures SlotView() == Released(old(SlotView()))
    {
      running := false;
    }

    method OwnsRun(run: nat) returns (owns: bool)
      ensures owns <==> running && runId == run
    {
      owns := running && runId == run;
    }

    method IsActive(run: nat) returns (active: bool)
      ensures active <==> running && runId == run && !stopped
    {
      active := running && runId == run && !stopped;
    }
  }

  class InspectionEngine {
    var running: bool
    var stopped: bool
    var shuttingDown: bool
    var applying: bool
    var applyDraining: bool
    var applyRunId: nat
    var actionInFlight: int
    var runId: nat
    var lastFinished: nat

    var results: seq<Row>
    var runTargets: seq<AuthFile>
    var total: nat
    var probeDone: nat
    var retryDone: nat
    var fullClearPending: bool
    var merging: bool

    ghost function FlagsView(): Flags
      reads this
    {
      Flags(running, stopped, shuttingDown, applying, applyDraining, applyRunId, actionInFlight, runId, lastFinished)
    }

    ghost function BoardView(): Board
      reads this
    {
      Board(results, runTargets, total, probeDone, retryDone, fullClearPending, merging)
    }

    constructor (rows: seq<Row>)
      ensures FlagsView() == IDLE
      ensures BoardView() == Board(rows, [], 0, 0, 0, false, false)
    {
      running, stopped, shuttingDown, applying, applyDraining := false, false, false, false, false;
      applyRunId, actionInFlight, runId, lastFinished := 0, 0, 0, 0;
      results, runTargets, total, probeDone, retryDone := rows, [], 0, 0, 0;
      fullClearPending, merging := false, false;
    }

    // ---- Starting work ------------------------------------------------------------

    method AnyIn(wanted: string -> bool) returns (any: bool)
      ensures any <==> exists i :: 0 <= i < |results| && wanted(ClassOf(results[i]))
    {
      var matched := 0;
      for i := 0 to |results|
        invariant matched > 0 <==> exists j :: 0 <= j < i && wanted(ClassOf(results[j]))
        invariant matched >= 0
      {
        if wanted(ClassOf(results[i])) {
          matched := matched + 1;
        }
      }
      any := matched > 0;
    }

    /** Why the engine is not free, looked at in this order. */
    method WhyBusy(job: UnbanJob) returns (busy: bool, why: Refusal)
      ensures !busy <==> MayStart(FlagsView(), job.SlotView())
      ensures busy ==> (why == ShuttingDown <==> shuttingDown) && (why == SlotBusy ==> job.running)
      ensures busy ==> why !in {NeedsResults, NoneInCategory}
    {
      if shuttingDown {
        return true, ShuttingDown;
      }
      if running || applying || applyDraining {
        return true, AlreadyRunning;
      }
      if actionInFlight > 0 {
        return true, RowActionBusy;
      }
      busy, why := job.running, SlotBusy;
    }

    method WhyNoInput(mode: Mode) returns (lacking: bool, why: Refusal)
      ensures !lacking <==> HasInput(mode, results)
      ensures lacking ==> why in {NeedsResults, NoneInCategory}
    {
      if (mode.Incremental? || mode.Category?) && results == [] {
        return true, NeedsResults;
      }
      lacking, why := false, NoneInCategory;
      if mode.Category? {
        var any := AnyIn(mode.wanted);
        lacking := !any;
      }
    }

    /** Busy reasons come before missing input. */
    method StartRun(job: UnbanJob, mode: Mode) returns (a: Answer<nat>)
      modifies this
      ensures a.Accepted? <==> MayStart(old(FlagsView()), job.SlotView()) && HasInput(mode, old(results))
      ensures FlagsView() == if a.Accepted? then Started(old(FlagsView())) else old(FlagsView())
      ensures BoardView() == if a.Accepted? then StartedBoard(old(BoardView()), mode.Full?) else old(BoardView())
      ensures a.Accepted? ==> running && a.value == old(runId) + 1 && Live(a.value)
      ensures a.Accepted? && (mode.Incremental? || mode.Category?) ==> results != []
      ensures a.Refused? ==>
        (a.why in {NeedsResults, NoneInCategory} <==> MayStart(old(FlagsView()), job.SlotView()))
    {
      hide MayStart, StartedBoard;
      var busy, why := WhyBusy(job);
      if busy {
        return Refused(why);
      }
      busy, why := WhyNoInput(mode);
      if busy {
        return Refused(why);
      }
      ResetBoard(mode.Full?);
      BeginRun();
      a := Accepted(runId);
    }

    method ResetBoard(full: bool)
      modifies this`runTargets, this`merging, this`fullClearPending, this`total, this`probeDone, this`retryDone
      ensures BoardView() == StartedBoard(old(BoardView()), full)
    {
      runTargets, merging, fullClearPending := [], false, full;
      total, probeDone, retryDone := 0, 0, 0;
    }

    /** Takes a new token. */
    method BeginRun()
      modifies this`running, this`stopped, this`applying, this`runId
      ensures FlagsView() == Started(old(FlagsView()))
      ensures running && runId == old(runId) + 1 && Live(runId)
    {
      running, stopped, applying := true, false, false;
      runId := runId + 1;
    }

    method StartApply(job: UnbanJob, candidates: nat) returns (a: Answer<nat>)
      modifies this`applying, this`applyRunId
      ensures a.Accepted? <==> MayStart(old(FlagsView()), job.SlotView()) && candidates > 0
      ensures FlagsView() == if a.Accepted? then ApplyStarted(old(FlagsView())) else old(FlagsView())
      ensures a.Accepted? ==> applying && a.value == applyRunId == old(applyRunId) + 1
    {
      if shuttingDown {
        return Refused(ShuttingDown);
      }
      if running || applying || applyDraining || actionInFlight > 0 {
        return Refused(AlreadyRunning);
      }
      if job.running {
        return Refused(SlotBusy);
      }
      if candidates == 0 {
        return Refused(NothingToApply);
      }
      applying := true;
      applyRunId := applyRunId + 1;
      a := Accepted(applyRunId);
    }

    /** The deferred exit of the apply goroutine. */
    method ExitApply(apply: nat)
      modifies this`applying, this`applyDraining
      ensures FlagsView() == ApplyExited(old(FlagsView()))
    {
      if applyRunId == apply {
        applying := false;
      }
      applyDraining := false;
      applying := false;
    }

    /** Row actions may overlap each other. */
    method StartAction(job: UnbanJob) returns (a: Answer<()>)
      modifies this`actionInFlight
      ensures a.Accepted? <==> MayAct(old(FlagsView()), job.SlotView())
      ensures FlagsView() == if a.Accepted? then ActionStarted(old(FlagsView())) else old(FlagsView())
    {
      if shuttingDown {
        return Refused(ShuttingDown);
      }
      if running || applying || applyDraining {
        return Refused(AlreadyRunning);
      }
      if job.running {
        return Refused(SlotBusy);
      }
      actionInFlight := actionInFlight + 1;
      a := Accepted(());
    }

    method ExitAction()
      modifies this`actionInFlight
      ensures FlagsView() == ActionExited(old(FlagsView()))
    {
      actionInFlight := actionInFlight - 1;
      if actionInFlight < 0 {
        actionInFlight := 0;
      }
    }

    /** Claims the slot under both locks. */
    method ClaimSlot(job: UnbanJob, count: nat) returns (a: Answer<nat>)
      modifies job
      ensures a.Accepted? <==> MayClaim(FlagsView(), old(job.SlotView()))
      ensures job.SlotView() == if a.Accepted? then Claimed(old(job.SlotView())) else old(job.SlotView())
      ensures a.Accepted? ==>
        && a.value == job.runId && job.running && !job.stopped && job.total == count
        && job.done == job.enabled == job.missing == job.deleted == job.failed == 0
      ensures a.Refused? ==>
        && job.done == old(job.done) && job.total == old(job.total) && job.failed == old(job.failed)
        && job.enabled == old(job.enabled) && job.missing == old(job.missing) && job.deleted == old(job.deleted)
    {
      if shuttingDown {
        return Refused(ShuttingDown);
      }
      if running || applying || applyDraining || actionInFlight > 0 {
        return Refused(AlreadyRunning);
      }
      if job.running {
        return Refused(SlotBusy);
      }
      var run := job.Occupy(count);
      a := Accepted(run);
    }

    // ---- Ending work --------------------------------------------------------------

    /** A cancelled row for every target without one. */
    method CancelMissing()
      modifies this`results
      ensures results == CancelFirst(old(results), runTargets, merging, |runTargets|)
    {
      hide Contains, RowOf, Put;
      for i := 0 to |runTargets|
        invariant results == CancelFirst(old(results), runTargets, merging, i)
      {
        var file := runTargets[i];
        var found := ResultContainsAuthFile(results, file);
        if found {
          continue;
        }
        var item := RowOf(file, Cancelled);
        if merging {
          PutRow(item);
        } else {
          results := results + [item];
        }
      }
    }

    /** One row per target, full progress, nothing left to cancel. */
    method CompleteList()
      modifies this`results, this`total, this`probeDone, this`runTargets
      ensures BoardView() == AbortedBoard(old(BoardView()))
    {
      hide CancelFirst, CancelOne;
      CancelMissing();
      if total > 0 {
        probeDone := total;
      } else {
        probeDone := |results|;
        total := probeDone;
      }
      runTargets := [];
    }

    /** Completes the list and invalidates the run's writers. */
    method AbortRun()
      modifies this
      ensures FlagsView() == Aborted(old(FlagsView()))
      ensures BoardView() == if old(running) then AbortedBoard(old(BoardView())) else old(BoardView())
    {
      if !running {
        return;
      }
      hide AbortedBoard;
      CompleteList();
      EndRun();
    }

    method EndRun()
      modifies this`running, this`runId
      ensures FlagsView() == old(FlagsView()).(running := false, runId := old(runId) + 1)
    {
      running := false;
      runId := runId + 1;
    }

    method Stop(job: UnbanJob)
      modifies this, job`stopped
      ensures !running && stopped && !applying && !(job.running && !job.stopped)
      ensures job.SlotView() == SlotStopped(old(job.SlotView()))
      ensures FlagsView() == Stopped(old(FlagsView()))
      ensures BoardView() == if old(running) then AbortedBoard(old(BoardView())) else old(BoardView())
    {
      hide AbortedBoard;
      job.Stop();
      HaltApply();
      AbortRun();
    }

    /** Bulk apply is cancelled without waiting for its calls. */
    method HaltApply()
      modifies this`stopped, this`applyRunId, this`applying, this`applyDraining
      ensures Aborted(FlagsView()) == Stopped(old(FlagsView()))
    {
      stopped := true;
      if applying {
        applyRunId := applyRunId + 1;
        applying := false;
        applyDraining := true;
      }
    }

    /** First section of the shutdown. */
    method Gate()
      modifies this`shuttingDown, this`stopped, this`runId, this`applyRunId, this`applying, this`applyDraining
      ensures FlagsView() == Gated(old(FlagsView()))
    {
      shuttingDown, stopped := true, true;
      runId := runId + 1;
      applyRunId := applyRunId + 1;
      applying, applyDraining := false, true;
    }

    method Finish(token: nat)
      modifies this`running, this`lastFinished
      ensures FlagsView() == Finished(old(FlagsView()), token)
    {
      if runId != token {
        return;
      }
      running := false;
      lastFinished := token;
    }

    method RunWaitState(token: nat) returns (p: Lifecycle.Progress)
      ensures p == WaitState(FlagsView(), token)
    {
      if lastFinished == token {
        return Done;
      }
      if runId == token && running {
        return Active;
      }
      p := Superseded;
    }

    // ---- The writers of a run --------------------------------------------------------

    /** Whether the writer's token is current; a stale or stopped one changes nothing. */
    ghost predicate Live(token: nat)
      reads this
    {
      runId == token && !stopped
    }

    method AppendResult(token: nat, row: Row)
      modifies this`results, this`probeDone
      ensures BoardView() == if Live(token) then Appended(old(BoardView()), row) else old(BoardView())
    {
      if runId != token || stopped {
        return;
      }
      results := results + [row];
      probeDone := probeDone + 1;
    }

    method PutRow(row: Row)
      modifies this`results
      ensures results == Put(old(results), row)
    {
      var idx := FindResultIndex(results, row);
      if idx >= 0 {
        results := results[idx := row];
      } else {
        results := results + [row];
      }
    }

    method ReplaceResult(token: nat, row: Row)
      modifies this`results, this`retryDone
      ensures BoardView() == if Live(token) then Replaced(old(BoardView()), row) else old(BoardView())
    {
      if runId != token || stopped {
        return;
      }
      PutRow(row);
      retryDone := retryDone + 1;
    }

    method UpsertResult(token: nat, row: Row)
      modifies this`results, this`probeDone
      ensures BoardView() == if Live(token) then Upserted(old(BoardView()), row) else old(BoardView())
    {
      if runId != token || stopped {
        return;
      }
      PutRow(row);
      probeDone := probeDone + 1;
    }

    method SetRetryPhase(token: nat) returns (go: bool)
      modifies this`retryDone
      ensures go <==> Live(token)
      ensures BoardView() == if go then old(BoardView()).(retryDone := 0) else old(BoardView())
    {
      if runId != token || stopped {
        return false;
      }
      retryDone := 0;
      go := true;
    }

    /** Registers the targets and, in a full run, clears the old rows, in one section. */
    method CommitRunPlan(token: nat, targets: seq<AuthFile>, missing: nat, merge: bool)
      returns (proceed: bool, cleared: bool)
      modifies this
      ensures proceed <==> old(Live(token))
      ensures cleared <==> old(runId) == token && old(fullClearPending)
      ensures FlagsView() == if old(runId) == token && old(stopped) then Aborted(old(FlagsView())) else old(FlagsView())
      ensures var plan := Committed(old(BoardView()), targets, missing, merge);
        BoardView() ==
          if old(runId) != token then old(BoardView())
          else if old(stopped) && old(running) then AbortedBoard(plan)
          else plan
    {
      if runId != token {
        return false, false;
      }
      cleared := false;
      if fullClearPending {
        results := [];
        fullClearPending := false;
        cleared := true;
      }
      total := if merge then |targets| + missing else |targets|;
      runTargets := targets;
      merging := merge;
      if stopped {
        AbortRun();
        return false, cleared;
      }
      proceed := true;
    }
  }
}
