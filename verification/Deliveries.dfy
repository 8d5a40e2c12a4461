/** What the rows of a full inspection say: the verdict delivered last for their target, or
    that it was cancelled. */
module Deliveries {
  import opened Identity
  import opened InspectionRun
  import opened Sums

  /** A worker of the run, primary or retry, delivers this verdict for target `i`. */
  predicate Delivers(s: State, step: Step, i: nat, v: Verdict) {
    Current(s) && i < |s.targets| && (step == Write(i, v) || step == Retry(i, v))
  }

  /** The row of target `i` stands at place `p` and carries this verdict. */
  ghost predicate Shows(s: State, order: seq<nat>, p: nat, i: nat, v: Verdict) {
    && Progress(s, order)
    && p < |order| == |s.b.results| && order[p] == i < |s.targets|
    && s.b.results[p] == RowOf(s.targets[i], v)
  }

  ghost predicate Said(s: State, i: nat, v: Verdict) {
    && i < |s.targets| && RowOf(s.targets[i], v) in s.b.results
    && (s.f.running ==> exists order: seq<nat>, p: nat :: Shows(s, order, p, i, v))
  }

  /** The run is past its plan, and its targets can be told apart. */
  ghost predicate Ready(s: State) {
    FlagsOk(s) && s.planned && Separated(s.targets, s.workers) && Planned(s)
  }

  lemma RunningIsCurrent(s: State)
    requires FlagsOk(s)
    ensures s.f.running ==> Current(s) && s.phase != Over
    ensures !s.f.running && s.phase != Over ==> !Current(s)
    ensures s.planned ==> s.phase == Primary || s.phase == Retrying || s.phase == Over
  {
  }

  lemma DeliveredIsSaid(s: State, step: Step, t: State, i: nat, v: Verdict)
    requires Ready(s) && Follows(s, step, t) && Delivers(s, step, i, v)
    ensures Said(t, i, v)
  {
    hide Separated, Progress, RowOf, FlagsOk, Next, Shows;
    RunningIsCurrent(s);
    var order: seq<nat> :| Progress(s, order);
    if step.Write? {
      WrittenIsShown(s, step, t, order);
      WriteAppends(s, step, t);
      assert Shows(t, order + [i], |order|, i, v);
    } else {
      var p := RetryIsShown(s, step, t, order);
      assert Shows(t, order, p, i, v);
    }
  }

  lemma WrittenIsShown(s: State, step: Step, t: State, order: seq<nat>)
    requires Ready(s) && s.f.running && Follows(s, step, t) && step.Write? && Progress(s, order)
    ensures Shows(t, order + [step.i], |order|, step.i, step.v)
    ensures RowOf(t.targets[step.i], step.v) in t.b.results
  {
    RunningIsCurrent(s);
    WrittenRow(s, step, t, order);
    hide Separated, RowOf;
    RowsInOrder(s.b.results, s.targets, order);
    var rows := t.b.results;
    assert rows == s.b.results + [RowOf(s.targets[step.i], step.v)];
    assert rows[|order|] == RowOf(s.targets[step.i], step.v);
  }

  lemma RetryOutcome(s: State, step: Step, t: State)
    requires FlagsOk(s) && s.f.running && Follows(s, step, t) && step.Retry?
    ensures step.i < |s.targets| && step.i in s.timedOut
    ensures t == s.(b := Replaced(s.b, RowOf(s.targets[step.i], step.v)), retried := s.retried + {step.i})
  {
    hide Put, RowOf;
  }

  lemma RetryIsShown(s: State, step: Step, t: State, order: seq<nat>)
    returns (p: nat)
    requires Ready(s) && s.f.running && Follows(s, step, t) && step.Retry? && Progress(s, order)
    ensures Shows(t, order, p, step.i, step.v)
    ensures RowOf(t.targets[step.i], step.v) in t.b.results
    ensures t.targets == s.targets && p < |s.b.results|
    ensures t.b.results == s.b.results[p := RowOf(s.targets[step.i], step.v)]
  {
    hide Separated, RowsOf, RowOf, FlagsOk, Planned, Follows, Probes, InLine, SameIdentity;
    RetryOutcome(s, step, t);
    assert step.i in order;
    p := LandsOnOwnRow(s.b.results, s.targets, s.workers, order, step.i, step.v);
    PutReplacesOwnRow(s.b.results, s.targets, s.workers, order, step.i, step.v);
    assert t.b.results[p] == RowOf(s.targets[step.i], step.v);
  }

  lemma WriteKeepsSaid(s: State, step: Step, t: State, order: seq<nat>, p: nat, i: nat, v: Verdict)
    requires Ready(s) && s.f.running && Follows(s, step, t) && step.Write? && Shows(s, order, p, i, v)
    ensures Said(t, i, v)
  {
    WrittenIsShown(s, step, t, order);
    WriteAppends(s, step, t);
    hide Ready, Progress, RowOf, Follows;
    assert t.b.results[p] == RowOf(t.targets[i], v);
    assert Shows(t, order + [step.i], p, i, v);
  }

  lemma WriteAppends(s: State, step: Step, t: State)
    requires FlagsOk(s) && s.f.running && Follows(s, step, t) && step.Write?
    ensures t.targets == s.targets && t.b.results == s.b.results + [RowOf(s.targets[step.i], step.v)]
  {
    hide RowOf;
  }

  lemma RetryKeepsSaid(s: State, step: Step, t: State, order: seq<nat>, p: nat, i: nat, v: Verdict)
    requires Ready(s) && s.f.running && Follows(s, step, t) && step.Retry? && Shows(s, order, p, i, v)
    requires step.i != i
    ensures Said(t, i, v)
  {
    hide Separated, Planned, Progress, RowOf, Follows, FlagsOk;
    RetryOutcome(s, step, t);
    hide Ready;
    var q := RetryIsShown(s, step, t, order);
    assert order[q] == step.i && p != q;
    assert t.b.results[p] == RowOf(t.targets[i], v);
    assert Shows(t, order, p, i, v);
  }

  lemma RetryPhaseKeepsSaid(s: State, t: State, order: seq<nat>, p: nat, i: nat, v: Verdict)
    requires Follows(s, BeginRetry, t) && Shows(s, order, p, i, v)
    ensures Said(t, i, v)
  {
    hide RowsOf, RowOf;
    SameProgress(s, t, order);
    assert t.b.results[p] == RowOf(t.targets[i], v);
    assert Shows(t, order, p, i, v);
  }

  lemma StopKeepsSaid(s: State, t: State, order: seq<nat>, p: nat, i: nat, v: Verdict)
    requires Ready(s) && s.f.running && Follows(s, Stop, t) && Shows(s, order, p, i, v)
    ensures Said(t, i, v)
  {
    NotMerging(s, order);
    StopBoard(s, t);
    StopEnds(s, t);
    CancelKeepsRows(s.b.results, s.b.runTargets, |s.b.runTargets|, s.b.merging);
    hide Ready, Progress, RowOf, Follows, CancelFirst;
    assert t.b.results[p] == RowOf(t.targets[i], v);
  }

  lemma StopEnds(s: State, t: State)
    requires Follows(s, Stop, t)
    ensures !t.f.running
  {
    hide CancelFirst;
  }

  lemma OtherStep(s: State, step: Step, t: State)
    requires FlagsOk(s) && s.planned && Follows(s, step, t) && (!s.f.running || step == End)
    ensures t.b == s.b && t.targets == s.targets && !t.f.running
  {
    RunningIsCurrent(s);
    hide Put, CancelFirst, RowOf;
  }

  /** What was said stays until the same target is delivered again. */
  lemma StepKeepsSaid(s: State, step: Step, t: State, i: nat, v: Verdict)
    requires Ready(s) && Follows(s, step, t) && Said(s, i, v)
    requires forall u :: !Delivers(s, step, i, u)
    ensures Said(t, i, v)
  {
    RunningIsCurrent(s);
    hide Separated, Progress, RowsOf, RowOf, FlagsOk, Next, Shows;
    if !s.f.running || step == End {
      OtherStep(s, step, t);
    } else {
      var order: seq<nat>, p: nat :| Shows(s, order, p, i, v);
      if step.Write? {
        WriteKeepsSaid(s, step, t, order, p, i, v);
      } else if step.Retry? {
        assert !Delivers(s, step, i, step.v);
        RetryKeepsSaid(s, step, t, order, p, i, v);
      } else if step == Stop {
        StopKeepsSaid(s, t, order, p, i, v);
      } else {
        RetryPhaseKeepsSaid(s, t, order, p, i, v);
      }
    }
  }

  lemma NotMerging(s: State, order: seq<nat>)
    requires Progress(s, order)
    ensures !s.b.merging
  {
  }

  lemma SameProgress(s: State, t: State, order: seq<nat>)
    requires Progress(s, order) && t == s.(b := s.b.(retryDone := 0), phase := Retrying)
    ensures Progress(t, order)
  {
    hide RowsOf;
  }

  /** A stop adds rows and touches none. */
  lemma {:induction false} CancelKeepsRows(rows: seq<Row>, targets: seq<AuthFile>, k: nat, merging: bool)
    requires k <= |targets|
    ensures !merging ==> rows <= CancelFirst(rows, targets, merging, k)
  {
    hide RowOf, Put, Contains;
    if k > 0 {
      CancelKeepsRows(rows, targets, k - 1, merging);
    }
  }

  lemma StaysReady(states: seq<State>, steps: seq<Step>, m: nat, n: nat)
    requires Run(states, steps, true) && m <= n < |states| && states[m].planned
    requires Separated(states[n].targets, states[n].workers)
    ensures Ready(states[m]) && Ready(states[n])
    ensures states[m].targets == states[n].targets && states[m].workers == states[n].workers
    decreases n
  {
    hide FlagsOk, Planned, Separated, Enabled, Next;
    RunsKeepFullInv(states, steps, n);
    if m < n {
      RunsKeepFullInv(states, steps, m);
      PlanIsKept(states, steps, m, n);
    }
  }

  lemma {:induction false} PlanIsKept(
      states: seq<State>, steps: seq<Step>, m: nat, n: nat)
    requires Run(states, steps, true) && m <= n < |states| && states[m].planned
    ensures states[n].planned && states[m].targets == states[n].targets && states[m].workers == states[n].workers
    decreases n
  {
    hide FlagsOk, Planned, Separated, Enabled, Next;
    if m < n {
      PlanIsKept(states, steps, m, n - 1);
      RunsKeepFullInv(states, steps, n - 1);
      assert Follows(states[n - 1], steps[n - 1], states[n]);
      FlagsStayOk(states[n - 1], steps[n - 1], states[n]);
    }
  }

  /** Once a verdict was delivered for a target, its row says so in every later state, ended
      and stopped ones included, until another verdict is delivered for it. */
  lemma {:induction false} LastVerdictIsShown(
      states: seq<State>, steps: seq<Step>, m: nat, n: nat, i: nat, v: Verdict)
    requires Run(states, steps, true) && m < n < |states|
    requires states[m].planned && Separated(states[n].targets, states[n].workers)
    requires Delivers(states[m], steps[m], i, v)
    requires forall k, u | m < k < n :: !Delivers(states[k], steps[k], i, u)
    ensures i < |states[n].targets| && RowOf(states[n].targets[i], v) in states[n].b.results
    ensures Said(states[n], i, v)
    decreases n
  {
    hide Ready, Said, Delivers, Separated, RowOf, Enabled, Next, FlagsOk, Planned;
    StaysReady(states, steps, n - 1, n) by {
      PlanIsKept(states, steps, m, n - 1);
    }
    assert Follows(states[n - 1], steps[n - 1], states[n]);
    if m == n - 1 {
      DeliveredIsSaid(states[m], steps[m], states[n], i, v);
    } else {
      LastVerdictIsShown(states, steps, m, n - 1, i, v);
      StepKeepsSaid(states[n - 1], steps[n - 1], states[n], i, v);
    }
    SaidIsListed(states[n], i, v);
  }

  lemma SaidIsListed(s: State, i: nat, v: Verdict)
    requires Said(s, i, v)
    ensures i < |s.targets| && RowOf(s.targets[i], v) in s.b.results
  {
  }

  // ---- Every row was delivered -----------------------------------------------------------

  /** The row was delivered by a worker before, or cancelled by a stop. */
  ghost predicate HasOrigin(
      states: seq<State>, steps: seq<Step>, n: nat, row: Row)
    requires |states| == |steps| + 1 && n < |states|
  {
    exists i: nat :: i < |states[n].targets| && row == RowOf(states[n].targets[i], row.verdict) &&
      ((row.verdict == Cancelled && !states[n].f.running) ||
       exists m: nat :: m < n && Delivers(states[m], steps[m], i, row.verdict))
  }

  lemma {:induction false} CancelledRows(rows: seq<Row>, targets: seq<AuthFile>, k: nat, row: Row)
    requires k <= |targets| && row in CancelFirst(rows, targets, false, k) && row !in rows
    ensures exists i :: 0 <= i < |targets| && row == RowOf(targets[i], Cancelled)
  {
    hide RowOf, Contains;
    if k > 0 && row in CancelFirst(rows, targets, false, k - 1) {
      CancelledRows(rows, targets, k - 1, row);
    }
  }

  lemma PutAddsOne(rows: seq<Row>, row: Row, other: Row)
    requires other in Put(rows, row)
    ensures other in rows || other == row
  {
    hide SameIdentity;
  }

  /** The row is new, delivered for target `i` or cancelled with the end of the run. */
  ghost predicate ArisesFor(s: State, step: Step, t: State, row: Row, i: nat) {
    && i < |s.targets| && row == RowOf(s.targets[i], row.verdict)
    && (Delivers(s, step, i, row.verdict) || (row.verdict == Cancelled && !t.f.running))
  }

  /** A step of a run with a plan adds delivered rows, or cancelled ones when it ends the run. */
  lemma NewRows(s: State, step: Step, t: State, row: Row)
    requires FlagsOk(s) && s.planned && !s.b.merging && s.b.runTargets in {s.targets, []}
    requires Follows(s, step, t) && row in t.b.results && row !in s.b.results
    ensures exists i: nat :: ArisesFor(s, step, t, row, i)
  {
    RunningIsCurrent(s);
    hide FlagsOk, Put, CancelFirst;
    if step == Stop {
      CancelledRows(s.b.results, s.b.runTargets, |s.b.runTargets|, row);
      var i: nat :| i < |s.targets| && row == RowOf(s.targets[i], Cancelled);
      assert ArisesFor(s, step, t, row, i);
    } else {
      if step.Retry? {
        PutAddsOne(s.b.results, RowOf(s.targets[step.i], step.v), row);
      }
      assert row == RowOf(s.targets[step.i], step.v) && row.verdict == step.v;
      assert ArisesFor(s, step, t, row, step.i);
    }
  }

  /** The board of a run that is not merging. */
  ghost predicate Plain(s: State) {
    && (s.f.running ==> !s.b.merging)
    && (s.planned ==> !s.b.merging && s.b.runTargets in {s.targets, []})
    && (!s.planned ==> s.targets == [])
    && (!s.planned && s.phase == Listing && s.f.running ==> s.b.fullClearPending)
  }

  lemma StepKeepsPlain(s: State, step: Step, t: State)
    requires FlagsOk(s) && Plain(s) && Follows(s, step, t)
    ensures Plain(t)
  {
    RunningIsCurrent(s);
    hide FlagsOk, Put, CancelFirst;
  }

  lemma PlannedWithoutRows(s: State, step: Step, t: State)
    requires FlagsOk(s) && Plain(s) && Follows(s, step, t) && !s.planned && t.planned
    ensures t.b.results == []
  {
    RunningIsCurrent(s);
  }

  lemma {:induction false} RunsStayPlain(states: seq<State>, steps: seq<Step>, n: nat)
    requires Run(states, steps, true) && n < |states|
    ensures FlagsOk(states[n]) && Plain(states[n])
    decreases n
  {
    hide FlagsOk, Plain, Enabled, Next, Separated, Planned, NoPlan;
    RunsKeepFullInv(states, steps, n);
    if n > 0 {
      RunsStayPlain(states, steps, n - 1);
      assert Follows(states[n - 1], steps[n - 1], states[n]);
      StepKeepsPlain(states[n - 1], steps[n - 1], states[n]);
    } else {
      StartsPlain(states[0]);
    }
  }

  lemma StartsPlain(s: State)
    requires Initial(s, true)
    ensures Plain(s)
  {
  }

  /** Whatever the targets, every row a full inspection lists was delivered by one of its
      workers for one of its targets, or was added by the stop. */
  lemma {:induction false} RowsWereDelivered(
      states: seq<State>, steps: seq<Step>, n: nat, row: Row)
    requires Run(states, steps, true) && n < |states| && states[n].planned && row in states[n].b.results
    ensures HasOrigin(states, steps, n, row)
    decreases n
  {
    hide FlagsOk, Plain, RowOf, Delivers, Enabled, Next;
    RunsStayPlain(states, steps, n);
    assert n > 0 by {
      assert !states[0].planned;
    }
    var s, t := states[n - 1], states[n];
    RunsStayPlain(states, steps, n - 1);
    assert Follows(s, steps[n - 1], t);
    if !s.planned {
      PlannedWithoutRows(s, steps[n - 1], t);
      assert false;
    } else {
      PlanIsKept(states, steps, n - 1, n);
      if row in s.b.results {
        RowsWereDelivered(states, steps, n - 1, row);
        StaysEnded(s, steps[n - 1], t);
      } else {
        FromPlain(s);
        NewRows(s, steps[n - 1], t, row);
      }
    }
  }

  lemma FromPlain(s: State)
    requires Plain(s) && s.planned
    ensures !s.b.merging && s.b.runTargets in {s.targets, []}
  {
  }

  lemma StaysEnded(s: State, step: Step, t: State)
    requires Follows(s, step, t)
    ensures !s.f.running ==> !t.f.running
  {
  }

  // ---- The counters -----------------------------------------------------------------------

  ghost predicate CountsOk(s: State) {
    && (forall i | i in s.written :: i < |s.targets|)
    && (s.f.running && !s.planned ==> s.b.probeDone == 0 && s.written == {})
    && (s.f.running && s.planned ==> s.b.total == |s.targets| && s.b.probeDone == |s.written|)
    && (s.f.running && s.phase == Retrying ==> AllWritten(s))
    && (!s.f.running && s.planned ==>
          s.b.probeDone == s.b.total && (s.targets != [] ==> s.b.total == |s.targets|))
    && (s.phase == Listing ==> s.written == {})
    && (s.phase == Failed ==> !s.planned)
  }

  lemma StopFillsTheCounter(b: Board)
    ensures var c := AbortedBoard(b); c.probeDone == c.total && (b.total > 0 ==> c.total == b.total)
  {
    hide CancelFirst;
  }

  /** The counter of a run that failed to get its list is of no interest. */
  ghost predicate Counted(s: State) {
    FlagsOk(s) && (s.planned || s.phase == Listing ==> CountsOk(s))
  }

  lemma DeliveryKeepsCounts(s: State, step: Step, t: State)
    requires Counted(s) && FlagsOk(t) && Follows(s, step, t) && (step.Write? || step.Retry?)
    ensures Counted(t)
  {
    hide Put, RowOf, Probes, Pending;
  }

  lemma StopKeepsCounts(s: State, t: State)
    requires Counted(s) && FlagsOk(t) && Follows(s, Stop, t)
    ensures Counted(t)
  {
    StopFillsTheCounter(s.b);
    hide AbortedBoard;
  }

  lemma OtherStepsKeepCounts(s: State, step: Step, t: State)
    requires Counted(s) && FlagsOk(t) && Follows(s, step, t) && !step.Write? && !step.Retry? && step != Stop
    ensures Counted(t)
  {
    if s.planned {
      SizeUpTo(s.written, |s.targets|);
    }
    hide Put, RowOf, AbortedBoard;
  }

  lemma StepKeepsCounts(s: State, step: Step, t: State)
    requires Counted(s) && Follows(s, step, t)
    ensures Counted(t)
  {
    FlagsStayOk(s, step, t);
    hide Follows, FlagsOk, CountsOk;
    if step == Stop {
      StopKeepsCounts(s, t);
    } else if step.Write? || step.Retry? {
      DeliveryKeepsCounts(s, step, t);
    } else {
      OtherStepsKeepCounts(s, step, t);
    }
  }

  lemma {:induction false} RunsKeepCounts(states: seq<State>, steps: seq<Step>, full: bool, n: nat)
    requires Run(states, steps, full) && n < |states|
    ensures Counted(states[n])
    decreases n
  {
    hide FlagsOk, CountsOk, Put, CancelFirst, RowOf, Counted, Enabled, Next;
    if n == 0 {
      StartsCounted(states[0], full);
    } else {
      RunsKeepCounts(states, steps, full, n - 1);
      assert Follows(states[n - 1], steps[n - 1], states[n]);
      StepKeepsCounts(states[n - 1], steps[n - 1], states[n]);
    }
  }

  lemma StartsCounted(s: State, full: bool)
    requires Initial(s, full)
    ensures Counted(s)
  {
  }

  /** In every full or incremental run, whatever its targets, the progress counter of a
      committed plan is the number of targets delivered, and it is full after the end and
      after a stop. */
  lemma ProgressIsExact(states: seq<State>, steps: seq<Step>, full: bool, n: nat)
    requires Run(states, steps, full) && n < |states| && states[n].planned
    ensures var s := states[n];
      && (s.f.running ==> s.b.probeDone == |s.written| <= s.b.total == |s.targets|)
      && (!s.f.running ==> s.b.probeDone == s.b.total && (s.targets != [] ==> s.b.total == |s.targets|))
  {
    RunsKeepCounts(states, steps, full, n);
    SizeUpTo(states[n].written, |states[n].targets|);
  }

  // ---- The counter of the retries -----------------------------------------------------------

  /** While a run retries, its retry counter is the number of rows delivered again. */
  lemma {:induction false} RetriesAreCounted(states: seq<State>, steps: seq<Step>, n: nat)
    requires Run(states, steps, true) && n < |states|
    ensures states[n].phase != Retrying && states[n].phase != Over ==> states[n].retried == {}
    ensures states[n].phase == Retrying ==>
      states[n].b.retryDone == |states[n].retried| && states[n].retried <= states[n].timedOut
    decreases n
  {
    hide Enabled, Next;
    if n > 0 {
      RetriesAreCounted(states, steps, n - 1);
      assert Follows(states[n - 1], steps[n - 1], states[n]);
      StepCountsRetries(states[n - 1], steps[n - 1], states[n]);
    }
  }

  ghost predicate RetriesOk(s: State) {
    && (s.phase != Retrying && s.phase != Over ==> s.retried == {})
    && (s.phase == Retrying ==> s.b.retryDone == |s.retried| && s.retried <= s.timedOut)
  }

  lemma StepCountsRetries(s: State, step: Step, t: State)
    requires RetriesOk(s) && Follows(s, step, t)
    ensures RetriesOk(t)
  {
    hide Put, CancelFirst, RowOf, Pending, Probes;
    if step == Stop || step.Commit? {
      AbortKeepsRetries(s.b);
      hide AbortedBoard;
    }
  }

  lemma AbortKeepsRetries(b: Board)
    ensures AbortedBoard(b).retryDone == b.retryDone
  {
    hide CancelFirst;
  }
}
