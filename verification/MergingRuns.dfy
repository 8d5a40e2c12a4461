/** Inspections of a category or of a sample: their rows are merged into those of earlier
    runs. What they count, which rows they touch, and when every target has one. */
module MergingRuns {
  import opened Identity
  import opened Sums
  import Rows = InspectionRun
  import Lifecycle
  import Text

  datatype Phase = Listing | Failed | Filling | Primary | Retrying | Over

  /** `missing` are rows of accounts that are gone, written one by one before the plan is
      committed, `filled` how many of them the loop has come past. */
  datatype State = State(
    f: Lifecycle.Flags,
    b: Rows.Board,
    token: nat,
    prior: seq<Row>,
    missing: seq<Row>,
    filled: nat,
    targets: seq<AuthFile>,
    planned: bool,
    phase: Phase,
    written: set<nat>,
    timedOut: set<nat>,
    retried: set<nat>)

  datatype Step =
    | ListFailed
    | Listed(missing: seq<Row>)
    | Fill
    | Commit(targets: seq<AuthFile>)
    | Write(i: nat, v: Verdict)
    | BeginRetry
    | Retry(i: nat, v: Verdict)
    | End
    | Stop

  predicate Current(s: State) {
    s.f.runId == s.token && !s.f.stopped
  }

  predicate AllWritten(s: State) {
    forall i | 0 <= i < |s.targets| :: i in s.written
  }

  /** Workers deliver in any order. */
  ghost predicate Enabled(s: State, step: Step) {
    match step
    case ListFailed => s.phase == Listing
    case Listed(_) => s.phase == Listing
    case Fill => s.phase == Filling && s.filled < |s.missing|
    case Commit(_) => s.phase == Filling && s.filled == |s.missing|
    case Write(i, v) =>
      && s.phase == Primary && i < |s.targets| && i !in s.written && v != Cancelled
      && (v == TimedOut ==> Rows.Probes(s.targets[i]))
    case BeginRetry => s.phase == Primary && Current(s) && AllWritten(s) && s.timedOut != {}
    case Retry(i, v) =>
      s.phase == Retrying && i < |s.targets| && i in s.timedOut && i !in s.retried && v != Cancelled
    case End =>
      || s.phase == Failed
      || (s.phase != Over && !Current(s))
      || (s.phase == Primary && AllWritten(s) && s.timedOut == {})
      || (s.phase == Retrying && s.retried == s.timedOut)
    case Stop => s.phase != Over
  }

  ghost function Next(s: State, step: Step): State
    requires Enabled(s, step)
  {
    match step
    case ListFailed => s.(phase := Failed, b := if Current(s) then Rows.Upserted(s.b, Rows.SYSTEM_ROW) else s.b)
    case Listed(missing) => s.(missing := missing, phase := Filling)
    case Fill =>
      s.(filled := s.filled + 1, b := if Current(s) then Rows.Upserted(s.b, s.missing[s.filled]) else s.b)
    case Commit(targets) =>
      if s.f.runId != s.token then s
      else
        var t := s.(b := Rows.Committed(s.b, targets, |s.missing|, true), targets := targets, planned := true,
                    phase := Primary);
        if s.f.stopped then
          t.(b := if s.f.running then Rows.AbortedBoard(t.b) else t.b, f := Lifecycle.Aborted(t.f))
        else t
    case Write(i, v) =>
      var t := s.(timedOut := if v == TimedOut then s.timedOut + {i} else s.timedOut);
      if Current(s) then t.(b := Rows.Upserted(s.b, RowOf(s.targets[i], v)), written := s.written + {i}) else t
    case BeginRetry => s.(b := s.b.(retryDone := 0), phase := Retrying)
    case Retry(i, v) =>
      if Current(s) then s.(b := Rows.Replaced(s.b, RowOf(s.targets[i], v)), retried := s.retried + {i}) else s
    case End => s.(f := Lifecycle.Finished(s.f, s.token), phase := Over)
    case Stop => s.(f := Lifecycle.Stopped(s.f), b := if s.f.running then Rows.AbortedBoard(s.b) else s.b)
  }

  ghost predicate Follows(s: State, step: Step, t: State) {
    Enabled(s, step) && t == Next(s, step)
  }

  /** The run has just been started on the rows `prior`. */
  ghost predicate Initial(s: State) {
    && s.f.running && !s.f.stopped && s.f.runId == s.token
    && s.b == Rows.Board(s.prior, [], 0, 0, 0, false, false)
    && s.phase == Listing && s.missing == [] && s.filled == 0 && s.targets == [] && !s.planned
    && s.written == {} && s.timedOut == {} && s.retried == {}
  }

  ghost predicate Run(states: seq<State>, steps: seq<Step>) {
    && |states| == |steps| + 1
    && Initial(states[0])
    && forall i | 0 <= i < |steps| :: Follows(states[i], steps[i], states[i + 1])
  }

  // ---- Flags and counters -------------------------------------------------------------

  ghost predicate FlagsOk(s: State) {
    && (s.f.runId == s.token ==> !s.f.stopped)
    && (s.phase != Over ==> (s.f.running <==> s.f.runId == s.token))
    && (s.phase == Over ==> !s.f.running)
    && (s.planned <==> s.phase == Primary || s.phase == Retrying || (s.phase == Over && s.planned))
    && (!s.planned ==> s.targets == [])
  }

  ghost predicate CountsOk(s: State) {
    && !s.b.fullClearPending
    && (forall i | i in s.written :: i < |s.targets|)
    && s.timedOut <= s.written + (if s.f.running then {} else s.timedOut)
    && (s.f.running && !s.planned ==> s.b.total == 0 && s.b.runTargets == [] && !s.b.merging)
    && (s.f.running && s.phase == Listing ==> s.b.probeDone == s.filled == 0)
    && (s.f.running && s.phase == Filling ==> s.b.probeDone == s.filled <= |s.missing|)
    && (s.f.running && s.planned ==>
          && s.b.merging && s.b.runTargets == s.targets && s.b.total == |s.targets| + |s.missing|
          && s.b.probeDone == |s.missing| + |s.written|)
    && (s.f.running && s.phase == Retrying ==> AllWritten(s))
    && (!s.f.running && s.planned ==>
          && s.b.probeDone == s.b.total
          && (|s.targets| + |s.missing| > 0 ==> s.b.total == |s.targets| + |s.missing|))
  }

  lemma FlagsStayOk(s: State, step: Step, t: State)
    requires FlagsOk(s) && Follows(s, step, t)
    ensures FlagsOk(t) && t.prior == s.prior
    ensures s.planned ==> t.planned && t.targets == s.targets && t.missing == s.missing
    ensures s.f.running || !t.f.running
  {
    hide Rows.Put, Rows.CancelFirst, RowOf, Rows.AbortedBoard;
  }

  lemma StopFillsTheCounter(b: Rows.Board)
    ensures var c := Rows.AbortedBoard(b);
      && c.probeDone == c.total && (b.total > 0 ==> c.total == b.total) && c.fullClearPending == b.fullClearPending
  {
    hide Rows.CancelFirst;
  }

  lemma DeliveryKeepsCounts(s: State, step: Step, t: State)
    requires FlagsOk(s) && CountsOk(s) && Follows(s, step, t) && (step.Write? || step.Retry?) && FlagsOk(t)
    ensures CountsOk(t)
  {
    hide CountsOk;
    if step.Write? {
      WriteKeepsCounts(s, step, t);
    } else {
      RetryKeepsCounts(s, step, t);
    }
  }

  lemma WriteKeepsCounts(s: State, step: Step, t: State)
    requires FlagsOk(s) && CountsOk(s) && Follows(s, step, t) && step.Write? && FlagsOk(t)
    ensures CountsOk(t)
  {
    hide Rows.Put, RowOf, Rows.Probes;
  }

  lemma RetryKeepsCounts(s: State, step: Step, t: State)
    requires FlagsOk(s) && CountsOk(s) && Follows(s, step, t) && step.Retry? && FlagsOk(t)
    ensures CountsOk(t)
  {
    hide Rows.Put, RowOf, Rows.Probes;
  }

  lemma StopKeepsCounts(s: State, t: State)
    requires FlagsOk(s) && CountsOk(s) && Follows(s, Stop, t) && FlagsOk(t)
    ensures CountsOk(t)
  {
    StopFillsTheCounter(s.b);
    hide Rows.AbortedBoard;
  }

  lemma OtherStepsKeepCounts(s: State, step: Step, t: State)
    requires FlagsOk(s) && CountsOk(s) && Follows(s, step, t) && FlagsOk(t)
    requires !step.Write? && !step.Retry? && step != Stop
    ensures CountsOk(t)
  {
    hide Rows.Put, RowOf, Rows.AbortedBoard;
    SizeUpTo(s.written, |s.targets|);
  }

  lemma StepKeepsCounts(s: State, step: Step, t: State)
    requires FlagsOk(s) && CountsOk(s) && Follows(s, step, t)
    ensures FlagsOk(t) && CountsOk(t)
  {
    FlagsStayOk(s, step, t);
    hide FlagsOk, CountsOk, Follows;
    if step == Stop {
      StopKeepsCounts(s, t);
    } else if step.Write? || step.Retry? {
      DeliveryKeepsCounts(s, step, t);
    } else {
      OtherStepsKeepCounts(s, step, t);
    }
  }

  lemma StartsCounted(s: State)
    requires Initial(s)
    ensures FlagsOk(s) && CountsOk(s)
  {
  }

  lemma {:induction false} RunsKeepCounts(states: seq<State>, steps: seq<Step>, n: nat)
    requires Run(states, steps) && n < |states|
    ensures FlagsOk(states[n]) && CountsOk(states[n]) && states[n].prior == states[0].prior
    decreases n
  {
    hide FlagsOk, CountsOk, Rows.Put, Rows.CancelFirst, RowOf;
    if n == 0 {
      StartsCounted(states[0]);
    } else {
      RunsKeepCounts(states, steps, n - 1);
      assert Follows(states[n - 1], steps[n - 1], states[n]);
      StepKeepsCounts(states[n - 1], steps[n - 1], states[n]);
    }
  }

  /** Once the plan is committed the progress counter is what was delivered, missing accounts
      included, never exceeds the total, and is full when the run has ended or was stopped. */
  lemma ProgressIsExact(states: seq<State>, steps: seq<Step>, n: nat)
    requires Run(states, steps) && n < |states| && states[n].planned
    ensures var s := states[n];
      && (s.f.running ==>
            && s.b.probeDone == |s.missing| + |s.written| <= s.b.total == |s.targets| + |s.missing|)
      && (!s.f.running ==>
            && s.b.probeDone == s.b.total
            && (|s.targets| + |s.missing| > 0 ==> s.b.total == |s.targets| + |s.missing|))
  {
    RunsKeepCounts(states, steps, n);
    SizeUpTo(states[n].written, |states[n].targets|);
  }

  // ---- The rows of others ----------------------------------------------------------------

  /** A row that the run may write: for a missing account, a target, or the failed list. */
  ghost predicate Written(s: State, row: Row) {
    IsOneOf(s.missing, s.targets, row)
  }

  ghost predicate IsOneOf(missing: seq<Row>, targets: seq<AuthFile>, row: Row) {
    || row == Rows.SYSTEM_ROW
    || row in missing
    || exists i :: 0 <= i < |targets| && row == RowOf(targets[i], row.verdict)
  }

  /** The row has the identity of something the run may write. */
  ghost predicate Concerned(s: State, row: Row) {
    exists w :: Written(s, w) && SameIdentity(row, w)
  }

  lemma PutKeepsOthers(rows: seq<Row>, row: Row, other: Row)
    requires other in rows && !SameIdentity(other, row)
    ensures other in Rows.Put(rows, row)
  {
    hide SameIdentity;
    var k :| 0 <= k < |rows| && rows[k] == other;
    var p := FirstMatch(rows, row);
    assert k != p;
    assert Rows.Put(rows, row)[k] == other;
  }

  lemma {:induction false} CancelKeepsOthers(rows: seq<Row>, targets: seq<AuthFile>, k: nat, other: Row)
    requires k <= |targets| && other in rows
    requires forall i | 0 <= i < |targets| :: !SameIdentity(other, RowOf(targets[i], Cancelled))
    ensures other in Rows.CancelFirst(rows, targets, true, k)
  {
    hide SameIdentity, RowOf, Rows.Put, Contains;
    if k > 0 {
      CancelKeepsOthers(rows, targets, k - 1, other);
      PutKeepsOthers(Rows.CancelFirst(rows, targets, true, k - 1), RowOf(targets[k - 1], Cancelled), other);
    }
  }

  lemma TargetIsWritten(s: State, i: nat, v: Verdict)
    requires i < |s.targets|
    ensures Written(s, RowOf(s.targets[i], v))
  {
    assert RowOf(s.targets[i], v).verdict == v;
  }

  lemma OthersStay(s: State, step: Step, t: State, other: Row)
    requires FlagsOk(s) && CountsOk(s) && Follows(s, step, t) && other in s.b.results && !Concerned(t, other)
    ensures other in t.b.results
  {
    hide SameIdentity, RowOf, Rows.Put, Rows.CancelFirst;
    match step
    case ListFailed => PutKeepsOthers(s.b.results, Rows.SYSTEM_ROW, other);
    case Fill =>
      assert Written(t, s.missing[s.filled]);
      PutKeepsOthers(s.b.results, s.missing[s.filled], other);
    case Write(i, v) =>
      TargetIsWritten(t, i, v);
      PutKeepsOthers(s.b.results, RowOf(s.targets[i], v), other);
    case Retry(i, v) =>
      TargetIsWritten(t, i, v);
      PutKeepsOthers(s.b.results, RowOf(s.targets[i], v), other);
    case Stop =>
      if s.f.running && s.planned {
        forall i | 0 <= i < |s.targets| ensures !SameIdentity(other, RowOf(s.targets[i], Cancelled)) {
          TargetIsWritten(t, i, Cancelled);
        }
        CancelKeepsOthers(s.b.results, s.targets, |s.targets|, other);
      } else if s.f.running {
        Rows.NothingToCancel(s.b);
      }
    case _ =>
  }

  lemma ConcernsOnlyGrow(s: State, step: Step, t: State, row: Row)
    requires FlagsOk(s) && Follows(s, step, t) && Concerned(s, row)
    requires s.phase == Listing ==> s.missing == []
    ensures Concerned(t, row)
  {
    hide SameIdentity, Rows.Put, Rows.CancelFirst, RowOf;
    var w :| Written(s, w) && SameIdentity(row, w);
    assert Written(t, w);
  }

  lemma {:induction false} NothingMissingYet(states: seq<State>, steps: seq<Step>, n: nat)
    requires Run(states, steps) && n < |states| && states[n].phase == Listing
    ensures states[n].missing == []
    decreases n
  {
    if n > 0 {
      assert Follows(states[n - 1], steps[n - 1], states[n]);
      NothingMissingYet(states, steps, n - 1);
    }
  }

  /** A run over some accounts leaves the rows of all others alone: a row that shares neither
      index nor file name with anything the run may write is still there afterwards. */
  lemma {:induction false} OthersAreLeftAlone(states: seq<State>, steps: seq<Step>, n: nat, row: Row)
    requires Run(states, steps) && n < |states| && row in states[0].prior && !Concerned(states[n], row)
    ensures row in states[n].b.results
    decreases n
  {
    hide FlagsOk, CountsOk, Concerned, Enabled, Next;
    if n > 0 {
      assert Follows(states[n - 1], steps[n - 1], states[n]);
      RunsKeepCounts(states, steps, n - 1);
      if states[n - 1].phase == Listing {
        NothingMissingYet(states, steps, n - 1);
      }
      if Concerned(states[n - 1], row) {
        ConcernsOnlyGrow(states[n - 1], steps[n - 1], states[n], row);
      }
      OthersAreLeftAlone(states, steps, n - 1, row);
      OthersStay(states[n - 1], steps[n - 1], states[n], row);
    }
  }

  // ---- Every target has a row ----------------------------------------------------------------

  /** No two targets have an identity in common, each is described by a row of its own, and a
      row that was there before and describes one of them has not the identity of another. */
  ghost predicate Apart(s: State) {
    TargetsApart(s.targets) && RowsApart(s.prior, s.missing, s.targets)
  }

  ghost predicate TargetsApart(ts: seq<AuthFile>) {
    && (forall i | 0 <= i < |ts| :: Describes(RowOf(ts[i], Cancelled), ts[i]))
    && forall i, j | 0 <= i < |ts| && 0 <= j < |ts| && i != j ::
         !SameIdentity(RowOf(ts[i], Cancelled), RowOf(ts[j], Cancelled))
  }

  ghost predicate RowsApart(prior: seq<Row>, missing: seq<Row>, ts: seq<AuthFile>) {
    forall i, j, r | 0 <= i < |ts| && 0 <= j < |ts| && i != j &&
                     (r in prior || r in missing || r == Rows.SYSTEM_ROW) && Describes(r, ts[i]) ::
      !SameIdentity(r, RowOf(ts[j], Cancelled))
  }

  /** Where the rows listed come from. */
  ghost predicate Sourced(s: State, rows: seq<Row>) {
    forall r | r in rows :: r in s.prior || Written(s, r)
  }

  lemma PutIsSourced(s: State, rows: seq<Row>, row: Row)
    requires Sourced(s, rows) && Written(s, row)
    ensures Sourced(s, Rows.Put(rows, row))
  {
    hide Written, SameIdentity;
    forall r | r in Rows.Put(rows, row) ensures r in s.prior || Written(s, r) {
      assert r in rows || r == row;
    }
  }

  lemma OldRowsAreApart(s: State, r: Row, i: nat, j: nat)
    requires Apart(s) && i < |s.targets| && j < |s.targets| && i != j && Describes(r, s.targets[i])
    requires r in s.prior || r in s.missing || r == Rows.SYSTEM_ROW
    ensures !SameIdentity(r, RowOf(s.targets[j], Cancelled))
  {
    hide TargetsApart, Describes, SameIdentity, RowOf;
  }

  /** A row put for one target keeps every other target described. */
  lemma PutKeepsDescribed(s: State, rows: seq<Row>, j: nat, v: Verdict, i: nat)
    requires Apart(s) && Sourced(s, rows) && i < |s.targets| && j < |s.targets| && i != j
    requires Contains(rows, s.targets[i])
    ensures Contains(Rows.Put(rows, RowOf(s.targets[j], v)), s.targets[i])
  {
    hide SameIdentity, RowOf, Describes;
    var k :| 0 <= k < |rows| && Describes(rows[k], s.targets[i]);
    var row := RowOf(s.targets[j], v);
    var p := FirstMatch(rows, row);
    var r := rows[k];
    if p == k {
      IdentityOfTarget(r, s.targets[j], v);
      if m :| 0 <= m < |s.targets| && r == RowOf(s.targets[m], r.verdict) {
        Rows.VerdictsDoNotMatter(s.targets[m], r.verdict, s.targets[j], Cancelled);
        assert m == j;
        Rows.VerdictsDoNotMatter(s.targets[j], r.verdict, s.targets[i], Cancelled);
        Rows.VerdictsDoNotMatter(s.targets[j], v, s.targets[i], Cancelled);
        assert Describes(Rows.Put(rows, row)[k], s.targets[i]);
      } else {
        assert r in rows;
        OldRowsAreApart(s, r, i, j);
        assert false;
      }
    } else {
      assert Rows.Put(rows, row)[k] == r;
    }
  }

  lemma IdentityOfTarget(r: Row, f: AuthFile, v: Verdict)
    ensures SameIdentity(r, RowOf(f, v)) == SameIdentity(r, RowOf(f, Cancelled))
  {
  }

  lemma PutDescribes(s: State, rows: seq<Row>, i: nat, v: Verdict)
    requires Apart(s) && i < |s.targets|
    ensures Contains(Rows.Put(rows, RowOf(s.targets[i], v)), s.targets[i])
  {
    hide SameIdentity, RowOf, Describes;
    var row := RowOf(s.targets[i], v);
    Rows.VerdictsDoNotMatter(s.targets[i], v, s.targets[i], Cancelled);
    assert Rows.Put(rows, row)[FirstMatch(rows, row)] == row;
  }

  lemma {:induction false} CancelDescribesAll(s: State, rows: seq<Row>, k: nat)
    requires Apart(s) && Sourced(s, rows) && k <= |s.targets|
    ensures var done := Rows.CancelFirst(rows, s.targets, true, k);
      Sourced(s, done) && forall i | 0 <= i < |s.targets| && (i < k || Contains(rows, s.targets[i])) ::
        Contains(done, s.targets[i])
  {
    hide Apart, Sourced, RowOf, Rows.Put, Contains;
    if k > 0 {
      CancelDescribesAll(s, rows, k - 1);
      var before := Rows.CancelFirst(rows, s.targets, true, k - 1);
      if !Contains(before, s.targets[k - 1]) {
        TargetIsWritten(s, k - 1, Cancelled);
        PutIsSourced(s, before, RowOf(s.targets[k - 1], Cancelled));
        PutDescribes(s, before, k - 1, Cancelled);
        forall i | 0 <= i < |s.targets| && i != k - 1 && Contains(before, s.targets[i])
          ensures Contains(Rows.Put(before, RowOf(s.targets[k - 1], Cancelled)), s.targets[i])
        {
          PutKeepsDescribed(s, before, k - 1, Cancelled, i);
        }
      }
    }
  }

  /** The rows delivered so far are there; all of them once the run has ended. */
  ghost predicate RowsOk(s: State) {
    && Sourced(s, s.b.results)
    && (s.planned && Apart(s) ==>
          forall i | 0 <= i < |s.targets| && (i in s.written || !s.f.running) :: Contains(s.b.results, s.targets[i]))
  }

  lemma DeliveryKeepsListing(s: State, t: State, i: nat, v: Verdict)
    requires RowsOk(s) && s.planned && s.f.running && t.f.running && i < |s.targets|
    requires t.prior == s.prior && t.missing == s.missing && t.targets == s.targets && t.planned
    requires t.written <= s.written + {i} && t.b.results == Rows.Put(s.b.results, RowOf(s.targets[i], v))
    ensures RowsOk(t)
  {
    hide Apart, RowOf, Rows.Put, Contains, Written;
    TargetIsWritten(s, i, v);
    PutIsSourced(s, s.b.results, RowOf(s.targets[i], v));
    SameSources(s, t);
    if Apart(s) {
      PutDescribes(s, s.b.results, i, v);
      forall j | 0 <= j < |t.targets| && j in t.written ensures Contains(t.b.results, t.targets[j]) {
        if j != i {
          PutKeepsDescribed(s, s.b.results, i, v, j);
        }
      }
    }
  }

  lemma SameSources(s: State, t: State)
    requires t.prior == s.prior && t.missing == s.missing && t.targets == s.targets
    ensures forall r :: Written(s, r) == Written(t, r)
    ensures Apart(s) == Apart(t)
  {
    hide IsOneOf, TargetsApart, RowsApart;
  }

  lemma StopKeepsListing(s: State, t: State)
    requires FlagsOk(s) && CountsOk(s) && RowsOk(s) && Follows(s, Stop, t) && s.f.running
    ensures RowsOk(t)
  {
    hide Apart, RowOf, Rows.Put, Contains, Written;
    SameSources(s, t);
    if s.planned {
      if Apart(s) {
        CancelDescribesAll(s, s.b.results, |s.targets|);
      } else {
        CancelIsSourced(s, s.b.results, |s.targets|);
      }
    } else {
      Rows.NothingToCancel(s.b);
    }
  }

  lemma {:induction false} CancelIsSourced(s: State, rows: seq<Row>, k: nat)
    requires Sourced(s, rows) && k <= |s.targets|
    ensures Sourced(s, Rows.CancelFirst(rows, s.targets, true, k))
  {
    hide Sourced, RowOf, Rows.Put, Contains;
    if k > 0 {
      CancelIsSourced(s, rows, k - 1);
      TargetIsWritten(s, k - 1, Cancelled);
      PutIsSourced(s, Rows.CancelFirst(rows, s.targets, true, k - 1), RowOf(s.targets[k - 1], Cancelled));
    }
  }

  lemma FillKeepsListing(s: State, step: Step, t: State)
    requires FlagsOk(s) && RowsOk(s) && Follows(s, step, t) && !s.planned && (step == Fill || step == ListFailed)
    ensures RowsOk(t)
  {
    var row := if step == Fill then s.missing[s.filled] else Rows.SYSTEM_ROW;
    SameSources(s, t);
    assert Written(s, row);
    PutIsSourced(s, s.b.results, row);
    hide Apart, Rows.Put, Contains, Written;
  }

  /** The steps that write no row. */
  lemma QuietKeepsListing(s: State, step: Step, t: State)
    requires FlagsOk(s) && CountsOk(s) && RowsOk(s) && Follows(s, step, t)
    requires s.phase == Listing ==> s.missing == []
    requires t.b.results == s.b.results && (s.f.running && s.planned ==> t.written == s.written)
    requires !s.f.running || t.f.running || AllWritten(s) || !s.planned
    requires s.planned ==> t.written <= s.written || !s.f.running
    requires !s.planned ==> t.written == {} && (t.f.running || !t.planned)
    ensures RowsOk(t)
  {
    hide Apart, Rows.Put, Contains, Rows.CancelFirst, RowOf;
    assert forall r :: Written(s, r) ==> Written(t, r);
    if s.planned {
      SameSources(s, t);
    }
  }

  lemma StepKeepsListing(s: State, step: Step, t: State)
    requires FlagsOk(s) && CountsOk(s) && RowsOk(s) && Follows(s, step, t)
    requires (s.phase == Listing ==> s.missing == []) && (!s.planned ==> s.written == {})
    ensures RowsOk(t) && (!t.planned ==> t.written == {})
  {
    hide RowsOk, Rows.Put, Rows.CancelFirst, RowOf, Rows.CancelOne;
    if (step.Write? || step.Retry?) && s.f.running {
      DeliveryKeepsListing(s, t, step.i, step.v);
    } else if step == Stop && s.f.running {
      StopKeepsListing(s, t);
    } else if (step == Fill || step == ListFailed) && s.f.running {
      FillKeepsListing(s, step, t);
    } else {
      QuietKeepsListing(s, step, t);
    }
  }

  lemma StartsListed(s: State)
    requires Initial(s)
    ensures RowsOk(s)
  {
  }

  lemma {:induction false} RunsKeepListing(states: seq<State>, steps: seq<Step>, n: nat)
    requires Run(states, steps) && n < |states|
    ensures RowsOk(states[n]) && (!states[n].planned ==> states[n].written == {})
    decreases n
  {
    hide FlagsOk, CountsOk, RowsOk, Enabled, Next;
    if n > 0 {
      RunsKeepListing(states, steps, n - 1);
      RunsKeepCounts(states, steps, n - 1);
      assert Follows(states[n - 1], steps[n - 1], states[n]);
      if states[n - 1].phase == Listing {
        NothingMissingYet(states, steps, n - 1);
      }
      StepKeepsListing(states[n - 1], steps[n - 1], states[n]);
    } else {
      StartsListed(states[0]);
    }
  }

  /** When a run over some accounts has ended or was stopped after its plan, every target has
      a row that describes it, if the targets are apart from each other and from the rows
      they are merged into; and nothing else was added but rows of missing accounts. */
  lemma EveryTargetHasARow(states: seq<State>, steps: seq<Step>, n: nat)
    requires Run(states, steps) && n < |states| && states[n].planned && !states[n].f.running
    ensures Apart(states[n]) ==> forall i | 0 <= i < |states[n].targets| ::
      Contains(states[n].b.results, states[n].targets[i])
    ensures forall r | r in states[n].b.results :: r in states[0].prior || Written(states[n], r)
  {
    hide FlagsOk, CountsOk, Apart, Written, Contains;
    RunsKeepListing(states, steps, n);
    RunsKeepCounts(states, steps, n);
  }
}
