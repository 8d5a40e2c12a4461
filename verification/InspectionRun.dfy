/** The results of one inspection run: its plan, its workers' writes, the retry of timed
    out accounts, and the stop that completes the list in place of the workers. */
module InspectionRun {
  import opened Identity
  import opened Lifecycle
  import Text

  /** The fields of the engine a run writes. */
  datatype Board = Board(
    results: seq<Row>,
    runTargets: seq<AuthFile>,
    total: nat,
    probeDone: nat,
    retryDone: nat,
    fullClearPending: bool,
    merging: bool)

  // ---- The writers, on values ----------------------------------------------------

  function Appended(b: Board, row: Row): Board {
    b.(results := b.results + [row], probeDone := b.probeDone + 1)
  }

  function Put(rows: seq<Row>, row: Row): seq<Row> {
    var i := FirstMatch(rows, row);
    if i < |rows| then rows[i := row] else rows + [row]
  }

  function Replaced(b: Board, row: Row): Board {
    b.(results := Put(b.results, row), retryDone := b.retryDone + 1)
  }

  function Upserted(b: Board, row: Row): Board {
    b.(results := Put(b.results, row), probeDone := b.probeDone + 1)
  }

  ghost function CancelOne(rows: seq<Row>, f: AuthFile, merging: bool): seq<Row> {
    if Contains(rows, f) then rows
    else if merging then Put(rows, RowOf(f, Cancelled))
    else rows + [RowOf(f, Cancelled)]
  }

  /** The rows after the first `k` targets have been completed by cancelled ones. */
  ghost function CancelFirst(rows: seq<Row>, targets: seq<AuthFile>, merging: bool, k: nat): seq<Row>
    requires k <= |targets|
  {
    if k == 0 then rows else CancelOne(CancelFirst(rows, targets, merging, k - 1), targets[k - 1], merging)
  }

  ghost function AbortedBoard(b: Board): Board {
    var rows := CancelFirst(b.results, b.runTargets, b.merging, |b.runTargets|);
    var total := if b.total > 0 then b.total else |rows|;
    b.(results := rows, total := total, probeDone := total, runTargets := [])
  }

  lemma NothingToCancel(b: Board)
    requires b.runTargets == []
    ensures AbortedBoard(b).results == b.results
  {
  }

  function Committed(b: Board, targets: seq<AuthFile>, missing: nat, merging: bool): Board {
    b.(results := if b.fullClearPending then [] else b.results,
       fullClearPending := false,
       total := if merging then |targets| + missing else |targets|,
       runTargets := targets,
       merging := merging)
  }

  function StartedBoard(b: Board, full: bool): Board {
    b.(runTargets := [], merging := false, fullClearPending := full, total := 0, probeDone := 0, retryDone := 0)
  }

  // ---- One run with its workers -----------------------------------------------------

  /** The row written when the account list cannot be obtained. */
  const SYSTEM_ROW := RowOf(AuthFile("__system_list_error__", "", "", "", "system", 0, 0, false), Probed("probe_error"))

  datatype Phase = Listing | Failed | Primary | Retrying | Over

  /** `written` are the targets whose row has been delivered, `timedOut` those to retry.
      Probes start in the order of the list, at most `workers` of them at a time. */
  datatype State = State(
    f: Flags,
    b: Board,
    token: nat,
    workers: nat,
    prior: seq<Row>,
    targets: seq<AuthFile>,
    planned: bool,
    phase: Phase,
    written: set<nat>,
    timedOut: set<nat>,
    retried: set<nat>)

  datatype Step =
    | ListFailed
    | Commit(targets: seq<AuthFile>)
    | Write(i: nat, v: Verdict)      // a primary worker delivers its row
    | BeginRetry                     // every primary worker is done, some timed out
    | Retry(i: nat, v: Verdict)      // a retry worker delivers its row
    | End                            // the run's goroutine publishes and leaves
    | Stop                           // the operator stops the engine

  predicate Current(s: State) {
    s.f.runId == s.token && !s.f.stopped
  }

  predicate AllWritten(s: State) {
    forall i | 0 <= i < |s.targets| :: i in s.written
  }

  /** Only an entry with an index is probed over the network; any other gets its row at once
      and can neither time out nor be retried. */
  predicate Probes(f: AuthFile) {
    !Text.Blank(f.authIndex)
  }

  /** The targets before this one that have not delivered yet. */
  function Pending(written: set<nat>, i: nat): set<nat> {
    set j: nat | j < i && j !in written
  }

  ghost predicate Enabled(s: State, step: Step) {
    match step
    case ListFailed => s.phase == Listing
    case Commit(_) => s.phase == Listing
    case Write(i, v) =>
      && s.phase == Primary && i < |s.targets| && i !in s.written && v != Cancelled
      && |Pending(s.written, i)| < s.workers
      && (v == TimedOut ==> Probes(s.targets[i]))
    case BeginRetry => s.phase == Primary && Current(s) && AllWritten(s) && s.timedOut != {}
    case Retry(i, v) =>
      s.phase == Retrying && i < |s.targets| && i in s.timedOut && i !in s.retried && v != Cancelled
    case End =>
      || s.phase == Failed
      || (s.phase != Over && !Current(s))
      || (s.phase == Primary && AllWritten(s) && s.timedOut == {})
      || (s.phase == Retrying && s.retried == s.timedOut)
    case Stop => s.phase != Over
  }

  ghost function Next(s: State, step: Step): State
    requires Enabled(s, step)
  {
    match step
    case ListFailed =>
      s.(phase := Failed, b := if Current(s) then Upserted(s.b, SYSTEM_ROW) else s.b)
    case Commit(targets) =>
      if s.f.runId != s.token then s
      else
        var t := s.(b := Committed(s.b, targets, 0, false), targets := targets, planned := true, phase := Primary);
        if s.f.stopped then t.(b := if s.f.running then AbortedBoard(t.b) else t.b, f := Aborted(t.f)) else t
    case Write(i, v) =>
      var t := s.(timedOut := if v == TimedOut then s.timedOut + {i} else s.timedOut);
      if Current(s) then t.(b := Appended(s.b, RowOf(s.targets[i], v)), written := s.written + {i}) else t
    case BeginRetry => s.(b := s.b.(retryDone := 0), phase := Retrying)
    case Retry(i, v) =>
      if Current(s) then s.(b := Replaced(s.b, RowOf(s.targets[i], v)), retried := s.retried + {i}) else s
    case End => s.(f := Finished(s.f, s.token), phase := Over)
    case Stop => s.(f := Stopped(s.f), b := if s.f.running then AbortedBoard(s.b) else s.b)
  }

  ghost predicate Follows(s: State, step: Step, t: State) {
    Enabled(s, step) && t == Next(s, step)
  }

  /** The run has just been started on the rows `prior`. */
  ghost predicate Initial(s: State, full: bool) {
    && s.f.running && !s.f.stopped && s.f.runId == s.token && s.workers >= 1
    && s.b == Board(s.prior, [], 0, 0, 0, full, false)
    && s.phase == Listing && s.targets == [] && !s.planned
    && s.written == {} && s.timedOut == {} && s.retried == {}
  }

  /** Starting a run while nothing holds the engine gives such a state, whatever the flags,
      counters and targets of the runs before. */
  lemma StartedRunIsInitial(f: Flags, slot: Slot, b: Board, full: bool, workers: nat) returns (s: State)
    requires MayStart(f, slot) && workers >= 1
    ensures Initial(s, full) && s.workers == workers && s.prior == b.results
    ensures s.f == Started(f) && s.b == StartedBoard(b, full) && s.token > f.runId
  {
    s := State.State(
      Started(f), StartedBoard(b, full), f.runId + 1, workers, b.results, [], false, Listing, {}, {}, {});
  }

  ghost predicate Run(states: seq<State>, steps: seq<Step>, full: bool) {
    && |states| == |steps| + 1
    && Initial(states[0], full)
    && forall i | 0 <= i < |steps| :: Follows(states[i], steps[i], states[i + 1])
  }

  // ---- One row per target ---------------------------------------------------------

  /** With these workers the row of `i` can be delivered while that of `j` is missing: one
      worker goes through the list in order. */
  predicate CanPrecede(workers: nat, i: nat, j: nat) {
    i < j || (i != j && workers != 1)
  }

  /** A row of one of the targets describes that target, and none it can precede. */
  ghost predicate Recognised(ts: seq<AuthFile>, workers: nat) {
    && (forall i | 0 <= i < |ts| :: Describes(RowOf(ts[i], Cancelled), ts[i]))
    && forall i, j | 0 <= i < |ts| && 0 <= j < |ts| && CanPrecede(workers, i, j) ::
         !Describes(RowOf(ts[i], Cancelled), ts[j])
  }

  /** Rows are told apart, and no row that can precede it has the identity of a target that
      can be probed again. */
  ghost predicate Separated(ts: seq<AuthFile>, workers: nat) {
    && Recognised(ts, workers)
    && forall i, j | 0 <= i < |ts| && 0 <= j < |ts| && CanPrecede(workers, j, i) && Probes(ts[i]) ::
         !SameIdentity(RowOf(ts[j], Cancelled), RowOf(ts[i], Cancelled))
  }

  /** One worker delivers the rows in the order of the list. */
  predicate InLine(order: seq<nat>, workers: nat) {
    workers == 1 ==> forall k | 0 <= k < |order| :: order[k] == k
  }

  lemma VerdictsDoNotMatter(f: AuthFile, v: Verdict, g: AuthFile, u: Verdict)
    ensures SameIdentity(RowOf(f, v), RowOf(g, u)) == SameIdentity(RowOf(f, Cancelled), RowOf(g, Cancelled))
    ensures RowKeys(RowOf(f, v)) == FileKeys(f)
    ensures Describes(RowOf(f, v), g) == Describes(RowOf(f, Cancelled), g)
  {
  }

  predicate Distinct(order: seq<nat>) {
    forall i, j | 0 <= i < j < |order| :: order[i] != order[j]
  }

  /** The rows are those of the targets `order[0]`, `order[1]`, ..., once each. */
  ghost predicate RowsOf(rows: seq<Row>, ts: seq<AuthFile>, order: seq<nat>) {
    && |rows| == |order| && Distinct(order)
    && forall k | 0 <= k < |order| :: order[k] < |ts| && rows[k] == RowOf(ts[order[k]], rows[k].verdict)
  }

  ghost predicate OneRowPerTarget(rows: seq<Row>, ts: seq<AuthFile>) {
    exists order: seq<nat> :: RowsOf(rows, ts, order) && |order| == |ts|
  }

  /** Under separation a row stands for a target exactly when it is that target's row. */
  lemma ContainsIff(rows: seq<Row>, ts: seq<AuthFile>, workers: nat, order: seq<nat>, i: nat)
    requires Separated(ts, workers) && RowsOf(rows, ts, order) && InLine(order, workers) && i < |ts|
    ensures Contains(rows, ts[i]) <==> i in order
  {
    hide Describes, RowOf, SameIdentity;
    forall k | 0 <= k < |rows|
      ensures order[k] == i ==> Describes(rows[k], ts[i])
      ensures i !in order ==> !Describes(rows[k], ts[i])
    {
      VerdictsDoNotMatter(ts[order[k]], rows[k].verdict, ts[i], Cancelled);
      assert i < |order| && InLine(order, workers) && workers == 1 ==> order[i] == i;
    }
  }

  lemma PutReplacesOwnRow(rows: seq<Row>, ts: seq<AuthFile>, workers: nat, order: seq<nat>, i: nat, v: Verdict)
    requires Separated(ts, workers) && RowsOf(rows, ts, order) && InLine(order, workers)
    requires i in order && i < |ts| && Probes(ts[i])
    ensures RowsOf(Put(rows, RowOf(ts[i], v)), ts, order)
  {
    hide Separated, RowOf, RowsOf, InLine;
    var k := LandsOnOwnRow(rows, ts, workers, order, i, v);
    ReplacedRow(rows, ts, order, k, v);
  }

  lemma LandsOnOwnRow(rows: seq<Row>, ts: seq<AuthFile>, workers: nat, order: seq<nat>, i: nat, v: Verdict)
    returns (k: nat)
    requires Separated(ts, workers) && RowsOf(rows, ts, order) && InLine(order, workers)
    requires i in order && i < |ts| && Probes(ts[i])
    ensures k < |rows| == |order| && order[k] == i && FirstMatch(rows, RowOf(ts[i], v)) == k
  {
    OwnIdentity(ts[i]);
    hide SameIdentity, RowOf, Recognised, Describes;
    k :| 0 <= k < |order| && order[k] == i;
    var row := RowOf(ts[i], v);
    VerdictsDoNotMatter(ts[i], rows[k].verdict, ts[i], v);
    forall j | 0 <= j < k ensures !SameIdentity(rows[j], row) {
      assert order[j] != i && CanPrecede(workers, order[j], i);
      VerdictsDoNotMatter(ts[order[j]], rows[j].verdict, ts[i], v);
    }
    FirstMatchIs(rows, row, k);
  }

  lemma ReplacedRow(rows: seq<Row>, ts: seq<AuthFile>, order: seq<nat>, k: nat, v: Verdict)
    requires RowsOf(rows, ts, order) && k < |rows| == |order| && order[k] < |ts|
    ensures RowsOf(rows[k := RowOf(ts[order[k]], v)], ts, order)
  {
    VerdictOf(ts[order[k]], v);
    hide RowOf;
  }

  lemma VerdictOf(f: AuthFile, v: Verdict)
    ensures RowOf(f, v).verdict == v
  {
  }

  lemma OwnIdentity(f: AuthFile)
    requires Probes(f)
    ensures SameIdentity(RowOf(f, Cancelled), RowOf(f, Cancelled))
  {
  }

  lemma DeliveredRow(rows: seq<Row>, ts: seq<AuthFile>, order: seq<nat>, i: nat, v: Verdict)
    requires RowsOf(rows, ts, order) && i < |ts| && i !in order
    ensures RowsOf(rows + [RowOf(ts[i], v)], ts, order + [i])
  {
  }

  lemma CancelOneCompletes(rows: seq<Row>, ts: seq<AuthFile>, workers: nat, order: seq<nat>, i: nat)
    returns (all: seq<nat>)
    requires Separated(ts, workers) && RowsOf(rows, ts, order) && InLine(order, workers) && i < |ts|
    requires forall j: nat | j < i :: j in order
    ensures RowsOf(CancelOne(rows, ts[i], false), ts, all) && InLine(all, workers)
    ensures order <= all && i in all
  {
    hide Separated, RowOf, RowsOf;
    ContainsIff(rows, ts, workers, order, i);
    all := order;
    if i !in order {
      DeliveredRow(rows, ts, order, i, Cancelled);
      NextInLine(order, workers, i);
      all := order + [i];
      assert all[|order|] == i;
    }
  }

  /** All targets before it have their rows, so this one is the next. */
  lemma NextInLine(order: seq<nat>, workers: nat, i: nat)
    requires InLine(order, workers) && i !in order && forall j: nat | j < i :: j in order
    ensures InLine(order + [i], workers)
  {
    if workers == 1 {
      var n: nat := |order|;
      forall k: nat | k < n ensures k in order {
        assert order[k] == k;
      }
      assert n !in order;
    }
  }

  /** Completing the list adds exactly the missing rows. */
  lemma {:induction false} CancelCompletes(rows: seq<Row>, ts: seq<AuthFile>, workers: nat, order: seq<nat>, k: nat)
    returns (all: seq<nat>)
    requires Separated(ts, workers) && RowsOf(rows, ts, order) && InLine(order, workers) && k <= |ts|
    ensures RowsOf(CancelFirst(rows, ts, false, k), ts, all) && InLine(all, workers)
    ensures order <= all && forall i: nat | i < k :: i in all
    decreases k
  {
    hide Separated, RowsOf, CancelOne, InLine;
    if k == 0 {
      all := order;
    } else {
      var before := CancelCompletes(rows, ts, workers, order, k - 1);
      all := CancelOneCompletes(CancelFirst(rows, ts, false, k - 1), ts, workers, before, k - 1);
      forall i: nat | i < k - 1 ensures i in all {
        assert i in before;
        InLonger(before, all, i);
      }
    }
  }

  lemma InLonger(short: seq<nat>, long: seq<nat>, i: nat)
    requires short <= long && i in short
    ensures i in long
  {
    var k :| 0 <= k < |short| && short[k] == i;
    assert long[k] == i;
  }

  /** An enumeration of 0 to n - 1 without repetition has length n. */
  lemma {:induction false} CountDistinct(order: seq<nat>, n: nat)
    requires Distinct(order)
    requires forall k | 0 <= k < |order| :: order[k] < n
    requires forall i: nat | i < n :: i in order
    ensures |order| == n
    decreases n
  {
    assert order != [] ==> order[0] < n;
    if n > 0 {
      var last: nat := n - 1;
      assert last in order;
      var p :| 0 <= p < |order| && order[p] == last;
      var rest := order[..p] + order[p + 1..];
      forall i: nat | i < last ensures i in rest {
        assert i in order;
        var q :| 0 <= q < |order| && order[q] == i;
        assert rest[if q < p then q else q - 1] == i;
      }
      CountDistinct(rest, last);
    }
  }

  // ---- Full inspections ----------------------------------------------------------------

  /** `order[k]` is the target whose row was delivered as the k-th. */
  ghost predicate Progress(s: State, order: seq<nat>) {
    && RowsOf(s.b.results, s.targets, order) && InLine(order, s.workers)
    && (forall i: nat :: i in s.written <==> i in order)
    && s.b.runTargets == s.targets && !s.b.merging && !s.b.fullClearPending
    && s.b.total == |s.targets| && s.b.probeDone == |order|
    && s.timedOut <= s.written
    && forall i | i in s.timedOut && i < |s.targets| :: Probes(s.targets[i])
  }

  ghost predicate Complete(s: State) {
    OneRowPerTarget(s.b.results, s.targets) && s.b.probeDone == s.b.total == |s.targets|
  }

  /** The rows of a run without a plan: the old ones, or those and the list error. */
  ghost predicate NoPlan(s: State) {
    && s.phase != Primary && s.phase != Retrying
    && (s.b.results == s.prior || (s.phase != Listing && s.b.results == Put(s.prior, SYSTEM_ROW)))
    && (s.f.running ==> s.b.runTargets == [] && s.b.fullClearPending)
    && (s.phase == Listing && s.f.running ==> s.b.probeDone == 0)
    && s.written == {} && s.timedOut == {}
  }

  ghost predicate Planned(s: State) {
    if s.f.running then
      (s.phase == Retrying ==> AllWritten(s)) && exists order: seq<nat> :: Progress(s, order)
    else Complete(s)
  }

  ghost predicate FlagsOk(s: State) {
    && (s.f.runId == s.token ==> !s.f.stopped)
    && (s.phase != Over ==> (s.f.running <==> s.f.runId == s.token))
    && (s.phase == Over ==> !s.f.running)
    && (s.planned ==> s.phase == Primary || s.phase == Retrying || s.phase == Over)
  }

  ghost predicate FullInv(s: State) {
    && FlagsOk(s)
    && (Separated(s.targets, s.workers) ==> if s.planned then Planned(s) else NoPlan(s))
  }

  /** An order that has every target makes the list complete. */
  lemma AllListed(rows: seq<Row>, ts: seq<AuthFile>, all: seq<nat>)
    requires RowsOf(rows, ts, all) && forall i: nat | i < |ts| :: i in all
    ensures OneRowPerTarget(rows, ts) && |rows| == |ts|
  {
    hide RowOf;
    CountDistinct(all, |ts|);
  }

  lemma StopBoard(s: State, t: State)
    requires s.f.running && Follows(s, Stop, t)
    ensures t.b == AbortedBoard(s.b) && t.targets == s.targets
  {
    hide AbortedBoard;
  }

  /** Stopping a run in its probing phases completes its list. */
  lemma StopCompletes(s: State, t: State)
    requires Separated(s.targets, s.workers) && s.planned && Planned(s) && Follows(s, Stop, t) && s.f.running
    ensures Complete(t)
  {
    StopBoard(s, t);
    hide Separated, RowsOf, InLine, CancelFirst, OneRowPerTarget, Follows;
    var order: seq<nat> :| Progress(s, order);
    var n := |s.targets|;
    var all := CancelCompletes(s.b.results, s.targets, s.workers, order, n);
    AllListed(CancelFirst(s.b.results, s.targets, false, n), s.targets, all);
  }

  lemma EveryRowDelivered(s: State)
    requires (exists order: seq<nat> :: Progress(s, order)) && AllWritten(s)
    ensures Complete(s)
  {
    hide RowsOf, InLine, OneRowPerTarget;
    var order: seq<nat> :| Progress(s, order);
    forall i: nat | i < |s.targets| ensures i in order {
      assert i in s.written;
    }
    AllListed(s.b.results, s.targets, order);
    RowsInOrder(s.b.results, s.targets, order);
  }

  lemma RowsInOrder(rows: seq<Row>, ts: seq<AuthFile>, order: seq<nat>)
    requires RowsOf(rows, ts, order)
    ensures |rows| == |order|
  {
  }

  lemma WriteKeepsProgress(s: State, step: Step, t: State)
    requires FlagsOk(s) && s.planned && Planned(s) && s.f.running && Follows(s, step, t) && step.Write?
    ensures exists order: seq<nat> :: Progress(t, order)
  {
    var order: seq<nat> :| Progress(s, order);
    WrittenRow(s, step, t, order);
  }

  lemma WrittenRow(s: State, step: Step, t: State, order: seq<nat>)
    requires FlagsOk(s) && s.planned && s.f.running && Follows(s, step, t) && step.Write? && Progress(s, order)
    ensures Progress(t, order + [step.i])
  {
    hide RowsOf, RowOf;
    DeliveredRow(s.b.results, s.targets, order, step.i, step.v);
    WrittenInLine(s, step.i, order);
  }

  lemma WrittenInLine(s: State, i: nat, order: seq<nat>)
    requires InLine(order, s.workers) && (forall j: nat :: j in s.written <==> j in order)
    requires i !in s.written && |Pending(s.written, i)| < s.workers
    ensures InLine(order + [i], s.workers)
  {
    if s.workers == 1 {
      assert Pending(s.written, i) == {};
      forall j: nat | j < i ensures j in order {
        assert j !in Pending(s.written, i);
      }
      NextInLine(order, s.workers, i);
    }
  }

  lemma RetryKeepsProgress(s: State, step: Step, t: State)
    requires FlagsOk(s) && Separated(s.targets, s.workers) && s.planned && Planned(s) && s.f.running
    requires Follows(s, step, t) && step.Retry?
    ensures exists order: seq<nat> :: Progress(t, order)
  {
    hide Separated, RowsOf, RowOf, Put;
    var order: seq<nat> :| Progress(s, order);
    assert step.i in order;
    PutReplacesOwnRow(s.b.results, s.targets, s.workers, order, step.i, step.v);
    assert Progress(t, order);
  }

  lemma RetryPhaseKeepsProgress(s: State, t: State)
    requires Follows(s, BeginRetry, t) && exists order: seq<nat> :: Progress(s, order)
    ensures exists order: seq<nat> :: Progress(t, order)
  {
    hide RowsOf;
    var order: seq<nat> :| Progress(s, order);
    assert Progress(t, order);
  }

  lemma StepKeepsPlan(s: State, step: Step, t: State)
    requires FlagsOk(s) && Separated(s.targets, s.workers) && s.planned && Planned(s) && Follows(s, step, t)
    ensures Planned(t)
  {
    hide Separated, Progress, Put, AbortedBoard, CancelFirst;
    if s.f.running && step == Stop {
      StopCompletes(s, t);
    } else if s.f.running && step.Write? {
      WriteKeepsProgress(s, step, t);
    } else if s.f.running && step.Retry? {
      RetryKeepsProgress(s, step, t);
    } else if s.f.running && step == End {
      EveryRowDelivered(s);
    } else if step == BeginRetry {
      RetryPhaseKeepsProgress(s, t);
    }
  }

  lemma CommitPlans(s: State, step: Step, t: State)
    requires FlagsOk(s) && NoPlan(s) && !s.planned && s.phase == Listing && s.b.results == s.prior
    requires Follows(s, step, t) && step.Commit? && s.f.runId == s.token
    ensures t.planned && Planned(t)
  {
    hide Separated, AbortedBoard;
    if s.f.running {
      assert Progress(t, []);
    }
  }

  lemma UnplannedStep(s: State, step: Step, t: State)
    requires FlagsOk(s) && NoPlan(s) && !s.planned && Follows(s, step, t)
    requires !(step.Commit? && s.f.runId == s.token)
    ensures !t.planned && NoPlan(t)
  {
    hide Put, Separated;
  }

  lemma FlagsStayOk(s: State, step: Step, t: State)
    requires FlagsOk(s) && Follows(s, step, t)
    ensures FlagsOk(t)
    ensures s.planned ==> t.planned && t.targets == s.targets
    ensures t.workers == s.workers && t.prior == s.prior
  {
    hide Put, CancelFirst, AbortedBoard;
  }

  lemma NothingToSeparate(workers: nat)
    ensures Separated([], workers)
  {
  }

  lemma StepKeepsFullInv(s: State, step: Step, t: State)
    requires FullInv(s) && (!s.planned ==> s.targets == []) && Follows(s, step, t)
    ensures FullInv(t) && (!t.planned ==> t.targets == [])
  {
    FlagsStayOk(s, step, t);
    NothingToSeparate(s.workers);
    hide Separated, NoPlan, Planned, Put, CancelFirst, AbortedBoard;
    if s.planned {
      if Separated(s.targets, s.workers) {
        StepKeepsPlan(s, step, t);
      }
    } else if step.Commit? && s.f.runId == s.token {
      StartsUntouched(s);
      CommitPlans(s, step, t);
    } else {
      UnplannedStep(s, step, t);
    }
  }

  lemma StartsUntouched(s: State)
    requires NoPlan(s) && s.phase == Listing
    ensures s.b.results == s.prior
  {
  }

  lemma StartIsFull(s: State)
    requires Initial(s, true)
    ensures FlagsOk(s) && NoPlan(s) && !s.planned
  {
  }

  lemma {:induction false} RunsKeepFullInv(states: seq<State>, steps: seq<Step>, n: nat)
    requires Run(states, steps, true) && n < |states|
    ensures FullInv(states[n]) && (!states[n].planned ==> states[n].targets == [])
    ensures states[n].prior == states[0].prior
    decreases n
  {
    hide Separated, Planned, NoPlan, FlagsOk, Put, CancelFirst, AbortedBoard;
    if n == 0 {
      StartIsFull(states[0]);
    } else {
      RunsKeepFullInv(states, steps, n - 1);
      StepKeepsFullInv(states[n - 1], steps[n - 1], states[n]);
    }
  }

  /** A full inspection leaves the rows it found, up to the row that reports a failed list,
      unless its plan was committed; then, once it has ended or was stopped, there is
      exactly one row for each target and the progress counter is full. */
  lemma FullInspection(states: seq<State>, steps: seq<Step>, n: nat)
    requires Run(states, steps, true) && n < |states| && Separated(states[n].targets, states[n].workers)
    ensures !states[n].planned ==>
      states[n].b.results in {states[0].prior, Put(states[0].prior, SYSTEM_ROW)}
    ensures states[n].planned && !states[n].f.running ==>
      && OneRowPerTarget(states[n].b.results, states[n].targets)
      && states[n].b.probeDone == states[n].b.total == |states[n].targets|
    ensures states[n].phase == Over ==> !states[n].f.running
  {
    RunsKeepFullInv(states, steps, n);
  }

  lemma Extended(states: seq<State>, steps: seq<Step>, full: bool, step: Step, t: State)
    requires Run(states, steps, full) && Follows(states[|steps|], step, t)
    ensures Run(states + [t], steps + [step], full)
  {
  }
}
