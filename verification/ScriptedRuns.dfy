/** Runs with a script: the targets deliver their rows in a given order, and some of them
    time out. */
module ScriptedRuns {
  import opened Identity
  import Lifecycle
  import opened InspectionRun
  import opened Sums

  /** The rows a run keeps when its plan is committed. */
  function KeptRows(prior: seq<Row>, full: bool): seq<Row> {
    if full then [] else prior
  }

  /** The state of a run on the rows `prior` right after the plan has been committed. */
  function PlannedState(prior: seq<Row>, ts: seq<AuthFile>, full: bool, workers: nat): State {
    State.State(Lifecycle.Started(Lifecycle.IDLE), Board(KeptRows(prior, full), ts, |ts|, 0, 0, false, false),
                1, workers, prior, ts, true, Primary, {}, {}, {})
  }

  lemma PlannedRun(prior: seq<Row>, ts: seq<AuthFile>, full: bool, workers: nat)
    returns (states: seq<State>, steps: seq<Step>)
    requires workers >= 1
    ensures Run(states, steps, full) && |steps| == 1 && states[1] == PlannedState(prior, ts, full, workers)
  {
    var s := State.State(Lifecycle.Started(Lifecycle.IDLE), Board(prior, [], 0, 0, 0, full, false),
                         1, workers, prior, [], false, Listing, {}, {}, {});
    states, steps := [s], [];
    Extended(states, steps, full, Commit(ts), Next(s, Commit(ts)));
    states, steps := states + [Next(s, Commit(ts))], steps + [Commit(ts)];
  }

  /** Targets, none of them twice. */
  predicate Deliverable(ts: seq<AuthFile>, plan: seq<nat>) {
    Distinct(plan) && forall k | 0 <= k < |plan| :: plan[k] < |ts|
  }

  /** So many workers can deliver in this order. */
  ghost predicate InTurn(plan: seq<nat>, workers: nat) {
    forall k | 0 <= k < |plan| :: |Pending(Members(plan[..k]), plan[k])| < workers
  }

  function FirstVerdict(i: nat, late: set<nat>): Verdict {
    if i in late then TimedOut else Probed("ok")
  }

  predicate MayBeLate(ts: seq<AuthFile>, late: set<nat>) {
    forall i | i in late :: i < |ts| && Probes(ts[i])
  }

  /** The first `k` targets of the plan have delivered their rows after those kept. */
  ghost predicate Delivered(s: State, kept: seq<Row>, ts: seq<AuthFile>, plan: seq<nat>, late: set<nat>, k: nat) {
    && k <= |plan| && Deliverable(ts, plan) && InTurn(plan, s.workers)
    && Current(s) && s.f.running && s.planned && s.phase == Primary && s.targets == ts && s.retried == {}
    && s.b.runTargets == ts && !s.b.merging
    && |s.b.results| == |kept| + k && s.b.results[..|kept|] == kept
    && (forall i | 0 <= i < k :: s.b.results[|kept| + i] == RowOf(ts[plan[i]], FirstVerdict(plan[i], late)))
    && s.written == Members(plan[..k])
    && (forall i: nat :: i in s.timedOut <==> i in late && i in plan[..k])
  }

  lemma DeliverNext(s: State, kept: seq<Row>, ts: seq<AuthFile>, plan: seq<nat>, late: set<nat>, k: nat)
    requires k < |plan| && Delivered(s, kept, ts, plan, late, k) && MayBeLate(ts, late)
    ensures var step := Write(plan[k], FirstVerdict(plan[k], late));
      Enabled(s, step) && Delivered(Next(s, step), kept, ts, plan, late, k + 1)
  {
    hide RowOf, Pending, InTurn;
    assert plan[..k + 1] == plan[..k] + [plan[k]];
    assert plan[k] !in plan[..k];
    TurnOf(plan, s.workers, k);
  }

  lemma TurnOf(plan: seq<nat>, workers: nat, k: nat)
    requires InTurn(plan, workers) && k < |plan|
    ensures |Pending(Members(plan[..k]), plan[k])| < workers
  {
  }

  lemma {:induction false} DeliveredRun(
    prior: seq<Row>, ts: seq<AuthFile>, full: bool, workers: nat, plan: seq<nat>, late: set<nat>, k: nat)
    returns (states: seq<State>, steps: seq<Step>)
    requires k <= |plan| && Deliverable(ts, plan) && workers >= 1 && InTurn(plan, workers) && MayBeLate(ts, late)
    ensures Run(states, steps, full) && states[|steps|].prior == prior && states[|steps|].workers == workers
    ensures Delivered(states[|steps|], KeptRows(prior, full), ts, plan, late, k)
    decreases k
  {
    hide Delivered, Enabled, Deliverable, MayBeLate, RowOf, InTurn;
    if k == 0 {
      states, steps := PlannedRun(prior, ts, full, workers);
      NothingDelivered(prior, ts, full, workers, plan, late);
    } else {
      states, steps := DeliveredRun(prior, ts, full, workers, plan, late, k - 1);
      var step := Write(plan[k - 1], FirstVerdict(plan[k - 1], late));
      DeliverNext(states[|steps|], KeptRows(prior, full), ts, plan, late, k - 1);
      var t := Next(states[|steps|], step);
      Extended(states, steps, full, step, t);
      states, steps := states + [t], steps + [step];
    }
  }

  lemma NothingDelivered(
    prior: seq<Row>, ts: seq<AuthFile>, full: bool, workers: nat, plan: seq<nat>, late: set<nat>)
    requires Deliverable(ts, plan) && InTurn(plan, workers)
    ensures Delivered(PlannedState(prior, ts, full, workers), KeptRows(prior, full), ts, plan, late, 0)
  {
    hide InTurn;
    assert Members(plan[..0]) == {};
  }

  /** All rows are delivered and one target has timed out; it is probed again, and the run
      ends. */
  lemma RetriedOnce(before: seq<State>, taken: seq<Step>, full: bool, late: nat)
    returns (states: seq<State>, steps: seq<Step>)
    requires Run(before, taken, full)
    requires var s := before[|taken|];
      && Current(s) && s.f.running && s.planned && s.phase == Primary && s.retried == {}
      && AllWritten(s) && late < |s.targets| && (forall i: nat :: i in s.timedOut <==> i == late)
    ensures Run(states, steps, full)
    ensures var s, t := before[|taken|], states[|steps|];
      && t.targets == s.targets && t.prior == s.prior && t.workers == s.workers
      && t.planned && !t.f.running && t.phase == Over
      && t.b.results == Put(s.b.results, RowOf(s.targets[late], Probed("ok")))
  {
    hide RowOf, Put;
    var s := before[|taken|];
    assert late in s.timedOut;
    var t := Next(s, BeginRetry);
    Extended(before, taken, full, BeginRetry, t);
    states, steps := before + [t], taken + [BeginRetry];
    var again := Retry(late, Probed("ok"));
    var u := Next(t, again);
    Extended(states, steps, full, again, u);
    states, steps := states + [u], steps + [again];
    var v := Next(u, End);
    assert u.retried == u.timedOut;
    Extended(states, steps, full, End, v);
    states, steps := states + [v], steps + [End];
  }
}
