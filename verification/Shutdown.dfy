/** The gate of host calls and the order of the shutdown: what is still alive when it
    returns, and what the last save of the ban pool covers. */
module Shutdown {

  const CAPACITY: nat := 16

  // ---- The gate of host calls -------------------------------------------------------

  /** `admitted` is the count of the wait group, `slots` the fill of the slot channel. */
  datatype Gate = Gate(closed: bool, admitted: nat, slots: nat)

  /** No more slots are taken than there are, and none by a call that was not admitted. */
  predicate Bounded(g: Gate) {
    g.slots <= CAPACITY && g.slots <= g.admitted
  }

  function Admitted(g: Gate): Gate {
    if g.closed then g else g.(admitted := g.admitted + 1)
  }

  function SlotTaken(g: Gate): Gate {
    g.(slots := g.slots + 1)
  }

  function SlotLeft(g: Gate): Gate
    requires g.slots > 0
  {
    g.(slots := g.slots - 1)
  }

  function CallDone(g: Gate): Gate
    requires g.admitted > 0
  {
    g.(admitted := g.admitted - 1)
  }

  function Closed(g: Gate): Gate {
    g.(closed := true)
  }

  class HostGate {
    var closed: bool
    var admitted: nat
    var slots: nat

    ghost function View(): Gate
      reads this
    {
      Gate(closed, admitted, slots)
    }

    constructor ()
      ensures View() == Gate(false, 0, 0) && Bounded(View())
    {
      closed, admitted, slots := false, 0, 0;
    }

    /** The check and the registration are one critical section. */
    method Admit() returns (ok: bool)
      requires Bounded(View())
      modifies this`admitted
      ensures View() == Admitted(old(View())) && Bounded(View())
      ensures ok <==> View() != old(View())
      ensures closed ==> !ok
    {
      if closed {
        return false;
      }
      admitted := admitted + 1;
      ok := true;
    }

    /** An admitted call waits here while the channel is full. */
    method TakeSlot()
      requires Bounded(View()) && slots < CAPACITY && slots < admitted
      modifies this`slots
      ensures View() == SlotTaken(old(View())) && Bounded(View())
    {
      slots := slots + 1;
    }

    method LeaveSlot()
      requires Bounded(View()) && slots > 0
      modifies this`slots
      ensures View() == SlotLeft(old(View())) && Bounded(View())
      ensures slots < CAPACITY && slots < admitted
    {
      slots := slots - 1;
    }

    /** A call that has left its slot leaves the wait group; those in a slot stay counted. */
    method Done()
      requires Bounded(View()) && slots < admitted
      modifies this`admitted
      ensures View() == CallDone(old(View())) && Bounded(View())
    {
      admitted := admitted - 1;
    }

    method Close()
      requires Bounded(View())
      modifies this`closed
      ensures View() == Closed(old(View())) && Bounded(View())
      ensures Admitted(View()) == View()
    {
      closed := true;
    }
  }

  // ---- The shutdown among everything else ----------------------------------------------

  /** Where the shutdown stands; a stage named after a wait is entered before it. */
  datatype Stage =
    | Before | StopDispose | AwaitDispose | StopSlotJob | AwaitRuns | AwaitJobs | AwaitWriters
    | StopSaver | AwaitSaver | LastSave | CloseHost | AwaitHost | Returned

  function Rank(s: Stage): nat {
    match s
    case Before => 0 case StopDispose => 1 case AwaitDispose => 2 case StopSlotJob => 3
    case AwaitRuns => 4 case AwaitJobs => 5 case AwaitWriters => 6 case StopSaver => 7
    case AwaitSaver => 8 case LastSave => 9 case CloseHost => 10 case AwaitHost => 11 case Returned => 12
  }

  /** Who changes the ban pool. `Request` is an unban made inside a management request: it
      holds the slot but is on no wait group. */
  datatype Actor = Run | Job | Dispose | Request | Usage

  datatype State = State(
    stage: Stage,
    shuttingDown: bool,     // the engine's gate
    disposeStopping: bool,
    saverStopping: bool,
    runs: nat,              // inspections, apply runs and row actions alive
    jobs: nat,              // unban and delete jobs alive
    dispose: nat,           // dispose workers alive
    writers: nat,           // background writers of the inspection snapshot alive
    saver: nat,             // the ban persist worker, if alive
    requests: nat,          // unbans inside a request
    waiting: nat,           // host calls admitted, without a slot
    inSlot: nat,            // host calls in a slot
    leaving: nat,           // host calls out of their slot, not yet done
    gate: Gate,
    changes: nat,           // changes of the pool by anyone but the host's usage callbacks
    saved: nat)             // those made when the last save began

  datatype Step =
    | StartRun | EndRun | StartJob | EndJob | StartDispose(n: nat) | EndDispose
    | StartWriter | EndWriter | StartSaver | EndSaver | StartRequest | EndRequest
    | Change(who: Actor)
    | AdmitHost | TakeSlot | LeaveSlot | HostDone
    | Shut                  // the shutdown takes its next step

  predicate Alive(s: State, who: Actor) {
    match who
    case Run => s.runs > 0
    case Job => s.jobs > 0
    case Dispose => s.dispose > 0
    case Request => s.requests > 0
    case Usage => true
  }

  /** Whether the shutdown is not waiting. */
  predicate MayShut(s: State) {
    match s.stage
    case AwaitDispose => s.dispose == 0
    case AwaitRuns => s.runs == 0
    case AwaitJobs => s.jobs == 0
    case AwaitWriters => s.writers == 0
    case AwaitSaver => s.saver == 0
    case AwaitHost => s.gate.admitted == 0
    case Returned => false
    case _ => true
  }

  predicate Enabled(s: State, step: Step) {
    match step
    case StartRun => !s.shuttingDown
    case EndRun => s.runs > 0
    case StartJob => !s.shuttingDown
    case EndJob => s.jobs > 0
    case StartDispose(n) => !s.disposeStopping
    case EndDispose => s.dispose > 0
    case StartWriter => !s.shuttingDown || s.runs > 0 || s.jobs > 0  // by a start section or a worker
    case EndWriter => s.writers > 0
    case StartSaver => !s.saverStopping && s.saver == 0
    case EndSaver => s.saver > 0 && s.saverStopping
    case StartRequest => !s.shuttingDown
    case EndRequest => s.requests > 0
    case Change(who) => Alive(s, who)
    case AdmitHost => !s.gate.closed
    case TakeSlot => s.waiting > 0 && s.gate.slots < CAPACITY
    case LeaveSlot => s.inSlot > 0
    case HostDone => s.leaving > 0
    case Shut => MayShut(s)
  }

  function Shutting(s: State): State {
    match s.stage
    case Before => s.(shuttingDown := true, stage := StopDispose)
    case StopDispose => s.(disposeStopping := true, stage := AwaitDispose)
    case AwaitDispose => s.(stage := StopSlotJob)
    case StopSlotJob => s.(stage := AwaitRuns)
    case AwaitRuns => s.(stage := AwaitJobs)
    case AwaitJobs => s.(stage := AwaitWriters)
    case AwaitWriters => s.(stage := StopSaver)
    case StopSaver => s.(saverStopping := true, stage := AwaitSaver)
    case AwaitSaver => s.(stage := LastSave, saved := s.changes)
    case LastSave => s.(stage := CloseHost)
    case CloseHost => s.(gate := Closed(s.gate), stage := AwaitHost)
    case AwaitHost => s.(stage := Returned)
    case Returned => s
  }

  function Next(s: State, step: Step): State
    requires Enabled(s, step) && GateOk(s)
  {
    match step
    case StartRun => s.(runs := s.runs + 1)
    case EndRun => s.(runs := s.runs - 1)
    case StartJob => s.(jobs := s.jobs + 1)
    case EndJob => s.(jobs := s.jobs - 1)
    case StartDispose(n) => s.(dispose := s.dispose + n)
    case EndDispose => s.(dispose := s.dispose - 1)
    case StartWriter => s.(writers := s.writers + 1)
    case EndWriter => s.(writers := s.writers - 1)
    case StartSaver => s.(saver := 1)
    case EndSaver => s.(saver := s.saver - 1)
    case StartRequest => s.(requests := s.requests + 1)
    case EndRequest => s.(requests := s.requests - 1)
    case Change(who) => if who == Usage then s else s.(changes := s.changes + 1)
    case AdmitHost => s.(gate := Admitted(s.gate), waiting := s.waiting + 1)
    case TakeSlot => s.(gate := SlotTaken(s.gate), waiting := s.waiting - 1, inSlot := s.inSlot + 1)
    case LeaveSlot => s.(gate := SlotLeft(s.gate), inSlot := s.inSlot - 1, leaving := s.leaving + 1)
    case HostDone => s.(gate := CallDone(s.gate), leaving := s.leaving - 1)
    case Shut => Shutting(s)
  }

  /** The counters of the gate tell where its calls are. */
  predicate GateOk(s: State) {
    && s.gate.admitted == s.waiting + s.inSlot + s.leaving
    && s.gate.slots == s.inSlot <= CAPACITY
  }

  predicate Follows(s: State, step: Step, t: State) {
    GateOk(s) && Enabled(s, step) && t == Next(s, step)
  }

  const IDLE := State(Before, false, false, false, 0, 0, 0, 0, 0, 0, 0, 0, 0, Gate(false, 0, 0), 0, 0)

  ghost predicate Reachable(states: seq<State>, steps: seq<Step>) {
    && |states| == |steps| + 1
    && states[0] == IDLE
    && forall i | 0 <= i < |steps| :: Follows(states[i], steps[i], states[i + 1])
  }

  predicate Past(s: State, stage: Stage) {
    Rank(s.stage) > Rank(stage)
  }

  /** Each wait leaves nothing behind, and nothing comes back. */
  predicate Inv(s: State) {
    && GateOk(s)
    && (s.shuttingDown <==> s.stage != Before) && (s.disposeStopping <==> Past(s, StopDispose))
    && (s.saverStopping <==> Past(s, StopSaver))
    && (s.gate.closed <==> Past(s, CloseHost))
    && (Past(s, AwaitDispose) ==> s.dispose == 0)
    && (Past(s, AwaitRuns) ==> s.runs == 0)
    && (Past(s, AwaitJobs) ==> s.jobs == 0)
    && (Past(s, AwaitWriters) ==> s.writers == 0)
    && (Past(s, AwaitSaver) ==> s.saver == 0)
    && (Past(s, AwaitHost) ==> s.gate.admitted == 0)
  }

  lemma StepKeepsInv(s: State, step: Step, t: State)
    requires Inv(s) && Follows(s, step, t)
    ensures Inv(t) && Rank(s.stage) <= Rank(t.stage)
  {
    hide Inv, Follows;
    if step == Shut {
      ShutKeepsInv(s, t);
    } else if step in {AdmitHost, HostDone} {
      CountKeepsInv(s, step, t);
    } else if step in {TakeSlot, LeaveSlot} {
      SlotKeepsInv(s, step, t);
    } else if step in {StartRun, EndRun, StartJob, EndJob, StartRequest, EndRequest} {
      WorkKeepsInv(s, step, t);
    } else {
      HelperKeepsInv(s, step, t);
    }
  }

  /** What lies behind the shutdown, of what is asked below. */
  lemma StagesBehind(s: State)
    ensures s.stage == Before ==> !Past(s, AwaitRuns) && !Past(s, AwaitJobs) && !Past(s, AwaitWriters)
    ensures Past(s, AwaitDispose) ==> Past(s, StopDispose)
    ensures Past(s, AwaitWriters) ==> Past(s, AwaitRuns) && Past(s, AwaitJobs)
    ensures Past(s, AwaitSaver) ==> Past(s, StopSaver)
    ensures Past(s, AwaitHost) ==> Past(s, CloseHost)
  {
  }

  /** The shutdown's step moves it on by one stage and adds no work. */
  lemma OneStage(s: State)
    requires MayShut(s)
    ensures Rank(Shutting(s).stage) == Rank(s.stage) + 1
    ensures var t := Shutting(s);
      && t.runs == s.runs && t.jobs == s.jobs && t.dispose == s.dispose && t.writers == s.writers && t.saver == s.saver
      && t.requests == s.requests && t.waiting == s.waiting && t.inSlot == s.inSlot && t.leaving == s.leaving
      && t.changes == s.changes && t.gate.admitted == s.gate.admitted && t.gate.slots == s.gate.slots
  {
    match s.stage
    case Before =>
    case StopDispose =>
    case AwaitDispose =>
    case StopSlotJob =>
    case AwaitRuns =>
    case AwaitJobs =>
    case AwaitWriters =>
    case StopSaver =>
    case AwaitSaver =>
    case LastSave =>
    case CloseHost =>
    case AwaitHost =>
  }

  lemma ShutKeepsInv(s: State, t: State)
    requires Inv(s) && Follows(s, Shut, t)
    ensures Inv(t) && Rank(s.stage) <= Rank(t.stage)
  {
    assert MayShut(s) && t == Shutting(s);
    hide Follows, Next, Enabled;
    match s.stage
    case Before =>
    case StopDispose =>
    case AwaitDispose =>
    case StopSlotJob =>
    case AwaitRuns =>
    case AwaitJobs =>
    case AwaitWriters =>
    case StopSaver =>
    case AwaitSaver =>
    case LastSave =>
    case CloseHost =>
    case AwaitHost =>
  }

  lemma CountKeepsInv(s: State, step: Step, t: State)
    requires Inv(s) && Follows(s, step, t) && step in {AdmitHost, HostDone}
    ensures Inv(t) && Rank(s.stage) <= Rank(t.stage)
  {
    StagesBehind(s);
    hide Rank;
  }

  lemma SlotKeepsInv(s: State, step: Step, t: State)
    requires Inv(s) && Follows(s, step, t) && step in {TakeSlot, LeaveSlot}
    ensures Inv(t) && Rank(s.stage) <= Rank(t.stage)
  {
    StagesBehind(s);
    hide Rank;
  }

  lemma WorkKeepsInv(s: State, step: Step, t: State)
    requires Inv(s) && Follows(s, step, t)
    requires step in {StartRun, EndRun, StartJob, EndJob, StartRequest, EndRequest}
    ensures Inv(t) && Rank(s.stage) <= Rank(t.stage)
  {
    StagesBehind(s);
    hide Rank;
  }

  lemma HelperKeepsInv(s: State, step: Step, t: State)
    requires Inv(s) && Follows(s, step, t)
    requires step in {EndDispose, StartWriter, EndWriter, StartSaver, EndSaver} || step.StartDispose? || step.Change?
    ensures Inv(t) && Rank(s.stage) <= Rank(t.stage)
  {
    StagesBehind(s);
    hide Rank;
  }

  lemma BeforeIsInv(s: State)
    requires s.stage == Before && !s.shuttingDown && !s.disposeStopping && !s.saverStopping
    requires !s.gate.closed && GateOk(s)
    ensures Inv(s)
  {
  }

  lemma {:induction false} RunsKeepInv(states: seq<State>, steps: seq<Step>, n: nat)
    requires Reachable(states, steps) && n < |states|
    ensures Inv(states[n])
    decreases n
  {
    hide Inv, Follows;
    if n == 0 {
      BeforeIsInv(IDLE);
    } else {
      RunsKeepInv(states, steps, n - 1);
      assert Follows(states[n - 1], steps[n - 1], states[n]);
      StepKeepsInv(states[n - 1], steps[n - 1], states[n]);
    }
  }

  /** In every run at most sixteen host calls are in a slot, and the wait group counts the
      admitted ones, wherever they are. */
  lemma CapacityHolds(states: seq<State>, steps: seq<Step>, n: nat)
    requires Reachable(states, steps) && n < |states|
    ensures states[n].inSlot == states[n].gate.slots <= CAPACITY
    ensures states[n].gate.admitted == states[n].waiting + states[n].inSlot + states[n].leaving
    ensures Bounded(states[n].gate)
  {
    RunsKeepInv(states, steps, n);
  }

  predicate AddsWorker(step: Step) {
    step.StartRun? || step.StartJob? || step.StartRequest?
  }

  lemma StagesOnlyAdvance(states: seq<State>, steps: seq<Step>, i: nat, j: nat)
    requires Reachable(states, steps) && i <= j < |states|
    ensures Rank(states[i].stage) <= Rank(states[j].stage)
    decreases j
  {
    hide Inv, Enabled, Next, GateOk, Rank;
    if i < j {
      StagesOnlyAdvance(states, steps, i, j - 1);
      RunsKeepInv(states, steps, j - 1);
      StepKeepsInv(states[j - 1], steps[j - 1], states[j]);
    }
  }

  /** After the engine's gate no run or job is added, after the host gate is closed no host
      call, after the dispose stop no dispose worker. */
  lemma NoAddAfterTheGates(states: seq<State>, steps: seq<Step>, i: nat, j: nat)
    requires Reachable(states, steps) && i <= j < |steps|
    ensures states[i].shuttingDown ==> !AddsWorker(steps[j])
    ensures Past(states[i], StopDispose) ==> !steps[j].StartDispose?
    ensures states[i].gate.closed ==> steps[j] != AdmitHost
  {
    StagesOnlyAdvance(states, steps, i, j);
    RunsKeepInv(states, steps, i);
    RunsKeepInv(states, steps, j);
    assert Follows(states[j], steps[j], states[j + 1]);
  }

  /** When the shutdown has returned no run, job, dispose worker, snapshot writer, saver or
      admitted host call is alive, nor will one ever be. */
  lemma ReturnedMeansQuiet(states: seq<State>, steps: seq<Step>, i: nat, n: nat)
    requires Reachable(states, steps) && i <= n < |states| && states[i].stage == Returned
    ensures var s := states[n];
      && s.stage == Returned
      && s.runs == s.jobs == s.dispose == s.writers == s.saver == 0
      && s.gate.closed && s.gate.admitted == s.gate.slots == 0
  {
    StagesOnlyAdvance(states, steps, i, n);
    RunsKeepInv(states, steps, n);
  }

  // ---- The last save ------------------------------------------------------------------

  /** With no unban inside a request when the last save begins, nothing it misses is ever
      changed: no registered worker can, and no such unban can start. */
  lemma {:induction false} LastSaveIsLast(states: seq<State>, steps: seq<Step>, i: nat, n: nat)
    requires Reachable(states, steps) && i <= n < |states|
    requires Past(states[i], AwaitSaver) && states[i].saved == states[i].changes && states[i].requests == 0
    ensures states[n].saved == states[n].changes && states[n].requests == 0
    decreases n
  {
    hide Inv, Enabled, Next, GateOk, Rank;
    if i < n {
      LastSaveIsLast(states, steps, i, n - 1);
      RunsKeepInv(states, steps, n - 1);
      StagesOnlyAdvance(states, steps, i, n - 1);
      assert Follows(states[n - 1], steps[n - 1], states[n]);
      LateStep(states[n - 1], steps[n - 1], states[n]);
      NoLateRequest(states[n - 1], steps[n - 1], states[n]);
    }
  }

  lemma NoLateRequest(s: State, step: Step, t: State)
    requires Inv(s) && Follows(s, step, t) && Past(s, AwaitSaver) && s.requests == 0
    ensures t.requests == 0 && step != Change(Request)
  {
  }

  /** The run goes on from where it is. */
  ghost predicate Continues(states: seq<State>, steps: seq<Step>, more: seq<State>, taken: seq<Step>) {
    Reachable(more, taken) && states <= more && steps <= taken
  }

  /** Everything changed is covered by the last save, however the run goes on, exactly if no
      unban was inside a request when it began. */
  lemma LastSaveIsLastIff(states: seq<State>, steps: seq<Step>)
    requires Reachable(states, steps) && states[|steps|].stage == LastSave
    requires states[|steps|].saved == states[|steps|].changes
    ensures (forall more: seq<State>, taken: seq<Step> | Continues(states, steps, more, taken) ::
               more[|taken|].saved == more[|taken|].changes) <==>
            states[|steps|].requests == 0
  {
    var s := states[|steps|];
    if s.requests == 0 {
      forall more: seq<State>, taken: seq<Step> | Continues(states, steps, more, taken)
        ensures more[|taken|].saved == more[|taken|].changes
      {
        LastSaveIsLast(more, taken, |steps|, |taken|);
      }
    } else {
      RunsKeepInv(states, steps, |steps|);
      Extended(states, steps, Change(Request));
      assert Continues(states, steps, states + [Next(s, Change(Request))], steps + [Change(Request)]);
    }
  }

  lemma LateStep(s: State, step: Step, t: State)
    requires Inv(s) && Follows(s, step, t) && Past(s, AwaitSaver)
    ensures t.saved == s.saved && t.changes == s.changes + if step == Change(Request) then 1 else 0
  {
  }

  lemma LastSaveBegins(states: seq<State>, steps: seq<Step>, i: nat)
    requires Reachable(states, steps) && i < |steps| && !Past(states[i], AwaitSaver) && Past(states[i + 1], AwaitSaver)
    ensures steps[i] == Shut && states[i + 1].stage == LastSave && states[i + 1].saved == states[i + 1].changes
  {
    RunsKeepInv(states, steps, i);
    assert Follows(states[i], steps[i], states[i + 1]);
  }

  // ---- The shutdown comes to an end ------------------------------------------------------

  /** A step that brings a waiting shutdown closer to its end. */
  predicate Drains(step: Step) {
    step in {EndRun, EndJob, EndDispose, EndWriter, EndSaver, TakeSlot, LeaveSlot, HostDone, Shut}
  }

  /** The shutdown is never stuck: it can go on, or something it waits for can. */
  lemma ShutdownIsNotStuck(states: seq<State>, steps: seq<Step>, n: nat)
    returns (step: Step)
    requires Reachable(states, steps) && n < |states| && states[n].stage != Returned
    ensures Enabled(states[n], step) && Drains(step)
  {
    RunsKeepInv(states, steps, n);
    var s := states[n];
    if MayShut(s) {
      step := Shut;
    } else {
      match s.stage
      case AwaitDispose => step := EndDispose;
      case AwaitRuns => step := EndRun;
      case AwaitJobs => step := EndJob;
      case AwaitWriters => step := EndWriter;
      case AwaitSaver => step := EndSaver;
      case AwaitHost =>
        step := if s.leaving > 0 then HostDone else if s.inSlot > 0 then LeaveSlot else TakeSlot;
    }
  }

  /** What is left to drain once the gates are closed. */
  function Left(s: State): nat {
    s.runs + s.jobs + s.dispose + s.writers + s.saver + 3 * s.waiting + 2 * s.inSlot + s.leaving +
    (12 - Rank(s.stage))
  }

  lemma DrainingGoesDown(s: State, step: Step, t: State)
    requires Inv(s) && Follows(s, step, t) && Drains(step)
    ensures Left(t) < Left(s)
  {
    if step == Shut {
      StageGoesUp(s);
    } else {
      WorkGoesDown(s, step, t);
    }
  }

  lemma StageGoesUp(s: State)
    requires Inv(s) && MayShut(s)
    ensures Left(Shutting(s)) < Left(s)
  {
    OneStage(s);
    hide Inv, Shutting, MayShut;
    RankIsBounded(Shutting(s).stage);
  }

  lemma RankIsBounded(s: Stage)
    ensures Rank(s) <= 12
  {
  }

  lemma WorkGoesDown(s: State, step: Step, t: State)
    requires Inv(s) && Follows(s, step, t) && Drains(step) && step != Shut
    ensures Left(t) < Left(s)
  {
    hide Rank, Inv;
  }

  // ---- Unbans inside a request are not waited for ------------------------------------------

  lemma Extended(states: seq<State>, steps: seq<Step>, step: Step)
    requires Reachable(states, steps) && Enabled(states[|steps|], step) && GateOk(states[|steps|])
    ensures Reachable(states + [Next(states[|steps|], step)], steps + [step])
  {
  }

  /** Only an unban in a request is going on. */
  predicate OnlyRequest(s: State) {
    && s.requests == 1 && s.changes == 0 && s.saved == 0
    && s.runs == 0 && s.jobs == 0 && s.dispose == 0 && s.writers == 0 && s.saver == 0
    && s.waiting == 0 && s.inSlot == 0 && s.leaving == 0 && s.gate.admitted == 0 && s.gate.slots == 0
  }

  lemma NextStage(s: State)
    requires OnlyRequest(s) && Rank(s.stage) < 12
    ensures Enabled(s, Shut) && OnlyRequest(Next(s, Shut)) && Rank(Next(s, Shut).stage) == Rank(s.stage) + 1
  {
    assert MayShut(s);
    assert Next(s, Shut) == Shutting(s);
    OneStage(s);
    hide Next, Enabled, MayShut, Rank;
    assert Shutting(s).saved == 0;
  }

  /** Shutting down with nothing to wait for, one stage after the other. */
  lemma {:induction false} ShutThrough(
      states: seq<State>, steps: seq<Step>, k: nat)
      returns (more: seq<State>, taken: seq<Step>)
    requires Reachable(states, steps) && k <= 12
    requires OnlyRequest(states[|steps|]) && states[|steps|].stage == Before
    ensures Reachable(more, taken) && OnlyRequest(more[|taken|]) && Rank(more[|taken|].stage) == k
    decreases k
  {
    hide Enabled, Next, GateOk, OnlyRequest, Inv;
    if k == 0 {
      more, taken := states, steps;
    } else {
      more, taken := ShutThrough(states, steps, k - 1);
      hide Rank;
      NextStage(more[|taken|]);
      GateOfRequest(more[|taken|]);
      more, taken := OneMore(more, taken, Shut);
    }
  }

  lemma GateOfRequest(s: State)
    requires OnlyRequest(s)
    ensures GateOk(s)
  {
  }

  lemma LastChange(s: State)
    requires OnlyRequest(s) && s.stage == Returned
    ensures Enabled(s, Change(Request)) && GateOk(s)
    ensures var t := Next(s, Change(Request)); t.stage == Returned && t.requests == 1 && t.saved < t.changes
  {
    GateOfRequest(s);
    hide GateOk, Shutting, MayShut, Rank;
  }

  /** Such an unban can change the pool after the last save, and outlive the shutdown. */
  lemma RequestUnbanCanOutlive() returns (states: seq<State>, steps: seq<Step>)
    ensures Reachable(states, steps)
    ensures var s := states[|steps|]; s.stage == Returned && s.requests == 1 && s.saved < s.changes
  {
    hide Enabled, Next, OnlyRequest;
    states, steps := UnderRequest();
    states, steps := ShutThrough(states, steps, 12);
    LastChange(states[|steps|]);
    states, steps := OneMore(states, steps, Change(Request));
  }

  lemma UnderRequest() returns (states: seq<State>, steps: seq<Step>)
    ensures |states| == |steps| + 1 && Reachable(states, steps)
    ensures OnlyRequest(states[|steps|]) && states[|steps|].stage == Before
  {
    hide Reachable, Enabled, Next, GateOk, OnlyRequest;
    states, steps := NothingYet();
    FirstRequest(states[|steps|]);
    states, steps := OneMore(states, steps, StartRequest);
  }

  lemma OneMore(states: seq<State>, steps: seq<Step>, step: Step) returns (more: seq<State>, taken: seq<Step>)
    requires |states| == |steps| + 1 && Reachable(states, steps)
    requires Enabled(states[|steps|], step) && GateOk(states[|steps|])
    ensures |more| == |taken| + 1 && Reachable(more, taken) && more[|taken|] == Next(states[|steps|], step)
  {
    hide Next, Enabled, GateOk;
    Extended(states, steps, step);
    more, taken := states + [Next(states[|steps|], step)], steps + [step];
  }

  lemma NothingYet() returns (states: seq<State>, steps: seq<Step>)
    ensures Reachable(states, steps) && |states| == |steps| + 1 && states[|steps|] == IDLE
  {
    states, steps := [IDLE], [];
  }

  lemma FirstRequest(s: State)
    requires s == IDLE
    ensures Enabled(s, StartRequest) && GateOk(s) && OnlyRequest(Next(s, StartRequest))
    ensures Next(s, StartRequest).stage == Before
  {
  }
}
