/** Which long-running operation owns the engine: the flags behind the engine's lock, the
    shared unban/delete slot, the goroutines alive behind them, and the run tokens. */
module Lifecycle {

  datatype Flags = Flags(
    running: bool,
    stopped: bool,
    shuttingDown: bool,
    applying: bool,
    applyDraining: bool,
    applyRunId: nat,
    actionInFlight: int,
    runId: nat,
    lastFinished: nat)

  datatype Slot = Slot(running: bool, stopped: bool, runId: nat)

  const IDLE := Flags(false, false, false, false, false, 0, 0, 0, 0)

  // ---- The critical sections, on values ---------------------------------------

  predicate EngineFree(f: Flags) {
    !f.shuttingDown && !f.running && !f.applying && !f.applyDraining
  }

  predicate MayStart(f: Flags, slot: Slot) {
    EngineFree(f) && f.actionInFlight <= 0 && !slot.running
  }

  predicate MayAct(f: Flags, slot: Slot) {
    EngineFree(f) && !slot.running
  }

  predicate MayClaim(f: Flags, slot: Slot) {
    EngineFree(f) && f.actionInFlight <= 0 && !slot.running
  }

  function Started(f: Flags): Flags {
    f.(running := true, stopped := false, applying := false, runId := f.runId + 1)
  }

  /** Ends a running inspection early and invalidates its writers. */
  function Aborted(f: Flags): Flags {
    if f.running then f.(running := false, runId := f.runId + 1) else f
  }

  function Stopped(f: Flags): Flags {
    var g := f.(stopped := true);
    Aborted(if f.applying then g.(applyRunId := f.applyRunId + 1, applying := false, applyDraining := true) else g)
  }

  function Finished(f: Flags, token: nat): Flags {
    if f.runId != token then f else f.(running := false, lastFinished := token)
  }

  function ApplyStarted(f: Flags): Flags {
    f.(applying := true, applyRunId := f.applyRunId + 1)
  }

  /** Both flags go, whichever apply run the worker belongs to. */
  function ApplyExited(f: Flags): Flags {
    f.(applying := false, applyDraining := false)
  }

  function ActionStarted(f: Flags): Flags {
    f.(actionInFlight := f.actionInFlight + 1)
  }

  function ActionExited(f: Flags): Flags {
    f.(actionInFlight := if f.actionInFlight - 1 < 0 then 0 else f.actionInFlight - 1)
  }

  function Claimed(slot: Slot): Slot {
    Slot(true, false, slot.runId + 1)
  }

  /** The slot is freed whichever run releases it. */
  function Released(slot: Slot): Slot {
    slot.(running := false)
  }

  function SlotStopped(slot: Slot): Slot {
    if slot.running then slot.(stopped := true) else slot
  }

  function Gated(f: Flags): Flags {
    f.(shuttingDown := true, stopped := true, runId := f.runId + 1, applyRunId := f.applyRunId + 1,
       applying := false, applyDraining := true)
  }

  // ---- Everything together ------------------------------------------------------

  /** The goroutines alive behind the flags: inspection runs by token, apply workers by
      apply run, row actions by number, and slot workers by slot run. */
  datatype State = State(
    f: Flags,
    slot: Slot,
    inspectors: set<nat>,
    issued: set<nat>,
    appliers: set<nat>,
    actions: nat,
    slotWorkers: set<nat>)

  datatype Step =
    | Start
    | Finish(token: nat)       // the run's goroutine ends
    | StopEngine
    | StartApply
    | ExitApply(run: nat)      // the apply goroutine ends
    | StartAction
    | ExitAction
    | ClaimSlot
    | ReleaseSlot(run: nat)    // the slot's holder is done
    | StopSlot
    | Gate                     // first section of the shutdown

  ghost predicate Enabled(s: State, step: Step) {
    match step
    case Start => MayStart(s.f, s.slot)
    case Finish(token) => token in s.inspectors
    case StopEngine => true
    case StartApply => MayStart(s.f, s.slot)
    case ExitApply(run) => run in s.appliers
    case StartAction => MayAct(s.f, s.slot)
    case ExitAction => s.actions > 0
    case ClaimSlot => MayClaim(s.f, s.slot)
    case ReleaseSlot(run) => run in s.slotWorkers
    case StopSlot => true
    case Gate => !s.f.shuttingDown
  }

  ghost function Next(s: State, step: Step): State
    requires Enabled(s, step)
  {
    match step
    case Start =>
      var f := Started(s.f);
      s.(f := f, inspectors := s.inspectors + {f.runId}, issued := s.issued + {f.runId})
    case Finish(token) => s.(f := Finished(s.f, token), inspectors := s.inspectors - {token})
    case StopEngine => s.(f := Stopped(s.f))
    case StartApply =>
      var f := ApplyStarted(s.f);
      s.(f := f, appliers := s.appliers + {f.applyRunId})
    case ExitApply(run) => s.(f := ApplyExited(s.f), appliers := s.appliers - {run})
    case StartAction => s.(f := ActionStarted(s.f), actions := s.actions + 1)
    case ExitAction => s.(f := ActionExited(s.f), actions := s.actions - 1)
    case ClaimSlot =>
      var slot := Claimed(s.slot);
      s.(slot := slot, slotWorkers := s.slotWorkers + {slot.runId})
    case ReleaseSlot(run) => s.(slot := Released(s.slot), slotWorkers := s.slotWorkers - {run})
    case StopSlot => s.(slot := SlotStopped(s.slot))
    case Gate => s.(f := Gated(s.f))
  }

  ghost predicate Initial(s: State) {
    s == State(IDLE, Slot(false, false, 0), {}, {}, {}, 0, {})
  }

  ghost predicate Follows(s: State, step: Step, t: State) {
    Enabled(s, step) && t == Next(s, step)
  }

  ghost predicate Run(states: seq<State>, steps: seq<Step>) {
    && |states| == |steps| + 1
    && Initial(states[0])
    && forall i | 0 <= i < |steps| :: Follows(states[i], steps[i], states[i + 1])
  }

  // ---- Exclusion ------------------------------------------------------------------

  function One(b: bool): nat {
    if b then 1 else 0
  }

  /** How many of the four kinds of work hold the engine. */
  function Holders(s: State): nat {
    One(s.f.running) + One(s.f.applying || s.f.applyDraining) + One(s.slot.running) + One(s.f.actionInFlight > 0)
  }

  ghost predicate Single(workers: set<nat>) {
    forall a, b | a in workers && b in workers :: a == b
  }

  ghost predicate WorkersOk(s: State) {
    && s.f.actionInFlight == s.actions
    && (s.slot.running <==> s.slotWorkers == {s.slot.runId})
    && (!s.slot.running ==> s.slotWorkers == {})
    && Single(s.appliers)
    && (!s.f.shuttingDown ==> (s.appliers == {} <==> !s.f.applying && !s.f.applyDraining))
    && (s.f.applying ==> s.f.applyRunId in s.appliers)
  }

  ghost predicate Exclusive(s: State) {
    !s.f.shuttingDown ==> Holders(s) <= 1
  }

  lemma StepKeepsWorkers(s: State, step: Step, t: State)
    requires WorkersOk(s) && Exclusive(s) && Follows(s, step, t)
    ensures WorkersOk(t) && Exclusive(t)
  {
  }

  lemma {:induction false} RunsKeepWorkers(states: seq<State>, steps: seq<Step>, n: nat)
    requires Run(states, steps) && n < |states|
    ensures WorkersOk(states[n]) && Exclusive(states[n])
    decreases n
  {
    if n > 0 {
      RunsKeepWorkers(states, steps, n - 1);
      StepKeepsWorkers(states[n - 1], steps[n - 1], states[n]);
    }
  }

  /** Before the shutdown at most one of inspection, bulk apply (draining included), the
      unban/delete slot and row actions is busy, with at most one worker behind each. */
  lemma OneHolderAtATime(states: seq<State>, steps: seq<Step>, n: nat)
    requires Run(states, steps) && n < |states| && !states[n].f.shuttingDown
    ensures Holders(states[n]) <= 1
    ensures Single(states[n].appliers) && Single(states[n].slotWorkers)
    ensures states[n].appliers != {} ==>
      !states[n].f.running && !states[n].slot.running && states[n].actions == 0
  {
    RunsKeepWorkers(states, steps, n);
  }

  /** The two resets that ignore their run number never clear a newer job: the worker that
      resets is the only one, and afterwards nothing holds the engine. */
  lemma ResetsClearOnlyTheirOwn(states: seq<State>, steps: seq<Step>, n: nat)
    requires Run(states, steps) && n < |steps| && !states[n].f.shuttingDown
    ensures steps[n].ExitApply? ==>
      states[n].appliers == {steps[n].run} && states[n + 1].appliers == {} && Holders(states[n + 1]) == 0
    ensures steps[n].ReleaseSlot? ==>
      steps[n].run == states[n].slot.runId && states[n + 1].slotWorkers == {} && Holders(states[n + 1]) == 0
  {
    RunsKeepWorkers(states, steps, n);
    RunsKeepWorkers(states, steps, n + 1);
    assert Follows(states[n], steps[n], states[n + 1]);
    if steps[n].ExitApply? {
      assert forall a | a in states[n].appliers :: a == steps[n].run;
    }
  }

  /** Each kind of work may begin exactly when no worker that excludes it is alive. */
  lemma MayBeginIff(states: seq<State>, steps: seq<Step>, n: nat)
    requires Run(states, steps) && n < |states|
    ensures var s := states[n];
      var quiet := !s.f.shuttingDown && !s.f.running && s.appliers == {} && s.slotWorkers == {};
      && (Enabled(s, Start) <==> quiet && s.actions == 0)
      && (Enabled(s, StartApply) <==> quiet && s.actions == 0)
      && (Enabled(s, ClaimSlot) <==> quiet && s.actions == 0)
      && (Enabled(s, StartAction) <==> quiet)
  {
    RunsKeepWorkers(states, steps, n);
  }

  // ---- What is going on, read off the steps -----------------------------------------

  predicate JobActive(s: State, run: nat) {
    s.slot.running && s.slot.runId == run && !s.slot.stopped
  }

  predicate ApplyActive(s: State, run: nat) {
    s.f.applying && s.f.applyRunId == run
  }

  /** Writers with this token are let through. */
  predicate TokenLive(f: Flags, token: nat) {
    f.runId == token && !f.stopped
  }

  /** The job was claimed by step `i`, and neither stopped nor released since. */
  ghost predicate JobSince(states: seq<State>, steps: seq<Step>, i: nat, n: nat, run: nat)
    requires |states| == |steps| + 1 && n <= |steps|
  {
    && i < n && steps[i] == ClaimSlot && states[i + 1].slot.runId == run
    && forall m | i < m < n :: steps[m] != StopSlot && !steps[m].ReleaseSlot?
  }

  lemma JobStep(s: State, step: Step, t: State, run: nat)
    requires Follows(s, step, t)
    ensures JobActive(t, run) <==>
      if step == ClaimSlot then t.slot.runId == run
      else JobActive(s, run) && step != StopSlot && !step.ReleaseSlot?
    ensures step == ClaimSlot ==> !s.slot.running
  {
  }

  /** A job is active exactly from its claim up to the first stop or release. */
  lemma {:induction false} ActiveJobIff(states: seq<State>, steps: seq<Step>, n: nat, run: nat)
    requires Run(states, steps) && n < |states|
    ensures JobActive(states[n], run) <==> exists i: nat :: JobSince(states, steps, i, n, run)
    decreases n
  {
    hide Enabled, Next;
    if n > 0 {
      ActiveJobIff(states, steps, n - 1, run);
      assert Follows(states[n - 1], steps[n - 1], states[n]);
      JobStep(states[n - 1], steps[n - 1], states[n], run);
      forall i: nat
        ensures JobSince(states, steps, i, n, run) <==>
          if i == n - 1 then steps[i] == ClaimSlot && states[n].slot.runId == run
          else JobSince(states, steps, i, n - 1, run) && steps[n - 1] != StopSlot && !steps[n - 1].ReleaseSlot?
      {
      }
    }
  }

  /** The apply run was started by step `i`, and neither stopped nor left since. */
  ghost predicate ApplySince(states: seq<State>, steps: seq<Step>, i: nat, n: nat, run: nat)
    requires |states| == |steps| + 1 && n <= |steps|
  {
    && i < n && steps[i] == StartApply && states[i + 1].f.applyRunId == run
    && forall m | i < m < n :: steps[m] != StopEngine && steps[m] != Gate && !steps[m].ExitApply?
  }

  lemma ApplyStep(s: State, step: Step, t: State, run: nat)
    requires Follows(s, step, t)
    ensures ApplyActive(t, run) <==>
      if step == StartApply then t.f.applyRunId == run
      else ApplyActive(s, run) && step != StopEngine && step != Gate && !step.ExitApply?
    ensures step == StartApply ==> !s.f.applying
  {
  }

  /** A bulk apply is active exactly from its start up to the first stop or exit. */
  lemma {:induction false} ActiveApplyIff(states: seq<State>, steps: seq<Step>, n: nat, run: nat)
    requires Run(states, steps) && n < |states|
    ensures ApplyActive(states[n], run) <==> exists i: nat :: ApplySince(states, steps, i, n, run)
    decreases n
  {
    hide Enabled, Next;
    if n > 0 {
      ActiveApplyIff(states, steps, n - 1, run);
      assert Follows(states[n - 1], steps[n - 1], states[n]);
      ApplyStep(states[n - 1], steps[n - 1], states[n], run);
      forall i: nat
        ensures ApplySince(states, steps, i, n, run) <==>
          if i == n - 1 then steps[i] == StartApply && states[n].f.applyRunId == run
          else ApplySince(states, steps, i, n - 1, run) && steps[n - 1] != StopEngine && steps[n - 1] != Gate &&
               !steps[n - 1].ExitApply?
      {
      }
    }
  }

  /** The token was given by step `i`, with no start and no stop since. */
  ghost predicate LiveSince(states: seq<State>, steps: seq<Step>, i: nat, n: nat, token: nat)
    requires |states| == |steps| + 1 && n <= |steps|
  {
    && i < n && steps[i] == Start && states[i + 1].f.runId == token
    && forall m | i < m < n :: steps[m] != Start && steps[m] != StopEngine && steps[m] != Gate
  }

  lemma LiveStep(s: State, step: Step, t: State, token: nat)
    requires Follows(s, step, t)
    ensures TokenLive(t.f, token) <==>
      if step == Start then t.f.runId == token else TokenLive(s.f, token) && step != StopEngine && step != Gate
  {
  }

  /** A run's writers are let through exactly from its start up to the next start or stop:
      a stop before the start, or the end of an older run, does not hold them back. */
  lemma {:induction false} LiveTokenIff(states: seq<State>, steps: seq<Step>, n: nat, token: nat)
    requires Run(states, steps) && n < |states| && token > 0
    ensures TokenLive(states[n].f, token) <==> exists i: nat :: LiveSince(states, steps, i, n, token)
    decreases n
  {
    hide Enabled, Next;
    if n > 0 {
      LiveTokenIff(states, steps, n - 1, token);
      assert Follows(states[n - 1], steps[n - 1], states[n]);
      LiveStep(states[n - 1], steps[n - 1], states[n], token);
      forall i: nat
        ensures LiveSince(states, steps, i, n, token) <==>
          if i == n - 1 then steps[i] == Start && states[n].f.runId == token
          else LiveSince(states, steps, i, n - 1, token) && steps[n - 1] != Start && steps[n - 1] != StopEngine &&
               steps[n - 1] != Gate
      {
      }
    }
  }

  /** Runs, apply runs and jobs are numbered upwards, no number twice. */
  lemma NumbersAreFresh(states: seq<State>, steps: seq<Step>, i: nat, j: nat)
    requires Run(states, steps) && i < j < |steps|
    ensures steps[i] == steps[j] == Start ==> states[i + 1].f.runId < states[j + 1].f.runId
    ensures steps[i] == steps[j] == StartApply ==> states[i + 1].f.applyRunId < states[j + 1].f.applyRunId
    ensures steps[i] == steps[j] == ClaimSlot ==> states[i + 1].slot.runId < states[j + 1].slot.runId
  {
    NumbersDoNotFall(states, steps, i + 1, j);
    assert Follows(states[j], steps[j], states[j + 1]);
  }

  lemma {:induction false} NumbersDoNotFall(states: seq<State>, steps: seq<Step>, i: nat, j: nat)
    requires Run(states, steps) && i <= j < |states|
    ensures states[i].f.runId <= states[j].f.runId && states[i].f.applyRunId <= states[j].f.applyRunId
    ensures states[i].slot.runId <= states[j].slot.runId
    decreases j
  {
    if i < j {
      NumbersDoNotFall(states, steps, i, j - 1);
      assert Follows(states[j - 1], steps[j - 1], states[j]);
    }
  }

  /** Before the shutdown an engine that runs an inspection is not stopped. */
  lemma {:induction false} RunningIsNotStopped(states: seq<State>, steps: seq<Step>, n: nat)
    requires Run(states, steps) && n < |states|
    ensures states[n].f.running && !states[n].f.shuttingDown ==> !states[n].f.stopped
    decreases n
  {
    if n > 0 {
      RunningIsNotStopped(states, steps, n - 1);
      assert Follows(states[n - 1], steps[n - 1], states[n]);
    }
  }

  // ---- Run tokens -------------------------------------------------------------------

  datatype Progress = Active | Done | Superseded

  /** What a waiter for one run token is told. */
  function WaitState(f: Flags, token: nat): Progress {
    if f.lastFinished == token then Done
    else if f.runId == token && f.running then Active
    else Superseded
  }

  function Order(p: Progress): nat {
    match p case Active => 0 case Done => 1 case Superseded => 2
  }

  ghost predicate TokensOk(s: State) {
    && s.f.lastFinished <= s.f.runId
    && (forall t | t in s.issued :: 1 <= t <= s.f.runId)
    && (s.f.running && !s.f.shuttingDown ==> s.f.runId in s.issued && s.f.lastFinished < s.f.runId)
    && (s.f.runId in s.issued ==> s.f.running || s.f.lastFinished == s.f.runId)
    && s.inspectors <= s.issued
    && (s.f.lastFinished == s.f.runId ==> s.f.runId !in s.inspectors && !s.f.running)
    && (s.f.shuttingDown ==> s.f.runId !in s.issued)
  }

  lemma StepKeepsTokens(s: State, step: Step, t: State)
    requires TokensOk(s) && Follows(s, step, t)
    ensures TokensOk(t)
    ensures s.issued <= t.issued
    ensures forall token | token in s.issued :: Order(WaitState(s.f, token)) <= Order(WaitState(t.f, token))
  {
  }

  lemma {:induction false} RunsKeepTokens(states: seq<State>, steps: seq<Step>, n: nat)
    requires Run(states, steps) && n < |states|
    ensures TokensOk(states[n])
    decreases n
  {
    if n > 0 {
      RunsKeepTokens(states, steps, n - 1);
      StepKeepsTokens(states[n - 1], steps[n - 1], states[n]);
    }
  }

  /** For every issued token the answer only moves from running to finished to superseded,
      or straight to superseded, and superseded is final. */
  lemma {:induction false} TokensOnlyAdvance(states: seq<State>, steps: seq<Step>, i: nat, j: nat, token: nat)
    requires Run(states, steps) && i <= j < |states| && token in states[i].issued
    ensures token in states[j].issued
    ensures Order(WaitState(states[i].f, token)) <= Order(WaitState(states[j].f, token))
    ensures WaitState(states[i].f, token) == Superseded ==> WaitState(states[j].f, token) == Superseded
    decreases j
  {
    if i < j {
      TokensOnlyAdvance(states, steps, i, j - 1, token);
      RunsKeepTokens(states, steps, j - 1);
      StepKeepsTokens(states[j - 1], steps[j - 1], states[j]);
    }
  }

  /** A fresh token starts as running, and only the current token can publish: a stale run
      that ends leaves every flag alone. */
  lemma OnlyTheCurrentRunPublishes(states: seq<State>, steps: seq<Step>, n: nat)
    requires Run(states, steps) && n < |steps|
    ensures steps[n] == Start ==> WaitState(states[n + 1].f, states[n + 1].f.runId) == Active
    ensures states[n + 1].f.lastFinished != states[n].f.lastFinished ==> steps[n] == Finish(states[n].f.runId)
    ensures steps[n].Finish? && steps[n].token != states[n].f.runId ==> states[n + 1].f == states[n].f
    ensures steps[n].Finish? && steps[n].token == states[n].f.runId ==>
      WaitState(states[n].f, steps[n].token) == Active && WaitState(states[n + 1].f, steps[n].token) == Done
  {
    RunsKeepTokens(states, steps, n);
    assert Follows(states[n], steps[n], states[n + 1]);
  }

  /** The run was started by step `i`, and neither ended nor was stopped since. */
  ghost predicate RunningSince(states: seq<State>, steps: seq<Step>, i: nat, n: nat, token: nat)
    requires |states| == |steps| + 1 && n <= |steps|
  {
    && i < n && steps[i] == Start && states[i + 1].f.runId == token
    && forall m | i < m < n :: steps[m] != StopEngine && steps[m] != Gate && steps[m] != Finish(token)
  }

  lemma TokenStep(s: State, step: Step, t: State, token: nat)
    requires TokensOk(s) && Follows(s, step, t) && token in t.issued
    ensures WaitState(t.f, token) == Active <==>
      if token in s.issued then
        WaitState(s.f, token) == Active && step != StopEngine && step != Gate && step != Finish(token)
      else step == Start && t.f.runId == token
    ensures step == Start ==> t.f.runId !in s.issued
    ensures token !in s.issued ==> step == Start && t.f.runId == token
  {
  }

  /** The answer for an issued token is that it is running exactly from its start up to its
      own end or the first stop, whatever else ends meanwhile. */
  lemma {:induction false} ActiveTokenIff(states: seq<State>, steps: seq<Step>, n: nat, token: nat)
    requires Run(states, steps) && n < |states| && token in states[n].issued
    ensures WaitState(states[n].f, token) == Active <==> exists i: nat :: RunningSince(states, steps, i, n, token)
    decreases n
  {
    hide Enabled, Next, TokensOk;
    if n > 0 {
      RunsKeepTokens(states, steps, n - 1);
      assert Follows(states[n - 1], steps[n - 1], states[n]);
      TokenStep(states[n - 1], steps[n - 1], states[n], token);
      if token in states[n - 1].issued {
        ActiveTokenIff(states, steps, n - 1, token);
      } else {
        NotIssuedNotRunning(states, steps, n - 1, token);
      }
      forall i: nat
        ensures RunningSince(states, steps, i, n, token) <==>
          if i == n - 1 then steps[i] == Start && states[n].f.runId == token
          else RunningSince(states, steps, i, n - 1, token) && steps[n - 1] != StopEngine && steps[n - 1] != Gate &&
               steps[n - 1] != Finish(token)
      {
      }
    }
  }

  lemma {:induction false} NotIssuedNotRunning(states: seq<State>, steps: seq<Step>, n: nat, token: nat)
    requires Run(states, steps) && n < |states| && token !in states[n].issued
    ensures forall i: nat :: !RunningSince(states, steps, i, n, token)
    decreases n
  {
    if n > 0 {
      assert Follows(states[n - 1], steps[n - 1], states[n]);
      NotIssuedNotRunning(states, steps, n - 1, token);
      forall i: nat ensures !RunningSince(states, steps, i, n, token) {
        assert !RunningSince(states, steps, i, n - 1, token);
      }
    }
  }

  /** Stopping a running inspection supersedes its token at once. */
  lemma StopSupersedes(states: seq<State>, steps: seq<Step>, n: nat)
    requires Run(states, steps) && n < |steps| && states[n].f.running
    requires steps[n] == StopEngine || steps[n] == Gate
    ensures WaitState(states[n + 1].f, states[n].f.runId) == Superseded
  {
    RunsKeepTokens(states, steps, n);
    assert Follows(states[n], steps[n], states[n + 1]);
  }

  // ---- The gate -----------------------------------------------------------------------

  /** After the gate no goroutine is added: each kind of worker only dwindles. */
  lemma {:induction false} GateIsFinal(states: seq<State>, steps: seq<Step>, i: nat, j: nat)
    requires Run(states, steps) && i <= j < |states| && states[i].f.shuttingDown
    ensures states[j].f.shuttingDown
    ensures states[j].inspectors <= states[i].inspectors && states[j].appliers <= states[i].appliers
    ensures states[j].actions <= states[i].actions && states[j].slotWorkers <= states[i].slotWorkers
    decreases j
  {
    if i < j {
      GateIsFinal(states, steps, i, j - 1);
      assert Follows(states[j - 1], steps[j - 1], states[j]);
    }
  }
}
