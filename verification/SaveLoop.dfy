/** The single-writer save loop of the ban store. Any number of callers share one
    pending snapshot; the lock is released only around the file write and while
    waiting, so each caller is a short program of atomic turns. */
module SaveLoop {
  import opened Sums
  import opened Bans

  type Snapshot = seq<BanEntry>

  /** What the save lock protects. */
  datatype Gate = Gate(saveGen: nat, saveWritten: nat, pending: Option<Snapshot>, writing: bool)

  /** What a caller does when it gives the lock up. */
  datatype Turn =
    | Return(ok: bool)
    | Sleep
    | Write(content: Snapshot, gen: nat)
    | Spin  // loops over the lock forever: nothing pending, nobody writing, not written

  /** The head of the outer loop for a caller whose snapshot has generation `gen`. */
  function Head(g: Gate, gen: nat): (Gate, Turn) {
    if g.saveWritten >= gen then (g, Return(true))
    else if g.writing then (g, Sleep)
    else if g.pending.None? then (g, Spin)
    else (g.(pending := None, writing := true), Write(g.pending.value, g.saveGen))
  }

  function Enter(g: Gate, entries: Snapshot): (Gate, Turn) {
    Head(g.(saveGen := g.saveGen + 1, pending := Some(entries)), g.saveGen + 1)
  }

  /** Copying an empty slice yields a nil one, so an empty snapshot is not queued again. */
  function Requeued(content: Snapshot): (p: Option<Snapshot>)
    ensures p.Some? <==> content != []
    ensures p.Some? ==> p.value == content
  {
    if content == [] then None else Some(content)
  }

  /** The write of `content` at `writeGen` is over. */
  function Written(g: Gate, gen: nat, content: Snapshot, writeGen: nat, ok: bool): (Gate, Turn) {
    if ok then
      var h := g.(saveWritten := writeGen);
      if h.pending.Some? then (h.(pending := None), Write(h.pending.value, h.saveGen))
      else Head(h.(writing := false), gen)
    else
      var h := g.(writing := false, pending := if g.pending.None? then Requeued(content) else g.pending);
      if h.saveWritten < gen then (h, Return(false)) else Head(h, gen)
  }

  // ---- The gate as the program keeps it -------------------------------------

  class SaveGate {
    var saveGen: nat
    var saveWritten: nat
    var savePending: Option<Snapshot>
    var saveWriting: bool

    ghost function View(): Gate
      reads this
    {
      Gate(saveGen, saveWritten, savePending, saveWriting)
    }

    constructor ()
      ensures View() == Gate(0, 0, None, false)
    {
      saveGen, saveWritten, savePending, saveWriting := 0, 0, None, false;
    }

    /** One pass of the loop head, up to the point where the lock is given up. */
    method Resume(myGen: nat) returns (turn: Turn)
      modifies this
      ensures (View(), turn) == Head(old(View()), myGen)
    {
      if saveWritten >= myGen {
        return Return(true);
      }
      if saveWriting {
        return Sleep;
      }
      saveWriting := true;
      if savePending.Some? {
        turn := Write(savePending.value, saveGen);
        savePending := None;
      } else {
        saveWriting := false;
        turn := Spin;
      }
    }

    method BeginSave(entries: Snapshot) returns (myGen: nat, turn: Turn)
      modifies this
      ensures myGen == old(saveGen) + 1
      ensures (View(), turn) == Enter(old(View()), entries)
    {
      saveGen := saveGen + 1;
      myGen := saveGen;
      savePending := Some(entries);
      turn := Resume(myGen);
    }

    method CompleteWrite(myGen: nat, current: Snapshot, writeGen: nat, ok: bool) returns (turn: Turn)
      modifies this
      ensures (View(), turn) == Written(old(View()), myGen, current, writeGen, ok)
    {
      if !ok {
        if savePending.None? && current != [] {
          savePending := Some(current);
        }
        saveWriting := false;
        if saveWritten < myGen {
          return Return(false);
        }
        turn := Resume(myGen);
        return;
      }
      saveWritten := writeGen;
      if savePending.Some? {
        turn := Write(savePending.value, saveGen);
        savePending := None;
        return;
      }
      saveWriting := false;
      turn := Resume(myGen);
    }
  }

  // ---- All callers together -------------------------------------------------

  datatype Caller =
    | NotYet
    | Asleep(gen: nat)
    | Awake(gen: nat)
    | Writing(gen: nat, content: Snapshot, writeGen: nat)
    | Done(gen: nat, ok: bool)
    | Spinning(gen: nat)

  /** `live` is the store, `disk` the file; `history[g - 1]` records the snapshot that
      was taken when generation `g` was assigned and `writer` the caller sent to write. */
  datatype State = State(
    gate: Gate,
    writer: Option<nat>,
    callers: seq<Caller>,
    live: Snapshot,
    disk: Snapshot,
    history: seq<Snapshot>)

  datatype Step =
    | Change(next: Snapshot)          // the store changes
    | Begin(c: nat)                   // a caller takes its snapshot
    | Wake(c: nat)                    // a woken caller takes the lock again
    | Finish(c: nat, ok: bool)        // the file write succeeds or fails

  function Placed(gen: nat, turn: Turn): Caller {
    match turn
    case Return(ok) => Done(gen, ok)
    case Sleep => Asleep(gen)
    case Write(content, writeGen) => Writing(gen, content, writeGen)
    case Spin => Spinning(gen)
  }

  function Woken(c: Caller): Caller {
    if c.Asleep? then Awake(c.gen) else c
  }

  function Broadcast(callers: seq<Caller>): seq<Caller> {
    Each(Woken, callers)
  }

  /** A spinning caller never releases the lock again. */
  ghost predicate LockFree(s: State) {
    forall i | 0 <= i < |s.callers| :: !s.callers[i].Spinning?
  }

  ghost predicate Enabled(s: State, step: Step) {
    match step
    case Change(_) => true
    case Begin(c) => LockFree(s) && c < |s.callers| && s.callers[c].NotYet?
    case Wake(c) => LockFree(s) && c < |s.callers| && s.callers[c].Awake?
    case Finish(c, _) => LockFree(s) && c < |s.callers| && s.callers[c].Writing?
  }

  ghost function Next(s: State, step: Step): State
    requires Enabled(s, step)
  {
    match step
    case Change(next) => s.(live := next)
    case Begin(c) =>
      var (g, turn) := Enter(s.gate, s.live);
      s.(gate := g, callers := s.callers[c := Placed(g.saveGen, turn)], history := s.history + [s.live],
         writer := if turn.Write? then Some(c) else s.writer)
    case Wake(c) =>
      var gen := s.callers[c].gen;
      var (g, turn) := Head(s.gate, gen);
      s.(gate := g, callers := s.callers[c := Placed(gen, turn)],
         writer := if turn.Write? then Some(c) else s.writer)
    case Finish(c, ok) =>
      var me := s.callers[c];
      var (g, turn) := Written(s.gate, me.gen, me.content, me.writeGen, ok);
      var callers := if g.writing then s.callers else Broadcast(s.callers);
      s.(gate := g, callers := callers[c := Placed(me.gen, turn)], disk := if ok then me.content else s.disk,
         writer := if turn.Write? then Some(c) else None)
  }

  ghost predicate Initial(s: State) {
    && s.gate == Gate(0, 0, None, false)
    && s.writer == None
    && s.history == []
    && forall i | 0 <= i < |s.callers| :: s.callers[i].NotYet?
  }

  ghost predicate CallerOk(g: Gate, history: seq<Snapshot>, c: Caller) {
    match c
    case NotYet => true
    case Asleep(gen) => 1 <= gen <= g.saveGen && g.writing
    case Awake(gen) => 1 <= gen <= g.saveGen
    case Writing(gen, content, writeGen) =>
      && 1 <= gen <= writeGen <= g.saveGen
      && g.saveWritten < writeGen <= |history|
      && content == history[writeGen - 1]
      && (g.pending.None? <==> writeGen == g.saveGen)
    case Done(gen, ok) => 1 <= gen <= g.saveGen && (ok ==> g.saveWritten >= gen)
    case Spinning(gen) => 1 <= gen <= g.saveGen
  }

  /** The pending snapshot belongs to the newest generation; the file holds the
      snapshot of the generation recorded as written. */
  ghost predicate GateOk(g: Gate, history: seq<Snapshot>, disk: Snapshot) {
    && |history| == g.saveGen
    && g.saveWritten <= g.saveGen
    && (g.pending.Some? ==> g.saveWritten < g.saveGen && g.pending.value == history[g.saveGen - 1])
    && (g.saveWritten > 0 ==> disk == history[g.saveWritten - 1])
  }

  ghost predicate OneWriter(s: State) {
    && (s.gate.writing <==> s.writer.Some?)
    && (s.writer.Some? ==> s.writer.value < |s.callers|)
    && forall i | 0 <= i < |s.callers| :: s.callers[i].Writing? <==> s.writer == Some(i)
  }

  ghost predicate Inv(s: State) {
    && GateOk(s.gate, s.history, s.disk)
    && OneWriter(s)
    && forall i | 0 <= i < |s.callers| :: CallerOk(s.gate, s.history, s.callers[i])
  }

  lemma StepKeepsInv(s: State, step: Step)
    requires Inv(s) && Enabled(s, step)
    ensures Inv(Next(s, step))
    ensures Next(s, step).gate.saveWritten >= s.gate.saveWritten
    ensures s.history <= Next(s, step).history
  {
    match step
    case Change(_) =>
    case Begin(c) => BeginKeepsInv(s, c);
    case Wake(c) => WakeKeepsInv(s, c);
    case Finish(c, ok) => FinishKeepsInv(s, c, ok);
  }

  lemma BeginKeepsInv(s: State, c: nat)
    requires Inv(s) && Enabled(s, Begin(c))
    ensures Inv(Next(s, Begin(c)))
    ensures s.history <= Next(s, Begin(c)).history
  {
    var t := Next(s, Begin(c));
    assert t.gate.saveGen == s.gate.saveGen + 1 && t.history[s.gate.saveGen] == s.live;
    forall i | 0 <= i < |t.callers| ensures CallerOk(t.gate, t.history, t.callers[i]) {
      assert CallerOk(s.gate, s.history, s.callers[i]);
    }
  }

  lemma WakeKeepsInv(s: State, c: nat)
    requires Inv(s) && Enabled(s, Wake(c))
    ensures Inv(Next(s, Wake(c)))
  {
    var t := Next(s, Wake(c));
    forall i | 0 <= i < |t.callers| ensures CallerOk(t.gate, t.history, t.callers[i]) {
      assert CallerOk(s.gate, s.history, s.callers[i]);
    }
  }

  lemma FinishKeepsInv(s: State, c: nat, ok: bool)
    requires Inv(s) && Enabled(s, Finish(c, ok))
    ensures Inv(Next(s, Finish(c, ok)))
    ensures Next(s, Finish(c, ok)).gate.saveWritten >= s.gate.saveWritten
  {
    var t := Next(s, Finish(c, ok));
    assert CallerOk(s.gate, s.history, s.callers[c]);
    forall i | 0 <= i < |t.callers| ensures CallerOk(t.gate, t.history, t.callers[i]) {
      assert CallerOk(s.gate, s.history, s.callers[i]);
    }
  }

  ghost predicate Run(states: seq<State>, steps: seq<Step>) {
    && |states| == |steps| + 1
    && Initial(states[0])
    && forall i | 0 <= i < |steps| :: Follows(states[i], steps[i], states[i + 1])
  }

  ghost predicate Follows(s: State, step: Step, t: State) {
    Enabled(s, step) && t == Next(s, step)
  }

  lemma {:induction false} RunsKeepInv(states: seq<State>, steps: seq<Step>, n: nat)
    requires Run(states, steps) && n < |states|
    ensures Inv(states[n])
  {
    if n > 0 {
      RunsKeepInv(states, steps, n - 1);
      assert Follows(states[n - 1], steps[n - 1], states[n]);
      StepKeepsInv(states[n - 1], steps[n - 1]);
    }
  }

  lemma {:induction false} WrittenNeverDecreases(states: seq<State>, steps: seq<Step>, i: nat, j: nat)
    requires Run(states, steps) && i <= j < |states|
    ensures states[i].gate.saveWritten <= states[j].gate.saveWritten
    ensures states[i].history <= states[j].history
  {
    if i < j {
      RunsKeepInv(states, steps, j - 1);
      assert Follows(states[j - 1], steps[j - 1], states[j]);
      StepKeepsInv(states[j - 1], steps[j - 1]);
      WrittenNeverDecreases(states, steps, i, j - 1);
    }
  }

  // ---- What a nil return means ----------------------------------------------

  /** A caller keeps the generation it was given when it began. */
  lemma {:induction false} GenerationIsKept(states: seq<State>, steps: seq<Step>, i: nat, n: nat, c: nat)
    requires Run(states, steps) && i < n < |states|
    requires steps[i] == Begin(c)
    ensures c < |states[n].callers| && !states[n].callers[c].NotYet?
    ensures states[n].callers[c].gen == states[i].gate.saveGen + 1
  {
    assert Follows(states[n - 1], steps[n - 1], states[n]);
    if i < n - 1 {
      GenerationIsKept(states, steps, i, n - 1, c);
    }
  }

  /** Each recorded snapshot is the store at the step that assigned its generation. */
  lemma {:induction false} HistoryIsLive(states: seq<State>, steps: seq<Step>, n: nat, g: nat) returns (m: nat)
    requires Run(states, steps) && n < |states|
    requires 1 <= g <= |states[n].history|
    ensures m < n && steps[m].Begin? && |states[m].history| == g - 1
    ensures states[n].history[g - 1] == states[m].live
  {
    if n == 0 {
      assert false;
    } else {
      assert Follows(states[n - 1], steps[n - 1], states[n]);
      if g <= |states[n - 1].history| {
        m := HistoryIsLive(states, steps, n - 1, g);
      } else {
        m := n - 1;
      }
    }
  }

  /** When a call that began at step `i` has returned nil, the file holds the store as it
      was at some step `m` at or after `i`, whatever failed and was queued again between. */
  lemma NilMeansOnDisk(states: seq<State>, steps: seq<Step>, i: nat, n: nat, c: nat) returns (m: nat)
    requires Run(states, steps) && i < n < |states|
    requires steps[i] == Begin(c)
    requires c < |states[n].callers| && states[n].callers[c].Done? && states[n].callers[c].ok
    ensures i <= m < n && states[n].disk == states[m].live
  {
    GenerationIsKept(states, steps, i, n, c);
    RunsKeepInv(states, steps, n);
    RunsKeepInv(states, steps, i);
    assert CallerOk(states[n].gate, states[n].history, states[n].callers[c]);
    m := HistoryIsLive(states, steps, n, states[n].gate.saveWritten);
    if m < i {
      assert Follows(states[m], steps[m], states[m + 1]);
      WrittenNeverDecreases(states, steps, m + 1, i);
    }
  }

  /** An attempt that fails retires its caller, and so does one that leaves nothing pending. */
  lemma AttemptsRetire(s: State, c: nat, ok: bool)
    requires Inv(s) && Enabled(s, Finish(c, ok))
    requires !ok || s.gate.pending.None?
    ensures Next(s, Finish(c, ok)).callers[c] == Done(s.callers[c].gen, ok || s.gate.saveWritten >= s.callers[c].gen)
  {
    assert CallerOk(s.gate, s.history, s.callers[c]);
  }

  // ---- Progress ---------------------------------------------------------------

  /** Work is never forgotten: an unwritten generation is pending or being written. */
  ghost predicate Remembered(s: State) {
    LockFree(s) && (s.gate.saveWritten < s.gate.saveGen ==> s.gate.pending.Some? || s.gate.writing)
  }

  /** The step queues a failed write again and finds it empty. */
  ghost predicate DropsEmpty(s: State, step: Step) {
    && step.Finish? && !step.ok && s.gate.pending.None?
    && step.c < |s.callers| && s.callers[step.c].Writing? && s.callers[step.c].content == []
  }

  lemma StepKeepsRemembered(s: State, step: Step)
    requires Inv(s) && Remembered(s) && Enabled(s, step) && !DropsEmpty(s, step)
    ensures Remembered(Next(s, step))
  {
    if !step.Change? {
      assert CallerOk(s.gate, s.history, s.callers[step.c]);
    }
  }

  lemma {:induction false} RunsKeepRemembered(states: seq<State>, steps: seq<Step>, n: nat)
    requires Run(states, steps) && n < |states|
    requires forall i | 0 <= i < n :: !DropsEmpty(states[i], steps[i])
    ensures Remembered(states[n])
  {
    if n > 0 {
      hide Inv, Remembered, DropsEmpty, Enabled, Next;
      assert Follows(states[n - 1], steps[n - 1], states[n]);
      RunsKeepRemembered(states, steps, n - 1);
      RunsKeepInv(states, steps, n - 1);
      StepKeepsRemembered(states[n - 1], steps[n - 1]);
    }
  }

  /** Nobody is left behind: while a call is unfinished, some caller can move. */
  lemma SomeoneCanMove(s: State, c: nat)
    requires Inv(s) && Remembered(s)
    requires c < |s.callers| && !s.callers[c].Done?
    ensures exists step: Step :: !step.Change? && Enabled(s, step)
  {
    assert CallerOk(s.gate, s.history, s.callers[c]);
    match s.callers[c]
    case NotYet => assert Enabled(s, Begin(c));
    case Awake(_) => assert Enabled(s, Wake(c));
    case Writing(_, _, _) => assert Enabled(s, Finish(c, true));
    case Asleep(_) => assert Enabled(s, Finish(s.writer.value, true));
  }

  /** Work left for one caller among `k`. */
  function Weight(c: Caller, k: nat): nat {
    match c
    case NotYet => k + 4
    case Awake(_) => k + 3
    case Asleep(_) => k + 2
    case Writing(_, _, _) => k + 2
    case Done(_, _) => 0
    case Spinning(_) => 0
  }

  function Weights(callers: seq<Caller>, k: nat): (ws: seq<nat>)
    ensures |ws| == |callers| && forall i | 0 <= i < |callers| :: ws[i] == Weight(callers[i], k)
  {
    Each((c: Caller) => Weight(c, k), callers)
  }

  function Total(callers: seq<Caller>, k: nat): nat {
    Sum(Weights(callers, k))
  }

  ghost function Rank(s: State): nat {
    Total(s.callers, |s.callers|) + if s.gate.pending.Some? then 1 else 0
  }

  lemma TotalOfUpdate(callers: seq<Caller>, c: nat, x: Caller, k: nat)
    requires c < |callers|
    ensures Total(callers[c := x], k) + Weight(callers[c], k) == Total(callers, k) + Weight(x, k)
  {
    hide Weight, Sum;
    SumOfUpdate(Weights(callers, k), c, Weight(x, k));
    assert Weights(callers[c := x], k) == Weights(callers, k)[c := Weight(x, k)];
  }

  lemma TotalOfWaking(callers: seq<Caller>, c: nat, x: Caller, k: nat)
    requires c < |callers| && !callers[c].Asleep?
    ensures Total(Broadcast(callers)[c := x], k) + Weight(callers[c], k) <= Total(callers, k) + |callers| + Weight(x, k)
  {
    hide Sum;
    TotalOfUpdate(Broadcast(callers), c, x, k);
    SumOfRaised(Weights(callers, k), Weights(Broadcast(callers), k));
  }

  lemma InitialTotal(callers: seq<Caller>, k: nat)
    requires forall i | 0 <= i < |callers| :: callers[i].NotYet?
    ensures Total(callers, k) == |callers| * (k + 4)
  {
    SumOfEqual(Weights(callers, k), k + 4);
  }

  lemma BeginUsesWork(s: State, c: nat)
    requires Inv(s) && Remembered(s) && Enabled(s, Begin(c))
    ensures Rank(Next(s, Begin(c))) < Rank(s)
  {
    hide Total;
    TotalOfUpdate(s.callers, c, Next(s, Begin(c)).callers[c], |s.callers|);
  }

  lemma WakeUsesWork(s: State, c: nat)
    requires Inv(s) && Remembered(s) && Enabled(s, Wake(c))
    ensures Rank(Next(s, Wake(c))) < Rank(s)
  {
    assert CallerOk(s.gate, s.history, s.callers[c]);
    hide Total;
    TotalOfUpdate(s.callers, c, Next(s, Wake(c)).callers[c], |s.callers|);
  }

  /** A writer goes on with what is pending after a success; else it returns and wakes all. */
  lemma FinishOutcome(s: State, c: nat, ok: bool)
    requires Inv(s) && Enabled(s, Finish(c, ok))
    ensures var t := Next(s, Finish(c, ok));
      && |t.callers| == |s.callers|
      && (ok && s.gate.pending.Some? ==>
            t.callers[c].Writing? && t.callers == s.callers[c := t.callers[c]] && t.gate.pending.None?)
      && (!(ok && s.gate.pending.Some?) ==>
            t.callers[c].Done? && t.callers == Broadcast(s.callers)[c := t.callers[c]])
  {
    assert CallerOk(s.gate, s.history, s.callers[c]);
    hide Inv, Broadcast;
  }

  lemma FinishUsesWork(s: State, c: nat, ok: bool)
    requires Inv(s) && Enabled(s, Finish(c, ok))
    ensures Rank(Next(s, Finish(c, ok))) < Rank(s)
  {
    FinishOutcome(s, c, ok);
    var k, x := |s.callers|, Next(s, Finish(c, ok)).callers[c];
    hide Inv, Next, Total, Broadcast;
    if ok && s.gate.pending.Some? {
      TotalOfUpdate(s.callers, c, x, k);
    } else {
      TotalOfWaking(s.callers, c, x, k);
    }
  }

  /** Every move of a caller uses up work. */
  lemma MovesUseWork(s: State, step: Step)
    requires Inv(s) && Remembered(s) && Enabled(s, step) && !step.Change?
    ensures Rank(Next(s, step)) < Rank(s)
  {
    match step
    case Begin(c) => BeginUsesWork(s, c);
    case Wake(c) => WakeUsesWork(s, c);
    case Finish(c, ok) => FinishUsesWork(s, c, ok);
  }

  function Moves(steps: seq<Step>): nat {
    if steps == [] then 0
    else Moves(steps[..|steps| - 1]) + if steps[|steps| - 1].Change? then 0 else 1
  }

  lemma SameCallers(s: State, step: Step)
    requires Enabled(s, step)
    ensures |Next(s, step).callers| == |s.callers|
    ensures step.Change? ==> Rank(Next(s, step)) == Rank(s)
  {
    hide Head, Enter, Written, Total;
  }

  lemma {:induction false} MovesAreBounded(states: seq<State>, steps: seq<Step>, n: nat)
    requires Run(states, steps) && n < |states|
    requires forall i | 0 <= i < n :: !DropsEmpty(states[i], steps[i])
    ensures |states[n].callers| == |states[0].callers|
    ensures Moves(steps[..n]) + Rank(states[n]) <= Rank(states[0])
  {
    hide Inv, Remembered, DropsEmpty, Enabled, Next, Rank;
    if n > 0 {
      assert Follows(states[n - 1], steps[n - 1], states[n]);
      MovesAreBounded(states, steps, n - 1);
      RunsKeepInv(states, steps, n - 1);
      RunsKeepRemembered(states, steps, n - 1);
      SameCallers(states[n - 1], steps[n - 1]);
      assert steps[..n][..n - 1] == steps[..n - 1];
      if !steps[n - 1].Change? {
        MovesUseWork(states[n - 1], steps[n - 1]);
      }
    }
  }

  /** With `k` callers a run has at most k * (k + 4) moves, however writes fail; when no
      caller can move any more, all have returned. Needs no failed empty re-queue. */
  lemma AllCallersReturn(states: seq<State>, steps: seq<Step>)
    requires Run(states, steps)
    requires forall i | 0 <= i < |steps| :: !DropsEmpty(states[i], steps[i])
    ensures Moves(steps) <= |states[0].callers| * (|states[0].callers| + 4)
    ensures (forall step: Step :: Enabled(states[|steps|], step) ==> step.Change?) ==>
      forall c | 0 <= c < |states[|steps|].callers| :: states[|steps|].callers[c].Done?
  {
    var n := |steps|;
    RunsKeepInv(states, steps, n);
    RunsKeepRemembered(states, steps, n);
    forall c | 0 <= c < |states[n].callers| && !states[n].callers[c].Done?
      ensures exists step: Step :: !step.Change? && Enabled(states[n], step)
    {
      SomeoneCanMove(states[n], c);
    }
    InitialTotal(states[0].callers, |states[0].callers|);
    MovesAreBounded(states, steps, n);
    assert steps[..n] == steps;
  }

  /** The guard that decides: after a failed write with nothing newer pending, a caller
      still waiting for that generation, asleep or awake, takes over, unless the snapshot was empty; then
      it spins over the lock and nobody moves again. */
  lemma WaiterSpinsIffEmpty(s: State, c: nat, d: nat)
    requires Inv(s) && LockFree(s) && Enabled(s, Finish(c, false)) && s.gate.pending.None?
    requires d < |s.callers| && (s.callers[d].Asleep? || s.callers[d].Awake?) && s.callers[d].gen > s.gate.saveWritten
    ensures var t := Next(s, Finish(c, false));
      && Enabled(t, Wake(d))
      && (Next(t, Wake(d)).callers[d].Spinning? <==> s.callers[c].content == [])
      && (s.callers[c].content != [] ==> Next(t, Wake(d)).callers[d].Writing?)
  {
    assert CallerOk(s.gate, s.history, s.callers[c]);
    assert CallerOk(s.gate, s.history, s.callers[d]);
  }

  lemma Extended(states: seq<State>, steps: seq<Step>, step: Step) returns (ss: seq<State>, qs: seq<Step>)
    requires Run(states, steps) && Enabled(states[|steps|], step)
    ensures Run(ss, qs) && ss[|qs|] == Next(states[|steps|], step)
  {
    ss, qs := states + [Next(states[|steps|], step)], steps + [step];
    assert Follows(states[|steps|], step, ss[|qs|]);
    hide Follows, Enabled, Next;
    forall i | 0 <= i < |qs| ensures Follows(ss[i], qs[i], ss[i + 1]) {
      if i < |steps| {
        assert Follows(states[i], steps[i], states[i + 1]);
      }
    }
  }

  /** Two callers on an empty pool: the second snapshot fails after the first was
      written, and the second caller never returns. */
  lemma EmptyPoolCanHang(disk: Snapshot) returns (states: seq<State>, steps: seq<Step>)
    ensures Run(states, steps) && Spinning(2) in states[|steps|].callers
    ensures forall step: Step :: Enabled(states[|steps|], step) ==> step.Change?
  {
    states, steps := [State(Gate(0, 0, None, false), None, [NotYet, NotYet], [], disk, [])], [];
    states, steps := Extended(states, steps, Begin(0));
    assert states[|steps|].callers == [Writing(1, [], 1), NotYet];
    states, steps := Extended(states, steps, Begin(1));
    assert states[|steps|].callers == [Writing(1, [], 1), Asleep(2)];
    states, steps := Extended(states, steps, Finish(0, true));
    assert states[|steps|].callers == [Writing(1, [], 2), Asleep(2)];
    states, steps := Extended(states, steps, Finish(0, false));
    assert states[|steps|].callers == [Done(1, true), Awake(2)];
    states, steps := Extended(states, steps, Wake(1));
    assert states[|steps|].callers[1] == Spinning(2);
  }
}
