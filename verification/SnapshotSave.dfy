/** Coalescing writes of the inspection snapshot. Snapshots carry the sequence number
    assigned when they were copied, callers may arrive in any order, and the last
    reported outcome is kept per sequence number. */
module SnapshotSave {
  import opened Sums
  import opened Bans

  /** The inspection snapshot with its sequence number. */
  datatype Snap = Snap(seqNo: nat, payload: string)

  /** What the store's I/O lock protects. */
  datatype Gate = Gate(saveGen: nat, writtenGen: nat, pending: Option<Snap>, writing: bool)

  datatype Turn =
    | Return(ok: bool)
    | Stale                  // discarded on entry: a newer snapshot was already taken in
    | Sleep
    | Write(content: Snap)
    | Spin

  function Head(g: Gate, gen: nat): (Gate, Turn) {
    if g.writtenGen >= gen then (g, Return(true))
    else if g.writing then (g, Sleep)
    else if g.pending.None? then (g, Spin)
    else (g.(pending := None, writing := true), Write(g.pending.value))
  }

  /** The number a call is given: its own, or the next one for callers without any. */
  function SeqFor(g: Gate, snap: Snap): nat {
    if snap.seqNo == 0 then g.saveGen + 1 else snap.seqNo
  }

  function Enter(g: Gate, snap: Snap): (Gate, Turn) {
    if snap.seqNo != 0 && snap.seqNo < g.saveGen then (g, Stale)
    else
      var gen := SeqFor(g, snap);
      var h := g.(saveGen := gen);
      if h.pending.Some? && h.pending.value.seqNo > gen then
        // The caller waits until its number is written or nothing newer is pending.
        if h.writtenGen < gen && (h.writing || h.pending.Some?) then (h, Sleep) else (h, Return(true))
      else Head(h.(pending := Some(snap.(seqNo := gen))), gen)
  }

  function Written(g: Gate, gen: nat, content: Snap, ok: bool): (Gate, Turn) {
    var writeGen := if content.seqNo == 0 then g.saveGen else content.seqNo;
    if ok then
      var h := g.(writtenGen := if writeGen > g.writtenGen then writeGen else g.writtenGen);
      if h.pending.Some? then (h.(pending := None), Write(h.pending.value))
      else Head(h.(writing := false), gen)
    else
      var h := g.(writing := false, pending := if g.pending.None? then Some(content) else g.pending);
      if h.writtenGen < gen then (h, Return(false)) else Head(h, gen)
  }

  class SnapshotGate {
    var storeSaveGen: nat
    var storeWrittenGen: nat
    var storePending: Option<Snap>
    var storeWriting: bool

    ghost function View(): Gate
      reads this
    {
      Gate(storeSaveGen, storeWrittenGen, storePending, storeWriting)
    }

    constructor ()
      ensures View() == Gate(0, 0, None, false)
    {
      storeSaveGen, storeWrittenGen, storePending, storeWriting := 0, 0, None, false;
    }

    method Resume(myGen: nat) returns (turn: Turn)
      modifies this
      ensures (View(), turn) == Head(old(View()), myGen)
    {
      if storeWrittenGen >= myGen {
        return Return(true);
      }
      if storeWriting {
        return Sleep;
      }
      if storePending.None? {
        return Spin;
      }
      storeWriting := true;
      turn := Write(storePending.value);
      storePending := None;
    }

    method BeginSave(snap: Snap) returns (myGen: nat, turn: Turn)
      modifies this
      ensures (View(), turn) == Enter(old(View()), snap)
      ensures !turn.Stale? ==> myGen == SeqFor(old(View()), snap)
    {
      myGen := snap.seqNo;
      if myGen == 0 {
        storeSaveGen := storeSaveGen + 1;
        myGen := storeSaveGen;
      } else if myGen < storeSaveGen {
        return myGen, Stale;
      } else {
        storeSaveGen := myGen;
      }
      if storePending.Some? && storePending.value.seqNo > myGen {
        turn := if storeWrittenGen < myGen then Sleep else Return(true);
        return;
      }
      storePending := Some(snap.(seqNo := myGen));
      turn := Resume(myGen);
    }

    method CompleteWrite(myGen: nat, current: Snap, ok: bool) returns (turn: Turn)
      modifies this
      ensures (View(), turn) == Written(old(View()), myGen, current, ok)
    {
      if !ok {
        if storePending.None? {
          storePending := Some(current);
        }
        storeWriting := false;
        if storeWrittenGen < myGen {
          return Return(false);
        }
        turn := Resume(myGen);
        return;
      }
      var writeGen := if current.seqNo == 0 then storeSaveGen else current.seqNo;
      if writeGen > storeWrittenGen {
        storeWrittenGen := writeGen;
      }
      if storePending.Some? {
        turn := Write(storePending.value);
        storePending := None;
        return;
      }
      storeWriting := false;
      turn := Resume(myGen);
    }
  }

  // ---- All callers together -------------------------------------------------

  datatype Caller =
    | NotYet(snap: Snap)
    | Asleep(gen: nat)
    | Awake(gen: nat)
    | Writing(gen: nat, content: Snap)
    | Done(gen: nat, ok: bool)
    | Discarded
    | Spinning(gen: nat)

  datatype State = State(gate: Gate, writer: Option<nat>, callers: seq<Caller>, disk: Option<Snap>)

  datatype Step = Begin(c: nat) | Wake(c: nat) | Finish(c: nat, ok: bool)

  function Placed(gen: nat, turn: Turn): Caller {
    match turn
    case Return(ok) => Done(gen, ok)
    case Stale => Discarded
    case Sleep => Asleep(gen)
    case Write(content) => Writing(gen, content)
    case Spin => Spinning(gen)
  }

  function Woken(c: Caller): Caller {
    if c.Asleep? then Awake(c.gen) else c
  }

  function Broadcast(callers: seq<Caller>): seq<Caller> {
    Each(Woken, callers)
  }

  ghost predicate LockFree(s: State) {
    forall i | 0 <= i < |s.callers| :: !s.callers[i].Spinning?
  }

  ghost predicate Enabled(s: State, step: Step) {
    && LockFree(s) && step.c < |s.callers|
    && match step
       case Begin(c) => s.callers[c].NotYet?
       case Wake(c) => s.callers[c].Awake?
       case Finish(c, _) => s.callers[c].Writing?
  }

  ghost function Next(s: State, step: Step): State
    requires Enabled(s, step)
  {
    match step
    case Begin(c) =>
      var snap := s.callers[c].snap;
      var (g, turn) := Enter(s.gate, snap);
      s.(gate := g, callers := s.callers[c := Placed(SeqFor(s.gate, snap), turn)],
         writer := if turn.Write? then Some(c) else s.writer)
    case Wake(c) =>
      var gen := s.callers[c].gen;
      var (g, turn) := Head(s.gate, gen);
      s.(gate := g, callers := s.callers[c := Placed(gen, turn)],
         writer := if turn.Write? then Some(c) else s.writer)
    case Finish(c, ok) =>
      var me := s.callers[c];
      var (g, turn) := Written(s.gate, me.gen, me.content, ok);
      var callers := if g.writing then s.callers else Broadcast(s.callers);
      s.(gate := g, callers := callers[c := Placed(me.gen, turn)],
         disk := if ok then Some(me.content) else s.disk,
         writer := if turn.Write? then Some(c) else None)
  }

  ghost predicate Initial(s: State) {
    && s.gate == Gate(0, 0, None, false)
    && s.writer == None && s.disk == None
    && forall i | 0 <= i < |s.callers| :: s.callers[i].NotYet?
  }

  ghost predicate CallerOk(g: Gate, c: Caller) {
    match c
    case NotYet(_) => true
    case Asleep(gen) => 1 <= gen <= g.saveGen && g.writing
    case Awake(gen) => 1 <= gen <= g.saveGen
    case Writing(gen, content) =>
      && 1 <= gen <= content.seqNo <= g.saveGen
      && g.writtenGen <= content.seqNo
      && (g.pending.None? ==> content.seqNo == g.saveGen)
      && (g.pending.Some? ==> g.pending.value.seqNo >= content.seqNo)
    case Done(gen, ok) => 1 <= gen <= g.saveGen && (ok ==> g.writtenGen >= gen)
    case Discarded => true
    case Spinning(_) => false
  }

  ghost predicate GateOk(g: Gate) {
    && g.writtenGen <= g.saveGen
    && (g.pending.Some? ==> 1 <= g.pending.value.seqNo == g.saveGen)
    && (g.writtenGen < g.saveGen ==> g.pending.Some? || g.writing)
  }

  ghost predicate OneWriter(s: State) {
    && (s.gate.writing <==> s.writer.Some?)
    && (s.writer.Some? ==> s.writer.value < |s.callers|)
    && forall i | 0 <= i < |s.callers| :: s.callers[i].Writing? <==> s.writer == Some(i)
  }

  ghost predicate Inv(s: State) {
    && GateOk(s.gate)
    && OneWriter(s)
    && (s.gate.writtenGen == if s.disk.None? then 0 else s.disk.value.seqNo)
    && forall i | 0 <= i < |s.callers| :: CallerOk(s.gate, s.callers[i])
  }

  function DiskSeq(s: State): nat {
    if s.disk.None? then 0 else s.disk.value.seqNo
  }

  lemma StepKeepsInv(s: State, step: Step)
    requires Inv(s) && Enabled(s, step)
    ensures Inv(Next(s, step))
    ensures DiskSeq(s) <= DiskSeq(Next(s, step))
  {
    match step
    case Begin(c) => BeginKeepsInv(s, c);
    case Wake(c) => WakeKeepsInv(s, c);
    case Finish(c, ok) => FinishKeepsInv(s, c, ok);
  }

  lemma BeginKeepsInv(s: State, c: nat)
    requires Inv(s) && Enabled(s, Begin(c))
    ensures Inv(Next(s, Begin(c))) && Next(s, Begin(c)).disk == s.disk
  {
    var t := Next(s, Begin(c));
    forall i | 0 <= i < |t.callers| ensures CallerOk(t.gate, t.callers[i]) {
      assert CallerOk(s.gate, s.callers[i]);
    }
  }

  lemma WakeKeepsInv(s: State, c: nat)
    requires Inv(s) && Enabled(s, Wake(c))
    ensures Inv(Next(s, Wake(c))) && Next(s, Wake(c)).disk == s.disk
  {
    var t := Next(s, Wake(c));
    assert CallerOk(s.gate, s.callers[c]);
    forall i | 0 <= i < |t.callers| ensures CallerOk(t.gate, t.callers[i]) {
      assert CallerOk(s.gate, s.callers[i]);
    }
  }

  lemma FinishKeepsInv(s: State, c: nat, ok: bool)
    requires Inv(s) && Enabled(s, Finish(c, ok))
    ensures Inv(Next(s, Finish(c, ok))) && DiskSeq(s) <= DiskSeq(Next(s, Finish(c, ok)))
  {
    var t := Next(s, Finish(c, ok));
    assert CallerOk(s.gate, s.callers[c]);
    forall i | 0 <= i < |t.callers| ensures CallerOk(t.gate, t.callers[i]) {
      assert CallerOk(s.gate, s.callers[i]);
    }
  }

  ghost predicate Run(states: seq<State>, steps: seq<Step>) {
    && |states| == |steps| + 1
    && Initial(states[0])
    && forall i | 0 <= i < |steps| :: Enabled(states[i], steps[i]) && states[i + 1] == Next(states[i], steps[i])
  }

  /** In every schedule the sequence number on disk never falls. */
  lemma {:induction false} DiskNeverGoesBack(states: seq<State>, steps: seq<Step>, i: nat, n: nat)
    requires Run(states, steps) && i <= n < |states|
    ensures Inv(states[n])
    ensures DiskSeq(states[i]) <= DiskSeq(states[n])
  {
    if n > 0 {
      DiskNeverGoesBack(states, steps, if i < n then i else 0, n - 1);
      StepKeepsInv(states[n - 1], steps[n - 1]);
      assert states[n] == Next(states[n - 1], steps[n - 1]);
    }
  }

  /** A call that was not discarded and returned nil has its number, or a newer one, on
      disk; a call is discarded exactly when a newer number had been taken in. */
  lemma NilMeansWritten(states: seq<State>, steps: seq<Step>, n: nat, c: nat)
    requires Run(states, steps) && n < |states| && c < |states[n].callers|
    ensures states[n].callers[c].Done? && states[n].callers[c].ok ==>
      states[n].gate.writtenGen == DiskSeq(states[n]) >= states[n].callers[c].gen
    ensures n < |steps| && steps[n] == Begin(c) ==>
      (states[n + 1].callers[c].Discarded? <==> 0 < states[n].callers[c].snap.seqNo < states[n].gate.saveGen)
  {
    DiskNeverGoesBack(states, steps, n, n);
    assert CallerOk(states[n].gate, states[n].callers[c]);
    if n < |steps| && steps[n] == Begin(c) {
      assert Enabled(states[n], steps[n]) && states[n + 1] == Next(states[n], steps[n]);
    }
  }

  /** The branch for an entrant older than the pending snapshot is never taken: on entry
      nothing pending is newer than an accepted number, and nobody spins. */
  lemma OlderEntrantsDoNotWait(states: seq<State>, steps: seq<Step>, n: nat, snap: Snap)
    requires Run(states, steps) && n < |states|
    requires snap.seqNo == 0 || snap.seqNo >= states[n].gate.saveGen
    ensures states[n].gate.pending.Some? ==> states[n].gate.pending.value.seqNo <= SeqFor(states[n].gate, snap)
    ensures LockFree(states[n])
  {
    DiskNeverGoesBack(states, steps, n, n);
    forall i | 0 <= i < |states[n].callers| ensures !states[n].callers[i].Spinning? {
      assert CallerOk(states[n].gate, states[n].callers[i]);
    }
  }

  // ---- What is written ------------------------------------------------------------

  /** Step `k` takes in the snapshot that caller `d` came with, under the number `x` carries:
      the snapshot's own, or a new one for a snapshot without. */
  ghost predicate Brings(states: seq<State>, steps: seq<Step>, k: nat, d: nat, x: Snap)
    requires |states| == |steps| + 1
  {
    && k < |steps| && steps[k] == Begin(d) && d < |states[0].callers| && states[0].callers[d].NotYet?
    && x.payload == states[0].callers[d].snap.payload
    && x.seqNo == states[k + 1].gate.saveGen
    && (if states[0].callers[d].snap.seqNo == 0 then x.seqNo > states[k].gate.saveGen
        else x.seqNo == states[0].callers[d].snap.seqNo)
  }

  ghost predicate BroughtBefore(states: seq<State>, steps: seq<Step>, n: nat, x: Snap)
    requires |states| == |steps| + 1
  {
    exists k: nat, d: nat :: k < n && Brings(states, steps, k, d, x)
  }

  /** A caller has its snapshot in hand until it begins. */
  lemma {:induction false} StillInHand(states: seq<State>, steps: seq<Step>, n: nat, c: nat)
    requires Run(states, steps) && n < |states|
    ensures |states[n].callers| == |states[0].callers|
    ensures c < |states[n].callers| && states[n].callers[c].NotYet? ==> states[0].callers[c] == states[n].callers[c]
  {
    if n > 0 {
      StillInHand(states, steps, n - 1, c);
      assert states[n] == Next(states[n - 1], steps[n - 1]);
    }
  }

  /** What is pending, in a writer's hands or on disk. */
  ghost predicate Around(s: State, x: Snap) {
    || s.gate.pending == Some(x)
    || s.disk == Some(x)
    || exists i :: 0 <= i < |s.callers| && s.callers[i].Writing? && s.callers[i].content == x
  }

  /** A step adds nothing but the snapshot of the caller that begins, under its number. */
  lemma NothingElseAppears(s: State, step: Step, x: Snap)
    requires Inv(s) && Enabled(s, step) && Around(Next(s, step), x) && !Around(s, x)
    ensures step.Begin? && s.callers[step.c].NotYet?
    ensures var snap := s.callers[step.c].snap;
      && x.payload == snap.payload && x.seqNo == Next(s, step).gate.saveGen
      && (if snap.seqNo == 0 then x.seqNo > s.gate.saveGen else x.seqNo == snap.seqNo)
  {
    assert CallerOk(s.gate, s.callers[step.c]);
  }

  lemma {:induction false} AllIsBrought(states: seq<State>, steps: seq<Step>, n: nat, x: Snap)
    requires Run(states, steps) && n < |states| && Around(states[n], x)
    ensures BroughtBefore(states, steps, n, x)
    decreases n
  {
    hide Inv, Enabled, Next, Around;
    if n == 0 {
      NothingAtFirst(states[0], x);
    } else {
      assert Enabled(states[n - 1], steps[n - 1]) && states[n] == Next(states[n - 1], steps[n - 1]);
      if Around(states[n - 1], x) {
        AllIsBrought(states, steps, n - 1, x);
      } else {
        DiskNeverGoesBack(states, steps, n - 1, n - 1);
        NothingElseAppears(states[n - 1], steps[n - 1], x);
        StillInHand(states, steps, n - 1, steps[n - 1].c);
        StepHasItsCaller(states[n - 1], steps[n - 1]);
        assert Brings(states, steps, n - 1, steps[n - 1].c, x);
      }
    }
  }

  lemma NothingAtFirst(s: State, x: Snap)
    requires Initial(s)
    ensures !Around(s, x)
  {
  }

  lemma StepHasItsCaller(s: State, step: Step)
    requires Enabled(s, step)
    ensures step.c < |s.callers|
  {
  }

  /** Whatever is on disk is the snapshot that some caller brought earlier, under the number
      it was given then. */
  lemma DiskWasBrought(states: seq<State>, steps: seq<Step>, n: nat) returns (k: nat, d: nat)
    requires Run(states, steps) && n < |states| && states[n].disk.Some?
    ensures k < n && Brings(states, steps, k, d, states[n].disk.value)
  {
    AllIsBrought(states, steps, n, states[n].disk.value);
    k, d :| k < n && Brings(states, steps, k, d, states[n].disk.value);
  }

  lemma {:induction false} NumbersOnlyGrow(states: seq<State>, steps: seq<Step>, i: nat, j: nat)
    requires Run(states, steps) && i <= j < |states|
    ensures states[i].gate.saveGen <= states[j].gate.saveGen
    decreases j
  {
    if i < j {
      NumbersOnlyGrow(states, steps, i, j - 1);
      assert Enabled(states[j - 1], steps[j - 1]) && states[j] == Next(states[j - 1], steps[j - 1]);
    }
  }

  /** An accepted call keeps the number it was given. */
  lemma {:induction false} NumberIsKept(states: seq<State>, steps: seq<Step>, i: nat, n: nat, c: nat)
    requires Run(states, steps) && i < n < |states| && steps[i] == Begin(c)
    ensures c < |states[n].callers| == |states[0].callers| && !states[n].callers[c].NotYet?
    ensures !states[n].callers[c].Discarded? ==> states[n].callers[c].gen == states[i + 1].gate.saveGen
    decreases n
  {
    hide Enabled, Next;
    StillInHand(states, steps, n, c);
    assert Enabled(states[n - 1], steps[n - 1]) && states[n] == Next(states[n - 1], steps[n - 1]);
    StepHasItsCaller(states[n - 1], steps[n - 1]);
    if i < n - 1 {
      NumberIsKept(states, steps, i, n - 1, c);
      StepKeepsNumber(states[n - 1], steps[n - 1], c);
    } else {
      BeginGivesNumber(states[i], c);
    }
  }

  lemma BeginGivesNumber(s: State, c: nat)
    requires Enabled(s, Begin(c))
    ensures var t := Next(s, Begin(c));
      && c < |t.callers| && !t.callers[c].NotYet?
      && (!t.callers[c].Discarded? ==> t.callers[c].gen == t.gate.saveGen)
  {
  }

  lemma StepKeepsNumber(s: State, step: Step, c: nat)
    requires Enabled(s, step) && c < |s.callers| && !s.callers[c].NotYet?
    ensures var t := Next(s, step);
      && c < |t.callers| && !t.callers[c].NotYet? && (t.callers[c].Discarded? <==> s.callers[c].Discarded?)
      && (!t.callers[c].Discarded? ==> t.callers[c].gen == s.callers[c].gen)
  {
    hide Enter;
  }

  /** When an accepted call that began at step `i` has returned nil, the disk holds what a
      caller `d` brought at a step `k` under a number at least as large; and if the number
      given at `i` was a new one, as it is for every snapshot without, not before `i`. */
  lemma NilMeansHandedIn(states: seq<State>, steps: seq<Step>, i: nat, n: nat, c: nat) returns (k: nat, d: nat)
    requires Run(states, steps) && i < n < |states| && steps[i] == Begin(c)
    requires c < |states[n].callers| && states[n].callers[c].Done? && states[n].callers[c].ok
    ensures states[n].disk.Some? && k < n && Brings(states, steps, k, d, states[n].disk.value)
    ensures states[n].disk.value.seqNo >= states[i + 1].gate.saveGen
    ensures states[i + 1].gate.saveGen > states[i].gate.saveGen ==> i <= k
    ensures c < |states[0].callers| && states[0].callers[c].NotYet?
    ensures states[0].callers[c].snap.seqNo == 0 ==> states[i + 1].gate.saveGen > states[i].gate.saveGen
    ensures states[0].callers[c].snap.seqNo != 0 ==> states[i + 1].gate.saveGen == states[0].callers[c].snap.seqNo
  {
    NilMeansWritten(states, steps, n, c);
    NumberIsKept(states, steps, i, n, c);
    DiskNeverGoesBack(states, steps, n, n);
    assert CallerOk(states[n].gate, states[n].callers[c]);
    k, d := DiskWasBrought(states, steps, n);
    if k < i {
      NumbersOnlyGrow(states, steps, k + 1, i);
    }
    StillInHand(states, steps, i, c);
    assert Enabled(states[i], steps[i]) && states[i + 1] == Next(states[i], steps[i]);
    if states[i + 1].callers[c].Discarded? {
      NotDiscarded(states, steps, i, n, c);
    }
  }

  lemma {:induction false} NotDiscarded(states: seq<State>, steps: seq<Step>, i: nat, n: nat, c: nat)
    requires Run(states, steps) && i < n < |states| && c < |states[i + 1].callers|
    requires states[i + 1].callers[c].Discarded?
    ensures c < |states[n].callers| && states[n].callers[c].Discarded?
    decreases n
  {
    if i + 1 < n {
      NotDiscarded(states, steps, i, n - 1, c);
      assert Enabled(states[n - 1], steps[n - 1]) && states[n] == Next(states[n - 1], steps[n - 1]);
    }
  }

  /** A writer whose write fails returns, with nil exactly if its number is on disk already,
      and what it was to write is not lost; no other step makes a call return an error. */
  lemma ErrorsComeFromWrites(states: seq<State>, steps: seq<Step>, n: nat, c: nat)
    requires Run(states, steps) && n < |steps| && c < |states[n].callers| == |states[n + 1].callers|
    ensures steps[n] == Finish(c, false) ==>
      && states[n].callers[c].Writing? && states[n + 1].callers[c].Done?
      && (states[n + 1].callers[c].ok <==> DiskSeq(states[n]) >= states[n].callers[c].gen)
      && states[n + 1].disk == states[n].disk
      && states[n + 1].gate.pending ==
           if states[n].gate.pending.Some? then states[n].gate.pending else Some(states[n].callers[c].content)
    ensures states[n + 1].callers[c].Done? && !states[n + 1].callers[c].ok ==>
      states[n].callers[c] == states[n + 1].callers[c] || steps[n] == Finish(c, false)
  {
    DiskNeverGoesBack(states, steps, n, n);
    assert CallerOk(states[n].gate, states[n].callers[c]);
    assert Enabled(states[n], steps[n]) && states[n + 1] == Next(states[n], steps[n]);
    assert CallerOk(states[n].gate, states[n].callers[steps[n].c]);
  }

  // ---- All callers return ---------------------------------------------------------

  /** Work left for one caller among `k`. */
  function Weight(c: Caller, k: nat): nat {
    match c
    case NotYet(_) => k + 4
    case Awake(_) => k + 3
    case Asleep(_) => k + 2
    case Writing(_, _) => k + 2
    case _ => 0
  }

  function Weights(callers: seq<Caller>, k: nat): (ws: seq<nat>)
    ensures |ws| == |callers| && forall i | 0 <= i < |callers| :: ws[i] == Weight(callers[i], k)
  {
    Each((c: Caller) => Weight(c, k), callers)
  }

  function Total(callers: seq<Caller>, k: nat): nat {
    Sum(Weights(callers, k))
  }

  ghost function Rank(s: State): nat {
    Total(s.callers, |s.callers|) + if s.gate.pending.Some? then 1 else 0
  }

  lemma TotalOfUpdate(callers: seq<Caller>, c: nat, x: Caller, k: nat)
    requires c < |callers|
    ensures Total(callers[c := x], k) + Weight(callers[c], k) == Total(callers, k) + Weight(x, k)
  {
    hide Weight, Sum;
    SumOfUpdate(Weights(callers, k), c, Weight(x, k));
    assert Weights(callers[c := x], k) == Weights(callers, k)[c := Weight(x, k)];
  }

  lemma TotalOfWaking(callers: seq<Caller>, c: nat, x: Caller, k: nat)
    requires c < |callers| && !callers[c].Asleep?
    ensures Total(Broadcast(callers)[c := x], k) + Weight(callers[c], k) <= Total(callers, k) + |callers| + Weight(x, k)
  {
    hide Sum;
    TotalOfUpdate(Broadcast(callers), c, x, k);
    SumOfRaised(Weights(callers, k), Weights(Broadcast(callers), k));
  }

  lemma InitialTotal(callers: seq<Caller>, k: nat)
    requires forall i | 0 <= i < |callers| :: callers[i].NotYet?
    ensures Total(callers, k) == |callers| * (k + 4)
  {
    SumOfEqual(Weights(callers, k), k + 4);
  }

  lemma BeginUsesWork(s: State, c: nat)
    requires Inv(s) && Enabled(s, Begin(c))
    ensures Rank(Next(s, Begin(c))) < Rank(s)
  {
    hide Total;
    TotalOfUpdate(s.callers, c, Next(s, Begin(c)).callers[c], |s.callers|);
  }

  lemma WakeUsesWork(s: State, c: nat)
    requires Inv(s) && Enabled(s, Wake(c))
    ensures Rank(Next(s, Wake(c))) < Rank(s)
  {
    assert CallerOk(s.gate, s.callers[c]);
    hide Total;
    TotalOfUpdate(s.callers, c, Next(s, Wake(c)).callers[c], |s.callers|);
  }

  /** A writer goes on with what is pending after a success; else it returns and wakes all. */
  lemma FinishOutcome(s: State, c: nat, ok: bool)
    requires Inv(s) && Enabled(s, Finish(c, ok))
    ensures var t := Next(s, Finish(c, ok));
      && |t.callers| == |s.callers|
      && (ok && s.gate.pending.Some? ==>
            t.callers[c].Writing? && t.callers == s.callers[c := t.callers[c]] && t.gate.pending.None?)
      && (!(ok && s.gate.pending.Some?) ==>
            t.callers[c].Done? && t.callers == Broadcast(s.callers)[c := t.callers[c]])
  {
    assert CallerOk(s.gate, s.callers[c]);
    hide Inv, Broadcast;
  }

  lemma FinishUsesWork(s: State, c: nat, ok: bool)
    requires Inv(s) && Enabled(s, Finish(c, ok))
    ensures Rank(Next(s, Finish(c, ok))) < Rank(s)
  {
    FinishOutcome(s, c, ok);
    var k, x := |s.callers|, Next(s, Finish(c, ok)).callers[c];
    hide Inv, Next, Total, Broadcast;
    if ok && s.gate.pending.Some? {
      TotalOfUpdate(s.callers, c, x, k);
    } else {
      TotalOfWaking(s.callers, c, x, k);
    }
  }

  /** Every step uses up work. */
  lemma StepUsesWork(s: State, step: Step)
    requires Inv(s) && Enabled(s, step)
    ensures Rank(Next(s, step)) < Rank(s)
  {
    match step
    case Begin(c) => BeginUsesWork(s, c);
    case Wake(c) => WakeUsesWork(s, c);
    case Finish(c, ok) => FinishUsesWork(s, c, ok);
  }

  lemma SameCallers(s: State, step: Step)
    requires Enabled(s, step)
    ensures |Next(s, step).callers| == |s.callers|
  {
    hide Head, Enter, Written;
  }

  lemma {:induction false} StepsAreBounded(states: seq<State>, steps: seq<Step>, n: nat)
    requires Run(states, steps) && n < |states|
    ensures |states[n].callers| == |states[0].callers|
    ensures n + Rank(states[n]) <= Rank(states[0])
    decreases n
  {
    hide Inv, Enabled, Next, Rank;
    if n > 0 {
      StepsAreBounded(states, steps, n - 1);
      DiskNeverGoesBack(states, steps, n - 1, n - 1);
      assert Enabled(states[n - 1], steps[n - 1]) && states[n] == Next(states[n - 1], steps[n - 1]);
      StepUsesWork(states[n - 1], steps[n - 1]);
      SameCallers(states[n - 1], steps[n - 1]);
    }
  }

  lemma SomeoneCanMove(s: State, c: nat)
    requires Inv(s) && LockFree(s)
    requires c < |s.callers| && !s.callers[c].Done? && !s.callers[c].Discarded?
    ensures exists step: Step :: Enabled(s, step)
  {
    assert CallerOk(s.gate, s.callers[c]);
    match s.callers[c]
    case NotYet(_) => assert Enabled(s, Begin(c));
    case Awake(_) => assert Enabled(s, Wake(c));
    case Writing(_, _) => assert Enabled(s, Finish(c, true));
    case Asleep(_) => assert Enabled(s, Finish(s.writer.value, true));
  }

  /** With `k` callers a run has at most k * (k + 4) steps, however writes fail; when it can
      go no further, every call has returned or was discarded. */
  lemma AllCallersReturn(states: seq<State>, steps: seq<Step>)
    requires Run(states, steps)
    ensures |steps| <= |states[0].callers| * (|states[0].callers| + 4)
    ensures (forall step: Step :: !Enabled(states[|steps|], step)) ==>
      forall c | 0 <= c < |states[|steps|].callers| ::
        states[|steps|].callers[c].Done? || states[|steps|].callers[c].Discarded?
  {
    var n := |steps|;
    DiskNeverGoesBack(states, steps, n, n);
    OlderEntrantsDoNotWait(states, steps, n, Snap(0, ""));
    StepsAreBounded(states, steps, n);
    InitialTotal(states[0].callers, |states[0].callers|);
    forall c | 0 <= c < |states[n].callers| && !states[n].callers[c].Done? && !states[n].callers[c].Discarded?
      ensures exists step: Step :: Enabled(states[n], step)
    {
      SomeoneCanMove(states[n], c);
    }
  }

  // ---- The reported outcome ---------------------------------------------------

  datatype Status = Status(seqNo: nat, error: Option<string>)

  datatype Report = Report(seqNo: nat, error: Option<string>)

  function Noted(s: Status, r: Report): Status {
    if r.seqNo != 0 && r.seqNo < s.seqNo then s
    else Status(if r.seqNo > s.seqNo then r.seqNo else s.seqNo, r.error)
  }

  /** The engine's bookkeeping of snapshot numbers and save outcomes. */
  class PersistStatus {
    var persistSeq: nat
    var persistStatusSeq: nat
    var persistError: Option<string>

    ghost function View(): Status
      reads this
    {
      Status(persistStatusSeq, persistError)
    }

    /** Each copy of the results gets a number of its own. */
    method CopyPersisted(payload: string) returns (snap: Snap)
      modifies this`persistSeq
      ensures snap == Snap(old(persistSeq) + 1, payload) && persistSeq == snap.seqNo
    {
      persistSeq := persistSeq + 1;
      snap := Snap(persistSeq, payload);
    }

    method ApplyPersistResult(seqNo: nat, error: Option<string>)
      modifies this
      ensures View() == Noted(old(View()), Report(seqNo, error)) && persistSeq == old(persistSeq)
    {
      if seqNo != 0 && seqNo < persistStatusSeq {
        return;
      }
      if seqNo > persistStatusSeq {
        persistStatusSeq := seqNo;
      }
      persistError := error;
    }
  }

  function NotedAll(s: Status, rs: seq<Report>): Status {
    if rs == [] then s else Noted(NotedAll(s, rs[..|rs| - 1]), rs[|rs| - 1])
  }

  ghost predicate DistinctNumbers(rs: seq<Report>) {
    && (forall i | 0 <= i < |rs| :: rs[i].seqNo > 0)
    && (forall i, j | 0 <= i < j < |rs| :: rs[i].seqNo != rs[j].seqNo)
  }

  /** The report has no number, or none before it has a larger one. */
  predicate Counts(rs: seq<Report>, k: nat) {
    k < |rs| && (rs[k].seqNo == 0 || forall j | 0 <= j < k :: rs[j].seqNo <= rs[k].seqNo)
  }

  lemma {:induction false} NumberIsLargest(rs: seq<Report>)
    ensures forall i | 0 <= i < |rs| :: rs[i].seqNo <= NotedAll(Status(0, None), rs).seqNo
    ensures NotedAll(Status(0, None), rs).seqNo == 0 ||
            exists i :: 0 <= i < |rs| && rs[i].seqNo == NotedAll(Status(0, None), rs).seqNo
  {
    if rs != [] {
      var n := |rs| - 1;
      NumberIsLargest(rs[..n]);
      assert forall i | 0 <= i < n :: rs[..n][i] == rs[i];
      if i :| 0 <= i < n && rs[..n][i].seqNo == NotedAll(Status(0, None), rs[..n]).seqNo {
        assert rs[i].seqNo == NotedAll(Status(0, None), rs[..n]).seqNo;
      }
      assert rs[n].seqNo <= NotedAll(Status(0, None), rs).seqNo;
    }
  }

  /** Over any sequence of reports the status shows the outcome of the last one that counts. */
  lemma {:induction false} LastCountingReportIsShown(rs: seq<Report>, k: nat)
    requires Counts(rs, k) && forall j | k < j < |rs| :: !Counts(rs, j)
    ensures NotedAll(Status(0, None), rs).error == rs[k].error
  {
    var n := |rs| - 1;
    NumberIsLargest(rs[..n]);
    assert forall i | 0 <= i < n :: rs[..n][i] == rs[i];
    if k < n {
      assert !Counts(rs, n);
      forall j | k < j < n ensures !Counts(rs[..n], j) {
        assert !Counts(rs, j);
      }
      LastCountingReportIsShown(rs[..n], k);
    } else {
      var before := NotedAll(Status(0, None), rs[..n]);
      if i :| 0 <= i < n && rs[..n][i].seqNo == before.seqNo {
        assert rs[i].seqNo == before.seqNo;
      }
    }
  }

  /** Whatever the order of completion, the outcome kept is that of the newest snapshot. */
  lemma {:induction false} NewestOutcomeWins(rs: seq<Report>, k: nat)
    requires DistinctNumbers(rs) && k < |rs|
    requires forall i | 0 <= i < |rs| :: rs[i].seqNo <= rs[k].seqNo
    ensures NotedAll(Status(0, None), rs) == Status(rs[k].seqNo, rs[k].error)
  {
    var n := |rs| - 1;
    if k < n {
      NewestOutcomeWins(rs[..n], k);
    } else {
      NumberComesFromReports(rs[..n], rs[k].seqNo);
    }
  }

  lemma {:induction false} NumberComesFromReports(rs: seq<Report>, bound: nat)
    requires forall i | 0 <= i < |rs| :: rs[i].seqNo <= bound
    ensures NotedAll(Status(0, None), rs).seqNo <= bound
  {
    if rs != [] {
      NumberComesFromReports(rs[..|rs| - 1], bound);
    }
  }

  /** Two completion orders of the same saves end in the same status. */
  lemma OrderDoesNotMatter(as': seq<Report>, bs: seq<Report>)
    requires DistinctNumbers(as') && DistinctNumbers(bs)
    requires multiset(as') == multiset(bs)
    ensures NotedAll(Status(0, None), as') == NotedAll(Status(0, None), bs)
  {
    if as' == [] {
      assert |bs| == |multiset(bs)| == 0;
    } else {
      var k := Newest(as');
      assert as'[k] in multiset(bs);
      var j :| 0 <= j < |bs| && bs[j] == as'[k];
      forall i | 0 <= i < |bs| ensures bs[i].seqNo <= bs[j].seqNo {
        assert bs[i] in multiset(as');
      }
      NewestOutcomeWins(as', k);
      NewestOutcomeWins(bs, j);
    }
  }

  lemma {:induction false} Newest(rs: seq<Report>) returns (k: nat)
    requires rs != []
    ensures k < |rs| && forall i | 0 <= i < |rs| :: rs[i].seqNo <= rs[k].seqNo
  {
    if |rs| == 1 {
      k := 0;
    } else {
      k := Newest(rs[..|rs| - 1]);
      if rs[|rs| - 1].seqNo > rs[k].seqNo {
        k := |rs| - 1;
      }
    }
  }
}
