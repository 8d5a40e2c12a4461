/** The worker that writes the ban pool in the background: callers only mark it dirty, one
    worker saves, and the shutdown makes a last save. */
module BanPersist {

  datatype Flags = Flags(dirty: bool, stop: bool, started: bool, path: string)

  function Marked(f: Flags, file: string): Flags {
    f.(dirty := true, path := file)
  }

  function Began(f: Flags): Flags {
    if f.started || f.stop then f else f.(started := true)
  }

  class PersistWorker {
    var dirty: bool
    var stop: bool
    var started: bool
    var path: string

    ghost function View(): Flags
      reads this
    {
      Flags(dirty, stop, started, path)
    }

    constructor ()
      ensures View() == Flags(false, false, false, "")
    {
      dirty, stop, started, path := false, false, false, "";
    }

    /** Without persistence or a file there is nothing to do. */
    method Mark(persist: bool, file: string) returns (needStart: bool)
      modifies this`dirty, this`path
      ensures View() == if persist && file != "" then Marked(old(View()), file) else old(View())
      ensures persist && file != "" ==> dirty && path == file
      ensures needStart <==> persist && file != "" && !started && !stop
    {
      if !(persist && file != "") {
        return false;
      }
      path := file;
      dirty := true;
      needStart := !started && !stop;
    }

    method Start() returns (launch: bool)
      modifies this`started
      ensures launch <==> !old(started) && !stop
      ensures View() == Began(old(View()))
    {
      if started || stop {
        return false;
      }
      started := true;
      launch := true;
    }

    /** The worker's wake-up: it leaves when stopped, else takes the mark. */
    method Take() returns (leave: bool, file: string)
      requires dirty || stop
      modifies this`dirty
      ensures leave <==> stop
      ensures View() == if leave then old(View()) else old(View()).(dirty := false)
      ensures !leave ==> file == path
    {
      if stop {
        return true, "";
      }
      file := path;
      dirty := false;
      leave := false;
    }

    method SaveFailed() returns (leave: bool)
      modifies this`dirty
      ensures View() == old(View()).(dirty := true) && leave == stop
    {
      dirty := true;
      leave := stop;
    }

    /** Only the first call stops; every call waits for a started worker. */
    method Stop() returns (wait: bool)
      modifies this`stop
      ensures View() == old(View()).(stop := true) && wait == started
    {
      if !stop {
        stop := true;
      }
      wait := started;
    }
  }

  // ---- Mutators, worker and final save ----------------------------------------------

  datatype Worker = Off | Idle | Taken | Saving(upTo: nat) | Gone

  datatype Flush = NotYet | Flushing(upTo: nat) | Flushed(upTo: nat) | FlushFailed

  /** Mutations of the pool are numbered; a snapshot holds those up to some number. */
  datatype State = State(
    f: Flags,
    version: nat,         // mutations so far
    unmarked: set<nat>,   // mutations whose mark is still to come
    disk: nat,            // mutations on disk
    worker: Worker,
    flush: Flush)

  /** A save that returns success leaves a snapshot on disk that was taken at its call or
      later; `disk` in a step is the last mutation in it. Other callers save as well. */
  datatype Step =
    | Mutate
    | Mark(m: nat)
    | Start
    | Take
    | BeginSave
    | SaveOk(disk: nat)
    | SaveFail
    | Leave
    | OtherSave(disk: nat)
    | Stop
    | BeginFlush
    | FlushOk(disk: nat)
    | FlushFail

  ghost predicate Enabled(s: State, step: Step) {
    match step
    case Mutate => true
    case Mark(m) => m in s.unmarked
    case Start => !s.f.started && !s.f.stop
    case Take => s.worker == Idle && s.f.dirty && !s.f.stop
    case BeginSave => s.worker == Taken
    case SaveOk(d) => s.worker.Saving? && s.worker.upTo <= d && s.disk <= d <= s.version
    case SaveFail => s.worker.Saving?
    case Leave => s.worker == Idle && s.f.stop
    case OtherSave(d) => s.disk <= d <= s.version
    case Stop => true
    case BeginFlush => s.f.stop && (s.worker == Off || s.worker == Gone) && s.flush == NotYet
    case FlushOk(d) => s.flush.Flushing? && s.flush.upTo <= d && s.disk <= d <= s.version
    case FlushFail => s.flush.Flushing?
  }

  ghost function Next(s: State, step: Step): State
    requires Enabled(s, step)
  {
    match step
    case Mutate => s.(version := s.version + 1, unmarked := s.unmarked + {s.version + 1})
    case Mark(m) => s.(f := Marked(s.f, s.f.path), unmarked := s.unmarked - {m})
    case Start => s.(f := Began(s.f), worker := Idle)
    case Take => s.(f := s.f.(dirty := false), worker := Taken)
    case BeginSave => s.(worker := Saving(s.version))
    case SaveOk(d) => s.(disk := d, worker := Idle)
    case SaveFail => s.(f := s.f.(dirty := true), worker := if s.f.stop then Gone else Idle)
    case Leave => s.(worker := Gone)
    case OtherSave(d) => s.(disk := d)
    case Stop => s.(f := s.f.(stop := true))
    case BeginFlush => s.(flush := Flushing(s.version))
    case FlushOk(d) => s.(disk := d, flush := Flushed(s.flush.upTo))
    case FlushFail => s.(flush := FlushFailed)
  }

  ghost predicate Follows(s: State, step: Step, t: State) {
    Enabled(s, step) && t == Next(s, step)
  }

  ghost predicate Initial(s: State) {
    && !s.f.dirty && !s.f.stop && !s.f.started && s.f.path != ""
    && s.unmarked == {} && s.disk == s.version && s.worker == Off && s.flush == NotYet
  }

  ghost predicate Run(states: seq<State>, steps: seq<Step>) {
    && |states| == |steps| + 1
    && Initial(states[0])
    && forall i | 0 <= i < |steps| :: Follows(states[i], steps[i], states[i + 1])
  }

  /** The mutation is on disk, in a save in flight, or announced by the mark. */
  predicate Covered(s: State, m: nat) {
    || m <= s.disk
    || s.f.dirty
    || s.worker == Taken
    || (s.worker.Saving? && m <= s.worker.upTo)
  }

  ghost predicate Inv(s: State) {
    && (forall m | m in s.unmarked :: m <= s.version)
    && (forall m: nat | m <= s.version && m !in s.unmarked :: Covered(s, m))
    && s.disk <= s.version
    && (s.worker.Saving? ==> s.worker.upTo <= s.version)
    && (s.f.started <==> s.worker != Off)
    && (s.worker == Gone ==> s.f.stop)
    && (s.flush != NotYet ==> s.f.stop && (s.worker == Off || s.worker == Gone))
    && (s.flush.Flushing? ==> s.flush.upTo <= s.version)
    && (s.flush.Flushed? ==> s.flush.upTo <= s.disk)
  }

  lemma StepKeepsInv(s: State, step: Step, t: State)
    requires Inv(s) && Follows(s, step, t)
    ensures Inv(t) && s.disk <= t.disk && s.version <= t.version
  {
    forall m: nat | m <= t.version && m !in t.unmarked ensures Covered(t, m) {
      assert m <= s.version && m !in s.unmarked ==> Covered(s, m);
    }
  }

  lemma {:induction false} RunsKeepInv(states: seq<State>, steps: seq<Step>, n: nat)
    requires Run(states, steps) && n < |states|
    ensures Inv(states[n])
    decreases n
  {
    if n > 0 {
      RunsKeepInv(states, steps, n - 1);
      StepKeepsInv(states[n - 1], steps[n - 1], states[n]);
    }
  }

  /** No update is lost: a mutation whose mark is complete is covered, over failures and
      retries; when the worker rests without a mark, everything marked is on disk. */
  lemma NoUpdateIsLost(states: seq<State>, steps: seq<Step>, n: nat, m: nat)
    requires Run(states, steps) && n < |states| && m <= states[n].version && m !in states[n].unmarked
    ensures Covered(states[n], m)
    ensures !states[n].f.dirty && states[n].worker in {Off, Idle, Gone} ==> m <= states[n].disk
  {
    RunsKeepInv(states, steps, n);
  }

  /** The final save starts after the worker has gone; if it succeeds, it covers every
      mutation made before it, and the disk keeps them. */
  lemma {:induction false} FinalSaveCoversAll(states: seq<State>, steps: seq<Step>, i: nat, n: nat)
    requires Run(states, steps) && i < n < |states| && steps[i] == BeginFlush && states[n].flush.Flushed?
    ensures states[i].worker in {Off, Gone} && states[i].f.stop
    ensures states[i].version <= states[n].disk
  {
    RunsKeepInv(states, steps, n);
    assert Follows(states[i], steps[i], states[i + 1]);
    FlushKeepsItsStart(states, steps, i + 1, n);
  }

  lemma {:induction false} FlushKeepsItsStart(states: seq<State>, steps: seq<Step>, i: nat, n: nat)
    requires Run(states, steps) && i <= n < |states| && states[i].flush.Flushing?
    ensures states[n].flush in {states[i].flush, Flushed(states[i].flush.upTo), FlushFailed}
    decreases n
  {
    if i < n {
      FlushKeepsItsStart(states, steps, i, n - 1);
      assert Follows(states[n - 1], steps[n - 1], states[n]);
    }
  }

  /** At most one worker is ever started. */
  lemma {:induction false} StartedOnce(states: seq<State>, steps: seq<Step>, i: nat, j: nat)
    requires Run(states, steps) && i < j < |steps| && steps[i] == Start
    ensures steps[j] != Start
  {
    RunsKeepStarted(states, steps, i, j);
    assert Follows(states[j], steps[j], states[j + 1]);
  }

  lemma {:induction false} RunsKeepStarted(states: seq<State>, steps: seq<Step>, i: nat, j: nat)
    requires Run(states, steps) && i < j < |states| && steps[i] == Start
    ensures states[j].f.started
    decreases j
  {
    assert Follows(states[j - 1], steps[j - 1], states[j]);
    if i < j - 1 {
      RunsKeepStarted(states, steps, i, j - 1);
    }
  }
}
