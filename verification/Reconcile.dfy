/** The local ban pool against the remote account switch (CPA). Usage callbacks write the
    pool without any lock; disposal, restore, unban, and the operator's enable, disable
    and single delete each hold the account's lock across their remote call. A batch delete
    removes accounts without any lock and clears the pool under it later. Every account has
    one canonical id, and a failed remote call leaves the account as it was. */
module Reconcile {
  import opened Bans
  import opened BanStore
  import Text

  datatype Switch = Enabled | Disabled | Missing

  /** How a remote call ends. */
  datatype Outcome = Ok | NotFound | Failed

  /** Who enables an account on the strength of a row it read before taking the lock. */
  datatype Reader = RestorePass(now: Time) | Unban

  /** Where a section that holds the lock of an account stands. */
  datatype Section =
    // background disable
    | DisposeStart(expected: nat)
    | DisposeCalled(expected: nat, done: bool)
    | DisposeDecided(done: bool)
    // restore pass and unban: enable, then compare-and-delete
    | EnableStart(reader: Reader, seen: BanEntry)
    | EnableDone(reader: Reader, seen: BanEntry)
    // a newer ban was kept: disable again and record the outcome
    | Conflict
    | ConflictCalled(done: bool)
    // operator enable: list, enable, look again, compare-and-delete
    | OpEnableStart
    | OpEnableListed(pre: Option<BanEntry>)
    | OpEnabled(pre: Option<BanEntry>)
    | OpEnableDrop(seen: BanEntry)
    // operator disable: call, clear the old row, record the ban
    | OpDisableStart(entry: BanEntry)
    | OpDisabled(entry: BanEntry)
    | OpDisableCleared(entry: BanEntry)
    // operator delete; a batch delete, or one that finds nothing, only clears
    | OpDeleteStart
    | OpDeleted
    // disable retry of the restore pass; its outcome is written after the lock
    | RetryStart(expected: nat)
    // unban of an account that had no row when it was looked up
    | BlindStart

  /** What a retry writes once it has given the lock up: the row is applied, it is not, or
      it goes with the account if it is still at the revision read. */
  datatype Late = NowApplied | NotApplied | Absent(expected: nat)

  /** `rows` are readings taken outside the lock, `late` the retry outcomes still to be
      written. */
  datatype World = World(
    store: Store,
    cpa: map<string, Switch>,
    open: map<string, Section>,
    rows: set<(Reader, BanEntry)>,
    late: set<(string, Late)>)

  function At(w: World, id: string): Switch {
    if id in w.cpa then w.cpa[id] else Missing
  }

  datatype Step =
    | Usage(record: UsageRecord, hours: int, now: Time)  // lock-free: a failed call is recorded
    | QueueFull(id: string)                              // lock-free: the row stays unsynced
    | Read(reader: Reader, id: string)                   // lock-free: a row is picked up
    | Open(id: string, section: Section)                 // the lock is taken
    | Advance(id: string, outcome: Outcome)              // the holder's next atomic action
    | LateWrite(id: string, late: Late)                  // lock-free: the retry's outcome
    | RemoteDelete(id: string)                           // lock-free: a batch delete removes the account

  ghost predicate Opening(w: World, id: string, section: Section) {
    match section
    case DisposeStart(_) => true
    case EnableStart(reader, seen) =>
      && (reader, seen) in w.rows && seen.authId == id
      && (reader.RestorePass? ==> seen.resetSource != ManualUnban)
    case OpEnableStart => true
    case OpDisableStart(entry) => entry.authId == id && entry.cpaSynced && Consistent(entry)
    case OpDeleteStart => true
    case OpDeleted => At(w, id) == Missing
    case RetryStart(_) => true
    case BlindStart => true
    case _ => false
  }

  ghost predicate Possible(w: World, step: Step) {
    match step
    case Usage(record, hours, now) => DetectBan(record, hours, now).Some?
    case QueueFull(_) => true
    case Read(_, id) => id in w.store.bans
    case Open(id, section) => id != "" && id !in w.open && Opening(w, id, section)
    case Advance(id, outcome) => id in w.open && (outcome.NotFound? <==> At(w, id).Missing?)
    case LateWrite(id, late) => (id, late) in w.late
    case RemoteDelete(_) => true
  }

  /** One action of a section: what it does to the pool and to the switch, the outcome it
      leaves for later, and where the section goes; nowhere means the lock is released. */
  datatype Effect = Effect(pool: Option<Op>, to: Option<Switch>, late: Option<Late>, next: Option<Section>)

  const RELEASE := Effect(None, None, None, None)

  function Go(section: Section): Effect {
    RELEASE.(next := Some(section))
  }

  function Call(to: Switch, outcome: Outcome, section: Section): Effect {
    Go(section).(to := if outcome.Ok? then Some(to) else None)
  }

  function Marking(id: string, done: bool): Op {
    SyncOp(id, done, if done then "" else "call failed")
  }

  function LateOf(outcome: Outcome, expected: nat): Late {
    match outcome
    case Ok => NowApplied
    case NotFound => Absent(expected)
    case Failed => NotApplied
  }

  function LateOp(id: string, late: Late): Op {
    match late
    case NowApplied => Marking(id, true)
    case NotApplied => Marking(id, false)
    case Absent(expected) => DeleteIfOp(id, expected)
  }

  /** Compare-and-delete, or fall through to the conflict. */
  function Drops(row: Option<BanEntry>, id: string, expected: nat): Effect {
    if row.Some? && row.value.revision != expected then Go(Conflict)
    else RELEASE.(pool := Some(DeleteIfOp(id, expected)))
  }

  predicate Overtaken(row: Option<BanEntry>, expected: nat) {
    row.None? || (expected != 0 && row.value.revision != expected && row.value.cpaSynced)
  }

  /** The holder's next action; a remote call takes the given outcome. */
  function Act(section: Section, row: Option<BanEntry>, id: string, outcome: Outcome): Effect {
    match section
    case DisposeStart(expected) =>
      if Overtaken(row, expected) then RELEASE
      else Call(Disabled, outcome, DisposeCalled(expected, outcome.Ok?))
    case DisposeCalled(expected, done) =>
      if Overtaken(row, expected) then RELEASE else Go(DisposeDecided(done))
    case DisposeDecided(done) => RELEASE.(pool := Some(Marking(id, done)))
    case EnableStart(reader, seen) =>
      if outcome.Failed? then RELEASE else Call(Enabled, outcome, EnableDone(reader, seen))
    case EnableDone(_, seen) => Drops(row, id, seen.revision)
    case Conflict => Call(Disabled, outcome, ConflictCalled(outcome.Ok?))
    case ConflictCalled(done) => RELEASE.(pool := Some(Marking(id, done)))
    case OpEnableStart => Go(OpEnableListed(row))
    case OpEnableListed(pre) =>
      if outcome.Ok? then Call(Enabled, outcome, OpEnabled(pre)) else RELEASE
    case OpEnabled(pre) =>
      if row.None? then RELEASE
      else if pre.None? then Go(Conflict)
      else Go(OpEnableDrop(pre.value))
    case OpEnableDrop(seen) => Drops(row, id, seen.revision)
    case OpDisableStart(entry) =>
      if outcome.Ok? then Call(Disabled, outcome, OpDisabled(entry)) else RELEASE
    case OpDisabled(entry) => Go(OpDisableCleared(entry)).(pool := Some(DeleteOp(id)))
    case OpDisableCleared(entry) => RELEASE.(pool := Some(SetOp(entry)))
    case OpDeleteStart =>
      if outcome.Failed? then RELEASE else Call(Missing, outcome, OpDeleted)
    case OpDeleted => RELEASE.(pool := Some(DeleteOp(id)))
    case RetryStart(expected) =>
      RELEASE.(to := if outcome.Ok? then Some(Disabled) else None, late := Some(LateOf(outcome, expected)))
    case BlindStart => RELEASE.(to := if outcome.Ok? then Some(Enabled) else None)
  }

  function RowOf(w: World, id: string): Option<BanEntry> {
    if id in w.store.bans then Some(w.store.bans[id]) else None
  }

  function Advanced(w: World, id: string, outcome: Outcome): World
    requires id in w.open
  {
    var e := Act(w.open[id], RowOf(w, id), id, outcome);
    World(if e.pool.Some? then Apply(w.store, e.pool.value) else w.store,
          if e.to.Some? then w.cpa[id := e.to.value] else w.cpa,
          if e.next.Some? then w.open[id := e.next.value] else w.open - {id},
          w.rows,
          if e.late.Some? then w.late + {(id, e.late.value)} else w.late)
  }

  ghost function Next(w: World, step: Step): World
    requires Possible(w, step)
  {
    match step
    case Usage(record, hours, now) => w.(store := Apply(w.store, SetOp(DetectBan(record, hours, now).value)))
    case QueueFull(id) => w.(store := Apply(w.store, SyncOp(id, false, "dispose queue full")))
    case Read(reader, id) => w.(rows := w.rows + {(reader, w.store.bans[id])})
    case Open(id, section) => w.(open := w.open[id := section])
    case Advance(id, outcome) => Advanced(w, id, outcome)
    case LateWrite(id, late) => w.(late := w.late - {(id, late)}, store := Apply(w.store, LateOp(id, late)))
    case RemoteDelete(id) => w.(cpa := w.cpa[id := Missing])
  }

  ghost predicate Initial(w: World) {
    w.store == EMPTY && w.open == map[] && w.rows == {} && w.late == {}
  }

  ghost predicate Run(worlds: seq<World>, steps: seq<Step>) {
    && |worlds| == |steps| + 1
    && Initial(worlds[0])
    && forall i | 0 <= i < |steps| :: Follows(worlds[i], steps[i], worlds[i + 1])
  }

  ghost predicate Follows(w: World, step: Step, t: World) {
    Possible(w, step) && t == Next(w, step)
  }

  // ---- Pool and account agree ---------------------------------------------------

  /** A row that claims to be applied is applied. */
  predicate Agrees(w: World, id: string) {
    id in w.store.bans && w.store.bans[id].cpaSynced ==> At(w, id) != Enabled
  }

  /** The two ways out of the protocol: the retry records success after giving the lock up,
      which does harm if the account of its row is enabled by then, and an unban without a
      row enables without looking at the pool again, which does if an applied row is there. */
  predicate Careful(w: World, step: Step) {
    match step
    case LateWrite(id, late) => late == NowApplied ==> !(id in w.store.bans && At(w, id) == Enabled)
    case Advance(id, outcome) =>
      id in w.open && w.open[id].BlindStart? && outcome.Ok? ==> !(id in w.store.bans && w.store.bans[id].cpaSynced)
    case _ => true
  }

  /** What is known of the account while a section holds its lock. */
  ghost predicate Holding(w: World, id: string, section: Section) {
    match section
    case DisposeCalled(_, done) => if done then At(w, id) != Enabled else Agrees(w, id)
    case DisposeDecided(done) => if done then At(w, id) != Enabled else Agrees(w, id)
    case EnableDone(_, _) => true
    case Conflict => true
    case ConflictCalled(done) => done ==> At(w, id) != Enabled
    case OpEnabled(_) => true
    case OpEnableDrop(_) => true
    case OpDisabled(_) => At(w, id) != Enabled
    case OpDisableCleared(_) => At(w, id) != Enabled
    case OpDeleted => At(w, id) == Missing
    case _ => Agrees(w, id)
  }

  ghost predicate AccountOk(w: World, id: string) {
    if id in w.open then Holding(w, id, w.open[id]) else Agrees(w, id)
  }

  ghost predicate AllAccountsOk(w: World) {
    forall id :: AccountOk(w, id)
  }

  lemma LockFreeStepKeepsAccounts(w: World, step: Step, id: string)
    requires AccountOk(w, id) && Possible(w, step) && Careful(w, step)
    requires !step.Advance?
    ensures AccountOk(Next(w, step), id)
  {
    if step.Usage? {
      UsageKeepsAccount(w, step, id);
    } else if step.LateWrite? {
      LateWriteKeepsAccount(w, step, id);
    }
  }

  lemma UsageKeepsAccount(w: World, step: Step, id: string)
    requires AccountOk(w, id) && Possible(w, step) && step.Usage?
    ensures AccountOk(Next(w, step), id)
  {
  }

  lemma LateWriteKeepsAccount(w: World, step: Step, id: string)
    requires AccountOk(w, id) && Possible(w, step) && Careful(w, step) && step.LateWrite?
    ensures AccountOk(Next(w, step), id)
  {
  }

  lemma AdvanceKeepsAccount(w: World, me: string, outcome: Outcome)
    requires AccountOk(w, me) && Possible(w, Advance(me, outcome)) && Careful(w, Advance(me, outcome))
    ensures AccountOk(Advanced(w, me, outcome), me)
  {
    if ByOperator(w.open[me]) {
      OperatorKeepsAccount(w, me, outcome);
    } else {
      BackgroundKeepsAccount(w, me, outcome);
    }
  }

  predicate ByOperator(section: Section) {
    || section.OpEnableStart? || section.OpEnableListed? || section.OpEnabled? || section.OpEnableDrop?
    || section.OpDisableStart? || section.OpDisabled? || section.OpDisableCleared?
    || section.OpDeleteStart? || section.OpDeleted?
  }

  lemma OperatorKeepsAccount(w: World, me: string, outcome: Outcome)
    requires AccountOk(w, me) && Possible(w, Advance(me, outcome)) && ByOperator(w.open[me])
    ensures AccountOk(Advanced(w, me, outcome), me)
  {
    var section := w.open[me];
    if section.OpEnableStart? || section.OpEnableListed? || section.OpEnabled? || section.OpEnableDrop? {
      EnableKeepsAccount(w, me, outcome);
    } else if section.OpDeleteStart? || section.OpDeleted? {
      DeleteKeepsAccount(w, me, outcome);
    } else {
      DisableKeepsAccount(w, me, outcome);
    }
  }

  lemma EnableKeepsAccount(w: World, me: string, outcome: Outcome)
    requires AccountOk(w, me) && Possible(w, Advance(me, outcome))
    requires
      var section := w.open[me];
      section.OpEnableStart? || section.OpEnableListed? || section.OpEnabled? || section.OpEnableDrop?
    ensures AccountOk(Advanced(w, me, outcome), me)
  {
  }

  lemma DeleteKeepsAccount(w: World, me: string, outcome: Outcome)
    requires AccountOk(w, me) && Possible(w, Advance(me, outcome))
    requires w.open[me].OpDeleteStart? || w.open[me].OpDeleted?
    ensures AccountOk(Advanced(w, me, outcome), me)
  {
  }

  lemma DisableKeepsAccount(w: World, me: string, outcome: Outcome)
    requires AccountOk(w, me) && Possible(w, Advance(me, outcome))
    requires w.open[me].OpDisableStart? || w.open[me].OpDisabled? || w.open[me].OpDisableCleared?
    ensures AccountOk(Advanced(w, me, outcome), me)
  {
  }

  lemma BackgroundKeepsAccount(w: World, me: string, outcome: Outcome)
    requires AccountOk(w, me) && Possible(w, Advance(me, outcome)) && Careful(w, Advance(me, outcome))
    requires !ByOperator(w.open[me])
    ensures AccountOk(Advanced(w, me, outcome), me)
  {
    match w.open[me]
    case DisposeStart(_) => DisposeKeepsAccount(w, me, outcome);
    case DisposeCalled(_, _) => DisposeKeepsAccount(w, me, outcome);
    case DisposeDecided(_) => DisposeKeepsAccount(w, me, outcome);
    case EnableStart(_, _) =>
    case EnableDone(_, _) =>
    case Conflict =>
    case ConflictCalled(_) =>
    case RetryStart(_) =>
    case BlindStart =>
  }

  lemma DisposeKeepsAccount(w: World, me: string, outcome: Outcome)
    requires AccountOk(w, me) && Possible(w, Advance(me, outcome))
    requires w.open[me].DisposeStart? || w.open[me].DisposeCalled? || w.open[me].DisposeDecided?
    ensures AccountOk(Advanced(w, me, outcome), me)
  {
  }

  /** A section touches neither the switch nor the lock of another account... */
  lemma AdvanceLeavesSwitches(w: World, me: string, outcome: Outcome, id: string)
    requires me in w.open && id != me
    ensures var t := Advanced(w, me, outcome);
      && At(t, id) == At(w, id)
      && (id in t.open <==> id in w.open) && (id in w.open ==> t.open[id] == w.open[id])
  {
  }

  /** ... nor its row. */
  lemma AdvanceLeavesRows(w: World, me: string, outcome: Outcome, id: string)
    requires me in w.open && SectionOk(w.open[me], me) && id != me
    ensures var t := Advanced(w, me, outcome);
      && (id in t.store.bans <==> id in w.store.bans)
      && (id in w.store.bans ==> t.store.bans[id] == w.store.bans[id])
  {
  }

  /** The row a section carries belongs to its account. */
  ghost predicate SectionOk(section: Section, id: string) {
    match section
    case EnableStart(reader, seen) => seen.authId == id && (reader.RestorePass? ==> seen.resetSource != ManualUnban)
    case EnableDone(reader, seen) => seen.authId == id && (reader.RestorePass? ==> seen.resetSource != ManualUnban)
    case OpEnableListed(pre) => pre.Some? ==> pre.value.authId == id
    case OpEnabled(pre) => pre.Some? ==> pre.value.authId == id
    case OpEnableDrop(seen) => seen.authId == id
    case OpDisableStart(entry) => entry.authId == id && entry.cpaSynced && Consistent(entry)
    case OpDisabled(entry) => entry.authId == id && entry.cpaSynced && Consistent(entry)
    case OpDisableCleared(entry) => entry.authId == id && entry.cpaSynced && Consistent(entry)
    case _ => true
  }

  /** A row read earlier: the pool still holds it at that revision, or not that revision. */
  ghost predicate Remembers(s: Store, seen: BanEntry) {
    && seen.revision <= s.rev
    && (seen.authId in s.bans && s.bans[seen.authId].revision == seen.revision ==>
          SameButSync(s.bans[seen.authId], seen))
  }

  /** The row a section has read. */
  function Carried(section: Section): Option<BanEntry> {
    match section
    case EnableStart(_, seen) => Some(seen)
    case EnableDone(_, seen) => Some(seen)
    case OpEnableListed(pre) => pre
    case OpEnabled(pre) => pre
    case OpEnableDrop(seen) => Some(seen)
    case _ => None
  }

  ghost predicate SectionRemembers(s: Store, section: Section) {
    Carried(section).Some? ==> Remembers(s, Carried(section).value)
  }

  ghost predicate PoolOk(w: World) {
    && Valid(w.store)
    && AllConsistent(w.store)
    && (forall id | id in w.open :: SectionOk(w.open[id], id) && SectionRemembers(w.store, w.open[id]))
    && (forall t | t in w.rows :: Remembers(w.store, t.1))
  }

  /** Any change of the pool that grows it by at most new revisions keeps what was read. */
  lemma GrowthKeepsMemory(s: Store, op: Op, seen: BanEntry)
    requires Valid(s) && Remembers(s, seen)
    ensures Remembers(Apply(s, op), seen)
  {
    if seen.authId in Apply(s, op).bans {
      StepKeepsRow(s, op, seen.authId);
    }
  }

  /** What a step does to the pool, as a store operation. */
  ghost function PoolOp(w: World, step: Step): Option<Op>
    requires Possible(w, step)
  {
    match step
    case Usage(record, hours, now) => Some(SetOp(DetectBan(record, hours, now).value))
    case QueueFull(id) => Some(SyncOp(id, false, "dispose queue full"))
    case Advance(id, outcome) => Act(w.open[id], RowOf(w, id), id, outcome).pool
    case LateWrite(id, late) => Some(LateOp(id, late))
    case _ => None
  }

  lemma StepMovesPool(w: World, step: Step)
    requires Possible(w, step)
    ensures Next(w, step).store == if PoolOp(w, step).Some? then Apply(w.store, PoolOp(w, step).value) else w.store
  {
  }

  lemma MemoryIsKept(w: World, step: Step, seen: BanEntry)
    requires Valid(w.store) && Possible(w, step) && Remembers(w.store, seen)
    ensures Remembers(Next(w, step).store, seen)
  {
    StepMovesPool(w, step);
    if PoolOp(w, step).Some? {
      GrowthKeepsMemory(w.store, PoolOp(w, step).value, seen);
    }
  }

  /** A section hands on the row it has read, or reads the one that is there. */
  lemma ActHandsOn(section: Section, row: Option<BanEntry>, id: string, outcome: Outcome)
    requires SectionOk(section, id) && (row.Some? ==> row.value.authId == id)
    ensures var e := Act(section, row, id, outcome);
      && (e.next.Some? ==> SectionOk(e.next.value, id))
      && (e.next.Some? && Carried(e.next.value).Some? ==>
            Carried(e.next.value) == Carried(section) || Carried(e.next.value) == row)
  {
  }

  /** Only consistent rows are ever written. */
  lemma WritesAreConsistent(w: World, step: Step)
    requires PoolOk(w) && Possible(w, step)
    ensures var op := PoolOp(w, step);
      op.Some? && op.value.SetOp? ==> Consistent(op.value.entry)
  {
  }

  lemma StepKeepsStore(w: World, step: Step)
    requires PoolOk(w) && Possible(w, step)
    ensures Valid(Next(w, step).store) && AllConsistent(Next(w, step).store)
  {
    StepMovesPool(w, step);
    WritesAreConsistent(w, step);
    hide Next, PoolOp;
    if PoolOp(w, step).Some? {
      OpKeepsConsistent(w.store, PoolOp(w, step).value);
    }
  }

  lemma OpKeepsConsistent(s: Store, op: Op)
    requires Valid(s) && AllConsistent(s) && (op.SetOp? ==> Consistent(op.entry))
    ensures AllConsistent(Apply(s, op))
  {
  }

  lemma StepKeepsPool(w: World, step: Step)
    requires PoolOk(w) && Possible(w, step)
    ensures PoolOk(Next(w, step))
  {
    var t := Next(w, step);
    StepKeepsStore(w, step);
    forall r | r in t.rows ensures Remembers(t.store, r.1) {
      if r in w.rows {
        MemoryIsKept(w, step, r.1);
      }
    }
    forall id | id in t.open ensures SectionOk(t.open[id], id) && SectionRemembers(t.store, t.open[id]) {
      SectionIsKept(w, step, id);
    }
  }

  lemma SectionIsKept(w: World, step: Step, id: string)
    requires PoolOk(w) && Possible(w, step) && id in Next(w, step).open
    ensures SectionOk(Next(w, step).open[id], id) && SectionRemembers(Next(w, step).store, Next(w, step).open[id])
  {
    var section := Next(w, step).open[id];
    if step.Open? && step.id == id {
      if section.EnableStart? {
        assert (section.reader, section.seen) in w.rows;
      }
    } else if step.Advance? && step.id == id {
      ActHandsOn(w.open[id], RowOf(w, id), id, step.outcome);
    }
    if Carried(section).Some? {
      MemoryIsKept(w, step, Carried(section).value);
    }
  }

  lemma StepKeepsAccounts(w: World, step: Step)
    requires PoolOk(w) && AllAccountsOk(w) && Possible(w, step) && Careful(w, step)
    ensures AllAccountsOk(Next(w, step))
  {
    forall id ensures AccountOk(Next(w, step), id) {
      assert AccountOk(w, id);
      if !step.Advance? {
        LockFreeStepKeepsAccounts(w, step, id);
      } else if step.id == id {
        AdvanceKeepsAccount(w, id, step.outcome);
      } else {
        AdvanceLeavesSwitches(w, step.id, step.outcome, id);
        AdvanceLeavesRows(w, step.id, step.outcome, id);
      }
    }
  }

  lemma {:induction false} RunsKeepPool(worlds: seq<World>, steps: seq<Step>, n: nat)
    requires Run(worlds, steps) && n < |worlds|
    ensures PoolOk(worlds[n])
  {
    if n > 0 {
      RunsKeepPool(worlds, steps, n - 1);
      assert Follows(worlds[n - 1], steps[n - 1], worlds[n]);
      StepKeepsPool(worlds[n - 1], steps[n - 1]);
    }
  }

  lemma {:induction false} RunsKeepAccounts(worlds: seq<World>, steps: seq<Step>, n: nat)
    requires Run(worlds, steps) && n < |worlds|
    requires forall i | 0 <= i < n :: Careful(worlds[i], steps[i])
    ensures AllAccountsOk(worlds[n])
  {
    if n > 0 {
      RunsKeepAccounts(worlds, steps, n - 1);
      RunsKeepPool(worlds, steps, n - 1);
      assert Follows(worlds[n - 1], steps[n - 1], worlds[n]);
      StepKeepsAccounts(worlds[n - 1], steps[n - 1]);
    }
  }

  /** In every interleaving, as long as no late success falls on the row of an enabled account
      and no unban without a row on an applied row, an account whose lock is free and whose row
      claims to be applied is not enabled on the remote side. */
  lemma AppliedBansAreApplied(worlds: seq<World>, steps: seq<Step>, n: nat, id: string)
    requires Run(worlds, steps) && n < |worlds|
    requires forall i | 0 <= i < n :: Careful(worlds[i], steps[i])
    requires id !in worlds[n].open && id in worlds[n].store.bans && worlds[n].store.bans[id].cpaSynced
    ensures At(worlds[n], id) != Enabled
  {
    RunsKeepAccounts(worlds, steps, n);
    assert AccountOk(worlds[n], id);
  }

  /** The row in the hands of a section about to compare and delete. */
  function Target(section: Section): Option<BanEntry> {
    if section.EnableDone? || section.OpEnableDrop? then Carried(section) else None
  }

  lemma CompareThenDelete(w: World, id: string, outcome: Outcome)
    requires PoolOk(w) && id in w.open && Target(w.open[id]).Some? && id in w.store.bans
    ensures var t, row, seen := Advanced(w, id, outcome), w.store.bans[id], Target(w.open[id]).value;
      && (row.revision == seen.revision ==> id !in t.store.bans && id !in t.open && SameButSync(row, seen))
      && (row.revision != seen.revision ==> t.store == w.store && id in t.open && t.open[id] == Conflict)
  {
    assert SectionOk(w.open[id], id) && SectionRemembers(w.store, w.open[id]);
  }

  /** No newer ban is deleted: in every interleaving, careful or not, what unban, restore
      and enable remove is the row they had read, but for its sync fields; a row of any
      other revision stays as it is and the section goes on to disable the account. */
  lemma OnlyTheReadRowIsRemoved(worlds: seq<World>, steps: seq<Step>, n: nat, id: string, outcome: Outcome)
    requires Run(worlds, steps) && n < |steps| && steps[n] == Advance(id, outcome)
    requires id in worlds[n].open && Target(worlds[n].open[id]).Some? && id in worlds[n].store.bans
    ensures var w, t := worlds[n], worlds[n + 1];
      var row, seen := w.store.bans[id], Target(w.open[id]).value;
      && (row.revision == seen.revision ==> id !in t.store.bans && id !in t.open && SameButSync(row, seen))
      && (row.revision != seen.revision ==> t.store == w.store && id in t.open && t.open[id] == Conflict)
  {
    RunsKeepPool(worlds, steps, n);
    CompareThenDelete(worlds[n], id, outcome);
    assert Follows(worlds[n], steps[n], worlds[n + 1]);
  }

  /** A conflict ends with the account disabled and the row marked applied, or with the
      row marked unsynced; never with a claim that is not true. */
  lemma ConflictIsSettled(w: World, id: string, call: Outcome, write: Outcome)
    requires id in w.open && w.open[id] == Conflict && id in w.store.bans
    requires Possible(w, Advance(id, call))
    ensures var t := Advanced(w, id, call);
      id in t.open && var u := Advanced(t, id, write);
      && id !in u.open && id in u.store.bans && Alike(u.store.bans[id], w.store.bans[id])
      && (u.store.bans[id].cpaSynced <==> call == Ok)
      && (call == Ok ==> At(u, id) == Disabled)
      && (call != Ok ==> At(u, id) == At(w, id))
  {
  }

  /** The restore pass removes free-usage rows only. */
  lemma RestoreRemovesFreeUsageOnly(worlds: seq<World>, steps: seq<Step>, n: nat, id: string, outcome: Outcome)
    requires Run(worlds, steps) && n < |steps| && steps[n] == Advance(id, outcome)
    requires id in worlds[n].open && worlds[n].open[id].EnableDone? && worlds[n].open[id].reader.RestorePass?
    ensures id in worlds[n].store.bans && id !in worlds[n + 1].store.bans ==>
      worlds[n].store.bans[id].errorCode == FreeUsage
  {
    RunsKeepPool(worlds, steps, n);
    assert Follows(worlds[n], steps[n], worlds[n + 1]);
    assert SectionOk(worlds[n].open[id], id);
    if id in worlds[n].store.bans {
      CompareThenDelete(worlds[n], id, outcome);
      assert Consistent(worlds[n].store.bans[id]);
    }
  }

  // ---- What the restore pass removes ------------------------------------------------

  /** What a section of unban or restore compares with was read at an earlier step. */
  lemma {:induction false} RowsWereRead(worlds: seq<World>, steps: seq<Step>, n: nat, reader: Reader, seen: BanEntry)
    returns (r: nat)
    requires Run(worlds, steps) && n < |worlds| && (reader, seen) in worlds[n].rows
    ensures r < n && steps[r] == Read(reader, seen.authId)
    ensures seen.authId in worlds[r].store.bans && seen == worlds[r].store.bans[seen.authId]
    decreases n
  {
    assert Follows(worlds[n - 1], steps[n - 1], worlds[n]);
    if (reader, seen) in worlds[n - 1].rows {
      r := RowsWereRead(worlds, steps, n - 1, reader, seen);
    } else {
      RunsKeepPool(worlds, steps, n - 1);
      r := n - 1;
    }
  }

  /** The reader and the row of a section that enables first. */
  function Comparing(section: Section): Option<(Reader, BanEntry)> {
    match section
    case EnableStart(reader, seen) => Some((reader, seen))
    case EnableDone(reader, seen) => Some((reader, seen))
    case _ => None
  }

  lemma ComparingStays(w: World, step: Step, t: World, id: string)
    requires Follows(w, step, t) && id in t.open && Comparing(t.open[id]).Some?
    ensures Comparing(t.open[id]).value in w.rows || (id in w.open && Comparing(w.open[id]) == Comparing(t.open[id]))
  {
    hide Apply, DetectBan;
    if step.Advance? && step.id == id {
      ActComparesTheSame(w.open[id], RowOf(w, id), id, step.outcome);
      hide Act;
    }
  }

  lemma ActComparesTheSame(section: Section, row: Option<BanEntry>, id: string, outcome: Outcome)
    requires Act(section, row, id, outcome).next.Some?
    requires Comparing(Act(section, row, id, outcome).next.value).Some?
    ensures Comparing(Act(section, row, id, outcome).next.value) == Comparing(section)
  {
  }

  lemma {:induction false} SeenIsARow(worlds: seq<World>, steps: seq<Step>, n: nat, id: string)
    requires Run(worlds, steps) && n < |worlds| && id in worlds[n].open && Comparing(worlds[n].open[id]).Some?
    ensures Comparing(worlds[n].open[id]).value in worlds[n].rows
    decreases n
  {
    hide Possible, Next, Comparing;
    var s := worlds[n - 1];
    assert Follows(s, steps[n - 1], worlds[n]);
    ComparingStays(s, steps[n - 1], worlds[n], id);
    RowsStay(s, steps[n - 1]);
    if Comparing(worlds[n].open[id]).value !in s.rows {
      SeenIsARow(worlds, steps, n - 1, id);
    }
  }

  lemma RowsStay(w: World, step: Step)
    requires Possible(w, step)
    ensures w.rows <= Next(w, step).rows
  {
  }

  /** When a restore pass of time `now` removes a row, the row's window is over exactly when it
      was over at the step where the pass read it: the look the code does not take there. */
  lemma RemovedIsOverIff(worlds: seq<World>, steps: seq<Step>, n: nat, id: string, outcome: Outcome, now: Time)
    returns (r: nat)
    requires Run(worlds, steps) && n < |steps| && steps[n] == Advance(id, outcome)
    requires id in worlds[n].open && worlds[n].open[id].EnableDone? && worlds[n].open[id].reader == RestorePass(now)
    requires id in worlds[n].store.bans && id !in worlds[n + 1].store.bans
    ensures r < n && steps[r] == Read(RestorePass(now), id) && id in worlds[r].store.bans
    ensures worlds[r].store.bans[id] == worlds[n].open[id].seen
    ensures SameButSync(worlds[r].store.bans[id], worlds[n].store.bans[id])
    ensures worlds[n].store.bans[id].resetAt <= now <==> worlds[r].store.bans[id].resetAt <= now
  {
    var seen := worlds[n].open[id].seen;
    RunsKeepPool(worlds, steps, n);
    assert SectionOk(worlds[n].open[id], id);
    OnlyTheReadRowIsRemoved(worlds, steps, n, id, outcome);
    SeenIsARow(worlds, steps, n, id);
    r := RowsWereRead(worlds, steps, n, RestorePass(now), seen);
  }

  /** The store operations of a run, in order. */
  ghost function OpsOf(worlds: seq<World>, steps: seq<Step>, n: nat): seq<Op>
    requires Run(worlds, steps) && n <= |steps|
  {
    if n == 0 then []
    else
      assert Follows(worlds[n - 1], steps[n - 1], worlds[n]);
      var op := PoolOp(worlds[n - 1], steps[n - 1]);
      OpsOf(worlds, steps, n - 1) + if op.Some? then [op.value] else []
  }

  ghost function StoresOf(worlds: seq<World>, steps: seq<Step>, n: nat): seq<Store>
    requires Run(worlds, steps) && n <= |steps|
  {
    if n == 0 then [worlds[0].store]
    else
      assert Follows(worlds[n - 1], steps[n - 1], worlds[n]);
      StoresOf(worlds, steps, n - 1) + if PoolOp(worlds[n - 1], steps[n - 1]).Some? then [worlds[n].store] else []
  }

  /** The pool of a run goes through a run of the store. */
  lemma {:induction false} PoolRuns(worlds: seq<World>, steps: seq<Step>, i: nat, n: nat)
    requires Run(worlds, steps) && i <= n <= |steps|
    ensures BanStore.Run(StoresOf(worlds, steps, n), OpsOf(worlds, steps, n))
    ensures StoresOf(worlds, steps, n)[|OpsOf(worlds, steps, n)|] == worlds[n].store
    ensures |OpsOf(worlds, steps, i)| <= |OpsOf(worlds, steps, n)|
    ensures StoresOf(worlds, steps, n)[|OpsOf(worlds, steps, i)|] == worlds[i].store
    decreases n
  {
    hide PoolOp, Possible, Next, Apply;
    if n > 0 {
      PoolRuns(worlds, steps, if i < n then i else n - 1, n - 1);
      assert Follows(worlds[n - 1], steps[n - 1], worlds[n]);
      StepMovesPool(worlds[n - 1], steps[n - 1]);
    }
  }

  /** A pass that scans at step `i` and reads the row at step `r` reads one that is over
      exactly when all entries are that were recorded since the row was last brought back, or
      since the scan if it stayed, from the last reclassification on. */
  lemma ReadIsOverIff(worlds: seq<World>, steps: seq<Step>, i: nat, r: nat, id: string, now: Time)
    requires Run(worlds, steps) && i <= r <= |steps| && id in worlds[r].store.bans
    ensures var stores, ops, from := StoresOf(worlds, steps, r), OpsOf(worlds, steps, r), |OpsOf(worlds, steps, i)|;
      && BanStore.Run(stores, ops) && from <= |ops|
      && stores[from] == worlds[i].store && stores[|ops|] == worlds[r].store
      && var j := PresentSince(stores, id, from, |ops|);
         worlds[r].store.bans[id].resetAt <= now <==>
           EventuallyOver(stores[j].bans[id], WrittenTo(ops, j, |ops|, id), now)
  {
    PoolRuns(worlds, steps, i, r);
    PickedRowIsOverIff(StoresOf(worlds, steps, r), OpsOf(worlds, steps, r), |OpsOf(worlds, steps, i)|,
                       |OpsOf(worlds, steps, r)|, id, now);
  }

  // ---- Where the protocol does not hold ---------------------------------------

  /** The retry's late success is harmful exactly when the row is there and the account
      has been enabled since, whoever holds the lock. */
  lemma LateSuccessIsHarmlessIff(w: World, id: string)
    requires (id, NowApplied) in w.late
    ensures Agrees(Next(w, LateWrite(id, NowApplied)), id) <==> !(id in w.store.bans && At(w, id) == Enabled)
  {
  }

  /** A blind unban is harmful exactly when a row has appeared and been applied meanwhile. */
  lemma BlindUnbanIsHarmlessIff(w: World, id: string)
    requires id in w.open && w.open[id] == BlindStart && At(w, id) != Missing
    ensures Agrees(Advanced(w, id, Ok), id) <==> !(id in w.store.bans && w.store.bans[id].cpaSynced)
  {
  }

  /** A free-usage failure of account "a" with a retry date. */
  function Failure(at: Time): UsageRecord {
    UsageRecord("xai", true, "a", 429, FreeUsage, false, false, ResetHeaders([], Some(RetryAt(at)), None), "")
  }

  lemma FailureIsDetected(at: Time, now: Time)
    requires now < at <= now + MAX64
    ensures var ban := DetectBan(Failure(at), 24, now);
      && ban.Some? && ban.value.authId == "a" && ban.value.resetAt == at
      && ban.value.errorCode == FreeUsage && ban.value.resetSource == HeaderRelative && !ban.value.cpaSynced
  {
    assert Text.Trimmed("a");
  }

  const START := World(EMPTY, map["a" := Enabled], map[], {}, {})

  lemma Extended(worlds: seq<World>, steps: seq<Step>, step: Step) returns (ws: seq<World>, ss: seq<Step>)
    requires Run(worlds, steps) && Possible(worlds[|steps|], step)
    ensures Run(ws, ss) && |ss| == |steps| + 1 && ss[|steps|] == step && ss[..|steps|] == steps
    ensures ws[|ss|] == Next(worlds[|steps|], step) && ws[..|worlds|] == worlds
  {
    ws, ss := worlds + [Next(worlds[|steps|], step)], steps + [step];
    assert Follows(worlds[|steps|], step, ws[|ss|]);
    hide Follows, Possible, Next;
    forall i | 0 <= i < |ss| ensures Follows(ws[i], ss[i], ws[i + 1]) {
      if i < |steps| {
        assert Follows(worlds[i], steps[i], worlds[i + 1]);
      }
    }
  }

  /** An enabled account "a" is banned, with the row unsynced. */
  lemma FirstBan(wait: int) returns (ws: seq<World>, ss: seq<Step>)
    requires 0 < wait <= MAX64
    ensures Run(ws, ss) && |ss| == 1
    ensures var w := ws[|ss|];
      && w.open == map[] && w.late == {} && At(w, "a") == Enabled
      && "a" in w.store.bans && !w.store.bans["a"].cpaSynced && w.store.bans["a"].revision == 1
      && w.store.bans["a"].resetAt == wait && w.store.bans["a"].errorCode == FreeUsage
      && w.store.bans["a"].authId == "a" && w.store.bans["a"].resetSource == HeaderRelative
  {
    FailureIsDetected(wait, 0);
    ws, ss := Extended([START], [], Usage(Failure(wait), 24, 0));
  }

  /** The row is looked up before the ban, the ban is applied, and then the blind unban
      enables the account under the applied row. */
  lemma BlindUnbanBreaks() returns (ws: seq<World>, ss: seq<Step>)
    ensures Run(ws, ss)
    ensures var w := ws[|ss|]; "a" !in w.open && !Agrees(w, "a")
  {
    ws, ss := FirstBan(10);
    ws, ss := Extended(ws, ss, Open("a", DisposeStart(1)));
    ws, ss := Extended(ws, ss, Advance("a", Ok));
    ws, ss := Extended(ws, ss, Advance("a", Ok));
    ws, ss := Extended(ws, ss, Advance("a", Ok));
    assert ws[|ss|].store.bans["a"].cpaSynced;
    ws, ss := Extended(ws, ss, Open("a", BlindStart));
    ws, ss := Extended(ws, ss, Advance("a", Ok));
  }

  lemma RetryLeavesSuccess() returns (ws: seq<World>, ss: seq<Step>)
    ensures Run(ws, ss)
    ensures var w := ws[|ss|];
      && w.open == map[] && At(w, "a") == Disabled && w.late == {("a", NowApplied)}
      && "a" in w.store.bans && w.store.bans["a"].authId == "a"
  {
    ws, ss := FirstBan(10);
    ws, ss := Extended(ws, ss, Open("a", RetryStart(1)));
    ws, ss := Extended(ws, ss, Advance("a", Ok));
  }

  lemma UnbanMeanwhile() returns (ws: seq<World>, ss: seq<Step>)
    ensures Run(ws, ss)
    ensures var w := ws[|ss|];
      "a" !in w.open && At(w, "a") == Enabled && w.late == {("a", NowApplied)} && "a" !in w.store.bans
  {
    ws, ss := RetryLeavesSuccess();
    ws, ss := Extended(ws, ss, Read(Unban, "a"));
    var seen := ws[|ss|].store.bans["a"];
    assert (Unban, seen) in ws[|ss|].rows;
    ws, ss := Extended(ws, ss, Open("a", EnableStart(Unban, seen)));
    ws, ss := Extended(ws, ss, Advance("a", Ok));
    ws, ss := Extended(ws, ss, Advance("a", Ok));
  }

  /** The retry disables and releases the lock, an unban enables and drops the row, a new
      failure records another one, and the retry's success lands on that row. */
  lemma LateSuccessBreaks() returns (ws: seq<World>, ss: seq<Step>)
    ensures Run(ws, ss)
    ensures var w := ws[|ss|]; "a" !in w.open && !Agrees(w, "a")
  {
    ws, ss := UnbanMeanwhile();
    FailureIsDetected(15, 5);
    ws, ss := Extended(ws, ss, Usage(Failure(15), 24, 5));
    assert "a" in ws[|ss|].store.bans;
    ws, ss := Extended(ws, ss, LateWrite("a", NowApplied));
  }

  lemma ExtendedBan() returns (ws: seq<World>, ss: seq<Step>)
    ensures Run(ws, ss) && |ss| == 2
    ensures "a" in ws[1].store.bans && ws[1].store.bans["a"].resetAt <= 20
    ensures var w := ws[2];
      && w.open == map[] && At(w, "a") == Enabled && "a" in w.store.bans && w.store.bans["a"].authId == "a"
      && w.store.bans["a"].resetAt == 120 && w.store.bans["a"].resetSource != ManualUnban
  {
    ws, ss := FirstBan(10);
    FailureIsDetected(120, 20);
    ws, ss := Extended(ws, ss, Usage(Failure(120), 24, 20));
  }

  /** A restore pass of time 20 reads the row and takes the lock. */
  lemma PickedUp(before: seq<World>, taken: seq<Step>) returns (ws: seq<World>, ss: seq<Step>)
    requires Run(before, taken)
    requires var w := before[|taken|];
      && w.open == map[] && "a" in w.store.bans && w.store.bans["a"].authId == "a"
      && w.store.bans["a"].resetSource != ManualUnban
    ensures Run(ws, ss) && |ss| == |taken| + 2 && ws[..|before|] == before && ss[|taken|] == Read(RestorePass(20), "a")
    ensures var v, w := before[|taken|], ws[|ss|];
      && w.store == v.store && w.cpa == v.cpa
      && w.open == map["a" := EnableStart(RestorePass(20), v.store.bans["a"])]
  {
    var seen := before[|taken|].store.bans["a"];
    ws, ss := Extended(before, taken, Read(RestorePass(20), "a"));
    assert (RestorePass(20), seen) in ws[|ss|].rows && "a" !in ws[|ss|].open;
    var read := ss;
    ws, ss := Extended(ws, ss, Open("a", EnableStart(RestorePass(20), seen)));
    assert ss[..|read|] == read;
  }

  lemma EnabledAndDropped(before: seq<World>, taken: seq<Step>, seen: BanEntry) returns (ws: seq<World>, ss: seq<Step>)
    requires Run(before, taken)
    requires var w := before[|taken|];
      && w.open == map["a" := EnableStart(RestorePass(20), seen)] && At(w, "a") == Enabled
      && "a" in w.store.bans && w.store.bans["a"] == seen
    ensures Run(ws, ss) && |ss| == |taken| + 2 && ws[..|before|] == before && ss[..|taken|] == taken
    ensures ws[|taken| + 1].store == before[|taken|].store
    ensures "a" !in ws[|ss|].store.bans && At(ws[|ss|], "a") == Enabled
  {
    ws, ss := Extended(before, taken, Advance("a", Ok));
    assert "a" in ws[|ss|].open && At(ws[|ss|], "a") == Enabled;
    ws, ss := Extended(ws, ss, Advance("a", Ok));
  }

  /** The restore pass of time 20 finds the row over; a new failure extends it to 120; the
      pass picks the extended row up and deletes it, with its window still open. */
  lemma RestoreCanRemoveAnOpenWindow() returns (ws: seq<World>, ss: seq<Step>)
    ensures Run(ws, ss) && |ss| == 6
    ensures "a" in ws[1].store.bans && ws[1].store.bans["a"].resetAt <= 20
    ensures ss[2] == Read(RestorePass(20), "a")
    ensures "a" in ws[5].store.bans && ws[5].store.bans["a"].resetAt == 120 && "a" !in ws[6].store.bans
    ensures At(ws[6], "a") == Enabled
  {
    hide Run, Follows;
    ws, ss := ExtendedBan();
    var w0, s0 := ws, ss;
    var seen := ws[2].store.bans["a"];
    ws, ss := PickedUp(ws, ss);
    var w1, s1 := ws, ss;
    ws, ss := EnabledAndDropped(ws, ss, seen);
    assert w1[..|w0|] == w0 && ws[..|w1|] == w1 && ws[1] == w1[1] == w0[1];
    assert ss[..4] == s1 && ss[2] == s1[2];
    assert ws[5].store == w1[4].store;
  }
}
