/** What the disable retry of the restore pass records about its call, and which accounts
    lose their row. */
module Outcomes {
  import opened Bans
  import opened BanStore
  import opened Reconcile

  // ---- The retry's outcome -----------------------------------------------------------

  /** The call that ended at this step of a retry, and what it did to the account. */
  ghost predicate CameFrom(w: World, step: Step, t: World, id: string, late: Late) {
    && step.Advance? && step.id == id && id in w.open && w.open[id].RetryStart?
    && match late
       case NowApplied => step.outcome == Ok && At(t, id) == Disabled
       case NotApplied => step.outcome == Failed && At(t, id) == At(w, id)
       case Absent(expected) => step.outcome == NotFound && At(w, id) == Missing && w.open[id] == RetryStart(expected)
  }

  lemma LateAppears(w: World, step: Step, t: World, id: string, late: Late)
    requires Follows(w, step, t) && (id, late) in t.late && (id, late) !in w.late
    ensures CameFrom(w, step, t, id, late)
  {
    hide Apply, DetectBan;
  }

  /** Whatever a retry is about to record is how its call ended: success only after the
      account was disabled, failure only after a failed call that changed nothing, absence
      only when the account was missing, for the revision the retry had read. */
  lemma {:induction false} RetryRecordsItsCall(
      worlds: seq<World>, steps: seq<Step>, n: nat, id: string, late: Late)
    returns (m: nat)
    requires Reconcile.Run(worlds, steps) && n < |worlds| && (id, late) in worlds[n].late
    ensures m < n && CameFrom(worlds[m], steps[m], worlds[m + 1], id, late)
    decreases n
  {
    hide Possible, Next, CameFrom;
    assert Follows(worlds[n - 1], steps[n - 1], worlds[n]);
    if (id, late) in worlds[n - 1].late {
      m := RetryRecordsItsCall(worlds, steps, n - 1, id, late);
    } else {
      LateAppears(worlds[n - 1], steps[n - 1], worlds[n], id, late);
      m := n - 1;
    }
  }

  /** A retry gives up the lock, leaves the pool alone, and has its outcome still to record. */
  lemma RetryLeavesOutcome(w: World, id: string, outcome: Outcome, t: World) returns (late: Late)
    requires Follows(w, Advance(id, outcome), t) && w.open[id].RetryStart?
    ensures id !in t.open && t.store == w.store && (id, late) in t.late
    ensures CameFrom(w, Advance(id, outcome), t, id, late)
  {
    late := match outcome case Ok => NowApplied case NotFound => Absent(w.open[id].expected) case Failed => NotApplied;
  }

  /** It stays to be recorded until it is. */
  lemma LateStays(w: World, step: Step, t: World, id: string, late: Late)
    requires Follows(w, step, t) && (id, late) in w.late && (id, late) !in t.late
    ensures step == LateWrite(id, late)
  {
    hide Apply, DetectBan;
  }

  /** What recording does to the row, and to nothing else. */
  lemma RecordedOutcome(w: World, id: string, late: Late, t: World)
    requires Follows(w, LateWrite(id, late), t)
    ensures t.cpa == w.cpa && t.open == w.open && forall other | other != id :: RowOf(t, other) == RowOf(w, other)
    ensures late.Absent? ==>
      RowOf(t, id) == if id in w.store.bans && w.store.bans[id].revision == late.expected then None else RowOf(w, id)
    ensures !late.Absent? ==> (id in t.store.bans <==> id in w.store.bans)
    ensures !late.Absent? && id in w.store.bans ==>
      Alike(t.store.bans[id], w.store.bans[id]) && (t.store.bans[id].cpaSynced <==> late == NowApplied)
  {
  }

  /** So a late write marks a row as applied only if that retry's call had disabled the
      account, and a failed retry leaves the row unsynced for the next pass. */
  lemma RetryTellsTheTruth(worlds: seq<World>, steps: seq<Step>, n: nat, id: string, late: Late)
    returns (m: nat)
    requires Reconcile.Run(worlds, steps) && n < |steps| && steps[n] == LateWrite(id, late)
    requires id in worlds[n + 1].store.bans
    ensures m < n && steps[m].Advance? && steps[m].id == id && id in worlds[m].open && worlds[m].open[id].RetryStart?
    ensures steps[m].outcome == Ok ==>
      At(worlds[m + 1], id) == Disabled && worlds[n + 1].store.bans[id].cpaSynced
    ensures steps[m].outcome == Failed ==>
      At(worlds[m + 1], id) == At(worlds[m], id) && !worlds[n + 1].store.bans[id].cpaSynced
    ensures steps[m].outcome == NotFound ==>
      At(worlds[m], id) == Missing && worlds[n + 1].store.bans[id].revision != worlds[m].open[id].expected &&
      RowOf(worlds[n + 1], id) == RowOf(worlds[n], id)
  {
    hide Reconcile.Run, Next;
    StepOf(worlds, steps, n);
    m := RetryRecordsItsCall(worlds, steps, n, id, late);
    RecordedOutcome(worlds[n], id, late, worlds[n + 1]);
  }

  lemma StepOf(worlds: seq<World>, steps: seq<Step>, n: nat)
    requires Reconcile.Run(worlds, steps) && n < |steps|
    ensures |worlds| == |steps| + 1 && Follows(worlds[n], steps[n], worlds[n + 1])
  {
  }

  // ---- Which accounts lose their row ----------------------------------------------------

  /** An account that is gone stays gone. */
  lemma StaysMissing(w: World, step: Step, t: World, id: string)
    requires Follows(w, step, t) && At(w, id) == Missing
    ensures At(t, id) == Missing
  {
    hide Apply, DetectBan;
  }

  /** Sections on the way to dropping a row have lifted the ban on the remote side. */
  predicate Lifted(section: Section, at: Switch) {
    match section
    case EnableDone(_, _) => at != Disabled
    case OpEnabled(_) => at != Disabled
    case OpEnableDrop(_) => at != Disabled
    case OpDeleted => at == Missing
    case _ => true
  }

  ghost predicate AllLifted(w: World) {
    && (forall id | id in w.open :: Lifted(w.open[id], At(w, id)))
    && (forall l | l in w.late && l.1.Absent? :: At(w, l.0) == Missing)
  }

  lemma SectionStaysLifted(w: World, step: Step, t: World, id: string)
    requires Follows(w, step, t) && id in t.open && (id in w.open ==> Lifted(w.open[id], At(w, id)))
    ensures Lifted(t.open[id], At(t, id))
  {
    hide Apply, DetectBan;
    if step.Advance? && step.id == id {
      ActLifts(w.open[id], RowOf(w, id), id, step.outcome, At(w, id));
      hide Act, Lifted;
    } else if step.Advance? {
      AdvanceLeavesSwitches(w, step.id, step.outcome, id);
      hide Act, Lifted;
    } else {
      hide Act;
    }
  }

  lemma ActLifts(section: Section, row: Option<BanEntry>, id: string, outcome: Outcome, at: Switch)
    requires Lifted(section, at) && (outcome.NotFound? <==> at.Missing?)
    ensures var e := Act(section, row, id, outcome);
      e.next.Some? ==> Lifted(e.next.value, if e.to.Some? then e.to.value else at)
  {
  }

  lemma StepKeepsLifted(w: World, step: Step, t: World)
    requires Follows(w, step, t) && AllLifted(w)
    ensures AllLifted(t)
  {
    hide Follows, Lifted;
    forall id | id in t.open ensures Lifted(t.open[id], At(t, id)) {
      SectionStaysLifted(w, step, t, id);
    }
    forall l | l in t.late && l.1.Absent? ensures At(t, l.0) == Missing {
      if l !in w.late {
        assert (l.0, l.1) == l;
        LateAppears(w, step, t, l.0, l.1);
      }
      StaysMissing(w, step, t, l.0);
    }
  }

  lemma {:induction false} RunsKeepLifted(worlds: seq<World>, steps: seq<Step>, n: nat)
    requires Reconcile.Run(worlds, steps) && n < |worlds|
    ensures AllLifted(worlds[n])
    decreases n
  {
    hide Possible, Next;
    if n > 0 {
      assert Follows(worlds[n - 1], steps[n - 1], worlds[n]);
      RunsKeepLifted(worlds, steps, n - 1);
      StepKeepsLifted(worlds[n - 1], steps[n - 1], worlds[n]);
    } else {
      assert worlds[0].open == map[] && worlds[0].late == {};
    }
  }

  lemma WhoDropsRows(w: World, step: Step, t: World, id: string)
    requires Follows(w, step, t) && PoolOk(w) && id in w.store.bans && id !in t.store.bans
    ensures
      || (step.LateWrite? && step.id == id && step.late.Absent? && (id, step.late) in w.late)
      || (step.Advance? && step.id == id && id in w.open &&
          (var section := w.open[id];
           || ((section.EnableDone? || section.OpEnableDrop? || section.OpDeleted?) && t.cpa == w.cpa)
           || (section.OpDisabled? && id in t.open && t.open[id] == OpDisableCleared(section.entry))))
  {
    hide DetectBan, Merged;
    if step.Advance? {
      assert SectionOk(w.open[step.id], step.id);
      if step.id == id {
        hide PoolOk;
        HolderDropsRow(w, id, step.outcome);
      } else {
        AdvanceLeavesRows(w, step.id, step.outcome, id);
        assert false;
      }
    } else {
      hide PoolOk, Act;
    }
  }

  lemma HolderDropsRow(w: World, id: string, outcome: Outcome)
    requires id in w.open && SectionOk(w.open[id], id) && id in w.store.bans
    requires id !in Advanced(w, id, outcome).store.bans
    ensures var section, t := w.open[id], Advanced(w, id, outcome);
      || ((section.EnableDone? || section.OpEnableDrop? || section.OpDeleted?) && t.cpa == w.cpa)
      || (section.OpDisabled? && id in t.open && t.open[id] == OpDisableCleared(section.entry))
  {
    ActRemoves(w.open[id], RowOf(w, id), id, outcome);
    var e := Act(w.open[id], RowOf(w, id), id, outcome);
    if e.pool.Some? && (e.pool.value.SetOp? || e.pool.value.SyncOp?) {
      WritesKeepRows(w.store, e.pool.value, id);
    }
    hide Act, Apply;
  }

  lemma ActRemoves(section: Section, row: Option<BanEntry>, id: string, outcome: Outcome)
    ensures var e := Act(section, row, id, outcome);
      e.pool.Some? && !e.pool.value.SetOp? && !e.pool.value.SyncOp? ==>
        || ((section.EnableDone? || section.OpEnableDrop? || section.OpDeleted?) && e.to.None?)
        || (section.OpDisabled? && e.next == Some(OpDisableCleared(section.entry)))
  {
  }

  lemma WritesKeepRows(s: Store, op: Op, id: string)
    requires id in s.bans && (op.SetOp? || op.SyncOp?)
    ensures id in Apply(s, op).bans
  {
    hide Merged;
  }

  /** A ban is dropped only from an account that is not disabled: in every interleaving,
      careful or not, the account that loses its row has been enabled or is gone, unless an
      operator has just disabled it and the section is about to record the new ban. */
  lemma DroppedBansAreLifted(worlds: seq<World>, steps: seq<Step>, n: nat, id: string)
    requires Reconcile.Run(worlds, steps) && n < |steps|
    requires id in worlds[n].store.bans && id !in worlds[n + 1].store.bans
    ensures
      || At(worlds[n + 1], id) != Disabled
      || (id in worlds[n + 1].open && worlds[n + 1].open[id].OpDisableCleared?)
  {
    var w, t := worlds[n], worlds[n + 1];
    StepOf(worlds, steps, n);
    RunsKeepPool(worlds, steps, n);
    RunsKeepLifted(worlds, steps, n);
    hide Reconcile.Run, Follows, PoolOk;
    WhoDropsRows(w, steps[n], t, id);
    if steps[n].LateWrite? {
      StaysMissing(w, steps[n], t, id);
    } else {
      assert Lifted(w.open[id], At(w, id));
    }
  }

  /** A deleted account keeps no row; a delete that fails changes nothing. */
  lemma DeletedAccountHasNoRow(w: World, id: string, call: Outcome, write: Outcome)
    requires id in w.open && w.open[id] == OpDeleteStart && Possible(w, Advance(id, call))
    ensures var t := Advanced(w, id, call);
      if call == Failed then t == w.(open := w.open - {id})
      else
        && At(t, id) == Missing && t.store == w.store && id in t.open
        && (var u := Advanced(t, id, write);
            id !in u.open && id !in u.store.bans && At(u, id) == Missing &&
            forall other | other != id :: RowOf(u, other) == RowOf(w, other))
  {
    DeleteCalls(w, id, call);
    if call != Failed {
      DeleteClears(Advanced(w, id, call), id, write);
    }
    hide Advanced;
  }

  lemma DeleteCalls(w: World, id: string, call: Outcome)
    requires id in w.open && w.open[id] == OpDeleteStart && Possible(w, Advance(id, call))
    ensures var t := Advanced(w, id, call);
      if call == Failed then t == w.(open := w.open - {id})
      else At(t, id) == Missing && t.store == w.store && id in t.open && t.open[id] == OpDeleted
  {
    hide Apply;
  }

  lemma DeleteClears(w: World, id: string, write: Outcome)
    requires id in w.open && w.open[id] == OpDeleted
    ensures var t := Advanced(w, id, write);
      && id !in t.open && id !in t.store.bans && At(t, id) == At(w, id)
      && forall other | other != id :: RowOf(t, other) == RowOf(w, other)
  {
  }
}
