/** The locked sections as they are written: each method is one section over the pool and
    the remote accounts, with at most one ban recorded by the usage path during its call. */
module Sections {
  import opened Bans
  import opened BanStore
  import opened Reconcile
  import Text

  function Answer(at: Switch, fail: bool): Outcome {
    if at == Missing then NotFound else if fail then Failed else Ok
  }

  class Accounts {
    var switches: map<string, Switch>

    function Get(id: string): Switch
      reads this
    {
      if id in switches then switches[id] else Missing
    }

    method Call(id: string, to: Switch, fail: bool) returns (o: Outcome)
      modifies this
      ensures o == Answer(old(Get(id)), fail)
      ensures switches == if o.Ok? then old(switches)[id := to] else old(switches)
    {
      o := Answer(Get(id), fail);
      if o.Ok? {
        switches := switches[id := to];
      }
    }
  }

  // ---- A section on its own -----------------------------------------------------------

  /** The pool, the accounts and where the section stands, if it still holds the lock. */
  datatype Spot = Spot(pool: Store, switches: map<string, Switch>, section: Option<Section>)

  /** The sections whose next action is the remote call a ban can arrive in. */
  predicate Calls(section: Section) {
    section.DisposeStart? || section.EnableStart? || section.OpEnableListed? || section.OpDisableStart?
  }

  function Pooled(pool: Store, ban: Option<BanEntry>): Store {
    if ban.Some? then Put(pool, ban.value) else pool
  }

  function In(pool: Store, id: string): Option<BanEntry> {
    if id in pool.bans then Some(pool.bans[id]) else None
  }

  function Look(switches: map<string, Switch>, id: string): Switch {
    if id in switches then switches[id] else Missing
  }

  /** The section's next action, with the ban if it arrives in it. */
  function Onward(s: Spot, id: string, fail: bool, ban: Option<BanEntry>): Spot
    requires s.section.Some?
  {
    var e := Act(s.section.value, In(s.pool, id), id, Answer(Look(s.switches, id), fail));
    Spot(Pooled(if e.pool.Some? then Apply(s.pool, e.pool.value) else s.pool,
                if Calls(s.section.value) then ban else None),
         if e.to.Some? then s.switches[id := e.to.value] else s.switches,
         e.next)
  }

  /** The section run to its end, its k-th action failing as `fails[k]` says, with `ban`
      recorded during its first call. */
  function Alone(s: Spot, id: string, fails: seq<bool>, ban: Option<BanEntry>): Spot
    decreases |fails|
  {
    if s.section.None? || fails == [] then s
    else Alone(Onward(s, id, fails[0], ban), id, fails[1..], if Calls(s.section.value) then None else ban)
  }

  ghost function WorldOf(s: Spot, id: string): World {
    World(s.pool, s.switches, if s.section.Some? then map[id := s.section.value] else map[], {}, {})
  }

  /** Every action is a step of the protocol, and so is the arrival of a ban. */
  lemma OnwardIsAStep(s: Spot, id: string, fail: bool, ban: Option<BanEntry>)
    requires s.section.Some? && !s.section.value.RetryStart?
    ensures var step := Advance(id, Answer(Look(s.switches, id), fail));
      var t := WorldOf(Onward(s, id, fail, None), id);
      && Follows(WorldOf(s, id), step, t)
      && WorldOf(Onward(s, id, fail, ban), id).(store := t.store) == t
      && Onward(s, id, fail, ban).pool == if Calls(s.section.value) then Pooled(t.store, ban) else t.store
  {
    NothingLate(s.section.value, In(s.pool, id), id, Answer(Look(s.switches, id), fail));
    hide Act, Apply, Put;
    var w, o := WorldOf(s, id), Answer(Look(s.switches, id), fail);
    var t, u := WorldOf(Onward(s, id, fail, None), id), Advanced(w, id, o);
    assert RowOf(w, id) == In(s.pool, id) && At(w, id) == Look(s.switches, id);
    assert t.open == u.open && t.store == u.store && t.cpa == u.cpa;
  }

  lemma NothingLate(section: Section, row: Option<BanEntry>, id: string, o: Outcome)
    requires !section.RetryStart?
    ensures Act(section, row, id, o).late.None?
  {
  }

  lemma ArrivalKeepsAccount(s: Spot, id: string, ban: Option<BanEntry>)
    requires AccountOk(WorldOf(s, id), id) && (ban.Some? ==> !ban.value.cpaSynced)
    ensures AccountOk(WorldOf(s.(pool := Pooled(s.pool, ban)), id), id)
  {
  }

  lemma StaysCareful(section: Section, row: Option<BanEntry>, id: string, o: Outcome)
    requires !section.BlindStart? && !section.RetryStart?
    ensures var e := Act(section, row, id, o); e.next.Some? ==> !e.next.value.BlindStart? && !e.next.value.RetryStart?
  {
  }

  /** A section that runs to its end leaves pool and account in agreement, whichever calls
      fail and whatever ban arrives meanwhile. */
  lemma {:induction false} AloneKeepsAgreement(s: Spot, id: string, fails: seq<bool>, ban: Option<BanEntry>)
    requires AccountOk(WorldOf(s, id), id) && (ban.Some? ==> !ban.value.cpaSynced)
    requires s.section.Some? ==> !s.section.value.BlindStart? && !s.section.value.RetryStart?
    ensures var t := Alone(s, id, fails, ban); t.section.None? ==> Agrees(WorldOf(t, id), id)
    decreases |fails|
  {
    hide Act, Apply, Put, Holding;
    if s.section.Some? && fails != [] {
      var o := Answer(Look(s.switches, id), fails[0]);
      var t := Onward(s, id, fails[0], None);
      OnwardIsAStep(s, id, fails[0], ban);
      AdvanceKeepsAccount(WorldOf(s, id), id, o);
      StaysCareful(s.section.value, In(s.pool, id), id, o);
      ArrivalKeepsAccount(t, id, ban);
      assert Onward(s, id, fails[0], ban) == if Calls(s.section.value) then t.(pool := Pooled(t.pool, ban)) else t;
      AloneKeepsAgreement(Onward(s, id, fails[0], ban), id, fails[1..], if Calls(s.section.value) then None else ban);
    }
  }

  lemma OneStep(s: Spot, id: string, fail: bool, rest: seq<bool>, ban: Option<BanEntry>) returns (t: Spot)
    requires s.section.Some?
    ensures t == Onward(s, id, fail, ban)
    ensures Alone(s, id, [fail] + rest, ban) ==
      if t.section.None? then t else Alone(t, id, rest, if Calls(s.section.value) then None else ban)
  {
    hide Onward;
    assert ([fail] + rest)[1..] == rest;
    t := Onward(s, id, fail, ban);
  }

  // ---- Background disable ----------------------------------------------------------------

  /** Pool and switches after a background disable. */
  function Disposed(
      pool: Store, switches: map<string, Switch>, id: string, expected: nat, fail: bool, ban: Option<BanEntry>)
    : (Store, map<string, Switch>)
  {
    var later := Pooled(pool, ban);
    if Overtaken(In(pool, id), expected) then (later, switches)
    else
      var o := Answer(Look(switches, id), fail);
      var after := if o.Ok? then switches[id := Disabled] else switches;
      if Overtaken(In(later, id), expected) then (later, after)
      else (MarkSync(later, id, o.Ok?, if o.Ok? then "" else "call failed"), after)
  }

  lemma DisposedAlone(
      pool: Store, switches: map<string, Switch>, id: string, expected: nat, fail: bool, ban: Option<BanEntry>)
    ensures var r := Disposed(pool, switches, id, expected, fail, ban);
      Alone(Spot(pool, switches, Some(DisposeStart(expected))), id, [fail, false, false], ban) == Spot(r.0, r.1, None)
  {
    hide Put, MarkSync, Alone, Overtaken;
    var fails := [fail, false, false];
    assert fails == [fail] + ([false] + [false]) && [false] == [false] + [];
    var t := OneStep(Spot(pool, switches, Some(DisposeStart(expected))), id, fail, [false] + [false], ban);
    if t.section.Some? {
      t := OneStep(t, id, false, [false], None);
      if t.section.Some? {
        t := OneStep(t, id, false, [], None);
      }
    }
  }

  /** The row is still to be applied: it is the one the request was made for, or not applied. */
  predicate Due(pool: Store, id: string, expected: nat) {
    id in pool.bans && (expected == 0 || pool.bans[id].revision == expected || !pool.bans[id].cpaSynced)
  }

  /** The account is disabled exactly if its row was due and the call went through; a row that
      is due afterwards is marked by the outcome of the call; all else stays. */
  lemma DisposeAppliesWhatIsDue(
      pool: Store, switches: map<string, Switch>, id: string, expected: nat, fail: bool, ban: Option<BanEntry>)
    ensures var r, later := Disposed(pool, switches, id, expected, fail, ban), Pooled(pool, ban);
      var done := !fail && Look(switches, id) != Missing;
      && r.1 == (if Due(pool, id, expected) && done then switches[id := Disabled] else switches)
      && (!(Due(pool, id, expected) && Due(later, id, expected)) ==> r.0 == later)
      && (Due(pool, id, expected) && Due(later, id, expected) ==>
            id in r.0.bans && Alike(r.0.bans[id], later.bans[id]) && (r.0.bans[id].cpaSynced <==> done))
      && (forall other | other != id :: In(r.0, other) == In(later, other))
  {
    hide Put;
  }

  method ApplyBanDispose(
      pool: BanPool, accounts: Accounts, id: string, expected: nat, fail: bool, ban: Option<BanEntry>)
    requires id != "" && Text.Trimmed(id)
    modifies pool, accounts
    ensures (pool.View(), accounts.switches) ==
      Disposed(old(pool.View()), old(accounts.switches), id, expected, fail, ban)
  {
    hide Put, MarkSync;
    var row := pool.Get(id);
    if row.None? || (expected != 0 && row.value.revision != expected && row.value.cpaSynced) {
      if ban.Some? {
        pool.Set(ban.value);
      }
      return;
    }
    var o := accounts.Call(id, Disabled, fail);
    if ban.Some? {
      pool.Set(ban.value);
    }
    row := pool.Get(id);
    if row.None? || (expected != 0 && row.value.revision != expected && row.value.cpaSynced) {
      return;
    }
    if o.Ok? {
      pool.UpdateCpaSyncState(id, true, "");
    } else {
      pool.UpdateCpaSyncState(id, false, "call failed");
    }
  }

  // ---- Enabling ---------------------------------------------------------------------------

  /** What an enable reports; the last two are the ends of a conflict with a newer ban. */
  datatype Report = CallFailed | Cleared(removed: bool) | Superseded | NotReapplied

  /** The newer ban stays: disable again and record how that went. */
  function Redisabled(
      pool: Store, switches: map<string, Switch>, id: string, fail: bool): (Store, map<string, Switch>) {
    var o := Answer(Look(switches, id), fail);
    (MarkSync(pool, id, o.Ok?, if o.Ok? then "" else "call failed"),
     if o.Ok? then switches[id := Disabled] else switches)
  }

  method Redisable(pool: BanPool, accounts: Accounts, id: string, fail: bool) returns (r: Report)
    requires id != "" && Text.Trimmed(id) && id in pool.bans
    modifies pool, accounts
    ensures (pool.View(), accounts.switches) == Redisabled(old(pool.View()), old(accounts.switches), id, fail)
    ensures r == if Answer(old(accounts.Get(id)), fail).Ok? then Superseded else NotReapplied
    ensures id in pool.bans && (pool.bans[id].cpaSynced <==> r == Superseded)
    ensures accounts.Get(id) == if r == Superseded then Disabled else old(accounts.Get(id))
  {
    var o := accounts.Call(id, Disabled, fail);
    if !o.Ok? {
      pool.UpdateCpaSyncState(id, false, "call failed");
      return NotReapplied;
    }
    pool.UpdateCpaSyncState(id, true, "");
    r := Superseded;
  }

  /** Pool and switches after an unban, or a restore, that had read the row `seen`. */
  function Unbanned(
      pool: Store, switches: map<string, Switch>, seen: BanEntry, failEnable: bool, ban: Option<BanEntry>,
      failDisable: bool)
    : (Store, map<string, Switch>)
  {
    var id := seen.authId;
    var later := Pooled(pool, ban);
    var o := Answer(Look(switches, id), failEnable);
    var after := if o.Ok? then switches[id := Enabled] else switches;
    if o.Failed? then (later, switches)
    else if id in later.bans && later.bans[id].revision != seen.revision then Redisabled(later, after, id, failDisable)
    else (DropIf(later, id, seen.revision), after)
  }

  lemma UnbannedAlone(
      pool: Store, switches: map<string, Switch>, reader: Reader, seen: BanEntry, failEnable: bool,
      ban: Option<BanEntry>, failDisable: bool)
    ensures var r := Unbanned(pool, switches, seen, failEnable, ban, failDisable);
      Alone(Spot(pool, switches, Some(EnableStart(reader, seen))), seen.authId,
            [failEnable, false, failDisable, false], ban) ==
      Spot(r.0, r.1, None)
  {
    hide Put, MarkSync, Alone, DropIf;
    var id := seen.authId;
    var fails := [failEnable, false, failDisable, false];
    assert fails == [failEnable] + ([false] + ([failDisable] + [false])) && [false] == [false] + [];
    var t := Spot(pool, switches, Some(EnableStart(reader, seen)));
    t := OneStep(t, id, failEnable, [false] + ([failDisable] + [false]), ban);
    if t.section.Some? {
      t := OneStep(t, id, false, [failDisable] + [false], None);
      if t.section.Some? {
        RedisabledAlone(t, id, failDisable);
      }
    }
  }

  lemma RedisabledAlone(s: Spot, id: string, fail: bool)
    requires s.section == Some(Conflict)
    ensures var r := Redisabled(s.pool, s.switches, id, fail);
      Alone(s, id, [fail] + [false], None) == Spot(r.0, r.1, None)
  {
    hide Put, MarkSync, Alone;
    assert [false] == [false] + [];
    var t := OneStep(s, id, fail, [false], None);
    t := OneStep(t, id, false, [], None);
  }

  method Unban(
      pool: BanPool, accounts: Accounts, seen: BanEntry, failEnable: bool, ban: Option<BanEntry>, failDisable: bool)
    returns (r: Report)
    requires seen.authId != "" && Text.Trimmed(seen.authId)
    modifies pool, accounts
    ensures (pool.View(), accounts.switches) ==
      Unbanned(old(pool.View()), old(accounts.switches), seen, failEnable, ban, failDisable)
    ensures r == CallFailed <==> Answer(old(accounts.Get(seen.authId)), failEnable) == Failed
    ensures r.Cleared? ==> seen.authId !in pool.bans && accounts.Get(seen.authId) != Disabled
    ensures r == Superseded ==>
      seen.authId in pool.bans && pool.bans[seen.authId].cpaSynced && accounts.Get(seen.authId) == Disabled
    ensures r == NotReapplied ==> seen.authId in pool.bans && !pool.bans[seen.authId].cpaSynced
  {
    hide Put, MarkSync;
    var id := seen.authId;
    var o := accounts.Call(id, Enabled, failEnable);
    if ban.Some? {
      pool.Set(ban.value);
    }
    if o.Failed? {
      return CallFailed;
    }
    var deleted, current := pool.DeleteIfOrCurrent(id, seen.revision);
    if deleted || current.None? {
      return Cleared(deleted);
    }
    r := Redisable(pool, accounts, id, failDisable);
  }

  // ---- The operator's switch ------------------------------------------------------------

  /** Pool and switches after the operator enables an account: what is there afterwards must
      be the row listed before the call, or it is a newer ban. */
  function OperatorEnabled(
      pool: Store, switches: map<string, Switch>, id: string, fail: bool, ban: Option<BanEntry>, failDisable: bool)
    : (Store, map<string, Switch>)
  {
    var later := Pooled(pool, ban);
    var after := switches[id := Enabled];
    if !Answer(Look(switches, id), fail).Ok? then (later, switches)
    else if id !in later.bans then (later, after)
    else if id !in pool.bans || later.bans[id].revision != pool.bans[id].revision then
      Redisabled(later, after, id, failDisable)
    else (Drop(later, id), after)
  }

  lemma OperatorEnabledAlone(
      pool: Store, switches: map<string, Switch>, id: string, fail: bool, ban: Option<BanEntry>, failDisable: bool)
    ensures var r := OperatorEnabled(pool, switches, id, fail, ban, failDisable);
      Alone(Spot(pool, switches, Some(OpEnableStart)), id,
            [false, fail, false, failDisable, failDisable, false], ban) ==
      Spot(r.0, r.1, None)
  {
    hide Put, MarkSync, Alone;
    var end := [failDisable] + [false];
    var fails := [false, fail, false, failDisable, failDisable, false];
    assert fails == [false] + ([fail] + ([false] + ([failDisable] + end)));
    var t := Spot(pool, switches, Some(OpEnableStart));
    t := OneStep(t, id, false, [fail] + ([false] + ([failDisable] + end)), ban);
    t := OneStep(t, id, fail, [false] + ([failDisable] + end), ban);
    if t.section.Some? {
      LookAgain(t, id, In(pool, id), failDisable);
    }
  }

  lemma OnwardFromEnabled(s: Spot, id: string, pre: Option<BanEntry>)
    requires s.section == Some(OpEnabled(pre))
    ensures Onward(s, id, false, None) == s.(section :=
      if id !in s.pool.bans then None else if pre.None? then Some(Conflict) else Some(OpEnableDrop(pre.value)))
  {
  }

  lemma OnwardFromDrop(s: Spot, id: string, seen: BanEntry, fail: bool)
    requires s.section == Some(OpEnableDrop(seen)) && id in s.pool.bans
    ensures Onward(s, id, fail, None) ==
      if s.pool.bans[id].revision == seen.revision then s.(pool := Drop(s.pool, id), section := None)
      else s.(section := Some(Conflict))
  {
  }

  /** The second half: look at the pool again and compare, or fall into the conflict. */
  lemma LookAgain(s: Spot, id: string, pre: Option<BanEntry>, fail: bool)
    requires s.section == Some(OpEnabled(pre))
    ensures var r :=
        if id !in s.pool.bans then (s.pool, s.switches)
        else if pre.None? || s.pool.bans[id].revision != pre.value.revision then
          Redisabled(s.pool, s.switches, id, fail)
        else (Drop(s.pool, id), s.switches);
      Alone(s, id, [false] + ([fail] + ([fail] + [false])), None) == Spot(r.0, r.1, None)
  {
    hide Onward, Alone, Redisabled, Drop;
    var end := [fail] + [false];
    OnwardFromEnabled(s, id, pre);
    var t := OneStep(s, id, false, [fail] + end, None);
    if t.section == Some(Conflict) {
      EarlyConflict(t, id, fail);
    } else if t.section.Some? {
      OnwardFromDrop(t, id, pre.value, fail);
      t := OneStep(t, id, fail, end, None);
      if t.section.Some? {
        RedisabledAlone(t, id, fail);
      }
    }
  }

  lemma EarlyConflict(s: Spot, id: string, fail: bool)
    requires s.section == Some(Conflict)
    ensures var r := Redisabled(s.pool, s.switches, id, fail);
      Alone(s, id, [fail] + ([fail] + [false]), None) == Spot(r.0, r.1, None)
  {
    hide Put, MarkSync, Alone;
    var t := OneStep(s, id, fail, [fail] + [false], None);
    t := OneStep(t, id, fail, [false], None);
  }

  /** `shown` is the state the row shows afterwards: it is the state of the account. */
  method SetAuthEnabled(
      pool: BanPool, accounts: Accounts, id: string, fail: bool, ban: Option<BanEntry>, failDisable: bool)
    returns (r: Report, shown: bool)
    requires id != "" && Text.Trimmed(id)
    modifies pool, accounts
    ensures (pool.View(), accounts.switches) ==
      OperatorEnabled(old(pool.View()), old(accounts.switches), id, fail, ban, failDisable)
    ensures r == CallFailed <==> !Answer(old(accounts.Get(id)), fail).Ok?
    ensures r != CallFailed ==> (shown <==> accounts.Get(id) == Disabled) && (shown <==> r == Superseded)
    ensures r.Cleared? ==> id !in pool.bans
    ensures r == Superseded ==> id in pool.bans && pool.bans[id].cpaSynced
    ensures r == NotReapplied ==> id in pool.bans && !pool.bans[id].cpaSynced
  {
    hide Put, MarkSync;
    var pre := pool.Get(id);
    var o := accounts.Call(id, Enabled, fail);
    if ban.Some? {
      pool.Set(ban.value);
    }
    if !o.Ok? {
      return CallFailed, false;
    }
    var row := pool.Get(id);
    if row.None? {
      return Cleared(false), false;
    }
    if pre.Some? {
      var deleted, current := pool.DeleteIfOrCurrent(id, pre.value.revision);
      if deleted {
        return Cleared(true), false;
      }
    }
    r := Redisable(pool, accounts, id, failDisable);
    shown := r == Superseded;
  }

  /** Pool and switches after the operator disables an account: the old row goes, the ban of
      the inspection takes its place. */
  function OperatorDisabled(
      pool: Store, switches: map<string, Switch>, entry: BanEntry, fail: bool, ban: Option<BanEntry>)
    : (Store, map<string, Switch>)
  {
    var id := entry.authId;
    if Answer(Look(switches, id), fail).Ok?
    then (Put(Drop(Pooled(pool, ban), id), entry), switches[id := Disabled])
    else (Pooled(pool, ban), switches)
  }

  lemma OperatorDisabledAlone(
      pool: Store, switches: map<string, Switch>, entry: BanEntry, fail: bool, ban: Option<BanEntry>)
    ensures var r := OperatorDisabled(pool, switches, entry, fail, ban);
      Alone(Spot(pool, switches, Some(OpDisableStart(entry))), entry.authId, [fail, false, false], ban) ==
      Spot(r.0, r.1, None)
  {
    hide Put, Alone;
    var id := entry.authId;
    var fails := [fail, false, false];
    assert fails == [fail] + ([false] + [false]) && [false] == [false] + [];
    var t := OneStep(Spot(pool, switches, Some(OpDisableStart(entry))), id, fail, [false] + [false], ban);
    if t.section.Some? {
      t := OneStep(t, id, false, [false], None);
      t := OneStep(t, id, false, [], None);
    }
  }

  method SetAuthDisabled(pool: BanPool, accounts: Accounts, entry: BanEntry, fail: bool, ban: Option<BanEntry>)
    returns (ok: bool)
    requires entry.authId != "" && Text.Trimmed(entry.authId) && entry.cpaSynced
    modifies pool, accounts
    ensures (pool.View(), accounts.switches) ==
      OperatorDisabled(old(pool.View()), old(accounts.switches), entry, fail, ban)
    ensures ok <==> Answer(old(accounts.Get(entry.authId)), fail).Ok?
    ensures ok ==> entry.authId in pool.bans && accounts.Get(entry.authId) == Disabled
    ensures ok ==> pool.bans[entry.authId] == entry.(revision := pool.rev)
  {
    hide MarkSync, Merged;
    var o := accounts.Call(entry.authId, Disabled, fail);
    if ban.Some? {
      pool.Set(ban.value);
    }
    if !o.Ok? {
      return false;
    }
    var had := pool.Delete(entry.authId);
    pool.Set(entry);
    ok := true;
  }
}
