/** The revisioned ban pool: window-merging writes, compare-and-delete, and the
    round trip through the state file. */
module BanStore {
  import opened Bans
  import Text

  /** What the store's lock protects. */
  datatype Store = Store(bans: map<string, BanEntry>, rev: nat)

  const EMPTY := Store(map[], 0)

  ghost predicate Valid(s: Store) {
    forall id | id in s.bans ::
      s.bans[id].authId == id && id != "" && 1 <= s.bans[id].revision <= s.rev
  }

  // ---- Writes -------------------------------------------------------------

  /** A free-usage failure replaces an earlier credential failure outright. */
  predicate Reclassifies(existing: BanEntry, entry: BanEntry) {
    entry.errorCode == FreeUsage && existing.errorCode == Unauthorized
  }

  predicate KeepsWindow(existing: BanEntry, entry: BanEntry) {
    !Reclassifies(existing, entry) && existing.resetAt > entry.resetAt
  }

  /** The row stored when `entry` arrives over `existing`. */
  function Merged(existing: BanEntry, entry: BanEntry): (r: BanEntry)
    ensures r.resetAt < existing.resetAt <==>
      entry.errorCode == FreeUsage && existing.errorCode == Unauthorized && entry.resetAt < existing.resetAt
    ensures !Reclassifies(existing, entry) ==> r.resetAt >= existing.resetAt && r.resetAt >= entry.resetAt
    ensures existing.resetAt <= entry.resetAt ==> r == entry
    ensures (r.resetAt, r.resetSource) == (existing.resetAt, existing.resetSource)
         || (r.resetAt, r.resetSource) == (entry.resetAt, entry.resetSource)
    ensures Consistent(existing) && Consistent(entry) ==> Consistent(r)
    ensures r.errorCode ==
      if KeepsWindow(existing, entry) && existing.errorCode != NoCode then existing.errorCode else entry.errorCode
    ensures r.errorCode != entry.errorCode ==> r.errorCodeDiag == existing.errorCodeDiag
    ensures r.errorCode == entry.errorCode && entry.errorCodeDiag != NoCode ==> r.errorCodeDiag == entry.errorCodeDiag
    ensures r.errorCode == entry.errorCode && entry.errorCodeDiag == NoCode ==>
      r.errorCodeDiag ==
      if KeepsWindow(existing, entry) && r.errorCode == existing.errorCode != NoCode then existing.errorCodeDiag
      else NoCode
    ensures (r.authId, r.provider, r.bannedAt, r.traceId, r.cpaSynced, r.cpaSyncError)
         == (entry.authId, entry.provider, entry.bannedAt, entry.traceId, entry.cpaSynced, entry.cpaSyncError)
  {
    if !KeepsWindow(existing, entry) then entry
    else if existing.errorCode == NoCode then
      entry.(resetAt := existing.resetAt, resetSource := existing.resetSource)
    else
      var diag :=
        if entry.errorCode != existing.errorCode then existing.errorCodeDiag
        else if existing.errorCodeDiag != NoCode && entry.errorCodeDiag == NoCode then existing.errorCodeDiag
        else entry.errorCodeDiag;
      entry.(resetAt := existing.resetAt, resetSource := existing.resetSource,
             errorCodeDiag := diag, errorCode := existing.errorCode)
  }

  function Put(s: Store, entry: BanEntry): Store {
    if entry.authId == "" then s
    else
      var row := if entry.authId in s.bans then Merged(s.bans[entry.authId], entry) else entry;
      Store(s.bans[entry.authId := row.(revision := s.rev + 1)], s.rev + 1)
  }

  function Drop(s: Store, id: string): Store {
    s.(bans := s.bans - {id})
  }

  /** Compare-and-delete: the row goes only at the expected revision. */
  function DropIf(s: Store, id: string, expected: nat): Store {
    if id in s.bans && s.bans[id].revision == expected then Drop(s, id) else s
  }

  function MarkSync(s: Store, id: string, synced: bool, note: string): Store {
    if id !in s.bans then s
    else
      var row := s.bans[id];
      var text := if synced then "" else if !Text.Blank(note) then Text.Trim(note) else row.cpaSyncError;
      s.(bans := s.bans[id := row.(cpaSynced := synced, cpaSyncError := text)])
  }

  // ---- The state file -------------------------------------------------------

  /** `rows` lists every row of the pool and nothing else. */
  ghost predicate SnapshotOf(rows: seq<BanEntry>, bans: map<string, BanEntry>) {
    && (forall i | 0 <= i < |rows| :: rows[i].authId in bans && bans[rows[i].authId] == rows[i])
    && (forall id | id in bans :: bans[id] in rows)
  }

  /** Decoding: rows without an id are skipped, a later row wins. */
  function Decoded(rows: seq<BanEntry>): map<string, BanEntry> {
    if rows == [] then map[]
    else
      var init, last := Decoded(rows[..|rows| - 1]), rows[|rows| - 1];
      if last.authId == "" then init else init[last.authId := last]
  }

  /** The largest revision among the rows that carry an id. */
  function MaxRevision(rows: seq<BanEntry>): nat {
    if rows == [] then 0
    else
      var init, last := MaxRevision(rows[..|rows| - 1]), rows[|rows| - 1];
      if last.authId != "" && last.revision > init then last.revision else init
  }

  lemma {:induction false} DecodedRows(rows: seq<BanEntry>, i: nat)
    requires i < |rows| && rows[i].authId != ""
    ensures rows[i].authId in Decoded(rows) && rows[i].revision <= MaxRevision(rows)
  {
    if i < |rows| - 1 {
      assert rows[..|rows| - 1][i] == rows[i];
      DecodedRows(rows[..|rows| - 1], i);
    }
  }

  lemma {:induction false} DecodedIsListed(rows: seq<BanEntry>)
    ensures forall id | id in Decoded(rows) :: Decoded(rows)[id] in rows && Decoded(rows)[id].authId == id != ""
    ensures MaxRevision(rows) > 0 ==> exists r :: r in rows && r.authId != "" && r.revision == MaxRevision(rows)
  {
    if rows != [] {
      DecodedIsListed(rows[..|rows| - 1]);
      forall r | r in rows[..|rows| - 1] ensures r in rows {}
      assert rows[|rows| - 1] in rows;
    }
  }

  /** Of several rows with one id the last one counts. */
  lemma {:induction false} LastRowWins(rows: seq<BanEntry>, i: nat)
    requires i < |rows| && rows[i].authId != ""
    requires forall j | i < j < |rows| :: rows[j].authId != rows[i].authId
    ensures rows[i].authId in Decoded(rows) && Decoded(rows)[rows[i].authId] == rows[i]
  {
    if i < |rows| - 1 {
      LastRowWins(rows[..|rows| - 1], i);
    }
  }

  /** Every row survives the round trip unchanged. */
  lemma {:induction false} SaveLoadRoundTrip(s: Store, rows: seq<BanEntry>)
    requires Valid(s) && SnapshotOf(rows, s.bans)
    ensures Decoded(rows) == s.bans
    ensures MaxRevision(rows) <= s.rev
    ensures MaxRevision(rows) == 0 <==> s.bans == map[]
  {
    DecodedIsListed(rows);
    forall id | id in s.bans
      ensures id in Decoded(rows) && s.bans[id].revision <= MaxRevision(rows)
    {
      var i :| 0 <= i < |rows| && rows[i] == s.bans[id];
      DecodedRows(rows, i);
    }
    forall id | id in Decoded(rows) ensures id in s.bans && Decoded(rows)[id] == s.bans[id] {
      var i :| 0 <= i < |rows| && rows[i] == Decoded(rows)[id];
    }
    assert Decoded(rows).Keys == s.bans.Keys;
  }

  /** The pool after a restart from a snapshot of itself. */
  function Reloaded(s: Store, rows: seq<BanEntry>): Store {
    Store(Decoded(rows), MaxRevision(rows))
  }

  /** The revision counter survives a restart exactly when the row written last is
      still in the pool; otherwise it falls back and revisions are given again. */
  lemma ReloadKeepsCounterIff(s: Store, rows: seq<BanEntry>)
    requires Valid(s) && SnapshotOf(rows, s.bans)
    ensures Reloaded(s, rows).rev == s.rev
       <==> (s.rev == 0 || exists id :: id in s.bans && s.bans[id].revision == s.rev)
  {
    SaveLoadRoundTrip(s, rows);
    DecodedIsListed(rows);
    if Reloaded(s, rows).rev == s.rev && s.rev > 0 {
      var r :| r in rows && r.authId != "" && r.revision == MaxRevision(rows);
      assert r.authId in s.bans && s.bans[r.authId] == r;
    }
    if id :| id in s.bans && s.bans[id].revision == s.rev {
      var i :| 0 <= i < |rows| && rows[i] == s.bans[id];
      DecodedRows(rows, i);
    }
  }

  /** Rows given after a restart always carry larger revisions than the loaded ones. */
  lemma ReloadedRevisionsAreFresh(s: Store, rows: seq<BanEntry>, entry: BanEntry, id: string)
    requires Valid(s) && SnapshotOf(rows, s.bans) && entry.authId != ""
    requires id in s.bans && id != entry.authId
    ensures Valid(Reloaded(s, rows))
    ensures var t := Put(Reloaded(s, rows), entry);
            id in t.bans && t.bans[id] == s.bans[id] && t.bans[id].revision < t.bans[entry.authId].revision
  {
    SaveLoadRoundTrip(s, rows);
    forall i | i in s.bans ensures s.bans[i].revision <= MaxRevision(rows) {
      var k :| 0 <= k < |rows| && rows[k] == s.bans[i];
      DecodedRows(rows, k);
    }
  }

  // ---- Runs of the store ----------------------------------------------------

  datatype Op =
    | SetOp(entry: BanEntry)
    | DeleteOp(id: string)
    | DeleteIfOp(id: string, expected: nat)
    | SyncOp(id: string, synced: bool, note: string)

  function Apply(s: Store, op: Op): (t: Store)
    ensures Valid(s) ==> Valid(t)
    ensures t.rev >= s.rev
    ensures t.rev == s.rev + 1 <==> op.SetOp? && op.entry.authId != ""
  {
    match op
    case SetOp(entry) => Put(s, entry)
    case DeleteOp(id) => Drop(s, id)
    case DeleteIfOp(id, expected) => DropIf(s, id, expected)
    case SyncOp(id, synced, note) => MarkSync(s, id, synced, note)
  }

  ghost predicate Run(states: seq<Store>, ops: seq<Op>) {
    && |states| == |ops| + 1
    && Valid(states[0])
    && forall i | 0 <= i < |ops| :: states[i + 1] == Apply(states[i], ops[i])
  }

  /** Equal but for the two synchronisation fields. */
  predicate SameButSync(a: BanEntry, b: BanEntry) {
    a == b.(cpaSynced := a.cpaSynced, cpaSyncError := a.cpaSyncError)
  }

  lemma {:induction false} RunsGrow(states: seq<Store>, ops: seq<Op>, i: nat, j: nat)
    requires Run(states, ops) && i <= j < |states|
    ensures Valid(states[i]) && Valid(states[j]) && states[i].rev <= states[j].rev
    decreases j, i
  {
    if j > i {
      RunsGrow(states, ops, i, j - 1);
    } else if j > 0 {
      RunsGrow(states, ops, i - 1, j - 1);
    }
  }

  /** One step leaves a row alone but for its synchronisation fields, writes it anew at
      the next revision, or removes it. */
  lemma StepKeepsRow(s: Store, op: Op, id: string)
    requires Valid(s) && id in Apply(s, op).bans
    ensures var row := Apply(s, op).bans[id];
      if op.SetOp? && op.entry.authId == id then row.revision == s.rev + 1
      else id in s.bans && SameButSync(s.bans[id], row) && row.revision == s.bans[id].revision
  {
  }

  /** A revision names one row: whenever it is seen twice in a run, every field but
      the synchronisation ones is the same. */
  lemma {:induction false} RevisionNamesOneRow(states: seq<Store>, ops: seq<Op>, i: nat, j: nat, id: string)
    requires Run(states, ops) && i <= j < |states|
    requires id in states[i].bans
    requires id in states[j].bans && states[j].bans[id].revision == states[i].bans[id].revision
    ensures SameButSync(states[i].bans[id], states[j].bans[id])
  {
    if j > i {
      RunsGrow(states, ops, i, j - 1);
      assert states[j] == Apply(states[j - 1], ops[j - 1]);
      StepKeepsRow(states[j - 1], ops[j - 1], id);
      RevisionNamesOneRow(states, ops, i, j - 1, id);
    }
  }

  /** No newer ban is deleted: compare-and-delete with a revision observed earlier in
      the run removes precisely the row observed then, whenever it removes one; and
      it removes none once the id has been written again. */
  lemma {:induction false} CompareAndDeleteIsExact(states: seq<Store>, ops: seq<Op>, i: nat, j: nat, id: string)
    requires Run(states, ops) && i <= j < |ops| && id in states[i].bans
    requires ops[j] == DeleteIfOp(id, states[i].bans[id].revision)
    ensures id in states[j].bans && id !in states[j + 1].bans ==> SameButSync(states[i].bans[id], states[j].bans[id])
    ensures (exists k :: i <= k < j && ops[k].SetOp? && ops[k].entry.authId == id) ==> states[j + 1] == states[j]
    ensures forall other | other != id ::
      (other in states[j].bans <==> other in states[j + 1].bans)
      && (other in states[j].bans ==> states[j].bans[other] == states[j + 1].bans[other])
  {
    assert states[j + 1] == Apply(states[j], ops[j]);
    if id in states[j].bans && id !in states[j + 1].bans {
      RevisionNamesOneRow(states, ops, i, j, id);
    }
    if k :| i <= k < j && ops[k].SetOp? && ops[k].entry.authId == id {
      RunsGrow(states, ops, i, k);
      WrittenAgain(states, ops, k, j, id);
    }
  }

  /** After a write the row, if present, has a revision above every earlier one. */
  lemma {:induction false} WrittenAgain(states: seq<Store>, ops: seq<Op>, k: nat, j: nat, id: string)
    requires Run(states, ops) && k < j < |states|
    requires ops[k].SetOp? && ops[k].entry.authId == id != ""
    ensures id in states[j].bans ==> states[j].bans[id].revision > states[k].rev
  {
    RunsGrow(states, ops, k, j - 1);
    assert states[j] == Apply(states[j - 1], ops[j - 1]);
    if id in states[j].bans {
      StepKeepsRow(states[j - 1], ops[j - 1], id);
      if j > k + 1 {
        WrittenAgain(states, ops, k, j - 1, id);
      }
    }
  }

  /** Revisions handed out by two writes of one run are strictly ordered. */
  lemma {:induction false} LaterWritesGetLargerRevisions(states: seq<Store>, ops: seq<Op>, i: nat, j: nat)
    requires Run(states, ops) && i < j < |ops|
    requires ops[i].SetOp? && ops[i].entry.authId != "" && ops[j].SetOp? && ops[j].entry.authId != ""
    ensures states[i + 1].bans[ops[i].entry.authId].revision < states[j + 1].bans[ops[j].entry.authId].revision
  {
    assert states[i + 1] == Apply(states[i], ops[i]);
    assert states[j + 1] == Apply(states[j], ops[j]);
    RunsGrow(states, ops, i + 1, j);
  }

  /** A restart that lost the newest row can make a stale compare-and-delete remove a
      newer ban: revision 2 is observed, deleted, lost by the reload and given again. */
  lemma StaleRevisionAfterReload(a: BanEntry, b: BanEntry)
    requires a.authId != "" && b.authId != "" && a.authId != b.authId
    ensures var s := Put(Put(EMPTY, b), a);
            var t := Reloaded(Drop(s, a.authId), [Drop(s, a.authId).bans[b.authId]]);
            && SnapshotOf([Drop(s, a.authId).bans[b.authId]], Drop(s, a.authId).bans)
            && t.rev < s.rev
            && a.authId !in DropIf(Put(t, a), a.authId, s.bans[a.authId].revision).bans
  {
    var d := Drop(Put(Put(EMPTY, b), a), a.authId);
    var rows := [d.bans[b.authId]];
    assert rows[..0] == [] && rows[0].revision == 1;
    assert MaxRevision(rows) == 1;
  }

  // ---- Consistency of codes and windows over runs ---------------------------

  ghost predicate AllConsistent(s: Store) {
    forall id | id in s.bans :: Consistent(s.bans[id])
  }

  lemma {:induction false} ConsistencyIsKept(states: seq<Store>, ops: seq<Op>, n: nat)
    requires Run(states, ops) && n < |states| && AllConsistent(states[0])
    requires forall i | 0 <= i < |ops| :: ops[i].SetOp? ==> Consistent(ops[i].entry)
    ensures AllConsistent(states[n])
  {
    if n > 0 {
      ConsistencyIsKept(states, ops, n - 1);
      assert states[n] == Apply(states[n - 1], ops[n - 1]);
    }
  }

  // ---- The note of a failed call ----------------------------------------------

  ghost predicate AppliedWithoutNote(s: Store) {
    forall id | id in s.bans :: s.bans[id].cpaSynced ==> s.bans[id].cpaSyncError == ""
  }

  /** A row that counts as applied shows no error, in every run. */
  lemma {:induction false} AppliedRowsShowNoError(states: seq<Store>, ops: seq<Op>, n: nat)
    requires Run(states, ops) && n < |states| && AppliedWithoutNote(states[0])
    requires forall i | 0 <= i < |ops| && ops[i].SetOp? :: ops[i].entry.cpaSynced ==> ops[i].entry.cpaSyncError == ""
    ensures AppliedWithoutNote(states[n])
  {
    if n > 0 {
      AppliedRowsShowNoError(states, ops, n - 1);
      assert states[n] == Apply(states[n - 1], ops[n - 1]);
    }
  }

  /** The operation gives the row of `id` another note, or none. */
  predicate Renotes(op: Op, id: string) {
    || (op.SetOp? && op.entry.authId == id)
    || (op.SyncOp? && op.id == id && (op.synced || !Text.Blank(op.note)))
  }

  /** A failed call's note is shown, trimmed, until the row is written or marked again. */
  lemma {:induction false} LastNoteIsShown(states: seq<Store>, ops: seq<Op>, k: nat, n: nat, id: string)
    requires Run(states, ops) && k < n < |states| && forall m | k <= m <= n :: id in states[m].bans
    requires ops[k].SyncOp? && ops[k].id == id && !ops[k].synced && !Text.Blank(ops[k].note)
    requires forall m | k < m < n :: !Renotes(ops[m], id)
    ensures states[n].bans[id].cpaSyncError == Text.Trim(ops[k].note)
    ensures k + 1 == n ==> !states[n].bans[id].cpaSynced
  {
    hide Merged, Text.Trim;
    assert states[n] == Apply(states[n - 1], ops[n - 1]);
    if k + 1 < n {
      LastNoteIsShown(states, ops, k, n - 1, id);
      assert !Renotes(ops[n - 1], id);
    }
  }

  // ---- Repeated writes to one id --------------------------------------------

  /** The row after `entries` arrive one by one over `first`. */
  function Replay(first: BanEntry, entries: seq<BanEntry>): BanEntry {
    if entries == [] then first
    else Merged(Replay(first, entries[..|entries| - 1]), entries[|entries| - 1])
  }

  function History(first: BanEntry, entries: seq<BanEntry>): seq<BanEntry> {
    [first] + entries
  }

  predicate SameWindow(a: BanEntry, b: BanEntry) {
    a.resetAt == b.resetAt && a.resetSource == b.resetSource && a.errorCode == b.errorCode
  }

  /** Window and reason of the stored row come from one and the same recorded entry. */
  lemma {:induction false} WindowHasOneOrigin(first: BanEntry, entries: seq<BanEntry>)
    requires forall e | e in History(first, entries) :: e.errorCode != NoCode
    ensures Replay(first, entries).errorCode != NoCode
    ensures exists e :: e in History(first, entries) && SameWindow(e, Replay(first, entries))
  {
    if entries != [] {
      var init, last := entries[..|entries| - 1], entries[|entries| - 1];
      assert forall e | e in History(first, init) :: e in History(first, entries);
      WindowHasOneOrigin(first, init);
      assert last in History(first, entries);
    } else {
      assert first in History(first, entries);
    }
  }

  predicate SameReason(a: BanEntry, b: BanEntry) {
    a.errorCode == b.errorCode && a.errorCodeDiag == b.errorCodeDiag
  }

  /** A diagnosis is only shown with the reason it was recorded with. */
  lemma {:induction false} DiagnosisWasRecorded(first: BanEntry, entries: seq<BanEntry>)
    ensures exists e :: e in History(first, entries) && SameReason(e, Replay(first, entries))
  {
    if entries != [] {
      var init, last := entries[..|entries| - 1], entries[|entries| - 1];
      assert forall e | e in History(first, init) :: e in History(first, entries);
      DiagnosisWasRecorded(first, init);
      assert last in History(first, entries);
    } else {
      assert first in History(first, entries);
    }
  }

  /** The identity, time and trace fields are those of the entry that came last. */
  lemma {:induction false} LastEntryIsReported(first: BanEntry, entries: seq<BanEntry>)
    requires entries != []
    ensures var r, last := Replay(first, entries), entries[|entries| - 1];
            (r.bannedAt, r.traceId, r.cpaSynced, r.provider) ==
            (last.bannedAt, last.traceId, last.cpaSynced, last.provider)
  {
  }

  ghost predicate IsMaximum(t: Time, es: seq<BanEntry>) {
    (exists e :: e in es && e.resetAt == t) && (forall e | e in es :: e.resetAt <= t)
  }

  /** Without credential failures the stored window is the longest one ever recorded. */
  lemma {:induction false} WindowIsMaximum(first: BanEntry, entries: seq<BanEntry>)
    requires forall e | e in History(first, entries) :: e.errorCode != Unauthorized
    ensures Replay(first, entries).errorCode != Unauthorized
    ensures IsMaximum(Replay(first, entries).resetAt, History(first, entries))
  {
    if entries != [] {
      var init, last := entries[..|entries| - 1], entries[|entries| - 1];
      assert forall e :: e in History(first, entries) <==> e in History(first, init) || e == last;
      WindowIsMaximum(first, init);
    } else {
      assert first in History(first, entries);
    }
  }

  /** So the order of arrival does not matter. */
  lemma {:induction false} WindowIgnoresOrder(a: BanEntry, as': seq<BanEntry>, b: BanEntry, bs: seq<BanEntry>)
    requires multiset(History(a, as')) == multiset(History(b, bs))
    requires forall e | e in History(a, as') :: e.errorCode != Unauthorized
    ensures Replay(a, as').resetAt == Replay(b, bs).resetAt
  {
    assert forall e :: e in History(a, as') <==> e in multiset(History(a, as'));
    assert forall e :: e in History(b, bs) <==> e in multiset(History(b, bs));
    WindowIsMaximum(a, as');
    WindowIsMaximum(b, bs);
  }

  /** With credential failures the window can fall, and only by reclassification: the
      stored window is over exactly when everything since some reclassification (or
      since the start) is over. */
  lemma {:induction false} WindowIsOverIff(first: BanEntry, entries: seq<BanEntry>, now: Time)
    ensures Replay(first, entries).resetAt <= now <==> EventuallyOver(first, entries, now)
  {
    if entries == [] {
      assert OverSince(first, entries, 0, now) <==> first.resetAt <= now;
    } else {
      var init, last := entries[..|entries| - 1], entries[|entries| - 1];
      WindowIsOverIff(first, init, now);
      assert Replay(first, entries) == Merged(Replay(first, init), last);
      hide Merged, Replay, Reclassifies;
      if k: nat :| OverSince(first, entries, k, now) && k < |entries| {
        OverLonger(first, entries, k, now);
      }
      if k: nat :| OverSince(first, init, k, now) {
        OverLonger(first, entries, k, now);
      }
      if Reclassifies(Replay(first, init), last) && last.resetAt <= now {
        assert OverSince(first, entries, |entries|, now);
      }
      ReclassifiedIsLast(Replay(first, init), last);
    }
  }

  /** A point from which everything is over lies before the last entry iff the last entry
      is over as well. */
  lemma OverLonger(first: BanEntry, entries: seq<BanEntry>, k: nat, now: Time)
    requires k < |entries|
    ensures var init, last := entries[..|entries| - 1], entries[|entries| - 1];
      OverSince(first, entries, k, now) <==> OverSince(first, init, k, now) && last.resetAt <= now
  {
    hide Replay, Reclassifies;
    assert k > 0 ==> entries[..k - 1] == entries[..|entries| - 1][..k - 1];
  }

  lemma ReclassifiedIsLast(existing: BanEntry, entry: BanEntry)
    ensures Reclassifies(existing, entry) ==> Merged(existing, entry).resetAt == entry.resetAt
    ensures !Reclassifies(existing, entry) ==>
      Merged(existing, entry).resetAt == if existing.resetAt > entry.resetAt then existing.resetAt else entry.resetAt
  {
  }

  /** Either `k` is 0 and the first row is over, or entry `k - 1` reclassified; and from
      there on every entry is over. */
  ghost predicate OverSince(first: BanEntry, entries: seq<BanEntry>, k: nat, now: Time) {
    && k <= |entries|
    && (k == 0 ==> first.resetAt <= now)
    && (k > 0 ==> Reclassifies(Replay(first, entries[..k - 1]), entries[k - 1]))
    && forall j | (if k > 0 then k - 1 else 0) <= j < |entries| :: entries[j].resetAt <= now
  }

  ghost predicate EventuallyOver(first: BanEntry, entries: seq<BanEntry>, now: Time) {
    exists k: nat :: OverSince(first, entries, k, now)
  }

  /** Equal but for revision and synchronisation. */
  predicate Alike(a: BanEntry, b: BanEntry) {
    a == b.(revision := a.revision, cpaSynced := a.cpaSynced, cpaSyncError := a.cpaSyncError)
  }

  /** The entries written to `id` by the steps from `i` up to `n`. */
  function WrittenTo(ops: seq<Op>, i: nat, n: nat, id: string): seq<BanEntry>
    requires i <= n <= |ops|
  {
    if i == n then []
    else
      var init := WrittenTo(ops, i, n - 1, id);
      if ops[n - 1].SetOp? && ops[n - 1].entry.authId == id then init + [ops[n - 1].entry] else init
  }

  lemma OneMoreWrite(s: Store, op: Op, id: string, row: BanEntry)
    requires Valid(s) && id in s.bans && Alike(s.bans[id], row) && id in Apply(s, op).bans
    ensures Alike(Apply(s, op).bans[id], if op.SetOp? && op.entry.authId == id then Merged(row, op.entry) else row)
  {
  }

  /** In a run that keeps the row of `id`, that row is the replay of the writes. */
  lemma {:induction false} RowIsReplay(states: seq<Store>, ops: seq<Op>, i: nat, n: nat, id: string)
    requires Run(states, ops) && i <= n < |states|
    requires forall k | i <= k <= n :: id in states[k].bans
    ensures Alike(states[n].bans[id], Replay(states[i].bans[id], WrittenTo(ops, i, n, id)))
  {
    hide Alike, Apply, Merged;
    if i < n {
      RowIsReplay(states, ops, i, n - 1, id);
      RunsGrow(states, ops, i, n - 1);
      assert states[n] == Apply(states[n - 1], ops[n - 1]);
      var before, w := WrittenTo(ops, i, n - 1, id), WrittenTo(ops, i, n, id);
      OneMoreWrite(states[n - 1], ops[n - 1], id, Replay(states[i].bans[id], before));
      if ops[n - 1].SetOp? && ops[n - 1].entry.authId == id {
        assert w[..|w| - 1] == before;
      }
    } else {
      AlikeItself(states[i].bans[id]);
    }
  }

  lemma AlikeItself(row: BanEntry)
    ensures Alike(row, row)
  {
  }

  /** The first point from `i` on since which the row has been there without a gap. */
  function PresentSince(states: seq<Store>, id: string, i: nat, n: nat): (j: nat)
    requires i <= n < |states| && id in states[n].bans
    ensures i <= j <= n && forall k | j <= k <= n :: id in states[k].bans
    ensures j > i ==> id !in states[j - 1].bans
  {
    if n == i || id !in states[n - 1].bans then n else PresentSince(states, id, i, n - 1)
  }

  /** A row that was away begins with the entry that brought it back. */
  lemma BroughtBack(states: seq<Store>, ops: seq<Op>, i: nat, n: nat, id: string)
    requires Run(states, ops) && i <= n < |states| && id in states[n].bans
    ensures var j := PresentSince(states, id, i, n);
      j > i ==> ops[j - 1].SetOp? && ops[j - 1].entry.authId == id && Alike(states[j].bans[id], ops[j - 1].entry)
  {
    var j := PresentSince(states, id, i, n);
    hide Apply, Alike;
    if j > i {
      RunsGrow(states, ops, i, j - 1);
      assert states[j] == Apply(states[j - 1], ops[j - 1]);
      NewRow(states[j - 1], ops[j - 1], id);
    }
  }

  lemma NewRow(s: Store, op: Op, id: string)
    requires id !in s.bans && id in Apply(s, op).bans
    ensures op.SetOp? && op.entry.authId == id && Alike(Apply(s, op).bans[id], op.entry)
  {
  }

  /** The restore pass looks for rows that are over at step `i` and picks a row up, without a
      second look at the window, at step `n`. What it picks up is over exactly when all
      entries are that were written since it was last brought back, or since `i` if it
      stayed, from the last reclassification on. */
  lemma PickedRowIsOverIff(states: seq<Store>, ops: seq<Op>, i: nat, n: nat, id: string, now: Time)
    requires Run(states, ops) && i <= n < |states| && id in states[n].bans
    ensures var j := PresentSince(states, id, i, n);
      states[n].bans[id].resetAt <= now <==> EventuallyOver(states[j].bans[id], WrittenTo(ops, j, n, id), now)
  {
    var j := PresentSince(states, id, i, n);
    var first, entries := states[j].bans[id], WrittenTo(ops, j, n, id);
    RowIsReplay(states, ops, j, n, id);
    WindowIsOverIff(first, entries, now);
    assert states[n].bans[id].resetAt == Replay(first, entries).resetAt;
  }

  // ---- The store itself -----------------------------------------------------

  /** A row as it stands in the state file; old files lack the sync flag. */
  datatype DiskRow = DiskRow(entry: BanEntry, synced: Option<bool>)

  function FromDisk(rows: seq<DiskRow>): (r: seq<BanEntry>)
    ensures |r| == |rows|
    ensures forall i | 0 <= i < |rows| ::
      SameButSync(r[i], rows[i].entry) && r[i].cpaSynced == (rows[i].synced != Some(false))
  {
    seq(|rows|, i requires 0 <= i < |rows| =>
      rows[i].entry.(cpaSynced := rows[i].synced.None? || rows[i].synced.value))
  }

  /** The rows in `done` kept all but their revisions, which are distinct and in 1..n. */
  ghost predicate Numbered(before: map<string, BanEntry>, after: map<string, BanEntry>, done: set<string>, n: nat) {
    && done <= before.Keys && done <= after.Keys
    && (forall id | id in done ::
          after[id] == before[id].(revision := after[id].revision) && 1 <= after[id].revision <= n)
    && (forall a, b | a in done && b in done && a != b :: after[a].revision != after[b].revision)
  }

  /** The loop over the rows of a file without revisions. */
  method NumberedRows(bans: map<string, BanEntry>) returns (next: map<string, BanEntry>, given: nat)
    ensures next.Keys == bans.Keys && given == |next|
    ensures Numbered(bans, next, next.Keys, given)
  {
    hide Numbered;
    next, given := bans, 0;
    ghost var done: set<string> := {};
    var rest := bans.Keys;
    NothingNumbered(bans);
    while rest != {}
      invariant done !! rest && done + rest == next.Keys == bans.Keys
      invariant given == |done|
      invariant forall id | id in rest :: next[id] == bans[id]
      invariant Numbered(bans, next, done, given)
      decreases rest
    {
      var id :| id in rest;
      OneMoreNumbered(bans, next, done, id, given);
      given := given + 1;
      next := next[id := next[id].(revision := given)];
      rest := rest - {id};
      done := done + {id};
    }
    assert done == next.Keys;
    assert |next.Keys| == |next|;
  }

  lemma NothingNumbered(bans: map<string, BanEntry>)
    ensures Numbered(bans, bans, {}, 0)
  {
  }

  lemma OneMoreNumbered(
    before: map<string, BanEntry>, after: map<string, BanEntry>, done: set<string>, id: string, n: nat)
    requires Numbered(before, after, done, n) && id !in done
    requires id in before && id in after && after[id] == before[id]
    ensures Numbered(before, after[id := after[id].(revision := n + 1)], done + {id}, n + 1)
  {
  }

  class BanPool {
    var bans: map<string, BanEntry>
    var rev: nat

    ghost function View(): Store
      reads this
    {
      Store(bans, rev)
    }

    constructor ()
      ensures View() == EMPTY
    {
      bans, rev := map[], 0;
    }

    method Set(entry: BanEntry)
      modifies this
      ensures View() == Put(old(View()), entry)
    {
      if entry.authId == "" {
        return;
      }
      var row := entry;
      if row.authId in bans {
        var existing := bans[row.authId];
        if !(row.errorCode == FreeUsage && existing.errorCode == Unauthorized) && existing.resetAt > row.resetAt {
          row := row.(resetAt := existing.resetAt, resetSource := existing.resetSource);
          if existing.errorCode != NoCode {
            if row.errorCode != existing.errorCode {
              row := row.(errorCodeDiag := existing.errorCodeDiag);
            } else if existing.errorCodeDiag != NoCode && row.errorCodeDiag == NoCode {
              row := row.(errorCodeDiag := existing.errorCodeDiag);
            }
            row := row.(errorCode := existing.errorCode);
          }
        }
      }
      rev := rev + 1;
      bans := bans[row.authId := row.(revision := rev)];
    }

    method Get(id: string) returns (row: Option<BanEntry>)
      ensures row == if id in bans then Some(bans[id]) else None
    {
      row := if id in bans then Some(bans[id]) else None;
    }

    method Delete(id: string) returns (ok: bool)
      modifies this
      ensures ok == (id in old(bans)) && View() == Drop(old(View()), id)
    {
      ok := id in bans;
      bans := bans - {id};
    }

    method DeleteIfOrCurrent(rawId: string, expected: nat) returns (deleted: bool, current: Option<BanEntry>)
      modifies this
      ensures View() == (if Text.Blank(rawId) then old(View()) else DropIf(old(View()), Text.Trim(rawId), expected))
      ensures deleted <==> Text.Trim(rawId) != "" && Text.Trim(rawId) in old(bans) && Text.Trim(rawId) !in bans
      ensures !Text.Blank(rawId) ==>
        current == if !deleted && Text.Trim(rawId) in bans then Some(bans[Text.Trim(rawId)]) else None
    {
      var id := Text.Trim(rawId);
      deleted, current := false, None;
      if id == "" || id !in bans {
        return;
      }
      if bans[id].revision == expected {
        bans := bans - {id};
        deleted := true;
      } else {
        current := Some(bans[id]);
      }
    }

    method UpdateCpaSyncState(rawId: string, synced: bool, note: string)
      modifies this
      ensures View() == if Text.Blank(rawId) then old(View()) else MarkSync(old(View()), Text.Trim(rawId), synced, note)
    {
      var id := Text.Trim(rawId);
      if id == "" || id !in bans {
        return;
      }
      var row := bans[id].(cpaSynced := synced);
      if synced {
        row := row.(cpaSyncError := "");
      } else if Text.Trim(note) != "" {
        row := row.(cpaSyncError := Text.Trim(note));
      }
      bans := bans[id := row];
    }

    /** The ids whose window has passed. */
    method Expired(now: Time) returns (ids: seq<string>)
      ensures forall id :: id in ids <==> id in bans && bans[id].resetAt <= now
      ensures forall i, j :: 0 <= i < j < |ids| ==> ids[i] != ids[j]
    {
      ids := [];
      var rest := bans.Keys;
      while rest != {}
        invariant rest <= bans.Keys
        invariant forall id :: id in ids <==> id in bans && id !in rest && bans[id].resetAt <= now
        invariant forall i, j :: 0 <= i < j < |ids| ==> ids[i] != ids[j]
        decreases rest
      {
        var id :| id in rest;
        if !(bans[id].resetAt > now) {
          ids := ids + [id];
        }
        rest := rest - {id};
      }
    }

    /** The rows not yet applied to the remote side. */
    method UnsyncedCPA() returns (rows: seq<BanEntry>)
      requires forall id | id in bans :: bans[id].authId == id
      ensures forall r :: r in rows <==> r.authId in bans && bans[r.authId] == r && !r.cpaSynced
    {
      rows := [];
      var rest := bans.Keys;
      while rest != {}
        invariant rest <= bans.Keys
        invariant forall r ::
          r in rows <==> r.authId in bans && r.authId !in rest && bans[r.authId] == r && !r.cpaSynced
        decreases rest
      {
        var id :| id in rest;
        if !bans[id].cpaSynced {
          rows := rows + [bans[id]];
        }
        rest := rest - {id};
      }
    }

    method SnapshotEntries() returns (rows: seq<BanEntry>)
      requires forall id | id in bans :: bans[id].authId == id
      ensures SnapshotOf(rows, bans) && |rows| == |bans|
    {
      rows := [];
      var rest := bans.Keys;
      while rest != {}
        invariant rest <= bans.Keys
        invariant |rows| + |rest| == |bans.Keys|
        invariant forall i | 0 <= i < |rows| :: rows[i].authId in bans && bans[rows[i].authId] == rows[i]
        invariant forall id | id in bans && id !in rest :: bans[id] in rows
        decreases rest
      {
        var id :| id in rest;
        rows := rows + [bans[id]];
        rest := rest - {id};
      }
      assert |bans.Keys| == |bans|;
    }

    /** Replaces the pool by the decoded file. A file without any revision is numbered
        from 1 in some order; otherwise rows keep theirs and the counter is the largest. */
    method Load(rows: seq<DiskRow>)
      modifies this
      ensures var es := FromDisk(rows);
        && (MaxRevision(es) > 0 ==> View() == Store(Decoded(es), MaxRevision(es)))
        && (MaxRevision(es) == 0 ==>
              bans.Keys == Decoded(es).Keys && rev == |bans| && Numbered(Decoded(es), bans, bans.Keys, rev))
    {
      var es := FromDisk(rows);
      var next: map<string, BanEntry>, maxRev: nat := map[], 0;
      for i := 0 to |es|
        invariant next == Decoded(es[..i]) && maxRev == MaxRevision(es[..i])
      {
        assert es[..i + 1][..i] == es[..i];
        if es[i].authId != "" {
          if es[i].revision > maxRev {
            maxRev := es[i].revision;
          }
          next := next[es[i].authId := es[i]];
        }
      }
      assert es[..|es|] == es;
      bans := next;
      rev := maxRev;
      if maxRev == 0 {
        Number();
      }
    }

    /** Gives every row a revision of its own, from 1 up. */
    method Number()
      modifies this
      ensures bans.Keys == old(bans).Keys && rev == |bans|
      ensures Numbered(old(bans), bans, bans.Keys, rev)
    {
      bans, rev := NumberedRows(bans);
    }
  }
}
