/** When an incremental inspection can forget an entry: a target probed again may land on
    the row of another account with the same file name. The exact condition under which
    every run settles the list. */
module Forgetting {
  import opened Identity
  import opened InspectionRun
  import opened ScriptedRuns
  import opened IncrementalRuns
  import opened Schedules
  import opened Sums
  import Text

  // ---- Names, holders and exposed rows -------------------------------------------------

  /** The name rows are matched by; empty for a blank one. */
  function NameOf(r: Row): string {
    Text.Lower(Text.Trim(r.fileName))
  }

  function TargetRow(f: AuthFile): Row {
    RowOf(f, Cancelled)
  }

  /** Equal but for the verdict. */
  predicate Like(a: Row, b: Row) {
    a == b.(verdict := a.verdict)
  }

  /** The row makes the entry known. */
  predicate Holds(r: Row, f: AuthFile) {
    !(RowKeys(r) !! FileKeys(f))
  }

  predicate FirstOfName(rows: seq<Row>, q: nat)
    requires q < |rows|
  {
    NameOf(rows[q]) != "" && forall h | 0 <= h < q :: NameOf(rows[h]) != NameOf(rows[q])
  }

  /** A target of this name that can be probed again and does not make the entry known. */
  predicate IsRival(ts: seq<AuthFile>, t: nat, name: string, f: AuthFile) {
    t < |ts| && Probes(ts[t]) && NameOf(TargetRow(ts[t])) == name && !Holds(TargetRow(ts[t]), f)
  }

  ghost predicate HasRival(ts: seq<AuthFile>, name: string, f: AuthFile) {
    exists t: nat :: IsRival(ts, t, name, f)
  }

  /** A rival's retry lands on this old row. */
  ghost predicate ExposedRow(prior: seq<Row>, ts: seq<AuthFile>, q: nat, f: AuthFile)
    requires q < |prior|
  {
    FirstOfName(prior, q) && HasRival(ts, NameOf(prior[q]), f)
  }

  /** A rival's retry lands on the row of this target, if it was delivered before the others
      of its name; no other row of the name makes the entry known. */
  ghost predicate ExposedTarget(prior: seq<Row>, ts: seq<AuthFile>, u: nat, f: AuthFile)
    requires u < |ts|
  {
    var name := NameOf(TargetRow(ts[u]));
    && name != ""
    && (forall q | 0 <= q < |prior| :: NameOf(prior[q]) != name)
    && (forall w | 0 <= w < |ts| && w != u && Holds(TargetRow(ts[w]), f) :: NameOf(TargetRow(ts[w])) != name)
    && HasRival(ts, name, f)
  }

  function Names(ts: seq<AuthFile>): seq<string> {
    Each((t: AuthFile) => NameOf(TargetRow(t)), ts)
  }

  ghost function HoldersOf(ts: seq<AuthFile>, f: AuthFile): set<nat> {
    set u: nat | u < |ts| && Holds(TargetRow(ts[u]), f)
  }

  ghost predicate AllExposed(prior: seq<Row>, ts: seq<AuthFile>, f: AuthFile) {
    && (forall q | 0 <= q < |prior| && Holds(prior[q], f) :: ExposedRow(prior, ts, q, f))
    && forall u | 0 <= u < |ts| && Holds(TargetRow(ts[u]), f) :: ExposedTarget(prior, ts, u, f)
  }

  /** Every row that makes the entry known can be replaced by one that does not, and there
      are workers enough to hold the others of a name back until the row to replace has been
      delivered. */
  ghost predicate Losable(prior: seq<Row>, ts: seq<AuthFile>, workers: nat, f: AuthFile) {
    AllExposed(prior, ts, f) && FewHeldBack(Names(ts), HoldersOf(ts, f), workers)
  }

  /** No two exposed targets have one name. */
  lemma HoldersLead(prior: seq<Row>, ts: seq<AuthFile>, f: AuthFile)
    requires AllExposed(prior, ts, f)
    ensures Leading(Names(ts), HoldersOf(ts, f))
  {
    hide NameOf, TargetRow, Holds, HasRival;
    forall u, v | u in HoldersOf(ts, f) && v in HoldersOf(ts, f) && Names(ts)[u] == Names(ts)[v] ensures u == v {
      assert ExposedTarget(prior, ts, u, f);
    }
  }

  /** The targets are new to the old rows, and no two of them share an index. */
  ghost predicate NewAndDistinct(prior: seq<Row>, ts: seq<AuthFile>) {
    && (forall q, i | 0 <= q < |prior| && 0 <= i < |ts| && Probes(ts[i]) && !Text.Blank(prior[q].authIndex) ::
          Text.Trim(prior[q].authIndex) != Text.Trim(ts[i].authIndex))
    && DistinctIndexes(ts)
  }

  ghost predicate DistinctIndexes(ts: seq<AuthFile>) {
    forall i, j | 0 <= i < |ts| && 0 <= j < |ts| && i != j && Probes(ts[i]) && Probes(ts[j]) ::
      Text.Trim(ts[i].authIndex) != Text.Trim(ts[j].authIndex)
  }

  // ---- Where a retry lands -----------------------------------------------------------------

  /** The rows as delivered: the old ones, then those of the targets in this order. */
  function Bases(prior: seq<Row>, ts: seq<AuthFile>, order: seq<nat>): seq<Row>
    requires Deliverable(ts, order)
  {
    prior + seq(|order|, k requires 0 <= k < |order| => TargetRow(ts[order[k]]))
  }

  /** The row at `q` is the one delivered there, or that of a target of the same name, which
      only happens to the first row of a name. */
  ghost predicate ShapedAt(r: Row, bases: seq<Row>, q: nat, ts: seq<AuthFile>)
    requires q < |bases|
  {
    || Like(r, bases[q])
    || (FirstOfName(bases, q) && exists t: nat :: ReplacedBy(r, bases[q], ts, t))
  }

  predicate ReplacedBy(r: Row, base: Row, ts: seq<AuthFile>, t: nat) {
    t < |ts| && Probes(ts[t]) && NameOf(TargetRow(ts[t])) == NameOf(base) && Like(r, TargetRow(ts[t]))
  }

  ghost predicate Shaped(rows: seq<Row>, bases: seq<Row>, ts: seq<AuthFile>) {
    |rows| == |bases| && forall q | 0 <= q < |rows| :: ShapedAt(rows[q], bases, q, ts)
  }

  lemma NamesDecide(a: Row, b: Row)
    ensures SameIdentity(a, b) <==>
      || (!Text.Blank(a.authIndex) && Text.Trim(a.authIndex) == Text.Trim(b.authIndex))
      || (NameOf(a) != "" && NameOf(a) == NameOf(b))
  {
  }

  lemma LikeFacts(a: Row, b: Row)
    requires Like(a, b)
    ensures NameOf(a) == NameOf(b) && a.authIndex == b.authIndex && RowKeys(a) == RowKeys(b)
    ensures forall f :: Holds(a, f) == Holds(b, f)
  {
  }

  lemma TargetRowFacts(f: AuthFile, v: Verdict)
    ensures Like(RowOf(f, v), TargetRow(f)) && RowOf(f, v).authIndex == f.authIndex
  {
  }

  lemma ShapedKeepsNames(rows: seq<Row>, bases: seq<Row>, ts: seq<AuthFile>, q: nat)
    requires Shaped(rows, bases, ts) && q < |rows|
    ensures NameOf(rows[q]) == NameOf(bases[q])
  {
    hide NameOf, Like;
    if Like(rows[q], bases[q]) {
      LikeFacts(rows[q], bases[q]);
    } else {
      var t: nat :| ReplacedBy(rows[q], bases[q], ts, t);
      LikeFacts(rows[q], TargetRow(ts[t]));
    }
  }

  /** A row carries the index of a target only where that target was delivered, or where it
      has taken over a row of its name. */
  lemma IndexIsOwn(rows: seq<Row>, prior: seq<Row>, ts: seq<AuthFile>, order: seq<nat>, t: nat, q: nat)
    requires NewAndDistinct(prior, ts) && Deliverable(ts, order) && Shaped(rows, Bases(prior, ts, order), ts)
    requires t < |ts| && Probes(ts[t]) && q < |rows|
    requires Text.Trim(rows[q].authIndex) == Text.Trim(ts[t].authIndex)
    ensures (q >= |prior| && order[q - |prior|] == t)
         || (NameOf(Bases(prior, ts, order)[q]) != "" && NameOf(Bases(prior, ts, order)[q]) == NameOf(TargetRow(ts[t])))
  {
    hide NameOf, Like, RowOf, Text.Trim;
    var bases := Bases(prior, ts, order);
    assert q < |prior| ==> bases[q] == prior[q];
    if Like(rows[q], bases[q]) {
      LikeFacts(rows[q], bases[q]);
      if q >= |prior| {
        var u := order[q - |prior|];
        TargetRowFacts(ts[u], Cancelled);
        assert bases[q] == TargetRow(ts[u]) && Probes(ts[u]);
      }
    } else {
      var u: nat :| ReplacedBy(rows[q], bases[q], ts, u);
      LikeFacts(rows[q], TargetRow(ts[u]));
      TargetRowFacts(ts[u], Cancelled);
    }
  }

  /** Where the rows match the row of a target: by name if it has one, else only its own. */
  lemma MatchIff(rows: seq<Row>, prior: seq<Row>, ts: seq<AuthFile>, order: seq<nat>, t: nat, v: Verdict, q: nat)
    requires NewAndDistinct(prior, ts) && Deliverable(ts, order) && Shaped(rows, Bases(prior, ts, order), ts)
    requires t < |ts| && Probes(ts[t]) && q < |rows|
    ensures var name, bases := NameOf(TargetRow(ts[t])), Bases(prior, ts, order);
      SameIdentity(rows[q], RowOf(ts[t], v)) <==>
        if name != "" then NameOf(bases[q]) == name else q >= |prior| && order[q - |prior|] == t
  {
    hide NameOf, Like, RowOf, NewAndDistinct, SameIdentity, ShapedAt;
    var row, bases := RowOf(ts[t], v), Bases(prior, ts, order);
    NamesDecide(rows[q], row);
    TargetRowFacts(ts[t], v);
    LikeFacts(row, TargetRow(ts[t]));
    ShapedKeepsNames(rows, bases, ts, q);
    if Text.Trim(rows[q].authIndex) == Text.Trim(ts[t].authIndex) {
      IndexIsOwn(rows, prior, ts, order, t, q);
    }
    if q >= |prior| && order[q - |prior|] == t {
      OwnRowMatches(rows[q], bases, q, ts, t, v);
    }
  }

  lemma OwnRowMatches(r: Row, bases: seq<Row>, q: nat, ts: seq<AuthFile>, t: nat, v: Verdict)
    requires q < |bases| && t < |ts| && Probes(ts[t]) && bases[q] == TargetRow(ts[t]) && ShapedAt(r, bases, q, ts)
    ensures SameIdentity(r, RowOf(ts[t], v))
  {
    hide NameOf, Like, RowOf;
    TargetRowFacts(ts[t], v);
    LikeFacts(RowOf(ts[t], v), TargetRow(ts[t]));
    NamesDecide(r, RowOf(ts[t], v));
    if Like(r, bases[q]) {
      LikeFacts(r, bases[q]);
    } else {
      var u: nat :| ReplacedBy(r, bases[q], ts, u);
      LikeFacts(r, TargetRow(ts[u]));
    }
  }

  /** A retry lands on the first row of its name, or on its own row if it has no name, and
      keeps the rows in shape. */
  lemma RetryLands(
      rows: seq<Row>, prior: seq<Row>, ts: seq<AuthFile>, order: seq<nat>, t: nat, v: Verdict)
      returns (c: nat)
    requires NewAndDistinct(prior, ts) && Deliverable(ts, order) && Shaped(rows, Bases(prior, ts, order), ts)
    requires t < |ts| && t in order && Probes(ts[t])
    ensures c < |rows| && Put(rows, RowOf(ts[t], v)) == rows[c := RowOf(ts[t], v)]
    ensures var bases, name := Bases(prior, ts, order), NameOf(TargetRow(ts[t]));
      && NameOf(bases[c]) == name && (name != "" ==> FirstOfName(bases, c))
      && (name == "" ==> bases[c] == TargetRow(ts[t]))
      && Shaped(rows[c := RowOf(ts[t], v)], bases, ts)
  {
    hide NameOf, Like, RowOf, NewAndDistinct, SameIdentity, ShapedAt;
    var row, bases, name := RowOf(ts[t], v), Bases(prior, ts, order), NameOf(TargetRow(ts[t]));
    forall q | 0 <= q < |rows|
      ensures SameIdentity(rows[q], row) <==>
        if name != "" then NameOf(bases[q]) == name else q >= |prior| && order[q - |prior|] == t
    {
      MatchIff(rows, prior, ts, order, t, v, q);
    }
    var k :| 0 <= k < |order| && order[k] == t;
    assert bases[|prior| + k] == TargetRow(ts[t]);
    c := FirstMatch(rows, row);
    assert c <= |prior| + k;
    TargetRowFacts(ts[t], v);
    LandingIsShaped(bases, c, ts, t, v);
  }

  lemma LandingIsShaped(bases: seq<Row>, c: nat, ts: seq<AuthFile>, t: nat, v: Verdict)
    requires c < |bases| && t < |ts| && Probes(ts[t]) && NameOf(bases[c]) == NameOf(TargetRow(ts[t]))
    requires if NameOf(bases[c]) != "" then FirstOfName(bases, c) else bases[c] == TargetRow(ts[t])
    ensures ShapedAt(RowOf(ts[t], v), bases, c, ts)
  {
    hide NameOf, RowOf;
    TargetRowFacts(ts[t], v);
    if NameOf(bases[c]) != "" {
      assert ReplacedBy(RowOf(ts[t], v), bases[c], ts, t);
    }
  }

  // ---- What is not lost ------------------------------------------------------------------

  lemma HolderPlace(rows: seq<Row>, f: AuthFile)
    ensures HasKey(rows, f) <==> exists q :: 0 <= q < |rows| && Holds(rows[q], f)
  {
    hide HasKey, RowKeys, FileKeys;
    HasKeyIff(rows, f);
    forall q | 0 <= q < |rows| ensures Holds(rows[q], f) <==> !(RowKeys(rows[q]) !! FileKeys(f)) {
    }
  }

  /** A row that is not the first of its name, or whose name has no rival, keeps holding. */
  lemma HolderStays(rows: seq<Row>, bases: seq<Row>, ts: seq<AuthFile>, q: nat, f: AuthFile)
    requires Shaped(rows, bases, ts) && q < |rows| && Holds(bases[q], f)
    requires !FirstOfName(bases, q) || !HasRival(ts, NameOf(bases[q]), f)
    ensures Holds(rows[q], f)
  {
    hide NameOf, Like, RowOf, Holds;
    if Like(rows[q], bases[q]) {
      LikeFacts(rows[q], bases[q]);
    } else {
      var t: nat :| ReplacedBy(rows[q], bases[q], ts, t);
      LikeFacts(rows[q], TargetRow(ts[t]));
      assert !IsRival(ts, t, NameOf(bases[q]), f);
    }
  }

  lemma OldHolderStays(rows: seq<Row>, prior: seq<Row>, ts: seq<AuthFile>, order: seq<nat>, q: nat, f: AuthFile)
    requires Deliverable(ts, order) && Shaped(rows, Bases(prior, ts, order), ts)
    requires q < |prior| && Holds(prior[q], f) && !ExposedRow(prior, ts, q, f)
    ensures HasKey(rows, f)
  {
    hide NameOf, Holds, HasKey, ShapedAt, HasRival;
    var bases := Bases(prior, ts, order);
    assert forall h | 0 <= h <= q :: bases[h] == prior[h];
    HolderStays(rows, bases, ts, q, f);
    HolderPlace(rows, f);
  }

  lemma TargetHolderStays(rows: seq<Row>, prior: seq<Row>, ts: seq<AuthFile>, order: seq<nat>, u: nat, f: AuthFile)
    requires Deliverable(ts, order) && Shaped(rows, Bases(prior, ts, order), ts)
    requires forall i: nat | i < |ts| :: i in order
    requires u < |ts| && Holds(TargetRow(ts[u]), f) && !ExposedTarget(prior, ts, u, f)
    ensures HasKey(rows, f)
  {
    hide NameOf, Holds, HasKey, ShapedAt, HasRival, TargetRow;
    var bases, name := Bases(prior, ts, order), NameOf(TargetRow(ts[u]));
    assert u in order;
    var k :| 0 <= k < |order| && order[k] == u;
    var q := |prior| + k;
    assert bases[q] == TargetRow(ts[u]);
    HolderPlace(rows, f);
    if !FirstOfName(bases, q) || !HasRival(ts, name, f) {
      HolderStays(rows, bases, ts, q, f);
    } else {
      assert forall h | 0 <= h < |prior| :: bases[h] == prior[h];
      var w: nat :| w < |ts| && w != u && Holds(TargetRow(ts[w]), f) && NameOf(TargetRow(ts[w])) == name;
      assert w in order;
      var l :| 0 <= l < |order| && order[l] == w;
      assert bases[|prior| + l] == TargetRow(ts[w]);
      HolderStays(rows, bases, ts, |prior| + l, f);
    }
  }

  lemma SomeHolderStays(
    rows: seq<Row>, prior: seq<Row>, ts: seq<AuthFile>, workers: nat, order: seq<nat>, f: AuthFile)
    requires Deliverable(ts, order) && InTurn(order, workers) && Shaped(rows, Bases(prior, ts, order), ts)
    requires (forall i: nat | i < |ts| :: i in order) && !Losable(prior, ts, workers, f)
    ensures HasKey(rows, f)
  {
    hide Holds, HasKey, Shaped, ExposedRow, ExposedTarget, Bases, InTurn, FewHeldBack;
    if q :| 0 <= q < |prior| && Holds(prior[q], f) && !ExposedRow(prior, ts, q, f) {
      OldHolderStays(rows, prior, ts, order, q, f);
    } else if u: nat :| u < |ts| && Holds(TargetRow(ts[u]), f) && !ExposedTarget(prior, ts, u, f) {
      TargetHolderStays(rows, prior, ts, order, u, f);
    } else {
      CrowdedHolderStays(rows, prior, ts, workers, order, f);
    }
  }

  /** Too many would have to be held back: some holder is not the first of its name. */
  lemma CrowdedHolderStays(
    rows: seq<Row>, prior: seq<Row>, ts: seq<AuthFile>, workers: nat, order: seq<nat>, f: AuthFile)
    requires Deliverable(ts, order) && InTurn(order, workers) && Shaped(rows, Bases(prior, ts, order), ts)
    requires forall i: nat | i < |ts| :: i in order
    requires AllExposed(prior, ts, f) && !FewHeldBack(Names(ts), HoldersOf(ts, f), workers)
    ensures HasKey(rows, f)
  {
    hide NameOf, Holds, HasKey, Shaped, TargetRow, InTurn, AllExposed, HeldBack, Bases;
    var group, leaders := Names(ts), HoldersOf(ts, f);
    HoldersLead(prior, ts, f);
    var u :| u in leaders && |HeldBack(group, leaders, u)| >= workers;
    assert forall i: nat :: i in order <==> i < |ts|;
    ManyHeldBack(group, leaders, order, workers, u);
    var p, q :| 0 <= p < q < |order| && order[q] in leaders && group[order[p]] == group[order[q]];
    LaterOfItsName(rows, prior, ts, order, p, q, f);
  }

  /** A row that another of its name precedes is never replaced. */
  lemma LaterOfItsName(
    rows: seq<Row>, prior: seq<Row>, ts: seq<AuthFile>, order: seq<nat>, p: nat, q: nat, f: AuthFile)
    requires Deliverable(ts, order) && Shaped(rows, Bases(prior, ts, order), ts) && p < q < |order|
    requires Names(ts)[order[p]] == Names(ts)[order[q]] && Holds(TargetRow(ts[order[q]]), f)
    ensures HasKey(rows, f)
  {
    hide NameOf, Holds, HasKey, ShapedAt, TargetRow;
    var bases := Bases(prior, ts, order);
    assert bases[|prior| + p] == TargetRow(ts[order[p]]) && bases[|prior| + q] == TargetRow(ts[order[q]]);
    HolderStays(rows, bases, ts, |prior| + q, f);
    HolderPlace(rows, f);
  }

  // ---- Every run -------------------------------------------------------------------------

  /** The rows of a run in progress, delivered in this order. */
  ghost predicate Underway(s: State, order: seq<nat>) {
    && Deliverable(s.targets, order) && InTurn(order, s.workers)
    && (forall i: nat :: i in s.written <==> i in order)
    && Shaped(s.b.results, Bases(s.prior, s.targets, order), s.targets)
    && (s.phase == Primary ==>
          |s.b.results| >= |s.prior| && forall q | 0 <= q < |s.prior| :: s.b.results[q] == s.prior[q])
    && (s.phase == Primary ==> forall q | 0 <= q < |s.b.results| ::
          Like(s.b.results[q], Bases(s.prior, s.targets, order)[q]))
  }

  ghost predicate SettleInv(s: State, f: AuthFile) {
    && FlagsOk(s)
    && (s.planned ==>
          if s.f.running then
            && s.b.runTargets == s.targets && !s.b.merging && (s.phase == Retrying ==> AllWritten(s))
            && (forall i | i in s.timedOut && i < |s.targets| :: Probes(s.targets[i]))
            && exists order: seq<nat> :: Underway(s, order)
          else HasKey(s.b.results, f))
    && (!s.planned && s.f.running ==> !s.b.fullClearPending && s.b.runTargets == [])
    && (s.phase == Listing ==> s.b.results == s.prior && s.written == {} && s.timedOut == {})
  }

  /** An entry that was known or is a target, and cannot be lost. */
  ghost predicate Safe(prior: seq<Row>, ts: seq<AuthFile>, workers: nat, f: AuthFile) {
    && FileKeys(f) != {} && (HasKey(prior, f) || f in ts)
    && !Losable(prior, ts, workers, f) && NewAndDistinct(prior, ts)
  }

  lemma SettledByDelivery(s: State, order: seq<nat>, f: AuthFile)
    requires Underway(s, order) && AllWritten(s) && Safe(s.prior, s.targets, s.workers, f)
    ensures HasKey(s.b.results, f)
  {
    hide Losable, Shaped, Bases, NewAndDistinct, HasKey;
    forall i: nat | i < |s.targets| ensures i in order {
      assert i in s.written;
    }
    SomeHolderStays(s.b.results, s.prior, s.targets, s.workers, order, f);
  }

  lemma {:induction false} CancelKnows(rows: seq<Row>, ts: seq<AuthFile>, k: nat)
    requires k <= |ts|
    ensures rows <= CancelFirst(rows, ts, false, k)
    ensures forall i | 0 <= i < k && FileKeys(ts[i]) != {} :: HasKey(CancelFirst(rows, ts, false, k), ts[i])
    decreases k
  {
    hide FileKeys, HasKey, CancelOne;
    if k > 0 {
      CancelKnows(rows, ts, k - 1);
      var before := CancelFirst(rows, ts, false, k - 1);
      CancelOneRemembers(before, ts[k - 1]);
      forall i | 0 <= i < k - 1 && FileKeys(ts[i]) != {} ensures HasKey(CancelOne(before, ts[k - 1], false), ts[i]) {
        LongerListKnowsMore(before, CancelOne(before, ts[k - 1], false), ts[i]);
      }
    }
  }

  lemma SettledByStop(s: State, t: State, f: AuthFile)
    requires SettleInv(s, f) && s.planned && s.f.running && Follows(s, Stop, t)
    requires Safe(s.prior, s.targets, s.workers, f)
    ensures HasKey(t.b.results, f)
  {
    hide Losable, Shaped, Bases, NewAndDistinct, HasKey, FileKeys, CancelFirst;
    CancelKnows(s.b.results, s.targets, |s.targets|);
    assert t.b.results == CancelFirst(s.b.results, s.targets, false, |s.targets|);
    if i :| 0 <= i < |s.targets| && s.targets[i] == f {
      assert HasKey(t.b.results, s.targets[i]);
    } else {
      var order: seq<nat> :| Underway(s, order);
      if s.phase == Retrying {
        SettledByDelivery(s, order, f);
      } else {
        assert s.prior <= s.b.results;
        LongerListKnowsMore(s.prior, s.b.results, f);
      }
      LongerListKnowsMore(s.b.results, t.b.results, f);
    }
  }

  lemma BasesGrow(prior: seq<Row>, ts: seq<AuthFile>, order: seq<nat>, i: nat)
    requires Deliverable(ts, order) && i < |ts| && i !in order
    ensures Deliverable(ts, order + [i])
    ensures Bases(prior, ts, order + [i]) == Bases(prior, ts, order) + [TargetRow(ts[i])]
  {
    hide TargetRow;
  }

  lemma TurnsGrow(s: State, order: seq<nat>, i: nat)
    requires InTurn(order, s.workers) && (forall j: nat :: j in s.written <==> j in order)
    requires |Pending(s.written, i)| < s.workers
    ensures InTurn(order + [i], s.workers)
  {
    assert s.written == Members(order);
    assert [i][..0] == [] && order + [] == order;
    JoinedInTurn(order, [i], s.workers);
  }

  lemma WriteKeepsUnderway(s: State, step: Step, t: State, order: seq<nat>)
    requires FlagsOk(s) && s.planned && s.f.running && Underway(s, order) && Follows(s, step, t) && step.Write?
    ensures Underway(t, order + [step.i])
  {
    hide RowOf, NameOf, Bases, Like, FirstOfName, InTurn;
    BasesGrow(s.prior, s.targets, order, step.i);
    TurnsGrow(s, order, step.i);
    TargetRowFacts(s.targets[step.i], step.v);
    var bases := Bases(t.prior, t.targets, order + [step.i]);
    forall q | 0 <= q < |t.b.results| ensures Like(t.b.results[q], bases[q]) {
      if q < |s.b.results| {
        assert Like(s.b.results[q], Bases(s.prior, s.targets, order)[q]);
      }
    }
  }

  lemma RetryKeepsUnderway(s: State, step: Step, t: State, order: seq<nat>)
    requires FlagsOk(s) && s.planned && s.f.running && Underway(s, order) && Follows(s, step, t) && step.Retry?
    requires NewAndDistinct(s.prior, s.targets) && AllWritten(s) && Probes(s.targets[step.i])
    ensures Underway(t, order)
  {
    hide RowOf, NameOf, Bases, Like, FirstOfName, NewAndDistinct, Shaped, Put;
    assert step.i in s.written && step.i in order;
    var c := RetryLands(s.b.results, s.prior, s.targets, order, step.i, step.v);
  }

  lemma CommitIsUnderway(s: State, step: Step, t: State)
    requires FlagsOk(s) && s.phase == Listing && s.f.running && s.b.results == s.prior && s.written == {}
    requires !s.b.fullClearPending && !s.planned && Follows(s, step, t) && step.Commit?
    ensures Underway(t, [])
  {
    hide RowOf, NameOf;
    NobodyInTurn(t.workers);
    assert Bases(t.prior, t.targets, []) == t.prior;
  }

  lemma PhaseKeepsUnderway(s: State, t: State, order: seq<nat>)
    requires Underway(s, order) && t.phase == Retrying
    requires t.targets == s.targets && t.written == s.written && t.prior == s.prior && t.workers == s.workers
    requires t.b.results == s.b.results
    ensures Underway(t, order)
  {
    hide Shaped, Bases;
  }

  lemma StepSettles(s: State, step: Step, t: State, f: AuthFile)
    requires SettleInv(s, f) && Follows(s, step, t) && Safe(t.prior, t.targets, t.workers, f)
    requires s.planned ==> Safe(s.prior, s.targets, s.workers, f)
    ensures SettleInv(t, f)
  {
    FlagsStayOk(s, step, t);
    if s.planned && s.f.running {
      hide SettleInv, Safe, Follows;
      PlannedStepSettles(s, step, t, f);
    } else if s.planned {
      OverStays(s, step, t, f);
    } else if t.planned {
      CommitSettles(s, step, t, f);
    } else {
      hide SettleInv, Safe, Follows;
      UnplannedSettles(s, step, t, f);
    }
  }

  lemma OverStays(s: State, step: Step, t: State, f: AuthFile)
    requires SettleInv(s, f) && s.planned && !s.f.running && Follows(s, step, t) && FlagsOk(t)
    ensures SettleInv(t, f)
  {
    hide HasKey, Put, RowOf, Pending, CancelFirst;
  }

  lemma CommitSettles(s: State, step: Step, t: State, f: AuthFile)
    requires SettleInv(s, f) && !s.planned && t.planned && Follows(s, step, t) && FlagsOk(t)
    ensures SettleInv(t, f)
  {
    hide Underway, HasKey, Put, RowOf, Pending, AbortedBoard;
    CommitIsUnderway(s, step, t);
  }

  lemma PlannedStepSettles(s: State, step: Step, t: State, f: AuthFile)
    requires SettleInv(s, f) && s.planned && s.f.running && Follows(s, step, t)
    requires Safe(s.prior, s.targets, s.workers, f)
    requires FlagsOk(t) && t.planned && t.targets == s.targets
    ensures SettleInv(t, f)
  {
    hide Safe, Underway, HasKey, AbortedBoard, Put, RowOf;
    if step.Stop? {
      SettledByStop(s, t, f);
    } else if step.End? {
      var order: seq<nat> :| Underway(s, order);
      SettledByDelivery(s, order, f);
    } else {
      DeliverySettles(s, step, t, f);
    }
  }

  lemma DeliverySettles(s: State, step: Step, t: State, f: AuthFile)
    requires SettleInv(s, f) && s.planned && s.f.running && Follows(s, step, t)
    requires Safe(s.prior, s.targets, s.workers, f)
    requires FlagsOk(t) && t.planned && t.targets == s.targets && !step.Stop? && !step.End?
    ensures SettleInv(t, f)
  {
    assert NewAndDistinct(s.prior, s.targets);
    hide Safe, Underway, HasKey, AbortedBoard, Put, RowOf, NewAndDistinct;
    StillUnderway(s, step, t, f);
    BoardStays(s, step, t);
  }

  lemma StillUnderway(s: State, step: Step, t: State, f: AuthFile)
    requires SettleInv(s, f) && s.planned && s.f.running && Follows(s, step, t) && !step.Stop? && !step.End?
    requires NewAndDistinct(s.prior, s.targets)
    ensures exists order: seq<nat> :: Underway(t, order)
  {
    var order: seq<nat> :| Underway(s, order);
    hide Underway, HasKey, AbortedBoard, Put, RowOf, NewAndDistinct;
    if step.Write? {
      WriteKeepsUnderway(s, step, t, order);
    } else if step.Retry? {
      RetryKeepsUnderway(s, step, t, order);
    } else {
      PhaseKeepsUnderway(s, t, order);
    }
  }

  lemma BoardStays(s: State, step: Step, t: State)
    requires FlagsOk(s) && s.planned && s.f.running && Follows(s, step, t) && !step.Stop? && !step.End?
    requires s.b.runTargets == s.targets && !s.b.merging && (s.phase == Retrying ==> AllWritten(s))
    requires forall i | i in s.timedOut && i < |s.targets| :: Probes(s.targets[i])
    ensures t.f == s.f && t.planned && t.targets == s.targets && t.b.runTargets == t.targets && !t.b.merging
    ensures (t.phase == Retrying ==> AllWritten(t)) && t.phase != Listing
    ensures forall i | i in t.timedOut && i < |t.targets| :: Probes(t.targets[i])
  {
    hide Put, RowOf;
  }

  lemma {:induction false} RunsSettle(states: seq<State>, steps: seq<Step>, n: nat, f: AuthFile)
    requires Run(states, steps, false) && n < |states|
    requires states[n].planned ==> Safe(states[n].prior, states[n].targets, states[n].workers, f)
    ensures SettleInv(states[n], f)
    decreases n
  {
    hide Safe, HasKey, Put, AbortedBoard, RowOf;
    if n == 0 {
      StartSettles(states[0], f);
    } else {
      var s, t := states[n - 1], states[n];
      assert Follows(s, steps[n - 1], t);
      TargetsComeWithThePlan(states, steps, false, n - 1);
      FlagsStayOk(s, steps[n - 1], t);
      RunsSettle(states, steps, n - 1, f);
      if t.planned {
        StepSettles(s, steps[n - 1], t, f);
      } else {
        UnplannedSettles(s, steps[n - 1], t, f);
      }
    }
  }

  lemma StartSettles(s: State, f: AuthFile)
    requires Initial(s, false)
    ensures SettleInv(s, f)
  {
  }

  lemma UnplannedSettles(s: State, step: Step, t: State, f: AuthFile)
    requires SettleInv(s, f) && Follows(s, step, t) && !t.planned
    ensures SettleInv(t, f)
  {
    FlagsStayOk(s, step, t);
    hide HasKey, AbortedBoard, Put, RowOf;
    if step == Stop && s.f.running {
      NothingToCancel(s.b);
    }
  }

  // ---- A run that loses a losable entry --------------------------------------------------

  /** The order of delivery in which every target that makes the entry known comes first of
      its name. */
  ghost function LosingOrder(ts: seq<AuthFile>, f: AuthFile): seq<nat> {
    Schedule(Names(ts), HoldersOf(ts, f), |ts|)
  }

  lemma LosingOrderWorks(prior: seq<Row>, ts: seq<AuthFile>, workers: nat, f: AuthFile)
    requires Losable(prior, ts, workers, f) && workers >= 1
    ensures var order := LosingOrder(ts, f);
      && Deliverable(ts, order) && InTurn(order, workers) && (forall i: nat | i < |ts| :: i in order)
      && LeadersFirst(Names(ts), HoldersOf(ts, f), order)
  {
    hide InTurn, FewHeldBack, AllExposed, Schedule, Leading, LeadersFirst;
    HoldersLead(prior, ts, f);
    ScheduleWorks(Names(ts), HoldersOf(ts, f), workers);
    var order := LosingOrder(ts, f);
    assert forall k | 0 <= k < |order| :: order[k] in order;
  }

  /** The targets that can be probed again and do not make the entry known. */
  ghost function Rivals(ts: seq<AuthFile>, f: AuthFile): set<nat> {
    set t: nat | t < |ts| && Probes(ts[t]) && !Holds(TargetRow(ts[t]), f)
  }

  /** Delivered in that order, every row that makes a losable entry known is the first of
      its name. */
  lemma HoldersAreFirst(prior: seq<Row>, ts: seq<AuthFile>, f: AuthFile, q: nat)
    requires AllExposed(prior, ts, f) && Deliverable(ts, LosingOrder(ts, f))
    requires LeadersFirst(Names(ts), HoldersOf(ts, f), LosingOrder(ts, f))
    requires var bases := Bases(prior, ts, LosingOrder(ts, f)); q < |bases| && Holds(bases[q], f)
    ensures var bases := Bases(prior, ts, LosingOrder(ts, f));
      FirstOfName(bases, q) && HasRival(ts, NameOf(bases[q]), f)
  {
    hide NameOf, Holds, TargetRow, HasRival, LosingOrder;
    var plan := LosingOrder(ts, f);
    var bases := Bases(prior, ts, plan);
    assert forall h | 0 <= h < |prior| :: bases[h] == prior[h];
    if q < |prior| {
      assert ExposedRow(prior, ts, q, f);
    } else {
      var u := plan[q - |prior|];
      assert bases[q] == TargetRow(ts[u]) && u in HoldersOf(ts, f);
      assert ExposedTarget(prior, ts, u, f);
      forall h | 0 <= h < q ensures NameOf(bases[h]) != NameOf(bases[q]) {
        if h >= |prior| {
          assert bases[h] == TargetRow(ts[plan[h - |prior|]]);
          assert Names(ts)[plan[h - |prior|]] != Names(ts)[u];
        }
      }
    }
  }

  /** What the losing run needs of a losable entry and its order. */
  ghost predicate Doomed(prior: seq<Row>, ts: seq<AuthFile>, f: AuthFile) {
    && NewAndDistinct(prior, ts) && AllExposed(prior, ts, f)
    && Deliverable(ts, LosingOrder(ts, f)) && (forall i: nat | i < |ts| :: i in LosingOrder(ts, f))
    && LeadersFirst(Names(ts), HoldersOf(ts, f), LosingOrder(ts, f))
  }

  /** What still holds the entry when the rivals below `k` have been probed again. */
  ghost predicate Losing(s: State, ts: seq<AuthFile>, bases: seq<Row>, f: AuthFile, k: nat) {
    && Current(s) && s.f.running && s.planned && s.phase == Retrying && s.targets == ts
    && s.timedOut == Rivals(ts, f) && (forall i: nat :: i in s.retried <==> i in Rivals(ts, f) && i < k)
    && Shaped(s.b.results, bases, ts)
    && forall q | 0 <= q < |bases| && Holds(s.b.results[q], f) ::
         && Holds(bases[q], f)
         && forall t: nat | t in Rivals(ts, f) && t < k :: NameOf(TargetRow(ts[t])) != NameOf(bases[q])
  }

  lemma RivalTakesOver(s: State, prior: seq<Row>, ts: seq<AuthFile>, f: AuthFile, k: nat)
    requires Doomed(prior, ts, f) && k < |ts| && k in Rivals(ts, f)
    requires Losing(s, ts, Bases(prior, ts, LosingOrder(ts, f)), f, k)
    ensures Enabled(s, Retry(k, Probed("ok")))
    ensures Losing(Next(s, Retry(k, Probed("ok"))), ts, Bases(prior, ts, LosingOrder(ts, f)), f, k + 1)
  {
    hide NameOf, Like, RowOf, TargetRow, Holds, AllExposed, NewAndDistinct, Put, LosingOrder, Bases, ShapedAt;
    hide LeadersFirst, Schedule;
    var order := LosingOrder(ts, f);
    var bases, v := Bases(prior, ts, order), Probed("ok");
    assert k in order;
    var c := RetryLands(s.b.results, prior, ts, order, k, v);
    var t := Next(s, Retry(k, v));
    RivalRowDoesNotHold(ts[k], v, f);
    forall q | 0 <= q < |bases| && Holds(t.b.results[q], f)
      ensures Holds(bases[q], f) && NameOf(TargetRow(ts[k])) != NameOf(bases[q])
    {
      assert q != c && t.b.results[q] == s.b.results[q];
      HoldersAreFirst(prior, ts, f, q);
    }
  }

  lemma RivalRowDoesNotHold(r: AuthFile, v: Verdict, f: AuthFile)
    requires !Holds(TargetRow(r), f)
    ensures !Holds(RowOf(r, v), f)
  {
    TargetRowFacts(r, v);
    LikeFacts(RowOf(r, v), TargetRow(r));
  }

  lemma {:induction false} RivalsTakeOver(
      before: seq<State>, taken: seq<Step>, prior: seq<Row>, ts: seq<AuthFile>, f: AuthFile, k: nat)
    returns (states: seq<State>, steps: seq<Step>)
    requires Doomed(prior, ts, f) && k <= |ts| && Deliverable(ts, LosingOrder(ts, f))
    requires Run(before, taken, false)
    requires Losing(before[|taken|], ts, Bases(prior, ts, LosingOrder(ts, f)), f, 0)
    ensures Run(states, steps, false)
    ensures states[|steps|].prior == before[|taken|].prior && states[|steps|].workers == before[|taken|].workers
    ensures Losing(states[|steps|], ts, Bases(prior, ts, LosingOrder(ts, f)), f, k)
    decreases k
  {
    hide Doomed, Losing, LosingOrder, Bases, Enabled, Next;
    if k == 0 {
      states, steps := before, taken;
    } else {
      states, steps := RivalsTakeOver(before, taken, prior, ts, f, k - 1);
      var s := states[|steps|];
      if k - 1 in Rivals(ts, f) {
        RivalTakesOver(s, prior, ts, f, k - 1);
        var step := Retry(k - 1, Probed("ok"));
        SameOrigin(s, k - 1, Probed("ok"));
        Extended(states, steps, false, step, Next(s, step));
        states, steps := states + [Next(s, step)], steps + [step];
      } else {
        NotARival(s, ts, Bases(prior, ts, LosingOrder(ts, f)), f, k - 1);
      }
    }
  }

  lemma NotARival(s: State, ts: seq<AuthFile>, bases: seq<Row>, f: AuthFile, k: nat)
    requires Losing(s, ts, bases, f, k) && k !in Rivals(ts, f)
    ensures Losing(s, ts, bases, f, k + 1)
  {
    hide Shaped, Holds, NameOf, TargetRow;
  }

  lemma SameOrigin(s: State, i: nat, v: Verdict)
    requires Enabled(s, Retry(i, v))
    ensures Next(s, Retry(i, v)).prior == s.prior && Next(s, Retry(i, v)).workers == s.workers
  {
    hide Put, RowOf;
  }

  /** Losing is complete: no row holds the entry when all rivals have been probed again. */
  lemma NothingHolds(s: State, prior: seq<Row>, ts: seq<AuthFile>, f: AuthFile)
    requires Doomed(prior, ts, f)
    requires Losing(s, ts, Bases(prior, ts, LosingOrder(ts, f)), f, |ts|)
    ensures !HasKey(s.b.results, f) && s.retried == s.timedOut
  {
    hide NameOf, TargetRow, Holds, AllExposed, NewAndDistinct, LosingOrder, Bases, HasKey, LeadersFirst;
    var bases := Bases(prior, ts, LosingOrder(ts, f));
    HolderPlace(s.b.results, f);
    forall q | 0 <= q < |bases| ensures !Holds(s.b.results[q], f) {
      if Holds(bases[q], f) {
        HoldersAreFirst(prior, ts, f, q);
        var t: nat :| IsRival(ts, t, NameOf(bases[q]), f);
        assert t in Rivals(ts, f);
      }
    }
    assert s.retried == s.timedOut;
  }

  /** All is delivered, the rivals have timed out, and their second probes begin. */
  lemma RivalsTimeOut(prior: seq<Row>, ts: seq<AuthFile>, workers: nat, f: AuthFile)
    returns (states: seq<State>, steps: seq<Step>)
    requires Deliverable(ts, LosingOrder(ts, f)) && (forall i: nat | i < |ts| :: i in LosingOrder(ts, f))
    requires InTurn(LosingOrder(ts, f), workers) && workers >= 1 && Rivals(ts, f) != {}
    ensures Run(states, steps, false) && states[|steps|].prior == prior && states[|steps|].workers == workers
    ensures Losing(states[|steps|], ts, Bases(prior, ts, LosingOrder(ts, f)), f, 0)
  {
    hide LosingOrder, Holds, RowOf, InTurn;
    var plan, late := LosingOrder(ts, f), Rivals(ts, f);
    states, steps := DeliveredRun(prior, ts, false, workers, plan, late, |plan|);
    var s := states[|steps|];
    assert plan[..|plan|] == plan;
    assert s.timedOut == late;
    var t := Next(s, BeginRetry);
    Extended(states, steps, false, BeginRetry, t);
    states, steps := states + [t], steps + [BeginRetry];
    DeliveredIsShaped(s, prior, ts, plan, late, f);
  }

  lemma DeliveredIsShaped(s: State, prior: seq<Row>, ts: seq<AuthFile>, plan: seq<nat>, late: set<nat>, f: AuthFile)
    requires Delivered(s, prior, ts, plan, late, |plan|)
    ensures Shaped(s.b.results, Bases(prior, ts, plan), ts)
    ensures forall q | 0 <= q < |s.b.results| && Holds(s.b.results[q], f) :: Holds(Bases(prior, ts, plan)[q], f)
  {
    hide RowOf, Holds, NameOf, Like;
    var bases := Bases(prior, ts, plan);
    forall q | 0 <= q < |bases|
      ensures Like(s.b.results[q], bases[q]) && Holds(s.b.results[q], f) == Holds(bases[q], f)
    {
      if q >= |prior| {
        TargetRowFacts(ts[plan[q - |prior|]], FirstVerdict(plan[q - |prior|], late));
        assert bases[q] == TargetRow(ts[plan[q - |prior|]]);
        assert s.b.results[|prior| + (q - |prior|)] == s.b.results[q];
      } else {
        assert s.b.results[q] == s.b.results[..|prior|][q] == prior[q];
        LikeItself(prior[q]);
      }
      LikeFacts(s.b.results[q], bases[q]);
    }
  }

  lemma LikeItself(r: Row)
    ensures Like(r, r)
  {
  }

  lemma RivalsExist(prior: seq<Row>, ts: seq<AuthFile>, f: AuthFile)
    requires AllExposed(prior, ts, f) && FileKeys(f) != {} && (HasKey(prior, f) || f in ts)
    ensures Rivals(ts, f) != {}
  {
    hide NameOf, TargetRow, Holds, HasKey, FileKeys;
    if HasKey(prior, f) {
      HolderPlace(prior, f);
      var q :| 0 <= q < |prior| && Holds(prior[q], f);
      assert ExposedRow(prior, ts, q, f);
      var t: nat :| IsRival(ts, t, NameOf(prior[q]), f);
      assert t in Rivals(ts, f);
    } else {
      var u :| 0 <= u < |ts| && ts[u] == f;
      OwnRowHolds(f);
      assert ExposedTarget(prior, ts, u, f);
      var t: nat :| IsRival(ts, t, NameOf(TargetRow(ts[u])), f);
      assert t in Rivals(ts, f);
    }
  }

  lemma OwnRowHolds(f: AuthFile)
    requires FileKeys(f) != {}
    ensures Holds(TargetRow(f), f)
  {
    RowsKeepKeys(f, Cancelled);
  }

  lemma LosingRun(prior: seq<Row>, ts: seq<AuthFile>, workers: nat, f: AuthFile)
    returns (states: seq<State>, steps: seq<Step>)
    requires NewAndDistinct(prior, ts) && Losable(prior, ts, workers, f) && workers >= 1
    requires FileKeys(f) != {} && (HasKey(prior, f) || f in ts)
    ensures Run(states, steps, false)
    ensures var s := states[|steps|];
      && s.workers == workers && s.prior == prior && s.targets == ts && s.planned && !s.f.running
      && !HasKey(s.b.results, f)
  {
    hide NewAndDistinct, AllExposed, FewHeldBack, HasKey, LosingOrder, Deliverable, Bases, Shaped, Holds, FileKeys;
    hide InTurn, LeadersFirst;
    RivalsExist(prior, ts, f);
    LosingOrderWorks(prior, ts, workers, f);
    states, steps := RivalsTimeOut(prior, ts, workers, f);
    states, steps := RivalsTakeOver(states, steps, prior, ts, f, |ts|);
    var s := states[|steps|];
    NothingHolds(s, prior, ts, f);
    var t := Next(s, End);
    Extended(states, steps, false, End, t);
    states, steps := states + [t], steps + [End];
  }

  // ---- The exact condition -----------------------------------------------------------------

  /** The targets are those selected from the list, in some order. */
  ghost predicate SelectedFrom(prior: seq<Row>, ts: seq<AuthFile>, files: seq<AuthFile>, wanted: AuthFile -> bool) {
    forall f :: f in ts <==> f in FilterNew(files, KnownKeys(prior), wanted)
  }

  /** Whatever happens in a run with these workers, selecting again finds only entries
      without any key. */
  ghost predicate AlwaysSettles(
    prior: seq<Row>, ts: seq<AuthFile>, workers: nat, files: seq<AuthFile>, wanted: AuthFile -> bool)
  {
    forall states: seq<State>, steps: seq<Step> | Run(states, steps, false) ::
      IsOver(states[|steps|], prior, ts, workers) ==> Settled(states[|steps|], files, wanted)
  }

  /** A run over these has ended or was stopped with its plan committed. */
  ghost predicate IsOver(s: State, prior: seq<Row>, ts: seq<AuthFile>, workers: nat) {
    s.prior == prior && s.targets == ts && s.workers == workers && s.planned && !s.f.running
  }

  ghost predicate Settled(s: State, files: seq<AuthFile>, wanted: AuthFile -> bool) {
    forall f | f in FilterNew(files, KnownKeys(s.b.results), wanted) :: FileKeys(f) == {}
  }

  lemma SelectedAreNew(prior: seq<Row>, ts: seq<AuthFile>, files: seq<AuthFile>, wanted: AuthFile -> bool)
    requires SelectedFrom(prior, ts, files, wanted) && DistinctIndexes(ts)
    ensures NewAndDistinct(prior, ts)
  {
    hide Text.Trim, KnownKeys;
    forall q, i | 0 <= q < |prior| && 0 <= i < |ts| && Probes(ts[i]) && !Text.Blank(prior[q].authIndex)
      ensures Text.Trim(prior[q].authIndex) != Text.Trim(ts[i].authIndex)
    {
      assert ts[i] in ts && !HasKey(prior, ts[i]);
      HasKeyIff(prior, ts[i]);
      assert RowKeys(prior[q]) == {ByIndex(Text.Trim(prior[q].authIndex))};
      assert FileKeys(ts[i]) == {ByIndex(Text.Trim(ts[i].authIndex))};
      assert RowKeys(prior[q]) !! FileKeys(ts[i]);
    }
  }

  /** Every incremental run settles the list, for targets with indexes of their own, exactly
      when no wanted entry is losable. */
  lemma IncrementalFixpointIff(
    prior: seq<Row>, ts: seq<AuthFile>, workers: nat, files: seq<AuthFile>, wanted: AuthFile -> bool)
    requires SelectedFrom(prior, ts, files, wanted) && DistinctIndexes(ts) && workers >= 1
    ensures AlwaysSettles(prior, ts, workers, files, wanted) <==>
      forall f | f in files && wanted(f) && FileKeys(f) != {} :: !Losable(prior, ts, workers, f)
  {
    hide Losable, NewAndDistinct, DistinctIndexes, FileKeys;
    SelectedAreNew(prior, ts, files, wanted);
    if f :| f in files && wanted(f) && FileKeys(f) != {} && Losable(prior, ts, workers, f) {
      assert HasKey(prior, f) || f in ts;
      var states, steps := LosingRun(prior, ts, workers, f);
      assert f in FilterNew(files, KnownKeys(states[|steps|].b.results), wanted);
    } else {
      forall states: seq<State>, steps: seq<Step> | Run(states, steps, false)
        ensures IsOver(states[|steps|], prior, ts, workers) ==> Settled(states[|steps|], files, wanted)
      {
        if IsOver(states[|steps|], prior, ts, workers) {
          AllSettle(states, steps, files, wanted);
        }
      }
    }
  }

  lemma AllSettle(states: seq<State>, steps: seq<Step>, files: seq<AuthFile>, wanted: AuthFile -> bool)
    requires Run(states, steps, false)
    requires var s := states[|steps|];
      && s.planned && !s.f.running
      && SelectedFrom(s.prior, s.targets, files, wanted) && NewAndDistinct(s.prior, s.targets)
      && forall f | f in files && wanted(f) && FileKeys(f) != {} :: !Losable(s.prior, s.targets, s.workers, f)
    ensures Settled(states[|steps|], files, wanted)
  {
    hide Losable, NewAndDistinct, FileKeys;
    var s := states[|steps|];
    forall f | f in FilterNew(files, KnownKeys(s.b.results), wanted) ensures FileKeys(f) == {} {
      assert HasKey(s.prior, f) || f in s.targets;
      if FileKeys(f) != {} {
        RunsSettle(states, steps, |steps|, f);
        assert false;
      }
    }
  }
}
