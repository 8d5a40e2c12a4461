/** What a full inspection needs of its targets: the exact condition under which every run,
    however its workers, retries and stop interleave, lists each of them once. */
module FullRuns {
  import opened Identity
  import Lifecycle
  import opened InspectionRun
  import opened ScriptedRuns
  import opened Sums

  // ---- A stop right after the plan ------------------------------------------------------

  ghost predicate KeysDisjoint(ts: seq<AuthFile>, k: nat)
    requires k <= |ts|
  {
    forall i, j | 0 <= i < j < k :: FileKeys(ts[i]) !! FileKeys(ts[j])
  }

  ghost predicate Keyed(ts: seq<AuthFile>) {
    forall i | 0 <= i < |ts| :: FileKeys(ts[i]) != {}
  }

  /** Rows of some of the first `k` targets, of each of them if there are `k`. */
  ghost predicate AmongFirst(rows: seq<Row>, ts: seq<AuthFile>, k: nat)
    requires k <= |ts|
  {
    && |rows| <= k
    && (forall r | 0 <= r < |rows| :: exists i :: 0 <= i < k && rows[r] == RowOf(ts[i], Cancelled))
    && (|rows| == k ==> forall i | 0 <= i < k :: rows[i] == RowOf(ts[i], Cancelled))
  }

  lemma RowDescribesIff(f: AuthFile, g: AuthFile)
    requires FileKeys(g) != {}
    ensures Describes(RowOf(f, Cancelled), g) <==> !(FileKeys(f) !! FileKeys(g))
  {
    RowsKeepKeys(f, Cancelled);
  }

  lemma RepeatedTarget(rows: seq<Row>, ts: seq<AuthFile>, k: nat)
    requires Keyed(ts) && k < |ts| && AmongFirst(rows, ts, k) && Contains(rows, ts[k])
    ensures !KeysDisjoint(ts, k + 1) && AmongFirst(rows, ts, k + 1)
  {
    hide FileKeys, RowOf, Describes;
    assert FileKeys(ts[k]) != {};
    var r :| 0 <= r < |rows| && Describes(rows[r], ts[k]);
    var i :| 0 <= i < k && rows[r] == RowOf(ts[i], Cancelled);
    RowDescribesIff(ts[i], ts[k]);
  }

  lemma NewTarget(rows: seq<Row>, ts: seq<AuthFile>, k: nat)
    requires k < |ts| && AmongFirst(rows, ts, k)
    ensures AmongFirst(rows + [RowOf(ts[k], Cancelled)], ts, k + 1)
  {
    hide FileKeys, RowOf;
    var more := rows + [RowOf(ts[k], Cancelled)];
    forall r | 0 <= r < |more| ensures exists i :: 0 <= i < k + 1 && more[r] == RowOf(ts[i], Cancelled) {
      if r < |rows| {
        assert more[r] == rows[r];
      }
    }
  }

  lemma NewTargetIsDisjoint(rows: seq<Row>, ts: seq<AuthFile>, k: nat)
    requires Keyed(ts) && k < |ts| && AmongFirst(rows, ts, k) && !Contains(rows, ts[k])
    requires |rows| == k && KeysDisjoint(ts, k)
    ensures KeysDisjoint(ts, k + 1)
  {
    hide FileKeys, RowOf, Describes;
    assert FileKeys(ts[k]) != {};
    forall i | 0 <= i < k ensures FileKeys(ts[i]) !! FileKeys(ts[k]) {
      assert rows[i] == RowOf(ts[i], Cancelled) && !Describes(rows[i], ts[k]);
      RowDescribesIff(ts[i], ts[k]);
    }
  }

  lemma {:induction false} CancelledRows(ts: seq<AuthFile>, k: nat)
    requires Keyed(ts) && k <= |ts|
    ensures AmongFirst(CancelFirst([], ts, false, k), ts, k)
    ensures |CancelFirst([], ts, false, k)| == k <==> KeysDisjoint(ts, k)
    decreases k
  {
    hide Keyed, AmongFirst, FileKeys, RowOf, Describes, Contains;
    if k == 0 {
      NothingAmong(ts);
    } else {
      CancelledRows(ts, k - 1);
      var prev := CancelFirst([], ts, false, k - 1);
      if Contains(prev, ts[k - 1]) {
        RepeatedTarget(prev, ts, k - 1);
        AtMost(prev, ts, k - 1);
      } else {
        NewTarget(prev, ts, k - 1);
        if KeysDisjoint(ts, k - 1) {
          NewTargetIsDisjoint(prev, ts, k - 1);
        }
      }
    }
  }

  lemma NothingAmong(ts: seq<AuthFile>)
    ensures AmongFirst([], ts, 0)
  {
  }

  lemma AtMost(rows: seq<Row>, ts: seq<AuthFile>, k: nat)
    requires k <= |ts| && AmongFirst(rows, ts, k)
    ensures |rows| <= k
  {
  }

  /** Stopping right after the plan is committed lists every target exactly when no two of
      them share a stable key; otherwise the counter is full and rows are missing. */
  lemma ImmediateStopIff(b: Board, ts: seq<AuthFile>)
    requires b.fullClearPending && Keyed(ts)
    ensures var t := AbortedBoard(Committed(b, ts, 0, false));
      t.probeDone == t.total && (|t.results| == |ts| <==> KeysDisjoint(ts, |ts|))
  {
    CancelledRows(ts, |ts|);
  }

  /** For entries with stable keys, rows are told apart iff no two share a key. */
  lemma RecognisedIff(ts: seq<AuthFile>, workers: nat)
    requires Keyed(ts)
    ensures Recognised(ts, workers) <==> KeysDisjoint(ts, |ts|)
  {
    hide FileKeys, RowOf, Describes;
    forall i, j | 0 <= i < |ts| && 0 <= j < |ts|
      ensures Describes(RowOf(ts[i], Cancelled), ts[j]) <==> !(FileKeys(ts[i]) !! FileKeys(ts[j]))
    {
      RowDescribesIff(ts[i], ts[j]);
    }
    forall i | 0 <= i < |ts| ensures FileKeys(ts[i]) != {} {
    }
  }

  // ---- Orders of delivery ------------------------------------------------------------------

  /** The targets below `n` in order, without `late`, which need not be among them. */
  function Without(n: nat, late: nat): (plan: seq<nat>)
    ensures |plan| == if late < n then n - 1 else n
    ensures forall k | 0 <= k < |plan| :: plan[k] == if k < late then k else k + 1
  {
    seq(if late < n then n - 1 else n, k requires k >= 0 => if k < late then k else k + 1)
  }

  /** Only `late` is overtaken, and by nobody if it lies behind. */
  lemma WithoutIsInTurn(ts: seq<AuthFile>, n: nat, late: nat, workers: nat)
    requires n <= |ts| && workers >= 1 && (late < n ==> workers >= 2)
    ensures Deliverable(ts, Without(n, late)) && InTurn(Without(n, late), workers)
    ensures forall j: nat :: j in Members(Without(n, late)) <==> j < n && j != late
  {
    var plan := Without(n, late);
    forall k | 0 <= k < |plan| ensures |Pending(Members(plan[..k]), plan[k])| < workers {
      forall j: nat | j < plan[k] && j != late ensures j in plan[..k] {
        assert plan[..k][if j < late then j else j - 1] == j;
      }
      SubsetSize(Pending(Members(plan[..k]), plan[k]), if late < n then {late} else {});
    }
    forall j: nat | j < n && j != late ensures j in plan {
      assert plan[if j < late then j else j - 1] == j;
    }
  }

  /** All targets: in order, or with `late` at the end if `first` lies behind it. */
  function FirstBefore(n: nat, first: nat, late: nat): seq<nat> {
    if first < late then Without(n, n) else Without(n, late) + [late]
  }

  lemma FirstBeforeIsInTurn(ts: seq<AuthFile>, first: nat, late: nat, workers: nat)
    requires first < |ts| && late < |ts| && workers >= 1 && CanPrecede(workers, first, late)
    ensures var plan := FirstBefore(|ts|, first, late);
      && Deliverable(ts, plan) && InTurn(plan, workers) && |plan| == |ts|
      && (forall i: nat | i < |ts| :: i in plan)
      && exists p, q :: 0 <= p < q < |plan| && plan[p] == first && plan[q] == late
  {
    var n, plan := |ts|, FirstBefore(|ts|, first, late);
    if first < late {
      WithoutIsInTurn(ts, n, n, workers);
      forall i: nat | i < n ensures i in plan {
        assert i in Members(plan);
      }
      assert plan[first] == first && plan[late] == late;
    } else {
      WithoutIsInTurn(ts, n, late, workers);
      LastInTurn(ts, Without(n, late), late, workers);
      forall i: nat | i < n ensures i in plan {
        assert i != late ==> i in Members(Without(n, late));
      }
      assert plan[first - 1] == first && plan[n - 1] == late;
    }
  }

  lemma LastInTurn(ts: seq<AuthFile>, plan: seq<nat>, late: nat, workers: nat)
    requires Deliverable(ts, plan) && InTurn(plan, workers) && late < |ts| && workers >= 1
    requires forall j: nat :: j in Members(plan) <==> j < |ts| && j != late
    ensures Deliverable(ts, plan + [late]) && InTurn(plan + [late], workers)
  {
    var all := plan + [late];
    assert late !in Members(plan);
    forall k | 0 <= k < |all| ensures |Pending(Members(all[..k]), all[k])| < workers {
      if k < |plan| {
        assert all[..k] == plan[..k];
        TurnOf(plan, workers, k);
      } else {
        assert all[..k] == plan;
        assert Pending(Members(plan), late) == {};
      }
    }
  }

  // ---- Exactly when every run lists its targets --------------------------------------------

  ghost predicate AlwaysLists(ts: seq<AuthFile>, workers: nat) {
    forall states: seq<State>, steps: seq<Step> | Run(states, steps, true) ::
      var s := states[|steps|];
      s.workers == workers && s.targets == ts && s.planned && !s.f.running ==> OneRowPerTarget(s.b.results, ts)
  }

  /** Some targets are delivered and the run is stopped. */
  lemma StoppedRun(ts: seq<AuthFile>, workers: nat, plan: seq<nat>)
    returns (states: seq<State>, steps: seq<Step>, rows: seq<Row>)
    requires Deliverable(ts, plan) && InTurn(plan, workers) && workers >= 1
    ensures Run(states, steps, true)
    ensures var s := states[|steps|];
      && s.workers == workers && s.targets == ts && s.planned && !s.f.running
      && s.b.results == CancelFirst(rows, ts, false, |ts|)
    ensures |rows| == |plan| && forall i | 0 <= i < |plan| :: rows[i] == RowOf(ts[plan[i]], Probed("ok"))
  {
    hide RowOf, InTurn;
    states, steps := DeliveredRun([], ts, true, workers, plan, {}, |plan|);
    var s := states[|steps|];
    rows := s.b.results;
    var t := Next(s, Stop);
    Extended(states, steps, true, Stop, t);
    states, steps := states + [t], steps + [Stop];
  }

  /** The targets below `k` that some row describes. */
  ghost function Described(rows: seq<Row>, ts: seq<AuthFile>, k: nat): set<nat>
    requires k <= |ts|
  {
    set i: nat | i < k && Contains(rows, ts[i])
  }

  lemma {:induction false} CancelAtMost(rows: seq<Row>, ts: seq<AuthFile>, k: nat)
    requires k <= |ts|
    ensures rows <= CancelFirst(rows, ts, false, k)
    ensures |CancelFirst(rows, ts, false, k)| + |Described(rows, ts, k)| <= |rows| + k
    decreases k
  {
    hide Contains, RowOf;
    if k == 0 {
      assert Described(rows, ts, 0) == {};
    } else {
      CancelAtMost(rows, ts, k - 1);
      var last: nat := k - 1;
      if Contains(rows, ts[last]) {
        assert Described(rows, ts, k) == Described(rows, ts, k - 1) + {last};
        StaysContained(rows, CancelFirst(rows, ts, false, k - 1), ts[last]);
      } else {
        assert Described(rows, ts, k) == Described(rows, ts, k - 1);
      }
    }
  }

  lemma StaysContained(rows: seq<Row>, more: seq<Row>, f: AuthFile)
    requires rows <= more && Contains(rows, f)
    ensures Contains(more, f)
  {
    var i :| 0 <= i < |rows| && Describes(rows[i], f);
    assert more[i] == rows[i];
  }

  lemma {:induction false} CancelAtLeast(rows: seq<Row>, ts: seq<AuthFile>, k: nat, i: nat)
    requires k <= |ts| && i < |ts| && forall r: Row :: !Describes(r, ts[i])
    ensures |CancelFirst(rows, ts, false, k)| >= |rows| + Lifecycle.One(i < k)
    decreases k
  {
    hide Describes, RowOf;
    if k > 0 {
      CancelAtLeast(rows, ts, k - 1, i);
    }
  }

  /** A row of one target taken for another leaves the other out when the run is stopped
      after the first has been delivered. */
  lemma ConfusionBreaks(ts: seq<AuthFile>, workers: nat, i: nat, j: nat)
    requires i < |ts| && j < |ts| && workers >= 1 && CanPrecede(workers, i, j)
    requires forall x | 0 <= x < |ts| :: Describes(RowOf(ts[x], Cancelled), ts[x])
    requires Describes(RowOf(ts[i], Cancelled), ts[j])
    ensures !AlwaysLists(ts, workers)
  {
    hide Describes, RowOf, InTurn, Deliverable;
    var plan := Without(i + 1, j);
    WithoutIsInTurn(ts, i + 1, j, workers);
    var states, steps, rows := StoppedRun(ts, workers, plan);
    forall x | x in Members(plan) + {j} ensures x in Described(rows, ts, |ts|) {
      var y := if x == j then i else x;
      assert y in Members(plan);
      var k :| 0 <= k < |plan| && plan[k] == y;
      VerdictsDoNotMatter(ts[y], Probed("ok"), ts[x], Cancelled);
      assert Describes(rows[k], ts[x]);
    }
    SubsetSize(Members(plan) + {j}, Described(rows, ts, |ts|));
    MembersSizeOf(ts, plan);
    CancelAtMost(rows, ts, |ts|);
    assert |states[|steps|].b.results| < |ts|;
  }

  lemma MembersSizeOf(ts: seq<AuthFile>, plan: seq<nat>)
    requires Deliverable(ts, plan)
    ensures |Members(plan)| == |plan|
  {
    MembersSize(plan);
  }

  lemma NobodyDescribes(f: AuthFile)
    requires !Describes(RowOf(f, Cancelled), f)
    ensures forall r: Row :: !Describes(r, f)
  {
    RowsKeepKeys(f, Cancelled);
    forall k ensures k !in FileKeys(f) {
      assert k in FileKeys(f) ==> k in RowKeys(RowOf(f, Cancelled));
    }
  }

  /** A target whose own row does not describe it is listed a second time by the stop. */
  lemma StrangerBreaks(ts: seq<AuthFile>, workers: nat, i: nat)
    requires i < |ts| && workers >= 1 && !Describes(RowOf(ts[i], Cancelled), ts[i])
    ensures !AlwaysLists(ts, workers)
  {
    NobodyDescribes(ts[i]);
    hide Describes, RowOf, InTurn, Deliverable;
    WithoutIsInTurn(ts, |ts|, |ts|, workers);
    var states, steps, rows := StoppedRun(ts, workers, Without(|ts|, |ts|));
    CancelAtLeast(rows, ts, |ts|, i);
    assert |states[|steps|].b.results| > |ts|;
  }

  /** All rows are delivered, that of `first` before that of `late`, and then `late` is
      probed again. */
  lemma LateRun(ts: seq<AuthFile>, workers: nat, first: nat, late: nat)
    returns (states: seq<State>, steps: seq<Step>, rows: seq<Row>)
    requires first < |ts| && late < |ts| && Probes(ts[late]) && workers >= 1 && CanPrecede(workers, first, late)
    ensures Run(states, steps, true)
    ensures var s := states[|steps|];
      && s.workers == workers && s.targets == ts && s.planned && !s.f.running
      && s.b.results == Put(rows, RowOf(ts[late], Probed("ok")))
    ensures var plan := FirstBefore(|ts|, first, late);
      |rows| == |plan| == |ts| && Deliverable(ts, plan) &&
      forall i | 0 <= i < |ts| :: rows[i] == RowOf(ts[plan[i]], FirstVerdict(plan[i], {late}))
  {
    hide RowOf, Put, FirstBefore, InTurn;
    var plan := FirstBefore(|ts|, first, late);
    FirstBeforeIsInTurn(ts, first, late, workers);
    states, steps := DeliveredRun([], ts, true, workers, plan, {late}, |ts|);
    var s := states[|steps|];
    assert plan[..|ts|] == plan;
    rows := s.b.results;
    forall i: nat | i < |ts| ensures i in s.written {
      assert i in plan;
    }
    states, steps := RetriedOnce(states, steps, true, late);
  }

  /** A target probed again takes over the row of another one with its identity, if that
      one was delivered first. */
  lemma NamesakeBreaks(ts: seq<AuthFile>, workers: nat, first: nat, late: nat)
    requires Recognised(ts, workers) && first < |ts| && late < |ts| && Probes(ts[late])
    requires workers >= 1 && CanPrecede(workers, first, late)
    requires SameIdentity(RowOf(ts[first], Cancelled), RowOf(ts[late], Cancelled))
    ensures !AlwaysLists(ts, workers)
  {
    hide SameIdentity, Describes, RowOf, Recognised, FirstBefore, Deliverable, InTurn;
    var states, steps, rows := LateRun(ts, workers, first, late);
    var plan := FirstBefore(|ts|, first, late);
    FirstBeforeIsInTurn(ts, first, late, workers);
    var row := RowOf(ts[late], Probed("ok"));
    var before, own :| 0 <= before < own < |plan| && plan[before] == first && plan[own] == late;
    VerdictsDoNotMatter(ts[first], FirstVerdict(first, {late}), ts[late], Probed("ok"));
    assert SameIdentity(rows[before], row);
    var p := FirstMatch(rows, row);
    assert p <= before;
    TwiceListed(ts, workers, rows, p, own, late);
  }

  lemma TwiceListed(ts: seq<AuthFile>, workers: nat, rows: seq<Row>, p: nat, own: nat, late: nat)
    requires Recognised(ts, workers) && |rows| == |ts| && p < own < |rows| && late < |ts|
    requires rows[own] == RowOf(ts[late], TimedOut)
    ensures !OneRowPerTarget(rows[p := RowOf(ts[late], Probed("ok"))], ts)
  {
    hide RowOf, Recognised;
    var final := rows[p := RowOf(ts[late], Probed("ok"))];
    if order: seq<nat> :| RowsOf(final, ts, order) && |order| == |ts| {
      OnlyOwnRow(ts, workers, order[p], final[p].verdict, late, Probed("ok"));
      OnlyOwnRow(ts, workers, order[own], final[own].verdict, late, TimedOut);
    }
  }

  lemma OnlyOwnRow(ts: seq<AuthFile>, workers: nat, at: nat, v: Verdict, own: nat, u: Verdict)
    requires Recognised(ts, workers) && at < |ts| && own < |ts|
    requires RowOf(ts[at], v) == RowOf(ts[own], u)
    ensures at == own
  {
    hide Describes, RowOf, SameIdentity;
    DescribedAlike(ts[at], v, ts[own], u, ts[own]);
    DescribedAlike(ts[at], v, ts[own], u, ts[at]);
    assert at < own ==> CanPrecede(workers, at, own);
    assert own < at ==> CanPrecede(workers, own, at);
  }

  /** Equal rows describe the same entries. */
  lemma DescribedAlike(f: AuthFile, v: Verdict, g: AuthFile, u: Verdict, h: AuthFile)
    requires RowOf(f, v) == RowOf(g, u)
    ensures Describes(RowOf(f, Cancelled), h) == Describes(RowOf(g, Cancelled), h)
  {
    hide Describes, RowOf, SameIdentity;
    VerdictsDoNotMatter(f, v, h, Cancelled);
    VerdictsDoNotMatter(g, u, h, Cancelled);
  }

  /** Separation is exactly what a full inspection needs: with these workers its targets get
      one row each in every run iff they are separated. */
  lemma FullInspectionIff(ts: seq<AuthFile>, workers: nat)
    requires workers >= 1
    ensures AlwaysLists(ts, workers) <==> Separated(ts, workers)
  {
    hide SameIdentity, Describes, RowOf, OneRowPerTarget;
    if Separated(ts, workers) {
      forall states: seq<State>, steps: seq<Step> | Run(states, steps, true)
        ensures var s := states[|steps|];
          s.workers == workers && s.targets == ts && s.planned && !s.f.running ==> OneRowPerTarget(s.b.results, ts)
      {
        if states[|steps|].targets == ts && states[|steps|].workers == workers {
          FullInspection(states, steps, |steps|);
        }
      }
    } else if i :| 0 <= i < |ts| && !Describes(RowOf(ts[i], Cancelled), ts[i]) {
      StrangerBreaks(ts, workers, i);
    } else if i, j :| 0 <= i < |ts| && 0 <= j < |ts| && CanPrecede(workers, i, j) &&
                      Describes(RowOf(ts[i], Cancelled), ts[j]) {
      ConfusionBreaks(ts, workers, i, j);
    } else {
      assert Recognised(ts, workers);
      var i, j :| 0 <= i < |ts| && 0 <= j < |ts| && CanPrecede(workers, j, i) && Probes(ts[i]) &&
        SameIdentity(RowOf(ts[j], Cancelled), RowOf(ts[i], Cancelled));
      NamesakeBreaks(ts, workers, j, i);
    }
  }
}
