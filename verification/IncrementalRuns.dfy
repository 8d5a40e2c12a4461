/** Incremental inspections: what the rows know after a run, and when selecting again from
    the same list finds nothing new. */
module IncrementalRuns {
  import opened Identity
  import opened InspectionRun
  import opened ScriptedRuns
  import opened Sums
  import Text

  // ---- What rows know ----------------------------------------------------------------------

  predicate HasKey(rows: seq<Row>, f: AuthFile) {
    IsKnown(KnownKeys(rows), f)
  }

  lemma HasKeyIff(rows: seq<Row>, f: AuthFile)
    ensures HasKey(rows, f) <==> exists i :: 0 <= i < |rows| && !(RowKeys(rows[i]) !! FileKeys(f))
  {
    if HasKey(rows, f) {
      var k :| k in FileKeys(f) && k in KnownKeys(rows);
      KeyIsKnownIff(rows, k);
      var i :| 0 <= i < |rows| && k in RowKeys(rows[i]);
      assert !(RowKeys(rows[i]) !! FileKeys(f));
    }
    if i :| 0 <= i < |rows| && !(RowKeys(rows[i]) !! FileKeys(f)) {
      var k :| k in RowKeys(rows[i]) && k in FileKeys(f);
      KeyIsKnownIff(rows, k);
    }
  }

  lemma AddingKeepsKnown(rows: seq<Row>, row: Row, f: AuthFile)
    ensures HasKey(rows + [row], f) <==> HasKey(rows, f) || !(RowKeys(row) !! FileKeys(f))
  {
    HasKeyIff(rows, f);
    HasKeyIff(rows + [row], f);
    var all := rows + [row];
    if i :| 0 <= i < |rows| && !(RowKeys(rows[i]) !! FileKeys(f)) {
      assert all[i] == rows[i];
    }
    if !(RowKeys(row) !! FileKeys(f)) {
      assert all[|rows|] == row;
    }
  }

  /** Putting a row loses a known entry exactly when the row it lands on is the only one
      that has a key of the entry and the new row has none. */
  lemma PutForgetsIff(rows: seq<Row>, row: Row, f: AuthFile)
    requires HasKey(rows, f)
    ensures var p := FirstMatch(rows, row);
      !HasKey(Put(rows, row), f) <==>
        && p < |rows| && RowKeys(row) !! FileKeys(f)
        && forall i | 0 <= i < |rows| && i != p :: RowKeys(rows[i]) !! FileKeys(f)
  {
    var p := FirstMatch(rows, row);
    if p == |rows| {
      AddingKeepsKnown(rows, row, f);
    } else {
      HasKeyIff(rows, f);
      HasKeyIff(rows[p := row], f);
      assert !(RowKeys(row) !! FileKeys(f)) ==> !(RowKeys(rows[p := row][p]) !! FileKeys(f));
      if i :| 0 <= i < |rows| && i != p && !(RowKeys(rows[i]) !! FileKeys(f)) {
        assert rows[p := row][i] == rows[i];
      }
    }
  }

  /** The host's list and the entries the run was asked to consider. */
  ghost predicate Selected(s: State, files: seq<AuthFile>, wanted: AuthFile -> bool) {
    forall f :: f in s.targets <==> f in FilterNew(files, KnownKeys(s.prior), wanted)
  }

  /** Every row that a target probed again could replace, because it carries the same file
      name, identifies a listed entry only if the target itself does. */
  ghost predicate NoTakeover(s: State, files: seq<AuthFile>) {
    forall t, f, r | t in s.targets && Probes(t) && f in files && Origin(s, r) &&
                     SameIdentity(r, RowOf(t, Cancelled)) ::
      !(RowKeys(r) !! FileKeys(f)) ==> !(FileKeys(t) !! FileKeys(f))
  }

  ghost predicate Origin(s: State, r: Row) {
    r in s.prior || exists i :: 0 <= i < |s.targets| && r == RowOf(s.targets[i], r.verdict)
  }

  ghost predicate AllOriginal(s: State) {
    forall k | 0 <= k < |s.b.results| :: Origin(s, s.b.results[k])
  }

  /** Entries known before stay known, and so does every delivered target. */
  ghost predicate Remembers(s: State, files: seq<AuthFile>) {
    && (forall f | f in files && HasKey(s.prior, f) :: HasKey(s.b.results, f))
    && forall i | i in s.written && i < |s.targets| && FileKeys(s.targets[i]) != {} ::
         HasKey(s.b.results, s.targets[i])
  }

  ghost predicate RemembersAll(s: State, files: seq<AuthFile>) {
    && (forall f | f in files && HasKey(s.prior, f) :: HasKey(s.b.results, f))
    && forall i | 0 <= i < |s.targets| && FileKeys(s.targets[i]) != {} :: HasKey(s.b.results, s.targets[i])
  }

  ghost predicate IncrementalInv(s: State, files: seq<AuthFile>) {
    && FlagsOk(s)
    && (s.planned ==>
          && AllOriginal(s)
          && if s.f.running then
               && Remembers(s, files) && s.b.runTargets == s.targets && !s.b.merging
               && (s.phase == Retrying ==> AllWritten(s))
             else RemembersAll(s, files))
    && (!s.planned && s.f.running ==> !s.b.fullClearPending && s.b.runTargets == [])
    && (s.phase == Listing ==> s.b.results == s.prior && s.written == {} && s.timedOut == {})
    && forall i | i in s.timedOut && i < |s.targets| :: Probes(s.targets[i])
  }

  lemma PutRemembers(s: State, files: seq<AuthFile>, t: AuthFile, v: Verdict, f: AuthFile)
    requires NoTakeover(s, files) && AllOriginal(s) && t in s.targets && Probes(t)
    requires f in files && HasKey(s.b.results, f)
    ensures HasKey(Put(s.b.results, RowOf(t, v)), f)
  {
    var row := RowOf(t, v);
    PutForgetsIff(s.b.results, row, f);
    var p := FirstMatch(s.b.results, row);
    RowsKeepKeys(t, v);
    if p < |s.b.results| {
      SameForAnyVerdict(s.b.results[p], t, v);
      HasKeyIff(s.b.results, f);
      assert Origin(s, s.b.results[p]);
    }
  }

  lemma SameForAnyVerdict(r: Row, t: AuthFile, v: Verdict)
    ensures SameIdentity(r, RowOf(t, v)) == SameIdentity(r, RowOf(t, Cancelled))
  {
  }

  lemma PutIsOriginal(s: State, i: nat, v: Verdict)
    requires AllOriginal(s) && i < |s.targets|
    ensures forall r | r in Put(s.b.results, RowOf(s.targets[i], v)) :: Origin(s, r)
    ensures forall r | r in s.b.results + [RowOf(s.targets[i], v)] :: Origin(s, r)
  {
    var row := RowOf(s.targets[i], v);
    assert row.verdict == v && Origin(s, row);
  }

  lemma {:induction false} CancelRemembers(s: State, rows: seq<Row>, files: seq<AuthFile>, k: nat)
    requires k <= |s.targets| && forall r | r in rows :: Origin(s, r)
    ensures var done := CancelFirst(rows, s.targets, false, k);
      && rows <= done
      && (forall r | r in done :: Origin(s, r))
      && forall i | 0 <= i < k && FileKeys(s.targets[i]) != {} :: HasKey(done, s.targets[i])
    decreases k
  {
    hide FileKeys, HasKey, CancelOne, RowOf;
    if k > 0 {
      CancelRemembers(s, rows, files, k - 1);
      var before, f := CancelFirst(rows, s.targets, false, k - 1), s.targets[k - 1];
      CancelOneRemembers(before, f);
      CancelledIsOriginal(s, k - 1);
      forall i | 0 <= i < k - 1 && FileKeys(s.targets[i]) != {}
        ensures HasKey(CancelOne(before, f, false), s.targets[i])
      {
        LongerListKnowsMore(before, CancelOne(before, f, false), s.targets[i]);
      }
    }
  }

  lemma CancelledIsOriginal(s: State, i: nat)
    requires i < |s.targets|
    ensures Origin(s, RowOf(s.targets[i], Cancelled))
  {
    assert RowOf(s.targets[i], Cancelled).verdict == Cancelled;
  }

  lemma CancelOneRemembers(rows: seq<Row>, f: AuthFile)
    ensures rows <= CancelOne(rows, f, false)
    ensures forall r | r in CancelOne(rows, f, false) :: r in rows || r == RowOf(f, Cancelled)
    ensures FileKeys(f) != {} ==> HasKey(CancelOne(rows, f, false), f)
  {
    if FileKeys(f) != {} {
      HasKeyIff(CancelOne(rows, f, false), f);
      if r :| 0 <= r < |rows| && Describes(rows[r], f) {
        assert !(RowKeys(rows[r]) !! FileKeys(f));
      } else {
        RowsKeepKeys(f, Cancelled);
        assert CancelOne(rows, f, false)[|rows|] == RowOf(f, Cancelled);
      }
    }
  }

  lemma LongerListKnowsMore(rows: seq<Row>, more: seq<Row>, f: AuthFile)
    requires rows <= more && HasKey(rows, f)
    ensures HasKey(more, f)
  {
    HasKeyIff(rows, f);
    HasKeyIff(more, f);
    var i :| 0 <= i < |rows| && !(RowKeys(rows[i]) !! FileKeys(f));
    assert more[i] == rows[i];
  }

  lemma IncrementalStop(s: State, t: State, files: seq<AuthFile>)
    requires IncrementalInv(s, files) && s.planned && s.f.running && Follows(s, Stop, t)
    ensures AllOriginal(t) && RemembersAll(t, files)
  {
    hide HasKey, FileKeys, Origin;
    assert forall r | r in s.b.results :: Origin(s, r);
    CancelRemembers(s, s.b.results, files, |s.targets|);
    forall f | f in files && HasKey(s.prior, f) ensures HasKey(t.b.results, f) {
      LongerListKnowsMore(s.b.results, t.b.results, f);
    }
    forall r | r in t.b.results ensures Origin(t, r) {
      SameOrigins(s, t, r);
    }
  }

  lemma SameOrigins(s: State, t: State, r: Row)
    requires t.prior == s.prior && t.targets == s.targets
    ensures Origin(s, r) == Origin(t, r)
  {
  }

  lemma IncrementalDelivery(s: State, step: Step, t: State, files: seq<AuthFile>)
    requires IncrementalInv(s, files) && s.planned && s.f.running && Follows(s, step, t) && (step.Write? || step.Retry?)
    requires NoTakeover(s, files) && forall f | f in s.targets :: f in files
    ensures AllOriginal(t) && Remembers(t, files)
  {
    hide HasKey, FileKeys, Origin, NoTakeover, Put;
    var f := s.targets[step.i];
    var row := RowOf(f, step.v);
    PutIsOriginal(s, step.i, step.v);
    forall r | r in t.b.results ensures Origin(t, r) {
      SameOrigins(s, t, r);
    }
    forall g | g in files && HasKey(s.b.results, g) ensures HasKey(t.b.results, g) {
      if step.Write? {
        AddingKeepsKnown(s.b.results, row, g);
      } else {
        PutRemembers(s, files, f, step.v, g);
      }
    }
    if step.Write? && FileKeys(f) != {} {
      AddingKeepsKnown(s.b.results, row, f);
      RowsKeepKeys(f, step.v);
      assert !(RowKeys(row) !! FileKeys(f));
    }
  }

  lemma StepKeepsIncremental(s: State, step: Step, t: State, files: seq<AuthFile>)
    requires IncrementalInv(s, files) && Follows(s, step, t)
    requires NoTakeover(t, files) && forall f | f in t.targets :: f in files
    ensures IncrementalInv(t, files)
  {
    hide HasKey, FileKeys, Origin, NoTakeover, Put, AbortedBoard, RowOf, Pending;
    FlagsStayOk(s, step, t);
    if s.planned && s.f.running && step == Stop {
      IncrementalStop(s, t, files);
    } else if s.planned && s.f.running && (step.Write? || step.Retry?) {
      TakeoverStays(s, t, files);
      IncrementalDelivery(s, step, t, files);
    } else if s.planned {
      SameRowsStayOriginal(s, t);
    } else if t.planned {
      PriorRowsAreOriginal(t);
    } else if step == Stop && s.f.running {
      NothingToCancel(s.b);
    }
  }

  lemma SameRowsStayOriginal(s: State, t: State)
    requires AllOriginal(s) && t.prior == s.prior && t.targets == s.targets && t.b.results == s.b.results
    ensures AllOriginal(t)
  {
    forall r ensures Origin(s, r) == Origin(t, r) {
      SameOrigins(s, t, r);
    }
  }

  lemma PriorRowsAreOriginal(s: State)
    requires s.b.results == s.prior
    ensures AllOriginal(s)
  {
  }

  lemma TakeoverStays(s: State, t: State, files: seq<AuthFile>)
    requires NoTakeover(t, files) && s.prior == t.prior && s.targets == t.targets
    ensures NoTakeover(s, files)
  {
    hide FileKeys, SameIdentity, RowKeys;
    forall r ensures Origin(s, r) == Origin(t, r) {
      SameOrigins(s, t, r);
    }
  }

  lemma IncrementalStart(s: State, files: seq<AuthFile>)
    requires Initial(s, false)
    ensures IncrementalInv(s, files)
  {
  }

  lemma {:induction false} TargetsComeWithThePlan(states: seq<State>, steps: seq<Step>, full: bool, n: nat)
    requires Run(states, steps, full) && n < |states|
    ensures FlagsOk(states[n]) && (!states[n].planned ==> states[n].targets == [])
    ensures states[n].prior == states[0].prior
    decreases n
  {
    hide FlagsOk, Put, CancelFirst;
    if n == 0 {
      FlagsStartOk(states[0], full);
    } else {
      TargetsComeWithThePlan(states, steps, full, n - 1);
      FlagsStayOk(states[n - 1], steps[n - 1], states[n]);
    }
  }

  lemma FlagsStartOk(s: State, full: bool)
    requires Initial(s, full)
    ensures FlagsOk(s)
  {
  }

  lemma TakeoverWithoutTargets(s: State, files: seq<AuthFile>)
    requires s.targets == []
    ensures NoTakeover(s, files)
  {
  }

  lemma {:induction false} RunsKeepIncremental(states: seq<State>, steps: seq<Step>, n: nat, files: seq<AuthFile>)
    requires Run(states, steps, false) && n < |states|
    requires NoTakeover(states[n], files) && forall f | f in states[n].targets :: f in files
    ensures IncrementalInv(states[n], files)
    decreases n
  {
    hide HasKey, FileKeys, NoTakeover, IncrementalInv, Put, AbortedBoard;
    if n == 0 {
      IncrementalStart(states[0], files);
    } else {
      var s, t := states[n - 1], states[n];
      assert Follows(s, steps[n - 1], t);
      if steps[n - 1].Commit? {
        TargetsComeWithThePlan(states, steps, false, n - 1);
        TakeoverWithoutTargets(s, files);
      } else {
        TakeoverStays(s, t, files);
      }
      RunsKeepIncremental(states, steps, n - 1, files);
      StepKeepsIncremental(s, steps[n - 1], t, files);
    }
  }

  /** Once an incremental run with a plan has ended or was stopped, selecting again from the
      same list finds exactly the wanted entries without index, id and file name. */
  lemma IncrementalFixpoint(
    states: seq<State>, steps: seq<Step>, n: nat, files: seq<AuthFile>, wanted: AuthFile -> bool, f: AuthFile)
    requires Run(states, steps, false) && n < |states| && states[n].planned && !states[n].f.running
    requires Selected(states[n], files, wanted) && NoTakeover(states[n], files)
    ensures f in FilterNew(files, KnownKeys(states[n].b.results), wanted) <==>
      && f in files && wanted(f)
      && Text.Blank(f.authIndex) && Text.Blank(f.id) && Text.Blank(f.name)
  {
    hide FileKeys, NoTakeover;
    var s := states[n];
    RunsKeepIncremental(states, steps, n, files);
    if f in files && wanted(f) && FileKeys(f) != {} && !HasKey(s.prior, f) {
      assert f in FilterNew(files, KnownKeys(s.prior), wanted);
      var i :| 0 <= i < |s.targets| && s.targets[i] == f;
      assert HasKey(s.b.results, s.targets[i]);
    }
    KeylessIff(f);
  }

  lemma KeylessIff(f: AuthFile)
    ensures FileKeys(f) == {} <==> Text.Blank(f.authIndex) && Text.Blank(f.id) && Text.Blank(f.name)
  {
  }

  predicate Any(f: AuthFile) {
    true
  }

  /** Two entries with one file name but different indexes. */
  predicate Namesakes(f: AuthFile, g: AuthFile) {
    && !Text.Blank(f.authIndex) && !Text.Blank(g.authIndex)
    && Text.Trim(f.authIndex) != Text.Trim(g.authIndex)
    && !Text.Blank(f.name) && Text.Lower(Text.Trim(f.name)) == Text.Lower(Text.Trim(g.name))
  }

  lemma NamesakesMatch(f: AuthFile, g: AuthFile, v: Verdict, u: Verdict)
    requires Namesakes(f, g)
    ensures FileKeys(f) == {ByIndex(Text.Trim(f.authIndex))} && FileKeys(g) == {ByIndex(Text.Trim(g.authIndex))}
    ensures FileKeys(f) !! FileKeys(g)
    ensures RowKeys(RowOf(f, v)) == FileKeys(f) && RowKeys(RowOf(g, u)) == FileKeys(g)
    ensures SameIdentity(RowOf(f, v), RowOf(g, u)) && Probes(g)
  {
    hide Text.Trim, Text.Lower, DisplayName;
  }

  lemma KnownIn(a: Row, b: Row, f: AuthFile)
    ensures HasKey([a], f) <==> !(RowKeys(a) !! FileKeys(f))
    ensures HasKey([a, b], f) <==> !(RowKeys(a) !! FileKeys(f)) || !(RowKeys(b) !! FileKeys(f))
  {
    hide HasKey, RowKeys, FileKeys;
    HasKeyIff([a], f);
    HasKeyIff([a, b], f);
    var one, both := [a], [a, b];
    assert one[0] == a && both[0] == a && both[1] == b;
  }

  lemma SelectedOfTwo(f: AuthFile, g: AuthFile, rows: seq<Row>)
    ensures FilterNew([f, g], KnownKeys(rows), Any) ==
      (if HasKey(rows, f) then [] else [f]) + (if HasKey(rows, g) then [] else [g])
  {
    hide FileKeys, KnownKeys, IsKnown;
    assert [f, g][..1] == [f] && [f][..0] == [];
    assert FilterNew([], KnownKeys(rows), Any) == [];
    assert FilterNew([f], KnownKeys(rows), Any) == if HasKey(rows, f) then [] else [f];
  }

  lemma RetryTakesFirst(f: AuthFile, g: AuthFile, other: Row, v: Verdict, u: Verdict)
    requires Namesakes(f, g)
    ensures Put([RowOf(f, u), other], RowOf(g, v)) == [RowOf(g, v), other]
  {
    hide Namesakes, RowOf, SameIdentity, FileKeys, RowKeys;
    NamesakesMatch(f, g, u, v);
    FirstMatchIs([RowOf(f, u), other], RowOf(g, v), 0);
  }

  /** Without the condition a known entry is lost, for any two namesakes: the first is
      known, the second times out, and its retry takes over the row of the first. */
  lemma TakeoverForgets(f: AuthFile, g: AuthFile) returns (states: seq<State>, steps: seq<Step>)
    requires Namesakes(f, g)
    ensures Run(states, steps, false) && states[|steps|].phase == Over && states[|steps|].planned
    ensures states[|steps|].prior == [RowOf(f, Probed("ok"))] && Selected(states[|steps|], [f, g], Any)
    ensures FilterNew([f, g], KnownKeys(states[|steps|].b.results), Any) == [f]
  {
    hide Namesakes, RowOf, FileKeys, RowKeys, Text.Trim, Put, KnownKeys, FilterNew, HasKey;
    var ok := Probed("ok");
    var mine, first, final := RowOf(f, ok), RowOf(g, TimedOut), RowOf(g, ok);
    NamesakesMatch(f, g, ok, ok);
    states, steps := RetriedRun(f, g, mine);
    NamesakesMatch(f, g, ok, TimedOut);
    RetryTakesFirst(f, g, first, ok, ok);
    KnownIn(mine, mine, f);
    KnownIn(mine, mine, g);
    KnownIn(final, first, f);
    KnownIn(final, first, g);
    assert FileKeys(f) != {} && FileKeys(g) != {};
    SelectedOfTwo(f, g, [mine]);
    SelectedOfTwo(f, g, [final, first]);
  }

  /** An incremental run over one entry whose first probe times out. */
  lemma RetriedRun(f: AuthFile, g: AuthFile, mine: Row) returns (states: seq<State>, steps: seq<Step>)
    requires Probes(g)
    ensures Run(states, steps, false)
    ensures states[|steps|].phase == Over && states[|steps|].planned
    ensures states[|steps|].prior == [mine] && states[|steps|].targets == [g]
    ensures states[|steps|].b.results == Put([mine, RowOf(g, TimedOut)], RowOf(g, Probed("ok")))
  {
    hide RowOf, Put;
    var plan: seq<nat> := [0];
    assert Members(plan[..0]) == {} && Pending({}, 0) == {};
    states, steps := DeliveredRun([mine], [g], false, 1, plan, {0}, 1);
    var s := states[|steps|];
    assert plan[..1] == plan && 0 in plan;
    assert s.b.results[..1] == [mine] && s.b.results[1 + 0] == RowOf(g, TimedOut);
    assert s.b.results == [mine, RowOf(g, TimedOut)];
    states, steps := RetriedOnce(states, steps, false, 0);
  }
}
