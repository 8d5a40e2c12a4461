/** Orders in which a number of workers can go through a list, so that some members, the
    leaders, come before all others of their group; the exact condition for that. */
module Schedules {
  import opened InspectionRun
  import opened ScriptedRuns
  import opened Sums

  /** Places in the list, with the group of each; no two leaders share a group. */
  ghost predicate Leading(group: seq<string>, leaders: set<nat>) {
    && (forall u | u in leaders :: u < |group|)
    && forall u, v | u in leaders && v in leaders && group[u] == group[v] :: u == v
  }

  /** The leader `u` waits in front of which `j` stands in the list. */
  predicate HeldFor(group: seq<string>, leaders: set<nat>, j: nat, u: nat) {
    u in leaders && j < u < |group| && group[j] == group[u]
  }

  ghost predicate WaitsAt(group: seq<string>, leaders: set<nat>, x: nat, j: nat) {
    exists u: nat :: u >= x && HeldFor(group, leaders, j, u)
  }

  /** Those before `x` that have to wait for a leader at `x` or behind it. */
  ghost function HeldBack(group: seq<string>, leaders: set<nat>, x: nat): set<nat> {
    set j: nat | j < x && WaitsAt(group, leaders, x, j)
  }

  ghost predicate FewHeldBack(group: seq<string>, leaders: set<nat>, workers: nat) {
    forall u | u in leaders :: |HeldBack(group, leaders, u)| < workers
  }

  /** Every place is in the order, once. */
  ghost predicate Covers(order: seq<nat>, n: nat) {
    Distinct(order) && forall i: nat :: i in order <==> i < n
  }

  /** Each leader comes before all others of its group. */
  predicate LeadersFirst(group: seq<string>, leaders: set<nat>, order: seq<nat>) {
    forall p, q | 0 <= p < q < |order| && order[q] in leaders && order[p] < |group| && order[q] < |group| ::
      group[order[p]] != group[order[q]]
  }

  // ---- With few held back there is such an order -----------------------------------------

  /** The members of `from` below `n`, in order. */
  function Picked(n: nat, from: set<nat>): (r: seq<nat>)
    ensures forall i: nat :: i in r <==> i < n && i in from
  {
    if n == 0 then [] else Picked(n - 1, from) + if n - 1 in from then [n - 1] else []
  }

  lemma {:induction false} PickedIsDistinct(n: nat, from: set<nat>)
    ensures Distinct(Picked(n, from))
  {
    if n > 0 {
      PickedIsDistinct(n - 1, from);
      var before := Picked(n - 1, from);
      assert forall k | 0 <= k < |before| :: before[k] in before;
    }
  }

  ghost function Followers(group: seq<string>, leaders: set<nat>, x: nat): set<nat> {
    set j: nat | j < x && HeldFor(group, leaders, j, x)
  }

  ghost predicate Waits(group: seq<string>, leaders: set<nat>, j: nat) {
    exists u: nat :: HeldFor(group, leaders, j, u)
  }

  /** A leader is followed at once by those that waited for it. */
  ghost function Turn(group: seq<string>, leaders: set<nat>, x: nat): seq<nat> {
    if Waits(group, leaders, x) then [] else [x] + Picked(x, Followers(group, leaders, x))
  }

  ghost function Schedule(group: seq<string>, leaders: set<nat>, n: nat): seq<nat> {
    if n == 0 then [] else Schedule(group, leaders, n - 1) + Turn(group, leaders, n - 1)
  }

  /** The place has had its turn, or the leader it waited for has. */
  ghost predicate HasCome(group: seq<string>, leaders: set<nat>, n: nat, j: nat) {
    j < n && (Waits(group, leaders, j) ==> exists u: nat :: u < n && HeldFor(group, leaders, j, u))
  }

  /** Who has come when the places below `n` have had their turn. */
  lemma {:induction false} WhoHasCome(group: seq<string>, leaders: set<nat>, n: nat, j: nat)
    requires Leading(group, leaders) && n <= |group|
    ensures j in Schedule(group, leaders, n) <==> HasCome(group, leaders, n, j)
    decreases n
  {
    hide HasCome, Turn, Waits, HeldFor, Leading;
    if n == 0 {
      NobodyHasCome(group, leaders, j);
    } else {
      WhoHasCome(group, leaders, n - 1, j);
      InTurnOf(group, leaders, n - 1, j);
      WhoComes(group, leaders, n - 1, j);
    }
  }

  lemma NobodyHasCome(group: seq<string>, leaders: set<nat>, j: nat)
    ensures !HasCome(group, leaders, 0, j)
  {
  }

  lemma WhoComes(group: seq<string>, leaders: set<nat>, x: nat, j: nat)
    ensures HasCome(group, leaders, x + 1, j) <==>
      || HasCome(group, leaders, x, j)
      || (j == x && !Waits(group, leaders, x))
      || HeldFor(group, leaders, j, x)
  {
    if HeldFor(group, leaders, j, x) {
      assert Waits(group, leaders, j);
    }
  }

  lemma InTurnOf(group: seq<string>, leaders: set<nat>, x: nat, j: nat)
    requires Leading(group, leaders) && x < |group|
    ensures j in Turn(group, leaders, x) <==>
      (j == x && !Waits(group, leaders, x)) || HeldFor(group, leaders, j, x)
  {
    if HeldFor(group, leaders, j, x) {
      LeadersDoNotWait(group, leaders, x);
    }
    if !Waits(group, leaders, x) {
      assert j in Picked(x, Followers(group, leaders, x)) <==> j in Followers(group, leaders, x);
    }
  }

  lemma LeadersDoNotWait(group: seq<string>, leaders: set<nat>, x: nat)
    requires Leading(group, leaders) && x in leaders
    ensures !Waits(group, leaders, x)
  {
  }

  lemma {:induction false} ScheduleIsDistinct(group: seq<string>, leaders: set<nat>, n: nat)
    requires Leading(group, leaders) && n <= |group|
    ensures Distinct(Schedule(group, leaders, n))
    decreases n
  {
    if n > 0 {
      hide Turn, HasCome;
      var x: nat := n - 1;
      var before, turn := Schedule(group, leaders, x), Turn(group, leaders, x);
      ScheduleIsDistinct(group, leaders, x);
      TurnIsDistinct(group, leaders, x);
      forall j: nat | j in turn ensures j !in before {
        ComesOnce(group, leaders, x, j);
        WhoHasCome(group, leaders, x, j);
      }
      JoinedDistinct(before, turn);
    }
  }

  lemma ComesOnce(group: seq<string>, leaders: set<nat>, x: nat, j: nat)
    requires Leading(group, leaders) && x < |group| && j in Turn(group, leaders, x)
    ensures !HasCome(group, leaders, x, j)
  {
    InTurnOf(group, leaders, x, j);
    if HeldFor(group, leaders, j, x) {
      assert Waits(group, leaders, j);
    }
  }

  lemma TurnIsDistinct(group: seq<string>, leaders: set<nat>, x: nat)
    ensures Distinct(Turn(group, leaders, x))
  {
    var from := Followers(group, leaders, x);
    var held := Picked(x, from);
    PickedIsDistinct(x, from);
    forall j: nat | j in held ensures j !in [x] {
    }
    hide HeldFor, Waits, Picked;
    JoinedDistinct([x], held);
  }

  lemma JoinedDistinct(a: seq<nat>, b: seq<nat>)
    requires Distinct(a) && Distinct(b) && forall j | j in b :: j !in a
    ensures Distinct(a + b)
  {
    var all := a + b;
    forall i, j | 0 <= i < j < |all| ensures all[i] != all[j] {
      if i < |a| <= j {
        assert all[j] in b && all[i] in a;
      }
    }
  }

  /** Those before `x` that have not come are held back by a leader at `x` or behind it. */
  lemma NotYetCome(group: seq<string>, leaders: set<nat>, x: nat, done: seq<nat>, y: nat, workers: nat)
    requires Leading(group, leaders) && FewHeldBack(group, leaders, workers) && workers >= 1
    requires y <= x < |group| && Schedule(group, leaders, x) <= done
    ensures |Pending(Members(done), y)| < workers
  {
    var late := Pending(Members(done), y);
    forall j | j in late ensures j in HeldBack(group, leaders, x) {
      WhoHasCome(group, leaders, x, j);
      assert j in Schedule(group, leaders, x) ==> j in done;
      var u: nat :| HeldFor(group, leaders, j, u);
      assert u >= x && WaitsAt(group, leaders, x, j);
    }
    SubsetSize(late, HeldBack(group, leaders, x));
    FewAtAnyPlace(group, leaders, x, |group|, workers);
  }

  /** What holds for the leaders holds for every place: look at the next leader. */
  lemma {:induction false} FewAtAnyPlace(group: seq<string>, leaders: set<nat>, x: nat, n: nat, workers: nat)
    requires Leading(group, leaders) && FewHeldBack(group, leaders, workers) && workers >= 1
    requires x <= n == |group|
    ensures |HeldBack(group, leaders, x)| < workers
    decreases n - x
  {
    if x in leaders {
    } else if x == n {
      assert HeldBack(group, leaders, x) == {};
    } else {
      FewAtAnyPlace(group, leaders, x + 1, n, workers);
      forall j | j in HeldBack(group, leaders, x) ensures j in HeldBack(group, leaders, x + 1) {
        var u: nat :| u >= x && HeldFor(group, leaders, j, u);
        assert u >= x + 1;
      }
      SubsetSize(HeldBack(group, leaders, x), HeldBack(group, leaders, x + 1));
    }
  }

  lemma {:induction false} ScheduleIsInTurn(group: seq<string>, leaders: set<nat>, n: nat, workers: nat)
    requires Leading(group, leaders) && FewHeldBack(group, leaders, workers) && workers >= 1 && n <= |group|
    ensures InTurn(Schedule(group, leaders, n), workers)
    decreases n
  {
    hide FewHeldBack, Pending, Turn, Leading, InTurn;
    if n == 0 {
      NobodyInTurn(workers);
    } else {
      var x: nat := n - 1;
      var before, turn := Schedule(group, leaders, x), Turn(group, leaders, x);
      ScheduleIsInTurn(group, leaders, x, workers);
      forall k | 0 <= k < |turn| ensures |Pending(Members(before + turn[..k]), turn[k])| < workers {
        assert turn[k] in turn;
        TurnIsBehind(group, leaders, x, turn[k]);
        NotYetCome(group, leaders, x, before + turn[..k], turn[k], workers);
      }
      JoinedInTurn(before, turn, workers);
    }
  }

  lemma NobodyInTurn(workers: nat)
    ensures InTurn([], workers)
  {
  }

  lemma TurnIsBehind(group: seq<string>, leaders: set<nat>, x: nat, y: nat)
    requires Leading(group, leaders) && x < |group| && y in Turn(group, leaders, x)
    ensures y <= x
  {
    InTurnOf(group, leaders, x, y);
  }

  lemma JoinedInTurn(a: seq<nat>, b: seq<nat>, workers: nat)
    requires InTurn(a, workers)
    requires forall k | 0 <= k < |b| :: |Pending(Members(a + b[..k]), b[k])| < workers
    ensures InTurn(a + b, workers)
  {
    hide Pending;
    var all := a + b;
    forall k | 0 <= k < |all| ensures |Pending(Members(all[..k]), all[k])| < workers {
      if k < |a| {
        assert all[..k] == a[..k];
      } else {
        assert all[..k] == a + b[..k - |a|] && all[k] == b[k - |a|];
      }
    }
  }

  lemma {:induction false} ScheduleLeads(group: seq<string>, leaders: set<nat>, n: nat)
    requires Leading(group, leaders) && n <= |group|
    ensures LeadersFirst(group, leaders, Schedule(group, leaders, n))
    decreases n
  {
    hide Turn, Leading, LeadersFirst;
    if n == 0 {
      NobodyLeads(group, leaders);
    } else {
      var x: nat := n - 1;
      var before, turn := Schedule(group, leaders, x), Turn(group, leaders, x);
      ScheduleLeads(group, leaders, x);
      forall k | 0 <= k < |turn| && turn[k] in leaders ensures k == 0 && turn[0] == x {
        OnlyTheLeaderLeads(group, leaders, x, k);
      }
      if x in leaders {
        EarlierAreOthers(group, leaders, x);
      }
      JoinedLeads(group, leaders, before, turn, x);
    }
  }

  lemma NobodyLeads(group: seq<string>, leaders: set<nat>)
    ensures LeadersFirst(group, leaders, [])
  {
  }

  lemma EarlierAreOthers(group: seq<string>, leaders: set<nat>, x: nat)
    requires Leading(group, leaders) && x in leaders && x < |group|
    ensures var before := Schedule(group, leaders, x);
      forall p | 0 <= p < |before| && before[p] < |group| :: group[before[p]] != group[x]
  {
    hide Schedule, Leading, HasCome;
    var before := Schedule(group, leaders, x);
    forall p | 0 <= p < |before| && before[p] < |group| ensures group[before[p]] != group[x] {
      assert before[p] in before;
      WhoHasCome(group, leaders, x, before[p]);
      NotAFollower(group, leaders, x, before[p]);
    }
  }

  lemma JoinedLeads(group: seq<string>, leaders: set<nat>, a: seq<nat>, b: seq<nat>, x: nat)
    requires LeadersFirst(group, leaders, a) && x < |group|
    requires forall k | 0 <= k < |b| && b[k] in leaders :: k == 0 && b[0] == x
    requires forall p | 0 <= p < |a| && x in leaders && a[p] < |group| :: group[a[p]] != group[x]
    ensures LeadersFirst(group, leaders, a + b)
  {
    var all := a + b;
    forall p, q | 0 <= p < q < |all| && all[q] in leaders && all[p] < |group| && all[q] < |group|
      ensures group[all[p]] != group[all[q]]
    {
      if q >= |a| {
        assert all[q] == b[q - |a|];
        assert q - |a| == 0;
        assert all[p] == a[p];
      } else {
        assert all[p] == a[p] && all[q] == a[q];
      }
    }
  }

  /** The only leader in a turn stands at its beginning. */
  lemma OnlyTheLeaderLeads(group: seq<string>, leaders: set<nat>, x: nat, k: nat)
    requires Leading(group, leaders) && x < |group| && k < |Turn(group, leaders, x)|
    requires Turn(group, leaders, x)[k] in leaders
    ensures k == 0 && Turn(group, leaders, x)[0] == x && x in leaders
  {
    var held := Picked(x, Followers(group, leaders, x));
    forall m | 0 <= m < |held| ensures held[m] !in leaders {
      assert held[m] in held;
    }
  }

  lemma NotAFollower(group: seq<string>, leaders: set<nat>, x: nat, j: nat)
    requires Leading(group, leaders) && x in leaders && HasCome(group, leaders, x, j) && j < |group|
    ensures group[j] != group[x]
  {
    if HeldFor(group, leaders, j, x) {
      assert Waits(group, leaders, j);
    }
  }

  /** With few held back, the schedule puts every leader first of its group. */
  lemma ScheduleWorks(group: seq<string>, leaders: set<nat>, workers: nat)
    requires Leading(group, leaders) && FewHeldBack(group, leaders, workers) && workers >= 1
    ensures var order := Schedule(group, leaders, |group|);
      Covers(order, |group|) && InTurn(order, workers) && LeadersFirst(group, leaders, order)
  {
    var n := |group|;
    ScheduleIsDistinct(group, leaders, n);
    ScheduleIsInTurn(group, leaders, n, workers);
    ScheduleLeads(group, leaders, n);
    forall i: nat ensures i in Schedule(group, leaders, n) <==> i < n {
      WhoHasCome(group, leaders, n, i);
    }
  }

  // ---- Else no order has it ---------------------------------------------------------------

  /** The first in the order of the leaders at `u` or behind it. */
  lemma {:induction false} FirstLeader(leaders: set<nat>, order: seq<nat>, u: nat) returns (p: nat)
    requires u in leaders && u in order
    ensures p < |order| && order[p] in leaders && order[p] >= u
    ensures forall q | 0 <= q < p :: !(order[q] in leaders && order[q] >= u)
  {
    if order[0] in leaders && order[0] >= u {
      p := 0;
    } else {
      assert order == [order[0]] + order[1..];
      var q := FirstLeader(leaders, order[1..], u);
      p := q + 1;
      assert forall h | 1 <= h < p :: order[h] == order[1..][h - 1];
    }
  }

  /** With too many to hold back before some leader, one leader is not first of its group. */
  lemma ManyHeldBack(group: seq<string>, leaders: set<nat>, order: seq<nat>, workers: nat, u: nat)
    requires Leading(group, leaders) && Covers(order, |group|) && InTurn(order, workers)
    requires u in leaders && |HeldBack(group, leaders, u)| >= workers
    ensures !LeadersFirst(group, leaders, order)
  {
    hide InTurn;
    var p := FirstLeader(leaders, order, u);
    var v := order[p];
    var late := Pending(Members(order[..p]), v);
    TurnOf(order, workers, p);
    if HeldBack(group, leaders, u) <= late {
      SubsetSize(HeldBack(group, leaders, u), late);
    }
    var j :| j in HeldBack(group, leaders, u) && j !in late;
    var w: nat :| w >= u && HeldFor(group, leaders, j, w);
    assert j in order[..p];
    var h :| 0 <= h < p && order[h] == j;
    assert w in order;
    var q :| 0 <= q < |order| && order[q] == w;
    assert q >= p;
  }

  /** So many workers can put every leader first of its group exactly when fewer than that
      have to be held back before each of them. */
  lemma LeadersCanBeFirstIff(group: seq<string>, leaders: set<nat>, workers: nat)
    requires Leading(group, leaders) && workers >= 1
    ensures FewHeldBack(group, leaders, workers) <==>
      exists order: seq<nat> :: Covers(order, |group|) && InTurn(order, workers) && LeadersFirst(group, leaders, order)
  {
    hide InTurn, LeadersFirst, Covers;
    if FewHeldBack(group, leaders, workers) {
      ScheduleWorks(group, leaders, workers);
    } else {
      var u :| u in leaders && |HeldBack(group, leaders, u)| >= workers;
      forall order: seq<nat> | Covers(order, |group|) && InTurn(order, workers)
        ensures !LeadersFirst(group, leaders, order)
      {
        ManyHeldBack(group, leaders, order, workers, u);
      }
    }
  }
}
