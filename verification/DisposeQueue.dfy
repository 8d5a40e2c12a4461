/** The bounded, duplicate-free queue between the usage path and the background
    disable workers. */
module DisposeQueue {
  import opened Bans
  import Text

  datatype Queue = Queue(
    pending: map<string, nat>,
    order: seq<string>,
    capacity: nat,
    queued: nat,
    stopping: bool,
    inFlight: nat)

  ghost predicate Distinct(ids: seq<string>) {
    forall i, j | 0 <= i < j < |ids| :: ids[i] != ids[j]
  }

  /** `order` lists the keys of `pending` once each, within the capacity. */
  ghost predicate Valid(q: Queue) {
    && Distinct(q.order)
    && (forall id :: id in q.order <==> id in q.pending)
    && (forall id | id in q.pending :: id != "" && Text.Trimmed(id))
    && q.queued == |q.order| <= q.capacity
    && (q.stopping ==> q.order == [])
  }

  function Offered(q: Queue, id: string, rev: nat): (Queue, bool) {
    if id == "" || q.stopping then (q, false)
    else if id in q.pending then
      (if rev > q.pending[id] then q.(pending := q.pending[id := rev]) else q, true)
    else if q.queued >= q.capacity then (q, false)
    else (q.(pending := q.pending[id := rev], order := q.order + [id], queued := |q.order| + 1), true)
  }

  function Taken(q: Queue): (Queue, Option<(string, nat)>)
    requires q.order != []
  {
    var id := Text.Trim(q.order[0]);
    (q.(order := q.order[1..], pending := q.pending - {id}, queued := |q.order| - 1, inFlight := q.inFlight + 1),
     if id in q.pending && id != "" then Some((id, q.pending[id])) else None)
  }

  function Halted(q: Queue): Queue {
    if q.stopping then q
    else q.(stopping := true, pending := map[], order := [], queued := 0)
  }

  class BanDisposeQueue {
    var pending: map<string, nat>
    var order: seq<string>
    const capacity: nat
    var queued: nat
    var stopping: bool
    var inFlight: nat

    ghost function View(): Queue
      reads this
    {
      Queue(pending, order, capacity, queued, stopping, inFlight)
    }

    constructor (capacity: nat)
      ensures View() == Queue(map[], [], if capacity == 0 then 256 else capacity, 0, false, 0)
      ensures Valid(View())
    {
      this.capacity := if capacity == 0 then 256 else capacity;
      pending, order, queued, stopping, inFlight := map[], [], 0, false, 0;
    }

    method Enqueue(rawId: string, revision: nat) returns (ok: bool)
      modifies this
      ensures (View(), ok) == Offered(old(View()), Text.Trim(rawId), revision)
    {
      var id := Text.Trim(rawId);
      if id == "" || stopping {
        return false;
      }
      if id in pending {
        if revision > pending[id] {
          pending := pending[id := revision];
        }
        return true;
      }
      if queued >= capacity {
        return false;
      }
      pending := pending[id := revision];
      order := order + [id];
      queued := |order|;
      ok := true;
    }

    /** The worker's critical section; nothing to take means the worker waits or exits. */
    method Dequeue() returns (work: Option<(string, nat)>)
      modifies this
      ensures old(order) == [] ==> View() == old(View()) && work == None
      ensures old(order) != [] ==> (View(), work) == Taken(old(View()))
    {
      if order == [] {
        return None;
      }
      var id := Text.Trim(order[0]);
      order := order[1..];
      work := if id in pending && id != "" then Some((id, pending[id])) else None;
      pending := pending - {id};
      queued := |order|;
      inFlight := inFlight + 1;
    }

    method Release()
      requires inFlight > 0
      modifies this
      ensures View() == old(View()).(inFlight := old(inFlight) - 1)
    {
      inFlight := inFlight - 1;
    }

    method Stop()
      modifies this
      ensures View() == Halted(old(View()))
    {
      if stopping {
        return;
      }
      stopping := true;
      pending := map[];
      order := [];
      queued := 0;
    }
  }

  // ---- Runs -------------------------------------------------------------------

  datatype Step =
    | Enqueue(id: string, rev: nat)
    | Take(worker: nat)
    | Release(worker: nat)
    | Stop

  datatype Event =
    | Accepted(id: string, rev: nat)
    | Refused(id: string, rev: nat)
    | Delivered(id: string, rev: nat)
    | Discarded
    | Quiet

  /** `busy` holds the workers that have taken some work and not finished it. */
  datatype State = State(q: Queue, busy: set<nat>, workers: nat)

  ghost predicate Enabled(s: State, step: Step) {
    match step
    case Enqueue(id, _) => Text.Trimmed(id)
    case Take(w) => w < s.workers && w !in s.busy && s.q.order != []
    case Release(w) => w in s.busy && s.q.inFlight > 0
    case Stop => true
  }

  ghost function Next(s: State, step: Step): State
    requires Enabled(s, step)
  {
    match step
    case Enqueue(id, rev) => s.(q := Offered(s.q, id, rev).0)
    case Take(w) => s.(q := Taken(s.q).0, busy := s.busy + {w})
    case Release(w) => s.(q := s.q.(inFlight := s.q.inFlight - 1), busy := s.busy - {w})
    case Stop => s.(q := Halted(s.q))
  }

  ghost function Emitted(s: State, step: Step): Event
    requires Enabled(s, step)
  {
    match step
    case Enqueue(id, rev) => if Offered(s.q, id, rev).1 then Accepted(id, rev) else Refused(id, rev)
    case Take(_) => if Taken(s.q).1.Some? then Delivered(Taken(s.q).1.value.0, Taken(s.q).1.value.1) else Quiet
    case Release(_) => Quiet
    case Stop => Discarded
  }

  ghost predicate Initial(s: State) {
    s.q == Queue(map[], [], s.q.capacity, 0, false, 0) && s.busy == {}
  }

  ghost predicate Inv(s: State) {
    && Valid(s.q)
    && s.q.inFlight == |s.busy|
    && (forall w | w in s.busy :: w < s.workers)
  }

  /** Taking the front of a distinct list leaves exactly the other ids. */
  lemma RestOfDistinct(ids: seq<string>, x: string)
    requires ids != [] && Distinct(ids)
    ensures x in ids[1..] <==> x in ids && x != ids[0]
  {
    if x in ids && x != ids[0] {
      var k :| 0 <= k < |ids| && ids[k] == x;
      assert ids[1..][k - 1] == x;
    }
  }

  lemma TakeKeepsValid(q: Queue)
    requires Valid(q) && q.order != []
    ensures Valid(Taken(q).0)
    ensures q.order[0] in q.pending && Taken(q).1 == Some((q.order[0], q.pending[q.order[0]]))
  {
    var id := q.order[0];
    assert id in q.pending && Text.Trim(id) == id;
    forall x ensures x in q.order[1..] <==> x in q.pending && x != id {
      RestOfDistinct(q.order, x);
    }
  }

  lemma OfferKeepsValid(q: Queue, id: string, rev: nat)
    requires Valid(q) && Text.Trimmed(id)
    ensures Valid(Offered(q, id, rev).0)
  {
  }

  lemma StepKeepsValid(s: State, step: Step, t: State, e: Event)
    requires Valid(s.q) && Follows(s, step, t, e)
    ensures Valid(t.q)
    ensures step.Take? ==> s.q.order[0] in s.q.pending && e == Delivered(s.q.order[0], s.q.pending[s.q.order[0]])
  {
    match step
    case Enqueue(id, rev) => {
      OfferKeepsValid(s.q, id, rev);
      hide Valid, Offered;
    }
    case Take(_) => {
      TakeKeepsValid(s.q);
      hide Valid, Taken;
    }
    case _ =>
  }

  lemma StepKeepsFlights(s: State, step: Step, t: State, e: Event)
    requires Follows(s, step, t, e)
    requires s.q.inFlight == |s.busy| && forall w | w in s.busy :: w < s.workers
    ensures t.q.inFlight == |t.busy| && forall w | w in t.busy :: w < t.workers
  {
  }

  lemma StepKeepsInv(s: State, step: Step, t: State, e: Event)
    requires Inv(s) && Follows(s, step, t, e)
    ensures Inv(t)
    ensures step.Take? ==> s.q.order[0] in s.q.pending && e == Delivered(s.q.order[0], s.q.pending[s.q.order[0]])
  {
    hide Valid, Next;
    StepKeepsValid(s, step, t, e);
    StepKeepsFlights(s, step, t, e);
  }

  ghost predicate Run(states: seq<State>, steps: seq<Step>, events: seq<Event>) {
    && |states| == |steps| + 1 && |events| == |steps|
    && Initial(states[0])
    && forall i | 0 <= i < |steps| :: Follows(states[i], steps[i], states[i + 1], events[i])
  }

  ghost predicate Follows(s: State, step: Step, t: State, e: Event) {
    Enabled(s, step) && t == Next(s, step) && e == Emitted(s, step)
  }

  lemma {:induction false} RunsKeepInv(states: seq<State>, steps: seq<Step>, events: seq<Event>, n: nat)
    requires Run(states, steps, events) && n < |states|
    ensures Inv(states[n])
    decreases n
  {
    if n > 0 {
      RunsKeepInv(states, steps, events, n - 1);
      StepKeepsInv(states[n - 1], steps[n - 1], states[n], events[n - 1]);
    }
  }

  lemma QueueStaysValid(states: seq<State>, steps: seq<Step>, events: seq<Event>, n: nat)
    requires Run(states, steps, events) && n < |states|
    ensures |states| == |steps| + 1 == |events| + 1
    ensures Valid(states[n].q)
    ensures n < |steps| ==> Follows(states[n], steps[n], states[n + 1], events[n])
  {
    RunsKeepInv(states, steps, events, n);
  }

  lemma SubsetSize(a: set<nat>, n: nat)
    requires forall x | x in a :: x < n
    ensures |a| <= n
  {
    if n == 0 {
      assert a == {};
    } else {
      SubsetSize(a - {n - 1}, n - 1);
    }
  }

  /** Work in flight is bounded by the workers and takes no queue slot. */
  lemma FlightsAreBounded(states: seq<State>, steps: seq<Step>, events: seq<Event>, n: nat)
    requires Run(states, steps, events) && n < |states|
    ensures states[n].q.inFlight <= states[n].workers
    ensures |states[n].q.order| <= states[n].q.capacity
  {
    RunsKeepInv(states, steps, events, n);
    SubsetSize(states[n].busy, states[n].workers);
  }

  ghost function MaxAfter(before: Option<nat>, e: Event, id: string): Option<nat> {
    match e
    case Accepted(x, r) =>
      if x != id then before
      else if before.Some? && before.value >= r then before
      else Some(r)
    case Delivered(x, _) => if x == id then None else before
    case Discarded => None
    case _ => before
  }

  /** The largest revision accepted for `id` since it was last delivered or discarded. */
  ghost function MaxSince(events: seq<Event>, id: string): Option<nat> {
    if events == [] then None
    else MaxAfter(MaxSince(events[..|events| - 1], id), events[|events| - 1], id)
  }

  ghost function Carried(q: Queue, id: string): Option<nat> {
    if id in q.pending then Some(q.pending[id]) else None
  }

  lemma StepCarries(s: State, step: Step, t: State, e: Event, id: string)
    requires Valid(s.q) && Follows(s, step, t, e)
    ensures Carried(t.q, id) == MaxAfter(Carried(s.q, id), e, id)
  {
    StepKeepsValid(s, step, t, e);
    hide Valid;
  }

  /** Each queued id carries exactly that revision, and only such ids are queued. */
  lemma {:induction false} QueueHoldsTheMaximum(
      states: seq<State>, steps: seq<Step>, events: seq<Event>, n: nat, id: string)
    requires Run(states, steps, events) && n < |states|
    ensures Carried(states[n].q, id) == MaxSince(events[..n], id)
    decreases n
  {
    if n > 0 {
      hide Valid, Follows, Run, MaxAfter;
      QueueHoldsTheMaximum(states, steps, events, n - 1, id);
      QueueStaysValid(states, steps, events, n - 1);
      StepCarries(states[n - 1], steps[n - 1], states[n], events[n - 1], id);
      assert events[..n][..n - 1] == events[..n - 1];
    } else {
      assert events[..0] == [];
    }
  }

  /** Still queued at revision `r` or a higher one. */
  ghost predicate Waits(q: Queue, id: string, r: nat) {
    Carried(q, id).Some? && Carried(q, id).value >= r
  }

  lemma WaitingEndsInDelivery(s: State, step: Step, t: State, e: Event, id: string, r: nat)
    requires Valid(s.q) && Follows(s, step, t, e)
    ensures e == Accepted(id, r) ==> Waits(t.q, id, r)
    ensures Waits(s.q, id, r) ==>
      Waits(t.q, id, r) || (e.Delivered? && e.id == id && e.rev >= r) || e == Discarded
  {
    StepCarries(s, step, t, e, id);
    StepKeepsValid(s, step, t, e);
  }

  /** An accepted request is delivered later at its revision or a higher one, or dropped
      by the stop, or still queued at such a revision. */
  lemma {:induction false} AcceptedIsNotLost(states: seq<State>, steps: seq<Step>, events: seq<Event>, i: nat, n: nat)
    requires Run(states, steps, events) && i < n < |states| && events[i].Accepted?
    ensures var id, r := events[i].id, events[i].rev;
      || (exists j :: i < j < n && events[j].Delivered? && events[j].id == id && events[j].rev >= r)
      || (exists j :: i < j < n && events[j] == Discarded)
      || Waits(states[n].q, id, r)
    decreases n
  {
    hide Valid, Follows, Run, Waits;
    QueueStaysValid(states, steps, events, n - 1);
    WaitingEndsInDelivery(states[n - 1], steps[n - 1], states[n], events[n - 1], events[i].id, events[i].rev);
    if i < n - 1 {
      AcceptedIsNotLost(states, steps, events, i, n - 1);
    }
  }

  /** Only stopping, a blank id or a full queue without the id refuse a request. */
  lemma RefusalHasAReason(s: State, id: string, rev: nat)
    requires Inv(s) && Enabled(s, Enqueue(id, rev))
    ensures Emitted(s, Enqueue(id, rev)).Refused?
       <==> s.q.stopping || id == "" || (id !in s.q.order && |s.q.order| == s.q.capacity)
    ensures Emitted(s, Enqueue(id, rev)).Refused? ==> Next(s, Enqueue(id, rev)) == s
  {
  }

  /** The number of takes among the steps from `i` up to `n`. */
  function Takes(steps: seq<Step>, i: nat, n: nat): nat
    requires i <= n <= |steps|
  {
    if i == n then 0
    else Takes(steps, i, n - 1) + if steps[n - 1].Take? then 1 else 0
  }

  /** `id` stands at position `k` and carries at least revision `r`. */
  ghost predicate StandsAt(q: Queue, k: int, id: string, r: nat) {
    && 0 <= k < |q.order| && q.order[k] == id
    && id in q.pending && q.pending[id] >= r
  }

  lemma StepMovesUp(s: State, step: Step, t: State, e: Event, k: nat, id: string, r: nat)
    requires Valid(s.q) && Follows(s, step, t, e) && step != Stop
    requires StandsAt(s.q, k, id, r)
    ensures !step.Take? ==> StandsAt(t.q, k, id, r)
    ensures step.Take? && k > 0 ==> StandsAt(t.q, k - 1, id, r)
    ensures step.Take? && k == 0 ==> e == Delivered(id, s.q.pending[id])
  {
    StepCarries(s, step, t, e, id);
    StepKeepsValid(s, step, t, e);
  }

  /** First in, first out: an id moves up by one place at every take and its revision
      does not fall. */
  lemma {:induction false} PositionMovesUp(states: seq<State>, steps: seq<Step>, events: seq<Event>, i: nat, n: nat,
                                           p: nat, id: string, r: nat)
    requires Run(states, steps, events) && i <= n < |states| && StandsAt(states[i].q, p, id, r)
    requires forall j | i <= j < n :: steps[j] != Stop
    requires Takes(steps, i, n) <= p
    ensures StandsAt(states[n].q, p - Takes(steps, i, n), id, r)
    decreases n
  {
    if i < n {
      OneMoreTake(steps, i, n);
      hide Valid, Run, Follows, StandsAt, Takes;
      PositionMovesUp(states, steps, events, i, n - 1, p, id, r);
      OnePlace(states, steps, events, n - 1, p - Takes(steps, i, n - 1), id, r);
    }
  }

  lemma OnePlace(states: seq<State>, steps: seq<Step>, events: seq<Event>, m: nat, k: nat, id: string, r: nat)
    requires Run(states, steps, events) && m < |steps| && steps[m] != Stop && StandsAt(states[m].q, k, id, r)
    requires steps[m].Take? ==> k > 0
    ensures StandsAt(states[m + 1].q, if steps[m].Take? then k - 1 else k, id, r)
  {
    QueueStaysValid(states, steps, events, m);
    assert Follows(states[m], steps[m], states[m + 1], events[m]);
    hide Valid, Run, Follows, StandsAt;
    StepMovesUp(states[m], steps[m], states[m + 1], events[m], k, id, r);
  }

  lemma OneMoreTake(steps: seq<Step>, i: nat, n: nat)
    requires i < n <= |steps|
    ensures Takes(steps, i, n) == Takes(steps, i, n - 1) + if steps[n - 1].Take? then 1 else 0
  {
  }

  /** The take that finds the id in front delivers it, at its revision or a higher one. */
  lemma FrontIsDelivered(states: seq<State>, steps: seq<Step>, events: seq<Event>, i: nat, n: nat,
                         p: nat, id: string, r: nat)
    requires Run(states, steps, events) && i <= n < |steps| && StandsAt(states[i].q, p, id, r)
    requires forall j | i <= j < n :: steps[j] != Stop
    requires Takes(steps, i, n) == p && steps[n].Take?
    ensures events[n].Delivered? && events[n].id == id && events[n].rev >= r
  {
    QueueStaysValid(states, steps, events, n);
    hide Valid, Follows, Run;
    PositionMovesUp(states, steps, events, i, n, p, id, r);
    StepMovesUp(states[n], steps[n], states[n + 1], events[n], 0, id, r);
  }

  lemma StoppedStaysStopped(s: State, step: Step, t: State, e: Event)
    requires Valid(s.q) && Follows(s, step, t, e)
    ensures step == Stop ==> t.q.stopping
    ensures s.q.stopping ==> t.q.stopping && !e.Accepted? && !e.Delivered?
  {
  }

  /** After the stop nothing is accepted and nothing is delivered. */
  lemma {:induction false} StopIsFinal(states: seq<State>, steps: seq<Step>, events: seq<Event>, i: nat, n: nat)
    requires Run(states, steps, events) && i < n < |states| && steps[i] == Stop
    ensures states[n].q.stopping
    ensures forall j | i < j < n :: !events[j].Accepted? && !events[j].Delivered?
    decreases n
  {
    QueueStaysValid(states, steps, events, n - 1);
    hide Valid, Follows, Run;
    StoppedStaysStopped(states[n - 1], steps[n - 1], states[n], events[n - 1]);
    if i < n - 1 {
      StopIsFinal(states, steps, events, i, n - 1);
      forall j | i < j < n ensures !events[j].Accepted? && !events[j].Delivered? {
        if j < n - 1 {
          assert !events[j].Accepted? && !events[j].Delivered?;
        }
      }
    }
  }
}
