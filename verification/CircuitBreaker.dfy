/** The guard in front of the management interface: a rejected key is not sent again for a
    while, and nothing is sent while the address is banned. */
module CircuitBreaker {
  import opened Bans
  import Text

  /** Five minutes. */
  const COOLDOWN: nat := 300_000_000_000
  const SKEW: nat := 2_000_000_000

  /** `rejected` is empty when no key is refused; a missing deadline never ends. */
  datatype Guard = Guard(rejected: string, rejectedUntil: Option<nat>, banUntil: Option<int>)

  const OPEN := Guard("", None, None)

  /** `Banned` carries the waiting time named in the notice, zeros when there is none. */
  datatype Answer = Success | InvalidKey | Banned(minutes: nat, seconds: nat) | OtherFailure

  /** How long a notice pauses every call; the 64-bit products and sums wrap around. */
  function Pause(minutes: nat, seconds: nat): int {
    var window :=
      if minutes > 0 || seconds > 0 then Wrapped(minutes * 60 * SECOND) + Wrapped(seconds * SECOND) else 60 * SECOND;
    Wrapped(Wrapped(window) + SKEW)
  }

  /** The pause is what the notice asks for, and two seconds more, up to 292 years; a minute
      and two seconds if it names no time. */
  lemma PauseIsAsked(minutes: nat, seconds: nat)
    requires minutes * 60 + seconds <= 9_223_372_034
    ensures Pause(minutes, seconds) ==
      SKEW + if minutes > 0 || seconds > 0 then (minutes * 60 + seconds) * SECOND else 60 * SECOND
  {
    hide Wrapped;
    var m, s := minutes * 60 * SECOND, seconds * SECOND;
    WrappedIs(m);
    WrappedIs(s);
    WrappedIs(m + s);
    WrappedIs(m + s + SKEW);
    WrappedIs(60 * SECOND);
    WrappedIs(60 * SECOND + SKEW);
  }

  predicate KeyRefused(g: Guard, key: string, now: nat) {
    g.rejected != "" && g.rejected == key && (g.rejectedUntil.None? || now < g.rejectedUntil.value)
  }

  predicate AddressBanned(g: Guard, now: nat) {
    g.banUntil.Some? && now < g.banUntil.value
  }

  predicate Refuses(g: Guard, key: string, now: nat) {
    KeyRefused(g, key, now) || AddressBanned(g, now)
  }

  /** Asking about a key whose cooldown has passed forgets its rejection. */
  function Asked(g: Guard, key: string, now: nat): Guard {
    if g.rejected != "" && g.rejected == key && !KeyRefused(g, key, now) then g.(rejected := "", rejectedUntil := None)
    else g
  }

  function Noted(g: Guard, key: string, now: nat, a: Answer): Guard {
    match a
    case Success => OPEN
    case InvalidKey => g.(rejected := key, rejectedUntil := Some(now + COOLDOWN))
    case Banned(m, s) => g.(banUntil := Some(now + Pause(m, s)))
    case OtherFailure => g
  }

  function Remembered(g: Guard, key: string): Guard {
    if g.rejected != "" && g.rejected != key then g.(rejected := "", rejectedUntil := None) else g
  }

  class ManagementGuard {
    var rejected: string
    var rejectedUntil: Option<nat>
    var banUntil: Option<int>
    var cachedKey: string

    ghost function View(): Guard
      reads this
    {
      Guard(rejected, rejectedUntil, banUntil)
    }

    constructor ()
      ensures View() == OPEN && cachedKey == ""
    {
      rejected, rejectedUntil, banUntil, cachedKey := "", None, None, "";
    }

    method Blocked(password: string, now: nat) returns (blocked: bool)
      modifies this`rejected, this`rejectedUntil
      ensures blocked <==> Refuses(old(View()), Text.Trim(password), now)
      ensures View() == Asked(old(View()), Text.Trim(password), now)
    {
      var key := Text.Trim(password);
      if rejected != "" && rejected == key {
        if rejectedUntil.None? || now < rejectedUntil.value {
          return true;
        }
        rejected, rejectedUntil := "", None;
      }
      blocked := banUntil.Some? && now < banUntil.value;
    }

    method NoteFailure(password: string, now: nat, a: Answer)
      requires !a.Success?
      modifies this
      ensures View() == Noted(old(View()), Text.Trim(password), now, a)
      ensures cachedKey == if a.InvalidKey? && old(cachedKey) == Text.Trim(password) then "" else old(cachedKey)
    {
      var key := Text.Trim(password);
      match a
      case Banned(m, s) =>
        banUntil := Some(now + Pause(m, s));
      case InvalidKey =>
        if rejected != key {
          rejected := key;
        }
        rejectedUntil := Some(now + COOLDOWN);
        if cachedKey == key {
          cachedKey := "";
        }
      case OtherFailure =>
    }

    method NoteSuccess()
      modifies this`rejected, this`rejectedUntil, this`banUntil
      ensures View() == OPEN
    {
      rejected, rejectedUntil, banUntil := "", None, None;
    }

    /** A blank key changes nothing. */
    method Remember(password: string)
      modifies this`cachedKey, this`rejected, this`rejectedUntil
      ensures Text.Blank(password) ==> View() == old(View()) && cachedKey == old(cachedKey)
      ensures !Text.Blank(password) ==>
        View() == Remembered(old(View()), Text.Trim(password)) && cachedKey == Text.Trim(password)
    {
      var key := Text.Trim(password);
      if key == "" {
        return;
      }
      cachedKey := key;
      if rejected != "" && rejected != key {
        rejected, rejectedUntil := "", None;
      }
    }
  }

  // ---- Sequential runs ---------------------------------------------------------------

  /** A call asks the guard at `start` and is answered at `end`, if it is sent at all. */
  datatype Event = Call(key: string, start: nat, end: nat, answer: Answer) | Enter(key: string, start: nat, end: nat)

  predicate Sent(g: Guard, e: Event) {
    e.Call? && !Refuses(g, e.key, e.start)
  }

  function Next(g: Guard, e: Event): Guard {
    match e
    case Call(key, start, end, a) =>
      if Sent(g, e) then Noted(Asked(g, key, start), key, end, a) else Asked(g, key, start)
    case Enter(key, _, _) => Remembered(g, key)
  }

  /** One event after the other, each with a key. */
  ghost predicate Run(guards: seq<Guard>, events: seq<Event>) {
    && |guards| == |events| + 1
    && (forall i | 0 <= i < |events| :: events[i].key != "" && events[i].start <= events[i].end)
    && (forall i, j | 0 <= i < j < |events| :: events[i].end <= events[j].start)
    && forall i | 0 <= i < |events| :: guards[i + 1] == Next(guards[i], events[i])
  }

  predicate Rejection(guards: seq<Guard>, events: seq<Event>, key: string, i: nat)
    requires |guards| == |events| + 1 && i < |events|
  {
    Sent(guards[i], events[i]) && events[i].key == key && events[i].answer == InvalidKey
  }

  /** The event neither succeeds, nor rejects or brings in another key. */
  predicate Quiet(guards: seq<Guard>, events: seq<Event>, key: string, i: nat)
    requires |guards| == |events| + 1 && i < |events|
  {
    && (Sent(guards[i], events[i]) ==>
          events[i].answer != Success && (events[i].answer == InvalidKey ==> events[i].key == key))
    && (events[i].Enter? ==> events[i].key == key)
  }

  /** After a rejection the key stays refused until its cooldown has passed. */
  lemma {:induction false} StaysRefused(guards: seq<Guard>, events: seq<Event>, key: string, i: nat, j: nat)
    requires Run(guards, events) && i < j <= |events| && Rejection(guards, events, key, i)
    requires forall m | i < m < j :: Quiet(guards, events, key, m)
    ensures
      || (guards[j].rejected == key && guards[j].rejectedUntil.Some? &&
          guards[j].rejectedUntil.value >= events[i].end + COOLDOWN)
      || events[j - 1].end >= events[i].end + COOLDOWN
    decreases j
  {
    if i < j - 1 {
      StaysRefused(guards, events, key, i, j - 1);
      assert Quiet(guards, events, key, j - 1);
      assert guards[j] == Next(guards[j - 1], events[j - 1]);
    }
  }

  /** After the last rejection of a key: everything between was quiet and the rejection
      stands, or it was forgotten once the cooldown had passed, or something else ended it. */
  lemma {:induction false} AfterLastRejection(guards: seq<Guard>, events: seq<Event>, key: string, i: nat, j: nat)
    requires Run(guards, events) && i < j <= |events| && Rejection(guards, events, key, i)
    requires forall m | i < m < j :: !Rejection(guards, events, key, m)
    ensures if forall m | i < m < j :: Quiet(guards, events, key, m)
      then
        || (guards[j].rejected == key && guards[j].rejectedUntil == Some(events[i].end + COOLDOWN))
        || (guards[j].rejected != key && events[j - 1].end >= events[i].end + COOLDOWN)
      else guards[j].rejected != key
    decreases j
  {
    assert guards[j] == Next(guards[j - 1], events[j - 1]);
    if i < j - 1 {
      AfterLastRejection(guards, events, key, i, j - 1);
      assert Quiet(guards, events, key, j - 1) || !Quiet(guards, events, key, j - 1);
      assert !Rejection(guards, events, key, j - 1);
    }
  }

  /** A key is refused exactly during the cooldown of its last rejection, unless a success
      or another key has come between. */
  lemma KeyRefusedIff(guards: seq<Guard>, events: seq<Event>, key: string, i: nat, j: nat, now: nat)
    requires Run(guards, events) && i < j <= |events| && Rejection(guards, events, key, i)
    requires forall m | i < m < j :: !Rejection(guards, events, key, m)
    requires events[j - 1].end <= now
    ensures KeyRefused(guards[j], key, now) <==>
      now < events[i].end + COOLDOWN && forall m | i < m < j :: Quiet(guards, events, key, m)
  {
    AfterLastRejection(guards, events, key, i, j);
  }

  /** In a run of a new guard a key that was never rejected is not refused. */
  lemma {:induction false} OnlyRejectedKeysAreHeld(guards: seq<Guard>, events: seq<Event>, key: string, j: nat)
    requires Run(guards, events) && guards[0] == OPEN && j <= |events| && key != ""
    requires forall m | 0 <= m < j :: !Rejection(guards, events, key, m)
    ensures guards[j].rejected != key
    decreases j
  {
    if j > 0 {
      OnlyRejectedKeysAreHeld(guards, events, key, j - 1);
      assert guards[j] == Next(guards[j - 1], events[j - 1]);
      assert !Rejection(guards, events, key, j - 1);
    }
  }

  /** Consecutive rejections of one key are at least the cooldown apart, counted from the
      answer to the next request. */
  lemma RejectionsAreApart(guards: seq<Guard>, events: seq<Event>, key: string, i: nat, j: nat)
    requires Run(guards, events) && i < j < |events|
    requires Rejection(guards, events, key, i) && Rejection(guards, events, key, j)
    requires forall m | i < m < j :: Quiet(guards, events, key, m)
    ensures events[j].end >= events[j].start >= events[i].end + COOLDOWN
  {
    StaysRefused(guards, events, key, i, j);
  }

  /** The rejections of a key answered between `from` and `from + length`. */
  function Rejections(guards: seq<Guard>, events: seq<Event>, key: string, from: nat, length: nat, n: nat): nat
    requires |guards| == |events| + 1 && n <= |events|
  {
    if n == 0 then 0
    else
      Rejections(guards, events, key, from, length, n - 1) +
      if Rejection(guards, events, key, n - 1) && from <= events[n - 1].end <= from + length then 1 else 0
  }

  lemma {:induction false} LatestRejection(
      guards: seq<Guard>, events: seq<Event>, key: string, from: nat, length: nat, n: nat)
    returns (i: nat)
    requires |guards| == |events| + 1 && Run(guards, events) && n <= |events|
    requires forall m | 0 <= m < n :: Quiet(guards, events, key, m)
    requires Rejections(guards, events, key, from, length, n) > 0
    ensures i < n && Rejection(guards, events, key, i) && events[i].end <= from + length
    ensures events[i].end >= from + (Rejections(guards, events, key, from, length, n) - 1) * COOLDOWN
    decreases n
  {
    hide Run, Rejection, Quiet;
    var before := Rejections(guards, events, key, from, length, n - 1);
    if before == 0 {
      i := n - 1;
    } else {
      i := LatestRejection(guards, events, key, from, length, n - 1);
      if Rejections(guards, events, key, from, length, n) > before {
        RejectionsAreApart(guards, events, key, i, n - 1);
        i := n - 1;
      }
    }
  }

  /** In any interval there are at most one more rejections than cooldowns fit in it. */
  lemma RejectionsAreFew(guards: seq<Guard>, events: seq<Event>, key: string, from: nat, length: nat)
    requires Run(guards, events)
    requires forall m | 0 <= m < |events| :: Quiet(guards, events, key, m)
    ensures Rejections(guards, events, key, from, length, |events|) <= 1 + length / COOLDOWN
  {
    var count := Rejections(guards, events, key, from, length, |events|);
    if count > 1 {
      var i := LatestRejection(guards, events, key, from, length, |events|);
      assert (count - 1) * COOLDOWN <= length;
    }
  }

  /** Nothing is sent inside a reported ban window, whatever the key. */
  lemma {:induction false} SilentWhileBanned(guards: seq<Guard>, events: seq<Event>, i: nat, j: nat)
    requires Run(guards, events) && i < j < |events|
    requires Sent(guards[i], events[i]) && events[i].answer.Banned?
    requires events[j].start < events[i].end + Pause(events[i].answer.minutes, events[i].answer.seconds)
    ensures !Sent(guards[j], events[j])
    ensures guards[j].banUntil == Some(events[i].end + Pause(events[i].answer.minutes, events[i].answer.seconds))
    decreases j
  {
    assert guards[i + 1] == Next(guards[i], events[i]);
    if i < j - 1 {
      assert events[j - 1].start <= events[j - 1].end <= events[j].start;
      SilentWhileBanned(guards, events, i, j - 1);
      assert guards[j] == Next(guards[j - 1], events[j - 1]);
    }
  }

  predicate Notice(guards: seq<Guard>, events: seq<Event>, i: nat)
    requires |guards| == |events| + 1 && i < |events|
  {
    Sent(guards[i], events[i]) && events[i].answer.Banned?
  }

  predicate Recovery(guards: seq<Guard>, events: seq<Event>, i: nat)
    requires |guards| == |events| + 1 && i < |events|
  {
    Sent(guards[i], events[i]) && events[i].answer.Success?
  }

  /** The last notice before `j`, with no success after it. */
  ghost predicate NoticeStands(guards: seq<Guard>, events: seq<Event>, i: nat, j: nat)
    requires |guards| == |events| + 1 && j <= |events|
  {
    && i < j && Notice(guards, events, i)
    && forall m | i < m < j :: !Notice(guards, events, m) && !Recovery(guards, events, m)
  }

  function WindowEnd(e: Event): int
    requires e.Call? && e.answer.Banned?
  {
    e.end + Pause(e.answer.minutes, e.answer.seconds)
  }

  lemma {:induction false} WindowIsLastNotice(guards: seq<Guard>, events: seq<Event>, j: nat)
    requires Run(guards, events) && guards[0] == OPEN && j <= |events|
    ensures forall i: nat | NoticeStands(guards, events, i, j) :: guards[j].banUntil == Some(WindowEnd(events[i]))
    ensures (forall i: nat :: !NoticeStands(guards, events, i, j)) ==> guards[j].banUntil == None
    decreases j
  {
    hide Pause, Refuses;
    if j > 0 {
      WindowIsLastNotice(guards, events, j - 1);
      assert guards[j] == Next(guards[j - 1], events[j - 1]);
      forall i: nat
        ensures NoticeStands(guards, events, i, j) <==>
          if i == j - 1 then Notice(guards, events, i)
          else NoticeStands(guards, events, i, j - 1) && !Notice(guards, events, j - 1) &&
               !Recovery(guards, events, j - 1)
      {
      }
    }
  }

  /** The address is held back exactly inside the window of the last notice, if no success
      has come since; no other answer holds it back. */
  lemma AddressBannedIff(guards: seq<Guard>, events: seq<Event>, j: nat, now: nat)
    requires Run(guards, events) && guards[0] == OPEN && j <= |events|
    ensures AddressBanned(guards[j], now) <==>
      exists i: nat :: NoticeStands(guards, events, i, j) && now < WindowEnd(events[i])
  {
    hide Pause;
    WindowIsLastNotice(guards, events, j);
  }

  /** The last rejection of the key before `j`, with no success and no other key after it. */
  ghost predicate RejectionStands(guards: seq<Guard>, events: seq<Event>, key: string, i: nat, j: nat)
    requires |guards| == |events| + 1 && j <= |events|
  {
    && i < j && Rejection(guards, events, key, i)
    && forall m | i < m < j :: !Rejection(guards, events, key, m) && Quiet(guards, events, key, m)
  }

  lemma {:induction false} LastRejectionOf(guards: seq<Guard>, events: seq<Event>, key: string, j: nat) returns (i: nat)
    requires |guards| == |events| + 1 && j <= |events|
    requires exists m :: 0 <= m < j && Rejection(guards, events, key, m)
    ensures i < j && Rejection(guards, events, key, i)
    ensures forall m | i < m < j :: !Rejection(guards, events, key, m)
    decreases j
  {
    hide Rejection;
    if Rejection(guards, events, key, j - 1) {
      i := j - 1;
    } else {
      i := LastRejectionOf(guards, events, key, j - 1);
    }
  }

  /** In a run of a new guard a request is refused exactly in the cooldown of a rejection of
      its key that still stands, or in the window of a notice that does. */
  lemma RefusedIff(guards: seq<Guard>, events: seq<Event>, key: string, j: nat, now: nat)
    requires Run(guards, events) && guards[0] == OPEN && j <= |events| && key != ""
    requires j > 0 ==> events[j - 1].end <= now
    ensures Refuses(guards[j], key, now) <==>
      || (exists i: nat :: RejectionStands(guards, events, key, i, j) && now < events[i].end + COOLDOWN)
      || (exists i: nat :: NoticeStands(guards, events, i, j) && now < WindowEnd(events[i]))
  {
    AddressBannedIff(guards, events, j, now);
    hide Pause, Rejection, Quiet, Run, NoticeStands, AddressBanned;
    if exists m :: 0 <= m < j && Rejection(guards, events, key, m) {
      var last := LastRejectionOf(guards, events, key, j);
      KeyRefusedIff(guards, events, key, last, j, now);
      assert forall i: nat | RejectionStands(guards, events, key, i, j) :: i == last;
      assert KeyRefused(guards[j], key, now) ==> RejectionStands(guards, events, key, last, j);
    } else {
      OnlyRejectedKeysAreHeld(guards, events, key, j);
    }
  }

  /** The bound is one of each key: two rejected keys used in turn are sent at once. */
  lemma AlternatingKeysAreNotHeldBack(a: string, b: string) returns (guards: seq<Guard>, events: seq<Event>)
    requires a != "" && b != "" && a != b
    ensures Run(guards, events) && |events| == 3 && guards[0] == OPEN
    ensures forall i | 0 <= i < 3 :: events[i].start == events[i].end == 0
    ensures Rejection(guards, events, a, 0) && Rejection(guards, events, b, 1) && Rejection(guards, events, a, 2)
  {
    events := [Call(a, 0, 0, InvalidKey), Call(b, 0, 0, InvalidKey), Call(a, 0, 0, InvalidKey)];
    var g1 := Next(OPEN, events[0]);
    var g2 := Next(g1, events[1]);
    guards := [OPEN, g1, g2, Next(g2, events[2])];
  }
}
