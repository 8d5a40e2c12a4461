/** Ban rows and the two producers that create them: detection on a failed usage
    record and the operator's inspection disable. */
module Bans {
  import Text

  /** Nanoseconds on the wall clock. */
  type Time = int

  datatype Option<+T> = None | Some(value: T)

  const HOUR: int := 3_600_000_000_000
  /** 36 524 days, the shorter of the two lengths of a hundred calendar years. */
  const CENTURY: int := 36_524 * 24 * HOUR
  const FIVE_YEARS: int := 1_826 * 24 * HOUR

  /** Error codes, up to the equalities the program tests. */
  datatype ErrorCode =
    | NoCode
    | FreeUsage         // subscription:free-usage-exhausted
    | PermissionDenied  // permission-denied
    | SpendingLimit     // personal-team-blocked:spending-limit
    | Unauthorized      // unauthorized
    | ManualDisabled    // manual-disabled
    | OtherCode(text: string)

  datatype ResetSource =
    | ManualUnban
    | HeaderAbsolute
    | HeaderRelative
    | DatePlusFallback
    | LocalPlusFallback

  datatype BanEntry = BanEntry(
    authId: string,
    provider: string,
    errorCode: ErrorCode,
    errorCodeDiag: ErrorCode,
    bannedAt: Time,
    resetAt: Time,
    resetSource: ResetSource,
    traceId: string,
    cpaSynced: bool,
    revision: nat,
    cpaSyncError: string)

  /** A row is waiting for an operator exactly when it is not a free-usage row. */
  predicate Consistent(e: BanEntry) {
    && e.errorCode != NoCode
    && (e.resetSource == ManualUnban <==> e.errorCode != FreeUsage)
  }

  /** One reset header, after the RFC 3339 and integer parses. */
  datatype HeaderTime = Unusable | Timestamp(at: Time) | UnixSeconds(n: int)

  /** The retry header, after the integer and date parses. */
  datatype RetryAfter = RetrySeconds(n: int) | RetryAt(at: Time)

  datatype ResetHeaders = ResetHeaders(
    absolute: seq<HeaderTime>,
    retryAfter: Option<RetryAfter>,
    date: Option<Time>)

  const SECOND: int := 1_000_000_000
  const MILLI: int := 1_000_000

  /** A usable time is ahead, but not by more than five years. */
  predicate Ahead(at: Time, now: Time) {
    now < at <= now + FIVE_YEARS
  }

  function UnixResetTime(n: int, now: Time): (r: Option<Time>)
    ensures n <= 0 ==> r.None?
    ensures 0 < n < 1_000_000_000_000 ==> r == if Ahead(n * SECOND, now) then Some(n * SECOND) else None
    ensures n >= 1_000_000_000_000 ==> r == if Ahead(n * MILLI, now) then Some(n * MILLI) else None
  {
    if n <= 0 then None
    else
      var at := if n >= 1_000_000_000_000 then n * MILLI else n * SECOND;
      if at <= now || at > now + FIVE_YEARS then None else Some(at)
  }

  /** The time a header names, if it names one. */
  ghost predicate Means(value: HeaderTime, at: Time) {
    match value
    case Unusable => false
    case Timestamp(t) => at == t
    case UnixSeconds(n) => n > 0 && at == if n < 1_000_000_000_000 then n * SECOND else n * MILLI
  }

  function HeaderReset(value: HeaderTime, now: Time): (r: Option<Time>)
    ensures r.Some? <==> exists at :: Means(value, at) && Ahead(at, now)
    ensures r.Some? ==> Means(value, r.value) && Ahead(r.value, now)
  {
    assert value.Timestamp? ==> Means(value, value.at);
    assert value.UnixSeconds? && value.n > 0 ==>
      Means(value, if value.n < 1_000_000_000_000 then value.n * SECOND else value.n * MILLI);
    match value
    case Unusable => None
    case Timestamp(at) => if at <= now || at > now + FIVE_YEARS then None else Some(at)
    case UnixSeconds(n) => UnixResetTime(n, now)
  }

  predicate IsFirstReset(values: seq<HeaderTime>, now: Time, i: nat, r: Option<Time>)
    requires i < |values|
  {
    HeaderReset(values[i], now) == r && forall j | 0 <= j < i :: HeaderReset(values[j], now).None?
  }

  function AbsoluteResetTime(values: seq<HeaderTime>, now: Time): (r: Option<Time>)
    ensures r.None? <==> forall i | 0 <= i < |values| :: HeaderReset(values[i], now).None?
    ensures r.Some? ==> Ahead(r.value, now) && exists i :: 0 <= i < |values| && IsFirstReset(values, now, i, r)
  {
    if values == [] then None
    else
      var first := HeaderReset(values[0], now);
      if first.Some? then
        assert IsFirstReset(values, now, 0, first);
        first
      else
        var r := AbsoluteResetTime(values[1..], now);
        assert forall i | 1 <= i < |values| :: values[i] == values[1..][i - 1];
        assert r.Some? ==>
          exists i :: 0 <= i < |values[1..]| && IsFirstReset(values[1..], now, i, r) &&
            IsFirstReset(values, now, i + 1, r);
        r
  }

  const MAX64: int := 0x7fff_ffff_ffff_ffff

  /** A 64-bit product wraps around. */
  function Wrapped(x: int): int {
    (x + MAX64 + 1) % (2 * (MAX64 + 1)) - (MAX64 + 1)
  }

  lemma WrappedIs(x: int)
    requires -MAX64 <= x <= MAX64
    ensures Wrapped(x) == x
  {
  }

  predicate UsableRetry(retry: RetryAfter, now: Time) {
    match retry
    case RetrySeconds(n) => 0 < n <= MAX64
    case RetryAt(at) => at > now
  }

  /** The delay of a usable retry header; the difference of two dates stops at the largest
      64-bit number. */
  function RetryDelay(retry: Option<RetryAfter>, now: Time): (d: Option<int>)
    ensures d.Some? <==> retry.Some? && UsableRetry(retry.value, now)
    ensures retry.Some? && retry.value.RetryAt? && d.Some? ==> 0 < d.value <= retry.value.at - now
  {
    match retry
    case None => None
    case Some(RetrySeconds(n)) => if 0 < n <= MAX64 then Some(Wrapped(n * SECOND)) else None
    case Some(RetryAt(at)) => if at > now then Some(if at - now > MAX64 then MAX64 else at - now) else None
  }

  /** The delay in seconds is the one asked for exactly up to 9 223 372 036 of them. */
  lemma RetrySecondsAreExactIff(n: int, now: Time)
    requires 0 < n <= MAX64
    ensures RetryDelay(Some(RetrySeconds(n)), now) == Some(n * SECOND) <==> n <= 9_223_372_036
  {
    if n <= 9_223_372_036 {
      WrappedIs(n * SECOND);
    } else {
      assert n * SECOND > MAX64;
      assert Wrapped(n * SECOND) <= MAX64;
    }
  }

  /** One second more is a delay into the past. */
  lemma RetryCanLieInThePast(now: Time)
    ensures var d := RetryDelay(Some(RetrySeconds(9_223_372_037)), now); d.Some? && d.value < 0
  {
  }

  function ResolveResetAt(h: ResetHeaders, now: Time, fallback: int): (r: (Time, ResetSource))
    ensures r.1 != ManualUnban
    ensures r.1 == HeaderAbsolute <==> exists i :: 0 <= i < |h.absolute| && HeaderReset(h.absolute[i], now).Some?
    ensures r.1 == HeaderAbsolute ==>
      Ahead(r.0, now) && exists i :: 0 <= i < |h.absolute| && IsFirstReset(h.absolute, now, i, Some(r.0))
    ensures r.1 == HeaderRelative ==> RetryDelay(h.retryAfter, now) == Some(r.0 - now)
    ensures r.1 in {DatePlusFallback, LocalPlusFallback} ==> RetryDelay(h.retryAfter, now).None?
    ensures r.1 == DatePlusFallback ==> h.date.Some? && r.0 == h.date.value + fallback
    ensures r.1 == LocalPlusFallback ==> h.date.None? && r.0 == now + fallback
    ensures r.0 <= now && fallback > 0 ==>
      || (h.date.Some? && h.date.value < now)
      || (h.retryAfter.Some? && h.retryAfter.value.RetrySeconds? && h.retryAfter.value.n > 9_223_372_036)
  {
    var absolute := AbsoluteResetTime(h.absolute, now);
    var delay := RetryDelay(h.retryAfter, now);
    if absolute.Some? then (absolute.value, HeaderAbsolute)
    else if delay.Some? then (now + delay.value, HeaderRelative)
    else if h.date.Some? then (h.date.value + fallback, DatePlusFallback)
    else (now + fallback, LocalPlusFallback)
  }

  /** A day when the configured hours make no window. */
  function Fallback(hours: int): (d: int)
    ensures d > 0 && (d == hours * HOUR || (hours <= 0 && d == 24 * HOUR))
  {
    if hours * HOUR <= 0 then 24 * HOUR else hours * HOUR
  }

  /** The window of a recognised failure, or nothing when the failure is not a ban. */
  function ResolveBanWindow(status: int, code: ErrorCode, h: ResetHeaders, now: Time, hours: int)
    : (r: Option<(Time, ResetSource)>)
    ensures r.Some? <==>
      || status == 401
      || (status, code) in {(429, FreeUsage), (403, PermissionDenied), (402, SpendingLimit)}
    ensures r.Some? && status != 401 ==> (r.value.1 == ManualUnban <==> code != FreeUsage)
    ensures r.Some? && status == 401 ==> r.value.1 == ManualUnban
    ensures r.Some? && r.value.1 == ManualUnban ==> r.value.0 == now + CENTURY
    ensures r.Some? && r.value.1 != ManualUnban ==> r.value == ResolveResetAt(h, now, Fallback(hours))
  {
    if status == 429 && code == FreeUsage then Some(ResolveResetAt(h, now, Fallback(hours)))
    else if status == 403 && code == PermissionDenied then Some((now + CENTURY, ManualUnban))
    else if status == 402 && code == SpendingLimit then Some((now + CENTURY, ManualUnban))
    else if status == 401 then Some((now + CENTURY, ManualUnban))
    else None
  }

  /** A usage record with its body already decoded. The two substring heuristics
      over the body arrive as their verdicts. */
  datatype UsageRecord = UsageRecord(
    provider: string,
    failed: bool,
    authId: string,
    status: int,
    code: ErrorCode,
    strongUnauthorized: bool,
    accountLevelDenied: bool,
    headers: ResetHeaders,
    traceId: string)

  function DetectBan(r: UsageRecord, hours: int, now: Time): (ban: Option<BanEntry>)
    ensures ban.Some? <==>
      && r.provider == "xai" && r.failed && !Text.Blank(r.authId)
      && match r.status
         case 401 => r.strongUnauthorized
         case 402 => r.code == SpendingLimit
         case 403 => r.code == PermissionDenied && r.accountLevelDenied
         case 429 => r.code == FreeUsage
         case _ => false
    ensures ban.Some? ==> Consistent(ban.value) && ban.value.authId == Text.Trim(r.authId) != ""
    ensures ban.Some? ==> ban.value.bannedAt == now && !ban.value.cpaSynced
    ensures ban.Some? && r.status == 401 ==> ban.value.errorCode == Unauthorized && ban.value.errorCodeDiag == r.code
    ensures ban.Some? && r.status != 401 ==> ban.value.errorCode == r.code && ban.value.errorCodeDiag == NoCode
    ensures ban.Some? && ban.value.errorCode != FreeUsage ==> ban.value.resetAt == now + CENTURY
    ensures ban.Some? && ban.value.errorCode == FreeUsage ==>
      (ban.value.resetAt, ban.value.resetSource) == ResolveResetAt(r.headers, now, Fallback(hours))
    ensures ban.Some? ==> ban.value.provider == r.provider && ban.value.traceId == r.traceId
  {
    if r.provider != "xai" || !r.failed || Text.Blank(r.authId) then None
    else if r.status == 401 && !r.strongUnauthorized then None
    else if r.status != 401 && r.code == NoCode then None
    else
      var code := if r.status == 401 then Unauthorized else r.code;
      var diag := if r.status == 401 then r.code else NoCode;
      if r.status == 403 && (code != PermissionDenied || !r.accountLevelDenied) then None
      else
        var window := ResolveBanWindow(r.status, code, r.headers, now, hours);
        if window.None? then None
        else Some(BanEntry(Text.Trim(r.authId), r.provider, code, diag, now, window.value.0, window.value.1,
                           r.traceId, false, 0, ""))
  }

  const NO_HEADERS := ResetHeaders([], None, None)

  function InspectionStatus(code: ErrorCode): int {
    match code
    case FreeUsage => 429
    case PermissionDenied => 403
    case SpendingLimit => 402
    case Unauthorized => 401
    case _ => 0
  }

  /** The window of an operator's disable: recoverable only for free usage. */
  function InspectionBanWindow(code: ErrorCode, now: Time, hours: int): (r: (Time, ResetSource))
    ensures r.1 == ManualUnban <==> code != FreeUsage
    ensures r.0 == now + if code == FreeUsage then Fallback(hours) else CENTURY
  {
    var window := if InspectionStatus(code) == 0 then None
                  else ResolveBanWindow(InspectionStatus(code), code, NO_HEADERS, now, hours);
    if window.Some? then window.value else (now + CENTURY, ManualUnban)
  }

  /** The row an inspection disable records; an absent reason means a manual disable. */
  function InspectionBan(authId: string, provider: string, code: ErrorCode, now: Time, hours: int): (e: BanEntry)
    ensures Consistent(e) && e.authId == authId && e.cpaSynced && e.bannedAt == now < e.resetAt
    ensures e.errorCode == (if code == NoCode then ManualDisabled else code) && e.errorCodeDiag == NoCode
    ensures e.provider == provider && (e.resetAt, e.resetSource) == InspectionBanWindow(e.errorCode, now, hours)
  {
    var reason := if code == NoCode then ManualDisabled else code;
    var window := InspectionBanWindow(reason, now, hours);
    BanEntry(authId, provider, reason, NoCode, now, window.0, window.1, "", true, 0, "")
  }
}
