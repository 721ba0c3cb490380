/**
 The rate limiter's rules for one client, on full histories: what it decides, and how much it can let through or hold.

 A call reads the clock several times; the readings never go back. `SlidingWindow` shows that pruned lists stand for
 these histories, and `RateLimiter` holds the dictionaries of all clients.
 */
module RequestLimits {
  import opened Prelude
  import opened SlidingWindow

  const MINUTE := 60.0
  const HOUR := 3600.0
  const MINUTE_BLOCK := 60.0
  const HOUR_BLOCK := 300.0

  datatype Reason = Nothing | TooManyRequests | RateLimitMinute | RateLimitHour

  datatype Verdict = Verdict(allowed: bool, reason: Reason, retryAfter: int)

  /** The readings of one call, in the order in which the source makes them; a call may skip some. */
  datatype Reads = Reads(check: Time, retry: Time, minute: Time, minuteBlock: Time, hour: Time, hourBlock: Time)

  predicate Ordered(now: Time, r: Reads) {
    now <= r.check <= r.retry <= r.minute <= r.minuteBlock <= r.hour <= r.hourBlock
  }

  /** `minutes` and `hours` are the two counters' histories. History only: when the allowed requests were recorded by
      each counter, and when the over-limit ones were by the hour counter. */
  datatype Client = Client(
    minutes: seq<Time>, hours: seq<Time>, blocked: Option<Time>,
    allowedMinutes: seq<Time>, allowedHours: seq<Time>, overHours: seq<Time>)

  const UNSEEN := Client([], [], None, [], [], [])

  datatype Limits = Limits(minute: int, hour: int)

  predicate Blocked(c: Client, r: Reads) {
    c.blocked.Some? && r.check < c.blocked.value
  }

  function MinuteCount(c: Client, r: Reads): nat {
    |Within(c.minutes + [r.minute], r.minute, MINUTE)|
  }

  function HourCount(c: Client, r: Reads): nat {
    |Within(c.hours + [r.hour], r.hour, HOUR)|
  }

  function Decide(c: Client, limits: Limits, r: Reads): Verdict {
    if Blocked(c, r) then Verdict(false, TooManyRequests, Truncate(c.blocked.value - r.retry))
    else if MinuteCount(c, r) > limits.minute then Verdict(false, RateLimitMinute, 60)
    else if HourCount(c, r) > limits.hour then Verdict(false, RateLimitHour, 300)
    else Verdict(true, Nothing, 0)
  }

  function Asked(c: Client, limits: Limits, r: Reads): Client {
    match Decide(c, limits, r).reason
    case TooManyRequests => c
    case RateLimitMinute =>
      c.(minutes := c.minutes + [r.minute], blocked := Some(r.minuteBlock + MINUTE_BLOCK))
    case RateLimitHour =>
      c.(minutes := c.minutes + [r.minute], hours := c.hours + [r.hour], blocked := Some(r.hourBlock + HOUR_BLOCK),
         overHours := c.overHours + [r.hour])
    case Nothing =>
      c.(minutes := c.minutes + [r.minute], hours := c.hours + [r.hour], blocked := None,
         allowedMinutes := c.allowedMinutes + [r.minute], allowedHours := c.allowedHours + [r.hour])
  }

  // ---------------------------------------------------------------- the invariant

  function Last(ts: seq<Time>): Time
    requires ts != []
  {
    ts[|ts| - 1]
  }

  function AtLeastZero(n: int): nat {
    if n > 0 then n else 0
  }

  /** At most `limit` stamps in the window that ends with the newest one. */
  ghost predicate NewestWindow(ts: seq<Time>, window: Time, limit: int) {
    ts != [] ==> UpTo(ts, Last(ts)) && |After(ts, Last(ts) - window)| <= AtLeastZero(limit)
  }

  /** The newest minute window holds one more than the limit only while a block outlasts it. */
  ghost predicate MinuteInv(minutes: seq<Time>, blocked: Option<Time>, limit: int) {
    && NewestWindow(minutes, MINUTE, AtLeastZero(limit) + 1)
    && (NewestWindow(minutes, MINUTE, limit) || (blocked.Some? && blocked.value >= Last(minutes) + MINUTE_BLOCK))
  }

  ghost predicate Spaced(ts: seq<Time>, gap: Time) {
    forall i | 0 < i < |ts| :: ts[i - 1] + gap <= ts[i]
  }

  /** The over-limit requests are a block apart, and the next one will be. */
  ghost predicate OverInv(overs: seq<Time>, blocked: Option<Time>, now: Time) {
    && Spaced(overs, HOUR_BLOCK) && UpTo(overs, now)
    && (overs != [] ==> Last(overs) + HOUR_BLOCK <= now || (blocked.Some? && Last(overs) + HOUR_BLOCK <= blocked.value))
  }

  /** What the hour counter holds is what was allowed and what was over the limit. */
  ghost predicate HoursSplit(hours: seq<Time>, allowed: seq<Time>, overs: seq<Time>) {
    && (forall cut: Time :: |After(hours, cut)| == |After(allowed, cut)| + |After(overs, cut)|)
    && (forall t: Time :: UpTo(hours, t) ==> UpTo(allowed, t) && UpTo(overs, t))
  }

  ghost predicate MinutesCover(minutes: seq<Time>, allowed: seq<Time>) {
    forall cut: Time :: |After(allowed, cut)| <= |After(minutes, cut)|
  }

  ghost predicate Inv(c: Client, limits: Limits, now: Time) {
    && UpTo(c.minutes, now) && UpTo(c.hours, now)
    && MinuteInv(c.minutes, c.blocked, limits.minute)
    && MinutesCover(c.minutes, c.allowedMinutes)
    && NewestWindow(c.allowedHours, HOUR, limits.hour)
    && OverInv(c.overHours, c.blocked, now)
    && HoursSplit(c.hours, c.allowedHours, c.overHours)
  }

  /** The minute window of a new request: nothing but the request itself after a minute block, else one more than the
      last one's. */
  lemma MinuteWindow(minutes: seq<Time>, blocked: Option<Time>, limit: int, t: Time)
    requires MinuteInv(minutes, blocked, limit) && UpTo(minutes, t) && (blocked.Some? ==> blocked.value <= t)
    ensures |After(minutes + [t], t - MINUTE)| <= AtLeastZero(limit) + 1
    ensures !NewestWindow(minutes, MINUTE, limit) ==> |After(minutes + [t], t - MINUTE)| == 1
  {
    AfterOneMore(minutes, t, t - MINUTE);
    if minutes == [] {
    } else if NewestWindow(minutes, MINUTE, limit) {
      LastIsUpTo(minutes, t);
      AfterShrinks(minutes, Last(minutes) - MINUTE, t - MINUTE);
    } else {
      UpToRises(minutes, Last(minutes), t - MINUTE);
      AfterAll(minutes, t - MINUTE);
    }
  }

  lemma LastIsUpTo(ts: seq<Time>, t: Time)
    requires ts != [] && UpTo(ts, t)
    ensures Last(ts) <= t
  {}

  lemma UpToRises(ts: seq<Time>, early: Time, late: Time)
    requires UpTo(ts, early) && early <= late
    ensures UpTo(ts, late)
  {}

  lemma MinuteKept(minutes: seq<Time>, before: Option<Time>, limit: int, t: Time, after: Option<Time>)
    requires MinuteInv(minutes, before, limit) && UpTo(minutes, t) && (before.Some? ==> before.value <= t)
    requires |Within(minutes + [t], t, MINUTE)| <= limit || (after.Some? && after.value >= t + MINUTE_BLOCK)
    ensures MinuteInv(minutes + [t], after, limit)
  {
    MinuteWindow(minutes, before, limit, t);
    NewestIs(minutes, t, MINUTE, AtLeastZero(limit) + 1);
    if |After(minutes + [t], t - MINUTE)| <= limit { NewestIs(minutes, t, MINUTE, limit); }
  }

  lemma CoverKept(minutes: seq<Time>, allowed: seq<Time>, t: Time)
    requires MinutesCover(minutes, allowed)
    ensures MinutesCover(minutes + [t], allowed) && MinutesCover(minutes + [t], allowed + [t])
  {
    forall cut: Time
      ensures |After(allowed, cut)| <= |After(minutes + [t], cut)|
      ensures |After(allowed + [t], cut)| <= |After(minutes + [t], cut)|
    {
      AfterOneMore(minutes, t, cut);
      AfterOneMore(allowed, t, cut);
    }
  }

  lemma AllowedMinuteCount(minutes: seq<Time>, allowed: seq<Time>, t: Time, cut: Time)
    requires MinutesCover(minutes, allowed)
    ensures |After(allowed + [t], cut)| <= |After(minutes + [t], cut)|
  {
    AfterOneMore(minutes, t, cut);
    AfterOneMore(allowed, t, cut);
  }

  lemma SplitAt(hours: seq<Time>, allowed: seq<Time>, overs: seq<Time>, t: Time)
    requires HoursSplit(hours, allowed, overs)
    ensures |After(hours, t)| == |After(allowed, t)| + |After(overs, t)|
    ensures UpTo(hours, t) ==> UpTo(allowed, t) && UpTo(overs, t)
  {}

  lemma AllowedKeepsSplit(hours: seq<Time>, allowed: seq<Time>, overs: seq<Time>, t: Time)
    requires HoursSplit(hours, allowed, overs)
    ensures HoursSplit(hours + [t], allowed + [t], overs)
  {
    forall cut: Time ensures |After(hours + [t], cut)| == |After(allowed + [t], cut)| + |After(overs, cut)| {
      AfterOneMore(hours, t, cut);
      AfterOneMore(allowed, t, cut);
      SplitAt(hours, allowed, overs, cut);
    }
    forall u: Time | UpTo(hours + [t], u) ensures UpTo(allowed + [t], u) && UpTo(overs, u) {
      UpToOneMore(hours, t, u);
      UpToOneMore(allowed, t, u);
    }
  }

  lemma OverKeepsSplit(hours: seq<Time>, allowed: seq<Time>, overs: seq<Time>, t: Time)
    requires HoursSplit(hours, allowed, overs)
    ensures HoursSplit(hours + [t], allowed, overs + [t])
  {
    forall cut: Time ensures |After(hours + [t], cut)| == |After(allowed, cut)| + |After(overs + [t], cut)| {
      AfterOneMore(hours, t, cut);
      AfterOneMore(overs, t, cut);
      SplitAt(hours, allowed, overs, cut);
    }
    forall u: Time | UpTo(hours + [t], u) ensures UpTo(allowed, u) && UpTo(overs + [t], u) {
      UpToOneMore(hours, t, u);
      UpToOneMore(overs, t, u);
    }
  }

  lemma NewestIs(ts: seq<Time>, t: Time, window: Time, limit: int)
    requires UpTo(ts, t) && |After(ts + [t], t - window)| <= AtLeastZero(limit)
    ensures NewestWindow(ts + [t], window, limit)
  {
    UpToOneMore(ts, t, t);
    assert Last(ts + [t]) == t;
  }

  lemma AllowedHourCount(hours: seq<Time>, allowed: seq<Time>, overs: seq<Time>, t: Time, cut: Time)
    requires HoursSplit(hours, allowed, overs)
    ensures |After(allowed + [t], cut)| <= |After(hours + [t], cut)|
  {
    SplitAt(hours, allowed, overs, cut);
    AfterOneMore(hours, t, cut);
    AfterOneMore(allowed, t, cut);
  }

  /** An allowed request leaves at most the limit of allowed ones in its hour. */
  lemma AllowedHourKept(hours: seq<Time>, allowed: seq<Time>, overs: seq<Time>, limit: int, t: Time)
    requires HoursSplit(hours, allowed, overs) && UpTo(hours, t) && |Within(hours + [t], t, HOUR)| <= limit
    ensures NewestWindow(allowed + [t], HOUR, limit)
    ensures |After(allowed + [t], t - HOUR)| <= limit
  {
    SplitAt(hours, allowed, overs, t);
    AllowedHourCount(hours, allowed, overs, t, t - HOUR);
    NewestIs(allowed, t, HOUR, limit);
  }

  lemma OverOutlived(overs: seq<Time>, before: Option<Time>, now: Time, t: Time, end: Time, after: Option<Time>)
    requires OverInv(overs, before, now) && now <= t <= end && (before.Some? ==> before.value <= t)
    ensures OverInv(overs, after, end)
  {
    UpToRises(overs, now, end);
  }

  lemma OverKept(overs: seq<Time>, before: Option<Time>, now: Time, t: Time, end: Time)
    requires OverInv(overs, before, now) && now <= t <= end && (before.Some? ==> before.value <= t)
    ensures OverInv(overs + [t], Some(end + HOUR_BLOCK), end)
  {
    UpToRises(overs, now, end);
    UpToOneMore(overs, t, end);
    assert Last(overs + [t]) == t;
    forall i | 0 < i < |overs + [t]| ensures (overs + [t])[i - 1] + HOUR_BLOCK <= (overs + [t])[i] {
      if i == |overs| { assert (overs + [t])[i - 1] == Last(overs); }
    }
  }

  lemma RecordedUpTo(c: Client, now: Time, r: Reads)
    requires UpTo(c.minutes, now) && UpTo(c.hours, now) && Ordered(now, r)
    ensures UpTo(c.minutes, r.minute) && UpTo(c.hours, r.hour)
    ensures UpTo(c.minutes, r.hourBlock) && UpTo(c.hours, r.hourBlock)
    ensures UpTo(c.minutes + [r.minute], r.hourBlock) && UpTo(c.hours + [r.hour], r.hourBlock)
  {
    UpToOneMore(c.minutes, r.minute, r.hourBlock);
    UpToOneMore(c.hours, r.hour, r.hourBlock);
  }

  lemma MinuteDenialKeepsInv(c: Client, limits: Limits, top: Limits, now: Time, r: Reads)
    requires Ordered(now, r) && Inv(c, top, now) && Decide(c, limits, r).reason == RateLimitMinute
    ensures Inv(Asked(c, limits, r), top, r.hourBlock)
  {
    var blocked := Some(r.minuteBlock + MINUTE_BLOCK);
    RecordedUpTo(c, now, r);
    MinuteKept(c.minutes, c.blocked, top.minute, r.minute, blocked);
    CoverKept(c.minutes, c.allowedMinutes, r.minute);
    OverOutlived(c.overHours, c.blocked, now, r.minute, r.hourBlock, blocked);
  }

  lemma HourDenialKeepsInv(c: Client, limits: Limits, top: Limits, now: Time, r: Reads)
    requires Ordered(now, r) && Inv(c, top, now) && Decide(c, limits, r).reason == RateLimitHour
    ensures Inv(Asked(c, limits, r), top, r.hourBlock)
  {
    RecordedUpTo(c, now, r);
    MinuteKept(c.minutes, c.blocked, top.minute, r.minute, Some(r.hourBlock + HOUR_BLOCK));
    CoverKept(c.minutes, c.allowedMinutes, r.minute);
    OverKeepsSplit(c.hours, c.allowedHours, c.overHours, r.hour);
    OverKept(c.overHours, c.blocked, now, r.hour, r.hourBlock);
  }

  lemma AllowanceKeepsInv(c: Client, limits: Limits, top: Limits, now: Time, r: Reads)
    requires limits.minute <= top.minute && limits.hour == top.hour
    requires Ordered(now, r) && Inv(c, top, now) && Decide(c, limits, r).allowed
    ensures Inv(Asked(c, limits, r), top, r.hourBlock)
  {
    RecordedUpTo(c, now, r);
    MinuteKept(c.minutes, c.blocked, top.minute, r.minute, None);
    CoverKept(c.minutes, c.allowedMinutes, r.minute);
    AllowedKeepsSplit(c.hours, c.allowedHours, c.overHours, r.hour);
    AllowedHourKept(c.hours, c.allowedHours, c.overHours, top.hour, r.hour);
    OverOutlived(c.overHours, c.blocked, now, r.minute, r.hourBlock, None);
  }

  lemma StepKeepsInv(c: Client, limits: Limits, top: Limits, now: Time, r: Reads)
    requires limits.minute <= top.minute && limits.hour == top.hour && Ordered(now, r) && Inv(c, top, now)
    ensures Inv(Asked(c, limits, r), top, r.hourBlock)
  {
    match Decide(c, limits, r).reason {
      case TooManyRequests =>
        RecordedUpTo(c, now, r);
        UpToRises(c.overHours, now, r.hourBlock);
      case RateLimitMinute => MinuteDenialKeepsInv(c, limits, top, now, r);
      case RateLimitHour => HourDenialKeepsInv(c, limits, top, now, r);
      case Nothing => AllowanceKeepsInv(c, limits, top, now, r);
    }
  }

  // ---------------------------------------------------------------- runs

  datatype Request = Request(minuteLimit: int, clock: Reads)

  predicate ValidRun(now: Time, requests: seq<Request>, ceiling: int)
    decreases |requests|
  {
    requests == []
    || (requests[0].minuteLimit <= ceiling && Ordered(now, requests[0].clock)
        && ValidRun(requests[0].clock.hourBlock, requests[1..], ceiling))
  }

  function Run(c: Client, hourLimit: int, requests: seq<Request>): Client
    decreases |requests|
  {
    if requests == [] then c
    else Run(Asked(c, Limits(requests[0].minuteLimit, hourLimit), requests[0].clock), hourLimit, requests[1..])
  }

  function EndOf(now: Time, requests: seq<Request>): Time
    decreases |requests|
  {
    if requests == [] then now else EndOf(requests[0].clock.hourBlock, requests[1..])
  }

  lemma {:induction false} RunKeepsInv(c: Client, limits: Limits, now: Time, requests: seq<Request>)
    requires Inv(c, limits, now) && ValidRun(now, requests, limits.minute)
    ensures Inv(Run(c, limits.hour, requests), limits, EndOf(now, requests))
    decreases |requests|
  {
    if requests != [] {
      var here := Limits(requests[0].minuteLimit, limits.hour);
      StepKeepsInv(c, here, limits, now, requests[0].clock);
      RunKeepsInv(Asked(c, here, requests[0].clock), limits, requests[0].clock.hourBlock, requests[1..]);
    }
  }

  // ---------------------------------------------------------------- what the rules guarantee

  lemma AllowedNow(c: Client, limits: Limits, r: Reads)
    requires MinutesCover(c.minutes, c.allowedMinutes) && HoursSplit(c.hours, c.allowedHours, c.overHours)
    requires MinuteCount(c, r) <= limits.minute && HourCount(c, r) <= limits.hour
    ensures |After(c.allowedMinutes + [r.minute], r.minute - MINUTE)| <= limits.minute
    ensures |After(c.allowedHours + [r.hour], r.hour - HOUR)| <= limits.hour
  {
    AllowedMinuteCount(c.minutes, c.allowedMinutes, r.minute, r.minute - MINUTE);
    AllowedHourCount(c.hours, c.allowedHours, c.overHours, r.hour, r.hour - HOUR);
  }

  lemma InvCovers(c: Client, top: Limits, now: Time)
    requires Inv(c, top, now)
    ensures MinutesCover(c.minutes, c.allowedMinutes) && HoursSplit(c.hours, c.allowedHours, c.overHours)
  {}

  /** After any run, an allowed request is one of at most `limits.minute` allowed in the minute that ends with it, and
      of at most `limits.hour` in the hour, whatever limits the earlier requests had. */
  lemma AllowedWithinLimits(requests: seq<Request>, ceiling: int, c: Client, limits: Limits, r: Reads)
    requires ValidRun(0.0, requests, ceiling) && c == Run(UNSEEN, limits.hour, requests)
    requires Decide(c, limits, r).allowed
    ensures Asked(c, limits, r).allowedMinutes == c.allowedMinutes + [r.minute]
    ensures Asked(c, limits, r).allowedHours == c.allowedHours + [r.hour]
    ensures |After(c.allowedMinutes + [r.minute], r.minute - MINUTE)| <= limits.minute
    ensures |After(c.allowedHours + [r.hour], r.hour - HOUR)| <= limits.hour
  {
    RunKeepsInv(UNSEEN, Limits(ceiling, limits.hour), 0.0, requests);
    InvCovers(c, Limits(ceiling, limits.hour), EndOf(0.0, requests));
    AllowedNow(c, limits, r);
  }

  // ---------------------------------------------------------------- what one request is told

  /** Let through: not blocked, fewer than `minute` requests in the last sixty seconds and fewer than `hour` in the last
      3600. */
  predicate LetsThrough(c: Client, r: Reads, minute: int, hour: int) {
    && (c.blocked.Some? ==> c.blocked.value <= r.check)
    && |After(c.minutes, r.minute - 60.0)| < minute && |After(c.hours, r.hour - 3600.0)| < hour
  }

  /** Recorded as allowed, one of at most so many in the minute and in the hour that end with it. */
  predicate CountsAsAllowed(c: Client, n: Client, r: Reads, minute: int, hour: int) {
    && n.blocked == None
    && n.allowedMinutes == c.allowedMinutes + [r.minute] && n.allowedHours == c.allowedHours + [r.hour]
    && |After(n.allowedMinutes, r.minute - 60.0)| <= minute && |After(n.allowedHours, r.hour - 3600.0)| <= hour
  }

  /** Told to wait for the block it is under; or blocked for sixty seconds, or for three hundred, from now on. */
  predicate TurnedAway(c: Client, n: Client, r: Reads, minute: int, verdict: Verdict) {
    && n.allowedMinutes == c.allowedMinutes && n.allowedHours == c.allowedHours
    && if c.blocked.Some? && r.check < c.blocked.value then
         verdict == Verdict(false, TooManyRequests, Truncate(c.blocked.value - r.retry)) && n == c
       else if |After(c.minutes, r.minute - 60.0)| >= minute then
         verdict == Verdict(false, RateLimitMinute, 60) && n.blocked == Some(r.minuteBlock + 60.0)
         && n.minutes == c.minutes + [r.minute] && n.hours == c.hours
       else
         verdict == Verdict(false, RateLimitHour, 300) && n.blocked == Some(r.hourBlock + 300.0)
         && n.minutes == c.minutes + [r.minute] && n.hours == c.hours + [r.hour]
  }

  predicate Judged(c: Client, n: Client, r: Reads, minute: int, hour: int, verdict: Verdict) {
    if LetsThrough(c, r, minute, hour) then verdict == Verdict(true, Nothing, 0) && CountsAsAllowed(c, n, r, minute, hour)
    else TurnedAway(c, n, r, minute, verdict)
  }

  lemma CountsWithThis(c: Client, r: Reads)
    ensures MinuteCount(c, r) == |After(c.minutes, r.minute - 60.0)| + 1
    ensures HourCount(c, r) == |After(c.hours, r.hour - 3600.0)| + 1
  {
    AfterOneMore(c.minutes, r.minute, r.minute - 60.0);
    AfterOneMore(c.hours, r.hour, r.hour - 3600.0);
  }

  lemma AllowedExactlyWhen(c: Client, limits: Limits, r: Reads)
    ensures Decide(c, limits, r).allowed <==> LetsThrough(c, r, limits.minute, limits.hour)
    ensures Decide(c, limits, r).allowed ==> Decide(c, limits, r) == Verdict(true, Nothing, 0)
  {
    CountsWithThis(c, r);
  }

  lemma AllowedCounts(c: Client, limits: Limits, r: Reads)
    requires MinutesCover(c.minutes, c.allowedMinutes) && HoursSplit(c.hours, c.allowedHours, c.overHours)
    requires Decide(c, limits, r).allowed
    ensures CountsAsAllowed(c, Asked(c, limits, r), r, limits.minute, limits.hour)
  {
    AllowedNow(c, limits, r);
  }

  lemma DeniedIsTurnedAway(c: Client, limits: Limits, r: Reads)
    requires !Decide(c, limits, r).allowed
    ensures TurnedAway(c, Asked(c, limits, r), r, limits.minute, Decide(c, limits, r))
  {
    CountsWithThis(c, r);
  }

  /** What the rules come to for one request: whether it is let through, what it is told, and how it is blocked. */
  lemma JudgedByRules(c: Client, limits: Limits, r: Reads)
    requires MinutesCover(c.minutes, c.allowedMinutes) && HoursSplit(c.hours, c.allowedHours, c.overHours)
    ensures Judged(c, Asked(c, limits, r), r, limits.minute, limits.hour, Decide(c, limits, r))
  {
    AllowedExactlyWhen(c, limits, r);
    if Decide(c, limits, r).allowed { AllowedCounts(c, limits, r); } else { DeniedIsTurnedAway(c, limits, r); }
  }

  /** Stamps a block apart: k of them later than `cut` reach at least k - 1 blocks further. */
  lemma {:induction false} SpacedReach(ts: seq<Time>, cut: Time)
    requires Spaced(ts, HOUR_BLOCK)
    ensures ts != [] ==> UpTo(ts, Last(ts))
    ensures After(ts, cut) != [] ==> Last(ts) > cut + (|After(ts, cut)| - 1) as real * HOUR_BLOCK
  {
    if |ts| > 1 {
      var front := ts[..|ts| - 1];
      SpacedReach(front, cut);
      assert Last(front) + HOUR_BLOCK <= Last(ts);
      if Last(ts) <= cut {
        UpToRises(front, Last(front), cut);
        AfterAll(front, cut);
      }
    }
  }

  /** Over-limit requests are a block apart: twelve fit in an hour. */
  lemma TwelveOversAnHour(overs: seq<Time>, t: Time)
    requires Spaced(overs, HOUR_BLOCK) && UpTo(overs, t)
    ensures |After(overs, t - HOUR)| <= 12
  {
    SpacedReach(overs, t - HOUR);
    var kept := |After(overs, t - HOUR)|;
    if kept > 0 { LastIsUpTo(overs, t); }
    assert kept > 12 ==> (kept - 1) as real >= 12.0;
  }

  lemma NewestIsFullest(ts: seq<Time>, window: Time, limit: int, t: Time)
    requires NewestWindow(ts, window, limit) && UpTo(ts, t)
    ensures |After(ts, t - window)| <= AtLeastZero(limit)
  {
    if ts != [] {
      LastIsUpTo(ts, t);
      FewerLater(ts, Last(ts), t, window);
    }
  }

  lemma FewerLater(ts: seq<Time>, early: Time, late: Time, window: Time)
    requires early <= late
    ensures |After(ts, late - window)| <= |After(ts, early - window)|
  {
    AfterShrinks(ts, early - window, late - window);
  }

  lemma MinutesAreBounded(c: Client, limits: Limits, now: Time, t: Time)
    requires Inv(c, limits, now) && UpTo(c.minutes, t)
    ensures |After(c.minutes, t - MINUTE)| <= AtLeastZero(limits.minute) + 1
  {
    NewestIsFullest(c.minutes, MINUTE, AtLeastZero(limits.minute) + 1, t);
  }

  lemma HoursAreBounded(c: Client, limits: Limits, now: Time, t: Time)
    requires Inv(c, limits, now) && UpTo(c.hours, t)
    ensures |After(c.hours, t - HOUR)| <= AtLeastZero(limits.hour) + 12
  {
    SplitAt(c.hours, c.allowedHours, c.overHours, t);
    SplitAt(c.hours, c.allowedHours, c.overHours, t - HOUR);
    NewestIsFullest(c.allowedHours, HOUR, limits.hour, t);
    TwelveOversAnHour(c.overHours, t);
  }

  /** After any run, whenever the lists are looked at or pruned, neither can outgrow its limit by much. */
  lemma ListsAreBounded(requests: seq<Request>, limits: Limits, t: Time)
    requires ValidRun(0.0, requests, limits.minute) && EndOf(0.0, requests) <= t
    ensures var c := Run(UNSEEN, limits.hour, requests);
            && |After(c.minutes, t - MINUTE)| <= AtLeastZero(limits.minute) + 1
            && |After(c.hours, t - HOUR)| <= AtLeastZero(limits.hour) + 12
  {
    var c, end := Run(UNSEEN, limits.hour, requests), EndOf(0.0, requests);
    RunKeepsInv(UNSEEN, limits, 0.0, requests);
    UpToRises(c.minutes, end, t);
    UpToRises(c.hours, end, t);
    MinutesAreBounded(c, limits, end, t);
    HoursAreBounded(c, limits, end, t);
  }

  lemma AloneAfterBlock(minutes: seq<Time>, over: Time, t: Time)
    requires UpTo(minutes, over) && over + MINUTE <= t
    ensures |Within((minutes + [over]) + [t], t, MINUTE)| == 1
  {
    UpToRises(minutes, over, t - MINUTE);
    UpToOneMore(minutes, over, t - MINUTE);
    AfterAll(minutes + [over], t - MINUTE);
    AfterOneMore(minutes + [over], t, t - MINUTE);
  }

  lemma DeniedByMinute(c: Client, limits: Limits, over: Reads, r: Reads)
    requires Decide(c, limits, over).reason == RateLimitMinute && Ordered(over.check, over) && Ordered(over.hourBlock, r)
    requires !Blocked(Asked(c, limits, over), r)
    ensures Asked(c, limits, over).minutes == c.minutes + [over.minute] && over.minute + MINUTE <= r.minute
  {}

  lemma OneAloneIsLetThrough(c: Client, limits: Limits, r: Reads)
    requires MinuteCount(c, r) == 1 && limits.minute >= 1
    ensures Decide(c, limits, r).reason != RateLimitMinute
  {}

  /** Once a minute block is over, the next request passes the minute check on any path that lets one through. */
  lemma MinuteBlockEndsClean(requests: seq<Request>, ceiling: int, c: Client, limits: Limits, over: Reads,
                             n: Client, r: Reads, next: Limits)
    requires ValidRun(0.0, requests, ceiling) && c == Run(UNSEEN, limits.hour, requests)
    requires Ordered(EndOf(0.0, requests), over) && Decide(c, limits, over).reason == RateLimitMinute
    requires n == Asked(c, limits, over) && Ordered(over.hourBlock, r) && !Blocked(n, r)
    ensures MinuteCount(n, r) == 1
    ensures next.minute >= 1 ==> Decide(n, next, r).reason != RateLimitMinute
  {
    RunKeepsInv(UNSEEN, Limits(ceiling, limits.hour), 0.0, requests);
    UpToRises(c.minutes, EndOf(0.0, requests), over.minute);
    DeniedByMinute(c, limits, over, r);
    AloneAfterBlock(c.minutes, over.minute, r.minute);
    if next.minute >= 1 { OneAloneIsLetThrough(n, next, r); }
  }

  /** A client that is not blocked and has been quiet for an hour is let through by any positive limits. */
  lemma QuietHourIsForgiven(c: Client, limits: Limits, r: Reads)
    requires !Blocked(c, r) && Ordered(r.check, r)
    requires UpTo(c.minutes, r.check - HOUR) && UpTo(c.hours, r.check - HOUR)
    ensures Decide(c, limits, r).allowed <==> limits.minute >= 1 && limits.hour >= 1
  {
    UpToRises(c.minutes, r.check - HOUR, r.minute - MINUTE);
    UpToRises(c.hours, r.check - HOUR, r.hour - HOUR);
    AfterAll(c.minutes, r.minute - MINUTE);
    AfterOneMore(c.minutes, r.minute, r.minute - MINUTE);
    AfterAll(c.hours, r.hour - HOUR);
    AfterOneMore(c.hours, r.hour, r.hour - HOUR);
  }

  /** The advised wait is a number of seconds to wait exactly when the second reading of the clock is less than a
      second late; it is cut down to whole seconds, so the block can outlast it by less than one. */
  lemma RetryAfterIsAdvice(c: Client, limits: Limits, r: Reads)
    requires Blocked(c, r) && Ordered(r.check, r)
    ensures var wait := Decide(c, limits, r).retryAfter;
            && (wait >= 0 <==> r.retry < c.blocked.value + 1.0)
            && (wait >= 0 ==> r.retry + wait as real < c.blocked.value + 1.0)
            && c.blocked.value < r.retry + wait as real + 1.0
  {}

  /** It can be negative: a minute limit of zero blocks a client at once, until 60; a request that reads the clock at 59
      and then at 61.5 is advised to wait for minus one second. */
  lemma AdviceCanBeNegative()
    ensures var limits, first, second := Limits(0, 1000), Reads(0.0, 0.0, 0.0, 0.0, 0.0, 0.0),
                                         Reads(59.0, 61.5, 61.5, 61.5, 61.5, 61.5);
            && Ordered(0.0, first) && Ordered(first.hourBlock, second)
            && Decide(UNSEEN, limits, first) == Verdict(false, RateLimitMinute, 60)
            && Decide(Asked(UNSEEN, limits, first), limits, second) == Verdict(false, TooManyRequests, -1)
  {
    AfterOneMore([], 0.0, -60.0);
    assert [] + [0.0] == [0.0];
    assert Truncate(60.0 - 61.5) == -1;
  }
}
