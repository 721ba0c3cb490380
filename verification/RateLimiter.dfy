/** The rate limiter object: two sliding-window counters and a table of blocks, shared by all clients. */
module RateLimiter {
  import opened Prelude
  import opened SlidingWindow
  import opened RequestLimits

  datatype Config = Config(
    enabled: bool, requestsPerMinute: int, requestsPerHour: int, whitelist: set<string>, pathLimits: map<string, int>)

  function LimitsFor(config: Config, path: Option<string>): Limits {
    var minute := if path.Some? && path.value != "" && path.value in config.pathLimits
                  then config.pathLimits[path.value] else config.requestsPerMinute;
    Limits(minute, config.requestsPerHour)
  }

  /** The configuration names a limit for this path. */
  predicate HasOwnLimit(config: Config, path: Option<string>) {
    path.Some? && path.value != "" && path.value in config.pathLimits
  }

  ghost predicate Below(config: Config, ceiling: int) {
    config.requestsPerMinute <= ceiling && forall p | p in config.pathLimits :: config.pathLimits[p] <= ceiling
  }

  function MinuteKey(ip: string): string {
    ip + ":minute"
  }

  function HourKey(ip: string): string {
    ip + ":hour"
  }

  lemma KeysDiffer(a: string, b: string)
    requires a != b
    ensures MinuteKey(a) != MinuteKey(b) && HourKey(a) != HourKey(b)
  {
    assert MinuteKey(a)[..|MinuteKey(a)| - 7] == a && MinuteKey(b)[..|MinuteKey(b)| - 7] == b;
    assert HourKey(a)[..|HourKey(a)| - 5] == a && HourKey(b)[..|HourKey(b)| - 5] == b;
  }

  type Clients = map<string, Client>

  function ClientOf(clients: Clients, ip: string): Client {
    if ip in clients then clients[ip] else UNSEEN
  }

  function BlockOf(blockedUntil: map<string, Time>, ip: string): Option<Time> {
    if ip in blockedUntil then Some(blockedUntil[ip]) else None
  }

  /** One client's part of the three dictionaries is the client. */
  ghost predicate Holds(minutes: Lists, hours: Lists, blockedUntil: map<string, Time>, ip: string, c: Client) {
    && c.minutes == ListOf(minutes, MinuteKey(ip)) && c.hours == ListOf(hours, HourKey(ip))
    && c.blocked == BlockOf(blockedUntil, ip)
  }

  ghost predicate SameLists(but: string, a: Lists, b: Lists) {
    forall key: string | key != but :: ListOf(a, key) == ListOf(b, key)
  }

  ghost predicate SameBlocks(but: string, a: map<string, Time>, b: map<string, Time>) {
    forall ip: string | ip != but :: BlockOf(a, ip) == BlockOf(b, ip)
  }

  ghost predicate AllHeld(minutes: Lists, hours: Lists, blockedUntil: map<string, Time>, clients: Clients) {
    forall ip: string :: Holds(minutes, hours, blockedUntil, ip, ClientOf(clients, ip))
  }

  ghost predicate AllInv(clients: Clients, limits: Limits, now: Time) {
    forall ip: string :: Inv(ClientOf(clients, ip), limits, now)
  }

  lemma LaterKeepsInv(c: Client, limits: Limits, now: Time, later: Time)
    requires Inv(c, limits, now) && now <= later
    ensures Inv(c, limits, later)
  {
    UpToRises(c.overHours, now, later);
  }

  lemma OneClientKeepsInv(clients: Clients, ip: string, c: Client, limits: Limits, now: Time, later: Time)
    requires AllInv(clients, limits, now) && now <= later && Inv(c, limits, later)
    ensures AllInv(clients[ip := c], limits, later)
  {
    var next := clients[ip := c];
    forall k: string ensures Inv(ClientOf(next, k), limits, later) {
      LaterKeepsInv(ClientOf(clients, k), limits, now, later);
    }
  }

  /** Only this client's keys were touched, so the others are held as before. */
  lemma OneClientHeld(minutes: Lists, hours: Lists, blockedUntil: map<string, Time>, clients: Clients, ip: string,
                      minutes': Lists, hours': Lists, blockedUntil': map<string, Time>, c: Client)
    requires AllHeld(minutes, hours, blockedUntil, clients)
    requires Holds(minutes', hours', blockedUntil', ip, c)
    requires SameLists(MinuteKey(ip), minutes, minutes') && SameLists(HourKey(ip), hours, hours')
    requires SameBlocks(ip, blockedUntil, blockedUntil')
    ensures AllHeld(minutes', hours', blockedUntil', clients[ip := c])
  {
    var next := clients[ip := c];
    forall k: string ensures Holds(minutes', hours', blockedUntil', k, ClientOf(next, k)) {
      if k != ip {
        KeysDiffer(k, ip);
        assert Holds(minutes, hours, blockedUntil, k, ClientOf(clients, k));
      }
    }
  }

  lemma UpdatesHold(minutes: Lists, hours: Lists, blockedUntil: map<string, Time>, ip: string,
                    minutes': Lists, hours': Lists, blockedUntil': map<string, Time>, n: Client)
    requires minutes' == minutes[MinuteKey(ip) := n.minutes]
    requires (hours' == hours && n.hours == ListOf(hours, HourKey(ip))) || hours' == hours[HourKey(ip) := n.hours]
    requires ip !in blockedUntil
    requires blockedUntil' == if n.blocked.Some? then blockedUntil[ip := n.blocked.value] else blockedUntil
    ensures Holds(minutes', hours', blockedUntil', ip, n)
    ensures SameLists(MinuteKey(ip), minutes, minutes') && SameLists(HourKey(ip), hours, hours')
    ensures SameBlocks(ip, blockedUntil, blockedUntil')
  {}

  lemma MinuteDenied(c: Client, limits: Limits, r: Reads) returns (n: Client)
    requires !Blocked(c, r) && MinuteCount(c, r) > limits.minute
    ensures n == Asked(c, limits, r) && Decide(c, limits, r) == Verdict(false, RateLimitMinute, 60)
    ensures n.minutes == c.minutes + [r.minute] && n.hours == c.hours
    ensures n.blocked == Some(r.minuteBlock + MINUTE_BLOCK)
  {
    n := Asked(c, limits, r);
  }

  lemma HourDenied(c: Client, limits: Limits, r: Reads) returns (n: Client)
    requires !Blocked(c, r) && MinuteCount(c, r) <= limits.minute && HourCount(c, r) > limits.hour
    ensures n == Asked(c, limits, r) && Decide(c, limits, r) == Verdict(false, RateLimitHour, 300)
    ensures n.minutes == c.minutes + [r.minute] && n.hours == c.hours + [r.hour]
    ensures n.blocked == Some(r.hourBlock + HOUR_BLOCK)
  {
    n := Asked(c, limits, r);
  }

  lemma LetThrough(c: Client, limits: Limits, r: Reads) returns (n: Client)
    requires !Blocked(c, r) && MinuteCount(c, r) <= limits.minute && HourCount(c, r) <= limits.hour
    ensures n == Asked(c, limits, r) && Decide(c, limits, r) == Verdict(true, Nothing, 0)
    ensures n.minutes == c.minutes + [r.minute] && n.hours == c.hours + [r.hour] && n.blocked == None
  {
    n := Asked(c, limits, r);
  }

  lemma RequestKeepsInv(clients: Clients, ip: string, limits: Limits, top: Limits, now: Time, r: Reads)
    requires AllInv(clients, top, now) && Ordered(now, r) && limits.minute <= top.minute && limits.hour == top.hour
    ensures AllInv(clients[ip := Asked(ClientOf(clients, ip), limits, r)], top, r.hourBlock)
  {
    StepKeepsInv(ClientOf(clients, ip), limits, top, now, r);
    OneClientKeepsInv(clients, ip, Asked(ClientOf(clients, ip), limits, r), top, now, r.hourBlock);
  }

  lemma LimitIsBelow(config: Config, path: Option<string>, ceiling: int)
    requires Below(config, ceiling)
    ensures LimitsFor(config, path).minute <= ceiling && LimitsFor(config, path).hour == config.requestsPerHour
  {}

  /** A path with a limit of its own is judged by that limit, any other by the general one. */
  ghost predicate JudgedFor(config: Config, path: Option<string>, c: Client, n: Client, r: Reads, verdict: Verdict) {
    Judged(c, n, r, if HasOwnLimit(config, path) then config.pathLimits[path.value] else config.requestsPerMinute,
           config.requestsPerHour, verdict)
  }

  lemma JudgedByConfig(config: Config, path: Option<string>, c: Client, top: Limits, now: Time, r: Reads)
    requires Inv(c, top, now)
    ensures JudgedFor(config, path, c, Asked(c, LimitsFor(config, path), r), r, Decide(c, LimitsFor(config, path), r))
  {
    InvCovers(c, top, now);
    JudgedByRules(c, LimitsFor(config, path), r);
  }

  class RateLimiter {
    const config: Config
    const minuteCounter: SlidingWindowCounter
    const hourCounter: SlidingWindowCounter
    var blockedUntil: map<string, Time>

    /** The histories of all clients, and the largest minute limit of the configuration. */
    ghost var clients: Clients
    ghost var clock: Time
    ghost const ceiling: int

    constructor (config: Config, ghost ceiling: int)
      requires Below(config, ceiling)
      ensures Valid() && this.config == config && clients == map[] && clock == 0.0
      ensures fresh(minuteCounter) && fresh(hourCounter)
    {
      this.config, this.ceiling := config, ceiling;
      minuteCounter := new SlidingWindowCounter(60.0);
      hourCounter := new SlidingWindowCounter(3600.0);
      blockedUntil, clients, clock := map[], map[], 0.0;
    }

    ghost function Top(): Limits {
      Limits(ceiling, config.requestsPerHour)
    }

    ghost predicate Valid()
      reads this, minuteCounter, hourCounter
    {
      && minuteCounter != hourCounter && minuteCounter.Valid() && hourCounter.Valid()
      && minuteCounter.windowSize == MINUTE && hourCounter.windowSize == HOUR
      && minuteCounter.clock <= clock && hourCounter.clock <= clock
      && Below(config, ceiling)
      && AllHeld(minuteCounter.history, hourCounter.history, blockedUntil, clients)
      && AllInv(clients, Top(), clock)
    }

    /** `inRange`: the address is inside a network of the whitelist. */
    method IsAllowed(clientIp: string, path: Option<string>, inRange: bool, r: Reads) returns (verdict: Verdict)
      requires Valid() && Ordered(clock, r)
      modifies this, minuteCounter, hourCounter
      ensures Valid()
      ensures var exempt := !config.enabled || clientIp in config.whitelist || inRange;
              if exempt then
                verdict == Verdict(true, Nothing, 0) && clients == old(clients) && clock == old(clock)
              else
                var c, limits := ClientOf(old(clients), clientIp), LimitsFor(config, path);
                && verdict == Decide(c, limits, r)
                && clients == old(clients)[clientIp := Asked(c, limits, r)] && clock == r.hourBlock
      // in terms of the configuration alone
      ensures config.enabled && clientIp !in config.whitelist && !inRange ==>
                JudgedFor(config, path, ClientOf(old(clients), clientIp), ClientOf(clients, clientIp), r, verdict)
    {
      if !config.enabled { return Verdict(true, Nothing, 0); }
      if clientIp in config.whitelist || inRange { return Verdict(true, Nothing, 0); }
      JudgedByConfig(config, path, ClientOf(clients, clientIp), Top(), clock, r);
      verdict := Enforce(clientIp, path, r);
    }

    /** A request that is not exempt. */
    method Enforce(clientIp: string, path: Option<string>, r: Reads) returns (verdict: Verdict)
      requires Valid() && Ordered(clock, r)
      modifies this, minuteCounter, hourCounter
      ensures Valid()
      ensures var c, limits := ClientOf(old(clients), clientIp), LimitsFor(config, path);
              && verdict == Decide(c, limits, r)
              && clients == old(clients)[clientIp := Asked(c, limits, r)] && clock == r.hourBlock
    {
      ghost var c, n := ClientOf(clients, clientIp), UNSEEN;
      LimitIsBelow(config, path, ceiling);
      verdict, n := Check(clientIp, path, r, c);
      RequestKeepsInv(clients, clientIp, LimitsFor(config, path), Top(), clock, r);
      OneClientHeld(old(minuteCounter.history), old(hourCounter.history), old(blockedUntil), clients, clientIp,
                    minuteCounter.history, hourCounter.history, blockedUntil, n);
      clients, clock := clients[clientIp := n], r.hourBlock;
    }

    /** The locked part of `is_allowed`. */
    method Check(clientIp: string, path: Option<string>, r: Reads, ghost c: Client)
      returns (verdict: Verdict, ghost n: Client)
      requires minuteCounter != hourCounter && minuteCounter.Valid() && hourCounter.Valid()
      requires minuteCounter.windowSize == MINUTE && hourCounter.windowSize == HOUR
      requires minuteCounter.clock <= clock && hourCounter.clock <= clock && Ordered(clock, r)
      requires Holds(minuteCounter.history, hourCounter.history, blockedUntil, clientIp, c)
      modifies `blockedUntil, minuteCounter, hourCounter
      ensures minuteCounter.Valid() && hourCounter.Valid()
      ensures minuteCounter.clock <= r.hourBlock && hourCounter.clock <= r.hourBlock
      ensures verdict == Decide(c, LimitsFor(config, path), r)
      ensures n == Asked(c, LimitsFor(config, path), r)
      ensures Holds(minuteCounter.history, hourCounter.history, blockedUntil, clientIp, n)
      ensures SameLists(MinuteKey(clientIp), old(minuteCounter.history), minuteCounter.history)
      ensures SameLists(HourKey(clientIp), old(hourCounter.history), hourCounter.history)
      ensures SameBlocks(clientIp, old(blockedUntil), blockedUntil)
    {
      var blocked := StillBlocked(clientIp, r.check);
      if blocked {
        return Verdict(false, TooManyRequests, Truncate(blockedUntil[clientIp] - r.retry)), c;
      }
      ghost var unblocked := blockedUntil;
      verdict, n := CountRequest(clientIp, LimitsFor(config, path), r, c);
      UpdatesHold(old(minuteCounter.history), old(hourCounter.history), unblocked, clientIp, minuteCounter.history,
                  hourCounter.history, blockedUntil, n);
    }

    /** A block that is over is forgotten. */
    method StillBlocked(clientIp: string, check: Time) returns (blocked: bool)
      modifies `blockedUntil
      ensures blocked <==> clientIp in old(blockedUntil) && check < old(blockedUntil)[clientIp]
      ensures blocked ==> blockedUntil == old(blockedUntil)
      ensures !blocked ==> clientIp !in blockedUntil && SameBlocks(clientIp, old(blockedUntil), blockedUntil)
    {
      if clientIp in blockedUntil {
        if check < blockedUntil[clientIp] { return true; }
        blockedUntil := blockedUntil - {clientIp};
      }
      blocked := false;
    }

    /** Both counters, in turn: the client's own entries move by the rules, all others stay. */
    method CountRequest(clientIp: string, limits: Limits, r: Reads, ghost c: Client)
      returns (verdict: Verdict, ghost n: Client)
      requires minuteCounter != hourCounter && minuteCounter.Valid() && hourCounter.Valid()
      requires minuteCounter.windowSize == MINUTE && hourCounter.windowSize == HOUR
      requires minuteCounter.clock <= r.minute <= r.minuteBlock <= r.hour <= r.hourBlock && hourCounter.clock <= r.hour
      requires !Blocked(c, r) && clientIp !in blockedUntil
      requires c.minutes == ListOf(minuteCounter.history, MinuteKey(clientIp))
      requires c.hours == ListOf(hourCounter.history, HourKey(clientIp))
      modifies `blockedUntil, minuteCounter, hourCounter
      ensures minuteCounter.Valid() && hourCounter.Valid()
      ensures minuteCounter.clock <= r.hourBlock && hourCounter.clock <= r.hourBlock
      ensures verdict == Decide(c, limits, r)
      ensures n == Asked(c, limits, r)
      ensures minuteCounter.history == old(minuteCounter.history)[MinuteKey(clientIp) := n.minutes]
      ensures (hourCounter.history == old(hourCounter.history) && n.hours == c.hours)
           || hourCounter.history == old(hourCounter.history)[HourKey(clientIp) := n.hours]
      ensures blockedUntil == if n.blocked.Some? then old(blockedUntil)[clientIp := n.blocked.value]
                              else old(blockedUntil)
    {
      var minuteCount := minuteCounter.AddRequest(MinuteKey(clientIp), r.minute);
      assert minuteCount == MinuteCount(c, r);
      if minuteCount > limits.minute {
        blockedUntil := blockedUntil[clientIp := r.minuteBlock + 60.0];
        n := MinuteDenied(c, limits, r);
        return Verdict(false, RateLimitMinute, 60), n;
      }
      var hourCount := hourCounter.AddRequest(HourKey(clientIp), r.hour);
      assert hourCount == HourCount(c, r);
      if hourCount > limits.hour {
        blockedUntil := blockedUntil[clientIp := r.hourBlock + 300.0];
        n := HourDenied(c, limits, r);
        return Verdict(false, RateLimitHour, 300), n;
      }
      n := LetThrough(c, limits, r);
      verdict := Verdict(true, Nothing, 0);
    }

    /** The statistics count the full histories; asking changes no client. A block is reported until the next request
        finds it over. */
    method GetStats(clientIp: string, minute: Time, hour: Time)
      returns (minuteCount: nat, hourCount: nat, isBlocked: bool)
      requires Valid() && clock <= minute <= hour
      modifies this, minuteCounter, hourCounter
      ensures Valid() && clients == old(clients) && clock == hour
      ensures var c := ClientOf(clients, clientIp);
              && minuteCount == |Within(c.minutes, minute, MINUTE)| && hourCount == |Within(c.hours, hour, HOUR)|
              && isBlocked == c.blocked.Some?
    {
      minuteCount := minuteCounter.GetCount(MinuteKey(clientIp), minute);
      hourCount := hourCounter.GetCount(HourKey(clientIp), hour);
      isBlocked := clientIp in blockedUntil;
      assert Holds(minuteCounter.history, hourCounter.history, blockedUntil, clientIp, ClientOf(clients, clientIp));
      forall k: string ensures Inv(ClientOf(clients, k), Top(), hour) {
        LaterKeepsInv(ClientOf(clients, k), Top(), clock, hour);
      }
      clock := hour;
    }

    /** The lists actually held, for any client at any time. */
    lemma HeldListsAreBounded(clientIp: string)
      requires Valid()
      ensures |ListOf(minuteCounter.requests, MinuteKey(clientIp))| <= AtLeastZero(ceiling) + 1
      ensures |ListOf(hourCounter.requests, HourKey(clientIp))| <= AtLeastZero(config.requestsPerHour) + 12
    {
      var c := ClientOf(clients, clientIp);
      var minuteKey, hourKey := MinuteKey(clientIp), HourKey(clientIp);
      assert Holds(minuteCounter.history, hourCounter.history, blockedUntil, clientIp, c);
      MinuteListIsBounded(c, Top(), clock, ListOf(minuteCounter.requests, minuteKey),
                          StampOf(minuteCounter.pruned, minuteKey), minuteCounter.clock);
      HourListIsBounded(c, Top(), clock, ListOf(hourCounter.requests, hourKey),
                        StampOf(hourCounter.pruned, hourKey), hourCounter.clock);
    }
  }

  lemma MinuteListIsBounded(c: Client, limits: Limits, now: Time, list: seq<Time>, prunedAt: Time, clock: Time)
    requires Inv(c, limits, now) && Stands(list, c.minutes, prunedAt, MINUTE, clock)
    ensures |list| <= AtLeastZero(limits.minute) + 1
  {
    MinutesAreBounded(c, limits, now, prunedAt);
  }

  lemma HourListIsBounded(c: Client, limits: Limits, now: Time, list: seq<Time>, prunedAt: Time, clock: Time)
    requires Inv(c, limits, now) && Stands(list, c.hours, prunedAt, HOUR, clock)
    ensures |list| <= AtLeastZero(limits.hour) + 12
  {
    HoursAreBounded(c, limits, now, prunedAt);
  }
}
