/**
 The revocation feed over the grant tables: requests change the tables, a verifier polls them, and what any request
 revoked is on the verifier's deny list after its next poll, until it expires.
 */
module RevocationDelivery {
  import opened Prelude
  import opened OAuthTables
  import opened OAuthEndpoints
  import opened TokenFamilies
  import opened GrantRuns
  import opened FamilySafety
  import Feed = RevocationFeed

  // ---------------------------------------------------------------- the tables as the feed sees them

  function KindOf(kind: Kind): Feed.Kind {
    match kind case Access => Feed.Access case Refresh => Feed.Refresh case Pat => Feed.Pat
  }

  function RowOf(t: Token): Feed.Row {
    Feed.Row(KindOf(t.kind), t.expires, if t.revoked.None? then None else Some(t.revoked.value.at))
  }

  function RowsOf(tokens: Tokens): Feed.Rows {
    map k | k in tokens :: RowOf(tokens[k])
  }

  /** The rows as they are, or were when last on record. */
  function Remembered(rows: Feed.Rows, w: World): Feed.Rows {
    map k | k in w.facts ::
      if k in w.tokens then RowOf(w.tokens[k])
      else if k in rows then rows[k]
      else RowOf(w.facts[k].token.(revoked := None))
  }

  predicate RevokedIn(rows: Feed.Rows, id: Id) {
    id in rows && rows[id].revokedAt.Some?
  }

  /** When each revocation became visible; those that are new, now. */
  function FirstSeen(feed: Feed.System, rows: Feed.Rows, clock: Time): map<Id, Time> {
    map k | k in rows && RevokedIn(rows, k) :: if RevokedIn(feed.rows, k) && k in feed.seen then feed.seen[k] else clock
  }

  // ---------------------------------------------------------------- requests and polls

  /** The server's tables, and the verifier with its polls. `feed.rows` also remembers deleted rows. */
  datatype Deployment = Deployment(world: World, feed: Feed.System)

  datatype Event = Serve(action: Action) | Wait(to: Time) | Poll(step: Feed.Step)

  predicate OfVerifier(e: Feed.Step) {
    e.Send? || e.ReadClock? || e.Query? || e.Apply? || e.Lose?
  }

  ghost predicate Happens(x: Deployment, e: Event) {
    match e
    case Serve(action) => Enabled(x.world, action)
    case Wait(to) => x.world.clock <= to
    case Poll(step) => OfVerifier(step) && Feed.Enabled(x.feed, step)
  }

  function Follow(feed: Feed.System, w: World): Feed.System {
    var rows := Remembered(feed.rows, w);
    feed.(clock := w.clock, rows := rows, seen := FirstSeen(feed, rows, w.clock))
  }

  /** The query reads the token table as it is at that moment. */
  function Queried(x: Deployment, id: nat): Feed.System
    requires Feed.Enabled(x.feed, Feed.Query(id))
  {
    var p := x.feed.polls[id];
    var answer := Feed.Answer(RowsOf(x.world.tokens), p.since, x.feed.clock);
    x.feed.(polls := x.feed.polls[id := Feed.Answered(p.since, p.now, x.feed.clock, answer)])
  }

  ghost function Next(x: Deployment, e: Event): Deployment
    requires Happens(x, e)
  {
    match e
    case Serve(action) => Deployment(Step(x.world, action), Follow(x.feed, Step(x.world, action)))
    case Wait(to) => Deployment(x.world.(clock := to), x.feed.(clock := to))
    case Poll(step) => x.(feed := if step.Query? then Queried(x, step.id) else Feed.Next(x.feed, step))
  }

  function Start(cfg: Config, clock: Time): Deployment {
    Deployment(Empty(cfg, clock), Feed.Start(clock))
  }

  ghost predicate ValidEvents(x: Deployment, es: seq<Event>)
    decreases |es|
  {
    es == [] || (Happens(x, es[0]) && ValidEvents(Next(x, es[0]), es[1..]))
  }

  ghost function RunEvents(x: Deployment, es: seq<Event>): Deployment
    requires ValidEvents(x, es)
    decreases |es|
  {
    if es == [] then x else RunEvents(Next(x, es[0]), es[1..])
  }

  // ---------------------------------------------------------------- revocations are stamped with the clock

  predicate StampsAt(c: Commit, now: Time) {
    c.Revoke? || c.RevokeFamily? || c.RevokeByClient? ==> c.revocation.at == now
  }

  lemma PlanStampsNow(w: World, c: Call)
    ensures forall k | 0 <= k < |PlanOf(w, c).commits| :: StampsAt(PlanOf(w, c).commits[k], c.now)
  {
    var cs := PlanOf(w, c).commits;
    assert |cs| <= 3;
    assert |cs| > 0 ==> StampsAt(cs[0], c.now);
    assert |cs| > 1 ==> StampsAt(cs[1], c.now);
    assert |cs| > 2 ==> StampsAt(cs[2], c.now);
  }

  /** Whatever is revoked was so before, or was stamped now. */
  ghost predicate StampedBetween(old': Tokens, new': Tokens, now: Time) {
    forall k | k in new' && new'[k].revoked.Some? ::
      (k in old' && old'[k].revoked == new'[k].revoked) || new'[k].revoked.value.at == now
  }

  lemma BulkStamps(tokens: Tokens, id: Id, c: ClientId, r: Revocation)
    ensures StampedBetween(tokens, RevokedChain(tokens, id, r), r.at)
    ensures StampedBetween(tokens, RevokedOfClient(tokens, c, r), r.at)
  {
  }

  predicate WritesTokens(c: Commit) {
    c.PutToken? || c.Revoke? || c.RevokeFamily? || c.RevokeByClient? || c.DropTokens? || c.DropClient?
  }

  lemma OthersKeepTokens(w: World, c: Commit)
    requires !WritesTokens(c)
    ensures Apply(w, c).tokens == w.tokens
  {
  }

  lemma DropsStamp(tokens: Tokens, c: ClientId, before: Time, now: Time)
    ensures StampedBetween(tokens, Orphaned(tokens, c), now) && StampedBetween(tokens, TokensFrom(tokens, before), now)
  {
  }

  lemma OneStamps(tokens: Tokens, id: Id, t: Token, r: Revocation, now: Time)
    ensures t.revoked.None? ==> StampedBetween(tokens, tokens[id := t], now)
    ensures id in tokens ==> StampedBetween(tokens, tokens[id := Stamped(tokens[id], r)], r.at)
  {
  }

  lemma CommitStamps(w: World, c: Commit, now: Time)
    requires Guard(w, c) && StampsAt(c, now)
    ensures StampedBetween(w.tokens, Apply(w, c).tokens, now)
  {
    if !WritesTokens(c) {
      OthersKeepTokens(w, c);
    } else {
      match c {
        case PutToken(id, t) => OneStamps(w.tokens, id, t, Revocation(now, Rotated), now);
        case Revoke(id, r) => if id in w.tokens { OneStamps(w.tokens, id, w.tokens[id], r, now); }
        case RevokeFamily(id, r) => BulkStamps(w.tokens, id, "", r);
        case RevokeByClient(id, r) => BulkStamps(w.tokens, "", id, r);
        case DropTokens(before) => DropsStamp(w.tokens, "", before, now);
        case DropClient(id) => DropsStamp(w.tokens, id, 0.0, now);
      }
    }
  }

  lemma CommitKeepsClock(w: World, c: Commit)
    ensures Apply(w, c).clock == w.clock
  {
  }

  lemma {:induction false} CommitsStamp(w: World, cs: seq<Commit>, done: seq<Commit>, now: Time)
    requires GuardedAll(w, cs) && done <= cs && forall k | 0 <= k < |done| :: StampsAt(done[k], now)
    ensures StampedBetween(w.tokens, ApplyAll(w, done).tokens, now) && ApplyAll(w, done).clock == w.clock
    decreases |cs|
  {
    if done != [] {
      CommitStamps(w, done[0], now);
      CommitKeepsClock(w, done[0]);
      CommitsStamp(Apply(w, cs[0]), cs[1..], done[1..], now);
    }
  }

  lemma StepStamps(w: World, a: Action)
    requires TokenFamilies.Inv(w) && Enabled(w, a)
    ensures StampedBetween(w.tokens, Step(w, a).tokens, a.call.now) && Step(w, a).clock == a.call.now
  {
    var w1 := Arrive(w, a.call);
    ArrivingKeepsInv(w, a.call);
    PlanIsGuarded(w1, a.call);
    PlanStampsNow(w1, a.call);
    CommitsStamp(w1, PlanOf(w1, a.call).commits, Performed(w, a), a.call.now);
  }

  // ---------------------------------------------------------------- the feed's invariant

  /** The feed's rows are the tables': as they are, or as they were issued if they have been deleted. */
  ghost predicate Follows(s: Feed.System, w: World) {
    && s.clock == w.clock && s.stamped == map[] && s.rows.Keys == w.facts.Keys
    && (forall k | k in w.facts ::
          s.rows[k].kind == KindOf(w.facts[k].token.kind) && s.rows[k].expires == w.facts[k].token.expires)
    && (forall k | k in w.tokens && k in s.rows :: s.rows[k] == RowOf(w.tokens[k]))
  }

  ghost predicate Inv(x: Deployment) {
    TokenFamilies.Inv(x.world) && Feed.Inv(x.feed) && Follows(x.feed, x.world)
  }

  /** A row was revoked in neither, in both alike, or only now. */
  predicate RowMoves(s: Feed.System, n: Feed.System, j: Id) {
    && (j in s.rows ==>
          && j in n.rows && n.rows[j].kind == s.rows[j].kind && n.rows[j].expires == s.rows[j].expires
          && (s.rows[j].revokedAt.Some? ==>
                && n.rows[j].revokedAt == s.rows[j].revokedAt
                && (j in s.seen ==> j in n.seen && n.seen[j] == s.seen[j])))
    && (j in n.rows && n.rows[j].revokedAt.Some? && (j in s.rows ==> s.rows[j].revokedAt.None?) ==>
          n.rows[j].revokedAt.value == n.clock && j in n.seen && n.seen[j] == n.clock)
  }

  ghost predicate TablesMove(s: Feed.System, n: Feed.System) {
    && s.clock <= n.clock && n.deny == s.deny && n.lastPoll == s.lastPoll && n.polls == s.polls
    && n.horizon == s.horizon && n.stamped == s.stamped
    && (forall j :: RowMoves(s, n, j))
  }

  lemma MovingKeepsPoll(s: Feed.System, n: Feed.System, p: Feed.Poll)
    requires Feed.TablesInv(s) && TablesMove(s, n) && Feed.PollInv(s, p)
    ensures Feed.PollInv(n, p)
  {
    forall j | Feed.Visible(n, j)
      ensures || (Feed.Visible(s, j) && n.seen[j] == s.seen[j] && n.rows[j] == s.rows[j])
              || n.rows[j].revokedAt.value == n.seen[j] == n.clock
    {
      assert RowMoves(s, n, j);
    }
    forall j | Feed.Visible(s, j) ensures Feed.Visible(n, j) && n.rows[j] == s.rows[j] { assert RowMoves(s, n, j); }
  }

  lemma MovingKeepsInv(s: Feed.System, n: Feed.System)
    requires Feed.Inv(s) && TablesMove(s, n)
    ensures Feed.Inv(n)
  {
    MovingKeepsPoll(s, n, Feed.Sent(s.lastPoll));
    forall id | id in n.polls ensures Feed.PollInv(n, n.polls[id]) { MovingKeepsPoll(s, n, s.polls[id]); }
    forall j | j in n.deny ensures Feed.Visible(n, j) && n.deny[j] == n.rows[j].expires { assert RowMoves(s, n, j); }
    forall j | j in n.rows && n.rows[j].revokedAt.Some?
      ensures j in n.seen && Feed.Timely(n.rows[j], n.seen[j], n.clock)
    {
      assert RowMoves(s, n, j);
    }
  }

  lemma FollowFollows(s: Feed.System, w: World, n: World)
    requires Follows(s, w) && FactsGrow(w.facts, n.facts) && RowsInv(n.tokens, n.facts)
    ensures Follows(Follow(s, n), n)
  {
    var rows := Remembered(s.rows, n);
    forall k | k in n.facts
      ensures rows[k].kind == KindOf(n.facts[k].token.kind) && rows[k].expires == n.facts[k].token.expires
    {
      if k in n.tokens { assert SameIssue(n.tokens[k], n.facts[k].token); }
    }
  }

  lemma FollowMoves(s: Feed.System, w: World, n: World, j: Id)
    requires Follows(s, w) && Follows(Follow(s, n), n) && FactsGrow(w.facts, n.facts)
    requires IdsInv(w.codes, w.tokens, w.families, w.facts) && RowsEvolve(w.facts, w.tokens, n.tokens)
    requires StampedBetween(w.tokens, n.tokens, n.clock)
    requires j in s.rows && s.rows[j].revokedAt.Some? ==> j in s.seen
    ensures RowMoves(s, Follow(s, n), j)
  {
    if j in w.facts && j in n.tokens { assert Retired(n.tokens[j], w.tokens[j]); }
  }

  lemma ServingMovesTables(x: Deployment, a: Action)
    requires Inv(x) && Enabled(x.world, a)
    ensures TablesMove(x.feed, Follow(x.feed, Step(x.world, a)))
    ensures TokenFamilies.Inv(Step(x.world, a)) && Follows(Follow(x.feed, Step(x.world, a)), Step(x.world, a))
  {
    var w, n := x.world, Step(x.world, a);
    StepKeepsInv(w, a);
    StepEvolves(w, a);
    StepStamps(w, a);
    FollowFollows(x.feed, w, n);
    forall j ensures RowMoves(x.feed, Follow(x.feed, n), j) { FollowMoves(x.feed, w, n, j); }
  }

  /** What a query says of one jti. */
  function Reported(rows: Feed.Rows, since: Option<int>, now: Time, j: Id): Option<int> {
    if j in rows && Feed.Listed(rows[j], since, now) then Some(rows[j].expires) else None
  }

  lemma SameAnswer(a: Feed.Rows, b: Feed.Rows, since: Option<int>, now: Time)
    requires forall j :: Reported(a, since, now, j) == Reported(b, since, now, j)
    ensures Feed.Answer(a, since, now) == Feed.Answer(b, since, now)
  {
    var m, n := Feed.Answer(a, since, now), Feed.Answer(b, since, now);
    forall j ensures (j in m <==> j in n) && (j in m ==> m[j] == n[j]) {
      assert Reported(a, since, now, j) == Reported(b, since, now, j);
    }
  }

  lemma QueriedAlike(x: Deployment, since: Option<int>, j: Id)
    requires Follows(x.feed, x.world) && GoneInv(x.world.tokens, x.world.facts, x.world.clock)
    requires x.world.tokens.Keys <= x.world.facts.Keys
    ensures Reported(RowsOf(x.world.tokens), since, x.feed.clock, j) == Reported(x.feed.rows, since, x.feed.clock, j)
  {
    if j in x.world.tokens {
      assert RowsOf(x.world.tokens)[j] == x.feed.rows[j];
    } else if j in x.world.facts {
      assert x.world.facts[j].token.expires as real + TOKEN_GRACE < x.world.clock;
    }
  }

  /** Rows that were deleted had expired long before: the query misses nothing. */
  lemma QueriedIsAnswered(x: Deployment, id: nat)
    requires Inv(x) && Feed.Enabled(x.feed, Feed.Query(id))
    ensures Queried(x, id) == Feed.Next(x.feed, Feed.Query(id))
  {
    var since, now := x.feed.polls[id].since, x.feed.clock;
    forall j ensures Reported(RowsOf(x.world.tokens), since, now, j) == Reported(x.feed.rows, since, now, j) {
      QueriedAlike(x, since, j);
    }
    SameAnswer(RowsOf(x.world.tokens), x.feed.rows, since, now);
  }

  lemma PollKeepsInv(x: Deployment, e: Feed.Step)
    requires Inv(x) && OfVerifier(e) && Feed.Enabled(x.feed, e)
    ensures Inv(Next(x, Poll(e)))
  {
    match e {
      case Query(id) =>
        QueriedIsAnswered(x, id);
        Feed.QueryKeepsInv(x.feed, id);
      case Apply(id) => Feed.ApplyKeepsInv(x.feed, id);
      case _ => Feed.QuietKeepsInv(x.feed, e);
    }
  }

  lemma EventKeepsInv(x: Deployment, e: Event)
    requires Inv(x) && Happens(x, e)
    ensures Inv(Next(x, e))
  {
    match e {
      case Serve(a) =>
        ServingMovesTables(x, a);
        MovingKeepsInv(x.feed, Follow(x.feed, Step(x.world, a)));
      case Wait(to) => Feed.QuietKeepsInv(x.feed, Feed.Tick(to));
      case Poll(step) => PollKeepsInv(x, step);
    }
  }

  lemma {:induction false} EventsKeepInv(x: Deployment, es: seq<Event>)
    requires Inv(x) && ValidEvents(x, es)
    ensures Inv(RunEvents(x, es))
    decreases |es|
  {
    if es != [] {
      EventKeepsInv(x, es[0]);
      EventsKeepInv(Next(x, es[0]), es[1..]);
    }
  }

  lemma StartInv(cfg: Config, clock: Time)
    requires clock >= 0.0
    ensures Inv(Start(cfg, clock))
  {
    EmptyInv(cfg, clock);
  }

  // ---------------------------------------------------------------- what was revoked stays known

  /** Visible since, and known to the verifier if it was. */
  ghost predicate StaysKnown(x: Deployment, n: Deployment, j: Id) {
    && x.world.clock <= n.world.clock
    && (Feed.Visible(x.feed, j) ==>
          && Feed.Visible(n.feed, j) && n.feed.seen[j] == x.feed.seen[j]
          && n.feed.rows[j].expires == x.feed.rows[j].expires
          && (Feed.Covered(x.feed, j) ==> Feed.Covered(n.feed, j)))
  }

  lemma ServingStaysKnown(x: Deployment, a: Action, j: Id)
    requires Inv(x) && Enabled(x.world, a)
    ensures StaysKnown(x, Next(x, Serve(a)), j)
  {
    ServingMovesTables(x, a);
    assert RowMoves(x.feed, Follow(x.feed, Step(x.world, a)), j);
    StepStamps(x.world, a);
  }

  lemma PollStaysKnown(x: Deployment, e: Feed.Step, j: Id)
    requires Inv(x) && OfVerifier(e) && Feed.Enabled(x.feed, e)
    ensures StaysKnown(x, Next(x, Poll(e)), j)
  {
    if e.Apply? && Feed.Visible(x.feed, j) { Feed.ApplyCovers(x.feed, e.id, j); }
  }

  lemma EventStaysKnown(x: Deployment, e: Event, j: Id)
    requires Inv(x) && Happens(x, e)
    ensures StaysKnown(x, Next(x, e), j)
  {
    match e {
      case Serve(a) => ServingStaysKnown(x, a, j);
      case Wait(_) =>
      case Poll(step) => PollStaysKnown(x, step, j);
    }
  }

  lemma {:induction false} EventsStayKnown(x: Deployment, es: seq<Event>, j: Id)
    requires Inv(x) && ValidEvents(x, es)
    ensures StaysKnown(x, RunEvents(x, es), j)
    decreases |es|
  {
    if es != [] {
      EventKeepsInv(x, es[0]);
      EventStaysKnown(x, es[0], j);
      EventsStayKnown(Next(x, es[0]), es[1..], j);
    }
  }

  // ---------------------------------------------------------------- from the request to the verifier

  lemma RevokedIsVisible(x: Deployment, j: Id)
    requires Inv(x) && j in x.world.tokens && x.world.tokens[j].revoked.Some? && x.world.tokens[j].kind != Refresh
    ensures Feed.Visible(x.feed, j) && x.feed.seen[j] <= x.world.clock
    ensures x.feed.rows[j].expires == x.world.tokens[j].expires
  {
    assert x.feed.rows[j] == RowOf(x.world.tokens[j]);
    assert Feed.Timely(x.feed.rows[j], x.feed.seen[j], x.feed.clock);
  }

  /** After any run of requests and polls some access token or PAT is on record as revoked, by whatever request. After
      any further events a poll is applied whose query ran later than that. From then on, whatever happens, the verifier
      has the token on its deny list as long as it has not expired. */
  lemma {:induction false} RevocationReachesVerifier(cfg: Config, clock: Time, before: seq<Event>, j: Id,
                                                     between: seq<Event>, id: nat, later: seq<Event>)
    requires clock >= 0.0 && ValidEvents(Start(cfg, clock), before)
    requires var m := RunEvents(Start(cfg, clock), before);
             && j in m.world.tokens && m.world.tokens[j].revoked.Some? && m.world.tokens[j].kind != Refresh
             && ValidEvents(m, between)
             && var n := RunEvents(m, between);
             && Happens(n, Poll(Feed.Apply(id))) && m.world.clock < n.feed.polls[id].query
             && ValidEvents(Next(n, Poll(Feed.Apply(id))), later)
    ensures var m := RunEvents(Start(cfg, clock), before);
            var z := RunEvents(Next(RunEvents(m, between), Poll(Feed.Apply(id))), later);
            z.world.clock <= m.world.tokens[j].expires as real ==> j in z.feed.deny
  {
    var m := RunEvents(Start(cfg, clock), before);
    StartInv(cfg, clock);
    EventsKeepInv(Start(cfg, clock), before);
    RevokedIsVisible(m, j);
    DeliveredBy(m, j, between, id, later);
  }

  lemma {:induction false} DeliveredBy(m: Deployment, j: Id, between: seq<Event>, id: nat, later: seq<Event>)
    requires Inv(m) && Feed.Visible(m.feed, j) && m.feed.seen[j] <= m.world.clock && ValidEvents(m, between)
    requires var n := RunEvents(m, between);
             && Happens(n, Poll(Feed.Apply(id))) && m.world.clock < n.feed.polls[id].query
             && ValidEvents(Next(n, Poll(Feed.Apply(id))), later)
    ensures var z := RunEvents(Next(RunEvents(m, between), Poll(Feed.Apply(id))), later);
            z.world.clock <= m.feed.rows[j].expires as real ==> j in z.feed.deny
  {
    var n := RunEvents(m, between);
    EventsKeepInv(m, between);
    EventsStayKnown(m, between, j);
    AppliedIsKnown(n, j, id);
    KnownIsDenied(Next(n, Poll(Feed.Apply(id))), j, later);
  }

  lemma AppliedIsKnown(n: Deployment, j: Id, id: nat)
    requires Inv(n) && Feed.Visible(n.feed, j) && Happens(n, Poll(Feed.Apply(id)))
    requires n.feed.seen[j] < n.feed.polls[id].query
    ensures var o := Next(n, Poll(Feed.Apply(id)));
            && Inv(o) && Feed.Visible(o.feed, j) && Feed.Covered(o.feed, j)
            && o.feed.rows[j].expires == n.feed.rows[j].expires
  {
    Feed.ApplyCovers(n.feed, id, j);
    EventKeepsInv(n, Poll(Feed.Apply(id)));
    EventStaysKnown(n, Poll(Feed.Apply(id)), j);
  }

  lemma {:induction false} KnownIsDenied(o: Deployment, j: Id, later: seq<Event>)
    requires Inv(o) && Feed.Visible(o.feed, j) && Feed.Covered(o.feed, j) && ValidEvents(o, later)
    ensures var z := RunEvents(o, later); z.world.clock <= o.feed.rows[j].expires as real ==> j in z.feed.deny
  {
    EventsKeepInv(o, later);
    EventsStayKnown(o, later, j);
  }

  /** And only what a request revoked is denied: the token was issued, expires when the verifier thinks it does, and its
      row, while it is on record, says revoked. */
  lemma {:induction false} DeniedWasRevoked(cfg: Config, clock: Time, es: seq<Event>, j: Id)
    requires clock >= 0.0 && ValidEvents(Start(cfg, clock), es) && j in RunEvents(Start(cfg, clock), es).feed.deny
    ensures var x := RunEvents(Start(cfg, clock), es);
            && j in x.world.facts && x.world.facts[j].token.kind != Refresh
            && x.feed.deny[j] == x.world.facts[j].token.expires
            && (j in x.world.tokens ==> x.world.tokens[j].revoked.Some?)
  {
    StartInv(cfg, clock);
    EventsKeepInv(Start(cfg, clock), es);
    var x := RunEvents(Start(cfg, clock), es);
    assert Feed.Visible(x.feed, j);
  }
}
