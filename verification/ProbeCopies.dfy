/**
 What still passes a verifier that knows of a revocation: copies signed for probing share the token's jti and may expire
 after it, and the deny list forgets the jti when the token expires.
 */
module ProbeCopies {
  import opened Prelude
  import opened OAuthTables
  import opened OAuthEndpoints
  import TokenFamilies
  import opened RevocationDelivery
  import Feed = RevocationFeed

  // ---------------------------------------------------------------- what the verifier lets pass

  /** The verifier accepts what was signed here, has not expired, and is not on its deny list. */
  predicate Passes(x: Deployment, jwt: Jwt) {
    jwt in x.world.jwts && x.world.clock <= jwt.exp as real && jwt.jti !in x.feed.deny
  }

  /** Of everything signed under the jti of a revoked token only a probe copy ever passes the verifier after that poll,
      and only once the token itself has expired, when the deny list forgets it: for at most the life of a copy. */
  lemma {:induction false} OnlyLateCopiesPass(cfg: Config, clock: Time, before: seq<Event>, j: Id, between: seq<Event>,
                                              id: nat, later: seq<Event>, jwt: Jwt)
    requires clock >= 0.0 && ValidEvents(Start(cfg, clock), before) && jwt.jti == j
    requires var m := RunEvents(Start(cfg, clock), before);
             && j in m.world.tokens && m.world.tokens[j].revoked.Some? && m.world.tokens[j].kind != Refresh
             && ValidEvents(m, between)
             && var n := RunEvents(m, between);
             && Happens(n, Poll(Feed.Apply(id))) && m.world.clock < n.feed.polls[id].query
             && ValidEvents(Next(n, Poll(Feed.Apply(id))), later)
             && Passes(RunEvents(Next(n, Poll(Feed.Apply(id))), later), jwt)
    ensures var m := RunEvents(Start(cfg, clock), before);
            var z := RunEvents(Next(RunEvents(m, between), Poll(Feed.Apply(id))), later);
            && m.world.tokens[j].expires as real < z.world.clock <= jwt.exp as real
            && jwt.exp <= m.world.tokens[j].expires + PROBE_SECONDS
  {
    var m := RunEvents(Start(cfg, clock), before);
    var n := RunEvents(m, between);
    RevocationReachesVerifier(cfg, clock, before, j, between, id, later);
    StartInv(cfg, clock);
    EventsKeepInv(Start(cfg, clock), before);
    RevokedIsVisible(m, j);
    EventsKeepInv(m, between);
    EventsStayKnown(m, between, j);
    EventKeepsInv(n, Poll(Feed.Apply(id)));
    EventStaysKnown(n, Poll(Feed.Apply(id)), j);
    CopyIsShort(Next(n, Poll(Feed.Apply(id))), later, j, jwt);
  }

  lemma {:induction false} CopyIsShort(o: Deployment, later: seq<Event>, j: Id, jwt: Jwt)
    requires Inv(o) && Feed.Visible(o.feed, j) && ValidEvents(o, later)
    requires jwt in RunEvents(o, later).world.jwts && jwt.jti == j
    ensures jwt.exp <= o.feed.rows[j].expires + PROBE_SECONDS
  {
    var z := RunEvents(o, later);
    EventsKeepInv(o, later);
    EventsStayKnown(o, later, j);
    assert TokenFamilies.JwtAgrees(jwt, z.world.facts[j].token);
  }

  // ---------------------------------------------------------------- which copies may pass

  lemma TwoEvents(x: Deployment, a: Event, b: Event)
    requires Happens(x, a) && Happens(Next(x, a), b)
    ensures ValidEvents(x, [a, b]) && RunEvents(x, [a, b]) == Next(Next(x, a), b)
  {
    var m := Next(x, a);
    assert [a, b][1..] == [b] && [b][1..] == [];
    assert ValidEvents(Next(m, b), []) && RunEvents(Next(m, b), []) == Next(m, b);
    assert RunEvents(m, [b]) == RunEvents(Next(m, b), []);
  }

  lemma FourEvents(x: Deployment, a: Event, b: Event, c: Event, d: Event)
    requires Happens(x, a) && Happens(Next(x, a), b) && Happens(Next(Next(x, a), b), c)
    requires Happens(Next(Next(Next(x, a), b), c), d)
    ensures ValidEvents(x, [a, b, c, d]) && RunEvents(x, [a, b, c, d]) == Next(Next(Next(Next(x, a), b), c), d)
  {
    var m := Next(x, a);
    var n := Next(m, b);
    TwoEvents(n, c, d);
    assert [a, b, c, d][1..] == [b, c, d] && [b, c, d][1..] == [c, d];
    assert ValidEvents(m, [b, c, d]) && RunEvents(m, [b, c, d]) == RunEvents(n, [c, d]);
  }

  /** A poll that nothing interrupts. */
  function PollOf(unused: nat): seq<Event> {
    [Poll(Feed.Send(unused)), Poll(Feed.ReadClock(unused)), Poll(Feed.Query(unused)), Poll(Feed.Apply(unused))]
  }

  /** The same but for this poll. */
  ghost predicate Polling(x: Deployment, y: Deployment, id: nat, poll: Feed.Poll) {
    y.world == x.world && y.feed == x.feed.(polls := x.feed.polls[id := poll])
  }

  lemma PollSent(x: Deployment, id: nat)
    requires id !in x.feed.polls
    ensures Happens(x, PollOf(id)[0]) && Polling(x, Next(x, PollOf(id)[0]), id, Feed.Sent(x.feed.lastPoll))
  {
  }

  lemma PollRead(x: Deployment, y: Deployment, id: nat)
    requires Polling(x, y, id, Feed.Sent(x.feed.lastPoll))
    ensures Happens(y, PollOf(id)[1])
    ensures Polling(x, Next(y, PollOf(id)[1]), id, Feed.Reading(x.feed.lastPoll, x.feed.clock.Floor))
  {
    assert y.feed.polls[id := Feed.Reading(x.feed.lastPoll, x.feed.clock.Floor)]
        == x.feed.polls[id := Feed.Reading(x.feed.lastPoll, x.feed.clock.Floor)];
  }

  function AnswerNow(x: Deployment): Feed.DenyList {
    Feed.Answer(RowsOf(x.world.tokens), x.feed.lastPoll, x.feed.clock)
  }

  function Answered(x: Deployment): Feed.Poll {
    Feed.Answered(x.feed.lastPoll, x.feed.clock.Floor, x.feed.clock, AnswerNow(x))
  }

  lemma PollAnswered(x: Deployment, y: Deployment, id: nat)
    requires Polling(x, y, id, Feed.Reading(x.feed.lastPoll, x.feed.clock.Floor))
    ensures Happens(y, PollOf(id)[2]) && Polling(x, Next(y, PollOf(id)[2]), id, Answered(x))
  {
    assert y.feed.polls[id := Answered(x)] == x.feed.polls[id := Answered(x)];
  }

  lemma PollApplied(x: Deployment, y: Deployment, id: nat)
    requires Polling(x, y, id, Answered(x))
    ensures Happens(y, PollOf(id)[3])
    ensures var n := Next(y, PollOf(id)[3]);
            n.world == x.world && n.feed.deny == Feed.Purged(x.feed.deny + AnswerNow(x), x.feed.clock.Floor)
  {
  }

  lemma ForgottenBy(x: Deployment, j: Id)
    requires Inv(x) && Feed.Visible(x.feed, j) && x.feed.rows[j].expires + 1 <= x.feed.clock.Floor
    ensures j !in Feed.Purged(x.feed.deny + AnswerNow(x), x.feed.clock.Floor)
  {
    QueriedAlike(x, x.feed.lastPoll, j);
    assert Reported(x.feed.rows, x.feed.lastPoll, x.feed.clock, j) == None;
    assert j !in AnswerNow(x);
  }

  lemma PollForgets(x: Deployment, j: Id, unused: nat)
    requires Inv(x) && Feed.Visible(x.feed, j) && unused !in x.feed.polls
    requires x.feed.rows[j].expires + 1 <= x.feed.clock.Floor
    ensures ValidEvents(x, PollOf(unused))
    ensures var n := RunEvents(x, PollOf(unused)); n.world == x.world && j !in n.feed.deny
  {
    var es := PollOf(unused);
    PollSent(x, unused);
    var a := Next(x, es[0]);
    PollRead(x, a, unused);
    var b := Next(a, es[1]);
    PollAnswered(x, b, unused);
    PollApplied(x, Next(b, es[2]), unused);
    ForgottenBy(x, j);
    FourEvents(x, es[0], es[1], es[2], es[3]);
  }

  ghost predicate PassesAfter(x: Deployment, es: seq<Event>, jwt: Jwt) {
    ValidEvents(x, es) && Passes(RunEvents(x, es), jwt)
  }

  lemma WaitedUntil(x: Deployment, to: Time, j: Id)
    requires Inv(x) && Feed.Visible(x.feed, j) && x.world.clock <= to
    ensures var y := Next(x, Wait(to));
            && Inv(y) && Feed.Visible(y.feed, j) && y.feed.rows == x.feed.rows && y.feed.polls == x.feed.polls
            && y.feed.clock == y.world.clock == to && y.world.jwts == x.world.jwts
  {
    EventKeepsInv(x, Wait(to));
  }

  lemma {:induction false} EventThen(x: Deployment, e: Event, es: seq<Event>)
    requires Happens(x, e) && ValidEvents(Next(x, e), es)
    ensures ValidEvents(x, [e] + es) && RunEvents(x, [e] + es) == RunEvents(Next(x, e), es)
  {
    assert ([e] + es)[1..] == es;
  }

  lemma {:induction false} LatePoll(x: Deployment, j: Id, jwt: Jwt, unused: nat, to: Time) returns (es: seq<Event>)
    requires Inv(x) && Feed.Visible(x.feed, j) && unused !in x.feed.polls
    requires jwt in x.world.jwts && jwt.jti == j && x.world.clock <= to <= jwt.exp as real
    requires x.feed.rows[j].expires + 1 <= to.Floor
    ensures PassesAfter(x, es, jwt)
  {
    WaitedUntil(x, to, j);
    PollForgets(Next(x, Wait(to)), j, unused);
    EventThen(x, Wait(to), PollOf(unused));
    es := [Wait(to)] + PollOf(unused);
  }

  /** Which of the tokens signed under a revoked jti may pass the verifier at some time, although it knows of the
      revocation: exactly those that expire later than the recorded token does. */
  lemma LateCopyPassesIff(x: Deployment, j: Id, jwt: Jwt, unused: nat)
    requires Inv(x) && Feed.Visible(x.feed, j) && Feed.Covered(x.feed, j) && unused !in x.feed.polls
    requires jwt in x.world.jwts && jwt.jti == j && x.world.clock <= jwt.exp as real
    ensures (exists es :: PassesAfter(x, es, jwt)) <==> x.feed.rows[j].expires < jwt.exp
  {
    if x.feed.rows[j].expires < jwt.exp {
      var es := LatePoll(x, j, jwt, unused, jwt.exp as real);
      assert PassesAfter(x, es, jwt);
    } else {
      forall es ensures !PassesAfter(x, es, jwt) {
        if ValidEvents(x, es) { KnownIsDenied(x, j, es); }
      }
    }
  }
}
