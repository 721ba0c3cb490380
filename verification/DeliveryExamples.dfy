/** A revoked token whose probe copy still passes the verifier, as a concrete run. */
module DeliveryExamples {
  import opened Prelude
  import opened ScopeRegistry
  import opened ScopeTexts
  import opened OAuthTables
  import opened OAuthEndpoints
  import opened GrantRuns
  import opened FamilySafety
  import opened RevocationDelivery
  import opened ProbeCopies
  import Feed = RevocationFeed

  const CFG := Config(3600, 2592000, 60, 365)
  const DIR := Directory(map[], map["mcp" := Service(None, map[])])

  const MINT := MintPersonal(0.0, DIR, "user", "console", "mcp", None, 1, "pat")
  const PROBE := MintProbe(86399.0, "pat", "mcp")
  const REVOKE := AdminRevokeToken(86399.5, "pat")

  const PAT := Token(Pat, Some("console"), "user", Some("mcp"), {}, None, 86400, None)
  const REVOKED := PAT.(revoked := Some(Revocation(86399.5, AdminRevoke)))
  const COPY := Jwt("pat", Some("console"), AccessUse, "user", Some("mcp"), {}, 86519)

  const SEND := Poll(Feed.Send(0))
  const READ := Poll(Feed.ReadClock(0))
  const ASK := Poll(Feed.Query(0))
  const TAKE := Poll(Feed.Apply(0))

  function Serving(c: Call): Event { Serve(Action(c, 9)) }

  lemma OneCommit(w: World, c: Call, commit: Commit)
    requires PlanOf(Arrive(w, c), c).commits == [commit]
    ensures Step(w, Action(c, 9)) == Apply(Arrive(w, c), commit)
  {
    ApplyOne(Arrive(w, c), commit);
  }

  lemma NothingGranted()
    ensures ResolveScope(DIR, None, None, Some(Service(None, map[]))) == Ok({}) && Carried({}) == {}
  {
    var granted := ResolveScope(DIR, None, None, Some(Service(None, map[])));
    DefaultsGranted(DIR, None, None, Some(Service(None, map[])));
    assert granted.value == {};
    WordsCarryThemselves({});
  }

  // ---------------------------------------------------------------- the requests

  lemma Minted(w: World)
    requires w == Empty(CFG, 0.0)
    ensures Enabled(w, Action(MINT, 9)) && Step(w, Action(MINT, 9)).tokens == map["pat" := PAT]
    ensures Step(w, Action(MINT, 9)).clock == 0.0
  {
    NothingGranted();
    assert PlanOf(Arrive(w, MINT), MINT).commits == [PutToken("pat", PAT)];
    OneCommit(w, MINT, PutToken("pat", PAT));
  }

  lemma Probed(w: World)
    requires w.tokens == map["pat" := PAT] && w.clock == 0.0
    ensures Enabled(w, Action(PROBE, 9)) && Step(w, Action(PROBE, 9)).tokens == map["pat" := PAT]
    ensures Step(w, Action(PROBE, 9)).clock == 86399.0 && COPY in Step(w, Action(PROBE, 9)).jwts
  {
    assert PlanOf(Arrive(w, PROBE), PROBE).commits == [SignOnly(COPY)];
    OneCommit(w, PROBE, SignOnly(COPY));
  }

  lemma RevokedThen(w: World)
    requires w.tokens == map["pat" := PAT] && w.clock == 86399.0
    ensures Enabled(w, Action(REVOKE, 9)) && Step(w, Action(REVOKE, 9)).tokens == map["pat" := REVOKED]
    ensures Step(w, Action(REVOKE, 9)).clock == 86399.5 && Step(w, Action(REVOKE, 9)).jwts == w.jwts
  {
    var revoke := Revoke("pat", Revocation(86399.5, AdminRevoke));
    assert PlanOf(Arrive(w, REVOKE), REVOKE).commits == [revoke];
    OneCommit(w, REVOKE, revoke);
  }

  // ---------------------------------------------------------------- the verifier

  ghost predicate Unpolled(feed: Feed.System) {
    feed.deny == map[] && feed.lastPoll == None && feed.polls == map[]
  }

  /** The verifier has not polled; the tables hold this one token. */
  ghost predicate Quiet(x: Deployment, clock: Time, row: Token) {
    && Unpolled(x.feed) && x.world.clock == clock && x.world.tokens == map["pat" := row]
  }

  lemma MintedFirst(x: Deployment)
    requires x == Start(CFG, 0.0)
    ensures Happens(x, Serving(MINT)) && Quiet(Next(x, Serving(MINT)), 0.0, PAT)
  {
    Minted(x.world);
  }

  lemma ProbedNext(x: Deployment)
    requires Quiet(x, 0.0, PAT)
    ensures Happens(x, Serving(PROBE)) && Quiet(Next(x, Serving(PROBE)), 86399.0, PAT)
    ensures COPY in Next(x, Serving(PROBE)).world.jwts
  {
    Probed(x.world);
  }

  lemma RevokedNext(x: Deployment)
    requires Quiet(x, 86399.0, PAT)
    ensures Happens(x, Serving(REVOKE)) && Quiet(Next(x, Serving(REVOKE)), 86399.5, REVOKED)
    ensures Next(x, Serving(REVOKE)).world.jwts == x.world.jwts
  {
    RevokedThen(x.world);
  }

  ghost predicate Late(x: Deployment) {
    Quiet(x, 86401.0, REVOKED) && x.feed.clock == 86401.0 && COPY in x.world.jwts
  }

  lemma WaitedNext(x: Deployment)
    requires Quiet(x, 86399.5, REVOKED) && COPY in x.world.jwts
    ensures Happens(x, Wait(86401.0)) && Late(Next(x, Wait(86401.0)))
  {
  }

  lemma RequestsRun(x: Deployment)
    requires x == Start(CFG, 0.0)
    ensures var es := [Serving(MINT), Serving(PROBE), Serving(REVOKE), Wait(86401.0)];
            ValidEvents(x, es) && Late(RunEvents(x, es))
  {
    MintedFirst(x);
    var x1 := Next(x, Serving(MINT));
    ProbedNext(x1);
    var x2 := Next(x1, Serving(PROBE));
    RevokedNext(x2);
    WaitedNext(Next(x2, Serving(REVOKE)));
    FourEvents(x, Serving(MINT), Serving(PROBE), Serving(REVOKE), Wait(86401.0));
  }

  ghost predicate Asking(x: Deployment, poll: Feed.Poll) {
    && x.feed.deny == map[] && x.feed.lastPoll == None && x.feed.polls == map[0 := poll]
    && x.world.clock == x.feed.clock == 86401.0
    && x.world.tokens == map["pat" := REVOKED] && COPY in x.world.jwts
  }

  lemma Sent(x: Deployment)
    requires Late(x)
    ensures Happens(x, SEND) && Asking(Next(x, SEND), Feed.Sent(None))
  {
  }

  lemma ClockRead(x: Deployment)
    requires Asking(x, Feed.Sent(None))
    ensures Happens(x, READ) && Asking(Next(x, READ), Feed.Reading(None, 86401))
  {
  }

  /** The query finds the token expired and does not list it. */
  lemma Asked(x: Deployment)
    requires Asking(x, Feed.Reading(None, 86401))
    ensures Happens(x, ASK) && Asking(Next(x, ASK), Feed.Answered(None, 86401, 86401.0, map[]))
  {
    assert Feed.Answer(RowsOf(x.world.tokens), None, 86401.0) == map[];
  }

  lemma Taken(x: Deployment)
    requires Asking(x, Feed.Answered(None, 86401, 86401.0, map[]))
    ensures Happens(x, TAKE) && Next(x, TAKE).feed.deny == map[] && Next(x, TAKE).world == x.world
  {
  }

  lemma PollRuns(x: Deployment)
    requires Late(x)
    ensures ValidEvents(x, [SEND, READ, ASK, TAKE])
    ensures RunEvents(x, [SEND, READ, ASK, TAKE]).feed.deny == map[]
    ensures RunEvents(x, [SEND, READ, ASK, TAKE]).world.jwts == x.world.jwts
    ensures RunEvents(x, [SEND, READ, ASK, TAKE]).world.tokens == x.world.tokens
    ensures RunEvents(x, [SEND, READ, ASK, TAKE]).world.clock == 86401.0
  {
    Sent(x);
    var a := Next(x, SEND);
    ClockRead(a);
    var b := Next(a, READ);
    Asked(b);
    var c := Next(b, ASK);
    Taken(c);
    FourEvents(x, SEND, READ, ASK, TAKE);
  }

  /** A personal token expires at 86400. A second before that a probe copy of it is signed, half a second later it is
      revoked, and at 86401 the verifier polls. The token, being expired, is not on its deny list, and the copy passes. */
  lemma CopyOfRevokedPasses() returns (x: Deployment)
    ensures x == Start(CFG, 0.0)
    ensures var requests := [Serving(MINT), Serving(PROBE), Serving(REVOKE), Wait(86401.0)];
            && ValidEvents(x, requests) && ValidEvents(RunEvents(x, requests), [SEND, READ, ASK, TAKE])
            && var n := RunEvents(RunEvents(x, requests), [SEND, READ, ASK, TAKE]);
            && "pat" in n.world.tokens && n.world.tokens["pat"].revoked.Some? && COPY.jti == "pat" && Passes(n, COPY)
  {
    x := Start(CFG, 0.0);
    RequestsRun(x);
    PollRuns(RunEvents(x, [Serving(MINT), Serving(PROBE), Serving(REVOKE), Wait(86401.0)]));
  }
}
