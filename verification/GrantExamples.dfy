/**
 Where the grants fall short of what is promised, as concrete runs from an empty server: a client is registered, a
 signed-in user authorizes it, the code is redeemed - and then the code, or a rotated refresh token, is presented
 again; or the client is revoked and approved in between; or the server's default scope holds a tab.
 */
module GrantExamples {
  import opened Prelude
  import opened Text
  import opened ScopeRegistry
  import opened ScopeTexts
  import opened OAuthTables
  import opened OAuthEndpoints
  import opened TokenFamilies
  import opened GrantRuns
  import opened FamilySafety
  import opened GrantFlows

  const CFG := Config(3600, 2592000, 60, 365)
  const APP := Client(true, true, {"https://app/cb"}, {AuthorizationCode, RefreshToken}, None, false, None, Manual,
                      true, true)
  const APP_ITSELF := Caller("app", true)

  // ---------------------------------------------------------------- a grant for server mcp

  /** What is asked for server mcp, the words it is granted, and what the bound carries. */
  datatype Scene = Scene(dir: Directory, asked: Option<string>, words: set<Scope>, ceiling: set<Scope>)

  ghost predicate Plays(x: Scene) {
    && "mcp" in x.dir.services
    && var service := Some(x.dir.services["mcp"]);
    && ResolveScope(x.dir, x.asked, None, service).Ok?
    && x.words == Carried(ResolveScope(x.dir, x.asked, None, service).value)
    && x.ceiling == Carried(Ceiling(x.dir, None, service))
  }

  const REGISTER := Action(Register(0.0, "app", APP), 9)
  const REDEEM := Action(RedeemCode(2.0, APP_ITSELF, "code", "https://app/cb", "", None, "access", "refresh"), 9)

  function Authorizing(x: Scene): Action {
    Action(Authorize(1.0, x.dir, AuthorizeParams("app", "https://app/cb", true, None, true, x.asked, Some("mcp")),
                     Some("user"), "request", "code"), 9)
  }

  function Issuing(x: Scene): seq<Action> {
    [REGISTER, Authorizing(x), REDEEM]
  }

  function TheCode(x: Scene): Code { Code("app", "user", "https://app/cb", x.words, Some("mcp"), None, 61.0, None) }
  function TheFamily(x: Scene): Family { Family("app", "user", Some("mcp"), x.words, x.words, x.ceiling) }
  function TheRequest(x: Scene): AuthRequest {
    AuthRequest("app", "https://app/cb", x.words, Some("mcp"), None, 601.0, None)
  }

  const W0 := Empty(CFG, 0.0)
  const W1 := W0.(clients := map["app" := APP])

  function W2(x: Scene): World {
    W1.(clock := 1.0,
        requests := map["request" := TheRequest(x).(decidedAt := Some(1.0))], ceilings := map["request" := x.ceiling],
        codes := map["code" := TheCode(x)], families := map["code" := TheFamily(x)])
  }

  lemma WholeStep(w: World, a: Action)
    requires |PlanOf(Arrive(w, a.call), a.call).commits| <= a.cut
    ensures Step(w, a) == ApplyAll(Arrive(w, a.call), PlanOf(Arrive(w, a.call), a.call).commits)
  {
  }

  lemma Registered()
    ensures Enabled(W0, REGISTER) && Step(W0, REGISTER) == W1
  {
    ApplyOne(Arrive(W0, REGISTER.call), PutClient("app", APP));
  }

  lemma TheAuthorizePlan(x: Scene)
    requires Plays(x)
    ensures var a := Authorizing(x).call;
            PlanOf(Arrive(W1, a), a)
            == Plan([PutRequest("request", TheRequest(x), x.ceiling),
                     PutCode("code", TheCode(x), x.words, x.ceiling), DecideRequest("request", 1.0)],
                    Redirect(Some("code")))
  {
  }

  lemma Authorized(x: Scene)
    requires Plays(x)
    ensures Enabled(W1, Authorizing(x)) && Step(W1, Authorizing(x)) == W2(x)
  {
    var w := Arrive(W1, Authorizing(x).call);
    TheAuthorizePlan(x);
    ApplyThree(w, PutRequest("request", TheRequest(x), x.ceiling), PutCode("code", TheCode(x), x.words, x.ceiling),
               DecideRequest("request", 1.0));
  }

  function TheAccess(x: Scene): Token {
    Token(Access, Some("app"), "user", Some("mcp"), x.words, Some("code"), 3602, None)
  }

  function TheRefresh(x: Scene): Token {
    Token(Refresh, Some("app"), "user", Some("mcp"), x.words, Some("code"), 2592002, None)
  }

  /** The code used and its tokens issued. */
  function Redeemed(x: Scene, w: World): World {
    w.(codes := map["code" := TheCode(x).(usedAt := Some(2.0))],
       tokens := map["access" := TheAccess(x), "refresh" := TheRefresh(x)],
       facts := map["access" := Fact(TheAccess(x), 0), "refresh" := Fact(TheRefresh(x), 1)],
       jwts := {JwtOf("access", TheAccess(x)), JwtOf("refresh", TheRefresh(x))})
  }

  function W3(x: Scene): World {
    Redeemed(x, W2(x).(clock := 2.0))
  }

  /** The code is there to be redeemed by its client, and nothing has been issued yet. */
  ghost predicate Ripe(x: Scene, w: World) {
    && w.cfg == CFG && w.clients == map["app" := APP] && w.codes == map["code" := TheCode(x)]
    && w.families == map["code" := TheFamily(x)] && w.tokens == map[] && w.facts == map[] && w.jwts == {}
  }

  lemma RedeemPlanned(x: Scene, w: World)
    requires Ripe(x, w)
    ensures PlanOf(w, REDEEM.call)
         == Plan([UseCode("code", 2.0), PutToken("access", TheAccess(x)), PutToken("refresh", TheRefresh(x))],
                 Tokens("access", Some("refresh"), x.words))
  {
  }

  lemma RedeemIsEnabled(x: Scene, w: World)
    requires Ripe(x, w) && w.clock <= 2.0
    ensures Enabled(w, REDEEM)
  {
  }

  lemma TwoTokens(w: World, a: Token, r: Token)
    requires w.tokens == map[] && w.facts == map[] && w.jwts == {}
    ensures Apply(Apply(w, PutToken("access", a)), PutToken("refresh", r))
         == w.(tokens := map["access" := a, "refresh" := r],
               facts := map["access" := Fact(a, 0), "refresh" := Fact(r, 1)],
               jwts := {JwtOf("access", a), JwtOf("refresh", r)})
  {
  }

  lemma RedeemApplies(x: Scene, w: World)
    requires Ripe(x, w)
    ensures ApplyAll(w, [UseCode("code", 2.0), PutToken("access", TheAccess(x)), PutToken("refresh", TheRefresh(x))])
         == Redeemed(x, w)
  {
    var n := w.(codes := map["code" := TheCode(x).(usedAt := Some(2.0))]);
    assert Apply(w, UseCode("code", 2.0)) == n;
    ApplyThree(w, UseCode("code", 2.0), PutToken("access", TheAccess(x)), PutToken("refresh", TheRefresh(x)));
    TwoTokens(n, TheAccess(x), TheRefresh(x));
  }

  lemma Redeeming(x: Scene, w: World)
    requires Ripe(x, w)
    ensures Step(w, REDEEM) == Redeemed(x, w.(clock := 2.0))
  {
    var w1 := Arrive(w, REDEEM.call);
    RedeemPlanned(x, w1);
    RedeemApplies(x, w1);
    WholeStep(w, REDEEM);
  }

  lemma AuthorizedRuns(x: Scene)
    requires Plays(x)
    ensures ValidRun(W0, [REGISTER, Authorizing(x)]) && Run(W0, [REGISTER, Authorizing(x)]) == W2(x)
  {
    Registered();
    Authorized(x);
    RunAppend(W0, [], REGISTER);
    RunAppend(W0, [REGISTER], Authorizing(x));
    assert [] + [REGISTER] == [REGISTER] && [REGISTER] + [Authorizing(x)] == [REGISTER, Authorizing(x)];
  }

  lemma IssuedRuns(x: Scene)
    requires Plays(x)
    ensures ValidRun(W0, Issuing(x)) && Run(W0, Issuing(x)) == W3(x)
  {
    AuthorizedRuns(x);
    RedeemIsEnabled(x, W2(x));
    Redeeming(x, W2(x));
    RunAppend(W0, [REGISTER, Authorizing(x)], REDEEM);
    assert [REGISTER, Authorizing(x)] + [REDEEM] == Issuing(x);
  }

  lemma IssuedInv(x: Scene)
    requires Plays(x)
    ensures ValidRun(W0, Issuing(x)) && Run(W0, Issuing(x)) == W3(x) && Inv(W3(x))
  {
    IssuedRuns(x);
    EmptyInv(CFG, 0.0);
    RunKeepsInv(W0, Issuing(x));
  }

  /** Scope read, asked for and granted. */
  const READING := Scene(Directory(map["read" := true], map["mcp" := OPEN]), Some("read"), {"read"},
                         {"read"})
  const ISSUED := Issuing(READING)

  const OPEN := Service(None, map[])

  lemma OneIsTheBound(dir: Directory, name: Scope)
    requires dir.globals.Keys == {name}
    ensures Ceiling(dir, None, Some(OPEN)) == {name}
  {
    var bound := Ceiling(dir, None, Some(OPEN));
    forall other ensures other in bound <==> other in {name} {
      assert other in bound <==> MayBeGranted(dir, None, Some(OPEN), other);
    }
  }

  lemma OneCarriesItself(name: Scope)
    requires IsWord(name)
    ensures Carried({name}) == {name} && WordsOf(name) == {name}
  {
    WordCarriesItself(name);
    WordsCarryThemselves({name});
  }

  lemma OneIsGranted(dir: Directory, name: Scope)
    requires WordsOf(name) == {name} == Ceiling(dir, None, Some(OPEN))
    ensures ResolveScope(dir, Some(name), None, Some(OPEN)) == Ok({name})
  {
    assert name in WordsOf(name);
    RequestGrantedIff(dir, name, None, Some(OPEN));
  }

  /** A registry of one global scope and an open server: that scope is the bound, and asked for by name it is granted. */
  lemma OnePlays(x: Scene, name: Scope)
    requires x.dir.globals.Keys == {name} && IsWord(name)
    requires "mcp" in x.dir.services && x.dir.services["mcp"] == OPEN
    requires x.asked == Some(name) && x.words == x.ceiling == {name}
    ensures Plays(x)
  {
    OneCarriesItself(name);
    OneIsTheBound(x.dir, name);
    OneIsGranted(x.dir, name);
  }

  lemma ReadingPlays()
    ensures Plays(READING)
  {
    OnePlays(READING, "read");
  }

  lemma Issued()
    ensures ValidRun(W0, ISSUED) && Run(W0, ISSUED) == W3(READING) && Inv(W3(READING))
  {
    ReadingPlays();
    IssuedInv(READING);
  }

  // ---------------------------------------------------------------- a used code, cleaned up

  const CLEAN_UP := Action(Cleanup(3700.0), 9)
  const CODE_AGAIN := RedeemCode(3701.0, APP_ITSELF, "code", "https://app/cb", "", None, "access2", "refresh2")

  function CleanedUp(): World {
    ApplyAll(W3(READING).(clock := 3700.0), CleanupPlan(3700.0).commits)
  }

  lemma CleanUpRuns()
    ensures ValidRun(W0, ISSUED + [CLEAN_UP]) && Run(W0, ISSUED + [CLEAN_UP]) == CleanedUp()
    ensures Inv(W3(READING)) && Inv(W3(READING).(clock := 3700.0))
  {
    Issued();
    RunAppend(W0, ISSUED, CLEAN_UP);
    ArrivingKeepsInv(W3(READING), CLEAN_UP.call);
    assert Arrive(W3(READING), CLEAN_UP.call) == W3(READING).(clock := 3700.0);
  }

  lemma ReplayBeforeCleanUp()
    requires Inv(W3(READING))
    ensures Dead(ApplyAll(W3(READING), PlanOf(W3(READING), CODE_AGAIN).commits), "code")
  {
    CodeReplayKills(W3(READING), CODE_AGAIN);
  }

  lemma ReplayAfterCleanUp(w: World)
    requires w == W3(READING).(clock := 3700.0) && Inv(w)
    ensures PlanOf(CleanedUp(), CODE_AGAIN).commits == [] && PlanOf(CleanedUp(), CODE_AGAIN).answer.Failed?
    ensures LiveRefresh(CleanedUp().tokens, "refresh", "code") && !Dead(CleanedUp(), "code")
  {
    assert w.tokens["refresh"] == TheRefresh(READING) && LiveRefresh(w.tokens, "refresh", "code");
    assert w.codes["code"].expires == 61.0;
    ReplayAfterCleanupRevokesNothing(w, 3700.0, [], CODE_AGAIN);
  }

  /** The code expired at 61 and its row was deleted at 3700: presenting it again revokes nothing, and the refresh token
      it gave, good for thirty days, lives on. Before the clean-up the same request would have killed the family. */
  lemma CleanedUpCodeReplayRevokesNothing()
    ensures ValidRun(W0, ISSUED + [CLEAN_UP])
    ensures var n := Run(W0, ISSUED + [CLEAN_UP]);
            && PlanOf(n, CODE_AGAIN).commits == [] && PlanOf(n, CODE_AGAIN).answer.Failed?
            && LiveRefresh(n.tokens, "refresh", "code") && !Dead(n, "code")
    ensures Dead(ApplyAll(W3(READING), PlanOf(W3(READING), CODE_AGAIN).commits), "code")
  {
    CleanUpRuns();
    ReplayBeforeCleanUp();
    ReplayAfterCleanUp(W3(READING).(clock := 3700.0));
  }

  // ---------------------------------------------------------------- a rotated refresh token, for another server

  const ROTATE :=
    Action(RefreshTokens(3.0, APP_ITSELF, JwtOf("refresh", TheRefresh(READING)), None, None, "access2", "refresh2"), 9)

  function Again(resource: Option<Audience>): Call {
    RefreshTokens(4.0, APP_ITSELF, JwtOf("refresh", TheRefresh(READING)), None, resource, "access3", "refresh3")
  }

  const NEXT_ACCESS := TheAccess(READING).(expires := 3603)
  const NEXT_REFRESH := TheRefresh(READING).(expires := 2592003)

  ghost predicate RotatedTo(n: World) {
    && n.clients == map["app" := APP] && JwtOf("refresh", TheRefresh(READING)) in n.jwts
    && "refresh" in n.tokens && n.tokens["refresh"] == TheRefresh(READING).(revoked := Some(Revocation(3.0, Rotated)))
    && LiveRefresh(n.tokens, "refresh2", "code")
  }

  lemma RotationApplies(w: World)
    requires w.clients == map["app" := APP] && JwtOf("refresh", TheRefresh(READING)) in w.jwts
    requires "refresh" in w.tokens && w.tokens["refresh"] == TheRefresh(READING)
    ensures RotatedTo(ApplyAll(w, [Revoke("refresh", Revocation(3.0, Rotated)), PutToken("access2", NEXT_ACCESS),
                                   PutToken("refresh2", NEXT_REFRESH)]))
  {
    ApplyThree(w, Revoke("refresh", Revocation(3.0, Rotated)), PutToken("access2", NEXT_ACCESS),
               PutToken("refresh2", NEXT_REFRESH));
  }

  lemma RotationCommits(w: World)
    requires w == Arrive(W3(READING), ROTATE.call)
    ensures PlanOf(w, ROTATE.call).commits
         == [Revoke("refresh", Revocation(3.0, Rotated)), PutToken("access2", NEXT_ACCESS),
             PutToken("refresh2", NEXT_REFRESH)]
  {
  }

  lemma RotationIsEnabled()
    ensures Enabled(W3(READING), ROTATE)
  {
  }

  lemma RotationSteps(w: World)
    requires w == W3(READING)
    ensures RotatedTo(Step(w, ROTATE))
  {
    RotationCommits(Arrive(w, ROTATE.call));
    RotationApplies(Arrive(w, ROTATE.call));
    WholeStep(w, ROTATE);
  }

  lemma RotationRuns()
    ensures ValidRun(W0, ISSUED + [ROTATE]) && RotatedTo(Run(W0, ISSUED + [ROTATE]))
  {
    Issued();
    RunAppend(W0, ISSUED, ROTATE);
    RotationIsEnabled();
    RotationSteps(W3(READING));
  }

  lemma RefusedForItsTarget(n: World)
    requires RotatedTo(n)
    ensures PlanOf(n, Again(Some("other"))) == Plan([], Failed(BadTarget))
    ensures !IsRefreshReplay(n, Again(Some("other"))) && IsRefreshReplay(n, Again(None))
  {
  }

  /** The rotated token is presented again, naming another server: the request is refused for its target, nothing is
      revoked, and the successor lives on. Without the resource it would have been a replay. */
  lemma ReplayForAnotherServerRevokesNothing()
    ensures ValidRun(W0, ISSUED + [ROTATE])
    ensures var n := Run(W0, ISSUED + [ROTATE]);
            && LiveRefresh(n.tokens, "refresh2", "code")
            && PlanOf(n, Again(Some("other"))) == Plan([], Failed(BadTarget))
            && !IsRefreshReplay(n, Again(Some("other"))) && IsRefreshReplay(n, Again(None))
  {
    RotationRuns();
    RefusedForItsTarget(Run(W0, ISSUED + [ROTATE]));
  }

  // ---------------------------------------------------------------- a code that outlives its client's revocation

  const REVOKE := Action(RevokeClient(1.5, "app"), 9)
  const REAPPROVE := Action(ApproveClient(1.75, "app"), 9)
  const BLOCKED := [REGISTER, Authorizing(READING), REVOKE]
  const BACK := BLOCKED + [REAPPROVE]

  function WhileRevoked(w: World): World {
    w.(clock := 1.5, clients := map["app" := APP.(active := false)])
  }

  lemma Revoking(w: World)
    requires w.clients == map["app" := APP] && w.tokens == map[]
    ensures Step(w, REVOKE) == WhileRevoked(w)
  {
    var w1 := Arrive(w, REVOKE.call);
    WholeStep(w, REVOKE);
    RevokeClientEffect(w1, "app", 1.5);
    assert RevokedOfClient(w1.tokens, "app", Revocation(1.5, ClientRevoked)) == map[];
    assert w1.clients["app" := APP.(active := false)] == map["app" := APP.(active := false)];
  }

  lemma Reapproving(w: World)
    requires w.clients == map["app" := APP.(active := false)]
    ensures Step(w, REAPPROVE) == w.(clock := 1.75, clients := map["app" := APP])
  {
    WholeStep(w, REAPPROVE);
    ApplyOne(Arrive(w, REAPPROVE.call), PutClient("app", APP));
  }

  lemma BlockedRuns()
    ensures ValidRun(W0, BLOCKED) && Run(W0, BLOCKED) == WhileRevoked(W2(READING))
  {
    ReadingPlays();
    AuthorizedRuns(READING);
    Revoking(W2(READING));
    RunAppend(W0, [REGISTER, Authorizing(READING)], REVOKE);
    assert [REGISTER, Authorizing(READING)] + [REVOKE] == BLOCKED;
  }

  lemma BackRuns()
    ensures ValidRun(W0, BACK) && Run(W0, BACK) == W2(READING).(clock := 1.75)
  {
    BlockedRuns();
    Reapproving(WhileRevoked(W2(READING)));
    RunAppend(W0, BLOCKED, REAPPROVE);
  }

  /** The client is revoked before it redeems its code, and the code is refused; approved again a moment later, it gets
      its tokens for it, access and refresh. */
  lemma ReapprovedClientRedeems()
    ensures ValidRun(W0, BACK + [REDEEM])
    ensures PlanOf(Run(W0, BLOCKED), REDEEM.call) == Plan([], Failed(InvalidClient))
    ensures PlanOf(Run(W0, BACK), REDEEM.call).answer == Tokens("access", Some("refresh"), {"read"})
    ensures LiveRefresh(Run(W0, BACK + [REDEEM]).tokens, "refresh", "code")
  {
    BlockedRuns();
    BackRuns();
    var w := W2(READING).(clock := 1.75);
    RedeemPlanned(READING, w);
    RedeemIsEnabled(READING, w);
    Redeeming(READING, w);
    RunAppend(W0, BACK, REDEEM);
  }

  // ---------------------------------------------------------------- a default scope with a tab in it

  const LIMITED := Service(Some({"read"}), map["x\tadmin" := true])
  const STOWED := Directory(map["admin" := false], map["mcp" := LIMITED])
  const STOWING := [PutService("mcp", Some({"read"})), UpsertServiceScope("mcp", "x\tadmin", true)]

  lemma Stowed()
    ensures AdministerAll(Directory(map["admin" := false], map[]), STOWING) == STOWED
  {
    var start := Directory(map["admin" := false], map[]);
    var first := Directory(map["admin" := false], map["mcp" := Service(Some({"read"}), map[])]);
    assert Administer(start, STOWING[0]).0 == first;
    assert Administer(first, STOWING[1]).0 == STOWED;
    assert STOWING[1..] == [STOWING[1]] && STOWING[1..][1..] == [];
    assert AdministerAll(STOWED, []) == STOWED;
  }

  lemma StowawaySplits()
    ensures "admin" in WordsOf("x\tadmin")
  {
    SplitInTwo("x", '\t', "admin");
    assert "x" + ['\t'] + "admin" == "x\tadmin";
  }

  lemma StowawayIsGranted() returns (x: Scene)
    ensures Plays(x) && x.dir == STOWED && x.asked == None && "admin" in x.words
  {
    DefaultsGranted(STOWED, None, None, Some(LIMITED));
    var granted := ResolveScope(STOWED, None, None, Some(LIMITED)).value;
    assert MayBeGranted(STOWED, None, Some(LIMITED), "x\tadmin");
    StowawaySplits();
    x := Scene(STOWED, None, Carried(granted), Carried(Ceiling(STOWED, None, Some(LIMITED))));
  }

  lemma IssuedCarries(x: Scene)
    requires Plays(x)
    ensures ValidRun(W0, Issuing(x))
    ensures var n := Run(W0, Issuing(x));
            && "access" in n.tokens && n.tokens["access"].audience == Some("mcp") && n.tokens["access"].revoked.None?
            && n.tokens["access"].scope == x.words
  {
    IssuedRuns(x);
    assert "access" in W3(x).tokens && W3(x).tokens["access"].scope == x.words;
  }

  /** The server admits the global scope read only. The console lets it declare the scope "x<tab>admin", a default. A
      client that asks for no scope gets a token for the server that carries the global scope admin, which no request
      may be granted there. */
  lemma TabGetsPastTheAllowList() returns (x: Scene)
    ensures AdministerAll(Directory(map["admin" := false], map[]), STOWING) == STOWED == x.dir && x.asked == None
    ensures !MayBeGranted(STOWED, None, Some(LIMITED), "admin")
    ensures ValidRun(W0, Issuing(x))
    ensures var n := Run(W0, Issuing(x));
            && "access" in n.tokens && n.tokens["access"].audience == Some("mcp") && n.tokens["access"].revoked.None?
            && "admin" in n.tokens["access"].scope
  {
    Stowed();
    x := StowawayIsGranted();
    IssuedCarries(x);
  }
}
