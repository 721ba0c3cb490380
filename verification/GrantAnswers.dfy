/**
 What every request is answered and what it leaves in the tables, said of the call and the tables alone: who gets
 nothing, when exactly a request is accepted, and which rows it then leaves behind.
 */
module GrantAnswers {
  import opened Prelude
  import opened ScopeRegistry
  import opened ScopeTexts
  import opened OAuthTables
  import opened OAuthEndpoints
  import opened TokenFamilies
  import opened GrantRuns
  import opened FamilySafety
  import opened GrantFlows

  /** The tables when the request has run to its end. */
  function Outcome(w: World, c: Call): World {
    ApplyAll(w, PlanOf(w, c).commits)
  }

  function Answered(w: World, c: Call): Answer {
    PlanOf(w, c).answer
  }

  ghost predicate Refused(w: World, c: Call, e: OAuthError) {
    Answered(w, c) == Failed(e) && PlanOf(w, c).commits == [] && Outcome(w, c) == w
  }

  // ---------------------------------------------------------------- who gets nothing

  predicate Fit(w: World, caller: Caller) {
    caller.id in w.clients && w.clients[caller.id].active && w.clients[caller.id].approved && caller.proved
  }

  /** Who calls, and the grant it must be registered for. */
  function CallerOf(c: Call): Option<(Caller, Option<GrantType>)> {
    match c
    case RedeemCode(_, caller, _, _, _, _, _, _) => Some((caller, Some(AuthorizationCode)))
    case RefreshTokens(_, caller, _, _, _, _, _) => Some((caller, Some(RefreshToken)))
    case ClientCredentialsGrant(_, caller, _, _, _, _) => Some((caller, Some(ClientCredentials)))
    case RevokeToken(_, caller, _) => Some((caller, None))
    case Introspect(_, caller, _) => Some((caller, None))
    case _ => None
  }

  predicate Entitled(w: World, caller: Caller, needs: Option<GrantType>) {
    Fit(w, caller) && (needs.Some? ==> needs.value in w.clients[caller.id].grants)
  }

  /** A client that is unknown, revoked, not approved, not itself, or not registered for the grant gets an error and
      changes nothing, whatever it presents. An active client that is not approved is told that it may not. */
  lemma UnfitClientsGetNothing(w: World, c: Call, caller: Caller, needs: Option<GrantType>)
    requires CallerOf(c) == Some((caller, needs)) && !Entitled(w, caller, needs)
    ensures Refused(w, c, if caller.id in w.clients && w.clients[caller.id].active
                             && (!w.clients[caller.id].approved || caller.proved)
                          then UnauthorizedClient else InvalidClient)
  {
  }

  lemma EntitledMay(w: World, caller: Caller, g: GrantType)
    ensures MayUse(w, caller, g).None? <==> Entitled(w, caller, Some(g))
    ensures Authenticate(w, caller).None? <==> Fit(w, caller)
  {
  }

  // ---------------------------------------------------------------- authorization

  predicate PkceIsInOrder(client: Client, p: AuthorizeParams) {
    if p.challenge.Some? then p.methodIsS256 else client.hasSecret && !client.requirePkce
  }

  predicate MayAuthorize(w: World, p: AuthorizeParams) {
    && p.client in w.clients && w.clients[p.client].active && w.clients[p.client].approved
    && p.redirectUri in w.clients[p.client].redirectUris && p.responseTypeIsCode
    && AuthorizationCode in w.clients[p.client].grants && PkceIsInOrder(w.clients[p.client], p)
  }

  /** The server asked for, or the client's default, is registered. */
  predicate TargetKnown(dir: Directory, target: (Option<Audience>, Option<Service>)) {
    target.0.Some? ==> target.1.Some?
  }

  predicate ScopeGrantable(dir: Directory, requested: Option<string>, limit: Option<set<Scope>>,
                           service: Option<Service>)
  {
    Blank(requested) || WordsOf(requested.value) <= Ceiling(dir, limit, service)
  }

  lemma GrantableIff(dir: Directory, requested: Option<string>, limit: Option<set<Scope>>, service: Option<Service>)
    ensures ScopeGrantable(dir, requested, limit, service) <==> ResolveScope(dir, requested, limit, service).Ok?
    ensures ResolveScope(dir, requested, limit, service).Err? ==>
              ResolveScope(dir, requested, limit, service) == Err(InvalidScope)
  {
    if Blank(requested) {
      DefaultsGranted(dir, requested, limit, service);
    } else {
      RequestGrantedIff(dir, requested.value, limit, service);
    }
  }

  ghost predicate MayAsk(w: World, c: Call)
    requires c.Authorize?
  {
    && MayAuthorize(w, c.params)
    && var client := w.clients[c.params.client];
    var target := TargetOf(c.dir, client, c.params.resource);
    TargetKnown(c.dir, target) && ScopeGrantable(c.dir, c.params.scope, client.scope, target.1)
  }

  /** What an accepted /authorize call asks for. */
  function AskedFor(w: World, c: Call): AuthRequest
    requires c.Authorize? && c.params.client in w.clients
  {
    var client := w.clients[c.params.client];
    var (audience, service) := TargetOf(c.dir, client, c.params.resource);
    var granted := ResolveScope(c.dir, c.params.scope, client.scope, service);
    AuthRequest(c.params.client, c.params.redirectUri, if granted.Ok? then Carried(granted.value) else {}, audience,
                c.params.challenge, c.now + 600.0, None)
  }

  /** The user is signed in, and trusts the client or has remembered all of this. */
  predicate NeedNotBeAsked(w: World, user: Option<UserId>, req: AuthRequest) {
    && user.Some? && req.client in w.clients
    && (w.clients[req.client].via == Manual
        || ((user.value, req.client, req.audience) in w.consents
            && req.scope <= w.consents[(user.value, req.client, req.audience)]))
  }

  /** The code that goes to `user`, for what was ticked of the request. */
  function CodeFor(w: World, req: AuthRequest, user: UserId, ticked: set<Scope>, now: Time): Code {
    Code(req.client, user, req.redirectUri, ticked, req.audience, req.challenge, now + w.cfg.codeSeconds as real, None)
  }

  lemma AuthorizeRefuses(w: World, c: Call)
    requires c.Authorize? && !MayAsk(w, c)
    ensures exists e :: Refused(w, c, e)
    ensures c.params.client !in w.clients || !w.clients[c.params.client].active ==> Refused(w, c, InvalidClient)
    ensures c.params.client in w.clients && w.clients[c.params.client].active && !w.clients[c.params.client].approved ==>
              Refused(w, c, AccessDenied)
    ensures MayAuthorize(w, c.params) ==>
              var target := TargetOf(c.dir, w.clients[c.params.client], c.params.resource);
              Refused(w, c, if TargetKnown(c.dir, target) then BadScope else BadTarget)
  {
    if MayAuthorize(w, c.params) {
      var client := w.clients[c.params.client];
      GrantableIff(c.dir, c.params.scope, client.scope, TargetOf(c.dir, client, c.params.resource).1);
    }
    assert PlanOf(w, c).commits == [] && Answered(w, c).Failed?;
    assert Refused(w, c, Answered(w, c).error);
  }

  lemma AuthorizePlanned(w: World, c: Call)
    requires c.Authorize? && MayAsk(w, c)
    ensures var client := w.clients[c.params.client];
            var ceiling := Carried(Ceiling(c.dir, client.scope, TargetOf(c.dir, client, c.params.resource).1));
            PlanOf(w, c) == StorePlan(w, c.requestId, AskedFor(w, c), ceiling, c.session, c.code, c.now)
  {
    var client := w.clients[c.params.client];
    GrantableIff(c.dir, c.params.scope, client.scope, TargetOf(c.dir, client, c.params.resource).1);
  }

  lemma CodeIsPut(w: World, code: Id, row: Code, scope: set<Scope>, ceiling: set<Scope>)
    ensures Apply(w, PutCode(code, row, scope, ceiling))
         == w.(codes := w.codes[code := row],
               families := w.families[code := Family(row.client, row.user, row.audience, row.scope, scope, ceiling)])
  {
  }

  lemma RequestIsDecided(w: World, id: Id, req: AuthRequest, at: Time)
    requires id in w.requests && w.requests[id] == req
    ensures Apply(w, DecideRequest(id, at)) == w.(requests := w.requests[id := req.(decidedAt := Some(at))])
  {
  }

  lemma ConsentIsRemembered(w: World, key: ConsentKey, ticked: set<Scope>)
    ensures Apply(w, Remember(key, ticked))
         == w.(consents := w.consents[key := (if key in w.consents then w.consents[key] else {}) + ticked])
  {
  }

  lemma CodeThenDecision(w: World, id: Id, req: AuthRequest, code: Id, row: Code, scope: set<Scope>,
                         ceiling: set<Scope>, at: Time)
    requires id in w.requests && w.requests[id] == req
    ensures ApplyAll(w, [PutCode(code, row, scope, ceiling), DecideRequest(id, at)])
         == w.(codes := w.codes[code := row], requests := w.requests[id := req.(decidedAt := Some(at))],
               families := w.families[code := Family(row.client, row.user, row.audience, row.scope, scope, ceiling)])
  {
    var put := PutCode(code, row, scope, ceiling);
    ApplyTwo(w, put, DecideRequest(id, at));
    CodeIsPut(w, code, row, scope, ceiling);
    RequestIsDecided(Apply(w, put), id, req, at);
  }

  lemma CodeThenConsent(w: World, id: Id, req: AuthRequest, code: Id, row: Code, scope: set<Scope>,
                        ceiling: set<Scope>, at: Time, key: ConsentKey, ticked: set<Scope>)
    requires id in w.requests && w.requests[id] == req
    ensures ApplyAll(w, [PutCode(code, row, scope, ceiling), Remember(key, ticked), DecideRequest(id, at)])
         == w.(codes := w.codes[code := row], requests := w.requests[id := req.(decidedAt := Some(at))],
               families := w.families[code := Family(row.client, row.user, row.audience, row.scope, scope, ceiling)],
               consents := w.consents[key := (if key in w.consents then w.consents[key] else {}) + ticked])
  {
    var put, remember := PutCode(code, row, scope, ceiling), Remember(key, ticked);
    ApplyThree(w, put, remember, DecideRequest(id, at));
    CodeIsPut(w, code, row, scope, ceiling);
    ConsentIsRemembered(Apply(w, put), key, ticked);
    RequestIsDecided(Apply(Apply(w, put), remember), id, req, at);
  }

  lemma StoredThenApproved(w: World, id: Id, req: AuthRequest, ceiling: set<Scope>, code: Id, row: Code, at: Time)
    ensures var n := ApplyAll(w, [PutRequest(id, req, ceiling), PutCode(code, row, req.scope, ceiling),
                                  DecideRequest(id, at)]);
            && n.codes == w.codes[code := row] && n.requests == w.requests[id := req.(decidedAt := Some(at))]
            && n.consents == w.consents && n.tokens == w.tokens && n.clients == w.clients
  {
    var put := PutRequest(id, req, ceiling);
    ApplyThree(w, put, PutCode(code, row, req.scope, ceiling), DecideRequest(id, at));
    CodeThenDecision(Apply(w, put), id, req, code, row, req.scope, ceiling, at);
    ApplyTwo(Apply(w, put), PutCode(code, row, req.scope, ceiling), DecideRequest(id, at));
  }

  /** Nobody is asked: the request is stored, and decided by the code it gives. */
  lemma SkippedAnswers(w: World, c: Call)
    requires c.Authorize? && MayAsk(w, c) && NeedNotBeAsked(w, c.session, AskedFor(w, c))
    ensures Answered(w, c) == Redirect(Some(c.code))
    ensures var n, req := Outcome(w, c), AskedFor(w, c);
            && n.requests == w.requests[c.requestId := req.(decidedAt := Some(c.now))]
            && n.codes == w.codes[c.code := CodeFor(w, req, c.session.value, req.scope, c.now)]
            && n.tokens == w.tokens && n.clients == w.clients && n.consents == w.consents
  {
    AuthorizePlanned(w, c);
    var cs, req := PlanOf(w, c).commits, AskedFor(w, c);
    var row := CodeFor(w, req, c.session.value, req.scope, c.now);
    assert cs == [cs[0], PutCode(c.code, row, req.scope, cs[0].ceiling), DecideRequest(c.requestId, c.now)];
    StoredThenApproved(w, c.requestId, req, cs[0].ceiling, c.code, row, c.now);
  }

  /** The user is to be asked: the request waits. */
  lemma WaitingAnswers(w: World, c: Call)
    requires c.Authorize? && MayAsk(w, c) && !NeedNotBeAsked(w, c.session, AskedFor(w, c))
    ensures Answered(w, c) == AskConsent(c.requestId)
    ensures var n, req := Outcome(w, c), AskedFor(w, c);
            && n.requests == w.requests[c.requestId := req]
            && n.codes == w.codes && n.tokens == w.tokens && n.clients == w.clients && n.consents == w.consents
  {
    AuthorizePlanned(w, c);
    ApplyOne(w, PlanOf(w, c).commits[0]);
  }

  /** An /authorize call is accepted exactly when client, redirect URI, PKCE, target and scope are in order. The request
      is stored as asked for; the user is asked, unless signed in and it need not be: then the code is there at once. */
  lemma AuthorizeAnswers(w: World, c: Call)
    requires c.Authorize?
    ensures MayAsk(w, c) <==> !Answered(w, c).Failed?
    ensures MayAsk(w, c) ==>
              var n, req := Outcome(w, c), AskedFor(w, c);
              if NeedNotBeAsked(w, c.session, req) then
                && Answered(w, c) == Redirect(Some(c.code))
                && n.requests == w.requests[c.requestId := req.(decidedAt := Some(c.now))]
                && n.codes == w.codes[c.code := CodeFor(w, req, c.session.value, req.scope, c.now)]
                && n.tokens == w.tokens && n.clients == w.clients && n.consents == w.consents
              else
                && Answered(w, c) == AskConsent(c.requestId)
                && n.requests == w.requests[c.requestId := req]
                && n.codes == w.codes && n.tokens == w.tokens && n.clients == w.clients && n.consents == w.consents
  {
    if MayAsk(w, c) {
      if NeedNotBeAsked(w, c.session, AskedFor(w, c)) { SkippedAnswers(w, c); } else { WaitingAnswers(w, c); }
    } else {
      AuthorizeRefuses(w, c);
    }
  }

  // ---------------------------------------------------------------- the user's decision

  predicate Decidable(w: World, c: Call)
    requires c.Decide?
  {
    c.requestId in w.requests && w.requests[c.requestId].decidedAt.None? && c.now <= w.requests[c.requestId].expires
  }

  lemma UndecidableIsRefused(w: World, c: Call)
    requires c.Decide? && !Decidable(w, c)
    ensures Refused(w, c, if c.requestId !in w.requests then NoSuchRequest
                          else if w.requests[c.requestId].decidedAt.Some? then AlreadyDecided else RequestExpired)
  {
  }

  /** A denial decides the request and does nothing else. */
  lemma DenialAnswers(w: World, c: Call)
    requires c.Decide? && Decidable(w, c) && !c.approve
    ensures Answered(w, c) == Redirect(None)
    ensures Outcome(w, c)
         == w.(requests := w.requests[c.requestId := w.requests[c.requestId].(decidedAt := Some(c.now))])
  {
    ApplyOne(w, DecideRequest(c.requestId, c.now));
  }

  /** What remains under a consent's key: what was there, and what was ticked if the user wants it remembered. */
  function ConsentsAfter(w: World, c: Call, key: ConsentKey, ticked: set<Scope>): map<ConsentKey, set<Scope>>
    requires c.Decide?
  {
    if !c.remember then w.consents
    else w.consents[key := (if key in w.consents then w.consents[key] else {}) + ticked]
  }

  /** An approval leaves one code, for exactly what was asked and ticked, bound to the request's redirect URI and
      challenge; the request is decided, and the consent remembered if it should be. */
  lemma ApprovalAnswers(w: World, c: Call)
    requires c.Decide? && Decidable(w, c) && c.approve
    ensures Answered(w, c) == Redirect(Some(c.code))
    ensures var n, req := Outcome(w, c), w.requests[c.requestId];
            var ticked := if c.granted.None? then req.scope else req.scope * c.granted.value;
            && n.codes == w.codes[c.code := CodeFor(w, req, c.user, ticked, c.now)]
            && n.requests == w.requests[c.requestId := req.(decidedAt := Some(c.now))]
            && n.consents == ConsentsAfter(w, c, (c.user, req.client, req.audience), ticked)
            && n.tokens == w.tokens && n.clients == w.clients
  {
    var cs, req := PlanOf(w, c).commits, w.requests[c.requestId];
    var ticked := if c.granted.None? then req.scope else req.scope * c.granted.value;
    var row, ceiling := CodeFor(w, req, c.user, ticked, c.now), cs[0].ceiling;
    if c.remember {
      var key := (c.user, req.client, req.audience);
      assert cs == [PutCode(c.code, row, req.scope, ceiling), Remember(key, ticked), DecideRequest(c.requestId, c.now)];
      CodeThenConsent(w, c.requestId, req, c.code, row, req.scope, ceiling, c.now, key, ticked);
    } else {
      assert cs == [PutCode(c.code, row, req.scope, ceiling), DecideRequest(c.requestId, c.now)];
      CodeThenDecision(w, c.requestId, req, c.code, row, req.scope, ceiling, c.now);
    }
  }

  lemma DecidedByCommit(w: World, c: Commit, id: Id)
    requires id in w.requests ==> w.requests[id].decidedAt.Some?
    requires c.PutRequest? ==> c.id != id
    ensures id in Apply(w, c).requests ==> Apply(w, c).requests[id].decidedAt.Some?
  {
  }

  lemma {:induction false} DecidedByCommits(w: World, cs: seq<Commit>, id: Id)
    requires id in w.requests ==> w.requests[id].decidedAt.Some?
    requires forall k | 0 <= k < |cs| && cs[k].PutRequest? :: cs[k].id != id
    ensures id in ApplyAll(w, cs).requests ==> ApplyAll(w, cs).requests[id].decidedAt.Some?
    decreases |cs|
  {
    if cs != [] {
      DecidedByCommit(w, cs[0], id);
      forall k | 0 <= k < |cs[1..]| && cs[1..][k].PutRequest? ensures cs[1..][k].id != id { assert cs[k + 1] == cs[1..][k]; }
      DecidedByCommits(Apply(w, cs[0]), cs[1..], id);
    }
  }

  lemma StoresOnlyItsRequest(w: World, c: Call, id: Id)
    requires !(c.Authorize? && c.requestId == id)
    ensures forall k | 0 <= k < |PlanOf(w, c).commits| && PlanOf(w, c).commits[k].PutRequest? ::
              PlanOf(w, c).commits[k].id != id
  {
    var cs := PlanOf(w, c).commits;
    assert |cs| <= 3;
    assert |cs| > 0 && cs[0].PutRequest? ==> c.Authorize?;
    assert |cs| > 1 ==> !cs[1].PutRequest?;
    assert |cs| > 2 ==> !cs[2].PutRequest?;
  }

  /** A request is decided once: when it was approved or denied, then after any run in which its id is not given to a
      new request, no decision on it is accepted. */
  lemma {:induction false} DecidedOnce(w: World, actions: seq<Action>, c: Call)
    requires c.Decide? && (c.requestId in w.requests ==> w.requests[c.requestId].decidedAt.Some?)
    requires forall i | 0 <= i < |actions| :: !(actions[i].call.Authorize? && actions[i].call.requestId == c.requestId)
    ensures var n := Run(w, actions); Refused(n, c, NoSuchRequest) || Refused(n, c, AlreadyDecided)
    decreases |actions|
  {
    if actions == [] {
      UndecidableIsRefused(w, c);
    } else {
      var w1, id := Arrive(w, actions[0].call), c.requestId;
      StoresOnlyItsRequest(w1, actions[0].call, id);
      var done := Performed(w, actions[0]);
      forall k | 0 <= k < |done| && done[k].PutRequest? ensures done[k].id != id {
        assert PlanOf(w1, actions[0].call).commits[k] == done[k];
      }
      DecidedByCommits(w1, done, id);
      forall i | 0 <= i < |actions[1..]| ensures !(actions[1..][i].call.Authorize? && actions[1..][i].call.requestId == id) {
        assert actions[1..][i] == actions[i + 1];
      }
      DecidedOnce(Step(w, actions[0]), actions[1..], c);
    }
  }
}
