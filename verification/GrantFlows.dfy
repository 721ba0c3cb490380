/** What a client experiences: the honest flow from consent to a refreshed token, and what a stolen code is worth. */
module GrantFlows {
  import opened Prelude
  import opened ScopeRegistry
  import opened ScopeTexts
  import opened OAuthTables
  import opened OAuthEndpoints
  import opened TokenFamilies
  import opened GrantRuns
  import opened FamilySafety

  lemma ApplyThree(w: World, a: Commit, b: Commit, c: Commit)
    ensures ApplyAll(w, [a, b, c]) == Apply(Apply(Apply(w, a), b), c)
  {
    assert [a, b, c][1..] == [b, c];
    ApplyTwo(Apply(w, a), b, c);
  }

  lemma StoreEffect(w: World, requestId: Id, req: AuthRequest, ceiling: set<Scope>, user: Option<UserId>, code: Id,
                    now: Time)
    ensures var n := ApplyAll(w, StorePlan(w, requestId, req, ceiling, user, code, now).commits);
            && requestId in n.requests && n.requests[requestId].(decidedAt := req.decidedAt) == req
            && requestId in n.ceilings && n.ceilings[requestId] == ceiling
  {
    var cs := StorePlan(w, requestId, req, ceiling, user, code, now).commits;
    if |cs| == 1 {
      ApplyOne(w, cs[0]);
      assert cs == [cs[0]];
    } else {
      assert cs == [cs[0], cs[1], cs[2]];
      ApplyThree(w, cs[0], cs[1], cs[2]);
    }
  }

  /** The server a request is for: the one it names, else the client's default. */
  function TargetOf(dir: Directory, client: Client, resource: Option<Audience>): (Option<Audience>, Option<Service>) {
    var audience := if resource.Some? then resource else client.defaultResource;
    (audience,
     if audience.Some? && audience.value in dir.services then Some(dir.services[audience.value]) else None)
  }

  /** An accepted /authorize request is stored with a scope within the client's limit, the server's allow-list (or its
      own scopes) and the registry of that moment, bound to the audience asked for or the client's default. */
  lemma AuthorizeStoresBoundedRequest(w: World, dir: Directory, p: AuthorizeParams, session: Option<UserId>,
                                      requestId: Id, code: Id, now: Time)
    requires !AuthorizePlan(w, dir, p, session, requestId, code, now).answer.Failed?
    ensures p.client in w.clients && p.redirectUri in w.clients[p.client].redirectUris
    ensures var n, c := ApplyAll(w, AuthorizePlan(w, dir, p, session, requestId, code, now).commits), w.clients[p.client];
            var (audience, service) := TargetOf(dir, c, p.resource);
            && (audience.Some? ==> service.Some?)
            && requestId in n.requests && requestId in n.ceilings && n.requests[requestId].client == p.client
            && n.requests[requestId].audience == audience
            && n.requests[requestId].scope <= n.ceilings[requestId] == Carried(Ceiling(dir, c.scope, service))
            && (ReadsBack(dir, p.scope, c.scope, service) ==>
                  n.requests[requestId].scope <= Ceiling(dir, c.scope, service))
  {
    var c := w.clients[p.client];
    var (audience, service) := TargetOf(dir, c, p.resource);
    var scope := ResolveScope(dir, p.scope, c.scope, service);
    GrantReadsBackIff(dir, p.scope, c.scope, service);
    StoreEffect(w, requestId, AuthRequest(p.client, p.redirectUri, Carried(scope.value), audience, p.challenge,
                                          now + AUTH_REQUEST_SECONDS, None),
                Carried(Ceiling(dir, c.scope, service)), session, code, now);
  }

  lemma ApproveEffect(w: World, requestId: Id, req: AuthRequest, ceiling: set<Scope>, user: UserId,
                      granted: Option<set<Scope>>, remember: bool, code: Id, now: Time)
    requires requestId in w.requests && w.requests[requestId] == req
    ensures var n := ApplyAll(w, ApproveCommits(w, requestId, req, ceiling, user, granted, remember, code, now));
            && code in n.families && code in n.codes && n.codes[code].usedAt.None?
            && n.families[code] == Family(req.client, user, req.audience,
                                          if granted.None? then req.scope else req.scope * granted.value,
                                          req.scope, ceiling)
            && requestId in n.requests && n.requests[requestId].decidedAt.Some?
  {
    var cs := ApproveCommits(w, requestId, req, ceiling, user, granted, remember, code, now);
    if remember {
      assert cs == [cs[0], cs[1], cs[2]];
      ApplyThree(w, cs[0], cs[1], cs[2]);
    } else {
      assert cs == [cs[0], cs[1]];
      ApplyTwo(w, cs[0], cs[1]);
    }
  }

  /** Approving a request creates one code whose family is fixed by the request, the user and what the user ticked. */
  lemma ApprovalFixesFamily(w: World, requestId: Id, user: UserId, granted: Option<set<Scope>>, remember: bool,
                            code: Id, now: Time)
    requires Inv(w) && DecidePlan(w, requestId, user, true, granted, remember, code, now).answer.Redirect?
    ensures requestId in w.requests && requestId in w.ceilings
    ensures var n, req := ApplyAll(w, DecidePlan(w, requestId, user, true, granted, remember, code, now).commits),
                          w.requests[requestId];
            && code in n.families && code in n.codes && n.codes[code].usedAt.None?
            && n.families[code] == Family(req.client, user, req.audience,
                                          if granted.None? then req.scope else req.scope * granted.value,
                                          req.scope, w.ceilings[requestId])
            && requestId in n.requests && n.requests[requestId].decidedAt.Some?
            && DecidePlan(n, requestId, user, true, granted, remember, code, now) == Plan([], Failed(AlreadyDecided))
  {
    ApproveEffect(w, requestId, w.requests[requestId], w.ceilings[requestId], user, granted, remember, code, now);
  }

  /** The rightful client of a code presents it with the redirect URI and the verifier it belongs to. */
  predicate IsRightful(w: World, c: Call, code: Id) {
    && c.RedeemCode? && c.code == code && code in w.codes
    && c.caller.id == w.codes[code].client && c.caller.proved && c.redirectUri == w.codes[code].redirectUri
    && (w.codes[code].challenge.Some? ==> w.codes[code].challenge == Some(DigestOf(c.verifier)))
  }

  /** No request of the run is the rightful redemption of this code. */
  ghost predicate NobodyRightful(w: World, actions: seq<Action>, code: Id)
    decreases |actions|
  {
    actions == []
    || (!IsRightful(Arrive(w, actions[0].call), actions[0].call, code)
        && NobodyRightful(Step(w, actions[0]), actions[1..], code))
  }

  /** No other request redeems an unused code, and an attempt to do so fails and changes nothing. */
  lemma OthersDoNotRedeem(w: World, c: Call, code: Id)
    requires code in w.codes ==> w.codes[code].usedAt.None?
    requires !IsRightful(w, c, code)
    ensures NeverRedeemed(PlanOf(w, c).commits, code)
    ensures c.RedeemCode? && c.code == code ==> PlanOf(w, c).commits == [] && PlanOf(w, c).answer.Failed?
  {
    var cs := PlanOf(w, c).commits;
    assert |cs| <= 3;
    assert |cs| > 0 ==> !Redeems(cs[0], code);
    assert |cs| > 1 ==> !Redeems(cs[1], code);
    assert |cs| > 2 ==> !Redeems(cs[2], code);
  }

  lemma UnredeemedStaysUnused(w: World, c: Commit, code: Id)
    requires !Redeems(c, code) && (c.PutCode? ==> c.id != code)
    requires code in w.codes ==> w.codes[code].usedAt.None?
    ensures code in Apply(w, c).codes ==> code in w.codes && Apply(w, c).codes[code].usedAt.None?
  {
  }

  lemma {:induction false} CommitsLeaveUnused(w: World, cs: seq<Commit>, done: seq<Commit>, code: Id)
    requires Inv(w) && GuardedAll(w, cs) && done <= cs && NeverRedeemed(done, code)
    requires code in w.families && (code in w.codes ==> w.codes[code].usedAt.None?)
    ensures code in ApplyAll(w, done).codes ==> ApplyAll(w, done).codes[code].usedAt.None?
    decreases |cs|
  {
    if done != [] {
      assert !Redeems(done[0], code);
      CommitKeepsInv(w, cs[0]);
      CommitEvolves(w, cs[0]);
      UnredeemedStaysUnused(w, cs[0], code);
      CommitsLeaveUnused(Apply(w, cs[0]), cs[1..], done[1..], code);
    }
  }

  lemma StepLeavesUnused(w: World, a: Action, code: Id)
    requires Inv(w) && Enabled(w, a) && NeverRedeemed(Performed(w, a), code)
    requires code in w.families && (code in w.codes ==> w.codes[code].usedAt.None?)
    ensures code in Step(w, a).families
    ensures code in Step(w, a).codes ==> code in w.codes && Step(w, a).codes[code] == w.codes[code]
  {
    var w1, n := Arrive(w, a.call), Step(w, a);
    ArrivingKeepsInv(w, a.call);
    PlanIsGuarded(w1, a.call);
    CommitsLeaveUnused(w1, PlanOf(w1, a.call).commits, Performed(w, a), code);
    StepEvolves(w, a);
    if code in n.codes { assert CodeRetired(n.codes[code], w.codes[code]); }
  }

  lemma {:induction false} NeverRedeemedParts(a: seq<Commit>, b: seq<Commit>, code: Id)
    ensures NeverRedeemed(a + b, code) <==> NeverRedeemed(a, code) && NeverRedeemed(b, code)
  {
    if NeverRedeemed(a + b, code) {
      forall k | 0 <= k < |a| ensures !Redeems(a[k], code) { assert (a + b)[k] == a[k]; }
      forall k | 0 <= k < |b| ensures !Redeems(b[k], code) { assert (a + b)[|a| + k] == b[k]; }
    }
  }

  /** Over any run that does not redeem it an unused code stays as it was issued, while its row exists. */
  lemma {:induction false} UnredeemedStays(w: World, actions: seq<Action>, code: Id)
    requires Inv(w) && ValidRun(w, actions) && NeverRedeemed(Log(w, actions), code)
    requires code in w.families && (code in w.codes ==> w.codes[code].usedAt.None?)
    ensures code in Run(w, actions).codes ==> code in w.codes && Run(w, actions).codes[code] == w.codes[code]
    decreases |actions|
  {
    if actions != [] {
      NeverRedeemedParts(Performed(w, actions[0]), Log(Step(w, actions[0]), actions[1..]), code);
      StepLeavesUnused(w, actions[0], code);
      StepKeepsInv(w, actions[0]);
      UnredeemedStays(Step(w, actions[0]), actions[1..], code);
    }
  }

  lemma {:induction false} NobodyRedeems(w: World, actions: seq<Action>, code: Id)
    requires Inv(w) && ValidRun(w, actions) && NobodyRightful(w, actions, code)
    requires code in w.families && (code in w.codes ==> w.codes[code].usedAt.None?)
    ensures NeverRedeemed(Log(w, actions), code)
    decreases |actions|
  {
    if actions != [] {
      OthersDoNotRedeem(Arrive(w, actions[0].call), actions[0].call, code);
      StepLeavesUnused(w, actions[0], code);
      StepKeepsInv(w, actions[0]);
      NobodyRedeems(Step(w, actions[0]), actions[1..], code);
      NeverRedeemedParts(Performed(w, actions[0]), Log(Step(w, actions[0]), actions[1..]), code);
    }
  }

  /** Without the client's own credentials, redirect URI and verifier a code is worth nothing, however long others try:
      over any run without a rightful redemption it is never redeemed, and while its row exists it stays as it was. */
  lemma {:induction false} OnlyItsClientRedeems(w: World, actions: seq<Action>, code: Id)
    requires Inv(w) && ValidRun(w, actions) && NobodyRightful(w, actions, code)
    requires code in w.families && (code in w.codes ==> w.codes[code].usedAt.None?)
    ensures NeverRedeemed(Log(w, actions), code)
    ensures code in Run(w, actions).codes ==> code in w.codes && Run(w, actions).codes[code] == w.codes[code]
  {
    NobodyRedeems(w, actions, code);
    UnredeemedStays(w, actions, code);
  }

  /** The call fits the code: its client, in time, with its redirect URI, its verifier and its audience. */
  predicate Fits(code: Code, client: Client, c: Call)
    requires c.RedeemCode?
  {
    && c.now <= code.expires && c.caller.id == code.client && c.redirectUri == code.redirectUri
    && PkceHolds(code, client, c.verifier) && (c.resource.Some? ==> c.resource == code.audience)
  }

  /** What an unused code is worth at any later point of any run that has not redeemed it and kept its row: exactly what
      it was worth when issued, if the client may use the grant at that point. Whatever happened to the client in
      between leaves no trace on the code. */
  lemma {:induction false} UnusedCodesKeepTheirWorth(w: World, actions: seq<Action>, c: Call)
    requires Inv(w) && ValidRun(w, actions) && c.RedeemCode? && c.code in w.codes && w.codes[c.code].usedAt.None?
    requires NeverRedeemed(Log(w, actions), c.code) && c.code in Run(w, actions).codes
    ensures var n, code := Run(w, actions), w.codes[c.code];
            && n.codes[c.code] == code
            && (PlanOf(n, c).answer.Tokens? <==>
                  MayUse(n, c.caller, AuthorizationCode).None? && Fits(code, n.clients[c.caller.id], c))
            && (PlanOf(n, c).answer.Tokens? ==> PlanOf(n, c).answer.scope == w.families[c.code].scope)
  {
    UnredeemedStays(w, actions, c.code);
    assert CodeOk(w.codes[c.code], w.families[c.code]);
  }

  /** A client that was revoked can use no grant, so the codes it has not redeemed are worth nothing - until it is
      approved again, whatever requests come between: revocation leaves codes alone, and with the approval each code
      still on record is what it was. */
  lemma {:induction false} ReapprovalRevivesCodes(w: World, between: seq<Action>, approve: Action, c: Call)
    requires Inv(w) && ValidRun(w, between + [approve]) && c.RedeemCode?
    requires c.code in w.codes && w.codes[c.code].usedAt.None? && c.caller.id == w.codes[c.code].client
    requires c.caller.id in w.clients && !w.clients[c.caller.id].active
    requires approve.call.ApproveClient? && approve.call.id == c.caller.id && approve.cut > 0
    requires c.caller.id in Run(w, between).clients
    requires NeverRedeemed(Log(w, between + [approve]), c.code) && c.code in Run(w, between + [approve]).codes
    ensures PlanOf(w, c) == Plan([], Failed(InvalidClient))
    ensures var n := Run(w, between + [approve]);
            && c.caller.id in n.clients
            && (PlanOf(n, c).answer.Tokens? <==>
                  && c.caller.proved && AuthorizationCode in n.clients[c.caller.id].grants
                  && Fits(w.codes[c.code], n.clients[c.caller.id], c))
            && (PlanOf(n, c).answer.Tokens? ==> PlanOf(n, c).answer.scope == w.families[c.code].scope)
  {
    var m := Run(w, between);
    RunAppend(w, between, approve);
    ApprovalEffect(m, approve);
    UnusedCodesKeepTheirWorth(w, between + [approve], c);
  }

  lemma ApprovalEffect(m: World, approve: Action)
    requires approve.call.ApproveClient? && approve.call.id in m.clients && approve.cut > 0
    ensures Step(m, approve).clients
         == m.clients[approve.call.id := m.clients[approve.call.id].(approved := true, active := true)]
  {
    var w := Arrive(m, approve.call);
    var row := w.clients[approve.call.id].(approved := true, active := true);
    assert Performed(m, approve) == [PutClient(approve.call.id, row)];
    ApplyOne(w, PutClient(approve.call.id, row));
  }

  lemma RedemptionEffect(w: World, code: Id, now: Time, access: Id, a: Token, refresh: Id, r: Token)
    requires code in w.codes && access != refresh
    ensures var n := ApplyAll(w, [UseCode(code, now), PutToken(access, a), PutToken(refresh, r)]);
            && access in n.tokens && n.tokens[access] == a && refresh in n.tokens && n.tokens[refresh] == r
            && JwtOf(access, a) in n.jwts && JwtOf(refresh, r) in n.jwts
            && code in n.codes && n.codes[code].usedAt == Some(now)
    ensures var n := ApplyAll(w, [UseCode(code, now), PutToken(access, a)]);
            && access in n.tokens && n.tokens[access] == a && JwtOf(access, a) in n.jwts
            && code in n.codes && n.codes[code].usedAt == Some(now)
  {
    ApplyTwo(w, UseCode(code, now), PutToken(access, a));
    ApplyThree(w, UseCode(code, now), PutToken(access, a), PutToken(refresh, r));
  }

  ghost predicate IssuedTo(n: World, id: Id, f: Family, code: Id) {
    && id in n.tokens && n.tokens[id].parent == Some(code) && n.tokens[id].revoked.None?
    && n.tokens[id].client == Some(f.client) && n.tokens[id].sub == f.sub
    && n.tokens[id].audience == f.audience && n.tokens[id].scope == f.scope
    && JwtOf(id, n.tokens[id]) in n.jwts
  }

  /** A code redeemed in time by its client yields an access token for exactly what was approved, and a refresh token
      as well if the client may refresh. */
  lemma CodeIsHonoured(w: World, caller: Caller, code: Id, verifier: string, resource: Option<Audience>, access: Id,
                       refresh: Id, now: Time)
    requires Inv(w) && code in w.codes && w.codes[code].usedAt.None? && now <= w.codes[code].expires
    requires caller.id == w.codes[code].client && MayUse(w, caller, AuthorizationCode).None?
    requires PkceHolds(w.codes[code], w.clients[caller.id], verifier)
    requires resource.Some? ==> resource == w.codes[code].audience
    requires Fresh(w, access) && Fresh(w, refresh) && access != refresh
    ensures var plan := RedeemPlan(w, caller, code, w.codes[code].redirectUri, verifier, resource, access, refresh, now);
            var n, f, withRefresh := ApplyAll(w, plan.commits), w.families[code],
                                     RefreshToken in w.clients[caller.id].grants;
            && plan.answer == Tokens(access, if withRefresh then Some(refresh) else None, f.scope)
            && IssuedTo(n, access, f, code) && n.tokens[access].kind == Access
            && (withRefresh ==> IssuedTo(n, refresh, f, code) && LiveRefresh(n.tokens, refresh, code))
            && Spent(n.codes, code)
  {
    var f := w.families[code];
    assert CodeOk(w.codes[code], f);
    RedemptionEffect(w, code, now, access, AccessToken(w, caller.id, f.sub, f.audience, f.scope, Some(code), now),
                     refresh, RefreshTokenRow(w, caller.id, f.sub, f.audience, f.scope, Some(code), now));
  }

  lemma RotationEffect(w: World, id: Id, f: Id, now: Time, access: Id, a: Token, refresh: Id, r: Token)
    requires id in w.tokens && w.tokens[id].revoked.None? && RefreshOf(r, f) && r.revoked.None?
    requires access != id && refresh != id && access != refresh
    ensures var n := ApplyAll(w, [Revoke(id, Revocation(now, Rotated)), PutToken(access, a), PutToken(refresh, r)]);
            && LiveRefresh(n.tokens, refresh, f) && n.tokens[refresh] == r
            && access in n.tokens && n.tokens[access] == a
            && id in n.tokens && n.tokens[id].revoked == Some(Revocation(now, Rotated))
  {
    ApplyThree(w, Revoke(id, Revocation(now, Rotated)), PutToken(access, a), PutToken(refresh, r));
  }

  /** A live refresh token presented in time by its client is rotated: it becomes the replay trap, and its successor
      is the family's live refresh token, narrowed to what was asked for. */
  lemma RefreshRotates(w: World, caller: Caller, id: Id, f: Id, narrower: Option<string>, access: Id, refresh: Id,
                       now: Time)
    requires IdsInv(w.codes, w.tokens, w.families, w.facts) && RowsInv(w.tokens, w.facts) && SignedInv(w.jwts, w.facts)
    requires LiveRefresh(w.tokens, id, f) && w.tokens[id].client == Some(caller.id)
    requires now - LEEWAY < w.tokens[id].expires as real && MayUse(w, caller, RefreshToken).None?
    requires Wanted(narrower, w.tokens[id].scope) <= w.tokens[id].scope
    requires Fresh(w, access) && Fresh(w, refresh) && access != refresh
    ensures var rec := w.tokens[id];
            var plan := RefreshPlan(w, caller, JwtOf(id, rec), narrower, rec.audience, access, refresh, now);
            var n, scope := ApplyAll(w, plan.commits), Wanted(narrower, rec.scope);
            && plan.answer == Tokens(access, Some(refresh), scope)
            && LiveRefresh(n.tokens, refresh, f) && n.tokens[refresh].scope == scope
            && n.tokens[refresh].sub == rec.sub && n.tokens[refresh].audience == rec.audience
            && access in n.tokens && n.tokens[access].scope == scope && n.tokens[access].parent == Some(f)
            && id in n.tokens && n.tokens[id].revoked == Some(Revocation(now, Rotated))
  {
    var rec := w.tokens[id];
    assert JwtOf(id, rec) in w.jwts by {
      assert SameIssue(rec, w.facts[id].token);
      assert JwtOf(id, w.facts[id].token) == JwtOf(id, rec);
    }
    var scope := Wanted(narrower, rec.scope);
    RotationEffect(w, id, f, now, access, AccessToken(w, caller.id, rec.sub, rec.audience, scope, Some(f), now),
                   refresh, RefreshTokenRow(w, caller.id, rec.sub, rec.audience, scope, Some(f), now));
  }

  /** What is read from a granted scope is within what the bound carries, and within the bound itself if it reads back
      as granted. */
  ghost predicate Bounded(scope: set<Scope>, dir: Directory, requested: Option<string>, limit: Option<set<Scope>>,
                          service: Option<Service>)
  {
    && scope <= Carried(Ceiling(dir, limit, service))
    && (ReadsBack(dir, requested, limit, service) ==> scope <= Ceiling(dir, limit, service))
  }

  lemma GrantedIsBounded(dir: Directory, requested: Option<string>, limit: Option<set<Scope>>,
                         service: Option<Service>)
    requires ResolveScope(dir, requested, limit, service).Ok?
    ensures Bounded(Carried(ResolveScope(dir, requested, limit, service).value), dir, requested, limit, service)
  {
    GrantReadsBackIff(dir, requested, limit, service);
  }

  /** The server named, looked up. */
  function ServiceAt(dir: Directory, resource: Option<Audience>): Option<Service>
    requires resource.Some? ==> resource.value in dir.services
  {
    if resource.Some? then Some(dir.services[resource.value]) else None
  }

  lemma ClientTokenPlanned(w: World, caller: Caller, dir: Directory, requested: Option<string>,
                           resource: Option<Audience>, id: Id, now: Time)
    requires ClientCredentialsPlan(w, caller, dir, requested, resource, id, now).answer.Tokens?
    ensures caller.id in w.clients && (resource.Some? ==> resource.value in dir.services)
    ensures var scope := ResolveScope(dir, requested, w.clients[caller.id].scope, ServiceAt(dir, resource));
            && scope.Ok?
            && ClientCredentialsPlan(w, caller, dir, requested, resource, id, now).commits
               == [PutToken(id, AccessToken(w, caller.id, caller.id, resource, Carried(scope.value), None, now))]
  {}

  /** Tokens no user approved one by one are bounded too. A client's own token speaks for the client itself, and carries
      no more scope than the server admits and the client may ask for. */
  lemma ClientTokensAreBounded(w: World, caller: Caller, dir: Directory, requested: Option<string>,
                               resource: Option<Audience>, id: Id, now: Time)
    ensures var plan := ClientCredentialsPlan(w, caller, dir, requested, resource, id, now);
            plan.answer.Tokens? ==>
              && caller.id in w.clients && |plan.commits| == 1 && plan.commits[0].PutToken?
              && (resource.Some? ==> resource.value in dir.services)
              && var t := plan.commits[0].token;
              && t.client == Some(caller.id) && t.sub == caller.id && t.audience == resource && t.parent == None
              && Bounded(t.scope, dir, requested, w.clients[caller.id].scope, ServiceAt(dir, resource))
  {
    if ClientCredentialsPlan(w, caller, dir, requested, resource, id, now).answer.Tokens? {
      ClientTokenPlanned(w, caller, dir, requested, resource, id, now);
      GrantedIsBounded(dir, requested, w.clients[caller.id].scope, ServiceAt(dir, resource));
    }
  }

  /** A personal token speaks for its user, for a limited time, and carries no more scope than the server admits. */
  lemma PersonalTokensAreBounded(w: World, dir: Directory, requested: Option<string>, user: UserId, console: ClientId,
                                 audience: Audience, days: int, id: Id, now: Time)
    ensures var plan := MintPersonalPlan(w, dir, user, console, audience, requested, days, id, now);
            plan.answer.Tokens? ==>
              && audience in dir.services && |plan.commits| == 1 && plan.commits[0].PutToken?
              && var t := plan.commits[0].token;
              && t.expires <= now.Floor + (if w.cfg.patMaxDays > 1 then w.cfg.patMaxDays else 1) * 86400
              && t.client == Some(console) && t.sub == user && t.audience == Some(audience) && t.parent == None
              && Bounded(t.scope, dir, requested, None, Some(dir.services[audience]))
              && (ReadsBack(dir, requested, None, Some(dir.services[audience])) ==>
                    t.scope <= EffectiveScopes(dir, dir.services[audience]))
  {
    if MintPersonalPlan(w, dir, user, console, audience, requested, days, id, now).answer.Tokens? {
      GrantReadsBackIff(dir, requested, None, Some(dir.services[audience]));
      EffectiveIsGrantable(dir, dir.services[audience]);
    }
  }

  /** So is the scanner's, although it is recorded nowhere: it asks for the usual scopes, which are words, or, from a
      server with an allow-list, for the defaults. */
  lemma ScannerIsBounded(dir: Directory, scanner: ClientId, service: Option<Service>, audience: Audience, jti: Id,
                         now: Time)
    ensures var plan := MintScannerPlan(dir, scanner, service, audience, jti, now);
            plan.answer.Done? ==>
              && |plan.commits| == 1 && plan.commits[0].SignOnly?
              && var jwt := plan.commits[0].jwt;
              && jwt.sub == scanner && jwt.audience == Some(audience) && jwt.exp <= now.Floor + PROBE_SECONDS
              && Bounded(jwt.scope, dir, ScannerAsks(service), None, service)
              && (service.None? || service.value.allowList.None? ==> jwt.scope <= Ceiling(dir, None, service))
  {
    if ResolveScope(dir, ScannerAsks(service), None, service).Ok? {
      GrantReadsBackIff(dir, ScannerAsks(service), None, service);
      if ScannerAsks(service).Some? { ScannerAsksForWords(); }
    }
  }
}
