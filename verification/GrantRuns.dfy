/** Every endpoint performs guarded commits, so every run, cut off wherever it may be, keeps the invariant. */
module GrantRuns {
  import opened Prelude
  import opened ScopeRegistry
  import opened ScopeTexts
  import opened OAuthTables
  import opened OAuthEndpoints
  import opened TokenFamilies

  /** Each commit is guarded in the world the commits before it made. */
  ghost predicate GuardedAll(w: World, cs: seq<Commit>)
    decreases |cs|
  {
    cs == [] || (Guard(w, cs[0]) && GuardedAll(Apply(w, cs[0]), cs[1..]))
  }

  lemma {:induction false} GuardedPrefixKeepsInv(w: World, cs: seq<Commit>, done: seq<Commit>)
    requires Inv(w) && GuardedAll(w, cs) && done <= cs
    ensures Inv(ApplyAll(w, done))
    decreases |cs|
  {
    if done != [] {
      CommitKeepsInv(w, cs[0]);
      GuardedPrefixKeepsInv(Apply(w, cs[0]), cs[1..], done[1..]);
    }
  }

  lemma Guarded1(w: World, a: Commit)
    requires Guard(w, a)
    ensures GuardedAll(w, [a])
  {
    assert [a][1..] == [];
  }

  lemma Guarded2(w: World, a: Commit, b: Commit)
    requires Guard(w, a) && Guard(Apply(w, a), b)
    ensures GuardedAll(w, [a, b])
  {
    Guarded1(Apply(w, a), b);
    assert [a, b][1..] == [b];
  }

  lemma Guarded3(w: World, a: Commit, b: Commit, c: Commit)
    requires Guard(w, a) && Guard(Apply(w, a), b) && Guard(Apply(Apply(w, a), b), c)
    ensures GuardedAll(w, [a, b, c])
  {
    Guarded2(Apply(w, a), b, c);
    assert [a, b, c][1..] == [b, c];
  }

  /** A family whose code is unredeemed has issued nothing. */
  lemma UnspentFamilyIsEmpty(w: World, f: Id)
    requires Inv(w) && f in w.codes && w.codes[f].usedAt.None?
    ensures forall k | k in w.facts :: w.facts[k].token.parent != Some(f)
    ensures forall k :: !LiveRefresh(w.tokens, k, f)
  {
    forall k | k in w.facts ensures w.facts[k].token.parent != Some(f) {
      assert FactOk(w.codes, w.families, w.facts[k].token);
    }
    forall k | k in w.tokens ensures w.tokens[k].parent != Some(f) {
      assert SameIssue(w.tokens[k], w.facts[k].token);
    }
  }

  lemma GuardAfterUse(w: World, codeId: Id, at: Time, id: Id, t: Token)
    requires Inv(w) && codeId in w.codes && w.codes[codeId].usedAt.None?
    requires Fresh(w, id) && t.revoked.None? && t.parent == Some(codeId) && Belongs(t, w.families[codeId])
    ensures TokenGuard(Apply(w, UseCode(codeId, at)), id, t)
  {
    UnspentFamilyIsEmpty(w, codeId);
  }

  /** Rotating the live refresh token frees its place for a token that carries no more. */
  lemma GuardAfterRotation(w: World, jti: Id, f: Id, r: Revocation, id: Id, t: Token)
    requires Inv(w) && LiveRefresh(w.tokens, jti, f)
    requires Fresh(w, id) && t.revoked.None? && t.parent == Some(f)
    requires var issued := w.facts[jti].token;
             t.client == issued.client && t.sub == issued.sub && t.audience == issued.audience && t.scope <= issued.scope
    ensures TokenGuard(Apply(w, Revoke(jti, r)), id, t)
  {
    var n := Apply(w, Revoke(jti, r));
    assert SameIssue(w.tokens[jti], w.facts[jti].token);
    assert FactOk(w.codes, w.families, w.facts[jti].token);
    forall k ensures !LiveRefresh(n.tokens, k, f) {
      if LiveRefresh(n.tokens, k, f) { assert LiveRefresh(w.tokens, k, f); }
    }
  }

  /** An access token issued first does not get in the way of its refresh token. */
  lemma GuardAfterAccess(w: World, access: Id, a: Token, refresh: Id, r: Token)
    requires TokenGuard(w, access, a) && a.kind == Access
    requires TokenGuard(w, refresh, r) && access != refresh
    ensures TokenGuard(Apply(w, PutToken(access, a)), refresh, r)
  {
    var n := Apply(w, PutToken(access, a));
    if r.kind == Refresh {
      forall k ensures !LiveRefresh(n.tokens, k, r.parent.value) {
        assert !LiveRefresh(w.tokens, k, r.parent.value);
      }
    }
  }

  lemma ExchangeGuarded(w: World, codeId: Id, at: Time, access: Id, a: Token, refresh: Id, r: Token)
    requires Inv(w) && codeId in w.codes && w.codes[codeId].usedAt.None?
    requires Fresh(w, access) && Fresh(w, refresh) && access != refresh && a.kind == Access
    requires a.revoked.None? && a.parent == Some(codeId) && Belongs(a, w.families[codeId])
    requires r.revoked.None? && r.parent == Some(codeId) && Belongs(r, w.families[codeId])
    ensures GuardedAll(w, [UseCode(codeId, at), PutToken(access, a), PutToken(refresh, r)])
    ensures GuardedAll(w, [UseCode(codeId, at), PutToken(access, a)])
  {
    var use := UseCode(codeId, at);
    GuardAfterUse(w, codeId, at, access, a);
    GuardAfterUse(w, codeId, at, refresh, r);
    GuardAfterAccess(Apply(w, use), access, a, refresh, r);
    Guarded2(w, use, PutToken(access, a));
    Guarded3(w, use, PutToken(access, a), PutToken(refresh, r));
  }

  lemma RedeemGuarded(w: World, caller: Caller, codeId: Id, uri: Uri, verifier: string, resource: Option<Audience>,
                      access: Id, refresh: Id, now: Time)
    requires Inv(w) && Fresh(w, access) && Fresh(w, refresh) && access != refresh
    ensures GuardedAll(w, RedeemPlan(w, caller, codeId, uri, verifier, resource, access, refresh, now).commits)
  {
    var plan := RedeemPlan(w, caller, codeId, uri, verifier, resource, access, refresh, now);
    if plan.answer.Tokens? {
      var code := w.codes[codeId];
      assert CodeOk(code, w.families[codeId]);
      var use := UseCode(codeId, now);
      var a := AccessToken(w, caller.id, code.user, code.audience, code.scope, Some(codeId), now);
      var r := RefreshTokenRow(w, caller.id, code.user, code.audience, code.scope, Some(codeId), now);
      ExchangeGuarded(w, codeId, now, access, a, refresh, r);
      assert plan.commits == [use, PutToken(access, a), PutToken(refresh, r)]
          || plan.commits == [use, PutToken(access, a)];
    }
  }

  /** What a presented refresh token's JWT says about the row it names. */
  lemma RefreshRow(w: World, jwt: Jwt)
    requires Inv(w) && jwt in w.jwts && jwt.use == RefreshUse
    ensures jwt.jti in w.facts && w.facts[jwt.jti].token.kind == Refresh && w.facts[jwt.jti].token.parent.Some?
    ensures w.facts[jwt.jti].token.client == jwt.client
    ensures w.facts[jwt.jti].token.parent.value in w.families
    ensures jwt.jti in w.tokens ==> RefreshOf(w.tokens[jwt.jti], w.facts[jwt.jti].token.parent.value)
    ensures jwt.jti in w.tokens ==> SameIssue(w.tokens[jwt.jti], w.facts[jwt.jti].token)
  {
    assert JwtAgrees(jwt, w.facts[jwt.jti].token);
    assert FactOk(w.codes, w.families, w.facts[jwt.jti].token);
    if jwt.jti in w.tokens { assert SameIssue(w.tokens[jwt.jti], w.facts[jwt.jti].token); }
  }

  lemma RotationGuarded(w: World, jti: Id, f: Id, rotation: Revocation, access: Id, a: Token, refresh: Id, r: Token)
    requires Inv(w) && LiveRefresh(w.tokens, jti, f) && Fresh(w, access) && Fresh(w, refresh) && access != refresh
    requires a.kind == Access && a.revoked.None? && a.parent == Some(f) && r.revoked.None? && r.parent == Some(f)
    requires var issued := w.facts[jti].token;
             && a.client == r.client == issued.client && a.sub == r.sub == issued.sub
             && a.audience == r.audience == issued.audience && a.scope <= issued.scope && r.scope <= issued.scope
    requires Guard(w, Revoke(jti, rotation))
    ensures GuardedAll(w, [Revoke(jti, rotation), PutToken(access, a), PutToken(refresh, r)])
  {
    GuardAfterRotation(w, jti, f, rotation, access, a);
    GuardAfterRotation(w, jti, f, rotation, refresh, r);
    GuardAfterAccess(Apply(w, Revoke(jti, rotation)), access, a, refresh, r);
    Guarded3(w, Revoke(jti, rotation), PutToken(access, a), PutToken(refresh, r));
  }

  lemma RefreshGuarded(w: World, caller: Caller, jwt: Jwt, scope: Option<string>, resource: Option<Audience>,
                       access: Id, refresh: Id, now: Time)
    requires Inv(w) && Fresh(w, access) && Fresh(w, refresh) && access != refresh
    ensures GuardedAll(w, RefreshPlan(w, caller, jwt, scope, resource, access, refresh, now).commits)
  {
    var plan := RefreshPlan(w, caller, jwt, scope, resource, access, refresh, now);
    if plan.answer.Tokens? {
      RefreshRow(w, jwt);
      var rec := w.tokens[jwt.jti];
      var f := rec.parent.value;
      var granted := plan.answer.scope;
      var rotation := Revocation(now, Rotated);
      var revoke := Revoke(jwt.jti, rotation);
      var a := AccessToken(w, caller.id, rec.sub, rec.audience, granted, Some(f), now);
      var r := RefreshTokenRow(w, caller.id, rec.sub, rec.audience, granted, Some(f), now);
      RotationGuarded(w, jwt.jti, f, rotation, access, a, refresh, r);
      assert plan.commits == [revoke, PutToken(access, a), PutToken(refresh, r)];
    }
  }

  lemma ApproveGuarded(w: World, id: Id, req: AuthRequest, ceiling: set<Scope>, user: UserId,
                       granted: Option<set<Scope>>, remember: bool, code: Id, now: Time)
    requires Fresh(w, code) && req.scope <= ceiling
    ensures GuardedAll(w, ApproveCommits(w, id, req, ceiling, user, granted, remember, code, now))
  {
    var cs := ApproveCommits(w, id, req, ceiling, user, granted, remember, code, now);
    if remember {
      assert cs == [cs[0], cs[1], cs[2]];
      Guarded3(w, cs[0], cs[1], cs[2]);
    } else {
      assert cs == [cs[0], cs[1]];
      Guarded2(w, cs[0], cs[1]);
    }
  }

  lemma StoreGuarded(w: World, requestId: Id, req: AuthRequest, ceiling: set<Scope>, user: Option<UserId>, code: Id,
                     now: Time)
    requires Fresh(w, code) && req.scope <= ceiling
    ensures GuardedAll(w, StorePlan(w, requestId, req, ceiling, user, code, now).commits)
  {
    var cs := StorePlan(w, requestId, req, ceiling, user, code, now).commits;
    var put := PutRequest(requestId, req, ceiling);
    if |cs| > 1 {
      ApproveGuarded(Apply(w, put), requestId, req, ceiling, user.value, None, false, code, now);
      assert cs[1..] == ApproveCommits(w, requestId, req, ceiling, user.value, None, false, code, now);
    } else {
      Guarded1(w, put);
    }
  }

  lemma AuthorizeGuarded(w: World, dir: Directory, p: AuthorizeParams, user: Option<UserId>, requestId: Id, code: Id,
                         now: Time)
    requires Fresh(w, code)
    ensures GuardedAll(w, AuthorizePlan(w, dir, p, user, requestId, code, now).commits)
  {
    if AuthorizeCheck(w, p).None? {
      var c := w.clients[p.client];
      var target := ResolveResource(dir, if p.resource.Some? then p.resource else c.defaultResource);
      if target.Ok? {
        var (audience, service) := target.value;
        var scope := ResolveScope(dir, p.scope, c.scope, service);
        if scope.Ok? {
          GrantReadsBackIff(dir, p.scope, c.scope, service);
          StoreGuarded(w, requestId,
                       AuthRequest(p.client, p.redirectUri, Carried(scope.value), audience, p.challenge,
                                   now + AUTH_REQUEST_SECONDS, None),
                       Carried(Ceiling(dir, c.scope, service)), user, code, now);
        }
      }
    }
  }

  lemma DecideGuarded(w: World, requestId: Id, user: UserId, approve: bool, granted: Option<set<Scope>>,
                      remember: bool, code: Id, now: Time)
    requires Inv(w) && Fresh(w, code)
    ensures GuardedAll(w, DecidePlan(w, requestId, user, approve, granted, remember, code, now).commits)
  {
    if requestId in w.requests {
      var req := w.requests[requestId];
      if approve {
        ApproveGuarded(w, requestId, req, w.ceilings[requestId], user, granted, remember, code, now);
      } else {
        Guarded1(w, DecideRequest(requestId, now));
      }
    }
  }

  lemma RevokeAndChainGuarded(w: World, id: Id, r: Revocation)
    requires id in w.tokens
    ensures GuardedAll(w, RevokeAndChain(w, id, r))
  {
    var cs := RevokeAndChain(w, id, r);
    var a, b := Revoke(id, r), RevokeFamily(ChainOf(w, id), r);
    Guarded1(w, a);
    Guarded1(w, b);
    Guarded2(w, a, b);
    assert cs == [] || cs == [a] || cs == [b] || cs == [a, b];
  }

  lemma MintProbeGuarded(w: World, jti: Id, audience: Audience, now: Time)
    requires Inv(w)
    ensures GuardedAll(w, MintProbePlan(w, jti, audience, now).commits)
  {
    var plan := MintProbePlan(w, jti, audience, now);
    if plan.answer.Done? {
      assert SameIssue(w.tokens[jti], w.facts[jti].token);
      assert JwtAgrees(plan.commits[0].jwt, w.facts[jti].token);
      Guarded1(w, plan.commits[0]);
      assert plan.commits == [plan.commits[0]];
    }
  }

  lemma SingleTokenGuarded(w: World, id: Id, t: Token)
    requires Fresh(w, id) && t.kind != Refresh && t.parent.None? && t.revoked.None?
    ensures GuardedAll(w, [PutToken(id, t)])
  {
    Guarded1(w, PutToken(id, t));
  }

  lemma CleanupGuarded(w: World, now: Time)
    requires now <= w.clock
    ensures GuardedAll(w, CleanupPlan(now).commits)
  {
    var cs := CleanupPlan(now).commits;
    Guarded3(w, cs[0], cs[1], cs[2]);
  }

  lemma ConsoleGuarded(w: World, c: Call)
    requires Inv(w) && FreshIds(w, c) && c.now <= w.clock
    requires c.Register? || c.ApproveClient? || c.RevokeClient? || c.DeleteClient? || c.ForgetConsent? || c.Cleanup?
             || c.MintScanner? || c.Introspect?
    ensures GuardedAll(w, PlanOf(w, c).commits)
  {
    var cs := PlanOf(w, c).commits;
    if |cs| == 1 {
      assert cs == [cs[0]];
      Guarded1(w, cs[0]);
    } else if |cs| == 2 {
      assert cs == [cs[0], cs[1]];
      Guarded2(w, cs[0], cs[1]);
    } else if |cs| == 3 {
      assert cs == [cs[0], cs[1], cs[2]];
      Guarded3(w, cs[0], cs[1], cs[2]);
    }
  }

  /** Every endpoint performs its commits in an order in which each is guarded. */
  lemma PlanIsGuarded(w: World, c: Call)
    requires Inv(w) && FreshIds(w, c) && c.now <= w.clock
    ensures GuardedAll(w, PlanOf(w, c).commits)
  {
    match c
    case Authorize(now, dir, params, session, requestId, code) =>
      AuthorizeGuarded(w, dir, params, session, requestId, code, now);
    case Decide(now, requestId, user, approve, granted, remember, code) =>
      DecideGuarded(w, requestId, user, approve, granted, remember, code, now);
    case RedeemCode(now, caller, code, uri, verifier, resource, access, refresh) =>
      RedeemGuarded(w, caller, code, uri, verifier, resource, access, refresh, now);
    case RefreshTokens(now, caller, jwt, scope, resource, access, refresh) =>
      RefreshGuarded(w, caller, jwt, scope, resource, access, refresh, now);
    case ClientCredentialsGrant(now, caller, dir, scope, resource, access) =>
      var plan := ClientCredentialsPlan(w, caller, dir, scope, resource, access, now);
      if plan.answer.Tokens? { SingleTokenGuarded(w, access, plan.commits[0].token); }
    case RevokeToken(now, caller, jwt) =>
      if jwt.jti in w.tokens { RevokeAndChainGuarded(w, jwt.jti, Revocation(now, ClientRevoke)); }
    case AdminRevokeToken(now, jti) =>
      if jti in w.tokens { RevokeAndChainGuarded(w, jti, Revocation(now, AdminRevoke)); }
    case MintPersonal(now, dir, user, console, audience, scope, days, pat) =>
      var plan := MintPersonalPlan(w, dir, user, console, audience, scope, days, pat, now);
      if plan.answer.Tokens? { SingleTokenGuarded(w, pat, plan.commits[0].token); }
    case MintProbe(now, jti, audience) => MintProbeGuarded(w, jti, audience, now);
    case _ => ConsoleGuarded(w, c);
  }

  // ---------------------------------------------------------------- runs

  lemma ArrivingKeepsInv(w: World, c: Call)
    requires Inv(w) && w.clock <= c.now
    ensures Inv(Arrive(w, c))
  {
  }

  lemma StepKeepsInv(w: World, a: Action)
    requires Inv(w) && Enabled(w, a)
    ensures Inv(Step(w, a))
  {
    var w1 := Arrive(w, a.call);
    ArrivingKeepsInv(w, a.call);
    PlanIsGuarded(w1, a.call);
    GuardedPrefixKeepsInv(w1, PlanOf(w1, a.call).commits, Performed(w, a));
  }

  /** The invariant holds after every run, of whatever length and cut off after whichever commits. */
  lemma {:induction false} RunKeepsInv(w: World, actions: seq<Action>)
    requires Inv(w) && ValidRun(w, actions)
    ensures Inv(Run(w, actions))
    decreases |actions|
  {
    if actions != [] {
      StepKeepsInv(w, actions[0]);
      RunKeepsInv(Step(w, actions[0]), actions[1..]);
    }
  }

  lemma {:induction false} RunAppend(start: World, actions: seq<Action>, a: Action)
    ensures Run(start, actions + [a]) == Step(Run(start, actions), a)
    ensures ValidRun(start, actions + [a]) <==> ValidRun(start, actions) && Enabled(Run(start, actions), a)
    decreases |actions|
  {
    if actions == [] {
      assert [] + [a] == [a] && [a][1..] == [];
    } else {
      assert (actions + [a])[1..] == actions[1..] + [a];
      RunAppend(Step(start, actions[0]), actions[1..], a);
    }
  }

  lemma EmptyInv(cfg: Config, clock: Time)
    ensures Inv(Empty(cfg, clock))
  {
  }
}
