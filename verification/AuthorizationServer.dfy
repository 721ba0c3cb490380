/**
 The server as it runs: tables updated in place, one method per endpoint, one helper per adapter call that commits.

 Every method is proved against the endpoint's plan: it performs exactly the plan's commits, in the plan's order
 (`log` records them), and gives the plan's answer. What the plans guarantee is proved in FamilySafety.
 */
module AuthorizationServer {
  import opened Prelude
  import opened ScopeRegistry
  import opened OAuthTables
  import opened OAuthEndpoints
  import opened TokenFamilies
  import opened GrantRuns
  import opened FamilySafety

  lemma {:induction false} ApplyLast(w: World, cs: seq<Commit>, c: Commit)
    ensures ApplyAll(w, cs + [c]) == Apply(ApplyAll(w, cs), c)
  {
    ApplyAllAppend(w, cs, [c]);
    assert ApplyAll(ApplyAll(w, cs), [c]) == ApplyAll(Apply(ApplyAll(w, cs), c), []) by { assert [c][1..] == []; }
  }

  /** The loop of `revoke_family` and `revoke_by_client`: stamp the selected rows one by one and count them. */
  method StampRows(rows: map<Id, Token>, victims: set<Id>, r: Revocation) returns (out: map<Id, Token>, count: nat)
    requires victims <= rows.Keys
    ensures out == map k | k in rows :: if k in victims then rows[k].(revoked := Some(r)) else rows[k]
    ensures count == |victims|
  {
    out, count := rows, 0;
    var todo := victims;
    while todo != {}
      invariant todo <= victims && out.Keys == rows.Keys
      invariant forall k | k in rows ::
        out[k] == if k in victims && k !in todo then rows[k].(revoked := Some(r)) else rows[k]
      invariant count + |todo| == |victims|
      decreases todo
    {
      var k :| k in todo;
      out := out[k := out[k].(revoked := Some(r))];
      count := count + 1;
      todo := todo - {k};
    }
  }

  lemma RemovedCount<V>(m: map<Id, V>, gone: set<Id>)
    requires gone <= m.Keys
    ensures |m - gone| == |m| - |gone|
  {
    assert (m - gone).Keys == m.Keys - gone;
  }

  lemma RequestsLeft(requests: map<Id, AuthRequest>, stale: set<Id>, before: Time)
    requires stale == set k | k in requests && requests[k].expires < before
    ensures requests - stale == RequestsFrom(requests, before) && |requests - stale| == |requests| - |stale|
  {
    RemovedCount(requests, stale);
  }

  lemma CodesLeft(codes: map<Id, Code>, stale: set<Id>, before: Time)
    requires stale == set k | k in codes && codes[k].expires < before
    ensures codes - stale == CodesFrom(codes, before) && |codes - stale| == |codes| - |stale|
  {
    RemovedCount(codes, stale);
  }

  lemma TokensLeft(tokens: map<Id, Token>, stale: set<Id>, before: Time)
    requires stale == set k | k in tokens && tokens[k].expires as real < before
    ensures tokens - stale == TokensFrom(tokens, before) && |tokens - stale| == |tokens| - |stale|
  {
    RemovedCount(tokens, stale);
  }

  class Server {
    const cfg: Config
    var clients: map<ClientId, Client>
    var requests: map<Id, AuthRequest>
    var codes: map<Id, Code>
    var tokens: map<Id, Token>
    var consents: map<ConsentKey, set<Scope>>
    var signed: set<Jwt>                       // what the signature check accepts

    ghost var clock: Time
    ghost var ceilings: map<Id, set<Scope>>
    ghost var families: map<Id, Family>
    ghost var facts: map<Id, Fact>
    ghost var start: World                     // the world the current request found
    ghost var log: seq<Commit>                 // the commits of the current request so far

    ghost function W(): World
      reads this
    {
      World(cfg, clock, clients, requests, codes, tokens, consents, signed, ceilings, families, facts)
    }

    /** The tables are what the logged commits made of the world the request found. */
    ghost predicate Logged()
      reads this
    {
      W() == ApplyAll(start, log)
    }

    constructor (cfg: Config)
      ensures W() == Empty(cfg, 0.0) && Logged()
    {
      this.cfg := cfg;
      clients, requests, codes, tokens, consents, signed := map[], map[], map[], map[], map[], {};
      clock, ceilings, families, facts := 0.0, map[], map[], map[];
      start, log := Empty(cfg, 0.0), [];
    }

    ghost method Begin(now: Time)
      modifies this`clock, this`start, this`log
      ensures W() == old(W()).(clock := now) && start == W() && log == [] && Logged()
    {
      clock := now;
      start := W();
      log := [];
    }

    ghost method Record(c: Commit)
      requires W() == Apply(ApplyAll(start, log), c)
      modifies this`log
      ensures log == old(log) + [c] && Logged()
    {
      ApplyLast(start, log, c);
      log := log + [c];
    }

    // -------------------------------------------------------------- adapter calls that commit

    method SaveClient(id: ClientId, client: Client)
      requires Logged()
      modifies this`clients, this`log
      ensures Logged() && log == old(log) + [PutClient(id, client)]
    {
      clients := clients[id := client];
      Record(PutClient(id, client));
    }

    method MarkUsed(id: Id, now: Time)
      requires Logged() && id in codes
      modifies this`codes, this`log
      ensures Logged() && log == old(log) + [UseCode(id, now)]
    {
      codes := codes[id := codes[id].(usedAt := Some(now))];
      Record(UseCode(id, now));
    }

    method CreateToken(id: Id, row: Token)
      requires Logged()
      modifies this`tokens, this`facts, this`signed, this`log
      ensures Logged() && log == old(log) + [PutToken(id, row)]
    {
      tokens := tokens[id := row];
      facts := facts[id := Fact(row, |facts|)];
      signed := signed + {JwtOf(id, row)};
      Record(PutToken(id, row));
    }

    /** `issue_access_token` */
    method IssueAccessToken(id: Id, client: ClientId, sub: UserId, audience: Option<Audience>, scope: set<Scope>,
                            parent: Option<Id>, now: Time)
      requires Logged() && start.cfg == cfg
      modifies this`tokens, this`facts, this`signed, this`log
      ensures Logged()
      ensures log == old(log) + [PutToken(id, AccessToken(start, client, sub, audience, scope, parent, now))]
    {
      var expires := now.Floor + cfg.accessSeconds;
      CreateToken(id, Token(Access, Some(client), sub, audience, scope, parent, expires, None));
    }

    /** `issue_refresh_token` */
    method IssueRefreshToken(id: Id, client: ClientId, sub: UserId, audience: Option<Audience>, scope: set<Scope>,
                             parent: Option<Id>, now: Time)
      requires Logged() && start.cfg == cfg
      modifies this`tokens, this`facts, this`signed, this`log
      ensures Logged()
      ensures log == old(log) + [PutToken(id, RefreshTokenRow(start, client, sub, audience, scope, parent, now))]
    {
      var expires := now.Floor + cfg.refreshSeconds;
      CreateToken(id, Token(Refresh, Some(client), sub, audience, scope, parent, expires, None));
    }

    /** `OAuthTokenCRUD.revoke`: writes, and commits, only the first time. */
    method RevokeRow(id: Id, r: Revocation)
      requires Logged() && id in tokens
      modifies this`tokens, this`log
      ensures Logged() && log == old(log) + RevokeOnce(old(W()), id, r)
    {
      if tokens[id].revoked.None? {
        tokens := tokens[id := tokens[id].(revoked := Some(r))];
        Record(Revoke(id, r));
      }
    }

    /** `OAuthTokenCRUD.revoke_family`: every unrevoked row on the chain, then one commit. */
    method RevokeChain(parent: Id, r: Revocation)
      requires Logged()
      modifies this`tokens, this`log
      ensures Logged() && log == old(log) + [RevokeFamily(parent, r)]
    {
      var rows := set k | k in tokens && OnChain(k, tokens[k], parent) && tokens[k].revoked.None?;
      var count;
      tokens, count := StampRows(tokens, rows, r);
      assert tokens == RevokedChain(old(tokens), parent, r);
      Record(RevokeFamily(parent, r));
    }

    /** `OAuthTokenCRUD.revoke_by_client` */
    method RevokeByClientId(id: ClientId, r: Revocation)
      requires Logged()
      modifies this`tokens, this`log
      ensures Logged() && log == old(log) + [RevokeByClient(id, r)]
    {
      var rows := set k | k in tokens && tokens[k].client == Some(id) && tokens[k].revoked.None?;
      var count;
      tokens, count := StampRows(tokens, rows, r);
      assert tokens == RevokedOfClient(old(tokens), id, r);
      Record(RevokeByClient(id, r));
    }

    /** `OAuthConsentCRUD.upsert` */
    method UpsertConsent(key: ConsentKey, scopes: set<Scope>)
      requires Logged()
      modifies this`consents, this`log
      ensures Logged() && log == old(log) + [Remember(key, scopes)]
    {
      var stored := if key in consents then consents[key] else {};
      consents := consents[key := stored + scopes];
      Record(Remember(key, scopes));
    }

    // -------------------------------------------------------------- endpoints

    /** The request performed the plan: its commits, all of them, in its order; and gave its answer. */
    ghost predicate Performed(now: Time, before: World, plan: Plan, answer: Answer)
      reads this
    {
      start == before.(clock := now) && Logged() && log == plan.commits && answer == plan.answer
    }

    method AuthorizationCodeGrant(now: Time, caller: Caller, code: Id, redirectUri: Uri, verifier: string,
                                  resource: Option<Audience>, access: Id, refresh: Id) returns (answer: Answer)
      modifies this
      ensures Performed(now, old(W()),
                        RedeemPlan(start, caller, code, redirectUri, verifier, resource, access, refresh, now), answer)
    {
      Begin(now);
      var denied := CheckCaller(caller, Some(AuthorizationCode));
      if denied.Some? { return Failed(denied.value); }
      var client := clients[caller.id];
      if code !in codes { return Failed(BadGrant); }
      var rec := codes[code];
      if rec.usedAt.Some? {
        RevokeChain(code, Revocation(now, CodeReplay));
        return Failed(BadGrant);
      }
      if rec.expires < now { return Failed(BadGrant); }
      if rec.client != caller.id { return Failed(BadGrant); }
      if rec.redirectUri != redirectUri { return Failed(BadGrant); }
      if rec.challenge.Some? {
        if verifier == "" || rec.challenge.value != DigestOf(verifier) { return Failed(BadGrant); }
      } else if client.requirePkce || !client.hasSecret {
        return Failed(BadGrant);
      }
      if resource.Some? && resource != rec.audience { return Failed(BadTarget); }
      var withRefresh := RefreshToken in client.grants;
      IssueForCode(code, rec, caller.id, withRefresh, access, refresh, now);
      answer := Tokens(access, if withRefresh then Some(refresh) else None, rec.scope);
    }

    /** The code is used up first; only then are its tokens issued. */
    method IssueForCode(code: Id, rec: Code, client: ClientId, withRefresh: bool, access: Id, refresh: Id, now: Time)
      requires Logged() && start.cfg == cfg && log == [] && code in codes
      modifies this`codes, this`tokens, this`facts, this`signed, this`log
      ensures Logged()
      ensures log == [UseCode(code, now),
                      PutToken(access, AccessToken(start, client, rec.user, rec.audience, rec.scope, Some(code), now))]
                     + if withRefresh then
                         [PutToken(refresh, RefreshTokenRow(start, client, rec.user, rec.audience, rec.scope,
                                                            Some(code), now))]
                       else []
    {
      MarkUsed(code, now);
      IssueAccessToken(access, client, rec.user, rec.audience, rec.scope, Some(code), now);
      if withRefresh {
        IssueRefreshToken(refresh, client, rec.user, rec.audience, rec.scope, Some(code), now);
      }
    }

    /** `authenticate_client`, then the grant-type check when there is one. */
    method CheckCaller(caller: Caller, grant: Option<GrantType>) returns (denied: Option<OAuthError>)
      ensures denied == if grant.Some? then MayUse(W(), caller, grant.value) else Authenticate(W(), caller)
    {
      if caller.id !in clients { return Some(InvalidClient); }
      var client := clients[caller.id];
      if !client.active { return Some(InvalidClient); }
      if !client.approved { return Some(UnauthorizedClient); }
      if !caller.proved { return Some(InvalidClient); }
      if grant.Some? && grant.value !in client.grants { return Some(UnauthorizedClient); }
      denied := None;
    }

    /** The presented row is revoked first; only then are its successors issued. */
    method Rotate(jti: Id, rec: Token, client: ClientId, scope: set<Scope>, family: Option<Id>, access: Id, refresh: Id,
                  now: Time)
      requires Logged() && start.cfg == cfg && log == []
      requires jti in tokens && tokens[jti] == rec && rec.revoked.None?
      modifies this`tokens, this`facts, this`signed, this`log
      ensures Logged()
      ensures log == [Revoke(jti, Revocation(now, Rotated)),
                      PutToken(access, AccessToken(start, client, rec.sub, rec.audience, scope, family, now)),
                      PutToken(refresh, RefreshTokenRow(start, client, rec.sub, rec.audience, scope, family, now))]
    {
      RevokeRow(jti, Revocation(now, Rotated));
      IssueAccessToken(access, client, rec.sub, rec.audience, scope, family, now);
      IssueRefreshToken(refresh, client, rec.sub, rec.audience, scope, family, now);
    }

    /** `verify_jwt` */
    method VerifyJwt(jwt: Jwt, expectUse: Option<Use>, now: Time) returns (ok: bool)
      ensures ok == (Verifies(W(), jwt, now) && (expectUse.Some? ==> jwt.use == expectUse.value))
    {
      if jwt !in signed { return false; }
      if jwt.exp as real <= now - LEEWAY { return false; }
      if expectUse.Some? && jwt.use != expectUse.value { return false; }
      ok := true;
    }

    method RefreshTokenGrant(now: Time, caller: Caller, jwt: Jwt, requested: Option<string>,
                             resource: Option<Audience>, access: Id, refresh: Id) returns (answer: Answer)
      modifies this
      ensures Performed(now, old(W()),
                        RefreshPlan(start, caller, jwt, requested, resource, access, refresh, now), answer)
    {
      Begin(now);
      var denied := CheckCaller(caller, Some(RefreshToken));
      if denied.Some? { return Failed(denied.value); }
      var verified := VerifyJwt(jwt, Some(RefreshUse), now);
      if !verified { return Failed(BadGrant); }
      if jwt.client != Some(caller.id) { return Failed(BadGrant); }
      if jwt.jti !in tokens { return Failed(BadGrant); }
      var rec := tokens[jwt.jti];
      if resource.Some? && resource != rec.audience { return Failed(BadTarget); }
      var family := if rec.parent.Some? then rec.parent.value else jwt.jti;
      if rec.revoked.Some? {
        if rec.revoked.value.reason == Rotated {
          RevokeChain(family, Revocation(now, RefreshReplay));
        }
        return Failed(BadGrant);
      }
      var scope := rec.scope;
      if requested.Some? && requested.value != "" {
        var wanted := WordsOf(requested.value);
        if !(wanted <= scope) { return Failed(BadScope); }
        scope := wanted;
      }
      Rotate(jwt.jti, rec, caller.id, scope, Some(family), access, refresh, now);
      answer := Tokens(access, Some(refresh), scope);
    }

    method ClientCredentialsGrant(now: Time, caller: Caller, dir: Directory, requested: Option<string>,
                                  resource: Option<Audience>, access: Id) returns (answer: Answer)
      modifies this
      ensures Performed(now, old(W()),
                        ClientCredentialsPlan(start, caller, dir, requested, resource, access, now), answer)
    {
      Begin(now);
      var denied := CheckCaller(caller, Some(ClientCredentials));
      if denied.Some? { return Failed(denied.value); }
      var target := ResolveResource(dir, resource);
      if target.Err? { return Failed(BadTarget); }
      var (audience, service) := target.value;
      var scope := ResolveScope(dir, requested, clients[caller.id].scope, service);
      if scope.Err? { return Failed(BadScope); }
      var words := Carried(scope.value);
      IssueAccessToken(access, caller.id, caller.id, audience, words, None, now);
      answer := Tokens(access, None, words);
    }

    // -------------------------------------------------------------- authorization and consent

    method SaveRequest(id: Id, row: AuthRequest, ghost ceiling: set<Scope>)
      requires Logged()
      modifies this`requests, this`ceilings, this`log
      ensures Logged() && log == old(log) + [PutRequest(id, row, ceiling)]
    {
      requests := requests[id := row];
      ceilings := ceilings[id := ceiling];
      Record(PutRequest(id, row, ceiling));
    }

    method SaveCode(id: Id, row: Code, ghost requested: set<Scope>, ghost ceiling: set<Scope>)
      requires Logged()
      modifies this`codes, this`families, this`log
      ensures Logged() && log == old(log) + [PutCode(id, row, requested, ceiling)]
    {
      codes := codes[id := row];
      families := families[id := Family(row.client, row.user, row.audience, row.scope, requested, ceiling)];
      Record(PutCode(id, row, requested, ceiling));
    }

    method MarkDecided(id: Id, now: Time)
      requires Logged()
      modifies this`requests, this`log
      ensures Logged() && log == old(log) + [DecideRequest(id, now)]
    {
      if id in requests { requests := requests[id := requests[id].(decidedAt := Some(now))]; }
      Record(DecideRequest(id, now));
    }

    /** `approve_request` */
    method ApproveRequest(id: Id, req: AuthRequest, ghost ceiling: set<Scope>, user: UserId,
                          granted: Option<set<Scope>>, remember: bool, code: Id, now: Time)
      requires Logged() && start.cfg == cfg
      modifies this`codes, this`families, this`consents, this`requests, this`log
      ensures Logged()
      ensures log == old(log) + ApproveCommits(start, id, req, ceiling, user, granted, remember, code, now)
    {
      var scope := req.scope;
      if granted.Some? { scope := set s | s in req.scope && s in granted.value; }
      assert granted.Some? ==> scope == req.scope * granted.value;
      SaveCode(code, Code(req.client, user, req.redirectUri, scope, req.audience, req.challenge,
                          now + cfg.codeSeconds as real, None), req.scope, ceiling);
      if remember { UpsertConsent((user, req.client, req.audience), scope); }
      MarkDecided(id, now);
    }

    /** `begin_authorization` and the route that calls it; `session` is the signed-in user, if any. */
    method Authorize(now: Time, dir: Directory, p: AuthorizeParams, session: Option<UserId>, requestId: Id, code: Id)
      returns (answer: Answer)
      modifies this
      ensures Performed(now, old(W()), AuthorizePlan(start, dir, p, session, requestId, code, now), answer)
    {
      Begin(now);
      if p.client !in clients { return Failed(InvalidClient); }
      var client := clients[p.client];
      if !client.active { return Failed(InvalidClient); }
      if !client.approved { return Failed(AccessDenied); }
      if p.redirectUri !in client.redirectUris { return Failed(BadRequest); }
      if !p.responseTypeIsCode { return Failed(UnsupportedResponseType); }
      if AuthorizationCode !in client.grants { return Failed(UnauthorizedClient); }
      if p.challenge.Some? {
        if !p.methodIsS256 { return Failed(BadRequest); }
      } else if client.requirePkce || !client.hasSecret {
        return Failed(BadRequest);
      }
      var target := ResolveResource(dir, if p.resource.Some? then p.resource else client.defaultResource);
      if target.Err? { return Failed(BadTarget); }
      var (audience, service) := target.value;
      var scope := ResolveScope(dir, p.scope, client.scope, service);
      if scope.Err? { return Failed(BadScope); }
      var expires := now + AUTH_REQUEST_SECONDS;
      var req := AuthRequest(p.client, p.redirectUri, Carried(scope.value), audience, p.challenge, expires, None);
      ghost var ceiling := Carried(Ceiling(dir, client.scope, service));
      answer := StoreRequest(now, requestId, req, ceiling, session, code);
    }

    method StoreRequest(now: Time, requestId: Id, req: AuthRequest, ghost ceiling: set<Scope>, session: Option<UserId>,
                        code: Id) returns (answer: Answer)
      requires Logged() && start == W() && log == [] && req.client in clients
      modifies this`requests, this`ceilings, this`codes, this`families, this`consents, this`log
      ensures Logged() && log == StorePlan(start, requestId, req, ceiling, session, code, now).commits
      ensures answer == StorePlan(start, requestId, req, ceiling, session, code, now).answer
    {
      SaveRequest(requestId, req, ceiling);
      if session.Some? {
        var skip := ShouldSkipConsent(session.value, req.client, req.audience, req.scope);
        if skip {
          ApproveRequest(requestId, req, ceiling, session.value, None, false, code, now);
          return Redirect(Some(code));
        }
      }
      answer := AskConsent(requestId);
    }

    /** `should_skip_consent` */
    method ShouldSkipConsent(user: UserId, client: ClientId, audience: Option<Audience>, requested: set<Scope>)
      returns (skip: bool)
      requires client in clients
      ensures skip == SkipsConsent(W(), user, client, audience, requested)
    {
      if clients[client].via == Manual { return true; }
      var key := (user, client, audience);
      if key !in consents { return false; }
      skip := requested <= consents[key];
    }

    method DecideAuthorization(now: Time, requestId: Id, user: UserId, approve: bool, granted: Option<set<Scope>>,
                          remember: bool, code: Id) returns (answer: Answer)
      modifies this
      ensures Performed(now, old(W()), DecidePlan(start, requestId, user, approve, granted, remember, code, now), answer)
    {
      Begin(now);
      if requestId !in requests { return Failed(NoSuchRequest); }
      var req := requests[requestId];
      if req.decidedAt.Some? { return Failed(AlreadyDecided); }
      if req.expires < now { return Failed(RequestExpired); }
      if !approve {
        MarkDecided(requestId, now);
        return Redirect(None);
      }
      ghost var ceiling := if requestId in ceilings then ceilings[requestId] else {};
      ApproveRequest(requestId, req, ceiling, user, granted, remember, code, now);
      answer := Redirect(Some(code));
    }

    // -------------------------------------------------------------- revoke, introspect, console, cleanup

    /** A revoked refresh token takes its chain along. */
    method RevokeRowAndChain(id: Id, r: Revocation)
      requires Logged() && id in tokens && start == W() && log == []
      modifies this`tokens, this`log
      ensures Logged() && log == RevokeAndChain(start, id, r)
    {
      var rec := tokens[id];
      RevokeRow(id, r);
      if rec.kind == Refresh {
        RevokeChain(if rec.parent.Some? then rec.parent.value else id, r);
      }
    }

    /** RFC 7009: only the caller's own tokens; anything else is answered the same way and changes nothing. */
    method RevokeToken(now: Time, caller: Caller, jwt: Jwt) returns (answer: Answer)
      modifies this
      ensures Performed(now, old(W()), RevokeTokenPlan(start, caller, jwt, now), answer)
    {
      Begin(now);
      var denied := CheckCaller(caller, None);
      if denied.Some? { return Failed(denied.value); }
      var verified := VerifyJwt(jwt, None, now);
      if !verified { return Answer.Done; }
      if jwt.client != Some(caller.id) { return Answer.Done; }
      if jwt.jti !in tokens { return Answer.Done; }
      RevokeRowAndChain(jwt.jti, Revocation(now, ClientRevoke));
      answer := Answer.Done;
    }

    method AdminRevokeToken(now: Time, jti: Id) returns (answer: Answer)
      modifies this
      ensures Performed(now, old(W()), AdminRevokePlan(start, jti, now), answer)
    {
      Begin(now);
      if jti !in tokens { return Failed(NoSuchToken); }
      RevokeRowAndChain(jti, Revocation(now, AdminRevoke));
      answer := Answer.Done;
    }

    method RevokeClient(now: Time, id: ClientId) returns (answer: Answer)
      modifies this
      ensures Performed(now, old(W()), RevokeClientPlan(start, id, now), answer)
    {
      Begin(now);
      if id !in clients { return Failed(NoSuchClient); }
      if clients[id].via == System { return Failed(SystemClient); }
      SaveClient(id, clients[id].(active := false));
      RevokeByClientId(id, Revocation(now, ClientRevoked));
      answer := Answer.Done;
    }

    /** The stored outcome of a registration; validating the request is left out. */
    method Register(now: Time, id: ClientId, client: Client) returns (answer: Answer)
      modifies this
      ensures Performed(now, old(W()), RegisterPlan(id, client), answer)
    {
      Begin(now);
      SaveClient(id, client);
      answer := Answer.Done;
    }

    method ApproveClient(now: Time, id: ClientId) returns (answer: Answer)
      modifies this
      ensures Performed(now, old(W()), ApproveClientPlan(start, id), answer)
    {
      Begin(now);
      if id !in clients { return Failed(NoSuchClient); }
      SaveClient(id, clients[id].(approved := true, active := true));
      answer := Answer.Done;
    }

    /** The row goes, and with it the client's requests, codes and consents; its tokens stay, without a client. */
    method RemoveClient(id: ClientId)
      requires Logged()
      modifies this`clients, this`requests, this`codes, this`consents, this`tokens, this`log
      ensures Logged() && log == old(log) + [DropClient(id)]
    {
      clients := clients - {id};
      requests := RequestsOfOthers(requests, id);
      codes := CodesOfOthers(codes, id);
      consents := ConsentsOfOthers(consents, id);
      tokens := Orphaned(tokens, id);
      Record(DropClient(id));
    }

    method DeleteClient(now: Time, id: ClientId) returns (answer: Answer)
      modifies this
      ensures Performed(now, old(W()), DeleteClientPlan(start, id), answer)
    {
      Begin(now);
      if id !in clients { return Failed(NoSuchClient); }
      if clients[id].via == System { return Failed(SystemClient); }
      RemoveClient(id);
      answer := Answer.Done;
    }

    method DeleteConsent(now: Time, key: ConsentKey) returns (answer: Answer)
      modifies this
      ensures Performed(now, old(W()), ForgetConsentPlan(start, key), answer)
    {
      Begin(now);
      if key !in consents { return Failed(NoSuchConsent); }
      consents := consents - {key};
      Record(Forget(key));
      answer := Answer.Done;
    }

    method MintPersonal(now: Time, dir: Directory, user: UserId, console: ClientId, audience: Audience,
                        requested: Option<string>, days: int, pat: Id) returns (answer: Answer)
      modifies this
      ensures Performed(now, old(W()),
                        MintPersonalPlan(start, dir, user, console, audience, requested, days, pat, now), answer)
    {
      Begin(now);
      if audience !in dir.services { return Failed(BadTarget); }
      var scope := ResolveScope(dir, requested, None, Some(dir.services[audience]));
      if scope.Err? { return Failed(BadScope); }
      var expires := ExpiryOf(now, PatSeconds(cfg, days));
      var words := Carried(scope.value);
      CreateToken(pat, Token(Pat, Some(console), user, Some(audience), words, None, expires, None));
      answer := Tokens(pat, None, words);
    }

    method Introspect(now: Time, caller: Caller, jwt: Jwt) returns (answer: Answer)
      modifies this`clock, this`start, this`log
      ensures Performed(now, old(W()), IntrospectPlan(start, caller, jwt, now), answer)
    {
      Begin(now);
      var denied := CheckCaller(caller, None);
      if denied.Some? { return Failed(denied.value); }
      var verified := VerifyJwt(jwt, None, now);
      if !verified { return Introspected(false); }
      if jwt.client != Some(caller.id) && !clients[caller.id].confidential { return Introspected(false); }
      if jwt.jti in tokens {
        var rec := tokens[jwt.jti];
        if rec.revoked.Some? || rec.expires as real < now { return Introspected(false); }
      }
      answer := Introspected(true);
    }

    method MintProbe(now: Time, jti: Id, audience: Audience) returns (answer: Answer)
      modifies this
      ensures Performed(now, old(W()), MintProbePlan(start, jti, audience, now), answer)
    {
      Begin(now);
      if jti !in tokens { return Failed(NoSuchToken); }
      var rec := tokens[jti];
      if rec.kind == Refresh { return Failed(BadRequest); }
      if rec.revoked.Some? || rec.expires as real < now { return Failed(BadRequest); }
      if rec.audience != Some(audience) { return Failed(BadRequest); }
      var copy := Jwt(jti, rec.client, AccessUse, rec.sub, Some(audience), rec.scope, now.Floor + PROBE_SECONDS);
      signed := signed + {copy};
      Record(SignOnly(copy));
      answer := Answer.Done;
    }

    /** The scanner's own token: signed, never recorded. */
    method MintScanner(now: Time, dir: Directory, scanner: ClientId, service: Option<Service>, audience: Audience,
                       jti: Id) returns (answer: Answer)
      modifies this
      ensures Performed(now, old(W()), MintScannerPlan(dir, scanner, service, audience, jti, now), answer)
    {
      Begin(now);
      var scope := ResolveScope(dir, ScannerAsks(service), None, service);
      if scope.Err? { return Failed(BadScope); }
      var jwt := Jwt(jti, Some(scanner), AccessUse, scanner, Some(audience), Carried(scope.value),
                     now.Floor + PROBE_SECONDS);
      signed := signed + {jwt};
      Record(SignOnly(jwt));
      answer := Answer.Done;
    }

    method DeleteExpiredRequests(before: Time) returns (deleted: nat)
      requires Logged()
      modifies this`requests, this`log
      ensures Logged() && log == old(log) + [DropRequests(before)] && deleted == |old(requests)| - |requests|
    {
      var stale := set k | k in requests && requests[k].expires < before;
      RequestsLeft(requests, stale, before);
      requests := requests - stale;
      Record(DropRequests(before));
      deleted := |stale|;
    }

    method DeleteExpiredCodes(before: Time) returns (deleted: nat)
      requires Logged()
      modifies this`codes, this`log
      ensures Logged() && log == old(log) + [DropCodes(before)] && deleted == |old(codes)| - |codes|
    {
      var stale := set k | k in codes && codes[k].expires < before;
      CodesLeft(codes, stale, before);
      codes := codes - stale;
      Record(DropCodes(before));
      deleted := |stale|;
    }

    method DeleteExpiredTokens(before: Time) returns (deleted: nat)
      requires Logged()
      modifies this`tokens, this`log
      ensures Logged() && log == old(log) + [DropTokens(before)] && deleted == |old(tokens)| - |tokens|
    {
      var stale := set k | k in tokens && tokens[k].expires as real < before;
      TokensLeft(tokens, stale, before);
      tokens := tokens - stale;
      Record(DropTokens(before));
      deleted := |stale|;
    }

    /** `_cleanup_oauth`: three bulk deletes, three commits; the total is reported. */
    method Cleanup(now: Time) returns (deleted: nat)
      modifies this
      ensures start == old(W()).(clock := now) && Logged()
      ensures log == [DropRequests(now), DropCodes(now - CODE_GRACE), DropTokens(now - TOKEN_GRACE)]
      ensures deleted == |old(requests)| - |requests| + |old(codes)| - |codes| + |old(tokens)| - |tokens|
    {
      Begin(now);
      deleted := DeleteExpiredRequests(now);
      var n := DeleteExpiredCodes(now - CODE_GRACE);
      deleted := deleted + n;
      n := DeleteExpiredTokens(now - TOKEN_GRACE);
      deleted := deleted + n;
    }

    // -------------------------------------------------------------- what holds of the object

    /** The tables are those of some run of requests from empty tables: every theorem about runs holds of them. */
    ghost predicate Valid()
      reads this
    {
      Reachable(W())
    }

    /** The request was served safely: the tables it leaves, and those after each of its commits, are reachable, given
        that the tables it found were, that the clock went forward and that generated ids are new. */
    ghost predicate Served(before: World, call: Call)
      reads this
    {
      Reachable(before) && Enabled(before, Action(call, 0)) ==>
        Valid() && forall k | 0 <= k <= |log| :: Reachable(ApplyAll(start, log[..k]))
    }

    /** Whatever endpoint performed its plan has served its request safely. */
    lemma PerformedIsServed(before: World, call: Call, answer: Answer)
      requires Performed(call.now, before, PlanOf(start, call), answer)
      ensures Served(before, call)
    {
      if Reachable(before) && Enabled(before, Action(call, 0)) {
        forall k | 0 <= k <= |log| ensures Reachable(ApplyAll(start, log[..k])) {
          ServedPrefixIsReachable(before, call, k);
        }
        assert log[..|log|] == log;
      }
    }

    method ServeAuthorization(call: Call) returns (answer: Answer)
      requires call.Authorize? || call.Decide? || call.ForgetConsent?
      modifies this
      ensures Performed(call.now, old(W()), PlanOf(start, call), answer)
    {
      match call {
        case Authorize(now, dir, params, session, requestId, code) =>
          answer := Authorize(now, dir, params, session, requestId, code);
        case Decide(now, requestId, user, approve, granted, remember, code) =>
          answer := DecideAuthorization(now, requestId, user, approve, granted, remember, code);
        case ForgetConsent(now, key) => answer := DeleteConsent(now, key);
      }
    }

    method ServeGrant(call: Call) returns (answer: Answer)
      requires call.RedeemCode? || call.RefreshTokens? || call.ClientCredentialsGrant?
      modifies this
      ensures Performed(call.now, old(W()), PlanOf(start, call), answer)
    {
      match call {
        case RedeemCode(now, caller, code, uri, verifier, resource, access, refresh) =>
          answer := AuthorizationCodeGrant(now, caller, code, uri, verifier, resource, access, refresh);
        case RefreshTokens(now, caller, jwt, scope, resource, access, refresh) =>
          answer := RefreshTokenGrant(now, caller, jwt, scope, resource, access, refresh);
        case ClientCredentialsGrant(now, caller, dir, scope, resource, access) =>
          answer := ClientCredentialsGrant(now, caller, dir, scope, resource, access);
      }
    }

    method ServeMint(call: Call) returns (answer: Answer)
      requires call.MintPersonal? || call.MintProbe? || call.MintScanner?
      modifies this
      ensures Performed(call.now, old(W()), PlanOf(start, call), answer)
    {
      match call {
        case MintPersonal(now, dir, user, console, audience, scope, days, pat) =>
          answer := MintPersonal(now, dir, user, console, audience, scope, days, pat);
        case MintProbe(now, jti, audience) => answer := MintProbe(now, jti, audience);
        case MintScanner(now, dir, scanner, service, audience, jti) =>
          answer := MintScanner(now, dir, scanner, service, audience, jti);
      }
    }

    method ServeConsole(call: Call) returns (answer: Answer)
      requires call.Register? || call.ApproveClient? || call.RevokeClient? || call.DeleteClient?
               || call.RevokeToken? || call.Introspect? || call.AdminRevokeToken? || call.Cleanup?
      modifies this
      ensures Performed(call.now, old(W()), PlanOf(start, call), answer)
    {
      match call {
        case Register(now, id, client) => answer := Register(now, id, client);
        case ApproveClient(now, id) => answer := ApproveClient(now, id);
        case RevokeClient(now, id) => answer := RevokeClient(now, id);
        case DeleteClient(now, id) => answer := DeleteClient(now, id);
        case RevokeToken(now, caller, jwt) => answer := RevokeToken(now, caller, jwt);
        case Introspect(now, caller, jwt) => answer := Introspect(now, caller, jwt);
        case AdminRevokeToken(now, jti) => answer := AdminRevokeToken(now, jti);
        case Cleanup(now) =>
          var _ := Cleanup(now);
          answer := Answer.Done;
      }
    }

    /** Any request, by whichever endpoint serves it: it performs its plan, and keeps the object on the runs the
        theorems are about - when it completes, and wherever it may be cut off. */
    method Serve(call: Call) returns (answer: Answer)
      modifies this
      ensures Performed(call.now, old(W()), PlanOf(start, call), answer)
      ensures Served(old(W()), call)
    {
      if call.Authorize? || call.Decide? || call.ForgetConsent? {
        answer := ServeAuthorization(call);
      } else if call.RedeemCode? || call.RefreshTokens? || call.ClientCredentialsGrant? {
        answer := ServeGrant(call);
      } else if call.MintPersonal? || call.MintProbe? || call.MintScanner? {
        answer := ServeMint(call);
      } else {
        answer := ServeConsole(call);
      }
      PerformedIsServed(old(W()), call, answer);
    }

    /** What the tables of a served object satisfy. */
    lemma TablesAreSafe()
      requires Valid()
      ensures Inv(W())
      ensures forall f, i, j | LiveRefresh(tokens, i, f) && LiveRefresh(tokens, j, f) :: i == j
      ensures forall k | k in tokens && tokens[k].parent.Some? ::
                tokens[k].parent.value in families && tokens[k].scope <= families[tokens[k].parent.value].scope
    {
      ReachableInv(W());
      forall k | k in tokens && tokens[k].parent.Some?
        ensures tokens[k].parent.value in families && tokens[k].scope <= families[tokens[k].parent.value].scope
      {
        assert SameIssue(tokens[k], facts[k].token);
        FamilyFixesTokens(W(), k);
      }
    }
  }
}
