/**
 What each endpoint does: the commits it performs, in order, and its answer.

 Requests run one at a time, so a request's commits are determined by the world it starts in. `Plan` lists them;
 a run that dies after some commit has applied a prefix of the list.
 */
module OAuthEndpoints {
  import opened Prelude
  import opened ScopeRegistry
  import opened OAuthTables

  datatype OAuthError =
    | InvalidClient | UnauthorizedClient | AccessDenied | BadRequest | UnsupportedResponseType
    | BadGrant | BadTarget | BadScope | AlreadyDecided | RequestExpired | NoSuchRequest | NoSuchClient | NoSuchToken
    | SystemClient | NoSuchConsent

  datatype Answer =
    | Tokens(access: Id, refresh: Option<Id>, scope: set<Scope>)
    | AskConsent(id: Id)
    | Redirect(code: Option<Id>)
    | Introspected(active: bool)
    | Done
    | Failed(error: OAuthError)

  datatype Plan = Plan(commits: seq<Commit>, answer: Answer)

  /** Who is calling the token, revoke or introspect endpoint; `proved` is the outcome of the credential check. */
  datatype Caller = Caller(id: ClientId, proved: bool)

  datatype AuthorizeParams = AuthorizeParams(
    client: ClientId, redirectUri: Uri, responseTypeIsCode: bool, challenge: Option<Challenge>, methodIsS256: bool,
    scope: Option<string>, resource: Option<Audience>)

  datatype Call =
    | Register(now: Time, id: ClientId, client: Client)
    | ApproveClient(now: Time, id: ClientId)
    | RevokeClient(now: Time, id: ClientId)
    | DeleteClient(now: Time, id: ClientId)
    | Authorize(now: Time, dir: Directory, params: AuthorizeParams, session: Option<UserId>, requestId: Id, code: Id)
    | Decide(now: Time, requestId: Id, user: UserId, approve: bool, granted: Option<set<Scope>>, remember: bool, code: Id)
    | RedeemCode(now: Time, caller: Caller, code: Id, redirectUri: Uri, verifier: string, resource: Option<Audience>,
                 access: Id, refresh: Id)
    | RefreshTokens(now: Time, caller: Caller, jwt: Jwt, scope: Option<string>, resource: Option<Audience>,
                    access: Id, refresh: Id)
    | ClientCredentialsGrant(now: Time, caller: Caller, dir: Directory, scope: Option<string>,
                             resource: Option<Audience>, access: Id)
    | RevokeToken(now: Time, caller: Caller, jwt: Jwt)
    | Introspect(now: Time, caller: Caller, jwt: Jwt)
    | AdminRevokeToken(now: Time, jti: Id)
    | MintPersonal(now: Time, dir: Directory, user: UserId, console: ClientId, audience: Audience,
                   scope: Option<string>, days: int, pat: Id)
    | MintProbe(now: Time, jti: Id, audience: Audience)
    | MintScanner(now: Time, dir: Directory, scanner: ClientId, service: Option<Service>, audience: Audience, jti: Id)
    | ForgetConsent(now: Time, key: ConsentKey)
    | Cleanup(now: Time)

  // ---------------------------------------------------------------- helpers shared by endpoints

  function Fail(e: OAuthError): Plan { Plan([], Failed(e)) }

  /** `authenticate_client`: the client exists, is active, is approved and proved itself. */
  function Authenticate(w: World, caller: Caller): Option<OAuthError> {
    if caller.id !in w.clients || !w.clients[caller.id].active then Some(InvalidClient)
    else if !w.clients[caller.id].approved then Some(UnauthorizedClient)
    else if !caller.proved then Some(InvalidClient)
    else None
  }

  /** The checks before every grant: authentication, then the client's allowed grant types. */
  function MayUse(w: World, caller: Caller, g: GrantType): Option<OAuthError> {
    if Authenticate(w, caller).Some? then Authenticate(w, caller)
    else if g !in w.clients[caller.id].grants then Some(UnauthorizedClient)
    else None
  }

  /** `verify_jwt`: signed here and not past `exp` by more than the leeway. */
  predicate Verifies(w: World, jwt: Jwt, now: Time) {
    jwt in w.jwts && jwt.exp as real > now - LEEWAY
  }

  function ExpiryOf(now: Time, seconds: nat): int { now.Floor + seconds }

  function AccessToken(w: World, client: ClientId, sub: UserId, audience: Option<Audience>, scope: set<Scope>,
                       parent: Option<Id>, now: Time): Token
  {
    Token(Access, Some(client), sub, audience, scope, parent, ExpiryOf(now, w.cfg.accessSeconds), None)
  }

  function RefreshTokenRow(w: World, client: ClientId, sub: UserId, audience: Option<Audience>, scope: set<Scope>,
                        parent: Option<Id>, now: Time): Token
  {
    Token(Refresh, Some(client), sub, audience, scope, parent, ExpiryOf(now, w.cfg.refreshSeconds), None)
  }

  /** `rec.parent_jti or rec.jti` */
  function ChainOf(w: World, id: Id): Id
    requires id in w.tokens
  {
    if w.tokens[id].parent.Some? then w.tokens[id].parent.value else id
  }

  /** `OAuthTokenCRUD.revoke` commits only when it changes something. */
  function RevokeOnce(w: World, id: Id, r: Revocation): seq<Commit>
    requires id in w.tokens
  {
    if w.tokens[id].revoked.None? then [Revoke(id, r)] else []
  }

  function RevokeAndChain(w: World, id: Id, r: Revocation): seq<Commit>
    requires id in w.tokens
  {
    RevokeOnce(w, id, r) + (if w.tokens[id].kind == Refresh then [RevokeFamily(ChainOf(w, id), r)] else [])
  }

  /** `should_skip_consent` */
  predicate SkipsConsent(w: World, user: UserId, client: ClientId, audience: Option<Audience>, requested: set<Scope>) {
    && client in w.clients
    && (w.clients[client].via == Manual
        || ((user, client, audience) in w.consents && requested <= w.consents[(user, client, audience)]))
  }

  // ---------------------------------------------------------------- authorization

  /** `approve_request`: the code, then the remembered consent, then the decision, each its own commit. */
  function ApproveCommits(w: World, id: Id, req: AuthRequest, ceiling: set<Scope>, user: UserId,
                          granted: Option<set<Scope>>, remember: bool, code: Id, now: Time): seq<Commit>
  {
    var scope := if granted.None? then req.scope else req.scope * granted.value;
    [PutCode(code, Code(req.client, user, req.redirectUri, scope, req.audience, req.challenge,
                        now + w.cfg.codeSeconds as real, None), req.scope, ceiling)]
    + (if remember then [Remember((user, req.client, req.audience), scope)] else [])
    + [DecideRequest(id, now)]
  }

  /** The parameter checks of `begin_authorization`, up to scope resolution. */
  function AuthorizeCheck(w: World, p: AuthorizeParams): Option<OAuthError> {
    if p.client !in w.clients || !w.clients[p.client].active then Some(InvalidClient)
    else
      var c := w.clients[p.client];
      if !c.approved then Some(AccessDenied)
      else if p.redirectUri !in c.redirectUris then Some(BadRequest)
      else if !p.responseTypeIsCode then Some(UnsupportedResponseType)
      else if AuthorizationCode !in c.grants then Some(UnauthorizedClient)
      else if p.challenge.Some? && !p.methodIsS256 then Some(BadRequest)
      else if p.challenge.None? && (c.requirePkce || !c.hasSecret) then Some(BadRequest)
      else None
  }

  /** The request is stored and, when a signed-in user need not be asked, approved at once. */
  function StorePlan(w: World, requestId: Id, req: AuthRequest, ceiling: set<Scope>, user: Option<UserId>, code: Id,
                     now: Time): Plan
  {
    var put := PutRequest(requestId, req, ceiling);
    if user.Some? && SkipsConsent(w, user.value, req.client, req.audience, req.scope) then
      Plan([put] + ApproveCommits(w, requestId, req, ceiling, user.value, None, false, code, now), Redirect(Some(code)))
    else
      Plan([put], AskConsent(requestId))
  }

  /** The route behind /oauth/authorize. */
  function AuthorizePlan(w: World, dir: Directory, p: AuthorizeParams, user: Option<UserId>, requestId: Id, code: Id,
                         now: Time): Plan
  {
    var check := AuthorizeCheck(w, p);
    if check.Some? then Fail(check.value)
    else
      var c := w.clients[p.client];
      var target := ResolveResource(dir, if p.resource.Some? then p.resource else c.defaultResource);
      if target.Err? then Fail(BadTarget)
      else
        var (audience, service) := target.value;
        var scope := ResolveScope(dir, p.scope, c.scope, service);
        if scope.Err? then Fail(BadScope)
        else
          var ceiling := Carried(Ceiling(dir, c.scope, service));
          var req := AuthRequest(p.client, p.redirectUri, Carried(scope.value), audience, p.challenge,
                                 now + AUTH_REQUEST_SECONDS, None);
          StorePlan(w, requestId, req, ceiling, user, code, now)
  }

  function DecidePlan(w: World, requestId: Id, user: UserId, approve: bool, granted: Option<set<Scope>>,
                      remember: bool, code: Id, now: Time): Plan
  {
    if requestId !in w.requests then Fail(NoSuchRequest)
    else
      var req := w.requests[requestId];
      if req.decidedAt.Some? then Fail(AlreadyDecided)
      else if req.expires < now then Fail(RequestExpired)
      else if approve then
        var ceiling := if requestId in w.ceilings then w.ceilings[requestId] else {};
        Plan(ApproveCommits(w, requestId, req, ceiling, user, granted, remember, code, now), Redirect(Some(code)))
      else
        Plan([DecideRequest(requestId, now)], Redirect(None))
  }

  // ---------------------------------------------------------------- grants

  predicate PkceHolds(code: Code, client: Client, verifier: string) {
    if code.challenge.Some? then verifier != "" && code.challenge == Some(DigestOf(verifier))
    else !client.requirePkce && client.hasSecret
  }

  function RedeemPlan(w: World, caller: Caller, codeId: Id, redirectUri: Uri, verifier: string,
                      resource: Option<Audience>, access: Id, refresh: Id, now: Time): Plan
  {
    var denied := MayUse(w, caller, AuthorizationCode);
    if denied.Some? then Fail(denied.value)
    else if codeId !in w.codes then Fail(BadGrant)
    else
      var code, client := w.codes[codeId], w.clients[caller.id];
      if code.usedAt.Some? then
        Plan([RevokeFamily(codeId, Revocation(now, CodeReplay))], Failed(BadGrant))
      else if code.expires < now || code.client != caller.id || code.redirectUri != redirectUri
              || !PkceHolds(code, client, verifier) then Fail(BadGrant)
      else if resource.Some? && resource != code.audience then Fail(BadTarget)
      else
        var withRefresh := RefreshToken in client.grants;
        Plan([UseCode(codeId, now),
              PutToken(access, AccessToken(w, caller.id, code.user, code.audience, code.scope, Some(codeId), now))]
             + (if withRefresh then
                  [PutToken(refresh, RefreshTokenRow(w, caller.id, code.user, code.audience, code.scope,
                                                     Some(codeId), now))]
                else []),
             Tokens(access, if withRefresh then Some(refresh) else None, code.scope))
  }

  /** The scope a refresh asks for: what was held, unless the parameter is there and not empty. */
  function Wanted(requested: Option<string>, held: set<Scope>): set<Scope> {
    if requested.Some? && requested.value != "" then WordsOf(requested.value) else held
  }

  function RefreshPlan(w: World, caller: Caller, jwt: Jwt, requested: Option<string>, resource: Option<Audience>,
                       access: Id, refresh: Id, now: Time): Plan
  {
    var denied := MayUse(w, caller, RefreshToken);
    if denied.Some? then Fail(denied.value)
    else if !Verifies(w, jwt, now) || jwt.use != RefreshUse || jwt.client != Some(caller.id) then Fail(BadGrant)
    else if jwt.jti !in w.tokens then Fail(BadGrant)
    else
      var rec := w.tokens[jwt.jti];
      if resource.Some? && resource != rec.audience then Fail(BadTarget)
      else if rec.revoked.Some? then
        Plan(if rec.revoked.value.reason == Rotated
             then [RevokeFamily(ChainOf(w, jwt.jti), Revocation(now, RefreshReplay))] else [],
             Failed(BadGrant))
      else if !(Wanted(requested, rec.scope) <= rec.scope) then Fail(BadScope)
      else
        var scope := Wanted(requested, rec.scope);
        var chain := Some(ChainOf(w, jwt.jti));
        Plan([Revoke(jwt.jti, Revocation(now, Rotated)),
              PutToken(access, AccessToken(w, caller.id, rec.sub, rec.audience, scope, chain, now)),
              PutToken(refresh, RefreshTokenRow(w, caller.id, rec.sub, rec.audience, scope, chain, now))],
             Tokens(access, Some(refresh), scope))
  }

  function ClientCredentialsPlan(w: World, caller: Caller, dir: Directory, requested: Option<string>,
                                 resource: Option<Audience>, access: Id, now: Time): Plan
  {
    var denied := MayUse(w, caller, ClientCredentials);
    if denied.Some? then Fail(denied.value)
    else
      var target := ResolveResource(dir, resource);
      if target.Err? then Fail(BadTarget)
      else
        var scope := ResolveScope(dir, requested, w.clients[caller.id].scope, target.value.1);
        if scope.Err? then Fail(BadScope)
        else
          var words := Carried(scope.value);
          Plan([PutToken(access, AccessToken(w, caller.id, caller.id, target.value.0, words, None, now))],
               Tokens(access, None, words))
  }

  // ---------------------------------------------------------------- revoke, introspect, console

  function RevokeTokenPlan(w: World, caller: Caller, jwt: Jwt, now: Time): Plan {
    var denied := Authenticate(w, caller);
    if denied.Some? then Fail(denied.value)
    else if !Verifies(w, jwt, now) || jwt.client != Some(caller.id) || jwt.jti !in w.tokens then Plan([], Done)
    else Plan(RevokeAndChain(w, jwt.jti, Revocation(now, ClientRevoke)), Done)
  }

  function IntrospectPlan(w: World, caller: Caller, jwt: Jwt, now: Time): Plan {
    var denied := Authenticate(w, caller);
    if denied.Some? then Fail(denied.value)
    else
      Plan([], Introspected(
        && Verifies(w, jwt, now)
        && (jwt.client == Some(caller.id) || w.clients[caller.id].confidential)
        && (jwt.jti in w.tokens ==>
              w.tokens[jwt.jti].revoked.None? && !(w.tokens[jwt.jti].expires as real < now))))
  }

  function AdminRevokePlan(w: World, jti: Id, now: Time): Plan {
    if jti !in w.tokens then Fail(NoSuchToken)
    else Plan(RevokeAndChain(w, jti, Revocation(now, AdminRevoke)), Done)
  }

  function RevokeClientPlan(w: World, id: ClientId, now: Time): Plan {
    if id !in w.clients then Fail(NoSuchClient)
    else if w.clients[id].via == System then Fail(SystemClient)
    else Plan([PutClient(id, w.clients[id].(active := false)), RevokeByClient(id, Revocation(now, ClientRevoked))], Done)
  }

  /** `max(1, min(days, pat_max_days))` days. */
  function PatSeconds(cfg: Config, days: int): nat {
    var capped := if days < cfg.patMaxDays then days else cfg.patMaxDays;
    (if capped > 1 then capped else 1) * 86400
  }

  function MintPersonalPlan(w: World, dir: Directory, user: UserId, console: ClientId, audience: Audience,
                            requested: Option<string>, days: int, pat: Id, now: Time): Plan
  {
    if audience !in dir.services then Fail(BadTarget)
    else
      var scope := ResolveScope(dir, requested, None, Some(dir.services[audience]));
      if scope.Err? then Fail(BadScope)
      else
        var words := Carried(scope.value);
        Plan([PutToken(pat, Token(Pat, Some(console), user, Some(audience), words, None,
                                  ExpiryOf(now, PatSeconds(w.cfg, days)), None))],
             Tokens(pat, None, words))
  }

  function MintProbePlan(w: World, jti: Id, audience: Audience, now: Time): Plan {
    if jti !in w.tokens then Fail(NoSuchToken)
    else
      var rec := w.tokens[jti];
      if rec.kind == Refresh || rec.revoked.Some? || (rec.expires as real) < now || rec.audience != Some(audience)
      then Fail(BadRequest)
      else
        Plan([SignOnly(Jwt(jti, rec.client, AccessUse, rec.sub, Some(audience), rec.scope,
                           ExpiryOf(now, PROBE_SECONDS)))], Done)
  }

  /** A token for a registered server, or for a URL that is not one yet; signed, never recorded. */
  function MintScannerPlan(dir: Directory, scanner: ClientId, service: Option<Service>, audience: Audience, jti: Id,
                           now: Time): Plan
  {
    var scope := ResolveScope(dir, ScannerAsks(service), None, service);
    if scope.Err? then Fail(BadScope)
    else
      Plan([SignOnly(Jwt(jti, Some(scanner), AccessUse, scanner, Some(audience), Carried(scope.value),
                         ExpiryOf(now, PROBE_SECONDS)))], Done)
  }

  function RegisterPlan(id: ClientId, client: Client): Plan {
    Plan([PutClient(id, client)], Done)
  }

  function ApproveClientPlan(w: World, id: ClientId): Plan {
    if id !in w.clients then Fail(NoSuchClient)
    else Plan([PutClient(id, w.clients[id].(approved := true, active := true))], Done)
  }

  function DeleteClientPlan(w: World, id: ClientId): Plan {
    if id !in w.clients then Fail(NoSuchClient)
    else if w.clients[id].via == System then Fail(SystemClient)
    else Plan([DropClient(id)], Done)
  }

  function ForgetConsentPlan(w: World, key: ConsentKey): Plan {
    if key in w.consents then Plan([Forget(key)], Done) else Fail(NoSuchConsent)
  }

  /** `_cleanup_oauth`: three bulk deletes, each with its own cut-off. */
  function CleanupPlan(now: Time): Plan {
    Plan([DropRequests(now), DropCodes(now - CODE_GRACE), DropTokens(now - TOKEN_GRACE)], Done)
  }

  function PlanOf(w: World, c: Call): Plan {
    match c
    case Register(now, id, client) => RegisterPlan(id, client)
    case ApproveClient(now, id) => ApproveClientPlan(w, id)
    case RevokeClient(now, id) => RevokeClientPlan(w, id, now)
    case DeleteClient(now, id) => DeleteClientPlan(w, id)
    case Authorize(now, dir, params, user, requestId, code) => AuthorizePlan(w, dir, params, user, requestId, code, now)
    case Decide(now, requestId, user, approve, granted, remember, code) =>
      DecidePlan(w, requestId, user, approve, granted, remember, code, now)
    case RedeemCode(now, caller, code, uri, verifier, resource, access, refresh) =>
      RedeemPlan(w, caller, code, uri, verifier, resource, access, refresh, now)
    case RefreshTokens(now, caller, jwt, scope, resource, access, refresh) =>
      RefreshPlan(w, caller, jwt, scope, resource, access, refresh, now)
    case ClientCredentialsGrant(now, caller, dir, scope, resource, access) =>
      ClientCredentialsPlan(w, caller, dir, scope, resource, access, now)
    case RevokeToken(now, caller, jwt) => RevokeTokenPlan(w, caller, jwt, now)
    case Introspect(now, caller, jwt) => IntrospectPlan(w, caller, jwt, now)
    case AdminRevokeToken(now, jti) => AdminRevokePlan(w, jti, now)
    case MintPersonal(now, dir, user, console, audience, scope, days, pat) =>
      MintPersonalPlan(w, dir, user, console, audience, scope, days, pat, now)
    case MintProbe(now, jti, audience) => MintProbePlan(w, jti, audience, now)
    case MintScanner(now, dir, scanner, service, audience, jti) =>
      MintScannerPlan(dir, scanner, service, audience, jti, now)
    case ForgetConsent(now, key) => ForgetConsentPlan(w, key)
    case Cleanup(now) => CleanupPlan(now)
  }

  // ---------------------------------------------------------------- runs

  /** One request, of which the first `cut` commits happened (all of them when `cut` is at least their number). */
  datatype Action = Action(call: Call, cut: nat)

  /** The world as a request finds it. */
  function Arrive(w: World, c: Call): World {
    w.(clock := c.now)
  }

  function Performed(w: World, a: Action): (done: seq<Commit>)
    ensures done <= PlanOf(Arrive(w, a.call), a.call).commits
  {
    var commits := PlanOf(Arrive(w, a.call), a.call).commits;
    if a.cut < |commits| then commits[..a.cut] else commits
  }

  function Step(w: World, a: Action): World {
    ApplyAll(Arrive(w, a.call), Performed(w, a))
  }

  function Run(w: World, actions: seq<Action>): World
    decreases |actions|
  {
    if actions == [] then w else Run(Step(w, actions[0]), actions[1..])
  }

  /** Every commit of a run, in order. */
  function Log(w: World, actions: seq<Action>): seq<Commit>
    decreases |actions|
  {
    if actions == [] then [] else Performed(w, actions[0]) + Log(Step(w, actions[0]), actions[1..])
  }

  /** An id no code or token, recorded or merely signed, ever had. */
  ghost predicate Fresh(w: World, id: Id) {
    id !in w.facts && id !in w.families && forall j | j in w.jwts :: j.jti != id
  }

  ghost predicate FreshIds(w: World, c: Call) {
    match c
    case Authorize(_, _, _, _, requestId, code) => Fresh(w, code) && requestId !in w.requests
    case Decide(_, _, _, _, _, _, code) => Fresh(w, code)
    case RedeemCode(_, _, _, _, _, _, access, refresh) => Fresh(w, access) && Fresh(w, refresh) && access != refresh
    case RefreshTokens(_, _, _, _, _, access, refresh) => Fresh(w, access) && Fresh(w, refresh) && access != refresh
    case ClientCredentialsGrant(_, _, _, _, _, access) => Fresh(w, access)
    case MintPersonal(_, _, _, _, _, _, _, pat) => Fresh(w, pat)
    case MintScanner(_, _, _, _, _, jti) => Fresh(w, jti)
    case _ => true
  }

  /** The clock does not run backwards and generated ids are new. */
  ghost predicate Enabled(w: World, a: Action) {
    w.clock <= a.call.now && FreshIds(Arrive(w, a.call), a.call)
  }

  ghost predicate ValidRun(w: World, actions: seq<Action>)
    decreases |actions|
  {
    actions == [] || (Enabled(w, actions[0]) && ValidRun(Step(w, actions[0]), actions[1..]))
  }
}
