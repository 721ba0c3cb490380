/**
 The authorization server's tables, and the atomic commits that change them.

 A `World` is what the database holds plus the facts history needs: every JWT ever signed, the origin of every
 code, and what every token was when it was issued (rows may later be deleted, facts never are). Each `Commit` is
 one `db.commit()` of an adapter call, so a run may stop between any two of them.

 Hashing is injective and signatures unforgeable: a code is its hash, and a presented token passes the signature
 check exactly when it was signed here. Audiences are already normalised.
 */
module OAuthTables {
  import opened Prelude
  import opened ScopeRegistry

  type Id = string          // jti, code hash or authorization-request id
  type ClientId = string
  type UserId = string
  type Uri = string

  const LEEWAY := 10.0                        // decode_rs256
  const PROBE_SECONDS := 120                  // SCANNER_TOKEN_TTL_SECONDS
  const TOKEN_GRACE := 604800.0               // delete_expired: 7 days
  const CODE_GRACE := 3600.0                  // delete_expired on codes: 1 hour
  const AUTH_REQUEST_SECONDS := 600.0         // AUTH_REQUEST_TTL

  datatype Config = Config(accessSeconds: nat, refreshSeconds: nat, codeSeconds: nat, patMaxDays: int)

  datatype GrantType = AuthorizationCode | RefreshToken | ClientCredentials
  datatype Via = Dcr | Manual | System
  datatype Kind = Access | Refresh | Pat
  datatype Use = AccessUse | RefreshUse
  datatype Reason = Rotated | RefreshReplay | CodeReplay | ClientRevoke | AdminRevoke | ClientRevoked
  /** `Opaque` is a stored challenge that is no verifier's digest. */
  datatype Challenge = DigestOf(verifier: string) | Opaque(text: string)

  datatype Client = Client(hasSecret: bool, confidential: bool, redirectUris: set<Uri>, grants: set<GrantType>,
                           scope: Option<set<Scope>>, requirePkce: bool, defaultResource: Option<Audience>,
                           via: Via, approved: bool, active: bool)

  datatype AuthRequest = AuthRequest(client: ClientId, redirectUri: Uri, scope: set<Scope>, audience: Option<Audience>,
                                     challenge: Option<Challenge>, expires: Time, decidedAt: Option<Time>)

  datatype Code = Code(client: ClientId, user: UserId, redirectUri: Uri, scope: set<Scope>, audience: Option<Audience>,
                       challenge: Option<Challenge>, expires: Time, usedAt: Option<Time>)

  datatype Revocation = Revocation(at: Time, reason: Reason)

  /** `expires` is a whole number of seconds in the program too: issue time plus lifetime, both integers.
      `client` becomes None when the client is deleted and its token history is kept. */
  datatype Token = Token(kind: Kind, client: Option<ClientId>, sub: UserId, audience: Option<Audience>,
                         scope: set<Scope>, parent: Option<Id>, expires: int, revoked: Option<Revocation>)

  datatype Jwt = Jwt(jti: Id, client: Option<ClientId>, use: Use, sub: UserId, audience: Option<Audience>,
                     scope: set<Scope>, exp: int)

  type ConsentKey = (UserId, ClientId, Option<Audience>)

  // ---------------------------------------------------------------- history

  /** Where a code came from: what its approval fixed, what was requested, and what the bound in force at /authorize
      carried. Scopes in these tables are the words of the stored strings. */
  datatype Family = Family(client: ClientId, sub: UserId, audience: Option<Audience>, scope: set<Scope>,
                           requested: set<Scope>, ceiling: set<Scope>)

  /** A token as it was issued; `serial` orders all tokens by issue. */
  datatype Fact = Fact(token: Token, serial: nat)

  datatype World = World(
    cfg: Config, clock: Time,
    clients: map<ClientId, Client>, requests: map<Id, AuthRequest>, codes: map<Id, Code>, tokens: map<Id, Token>,
    consents: map<ConsentKey, set<Scope>>,
    jwts: set<Jwt>, ceilings: map<Id, set<Scope>>, families: map<Id, Family>, facts: map<Id, Fact>)

  // ---------------------------------------------------------------- commits

  datatype Commit =
    | PutClient(clientId: ClientId, client: Client)
    | DropClient(clientId: ClientId)
    | PutRequest(id: Id, request: AuthRequest, ceiling: set<Scope>)
    | DecideRequest(id: Id, at: Time)
    | DropRequests(before: Time)
    | PutCode(id: Id, code: Code, requestScope: set<Scope>, ceiling: set<Scope>)
    | UseCode(id: Id, at: Time)
    | DropCodes(before: Time)
    | PutToken(id: Id, token: Token)
    | SignOnly(jwt: Jwt)
    | Revoke(id: Id, revocation: Revocation)
    | RevokeFamily(id: Id, revocation: Revocation)
    | RevokeByClient(clientId: ClientId, revocation: Revocation)
    | DropTokens(before: Time)
    | Remember(key: ConsentKey, scopes: set<Scope>)
    | Forget(key: ConsentKey)

  function JwtOf(id: Id, t: Token): Jwt {
    Jwt(id, t.client, if t.kind == Refresh then RefreshUse else AccessUse, t.sub, t.audience, t.scope, t.expires)
  }

  function Stamped(t: Token, r: Revocation): Token {
    if t.revoked.None? then t.(revoked := Some(r)) else t
  }

  predicate OnChain(id: Id, t: Token, parent: Id) {
    t.parent == Some(parent) || id == parent
  }

  function ForgetClientOf(t: Token, c: ClientId): Token {
    if t.client == Some(c) then t.(client := None) else t
  }

  function RequestsOfOthers(requests: map<Id, AuthRequest>, c: ClientId): map<Id, AuthRequest> {
    map i | i in requests && requests[i].client != c :: requests[i]
  }

  function CodesOfOthers(codes: map<Id, Code>, c: ClientId): map<Id, Code> {
    map i | i in codes && codes[i].client != c :: codes[i]
  }

  function ConsentsOfOthers(consents: map<ConsentKey, set<Scope>>, c: ClientId): map<ConsentKey, set<Scope>> {
    map key | key in consents && key.1 != c :: consents[key]
  }

  function Orphaned(tokens: map<Id, Token>, c: ClientId): map<Id, Token> {
    map i | i in tokens :: ForgetClientOf(tokens[i], c)
  }

  function RevokedChain(tokens: map<Id, Token>, parent: Id, r: Revocation): map<Id, Token> {
    map k | k in tokens :: if OnChain(k, tokens[k], parent) then Stamped(tokens[k], r) else tokens[k]
  }

  function RevokedOfClient(tokens: map<Id, Token>, c: ClientId, r: Revocation): map<Id, Token> {
    map k | k in tokens :: if tokens[k].client == Some(c) then Stamped(tokens[k], r) else tokens[k]
  }

  function RequestsFrom(requests: map<Id, AuthRequest>, before: Time): map<Id, AuthRequest> {
    map i | i in requests && !(requests[i].expires < before) :: requests[i]
  }

  function CodesFrom(codes: map<Id, Code>, before: Time): map<Id, Code> {
    map i | i in codes && !(codes[i].expires < before) :: codes[i]
  }

  function TokensFrom(tokens: map<Id, Token>, before: Time): map<Id, Token> {
    map i | i in tokens && !(tokens[i].expires as real < before) :: tokens[i]
  }

  function Apply(w: World, c: Commit): World {
    match c
    case PutClient(k, row) => w.(clients := w.clients[k := row])
    case DropClient(k) =>
      w.(clients := w.clients - {k},
         requests := RequestsOfOthers(w.requests, k), codes := CodesOfOthers(w.codes, k),
         consents := ConsentsOfOthers(w.consents, k), tokens := Orphaned(w.tokens, k))
    case PutRequest(k, row, ceiling) => w.(requests := w.requests[k := row], ceilings := w.ceilings[k := ceiling])
    case DecideRequest(k, at) =>
      if k in w.requests then w.(requests := w.requests[k := w.requests[k].(decidedAt := Some(at))]) else w
    case DropRequests(before) => w.(requests := RequestsFrom(w.requests, before))
    case PutCode(k, row, requested, ceiling) =>
      w.(codes := w.codes[k := row],
         families := w.families[k := Family(row.client, row.user, row.audience, row.scope, requested, ceiling)])
    case UseCode(k, at) =>
      if k in w.codes then w.(codes := w.codes[k := w.codes[k].(usedAt := Some(at))]) else w
    case DropCodes(before) => w.(codes := CodesFrom(w.codes, before))
    case PutToken(k, row) =>
      w.(tokens := w.tokens[k := row], facts := w.facts[k := Fact(row, |w.facts|)], jwts := w.jwts + {JwtOf(k, row)})
    case SignOnly(jwt) => w.(jwts := w.jwts + {jwt})
    case Revoke(k, r) =>
      if k in w.tokens then w.(tokens := w.tokens[k := Stamped(w.tokens[k], r)]) else w
    case RevokeFamily(k, r) => w.(tokens := RevokedChain(w.tokens, k, r))
    case RevokeByClient(k, r) => w.(tokens := RevokedOfClient(w.tokens, k, r))
    case DropTokens(before) => w.(tokens := TokensFrom(w.tokens, before))
    case Remember(key, scopes) =>
      w.(consents := w.consents[key := (if key in w.consents then w.consents[key] else {}) + scopes])
    case Forget(key) => w.(consents := w.consents - {key})
  }

  function ApplyAll(w: World, cs: seq<Commit>): World
    decreases |cs|
  {
    if cs == [] then w else ApplyAll(Apply(w, cs[0]), cs[1..])
  }

  lemma {:induction false} ApplyAllAppend(w: World, a: seq<Commit>, b: seq<Commit>)
    ensures ApplyAll(w, a + b) == ApplyAll(ApplyAll(w, a), b)
    decreases |a|
  {
    if a == [] {
      assert a + b == b;
    } else {
      assert (a + b)[1..] == a[1..] + b;
      ApplyAllAppend(Apply(w, a[0]), a[1..], b);
    }
  }

  function Empty(cfg: Config, clock: Time): World {
    World(cfg, clock, map[], map[], map[], map[], map[], {}, map[], map[], map[])
  }
}
