/**
 What the token, revocation and introspection endpoints and the console answer, and which rows they leave: the second
 half of `GrantAnswers`.
 */
module TokenAnswers {
  import opened Prelude
  import opened ScopeRegistry
  import opened ScopeTexts
  import opened OAuthTables
  import opened OAuthEndpoints
  import opened TokenFamilies
  import opened GrantRuns
  import opened FamilySafety
  import opened GrantFlows
  import opened GrantAnswers
  import Text

  /** Issued rows: unrevoked, and expiring the given number of seconds after the whole second it is issued in. */
  function Row(kind: Kind, client: ClientId, sub: UserId, audience: Option<Audience>, scope: set<Scope>,
               parent: Option<Id>, now: Time, seconds: int): Token
  {
    Token(kind, Some(client), sub, audience, scope, parent, now.Floor + seconds, None)
  }

  /** The signed token makes its row's claims; one to refresh with is marked, and no other is. */
  predicate Claims(jwt: Jwt, id: Id, t: Token) {
    && jwt.jti == id && jwt.client == t.client && jwt.sub == t.sub && jwt.audience == t.audience
    && jwt.scope == t.scope && jwt.exp == t.expires && (jwt.use == RefreshUse <==> t.kind == Refresh)
  }

  lemma SignedClaims(id: Id, t: Token)
    ensures Claims(JwtOf(id, t), id, t)
  {
  }

  /** This row was added, and its token signed: but for that, and the record of it, the tables are as before. */
  ghost predicate Adds(w: World, n: World, id: Id, t: Token) {
    n == w.(tokens := w.tokens[id := t], jwts := w.jwts + {JwtOf(id, t)}, facts := n.facts)
    && Claims(JwtOf(id, t), id, t)
  }

  ghost predicate AddsBoth(w: World, n: World, access: Id, a: Token, refresh: Id, r: Token) {
    n == w.(tokens := w.tokens[access := a][refresh := r],
            jwts := w.jwts + {JwtOf(access, a)} + {JwtOf(refresh, r)}, facts := n.facts)
    && Claims(JwtOf(access, a), access, a) && Claims(JwtOf(refresh, r), refresh, r)
  }

  lemma OneRowAdded(w: World, id: Id, t: Token)
    ensures Adds(w, ApplyAll(w, [PutToken(id, t)]), id, t)
  {
    ApplyOne(w, PutToken(id, t));
    SignedClaims(id, t);
  }

  lemma OneRowAddedAfter(w: World, first: Commit, id: Id, t: Token)
    ensures Adds(Apply(w, first), ApplyAll(w, [first, PutToken(id, t)]), id, t)
  {
    ApplyTwo(w, first, PutToken(id, t));
    SignedClaims(id, t);
  }

  lemma BothRowsAddedAfter(w: World, first: Commit, access: Id, a: Token, refresh: Id, r: Token)
    ensures AddsBoth(Apply(w, first), ApplyAll(w, [first, PutToken(access, a), PutToken(refresh, r)]),
                     access, a, refresh, r)
  {
    ApplyThree(w, first, PutToken(access, a), PutToken(refresh, r));
    SignedClaims(access, a);
    SignedClaims(refresh, r);
  }

  // ---------------------------------------------------------------- redeeming a code

  /** In time, by its client, with its redirect URI, and with the verifier of its challenge - or, without a challenge,
      by a client with a secret that need not use PKCE. */
  predicate Presents(row: Code, client: Client, c: Call)
    requires c.RedeemCode?
  {
    && c.now <= row.expires && c.caller.id == row.client && c.redirectUri == row.redirectUri
    && (row.challenge.Some? ==> c.verifier != "" && row.challenge == Some(DigestOf(c.verifier)))
    && (row.challenge.None? ==> client.hasSecret && !client.requirePkce)
  }

  predicate SameTarget(asked: Option<Audience>, bound: Option<Audience>) {
    asked.Some? ==> asked == bound
  }

  lemma RedeemRefuses(w: World, c: Call)
    requires c.RedeemCode? && Entitled(w, c.caller, Some(AuthorizationCode))
    ensures c.code !in w.codes ==> Refused(w, c, BadGrant)
    ensures c.code in w.codes && w.codes[c.code].usedAt.None? ==>
              var row := w.codes[c.code];
              && (!Presents(row, w.clients[c.caller.id], c) ==> Refused(w, c, BadGrant))
              && (Presents(row, w.clients[c.caller.id], c) && !SameTarget(c.resource, row.audience) ==>
                    Refused(w, c, BadTarget))
  {
  }

  /** A row that is issued for a code. */
  function RowFor(row: Code, kind: Kind, code: Id, now: Time, seconds: int): Token {
    Row(kind, row.client, row.user, row.audience, row.scope, Some(code), now, seconds)
  }

  /** Else the code is used up and exchanged for an access token and, if the client may refresh, a refresh token, with
      the configured lifetimes, for exactly what the code stands for. */
  lemma RedeemGives(w: World, c: Call)
    requires c.RedeemCode? && Entitled(w, c.caller, Some(AuthorizationCode))
    requires c.code in w.codes && w.codes[c.code].usedAt.None?
    requires Presents(w.codes[c.code], w.clients[c.caller.id], c) && SameTarget(c.resource, w.codes[c.code].audience)
    ensures var n, row := Outcome(w, c), w.codes[c.code];
            var used := w.(codes := w.codes[c.code := row.(usedAt := Some(c.now))]);
            var a := RowFor(row, Access, c.code, c.now, w.cfg.accessSeconds);
            if RefreshToken in w.clients[c.caller.id].grants then
              && Answered(w, c) == Tokens(c.access, Some(c.refresh), row.scope)
              && AddsBoth(used, n, c.access, a, c.refresh, RowFor(row, Refresh, c.code, c.now, w.cfg.refreshSeconds))
            else
              Answered(w, c) == Tokens(c.access, None, row.scope) && Adds(used, n, c.access, a)
  {
    var row, use := w.codes[c.code], UseCode(c.code, c.now);
    var a := RowFor(row, Access, c.code, c.now, w.cfg.accessSeconds);
    var r := RowFor(row, Refresh, c.code, c.now, w.cfg.refreshSeconds);
    if RefreshToken in w.clients[c.caller.id].grants {
      BothRowsAddedAfter(w, use, c.access, a, c.refresh, r);
      assert PlanOf(w, c).commits == [use, PutToken(c.access, a), PutToken(c.refresh, r)];
    } else {
      OneRowAddedAfter(w, use, c.access, a);
      assert PlanOf(w, c).commits == [use, PutToken(c.access, a)];
    }
  }

  // ---------------------------------------------------------------- refreshing

  /** A refresh token of this client's, signed here, not more than ten seconds over, and on record. */
  predicate PresentsRefresh(w: World, c: Call)
    requires c.RefreshTokens?
  {
    && c.jwt in w.jwts && c.now < c.jwt.exp as real + 10.0 && c.jwt.use == RefreshUse
    && c.jwt.client == Some(c.caller.id) && c.jwt.jti in w.tokens
  }

  /** What is asked for: everything held, unless a scope is named. */
  predicate AsksFor(c: Call, held: set<Scope>, wanted: set<Scope>)
    requires c.RefreshTokens?
  {
    && (c.scope.None? || c.scope.value == "" ==> wanted == held)
    && (c.scope.Some? && c.scope.value != "" ==> wanted == WordsOf(c.scope.value))
  }

  lemma RefreshRefuses(w: World, c: Call, wanted: set<Scope>)
    requires c.RefreshTokens? && Entitled(w, c.caller, Some(RefreshToken))
    ensures !PresentsRefresh(w, c) ==> Refused(w, c, BadGrant)
    ensures PresentsRefresh(w, c) && !SameTarget(c.resource, w.tokens[c.jwt.jti].audience) ==> Refused(w, c, BadTarget)
    ensures PresentsRefresh(w, c) && SameTarget(c.resource, w.tokens[c.jwt.jti].audience) ==>
              var rec := w.tokens[c.jwt.jti];
              && (rec.revoked.Some? && rec.revoked.value.reason != Rotated ==> Refused(w, c, BadGrant))
              && (rec.revoked.None? && AsksFor(c, rec.scope, wanted) && !(wanted <= rec.scope) ==>
                    Refused(w, c, BadScope))
  {
  }

  /** A row that takes the place of `rec` in its family. */
  function Successor(rec: Token, client: ClientId, kind: Kind, scope: set<Scope>, now: Time, seconds: int): Token {
    Row(kind, client, rec.sub, rec.audience, scope, rec.parent, now, seconds)
  }

  lemma RefreshPlanned(w: World, c: Call, wanted: set<Scope>)
    requires c.RefreshTokens? && Entitled(w, c.caller, Some(RefreshToken))
    requires PresentsRefresh(w, c) && SameTarget(c.resource, w.tokens[c.jwt.jti].audience)
    requires w.tokens[c.jwt.jti].revoked.None? && AsksFor(c, w.tokens[c.jwt.jti].scope, wanted)
    requires wanted <= w.tokens[c.jwt.jti].scope && w.tokens[c.jwt.jti].parent.Some?
    ensures var rec := w.tokens[c.jwt.jti];
            PlanOf(w, c)
            == Plan([Revoke(c.jwt.jti, Revocation(c.now, Rotated)),
                     PutToken(c.access, Successor(rec, c.caller.id, Access, wanted, c.now, w.cfg.accessSeconds)),
                     PutToken(c.refresh, Successor(rec, c.caller.id, Refresh, wanted, c.now, w.cfg.refreshSeconds))],
                    Tokens(c.access, Some(c.refresh), wanted))
  {
  }

  ghost predicate RotatedInto(w: World, c: Call, wanted: set<Scope>, n: World)
    requires c.RefreshTokens? && c.jwt.jti in w.tokens
  {
    var rec := w.tokens[c.jwt.jti];
    AddsBoth(w.(tokens := w.tokens[c.jwt.jti := rec.(revoked := Some(Revocation(c.now, Rotated)))]), n,
             c.access, Successor(rec, c.caller.id, Access, wanted, c.now, w.cfg.accessSeconds),
             c.refresh, Successor(rec, c.caller.id, Refresh, wanted, c.now, w.cfg.refreshSeconds))
  }

  lemma PlannedRotation(w: World, c: Call, wanted: set<Scope>)
    requires c.RefreshTokens? && Entitled(w, c.caller, Some(RefreshToken))
    requires PresentsRefresh(w, c) && SameTarget(c.resource, w.tokens[c.jwt.jti].audience)
    requires w.tokens[c.jwt.jti].revoked.None? && AsksFor(c, w.tokens[c.jwt.jti].scope, wanted)
    requires wanted <= w.tokens[c.jwt.jti].scope && w.tokens[c.jwt.jti].parent.Some?
    ensures Answered(w, c) == Tokens(c.access, Some(c.refresh), wanted) && RotatedInto(w, c, wanted, Outcome(w, c))
  {
    RefreshPlanned(w, c, wanted);
    var rec, revoke := w.tokens[c.jwt.jti], Revoke(c.jwt.jti, Revocation(c.now, Rotated));
    BothRowsAddedAfter(w, revoke, c.access, Successor(rec, c.caller.id, Access, wanted, c.now, w.cfg.accessSeconds),
                       c.refresh, Successor(rec, c.caller.id, Refresh, wanted, c.now, w.cfg.refreshSeconds));
  }

  lemma PresentedHasParent(w: World, c: Call)
    requires Inv(w) && c.RefreshTokens? && PresentsRefresh(w, c)
    ensures w.tokens[c.jwt.jti].parent.Some?
  {
    RefreshRow(w, c.jwt);
  }

  /** Else the token is rotated: it is revoked as such, and an access and a refresh token take its place in the family,
      for the same user and server, with the scope asked for. */
  lemma RefreshGives(w: World, c: Call, wanted: set<Scope>)
    requires Inv(w) && c.RefreshTokens? && Entitled(w, c.caller, Some(RefreshToken))
    requires PresentsRefresh(w, c) && SameTarget(c.resource, w.tokens[c.jwt.jti].audience)
    requires w.tokens[c.jwt.jti].revoked.None? && AsksFor(c, w.tokens[c.jwt.jti].scope, wanted)
    requires wanted <= w.tokens[c.jwt.jti].scope
    ensures Answered(w, c) == Tokens(c.access, Some(c.refresh), wanted) && RotatedInto(w, c, wanted, Outcome(w, c))
    ensures w.tokens[c.jwt.jti].parent.Some?
  {
    PresentedHasParent(w, c);
    PlannedRotation(w, c, wanted);
  }

  // ---------------------------------------------------------------- tokens without a user's consent

  /** The server of an audience, if it is registered. */
  function ServiceOf(dir: Directory, resource: Option<Audience>): Option<Service> {
    if resource.Some? && resource.value in dir.services then Some(dir.services[resource.value]) else None
  }

  lemma ResolvedTarget(dir: Directory, resource: Option<Audience>)
    ensures TargetKnown(dir, (resource, ServiceOf(dir, resource))) <==> ResolveResource(dir, resource).Ok?
    ensures ResolveResource(dir, resource).Ok? ==>
              ResolveResource(dir, resource).value == (resource, ServiceOf(dir, resource))
    ensures ResolveResource(dir, resource).Err? ==> ResolveResource(dir, resource) == Err(InvalidTarget)
  {
  }

  lemma OwnTokenRefused(w: World, c: Call)
    requires c.ClientCredentialsGrant? && Entitled(w, c.caller, Some(ClientCredentials))
    ensures var service := ServiceOf(c.dir, c.resource);
            && (!TargetKnown(c.dir, (c.resource, service)) ==> Refused(w, c, BadTarget))
            && (TargetKnown(c.dir, (c.resource, service)) ==>
                  ScopeGrantable(c.dir, c.scope, w.clients[c.caller.id].scope, service) || Refused(w, c, BadScope))
  {
    ResolvedTarget(c.dir, c.resource);
    GrantableIff(c.dir, c.scope, w.clients[c.caller.id].scope, ServiceOf(c.dir, c.resource));
  }

  lemma OwnTokenPlanned(w: World, c: Call, granted: set<Scope>)
    requires c.ClientCredentialsGrant? && Entitled(w, c.caller, Some(ClientCredentials))
    requires ResolveResource(c.dir, c.resource) == Ok((c.resource, ServiceOf(c.dir, c.resource)))
    requires ResolveScope(c.dir, c.scope, w.clients[c.caller.id].scope, ServiceOf(c.dir, c.resource)) == Ok(granted)
    ensures var words := Carried(granted);
            PlanOf(w, c) == Plan([PutToken(c.access, Row(Access, c.caller.id, c.caller.id, c.resource, words, None, c.now,
                                                         w.cfg.accessSeconds))], Tokens(c.access, None, words))
  {
  }

  /** Else a client's own token: for the server asked for, with what is granted of the scope asked for, without refresh. */
  lemma OwnTokenGives(w: World, c: Call, granted: set<Scope>)
    requires c.ClientCredentialsGrant? && Entitled(w, c.caller, Some(ClientCredentials))
    requires TargetKnown(c.dir, (c.resource, ServiceOf(c.dir, c.resource)))
    requires ResolveScope(c.dir, c.scope, w.clients[c.caller.id].scope, ServiceOf(c.dir, c.resource)) == Ok(granted)
    ensures Answered(w, c) == Tokens(c.access, None, Carried(granted))
    ensures Adds(w, Outcome(w, c), c.access,
                 Row(Access, c.caller.id, c.caller.id, c.resource, Carried(granted), None, c.now, w.cfg.accessSeconds))
  {
    var words := Carried(granted);
    ResolvedTarget(c.dir, c.resource);
    OwnTokenPlanned(w, c, granted);
    OneRowAdded(w, c.access, Row(Access, c.caller.id, c.caller.id, c.resource, words, None, c.now, w.cfg.accessSeconds));
  }

  predicate Clamped(days: int, most: int, given: int) {
    && (1 <= days <= most ==> given == days)
    && (days > most && most >= 1 ==> given == most)
    && (days < 1 || most < 1 ==> given == 1)
  }

  lemma PersonalTokenRefused(w: World, c: Call)
    requires c.MintPersonal?
    ensures c.audience !in c.dir.services ==> Refused(w, c, BadTarget)
    ensures c.audience in c.dir.services && !ScopeGrantable(c.dir, c.scope, None, ServiceOf(c.dir, Some(c.audience))) ==>
              Refused(w, c, BadScope)
  {
    GrantableIff(c.dir, c.scope, None, ServiceOf(c.dir, Some(c.audience)));
  }

  lemma PersonalTokenPlanned(w: World, c: Call, days: int, granted: set<Scope>)
    requires c.MintPersonal? && Clamped(c.days, w.cfg.patMaxDays, days) && c.audience in c.dir.services
    requires ResolveScope(c.dir, c.scope, None, Some(c.dir.services[c.audience])) == Ok(granted)
    ensures var words := Carried(granted);
            PlanOf(w, c) == Plan([PutToken(c.pat, Row(Pat, c.console, c.user, Some(c.audience), words, None, c.now,
                                                      days * 86400))], Tokens(c.pat, None, words))
  {
  }

  /** Else a personal token: for the user, for that many whole days, but at least one and at most the configured
      number. */
  lemma PersonalTokenGives(w: World, c: Call, days: int, granted: set<Scope>)
    requires c.MintPersonal? && Clamped(c.days, w.cfg.patMaxDays, days) && c.audience in c.dir.services
    requires ResolveScope(c.dir, c.scope, None, Some(c.dir.services[c.audience])) == Ok(granted)
    ensures Answered(w, c) == Tokens(c.pat, None, Carried(granted))
    ensures Adds(w, Outcome(w, c), c.pat,
                 Row(Pat, c.console, c.user, Some(c.audience), Carried(granted), None, c.now, days * 86400))
  {
    var words := Carried(granted);
    PersonalTokenPlanned(w, c, days, granted);
    OneRowAdded(w, c.pat, Row(Pat, c.console, c.user, Some(c.audience), words, None, c.now, days * 86400));
  }

  lemma OnlySigned(w: World, jwt: Jwt)
    ensures ApplyAll(w, [SignOnly(jwt)]) == w.(jwts := w.jwts + {jwt})
  {
    ApplyOne(w, SignOnly(jwt));
  }

  predicate Probeable(w: World, c: Call)
    requires c.MintProbe?
  {
    && c.jti in w.tokens && w.tokens[c.jti].kind != Refresh && w.tokens[c.jti].revoked.None?
    && c.now <= w.tokens[c.jti].expires as real && w.tokens[c.jti].audience == Some(c.audience)
  }

  /** A probe copy: the claims of a live token of that server, signed anew for two minutes; nothing is recorded. */
  lemma ProbeAnswers(w: World, c: Call)
    requires c.MintProbe?
    ensures Probeable(w, c) ==>
              var rec := w.tokens[c.jti];
              && Answered(w, c) == Answer.Done
              && Outcome(w, c) == w.(jwts := w.jwts + {Jwt(c.jti, rec.client, AccessUse, rec.sub, rec.audience, rec.scope,
                                                           c.now.Floor + 120)})
    ensures !Probeable(w, c) ==> Refused(w, c, if c.jti in w.tokens then BadRequest else NoSuchToken)
  {
    if Probeable(w, c) { OnlySigned(w, PlanOf(w, c).commits[0].jwt); }
  }

  lemma ScannerPlanned(w: World, c: Call, asked: Option<string>, granted: set<Scope>)
    requires c.MintScanner?
    requires asked == if c.service.Some? && c.service.value.allowList.Some? then None else Some(Text.Join(SCANNER_SCOPES))
    requires ResolveScope(c.dir, asked, None, c.service) == Ok(granted)
    ensures PlanOf(w, c) == Plan([SignOnly(Jwt(c.jti, Some(c.scanner), AccessUse, c.scanner, Some(c.audience),
                                               Carried(granted), c.now.Floor + 120))], Answer.Done)
  {
  }

  /** The scanner's token: for that audience, two minutes, with the usual scopes, or with the defaults of a server that
      has an allow-list. */
  lemma ScannerAnswers(w: World, c: Call)
    requires c.MintScanner?
    ensures var restricted := c.service.Some? && c.service.value.allowList.Some?;
            var asked := if restricted then None else Some(Text.Join(SCANNER_SCOPES));
            var granted := ResolveScope(c.dir, asked, None, c.service);
            if granted.Err? then Refused(w, c, BadScope)
            else
              && Answered(w, c) == Answer.Done
              && Outcome(w, c)
                 == w.(jwts := w.jwts + {Jwt(c.jti, Some(c.scanner), AccessUse, c.scanner, Some(c.audience),
                                             Carried(granted.value), c.now.Floor + 120)})
  {
    var asked := if c.service.Some? && c.service.value.allowList.Some? then None else Some(Text.Join(SCANNER_SCOPES));
    var granted := ResolveScope(c.dir, asked, None, c.service);
    if granted.Ok? {
      ScannerPlanned(w, c, asked, granted.value);
      OnlySigned(w, PlanOf(w, c).commits[0].jwt);
    }
  }
}
