/**
 Invariants of the grant machine, at every commit point of every run.

 The proof has two layers. `Guard` says under which condition a single commit is safe, and `CommitKeepsInv` that a
 guarded commit keeps the invariant. `PlanIsGuarded` (module GrantRuns) shows that every endpoint performs its
 commits in an order in which each is guarded, so any prefix of them - a request cut off anywhere - keeps the
 invariant too. Each clause of the invariant names just the tables it speaks about, so a commit leaves alone every
 clause about tables it does not write.
 */
module TokenFamilies {
  import opened Prelude
  import opened ScopeRegistry
  import opened OAuthTables
  import opened OAuthEndpoints

  type Tokens = map<Id, Token>
  type Codes = map<Id, Code>
  type Facts = map<Id, Fact>
  type Families = map<Id, Family>

  // ---------------------------------------------------------------- the invariant

  /** `t` is a refresh token of family `f`. */
  predicate RefreshOf(t: Token, f: Id) {
    t.kind == Refresh && t.parent == Some(f)
  }

  predicate LiveRefresh(tokens: Tokens, id: Id, f: Id) {
    id in tokens && RefreshOf(tokens[id], f) && tokens[id].revoked.None?
  }

  /** The code can no longer be redeemed: it was used, or its row is gone. */
  predicate Spent(codes: Codes, f: Id) {
    f in codes ==> codes[f].usedAt.Some?
  }

  /** What an issued token owes to the family it belongs to. */
  predicate Belongs(t: Token, f: Family) {
    t.client == Some(f.client) && t.sub == f.sub && t.audience == f.audience && t.scope <= f.scope
  }

  /** A row still says what was issued, except that its client may have been deleted. */
  predicate SameIssue(row: Token, issued: Token) {
    && row.(client := issued.client, revoked := None) == issued.(revoked := None)
    && (row.client == issued.client || row.client.None?)
  }

  ghost predicate IdsInv(codes: Codes, tokens: Tokens, families: Families, facts: Facts) {
    facts.Keys !! families.Keys && codes.Keys <= families.Keys && tokens.Keys <= facts.Keys
  }

  ghost predicate SerialsInv(facts: Facts) {
    forall k | k in facts :: facts[k].serial < |facts|
  }

  ghost predicate RowsInv(tokens: Tokens, facts: Facts) {
    forall k | k in tokens :: k in facts && SameIssue(tokens[k], facts[k].token)
  }

  predicate FactOk(codes: Codes, families: Families, t: Token) {
    && (t.kind == Refresh ==> t.parent.Some?)
    && (t.parent.Some? ==>
          t.parent.value in families && Spent(codes, t.parent.value) && Belongs(t, families[t.parent.value]))
  }

  ghost predicate FactsInv(codes: Codes, families: Families, facts: Facts) {
    forall k | k in facts :: FactOk(codes, families, facts[k].token)
  }

  predicate CodeOk(c: Code, f: Family) {
    c.client == f.client && c.user == f.sub && c.audience == f.audience && c.scope == f.scope
  }

  ghost predicate CodesInv(codes: Codes, families: Families) {
    && (forall k | k in codes :: k in families && CodeOk(codes[k], families[k]))
    && (forall k | k in families :: families[k].scope <= families[k].requested <= families[k].ceiling)
  }

  ghost predicate RequestsInv(requests: map<Id, AuthRequest>, ceilings: map<Id, set<Scope>>) {
    forall k | k in requests :: k in ceilings && requests[k].scope <= ceilings[k]
  }

  /** At most one live refresh token per family, and none of the family's refresh tokens was ever narrower. */
  ghost predicate LiveInv(tokens: Tokens, facts: Facts) {
    && (forall f, i, j | LiveRefresh(tokens, i, f) && LiveRefresh(tokens, j, f) :: i == j)
    && (forall f, i, k | LiveRefresh(tokens, i, f) && k in facts && RefreshOf(facts[k].token, f) ::
          tokens[i].scope <= facts[k].token.scope)
  }

  /** `i` is a refresh token and `j` was issued later in the same family. */
  predicate After(facts: Facts, i: Id, j: Id) {
    && i in facts && j in facts
    && facts[i].token.kind == Refresh && facts[i].token.parent.Some?
    && facts[j].token.parent == facts[i].token.parent
    && facts[i].serial < facts[j].serial
  }

  /** Whatever a family issues after a refresh token carries no more scope than that token. */
  ghost predicate ChainInv(facts: Facts) {
    forall i, j | After(facts, i, j) :: facts[j].token.scope <= facts[i].token.scope
  }

  /** A signed token that shares the jti of a recorded one agrees with it and outlives it by at most a probe. */
  predicate JwtAgrees(jwt: Jwt, t: Token) {
    && (jwt.use == RefreshUse <==> t.kind == Refresh)
    && (jwt.client == t.client || (jwt.client.None? && jwt.use == AccessUse))
    && jwt.sub == t.sub && jwt.audience == t.audience && jwt.scope == t.scope
    && jwt.exp <= t.expires + PROBE_SECONDS
  }

  ghost predicate JwtsInv(jwts: set<Jwt>, families: Families, facts: Facts) {
    forall j | j in jwts ::
      && j.jti !in families
      && (j.jti in facts ==> JwtAgrees(j, facts[j.jti].token))
      && (j.use == RefreshUse ==> j.jti in facts)
  }

  /** Every recorded token was signed as issued. */
  ghost predicate SignedInv(jwts: set<Jwt>, facts: Facts) {
    forall k | k in facts :: JwtOf(k, facts[k].token) in jwts
  }

  /** A recorded token without a row was deleted a full grace period after it expired. */
  ghost predicate GoneInv(tokens: Tokens, facts: Facts, clock: Time) {
    forall k | k in facts && k !in tokens :: facts[k].token.expires as real + TOKEN_GRACE < clock
  }

  ghost predicate Inv(w: World) {
    && IdsInv(w.codes, w.tokens, w.families, w.facts)
    && SerialsInv(w.facts)
    && RowsInv(w.tokens, w.facts)
    && FactsInv(w.codes, w.families, w.facts)
    && CodesInv(w.codes, w.families)
    && RequestsInv(w.requests, w.ceilings)
    && LiveInv(w.tokens, w.facts)
    && ChainInv(w.facts)
    && JwtsInv(w.jwts, w.families, w.facts)
    && SignedInv(w.jwts, w.facts)
    && GoneInv(w.tokens, w.facts, w.clock)
  }

  // ---------------------------------------------------------------- what makes one commit safe

  ghost predicate TokenGuard(w: World, id: Id, t: Token) {
    && Fresh(w, id) && t.revoked.None?
    && FactOk(w.codes, w.families, t)
    && (t.parent.Some? ==> forall k | k in w.facts && RefreshOf(w.facts[k].token, t.parent.value) ::
                             t.scope <= w.facts[k].token.scope)
    && (t.kind == Refresh ==> forall k :: !LiveRefresh(w.tokens, k, t.parent.value))
  }

  ghost predicate Guard(w: World, c: Commit) {
    match c
    case PutRequest(id, req, ceiling) => req.scope <= ceiling
    case PutCode(id, code, requested, ceiling) => Fresh(w, id) && code.scope <= requested <= ceiling
    case UseCode(id, _) => id in w.codes && w.codes[id].usedAt.None?
    case PutToken(id, t) => TokenGuard(w, id, t)
    case SignOnly(jwt) =>
      && jwt.use == AccessUse
      && (jwt.jti in w.tokens || Fresh(w, jwt.jti))
      && (jwt.jti in w.tokens ==> jwt.jti in w.facts && JwtAgrees(jwt, w.facts[jwt.jti].token))
    case DropTokens(before) => before + TOKEN_GRACE <= w.clock
    case _ => true
  }

  // ---------------------------------------------------------------- issuing a token

  lemma PutTokenKeepsSerials(facts: Facts, id: Id, t: Token)
    requires SerialsInv(facts) && id !in facts
    ensures SerialsInv(facts[id := Fact(t, |facts|)])
  {
    var now := facts[id := Fact(t, |facts|)];
    assert now.Keys == facts.Keys + {id};
    assert |now| == |facts| + 1;
  }

  lemma PutTokenKeepsRows(w: World, id: Id, t: Token)
    requires Inv(w) && TokenGuard(w, id, t)
    ensures var n := Apply(w, PutToken(id, t));
            && IdsInv(n.codes, n.tokens, n.families, n.facts)
            && RowsInv(n.tokens, n.facts)
            && FactsInv(n.codes, n.families, n.facts)
            && GoneInv(n.tokens, n.facts, n.clock)
  {
  }

  lemma PutTokenKeepsLive(tokens: Tokens, facts: Facts, id: Id, t: Token, serial: nat)
    requires LiveInv(tokens, facts) && id !in tokens && id !in facts
    requires t.parent.Some? ==> forall k | k in facts && RefreshOf(facts[k].token, t.parent.value) ::
                                  t.scope <= facts[k].token.scope
    requires t.kind == Refresh ==> t.parent.Some? && forall k :: !LiveRefresh(tokens, k, t.parent.value)
    ensures LiveInv(tokens[id := t], facts[id := Fact(t, serial)])
  {
    var now := tokens[id := t];
    forall f, i | LiveRefresh(now, i, f) && i != id ensures LiveRefresh(tokens, i, f) {}
  }

  lemma PutTokenKeepsChain(facts: Facts, id: Id, t: Token)
    requires ChainInv(facts) && SerialsInv(facts) && id !in facts
    requires t.parent.Some? ==> forall k | k in facts && RefreshOf(facts[k].token, t.parent.value) ::
                                  t.scope <= facts[k].token.scope
    ensures ChainInv(facts[id := Fact(t, |facts|)])
  {
    var now := facts[id := Fact(t, |facts|)];
    forall i, j | After(now, i, j) ensures now[j].token.scope <= now[i].token.scope {
      if j == id {
        assert RefreshOf(facts[i].token, t.parent.value);
      } else {
        assert i != id && After(facts, i, j);
      }
    }
  }

  lemma PutTokenKeepsJwts(w: World, id: Id, t: Token)
    requires Inv(w) && TokenGuard(w, id, t)
    ensures var n := Apply(w, PutToken(id, t)); JwtsInv(n.jwts, n.families, n.facts) && SignedInv(n.jwts, n.facts)
  {
    assert JwtAgrees(JwtOf(id, t), t);
  }

  lemma PutTokenKeepsInv(w: World, id: Id, t: Token)
    requires Inv(w) && TokenGuard(w, id, t)
    ensures Inv(Apply(w, PutToken(id, t)))
  {
    PutTokenKeepsSerials(w.facts, id, t);
    PutTokenKeepsRows(w, id, t);
    PutTokenKeepsLive(w.tokens, w.facts, id, t, |w.facts|);
    PutTokenKeepsChain(w.facts, id, t);
    PutTokenKeepsJwts(w, id, t);
  }

  // ---------------------------------------------------------------- issuing a code, signing without a record

  lemma PutCodeKeepsInv(w: World, id: Id, code: Code, requested: set<Scope>, ceiling: set<Scope>)
    requires Inv(w) && Guard(w, PutCode(id, code, requested, ceiling))
    ensures Inv(Apply(w, PutCode(id, code, requested, ceiling)))
  {
    var n := Apply(w, PutCode(id, code, requested, ceiling));
    assert IdsInv(n.codes, n.tokens, n.families, n.facts);
    assert FactsInv(n.codes, n.families, n.facts) by {
      forall k | k in n.facts ensures FactOk(n.codes, n.families, n.facts[k].token) {
        assert FactOk(w.codes, w.families, w.facts[k].token);
      }
    }
    assert JwtsInv(n.jwts, n.families, n.facts);
  }

  // ---------------------------------------------------------------- revoking, using, deleting

  /** The row was revoked, or its client cleared, or nothing. A revocation once made stays as it is. */
  predicate Retired(now: Token, before: Token) {
    && (now.client == before.client || now.client.None?)
    && now.(client := before.client, revoked := before.revoked) == before
    && (before.revoked.Some? ==> now.revoked == before.revoked)
  }

  ghost predicate TokensRetire(now: Tokens, before: Tokens, clock: Time) {
    && now.Keys <= before.Keys
    && (forall k | k in now :: Retired(now[k], before[k]))
    && (forall k | k in before && k !in now :: before[k].expires as real + TOKEN_GRACE < clock)
  }

  predicate CodeRetired(now: Code, before: Code) {
    now == before || (before.usedAt.None? && now == before.(usedAt := now.usedAt))
  }

  ghost predicate CodesRetire(now: Codes, before: Codes) {
    now.Keys <= before.Keys && (forall k | k in now :: CodeRetired(now[k], before[k]))
  }

  ghost predicate RequestsRetire(now: map<Id, AuthRequest>, before: map<Id, AuthRequest>) {
    now.Keys <= before.Keys && (forall k | k in now :: now[k].(decidedAt := before[k].decidedAt) == before[k])
  }

  predicate SameHistory(n: World, w: World) {
    n.clock == w.clock && n.jwts == w.jwts && n.ceilings == w.ceilings && n.families == w.families && n.facts == w.facts
  }

  ghost predicate Retires(w: World, n: World) {
    && SameHistory(n, w)
    && TokensRetire(n.tokens, w.tokens, w.clock)
    && CodesRetire(n.codes, w.codes)
    && RequestsRetire(n.requests, w.requests)
  }

  lemma TokensRetireKeeps(now: Tokens, before: Tokens, facts: Facts, clock: Time)
    requires TokensRetire(now, before, clock)
    requires RowsInv(before, facts) && LiveInv(before, facts) && GoneInv(before, facts, clock)
    ensures RowsInv(now, facts) && LiveInv(now, facts) && GoneInv(now, facts, clock)
  {
    forall k | k in now ensures k in facts && SameIssue(now[k], facts[k].token) {
      assert Retired(now[k], before[k]) && SameIssue(before[k], facts[k].token);
    }
    forall f, i | LiveRefresh(now, i, f) ensures LiveRefresh(before, i, f) && now[i].scope == before[i].scope {
      assert Retired(now[i], before[i]);
    }
    forall k | k in facts && k !in now ensures facts[k].token.expires as real + TOKEN_GRACE < clock {
      if k in before { assert SameIssue(before[k], facts[k].token); }
    }
  }

  lemma CodesRetireKeeps(now: Codes, before: Codes, families: Families, facts: Facts)
    requires CodesRetire(now, before) && CodesInv(before, families) && FactsInv(before, families, facts)
    ensures CodesInv(now, families) && FactsInv(now, families, facts)
  {
    forall k | k in now ensures CodeOk(now[k], families[k]) { assert CodeRetired(now[k], before[k]); }
    forall k | k in facts ensures FactOk(now, families, facts[k].token) {
      assert FactOk(before, families, facts[k].token);
    }
  }

  lemma RetiringKeepsInv(w: World, n: World)
    requires Inv(w) && Retires(w, n)
    ensures Inv(n)
  {
    TokensRetireKeeps(n.tokens, w.tokens, w.facts, w.clock);
    CodesRetireKeeps(n.codes, w.codes, w.families, w.facts);
  }

  lemma RevokedRowsRetire(tokens: Tokens, id: Id, r: Revocation, clock: Time)
    ensures id in tokens ==> TokensRetire(tokens[id := Stamped(tokens[id], r)], tokens, clock)
    ensures TokensRetire(RevokedChain(tokens, id, r), tokens, clock)
    ensures TokensRetire(RevokedOfClient(tokens, id, r), tokens, clock)
  {
  }

  lemma NothingRetires(w: World)
    ensures Retires(w, w)
  {
  }

  lemma RevokeRetires(w: World, id: Id, r: Revocation)
    ensures Retires(w, Apply(w, Revoke(id, r)))
  {
    NothingRetires(w);
    RevokedRowsRetire(w.tokens, id, r, w.clock);
  }

  lemma RevokeFamilyRetires(w: World, id: Id, r: Revocation)
    ensures Retires(w, Apply(w, RevokeFamily(id, r)))
  {
    NothingRetires(w);
    RevokedRowsRetire(w.tokens, id, r, w.clock);
  }

  lemma RevokeByClientRetires(w: World, id: ClientId, r: Revocation)
    ensures Retires(w, Apply(w, RevokeByClient(id, r)))
  {
    NothingRetires(w);
    RevokedRowsRetire(w.tokens, id, r, w.clock);
  }

  lemma DropTokensRetires(w: World, before: Time)
    requires before + TOKEN_GRACE <= w.clock
    ensures Retires(w, Apply(w, DropTokens(before)))
  {
  }

  lemma DropClientRetires(w: World, id: ClientId)
    ensures Retires(w, Apply(w, DropClient(id)))
  {
  }

  lemma UseCodeRetires(w: World, id: Id, at: Time)
    requires id in w.codes && w.codes[id].usedAt.None?
    ensures Retires(w, Apply(w, UseCode(id, at)))
  {
    NothingRetires(w);
  }

  lemma DropCodesRetires(w: World, before: Time)
    ensures Retires(w, Apply(w, DropCodes(before)))
  {
    NothingRetires(w);
  }

  lemma DecideRequestRetires(w: World, id: Id, at: Time)
    ensures Retires(w, Apply(w, DecideRequest(id, at)))
  {
    NothingRetires(w);
  }

  lemma DropRequestsRetires(w: World, before: Time)
    ensures Retires(w, Apply(w, DropRequests(before)))
  {
    NothingRetires(w);
  }

  lemma PutClientRetires(w: World, id: ClientId, client: Client)
    ensures Retires(w, Apply(w, PutClient(id, client)))
  {
    NothingRetires(w);
  }

  lemma RememberRetires(w: World, key: ConsentKey, scopes: set<Scope>)
    ensures Retires(w, Apply(w, Remember(key, scopes)))
  {
    NothingRetires(w);
  }

  lemma ForgetRetires(w: World, key: ConsentKey)
    ensures Retires(w, Apply(w, Forget(key)))
  {
    NothingRetires(w);
  }

  lemma PutRequestKeepsInv(w: World, id: Id, req: AuthRequest, ceiling: set<Scope>)
    requires Inv(w) && Guard(w, PutRequest(id, req, ceiling))
    ensures Inv(Apply(w, PutRequest(id, req, ceiling)))
  {
  }

  lemma SignOnlyKeepsInv(w: World, jwt: Jwt)
    requires Inv(w) && Guard(w, SignOnly(jwt))
    ensures Inv(Apply(w, SignOnly(jwt)))
  {
  }

  predicate Retiring(c: Commit) {
    !(c.PutRequest? || c.PutCode? || c.PutToken? || c.SignOnly?)
  }

  lemma CommitRetires(w: World, c: Commit)
    requires Guard(w, c) && Retiring(c)
    ensures Retires(w, Apply(w, c))
  {
    match c
    case PutClient(id, client) => PutClientRetires(w, id, client);
    case DropClient(id) => DropClientRetires(w, id);
    case DecideRequest(id, at) => DecideRequestRetires(w, id, at);
    case DropRequests(before) => DropRequestsRetires(w, before);
    case UseCode(id, at) => UseCodeRetires(w, id, at);
    case DropCodes(before) => DropCodesRetires(w, before);
    case Revoke(id, r) => RevokeRetires(w, id, r);
    case RevokeFamily(id, r) => RevokeFamilyRetires(w, id, r);
    case RevokeByClient(id, r) => RevokeByClientRetires(w, id, r);
    case DropTokens(before) => DropTokensRetires(w, before);
    case Remember(key, scopes) => RememberRetires(w, key, scopes);
    case Forget(key) => ForgetRetires(w, key);
  }

  /** A guarded commit keeps the invariant. */
  lemma CommitKeepsInv(w: World, c: Commit)
    requires Inv(w) && Guard(w, c)
    ensures Inv(Apply(w, c))
  {
    match c
    case PutRequest(id, req, ceiling) => PutRequestKeepsInv(w, id, req, ceiling);
    case PutCode(id, code, requested, ceiling) => PutCodeKeepsInv(w, id, code, requested, ceiling);
    case PutToken(id, t) => PutTokenKeepsInv(w, id, t);
    case SignOnly(jwt) => SignOnlyKeepsInv(w, jwt);
    case _ =>
      CommitRetires(w, c);
      RetiringKeepsInv(w, Apply(w, c));
  }
}
