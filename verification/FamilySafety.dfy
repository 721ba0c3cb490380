/**
 What the grant machine guarantees over whole runs: codes are redeemed once, families hold one live refresh token,
 killed families stay dead, scopes only shrink, revocations are final - also for introspection after the row is gone.
 */
module FamilySafety {
  import opened Prelude
  import opened ScopeRegistry
  import opened OAuthTables
  import opened OAuthEndpoints
  import opened TokenFamilies
  import opened GrantRuns

  // ---------------------------------------------------------------- how worlds evolve

  ghost predicate FactsGrow(old': Facts, new': Facts) {
    forall k | k in old' :: k in new' && new'[k] == old'[k]
  }

  ghost predicate FamiliesGrow(old': Families, new': Families) {
    forall k | k in old' :: k in new' && new'[k] == old'[k]
  }

  ghost predicate RowsEvolve(facts: Facts, old': Tokens, new': Tokens) {
    forall k | k in facts && k in new' :: k in old' && Retired(new'[k], old'[k])
  }

  ghost predicate CodesEvolve(families: Families, old': Codes, new': Codes) {
    forall k | k in families && k in new' :: k in old' && CodeRetired(new'[k], old'[k])
  }

  /** History only grows, rows only retire, and nothing deleted comes back. */
  ghost predicate Evolves(w: World, n: World) {
    && w.clock <= n.clock
    && FactsGrow(w.facts, n.facts)
    && FamiliesGrow(w.families, n.families)
    && RowsEvolve(w.facts, w.tokens, n.tokens)
    && CodesEvolve(w.families, w.codes, n.codes)
  }

  lemma EvolvesTransitive(a: World, b: World, c: World)
    requires Evolves(a, b) && Evolves(b, c)
    ensures Evolves(a, c)
  {
    forall k | k in a.facts && k in c.tokens ensures k in a.tokens && Retired(c.tokens[k], a.tokens[k]) {
      assert Retired(c.tokens[k], b.tokens[k]) && Retired(b.tokens[k], a.tokens[k]);
    }
    forall k | k in a.families && k in c.codes ensures k in a.codes && CodeRetired(c.codes[k], a.codes[k]) {
      assert CodeRetired(c.codes[k], b.codes[k]) && CodeRetired(b.codes[k], a.codes[k]);
    }
  }

  lemma WaitingEvolves(w: World, now: Time)
    requires Inv(w) && w.clock <= now
    ensures Evolves(w, w.(clock := now))
  {
  }

  lemma RetiringEvolves(w: World, n: World)
    requires IdsInv(w.codes, w.tokens, w.families, w.facts) && Retires(w, n)
    ensures Evolves(w, n)
  {
  }

  lemma PutTokenEvolves(w: World, id: Id, t: Token)
    requires IdsInv(w.codes, w.tokens, w.families, w.facts) && Fresh(w, id)
    ensures Evolves(w, Apply(w, PutToken(id, t)))
  {
    var n := Apply(w, PutToken(id, t));
    assert RowsEvolve(w.facts, w.tokens, n.tokens) by {
      assert id !in w.facts;
    }
    assert n.codes == w.codes && n.families == w.families;
  }

  lemma PutCodeEvolves(w: World, id: Id, code: Code, requested: set<Scope>, ceiling: set<Scope>)
    requires IdsInv(w.codes, w.tokens, w.families, w.facts) && Fresh(w, id)
    ensures Evolves(w, Apply(w, PutCode(id, code, requested, ceiling)))
  {
  }

  lemma PutRequestEvolves(w: World, id: Id, req: AuthRequest, ceiling: set<Scope>)
    requires IdsInv(w.codes, w.tokens, w.families, w.facts)
    ensures Evolves(w, Apply(w, PutRequest(id, req, ceiling)))
  {}

  lemma SignOnlyEvolves(w: World, jwt: Jwt)
    requires IdsInv(w.codes, w.tokens, w.families, w.facts)
    ensures Evolves(w, Apply(w, SignOnly(jwt)))
  {}

  lemma CommitEvolves(w: World, c: Commit)
    requires Inv(w) && Guard(w, c)
    ensures Evolves(w, Apply(w, c))
  {
    match c
    case PutToken(id, t) => PutTokenEvolves(w, id, t);
    case PutCode(id, code, requested, ceiling) => PutCodeEvolves(w, id, code, requested, ceiling);
    case PutRequest(id, req, ceiling) => PutRequestEvolves(w, id, req, ceiling);
    case SignOnly(jwt) => SignOnlyEvolves(w, jwt);
    case _ =>
      CommitRetires(w, c);
      RetiringEvolves(w, Apply(w, c));
  }

  lemma {:induction false} CommitsEvolve(w: World, cs: seq<Commit>, done: seq<Commit>)
    requires Inv(w) && GuardedAll(w, cs) && done <= cs
    ensures Evolves(w, ApplyAll(w, done))
    decreases |cs|
  {
    if done != [] {
      CommitKeepsInv(w, cs[0]);
      CommitEvolves(w, cs[0]);
      CommitsEvolve(Apply(w, cs[0]), cs[1..], done[1..]);
      EvolvesTransitive(w, Apply(w, cs[0]), ApplyAll(w, done));
    }
  }

  lemma StepEvolves(w: World, a: Action)
    requires Inv(w) && Enabled(w, a)
    ensures Evolves(w, Step(w, a))
  {
    var w1 := Arrive(w, a.call);
    WaitingEvolves(w, a.call.now);
    ArrivingKeepsInv(w, a.call);
    PlanIsGuarded(w1, a.call);
    CommitsEvolve(w1, PlanOf(w1, a.call).commits, Performed(w, a));
    EvolvesTransitive(w, w1, Step(w, a));
  }

  lemma {:induction false} RunEvolves(w: World, actions: seq<Action>)
    requires Inv(w) && ValidRun(w, actions)
    ensures Evolves(w, Run(w, actions))
    decreases |actions|
  {
    if actions != [] {
      StepKeepsInv(w, actions[0]);
      StepEvolves(w, actions[0]);
      RunEvolves(Step(w, actions[0]), actions[1..]);
      EvolvesTransitive(w, Step(w, actions[0]), Run(w, actions));
    }
  }

  // ---------------------------------------------------------------- reachable worlds

  ghost predicate ReachedBy(w: World, cfg: Config, clock: Time, actions: seq<Action>) {
    ValidRun(Empty(cfg, clock), actions) && w == Run(Empty(cfg, clock), actions)
  }

  /** Some run of the server, started on empty tables, stops in `w`. */
  ghost predicate Reachable(w: World) {
    exists cfg, clock, actions :: ReachedBy(w, cfg, clock, actions)
  }

  lemma ReachableInv(w: World)
    requires Reachable(w)
    ensures Inv(w)
  {
    var cfg, clock, actions :| ReachedBy(w, cfg, clock, actions);
    EmptyInv(cfg, clock);
    RunKeepsInv(Empty(cfg, clock), actions);
  }

  /** What a request has committed when it ends, or is cut off, leads on to a reachable world. */
  lemma ServingStaysReachable(w: World, a: Action)
    requires Reachable(w) && Enabled(w, a)
    ensures Reachable(Step(w, a))
  {
    var cfg, clock, actions :| ReachedBy(w, cfg, clock, actions);
    RunAppend(Empty(cfg, clock), actions, a);
    assert ReachedBy(Step(w, a), cfg, clock, actions + [a]);
  }

  lemma ServedPrefixIsReachable(w: World, c: Call, k: nat)
    requires Reachable(w) && Enabled(w, Action(c, 0)) && k <= |PlanOf(Arrive(w, c), c).commits|
    ensures Reachable(ApplyAll(Arrive(w, c), PlanOf(Arrive(w, c), c).commits[..k]))
  {
    var cs := PlanOf(Arrive(w, c), c).commits;
    ServingStaysReachable(w, Action(c, k));
    assert Performed(w, Action(c, k)) == cs[..k] by { assert cs[..|cs|] == cs; }
  }

  /** A code-born family never has two unrevoked refresh tokens, not even between the commits of one grant. */
  lemma OneLiveRefreshToken(w: World, f: Id, i: Id, j: Id)
    requires Reachable(w) && LiveRefresh(w.tokens, i, f) && LiveRefresh(w.tokens, j, f)
    ensures i == j
  {
    ReachableInv(w);
  }

  /** Every token a family ever issued carries the client, subject and audience its approval fixed, and no more scope
      than the code, which carries no more than was requested, which is within the bound in force at /authorize. */
  lemma FamilyFixesTokens(w: World, id: Id)
    requires Reachable(w) && id in w.facts && w.facts[id].token.parent.Some?
    ensures w.facts[id].token.parent.value in w.families
    ensures var t, f := w.facts[id].token, w.families[w.facts[id].token.parent.value];
            && t.client == Some(f.client) && t.sub == f.sub && t.audience == f.audience
            && t.scope <= f.scope <= f.requested <= f.ceiling
    ensures id in w.tokens ==> SameIssue(w.tokens[id], w.facts[id].token)
  {
    ReachableInv(w);
    assert FactOk(w.codes, w.families, w.facts[id].token);
  }

  /** Scopes along a family only shrink: whatever is issued after a refresh token carries no more than it. */
  lemma ScopesOnlyShrink(w: World, earlier: Id, later: Id)
    requires Reachable(w) && After(w.facts, earlier, later)
    ensures w.facts[later].token.scope <= w.facts[earlier].token.scope
  {
    ReachableInv(w);
  }

  /** A revocation is final: over any further run the row, while it exists, keeps its time and its reason, and a
      deleted row never comes back. */
  lemma {:induction false} RevocationIsFinal(w: World, actions: seq<Action>, id: Id)
    requires Reachable(w) && ValidRun(w, actions)
    ensures id in w.tokens && w.tokens[id].revoked.Some? && id in Run(w, actions).tokens ==>
              Run(w, actions).tokens[id].revoked == w.tokens[id].revoked
    ensures id in w.facts && id !in w.tokens ==> id !in Run(w, actions).tokens
  {
    ReachableInv(w);
    RunEvolves(w, actions);
  }

  // ---------------------------------------------------------------- a code is redeemed at most once

  predicate Redeems(c: Commit, id: Id) {
    c.UseCode? && c.id == id
  }

  ghost predicate NeverRedeemed(cs: seq<Commit>, id: Id) {
    forall k | 0 <= k < |cs| :: !Redeems(cs[k], id)
  }

  ghost predicate RedeemedAtMostOnce(cs: seq<Commit>, id: Id) {
    forall i, j | 0 <= i < j < |cs| && Redeems(cs[i], id) :: !Redeems(cs[j], id)
  }

  lemma {:induction false} RedeemedAppend(a: seq<Commit>, b: seq<Commit>, id: Id)
    requires RedeemedAtMostOnce(a, id) && RedeemedAtMostOnce(b, id)
    requires NeverRedeemed(a, id) || NeverRedeemed(b, id)
    ensures RedeemedAtMostOnce(a + b, id)
  {
    var cs := a + b;
    forall i, j | 0 <= i < j < |cs| && Redeems(cs[i], id) ensures !Redeems(cs[j], id) {
      assert i < |a| ==> cs[i] == a[i];
      assert i >= |a| ==> cs[i] == b[i - |a|];
      assert j < |a| ==> cs[j] == a[j];
      assert j >= |a| ==> cs[j] == b[j - |a|];
    }
  }

  /** The family exists and its code can no longer be redeemed. */
  predicate Closed(w: World, f: Id) {
    f in w.families && Spent(w.codes, f)
  }

  lemma ClosedStaysClosed(w: World, n: World, f: Id)
    requires Evolves(w, n) && Closed(w, f)
    ensures Closed(n, f)
  {
    if f in n.codes { assert CodeRetired(n.codes[f], w.codes[f]); }
  }

  lemma RedeemingCloses(w: World, c: Commit, f: Id)
    requires Inv(w) && Guard(w, c)
    ensures Inv(Apply(w, c))
    ensures Redeems(c, f) ==> !Closed(w, f) && Closed(Apply(w, c), f)
    ensures Closed(w, f) ==> Closed(Apply(w, c), f)
  {
    CommitKeepsInv(w, c);
    if Closed(w, f) {
      CommitEvolves(w, c);
      ClosedStaysClosed(w, Apply(w, c), f);
    }
  }

  /** A closed family's code is not redeemed; a code redeemed here is closed afterwards. */
  lemma {:induction false} PlanRedeemsOnce(w: World, cs: seq<Commit>, done: seq<Commit>, id: Id)
    requires Inv(w) && GuardedAll(w, cs) && done <= cs
    ensures RedeemedAtMostOnce(done, id)
    ensures Closed(w, id) ==> NeverRedeemed(done, id) && Closed(ApplyAll(w, done), id)
    ensures NeverRedeemed(done, id) || Closed(ApplyAll(w, done), id)
    decreases |cs|
  {
    if done != [] {
      var c, rest := cs[0], done[1..];
      RedeemingCloses(w, c, id);
      PlanRedeemsOnce(Apply(w, c), cs[1..], rest, id);
      RedeemedAppend([c], rest, id);
      assert done == [c] + rest;
    }
  }

  /** In the commits of any run each code is redeemed at most once, and a spent one never. */
  lemma {:induction false} CodeRedeemedOnce(w: World, actions: seq<Action>, id: Id)
    requires Inv(w) && ValidRun(w, actions)
    ensures RedeemedAtMostOnce(Log(w, actions), id)
    ensures Closed(w, id) ==> NeverRedeemed(Log(w, actions), id)
    decreases |actions|
  {
    if actions != [] {
      var a := actions[0];
      ArrivingKeepsInv(w, a.call);
      PlanIsGuarded(Arrive(w, a.call), a.call);
      PlanRedeemsOnce(Arrive(w, a.call), PlanOf(Arrive(w, a.call), a.call).commits, Performed(w, a), id);
      StepKeepsInv(w, a);
      CodeRedeemedOnce(Step(w, a), actions[1..], id);
      RedeemedAppend(Performed(w, a), Log(Step(w, a), actions[1..]), id);
    }
  }

  // ---------------------------------------------------------------- dead families

  /** No token can join the family any more: the code is spent and no live refresh token is left. */
  ghost predicate Barren(w: World, f: Id) {
    Closed(w, f) && forall k :: !LiveRefresh(w.tokens, k, f)
  }

  /** Barren, and every token still on record is revoked. */
  ghost predicate Dead(w: World, f: Id) {
    Closed(w, f) && forall k | k in w.tokens && w.tokens[k].parent == Some(f) :: w.tokens[k].revoked.Some?
  }

  predicate Joins(c: Commit, f: Id) {
    c.PutToken? && c.token.parent == Some(f)
  }

  ghost predicate NoneJoins(cs: seq<Commit>, f: Id) {
    forall k | 0 <= k < |cs| :: !Joins(cs[k], f)
  }

  lemma RefreshSparesBarren(w: World, caller: Caller, jwt: Jwt, scope: Option<string>, resource: Option<Audience>,
                            access: Id, refresh: Id, now: Time, f: Id)
    requires Inv(w) && Barren(w, f)
    ensures NoneJoins(RefreshPlan(w, caller, jwt, scope, resource, access, refresh, now).commits, f)
  {
    var plan := RefreshPlan(w, caller, jwt, scope, resource, access, refresh, now);
    if plan.answer.Tokens? {
      RefreshRow(w, jwt);
      assert LiveRefresh(w.tokens, jwt.jti, w.tokens[jwt.jti].parent.value);
    }
  }

  lemma AuthorizeJoinsNothing(w: World, dir: Directory, p: AuthorizeParams, session: Option<UserId>, requestId: Id,
                              code: Id, now: Time, f: Id)
    ensures NoneJoins(AuthorizePlan(w, dir, p, session, requestId, code, now).commits, f)
  {
  }

  lemma DecideJoinsNothing(w: World, requestId: Id, user: UserId, approve: bool, granted: Option<set<Scope>>,
                           remember: bool, code: Id, now: Time, f: Id)
    ensures NoneJoins(DecidePlan(w, requestId, user, approve, granted, remember, code, now).commits, f)
  {
  }

  lemma RedeemSparesBarren(w: World, caller: Caller, codeId: Id, uri: Uri, verifier: string, resource: Option<Audience>,
                           access: Id, refresh: Id, now: Time, f: Id)
    requires Barren(w, f)
    ensures NoneJoins(RedeemPlan(w, caller, codeId, uri, verifier, resource, access, refresh, now).commits, f)
  {
  }

  lemma ConsoleJoinsNothing(w: World, c: Call, f: Id)
    requires !(c.RefreshTokens? || c.RedeemCode? || c.Authorize? || c.Decide?)
    ensures NoneJoins(PlanOf(w, c).commits, f)
  {
    var cs := PlanOf(w, c).commits;
    assert |cs| <= 3;
    assert |cs| > 0 ==> !Joins(cs[0], f);
    assert |cs| > 1 ==> !Joins(cs[1], f);
    assert |cs| > 2 ==> !Joins(cs[2], f);
  }

  /** No endpoint issues a token into a barren family. */
  lemma PlanSparesBarren(w: World, c: Call, f: Id)
    requires Inv(w) && Barren(w, f)
    ensures NoneJoins(PlanOf(w, c).commits, f)
  {
    match c
    case RefreshTokens(now, caller, jwt, scope, resource, access, refresh) =>
      RefreshSparesBarren(w, caller, jwt, scope, resource, access, refresh, now, f);
    case RedeemCode(now, caller, code, uri, verifier, resource, access, refresh) =>
      RedeemSparesBarren(w, caller, code, uri, verifier, resource, access, refresh, now, f);
    case Authorize(now, dir, params, session, requestId, code) =>
      AuthorizeJoinsNothing(w, dir, params, session, requestId, code, now, f);
    case Decide(now, requestId, user, approve, granted, remember, code) =>
      DecideJoinsNothing(w, requestId, user, approve, granted, remember, code, now, f);
    case _ => ConsoleJoinsNothing(w, c, f);
  }

  /** A row or fact that is new came from issuing a token. */
  lemma NewRowsAreIssued(w: World, c: Commit)
    requires Guard(w, c)
    ensures forall k | k in Apply(w, c).tokens && k !in w.tokens :: c == PutToken(k, Apply(w, c).tokens[k])
    ensures forall k | k in Apply(w, c).facts && k !in w.facts :: c == PutToken(k, Apply(w, c).facts[k].token)
  {
    if Retiring(c) { CommitRetires(w, c); }
  }

  ghost predicate NoNewMembers(old': Facts, new': Facts, f: Id) {
    forall k | k in new' && new'[k].token.parent == Some(f) :: k in old' && new'[k] == old'[k]
  }

  ghost predicate MembersRetire(old': Tokens, new': Tokens, f: Id) {
    forall k | k in new' && new'[k].parent == Some(f) :: k in old' && Retired(new'[k], old'[k])
  }

  /** Between the two worlds the closed family gained nothing and its rows only retired. */
  ghost predicate Spares(w: World, n: World, f: Id) {
    Closed(n, f) && MembersRetire(w.tokens, n.tokens, f) && NoNewMembers(w.facts, n.facts, f)
  }

  lemma SparedStaysBarren(w: World, n: World, f: Id)
    requires Spares(w, n, f)
    ensures Barren(w, f) ==> Barren(n, f)
    ensures Dead(w, f) ==> Dead(n, f)
  {
    if Barren(w, f) {
      forall k ensures !LiveRefresh(n.tokens, k, f) {
        if LiveRefresh(n.tokens, k, f) { assert LiveRefresh(w.tokens, k, f); }
      }
    }
  }

  lemma SparesTransitive(a: World, b: World, c: World, f: Id)
    requires Spares(a, b, f) && Spares(b, c, f)
    ensures Spares(a, c, f)
  {
    forall k | k in c.tokens && c.tokens[k].parent == Some(f) ensures k in a.tokens && Retired(c.tokens[k], a.tokens[k]) {
      assert Retired(c.tokens[k], b.tokens[k]) && Retired(b.tokens[k], a.tokens[k]);
    }
  }

  lemma CommitSpares(w: World, c: Commit, f: Id)
    requires Inv(w) && Guard(w, c) && Closed(w, f) && !Joins(c, f)
    ensures Spares(w, Apply(w, c), f)
  {
    CommitEvolves(w, c);
    ClosedStaysClosed(w, Apply(w, c), f);
    NewRowsAreIssued(w, c);
  }

  lemma {:induction false} CommitsSpare(w: World, cs: seq<Commit>, done: seq<Commit>, f: Id)
    requires Inv(w) && GuardedAll(w, cs) && done <= cs && Closed(w, f) && NoneJoins(cs, f)
    ensures Spares(w, ApplyAll(w, done), f)
    decreases |cs|
  {
    if done != [] {
      CommitKeepsInv(w, cs[0]);
      CommitSpares(w, cs[0], f);
      CommitsSpare(Apply(w, cs[0]), cs[1..], done[1..], f);
      SparesTransitive(w, Apply(w, cs[0]), ApplyAll(w, done), f);
    }
  }

  lemma StepSpares(w: World, a: Action, f: Id)
    requires Inv(w) && Enabled(w, a) && Barren(w, f)
    ensures Spares(w, Step(w, a), f)
  {
    var w1 := Arrive(w, a.call);
    ArrivingKeepsInv(w, a.call);
    PlanIsGuarded(w1, a.call);
    PlanSparesBarren(w1, a.call, f);
    CommitsSpare(w1, PlanOf(w1, a.call).commits, Performed(w, a), f);
  }

  /** A barren family issues nothing in any later run: it stays barren, and a dead one stays dead. */
  lemma {:induction false} BarrenForever(w: World, actions: seq<Action>, f: Id)
    requires Inv(w) && ValidRun(w, actions) && Barren(w, f)
    ensures Spares(w, Run(w, actions), f) && Barren(Run(w, actions), f)
    ensures Dead(w, f) ==> Dead(Run(w, actions), f)
    decreases |actions|
  {
    if actions != [] {
      var n := Step(w, actions[0]);
      StepKeepsInv(w, actions[0]);
      StepSpares(w, actions[0], f);
      SparedStaysBarren(w, n, f);
      BarrenForever(n, actions[1..], f);
      SparesTransitive(w, n, Run(w, actions), f);
    }
  }

  // ---------------------------------------------------------------- what kills a family

  lemma RevokedChainIsDead(w: World, f: Id, r: Revocation)
    requires Closed(w, f)
    ensures Dead(Apply(w, RevokeFamily(f, r)), f)
  {
  }

  lemma ApplyOne(w: World, a: Commit)
    ensures ApplyAll(w, [a]) == Apply(w, a)
  {
    assert [a][1..] == [];
    assert ApplyAll(Apply(w, a), []) == Apply(w, a);
  }

  lemma ApplyTwo(w: World, a: Commit, b: Commit)
    ensures ApplyAll(w, [a, b]) == Apply(Apply(w, a), b)
  {
    assert [a, b][1..] == [b];
    ApplyOne(Apply(w, a), b);
  }

  /** When the code grant detects a replay: the caller may use the grant, and the code is on record as used. */
  predicate IsCodeReplay(w: World, c: Call)
    requires c.RedeemCode?
  {
    MayUse(w, c.caller, AuthorizationCode).None? && c.code in w.codes && w.codes[c.code].usedAt.Some?
  }

  /** Presenting a used code revokes its whole family - whoever presents it, as long as they may use the grant - and
      does so in the request's only commit, before the error is raised. The condition is exact: once the code's row is
      cleaned up a replay is an unknown code and revokes nothing. */
  lemma CodeReplayKills(w: World, c: Call)
    requires Inv(w) && c.RedeemCode?
    ensures IsCodeReplay(w, c) <==> exists k | 0 <= k < |PlanOf(w, c).commits| :: PlanOf(w, c).commits[k].RevokeFamily?
    ensures IsCodeReplay(w, c) ==>
              && PlanOf(w, c) == Plan([RevokeFamily(c.code, Revocation(c.now, CodeReplay))], Failed(BadGrant))
              && Dead(ApplyAll(w, PlanOf(w, c).commits), c.code)
  {
    var cs := PlanOf(w, c).commits;
    if IsCodeReplay(w, c) {
      assert cs[0].RevokeFamily?;
      ApplyOne(w, cs[0]);
      RevokedChainIsDead(w, c.code, Revocation(c.now, CodeReplay));
    } else {
      assert |cs| <= 3;
    }
  }

  lemma ApplyCleanup(w: World, now: Time)
    ensures ApplyAll(w, CleanupPlan(now).commits)
         == Apply(Apply(Apply(w, DropRequests(now)), DropCodes(now - CODE_GRACE)), DropTokens(now - TOKEN_GRACE))
  {
    var cs := CleanupPlan(now).commits;
    assert cs[1..] == [cs[1], cs[2]];
    ApplyTwo(Apply(w, cs[0]), cs[1], cs[2]);
  }

  lemma CleanupEffect(w: World, now: Time, f: Id)
    ensures var n := ApplyAll(w, CleanupPlan(now).commits);
            && n.families == w.families && n.codes == CodesFrom(w.codes, now - CODE_GRACE)
            && n.tokens == TokensFrom(w.tokens, now - TOKEN_GRACE)
            && forall k | LiveRefresh(w.tokens, k, f) && now <= w.tokens[k].expires as real + TOKEN_GRACE ::
                 LiveRefresh(n.tokens, k, f)
  {
    ApplyCleanup(w, now);
  }

  /** A code whose row is gone is unknown for ever: over any run, presenting it fails and commits nothing. */
  lemma {:induction false} ForgottenCodeRevokesNothing(w: World, actions: seq<Action>, c: Call)
    requires Inv(w) && ValidRun(w, actions) && c.RedeemCode? && c.code in w.families && c.code !in w.codes
    ensures PlanOf(Run(w, actions), c).commits == [] && PlanOf(Run(w, actions), c).answer.Failed?
  {
    RunEvolves(w, actions);
  }

  /** How long a used code is recognised: a clean-up deletes its row exactly when it runs more than the grace period
      after the code's expiry. From then on, over any run, a replay revokes nothing, although the family's live
      refresh tokens, which expire much later, survive the same clean-up. */
  lemma {:induction false} ReplayAfterCleanupRevokesNothing(w: World, now: Time, actions: seq<Action>, c: Call)
    requires Inv(w) && w.clock == now && c.RedeemCode? && c.code in w.codes
    requires ValidRun(ApplyAll(w, CleanupPlan(now).commits), actions)
    ensures var n := ApplyAll(w, CleanupPlan(now).commits);
            && (c.code in n.codes <==> now <= w.codes[c.code].expires + CODE_GRACE)
            && (c.code !in n.codes ==>
                  PlanOf(Run(n, actions), c).commits == [] && PlanOf(Run(n, actions), c).answer.Failed?)
            && (forall k | LiveRefresh(w.tokens, k, c.code) && now <= w.tokens[k].expires as real + TOKEN_GRACE ::
                  LiveRefresh(n.tokens, k, c.code) && !Dead(n, c.code))
  {
    var n := ApplyAll(w, CleanupPlan(now).commits);
    CleanupEffect(w, now, c.code);
    if c.code !in n.codes {
      assert Inv(n) by {
        CleanupGuarded(w, now);
        GuardedPrefixKeepsInv(w, CleanupPlan(now).commits, CleanupPlan(now).commits);
      }
      ForgottenCodeRevokesNothing(n, actions, c);
    }
  }

  /** When the refresh grant detects a replay: everything up to the revocation check passes, and the row was rotated. */
  predicate IsRefreshReplay(w: World, c: Call)
    requires c.RefreshTokens?
  {
    && MayUse(w, c.caller, RefreshToken).None?
    && Verifies(w, c.jwt, c.now) && c.jwt.use == RefreshUse && c.jwt.client == Some(c.caller.id)
    && c.jwt.jti in w.tokens
    && (c.resource.Some? ==> c.resource == w.tokens[c.jwt.jti].audience)
    && w.tokens[c.jwt.jti].revoked.Some? && w.tokens[c.jwt.jti].revoked.value.reason == Rotated
  }

  /** Presenting a rotated refresh token revokes its whole family, before the error. The condition is exact: a replay
      naming a different resource, or by another client, is refused without revoking anything. */
  lemma RefreshReplayKills(w: World, c: Call)
    requires Inv(w) && c.RefreshTokens?
    ensures IsRefreshReplay(w, c) <==> exists k | 0 <= k < |PlanOf(w, c).commits| :: PlanOf(w, c).commits[k].RevokeFamily?
    ensures IsRefreshReplay(w, c) ==>
              && PlanOf(w, c).answer == Failed(BadGrant)
              && w.tokens[c.jwt.jti].parent.Some?
              && Dead(ApplyAll(w, PlanOf(w, c).commits), w.tokens[c.jwt.jti].parent.value)
  {
    var cs := PlanOf(w, c).commits;
    if IsRefreshReplay(w, c) {
      RefreshRow(w, c.jwt);
      assert cs[0].RevokeFamily?;
      assert FactOk(w.codes, w.families, w.facts[c.jwt.jti].token);
      ApplyOne(w, cs[0]);
      RevokedChainIsDead(w, w.tokens[c.jwt.jti].parent.value, Revocation(c.now, RefreshReplay));
    } else {
      assert |cs| <= 3;
    }
  }

  /** Revoking a refresh token, by its client or by an administrator, kills its family once the request completes;
      cut off after its first commit, the request leaves the family barren if the token was the live one. */
  lemma RevokingRefreshKills(w: World, id: Id, r: Revocation)
    requires Inv(w) && id in w.tokens && w.tokens[id].kind == Refresh
    ensures w.tokens[id].parent.Some? && Dead(ApplyAll(w, RevokeAndChain(w, id, r)), w.tokens[id].parent.value)
    ensures w.tokens[id].revoked.None? ==>
              RevokeAndChain(w, id, r)[0] == Revoke(id, r)
              && Barren(Apply(w, Revoke(id, r)), w.tokens[id].parent.value)
  {
    assert SameIssue(w.tokens[id], w.facts[id].token);
    assert FactOk(w.codes, w.families, w.facts[id].token);
    var f := w.tokens[id].parent.value;
    var one, all := Revoke(id, r), RevokeFamily(f, r);
    if w.tokens[id].revoked.None? {
      assert LiveRefresh(w.tokens, id, f);
      var n := Apply(w, one);
      forall k ensures !LiveRefresh(n.tokens, k, f) {
        if LiveRefresh(n.tokens, k, f) { assert LiveRefresh(w.tokens, k, f); }
      }
      assert RevokeAndChain(w, id, r) == [one, all];
      ApplyTwo(w, one, all);
      RevokedChainIsDead(n, f, r);
    } else {
      assert RevokeAndChain(w, id, r) == [all];
      ApplyOne(w, all);
      RevokedChainIsDead(w, f, r);
    }
  }

  /** Once a family is dead - by any of the kills above - no later run of any length has an unrevoked token in it. */
  lemma {:induction false} DeadForever(w: World, actions: seq<Action>, f: Id, id: Id)
    requires Reachable(w) && ValidRun(w, actions) && Dead(w, f)
    requires var n := Run(w, actions); id in n.tokens && n.tokens[id].parent == Some(f)
    ensures Run(w, actions).tokens[id].revoked.Some? && id in w.tokens
  {
    ReachableInv(w);
    BarrenForever(w, actions, f);
  }

  lemma RevokeClientEffect(w: World, id: ClientId, now: Time)
    requires id in w.clients && w.clients[id].via != System
    ensures ApplyAll(w, RevokeClientPlan(w, id, now).commits)
         == w.(clients := w.clients[id := w.clients[id].(active := false)],
               tokens := RevokedOfClient(w.tokens, id, Revocation(now, ClientRevoked)))
  {
    ApplyTwo(w, PutClient(id, w.clients[id].(active := false)), RevokeByClient(id, Revocation(now, ClientRevoked)));
  }

  /** Revoking a client leaves none of its tokens live, so every family it redeemed is dead. */
  lemma RevokingClientKills(w: World, id: ClientId, now: Time, f: Id)
    requires RowsInv(w.tokens, w.facts) && FactsInv(w.codes, w.families, w.facts)
    requires id in w.clients && w.clients[id].via != System
    requires Closed(w, f) && w.families[f].client == id
    requires forall k | k in w.tokens && w.tokens[k].parent == Some(f) :: w.tokens[k].client.Some?
    ensures var n := ApplyAll(w, RevokeClientPlan(w, id, now).commits);
            && id in n.clients && !n.clients[id].active
            && (forall k | k in n.tokens && n.tokens[k].client == Some(id) :: n.tokens[k].revoked.Some?)
            && Dead(n, f)
  {
    RevokeClientEffect(w, id, now);
    forall k | k in w.tokens && w.tokens[k].parent == Some(f) ensures w.tokens[k].client == Some(id) {
      assert SameIssue(w.tokens[k], w.facts[k].token) && FactOk(w.codes, w.families, w.facts[k].token);
    }
  }

  // ---------------------------------------------------------------- introspection

  /** After cleanup deleted the row, nothing signed under its jti verifies any more - neither the token nor a copy. */
  lemma DeletedNeverVerifies(w: World, jwt: Jwt, now: Time)
    requires JwtsInv(w.jwts, w.families, w.facts) && GoneInv(w.tokens, w.facts, w.clock) && w.clock <= now
    requires jwt.jti in w.facts && jwt.jti !in w.tokens
    ensures !Verifies(w, jwt, now)
  {
    if jwt in w.jwts { assert JwtAgrees(jwt, w.facts[jwt.jti].token); }
  }

  /** A recorded token, once revoked, is never reported active again: not by its own JWT nor by a probe copy of it,
      to no caller, at no later time, and not after cleanup has deleted its row. */
  lemma {:induction false} RevokedNeverActive(w: World, actions: seq<Action>, caller: Caller, jwt: Jwt, now: Time)
    requires Reachable(w) && ValidRun(w, actions) && Run(w, actions).clock <= now
    requires jwt.jti in w.tokens && w.tokens[jwt.jti].revoked.Some?
    ensures IntrospectPlan(Run(w, actions), caller, jwt, now).answer != Introspected(true)
  {
    var n := Run(w, actions);
    assert jwt.jti in w.facts && Inv(n) && RowsEvolve(w.facts, w.tokens, n.tokens) && FactsGrow(w.facts, n.facts) by {
      ReachableInv(w);
      RunKeepsInv(w, actions);
      RunEvolves(w, actions);
    }
    if jwt.jti in n.tokens {
      assert Retired(n.tokens[jwt.jti], w.tokens[jwt.jti]);
    } else {
      DeletedNeverVerifies(n, jwt, now);
    }
  }

  lemma IssuedIsSigned(w: World, id: Id)
    requires Reachable(w) && id in w.tokens
    ensures id in w.facts && JwtOf(id, w.facts[id].token) in w.jwts && w.facts[id].token.expires == w.tokens[id].expires
    ensures w.tokens[id].client.Some? ==> JwtOf(id, w.tokens[id]) == JwtOf(id, w.facts[id].token)
  {
    ReachableInv(w);
    assert SameIssue(w.tokens[id], w.facts[id].token);
  }

  /** A recorded token is reported active to a resource server exactly while its row is unrevoked and unexpired - also
      when its client has been deleted. */
  lemma LiveIsActive(w: World, id: Id, caller: Caller, now: Time)
    requires Reachable(w) && id in w.tokens
    requires Authenticate(w, caller).None? && w.clients[caller.id].confidential
    ensures id in w.facts
    ensures IntrospectPlan(w, caller, JwtOf(id, w.facts[id].token), now).answer
         == Introspected(w.tokens[id].revoked.None? && now <= w.tokens[id].expires as real)
  {
    IssuedIsSigned(w, id);
  }

  lemma DeleteClientEffect(w: World, c: ClientId)
    requires c in w.clients && w.clients[c].via != System
    ensures var n := ApplyAll(w, DeleteClientPlan(w, c).commits);
            && n.clients == w.clients - {c} && n.tokens == Orphaned(w.tokens, c) && n.jwts == w.jwts
            && (forall r :: RevokedOfClient(n.tokens, c, r) == n.tokens)
  {
    ApplyOne(w, DropClient(c));
    var tokens := Orphaned(w.tokens, c);
    forall r ensures RevokedOfClient(tokens, c, r) == tokens {}
  }

  /** Deleting a client does to its tokens the opposite of revoking it: revoked, none of them is ever reported active
      again; deleted, each is reported to other resource servers as before, until its own revocation or expiry, and no
      revocation by client finds it any more. */
  lemma DeletingSparesTokens(w: World, c: ClientId, id: Id, caller: Caller, at: Time, now: Time)
    requires Reachable(w) && id in w.tokens && w.tokens[id].client == Some(c)
    requires c in w.clients && w.clients[c].via != System
    requires caller.id != c && Authenticate(w, caller).None? && w.clients[caller.id].confidential
    ensures var jwt := JwtOf(id, w.tokens[id]);
            var deleted, revoked := ApplyAll(w, DeleteClientPlan(w, c).commits),
                                    ApplyAll(w, RevokeClientPlan(w, c, at).commits);
            && IntrospectPlan(deleted, caller, jwt, now).answer
               == Introspected(w.tokens[id].revoked.None? && now <= w.tokens[id].expires as real)
            && (forall r :: RevokedOfClient(deleted.tokens, c, r) == deleted.tokens)
            && IntrospectPlan(revoked, caller, jwt, now).answer == Introspected(false)
  {
    IssuedIsSigned(w, id);
    DeleteClientEffect(w, c);
    RevokeClientEffect(w, c, at);
  }
}
