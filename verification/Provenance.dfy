/**
 Where a family comes from: over any run its client, audience and bound were fixed by an /authorize call, and its
 subject by the decision, or the remembered consent, that followed.
 */
module Provenance {
  import opened Prelude
  import opened ScopeRegistry
  import opened ScopeTexts
  import opened OAuthTables
  import opened OAuthEndpoints
  import opened TokenFamilies
  import opened GrantRuns
  import opened FamilySafety
  import opened GrantFlows

  // ---------------------------------------------------------------- what a request asks for and what approves it

  predicate SameRequest(a: AuthRequest, b: AuthRequest) {
    a.(decidedAt := b.decidedAt) == b
  }

  /** The call is an accepted /authorize for this request: the client named, the target it asked for, the scope
      resolved, and the bound in force, all as of the world the call found. */
  ghost predicate Asked(w: World, c: Call, id: Id, req: AuthRequest, ceiling: set<Scope>) {
    && c.Authorize? && c.requestId == id && AuthorizeCheck(w, c.params).None?
    && var client := w.clients[c.params.client];
    var (audience, service) := TargetOf(c.dir, client, c.params.resource);
    && req.client == c.params.client && req.redirectUri == c.params.redirectUri && req.challenge == c.params.challenge
    && req.audience == audience && (audience.Some? ==> service.Some?)
    && ResolveScope(c.dir, c.params.scope, client.scope, service).Ok?
    && req.scope == Carried(ResolveScope(c.dir, c.params.scope, client.scope, service).value)
    && ceiling == Carried(Ceiling(c.dir, client.scope, service))
  }

  /** The call gives the request's code to a user: by decision, or because the user need not be asked. */
  predicate Approves(w: World, c: Call, id: Id, req: AuthRequest, code: Id, user: UserId, scope: set<Scope>) {
    if c.Decide? then
      && c.approve && c.requestId == id && c.code == code && c.user == user
      && id in w.requests && SameRequest(w.requests[id], req)
      && scope == if c.granted.None? then req.scope else req.scope * c.granted.value
    else
      && c.Authorize? && c.requestId == id && c.code == code && c.session == Some(user)
      && SkipsConsent(w, user, req.client, req.audience, req.scope) && scope == req.scope
  }

  ghost predicate Fixes(w: World, c: Call, id: Id, req: AuthRequest, ceiling: set<Scope>, f: Id, family: Family) {
    && Approves(w, c, id, req, f, family.sub, family.scope)
    && family.client == req.client && family.audience == req.audience
    && family.requested == req.scope && family.ceiling == ceiling
  }

  // ---------------------------------------------------------------- commits

  function FamilyOf(c: Commit): Family
    requires c.PutCode?
  {
    Family(c.code.client, c.code.user, c.code.audience, c.code.scope, c.requestScope, c.ceiling)
  }

  ghost predicate PutsFamily(cs: seq<Commit>, f: Id, family: Family) {
    exists k | 0 <= k < |cs| :: cs[k].PutCode? && cs[k].id == f && FamilyOf(cs[k]) == family
  }

  ghost predicate PutsRequest(cs: seq<Commit>, id: Id, req: AuthRequest, ceiling: set<Scope>) {
    exists k | 0 <= k < |cs| ::
      cs[k].PutRequest? && cs[k].id == id && SameRequest(cs[k].request, req) && cs[k].ceiling == ceiling
  }

  /** Requests and families are what they were, up to the decision, except for those one commit puts. */
  ghost predicate Keeps(w: World, n: World, cs: seq<Commit>) {
    && (forall f | f in n.families ::
          (f in w.families && n.families[f] == w.families[f]) || PutsFamily(cs, f, n.families[f]))
    && (forall id | id in n.requests && id in n.ceilings ::
          || (id in w.requests && id in w.ceilings && SameRequest(w.requests[id], n.requests[id])
              && n.ceilings[id] == w.ceilings[id])
          || PutsRequest(cs, id, n.requests[id], n.ceilings[id]))
  }

  lemma {:induction false} RetiringKeepsOrigins(w: World, n: World, cs: seq<Commit>)
    requires Retires(w, n)
    ensures Keeps(w, n, cs)
  {
  }

  lemma PutKeeps(w: World, c: Commit)
    requires RequestsInv(w.requests, w.ceilings) && Guard(w, c)
    ensures Keeps(w, Apply(w, c), [c])
  {
    match c {
      case PutCode(f, _, _, _) => assert [c][0] == c && FamilyOf(c) == Apply(w, c).families[f];
      case PutRequest(id, req, _) => assert [c][0] == c && SameRequest(req, Apply(w, c).requests[id]);
      case PutToken(_, _) => RetiringKeepsOrigins(w, w, [c]);
      case SignOnly(_) => RetiringKeepsOrigins(w, w, [c]);
      case _ =>
        CommitRetires(w, c);
        RetiringKeepsOrigins(w, Apply(w, c), [c]);
    }
  }

  lemma {:induction false} KeepsOneMore(w: World, c: Commit, n: World, rest: seq<Commit>, m: World)
    requires Keeps(w, n, [c]) && Keeps(n, m, rest) && RequestsInv(n.requests, n.ceilings)
    ensures Keeps(w, m, [c] + rest)
  {
    var cs := [c] + rest;
    forall f | f in m.families
      ensures (f in w.families && m.families[f] == w.families[f]) || PutsFamily(cs, f, m.families[f])
    {
      if PutsFamily(rest, f, m.families[f]) {
        var k :| 0 <= k < |rest| && rest[k].PutCode? && rest[k].id == f && FamilyOf(rest[k]) == m.families[f];
        assert cs[k + 1] == rest[k];
      } else if PutsFamily([c], f, n.families[f]) {
        assert cs[0] == c;
      }
    }
    forall id | id in m.requests && id in m.ceilings
      ensures || (id in w.requests && id in w.ceilings && SameRequest(w.requests[id], m.requests[id])
                  && m.ceilings[id] == w.ceilings[id])
              || PutsRequest(cs, id, m.requests[id], m.ceilings[id])
    {
      if PutsRequest(rest, id, m.requests[id], m.ceilings[id]) {
        var k :| 0 <= k < |rest| && rest[k].PutRequest? && rest[k].id == id
                 && SameRequest(rest[k].request, m.requests[id]) && rest[k].ceiling == m.ceilings[id];
        assert cs[k + 1] == rest[k];
      } else if PutsRequest([c], id, n.requests[id], n.ceilings[id]) {
        assert cs[0] == c;
      }
    }
  }

  lemma CommitKeeps(w: World, c: Commit)
    requires Inv(w) && Guard(w, c)
    ensures Inv(Apply(w, c)) && Keeps(w, Apply(w, c), [c])
  {
    CommitKeepsInv(w, c);
    PutKeeps(w, c);
  }

  lemma {:induction false} CommitsKeep(w: World, cs: seq<Commit>, done: seq<Commit>)
    requires Inv(w) && GuardedAll(w, cs) && done <= cs
    ensures Keeps(w, ApplyAll(w, done), done)
    decreases |cs|
  {
    if done != [] {
      var n := Apply(w, cs[0]);
      CommitKeeps(w, cs[0]);
      CommitsKeep(n, cs[1..], done[1..]);
      KeepsOneMore(w, cs[0], n, done[1..], ApplyAll(w, done));
      assert done == [cs[0]] + done[1..];
    }
  }

  // ---------------------------------------------------------------- which endpoint puts them

  lemma OthersPutNoRequest(w: World, c: Call, id: Id, req: AuthRequest, ceiling: set<Scope>)
    requires !c.Authorize?
    ensures !PutsRequest(PlanOf(w, c).commits, id, req, ceiling)
  {
    var cs := PlanOf(w, c).commits;
    assert |cs| <= 3;
    assert |cs| > 0 ==> !cs[0].PutRequest?;
    assert |cs| > 1 ==> !cs[1].PutRequest?;
    assert |cs| > 2 ==> !cs[2].PutRequest?;
  }

  lemma AuthorizePutsWhatWasAsked(w: World, c: Call, id: Id, req: AuthRequest, ceiling: set<Scope>)
    requires c.Authorize? && PutsRequest(PlanOf(w, c).commits, id, req, ceiling)
    ensures Asked(w, c, id, req, ceiling)
  {
    var cs := PlanOf(w, c).commits;
    assert |cs| <= 3;
  }

  lemma OnlyAuthorizePutsRequests(w: World, c: Call, id: Id, req: AuthRequest, ceiling: set<Scope>)
    requires PutsRequest(PlanOf(w, c).commits, id, req, ceiling)
    ensures Asked(w, c, id, req, ceiling)
  {
    if c.Authorize? {
      AuthorizePutsWhatWasAsked(w, c, id, req, ceiling);
    } else {
      OthersPutNoRequest(w, c, id, req, ceiling);
    }
  }

  lemma DecisionFixes(w: World, c: Call, f: Id, family: Family)
    requires RequestsInv(w.requests, w.ceilings) && c.Decide? && PutsFamily(PlanOf(w, c).commits, f, family)
    ensures c.requestId in w.requests && c.requestId in w.ceilings
    ensures Fixes(w, c, c.requestId, w.requests[c.requestId], w.ceilings[c.requestId], f, family)
  {
    var cs := PlanOf(w, c).commits;
    assert |cs| <= 3;
  }

  lemma SkippedConsentFixes(w: World, c: Call, f: Id, family: Family) returns (req: AuthRequest, ceiling: set<Scope>)
    requires c.Authorize? && PutsFamily(PlanOf(w, c).commits, f, family)
    ensures Asked(w, c, c.requestId, req, ceiling) && Fixes(w, c, c.requestId, req, ceiling, f, family)
  {
    var cs := PlanOf(w, c).commits;
    req, ceiling := cs[0].request, cs[0].ceiling;
    assert PutsRequest(cs, c.requestId, req, ceiling) by { assert SameRequest(cs[0].request, req); }
    OnlyAuthorizePutsRequests(w, c, c.requestId, req, ceiling);
    assert cs == [cs[0], cs[1], cs[2]];
  }

  lemma OthersPutNoFamily(w: World, c: Call, f: Id, family: Family)
    requires !c.Authorize? && !c.Decide?
    ensures !PutsFamily(PlanOf(w, c).commits, f, family)
  {
    var cs := PlanOf(w, c).commits;
    assert |cs| <= 3;
    assert |cs| > 0 ==> !cs[0].PutCode?;
    assert |cs| > 1 ==> !cs[1].PutCode?;
    assert |cs| > 2 ==> !cs[2].PutCode?;
  }

  // ---------------------------------------------------------------- runs

  /** The world as the `i`-th request of a run finds it. */
  function Found(start: World, actions: seq<Action>, i: nat): World
    requires i < |actions|
  {
    Arrive(Run(start, actions[..i]), actions[i].call)
  }

  ghost predicate AskedAt(start: World, actions: seq<Action>, i: nat, id: Id, req: AuthRequest, ceiling: set<Scope>) {
    i < |actions| && Asked(Found(start, actions, i), actions[i].call, id, req, ceiling)
  }

  ghost predicate FixedAt(start: World, actions: seq<Action>, j: nat, id: Id, req: AuthRequest, ceiling: set<Scope>,
                          f: Id, family: Family)
  {
    j < |actions| && Fixes(Found(start, actions, j), actions[j].call, id, req, ceiling, f, family)
  }

  /** Request `i` of the run asked for it, and request `j`, not earlier, approved it. */
  ghost predicate ComesFrom(start: World, actions: seq<Action>, i: nat, j: nat, id: Id, req: AuthRequest,
                            ceiling: set<Scope>, f: Id, family: Family)
  {
    i <= j && AskedAt(start, actions, i, id, req, ceiling) && FixedAt(start, actions, j, id, req, ceiling, f, family)
  }

  ghost predicate RequestTraced(start: World, actions: seq<Action>, n: nat, id: Id, req: AuthRequest,
                                ceiling: set<Scope>)
  {
    exists i: nat :: i < n && AskedAt(start, actions, i, id, req, ceiling)
  }

  ghost predicate FamilyTraced(start: World, actions: seq<Action>, n: nat, f: Id, family: Family) {
    exists i: nat, j: nat, id, req, ceiling :: j < n && ComesFrom(start, actions, i, j, id, req, ceiling, f, family)
  }

  /** After `n` requests everything in the tables is traced. */
  ghost predicate Traced(start: World, actions: seq<Action>, n: nat)
    requires n <= |actions|
  {
    var w := Run(start, actions[..n]);
    && (forall id | id in w.requests && id in w.ceilings ::
          RequestTraced(start, actions, n, id, w.requests[id], w.ceilings[id]))
    && (forall f | f in w.families :: FamilyTraced(start, actions, n, f, w.families[f]))
  }

  lemma {:induction false} PrefixIsValid(start: World, actions: seq<Action>, n: nat)
    requires ValidRun(start, actions) && n <= |actions|
    ensures ValidRun(start, actions[..n])
    ensures n < |actions| ==> Enabled(Run(start, actions[..n]), actions[n])
    decreases n
  {
    if n > 0 {
      PrefixIsValid(Step(start, actions[0]), actions[1..], n - 1);
      assert actions[..n][1..] == actions[1..][..n - 1];
    }
  }

  /** A request that was traced stays traced while the run goes on and it is at most decided. */
  lemma {:induction false} SameIsTraced(start: World, actions: seq<Action>, n: nat, id: Id, a: AuthRequest,
                                        b: AuthRequest, ceiling: set<Scope>)
    requires RequestTraced(start, actions, n, id, a, ceiling) && SameRequest(a, b)
    ensures RequestTraced(start, actions, n + 1, id, b, ceiling)
  {
    var i: nat :| i < n && AskedAt(start, actions, i, id, a, ceiling);
    assert AskedAt(start, actions, i, id, b, ceiling);
  }

  lemma {:induction false} NewFamilyIsTraced(start: World, actions: seq<Action>, n: nat, f: Id, family: Family)
    requires n < |actions| && Traced(start, actions, n) && Inv(Found(start, actions, n))
    requires PutsFamily(PlanOf(Found(start, actions, n), actions[n].call).commits, f, family)
    ensures FamilyTraced(start, actions, n + 1, f, family)
  {
    var w, c := Found(start, actions, n), actions[n].call;
    if c.Decide? {
      DecisionFixes(w, c, f, family);
      var id := c.requestId;
      var i: nat :| i < n && AskedAt(start, actions, i, id, w.requests[id], w.ceilings[id]);
      assert ComesFrom(start, actions, i, n, id, w.requests[id], w.ceilings[id], f, family);
    } else if c.Authorize? {
      var req, ceiling := SkippedConsentFixes(w, c, f, family);
      assert ComesFrom(start, actions, n, n, c.requestId, req, ceiling, f, family);
    } else {
      OthersPutNoFamily(w, c, f, family);
    }
  }

  lemma {:induction false} PutsInPrefix(cs: seq<Commit>, done: seq<Commit>, f: Id, family: Family)
    requires done <= cs && PutsFamily(done, f, family)
    ensures PutsFamily(cs, f, family)
  {
    var k :| 0 <= k < |done| && done[k].PutCode? && done[k].id == f && FamilyOf(done[k]) == family;
    assert cs[k] == done[k];
  }

  /** What one more request of the run keeps, and what it may have put. */
  lemma StepKeeps(w: World, a: Action)
    requires Inv(w) && Enabled(w, a)
    ensures Inv(Arrive(w, a.call)) && Keeps(Arrive(w, a.call), Step(w, a), Performed(w, a))
  {
    var w1 := Arrive(w, a.call);
    ArrivingKeepsInv(w, a.call);
    PlanIsGuarded(w1, a.call);
    CommitsKeep(w1, PlanOf(w1, a.call).commits, Performed(w, a));
  }

  lemma {:induction false} FamilyStaysTraced(start: World, actions: seq<Action>, n: nat, f: Id, m: World)
    requires n < |actions| && Traced(start, actions, n) && Inv(Found(start, actions, n)) && f in m.families
    requires Keeps(Found(start, actions, n), m, Performed(Run(start, actions[..n]), actions[n]))
    ensures FamilyTraced(start, actions, n + 1, f, m.families[f])
  {
    var w, done := Found(start, actions, n), Performed(Run(start, actions[..n]), actions[n]);
    if PutsFamily(done, f, m.families[f]) {
      PutsInPrefix(PlanOf(w, actions[n].call).commits, done, f, m.families[f]);
      NewFamilyIsTraced(start, actions, n, f, m.families[f]);
    } else {
      assert FamilyTraced(start, actions, n, f, w.families[f]);
    }
  }

  lemma {:induction false} RequestStaysTraced(start: World, actions: seq<Action>, n: nat, id: Id, m: World)
    requires n < |actions| && Traced(start, actions, n) && id in m.requests && id in m.ceilings
    requires Keeps(Found(start, actions, n), m, Performed(Run(start, actions[..n]), actions[n]))
    ensures RequestTraced(start, actions, n + 1, id, m.requests[id], m.ceilings[id])
  {
    var w, done := Found(start, actions, n), Performed(Run(start, actions[..n]), actions[n]);
    if PutsRequest(done, id, m.requests[id], m.ceilings[id]) {
      assert PutsRequest(PlanOf(w, actions[n].call).commits, id, m.requests[id], m.ceilings[id]);
      OnlyAuthorizePutsRequests(w, actions[n].call, id, m.requests[id], m.ceilings[id]);
      assert AskedAt(start, actions, n, id, m.requests[id], m.ceilings[id]);
    } else {
      SameIsTraced(start, actions, n, id, w.requests[id], m.requests[id], w.ceilings[id]);
    }
  }

  lemma {:induction false} AllStayTraced(start: World, actions: seq<Action>, n: nat, m: World)
    requires n < |actions| && Traced(start, actions, n) && Inv(Found(start, actions, n))
    requires Keeps(Found(start, actions, n), m, Performed(Run(start, actions[..n]), actions[n]))
    ensures forall f | f in m.families :: FamilyTraced(start, actions, n + 1, f, m.families[f])
    ensures forall id | id in m.requests && id in m.ceilings ::
              RequestTraced(start, actions, n + 1, id, m.requests[id], m.ceilings[id])
  {
    forall f | f in m.families ensures FamilyTraced(start, actions, n + 1, f, m.families[f]) {
      FamilyStaysTraced(start, actions, n, f, m);
    }
    forall id | id in m.requests && id in m.ceilings
      ensures RequestTraced(start, actions, n + 1, id, m.requests[id], m.ceilings[id])
    {
      RequestStaysTraced(start, actions, n, id, m);
    }
  }

  lemma {:induction false} StepIsTraced(start: World, actions: seq<Action>, n: nat)
    requires n < |actions| && Traced(start, actions, n)
    requires Inv(Run(start, actions[..n])) && Enabled(Run(start, actions[..n]), actions[n])
    ensures Traced(start, actions, n + 1)
  {
    RunAppend(start, actions[..n], actions[n]);
    assert actions[..n + 1] == actions[..n] + [actions[n]];
    StepKeeps(Run(start, actions[..n]), actions[n]);
    AllStayTraced(start, actions, n, Run(start, actions[..n + 1]));
  }

  lemma {:induction false} RunIsTraced(cfg: Config, clock: Time, actions: seq<Action>, n: nat)
    requires ValidRun(Empty(cfg, clock), actions) && n <= |actions|
    ensures Traced(Empty(cfg, clock), actions, n)
    decreases n
  {
    var start := Empty(cfg, clock);
    if n == 0 {
      assert actions[..0] == [];
    } else {
      RunIsTraced(cfg, clock, actions, n - 1);
      PrefixIsValid(start, actions, n - 1);
      EmptyInv(cfg, clock);
      RunKeepsInv(start, actions[..n - 1]);
      StepIsTraced(start, actions, n - 1);
    }
  }

  /** Every family of every run goes back to an /authorize call, at which its client, its audience and its bound were
      fixed, and to a later decision or a consent that could be skipped, which fixed its subject and scope. */
  lemma {:induction false} FamilyComesFromAuthorize(cfg: Config, clock: Time, actions: seq<Action>, f: Id)
    requires ValidRun(Empty(cfg, clock), actions) && f in Run(Empty(cfg, clock), actions).families
    ensures exists i: nat, j: nat, id, req, ceiling ::
              ComesFrom(Empty(cfg, clock), actions, i, j, id, req, ceiling, f,
                        Run(Empty(cfg, clock), actions).families[f])
  {
    var start := Empty(cfg, clock);
    RunIsTraced(cfg, clock, actions, |actions|);
    assert actions[..|actions|] == actions;
    assert FamilyTraced(start, actions, |actions|, f, Run(start, actions).families[f]);
  }

  /** So does every token a family issued, revoked, deleted or not: it speaks for the client, audience and subject of
      that exchange, with no more scope than the request, which is within what the directory's bound at that moment
      carries - and within that bound itself, if the granted string reads back as granted. */
  lemma {:induction false} TokenComesFromAuthorize(cfg: Config, clock: Time, actions: seq<Action>, id: Id)
    returns (i: nat, j: nat, request: Id, req: AuthRequest, user: UserId, scope: set<Scope>)
    requires ValidRun(Empty(cfg, clock), actions)
    requires id in Run(Empty(cfg, clock), actions).facts
    requires Run(Empty(cfg, clock), actions).facts[id].token.parent.Some?
    ensures i <= j < |actions|
    ensures var before, c := Found(Empty(cfg, clock), actions, i), actions[i].call;
            && c.Authorize? && c.params.client in before.clients
            && var client := before.clients[c.params.client];
            var (audience, service) := TargetOf(c.dir, client, c.params.resource);
            var t := Run(Empty(cfg, clock), actions).facts[id].token;
            && Asked(before, c, request, req, Carried(Ceiling(c.dir, client.scope, service)))
            && Approves(Found(Empty(cfg, clock), actions, j), actions[j].call, request, req, t.parent.value, user, scope)
            && t.client == Some(c.params.client) && t.audience == audience && t.sub == user
            && t.scope <= scope <= req.scope <= Carried(Ceiling(c.dir, client.scope, service))
            && (ReadsBack(c.dir, c.params.scope, client.scope, service) ==>
                  req.scope <= Ceiling(c.dir, client.scope, service))
  {
    var start, w := Empty(cfg, clock), Run(Empty(cfg, clock), actions);
    assert ReachedBy(w, cfg, clock, actions);
    FamilyFixesTokens(w, id);
    var f := w.facts[id].token.parent.value;
    FamilyComesFromAuthorize(cfg, clock, actions, f);
    var i', j', id', req', ceiling' :| ComesFrom(start, actions, i', j', id', req', ceiling', f, w.families[f]);
    i, j, request, req, user, scope := i', j', id', req', w.families[f].sub, w.families[f].scope;
    var before, c := Found(start, actions, i), actions[i].call;
    var client := before.clients[c.params.client];
    GrantReadsBackIff(c.dir, c.params.scope, client.scope, TargetOf(c.dir, client, c.params.resource).1);
  }
}
