/**
 What a code is worth goes back to the /authorize call it was given for: over any run its redirect URI, its challenge and
 its audience are those of that call, and its user, scope and lifetime those of the approval that followed.
 */
module CodeProvenance {
  import opened Prelude
  import opened ScopeRegistry
  import opened ScopeTexts
  import opened OAuthTables
  import opened OAuthEndpoints
  import opened TokenFamilies
  import opened GrantRuns
  import opened FamilySafety
  import opened GrantFlows
  import opened GrantAnswers
  import opened TokenAnswers
  import opened Provenance

  predicate SameCode(a: Code, b: Code) {
    a.(usedAt := b.usedAt) == b
  }

  /** The call approves the request, and gives this code for it. */
  predicate Gives(w: World, c: Call, id: Id, req: AuthRequest, f: Id, row: Code) {
    && Approves(w, c, id, req, f, row.user, row.scope)
    && row.client == req.client && row.redirectUri == req.redirectUri && row.audience == req.audience
    && row.challenge == req.challenge && row.expires == c.now + w.cfg.codeSeconds as real
  }

  // ---------------------------------------------------------------- commits

  ghost predicate PutsCode(cs: seq<Commit>, f: Id, row: Code) {
    exists k | 0 <= k < |cs| :: cs[k].PutCode? && cs[k].id == f && SameCode(cs[k].code, row)
  }

  ghost predicate KeepsCodes(w: World, n: World, cs: seq<Commit>) {
    && n.cfg == w.cfg
    && forall f | f in n.codes :: (f in w.codes && SameCode(w.codes[f], n.codes[f])) || PutsCode(cs, f, n.codes[f])
  }

  lemma CodesKept(w: World, n: World, cs: seq<Commit>)
    requires n.cfg == w.cfg && n.codes == w.codes
    ensures KeepsCodes(w, n, cs)
  {
  }

  lemma PutCodeKeepsCodes(w: World, c: Commit)
    requires c.PutCode?
    ensures KeepsCodes(w, Apply(w, c), [c])
  {
    assert [c][0] == c;
  }

  function UsedIn(codes: map<Id, Code>, id: Id, at: Time): map<Id, Code> {
    if id in codes then codes[id := codes[id].(usedAt := Some(at))] else codes
  }

  lemma UsedIsSame(codes: map<Id, Code>, id: Id, at: Time)
    ensures var n := UsedIn(codes, id, at); n.Keys == codes.Keys && forall f | f in n :: SameCode(codes[f], n[f])
  {
  }

  lemma CodesAfterUse(w: World, id: Id, at: Time)
    ensures var n := Apply(w, UseCode(id, at)); n.cfg == w.cfg && n.codes == UsedIn(w.codes, id, at)
  {
  }

  lemma UseCodeKeepsCodes(w: World, id: Id, at: Time)
    ensures KeepsCodes(w, Apply(w, UseCode(id, at)), [UseCode(id, at)])
  {
    CodesAfterUse(w, id, at);
    UsedIsSame(w.codes, id, at);
  }

  lemma DroppingKeepsCodes(w: World, c: Commit)
    requires c.DropCodes? || c.DropClient?
    ensures KeepsCodes(w, Apply(w, c), [c])
  {
  }

  lemma OthersKeepCodes(w: World, c: Commit)
    requires !c.PutCode? && !c.UseCode? && !c.DropCodes? && !c.DropClient?
    ensures Apply(w, c).codes == w.codes && Apply(w, c).cfg == w.cfg
  {
  }

  lemma CommitKeepsCodes(w: World, c: Commit)
    ensures KeepsCodes(w, Apply(w, c), [c])
  {
    if c.PutCode? {
      PutCodeKeepsCodes(w, c);
    } else if c.UseCode? {
      UseCodeKeepsCodes(w, c.id, c.at);
    } else if c.DropCodes? || c.DropClient? {
      DroppingKeepsCodes(w, c);
    } else {
      OthersKeepCodes(w, c);
      CodesKept(w, Apply(w, c), [c]);
    }
  }

  lemma {:induction false} CodesOneMore(w: World, c: Commit, n: World, rest: seq<Commit>, m: World)
    requires KeepsCodes(w, n, [c]) && KeepsCodes(n, m, rest)
    ensures KeepsCodes(w, m, [c] + rest)
  {
    var cs := [c] + rest;
    forall f | f in m.codes
      ensures (f in w.codes && SameCode(w.codes[f], m.codes[f])) || PutsCode(cs, f, m.codes[f])
    {
      if PutsCode(rest, f, m.codes[f]) {
        var k :| 0 <= k < |rest| && rest[k].PutCode? && rest[k].id == f && SameCode(rest[k].code, m.codes[f]);
        assert cs[k + 1] == rest[k];
      } else if PutsCode([c], f, n.codes[f]) {
        assert cs[0] == c;
      }
    }
  }

  lemma {:induction false} CommitsKeepCodes(w: World, cs: seq<Commit>)
    ensures KeepsCodes(w, ApplyAll(w, cs), cs)
    decreases |cs|
  {
    if cs != [] {
      CommitKeepsCodes(w, cs[0]);
      CommitsKeepCodes(Apply(w, cs[0]), cs[1..]);
      CodesOneMore(w, cs[0], Apply(w, cs[0]), cs[1..], ApplyAll(w, cs));
      assert cs == [cs[0]] + cs[1..];
    }
  }

  // ---------------------------------------------------------------- which endpoint gives codes

  lemma DecisionGives(w: World, c: Call, f: Id, row: Code)
    requires c.Decide? && PutsCode(PlanOf(w, c).commits, f, row)
    ensures c.requestId in w.requests && Gives(w, c, c.requestId, w.requests[c.requestId], f, row)
  {
    var cs := PlanOf(w, c).commits;
    assert |cs| <= 3;
  }

  lemma SkippedConsentGives(w: World, c: Call, f: Id, row: Code) returns (req: AuthRequest, ceiling: set<Scope>)
    requires c.Authorize? && PutsCode(PlanOf(w, c).commits, f, row)
    ensures Asked(w, c, c.requestId, req, ceiling) && Gives(w, c, c.requestId, req, f, row)
  {
    var cs := PlanOf(w, c).commits;
    req, ceiling := cs[0].request, cs[0].ceiling;
    assert PutsRequest(cs, c.requestId, req, ceiling) by { assert SameRequest(cs[0].request, req); }
    OnlyAuthorizePutsRequests(w, c, c.requestId, req, ceiling);
    assert cs == [cs[0], cs[1], cs[2]];
  }

  lemma OthersGiveNoCode(w: World, c: Call, f: Id, row: Code)
    requires !c.Authorize? && !c.Decide?
    ensures !PutsCode(PlanOf(w, c).commits, f, row)
  {
    var cs := PlanOf(w, c).commits;
    assert |cs| <= 3;
    assert |cs| > 0 ==> !cs[0].PutCode?;
    assert |cs| > 1 ==> !cs[1].PutCode?;
    assert |cs| > 2 ==> !cs[2].PutCode?;
  }

  // ---------------------------------------------------------------- runs

  /** Request `i` of the run asked for what the code stands for, and request `j`, not earlier, gave it. */
  ghost predicate GivenFor(start: World, actions: seq<Action>, i: nat, j: nat, id: Id, req: AuthRequest,
                           ceiling: set<Scope>, f: Id, row: Code)
  {
    && i <= j < |actions| && AskedAt(start, actions, i, id, req, ceiling)
    && Gives(Found(start, actions, j), actions[j].call, id, req, f, row)
  }

  ghost predicate CodeTraced(start: World, actions: seq<Action>, n: nat, f: Id, row: Code) {
    exists i: nat, j: nat, id, req, ceiling :: j < n && GivenFor(start, actions, i, j, id, req, ceiling, f, row)
  }

  ghost predicate CodesTraced(start: World, actions: seq<Action>, n: nat)
    requires n <= |actions|
  {
    var w := Run(start, actions[..n]);
    w.cfg == start.cfg && forall f | f in w.codes :: CodeTraced(start, actions, n, f, w.codes[f])
  }

  lemma {:induction false} NewCodeIsTraced(start: World, actions: seq<Action>, n: nat, f: Id, row: Code)
    requires n < |actions| && Traced(start, actions, n)
    requires RequestsInv(Found(start, actions, n).requests, Found(start, actions, n).ceilings)
    requires PutsCode(PlanOf(Found(start, actions, n), actions[n].call).commits, f, row)
    ensures CodeTraced(start, actions, n + 1, f, row)
  {
    var w, c := Found(start, actions, n), actions[n].call;
    if c.Decide? {
      DecisionGives(w, c, f, row);
      var id := c.requestId;
      assert RequestTraced(start, actions, n, id, w.requests[id], w.ceilings[id]);
      var i: nat :| i < n && AskedAt(start, actions, i, id, w.requests[id], w.ceilings[id]);
      assert GivenFor(start, actions, i, n, id, w.requests[id], w.ceilings[id], f, row);
    } else if c.Authorize? {
      var req, ceiling := SkippedConsentGives(w, c, f, row);
      assert GivenFor(start, actions, n, n, c.requestId, req, ceiling, f, row);
    } else {
      OthersGiveNoCode(w, c, f, row);
    }
  }

  lemma {:induction false} OldCodeIsTraced(start: World, actions: seq<Action>, n: nat, f: Id, before: Code, row: Code)
    requires CodeTraced(start, actions, n, f, before) && SameCode(before, row)
    ensures CodeTraced(start, actions, n + 1, f, row)
  {
    var i: nat, j: nat, id, req, ceiling :| j < n && GivenFor(start, actions, i, j, id, req, ceiling, f, before);
    assert GivenFor(start, actions, i, j, id, req, ceiling, f, row);
  }

  lemma PutsCodeInPrefix(cs: seq<Commit>, done: seq<Commit>, f: Id, row: Code)
    requires done <= cs && PutsCode(done, f, row)
    ensures PutsCode(cs, f, row)
  {
    var k :| 0 <= k < |done| && done[k].PutCode? && done[k].id == f && SameCode(done[k].code, row);
    assert cs[k] == done[k];
  }

  lemma {:induction false} CodesStayTraced(start: World, actions: seq<Action>, n: nat)
    requires n < |actions| && Traced(start, actions, n) && CodesTraced(start, actions, n)
    requires RequestsInv(Found(start, actions, n).requests, Found(start, actions, n).ceilings)
    ensures CodesTraced(start, actions, n + 1)
  {
    var w, done := Found(start, actions, n), Performed(Run(start, actions[..n]), actions[n]);
    RunAppend(start, actions[..n], actions[n]);
    assert actions[..n + 1] == actions[..n] + [actions[n]];
    var m := Run(start, actions[..n + 1]);
    CommitsKeepCodes(w, done);
    forall f | f in m.codes ensures CodeTraced(start, actions, n + 1, f, m.codes[f]) {
      if PutsCode(done, f, m.codes[f]) {
        PutsCodeInPrefix(PlanOf(w, actions[n].call).commits, done, f, m.codes[f]);
        NewCodeIsTraced(start, actions, n, f, m.codes[f]);
      } else {
        OldCodeIsTraced(start, actions, n, f, w.codes[f], m.codes[f]);
      }
    }
  }

  lemma {:induction false} RunTracesCodes(cfg: Config, clock: Time, actions: seq<Action>, n: nat)
    requires ValidRun(Empty(cfg, clock), actions) && n <= |actions|
    ensures CodesTraced(Empty(cfg, clock), actions, n)
    decreases n
  {
    var start := Empty(cfg, clock);
    if n == 0 {
      assert actions[..0] == [];
    } else {
      RunTracesCodes(cfg, clock, actions, n - 1);
      RunIsTraced(cfg, clock, actions, n - 1);
      PrefixIsValid(start, actions, n - 1);
      EmptyInv(cfg, clock);
      RunKeepsInv(start, actions[..n - 1]);
      CodesStayTraced(start, actions, n - 1);
    }
  }

  // ---------------------------------------------------------------- what the client experiences

  /** The redemption fits the /authorize call: same client and redirect URI, the server asked for then if it names one,
      and the verifier of the challenge sent then; without a challenge, only a client with a secret that need not use
      PKCE - now as well as then. */
  predicate FitsRequest(asked: Call, target: Option<Audience>, client: Client, c: Call)
    requires asked.Authorize? && c.RedeemCode?
  {
    && c.caller.id == asked.params.client && c.redirectUri == asked.params.redirectUri
    && (c.resource.Some? ==> c.resource == target)
    && (asked.params.challenge.Some? ==>
          c.verifier != "" && asked.params.challenge == Some(DigestOf(c.verifier)))
    && (asked.params.challenge.None? ==> client.hasSecret && !client.requirePkce)
  }

  lemma RedeemedIff(w: World, c: Call)
    requires c.RedeemCode? && c.code in w.codes
    ensures Answered(w, c).Tokens? <==>
              && Entitled(w, c.caller, Some(AuthorizationCode)) && w.codes[c.code].usedAt.None?
              && Presents(w.codes[c.code], w.clients[c.caller.id], c)
              && SameTarget(c.resource, w.codes[c.code].audience)
    ensures Answered(w, c).Tokens? ==> Answered(w, c).scope == w.codes[c.code].scope
  {
  }

  lemma AskedProperly(w: World, asked: Call, id: Id, req: AuthRequest, ceiling: set<Scope>, target: Option<Audience>)
    requires Asked(w, asked, id, req, ceiling)
    requires target == TargetOf(asked.dir, w.clients[asked.params.client], asked.params.resource).0
    ensures MayAuthorize(w, asked.params) && AskedAs(asked, req, target)
  {
  }

  /** The request says what the call asked for. */
  predicate AskedAs(asked: Call, req: AuthRequest, target: Option<Audience>) {
    && asked.Authorize? && req.client == asked.params.client && req.redirectUri == asked.params.redirectUri
    && req.challenge == asked.params.challenge && req.audience == target
  }

  lemma WorthAsAsked(found: World, gave: Call, id: Id, req: AuthRequest, asked: Call, target: Option<Audience>, row: Code,
                     w: World, c: Call)
    requires c.RedeemCode? && c.code in w.codes && w.codes[c.code] == row && AskedAs(asked, req, target)
    requires Gives(found, gave, id, req, c.code, row)
    ensures Answered(w, c).Tokens? <==>
              && Entitled(w, c.caller, Some(AuthorizationCode)) && w.codes[c.code].usedAt.None?
              && c.now <= gave.now + found.cfg.codeSeconds as real
              && FitsRequest(asked, target, w.clients[c.caller.id], c)
    ensures Answered(w, c).Tokens? ==> Answered(w, c).scope == row.scope
    ensures row.scope <= req.scope
  {
    RedeemedIff(w, c);
  }

  lemma {:induction false} FoundConfig(cfg: Config, clock: Time, actions: seq<Action>, j: nat)
    requires ValidRun(Empty(cfg, clock), actions) && j < |actions|
    ensures Found(Empty(cfg, clock), actions, j).cfg == cfg
  {
    RunTracesCodes(cfg, clock, actions, j);
  }

  /** What a code is worth in `w`: it was asked for by `asked`, in the world `before`, and given by `gave`. */
  ghost predicate Worth(before: World, asked: Call, found: World, gave: Call, id: Id, req: AuthRequest, user: UserId,
                        scope: set<Scope>, w: World, c: Call)
    requires c.RedeemCode? && c.code in w.codes
  {
    && asked.Authorize? && MayAuthorize(before, asked.params)
    && req.client == asked.params.client && req.redirectUri == asked.params.redirectUri
    && Approves(found, gave, id, req, c.code, user, scope) && scope <= req.scope
    && var target := TargetOf(asked.dir, before.clients[asked.params.client], asked.params.resource).0;
    && (Answered(w, c).Tokens? <==>
          && Entitled(w, c.caller, Some(AuthorizationCode)) && w.codes[c.code].usedAt.None?
          && c.now <= gave.now + w.cfg.codeSeconds as real
          && FitsRequest(asked, target, w.clients[c.caller.id], c))
    && (Answered(w, c).Tokens? ==> Answered(w, c).scope == scope)
  }

  lemma GivenIsWorth(before: World, asked: Call, found: World, gave: Call, id: Id, req: AuthRequest,
                     ceiling: set<Scope>, row: Code, w: World, c: Call)
    requires c.RedeemCode? && c.code in w.codes && w.codes[c.code] == row && found.cfg == w.cfg
    requires Asked(before, asked, id, req, ceiling) && Gives(found, gave, id, req, c.code, row)
    ensures Worth(before, asked, found, gave, id, req, row.user, row.scope, w, c)
  {
    var target := TargetOf(asked.dir, before.clients[asked.params.client], asked.params.resource).0;
    AskedProperly(before, asked, id, req, ceiling, target);
    WorthAsAsked(found, gave, id, req, asked, target, row, w, c);
  }

  lemma {:induction false} TraceOf(start: World, actions: seq<Action>, n: nat, f: Id, row: Code)
    returns (i: nat, j: nat, id: Id, req: AuthRequest, ceiling: set<Scope>)
    requires CodeTraced(start, actions, n, f, row)
    ensures j < n && GivenFor(start, actions, i, j, id, req, ceiling, f, row)
  {
    i, j, id, req, ceiling :| j < n && GivenFor(start, actions, i, j, id, req, ceiling, f, row);
  }

  lemma {:induction false} CodeWasGiven(cfg: Config, clock: Time, actions: seq<Action>, f: Id)
    returns (i: nat, j: nat, id: Id, req: AuthRequest, ceiling: set<Scope>)
    requires ValidRun(Empty(cfg, clock), actions) && f in Run(Empty(cfg, clock), actions).codes
    ensures GivenFor(Empty(cfg, clock), actions, i, j, id, req, ceiling, f, Run(Empty(cfg, clock), actions).codes[f])
    ensures Found(Empty(cfg, clock), actions, j).cfg == cfg == Run(Empty(cfg, clock), actions).cfg
  {
    var start := Empty(cfg, clock);
    RunTracesCodes(cfg, clock, actions, |actions|);
    assert actions[..|actions|] == actions;
    i, j, id, req, ceiling := TraceOf(start, actions, |actions|, f, Run(start, actions).codes[f]);
    FoundConfig(cfg, clock, actions, j);
  }

  /** The whole code grant, over any run from the start. Behind every code on record lies an /authorize call by an
      approved client with a registered redirect URI and PKCE in order, and an approval not earlier than it. Presented
      to the token endpoint the code yields tokens exactly if it is unused, the time it was given is not over, the
      client may use the grant, and the redemption fits that /authorize call - and then for the scope approved. */
  lemma {:induction false} CodeIsWorthWhatWasAsked(cfg: Config, clock: Time, actions: seq<Action>, c: Call)
    returns (i: nat, j: nat, id: Id, req: AuthRequest, user: UserId, scope: set<Scope>)
    requires ValidRun(Empty(cfg, clock), actions) && c.RedeemCode?
    requires c.code in Run(Empty(cfg, clock), actions).codes
    ensures i <= j < |actions|
    ensures var start := Empty(cfg, clock);
            Worth(Found(start, actions, i), actions[i].call, Found(start, actions, j), actions[j].call, id, req, user,
                  scope, Run(start, actions), c)
  {
    var start, w := Empty(cfg, clock), Run(Empty(cfg, clock), actions);
    var ceiling: set<Scope>;
    i, j, id, req, ceiling := CodeWasGiven(cfg, clock, actions, c.code);
    user, scope := w.codes[c.code].user, w.codes[c.code].scope;
    GivenIsWorth(Found(start, actions, i), actions[i].call, Found(start, actions, j), actions[j].call, id, req, ceiling,
                 w.codes[c.code], w, c);
  }
}
