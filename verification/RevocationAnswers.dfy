/** What revocation, introspection, the console and the clean-up answer and leave behind. */
module RevocationAnswers {
  import opened Prelude
  import opened ScopeRegistry
  import opened OAuthTables
  import opened OAuthEndpoints
  import opened TokenFamilies
  import opened GrantRuns
  import opened FamilySafety
  import opened GrantFlows
  import opened GrantAnswers

  // ---------------------------------------------------------------- revocation

  /** A token of this client's, signed here, not more than ten seconds over, and on record. */
  predicate PresentsOwn(w: World, c: Call)
    requires c.RevokeToken?
  {
    && c.jwt in w.jwts && c.now < c.jwt.exp as real + 10.0 && c.jwt.client == Some(c.caller.id) && c.jwt.jti in w.tokens
  }

  /** Whoever presents something else is told the same and changes nothing: a token of another client's, one that was
      not signed here or is over, or one that is not on record. */
  lemma ForeignTokensAreIgnored(w: World, c: Call)
    requires c.RevokeToken? && Fit(w, c.caller) && !PresentsOwn(w, c)
    ensures Answered(w, c) == Answer.Done && PlanOf(w, c).commits == [] && Outcome(w, c) == w
  {
  }

  /** The row, revoked if it was not. */
  function RevokedRow(t: Token, r: Revocation): Token {
    if t.revoked.Some? then t else t.(revoked := Some(r))
  }

  /** `n` is `w` with exactly these rows revoked, those that were not. */
  ghost predicate Revokes(w: World, n: World, ids: set<Id>, r: Revocation) {
    && n.tokens.Keys == w.tokens.Keys
    && (forall k | k in w.tokens :: n.tokens[k] == if k in ids then RevokedRow(w.tokens[k], r) else w.tokens[k])
    && n == w.(tokens := n.tokens)
  }

  /** The rows of a family. */
  function Members(tokens: Tokens, f: Id): set<Id> {
    set k | k in tokens && tokens[k].parent == Some(f)
  }

  lemma RevokingOne(w: World, id: Id, r: Revocation)
    requires id in w.tokens && w.tokens[id].kind != Refresh
    ensures Revokes(w, ApplyAll(w, RevokeAndChain(w, id, r)), {id}, r)
  {
    var cs := RevokeAndChain(w, id, r);
    if w.tokens[id].revoked.None? {
      assert cs == [Revoke(id, r)];
      ApplyOne(w, Revoke(id, r));
    } else {
      assert cs == [];
      assert ApplyAll(w, []) == w;
    }
  }

  /** A refresh row on record has a family, is one of its rows, and no jti is a family's name. */
  lemma RefreshHasFamily(w: World, id: Id)
    requires Inv(w) && id in w.tokens && w.tokens[id].kind == Refresh
    ensures w.tokens[id].parent.Some? && w.tokens[id].parent.value !in w.tokens
    ensures w.tokens[id].parent.value in w.families
  {
    assert SameIssue(w.tokens[id], w.facts[id].token);
    assert FactOk(w.codes, w.families, w.facts[id].token);
  }

  lemma ChainIsFamily(tokens: Tokens, f: Id, r: Revocation)
    requires f !in tokens
    ensures forall k | k in tokens ::
              RevokedChain(tokens, f, r)[k] == if k in Members(tokens, f) then RevokedRow(tokens[k], r) else tokens[k]
    ensures RevokedChain(tokens, f, r).Keys == tokens.Keys
  {
  }

  lemma OneThenFamily(tokens: Tokens, id: Id, f: Id, r: Revocation)
    requires id in tokens && tokens[id].parent == Some(f) && f !in tokens
    ensures RevokedChain(tokens[id := Stamped(tokens[id], r)], f, r) == RevokedChain(tokens, f, r)
  {
  }

  lemma AppliedToFamily(w: World, id: Id, f: Id, r: Revocation)
    requires id in w.tokens && w.tokens[id].kind == Refresh && w.tokens[id].parent == Some(f) && f !in w.tokens
    ensures ApplyAll(w, RevokeAndChain(w, id, r)) == w.(tokens := RevokedChain(w.tokens, f, r))
  {
    var cs := RevokeAndChain(w, id, r);
    if w.tokens[id].revoked.None? {
      assert cs == [Revoke(id, r), RevokeFamily(f, r)];
      ApplyTwo(w, Revoke(id, r), RevokeFamily(f, r));
      OneThenFamily(w.tokens, id, f, r);
    } else {
      assert cs == [RevokeFamily(f, r)];
      ApplyOne(w, RevokeFamily(f, r));
    }
  }

  lemma RevokingFamily(w: World, id: Id, f: Id, r: Revocation)
    requires id in w.tokens && w.tokens[id].kind == Refresh && w.tokens[id].parent == Some(f) && f !in w.tokens
    ensures Revokes(w, ApplyAll(w, RevokeAndChain(w, id, r)), Members(w.tokens, f), r)
  {
    AppliedToFamily(w, id, f, r);
    ChainIsFamily(w.tokens, f, r);
  }

  /** The client's own token is revoked; with a refresh token its whole family is, and is dead. */
  lemma RevokeTokenAnswers(w: World, c: Call)
    requires Inv(w) && c.RevokeToken? && Fit(w, c.caller) && PresentsOwn(w, c)
    ensures Answered(w, c) == Answer.Done
    ensures var rec, r := w.tokens[c.jwt.jti], Revocation(c.now, ClientRevoke);
            if rec.kind == Refresh then
              && rec.parent.Some? && Revokes(w, Outcome(w, c), Members(w.tokens, rec.parent.value), r)
              && Dead(Outcome(w, c), rec.parent.value)
            else
              Revokes(w, Outcome(w, c), {c.jwt.jti}, r)
  {
    var r := Revocation(c.now, ClientRevoke);
    assert PlanOf(w, c) == Plan(RevokeAndChain(w, c.jwt.jti, r), Answer.Done);
    RevokedOnRecord(w, c.jwt.jti, r);
  }

  lemma RevokedOnRecord(w: World, id: Id, r: Revocation)
    requires Inv(w) && id in w.tokens
    ensures var rec, n := w.tokens[id], ApplyAll(w, RevokeAndChain(w, id, r));
            if rec.kind == Refresh then
              && rec.parent.Some? && Revokes(w, n, Members(w.tokens, rec.parent.value), r)
              && Dead(n, rec.parent.value)
            else
              Revokes(w, n, {id}, r)
  {
    if w.tokens[id].kind == Refresh {
      RefreshHasFamily(w, id);
      RevokingFamily(w, id, w.tokens[id].parent.value, r);
      RevokingRefreshKills(w, id, r);
    } else {
      RevokingOne(w, id, r);
    }
  }

  /** The administrator's revocation does the same to any row on record, and reports one that is not. */
  lemma AdminRevokeAnswers(w: World, c: Call)
    requires Inv(w) && c.AdminRevokeToken?
    ensures c.jti !in w.tokens ==> Refused(w, c, NoSuchToken)
    ensures c.jti in w.tokens ==>
              var rec, r := w.tokens[c.jti], Revocation(c.now, AdminRevoke);
              && Answered(w, c) == Answer.Done
              && if rec.kind == Refresh then
                   && rec.parent.Some? && Revokes(w, Outcome(w, c), Members(w.tokens, rec.parent.value), r)
                   && Dead(Outcome(w, c), rec.parent.value)
                 else
                   Revokes(w, Outcome(w, c), {c.jti}, r)
  {
    if c.jti in w.tokens {
      var r := Revocation(c.now, AdminRevoke);
      assert PlanOf(w, c) == Plan(RevokeAndChain(w, c.jti, r), Answer.Done);
      RevokedOnRecord(w, c.jti, r);
    }
  }

  // ---------------------------------------------------------------- introspection

  /** Active is what was signed here, is not more than ten seconds over, belongs to the caller or is asked for by a
      resource server, and, if it is on record, is unrevoked and unexpired there. */
  lemma IntrospectAnswers(w: World, c: Call)
    requires c.Introspect? && Fit(w, c.caller)
    ensures PlanOf(w, c).commits == [] && Answered(w, c).Introspected?
    ensures Answered(w, c).active <==>
              && c.jwt in w.jwts && c.now < c.jwt.exp as real + 10.0
              && (c.jwt.client == Some(c.caller.id) || w.clients[c.caller.id].confidential)
              && (c.jwt.jti in w.tokens ==>
                    w.tokens[c.jwt.jti].revoked.None? && c.now <= w.tokens[c.jwt.jti].expires as real)
  {
  }

  // ---------------------------------------------------------------- the console

  lemma RegisterAnswers(w: World, c: Call)
    requires c.Register?
    ensures Answered(w, c) == Answer.Done && Outcome(w, c) == w.(clients := w.clients[c.id := c.client])
  {
    ApplyOne(w, PutClient(c.id, c.client));
  }

  /** Approving makes a client approved and active again; nothing else changes. */
  lemma ApproveClientAnswers(w: World, c: Call)
    requires c.ApproveClient?
    ensures c.id !in w.clients ==> Refused(w, c, NoSuchClient)
    ensures c.id in w.clients ==>
              var n := Outcome(w, c);
              && Answered(w, c) == Answer.Done && n == w.(clients := n.clients) && n.clients.Keys == w.clients.Keys
              && (forall k | k in w.clients && k != c.id :: n.clients[k] == w.clients[k])
              && n.clients[c.id].approved && n.clients[c.id].active
              && n.clients[c.id].(approved := w.clients[c.id].approved, active := w.clients[c.id].active)
                 == w.clients[c.id]
  {
    if c.id in w.clients { ApplyOne(w, PlanOf(w, c).commits[0]); }
  }

  /** The rows issued to a client. */
  function TokensOf(tokens: Tokens, id: ClientId): set<Id> {
    set k | k in tokens && tokens[k].client == Some(id)
  }

  /** Revoking deactivates a client that is not built in, and revokes every token issued to it. */
  lemma RevokeClientAnswers(w: World, c: Call)
    requires c.RevokeClient?
    ensures c.id !in w.clients ==> Refused(w, c, NoSuchClient)
    ensures c.id in w.clients && w.clients[c.id].via == System ==> Refused(w, c, SystemClient)
    ensures c.id in w.clients && w.clients[c.id].via != System ==>
              var m := w.(clients := w.clients[c.id := w.clients[c.id].(active := false)]);
              && Answered(w, c) == Answer.Done
              && Revokes(m, Outcome(w, c), TokensOf(w.tokens, c.id), Revocation(c.now, ClientRevoked))
  {
    if c.id in w.clients && w.clients[c.id].via != System {
      RevokeClientEffect(w, c.id, c.now);
    }
  }

  /** Deleting takes a client that is not built in along with its requests, codes and consents, and nobody else's; its
      tokens stay as they are, but for the name of the client. */
  lemma DeleteClientAnswers(w: World, c: Call)
    requires c.DeleteClient?
    ensures c.id !in w.clients ==> Refused(w, c, NoSuchClient)
    ensures c.id in w.clients && w.clients[c.id].via == System ==> Refused(w, c, SystemClient)
    ensures c.id in w.clients && w.clients[c.id].via != System ==>
              var n := Outcome(w, c);
              && Answered(w, c) == Answer.Done && n.clients == w.clients - {c.id} && WithoutClient(w, n, c.id)
  {
    if c.id in w.clients && w.clients[c.id].via != System { ApplyOne(w, DropClient(c.id)); }
  }

  ghost predicate WithoutClient(w: World, n: World, id: ClientId) {
    && (forall k :: k in n.requests <==> k in w.requests && w.requests[k].client != id)
    && (forall k | k in n.requests :: n.requests[k] == w.requests[k])
    && (forall k :: k in n.codes <==> k in w.codes && w.codes[k].client != id)
    && (forall k | k in n.codes :: n.codes[k] == w.codes[k])
    && (forall key :: key in n.consents <==> key in w.consents && key.1 != id)
    && (forall key | key in n.consents :: n.consents[key] == w.consents[key])
    && n.tokens.Keys == w.tokens.Keys
    && (forall k | k in w.tokens ::
          n.tokens[k] == if w.tokens[k].client == Some(id) then w.tokens[k].(client := None) else w.tokens[k])
  }

  lemma ForgetConsentAnswers(w: World, c: Call)
    requires c.ForgetConsent?
    ensures c.key !in w.consents ==> Refused(w, c, NoSuchConsent)
    ensures c.key in w.consents ==>
              Answered(w, c) == Answer.Done && Outcome(w, c) == w.(consents := w.consents - {c.key})
  {
    if c.key in w.consents { ApplyOne(w, Forget(c.key)); }
  }

  /** The clean-up deletes requests that are over, codes an hour after they are over, and tokens a week after, exactly;
      nothing else changes. */
  lemma CleanupAnswers(w: World, c: Call)
    requires c.Cleanup?
    ensures Answered(w, c) == Answer.Done
    ensures var n := Outcome(w, c);
            && n == w.(requests := n.requests, codes := n.codes, tokens := n.tokens)
            && (forall k :: k in n.requests <==> k in w.requests && c.now <= w.requests[k].expires)
            && (forall k | k in n.requests :: n.requests[k] == w.requests[k])
            && (forall k :: k in n.codes <==> k in w.codes && c.now <= w.codes[k].expires + 3600.0)
            && (forall k | k in n.codes :: n.codes[k] == w.codes[k])
            && (forall k :: k in n.tokens <==> k in w.tokens && c.now <= w.tokens[k].expires as real + 604800.0)
            && (forall k | k in n.tokens :: n.tokens[k] == w.tokens[k])
  {
    ApplyCleanup(w, c.now);
  }
}
