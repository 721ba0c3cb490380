/** When the consent page is skipped, in terms of what the user did rather than of what the table holds. */
module ConsentPolicy {
  import opened Prelude
  import opened ScopeRegistry
  import opened OAuthTables
  import opened OAuthEndpoints

  /** The user forgot the consent, or its client was deleted. */
  predicate Forgets(c: Commit, key: ConsentKey) {
    c == Forget(key) || c == DropClient(key.1)
  }

  predicate Remembers(c: Commit, key: ConsentKey) {
    c.Remember? && c.key == key
  }

  /** The `i`-th commit remembered something under `key` that was not forgotten since. */
  ghost predicate Stands(log: seq<Commit>, key: ConsentKey, i: int) {
    0 <= i < |log| && Remembers(log[i], key) && forall j | i < j < |log| :: !Forgets(log[j], key)
  }

  function Entry(consents: map<ConsentKey, set<Scope>>, key: ConsentKey): Option<set<Scope>> {
    if key in consents then Some(consents[key]) else None
  }

  /** The entry is exactly the union of what stands. */
  ghost predicate IsUnion(entry: Option<set<Scope>>, log: seq<Commit>, key: ConsentKey) {
    && (entry.Some? <==> exists i :: Stands(log, key, i))
    && (entry.Some? ==> forall s :: s in entry.value <==> exists i :: Stands(log, key, i) && s in log[i].scopes)
  }

  ghost predicate Faithful(consents: map<ConsentKey, set<Scope>>, log: seq<Commit>) {
    forall key :: IsUnion(Entry(consents, key), log, key)
  }

  lemma {:induction false} StandsAfter(log: seq<Commit>, c: Commit, key: ConsentKey, i: int)
    ensures Stands(log + [c], key, i) <==>
              (Stands(log, key, i) && !Forgets(c, key)) || (i == |log| && Remembers(c, key))
  {
    var now := log + [c];
    if Stands(log, key, i) && !Forgets(c, key) {
      forall j | i < j < |now| ensures !Forgets(now[j], key) {
        assert j < |log| ==> now[j] == log[j];
      }
    }
    if Stands(now, key, i) && i < |log| {
      forall j | i < j < |log| ensures !Forgets(log[j], key) { assert now[j] == log[j]; }
      assert !Forgets(now[|log|], key);
    }
  }

  function EntryAfter(entry: Option<set<Scope>>, c: Commit, key: ConsentKey): Option<set<Scope>> {
    if Remembers(c, key) then Some((if entry.Some? then entry.value else {}) + c.scopes)
    else if Forgets(c, key) then None
    else entry
  }

  lemma OtherCommitsKeepConsents(w: World, c: Commit)
    requires !c.Remember? && !c.Forget? && !c.DropClient?
    ensures Apply(w, c).consents == w.consents
  {}

  lemma EntryOfRemember(w: World, k: ConsentKey, scopes: set<Scope>, key: ConsentKey)
    ensures Entry(Apply(w, Remember(k, scopes)).consents, key)
         == EntryAfter(Entry(w.consents, key), Remember(k, scopes), key)
  {}

  lemma EntryOfForget(w: World, k: ConsentKey, key: ConsentKey)
    ensures Entry(Apply(w, Forget(k)).consents, key) == EntryAfter(Entry(w.consents, key), Forget(k), key)
  {}

  lemma EntryOfDropClient(w: World, id: ClientId, key: ConsentKey)
    ensures Entry(Apply(w, DropClient(id)).consents, key) == EntryAfter(Entry(w.consents, key), DropClient(id), key)
  {}

  lemma EntryOfApply(w: World, c: Commit, key: ConsentKey)
    ensures Entry(Apply(w, c).consents, key) == EntryAfter(Entry(w.consents, key), c, key)
  {
    match c {
      case Remember(k, scopes) => EntryOfRemember(w, k, scopes, key);
      case Forget(k) => EntryOfForget(w, k, key);
      case DropClient(id) => EntryOfDropClient(w, id, key);
      case _ => OtherCommitsKeepConsents(w, c);
    }
  }

  lemma {:induction false} UnionAfter(entry: Option<set<Scope>>, log: seq<Commit>, c: Commit, key: ConsentKey)
    requires IsUnion(entry, log, key)
    ensures IsUnion(EntryAfter(entry, c, key), log + [c], key)
  {
    var now := log + [c];
    forall i ensures Stands(now, key, i) <==>
                       (Stands(log, key, i) && !Forgets(c, key)) || (i == |log| && Remembers(c, key)) {
      StandsAfter(log, c, key, i);
    }
    assert forall i | 0 <= i < |log| :: now[i] == log[i];
    assert now[|log|] == c;
    if Remembers(c, key) {
      assert Stands(now, key, |log|);
    }
    if !Forgets(c, key) {
      forall i | Stands(log, key, i) ensures Stands(now, key, i) && now[i] == log[i] {}
    }
  }

  lemma {:induction false} CommitStaysFaithful(w: World, log: seq<Commit>, c: Commit)
    requires Faithful(w.consents, log)
    ensures Faithful(Apply(w, c).consents, log + [c])
  {
    forall key ensures IsUnion(Entry(Apply(w, c).consents, key), log + [c], key) {
      EntryOfApply(w, c, key);
      UnionAfter(Entry(w.consents, key), log, c, key);
    }
  }

  lemma {:induction false} CommitsStayFaithful(w: World, past: seq<Commit>, cs: seq<Commit>)
    requires Faithful(w.consents, past)
    ensures Faithful(ApplyAll(w, cs).consents, past + cs)
    decreases |cs|
  {
    if cs == [] {
      assert past + cs == past;
    } else {
      CommitStaysFaithful(w, past, cs[0]);
      CommitsStayFaithful(Apply(w, cs[0]), past + [cs[0]], cs[1..]);
      assert past + cs == past + [cs[0]] + cs[1..];
    }
  }

  /** Over any run - of approvals, of forgetting, of client deletions, cut off anywhere - the consent table holds for
      every (user, client, audience) the union of the scopes remembered since it was last forgotten. */
  lemma {:induction false} ConsentsAreTheUnion(w: World, past: seq<Commit>, actions: seq<Action>)
    requires Faithful(w.consents, past)
    ensures Faithful(Run(w, actions).consents, past + Log(w, actions))
    decreases |actions|
  {
    if actions == [] {
      assert past + [] == past;
    } else {
      var done := Performed(w, actions[0]);
      CommitsStayFaithful(Arrive(w, actions[0].call), past, done);
      ConsentsAreTheUnion(Step(w, actions[0]), past + done, actions[1..]);
      assert past + Log(w, actions) == past + done + Log(Step(w, actions[0]), actions[1..]);
    }
  }

  /** Something stands under `key`, and all of `requested` does. */
  ghost predicate StandsFor(log: seq<Commit>, key: ConsentKey, requested: set<Scope>) {
    && (exists i :: Stands(log, key, i))
    && forall s | s in requested :: exists i :: Stands(log, key, i) && s in log[i].scopes
  }

  lemma {:induction false} CoveredExactlyWhenStanding(entry: Option<set<Scope>>, log: seq<Commit>, key: ConsentKey,
                                                      requested: set<Scope>)
    requires IsUnion(entry, log, key)
    ensures entry.Some? && requested <= entry.value <==> StandsFor(log, key, requested)
  {}

  lemma SkipsByEntry(w: World, user: UserId, client: ClientId, audience: Option<Audience>, requested: set<Scope>)
    requires client in w.clients
    ensures var entry := Entry(w.consents, (user, client, audience));
            SkipsConsent(w, user, client, audience, requested) <==>
              w.clients[client].via == Manual || (entry.Some? && requested <= entry.value)
  {}

  /** For a client not registered in the console, consent is skipped exactly when something is remembered and every
      requested scope was remembered, for that user, client and audience, since it was last forgotten. A client
      registered in the console always skips. */
  lemma {:induction false} SkippedExactlyWhenRemembered(cfg: Config, clock: Time, actions: seq<Action>, user: UserId,
                                                        client: ClientId, audience: Option<Audience>,
                                                        requested: set<Scope>)
    requires client in Run(Empty(cfg, clock), actions).clients
    ensures var w, log, key := Run(Empty(cfg, clock), actions), Log(Empty(cfg, clock), actions), (user, client, audience);
            SkipsConsent(w, user, client, audience, requested) <==>
              w.clients[client].via == Manual || StandsFor(log, key, requested)
  {
    var w, log, key := Run(Empty(cfg, clock), actions), Log(Empty(cfg, clock), actions), (user, client, audience);
    ConsentsAreTheUnion(Empty(cfg, clock), [], actions);
    assert [] + log == log;
    assert IsUnion(Entry(w.consents, key), log, key);
    CoveredExactlyWhenStanding(Entry(w.consents, key), log, key, requested);
    SkipsByEntry(w, user, client, audience, requested);
  }
}
