/** Replay protection for `private_key_jwt` assertions (RFC 7523, section 3). */
module ClientAssertions {
  import opened Prelude

  const MAX_LIFETIME := 300.0
  const LEEWAY := 10.0

  type JtiKey = (string, string)      // (client_id, jti)
  type Seen = map<JtiKey, Time>       // -> the assertion's exp

  // ---------------------------------------------------------------- the replay cache

  function Purged(seen: Seen, now: Time): Seen {
    map k | k in seen && !(seen[k] < now) :: seen[k]
  }

  /** `_remember_jti`: purge, then accept and store exactly the keys not stored. */
  function Remember(seen: Seen, key: JtiKey, exp: Time, now: Time): (Seen, bool) {
    var kept := Purged(seen, now);
    if key in kept then (kept, false) else (kept[key := exp], true)
  }

  class ReplayCache {
    var seen: Seen

    constructor ()
      ensures seen == map[]
    {
      seen := map[];
    }

    method RememberJti(key: JtiKey, exp: Time, now: Time) returns (isNew: bool)
      modifies this
      ensures (seen, isNew) == Remember(old(seen), key, exp, now)
      ensures Remembers(old(seen), key, exp, now, seen, isNew)
    {
      var stale := set k | k in seen && seen[k] < now;
      ghost var todo0 := stale;
      while stale != {}
        invariant stale <= todo0 && stale <= seen.Keys
        invariant seen == map k | k in old(seen) && (k !in todo0 || k in stale) :: old(seen)[k]
        decreases stale
      {
        var k :| k in stale;
        seen := seen - {k};
        stale := stale - {k};
      }
      assert seen == Purged(old(seen), now);
      if key in seen { return false; }
      seen := seen[key := exp];
      isNew := true;
    }
  }

  // ---------------------------------------------------------------- verifying an assertion

  /** A presented assertion; `genuine` is the outcome of the signature and audience checks. */
  datatype Assertion = Assertion(iss: string, sub: string, exp: Time, jti: Option<string>, genuine: bool)

  /** The clock is read three times: by the JWT decoder, for the lifetime check, and by the cache. */
  datatype Reads = Reads(decode: Time, lifetime: Time, cache: Time)

  predicate InOrder(r: Reads) {
    r.decode <= r.lifetime <= r.cache
  }

  predicate Presentable(client: string, a: Assertion, r: Reads) {
    && a.genuine && Truncate(a.exp) as real > r.decode - LEEWAY
    && a.iss == client && a.sub == client
    && a.exp - r.lifetime <= MAX_LIFETIME + LEEWAY
    && a.jti.Some? && a.jti.value != ""
  }

  /** `verify_client_assertion` */
  function Verify(seen: Seen, client: string, a: Assertion, r: Reads): (Seen, bool) {
    if !Presentable(client, a, r) then (seen, false)
    else Remember(seen, (client, a.jti.value), a.exp, r.cache)
  }

  /** What a presentation leaves of the cache, entry by entry: everything not yet over, and the new one. */
  ghost predicate Remembers(seen: Seen, key: JtiKey, exp: Time, now: Time, after: Seen, isNew: bool) {
    && (isNew <==> key !in seen || seen[key] < now)
    && (forall k | k != key :: k in after <==> k in seen && seen[k] >= now)
    && (forall k | k in after && k != key :: after[k] == seen[k])
    && key in after && after[key] == if isNew then exp else seen[key]
  }

  /** The client's own, signed for it and for this endpoint, not over for more than ten seconds by whole seconds, not
      good for more than 310 s, and with an id. */
  predicate OwnAndFresh(client: string, a: Assertion, r: Reads) {
    && a.genuine && a.iss == client && a.sub == client && Truncate(a.exp) as real > r.decode - 10.0
    && a.exp <= r.lifetime + 310.0 && a.jti.Some? && a.jti.value != ""
  }

  /** When an assertion is accepted, and what is remembered of it: an assertion that is another's, or stale, or without
      an id is refused and leaves no trace; any other is accepted exactly if its id is not remembered any more. */
  lemma VerifyAnswers(seen: Seen, client: string, a: Assertion, r: Reads)
    ensures var (after, accepted) := Verify(seen, client, a, r);
            if OwnAndFresh(client, a, r) then Remembers(seen, (client, a.jti.value), a.exp, r.cache, after, accepted)
            else !accepted && after == seen
  {}

  /** Whoever presents it: an assertion that names another issuer or another subject is refused, now and in any state. */
  lemma ForeignIsRefused(seen: Seen, client: string, a: Assertion, r: Reads)
    requires a.iss != client || a.sub != client
    ensures Verify(seen, client, a, r) == (seen, false)
  {}

  // ---------------------------------------------------------------- runs

  datatype Attempt = Attempt(client: string, assertion: Assertion, clock: Reads)

  function Run(seen: Seen, attempts: seq<Attempt>): Seen
    decreases |attempts|
  {
    if attempts == [] then seen
    else Run(Verify(seen, attempts[0].client, attempts[0].assertion, attempts[0].clock).0, attempts[1..])
  }

  /** The clock does not run backwards, from `from` on. */
  predicate Ordered(from: Time, attempts: seq<Attempt>)
    decreases |attempts|
  {
    attempts == [] ||
    (from <= attempts[0].clock.decode && InOrder(attempts[0].clock) && Ordered(attempts[0].clock.cache, attempts[1..]))
  }

  function LastRead(from: Time, attempts: seq<Attempt>): Time
    decreases |attempts|
  {
    if attempts == [] then from else LastRead(attempts[0].clock.cache, attempts[1..])
  }

  lemma {:induction false} LastReadIsLast(from: Time, attempts: seq<Attempt>)
    requires Ordered(from, attempts)
    ensures from <= LastRead(from, attempts)
    decreases |attempts|
  {
    if attempts != [] { LastReadIsLast(attempts[0].clock.cache, attempts[1..]); }
  }

  /** An entry survives every run that ends by its expiry: the purge never drops one early, and nothing replaces it. */
  lemma {:induction false} EntrySurvives(seen: Seen, key: JtiKey, from: Time, attempts: seq<Attempt>)
    requires key in seen && Ordered(from, attempts) && LastRead(from, attempts) <= seen[key]
    ensures key in Run(seen, attempts) && Run(seen, attempts)[key] == seen[key]
    decreases |attempts|
  {
    if attempts != [] {
      var t := attempts[0];
      LastReadIsLast(t.clock.cache, attempts[1..]);
      EntrySurvives(Verify(seen, t.client, t.assertion, t.clock).0, key, t.clock.cache, attempts[1..]);
    }
  }

  /** Once accepted, a (client, jti) is refused at every later time up to the accepted assertion's `exp`, whatever was
      presented in between and whatever expiry the second assertion claims. */
  lemma {:induction false} ReplayRefused(seen: Seen, first: Attempt, between: seq<Attempt>, again: Attempt)
    requires Verify(seen, first.client, first.assertion, first.clock).1
    requires Ordered(first.clock.cache, between) && InOrder(again.clock)
    requires LastRead(first.clock.cache, between) <= again.clock.decode && again.clock.cache <= first.assertion.exp
    requires again.client == first.client && again.assertion.jti == first.assertion.jti
    ensures var now := Run(Verify(seen, first.client, first.assertion, first.clock).0, between);
            !Verify(now, again.client, again.assertion, again.clock).1
  {
    EntrySurvives(Verify(seen, first.client, first.assertion, first.clock).0,
                  (first.client, first.assertion.jti.value), first.clock.cache, between);
  }

  /** Neither accepted nor refused for another reason: this attempt is about a different (client, jti). */
  predicate AboutOther(key: JtiKey, t: Attempt) {
    t.assertion.jti.None? || (t.client, t.assertion.jti.value) != key
  }

  lemma {:induction false} EntryOnlyExpires(seen: Seen, key: JtiKey, exp: Time, from: Time, attempts: seq<Attempt>)
    requires key in seen ==> seen[key] == exp
    requires Ordered(from, attempts) && forall i | 0 <= i < |attempts| :: AboutOther(key, attempts[i])
    ensures key in Run(seen, attempts) ==> Run(seen, attempts)[key] == exp
    decreases |attempts|
  {
    if attempts != [] {
      var t := attempts[0];
      assert AboutOther(key, attempts[0]);
      forall i | 0 <= i < |attempts[1..]| ensures AboutOther(key, attempts[1..][i]) {
        assert attempts[1..][i] == attempts[i + 1];
      }
      EntryOnlyExpires(Verify(seen, t.client, t.assertion, t.clock).0, key, exp, t.clock.cache, attempts[1..]);
    }
  }

  /** Exactly when the very same assertion passes a second time, nothing having been presented under its (client, jti)
      meanwhile: when it is still presentable - the decoder allows 10 s past `exp` - and the cache is read after `exp`. */
  lemma {:induction false} ReplayAcceptedIff(seen: Seen, first: Attempt, between: seq<Attempt>, clock: Reads)
    requires Verify(seen, first.client, first.assertion, first.clock).1
    requires Ordered(first.clock.cache, between) && InOrder(clock)
    requires LastRead(first.clock.cache, between) <= clock.decode
    requires forall i | 0 <= i < |between| :: AboutOther((first.client, first.assertion.jti.value), between[i])
    ensures var now := Run(Verify(seen, first.client, first.assertion, first.clock).0, between);
            Verify(now, first.client, first.assertion, clock).1
            == (Presentable(first.client, first.assertion, clock) && first.assertion.exp < clock.cache)
  {
    var key, exp := (first.client, first.assertion.jti.value), first.assertion.exp;
    var stored := Verify(seen, first.client, first.assertion, first.clock).0;
    EntryOnlyExpires(stored, key, exp, first.clock.cache, between);
    if clock.cache <= exp {
      EntrySurvives(stored, key, first.clock.cache, between);
    }
  }

  /** Such a second acceptance exists: an assertion that expires at 1000 and is presented at 990 and at 1005. */
  lemma LeewayAdmitsReplay()
    ensures var a := Assertion("c", "c", 1000.0, Some("j"), true);
            var (seen, first) := Verify(map[], "c", a, Reads(990.0, 990.0, 990.0));
            first && Verify(seen, "c", a, Reads(1005.0, 1005.0, 1005.0)).1
  {
    assert Truncate(1000.0) == 1000;
  }

  lemma {:induction false} RunOneMore(seen: Seen, attempts: seq<Attempt>, t: Attempt)
    ensures Run(seen, attempts + [t]) == Verify(Run(seen, attempts), t.client, t.assertion, t.clock).0
    decreases |attempts|
  {
    if attempts == [] {
      assert [] + [t] == [t] && [t][1..] == [];
    } else {
      var first := attempts[0];
      assert (attempts + [t])[1..] == attempts[1..] + [t];
      RunOneMore(Verify(seen, first.client, first.assertion, first.clock).0, attempts[1..], t);
    }
  }

  /** The `i`-th attempt was accepted, under this key. */
  predicate AcceptedAs(attempts: seq<Attempt>, i: nat, key: JtiKey) {
    && i < |attempts|
    && var t := attempts[i];
    && t.assertion.jti.Some? && key == (t.client, t.assertion.jti.value)
    && Verify(Run(map[], attempts[..i]), t.client, t.assertion, t.clock).1
  }

  /** The cache stays small: every entry of every run is the expiry of the assertion that was accepted for it, the
      client's own, which is within 310 s of the reading at which its lifetime was checked - and so of its acceptance. */
  lemma {:induction false} EntriesAreShortLived(attempts: seq<Attempt>, key: JtiKey) returns (i: nat)
    requires key in Run(map[], attempts)
    ensures AcceptedAs(attempts, i, key)
    ensures Run(map[], attempts)[key] == attempts[i].assertion.exp
    ensures attempts[i].assertion.iss == key.0 && attempts[i].assertion.sub == key.0 && attempts[i].assertion.genuine
    ensures attempts[i].assertion.exp <= attempts[i].clock.lifetime + MAX_LIFETIME + LEEWAY
    ensures InOrder(attempts[i].clock) ==>
              attempts[i].assertion.exp <= attempts[i].clock.cache + MAX_LIFETIME + LEEWAY
    decreases |attempts|
  {
    var last := |attempts| - 1;
    var front, t := attempts[..last], attempts[last];
    assert attempts == front + [t];
    RunOneMore(map[], front, t);
    if Verify(Run(map[], front), t.client, t.assertion, t.clock).1 && key == (t.client, t.assertion.jti.value) {
      i := last;
    } else {
      i := EntriesAreShortLived(front, key);
      assert front[..i] == attempts[..i];
    }
  }
}
