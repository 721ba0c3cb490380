/** Signing-key rotation: one active key, and no key a token was ever signed with leaves the JWKS. */
module SigningKeys {
  import opened Prelude

  type Kid = string

  datatype Key = Key(active: bool, createdAt: Time, rotatedAt: Option<Time>)

  type Keys = map<Kid, Key>

  ghost predicate AtMostOneActive(keys: Keys) {
    forall a, b | a in keys && b in keys && keys[a].active && keys[b].active :: a == b
  }

  predicate HasActive(keys: Keys) {
    exists k | k in keys :: keys[k].active
  }

  function Retired(k: Key, now: Time): Key {
    if k.active then k.(active := false, rotatedAt := if k.rotatedAt.Some? then k.rotatedAt else Some(now)) else k
  }

  /** `create(make_active=True)`: every active key is retired, then the new one is added. */
  function Created(keys: Keys, kid: Kid, now: Time): Keys {
    (map k | k in keys :: Retired(keys[k], now))[kid := Key(true, now, None)]
  }

  /** `ensure_active_signing_key` */
  function Ensured(keys: Keys, kid: Kid, now: Time): Keys {
    if HasActive(keys) then keys else Created(keys, kid, now)
  }

  // ---------------------------------------------------------------- runs

  /** `used` is history: the kid in the header of every token signed so far. */
  datatype Ring = Ring(keys: Keys, used: set<Kid>)

  datatype KeyOp =
    | Rotate(kid: Kid, now: Time)
    | Sign(kid: Kid, now: Time)       // `_sign`: ensure an active key (creating `kid` if there is none), sign with it

  ghost function ActiveKid(keys: Keys): (kid: Kid)
    requires HasActive(keys)
    ensures kid in keys && keys[kid].active
  {
    var k :| k in keys && keys[k].active;
    k
  }

  lemma EnsuredHasActive(keys: Keys, kid: Kid, now: Time)
    ensures HasActive(Ensured(keys, kid, now))
  {
    if !HasActive(keys) { assert kid in Created(keys, kid, now) && Created(keys, kid, now)[kid].active; }
  }

  ghost function Step(r: Ring, op: KeyOp): Ring {
    match op
    case Rotate(kid, now) => r.(keys := Created(r.keys, kid, now))
    case Sign(kid, now) =>
      var keys := Ensured(r.keys, kid, now);
      EnsuredHasActive(r.keys, kid, now);
      Ring(keys, r.used + {ActiveKid(keys)})
  }

  ghost function Run(r: Ring, ops: seq<KeyOp>): Ring
    decreases |ops|
  {
    if ops == [] then r else Run(Step(r, ops[0]), ops[1..])
  }

  /** New keys get new kids: a kid is the thumbprint of a freshly generated key. */
  ghost predicate FreshKids(r: Ring, ops: seq<KeyOp>)
    decreases |ops|
  {
    ops == [] || (ops[0].kid !in r.keys && FreshKids(Step(r, ops[0]), ops[1..]))
  }

  lemma CreatedKeepsKeys(keys: Keys, kid: Kid, now: Time)
    requires kid !in keys
    ensures Created(keys, kid, now).Keys == keys.Keys + {kid}
    ensures AtMostOneActive(Created(keys, kid, now)) && ActiveKid(Created(keys, kid, now)) == kid
    ensures forall k | k in keys :: !Created(keys, kid, now)[k].active
              && Created(keys, kid, now)[k].createdAt == keys[k].createdAt
              && Created(keys, kid, now)[k].rotatedAt
                 == if keys[k].active && keys[k].rotatedAt.None? then Some(now) else keys[k].rotatedAt
    ensures Created(keys, kid, now)[kid] == Key(true, now, None)
  {
    assert kid in Created(keys, kid, now) && Created(keys, kid, now)[kid].active;
  }

  /** Over any run of signing and rotating, at most one key is active, no key is dropped, and every kid that ever
      signed a token is still published. */
  lemma {:induction false} UsedKeysStayPublished(r: Ring, ops: seq<KeyOp>)
    requires AtMostOneActive(r.keys) && r.used <= r.keys.Keys && FreshKids(r, ops)
    ensures AtMostOneActive(Run(r, ops).keys)
    ensures Run(r, ops).used <= Run(r, ops).keys.Keys
    ensures r.keys.Keys <= Run(r, ops).keys.Keys && r.used <= Run(r, ops).used
    decreases |ops|
  {
    if ops != [] {
      CreatedKeepsKeys(r.keys, ops[0].kid, ops[0].now);
      UsedKeysStayPublished(Step(r, ops[0]), ops[1..]);
    }
  }

  /** After a rotation the next token is signed with the new key. */
  lemma RotationTakesEffect(r: Ring, kid: Kid, at: Time, spare: Kid, later: Time)
    requires kid !in r.keys
    ensures Run(r, [Rotate(kid, at), Sign(spare, later)]).used == r.used + {kid}
    ensures Run(r, [Rotate(kid, at), Sign(spare, later)]).keys == Created(r.keys, kid, at)
  {
    var keys := Created(r.keys, kid, at);
    CreatedKeepsKeys(r.keys, kid, at);
    assert HasActive(keys) by { assert kid in keys && keys[kid].active; }
    var ops := [Rotate(kid, at), Sign(spare, later)];
    assert ops[1..] == [Sign(spare, later)] && ops[1..][1..] == [];
    assert Run(r, ops) == Run(Step(r, ops[0]), ops[1..]) == Run(Step(Step(r, ops[0]), ops[1]), []);
  }

  // ---------------------------------------------------------------- the table

  class KeyStore {
    var keys: Keys

    constructor ()
      ensures keys == map[]
    {
      keys := map[];
    }

    /** `OAuthSigningKeyCRUD.create` */
    method Create(kid: Kid, now: Time)
      requires kid !in keys
      modifies this
      ensures keys == Created(old(keys), kid, now)
      ensures AtMostOneActive(keys)
    {
      var todo := set k | k in keys && keys[k].active;
      ghost var active := todo;
      while todo != {}
        invariant todo <= active && keys.Keys == old(keys).Keys
        invariant forall k | k in keys ::
          keys[k] == if k in active && k !in todo then Retired(old(keys)[k], now) else old(keys)[k]
        decreases todo
      {
        var k :| k in todo;
        var row := keys[k];
        var rotatedAt := if row.rotatedAt.Some? then row.rotatedAt else Some(now);
        keys := keys[k := row.(active := false, rotatedAt := rotatedAt)];
        todo := todo - {k};
      }
      keys := keys[kid := Key(true, now, None)];
      assert keys == Created(old(keys), kid, now);
      CreatedKeepsKeys(old(keys), kid, now);
    }

    /** `ensure_active_signing_key`: the active key, created when there is none. */
    method EnsureActive(spare: Kid, now: Time) returns (kid: Kid)
      requires spare !in keys && AtMostOneActive(keys)
      modifies this
      ensures keys == Ensured(old(keys), spare, now) && AtMostOneActive(keys)
      ensures HasActive(keys) && kid == ActiveKid(keys)
    {
      if HasActive(keys) {
        kid :| kid in keys && keys[kid].active;
      } else {
        Create(spare, now);
        kid := spare;
        CreatedKeepsKeys(old(keys), spare, now);
      }
      EnsuredHasActive(old(keys), spare, now);
    }
  }
}
