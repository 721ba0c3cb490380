/**
 Granted scopes as text. The names a request is granted are joined into one string, which is stored, signed and split
 again wherever it is read. A name that holds white space other than a blank may be registered, and comes back as
 several scopes: this module says exactly when what is read is what was granted.
 */
module ScopeTexts {
  import opened Prelude
  import opened Text
  import opened ScopeRegistry

  // ---------------------------------------------------------------- joined and split

  lemma {:induction false} SplitEachMember(ts: seq<string>, word: string)
    ensures word in SplitEach(ts) <==> exists t :: t in ts && word in WordsOf(t)
  {
    if ts != [] {
      var first, rest := ts[0], ts[1..];
      SplitEachMember(rest, word);
      assert ts == [first] + rest;
      assert word in SplitEach(ts) <==> word in WordsOf(first) || word in SplitEach(rest);
      if t :| t in rest && word in WordsOf(t) { assert t in ts; }
    }
  }

  /** Whatever order the names are joined in, splitting the string gives what they carry. */
  lemma JoinedIsCarried(ts: seq<string>)
    ensures WordsOf(Join(ts)) == Carried(set t | t in ts)
  {
    SplitOfJoin(ts);
    forall word ensures word in WordsOf(Join(ts)) <==> word in Carried(set t | t in ts) {
      SplitEachMember(ts, word);
    }
  }

  lemma WordCarriesItself(name: string)
    requires IsWord(name)
    ensures WordsOf(name) == {name}
  {
    SplitJoin([name]);
    assert Join([name]) == name;
  }

  lemma CarriedIsWords(names: set<Scope>, word: Scope)
    requires word in Carried(names)
    ensures IsWord(word)
  {
    var name :| name in names && word in WordsOf(name);
    var i :| 0 <= i < |Split(name)| && Split(name)[i] == word;
    assert AllWords(Split(name));
  }

  lemma WordIsCarried(names: set<Scope>, word: Scope)
    requires forall name | name in names :: IsWord(name)
    ensures word in Carried(names) <==> word in names
  {
    if word in names {
      WordCarriesItself(word);
      assert word in WordsOf(word);
    } else if word in Carried(names) {
      var name :| name in names && word in WordsOf(name);
      WordCarriesItself(name);
    }
  }

  lemma WordsCarryThemselves(names: set<Scope>)
    requires forall name | name in names :: IsWord(name)
    ensures Carried(names) == names
  {
    var carried := Carried(names);
    forall word ensures word in carried <==> word in names { WordIsCarried(names, word); }
  }

  /** A set of names is what it carries exactly when each of them is a word. */
  lemma CarriedIsItselfIff(names: set<Scope>)
    ensures Carried(names) == names <==> forall name | name in names :: IsWord(name)
  {
    if forall name | name in names :: IsWord(name) {
      WordsCarryThemselves(names);
    } else {
      var name :| name in names && !IsWord(name);
      if name in Carried(names) { CarriedIsWords(names, name); }
    }
  }

  lemma CarriedMonotone(some: set<Scope>, all: set<Scope>)
    requires some <= all
    ensures Carried(some) <= Carried(all)
  {
  }

  // ---------------------------------------------------------------- grants

  predicate IsDefault(dir: Directory, service: Option<Service>, name: Scope) {
    name in Registry(dir, service) && Registry(dir, service)[name]
  }

  /** The request names its scopes, or every default it may be granted is a word. */
  ghost predicate ReadsBack(dir: Directory, requested: Option<string>, clientLimit: Option<set<Scope>>,
                            service: Option<Service>)
  {
    Blank(requested) ==>
      forall name | IsDefault(dir, service, name) && MayBeGranted(dir, clientLimit, service, name) :: IsWord(name)
  }

  lemma DefaultsAreGranted(dir: Directory, requested: Option<string>, clientLimit: Option<set<Scope>>,
                           service: Option<Service>)
    requires Blank(requested)
    ensures ResolveScope(dir, requested, clientLimit, service).Ok?
    ensures forall name :: name in ResolveScope(dir, requested, clientLimit, service).value <==>
              IsDefault(dir, service, name) && MayBeGranted(dir, clientLimit, service, name)
  {
    DefaultsGranted(dir, requested, clientLimit, service);
  }

  lemma TextIsWords(text: string)
    ensures forall name | name in WordsOf(text) :: IsWord(name)
  {
    assert AllWords(Split(text));
  }

  /** What is read from the granted string is what was granted exactly under that condition. In any case it is bounded
      by what the ceiling carries; under the condition it is bounded by the ceiling itself. */
  lemma GrantReadsBackIff(dir: Directory, requested: Option<string>, clientLimit: Option<set<Scope>>,
                          service: Option<Service>)
    requires ResolveScope(dir, requested, clientLimit, service).Ok?
    ensures var granted := ResolveScope(dir, requested, clientLimit, service).value;
            && (Carried(granted) == granted <==> ReadsBack(dir, requested, clientLimit, service))
            && Carried(granted) <= Carried(Ceiling(dir, clientLimit, service))
            && (ReadsBack(dir, requested, clientLimit, service) ==>
                  Carried(granted) <= Ceiling(dir, clientLimit, service))
  {
    var granted := ResolveScope(dir, requested, clientLimit, service).value;
    GrantedWithinCeiling(dir, requested, clientLimit, service);
    CarriedMonotone(granted, Ceiling(dir, clientLimit, service));
    CarriedIsItselfIff(granted);
    if Blank(requested) {
      DefaultsAreGranted(dir, requested, clientLimit, service);
    } else {
      TextIsWords(requested.value);
    }
  }

  /** `resolve_resource`, then `resolve_scope`: the names granted for an audience, if any are. */
  function Granted(dir: Directory, requested: Option<string>, clientLimit: Option<set<Scope>>,
                   audience: Option<Audience>): Result<set<Scope>, ScopeError>
  {
    match ResolveResource(dir, audience)
    case Err(e) => Err(e)
    case Ok((_, service)) => ResolveScope(dir, requested, clientLimit, service)
  }

  ghost predicate WordDefaults(registry: map<Scope, bool>) {
    forall name | name in registry && registry[name] :: IsWord(name)
  }

  /** Every scope granted by default, globally or by a server, is a word. */
  ghost predicate DefaultsAreWords(dir: Directory) {
    WordDefaults(dir.globals) && forall a | a in dir.services :: WordDefaults(dir.services[a].own)
  }

  lemma WordDefaultsReadBack(dir: Directory, requested: Option<string>, clientLimit: Option<set<Scope>>,
                             service: Option<Service>)
    requires WordDefaults(dir.globals) && (service.Some? ==> WordDefaults(service.value.own))
    ensures ReadsBack(dir, requested, clientLimit, service)
  {
  }

  lemma DefaultIsGranted(dir: Directory, audience: Option<Audience>, service: Option<Service>, name: Scope)
    requires ResolveResource(dir, audience) == Ok((audience, service)) && IsDefault(dir, service, name)
    requires service.Some? ==> name in service.value.own
    requires !IsWord(name)
    ensures Granted(dir, None, None, audience).Ok?
    ensures Carried(Granted(dir, None, None, audience).value) != Granted(dir, None, None, audience).value
  {
    DefaultsGranted(dir, None, None, service);
    GrantReadsBackIff(dir, None, None, service);
    assert MayBeGranted(dir, None, service, name);
  }

  /** For whomever and whatever is asked, the granted string reads back as granted - exactly if the defaults are
      words. */
  lemma GrantsReadBackIff(dir: Directory)
    ensures DefaultsAreWords(dir) <==>
              forall requested, limit, audience | Granted(dir, requested, limit, audience).Ok? ::
                Carried(Granted(dir, requested, limit, audience).value) == Granted(dir, requested, limit, audience).value
  {
    if DefaultsAreWords(dir) {
      forall requested, limit, audience | Granted(dir, requested, limit, audience).Ok?
        ensures Carried(Granted(dir, requested, limit, audience).value) == Granted(dir, requested, limit, audience).value
      {
        var service := ResolveResource(dir, audience).value.1;
        WordDefaultsReadBack(dir, requested, limit, service);
        GrantReadsBackIff(dir, requested, limit, service);
      }
    } else if !WordDefaults(dir.globals) {
      var name :| name in dir.globals && dir.globals[name] && !IsWord(name);
      DefaultIsGranted(dir, None, None, name);
    } else {
      var a :| a in dir.services && !WordDefaults(dir.services[a].own);
      var name :| name in dir.services[a].own && dir.services[a].own[name] && !IsWord(name);
      DefaultIsGranted(dir, Some(a), Some(dir.services[a]), name);
    }
  }

  // ---------------------------------------------------------------- the console

  /** What the console's check would have to be: a name granted by default is a word. */
  predicate SavesAWord(dir: Directory, op: AdminOp) {
    Administer(dir, op).1.Saved? ==>
      match op
      case UpsertScope(raw, isDefault) => isDefault ==> IsWord(Strip(raw))
      case UpsertServiceScope(_, raw, isDefault) => isDefault ==> IsWord(Strip(raw))
      case _ => true
  }

  lemma StepReadsBackIff(dir: Directory, op: AdminOp)
    requires DefaultsAreWords(dir)
    ensures DefaultsAreWords(Administer(dir, op).0) <==> SavesAWord(dir, op)
  {
    var next := Administer(dir, op).0;
    if !SavesAWord(dir, op) {
      match op {
        case UpsertScope(raw, _) => assert next.globals[Strip(raw)];
        case UpsertServiceScope(a, raw, _) => assert next.services[a].own[Strip(raw)];
      }
    } else {
      forall a | a in next.services ensures WordDefaults(next.services[a].own) {
        if a in dir.services { assert WordDefaults(dir.services[a].own); }
      }
    }
  }

  ghost predicate AlwaysWords(dir: Directory, ops: seq<AdminOp>)
    decreases |ops|
  {
    DefaultsAreWords(dir) && (ops != [] ==> AlwaysWords(Administer(dir, ops[0]).0, ops[1..]))
  }

  predicate SavesWords(dir: Directory, ops: seq<AdminOp>)
    decreases |ops|
  {
    ops != [] ==> SavesAWord(dir, ops[0]) && SavesWords(Administer(dir, ops[0]).0, ops[1..])
  }

  /** Over any run of console operations grants read back all along exactly if every default saved is a word. */
  lemma {:induction false} ConsoleReadsBackIff(dir: Directory, ops: seq<AdminOp>)
    requires DefaultsAreWords(dir)
    ensures AlwaysWords(dir, ops) <==> SavesWords(dir, ops)
    ensures SavesWords(dir, ops) ==> DefaultsAreWords(AdministerAll(dir, ops))
    decreases |ops|
  {
    if ops != [] {
      StepReadsBackIff(dir, ops[0]);
      if SavesAWord(dir, ops[0]) { ConsoleReadsBackIff(Administer(dir, ops[0]).0, ops[1..]); }
    }
  }

  /** The scopes a fresh server starts with. */
  const SEEDED := map["mcp:tools:read" := true, "mcp:tools:invoke" := true, "mcp:resources:read" := true,
                      "mcp:prompts:read" := true, "offline_access" := false]

  lemma SeededIsWord(name: Scope)
    requires name in SEEDED
    ensures IsWord(name)
  {
    if name == "mcp:tools:read" {
    } else if name == "mcp:tools:invoke" {
    } else if name == "mcp:resources:read" {
    } else if name == "mcp:prompts:read" {
    }
  }

  lemma SeededIsWords()
    ensures DefaultsAreWords(Directory(SEEDED, map[]))
  {
    forall name | name in SEEDED ensures IsWord(name) { SeededIsWord(name); }
  }

  /** The text the scanner sends has exactly these words, and a fresh server knows them. */
  lemma ScannerAsksForWords()
    ensures WordsOf(Join(SCANNER_SCOPES)) == (set name | name in SCANNER_SCOPES) <= SEEDED.Keys
    ensures !Blank(Some(Join(SCANNER_SCOPES)))
  {
    forall i | 0 <= i < |SCANNER_SCOPES| ensures IsWord(SCANNER_SCOPES[i]) { SeededIsWord(SCANNER_SCOPES[i]); }
    SplitJoin(SCANNER_SCOPES);
    assert SCANNER_SCOPES[0] in WordsOf(Join(SCANNER_SCOPES));
  }

  // ---------------------------------------------------------------- and it happens

  const TABBED := Directory(map["a\tb" := true], map[])

  /** White space of any kind, in the middle of a name, makes two scopes of it. */
  lemma SplitInTwo(first: Scope, space: char, second: Scope)
    requires IsWord(first) && IsWord(second) && IsSpace(space)
    ensures Split(first + [space] + second) == [first, second]
    ensures first in WordsOf(first + [space] + second) && second in WordsOf(first + [space] + second)
  {
    var tail := [space] + second;
    assert first + [space] + second == first + tail && tail[1..] == second;
    SplitAppend(first, tail);
    SplitJoin([first]);
    SplitJoin([second]);
    assert Join([first]) == first && Join([second]) == second;
    assert [first, second][0] == first && [first, second][1] == second;
  }

  /** The console accepts a name with a tab in it; a request that names no scope is granted it; and whoever reads the
      granted string finds two scopes there, neither of which is registered. */
  lemma TabIsTwoScopes()
    ensures Administer(Directory(map[], map[]), UpsertScope("a\tb", true)) == (TABBED, Saved)
    ensures Granted(TABBED, None, None, None) == Ok({"a\tb"}) && Carried({"a\tb"}) == {"a", "b"}
  {
    SplitInTwo("a", '\t', "b");
    assert "a" + ['\t'] + "b" == "a\tb";
    forall word ensures word in Carried({"a\tb"}) <==> word in {"a", "b"} {
      assert word in Carried({"a\tb"}) <==> word in WordsOf("a\tb");
    }
    DefaultsGranted(TABBED, None, None, None);
    var granted := Granted(TABBED, None, None, None).value;
    forall name ensures name in granted <==> name in {"a\tb"} {}
    assert granted == {"a\tb"};
  }
}
