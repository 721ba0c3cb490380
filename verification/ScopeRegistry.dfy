/**
 Which scopes exist, which a request may be granted, and the console operations that edit the registry.

 A server is identified by its normalised audience. A scope text that is read from a request, a client or a server
 is the set of its words. What is granted is a set of registered names; joined, stored and read again it carries the
 words of these names, which are the names themselves when none of them holds white space.
 */
module ScopeRegistry {
  import opened Prelude
  import Text

  type Scope = string
  type Audience = string

  /** `allowList` is the server's `oauth_scopes` column (None when empty); `own` maps its scopes to `is_default`. */
  datatype Service = Service(allowList: Option<set<Scope>>, own: map<Scope, bool>)

  /** The two scope tables: global names to `is_default`, and each server's own scopes. */
  datatype Directory = Directory(globals: map<Scope, bool>, services: map<Audience, Service>)

  datatype ScopeError = InvalidScope | InvalidTarget

  // ---------------------------------------------------------------- scope texts

  /** `set(text.split())` */
  function WordsOf(text: string): set<Scope> {
    set word | word in Text.Split(text)
  }

  /** What splitting `" ".join(names)` gives back. */
  function Carried(names: set<Scope>): (words: set<Scope>)
    ensures forall word :: word in words <==> exists name :: name in names && word in WordsOf(name)
  {
    set name, word | name in names && word in WordsOf(name) :: word
  }

  predicate Blank(requested: Option<string>) {
    requested.Some? ==> WordsOf(requested.value) == {}
  }

  // ---------------------------------------------------------------- what a request is granted

  /** The global registry, updated with the server's own scopes when a server is known. */
  function Registry(dir: Directory, service: Option<Service>): map<Scope, bool> {
    match service
    case None => dir.globals
    case Some(s) => dir.globals + s.own
  }

  /** The limit `resolve_scope` accumulates from the client and the server; None means unlimited. */
  function Limit(clientLimit: Option<set<Scope>>, service: Option<Service>): Option<set<Scope>> {
    if service.Some? && service.value.allowList.Some? then
      var forServer := service.value.allowList.value + service.value.own.Keys;
      if clientLimit.None? then Some(forServer) else Some(clientLimit.value * forServer)
    else
      clientLimit
  }

  function WithinLimit(names: set<Scope>, limit: Option<set<Scope>>): set<Scope> {
    if limit.None? then names else names * limit.value
  }

  /** The names that are granted; the program joins them. */
  function ResolveScope(dir: Directory, requested: Option<string>, clientLimit: Option<set<Scope>>,
                        service: Option<Service>): Result<set<Scope>, ScopeError>
  {
    var registry := Registry(dir, service);
    var allowed := Limit(clientLimit, service);
    if !Blank(requested) then
      var req := WordsOf(requested.value);
      if req - registry.Keys != {} then Err(InvalidScope)
      else if allowed.Some? && req - allowed.value != {} then Err(InvalidScope)
      else Ok(req)
    else
      var defaults := set name | name in registry && registry[name];
      Ok(WithinLimit(defaults, allowed))
  }

  /** The names in DEFAULT_SCANNER_SCOPES, which is their joined text. */
  const SCANNER_SCOPES := ["mcp:tools:read", "mcp:tools:invoke", "mcp:resources:read", "mcp:prompts:read"]

  /** What the scanner asks for: the usual scopes, unless the server restricts what it takes. */
  function ScannerAsks(service: Option<Service>): Option<string> {
    if service.Some? && service.value.allowList.Some? then None else Some(Text.Join(SCANNER_SCOPES))
  }

  /** The scope names the console shows for a server: globals the server admits, then its own. */
  function EffectiveScopes(dir: Directory, service: Service): set<Scope> {
    (set name | name in dir.globals && (service.allowList.None? || name in service.allowList.value)) + service.own.Keys
  }

  /** The reference bound, scope by scope: it exists, the client may ask for it, and the server admits it. */
  predicate MayBeGranted(dir: Directory, clientLimit: Option<set<Scope>>, service: Option<Service>, name: Scope) {
    && (name in dir.globals || (service.Some? && name in service.value.own))
    && (clientLimit.Some? ==> name in clientLimit.value)
    && (service.Some? && service.value.allowList.Some? && name !in service.value.own
        ==> name in service.value.allowList.value)
  }

  function Ceiling(dir: Directory, clientLimit: Option<set<Scope>>, service: Option<Service>): (c: set<Scope>)
    ensures forall name :: name in c <==> MayBeGranted(dir, clientLimit, service, name)
  {
    set name | name in Registry(dir, service) && MayBeGranted(dir, clientLimit, service, name)
  }

  /** A non-blank request is granted, unchanged, exactly when every scope in it may be granted. */
  lemma RequestGrantedIff(dir: Directory, text: string, clientLimit: Option<set<Scope>>, service: Option<Service>)
    requires WordsOf(text) != {}
    ensures ResolveScope(dir, Some(text), clientLimit, service)
         == if WordsOf(text) <= Ceiling(dir, clientLimit, service) then Ok(WordsOf(text)) else Err(InvalidScope)
  {
    var requested := WordsOf(text);
    var registry := Registry(dir, service);
    var allowed := Limit(clientLimit, service);
    if requested <= Ceiling(dir, clientLimit, service) {
      assert requested - registry.Keys == {};
      assert allowed.Some? ==> requested - allowed.value == {};
    } else {
      var name :| name in requested && !MayBeGranted(dir, clientLimit, service, name);
      assert name in requested - registry.Keys || (allowed.Some? && name in requested - allowed.value);
    }
  }

  /** A missing or blank request gets exactly the default scopes that may be granted. */
  lemma DefaultsGranted(dir: Directory, blank: Option<string>, clientLimit: Option<set<Scope>>,
                        service: Option<Service>)
    requires Blank(blank)
    ensures ResolveScope(dir, blank, clientLimit, service).Ok?
    ensures forall name :: name in ResolveScope(dir, blank, clientLimit, service).value <==>
              && MayBeGranted(dir, clientLimit, service, name)
              && (if service.Some? && name in service.value.own then service.value.own[name] else dir.globals[name])
  {
    var granted := ResolveScope(dir, blank, clientLimit, service).value;
    var registry := Registry(dir, service);
    forall name
      ensures name in granted <==> MayBeGranted(dir, clientLimit, service, name) && registry[name]
    {
      assert name in Ceiling(dir, clientLimit, service) <==> MayBeGranted(dir, clientLimit, service, name);
    }
  }

  /** What the console shows for a server is what a token for it may carry when no client limits the request. */
  lemma EffectiveIsGrantable(dir: Directory, service: Service)
    ensures EffectiveScopes(dir, service) == Ceiling(dir, None, Some(service))
  {
    forall name
      ensures name in EffectiveScopes(dir, service) <==> MayBeGranted(dir, None, Some(service), name)
    {
    }
  }

  lemma GrantedWithinCeiling(dir: Directory, requested: Option<string>, clientLimit: Option<set<Scope>>,
                             service: Option<Service>)
    requires ResolveScope(dir, requested, clientLimit, service).Ok?
    ensures ResolveScope(dir, requested, clientLimit, service).value <= Ceiling(dir, clientLimit, service)
  {
    if !Blank(requested) {
      RequestGrantedIff(dir, requested.value, clientLimit, service);
    } else {
      DefaultsGranted(dir, requested, clientLimit, service);
    }
  }

  /** `resolve_resource`: the audience must belong to a registered server. */
  function ResolveResource(dir: Directory, resource: Option<Audience>)
    : Result<(Option<Audience>, Option<Service>), ScopeError>
  {
    if resource.None? then Ok((None, None))
    else if resource.value !in dir.services then Err(InvalidTarget)
    else Ok((resource, Some(dir.services[resource.value])))
  }

  // ---------------------------------------------------------------- console operations

  datatype AdminOp =
    | UpsertScope(name: string, isDefault: bool)
    | DeleteScope(name: string)
    | UpsertServiceScope(server: Audience, name: string, isDefault: bool)
    | DeleteServiceScope(server: Audience, name: string)
    | PutService(server: Audience, allowList: Option<set<Scope>>)
    | DropService(server: Audience)

  datatype AdminOutcome = Saved | BadName | OwnedByService | IsGlobal | NotFound

  predicate GoodName(name: string) {
    name != "" && ' ' !in name
  }

  /** `ServiceScopeCRUD.names_in_use(name) > 0` */
  predicate DeclaredBySomeService(dir: Directory, name: Scope) {
    exists a | a in dir.services :: name in dir.services[a].own
  }

  /** The registry after one console operation; a refused operation changes nothing. */
  function Administer(dir: Directory, op: AdminOp): (Directory, AdminOutcome) {
    match op
    case UpsertScope(raw, isDefault) =>
      var name := Text.Strip(raw);
      if !GoodName(name) then (dir, BadName)
      else if name !in dir.globals && DeclaredBySomeService(dir, name) then (dir, OwnedByService)
      else (dir.(globals := dir.globals[name := isDefault]), Saved)
    case DeleteScope(name) =>
      if name !in dir.globals then (dir, NotFound) else (dir.(globals := dir.globals - {name}), Saved)
    case UpsertServiceScope(server, raw, isDefault) =>
      var name := Text.Strip(raw);
      if server !in dir.services then (dir, NotFound)
      else if !GoodName(name) then (dir, BadName)
      else if name in dir.globals then (dir, IsGlobal)
      else
        var s := dir.services[server];
        (dir.(services := dir.services[server := s.(own := s.own[name := isDefault])]), Saved)
    case DeleteServiceScope(server, name) =>
      if server !in dir.services || name !in dir.services[server].own then (dir, NotFound)
      else
        var s := dir.services[server];
        (dir.(services := dir.services[server := s.(own := s.own - {name})]), Saved)
    case PutService(server, allowList) =>
      var own := if server in dir.services then dir.services[server].own else map[];
      (dir.(services := dir.services[server := Service(allowList, own)]), Saved)
    case DropService(server) =>
      if server !in dir.services then (dir, NotFound) else (dir.(services := dir.services - {server}), Saved)
  }

  function AdministerAll(dir: Directory, ops: seq<AdminOp>): Directory
    decreases |ops|
  {
    if ops == [] then dir else AdministerAll(Administer(dir, ops[0]).0, ops[1..])
  }

  /** What is declared under a name, globally or by a server: whether it is a default. */
  function Declared(dir: Directory, server: Option<Audience>, name: Scope): Option<bool> {
    match server
    case None => if name in dir.globals then Some(dir.globals[name]) else None
    case Some(a) =>
      if a in dir.services && name in dir.services[a].own then Some(dir.services[a].own[name]) else None
  }

  /** One entry became `value`; no other changed, nor did any server or its allow-list. */
  ghost predicate OneEntry(dir: Directory, n: Directory, server: Option<Audience>, name: Scope, value: Option<bool>) {
    && (forall a, k :: Declared(n, a, k) == if a == server && k == name then value else Declared(dir, a, k))
    && n.services.Keys == dir.services.Keys
    && (forall a | a in dir.services :: n.services[a].allowList == dir.services[a].allowList)
  }

  /** What the console may save: a name that is left of what was typed, without a blank in it. */
  predicate Typed(raw: string, name: string) {
    Text.Strip(raw) == name && name != "" && ' ' !in name
  }

  /** What the routes that edit scopes answer, and the one entry they change. */
  ghost predicate ConsoleAnswer(dir: Directory, op: AdminOp, n: Directory, outcome: AdminOutcome) {
    match op
    case UpsertScope(raw, isDefault) =>
      var name := Text.Strip(raw);
      if !Typed(raw, name) then n == dir && outcome == BadName
      else if Declared(dir, None, name).None? && exists a :: Declared(dir, Some(a), name).Some? then
        n == dir && outcome == OwnedByService
      else outcome == Saved && OneEntry(dir, n, None, name, Some(isDefault))
    case DeleteScope(name) =>
      if Declared(dir, None, name).None? then n == dir && outcome == NotFound
      else outcome == Saved && OneEntry(dir, n, None, name, None)
    case UpsertServiceScope(server, raw, isDefault) =>
      var name := Text.Strip(raw);
      if server !in dir.services then n == dir && outcome == NotFound
      else if !Typed(raw, name) then n == dir && outcome == BadName
      else if Declared(dir, None, name).Some? then n == dir && outcome == IsGlobal
      else outcome == Saved && OneEntry(dir, n, Some(server), name, Some(isDefault))
    case DeleteServiceScope(server, name) =>
      if Declared(dir, Some(server), name).None? then n == dir && outcome == NotFound
      else outcome == Saved && OneEntry(dir, n, Some(server), name, None)
    case PutService(server, allowList) =>
      && outcome == Saved && n.services.Keys == dir.services.Keys + {server} && n.services[server].allowList == allowList
      && (forall a, k :: Declared(n, a, k) == Declared(dir, a, k))
    case DropService(server) =>
      if server !in dir.services then n == dir && outcome == NotFound
      else outcome == Saved && n.services.Keys == dir.services.Keys - {server}
           && forall a, k :: Declared(n, a, k) == if a == Some(server) then None else Declared(dir, a, k)
  }

  lemma ConsoleAnswers(dir: Directory, op: AdminOp)
    ensures ConsoleAnswer(dir, op, Administer(dir, op).0, Administer(dir, op).1)
  {
    if op.UpsertScope? {
      var name := Text.Strip(op.name);
      if DeclaredBySomeService(dir, name) {
        var a :| a in dir.services && name in dir.services[a].own;
        assert Declared(dir, Some(a), name).Some?;
      }
    }
  }

  /** No server declares a global name. */
  ghost predicate Disjoint(dir: Directory) {
    forall a | a in dir.services :: dir.services[a].own.Keys !! dir.globals.Keys
  }

  /** Over any run of console operations global and per-server names stay disjoint, so for every server the merged
      registry keeps each global scope's own entry: the update in `scope_registry` overwrites nothing. */
  lemma {:induction false} NamesStayDisjoint(dir: Directory, ops: seq<AdminOp>)
    requires Disjoint(dir)
    ensures Disjoint(AdministerAll(dir, ops))
    ensures forall a, name | a in AdministerAll(dir, ops).services && name in AdministerAll(dir, ops).globals ::
              Registry(AdministerAll(dir, ops), Some(AdministerAll(dir, ops).services[a]))[name]
              == AdministerAll(dir, ops).globals[name]
    decreases |ops|
  {
    if ops != [] {
      var next := Administer(dir, ops[0]).0;
      forall a | a in next.services
        ensures next.services[a].own.Keys !! next.globals.Keys
      {
        if a in dir.services { assert dir.services[a].own.Keys !! dir.globals.Keys; }
      }
      NamesStayDisjoint(next, ops[1..]);
    }
  }

  /** The registry as the console routes change it. */
  class ScopeConsole {
    var globals: map<Scope, bool>
    var services: map<Audience, Service>

    ghost function Dir(): Directory reads this { Directory(globals, services) }

    constructor (seeded: map<Scope, bool>)
      ensures Dir() == Directory(seeded, map[]) && Disjoint(Dir())
    {
      globals, services := seeded, map[];
    }

    method UpsertScope(raw: string, isDefault: bool) returns (outcome: AdminOutcome)
      modifies this`globals
      ensures (Dir(), outcome) == Administer(old(Dir()), AdminOp.UpsertScope(raw, isDefault))
      ensures old(Disjoint(Dir())) ==> Disjoint(Dir())
    {
      var name := Text.Strip(raw);
      if !GoodName(name) { return BadName; }
      if name !in globals && DeclaredBySomeService(Directory(globals, services), name) { return OwnedByService; }
      globals := globals[name := isDefault];
      outcome := Saved;
    }

    method UpsertServiceScope(server: Audience, raw: string, isDefault: bool) returns (outcome: AdminOutcome)
      modifies this`services
      ensures (Dir(), outcome) == Administer(old(Dir()), AdminOp.UpsertServiceScope(server, raw, isDefault))
      ensures old(Disjoint(Dir())) ==> Disjoint(Dir())
    {
      if server !in services { return NotFound; }
      var name := Text.Strip(raw);
      if !GoodName(name) { return BadName; }
      if name in globals { return IsGlobal; }
      var s := services[server];
      services := services[server := s.(own := s.own[name := isDefault])];
      outcome := Saved;
    }

    method DeleteScope(name: string) returns (outcome: AdminOutcome)
      modifies this`globals
      ensures (Dir(), outcome) == Administer(old(Dir()), AdminOp.DeleteScope(name))
    {
      if name !in globals { return NotFound; }
      globals := globals - {name};
      outcome := Saved;
    }

    method DeleteServiceScope(server: Audience, name: string) returns (outcome: AdminOutcome)
      modifies this`services
      ensures (Dir(), outcome) == Administer(old(Dir()), AdminOp.DeleteServiceScope(server, name))
    {
      if server !in services { return NotFound; }
      if name !in services[server].own { return NotFound; }
      var s := services[server];
      services := services[server := s.(own := s.own - {name})];
      outcome := Saved;
    }
  }
}
