/**
 What starting, stopping and reconciling leave behind, told by the tables, the active set and the calls to the runtime
 alone: what a stop does, what a start waits for and in which order, what it launches, and what each outcome leaves.
 */
module OrchestrationAnswers {
  import opened Prelude
  import opened Text
  import opened ArgvPolicy
  import opened ImageRefs
  import opened PortAllocator
  import opened Launch
  import opened Orchestration

  // ---------------------------------------------------------------- stop

  /** `mcp-managed-` and the first eight characters of the id. */
  ghost predicate IsNameOf(name: string, id: Id) {
    |name| == 12 + (if |id| > 8 then 8 else |id|) && name[..12] == "mcp-managed-" && name[12..] <= id
  }

  lemma ContainersAreNamed(id: Id)
    ensures IsNameOf(ContainerName(id), id)
  {
    assert |"mcp-managed-"| == 12;
  }

  predicate OthersUntouched(m: Machine, n: Machine, id: Id) {
    && n.rows.Keys == m.rows.Keys
    && (forall k | k in m.rows && k != id :: n.rows[k] == m.rows[k])
    && (forall k | k in m.active + n.active && k != id :: k in m.active && k in n.active)
  }

  /** Stopped, without instances; the port, the orders and the rest of the row are as before. */
  predicate RowStopped(before: Row, after: Row) {
    && after.actual == Stopped && after.containerId == None && after.bridgeContainerId == None
    && after.port == before.port && after.autoPort == before.autoPort && after.wanted == before.wanted
    && after.lastError == before.lastError && after.serviceId == before.serviceId && after.stored == before.stored
  }

  /** What a stop of `id` leaves. */
  ghost predicate StopDone(m: Machine, id: Id, stopped: bool, n: Machine) {
    && id in m.rows && OthersUntouched(m, n, id) && id !in n.active && RowStopped(m.rows[id], n.rows[id])
    && exists name :: IsNameOf(name, id)
         && n.calls == m.calls + if stopped then [Stop(name), Remove(name)] else [Stop(name)]
  }

  ghost predicate StopAnswer(m: Machine, id: Id, stopped: bool, n: Machine, failure: Option<Failure>) {
    if id in m.rows then failure.None? && StopDone(m, id, stopped, n)
    else failure == Some(ProcessNotFound) && n == m
  }

  /** A stop of a known process always succeeds. It is no longer active, its row says so and keeps its port and orders,
      and the last calls are the stop of its instance and the removal - or the stop alone, exactly if that raised. No
      other process is touched. An unknown one is reported, and nothing changes. */
  lemma StopAnswers(m: Machine, id: Id, stopped: bool)
    ensures StopAnswer(m, id, stopped, StopOp(m, id, stopped).0, StopOp(m, id, stopped).1)
  {
    ContainersAreNamed(id);
  }

  /** As a step of a run. */
  lemma HaltStops(rules: Rules, m: Machine, id: Id, stopped: bool)
    ensures var n := Step(rules, m, Halt(id, stopped));
            if id in m.rows then StopDone(m, id, stopped, n) else n == m
  {
    StopAnswers(m, id, stopped);
  }

  predicate Starts(op: Op, id: Id) {
    match op
    case Start(other, _) => other == id
    case Reconcile(targets, _) => id in targets
    case _ => false
  }

  predicate NeverStarts(ops: seq<Op>, id: Id) {
    forall i | 0 <= i < |ops| :: !Starts(ops[i], id)
  }

  lemma {:induction false} ReconcileLeavesOthersInactive(
    rules: Rules, m: Machine, targets: seq<Id>, envs: seq<Env>, id: Id)
    requires |envs| == |targets| && id !in targets && id !in m.active
    ensures id !in ReconcileAll(rules, m, targets, envs).0.active
    decreases |targets|
  {
    if targets != [] {
      var asked := m.(calls := m.calls + [Probe(ContainerName(targets[0]))]);
      StartOutcomes(rules, asked, targets[0], envs[0]);
      ReconcileLeavesOthersInactive(rules, ReconcileOne(rules, m, targets[0], envs[0]).0, targets[1..], envs[1..], id);
    }
  }

  /** A process that is not active is not active after any run that neither starts nor reconciles it: in particular
      after its stop. */
  lemma {:induction false} InactiveUntilStarted(rules: Rules, m: Machine, ops: seq<Op>, id: Id)
    requires ValidRun(rules, m, ops) && NeverStarts(ops, id) && id !in m.active
    ensures id !in Run(rules, m, ops).active
    decreases |ops|
  {
    if ops != [] {
      assert !Starts(ops[0], id);
      match ops[0] {
        case Start(other, env) => StartOutcomes(rules, m, other, env);
        case Reconcile(targets, envs) => ReconcileLeavesOthersInactive(rules, m, targets, envs, id);
        case _ =>
      }
      InactiveUntilStarted(rules, Step(rules, m, ops[0]), ops[1..], id);
    }
  }

  lemma {:induction false} StoppedUntilStarted(rules: Rules, m: Machine, id: Id, stopped: bool, ops: seq<Op>)
    requires id in m.rows && NeverStarts(ops, id) && ValidRun(rules, m, [Halt(id, stopped)] + ops)
    ensures id !in Run(rules, m, [Halt(id, stopped)] + ops).active
  {
    HaltStops(rules, m, id, stopped);
    assert ([Halt(id, stopped)] + ops)[1..] == ops;
    InactiveUntilStarted(rules, Step(rules, m, Halt(id, stopped)), ops, id);
  }

  // ---------------------------------------------------------------- what a start waits for

  /** Of the range, with no listener, and on no other row - or the process's own. */
  ghost predicate Takeable(g: PortRange, rows: Rows, id: Id, listening: set<int>, port: int)
    requires id in rows
  {
    && InRange(g, port) && port !in listening
    && (rows[id].port == Some(port) || forall k | k in rows && k != id :: rows[k].port != Some(port))
  }

  /** The port a start uses: the least one it may take, or the one set by hand. */
  ghost predicate StartsOn(g: PortRange, rows: Rows, id: Id, listening: set<int>, port: int)
    requires id in rows
  {
    if rows[id].autoPort then
      Takeable(g, rows, id, listening, port) && forall p | p < port :: !Takeable(g, rows, id, listening, p)
    else rows[id].port == Some(port) && port != 0
  }

  lemma FreeIsTakeable(g: PortRange, rows: Rows, id: Id, listening: set<int>, port: int)
    requires id in rows
    ensures Free(g, PortsOf(rows), id, listening, port) <==> Takeable(g, rows, id, listening, port)
  {
    var ports := PortsOf(rows);
    assert PortOf(ports, id) == rows[id].port;
    if rows[id].port != Some(port) {
      UsedIsHeldByAnother(ports, id, port);
      if HeldByAnother(ports, id, port) {
        var k :| k in ports && k != id && ports[k] == Some(port);
        assert rows[k].port == Some(port);
      } else {
        forall k | k in rows && k != id ensures rows[k].port != Some(port) { assert ports[k] == rows[k].port; }
      }
    }
  }

  lemma ChosenPort(rules: Rules, rows: Rows, id: Id, listening: set<int>)
    requires id in rows
    ensures var r := ChoosePort(rules, rows, id, listening);
            match r
            case Ok(port) => StartsOn(rules.ports, rows, id, listening, port)
            case Err(e) =>
              && (forall port :: !StartsOn(rules.ports, rows, id, listening, port))
              && e == if rows[id].autoPort then NoFreePort else NoPortSet
  {
    forall port ensures Free(rules.ports, PortsOf(rows), id, listening, port)
                   <==> Takeable(rules.ports, rows, id, listening, port)
    {
      FreeIsTakeable(rules.ports, rows, id, listening, port);
    }
  }

  lemma OnePort(g: PortRange, rows: Rows, id: Id, listening: set<int>, p: int, q: int)
    requires id in rows && StartsOn(g, rows, id, listening, p) && StartsOn(g, rows, id, listening, q)
    ensures p == q
  {
    if rows[id].autoPort { assert !(p < q) && !(q < p); }
  }

  function TheFlags(stored: Stored): seq<string> {
    ReadBack(stored.imageArgs)
  }

  /** What the policy asks of a row and its source: the image, the flags, and the command by transport. */
  ghost predicate Acceptable(rules: Rules, stored: Stored, source: Source, runtimeImage: string) {
    && Parse(rules.flags, TheFlags(stored)).Ok?
    && match source
       case Gone => false
       case Catalog(transport, _) =>
         // a catalog entry brings no command for the bridge to run
         ValidateImageRef(rules.images, stored.dockerImage).Ok?
         && (if transport.Http? then AllSafe(rules.commands, stored.imageCommand)
             else transport.Stdio? && "" in rules.commands.launchers)
       case Definition(command, args, _) =>
         ValidateImageRef(rules.images, runtimeImage).Ok?
         && command in rules.commands.launchers && AllSafe(rules.commands, args)
  }

  /** The list of strings that the JSON values hold. */
  predicate TextsOf(texts: seq<string>, values: seq<Json>) {
    |texts| == |values| && forall i | 0 <= i < |texts| :: values[i] == Str(texts[i])
  }

  /** The request says what the row and its source say. */
  ghost predicate Faithful(req: Request, id: Id, stored: Stored, source: Source, runtimeImage: string) {
    && IsNameOf(req.name, id) && req.runFlags == TheFlags(stored)
    && match source
       case Gone => false
       case Catalog(transport, port) =>
         && req.transport == transport && req.imageRef == stored.dockerImage && req.containerPort == port
         && (transport.Http? ==> TextsOf(req.entrypointArgs, stored.imageCommand) && req.stdioCommand == [])
       case Definition(command, args, port) =>
         && req.transport == Stdio && req.imageRef == runtimeImage
         && (if port in {None, Some(0)} then req.containerPort == 8000 else port == Some(req.containerPort))
         && req.entrypointArgs == [] && TextsOf(req.stdioCommand, [Str(command)] + args)
  }

  lemma VettedFaithfully(rules: Rules, id: Id, stored: Stored, source: Source, runtimeImage: string, port: int)
    requires !source.Gone?
    ensures ResolveSpec(stored, source, runtimeImage).Some?
    ensures var r := Vet(rules, ResolveSpec(stored, source, runtimeImage).value, ContainerName(id), port);
            && (r.Ok? <==> Acceptable(rules, stored, source, runtimeImage))
            && (r.Ok? ==> Faithful(r.value, id, stored, source, runtimeImage) && r.value.hostPort == port)
  {
    ContainersAreNamed(id);
    assert AllSafe(rules.commands, []);
  }

  /** Everything a start needs before it may launch anything. */
  ghost predicate MayLaunch(rules: Rules, m: Machine, id: Id, env: Env) {
    && id in m.rows
    && (exists port :: StartsOn(rules.ports, m.rows, id, env.listening, port))
    && Acceptable(rules, m.rows[id].stored, env.source, env.runtimeImage)
  }

  // ---------------------------------------------------------------- what a start leaves

  /** A process this instance had started is stopped first, whatever comes of the start after that. */
  ghost predicate Replaced(m: Machine, id: Id, stopped: bool, ready: Machine) {
    if id in m.active then StopDone(m, id, stopped, ready) else ready == m
  }

  ghost predicate Refused(rules: Rules, m: Machine, id: Id, env: Env, failure: Option<Failure>) {
    if id !in m.rows then failure == Some(ProcessNotFound)
    else if env.source.Gone? then failure == Some(SourceNotFound)
    else if forall port :: !StartsOn(rules.ports, m.rows, id, env.listening, port) then
      failure == Some(if m.rows[id].autoPort then NoFreePort else NoPortSet)
    else failure.Some? && failure.value.PolicyRefused?
  }

  predicate SamePorts(a: Rows, b: Rows) {
    a.Keys == b.Keys && forall k | k in a :: a[k].port == b[k].port && a[k].autoPort == b[k].autoPort
  }

  lemma SamePortsStartAlike(g: PortRange, a: Rows, b: Rows, id: Id, listening: set<int>, port: int)
    requires id in a && SamePorts(a, b)
    ensures StartsOn(g, a, id, listening, port) <==> StartsOn(g, b, id, listening, port)
  {
    forall p ensures Takeable(g, a, id, listening, p) <==> Takeable(g, b, id, listening, p) {}
  }

  lemma FreshIsReplaced(m: Machine, id: Id, stopped: bool)
    requires id in m.rows
    ensures Replaced(m, id, stopped, Fresh(m, id, stopped))
    ensures SamePorts(m.rows, Fresh(m, id, stopped).rows) && Fresh(m, id, stopped).rows[id].stored == m.rows[id].stored
  {
    StopAnswers(m, id, stopped);
  }

  lemma PreparedAnswers(rules: Rules, m: Machine, id: Id, env: Env)
    requires id in m.rows && !env.source.Gone?
    ensures ResolveSpec(m.rows[id].stored, env.source, env.runtimeImage).Some?
    ensures var spec := ResolveSpec(m.rows[id].stored, env.source, env.runtimeImage).value;
            match Prepared(rules, m.rows, id, spec, env.listening)
            case Err(e) => !MayLaunch(rules, m, id, env) && Refused(rules, m, id, env, Some(e))
            case Ok(req) => MayLaunch(rules, m, id, env)
                            && StartsOn(rules.ports, m.rows, id, env.listening, req.hostPort)
                            && Faithful(req, id, m.rows[id].stored, env.source, env.runtimeImage)
  {
    ChosenPort(rules, m.rows, id, env.listening);
    var chosen := ChoosePort(rules, m.rows, id, env.listening);
    VettedFaithfully(rules, id, m.rows[id].stored, env.source, env.runtimeImage, if chosen.Ok? then chosen.value else 0);
  }

  /** Running, without an error, on the port it was launched on; an empty id is none. */
  predicate RowRunning(before: Row, after: Row, port: int, env: Env) {
    && after.actual == Running && after.lastError == None && after.bridgeContainerId == None
    && after.port == (if port > 0 then Some(port) else None)
    && after.containerId == (if env.instance.Alive? && env.instance.id != "" then Some(env.instance.id) else None)
    && after.serviceId == (if env.service == Some("") then None else env.service)
    && after.autoPort == before.autoPort && after.wanted == before.wanted && after.stored == before.stored
  }

  /** From the launch of `req` on. */
  ghost predicate LaunchLeaves(m: Machine, id: Id, env: Env, req: Request, n: Machine, failure: Option<Failure>)
    requires id in m.rows
  {
    if !env.launched then
      failure == Some(LaunchFailed) && n == Machine(m.rows, m.active, m.calls + [Call.Launch(req)])
    else if !env.portOpened then
      && failure == Some(PortTimeout)
      && StopDone(Machine(m.rows, m.active + {id}, m.calls + [Call.Launch(req)]), id, env.cleaned, n)
    else
      && n.active == m.active + {id} && n.calls == m.calls + [Call.Launch(req), Probe(req.name)]
      && if env.instance.Unreachable? then failure == Some(ProbeFailed) && n.rows == m.rows
         else if env.service.None? then failure == Some(ServiceFailed) && n.rows == m.rows
         else failure.None? && OthersUntouched(m, n, id) && RowRunning(m.rows[id], n.rows[id], req.hostPort, env)
  }

  ghost predicate LaunchedFrom(rules: Rules, m: Machine, id: Id, env: Env, req: Request) {
    && id in m.rows && StartsOn(rules.ports, m.rows, id, env.listening, req.hostPort)
    && Faithful(req, id, m.rows[id].stored, env.source, env.runtimeImage)
  }

  /** What comes of a start. A process that is known and whose source is, is first stopped if this instance had started
      it. Then the port and the policy decide whether anything is launched: exactly one request, which says what the row
      and its source say. */
  ghost predicate StartAnswer(rules: Rules, m: Machine, id: Id, env: Env, n: Machine, failure: Option<Failure>) {
    if id !in m.rows || env.source.Gone? then Refused(rules, m, id, env, failure) && n == m
    else if !MayLaunch(rules, m, id, env) then
      Refused(rules, m, id, env, failure) && Replaced(m, id, env.stopped, n)
    else
      exists ready, req ::
        && Replaced(m, id, env.stopped, ready) && LaunchedFrom(rules, m, id, env, req)
        && id in ready.rows && LaunchLeaves(ready, id, env, req, n, failure)
  }

  lemma LaunchedLeaves(m: Machine, id: Id, req: Request, env: Env)
    requires id in m.rows && req.name == ContainerName(id)
    ensures LaunchLeaves(m, id, env, req, Launched(m, id, req, env).0, Launched(m, id, req, env).1)
  {
    ContainersAreNamed(id);
    assert m.calls + [Call.Launch(req)] + [Probe(req.name)] == m.calls + [Call.Launch(req), Probe(req.name)];
    StopAnswers(Machine(m.rows, m.active + {id}, m.calls + [Call.Launch(req)]), id, env.cleaned);
  }

  lemma TransferAnswers(rules: Rules, m: Machine, ready: Machine, id: Id, env: Env, failure: Option<Failure>)
    requires id in m.rows && SamePorts(m.rows, ready.rows) && ready.rows[id].stored == m.rows[id].stored
    ensures MayLaunch(rules, ready, id, env) <==> MayLaunch(rules, m, id, env)
    ensures Refused(rules, ready, id, env, failure) <==> Refused(rules, m, id, env, failure)
    ensures forall req :: LaunchedFrom(rules, ready, id, env, req) <==> LaunchedFrom(rules, m, id, env, req)
  {
    forall port ensures StartsOn(rules.ports, m.rows, id, env.listening, port)
                   <==> StartsOn(rules.ports, ready.rows, id, env.listening, port)
    {
      SamePortsStartAlike(rules.ports, m.rows, ready.rows, id, env.listening, port);
    }
  }

  lemma KnownSourceAnswers(rules: Rules, m: Machine, id: Id, env: Env)
    requires id in m.rows && !env.source.Gone?
    ensures StartAnswer(rules, m, id, env, StartOp(rules, m, id, env).0, StartOp(rules, m, id, env).1)
  {
    var ready := Fresh(m, id, env.stopped);
    FreshIsReplaced(m, id, env.stopped);
    PreparedAnswers(rules, ready, id, env);
    var spec := ResolveSpec(ready.rows[id].stored, env.source, env.runtimeImage).value;
    var prepared := Prepared(rules, ready.rows, id, spec, env.listening);
    TransferAnswers(rules, m, ready, id, env, StartOp(rules, m, id, env).1);
    if prepared.Ok? {
      PreparedIsVetted(rules, ready.rows, id, spec, env.listening);
      LaunchedLeaves(ready, id, prepared.value, env);
    }
  }

  lemma StartAnswers(rules: Rules, m: Machine, id: Id, env: Env)
    ensures StartAnswer(rules, m, id, env, StartOp(rules, m, id, env).0, StartOp(rules, m, id, env).1)
  {
    if id in m.rows && !env.source.Gone? { KnownSourceAnswers(rules, m, id, env); }
  }

  /** A start succeeds exactly when its source is there, a port is to be had, the policy accepts, and the runtime and
      the service table do their part. */
  lemma StartSucceedsIff(rules: Rules, m: Machine, id: Id, env: Env)
    ensures StartOp(rules, m, id, env).1.None?
       <==> MayLaunch(rules, m, id, env) && env.launched && env.portOpened && !env.instance.Unreachable?
            && env.service.Some?
  {
    StartAnswers(rules, m, id, env);
  }

  lemma CatalogNeedsHttp(rules: Rules, stored: Stored, transport: Transport, port: int, runtimeImage: string)
    requires "" !in rules.commands.launchers
    ensures Acceptable(rules, stored, Catalog(transport, port), runtimeImage) <==>
              && transport.Http? && ValidateImageRef(rules.images, stored.dockerImage).Ok?
              && Parse(rules.flags, TheFlags(stored)).Ok? && AllSafe(rules.commands, stored.imageCommand)
  {}

  /** A catalog entry is launched over HTTP or not at all. One with the stdio transport has no command for the bridge to
      run, which the policy refuses on every start, with nothing launched. */
  lemma CatalogStdioNeverStarts(rules: Rules, m: Machine, id: Id, env: Env)
    requires id in m.rows && env.source.Catalog? && !env.source.transport.Http? && "" !in rules.commands.launchers
    ensures var (n, failure) := StartOp(rules, m, id, env);
            failure.Some? && BeforeLaunch(failure.value) && Replaced(m, id, env.stopped, n)
  {
    CatalogNeedsHttp(rules, m.rows[id].stored, env.source.transport, env.source.containerPort, env.runtimeImage);
    StartAnswers(rules, m, id, env);
  }

  // ---------------------------------------------------------------- reconcile

  predicate RowFailed(before: Row, after: Row, e: Failure) {
    after == before.(actual := Failed, lastError := Some(e))
  }

  /** `n` is what a start of `id` leaves, except that its failure is written into the row. */
  ghost predicate Recovered(n: Machine, started: Machine, id: Id, failure: Option<Failure>) {
    && n.active == started.active && n.calls == started.calls && OthersUntouched(started, n, id)
    && (id in started.rows ==>
          if failure.None? then n.rows[id] == started.rows[id]
          else RowFailed(started.rows[id], n.rows[id], failure.value))
  }

  ghost predicate RestartAnswer(rules: Rules, m: Machine, id: Id, env: Env, n: Machine) {
    exists started, failure ::
      StartAnswer(rules, m, id, env, started, failure) && Recovered(n, started, id, failure)
  }

  /** One target of a reconcile: always asked after; a raise ends the loop with nothing done; a live instance is adopted
      and its row left alone; any other is started, and a start that fails is written into the row. */
  ghost predicate TargetAnswer(rules: Rules, m: Machine, id: Id, env: Env, n: Machine, going: bool) {
    exists name :: IsNameOf(name, id) &&
      var asked := Machine(m.rows, m.active, m.calls + [Probe(name)]);
      if env.alive.Unreachable? then !going && n == asked
      else if env.alive.Alive? && env.alive.id != "" then going && n == asked.(active := m.active + {id})
      else going && RestartAnswer(rules, asked, id, env, n)
  }

  lemma RestartAnswers(rules: Rules, m: Machine, id: Id, env: Env)
    ensures RestartAnswer(rules, m, id, env, Restarted(rules, m, id, env).0)
  {
    StartAnswers(rules, m, id, env);
    var (started, failure) := StartOp(rules, m, id, env);
    assert Recovered(Restarted(rules, m, id, env).0, started, id, failure);
  }

  lemma TargetAnswers(rules: Rules, m: Machine, id: Id, env: Env)
    ensures TargetAnswer(rules, m, id, env, ReconcileOne(rules, m, id, env).0, ReconcileOne(rules, m, id, env).1)
  {
    ContainersAreNamed(id);
    RestartAnswers(rules, m.(calls := m.calls + [Probe(ContainerName(id))]), id, env);
  }

  // ---------------------------------------------------------------- the other steps

  /** What the steps that call no runtime do to the tables. */
  ghost predicate TableAnswer(m: Machine, op: Op, n: Machine) {
    match op
    case Create(id, port, stored) =>
      && n.active == m.active && n.rows.Keys == m.rows.Keys + {id} && (forall k | k in m.rows :: n.rows[k] == m.rows[k])
      && n.rows[id].port == port && (n.rows[id].autoPort <==> port == None) && n.rows[id].stored == stored
      && !n.rows[id].wanted && n.rows[id].actual == Unknown && n.rows[id].lastError == None
    case Want(id, wanted) =>
      && n.active == m.active && OthersUntouched(m, n, id)
      && (id in m.rows ==> n.rows[id] == m.rows[id].(wanted := wanted))
    case Fail(id, e) =>
      && n.active == m.active && OthersUntouched(m, n, id)
      && (id in m.rows ==> RowFailed(m.rows[id], n.rows[id], e))
    case Delete(id) =>
      n.active == m.active && n.rows.Keys == m.rows.Keys - {id} && forall k | k in n.rows :: n.rows[k] == m.rows[k]
    case Restart => n.active == {} && n.rows == m.rows
    case _ => true
  }

  lemma TablesAnswer(rules: Rules, m: Machine, op: Op)
    requires Enabled(m, op) && !op.Start? && !op.Halt? && !op.Reconcile?
    ensures TableAnswer(m, op, Step(rules, m, op)) && Step(rules, m, op).calls == m.calls
  {}
}
