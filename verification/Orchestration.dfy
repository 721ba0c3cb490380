/**
 Starting and stopping managed processes, as steps over the process table, the set of processes this instance has
 started, and the calls made to the runtime. What the runtime and the host answer is the step's environment.
 */
module Orchestration {
  import opened Prelude
  import opened PortAllocator
  import opened Launch
  import opened ArgvPolicy

  datatype Actual = Unknown | Running | Stopped | Failed

  datatype Failure =
    | ProcessNotFound
    | SourceNotFound
    | NoFreePort
    | NoPortSet
    | PolicyRefused(error: PolicyError)
    | LaunchFailed
    | PortTimeout
    | ProbeFailed
    | ServiceFailed

  datatype Row = Row(
    autoPort: bool, port: Option<int>, wanted: bool, actual: Actual,
    containerId: Option<string>, bridgeContainerId: Option<string>, lastError: Option<Failure>,
    serviceId: Option<string>, stored: Stored)

  type Rows = map<Id, Row>

  datatype Call = Launch(request: Request) | Stop(name: string) | Remove(name: string) | Probe(name: string)

  datatype Machine = Machine(rows: Rows, active: set<Id>, calls: seq<Call>)

  /** The runtime's answer to `instance_id`, which may also raise. */
  datatype Instance = Unreachable | Absent | Alive(id: string)

  /** `alive` is the answer at reconcile; `stopped` and `cleaned` tell whether the stop before the start, and the stop
      after a timeout, returned; `service` is the service's id, if it could be saved. */
  datatype Env = Env(
    source: Source, runtimeImage: string, listening: set<int>, alive: Instance,
    stopped: bool, launched: bool, portOpened: bool, cleaned: bool, instance: Instance, service: Option<string>)

  function ContainerName(id: Id): string {
    "mcp-managed-" + if |id| > 8 then id[..8] else id
  }

  function PortsOf(rows: Rows): Ports {
    map id | id in rows :: rows[id].port
  }

  // ---------------------------------------------------------------- stop

  function Halted(m: Machine, id: Id, stopped: bool): Machine
    requires id in m.rows
  {
    var name := ContainerName(id);
    Machine(m.rows[id := m.rows[id].(actual := Stopped, containerId := None, bridgeContainerId := None)],
            m.active - {id},
            m.calls + if stopped then [Stop(name), Remove(name)] else [Stop(name)])
  }

  function StopOp(m: Machine, id: Id, stopped: bool): (Machine, Option<Failure>) {
    if id in m.rows then (Halted(m, id, stopped), None) else (m, Some(ProcessNotFound))
  }

  // ---------------------------------------------------------------- start

  function ChoosePort(rules: Rules, rows: Rows, id: Id, listening: set<int>): Result<int, Failure>
    requires id in rows
  {
    if rows[id].autoPort then
      var port := Allocation(rules.ports, PortsOf(rows), id, listening);
      if port.Some? then Ok(port.value) else Err(NoFreePort)
    else if rows[id].port.None? || rows[id].port.value == 0 then Err(NoPortSet)
    else Ok(rows[id].port.value)
  }

  function Fresh(m: Machine, id: Id, stopped: bool): Machine
    requires id in m.rows
  {
    if id in m.active then Halted(m, id, stopped) else m
  }

  /** From the launch on. */
  function Launched(m: Machine, id: Id, req: Request, env: Env): (Machine, Option<Failure>)
    requires id in m.rows
  {
    var sent := m.(calls := m.calls + [Launch(req)]);
    if !env.launched then (sent, Some(LaunchFailed))
    else
      var up := sent.(active := sent.active + {id});
      if !env.portOpened then (Halted(up, id, env.cleaned), Some(PortTimeout))
      else
        var probed := up.(calls := up.calls + [Probe(ContainerName(id))]);
        if env.instance.Unreachable? then (probed, Some(ProbeFailed))
        else if env.service.None? then (probed, Some(ServiceFailed))
        else (probed.(rows := m.rows[id := Registered(m.rows[id], req.hostPort, env)]), None)
  }

  function Registered(row: Row, port: int, env: Env): Row {
    var found := env.instance.Alive? && env.instance.id != "";
    row.(actual := Running, containerId := if found then Some(env.instance.id) else None,
         bridgeContainerId := None, port := if port > 0 then Some(port) else None,
         serviceId := match env.service
                      case None => row.serviceId
                      case Some(service) => if service == "" then None else Some(service),
         lastError := None)
  }

  /** Everything between the stop and the launch: the port, then the policy. */
  function Prepared(rules: Rules, rows: Rows, id: Id, spec: LaunchSpec, listening: set<int>): Result<Request, Failure>
    requires id in rows
  {
    match ChoosePort(rules, rows, id, listening)
    case Err(e) => Err(e)
    case Ok(port) =>
      match Vet(rules, spec, ContainerName(id), port)
      case Err(e) => Err(PolicyRefused(e))
      case Ok(req) => Ok(req)
  }

  function StartOp(rules: Rules, m: Machine, id: Id, env: Env): (Machine, Option<Failure>) {
    if id !in m.rows then (m, Some(ProcessNotFound))
    else
      match ResolveSpec(m.rows[id].stored, env.source, env.runtimeImage)
      case None => (m, Some(SourceNotFound))
      case Some(spec) =>
        var ready := Fresh(m, id, env.stopped);
        match Prepared(rules, ready.rows, id, spec, env.listening)
        case Err(e) => (ready, Some(e))
        case Ok(req) => Launched(ready, id, req, env)
  }

  lemma PreparedIsVetted(rules: Rules, rows: Rows, id: Id, spec: LaunchSpec, listening: set<int>)
    requires id in rows && Prepared(rules, rows, id, spec, listening).Ok?
    ensures var req := Prepared(rules, rows, id, spec, listening).value;
            && Vetted(rules, req) && req.name == ContainerName(id)
            && ChoosePort(rules, rows, id, listening) == Ok(req.hostPort)
  {
    VetMeansVetted(rules, spec, ContainerName(id), ChoosePort(rules, rows, id, listening).value);
  }

  // ---------------------------------------------------------------- reconcile

  function MarkFailed(m: Machine, id: Id, e: Failure): Machine {
    if id in m.rows then m.(rows := m.rows[id := m.rows[id].(actual := Failed, lastError := Some(e))]) else m
  }

  function Restarted(rules: Rules, m: Machine, id: Id, env: Env): (Machine, bool) {
    var (next, failure) := StartOp(rules, m, id, env);
    (if failure.Some? then MarkFailed(next, id, failure.value) else next, true)
  }

  /** One target: adopt, start again, or mark failed; `false` when the probe itself raises. */
  function ReconcileOne(rules: Rules, m: Machine, id: Id, env: Env): (Machine, bool) {
    var asked := m.(calls := m.calls + [Probe(ContainerName(id))]);
    match env.alive
    case Unreachable => (asked, false)
    case Alive(instance) =>
      if instance != "" then (asked.(active := asked.active + {id}), true) else Restarted(rules, asked, id, env)
    case Absent => Restarted(rules, asked, id, env)
  }

  /** All targets in turn; a probe that raises ends the loop there. */
  function ReconcileAll(rules: Rules, m: Machine, targets: seq<Id>, envs: seq<Env>): (Machine, bool)
    requires |envs| == |targets|
    decreases |targets|
  {
    if targets == [] then (m, true)
    else
      var (n, going) := ReconcileOne(rules, m, targets[0], envs[0]);
      if going then ReconcileAll(rules, n, targets[1..], envs[1..]) else (n, false)
  }

  /** Every row that wants to run, once. */
  ghost predicate ListsWanted(rows: Rows, targets: seq<Id>) {
    && (forall i | 0 <= i < |targets| :: targets[i] in rows && rows[targets[i]].wanted)
    && (forall id | id in rows && rows[id].wanted :: id in targets)
    && (forall i, j | 0 <= i < j < |targets| :: targets[i] != targets[j])
  }

  /** The columns a start, a stop or a reconcile never touches. */
  predicate SameOrder(a: Row, b: Row) {
    a.autoPort == b.autoPort && a.wanted == b.wanted && a.stored == b.stored
  }

  predicate OnlyTouches(m: Machine, n: Machine, id: Id) {
    && n.rows.Keys == m.rows.Keys
    && (forall k | k in m.rows && k != id :: n.rows[k] == m.rows[k])
    && (id in m.rows ==> SameOrder(m.rows[id], n.rows[id]))
    && m.active - {id} <= n.active <= m.active + {id}
  }

  predicate Recorded(m: Machine, id: Id, req: Request) {
    && id in m.active && id in m.rows && m.rows[id].actual == Running && m.rows[id].lastError == None
    && Launch(req) in m.calls
    && m.rows[id].port == if req.hostPort > 0 then Some(req.hostPort) else None
  }

  predicate BeforeLaunch(e: Failure) {
    !e.LaunchFailed? && !e.PortTimeout? && !e.ProbeFailed? && !e.ServiceFailed?
  }

  lemma LaunchOutcomes(m: Machine, id: Id, req: Request, env: Env)
    requires id in m.rows
    ensures var (n, failure) := Launched(m, id, req, env);
            && OnlyTouches(m, n, id)
            && (failure.None? ==> Recorded(n, id, req))
            && (failure.Some? ==> n.rows[id].port == m.rows[id].port && !BeforeLaunch(failure.value))
            && (failure == Some(PortTimeout) ==> CleanedUp(n, id, env.cleaned))
  {
    assert m.calls + [Launch(req)] + [Probe(ContainerName(id))] == m.calls + [Launch(req), Probe(ContainerName(id))];
    assert Launch(req) in m.calls + [Launch(req), Probe(ContainerName(id))];
  }

  /** What a start that timed out leaves: not active, the row says stopped, and the instance's stop was the last thing
      attempted - or its removal, exactly when the stop itself did not raise: one handler covers both calls. */
  predicate CleanedUp(n: Machine, id: Id, cleaned: bool) {
    var name := ContainerName(id);
    && id !in n.active && id in n.rows && n.rows[id].actual == Stopped && n.rows[id].containerId == None
    && |n.calls| >= 2
    && (if cleaned then n.calls[|n.calls| - 2..] == [Stop(name), Remove(name)] else n.calls[|n.calls| - 1] == Stop(name))
  }

  ghost predicate Outcome(rules: Rules, m: Machine, id: Id, env: Env, n: Machine, failure: Option<Failure>) {
    && OnlyTouches(m, n, id)
    && (failure.None? ==> id in m.rows && exists req ::
          Recorded(n, id, req) && req.name == ContainerName(id) && Vetted(rules, req)
          && ChoosePort(rules, Fresh(m, id, env.stopped).rows, id, env.listening) == Ok(req.hostPort))
    && (failure.Some? && id in m.rows ==> n.rows[id].port == m.rows[id].port)
    && (failure.Some? && BeforeLaunch(failure.value) ==> n == m || (id in m.rows && n == Fresh(m, id, env.stopped)))
    && (failure == Some(PortTimeout) ==> CleanedUp(n, id, env.cleaned))
  }

  lemma PreparedOutcome(rules: Rules, m: Machine, id: Id, env: Env, spec: LaunchSpec)
    requires id in m.rows && Prepared(rules, Fresh(m, id, env.stopped).rows, id, spec, env.listening).Ok?
    ensures var ready := Fresh(m, id, env.stopped);
            var req := Prepared(rules, ready.rows, id, spec, env.listening).value;
            Outcome(rules, m, id, env, Launched(ready, id, req, env).0, Launched(ready, id, req, env).1)
  {
    var ready := Fresh(m, id, env.stopped);
    PreparedIsVetted(rules, ready.rows, id, spec, env.listening);
    LaunchOutcomes(ready, id, Prepared(rules, ready.rows, id, spec, env.listening).value, env);
  }

  /** What comes of a start. It touches no other process. Success: the process is active and running, on the port it was
      launched on, and what was launched satisfies the policy. Failure: the port is what it was; before the launch,
      nothing but the stop of a replaced instance has happened; after a timeout everything is cleaned up. */
  lemma StartOutcomes(rules: Rules, m: Machine, id: Id, env: Env)
    ensures Outcome(rules, m, id, env, StartOp(rules, m, id, env).0, StartOp(rules, m, id, env).1)
  {
    if id in m.rows && ResolveSpec(m.rows[id].stored, env.source, env.runtimeImage).Some? {
      var spec := ResolveSpec(m.rows[id].stored, env.source, env.runtimeImage).value;
      var prepared := Prepared(rules, Fresh(m, id, env.stopped).rows, id, spec, env.listening);
      if prepared.Ok? { PreparedOutcome(rules, m, id, env, spec); }
    }
  }

  /** What a step sends to the runtime: nothing but stops, removals and probes, except requests the policy passed. */
  ghost predicate CallsVetted(rules: Rules, calls: seq<Call>) {
    forall i | 0 <= i < |calls| && calls[i].Launch? :: Vetted(rules, calls[i].request)
  }

  lemma LaunchKeepsVetted(rules: Rules, m: Machine, id: Id, req: Request, env: Env)
    requires id in m.rows && CallsVetted(rules, m.calls) && Vetted(rules, req)
    ensures CallsVetted(rules, Launched(m, id, req, env).0.calls)
  {
    assert CallsVetted(rules, m.calls + [Launch(req)]);
  }

  lemma StartLaunchesVetted(rules: Rules, m: Machine, id: Id, env: Env)
    requires CallsVetted(rules, m.calls)
    ensures CallsVetted(rules, StartOp(rules, m, id, env).0.calls)
  {
    if id in m.rows && ResolveSpec(m.rows[id].stored, env.source, env.runtimeImage).Some? {
      var spec := ResolveSpec(m.rows[id].stored, env.source, env.runtimeImage).value;
      var ready := Fresh(m, id, env.stopped);
      if Prepared(rules, ready.rows, id, spec, env.listening).Ok? {
        PreparedIsVetted(rules, ready.rows, id, spec, env.listening);
        LaunchKeepsVetted(rules, ready, id, Prepared(rules, ready.rows, id, spec, env.listening).value, env);
      }
    }
  }

  // ---------------------------------------------------------------- runs

  datatype Op =
    | Create(id: Id, port: Option<int>, stored: Stored)
    | Start(id: Id, env: Env)
    | Halt(id: Id, stopped: bool)
    | Want(id: Id, wanted: bool)
    | Fail(id: Id, error: Failure)
    | Delete(id: Id)
    | Reconcile(targets: seq<Id>, envs: seq<Env>)
    | Restart
    | Tamper(id: Id, row: Row)

  predicate Enabled(m: Machine, op: Op) {
    match op
    case Create(id, _, _) => id !in m.rows
    case Reconcile(targets, envs) => |targets| == |envs|
    case _ => true
  }

  /** `Restart` is MCP Center coming up again: the set in memory is lost. `Tamper` is a write past the application. */
  function Step(rules: Rules, m: Machine, op: Op): Machine
    requires Enabled(m, op)
  {
    match op
    case Create(id, port, stored) =>
      m.(rows := m.rows[id := Row(port.None?, port, false, Unknown, None, None, None, None, stored)])
    case Start(id, env) => StartOp(rules, m, id, env).0
    case Halt(id, stopped) => StopOp(m, id, stopped).0
    case Want(id, wanted) => if id in m.rows then m.(rows := m.rows[id := m.rows[id].(wanted := wanted)]) else m
    case Fail(id, e) => MarkFailed(m, id, e)
    case Delete(id) => m.(rows := m.rows - {id})
    case Reconcile(targets, envs) => ReconcileAll(rules, m, targets, envs).0
    case Restart => m.(active := {})
    case Tamper(id, row) => m.(rows := m.rows[id := row])
  }

  predicate ValidRun(rules: Rules, m: Machine, ops: seq<Op>)
    decreases |ops|
  {
    ops == [] || (Enabled(m, ops[0]) && ValidRun(rules, Step(rules, m, ops[0]), ops[1..]))
  }

  function Run(rules: Rules, m: Machine, ops: seq<Op>): Machine
    requires ValidRun(rules, m, ops)
    decreases |ops|
  {
    if ops == [] then m else Run(rules, Step(rules, m, ops[0]), ops[1..])
  }

  const EMPTY := Machine(map[], {}, [])

  lemma {:induction false} ReconcileLaunchesVetted(rules: Rules, m: Machine, targets: seq<Id>, envs: seq<Env>)
    requires |envs| == |targets| && CallsVetted(rules, m.calls)
    ensures CallsVetted(rules, ReconcileAll(rules, m, targets, envs).0.calls)
    decreases |targets|
  {
    if targets != [] {
      var asked := m.(calls := m.calls + [Probe(ContainerName(targets[0]))]);
      StartLaunchesVetted(rules, asked, targets[0], envs[0]);
      ReconcileLaunchesVetted(rules, ReconcileOne(rules, m, targets[0], envs[0]).0, targets[1..], envs[1..]);
    }
  }

  lemma {:induction false} RunLaunchesVetted(rules: Rules, m: Machine, ops: seq<Op>)
    requires ValidRun(rules, m, ops) && CallsVetted(rules, m.calls)
    ensures CallsVetted(rules, Run(rules, m, ops).calls)
    decreases |ops|
  {
    if ops != [] {
      match ops[0] {
        case Start(id, env) => StartLaunchesVetted(rules, m, id, env);
        case Reconcile(targets, envs) => ReconcileLaunchesVetted(rules, m, targets, envs);
        case _ =>
      }
      RunLaunchesVetted(rules, Step(rules, m, ops[0]), ops[1..]);
    }
  }

  /** Whatever is written to the table, by the application or past it, nothing is launched in any run but requests that
      satisfy the policy as they stand. */
  lemma {:induction false} NothingUnvettedIsLaunched(rules: Rules, ops: seq<Op>, req: Request)
    requires ValidRun(rules, EMPTY, ops) && Launch(req) in Run(rules, EMPTY, ops).calls
    ensures Vetted(rules, req)
  {
    RunLaunchesVetted(rules, EMPTY, ops);
  }

  // ---------------------------------------------------------------- distinct ports

  ghost predicate DistinctPorts(rows: Rows) {
    forall a, b | a in rows && b in rows && a != b && rows[a].autoPort && rows[b].autoPort && rows[a].port.Some? ::
      rows[a].port != rows[b].port
  }

  lemma StopKeeps(rules: Rules, m: Machine, id: Id, stopped: bool)
    ensures CallsVetted(rules, m.calls) ==> CallsVetted(rules, StopOp(m, id, stopped).0.calls)
    ensures DistinctPorts(m.rows) ==> DistinctPorts(StopOp(m, id, stopped).0.rows)
  {
  }

  /** An allocated port is on no other row, given that the old port was on no other automatic one. */
  lemma ChosenPortIsDistinct(rules: Rules, rows: Rows, id: Id, listening: set<int>, port: int, other: Id)
    requires DistinctPorts(rows) && id in rows && rows[id].autoPort && ChoosePort(rules, rows, id, listening) == Ok(port)
    requires other in rows && other != id && rows[other].autoPort
    ensures rows[other].port != Some(port) && port > 0
  {
    var ports := PortsOf(rows);
    assert Free(rules.ports, ports, id, listening, port);
    assert ports[id] == rows[id].port && ports[other] == rows[other].port;
    assert ports[other].Some? ==> ports[other].value in AllPorts(ports);
  }

  lemma StartKeepsPorts(rules: Rules, m: Machine, id: Id, env: Env)
    requires DistinctPorts(m.rows)
    ensures DistinctPorts(StartOp(rules, m, id, env).0.rows)
  {
    StartOutcomes(rules, m, id, env);
    var (n, failure) := StartOp(rules, m, id, env);
    if failure.None? {
      var ready := Fresh(m, id, env.stopped).rows;
      var req :| Recorded(n, id, req) && ChoosePort(rules, ready, id, env.listening) == Ok(req.hostPort);
      RecordedKeepsPorts(rules, m.rows, ready, n.rows, id, env.listening, req.hostPort);
    }
  }

  lemma RecordedKeepsPorts(rules: Rules, rows: Rows, ready: Rows, after: Rows, id: Id, listening: set<int>, port: int)
    requires DistinctPorts(rows) && id in rows && ready.Keys == rows.Keys == after.Keys
    requires forall k | k in rows :: ready[k].port == rows[k].port && ready[k].autoPort == rows[k].autoPort
    requires forall k | k in rows && k != id :: after[k] == rows[k]
    requires after[id].autoPort == rows[id].autoPort && after[id].port == if port > 0 then Some(port) else None
    requires ChoosePort(rules, ready, id, listening) == Ok(port)
    ensures DistinctPorts(after)
  {
    if rows[id].autoPort {
      forall other | other in rows && other != id && rows[other].autoPort
        ensures rows[other].port != Some(port) && port > 0
      {
        ChosenPortIsDistinct(rules, ready, id, listening, port, other);
      }
    }
  }

  lemma {:induction false} ReconcileKeepsPorts(rules: Rules, m: Machine, targets: seq<Id>, envs: seq<Env>)
    requires |envs| == |targets| && DistinctPorts(m.rows)
    ensures DistinctPorts(ReconcileAll(rules, m, targets, envs).0.rows)
    decreases |targets|
  {
    if targets != [] {
      var asked := m.(calls := m.calls + [Probe(ContainerName(targets[0]))]);
      StartKeepsPorts(rules, asked, targets[0], envs[0]);
      ReconcileKeepsPorts(rules, ReconcileOne(rules, m, targets[0], envs[0]).0, targets[1..], envs[1..]);
    }
  }

  predicate NoTampering(ops: seq<Op>) {
    forall i | 0 <= i < |ops| :: !ops[i].Tamper?
  }

  /** No two automatic processes ever hold the same port, whatever ports are set by hand beside them. */
  lemma {:induction false} AutomaticPortsAreDistinct(rules: Rules, m: Machine, ops: seq<Op>)
    requires ValidRun(rules, m, ops) && NoTampering(ops) && DistinctPorts(m.rows)
    ensures DistinctPorts(Run(rules, m, ops).rows)
    decreases |ops|
  {
    if ops != [] {
      match ops[0] {
        case Start(id, env) => StartKeepsPorts(rules, m, id, env);
        case Reconcile(targets, envs) => ReconcileKeepsPorts(rules, m, targets, envs);
        case _ =>
      }
      AutomaticPortsAreDistinct(rules, Step(rules, m, ops[0]), ops[1..]);
    }
  }

  // ---------------------------------------------------------------- what reconcile achieves

  ghost predicate Settled(m: Machine, id: Id) {
    id in m.rows && (id in m.active || m.rows[id].actual == Failed)
  }

  lemma RestartSettles(rules: Rules, m: Machine, id: Id, env: Env)
    requires id in m.rows
    ensures var n := Restarted(rules, m, id, env).0;
            OnlyTouches(m, n, id) && Settled(n, id)
  {
    StartOutcomes(rules, m, id, env);
  }

  lemma ReconcileOneSettles(rules: Rules, m: Machine, id: Id, env: Env)
    requires id in m.rows
    ensures var (n, going) := ReconcileOne(rules, m, id, env);
            && OnlyTouches(m, n, id) && going == !env.alive.Unreachable?
            && (going ==> Settled(n, id))
            && (env.alive.Alive? && env.alive.id != "" ==> n.rows == m.rows)
  {
    RestartSettles(rules, m.(calls := m.calls + [Probe(ContainerName(id))]), id, env);
  }

  ghost predicate Reached(m: Machine, n: Machine, targets: seq<Id>, done: bool) {
    && n.rows.Keys == m.rows.Keys
    && (forall id | id in targets && id in m.rows :: SameOrder(m.rows[id], n.rows[id]) && (done ==> Settled(n, id)))
    && (forall id | id in m.rows && id !in targets :: n.rows[id] == m.rows[id] && (id in n.active <==> id in m.active))
  }

  lemma ReachedOneMore(m: Machine, next: Machine, n: Machine, id: Id, rest: seq<Id>, done: bool)
    requires id in m.rows && id !in rest && OnlyTouches(m, next, id) && Settled(next, id) && Reached(next, n, rest, done)
    ensures Reached(m, n, [id] + rest, done)
  {
    assert n.rows[id] == next.rows[id] && (id in n.active <==> id in next.active);
  }

  lemma {:induction false} EndsEarlyIff(rules: Rules, m: Machine, targets: seq<Id>, envs: seq<Env>)
    requires |envs| == |targets|
    requires forall i | 0 <= i < |targets| :: targets[i] in m.rows
    ensures ReconcileAll(rules, m, targets, envs).1 <==>
              forall i | 0 <= i < |targets| :: !envs[i].alive.Unreachable?
    decreases |targets|
  {
    if targets != [] {
      var rest := targets[1..];
      ReconcileOneSettles(rules, m, targets[0], envs[0]);
      var (next, going) := ReconcileOne(rules, m, targets[0], envs[0]);
      if going {
        EndsEarlyIff(rules, next, rest, envs[1..]);
        assert forall i | 1 <= i < |targets| :: envs[i] == envs[1..][i - 1];
      }
    }
  }

  lemma {:induction false} ReconcileReaches(rules: Rules, m: Machine, targets: seq<Id>, envs: seq<Env>)
    requires |envs| == |targets|
    requires forall i | 0 <= i < |targets| :: targets[i] in m.rows
    requires forall i, j | 0 <= i < j < |targets| :: targets[i] != targets[j]
    ensures var (n, done) := ReconcileAll(rules, m, targets, envs); Reached(m, n, targets, done)
    decreases |targets|
  {
    if targets != [] {
      var id, rest := targets[0], targets[1..];
      ReconcileOneSettles(rules, m, id, envs[0]);
      var (next, going) := ReconcileOne(rules, m, id, envs[0]);
      assert id !in rest && targets == [id] + rest;
      if going {
        ReconcileReaches(rules, next, rest, envs[1..]);
        var (n, done) := ReconcileAll(rules, next, rest, envs[1..]);
        ReachedOneMore(m, next, n, id, rest, done);
      }
    }
  }

  /** Reconcile runs to the end exactly when no probe raises. Then every target is active or marked failed; in any case
      the other rows are as before, and no target's orders change. */
  lemma ReconcileSettles(rules: Rules, m: Machine, targets: seq<Id>, envs: seq<Env>)
    requires |envs| == |targets|
    requires forall i | 0 <= i < |targets| :: targets[i] in m.rows
    requires forall i, j | 0 <= i < j < |targets| :: targets[i] != targets[j]
    ensures var (n, done) := ReconcileAll(rules, m, targets, envs);
            && (done <==> forall i | 0 <= i < |targets| :: !envs[i].alive.Unreachable?)
            && Reached(m, n, targets, done)
  {
    EndsEarlyIff(rules, m, targets, envs);
    ReconcileReaches(rules, m, targets, envs);
  }

  /** After a reconcile that ran to the end, every row that wants to run is active or marked failed, and no other row
      has changed. */
  lemma WantedIsSettled(rules: Rules, m: Machine, targets: seq<Id>, envs: seq<Env>)
    requires |envs| == |targets| && ListsWanted(m.rows, targets) && ReconcileAll(rules, m, targets, envs).1
    ensures var n := ReconcileAll(rules, m, targets, envs).0;
            && (forall id | id in m.rows && m.rows[id].wanted :: Settled(n, id))
            && (forall id | id in m.rows && !m.rows[id].wanted :: id in n.rows && n.rows[id] == m.rows[id])
  {
    ReconcileSettles(rules, m, targets, envs);
  }
}
