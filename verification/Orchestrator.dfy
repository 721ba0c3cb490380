/** The orchestrator object: process rows, the set of started processes, and methods that move them stage by stage. */
module Orchestrator {
  import opened Prelude
  import opened PortAllocator
  import opened Launch
  import opened Orchestration
  import opened OrchestrationAnswers

  function Updated(row: Row, actual: Option<Actual>, containerId: Option<string>, bridgeContainerId: Option<string>,
                   port: Option<int>, lastError: Option<Option<Failure>>, serviceId: Option<string>): Row
  {
    Row(row.autoPort,
        if port.None? then row.port else if port.value > 0 then port else None,
        row.wanted,
        if actual.Some? then actual.value else row.actual,
        ColumnAfter(containerId, row.containerId), ColumnAfter(bridgeContainerId, row.bridgeContainerId),
        if lastError.Some? then lastError.value else row.lastError,
        ColumnAfter(serviceId, row.serviceId), row.stored)
  }

  /** A text column: left alone, cleared, or set. */
  function ColumnAfter(text: Option<string>, column: Option<string>): Option<string> {
    if text.None? then column else if text.value == "" then None else text
  }

  class Orchestrator {
    const rules: Rules
    var rows: Rows
    var active: set<Id>
    /** What the runtime was asked to do. */
    ghost var calls: seq<Call>

    constructor (rules: Rules, rows: Rows)
      ensures this.rules == rules && M() == Machine(rows, {}, [])
    {
      this.rules, this.rows, active, calls := rules, rows, {}, [];
    }

    ghost function M(): Machine
      reads this
    {
      Machine(rows, active, calls)
    }

    /** The two properties that every run keeps, of this object: whatever it has launched satisfies the policy, and no
        two automatic rows share a port. */
    ghost predicate Launches()
      reads this
    {
      CallsVetted(rules, calls)
    }

    ghost predicate Ports()
      reads this
    {
      DistinctPorts(rows)
    }

    /** `update_state`: `None` leaves a column as it is; an empty string, a port that is not positive, clears it. */
    method UpdateState(id: Id, actual: Option<Actual>, containerId: Option<string>, bridgeContainerId: Option<string>,
                       port: Option<int>, lastError: Option<Option<Failure>>, serviceId: Option<string>)
      requires id in rows
      modifies `rows
      ensures rows.Keys == old(rows).Keys && forall k | k in rows && k != id :: rows[k] == old(rows)[k]
      ensures rows[id] == Updated(old(rows)[id], actual, containerId, bridgeContainerId, port, lastError, serviceId)
    {
      var row := rows[id];
      if actual.Some? { row := row.(actual := actual.value); }
      if port.Some? { row := row.(port := if port.value > 0 then port else None); }
      if lastError.Some? { row := row.(lastError := lastError.value); }
      row := row.(containerId := ColumnAfter(containerId, row.containerId),
                  bridgeContainerId := ColumnAfter(bridgeContainerId, row.bridgeContainerId),
                  serviceId := ColumnAfter(serviceId, row.serviceId));
      rows := rows[id := row];
    }

    method StopLocked(id: Id, stopped: bool) returns (failure: Option<Failure>)
      modifies this
      ensures (M(), failure) == StopOp(old(M()), id, stopped)
      ensures StopAnswer(old(M()), id, stopped, M(), failure)
      ensures old(Launches()) ==> Launches()
      ensures old(Ports()) ==> Ports()
    {
      StopKeeps(rules, M(), id, stopped);
      StopAnswers(M(), id, stopped);
      if id !in rows { return Some(ProcessNotFound); }
      Halt(id, stopped);
      failure := None;
    }

    /** Out of the set, stopped, removed if the stop did not raise, and the row says so. */
    method Halt(id: Id, stopped: bool)
      requires id in rows
      modifies this
      ensures M() == Halted(old(M()), id, stopped)
    {
      active := active - {id};
      calls := calls + [Stop(ContainerName(id))];
      if stopped { calls := calls + [Remove(ContainerName(id))]; }
      assert calls == Halted(old(M()), id, stopped).calls;
      UpdateState(id, Some(Stopped), Some(""), Some(""), None, None, None);
      assert rows == Halted(old(M()), id, stopped).rows;
    }

    method PickPort(id: Id, listening: set<int>) returns (r: Result<int, Failure>)
      requires id in rows
      ensures r == ChoosePort(rules, rows, id, listening)
    {
      if rows[id].autoPort {
        var port := Allocate(rules.ports, PortsOf(rows), id, listening);
        LeastIsUnique(rules.ports, PortsOf(rows), id, listening, port);
        r := if port.Some? then Ok(port.value) else Err(NoFreePort);
      } else {
        if rows[id].port.None? || rows[id].port.value == 0 { return Err(NoPortSet); }
        r := Ok(rows[id].port.value);
      }
    }

    /** Port, policy, and the request. */
    method Prepare(id: Id, spec: LaunchSpec, listening: set<int>) returns (r: Result<Request, Failure>)
      requires id in rows
      ensures r == Prepared(rules, rows, id, spec, listening)
    {
      var port := PickPort(id, listening);
      if port.Err? { return Err(port.error); }
      var req := CheckArgv(rules, spec, ContainerName(id), port.value);
      r := match req case Ok(request) => Ok(request) case Err(e) => Err(PolicyRefused(e));
    }

    /** The launch, the wait, the clean-up after a timeout, and the record. */
    method LaunchAndRecord(id: Id, req: Request, env: Env) returns (failure: Option<Failure>)
      requires id in rows
      modifies this
      ensures (M(), failure) == Launched(old(M()), id, req, env)
    {
      calls := calls + [Call.Launch(req)];
      if !env.launched { return Some(LaunchFailed); }
      active := active + {id};
      if !env.portOpened {
        var _ := StopLocked(id, env.cleaned);
        return Some(PortTimeout);
      }
      calls := calls + [Probe(ContainerName(id))];
      if env.instance.Unreachable? { return Some(ProbeFailed); }
      if env.service.None? { return Some(ServiceFailed); }
      var found := if env.instance.Alive? then env.instance.id else "";
      UpdateState(id, Some(Running), Some(found), Some(""), Some(req.hostPort), Some(None), env.service);
      assert rows == Launched(old(M()), id, req, env).0.rows;
      failure := None;
    }

    method StartLocked(id: Id, env: Env) returns (failure: Option<Failure>)
      modifies this
      ensures (M(), failure) == StartOp(rules, old(M()), id, env)
      ensures StartAnswer(rules, old(M()), id, env, M(), failure)
      ensures old(Launches()) ==> Launches()
      ensures old(Ports()) ==> Ports()
    {
      assert Launches() ==> CallsVetted(rules, StartOp(rules, M(), id, env).0.calls) by {
        if Launches() { StartLaunchesVetted(rules, M(), id, env); }
      }
      assert Ports() ==> DistinctPorts(StartOp(rules, M(), id, env).0.rows) by {
        if Ports() { StartKeepsPorts(rules, M(), id, env); }
      }
      StartAnswers(rules, M(), id, env);
      failure := RunStages(id, env);
    }

    /** The stages of `_start_locked`. */
    method RunStages(id: Id, env: Env) returns (failure: Option<Failure>)
      modifies this
      ensures (M(), failure) == StartOp(rules, old(M()), id, env)
    {
      if id !in rows { return Some(ProcessNotFound); }
      var spec := ResolveSpec(rows[id].stored, env.source, env.runtimeImage);
      if spec.None? { return Some(SourceNotFound); }
      if id in active {
        var _ := StopLocked(id, env.stopped);
      }
      assert M() == Fresh(old(M()), id, env.stopped);
      var req := Prepare(id, spec.value, env.listening);
      if req.Err? { return Some(req.error); }
      failure := LaunchAndRecord(id, req.value, env);
    }

    /** `done` is false when a probe raised, which ends the loop. */
    method Reconcile(targets: seq<Id>, envs: seq<Env>) returns (done: bool)
      requires |envs| == |targets|
      modifies this
      ensures (M(), done) == ReconcileAll(rules, old(M()), targets, envs)
      ensures old(Launches()) ==> Launches()
      ensures old(Ports()) ==> Ports()
    {
      assert Launches() ==> CallsVetted(rules, ReconcileAll(rules, M(), targets, envs).0.calls) by {
        if Launches() { ReconcileLaunchesVetted(rules, M(), targets, envs); }
      }
      assert Ports() ==> DistinctPorts(ReconcileAll(rules, M(), targets, envs).0.rows) by {
        if Ports() { ReconcileKeepsPorts(rules, M(), targets, envs); }
      }
      var i := 0;
      assert targets[0..] == targets && envs[0..] == envs;
      while i < |targets|
        invariant 0 <= i <= |targets|
        invariant ReconcileAll(rules, old(M()), targets, envs) == ReconcileAll(rules, M(), targets[i..], envs[i..])
      {
        var going := ReconcileTarget(targets[i], envs[i]);
        assert targets[i..][1..] == targets[i + 1..] && envs[i..][1..] == envs[i + 1..];
        if !going { return false; }
        i := i + 1;
      }
      done := true;
    }

    method ReconcileTarget(id: Id, env: Env) returns (going: bool)
      modifies this
      ensures (M(), going) == ReconcileOne(rules, old(M()), id, env)
      ensures TargetAnswer(rules, old(M()), id, env, M(), going)
    {
      TargetAnswers(rules, M(), id, env);
      calls := calls + [Probe(ContainerName(id))];
      if env.alive.Unreachable? { return false; }
      if env.alive.Alive? && env.alive.id != "" {
        active := active + {id};
        return true;
      }
      var failure := StartLocked(id, env);
      if failure.Some? { RecordFailure(id, failure.value); }
      going := true;
    }

    method RecordFailure(id: Id, e: Failure)
      modifies `rows
      ensures M() == MarkFailed(old(M()), id, e)
    {
      if id in rows { UpdateState(id, Some(Failed), None, None, None, Some(Some(e)), None); }
      assert rows == MarkFailed(old(M()), id, e).rows;
    }
  }

  lemma LeastIsUnique(g: PortRange, ports: Ports, own: Id, listening: set<int>, r: Option<int>)
    requires r.Some? ==> Free(g, ports, own, listening, r.value)
                         && forall p | p < r.value :: !Free(g, ports, own, listening, p)
    requires r.None? ==> forall p :: !Free(g, ports, own, listening, p)
    ensures r == Allocation(g, ports, own, listening)
  {
    var a := Allocation(g, ports, own, listening);
    if a.Some? && r.Some? { assert a.value == r.value; }
  }
}
