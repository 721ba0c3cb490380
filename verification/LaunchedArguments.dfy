/**
 From the process table to the runtime, under the policy as it is configured: whatever was written to the table,
 everything a run launches is understood by the Docker runtime as the policy understood it.
 */
module LaunchedArguments {
  import opened Prelude
  import opened Text
  import opened Regex
  import opened ArgvPolicy
  import opened DockerFlags
  import opened Launch
  import Orchestration

  /** The Docker runtime's reading of a request's flags is complete, means the settings the policy read, last value
      first, and sets known arguments only. */
  ghost predicate Understood(p: Policy, t: Tables, flags: seq<string>) {
    && Parse(p, flags).Ok?
    && var ss, read := Parse(p, flags).value, Read(t, flags, NO_OPTIONS);
    && Switches(t, ss) && read.Some? && Meant(t, ss, NO_OPTIONS, read.value)
    && read.value.kwargs.Keys <= Known(t)
  }

  lemma AcceptedIsUnderstood(p: Policy, t: Tables, flags: seq<string>)
    requires Agree(p, t) && Separate(t) && Parse(p, flags).Ok?
    ensures Understood(p, t, flags)
  {
    AcceptedMeansItsSettings(p, t, flags);
  }

  lemma VettedCommandIsWords(rules: Rules, req: Request)
    requires Vetted(rules, req) && CommandsAreWords(rules.commands) && req.transport.Stdio?
    ensures AllWords(req.stdioCommand)
  {
    forall i | 1 <= i < |req.stdioCommand| ensures IsWord(req.stdioCommand[i]) {
      assert SafeText(rules, req.stdioCommand[i]);
    }
  }

  lemma VettedIsUnderstood(rules: Rules, t: Tables, req: Request, binary: string, port: string)
    requires Vetted(rules, req) && Agree(rules.flags, t) && Separate(t) && CommandsAreWords(rules.commands)
    ensures Understood(rules.flags, t, req.runFlags)
    ensures req.transport.Stdio? ==> Split(BridgeArgv(binary, req.stdioCommand, port)[2]) == req.stdioCommand
  {
    AcceptedIsUnderstood(rules.flags, t, req.runFlags);
    if req.transport.Stdio? {
      VettedCommandIsWords(rules, req);
      SplitJoin(req.stdioCommand);
    }
  }

  /** The configured tables fit together. */
  lemma ConfigurationFits()
    ensures Agree(RULES.flags, DOCKER_TABLES) && Separate(DOCKER_TABLES) && CommandsAreWords(RULES.commands)
  {
    DockerTablesAgree();
    DockerTablesAreSeparate();
    ByoCommandsAreWords();
  }

  /** In any run from an empty table, with any writes past the application, every launched request is vetted; the
      runtime reads its flags to the end, as the settings that were vetted, into known arguments only; and a stdio
      command comes out of the bridge's one argument as it went in. */
  lemma {:induction false} LaunchedIsUnderstood(ops: seq<Orchestration.Op>, req: Request, binary: string, port: string)
    requires Orchestration.ValidRun(RULES, Orchestration.EMPTY, ops)
    requires Orchestration.Launch(req) in Orchestration.Run(RULES, Orchestration.EMPTY, ops).calls
    ensures Vetted(RULES, req)
    ensures Understood(DOCKER, DOCKER_TABLES, req.runFlags)
    ensures req.transport.Stdio? ==> Split(BridgeArgv(binary, req.stdioCommand, port)[2]) == req.stdioCommand
  {
    Orchestration.NothingUnvettedIsLaunched(RULES, ops, req);
    ConfigurationFits();
    VettedIsUnderstood(RULES, DOCKER_TABLES, req, binary, port);
  }

  /** Under this policy an accepted list survives storage and is understood after it. */
  lemma StoredFlagsAreUnderstood(args: seq<string>)
    requires Parse(DOCKER, args).Ok?
    ensures ReadBack(Join(args)) == if args == [] then ["--rm"] else args
    ensures Understood(DOCKER, DOCKER_TABLES, ReadBack(Join(args)))
  {
    DockerIsStorable();
    AcceptedSurvivesStorage(DOCKER, args);
    DockerTablesAgree();
    DockerTablesAreSeparate();
    AcceptedIsUnderstood(DOCKER, DOCKER_TABLES, ReadBack(Join(args)));
  }
}
