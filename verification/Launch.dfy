/** From a stored process row to a launch request: resolving the source, and the policy at the execution boundary. */
module Launch {
  import opened Prelude
  import opened Text
  import opened ArgvPolicy
  import opened ImageRefs
  import opened PortAllocator

  /** Where a process comes from: deleted, an entry of the file catalog, or a user's own definition, whose port column may
      be empty. */
  datatype Source =
    | Gone
    | Catalog(transport: Transport, containerPort: int)
    | Definition(command: string, args: seq<Json>, savedPort: Option<int>)

  /** The launch columns of a row; `imageCommand` is what its JSON holds, empty when it is not a list. */
  datatype Stored = Stored(dockerImage: string, imageArgs: string, imageCommand: seq<Json>)

  datatype Transport = Http | Stdio | OtherTransport(name: string)

  datatype LaunchSpec = LaunchSpec(
    transport: Transport, imageRef: string, containerPort: int, runFlags: seq<string>, entrypointArgs: seq<Json>,
    command: string, args: seq<Json>)

  /** `runtimeImage` is the managed base image, set by the environment. */
  function ResolveSpec(stored: Stored, source: Source, runtimeImage: string): Option<LaunchSpec> {
    var runFlags := Split(OrRm(stored.imageArgs));
    match source
    case Gone => None
    case Catalog(transport, port) =>
      Some(LaunchSpec(transport, stored.dockerImage, port, runFlags, stored.imageCommand, "", []))
    case Definition(command, args, port) =>
      Some(LaunchSpec(Stdio, runtimeImage, if port.None? || port.value == 0 then 8000 else port.value, runFlags, [],
                      command, args))
  }

  /** The policy of the execution boundary, and the allocator's range. */
  datatype Rules = Rules(images: Grammar, flags: Policy, commands: CommandPolicy, ports: PortRange)

  const RULES := Rules(DOCKER_IMAGES, DOCKER, BYO, DEFAULT_RANGE)

  datatype Request = Request(
    name: string, transport: Transport, imageRef: string, runFlags: seq<string>, entrypointArgs: seq<string>,
    stdioCommand: seq<string>, hostPort: int, containerPort: int)

  /** The policy's verdict on a spec: the request to hand over, or the first objection. */
  function Vet(rules: Rules, spec: LaunchSpec, name: string, port: int): Result<Request, PolicyError> {
    var flags := Split(OrRm(Join(spec.runFlags)));
    match ValidateImageRef(rules.images, spec.imageRef)
    case Err(e) => Err(e)
    case Ok(_) =>
      match Parse(rules.flags, flags)
      case Err(e) => Err(e)
      case Ok(_) =>
        match spec.transport
        case Http =>
          if !AllSafe(rules.commands, spec.entrypointArgs) then Err(UnsafeToken)
          else Ok(Request(name, Http, spec.imageRef, flags, Texts(spec.entrypointArgs), [], port, spec.containerPort))
        case Stdio =>
          if spec.command !in rules.commands.launchers then Err(CommandNotAllowed(spec.command))
          else if !AllSafe(rules.commands, spec.args) then Err(UnsafeToken)
          else Ok(Request(name, Stdio, spec.imageRef, flags, [], [spec.command] + Texts(spec.args), port,
                          spec.containerPort))
        case OtherTransport(transport) => Err(UnsupportedTransport(transport))
  }

  method CheckArgv(rules: Rules, spec: LaunchSpec, name: string, port: int) returns (r: Result<Request, PolicyError>)
    ensures r == Vet(rules, spec, name, port)
  {
    var image := ValidateImageRef(rules.images, spec.imageRef);
    if image.Err? { return Err(image.error); }
    var flags := ValidateDockerArgs(rules.flags, Split(OrRm(Join(spec.runFlags))));
    if flags.Err? { return Err(flags.error); }
    match spec.transport {
      case Http =>
        var entrypoint := ValidateCommandTokens(rules.commands, spec.entrypointArgs);
        if entrypoint.Err? { return Err(entrypoint.error); }
        r := Ok(Request(name, Http, spec.imageRef, flags.value, entrypoint.value, [], port, spec.containerPort));
      case Stdio =>
        var command := ValidateByoLaunch(rules.commands, spec.command, spec.args);
        if command.Err? { return Err(command.error); }
        r := Ok(Request(name, Stdio, spec.imageRef, flags.value, [], command.value, port, spec.containerPort));
      case OtherTransport(transport) => r := Err(UnsupportedTransport(transport));
    }
  }

  predicate SafeText(rules: Rules, text: string) {
    SafeToken(rules.commands, Str(text))
  }

  /** A request the policy stands behind, judged by the request alone. */
  predicate Vetted(rules: Rules, req: Request) {
    && ValidateImageRef(rules.images, req.imageRef).Ok? && Parse(rules.flags, req.runFlags).Ok?
    && (forall i | 0 <= i < |req.entrypointArgs| :: SafeText(rules, req.entrypointArgs[i]))
    && (if req.transport.Http? then req.stdioCommand == []
        else req.transport.Stdio? && req.entrypointArgs == []
             && req.stdioCommand != [] && req.stdioCommand[0] in rules.commands.launchers
             && forall i | 1 <= i < |req.stdioCommand| :: SafeText(rules, req.stdioCommand[i]))
  }

  lemma VetMeansVetted(rules: Rules, spec: LaunchSpec, name: string, port: int)
    requires Vet(rules, spec, name, port).Ok?
    ensures var req := Vet(rules, spec, name, port).value;
            Vetted(rules, req) && req.name == name && req.hostPort == port && req.containerPort == spec.containerPort
  {
    var req := Vet(rules, spec, name, port).value;
    forall i | 0 <= i < |req.entrypointArgs| ensures SafeText(rules, req.entrypointArgs[i]) {
      assert SafeToken(rules.commands, spec.entrypointArgs[i]);
    }
    forall i | 1 <= i < |req.stdioCommand| ensures SafeText(rules, req.stdioCommand[i]) {
      assert SafeToken(rules.commands, spec.args[i - 1]);
    }
  }
}
