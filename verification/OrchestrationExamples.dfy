/** Concrete environments in which a start or a reconcile does less than its description says. */
module OrchestrationExamples {
  import opened Prelude
  import opened Text
  import opened Regex
  import opened ArgvPolicy
  import opened ImageRefs
  import opened PortAllocator
  import opened Launch
  import opened Orchestration
  import opened OrchestrationAnswers

  const ROW := Row(true, None, true, Stopped, None, None, None, None, Stored("a", "", []))
  const PAIR := Machine(map["p" := ROW, "q" := ROW], {}, [])

  function EnvWith(alive: Instance, opens: bool, cleaned: bool): Env {
    Env(Catalog(Http, 8080), "mcp-runtime:1", {}, alive, true, true, opens, cleaned, Absent, None)
  }

  /** The image `a`, without a tag, is a valid one. */
  lemma ImageIsValid()
    ensures ValidateImageRef(DOCKER_IMAGES, "a") == Ok("a")
  {
    LetterIsName();
    assert "a" + "" == "a" && "" + "a" == "a";
    CatMatch(NAME, Star(Cat(One('/'), NAME)), "a", "");
    CatMatch(Opt(REGISTRY), PATH, "", "a");
    DockerImagesAreUnambiguous();
    BareImageIsAccepted(DOCKER_IMAGES, "a");
  }

  lemma LetterIsName()
    ensures FullMatch(NAME, "a")
  {
    assert InClass(Range('a', 'z'), 'a') && FullMatch(ALNUM, "a");
    assert "a" + "" == "a";
    CatMatch(ALNUM, Star(ALNUM), "a", "");
    CatMatch(Plus(ALNUM), Star(Cat(SEPARATOR, Plus(ALNUM))), "a", "");
  }

  const SPEC := LaunchSpec(Http, "a", 8080, ["--rm"], [], "", [])

  function Sent(port: int): Request {
    Request(ContainerName("p"), Http, "a", ["--rm"], [], [], port, 8080)
  }

  /** Rules that admit the example. */
  ghost predicate Admits(rules: Rules) {
    ValidateImageRef(rules.images, "a") == Ok("a") && Parse(rules.flags, ["--rm"]).Ok? && rules.ports == DEFAULT_RANGE
  }

  lemma DefaultIsAccepted(p: Policy)
    requires Storable(p)
    ensures Parse(p, ["--rm"]).Ok?
  {
    assert Spell([Bare("--rm")]) == ["--rm"];
    ParseComplete(p, [Bare("--rm")]);
  }

  lemma ConfigurationAdmits()
    ensures Admits(RULES)
  {
    ImageIsValid();
    DockerIsStorable();
    DefaultIsAccepted(DOCKER);
  }

  lemma RowIsResolved()
    ensures ResolveSpec(ROW.stored, Catalog(Http, 8080), "mcp-runtime:1") == Some(SPEC)
  {
    SplitRm();
  }

  lemma SpecIsVetted(rules: Rules, port: int)
    requires Admits(rules)
    ensures Vet(rules, SPEC, ContainerName("p"), port) == Ok(Sent(port))
  {
    assert Join(["--rm"]) == "--rm";
    SplitRm();
  }

  lemma FirstPortIsFree()
    ensures Allocation(DEFAULT_RANGE, PortsOf(PAIR.rows), "p", {}) == Some(3457)
  {
    assert Free(DEFAULT_RANGE, PortsOf(PAIR.rows), "p", {}, 3457);
  }

  lemma IsPrepared(rules: Rules)
    requires Admits(rules)
    ensures Prepared(rules, PAIR.rows, "p", SPEC, {}) == Ok(Sent(3457))
  {
    FirstPortIsFree();
    SpecIsVetted(rules, 3457);
  }

  lemma LaunchTimesOut(m: Machine, req: Request, env: Env)
    requires m == PAIR && env.launched && !env.portOpened && !env.cleaned
    ensures var (n, failure) := Launched(m, "p", req, env);
            && failure == Some(PortTimeout) && n.calls == [Call.Launch(req), Stop(ContainerName("p"))]
            && "p" in n.rows && n.rows["p"].actual == Stopped && "p" !in n.active
  {
  }

  lemma StartReachesLaunch(rules: Rules, env: Env)
    requires Admits(rules) && env == EnvWith(Absent, false, false)
    ensures StartOp(rules, PAIR, "p", env) == Launched(PAIR, "p", Sent(3457), env)
  {
    RowIsResolved();
    IsPrepared(rules);
  }

  /** The port never opens and the stop raises: the instance that was just launched is not removed. */
  lemma FailedStopSkipsRemoval()
    ensures Admits(RULES)
    ensures forall rules | Admits(rules) ::
              var (n, failure) := StartOp(rules, PAIR, "p", EnvWith(Absent, false, false));
              && failure == Some(PortTimeout)
              && n.calls == [Call.Launch(Sent(3457)), Stop(ContainerName("p"))]
              && "p" in n.rows && n.rows["p"].actual == Stopped && "p" !in n.active
  {
    ConfigurationAdmits();
    var env := EnvWith(Absent, false, false);
    LaunchTimesOut(PAIR, Sent(3457), env);
    forall rules | Admits(rules) ensures StartOp(rules, PAIR, "p", env) == Launched(PAIR, "p", Sent(3457), env) {
      StartReachesLaunch(rules, env);
    }
  }

  const BRIDGED := EnvWith(Absent, true, true).(source := Catalog(Stdio, 8080))

  lemma LaunchersAreNamed()
    ensures "" !in RULES.commands.launchers
  {}

  /** A catalog entry with the stdio transport, on a host where everything would work: it is not started, under the
      configured rules or any others that list no empty command. */
  lemma StdioEntryIsRefused(rules: Rules)
    requires "" !in rules.commands.launchers
    ensures StartOp(rules, PAIR, "p", BRIDGED).1.Some? && StartOp(rules, PAIR, "p", BRIDGED).0 == PAIR
  {
    CatalogStdioNeverStarts(rules, PAIR, "p", BRIDGED);
  }

  lemma PairIsListed()
    ensures ListsWanted(PAIR.rows, ["p", "q"])
  {
    assert ["p", "q"][0] == "p" && ["p", "q"][1] == "q";
    assert forall id | id in PAIR.rows :: id in ["p", "q"];
  }

  /** The probe of the first row raises: the second row, which wants to run as well, is neither started nor marked. */
  lemma RaisingProbeSkipsTheRest(rules: Rules, first: Env, second: Env)
    requires first.alive.Unreachable?
    ensures ListsWanted(PAIR.rows, ["p", "q"])
    ensures var (n, done) := ReconcileAll(rules, PAIR, ["p", "q"], [first, second]);
            !done && n.rows == PAIR.rows && n.active == {} && !Settled(n, "p") && !Settled(n, "q")
  {
    PairIsListed();
    var asked := PAIR.(calls := PAIR.calls + [Probe(ContainerName("p"))]);
    assert ReconcileOne(rules, PAIR, "p", first) == (asked, false);
    assert ReconcileAll(rules, PAIR, ["p", "q"], [first, second]) == (asked, false);
  }
}
