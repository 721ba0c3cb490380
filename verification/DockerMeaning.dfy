/**
 What the configured Docker flags say, by their literal names: what every accepted list makes of each argument of the
 SDK - as given, as stored, and as launched.
 */
module DockerMeaning {
  import opened Prelude
  import opened Text
  import opened ArgvPolicy
  import opened DockerFlags
  import opened Launch
  import opened LaunchedArguments
  import Orchestration

  // ---------------------------------------------------------------- what a list says

  predicate Sets(s: Setting, flag: string) {
    !s.Bare? && s.flag == flag
  }

  /** `value` is what the last setting of `flag` gives it. */
  ghost predicate SaysLast(ss: seq<Setting>, flag: string, value: string) {
    exists i | 0 <= i < |ss| ::
      Sets(ss[i], flag) && ss[i].value == value && forall j | i < j < |ss| :: !Sets(ss[j], flag)
  }

  ghost predicate Holds(o: Options, name: string, value: Argument) {
    name in o.kwargs && o.kwargs[name] == value
  }

  /** The argument `name` is the last value of `flag`, and is not passed without one. */
  ghost predicate TakenFrom(ss: seq<Setting>, o: Options, name: string, flag: string) {
    && (forall value :: Holds(o, name, Given(value)) <==> SaysLast(ss, flag, value))
    && (name in o.kwargs ==> o.kwargs[name].Given?)
  }

  /** The argument `name` is passed, and on, exactly with one of two tokens. */
  ghost predicate TurnedOnBy(ss: seq<Setting>, o: Options, name: string, token: string, other: string) {
    && (name in o.kwargs <==> Bare(token) in ss || Bare(other) in ss)
    && (name in o.kwargs ==> o.kwargs[name] == On)
  }

  /** The arguments the settings ask for, and no others. */
  ghost predicate Literally(ss: seq<Setting>, o: Options) {
    && TakenFrom(ss, o, "mem_limit", "--memory")
    && TakenFrom(ss, o, "network", "--network")
    && TakenFrom(ss, o, "nano_cpus", "--cpus")
    && TurnedOnBy(ss, o, "auto_remove", "--rm", "--rm")
    && TurnedOnBy(ss, o, "stdin_open", "-i", "-it")
    && TurnedOnBy(ss, o, "tty", "-t", "-it")
    && TurnedOnBy(ss, o, "init", "--init", "--init")
    && (o.pullAlways <==> SaysLast(ss, "--pull", "always"))
    && o.kwargs.Keys <= {"mem_limit", "network", "nano_cpus", "auto_remove", "stdin_open", "tty", "init"}
  }

  lemma {:induction false} LastValueIsLast(ss: seq<Setting>, flag: string, value: string)
    ensures LastValue(ss, flag) == Some(value) <==> SaysLast(ss, flag, value)
    ensures LastValue(ss, flag).None? <==> forall i | 0 <= i < |ss| :: !Sets(ss[i], flag)
  {
    if ss != [] {
      var later := ss[1..];
      LastValueIsLast(later, flag, value);
      if SaysLast(later, flag, value) {
        var i :| 0 <= i < |later| && Sets(later[i], flag) && later[i].value == value
                 && forall j | i < j < |later| :: !Sets(later[j], flag);
        assert ss[i + 1] == later[i];
        forall j | i + 1 < j < |ss| ensures !Sets(ss[j], flag) { assert ss[j] == later[j - 1]; }
      }
      if SaysLast(ss, flag, value) {
        var i :| 0 <= i < |ss| && Sets(ss[i], flag) && ss[i].value == value
                 && forall j | i < j < |ss| :: !Sets(ss[j], flag);
        if i > 0 { assert later[i - 1] == ss[i]; }
        forall j | i <= j < |later| ensures !Sets(later[j], flag) { assert ss[j + 1] == later[j]; }
        if i > 0 { assert SaysLast(later, flag, value); }
      }
      assert forall j | 1 <= j < |ss| :: ss[j] == later[j - 1];
    }
  }

  /** Arguments that come from values are given, all others are on. */
  ghost predicate Sorted(t: Tables, o: Options) {
    forall name | name in o.kwargs :: if name in t.keys.Values then o.kwargs[name].Given? else o.kwargs[name] == On
  }

  lemma {:induction false} EffectsAreSorted(t: Tables, ss: seq<Setting>, o: Options)
    requires Separate(t) && Switches(t, ss) && Sorted(t, o)
    ensures Sorted(t, Effects(t, ss, o))
    decreases |ss|
  {
    if ss != [] {
      assert Sorted(t, Effect(t, ss[0], o));
      EffectsAreSorted(t, ss[1..], Effect(t, ss[0], o));
    }
  }

  /** Read without a fault, into arguments of the tables. */
  ghost predicate ReadInto(ss: seq<Setting>, o: Options) {
    && Switches(DOCKER_TABLES, ss) && Meant(DOCKER_TABLES, ss, NO_OPTIONS, o) && Sorted(DOCKER_TABLES, o)
    && o.kwargs.Keys <= Known(DOCKER_TABLES)
  }

  lemma ValueArgument(ss: seq<Setting>, o: Options, flag: string, name: string)
    requires flag in DOCKER_TABLES.keys && DOCKER_TABLES.keys[flag] == name
    requires ReadInto(ss, o)
    ensures TakenFrom(ss, o, name, flag)
  {
    forall value ensures Holds(o, name, Given(value)) <==> SaysLast(ss, flag, value) {
      LastValueIsLast(ss, flag, value);
    }
  }

  lemma SwitchArgument(ss: seq<Setting>, o: Options, name: string, token: string, other: string)
    requires name !in DOCKER_TABLES.keys.Values
    requires forall b | b in DOCKER_TABLES.switches :: name in DOCKER_TABLES.switches[b] <==> b == token || b == other
    requires ReadInto(ss, o)
    ensures TurnedOnBy(ss, o, name, token, other)
  {
    assert SwitchedOn(DOCKER_TABLES, ss, name) <==> Bare(token) in ss || Bare(other) in ss by {
      if Bare(token) in ss { var i :| 0 <= i < |ss| && ss[i] == Bare(token); }
      if Bare(other) in ss { var i :| 0 <= i < |ss| && ss[i] == Bare(other); }
    }
  }

  lemma KnownIs()
    ensures DOCKER_TABLES.keys.Values == {"mem_limit", "network", "nano_cpus"}
    ensures Known(DOCKER_TABLES) <= {"mem_limit", "network", "nano_cpus", "auto_remove", "stdin_open", "tty", "init"}
  {
    assert DOCKER_TABLES.keys["--network"] == "network" && DOCKER_TABLES.keys["--memory"] == "mem_limit"
        && DOCKER_TABLES.keys["--cpus"] == "nano_cpus";
  }

  lemma ValuesMeantLiterally(ss: seq<Setting>, o: Options)
    requires ReadInto(ss, o)
    ensures TakenFrom(ss, o, "mem_limit", "--memory")
    ensures TakenFrom(ss, o, "network", "--network")
    ensures TakenFrom(ss, o, "nano_cpus", "--cpus")
    ensures o.pullAlways <==> SaysLast(ss, "--pull", "always")
  {
    ValueArgument(ss, o, "--memory", "mem_limit");
    ValueArgument(ss, o, "--network", "network");
    ValueArgument(ss, o, "--cpus", "nano_cpus");
    LastValueIsLast(ss, "--pull", "always");
  }

  lemma SwitchesMeantLiterally(ss: seq<Setting>, o: Options)
    requires ReadInto(ss, o)
    ensures TurnedOnBy(ss, o, "auto_remove", "--rm", "--rm")
    ensures TurnedOnBy(ss, o, "init", "--init", "--init")
  {
    KnownIs();
    SwitchArgument(ss, o, "auto_remove", "--rm", "--rm");
    SwitchArgument(ss, o, "init", "--init", "--init");
  }

  lemma TerminalMeantLiterally(ss: seq<Setting>, o: Options)
    requires ReadInto(ss, o)
    ensures TurnedOnBy(ss, o, "stdin_open", "-i", "-it")
    ensures TurnedOnBy(ss, o, "tty", "-t", "-it")
  {
    KnownIs();
    SwitchArgument(ss, o, "stdin_open", "-i", "-it");
    SwitchArgument(ss, o, "tty", "-t", "-it");
  }

  lemma MeantLiterally(ss: seq<Setting>, o: Options)
    requires ReadInto(ss, o)
    ensures Literally(ss, o)
  {
    KnownIs();
    ValuesMeantLiterally(ss, o);
    SwitchesMeantLiterally(ss, o);
    TerminalMeantLiterally(ss, o);
  }

  /** Every list the policy accepts, in whatever order and spelling: `mem_limit` is the last `--memory`, `network` the
      last `--network`, `nano_cpus` the last `--cpus`; `--rm`, `-i`, `-t`, `-it` and `--init` turn on exactly their
      arguments; the image is pulled exactly if the last `--pull` says always; nothing else is passed. */
  lemma FlagsSayLiterally(ss: seq<Setting>)
    requires AllAllowed(DOCKER, ss)
    ensures var read := Read(DOCKER_TABLES, Spell(ss), NO_OPTIONS);
            read.Some? && Literally(ss, read.value)
  {
    ConfigurationFits();
    ParseComplete(DOCKER, ss);
    AcceptedMeansItsSettings(DOCKER, DOCKER_TABLES, Spell(ss));
    AcceptedIsWalkedToTheEnd(DOCKER, DOCKER_TABLES, Spell(ss));
    EffectsAreSorted(DOCKER_TABLES, ss, NO_OPTIONS);
    MeantLiterally(ss, Effects(DOCKER_TABLES, ss, NO_OPTIONS));
  }

  /** The runtime passes what `flags` says. */
  ghost predicate PassedLiterally(flags: seq<string>) {
    exists ss :: AllAllowed(DOCKER, ss) && Spell(ss) == flags && Read(DOCKER_TABLES, flags, NO_OPTIONS).Some?
      && Literally(ss, Read(DOCKER_TABLES, flags, NO_OPTIONS).value)
  }

  lemma AcceptedIsPassed(flags: seq<string>)
    requires Parse(DOCKER, flags).Ok?
    ensures PassedLiterally(flags)
  {
    ParseSound(DOCKER, flags);
    FlagsSayLiterally(Parse(DOCKER, flags).value);
  }

  lemma DefaultSaysRemoval()
    ensures Read(DOCKER_TABLES, ["--rm"], NO_OPTIONS) == Some(Options(map["auto_remove" := On], false))
  {
    var o := SwitchOn(NO_OPTIONS, {"auto_remove"});
    assert ["--rm"][1..] == [] && DOCKER_TABLES.switches["--rm"] == {"auto_remove"};
    assert Read(DOCKER_TABLES, [], o) == Some(o) && o.kwargs == map["auto_remove" := On];
  }

  lemma {:induction false} SpelledIsNotEmpty(ss: seq<Setting>)
    requires ss != []
    ensures Spell(ss) != []
  {
    assert Tokens(ss[0]) != [];
  }

  lemma SpellingIsReadBack(p: Policy, ss: seq<Setting>)
    requires Storable(p) && AllAllowed(p, ss)
    ensures ReadBack(Join(Spell(ss))) == if ss == [] then ["--rm"] else Spell(ss)
  {
    ParseComplete(p, ss);
    AcceptedSurvivesStorage(p, Spell(ss));
    if ss != [] { SpelledIsNotEmpty(ss); }
  }

  /** Through the database: the settings that were accepted are the ones whose arguments are passed, and where there
      were none, removal alone. */
  lemma StoredFlagsSayLiterally(ss: seq<Setting>)
    requires AllAllowed(DOCKER, ss)
    ensures var read := Read(DOCKER_TABLES, ReadBack(Join(Spell(ss))), NO_OPTIONS);
            read.Some? && if ss == [] then read.value == Options(map["auto_remove" := On], false)
                          else Literally(ss, read.value)
  {
    DockerIsStorable();
    SpellingIsReadBack(DOCKER, ss);
    DefaultSaysRemoval();
    FlagsSayLiterally(ss);
  }

  /** Whatever was written to the table: the flags of everything a run launches are passed as they literally say. */
  lemma {:induction false} LaunchedFlagsSayLiterally(ops: seq<Orchestration.Op>, req: Request)
    requires Orchestration.ValidRun(RULES, Orchestration.EMPTY, ops)
    requires Orchestration.Launch(req) in Orchestration.Run(RULES, Orchestration.EMPTY, ops).calls
    ensures PassedLiterally(req.runFlags)
  {
    Orchestration.NothingUnvettedIsLaunched(RULES, ops, req);
    AcceptedIsPassed(req.runFlags);
  }
}
