/**
 How the Docker runtime turns accepted flags into SDK arguments. The interpreter walks the token list on its own, with
 tables of its own; here it is shown to read the very settings the policy accepted.
 */
module DockerFlags {
  import opened Prelude
  import opened Text
  import opened ArgvPolicy

  /** The tables of `_flags_to_kwargs`: arguments a bare flag turns on, the argument a value goes to, and `--pull`. */
  datatype Tables = Tables(switches: map<string, set<string>>, keys: map<string, string>, pull: string)

  const DOCKER_TABLES := Tables(
    map["--rm" := {"auto_remove"}, "-i" := {"stdin_open"}, "-t" := {"tty"}, "-it" := {"stdin_open", "tty"},
        "--init" := {"init"}],
    map["--network" := "network", "--memory" := "mem_limit", "--cpus" := "nano_cpus"],
    "--pull")

  /** An argument's value; `nano_cpus` keeps the text the number is computed from. */
  datatype Argument = On | Given(text: string)

  datatype Options = Options(kwargs: map<string, Argument>, pullAlways: bool)

  const NO_OPTIONS := Options(map[], false)

  function SwitchOn(o: Options, names: set<string>): Options {
    o.(kwargs := o.kwargs + map name | name in names :: On)
  }

  function Give(t: Tables, o: Options, flag: string, value: string): Options {
    if flag in t.keys then o.(kwargs := o.kwargs[t.keys[flag] := Given(value)])
    else if flag == t.pull then o.(pullAlways := value == "always")
    else o
  }

  /** The walk from the head of `flags` on; `None` is the IndexError of a flag at the end that misses its value. */
  function Read(t: Tables, flags: seq<string>, o: Options): Option<Options>
    decreases |flags|
  {
    if flags == [] then Some(o)
    else
      var token := flags[0];
      if token in t.switches then Read(t, flags[1..], SwitchOn(o, t.switches[token]))
      else
        var n := Cut(token);
        if n < |token| then Read(t, flags[1..], Give(t, o, token[..n], token[n + 1..]))
        else if |flags| < 2 then None
        else Read(t, flags[2..], Give(t, o, token, flags[1]))
  }

  method FlagsToKwargs(t: Tables, flags: seq<string>) returns (r: Option<Options>)
    ensures r == Read(t, flags, NO_OPTIONS)
  {
    var o, i := NO_OPTIONS, 0;
    assert flags[0..] == flags;
    while i < |flags|
      invariant 0 <= i <= |flags|
      invariant Read(t, flags, NO_OPTIONS) == Read(t, flags[i..], o)
    {
      ghost var rest, start := flags[i..], i;
      var token := flags[i];
      if token in t.switches {
        o := SwitchOn(o, t.switches[token]);
        i := i + 1;
      } else {
        var n := Cut(token);
        var flag, value := token[..n], "";
        if n < |token| {
          value := token[n + 1..];
          i := i + 1;
        } else {
          CutRejoins(token);
          if i + 1 >= |flags| { return None; }
          value := flags[i + 1];
          i := i + 2;
        }
        o := Give(t, o, flag, value);
      }
      assert rest[i - start..] == flags[i..];
    }
    r := Some(o);
  }

  // ---------------------------------------------------------------- what a setting means

  predicate Switches(t: Tables, ss: seq<Setting>) {
    forall i | 0 <= i < |ss| && ss[i].Bare? :: ss[i].token in t.switches
  }

  /** One token or two: the same meaning. */
  function Effect(t: Tables, s: Setting, o: Options): Options
    requires s.Bare? ==> s.token in t.switches
  {
    if s.Bare? then SwitchOn(o, t.switches[s.token]) else Give(t, o, s.flag, s.value)
  }

  function Effects(t: Tables, ss: seq<Setting>, o: Options): Options
    requires Switches(t, ss)
    decreases |ss|
  {
    if ss == [] then o else Effects(t, ss[1..], Effect(t, ss[0], o))
  }

  /** Both walkers know the same bare flags. */
  ghost predicate Agree(p: Policy, t: Tables) {
    Proper(p) && t.switches.Keys == p.bare
  }

  lemma DockerTablesAgree()
    ensures Agree(DOCKER, DOCKER_TABLES)
  {
    DockerIsStorable();
    assert DOCKER_TABLES.switches.Keys == BARE;
  }

  lemma ReadStep(p: Policy, t: Tables, s: Setting, rest: seq<string>, o: Options)
    requires Agree(p, t) && Allowed(p, s)
    ensures s.Bare? ==> s.token in t.switches
    ensures Read(t, Tokens(s) + rest, o) == Read(t, rest, Effect(t, s, o))
  {
    var flags := Tokens(s) + rest;
    assert flags[Width(s)..] == rest;
    match s {
      case Bare(_) =>
      case Inline(flag, value) =>
        CutOfInline(flag, value);
        assert flags[0][|flag|] == '=' && flags[0][|flag|] in flags[0];
      case Apart(flag, value) => CutOfFlag(flag);
    }
  }

  /** The interpreter consumes exactly the tokens of the accepted settings, in order, whatever follows them. */
  lemma {:induction false} ReadsWhatWasAccepted(p: Policy, t: Tables, ss: seq<Setting>, tail: seq<string>, o: Options)
    requires Agree(p, t) && AllAllowed(p, ss)
    ensures Switches(t, ss) && Read(t, Spell(ss) + tail, o) == Read(t, tail, Effects(t, ss, o))
    decreases |ss|
  {
    if ss == [] {
      assert Spell(ss) + tail == tail;
    } else {
      var s, rest := ss[0], ss[1..];
      assert Spell(ss) + tail == Tokens(s) + (Spell(rest) + tail);
      ReadStep(p, t, s, Spell(rest) + tail, o);
      ReadsWhatWasAccepted(p, t, rest, tail, Effect(t, s, o));
    }
  }

  /** On a list the policy accepts the walk never runs off the end, and applies the settings the policy read. */
  lemma AcceptedIsWalkedToTheEnd(p: Policy, t: Tables, args: seq<string>)
    requires Agree(p, t) && Parse(p, args).Ok?
    ensures var ss := Parse(p, args).value;
            Switches(t, ss) && Read(t, args, NO_OPTIONS) == Some(Effects(t, ss, NO_OPTIONS))
  {
    ParseSound(p, args);
    var ss := Parse(p, args).value;
    ReadsWhatWasAccepted(p, t, ss, [], NO_OPTIONS);
    assert Spell(ss) + [] == args;
  }

  // ---------------------------------------------------------------- the arguments that come out

  /** Distinct arguments for distinct flags. */
  ghost predicate Separate(t: Tables) {
    && t.pull !in t.keys
    && (forall f, g | f in t.keys && g in t.keys && t.keys[f] == t.keys[g] :: f == g)
    && (forall f, b | f in t.keys && b in t.switches :: t.keys[f] !in t.switches[b])
  }

  /** The value of the last setting of `flag`. */
  function LastValue(ss: seq<Setting>, flag: string): Option<string> {
    if ss == [] then None
    else
      var later := LastValue(ss[1..], flag);
      if later.Some? then later
      else if !ss[0].Bare? && ss[0].flag == flag then Some(ss[0].value)
      else None
  }

  predicate SwitchedOn(t: Tables, ss: seq<Setting>, name: string)
    requires Switches(t, ss)
  {
    exists i | 0 <= i < |ss| :: ss[i].Bare? && name in t.switches[ss[i].token]
  }

  /** Each value argument holds the last value of its flag, or what it held before. */
  ghost predicate ValuesMeant(t: Tables, ss: seq<Setting>, o: Options, after: Options) {
    && (forall f | f in t.keys && LastValue(ss, f).Some? ::
          t.keys[f] in after.kwargs && after.kwargs[t.keys[f]] == Given(LastValue(ss, f).value))
    && (forall f | f in t.keys && LastValue(ss, f).None? ::
          (t.keys[f] in after.kwargs <==> t.keys[f] in o.kwargs)
          && (t.keys[f] in o.kwargs ==> after.kwargs[t.keys[f]] == o.kwargs[t.keys[f]]))
  }

  /** Any other argument is set exactly if it was, or if a setting switched it on. */
  ghost predicate SwitchesMeant(t: Tables, ss: seq<Setting>, o: Options, after: Options)
    requires Switches(t, ss)
  {
    forall name: string | name !in t.keys.Values ::
      name in after.kwargs <==> name in o.kwargs || SwitchedOn(t, ss, name)
  }

  ghost predicate Meant(t: Tables, ss: seq<Setting>, o: Options, after: Options)
    requires Switches(t, ss)
  {
    && ValuesMeant(t, ss, o, after) && SwitchesMeant(t, ss, o, after)
    && after.pullAlways == (if LastValue(ss, t.pull).Some? then LastValue(ss, t.pull).value == "always" else o.pullAlways)
  }

  lemma {:induction false} EffectsMeanValues(t: Tables, ss: seq<Setting>, o: Options)
    requires Separate(t) && Switches(t, ss)
    ensures ValuesMeant(t, ss, o, Effects(t, ss, o))
    decreases |ss|
  {
    if ss != [] {
      EffectsMeanValues(t, ss[1..], Effect(t, ss[0], o));
    }
  }

  lemma {:induction false} EffectsMeanSwitches(t: Tables, ss: seq<Setting>, o: Options)
    requires Switches(t, ss)
    ensures SwitchesMeant(t, ss, o, Effects(t, ss, o))
    decreases |ss|
  {
    if ss != [] {
      EffectsMeanSwitches(t, ss[1..], Effect(t, ss[0], o));
    }
  }

  lemma {:induction false} EffectsMeanPull(t: Tables, ss: seq<Setting>, o: Options)
    requires Separate(t) && Switches(t, ss)
    ensures Effects(t, ss, o).pullAlways
         == if LastValue(ss, t.pull).Some? then LastValue(ss, t.pull).value == "always" else o.pullAlways
    decreases |ss|
  {
    if ss != [] {
      EffectsMeanPull(t, ss[1..], Effect(t, ss[0], o));
    }
  }

  lemma EffectsMean(t: Tables, ss: seq<Setting>, o: Options)
    requires Separate(t) && Switches(t, ss)
    ensures Meant(t, ss, o, Effects(t, ss, o))
  {
    EffectsMeanValues(t, ss, o);
    EffectsMeanSwitches(t, ss, o);
    EffectsMeanPull(t, ss, o);
  }

  /** Every argument the tables can set. */
  function Known(t: Tables): set<string> {
    t.keys.Values + set b, name | b in t.switches && name in t.switches[b] :: name
  }

  lemma DockerTablesAreSeparate()
    ensures Separate(DOCKER_TABLES)
  {}

  /** The runtime's reading of an accepted list succeeds, sets known arguments only, and gives each flag its last
      value. */
  lemma AcceptedMeansItsSettings(p: Policy, t: Tables, args: seq<string>)
    requires Agree(p, t) && Separate(t) && Parse(p, args).Ok?
    ensures var ss := Parse(p, args).value;
            var read := Read(t, args, NO_OPTIONS);
            && Switches(t, ss) && read.Some?
            && Meant(t, ss, NO_OPTIONS, read.value)
            && read.value.kwargs.Keys <= Known(t)
  {
    var ss := Parse(p, args).value;
    AcceptedIsWalkedToTheEnd(p, t, args);
    EffectsMean(t, ss, NO_OPTIONS);
    var after := Effects(t, ss, NO_OPTIONS);
    forall name | name in after.kwargs && name !in t.keys.Values ensures name in Known(t) {
      assert SwitchedOn(t, ss, name);
    }
  }

  /** From stored text to arguments: whatever string is stored, if the policy accepts the tokens it is split into, then
      the runtime's reading of them succeeds, sets known arguments only, and gives each flag its last value. */
  lemma StoredFlagsMeanTheirSettings(p: Policy, t: Tables, stored: string)
    requires Agree(p, t) && Separate(t) && Parse(p, ReadBack(stored)).Ok?
    ensures var ss := Parse(p, ReadBack(stored)).value;
            var read := Read(t, ReadBack(stored), NO_OPTIONS);
            && Switches(t, ss) && read.Some?
            && Meant(t, ss, NO_OPTIONS, read.value)
            && read.value.kwargs.Keys <= Known(t)
  {
    AcceptedMeansItsSettings(p, t, ReadBack(stored));
  }

  function InTwoTokens(s: Setting): Setting {
    if s.Inline? then Apart(s.flag, s.value) else s
  }

  function AllInTwoTokens(ss: seq<Setting>): (apart: seq<Setting>)
    ensures |apart| == |ss| && forall i | 0 <= i < |ss| :: apart[i] == InTwoTokens(ss[i])
  {
    if ss == [] then [] else [InTwoTokens(ss[0])] + AllInTwoTokens(ss[1..])
  }

  /** `--flag=value` and `--flag value` may be exchanged for each other anywhere, in both directions: two lists of
      allowed settings that differ only in this are both accepted, and mean the same. */
  lemma FormsAreInterchangeable(p: Policy, t: Tables, ss: seq<Setting>, other: seq<Setting>)
    requires Agree(p, t) && AllAllowed(p, ss) && AllAllowed(p, other) && AllInTwoTokens(ss) == AllInTwoTokens(other)
    ensures Parse(p, Spell(ss)) == Ok(ss) && Parse(p, Spell(other)) == Ok(other)
    ensures Read(t, Spell(ss), NO_OPTIONS).Some? && Read(t, Spell(other), NO_OPTIONS) == Read(t, Spell(ss), NO_OPTIONS)
  {
    ParseComplete(p, ss);
    ParseComplete(p, other);
    AcceptedIsWalkedToTheEnd(p, t, Spell(ss));
    AcceptedIsWalkedToTheEnd(p, t, Spell(other));
    SameEffects(t, ss, NO_OPTIONS);
    SameEffects(t, other, NO_OPTIONS);
  }

  lemma {:induction false} SameEffects(t: Tables, ss: seq<Setting>, o: Options)
    requires Switches(t, ss)
    ensures Switches(t, AllInTwoTokens(ss)) && Effects(t, AllInTwoTokens(ss), o) == Effects(t, ss, o)
    decreases |ss|
  {
    if ss != [] {
      var apart := AllInTwoTokens(ss);
      assert apart[1..] == AllInTwoTokens(ss[1..]);
      SameEffects(t, ss[1..], Effect(t, ss[0], o));
    }
  }
}
