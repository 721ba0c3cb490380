/**
 The policy for `docker run` flags and commands. The walker that accepts a token list is proved against the list of
 settings it spells: a flag without a value, or a flag with a value in one token or in two.
 */
module ArgvPolicy {
  import opened Prelude
  import opened Text
  import opened Regex

  /** Flags without a value, and flags with one and the value's format. */
  datatype Policy = Policy(bare: set<string>, valued: map<string, Re>)

  const DIGITS := Plus(Char(Decimal))
  const NETWORKS: seq<string> := ["bridge", "none"]
  const PULLS: seq<string> := ["always", "missing", "never"]
  const UNIT := Char(Either(Either(Range('b', 'b'), Range('k', 'k')), Either(Range('m', 'm'), Range('g', 'g'))))
  const MEMORY := Cat(DIGITS, Opt(UNIT))
  const CPUS := Cat(DIGITS, Opt(Cat(One('.'), DIGITS)))

  const BARE: set<string> := {"--rm", "-i", "-t", "-it", "--init"}
  const VALUED: map<string, Re> :=
    map["--network" := AnyOf(NETWORKS), "--pull" := AnyOf(PULLS), "--memory" := MEMORY, "--cpus" := CPUS]
  const DOCKER := Policy(BARE, VALUED)

  const SAFE_CHAR :=
    Either(Either(Range('A', 'Z'), Either(Range('a', 'z'), Range('0', '9'))),
           Either(Either(Range('_', '_'), Range('+', ':')), Either(Range('=', '='), Range('@', '@'))))

  /** `[A-Za-z0-9_.:=/@,+-]+`; `+ , - . /`, the digits and `:` are neighbours. */
  const SAFE_TOKEN := Plus(Char(SAFE_CHAR))

  /** What the arguments of a command may look like, and which commands users may bring. */
  datatype CommandPolicy = CommandPolicy(token: Re, launchers: set<string>)

  const LAUNCHERS: set<string> := {"npx", "node", "uvx", "python", "python3"}
  const BYO := CommandPolicy(SAFE_TOKEN, LAUNCHERS)

  datatype PolicyError =
    | FlagNotAllowed(token: string)
    | MissingValue(flag: string)
    | BadValue(flag: string, value: string)
    | UnsafeToken
    | CommandNotAllowed(command: string)
    | UnsupportedTransport(transport: string)
    | BadImage(image: string)
    | BadTag(tag: string)

  // ---------------------------------------------------------------- settings and how they are spelt

  datatype Setting = Bare(token: string) | Inline(flag: string, value: string) | Apart(flag: string, value: string)

  predicate Allowed(p: Policy, s: Setting) {
    match s
    case Bare(token) => token in p.bare
    case Inline(flag, value) => flag in p.valued && FullMatch(p.valued[flag], value)
    case Apart(flag, value) => flag in p.valued && FullMatch(p.valued[flag], value)
  }

  predicate AllAllowed(p: Policy, ss: seq<Setting>) {
    forall i | 0 <= i < |ss| :: Allowed(p, ss[i])
  }

  /** No flag holds a `=`, and no flag both takes and lacks a value. */
  ghost predicate Proper(p: Policy) {
    && (forall flag | flag in p.valued :: '=' !in flag && flag !in p.bare)
    && (forall flag | flag in p.bare :: '=' !in flag)
  }

  function Tokens(s: Setting): seq<string> {
    match s
    case Bare(token) => [token]
    case Inline(flag, value) => [flag + "=" + value]
    case Apart(flag, value) => [flag, value]
  }

  function Spell(ss: seq<Setting>): seq<string> {
    if ss == [] then [] else Tokens(ss[0]) + Spell(ss[1..])
  }

  // ---------------------------------------------------------------- the walk

  /** Where `token.partition("=")` cuts: the first `=`, or the end. */
  function Cut(token: string): (n: nat)
    ensures n <= |token| && '=' !in token[..n] && (n < |token| ==> token[n] == '=')
  {
    if token == "" || token[0] == '=' then 0
    else
      var n := Cut(token[1..]);
      assert token[..n + 1] == [token[0]] + token[1..][..n];
      n + 1
  }

  lemma {:induction false} CutIs(token: string, n: nat)
    requires n <= |token| && (forall i | 0 <= i < n :: token[i] != '=') && (n < |token| ==> token[n] == '=')
    ensures Cut(token) == n
  {
    if n > 0 { CutIs(token[1..], n - 1); }
  }

  lemma CutOfInline(flag: string, value: string)
    requires '=' !in flag
    ensures var token := flag + "=" + value;
            Cut(token) == |flag| && token[..|flag|] == flag && token[|flag| + 1..] == value
  {
    var token := flag + "=" + value;
    forall i | 0 <= i < |flag| ensures token[i] != '=' { assert token[i] == flag[i] && flag[i] in flag; }
    CutIs(token, |flag|);
  }

  lemma CutOfFlag(flag: string)
    requires '=' !in flag
    ensures Cut(flag) == |flag| && flag[..|flag|] == flag
  {
    forall i | 0 <= i < |flag| ensures flag[i] != '=' { assert flag[i] in flag; }
    CutIs(flag, |flag|);
  }

  lemma Rejoins(token: string, n: nat)
    requires n < |token| && token[n] == '='
    ensures token[..n] + "=" + token[n + 1..] == token
  {}

  lemma CutRejoins(token: string)
    ensures var n := Cut(token);
            if n < |token| then Tokens(Inline(token[..n], token[n + 1..])) == [token] else token[..n] == token
  {
    if Cut(token) < |token| { Rejoins(token, Cut(token)); }
  }

  /** The setting at the head of a list, or what is wrong there. */
  function HeadSetting(p: Policy, args: seq<string>): Result<Setting, PolicyError>
    requires args != []
  {
    var token := args[0];
    if token in p.bare then Ok(Bare(token))
    else
      var n := Cut(token);
      var flag := token[..n];
      if flag !in p.valued then Err(FlagNotAllowed(token))
      else if n < |token| then Checked(p, Inline(flag, token[n + 1..]))
      else if |args| < 2 then Err(MissingValue(flag))
      else Checked(p, Apart(flag, args[1]))
  }

  function Checked(p: Policy, s: Setting): Result<Setting, PolicyError>
    requires !s.Bare?
  {
    if Allowed(p, s) then Ok(s) else Err(BadValue(s.flag, s.value))
  }

  function Width(s: Setting): nat {
    if s.Apart? then 2 else 1
  }

  function Parse(p: Policy, args: seq<string>): Result<seq<Setting>, PolicyError>
    decreases |args|
  {
    if args == [] then Ok([])
    else match HeadSetting(p, args)
      case Err(e) => Err(e)
      case Ok(s) =>
        assert Width(s) <= |args|;
        Prepend([s], Parse(p, args[Width(s)..]))
  }

  function Prepend(read: seq<Setting>, rest: Result<seq<Setting>, PolicyError>): Result<seq<Setting>, PolicyError> {
    match rest
    case Err(e) => Err(e)
    case Ok(ss) => Ok(read + ss)
  }

  lemma PrependOneMore(read: seq<Setting>, s: Setting, rest: Result<seq<Setting>, PolicyError>)
    ensures Prepend(read, Prepend([s], rest)) == Prepend(read + [s], rest)
    ensures Prepend([], rest) == rest
  {
    if rest.Ok? { assert read + ([s] + rest.value) == (read + [s]) + rest.value && [] + rest.value == rest.value; }
  }

  lemma HeadIsSpelt(p: Policy, args: seq<string>)
    requires args != [] && HeadSetting(p, args).Ok?
    ensures var s := HeadSetting(p, args).value;
            Allowed(p, s) && Width(s) <= |args| && Tokens(s) == args[..Width(s)]
  {
    if args[0] !in p.bare { CutRejoins(args[0]); }
  }

  lemma InlineHeadIsRead(p: Policy, flag: string, value: string, rest: seq<string>)
    requires Proper(p) && Allowed(p, Inline(flag, value))
    ensures HeadSetting(p, [flag + "=" + value] + rest) == Ok(Inline(flag, value))
  {
    var token := flag + "=" + value;
    CutOfInline(flag, value);
    assert token[|flag|] == '=' && token[|flag|] in token;
  }

  lemma SpeltHeadIsRead(p: Policy, s: Setting, rest: seq<string>)
    requires Proper(p) && Allowed(p, s)
    ensures HeadSetting(p, Tokens(s) + rest) == Ok(s) && (Tokens(s) + rest)[Width(s)..] == rest
  {
    match s {
      case Bare(_) =>
      case Inline(flag, value) => InlineHeadIsRead(p, flag, value, rest);
      case Apart(flag, value) => CutOfFlag(flag);
    }
  }

  lemma ParseStep(p: Policy, s: Setting, rest: seq<string>)
    requires Proper(p) && Allowed(p, s)
    ensures Parse(p, Tokens(s) + rest) == Prepend([s], Parse(p, rest))
  {
    SpeltHeadIsRead(p, s, rest);
  }

  lemma SpellOneMore(s: Setting, ss: seq<Setting>)
    ensures Spell([s] + ss) == Tokens(s) + Spell(ss)
  {
    assert ([s] + ss)[1..] == ss;
  }

  lemma {:induction false} ParseSound(p: Policy, args: seq<string>)
    requires Parse(p, args).Ok?
    ensures AllAllowed(p, Parse(p, args).value) && Spell(Parse(p, args).value) == args
    decreases |args|
  {
    if args != [] {
      HeadIsSpelt(p, args);
      var s := HeadSetting(p, args).value;
      var rest := args[Width(s)..];
      assert args == Tokens(s) + rest;
      ParseSound(p, rest);
      SpellOneMore(s, Parse(p, rest).value);
    }
  }

  lemma {:induction false} ParseComplete(p: Policy, ss: seq<Setting>)
    requires Proper(p) && AllAllowed(p, ss)
    ensures Parse(p, Spell(ss)) == Ok(ss)
  {
    if ss != [] {
      var s, rest := ss[0], ss[1..];
      ParseComplete(p, rest);
      ParseStep(p, s, Spell(rest));
      assert [s] + rest == ss;
    }
  }

  /** A list is accepted exactly when it spells a list of allowed settings; no other settings spell it. */
  lemma AcceptedExactlyWhenSpelt(p: Policy, args: seq<string>)
    requires Proper(p)
    ensures Parse(p, args).Ok? <==> exists ss :: AllAllowed(p, ss) && Spell(ss) == args
    ensures forall ss | AllAllowed(p, ss) && Spell(ss) == args :: Parse(p, args) == Ok(ss)
  {
    if Parse(p, args).Ok? { ParseSound(p, args); }
    forall ss | AllAllowed(p, ss) && Spell(ss) == args ensures Parse(p, args) == Ok(ss) { ParseComplete(p, ss); }
  }

  /** What is wrong at the head of `rest`: the token spells no flag of the policy; a flag at the very end misses its
      value; or the value does not match. */
  ghost predicate Objects(p: Policy, rest: seq<string>, e: PolicyError)
    requires rest != []
  {
    match e
    case FlagNotAllowed(token) =>
      && token == rest[0] && token !in p.bare
      && forall flag, value | flag in p.valued :: token != flag && token != flag + "=" + value
    case MissingValue(flag) => rest == [flag] && flag in p.valued
    case BadValue(flag, value) =>
      && flag in p.valued && !FullMatch(p.valued[flag], value)
      && (rest[0] == flag + "=" + value || (|rest| >= 2 && rest[0] == flag && rest[1] == value))
    case _ => false
  }

  lemma HeadObjects(p: Policy, args: seq<string>)
    requires Proper(p) && args != [] && HeadSetting(p, args).Err?
    ensures Objects(p, args, HeadSetting(p, args).error)
  {
    var token := args[0];
    var n := Cut(token);
    CutRejoins(token);
    forall flag, value | flag in p.valued && token[..n] !in p.valued
      ensures token != flag && token != flag + "=" + value
    {
      CutOfFlag(flag);
      CutOfInline(flag, value);
    }
  }

  /** A list that is refused spells allowed settings up to the first thing that is wrong, which is what is reported. */
  lemma {:induction false} RefusedForFirstObjection(p: Policy, args: seq<string>)
    returns (ss: seq<Setting>, rest: seq<string>)
    requires Proper(p) && Parse(p, args).Err?
    ensures AllAllowed(p, ss) && args == Spell(ss) + rest && rest != [] && Objects(p, rest, Parse(p, args).error)
    decreases |args|
  {
    if HeadSetting(p, args).Err? {
      HeadObjects(p, args);
      ss, rest := [], args;
    } else {
      var s := HeadSetting(p, args).value;
      HeadIsSpelt(p, args);
      assert args == Tokens(s) + args[Width(s)..];
      ss, rest := RefusedForFirstObjection(p, args[Width(s)..]);
      SpellOneMore(s, ss);
      ss := [s] + ss;
    }
  }

  method ValidateDockerArgs(p: Policy, args: seq<string>) returns (r: Result<seq<string>, PolicyError>)
    ensures r == match Parse(p, args) case Ok(_) => Ok(args) case Err(e) => Err(e)
  {
    var i := 0;
    ghost var read: seq<Setting> := [];
    assert args[0..] == args;
    PrependOneMore(read, Bare(""), Parse(p, args));
    while i < |args|
      invariant 0 <= i <= |args|
      invariant Parse(p, args) == Prepend(read, Parse(p, args[i..]))
    {
      ghost var rest, start := args[i..], i;
      var token := args[i];
      if token in p.bare {
        i := i + 1;
      } else {
        var n := Cut(token);
        var flag := token[..n];
        if flag !in p.valued { return Err(FlagNotAllowed(token)); }
        var value;
        if n < |token| {
          value := token[n + 1..];
          i := i + 1;
        } else {
          if i + 1 >= |args| { return Err(MissingValue(flag)); }
          value := args[i + 1];
          i := i + 2;
        }
        if !FullMatch(p.valued[flag], value) { return Err(BadValue(flag, value)); }
      }
      ghost var s := HeadSetting(p, rest).value;
      assert rest[Width(s)..] == args[i..];
      PrependOneMore(read, s, Parse(p, args[i..]));
      read := read + [s];
    }
    r := Ok(args);
  }

  // ---------------------------------------------------------------- through the database

  lemma DecimalIsNotSpace(c: char)
    requires IsDecimal(c)
    ensures !IsSpace(c)
  {}

  predicate InNumber(c: char) {
    IsDecimal(c) || c == 'b' || c == 'k' || c == 'm' || c == 'g' || c == '.'
  }

  lemma NumberIsWord(number: Re, value: string)
    requires FullMatch(number, value) && !Nullable(number)
    requires forall c: char | Mentions(number, c) :: InNumber(c)
    ensures IsWord(value)
  {
    forall c: char | Mentions(number, c) ensures !IsSpace(c) {
      if IsDecimal(c) { DecimalIsNotSpace(c); }
    }
    MatchIsWord(number, value);
  }

  lemma DigitsMention(c: char)
    ensures Mentions(DIGITS, c) <==> IsDecimal(c)
  {
    assert Mentions(Star(Char(Decimal)), c) == Mentions(Char(Decimal), c);
  }

  lemma UnitMentions(c: char)
    ensures Mentions(UNIT, c) <==> c == 'b' || c == 'k' || c == 'm' || c == 'g'
  {
    var left, right := Either(Range('b', 'b'), Range('k', 'k')), Either(Range('m', 'm'), Range('g', 'g'));
    assert InClass(left, c) == (c == 'b' || c == 'k') && InClass(right, c) == (c == 'm' || c == 'g');
    assert InClass(Either(left, right), c) == (InClass(left, c) || InClass(right, c));
  }

  lemma MemoryIsWord(value: string)
    requires FullMatch(MEMORY, value)
    ensures IsWord(value)
  {
    forall c: char | Mentions(MEMORY, c) ensures InNumber(c) {
      DigitsMention(c);
      UnitMentions(c);
      assert Mentions(MEMORY, c) == (Mentions(DIGITS, c) || Mentions(Opt(UNIT), c));
      assert Mentions(Opt(UNIT), c) == Mentions(UNIT, c);
    }
    NumberIsWord(MEMORY, value);
  }

  lemma CpusIsWord(value: string)
    requires FullMatch(CPUS, value)
    ensures IsWord(value)
  {
    forall c: char | Mentions(CPUS, c) ensures InNumber(c) {
      DigitsMention(c);
      assert Mentions(CPUS, c) == (Mentions(DIGITS, c) || Mentions(Opt(Cat(One('.'), DIGITS)), c));
      assert Mentions(Cat(One('.'), DIGITS), c) == (Mentions(One('.'), c) || Mentions(DIGITS, c));
      assert Mentions(Opt(Cat(One('.'), DIGITS)), c) == Mentions(Cat(One('.'), DIGITS), c);
    }
    NumberIsWord(CPUS, value);
  }

  lemma ChoicesAreWords()
    ensures AllWords(NETWORKS) && AllWords(PULLS)
  {}

  lemma ChoiceIsWord(words: seq<string>, value: string)
    requires words != [] && AllWords(words) && FullMatch(AnyOf(words), value)
    ensures IsWord(value)
  {
    AnyOfMatch(words, value);
  }

  ghost predicate FlagsAreWords(p: Policy) {
    (forall flag | flag in p.bare :: IsWord(flag)) && (forall flag | flag in p.valued :: IsWord(flag))
  }

  ghost predicate ValuesAreWords(p: Policy) {
    forall flag, value | flag in p.valued && FullMatch(p.valued[flag], value) :: IsWord(value)
  }

  /** Fit for a list that is stored as one string: no token holds white space, and the default is allowed. */
  ghost predicate Storable(p: Policy) {
    Proper(p) && FlagsAreWords(p) && ValuesAreWords(p) && "--rm" in p.bare
  }

  lemma PatternIsOneOf(flag: string)
    requires flag in VALUED
    ensures VALUED[flag] == AnyOf(NETWORKS) || VALUED[flag] == AnyOf(PULLS) || VALUED[flag] == MEMORY
         || VALUED[flag] == CPUS
  {
  }

  lemma AcceptedValueIsWord(pattern: Re, value: string)
    requires pattern == AnyOf(NETWORKS) || pattern == AnyOf(PULLS) || pattern == MEMORY || pattern == CPUS
    requires FullMatch(pattern, value)
    ensures IsWord(value)
  {
    ChoicesAreWords();
    if pattern == AnyOf(NETWORKS) {
      ChoiceIsWord(NETWORKS, value);
    } else if pattern == AnyOf(PULLS) {
      ChoiceIsWord(PULLS, value);
    } else if pattern == MEMORY {
      MemoryIsWord(value);
    } else {
      CpusIsWord(value);
    }
  }

  lemma BareFlag(flag: string)
    requires flag in BARE
    ensures IsWord(flag) && '=' !in flag && (|flag| < 6 || flag[2] == 'i')
  {}

  lemma ValuedFlag(flag: string)
    requires flag in VALUED
    ensures IsWord(flag) && '=' !in flag && |flag| >= 6 && flag[2] != 'i'
  {}

  lemma DockerFlags()
    ensures Proper(DOCKER) && FlagsAreWords(DOCKER)
  {
    forall flag | flag in BARE ensures IsWord(flag) && '=' !in flag { BareFlag(flag); }
    forall flag | flag in VALUED ensures IsWord(flag) && '=' !in flag && flag !in BARE {
      ValuedFlag(flag);
      if flag in BARE { BareFlag(flag); }
    }
  }

  lemma DockerValues()
    ensures ValuesAreWords(DOCKER)
  {
    forall flag, value | flag in DOCKER.valued && FullMatch(DOCKER.valued[flag], value) ensures IsWord(value) {
      PatternIsOneOf(flag);
      AcceptedValueIsWord(VALUED[flag], value);
    }
  }

  lemma DockerIsStorable()
    ensures Storable(DOCKER)
  {
    DockerFlags();
    DockerValues();
  }

  lemma InlineIsWord(flag: string, value: string)
    requires IsWord(flag) && IsWord(value)
    ensures IsWord(flag + "=" + value)
  {}

  lemma {:induction false} SpellingIsWords(p: Policy, ss: seq<Setting>)
    requires FlagsAreWords(p) && ValuesAreWords(p) && AllAllowed(p, ss)
    ensures AllWords(Spell(ss))
  {
    if ss != [] {
      if ss[0].Inline? { InlineIsWord(ss[0].flag, ss[0].value); }
      assert Allowed(p, ss[0]) && AllWords(Tokens(ss[0]));
      SpellingIsWords(p, ss[1..]);
    }
  }

  /** Python's `s or "--rm"` */
  function OrRm(s: string): string {
    if s == "" then "--rm" else s
  }

  /** What a stored string becomes on its way to the runtime: split into the launch spec, joined and split again. */
  function ReadBack(stored: string): seq<string> {
    Split(OrRm(Join(Split(OrRm(stored)))))
  }

  /** Whatever is stored, the round trips add nothing but the default: they normalise white space once. */
  lemma ReadBackIsSplit(stored: string)
    ensures ReadBack(stored) == if Split(stored) == [] then ["--rm"] else Split(stored)
    ensures ReadBack(Join(ReadBack(stored))) == ReadBack(stored)
  {
    SplitRm();
    SplitReadBack(stored);
    SplitJoin(ReadBack(stored));
    SplitReadBack(Join(ReadBack(stored)));
  }

  lemma SplitRm()
    ensures Split("--rm") == ["--rm"] && Split("") == []
  {
    assert Join(["--rm"]) == "--rm";
    SplitJoin(["--rm"]);
  }

  lemma SplitReadBack(stored: string)
    ensures ReadBack(stored) == if Split(stored) == [] then ["--rm"] else Split(stored)
  {
    SplitRm();
    var words := Split(OrRm(stored));
    SplitJoin(words);
    JoinEmpty(words);
  }

  /** An accepted list survives the database: it comes back as it was, the empty list as `--rm`, and is accepted again
      with the same reading. */
  lemma AcceptedSurvivesStorage(p: Policy, args: seq<string>)
    requires Storable(p) && Parse(p, args).Ok?
    ensures ReadBack(Join(args)) == if args == [] then ["--rm"] else args
    ensures Parse(p, ReadBack(Join(args))) == if args == [] then Ok([Bare("--rm")]) else Parse(p, args)
  {
    ParseSound(p, args);
    SpellingIsWords(p, Parse(p, args).value);
    SplitJoin(args);
    SplitReadBack(Join(args));
    assert Spell([Bare("--rm")]) == ["--rm"];
    ParseComplete(p, [Bare("--rm")]);
  }

  // ---------------------------------------------------------------- commands

  /** An element of a JSON array: a string, or something else. */
  datatype Json = Str(text: string) | Other

  predicate SafeToken(q: CommandPolicy, j: Json) {
    j.Str? && FullMatch(q.token, j.text)
  }

  predicate AllSafe(q: CommandPolicy, tokens: seq<Json>) {
    forall i | 0 <= i < |tokens| :: SafeToken(q, tokens[i])
  }

  function Texts(tokens: seq<Json>): (ts: seq<string>)
    requires forall i | 0 <= i < |tokens| :: tokens[i].Str?
    ensures |ts| == |tokens| && forall i | 0 <= i < |tokens| :: ts[i] == tokens[i].text
  {
    seq(|tokens|, i requires 0 <= i < |tokens| => tokens[i].text)
  }

  method ValidateCommandTokens(q: CommandPolicy, tokens: seq<Json>) returns (r: Result<seq<string>, PolicyError>)
    ensures r.Ok? <==> AllSafe(q, tokens)
    ensures r.Ok? ==> r.value == Texts(tokens)
    ensures r.Err? ==> r.error == UnsafeToken
  {
    var command: seq<string> := [];
    for i := 0 to |tokens|
      invariant forall k | 0 <= k < i :: SafeToken(q, tokens[k])
      invariant |command| == i && forall k | 0 <= k < i :: command[k] == tokens[k].text
    {
      if !SafeToken(q, tokens[i]) { return Err(UnsafeToken); }
      command := command + [tokens[i].text];
    }
    r := Ok(command);
  }

  method ValidateByoLaunch(q: CommandPolicy, command: string, args: seq<Json>)
    returns (r: Result<seq<string>, PolicyError>)
    ensures r.Ok? <==> command in q.launchers && AllSafe(q, args)
    ensures r.Ok? ==> r.value == [command] + Texts(args)
    ensures r.Err? ==> r.error == if command in q.launchers then UnsafeToken else CommandNotAllowed(command)
  {
    if command !in q.launchers { return Err(CommandNotAllowed(command)); }
    var tokens := ValidateCommandTokens(q, args);
    if tokens.Err? { return tokens; }
    r := Ok([command] + tokens.value);
  }

  /** Commands and arguments without white space. */
  ghost predicate CommandsAreWords(q: CommandPolicy) {
    && (forall command | command in q.launchers :: IsWord(command))
    && (forall text | FullMatch(q.token, text) :: IsWord(text))
  }

  lemma SafeTokenIsWord(text: string)
    requires FullMatch(SAFE_TOKEN, text)
    ensures IsWord(text)
  {
    MatchIsWord(SAFE_TOKEN, text);
  }

  lemma LauncherIsWord(command: string)
    requires command in LAUNCHERS
    ensures IsWord(command)
  {}

  lemma ByoCommandsAreWords()
    ensures CommandsAreWords(BYO)
  {
    forall command | command in LAUNCHERS ensures IsWord(command) { LauncherIsWord(command); }
    forall text | FullMatch(SAFE_TOKEN, text) ensures IsWord(text) { SafeTokenIsWord(text); }
  }

  /** supergateway's arguments; the environment names the binary. */
  function BridgeArgv(binary: string, inner: seq<string>, port: string): seq<string> {
    [binary, "--stdio", Join(inner), "--outputTransport", "streamableHttp", "--stateful",
     "--streamableHttpPath", "/mcp", "--port", port]
  }

  /** However many tokens a validated command has, it is one argument of the bridge, which splits back into them: no
      token can become an option of the bridge itself. */
  lemma BridgeKeepsCommand(q: CommandPolicy, binary: string, command: string, args: seq<Json>, port: string)
    requires CommandsAreWords(q) && command in q.launchers && AllSafe(q, args)
    ensures var inner := [command] + Texts(args);
            var argv := BridgeArgv(binary, inner, port);
            Split(argv[2]) == inner && argv == BridgeArgv(binary, [], port)[2 := Join(inner)]
  {
    var inner := [command] + Texts(args);
    forall i | 0 <= i < |args| ensures IsWord(args[i].text) { assert SafeToken(q, args[i]); }
    SplitJoin(inner);
  }
}
