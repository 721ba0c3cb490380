/**
 What the configured policy accepts, character by character: flags and their values, commands, tags and image names.
 */
module PolicyMeaning {
  import opened Regex
  import opened ArgvPolicy
  import opened ImageRefs

  // ---------------------------------------------------------------- the formats, character by character

  ghost predicate AllIn(k: Class, s: string) {
    forall i | 0 <= i < |s| :: InClass(k, s[i])
  }

  lemma {:induction false} StarOfChars(k: Class, s: string)
    ensures FullMatch(Star(Char(k)), s) <==> AllIn(k, s)
    decreases |s|
  {
    var body := Char(k);
    if AllIn(k, s) && s != "" {
      StarOfChars(k, s[1..]);
      assert FullMatch(body, s[..1]) && FullMatch(Star(body), s[1..]);
    }
    if FullMatch(Star(body), s) && s != "" {
      var i :| 0 < i <= |s| && FullMatch(body, s[..i]) && FullMatch(Star(body), s[i..]);
      StarOfChars(k, s[i..]);
      forall j | 0 <= j < |s| ensures InClass(k, s[j]) {
        if j >= i { assert s[j] == s[i..][j - i]; } else { assert s[..i][0] == s[0]; }
      }
    }
  }

  lemma PlusOfChars(k: Class, s: string)
    ensures FullMatch(Plus(Char(k)), s) <==> s != "" && AllIn(k, s)
  {
    if s != "" && AllIn(k, s) {
      StarOfChars(k, s[1..]);
      assert FullMatch(Char(k), s[..1]) && FullMatch(Star(Char(k)), s[1..]);
    }
    if FullMatch(Plus(Char(k)), s) {
      var i :| 0 <= i <= |s| && FullMatch(Char(k), s[..i]) && FullMatch(Star(Char(k)), s[i..]);
      StarOfChars(k, s[i..]);
      forall j | 0 <= j < |s| ensures InClass(k, s[j]) {
        if j >= i { assert s[j] == s[i..][j - i]; } else { assert s[..i][0] == s[0]; }
      }
    }
  }

  ghost predicate Number(s: string) {
    s != "" && forall i | 0 <= i < |s| :: IsDecimal(s[i])
  }

  lemma DigitsMean(s: string)
    ensures FullMatch(DIGITS, s) <==> Number(s)
  {
    PlusOfChars(Decimal, s);
  }

  /** Digits, and at most one letter of `bkmg` after them. */
  ghost predicate MemorySize(s: string) {
    Number(s) || (s != "" && Number(s[..|s| - 1]) && s[|s| - 1] in "bkmg")
  }

  /** Digits, or digits, a point and digits. */
  ghost predicate CpuCount(s: string) {
    Number(s) || exists i | 0 <= i < |s| :: s[i] == '.' && Number(s[..i]) && Number(s[i + 1..])
  }

  lemma UnitMeans(s: string)
    ensures FullMatch(UNIT, s) <==> |s| == 1 && s[0] in "bkmg"
  {
    if |s| == 1 { UnitMentions(s[0]); }
  }

  lemma {:induction false} Matches(a: Re, b: Re, s: string, i: nat)
    requires i <= |s| && FullMatch(a, s[..i]) && FullMatch(b, s[i..])
    ensures FullMatch(Cat(a, b), s)
  {}

  lemma MemoryIsMatched(s: string)
    requires MemorySize(s)
    ensures FullMatch(MEMORY, s)
  {
    if Number(s) {
      DigitsMean(s);
      assert s[..|s|] == s && s[|s|..] == "";
      Matches(DIGITS, Opt(UNIT), s, |s|);
    } else {
      var i := |s| - 1;
      DigitsMean(s[..i]);
      UnitMeans(s[i..]);
      Matches(DIGITS, Opt(UNIT), s, i);
    }
  }

  lemma MemoryMeans(s: string)
    ensures FullMatch(MEMORY, s) <==> MemorySize(s)
  {
    if MemorySize(s) { MemoryIsMatched(s); }
    if FullMatch(MEMORY, s) {
      var i := CatSplit(DIGITS, Opt(UNIT), s);
      DigitsMean(s[..i]);
      UnitMeans(s[i..]);
      if s[i..] == "" { assert s[..i] == s; } else { assert i == |s| - 1 && s[i..][0] == s[i]; }
    }
  }

  lemma FractionMeans(s: string)
    ensures FullMatch(Cat(One('.'), DIGITS), s) <==> s != "" && s[0] == '.' && Number(s[1..])
  {
    if s != "" { DigitsMean(s[1..]); }
    if FullMatch(Cat(One('.'), DIGITS), s) {
      var i :| 0 <= i <= |s| && FullMatch(One('.'), s[..i]) && FullMatch(DIGITS, s[i..]);
      assert i == 1 && s[..1][0] == s[0];
    }
    if s != "" && s[0] == '.' && Number(s[1..]) { assert FullMatch(One('.'), s[..1]) && FullMatch(DIGITS, s[1..]); }
  }

  lemma CpusAreMatched(s: string)
    requires CpuCount(s)
    ensures FullMatch(CPUS, s)
  {
    var fraction := Opt(Cat(One('.'), DIGITS));
    if Number(s) {
      DigitsMean(s);
      assert s[..|s|] == s && s[|s|..] == "";
      Matches(DIGITS, fraction, s, |s|);
    } else {
      var i :| 0 <= i < |s| && s[i] == '.' && Number(s[..i]) && Number(s[i + 1..]);
      DigitsMean(s[..i]);
      assert s[i..][0] == s[i] && s[i..][1..] == s[i + 1..];
      FractionMeans(s[i..]);
      Matches(DIGITS, fraction, s, i);
    }
  }

  lemma CpusMean(s: string)
    ensures FullMatch(CPUS, s) <==> CpuCount(s)
  {
    if CpuCount(s) { CpusAreMatched(s); }
    if FullMatch(CPUS, s) {
      var i := CatSplit(DIGITS, Opt(Cat(One('.'), DIGITS)), s);
      DigitsMean(s[..i]);
      FractionMeans(s[i..]);
      if s[i..] == "" { assert s[..i] == s; } else { assert s[i..][0] == s[i] && s[i..][1..] == s[i + 1..]; }
    }
  }

  /** Which values the policy admits for which flag. */
  ghost predicate Admitted(flag: string, value: string) {
    || (flag == "--network" && value in {"bridge", "none"})
    || (flag == "--pull" && value in {"always", "missing", "never"})
    || (flag == "--memory" && MemorySize(value))
    || (flag == "--cpus" && CpuCount(value))
  }

  lemma ChoicesMean(value: string)
    ensures FullMatch(AnyOf(NETWORKS), value) <==> value in {"bridge", "none"}
    ensures FullMatch(AnyOf(PULLS), value) <==> value in {"always", "missing", "never"}
  {
    AnyOfMatch(NETWORKS, value);
    AnyOfMatch(PULLS, value);
    assert value in NETWORKS <==> value == "bridge" || value == "none";
    assert value in PULLS <==> value == "always" || value == "missing" || value == "never";
  }

  lemma ValuedMeans(flag: string, value: string)
    ensures flag in VALUED && FullMatch(VALUED[flag], value) <==> Admitted(flag, value)
  {
    if flag in VALUED {
      PatternOf(flag);
      ChoicesMean(value);
      MemoryMeans(value);
      CpusMean(value);
    }
  }

  lemma PatternOf(flag: string)
    requires flag in VALUED
    ensures flag == "--network" ==> VALUED[flag] == AnyOf(NETWORKS)
    ensures flag == "--pull" ==> VALUED[flag] == AnyOf(PULLS)
    ensures flag == "--memory" ==> VALUED[flag] == MEMORY
    ensures flag == "--cpus" ==> VALUED[flag] == CPUS
    ensures flag in {"--network", "--pull", "--memory", "--cpus"}
  {}

  /** The allow-list, spelt out: everything else, `--privileged`, a volume or the host's network, cannot be said. */
  lemma AllowedMeans(s: Setting)
    ensures Allowed(DOCKER, s) <==> match s
                                    case Bare(token) => token in {"--rm", "-i", "-t", "-it", "--init"}
                                    case Inline(flag, value) => Admitted(flag, value)
                                    case Apart(flag, value) => Admitted(flag, value)
  {
    if !s.Bare? { ValuedMeans(s.flag, s.value); }
  }

  /** One character of `[A-Za-z0-9_.:=/@,+-]`. */
  predicate SafeChar(c: char) {
    'A' <= c <= 'Z' || 'a' <= c <= 'z' || '0' <= c <= '9' || c in "_.:=/@,+-"
  }

  lemma SafeCharMeans(c: char)
    ensures InClass(SAFE_CHAR, c) <==> SafeChar(c)
  {
    var letters := Either(Range('A', 'Z'), Either(Range('a', 'z'), Range('0', '9')));
    var marks := Either(Either(Range('_', '_'), Range('+', ':')), Either(Range('=', '='), Range('@', '@')));
    assert InClass(letters, c) == (InClass(Range('A', 'Z'), c) || InClass(Either(Range('a', 'z'), Range('0', '9')), c));
    assert InClass(Either(Range('_', '_'), Range('+', ':')), c) == (c == '_' || '+' <= c <= ':');
    assert InClass(Either(Range('=', '='), Range('@', '@')), c) == (c == '=' || c == '@');
    assert InClass(marks, c) == (c == '_' || '+' <= c <= ':' || c == '=' || c == '@');
    assert InClass(SAFE_CHAR, c) == (InClass(letters, c) || InClass(marks, c));
  }

  /** A command a user may bring: one of five launchers, and arguments of safe characters only. */
  lemma CommandMeans(command: string, j: Json)
    ensures command in BYO.launchers <==> command in {"npx", "node", "uvx", "python", "python3"}
    ensures SafeToken(BYO, j) <==> j.Str? && j.text != "" && forall i | 0 <= i < |j.text| :: SafeChar(j.text[i])
  {
    if j.Str? {
      PlusOfChars(SAFE_CHAR, j.text);
      forall i | 0 <= i < |j.text| ensures InClass(SAFE_CHAR, j.text[i]) <==> SafeChar(j.text[i]) {
        SafeCharMeans(j.text[i]);
      }
    }
  }

  // ---------------------------------------------------------------- tags and image names

  lemma {:induction false} AtMostOfChars(k: Class, n: nat, s: string)
    ensures FullMatch(AtMost(Char(k), n), s) <==> |s| <= n && AllIn(k, s)
    decreases n
  {
    if n > 0 {
      var one, rest := Char(k), AtMost(Char(k), n - 1);
      if s != "" {
        AtMostOfChars(k, n - 1, s[1..]);
        assert AllIn(k, s) <==> InClass(k, s[0]) && AllIn(k, s[1..]) by {
          assert forall i | 1 <= i < |s| :: s[i] == s[1..][i - 1];
        }
        if FullMatch(Cat(one, rest), s) {
          var i := CatSplit(one, rest, s);
          assert i == 1 && s[..1][0] == s[0];
        }
        if InClass(k, s[0]) && FullMatch(rest, s[1..]) {
          assert FullMatch(one, s[..1]);
          Matches(one, rest, s, 1);
        }
      } else {
        assert !FullMatch(Cat(one, rest), "");
      }
    }
  }

  predicate Alphanumeric(c: char) {
    'A' <= c <= 'Z' || 'a' <= c <= 'z' || '0' <= c <= '9'
  }

  lemma TagCharsMean(c: char)
    ensures InClass(WORD_CHAR, c) <==> Alphanumeric(c) || c == '_'
    ensures InClass(Either(WORD_CHAR, Range('-', '.')), c) <==> Alphanumeric(c) || c in "_-."
  {
    var letters, others := Either(Range('A', 'Z'), Range('a', 'z')), Either(Range('0', '9'), Range('_', '_'));
    assert InClass(letters, c) == ('A' <= c <= 'Z' || 'a' <= c <= 'z');
    assert InClass(others, c) == ('0' <= c <= '9' || c == '_');
    assert InClass(WORD_CHAR, c) == (InClass(letters, c) || InClass(others, c));
    assert InClass(Range('-', '.'), c) == (c == '-' || c == '.');
  }

  /** A tag: at most 128 letters, digits, `_`, `-` and `.`, the first of them neither `-` nor `.`. */
  lemma TagMeans(s: string)
    ensures FullMatch(TAG, s) <==>
              && 1 <= |s| <= 128 && (Alphanumeric(s[0]) || s[0] == '_')
              && forall i | 0 <= i < |s| :: Alphanumeric(s[i]) || s[i] in "_-."
  {
    var first, rest := Char(WORD_CHAR), AtMost(Char(Either(WORD_CHAR, Range('-', '.'))), 127);
    forall i | 0 <= i < |s|
      ensures InClass(WORD_CHAR, s[i]) <==> Alphanumeric(s[i]) || s[i] == '_'
      ensures InClass(Either(WORD_CHAR, Range('-', '.')), s[i]) <==> Alphanumeric(s[i]) || s[i] in "_-."
    {
      TagCharsMean(s[i]);
    }
    if s != "" {
      AtMostOfChars(Either(WORD_CHAR, Range('-', '.')), 127, s[1..]);
      assert forall i | 1 <= i < |s| :: s[i] == s[1..][i - 1];
      if FullMatch(TAG, s) {
        var i := CatSplit(first, rest, s);
        assert i == 1 && s[..1][0] == s[0];
      }
      if FullMatch(first, s[..1]) && FullMatch(rest, s[1..]) { Matches(first, rest, s, 1); }
    }
  }

  predicate LowAlnum(c: char) {
    'a' <= c <= 'z' || '0' <= c <= '9'
  }

  /** Lower-case letters and digits, with single `.`, `_` or `-` between two of them. */
  ghost predicate Parted(s: string) {
    && (forall i | 0 <= i < |s| :: LowAlnum(s[i]) || s[i] in "._-")
    && (forall i | 0 <= i < |s| - 1 :: LowAlnum(s[i]) || LowAlnum(s[i + 1]))
    && (s != "" ==> LowAlnum(s[|s| - 1]))
  }

  lemma AlnumMeans(s: string)
    ensures FullMatch(Plus(ALNUM), s) <==> s != "" && forall i | 0 <= i < |s| :: LowAlnum(s[i])
  {
    PlusOfChars(Either(Range('a', 'z'), Range('0', '9')), s);
    forall c: char ensures InClass(Either(Range('a', 'z'), Range('0', '9')), c) <==> LowAlnum(c) {}
  }

  lemma SeparatorMeans(c: char)
    ensures FullMatch(SEPARATOR, [c]) <==> c in "._-"
  {
    assert InClass(Either(Range('-', '.'), Range('_', '_')), c)
        == (InClass(Range('-', '.'), c) || InClass(Range('_', '_'), c));
  }

  /** The run of letters and digits that `s` goes on with. */
  lemma {:induction false} Run(s: string, from: nat) returns (to: nat)
    requires Parted(s) && from < |s| && LowAlnum(s[from])
    ensures from < to <= |s| && (forall i | from <= i < to :: LowAlnum(s[i]))
    ensures to < |s| ==> s[to] in "._-"
    decreases |s| - from
  {
    to := from + 1;
    if to < |s| && LowAlnum(s[to]) { to := Run(s, to); }
  }

  const PARTED_PIECE := Cat(SEPARATOR, Plus(ALNUM))

  lemma PieceMeans(s: string)
    ensures FullMatch(PARTED_PIECE, s) <==>
              |s| >= 2 && s[0] in "._-" && forall i | 1 <= i < |s| :: LowAlnum(s[i])
  {
    if s != "" {
      SeparatorMeans(s[0]);
      AlnumMeans(s[1..]);
      assert s[..1] == [s[0]] && forall i | 1 <= i < |s| :: s[i] == s[1..][i - 1];
      if FullMatch(PARTED_PIECE, s) {
        var i := CatSplit(SEPARATOR, Plus(ALNUM), s);
        assert i == 1;
      }
      if FullMatch(SEPARATOR, s[..1]) && FullMatch(Plus(ALNUM), s[1..]) { Matches(SEPARATOR, Plus(ALNUM), s, 1); }
    }
  }

  lemma PartedParts(s: string, i: nat)
    requires i <= |s|
    ensures Parted(s) && (i > 0 ==> LowAlnum(s[i - 1])) ==> Parted(s[..i]) && Parted(s[i..])
    ensures Parted(s[..i]) && Parted(s[i..]) ==> Parted(s)
  {
    forall k | 0 <= k < |s| ensures k < i ==> s[k] == s[..i][k] {}
    forall k | i <= k < |s| ensures s[k] == s[i..][k - i] {}
    if Parted(s[..i]) && Parted(s[i..]) {
      forall k | 0 <= k < |s| - 1 ensures LowAlnum(s[k]) || LowAlnum(s[k + 1]) {
        if k < i - 1 {
          assert s[k] == s[..i][k] && s[k + 1] == s[..i][k + 1];
        } else if k == i - 1 {
          assert s[k] == s[..i][i - 1];
        } else {
          assert s[k] == s[i..][k - i] && s[k + 1] == s[i..][k + 1 - i];
        }
      }
      assert s != "" ==> s[|s| - 1] == if i < |s| then s[i..][|s| - 1 - i] else s[..i][i - 1];
    }
  }

  lemma {:induction false} TailIsMatched(s: string)
    requires Parted(s) && (s != "" ==> s[0] in "._-")
    ensures FullMatch(Star(PARTED_PIECE), s)
    decreases |s|
  {
    if s != "" {
      assert LowAlnum(s[1]);
      var to := Run(s, 1);
      PieceMeans(s[..to]);
      PartedParts(s, to);
      TailIsMatched(s[to..]);
    }
  }

  lemma {:induction false} TailIsParted(s: string)
    requires FullMatch(Star(PARTED_PIECE), s)
    ensures Parted(s)
    decreases |s|
  {
    if s != "" {
      var i :| 0 < i <= |s| && FullMatch(PARTED_PIECE, s[..i]) && FullMatch(Star(PARTED_PIECE), s[i..]);
      PieceMeans(s[..i]);
      assert Parted(s[..i]);
      TailIsParted(s[i..]);
      PartedParts(s, i);
    }
  }

  /** One part of an image's path: letters and digits, and single separators between them only. */
  lemma NameMeans(s: string)
    ensures FullMatch(NAME, s) <==> Parted(s) && s != "" && LowAlnum(s[0])
  {
    var first, rest := Plus(ALNUM), Star(PARTED_PIECE);
    if FullMatch(NAME, s) {
      var i := CatSplit(first, rest, s);
      AlnumMeans(s[..i]);
      assert Parted(s[..i]) && s[0] == s[..i][0];
      TailIsParted(s[i..]);
      PartedParts(s, i);
    }
    if Parted(s) && s != "" && LowAlnum(s[0]) {
      var i := Run(s, 0);
      AlnumMeans(s[..i]);
      PartedParts(s, i);
      TailIsMatched(s[i..]);
      Matches(first, rest, s, i);
    }
  }
}
