/** Regular expressions as the argv policy uses them: `fullmatch` is membership in the language. */
module Regex {
  import opened Text

  /** Python's `\d` on a `str`: the decimal digits of Unicode 14 (Python 3.11). */
  predicate IsDecimal(c: char) {
    || '\U{0030}' <= c <= '\U{0039}' || '\U{0660}' <= c <= '\U{0669}' || '\U{06F0}' <= c <= '\U{06F9}'
    || '\U{07C0}' <= c <= '\U{07C9}' || '\U{0966}' <= c <= '\U{096F}' || '\U{09E6}' <= c <= '\U{09EF}'
    || '\U{0A66}' <= c <= '\U{0A6F}' || '\U{0AE6}' <= c <= '\U{0AEF}' || '\U{0B66}' <= c <= '\U{0B6F}'
    || '\U{0BE6}' <= c <= '\U{0BEF}' || '\U{0C66}' <= c <= '\U{0C6F}' || '\U{0CE6}' <= c <= '\U{0CEF}'
    || '\U{0D66}' <= c <= '\U{0D6F}' || '\U{0DE6}' <= c <= '\U{0DEF}' || '\U{0E50}' <= c <= '\U{0E59}'
    || '\U{0ED0}' <= c <= '\U{0ED9}' || '\U{0F20}' <= c <= '\U{0F29}' || '\U{1040}' <= c <= '\U{1049}'
    || '\U{1090}' <= c <= '\U{1099}' || '\U{17E0}' <= c <= '\U{17E9}' || '\U{1810}' <= c <= '\U{1819}'
    || '\U{1946}' <= c <= '\U{194F}' || '\U{19D0}' <= c <= '\U{19D9}' || '\U{1A80}' <= c <= '\U{1A89}'
    || '\U{1A90}' <= c <= '\U{1A99}' || '\U{1B50}' <= c <= '\U{1B59}' || '\U{1BB0}' <= c <= '\U{1BB9}'
    || '\U{1C40}' <= c <= '\U{1C49}' || '\U{1C50}' <= c <= '\U{1C59}' || '\U{A620}' <= c <= '\U{A629}'
    || '\U{A8D0}' <= c <= '\U{A8D9}' || '\U{A900}' <= c <= '\U{A909}' || '\U{A9D0}' <= c <= '\U{A9D9}'
    || '\U{A9F0}' <= c <= '\U{A9F9}' || '\U{AA50}' <= c <= '\U{AA59}' || '\U{ABF0}' <= c <= '\U{ABF9}'
    || '\U{FF10}' <= c <= '\U{FF19}' || '\U{104A0}' <= c <= '\U{104A9}' || '\U{10D30}' <= c <= '\U{10D39}'
    || '\U{11066}' <= c <= '\U{1106F}' || '\U{110F0}' <= c <= '\U{110F9}' || '\U{11136}' <= c <= '\U{1113F}'
    || '\U{111D0}' <= c <= '\U{111D9}' || '\U{112F0}' <= c <= '\U{112F9}' || '\U{11450}' <= c <= '\U{11459}'
    || '\U{114D0}' <= c <= '\U{114D9}' || '\U{11650}' <= c <= '\U{11659}' || '\U{116C0}' <= c <= '\U{116C9}'
    || '\U{11730}' <= c <= '\U{11739}' || '\U{118E0}' <= c <= '\U{118E9}' || '\U{11950}' <= c <= '\U{11959}'
    || '\U{11C50}' <= c <= '\U{11C59}' || '\U{11D50}' <= c <= '\U{11D59}' || '\U{11DA0}' <= c <= '\U{11DA9}'
    || '\U{16A60}' <= c <= '\U{16A69}' || '\U{16AC0}' <= c <= '\U{16AC9}' || '\U{16B50}' <= c <= '\U{16B59}'
    || '\U{1D7CE}' <= c <= '\U{1D7FF}' || '\U{1E140}' <= c <= '\U{1E149}' || '\U{1E2F0}' <= c <= '\U{1E2F9}'
    || '\U{1E950}' <= c <= '\U{1E959}' || '\U{1FBF0}' <= c <= '\U{1FBF9}'
  }

  datatype Class = Range(low: char, high: char) | Decimal | Either(left: Class, right: Class)

  predicate InClass(k: Class, c: char) {
    match k
    case Range(low, high) => low <= c <= high
    case Decimal => IsDecimal(c)
    case Either(left, right) => InClass(left, c) || InClass(right, c)
  }

  datatype Re = Empty | Char(chars: Class) | Cat(first: Re, second: Re) | Alt(left: Re, right: Re) | Star(body: Re)

  function One(c: char): Re {
    Char(Range(c, c))
  }

  function Literal(s: string): Re {
    if s == "" then Empty else Cat(One(s[0]), Literal(s[1..]))
  }

  /** `(word|word|...)` */
  function AnyOf(words: seq<string>): Re
    requires words != []
  {
    if |words| == 1 then Literal(words[0]) else Alt(Literal(words[0]), AnyOf(words[1..]))
  }

  function Opt(r: Re): Re {
    Alt(Empty, r)
  }

  function Plus(r: Re): Re {
    Cat(r, Star(r))
  }

  /** `r{0,n}` */
  function AtMost(r: Re, n: nat): Re {
    if n == 0 then Empty else Opt(Cat(r, AtMost(r, n - 1)))
  }

  predicate FullMatch(r: Re, s: string)
    decreases r, |s|
  {
    match r
    case Empty => s == ""
    case Char(k) => |s| == 1 && InClass(k, s[0])
    case Cat(first, second) => exists i | 0 <= i <= |s| :: FullMatch(first, s[..i]) && FullMatch(second, s[i..])
    case Alt(left, right) => FullMatch(left, s) || FullMatch(right, s)
    case Star(body) => s == "" || exists i | 0 < i <= |s| :: FullMatch(body, s[..i]) && FullMatch(r, s[i..])
  }

  /** The characters a match can hold. */
  predicate Mentions(r: Re, c: char) {
    match r
    case Empty => false
    case Char(k) => InClass(k, c)
    case Cat(first, second) => Mentions(first, c) || Mentions(second, c)
    case Alt(left, right) => Mentions(left, c) || Mentions(right, c)
    case Star(body) => Mentions(body, c)
  }

  predicate Nullable(r: Re) {
    match r
    case Empty => true
    case Char(k) => false
    case Cat(first, second) => Nullable(first) && Nullable(second)
    case Alt(left, right) => Nullable(left) || Nullable(right)
    case Star(body) => true
  }

  lemma {:induction false} MatchMentions(r: Re, s: string, k: nat)
    requires FullMatch(r, s) && k < |s|
    ensures Mentions(r, s[k])
    decreases r, |s|
  {
    match r {
      case Empty =>
      case Char(_) =>
      case Cat(first, second) =>
        var i :| 0 <= i <= |s| && FullMatch(first, s[..i]) && FullMatch(second, s[i..]);
        if k < i { MatchMentions(first, s[..i], k); } else { MatchMentions(second, s[i..], k - i); }
      case Alt(left, right) =>
        if FullMatch(left, s) { MatchMentions(left, s, k); } else { MatchMentions(right, s, k); }
      case Star(body) =>
        var i :| 0 < i <= |s| && FullMatch(body, s[..i]) && FullMatch(r, s[i..]);
        if k < i { MatchMentions(body, s[..i], k); } else { MatchMentions(r, s[i..], k - i); }
    }
  }

  lemma {:induction false} EmptyMatch(r: Re)
    ensures FullMatch(r, "") <==> Nullable(r)
  {
    match r {
      case Empty =>
      case Char(_) =>
      case Cat(first, second) =>
        EmptyMatch(first);
        EmptyMatch(second);
        assert ""[..0] == "" && ""[0..] == "";
      case Alt(left, right) =>
        EmptyMatch(left);
        EmptyMatch(right);
      case Star(_) =>
    }
  }

  lemma {:induction false} LiteralMatch(word: string, s: string)
    ensures FullMatch(Literal(word), s) <==> s == word
  {
    if word != "" {
      if FullMatch(Literal(word), s) {
        var i :| 0 <= i <= |s| && FullMatch(One(word[0]), s[..i]) && FullMatch(Literal(word[1..]), s[i..]);
        LiteralMatch(word[1..], s[i..]);
        assert s == s[..i] + s[i..] && word == [word[0]] + word[1..];
      }
      if s == word {
        LiteralMatch(word[1..], s[1..]);
        assert FullMatch(One(word[0]), s[..1]);
      }
    }
  }

  lemma {:induction false} AnyOfMatch(words: seq<string>, s: string)
    requires words != []
    ensures FullMatch(AnyOf(words), s) <==> s in words
  {
    LiteralMatch(words[0], s);
    if |words| > 1 {
      AnyOfMatch(words[1..], s);
      assert words == [words[0]] + words[1..];
    }
  }

  /** A match is a word when its expression mentions no white space and does not match "". */
  lemma MatchIsWord(r: Re, s: string)
    requires FullMatch(r, s) && !Nullable(r) && forall c: char | Mentions(r, c) :: !IsSpace(c)
    ensures IsWord(s)
  {
    EmptyMatch(r);
    forall i | 0 <= i < |s| ensures !IsSpace(s[i]) { MatchMentions(r, s, i); }
  }
}
