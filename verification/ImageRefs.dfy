/** Image references `image[:tag]`, where the image may itself hold a `:`, before a registry's port. */
module ImageRefs {
  import opened Prelude
  import opened Regex
  import opened ArgvPolicy

  const ALNUM := Char(Either(Range('a', 'z'), Range('0', '9')))
  const SEPARATOR := Char(Either(Range('-', '.'), Range('_', '_')))
  const NAME := Cat(Plus(ALNUM), Star(Cat(SEPARATOR, Plus(ALNUM))))
  const PORT := Cat(One(':'), Plus(Char(Range('0', '9'))))
  const REGISTRY := Cat(NAME, Cat(Opt(PORT), One('/')))
  const PATH := Cat(NAME, Star(Cat(One('/'), NAME)))

  /** `(?:NAME(?::[0-9]+)?/)?NAME(?:/NAME)*` */
  const IMAGE := Cat(Opt(REGISTRY), PATH)

  const WORD_CHAR := Either(Either(Range('A', 'Z'), Range('a', 'z')), Either(Range('0', '9'), Range('_', '_')))

  /** `[A-Za-z0-9_][A-Za-z0-9._-]{0,127}` */
  const TAG := Cat(Char(WORD_CHAR), AtMost(Char(Either(WORD_CHAR, Range('-', '.'))), 127))

  /** The two formats an image reference is checked against. */
  datatype Grammar = Grammar(image: Re, tag: Re)

  const DOCKER_IMAGES := Grammar(IMAGE, TAG)

  /** Where `rpartition(":")` cuts: the last `:`, or the length when there is none. */
  function LastColon(s: string): (n: nat)
    ensures n <= |s| && (n < |s| ==> s[n] == ':' && ':' !in s[n + 1..])
    ensures n == |s| ==> ':' !in s
  {
    if s == "" then 0
    else
      var last := |s| - 1;
      assert s == s[..last] + [s[last]];
      if s[last] == ':' then last
      else
        var n := LastColon(s[..last]);
        assert n < last ==> s[n + 1..] == s[..last][n + 1..] + [s[last]];
        if n == last then |s| else n
  }

  function ValidateImageName(g: Grammar, image: string): Result<string, PolicyError> {
    if FullMatch(g.image, image) then Ok(image) else Err(BadImage(image))
  }

  function ValidateTag(g: Grammar, tag: string): Result<string, PolicyError> {
    if FullMatch(g.tag, tag) then Ok(tag) else Err(BadTag(tag))
  }

  datatype Parts = Parts(image: string, tag: Option<string>)

  /** The split `validate_image_ref` makes. */
  function Divide(ref: string): Parts {
    var n := LastColon(ref);
    if n < |ref| && '/' !in ref[n + 1..] then Parts(ref[..n], Some(ref[n + 1..])) else Parts(ref, None)
  }

  function ValidateImageRef(g: Grammar, ref: string): Result<string, PolicyError> {
    var parts := Divide(ref);
    match ValidateImageName(g, parts.image)
    case Err(e) => Err(e)
    case Ok(_) =>
      if parts.tag.None? then Ok(ref)
      else match ValidateTag(g, parts.tag.value)
        case Err(e) => Err(e)
        case Ok(_) => Ok(ref)
  }

  // ---------------------------------------------------------------- where a `:` can be

  lemma PathHasNoColon(s: string)
    requires FullMatch(PATH, s)
    ensures ':' !in s
  {
    NameMentions(':');
    assert Mentions(PATH, ':') == (Mentions(NAME, ':') || Mentions(Star(Cat(One('/'), NAME)), ':'));
    assert Mentions(Star(Cat(One('/'), NAME)), ':') == Mentions(Cat(One('/'), NAME), ':');
    forall k | 0 <= k < |s| ensures s[k] != ':' { MatchMentions(PATH, s, k); }
  }

  lemma NameMentions(c: char)
    ensures Mentions(NAME, c) ==> InClass(ALNUM.chars, c) || InClass(SEPARATOR.chars, c)
  {
    assert Mentions(Plus(ALNUM), c) == (Mentions(ALNUM, c) || Mentions(Star(ALNUM), c));
    assert Mentions(Star(Cat(SEPARATOR, Plus(ALNUM))), c) == Mentions(Cat(SEPARATOR, Plus(ALNUM)), c);
    assert Mentions(Cat(SEPARATOR, Plus(ALNUM)), c) == (Mentions(SEPARATOR, c) || Mentions(Plus(ALNUM), c));
  }

  lemma {:induction false} AtMostMentions(r: Re, n: nat, c: char)
    ensures Mentions(AtMost(r, n), c) ==> Mentions(r, c)
  {
    if n > 0 {
      AtMostMentions(r, n - 1, c);
      assert Mentions(AtMost(r, n), c) == Mentions(Cat(r, AtMost(r, n - 1)), c);
    }
  }

  lemma TagMentions(c: char)
    requires Mentions(TAG, c)
    ensures c != ':' && c != '/'
  {
    var rest := Char(Either(WORD_CHAR, Range('-', '.')));
    AtMostMentions(rest, 127, c);
    WordChar(c);
    assert Mentions(rest, c) == (InClass(WORD_CHAR, c) || InClass(Range('-', '.'), c));
  }

  lemma WordChar(c: char)
    ensures InClass(WORD_CHAR, c) ==> c != ':' && c != '/'
  {
    var letters, others := Either(Range('A', 'Z'), Range('a', 'z')), Either(Range('0', '9'), Range('_', '_'));
    assert InClass(letters, c) == ('A' <= c <= 'Z' || 'a' <= c <= 'z');
    assert InClass(others, c) == ('0' <= c <= '9' || c == '_');
    assert InClass(WORD_CHAR, c) == (InClass(letters, c) || InClass(others, c));
  }

  lemma TagHasNoColonOrSlash(tag: string)
    requires FullMatch(TAG, tag)
    ensures ':' !in tag && '/' !in tag
  {
    forall k | 0 <= k < |tag| ensures tag[k] != ':' && tag[k] != '/' {
      MatchMentions(TAG, tag, k);
      TagMentions(tag[k]);
    }
  }

  lemma CatSplit(a: Re, b: Re, s: string) returns (i: nat)
    requires FullMatch(Cat(a, b), s)
    ensures i <= |s| && FullMatch(a, s[..i]) && FullMatch(b, s[i..])
  {
    i :| 0 <= i <= |s| && FullMatch(a, s[..i]) && FullMatch(b, s[i..]);
  }

  lemma EndsIn(a: Re, b: Re, c: char, s: string)
    requires FullMatch(Cat(a, Cat(b, One(c))), s)
    ensures s != "" && s[|s| - 1] == c
  {
    var i := CatSplit(a, Cat(b, One(c)), s);
    var j := CatSplit(b, One(c), s[i..]);
    assert s[i..][j..] == s[i + j..] == [s[i + j]];
  }

  /** In a valid image name every `:` has a `/` after it. */
  lemma ColonThenSlash(image: string, k: nat)
    requires FullMatch(IMAGE, image) && k < |image| && image[k] == ':'
    ensures '/' in image[k + 1..]
  {
    var i := CatSplit(Opt(REGISTRY), PATH, image);
    PathHasNoColon(image[i..]);
    SlashAfter(image, i, k);
  }

  lemma SlashAfter(image: string, i: nat, k: nat)
    requires i <= |image| && FullMatch(Opt(REGISTRY), image[..i]) && ':' !in image[i..]
    requires k < |image| && image[k] == ':'
    ensures '/' in image[k + 1..]
  {
    forall j | i <= j < |image| ensures image[j] != ':' { assert image[i..][j - i] == image[j]; }
    EndsIn(NAME, Opt(PORT), '/', image[..i]);
    assert image[k + 1..][i - 1 - (k + 1)] == '/';
  }

  // ---------------------------------------------------------------- the split is right, and the only one

  lemma {:induction false} LastColonIs(s: string, n: nat)
    requires n < |s| && s[n] == ':' && forall i | n < i < |s| :: s[i] != ':'
    ensures LastColon(s) == n
  {
    if n < |s| - 1 { LastColonIs(s[..|s| - 1], n); }
  }

  /** Formats in which the last `:` decides: tags hold no `:` or `/`, and a `:` in an image has a `/` after it. */
  ghost predicate Unambiguous(g: Grammar) {
    && (forall tag | FullMatch(g.tag, tag) :: ':' !in tag && '/' !in tag)
    && (forall image: string, k: nat | FullMatch(g.image, image) && k < |image| && image[k] == ':' ::
          '/' in image[k + 1..])
  }

  lemma DockerImagesAreUnambiguous()
    ensures Unambiguous(DOCKER_IMAGES)
  {
    forall tag | FullMatch(TAG, tag) ensures ':' !in tag && '/' !in tag { TagHasNoColonOrSlash(tag); }
    forall image: string, k: nat | FullMatch(IMAGE, image) && k < |image| && image[k] == ':'
      ensures '/' in image[k + 1..]
    {
      ColonThenSlash(image, k);
    }
  }

  /** A valid image with a valid tag is accepted and split back into the two. */
  lemma TaggedImageIsAccepted(g: Grammar, image: string, tag: string)
    requires Unambiguous(g) && FullMatch(g.image, image) && FullMatch(g.tag, tag)
    ensures Divide(image + ":" + tag) == Parts(image, Some(tag))
    ensures ValidateImageRef(g, image + ":" + tag) == Ok(image + ":" + tag)
  {
    var ref := image + ":" + tag;
    assert ref[|image| + 1..] == tag && ref[..|image|] == image;
    forall i | |image| < i < |ref| ensures ref[i] != ':' { assert ref[i] == tag[i - |image| - 1]; }
    LastColonIs(ref, |image|);
  }

  /** A valid image alone is accepted and never split, registry port or not. */
  lemma BareImageIsAccepted(g: Grammar, image: string)
    requires Unambiguous(g) && FullMatch(g.image, image)
    ensures Divide(image) == Parts(image, None)
    ensures ValidateImageRef(g, image) == Ok(image)
  {
    var n := LastColon(image);
    if n < |image| { assert '/' in image[n + 1..]; }
  }

  predicate IsTagged(g: Grammar, ref: string, image: string, tag: string) {
    ref == image + ":" + tag && FullMatch(g.image, image) && FullMatch(g.tag, tag)
  }

  /** Accepted is: a valid image, or a valid image, `:` and a valid tag. Never both, and in one way only. */
  lemma AcceptedReferences(g: Grammar, ref: string)
    requires Unambiguous(g)
    ensures ValidateImageRef(g, ref).Ok?
        <==> FullMatch(g.image, ref) || exists image, tag :: IsTagged(g, ref, image, tag)
    ensures FullMatch(g.image, ref) ==> forall image, tag :: !IsTagged(g, ref, image, tag)
    ensures forall image, tag | IsTagged(g, ref, image, tag) :: Divide(ref) == Parts(image, Some(tag))
  {
    var parts := Divide(ref);
    if ValidateImageRef(g, ref).Ok? && parts.tag.Some? {
      assert ref == parts.image + ":" + parts.tag.value;
      assert IsTagged(g, ref, parts.image, parts.tag.value);
    }
    if FullMatch(g.image, ref) { BareImageIsAccepted(g, ref); }
    forall image, tag | IsTagged(g, ref, image, tag)
      ensures Divide(ref) == Parts(image, Some(tag)) && ValidateImageRef(g, ref).Ok?
    {
      TaggedImageIsAccepted(g, image, tag);
    }
  }

  lemma CatMatch(a: Re, b: Re, s: string, t: string)
    requires FullMatch(a, s) && FullMatch(b, t)
    ensures FullMatch(Cat(a, b), s + t)
  {
    assert (s + t)[..|s|] == s && (s + t)[|s|..] == t;
  }

  lemma PortedRegistryMatches(host: string, port: string)
    requires FullMatch(NAME, host) && FullMatch(Plus(Char(Range('0', '9'))), port)
    ensures FullMatch(REGISTRY, host + ((":" + port) + "/"))
  {
    CatMatch(One(':'), Plus(Char(Range('0', '9'))), ":", port);
    CatMatch(Opt(PORT), One('/'), ":" + port, "/");
    CatMatch(NAME, Cat(Opt(PORT), One('/')), host, (":" + port) + "/");
  }

  /** Images behind a registry with a port are among the valid ones. */
  lemma PortedImageIsValid(host: string, port: string, path: string)
    requires FullMatch(NAME, host) && FullMatch(Plus(Char(Range('0', '9'))), port) && FullMatch(PATH, path)
    ensures FullMatch(IMAGE, (host + ((":" + port) + "/")) + path)
  {
    PortedRegistryMatches(host, port);
    CatMatch(Opt(REGISTRY), PATH, host + ((":" + port) + "/"), path);
  }
}
