/** Python string operations the configuration pipeline relies on: `str.split()`, `" ".join`, `str.strip`. */
module Text {

  /** What `str.split()` and `str.strip()` treat as white space. */
  predicate IsSpace(c: char) {
    || '\U{0009}' <= c <= '\U{000D}'
    || '\U{001C}' <= c <= '\U{0020}'
    || c == '\U{0085}' || c == '\U{00A0}' || c == '\U{1680}'
    || '\U{2000}' <= c <= '\U{200A}'
    || c == '\U{2028}' || c == '\U{2029}' || c == '\U{202F}' || c == '\U{205F}' || c == '\U{3000}'
  }

  predicate NoSpace(s: string) {
    forall i | 0 <= i < |s| :: !IsSpace(s[i])
  }

  predicate IsWord(s: string) {
    s != "" && NoSpace(s)
  }

  predicate AllWords(ts: seq<string>) {
    forall i | 0 <= i < |ts| :: IsWord(ts[i])
  }

  /** Length of the longest prefix without white space. */
  function WordLength(s: string): (n: nat)
    ensures n <= |s| && NoSpace(s[..n])
    ensures n < |s| ==> IsSpace(s[n])
  {
    if s == "" || IsSpace(s[0]) then 0
    else
      var n := WordLength(s[1..]);
      assert forall i | 0 < i < 1 + n :: s[i] == s[1..][..n][i - 1];
      1 + n
  }

  /** `s.split()`: the maximal runs of non-space characters, in order. */
  function Split(s: string): (words: seq<string>)
    ensures AllWords(words)
    decreases |s|
  {
    if s == "" then []
    else if IsSpace(s[0]) then Split(s[1..])
    else
      var n := WordLength(s);
      [s[..n]] + Split(s[n..])
  }

  /** `" ".join(ts)` */
  function Join(ts: seq<string>): string {
    if ts == [] then ""
    else if |ts| == 1 then ts[0]
    else ts[0] + " " + Join(ts[1..])
  }

  /** `s.strip()` */
  function Strip(s: string): (r: string)
    ensures r != "" ==> !IsSpace(r[0]) && !IsSpace(r[|r| - 1])
    decreases |s|
  {
    if s == "" then s
    else if IsSpace(s[0]) then Strip(s[1..])
    else if IsSpace(s[|s| - 1]) then Strip(s[..|s| - 1])
    else s
  }

  /** Stripping takes away white space at both ends, and nothing else. */
  lemma {:induction false} StripMeans(s: string) returns (from: nat, to: nat)
    ensures from <= to <= |s| && Strip(s) == s[from..to]
    ensures forall i | 0 <= i < from || to <= i < |s| :: IsSpace(s[i])
    decreases |s|
  {
    from, to := 0, |s|;
    if s != "" && IsSpace(s[0]) {
      from, to := StripMeans(s[1..]);
      assert s[1..][from..to] == s[from + 1..to + 1];
      forall i | to + 1 <= i < |s| ensures IsSpace(s[i]) { assert s[i] == s[1..][i - 1]; }
      forall i | 1 <= i < from + 1 ensures IsSpace(s[i]) { assert s[i] == s[1..][i - 1]; }
      from, to := from + 1, to + 1;
    } else if s != "" && IsSpace(s[|s| - 1]) {
      var front := s[..|s| - 1];
      from, to := StripMeans(front);
      assert front[from..to] == s[from..to];
      forall i | 0 <= i < from || to <= i < |front| ensures IsSpace(s[i]) { assert s[i] == front[i]; }
    }
  }

  lemma {:induction false} WordLengthOfPrefix(w: string, rest: string)
    requires NoSpace(w)
    requires rest == "" || IsSpace(rest[0])
    ensures WordLength(w + rest) == |w|
  {
    if w == "" {
      assert w + rest == rest;
    } else {
      assert (w + rest)[1..] == w[1..] + rest;
      WordLengthOfPrefix(w[1..], rest);
    }
  }

  /** Splitting a joined list of words gives the list back. */
  lemma {:induction false} SplitJoin(ts: seq<string>)
    requires AllWords(ts)
    ensures Split(Join(ts)) == ts
  {
    if ts == [] {
    } else if |ts| == 1 {
      WordLengthOfPrefix(ts[0], "");
      assert ts[0] + "" == ts[0];
      assert ts[0][..|ts[0]|] == ts[0];
      assert ts == [ts[0]];
    } else {
      var w, tail := ts[0], Join(ts[1..]);
      var joined := Join(ts);
      assert joined == w + (" " + tail);
      WordLengthOfPrefix(w, " " + tail);
      assert joined[..|w|] == w && joined[|w|..] == " " + tail;
      assert (" " + tail)[1..] == tail;
      SplitJoin(ts[1..]);
      assert ts == [w] + ts[1..];
    }
  }

  lemma SplitFirst(word: string, rest: string)
    requires IsWord(word) && (rest == "" || IsSpace(rest[0]))
    ensures Split(word + rest) == [word] + Split(rest)
  {
    WordLengthOfPrefix(word, rest);
    assert (word + rest)[..|word|] == word && (word + rest)[|word|..] == rest;
    assert (word + rest)[0] == word[0];
  }

  lemma FirstWord(s: string) returns (word: string, rest: string)
    requires s != "" && !IsSpace(s[0])
    ensures s == word + rest && IsWord(word) && |rest| < |s| && (rest == "" || IsSpace(rest[0]))
  {
    var n := WordLength(s);
    word, rest := s[..n], s[n..];
  }

  lemma JoinParts<T>(a: seq<T>, b: seq<T>, c: seq<T>)
    ensures a + b + c == a + (b + c)
  {
  }

  lemma AppendAfterWord(word: string, rest: string, b: string)
    requires IsWord(word) && (rest == "" || IsSpace(rest[0])) && (b == "" || IsSpace(b[0]))
    requires Split(rest + b) == Split(rest) + Split(b)
    ensures Split(word + rest + b) == Split(word + rest) + Split(b)
  {
    JoinParts(word, rest, b);
    JoinParts([word], Split(rest), Split(b));
    SplitFirst(word, rest);
    var tail := rest + b;
    assert tail == "" || IsSpace(tail[0]) by {
      if rest == "" { assert tail == b; } else { assert tail[0] == rest[0]; }
    }
    SplitFirst(word, tail);
  }

  lemma AppendAfterSpace(c: char, rest: string, b: string)
    requires IsSpace(c) && Split(rest + b) == Split(rest) + Split(b)
    ensures Split([c] + rest + b) == Split([c] + rest) + Split(b)
  {
    assert ([c] + rest + b)[1..] == rest + b && ([c] + rest)[1..] == rest;
  }

  /** Nothing runs together across white space. */
  lemma {:induction false} SplitAppend(a: string, b: string)
    requires b == "" || IsSpace(b[0])
    ensures Split(a + b) == Split(a) + Split(b)
    decreases |a|
  {
    if a == "" {
      assert a + b == b;
    } else if IsSpace(a[0]) {
      var c, rest := a[0], a[1..];
      assert a == [c] + rest;
      SplitAppend(rest, b);
      AppendAfterSpace(c, rest, b);
    } else {
      var word, rest := FirstWord(a);
      SplitAppend(rest, b);
      AppendAfterWord(word, rest, b);
    }
  }

  /** What a joined list splits into: the words of each of its elements, in order. */
  function SplitEach(ts: seq<string>): seq<string> {
    if ts == [] then [] else Split(ts[0]) + SplitEach(ts[1..])
  }

  lemma {:induction false} SplitOfJoin(ts: seq<string>)
    ensures Split(Join(ts)) == SplitEach(ts)
  {
    if |ts| == 1 {
      assert SplitEach(ts[1..]) == [];
    } else if ts != [] {
      var tail := " " + Join(ts[1..]);
      assert Join(ts) == ts[0] + tail;
      SplitAppend(ts[0], tail);
      assert tail[1..] == Join(ts[1..]);
      SplitOfJoin(ts[1..]);
    }
  }

  /** The list comes back exactly when its elements are words. */
  lemma SplitJoinIff(ts: seq<string>)
    ensures Split(Join(ts)) == ts <==> AllWords(ts)
  {
    if AllWords(ts) { SplitJoin(ts); }
  }

  lemma JoinEmpty(ts: seq<string>)
    requires AllWords(ts)
    ensures Join(ts) == "" <==> ts == []
  {
    if |ts| > 0 { assert IsWord(ts[0]); }
  }
}
