/**
 * The few Python `str` operations the bot relies on: `isspace` (the set of
 * characters `strip()` and `split()` treat as whitespace), `strip()`,
 * `startswith()` and `split()` without a separator.
 */
module PyStrings {

  /** Python's whitespace: the code points for which `str.isspace()` holds. */
  predicate IsSpace(c: char)
    ensures c == ' ' || c == '\t' || c == '\n' || c == '\r' ==> IsSpace(c)
    ensures '0' <= c <= '9' || 'a' <= c <= 'z' || 'A' <= c <= 'Z' || c == '/' || c == '-' ==> !IsSpace(c)
  {
    ('\t' <= c <= '\r')                       // tab, line feed, vertical tab, form feed, carriage return
    || ('\U{1C}' <= c <= '\U{1F}')            // file, group, record and unit separators
    || c == ' ' || c == '\U{85}' || c == '\U{A0}' || c == '\U{1680}'
    || ('\U{2000}' <= c <= '\U{200A}')
    || c == '\U{2028}' || c == '\U{2029}' || c == '\U{202F}' || c == '\U{205F}' || c == '\U{3000}'
  }

  /** `s` has no whitespace at either end: what `strip()` returns. */
  predicate Stripped(s: string) {
    s == [] || (!IsSpace(s[0]) && !IsSpace(s[|s| - 1]))
  }

  /** `s.lstrip()`: the suffix of `s` left after dropping every leading whitespace character. */
  function TrimStart(s: string): (r: string)
    ensures |r| <= |s| && r == s[|s| - |r|..]
    ensures forall i :: 0 <= i < |s| - |r| ==> IsSpace(s[i])
    ensures r == [] || !IsSpace(r[0])
    decreases |s|
  {
    if |s| > 0 && IsSpace(s[0]) then TrimStart(s[1..]) else s
  }

  /** `s.rstrip()`: the prefix of `s` left after dropping every trailing whitespace character. */
  function TrimEnd(s: string): (r: string)
    ensures |r| <= |s| && r == s[..|r|]
    ensures forall i :: |r| <= i < |s| ==> IsSpace(s[i])
    ensures r == [] || !IsSpace(r[|r| - 1])
    decreases |s|
  {
    if |s| > 0 && IsSpace(s[|s| - 1]) then TrimEnd(s[..|s| - 1]) else s
  }

  /** `s.strip()`. */
  function Strip(s: string): (r: string)
    ensures Stripped(r)
    ensures |r| <= |s|
  {
    TrimEnd(TrimStart(s))
  }

  /** A string that already has no surrounding whitespace is left alone by `strip()`. */
  lemma StripStripped(s: string)
    requires Stripped(s)
    ensures Strip(s) == s
  {
  }

  /** A string that starts with a non-whitespace character keeps that character, so `strip()` leaves it non-empty. */
  lemma StripKeepsLeadingChar(s: string)
    requires s != [] && !IsSpace(s[0])
    ensures Strip(s) != [] && Strip(s)[0] == s[0]
  {
    assert TrimStart(s) == s;
  }

  /** `s.startswith(prefix)`. */
  predicate StartsWith(s: string, prefix: string)
    ensures StartsWith(s, prefix) <==> prefix <= s
    ensures StartsWith(s, prefix) && prefix != [] ==> s[0] == prefix[0]
  {
    |prefix| <= |s| && s[..|prefix|] == prefix
  }

  /** Length of the leading run of non-whitespace characters of `s`. */
  function WordLength(s: string): (n: nat)
    ensures n <= |s|
    ensures forall i :: 0 <= i < n ==> !IsSpace(s[i])
    ensures n == |s| || IsSpace(s[n])
  {
    if s == [] || IsSpace(s[0]) then 0 else 1 + WordLength(s[1..])
  }

  /** `a` is one word: non-empty, without whitespace. */
  predicate IsWord(a: string) {
    a != [] && forall i :: 0 <= i < |a| ==> !IsSpace(a[i])
  }

  /** `s.split()`: the maximal runs of non-whitespace characters, in order. */
  function Words(s: string): (r: seq<string>)
    ensures forall i :: 0 <= i < |r| ==> IsWord(r[i])
    ensures r == [] <==> forall i :: 0 <= i < |s| ==> IsSpace(s[i])
    decreases |s|
  {
    if s == [] then []
    else if IsSpace(s[0]) then Words(s[1..])
    else
      var n := WordLength(s);
      [s[..n]] + Words(s[n..])
  }

  /** A run of non-whitespace characters followed by whitespace or by the end is one word. */
  lemma {:induction false} WordLengthOfRun(a: string, rest: string)
    requires forall i :: 0 <= i < |a| ==> !IsSpace(a[i])
    requires rest == [] || IsSpace(rest[0])
    ensures WordLength(a + rest) == |a|
    decreases |a|
  {
    if a == [] {
      assert a + rest == rest;
    } else {
      assert (a + rest)[1..] == a[1..] + rest;
      WordLengthOfRun(a[1..], rest);
    }
  }

  /** Leading whitespace does not change `split()`. */
  lemma WordsSkipsSpace(c: char, rest: string)
    requires IsSpace(c)
    ensures Words([c] + rest) == Words(rest)
  {
    assert ([c] + rest)[1..] == rest;
  }

  /** Splitting a word, a whitespace character and a rest gives the word, then the words of the rest. */
  lemma WordsCons(a: string, c: char, rest: string)
    requires IsWord(a) && IsSpace(c)
    ensures Words(a + ([c] + rest)) == [a] + Words(rest)
  {
    var s := a + ([c] + rest);
    WordLengthOfRun(a, [c] + rest);
    assert s[..|a|] == a;
    assert s[|a|..] == [c] + rest;
    WordsSkipsSpace(c, rest);
  }

  /** A single run of non-whitespace characters splits into itself. */
  lemma WordsOne(a: string)
    requires IsWord(a)
    ensures Words(a) == [a]
  {
    WordLengthOfRun(a, []);
    assert a + [] == a;
    assert a[|a|..] == [];
  }

  /** Three words separated by single whitespace characters split into those three words. */
  lemma WordsOfThree(a: string, c1: char, b: string, c2: char, c: string)
    requires IsWord(a) && IsWord(b) && IsWord(c) && IsSpace(c1) && IsSpace(c2)
    ensures Words(a + ([c1] + (b + ([c2] + c)))) == [a, b, c]
  {
    SeqDisplays(a, b, c);
    SeqDisplays(b, c, c);
    WordsOne(c);
    WordsCons(b, c2, c);
    WordsCons(a, c1, b + ([c2] + c));
  }

  /** Prepending to a display, stated apart so the solver need not prove it among string facts. */
  lemma SeqDisplays<T>(a: T, b: T, c: T)
    ensures [a] + [b] == [a, b]
    ensures [a] + [b, c] == [a, b, c]
  {
  }
}
