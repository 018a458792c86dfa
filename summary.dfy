/**
 * `simple_summarize` of modules/summary.py: strip the text, cut it to
 * `max_chars`, split it into paragraphs on blank lines ("\n\n"), strip every
 * paragraph, drop the blank ones, and join the first six again with "\n\n".
 */
module Summary {
  import opened PyStrings

  /** The paragraph separator, a blank line. */
  const Sep: string := "\n\n"

  /** How many paragraphs the summary keeps. */
  const MaxParagraphs: nat := 6

  /** The default of `max_chars`, the value every caller in the bot uses. */
  const DefaultMaxChars: int := 2000

  /** The smaller of two integers. */
  function Min(a: int, b: int): int { if a <= b then a else b }

  /** `s` has no blank line inside it: no two consecutive line feeds. */
  predicate NoSep(s: string) {
    forall i :: 0 <= i < |s| - 1 ==> !(s[i] == '\n' && s[i + 1] == '\n')
  }

  /**
   * `s.split("\n\n")`: the pieces between the separators found scanning from
   * the left, never overlapping; there is always at least one piece, and the
   * first piece is a prefix of `s`.
   */
  function Split(s: string): (r: seq<string>)
    ensures |r| >= 1
    ensures r[0] <= s
    decreases |s|
  {
    if |s| < 2 then [s]
    else if s[0] == '\n' && s[1] == '\n' then [""] + Split(s[2..])
    else
      var rest := Split(s[1..]);
      [[s[0]] + rest[0]] + rest[1..]
  }

  /** `"\n\n".join(ps)`: the pieces with one separator between each two, and no other characters. */
  function Join(ps: seq<string>): string {
    if |ps| == 0 then ""
    else if |ps| == 1 then ps[0]
    else ps[0] + Sep + Join(ps[1..])
  }

  /** Joining the pieces of a split gives the string back. */
  lemma {:induction false} JoinSplit(s: string)
    ensures Join(Split(s)) == s
    decreases |s|
  {
    if |s| < 2 {
    } else if s[0] == '\n' && s[1] == '\n' {
      JoinSplit(s[2..]);
      assert Split(s) == [""] + Split(s[2..]);
      assert s == Sep + s[2..];
    } else {
      var rest := Split(s[1..]);
      JoinSplit(s[1..]);
      assert Split(s) == [[s[0]] + rest[0]] + rest[1..];
      assert rest == [rest[0]] + rest[1..];
      JoinConsHead(s[0], rest[0], rest[1..]);
      assert s == [s[0]] + s[1..];
    }
  }

  /** Putting a character in front of the first piece puts it in front of the join. */
  lemma JoinConsHead(c: char, p: string, rest: seq<string>)
    ensures Join([[c] + p] + rest) == [c] + Join([p] + rest)
  {
    JoinCons([c] + p, rest);
    JoinCons(p, rest);
    if rest != [] {
      var j := Join(rest);
      assert ([c] + p) + Sep + j == [c] + (p + Sep + j);
    }
  }

  /** The join of a first piece and the rest: the piece alone, or the piece, a separator and the rest's join. */
  lemma JoinCons(x: string, rest: seq<string>)
    ensures Join([x] + rest) == if rest == [] then x else x + Sep + Join(rest)
  {
    assert ([x] + rest)[0] == x && ([x] + rest)[1..] == rest;
  }

  /** No piece of a split contains the separator. */
  lemma {:induction false} SplitPiecesNoSep(s: string)
    ensures forall i :: 0 <= i < |Split(s)| ==> NoSep(Split(s)[i])
    decreases |s|
  {
    if |s| < 2 {
    } else if s[0] == '\n' && s[1] == '\n' {
      SplitPiecesNoSep(s[2..]);
      assert Split(s) == [""] + Split(s[2..]);
    } else {
      var rest := Split(s[1..]);
      SplitPiecesNoSep(s[1..]);
      var first := [s[0]] + rest[0];
      assert Split(s) == [first] + rest[1..];
      assert NoSep(rest[0]);
      forall i | 0 <= i < |first| - 1
        ensures !(first[i] == '\n' && first[i + 1] == '\n')
      {
        if i == 0 {
          assert first[1] == rest[0][0] == s[1];
        } else {
          assert first[i] == rest[0][i - 1] && first[i + 1] == rest[0][i];
        }
      }
    }
  }

  /** A string without a separator is split into itself alone. */
  lemma {:induction false} SplitNoSep(p: string)
    requires NoSep(p)
    ensures Split(p) == [p]
    decreases |p|
  {
    if |p| >= 2 {
      assert NoSep(p[1..]) by {
        forall i | 0 <= i < |p[1..]| - 1
          ensures !(p[1..][i] == '\n' && p[1..][i + 1] == '\n')
        {
          assert p[1..][i] == p[i + 1] && p[1..][i + 1] == p[i + 2];
        }
      }
      SplitNoSep(p[1..]);
      assert [p[0]] + p[1..] == p;
    }
  }

  /**
   * A first piece without a separator and not ending in a line feed comes
   * back out of the split of `p + "\n\n" + x` unchanged.
   */
  lemma {:induction false} SplitCons(p: string, x: string)
    requires NoSep(p)
    requires p == [] || p[|p| - 1] != '\n'
    ensures Split(p + Sep + x) == [p] + Split(x)
    decreases |p|
  {
    var s := p + Sep + x;
    if p == [] {
      assert s == Sep + x && s[2..] == x;
    } else {
      assert !(s[0] == '\n' && s[1] == '\n') by {
        if |p| == 1 { assert s[0] == p[0]; } else { assert s[0] == p[0] && s[1] == p[1]; }
      }
      var p' := p[1..];
      assert NoSep(p') by {
        forall i | 0 <= i < |p'| - 1 ensures !(p'[i] == '\n' && p'[i + 1] == '\n') {
          assert p'[i] == p[i + 1] && p'[i + 1] == p[i + 2];
        }
      }
      assert s[1..] == p' + Sep + x;
      SplitCons(p', x);
      assert Split(s) == [[s[0]] + p'] + Split(x);
      assert [s[0]] + p' == p;
    }
  }

  /** A paragraph the summary can emit: non-empty, stripped, without a blank line inside. */
  predicate Clean(p: string) {
    p != [] && Stripped(p) && NoSep(p)
  }

  /** Splitting the join of clean paragraphs gives the paragraphs back. */
  lemma {:induction false} SplitJoin(ps: seq<string>)
    requires ps != []
    requires forall i :: 0 <= i < |ps| ==> Clean(ps[i])
    ensures Split(Join(ps)) == ps
  {
    if |ps| == 1 {
      SplitNoSep(ps[0]);
    } else {
      assert IsSpace('\n');
      SplitJoin(ps[1..]);
      SplitCons(ps[0], Join(ps[1..]));
    }
  }

  /** `[p.strip() for p in pieces if p.strip()]`. */
  function Paragraphs(pieces: seq<string>): (r: seq<string>)
    ensures |r| <= |pieces|
    ensures forall i :: 0 <= i < |r| ==> r[i] != [] && Stripped(r[i])
  {
    if pieces == [] then []
    else
      var q := Strip(pieces[0]);
      (if q == [] then [] else [q]) + Paragraphs(pieces[1..])
  }

  /** Stripping keeps a string free of blank lines: the result is a slice of it. */
  lemma StripKeepsNoSep(s: string)
    requires NoSep(s)
    ensures NoSep(Strip(s))
  {
    var t := TrimStart(s);
    var k := |s| - |t|;
    assert NoSep(t) by {
      forall i | 0 <= i < |t| - 1 ensures !(t[i] == '\n' && t[i + 1] == '\n') {
        assert t[i] == s[k + i] && t[i + 1] == s[k + i + 1];
      }
    }
    var u := TrimEnd(t);
    forall i | 0 <= i < |u| - 1 ensures !(u[i] == '\n' && u[i + 1] == '\n') {
      assert u[i] == t[i] && u[i + 1] == t[i + 1];
    }
  }

  /** Paragraphs taken from pieces without blank lines have none either. */
  lemma {:induction false} ParagraphsClean(pieces: seq<string>)
    requires forall i :: 0 <= i < |pieces| ==> NoSep(pieces[i])
    ensures forall i :: 0 <= i < |Paragraphs(pieces)| ==> Clean(Paragraphs(pieces)[i])
  {
    if pieces != [] {
      var q := Strip(pieces[0]);
      var rest := Paragraphs(pieces[1..]);
      StripKeepsNoSep(pieces[0]);
      ParagraphsClean(pieces[1..]);
      assert q == [] || Clean(q);
      var r := Paragraphs(pieces);
      assert r == (if q == [] then [] else [q]) + rest;
      forall i | 0 <= i < |r| ensures Clean(r[i]) {
        if q != [] && i == 0 {
          assert r[i] == q;
        } else {
          assert r[i] == rest[i - |r| + |rest|];
        }
      }
    }
  }

  /** Paragraphs that are already clean pass through unchanged. */
  lemma {:induction false} ParagraphsOfClean(ps: seq<string>)
    requires forall i :: 0 <= i < |ps| ==> Clean(ps[i])
    ensures Paragraphs(ps) == ps
  {
    if ps != [] {
      StripStripped(ps[0]);
      ParagraphsOfClean(ps[1..]);
      assert ps == [ps[0]] + ps[1..];
    }
  }

  /**
   * `if len(text) > max_chars: text = text[:max_chars]`, with Python's slice:
   * a negative `max_chars` counts from the end.
   */
  function Truncate(t: string, maxChars: int): (r: string)
    ensures r <= t
    ensures maxChars >= 0 ==> |r| == Min(|t|, maxChars)
    ensures maxChars < 0 ==> |r| == if |t| + maxChars > 0 then |t| + maxChars else 0
  {
    if |t| <= maxChars then t
    else if maxChars >= 0 then t[..maxChars]
    else if |t| + maxChars > 0 then t[..|t| + maxChars]
    else []
  }

  /** The stripped text cut to `maxChars`: everything the summary is made of. */
  function Text(raw: string, maxChars: int): (r: string)
    ensures r <= Strip(raw)
    ensures maxChars >= 0 ==> |r| == Min(|Strip(raw)|, maxChars)
  {
    Truncate(Strip(raw), maxChars)
  }

  /** The paragraphs the summary keeps: `paragraphs[:6]`. */
  function Selected(raw: string, maxChars: int): (r: seq<string>)
    ensures |r| <= MaxParagraphs
    ensures AllClean(r)
  {
    var ps := Paragraphs(Split(Text(raw, maxChars)));
    FirstParagraphsClean(Text(raw, maxChars));
    ps[..Min(MaxParagraphs, |ps|)]
  }

  /** Every paragraph of `ps` is clean. */
  predicate AllClean(ps: seq<string>) {
    forall i :: 0 <= i < |ps| ==> Clean(ps[i])
  }

  /** The first up-to-six paragraphs of any text are clean. */
  lemma FirstParagraphsClean(text: string)
    ensures var ps := Paragraphs(Split(text));
      AllClean(ps[..Min(MaxParagraphs, |ps|)])
  {
    var ps := Paragraphs(Split(text));
    var sel := ps[..Min(MaxParagraphs, |ps|)];
    SplitPiecesNoSep(text);
    ParagraphsClean(Split(text));
    forall i | 0 <= i < |sel| ensures Clean(sel[i]) {
      assert sel[i] == ps[i];
    }
  }

  /**
   * `simple_summarize(raw_text, max_chars)`: never longer than the stripped,
   * truncated text, and without whitespace at either end whenever paragraphs
   * were found.
   */
  function Summarize(raw: string, maxChars: int): (r: string)
    ensures |r| <= |Text(raw, maxChars)|
    ensures Paragraphs(Split(Text(raw, maxChars))) != [] ==> Stripped(r)
  {
    var text := Text(raw, maxChars);
    var paragraphs := Paragraphs(Split(text));
    if paragraphs == [] then text
    else
      JoinedParagraphs(text);
      Join(paragraphs[..Min(MaxParagraphs, |paragraphs|)])
  }

  /** Joining the first up-to-six paragraphs of a text gives a stripped string no longer than the text. */
  lemma JoinedParagraphs(text: string)
    requires Paragraphs(Split(text)) != []
    ensures var ps := Paragraphs(Split(text));
      var joined := Join(ps[..Min(MaxParagraphs, |ps|)]);
      |joined| <= |text| && Stripped(joined)
  {
    var ps := Paragraphs(Split(text));
    var k := Min(MaxParagraphs, |ps|);
    PrefixJoinShorter(Split(text), k);
    JoinSplit(text);
    PrefixJoinStripped(ps, k);
  }

  /** The join of some leading paragraphs is no longer than the join of the pieces they came from. */
  lemma PrefixJoinShorter(pieces: seq<string>, k: nat)
    requires 0 < k <= |Paragraphs(pieces)|
    ensures |Join(Paragraphs(pieces)[..k])| <= |Join(pieces)|
  {
    var ps := Paragraphs(pieces);
    JoinLength(ps[..k]);
    PrefixCost(ps, k);
    ParagraphsCost(pieces);
    JoinLength(pieces);
  }

  /** Joining leading non-empty, stripped paragraphs gives a stripped string. */
  lemma PrefixJoinStripped(ps: seq<string>, k: nat)
    requires 0 < k <= |ps|
    requires forall i :: 0 <= i < |ps| ==> ps[i] != [] && Stripped(ps[i])
    ensures Stripped(Join(ps[..k]))
  {
    var sel := ps[..k];
    forall i | 0 <= i < |sel| ensures sel[i] != [] && Stripped(sel[i]) {
      assert sel[i] == ps[i];
    }
    JoinEnds(sel);
  }


  /** Total length of `ps` with one separator's worth of characters charged to every piece. */
  function Cost(ps: seq<string>): nat {
    if ps == [] then 0 else |ps[0]| + 2 + Cost(ps[1..])
  }

  /** A join is as long as its pieces plus one separator between each two. */
  lemma {:induction false} JoinLength(ps: seq<string>)
    requires ps != []
    ensures |Join(ps)| + |Sep| == Cost(ps)
  {
    if |ps| > 1 {
      JoinLength(ps[1..]);
    }
  }

  /** Dropping blank pieces and stripping the others never adds to the cost. */
  lemma {:induction false} ParagraphsCost(pieces: seq<string>)
    ensures Cost(Paragraphs(pieces)) <= Cost(pieces)
  {
    if pieces != [] {
      ParagraphsCost(pieces[1..]);
      var q := Strip(pieces[0]);
      var rest := Paragraphs(pieces[1..]);
      if q != [] {
        assert ([q] + rest)[1..] == rest;
      } else {
        assert [] + rest == rest;
      }
    }
  }

  /** A prefix of a list of pieces costs no more than the whole list. */
  lemma {:induction false} PrefixCost(ps: seq<string>, k: nat)
    requires k <= |ps|
    ensures Cost(ps[..k]) <= Cost(ps)
  {
    if k > 0 {
      assert ps[..k][1..] == ps[1..][..k - 1];
      PrefixCost(ps[1..], k - 1);
    }
  }

  /** A text that does not start with a line break keeps its first character in its first piece. */
  lemma SplitKeepsHead(t: string)
    requires t != [] && t[0] != '\n'
    ensures Split(t)[0] != [] && Split(t)[0][0] == t[0]
  {
  }

  /** The summary falls back to the text only when the text is empty. */
  lemma NoParagraphsOnlyWhenEmpty(raw: string, maxChars: int)
    ensures Paragraphs(Split(Text(raw, maxChars))) == [] <==> Text(raw, maxChars) == []
  {
    var t := Text(raw, maxChars);
    var s := Strip(raw);
    if t != [] {
      assert t[0] == s[0];
      var pieces := Split(t);
      var p := pieces[0];
      assert t[0] != '\n';
      SplitKeepsHead(t);
      StripKeepsLeadingChar(p);
      assert Paragraphs(pieces) == [Strip(p)] + Paragraphs(pieces[1..]);
    } else {
      assert Split(t) == [[]];
      assert Paragraphs(Split(t)) == Paragraphs([]);
    }
  }

  /** The summary is never longer than the stripped, truncated text, and so never longer than `max_chars`. */
  lemma SummarizeLength(raw: string, maxChars: int)
    ensures |Summarize(raw, maxChars)| <= |Text(raw, maxChars)|
    ensures maxChars >= 0 ==> |Summarize(raw, maxChars)| <= maxChars
  {
  }

  /**
   * The summary is empty exactly when the stripped, truncated text is;
   * otherwise splitting it on blank lines yields the first up-to-six non-blank
   * stripped pieces of the text, in their original order, each non-empty and
   * without surrounding whitespace.
   */
  lemma SummarizeParagraphs(raw: string, maxChars: int)
    ensures Summarize(raw, maxChars) == [] <==> Text(raw, maxChars) == []
    ensures Summarize(raw, maxChars) == [] <==> Selected(raw, maxChars) == []
    ensures Summarize(raw, maxChars) != [] ==>
      && Split(Summarize(raw, maxChars)) == Selected(raw, maxChars)
      && 1 <= |Selected(raw, maxChars)| <= MaxParagraphs
      && forall i :: 0 <= i < |Selected(raw, maxChars)| ==> Clean(Selected(raw, maxChars)[i])
    ensures Stripped(Summarize(raw, maxChars))
  {
    var text := Text(raw, maxChars);
    var pieces := Split(text);
    var ps := Paragraphs(pieces);
    NoParagraphsOnlyWhenEmpty(raw, maxChars);
    SplitPiecesNoSep(text);
    ParagraphsClean(pieces);
    if ps != [] {
      var sel := Selected(raw, maxChars);
      assert sel == ps[..Min(MaxParagraphs, |ps|)];
      assert forall i :: 0 <= i < |sel| ==> Clean(sel[i]);
      SplitJoin(sel);
      JoinEnds(sel);
    }
  }

  /** The join of clean paragraphs starts with the first one's first character and ends with the last one's last. */
  lemma {:induction false} JoinEnds(ps: seq<string>)
    requires ps != []
    requires forall i :: 0 <= i < |ps| ==> ps[i] != []
    ensures Join(ps) != []
    ensures Join(ps)[0] == ps[0][0]
    ensures Join(ps)[|Join(ps)| - 1] == ps[|ps| - 1][|ps[|ps| - 1]| - 1]
  {
    if |ps| > 1 {
      JoinEnds(ps[1..]);
    }
  }

  /** The summary depends on the input only through its first `max_chars` characters after stripping. */
  lemma SummarizeDependsOnPrefix(a: string, b: string, maxChars: int)
    requires maxChars >= 0
    requires Strip(a)[..Min(|Strip(a)|, maxChars)] == Strip(b)[..Min(|Strip(b)|, maxChars)]
    ensures Summarize(a, maxChars) == Summarize(b, maxChars)
  {
    TruncateIsPrefix(Strip(a), maxChars);
    TruncateIsPrefix(Strip(b), maxChars);
    assert Text(a, maxChars) == Text(b, maxChars);
  }

  /** For a non-negative `max_chars`, truncation keeps exactly the first `max_chars` characters. */
  lemma TruncateIsPrefix(t: string, maxChars: int)
    requires maxChars >= 0
    ensures Truncate(t, maxChars) == t[..Min(|t|, maxChars)]
  {
  }

  /** Summarising a summary with the same `max_chars` changes nothing. */
  lemma SummarizeIdempotent(raw: string, maxChars: int)
    requires maxChars >= 0
    ensures Summarize(Summarize(raw, maxChars), maxChars) == Summarize(raw, maxChars)
  {
    var r := Summarize(raw, maxChars);
    SummarizeParagraphs(raw, maxChars);
    SummarizeLength(raw, maxChars);
    if r != [] {
      SummaryJoinsSelected(raw, maxChars);
    }
    SummarizeFixedPoint(r, maxChars);
  }

  /** A non-empty summary is the join of the selected paragraphs. */
  lemma SummaryJoinsSelected(raw: string, maxChars: int)
    requires Summarize(raw, maxChars) != []
    ensures Summarize(raw, maxChars) == Join(Selected(raw, maxChars))
  {
  }

  /**
   * A stripped text within `max_chars` that is empty or splits into at most six
   * clean paragraphs is its own summary.
   */
  lemma SummarizeFixedPoint(s: string, maxChars: int)
    requires 0 <= |s| <= maxChars
    requires Stripped(s)
    requires s != [] ==> 1 <= |Split(s)| <= MaxParagraphs && forall i :: 0 <= i < |Split(s)| ==> Clean(Split(s)[i])
    ensures Summarize(s, maxChars) == s
  {
    StripStripped(s);
    assert Text(s, maxChars) == s;
    if s == [] {
      assert Split(s) == [[]];
      assert Paragraphs(Split(s)) == Paragraphs([]);
    } else {
      var ps := Split(s);
      ParagraphsOfClean(ps);
      assert ps[..Min(MaxParagraphs, |ps|)] == ps;
      JoinSplit(s);
      assert Summarize(s, maxChars) == Join(ps);
    }
  }

  /**
   * At the default `max_chars` of 2000, which every summary in the bot uses,
   * the summary fits in 2000 characters and summarising it again changes nothing.
   */
  lemma SummarizeAtDefault(raw: string)
    ensures |Summarize(raw, DefaultMaxChars)| <= DefaultMaxChars
    ensures Summarize(Summarize(raw, DefaultMaxChars), DefaultMaxChars) == Summarize(raw, DefaultMaxChars)
  {
    SummarizeLength(raw, DefaultMaxChars);
    SummarizeIdempotent(raw, DefaultMaxChars);
  }
}
