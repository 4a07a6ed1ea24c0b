/**
 One long answer as the parts a transport will carry: cut at a paragraph, failing that a line,
 failing that wherever the room ends, and marked as going on.
 */
module Split {
  /** `space` says what is whitespace; newlines are. */
  predicate Blank(space: char -> bool, s: string) {
    forall k :: 0 <= k < |s| ==> space(s[k])
  }

  predicate At(s: string, needle: string, i: int) {
    0 <= i && i + |needle| <= |s| && s[i..i + |needle|] == needle
  }

  /** Where `needle` last stands in the first `n` places of `s`, or -1. */
  function LastFind(s: string, needle: string, n: nat): (i: int)
    requires n <= |s|
    ensures -1 <= i < n
    ensures i >= 0 ==> At(s, needle, i)
    ensures forall j :: i < j < n ==> !At(s, needle, j)
  {
    if n == 0 then -1 else if At(s, needle, n - 1) then n - 1 else LastFind(s, needle, n - 1)
  }

  function WithoutTrailing(space: char -> bool, s: string): (r: string)
    ensures r <= s && Blank(space, s[|r|..])
    ensures r != "" ==> !space(r[|r| - 1])
  {
    if s != "" && space(s[|s| - 1]) then WithoutTrailing(space, s[..|s| - 1]) else s
  }

  function WithoutLeadingNewlines(s: string): (r: string)
    ensures |r| <= |s| && r == s[|s| - |r|..] && (r != "" ==> r[0] != '\n')
    ensures forall k :: 0 <= k < |s| - |r| ==> s[k] == '\n'
  {
    if s != "" && s[0] == '\n' then WithoutLeadingNewlines(s[1..]) else s
  }

  function Budget(limit: int, marker: string): (b: nat)
    ensures b >= 1
  {
    if limit - |marker| > 1 then limit - |marker| else 1
  }

  /** The last place `needle` stands in `window`, not counting its very beginning. */
  ghost predicate LastSeam(window: string, needle: string, j: int) {
    0 < j && At(window, needle, j) && forall i :: j < i ==> !At(window, needle, i)
  }

  ghost predicate NoSeam(window: string, needle: string) {
    forall i :: 0 < i ==> !At(window, needle, i)
  }

  /**
   Where a text too long for one part is cut: at the last paragraph break there is room for,
   or, only when there is none, at the last line break; but where the room ends if there is
   neither, or if what stands before the one chosen is blank.
   */
  function Cut(space: char -> bool, rest: string, budget: nat): (cut: nat)
    requires 0 < budget < |rest|
    ensures 0 < cut <= budget
    ensures forall j :: LastSeam(rest[..budget], "\n\n", j) ==>
              cut == if Blank(space, rest[..j]) then budget else j
    ensures forall j :: NoSeam(rest[..budget], "\n\n") && LastSeam(rest[..budget], "\n", j) ==>
              cut == if Blank(space, rest[..j]) then budget else j
    ensures NoSeam(rest[..budget], "\n\n") && NoSeam(rest[..budget], "\n") ==> cut == budget
  {
    var window := rest[..budget];
    var paragraph := LastFind(window, "\n\n", |window|);
    var seam := if paragraph <= 0 then LastFind(window, "\n", |window|) else paragraph;
    LastFindIs(window, "\n\n");
    LastFindIs(window, "\n");
    if seam <= 0 || Blank(space, rest[..seam]) then budget else seam
  }

  lemma AtOne(s: string, i: int)
    ensures At(s, "\n", i) <==> 0 <= i < |s| && s[i] == '\n'
  {
    if 0 <= i < |s| {
      assert s[i..i + 1] == [s[i]];
    }
  }

  lemma AtTwo(s: string, i: int)
    ensures At(s, "\n\n", i) <==> 0 <= i && i + 1 < |s| && s[i] == '\n' && s[i + 1] == '\n'
  {
    if 0 <= i && i + 1 < |s| {
      assert s[i..i + 2] == [s[i], s[i + 1]];
    }
  }

  lemma LastFindIs(window: string, needle: string)
    ensures var i := LastFind(window, needle, |window|);
            if i <= 0 then needle == "" || NoSeam(window, needle) else needle == "" || LastSeam(window, needle, i)
    ensures forall j, k :: LastSeam(window, needle, j) && LastSeam(window, needle, k) ==> j == k
    ensures forall j :: LastSeam(window, needle, j) ==> !NoSeam(window, needle)
  {
  }

  /** A line break that could have been used: words stand before it. */
  predicate UsableLine(space: char -> bool, rest: string, budget: nat, j: int)
    requires budget <= |rest|
  {
    0 < j < budget && At(rest[..budget], "\n", j) && !Blank(space, rest[..j])
  }

  /**
   A usable line break is passed over for a cut where the room ends exactly when the last
   paragraph break has only blanks before it.
   */
  lemma LineIsSkippedIff(space: char -> bool, rest: string, budget: nat, j: int)
    requires 0 < budget < |rest| && UsableLine(space, rest, budget, j)
    ensures Cut(space, rest, budget) == budget <==>
              exists p :: LastSeam(rest[..budget], "\n\n", p) && Blank(space, rest[..p])
  {
    hide LastFind, Cut;
    var window := rest[..budget];
    var cut := Cut(space, rest, budget);
    var p, l := LastFind(window, "\n\n", |window|), LastFind(window, "\n", |window|);
    LastFindIs(window, "\n\n");
    LastFindIs(window, "\n");
    if p <= 0 {
      assert LastSeam(window, "\n", l) && j <= l;
      assert rest[..j] == rest[..l][..j];
      assert !Blank(space, rest[..l]) by {
        var k :| 0 <= k < j && !space(rest[..j][k]);
        assert rest[..l][k] == rest[..j][k];
      }
    } else {
      assert p < budget;
    }
  }

  /** As it is here: the blank line is passed over for its blanks, and the line break after the word with it. */
  lemma LineCanBeSkipped(space: char -> bool)
    requires space(' ') && space('\n') && !space('a')
    ensures UsableLine(space, " \n\na\naaa", 6, 4) && Cut(space, " \n\na\naaa", 6) == 6
  {
    var rest := " \n\na\naaa";
    var window := rest[..6];
    assert rest[..4] == " \n\na" && rest[..4][3] == 'a';
    assert window == " \n\na\na" && window[1..3] == "\n\n" && window[4..5] == "\n";
    forall i | 1 < i ensures !At(window, "\n\n", i) {
      AtTwo(window, i);
    }
    assert LastSeam(window, "\n\n", 1);
    assert Blank(space, rest[..1]);
  }

  function Words(space: char -> bool, rest: string, limit: nat, marker: string): string
    requires 0 < limit < |rest|
  {
    WithoutTrailing(space, rest[..Cut(space, rest, Budget(limit, marker))])
  }

  function After(space: char -> bool, rest: string, limit: nat, marker: string): (after: string)
    requires 0 < limit < |rest|
    ensures |after| < |rest| && after == rest[|rest| - |after|..]
  {
    var back := rest[Cut(space, rest, Budget(limit, marker))..];
    var after := WithoutLeadingNewlines(back);
    assert |back| < |rest| && after == back[|back| - |after|..];
    after
  }

  function PartsOf(space: char -> bool, rest: string, limit: nat, marker: string): seq<string>
    requires limit > 0
    decreases |rest|
  {
    if |rest| <= limit then if rest == "" then [] else [rest]
    else [Words(space, rest, limit, marker) + marker] + PartsOf(space, After(space, rest, limit, marker), limit, marker)
  }

  method SplitMessage(space: char -> bool, text: string, limit: int, marker: string) returns (parts: seq<string>)
    ensures parts == if limit <= 0 || |text| <= limit then [text] else PartsOf(space, text, limit, marker)
    ensures 0 < limit < |text| ==> CutInto(space, text, limit, marker, parts)
  {
    hide CutInto, Cut, WithoutTrailing, WithoutLeadingNewlines, PartsOf, Words, After;
    if limit <= 0 || |text| <= limit {
      return [text];
    }
    PartsAreCut(space, text, limit, marker);
    var budget := Budget(limit, marker);
    var rest := text;
    parts := [];
    while |rest| > limit
      invariant parts + PartsOf(space, rest, limit, marker) == PartsOf(space, text, limit, marker)
      decreases |rest|
    {
      var cut := Cut(space, rest, budget);
      var part, after := WithoutTrailing(space, rest[..cut]) + marker, WithoutLeadingNewlines(rest[cut..]);
      PartsStep(space, rest, limit, marker);
      assert parts + ([part] + PartsOf(space, after, limit, marker)) ==
             (parts + [part]) + PartsOf(space, after, limit, marker);
      parts := parts + [part];
      rest := after;
      if rest == "" {
        break;
      }
    }
    LastStep(space, rest, limit, marker);
    if rest != "" {
      parts := parts + [rest];
    }
  }

  lemma PartsStep(space: char -> bool, rest: string, limit: nat, marker: string)
    requires 0 < limit < |rest|
    ensures var cut := Cut(space, rest, Budget(limit, marker));
            var after := WithoutLeadingNewlines(rest[cut..]);
            && |after| < |rest|
            && PartsOf(space, rest, limit, marker) ==
                 [WithoutTrailing(space, rest[..cut]) + marker] + PartsOf(space, after, limit, marker)
  {
    hide Cut, WithoutTrailing, WithoutLeadingNewlines;
  }

  lemma LastStep(space: char -> bool, rest: string, limit: nat, marker: string)
    requires |rest| <= limit && limit > 0
    ensures PartsOf(space, rest, limit, marker) == if rest == "" then [] else [rest]
  {
  }

  /** The parts, put back together: each one's words, then whitespace and nothing else, then the next. */
  ghost predicate PutsBack(space: char -> bool, marker: string, text: string, parts: seq<string>)
    decreases |parts|
  {
    if parts == [] then text == ""
    else
      || parts == [text]
      || exists words: string, gap: string, rest: string ::
           text == words + gap + rest && Blank(space, gap) && parts[0] == words + marker
               && PutsBack(space, marker, rest, parts[1..])
  }

  /** What one cut takes: words, and whitespace after them. */
  lemma OneCut(space: char -> bool, rest: string, limit: nat, marker: string) returns (gap: string)
    requires 0 < limit < |rest| && space('\n')
    ensures rest == Words(space, rest, limit, marker) + gap + After(space, rest, limit, marker) && Blank(space, gap)
  {
    hide Cut, WithoutTrailing, WithoutLeadingNewlines;
    var cut := Cut(space, rest, Budget(limit, marker));
    var front, back := rest[..cut], rest[cut..];
    var words, after := WithoutTrailing(space, front), WithoutLeadingNewlines(back);
    var trailing, newlines := front[|words|..], back[..|back| - |after|];
    gap := trailing + newlines;
    FourPieces(rest, cut, words, after);
    BlankTwice(space, trailing, newlines);
  }

  lemma FourPieces(rest: string, cut: nat, words: string, after: string)
    requires cut <= |rest| && words <= rest[..cut] && |after| <= |rest| - cut
    requires after == rest[cut..][|rest| - cut - |after|..]
    ensures rest == words + (rest[..cut][|words|..] + rest[cut..][..|rest| - cut - |after|]) + after
  {
  }

  lemma BlankTwice(space: char -> bool, a: string, b: string)
    requires space('\n') && Blank(space, a) && forall k :: 0 <= k < |b| ==> b[k] == '\n'
    ensures Blank(space, a + b)
  {
  }

  lemma WordsFit(space: char -> bool, rest: string, limit: nat, marker: string)
    requires |marker| < limit < |rest|
    ensures |Words(space, rest, limit, marker) + marker| <= limit
  {
    hide Cut, WithoutTrailing;
    var cut := Cut(space, rest, Budget(limit, marker));
    assert |WithoutTrailing(space, rest[..cut])| <= cut;
  }

  /** Only whitespace is lost, and only at the cuts. */
  lemma {:induction false} NothingIsLost(space: char -> bool, rest: string, limit: nat, marker: string)
    requires limit > 0 && space('\n')
    ensures PutsBack(space, marker, rest, PartsOf(space, rest, limit, marker))
    decreases |rest|
  {
    hide Words, After;
    if |rest| > limit {
      var after := After(space, rest, limit, marker);
      var gap := OneCut(space, rest, limit, marker);
      NothingIsLost(space, after, limit, marker);
      assert PartsOf(space, rest, limit, marker)[1..] == PartsOf(space, after, limit, marker);
    }
  }

  /** With room for the marker, every part fits, and every part before the last says it goes on. */
  lemma {:induction false} EveryPartFits(space: char -> bool, rest: string, limit: nat, marker: string, k: nat)
    requires limit > |marker| && k < |PartsOf(space, rest, limit, marker)|
    ensures var parts := PartsOf(space, rest, limit, marker);
            |parts[k]| <= limit && (k < |parts| - 1 ==> exists words: string :: parts[k] == words + marker)
    decreases |rest|
  {
    hide Words, After;
    if |rest| > limit {
      WordsFit(space, rest, limit, marker);
      if k > 0 {
        EveryPartFits(space, After(space, rest, limit, marker), limit, marker, k - 1);
      }
    }
  }

  // ----- where the parts are cut -------------------------------------------------------------------

  /** The place a text is cut when there is room for `budget` characters. */
  ghost predicate IsCut(space: char -> bool, text: string, budget: nat, cut: nat)
    requires budget <= |text|
  {
    var window := text[..budget];
    if exists j :: LastSeam(window, "\n\n", j) then Takes(space, window, "\n\n", cut)
    else if exists j :: LastSeam(window, "\n", j) then Takes(space, window, "\n", cut)
    else cut == budget
  }

  /** Cut at the last such break, or where the room ends if nothing but blanks stands before it. */
  ghost predicate Takes(space: char -> bool, window: string, needle: string, cut: nat) {
    exists j :: LastSeam(window, needle, j) && j <= |window|
                && cut == if Blank(space, window[..j]) then |window| else j
  }

  /** `part` is `text` with the blanks it ends in off. */
  predicate EndsClean(space: char -> bool, text: string, part: string) {
    part <= text && Blank(space, text[|part|..]) && (part != "" ==> !space(part[|part| - 1]))
  }

  /** `rest` is `text` with the newlines it starts with off. */
  predicate StartsClean(text: string, rest: string) {
    && |rest| <= |text| && rest == text[|text| - |rest|..] && (rest != "" ==> rest[0] != '\n')
    && forall k :: 0 <= k < |text| - |rest| ==> text[k] == '\n'
  }

  /** Each part before the last is what stands before its cut and the marker, and the next begins after the cut. */
  ghost predicate CutInto(space: char -> bool, text: string, limit: nat, marker: string, parts: seq<string>)
    requires limit > 0
    decreases |parts|
  {
    if |text| <= limit then parts == if text == "" then [] else [text]
    else
      && parts != []
      && exists cut: nat, words: string, rest: string ::
           && cut <= |text| && IsCut(space, text, if limit > |marker| then limit - |marker| else 1, cut)
           && EndsClean(space, text[..cut], words) && parts[0] == words + marker
           && StartsClean(text[cut..], rest) && CutInto(space, rest, limit, marker, parts[1..])
  }

  lemma SeamIsInside(window: string, needle: string, j: int)
    requires LastSeam(window, needle, j)
    ensures 0 < j <= |window|
  {
  }

  lemma CutIsCut(space: char -> bool, text: string, budget: nat)
    requires 0 < budget < |text|
    ensures IsCut(space, text, budget, Cut(space, text, budget))
  {
    hide Cut;
    var window, cut := text[..budget], Cut(space, text, budget);
    forall needle: string, j | LastSeam(window, needle, j)
      ensures 0 < j <= |window| && window[..j] == text[..j]
    {
      SeamIsInside(window, needle, j);
    }
    LastFindIs(window, "\n\n");
    LastFindIs(window, "\n");
    hide LastSeam, NoSeam, Blank;
    if j :| LastSeam(window, "\n\n", j) {
      assert Takes(space, window, "\n\n", cut);
    } else if j :| LastSeam(window, "\n", j) {
      assert Takes(space, window, "\n", cut);
    }
  }

  lemma {:induction false} PartsAreCut(space: char -> bool, text: string, limit: nat, marker: string)
    requires limit > 0
    ensures CutInto(space, text, limit, marker, PartsOf(space, text, limit, marker))
    decreases |text|
  {
    if |text| > limit {
      hide IsCut, Cut, WithoutTrailing, WithoutLeadingNewlines;
      var budget := Budget(limit, marker);
      var cut := Cut(space, text, budget);
      var words, rest := WithoutTrailing(space, text[..cut]), WithoutLeadingNewlines(text[cut..]);
      CutIsCut(space, text, budget);
      PartsStep(space, text, limit, marker);
      PartsAreCut(space, rest, limit, marker);
      var parts := PartsOf(space, text, limit, marker);
      assert parts[0] == words + marker && parts[1..] == PartsOf(space, rest, limit, marker);
      assert EndsClean(space, text[..cut], words) && StartsClean(text[cut..], rest);
    }
  }

  // ----- the last part -----------------------------------------------------------------------------

  function Newlines(n: nat): string {
    seq(n, _ => '\n')
  }

  /** A text that ends in exactly `n` newlines. */
  predicate EndsIn(text: string, n: nat) {
    n < |text| && text[|text| - n..] == Newlines(n) && text[|text| - n - 1] != '\n'
  }

  /** The last part is the text's own end, and so says nothing of going on. */
  predicate EndsUnmarked(parts: seq<string>, text: string) {
    && parts != []
    && var last := parts[|parts| - 1];
       |last| <= |text| && last == text[|text| - |last|..]
  }

  /** Cutting leaves the newlines a text ends in alone, as long as there is a word after the cut. */
  lemma AfterEndsIn(space: char -> bool, rest: string, limit: nat, marker: string, n: nat)
    requires |marker| < limit < |rest| && n <= |marker| && EndsIn(rest, n)
    ensures EndsIn(After(space, rest, limit, marker), n)
  {
    hide Cut;
    var cut := Cut(space, rest, Budget(limit, marker));
    var back := rest[cut..];
    var after := WithoutLeadingNewlines(back);
    var w := |rest| - n - 1;
    assert cut <= w;
    assert back[w - cut] == rest[w] != '\n';
    assert |back| - |after| <= w - cut;
    assert rest[|rest| - n..] == after[|after| - n..];
    assert after[|after| - n - 1] == rest[w];
  }

  /**
   A text that fits, or ends in no more newlines than the marker is long, ends on a part that is its
   own end, unmarked.
   */
  lemma {:induction false} LastPartEndsTheText(space: char -> bool, rest: string, limit: nat, marker: string, n: nat)
    requires |marker| < limit && rest != "" && (|rest| <= limit || (n <= |marker| && EndsIn(rest, n)))
    ensures EndsUnmarked(PartsOf(space, rest, limit, marker), rest)
    decreases |rest|
  {
    hide After, Words, EndsIn;
    if |rest| > limit {
      var after := After(space, rest, limit, marker);
      AfterEndsIn(space, rest, limit, marker, n);
      EndsInSomething(after, n);
      LastPartEndsTheText(space, after, limit, marker, n);
      var tail := PartsOf(space, after, limit, marker);
      var last := tail[|tail| - 1];
      assert PartsOf(space, rest, limit, marker)[|tail|] == last;
      assert last == after[|after| - |last|..] == rest[|rest| - |last|..];
    } else {
      assert rest[0..] == rest;
    }
  }

  lemma EndsInSomething(rest: string, n: nat)
    requires EndsIn(rest, n)
    ensures rest != ""
  {
  }

  /** A line that fills the room, and then more newlines than the marker is long: one part, marked as going on. */
  lemma TrailingNewlinesEndMarked(space: char -> bool, words: string, limit: nat, marker: string, n: nat)
    requires |marker| < limit && |words| == limit - |marker| && |marker| < n
    requires !space(words[|words| - 1]) && '\n' !in words
    ensures EndsIn(words + Newlines(n), n)
    ensures PartsOf(space, words + Newlines(n), limit, marker) == [words + marker]
    ensures !EndsUnmarked(PartsOf(space, words + Newlines(n), limit, marker), words + Newlines(n))
  {
    hide Cut;
    var text, room := words + Newlines(n), |words|;
    var window := text[..room];
    assert window == words && Budget(limit, marker) == room;
    NoNewlineNoSeam(words);
    assert Cut(space, text, room) == room;
    assert text[room..] == Newlines(n);
    AllNewlines(Newlines(n));
    assert WithoutTrailing(space, words) == words;
    assert PartsOf(space, "", limit, marker) == [];
    var last := words + marker;
    assert last[room - 1] == words[room - 1] != '\n';
    assert |last| == limit && |text| == room + n;
    assert text[|text| - limit..][room - 1] == text[n - |marker| + room - 1] == '\n';
  }

  lemma NoNewlineNoSeam(words: string)
    requires '\n' !in words
    ensures NoSeam(words, "\n\n") && NoSeam(words, "\n")
  {
    forall i | 0 < i ensures !At(words, "\n\n", i) && !At(words, "\n", i) {
      AtOne(words, i);
      AtTwo(words, i);
    }
  }

  /** Whatever text ends in exactly this many newlines ends unmarked. */
  ghost predicate AlwaysUnmarked(space: char -> bool, limit: nat, marker: string, n: nat)
    requires limit > 0
  {
    forall text: string :: EndsIn(text, n) ==> EndsUnmarked(PartsOf(space, text, limit, marker), text)
  }

  /** The length of the marker is the threshold: past it, some text does not. */
  lemma UnmarkedUpToTheMarker(space: char -> bool, word: char, limit: nat, marker: string, n: nat)
    requires |marker| < limit && !space(word) && word != '\n'
    ensures AlwaysUnmarked(space, limit, marker, n) <==> n <= |marker|
  {
    hide PartsOf, EndsUnmarked, EndsIn;
    if n <= |marker| {
      forall text: string | EndsIn(text, n) ensures EndsUnmarked(PartsOf(space, text, limit, marker), text) {
        EndsInSomething(text, n);
        LastPartEndsTheText(space, text, limit, marker, n);
      }
    } else {
      var words := seq(limit - |marker|, _ => word);
      TrailingNewlinesEndMarked(space, words, limit, marker, n);
    }
  }

  lemma {:induction false} AllNewlines(s: string)
    requires forall k :: 0 <= k < |s| ==> s[k] == '\n'
    ensures WithoutLeadingNewlines(s) == ""
  {
    if s != "" {
      AllNewlines(s[1..]);
    }
  }
}
