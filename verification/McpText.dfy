/**
 Cleaning a tool's answer: escape sequences out, line ends made plain, and the characters a
 reader cannot see taken out wherever they split something that could be a credential.
 */
module McpText {
  import opened Wrappers

  /** What is decided outside ASCII: which characters print, and which print without width. */
  datatype Alphabet = Alphabet(prints: char -> bool, blank: char -> bool)

  const ESC: char := '\U{1B}'
  const BEL: char := '\U{07}'
  const JOINER: char := '\U{200D}'

  predicate IsAscii(ch: char) {
    ch < '\U{80}'
  }

  predicate Printable(a: Alphabet, ch: char) {
    if IsAscii(ch) then ' ' <= ch <= '~' else a.prints(ch)
  }

  /** Takes no room of its own. */
  predicate ZeroAdvance(a: Alphabet, ch: char) {
    if ch == '\n' || ch == '\t' then false
    else if !Printable(a, ch) then true
    else !IsAscii(ch) && a.blank(ch)
  }

  predicate Visible(a: Alphabet, ch: char) {
    !ZeroAdvance(a, ch)
  }

  predicate InCredentials(ch: char) {
    'A' <= ch <= 'Z' || 'a' <= ch <= 'z' || '0' <= ch <= '9' || ch in "_-./+=:"
  }

  /** A mark or a joiner: unseen, and sometimes part of how something is written. */
  predicate Shapes(a: Alphabet, ch: char) {
    Printable(a, ch) || ch == JOINER
  }

  // ----- escape sequences ------------------------------------------------------------------

  /** How many characters from `s[i..]` on satisfy `p`, without a break. */
  function Span(s: string, i: nat, p: char -> bool): (n: nat)
    requires i <= |s|
    ensures i + n <= |s|
    ensures forall k :: i <= k < i + n ==> p(s[k])
    ensures i + n < |s| ==> !p(s[i + n])
    decreases |s| - i
  {
    if i < |s| && p(s[i]) then 1 + Span(s, i + 1, p) else 0
  }

  const PARAMETER: char -> bool := ch => '0' <= ch <= '?'
  const BETWEEN: char -> bool := ch => ' ' <= ch <= '/'
  const PAYLOAD: char -> bool := ch => ch != BEL && ch != ESC

  predicate Final(ch: char) {
    '@' <= ch <= '~'
  }

  predicate Lone(ch: char) {
    '@' <= ch <= 'Z' || '\\' <= ch <= '_'
  }

  /** The length of the escape sequence starting `s`, 0 when there is none. */
  function EscapeLength(s: string): (n: nat)
    ensures n <= |s|
  {
    if |s| < 2 || s[0] != ESC then 0
    else if s[1] == '[' then
      var p := 2 + Span(s, 2, PARAMETER);
      var b := p + Span(s, p, BETWEEN);
      if b < |s| && Final(s[b]) then b + 1 else 0
    else if s[1] == ']' then
      var p := 2 + Span(s, 2, PAYLOAD);
      if p < |s| && s[p] == BEL then p + 1
      else if p + 1 < |s| && s[p] == ESC && s[p + 1] == '\\' then p + 2
      else p
    else if Lone(s[1]) then 2
    else 0
  }

  predicate All(s: string, p: char -> bool) {
    forall k :: 0 <= k < |s| ==> p(s[k])
  }

  /** The three shapes, as the terminal standards write them; a string left open still counts. */
  ghost predicate IsEscape(e: string) {
    || (exists parameters: string, between: string, last: char ::
          All(parameters, PARAMETER) && All(between, BETWEEN) && Final(last)
              && e == [ESC, '['] + parameters + between + [last])
    || (exists payload: string, close: string ::
          All(payload, PAYLOAD) && (close == "" || close == [BEL] || close == [ESC, '\\'])
              && e == [ESC, ']'] + payload + close)
    || (|e| == 2 && e[0] == ESC && Lone(e[1]))
  }

  function WithoutEscapes(s: string): string {
    if s == "" then ""
    else
      var n := EscapeLength(s);
      if n > 0 then WithoutEscapes(s[n..]) else [s[0]] + WithoutEscapes(s[1..])
  }

  // ----- line ends -------------------------------------------------------------------------

  function PairedReturns(s: string): string {
    if s == "" then ""
    else if |s| > 1 && s[0] == '\r' && s[1] == '\n' then "\n" + PairedReturns(s[2..])
    else [s[0]] + PairedReturns(s[1..])
  }

  function LoneReturns(s: string): string {
    if s == "" then "" else [if s[0] == '\r' then '\n' else s[0]] + LoneReturns(s[1..])
  }

  function Normalised(text: string): string {
    LoneReturns(PairedReturns(WithoutEscapes(text)))
  }

  // ----- what is kept: the rule, position by position -----------------------------------------

  /** `s[j]` is the nearest visible character before position `i`. */
  ghost predicate NearestBefore(a: Alphabet, s: string, j: int, i: int) {
    0 <= j < i <= |s| && Visible(a, s[j]) && forall k :: j < k < i ==> ZeroAdvance(a, s[k])
  }

  /** `s[j]` is the nearest visible character at or after position `i`. */
  ghost predicate NearestFrom(a: Alphabet, s: string, i: int, j: int) {
    0 <= i <= j < |s| && Visible(a, s[j]) && forall k :: i <= k < j ==> ZeroAdvance(a, s[k])
  }

  ghost predicate BetweenCredentials(a: Alphabet, s: string, i: nat) {
    && (exists j :: NearestBefore(a, s, j, i) && InCredentials(s[j]))
    && (exists j :: NearestFrom(a, s, i + 1, j) && InCredentials(s[j]))
  }

  ghost predicate Keeps(a: Alphabet, s: string, i: nat)
    requires i < |s|
  {
    Visible(a, s[i]) || (Shapes(a, s[i]) && !BetweenCredentials(a, s, i))
  }

  /** What is left of the first `n` characters. */
  ghost function Survivors(a: Alphabet, s: string, n: nat): string
    requires n <= |s|
  {
    if n == 0 then "" else Survivors(a, s, n - 1) + if Keeps(a, s, n - 1) then [s[n - 1]] else []
  }

  ghost function Cleaned(a: Alphabet, text: string): string {
    var s := Normalised(text);
    Survivors(a, s, |s|)
  }

  // ----- the same, in one pass from the left -------------------------------------------------

  function FirstVisible(a: Alphabet, s: string): Option<char> {
    if s == "" then None else if Visible(a, s[0]) then Some(s[0]) else FirstVisible(a, s[1..])
  }

  predicate Credential(c: Option<char>) {
    c.Some? && InCredentials(c.value)
  }

  predicate KeepsFirst(a: Alphabet, previous: Option<char>, s: string)
    requires s != ""
  {
    Visible(a, s[0]) || (Shapes(a, s[0]) && !(Credential(previous) && Credential(FirstVisible(a, s[1..]))))
  }

  function Sweep(a: Alphabet, previous: Option<char>, s: string): string
    decreases |s|
  {
    if s == "" then ""
    else
      (if KeepsFirst(a, previous, s) then [s[0]] else []) +
      Sweep(a, if Visible(a, s[0]) then Some(s[0]) else previous, s[1..])
  }

  /** The answer cleaned, with the table of what follows filled in from the right first. */
  method CleanResultText(a: Alphabet, text: string) returns (r: string)
    ensures r == Cleaned(a, text)
    ensures IsCleaned(a, text, r)
  {
    hide IsCleaned;
    CleanedMeans(a, text);
    hide Sweep, FirstVisible, Cleaned, Survivors, Normalised, KeepsFirst, Printable, InCredentials;
    if text == "" {
      NothingToClean(a);
      return text;
    }
    var normalized := Normalised(text);
    var n := |normalized|;
    var following := new Option<char>[n];
    var carried: Option<char> := None;
    assert normalized[n..] == "";
    SweepNothing(a);
    for index := n downto 0
      invariant carried == FirstVisible(a, normalized[index..])
      invariant forall k :: index <= k < n ==> following[k] == FirstVisible(a, normalized[k + 1..])
    {
      FirstOf(a, normalized, index);
      following[index] := carried;
      if !ZeroAdvance(a, normalized[index]) {
        carried := Some(normalized[index]);
      }
    }
    var kept, previous: Option<char> := "", None;
    assert normalized[0..] == normalized;
    for index := 0 to n
      invariant forall k :: 0 <= k < n ==> following[k] == FirstVisible(a, normalized[k + 1..])
      invariant kept + Sweep(a, previous, normalized[index..]) == Sweep(a, None, normalized)
    {
      var ch := normalized[index];
      SweepOf(a, previous, normalized, index);
      ghost var tail := Sweep(a, if Visible(a, ch) then Some(ch) else previous, normalized[index + 1..]);
      ghost var piece := if Visible(a, ch) || (Shapes(a, ch) && !(Credential(previous) && Credential(following[index])))
          then [ch] else [];
      assert kept + (piece + tail) == (kept + piece) + tail;
      assert kept + [] == kept;
      if !ZeroAdvance(a, ch) {
        kept := kept + [ch];
        previous := Some(ch);
      } else if Printable(a, ch) || ch == JOINER {
        if !(Credential(previous) && Credential(following[index])) {
          kept := kept + [ch];
        }
      }
    }
    SweepIsTheRule(a, normalized);
    assert normalized[n..] == "";
    CleanedIs(a, text);
    return kept;
  }

  lemma NothingToClean(a: Alphabet)
    ensures Cleaned(a, "") == ""
  {
  }

  lemma SweepNothing(a: Alphabet)
    ensures forall p :: Sweep(a, p, "") == ""
    ensures FirstVisible(a, "") == None
  {
  }

  lemma CleanedIs(a: Alphabet, text: string)
    ensures Cleaned(a, text) == Survivors(a, Normalised(text), |Normalised(text)|)
  {
  }

  lemma FirstOf(a: Alphabet, s: string, i: nat)
    requires i < |s|
    ensures FirstVisible(a, s[i..]) == if Visible(a, s[i]) then Some(s[i]) else FirstVisible(a, s[i + 1..])
  {
    assert s[i..][1..] == s[i + 1..];
  }

  lemma SweepOf(a: Alphabet, previous: Option<char>, s: string, i: nat)
    requires i < |s|
    ensures Sweep(a, previous, s[i..]) ==
              (if Visible(a, s[i]) || (Shapes(a, s[i])
                  && !(Credential(previous) && Credential(FirstVisible(a, s[i + 1..]))))
               then [s[i]] else []) +
              Sweep(a, if Visible(a, s[i]) then Some(s[i]) else previous, s[i + 1..])
  {
    assert s[i..][1..] == s[i + 1..];
  }

  // ----- one pass is the rule ------------------------------------------------------------------

  function LastVisible(a: Alphabet, s: string, i: nat): Option<char>
    requires i <= |s|
  {
    if i == 0 then None else if Visible(a, s[i - 1]) then Some(s[i - 1]) else LastVisible(a, s, i - 1)
  }

  lemma {:induction false} LastIsNearest(a: Alphabet, s: string, i: nat)
    requires i <= |s|
    ensures forall j :: NearestBefore(a, s, j, i) ==> LastVisible(a, s, i) == Some(s[j])
    ensures LastVisible(a, s, i).Some? ==> exists j :: NearestBefore(a, s, j, i) && Some(s[j]) == LastVisible(a, s, i)
  {
    hide ZeroAdvance;
    if i > 0 {
      LastIsNearest(a, s, i - 1);
      if Visible(a, s[i - 1]) {
        assert NearestBefore(a, s, i - 1, i);
      } else {
        NotVisible(a, s[i - 1]);
        assert forall j :: NearestBefore(a, s, j, i - 1) ==> NearestBefore(a, s, j, i);
        assert forall j :: NearestBefore(a, s, j, i) ==> NearestBefore(a, s, j, i - 1);
      }
    }
  }

  lemma {:induction false} FirstIsNearest(a: Alphabet, s: string, i: nat)
    requires i <= |s|
    ensures forall j :: NearestFrom(a, s, i, j) ==> FirstVisible(a, s[i..]) == Some(s[j])
    ensures FirstVisible(a, s[i..]).Some? ==>
              exists j :: NearestFrom(a, s, i, j) && Some(s[j]) == FirstVisible(a, s[i..])
    decreases |s| - i
  {
    hide ZeroAdvance;
    if i < |s| {
      FirstIsNearest(a, s, i + 1);
      FirstOf(a, s, i);
      if Visible(a, s[i]) {
        assert NearestFrom(a, s, i, i);
      } else {
        NotVisible(a, s[i]);
        assert forall j :: NearestFrom(a, s, i + 1, j) ==> NearestFrom(a, s, i, j);
        assert forall j :: NearestFrom(a, s, i, j) ==> NearestFrom(a, s, i + 1, j);
      }
    }
  }

  lemma NotVisible(a: Alphabet, ch: char)
    ensures Visible(a, ch) <==> !ZeroAdvance(a, ch)
  {
  }

  /** What the table and the running character say is what the rule says. */
  lemma BetweenIsBoth(a: Alphabet, s: string, i: nat)
    requires i < |s|
    ensures BetweenCredentials(a, s, i) <==> Credential(LastVisible(a, s, i)) && Credential(FirstVisible(a, s[i + 1..]))
  {
    hide Visible, InCredentials;
    LastIsNearest(a, s, i);
    FirstIsNearest(a, s, i + 1);
  }

  lemma {:induction false} SurvivorsThenSweep(a: Alphabet, s: string, i: nat)
    requires i <= |s|
    ensures Survivors(a, s, i) + Sweep(a, LastVisible(a, s, i), s[i..]) == Sweep(a, None, s)
  {
    hide Sweep, FirstVisible, BetweenCredentials, Visible, Shapes, Credential;
    if i == 0 {
      assert s[0..] == s;
    } else {
      SurvivorsThenSweep(a, s, i - 1);
      SweepOf(a, LastVisible(a, s, i - 1), s, i - 1);
      BetweenIsBoth(a, s, i - 1);
    }
  }

  /** One pass with a table is the rule, for every text. */
  lemma SweepIsTheRule(a: Alphabet, s: string)
    ensures Survivors(a, s, |s|) == Sweep(a, None, s)
  {
    SurvivorsThenSweep(a, s, |s|);
    assert s[|s|..] == "";
  }

  // ----- what the rule promises --------------------------------------------------------------

  lemma {:induction false} SweepKeepsFirst(a: Alphabet, previous: Option<char>, s: string)
    ensures FirstVisible(a, Sweep(a, previous, s)) == FirstVisible(a, s)
    decreases |s|
  {
    hide ZeroAdvance, Shapes;
    if s != "" {
      var rest := Sweep(a, if Visible(a, s[0]) then Some(s[0]) else previous, s[1..]);
      SweepKeepsFirst(a, if Visible(a, s[0]) then Some(s[0]) else previous, s[1..]);
      assert ([s[0]] + rest)[1..] == rest && [] + rest == rest;
      assert Sweep(a, previous, s) == if KeepsFirst(a, previous, s) then [s[0]] + rest else rest;
    }
  }

  /** A second sweep finds nothing more to take. */
  lemma {:induction false} SweepTwice(a: Alphabet, previous: Option<char>, s: string)
    ensures Sweep(a, previous, Sweep(a, previous, s)) == Sweep(a, previous, s)
    decreases |s|
  {
    hide ZeroAdvance, Shapes, Credential;
    if s != "" {
      var next := if Visible(a, s[0]) then Some(s[0]) else previous;
      var rest := Sweep(a, next, s[1..]);
      SweepTwice(a, next, s[1..]);
      SweepKeepsFirst(a, next, s[1..]);
      assert ([s[0]] + rest)[1..] == rest && [] + rest == rest;
      assert Sweep(a, previous, s) == if KeepsFirst(a, previous, s) then [s[0]] + rest else rest;
    }
  }

  /** Nothing that is left sits unseen between two characters a credential could be made of. */
  lemma NothingSplitsACredential(a: Alphabet, text: string, i: nat)
    requires i < |Cleaned(a, text)| && ZeroAdvance(a, Cleaned(a, text)[i])
    ensures !BetweenCredentials(a, Cleaned(a, text), i) && Shapes(a, Cleaned(a, text)[i])
  {
    hide BetweenCredentials, Shapes, ZeroAdvance;
    var r := Cleaned(a, text);
    SweepIsTheRule(a, Normalised(text));
    SweepTwice(a, None, Normalised(text));
    SweepIsTheRule(a, r);
    AllSurvive(a, r, i);
  }

  lemma {:induction false} SurvivorsFewer(a: Alphabet, s: string, n: nat)
    requires n <= |s|
    ensures |Survivors(a, s, n)| <= n
    ensures |Survivors(a, s, n)| == n ==> forall i :: 0 <= i < n ==> Keeps(a, s, i)
  {
    hide Keeps;
    if n > 0 {
      SurvivorsFewer(a, s, n - 1);
    }
  }

  lemma AllSurvive(a: Alphabet, s: string, i: nat)
    requires i < |s| && Survivors(a, s, |s|) == s
    ensures Keeps(a, s, i)
  {
    SurvivorsFewer(a, s, |s|);
  }

  // What is left, character by character.

  predicate Plain(a: Alphabet, ch: char) {
    ch == '\n' || ch == '\t' || ch == JOINER || Printable(a, ch)
  }

  lemma {:induction false} SweepIsPlain(a: Alphabet, previous: Option<char>, s: string)
    ensures forall k :: 0 <= k < |Sweep(a, previous, s)| ==> Plain(a, Sweep(a, previous, s)[k])
    decreases |s|
  {
    hide Credential, FirstVisible;
    if s != "" {
      SweepIsPlain(a, if Visible(a, s[0]) then Some(s[0]) else previous, s[1..]);
    }
  }

  lemma {:induction false} PlainIsNormal(a: Alphabet, s: string)
    requires forall k :: 0 <= k < |s| ==> Plain(a, s[k])
    ensures Normalised(s) == s
  {
    NoEscapes(a, s);
    NoReturns(a, s);
  }

  lemma {:induction false} NoEscapes(a: Alphabet, s: string)
    requires forall k :: 0 <= k < |s| ==> Plain(a, s[k])
    ensures WithoutEscapes(s) == s
  {
    if s != "" {
      assert Plain(a, s[0]);
      NoEscapes(a, s[1..]);
    }
  }

  lemma {:induction false} NoReturns(a: Alphabet, s: string)
    requires forall k :: 0 <= k < |s| ==> Plain(a, s[k])
    ensures PairedReturns(s) == s && LoneReturns(s) == s
  {
    if s != "" {
      assert Plain(a, s[0]);
      NoReturns(a, s[1..]);
    }
  }

  /** Cleaning what is clean changes nothing, whatever the text. */
  lemma CleaningTwice(a: Alphabet, text: string)
    ensures Cleaned(a, Cleaned(a, text)) == Cleaned(a, text)
  {
    hide Sweep, Survivors, Normalised;
    var s := Normalised(text);
    var r := Cleaned(a, text);
    SweepIsTheRule(a, s);
    SweepIsPlain(a, None, s);
    PlainIsNormal(a, r);
    SweepIsTheRule(a, r);
    SweepTwice(a, None, s);
  }

  /** No control character is left but line ends and tabs. */
  lemma OnlyPlainIsLeft(a: Alphabet, text: string)
    ensures forall k :: 0 <= k < |Cleaned(a, text)| ==> Plain(a, Cleaned(a, text)[k])
  {
    SweepIsTheRule(a, Normalised(text));
    SweepIsPlain(a, None, Normalised(text));
  }

  lemma {:induction false} AllKept(a: Alphabet, s: string, n: nat)
    requires n <= |s| && forall i :: 0 <= i < n ==> Keeps(a, s, i)
    ensures Survivors(a, s, n) == s[..n]
  {
    hide Keeps;
    if n > 0 {
      AllKept(a, s, n - 1);
      assert s[..n] == s[..n - 1] + [s[n - 1]];
    }
  }

  /** Nothing is wrong at `i`: no control character but a line end or a tab, and nothing unseen inside a credential. */
  ghost predicate Unspoilt(a: Alphabet, s: string, i: nat)
    requires i < |s|
  {
    && (s[i] == '\n' || s[i] == '\t' || s[i] == JOINER || Printable(a, s[i]))
    && (ZeroAdvance(a, s[i]) ==> !BetweenCredentials(a, s, i))
  }

  /** An answer is left as it came exactly when nothing is wrong with it: marks and joiners anywhere else stay. */
  lemma UntouchedIff(a: Alphabet, text: string)
    ensures Cleaned(a, text) == text <==> forall i :: 0 <= i < |text| ==> Unspoilt(a, text, i)
  {
    hide Normalised, BetweenCredentials, Survivors, Keeps, Unspoilt;
    if Cleaned(a, text) == text {
      OnlyPlainIsLeft(a, text);
      PlainIsNormal(a, text);
      forall i | 0 <= i < |text| ensures Unspoilt(a, text, i) {
        AllSurvive(a, text, i);
        UnspoiltIs(a, text, i);
      }
    } else if forall i :: 0 <= i < |text| ==> Unspoilt(a, text, i) {
      forall i | 0 <= i < |text| ensures Keeps(a, text, i) && Plain(a, text[i]) {
        UnspoiltIs(a, text, i);
      }
      PlainIsNormal(a, text);
      AllKept(a, text, |text|);
    }
  }

  lemma UnspoiltIs(a: Alphabet, s: string, i: nat)
    requires i < |s|
    ensures Unspoilt(a, s, i) <==> Keeps(a, s, i) && Plain(a, s[i])
  {
    hide BetweenCredentials;
  }

  function Seen(a: Alphabet, s: string): string {
    if s == "" then "" else (if Visible(a, s[0]) then [s[0]] else []) + Seen(a, s[1..])
  }

  lemma {:induction false} SweepKeepsSeen(a: Alphabet, previous: Option<char>, s: string)
    ensures Seen(a, Sweep(a, previous, s)) == Seen(a, s)
    decreases |s|
  {
    hide ZeroAdvance, Shapes, Credential;
    if s != "" {
      var next := if Visible(a, s[0]) then Some(s[0]) else previous;
      var rest := Sweep(a, next, s[1..]);
      SweepKeepsSeen(a, next, s[1..]);
      assert ([s[0]] + rest)[1..] == rest && [] + rest == rest;
      assert Sweep(a, previous, s) == if KeepsFirst(a, previous, s) then [s[0]] + rest else rest;
    }
  }

  /** Everything a reader can see is still there, in order, once escapes and line ends are done with. */
  lemma NothingSeenIsLost(a: Alphabet, text: string)
    ensures Seen(a, Cleaned(a, text)) == Seen(a, Normalised(text))
  {
    SweepIsTheRule(a, Normalised(text));
    SweepKeepsSeen(a, None, Normalised(text));
  }

  // ----- escapes and line ends ------------------------------------------------------------------

  lemma {:induction false} SpanOf(s: string, i: nat, p: char -> bool, n: nat)
    requires i + n <= |s| && (forall k :: i <= k < i + n ==> p(s[k]))
    ensures Span(s, i, p) >= n
    ensures i + n < |s| && !p(s[i + n]) ==> Span(s, i, p) == n
    decreases n
  {
    if n > 0 {
      SpanOf(s, i + 1, p, n - 1);
    }
  }

  /** What is taken at a position is an escape sequence, and none that starts there is longer. */
  lemma LongestEscape(s: string)
    ensures EscapeLength(s) > 0 ==> IsEscape(s[..EscapeLength(s)])
    ensures forall m :: 0 <= m <= |s| && IsEscape(s[..m]) ==> m <= EscapeLength(s)
  {
    hide EscapeLength, IsEscape;
    TakenIsAnEscape(s);
    forall m | 0 <= m <= |s| && IsEscape(s[..m]) ensures m <= EscapeLength(s) {
      NothingLonger(s, m);
    }
  }

  lemma TakenIsAnEscape(s: string)
    ensures EscapeLength(s) > 0 ==> IsEscape(s[..EscapeLength(s)])
  {
    hide IsEscape, Span;
    var n := EscapeLength(s);
    if n > 0 {
      if s[1] == '[' {
        var p := 2 + Span(s, 2, PARAMETER);
        var b := p + Span(s, p, BETWEEN);
        ColourIsEscape(s, p, b);
      } else if s[1] == ']' {
        var p := 2 + Span(s, 2, PAYLOAD);
        TitleIsEscape(s, p, n);
      } else {
        LoneIsEscape(s);
      }
    }
  }

  lemma ColourIsEscape(s: string, p: nat, b: nat)
    requires 2 <= p <= b < |s| && s[0] == ESC && s[1] == '[' && Final(s[b])
    requires (forall k :: 2 <= k < p ==> PARAMETER(s[k])) && (forall k :: p <= k < b ==> BETWEEN(s[k]))
    ensures IsEscape(s[..b + 1])
  {
    assert All(s[2..p], PARAMETER) && All(s[p..b], BETWEEN);
    assert s[..b + 1] == [ESC, '['] + s[2..p] + s[p..b] + [s[b]];
  }

  lemma TitleIsEscape(s: string, p: nat, n: nat)
    requires 2 <= p <= n <= |s| && s[0] == ESC && s[1] == ']' && (forall k :: 2 <= k < p ==> PAYLOAD(s[k]))
    requires s[p..n] == "" || s[p..n] == [BEL] || s[p..n] == [ESC, '\\']
    ensures IsEscape(s[..n])
  {
    assert All(s[2..p], PAYLOAD);
    assert s[..n] == [ESC, ']'] + s[2..p] + s[p..n];
  }

  lemma LoneIsEscape(s: string)
    requires |s| >= 2 && s[0] == ESC && Lone(s[1])
    ensures IsEscape(s[..2])
  {
  }

  lemma ColourIsWhole(s: string, m: nat, parameters: string, between: string, last: char)
    requires m <= |s| && All(parameters, PARAMETER) && All(between, BETWEEN) && Final(last)
    requires s[..m] == [ESC, '['] + parameters + between + [last]
    ensures m == EscapeLength(s)
  {
    hide All;
    var p, b := 2 + |parameters|, 2 + |parameters| + |between|;
    Laid(s, m, parameters, between, last);
    SpanIs(s, 2, PARAMETER, parameters);
    SpanIs(s, p, BETWEEN, between);
    NextStops(between, last);
    assert s[p] == (between + [last])[0];
  }

  lemma NextStops(between: string, last: char)
    requires All(between, BETWEEN) && Final(last)
    ensures !PARAMETER((between + [last])[0]) && !BETWEEN(last)
  {
  }

  lemma Laid(s: string, m: nat, parameters: string, between: string, last: char)
    requires m <= |s| && s[..m] == [ESC, '['] + parameters + between + [last]
    ensures m == 3 + |parameters| + |between| && s[0] == ESC && s[1] == '['
    ensures forall k :: 0 <= k < |parameters| ==> s[2 + k] == parameters[k]
    ensures forall k :: 0 <= k < |between| ==> s[2 + |parameters| + k] == between[k]
    ensures s[2 + |parameters| + |between|] == last
  {
    var e := s[..m];
    assert s[0] == e[0] && s[1] == e[1];
    assert forall k :: 0 <= k < |parameters| ==> s[2 + k] == e[2 + k] == parameters[k];
    assert forall k :: 0 <= k < |between| ==> s[2 + |parameters| + k] == e[2 + |parameters| + k] == between[k];
    assert s[m - 1] == e[m - 1];
  }

  lemma TitleIsWhole(s: string, m: nat, payload: string, close: string)
    requires m <= |s| && All(payload, PAYLOAD) && (close == "" || close == [BEL] || close == [ESC, '\\'])
    requires s[..m] == [ESC, ']'] + payload + close
    ensures m <= EscapeLength(s)
  {
    var e, p := s[..m], 2 + |payload|;
    assert s[0] == e[0] && s[1] == e[1];
    assert forall k :: 0 <= k < |payload| ==> s[2 + k] == e[2 + k] == payload[k];
    assert forall k :: 0 <= k < |close| ==> s[p + k] == e[p + k] == close[k];
    SpanIs(s, 2, PAYLOAD, payload);
    if close != "" {
      assert s[p] == close[0];
      assert |close| == 2 ==> s[p + 1] == close[1];
    }
  }

  lemma SpanIs(s: string, i: nat, p: char -> bool, run: string)
    requires i + |run| <= |s| && All(run, p) && (forall k :: 0 <= k < |run| ==> s[i + k] == run[k])
    ensures Span(s, i, p) >= |run|
    ensures i + |run| < |s| && !p(s[i + |run|]) ==> Span(s, i, p) == |run|
  {
    assert forall k :: i <= k < i + |run| ==> s[k] == run[k - i];
    SpanOf(s, i, p, |run|);
  }

  lemma NothingLonger(s: string, m: nat)
    requires m <= |s| && IsEscape(s[..m])
    ensures m <= EscapeLength(s)
  {
    hide EscapeLength, All, Final;
    var e := s[..m];
    if parameters: string, between: string, last: char :|
         All(parameters, PARAMETER) && All(between, BETWEEN) && Final(last)
             && e == [ESC, '['] + parameters + between + [last] {
      ColourIsWhole(s, m, parameters, between, last);
    } else if payload: string, close: string :|
         All(payload, PAYLOAD) && (close == "" || close == [BEL] || close == [ESC, '\\'])
             && e == [ESC, ']'] + payload + close {
      TitleIsWhole(s, m, payload, close);
    } else {
      LoneIsTwo(s);
    }
  }

  lemma LoneIsTwo(s: string)
    ensures |s| >= 2 && s[..2][0] == ESC && Lone(s[..2][1]) ==> EscapeLength(s) >= 2
  {
  }

  /** A carriage return, alone or before a newline, becomes one newline. */
  function OneReplace(s: string): string {
    if s == "" then ""
    else if s[0] == '\r' then "\n" + OneReplace(if |s| > 1 && s[1] == '\n' then s[2..] else s[1..])
    else [s[0]] + OneReplace(s[1..])
  }

  lemma {:induction false} TwoReplacesAreOne(s: string)
    ensures LoneReturns(PairedReturns(s)) == OneReplace(s)
    ensures '\r' !in LoneReturns(PairedReturns(s))
  {
    if s != "" {
      if |s| > 1 && s[0] == '\r' && s[1] == '\n' {
        TwoReplacesAreOne(s[2..]);
        assert ("\n" + PairedReturns(s[2..]))[1..] == PairedReturns(s[2..]);
      } else {
        TwoReplacesAreOne(s[1..]);
        assert ([s[0]] + PairedReturns(s[1..]))[1..] == PairedReturns(s[1..]);
      }
    }
  }

  // ----- what the answer is without its escape sequences, told without the scan --------------

  ghost predicate StartsAnEscape(s: string) {
    exists m :: 0 <= m <= |s| && IsEscape(s[..m])
  }

  /** The first `n` characters are an escape sequence, and no more of them are. */
  ghost predicate LongestAt(s: string, n: nat) {
    && 0 < n <= |s| && IsEscape(s[..n])
    && forall m :: n < m <= |s| ==> !IsEscape(s[..m])
  }

  /**
   `text` is the characters of `out` with escape sequences among them, each the longest that starts
   where it stands; and where a character stands no escape sequence starts.
   */
  ghost predicate Stripped(text: string, out: string)
    decreases |text|
  {
    if text == "" then out == ""
    else if StartsAnEscape(text) then exists n: nat :: LongestAt(text, n) && Stripped(text[n..], out)
    else out != "" && out[0] == text[0] && Stripped(text[1..], out[1..])
  }

  lemma EscapeLengthIs(s: string)
    ensures EscapeLength(s) > 0 <==> StartsAnEscape(s)
    ensures forall n: nat :: LongestAt(s, n) <==> n > 0 && n == EscapeLength(s)
  {
    hide EscapeLength, IsEscape;
    LongestEscape(s);
    assert !IsEscape("") by {
      NothingIsNoEscape();
    }
  }

  lemma NothingIsNoEscape()
    ensures !IsEscape("")
  {
  }

  /** Every text has exactly one such `out`, and the cleaner works on that one. */
  lemma {:induction false} OneStripping(text: string, out: string)
    ensures Stripped(text, out) <==> out == WithoutEscapes(text)
    decreases |text|
  {
    hide EscapeLength, LongestAt, StartsAnEscape;
    if text != "" {
      EscapeLengthIs(text);
      var n := EscapeLength(text);
      if n > 0 {
        OneStripping(text[n..], out);
        assert LongestAt(text, n);
      } else if out != "" && out[0] == text[0] {
        OneStripping(text[1..], out[1..]);
        assert out == [out[0]] + out[1..];
      } else {
        assert WithoutEscapes(text)[0] == text[0];
      }
    }
  }

  /** What is cleaned is the text stripped of its escape sequences, its line ends made plain. */
  ghost predicate IsCleaned(a: Alphabet, text: string, r: string) {
    && (exists out :: Stripped(text, out))
    && (forall out :: Stripped(text, out) ==> r == Survivors(a, OneReplace(out), |OneReplace(out)|))
  }

  lemma CleanedMeans(a: Alphabet, text: string)
    ensures IsCleaned(a, text, Cleaned(a, text))
  {
    hide Survivors, Stripped;
    OneStripping(text, WithoutEscapes(text));
    forall out | Stripped(text, out) ensures Cleaned(a, text) == Survivors(a, OneReplace(out), |OneReplace(out)|) {
      OneStripping(text, out);
      TwoReplacesAreOne(out);
    }
  }

  const CAPITALS := "ABCDEFGHIJKLMNOPQRSTUVWXYZ"
  const SMALLS := "abcdefghijklmnopqrstuvwxyz"
  const DIGITS := "0123456789"

  lemma CapitalsAre(ch: char)
    ensures ch in CAPITALS <==> 'A' <= ch <= 'Z'
  {
  }

  lemma SmallsAre(ch: char)
    ensures ch in SMALLS <==> 'a' <= ch <= 'z'
  {
  }

  lemma DigitsAre(ch: char)
    ensures ch in DIGITS <==> '0' <= ch <= '9'
  {
  }

  /** The characters a credential is made of. */
  lemma CredentialsAreMadeOf(ch: char)
    ensures InCredentials(ch) <==> ch in CAPITALS + SMALLS + DIGITS + "_-./+=:"
  {
    CapitalsAre(ch);
    SmallsAre(ch);
    DigitsAre(ch);
    hide CAPITALS, SMALLS, DIGITS;
    var marks := "_-./+=:";
    assert ch in CAPITALS + SMALLS + DIGITS + marks <==>
      ch in CAPITALS || ch in SMALLS || ch in DIGITS || ch in marks;
  }
}
