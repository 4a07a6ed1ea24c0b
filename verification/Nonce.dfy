/** The code an arming card shows and the person retypes. */
module Nonce {

  const ALPHABET := "ACDEFGHJKMNPQRTUVWXYZ23479"
  const LENGTH := 6
  const GROUP := 3

  predicate InAlphabet(raw: string) {
    |raw| == LENGTH && forall k :: 0 <= k < LENGTH ==> raw[k] in ALPHABET
  }

  /** A freshly drawn code in the form the person sees it. */
  function Format(raw: string): string
    requires |raw| == LENGTH
  {
    raw[..GROUP] + "-" + raw[GROUP..]
  }

  predicate IsAscii(s: string) {
    forall k :: 0 <= k < |s| ==> s[k] < '\U{80}'
  }

  predicate IsBlank(c: char) {
    || c in " \t\n\r" || c == '\U{0B}' || c == '\U{0C}' || '\U{1C}' <= c <= '\U{1F}'
    || c == '\U{85}' || c == '\U{A0}' || c == '\U{1680}' || '\U{2000}' <= c <= '\U{200A}'
    || c == '\U{2028}' || c == '\U{2029}' || c == '\U{202F}' || c == '\U{205F}' || c == '\U{3000}'
  }

  /** Hyphens and the unicode dashes, the minus sign, blanks and the underscore. */
  predicate IsSeparator(c: char) {
    c == '-' || c == '_' || '\U{2010}' <= c <= '\U{2015}' || c == '\U{2212}' || IsBlank(c)
  }

  const DASHES := "-_\U{2010}\U{2011}\U{2012}\U{2013}\U{2014}\U{2015}\U{2212}"
  const BLANKS := " \t\n\r\U{0B}\U{0C}\U{1C}\U{1D}\U{1E}\U{1F}\U{85}\U{A0}\U{1680}"
  const WIDE_BLANKS :=
    "\U{2000}\U{2001}\U{2002}\U{2003}\U{2004}\U{2005}\U{2006}\U{2007}\U{2008}\U{2009}\U{200A}" +
    "\U{2028}\U{2029}\U{202F}\U{205F}\U{3000}"

  /** What may stand between the letters of a code: the dashes and the blanks. */
  lemma SeparatorsAre(c: char)
    ensures IsSeparator(c) <==> c in DASHES || c in BLANKS || c in WIDE_BLANKS
  {
  }

  /** Upper-casing, letter by letter; `upper` says what becomes of a character outside ASCII, perhaps several. */
  function Upper(upper: char -> string, c: char): string {
    if 'a' <= c <= 'z' then [(c as int - 'a' as int + 'A' as int) as char]
    else if c < '\U{80}' then [c]
    else upper(c)
  }

  /** The letters of an answer: what a person types between and around them, and in which case, is not part of it. */
  function Normalise(upper: char -> string, typed: string): string {
    if typed == "" then ""
    else (if IsSeparator(typed[0]) then "" else Upper(upper, typed[0])) + Normalise(upper, typed[1..])
  }

  /** The comparison accepts ASCII only; on anything else it raises. */
  datatype Comparison = Match | NoMatch | Raises

  function Matches(upper: char -> string, typed: string, expected: string): Comparison {
    var t, e := Normalise(upper, typed), Normalise(upper, expected);
    if expected == "" then NoMatch
    else if !IsAscii(t) || !IsAscii(e) then Raises
    else if t == e then Match
    else NoMatch
  }

  lemma {:induction false} NormaliseAppend(upper: char -> string, a: string, b: string)
    ensures Normalise(upper, a + b) == Normalise(upper, a) + Normalise(upper, b)
    decreases |a|
  {
    if a == "" {
      assert a + b == b;
    } else {
      assert (a + b)[1..] == a[1..] + b;
      NormaliseAppend(upper, a[1..], b);
    }
  }

  /** Every character of an answer is a separator, or upper-cases into ASCII. */
  predicate Spellable(upper: char -> string, typed: string) {
    forall k :: 0 <= k < |typed| ==> IsSeparator(typed[k]) || IsAscii(Upper(upper, typed[k]))
  }

  lemma {:induction false} NormalIsAsciiIff(upper: char -> string, typed: string)
    ensures IsAscii(Normalise(upper, typed)) <==> Spellable(upper, typed)
  {
    if typed != "" {
      var first, rest := if IsSeparator(typed[0]) then "" else Upper(upper, typed[0]), typed[1..];
      hide Spellable;
      NormalIsAsciiIff(upper, rest);
      AsciiJoins(first, Normalise(upper, rest));
      SpellableFirst(upper, typed);
    }
  }

  lemma SpellableFirst(upper: char -> string, typed: string)
    requires typed != ""
    ensures Spellable(upper, typed) <==>
              (IsSeparator(typed[0]) || IsAscii(Upper(upper, typed[0]))) && Spellable(upper, typed[1..])
  {
    hide IsSeparator, IsAscii, Upper;
    assert typed == [typed[0]] + typed[1..];
  }

  lemma AsciiJoins(a: string, b: string)
    ensures IsAscii(a + b) <==> IsAscii(a) && IsAscii(b)
  {
    assert forall k :: 0 <= k < |a| ==> a[k] == (a + b)[k];
    assert forall k :: 0 <= k < |b| ==> b[k] == (a + b)[|a| + k];
  }

  lemma AlphabetIsPlain(c: char)
    requires c in ALPHABET
    ensures 'A' <= c <= 'Z' || '0' <= c <= '9'
  {
  }

  lemma {:induction false} AlphabetIsNormal(upper: char -> string, s: string)
    requires forall k :: 0 <= k < |s| ==> s[k] in ALPHABET
    ensures Normalise(upper, s) == s && IsAscii(s)
  {
    hide ALPHABET;
    forall k | 0 <= k < |s|
      ensures 'A' <= s[k] <= 'Z' || '0' <= s[k] <= '9'
    {
      AlphabetIsPlain(s[k]);
    }
    if s != "" {
      AlphabetIsNormal(upper, s[1..]);
      assert s == [s[0]] + s[1..];
    }
  }

  /** The displayed form means the drawn code, and nothing else. */
  lemma FormatMeansRaw(upper: char -> string, raw: string)
    requires InAlphabet(raw)
    ensures Normalise(upper, Format(raw)) == raw
  {
    AlphabetIsNormal(upper, raw[..GROUP]);
    AlphabetIsNormal(upper, raw[GROUP..]);
    assert Normalise(upper, "-") == "" by {
      assert "-"[1..] == "";
    }
    NormaliseAppend(upper, raw[..GROUP] + "-", raw[GROUP..]);
    NormaliseAppend(upper, raw[..GROUP], "-");
    assert raw[..GROUP] + "" + raw[GROUP..] == raw;
  }

  /**
   An answer is right exactly when it spells the drawn code, whatever its case and separators,
   and however characters outside ASCII upper-case. The comparison raises exactly when some
   character typed is no separator and does not upper-case into ASCII.
   */
  lemma MatchesIffSpelled(upper: char -> string, typed: string, raw: string)
    requires InAlphabet(raw)
    ensures Matches(upper, typed, Format(raw)) == Match <==> Normalise(upper, typed) == raw
    ensures Matches(upper, typed, Format(raw)) == Raises <==> !Spellable(upper, typed)
  {
    FormatMeansRaw(upper, raw);
    AlphabetIsNormal(upper, raw);
    NormalIsAsciiIff(upper, typed);
  }

  /** No answer is right for two different codes. */
  lemma CodesAreDistinct(upper: char -> string, typed: string, raw: string, raw': string)
    requires InAlphabet(raw) && InAlphabet(raw')
    requires Matches(upper, typed, Format(raw)) == Match && Matches(upper, typed, Format(raw')) == Match
    ensures raw == raw'
  {
    hide Normalise, Matches, Format, InAlphabet;
    MatchesIffSpelled(upper, typed, raw);
    MatchesIffSpelled(upper, typed, raw');
  }

  /**
   What a person may do to a code and still spell it: put separators anywhere, leave them out, and
   write any letter small. A capital, a digit or any other ASCII character stands for itself.
   */
  lemma CaseAndSeparatorsDoNotCount(upper: char -> string, a: string, c: char, b: string)
    ensures IsSeparator(c) ==> Normalise(upper, a + [c] + b) == Normalise(upper, a + b)
    ensures 'a' <= c <= 'z' ==>
              Normalise(upper, a + [c] + b) ==
              Normalise(upper, a + [(c as int - 'a' as int + 'A' as int) as char] + b)
    ensures c < '\U{80}' && !IsSeparator(c) && !('a' <= c <= 'z') ==>
              Normalise(upper, a + [c] + b) == Normalise(upper, a) + [c] + Normalise(upper, b)
    ensures Normalise(upper, "") == ""
  {
    hide Normalise, IsSeparator, Upper;
    Around(upper, a, c, b);
    NormaliseOne(upper, c);
    NormaliseAppend(upper, a, b);
    NothingNormal(upper);
    AsciiUpper(upper, c);
    assert Normalise(upper, a) + "" == Normalise(upper, a);
    if 'a' <= c <= 'z' {
      var d := (c as int - 'a' as int + 'A' as int) as char;
      Around(upper, a, d, b);
      NormaliseOne(upper, d);
      AsciiUpper(upper, d);
    }
  }

  lemma NothingNormal(upper: char -> string)
    ensures Normalise(upper, "") == ""
  {
  }

  lemma AsciiUpper(upper: char -> string, c: char)
    ensures 'a' <= c <= 'z' ==>
              !IsSeparator(c) && Upper(upper, c) == [(c as int - 'a' as int + 'A' as int) as char]
    ensures 'A' <= c <= 'Z' ==> !IsSeparator(c)
    ensures c < '\U{80}' && !('a' <= c <= 'z') ==> Upper(upper, c) == [c]
  {
  }

  lemma Around(upper: char -> string, a: string, c: char, b: string)
    ensures Normalise(upper, a + [c] + b) == Normalise(upper, a) + Normalise(upper, [c]) + Normalise(upper, b)
  {
    hide Normalise;
    NormaliseAppend(upper, a + [c], b);
    NormaliseAppend(upper, a, [c]);
  }

  // ----- three characters outside ASCII -----------------------------------------------------

  lemma NormaliseOne(upper: char -> string, c: char)
    ensures Normalise(upper, [c]) == if IsSeparator(c) then "" else Upper(upper, c)
  {
    assert [c][1..] == "";
    assert Normalise(upper, "") == "";
  }

  /** An accented letter stays outside ASCII, and the comparison raises. */
  lemma AccentRaises(upper: char -> string, raw: string)
    requires upper('\U{E9}') == "\U{C9}" && InAlphabet(raw)
    ensures Matches(upper, "\U{E9}", Format(raw)) == Raises
  {
    MatchesIffSpelled(upper, "\U{E9}", raw);
    assert !IsAscii("\U{C9}") by {
      assert "\U{C9}"[0] >= '\U{80}';
    }
    assert "\U{E9}"[0] == '\U{E9}';
  }

  /** A sharp s becomes two letters of ASCII, and is refused like any other wrong answer. */
  lemma SharpIsRefused(upper: char -> string, raw: string)
    requires upper('\U{DF}') == "SS" && InAlphabet(raw)
    ensures Matches(upper, "\U{DF}", Format(raw)) == NoMatch
  {
    hide Matches, Format, ALPHABET, Normalise;
    var typed := ['\U{DF}'];
    MatchesIffSpelled(upper, typed, raw);
    NormaliseOne(upper, '\U{DF}');
    assert |Normalise(upper, typed)| == 2;
    NormalIsAsciiIff(upper, typed);
  }

  /** And a ligature of two letters spells them, in any code they open. */
  lemma LigatureMatches(upper: char -> string, raw: string)
    requires upper('\U{FB00}') == "FF" && InAlphabet(raw) && raw[..2] == "FF"
    ensures Matches(upper, "\U{FB00}" + raw[2..], Format(raw)) == Match
  {
    hide Matches, Format, ALPHABET;
    var typed := "\U{FB00}" + raw[2..];
    NormaliseOne(upper, '\U{FB00}');
    AlphabetIsNormal(upper, raw[2..]);
    NormaliseAppend(upper, "\U{FB00}", raw[2..]);
    assert raw == raw[..2] + raw[2..];
    MatchesIffSpelled(upper, typed, raw);
  }
}
