/** Where a long conversation may be cut, and the history its continuation starts from. */
module ContextCut {
  import opened Wrappers
  import opened Messages

  const KEEP_RECENT_TURNS := 4

  const SEED_SUMMARY_HEADING := "Earlier in this conversation (a summary Addison wrote):"
  const SEED_FACTS_HEADING := "Things you have confirmed you want remembered:"
  const SEED_CLOSING := "The messages after this one are the most recent part of the conversation, word for word."

  datatype CutPoint = BadKeep | NoCut(keptTurns: nat) | Cut(index: nat, keptTurns: nat)

  predicate RequestedTools(m: Message) {
    m.role == Assistant && (m.calls != [] || m.pastCalls != [])
  }

  /** The positions of the messages that open a turn, in order. */
  function TurnStarts(h: seq<Message>): seq<nat> {
    if h == [] then []
    else
      var k := |h| - 1;
      TurnStarts(h[..k]) + if h[k].role == User then [k] else []
  }

  predicate IsLegalCut(h: seq<Message>, index: int) {
    && 0 < index < |h|
    && h[index].role == User
    && !RequestedTools(h[index - 1])
  }

  /** The walk to earlier turns: the first legal start at or before `position`, never the very first turn. */
  function Search(h: seq<Message>, starts: seq<nat>, position: nat): CutPoint
    requires position < |starts|
  {
    if position == 0 then NoCut(|starts|)
    else if IsLegalCut(h, starts[position]) then Cut(starts[position], |starts| - position)
    else Search(h, starts, position - 1)
  }

  function ChooseCutPoint(h: seq<Message>, keepRecentTurns: int): CutPoint {
    if keepRecentTurns < 1 then BadKeep
    else
      var starts := TurnStarts(h);
      if |starts| <= keepRecentTurns then NoCut(|starts|)
      else Search(h, starts, |starts| - keepRecentTurns)
  }

  // ----- what a cut is, said without the search -----------------------------------------

  /** How many turns open in `h`. */
  function Turns(h: seq<Message>): nat {
    if h == [] then 0 else (if h[0].role == User then 1 else 0) + Turns(h[1..])
  }

  /** A legal cut with some turn before it and at least `keep` whole turns after it. */
  predicate Roomy(h: seq<Message>, keep: int, index: int) {
    IsLegalCut(h, index) && Turns(h[..index]) > 0 && Turns(h[index..]) >= keep
  }

  ghost predicate Latest(h: seq<Message>, keep: int, index: int) {
    Roomy(h, keep, index) && forall j :: Roomy(h, keep, j) ==> j <= index
  }

  ghost predicate NoRoom(h: seq<Message>, keep: int) {
    forall j :: !Roomy(h, keep, j)
  }

  lemma {:induction false} TurnsAppend(a: seq<Message>, b: seq<Message>)
    ensures Turns(a + b) == Turns(a) + Turns(b)
    decreases |a|
  {
    if a == [] {
      assert a + b == b;
    } else {
      assert (a + b)[1..] == a[1..] + b;
      TurnsAppend(a[1..], b);
    }
  }

  /** The list is exactly the positions of the user messages, ascending. */
  ghost predicate Lists(h: seq<Message>, starts: seq<nat>) {
    && (forall p :: 0 <= p < |starts| ==> starts[p] < |h| && h[starts[p]].role == User)
    && (forall p, q :: 0 <= p < q < |starts| ==> starts[p] < starts[q])
    && (forall i :: 0 <= i < |h| && h[i].role == User ==> i in starts)
  }

  lemma TurnsOfLast(h: seq<Message>)
    requires h != []
    ensures Turns(h) == Turns(h[..|h| - 1]) + if h[|h| - 1].role == User then 1 else 0
  {
    var k := |h| - 1;
    assert h == h[..k] + [h[k]];
    TurnsAppend(h[..k], [h[k]]);
    assert [h[k]][1..] == [];
  }

  lemma ListsOneMore(front: seq<Message>, starts: seq<nat>, m: Message)
    requires Lists(front, starts)
    ensures Lists(front + [m], starts + if m.role == User then [|front|] else [])
  {
    var h, all := front + [m], starts + if m.role == User then [|front|] else [];
    forall i | 0 <= i < |h| && h[i].role == User
      ensures i in all
    {
      if i == |front| {
        assert all[|starts|] == i;
      }
    }
  }

  lemma {:induction false} StartsAreTheUsers(h: seq<Message>)
    ensures Lists(h, TurnStarts(h))
    ensures |TurnStarts(h)| == Turns(h)
  {
    if h != [] {
      var k := |h| - 1;
      StartsAreTheUsers(h[..k]);
      TurnsOfLast(h);
      hide Turns, Lists;
      ListsOneMore(h[..k], TurnStarts(h[..k]), h[k]);
      assert h == h[..k] + [h[k]];
    }
  }

  lemma StartsAscend(h: seq<Message>)
    ensures forall p, q :: 0 <= p < q < |TurnStarts(h)| ==> TurnStarts(h)[p] < TurnStarts(h)[q]
  {
    StartsAreTheUsers(h);
  }

  /** The p-th start has p turns before it, and the rest after. */
  lemma {:induction false} TurnsAroundAStart(h: seq<Message>, p: nat)
    requires p < |TurnStarts(h)|
    ensures TurnStarts(h)[p] < |h|
    ensures Turns(h[..TurnStarts(h)[p]]) == p && Turns(h[TurnStarts(h)[p]..]) == Turns(h) - p
    decreases |h|
  {
    hide Turns;
    var k := |h| - 1;
    var front, i := h[..k], TurnStarts(h)[p];
    StartsAreTheUsers(h);
    StartsAreTheUsers(front);
    if p < |TurnStarts(front)| {
      TurnsAroundAStart(front, p);
      assert h[..i] == front[..i];
    } else {
      assert h[..i] == front;
    }
    assert h == h[..i] + h[i..];
    TurnsAppend(h[..i], h[i..]);
  }

  lemma RoomyIsAStart(h: seq<Message>, position: nat, j: int)
    requires position < |TurnStarts(h)|
    ensures Roomy(h, Turns(h) - position, j) <==>
            exists p :: 0 < p <= position && TurnStarts(h)[p] == j && IsLegalCut(h, j)
  {
    hide Turns, TurnStarts;
    var starts := TurnStarts(h);
    StartsAreTheUsers(h);
    if Roomy(h, Turns(h) - position, j) {
      assert h[j].role == User;
      var p :| 0 <= p < |starts| && starts[p] == j;
      TurnsAroundAStart(h, p);
      assert 0 < p <= position;
    }
    if p :| 0 < p <= position && starts[p] == j && IsLegalCut(h, j) {
      TurnsAroundAStart(h, p);
    }
  }

  lemma {:induction false} SearchFindsLatest(h: seq<Message>, position: nat)
    requires position < |TurnStarts(h)|
    ensures var cut, keep := Search(h, TurnStarts(h), position), Turns(h) - position;
            && !cut.BadKeep?
            && (cut.Cut? ==> Latest(h, keep, cut.index) && cut.keptTurns == Turns(h[cut.index..]))
            && (cut.NoCut? ==> NoRoom(h, keep) && cut.keptTurns == Turns(h))
  {
    hide Turns, TurnStarts, IsLegalCut, Roomy, Lists;
    var starts, keep := TurnStarts(h), Turns(h) - position;
    StartsAreTheUsers(h);
    forall j
      ensures Roomy(h, keep, j) <==> exists p :: 0 < p <= position && starts[p] == j && IsLegalCut(h, j)
    {
      RoomyIsAStart(h, position, j);
    }
    if position > 0 {
      if IsLegalCut(h, starts[position]) {
        TurnsAroundAStart(h, position);
        assert Roomy(h, keep, starts[position]);
        forall j | Roomy(h, keep, j)
          ensures j <= starts[position]
        {
          StartsAscend(h);
        }
      } else {
        SearchFindsLatest(h, position - 1);
        forall j
          ensures Roomy(h, keep, j) <==> Roomy(h, keep + 1, j)
        {
          RoomyIsAStart(h, position - 1, j);
        }
      }
    }
  }

  /**
   The cut chosen is the latest legal one that keeps the requested number of turns whole;
   none is chosen exactly when there is none.
   */
  lemma CutIsLatestLegal(h: seq<Message>, keep: int)
    ensures var cut := ChooseCutPoint(h, keep);
            && (cut.BadKeep? <==> keep < 1)
            && (cut.Cut? ==> Latest(h, keep, cut.index) && cut.keptTurns == Turns(h[cut.index..]))
            && (cut.NoCut? ==> NoRoom(h, keep) && cut.keptTurns == Turns(h))
  {
    hide Turns, TurnStarts;
    StartsAreTheUsers(h);
    if 1 <= keep < Turns(h) {
      SearchFindsLatest(h, Turns(h) - keep);
    } else if keep >= 1 {
      forall j | IsLegalCut(h, j)
        ensures !Roomy(h, keep, j)
      {
        assert h == h[..j] + h[j..];
        TurnsAppend(h[..j], h[j..]);
      }
    }
  }

  // ----- cuts and pairing ------------------------------------------------------------------

  /** A legal cut of a paired history never parts a request from its results. */
  lemma LegalCutKeepsPairing(h: seq<Message>, index: int)
    requires Paired(h) && IsLegalCut(h, index)
    ensures Paired(h[..index]) && Paired(h[index..])
  {
    PrefixIff(h, index);
    SuffixPaired(h, index);
  }

  /** On a history no part of which was reopened, every turn start but the first position is a legal cut. */
  lemma LiveStartsAreLegal(h: seq<Message>, index: int)
    requires Paired(h) && AllLive(h) && 0 < index < |h| && h[index].role == User
    ensures IsLegalCut(h, index)
  {
    NothingOwedBefore(h, index);
  }

  /** So the first candidate is taken: such a history with turns to spare is cut to exactly the turns asked for. */
  lemma LiveCutIsExact(h: seq<Message>, keep: int, cut: CutPoint)
    requires Paired(h) && AllLive(h) && 1 <= keep < Turns(h) && cut == ChooseCutPoint(h, keep)
    ensures cut.Cut? && cut.index < |h| && cut.keptTurns == keep == Turns(h[cut.index..])
    ensures Paired(h[..cut.index]) && Paired(h[cut.index..])
  {
    hide Turns, TurnStarts, Paired;
    StartsAreTheUsers(h);
    var starts := TurnStarts(h);
    var p := |starts| - keep;
    assert starts[0] < starts[p];
    LiveStartsAreLegal(h, starts[p]);
    LegalCutKeepsPairing(h, starts[p]);
    TurnsAroundAStart(h, p);
  }

  // ----- the continuation --------------------------------------------------------------------

  function Join(parts: seq<string>): string {
    if parts == [] then ""
    else if |parts| == 1 then parts[0]
    else parts[0] + "\n" + Join(parts[1..])
  }

  function Lines(facts: seq<string>): seq<string> {
    if facts == [] then []
    else (if facts[0] == "" then [] else ["- " + facts[0]]) + Lines(facts[1..])
  }

  /** `facts` are the confirmed facts with their surrounding blanks already stripped; empty ones are not told. */
  function SeedText(summary: string, facts: seq<string>): string {
    var kept := Lines(facts);
    Join([SEED_SUMMARY_HEADING, summary]
         + (if kept == [] then [] else ["", SEED_FACTS_HEADING] + kept)
         + ["", SEED_CLOSING])
  }

  /** Each fact that says something, on a line of its own. */
  function FactLines(facts: seq<string>): string {
    if facts == [] then ""
    else (if facts[0] == "" then "" else "\n- " + facts[0]) + FactLines(facts[1..])
  }

  predicate NothingToTell(facts: seq<string>) {
    forall k :: 0 <= k < |facts| ==> facts[k] == ""
  }

  lemma {:induction false} NoLinesIff(facts: seq<string>)
    ensures Lines(facts) == [] <==> NothingToTell(facts)
  {
    if facts != [] {
      NoLinesIff(facts[1..]);
      assert forall k :: 1 <= k < |facts| ==> facts[k] == facts[1..][k - 1];
      assert facts[0] != "" ==> Lines(facts)[0] == "- " + facts[0];
    }
  }

  lemma {:induction false} LinesAreFactLines(facts: seq<string>)
    ensures FactLines(facts) == if Lines(facts) == [] then "" else "\n" + Join(Lines(facts))
  {
    if facts != [] {
      LinesAreFactLines(facts[1..]);
      if facts[0] == "" {
        assert Lines(facts) == Lines(facts[1..]) && FactLines(facts) == FactLines(facts[1..]);
      } else {
        OneLineMore(facts[0], Lines(facts[1..]));
        assert FactLines(facts[1..]) == if Lines(facts[1..]) == [] then "" else "\n" + Join(Lines(facts[1..]));
        assert Lines(facts) == ["- " + facts[0]] + Lines(facts[1..]);
      }
    }
  }

  lemma OneLineMore(fact: string, rest: seq<string>)
    ensures "\n" + Join(["- " + fact] + rest) == ("\n- " + fact) + if rest == [] then "" else "\n" + Join(rest)
  {
    var line := "- " + fact;
    assert "\n- " + fact == "\n" + line;
    assert ([line] + rest)[1..] == rest;
    if rest == [] {
      assert [line] + rest == [line];
    } else {
      assert "\n" + (line + "\n" + Join(rest)) == ("\n" + line) + ("\n" + Join(rest));
    }
  }

  lemma {:induction false} JoinAppend(a: seq<string>, b: seq<string>)
    requires a != [] && b != []
    ensures Join(a + b) == Join(a) + ("\n" + Join(b))
  {
    assert (a + b)[0] == a[0] && (a + b)[1..] == a[1..] + b;
    if |a| > 1 {
      JoinAppend(a[1..], b);
      Regroup(a[0] + "\n", Join(a[1..]), "\n" + Join(b));
    } else {
      Regroup(a[0], "\n", Join(b));
    }
  }

  lemma Regroup(a: string, b: string, c: string)
    ensures a + b + c == a + (b + c)
  {
  }

  lemma JoinTwo(a: string, b: string)
    ensures Join([a, b]) == a + "\n" + b
    ensures Join(["", b]) == "\n" + b
  {
    assert [a, b][1..] == [b] && ["", b][1..] == [b];
  }

  /**
   What the continuation opens with: the summary under its heading, then the facts that say
   something, each on a line under theirs, and last the closing words.
   */
  lemma SeedTells(summary: string, facts: seq<string>)
    ensures SeedText(summary, facts) ==
              (SEED_SUMMARY_HEADING + "\n" + summary)
              + (if NothingToTell(facts) then "" else "\n" + ("\n" + SEED_FACTS_HEADING + FactLines(facts)))
              + ("\n" + ("\n" + SEED_CLOSING))
  {
    NoLinesIff(facts);
    LinesAreFactLines(facts);
    JoinTwo(SEED_SUMMARY_HEADING, summary);
    JoinTwo(SEED_SUMMARY_HEADING, SEED_FACTS_HEADING);
    JoinTwo(SEED_SUMMARY_HEADING, SEED_CLOSING);
    hide SEED_SUMMARY_HEADING, SEED_FACTS_HEADING, SEED_CLOSING, FactLines, Lines, Join, NothingToTell;
    var opening, kept, closing := [SEED_SUMMARY_HEADING, summary], Lines(facts), ["", SEED_CLOSING];
    if kept == [] {
      assert opening + [] + closing == opening + closing;
      JoinAppend(opening, closing);
      assert SEED_SUMMARY_HEADING + "\n" + summary + "" == SEED_SUMMARY_HEADING + "\n" + summary;
    } else {
      var section := ["", SEED_FACTS_HEADING] + kept;
      JoinAppend(["", SEED_FACTS_HEADING], kept);
      JoinAppend(opening, section);
      JoinAppend(opening + section, closing);
    }
  }

  /** And each such fact is told, whole. */
  lemma {:induction false} FactIsTold(facts: seq<string>, k: nat)
    requires k < |facts| && facts[k] != ""
    ensures exists a, b :: FactLines(facts) == a + ("\n- " + facts[k]) + b
  {
    var first := if facts[0] == "" then "" else "\n- " + facts[0];
    if k == 0 {
      assert FactLines(facts) == "" + ("\n- " + facts[0]) + FactLines(facts[1..]);
    } else {
      FactIsTold(facts[1..], k - 1);
      var a, b :| FactLines(facts[1..]) == a + ("\n- " + facts[1..][k - 1]) + b;
      assert FactLines(facts) == (first + a) + ("\n- " + facts[k]) + b;
    }
  }

  function BuildSeed(summary: string, facts: seq<string>, tail: seq<Message>): seq<Message> {
    [Say(User, SeedText(summary, facts))] + tail
  }

  lemma SeedIsOneTurnMore(summary: string, facts: seq<string>, tail: seq<Message>)
    requires Paired(tail)
    ensures var seed := BuildSeed(summary, facts, tail);
            && Paired(seed) && Turns(seed) == Turns(tail) + 1
            && seed[1..] == tail && (AllLive(tail) ==> AllLive(seed))
  {
    hide SeedText;
    var seed := BuildSeed(summary, facts, tail);
    assert seed[0].role == User && seed[1..] == tail;
  }

  /** The continuation of a paired history at its cut is paired, and ends with the kept turns word for word. */
  lemma SeedKeepsPairing(h: seq<Message>, keep: int, cut: CutPoint, summary: string, facts: seq<string>)
    requires Paired(h) && cut == ChooseCutPoint(h, keep) && cut.Cut?
    ensures cut.index < |h|
    ensures var tail := h[cut.index..];
            var seed := BuildSeed(summary, facts, tail);
            && Paired(seed) && Turns(seed) == Turns(tail) + 1 >= keep + 1
            && seed[1..] == tail
            && (AllLive(h) ==> AllLive(seed))
  {
    hide ChooseCutPoint, BuildSeed, Paired, Turns;
    CutIsLatestLegal(h, keep);
    LegalCutKeepsPairing(h, cut.index);
    SeedIsOneTurnMore(summary, facts, h[cut.index..]);
  }
}
