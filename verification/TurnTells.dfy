/**
 What a turn comes to, told from what the world answered: the text each send streamed, how each
 ended, and what the doors, the gate and the tools said of each call.
 */
module TurnTells {
  import opened Wrappers
  import opened Messages
  import opened Relay
  import opened ToolRun
  import opened Turn
  import opened TurnLaws

  function EndingOf(w: Setting, k: nat): Ending {
    w.world.replies(k).ending
  }

  /** What the k-th send streamed. */
  function TextOf(w: Setting, k: nat): string {
    Flat(w.world.replies(k).deltas)
  }

  /** The tool requests of the first `n` answers, in order. */
  function CallsAsked(w: Setting, n: nat): seq<ToolCall> {
    if n == 0 then []
    else CallsAsked(w, n - 1) + if EndingOf(w, n - 1).Answered? then EndingOf(w, n - 1).calls else []
  }

  /** How many of the first `n` sends were answered. */
  function Answers(w: Setting, n: nat): nat {
    if n == 0 then 0 else Answers(w, n - 1) + if EndingOf(w, n - 1).Answered? then 1 else 0
  }

  /** The k-th send failed in a way another candidate may cure, with nothing on the screen by then. */
  predicate WalkedPast(w: Setting, k: nat) {
    && EndingOf(w, k).Failed?
    && (EndingOf(w, k).why == KeyRejected || EndingOf(w, k).why == ModelGone || EndingOf(w, k).why == Unavailable)
    && (w.hasSink ==> forall j :: 0 <= j <= k ==> TextOf(w, j) == "")
  }

  /** After the k-th send the turn goes on: it asked for tools, or failed and was walked past. */
  predicate GoesOn(w: Setting, k: nat) {
    (EndingOf(w, k).Answered? && EndingOf(w, k).calls != []) || WalkedPast(w, k)
  }

  // ----- an answer, field by field --------------------------------------------------------------

  lemma ClosingAnswer(w: Setting, s: State, cand: Candidate, text: string, capped: bool)
    requires s.said != []
    ensures var a := AfterAnswer(w, s, cand, text, [], capped);
            && a.log == s.log && a.idx == s.idx && a.cooled == s.cooled && a.cooledModels == s.cooledModels
            && a.passes == s.passes && a.ran == s.ran && a.made == s.made && a.rounds == s.rounds
            && a.committed == s.committed
            && a.messages == s.messages + [Request(text, [])] && a.outcome == Done(cand, capped)
            && a.said == if Last(s.said) != "" then s.said else Pushed(w.hasSink, s.said, text)
  {
  }

  /** A round of tools, and whether it closes the turn. */
  lemma RoundOrClose(w: Setting, s: State, cand: Candidate, text: string, calls: seq<ToolCall>, capped: bool)
    requires s.said != [] && calls != []
    ensures AfterAnswer(w, s, cand, text, calls, capped) ==
            if s.made + |calls| > MAX_TOOL_CALLS then CloseOverBudget(w, ToolRound(w, s, cand, text, calls))
            else ToolRound(w, s, cand, text, calls)
  {
    hide ToolRound, CloseOverBudget;
  }

  lemma RoundFields(w: Setting, s: State, cand: Candidate, text: string, calls: seq<ToolCall>)
    ensures var a := ToolRound(w, s, cand, text, calls);
            && a.log == s.log && a.idx == s.idx && a.cooled == s.cooled && a.cooledModels == s.cooledModels
            && a.outcome == s.outcome && a.said == s.said && a.rounds == s.rounds + 1 && a.passes == s.passes
            && a.committed == Some(cand.providerId)
            && a.ran == s.ran + RanOf(calls, s.made, w.world.facts) && a.made == MadeAfter(calls, s.made)
            && a.messages == s.messages +
                 ([Request(text, calls)] + ResultsFor(calls, s.made, w.world.facts, w.world.vision(cand)))
  {
    hide ResultsFor, RanOf, MadeAfter;
  }

  lemma CloseFields(w: Setting, s: State)
    ensures var c := CloseOverBudget(w, s);
            && c.log == s.log && c.idx == s.idx && c.cooled == s.cooled && c.cooledModels == s.cooledModels
            && c.passes == s.passes && c.ran == s.ran && c.made == s.made && c.rounds == s.rounds
            && c.committed == s.committed
            && c.messages == s.messages + [Say(Assistant, TOO_MANY_STEPS)] && c.outcome == OverBudget
            && c.said == Pushed(w.hasSink, s.said + [""], TOO_MANY_STEPS)
  {
  }

  /** What an answered send leaves the walk with. */
  lemma AnsweredFields(w: Setting, s: State, cand: Candidate, text: string, calls: seq<ToolCall>, capped: bool)
    requires s.said != [] && s.outcome == Running && EndingOf(w, |s.log|) == Answered(text, calls, capped)
    ensures var a := AfterAnswer(w, Heeded(w, s, cand), cand, text, calls, capped);
            && a.log == s.log + [Attempt(s.idx, true, |s.messages|)] && a.idx == s.idx && a.passes == s.passes + 1
            && a.cooled == s.cooled && a.cooledModels == s.cooledModels
            && a.committed == (if calls == [] then s.committed else Some(cand.providerId))
            && (a.outcome.Done? ==> calls == [] && a.outcome == Done(cand, capped))
  {
    hide AfterAnswer, Streamed, ToolRound, CloseOverBudget, ResultsFor, RanOf, MadeAfter, Pushed;
    var h := Heeded(w, s, cand);
    if calls == [] {
      ClosingAnswer(w, h, cand, text, capped);
    } else {
      RoundOrClose(w, h, cand, text, calls, capped);
      RoundFields(w, h, cand, text, calls);
      CloseFields(w, ToolRound(w, h, cand, text, calls));
    }
  }

  // ----- the screen ------------------------------------------------------------------------------

  /** The turn is over and its last send answered without asking for tools. */
  predicate ClosedByAnswer(w: Setting, s: State) {
    && s.outcome.Done? && s.log != []
    && EndingOf(w, |s.log| - 1).Answered? && EndingOf(w, |s.log| - 1).calls == []
  }

  /**
   With a reader watching, each send's utterance is what that send streamed; only an answer
   nothing was streamed of is said whole. A turn closed over its budget says so, as an utterance
   of its own. And only the last send of a turn does not lead on.
   */
  predicate ScreenTold(w: Setting, s: State) {
    && |s.said| == |s.log| + (if s.outcome == OverBudget then 2 else 1) && s.said[0] == ""
    && (forall k :: 0 <= k < |s.log| - 1 ==> GoesOn(w, k))
    && (s.outcome == Running || s.outcome == OverBudget ==> s.log != [] ==> GoesOn(w, |s.log| - 1))
    && (s.outcome.Done? ==> ClosedByAnswer(w, s))
    && (w.hasSink ==>
          forall k :: 0 <= k < |s.log| ==>
            s.said[k + 1] ==
              if k == |s.log| - 1 && s.outcome.Done? && TextOf(w, k) == "" then EndingOf(w, k).text else TextOf(w, k))
    && (!w.hasSink ==> forall k :: 0 <= k < |s.said| ==> s.said[k] == "")
    && (w.hasSink && s.outcome == OverBudget ==> s.said[|s.log| + 1] == TOO_MANY_STEPS)
  }

  lemma {:induction false} StreamedIs(said: seq<string>, deltas: seq<string>)
    requires said != []
    ensures var r := Streamed(true, said, deltas);
            |r| == |said| && r[..|r| - 1] == said[..|said| - 1] && Last(r) == Last(said) + Flat(deltas)
  {
    if deltas != [] {
      StreamedIs(said, deltas[..|deltas| - 1]);
      var before, last := Flat(deltas[..|deltas| - 1]), Last(deltas);
      assert Last(said) + before + last == Last(said) + (before + last);
    } else {
      assert Last(said) + "" == Last(said);
    }
  }

  /** A send, heard: one more utterance, which is what it streamed. */
  lemma HeardTold(w: Setting, s: State, cand: Candidate)
    requires s.said != []
    ensures var h := Heeded(w, s, cand);
            && |h.said| == |s.said| + 1 && h.said[..|s.said|] == s.said
            && (if w.hasSink then Last(h.said) == TextOf(w, |s.log|) else Last(h.said) == "")
  {
    NoSinkNothingSaid(s.said + [""], w.world.replies(|s.log|).deltas);
    if w.hasSink {
      StreamedIs(s.said + [""], w.world.replies(|s.log|).deltas);
      assert "" + TextOf(w, |s.log|) == TextOf(w, |s.log|);
    }
    assert (s.said + [""])[..|s.said|] == s.said;
  }

  /** Nothing is on the screen exactly when nothing was streamed. */
  lemma ScreenEmptyIff(w: Setting, h: State)
    requires |h.said| == |h.log| + 1 && h.said[0] == ""
    requires if w.hasSink then forall k :: 0 <= k < |h.log| ==> h.said[k + 1] == TextOf(w, k)
             else forall k :: 0 <= k < |h.said| ==> h.said[k] == ""
    ensures Thread(h.said) == "" <==> (w.hasSink ==> forall j :: 0 <= j < |h.log| ==> TextOf(w, j) == "")
  {
    hide Thread, Woven;
    OnlyNewlinesAreAdded(h.said);
    if w.hasSink && Thread(h.said) == "" {
      forall j | 0 <= j < |h.log| ensures TextOf(w, j) == "" {
        assert h.said[j + 1] == "";
      }
    }
    if w.hasSink && forall j :: 0 <= j < |h.log| ==> TextOf(w, j) == "" {
      forall k | 0 <= k < |h.said| ensures h.said[k] == "" {
        assert k > 0 ==> h.said[k - 1 + 1] == TextOf(w, k - 1);
      }
    }
  }

  /** The utterances up to and with the send just heard. */
  lemma HeardSoFar(w: Setting, s: State, cand: Candidate)
    requires ScreenTold(w, s) && s.outcome == Running
    ensures var h := Heeded(w, s, cand);
            && |h.log| == |s.log| + 1 && |h.said| == |h.log| + 1 && h.said[0] == ""
            && (if w.hasSink then forall k :: 0 <= k < |h.log| ==> h.said[k + 1] == TextOf(w, k)
                else forall k :: 0 <= k < |h.said| ==> h.said[k] == "")
            && (forall k :: 0 <= k < |s.log| ==> GoesOn(w, k))
  {
    hide Streamed, GoesOn;
    var h := Heeded(w, s, cand);
    HeardTold(w, s, cand);
    assert forall k :: 0 <= k < |s.said| ==> h.said[k] == h.said[..|s.said|][k];
    forall k | 0 <= k < |s.log| ensures GoesOn(w, k) {
    }
  }

  lemma FailureKeepsTold(w: Setting, s: State, cand: Candidate, why: Failure, sentence: string)
    requires ScreenTold(w, s) && s.outcome == Running && EndingOf(w, |s.log|) == Failed(why, sentence)
    ensures ScreenTold(w, AfterFailure(w, Heeded(w, s, cand), cand, why, sentence, w.world.replies(|s.log|).endedAt))
  {
    hide AfterFailure, Streamed, Thread;
    var h := Heeded(w, s, cand);
    HeardSoFar(w, s, cand);
    ScreenEmptyIff(w, h);
    FailureFacts(w, h, cand, why, sentence, w.world.replies(|s.log|).endedAt);
  }

  lemma ClosingKeepsTold(w: Setting, s: State, cand: Candidate, text: string, capped: bool)
    requires ScreenTold(w, s) && s.outcome == Running && EndingOf(w, |s.log|) == Answered(text, [], capped)
    ensures ScreenTold(w, AfterAnswer(w, Heeded(w, s, cand), cand, text, [], capped))
  {
    hide AfterAnswer, Streamed, TextOf;
    var h := Heeded(w, s, cand);
    HeardSoFar(w, s, cand);
    ClosingAnswer(w, h, cand, text, capped);
    HeardLast(h.said, text);
  }

  lemma RoundKeepsTold(w: Setting, s: State, cand: Candidate, text: string, calls: seq<ToolCall>, capped: bool)
    requires ScreenTold(w, s) && s.outcome == Running && EndingOf(w, |s.log|) == Answered(text, calls, capped)
    requires calls != []
    ensures ScreenTold(w, AfterAnswer(w, Heeded(w, s, cand), cand, text, calls, capped))
  {
    hide AfterAnswer, Streamed, TextOf, ToolRound, CloseOverBudget;
    var h := Heeded(w, s, cand);
    HeardSoFar(w, s, cand);
    RoundOrClose(w, h, cand, text, calls, capped);
    RoundFields(w, h, cand, text, calls);
    CloseFields(w, ToolRound(w, h, cand, text, calls));
    HeardLast(h.said + [""], TOO_MANY_STEPS);
    assert (h.said + [""])[..|h.said|] == h.said;
  }

  lemma HeardLast(said: seq<string>, text: string)
    requires said != []
    ensures Heard(said, text)[..|said| - 1] == said[..|said| - 1] && |Heard(said, text)| == |said|
    ensures Last(Heard(said, text)) == Last(said) + text && "" + text == text
    ensures forall k :: 0 <= k < |said| - 1 ==> Heard(said, text)[k] == said[k]
  {
  }

  lemma PassKeepsTold(w: Setting, s: State)
    requires ScreenTold(w, s) && s.outcome == Running
    ensures ScreenTold(w, Pass(w, s))
  {
    hide Pass, Streamed, AfterAnswer, AfterFailure, TextOf, GoesOn;
    PassStops(w, s);
    HeardLast(s.said + [""], TOO_MANY_STEPS);
    assert (s.said + [""])[..|s.said|] == s.said;
    if MaySend(w, s) {
      if s.committed.Some? && w.active[s.idx].providerId != s.committed.value {
        PassSkips(w, s);
      } else {
        PassSends(w, s);
        match EndingOf(w, |s.log|) {
          case Answered(text, calls, capped) =>
            if calls == [] {
              ClosingKeepsTold(w, s, w.active[s.idx], text, capped);
            } else {
              RoundKeepsTold(w, s, w.active[s.idx], text, calls, capped);
            }
          case Failed(why, sentence) => FailureKeepsTold(w, s, w.active[s.idx], why, sentence);
        }
      }
    }
  }

  lemma {:induction false} FinishKeepsTold(w: Setting, s: State)
    requires ScreenTold(w, s)
    ensures ScreenTold(w, Finish(w, s))
    decreases Left(w, s)
  {
    if s.outcome == Running {
      PassProgresses(w, s);
      PassKeepsTold(w, s);
      hide Pass, Finish, ScreenTold;
      FinishStep(w, s);
      FinishKeepsTold(w, Pass(w, s));
    }
  }

  // ----- the history and the tools -----------------------------------------------------------------

  predicate InChain(w: Setting, log: seq<Attempt>) {
    forall k :: 0 <= k < |log| ==> log[k].idx < |w.active|
  }

  /**
   `more` is what the first `n` sends add to a history: for each answer its text with the tools it
   asked for, and then each call's result, told what became of it; for a failure nothing.
   */
  predicate Records(w: Setting, log: seq<Attempt>, more: seq<Message>, n: nat)
    requires n <= |log| && InChain(w, log)
    decreases n
  {
    if n == 0 then more == []
    else
      match EndingOf(w, n - 1)
      case Failed(_, _) => Records(w, log, more, n - 1)
      case Answered(text, calls, _) =>
        var len := 1 + |calls|;
        && |more| >= len
        && Records(w, log, more[..|more| - len], n - 1)
        && more[|more| - len] == Request(text, calls)
        && RoundTells(more[|more| - |calls|..], calls, |CallsAsked(w, n - 1)|, w.world.facts,
                      w.world.vision(w.active[log[n - 1].idx]))
  }

  /** How many messages the first `n` sends add. */
  function Recorded(w: Setting, n: nat): nat {
    if n == 0 then 0
    else Recorded(w, n - 1) + if EndingOf(w, n - 1).Answered? then 1 + |EndingOf(w, n - 1).calls| else 0
  }

  /** What a turn has added to `before`, its closing sentence over budget aside. */
  predicate Adds(before: seq<Message>, s: State, more: seq<Message>) {
    s.messages == before + more + if s.outcome == OverBudget then [Say(Assistant, TOO_MANY_STEPS)] else []
  }

  ghost predicate HistoryTold(w: Setting, before: seq<Message>, ranBefore: seq<string>, s: State) {
    && InChain(w, s.log)
    && (exists more :: Adds(before, s, more) && Records(w, s.log, more, |s.log|))
    && s.ran == ranBefore + Permitted(CallsAsked(w, |s.log|), 0, w.world.facts)
    && (forall k :: 0 <= k < |s.log| ==>
          (s.log[k].ok <==> EndingOf(w, k).Answered?) && s.log[k].seen == |before| + Recorded(w, k))
  }

  /** The counts the loops keep, and what a turn closed over its budget has spent. */
  predicate CountsTold(w: Setting, s: State) {
    && (s.outcome == Running ==>
          s.made == |CallsAsked(w, |s.log|)| <= 40 && s.rounds == Answers(w, |s.log|) <= 25)
    && (s.outcome == OverBudget ==> Answers(w, |s.log|) >= 25 || |CallsAsked(w, |s.log|)| > 40)
  }

  lemma {:induction false} RecordsMoreLog(w: Setting, log: seq<Attempt>, a: Attempt, more: seq<Message>, n: nat)
    requires n <= |log| && InChain(w, log) && a.idx < |w.active| && Records(w, log, more, n)
    ensures InChain(w, log + [a]) && Records(w, log + [a], more, n)
    decreases n
  {
    hide RoundTells;
    assert forall k :: 0 <= k < |log| ==> (log + [a])[k] == log[k];
    if n > 0 {
      match EndingOf(w, n - 1)
      case Failed(_, _) => RecordsMoreLog(w, log, a, more, n - 1);
      case Answered(_, calls, _) => RecordsMoreLog(w, log, a, more[..|more| - 1 - |calls|], n - 1);
    }
  }

  lemma {:induction false} RecordedIs(w: Setting, log: seq<Attempt>, more: seq<Message>, n: nat)
    requires n <= |log| && InChain(w, log) && Records(w, log, more, n)
    ensures |more| == Recorded(w, n)
    decreases n
  {
    hide RoundTells;
    if n > 0 {
      match EndingOf(w, n - 1)
      case Failed(_, _) => RecordedIs(w, log, more, n - 1);
      case Answered(_, calls, _) => RecordedIs(w, log, more[..|more| - 1 - |calls|], n - 1);
    }
  }

  /** One more answer, recorded. */
  lemma AnswerRecords(w: Setting, log: seq<Attempt>, a: Attempt, more: seq<Message>,
                      text: string, calls: seq<ToolCall>, capped: bool, results: seq<Message>)
    requires InChain(w, log) && a.idx < |w.active| && Records(w, log, more, |log|)
    requires EndingOf(w, |log|) == Answered(text, calls, capped)
    requires RoundTells(results, calls, |CallsAsked(w, |log|)|, w.world.facts, w.world.vision(w.active[a.idx]))
    ensures InChain(w, log + [a]) && Records(w, log + [a], more + ([Request(text, calls)] + results), |log| + 1)
  {
    RecordsMoreLog(w, log, a, more, |log|);
    assert |results| == |calls|;
    hide RoundTells;
    var all, len := more + ([Request(text, calls)] + results), 1 + |calls|;
    assert all[..|all| - len] == more && all[|all| - len] == Request(text, calls);
    assert all[|all| - |calls|..] == results;
    assert (log + [a])[|log|] == a;
  }

  lemma FailureRecords(w: Setting, log: seq<Attempt>, a: Attempt, more: seq<Message>)
    requires InChain(w, log) && a.idx < |w.active| && Records(w, log, more, |log|) && EndingOf(w, |log|).Failed?
    ensures InChain(w, log + [a]) && Records(w, log + [a], more, |log| + 1)
  {
    hide RoundTells;
    RecordsMoreLog(w, log, a, more, |log|);
  }

  lemma AttemptTold(w: Setting, before: seq<Message>, ranBefore: seq<string>, s: State)
    requires HistoryTold(w, before, ranBefore, s) && s.outcome == Running && s.idx < |w.active|
    ensures var log := s.log + [Attempt(s.idx, EndingOf(w, |s.log|).Answered?, |s.messages|)];
            forall k :: 0 <= k < |log| ==>
              (log[k].ok <==> EndingOf(w, k).Answered?) && log[k].seen == |before| + Recorded(w, k)
  {
    hide Recorded, Records, RoundTells, CallsAsked, Permitted;
    var log := s.log + [Attempt(s.idx, EndingOf(w, |s.log|).Answered?, |s.messages|)];
    var more :| Adds(before, s, more) && Records(w, s.log, more, |s.log|);
    RecordedIs(w, s.log, more, |s.log|);
    assert forall k :: 0 <= k < |s.log| ==> log[k] == s.log[k];
  }

  lemma SentHistory(w: Setting, before: seq<Message>, ranBefore: seq<string>, s: State, a: State, more: seq<Message>)
    requires HistoryTold(w, before, ranBefore, s) && s.outcome == Running && s.idx < |w.active|
    requires a.log == s.log + [Attempt(s.idx, EndingOf(w, |s.log|).Answered?, |s.messages|)]
    requires InChain(w, a.log) && Adds(before, a, more) && Records(w, a.log, more, |a.log|)
    requires a.ran == ranBefore + Permitted(CallsAsked(w, |a.log|), 0, w.world.facts)
    ensures HistoryTold(w, before, ranBefore, a)
  {
    hide Records, Permitted, CallsAsked, Recorded;
    AttemptTold(w, before, ranBefore, s);
  }

  lemma FailureKeepsHistory(w: Setting, before: seq<Message>, ranBefore: seq<string>, s: State, why: Failure,
                            sentence: string)
    requires HistoryTold(w, before, ranBefore, s) && CountsTold(w, s) && s.outcome == Running && s.idx < |w.active|
    requires EndingOf(w, |s.log|) == Failed(why, sentence)
    ensures var cand := w.active[s.idx];
            var a := AfterFailure(w, Heeded(w, s, cand), cand, why, sentence, w.world.replies(|s.log|).endedAt);
            HistoryTold(w, before, ranBefore, a) && CountsTold(w, a)
  {
    hide AfterFailure, Streamed, Records, Permitted, Recorded, Thread;
    var cand := w.active[s.idx];
    var h := Heeded(w, s, cand);
    FailureFacts(w, h, cand, why, sentence, w.world.replies(|s.log|).endedAt);
    var a := AfterFailure(w, h, cand, why, sentence, w.world.replies(|s.log|).endedAt);
    var more :| Adds(before, s, more) && Records(w, s.log, more, |s.log|);
    var attempt := Attempt(s.idx, false, |s.messages|);
    FailureRecords(w, s.log, attempt, more);
    assert CallsAsked(w, |s.log| + 1) == CallsAsked(w, |s.log|);
    SentHistory(w, before, ranBefore, s, a, more);
  }

  lemma MadeIsAsked(calls: seq<ToolCall>, made: nat)
    requires made <= MAX_TOOL_CALLS
    ensures made + |calls| <= MAX_TOOL_CALLS ==> MadeAfter(calls, made) == made + |calls|
  {
  }

  /** What one more answer makes of what was recorded and what ran. */
  lemma AnswerAdds(w: Setting, before: seq<Message>, ranBefore: seq<string>, s: State,
                   text: string, calls: seq<ToolCall>, capped: bool)
    returns (more: seq<Message>)
    requires HistoryTold(w, before, ranBefore, s) && s.outcome == Running && s.idx < |w.active|
    requires EndingOf(w, |s.log|) == Answered(text, calls, capped)
    ensures var log := s.log + [Attempt(s.idx, true, |s.messages|)];
            var made := |CallsAsked(w, |s.log|)|;
            var vision := w.world.vision(w.active[s.idx]);
            && InChain(w, log) && Records(w, log, more, |log|)
            && before + more == s.messages + ([Request(text, calls)] + ResultsFor(calls, made, w.world.facts, vision))
            && ranBefore + Permitted(CallsAsked(w, |log|), 0, w.world.facts) ==
               s.ran + RanOf(calls, made, w.world.facts)
  {
    hide Records, Permitted, Recorded, RoundTells, ResultsFor, RanOf;
    var cand := w.active[s.idx];
    var front :| Adds(before, s, front) && Records(w, s.log, front, |s.log|);
    var attempt := Attempt(s.idx, true, |s.messages|);
    var asked, facts, vision := CallsAsked(w, |s.log|), w.world.facts, w.world.vision(cand);
    assert CallsAsked(w, |s.log| + 1) == asked + calls;
    PermittedJoins(asked, calls, 0, facts);
    RanIsPermitted(calls, |asked|, facts);
    ResultsTell(calls, |asked|, facts, vision);
    var results := ResultsFor(calls, |asked|, facts, vision);
    AnswerRecords(w, s.log, attempt, front, text, calls, capped, results);
    more := front + ([Request(text, calls)] + results);
    assert front + [] == front;
    assert ranBefore + (Permitted(asked, 0, facts) + RanOf(calls, |asked|, facts)) ==
           (ranBefore + Permitted(asked, 0, facts)) + RanOf(calls, |asked|, facts);
  }

  lemma AnswerKeepsHistory(w: Setting, before: seq<Message>, ranBefore: seq<string>, s: State,
                           text: string, calls: seq<ToolCall>, capped: bool)
    requires HistoryTold(w, before, ranBefore, s) && CountsTold(w, s) && s.outcome == Running && MaySend(w, s)
    requires s.said != [] && EndingOf(w, |s.log|) == Answered(text, calls, capped)
    ensures var cand := w.active[s.idx];
            var a := AfterAnswer(w, Heeded(w, s, cand), cand, text, calls, capped);
            HistoryTold(w, before, ranBefore, a) && CountsTold(w, a)
  {
    hide HistoryTold, AfterAnswer, Streamed, Records, Permitted, Recorded, ResultsFor, RanOf, MadeAfter, ToolRound,
        CloseOverBudget;
    var cand := w.active[s.idx];
    var h := Heeded(w, s, cand);
    var more := AnswerAdds(w, before, ranBefore, s, text, calls, capped);
    var made := |CallsAsked(w, |s.log|)|;
    assert CallsAsked(w, |s.log| + 1) == CallsAsked(w, |s.log|) + calls;
    assert Answers(w, |s.log| + 1) == Answers(w, |s.log|) + 1;
    MadeIsAsked(calls, made);
    if calls == [] {
      ClosingAnswer(w, h, cand, text, capped);
      NoResults(made, w.world.facts, w.world.vision(cand));
      assert s.ran + RanOf([], made, w.world.facts) == s.ran by { RanOfNone(made, w.world.facts); }
      assert [Request(text, [])] + [] == [Request(text, [])];
      assert before + more + [] == before + more;
    } else {
      RoundOrClose(w, h, cand, text, calls, capped);
      RoundFields(w, h, cand, text, calls);
      CloseFields(w, ToolRound(w, h, cand, text, calls));
      assert before + more + [] == before + more;
    }
    SentHistory(w, before, ranBefore, s, AfterAnswer(w, h, cand, text, calls, capped), more);
  }

  lemma NoResults(made: nat, facts: nat -> Facts, vision: bool)
    ensures ResultsFor([], made, facts, vision) == []
  {
  }

  lemma PassKeepsHistoryTold(w: Setting, before: seq<Message>, ranBefore: seq<string>, s: State)
    requires HistoryTold(w, before, ranBefore, s) && CountsTold(w, s) && s.outcome == Running && s.said != []
    ensures HistoryTold(w, before, ranBefore, Pass(w, s)) && CountsTold(w, Pass(w, s))
  {
    hide Pass, Streamed, AfterAnswer, AfterFailure, Records, Permitted, Recorded, CallsAsked, Answers, Thread;
    hide Pushed, Heard;
    PassStops(w, s);
    var more :| Adds(before, s, more) && Records(w, s.log, more, |s.log|);
    assert Adds(before, GiveUp(s), more);
    if s.rounds >= MAX_TOOL_ROUNDS {
      CloseFields(w, s);
      assert before + more + [] == before + more;
      assert Adds(before, Pass(w, s), more);
    } else if MaySend(w, s) {
      if s.committed.Some? && w.active[s.idx].providerId != s.committed.value {
        PassSkips(w, s);
        assert Adds(before, Pass(w, s), more);
      } else {
        PassSends(w, s);
        match EndingOf(w, |s.log|) {
          case Answered(text, calls, capped) => AnswerKeepsHistory(w, before, ranBefore, s, text, calls, capped);
          case Failed(why, sentence) => FailureKeepsHistory(w, before, ranBefore, s, why, sentence);
        }
      }
    }
  }

  lemma {:induction false} FinishKeepsHistoryTold(w: Setting, before: seq<Message>, ranBefore: seq<string>, s: State)
    requires ScreenTold(w, s) && HistoryTold(w, before, ranBefore, s) && CountsTold(w, s)
    ensures HistoryTold(w, before, ranBefore, Finish(w, s)) && CountsTold(w, Finish(w, s))
    decreases Left(w, s)
  {
    if s.outcome == Running {
      PassProgresses(w, s);
      PassKeepsTold(w, s);
      PassKeepsHistoryTold(w, before, ranBefore, s);
      hide Pass, Finish, ScreenTold, HistoryTold, CountsTold;
      FinishStep(w, s);
      FinishKeepsHistoryTold(w, before, ranBefore, Pass(w, s));
    }
  }

  // ----- whom the walk passes over, and who stands down -----------------------------------------------

  /** By the n-th send candidate `i` has failed, or another provider's answer bars it. */
  predicate Passed(w: Setting, log: seq<Attempt>, n: nat, i: nat)
    requires n <= |log| && InChain(w, log) && i < |w.active|
  {
    exists j :: 0 <= j < n &&
      ((log[j].idx == i && EndingOf(w, j).Failed?) ||
       (EndingOf(w, j).Answered? && w.active[log[j].idx].providerId != w.active[i].providerId))
  }

  /** No candidate is passed over for nothing: each send goes to the first still in the running. */
  ghost predicate WalkTold(w: Setting, s: State) {
    && InChain(w, s.log)
    && (forall k, i :: 0 <= k < |s.log| && 0 <= i < s.log[k].idx ==> Passed(w, s.log, k, i))
    && (forall i :: 0 <= i < s.idx && i < |w.active| ==> Passed(w, s.log, |s.log|, i))
    && (s.committed.Some? ==>
          exists j :: 0 <= j < |s.log| && EndingOf(w, j).Answered?
                      && w.active[s.log[j].idx].providerId == s.committed.value)
  }

  lemma PassedMore(w: Setting, log: seq<Attempt>, a: Attempt, n: nat, i: nat)
    requires n <= |log| && InChain(w, log) && a.idx < |w.active| && i < |w.active| && Passed(w, log, n, i)
    ensures InChain(w, log + [a])
    ensures forall m :: n <= m <= |log| + 1 ==> Passed(w, log + [a], m, i)
  {
    var j :| 0 <= j < n &&
      ((log[j].idx == i && EndingOf(w, j).Failed?) ||
       (EndingOf(w, j).Answered? && w.active[log[j].idx].providerId != w.active[i].providerId));
    assert (log + [a])[j] == log[j];
    assert forall k :: 0 <= k < |log| ==> (log + [a])[k] == log[k];
  }

  /** One more send, to the candidate the walk stands at. */
  lemma SendKeepsWalkTold(w: Setting, s: State, a: State)
    requires WalkTold(w, s) && s.idx < |w.active|
    requires exists ok, seen :: a.log == s.log + [Attempt(s.idx, ok, seen)]
    requires a.idx == s.idx || (a.idx == s.idx + 1 && EndingOf(w, |s.log|).Failed?)
    requires a.committed == s.committed ||
             (a.committed == Some(w.active[s.idx].providerId) && EndingOf(w, |s.log|).Answered?)
    ensures WalkTold(w, a)
  {
    hide Passed, EndingOf;
    var n := |s.log|;
    var x := a.log[n];
    assert a.log == s.log + [x] && x.idx == s.idx;
    assert forall k :: 0 <= k < n ==> a.log[k] == s.log[k];
    forall k, i | 0 <= k < |a.log| && 0 <= i < a.log[k].idx ensures Passed(w, a.log, k, i) {
      PassedMore(w, s.log, x, k, i);
    }
    forall i | 0 <= i < a.idx && i < |w.active| ensures Passed(w, a.log, |a.log|, i) {
      if i < s.idx {
        PassedMore(w, s.log, x, n, i);
      } else {
        JustFailed(w, a.log, i);
      }
    }
  }

  lemma JustFailed(w: Setting, log: seq<Attempt>, i: nat)
    requires log != [] && InChain(w, log) && log[|log| - 1].idx == i && EndingOf(w, |log| - 1).Failed?
    ensures Passed(w, log, |log|, i)
  {
  }

  /** Skipping a candidate of another provider, once one has answered. */
  lemma SkipKeepsWalkTold(w: Setting, s: State, a: State)
    requires WalkTold(w, s) && s.idx < |w.active|
    requires s.committed.Some? && w.active[s.idx].providerId != s.committed.value
    requires a.log == s.log && a.idx == s.idx + 1 && a.committed == s.committed
    ensures WalkTold(w, a)
  {
    var j :| 0 <= j < |s.log| && EndingOf(w, j).Answered?
             && w.active[s.log[j].idx].providerId == s.committed.value;
    assert Passed(w, s.log, |s.log|, s.idx);
    hide Passed;
  }

  lemma PassKeepsWalkTold(w: Setting, s: State)
    requires WalkTold(w, s) && s.outcome == Running && s.said != []
    ensures WalkTold(w, Pass(w, s))
  {
    hide Pass, Streamed, AfterAnswer, AfterFailure, Thread, Passed, ToolRound, CloseOverBudget;
    PassStops(w, s);
    CloseFields(w, s);
    if MaySend(w, s) {
      if s.committed.Some? && w.active[s.idx].providerId != s.committed.value {
        PassSkips(w, s);
        SkipKeepsWalkTold(w, s, Pass(w, s));
      } else {
        PassSends(w, s);
        var cand := w.active[s.idx];
        var h := Heeded(w, s, cand);
        match EndingOf(w, |s.log|) {
          case Answered(text, calls, capped) =>
            AnsweredFields(w, s, cand, text, calls, capped);
          case Failed(why, sentence) =>
            FailureFacts(w, h, cand, why, sentence, w.world.replies(|s.log|).endedAt);
        }
        SendKeepsWalkTold(w, s, Pass(w, s));
      }
    }
  }

  lemma {:induction false} FinishKeepsWalkTold(w: Setting, s: State)
    requires ScreenTold(w, s) && WalkTold(w, s)
    ensures WalkTold(w, Finish(w, s))
    decreases Left(w, s)
  {
    if s.outcome == Running {
      PassProgresses(w, s);
      PassKeepsTold(w, s);
      PassKeepsWalkTold(w, s);
      hide Pass, Finish, ScreenTold, WalkTold;
      FinishStep(w, s);
      FinishKeepsWalkTold(w, Pass(w, s));
    }
  }

  /** The k-th send stands this provider down, or, when the model is gone, this model. */
  predicate StandsDown(w: Setting, log: seq<Attempt>, k: nat, key: string, model: bool)
    requires k < |log|
  {
    && log[k].idx < |w.active| && WalkedPast(w, k)
    && (EndingOf(w, k).why == ModelGone <==> model)
    && key == if model then w.active[log[k].idx].modelId else w.active[log[k].idx].providerId
  }

  predicate LastToStandDown(w: Setting, log: seq<Attempt>, k: nat, key: string, model: bool)
    requires k < |log|
  {
    StandsDown(w, log, k, key, model) && forall j :: k < j < |log| ==> !StandsDown(w, log, j, key, model)
  }

  /** A table holds a minute from the last failure that stood the key down, and else what it held before. */
  ghost predicate TableTold(w: Setting, log: seq<Attempt>, was: map<string, int>, now: map<string, int>, model: bool) {
    && (forall k, key :: 0 <= k < |log| && LastToStandDown(w, log, k, key, model) ==>
          key in now && now[key] == w.world.replies(k).endedAt + 60)
    && (forall key :: (forall k :: 0 <= k < |log| ==> !StandsDown(w, log, k, key, model)) ==>
          (key in now <==> key in was) && (key in was ==> now[key] == was[key]))
  }

  lemma StandsSame(w: Setting, log: seq<Attempt>, a: Attempt, k: nat, key: string, model: bool)
    requires k < |log|
    ensures StandsDown(w, log + [a], k, key, model) <==> StandsDown(w, log, k, key, model)
  {
    assert (log + [a])[k] == log[k];
  }

  lemma OnlyItsKey(w: Setting, log: seq<Attempt>, n: nat, model: bool)
    requires n < |log| && log[n].idx < |w.active|
    ensures forall key :: StandsDown(w, log, n, key, model) ==>
              key == if model then w.active[log[n].idx].modelId else w.active[log[n].idx].providerId
  {
  }

  /** One more send: this table changes exactly when the send stands one of its keys down. */
  lemma TableMore(w: Setting, log: seq<Attempt>, a: Attempt, was: map<string, int>, now: map<string, int>,
                  next: map<string, int>, model: bool)
    requires TableTold(w, log, was, now, model) && a.idx < |w.active|
    requires var n := |log|;
             var key := if model then w.active[a.idx].modelId else w.active[a.idx].providerId;
             if StandsDown(w, log + [a], n, key, model) then
               next == now[key := w.world.replies(n).endedAt + COOLDOWN_SECONDS]
             else next == now
    ensures TableTold(w, log + [a], was, next, model)
  {
    hide StandsDown;
    var all, n := log + [a], |log|;
    OnlyItsKey(w, all, n, model);
    forall k, key | 0 <= k < n ensures StandsDown(w, all, k, key, model) <==> StandsDown(w, log, k, key, model) {
      StandsSame(w, log, a, k, key, model);
    }
    forall k, key | 0 <= k < |all| && LastToStandDown(w, all, k, key, model)
      ensures key in next && next[key] == w.world.replies(k).endedAt + COOLDOWN_SECONDS
    {
      if k < n {
        assert StandsDown(w, log, k, key, model);
        forall j | k < j < n ensures !StandsDown(w, log, j, key, model) {
          assert !StandsDown(w, all, j, key, model);
        }
        assert LastToStandDown(w, log, k, key, model);
        assert !StandsDown(w, all, n, key, model);
      }
    }
    forall key | forall k :: 0 <= k < |all| ==> !StandsDown(w, all, k, key, model)
      ensures (key in next <==> key in was) && (key in was ==> next[key] == was[key])
    {
      assert !StandsDown(w, all, n, key, model);
      forall k | 0 <= k < n ensures !StandsDown(w, log, k, key, model) {
        assert !StandsDown(w, all, k, key, model);
      }
    }
  }

  ghost predicate CoolingTold(w: Setting, cooled: map<string, int>, cooledModels: map<string, int>, s: State) {
    && TableTold(w, s.log, cooled, s.cooled, false)
    && TableTold(w, s.log, cooledModels, s.cooledModels, true)
  }

  /** The tables after a failure: one of them updated when the walk goes on, and neither when it stops. */
  lemma FailureTables(w: Setting, s: State, cand: Candidate, why: Failure, sentence: string, at: int)
    ensures var a := AfterFailure(w, s, cand, why, sentence, at);
            var on := Thread(s.said) == "" && (why == KeyRejected || why == ModelGone || why == Unavailable);
            && a.cooled == (if on && why != ModelGone then s.cooled[cand.providerId := at + COOLDOWN_SECONDS]
                            else s.cooled)
            && a.cooledModels == (if on && why == ModelGone then s.cooledModels[cand.modelId := at + COOLDOWN_SECONDS]
                                  else s.cooledModels)
  {
    hide Thread;
  }

  /** Neither table changes where no send was walked past. */
  lemma TablesStay(w: Setting, cooled: map<string, int>, cooledModels: map<string, int>, s: State, a: State, x: Attempt)
    requires CoolingTold(w, cooled, cooledModels, s) && x.idx < |w.active| && a.log == s.log + [x]
    requires !WalkedPast(w, |s.log|) && a.cooled == s.cooled && a.cooledModels == s.cooledModels
    ensures CoolingTold(w, cooled, cooledModels, a)
  {
    hide WalkedPast, TableTold, EndingOf;
    TableMore(w, s.log, x, cooled, s.cooled, a.cooled, false);
    TableMore(w, s.log, x, cooledModels, s.cooledModels, a.cooledModels, true);
  }

  lemma FailureKeepsCooling(w: Setting, cooled: map<string, int>, cooledModels: map<string, int>, s: State,
                            why: Failure, sentence: string)
    requires ScreenTold(w, s) && CoolingTold(w, cooled, cooledModels, s) && s.outcome == Running && s.idx < |w.active|
    requires EndingOf(w, |s.log|) == Failed(why, sentence)
    ensures var cand := w.active[s.idx];
            CoolingTold(w, cooled, cooledModels,
              AfterFailure(w, Heeded(w, s, cand), cand, why, sentence, w.world.replies(|s.log|).endedAt))
  {
    hide AfterFailure, Streamed, Thread, TableTold, TextOf;
    var cand, at := w.active[s.idx], w.world.replies(|s.log|).endedAt;
    var h, x := Heeded(w, s, cand), Attempt(s.idx, false, |s.messages|);
    HeardSoFar(w, s, cand);
    ScreenEmptyIff(w, h);
    hide ScreenTold;
    FailureFacts(w, h, cand, why, sentence, at);
    FailureTables(w, h, cand, why, sentence, at);
    var a := AfterFailure(w, h, cand, why, sentence, at);
    assert a.log == s.log + [x] && (s.log + [x])[|s.log|] == x;
    TableMore(w, s.log, x, cooled, s.cooled, a.cooled, false);
    TableMore(w, s.log, x, cooledModels, s.cooledModels, a.cooledModels, true);
  }

  lemma PassKeepsCooling(w: Setting, cooled: map<string, int>, cooledModels: map<string, int>, s: State)
    requires ScreenTold(w, s) && CoolingTold(w, cooled, cooledModels, s) && s.outcome == Running
    ensures CoolingTold(w, cooled, cooledModels, Pass(w, s))
  {
    hide Pass, Streamed, AfterAnswer, AfterFailure, Thread, TableTold, ToolRound, CloseOverBudget, ScreenTold;
    PassStops(w, s);
    CloseFields(w, s);
    if MaySend(w, s) {
      if s.committed.Some? && w.active[s.idx].providerId != s.committed.value {
        PassSkips(w, s);
      } else {
        PassSends(w, s);
        SaidSomething(w, s);
        var cand := w.active[s.idx];
        var h := Heeded(w, s, cand);
        match EndingOf(w, |s.log|) {
          case Answered(text, calls, capped) =>
            AnsweredFields(w, s, cand, text, calls, capped);
            TablesStay(w, cooled, cooledModels, s, Pass(w, s), Attempt(s.idx, true, |s.messages|));
          case Failed(why, sentence) =>
            FailureKeepsCooling(w, cooled, cooledModels, s, why, sentence);
        }
      }
    }
  }

  lemma SaidSomething(w: Setting, s: State)
    requires ScreenTold(w, s)
    ensures s.said != []
  {
  }

  lemma {:induction false} FinishKeepsCooling(w: Setting, cooled: map<string, int>, cooledModels: map<string, int>,
                                              s: State)
    requires ScreenTold(w, s) && CoolingTold(w, cooled, cooledModels, s)
    ensures CoolingTold(w, cooled, cooledModels, Finish(w, s))
    decreases Left(w, s)
  {
    if s.outcome == Running {
      PassProgresses(w, s);
      PassKeepsTold(w, s);
      PassKeepsCooling(w, cooled, cooledModels, s);
      hide Pass, Finish, ScreenTold, CoolingTold;
      FinishStep(w, s);
      FinishKeepsCooling(w, cooled, cooledModels, Pass(w, s));
    }
  }

  // ----- the clock ---------------------------------------------------------------------------------

  const BUDGET := 120

  /** Every look at the clock before a candidate was tried or skipped found time left. */
  predicate ClockTold(w: Setting, s: State) {
    && |s.log| <= s.passes
    && forall p :: 0 <= p < s.passes ==> w.world.clock(p) - w.started < BUDGET
  }

  /** A turn raises when the time is up, or nobody is left to try, or its last failure could not be walked past. */
  predicate RaiseTold(w: Setting, s: State)
    requires InChain(w, s.log)
  {
    s.outcome.Raised? ==>
      || w.world.clock(s.passes) - w.started >= BUDGET
      || (forall i :: 0 <= i < |w.active| ==> Passed(w, s.log, |s.log|, i))
      || (s.log != [] && EndingOf(w, |s.log| - 1).Failed? && !WalkedPast(w, |s.log| - 1))
  }

  lemma PassKeepsClock(w: Setting, s: State)
    requires ClockTold(w, s) && s.outcome == Running && s.said != []
    ensures ClockTold(w, Pass(w, s))
  {
    hide Pass, Streamed, AfterAnswer, AfterFailure, Thread, ToolRound, CloseOverBudget;
    PassStops(w, s);
    CloseFields(w, s);
    if MaySend(w, s) {
      if s.committed.Some? && w.active[s.idx].providerId != s.committed.value {
        PassSkips(w, s);
      } else {
        PassSends(w, s);
        var cand := w.active[s.idx];
        var h := Heeded(w, s, cand);
        match EndingOf(w, |s.log|) {
          case Answered(text, calls, capped) =>
            AnsweredFields(w, s, cand, text, calls, capped);
          case Failed(why, sentence) =>
            FailureFacts(w, h, cand, why, sentence, w.world.replies(|s.log|).endedAt);
        }
      }
    }
  }

  lemma {:induction false} FinishKeepsClock(w: Setting, s: State)
    requires ScreenTold(w, s) && ClockTold(w, s)
    ensures ClockTold(w, Finish(w, s))
    decreases Left(w, s)
  {
    if s.outcome == Running {
      PassProgresses(w, s);
      PassKeepsTold(w, s);
      SaidSomething(w, s);
      PassKeepsClock(w, s);
      hide Pass, Finish, ScreenTold, ClockTold;
      FinishStep(w, s);
      FinishKeepsClock(w, Pass(w, s));
    }
  }

  lemma WhyItRaised(w: Setting, s: State)
    requires Explained(w, s) && ScreenTold(w, s) && WalkTold(w, s)
    ensures RaiseTold(w, s)
  {
    hide Thread, LastWords, HeadRejected, Substituted, Passed;
    if s.outcome.Raised? && Fatal(w, s) {
      ScreenEmptyIff(w, s);
    }
  }

  // ----- the turn as a whole -------------------------------------------------------------------------

  /**
   Everything a turn comes to, for any world. Each send's text is on the screen as it streamed,
   an answer nothing was streamed of is said whole, and the turn ends on that answer: its text in
   the history, its candidate and its flag reported. The history holds for each answer its own
   text and tool requests and for each request its own result; what ran is exactly what every
   door and the gate let through. No candidate is passed over for nothing, and a candidate stands
   down a minute for the failure that was its own. Nobody is tried once the time is up, and a turn
   that raises says why.
   */
  ghost predicate TurnTold(w: Setting, start: State, end: State) {
    && ScreenTold(w, end) && HistoryTold(w, start.messages, start.ran, end) && CountsTold(w, end)
    && WalkTold(w, end) && CoolingTold(w, start.cooled, start.cooledModels, end)
    && ClockTold(w, end) && RaiseTold(w, end)
    && (end.outcome.Done? ==>
          var n := |end.log| - 1;
          && n >= 0 && EndingOf(w, n).Answered? && EndingOf(w, n).calls == []
          && end.outcome == Done(w.active[end.log[n].idx], EndingOf(w, n).capped)
          && end.messages != [] && Last(end.messages) == Say(Assistant, EndingOf(w, n).text))
  }

  /** A turn that is done ended with its last send: that send's candidate, flag and text. */
  predicate ClosingTold(w: Setting, s: State) {
    s.outcome.Done? ==>
      var n := |s.log| - 1;
      && n >= 0 && s.log[n].idx < |w.active| && EndingOf(w, n).Answered?
      && s.outcome == Done(w.active[s.log[n].idx], EndingOf(w, n).capped)
  }

  lemma PassKeepsClosing(w: Setting, s: State)
    requires s.outcome == Running && s.said != []
    ensures ClosingTold(w, Pass(w, s))
  {
    hide Pass, Streamed, AfterAnswer, AfterFailure, Thread, ToolRound, CloseOverBudget;
    PassStops(w, s);
    CloseFields(w, s);
    if MaySend(w, s) {
      if s.committed.Some? && w.active[s.idx].providerId != s.committed.value {
        PassSkips(w, s);
      } else {
        PassSends(w, s);
        var cand := w.active[s.idx];
        var h := Heeded(w, s, cand);
        match EndingOf(w, |s.log|) {
          case Answered(text, calls, capped) =>
            AnsweredFields(w, s, cand, text, calls, capped);
          case Failed(why, sentence) =>
            FailureFacts(w, h, cand, why, sentence, w.world.replies(|s.log|).endedAt);
        }
      }
    }
  }

  lemma {:induction false} FinishKeepsClosing(w: Setting, s: State)
    requires ScreenTold(w, s) && ClosingTold(w, s)
    ensures ClosingTold(w, Finish(w, s))
    decreases Left(w, s)
  {
    if s.outcome == Running {
      PassProgresses(w, s);
      PassKeepsTold(w, s);
      SaidSomething(w, s);
      PassKeepsClosing(w, s);
      hide Pass, Finish, ScreenTold, ClosingTold;
      FinishStep(w, s);
      FinishKeepsClosing(w, Pass(w, s));
    }
  }

  /** What was recorded last is the last answer's. */
  lemma LastIsRecorded(w: Setting, before: seq<Message>, ranBefore: seq<string>, s: State)
    requires HistoryTold(w, before, ranBefore, s) && s.outcome.Done? && s.log != []
    requires EndingOf(w, |s.log| - 1).Answered? && EndingOf(w, |s.log| - 1).calls == []
    ensures s.messages != [] && Last(s.messages) == Say(Assistant, EndingOf(w, |s.log| - 1).text)
  {
    hide RoundTells, Permitted;
    var more :| Adds(before, s, more) && Records(w, s.log, more, |s.log|);
    assert before + more + [] == before + more;
  }

  lemma TurnTellsAll(w: Setting, messages: seq<Message>, ran: seq<string>,
                     cooled: map<string, int>, cooledModels: map<string, int>)
    ensures var start := Start(messages, ran, cooled, cooledModels);
            TurnTold(w, start, Finish(w, start))
  {
    var start := Start(messages, ran, cooled, cooledModels);
    StartTold(w, messages, ran, cooled, cooledModels);
    TurnPromises(w, messages, ran, cooled, cooledModels);
    WalkIsInChain(w, Finish(w, start));
    hide Finish, Start, ScreenTold, HistoryTold, CountsTold, WalkTold, CoolingTold, ClockTold, RaiseTold;
    hide WalkKept, ScreenKept, Explained, HistoryKept;
    FinishKeepsClock(w, start);
    FinishKeepsTold(w, start);
    FinishKeepsHistoryTold(w, messages, ran, start);
    FinishKeepsWalkTold(w, start);
    FinishKeepsCooling(w, cooled, cooledModels, start);
    FinishKeepsClosing(w, start);
    WhyItRaised(w, Finish(w, start));
    DoneIsAnswered(w, Finish(w, start));
    if Finish(w, start).outcome.Done? {
      LastIsRecorded(w, messages, ran, Finish(w, start));
    }
  }

  lemma WalkIsInChain(w: Setting, s: State)
    ensures WalkTold(w, s) ==> InChain(w, s.log)
  {
  }

  lemma DoneIsAnswered(w: Setting, s: State)
    requires ScreenTold(w, s)
    ensures s.outcome.Done? ==> ClosedByAnswer(w, s)
  {
  }

  lemma StartTold(w: Setting, messages: seq<Message>, ran: seq<string>,
                  cooled: map<string, int>, cooledModels: map<string, int>)
    ensures var start := Start(messages, ran, cooled, cooledModels);
            && ScreenTold(w, start) && HistoryTold(w, messages, ran, start) && CountsTold(w, start)
            && WalkTold(w, start) && CoolingTold(w, cooled, cooledModels, start) && ClosingTold(w, start)
            && ClockTold(w, start)
            && start.messages == messages && start.ran == ran && start.outcome == Running
            && start.cooled == cooled && start.cooledModels == cooledModels
  {
    var start := Start(messages, ran, cooled, cooledModels);
    assert Adds(messages, start, []) by {
      assert messages + [] + [] == messages;
    }
    assert Records(w, [], [], 0) && CallsAsked(w, 0) == [];
    assert ran + [] == ran;
  }

  /** Whatever ran in a turn belongs to a call some answer of the turn made, past every door and granted. */
  lemma WhatRanWasGranted(w: Setting, messages: seq<Message>, cooled: map<string, int>,
                          cooledModels: map<string, int>, id: string)
    ensures var end := Finish(w, Start(messages, [], cooled, cooledModels));
            var calls := CallsAsked(w, |end.log|);
            id in end.ran <==>
              exists k :: 0 <= k < |calls| && calls[k].id == id && k < MAX_TOOL_CALLS
                          && AllOpen(w.world.facts(k)) && w.world.facts(k).granted
  {
    hide *;
    var end := Finish(w, Start(messages, [], cooled, cooledModels));
    TurnTellsAll(w, messages, [], cooled, cooledModels);
    NothingRanYet(messages, cooled, cooledModels);
    RanIsTold(w, Start(messages, [], cooled, cooledModels), end);
    PermittedAre(CallsAsked(w, |end.log|), 0, w.world.facts, id);
  }

  lemma RanIsTold(w: Setting, start: State, end: State)
    requires TurnTold(w, start, end) && start.ran == []
    ensures end.ran == Permitted(CallsAsked(w, |end.log|), 0, w.world.facts)
  {
    hide ScreenTold, CountsTold, WalkTold, CoolingTold, ClockTold, RaiseTold, Records, Permitted, CallsAsked;
  }

  lemma NothingRanYet(messages: seq<Message>, cooled: map<string, int>, cooledModels: map<string, int>)
    ensures Start(messages, [], cooled, cooledModels).ran == []
  {
  }

  // ----- the next turn ---------------------------------------------------------------------------------

  predicate StandingDown(c: Candidate, cooled: map<string, int>, cooledModels: map<string, int>, now: int) {
    || (c.providerId in cooled && now < cooled[c.providerId])
    || (c.modelId in cooledModels && now < cooledModels[c.modelId])
  }

  /** One more candidate at the end of a chain is tried exactly when it is not standing down. */
  lemma WarmMore(chain: seq<Candidate>, cooled: map<string, int>, cooledModels: map<string, int>, now: int,
                 c: Candidate)
    ensures Warm(chain + [c], cooled, cooledModels, now) ==
            Warm(chain, cooled, cooledModels, now) + if StandingDown(c, cooled, cooledModels, now) then [] else [c]
  {
    var k := |chain|;
    assert (chain + [c])[..k] == chain && (chain + [c])[k] == c;
    assert chain + [c] != [];
  }

  lemma {:induction false} WarmHolds(chain: seq<Candidate>, cooled: map<string, int>, cooledModels: map<string, int>,
                                     now: int, c: Candidate)
    ensures c in Warm(chain, cooled, cooledModels, now) <==> c in chain && !StandingDown(c, cooled, cooledModels, now)
  {
    if chain != [] {
      var k := |chain| - 1;
      hide StandingDown, Warm;
      WarmHolds(chain[..k], cooled, cooledModels, now, c);
      WarmMore(chain[..k], cooled, cooledModels, now, chain[k]);
      assert chain == chain[..k] + [chain[k]];
    }
  }

  /** Who is tried: the candidates not standing down, in the order of the chain, or all of them if that is nobody. */
  lemma WarmAre(chain: seq<Candidate>, cooled: map<string, int>, cooledModels: map<string, int>, now: int, c: Candidate)
    ensures c in Active(chain, cooled, cooledModels, now) <==>
              && c in chain
              && (!StandingDown(c, cooled, cooledModels, now) ||
                  forall x :: x in chain ==> StandingDown(x, cooled, cooledModels, now))
    ensures (forall x :: x in chain ==> StandingDown(x, cooled, cooledModels, now)) ==>
              Active(chain, cooled, cooledModels, now) == chain
  {
    var warm := Warm(chain, cooled, cooledModels, now);
    hide Warm, StandingDown;
    WarmHolds(chain, cooled, cooledModels, now, c);
    if warm == [] {
      forall x | x in chain ensures StandingDown(x, cooled, cooledModels, now) {
        WarmHolds(chain, cooled, cooledModels, now, x);
      }
    } else {
      assert warm[0] in warm;
      WarmHolds(chain, cooled, cooledModels, now, warm[0]);
    }
  }

  lemma {:induction false} WarmKeepsOrder(a: seq<Candidate>, b: seq<Candidate>, cooled: map<string, int>,
                                          cooledModels: map<string, int>, now: int)
    ensures Warm(a + b, cooled, cooledModels, now) ==
            Warm(a, cooled, cooledModels, now) + Warm(b, cooled, cooledModels, now)
  {
    hide Warm;
    if b == [] {
      assert a + b == a;
      NobodyWarm(cooled, cooledModels, now);
    } else {
      var k := |b| - 1;
      WarmKeepsOrder(a, b[..k], cooled, cooledModels, now);
      assert a + b[..k] + [b[k]] == a + b && b[..k] + [b[k]] == b;
      OneMoreOnBoth(a, b[..k], b[k], cooled, cooledModels, now);
    }
  }

  lemma NobodyWarm(cooled: map<string, int>, cooledModels: map<string, int>, now: int)
    ensures Warm([], cooled, cooledModels, now) == []
  {
  }

  lemma OneMoreOnBoth(a: seq<Candidate>, b: seq<Candidate>, c: Candidate, cooled: map<string, int>,
                      cooledModels: map<string, int>, now: int)
    requires Warm(a + b, cooled, cooledModels, now) ==
             Warm(a, cooled, cooledModels, now) + Warm(b, cooled, cooledModels, now)
    ensures Warm(a + b + [c], cooled, cooledModels, now) ==
            Warm(a, cooled, cooledModels, now) + Warm(b + [c], cooled, cooledModels, now)
  {
    hide Warm, StandingDown;
    WarmMore(a + b, cooled, cooledModels, now, c);
    WarmMore(b, cooled, cooledModels, now, c);
  }

  /** A turn within the minute after a failure tries nobody that failure stood down, if there is anybody else. */
  lemma SkippedNextTurn(w: Setting, start: State, end: State, k: nat, key: string, model: bool,
                        chain: seq<Candidate>, now: int, c: Candidate)
    requires TurnTold(w, start, end) && k < |end.log| && LastToStandDown(w, end.log, k, key, model)
    requires now < w.world.replies(k).endedAt + COOLDOWN_SECONDS
    requires key == if model then c.modelId else c.providerId
    ensures c !in Warm(chain, end.cooled, end.cooledModels, now)
  {
    hide ScreenTold, HistoryTold, CountsTold, WalkTold, LastToStandDown, ClockTold, RaiseTold;
    WarmHolds(chain, end.cooled, end.cooledModels, now, c);
  }
}
