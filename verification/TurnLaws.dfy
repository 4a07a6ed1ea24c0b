/** What every routed turn keeps, whatever the providers, the tools and the clock do. */
module TurnLaws {
  import opened Wrappers
  import opened Messages
  import opened Relay
  import opened ToolRun
  import opened Turn

  // ----- the history ------------------------------------------------------------------

  /** A message inside a round: a request for tools or one of its results. */
  predicate InRound(m: Message) {
    m.role == Tool || Owed(m) > 0
  }

  predicate OnlyRounds(h: seq<Message>, from: nat) {
    forall k :: from <= k < |h| ==> InRound(h[k])
  }

  /** The history grew from `before` by whole rounds and, if the turn closed, one closing message. */
  predicate Grew(before: seq<Message>, s: State) {
    && before <= s.messages
    && match s.outcome
       case Running => OnlyRounds(s.messages, |before|)
       case Raised(_) => OnlyRounds(s.messages, |before|)
       case _ =>
         && |s.messages| > |before|
         && Last(s.messages) == Say(Assistant, Last(s.messages).content)
         && OnlyRounds(s.messages[..|s.messages| - 1], |before|)
  }

  /** Every send was handed a paired history. */
  predicate SentPaired(s: State) {
    forall k :: 0 <= k < |s.log| ==> s.log[k].seen <= |s.messages| && Paired(s.messages[..s.log[k].seen])
  }

  predicate HistoryKept(before: seq<Message>, s: State) {
    && Paired(s.messages) && Grew(before, s) && SentPaired(s)
    && (AllLive(before) ==> AllLive(s.messages))
  }

  /** `more` is what one step may add to the history, given how it leaves the turn. */
  predicate Addition(more: seq<Message>, outcome: Outcome) {
    && AllLive(more)
    && match outcome
       case Running => OnlyRounds(more, 0)
       case Raised(_) => OnlyRounds(more, 0)
       case _ => more != [] && Last(more) == Say(Assistant, Last(more).content) && OnlyRounds(more[..|more| - 1], 0)
  }

  lemma GrowsBy(before: seq<Message>, s: State, more: seq<Message>, s': State)
    requires Grew(before, s) && s.outcome == Running
    requires s'.messages == s.messages + more && Addition(more, s'.outcome)
    ensures Grew(before, s')
    ensures AllLive(s.messages) ==> AllLive(s'.messages)
  {
    var h, h' := s.messages, s'.messages;
    assert forall k :: |h| <= k < |h'| ==> h'[k] == more[k - |h|];
    if s'.outcome.Done? || s'.outcome.OverBudget? {
      var rounds, front := more[..|more| - 1], h'[..|h'| - 1];
      assert Last(h') == Last(more);
      assert front == h + rounds;
    }
  }

  lemma SendsStayPaired(s: State, s': State)
    requires SentPaired(s) && Paired(s.messages) && s.messages <= s'.messages
    requires |s.log| <= |s'.log| <= |s.log| + 1 && s'.log[..|s.log|] == s.log
    requires |s'.log| > |s.log| ==> Last(s'.log).seen == |s.messages|
    ensures SentPaired(s')
  {
    hide Paired;
    var h, h' := s.messages, s'.messages;
    assert h'[..|h|] == h;
    forall k | 0 <= k < |s'.log|
      ensures s'.log[k].seen <= |h'| && Paired(h'[..s'.log[k].seen])
    {
      if k < |s.log| {
        assert s'.log[k] == s'.log[..|s.log|][k];
        assert h'[..s.log[k].seen] == h[..s.log[k].seen];
      }
    }
  }

  lemma Extend(before: seq<Message>, s: State, more: seq<Message>, s': State)
    requires HistoryKept(before, s) && s.outcome == Running
    requires s'.messages == s.messages + more && Paired(s'.messages) && Addition(more, s'.outcome)
    requires |s.log| <= |s'.log| <= |s.log| + 1 && s'.log[..|s.log|] == s.log
    requires |s'.log| > |s.log| ==> Last(s'.log).seen == |s.messages|
    ensures HistoryKept(before, s')
  {
    hide Paired, SentPaired, Grew, Addition;
    GrowsBy(before, s, more, s');
    SendsStayPaired(s, s');
  }

  lemma RoundIsRound(text: string, calls: seq<ToolCall>, made: nat, facts: nat -> Facts, vision: bool)
    requires calls != []
    ensures var round := [Request(text, calls)] + ResultsFor(calls, made, facts, vision);
            OnlyRounds(round, 0) && AllLive(round)
  {
  }

  lemma ClosingKeepsPairing(h: seq<Message>, content: string)
    requires Paired(h)
    ensures Paired(h + [Say(Assistant, content)])
  {
    assert [Say(Assistant, content)][1..] == [];
    PairedAppend(h, [Say(Assistant, content)]);
  }

  lemma ClosingOverBudgetKeepsHistory(w: Setting, before: seq<Message>, s: State)
    requires HistoryKept(before, s) && s.outcome == Running
    ensures HistoryKept(before, CloseOverBudget(w, s))
  {
    ClosingKeepsPairing(s.messages, TOO_MANY_STEPS);
    Extend(before, s, [Say(Assistant, TOO_MANY_STEPS)], CloseOverBudget(w, s));
  }

  lemma AnswerKeepsHistory(w: Setting, before: seq<Message>, s: State, cand: Candidate,
                           text: string, calls: seq<ToolCall>, capped: bool)
    requires HistoryKept(before, s) && s.outcome == Running && s.said != []
    ensures HistoryKept(before, AfterAnswer(w, s, cand, text, calls, capped))
  {
    hide Paired, AnsweredBy, Thread, ResultsFor, RanOf;
    if calls == [] {
      ClosingKeepsPairing(s.messages, text);
      Extend(before, s, [Say(Assistant, text)], AfterAnswer(w, s, cand, text, calls, capped));
    } else {
      var vision := w.world.vision(cand);
      var block := [Request(text, calls)] + ResultsFor(calls, s.made, w.world.facts, vision);
      var round := ToolRound(w, s, cand, text, calls);
      RoundKeepsPairing(s.messages, text, calls, s.made, w.world.facts, vision);
      RoundIsRound(text, calls, s.made, w.world.facts, vision);
      Extend(before, s, block, round);
      ClosingOverBudgetKeepsHistory(w, before, round);
    }
  }

  /** A step that adds no message, and at most one send of what there is. */
  lemma Unchanged(before: seq<Message>, s: State, s': State)
    requires HistoryKept(before, s) && s.outcome == Running && s'.messages == s.messages
    requires s'.outcome.Running? || s'.outcome.Raised?
    requires |s.log| <= |s'.log| <= |s.log| + 1 && s'.log[..|s.log|] == s.log
    requires |s'.log| > |s.log| ==> Last(s'.log).seen == |s.messages|
    ensures HistoryKept(before, s')
  {
    hide Paired, SentPaired, Grew;
    assert s.messages + [] == s.messages;
    Extend(before, s, [], s');
  }

  lemma PassKeepsHistory(w: Setting, before: seq<Message>, s: State)
    requires HistoryKept(before, s) && s.outcome == Running
    ensures HistoryKept(before, Pass(w, s))
  {
    hide Pass, HistoryKept, Streamed, Thread, AfterAnswer, AfterFailure, CloseOverBudget;
    PassStops(w, s);
    if s.rounds >= MAX_TOOL_ROUNDS {
      ClosingOverBudgetKeepsHistory(w, before, s);
    } else if !MaySend(w, s) {
      Unchanged(before, s, GiveUp(s));
    } else if s.committed.Some? && w.active[s.idx].providerId != s.committed.value {
      PassSkips(w, s);
      Unchanged(before, s, Pass(w, s));
    } else {
      PassSends(w, s);
      var cand, reply := w.active[s.idx], w.world.replies(|s.log|);
      var heeded := Heeded(w, s, cand);
      Unchanged(before, s, heeded);
      match reply.ending {
        case Answered(text, calls, capped) =>
          AnswerKeepsHistory(w, before, heeded, cand, text, calls, capped);
        case Failed(why, sentence) =>
          FailureFacts(w, heeded, cand, why, sentence, reply.endedAt);
          Unchanged(before, heeded, Pass(w, s));
      }
    }
  }

  lemma {:induction false} FinishKeepsHistory(w: Setting, before: seq<Message>, s: State)
    requires HistoryKept(before, s)
    ensures HistoryKept(before, Finish(w, s))
    decreases Left(w, s)
  {
    if s.outcome == Running {
      PassProgresses(w, s);
      PassKeepsHistory(w, before, s);
      hide Pass, Finish, HistoryKept;
      FinishStep(w, s);
      FinishKeepsHistory(w, before, Pass(w, s));
    }
  }

  // Whatever a turn starts on, paired or not, it adds nothing from an earlier session.

  lemma LiveMore(h: seq<Message>, more: seq<Message>)
    requires AllLive(h) && AllLive(more)
    ensures AllLive(h + more)
  {
  }

  lemma AnswerKeepsLive(w: Setting, s: State, cand: Candidate, text: string, calls: seq<ToolCall>, capped: bool)
    requires AllLive(s.messages) && s.said != []
    ensures AllLive(AfterAnswer(w, s, cand, text, calls, capped).messages)
  {
    hide AllLive, ResultsFor, RanOf;
    CloseIsLive(text);
    CloseIsLive(TOO_MANY_STEPS);
    LiveMore(s.messages, [Say(Assistant, text)]);
    if calls != [] {
      var vision := w.world.vision(cand);
      var round := [Request(text, calls)] + ResultsFor(calls, s.made, w.world.facts, vision);
      RoundIsRound(text, calls, s.made, w.world.facts, vision);
      LiveMore(s.messages, round);
      LiveMore(s.messages + round, [Say(Assistant, TOO_MANY_STEPS)]);
    }
  }

  lemma CloseIsLive(text: string)
    ensures AllLive([Say(Assistant, text)])
  {
  }

  lemma PassKeepsLive(w: Setting, s: State)
    requires AllLive(s.messages) && s.outcome == Running
    ensures AllLive(Pass(w, s).messages)
  {
    hide Pass, AllLive, Streamed, Thread, AfterAnswer, AfterFailure;
    PassStops(w, s);
    CloseIsLive(TOO_MANY_STEPS);
    LiveMore(s.messages, [Say(Assistant, TOO_MANY_STEPS)]);
    if MaySend(w, s) {
      if s.committed.Some? && w.active[s.idx].providerId != s.committed.value {
        PassSkips(w, s);
      } else {
        PassSends(w, s);
        var cand, reply := w.active[s.idx], w.world.replies(|s.log|);
        match reply.ending {
          case Answered(text, calls, capped) => AnswerKeepsLive(w, Heeded(w, s, cand), cand, text, calls, capped);
          case Failed(why, sentence) => FailureFacts(w, Heeded(w, s, cand), cand, why, sentence, reply.endedAt);
        }
      }
    }
  }

  lemma {:induction false} FinishKeepsLive(w: Setting, s: State)
    requires AllLive(s.messages)
    ensures AllLive(Finish(w, s).messages)
    decreases Left(w, s)
  {
    if s.outcome == Running {
      PassProgresses(w, s);
      PassKeepsLive(w, s);
      hide Pass, Finish, AllLive;
      FinishStep(w, s);
      FinishKeepsLive(w, Pass(w, s));
    }
  }

  // ----- the walk ----------------------------------------------------------------------

  /** The provider the k-th send went to. */
  function ProviderOf(w: Setting, log: seq<Attempt>, k: nat): string
    requires k < |log| && log[k].idx < |w.active|
  {
    w.active[log[k].idx].providerId
  }

  /**
   The sends go down the chain: an attempt is never followed by one higher up, a failed
   candidate is never tried again, and once one has answered every later send goes to the
   same provider.
   */
  predicate DownTheChain(w: Setting, log: seq<Attempt>) {
    && (forall k :: 0 <= k < |log| ==> log[k].idx < |w.active|)
    && (forall a, b :: 0 <= a < b < |log| ==> log[a].idx <= log[b].idx)
    && (forall a, b :: 0 <= a < b < |log| && !log[a].ok ==> log[a].idx < log[b].idx)
    && (forall a, b :: 0 <= a < b < |log| && log[a].ok ==> ProviderOf(w, log, a) == ProviderOf(w, log, b))
  }

  predicate Counted(w: Setting, ranBefore: nat, s: State) {
    && s.idx <= |w.active| && s.rounds <= MAX_TOOL_ROUNDS && s.made <= MAX_TOOL_CALLS
    && |s.ran| <= ranBefore + s.made
    && |s.log| <= MAX_TOOL_ROUNDS + |w.active|
  }

  /** What the loop variables say about the sends made so far, while the turn is running. */
  predicate OnTheWay(w: Setting, s: State) {
    && |s.log| <= s.rounds + s.idx
    && (forall k :: 0 <= k < |s.log| ==> s.log[k].idx <= s.idx)
    && (forall k :: 0 <= k < |s.log| && !s.log[k].ok ==> s.log[k].idx < s.idx)
    && (forall k :: 0 <= k < |s.log| && s.log[k].ok ==>
          s.committed.Some? && s.log[k].idx < |w.active| && ProviderOf(w, s.log, k) == s.committed.value)
  }

  predicate WalkKept(w: Setting, ranBefore: nat, s: State) {
    && DownTheChain(w, s.log) && Counted(w, ranBefore, s)
    && (s.outcome == Running ==> OnTheWay(w, s))
  }

  lemma SendingKeepsOrder(w: Setting, ranBefore: nat, s: State, cand: Candidate)
    requires WalkKept(w, ranBefore, s) && s.outcome == Running && MaySend(w, s) && cand == w.active[s.idx]
    requires s.committed.None? || cand.providerId == s.committed.value
    ensures DownTheChain(w, Heeded(w, s, cand).log)
  {
    hide Streamed;
    var h := Heeded(w, s, cand);
    var n := |s.log|;
    assert h.log[n].idx == s.idx;
    forall a, b | 0 <= a < b < |h.log|
      ensures h.log[a].idx <= h.log[b].idx
      ensures !h.log[a].ok ==> h.log[a].idx < h.log[b].idx
      ensures h.log[a].ok ==> ProviderOf(w, h.log, a) == ProviderOf(w, h.log, b)
    {
      assert h.log[a] == s.log[a];
      if b < n {
        assert h.log[b] == s.log[b];
        assert s.log[a].ok ==> ProviderOf(w, s.log, a) == ProviderOf(w, s.log, b);
      } else {
        assert s.log[a].ok ==> ProviderOf(w, s.log, a) == s.committed.value;
      }
    }
  }

  lemma LoggedAttempt(w: Setting, s: State, ok: bool, s': State)
    requires OnTheWay(w, s) && s.idx < |w.active|
    requires s.committed.None? || w.active[s.idx].providerId == s.committed.value
    requires exists seen :: s'.log == s.log + [Attempt(s.idx, ok, seen)]
    requires if ok then s'.idx == s.idx && s'.rounds == s.rounds + 1 && s'.committed == Some(w.active[s.idx].providerId)
             else s'.idx == s.idx + 1 && s'.rounds == s.rounds && s'.committed == s.committed
    ensures OnTheWay(w, s')
  {
    var n := |s.log|;
    assert s'.log[n].idx == s.idx && s'.log[n].ok == ok;
    forall k | 0 <= k < |s'.log|
      ensures s'.log[k].idx <= s'.idx && (!s'.log[k].ok ==> s'.log[k].idx < s'.idx)
      ensures s'.log[k].ok ==>
                s'.committed.Some? && s'.log[k].idx < |w.active| && ProviderOf(w, s'.log, k) == s'.committed.value
    {
      if k < n {
        assert s'.log[k] == s.log[k];
        assert s.log[k].ok ==> ProviderOf(w, s.log, k) == s.committed.value;
      }
    }
  }

  lemma PassKeepsWalk(w: Setting, ranBefore: nat, s: State)
    requires WalkKept(w, ranBefore, s) && s.outcome == Running
    ensures WalkKept(w, ranBefore, Pass(w, s))
  {
    hide Pass, Streamed, Thread, AfterFailure, AfterAnswer, ResultsFor, RanOf, MadeAfter, DownTheChain, Pushed;
    PassStops(w, s);
    if MaySend(w, s) {
      if s.committed.Some? && w.active[s.idx].providerId != s.committed.value {
        PassSkips(w, s);
      } else {
        PassSends(w, s);
        SendingKeepsOrder(w, ranBefore, s, w.active[s.idx]);
        match w.world.replies(|s.log|).ending {
          case Answered(text, calls, capped) => AnswerKeepsWalk(w, ranBefore, s, text, calls, capped);
          case Failed(why, sentence) => FailureKeepsWalk(w, ranBefore, s, why, sentence);
        }
      }
    }
  }

  lemma AnswerKeepsWalk(w: Setting, ranBefore: nat, s: State, text: string, calls: seq<ToolCall>, capped: bool)
    requires WalkKept(w, ranBefore, s) && s.outcome == Running && MaySend(w, s)
    requires s.committed.None? || w.active[s.idx].providerId == s.committed.value
    requires w.world.replies(|s.log|).ending == Answered(text, calls, capped)
    requires DownTheChain(w, Heeded(w, s, w.active[s.idx]).log)
    ensures WalkKept(w, ranBefore, AfterAnswer(w, Heeded(w, s, w.active[s.idx]), w.active[s.idx], text, calls, capped))
  {
    hide Streamed, Thread, ResultsFor, RanOf, MadeAfter, DownTheChain, Pushed;
    var cand := w.active[s.idx];
    var s' := AfterAnswer(w, Heeded(w, s, cand), cand, text, calls, capped);
    RunsAreBounded(calls, s.made, w.world.facts);
    if s'.outcome == Running {
      LoggedAttempt(w, s, true, s');
    }
  }

  lemma FailureKeepsWalk(w: Setting, ranBefore: nat, s: State, why: Failure, sentence: string)
    requires WalkKept(w, ranBefore, s) && s.outcome == Running && MaySend(w, s)
    requires s.committed.None? || w.active[s.idx].providerId == s.committed.value
    requires w.world.replies(|s.log|).ending == Failed(why, sentence)
    requires DownTheChain(w, Heeded(w, s, w.active[s.idx]).log)
    ensures WalkKept(w, ranBefore,
              AfterFailure(w, Heeded(w, s, w.active[s.idx]), w.active[s.idx], why, sentence,
                  w.world.replies(|s.log|).endedAt))
  {
    hide Streamed, Thread, AfterFailure, DownTheChain;
    var cand, reply := w.active[s.idx], w.world.replies(|s.log|);
    var s' := AfterFailure(w, Heeded(w, s, cand), cand, why, sentence, reply.endedAt);
    FailureFacts(w, Heeded(w, s, cand), cand, why, sentence, reply.endedAt);
    if s'.outcome == Running {
      LoggedAttempt(w, s, false, s');
    }
  }

  lemma {:induction false} FinishKeepsWalk(w: Setting, ranBefore: nat, s: State)
    requires WalkKept(w, ranBefore, s)
    ensures WalkKept(w, ranBefore, Finish(w, s))
    decreases Left(w, s)
  {
    if s.outcome == Running {
      PassProgresses(w, s);
      PassKeepsWalk(w, ranBefore, s);
      hide Pass, Finish, WalkKept;
      FinishStep(w, s);
      FinishKeepsWalk(w, ranBefore, Pass(w, s));
    }
  }

  // ----- what the reader has been shown -------------------------------------------------

  /** The k-th send put text on the screen. */
  predicate Spoke(s: State, k: nat)
    requires |s.said| > |s.log| && k < |s.log|
  {
    s.said[k + 1] != ""
  }

  /**
   Once a send has put text on the screen, every later send goes to the same candidate;
   with nowhere to stream, nothing is ever shown.
   */
  predicate ScreenKept(w: Setting, s: State) {
    && |s.said| == |s.log| + (if s.outcome == OverBudget then 2 else 1) && s.said[0] == ""
    && (forall a, b :: 0 <= a < b < |s.log| && Spoke(s, a) ==> s.log[a].idx == s.log[b].idx)
    && (s.outcome == Running ==>
          forall k :: 0 <= k < |s.log| && Spoke(s, k) ==> s.log[k].ok && s.log[k].idx == s.idx)
    && (!w.hasSink ==> forall k :: 0 <= k < |s.said| ==> s.said[k] == "")
  }

  lemma {:induction false} NoSinkNothingSaid(said: seq<string>, deltas: seq<string>)
    requires said != []
    ensures Streamed(false, said, deltas) == said
  {
    if deltas != [] {
      NoSinkNothingSaid(said, deltas[..|deltas| - 1]);
    }
  }

  /** A send leaves what earlier ones said alone. */
  lemma SendingSays(w: Setting, s: State, cand: Candidate)
    requires ScreenKept(w, s) && s.outcome == Running
    ensures var h := Heeded(w, s, cand);
            && |h.said| == |h.log| + 1 == |s.said| + 1 == |s.log| + 2
            && h.said[..|s.said|] == s.said
            && (!w.hasSink ==> Last(h.said) == "")
  {
    var begun := s.said + [""];
    var deltas := w.world.replies(|s.log|).deltas;
    var h := Heeded(w, s, cand);
    assert begun[..|begun| - 1] == s.said;
    NoSinkNothingSaid(begun, deltas);
  }

  lemma SpokenSoFar(w: Setting, s: State, s': State)
    requires ScreenKept(w, s) && s.outcome == Running
    requires |s'.log| == |s.log| + 1 && s'.log[..|s.log|] == s.log && s'.log[|s.log|].idx == s.idx
    requires |s'.said| > |s'.log| && s'.said[..|s.said|] == s.said
    ensures forall k :: 0 <= k < |s.log| ==> s'.log[k] == s.log[k] && Spoke(s', k) == Spoke(s, k)
    ensures forall a, b :: 0 <= a < b < |s'.log| && Spoke(s', a) ==> s'.log[a].idx == s'.log[b].idx
  {
    assert forall k :: 0 <= k < |s.said| ==> s'.said[k] == s'.said[..|s.said|][k];
    assert forall k :: 0 <= k < |s.log| ==> s'.log[k] == s'.log[..|s.log|][k];
    assert forall k :: 0 <= k < |s.log| ==> Spoke(s', k) == Spoke(s, k);
  }

  lemma ClosingKeepsScreen(w: Setting, s: State)
    requires ScreenKept(w, s) && s.outcome == Running
    ensures ScreenKept(w, CloseOverBudget(w, s))
  {
    var c := CloseOverBudget(w, s);
    assert forall k :: 0 <= k < |s.said| ==> c.said[k] == s.said[k];
    assert forall k :: 0 <= k < |s.log| ==> Spoke(c, k) == Spoke(s, k);
  }

  /** The states a send can leave: the turn goes on from an answer or past a silent failure, or it ends. */
  lemma SentKeepsScreen(w: Setting, s: State, s': State)
    requires ScreenKept(w, s) && s.outcome == Running
    requires |s'.log| == |s.log| + 1 && s'.log[..|s.log|] == s.log && s'.log[|s.log|].idx == s.idx
    requires |s'.said| == |s.said| + 1 && s'.said[..|s.said|] == s.said
    requires !w.hasSink ==> Last(s'.said) == ""
    requires s'.outcome != OverBudget
    requires s'.outcome == Running ==>
               (s'.log[|s.log|].ok && s'.idx == s.idx) || forall k :: 0 <= k < |s'.said| ==> s'.said[k] == ""
    ensures ScreenKept(w, s')
  {
    SpokenSoFar(w, s, s');
    assert s'.said[0] == s'.said[..|s.said|][0];
    forall k | 0 <= k < |s'.said| && !w.hasSink
      ensures s'.said[k] == ""
    {
      if k < |s.said| {
        assert s'.said[k] == s'.said[..|s.said|][k];
      }
    }
  }

  lemma SendKeepsScreen(w: Setting, ranBefore: nat, s: State)
    requires WalkKept(w, ranBefore, s) && ScreenKept(w, s) && s.outcome == Running
    requires MaySend(w, s) && (s.committed.None? || w.active[s.idx].providerId == s.committed.value)
    ensures ScreenKept(w, Pass(w, s))
  {
    hide Pass, Streamed, Thread, AfterFailure, CloseOverBudget, ResultsFor, RanOf, MadeAfter, WalkKept, ScreenKept;
    PassSends(w, s);
    var cand, reply := w.active[s.idx], w.world.replies(|s.log|);
    var heeded := Heeded(w, s, cand);
    SendingSays(w, s, cand);
    match reply.ending {
      case Answered(text, calls, capped) =>
        if calls != [] {
          var round := ToolRound(w, heeded, cand, text, calls);
          SentKeepsScreen(w, s, round);
          ClosingKeepsScreen(w, round);
        } else {
          SentKeepsScreen(w, s, Pass(w, s));
        }
      case Failed(why, sentence) =>
        FailureFacts(w, heeded, cand, why, sentence, reply.endedAt);
        OnlyNewlinesAreAdded(heeded.said);
        SentKeepsScreen(w, s, Pass(w, s));
    }
  }

  lemma PassKeepsScreen(w: Setting, ranBefore: nat, s: State)
    requires WalkKept(w, ranBefore, s) && ScreenKept(w, s) && s.outcome == Running
    ensures ScreenKept(w, Pass(w, s))
  {
    hide Pass, CloseOverBudget;
    PassStops(w, s);
    if s.rounds >= MAX_TOOL_ROUNDS {
      ClosingKeepsScreen(w, s);
    } else if !MaySend(w, s) {
      assert forall k :: 0 <= k < |s.log| ==> Spoke(GiveUp(s), k) == Spoke(s, k);
    } else if s.committed.Some? && w.active[s.idx].providerId != s.committed.value {
      PassSkips(w, s);
      forall k | 0 <= k < |s.log|
        ensures !Spoke(s, k)
      {
        assert s.log[k].ok ==> ProviderOf(w, s.log, k) == s.committed.value;
      }
      assert forall k :: 0 <= k < |s.log| ==> Spoke(Pass(w, s), k) == Spoke(s, k);
    } else {
      SendKeepsScreen(w, ranBefore, s);
    }
  }

  lemma {:induction false} FinishKeepsScreen(w: Setting, ranBefore: nat, s: State)
    requires WalkKept(w, ranBefore, s) && ScreenKept(w, s)
    ensures ScreenKept(w, Finish(w, s))
    decreases Left(w, s)
  {
    if s.outcome == Running {
      PassProgresses(w, s);
      PassKeepsWalk(w, ranBefore, s);
      PassKeepsScreen(w, ranBefore, s);
      hide Pass, Finish, WalkKept, ScreenKept;
      FinishStep(w, s);
      FinishKeepsScreen(w, ranBefore, Pass(w, s));
    }
  }

  // ----- why a turn fails, and whom the person is told about -----------------------------

  /** The sentence of the last send that failed. */
  function LastWords(w: Setting, log: seq<Attempt>): Option<string> {
    if log == [] then None
    else
      var ending := w.world.replies(|log| - 1).ending;
      if ending.Failed? then Some(ending.sentence) else LastWords(w, log[..|log| - 1])
  }

  /** The last send failed in a way that ends the turn where it stands. */
  predicate Fatal(w: Setting, s: State) {
    && s.log != []
    && var ending := w.world.replies(|s.log| - 1).ending;
       ending.Failed? && (!Walks(ending.why) || Thread(s.said) != "")
  }

  /** The provider the person's settings prefer was tried and rejected Addison's key. */
  predicate HeadRejected(w: Setting, log: seq<Attempt>) {
    && w.preferred.Some?
    && exists k :: 0 <= k < |log| && log[k].idx < |w.active|
         && ProviderOf(w, log, k) == w.preferred.value.providerId
         && w.world.replies(k).ending.Failed? && w.world.replies(k).ending.why == KeyRejected
  }

  /** Some answer came from a model other than the one the person's settings prefer. */
  predicate Substituted(w: Setting, log: seq<Attempt>) {
    && w.preferred.Some?
    && exists k :: 0 <= k < |log| && log[k].ok && log[k].idx < |w.active|
         && w.active[log[k].idx].modelId != w.preferred.value.modelId
  }

  /**
   A turn that fails does so with the last provider's own sentence, and only because the
   budget ran out, the chain was exhausted, or the last failure could not be walked past;
   an answer from another model is noted, unless a rejected key already explains it.
   */
  predicate Explained(w: Setting, s: State) {
    && (forall k :: 0 <= k < |s.log| ==> s.log[k].idx < |w.active|)
    && (s.outcome == Running ==> s.lastFailure == LastWords(w, s.log))
    && (s.outcome.Raised? ==>
          && s.outcome.sentence == (if LastWords(w, s.log).Some? then LastWords(w, s.log).value else NO_MODEL_REACHABLE)
          && (TimeLeft(w, s) <= 0 || s.idx >= |w.active| || Fatal(w, s)))
    && (s.preferredRejected <==> HeadRejected(w, s.log))
    && (Substituted(w, s.log) ==> s.noted || s.preferredRejected)
    && (s.noted ==> Substituted(w, s.log))
  }

  lemma LogGrows(w: Setting, log: seq<Attempt>, a: Attempt)
    requires forall k :: 0 <= k < |log| ==> log[k].idx < |w.active|
    requires a.idx < |w.active|
    ensures var ending := w.world.replies(|log|).ending;
            && LastWords(w, log + [a]) == (if ending.Failed? then Some(ending.sentence) else LastWords(w, log))
            && (HeadRejected(w, log + [a]) <==>
                  HeadRejected(w, log) ||
                  (w.preferred.Some? && w.active[a.idx].providerId == w.preferred.value.providerId
                   && ending.Failed? && ending.why == KeyRejected))
            && (Substituted(w, log + [a]) <==>
                  Substituted(w, log) ||
                  (w.preferred.Some? && a.ok && w.active[a.idx].modelId != w.preferred.value.modelId))
  {
    var more := log + [a];
    assert more[..|log|] == log;
    assert more[|log|] == a;
    assert forall k :: 0 <= k < |log| ==> more[k] == log[k] && ProviderOf(w, more, k) == ProviderOf(w, log, k);
    assert ProviderOf(w, more, |log|) == w.active[a.idx].providerId;
  }

  lemma ClosingFacts(w: Setting, s: State)
    ensures var c := CloseOverBudget(w, s);
            && c.log == s.log && c.noted == s.noted && c.preferredRejected == s.preferredRejected
            && c.outcome == OverBudget
  {
  }

  lemma AnswerExplains(w: Setting, s: State, cand: Candidate, text: string, calls: seq<ToolCall>, capped: bool)
    requires Explained(w, s) && s.outcome == Running && MaySend(w, s) && cand == w.active[s.idx]
    requires w.world.replies(|s.log|).ending == Answered(text, calls, capped)
    ensures Explained(w, AfterAnswer(w, Heeded(w, s, cand), cand, text, calls, capped))
  {
    hide Streamed, Thread, ResultsFor, RanOf, MadeAfter, CloseOverBudget, LastWords, HeadRejected, Substituted, Fatal,
        Pushed;
    LogGrows(w, s.log, Attempt(s.idx, true, |s.messages|));
    ClosingFacts(w, ToolRound(w, Heeded(w, s, cand), cand, text, calls));
  }

  lemma FailureExplains(w: Setting, s: State, cand: Candidate, why: Failure, sentence: string)
    requires Explained(w, s) && s.outcome == Running && MaySend(w, s) && cand == w.active[s.idx]
    requires w.world.replies(|s.log|).ending == Failed(why, sentence)
    ensures Explained(w, AfterFailure(w, Heeded(w, s, cand), cand, why, sentence, w.world.replies(|s.log|).endedAt))
  {
    hide Streamed, Thread, AfterFailure, LastWords, HeadRejected, Substituted;
    LogGrows(w, s.log, Attempt(s.idx, false, |s.messages|));
    FailureFacts(w, Heeded(w, s, cand), cand, why, sentence, w.world.replies(|s.log|).endedAt);
  }

  lemma PassExplains(w: Setting, s: State)
    requires Explained(w, s) && s.outcome == Running
    ensures Explained(w, Pass(w, s))
  {
    hide Pass, AfterFailure, AfterAnswer, Heeded, CloseOverBudget, LastWords, HeadRejected, Substituted, Thread;
    PassStops(w, s);
    ClosingFacts(w, s);
    if MaySend(w, s) {
      if s.committed.Some? && w.active[s.idx].providerId != s.committed.value {
        PassSkips(w, s);
      } else {
        PassSends(w, s);
        match w.world.replies(|s.log|).ending {
          case Answered(text, calls, capped) => AnswerExplains(w, s, w.active[s.idx], text, calls, capped);
          case Failed(why, sentence) => FailureExplains(w, s, w.active[s.idx], why, sentence);
        }
      }
    }
  }

  lemma {:induction false} FinishExplains(w: Setting, s: State)
    requires Explained(w, s)
    ensures Explained(w, Finish(w, s))
    decreases Left(w, s)
  {
    if s.outcome == Running {
      PassProgresses(w, s);
      PassExplains(w, s);
      hide Pass, Finish, Explained;
      FinishStep(w, s);
      FinishExplains(w, Pass(w, s));
    }
  }

  // ----- the turn as a whole ---------------------------------------------------------------

  /** Everything a turn promises about the state it ends in; of the history, if it starts on a paired one. */
  lemma TurnPromises(w: Setting, messages: seq<Message>, ran: seq<string>,
                     cooled: map<string, int>, cooledModels: map<string, int>)
    ensures var end := Finish(w, Start(messages, ran, cooled, cooledModels));
            && (Paired(messages) ==> HistoryKept(messages, end))
            && WalkKept(w, |ran|, end)
            && ScreenKept(w, end)
            && Explained(w, end)
  {
    var start := Start(messages, ran, cooled, cooledModels);
    hide Finish, Pass, Streamed;
    if Paired(messages) {
      FinishKeepsHistory(w, messages, start);
    }
    FinishKeepsWalk(w, |ran|, start);
    FinishKeepsScreen(w, |ran|, start);
    FinishExplains(w, start);
  }

  /** All the model's words on the screen are one candidate's. */
  lemma OneVoice(w: Setting, messages: seq<Message>, ran: seq<string>, cooled: map<string, int>,
                 cooledModels: map<string, int>, end: State, a: nat, b: nat)
    requires end == Finish(w, Start(messages, ran, cooled, cooledModels))
    requires a < |end.log| && b < |end.log| && |end.said| > |end.log| && Spoke(end, a) && Spoke(end, b)
    ensures end.log[a].idx == end.log[b].idx < |w.active|
  {
    hide Finish, HistoryKept, Explained;
    TurnPromises(w, messages, ran, cooled, cooledModels);
    assert DownTheChain(w, end.log);
  }

  /**
   With no reader watching, the walk stays free: a turn fails only for want of time or of
   candidates, or for a failure that no other candidate could cure.
   */
  lemma UnwatchedWalkIsFree(w: Setting, messages: seq<Message>, ran: seq<string>,
                            cooled: map<string, int>, cooledModels: map<string, int>)
    requires !w.hasSink
    ensures var end := Finish(w, Start(messages, ran, cooled, cooledModels));
            && Thread(end.said) == ""
            && (end.outcome.Raised? && TimeLeft(w, end) > 0 && end.idx < |w.active| ==>
                  && end.log != []
                  && var ending := w.world.replies(|end.log| - 1).ending;
                     ending.Failed? && !Walks(ending.why))
  {
    hide Finish, Start, HistoryKept, WalkKept, LastWords, HeadRejected, Substituted;
    TurnPromises(w, messages, ran, cooled, cooledModels);
    Unwatched(w, Finish(w, Start(messages, ran, cooled, cooledModels)));
  }

  lemma Unwatched(w: Setting, s: State)
    requires ScreenKept(w, s) && Explained(w, s) && !w.hasSink
    ensures Thread(s.said) == ""
    ensures s.outcome.Raised? && TimeLeft(w, s) > 0 && s.idx < |w.active| ==>
              s.log != [] && w.world.replies(|s.log| - 1).ending.Failed?
                  && !Walks(w.world.replies(|s.log| - 1).ending.why)
  {
    hide Thread, LastWords, HeadRejected, Substituted;
    OnlyNewlinesAreAdded(s.said);
  }
}
