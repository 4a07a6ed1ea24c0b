/**
 A conversation over its whole life: messages sent, turns answered or failed, chats
 condensed, rewound and reopened. Whatever the order, no request for tools is ever parted
 from its results, so no provider is ever handed a history it would reject.
 */
module Session {
  import opened Wrappers
  import opened Messages
  import opened Turn
  import opened TurnLaws
  import opened ContextCut
  import opened Relay
  import opened Reopening
  import opened ToolRun
  import opened TurnTells

  datatype Event =
    /** The person sends a message and a turn runs, over a transient system prompt if there is one. */
    | Ask(text: string, prompt: Option<string>, setting: Setting, cooled: map<string, int>,
          cooledModels: map<string, int>)
    /** The turn boundary finds the chat near its limit and a summary was, or was not, to be had. */
    | Condense(summary: Option<string>, facts: seq<string>)
    /** Rewind to before the message at this position. */
    | Rewind(index: nat)
    /** Reopen a stored conversation. */
    | Reopen(rows: seq<Message>)

  /** The history the turn is run on. */
  function Opening(h: seq<Message>, e: Event): seq<Message>
    requires e.Ask?
  {
    (if e.prompt.Some? then [Say(System, e.prompt.value)] else []) + h + [Say(User, e.text)]
  }

  function Apply(h: seq<Message>, e: Event): seq<Message> {
    match e
    case Ask(text, prompt, setting, cooled, cooledModels) =>
      var end := Finish(setting, Start(Opening(h, e), [], cooled, cooledModels));
      if end.outcome.Raised? then h + [Say(User, text)]
      else if prompt.Some? && end.messages != [] then end.messages[1..]
      else end.messages
    case Condense(summary, facts) =>
      var cut := ChooseCutPoint(h, KEEP_RECENT_TURNS);
      if summary.None? || !cut.Cut? || cut.index > |h| then h
      else BuildSeed(summary.value, facts, h[cut.index..])
    case Rewind(index) => if index < |h| then h[..index] else h
    case Reopen(rows) => Reopened(rows)
  }

  function History(events: seq<Event>): seq<Message> {
    if events == [] then [] else Apply(History(events[..|events| - 1]), events[|events| - 1])
  }

  /** The one thing asked of the surface: a rewind is not aimed at a tool result. */
  predicate Aimed(h: seq<Message>, e: Event) {
    e.Rewind? && e.index < |h| ==> h[e.index].role != Tool
  }

  predicate AllAimed(events: seq<Event>) {
    forall k :: 0 <= k < |events| ==> Aimed(History(events[..k]), events[k])
  }

  // ----- one step --------------------------------------------------------------------------

  predicate PlainProse(h: seq<Message>) {
    forall k :: 0 <= k < |h| ==> h[k].role in {User, Assistant} && h[k].calls == []
  }

  lemma {:induction false} PlainProseIsPaired(h: seq<Message>)
    requires PlainProse(h)
    ensures Paired(h)
    decreases |h|
  {
    if h != [] {
      PlainProseIsPaired(h[1..]);
    }
  }

  lemma {:induction false} ReloadIsPlain(rows: seq<Message>)
    ensures PlainProse(Reload(rows).0)
  {
    if rows != [] {
      ReloadIsPlain(rows[..|rows| - 1]);
    }
  }

  lemma {:induction false} SettleIsPlain(h: seq<Message>, pending: seq<ToolCall>)
    requires PlainProse(h)
    ensures PlainProse(Settle(h, pending)) && |Settle(h, pending)| == |h|
    decreases |h|
  {
    if h != [] && pending != [] {
      SettleIsPlain(h[..|h| - 1], pending);
    }
  }

  lemma OpeningIsPaired(h: seq<Message>, e: Event)
    requires Paired(h) && e.Ask?
    ensures Paired(Opening(h, e))
    ensures Paired(h + [Say(User, e.text)])
  {
    hide Finish;
    var user := [Say(User, e.text)];
    PlainProseIsPaired(user);
    PairedAppend(h, user);
    if e.prompt.Some? {
      var prompt := [Say(System, e.prompt.value)];
      assert prompt[1..] == [];
      PairedAppend(prompt, h + user);
      assert prompt + (h + user) == Opening(h, e);
    } else {
      assert Opening(h, e) == h + user;
    }
  }

  /** `h'` is `asked` with whole rounds and one closing message added. */
  predicate Closed(asked: seq<Message>, h': seq<Message>) {
    && asked <= h' && |h'| > |asked|
    && h'[|h'| - 1] == Say(Assistant, h'[|h'| - 1].content)
    && OnlyRounds(h'[..|h'| - 1], |asked|)
  }

  /** Taking the transient prompt off the front again changes nothing else. */
  lemma PromptComesOff(prompt: Message, asked: seq<Message>, full: seq<Message>)
    requires Paired(full) && Closed([prompt] + asked, full) && prompt.role == System
    ensures Paired(full[1..]) && Closed(asked, full[1..])
  {
    var t := full[1..];
    assert full[0] == ([prompt] + asked)[0];
    forall k | 0 <= k < |asked|
      ensures t[k] == asked[k]
    {
      assert full[k + 1] == ([prompt] + asked)[k + 1];
    }
    var rounds := t[..|t| - 1];
    forall k | |asked| <= k < |rounds|
      ensures InRound(rounds[k])
    {
      assert full[..|full| - 1][k + 1] == rounds[k];
    }
  }

  /**
   A turn leaves the conversation exactly as it was with the question added if it failed,
   and otherwise with the question, whole rounds, and one closing message added.
   */
  lemma AskExtends(h: seq<Message>, e: Event)
    requires Paired(h) && e.Ask?
    ensures var asked, h' := h + [Say(User, e.text)], Apply(h, e);
            && Paired(h')
            && (h' == asked || Closed(asked, h'))
            && (AllLive(h) ==> AllLive(h'))
  {
    hide Finish, Paired, WalkKept, ScreenKept, Explained, SentPaired;
    var opening, asked := Opening(h, e), h + [Say(User, e.text)];
    OpeningIsPaired(h, e);
    TurnPromises(e.setting, opening, [], e.cooled, e.cooledModels);
    var end := Finish(e.setting, Start(opening, [], e.cooled, e.cooledModels));
    if !end.outcome.Raised? {
      assert Closed(opening, end.messages);
      if e.prompt.Some? {
        var prompt := Say(System, e.prompt.value);
        assert opening == [prompt] + asked;
        PromptComesOff(prompt, asked, end.messages);
      } else {
        assert opening == asked;
      }
    }
  }

  /** The turn an event runs, from its prompt, the history so far and the question. */
  function TurnOf(h: seq<Message>, e: Event): State
    requires e.Ask?
  {
    Finish(e.setting, Start(PromptOf(e) + Asked(h, e), [], e.cooled, e.cooledModels))
  }

  function PromptOf(e: Event): seq<Message>
    requires e.Ask?
  {
    if e.prompt.Some? then [Say(System, e.prompt.value)] else []
  }

  function Asked(h: seq<Message>, e: Event): seq<Message>
    requires e.Ask?
  {
    h + [Say(User, e.text)]
  }

  /** The question alone if the turn raised, and otherwise the question and all the turn added. */
  lemma AskAdds(h: seq<Message>, e: Event)
    requires Paired(h) && e.Ask?
    ensures var opening, end := PromptOf(e) + Asked(h, e), TurnOf(h, e);
            && opening <= end.messages
            && Apply(h, e) == Asked(h, e) + if end.outcome.Raised? then [] else end.messages[|opening|..]
  {
    hide Apply, Finish, Paired, Opening, Say, EndingOf;
    OpeningIs(h, e);
    OpeningIsPaired(h, e);
    var opening, end := PromptOf(e) + Asked(h, e), TurnOf(h, e);
    TurnEnds(e, opening);
    AskIs(h, e);
    hide TurnOf, Asked;
    PromptOff(PromptOf(e), Asked(h, e), end.messages);
  }

  /** And how it ends: in the text of the turn's last answer, or in the sentence that it took too many steps. */
  lemma AskTells(h: seq<Message>, e: Event)
    requires Paired(h) && e.Ask?
    ensures var end := TurnOf(h, e);
            && end.outcome != Running
            && (end.outcome.Raised? ==> Apply(h, e) == h + [Say(User, e.text)])
            && (end.outcome.Done? ==>
                  && end.log != [] && EndingOf(e.setting, |end.log| - 1).Answered?
                  && EndsWith(Apply(h, e), EndingOf(e.setting, |end.log| - 1).text))
            && (end.outcome == OverBudget ==> EndsWith(Apply(h, e), TOO_MANY_STEPS))
  {
    hide Apply, Finish, Paired, Opening, Say, EndingOf, TOO_MANY_STEPS;
    OpeningIs(h, e);
    OpeningIsPaired(h, e);
    AskAdds(h, e);
    var opening, end := PromptOf(e) + Asked(h, e), TurnOf(h, e);
    TurnEnds(e, opening);
    LastIsLast(Asked(h, e), end.messages, |opening|);
  }

  predicate EndsWith(h: seq<Message>, text: string) {
    h != [] && Last(h) == Say(Assistant, text)
  }

  lemma OpeningIs(h: seq<Message>, e: Event)
    requires e.Ask?
    ensures Opening(h, e) == PromptOf(e) + Asked(h, e)
  {
    hide Say;
  }

  lemma LastIsLast(asked: seq<Message>, full: seq<Message>, n: nat)
    requires n <= |full| && asked != []
    ensures n < |full| ==> Last(asked + full[n..]) == Last(full)
  {
  }

  lemma AskIs(h: seq<Message>, e: Event)
    requires e.Ask?
    ensures var end := Finish(e.setting, Start(Opening(h, e), [], e.cooled, e.cooledModels));
            Apply(h, e) ==
              if end.outcome.Raised? then h + [Say(User, e.text)]
              else if e.prompt.Some? && end.messages != [] then end.messages[1..]
              else end.messages
  {
    hide Finish, Opening;
  }

  /** How a turn leaves the history it was run on. */
  lemma TurnEnds(e: Event, opening: seq<Message>)
    requires e.Ask? && Paired(opening)
    ensures var end := Finish(e.setting, Start(opening, [], e.cooled, e.cooledModels));
            && opening <= end.messages && end.outcome != Running
            && (!end.outcome.Raised? ==> |opening| < |end.messages|)
            && (end.outcome.Done? ==>
                  && end.log != [] && EndingOf(e.setting, |end.log| - 1).Answered?
                  && Last(end.messages) == Say(Assistant, EndingOf(e.setting, |end.log| - 1).text))
            && (end.outcome == OverBudget ==> Last(end.messages) == Say(Assistant, TOO_MANY_STEPS))
  {
    TurnPromises(e.setting, opening, [], e.cooled, e.cooledModels);
    TurnTellsAll(e.setting, opening, [], e.cooled, e.cooledModels);
    hide Finish, Paired, WalkKept, ScreenKept, Explained, SentPaired, ScreenTold, WalkTold, CoolingTold, CountsTold;
    var end := Finish(e.setting, Start(opening, [], e.cooled, e.cooledModels));
    if end.outcome == OverBudget {
      OverBudgetSays(e.setting, opening, [], end);
    }
  }

  lemma OverBudgetSays(w: Setting, before: seq<Message>, ran: seq<string>, s: State)
    requires HistoryTold(w, before, ran, s) && s.outcome == OverBudget
    ensures s.messages != [] && Last(s.messages) == Say(Assistant, TOO_MANY_STEPS)
  {
    hide Records, Permitted;
    var more :| Adds(before, s, more) && Records(w, s.log, more, |s.log|);
  }

  lemma PromptOff(prompt: seq<Message>, asked: seq<Message>, full: seq<Message>)
    requires |prompt| <= 1 && prompt + asked <= full
    ensures full != [] && prompt != [] ==> full[1..] == asked + full[|prompt + asked|..]
    ensures prompt == [] ==> full == asked + full[|prompt + asked|..]
  {
    var added := full[|prompt + asked|..];
    assert full == prompt + asked + added;
    assert prompt + asked + added == prompt + (asked + added);
  }

  /** Rewinding to where a turn began takes back the turn and its question, and nothing else. */
  lemma RewindUndoesATurn(h: seq<Message>, e: Event, index: nat)
    requires Paired(h) && e.Ask? && index <= |h|
    ensures Apply(Apply(h, e), Rewind(index)) == h[..index]
    ensures Apply(Apply(h, e), Rewind(|h|)) == h
  {
    hide *;
    QuestionIsThere(h, e);
    var asked, h' := h + [Say(User, e.text)], Apply(h, e);
    Rewinds(h', index);
    Rewinds(h', |h|);
    assert h'[..|asked|][..|h|] == h && h'[..|asked|][..index] == h[..index];
  }

  lemma QuestionIsThere(h: seq<Message>, e: Event)
    requires Paired(h) && e.Ask?
    ensures var asked := h + [Say(User, e.text)];
            |h| < |asked| <= |Apply(h, e)| && Apply(h, e)[..|asked|] == asked
  {
    hide Apply, Paired, OnlyRounds;
    AskExtends(h, e);
  }

  lemma Rewinds(h: seq<Message>, index: nat)
    ensures Apply(h, Rewind(index)) == if index < |h| then h[..index] else h
  {
  }

  /**
   Condensing, for any history: with no summary, or nowhere to cut, it is left as it was; otherwise
   it is the opening message and the history from its latest legal cut on, word for word.
   */
  lemma CondenseIs(h: seq<Message>, summary: Option<string>, facts: seq<string>)
    ensures var h' := Apply(h, Condense(summary, facts));
            if summary.None? || forall j :: !Roomy(h, 4, j) then h' == h
            else
              exists j :: Roomy(h, 4, j) && (forall i :: Roomy(h, 4, i) ==> i <= j)
                          && h' == [Say(User, SeedText(summary.value, facts))] + h[j..]
  {
    hide ChooseCutPoint, Turns, SeedText, IsLegalCut;
    CutIsLatestLegal(h, 4);
    var cut := ChooseCutPoint(h, 4);
    if cut.Cut? {
      RoomyIsInside(h, cut.index);
    }
  }

  lemma RoomyIsInside(h: seq<Message>, j: int)
    requires Roomy(h, 4, j)
    ensures 0 < j < |h| && h[j].role == User
    ensures h[j - 1].role == Assistant ==> h[j - 1].calls == [] && h[j - 1].pastCalls == []
  {
  }

  /** One event keeps a paired history paired, whenever a rewind is not aimed at a tool result. */
  lemma StepKeepsPairing(h: seq<Message>, e: Event)
    requires Paired(h) && Aimed(h, e)
    ensures Paired(Apply(h, e))
  {
    match e {
      case Ask(_, _, _, _, _) =>
        AskExtends(h, e);
      case Condense(summary, facts) =>
        var cut := ChooseCutPoint(h, KEEP_RECENT_TURNS);
        if summary.Some? && cut.Cut? {
          SeedKeepsPairing(h, KEEP_RECENT_TURNS, cut, summary.value, facts);
        }
      case Rewind(index) =>
        if index < |h| {
          PrefixIff(h, index);
        }
      case Reopen(rows) =>
        ReloadIsPlain(rows);
        SettleIsPlain(Reload(rows).0, Reload(rows).1);
        PlainProseIsPaired(Reopened(rows));
    }
  }

  /** For a rewind the condition is exact: aimed at a tool result, it leaves a request without its results. */
  lemma RewindIsSafeIff(h: seq<Message>, index: nat)
    requires Paired(h)
    ensures Paired(Apply(h, Rewind(index))) <==> Aimed(h, Rewind(index))
  {
    if index < |h| {
      PrefixIff(h, index);
    }
  }

  // ----- the whole life ---------------------------------------------------------------------

  lemma HistoryMore(events: seq<Event>, e: Event)
    ensures History(events + [e]) == Apply(History(events), e)
    ensures AllAimed(events + [e]) <==> AllAimed(events) && Aimed(History(events), e)
  {
    hide Apply, Aimed;
    var all := events + [e];
    assert all[..|events|] == events;
    assert forall k :: 0 <= k < |events| ==> all[..k] == events[..k] && all[k] == events[k];
  }

  /** At the end of every session whose rewinds are so aimed, the live history is paired. */
  lemma {:induction false} SessionStaysPaired(events: seq<Event>)
    requires AllAimed(events)
    ensures Paired(History(events))
  {
    hide Apply, Aimed, Paired, AllAimed;
    if events == [] {
      EmptyIsPaired();
    } else {
      var front, e := events[..|events| - 1], events[|events| - 1];
      assert events == front + [e];
      HistoryMore(front, e);
      SessionStaysPaired(front);
      StepKeepsPairing(History(front), e);
    }
  }

  lemma EmptyIsPaired()
    ensures Paired([]) && AllLive([])
  {
  }

  ghost predicate AlwaysPaired(events: seq<Event>) {
    forall k :: 0 <= k <= |events| ==> Paired(History(events[..k]))
  }

  /** The history is paired all through a session exactly when no rewind in it is aimed at a tool result. */
  lemma AlwaysPairedIff(events: seq<Event>)
    ensures AlwaysPaired(events) <==> AllAimed(events)
  {
    hide Apply, Paired, History;
    if AllAimed(events) {
      forall k | 0 <= k <= |events| ensures Paired(History(events[..k])) {
        assert forall j :: 0 <= j < k ==> events[..k][..j] == events[..j];
        SessionStaysPaired(events[..k]);
      }
    }
    if AlwaysPaired(events) {
      forall k | 0 <= k < |events| ensures Aimed(History(events[..k]), events[k]) {
        var front, e := events[..k], events[k];
        assert events[..k + 1] == front + [e];
        HistoryMore(front, e);
        assert Paired(History(events[..k + 1]));
        if e.Rewind? {
          RewindIsSafeIff(History(front), e.index);
        }
      }
    }
  }

  /** Until a stored chat is reopened, nothing in the history comes from an earlier session, however it is rewound. */
  lemma {:induction false} SessionStaysLive(events: seq<Event>)
    requires forall k :: 0 <= k < |events| ==> !events[k].Reopen?
    ensures AllLive(History(events))
  {
    hide Apply, AllLive;
    if events == [] {
      EmptyIsPaired();
    } else {
      var front, e := events[..|events| - 1], events[|events| - 1];
      SessionStaysLive(front);
      StepKeepsLive(History(front), e);
    }
  }

  lemma StepKeepsLive(h: seq<Message>, e: Event)
    requires AllLive(h) && !e.Reopen?
    ensures AllLive(Apply(h, e))
  {
    match e {
      case Ask(_, _, _, _, _) =>
        AskKeepsLive(h, e);
      case Condense(summary, facts) =>
        hide ChooseCutPoint, SeedText;
      case Rewind(_) =>
    }
  }

  lemma AskKeepsLive(h: seq<Message>, e: Event)
    requires AllLive(h) && e.Ask?
    ensures AllLive(Apply(h, e))
  {
    hide Finish;
    var opening := Opening(h, e);
    assert AllLive(opening);
    FinishKeepsLive(e.setting, Start(opening, [], e.cooled, e.cooledModels));
  }

  // A session that a rewind does part.

  const CALL := ToolCall("1", "t")

  /** One candidate that asks for one tool and, once answered, closes. */
  function OneToolSetting(): Setting {
    Setting([Candidate("m", "p")], None, false, 0, World(
      n => 0,
      n => Reply([], if n == 0 then Answered("", [CALL], false) else Answered("done", [], false), 0),
      n => Facts(false, None, None, None, None, None, None, false, false, Broke),
      c => false))
  }

  lemma OneToolTurn(messages: seq<Message>)
    ensures var end := Finish(OneToolSetting(), Start(messages, [], map[], map[]));
            && end.outcome == Done(Candidate("m", "p"), false)
            && end.messages == messages +
                ([Request("", [CALL])] + ResultsFor([CALL], 0, OneToolSetting().world.facts, false))
                               + [Say(Assistant, "done")]
  {
    hide Pass, Finish, Streamed, Thread, ResultsFor, RanOf, Pushed;
    var w := OneToolSetting();
    var s0 := Start(messages, [], map[], map[]);
    FinishStep(w, s0);
    PassSends(w, s0);
    var s1 := Pass(w, s0);
    assert s1.outcome == Running && s1.rounds == 1 && s1.idx == 0 && |s1.log| == 1;
    FinishStep(w, s1);
    PassSends(w, s1);
    FinishEnded(w, Pass(w, s1));
  }

  function OneToolAsk(): Event {
    Ask("q", None, OneToolSetting(), map[], map[])
  }

  lemma OneToolChat()
    ensures var h := Apply([], OneToolAsk());
            |h| == 4 && h[..2] == [Say(User, "q"), Request("", [CALL])] && h[2].role == Tool
  {
    hide Finish, ResultsFor, OneToolSetting;
    var asked: seq<Message> := [Say(User, "q")];
    assert Opening([], OneToolAsk()) == asked;
    OneToolTurn(asked);
    OneResult(Apply([], OneToolAsk()));
  }

  /** A question answered with a tool, then a rewind aimed at the tool's result: the request is left alone. */
  lemma RewindCanPart() returns (events: seq<Event>)
    ensures |events| == 2 && events[1] == Rewind(2) && Paired(History(events[..1]))
    ensures History(events) == [Say(User, "q"), Request("", [CALL])] && !Paired(History(events))
  {
    hide Paired, Apply, OneToolAsk, History, AllAimed;
    var ask := OneToolAsk();
    events := [ask] + [Rewind(2)];
    assert [] + [ask] == [ask] == events[..1];
    OneToolChat();
    HistoryMore([], ask);
    HistoryMore([ask], Rewind(2));
    NothingYet();
    AskIsAimed();
    SessionStaysPaired([ask]);
    var h := History([ask]);
    RewindIsSafeIff(h, 2);
    RewindIs(h, 2);
  }

  lemma NothingYet()
    ensures History([]) == [] && AllAimed([])
  {
  }

  lemma AskIsAimed()
    ensures forall h :: Aimed(h, OneToolAsk())
  {
  }

  lemma RewindIs(h: seq<Message>, index: nat)
    requires index < |h|
    ensures Apply(h, Rewind(index)) == h[..index]
  {
  }

  lemma OneResult(h: seq<Message>)
    requires h == [Say(User, "q")] +
              ([Request("", [CALL])] + ResultsFor([CALL], 0, OneToolSetting().world.facts, false))
                  + [Say(Assistant, "done")]
    ensures |h| == 4 && h[0] == Say(User, "q") && h[1] == Request("", [CALL]) && h[2].role == Tool
  {
  }

  /**
   Condensing such a session, once it has turns to spare, keeps exactly the last four turns
   word for word behind one message that stands for the rest.
   */
  lemma CondensingIsExact(events: seq<Event>, summary: string, facts: seq<string>)
    requires AllAimed(events)
    requires forall k :: 0 <= k < |events| ==> !events[k].Reopen?
    requires Turns(History(events)) > KEEP_RECENT_TURNS
    ensures var h, h' := History(events), Apply(History(events), Condense(Some(summary), facts));
            && h' != [] && h'[0].role == User && h'[0].calls == []
            && Turns(h'[1..]) == KEEP_RECENT_TURNS
            && |h'[1..]| <= |h| && h'[1..] == h[|h| - |h'[1..]|..]
            && Paired(h') && Paired(h[..|h| - |h'[1..]|])
  {
    hide Turns, Paired, History, TurnStarts, Search, SeedText;
    SessionStaysPaired(events);
    SessionStaysLive(events);
    var h := History(events);
    var cut := ChooseCutPoint(h, KEEP_RECENT_TURNS);
    LiveCutIsExact(h, KEEP_RECENT_TURNS, cut);
    SeedKeepsPairing(h, KEEP_RECENT_TURNS, cut, summary, facts);
    var h' := Apply(h, Condense(Some(summary), facts));
    assert h'[1..] == h[cut.index..];
  }
}
