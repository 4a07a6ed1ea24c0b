/**
 One routed turn as a transition system: a pass is one trip round the attempt loop, and a
 turn is the passes from its first state to the one that decides it. The orchestrator's
 loops are proved to compute exactly this (Orchestrator.dfy); what a turn promises is
 proved about it (TurnLaws.dfy).
 */
module Turn {
  import opened Wrappers
  import opened Messages
  import opened Relay
  import opened ToolRun

  const MAX_TOOL_ROUNDS := 25
  const COOLDOWN_SECONDS := 60
  const FALLBACK_BUDGET_SECONDS := 120
  const TOO_MANY_STEPS :=
    "That turned into more steps than I should take in one go, so I stopped there. " +
    "Tell me which part you'd like me to carry on with."
  const NO_MODEL_REACHABLE :=
    "Addison couldn't reach a model to answer just now. Please try again in a moment."

  datatype Candidate = Candidate(modelId: string, providerId: string)

  /** How a send fails. The first three let the walk go on; the others end the turn. */
  datatype Failure = KeyRejected | ModelGone | Unavailable | RequestRejected | AuthFailed | Crashed

  /** How a send ends: an answer, saying whether it hit the output cap, or a failure with its sentence. */
  datatype Ending =
    | Answered(text: string, calls: seq<ToolCall>, capped: bool)
    | Failed(why: Failure, sentence: string)

  /** One send, as the orchestrator sees it: the text streamed, then the ending, and the time. */
  datatype Reply = Reply(deltas: seq<string>, ending: Ending, endedAt: int)

  /**
   What the world would answer: the n-th look at the clock, the n-th send, the n-th call
   dispatched. Arbitrary functions, so every sequence of answers is covered.
   */
  datatype World = World(
    clock: nat -> int,
    replies: nat -> Reply,
    facts: nat -> Facts,
    vision: Candidate -> bool)

  datatype Setting = Setting(
    active: seq<Candidate>,
    preferred: Option<Candidate>,
    hasSink: bool,
    started: int,
    world: World)

  /** One send that was made: which candidate, whether it answered, how much history it was given. */
  datatype Attempt = Attempt(idx: nat, ok: bool, seen: nat)

  datatype Outcome =
    | Running
    | Done(who: Candidate, capped: bool)
    | OverBudget
    | Raised(sentence: string)

  datatype State = State(
    idx: nat,
    committed: Option<string>,
    made: nat,
    rounds: nat,
    passes: nat,
    noted: bool,
    preferredRejected: bool,
    lastFailure: Option<string>,
    messages: seq<Message>,
    ran: seq<string>,
    said: seq<string>,
    cooled: map<string, int>,
    cooledModels: map<string, int>,
    log: seq<Attempt>,
    outcome: Outcome)

  predicate Walks(why: Failure) {
    why in {KeyRejected, ModelGone, Unavailable}
  }

  function Last<T>(s: seq<T>): T
    requires s != []
  {
    s[|s| - 1]
  }

  /** Text pushed at the relay: with no sink nothing is shown. */
  function Pushed(hasSink: bool, said: seq<string>, text: string): seq<string>
    requires said != []
  {
    if hasSink then Heard(said, text) else said
  }

  function Streamed(hasSink: bool, said: seq<string>, deltas: seq<string>): (r: seq<string>)
    requires said != []
    ensures |r| == |said| && r[..|r| - 1] == said[..|said| - 1]
  {
    if deltas == [] then said
    else Pushed(hasSink, Streamed(hasSink, said, deltas[..|deltas| - 1]), Last(deltas))
  }

  function TimeLeft(w: Setting, s: State): int {
    FALLBACK_BUDGET_SECONDS - (w.world.clock(s.passes) - w.started)
  }

  function GiveUp(s: State): State {
    s.(outcome := Raised(if s.lastFailure.Some? then s.lastFailure.value else NO_MODEL_REACHABLE))
  }

  function CloseOverBudget(w: Setting, s: State): State {
    s.(messages := s.messages + [Say(Assistant, TOO_MANY_STEPS)],
       said := Pushed(w.hasSink, s.said + [""], TOO_MANY_STEPS),
       outcome := OverBudget)
  }

  function AfterFailure(w: Setting, s: State, cand: Candidate, why: Failure, sentence: string, at: int): State {
    var marked := s.(preferredRejected :=
      s.preferredRejected ||
      (why == KeyRejected && w.preferred.Some? && w.preferred.value.providerId == cand.providerId));
    if !Walks(why) || Thread(s.said) != "" then
      marked.(outcome := Raised(sentence))
    else
      var on := marked.(idx := s.idx + 1, lastFailure := Some(sentence));
      if why == ModelGone then on.(cooledModels := s.cooledModels[cand.modelId := at + COOLDOWN_SECONDS])
      else on.(cooled := s.cooled[cand.providerId := at + COOLDOWN_SECONDS])
  }

  function Told(w: Setting, s: State, cand: Candidate): State {
    s.(noted :=
      s.noted ||
      (!s.preferredRejected && w.preferred.Some? && w.preferred.value.modelId != cand.modelId))
  }

  function ToolRound(w: Setting, s: State, cand: Candidate, text: string, calls: seq<ToolCall>): State {
    Told(w, s, cand).(
      messages := s.messages +
          ([Request(text, calls)] + ResultsFor(calls, s.made, w.world.facts, w.world.vision(cand))),
      ran := s.ran + RanOf(calls, s.made, w.world.facts),
      made := MadeAfter(calls, s.made),
      committed := Some(cand.providerId),
      rounds := s.rounds + 1)
  }

  function AfterAnswer(w: Setting, s: State, cand: Candidate, text: string, calls: seq<ToolCall>, capped: bool): State
    requires s.said != []
  {
    if calls != [] then
      var round := ToolRound(w, s, cand, text, calls);
      if s.made + |calls| > MAX_TOOL_CALLS then CloseOverBudget(w, round) else round
    else
      Told(w, s, cand).(
        messages := s.messages + [Say(Assistant, text)],
        said := if Last(s.said) != "" then s.said else Pushed(w.hasSink, s.said, text),
        outcome := Done(cand, capped))
  }

  function Send(w: Setting, s: State, cand: Candidate): State {
    var reply := w.world.replies(|s.log|);
    var heard := s.(
      said := Streamed(w.hasSink, s.said + [""], reply.deltas),
      log := s.log + [Attempt(s.idx, reply.ending.Answered?, |s.messages|)]);
    match reply.ending
    case Failed(why, sentence) => AfterFailure(w, heard, cand, why, sentence, reply.endedAt)
    case Answered(text, calls, capped) => AfterAnswer(w, heard, cand, text, calls, capped)
  }

  /** One trip round the attempt loop. */
  function Pass(w: Setting, s: State): State {
    if s.rounds >= MAX_TOOL_ROUNDS then CloseOverBudget(w, s)
    else if TimeLeft(w, s) <= 0 || s.idx >= |w.active| then GiveUp(s)
    else
      var cand, t := w.active[s.idx], s.(passes := s.passes + 1);
      if s.committed.Some? && cand.providerId != s.committed.value then t.(idx := s.idx + 1)
      else Send(w, t, cand)
  }

  function Left(w: Setting, s: State): nat {
    if s.outcome != Running then 0
    else
      1 + (if s.rounds <= MAX_TOOL_ROUNDS then MAX_TOOL_ROUNDS - s.rounds else 0)
        + (if s.idx <= |w.active| then |w.active| - s.idx else 0)
  }

  /** The turn, run to its end. */
  function Finish(w: Setting, s: State): (r: State)
    ensures r.outcome != Running
    decreases Left(w, s)
  {
    if s.outcome != Running then s
    else
      PassProgresses(w, s);
      Finish(w, Pass(w, s))
  }

  function Start(messages: seq<Message>, ran: seq<string>, cooled: map<string, int>,
                 cooledModels: map<string, int>): State {
    State(0, None, 0, 0, 0, false, false, None, messages, ran, [""], cooled, cooledModels, [], Running)
  }

  // ----- a pass, case by case ---------------------------------------------------------

  lemma FinishStep(w: Setting, s: State)
    requires s.outcome == Running
    ensures Finish(w, s) == Finish(w, Pass(w, s))
    ensures Pass(w, s).outcome != Running ==> Finish(w, s) == Pass(w, s)
  {
  }

  lemma FinishEnded(w: Setting, s: State)
    ensures s.outcome != Running ==> Finish(w, s) == s
  {
  }

  predicate MaySend(w: Setting, s: State) {
    s.rounds < MAX_TOOL_ROUNDS && TimeLeft(w, s) > 0 && s.idx < |w.active|
  }

  /** What the send of `cand` in state `s` leaves, before its ending is acted on. */
  function Heeded(w: Setting, s: State, cand: Candidate): State {
    var reply := w.world.replies(|s.log|);
    s.(passes := s.passes + 1,
       said := Streamed(w.hasSink, s.said + [""], reply.deltas),
       log := s.log + [Attempt(s.idx, reply.ending.Answered?, |s.messages|)])
  }

  lemma PassSends(w: Setting, s: State)
    requires MaySend(w, s) && (s.committed.None? || w.active[s.idx].providerId == s.committed.value)
    ensures var cand, reply := w.active[s.idx], w.world.replies(|s.log|);
            Pass(w, s) ==
            match reply.ending
            case Failed(why, sentence) => AfterFailure(w, Heeded(w, s, cand), cand, why, sentence, reply.endedAt)
            case Answered(text, calls, capped) => AfterAnswer(w, Heeded(w, s, cand), cand, text, calls, capped)
  {
    hide AfterFailure, AfterAnswer, Streamed;
  }

  lemma PassSkips(w: Setting, s: State)
    requires MaySend(w, s) && s.committed.Some? && w.active[s.idx].providerId != s.committed.value
    ensures Pass(w, s) == s.(passes := s.passes + 1, idx := s.idx + 1)
  {
  }

  lemma PassStops(w: Setting, s: State)
    ensures s.rounds >= MAX_TOOL_ROUNDS ==> Pass(w, s) == CloseOverBudget(w, s)
    ensures s.rounds < MAX_TOOL_ROUNDS && !MaySend(w, s) ==> Pass(w, s) == GiveUp(s)
  {
  }

  /** What a failed send changes: nothing said or recorded, and either the walk moves on or the turn is over. */
  lemma FailureFacts(w: Setting, s: State, cand: Candidate, why: Failure, sentence: string, at: int)
    ensures var f := AfterFailure(w, s, cand, why, sentence, at);
            && f.messages == s.messages && f.log == s.log && f.said == s.said && f.ran == s.ran
            && f.made == s.made && f.rounds == s.rounds && f.committed == s.committed && f.noted == s.noted
            && f.passes == s.passes
            && f.preferredRejected ==
               (s.preferredRejected ||
                (why == KeyRejected && w.preferred.Some? && w.preferred.value.providerId == cand.providerId))
            && (if Walks(why) && Thread(s.said) == ""
                then f.idx == s.idx + 1 && f.outcome == s.outcome && f.lastFailure == Some(sentence)
                else f.idx == s.idx && f.outcome == Raised(sentence) && f.lastFailure == s.lastFailure)
  {
    hide Thread;
  }

  /** Every pass uses up a round or a candidate, or ends the turn. */
  lemma PassProgresses(w: Setting, s: State)
    requires s.outcome == Running
    ensures Left(w, Pass(w, s)) < Left(w, s)
  {
    hide Pass, AfterFailure, Streamed, ResultsFor, RanOf, Thread;
    PassStops(w, s);
    if MaySend(w, s) {
      if s.committed.Some? && w.active[s.idx].providerId != s.committed.value {
        PassSkips(w, s);
      } else {
        PassSends(w, s);
        var reply := w.world.replies(|s.log|);
        if reply.ending.Failed? {
          FailureFacts(w, Heeded(w, s, w.active[s.idx]), w.active[s.idx], reply.ending.why, reply.ending.sentence,
              reply.endedAt);
        }
      }
    }
  }

  /** The candidates not standing down at `now`; if that is none of them, all of them. */
  function Warm(chain: seq<Candidate>, cooled: map<string, int>, cooledModels: map<string, int>,
                now: int): seq<Candidate> {
    if chain == [] then []
    else
      var k := |chain| - 1;
      Warm(chain[..k], cooled, cooledModels, now) +
      if (chain[k].providerId in cooled && now < cooled[chain[k].providerId])
         || (chain[k].modelId in cooledModels && now < cooledModels[chain[k].modelId]) then [] else [chain[k]]
  }

  function Active(chain: seq<Candidate>, cooled: map<string, int>, cooledModels: map<string, int>,
                  now: int): seq<Candidate> {
    var warm := Warm(chain, cooled, cooledModels, now);
    if warm == [] then chain else warm
  }
}
