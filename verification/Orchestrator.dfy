/**
 The routed turn as the orchestrator runs it: rounds of sends, each walking the chain of
 candidates, over a conversation appended to in place and cooldown tables that outlive
 the turn.
 */
module Orchestrator {
  import opened Wrappers
  import opened Messages
  import opened Relay
  import opened ToolRun
  import opened Turn
  import TurnLaws
  import TurnTells

  /** What the two loops carry between them. `looks` and `sends` count what the world has been asked. */
  datatype Locals = Locals(
    idx: nat,
    committed: Option<string>,
    callsMade: nat,
    round: nat,
    looks: nat,
    sends: nat,
    noted: bool,
    preferredRejected: bool,
    lastUnavailable: Option<string>)

  datatype Walked = GaveUp(sentence: string) | Got(cand: Candidate, text: string, calls: seq<ToolCall>, capped: bool)

  /** A provider streaming one reply through the relay. */
  method Stream(relay: DeltaRelay, deltas: seq<string>)
    requires relay.Valid()
    modifies relay
    ensures relay.Valid() && relay.said == Streamed(relay.hasSink, old(relay.said), deltas)
  {
    for i := 0 to |deltas|
      invariant relay.Valid()
      invariant relay.said == Streamed(relay.hasSink, old(relay.said), deltas[..i])
    {
      relay.Push(deltas[i]);
      assert deltas[..i + 1][..i] == deltas[..i];
    }
    assert deltas[..|deltas|] == deltas;
  }

  class Orchestrator {
    var cooldowns: map<string, int>
    var modelCooldowns: map<string, int>

    constructor ()
      ensures cooldowns == map[] && modelCooldowns == map[]
    {
      cooldowns, modelCooldowns := map[], map[];
    }

    predicate IsCooled(providerId: string, now: int)
      reads this
    {
      providerId in cooldowns && now < cooldowns[providerId]
    }

    predicate IsModelCooled(modelId: string, now: int)
      reads this
    {
      modelId in modelCooldowns && now < modelCooldowns[modelId]
    }

    method ActiveChain(chain: seq<Candidate>, now: int) returns (active: seq<Candidate>)
      ensures active == Active(chain, cooldowns, modelCooldowns, now)
    {
      active := [];
      for i := 0 to |chain|
        invariant active == Warm(chain[..i], cooldowns, modelCooldowns, now)
      {
        if !IsCooled(chain[i].providerId, now) && !IsModelCooled(chain[i].modelId, now) {
          active := active + [chain[i]];
        }
        assert chain[..i + 1][..i] == chain[..i];
      }
      assert chain[..|chain|] == chain;
      if active == [] {
        active := chain;
      }
    }

    method FinishOverBudget(conversation: Conversation, relay: DeltaRelay)
      requires relay.Valid()
      modifies conversation`messages, relay
      ensures conversation.messages == old(conversation.messages) + [Say(Assistant, TOO_MANY_STEPS)]
      ensures relay.Valid()
      ensures relay.said == Pushed(relay.hasSink, old(relay.said) + [""], TOO_MANY_STEPS)
    {
      conversation.AppendAssistantMessage(TOO_MANY_STEPS);
      relay.BeginSend();
      relay.Push(TOO_MANY_STEPS);
    }

    /** The state the loops have reached, in the terms of the specification. */
    ghost function View(t: Locals, conversation: Conversation, relay: DeltaRelay, log: seq<Attempt>): State
      reads this, conversation, relay
    {
      State(t.idx, t.committed, t.callsMade, t.round, t.looks, t.noted, t.preferredRejected, t.lastUnavailable,
            conversation.messages, conversation.ran, relay.said, cooldowns, modelCooldowns, log, Running)
    }

    /** A failed send: note a rejected key, then either stop here or stand the candidate down and move on. */
    method HandleFailure(conversation: Conversation, relay: DeltaRelay, w: Setting, entry: Locals, cand: Candidate,
                         why: Failure, sentence: string, at: int, ghost log: seq<Attempt>)
      returns (t: Locals, stopped: bool)
      requires relay.Valid()
      modifies this
      ensures stopped ==> t.idx == entry.idx
      ensures !stopped ==> t.idx == entry.idx + 1
      ensures t.sends == entry.sends && t.round == entry.round
      ensures AfterFailure(w, old(View(entry, conversation, relay, log)), cand, why, sentence, at) ==
              if stopped then View(t, conversation, relay, log).(outcome := Raised(sentence))
              else View(t, conversation, relay, log)
    {
      hide Thread;
      t := entry;
      if why == KeyRejected && w.preferred.Some? && cand.providerId == w.preferred.value.providerId {
        t := t.(preferredRejected := true);
      }
      if !Walks(why) || relay.shownThisTurn {
        return t, true;
      }
      t, stopped := t.(lastUnavailable := Some(sentence), idx := t.idx + 1), false;
      if why == ModelGone {
        modelCooldowns := modelCooldowns[cand.modelId := at + COOLDOWN_SECONDS];
      } else {
        cooldowns := cooldowns[cand.providerId := at + COOLDOWN_SECONDS];
      }
    }

    /** One send: open a new utterance, let the provider stream into it, log the attempt. */
    method SendTo(conversation: Conversation, relay: DeltaRelay, w: Setting, entry: Locals, cand: Candidate,
                  ghost log: seq<Attempt>)
      returns (t: Locals, reply: Reply, ghost log': seq<Attempt>)
      requires relay.Valid() && relay.hasSink == w.hasSink && entry.sends == |log|
      modifies relay
      ensures relay.Valid() && t.sends == |log'|
      ensures t == entry.(looks := entry.looks + 1, sends := entry.sends + 1)
      ensures reply == w.world.replies(entry.sends)
      ensures View(t, conversation, relay, log') == Heeded(w, old(View(entry, conversation, relay, log)), cand)
    {
      relay.BeginSend();
      reply := w.world.replies(entry.sends);
      Stream(relay, reply.deltas);
      log' := log + [Attempt(entry.idx, reply.ending.Answered?, |conversation.messages|)];
      t := entry.(looks := entry.looks + 1, sends := entry.sends + 1);
    }

    /** The inner loop: walk the chain for one send, until a candidate answers or the turn fails. */
    method WalkChain(conversation: Conversation, relay: DeltaRelay, w: Setting, entry: Locals, ghost log: seq<Attempt>)
      returns (t: Locals, result: Walked, ghost log': seq<Attempt>)
      requires relay.Valid() && relay.hasSink == w.hasSink
      requires entry.sends == |log| && entry.round < MAX_TOOL_ROUNDS
      modifies this, relay
      ensures relay.Valid() && t.sends == |log'|
      ensures t.round == entry.round
      ensures var s, s' := old(View(entry, conversation, relay, log)), View(t, conversation, relay, log');
              match result
              case GaveUp(sentence) => Finish(w, s) == s'.(outcome := Raised(sentence))
              case Got(cand, text, calls, capped) =>
                Finish(w, s) == Finish(w, AfterAnswer(w, s', cand, text, calls, capped))
    {
      hide Pass, Finish, Streamed, Thread, AfterFailure, AfterAnswer, Heeded;
      t, log' := entry, log;
      ghost var s := View(t, conversation, relay, log');
      ghost var whole := Finish(w, s);
      while true
        invariant relay.Valid()
        invariant t.sends == |log'| && t.round == entry.round
        invariant s == View(t, conversation, relay, log') && Finish(w, s) == whole
        decreases |w.active| - t.idx
      {
        FinishStep(w, s);
        var remaining := FALLBACK_BUDGET_SECONDS - (w.world.clock(t.looks) - w.started);
        if remaining <= 0 || t.idx >= |w.active| {
          PassStops(w, s);
          return t, GaveUp(if t.lastUnavailable.Some? then t.lastUnavailable.value else NO_MODEL_REACHABLE), log';
        }
        var cand := w.active[t.idx];
        if t.committed.Some? && cand.providerId != t.committed.value {
          PassSkips(w, s);
          t := t.(looks := t.looks + 1, idx := t.idx + 1);
          s := View(t, conversation, relay, log');
          continue;
        }
        PassSends(w, s);
        var reply;
        t, reply, log' := SendTo(conversation, relay, w, t, cand, log');
        match reply.ending {
          case Answered(text, calls, capped) =>
            return t, Got(cand, text, calls, capped), log';
          case Failed(why, sentence) =>
            var stopped;
            t, stopped := HandleFailure(conversation, relay, w, t, cand, why, sentence, reply.endedAt, log');
            if stopped {
              return t, GaveUp(sentence), log';
            }
            s := View(t, conversation, relay, log');
        }
      }
    }

    /** What an answer leads to: a round of tool calls, or the message that closes the turn. */
    method TakeAnswer(conversation: Conversation, relay: DeltaRelay, w: Setting, entry: Locals, cand: Candidate,
                      text: string, calls: seq<ToolCall>, capped: bool, ghost log: seq<Attempt>)
      returns (t: Locals, budgetSpent: bool)
      requires relay.Valid() && relay.hasSink == w.hasSink
      modifies conversation, relay
      ensures relay.Valid() && t.sends == entry.sends
      ensures t.round == entry.round + if calls != [] then 1 else 0
      ensures calls == [] ==> !budgetSpent
      ensures AfterAnswer(w, old(View(entry, conversation, relay, log)), cand, text, calls, capped) ==
              if budgetSpent then CloseOverBudget(w, View(t, conversation, relay, log))
              else if calls == [] then View(t, conversation, relay, log).(outcome := Done(cand, capped))
              else View(t, conversation, relay, log)
    {
      hide Thread, ResultsFor, RanOf, Heard, MadeAfter, CloseOverBudget, Woven, Paired;
      t := entry;
      if !t.noted && !t.preferredRejected && w.preferred.Some? && cand.modelId != w.preferred.value.modelId {
        t := t.(noted := true);
      }
      if calls == [] {
        conversation.AppendAssistantMessage(text);
        if !relay.shownThisSend {
          relay.Push(text);
        }
        return t, false;
      }
      var made;
      made, budgetSpent := RunToolCalls(conversation, text, calls, w.world.facts, w.world.vision(cand), t.callsMade);
      t := t.(callsMade := made, committed := Some(cand.providerId), round := t.round + 1);
    }

    method RunWithFallback(conversation: Conversation, chain: seq<Candidate>, hasSink: bool, started: int, world: World)
      returns (outcome: Outcome, screen: string, ghost end: State)
      modifies this, conversation
      ensures var preferred := if chain == [] then None else Some(chain[0]);
              var active := Active(chain, old(cooldowns), old(modelCooldowns), started);
              end == Finish(
                Setting(active, preferred, hasSink, started, world),
                Start(old(conversation.messages), old(conversation.ran), old(cooldowns), old(modelCooldowns)))
      ensures outcome == end.outcome && screen == Thread(end.said)
      ensures conversation.messages == end.messages && conversation.ran == end.ran
      ensures cooldowns == end.cooled && modelCooldowns == end.cooledModels
      ensures Paired(old(conversation.messages)) ==> TurnLaws.HistoryKept(old(conversation.messages), end)
      ensures var preferred := if chain == [] then None else Some(chain[0]);
              var active := Active(chain, old(cooldowns), old(modelCooldowns), started);
              TurnTells.TurnTold(
                Setting(active, preferred, hasSink, started, world),
                Start(old(conversation.messages), old(conversation.ran), old(cooldowns), old(modelCooldowns)),
                end)
    {
      hide Pass, Finish, Streamed, Thread, ResultsFor, RanOf, Warm, AfterAnswer, Heard, Active, Left, MadeAfter, Pushed;
      hide AfterFailure, Heeded, MaySend, ToolRound, GiveUp;
      var active := ActiveChain(chain, started);
      var preferred := if chain == [] then None else Some(chain[0]);
      var w := Setting(active, preferred, hasSink, started, world);
      var relay := new DeltaRelay(hasSink);
      var t := Locals(0, None, 0, 0, 0, 0, false, false, None);
      ghost var log: seq<Attempt> := [];
      ghost var s := View(t, conversation, relay, log);
      ghost var whole := Finish(w, s);
      hide TurnLaws.HistoryKept, TurnLaws.WalkKept, TurnLaws.ScreenKept, TurnLaws.Explained, Paired, CloseOverBudget;
      hide TurnTells.TurnTold;
      TurnTells.TurnTellsAll(w, conversation.messages, conversation.ran, cooldowns, modelCooldowns);
      TurnLaws.TurnPromises(w, conversation.messages, conversation.ran, cooldowns, modelCooldowns);
      var budgetSpent := false;
      while t.round < MAX_TOOL_ROUNDS && !budgetSpent
        invariant relay.Valid() && relay.hasSink == hasSink && fresh(relay)
        invariant t.sends == |log| && t.round <= MAX_TOOL_ROUNDS
        invariant s == View(t, conversation, relay, log)
        invariant whole == if budgetSpent then CloseOverBudget(w, s) else Finish(w, s)
        decreases MAX_TOOL_ROUNDS - t.round
      {
        var result;
        t, result, log := WalkChain(conversation, relay, w, t, log);
        match result {
          case GaveUp(sentence) =>
            return Raised(sentence), relay.screen, whole;
          case Got(cand, text, calls, capped) =>
            s := AfterAnswer(w, View(t, conversation, relay, log), cand, text, calls, capped);
            FinishEnded(w, s);
            t, budgetSpent := TakeAnswer(conversation, relay, w, t, cand, text, calls, capped, log);
            if calls == [] {
              return Done(cand, capped), relay.screen, whole;
            }
            s := View(t, conversation, relay, log);
        }
      }
      FinishStep(w, s);
      PassStops(w, s);
      FinishOverBudget(conversation, relay);
      return OverBudget, relay.screen, whole;
    }
  }
}
