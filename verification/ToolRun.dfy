/**
 One response's tool calls. Every request is answered, whatever happens to it: refused at
 one of the doors, declined by the person, failed, run, or left unrun because the turn has
 spent its calls.
 */
module ToolRun {
  import opened Wrappers
  import opened Messages

  const MAX_TOOL_CALLS := 40

  const STEP_NOT_RUN :=
    "This step was not run: the turn reached its limit on how many steps it may take."
  const UNKNOWN_TOOL_REFUSAL :=
    "That tool isn't available any more, so Addison didn't run it."
  const OUTSIDE_TRUST :=
    "That file is outside the folders you've trusted, so Addison left it alone. " +
    "Trust its folder first if you want Addison to work with it."
  const DECLINED :=
    "User declined this step. Do not ask again this turn. Finish the request without it — " +
    "if you already found the information, give it directly in your reply."
  const STEP_FAILED := "That step didn't work, so it was skipped."
  const NO_PICTURES :=
    "This file is a picture, and the model you're using can't look at pictures. " +
    "Switch to a vision-capable model and try again."

  /** What running the tool did: its text, the shell's own refusal, or anything else it raised. */
  datatype Execution = Finished(content: string, picture: bool) | BridgeRefused(sentence: string) | Broke

  /** Everything the registry, the denylist, the workspace and the gate would answer about one call. */
  datatype Facts = Facts(
    known: bool,
    notFromPhone: Option<string>,
    devOnly: Option<string>,
    notCallable: Option<string>,
    forbidden: Option<string>,
    armingRefused: Option<string>,
    affected: Option<string>,
    rootTrusted: bool,
    granted: bool,
    execution: Execution)

  predicate Trusted(f: Facts) {
    f.affected.Some? && f.affected.value != "" && f.rootTrusted
  }

  /** The sentence of the first door that refuses the call before anybody is asked. */
  function Refusal(f: Facts): Option<string> {
    if !f.known then Some(UNKNOWN_TOOL_REFUSAL)
    else if f.notFromPhone.Some? then f.notFromPhone
    else if f.devOnly.Some? then f.devOnly
    else if f.notCallable.Some? then f.notCallable
    else if f.forbidden.Some? then f.forbidden
    else if f.armingRefused.Some? then f.armingRefused
    else if f.affected.Some? && !Trusted(f) then Some(OUTSIDE_TRUST)
    else None
  }

  /** Every door stands open and the person, or the policy, said yes. */
  predicate Runs(f: Facts) {
    && f.known && f.notFromPhone.None? && f.devOnly.None? && f.notCallable.None?
    && f.forbidden.None? && f.armingRefused.None?
    && (f.affected.None? || Trusted(f))
    && f.granted
  }

  function ExecutionText(e: Execution, vision: bool): string {
    match e
    case Finished(content, picture) => if picture && !vision then NO_PICTURES else content
    case BridgeRefused(sentence) => sentence
    case Broke => STEP_FAILED
  }

  function Answer(f: Facts, vision: bool): string {
    if Refusal(f).Some? then Refusal(f).value
    else if Runs(f) then ExecutionText(f.execution, vision)
    else DECLINED
  }

  /** The answer the k-th call of a response gets, when `made` calls were dispatched before the response. */
  function ResultAt(calls: seq<ToolCall>, k: nat, made: nat, facts: nat -> Facts, vision: bool): Message
    requires k < |calls|
  {
    ResultOf(calls[k].id, if made + k < MAX_TOOL_CALLS then Answer(facts(made + k), vision) else STEP_NOT_RUN)
  }

  function ResultsFor(calls: seq<ToolCall>, made: nat, facts: nat -> Facts, vision: bool): seq<Message> {
    seq(|calls|, k requires 0 <= k < |calls| => ResultAt(calls, k, made, facts, vision))
  }

  /** The ids of the calls whose tool actually ran. */
  function RanOf(calls: seq<ToolCall>, made: nat, facts: nat -> Facts): seq<string> {
    if calls == [] then []
    else
      var k := |calls| - 1;
      RanOf(calls[..k], made, facts) +
      if made + k < MAX_TOOL_CALLS && Runs(facts(made + k)) then [calls[k].id] else []
  }

  function MadeAfter(calls: seq<ToolCall>, made: nat): nat {
    if made >= MAX_TOOL_CALLS then made
    else if made + |calls| <= MAX_TOOL_CALLS then made + |calls|
    else MAX_TOOL_CALLS
  }

  lemma RanOfNone(made: nat, facts: nat -> Facts)
    ensures RanOf([], made, facts) == []
  {
  }

  lemma RanStep(calls: seq<ToolCall>, i: nat, made: nat, facts: nat -> Facts)
    requires i < |calls|
    ensures RanOf(calls[..i + 1], made, facts) ==
            RanOf(calls[..i], made, facts) +
            if made + i < MAX_TOOL_CALLS && Runs(facts(made + i)) then [calls[i].id] else []
  {
    assert calls[..i + 1][..i] == calls[..i];
  }

  /** A request with its results keeps a paired history paired. */
  lemma RoundKeepsPairing(h: seq<Message>, text: string, calls: seq<ToolCall>, made: nat, facts: nat -> Facts,
                          vision: bool)
    requires Paired(h)
    ensures Paired(h + ([Request(text, calls)] + ResultsFor(calls, made, facts, vision)))
  {
    var results := ResultsFor(calls, made, facts, vision);
    var block := [Request(text, calls)] + results;
    assert block[0] == Request(text, calls);
    assert block[1..] == results && block[1 + |calls|..] == [];
    assert Paired(block);
    PairedAppend(h, block);
  }

  /** No more tools run than calls are dispatched, and no more are dispatched than the ceiling. */
  lemma {:induction false} RunsAreBounded(calls: seq<ToolCall>, made: nat, facts: nat -> Facts)
    requires made <= MAX_TOOL_CALLS
    ensures MadeAfter(calls, made) <= MAX_TOOL_CALLS
    ensures made + |RanOf(calls, made, facts)| <= MadeAfter(calls, made)
  {
    if calls != [] {
      RunsAreBounded(calls[..|calls| - 1], made, facts);
    }
  }

  // ----- what the doors, the gate and the tool come to ------------------------------------------

  /** The doors a call passes before anybody is asked, in order: None where one stands open, and else what it says. */
  function Doors(f: Facts): seq<Option<string>> {
    [if f.known then None else Some(UNKNOWN_TOOL_REFUSAL),
     f.notFromPhone, f.devOnly, f.notCallable, f.forbidden, f.armingRefused,
     if f.affected.None? || (f.affected.value != "" && f.rootTrusted) then None else Some(OUTSIDE_TRUST)]
  }

  predicate AllOpen(f: Facts) {
    forall i :: 0 <= i < |Doors(f)| ==> Doors(f)[i].None?
  }

  predicate FirstClosed(f: Facts, i: nat) {
    i < |Doors(f)| && Doors(f)[i].Some? && forall j :: 0 <= j < i ==> Doors(f)[j].None?
  }

  /**
   What a dispatched call is answered: the first closed door's sentence; past the doors, that it
   was declined; and if it ran, what its own execution came to.
   */
  predicate Tells(f: Facts, vision: bool, content: string) {
    && (forall i :: 0 <= i < |Doors(f)| && FirstClosed(f, i) ==> Doors(f)[i] == Some(content))
    && (AllOpen(f) && !f.granted ==> content == DECLINED)
    && (AllOpen(f) && f.granted ==>
          match f.execution
          case Finished(text, picture) => content == if picture && !vision then NO_PICTURES else text
          case BridgeRefused(sentence) => content == sentence
          case Broke => content == STEP_FAILED)
  }

  /** The ids of the calls that may run: within the ceiling, past every door, and granted. */
  function Permitted(calls: seq<ToolCall>, made: nat, facts: nat -> Facts): seq<string> {
    if calls == [] then []
    else
      var k := |calls| - 1;
      Permitted(calls[..k], made, facts) +
      if made + k < MAX_TOOL_CALLS && AllOpen(facts(made + k)) && facts(made + k).granted then [calls[k].id] else []
  }

  /** One round's results, each for its own call: told what became of it, or that it was not run. */
  predicate RoundTells(results: seq<Message>, calls: seq<ToolCall>, made: nat, facts: nat -> Facts, vision: bool) {
    && |results| == |calls|
    && forall k :: 0 <= k < |calls| ==>
         && results[k] == ResultOf(calls[k].id, results[k].content)
         && if made + k < MAX_TOOL_CALLS then Tells(facts(made + k), vision, results[k].content)
            else results[k].content == STEP_NOT_RUN
  }

  lemma DoorByDoor(f: Facts)
    ensures |Doors(f)| == 7 && (Doors(f)[0].None? <==> f.known)
    ensures Doors(f)[1] == f.notFromPhone && Doors(f)[2] == f.devOnly && Doors(f)[3] == f.notCallable
    ensures Doors(f)[4] == f.forbidden && Doors(f)[5] == f.armingRefused
    ensures Doors(f)[6].None? <==> f.affected.None? || (f.affected.value != "" && f.rootTrusted)
    ensures AllOpen(f) <==>
              && f.known && f.notFromPhone.None? && f.devOnly.None? && f.notCallable.None?
              && f.forbidden.None? && f.armingRefused.None?
              && (f.affected.None? || (f.affected.value != "" && f.rootTrusted))
  {
    hide MAX_TOOL_CALLS;
    if AllOpen(f) {
      assert Doors(f)[0].None? && Doors(f)[1].None? && Doors(f)[2].None? && Doors(f)[3].None?;
      assert Doors(f)[4].None? && Doors(f)[5].None? && Doors(f)[6].None?;
    }
  }

  lemma AnswerTells(f: Facts, vision: bool)
    ensures Tells(f, vision, Answer(f, vision))
    ensures Runs(f) <==> AllOpen(f) && f.granted
  {
    DoorByDoor(f);
    hide AllOpen;
  }

  lemma {:induction false} RanIsPermitted(calls: seq<ToolCall>, made: nat, facts: nat -> Facts)
    ensures RanOf(calls, made, facts) == Permitted(calls, made, facts)
  {
    hide AllOpen, Runs;
    if calls != [] {
      var k := |calls| - 1;
      RanIsPermitted(calls[..k], made, facts);
      AnswerTells(facts(made + k), false);
    }
  }

  lemma ResultsTell(calls: seq<ToolCall>, made: nat, facts: nat -> Facts, vision: bool)
    ensures RoundTells(ResultsFor(calls, made, facts, vision), calls, made, facts, vision)
  {
    hide Tells, Answer;
    var results := ResultsFor(calls, made, facts, vision);
    forall k | 0 <= k < |calls|
      ensures results[k] == ResultOf(calls[k].id, results[k].content)
      ensures if made + k < MAX_TOOL_CALLS then Tells(facts(made + k), vision, results[k].content)
              else results[k].content == STEP_NOT_RUN
    {
      assert results[k] == ResultAt(calls, k, made, facts, vision);
      AnswerTells(facts(made + k), vision);
    }
  }

  /** Whatever ran was granted, behind open doors, and within the ceiling; and whatever was so, ran. */
  lemma {:induction false} PermittedAre(calls: seq<ToolCall>, made: nat, facts: nat -> Facts, id: string)
    ensures id in Permitted(calls, made, facts) <==>
              exists k :: 0 <= k < |calls| && calls[k].id == id && made + k < MAX_TOOL_CALLS
                          && AllOpen(facts(made + k)) && facts(made + k).granted
  {
    hide AllOpen;
    if calls != [] {
      var n := |calls| - 1;
      var front := calls[..n];
      PermittedAre(front, made, facts, id);
      assert forall k :: 0 <= k < n ==> front[k] == calls[k];
    }
  }

  lemma {:induction false} PermittedJoins(a: seq<ToolCall>, b: seq<ToolCall>, made: nat, facts: nat -> Facts)
    ensures Permitted(a + b, made, facts) == Permitted(a, made, facts) + Permitted(b, made + |a|, facts)
  {
    hide AllOpen;
    if b == [] {
      assert a + b == a;
    } else {
      var n := |b| - 1;
      PermittedJoins(a, b[..n], made, facts);
      assert (a + b)[..|a + b| - 1] == a + b[..n];
    }
  }

  class Conversation {
    var messages: seq<Message>
    var ran: seq<string>      // ids of the steps that actually ran

    constructor (messages: seq<Message>)
      ensures this.messages == messages && ran == []
    {
      this.messages, ran := messages, [];
    }

    method AppendToolResult(id: string, content: string)
      modifies this`messages
      ensures messages == old(messages) + [ResultOf(id, content)]
    {
      messages := messages + [ResultOf(id, content)];
    }

    method AppendAssistantMessage(text: string)
      modifies this`messages
      ensures messages == old(messages) + [Say(Assistant, text)]
    {
      messages := messages + [Say(Assistant, text)];
    }

    method AppendAssistantToolCalls(text: string, calls: seq<ToolCall>)
      modifies this`messages
      ensures messages == old(messages) + [Request(text, calls)]
    {
      messages := messages + [Request(text, calls)];
    }
  }

  /** One dispatched call: the doors in their order, then the gate, then the tool. */
  method Dispatch(conversation: Conversation, call: ToolCall, f: Facts, vision: bool)
    modifies conversation
    ensures conversation.messages == old(conversation.messages) + [ResultOf(call.id, Answer(f, vision))]
    ensures conversation.ran == old(conversation.ran) + if Runs(f) then [call.id] else []
    ensures |conversation.messages| > 0
    ensures Tells(f, vision, conversation.messages[|conversation.messages| - 1].content)
    ensures conversation.ran == old(conversation.ran) + if AllOpen(f) && f.granted then [call.id] else []
  {
    AnswerTells(f, vision);
    hide Tells, AllOpen;
    var content: string;
    if !f.known {
      content := UNKNOWN_TOOL_REFUSAL;
    } else if f.notFromPhone.Some? {
      content := f.notFromPhone.value;
    } else if f.devOnly.Some? {
      content := f.devOnly.value;
    } else if f.notCallable.Some? {
      content := f.notCallable.value;
    } else if f.forbidden.Some? {
      content := f.forbidden.value;
    } else if f.armingRefused.Some? {
      content := f.armingRefused.value;
    } else {
      var trusted := f.affected.Some? && f.affected.value != "" && f.rootTrusted;
      if f.affected.Some? && !trusted {
        content := OUTSIDE_TRUST;
      } else if !f.granted {
        content := DECLINED;
      } else {
        conversation.ran := conversation.ran + [call.id];
        match f.execution {
          case BridgeRefused(sentence) => content := sentence;
          case Broke => content := STEP_FAILED;
          case Finished(text, picture) => content := if picture && !vision then NO_PICTURES else text;
        }
      }
    }
    conversation.AppendToolResult(call.id, content);
  }

  method RunToolCalls(conversation: Conversation, text: string, calls: seq<ToolCall>,
                      facts: nat -> Facts, vision: bool, callsMade: nat)
    returns (made: nat, budgetSpent: bool)
    modifies conversation
    ensures conversation.messages ==
            old(conversation.messages) + ([Request(text, calls)] + ResultsFor(calls, callsMade, facts, vision))
    ensures conversation.ran == old(conversation.ran) + RanOf(calls, callsMade, facts)
    ensures made == MadeAfter(calls, callsMade)
    ensures budgetSpent <==> |calls| > 0 && callsMade + |calls| > MAX_TOOL_CALLS
    ensures exists results :: RoundTells(results, calls, callsMade, facts, vision)
              && conversation.messages == old(conversation.messages) + [Request(text, calls)] + results
    ensures conversation.ran == old(conversation.ran) + Permitted(calls, callsMade, facts)
  {
    hide RanOf, Answer, Runs, RoundTells, Permitted, Tells, AllOpen;
    RanIsPermitted(calls, callsMade, facts);
    ResultsTell(calls, callsMade, facts, vision);
    made, budgetSpent := callsMade, false;
    assert RanOf(calls[..0], callsMade, facts) == [] by {
      RanOfNone(callsMade, facts);
    }
    conversation.AppendAssistantToolCalls(text, calls);
    ghost var results := ResultsFor(calls, callsMade, facts, vision);
    ghost var asked := conversation.messages;
    for i := 0 to |calls|
      invariant made == MadeAfter(calls[..i], callsMade)
      invariant made < MAX_TOOL_CALLS ==> made == callsMade + i
      invariant made >= MAX_TOOL_CALLS ==> callsMade + i >= MAX_TOOL_CALLS
      invariant budgetSpent <==> i > 0 && callsMade + i > MAX_TOOL_CALLS
      invariant conversation.messages == asked + results[..i]
      invariant conversation.ran == old(conversation.ran) + RanOf(calls[..i], callsMade, facts)
    {
      RanStep(calls, i, callsMade, facts);
      ghost var result := ResultAt(calls, i, callsMade, facts, vision);
      assert asked + results[..i + 1] == asked + results[..i] + [result] by {
        assert results[..i + 1] == results[..i] + [results[i]];
      }
      if made >= MAX_TOOL_CALLS {
        budgetSpent := true;
        assert result == ResultOf(calls[i].id, STEP_NOT_RUN);
        conversation.AppendToolResult(calls[i].id, STEP_NOT_RUN);
        continue;
      }
      assert result == ResultOf(calls[i].id, Answer(facts(made), vision));
      Dispatch(conversation, calls[i], facts(made), vision);
      made := made + 1;
    }
    assert calls[..|calls|] == calls && results[..|calls|] == results;
    assert asked + results == old(conversation.messages) + ([Request(text, calls)] + results);
  }
}
