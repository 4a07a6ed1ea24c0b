# A verified model of Addison's agent core

Addison is a desktop assistant: a Rust shell holds the operating system's permissions and a
Python agent core decides what to do. This project models the parts of the core where order
and state are what can go wrong, and proves what they promise for every input, every run and
every interleaving. `dafny verify dfyconfig.toml` checks all of it.

Three layers carry each part. A pure specification says what one step does. Classes and
methods, written in the source's own imperative form, are proved to do exactly that. Lemmas
about the specification then say what it means over whole runs, and tie it back to what the
world answered: the replies, the doors and the gate, the parsed parts of an address, the text that
came in.

- **Turns and history** (`Messages`, `Relay`, `ToolRun`, `Turn`, `TurnLaws`, `TurnTells`,
  `Orchestrator`, `ContextCut`, `Reopening`, `Session`). One routed turn with fallback, cooldowns and
  tool rounds over a conversation appended to in place; the cut that condenses a long chat; a whole session of
  messages, failures, condensings, rewinds and reopenings. Providers, tools, the permission
  gate and the clock are arbitrary functions. The result that spans them: no turn, failure,
  cut, continuation or reopening ever parts a tool request from its results. And a turn's screen,
  history, tools and cooldowns are told from what its world answered, send by send and call by call
  (`TurnTells.TurnTellsAll`).
- **Permission and Stop** (`Nonce`, `Handshake`). Two threads, one lock, one waiter map, one
  flag, as lock-region steps in any interleaving. The card goes up after the lock is released,
  and an answer overwrites whatever waiter is still in the map.
- **The phone** (`PollLoop`, `Split`). A poll loop whose cursor is its acknowledgement, against
  a transport that numbers updates upwards, answers with the first of those it still holds, and
  forgets every update below the offset it is asked with; any number of loops,
  outages, stops, crashes and restarts. Splitting one answer into parts.
- **Cold start** (`ColdStart`). Rebuilding a damaged database by file renames, any of which may
  fail, with the program perhaps ending after any of them, attempt after attempt.
- **The shell** (`Decimals`, `ShellBridge`). Numbered requests from any number of threads and one
  reader of answers.
- **Tool servers** (`McpText`, `McpListing`, `McpCatalog`). The two-pass cleaner of a tool's
  answer, the explicit-stack depth check, the paginated listing, and a registry that must agree
  with a per-server index even when registering fails halfway.
- **Redirects** (`Redirects`). The hop loop with its credential, its vetted addresses and its
  budget.
- **Models and schedules** (`Models`, `Schedules`). The picker's list without aliases, refused
  models sunk, several lists merged; one schedule told as a sentence and as a launchd trigger.

## Where the code does less than it says

Each of these is proved: a case in which the promise fails, or the condition under which it
holds, or both.

- A rewind aimed at a tool result leaves a request without its results
  (`Session.RewindCanPart`). One rewind keeps the pairing exactly when it is not aimed at one
  (`Session.RewindIsSafeIff`), and a session is paired all through exactly when none of its
  rewinds is (`Session.AlwaysPairedIff`).
- Reopening a chat says it attributes no call to a message of a different turn. It can put one on
  a later turn's answer (`Reopening.CallsCanGoForward`) or an earlier one's
  (`Reopening.CallsCanGoBack`). It keeps every call in its own turn exactly when each row that
  asked for tools has prose of that turn at or after it, or, with no prose at all after it,
  before it (`Reopening.ReopeningKeepsTurnsIff`).
- A Stop resolves the standing card as a refusal, but an answer that arrives after it and
  before the worker wakes still grants (`Handshake.StopCanBeOverwritten`,
  `Handshake.StopDeniesUnlessAnswered`).
- A wrong code is not always a wrong answer: the comparison raises exactly when some character
  typed is no separator and does not upper-case into ASCII (`Nonce.MatchesIffSpelled`). An
  accented letter raises, a sharp s is refused, and a ligature of two letters of the code matches
  (`Nonce.AccentRaises`, `Nonce.SharpIsRefused`, `Nonce.LigatureMatches`).
- A recovery whose rebuild lands and does not open, tried again within the second, moves that
  rebuild onto the person's own database (`ColdStart.OneSecondLosesAFile`,
  `ColdStart.OneSecondInALife`). An attempt keeps every aside file, whichever operations fail,
  exactly when no live part it gets as far as moving would land on a different file
  (`ColdStart.AsideIsKeptIff`).
- `split_message` says every part but the last carries the marker. A text ending in more newlines
  than the marker is long can end on a marked part, and one ending in no more never does: the
  marker's length is the exact threshold (`Split.UnmarkedUpToTheMarker`,
  `Split.TrailingNewlinesEndMarked`, `Split.LastPartEndsTheText`).
- `split_message` promises a paragraph break, then a line break, then a hard cut. When the last
  paragraph break has only blanks before it, and exactly then, it passes over a usable line break
  (`Split.LineIsSkippedIff`, `Split.LineCanBeSkipped`).
- The check that a redirect does not leave https reads the address with the blanks around it,
  the verdict on it without. A request goes to http exactly when its address is an http one with
  blanks around it (`Redirects.SecureStaysSecure`, `Redirects.PaddingGoesPlain`, `Redirects.PaddingHappens`); no `Location`
  whose joined address comes back stripped does that.

## Model

| member | source | states |
|---|---|---|
| Messages.PairedAppend | agent_core/orchestrator.py:210-224 | two histories in which every request is followed at once by its results stay so when joined |
| Messages.PrefixIff | agent_core/orchestrator.py:213-224 | a prefix of a paired history is paired exactly when it does not stop inside a round |
| Messages.SuffixPaired | agent_core/orchestrator.py:213-224 | a paired history is paired from any message but a result on |
| Messages.NothingOwedBefore | agent_core/orchestrator.py:213-224 | what stands before a non-result in a paired history owes no results |
| Messages.PairedIff | agent_core/orchestrator.py:210-224 | paired means: every request is followed at once by its results, call by call, and every result answers a request |
| Relay.SegmentBreak | agent_core/orchestrator.py:270-292 | a later utterance is preceded by at least two newlines, and no fewer added ones would have done |
| Relay.ThreadGrows | agent_core/orchestrator.py:270-293 | nothing shown is ever taken back |
| Relay.HeardExtendsThread | agent_core/orchestrator.py:281-293 | where a chunk lands: after a break if it opens a later utterance, as it is otherwise |
| Relay.TrailingAppend | agent_core/orchestrator.py:288-292 | the newline count after a chunk: its own tail, or the old run extended when the chunk is only newlines |
| Relay.DeltaRelay.Push | agent_core/orchestrator.py:270-293 | keeps the newline counter equal to the trailing newlines of all text shown, and both flags true to what was shown; with no sink nothing is shown |
| Relay.DeltaRelay.BeginSend | agent_core/orchestrator.py:267-268 | opens a new utterance and shows nothing |
| Relay.OnlyNewlinesAreAdded | agent_core/orchestrator.py:254-293 | the screen is the model's text, every character in its place, with newlines alone put in, at most two a send |
| ToolRun.Dispatch | agent_core/orchestrator.py:901-1215 | every branch appends exactly one result with the call's id, told by the first closed door, the gate or the execution; the tool runs exactly when every door is open and the gate grants |
| ToolRun.RunToolCalls | agent_core/orchestrator.py:850-1215 | one request followed by one result per call, in order, each told what became of it; what ran is what the doors and the gate permitted; the budget is spent exactly when the ceiling was passed |
| ToolRun.RoundKeepsPairing | agent_core/orchestrator.py:850-1215 | a round of tool calls keeps a paired history paired |
| ToolRun.RunsAreBounded | agent_core/orchestrator.py:859-869 | no more tools run than calls are dispatched, and never more than forty |
| ToolRun.AnswerTells | agent_core/orchestrator.py:901-1215 | a dispatched call is answered by the first closed door, told it was declined, or told what its own execution came to |
| ToolRun.ResultsTell | agent_core/orchestrator.py:850-1215 | each result of a round belongs to its own call and tells what became of it, or that it was not run |
| ToolRun.PermittedAre | agent_core/orchestrator.py:901-1090 | an id is among those run exactly when a dispatched call of that id is past every door and granted |
| ToolRun.RanIsPermitted | agent_core/orchestrator.py:901-1090 | what runs in a round is what the doors and the gate permit, in order |
| Turn.PassProgresses | agent_core/orchestrator.py:606-628 | every pass uses up a round or a candidate, so every turn ends |
| TurnLaws.PassKeepsHistory | agent_core/orchestrator.py:606-772 | one pass adds whole rounds or a closing message and keeps the pairing |
| TurnLaws.FinishKeepsHistory | agent_core/orchestrator.py:570-789 | over a whole turn: history only grows, by whole rounds and one closing message unless it raises, and every send was handed a paired history |
| TurnLaws.FinishKeepsWalk | agent_core/orchestrator.py:606-768 | sends go down the chain, a failed candidate is never retried, one provider after the first answer; at most 25 plus chain-length sends and 40 dispatched calls |
| TurnLaws.FinishKeepsScreen | agent_core/orchestrator.py:570-768 | once a send has put text on screen every later send goes to the same candidate |
| TurnLaws.FinishExplains | agent_core/orchestrator.py:585-768 | a turn fails with the last provider's own sentence and only for want of time, candidates or a walkable failure; a substitution is noted unless a rejected key explains it |
| TurnLaws.TurnPromises | agent_core/orchestrator.py:570-789 | all of the above for any turn; of the history, for any turn begun on a paired one |
| TurnLaws.OneVoice | agent_core/orchestrator.py:670-699 | all model text shown in a turn comes from one candidate |
| TurnLaws.UnwatchedWalkIsFree | agent_core/orchestrator.py:276-279 | with no sink nothing is shown and only time, candidates or an incurable failure end the walk |
| TurnTells.FinishKeepsTold | agent_core/orchestrator.py:570-789 | each send's text is on screen as it streamed, only an answer nothing was streamed of is said whole, and only the last send does not lead on |
| TurnTells.FinishKeepsHistoryTold | agent_core/orchestrator.py:738-848 | the history holds each answer's own text and requests and each request's own result, and what ran is what was permitted |
| TurnTells.FinishKeepsWalkTold | agent_core/orchestrator.py:606-726 | no candidate is passed over but one that failed or one whose provider an earlier answer bars |
| TurnTells.FinishKeepsCooling | agent_core/orchestrator.py:644-724 | a provider, or a model that is gone, stands down a minute from the last failure that was its own, and nobody else does |
| TurnTells.TurnTellsAll | agent_core/orchestrator.py:570-789 | all of these for any turn; a turn that is done ends on its last send's text, candidate and flag; nobody is tried after two minutes, and a turn raises only then, or with nobody left, or on a failure it could not walk past |
| TurnTells.WhatRanWasGranted | agent_core/orchestrator.py:901-1090 | a tool ran in a turn exactly when an answer of the turn asked for it within the ceiling, every door was open and the gate granted |
| TurnTells.WarmAre | agent_core/orchestrator.py:577-580 | tried are the candidates of the chain not standing down, or all of them if that is nobody |
| TurnTells.WarmKeepsOrder | agent_core/orchestrator.py:577-580 | and in the order of the chain |
| TurnTells.SkippedNextTurn | agent_core/orchestrator.py:577-580 | a turn within the minute after a failure tries nobody it stood down, while anybody else is left |
| Orchestrator.Orchestrator.ActiveChain | agent_core/orchestrator.py:577-580 | the candidates not cooling down, or all of them when that is none |
| Orchestrator.Orchestrator.HandleFailure | agent_core/orchestrator.py:644-724 | a failed send: key rejection noted, the provider or the model stood down, the walk moved on or ended |
| Orchestrator.Orchestrator.WalkChain | agent_core/orchestrator.py:615-726 | the inner loop computes the turn up to the next answer or its failure |
| Orchestrator.Orchestrator.TakeAnswer | agent_core/orchestrator.py:738-766 | an answer becomes a tool round, or the closing message, said whole when nothing was streamed of it |
| Orchestrator.Orchestrator.FinishOverBudget | agent_core/orchestrator.py:839-848 | the closing message, appended and shown as an utterance of its own |
| Orchestrator.Orchestrator.RunWithFallback | agent_core/orchestrator.py:570-789 | the two loops over the live conversation, relay and cooldown tables end in exactly the state of the specified turn, which keeps the history's promises and tells, screen, history, tools and tables, what the world answered |
| ContextCut.StartsAreTheUsers | agent_core/context_budget.py:179-182 | the turn starts are exactly the positions of the user messages, ascending |
| ContextCut.CutIsLatestLegal | agent_core/context_budget.py:204-245 | the cut chosen is the latest legal one that keeps at least the requested turns; none is chosen exactly when there is none |
| ContextCut.SearchFindsLatest | agent_core/context_budget.py:230-245 | the backward walk stops at the latest legal start |
| ContextCut.LegalCutKeepsPairing | agent_core/context_budget.py:185-201 | both halves of a paired history at a legal cut are paired |
| ContextCut.LiveStartsAreLegal | agent_core/context_budget.py:185-201 | with nothing reopened, every later turn start is a legal cut |
| ContextCut.LiveCutIsExact | agent_core/context_budget.py:204-245 | so the first candidate is taken and exactly the requested turns are kept |
| ContextCut.SeedKeepsPairing | agent_core/context_continuation.py:149-173 | the continuation is paired, holds one turn more than was kept, and ends with the kept messages word for word |
| ContextCut.SeedTells | agent_core/context_continuation.py:149-173 | the continuation opens with the summary under its heading, each fact that says something on a line under theirs, and the closing words |
| ContextCut.FactIsTold | agent_core/context_continuation.py:166-169 | every such fact is told, whole |
| Session.AskExtends | agent_core/rpc/conversation.py:270-345 | a turn leaves the question alone if it failed, and otherwise the question, whole rounds and one closing message |
| Session.StepKeepsPairing | agent_core/rpc/conversation.py:270-640 | every event of a session keeps a paired history paired, a rewind when it is not aimed at a tool result |
| Session.RewindIsSafeIff | agent_core/rpc/undo.py:133-156 | a rewind keeps the pairing exactly when it is not aimed at a tool result |
| Session.SessionStaysPaired | agent_core/rpc/conversation.py:270-640 | at the end of any sequence of turns, failures, condensings, reopenings and rewinds, none aimed at a tool result, the live history is paired |
| Session.AlwaysPairedIff | agent_core/rpc/conversation.py:270-640 | the history is paired all through a session exactly when no rewind in it is aimed at a tool result |
| Session.SessionStaysLive | agent_core/rpc/conversation.py:270-500 | until a chat is reopened nothing in the history comes from an earlier session, however it is rewound |
| Session.CondensingIsExact | agent_core/rpc/conversation.py:388-500 | condensing a session so far without reopenings or a rewind aimed at a tool result keeps exactly the last four turns word for word, both halves paired |
| Session.RewindCanPart | agent_core/rpc/undo.py:133-156 | a question answered with a tool and a rewind aimed at the tool's result leave a history with the request alone |
| Session.AskTells | agent_core/rpc/conversation.py:270-345 | a turn that raised leaves the question alone; one that is done ends the history in its last answer's text, one over its budget in the sentence that it took too many steps |
| Session.RewindUndoesATurn | agent_core/rpc/undo.py:133-156 | rewinding to where a turn began takes back the turn and its question and nothing else |
| Session.CondenseIs | agent_core/rpc/conversation.py:388-500 | with no summary or nowhere to cut the history is left as it was; otherwise it is the opening message and the history from its latest legal cut on, word for word |
| Session.AskAdds | agent_core/rpc/conversation.py:270-345 | what there was and the question stay; a turn that raised adds nothing, any other all its messages, and the prompt is gone again |
| Reopening.ReopeningKeepsTheRecord | agent_core/rpc/conversation.py:589-622 | reopening keeps every call ever asked for, in order, as long as any prose is there to carry it, and none otherwise |
| Reopening.ReloadJoins | agent_core/rpc/conversation.py:586-611 | what a stretch of transcript leaves over rides on the first prose of the next |
| Reopening.LeftOverIff | agent_core/rpc/conversation.py:586-611 | a stretch leaves calls over exactly when some row's calls have no prose at or after them |
| Reopening.TurnsReloadApartIff | agent_core/rpc/conversation.py:586-611 | a later stretch is reloaded as on its own exactly when it has no prose or the earlier one leaves no call over |
| Reopening.CarriedUpToIff | agent_core/rpc/conversation.py:589-622 | whether the calls made before a turn's edge stay before it, told from the rows alone |
| Reopening.ReopeningKeepsTurnsIff | agent_core/rpc/conversation.py:584-622 | every call stays on a message of its own turn exactly when each row with calls has prose of its turn at or after it, or before it with none at all after |
| Reopening.CallsCanGoForward | agent_core/rpc/conversation.py:586-611 | a transcript whose call is put on the next turn's answer |
| Reopening.CallsCanGoBack | agent_core/rpc/conversation.py:612-622 | a transcript whose call is put on an earlier turn's answer |
| Reopening.ReopeningKeepsTheWords | agent_core/rpc/conversation.py:584-622 | a reopened chat says exactly what was said, in order, and asks for nothing |
| Nonce.FormatMeansRaw | agent_core/automation_nonce.py:78-101 | the displayed form normalises to the drawn code |
| Nonce.CodesAreDistinct | agent_core/automation_nonce.py:88-118 | no answer matches two codes |
| Nonce.NormalIsAsciiIff | agent_core/automation_nonce.py:88-101 | an answer normalises into ASCII exactly when each character is a separator or upper-cases into it |
| Nonce.MatchesIffSpelled | agent_core/automation_nonce.py:88-118 | an answer matches exactly when it spells the code; the comparison raises exactly when some character is no separator and does not upper-case into ASCII |
| Nonce.AccentRaises | agent_core/automation_nonce.py:101-118 | an accented letter makes the comparison raise |
| Nonce.SharpIsRefused | agent_core/automation_nonce.py:101-118 | a character outside ASCII that becomes two letters of it is refused like any wrong answer |
| Nonce.LigatureMatches | agent_core/automation_nonce.py:101-118 | a ligature of two letters matches a code they open |
| Nonce.CaseAndSeparatorsDoNotCount | agent_core/automation_nonce.py:72-101 | separators anywhere and small letters for capitals change nothing of what an answer spells, and any other ASCII character stands for itself |
| Nonce.SeparatorsAre | agent_core/automation_nonce.py:67-71 | the characters that may stand between the letters of a code |
| Handshake.PermissionDesk.Respond | agent_core/main.py:2209-2245 | overwrites the standing waiter and wakes it; an answer nobody waits for is refused with the reason |
| Handshake.PermissionDesk.Pop | agent_core/main.py:2156-2160 | takes the waiter out with the last thing written to it |
| Handshake.StepKeepsInv | agent_core/main.py:2124-2311 | each lock region keeps the invariant |
| Handshake.EveryRunKeepsInv | agent_core/main.py:1561-1572 | in every interleaving a waiter exists only while the worker stands at its card, and under the flag it is woken |
| Handshake.StopIsRaceFree | agent_core/main.py:1561-1572 | under the flag nobody is registered and whoever stands is woken; it falls only when nobody stands |
| Handshake.StoppedAskEnds | agent_core/main.py:2124-2160 | after a Stop the worker's next step is always enabled and nearer to the end, whatever others do |
| Handshake.WaiterHoldsLastWrite | agent_core/main.py:2209-2245 | the standing waiter holds the last write made to it |
| Handshake.PopReadsLastWrite | agent_core/main.py:2152-2207 | a request is granted exactly when the last write before the pop was a yes carrying its own code; a wrong code asks again or denies |
| Handshake.LastWriteSinceStop | agent_core/main.py:2299-2311 | what was written since a Stop, or else the Stop itself |
| Handshake.StopDeniesUnlessAnswered | agent_core/main.py:2299-2311 | the card a Stop found ends in a grant exactly when somebody still answers it rightly before the pop |
| Handshake.StopCanBeOverwritten | agent_core/main.py:2209-2245 | a run in which an answer after Stop still grants |
| Handshake.PermissionDesk.LowerFlag | agent_core/main.py:1571-1572 | a job dequeued lowers the flag and touches no waiter |
| Handshake.PermissionDesk.Register | agent_core/main.py:2136-2153 | under the lock: registered, behind the waiters already there, exactly when the flag is down |
| Handshake.PermissionDesk.Stop | agent_core/main.py:2299-2311 | raises the flag, resolves every standing card as a refusal and counts them |
| Handshake.PermissionDesk.Pending | agent_core/main.py:2247-2272 | names the newest waiting card |
| Handshake.NewestIsNewest | agent_core/main.py:2258-2271 | the card named is unanswered with none unanswered put in after it; none is named exactly when all are answered |
| Handshake.AskWithKeyword | agent_core/main.py:2162-2207 | granted exactly when the first answer that is not a wrong code is a yes with the right one, among at most three cards; against a drawn code granted exactly when the last answer is a yes with text that spells it |
| Handshake.RunsAskWithKeyword | agent_core/main.py:2124-2207 | in every run an arming request ends in the verdict the loop gives for what its cards were popped with, or a no where the flag kept one from standing |
| Handshake.LoopAndRunAgree | agent_core/main.py:2162-2207 | the loop given a run's answers comes to the run's verdict |
| Handshake.CompareIs | agent_core/main.py:2203-2207 | against a drawn code a yes matches exactly when its text spells the code and raises exactly when its text cannot be spelled in ASCII; a yes without text does neither |
| Handshake.VerdictIs | agent_core/main.py:2162-2207 | a request for a drawn code ends with the first answer that settles it, as that answer settles it |
| Handshake.LastWriteIs | agent_core/main.py:2209-2311 | the last write is what the last action to register, stop or answer that card wrote |
| Handshake.PopMeans | agent_core/main.py:2152-2207 | told from the actions: granted exactly when the last word on the card is a yes, with text that spells the code if one is asked; a yes without text is a wrong code |
| Handshake.StopMeans | agent_core/main.py:2299-2311 | after a Stop a drawn code is granted exactly when the last word since is a yes with text that spells it |
| Handshake.FlagIs | agent_core/main.py:1561-1572 | the flag is up exactly when somebody has stopped the turn since its job was dequeued |
| PollLoop.HighestIsHighest | agent_core/channels/telegram.py:164-186 | the cursor's id is the highest in the batch, and there is none exactly when no update has one |
| PollLoop.ReadBatch | agent_core/channels/telegram.py:158-187 | a batch becomes the messages a person typed, in order, with the rest counted and the cursor past all of it |
| PollLoop.ShapedIsFaithful | agent_core/channels/telegram.py:164-182 | every message is some update's and no person's message is dropped |
| PollLoop.ShapedAscends | agent_core/channels/telegram.py:164-186 | a batch in order becomes messages in order within its range of ids |
| PollLoop.ForgottenIsBelow | agent_core/channels/telegram.py:149-157 | asking past an update never makes the transport forget one at or above the cursor |
| PollLoop.ConfirmedIsSettled | agent_core/channel_service.py:583-590 | what the transport forgets was queued or was never a person's message |
| PollLoop.ReadingKeeps | agent_core/channel_service.py:607-631 | a batch read at or above the cursor is taken in hand without gap or repeat |
| PollLoop.HandingKeeps | agent_core/channel_service.py:629-630 | handing on the first message in hand keeps the loop in order |
| PollLoop.StepKeepsInv | agent_core/channel_service.py:595-632 | polls, outages, stops, crashes and restarts each keep the invariant |
| PollLoop.AtLeastOnce | agent_core/channel_service.py:579-632 | over every run: each confirmed update was queued or dropped for shape, nothing queued did not arrive, and one loop hands each update on once and in order |
| PollLoop.CanArriveTwice | agent_core/channel_service.py:583-590 | a crash between hand-off and the next ask delivers a message twice |
| PollLoop.Listen | agent_core/channel_service.py:595-632 | the loop makes a log the loop automaton accepts; whenever it asks, its cursor is past exactly the batches read and all their messages were handed on, in order, once; it reads the batches its passes find, and ends for a stop, a missing token, a refusal or its lifetime |
| PollLoop.LogsFit | agent_core/channel_service.py:595-632 | any log the automaton accepts asks only after handing on, and its cursor and hands are what was read |
| PollLoop.EveryLoopListens | agent_core/channel_service.py:579-632 | in every run each loop's own log is one the automaton accepts and names exactly what it put on the queue |
| PollLoop.TypedIs | agent_core/channels/telegram.py:164-182 | a message is read off an update exactly when it has text, a named chat and a named sender who is no bot, and carries just those |
| PollLoop.TypedMessagesArrive | agent_core/channel_service.py:579-632 | over every run: a message a person typed is on the queue before the transport may forget it, and everything on the queue is one |
| Split.SplitMessage | agent_core/channel_service.py:183-217 | a text that fits is one part; any other is cut into parts at the breaks there is room for, or where the room ends |
| Split.NothingIsLost | agent_core/channel_service.py:203-217 | the parts put back together are the text, with only whitespace gone and only at the cuts |
| Split.EveryPartFits | agent_core/channel_service.py:198-217 | with room for the marker every part fits the limit and every part before the last carries it |
| Split.Cut | agent_core/channel_service.py:205-210 | the cut is the last paragraph break, or if none the last line break, and the end of the room if neither is there or the one chosen has only blanks before it |
| Split.LineIsSkippedIff | agent_core/channel_service.py:205-210 | a usable line break is passed over for a hard cut exactly when the last paragraph break has only blanks before it |
| Split.LineCanBeSkipped | agent_core/channel_service.py:205-210 | a text cut hard past a usable line break |
| Split.LastPartEndsTheText | agent_core/channel_service.py:204-217 | a text that fits, or ends in no more newlines than the marker is long, ends on a part that is its own unmarked end |
| Split.TrailingNewlinesEndMarked | agent_core/channel_service.py:211-215 | a line that fills the room with any more newlines than the marker is long becomes one marked part |
| Split.UnmarkedUpToTheMarker | agent_core/channel_service.py:204-217 | every text ending in exactly n newlines ends unmarked exactly when n is at most the marker's length |
| Split.PartsAreCut | agent_core/channel_service.py:197-217 | each part before the last is what stands before its cut, blanks off, with the marker; the next begins after the cut, newlines off; each cut at the last paragraph break, else the last line break, else where the room ends |
| ColdStart.Recovery.MoveDamagedAside | agent_core/main.py:1990-1998 | the live files renamed aside one by one, the database first, until one fails |
| ColdStart.Recovery.SwapIn | agent_core/main.py:1964-1978 | the siblings first and the database last |
| ColdStart.Recovery.DiscardRebuild | agent_core/main.py:1980-1988 | what is left of the rebuild removed as far as it goes |
| ColdStart.Recovery.Recover | agent_core/main.py:1861-1910 | one attempt computes the specified course of disks and its report |
| ColdStart.AttemptIsSafe | agent_core/main.py:1880-1910 | at every step, whichever operations fail: aside files stay, live files are live or aside, no rebuilt database has an older sibling; success exactly when the rebuild is live, whole, alone and opens |
| ColdStart.SwapInIsGood | agent_core/main.py:1964-1978 | the swap keeps that, and leaves the rebuild live and whole or no live database at all |
| ColdStart.AsideStaysGood | agent_core/main.py:1990-1998 | moving aside keeps that, at whichever part it fails |
| ColdStart.EveryLifeIsSound | agent_core/main.py:1861-1998 | over attempts that fail or are cut short anywhere, with the database used and reopened between them |
| ColdStart.NothingAsideIsLost | agent_core/main.py:1990-1998 | a file once moved aside is never lost or changed, while attempts read later stamps |
| ColdStart.AsideAfter | agent_core/main.py:1861-1910 | after an attempt, whatever fails, an aside name holds the live part that reached it and is otherwise as it was |
| ColdStart.AsideIsKeptIff | agent_core/main.py:1994-1998 | whatever fails, an attempt keeps every aside file exactly when no part it gets as far as moving would land on a different one |
| ColdStart.AttemptLands | agent_core/main.py:1884-1910 | when no file operation fails the rebuild lands, and the report says whether it opens |
| ColdStart.OneSecondLosesAFile | agent_core/main.py:1861-1910 | a rebuild that lands and does not open, and a second attempt in the same second: the person's database, moved aside, is written over |
| ColdStart.OneSecondInALife | agent_core/main.py:1861-1910 | the same as two events of the program's life: an aside file on one disk of its history is changed on a later one |
| ColdStart.RebuildIsCleared | agent_core/main.py:1861-1988 | however an attempt goes, of what it rebuilt nothing is left aside from the live files unless a removal at its end failed, and clearing away touches nothing else |
| ColdStart.DiscardRemoves | agent_core/main.py:1980-1988 | clearing away takes only the rebuild's parts and leaves one only when a removal failed |
| ShellBridge.IdsAreDistinct | agent_core/shell_bridge.py:214-217 | no two numbers share a request id |
| ShellBridge.IpcShellBridge.NextId | agent_core/shell_bridge.py:214-217 | the counter's next value, as an id |
| ShellBridge.IpcShellBridge.Settle | agent_core/shell_bridge.py:241-250 | the record comes out whatever the wait returned, and says how the call ends |
| ShellBridge.IpcShellBridge.ResolveResponse | agent_core/shell_bridge.py:252-264 | an answer is written to the call parked under its id; any other changes nothing |
| ShellBridge.HearKeepsInv | agent_core/shell_bridge.py:252-264 | an answer reaches the one call parked under its id, or nobody |
| ShellBridge.EveryRunKeepsInv | agent_core/shell_bridge.py:214-264 | every interleaving of callers, timeouts and answers keeps the invariant |
| ShellBridge.AnswersFindTheirCall | agent_core/shell_bridge.py:214-264 | ids are distinct, the map holds exactly the calls still out, and a call returns only the last answer its own id was given |
| ShellBridge.LateAnswersAreNobodys | agent_core/shell_bridge.py:257-260 | a late or unknown answer changes nothing for anyone |
| ShellBridge.OutcomesAreFinal | agent_core/shell_bridge.py:238-250 | what a call came back with is changed by nothing that happens after it |
| ShellBridge.PopSays | agent_core/shell_bridge.py:238-250 | a call whose wait saw the event comes back with the last answer under its id, and any other has timed out |
| ShellBridge.LastAnswerIs | agent_core/shell_bridge.py:252-264 | the last answer under an id is the last one heard that found somebody parked under it |
| McpText.CleanResultText | agent_core/mcp_client.py:440-518 | the answer stripped of its escape sequences, its line ends made plain, and swept: the forward pass with its right-to-left table computes the declarative rule |
| McpText.SweepIsTheRule | agent_core/mcp_client.py:496-518 | one pass equals: drop the unseen unless it is a mark or joiner lacking a credential character as nearest visible neighbour on either side |
| McpText.BetweenIsBoth | agent_core/mcp_client.py:496-513 | the running character and the table entry are the nearest visible neighbours |
| McpText.NothingSplitsACredential | agent_core/mcp_client.py:470-492 | no unseen character is left between two credential characters |
| McpText.CleaningTwice | agent_core/mcp_client.py:440-518 | cleaning is idempotent |
| McpText.NothingSeenIsLost | agent_core/mcp_client.py:505-518 | every visible character survives, in order |
| McpText.OnlyPlainIsLeft | agent_core/mcp_client.py:508-518 | no control character is left but line ends and tabs |
| McpText.LongestEscape | agent_core/mcp_client.py:257-261 | what is removed at a position is the longest escape sequence starting there |
| McpText.TwoReplacesAreOne | agent_core/mcp_client.py:495 | the two replacements turn each return, alone or before a newline, into one newline |
| McpText.OneStripping | agent_core/mcp_client.py:494 | every text is, in exactly one way, kept characters with escape sequences among them, each the longest that starts there and none starting at a kept character; and that is what the cleaner works on |
| McpText.UntouchedIff | agent_core/mcp_client.py:440-518 | an answer is left as it came exactly when it has no control character but line ends and tabs and nothing unseen inside a credential: marks and joiners elsewhere stay |
| McpText.CredentialsAreMadeOf | agent_core/mcp_client.py:299-301 | the characters a credential is made of |
| McpListing.CleanName | agent_core/mcp_client.py:521-534 | a name is admitted exactly when its stripped form is a plausible identifier, and never repaired |
| McpListing.TooDeep | agent_core/mcp_client.py:614-633 | the explicit-stack walk answers exactly whether some chain of values is longer than the limit, and always ends |
| McpListing.AdmitIsFirstCome | agent_core/mcp_client.py:1158-1192 | admitted names are plausible, distinct, at most a hundred; whatever is left out was implausible, a repeat or past the ceiling |
| McpListing.AdmittedIsFirst | agent_core/mcp_client.py:1165-1172 | each admitted tool is the first offered under its name |
| McpListing.ListTools | agent_core/mcp_client.py:1148-1207 | at most ten requests, no cursor asked twice; admitted plus skipped is what was received, plus one exactly when an unseen cursor was left at a ceiling |
| McpListing.StripTrims | agent_core/mcp_client.py:529 | the stripped name is what stands between the spaces at either end |
| McpListing.OneTrim | agent_core/mcp_client.py:529 | and there is only one such piece |
| McpListing.HeightIs | agent_core/mcp_client.py:614-633 | the height of a document is the length of its longest chain of values, each held by the one before |
| McpListing.AdmittedAre | agent_core/mcp_client.py:1158-1192 | admitted are exactly the first offers, one to a name, with the name and the offer of the entry that made it, while there was room |
| McpCatalog.IdsAreDistinct | agent_core/mcp_catalog.py:182-189 | distinct server and tool pairs have distinct ids, whatever the server is called |
| McpCatalog.ToolRegistry.Register | agent_core/tools/registry.py:251-262 | a taken id raises and changes nothing |
| McpCatalog.ToolRegistry.Unregister | agent_core/tools/registry.py:294-317 | only what was registered as removable leaves |
| McpCatalog.Catalog.RecordSuccess | agent_core/mcp_catalog.py:432-493 | the drop, the loop and the unwind leave exactly the specified books |
| McpCatalog.Catalog.RegisterAll | agent_core/mcp_catalog.py:495-542 | the loop registers or refuses each tool until one registration raises |
| McpCatalog.Catalog.RecordFailure | agent_core/mcp_catalog.py:544-554 | a failed check leaves the server with no tools and its error |
| McpCatalog.Catalog.ForgetServer | agent_core/mcp_catalog.py:556-559 | forgetting takes the server's tools and its state |
| McpCatalog.DroppedIsOthers | agent_core/mcp_catalog.py:422-430 | dropping takes out exactly what came from the server |
| McpCatalog.UnwindIsExact | agent_core/mcp_catalog.py:468-482 | the unwind restores what was there before the round |
| McpCatalog.OrNothing | agent_core/mcp_catalog.py:466-482 | a refresh that raises leaves the registry as forgetting the server would |
| McpCatalog.JoinAnswersEach | agent_core/mcp_catalog.py:495-542 | every tool offered is registered exactly as offered or named as refused |
| McpCatalog.RefusedIsTaken | agent_core/mcp_catalog.py:510-515 | with distinct names a tool is refused exactly when its id is another's |
| McpCatalog.CallTouchesOneServer | agent_core/mcp_catalog.py:432-559 | a call changes no other server's tools, ids or page and no native tool |
| McpCatalog.RunsStayConsistent | agent_core/mcp_catalog.py:422-559 | after any calls the registry is the native tools, untouched, and each server's recorded ids, and each page says what is registered |
| McpCatalog.LastCallDecides | agent_core/mcp_catalog.py:432-559 | for one server only its last call counts, whatever an earlier one broke off |
| McpCatalog.RaisesIff | agent_core/mcp_catalog.py:495-542 | a round raises exactly when registering some tool whose id is still free does |
| McpCatalog.PageIs | agent_core/mcp_catalog.py:432-559 | a server's page says the offer as made and what was left out, or the error, or nothing when a registration raised or it was forgotten |
| Redirects.CleanMeans | agent_core/net_vetting.py:238-312 | a clean verdict names a web address with a host and no password, and no private address unless allowed |
| Redirects.OneHop | agent_core/net_vetting.py:365-427 | the address loop computes the specified hop |
| Redirects.OpenVetted | agent_core/net_vetting.py:495-549 | the hop loop computes the specified walk, which carries the credential and keeps its origin as the parsed addresses say, and ends for the one reason its trail gives |
| Redirects.HopAddsItsOwn | agent_core/net_vetting.py:384-427 | a hop's requests go to its own addresses in order, each after the first only when nothing connected |
| Redirects.WalkKeepsTrail | agent_core/net_vetting.py:500-549 | every hop keeps the trail's rules |
| Redirects.WalkIsSafe | agent_core/net_vetting.py:430-549 | credentials go out exactly while every hop so far shares the first origin, to addresses of that hop's verdict, at most three a hop; a same-origin walk never leaves |
| Redirects.SecureStaysSecure | agent_core/net_vetting.py:533-537 | a request of a walk begun on https goes to https exactly unless its address is an http one with blanks around it |
| Redirects.PaddingGoesPlain | agent_core/net_vetting.py:533-537 | whenever a walk begun on https is redirected to such an address, it is sent there |
| Redirects.PaddingHappens | agent_core/net_vetting.py:533-537 | a web on which that happens |
| Redirects.CleanIff | agent_core/net_vetting.py:238-312 | a verdict is clean exactly when the address is a web one that parses, with a host, no password, an allowed port and no private place, and then holds every place its host is at |
| Redirects.ProblemIs | agent_core/net_vetting.py:267-312 | each problem is told by its own sentence, the first that applies |
| Redirects.SameOriginIs | agent_core/net_vetting.py:214-235 | two addresses share an origin exactly when both parse and agree in lower-cased scheme, lower-cased host and the port a request goes to |
| Redirects.CredentialStaysHome | agent_core/net_vetting.py:533-548 | told from the parsed parts: a request carries the credential exactly when every address up to it is the first one's place, and a same-origin walk asks no other |
| Redirects.HopEndsSo | agent_core/net_vetting.py:365-427 | how a hop ends is decided by its last reply, the clock and whether its addresses are used up |
| Redirects.WalkIsExplained | agent_core/net_vetting.py:495-549 | a walk ends with its last reply's answer, or fails for the one reason its last reply, verdict or clock gives; with a budget every request had time left |
| Models.DroppedLeadsToAKept | agent_core/models_catalog.py:296-317 | every alias dropped leads, suffix by suffix, to a listed id that stays |
| Models.LiveIs | agent_core/models_catalog.py:526-531 | what survives is exactly the chat ids that are no redundant alias |
| Models.MarkRefused | agent_core/models_catalog.py:559-597 | the run-by-run loop computes the specified list |
| Models.MarkedNeverRemoved | agent_core/models_catalog.py:559-597 | the same models in the same order on either side of refusal, each place still its provider's |
| Models.RefusedAreLast | agent_core/models_catalog.py:577-597 | within a provider's run nothing unrefused follows a refusal |
| Models.MergeCatalogs | agent_core/models_catalog.py:600-618 | the nested loops compute the specified list |
| Models.OneOfEachAndOneDefault | agent_core/models_catalog.py:600-618 | every id once, none lost, at most one default |
| Models.FirstOneWins | agent_core/models_catalog.py:600-618 | the entry kept is the first under its id, changed at most in its default |
| Models.CatalogFromLiveIds | agent_core/models_catalog.py:503-556 | the catalog is exactly the survivors, each once: the curated entries served, in the curated order, then the rest in the provider's |
| Models.PinnedIs | agent_core/models_catalog.py:296-317 | a pinned name is a base, a hyphen and three digits |
| Models.PreviewIs | agent_core/models_catalog.py:297-317 | a preview name is a base and the word |
| Models.SunkTells | agent_core/models_catalog.py:559-597 | what is listed afterwards is what was listed before, entry for entry, a refused model saying so and ranked last, the rest unchanged |
| Models.KeptInOrder | agent_core/models_catalog.py:526-531 | what is kept is kept in the order it came in |
| Models.ServedInOrder | agent_core/models_catalog.py:533-542 | the curated entries served keep the curated order |
| Models.OthersAre | agent_core/models_catalog.py:543-556 | the rest are the ids not yet listed, each once, in the order they first stand |
| Models.RedundantIs | agent_core/models_catalog.py:296-317 | an id is a redundant alias exactly when it is a listed name with a hyphen and three digits, or the preview word, after it |
| Schedules.SentenceIsMeaning | agent_core/automations.py:166-198 | two rows have equal sentences exactly when they mean the same schedule |
| Schedules.TriggerIsMeaning | agent_core/automations.py:227-250 | two rows have equal triggers exactly when they mean the same schedule |
| Schedules.TheTwoAgree | agent_core/automations.py:133-250 | one says there is no schedule exactly when the other is empty; equal sentences exactly when equal triggers |
| Schedules.CountsDiffer | agent_core/automations.py:179-194 | different gaps read differently, whichever unit they are told in |
| Schedules.DoorLetsThroughTheReadable | agent_core/automations.py:331-366 | the door accepts exactly the readable schedules, less a gap over a week and a day that is no number |
| Schedules.StoredIsWhatWasChecked | agent_core/tools/create_automation.py:459-469 | what is stored reads back as what was checked |
| Schedules.EscapedTellsApart | agent_core/automations.py:257-263 | escaping loses nothing |
| Schedules.PreviewSaysAll | agent_core/automations.py:201-267 | two previews are equal exactly when label, command and schedule are |
| Schedules.CalendarReads | agent_core/automations.py:117-250 | a row with an hour and a minute reads as that time, on that day counted from Sunday, and the trigger is given the same numbers |
| Schedules.GapReads | agent_core/automations.py:179-194 | a gap is told as so many of the largest unit that goes into it evenly |
| Schedules.IntervalReads | agent_core/automations.py:179-235 | and the trigger fires after as many seconds |
| Decimals.DecimalReadsBack | agent_core/automations.py:184-194 | a number as written reads back |
| Decimals.NumberThenRest | agent_core/automations.py:184-196 | where a written number ends is plain from the text |

## Left out

- `_run_single` (agent_core/orchestrator.py:493-567): the unrouted path is the routed one with a single candidate and no walk, and adds no harder member.
- `Orchestrator.Orchestrator.RunWithFallback`: does not model `redacted_for_model`, the tool list offered, effort levels, usage, context-usage, fallback-note text, audit and provider-attempt records; they do not steer the loop and nothing there reads them back. Call ids within one response are not required to be distinct.
- `ToolRun.Dispatch`: does not model the permission card's wording, undo records, screening marks or the image shown straight to the desktop outside the relay; callbacks are taken not to raise.
- `Relay.OnlyNewlinesAreAdded`: the picture-refusal sentence `_gate_image_result` writes to the sink directly is not part of the screen modelled here.
- `transcript_for_summary`, `usable_summary`: text bounds on the summary request; a summary is any text, or none.
- `Session.Apply`: does not model persistence, titles, message ids or which surface calls it; a rewind names its position directly, and a condensing happens whenever the event says so, not when a measured threshold is crossed.
- `Nonce.Normalise`: what a character outside ASCII upper-cases to is a parameter, character by character.
- `automation_nonce.mint`: randomness; a code is any six characters of the alphabet.
- `Handshake.End`: one worker and one lock; timeouts on the read loop, the queue's contents and the frames written are not modelled.
- `PollLoop.Next`: the keychain, back-off times, status lines and the screening of a message before it is queued are left out, as is the exclusivity of one loop per channel (any number of loops may overlap). A loop told to stop may take part in one more poll than the source would start.
- `ColdStart.Attempted`: the rebuild itself is an oracle that leaves any set of files; `_ensure_built` only says whether the result opens. A rename is atomic; other programs touching the directory are not modelled.
- `ShellBridge.Next`: the frame written and the JSON read are opaque; a call whose request could not be written keeps its place in the map for ever, as in the source.
- `McpText.Cleaned`: which characters outside ASCII print, and which take no width, are parameters.
- `McpListing.ListTools`: a tool's description, schema and screening marks are one opaque field; whitespace outside ASCII is a parameter.
- `trim_result`, `compose_result`, `call_tool`, the session fields and JSON-RPC framing of the MCP client: string assembly and I/O.
- `McpCatalog.ToolRegistry.Register`: visibility flags and the undo-at-registration rule of native tools are left out; `fault` stands for anything `register` may raise besides a taken id.
- `Redirects.Walk`: URL parsing, joining, name resolution and HTTP are oracles; `pinned_url`, `host_header` and request bodies are not modelled. `min(timeout, remaining)` is left out: only whether the budget is spent matters to the walk.
- `Redirects.PaddingHappens`: whether a real join ever returns a padded address is decided by the HTTP and URL libraries, which are not part of this model.
- `Models.CatalogFromLiveIds`: labels, descriptions and the rank inferred for an unknown id are not modelled; the rank is a function of the id. The curated table is taken to name each id once.
- `is_chat_model_id` (agent_core/models_catalog.py:283-289): a denylist of name fragments; here any predicate on ids.
- `Schedules.PlistText`: a label and command are any text; `_slug`, `derive_label` and `label_is_addisons_own` are left out as flat string work.
- `redaction.py`, `screening.py`, the rank patterns: their claims rest on a regular-expression engine.
- `policy.py`, `live_db_guard.py`: decided by the operating system's paths.
- Wiring, dispatch tables, prompts, widgets, skills, profiles, pairing codes, the Rust shell and the frontend: plumbing, or validators that would only add easy members.
