/**
 Asking the person, and being stopped. The worker registers a waiter under the lock, puts
 the card on screen after releasing it, and blocks; answers and Stop arrive on another
 thread, under the same lock. Each lock region is one step here.
 */
module Handshake {
  import opened Wrappers
  import opened Nonce

  const MAX_ATTEMPTS := 3

  /** Why an answer found nobody waiting. */
  datatype Refusal = TurnWasStopped | NotPending

  datatype Card = Card(toolId: string, code: Option<string>, attemptsLeft: nat)

  /** `typed` is None when what arrived in the code field was not text. */
  datatype Waiter = Waiter(woken: bool, allow: bool, typed: Option<string>, card: Card, answered: bool)

  datatype Desk = Desk(waiters: map<string, Waiter>, stopped: bool)

  datatype Verdict = Granted | Denied | Crashed

  // ----- the lock regions, as functions ----------------------------------------------------

  function Registered(d: Desk, card: Card): Desk {
    if d.stopped then d
    else d.(waiters := d.waiters[card.toolId := Waiter(false, false, None, card, false)])
  }

  function Responded(d: Desk, toolId: string, allow: bool, typed: Option<string>): Desk {
    if toolId in d.waiters then
      d.(waiters := d.waiters[toolId := Waiter(true, allow, typed, d.waiters[toolId].card, true)])
    else d
  }

  function Halted(d: Desk): Desk {
    Desk(map t | t in d.waiters :: Waiter(true, false, None, d.waiters[t].card, true), true)
  }

  function Lowered(d: Desk): Desk {
    d.(stopped := false)
  }

  /** Some of the waiters resolved as refusals. */
  function HaltedAmong(waiters: map<string, Waiter>, some: seq<string>): map<string, Waiter> {
    map t | t in waiters :: if t in some then Waiter(true, false, None, waiters[t].card, true) else waiters[t]
  }

  function Popped(d: Desk, toolId: string): Desk {
    d.(waiters := d.waiters - {toolId})
  }

  // ----- the lock regions, as they are run ---------------------------------------------------

  /** The newest card nobody has answered, the waiters standing in the order they were put in. */
  function Newest(order: seq<string>, waiters: map<string, Waiter>): Option<Card> {
    if order == [] then None
    else
      var t := order[|order| - 1];
      if t in waiters && !waiters[t].answered then Some(waiters[t].card)
      else Newest(order[..|order| - 1], waiters)
  }

  lemma NewestUnfolds(order: seq<string>, waiters: map<string, Waiter>)
    requires order != []
    ensures var t := order[|order| - 1];
            Newest(order, waiters) ==
              if Unanswered(waiters, t) then Some(waiters[t].card) else Newest(order[..|order| - 1], waiters)
    ensures Unanswered(waiters, order[|order| - 1]) ==> order[|order| - 1] in waiters
  {
  }

  predicate Unanswered(waiters: map<string, Waiter>, t: string) {
    t in waiters && !waiters[t].answered
  }

  lemma {:induction false} NewestIsNewest(order: seq<string>, waiters: map<string, Waiter>)
    ensures Newest(order, waiters).None? <==> forall k :: 0 <= k < |order| ==> !Unanswered(waiters, order[k])
    ensures Newest(order, waiters).Some? ==>
              exists k :: 0 <= k < |order| && Unanswered(waiters, order[k])
                          && waiters[order[k]].card == Newest(order, waiters).value
                          && forall j :: k < j < |order| ==> !Unanswered(waiters, order[j])
  {
    if order != [] {
      var n := |order| - 1;
      hide Unanswered, Newest;
      NewestUnfolds(order, waiters);
      if !Unanswered(waiters, order[n]) {
        NewestIsNewest(order[..n], waiters);
        assert forall k :: 0 <= k < n ==> order[..n][k] == order[k];
      }
    }
  }

  ghost predicate Lists(order: seq<string>, waiters: map<string, Waiter>) {
    && (forall t :: t in order <==> t in waiters)
    && (forall j, k :: 0 <= j < k < |order| ==> order[j] != order[k])
  }

  function Dropped(order: seq<string>, t: string): seq<string> {
    if order == [] then []
    else Dropped(order[..|order| - 1], t) + if order[|order| - 1] == t then [] else [order[|order| - 1]]
  }

  lemma {:induction false} DroppedLists(order: seq<string>, t: string)
    requires forall j, k :: 0 <= j < k < |order| ==> order[j] != order[k]
    ensures forall x :: x in Dropped(order, t) <==> x in order && x != t
    ensures forall j, k :: 0 <= j < k < |Dropped(order, t)| ==> Dropped(order, t)[j] != Dropped(order, t)[k]
  {
    if order != [] {
      var n := |order| - 1;
      DroppedLists(order[..n], t);
      assert order == order[..n] + [order[n]];
      assert forall k :: 0 <= k < |Dropped(order[..n], t)| ==> Dropped(order[..n], t)[k] in order[..n];
    }
  }

  class PermissionDesk {
    var waiters: map<string, Waiter>
    var order: seq<string>       // its keys, in the order they were put in
    var turnStopped: bool

    ghost predicate Valid()
      reads this
    {
      Lists(order, waiters)
    }

    function State(): Desk
      reads this
    {
      Desk(waiters, turnStopped)
    }

    constructor ()
      ensures Valid() && State() == Desk(map[], false) && order == []
    {
      waiters, order, turnStopped := map[], [], false;
    }

    method LowerFlag()
      requires Valid()
      modifies this
      ensures Valid() && State() == Lowered(old(State())) && order == old(order)
    {
      turnStopped := false;
    }

    method Register(card: Card) returns (registered: bool)
      requires Valid()
      modifies this
      ensures Valid() && State() == Registered(old(State()), card)
      ensures registered <==> !old(turnStopped)
      ensures !registered ==> State() == old(State())
      ensures order == old(order) + if registered && card.toolId !in old(order) then [card.toolId] else []
    {
      if turnStopped {
        return false;
      }
      if card.toolId !in order {
        order := order + [card.toolId];
      }
      waiters := waiters[card.toolId := Waiter(false, false, None, card, false)];
      return true;
    }

    /** An answer nobody is waiting for is refused, with the reason nobody is. */
    method Respond(toolId: string, allow: bool, typed: Option<string>) returns (refusal: Option<Refusal>)
      requires Valid()
      modifies this
      ensures Valid() && State() == Responded(old(State()), toolId, allow, typed) && order == old(order)
      ensures refusal.None? <==> toolId in old(waiters)
      ensures refusal.Some? ==>
                refusal.value == if old(turnStopped) then TurnWasStopped else NotPending
    {
      if toolId in waiters {
        var waiter := waiters[toolId];
        waiters := waiters[toolId := waiter.(allow := allow, typed := typed, answered := true, woken := true)];
        return None;
      }
      return Some(if turnStopped then TurnWasStopped else NotPending);
    }

    /** What a re-syncing surface is shown: the newest card that is waiting, if any is. */
    method Pending() returns (card: Option<Card>)
      requires Valid()
      ensures card == Newest(order, waiters)
    {
      card := None;
      for i := 0 to |order|
        invariant card == Newest(order[..i], waiters)
      {
        assert order[..i + 1][..i] == order[..i];
        if !waiters[order[i]].answered {
          card := Some(waiters[order[i]].card);
        }
      }
      assert order[..|order|] == order;
    }

    /** Stop: raise the flag and resolve every standing card as a refusal. */
    method Stop() returns (ended: nat)
      requires Valid()
      modifies this
      ensures Valid() && State() == Halted(old(State())) && order == old(order)
      ensures ended == |old(order)|
    {
      turnStopped := true;
      ended := |order|;
      for i := 0 to |order|
        invariant order == old(order) && turnStopped
        invariant waiters == HaltedAmong(old(waiters), order[..i])
      {
        var t := order[i];
        assert order[..i + 1] == order[..i] + [t];
        waiters := waiters[t := waiters[t].(allow := false, typed := None, answered := true, woken := true)];
      }
      assert order[..|order|] == order;
    }

    method Pop(toolId: string) returns (answer: Option<Waiter>)
      requires Valid()
      modifies this
      ensures Valid() && State() == Popped(old(State()), toolId) && order == Dropped(old(order), toolId)
      ensures answer == if toolId in old(waiters) then Some(old(waiters)[toolId]) else None
    {
      answer := if toolId in waiters then Some(waiters[toolId]) else None;
      DroppedLists(order, toolId);
      waiters, order := waiters - {toolId}, Dropped(order, toolId);
    }
  }

  // ----- the keyword card ---------------------------------------------------------------------

  /** What arrived in the code field against the code on the card; a non-text answer reads as nothing typed. */
  function Compare(upper: char -> string, typed: Option<string>, code: string): Comparison {
    Matches(upper, if typed.Some? then typed.value else "", code)
  }

  /** A yes with text in the code field that spells the drawn code. */
  predicate IsRight(upper: char -> string, raw: string, answer: (bool, Option<string>)) {
    answer.0 && answer.1.Some? && Normalise(upper, answer.1.value) == raw
  }

  /** A yes with text in the code field the comparison raises on. */
  predicate IsRaising(upper: char -> string, answer: (bool, Option<string>)) {
    answer.0 && answer.1.Some? && !Spellable(upper, answer.1.value)
  }

  /** Against a drawn code, an answer with no text in the code field is wrong and raises nothing. */
  lemma CompareIs(upper: char -> string, raw: string, answer: (bool, Option<string>))
    requires InAlphabet(raw)
    ensures answer.0 ==> (Compare(upper, answer.1, Format(raw)) == Match <==> IsRight(upper, raw, answer))
    ensures answer.0 ==> (Compare(upper, answer.1, Format(raw)) == Raises <==> IsRaising(upper, answer))
    ensures !(IsRight(upper, raw, answer) && IsRaising(upper, answer))
  {
    hide ALPHABET, Format, Matches, Spellable, Normalise;
    MatchesIffSpelled(upper, if answer.1.Some? then answer.1.value else "", raw);
    NothingSpelled(upper);
  }

  lemma NothingSpelled(upper: char -> string)
    ensures Normalise(upper, "") == "" && Spellable(upper, "")
  {
  }

  /** What one answer settles, with `left` attempts to go, its own among them. */
  function Settles(upper: char -> string, raw: string, left: int, answer: (bool, Option<string>)): Option<Verdict> {
    if !answer.0 then Some(Denied)
    else if IsRight(upper, raw, answer) then Some(Granted)
    else if IsRaising(upper, answer) then Some(Crashed)
    else if left <= 1 then Some(Denied)
    else None
  }

  /** What the answers heard so far settle: a no, a right code or a raise at once, a third wrong code at last. */
  function VerdictOf(upper: char -> string, code: string, heard: seq<(bool, Option<string>)>): Option<Verdict> {
    if heard == [] then None
    else
      var before := VerdictOf(upper, code, heard[..|heard| - 1]);
      var (allow, typed) := heard[|heard| - 1];
      if before.Some? then before
      else if !allow then Some(Denied)
      else
        match Compare(upper, typed, code)
        case Match => Some(Granted)
        case Raises => Some(Crashed)
        case NoMatch => if |heard| >= MAX_ATTEMPTS then Some(Denied) else None
  }

  function FirstOf(answers: nat -> (bool, Option<string>), n: nat): (heard: seq<(bool, Option<string>)>)
    ensures |heard| == n && forall k :: 0 <= k < n ==> heard[k] == answers(k)
  {
    seq(n, k requires 0 <= k < n => answers(k))
  }

  lemma VerdictMore(upper: char -> string, code: string, heard: seq<(bool, Option<string>)>, a: (bool, Option<string>))
    ensures VerdictOf(upper, code, heard + [a]) ==
              var before := VerdictOf(upper, code, heard);
              if before.Some? then before
              else if !a.0 then Some(Denied)
              else
                match Compare(upper, a.1, code)
                case Match => Some(Granted)
                case Raises => Some(Crashed)
                case NoMatch => if |heard| + 1 >= MAX_ATTEMPTS then Some(Denied) else None
  {
    assert (heard + [a])[..|heard|] == heard;
  }

  /**
   The arming loop, against whatever `_ask_once` comes back with for the n-th card. The
   request is granted exactly when the first answer that is not a wrong code is a yes with
   the right one, among at most three.
   */
  method AskWithKeyword(upper: char -> string, code: string, answers: nat -> (bool, Option<string>))
    returns (verdict: Verdict, cards: nat)
    ensures 1 <= cards <= MAX_ATTEMPTS
    ensures forall k :: 0 <= k < cards - 1 ==> answers(k).0 && Compare(upper, answers(k).1, code) == NoMatch
    ensures var last := answers(cards - 1);
            match verdict
            case Granted => last.0 && Compare(upper, last.1, code) == Match
            case Crashed => last.0 && Compare(upper, last.1, code) == Raises
            case Denied => !last.0 || (cards == MAX_ATTEMPTS && Compare(upper, last.1, code) == NoMatch)
    ensures VerdictOf(upper, code, FirstOf(answers, cards - 1)).None?
    ensures VerdictOf(upper, code, FirstOf(answers, cards)) == Some(verdict)
    ensures forall raw :: InAlphabet(raw) && code == Format(raw) ==>
              && (verdict == Granted <==> IsRight(upper, raw, answers(cards - 1)))
              && (verdict == Crashed <==> IsRaising(upper, answers(cards - 1)))
              && (forall k :: 0 <= k < cards - 1 ==>
                    !IsRight(upper, raw, answers(k)) && !IsRaising(upper, answers(k)))
  {
    hide Compare, VerdictOf, ALPHABET, Format, IsRight, IsRaising;
    forall raw, n: nat | InAlphabet(raw) && code == Format(raw)
      ensures answers(n).0 ==> (Compare(upper, answers(n).1, code) == Match <==> IsRight(upper, raw, answers(n)))
      ensures answers(n).0 ==> (Compare(upper, answers(n).1, code) == Raises <==> IsRaising(upper, answers(n)))
      ensures !answers(n).0 ==> !IsRight(upper, raw, answers(n)) && !IsRaising(upper, answers(n))
    {
      CompareIs(upper, raw, answers(n));
      ANoIsNeither(upper, raw, answers(n));
    }
    var attemptsLeft := MAX_ATTEMPTS;
    cards := 0;
    NothingHeard(upper, code);
    assert FirstOf(answers, 0) == [];
    while true
      invariant cards + attemptsLeft == MAX_ATTEMPTS && attemptsLeft > 0
      invariant forall k :: 0 <= k < cards ==> answers(k).0 && Compare(upper, answers(k).1, code) == NoMatch
      invariant VerdictOf(upper, code, FirstOf(answers, cards)).None?
      decreases attemptsLeft
    {
      VerdictMore(upper, code, FirstOf(answers, cards), answers(cards));
      assert FirstOf(answers, cards + 1) == FirstOf(answers, cards) + [answers(cards)];
      var (allow, typed) := answers(cards);
      cards := cards + 1;
      if !allow {
        return Denied, cards;
      }
      var outcome := Compare(upper, typed, code);
      if outcome == Raises {
        return Crashed, cards;
      }
      if outcome == Match {
        return Granted, cards;
      }
      attemptsLeft := attemptsLeft - 1;
      if attemptsLeft <= 0 {
        return Denied, cards;
      }
    }
  }

  lemma ANoIsNeither(upper: char -> string, raw: string, answer: (bool, Option<string>))
    ensures !answer.0 ==> !IsRight(upper, raw, answer) && !IsRaising(upper, answer)
  {
  }

  /** The k-th answer settles the request, and none before it does. */
  predicate SettledAt(upper: char -> string, raw: string, heard: seq<(bool, Option<string>)>, k: nat) {
    && k < |heard| && Settles(upper, raw, MAX_ATTEMPTS - k, heard[k]).Some?
    && forall j :: 0 <= j < k ==> Settles(upper, raw, MAX_ATTEMPTS - j, heard[j]).None?
  }

  /** A request for a drawn code ends with the first answer that settles it, and as that answer settles it. */
  lemma {:induction false} VerdictIs(upper: char -> string, raw: string, heard: seq<(bool, Option<string>)>)
    requires InAlphabet(raw)
    ensures VerdictOf(upper, Format(raw), heard).None? <==>
              forall k :: 0 <= k < |heard| ==> Settles(upper, raw, MAX_ATTEMPTS - k, heard[k]).None?
    ensures VerdictOf(upper, Format(raw), heard).Some? ==>
              exists k: nat :: SettledAt(upper, raw, heard, k)
                && VerdictOf(upper, Format(raw), heard) == Settles(upper, raw, MAX_ATTEMPTS - k, heard[k])
  {
    hide ALPHABET, Format, Settles, VerdictOf;
    if heard == [] {
      NothingHeard(upper, Format(raw));
    } else {
      var n := |heard| - 1;
      var front, a := heard[..n], heard[n];
      assert heard == front + [a];
      VerdictIs(upper, raw, front);
      VerdictMore(upper, Format(raw), front, a);
      if VerdictOf(upper, Format(raw), front).None? {
        SettlesIsNext(upper, raw, front, a);
        assert forall k :: 0 <= k < n ==> front[k] == heard[k];
        assert heard[n] == a;
      } else {
        var k: nat :| SettledAt(upper, raw, front, k)
                      && VerdictOf(upper, Format(raw), front) == Settles(upper, raw, MAX_ATTEMPTS - k, front[k]);
        StillSettled(upper, raw, front, a, k);
      }
    }
  }

  lemma StillSettled(upper: char -> string, raw: string, heard: seq<(bool, Option<string>)>,
                     a: (bool, Option<string>), k: nat)
    requires SettledAt(upper, raw, heard, k)
    ensures SettledAt(upper, raw, heard + [a], k) && (heard + [a])[k] == heard[k]
  {
    hide Settles;
  }

  lemma SettlesIsNext(upper: char -> string, raw: string, heard: seq<(bool, Option<string>)>,
                      a: (bool, Option<string>))
    requires InAlphabet(raw) && VerdictOf(upper, Format(raw), heard).None?
    ensures VerdictOf(upper, Format(raw), heard + [a]) == Settles(upper, raw, MAX_ATTEMPTS - |heard|, a)
  {
    hide ALPHABET, Format, IsRight, IsRaising, Compare, VerdictOf;
    VerdictMore(upper, Format(raw), heard, a);
    CompareIs(upper, raw, a);
  }

  lemma NothingHeard(upper: char -> string, code: string)
    ensures VerdictOf(upper, code, []).None?
  {
  }

  // ----- both threads -------------------------------------------------------------------------

  datatype Worker =
    | Idle                      // between jobs
    | Working                   // a job is running and asking nothing
    | Asking(card: Card)        // about to take the lock and register
    | Emitting(card: Card)      // registered, the card not yet on screen
    | Waiting(card: Card)       // blocked until woken

  /** `upper` is how characters outside ASCII upper-case; no step changes it. */
  datatype System = System(desk: Desk, worker: Worker, cards: nat, verdict: Option<Verdict>, upper: char -> string)

  datatype Action =
    | Dequeue
    | FinishJob
    | Request(toolId: string, code: Option<string>)
    | Register
    | Emit
    | Respond(toolId: string, allow: bool, typed: Option<string>)
    | Stop
    | Pop

  function Start(upper: char -> string): System {
    System(Desk(map[], false), Idle, 0, None, upper)
  }

  predicate Enabled(s: System, a: Action) {
    match a
    case Dequeue => s.worker.Idle?
    case FinishJob => s.worker.Working?
    case Request(_, _) => s.worker.Working?
    case Register => s.worker.Asking?
    case Emit => s.worker.Emitting?
    case Respond(_, _, _) => true
    case Stop => true
    case Pop =>
      s.worker.Waiting? && s.worker.card.toolId in s.desk.waiters && s.desk.waiters[s.worker.card.toolId].woken
  }

  /** What the worker makes of the answer it finds: a verdict, or a fresh card with one attempt fewer. */
  function Decide(s: System, card: Card, allow: bool, typed: Option<string>): System {
    if !allow then s.(worker := Working, verdict := Some(Denied))
    else if card.code.None? then s.(worker := Working, verdict := Some(Granted))
    else
      match Compare(s.upper, typed, card.code.value)
      case Match => s.(worker := Working, verdict := Some(Granted))
      case Raises => s.(worker := Working, verdict := Some(Crashed))
      case NoMatch =>
        if card.attemptsLeft <= 1 then s.(worker := Working, verdict := Some(Denied))
        else s.(worker := Asking(card.(attemptsLeft := card.attemptsLeft - 1)))
  }

  function Step(s: System, a: Action): System
    requires Enabled(s, a)
  {
    match a
    case Dequeue => s.(worker := Working, desk := Lowered(s.desk))
    case FinishJob => s.(worker := Idle)
    case Request(toolId, code) =>
      if s.desk.stopped then s.(cards := 0, verdict := Some(Denied))
      else s.(cards := 0, verdict := None, worker := Asking(Card(toolId, code, MAX_ATTEMPTS)))
    case Register =>
      if s.desk.stopped then s.(worker := Working, verdict := Some(Denied))
      else s.(desk := Registered(s.desk, s.worker.card), worker := Emitting(s.worker.card))
    case Emit => s.(worker := Waiting(s.worker.card), cards := s.cards + 1)
    case Respond(toolId, allow, typed) => s.(desk := Responded(s.desk, toolId, allow, typed))
    case Stop => s.(desk := Halted(s.desk))
    case Pop =>
      var card := s.worker.card;
      var waiter := s.desk.waiters[card.toolId];
      Decide(s.(desk := Popped(s.desk, card.toolId)), card, waiter.allow, waiter.typed)
  }

  /** The state a run reaches; an action its state does not allow does not happen. */
  function End(upper: char -> string, actions: seq<Action>): (s: System)
    ensures s.upper == upper
  {
    if actions == [] then Start(upper)
    else
      var s, a := End(upper, actions[..|actions| - 1]), actions[|actions| - 1];
      if Enabled(s, a) then Step(s, a) else s
  }

  predicate Happens(upper: char -> string, actions: seq<Action>) {
    forall k :: 0 <= k < |actions| ==> Enabled(End(upper, actions[..k]), actions[k])
  }

  // ----- what every interleaving keeps -----------------------------------------------------------

  predicate CardOk(card: Card, cards: nat, standing: nat) {
    && 1 <= card.attemptsLeft <= MAX_ATTEMPTS
    && cards == MAX_ATTEMPTS - card.attemptsLeft + standing
  }

  /**
   There is a waiter only while the worker stands at a card, and it is that card's; once
   the flag is up that waiter is woken; a request never shows more than three cards.
   */
  predicate Inv(s: System) {
    && s.cards <= MAX_ATTEMPTS
    && (s.desk.stopped ==> forall t :: t in s.desk.waiters ==> s.desk.waiters[t].woken)
    && (forall t :: t in s.desk.waiters ==> s.desk.waiters[t].woken == s.desk.waiters[t].answered)
    && match s.worker
       case Idle => s.desk.waiters == map[]
       case Working => s.desk.waiters == map[]
       case Asking(card) => s.desk.waiters == map[] && CardOk(card, s.cards, 0)
       case Emitting(card) =>
         s.desk.waiters.Keys == {card.toolId} && s.desk.waiters[card.toolId].card == card && CardOk(card, s.cards, 0)
       case Waiting(card) =>
         s.desk.waiters.Keys == {card.toolId} && s.desk.waiters[card.toolId].card == card && CardOk(card, s.cards, 1)
  }

  lemma StepKeepsInv(s: System, a: Action)
    requires Inv(s) && Enabled(s, a)
    ensures Inv(Step(s, a))
  {
    hide Compare;
    match a {
      case Pop =>
        assert Popped(s.desk, s.worker.card.toolId).waiters == map[];
      case _ =>
    }
  }

  lemma {:induction false} EveryRunKeepsInv(upper: char -> string, actions: seq<Action>)
    ensures Inv(End(upper, actions))
  {
    if actions != [] {
      var front, a := actions[..|actions| - 1], actions[|actions| - 1];
      EveryRunKeepsInv(upper, front);
      if Enabled(End(upper, front), a) {
        StepKeepsInv(End(upper, front), a);
      }
    }
  }

  /**
   In every state any interleaving reaches: while the flag is up nobody new can be
   registered and whoever is standing has been woken, and it comes down only when nobody
   is standing.
   */
  lemma StopIsRaceFree(upper: char -> string, actions: seq<Action>, a: Action)
    requires Enabled(End(upper, actions), a)
    ensures var s, s' := End(upper, actions), Step(End(upper, actions), a);
            && (s.desk.stopped ==> s'.desk.waiters.Keys <= s.desk.waiters.Keys)
            && (s'.desk.stopped ==> forall t :: t in s'.desk.waiters ==> s'.desk.waiters[t].woken)
            && (s.desk.stopped && !s'.desk.stopped ==> s.desk.waiters == map[] && s'.desk.waiters == map[])
            && s'.cards <= MAX_ATTEMPTS
  {
    hide Compare;
    EveryRunKeepsInv(upper, actions);
    StepKeepsInv(End(upper, actions), a);
  }

  /** The flag is up exactly when somebody has stopped the turn since its job was taken off the queue. */
  lemma {:induction false} FlagIs(upper: char -> string, actions: seq<Action>)
    requires Happens(upper, actions)
    ensures End(upper, actions).desk.stopped <==>
              exists k :: 0 <= k < |actions| && actions[k] == Stop
                          && forall j :: k < j < |actions| ==> actions[j] != Dequeue
    decreases |actions|
  {
    hide Happens, End;
    if actions == [] {
      EndOfNothing(upper);
    } else {
      var n := |actions| - 1;
      var front, a := actions[..n], actions[n];
      assert actions == front + [a];
      HappensBefore(upper, front, a);
      FlagIs(upper, front);
      StepMovesFlag(End(upper, front), a);
      hide Step, Enabled;
      if k :| 0 <= k < n && front[k] == Stop && forall j :: k < j < n ==> front[j] != Dequeue {
        assert actions[k] == Stop;
      }
      if k :| 0 <= k < n && actions[k] == Stop && forall j :: k < j < |actions| ==> actions[j] != Dequeue {
        assert front[k] == Stop && actions[n] != Dequeue;
      }
    }
  }

  lemma StepMovesFlag(s: System, a: Action)
    requires Enabled(s, a)
    ensures Step(s, a).desk.stopped <==> a == Stop || (s.desk.stopped && a != Dequeue)
  {
    hide Compare;
  }

  // ----- nobody blocks for ever after a Stop -------------------------------------------------------

  /** Steps the worker still has to take before it asks nothing. */
  function StepsLeft(w: Worker): nat {
    match w
    case Emitting(_) => 3
    case Waiting(_) => 2
    case Asking(_) => 1
    case _ => 0
  }

  function WorkersTurn(w: Worker): Action
    requires StepsLeft(w) > 0
  {
    match w
    case Emitting(_) => Emit
    case Waiting(_) => Pop
    case Asking(_) => Register
  }

  /**
   With the flag up, the worker's next step is always enabled and brings it nearer to
   asking nothing, and nothing anybody else does takes it further away.
   */
  lemma StoppedAskEnds(upper: char -> string, actions: seq<Action>, a: Action)
    requires End(upper, actions).desk.stopped && StepsLeft(End(upper, actions).worker) > 0
    ensures var s, mine := End(upper, actions), WorkersTurn(End(upper, actions).worker);
            && Enabled(s, mine) && Step(s, mine).desk.stopped
            && StepsLeft(Step(s, mine).worker) < StepsLeft(s.worker)
            && (a.Respond? || a.Stop? ==>
                  Step(s, a).worker == s.worker && Step(s, a).desk.stopped)
  {
    hide Compare;
    EveryRunKeepsInv(upper, actions);
  }

  // ----- the answer is the last write before the pop -------------------------------------------------

  /** The last thing written to the standing waiter: nothing yet, an answer to its card, or a Stop. */
  datatype Write = Nothing | Answer(allow: bool, typed: Option<string>) | Stopped

  function LastWrite(actions: seq<Action>, toolId: string): Write {
    if actions == [] then Nothing
    else
      match actions[|actions| - 1]
      case Register => Nothing
      case Stop => Stopped
      case Respond(t, allow, typed) =>
        if t == toolId then Answer(allow, typed) else LastWrite(actions[..|actions| - 1], toolId)
      case _ => LastWrite(actions[..|actions| - 1], toolId)
  }

  /** The k-th action is the last to register a waiter, to stop the turn, or to answer the tool's card. */
  predicate LastWordAt(actions: seq<Action>, k: nat, toolId: string) {
    && k < |actions| && Concerns(actions[k], toolId)
    && forall j :: k < j < |actions| ==> !Concerns(actions[j], toolId)
  }

  predicate Concerns(a: Action, toolId: string) {
    a.Register? || a.Stop? || (a.Respond? && a.toolId == toolId)
  }

  lemma {:induction false} LastWriteIs(actions: seq<Action>, toolId: string, allow: bool, typed: Option<string>)
    ensures LastWrite(actions, toolId) == Answer(allow, typed) <==>
              exists k: nat :: LastWordAt(actions, k, toolId) && actions[k] == Respond(toolId, allow, typed)
    ensures LastWrite(actions, toolId) == Stopped <==>
              exists k: nat :: LastWordAt(actions, k, toolId) && actions[k] == Stop
  {
    if actions != [] {
      var n := |actions| - 1;
      var front, a := actions[..n], actions[n];
      assert actions == front + [a];
      hide LastWrite;
      LastWriteMore(front, a, toolId);
      if Concerns(a, toolId) {
        assert LastWordAt(actions, n, toolId);
      } else {
        LastWriteIs(front, toolId, allow, typed);
        forall k: nat | k < n ensures LastWordAt(front, k, toolId) <==> LastWordAt(actions, k, toolId) {
          assert forall j :: 0 <= j < n ==> front[j] == actions[j];
        }
      }
    }
  }

  function Reads(w: Waiter): Write {
    if !w.woken then Nothing
    else if w.allow then Answer(true, w.typed)
    else Stopped
  }

  /** A Stop and a "no" read the same to the worker. */
  predicate SameRefusal(a: Write, b: Write) {
    a == b || (a.Answer? && !a.allow && b == Stopped)
  }

  lemma HappensBefore(upper: char -> string, actions: seq<Action>, a: Action)
    ensures Happens(upper, actions + [a]) <==> Happens(upper, actions) && Enabled(End(upper, actions), a)
    ensures Enabled(End(upper, actions), a) ==> End(upper, actions + [a]) == Step(End(upper, actions), a)
  {
    var all := actions + [a];
    assert all[..|actions|] == actions && all[|actions|] == a;
    assert forall k :: 0 <= k < |actions| ==> actions[..k] == all[..k] && actions[k] == all[k];
  }

  lemma LastWriteMore(actions: seq<Action>, a: Action, toolId: string)
    ensures LastWrite(actions + [a], toolId) ==
              match a
              case Register => Nothing
              case Stop => Stopped
              case Respond(t, allow, typed) => if t == toolId then Answer(allow, typed) else LastWrite(actions, toolId)
              case _ => LastWrite(actions, toolId)
  {
    assert (actions + [a])[..|actions|] == actions;
  }

  lemma {:induction false} WaiterHoldsLastWrite(upper: char -> string, actions: seq<Action>)
    requires Happens(upper, actions)
    requires var w := End(upper, actions).worker; w.Emitting? || w.Waiting?
    ensures var s := End(upper, actions);
            && s.worker.card.toolId in s.desk.waiters
            && SameRefusal(LastWrite(actions, s.worker.card.toolId), Reads(s.desk.waiters[s.worker.card.toolId]))
    decreases |actions|
  {
    hide Compare, Happens, End, LastWrite, Inv;
    if actions == [] {
      EndOfNothing(upper);
    } else {
      var front, a := actions[..|actions| - 1], actions[|actions| - 1];
      assert actions == front + [a];
      HappensBefore(upper, front, a);
      LastWriteMore(front, a, End(upper, actions).worker.card.toolId);
      Standing(upper, front);
      if a != Register {
        WaiterHoldsLastWrite(upper, front);
      }
    }
  }

  lemma NothingHappens(upper: char -> string)
    ensures Happens(upper, [])
  {
  }

  lemma EndOfNothing(upper: char -> string)
    ensures End(upper, []) == Start(upper)
  {
  }

  /** The one waiter there can be belongs to the card the worker stands at. */
  lemma Standing(upper: char -> string, actions: seq<Action>)
    ensures var s := End(upper, actions);
            if s.worker.Emitting? || s.worker.Waiting? then s.desk.waiters.Keys == {s.worker.card.toolId}
            else s.desk.waiters == map[]
  {
    EveryRunKeepsInv(upper, actions);
  }

  /**
   The whole meaning of a pop: the request is granted exactly when the last thing written
   before it was a yes carrying, on an arming card, that request's own code; a wrong code
   asks again with one attempt fewer, or denies with the last.
   */
  lemma PopReadsLastWrite(upper: char -> string, actions: seq<Action>)
    requires Happens(upper, actions + [Pop])
    ensures var s, s' := End(upper, actions), End(upper, actions + [Pop]);
            && s.worker.Waiting?
            && var card, last := s.worker.card, LastWrite(actions, s.worker.card.toolId);
               && last != Nothing
               && var yes := last.Answer? && last.allow;
                  var outcome := if card.code.None? then Match
                                 else if yes then Compare(upper, last.typed, card.code.value) else NoMatch;
                  && (s'.worker == Working && s'.verdict == Some(Granted) <==> yes && outcome == Match)
                  && (yes && outcome == Raises ==> s'.worker == Working && s'.verdict == Some(Crashed))
                  && (!yes || (outcome == NoMatch && card.attemptsLeft == 1) ==>
                        s'.worker == Working && s'.verdict == Some(Denied))
                  && (yes && outcome == NoMatch && card.attemptsLeft > 1 ==>
                        s'.worker == Asking(Card(card.toolId, card.code, card.attemptsLeft - 1)))
  {
    hide Compare, Happens, End, LastWrite;
    HappensBefore(upper, actions, Pop);
    EveryRunKeepsInv(upper, actions);
    WaiterHoldsLastWrite(upper, actions);
  }

  /**
   The same, told from the actions: a request that asks no code is granted exactly when the last
   word on its card is a yes; one with a drawn code exactly when that yes carries text that spells
   it. A yes without text is a wrong code, and a pop never raises on it.
   */
  lemma PopMeans(upper: char -> string, actions: seq<Action>, raw: string)
    requires Happens(upper, actions + [Pop]) && InAlphabet(raw)
    ensures var s, s' := End(upper, actions), End(upper, actions + [Pop]);
            && s.worker.Waiting?
            && var card := s.worker.card;
               && (exists k: nat :: LastWordAt(actions, k, card.toolId) && !actions[k].Register?)
               && forall k: nat :: LastWordAt(actions, k, card.toolId) ==>
                    var answer := if actions[k].Respond? then (actions[k].allow, actions[k].typed) else (false, None);
                    && (card.code.None? ==>
                          s'.worker == Working && s'.verdict == Some(if answer.0 then Granted else Denied))
                    && (card.code == Some(Format(raw)) ==>
                          match Settles(upper, raw, card.attemptsLeft, answer)
                          case Some(verdict) => s'.worker == Working && s'.verdict == Some(verdict)
                          case None => s'.worker == Asking(Card(card.toolId, card.code, card.attemptsLeft - 1)))
  {
    hide Compare, Happens, End, LastWrite, Step, Enabled, ALPHABET, Format, IsRight, IsRaising, Concerns;
    PopReadsLastWrite(upper, actions);
    StandsInTime(upper, actions);
    var card := End(upper, actions).worker.card;
    var last := LastWrite(actions, card.toolId);
    var (allow, typed) := if last.Answer? then (last.allow, last.typed) else (false, None);
    LastWriteIs(actions, card.toolId, allow, typed);
    CompareIs(upper, raw, (allow, typed));
    var k: nat :| LastWordAt(actions, k, card.toolId) &&
                  actions[k] == if last.Answer? then Respond(card.toolId, allow, typed) else Stop;
    forall j: nat | LastWordAt(actions, j, card.toolId) ensures j == k {
      LastWordIsOne(actions, j, k, card.toolId);
    }
  }

  lemma LastWordIsOne(actions: seq<Action>, j: nat, k: nat, toolId: string)
    requires LastWordAt(actions, j, toolId) && LastWordAt(actions, k, toolId)
    ensures j == k
  {
  }

  lemma StandsInTime(upper: char -> string, actions: seq<Action>)
    requires End(upper, actions).worker.Waiting?
    ensures 1 <= End(upper, actions).worker.card.attemptsLeft <= MAX_ATTEMPTS
  {
    EveryRunKeepsInv(upper, actions);
  }

  lemma {:induction false} LastWriteSinceStop(before: seq<Action>, after: seq<Action>, toolId: string)
    requires forall k :: 0 <= k < |after| ==> after[k] != Register
    ensures LastWrite(before + [Stop] + after, toolId) ==
            if LastWrite(after, toolId) == Nothing then Stopped else LastWrite(after, toolId)
  {
    var all := before + [Stop] + after;
    if after == [] {
      assert all == before + [Stop];
      LastWriteMore(before, Stop, toolId);
    } else {
      var k := |after| - 1;
      LastWriteSinceStop(before, after[..k], toolId);
      assert all[..|all| - 1] == before + [Stop] + after[..k];
    }
  }

  /**
   What a Stop settles: the card it found standing ends in a grant exactly when somebody
   still answers it yes, with the right code if it asks one, between the Stop and the pop.
   */
  lemma StopDeniesUnlessAnswered(upper: char -> string, before: seq<Action>, after: seq<Action>)
    requires Happens(upper, before + [Stop] + after + [Pop])
    requires forall k :: 0 <= k < |after| ==> after[k] != Register
    ensures var s, s' := End(upper, before + [Stop] + after), End(upper, before + [Stop] + after + [Pop]);
            && s.worker.Waiting?
            && var card, last := s.worker.card, LastWrite(after, s.worker.card.toolId);
               s'.worker == Working && s'.verdict == Some(Granted) <==>
               && last.Answer? && last.allow
               && (card.code.None? || Compare(upper, last.typed, card.code.value) == Match)
  {
    hide Compare, Happens, End, LastWrite, Step, Enabled;
    var actions := before + [Stop] + after;
    PopGrants(upper, actions);
    LastWriteSinceStop(before, after, End(upper, actions).worker.card.toolId);
  }

  lemma PopGrants(upper: char -> string, actions: seq<Action>)
    requires Happens(upper, actions + [Pop])
    ensures var s, s' := End(upper, actions), End(upper, actions + [Pop]);
            && s.worker.Waiting?
            && var card, last := s.worker.card, LastWrite(actions, s.worker.card.toolId);
               s'.worker == Working && s'.verdict == Some(Granted) <==>
               && last.Answer? && last.allow
               && (card.code.None? || Compare(upper, last.typed, card.code.value) == Match)
  {
    hide Compare, Happens, End, LastWrite, Step, Enabled;
    PopReadsLastWrite(upper, actions);
  }

  /** The same of a drawn code: the yes has to carry text that spells it. */
  lemma StopMeans(upper: char -> string, before: seq<Action>, after: seq<Action>, raw: string)
    requires Happens(upper, before + [Stop] + after + [Pop])
    requires forall k :: 0 <= k < |after| ==> after[k] != Register
    requires InAlphabet(raw)
    ensures var s, s' := End(upper, before + [Stop] + after), End(upper, before + [Stop] + after + [Pop]);
            && s.worker.Waiting?
            && (s.worker.card.code == Some(Format(raw)) ==>
                  (s'.worker == Working && s'.verdict == Some(Granted) <==>
                   RightLastWord(upper, raw, after, s.worker.card.toolId)))
  {
    hide *;
    StopDeniesUnlessAnswered(upper, before, after);
    var toolId := End(upper, before + [Stop] + after).worker.card.toolId;
    LastWordIsRight(upper, raw, after, toolId);
    RightIsMatch(upper, raw, LastWrite(after, toolId));
  }

  lemma RightIsMatch(upper: char -> string, raw: string, last: Write)
    requires InAlphabet(raw)
    ensures last.Answer? ==>
              (IsRight(upper, raw, (last.allow, last.typed)) <==>
               last.allow && Compare(upper, last.typed, Format(raw)) == Match)
  {
    hide ALPHABET, Format, Compare, Normalise;
    if last.Answer? {
      CompareIs(upper, raw, (last.allow, last.typed));
    }
  }

  lemma LastWordIsRight(upper: char -> string, raw: string, actions: seq<Action>, toolId: string)
    ensures var last := LastWrite(actions, toolId);
            RightLastWord(upper, raw, actions, toolId) <==>
            last.Answer? && IsRight(upper, raw, (last.allow, last.typed))
  {
    hide LastWrite, Concerns, IsRight;
    var last := LastWrite(actions, toolId);
    if last.Answer? {
      LastWriteIs(actions, toolId, last.allow, last.typed);
      var k: nat :| LastWordAt(actions, k, toolId) && actions[k] == Respond(toolId, last.allow, last.typed);
      assert RightWordAt(upper, raw, actions, k, toolId) <==> IsRight(upper, raw, (last.allow, last.typed));
    }
    forall k: nat | RightWordAt(upper, raw, actions, k, toolId)
      ensures last == Answer(actions[k].allow, actions[k].typed)
    {
      AnswersItsCard(actions, k, toolId);
      LastWriteIs(actions, toolId, actions[k].allow, actions[k].typed);
    }
  }

  /** The last word on the tool's card is a yes with text that spells the code. */
  predicate RightLastWord(upper: char -> string, raw: string, actions: seq<Action>, toolId: string) {
    exists k :: 0 <= k < |actions| && RightWordAt(upper, raw, actions, k, toolId)
  }

  predicate RightWordAt(upper: char -> string, raw: string, actions: seq<Action>, k: nat, toolId: string) {
    && k < |actions| && LastWordAt(actions, k, toolId) && actions[k].Respond?
    && IsRight(upper, raw, (actions[k].allow, actions[k].typed))
  }

  lemma AnswersItsCard(actions: seq<Action>, k: nat, toolId: string)
    requires LastWordAt(actions, k, toolId) && actions[k].Respond?
    ensures actions[k] == Respond(toolId, actions[k].allow, actions[k].typed)
  {
  }

  /** Stop settles the standing card only until somebody answers it: an answer after it, before the pop, wins. */
  lemma StopCanBeOverwritten(upper: char -> string) returns (before: seq<Action>)
    ensures var actions := before + [Stop] + [Respond("tool", true, None)] + [Pop];
            && Happens(upper, actions)
            && End(upper, actions).desk.stopped && End(upper, actions).verdict == Some(Granted)
  {
    hide Compare, Happens, End, LastWrite;
    EndOfNothing(upper);
    NothingHappens(upper);
    var r0: seq<Action> := [];
    HappensBefore(upper, r0, Dequeue);
    var r1 := r0 + [Dequeue];
    HappensBefore(upper, r1, Request("tool", None));
    var r2 := r1 + [Request("tool", None)];
    HappensBefore(upper, r2, Register);
    var r3 := r2 + [Register];
    HappensBefore(upper, r3, Emit);
    before := r3 + [Emit];
    HappensBefore(upper, before, Stop);
    HappensBefore(upper, before + [Stop], Respond("tool", true, None));
    HappensBefore(upper, before + [Stop] + [Respond("tool", true, None)], Pop);
  }

  // ----- the arming loop, as the run shows it -------------------------------------------------------

  /** The request the worker last began asking: its code, and what `_ask_once` has come back with since. */
  datatype Exchange = Exchange(code: Option<string>, heard: seq<(bool, Option<string>)>)

  function Hearing(e: Option<Exchange>, a: (bool, Option<string>)): Option<Exchange> {
    if e.None? then None else Some(e.value.(heard := e.value.heard + [a]))
  }

  /** A card refused for the flag comes back as a no; a popped one with what was last written to it. */
  function Heard(upper: char -> string, actions: seq<Action>): Option<Exchange> {
    if actions == [] then None
    else
      var front, a := actions[..|actions| - 1], actions[|actions| - 1];
      var s, before := End(upper, front), Heard(upper, front);
      match a
      case Request(_, code) => if s.desk.stopped then None else Some(Exchange(code, []))
      case Register => if s.desk.stopped then Hearing(before, (false, None)) else before
      case Pop =>
        if !Enabled(s, Pop) then before
        else
          var waiter := s.desk.waiters[s.worker.card.toolId];
          Hearing(before, (waiter.allow, waiter.typed))
      case _ => before
  }

  function CardOf(w: Worker): Option<Card> {
    match w
    case Asking(card) => Some(card)
    case Emitting(card) => Some(card)
    case Waiting(card) => Some(card)
    case _ => None
  }

  /**
   While a card stands the loop is undecided and has used up what the card says; afterwards the
   verdict is its own.
   */
  predicate Follows(s: System, e: Option<Exchange>) {
    && (CardOf(s.worker).Some? ==> e.Some? && CardOf(s.worker).value.code == e.value.code)
    && (e.Some? && e.value.code.Some? ==>
          var settled := VerdictOf(s.upper, e.value.code.value, e.value.heard);
          match CardOf(s.worker)
          case Some(card) => settled.None? && |e.value.heard| == MAX_ATTEMPTS - card.attemptsLeft
          case None => settled.Some? && s.verdict == settled)
  }

  lemma StepFollows(upper: char -> string, front: seq<Action>, a: Action)
    requires Enabled(End(upper, front), a)
    requires Inv(End(upper, front)) && Follows(End(upper, front), Heard(upper, front))
    ensures Follows(End(upper, front + [a]), Heard(upper, front + [a]))
  {
    hide Compare, VerdictOf, Happens;
    var s, e, all := End(upper, front), Heard(upper, front), front + [a];
    assert all[..|front|] == front && all[|front|] == a;
    assert End(upper, all) == Step(s, a);
    match a
    case Request(_, code) =>
      if code.Some? {
        NothingHeard(upper, code.value);
      }
    case Register =>
      if e.Some? && e.value.code.Some? {
        VerdictMore(upper, e.value.code.value, e.value.heard, (false, None));
      }
    case Pop =>
      var waiter := s.desk.waiters[s.worker.card.toolId];
      if e.Some? && e.value.code.Some? {
        VerdictMore(upper, e.value.code.value, e.value.heard, (waiter.allow, waiter.typed));
      }
    case _ =>
  }

  /**
   In every run, an arming request ends in the verdict the arming loop gives for the answers it
   was given: what its cards were popped with, or a no where the flag kept one from standing.
   */
  lemma {:induction false} RunsAskWithKeyword(upper: char -> string, actions: seq<Action>)
    requires Happens(upper, actions)
    ensures Follows(End(upper, actions), Heard(upper, actions))
  {
    hide End, Heard, Follows, Happens, Inv, Enabled;
    if actions == [] {
      NothingFollows(upper);
    } else {
      var front, a := actions[..|actions| - 1], actions[|actions| - 1];
      assert actions == front + [a];
      HappensBefore(upper, front, a);
      RunsAskWithKeyword(upper, front);
      EveryRunKeepsInv(upper, front);
      StepFollows(upper, front, a);
    }
  }

  lemma NothingFollows(upper: char -> string)
    ensures Follows(End(upper, []), Heard(upper, []))
  {
  }

  /** So `AskWithKeyword`, given the answers a run gave its request, comes to the verdict the run did, with as many. */
  lemma LoopAndRunAgree(upper: char -> string, actions: seq<Action>, code: string,
                        answers: nat -> (bool, Option<string>),
                        verdict: Verdict, cards: nat)
    requires Happens(upper, actions) && CardOf(End(upper, actions).worker).None?
    requires Heard(upper, actions).Some? && Heard(upper, actions).value.code == Some(code)
    requires var heard := Heard(upper, actions).value.heard; heard == FirstOf(answers, |heard|)
    requires 1 <= cards
    requires VerdictOf(upper, code, FirstOf(answers, cards - 1)).None?
    requires VerdictOf(upper, code, FirstOf(answers, cards)) == Some(verdict)
    ensures End(upper, actions).verdict == Some(verdict)
  {
    hide End, Heard, Happens, VerdictOf;
    RunsAskWithKeyword(upper, actions);
    var n := |Heard(upper, actions).value.heard|;
    if n < cards {
      VerdictStays(upper, code, answers, n, cards - 1);
    } else {
      VerdictStays(upper, code, answers, cards, n);
    }
  }

  lemma {:induction false} VerdictStays(upper: char -> string, code: string, answers: nat -> (bool, Option<string>),
                                        m: nat, n: nat)
    requires m <= n && VerdictOf(upper, code, FirstOf(answers, m)).Some?
    ensures VerdictOf(upper, code, FirstOf(answers, n)) == VerdictOf(upper, code, FirstOf(answers, m))
    decreases n
  {
    hide VerdictOf;
    if m < n {
      VerdictStays(upper, code, answers, m, n - 1);
      VerdictMore(upper, code, FirstOf(answers, n - 1), answers(n - 1));
      assert FirstOf(answers, n) == FirstOf(answers, n - 1) + [answers(n - 1)];
    }
  }
}
