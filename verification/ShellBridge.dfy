/**
 Asking the shell: any number of threads, each with a numbered request parked in one map,
 and one reader that hands every answer to whoever is parked under its number.
 */
module ShellBridge {
  import opened Wrappers
  import opened Decimals

  /** What an answer carries; a missing result reads as empty. */
  datatype Answer = Answer(result: Option<string>, error: Option<string>)

  /** One parked request: the last answer written to it, None while its event is unset. */
  datatype Record = Record(written: Option<Answer>)

  datatype Bridge = Bridge(counter: nat, pending: map<string, Record>)

  datatype Outcome = Returned(result: Option<string>) | Refused(error: string) | TimedOut

  // ----- ids -----------------------------------------------------------------------------------

  function RequestId(n: nat): string {
    "core-req-" + Decimal(n)
  }

  /** No two numbers share an id. */
  lemma IdsAreDistinct(m: nat, n: nat)
    ensures RequestId(m) == RequestId(n) <==> m == n
  {
    if RequestId(m) == RequestId(n) {
      assert RequestId(m)[9..] == Decimal(m) && RequestId(n)[9..] == Decimal(n);
      DecimalReadsBack(m);
      DecimalReadsBack(n);
    }
  }

  // ----- the lock regions ------------------------------------------------------------------------

  function Parked(b: Bridge, id: string): Bridge {
    b.(pending := b.pending[id := Record(None)])
  }

  function Resolved(b: Bridge, id: string, a: Answer): Bridge {
    if id in b.pending then b.(pending := b.pending[id := Record(Some(a))]) else b
  }

  function Popped(b: Bridge, id: string): Bridge {
    b.(pending := b.pending - {id})
  }

  /** What a caller does with the record it popped; `woken` is what its wait returned. */
  function Settled(woken: bool, popped: Option<Record>): Outcome {
    if !woken || popped.None? || popped.value.written.None? then TimedOut
    else
      var a := popped.value.written.value;
      if a.error.Some? then Refused(a.error.value) else Returned(a.result)
  }

  class IpcShellBridge {
    var counter: nat
    var pending: map<string, Record>

    function State(): Bridge
      reads this
    {
      Bridge(counter, pending)
    }

    constructor ()
      ensures State() == Bridge(0, map[])
    {
      counter, pending := 0, map[];
    }

    method NextId() returns (id: string)
      modifies this
      ensures State() == old(State()).(counter := old(counter) + 1) && id == RequestId(old(counter) + 1)
    {
      counter := counter + 1;
      return RequestId(counter);
    }

    method Park(id: string)
      modifies this
      ensures State() == Parked(old(State()), id)
    {
      pending := pending[id := Record(None)];
    }

    /** The end of a call: its record comes out whatever its wait returned. */
    method Settle(id: string, woken: bool) returns (outcome: Outcome)
      modifies this
      ensures State() == Popped(old(State()), id)
      ensures outcome == Settled(woken, if id in old(pending) then Some(old(pending)[id]) else None)
    {
      var record := if id in pending then Some(pending[id]) else None;
      pending := pending - {id};
      if !woken {
        return TimedOut;
      }
      match record
      case None => return TimedOut;
      case Some(Record(None)) => return TimedOut;
      case Some(Record(Some(Answer(result, error)))) =>
        return if error.Some? then Refused(error.value) else Returned(result);
    }

    /** An answer wakes the call parked under its id; any other answer is nobody's. */
    method ResolveResponse(id: string, result: Option<string>, error: Option<string>) returns (matched: bool)
      modifies this
      ensures matched <==> id in old(pending)
      ensures State() == Resolved(old(State()), id, Answer(result, error))
    {
      if id !in pending {
        return false;
      }
      pending := pending[id := Record(Some(Answer(result, error)))];
      return true;
    }
  }

  // ----- any number of callers -------------------------------------------------------------------

  /** Where one call stands. `Lost` is a call whose request could not be written out. */
  datatype Call =
    | Numbered(n: nat)
    | Waiting(n: nat)
    | Leaving(n: nat, woken: bool)
    | Done(n: nat, outcome: Outcome)
    | Lost(n: nat)

  datatype Heard = Heard(id: string, answer: Answer, matched: bool)

  datatype System = System(bridge: Bridge, calls: map<nat, Call>, heard: seq<Heard>)

  datatype Action =
    | Take(c: nat)                   // a call takes its number
    | Park(c: nat)                   // and is parked, before its request goes out
    | SendFails(c: nat)
    | Wakes(c: nat)                  // its wait sees the event
    | GivesUp(c: nat)                // its wait runs out first
    | Pops(c: nat)
    | Hears(id: string, answer: Answer)

  const START := System(Bridge(0, map[]), map[], [])

  predicate Enabled(s: System, a: Action) {
    match a
    case Take(c) => c !in s.calls
    case Park(c) => c in s.calls && s.calls[c].Numbered?
    case SendFails(c) => c in s.calls && s.calls[c].Waiting?
    case Wakes(c) =>
      c in s.calls && s.calls[c].Waiting?
      && RequestId(s.calls[c].n) in s.bridge.pending && s.bridge.pending[RequestId(s.calls[c].n)].written.Some?
    case GivesUp(c) => c in s.calls && s.calls[c].Waiting?
    case Pops(c) => c in s.calls && s.calls[c].Leaving?
    case Hears(_, _) => true
  }

  function Next(s: System, a: Action): System
    requires Enabled(s, a)
  {
    match a
    case Take(c) =>
      s.(bridge := s.bridge.(counter := s.bridge.counter + 1), calls := s.calls[c := Numbered(s.bridge.counter + 1)])
    case Park(c) => s.(bridge := Parked(s.bridge, RequestId(s.calls[c].n)),
        calls := s.calls[c := Waiting(s.calls[c].n)])
    case SendFails(c) => s.(calls := s.calls[c := Lost(s.calls[c].n)])
    case Wakes(c) => s.(calls := s.calls[c := Leaving(s.calls[c].n, true)])
    case GivesUp(c) => s.(calls := s.calls[c := Leaving(s.calls[c].n, false)])
    case Pops(c) =>
      var id := RequestId(s.calls[c].n);
      var popped := if id in s.bridge.pending then Some(s.bridge.pending[id]) else None;
      s.(bridge := Popped(s.bridge, id), calls := s.calls[c := Done(s.calls[c].n, Settled(s.calls[c].woken, popped))])
    case Hears(id, answer) =>
      s.(bridge := Resolved(s.bridge, id, answer), heard := s.heard + [Heard(id, answer, id in s.bridge.pending)])
  }

  function After(actions: seq<Action>): System {
    if actions == [] then START
    else
      var s, a := After(actions[..|actions| - 1]), actions[|actions| - 1];
      if Enabled(s, a) then Next(s, a) else s
  }

  // ----- what every run keeps ---------------------------------------------------------------------

  /** The last answer handed to this id. */
  function LastAnswer(heard: seq<Heard>, id: string): Option<Answer> {
    if heard == [] then None
    else
      var h := heard[|heard| - 1];
      if h.matched && h.id == id then Some(h.answer) else LastAnswer(heard[..|heard| - 1], id)
  }

  predicate Holds(call: Call) {
    call.Waiting? || call.Leaving? || call.Lost?
  }

  /** One call, and what the map says of it. */
  predicate CallOk(s: System, call: Call) {
    var id := RequestId(call.n);
    var last := LastAnswer(s.heard, id);
    && 1 <= call.n <= s.bridge.counter
    && (id in s.bridge.pending <==> Holds(call))
    && (Holds(call) ==> s.bridge.pending[id].written == last)
    && (call.Numbered? ==> last.None?)
    && (call.Leaving? && call.woken ==> last.Some?)
    && (call.Done? && !call.outcome.TimedOut? ==> last.Some? && call.outcome == Settled(true, Some(Record(last))))
  }

  ghost predicate Distinct(calls: map<nat, Call>) {
    forall c, d :: c in calls && d in calls && c != d ==> calls[c].n != calls[d].n
  }

  ghost predicate Owned(s: System, id: string) {
    exists c :: c in s.calls && id == RequestId(s.calls[c].n)
  }

  ghost predicate Inv(s: System) {
    && Distinct(s.calls)
    && (forall c :: c in s.calls ==> CallOk(s, s.calls[c]))
    && (forall id :: id in s.bridge.pending ==> Owned(s, id))
    && (forall n :: n > s.bridge.counter ==> LastAnswer(s.heard, RequestId(n)).None?)
  }

  lemma HeardMore(heard: seq<Heard>, h: Heard, id: string)
    ensures LastAnswer(heard + [h], id) == if h.matched && h.id == id then Some(h.answer) else LastAnswer(heard, id)
  {
    assert (heard + [h])[..|heard|] == heard;
  }

  predicate SameElsewhere(b: Bridge, b': Bridge, id: string) {
    b'.pending - {id} == b.pending - {id}
  }

  lemma Elsewhere(b: Bridge, b': Bridge, id: string, other: string)
    requires SameElsewhere(b, b', id) && other != id
    ensures other in b'.pending <==> other in b.pending
    ensures other in b.pending ==> b'.pending[other] == b.pending[other]
  {
    assert other in b.pending <==> other in b.pending - {id};
    assert other in b'.pending <==> other in b'.pending - {id};
    if other in b.pending {
      assert (b'.pending - {id})[other] == (b.pending - {id})[other];
    }
  }

  /** A call's step changes only what is kept under its own id. */
  lemma OthersKeep(s: System, s': System, n: nat, call: Call)
    requires CallOk(s, call) && call.n != n
    requires s'.heard == s.heard && s'.bridge.counter >= s.bridge.counter
    requires SameElsewhere(s.bridge, s'.bridge, RequestId(n))
    ensures CallOk(s', call)
  {
    hide RequestId, LastAnswer;
    IdsAreDistinct(call.n, n);
    Elsewhere(s.bridge, s'.bridge, RequestId(n), RequestId(call.n));
  }

  /** One call moving on, its number kept: nobody else's part is touched. */
  lemma MoveKeepsInv(s: System, s': System, c: nat)
    requires Inv(s) && c in s.calls && c in s'.calls && s'.calls == s.calls[c := s'.calls[c]]
    requires s'.calls[c].n == s.calls[c].n
    requires s'.heard == s.heard && s'.bridge.counter == s.bridge.counter
    requires SameElsewhere(s.bridge, s'.bridge, RequestId(s.calls[c].n))
    requires CallOk(s', s'.calls[c])
    ensures Inv(s')
  {
    hide RequestId, LastAnswer, CallOk, SameElsewhere;
    var n := s.calls[c].n;
    forall d | d in s'.calls ensures CallOk(s', s'.calls[d]) {
      if d != c {
        OthersKeep(s, s', n, s.calls[d]);
      }
    }
    forall id | id in s'.bridge.pending ensures Owned(s', id) {
      if id != RequestId(n) {
        Elsewhere(s.bridge, s'.bridge, RequestId(n), id);
        var d :| d in s.calls && id == RequestId(s.calls[d].n);
        assert id == RequestId(s'.calls[d].n);
      } else {
        assert id == RequestId(s'.calls[c].n);
      }
    }
  }

  lemma TakeKeepsInv(s: System, c: nat)
    requires Inv(s) && Enabled(s, Take(c))
    ensures Inv(Next(s, Take(c)))
  {
    hide RequestId, LastAnswer;
    var s' := Next(s, Take(c));
    var n := s.bridge.counter + 1;
    assert RequestId(n) !in s.bridge.pending by {
      if RequestId(n) in s.bridge.pending {
        var d :| d in s.calls && RequestId(n) == RequestId(s.calls[d].n);
        assert CallOk(s, s.calls[d]);
        IdsAreDistinct(n, s.calls[d].n);
      }
    }
    forall d | d in s'.calls ensures CallOk(s', s'.calls[d]) && (d != c ==> s'.calls[d].n < n) {
      if d != c {
        assert CallOk(s, s.calls[d]);
        OthersKeep(s, s', n, s.calls[d]);
      }
    }
    forall id | id in s'.bridge.pending ensures Owned(s', id) {
      var d :| d in s.calls && id == RequestId(s.calls[d].n);
      assert id == RequestId(s'.calls[d].n);
    }
  }

  /** An answer reaches the one call parked under its id, or nobody. */
  lemma HearKeepsInv(s: System, id: string, answer: Answer)
    requires Inv(s)
    ensures Inv(Next(s, Hears(id, answer)))
  {
    hide RequestId, LastAnswer;
    var s' := Next(s, Hears(id, answer));
    var h := Heard(id, answer, id in s.bridge.pending);
    forall c | c in s'.calls ensures CallOk(s', s'.calls[c]) {
      assert CallOk(s, s.calls[c]);
      HeardMore(s.heard, h, RequestId(s.calls[c].n));
    }
    forall n | n > s'.bridge.counter ensures LastAnswer(s'.heard, RequestId(n)).None? {
      HeardMore(s.heard, h, RequestId(n));
      if h.matched && id == RequestId(n) {
        var d :| d in s.calls && id == RequestId(s.calls[d].n);
        assert CallOk(s, s.calls[d]);
        IdsAreDistinct(n, s.calls[d].n);
      }
    }
    forall other | other in s'.bridge.pending ensures Owned(s', other) {
      var d :| d in s.calls && other == RequestId(s.calls[d].n);
      assert other == RequestId(s'.calls[d].n);
    }
  }

  lemma StepKeepsInv(s: System, a: Action)
    requires Inv(s) && Enabled(s, a)
    ensures Inv(Next(s, a))
  {
    hide RequestId, LastAnswer, Distinct, Owned;
    match a
    case Take(c) => TakeKeepsInv(s, c);
    case Hears(id, answer) => HearKeepsInv(s, id, answer);
    case Park(c) =>
      assert CallOk(s, s.calls[c]);
      MoveKeepsInv(s, Next(s, a), c);
    case SendFails(c) =>
      assert CallOk(s, s.calls[c]);
      MoveKeepsInv(s, Next(s, a), c);
    case Wakes(c) =>
      assert CallOk(s, s.calls[c]);
      MoveKeepsInv(s, Next(s, a), c);
    case GivesUp(c) =>
      assert CallOk(s, s.calls[c]);
      MoveKeepsInv(s, Next(s, a), c);
    case Pops(c) =>
      assert CallOk(s, s.calls[c]);
      MoveKeepsInv(s, Next(s, a), c);
  }

  lemma {:induction false} EveryRunKeepsInv(actions: seq<Action>)
    ensures Inv(After(actions))
  {
    hide Inv, Next, Enabled;
    if actions == [] {
      StartIsOk();
    } else {
      var s, a := After(actions[..|actions| - 1]), actions[|actions| - 1];
      EveryRunKeepsInv(actions[..|actions| - 1]);
      if Enabled(s, a) {
        StepKeepsInv(s, a);
      }
    }
  }

  lemma StartIsOk()
    ensures Inv(START)
  {
  }

  // ----- what it promises -------------------------------------------------------------------------

  predicate InFlight(s: System, c: nat) {
    c in s.calls && Holds(s.calls[c])
  }

  /**
   Over any interleaving of callers, timeouts and answers: no two calls share an id; the map
   holds exactly the calls still out, and those whose request could not be written; and a
   call that comes back with something comes back with the last answer its own id was given.
   */
  lemma AnswersFindTheirCall(actions: seq<Action>)
    ensures var s := After(actions);
            && (forall c, d :: c in s.calls && d in s.calls && c != d ==>
                RequestId(s.calls[c].n) != RequestId(s.calls[d].n))
            && (forall c :: c in s.calls ==> (RequestId(s.calls[c].n) in s.bridge.pending <==> InFlight(s, c)))
            && (forall id :: id in s.bridge.pending ==> exists c :: InFlight(s, c) && id == RequestId(s.calls[c].n))
            && (forall c :: c in s.calls && s.calls[c].Done? && !s.calls[c].outcome.TimedOut? ==>
                  exists a :: LastAnswer(s.heard, RequestId(s.calls[c].n)) == Some(a)
                              && s.calls[c].outcome == if a.error.Some? then Refused(a.error.value)
                                  else Returned(a.result))
  {
    hide After, RequestId, LastAnswer;
    EveryRunKeepsInv(actions);
    var s := After(actions);
    forall c, d | c in s.calls && d in s.calls && c != d ensures RequestId(s.calls[c].n) != RequestId(s.calls[d].n) {
      IdsAreDistinct(s.calls[c].n, s.calls[d].n);
    }
    forall id | id in s.bridge.pending ensures exists c :: InFlight(s, c) && id == RequestId(s.calls[c].n) {
      assert Owned(s, id);
      var c :| c in s.calls && id == RequestId(s.calls[c].n);
      assert CallOk(s, s.calls[c]);
      assert InFlight(s, c);
    }
    forall c | c in s.calls && s.calls[c].Done? && !s.calls[c].outcome.TimedOut?
      ensures exists a :: LastAnswer(s.heard, RequestId(s.calls[c].n)) == Some(a)
                          && s.calls[c].outcome == if a.error.Some? then Refused(a.error.value) else Returned(a.result)
    {
      assert CallOk(s, s.calls[c]);
      assert LastAnswer(s.heard, RequestId(s.calls[c].n)) == Some(LastAnswer(s.heard, RequestId(s.calls[c].n)).value);
    }
  }

  /** The last answer under an id is the last one heard that found somebody parked under it. */
  lemma {:induction false} LastAnswerIs(heard: seq<Heard>, id: string, a: Answer)
    ensures LastAnswer(heard, id) == Some(a) <==>
              exists k :: 0 <= k < |heard| && heard[k] == Heard(id, a, true)
                          && forall j :: k < j < |heard| ==> !(heard[j].matched && heard[j].id == id)
  {
    if heard != [] {
      var n := |heard| - 1;
      hide LastAnswer;
      assert heard == heard[..n] + [heard[n]];
      HeardMore(heard[..n], heard[n], id);
      if !(heard[n].matched && heard[n].id == id) {
        LastAnswerIs(heard[..n], id, a);
        assert forall k :: 0 <= k < n ==> heard[..n][k] == heard[k];
      } else if heard[n].answer == a {
        assert heard[n] == Heard(id, a, true);
      }
    }
  }

  /** A call whose wait saw the event comes back with the last answer under its id; any other has timed out. */
  lemma PopSays(actions: seq<Action>, c: nat)
    requires Enabled(After(actions), Pops(c))
    ensures var s, s' := After(actions), Next(After(actions), Pops(c));
            var last := LastAnswer(s.heard, RequestId(s.calls[c].n));
            && c in s'.calls && s'.calls[c].Done? && s'.calls[c].n == s.calls[c].n
            && (s.calls[c].woken ==>
                  && last.Some?
                  && s'.calls[c].outcome == if last.value.error.Some? then Refused(last.value.error.value)
                                            else Returned(last.value.result))
            && (!s.calls[c].woken ==> s'.calls[c].outcome == TimedOut)
  {
    hide After, RequestId, LastAnswer;
    EveryRunKeepsInv(actions);
    assert CallOk(After(actions), After(actions).calls[c]);
  }

  /** An answer under the id of a call that is over, or under no call's id, changes nothing for anyone. */
  lemma LateAnswersAreNobodys(actions: seq<Action>, id: string, answer: Answer)
    requires forall c :: InFlight(After(actions), c) ==> RequestId(After(actions).calls[c].n) != id
    ensures var s := After(actions);
            Next(s, Hears(id, answer)) == s.(heard := s.heard + [Heard(id, answer, false)])
  {
    hide After, RequestId;
    AnswersFindTheirCall(actions);
  }

  lemma DoneStaysDone(s: System, a: Action, c: nat)
    requires Enabled(s, a) && c in s.calls && s.calls[c].Done?
    ensures c in Next(s, a).calls && Next(s, a).calls[c] == s.calls[c]
  {
  }

  /** What a call came back with is settled: nothing that happens after it changes it. */
  lemma {:induction false} OutcomesAreFinal(before: seq<Action>, after: seq<Action>, c: nat)
    requires c in After(before).calls && After(before).calls[c].Done?
    ensures c in After(before + after).calls && After(before + after).calls[c] == After(before).calls[c]
    decreases |after|
  {
    hide Next, Enabled;
    var all := before + after;
    if after == [] {
      assert all == before;
    } else {
      var front, a := after[..|after| - 1], after[|after| - 1];
      assert all[..|all| - 1] == before + front && all[|all| - 1] == a;
      OutcomesAreFinal(before, front, c);
      if Enabled(After(before + front), a) {
        DoneStaysDone(After(before + front), a, c);
      }
    }
  }
}
