/**
 Listening to a phone. On this transport asking past an update is what makes it forget it,
 so the loop hands every message of a batch to the worker before it moves its cursor.
 */
module PollLoop {
  import opened Wrappers

  // ----- one batch, as the adapter reads it ------------------------------------------------

  /** What a sender block says; `id` is None when the transport did not name them. */
  datatype Sender = Sender(id: Option<string>, isBot: bool)

  /** `text` is already cleaned; absent blocks are None. */
  datatype Body = Body(text: string, sender: Option<Sender>, chat: Option<Option<string>>)

  /** One entry of a batch as it arrives: not an object at all, or an update with what it carries. */
  datatype Update = Junk | Update(id: Option<int>, message: Option<Body>)

  datatype Inbound = Inbound(updateId: Option<int>, chatId: string, senderId: string, text: string)

  datatype PollResult = PollResult(messages: seq<Inbound>, nextCursor: Option<int>, dropped: nat)

  /** The message a person typed, or None for everything that is not one. */
  function MessageFrom(u: Update): Option<Inbound> {
    if u.Junk? || u.message.None? then None
    else
      var m := u.message.value;
      if m.text == "" || m.sender.None? || m.chat.None? then None
      else if m.sender.value.id.None? || m.chat.value.None? then None
      else if m.sender.value.isBot then None
      else Some(Inbound(u.id, m.chat.value.value, m.sender.value.id.value, m.text))
  }

  /** The update is a message somebody typed: not a bot, named, in a named chat, and with text. */
  predicate Typed(u: Update, m: Inbound) {
    m.text != ""
    && u == Update(m.updateId, Some(Body(m.text, Some(Sender(Some(m.senderId), false)), Some(Some(m.chatId)))))
  }

  lemma TypedIs(u: Update, m: Inbound)
    ensures MessageFrom(u) == Some(m) <==> Typed(u, m)
  {
    if MessageFrom(u) == Some(m) {
      var body := u.message.value;
      assert u == Update(u.id, Some(body)) && body == Body(body.text, body.sender, body.chat);
      assert body.chat == Some(Some(m.chatId)) && body.sender == Some(Sender(Some(m.senderId), false));
    }
  }

  predicate HasId(u: Update) {
    u.Update? && u.id.Some?
  }

  function Shaped(updates: seq<Update>): seq<Inbound> {
    if updates == [] then []
    else
      var k := |updates| - 1;
      Shaped(updates[..k]) +
      match MessageFrom(updates[k]) case Some(m) => [m] case None => []
  }

  function HighestId(updates: seq<Update>): Option<int> {
    if updates == [] then None
    else
      var k := |updates| - 1;
      var before := HighestId(updates[..k]);
      if !HasId(updates[k]) then before
      else if before.None? || before.value < updates[k].id.value then updates[k].id
      else before
  }

  /** The cursor moves past everything in the batch, and stays put when nothing in it has an id. */
  function NextCursor(updates: seq<Update>, cursor: Option<int>): Option<int> {
    var highest := HighestId(updates);
    if highest.Some? then Some(highest.value + 1) else cursor
  }

  lemma {:induction false} HighestIsHighest(updates: seq<Update>)
    ensures HighestId(updates).None? <==> forall k :: 0 <= k < |updates| ==> !HasId(updates[k])
    ensures HighestId(updates).Some? ==>
              && (forall k :: 0 <= k < |updates| && HasId(updates[k]) ==>
                  updates[k].id.value <= HighestId(updates).value)
              && (exists k :: 0 <= k < |updates| && HasId(updates[k]) && updates[k].id == HighestId(updates))
  {
    if updates != [] {
      var n := |updates| - 1;
      HighestIsHighest(updates[..n]);
      if HasId(updates[n]) {
        assert forall k :: 0 <= k < n ==> updates[..n][k] == updates[k];
      } else if HighestId(updates).Some? {
        var k :| 0 <= k < n && HasId(updates[..n][k]) && updates[..n][k].id == HighestId(updates);
        assert HasId(updates[k]);
      }
    }
  }

  /** Reading a batch: every message a person typed, in order; the rest counted; the cursor past all of it. */
  method ReadBatch(updates: seq<Update>, cursor: Option<int>) returns (r: PollResult)
    ensures r.messages == Shaped(updates)
    ensures r.dropped + |r.messages| == |updates|
    ensures r.nextCursor == NextCursor(updates, cursor)
  {
    var messages, dropped, highest: Option<int> := [], 0, None;
    for i := 0 to |updates|
      invariant messages == Shaped(updates[..i]) && dropped + |messages| == i
      invariant highest == HighestId(updates[..i])
    {
      var update := updates[i];
      assert updates[..i + 1][..i] == updates[..i];
      if update.Junk? {
        dropped := dropped + 1;
        continue;
      }
      if update.id.Some? {
        highest := Some(if highest.None? || highest.value < update.id.value then update.id.value else highest.value);
      }
      match MessageFrom(update) {
        case None => dropped := dropped + 1;
        case Some(m) => messages := messages + [m];
      }
    }
    assert updates[..|updates|] == updates;
    return PollResult(messages, if highest.Some? then Some(highest.value + 1) else cursor, dropped);
  }

  // ----- the loop --------------------------------------------------------------------------

  /** What one pass finds: the keychain unreadable, no token, a refusal, an outage, or a batch. */
  datatype Found = Unreadable | NoToken | Refused | Outage | Batch(updates: seq<Update>)

  datatype Event = Asked(cursor: Option<int>) | Got(updates: seq<Update>) | HandedOn(message: Inbound)

  function HandedOf(log: seq<Event>): seq<Inbound> {
    if log == [] then []
    else HandedOf(log[..|log| - 1]) + if log[|log| - 1].HandedOn? then [log[|log| - 1].message] else []
  }

  function ReadOf(log: seq<Event>): seq<Inbound> {
    if log == [] then []
    else ReadOf(log[..|log| - 1]) + if log[|log| - 1].Got? then Shaped(log[|log| - 1].updates) else []
  }

  function CursorOf(log: seq<Event>): Option<int> {
    if log == [] then None
    else
      var before := CursorOf(log[..|log| - 1]);
      if log[|log| - 1].Got? then NextCursor(log[|log| - 1].updates, before) else before
  }

  /**
   The loop's contract with the transport: whenever it asks, the cursor is past exactly the
   batches it has read, and every message in them has been handed on, in order, once.
   */
  predicate AsksAfterHandingOn(log: seq<Event>) {
    forall p :: 0 <= p < |log| && log[p].Asked? ==>
      log[p].cursor == CursorOf(log[..p]) && HandedOf(log[..p]) == ReadOf(log[..p])
  }

  lemma LogMore(log: seq<Event>, e: Event)
    ensures HandedOf(log + [e]) == HandedOf(log) + if e.HandedOn? then [e.message] else []
    ensures ReadOf(log + [e]) == ReadOf(log) + if e.Got? then Shaped(e.updates) else []
    ensures CursorOf(log + [e]) == if e.Got? then NextCursor(e.updates, CursorOf(log)) else CursorOf(log)
    ensures AsksAfterHandingOn(log) && (e.Asked? ==> e.cursor == CursorOf(log) && HandedOf(log) == ReadOf(log)) ==>
              AsksAfterHandingOn(log + [e])
  {
    var all := log + [e];
    assert all[..|log|] == log;
    assert forall p :: 0 <= p < |log| ==> all[..p] == log[..p] && all[p] == log[p];
  }

  // What one loop is between events, and what each event makes of it.

  datatype Loop =
    | Ready(cursor: Option<int>, stopped: bool)
    | Handing(messages: seq<Inbound>, next: Option<int>, stopped: bool)
    | Gone

  /** A batch comes back: taken in hand, or left at the transport by a loop that has been stopped. */
  function Polled(loop: Loop, batch: seq<Update>): Loop
    requires loop.Ready?
  {
    if loop.stopped then Gone else Handing(Shaped(batch), NextCursor(batch, loop.cursor), false)
  }

  function HandedOne(loop: Loop): Loop
    requires loop.Handing? && loop.messages != []
  {
    loop.(messages := loop.messages[1..])
  }

  function Advanced(loop: Loop): Loop
    requires loop.Handing? && loop.messages == []
  {
    Ready(loop.next, loop.stopped)
  }

  /** A loop with nothing in hand stands at its next cursor. */
  function Rested(loop: Loop): Loop {
    if loop.Handing? && loop.messages == [] then Advanced(loop) else loop
  }

  /** The loop a log leaves, None when the log is not one a loop could make. */
  function LoopAfter(log: seq<Event>): Option<Loop> {
    if log == [] then Some(Ready(None, false))
    else
      var front, e := log[..|log| - 1], log[|log| - 1];
      if LoopAfter(front).None? then None
      else
        var loop := LoopAfter(front).value;
        match e
        case Asked(cursor) => if Rested(loop).Ready? && Rested(loop).cursor == cursor then Some(Rested(loop)) else None
        case Got(batch) =>
          if loop.Ready? && front != [] && front[|front| - 1].Asked? then Some(Polled(loop, batch)) else None
        case HandedOn(m) =>
          if loop.Handing? && loop.messages != [] && loop.messages[0] == m then Some(HandedOne(loop)) else None
  }

  lemma LoopMore(log: seq<Event>, e: Event)
    requires LoopAfter(log).Some?
    ensures var loop := LoopAfter(log).value;
            LoopAfter(log + [e]) ==
              match e
              case Asked(cursor) => if Rested(loop).Ready? && Rested(loop).cursor == cursor then Some(Rested(loop))
                  else None
              case Got(batch) =>
                if loop.Ready? && log != [] && log[|log| - 1].Asked? then Some(Polled(loop, batch)) else None
              case HandedOn(m) =>
                if loop.Handing? && loop.messages != [] && loop.messages[0] == m then Some(HandedOne(loop)) else None
  {
    assert (log + [e])[..|log|] == log;
  }

  /** What a log says has been read and handed on is what its loop's cursor and hands say. */
  predicate LogFits(log: seq<Event>) {
    LoopAfter(log).Some? ==>
      && AsksAfterHandingOn(log)
      && match LoopAfter(log).value
         case Ready(cursor, stopped) => cursor == CursorOf(log) && HandedOf(log) == ReadOf(log) && !stopped
         case Handing(messages, next, stopped) =>
           next == CursorOf(log) && HandedOf(log) + messages == ReadOf(log) && !stopped
         case Gone => false
  }

  /** Every log a loop can make keeps the contract with the transport. */
  lemma {:induction false} LogsFit(log: seq<Event>)
    ensures LogFits(log)
  {
    hide AsksAfterHandingOn, HandedOf, ReadOf, CursorOf, Shaped, NextCursor, LoopAfter, LogFits;
    if log == [] {
      EmptyFits();
    } else {
      var front, e := log[..|log| - 1], log[|log| - 1];
      assert log == front + [e];
      LogsFit(front);
      OneMoreFits(front, e);
    }
  }

  lemma EmptyFits()
    ensures LogFits([])
  {
  }

  lemma OneMoreFits(log: seq<Event>, e: Event)
    requires LogFits(log)
    ensures LogFits(log + [e])
  {
    hide AsksAfterHandingOn, HandedOf, ReadOf, CursorOf, Shaped, NextCursor;
    if LoopAfter(log).Some? {
      LogMore(log, e);
      LoopMore(log, e);
      hide LoopAfter;
      var loop := LoopAfter(log).value;
      assert HandedOf(log) + [] == HandedOf(log) && ReadOf(log) + [] == ReadOf(log);
      if e.HandedOn? && loop.Handing? && loop.messages != [] {
        assert HandedOf(log) + loop.messages == HandedOf(log) + [loop.messages[0]] + loop.messages[1..];
      }
    } else {
      NoMore(log, e);
    }
  }

  lemma NoMore(log: seq<Event>, e: Event)
    requires LoopAfter(log).None?
    ensures LoopAfter(log + [e]).None?
  {
    assert (log + [e])[..|log|] == log;
  }

  /** The batches a log has read, and those the first `n` passes find. */
  function BatchesOf(log: seq<Event>): seq<seq<Update>> {
    if log == [] then []
    else BatchesOf(log[..|log| - 1]) + if log[|log| - 1].Got? then [log[|log| - 1].updates] else []
  }

  function BatchesFound(found: nat -> Found, n: nat): seq<seq<Update>> {
    if n == 0 then []
    else BatchesFound(found, n - 1) + if found(n - 1).Batch? then [found(n - 1).updates] else []
  }

  lemma BatchesMore(log: seq<Event>, e: Event)
    ensures BatchesOf(log + [e]) == BatchesOf(log) + if e.Got? then [e.updates] else []
  {
    assert (log + [e])[..|log|] == log;
  }

  /** The loop was still listening before its n-th pass: no token gone and none refused. */
  predicate StillListens(found: nat -> Found, n: nat) {
    forall k :: 0 <= k < n ==> !found(k).NoToken? && !found(k).Refused?
  }

  /** Why the loop ended with its n-th pass. */
  ghost predicate EndsAt(found: nat -> Found, stopSeen: nat -> bool, lifetime: nat, n: nat) {
    && n <= lifetime
    && (n > 0 ==> StillListens(found, n - 1))
    && (n == lifetime || (exists look :: stopSeen(look)) || (n > 0 && (found(n - 1).NoToken? || found(n - 1).Refused?)))
  }

  /** The loop itself, over `lifetime` passes at most; `stopSeen` answers its looks at the stop event. */
  method Listen(found: nat -> Found, stopSeen: nat -> bool, lifetime: nat) returns (log: seq<Event>)
    ensures LoopAfter(log).Some? && AsksAfterHandingOn(log)
    ensures HandedOf(log) <= ReadOf(log)
    ensures log != [] && !log[|log| - 1].Got? ==> HandedOf(log) == ReadOf(log)
    ensures exists n :: EndsAt(found, stopSeen, lifetime, n) && BatchesOf(log) == BatchesFound(found, n)
  {
    hide Shaped, NextCursor, BatchesOf, HandedOf, ReadOf, CursorOf, AsksAfterHandingOn, LoopAfter;
    log := [];
    EmptyLog();
    var cursor: Option<int>, pass, looks := None, 0, 0;
    while pass < lifetime
      invariant LoopAfter(log).Some? && Rested(LoopAfter(log).value) == Ready(cursor, false)
      invariant pass <= lifetime && StillListens(found, pass) && BatchesOf(log) == BatchesFound(found, pass)
    {
      LogsFit(log);
      if stopSeen(looks) {
        assert EndsAt(found, stopSeen, lifetime, pass);
        return;
      }
      looks := looks + 1;
      var outcome := found(pass);
      pass := pass + 1;
      if outcome.Unreadable? {
        continue;
      }
      if outcome.NoToken? {
        assert EndsAt(found, stopSeen, lifetime, pass);
        return;
      }
      LoopMore(log, Asked(cursor));
      BatchesMore(log, Asked(cursor));
      log := log + [Asked(cursor)];
      LogsFit(log);
      if outcome.Refused? {
        assert EndsAt(found, stopSeen, lifetime, pass);
        return;
      }
      if outcome.Outage? {
        continue;
      }
      var result := ReadBatch(outcome.updates, cursor);
      LoopMore(log, Got(outcome.updates));
      BatchesMore(log, Got(outcome.updates));
      log := log + [Got(outcome.updates)];
      LogsFit(log);
      if stopSeen(looks) {
        assert EndsAt(found, stopSeen, lifetime, pass);
        return;
      }
      looks := looks + 1;
      assert result.messages[0..] == result.messages;
      for i := 0 to |result.messages|
        invariant LoopAfter(log) == Some(Handing(result.messages[i..], result.nextCursor, false))
        invariant BatchesOf(log) == BatchesFound(found, pass)
      {
        BatchesMore(log, HandedOn(result.messages[i]));
        assert result.messages[i..][1..] == result.messages[i + 1..];
        LoopMore(log, HandedOn(result.messages[i]));
        log := log + [HandedOn(result.messages[i])];
      }
      cursor := result.nextCursor;
    }
    LogsFit(log);
    assert EndsAt(found, stopSeen, lifetime, pass);
  }

  lemma EmptyLog()
    ensures AsksAfterHandingOn([]) && HandedOf([]) == [] == ReadOf([]) && CursorOf([]) == None
    ensures LoopAfter([]) == Some(Ready(None, false)) && BatchesOf([]) == []
  {
  }

  // ----- the transport, and any number of loops ---------------------------------------------

  /**
   The transport holds the updates it has not been told to forget, in id order: the tail of
   `arrived` from position `kept`.
   */
  /** `delivered` are the messages put on the worker queue, with the loop that put them there. */
  datatype World = World(arrived: seq<Update>, kept: nat, loops: map<nat, Loop>, delivered: seq<(nat, Inbound)>)

  datatype Action =
    | Arrive(update: Update)
    | StartLoop(l: nat)
    | StopLoop(l: nat)
    | Leave(l: nat)                          // stop seen, no token, token refused, or a crash
    | PollFails(l: nat, reached: bool)       // an outage, before or after the transport saw the ask
    | PollAnswers(l: nat, count: nat)        // a batch: the first `count` updates still held
    | HandOne(l: nat)
    | Advance(l: nat)
    | CrashAll

  const NOTHING := World([], 0, map[], [])

  /** Asking with a cursor makes the transport forget everything below it. */
  function Forgotten(arrived: seq<Update>, kept: nat, cursor: Option<int>): nat
    decreases |arrived| - kept
  {
    if cursor.Some? && kept < |arrived| && HasId(arrived[kept]) && arrived[kept].id.value < cursor.value
    then Forgotten(arrived, kept + 1, cursor)
    else kept
  }

  function Confirm(w: World, cursor: Option<int>): World {
    w.(kept := Forgotten(w.arrived, w.kept, cursor))
  }

  predicate Enabled(w: World, a: Action) {
    match a
    case Arrive(u) => HasId(u)
        && (w.arrived != [] ==> HasId(w.arrived[|w.arrived| - 1]) && w.arrived[|w.arrived| - 1].id.value < u.id.value)
    case StartLoop(l) => l !in w.loops
    case StopLoop(l) => l in w.loops && !w.loops[l].Gone?
    case Leave(l) => l in w.loops && !w.loops[l].Gone?
    case PollFails(l, _) => l in w.loops && w.loops[l].Ready?
    case PollAnswers(l, count) =>
      l in w.loops && w.loops[l].Ready? && Confirm(w, w.loops[l].cursor).kept + count <= |w.arrived|
    case HandOne(l) => l in w.loops && w.loops[l].Handing? && w.loops[l].messages != []
    case Advance(l) => l in w.loops && w.loops[l].Handing? && w.loops[l].messages == []
    case CrashAll => true
  }

  function Next(w: World, a: Action): World
    requires Enabled(w, a)
  {
    match a
    case Arrive(u) => w.(arrived := w.arrived + [u])
    case StartLoop(l) => w.(loops := w.loops[l := Ready(None, false)])
    case StopLoop(l) => w.(loops := w.loops[l := w.loops[l].(stopped := true)])
    case Leave(l) => w.(loops := w.loops[l := Gone])
    case PollFails(l, reached) => if reached then Confirm(w, w.loops[l].cursor) else w
    case PollAnswers(l, count) =>
      var loop := w.loops[l];
      var c := Confirm(w, loop.cursor);
      var batch := c.arrived[c.kept..c.kept + count];
      c.(loops := c.loops[l := Polled(loop, batch)])
    case HandOne(l) =>
      var loop := w.loops[l];
      w.(loops := w.loops[l := HandedOne(loop)],
         delivered := w.delivered + [(l, loop.messages[0])])
    case Advance(l) => w.(loops := w.loops[l := Advanced(w.loops[l])])
    case CrashAll => w.(loops := map l | l in w.loops :: Gone)
  }

  function After(actions: seq<Action>): World {
    if actions == [] then NOTHING
    else
      var w, a := After(actions[..|actions| - 1]), actions[|actions| - 1];
      if Enabled(w, a) then Next(w, a) else w
  }

  // ----- each loop's own log ---------------------------------------------------------------------

  /** What one step adds to the log of loop `l`. */
  function EventsOf(w: World, a: Action, l: nat): seq<Event>
    requires Enabled(w, a)
  {
    match a
    case PollFails(j, _) => if j == l then [Asked(w.loops[l].cursor)] else []
    case PollAnswers(j, count) =>
      if j != l then []
      else
        var c := Confirm(w, w.loops[l].cursor);
        [Asked(w.loops[l].cursor)] + [Got(c.arrived[c.kept..c.kept + count])]
    case HandOne(j) => if j == l then [HandedOn(w.loops[l].messages[0])] else []
    case _ => []
  }

  function LogOf(actions: seq<Action>, l: nat): seq<Event> {
    if actions == [] then []
    else
      var front, a := actions[..|actions| - 1], actions[|actions| - 1];
      LogOf(front, l) + if Enabled(After(front), a) then EventsOf(After(front), a, l) else []
  }

  /** The loop as its log has it, but for the stop it has not yet seen and an advance the log does not show. */
  predicate Matches(loop: Loop, log: seq<Event>) {
    && LoopAfter(log).Some?
    && match Rested(loop)
       case Ready(cursor, _) => Rested(LoopAfter(log).value) == Ready(cursor, false)
       case Handing(messages, next, _) => LoopAfter(log).value == Handing(messages, next, false)
       case Gone => true
  }

  lemma LogOfMore(actions: seq<Action>, a: Action, l: nat)
    ensures LogOf(actions + [a], l) ==
              LogOf(actions, l) + if Enabled(After(actions), a) then EventsOf(After(actions), a, l) else []
  {
    assert (actions + [a])[..|actions|] == actions;
  }

  lemma StepMatches(w: World, a: Action, l: nat, log: seq<Event>)
    requires Enabled(w, a)
    requires if l in w.loops then Matches(w.loops[l], log) else log == []
    ensures if l in Next(w, a).loops then Matches(Next(w, a).loops[l], log + EventsOf(w, a, l))
            else log + EventsOf(w, a, l) == []
  {
    hide Forgotten, Shaped, NextCursor, LoopAfter;
    EmptyLog();
    assert log + [] == log;
    match a
    case PollFails(j, _) =>
      if j == l {
        LoopMore(log, Asked(w.loops[l].cursor));
      }
    case PollAnswers(j, count) =>
      if j == l {
        var cursor := w.loops[l].cursor;
        var c := Confirm(w, cursor);
        var got := Got(c.arrived[c.kept..c.kept + count]);
        LoopMore(log, Asked(cursor));
        LoopMore(log + [Asked(cursor)], got);
        assert log + ([Asked(cursor)] + [got]) == (log + [Asked(cursor)]) + [got];
      }
    case HandOne(j) =>
      if j == l {
        LoopMore(log, HandedOn(w.loops[l].messages[0]));
      }
    case _ =>
  }

  /**
   In every run each loop's own log is one the listening loop could make, and names exactly what it
   put on the queue.
   */
  lemma {:induction false} EveryLoopListens(actions: seq<Action>, l: nat)
    ensures LoopAfter(LogOf(actions, l)).Some? && AsksAfterHandingOn(LogOf(actions, l))
    ensures HandedOf(LogOf(actions, l)) == Filed(After(actions).delivered, l)
    ensures l in After(actions).loops ==> Matches(After(actions).loops[l], LogOf(actions, l))
    ensures l !in After(actions).loops ==> LogOf(actions, l) == []
  {
    hide Next, Enabled, Matches, LoopAfter, AsksAfterHandingOn, HandedOf, Filed, EventsOf, LogFits;
    if actions == [] {
      NothingFiledYet(l);
    } else {
      var front, a := actions[..|actions| - 1], actions[|actions| - 1];
      assert actions == front + [a];
      EveryLoopListens(front, l);
      LogOfMore(front, a, l);
      var w, log := After(front), LogOf(front, l);
      assert log + [] == log;
      if Enabled(w, a) {
        StepMatches(w, a, l, log);
        StepFiles(w, a, l, log);
      }
      MatchesRuns(After(actions), l, LogOf(actions, l));
    }
    LogsFit(LogOf(actions, l));
    FitAsks(LogOf(actions, l));
  }

  lemma FitAsks(log: seq<Event>)
    requires LogFits(log) && LoopAfter(log).Some?
    ensures AsksAfterHandingOn(log)
  {
  }

  lemma NothingFiledYet(l: nat)
    ensures HandedOf([]) == Filed([], l) == [] && LoopAfter([]).Some? && LogOf([], l) == [] && After([]) == NOTHING
  {
  }

  lemma MatchesRuns(w: World, l: nat, log: seq<Event>)
    requires if l in w.loops then Matches(w.loops[l], log) else log == []
    ensures LoopAfter(log).Some?
  {
  }

  lemma StepFiles(w: World, a: Action, l: nat, log: seq<Event>)
    requires Enabled(w, a) && HandedOf(log) == Filed(w.delivered, l)
    ensures HandedOf(log + EventsOf(w, a, l)) == Filed(Next(w, a).delivered, l)
  {
    hide HandedOf, Filed, Forgotten, Shaped, NextCursor;
    assert log + [] == log && Filed(w.delivered, l) + [] == Filed(w.delivered, l);
    match a
    case PollFails(j, _) =>
      if j == l {
        LogMore(log, Asked(w.loops[l].cursor));
      }
    case PollAnswers(j, count) =>
      if j == l {
        var cursor := w.loops[l].cursor;
        var c := Confirm(w, cursor);
        var got := Got(c.arrived[c.kept..c.kept + count]);
        LogMore(log, Asked(cursor));
        LogMore(log + [Asked(cursor)], got);
        assert log + ([Asked(cursor)] + [got]) == (log + [Asked(cursor)]) + [got];
      }
    case HandOne(j) =>
      FiledMore(w.delivered, l, j, w.loops[j].messages[0]);
      if j == l {
        LogMore(log, HandedOn(w.loops[l].messages[0]));
      }
    case _ =>
  }

  // ----- at least once -------------------------------------------------------------------------

  predicate InOrder(us: seq<Update>) {
    && (forall k :: 0 <= k < |us| ==> HasId(us[k]))
    && (forall j, k :: 0 <= j < k < |us| ==> us[j].id.value < us[k].id.value)
  }

  predicate WasDelivered(delivered: seq<(nat, Inbound)>, m: Inbound) {
    exists k :: 0 <= k < |delivered| && delivered[k].1 == m
  }

  /** On the worker queue, or still in a loop's hands, or never a message a person typed. */
  predicate Settled(u: Update, delivered: seq<(nat, Inbound)>, inHand: seq<Inbound>) {
    MessageFrom(u).None? || MessageFrom(u).value in inHand || WasDelivered(delivered, MessageFrom(u).value)
  }

  predicate AllSettled(us: seq<Update>, delivered: seq<(nat, Inbound)>, inHand: seq<Inbound>) {
    forall k :: 0 <= k < |us| ==> Settled(us[k], delivered, inHand)
  }

  /** A cursor stands just past some update, and that one and every earlier one are settled. */
  predicate Past(arrived: seq<Update>, delivered: seq<(nat, Inbound)>, inHand: seq<Inbound>, cursor: Option<int>) {
    cursor.Some? ==>
      exists k :: 0 <= k < |arrived| && HasId(arrived[k]) && cursor.value == arrived[k].id.value + 1
                  && AllSettled(arrived[..k + 1], delivered, inHand)
  }

  /** What loop `l` has put on the queue. */
  function Filed(delivered: seq<(nat, Inbound)>, l: nat): seq<Inbound> {
    if delivered == [] then []
    else
      var k := |delivered| - 1;
      Filed(delivered[..k], l) + if delivered[k].0 == l then [delivered[k].1] else []
  }

  /** Each message once, in the order the transport numbered them. */
  predicate Ascending(ms: seq<Inbound>) {
    && (forall k :: 0 <= k < |ms| ==> ms[k].updateId.Some?)
    && (forall j, k :: 0 <= j < k < |ms| ==> ms[j].updateId.value < ms[k].updateId.value)
  }

  predicate Below(ms: seq<Inbound>, cursor: Option<int>) {
    forall k :: 0 <= k < |ms| ==> ms[k].updateId.Some? && cursor.Some? && ms[k].updateId.value < cursor.value
  }

  predicate FromArrivals(ms: seq<Inbound>, arrived: seq<Update>) {
    forall m :: m in ms ==> exists k :: 0 <= k < |arrived| && MessageFrom(arrived[k]) == Some(m)
  }

  predicate LoopOk(arrived: seq<Update>, delivered: seq<(nat, Inbound)>, l: nat, loop: Loop) {
    var filed := Filed(delivered, l);
    && FromArrivals(filed, arrived)
    && match loop
       case Ready(cursor, _) =>
         Past(arrived, delivered, [], cursor) && Ascending(filed) && Below(filed, cursor)
       case Handing(ms, next, _) =>
         && Past(arrived, delivered, ms, next) && FromArrivals(ms, arrived)
         && Ascending(filed + ms) && Below(filed + ms, next)
       case Gone => Ascending(filed)
  }

  predicate LoopsOk(w: World) {
    && (forall l :: l in w.loops ==> LoopOk(w.arrived, w.delivered, l, w.loops[l]))
    && (forall k :: 0 <= k < |w.delivered| ==> w.delivered[k].0 in w.loops)
  }

  predicate Inv(w: World) {
    && InOrder(w.arrived) && w.kept <= |w.arrived|
    && AllSettled(w.arrived[..w.kept], w.delivered, [])
    && LoopsOk(w)
  }

  // What one batch is.

  /** A batch that arrived in order becomes messages in order, within its range of ids. */
  lemma {:induction false} ShapedAscends(batch: seq<Update>)
    requires InOrder(batch)
    ensures Ascending(Shaped(batch))
    ensures forall k :: 0 <= k < |Shaped(batch)| ==>
              batch != [] && batch[0].id.value <= Shaped(batch)[k].updateId.value <= batch[|batch| - 1].id.value
  {
    if batch != [] {
      var n := |batch| - 1;
      ShapedAscends(batch[..n]);
      assert n > 0 ==> batch[..n][0] == batch[0] && batch[..n][n - 1] == batch[n - 1];
      assert n > 0 ==> batch[n - 1].id.value < batch[n].id.value;
    }
  }

  /** Every message is somebody's, and nobody's message is lost. */
  lemma {:induction false} ShapedIsFaithful(batch: seq<Update>)
    ensures FromArrivals(Shaped(batch), batch) && AllSettled(batch, [], Shaped(batch))
  {
    if batch != [] {
      var n := |batch| - 1;
      var front, last := batch[..n], batch[n];
      ShapedIsFaithful(front);
      MoreArrivals(Shaped(front), front, [last]);
      assert batch == front + [last];
      forall k | 0 <= k < |batch| ensures Settled(batch[k], [], Shaped(batch)) {
        if k < n {
          assert Settled(front[k], [], Shaped(front));
        }
      }
      assert MessageFrom(last).Some? ==> MessageFrom(batch[n]) == Some(MessageFrom(last).value);
    }
  }

  lemma {:induction false} HighestIsLast(batch: seq<Update>)
    requires InOrder(batch)
    ensures HighestId(batch) == if batch == [] then None else batch[|batch| - 1].id
  {
    if batch != [] {
      HighestIsLast(batch[..|batch| - 1]);
      assert |batch| > 1 ==> batch[|batch| - 2].id.value < batch[|batch| - 1].id.value;
    }
  }

  lemma MoreArrivals(ms: seq<Inbound>, arrived: seq<Update>, more: seq<Update>)
    requires FromArrivals(ms, arrived)
    ensures FromArrivals(ms, arrived + more)
  {
    forall m | m in ms ensures exists k :: 0 <= k < |arrived + more| && MessageFrom((arrived + more)[k]) == Some(m) {
      var k :| 0 <= k < |arrived| && MessageFrom(arrived[k]) == Some(m);
      assert (arrived + more)[k] == arrived[k];
    }
  }

  /** Asking never makes the transport forget anything at or above the cursor. */
  lemma {:induction false} ForgottenIsBelow(arrived: seq<Update>, kept: nat, cursor: Option<int>)
    requires InOrder(arrived) && kept <= |arrived|
    ensures kept <= Forgotten(arrived, kept, cursor) <= |arrived|
    ensures forall k :: kept <= k < Forgotten(arrived, kept, cursor) ==>
              cursor.Some? && arrived[k].id.value < cursor.value
    ensures cursor.Some? ==>
              forall k :: Forgotten(arrived, kept, cursor) <= k < |arrived| ==> cursor.value <= arrived[k].id.value
    decreases |arrived| - kept
  {
    if cursor.Some? && kept < |arrived| && arrived[kept].id.value < cursor.value {
      ForgottenIsBelow(arrived, kept + 1, cursor);
    }
  }

  // What moves, and what it leaves alone.

  lemma FiledMore(delivered: seq<(nat, Inbound)>, l: nat, who: nat, m: Inbound)
    ensures Filed(delivered + [(who, m)], l) == Filed(delivered, l) + if who == l then [m] else []
  {
    assert (delivered + [(who, m)])[..|delivered|] == delivered;
  }

  lemma StaysSettled(us: seq<Update>, delivered: seq<(nat, Inbound)>, inHand: seq<Inbound>, d: (nat, Inbound))
    requires AllSettled(us, delivered, inHand)
    ensures AllSettled(us, delivered + [d], inHand)
    ensures inHand != [] && d.1 == inHand[0] ==> AllSettled(us, delivered + [d], inHand[1..])
  {
    var more := delivered + [d];
    forall k | 0 <= k < |us|
      ensures Settled(us[k], more, inHand) && (inHand != [] && d.1 == inHand[0] ==> Settled(us[k], more, inHand[1..]))
    {
      assert Settled(us[k], delivered, inHand);
      if MessageFrom(us[k]).Some? {
        var m := MessageFrom(us[k]).value;
        if WasDelivered(delivered, m) {
          var i :| 0 <= i < |delivered| && delivered[i].1 == m;
          assert more[i].1 == m;
        } else if m == d.1 {
          assert more[|delivered|].1 == m;
        } else {
          assert m in inHand;
          assert inHand == inHand[..1] + inHand[1..];
        }
      }
    }
  }

  /** An update arriving disturbs no loop. */
  lemma ArrivalKeeps(arrived: seq<Update>, delivered: seq<(nat, Inbound)>, l: nat, loop: Loop, u: Update)
    requires LoopOk(arrived, delivered, l, loop)
    ensures LoopOk(arrived + [u], delivered, l, loop)
  {
    hide Ascending, Below, AllSettled, Filed, FromArrivals, MessageFrom;
    MoreArrivals(Filed(delivered, l), arrived, [u]);
    if loop.Ready? {
      PastMore(arrived, delivered, [], loop.cursor, u);
    } else if loop.Handing? {
      MoreArrivals(loop.messages, arrived, [u]);
      PastMore(arrived, delivered, loop.messages, loop.next, u);
    }
  }

  lemma PastMore(arrived: seq<Update>, delivered: seq<(nat, Inbound)>, inHand: seq<Inbound>, cursor: Option<int>,
                 u: Update)
    requires Past(arrived, delivered, inHand, cursor)
    ensures Past(arrived + [u], delivered, inHand, cursor)
  {
    hide AllSettled;
    if cursor.Some? {
      var k :| 0 <= k < |arrived| && HasId(arrived[k]) && cursor.value == arrived[k].id.value + 1
               && AllSettled(arrived[..k + 1], delivered, inHand);
      assert (arrived + [u])[..k + 1] == arrived[..k + 1] && (arrived + [u])[k] == arrived[k];
    }
  }

  lemma PastDelivered(arrived: seq<Update>, delivered: seq<(nat, Inbound)>, inHand: seq<Inbound>, cursor: Option<int>,
                      d: (nat, Inbound))
    requires Past(arrived, delivered, inHand, cursor)
    ensures Past(arrived, delivered + [d], inHand, cursor)
    ensures inHand != [] && d.1 == inHand[0] ==> Past(arrived, delivered + [d], inHand[1..], cursor)
  {
    hide AllSettled;
    if cursor.Some? {
      var k :| 0 <= k < |arrived| && HasId(arrived[k]) && cursor.value == arrived[k].id.value + 1
               && AllSettled(arrived[..k + 1], delivered, inHand);
      StaysSettled(arrived[..k + 1], delivered, inHand, d);
    }
  }

  /** One loop handing on a message disturbs no other. */
  lemma OthersKeep(arrived: seq<Update>, delivered: seq<(nat, Inbound)>, l: nat, loop: Loop, d: (nat, Inbound))
    requires LoopOk(arrived, delivered, l, loop) && d.0 != l
    ensures LoopOk(arrived, delivered + [d], l, loop)
  {
    hide Ascending, Below, AllSettled, Past, Filed, FromArrivals, MessageFrom;
    FiledMore(delivered, l, d.0, d.1);
    assert Filed(delivered + [d], l) == Filed(delivered, l);
    if loop.Ready? {
      PastDelivered(arrived, delivered, [], loop.cursor, d);
    } else if loop.Handing? {
      PastDelivered(arrived, delivered, loop.messages, loop.next, d);
    }
  }

  lemma HandOver(filed: seq<Inbound>, ms: seq<Inbound>, arrived: seq<Update>)
    requires ms != [] && FromArrivals(filed, arrived) && FromArrivals(ms, arrived)
    ensures FromArrivals(filed + [ms[0]], arrived) && FromArrivals(ms[1..], arrived)
  {
    assert forall m :: m in filed + [ms[0]] ==> m in filed || m in ms;
    assert forall m :: m in ms[1..] ==> m in ms;
  }

  /** Handing on the first message in hand keeps the loop in order. */
  lemma HandingKeeps(arrived: seq<Update>, delivered: seq<(nat, Inbound)>, l: nat, loop: Loop)
    requires loop.Handing? && loop.messages != [] && LoopOk(arrived, delivered, l, loop)
    ensures LoopOk(arrived, delivered + [(l, loop.messages[0])], l, loop.(messages := loop.messages[1..]))
  {
    hide Ascending, Below, AllSettled, Past, Filed, MessageFrom, FromArrivals;
    var ms := loop.messages;
    var d := (l, ms[0]);
    HandOver(Filed(delivered, l), ms, arrived);
    FiledMore(delivered, l, l, ms[0]);
    PastDelivered(arrived, delivered, ms, loop.next, d);
    assert Filed(delivered, l) + ms == Filed(delivered + [d], l) + ms[1..];
  }

  /** A batch read from position `from`, at or above the cursor, is taken in hand. */
  lemma ReadingKeeps(arrived: seq<Update>, delivered: seq<(nat, Inbound)>, l: nat, cursor: Option<int>, from: nat,
                     count: nat)
    requires InOrder(arrived) && from + count <= |arrived|
    requires AllSettled(arrived[..from], delivered, [])
    requires cursor.Some? ==> forall k :: from <= k < |arrived| ==> cursor.value <= arrived[k].id.value
    requires LoopOk(arrived, delivered, l, Ready(cursor, false))
    ensures var batch := arrived[from..from + count];
            LoopOk(arrived, delivered, l, Handing(Shaped(batch), NextCursor(batch, cursor), false))
  {
    hide MessageFrom, Filed, HighestId, AllSettled, FromArrivals;
    var batch := arrived[from..from + count];
    var ms, filed, next := Shaped(batch), Filed(delivered, l), NextCursor(batch, cursor);
    ShapedIsFaithful(batch);
    ShapedAscends(batch);
    HighestIsLast(batch);
    BatchArrived(arrived, from, count, ms);
    BatchSettles(arrived, delivered, ms, from, count);
    BatchFollows(filed, ms, cursor, next);
    if count > 0 {
      assert arrived[..from + count - 1 + 1] == arrived[..from + count];
      assert next.value == arrived[from + count - 1].id.value + 1;
    } else {
      assert ms == [];
    }
  }

  lemma BatchArrived(arrived: seq<Update>, from: nat, count: nat, ms: seq<Inbound>)
    requires from + count <= |arrived| && FromArrivals(ms, arrived[from..from + count])
    ensures FromArrivals(ms, arrived)
  {
    forall m | m in ms ensures exists k :: 0 <= k < |arrived| && MessageFrom(arrived[k]) == Some(m) {
      var k :| 0 <= k < count && MessageFrom(arrived[from..from + count][k]) == Some(m);
      assert MessageFrom(arrived[from + k]) == Some(m);
    }
  }

  lemma BatchSettles(arrived: seq<Update>, delivered: seq<(nat, Inbound)>, ms: seq<Inbound>, from: nat, count: nat)
    requires from + count <= |arrived|
    requires AllSettled(arrived[..from], delivered, []) && AllSettled(arrived[from..from + count], [], ms)
    ensures AllSettled(arrived[..from + count], delivered, ms)
  {
    hide MessageFrom;
    forall k | 0 <= k < from + count ensures Settled(arrived[k], delivered, ms) {
      if k < from {
        assert Settled(arrived[..from][k], delivered, []);
      } else {
        assert Settled(arrived[from..from + count][k - from], [], ms);
      }
    }
  }

  lemma BatchFollows(filed: seq<Inbound>, ms: seq<Inbound>, cursor: Option<int>, next: Option<int>)
    requires Ascending(filed) && Below(filed, cursor) && Ascending(ms)
    requires Below(ms, next) && (cursor.Some? ==> next.Some? && cursor.value <= next.value)
    requires cursor.Some? ==> forall k :: 0 <= k < |ms| ==> cursor.value <= ms[k].updateId.value
    ensures Ascending(filed + ms) && Below(filed + ms, next)
  {
    var all := filed + ms;
    forall k | 0 <= k < |all| ensures all[k].updateId.Some? && next.Some? && all[k].updateId.value < next.value {
      assert k < |filed| ==> all[k] == filed[k];
      assert k >= |filed| ==> all[k] == ms[k - |filed|];
    }
  }

  // Every run.

  /** Every step changes one loop, adds one arrival, or puts one message on the queue. */
  lemma StepKeepsInv(w: World, a: Action)
    requires Inv(w) && Enabled(w, a)
    ensures Inv(Next(w, a))
  {
    hide LoopOk, AllSettled, MessageFrom, Forgotten, Shaped, HighestId;
    match a
    case Arrive(u) => ArriveStep(w, u);
    case HandOne(l) => HandStep(w, l);
    case Advance(l) => AdvanceStep(w, l);
    case PollAnswers(l, count) => PollStep(w, l, count);
    case PollFails(l, reached) => if reached { ConfirmStep(w, l); }
    case StartLoop(l) => StartStep(w, l);
    case StopLoop(l) => StopStep(w, l);
    case Leave(l) => LeaveStep(w.arrived, w.delivered, l, w.loops[l]);
    case CrashAll =>
      forall l | l in w.loops ensures LoopOk(w.arrived, w.delivered, l, Gone) {
        LeaveStep(w.arrived, w.delivered, l, w.loops[l]);
      }
  }

  lemma ArriveStep(w: World, u: Update)
    requires Inv(w) && Enabled(w, Arrive(u))
    ensures Inv(Next(w, Arrive(u)))
  {
    hide LoopOk, AllSettled, MessageFrom;
    forall l | l in w.loops ensures LoopOk(w.arrived + [u], w.delivered, l, w.loops[l]) {
      ArrivalKeeps(w.arrived, w.delivered, l, w.loops[l], u);
    }
    assert (w.arrived + [u])[..w.kept] == w.arrived[..w.kept];
    assert w.arrived != [] ==> forall k :: 0 <= k < |w.arrived| ==>
        w.arrived[k].id.value <= w.arrived[|w.arrived| - 1].id.value;
  }

  lemma HandStep(w: World, l: nat)
    requires Inv(w) && Enabled(w, HandOne(l))
    ensures Inv(Next(w, HandOne(l)))
  {
    hide LoopOk, AllSettled, MessageFrom;
    var d := (l, w.loops[l].messages[0]);
    var v := Next(w, HandOne(l));
    StaysSettled(w.arrived[..w.kept], w.delivered, [], d);
    forall j | j in v.loops ensures LoopOk(v.arrived, v.delivered, j, v.loops[j]) {
      if j == l {
        HandingKeeps(w.arrived, w.delivered, l, w.loops[l]);
      } else {
        OthersKeep(w.arrived, w.delivered, j, w.loops[j], d);
      }
    }
  }

  lemma AdvanceStep(w: World, l: nat)
    requires Inv(w) && Enabled(w, Advance(l))
    ensures Inv(Next(w, Advance(l)))
  {
    hide AllSettled, MessageFrom, Filed, Ascending, Below, FromArrivals, InOrder;
    var filed := Filed(w.delivered, l);
    assert filed + [] == filed;
  }

  /** The transport forgets only what is settled. */
  lemma ConfirmStep(w: World, l: nat)
    requires Inv(w) && l in w.loops && w.loops[l].Ready?
    ensures Inv(Confirm(w, w.loops[l].cursor))
  {
    var cursor := w.loops[l].cursor;
    hide MessageFrom, Forgotten, Filed, Ascending, Below, FromArrivals, Settled;
    ForgottenIsBelow(w.arrived, w.kept, cursor);
    assert LoopOk(w.arrived, w.delivered, l, w.loops[l]);
    ConfirmedIsSettled(w.arrived, w.delivered, w.kept, cursor);
  }

  lemma ConfirmedIsSettled(arrived: seq<Update>, delivered: seq<(nat, Inbound)>, kept: nat, cursor: Option<int>)
    requires InOrder(arrived) && kept <= |arrived| && AllSettled(arrived[..kept], delivered, [])
    requires Past(arrived, delivered, [], cursor)
    ensures Forgotten(arrived, kept, cursor) <= |arrived|
    ensures AllSettled(arrived[..Forgotten(arrived, kept, cursor)], delivered, [])
  {
    hide Settled, Forgotten;
    ForgottenIsBelow(arrived, kept, cursor);
    var n := Forgotten(arrived, kept, cursor);
    if cursor.Some? {
      var p :| 0 <= p < |arrived| && cursor.value == arrived[p].id.value + 1
          && AllSettled(arrived[..p + 1], delivered, []);
      forall k | 0 <= k < n ensures Settled(arrived[..n][k], delivered, []) {
        if k < kept {
          assert arrived[..n][k] == arrived[..kept][k];
        } else {
          assert k <= p by {
            assert arrived[k].id.value < cursor.value;
          }
          assert arrived[..n][k] == arrived[..p + 1][k];
        }
      }
    }
  }

  lemma PollStep(w: World, l: nat, count: nat)
    requires Inv(w) && Enabled(w, PollAnswers(l, count))
    ensures Inv(Next(w, PollAnswers(l, count)))
  {
    hide MessageFrom, Forgotten, LoopOk, Shaped, NextCursor, AllSettled;
    var loop := w.loops[l];
    var c := Confirm(w, loop.cursor);
    ConfirmStep(w, l);
    ForgottenIsBelow(w.arrived, w.kept, loop.cursor);
    if loop.stopped {
      LeaveStep(w.arrived, w.delivered, l, loop);
    } else {
      ReadingKeeps(w.arrived, w.delivered, l, loop.cursor, c.kept, count);
    }
  }

  lemma StartStep(w: World, l: nat)
    requires Inv(w) && Enabled(w, StartLoop(l))
    ensures Inv(Next(w, StartLoop(l)))
  {
    hide AllSettled, MessageFrom;
    NothingFiled(w.delivered, l);
  }

  lemma {:induction false} NothingFiled(delivered: seq<(nat, Inbound)>, l: nat)
    requires forall k :: 0 <= k < |delivered| ==> delivered[k].0 != l
    ensures Filed(delivered, l) == []
  {
    if delivered != [] {
      NothingFiled(delivered[..|delivered| - 1], l);
    }
  }

  lemma StopStep(w: World, l: nat)
    requires Inv(w) && Enabled(w, StopLoop(l))
    ensures Inv(Next(w, StopLoop(l)))
  {
    hide AllSettled, MessageFrom, Filed, Ascending, Below, FromArrivals, InOrder, Past;
  }

  lemma LeaveStep(arrived: seq<Update>, delivered: seq<(nat, Inbound)>, l: nat, loop: Loop)
    requires LoopOk(arrived, delivered, l, loop)
    ensures LoopOk(arrived, delivered, l, Gone)
  {
    if loop.Handing? {
      var filed := Filed(delivered, l);
      var all := filed + loop.messages;
      assert forall k :: 0 <= k < |filed| ==> all[k] == filed[k];
    }
  }

  /**
   Over any polls, outages, stops, crashes and restarts, by any number of loops: every update
   the transport has been told to forget is on the worker queue, or was never a message a
   person typed; nothing is on the queue that did not arrive; and no one loop hands the same
   update on twice, or out of order.
   */
  lemma {:induction false} AtLeastOnce(actions: seq<Action>)
    ensures Inv(After(actions))
    ensures var w := After(actions);
            && (forall k :: 0 <= k < w.kept <= |w.arrived| ==>
                  MessageFrom(w.arrived[k]).None? || WasDelivered(w.delivered, MessageFrom(w.arrived[k]).value))
            && (forall l :: l in w.loops ==>
                Ascending(Filed(w.delivered, l)) && FromArrivals(Filed(w.delivered, l), w.arrived))
  {
    hide Next, Enabled, MessageFrom, Filed;
    if actions == [] {
    } else {
      var w, a := After(actions[..|actions| - 1]), actions[|actions| - 1];
      AtLeastOnce(actions[..|actions| - 1]);
      if Enabled(w, a) {
        StepKeepsInv(w, a);
      }
    }
    Promised(After(actions));
  }

  lemma Promised(w: World)
    requires Inv(w)
    ensures forall k :: 0 <= k < w.kept ==>
              MessageFrom(w.arrived[k]).None? || WasDelivered(w.delivered, MessageFrom(w.arrived[k]).value)
    ensures forall l :: l in w.loops ==>
              Ascending(Filed(w.delivered, l)) && FromArrivals(Filed(w.delivered, l), w.arrived)
  {
    hide MessageFrom, Filed;
    forall k | 0 <= k < w.kept
      ensures MessageFrom(w.arrived[k]).None? || WasDelivered(w.delivered, MessageFrom(w.arrived[k]).value)
    {
      assert Settled(w.arrived[..w.kept][k], w.delivered, []);
    }
    forall l | l in w.loops ensures Ascending(Filed(w.delivered, l)) && FromArrivals(Filed(w.delivered, l), w.arrived) {
      LeaveStep(w.arrived, w.delivered, l, w.loops[l]);
    }
  }

  lemma {:induction false} IsFiled(delivered: seq<(nat, Inbound)>, k: nat)
    requires k < |delivered|
    ensures delivered[k].1 in Filed(delivered, delivered[k].0)
  {
    if k < |delivered| - 1 {
      IsFiled(delivered[..|delivered| - 1], k);
    }
  }

  predicate WasTyped(arrived: seq<Update>, m: Inbound) {
    exists k :: 0 <= k < |arrived| && Typed(arrived[k], m)
  }

  /**
   The same, of what was typed: a message a person typed is on the queue before the transport is
   told to forget it, and everything on the queue is a message a person typed.
   */
  lemma TypedMessagesArrive(actions: seq<Action>)
    ensures var w := After(actions);
            && w.kept <= |w.arrived|
            && (forall k, m :: 0 <= k < w.kept && Typed(w.arrived[k], m) ==> WasDelivered(w.delivered, m))
            && (forall i :: 0 <= i < |w.delivered| ==> WasTyped(w.arrived, w.delivered[i].1))
  {
    hide After, MessageFrom, Filed;
    AtLeastOnce(actions);
    var w := After(actions);
    forall k, m | 0 <= k < w.kept && Typed(w.arrived[k], m) ensures WasDelivered(w.delivered, m) {
      TypedIs(w.arrived[k], m);
    }
    forall i | 0 <= i < |w.delivered| ensures WasTyped(w.arrived, w.delivered[i].1) {
      IsFiled(w.delivered, i);
      var k :| 0 <= k < |w.arrived| && MessageFrom(w.arrived[k]) == Some(w.delivered[i].1);
      TypedIs(w.arrived[k], w.delivered[i].1);
    }
  }

  lemma AfterMore(actions: seq<Action>, a: Action)
    ensures After(actions + [a]) == if Enabled(After(actions), a) then Next(After(actions), a) else After(actions)
  {
    assert (actions + [a])[..|actions|] == actions;
  }

  lemma OneShaped(u: Update)
    requires HasId(u) && MessageFrom(u).Some?
    ensures Shaped([u]) == [MessageFrom(u).value] && NextCursor([u], None) == Some(u.id.value + 1)
  {
    hide MessageFrom;
    var one, none: seq<Update> := [u], [];
    assert one[..0] == none;
    assert Shaped(none) == [] && HighestId(none) == None;
    assert Shaped(one) == Shaped(none) + [MessageFrom(u).value];
    assert HighestId(one) == u.id;
  }

  /** A fresh loop reads the one update the transport holds and hands it on; nothing is forgotten yet. */
  lemma FreshLoopDelivers(actions: seq<Action>, u: Update, l: nat) returns (longer: seq<Action>)
    requires HasId(u) && MessageFrom(u).Some? && l !in After(actions).loops
    requires After(actions).arrived == [u] && After(actions).kept == 0
    ensures var w := After(actions);
            && After(longer).arrived == [u] && After(longer).kept == 0
            && After(longer).delivered == w.delivered + [(l, MessageFrom(u).value)]
            && After(longer).loops.Keys == w.loops.Keys + {l}
  {
    hide After, MessageFrom, Shaped, HighestId;
    var w := After(actions);
    var one := [u];
    AfterMore(actions, StartLoop(l));
    var started := actions + [StartLoop(l)];
    assert After(started) == w.(loops := w.loops[l := Ready(None, false)]);
    AfterMore(started, PollAnswers(l, 1));
    var polled := started + [PollAnswers(l, 1)];
    assert one[0..0 + 1] == one;
    OneShaped(u);
    assert After(polled).loops == w.loops[l := Handing([MessageFrom(u).value], Some(u.id.value + 1), false)];
    AfterMore(polled, HandOne(l));
    longer := polled + [HandOne(l)];
    assert After(longer).delivered == w.delivered + [(l, MessageFrom(u).value)];
  }

  /** At least once, and no better: a crash between handing on and the next ask hands the same message on again. */
  lemma CanArriveTwice(u: Update)
    requires HasId(u) && MessageFrom(u).Some?
    ensures exists actions ::
              && After(actions).arrived == [u]
              && After(actions).delivered == [(0, MessageFrom(u).value), (1, MessageFrom(u).value)]
  {
    hide MessageFrom;
    AfterMore([], Arrive(u));
    assert After([] + [Arrive(u)]) == World([u], 0, map[], []);
    var once := FreshLoopDelivers([] + [Arrive(u)], u, 0);
    AfterMore(once, CrashAll);
    var twice := FreshLoopDelivers(once + [CrashAll], u, 1);
    assert After(twice).delivered == [(0, MessageFrom(u).value), (1, MessageFrom(u).value)];
  }
}
