/**
 Reopening a stored chat: the prose comes back, and what was asked for in the rows that do not
 rides on it, as history no provider reads.
 */
module Reopening {
  import opened Wrappers
  import opened Messages

  /** A stored transcript as it is reloaded: the prose only, with what was asked for kept as history. */
  function Reload(rows: seq<Message>): (seq<Message>, seq<ToolCall>) {
    if rows == [] then ([], [])
    else
      var (kept, pending) := Reload(rows[..|rows| - 1]);
      var row := rows[|rows| - 1];
      if row.role == User then (kept + [Say(User, row.content)], pending)
      else if row.role == Assistant && row.content != "" then
        (kept + [Message(Assistant, row.content, None, [], pending + row.calls)], [])
      else (kept, pending + row.calls)
  }

  /** Calls left over at the end ride on the last assistant message there is. */
  function Settle(h: seq<Message>, pending: seq<ToolCall>): seq<Message> {
    if h == [] || pending == [] then h
    else
      var k := |h| - 1;
      if h[k].role == Assistant then h[..k] + [h[k].(pastCalls := h[k].pastCalls + pending)]
      else Settle(h[..k], pending) + [h[k]]
  }

  function Reopened(rows: seq<Message>): seq<Message> {
    var (kept, pending) := Reload(rows);
    Settle(kept, pending)
  }

  // ----- the words --------------------------------------------------------------------------------

  datatype Line = Line(role: Role, content: string)

  /** What was said: every word of the person's, and of the assistant's every row with words in it. */
  function Spoken(rows: seq<Message>): seq<Line> {
    if rows == [] then []
    else
      var row := rows[|rows| - 1];
      Spoken(rows[..|rows| - 1]) +
      if row.role == User || Prose(row) then [Line(row.role, row.content)] else []
  }

  /** A message with its words alone: it asks for nothing and answers nothing. */
  predicate Says(m: Message, line: Line) {
    m.role == line.role && m.content == line.content && m.toolCallId == None && m.calls == []
  }

  predicate SaysAll(h: seq<Message>, lines: seq<Line>) {
    |h| == |lines| && forall k :: 0 <= k < |h| ==> Says(h[k], lines[k])
  }

  lemma {:induction false} ReloadSays(rows: seq<Message>)
    ensures SaysAll(Reload(rows).0, Spoken(rows))
  {
    if rows != [] {
      ReloadSays(rows[..|rows| - 1]);
    }
  }

  lemma {:induction false} SettleSays(h: seq<Message>, pending: seq<ToolCall>, lines: seq<Line>)
    requires SaysAll(h, lines)
    ensures SaysAll(Settle(h, pending), lines)
    decreases |h|
  {
    if h != [] && pending != [] {
      SettleSays(h[..|h| - 1], pending, lines[..|h| - 1]);
    }
  }

  /** A reopened chat says exactly what was said, in order, and asks for nothing. */
  lemma ReopeningKeepsTheWords(rows: seq<Message>)
    ensures SaysAll(Reopened(rows), Spoken(rows))
  {
    hide Reload, Settle, Spoken, SaysAll;
    ReloadSays(rows);
    SettleSays(Reload(rows).0, Reload(rows).1, Spoken(rows));
  }

  // ----- what reopening keeps ------------------------------------------------------------------

  /** Everything asked for, row by row; what a user row carries is not read. */
  function CallsOf(rows: seq<Message>): seq<ToolCall> {
    if rows == [] then []
    else
      var k := |rows| - 1;
      CallsOf(rows[..k]) + if rows[k].role == User then [] else rows[k].calls
  }

  function PastOf(h: seq<Message>): seq<ToolCall> {
    if h == [] then [] else PastOf(h[..|h| - 1]) + h[|h| - 1].pastCalls
  }

  predicate Prose(row: Message) {
    row.role == Assistant && row.content != ""
  }

  predicate HasProse(rows: seq<Message>) {
    exists k :: 0 <= k < |rows| && Prose(rows[k])
  }

  predicate HasAssistant(h: seq<Message>) {
    exists k :: 0 <= k < |h| && h[k].role == Assistant
  }

  /** Only assistant messages carry what was asked for. */
  predicate PastOnAssistants(h: seq<Message>) {
    forall k :: 0 <= k < |h| ==> h[k].role == Assistant || h[k].pastCalls == []
  }

  lemma PastMore(h: seq<Message>, m: Message)
    ensures PastOf(h + [m]) == PastOf(h) + m.pastCalls
  {
    assert (h + [m])[..|h|] == h;
  }

  /** What one more row does to a reload. */
  lemma ReloadMore(rows: seq<Message>, row: Message)
    ensures var (kept, pending) := Reload(rows);
            Reload(rows + [row]) ==
              if row.role == User then (kept + [Say(User, row.content)], pending)
              else if Prose(row) then (kept + [Message(Assistant, row.content, None, [], pending + row.calls)], [])
              else (kept, pending + row.calls)
    ensures CallsOf(rows + [row]) == CallsOf(rows) + if row.role == User then [] else row.calls
  {
    assert (rows + [row])[..|rows|] == rows;
  }

  lemma AssistantMore(h: seq<Message>, m: Message)
    ensures HasAssistant(h + [m]) <==> HasAssistant(h) || m.role == Assistant
    ensures PastOnAssistants(h) && (m.role == Assistant || m.pastCalls == []) ==> PastOnAssistants(h + [m])
  {
    if HasAssistant(h) {
      var k :| 0 <= k < |h| && h[k].role == Assistant;
      assert (h + [m])[k].role == Assistant;
    }
    assert (h + [m])[|h|] == m;
  }

  lemma {:induction false} ReloadAccounts(rows: seq<Message>)
    ensures var (kept, pending) := Reload(rows);
            && PastOf(kept) + pending == CallsOf(rows)
            && PastOnAssistants(kept) && (HasAssistant(kept) <==> HasProse(rows))
  {
    if rows != [] {
      hide Reload, PastOf, CallsOf, HasAssistant, HasProse, PastOnAssistants;
      var front, row := rows[..|rows| - 1], rows[|rows| - 1];
      assert rows == front + [row];
      ReloadAccounts(front);
      ReloadMore(front, row);
      OneRowMore(front, row);
      hide Prose;
      var (kept, pending) := Reload(front);
      KeptUser(kept, pending, row.content);
      KeptProse(kept, pending, row);
      assert PastOf(kept) + (pending + row.calls) == (PastOf(kept) + pending) + row.calls;
      UserIsNoProse(row);
    }
  }

  lemma UserIsNoProse(row: Message)
    ensures row.role == User ==> !Prose(row)
  {
  }

  lemma KeptUser(kept: seq<Message>, pending: seq<ToolCall>, text: string)
    ensures PastOf(kept + [Say(User, text)]) + pending == PastOf(kept) + pending
    ensures HasAssistant(kept + [Say(User, text)]) <==> HasAssistant(kept)
    ensures PastOnAssistants(kept) ==> PastOnAssistants(kept + [Say(User, text)])
  {
    hide PastOf, HasAssistant, PastOnAssistants;
    PastMore(kept, Say(User, text));
    AssistantMore(kept, Say(User, text));
  }

  lemma KeptProse(kept: seq<Message>, pending: seq<ToolCall>, row: Message)
    ensures var m := Message(Assistant, row.content, None, [], pending + row.calls);
            && PastOf(kept + [m]) + [] == PastOf(kept) + pending + row.calls
            && HasAssistant(kept + [m]) && (PastOnAssistants(kept) ==> PastOnAssistants(kept + [m]))
  {
    hide PastOf, HasAssistant, PastOnAssistants;
    var m := Message(Assistant, row.content, None, [], pending + row.calls);
    PastMore(kept, m);
    AssistantMore(kept, m);
  }

  lemma OneRowMore(rows: seq<Message>, row: Message)
    ensures HasProse(rows + [row]) <==> HasProse(rows) || Prose(row)
  {
    if HasProse(rows) {
      var k :| 0 <= k < |rows| && Prose(rows[k]);
      assert Prose((rows + [row])[k]);
    }
    assert (rows + [row])[|rows|] == row;
  }

  lemma {:induction false} SettleAccounts(h: seq<Message>, pending: seq<ToolCall>)
    requires PastOnAssistants(h)
    ensures PastOf(Settle(h, pending)) == if HasAssistant(h) then PastOf(h) + pending else PastOf(h)
    decreases |h|
  {
    if h != [] && pending != [] {
      hide PastOf, HasAssistant, PastOnAssistants;
      var front, last := h[..|h| - 1], h[|h| - 1];
      assert h == front + [last];
      FrontPast(front, last);
      AssistantMore(front, last);
      PastMore(front, last);
      PastMore(front, last.(pastCalls := last.pastCalls + pending));
      if last.role != Assistant {
        SettleAccounts(front, pending);
        PastMore(Settle(front, pending), last);
      }
    } else {
      assert PastOf(h) + [] == PastOf(h);
    }
  }

  lemma FrontPast(front: seq<Message>, last: Message)
    requires PastOnAssistants(front + [last])
    ensures PastOnAssistants(front) && (last.role == Assistant || last.pastCalls == [])
  {
    assert forall k :: 0 <= k < |front| ==> (front + [last])[k] == front[k];
    assert (front + [last])[|front|] == last;
  }

  /** Reopening keeps everything that was ever asked for, in order, as long as there is any prose to carry it. */
  lemma ReopeningKeepsTheRecord(rows: seq<Message>)
    ensures PastOf(Reopened(rows)) == if HasProse(rows) then CallsOf(rows) else []
  {
    ReloadAccounts(rows);
    SettleAccounts(Reload(rows).0, Reload(rows).1);
    if !HasProse(rows) {
      NoPast(Reload(rows).0);
    }
  }

  lemma {:induction false} NoPast(h: seq<Message>)
    requires PastOnAssistants(h) && !HasAssistant(h)
    ensures PastOf(h) == []
  {
    if h != [] {
      assert h[|h| - 1].role != Assistant;
      NoPast(h[..|h| - 1]);
    }
  }

  /** Earlier calls ride on the first assistant message there is. */
  function Ride(h: seq<Message>, pending: seq<ToolCall>): seq<Message> {
    if h == [] then []
    else if h[0].role == Assistant then [h[0].(pastCalls := pending + h[0].pastCalls)] + h[1..]
    else [h[0]] + Ride(h[1..], pending)
  }

  lemma {:induction false} RideMore(h: seq<Message>, m: Message, pending: seq<ToolCall>)
    ensures Ride(h + [m], pending) ==
              if HasAssistant(h) then Ride(h, pending) + [m]
              else h + [if m.role == Assistant then m.(pastCalls := pending + m.pastCalls) else m]
    ensures !HasAssistant(h) ==> Ride(h, pending) == h
  {
    if h == [] {
      assert h + [m] == [m] && [m][1..] == [];
    } else {
      hide HasAssistant;
      AssistantFirst(h);
      RideMore(h[1..], m, pending);
      assert (h + [m])[1..] == h[1..] + [m];
      assert h == [h[0]] + h[1..];
      assert [h[0]] + (h[1..] + [m]) == h + [m];
      assert [h[0]] + (Ride(h[1..], pending) + [m]) == ([h[0]] + Ride(h[1..], pending)) + [m];
    }
  }

  lemma AssistantFirst(h: seq<Message>)
    requires h != []
    ensures HasAssistant(h) <==> h[0].role == Assistant || HasAssistant(h[1..])
  {
    var rest := h[1..];
    if HasAssistant(rest) {
      var k :| 0 <= k < |rest| && rest[k].role == Assistant;
      assert h[k + 1].role == Assistant;
    }
    if HasAssistant(h) && h[0].role != Assistant {
      var k :| 0 <= k < |h| && h[k].role == Assistant;
      assert rest[k - 1].role == Assistant;
    }
  }

  /** Two stretches of a transcript, reloaded as one: what the first leaves over rides on the second's first prose. */
  lemma {:induction false} ReloadJoins(front: seq<Message>, back: seq<Message>)
    ensures var (kept, pending) := Reload(front);
            var (kept', pending') := Reload(back);
            Reload(front + back) ==
                (kept + Ride(kept', pending), if HasProse(back) then pending' else pending + pending')
  {
    if back == [] {
      assert front + back == front;
      assert !HasProse(back);
      assert Reload(front).0 + [] == Reload(front).0 && Reload(front).1 + [] == Reload(front).1;
    } else {
      hide Reload, Ride, HasAssistant, HasProse, PastOnAssistants, PastOf, CallsOf;
      var most, row := back[..|back| - 1], back[|back| - 1];
      assert back == most + [row] && front + back == (front + most) + [row];
      ReloadJoins(front, most);
      ReloadMore(front + most, row);
      ReloadMore(most, row);
      OneRowMore(most, row);
      ReloadAccounts(most);
      JoinOne(Reload(front), Reload(most), row, HasProse(most));
      UserIsNoProse(row);
      hide Prose;
      assert Reload(front).1 + (Reload(most).1 + row.calls) == (Reload(front).1 + Reload(most).1) + row.calls;
    }
  }

  /** The same row added to both sides of the join. */
  lemma JoinOne(first: (seq<Message>, seq<ToolCall>), second: (seq<Message>, seq<ToolCall>), row: Message, prose: bool)
    requires HasAssistant(second.0) <==> prose
    ensures var (kept, pending) := first;
            var (kept', pending') := second;
            var left := if prose then pending' else pending + pending';
            && (row.role == User ==>
                  kept + Ride(kept', pending) + [Say(User, row.content)] ==
                  kept + Ride(kept' + [Say(User, row.content)], pending))
            && (Prose(row) ==>
                  kept + Ride(kept', pending) + [Message(Assistant, row.content, None, [], left + row.calls)] ==
                  kept + Ride(kept' + [Message(Assistant, row.content, None, [], pending' + row.calls)], pending))
  {
    hide Ride, HasAssistant;
    var (kept, pending) := first;
    var (kept', pending') := second;
    RideMore(kept', Say(User, row.content), pending);
    RideMore(kept', Message(Assistant, row.content, None, [], pending' + row.calls), pending);
    assert pending + (pending' + row.calls) == (pending + pending') + row.calls;
  }

  /** A row that asked for tools. */
  predicate Calling(row: Message) {
    row.role != User && row.calls != []
  }

  /** Every row that asked for tools has prose at or after it. */
  predicate NothingOver(rows: seq<Message>) {
    forall k :: 0 <= k < |rows| && Calling(rows[k]) ==> exists j :: k <= j < |rows| && Prose(rows[j])
  }

  lemma NothingOverMore(rows: seq<Message>, row: Message)
    ensures NothingOver(rows + [row]) <==> Prose(row) || (NothingOver(rows) && !Calling(row))
  {
    var all := rows + [row];
    assert all[|rows|] == row;
    if Prose(row) {
      assert Prose(all[|rows|]);
    } else {
      assert forall k :: 0 <= k < |rows| ==> all[k] == rows[k];
      if NothingOver(rows) {
        forall k | 0 <= k < |rows| && Calling(all[k]) ensures exists j :: k <= j < |all| && Prose(all[j]) {
          var j :| k <= j < |rows| && Prose(rows[j]);
          assert Prose(all[j]);
        }
      }
      if NothingOver(all) {
        forall k | 0 <= k < |rows| && Calling(rows[k]) ensures exists j :: k <= j < |rows| && Prose(rows[j]) {
          assert Calling(all[k]);
          var j :| k <= j < |all| && Prose(all[j]);
          assert rows[j] == all[j];
        }
      }
    }
  }

  /** A reload leaves calls over exactly when some row's calls have no prose at or after them. */
  lemma {:induction false} LeftOverIff(rows: seq<Message>)
    ensures Reload(rows).1 == [] <==> NothingOver(rows)
  {
    if rows != [] {
      hide Reload, NothingOver, CallsOf;
      var front, row := rows[..|rows| - 1], rows[|rows| - 1];
      assert rows == front + [row];
      LeftOverIff(front);
      ReloadMore(front, row);
      NothingOverMore(front, row);
    }
  }

  /**
   A later stretch is reloaded as it would be on its own exactly when it has no prose, or the
   earlier one leaves nothing over.
   */
  lemma TurnsReloadApartIff(front: seq<Message>, back: seq<Message>)
    ensures Reload(front + back).0 == Reload(front).0 + Reload(back).0 <==> !HasProse(back) || NothingOver(front)
  {
    hide NothingOver, HasProse, HasAssistant, PastOnAssistants, Ride, Reload, CallsOf, PastOf;
    ReloadJoins(front, back);
    ReloadAccounts(back);
    LeftOverIff(front);
    var (kept, pending) := Reload(front);
    var kept' := Reload(back).0;
    if HasProse(back) {
      RideChanges(kept', pending);
    } else {
      RideMore(kept', Say(User, ""), pending);
    }
    assert Reload(front + back).0[|kept|..] == Ride(kept', pending);
    assert (kept + kept')[|kept|..] == kept';
  }

  lemma {:induction false} RideChanges(h: seq<Message>, pending: seq<ToolCall>)
    requires HasAssistant(h)
    ensures Ride(h, pending) == h <==> pending == []
  {
    assert h == [h[0]] + h[1..];
    if h[0].role == Assistant {
      assert pending == [] ==> pending + h[0].pastCalls == h[0].pastCalls;
      assert Ride(h, pending)[0].pastCalls == pending + h[0].pastCalls;
    } else {
      assert HasAssistant(h[1..]) by {
        assert forall k :: 0 < k < |h| ==> h[k] == h[1..][k - 1];
      }
      RideChanges(h[1..], pending);
      assert Ride(h, pending)[1..] == Ride(h[1..], pending);
    }
  }

  // ----- whose calls are whose ------------------------------------------------------------------

  /** How many rows are kept as messages. */
  function KeptRows(rows: seq<Message>): nat {
    if rows == [] then 0
    else
      var k := |rows| - 1;
      KeptRows(rows[..k]) + if rows[k].role == User || Prose(rows[k]) then 1 else 0
  }

  /** A turn begins at `k`, or the transcript ends there. */
  predicate Boundary(rows: seq<Message>, k: nat) {
    k == |rows| || (k < |rows| && rows[k].role == User)
  }

  /** What was asked for before `k` is what the messages kept from before `k` carry. */
  predicate CarriedUpTo(rows: seq<Message>, k: nat)
    requires k <= |rows|
  {
    var n := KeptRows(rows[..k]);
    n <= |Reopened(rows)| && PastOf(Reopened(rows)[..n]) == CallsOf(rows[..k])
  }

  /** At every turn's edge nothing has been carried across it, in either direction, and nothing dropped. */
  predicate EveryTurnKeepsItsCalls(rows: seq<Message>) {
    forall k :: 0 <= k <= |rows| && Boundary(rows, k) ==> CarriedUpTo(rows, k)
  }

  /** No turn begins between the two rows. */
  ghost predicate SameTurn(rows: seq<Message>, i: nat, j: nat)
    requires i < |rows| && j < |rows|
  {
    forall k :: (if i <= j then i < k <= j else j < k <= i) ==> rows[k].role != User
  }

  /** Prose of the row's own turn that its calls can ride on: at or after it, or before it with none at all after. */
  ghost predicate HasCarrier(rows: seq<Message>, i: nat)
    requires i < |rows|
  {
    || (exists j :: i <= j < |rows| && Prose(rows[j]) && SameTurn(rows, i, j))
    || ((exists j :: 0 <= j < i && Prose(rows[j]) && SameTurn(rows, i, j))
        && forall j :: i <= j < |rows| ==> !Prose(rows[j]))
  }

  lemma {:induction false} KeptCounts(rows: seq<Message>)
    ensures |Reload(rows).0| == KeptRows(rows)
  {
    if rows != [] {
      KeptCounts(rows[..|rows| - 1]);
    }
  }

  lemma {:induction false} SettleBehind(a: seq<Message>, b: seq<Message>, pending: seq<ToolCall>)
    ensures Settle(a + b, pending) ==
              if HasAssistant(b) then a + Settle(b, pending) else Settle(a, pending) + b
    decreases |b|
  {
    hide Settle, HasAssistant;
    if pending == [] {
      SettleNothing(a + b);
      SettleNothing(a);
      SettleNothing(b);
    } else if b == [] {
      NoAssistant();
      assert a + b == a && Settle(a, pending) + b == Settle(a, pending);
    } else {
      var front, last := b[..|b| - 1], b[|b| - 1];
      assert b == front + [last];
      AssistantMore(front, last);
      Regroup(a, front, last);
      if last.role != Assistant {
        SettleBehind(a, front, pending);
        SettleOne(a + front, last, pending);
        SettleOne(front, last, pending);
        Regroup(a, Settle(front, pending), last);
        Regroup(Settle(a, pending), front, last);
      } else {
        SettleHere(a + front, last, pending);
        SettleHere(front, last, pending);
        Regroup(a, front, last.(pastCalls := last.pastCalls + pending));
      }
    }
  }

  lemma Regroup(a: seq<Message>, b: seq<Message>, m: Message)
    ensures a + (b + [m]) == (a + b) + [m]
  {
  }

  lemma NoAssistant()
    ensures !HasAssistant([])
  {
  }

  lemma SettleNothing(h: seq<Message>)
    ensures Settle(h, []) == h
  {
  }

  lemma SettleHere(h: seq<Message>, last: Message, pending: seq<ToolCall>)
    requires last.role == Assistant && pending != []
    ensures Settle(h + [last], pending) == h + [last.(pastCalls := last.pastCalls + pending)]
  {
    assert (h + [last])[..|h|] == h;
  }

  lemma SettleOne(h: seq<Message>, last: Message, pending: seq<ToolCall>)
    requires last.role != Assistant && pending != []
    ensures Settle(h + [last], pending) == Settle(h, pending) + [last]
  {
    assert (h + [last])[..|h|] == h;
  }

  lemma {:induction false} SettleLength(h: seq<Message>, pending: seq<ToolCall>)
    ensures |Settle(h, pending)| == |h|
    decreases |h|
  {
    if h != [] && pending != [] {
      SettleLength(h[..|h| - 1], pending);
    }
  }

  lemma NoPastLeft(past: seq<ToolCall>, pending: seq<ToolCall>, all: seq<ToolCall>)
    requires past + pending == all
    ensures past == all <==> pending == []
  {
  }

  /** At one turn's edge, said of the rows. */
  ghost predicate EdgeHolds(rows: seq<Message>, k: nat)
    requires k <= |rows|
  {
    if HasProse(rows[k..]) then NothingOver(rows[..k])
    else if HasProse(rows[..k]) then CallsOf(rows[k..]) == []
    else CallsOf(rows[..k]) == []
  }

  lemma CarriedUpToIff(rows: seq<Message>, k: nat)
    requires k <= |rows|
    ensures CarriedUpTo(rows, k) <==> EdgeHolds(rows, k)
  {
    hide Reload, Ride, PastOf, CallsOf, HasAssistant, HasProse, PastOnAssistants, NothingOver, KeptRows, Settle;
    var front, back := rows[..k], rows[k..];
    assert rows == front + back;
    var (kept, pending) := Reload(front);
    var (kept', pending') := Reload(back);
    ReloadJoins(front, back);
    ReloadAccounts(front);
    ReloadAccounts(back);
    KeptCounts(front);
    LeftOverIff(front);
    RideKeepsRoles(kept', pending);
    var h, over := Reload(rows).0, Reload(rows).1;
    SettleBehind(kept, Ride(kept', pending), over);
    SettleLength(kept, over);
    if HasProse(back) {
      assert Reopened(rows)[..|kept|] == kept;
      NoPastLeft(PastOf(kept), pending, CallsOf(front));
    } else {
      assert Reopened(rows)[..|kept|] == Settle(kept, over);
      NoProseEdge(front, back, kept, pending, kept', pending');
    }
  }

  lemma NoProseEdge(front: seq<Message>, back: seq<Message>, kept: seq<Message>, pending: seq<ToolCall>,
                    kept': seq<Message>, pending': seq<ToolCall>)
    requires PastOnAssistants(kept) && PastOf(kept) + pending == CallsOf(front)
    requires (HasAssistant(kept) <==> HasProse(front))
    requires PastOnAssistants(kept') && PastOf(kept') + pending' == CallsOf(back) && !HasAssistant(kept')
    ensures PastOf(Settle(kept, pending + pending')) == CallsOf(front) <==>
              if HasProse(front) then CallsOf(back) == [] else CallsOf(front) == []
  {
    hide PastOf, CallsOf, HasAssistant, HasProse, PastOnAssistants, Settle;
    SettleAccounts(kept, pending + pending');
    NoPast(kept');
    assert [] + pending' == pending';
    if HasProse(front) {
      assert PastOf(kept) + (pending + pending') == CallsOf(front) + pending';
      NoPastLeft(CallsOf(front), pending', CallsOf(front) + pending');
    } else {
      NoPast(kept);
    }
  }

  lemma {:induction false} RideKeepsRoles(h: seq<Message>, pending: seq<ToolCall>)
    ensures |Ride(h, pending)| == |h| && forall k :: 0 <= k < |h| ==> Ride(h, pending)[k].role == h[k].role
    ensures HasAssistant(Ride(h, pending)) <==> HasAssistant(h)
  {
    if h != [] && h[0].role != Assistant {
      RideKeepsRoles(h[1..], pending);
    }
    var r := Ride(h, pending);
    assert forall k :: 0 <= k < |h| ==> r[k].role == h[k].role;
  }

  // The same, by position.

  ghost predicate ProseIn(rows: seq<Message>, a: nat, b: nat)
    requires b <= |rows|
  {
    exists j :: a <= j < b && Prose(rows[j])
  }

  ghost predicate CallsIn(rows: seq<Message>, a: nat, b: nat)
    requires b <= |rows|
  {
    exists i :: a <= i < b && Calling(rows[i])
  }

  lemma {:induction false} CallsOfNone(rows: seq<Message>)
    ensures CallsOf(rows) == [] <==> !CallsIn(rows, 0, |rows|)
  {
    if rows != [] {
      var n := |rows| - 1;
      CallsOfNone(rows[..n]);
      assert forall i :: 0 <= i < n ==> rows[..n][i] == rows[i];
      if CallsIn(rows[..n], 0, n) {
        var i :| 0 <= i < n && Calling(rows[..n][i]);
        assert Calling(rows[i]);
      }
      if CallsIn(rows, 0, |rows|) && !Calling(rows[n]) {
        var i :| 0 <= i < |rows| && Calling(rows[i]);
        assert Calling(rows[..n][i]);
      }
    }
  }

  lemma ProseOfPart(rows: seq<Message>, a: nat, b: nat)
    requires a <= b <= |rows|
    ensures HasProse(rows[a..b]) <==> ProseIn(rows, a, b)
  {
    var part := rows[a..b];
    if HasProse(part) {
      var k :| 0 <= k < |part| && Prose(part[k]);
      assert Prose(rows[a + k]);
    }
    if ProseIn(rows, a, b) {
      var j :| a <= j < b && Prose(rows[j]);
      assert part[j - a] == rows[j];
    }
  }

  lemma CallsOfPart(rows: seq<Message>, a: nat, b: nat)
    requires a <= b <= |rows|
    ensures CallsOf(rows[a..b]) == [] <==> !CallsIn(rows, a, b)
  {
    var part := rows[a..b];
    CallsOfNone(part);
    if CallsIn(part, 0, |part|) {
      var k :| 0 <= k < |part| && Calling(part[k]);
      assert Calling(rows[a + k]);
    }
    if CallsIn(rows, a, b) {
      var i :| a <= i < b && Calling(rows[i]);
      assert part[i - a] == rows[i];
    }
  }

  ghost predicate ServedBy(rows: seq<Message>, k: nat)
    requires k <= |rows|
  {
    forall i :: 0 <= i < k && Calling(rows[i]) ==> ProseIn(rows, i, k)
  }

  lemma NothingOverPart(rows: seq<Message>, k: nat)
    requires k <= |rows|
    ensures NothingOver(rows[..k]) <==> ServedBy(rows, k)
  {
    var front := rows[..k];
    assert forall i :: 0 <= i < k ==> front[i] == rows[i];
    if NothingOver(front) {
      forall i | 0 <= i < k && Calling(rows[i]) ensures ProseIn(rows, i, k) {
        assert Calling(front[i]);
        var j :| i <= j < k && Prose(front[j]);
        assert Prose(rows[j]);
      }
    }
    if ServedBy(rows, k) {
      forall i | 0 <= i < k && Calling(front[i]) ensures exists j :: i <= j < k && Prose(front[j]) {
        assert Calling(rows[i]) && ProseIn(rows, i, k);
        var j :| i <= j < k && Prose(rows[j]);
        assert Prose(front[j]);
      }
    }
  }

  lemma EdgeIs(rows: seq<Message>, k: nat)
    requires k <= |rows|
    ensures EdgeHolds(rows, k) <==>
              if ProseIn(rows, k, |rows|) then ServedBy(rows, k)
              else if ProseIn(rows, 0, k) then !CallsIn(rows, k, |rows|)
              else !CallsIn(rows, 0, k)
  {
    hide NothingOver, HasProse, CallsOf, ProseIn, CallsIn, ServedBy;
    assert rows[k..|rows|] == rows[k..] && rows[0..k] == rows[..k];
    ProseOfPart(rows, k, |rows|);
    ProseOfPart(rows, 0, k);
    CallsOfPart(rows, k, |rows|);
    CallsOfPart(rows, 0, k);
    NothingOverPart(rows, k);
  }

  /** Where the turn row `i` stands in begins, or the transcript does. */
  function TurnStart(rows: seq<Message>, i: nat): (a: nat)
    requires i < |rows|
    ensures a <= i && (a == 0 || rows[a].role == User) && forall k :: a < k <= i ==> rows[k].role != User
  {
    if i == 0 || rows[i].role == User then i else TurnStart(rows, i - 1)
  }

  function TurnEnd(rows: seq<Message>, i: nat): (b: nat)
    requires i < |rows|
    ensures i < b <= |rows| && Boundary(rows, b) && forall k :: i < k < b ==> rows[k].role != User
    decreases |rows| - i
  {
    if i + 1 == |rows| || rows[i + 1].role == User then i + 1 else TurnEnd(rows, i + 1)
  }

  /** If every edge holds, every call is carried inside its own turn. */
  lemma EdgesGiveCarrier(rows: seq<Message>, i: nat)
    requires i < |rows| && Calling(rows[i])
    requires forall k :: 0 <= k <= |rows| && Boundary(rows, k) ==> EdgeHolds(rows, k)
    ensures HasCarrier(rows, i)
  {
    hide EdgeHolds;
    var a, b, n := TurnStart(rows, i), TurnEnd(rows, i), |rows|;
    assert Boundary(rows, b) && Boundary(rows, n);
    EdgeIs(rows, b);
    EdgeIs(rows, n);
    if j :| i <= j < b && Prose(rows[j]) {
      assert SameTurn(rows, i, j);
    } else {
      assert !ProseIn(rows, i, b);
      assert !ProseIn(rows, b, n);
      assert CallsIn(rows, 0, n);
      assert ProseIn(rows, 0, n);
      if rows[a].role == User {
        assert Boundary(rows, a);
        EdgeIs(rows, a);
        assert CallsIn(rows, a, n);
        ProseSplits(rows, a);
        var j :| a <= j < n && Prose(rows[j]);
        assert SameTurn(rows, i, j);
      } else {
        var j :| 0 <= j < n && Prose(rows[j]);
        assert SameTurn(rows, i, j);
      }
    }
  }

  /** If every call is carried inside its own turn, every edge holds. */
  lemma CarriersGiveEdge(rows: seq<Message>, k: nat)
    requires k <= |rows| && Boundary(rows, k)
    requires forall i :: 0 <= i < |rows| && Calling(rows[i]) ==> HasCarrier(rows, i)
    ensures EdgeHolds(rows, k)
  {
    var n := |rows|;
    EdgeIs(rows, k);
    hide EdgeHolds;
    if ProseIn(rows, k, n) {
      var p :| k <= p < n && Prose(rows[p]);
      forall i | 0 <= i < k && Calling(rows[i]) ensures ProseIn(rows, i, k) {
        assert HasCarrier(rows, i);
        var j :| i <= j < n && Prose(rows[j]) && SameTurn(rows, i, j);
        assert j < k;
      }
    } else if ProseIn(rows, 0, k) {
      if k < n {
        CarriersAreNear(rows, k);
      }
    } else {
      ProseSplits(rows, k);
      CarriersAreProse(rows);
    }
  }

  lemma ProseSplits(rows: seq<Message>, k: nat)
    requires k <= |rows|
    ensures ProseIn(rows, 0, |rows|) <==> ProseIn(rows, 0, k) || ProseIn(rows, k, |rows|)
  {
  }

  lemma CarriersAreProse(rows: seq<Message>)
    ensures (exists i :: 0 <= i < |rows| && HasCarrier(rows, i)) ==> ProseIn(rows, 0, |rows|)
  {
  }

  /** With no prose from a turn's beginning on, nothing in it or after it has a carrier. */
  lemma CarriersAreNear(rows: seq<Message>, k: nat)
    requires k < |rows| && rows[k].role == User
    ensures (exists i :: k <= i < |rows| && HasCarrier(rows, i)) ==> ProseIn(rows, k, |rows|)
  {
  }

  /**
   Reopening keeps every call on a message of the turn that made it exactly when each row that
   asked for tools has prose of its own turn to ride on: at or after it, or, when no prose at
   all comes after it, before it.
   */
  lemma ReopeningKeepsTurnsIff(rows: seq<Message>)
    ensures EveryTurnKeepsItsCalls(rows) <==> forall i :: 0 <= i < |rows| && Calling(rows[i]) ==> HasCarrier(rows, i)
  {
    hide CarriedUpTo, EdgeHolds, HasCarrier, Calling;
    forall k | 0 <= k <= |rows| ensures CarriedUpTo(rows, k) <==> EdgeHolds(rows, k) {
      CarriedUpToIff(rows, k);
    }
    if EveryTurnKeepsItsCalls(rows) {
      forall i | 0 <= i < |rows| && Calling(rows[i]) ensures HasCarrier(rows, i) {
        EdgesGiveCarrier(rows, i);
      }
    }
    if forall i :: 0 <= i < |rows| && Calling(rows[i]) ==> HasCarrier(rows, i) {
      forall k | 0 <= k <= |rows| && Boundary(rows, k) ensures CarriedUpTo(rows, k) {
        CarriersGiveEdge(rows, k);
      }
    }
  }

  /** A turn cut off before its prose: its call goes to the next turn's answer. */
  lemma CallsCanGoForward(c: ToolCall)
    ensures var rows := [Say(User, "q1"), Request("", [c]), Say(User, "q2"), Say(Assistant, "a2")];
            && Reopened(rows) == [Say(User, "q1"), Say(User, "q2"), Message(Assistant, "a2", None, [], [c])]
            && !EveryTurnKeepsItsCalls(rows)
  {
    hide EveryTurnKeepsItsCalls, HasCarrier, Reload;
    var rows := [Say(User, "q1"), Request("", [c]), Say(User, "q2"), Say(Assistant, "a2")];
    var none: seq<ToolCall> := [];
    assert none + [c] + none == [c];
    ReloadFour(rows[0], rows[1], rows[2], rows[3]);
    var kept: seq<Message> := [];
    assert kept + [rows[0]] == [rows[0]];
    SettleNothing(Reload(rows).0);
    assert Reload(rows).0 == [rows[0]] + [rows[2]] + [Message(Assistant, "a2", None, [], [c])];
    OtherTurn(rows, 1, 3, 2);
    ReopeningKeepsTurnsIff(rows);
  }

  /** A turn that ends in an empty answer: its call goes back to the turn before. */
  lemma CallsCanGoBack(c: ToolCall)
    ensures var rows := [Say(User, "q1"), Say(Assistant, "a1"), Say(User, "q2"), Request("", [c])];
            && Reopened(rows) == [Say(User, "q1"), Message(Assistant, "a1", None, [], [c]), Say(User, "q2")]
            && !EveryTurnKeepsItsCalls(rows)
  {
    hide EveryTurnKeepsItsCalls, HasCarrier, Reload, Settle;
    var rows := [Say(User, "q1"), Say(Assistant, "a1"), Say(User, "q2"), Request("", [c])];
    var none: seq<ToolCall> := [];
    assert none + none == none && none + [c] == [c];
    ReloadFour(rows[0], rows[1], rows[2], rows[3]);
    var kept: seq<Message>, first := [], [rows[0]];
    assert kept + first == first;
    assert Reload(rows) == (first + [rows[1]] + [rows[2]], [c]);
    SettleOne(first + [rows[1]], rows[2], [c]);
    SettleHere(first, rows[1], [c]);
    OtherTurn(rows, 3, 1, 2);
    ReopeningKeepsTurnsIff(rows);
  }

  /** With the one piece of prose across a turn's edge, a row has nothing of its own turn to ride on. */
  lemma OtherTurn(rows: seq<Message>, i: nat, p: nat, k: nat)
    requires i < |rows| && p < |rows| && k < |rows| && rows[k].role == User
    requires i < k < p || p < k < i
    requires forall j :: 0 <= j < |rows| && Prose(rows[j]) ==> j == p
    ensures !HasCarrier(rows, i)
  {
  }

  lemma ReloadFour(a: Message, b: Message, c: Message, d: Message)
    ensures Reload([]) == ([], [])
    ensures var r1 := Reloaded(([], []), a);
            var r2 := Reloaded(r1, b);
            var r3 := Reloaded(r2, c);
            Reload([a, b, c, d]) == Reloaded(r3, d)
  {
    ReloadMore([], a);
    ReloadMore([a], b);
    ReloadMore([a, b], c);
    ReloadMore([a, b, c], d);
    assert [] + [a] == [a] && [a] + [b] == [a, b] && [a, b] + [c] == [a, b, c] && [a, b, c] + [d] == [a, b, c, d];
  }

  function Reloaded(so: (seq<Message>, seq<ToolCall>), row: Message): (seq<Message>, seq<ToolCall>) {
    var (kept, pending) := so;
    if row.role == User then (kept + [Say(User, row.content)], pending)
    else if Prose(row) then (kept + [Message(Assistant, row.content, None, [], pending + row.calls)], [])
    else (kept, pending + row.calls)
  }
}
