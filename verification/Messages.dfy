/**
 The message list a conversation is made of, and the pairing rule every provider
 enforces on it: an assistant message that requested tools is followed at once by
 exactly one result per call, in the order of the calls, and no result stands
 anywhere else.
 */
module Messages {
  import opened Wrappers

  datatype Role = System | User | Assistant | Tool

  datatype ToolCall = ToolCall(id: string, toolId: string)

  /** `pastCalls` is history only: what an earlier session asked for. No provider reads it. */
  datatype Message = Message(
    role: Role,
    content: string,
    toolCallId: Option<string>,
    calls: seq<ToolCall>,
    pastCalls: seq<ToolCall>)

  function Say(role: Role, content: string): Message {
    Message(role, content, None, [], [])
  }

  function Request(content: string, calls: seq<ToolCall>): Message {
    Message(Assistant, content, None, calls, [])
  }

  function ResultOf(id: string, content: string): Message {
    Message(Tool, content, Some(id), [], [])
  }

  /** How many results a message is owed. */
  function Owed(m: Message): nat {
    if m.role == Assistant then |m.calls| else 0
  }

  /** The first |calls| messages of `rest` answer the calls, one each, in order. */
  predicate AnsweredBy(calls: seq<ToolCall>, rest: seq<Message>) {
    && |calls| <= |rest|
    && forall k :: 0 <= k < |calls| ==> rest[k].role == Tool && rest[k].toolCallId == Some(calls[k].id)
  }

  predicate Paired(h: seq<Message>)
    decreases |h|
  {
    h == [] ||
    (&& h[0].role != Tool
     && var owed := Owed(h[0]);
        && (owed > 0 ==> AnsweredBy(h[0].calls, h[1..]))
        && Paired(h[1 + owed..]))
  }

  /** Nothing in the list was rebuilt from an earlier session. */
  predicate AllLive(h: seq<Message>) {
    forall k :: 0 <= k < |h| ==> h[k].pastCalls == []
  }

  /** A history that opens with a message and the results it is owed is as paired as the rest of it. */
  lemma PairedBlock(h: seq<Message>, front: seq<Message>, back: seq<Message>)
    requires h == front + back && front != [] && |front| == 1 + Owed(front[0])
    ensures Paired(h) <==>
            front[0].role != Tool && (Owed(front[0]) > 0 ==> AnsweredBy(front[0].calls, front[1..])) && Paired(back)
  {
    var owed := Owed(front[0]);
    assert h[0] == front[0] && h[1 + owed..] == back;
    assert forall k :: 0 <= k < owed ==> h[1..][k] == front[1..][k];
  }

  /** Two paired histories, one after the other, are one paired history. */
  lemma {:induction false} PairedAppend(a: seq<Message>, b: seq<Message>)
    requires Paired(a) && Paired(b)
    ensures Paired(a + b)
    decreases |a|
  {
    if a == [] {
      assert a + b == b;
    } else {
      var n := 1 + Owed(a[0]);
      var c, front, back := a + b, a[..n], a[n..];
      assert a == front + back && c == front + (back + b);
      PairedAppend(back, b);
      PairedBlock(a, front, back);
      PairedBlock(c, front, back + b);
    }
  }

  /** The first block of a paired history: a message and its results; what follows is paired too. */
  lemma FirstBlock(h: seq<Message>)
    requires Paired(h) && h != []
    ensures h[0].role != Tool && 1 + Owed(h[0]) <= |h| && Paired(h[1 + Owed(h[0])..])
    ensures Owed(h[0]) > 0 ==> AnsweredBy(h[0].calls, h[1..1 + Owed(h[0])])
    ensures forall j :: 1 <= j < 1 + Owed(h[0]) ==> h[j].role == Tool
  {
  }

  /** From any message but a result on, a paired history is paired. */
  lemma {:induction false} SuffixPaired(h: seq<Message>, k: nat)
    requires Paired(h) && k < |h| && h[k].role != Tool
    ensures Paired(h[k..])
    decreases |h|
  {
    FirstBlock(h);
    hide Paired, AnsweredBy;
    var n := 1 + Owed(h[0]);
    if k == 0 {
      assert h[k..] == h;
    } else {
      assert k >= n;
      var back := h[n..];
      assert h[k..] == back[k - n..];
      if k - n < |back| {
        SuffixPaired(back, k - n);
      }
    }
  }

  /** A prefix is paired on its own exactly when it does not stop between a request and its results. */
  lemma {:induction false} PrefixIff(h: seq<Message>, k: nat)
    requires Paired(h) && k <= |h|
    ensures Paired(h[..k]) <==> (k == |h| || h[k].role != Tool)
    decreases |h|
  {
    if k == 0 || k == |h| {
      assert h[..k] == [] || h[..k] == h;
      if h != [] {
        FirstBlock(h);
      }
    } else {
      FirstBlock(h);
      var n := 1 + Owed(h[0]);
      if k < n {
        assert |h[..k][1..]| < Owed(h[..k][0]);
      } else {
        hide Paired;
        var front, back := h[..n], h[n..];
        PrefixIff(back, k - n);
        assert h[..k] == front + back[..k - n];
        PairedBlock(h[..k], front, back[..k - n]);
        assert front[1..] == h[1..n];
      }
    }
  }

  /** What stands just before a non-result in a paired history owes nothing. */
  lemma {:induction false} NothingOwedBefore(h: seq<Message>, k: nat)
    requires Paired(h) && 0 < k < |h| && h[k].role != Tool
    ensures Owed(h[k - 1]) == 0
    decreases |h|
  {
    FirstBlock(h);
    hide Paired, AnsweredBy;
    var n := 1 + Owed(h[0]);
    if k > n {
      NothingOwedBefore(h[n..], k - n);
    }
  }

  // ----- the rule, position by position -----------------------------------------------------

  /** The request at `j` is what the result at `k` answers. */
  predicate Asks(h: seq<Message>, j: nat, k: nat)
    requires j < |h|
  {
    j < k <= j + Owed(h[j])
  }

  predicate EachAnswered(h: seq<Message>) {
    forall j :: 0 <= j < |h| && Owed(h[j]) > 0 ==> AnsweredBy(h[j].calls, h[j + 1..])
  }

  predicate EachAsked(h: seq<Message>) {
    forall k :: 0 <= k < |h| && h[k].role == Tool ==> exists j :: 0 <= j < k && Asks(h, j, k)
  }

  lemma AnswersAreResults(h: seq<Message>, j: nat, k: nat)
    requires j < |h| && EachAnswered(h) && Asks(h, j, k)
    ensures k < |h| && h[k].role == Tool
  {
    assert AnsweredBy(h[j].calls, h[j + 1..]);
    assert h[j + 1..][k - j - 1] == h[k];
  }

  /** Paired is: every request is answered at once, call by call, and every result has a request it answers. */
  lemma {:induction false} PairedIff(h: seq<Message>)
    ensures Paired(h) <==> EachAnswered(h) && EachAsked(h)
    decreases |h|
  {
    if h != [] {
      var n := 1 + Owed(h[0]);
      if Paired(h) {
        PairedIff(h[n..]);
        TailTells(h, n);
      }
      if EachAnswered(h) && EachAsked(h) {
        assert h[0].role != Tool;
        if Owed(h[0]) > 0 {
          assert AnsweredBy(h[0].calls, h[0 + 1..]);
        }
        TailIsTold(h, n);
        PairedIff(h[n..]);
      }
    }
  }

  lemma TailTells(h: seq<Message>, n: nat)
    requires h != [] && n == 1 + Owed(h[0]) <= |h| && h[0].role != Tool
    requires Owed(h[0]) > 0 ==> AnsweredBy(h[0].calls, h[1..])
    requires EachAnswered(h[n..]) && EachAsked(h[n..])
    ensures EachAnswered(h) && EachAsked(h)
  {
    hide AnsweredBy;
    var rest := h[n..];
    forall j | 0 <= j < |h| && Owed(h[j]) > 0 ensures AnsweredBy(h[j].calls, h[j + 1..]) {
      if 0 < j < n {
        ResultAt(h, j);
      } else if j >= n {
        assert rest[j - n] == h[j] && rest[j - n + 1..] == h[j + 1..];
      }
    }
    forall k | 0 <= k < |h| && h[k].role == Tool ensures exists j :: 0 <= j < k && Asks(h, j, k) {
      if k < n {
        assert Asks(h, 0, k);
      } else {
        assert rest[k - n] == h[k];
        var j :| 0 <= j < k - n && Asks(rest, j, k - n);
        assert rest[j] == h[j + n] && Asks(h, j + n, k);
      }
    }
  }

  lemma ResultAt(h: seq<Message>, j: nat)
    requires h != [] && 0 < j <= Owed(h[0]) < |h| && AnsweredBy(h[0].calls, h[1..])
    ensures h[j].role == Tool && Owed(h[j]) == 0
  {
    assert h[1..][j - 1] == h[j];
  }

  lemma TailIsTold(h: seq<Message>, n: nat)
    requires h != [] && n == 1 + Owed(h[0]) && EachAnswered(h) && EachAsked(h)
    ensures n <= |h| && EachAnswered(h[n..]) && EachAsked(h[n..])
  {
    if n > 1 {
      AnswersAreResults(h, 0, n - 1);
    }
    hide AnsweredBy;
    var rest := h[n..];
    forall j | 0 <= j < |rest| && Owed(rest[j]) > 0 ensures AnsweredBy(rest[j].calls, rest[j + 1..]) {
      assert rest[j] == h[j + n] && rest[j + 1..] == h[j + n + 1..];
    }
    forall k | 0 <= k < |rest| && rest[k].role == Tool ensures exists j :: 0 <= j < k && Asks(rest, j, k) {
      assert h[k + n] == rest[k];
      var j :| 0 <= j < k + n && Asks(h, j, k + n);
      if 0 < j < n {
        AnswersAreResults(h, 0, j);
      }
      assert rest[j - n] == h[j] && Asks(rest, j - n, k);
    }
  }
}
