/**
 Threading streamed prose to the reader. Deltas within one send are relayed as they
 are; the first text of a later send in the same turn is a new utterance, and is set
 off from what is already on screen by topping its trailing newlines up to two.
 */
module Relay {

  const SEGMENT_BREAK := "\n\n"

  function TrailingNewlines(s: string): nat {
    if s == "" || s[|s| - 1] != '\n' then 0 else 1 + TrailingNewlines(s[..|s| - 1])
  }

  function Newlines(n: nat): string {
    seq(n, _ => '\n')
  }

  /** The newlines `shown` lacks before a new utterance may follow it. */
  function Missing(shown: string): nat {
    var run := TrailingNewlines(shown);
    if run < |SEGMENT_BREAK| then |SEGMENT_BREAK| - run else 0
  }

  /** What the reader sees once the given utterances, one per send, have been said. */
  function Thread(said: seq<string>): string {
    if said == [] then ""
    else
      var before, last := Thread(said[..|said| - 1]), said[|said| - 1];
      if before == "" || last == "" then before + last
      else before + Newlines(Missing(before)) + last
  }

  function Flat(said: seq<string>): string {
    if said == [] then "" else Flat(said[..|said| - 1]) + said[|said| - 1]
  }

  function WithoutNewlines(s: string): string {
    if s == "" then ""
    else
      var rest := WithoutNewlines(s[..|s| - 1]);
      if s[|s| - 1] == '\n' then rest else rest + [s[|s| - 1]]
  }

  // ----- what the stream promises --------------------------------------------------

  lemma {:induction false} TrailingAppend(a: string, b: string)
    ensures TrailingNewlines(b) <= |b|
    ensures TrailingNewlines(a + b) ==
            if TrailingNewlines(b) == |b| then TrailingNewlines(a) + |b| else TrailingNewlines(b)
    decreases |b|
  {
    if b == "" {
      assert a + b == a;
    } else {
      assert (a + b)[..|a + b| - 1] == a + b[..|b| - 1];
      TrailingAppend(a, b[..|b| - 1]);
    }
  }

  lemma {:induction false} TrailingOfNewlines(n: nat)
    ensures TrailingNewlines(Newlines(n)) == n
  {
    if n > 0 {
      assert Newlines(n)[..n - 1] == Newlines(n - 1);
      TrailingOfNewlines(n - 1);
    }
  }

  /**
   What a later utterance adds to the screen is itself, preceded by newlines only: enough
   that at least two precede it, and no fewer would have done.
   */
  lemma SegmentBreak(said: seq<string>, next: string)
    requires Thread(said) != "" && next != ""
    ensures var pad := Newlines(Missing(Thread(said)));
            && Thread(said + [next]) == Thread(said) + pad + next
            && TrailingNewlines(Thread(said) + pad) >= |SEGMENT_BREAK|
            && forall n: nat :: n < |pad| ==> TrailingNewlines(Thread(said) + Newlines(n)) < |SEGMENT_BREAK|
  {
    assert (said + [next])[..|said|] == said;
    forall n: nat
      ensures TrailingNewlines(Thread(said) + Newlines(n)) == TrailingNewlines(Thread(said)) + n
    {
      TrailingOfNewlines(n);
      TrailingAppend(Thread(said), Newlines(n));
    }
  }

  /** Nothing said is ever taken back: more utterances only extend the screen. */
  lemma {:induction false} ThreadGrows(said: seq<string>, more: seq<string>)
    ensures Thread(said) <= Thread(said + more)
    decreases |more|
  {
    if more == [] {
      assert said + more == said;
    } else {
      var all := said + more;
      assert all[..|all| - 1] == said + more[..|more| - 1];
      ThreadGrows(said, more[..|more| - 1]);
    }
  }

  /** `shown` is `flat`, every character in its place, with newlines put in. */
  predicate Woven(flat: string, shown: string)
    decreases |shown|
  {
    if shown == "" then flat == ""
    else
      var front, last := shown[..|shown| - 1], shown[|shown| - 1];
      || (flat != "" && flat[|flat| - 1] == last && Woven(flat[..|flat| - 1], front))
      || (last == '\n' && Woven(flat, front))
  }

  lemma {:induction false} WovenSelf(text: string)
    ensures Woven(text, text)
  {
    if text != "" {
      WovenSelf(text[..|text| - 1]);
    }
  }

  lemma {:induction false} WovenNewlines(n: nat)
    ensures Woven("", Newlines(n))
  {
    if n > 0 {
      assert Newlines(n)[..n - 1] == Newlines(n - 1);
      WovenNewlines(n - 1);
    }
  }

  lemma {:induction false} WovenJoins(flat: string, shown: string, flat': string, shown': string)
    requires Woven(flat, shown) && Woven(flat', shown')
    ensures Woven(flat + flat', shown + shown')
    decreases |shown'|
  {
    var f, s := flat + flat', shown + shown';
    if shown' == "" {
      assert f == flat && s == shown;
    } else {
      var front, last := shown'[..|shown'| - 1], shown'[|shown'| - 1];
      assert s[..|s| - 1] == shown + front;
      if flat' != "" && flat'[|flat'| - 1] == last && Woven(flat'[..|flat'| - 1], front) {
        WovenJoins(flat, shown, flat'[..|flat'| - 1], front);
        assert f[..|f| - 1] == flat + flat'[..|flat'| - 1];
      } else {
        WovenJoins(flat, shown, flat', front);
      }
    }
  }

  lemma {:induction false} WovenSameText(flat: string, shown: string)
    requires Woven(flat, shown)
    ensures WithoutNewlines(flat) == WithoutNewlines(shown) && |flat| <= |shown|
    decreases |shown|
  {
    if shown != "" {
      var front, last := shown[..|shown| - 1], shown[|shown| - 1];
      if flat != "" && flat[|flat| - 1] == last && Woven(flat[..|flat| - 1], front) {
        WovenSameText(flat[..|flat| - 1], front);
      } else {
        WovenSameText(flat, front);
      }
    }
  }

  /** One more utterance, joined on with the newlines it is owed. */
  lemma JoinedWoven(flat: string, before: string, pad: nat, last: string)
    requires Woven(flat, before)
    ensures Woven(flat + last, before + last) && Woven(flat + last, before + Newlines(pad) + last)
  {
    hide Woven;
    WovenSelf(last);
    WovenNewlines(pad);
    WovenJoins(flat, before, last, last);
    WovenJoins(flat, before, "", Newlines(pad));
    assert flat + "" == flat;
    WovenJoins(flat, before + Newlines(pad), last, last);
  }

  /**
   The screen is the utterances in order, every character of them in its place, with newlines
   alone put in, at most two a send.
   */
  lemma {:induction false} OnlyNewlinesAreAdded(said: seq<string>)
    ensures Woven(Flat(said), Thread(said)) && WithoutNewlines(Thread(said)) == WithoutNewlines(Flat(said))
    ensures |Flat(said)| <= |Thread(said)| <= |Flat(said)| + |SEGMENT_BREAK| * |said|
    ensures Thread(said) == "" <==> forall k :: 0 <= k < |said| ==> said[k] == ""
  {
    hide Woven, WithoutNewlines;
    if said == [] {
      WovenSelf("");
    } else {
      var front, last := said[..|said| - 1], said[|said| - 1];
      OnlyNewlinesAreAdded(front);
      JoinedWoven(Flat(front), Thread(front), Missing(Thread(front)), last);
      assert forall k :: 0 <= k < |front| ==> front[k] == said[k];
    }
    WovenSameText(Flat(said), Thread(said));
  }

  // ----- the relay itself ------------------------------------------------------------

  /** `said` with `text` added to the utterance in progress. */
  function Heard(said: seq<string>, text: string): seq<string>
    requires said != []
  {
    said[..|said| - 1] + [said[|said| - 1] + text]
  }

  lemma ThreadUnfold(front: seq<string>, last: string)
    ensures Thread(front + [last]) ==
            if Thread(front) == "" || last == "" then Thread(front) + last
            else Thread(front) + Newlines(Missing(Thread(front))) + last
  {
    assert (front + [last])[..|front|] == front;
  }

  lemma Regroup(a: string, b: string, c: string)
    ensures a + (b + c) == a + b + c
    ensures a + "" == a && "" + a == a
  {
  }

  /** Where a chunk lands: after a break if it opens a later utterance, and as it is otherwise. */
  lemma HeardExtendsThread(front: seq<string>, last: string, text: string, chunk: string)
    requires text != ""
    requires var shown := Thread(front + [last]);
             chunk == if last == "" && shown != "" then Newlines(Missing(shown)) + text else text
    ensures Thread(front + [last + text]) == Thread(front + [last]) + chunk
    ensures Thread(front + [last + text]) != ""
  {
    var before := Thread(front);
    var pad := Newlines(Missing(before));
    ThreadUnfold(front, last);
    ThreadUnfold(front, last + text);
    Regroup(before, last, text);
    Regroup(before, pad, text);
    Regroup(before + pad, last, text);
  }

  lemma HeardNothing(said: seq<string>)
    requires said != []
    ensures Heard(said, "") == said
  {
    assert said[|said| - 1] + "" == said[|said| - 1];
  }

  class DeltaRelay {
    const hasSink: bool
    var shownThisSend: bool
    var shownThisTurn: bool
    var trailingNewlines: nat
    var screen: string         // everything the sink has been handed
    ghost var said: seq<string> // what was shown, one entry per send begun

    ghost predicate Valid()
      reads this
    {
      && said != []
      && screen == Thread(said)
      && trailingNewlines == TrailingNewlines(screen)
      && (shownThisTurn <==> screen != "")
      && (shownThisSend <==> said[|said| - 1] != "")
      && (!hasSink ==> screen == "")
    }

    constructor (hasSink: bool)
      ensures Valid() && this.hasSink == hasSink && said == [""]
    {
      this.hasSink := hasSink;
      shownThisSend, shownThisTurn, trailingNewlines := false, false, 0;
      screen, said := "", [""];
    }

    method BeginSend()
      requires Valid()
      modifies this
      ensures Valid() && said == old(said) + [""] && screen == old(screen)
    {
      shownThisSend := false;
      said := said + [""];
      assert said[..|said| - 1] == old(said);
    }

    method Push(text: string)
      requires Valid()
      modifies this
      ensures Valid() && said == if hasSink then Heard(old(said), text) else old(said)
    {
      if text == "" {
        HeardNothing(said);
        return;
      }
      if !hasSink {
        return;
      }
      var chunk := text;
      if !shownThisSend && shownThisTurn {
        var run := if trailingNewlines < |SEGMENT_BREAK| then trailingNewlines else |SEGMENT_BREAK|;
        chunk := Newlines(|SEGMENT_BREAK| - run) + text;
      }
      assert said == said[..|said| - 1] + [said[|said| - 1]];
      HeardExtendsThread(said[..|said| - 1], said[|said| - 1], text, chunk);
      shownThisSend := true;
      shownThisTurn := true;
      TrailingAppend(screen, chunk);
      var tail := TrailingNewlines(chunk);
      trailingNewlines := if tail < |chunk| then tail else trailingNewlines + tail;
      screen := screen + chunk;
      said := Heard(said, text);
    }
  }
}
