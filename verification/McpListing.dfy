/**
 What a tool server is allowed to offer: names that could be identifiers, documents that do
 not nest past a limit, and a walk over its pages that always ends and always says what it
 did not carry.
 */
module McpListing {
  import opened Wrappers

  // ----- names ---------------------------------------------------------------------------------

  const MAX_NAME := 64
  const MAX_TOOLS := 100
  const MAX_PAGES := 10

  predicate NameStart(ch: char) {
    'A' <= ch <= 'Z' || 'a' <= ch <= 'z' || '0' <= ch <= '9' || ch == '_'
  }

  predicate NamePart(ch: char) {
    NameStart(ch) || ch == '.' || ch == '-'
  }

  predicate Plausible(name: string) {
    && 0 < |name| <= MAX_NAME
    && NameStart(name[0])
    && forall k :: 0 <= k < |name| ==> NamePart(name[k])
  }

  function Strip(space: char -> bool, s: string): string
    decreases |s|
  {
    if s == "" then ""
    else if space(s[0]) then Strip(space, s[1..])
    else if space(s[|s| - 1]) then Strip(space, s[..|s| - 1])
    else s
  }

  /** `t` stands in `s` from `i` on, with only spaces before and after it. */
  ghost predicate StandsAt(space: char -> bool, s: string, t: string, i: nat) {
    && i + |t| <= |s| && s[i..i + |t|] == t
    && forall k :: 0 <= k < |s| && !(i <= k < i + |t|) ==> space(s[k])
  }

  /** `t` is what stands between the spaces at either end of `s`. */
  ghost predicate Trimmed(space: char -> bool, s: string, t: string) {
    && (t != "" ==> !space(t[0]) && !space(t[|t| - 1]))
    && exists i: nat :: StandsAt(space, s, t, i)
  }

  lemma {:induction false} StripTrims(space: char -> bool, s: string)
    ensures Trimmed(space, s, Strip(space, s))
    decreases |s|
  {
    hide StandsAt;
    var t := Strip(space, s);
    if s == "" {
      Whole(space, s);
    } else if space(s[0]) {
      StripTrims(space, s[1..]);
      var i: nat :| StandsAt(space, s[1..], t, i);
      SpaceBefore(space, s, t, i);
    } else if space(s[|s| - 1]) {
      StripTrims(space, s[..|s| - 1]);
      var i: nat :| StandsAt(space, s[..|s| - 1], t, i);
      SpaceAfter(space, s, t, i);
    } else {
      Whole(space, s);
    }
  }

  lemma Whole(space: char -> bool, s: string)
    ensures StandsAt(space, s, s, 0)
  {
  }

  lemma SpaceBefore(space: char -> bool, s: string, t: string, i: nat)
    requires s != "" && space(s[0]) && StandsAt(space, s[1..], t, i)
    ensures StandsAt(space, s, t, i + 1)
  {
    assert s[i + 1..i + 1 + |t|] == s[1..][i..i + |t|];
    forall k | 0 <= k < |s| && !(i + 1 <= k < i + 1 + |t|) ensures space(s[k]) {
      assert k > 0 ==> s[k] == s[1..][k - 1];
    }
  }

  lemma SpaceAfter(space: char -> bool, s: string, t: string, i: nat)
    requires s != "" && space(s[|s| - 1]) && StandsAt(space, s[..|s| - 1], t, i)
    ensures StandsAt(space, s, t, i)
  {
    assert s[i..i + |t|] == s[..|s| - 1][i..i + |t|];
    forall k | 0 <= k < |s| && !(i <= k < i + |t|) ensures space(s[k]) {
      assert k < |s| - 1 ==> s[k] == s[..|s| - 1][k];
    }
  }

  /** There is only one such piece. */
  lemma OneTrim(space: char -> bool, s: string, t: string, t': string)
    requires Trimmed(space, s, t) && Trimmed(space, s, t')
    ensures t == t'
  {
    hide StandsAt;
    var i: nat :| StandsAt(space, s, t, i);
    var j: nat :| StandsAt(space, s, t', j);
    Inside(space, s, t, i, t', j);
    Inside(space, s, t', j, t, i);
    Lies(space, s, t, i);
    Lies(space, s, t', j);
  }

  lemma Lies(space: char -> bool, s: string, t: string, i: nat)
    requires StandsAt(space, s, t, i)
    ensures i + |t| <= |s| && s[i..i + |t|] == t
  {
  }

  /** A piece with no space at either end lies within any other that leaves only spaces outside. */
  lemma Inside(space: char -> bool, s: string, t: string, i: nat, t': string, j: nat)
    requires StandsAt(space, s, t, i) && StandsAt(space, s, t', j)
    requires t' != "" ==> !space(t'[0]) && !space(t'[|t'| - 1])
    ensures t' != "" ==> i <= j && j + |t'| <= i + |t|
  {
    if t' != "" {
      assert t'[0] == s[j] && t'[|t'| - 1] == s[j + |t'| - 1];
    }
  }

  /** The name, or None: never trimmed to fit, never repaired. */
  function CleanName(space: char -> bool, value: Option<string>): (name: Option<string>)
    ensures name.Some? ==> Plausible(name.value) && value.Some? && name.value == Strip(space, value.value)
    ensures name.None? ==> value.None? || !Plausible(Strip(space, value.value))
  {
    if value.None? then None
    else
      var name := Strip(space, value.value);
      if Plausible(name) then Some(name) else None
  }

  // ----- how deep a document nests ---------------------------------------------------------------

  /** A parsed document: only what holds other values matters here. */
  datatype Json = Plain | Holder(children: seq<Json>)

  function Height(v: Json): nat {
    if v.Plain? then 1 else 1 + HighestOf(v.children)
  }

  function HighestOf(vs: seq<Json>): nat {
    if vs == [] then 0
    else
      var first, rest := Height(vs[0]), HighestOf(vs[1..]);
      if first > rest then first else rest
  }

  /** Some chain of values, each held by the one before, is `d` long. */
  ghost predicate Nests(v: Json, d: int)
    decreases if d > 0 then d else 0
  {
    d <= 1 || (v.Holder? && exists k :: 0 <= k < |v.children| && Nests(v.children[k], d - 1))
  }

  lemma {:induction false} HighestIs(vs: seq<Json>, d: int)
    requires d > 0
    ensures HighestOf(vs) >= d <==> exists k :: 0 <= k < |vs| && Height(vs[k]) >= d
  {
    hide Height;
    if vs != [] {
      HighestIs(vs[1..], d);
      if k :| 0 <= k < |vs[1..]| && Height(vs[1..][k]) >= d {
        assert Height(vs[k + 1]) >= d;
      }
      if k :| 0 <= k < |vs| && Height(vs[k]) >= d {
        assert k > 0 ==> vs[1..][k - 1] == vs[k];
      }
    }
  }

  /** The height of a document is the length of its longest chain. */
  lemma {:induction false} HeightIs(v: Json, d: int)
    ensures Nests(v, d) <==> d <= Height(v)
    decreases if d > 0 then d else 0
  {
    if d > 1 && v.Holder? {
      HighestIs(v.children, d - 1);
      hide HighestOf;
      forall k | 0 <= k < |v.children| ensures Nests(v.children[k], d - 1) <==> d - 1 <= Height(v.children[k]) {
        HeightIs(v.children[k], d - 1);
      }
    }
  }

  function Size(v: Json): nat {
    if v.Plain? then 1 else 1 + SizeOf(v.children)
  }

  function SizeOf(vs: seq<Json>): nat {
    if vs == [] then 0 else Size(vs[0]) + SizeOf(vs[1..])
  }

  /** Everything on the stack, each with how deep it was found. */
  function Weight(pending: seq<(Json, int)>): nat {
    if pending == [] then 0 else Weight(pending[..|pending| - 1]) + Size(pending[|pending| - 1].0)
  }

  function DeepestOf(pending: seq<(Json, int)>): int {
    if pending == [] then 0
    else
      var front, last := DeepestOf(pending[..|pending| - 1]), pending[|pending| - 1];
      var here := last.1 - 1 + Height(last.0);
      if here > front then here else front
  }

  function AtDepth(vs: seq<Json>, depth: int): seq<(Json, int)> {
    if vs == [] then [] else AtDepth(vs[..|vs| - 1], depth) + [(vs[|vs| - 1], depth)]
  }

  lemma {:induction false} PushWeighs(pending: seq<(Json, int)>, vs: seq<Json>, depth: int)
    ensures Weight(pending + AtDepth(vs, depth)) == Weight(pending) + SizeOf(vs)
  {
    if vs == [] {
      assert pending + [] == pending;
    } else {
      var n := |vs| - 1;
      PushWeighs(pending, vs[..n], depth);
      var front := pending + AtDepth(vs[..n], depth);
      assert pending + AtDepth(vs, depth) == front + [(vs[n], depth)];
      assert (front + [(vs[n], depth)])[..|front|] == front;
      SizeOfFront(vs);
    }
  }

  lemma {:induction false} SizeOfFront(vs: seq<Json>)
    requires vs != []
    ensures SizeOf(vs) == SizeOf(vs[..|vs| - 1]) + Size(vs[|vs| - 1])
  {
    if |vs| > 1 {
      SizeOfFront(vs[1..]);
      assert vs[1..][..|vs| - 2] == vs[..|vs| - 1][1..];
    }
  }

  lemma {:induction false} PushDeepens(pending: seq<(Json, int)>, vs: seq<Json>, depth: int)
    requires depth >= 1
    ensures DeepestOf(pending + AtDepth(vs, depth)) ==
              if vs != [] && depth - 1 + HighestOf(vs) > DeepestOf(pending) then depth - 1 + HighestOf(vs)
                  else DeepestOf(pending)
  {
    if vs == [] {
      assert pending + [] == pending;
    } else {
      var n := |vs| - 1;
      PushDeepens(pending, vs[..n], depth);
      var front := pending + AtDepth(vs[..n], depth);
      assert pending + AtDepth(vs, depth) == front + [(vs[n], depth)];
      assert (front + [(vs[n], depth)])[..|front|] == front;
      HighestOfFront(vs);
    }
  }

  lemma {:induction false} HighestOfFront(vs: seq<Json>)
    requires vs != []
    ensures var front, last := HighestOf(vs[..|vs| - 1]), Height(vs[|vs| - 1]);
            HighestOf(vs) == if last > front then last else front
  {
    if |vs| > 1 {
      HighestOfFront(vs[1..]);
      assert vs[1..][..|vs| - 2] == vs[..|vs| - 1][1..];
    }
  }

  lemma {:induction false} HeightIsPositive(vs: seq<Json>)
    ensures HighestOf(vs) >= 1 <==> vs != []
  {
  }

  /** The walk with its own stack says exactly whether the document is higher than the limit. */
  method TooDeep(value: Json, limit: int) returns (deep: bool)
    ensures deep <==> Height(value) > limit && Height(value) > 1
    ensures deep <==> Nests(value, limit + 1) && Nests(value, 2)
  {
    HeightIs(value, limit + 1);
    HeightIs(value, 2);
    hide Nests, Height, DeepestOf, Weight, SizeOf, HighestOf, AtDepth;
    var pending := [(value, 1)];
    OneDeep(value);
    while pending != []
      invariant forall k :: 0 <= k < |pending| ==> pending[k].1 == 1 || 1 < pending[k].1 <= limit
      invariant DeepestOf(pending) > limit && DeepestOf(pending) > 1 <==> Height(value) > limit && Height(value) > 1
      decreases Weight(pending)
    {
      var (node, depth) := pending[|pending| - 1];
      var rest := pending[..|pending| - 1];
      PopSays(pending);
      pending := rest;
      match node
      case Plain =>
      case Holder(children) =>
        HeightIsPositive(children);
        if children != [] && depth >= limit {
          return true;
        }
        PushWeighs(rest, children, depth + 1);
        PushDeepens(rest, children, depth + 1);
        DepthsPush(rest, children, depth + 1, limit);
        pending := rest + AtDepth(children, depth + 1);
    }
    NothingDeep();
    return false;
  }

  lemma NothingDeep()
    ensures DeepestOf([]) == 0
  {
  }

  lemma OneDeep(value: Json)
    ensures DeepestOf([(value, 1)]) == Height(value)
  {
    assert [(value, 1)][..0] == [];
  }

  lemma PopSays(pending: seq<(Json, int)>)
    requires pending != []
    ensures var (node, depth) := pending[|pending| - 1];
            var rest := pending[..|pending| - 1];
            && Weight(pending) == Weight(rest) + Size(node)
            && Size(node) == (if node.Plain? then 1 else 1 + SizeOf(node.children))
            && Height(node) == (if node.Plain? then 1 else 1 + HighestOf(node.children))
            && DeepestOf(pending) == if depth - 1 + Height(node) > DeepestOf(rest) then depth - 1 + Height(node)
                else DeepestOf(rest)
  {
  }

  lemma {:induction false} DepthsPush(pending: seq<(Json, int)>, vs: seq<Json>, depth: int, limit: int)
    requires 1 < depth && (vs != [] ==> depth <= limit)
    requires forall k :: 0 <= k < |pending| ==> pending[k].1 == 1 || 1 < pending[k].1 <= limit
    ensures var all := pending + AtDepth(vs, depth);
            forall k :: 0 <= k < |all| ==> all[k].1 == 1 || 1 < all[k].1 <= limit
  {
    if vs != [] {
      DepthsPush(pending, vs[..|vs| - 1], depth, limit);
      assert pending + AtDepth(vs, depth) == (pending + AtDepth(vs[..|vs| - 1], depth)) + [(vs[|vs| - 1], depth)];
    }
  }

  // ----- the pages of an offer -----------------------------------------------------------------

  /** One item of a page: not an object, or a name (None when it is not a string) and the rest. */
  datatype Entry = Junk | Entry(name: Option<string>, offer: string)

  datatype Tool = Tool(name: string, offer: string)

  /** `entries` is None when the server did not send a list; `next` is empty when there is no next cursor. */
  datatype Page = Page(entries: Option<seq<Entry>>, next: string)

  /** Asking can raise; an answer that lists nothing is not a tool server. */
  datatype Listing = Raised | NotAToolServer | Listed(tools: seq<Tool>, skipped: nat)

  function Offered(space: char -> bool, e: Entry): Option<Tool> {
    if e.Junk? then None
    else
      var name := CleanName(space, e.name);
      if name.Some? then Some(Tool(name.value, e.offer)) else None
  }

  predicate Holds(tools: seq<Tool>, name: string) {
    exists k :: 0 <= k < |tools| && tools[k].name == name
  }

  /** What is admitted of everything received so far: first come, and no more than the ceiling. */
  function Admit(space: char -> bool, received: seq<Entry>): seq<Tool> {
    if received == [] then []
    else
      var n := |received| - 1;
      var before, tool := Admit(space, received[..n]), Offered(space, received[n]);
      if |before| < MAX_TOOLS && tool.Some? && !Holds(before, tool.value.name) then before + [tool.value] else before
  }

  /** Each name once, each plausible; and what is left out was implausible, a repeat, or past the ceiling. */
  lemma {:induction false} AdmitIsFirstCome(space: char -> bool, received: seq<Entry>)
    ensures var tools := Admit(space, received);
            && |tools| <= MAX_TOOLS
            && (forall k :: 0 <= k < |tools| ==> Plausible(tools[k].name))
            && (forall j, k :: 0 <= j < k < |tools| ==> tools[j].name != tools[k].name)
            && (forall p :: 0 <= p < |received| && Offered(space, received[p]).Some? ==>
                  |tools| == MAX_TOOLS || Holds(tools, Offered(space, received[p]).value.name))
  {
    hide Plausible;
    if received != [] {
      var n := |received| - 1;
      AdmitIsFirstCome(space, received[..n]);
      var before, tools := Admit(space, received[..n]), Admit(space, received);
      forall p | 0 <= p < |received| && Offered(space, received[p]).Some?
        ensures |tools| == MAX_TOOLS || Holds(tools, Offered(space, received[p]).value.name)
      {
        if p < n {
          assert received[..n][p] == received[p];
          if |tools| < MAX_TOOLS {
            var k :| 0 <= k < |before| && before[k].name == Offered(space, received[p]).value.name;
            assert tools[k] == before[k];
          }
        } else if tools != before {
          assert tools[|before|].name == Offered(space, received[p]).value.name;
        }
      }
    }
  }

  /** Whoever offered a name first is the one admitted under it. */
  lemma {:induction false} AdmittedIsFirst(space: char -> bool, received: seq<Entry>, k: nat)
    requires k < |Admit(space, received)|
    ensures exists p :: 0 <= p < |received| && Offered(space, received[p]) == Some(Admit(space, received)[k])
                        && !Holds(Admit(space, received[..p]), Admit(space, received)[k].name)
                        && Admit(space, received[..p]) == Admit(space, received)[..k]
  {
    var n := |received| - 1;
    var before := Admit(space, received[..n]);
    if k < |before| {
      AdmittedIsFirst(space, received[..n], k);
      var p :| 0 <= p < n && Offered(space, received[..n][p]) == Some(before[k])
               && !Holds(Admit(space, received[..n][..p]), before[k].name)
               && Admit(space, received[..n][..p]) == before[..k];
      assert received[..n][..p] == received[..p];
    } else {
      assert Offered(space, received[n]) == Some(Admit(space, received)[k]);
      assert Admit(space, received)[..k] == before;
    }
  }

  /** An entry offers a tool: it is named, and the name with its spaces off could be an identifier. */
  ghost predicate Offers(space: char -> bool, e: Entry, t: Tool) {
    e.Entry? && e.name.Some? && Trimmed(space, e.name.value, t.name) && Plausible(t.name) && t.offer == e.offer
  }

  lemma OffersIs(space: char -> bool, e: Entry, t: Tool)
    ensures Offered(space, e) == Some(t) <==> Offers(space, e, t)
  {
    hide Strip, Trimmed, Plausible;
    if e.Entry? && e.name.Some? {
      StripTrims(space, e.name.value);
      if Trimmed(space, e.name.value, t.name) {
        OneTrim(space, e.name.value, t.name, Strip(space, e.name.value));
      }
      assert t == Tool(t.name, t.offer);
    }
  }

  /** The p-th entry offers the tool, and no entry before it offers one of its name. */
  ghost predicate FirstOffer(space: char -> bool, received: seq<Entry>, p: nat, t: Tool) {
    && p < |received| && Offers(space, received[p], t)
    && forall q, other :: 0 <= q < p && Offers(space, received[q], other) ==> other.name != t.name
  }

  /**
   Admitted are exactly the first offers, one to a name, with the name and the offer of the entry
   that made it, as long as there was room when it came.
   */
  lemma AdmittedAre(space: char -> bool, received: seq<Entry>, t: Tool)
    ensures t in Admit(space, received) <==>
              exists p: nat :: FirstOffer(space, received, p, t) && |Admit(space, received[..p])| < MAX_TOOLS
  {
    hide Offered, Offers;
    forall e, other ensures Offered(space, e) == Some(other) <==> Offers(space, e, other) {
      OffersIs(space, e, other);
    }
    var tools := Admit(space, received);
    if t in tools {
      var k :| 0 <= k < |tools| && tools[k] == t;
      AdmittedIsFirst(space, received, k);
      var p :| 0 <= p < |received| && Offered(space, received[p]) == Some(t)
               && !Holds(Admit(space, received[..p]), t.name) && Admit(space, received[..p]) == tools[..k];
      AdmitIsFirstCome(space, received);
      AdmitIsFirstCome(space, received[..p]);
      forall q, other | 0 <= q < p && Offers(space, received[q], other) ensures other.name != t.name {
        assert received[..p][q] == received[q];
      }
      assert FirstOffer(space, received, p, t);
    }
    if p: nat :| FirstOffer(space, received, p, t) && |Admit(space, received[..p])| < MAX_TOOLS {
      NotHeldBefore(space, received, p, t);
      AdmitGrows(space, received, p);
    }
  }

  lemma NotHeldBefore(space: char -> bool, received: seq<Entry>, p: nat, t: Tool)
    requires FirstOffer(space, received, p, t)
    ensures !Holds(Admit(space, received[..p]), t.name)
    ensures Offered(space, received[p]) == Some(t)
  {
    hide Offered, Offers;
    OffersIs(space, received[p], t);
    var tools := Admit(space, received[..p]);
    forall k | 0 <= k < |tools| ensures tools[k].name != t.name {
      AdmittedIsFirst(space, received[..p], k);
      var q :| 0 <= q < p && Offered(space, received[..p][q]) == Some(tools[k]);
      OffersIs(space, received[q], tools[k]);
    }
  }

  /** What has been admitted stays, and a first offer is admitted when there is room. */
  lemma {:induction false} AdmitGrows(space: char -> bool, received: seq<Entry>, p: nat)
    requires p < |received| && Offered(space, received[p]).Some?
    requires var before := Admit(space, received[..p]);
             |before| < MAX_TOOLS && !Holds(before, Offered(space, received[p]).value.name)
    ensures Offered(space, received[p]).value in Admit(space, received)
  {
    hide Offered;
    var n := |received| - 1;
    if p < n {
      assert received[..n][..p] == received[..p];
      AdmitGrows(space, received[..n], p);
    }
  }

  /** Everything the pages carried, in order. */
  function Received(pages: seq<Page>): seq<Entry> {
    if pages == [] then []
    else
      var n := |pages| - 1;
      Received(pages[..n]) + if pages[n].entries.Some? then pages[n].entries.value else []
  }

  /** The cursor page `k` was asked with: none, then what the page before handed out. */
  function CursorOf(pages: seq<Page>, k: nat): string
    requires k <= |pages|
  {
    if k == 0 then "" else pages[k - 1].next
  }

  /** Each page is the answer to the cursor before it, and no cursor is asked with twice. */
  predicate Walked(answer: (nat, string) -> Option<Page>, pages: seq<Page>) {
    && (forall k :: 0 <= k < |pages| ==> answer(k, CursorOf(pages, k)) == Some(pages[k]) && pages[k].entries.Some?)
    && (pages != [] ==> DistinctCursors(pages, |pages| - 1))
  }

  ghost function AskedFor(pages: seq<Page>, n: nat): set<string>
    requires n <= |pages|
  {
    set k | 1 <= k <= n :: CursorOf(pages, k)
  }

  predicate DistinctCursors(pages: seq<Page>, last: nat)
    requires last <= |pages|
  {
    forall j, k :: 0 <= j < k <= last ==> CursorOf(pages, j) != CursorOf(pages, k)
  }

  /** The last page names another one that was never asked for. */
  predicate MoreUnseen(pages: seq<Page>) {
    && pages != []
    && forall k :: 0 <= k < |pages| ==> CursorOf(pages, k) != pages[|pages| - 1].next
  }

  method ListTools(space: char -> bool, answer: (nat, string) -> Option<Page>)
    returns (r: Listing, requests: nat, ghost pages: seq<Page>)
    ensures 1 <= requests <= MAX_PAGES
    ensures Walked(answer, pages) && |pages| <= requests <= |pages| + 1
    ensures r.Listed? ==> requests == |pages| && r.tools == Admit(space, Received(pages))
    ensures r.Listed? ==> |r.tools| + r.skipped == |Received(pages)| + if MoreUnseen(pages) then 1 else 0
    ensures r.Listed? && MoreUnseen(pages) ==> |r.tools| == MAX_TOOLS || |pages| == MAX_PAGES
    ensures !r.Listed? ==> requests == |pages| + 1
    ensures r.Raised? ==> answer(|pages|, CursorOf(pages, |pages|)).None?
    ensures r.NotAToolServer? ==> exists p :: answer(|pages|, CursorOf(pages, |pages|)) == Some(p) && p.entries.None?
  {
    hide Received, Admit, Offered, Walked, DistinctCursors, MoreUnseen, CursorOf, AskedFor, Holds;
    var admitted: seq<Tool>, seenCursors: set<string>, skipped, cursor := [], {}, 0, "";
    var seenNames: set<string> := {};
    pages := [];
    requests := 0;
    NothingReceived(space);
    NothingAsked(answer);
    for page := 0 to MAX_PAGES
      invariant |pages| == page == requests && Walked(answer, pages) && cursor == CursorOf(pages, page)
      invariant page < MAX_PAGES && DistinctCursors(pages, page)
      invariant seenCursors == AskedFor(pages, page)
      invariant forall n :: n in seenNames <==> Holds(admitted, n)
      invariant admitted == Admit(space, Received(pages)) && |admitted| + skipped == |Received(pages)|
      invariant |admitted| <= MAX_TOOLS
    {
      var result := answer(page, cursor);
      requests := requests + 1;
      if result.None? {
        return Raised, requests, pages;
      }
      if result.value.entries.None? {
        return NotAToolServer, requests, pages;
      }
      var entries := result.value.entries.value;
      ghost var before := Received(pages);
      assert before + entries[..0] == before;
      for i := 0 to |entries|
        invariant forall n :: n in seenNames <==> Holds(admitted, n)
        invariant admitted == Admit(space, before + entries[..i]) && |admitted| + skipped == |before| + i
        invariant |admitted| <= MAX_TOOLS
      {
        AdmitMore(space, before, entries, i);
        if |admitted| >= MAX_TOOLS {
          skipped := skipped + 1;
          continue;
        }
        var tool := Offered(space, entries[i]);
        if tool.None? || tool.value.name in seenNames {
          skipped := skipped + 1;
          continue;
        }
        seenNames := seenNames + {tool.value.name};
        HoldsMore(admitted, tool.value);
        admitted := admitted + [tool.value];
      }
      assert entries[..|entries|] == entries;
      ReceivedMore(pages, result.value);
      CursorsMore(answer, pages, result.value);
      pages := pages + [result.value];
      var nextCursor := result.value.next;
      if nextCursor == "" || nextCursor in seenCursors {
        break;
      }
      if |admitted| >= MAX_TOOLS || page == MAX_PAGES - 1 {
        skipped := skipped + 1;
        break;
      }
      seenCursors := seenCursors + {nextCursor};
      cursor := nextCursor;
    }
    return Listed(admitted, skipped), requests, pages;
  }

  lemma NothingReceived(space: char -> bool)
    ensures Received([]) == [] && Admit(space, []) == []
  {
  }

  lemma NothingAsked(answer: (nat, string) -> Option<Page>)
    ensures Walked(answer, []) && DistinctCursors([], 0) && AskedFor([], 0) == {} && CursorOf([], 0) == ""
    ensures forall n :: !Holds([], n)
  {
  }

  lemma ReceivedMore(pages: seq<Page>, p: Page)
    ensures Received(pages + [p]) == Received(pages) + if p.entries.Some? then p.entries.value else []
  {
    assert (pages + [p])[..|pages|] == pages;
  }

  lemma AdmitMore(space: char -> bool, before: seq<Entry>, entries: seq<Entry>, i: nat)
    requires i < |entries|
    ensures var tools, tool := Admit(space, before + entries[..i]), Offered(space, entries[i]);
            Admit(space, before + entries[..i + 1]) ==
              if |tools| < MAX_TOOLS && tool.Some? && !Holds(tools, tool.value.name) then tools + [tool.value]
                  else tools
  {
    var all := before + entries[..i + 1];
    assert all[..|all| - 1] == before + entries[..i];
  }

  lemma HoldsMore(tools: seq<Tool>, t: Tool)
    ensures forall n :: Holds(tools + [t], n) <==> Holds(tools, n) || n == t.name
  {
    forall n ensures Holds(tools + [t], n) <==> Holds(tools, n) || n == t.name {
      if Holds(tools, n) {
        var k :| 0 <= k < |tools| && tools[k].name == n;
        assert (tools + [t])[k].name == n;
      }
      assert (tools + [t])[|tools|] == t;
    }
  }

  lemma CursorsStay(pages: seq<Page>, p: Page)
    ensures forall k :: 0 <= k <= |pages| ==> CursorOf(pages + [p], k) == CursorOf(pages, k)
    ensures CursorOf(pages + [p], |pages| + 1) == p.next
  {
  }

  lemma CursorsMore(answer: (nat, string) -> Option<Page>, pages: seq<Page>, p: Page)
    requires Walked(answer, pages) && DistinctCursors(pages, |pages|)
    requires answer(|pages|, CursorOf(pages, |pages|)) == Some(p) && p.entries.Some?
    ensures Walked(answer, pages + [p])
    ensures forall k :: 0 <= k <= |pages| ==> CursorOf(pages + [p], k) == CursorOf(pages, k)
    ensures MoreUnseen(pages + [p]) <==> p.next != "" && p.next !in AskedFor(pages, |pages|)
    ensures MoreUnseen(pages + [p]) ==> DistinctCursors(pages + [p], |pages| + 1)
    ensures AskedFor(pages + [p], |pages| + 1) == AskedFor(pages, |pages|) + {p.next}
    ensures CursorOf(pages + [p], |pages| + 1) == p.next
  {
    CursorsStay(pages, p);
    hide *;
    StillWalked(answer, pages, p);
    UnseenIs(pages, p);
    AskedMore(pages, p);
  }

  lemma StillWalked(answer: (nat, string) -> Option<Page>, pages: seq<Page>, p: Page)
    requires Walked(answer, pages) && DistinctCursors(pages, |pages|)
    requires answer(|pages|, CursorOf(pages, |pages|)) == Some(p) && p.entries.Some?
    ensures Walked(answer, pages + [p])
  {
    CursorsStay(pages, p);
    hide CursorOf;
  }

  lemma UnseenIs(pages: seq<Page>, p: Page)
    requires DistinctCursors(pages, |pages|)
    ensures MoreUnseen(pages + [p]) <==> p.next != "" && p.next !in AskedFor(pages, |pages|)
    ensures MoreUnseen(pages + [p]) ==> DistinctCursors(pages + [p], |pages| + 1)
  {
    CursorsStay(pages, p);
    assert CursorOf(pages, 0) == "";
    hide CursorOf;
  }

  lemma AskedMore(pages: seq<Page>, p: Page)
    ensures AskedFor(pages + [p], |pages| + 1) == AskedFor(pages, |pages|) + {p.next}
  {
    CursorsStay(pages, p);
    hide CursorOf;
  }
}
