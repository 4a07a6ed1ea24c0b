/**
 What Addison believes each tool server offers, and what is registered for it: two records
 that change in the same call or not at all, even when registering fails halfway.
 */
module McpCatalog {
  import opened Wrappers
  import opened McpListing

  /** A tool in the registry: Addison's own, or one a server offered. */
  datatype Entered = Native(name: string) | Discovered(serverId: string, serverName: string, tool: Tool)

  datatype Status = Ok | Failed(error: string)

  datatype ServerCatalog = ServerCatalog(status: Status, tools: seq<Tool>, skipped: nat, refused: seq<string>)

  /** The registry's tools and which may leave it; each server's recorded ids and last check. */
  datatype Books = Books(
    tools: map<string, Entered>,
    removable: set<string>,
    ids: map<string, seq<string>>,
    states: map<string, ServerCatalog>)

  function ToolId(serverName: string, toolName: string): string {
    "mcp:" + serverName + ":" + toolName
  }

  // ----- ids -----------------------------------------------------------------------------------

  lemma NoColon(name: string)
    requires Plausible(name)
    ensures forall k :: 0 <= k < |name| ==> name[k] != ':'
  {
  }

  lemma LastColon(s: string, t: string, s': string, t': string)
    requires s + ":" + t == s' + ":" + t'
    requires (forall k :: 0 <= k < |t| ==> t[k] != ':') && (forall k :: 0 <= k < |t'| ==> t'[k] != ':')
    ensures |t| == |t'|
  {
    var whole := s + ":" + t;
    assert whole[|s|] == ':' && whole[|s'|] == ':';
  }

  /** An admitted name has no colon in it, so an id says which server and which tool, whatever the server is called. */
  lemma IdsAreDistinct(server: string, tool: string, server': string, tool': string)
    requires Plausible(tool) && Plausible(tool')
    ensures ToolId(server, tool) == ToolId(server', tool') <==> server == server' && tool == tool'
  {
    if ToolId(server, tool) == ToolId(server', tool') {
      var a, b := server + ":" + tool, server' + ":" + tool';
      assert "mcp:" + a == ToolId(server, tool) && "mcp:" + b == ToolId(server', tool');
      assert ("mcp:" + a)[4..] == a && ("mcp:" + b)[4..] == b;
      NoColon(tool);
      NoColon(tool');
      LastColon(server, tool, server', tool');
      assert a[|a| - |tool|..] == tool && b[|b| - |tool|..] == tool';
      assert a[..|a| - |tool| - 1] == server && b[..|b| - |tool| - 1] == server';
    }
  }

  // ----- what each call leaves ---------------------------------------------------------------

  function IdsOf(b: Books, serverId: string): seq<string> {
    if serverId in b.ids then b.ids[serverId] else []
  }

  /** Taking ids out: only what may leave does. */
  function Without(b: Books, gone: set<string>): Books {
    b.(tools := b.tools - (gone * b.removable), removable := b.removable - gone)
  }

  function Dropped(b: Books, serverId: string): Books {
    Without(b, SetOf(IdsOf(b, serverId))).(ids := b.ids - {serverId})
  }

  datatype Round = Round(books: Books, registered: seq<string>, refused: seq<string>, raised: bool)

  function Enter(b: Books, id: string, entered: Entered): Books {
    b.(tools := b.tools[id := entered], removable := b.removable + {id})
  }

  /** Registering an offer one tool at a time; `fails(k)` says whether registering the k-th raises. */
  function Join(b: Books, serverId: string, serverName: string, offer: seq<Tool>, fails: nat -> bool): Round {
    if offer == [] then Round(b, [], [], false)
    else
      var k := |offer| - 1;
      var r, id := Join(b, serverId, serverName, offer[..k], fails), ToolId(serverName, offer[k].name);
      if r.raised then r
      else if id in r.books.tools then r.(refused := r.refused + [offer[k].name])
      else if fails(k) then r.(raised := true)
      else r.(books := Enter(r.books, id, Discovered(serverId, serverName, offer[k])),
          registered := r.registered + [id])
  }

  datatype Call =
    | Success(serverId: string, serverName: string, offer: seq<Tool>, skipped: nat, fails: nat -> bool)
    | Failure(serverId: string, error: string)
    | Forget(serverId: string)

  function After(b: Books, call: Call): Books {
    var d := Dropped(b, call.serverId);
    match call
    case Success(s, name, offer, skipped, fails) =>
      var r := Join(d, s, name, offer, fails);
      if r.raised then
        Without(r.books, SetOf(r.registered)).(ids := d.ids[s := []], states := d.states - {s})
      else
        r.books.(ids := d.ids[s := r.registered], states := d.states[s := ServerCatalog(Ok, offer, skipped, r.refused)])
    case Failure(s, error) => d.(states := d.states[s := ServerCatalog(Failed(error), [], 0, [])])
    case Forget(s) => d.(states := d.states - {s})
  }

  // ----- the registry and the catalog ---------------------------------------------------------

  class ToolRegistry {
    var tools: map<string, Entered>
    var removable: set<string>

    constructor (natives: map<string, Entered>)
      ensures tools == natives && removable == {}
    {
      tools, removable := natives, {};
    }

    /** A discovered tool goes in under a free id; a taken id, or a fault, raises and changes nothing. */
    method Register(id: string, entered: Entered, fault: bool) returns (raised: bool)
      modifies this
      ensures raised <==> fault || id in old(tools)
      ensures raised ==> tools == old(tools) && removable == old(removable)
      ensures !raised ==> tools == old(tools)[id := entered] && removable == old(removable) + {id}
    {
      if fault || id in tools {
        return true;
      }
      tools := tools[id := entered];
      removable := removable + {id};
      return false;
    }

    /** Only what was registered as removable leaves; anything else raises and stays. */
    method Unregister(id: string) returns (raised: bool)
      modifies this
      ensures raised <==> id !in old(removable)
      ensures tools == if raised then old(tools) else old(tools) - {id}
      ensures removable == old(removable) - {id}
    {
      if id !in removable {
        return true;
      }
      tools := tools - {id};
      removable := removable - {id};
      return false;
    }
  }

  class Catalog {
    var byServer: map<string, ServerCatalog>
    var idsByServer: map<string, seq<string>>

    constructor ()
      ensures byServer == map[] && idsByServer == map[]
    {
      byServer, idsByServer := map[], map[];
    }

    ghost function View(registry: ToolRegistry): Books
      reads this, registry
    {
      Books(registry.tools, registry.removable, idsByServer, byServer)
    }

    method UnregisterEach(registry: ToolRegistry, ids: seq<string>)
      modifies registry
      ensures View(registry) == Without(old(View(registry)), SetOf(ids))
    {
      for i := 0 to |ids|
        invariant View(registry) == Without(old(View(registry)), SetOf(ids[..i]))
      {
        var raised := registry.Unregister(ids[i]);
        assert SetOf(ids[..i + 1]) == SetOf(ids[..i]) + {ids[i]};
      }
      assert ids[..|ids|] == ids;
    }

    method DropRegistrations(registry: ToolRegistry, serverId: string)
      modifies this, registry
      ensures View(registry) == Dropped(old(View(registry)), serverId)
    {
      var ids := if serverId in idsByServer then idsByServer[serverId] else [];
      idsByServer := idsByServer - {serverId};
      UnregisterEach(registry, ids);
    }

    /** A check that landed: this server's registrations replaced by what it just offered, or by nothing. */
    method RecordSuccess(registry: ToolRegistry, serverId: string, serverName: string, offer: seq<Tool>, skipped: nat,
                         fails: nat -> bool)
      returns (raised: bool)
      modifies this, registry
      ensures View(registry) == After(old(View(registry)), Success(serverId, serverName, offer, skipped, fails))
      ensures raised <==> Join(Dropped(old(View(registry)), serverId), serverId, serverName, offer, fails).raised
    {
      hide Join, Without;
      DropRegistrations(registry, serverId);
      ghost var d := View(registry);
      var registered, refused;
      raised, registered, refused := RegisterAll(registry, serverId, serverName, offer, fails);
      if raised {
        UnregisterEach(registry, registered);
        idsByServer := idsByServer[serverId := []];
        byServer := byServer - {serverId};
        return;
      }
      idsByServer := idsByServer[serverId := registered];
      byServer := byServer[serverId := ServerCatalog(Ok, offer, skipped, refused)];
    }

    method RegisterAll(registry: ToolRegistry, serverId: string, serverName: string, offer: seq<Tool>,
                       fails: nat -> bool)
      returns (raised: bool, registered: seq<string>, refused: seq<string>)
      modifies registry
      ensures Round(View(registry), registered, refused, raised) ==
                Join(old(View(registry)), serverId, serverName, offer, fails)
    {
      raised, registered, refused := false, [], [];
      for i := 0 to |offer|
        invariant !raised
        invariant Round(View(registry), registered, refused, raised) ==
                  Join(old(View(registry)), serverId, serverName, offer[..i], fails)
      {
        JoinMore(old(View(registry)), serverId, serverName, offer, fails, i);
        var id := ToolId(serverName, offer[i].name);
        if id in registry.tools {
          refused := refused + [offer[i].name];
          continue;
        }
        raised := registry.Register(id, Discovered(serverId, serverName, offer[i]), fails(i));
        if raised {
          RaisedStays(old(View(registry)), serverId, serverName, offer, fails, i + 1);
          return;
        }
        registered := registered + [id];
      }
      assert offer[..|offer|] == offer;
    }

    method RecordFailure(registry: ToolRegistry, serverId: string, error: string)
      modifies this, registry
      ensures View(registry) == After(old(View(registry)), Failure(serverId, error))
    {
      DropRegistrations(registry, serverId);
      byServer := byServer[serverId := ServerCatalog(Failed(error), [], 0, [])];
    }

    method ForgetServer(registry: ToolRegistry, serverId: string)
      modifies this, registry
      ensures View(registry) == After(old(View(registry)), Forget(serverId))
    {
      DropRegistrations(registry, serverId);
      byServer := byServer - {serverId};
    }
  }

  lemma JoinMore(b: Books, s: string, name: string, offer: seq<Tool>, fails: nat -> bool, i: nat)
    requires i < |offer|
    ensures var r, id := Join(b, s, name, offer[..i], fails), ToolId(name, offer[i].name);
            Join(b, s, name, offer[..i + 1], fails) ==
              if r.raised then r
              else if id in r.books.tools then r.(refused := r.refused + [offer[i].name])
              else if fails(i) then r.(raised := true)
              else r.(books := Enter(r.books, id, Discovered(s, name, offer[i])), registered := r.registered + [id])
  {
    assert offer[..i + 1][..i] == offer[..i];
  }

  lemma {:induction false} RaisedStays(b: Books, s: string, name: string, offer: seq<Tool>, fails: nat -> bool, i: nat)
    requires i <= |offer| && Join(b, s, name, offer[..i], fails).raised
    ensures Join(b, s, name, offer, fails) == Join(b, s, name, offer[..i], fails)
    decreases |offer| - i
  {
    if i < |offer| {
      JoinMore(b, s, name, offer, fails, i);
      RaisedStays(b, s, name, offer, fails, i + 1);
    } else {
      assert offer[..i] == offer;
    }
  }

  /** The k-th tool's registration faults: its id is free, and no earlier tool has taken it. */
  predicate FaultsAt(b: Books, serverName: string, offer: seq<Tool>, fails: nat -> bool, k: nat) {
    && k < |offer| && fails(k) && ToolId(serverName, offer[k].name) !in b.tools
    && forall j :: 0 <= j < k ==> ToolId(serverName, offer[j].name) != ToolId(serverName, offer[k].name)
  }

  predicate Named(serverName: string, offer: seq<Tool>, n: nat, id: string)
    requires n <= |offer|
  {
    exists k :: 0 <= k < n && ToolId(serverName, offer[k].name) == id
  }

  /** A round raises exactly when registering some tool that is not refused does. */
  lemma {:induction false} RaisesIff(b: Books, s: string, name: string, offer: seq<Tool>, fails: nat -> bool)
    ensures var r := Join(b, s, name, offer, fails);
            && (r.raised <==> exists k: nat :: FaultsAt(b, name, offer, fails, k))
            && (!r.raised ==>
                  forall id :: id in r.books.tools <==> id in b.tools || Named(name, offer, |offer|, id))
  {
    hide ToolId;
    if offer != [] {
      var n := |offer| - 1;
      var front := offer[..n];
      RaisesIff(b, s, name, front, fails);
      JoinMore(b, s, name, offer, fails, n);
      assert offer[..n + 1] == offer;
      assert forall k :: 0 <= k < n ==> front[k] == offer[k];
      hide Join;
      forall k: nat | k < n ensures FaultsAt(b, name, front, fails, k) <==> FaultsAt(b, name, offer, fails, k) {
      }
      var r := Join(b, s, name, front, fails);
      if r.raised {
        var k: nat :| FaultsAt(b, name, front, fails, k);
        assert FaultsAt(b, name, offer, fails, k);
      } else {
        forall id ensures Named(name, front, n, id) <==> Named(name, offer, n, id) {
        }
        FaultsLast(b, name, offer, fails, r.books);
        NamedMore(name, offer);
      }
    }
  }

  /** With no fault before it, the last tool's registration faults exactly when its id is still free. */
  lemma FaultsLast(b: Books, name: string, offer: seq<Tool>, fails: nat -> bool, r: Books)
    requires offer != []
    requires forall id :: id in r.tools <==> id in b.tools || Named(name, offer, |offer| - 1, id)
    ensures FaultsAt(b, name, offer, fails, |offer| - 1) <==>
              fails(|offer| - 1) && ToolId(name, offer[|offer| - 1].name) !in r.tools
  {
    hide ToolId;
  }

  lemma NamedMore(name: string, offer: seq<Tool>)
    requires offer != []
    ensures var n := |offer| - 1;
            forall id ::
              Named(name, offer, n + 1, id) <==> Named(name, offer, n, id) || id == ToolId(name, offer[n].name)
  {
    hide ToolId;
    var n := |offer| - 1;
    assert Named(name, offer, n + 1, ToolId(name, offer[n].name));
  }

  /**
   What a server's page says after a call for it: the offer as it was made and what was left out, or
   the error, or, when a registration raised or the server was forgotten, nothing.
   */
  lemma PageIs(b: Books, call: Call)
    ensures var states := After(b, call).states;
            match call
            case Success(s, name, offer, skipped, fails) =>
              if exists k: nat :: FaultsAt(Dropped(b, s), name, offer, fails, k) then s !in states
              else
                && s in states && states[s].status == Ok && states[s].tools == offer && states[s].skipped == skipped
            case Failure(s, error) =>
              s in states && states[s].status == Failed(error) && states[s].tools == [] && states[s].skipped == 0
            case Forget(s) => s !in states
  {
    hide Join, Dropped, FaultsAt;
    if call.Success? {
      RaisesIff(Dropped(b, call.serverId), call.serverId, call.serverName, call.offer, call.fails);
    }
  }

  // ----- the two records agree ---------------------------------------------------------------

  predicate IsFrom(e: Entered, serverId: string) {
    e.Discovered? && e.serverId == serverId
  }

  predicate NoRepeats(ids: seq<string>) {
    forall j, k :: 0 <= j < k < |ids| ==> ids[j] != ids[k]
  }

  /** Everything in the registry that did not come from this server. */
  function Others(b: Books, serverId: string): map<string, Entered> {
    map id | id in b.tools && !IsFrom(b.tools[id], serverId) :: b.tools[id]
  }

  /** What may leave is what servers offered. */
  ghost predicate NativesStay(b: Books) {
    forall id :: id in b.removable <==> id in b.tools && b.tools[id].Discovered?
  }

  /** A server's recorded ids are its registered tools, each once. */
  ghost predicate Recorded(b: Books, serverId: string) {
    && NoRepeats(IdsOf(b, serverId))
    && forall id :: id in IdsOf(b, serverId) <==> id in b.tools && IsFrom(b.tools[id], serverId)
  }

  /** Every tool a server's page lists is registered for it or named as refused; a page that lists none has none. */
  ghost predicate Honest(b: Books, serverId: string) {
    if serverId in b.states && b.states[serverId].status.Ok? then
      var state := b.states[serverId];
      && |IdsOf(b, serverId)| + |state.refused| == |state.tools|
      && forall k :: 0 <= k < |state.tools| ==>
          state.tools[k].name in state.refused || Offers(b, serverId, state.tools[k])
    else IdsOf(b, serverId) == []
  }

  ghost predicate Offers(b: Books, serverId: string, t: Tool) {
    exists id :: id in IdsOf(b, serverId) && id in b.tools && IsFrom(b.tools[id], serverId) && b.tools[id].tool == t
                 && id == ToolId(b.tools[id].serverName, t.name)
  }

  ghost predicate Consistent(b: Books) {
    && NativesStay(b)
    && (forall s :: Recorded(b, s))
    && (forall s :: Honest(b, s))
  }

  /** Dropping a server takes out exactly what came from it. */
  lemma DroppedIsOthers(b: Books, s: string)
    requires NativesStay(b) && Recorded(b, s)
    ensures Dropped(b, s).tools == Others(b, s) && NativesStay(Dropped(b, s))
    ensures forall id :: id in Others(b, s) ==> !IsFrom(Others(b, s)[id], s)
  {
    var d := Dropped(b, s);
    forall id ensures id in d.tools <==> id in Others(b, s) {
    }
  }

  predicate NamedFor(e: Entered, s: string, name: string, id: string) {
    IsFrom(e, s) && e.serverName == name && id == ToolId(name, e.tool.name)
  }

  /** What one round of registering has put in, and that it could be taken out again. */
  ghost predicate Joined(d: Books, s: string, name: string, r: Round) {
    && NoRepeats(r.registered)
    && r.books.ids == d.ids && r.books.states == d.states
    && r.books.removable == d.removable + SetOf(r.registered)
    && r.books.tools.Keys == d.tools.Keys + SetOf(r.registered)
    && (forall id :: id in d.tools ==> r.books.tools[id] == d.tools[id])
    && (forall id :: id in r.registered ==> id !in d.tools && NamedFor(r.books.tools[id], s, name, id))
  }

  lemma {:induction false} JoinJoins(d: Books, s: string, name: string, offer: seq<Tool>, fails: nat -> bool)
    requires NativesStay(d)
    ensures Joined(d, s, name, Join(d, s, name, offer, fails))
  {
    if offer != [] {
      var k := |offer| - 1;
      JoinJoins(d, s, name, offer[..k], fails);
      var r := Join(d, s, name, offer[..k], fails);
      EnterJoins(d, s, name, r, offer[k]);
    }
  }

  lemma EnterJoins(d: Books, s: string, name: string, r: Round, t: Tool)
    requires Joined(d, s, name, r)
    ensures var id := ToolId(name, t.name);
            id !in r.books.tools ==>
              Joined(d, s, name, r.(books := Enter(r.books, id, Discovered(s, name, t)),
                  registered := r.registered + [id]))
  {
    hide ToolId, NoRepeats, SetOf;
    var id := ToolId(name, t.name);
    if id !in r.books.tools {
      OneMore(r.registered, id);
    }
  }

  lemma OneMore(ids: seq<string>, id: string)
    ensures SetOf(ids + [id]) == SetOf(ids) + {id}
    ensures NoRepeats(ids) && id !in SetOf(ids) ==> NoRepeats(ids + [id])
    ensures forall i :: i in ids + [id] <==> i in SetOf(ids) || i == id
    ensures forall i :: i in ids <==> i in SetOf(ids)
  {
    assert forall i :: 0 <= i < |ids| ==> ids[i] in SetOf(ids);
  }

  /** Every tool offered is registered, exactly as offered, or named as refused. */
  lemma {:induction false} JoinAnswersEach(d: Books, s: string, name: string, offer: seq<Tool>, fails: nat -> bool)
    ensures var r := Join(d, s, name, offer, fails);
            !r.raised ==>
              && |r.registered| + |r.refused| == |offer|
              && forall k :: 0 <= k < |offer| ==>
                   offer[k].name in r.refused ||
                   (ToolId(name, offer[k].name) in r.registered && ToolId(name, offer[k].name) in r.books.tools
                    && r.books.tools[ToolId(name, offer[k].name)] == Discovered(s, name, offer[k]))
  {
    hide ToolId;
    if offer != [] {
      var n := |offer| - 1;
      JoinAnswersEach(d, s, name, offer[..n], fails);
      assert forall k :: 0 <= k < n ==> offer[..n][k] == offer[k];
    }
  }

  /** Taking out what a round registered leaves what was there before it. */
  lemma UnwindIsExact(d: Books, s: string, name: string, r: Round)
    requires NativesStay(d) && Joined(d, s, name, r)
    ensures Without(r.books, SetOf(r.registered)) == d
  {
    hide ToolId;
    var w := Without(r.books, SetOf(r.registered));
    assert forall id :: id in d.removable ==> id in d.tools;
    assert w.tools.Keys == d.tools.Keys;
    assert w.tools == d.tools;
    assert w.removable == d.removable;
  }

  /** A refresh that raises halfway leaves the registry as forgetting the server would. */
  lemma OrNothing(b: Books, c: Call)
    requires c.Success? && NativesStay(b) && Recorded(b, c.serverId)
    requires Join(Dropped(b, c.serverId), c.serverId, c.serverName, c.offer, c.fails).raised
    ensures After(b, c) == After(b, Forget(c.serverId)).(ids := After(b, Forget(c.serverId)).ids[c.serverId := []])
  {
    hide Join, Dropped;
    var d := Dropped(b, c.serverId);
    DroppedIsOthers(b, c.serverId);
    JoinJoins(d, c.serverId, c.serverName, c.offer, c.fails);
    UnwindIsExact(d, c.serverId, c.serverName, Join(d, c.serverId, c.serverName, c.offer, c.fails));
    assert d.ids == Dropped(b, c.serverId).ids;
  }

  // ----- every run ----------------------------------------------------------------------------

  /** A call is one server's business: no other server's tools, ids or page move, and no native tool ever does. */
  predicate OneServer(b: Books, b': Books, s: string) {
    && Others(b', s) == Others(b, s)
    && b'.ids - {s} == b.ids - {s}
    && b'.states - {s} == b.states - {s}
  }

  lemma CallTouchesOneServer(b: Books, c: Call)
    requires Consistent(b)
    ensures OneServer(b, After(b, c), c.serverId)
    ensures NativesStay(After(b, c)) && Recorded(After(b, c), c.serverId) && Honest(After(b, c), c.serverId)
  {
    var s := c.serverId;
    var d := Dropped(b, s);
    DroppedIsOthers(b, s);
    match c
    case Success(_, name, offer, skipped, fails) => SuccessTouchesOneServer(b, c);
    case Failure(_, error) =>
      assert Others(After(b, c), s) == Others(b, s);
    case Forget(_) =>
      assert Others(After(b, c), s) == Others(b, s);
  }

  lemma SuccessTouchesOneServer(b: Books, c: Call)
    requires c.Success? && Consistent(b)
    ensures OneServer(b, After(b, c), c.serverId)
    ensures NativesStay(After(b, c)) && Recorded(After(b, c), c.serverId) && Honest(After(b, c), c.serverId)
  {
    hide Join, ToolId, Dropped, Without;
    var s, d := c.serverId, Dropped(b, c.serverId);
    var r := Join(d, s, c.serverName, c.offer, c.fails);
    DroppedIsOthers(b, s);
    DroppedElse(b, s);
    JoinJoins(d, s, c.serverName, c.offer, c.fails);
    if r.raised {
      UnwindIsExact(d, s, c.serverName, r);
      assert Others(After(b, c), s) == Others(b, s);
    } else {
      var b' := After(b, c);
      JoinAnswersEach(d, s, c.serverName, c.offer, c.fails);
      RegisteredIsRecorded(d, s, c.serverName, r, b');
      assert Others(b', s) == Others(b, s);
      forall k | 0 <= k < |c.offer| && c.offer[k].name !in r.refused ensures Offers(b', s, c.offer[k]) {
        var id := ToolId(c.serverName, c.offer[k].name);
        assert id in IdsOf(b', s);
      }
    }
  }

  lemma DroppedElse(b: Books, s: string)
    ensures Dropped(b, s).ids == b.ids - {s} && Dropped(b, s).states == b.states
  {
  }

  lemma RegisteredIsRecorded(d: Books, s: string, name: string, r: Round, b: Books)
    requires NativesStay(d) && Joined(d, s, name, r) && (forall id :: id in d.tools ==> !IsFrom(d.tools[id], s))
    requires b.tools == r.books.tools && b.removable == r.books.removable && s in b.ids && b.ids[s] == r.registered
    ensures NativesStay(b) && Recorded(b, s)
  {
    hide ToolId;
  }

  /** What another server has is judged by its own part of the books. */
  lemma OthersKeepTheirs(b: Books, b': Books, s: string, t: string)
    requires OneServer(b, b', s) && t != s && Recorded(b, t) && Honest(b, t)
    ensures Recorded(b', t) && Honest(b', t)
  {
    hide ToolId;
    assert t in b.ids <==> t in b.ids - {s};
    assert t in b'.ids <==> t in b'.ids - {s};
    assert IdsOf(b', t) == IdsOf(b, t);
    assert t in b.states <==> t in b.states - {s};
    assert t in b'.states <==> t in b'.states - {s};
    TheirsStay(b, b', s, t);
    if t in b.states && b.states[t].status.Ok? {
      assert b'.states[t] == b.states[t];
      var state := b.states[t];
      forall k | 0 <= k < |state.tools| && state.tools[k].name !in state.refused ensures Offers(b', t, state.tools[k]) {
        assert Offers(b, t, state.tools[k]);
      }
    }
  }

  lemma TheirsStay(b: Books, b': Books, s: string, t: string)
    requires Others(b', s) == Others(b, s) && t != s
    ensures forall id :: id in b.tools && IsFrom(b.tools[id], t) ==> id in b'.tools && b'.tools[id] == b.tools[id]
    ensures forall id :: id in b'.tools && IsFrom(b'.tools[id], t) ==> id in b.tools && b.tools[id] == b'.tools[id]
  {
    forall id | id in b.tools && IsFrom(b.tools[id], t) ensures id in b'.tools && b'.tools[id] == b.tools[id] {
      assert id in Others(b, s);
      assert id in Others(b', s);
    }
    forall id | id in b'.tools && IsFrom(b'.tools[id], t) ensures id in b.tools && b.tools[id] == b'.tools[id] {
      assert id in Others(b', s);
      assert id in Others(b, s);
    }
  }

  lemma CallKeepsConsistent(b: Books, c: Call)
    requires Consistent(b)
    ensures Consistent(After(b, c))
  {
    hide Recorded, Honest, OneServer, After, NativesStay;
    var b' := After(b, c);
    CallTouchesOneServer(b, c);
    forall t ensures Recorded(b', t) && Honest(b', t) {
      if t != c.serverId {
        OthersKeepTheirs(b, b', c.serverId, t);
      }
    }
  }

  function Run(natives: map<string, Entered>, calls: seq<Call>): Books {
    if calls == [] then Books(natives, {}, map[], map[])
    else After(Run(natives, calls[..|calls| - 1]), calls[|calls| - 1])
  }

  function NativesOf(b: Books): map<string, Entered> {
    map id | id in b.tools && b.tools[id].Native? :: b.tools[id]
  }

  lemma NativesAreOthers(b: Books, b': Books, s: string)
    requires Others(b', s) == Others(b, s)
    ensures NativesOf(b') == NativesOf(b)
  {
    forall id ensures id in NativesOf(b) <==> id in NativesOf(b') {
      assert id in NativesOf(b) ==> id in Others(b, s);
      assert id in NativesOf(b') ==> id in Others(b', s);
    }
    forall id | id in NativesOf(b) ensures NativesOf(b)[id] == NativesOf(b')[id] {
      assert id in Others(b, s);
    }
  }

  /**
   After any refreshes, landed or raised halfway, failures and removals, in any order and for
   any servers: the registry is Addison's own tools, untouched, and each server's recorded
   tools; and each server's page says what is registered for it.
   */
  lemma {:induction false} RunsStayConsistent(natives: map<string, Entered>, calls: seq<Call>)
    requires forall id :: id in natives ==> natives[id].Native?
    ensures Consistent(Run(natives, calls)) && NativesOf(Run(natives, calls)) == natives
  {
    hide After, OneServer;
    if calls == [] {
      hide Run;
      StartIsConsistent(natives);
    } else {
      var before, c := Run(natives, calls[..|calls| - 1]), calls[|calls| - 1];
      RunsStayConsistent(natives, calls[..|calls| - 1]);
      CallKeepsConsistent(before, c);
      CallTouchesOneServer(before, c);
      OneServerOthers(before, After(before, c), c.serverId);
      NativesAreOthers(before, After(before, c), c.serverId);
    }
  }

  lemma OneServerOthers(b: Books, b': Books, s: string)
    requires OneServer(b, b', s)
    ensures Others(b', s) == Others(b, s)
  {
  }

  lemma StartIsConsistent(natives: map<string, Entered>)
    requires forall id :: id in natives ==> natives[id].Native?
    ensures Consistent(Run(natives, [])) && NativesOf(Run(natives, [])) == natives
  {
    hide ToolId;
    var b := Run(natives, []);
    assert b == Books(natives, {}, map[], map[]);
  }

  // ----- the last call decides -----------------------------------------------------------------

  /** Registering looks at the tools and at nothing else. */
  lemma {:induction false} JoinLooksAtTools(d: Books, states: map<string, ServerCatalog>, s: string, name: string,
                                            offer: seq<Tool>, fails: nat -> bool)
    ensures var r := Join(d, s, name, offer, fails);
            Join(d.(states := states), s, name, offer, fails) == r.(books := r.books.(states := states))
  {
    hide ToolId;
    if offer != [] {
      JoinLooksAtTools(d, states, s, name, offer[..|offer| - 1], fails);
    }
  }

  /**
   For one server only its last call counts: whatever an earlier refresh put in, took out or
   broke off, a later one finds the registry as if that had never been, and refuses none of
   its own tools.
   */
  lemma LastCallDecides(b: Books, earlier: Call, later: Call)
    requires Consistent(b) && earlier.serverId == later.serverId
    ensures After(After(b, earlier), later) == After(b, later)
  {
    hide Join, Recorded, Honest, OneServer, Dropped;
    var s := later.serverId;
    var mid := After(b, earlier);
    CallTouchesOneServer(b, earlier);
    DroppedTwice(b, mid, s);
    var d, d' := Dropped(b, s), Dropped(mid, s);
    assert d' == d.(states := d'.states);
    if later.Success? {
      JoinLooksAtTools(d, d'.states, s, later.serverName, later.offer, later.fails);
    }
    if s in After(b, later).states {
      StatesButOne(d.states, d'.states, s, After(b, later).states[s]);
    }
  }

  lemma DroppedTwice(b: Books, mid: Books, s: string)
    requires Consistent(b) && OneServer(b, mid, s) && NativesStay(mid) && Recorded(mid, s)
    ensures Dropped(mid, s) == Dropped(b, s).(states := Dropped(mid, s).states)
    ensures Dropped(mid, s).states - {s} == Dropped(b, s).states - {s}
  {
    hide Honest, ToolId;
    DroppedIsOthers(b, s);
    DroppedIsOthers(mid, s);
    var d, d' := Dropped(b, s), Dropped(mid, s);
    assert d'.tools == d.tools;
    assert d'.removable == d.removable;
    assert d'.ids == d.ids;
  }

  lemma StatesButOne(x: map<string, ServerCatalog>, y: map<string, ServerCatalog>, s: string, v: ServerCatalog)
    requires x - {s} == y - {s}
    ensures x[s := v] == y[s := v]
  {
    assert forall t :: t in x && t != s <==> t in x - {s};
    assert forall t :: t in y && t != s <==> t in y - {s};
    assert forall t :: t in x && t != s ==> x[t] == (x - {s})[t];
    assert forall t :: t in y && t != s ==> y[t] == (y - {s})[t];
  }

  // ----- who is refused --------------------------------------------------------------------------

  /** What a round of registering says of each name offered so far. */
  ghost predicate Answered(d: Books, name: string, offer: seq<Tool>, r: Round) {
    && r.books.tools.Keys == d.tools.Keys + SetOf(r.registered)
    && (forall id :: id in r.registered ==> exists k :: 0 <= k < |offer| && id == ToolId(name, offer[k].name))
    && (forall n :: n in r.refused ==> exists k :: 0 <= k < |offer| && n == offer[k].name)
    && (!r.raised ==> forall k :: 0 <= k < |offer| ==>
        (offer[k].name in r.refused <==> ToolId(name, offer[k].name) in d.tools))
  }

  predicate DistinctNames(offer: seq<Tool>) {
    && (forall j, k :: 0 <= j < k < |offer| ==> offer[j].name != offer[k].name)
    && forall k :: 0 <= k < |offer| ==> Plausible(offer[k].name)
  }

  /** A name not offered before has neither been registered nor refused. */
  lemma NewName(d: Books, name: string, offer: seq<Tool>, t: Tool, r: Round)
    requires Answered(d, name, offer, r) && DistinctNames(offer + [t])
    ensures ToolId(name, t.name) !in r.registered && t.name !in r.refused
  {
    hide ToolId, Plausible, SetOf;
    var all := offer + [t];
    assert all[|offer|] == t;
    forall k | 0 <= k < |offer| ensures offer[k].name != t.name && ToolId(name, offer[k].name) != ToolId(name, t.name) {
      assert all[k] == offer[k];
      IdsAreDistinct(name, offer[k].name, name, t.name);
    }
  }

  lemma AnswersOneMore(d: Books, name: string, offer: seq<Tool>, t: Tool, r: Round, s: string)
    requires Answered(d, name, offer, r) && !r.raised
    requires ToolId(name, t.name) !in r.registered && t.name !in r.refused
    ensures var id := ToolId(name, t.name);
            if id in r.books.tools then Answered(d, name, offer + [t], r.(refused := r.refused + [t.name]))
            else Answered(d, name, offer + [t],
                r.(books := Enter(r.books, id, Discovered(s, name, t)), registered := r.registered + [id]))
    ensures Answered(d, name, offer + [t], r.(raised := true))
  {
    hide ToolId, SetOf;
    var id, all := ToolId(name, t.name), offer + [t];
    OneMore(r.registered, id);
    assert forall k :: 0 <= k < |offer| ==> all[k] == offer[k];
    assert all[|offer|] == t;
  }

  /** Offered names being distinct, a tool is refused exactly when its id belongs to something else. */
  lemma {:induction false} RefusedIsTaken(d: Books, s: string, name: string, offer: seq<Tool>, fails: nat -> bool)
    requires DistinctNames(offer)
    ensures Answered(d, name, offer, Join(d, s, name, offer, fails))
  {
    hide ToolId, DistinctNames;
    if offer == [] {
      assert Answered(d, name, [], Join(d, s, name, [], fails));
    } else {
      hide Answered;
      var n := |offer| - 1;
      var front, t := offer[..n], offer[n];
      var r := Join(d, s, name, front, fails);
      assert offer == front + [t];
      FrontNames(front, t);
      RefusedIsTaken(d, s, name, front, fails);
      if r.raised {
        RaisedAnswers(d, name, front, t, r);
      } else {
        NewName(d, name, front, t, r);
        AnswersOneMore(d, name, front, t, r, s);
      }
    }
  }

  lemma FrontNames(offer: seq<Tool>, t: Tool)
    requires DistinctNames(offer + [t])
    ensures DistinctNames(offer)
  {
    hide Plausible;
    assert forall k :: 0 <= k < |offer| ==> (offer + [t])[k] == offer[k];
  }

  lemma RaisedAnswers(d: Books, name: string, offer: seq<Tool>, t: Tool, r: Round)
    requires Answered(d, name, offer, r) && r.raised
    ensures Answered(d, name, offer + [t], r)
  {
    hide ToolId, SetOf;
    assert forall k :: 0 <= k < |offer| ==> (offer + [t])[k] == offer[k];
  }
}
