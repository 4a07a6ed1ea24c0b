/**
 The models a person can pick: what a provider says it serves, less what is only another name
 for something already listed, with what it has refused sunk and several lists made one.
 */
module Models {
  import opened Wrappers

  datatype Model = Model(id: string, provider: string, rank: int, isDefault: bool, refused: bool)

  const REFUSED_RANK := 99

  // ----- other names for the same model -------------------------------------------------------------

  /** What the two patterns take off the end; a final newline does not count. */
  function Trimmed(id: string): string {
    if id != "" && id[|id| - 1] == '\n' then id[..|id| - 1] else id
  }

  predicate OneLine(s: string) {
    s != "" && forall k :: 0 <= k < |s| ==> s[k] != '\n'
  }

  /** `digit` says which characters are digits, in any script. */
  function PinnedBase(digit: char -> bool, id: string): Option<string> {
    var s := Trimmed(id);
    var n := |s| - 4;
    if n > 0 && s[n] == '-' && digit(s[n + 1]) && digit(s[n + 2]) && digit(s[n + 3]) && OneLine(s[..n])
        then Some(s[..n]) else None
  }

  function PreviewBase(id: string): Option<string> {
    var s := Trimmed(id);
    var n := |s| - 8;
    if n > 0 && s[n..] == "-preview" && OneLine(s[..n]) then Some(s[..n]) else None
  }

  /** `id` is `base` with `suffix` after it, and perhaps one newline more. */
  predicate Spells(id: string, base: string, suffix: string) {
    OneLine(base) && (id == base + suffix || id == base + suffix + "\n")
  }

  /** A pinned name is a base, a hyphen and three digits. */
  lemma PinnedIs(digit: char -> bool, id: string, base: string)
    requires !digit('\n')
    ensures PinnedBase(digit, id) == Some(base) <==>
              exists a, b, c :: digit(a) && digit(b) && digit(c) && Spells(id, base, ['-', a, b, c])
  {
    var s := Trimmed(id);
    var n := |s| - 4;
    if PinnedBase(digit, id) == Some(base) {
      assert s == base + ['-', s[n + 1], s[n + 2], s[n + 3]];
      assert Spells(id, base, ['-', s[n + 1], s[n + 2], s[n + 3]]);
    }
    if a, b, c :| digit(a) && digit(b) && digit(c) && Spells(id, base, ['-', a, b, c]) {
      TrimmedIs(id, base, ['-', a, b, c]);
      assert s[n..] == ['-', a, b, c];
      assert s[n..][0] == s[n] && s[n..][1] == s[n + 1] && s[n..][2] == s[n + 2] && s[n..][3] == s[n + 3];
    }
  }

  /** A preview name is a base and the word. */
  lemma PreviewIs(id: string, base: string)
    ensures PreviewBase(id) == Some(base) <==> Spells(id, base, "-preview")
  {
    var s := Trimmed(id);
    if PreviewBase(id) == Some(base) {
      assert s == base + "-preview";
    }
    if Spells(id, base, "-preview") {
      TrimmedIs(id, base, "-preview");
    }
  }

  lemma TrimmedIs(id: string, base: string, suffix: string)
    requires Spells(id, base, suffix) && suffix != "" && suffix[|suffix| - 1] != '\n'
    ensures Trimmed(id) == base + suffix && Trimmed(id)[..|base|] == base && Trimmed(id)[|base|..] == suffix
  {
    var s := base + suffix;
    assert s[|s| - 1] == suffix[|suffix| - 1];
    if id == s + "\n" {
      assert id[..|id| - 1] == s;
    }
  }

  predicate OtherNameFor(digit: char -> bool, id: string, base: string) {
    PinnedBase(digit, id) == Some(base) || PreviewBase(id) == Some(base)
  }

  predicate IsRedundantAlias(digit: char -> bool, id: string, available: set<string>) {
    || (PinnedBase(digit, id).Some? && PinnedBase(digit, id).value in available)
    || (PreviewBase(id).Some? && PreviewBase(id).value in available)
  }

  /** `id` is a listed name's pinned or preview form. */
  ghost predicate OtherNameOfOne(digit: char -> bool, id: string, available: set<string>) {
    exists base :: base in available &&
      (Spells(id, base, "-preview") ||
       exists a, b, c :: digit(a) && digit(b) && digit(c) && Spells(id, base, ['-', a, b, c]))
  }

  lemma RedundantIs(digit: char -> bool, id: string, available: set<string>)
    requires !digit('\n')
    ensures IsRedundantAlias(digit, id, available) <==> OtherNameOfOne(digit, id, available)
  {
    hide PinnedBase, PreviewBase, Spells;
    forall base: string
      ensures PreviewBase(id) == Some(base) <==> Spells(id, base, "-preview")
      ensures PinnedBase(digit, id) == Some(base) <==>
                exists a, b, c :: digit(a) && digit(b) && digit(c) && Spells(id, base, ['-', a, b, c])
    {
      PinnedIs(digit, id, base);
      PreviewIs(id, base);
    }
    if IsRedundantAlias(digit, id, available) {
      var base := if PinnedBase(digit, id).Some? && PinnedBase(digit, id).value in available
                  then PinnedBase(digit, id).value else PreviewBase(id).value;
      assert base in available && (PinnedBase(digit, id) == Some(base) || PreviewBase(id) == Some(base));
    }
  }

  /** Taking suffixes off `id`, each time to a listed name, comes to `end`. */
  ghost predicate LeadsTo(digit: char -> bool, id: string, end: string, available: set<string>)
    decreases |id|
  {
    id == end || exists base ::
        OtherNameFor(digit, id, base) && base in available && |base| < |id| && LeadsTo(digit, base, end, available)
  }

  lemma BaseIsShorter(digit: char -> bool, id: string, base: string)
    requires OtherNameFor(digit, id, base)
    ensures |base| < |id|
  {
  }

  /** No model is lost with its aliases: every name dropped leads, suffix by suffix, to one that stays. */
  lemma {:induction false} DroppedLeadsToAKept(digit: char -> bool, id: string, available: set<string>)
    returns (kept: string)
    requires id in available
    ensures kept in available && !IsRedundantAlias(digit, kept, available) && LeadsTo(digit, id, kept, available)
    decreases |id|
  {
    if !IsRedundantAlias(digit, id, available) {
      kept := id;
    } else {
      var base :=
        if PinnedBase(digit, id).Some? && PinnedBase(digit, id).value in available then PinnedBase(digit, id).value
        else PreviewBase(id).value;
      BaseIsShorter(digit, id, base);
      kept := DroppedLeadsToAKept(digit, base, available);
    }
  }

  // ----- one provider's list ------------------------------------------------------------------------

  function Kept(ids: seq<string>, keep: string -> bool): seq<string> {
    if ids == [] then []
    else Kept(ids[..|ids| - 1], keep) + if keep(ids[|ids| - 1]) then [ids[|ids| - 1]] else []
  }

  lemma {:induction false} KeptHas(ids: seq<string>, keep: string -> bool)
    ensures forall id :: id in Kept(ids, keep) <==> id in ids && keep(id)
  {
    if ids != [] {
      KeptHas(ids[..|ids| - 1], keep);
      assert ids == ids[..|ids| - 1] + [ids[|ids| - 1]];
    }
  }

  /** The names that survive: those that could hold a conversation, less other names for one of them. */
  function Live(digit: char -> bool, isChat: string -> bool, ids: seq<string>): seq<string> {
    var chat := Kept(ids, id => id != "" && isChat(id));
    Kept(chat, id => !IsRedundantAlias(digit, id, SetOf(chat)))
  }

  predicate Distinct(models: seq<Model>) {
    forall j, k :: 0 <= j < k < |models| ==> models[j].id != models[k].id
  }

  function IdsOf(models: seq<Model>): set<string> {
    set m | m in models :: m.id
  }

  lemma IdsMore(models: seq<Model>, m: Model)
    ensures IdsOf(models + [m]) == IdsOf(models) + {m.id}
    ensures Distinct(models) && m.id !in IdsOf(models) ==> Distinct(models + [m])
  {
    assert forall k :: 0 <= k < |models| ==> models[k] in models && models[k].id in IdsOf(models);
  }

  /** The curated entries that are served, in the curated order. */
  function Served(curated: seq<Model>, live: set<string>): seq<Model> {
    if curated == [] then []
    else
      var n := |curated| - 1;
      Served(curated[..n], live) + if curated[n].id in live then [curated[n]] else []
  }

  /** The ids not among `known`, each where it first stands. */
  function Others(ids: seq<string>, known: set<string>): seq<string> {
    if ids == [] then []
    else
      var before, id := Others(ids[..|ids| - 1], known), ids[|ids| - 1];
      if id in known || id in before then before else before + [id]
  }

  /** Names are kept in the order they come in, whoever is kept. */
  lemma {:induction false} KeptInOrder(a: seq<string>, b: seq<string>, keep: string -> bool)
    ensures Kept(a + b, keep) == Kept(a, keep) + Kept(b, keep)
  {
    if b == [] {
      assert a + b == a;
    } else {
      var n := |b| - 1;
      KeptInOrder(a, b[..n], keep);
      assert (a + b)[..|a + b| - 1] == a + b[..n];
    }
  }

  lemma ServedEnd(curated: seq<Model>, m: Model, live: set<string>)
    ensures Served(curated + [m], live) == Served(curated, live) + if m.id in live then [m] else []
  {
    assert (curated + [m])[..|curated|] == curated;
  }

  lemma {:induction false} ServedInOrder(a: seq<Model>, b: seq<Model>, live: set<string>)
    ensures Served(a + b, live) == Served(a, live) + Served(b, live)
  {
    if b == [] {
      assert a + b == a && Served(b, live) == [];
    } else {
      hide Served;
      var n := |b| - 1;
      ServedInOrder(a, b[..n], live);
      ServedOnBoth(a, b[..n], b[n], live);
      assert a + b[..n] + [b[n]] == a + b && b[..n] + [b[n]] == b;
    }
  }

  lemma ServedOnBoth(a: seq<Model>, b: seq<Model>, m: Model, live: set<string>)
    requires Served(a + b, live) == Served(a, live) + Served(b, live)
    ensures Served(a + b + [m], live) == Served(a, live) + Served(b + [m], live)
  {
    hide Served;
    ServedEnd(a + b, m, live);
    ServedEnd(b, m, live);
  }

  /** The rest are the ids not known, each once, in the order they first stand. */
  lemma {:induction false} OthersAre(ids: seq<string>, known: set<string>)
    ensures forall id :: id in Others(ids, known) <==> id in ids && id !in known
    ensures forall k :: 0 <= k < |Others(ids, known)| ==> StandsFirst(ids, known, k)
  {
    if ids != [] {
      var n := |ids| - 1;
      var before, all := Others(ids[..n], known), Others(ids, known);
      OthersAre(ids[..n], known);
      OthersMore(ids, n, known);
      assert ids[..n + 1] == ids == ids[..n] + [ids[n]];
      hide Others;
      forall k | 0 <= k < |all| ensures StandsFirst(ids, known, k) {
        if k < |before| {
          assert StandsFirst(ids[..n], known, k);
          var p :| 0 <= p < n && ids[..n][p] == before[k] && Others(ids[..n][..p], known) == before[..k];
          assert ids[..n][..p] == ids[..p] && all[..k] == before[..k];
        } else {
          assert all[..k] == before && ids[n] == all[k];
        }
      }
    }
  }

  /** The k-th of the rest stands in the list where the ones before it had all stood already. */
  predicate StandsFirst(ids: seq<string>, known: set<string>, k: nat)
    requires k < |Others(ids, known)|
  {
    exists p :: 0 <= p < |ids| && ids[p] == Others(ids, known)[k]
                && Others(ids[..p], known) == Others(ids, known)[..k]
  }

  function Names(models: seq<Model>): seq<string> {
    seq(|models|, k requires 0 <= k < |models| => models[k].id)
  }

  /** An entry nobody curated: its id for a name, and the rank its id suggests. */
  predicate Bare(m: Model, provider: string, rank: string -> int) {
    m == Model(m.id, provider, rank(m.id), false, false)
  }

  /**
   The picker's entries: the curated ones the provider really serves, in the curated order,
   then everything else it serves, each once and in the provider's own order.
   */
  method CatalogFromLiveIds(digit: char -> bool, isChat: string -> bool, rank: string -> int,
                            provider: string, curated: seq<Model>, ids: seq<string>)
    returns (out: seq<Model>, ghost known: nat)
    requires Distinct(curated)
    ensures Distinct(out) && IdsOf(out) == SetOf(Live(digit, isChat, ids))
    ensures known <= |out| && out[..known] == Served(curated, SetOf(Live(digit, isChat, ids)))
    ensures Names(out[known..]) == Others(Live(digit, isChat, ids), IdsOf(out[..known]))
    ensures forall k :: known <= k < |out| ==> Bare(out[k], provider, rank) && out[k].id !in IdsOf(curated)
    ensures forall m :: m in curated && m.id in SetOf(Live(digit, isChat, ids)) ==> m in out
  {
    hide Live, Distinct, IdsOf, Served, Others, Names;
    NoIds();
    NothingServed();
    var live := Live(digit, isChat, ids);
    var liveIds := SetOf(live);
    var seen: set<string> := {};
    out := [];
    for i := 0 to |curated|
      invariant Distinct(out) && seen == IdsOf(out) && seen <= liveIds
      invariant out == Served(curated[..i], liveIds)
      invariant seen <= IdsOf(curated[..i]) && (i == 0 ==> out == [])
      invariant forall k :: 0 <= k < i && curated[k].id in liveIds ==> curated[k] in out
    {
      var entry := curated[i];
      ServedMore(curated, i, liveIds);
      FrontIds(curated, i);
      IdsMore(out, entry);
      if entry.id in liveIds {
        out := out + [entry];
        seen := seen + {entry.id};
      }
    }
    known := |out|;
    ghost var served := out;
    assert curated[..|curated|] == curated;
    ListedAreSeen(curated, out, liveIds);
    assert out[..known] == served && out[known..] == [];
    for i := 0 to |live|
      invariant Distinct(out) && seen == IdsOf(out) && seen <= liveIds && known <= |out|
      invariant out[..known] == served
      invariant Names(out[known..]) == Others(live[..i], IdsOf(served))
      invariant seen == IdsOf(served) + SetOf(Others(live[..i], IdsOf(served)))
      invariant forall k :: known <= k < |out| ==> Bare(out[k], provider, rank) && out[k].id !in IdsOf(curated)
      invariant forall m :: m in curated && m.id in liveIds ==> m in out && m.id in seen
      invariant IdsOf(curated) * liveIds <= seen
      invariant forall k :: 0 <= k < i ==> live[k] in seen
    {
      var id := live[i];
      OthersMore(live, i, IdsOf(served));
      if id !in seen {
        seen := seen + {id};
        var m := Model(id, provider, rank(id), false, false);
        IdsMore(out, m);
        NamesMore(out[known..], m);
        assert (out + [m])[known..] == out[known..] + [m] && (out + [m])[..known] == out[..known];
        assert SetOf(Others(live[..i], IdsOf(served)) + [id]) == SetOf(Others(live[..i], IdsOf(served))) + {id};
        out := out + [m];
      }
    }
    assert live[..|live|] == live;
  }

  lemma NothingServed()
    ensures forall live :: Served([], live) == []
    ensures forall known :: Others([], known) == []
    ensures Names([]) == []
  {
  }

  lemma ServedMore(curated: seq<Model>, i: nat, live: set<string>)
    requires i < |curated|
    ensures Served(curated[..i + 1], live) ==
              Served(curated[..i], live) + if curated[i].id in live then [curated[i]] else []
  {
    assert curated[..i + 1][..i] == curated[..i];
  }

  lemma OthersMore(ids: seq<string>, i: nat, known: set<string>)
    requires i < |ids|
    ensures var before := Others(ids[..i], known);
            Others(ids[..i + 1], known) == if ids[i] in known || ids[i] in before then before else before + [ids[i]]
  {
    assert ids[..i + 1][..i] == ids[..i];
  }

  lemma NamesMore(models: seq<Model>, m: Model)
    ensures Names(models + [m]) == Names(models) + [m.id]
  {
  }

  lemma FrontIds(models: seq<Model>, i: nat)
    requires i < |models|
    ensures IdsOf(models[..i + 1]) == IdsOf(models[..i]) + {models[i].id}
    ensures Distinct(models) ==> models[i].id !in IdsOf(models[..i])
  {
    assert models[..i + 1] == models[..i] + [models[i]];
    IdsMore(models[..i], models[i]);
    forall m | m in models[..i] && Distinct(models) ensures m.id != models[i].id {
      var k :| 0 <= k < i && models[..i][k] == m;
      assert models[k].id != models[i].id;
    }
  }

  lemma ListedAreSeen(curated: seq<Model>, out: seq<Model>, liveIds: set<string>)
    requires forall k :: 0 <= k < |curated| && curated[k].id in liveIds ==> curated[k] in out
    ensures forall m :: m in curated && m.id in liveIds ==> m in out && m.id in IdsOf(out)
    ensures IdsOf(curated) * liveIds <= IdsOf(out)
  {
  }

  /**
   The picker lists exactly what survives, so nothing the provider did not list and nothing it lists
   only as an alias.
   */
  lemma LiveIs(digit: char -> bool, isChat: string -> bool, ids: seq<string>)
    ensures var chat := set id | id in ids && id != "" && isChat(id);
            SetOf(Live(digit, isChat, ids)) == set id | id in chat && !IsRedundantAlias(digit, id, chat)
  {
    var keep := (id: string) => id != "" && isChat(id);
    var chat := Kept(ids, keep);
    KeptHas(ids, keep);
    assert SetOf(chat) == set id | id in ids && id != "" && isChat(id);
    KeptHas(chat, id => !IsRedundantAlias(digit, id, SetOf(chat)));
  }

  // ----- what a provider has refused ------------------------------------------------------------------

  function Marked(m: Model): Model {
    m.(refused := true, rank := REFUSED_RANK)
  }

  /** In order: those not refused (`bad` false), or those refused, marked. */
  function Sifted(models: seq<Model>, refused: set<string>, bad: bool): seq<Model> {
    if models == [] then []
    else
      var m := models[|models| - 1];
      Sifted(models[..|models| - 1], refused, bad) +
      if (m.id in refused) != bad then [] else [if bad then Marked(m) else m]
  }

  function RunLength(models: seq<Model>): (n: nat)
    ensures n <= |models| && (models != [] ==> n > 0)
    ensures forall k :: 0 <= k < n ==> models[k].provider == models[0].provider
    ensures n < |models| ==> models[n].provider != models[0].provider
  {
    if models == [] then 0 else LengthFrom(models, 1)
  }

  function LengthFrom(models: seq<Model>, k: nat): (n: nat)
    requires 0 < k <= |models| && forall j :: 0 <= j < k ==> models[j].provider == models[0].provider
    ensures k <= n <= |models|
    ensures forall j :: 0 <= j < n ==> models[j].provider == models[0].provider
    ensures n < |models| ==> models[n].provider != models[0].provider
    decreases |models| - k
  {
    if k < |models| && models[k].provider == models[0].provider then LengthFrom(models, k + 1) else k
  }

  /** Each provider's run, its refused models last. */
  function Sunk(models: seq<Model>, refused: set<string>): seq<Model>
    decreases |models|
  {
    if models == [] then []
    else
      var n := RunLength(models);
      Sifted(models[..n], refused, false) + Sifted(models[..n], refused, true) + Sunk(models[n..], refused)
  }

  method MarkRefused(models: seq<Model>, refused: set<string>) returns (out: seq<Model>)
    ensures out == Sunk(models, refused)
  {
    hide Sifted, Sunk, RunLength;
    if refused == {} {
      NoneRefused(models);
      return models;
    }
    out := [];
    var i := 0;
    assert models[0..] == models;
    while i < |models|
      invariant i <= |models|
      invariant out + Sunk(models[i..], refused) == Sunk(models, refused)
    {
      var provider, end := models[i].provider, i;
      while end < |models| && models[end].provider == provider
        invariant i <= end <= |models|
        invariant forall k :: i <= k < end ==> models[k].provider == provider
      {
        end := end + 1;
      }
      var rest := models[i..];
      RunIs(rest, end - i);
      SunkStep(rest, refused);
      assert rest[..end - i] == models[i..end] && rest[end - i..] == models[end..];
      var ok, bad := SiftRun(models[i..end], refused);
      assert out + ((ok + bad) + Sunk(models[end..], refused)) == (out + (ok + bad)) + Sunk(models[end..], refused);
      out := out + (ok + bad);
      i := end;
    }
    assert models[i..] == [];
    NoneSunk(refused);
  }

  lemma NoneSunk(refused: set<string>)
    ensures Sunk([], refused) == []
  {
  }

  lemma SunkStep(models: seq<Model>, refused: set<string>)
    requires models != []
    ensures var n := RunLength(models);
            Sunk(models, refused) == Sifted(models[..n], refused, false) + Sifted(models[..n], refused, true) +
                Sunk(models[n..], refused)
  {
  }

  method SiftRun(run: seq<Model>, refused: set<string>) returns (ok: seq<Model>, bad: seq<Model>)
    ensures ok == Sifted(run, refused, false) && bad == Sifted(run, refused, true)
  {
    ok, bad := [], [];
    for i := 0 to |run|
      invariant ok == Sifted(run[..i], refused, false) && bad == Sifted(run[..i], refused, true)
    {
      assert run[..i + 1][..i] == run[..i];
      if run[i].id in refused {
        bad := bad + [Marked(run[i])];
      } else {
        ok := ok + [run[i]];
      }
    }
    assert run[..|run|] == run;
  }

  lemma RunIs(models: seq<Model>, n: nat)
    requires 0 < n <= |models| && forall k :: 0 <= k < n ==> models[k].provider == models[0].provider
    requires n < |models| ==> models[n].provider != models[0].provider
    ensures RunLength(models) == n
  {
  }

  lemma {:induction false} NoneRefused(models: seq<Model>)
    ensures Sunk(models, {}) == models
    decreases |models|
  {
    if models != [] {
      var n := RunLength(models);
      NoneRefused(models[n..]);
      NoneSifted(models[..n]);
      SunkStep(models, {});
      hide *;
      assert models == models[..n] + [] + models[n..];
    }
  }

  lemma {:induction false} NoneSifted(models: seq<Model>)
    ensures Sifted(models, {}, false) == models && Sifted(models, {}, true) == []
  {
    if models != [] {
      NoneSifted(models[..|models| - 1]);
      assert models == models[..|models| - 1] + [models[|models| - 1]];
    }
  }

  lemma {:induction false} SiftedJoins(a: seq<Model>, b: seq<Model>, refused: set<string>, bad: bool)
    ensures Sifted(a + b, refused, bad) == Sifted(a, refused, bad) + Sifted(b, refused, bad)
  {
    hide Sifted;
    if b == [] {
      assert a + b == a;
      NoneToSift(refused, bad);
    } else {
      var front, last := b[..|b| - 1], b[|b| - 1];
      SiftedJoins(a, front, refused, bad);
      SiftedMore(a + front, last, refused, bad);
      SiftedMore(front, last, refused, bad);
      assert a + b == (a + front) + [last] && b == front + [last];
    }
  }

  lemma NoneToSift(refused: set<string>, bad: bool)
    ensures Sifted([], refused, bad) == []
  {
  }

  lemma SiftedMore(models: seq<Model>, m: Model, refused: set<string>, bad: bool)
    ensures Sifted(models + [m], refused, bad) ==
              Sifted(models, refused, bad) + if (m.id in refused) != bad then [] else [if bad then Marked(m) else m]
  {
    assert (models + [m])[..|models|] == models;
  }

  lemma {:induction false} SiftedAre(models: seq<Model>, refused: set<string>, bad: bool, provider: string)
    requires forall k :: 0 <= k < |models| ==> models[k].provider == provider
    ensures forall k :: 0 <= k < |Sifted(models, refused, bad)| ==>
              SiftedOne(Sifted(models, refused, bad)[k], refused, bad, provider)
    ensures |Sifted(models, refused, false)| + |Sifted(models, refused, true)| == |models|
  {
    if models != [] {
      SiftedAre(models[..|models| - 1], refused, bad, provider);
    }
  }

  predicate SiftedOne(m: Model, refused: set<string>, bad: bool, provider: string) {
    m.provider == provider && (m.id in refused <==> bad) && (bad ==> Marked(m) == m)
  }

  lemma {:induction false} SiftedAgain(models: seq<Model>, refused: set<string>, bad: bool, provider: string, now: bool)
    requires forall k :: 0 <= k < |models| ==> SiftedOne(models[k], refused, bad, provider)
    ensures Sifted(models, refused, now) == if now == bad then models else []
  {
    if models != [] {
      SiftedAgain(models[..|models| - 1], refused, bad, provider, now);
      assert models == models[..|models| - 1] + [models[|models| - 1]];
      assert SiftedOne(models[|models| - 1], refused, bad, provider);
    }
  }

  /** One provider's run, sunk: the same models, the refused ones marked and after the rest. */
  lemma RunSinks(run: seq<Model>, refused: set<string>, provider: string)
    requires forall k :: 0 <= k < |run| ==> run[k].provider == provider
    ensures var out := Sifted(run, refused, false) + Sifted(run, refused, true);
            && |out| == |run| && (forall k :: 0 <= k < |out| ==> out[k].provider == provider)
            && (forall j, k :: 0 <= j < k < |out| && out[j].id in refused ==> out[k].id in refused)
            && (forall bad :: Sifted(out, refused, bad) == Sifted(run, refused, bad))
  {
    hide Sifted;
    var ok, bad := Sifted(run, refused, false), Sifted(run, refused, true);
    SiftedAre(run, refused, false, provider);
    SiftedAre(run, refused, true, provider);
    assert forall k :: 0 <= k < |bad| ==> bad[k] == (ok + bad)[|ok| + k] && SiftedOne(bad[k], refused, true, provider);
    forall now ensures Sifted(ok + bad, refused, now) == Sifted(run, refused, now) {
      SiftedJoins(ok, bad, refused, now);
      SiftedAgain(ok, refused, false, provider, now);
      SiftedAgain(bad, refused, true, provider, now);
    }
  }

  /**
   Marked, never removed: the unrefused models are the same ones in the same order, the
   refused ones the same in the same order, marked; every place in the list still belongs to
   the provider it did; and within a provider's run nothing unrefused comes after a refusal.
   */
  lemma {:induction false} MarkedNeverRemoved(models: seq<Model>, refused: set<string>)
    ensures forall bad :: Sifted(Sunk(models, refused), refused, bad) == Sifted(models, refused, bad)
    ensures |Sunk(models, refused)| == |models|
    ensures forall k :: 0 <= k < |models| ==> Sunk(models, refused)[k].provider == models[k].provider
    decreases |models|
  {
    hide Sifted;
    if models != [] {
      var n := RunLength(models);
      var run, rest := models[..n], models[n..];
      var out, tail := Sifted(run, refused, false) + Sifted(run, refused, true), Sunk(rest, refused);
      RunSinks(run, refused, models[0].provider);
      MarkedNeverRemoved(rest, refused);
      forall bad ensures Sifted(Sunk(models, refused), refused, bad) == Sifted(models, refused, bad) {
        SiftedJoins(out, tail, refused, bad);
        SiftedJoins(run, rest, refused, bad);
        assert models == run + rest;
      }
      forall k | 0 <= k < |models| ensures Sunk(models, refused)[k].provider == models[k].provider {
        assert k >= n ==> models[k] == rest[k - n];
      }
    }
  }

  /** Each entry as it is told: a refused model says so and is ranked last, and nothing else is changed. */
  function Told(models: seq<Model>, refused: set<string>): seq<Model> {
    seq(|models|, k requires 0 <= k < |models| =>
        var m := models[k];
        if m.id in refused then Model(m.id, m.provider, 99, m.isDefault, true) else m)
  }

  lemma ToldJoins(a: seq<Model>, b: seq<Model>, refused: set<string>)
    ensures Told(a + b, refused) == Told(a, refused) + Told(b, refused)
  {
  }

  lemma {:induction false} SiftedTells(models: seq<Model>, refused: set<string>)
    ensures multiset(Sifted(models, refused, false)) + multiset(Sifted(models, refused, true)) ==
            multiset(Told(models, refused))
  {
    if models != [] {
      var n := |models| - 1;
      SiftedTells(models[..n], refused);
      ToldJoins(models[..n], [models[n]], refused);
      assert models == models[..n] + [models[n]];
      assert Told([models[n]], refused) == [if models[n].id in refused then Marked(models[n]) else models[n]];
    }
  }

  /** What is listed afterwards is what was listed before, entry for entry, each as it is told. */
  lemma {:induction false} SunkTells(models: seq<Model>, refused: set<string>)
    ensures multiset(Sunk(models, refused)) == multiset(Told(models, refused))
    decreases |models|
  {
    hide Sifted, Told, Sunk;
    if models == [] {
      NoneSunk(refused);
      NoneTold(refused);
    } else {
      var n := RunLength(models);
      SunkStep(models, refused);
      SiftedTells(models[..n], refused);
      SunkTells(models[n..], refused);
      ToldJoins(models[..n], models[n..], refused);
      assert models == models[..n] + models[n..];
    }
  }

  lemma NoneTold(refused: set<string>)
    ensures Told([], refused) == []
  {
  }

  /** A sunk list is its first run, sunk, and the rest, sunk. */
  lemma SunkIs(models: seq<Model>, refused: set<string>)
    requires models != []
    ensures |Sunk(models, refused)| == |models|
    ensures var n := RunLength(models);
            var out := Sunk(models, refused)[..n];
            && |Sunk(models[n..], refused)| == |models| - n
            && Sunk(models, refused) == out + Sunk(models[n..], refused)
            && forall j, k :: 0 <= j < k < n && out[j].id in refused ==> out[k].id in refused
  {
    hide Sifted;
    var n := RunLength(models);
    RunSinks(models[..n], refused, models[0].provider);
    MarkedNeverRemoved(models[n..], refused);
  }

  lemma {:induction false} RefusedAreLast(models: seq<Model>, refused: set<string>, j: nat, k: nat)
    requires j < k < |models| && forall i :: j <= i <= k ==> models[i].provider == models[j].provider
    requires |Sunk(models, refused)| == |models| && Sunk(models, refused)[j].id in refused
    ensures Sunk(models, refused)[k].id in refused
    decreases |models|
  {
    hide Sifted, Sunk;
    var n := RunLength(models);
    var rest := models[n..];
    SunkIs(models, refused);
    if n <= j {
      assert forall i :: j <= i <= k ==> rest[i - n].provider == models[i].provider;
      RefusedAreLast(rest, refused, j - n, k - n);
    }
  }

  // ----- several lists made one -------------------------------------------------------------------------

  /** Each id once, where it first stands; only the first default stays one. */
  function Merged(models: seq<Model>): seq<Model> {
    if models == [] then []
    else
      var before, m := Merged(models[..|models| - 1]), models[|models| - 1];
      if m.id in IdsOf(before) then before
      else before + [if HasDefault(before) then m.(isDefault := false) else m]
  }

  predicate HasDefault(models: seq<Model>) {
    exists k :: 0 <= k < |models| && models[k].isDefault
  }

  function Joined(catalogs: seq<seq<Model>>): seq<Model> {
    if catalogs == [] then [] else Joined(catalogs[..|catalogs| - 1]) + catalogs[|catalogs| - 1]
  }

  method MergeCatalogs(catalogs: seq<seq<Model>>) returns (merged: seq<Model>)
    ensures merged == Merged(Joined(catalogs))
  {
    hide Joined, Merged;
    merged := [];
    var seen: set<string>, haveDefault := {}, false;
    NothingMerged();
    for i := 0 to |catalogs|
      invariant merged == Merged(Joined(catalogs[..i])) && seen == IdsOf(merged) && haveDefault == HasDefault(merged)
    {
      var catalog := catalogs[i];
      ghost var before := Joined(catalogs[..i]);
      assert before + catalog[..0] == before;
      for j := 0 to |catalog|
        invariant merged == Merged(before + catalog[..j]) && seen == IdsOf(merged) && haveDefault == HasDefault(merged)
      {
        MergedMore(before, catalog, j);
        var m := catalog[j];
        if m.id in seen {
          continue;
        }
        seen := seen + {m.id};
        if m.isDefault && haveDefault {
          m := m.(isDefault := false);
        }
        IdsMore(merged, m);
        DefaultMore(merged, m);
        haveDefault := haveDefault || m.isDefault;
        merged := merged + [m];
      }
      JoinedMore(catalogs, i);
      assert catalog[..|catalog|] == catalog;
    }
    assert catalogs[..|catalogs|] == catalogs;
  }

  lemma NothingMerged()
    ensures Joined([]) == [] && Merged([]) == []
  {
  }

  lemma JoinedMore(catalogs: seq<seq<Model>>, i: nat)
    requires i < |catalogs|
    ensures Joined(catalogs[..i + 1]) == Joined(catalogs[..i]) + catalogs[i]
  {
    assert catalogs[..i + 1][..i] == catalogs[..i];
  }

  lemma MergedMore(before: seq<Model>, catalog: seq<Model>, j: nat)
    requires j < |catalog|
    ensures var merged, m := Merged(before + catalog[..j]), catalog[j];
            Merged(before + catalog[..j + 1]) ==
              if m.id in IdsOf(merged) then merged
              else merged + [if HasDefault(merged) then m.(isDefault := false) else m]
  {
    var all := before + catalog[..j + 1];
    assert all[..|all| - 1] == before + catalog[..j];
  }

  lemma DefaultMore(models: seq<Model>, m: Model)
    ensures HasDefault(models + [m]) <==> HasDefault(models) || m.isDefault
  {
    if HasDefault(models) {
      var k :| 0 <= k < |models| && models[k].isDefault;
      assert (models + [m])[k].isDefault;
    }
    assert (models + [m])[|models|] == m;
  }

  /** Every id once and none lost, with at most one default. */
  lemma {:induction false} OneOfEachAndOneDefault(models: seq<Model>)
    ensures Distinct(Merged(models)) && IdsOf(Merged(models)) == IdsOf(models)
    ensures forall j, k :: 0 <= j < k < |Merged(models)| ==>
              !(Merged(models)[j].isDefault && Merged(models)[k].isDefault)
  {
    hide IdsOf, Distinct;
    if models == [] {
      NoIds();
    } else {
      var front, m := models[..|models| - 1], models[|models| - 1];
      OneOfEachAndOneDefault(front);
      var before := Merged(front);
      var kept := if HasDefault(before) then m.(isDefault := false) else m;
      assert models == front + [m];
      IdsMore(front, m);
      IdsMore(before, kept);
    }
  }

  lemma NoIds()
    ensures Distinct([]) && IdsOf([]) == {}
  {
  }

  /** The entry kept under an id is the first one offered under it; it is the default only if it was offered as one. */
  lemma {:induction false} FirstOneWins(models: seq<Model>, k: nat)
    requires k < |Merged(models)|
    ensures exists p :: 0 <= p < |models| && models[p].id == Merged(models)[k].id
                        && Merged(models)[k] in [models[p], models[p].(isDefault := false)]
                        && forall q :: 0 <= q < p ==> models[q].id != models[p].id
  {
    var n := |models| - 1;
    var front := models[..n];
    var before := Merged(front);
    if k < |before| {
      FirstOneWins(front, k);
      var p :| 0 <= p < n && front[p].id == before[k].id
               && before[k] in [front[p], front[p].(isDefault := false)]
               && forall q :: 0 <= q < p ==> front[q].id != front[p].id;
      assert forall q :: 0 <= q < p ==> models[q].id == front[q].id;
      assert models[p] == front[p];
    } else {
      OneOfEachAndOneDefault(front);
      assert models[n].id !in IdsOf(front);
      forall q | 0 <= q < n ensures models[q].id != models[n].id {
        assert front[q] in front && front[q].id in IdsOf(front);
      }
      assert Merged(models)[k] in [models[n], models[n].(isDefault := false)];
    }
  }
}
