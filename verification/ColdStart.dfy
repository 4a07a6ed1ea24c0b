/**
 Rebuilding a database that will not open: a replacement built to one side, the damaged files
 renamed out of the way, the replacement swapped in. Any file operation may fail, and the
 program may end after any of them.
 */
module ColdStart {
  import opened Wrappers

  datatype Part = Main | Wal | Shm

  /** The live database, a replacement being built, or files moved aside; stamps are whole seconds. */
  datatype Name = Live(part: Part) | Rebuilding(stamp: nat, part: Part) | Damaged(stamp: nat, part: Part)

  /** `build` says which rebuild made the file, 0 when none did. */
  datatype File = File(build: nat, text: string)

  type Disk = map<Name, File>

  /** The disk now, every disk since the attempt began, and how many file operations were tried. */
  datatype Course = Course(disk: Disk, trail: seq<Disk>, tried: nat)

  /**
   One attempt: the two stamps it reads, what its rebuild wrote (and whether that worked, and
   from a setup known to work), which file operations fail, and whether the result opens.
   */
  datatype Attempt = Attempt(
    stamp: nat,
    asideStamp: nat,
    written: map<Part, string>,
    verified: Option<bool>,
    fails: nat -> bool,
    opens: bool)

  // ----- the file operations --------------------------------------------------------------------

  function Now(c: Course, d: Disk): Course {
    Course(d, c.trail + [d], c.tried + 1)
  }

  function Tried(c: Course): Course {
    c.(tried := c.tried + 1)
  }

  /** A rename, onto whatever was there. */
  function Renamed(d: Disk, from: Name, to: Name): Disk
    requires from in d
  {
    (d - {from})[to := d[from]]
  }

  datatype Move = Move(from: Name, to: Name)

  /** Renames in order, each only if its source is there, until one fails. */
  function Moved(c: Course, moves: seq<Move>, fails: nat -> bool): (Course, bool)
    decreases |moves|
  {
    if moves == [] then (c, false)
    else if moves[0].from !in c.disk then Moved(c, moves[1..], fails)
    else if fails(c.tried) then (Tried(c), true)
    else Moved(Now(c, Renamed(c.disk, moves[0].from, moves[0].to)), moves[1..], fails)
  }

  const PARTS := [Main, Wal, Shm]

  function AsideMoves(stamp: nat): seq<Move> {
    [Move(Live(Main), Damaged(stamp, Main)), Move(Live(Wal), Damaged(stamp, Wal)), Move(Live(Shm), Damaged(stamp, Shm))]
  }

  function SiblingMoves(stamp: nat): seq<Move> {
    [Move(Rebuilding(stamp, Wal), Live(Wal)), Move(Rebuilding(stamp, Shm), Live(Shm))]
  }

  /** The siblings first, the database last: its rename is the commit point. */
  function SwappedIn(c: Course, stamp: nat, fails: nat -> bool): (Course, bool) {
    var (s, raised) := Moved(c, SiblingMoves(stamp), fails);
    if raised then (s, true)
    else if Rebuilding(stamp, Main) !in s.disk then (Tried(s), true)
    else Moved(s, [Move(Rebuilding(stamp, Main), Live(Main))], fails)
  }

  /** Clearing away what is left, as far as it goes. */
  function Discarded(c: Course, stamp: nat, parts: seq<Part>, fails: nat -> bool): Course
    decreases |parts|
  {
    if parts == [] then c
    else
      var n := Rebuilding(stamp, parts[0]);
      Discarded(
        if n !in c.disk then c else if fails(c.tried) then Tried(c) else Now(c, c.disk - {n}),
        stamp, parts[1..], fails)
  }

  function Built(d: Disk, a: Attempt, build: nat): Disk {
    d + map n | n in (set p | p in a.written :: Rebuilding(a.stamp, p)) :: File(build, a.written[n.part])
  }

  /** Everything between building and clearing away. */
  function Swapping(c: Course, a: Attempt): (Course, bool) {
    if a.verified.None? then (c, true)
    else
      var (m, raised) := Moved(c, AsideMoves(a.asideStamp), a.fails);
      if raised then (m, true) else SwappedIn(m, a.stamp, a.fails)
  }

  function Attempted(d: Disk, a: Attempt, build: nat): (Course, bool) {
    var b := Built(d, a, build);
    var (s, raised) := Swapping(Course(b, [d, b], 0), a);
    (Discarded(s, a.stamp, PARTS, a.fails), !raised && a.opens)
  }

  // ----- as it is run ---------------------------------------------------------------------------

  class Recovery {
    var disk: Disk
    var tried: nat
    ghost var trail: seq<Disk>

    ghost function View(): Course
      reads this
    {
      Course(disk, trail, tried)
    }

    constructor (d: Disk)
      ensures View() == Course(d, [d], 0)
    {
      disk, tried, trail := d, 0, [d];
    }

    method Rename(m: Move, fails: nat -> bool) returns (raised: bool)
      requires m.from in disk
      modifies this
      ensures raised == fails(old(tried))
      ensures View() == if raised then Tried(old(View())) else Now(old(View()), Renamed(old(disk), m.from, m.to))
    {
      raised := fails(tried);
      tried := tried + 1;
      if !raised {
        disk := (disk - {m.from})[m.to := disk[m.from]];
        trail := trail + [disk];
      }
    }

    method MoveEach(moves: seq<Move>, fails: nat -> bool) returns (raised: bool)
      modifies this
      ensures (View(), raised) == Moved(old(View()), moves, fails)
    {
      for i := 0 to |moves|
        invariant Moved(View(), moves[i..], fails) == Moved(old(View()), moves, fails)
      {
        assert moves[i..][1..] == moves[i + 1..];
        if moves[i].from in disk {
          raised := Rename(moves[i], fails);
          if raised {
            return;
          }
        }
      }
      return false;
    }

    method MoveDamagedAside(stamp: nat, fails: nat -> bool) returns (raised: bool)
      modifies this
      ensures (View(), raised) == Moved(old(View()), AsideMoves(stamp), fails)
    {
      raised := MoveEach(AsideMoves(stamp), fails);
    }

    method SwapIn(stamp: nat, fails: nat -> bool) returns (raised: bool)
      modifies this
      ensures (View(), raised) == SwappedIn(old(View()), stamp, fails)
    {
      raised := MoveEach(SiblingMoves(stamp), fails);
      if raised {
        return;
      }
      if Rebuilding(stamp, Main) !in disk {
        tried := tried + 1;
        return true;
      }
      raised := MoveEach([Move(Rebuilding(stamp, Main), Live(Main))], fails);
    }

    method DiscardRebuild(stamp: nat, fails: nat -> bool)
      modifies this
      ensures View() == Discarded(old(View()), stamp, PARTS, fails)
    {
      for i := 0 to |PARTS|
        invariant Discarded(View(), stamp, PARTS[i..], fails) == Discarded(old(View()), stamp, PARTS, fails)
      {
        assert PARTS[i..][1..] == PARTS[i + 1..];
        if Rebuilding(stamp, PARTS[i]) in disk {
          if !fails(tried) {
            disk := disk - {Rebuilding(stamp, PARTS[i])};
            trail := trail + [disk];
          }
          tried := tried + 1;
        }
      }
    }

    /** One attempt, from a rebuild that has just been written (or given up on) to what is reported. */
    method Recover(a: Attempt, build: nat) returns (ok: bool)
      modifies this
      ensures (View(), ok) == Attempted(old(disk), a, build)
    {
      hide Moved, SwappedIn, Discarded;
      ghost var d := disk;
      tried, trail := 0, [disk];
      disk := Built(disk, a, build);
      trail := trail + [disk];
      assert trail == [d, disk];
      ghost var built := View();
      var raised := a.verified.None?;
      if !raised {
        raised := MoveDamagedAside(a.asideStamp, a.fails);
        if !raised {
          raised := SwapIn(a.stamp, a.fails);
        }
      }
      assert (View(), raised) == Swapping(built, a);
      DiscardRebuild(a.stamp, a.fails);
      return !raised && a.opens;
    }
  }

  // ----- what one attempt leaves --------------------------------------------------------------

  /** The same file, or no file, under this name in both. */
  predicate Same(d: Disk, d': Disk, n: Name) {
    (n in d <==> n in d') && (n in d ==> d[n] == d'[n])
  }

  /** Nothing is on disk under the names this attempt will use. */
  predicate Fresh(d: Disk, a: Attempt) {
    forall p: Part :: Rebuilding(a.stamp, p) !in d && Damaged(a.asideStamp, p) !in d
  }

  /** Whatever was moved aside before is still there; whatever was live is still live, or is now aside. */
  ghost predicate Kept(before: Disk, asideStamp: nat, d: Disk) {
    && (forall t: nat, p: Part :: Damaged(t, p) in before ==> Same(before, d, Damaged(t, p)))
    && (forall p: Part :: Live(p) in before ==>
          (Live(p) in d && d[Live(p)] == before[Live(p)]) || Aside(before, asideStamp, d, p))
  }

  predicate Aside(before: Disk, asideStamp: nat, d: Disk, p: Part) {
    Live(p) in before ==> Damaged(asideStamp, p) in d && d[Damaged(asideStamp, p)] == before[Live(p)]
  }

  /** Beside a rebuilt database sit only files of the same rebuild. */
  predicate Clean(d: Disk) {
    Live(Main) in d && d[Live(Main)].build > 0 ==>
      forall p: Part :: Live(p) in d ==> d[Live(p)].build == d[Live(Main)].build
  }

  function Place(p: Part): nat {
    match p case Main => 0 case Wal => 1 case Shm => 2
  }

  /** The replacement's files are this rebuild's, and the files already aside have not moved. */
  ghost predicate Underway(before: Disk, a: Attempt, build: nat, d: Disk) {
    && (forall t: nat, p: Part :: Damaged(t, p) in before ==> Same(before, d, Damaged(t, p)))
    && (forall p: Part ::
        Same(map n | n in (set q | q in a.written :: Rebuilding(a.stamp, q)) ::
            File(build, a.written[n.part]), d, Rebuilding(a.stamp, p)))
  }

  /** `i` parts moved aside, the database first; the rest still live. */
  ghost predicate MovingAside(before: Disk, a: Attempt, build: nat, i: nat, d: Disk) {
    && Underway(before, a, build, d)
    && (forall p: Part :: Place(p) < i ==> Live(p) !in d && Aside(before, a.asideStamp, d, p))
    && (forall p: Part :: Place(p) >= i ==> Same(before, d, Live(p)) && Damaged(a.asideStamp, p) !in d)
  }

  predicate Ours(a: Attempt, build: nat, d: Disk, n: Name) {
    n in d ==> n.part in a.written && d[n] == File(build, a.written[n.part])
  }

  /** Everything that was live is aside; only this rebuild's files are live or about to be. */
  ghost predicate Swapped(before: Disk, a: Attempt, build: nat, d: Disk) {
    && (forall t: nat, p: Part :: Damaged(t, p) in before ==> Same(before, d, Damaged(t, p)))
    && (forall p: Part :: Aside(before, a.asideStamp, d, p))
    && (forall p: Part :: Ours(a, build, d, Live(p)) && Ours(a, build, d, Rebuilding(a.stamp, p)))
    && (forall p: Part :: p in a.written ==> Live(p) in d || Rebuilding(a.stamp, p) in d)
  }

  ghost predicate Good(before: Disk, asideStamp: nat, d: Disk) {
    Kept(before, asideStamp, d) && Clean(d)
  }

  lemma BuiltIsUnderway(d: Disk, a: Attempt, build: nat)
    requires Fresh(d, a)
    ensures MovingAside(d, a, build, 0, Built(d, a, build))
  {
    var b := Built(d, a, build);
    assert forall t: nat, p: Part :: Same(d, b, Damaged(t, p));
    assert forall p: Part :: Same(d, b, Live(p));
  }

  lemma MovingIsGood(before: Disk, a: Attempt, build: nat, i: nat, d: Disk)
    requires MovingAside(before, a, build, i, d) && Clean(before)
    ensures Good(before, a.asideStamp, d)
  {
    if i == 0 {
      assert forall p: Part :: Same(before, d, Live(p));
    } else {
      assert Place(Main) < i;
    }
  }

  lemma SwappedIsGood(before: Disk, a: Attempt, build: nat, d: Disk)
    requires Swapped(before, a, build, d)
    ensures Good(before, a.asideStamp, d)
  {
  }

  lemma OneAside(before: Disk, a: Attempt, build: nat, p: Part, d: Disk)
    requires MovingAside(before, a, build, Place(p), d)
    ensures Live(p) in d ==> MovingAside(before, a, build, Place(p) + 1, Renamed(d, Live(p), Damaged(a.asideStamp, p)))
    ensures Live(p) !in d ==> MovingAside(before, a, build, Place(p) + 1, d)
  {
    assert forall q: Part :: Place(q) == Place(p) <==> q == p;
  }

  lemma OneSwap(before: Disk, a: Attempt, build: nat, p: Part, d: Disk)
    requires Swapped(before, a, build, d) && Rebuilding(a.stamp, p) in d
    ensures Swapped(before, a, build, Renamed(d, Rebuilding(a.stamp, p), Live(p)))
  {
    var d' := Renamed(d, Rebuilding(a.stamp, p), Live(p));
    assert forall t: nat, q: Part :: Same(d, d', Damaged(t, q));
    assert Ours(a, build, d, Rebuilding(a.stamp, p));
    forall q: Part ensures Aside(before, a.asideStamp, d', q) && Ours(a, build, d', Live(q))
        && Ours(a, build, d', Rebuilding(a.stamp, q)) {
      assert Aside(before, a.asideStamp, d, q) && Same(d, d', Damaged(a.asideStamp, q));
      assert Ours(a, build, d, Live(q)) && Ours(a, build, d, Rebuilding(a.stamp, q));
    }
  }

  lemma AllAside(before: Disk, a: Attempt, build: nat, d: Disk)
    requires MovingAside(before, a, build, 3, d)
    ensures Swapped(before, a, build, d)
  {
    assert forall p: Part :: Place(p) < 3;
  }

  // Through every step, whichever fails.

  ghost predicate AllGood(before: Disk, asideStamp: nat, trail: seq<Disk>) {
    forall k :: 0 <= k < |trail| ==> Good(before, asideStamp, trail[k])
  }

  lemma {:induction false} AsideStaysGood(before: Disk, a: Attempt, build: nat, c: Course, i: nat)
    requires i <= 3 && MovingAside(before, a, build, i, c.disk) && Clean(before)
    requires AllGood(before, a.asideStamp, c.trail)
    ensures var (m, raised) := Moved(c, AsideMoves(a.asideStamp)[i..], a.fails);
            && AllGood(before, a.asideStamp, m.trail) && Good(before, a.asideStamp, m.disk)
            && (!raised ==> MovingAside(before, a, build, 3, m.disk))
            && (raised ==> exists j :: 0 <= j <= 3 && MovingAside(before, a, build, j, m.disk) && j < 3)
    decreases 3 - i
  {
    hide MovingAside, Good, Swapped;
    var moves := AsideMoves(a.asideStamp);
    MovingIsGood(before, a, build, i, c.disk);
    if i < 3 {
      var p := PARTS[i];
      OneAside(before, a, build, p, c.disk);
      assert moves[i..][1..] == moves[i + 1..];
      if moves[i].from !in c.disk {
        AsideStaysGood(before, a, build, c, i + 1);
      } else if !a.fails(c.tried) {
        var next := Renamed(c.disk, moves[i].from, moves[i].to);
        MovingIsGood(before, a, build, i + 1, next);
        AsideStaysGood(before, a, build, Now(c, next), i + 1);
      }
    }
  }

  predicate SwapMoves(a: Attempt, moves: seq<Move>) {
    forall k :: 0 <= k < |moves| ==> moves[k] == Move(Rebuilding(a.stamp, moves[k].from.part), Live(moves[k].from.part))
  }

  lemma {:induction false} SwapStaysGood(before: Disk, a: Attempt, build: nat, c: Course, moves: seq<Move>)
    requires SwapMoves(a, moves) && Swapped(before, a, build, c.disk) && AllGood(before, a.asideStamp, c.trail)
    ensures var (m, raised) := Moved(c, moves, a.fails);
            && AllGood(before, a.asideStamp, m.trail) && Swapped(before, a, build, m.disk)
            && (!raised ==> forall k :: 0 <= k < |moves| ==> moves[k].from !in m.disk)
            && (forall n: Name :: n.Rebuilding? && n in m.disk ==> n in c.disk)
            && (forall p: Part :: (forall k :: 0 <= k < |moves| ==> moves[k].from.part != p) ==>
                Same(c.disk, m.disk, Live(p)) && Same(c.disk, m.disk, Rebuilding(a.stamp, p)))
    decreases |moves|
  {
    hide Good, Swapped;
    if moves != [] {
      var m := moves[0];
      if m.from !in c.disk {
        SwapStaysGood(before, a, build, c, moves[1..]);
      } else if !a.fails(c.tried) {
        var next := Renamed(c.disk, m.from, m.to);
        OneSwap(before, a, build, m.from.part, c.disk);
        SwappedIsGood(before, a, build, next);
        SwapStaysGood(before, a, build, Now(c, next), moves[1..]);
      }
    }
  }

  /** The replacement is live, whole and alone. */
  ghost predicate Landed(a: Attempt, build: nat, d: Disk) {
    && Main in a.written
    && forall p: Part ::
        (Live(p) in d <==> p in a.written) && Ours(a, build, d, Live(p)) && Rebuilding(a.stamp, p) !in d
  }

  lemma SwapInIsGood(before: Disk, a: Attempt, build: nat, c: Course)
    requires MovingAside(before, a, build, 3, c.disk) && AllGood(before, a.asideStamp, c.trail)
    ensures var (s, raised) := SwappedIn(c, a.stamp, a.fails);
            && AllGood(before, a.asideStamp, s.trail) && Good(before, a.asideStamp, s.disk)
            && (if raised then Live(Main) !in s.disk else Landed(a, build, s.disk))
  {
    hide Good, MovingAside, Moved, Swapped;
    AllAside(before, a, build, c.disk);
    NoneLive(before, a, build, c.disk);
    var siblings := SiblingMoves(a.stamp);
    SwapStaysGood(before, a, build, c, siblings);
    var (s, raised) := Moved(c, siblings, a.fails);
    SwappedIsGood(before, a, build, s.disk);
    assert forall k :: 0 <= k < |siblings| ==> siblings[k].from.part != Main;
    assert Same(c.disk, s.disk, Live(Main));
    if !raised && Rebuilding(a.stamp, Main) in s.disk {
      assert siblings[0].from !in s.disk && siblings[1].from !in s.disk;
      CommitIsGood(before, a, build, s);
    }
  }

  lemma NoneLive(before: Disk, a: Attempt, build: nat, d: Disk)
    requires MovingAside(before, a, build, 3, d)
    ensures forall p: Part :: Live(p) !in d
  {
    assert forall p: Part :: Place(p) < 3;
  }

  /** The last rename: with the siblings in place, the replacement goes live or stays where it was built. */
  lemma CommitIsGood(before: Disk, a: Attempt, build: nat, s: Course)
    requires Swapped(before, a, build, s.disk) && AllGood(before, a.asideStamp, s.trail)
    requires Rebuilding(a.stamp, Main) in s.disk && Live(Main) !in s.disk
    requires Rebuilding(a.stamp, Wal) !in s.disk && Rebuilding(a.stamp, Shm) !in s.disk
    ensures var (m, raised) := Moved(s, [Move(Rebuilding(a.stamp, Main), Live(Main))], a.fails);
            && AllGood(before, a.asideStamp, m.trail) && Good(before, a.asideStamp, m.disk)
            && (if raised then Live(Main) !in m.disk else Landed(a, build, m.disk))
  {
    hide Good, Kept;
    var commit := [Move(Rebuilding(a.stamp, Main), Live(Main))];
    assert commit[1..] == [];
    SwapStaysGood(before, a, build, s, commit);
    var (m, raised) := Moved(s, commit, a.fails);
    SwappedIsGood(before, a, build, m.disk);
    if !raised {
      assert commit[0].from !in m.disk;
      assert Ours(a, build, s.disk, Rebuilding(a.stamp, Main));
    }
  }

  lemma GoodIgnoresRebuilds(before: Disk, asideStamp: nat, d: Disk, d': Disk)
    requires Good(before, asideStamp, d) && forall n: Name :: !n.Rebuilding? ==> Same(d, d', n)
    ensures Good(before, asideStamp, d')
  {
    forall t: nat, p: Part | Damaged(t, p) in before ensures Same(before, d', Damaged(t, p)) {
      assert Same(before, d, Damaged(t, p)) && Same(d, d', Damaged(t, p));
    }
    assert forall p: Part :: Same(d, d', Live(p));
    forall p: Part | Live(p) in before
      ensures (Live(p) in d' && d'[Live(p)] == before[Live(p)]) || Aside(before, asideStamp, d', p)
    {
      assert Same(d, d', Live(p)) && Same(d, d', Damaged(asideStamp, p));
    }
  }

  lemma {:induction false} DiscardStaysGood(before: Disk, a: Attempt, c: Course, parts: seq<Part>)
    requires AllGood(before, a.asideStamp, c.trail) && Good(before, a.asideStamp, c.disk)
    ensures var d := Discarded(c, a.stamp, parts, a.fails);
            && AllGood(before, a.asideStamp, d.trail) && Good(before, a.asideStamp, d.disk)
            && (forall n: Name :: !n.Rebuilding? ==> Same(c.disk, d.disk, n))
            && (forall n: Name :: n in d.disk ==> n in c.disk)
    decreases |parts|
  {
    hide Good;
    if parts != [] {
      var n := Rebuilding(a.stamp, parts[0]);
      if n in c.disk && !a.fails(c.tried) {
        GoodIgnoresRebuilds(before, a.asideStamp, c.disk, c.disk - {n});
        DiscardStaysGood(before, a, Now(c, c.disk - {n}), parts[1..]);
      } else {
        DiscardStaysGood(before, a, if n in c.disk then Tried(c) else c, parts[1..]);
      }
    }
  }

  /** One of the file operations tried from the `from`-th up to the `to`-th failed. */
  predicate OneFailed(fails: nat -> bool, from: nat, to: nat) {
    exists k: nat :: from <= k < to && fails(k)
  }

  /** Clearing away touches the rebuild's parts alone, and leaves one only if a removal failed. */
  lemma {:induction false} DiscardRemoves(c: Course, stamp: nat, parts: seq<Part>, fails: nat -> bool)
    ensures var d := Discarded(c, stamp, parts, fails);
            && c.tried <= d.tried
            && (forall p :: p in parts && Rebuilding(stamp, p) in d.disk ==> OneFailed(fails, c.tried, d.tried))
            && (forall n: Name :: n in d.disk ==> n in c.disk && d.disk[n] == c.disk[n])
            && (forall n: Name :: n in c.disk && n !in d.disk ==>
                  n.Rebuilding? && n.stamp == stamp && n.part in parts)
    decreases |parts|
  {
    hide OneFailed;
    if parts != [] {
      var n := Rebuilding(stamp, parts[0]);
      var next := if n !in c.disk then c else if fails(c.tried) then Tried(c) else Now(c, c.disk - {n});
      DiscardRemoves(next, stamp, parts[1..], fails);
      var d := Discarded(next, stamp, parts[1..], fails);
      Earlier(fails, c.tried, next.tried, d.tried);
      assert forall p :: p in parts ==> p == parts[0] || p in parts[1..];
    }
  }

  lemma Earlier(fails: nat -> bool, from: nat, middle: nat, to: nat)
    requires from <= middle <= to
    ensures OneFailed(fails, middle, to) ==> OneFailed(fails, from, to)
    ensures from < middle && fails(from) ==> OneFailed(fails, from, to)
  {
  }

  /**
   However an attempt goes, on any disk: of what it rebuilt nothing is left beside the database
   unless a removal at its end failed, and clearing away touches nothing else.
   */
  lemma RebuildIsCleared(before: Disk, a: Attempt, build: nat)
    ensures var b := Built(before, a, build);
            var (s, raised) := Swapping(Course(b, [before, b], 0), a);
            var (c, ok) := Attempted(before, a, build);
            && s.tried <= c.tried
            && (forall p: Part :: Rebuilding(a.stamp, p) in c.disk ==> OneFailed(a.fails, s.tried, c.tried))
            && (forall n: Name :: !(n.Rebuilding? && n.stamp == a.stamp) ==> Same(s.disk, c.disk, n))
  {
    hide Swapping, Discarded, OneFailed;
    var b := Built(before, a, build);
    DiscardRemoves(Swapping(Course(b, [before, b], 0), a).0, a.stamp, PARTS, a.fails);
    forall p: Part ensures p in PARTS {
      assert PARTS[Place(p)] == p;
    }
  }

  /**
   At every step of an attempt, whichever file operations fail: every file already aside is
   still there, every live file is live or aside, and no rebuilt database has an older
   sibling. Success is reported exactly when the rebuild is live, whole and alone, and opens;
   until it is live the live database is the one there was, or none.
   */
  lemma AttemptIsSafe(before: Disk, a: Attempt, build: nat)
    requires Fresh(before, a) && Clean(before) && (Live(Main) in before ==> before[Live(Main)].build != build)
    ensures var (c, ok) := Attempted(before, a, build);
            && AllGood(before, a.asideStamp, c.trail) && Good(before, a.asideStamp, c.disk)
            && (ok <==> Landed(a, build, c.disk) && a.opens)
            && (!Landed(a, build, c.disk) && Live(Main) in c.disk ==> Same(before, c.disk, Live(Main)))
  {
    hide Good, Moved, SwappedIn, Discarded, MovingAside, Clean, Landed;
    var b := Built(before, a, build);
    var start := Course(b, [before, b], 0);
    BuiltIsUnderway(before, a, build);
    MovingIsGood(before, a, build, 0, b);
    BeforeIsGood(before, a.asideStamp);
    MainStays(before, a, build, 0, b);
    var (s, raised) := Swapping(start, a);
    if a.verified.Some? {
      var (m, failed) := Moved(start, AsideMoves(a.asideStamp), a.fails);
      assert AsideMoves(a.asideStamp)[0..] == AsideMoves(a.asideStamp);
      AsideStaysGood(before, a, build, start, 0);
      if failed {
        var j :| 0 <= j < 3 && MovingAside(before, a, build, j, m.disk);
        MainStays(before, a, build, j, m.disk);
      } else {
        SwapInIsGood(before, a, build, m);
      }
    }
    DiscardStaysGood(before, a, s, PARTS);
    var d := Discarded(s, a.stamp, PARTS, a.fails);
    assert Same(s.disk, d.disk, Live(Main));
    if !raised {
      LandedStays(a, build, s.disk, d.disk);
    } else {
      OldIsNotLanded(a, build, before, d.disk);
    }
  }

  lemma OldIsNotLanded(a: Attempt, build: nat, before: Disk, d: Disk)
    requires Live(Main) in d ==> Same(before, d, Live(Main)) && before[Live(Main)].build != build
    ensures !Landed(a, build, d)
  {
  }

  lemma LandedStays(a: Attempt, build: nat, d: Disk, d': Disk)
    requires Landed(a, build, d) && (forall n: Name :: !n.Rebuilding? ==> Same(d, d', n))
    requires (forall n: Name :: n in d' ==> n in d)
    ensures Landed(a, build, d')
  {
    forall p: Part ensures (Live(p) in d' <==> p in a.written) && Ours(a, build, d', Live(p))
        && Rebuilding(a.stamp, p) !in d' {
      assert Same(d, d', Live(p)) && Ours(a, build, d, Live(p));
    }
  }

  lemma BeforeIsGood(before: Disk, asideStamp: nat)
    requires Clean(before)
    ensures Good(before, asideStamp, before)
  {
  }

  lemma MainStays(before: Disk, a: Attempt, build: nat, i: nat, d: Disk)
    requires MovingAside(before, a, build, i, d)
    ensures Live(Main) in d ==> Same(before, d, Live(Main))
  {
    assert i > 0 ==> Place(Main) < i;
  }

  // ----- over repeated attempts -----------------------------------------------------------------

  /** Everything already aside stays as it is. */
  ghost predicate Grows(d: Disk, d': Disk) {
    forall t: nat, p: Part :: Damaged(t, p) in d ==> Same(d, d', Damaged(t, p))
  }

  ghost predicate Growing(h: seq<Disk>) {
    forall k :: 0 < k < |h| ==> Grows(h[k - 1], h[k])
  }

  /** No name is stamped past `clock`, and no file is from a later rebuild than `build`. */
  ghost predicate Bounded(clock: nat, build: nat, d: Disk) {
    forall n: Name :: n in d ==> d[n].build <= build && (n.Live? || n.stamp <= clock)
  }

  ghost predicate AllBounded(clock: nat, build: nat, h: seq<Disk>) {
    forall k :: 0 <= k < |h| ==> Bounded(clock, build, h[k])
  }

  /** A trail that ends at the disk it describes, loses nothing aside, and stays within bounds. */
  ghost predicate OnCourse(clock: nat, build: nat, c: Course) {
    && c.trail != [] && c.trail[|c.trail| - 1] == c.disk
    && Growing(c.trail) && AllBounded(clock, build, c.trail)
  }

  lemma NowOnCourse(clock: nat, build: nat, c: Course, d: Disk)
    requires OnCourse(clock, build, c) && Grows(c.disk, d) && Bounded(clock, build, d)
    ensures OnCourse(clock, build, Now(c, d))
  {
    hide Grows, Bounded;
  }

  predicate SafeMove(clock: nat, d: Disk, m: Move) {
    !m.from.Damaged? && (m.to.Live? || (m.to.stamp <= clock && m.to !in d))
  }

  predicate SafeMoves(clock: nat, d: Disk, moves: seq<Move>) {
    && (forall k :: 0 <= k < |moves| ==> SafeMove(clock, d, moves[k]))
    && (forall j, k :: 0 <= j < k < |moves| ==> moves[j].to != moves[k].to)
  }

  lemma {:induction false} MovesOnCourse(clock: nat, build: nat, c: Course, moves: seq<Move>, fails: nat -> bool)
    requires OnCourse(clock, build, c) && SafeMoves(clock, c.disk, moves)
    ensures OnCourse(clock, build, Moved(c, moves, fails).0)
    decreases |moves|
  {
    hide OnCourse;
    if moves != [] {
      var m := moves[0];
      if m.from !in c.disk {
        MovesOnCourse(clock, build, c, moves[1..], fails);
      } else if !fails(c.tried) {
        OneOnCourse(clock, build, c, moves);
        MovesOnCourse(clock, build, Now(c, Renamed(c.disk, m.from, m.to)), moves[1..], fails);
      } else {
        TriedOnCourse(clock, build, c);
      }
    }
  }

  lemma TriedOnCourse(clock: nat, build: nat, c: Course)
    requires OnCourse(clock, build, c)
    ensures OnCourse(clock, build, Tried(c))
  {
  }

  lemma OneOnCourse(clock: nat, build: nat, c: Course, moves: seq<Move>)
    requires OnCourse(clock, build, c) && SafeMoves(clock, c.disk, moves) && moves != [] && moves[0].from in c.disk
    ensures var d := Renamed(c.disk, moves[0].from, moves[0].to);
            OnCourse(clock, build, Now(c, d)) && SafeMoves(clock, d, moves[1..])
  {
    var m := moves[0];
    var d := Renamed(c.disk, m.from, m.to);
    assert Bounded(clock, build, c.disk);
    assert Grows(c.disk, d) && Bounded(clock, build, d);
    NowOnCourse(clock, build, c, d);
  }

  lemma {:induction false} DiscardOnCourse(clock: nat, build: nat, c: Course, stamp: nat, parts: seq<Part>,
                                           fails: nat -> bool)
    requires OnCourse(clock, build, c)
    ensures OnCourse(clock, build, Discarded(c, stamp, parts, fails))
    decreases |parts|
  {
    hide OnCourse;
    if parts != [] {
      var n := Rebuilding(stamp, parts[0]);
      if n !in c.disk {
        DiscardOnCourse(clock, build, c, stamp, parts[1..], fails);
      } else if fails(c.tried) {
        TriedOnCourse(clock, build, c);
        DiscardOnCourse(clock, build, Tried(c), stamp, parts[1..], fails);
      } else {
        RemovalOnCourse(clock, build, c, n);
        DiscardOnCourse(clock, build, Now(c, c.disk - {n}), stamp, parts[1..], fails);
      }
    }
  }

  lemma RemovalOnCourse(clock: nat, build: nat, c: Course, n: Name)
    requires OnCourse(clock, build, c) && n.Rebuilding?
    ensures OnCourse(clock, build, Now(c, c.disk - {n}))
  {
    assert Bounded(clock, build, c.disk);
    NowOnCourse(clock, build, c, c.disk - {n});
  }

  lemma AttemptOnCourse(clock: nat, build: nat, before: Disk, a: Attempt)
    requires Bounded(clock, build, before) && Fresh(before, a) && a.stamp <= clock && a.asideStamp <= clock
    ensures OnCourse(clock, build, Attempted(before, a, build).0)
  {
    hide Moved, OnCourse, Discarded, SafeMoves;
    var b := Built(before, a, build);
    var start := Course(b, [before, b], 0);
    StartOnCourse(clock, build, before, a);
    var (s, raised) := Swapping(start, a);
    if a.verified.Some? {
      var (m, failed) := Moved(start, AsideMoves(a.asideStamp), a.fails);
      MovesOnCourse(clock, build, start, AsideMoves(a.asideStamp), a.fails);
      if !failed {
        var (w, stuck) := Moved(m, SiblingMoves(a.stamp), a.fails);
        SwapMovesAreSafe(clock, m.disk, a.stamp);
        MovesOnCourse(clock, build, m, SiblingMoves(a.stamp), a.fails);
        SwapMovesAreSafe(clock, w.disk, a.stamp);
        MovesOnCourse(clock, build, w, [Move(Rebuilding(a.stamp, Main), Live(Main))], a.fails);
        TriedOnCourse(clock, build, w);
      }
    }
    DiscardOnCourse(clock, build, s, a.stamp, PARTS, a.fails);
  }

  lemma SwapMovesAreSafe(clock: nat, d: Disk, stamp: nat)
    ensures SafeMoves(clock, d, SiblingMoves(stamp)) && SafeMoves(clock, d, [Move(Rebuilding(stamp, Main), Live(Main))])
  {
  }

  lemma StartOnCourse(clock: nat, build: nat, before: Disk, a: Attempt)
    requires Bounded(clock, build, before) && Fresh(before, a) && a.stamp <= clock && a.asideStamp <= clock
    ensures var b := Built(before, a, build);
            OnCourse(clock, build, Course(b, [before, b], 0)) && SafeMoves(clock, b, AsideMoves(a.asideStamp))
  {
    hide Bounded, Grows;
    BuiltGrows(clock, build, before, a);
  }

  lemma BuiltGrows(clock: nat, build: nat, before: Disk, a: Attempt)
    requires Bounded(clock, build, before) && a.stamp <= clock
    ensures Grows(before, Built(before, a, build)) && Bounded(clock, build, Built(before, a, build))
  {
  }

  // The program's life: attempts, each perhaps cut short, and the database in use between them.

  datatype Event =
    | Try(attempt: Attempt, cut: nat)      // the program ends after `cut` changes, or the attempt runs out
    | Use(written: map<Part, string>)      // the live database, open: its own files rewritten
    | Reopen(text: string)                 // no live database: an empty one is made

  function Visited(d: Disk, e: Event, build: nat): (v: seq<Disk>)
    ensures v != []
  {
    match e
    case Try(a, cut) =>
      var trail := Attempted(d, a, build).0.trail;
      [d] + if cut < |trail| then trail[..cut] else trail
    case Use(written) =>
      if Live(Main) !in d then [d]
      else
        var open := map n | n in (set p | p in written :: Live(p)) :: File(d[Live(Main)].build, written[n.part]);
        [d, d - {Live(Wal), Live(Shm)} + open]
    case Reopen(text) => if Live(Main) in d then [d] else [d, d[Live(Main) := File(0, text)]]
  }

  function History(d: Disk, events: seq<Event>): (h: seq<Disk>)
    ensures h != []
  {
    if events == [] then [d]
    else
      var h := History(d, events[..|events| - 1]);
      h + Visited(h[|h| - 1], events[|events| - 1], |events|)
  }

  function Clock(events: seq<Event>): nat {
    if events == [] then 0
    else
      var before, e := Clock(events[..|events| - 1]), events[|events| - 1];
      if e.Try? then
        var later := if e.attempt.stamp > e.attempt.asideStamp then e.attempt.stamp else e.attempt.asideStamp;
        if later > before then later else before
      else before
  }

  /** Every attempt reads stamps later than those of the attempts before it. */
  predicate Ticks(events: seq<Event>) {
    events != [] ==>
      var front, e := events[..|events| - 1], events[|events| - 1];
      && Ticks(front)
      && (e.Try? ==> e.attempt.stamp > Clock(front) && e.attempt.asideStamp > Clock(front))
  }

  ghost predicate AllClean(h: seq<Disk>) {
    forall k :: 0 <= k < |h| ==> Clean(h[k])
  }

  lemma VisitIsSound(d: Disk, e: Event, clock: nat, later: nat, build: nat)
    requires Clean(d) && Bounded(clock, build, d) && clock <= later
    requires e.Try? ==> clock < e.attempt.stamp <= later && clock < e.attempt.asideStamp <= later
    ensures var v := Visited(d, e, build + 1);
            v[0] == d && Growing(v) && AllBounded(later, build + 1, v) && AllClean(v)
  {
    hide Clean;
    match e
    case Try(a, cut) =>
      hide Attempted, Visited, Growing, AllBounded, AllClean;
      StampsAreFresh(d, a, clock, later, build);
      AttemptIsSafe(d, a, build + 1);
      AttemptOnCourse(later, build + 1, d, a);
      CutIsSound(d, a, cut, later, build + 1);
    case Use(written) => UseIsSound(d, written, later, build + 1);
    case Reopen(text) => ReopenIsSound(d, text, later, build + 1);
  }

  lemma StampsAreFresh(d: Disk, a: Attempt, clock: nat, later: nat, build: nat)
    requires Bounded(clock, build, d) && clock <= later && clock < a.stamp && clock < a.asideStamp
    ensures Fresh(d, a) && (Live(Main) in d ==> d[Live(Main)].build != build + 1)
    ensures Bounded(later, build + 1, d)
  {
  }

  lemma CutIsSound(d: Disk, a: Attempt, cut: nat, clock: nat, build: nat)
    requires var c := Attempted(d, a, build).0; OnCourse(clock, build, c) && AllGood(d, a.asideStamp, c.trail)
    requires Clean(d) && Bounded(clock, build, d)
    ensures var v := Visited(d, Try(a, cut), build);
            v[0] == d && Growing(v) && AllBounded(clock, build, v) && AllClean(v)
  {
    hide Attempted, Clean, Grows, Bounded, Kept;
    var trail := Attempted(d, a, build).0.trail;
    var rest := if cut < |trail| then trail[..cut] else trail;
    assert forall k :: 0 <= k < |rest| ==> rest[k] == trail[k];
    assert Good(d, a.asideStamp, trail[0]);
    KeptGrows(d, a.asideStamp, trail[0]);
    assert forall k :: 0 <= k < |rest| ==> Good(d, a.asideStamp, rest[k]);
    var v := [d] + rest;
    forall k | 0 < k < |v| ensures Grows(v[k - 1], v[k]) {
      if k > 1 {
        assert Grows(trail[k - 2], trail[k - 1]);
      }
    }
  }

  lemma KeptGrows(before: Disk, asideStamp: nat, d: Disk)
    requires Kept(before, asideStamp, d)
    ensures Grows(before, d)
  {
  }

  lemma UseIsSound(d: Disk, written: map<Part, string>, clock: nat, build: nat)
    requires Clean(d) && Bounded(clock, build, d)
    ensures var v := Visited(d, Use(written), build);
            v[0] == d && Growing(v) && AllBounded(clock, build, v) && AllClean(v)
  {
    if Live(Main) in d {
      var open := map n | n in (set p | p in written :: Live(p)) :: File(d[Live(Main)].build, written[n.part]);
      var d' := d - {Live(Wal), Live(Shm)} + open;
      assert Bounded(clock, build, d');
      assert Grows(d, d');
      assert Clean(d') by {
        forall p: Part | Live(p) in d' ensures d'[Live(p)].build == d'[Live(Main)].build {
          assert p.Main? || p.Wal? || p.Shm?;
        }
      }
    }
  }

  lemma ReopenIsSound(d: Disk, text: string, clock: nat, build: nat)
    requires Clean(d) && Bounded(clock, build, d)
    ensures var v := Visited(d, Reopen(text), build);
            v[0] == d && Growing(v) && AllBounded(clock, build, v) && AllClean(v)
  {
    var d' := d[Live(Main) := File(0, text)];
    assert Live(Main) !in d ==> Grows(d, d') && Bounded(clock, build, d');
  }

  lemma GrowingOn(h: seq<Disk>, v: seq<Disk>)
    requires h != [] && v != [] && Growing(h) && Growing(v) && v[0] == h[|h| - 1]
    ensures Growing(h + v)
  {
    hide Grows;
    var all := h + v;
    SelfGrows(v[0]);
    forall k | 0 < k < |all| ensures Grows(all[k - 1], all[k]) {
      if k < |h| {
        assert Grows(h[k - 1], h[k]);
      } else if k > |h| {
        assert Grows(v[k - |h| - 1], v[k - |h|]);
      }
    }
  }

  lemma SelfGrows(d: Disk)
    ensures Grows(d, d)
  {
  }

  lemma {:induction false} GrowsAcross(h: seq<Disk>, i: nat, j: nat)
    requires Growing(h) && i <= j < |h|
    ensures Grows(h[i], h[j])
    decreases j
  {
    if i == j {
      SelfGrows(h[i]);
    } else {
      GrowsAcross(h, i, j - 1);
      GrowsThen(h[i], h[j - 1], h[j]);
    }
  }

  lemma GrowsThen(d: Disk, d': Disk, d'': Disk)
    requires Grows(d, d') && Grows(d', d'')
    ensures Grows(d, d'')
  {
    forall t: nat, p: Part | Damaged(t, p) in d ensures Same(d, d'', Damaged(t, p)) {
      assert Same(d, d', Damaged(t, p)) && Same(d', d'', Damaged(t, p));
    }
  }

  lemma {:induction false} EveryLifeIsSound(d: Disk, events: seq<Event>)
    requires (forall n: Name :: n in d ==> n.Live? && d[n].build == 0) && Ticks(events)
    ensures var h := History(d, events);
            && Growing(h) && AllClean(h) && Bounded(Clock(events), |events|, h[|h| - 1])
  {
    hide Grows, Clean, Visited;
    if events == [] {
      BareIsClean(d);
    } else {
      var n := |events| - 1;
      var front, e := events[..n], events[n];
      EveryLifeIsSound(d, front);
      var h := History(d, front);
      assert Clean(h[|h| - 1]);
      VisitIsSound(h[|h| - 1], e, Clock(front), Clock(events), n);
      var v := Visited(h[|h| - 1], e, n + 1);
      GrowingOn(h, v);
      assert AllClean(h + v);
    }
  }

  lemma BareIsClean(d: Disk)
    requires forall n: Name :: n in d ==> n.Live? && d[n].build == 0
    ensures Clean(d)
  {
  }

  /**
   Over any life of the program, attempts failing or cut short anywhere in it, the database
   used and reopened between them: a file once moved aside is never lost or changed, and a
   rebuilt database never has an older sibling beside it.
   */
  lemma NothingAsideIsLost(d: Disk, events: seq<Event>, i: nat, j: nat)
    requires (forall n: Name :: n in d ==> n.Live? && d[n].build == 0) && Ticks(events)
    requires i <= j < |History(d, events)|
    ensures forall t: nat, p: Part :: Damaged(t, p) in History(d, events)[i] ==>
              Same(History(d, events)[i], History(d, events)[j], Damaged(t, p))
    ensures Clean(History(d, events)[j])
  {
    hide Clean, History, Visited, Growing;
    EveryLifeIsSound(d, events);
    GrowsAcross(History(d, events), i, j);
  }

  // ----- two attempts in one second --------------------------------------------------------------

  /** Names aside once the first `i` parts have moved, whatever was there. */
  ghost predicate AsideSoFar(b: Disk, s: nat, i: nat, d: Disk) {
    && (forall t: nat, p: Part :: t != s ==> Same(b, d, Damaged(t, p)))
    && (forall p: Part :: if Place(p) < i && Live(p) in b then Aside(b, s, d, p) else Same(b, d, Damaged(s, p)))
    && (forall p: Part :: Place(p) >= i ==> Same(b, d, Live(p)))
  }

  /** How many of the first `i` parts are live: the operations tried before part `i` is. */
  function LiveBefore(d: Disk, i: nat): nat
    requires i <= 3
  {
    if i == 0 then 0 else LiveBefore(d, i - 1) + if Live(PARTS[i - 1]) in d then 1 else 0
  }

  /** The part moving aside stops at, from part `i` on; 3 when it does not stop. */
  function StopsAt(d: Disk, fails: nat -> bool, i: nat): (j: nat)
    requires i <= 3
    ensures i <= j <= 3
    decreases 3 - i
  {
    if i == 3 || (Live(PARTS[i]) in d && fails(LiveBefore(d, i))) then i else StopsAt(d, fails, i + 1)
  }

  /** The attempt gets as far as moving this part aside: it is live, and no operation up to its own fails. */
  predicate Reached(d: Disk, a: Attempt, p: Part) {
    && a.verified.Some? && Live(p) in d
    && forall k :: 0 <= k <= LiveBefore(d, Place(p)) ==> !a.fails(k)
  }

  lemma {:induction false} LiveBeforeGrows(d: Disk, i: nat, j: nat)
    requires i <= j <= 3
    ensures LiveBefore(d, i) <= LiveBefore(d, j)
    ensures i < j && Live(PARTS[i]) in d ==> LiveBefore(d, i) < LiveBefore(d, j)
    decreases j
  {
    if i < j {
      LiveBeforeGrows(d, i, j - 1);
    }
  }

  /** Only the operations of the live parts before `j` come before its own. */
  lemma {:induction false} StopsBeyondIff(d: Disk, fails: nat -> bool, i: nat, j: nat)
    requires i <= j < 3 && Live(PARTS[j]) in d
    ensures j < StopsAt(d, fails, i) <==> forall k :: LiveBefore(d, i) <= k <= LiveBefore(d, j) ==> !fails(k)
    decreases j - i
  {
    if i < j {
      StopsBeyondIff(d, fails, i + 1, j);
      LiveBeforeGrows(d, i, j);
      if Live(PARTS[i]) in d {
        assert LiveBefore(d, i + 1) == LiveBefore(d, i) + 1;
      } else {
        assert LiveBefore(d, i + 1) == LiveBefore(d, i);
      }
    }
  }

  /** Moving aside, whatever fails: every part before the one it stops at has moved. */
  lemma {:induction false} AsideOutcome(b: Disk, s: nat, c: Course, i: nat, fails: nat -> bool)
    requires i <= 3 && AsideSoFar(b, s, i, c.disk) && c.tried == LiveBefore(b, i)
    ensures var (m, raised) := Moved(c, AsideMoves(s)[i..], fails);
            AsideSoFar(b, s, StopsAt(b, fails, i), m.disk) && (raised <==> StopsAt(b, fails, i) < 3)
    decreases 3 - i
  {
    hide AsideSoFar;
    var moves := AsideMoves(s);
    if i < 3 {
      var p := PARTS[i];
      OneAsideSoFar(b, s, p, c.disk);
      StillLive(b, s, p, c.disk);
      assert moves[i..][1..] == moves[i + 1..];
      if moves[i].from !in c.disk {
        AsideOutcome(b, s, c, i + 1, fails);
      } else if !fails(c.tried) {
        AsideOutcome(b, s, Now(c, Renamed(c.disk, moves[i].from, moves[i].to)), i + 1, fails);
      }
    }
  }

  lemma StillLive(b: Disk, s: nat, p: Part, d: Disk)
    requires AsideSoFar(b, s, Place(p), d)
    ensures Live(p) in d <==> Live(p) in b
  {
    assert Same(b, d, Live(p));
  }

  lemma OneAsideSoFar(b: Disk, s: nat, p: Part, d: Disk)
    requires AsideSoFar(b, s, Place(p), d)
    ensures Live(p) in d ==> AsideSoFar(b, s, Place(p) + 1, Renamed(d, Live(p), Damaged(s, p)))
    ensures Live(p) !in d ==> AsideSoFar(b, s, Place(p) + 1, d)
  {
    assert forall q: Part :: Place(q) == Place(p) <==> q == p;
    assert Same(b, d, Live(p));
    if Live(p) in d {
      var d' := Renamed(d, Live(p), Damaged(s, p));
      assert forall t: nat, q: Part :: t != s ==> Same(d, d', Damaged(t, q));
      assert forall q: Part :: q != p ==> Same(d, d', Damaged(s, q)) && Same(d, d', Live(q));
    }
  }

  lemma {:induction false} SwapLeavesAside(c: Course, moves: seq<Move>, fails: nat -> bool, t: nat, p: Part)
    requires forall k :: 0 <= k < |moves| ==> moves[k].from.Rebuilding? && moves[k].to.Live?
    ensures Same(c.disk, Moved(c, moves, fails).0.disk, Damaged(t, p))
    decreases |moves|
  {
    if moves != [] {
      var m := moves[0];
      if m.from in c.disk && !fails(c.tried) {
        SwapLeavesAside(Now(c, Renamed(c.disk, m.from, m.to)), moves[1..], fails, t, p);
      } else {
        SwapLeavesAside(c, moves[1..], fails, t, p);
      }
    }
  }

  lemma {:induction false} DiscardLeavesAside(c: Course, stamp: nat, parts: seq<Part>, fails: nat -> bool, t: nat,
                                              p: Part)
    ensures Same(c.disk, Discarded(c, stamp, parts, fails).disk, Damaged(t, p))
    decreases |parts|
  {
    if parts != [] {
      var n := Rebuilding(stamp, parts[0]);
      DiscardLeavesAside(
        if n !in c.disk then c else if fails(c.tried) then Tried(c) else Now(c, c.disk - {n}),
        stamp, parts[1..], fails, t, p);
    }
  }

  /** The aside names an attempt leaves are those its moves aside left. */
  lemma AttemptLeavesAside(before: Disk, a: Attempt, build: nat)
    ensures var b, i := Built(before, a, build), if a.verified.Some? then StopsAt(before, a.fails, 0) else 0;
            exists m: Disk :: AsideSoFar(b, a.asideStamp, i, m)
                      && forall t: nat, p: Part :: Same(m, Attempted(before, a, build).0.disk, Damaged(t, p))
  {
    hide Moved, Discarded, AsideSoFar, SwappedIn, Built;
    var s, b := a.asideStamp, Built(before, a, build);
    var start := Course(b, [before, b], 0);
    assert AsideMoves(s)[0..] == AsideMoves(s);
    NothingAsideYet(before, a, build);
    StopsAtBuilt(before, a, build, 0);
    if a.verified.None? {
      DiscardLeavesAll(start, a);
    } else {
      AsideOutcome(b, s, start, 0, a.fails);
      var (m, raised) := Moved(start, AsideMoves(s), a.fails);
      if raised {
        DiscardLeavesAll(m, a);
      } else {
        FinishLeavesAside(m, a);
      }
    }
  }

  lemma {:induction false} StopsAtBuilt(before: Disk, a: Attempt, build: nat, i: nat)
    requires i <= 3
    ensures StopsAt(Built(before, a, build), a.fails, i) == StopsAt(before, a.fails, i)
    decreases 3 - i
  {
    LiveBeforeBuilt(before, a, build, i);
    if i < 3 {
      StopsAtBuilt(before, a, build, i + 1);
      assert Live(PARTS[i]) in Built(before, a, build) <==> Live(PARTS[i]) in before;
    }
  }

  lemma {:induction false} LiveBeforeBuilt(before: Disk, a: Attempt, build: nat, i: nat)
    requires i <= 3
    ensures LiveBefore(Built(before, a, build), i) == LiveBefore(before, i)
  {
    if i > 0 {
      LiveBeforeBuilt(before, a, build, i - 1);
      assert Live(PARTS[i - 1]) in Built(before, a, build) <==> Live(PARTS[i - 1]) in before;
    }
  }

  lemma DiscardLeavesAll(c: Course, a: Attempt)
    ensures forall t: nat, p: Part :: Same(c.disk, Discarded(c, a.stamp, PARTS, a.fails).disk, Damaged(t, p))
  {
    forall t: nat, p: Part ensures Same(c.disk, Discarded(c, a.stamp, PARTS, a.fails).disk, Damaged(t, p)) {
      DiscardLeavesAside(c, a.stamp, PARTS, a.fails, t, p);
    }
  }

  lemma ReachedIff(before: Disk, a: Attempt, p: Part)
    requires a.verified.Some? && Live(p) in before
    ensures Reached(before, a, p) <==> Place(p) < StopsAt(before, a.fails, 0)
  {
    hide StopsAt;
    assert PARTS[Place(p)] == p;
    StopsBeyondIff(before, a.fails, 0, Place(p));
  }

  /** Where each aside name stands after an attempt: a part reached is there, and everything else is as it was. */
  lemma AsideAfter(before: Disk, a: Attempt, build: nat, t: nat, p: Part)
    ensures var d, n := Attempted(before, a, build).0.disk, Damaged(t, p);
            if t == a.asideStamp && Reached(before, a, p) then n in d && d[n] == before[Live(p)]
            else Same(before, d, n)
  {
    hide Attempted, AsideSoFar, StopsAt, Reached, Built;
    AttemptLeavesAside(before, a, build);
    var b, i := Built(before, a, build), if a.verified.Some? then StopsAt(before, a.fails, 0) else 0;
    var d := Attempted(before, a, build).0.disk;
    var m: Disk :| AsideSoFar(b, a.asideStamp, i, m) && forall t: nat, p: Part :: Same(m, d, Damaged(t, p));
    NothingAsideYet(before, a, build);
    assert Same(before, b, Live(p)) && Same(before, b, Damaged(t, p)) && Same(m, d, Damaged(t, p));
    AsideSoFarSays(b, a.asideStamp, i, m, t, p);
    OnlyReachedIf(before, a, p);
    if a.verified.Some? && Live(p) in before {
      ReachedIff(before, a, p);
    }
  }

  lemma OnlyReachedIf(before: Disk, a: Attempt, p: Part)
    ensures Reached(before, a, p) ==> a.verified.Some? && Live(p) in before
  {
  }

  lemma AsideSoFarSays(b: Disk, s: nat, i: nat, d: Disk, t: nat, p: Part)
    requires AsideSoFar(b, s, i, d)
    ensures if t == s && Place(p) < i && Live(p) in b then Damaged(t, p) in d && d[Damaged(t, p)] == b[Live(p)]
            else Same(b, d, Damaged(t, p))
  {
    if t == s && Place(p) < i && Live(p) in b {
      assert Aside(b, s, d, p);
    } else if t == s {
      assert Same(b, d, Damaged(s, p));
    }
  }

  /**
   Whatever fails, an attempt keeps every file already aside exactly when no part it gets as
   far as moving would land on a different file: that is, when the second its stamp names has
   not been used for that part before.
   */
  lemma AsideIsKeptIff(before: Disk, a: Attempt, build: nat)
    ensures Grows(before, Attempted(before, a, build).0.disk) <==>
              forall p: Part :: Reached(before, a, p) && Damaged(a.asideStamp, p) in before ==>
                before[Live(p)] == before[Damaged(a.asideStamp, p)]
  {
    hide Attempted, LiveBefore;
    var d := Attempted(before, a, build).0.disk;
    forall t: nat, p: Part
      ensures if t == a.asideStamp && Reached(before, a, p)
                then Damaged(t, p) in d && d[Damaged(t, p)] == before[Live(p)]
              else Same(before, d, Damaged(t, p))
    {
      AsideAfter(before, a, build, t, p);
    }
    forall p: Part | Reached(before, a, p) && Damaged(a.asideStamp, p) in before
      ensures Same(before, d, Damaged(a.asideStamp, p)) <==> before[Live(p)] == before[Damaged(a.asideStamp, p)]
    {
    }
  }

  // Two attempts that read the same second.

  /** Every file operation of the attempt works. */
  ghost predicate NothingFails(a: Attempt) {
    a.verified.Some? && Main in a.written && forall k: nat :: !a.fails(k)
  }

  lemma {:induction false} NoFailureNoRaise(c: Course, moves: seq<Move>, fails: nat -> bool)
    requires forall k: nat :: !fails(k)
    ensures !Moved(c, moves, fails).1
    decreases |moves|
  {
    if moves != [] {
      var m := moves[0];
      NoFailureNoRaise(if m.from in c.disk then Now(c, Renamed(c.disk, m.from, m.to)) else c, moves[1..], fails);
    }
  }

  lemma SwapInWorks(before: Disk, a: Attempt, build: nat, c: Course)
    requires MovingAside(before, a, build, 3, c.disk) && AllGood(before, a.asideStamp, c.trail) && NothingFails(a)
    ensures !SwappedIn(c, a.stamp, a.fails).1
  {
    hide Moved, Swapped, Good, AllGood, MovingAside;
    var siblings := SiblingMoves(a.stamp);
    AllAside(before, a, build, c.disk);
    SwapStaysGood(before, a, build, c, siblings);
    var (s, raised) := Moved(c, siblings, a.fails);
    NoFailureNoRaise(c, siblings, a.fails);
    NoFailureNoRaise(s, [Move(Rebuilding(a.stamp, Main), Live(Main))], a.fails);
    assert forall k :: 0 <= k < |siblings| ==> siblings[k].from.part != Main;
    MainIsBuilt(before, a, build, c.disk);
    assert Same(c.disk, s.disk, Rebuilding(a.stamp, Main));
  }

  lemma MainIsBuilt(before: Disk, a: Attempt, build: nat, d: Disk)
    requires MovingAside(before, a, build, 3, d) && Main in a.written
    ensures Rebuilding(a.stamp, Main) in d
  {
    var built := map n | n in (set q | q in a.written :: Rebuilding(a.stamp, q)) :: File(build, a.written[n.part]);
    assert Rebuilding(a.stamp, Main) in built;
    assert Same(built, d, Rebuilding(a.stamp, Main));
  }

  /** When nothing fails the rebuild lands, whether or not it opens. */
  lemma AttemptLands(before: Disk, a: Attempt, build: nat)
    requires Fresh(before, a) && Clean(before) && NothingFails(a)
    requires Live(Main) in before ==> before[Live(Main)].build != build
    ensures Landed(a, build, Attempted(before, a, build).0.disk) && Attempted(before, a, build).1 == a.opens
  {
    hide Moved, SwappedIn, Discarded, MovingAside, Clean, Landed, Good, AllGood;
    var b := Built(before, a, build);
    var start := Course(b, [before, b], 0);
    BuiltIsUnderway(before, a, build);
    StartIsGood(before, a, build);
    assert AsideMoves(a.asideStamp)[0..] == AsideMoves(a.asideStamp);
    AsideStaysGood(before, a, build, start, 0);
    NoFailureNoRaise(start, AsideMoves(a.asideStamp), a.fails);
    var (m, failed) := Moved(start, AsideMoves(a.asideStamp), a.fails);
    SwapInWorks(before, a, build, m);
    SwapInIsGood(before, a, build, m);
    var s := SwappedIn(m, a.stamp, a.fails).0;
    DiscardStaysGood(before, a, s, PARTS);
    LandedStays(a, build, s.disk, Discarded(s, a.stamp, PARTS, a.fails).disk);
  }

  lemma StartIsGood(before: Disk, a: Attempt, build: nat)
    requires Fresh(before, a) && Clean(before)
    ensures AllGood(before, a.asideStamp, [before, Built(before, a, build)])
  {
    hide Good, MovingAside, Built;
    BuiltIsUnderway(before, a, build);
    MovingIsGood(before, a, build, 0, Built(before, a, build));
    BeforeIsGood(before, a.asideStamp);
  }

  /**
   A rebuild that lands and does not open, and a second attempt in the same second: the person's
   database, moved aside by the first, is written over by the rebuild the second moves aside.
   */
  lemma OneSecondLosesAFile(d: Disk, first: Attempt, second: Attempt)
    requires (forall n: Name :: n in d ==> n.Live? && d[n].build == 0) && Live(Main) in d
    requires NothingFails(first) && !first.opens && NothingFails(second) && second.asideStamp == first.asideStamp
    ensures var aside := Damaged(first.asideStamp, Main);
            var (c, ok) := Attempted(d, first, 1);
            var c' := Attempted(c.disk, second, 2).0;
            && !ok && aside in c.disk && c.disk[aside] == d[Live(Main)]
            && aside in c'.disk && c'.disk[aside] == File(1, first.written[Main]) != d[Live(Main)]
  {
    hide Attempted, Landed, LiveBefore;
    BareIsClean(d);
    AttemptLands(d, first, 1);
    LandedMain(first, 1, Attempted(d, first, 1).0.disk);
    AsideAfter(d, first, 1, first.asideStamp, Main);
    AsideAfter(Attempted(d, first, 1).0.disk, second, 2, first.asideStamp, Main);
  }

  lemma LandedMain(a: Attempt, build: nat, d: Disk)
    requires Landed(a, build, d)
    ensures Live(Main) in d && Main in a.written && d[Live(Main)] == File(build, a.written[Main])
  {
    assert Ours(a, build, d, Live(Main));
  }

  /** The same as two events of the program's life, whose stamps do not tick. */
  lemma OneSecondInALife(d: Disk, first: Attempt, second: Attempt) returns (events: seq<Event>, i: nat, j: nat)
    requires (forall n: Name :: n in d ==> n.Live? && d[n].build == 0) && Live(Main) in d
    requires NothingFails(first) && !first.opens && NothingFails(second) && second.asideStamp == first.asideStamp
    ensures |events| == 2 && events[0].Try? && events[0].attempt == first && events[1].Try?
    ensures events[1].attempt == second
    ensures !Ticks(events)
    ensures var h := History(d, events);
            i < j < |h| && !Grows(h[i], h[j])
  {
    hide Attempted;
    var c := Attempted(d, first, 1).0;
    var c' := Attempted(c.disk, second, 2).0;
    var one := Try(first, |c.trail|);
    var two := Try(second, |c'.trail|);
    events := [one] + [two];
    assert events[..1] == [one] && [one][..0] == [];
    OneSecondLosesAFile(d, first, second);
    TrailEnds(d, first, 1);
    TrailEnds(c.disk, second, 2);
    var h0: seq<Disk>, v := [d], Visited(d, one, 1);
    assert History(d, []) == h0;
    assert History(d, [one]) == h0 + v;
    var h := History(d, events);
    assert h == (h0 + v) + Visited((h0 + v)[|h0 + v| - 1], two, 2);
    i, j := |h0 + v| - 1, |h| - 1;
    assert h[i] == c.disk && h[j] == c'.disk;
    assert !Grows(h[i], h[j]) by {
      assert !Same(c.disk, c'.disk, Damaged(first.asideStamp, Main));
    }
    SameSecondNoTick(first, second, one, two);
  }

  lemma SameSecondNoTick(first: Attempt, second: Attempt, one: Event, two: Event)
    requires one.Try? && one.attempt == first && two.Try? && two.attempt == second
    requires second.asideStamp == first.asideStamp
    ensures !Ticks([one] + [two])
  {
    var events := [one] + [two];
    assert events[..1] == [one] && [one][..0] == [];
    assert Clock([one]) >= first.asideStamp;
  }

  /** A trail ends on the disk it came to. */
  lemma TrailEnds(before: Disk, a: Attempt, build: nat)
    ensures var c := Attempted(before, a, build).0;
            c.trail != [] && c.trail[|c.trail| - 1] == c.disk
  {
    hide Moved, SwappedIn, Discarded;
    var b := Built(before, a, build);
    var start := Course(b, [before, b], 0);
    if a.verified.Some? {
      var (m, failed) := Moved(start, AsideMoves(a.asideStamp), a.fails);
      MovedEnds(start, AsideMoves(a.asideStamp), a.fails);
      SwappedEnds(m, a);
    }
    DiscardedEnds(Swapping(start, a).0, a.stamp, PARTS, a.fails);
  }

  predicate Ends(c: Course) {
    c.trail != [] && c.trail[|c.trail| - 1] == c.disk
  }

  lemma {:induction false} MovedEnds(c: Course, moves: seq<Move>, fails: nat -> bool)
    requires Ends(c)
    ensures Ends(Moved(c, moves, fails).0)
    decreases |moves|
  {
    if moves != [] {
      var m := moves[0];
      if m.from !in c.disk {
        MovedEnds(c, moves[1..], fails);
      } else if !fails(c.tried) {
        MovedEnds(Now(c, Renamed(c.disk, m.from, m.to)), moves[1..], fails);
      }
    }
  }

  lemma SwappedEnds(c: Course, a: Attempt)
    requires Ends(c)
    ensures Ends(SwappedIn(c, a.stamp, a.fails).0)
  {
    hide Moved;
    MovedEnds(c, SiblingMoves(a.stamp), a.fails);
    MovedEnds(Moved(c, SiblingMoves(a.stamp), a.fails).0, [Move(Rebuilding(a.stamp, Main), Live(Main))], a.fails);
  }

  lemma {:induction false} DiscardedEnds(c: Course, stamp: nat, parts: seq<Part>, fails: nat -> bool)
    requires Ends(c)
    ensures Ends(Discarded(c, stamp, parts, fails))
    decreases |parts|
  {
    if parts != [] {
      var n := Rebuilding(stamp, parts[0]);
      DiscardedEnds(
        if n !in c.disk then c else if fails(c.tried) then Tried(c) else Now(c, c.disk - {n}),
        stamp, parts[1..], fails);
    }
  }

  lemma FinishLeavesAside(m: Course, a: Attempt)
    ensures var (w, raised) := SwappedIn(m, a.stamp, a.fails);
            forall t: nat, p: Part :: Same(m.disk, Discarded(w, a.stamp, PARTS, a.fails).disk, Damaged(t, p))
  {
    hide Moved, Discarded;
    var siblings := Moved(m, SiblingMoves(a.stamp), a.fails).0;
    var (w, raised) := SwappedIn(m, a.stamp, a.fails);
    var d := Discarded(w, a.stamp, PARTS, a.fails).disk;
    forall t: nat, p: Part ensures Same(m.disk, d, Damaged(t, p)) {
      SwapLeavesAside(m, SiblingMoves(a.stamp), a.fails, t, p);
      SwapLeavesAside(siblings, [Move(Rebuilding(a.stamp, Main), Live(Main))], a.fails, t, p);
      DiscardLeavesAside(w, a.stamp, PARTS, a.fails, t, p);
    }
  }

  lemma NothingAsideYet(before: Disk, a: Attempt, build: nat)
    ensures var b := Built(before, a, build);
            AsideSoFar(b, a.asideStamp, 0, b) && forall n: Name :: !n.Rebuilding? ==> Same(before, b, n)
  {
  }
}
