/** The watch session: which build directories are watched, which of them have work to do, and which wait
  for a lock to be let go.

  Everything a turn asks of the filesystem, of locks and of owners is an answer in `Eyes`.  A call that
  fails ends the session, so the turns modelled here are the ones in which none does.
 */
module Watching {
  import opened Common
  import opened Paths
  import opened Records
  import opened Inventory
  import opened Noting
  import opened Journals
  import opened Pools

  datatype Survey = Survey(locks: seq<Path>)

  datatype Found = Found(candidate: Candidate, written: bool)

  datatype Watched = Watched(
    found: Found, repository: Option<Path>, survey: Option<Survey>,
    changed: Changed, whole: bool, resurvey: bool)

  type Watches = map<Path, Watched>

  datatype Holding = Free | Held | Unknown

  datatype Loss = Lost | Kept

  datatype Signal =
    | LostEvents
    | Woken
    | CheckpointAt(id: nat)
    | Repository(path: Path)                  // a change of a repository's references
    | Elsewhere                               // of its other files, or of the program's own state
    | Entry(path: Path, event: Event)
    | ReleasedLock(root: Path)                // a waiter got the lock it waited for

  datatype Eyes = Eyes(
    survey: Path -> Option<Survey>,
    repository: Path -> Option<Path>,
    covers: bool,                             // whether every directory asked for could be watched
    holding: Path -> Holding,                 // what probing a root's locks says
    settled: Path -> bool,                    // processing: whether a root's markers say its owners let it go
    disowned: Path -> bool,                   // references changed: the same, and a new survey confirms it
    letsGo: Path -> bool,                     // sighted: the same of a directory as it was found
    admitted: Path -> Option<Method>,
    tree: Path -> Node,
    seen: Path -> Path -> Node,               // the tree of a root when a change below it is looked up
    bookkeeping: Path -> bool,                // whether a name tells owners or locks
    sighted: map<Path, Found>,                // what walking every configured root finds
    appeared: map<Path, Found>,               // what looking at this turn's new directories finds
    saves: bool)                              // whether the cache can be written

  ghost predicate Sane(eyes: Eyes) {
    && (forall root, path :: Named(eyes.seen(root)(path)))
    && Keyed(eyes.sighted) && Keyed(eyes.appeared)
  }

  // "deps", "incremental", "build", "examples"
  const PROFILE_PARTS: seq<Component> := [
    Normal([100, 101, 112, 115]),
    Normal([105, 110, 99, 114, 101, 109, 101, 110, 116, 97, 108]),
    Normal([98, 117, 105, 108, 100]),
    Normal([101, 120, 97, 109, 112, 108, 101, 115])]

  /** Whether there is work recorded for a root. */
  predicate Pending(watched: Watched) {
    watched.changed != map[] || watched.whole
  }

  /** The nearest watched directory a path is in. */
  function OwnerIn(roots: set<Path>, ancestors: seq<Path>): Option<Path> {
    if ancestors == [] then None
    else if ancestors[0] in roots then Some(ancestors[0])
    else OwnerIn(roots, ancestors[1..])
  }

  lemma {:induction false} OwnerIsWatched(roots: set<Path>, ancestors: seq<Path>)
    ensures OwnerIn(roots, ancestors).Some? ==> OwnerIn(roots, ancestors).value in roots
  {
    if ancestors != [] {
      OwnerIsWatched(roots, ancestors[1..]);
    }
  }

  /** A path's owner is the nearest watched directory at or above it, and it has none only if there is none. */
  lemma {:induction false} OwnerIsNearest(roots: set<Path>, path: Path)
    requires WellFormed(path)
    ensures var owner := OwnerIn(roots, Ancestors(path));
      && (owner.Some? ==> owner.value in roots && owner.value in Ancestors(path))
      && (forall root :: root in roots && root in Ancestors(path) ==> owner.Some? && root <= owner.value)
    decreases |path|
  {
    OwnerIsWatched(roots, Ancestors(path));
    match Parent(path)
    case None =>
      assert Ancestors(path) == [path] && Ancestors(path)[1..] == [];
    case Some(parent) =>
      OwnerIsNearest(roots, parent);
      assert Ancestors(path) == [path] + Ancestors(parent) && Ancestors(path)[1..] == Ancestors(parent);
      forall root | root in Ancestors(path) ensures root <= path {
        AncestorsArePrefixes(path, root);
      }
  }

  // ---------- what holds throughout ----------

  /** Everything the session knows, by root. */
  datatype Mind = Mind(world: Watches, stocked: set<Path>, dirty: set<Path>, waiting: set<Path>, probes: map<Path, Holding>)

  /** What the session knows of one root: how it is watched, whether the pool has its files, whether it is
    to be processed, whether a waiter waits for its lock, and whether its locks could not be probed. */
  datatype Local = Local(watched: Option<Watched>, stocked: bool, dirty: bool, waits: bool, doubted: bool)

  function At(mind: Mind, root: Path): Local {
    Local(if root in mind.world then Some(mind.world[root]) else None,
          root in mind.stocked, root in mind.dirty, root in mind.waiting,
          root in mind.probes && mind.probes[root] == Holding.Unknown)
  }

  /** Only watched roots have files in the pool, and every watched root not to be listed afresh has.  No
    work is without somebody to come back to it: the next settling, a waiter, or, when the locks could not
    be probed, the next change.  A root marked for a new survey is to be processed. */
  ghost predicate Good(root: Path, local: Local) {
    && (local.stocked ==> local.watched.Some?)
    && (local.dirty && local.waits ==> local.watched.Some?)
    && (local.watched.Some? ==>
          && local.watched.value.found.candidate.path == root
          && (!local.watched.value.whole ==> local.stocked)
          && (local.watched.value.resurvey ==> local.dirty)
          && (Pending(local.watched.value) ==> local.dirty || local.waits || local.doubted))
  }

  ghost predicate Minded(mind: Mind) {
    forall root :: Good(root, At(mind, root))
  }

  ghost predicate OnlyAt(before: Mind, after: Mind, root: Path) {
    forall other :: other != root ==> At(after, other) == At(before, other)
  }

  lemma OneChanged(before: Mind, after: Mind, root: Path)
    requires Minded(before) && OnlyAt(before, after, root) && Good(root, At(after, root))
    ensures Minded(after)
  {
    forall other ensures Good(other, At(after, other)) {
      if other != root {
        assert At(after, other) == At(before, other);
      }
    }
  }

  /** While a cache is kept, it has a checkpoint and holds what the pool believes it to hold. */
  ghost predicate Faithful(store: Option<Cache>, checkpoint: Option<nat>, committed: Cache) {
    store.Some? ==> checkpoint.Some? && store.value == committed
  }

  // ---------- what each step does to one root ----------

  function Dropped(local: Local): Local {
    local.(watched := None, stocked := false, dirty := false)
  }

  function Adopted(local: Local, found: Found, processed: bool, eyes: Eyes): Local {
    var root := found.candidate.path;
    local.(watched := Some(Watched(found, eyes.repository(root), eyes.survey(root), map[], !processed, false)),
           dirty := local.dirty || !processed)
  }

  /** A root that is watched as one already listed, with nothing recorded. */
  function AdoptedAs(found: Found, eyes: Eyes): Watched {
    Watched(found, eyes.repository(found.candidate.path), eyes.survey(found.candidate.path), map[], false, false)
  }

  /** Every part of every profile of the root may have changed. */
  function Unsettled(watched: Watched): Watched {
    watched.(changed := UnsureAt(watched.changed, PartsOf(watched.survey)), resurvey := true)
  }

  function TrackLost(local: Local): Local {
    if local.watched.None? || !local.watched.value.found.written then local
    else local.(watched := Some(Unsettled(local.watched.value)), dirty := true)
  }

  function Marked(watched: Watched, root: Path, path: Path, event: Event, eyes: Eyes): Watched {
    var direct := (path == root || Parent(path) == Some(root)) && event != Event.Written;
    watched.(resurvey := watched.resurvey || direct || eyes.bookkeeping(path), changed := watched.changed[path := event])
  }

  function Seen(local: Local, found: Found, loss: Loss, eyes: Eyes): Local {
    match local.watched
    case None => Adopted(local, found, false, eyes)
    case Some(watched) =>
      var renewed := local.(watched := Some(watched.(found := found)));
      if loss == Lost then TrackLost(renewed) else renewed
  }

  /** What processing comes to: a root whose survey fails or that is let go of is dropped, one whose locks
    are held or cannot be probed keeps all its work, and else the work is done. */
  function Processed(local: Local, root: Path, eyes: Eyes): Local {
    var clean := local.(dirty := false);
    match local.watched
    case None => clean
    case Some(watched) =>
      var was := Surveyed(watched, eyes, root);
      if was.survey.None? then Dropped(local)
      else match eyes.holding(root) {
        case Unknown => clean.(watched := Some(was), doubted := true)
        case Held => clean.(watched := Some(was), waits := true, doubted := false)
        case Free =>
          if eyes.settled(root) then Dropped(local).(doubted := false)
          else clean.(watched := Some(was.(changed := map[], whole := false)), stocked := true, doubted := false)
      }
  }

  /** The waiters whose signal is still to be handled. */
  function Releases(signals: seq<Signal>): multiset<Path> {
    if signals == [] then multiset{}
    else Releases(signals[1..]) + if signals[0].ReleasedLock? then multiset{signals[0].root} else multiset{}
  }

  function Latest(signals: seq<Signal>): Option<nat> {
    if signals == [] then None else
      var last := signals[|signals| - 1];
      Later(Latest(signals[..|signals| - 1]), if last.CheckpointAt? then Some(last.id) else None)
  }

  function Later(a: Option<nat>, b: Option<nat>): Option<nat> {
    if a.None? then b else if b.None? then a else Some(Max(a.value, b.value))
  }

  /** A checkpoint no event stream can be resumed from. */
  predicate Resumable(checkpoint: nat) {
    checkpoint != 0 && checkpoint != U64_MAX
  }

  /** Whether nothing comes in the way of writing the cache, if it is to be written. */
  predicate Saves(checkpoint: Option<nat>, reached: Option<nat>, eyes: Eyes) {
    reached.Some? ==> eyes.saves && Resumable(Later(checkpoint, reached).value)
  }

  /** The rows of a cache, as it is read when a session begins. */
  ghost predicate Loaded(cache: Cache, cached: map<Path, CachedStock>) {
    && cache.roots.Keys == cached.Keys
    && (forall member :: member in cache.files ==> member.root in cache.roots)
    && RowsHeld(cache, cached)
  }

  ghost predicate RowsHeld(cache: Cache, cached: map<Path, CachedStock>) {
    forall root :: root in cached ==> cached[root].root == root && Holds(cache, root, Remembered(cached[root], None))
  }

  ghost predicate Keyed(found: map<Path, Found>) {
    forall root :: root in found ==> found[root].candidate.path == root
  }

  function PartsOf(survey: Option<Survey>): set<Path> {
    if survey.None? then {} else
      set i, p | 0 <= i < |survey.value.locks| && Parent(survey.value.locks[i]).Some? && 0 <= p < |PROFILE_PARTS| ::
        Parent(survey.value.locks[i]).value + [PROFILE_PARTS[p]]
  }

  function UnsureAt(changed: Changed, paths: set<Path>): Changed {
    changed + map path | path in paths :: Unsure
  }

  /** What a probe of the locks leaves to do with a root, and what is done. */
  function SeenAt(eyes: Eyes, root: Path, changed: Changed): map<Path, Node> {
    map path | path in changed :: eyes.seen(root)(path)
  }

  function Surveyed(watched: Watched, eyes: Eyes, root: Path): Watched {
    if watched.whole || watched.resurvey || watched.survey.None?
    then watched.(survey := eyes.survey(root), resurvey := false)
    else watched
  }

  function Reowned(was: Local, root: Path, scope: Option<set<Path>>, eyes: Eyes): Local {
    if was.watched.Some? && InScope(was.watched.value, scope) && eyes.disowned(root) then Dropped(was) else was
  }

  function SeenIfIn(was: Local, root: Path, remaining: map<Path, Found>, loss: Loss, eyes: Eyes): Local {
    if root in remaining then Seen(was, remaining[root], loss, eyes) else was
  }

  function Unsighted(was: Local, root: Path, eyes: Eyes): Local {
    if root in eyes.sighted && !eyes.letsGo(root) then was
    else if root in eyes.sighted || was.watched.Some? then Dropped(was)
    else was
  }

  function Resighted(was: Local, root: Path, loss: Loss, eyes: Eyes): Local {
    if root in eyes.sighted && !eyes.letsGo(root) then Seen(was, eyes.sighted[root], loss, eyes)
    else Unsighted(was, root, eyes)
  }

  function Examined(was: Local, root: Path, eyes: Eyes): Local {
    if root !in eyes.appeared || was.watched.Some? then was
    else if eyes.letsGo(root) then Dropped(was)
    else Adopted(was, eyes.appeared[root], false, eyes)
  }

  class Session {
    var world: Watches
    var dirty: set<Path>
    var waiting: set<Path>
    var covered: bool
    var store: Option<Cache>
    var checkpoint: Option<nat>
    const pool: Pool
    ghost var live: multiset<Path>            // the waiter threads not joined yet, by root
    ghost var probes: map<Path, Holding>      // what the last probe of a root's locks said

    ghost function Now(): Mind
      reads this, pool
    {
      Mind(world, pool.stocks.Keys, dirty, waiting, probes)
    }

    /** The pool, and the cache beside it, agree. */
    ghost predicate Stored()
      reads this, pool
    {
      pool.Valid() && pool.waiting == {} && Faithful(store, checkpoint, pool.committed)
    }

    /** What every step keeps.  No root has two waiters. */
    ghost predicate Sound()
      reads this, pool
    {
      Stored() && Minded(Now()) && live == multiset(waiting)
    }

    /** What holds between turns. */
    ghost predicate Rested()
      reads this, pool
    {
      Sound() && forall root :: root in dirty ==> root in world && root in waiting
    }

    /** A session about to start.  `cached` is what was read from the cache; a cache that could not be read,
        or whose event history was lost, was emptied or given up first. */
    constructor (cached: map<Path, CachedStock>, store: Option<Cache>, checkpoint: Option<nat>)
      requires store.Some? ==> checkpoint.Some? && Loaded(store.value, cached)
      requires store.None? ==> cached == map[]
      ensures fresh(pool) && pool.Valid() && pool.stocks == map[] && pool.waiting == cached.Keys
      ensures store.Some? ==> pool.committed == store.value
      ensures this.store == store && this.checkpoint == checkpoint
      ensures world == map[] && dirty == {} && waiting == {} && live == multiset{}
    {
      world, dirty, waiting, covered := map[], {}, {}, true;
      this.store, this.checkpoint := store, checkpoint;
      live, probes := multiset{}, map[];
      pool := new Pool(if store.Some? then store.value else EMPTY_CACHE);
    }

    method Forget(root: Path)
      requires Stored() && Minded(Now())
      modifies this`world, this`dirty, pool
      ensures Stored() && Minded(Now()) && pool.committed == old(pool.committed)
      ensures OnlyAt(old(Now()), Now(), root) && At(Now(), root) == Dropped(old(At(Now(), root)))
      ensures OnlyStockAt(old(pool.stocks), pool.stocks, root) && StockAt(pool.stocks, root) == None
      ensures OnlyFewer(old(pool.stocks), pool.stocks)
    {
      world, dirty := world - {root}, dirty - {root};
      pool.Forget(root);
      OneChanged(old(Now()), Now(), root);
    }

    /** Let go of the settled roots. */
    method Reap(settled: set<Path>)
      requires Stored() && Minded(Now())
      modifies this`world, this`dirty, pool
      ensures Stored() && Minded(Now()) && pool.committed == old(pool.committed)
      ensures forall root :: At(Now(), root) == if root in settled then Dropped(old(At(Now(), root))) else old(At(Now(), root))
      ensures OnlyFewer(old(pool.stocks), pool.stocks)
      decreases |settled|
    {
      if settled != {} {
        var root :| root in settled;
        Forget(root);
        Reap(settled - {root});
      }
    }

    /** Watch a root: as one already listed, or as one to be listed afresh. */
    method Adopt(found: Found, processed: bool, eyes: Eyes)
      requires Minded(Now()) && (processed ==> found.candidate.path in pool.stocks)
      modifies this`world, this`dirty, this`covered
      ensures Minded(Now())
      ensures var root := found.candidate.path;
        OnlyAt(old(Now()), Now(), root) && At(Now(), root) == Adopted(old(At(Now(), root)), found, processed, eyes)
    {
      var root := found.candidate.path;
      covered := covered && eyes.covers;
      if !processed {
        dirty := dirty + {root};
      }
      world := world[root := Watched(found, eyes.repository(root), eyes.survey(root), map[], !processed, false)];
      OneChanged(old(Now()), Now(), root);
    }

    method LostTrack(root: Path)
      requires Minded(Now()) && root in world
      modifies this`world, this`dirty
      ensures Minded(Now())
      ensures OnlyAt(old(Now()), Now(), root) && At(Now(), root) == TrackLost(old(At(Now(), root)))
    {
      assert Good(root, At(Now(), root));
      if world[root].found.written {
        world := world[root := Unsettled(world[root])];
        dirty := dirty + {root};
      }
      OneChanged(old(Now()), Now(), root);
    }

    /** One change inside a watched root. */
    method ChangedWithin(root: Path, path: Path, event: Event, eyes: Eyes)
      requires Minded(Now()) && root in world
      modifies this`world, this`dirty
      ensures Minded(Now())
      ensures OnlyAt(old(Now()), Now(), root)
      ensures At(Now(), root) == old(At(Now(), root)).(
        watched := Some(Marked(old(world)[root], root, path, event, eyes)), dirty := true)
    {
      assert Good(root, At(Now(), root));
      world := world[root := Marked(world[root], root, path, event, eyes)];
      dirty := dirty + {root};
      OneChanged(old(Now()), Now(), root);
    }

    // ---------- processing one root ----------

    /** Probe the locks; a root that is held gets a waiter. */
    method Probe(root: Path, eyes: Eyes)
      requires live == multiset(waiting) && root !in waiting
      modifies this`waiting, this`live, this`probes
      ensures live == multiset(waiting)
      ensures Now() == old(Now()).(
        probes := old(probes)[root := eyes.holding(root)],
        waiting := old(waiting) + if eyes.holding(root) == Held then {root} else {})
    {
      probes := probes[root := eyes.holding(root)];
      if eyes.holding(root) == Held {
        waiting := waiting + {root};
        live := live + multiset{root};
      }
    }

    /** The root is no longer dirty, and is watched as given or not at all. */
    method Settled(root: Path, after: Option<Watched>)
      modifies this`world, this`dirty
      ensures OnlyAt(old(Now()), Now(), root)
      ensures At(Now(), root) == old(At(Now(), root)).(dirty := false, watched := after)
    {
      dirty := dirty - {root};
      world := if after.Some? then world[root := after.value] else world - {root};
    }

    /** Nothing stands in the way of a root's work: hand all of it to the pool. */
    method Work(root: Path, was: Watched, eyes: Eyes)
      requires Stored() && Sane(eyes) && was.found.candidate.path == root && (!was.whole ==> root in pool.stocks)
      modifies pool
      ensures Stored() && pool.committed == old(pool.committed)
      ensures Handled(old(pool.stocks), pool.stocks, root, was, eyes)
    {
      if was.whole {
        StockOne(was.found, eyes);
      } else {
        NoteOne(root, was, eyes);
      }
    }

    method NoteOne(root: Path, was: Watched, eyes: Eyes)
      requires pool.Valid() && Sane(eyes) && !was.whole
      modifies pool
      ensures pool.Valid() && pool.committed == old(pool.committed) && pool.waiting == old(pool.waiting)
      ensures Handled(old(pool.stocks), pool.stocks, root, was, eyes)
    {
      var _ := pool.Note(root, was.changed, SeenAt(eyes, root, was.changed));
    }

    /** The pool's part of letting a root go, or of doing its work. */
    method Attend(root: Path, was: Watched, eyes: Eyes)
      requires Stored() && Sane(eyes) && was.found.candidate.path == root && (!was.whole ==> root in pool.stocks)
      modifies pool
      ensures Stored() && pool.committed == old(pool.committed)
      ensures forall other :: other != root ==> (other in pool.stocks <==> other in old(pool.stocks))
      ensures root in pool.stocks <==> !eyes.settled(root)
      ensures OnlyStockAt(old(pool.stocks), pool.stocks, root)
      ensures StockAt(pool.stocks, root) ==
        if eyes.settled(root) then None else TakenIn(old(StockAt(pool.stocks, root)), root, was, eyes)
    {
      if eyes.settled(root) {
        pool.Forget(root);
      } else {
        Work(root, was, eyes);
      }
      assert StockAt(pool.stocks, root).Some? <==> !eyes.settled(root);
      forall other | other != root ensures other in pool.stocks <==> other in old(pool.stocks) {
        assert StockAt(pool.stocks, other) == old(StockAt(pool.stocks, other));
      }
    }

    /** The session's part of processing a root whose survey succeeded. */
    method TakeUp(root: Path, was: Watched, eyes: Eyes)
      requires live == multiset(waiting) && root !in waiting
      modifies this`world, this`dirty, this`waiting, this`live, this`probes
      ensures live == multiset(waiting)
      ensures OnlyAt(old(Now()), Now(), root)
      ensures At(Now(), root) ==
        old(At(Now(), root)).(
          dirty := false, doubted := eyes.holding(root) == Holding.Unknown, waits := eyes.holding(root) == Held,
          watched := if eyes.holding(root) != Holding.Free then Some(was)
                     else if eyes.settled(root) then None
                     else Some(was.(changed := map[], whole := false)))
    {
      Probe(root, eyes);
      ProbedAt(old(Now()), Now(), root, eyes.holding(root));
      label probed:
      Settled(root,
        if eyes.holding(root) != Holding.Free then Some(was)
        else if eyes.settled(root) then None
        else Some(was.(changed := map[], whole := false)));
    }

    method ProcessSurveyed(root: Path, was: Watched, eyes: Eyes)
      requires Stored() && live == multiset(waiting) && Sane(eyes) && root in world && root !in waiting
      requires Good(root, At(Now(), root))
      requires was == Surveyed(world[root], eyes, root) && was.survey.Some?
      modifies this`world, this`dirty, this`waiting, this`live, this`probes, pool
      ensures Stored() && live == multiset(waiting) && pool.committed == old(pool.committed)
      ensures ProcessedTo(old(Now()), Now(), old(pool.stocks), pool.stocks, root, eyes)
    {
      TakeUp(root, was, eyes);
      label taken:
      if eyes.holding(root) == Holding.Free {
        Attend(root, was, eyes);
        assert OnlyAt(old@taken(Now()), Now(), root);
      }
    }

    method ProcessUnreadable(root: Path, eyes: Eyes)
      requires Stored() && Minded(Now()) && Sane(eyes) && root in world
      requires Surveyed(world[root], eyes, root).survey.None?
      modifies this`world, this`dirty, pool
      ensures Stored() && pool.committed == old(pool.committed)
      ensures ProcessedTo(old(Now()), Now(), old(pool.stocks), pool.stocks, root, eyes)
    {
      Forget(root);
    }

    method ProcessUnwatched(root: Path, eyes: Eyes)
      requires root !in world && Sane(eyes)
      modifies this`world, this`dirty
      ensures ProcessedTo(old(Now()), Now(), old(pool.stocks), pool.stocks, root, eyes)
    {
      Settled(root, None);
    }

    /** `process`: do what is recorded for a root, unless its locks are held or cannot be probed. */
    method Process(root: Path, eyes: Eyes)
      requires Sound() && Sane(eyes) && root !in waiting
      modifies this`world, this`dirty, this`waiting, this`covered, this`live, this`probes, pool
      ensures Stored() && live == multiset(waiting) && pool.committed == old(pool.committed)
      ensures ProcessedTo(old(Now()), Now(), old(pool.stocks), pool.stocks, root, eyes)
      ensures root in old(world) && (old(world)[root].whole || old(world)[root].resurvey || old(world)[root].survey.None?) ==>
        if eyes.survey(root).None? then root !in world && root !in pool.stocks
        else root in world ==> world[root].survey == eyes.survey(root) && !world[root].resurvey
      ensures root in old(world) && root in world
              && !old(world)[root].whole && !old(world)[root].resurvey && old(world)[root].survey.Some? ==>
        world[root].survey == old(world)[root].survey && !world[root].resurvey
    {
      assert Good(root, At(Now(), root));
      if root !in world {
        ProcessUnwatched(root, eyes);
      } else {
        var was := Surveyed(world[root], eyes, root);
        covered := covered && (was == world[root] || eyes.covers);
        if was.survey.None? {
          ProcessUnreadable(root, eyes);
        } else {
          ProcessSurveyed(root, was, eyes);
        }
      }
      SurveysWhenDue(old(Now()), Now(), old(pool.stocks), pool.stocks, root, eyes);
    }

    /** Processing keeps everything every step keeps. */
    method ProcessOne(root: Path, eyes: Eyes)
      requires Sound() && Sane(eyes) && root !in waiting
      modifies this`world, this`dirty, this`waiting, this`covered, this`live, this`probes, pool
      ensures Sound()
      ensures dirty == old(dirty) - {root} && old(waiting) <= waiting <= old(waiting) + {root}
      ensures ProcessedTo(old(Now()), Now(), old(pool.stocks), pool.stocks, root, eyes)
    {
      Process(root, eyes);
      ProcessedKeeps(old(Now()), Now(), root, eyes);
    }

    /** Process the given roots, each once. */
    method ProcessAll(ready: set<Path>, eyes: Eyes)
      requires Sound() && Sane(eyes) && ready !! waiting
      modifies this`world, this`dirty, this`waiting, this`covered, this`live, this`probes, pool
      ensures Sound()
      ensures dirty == old(dirty) - ready && old(waiting) <= waiting <= old(waiting) + ready
      ensures AllProcessedTo(old(Now()), Now(), old(pool.stocks), pool.stocks, ready, eyes)
      decreases |ready|
    {
      if ready != {} {
        var root :| root in ready;
        ghost var before, had := Now(), pool.stocks;
        ProcessOne(root, eyes);
        ghost var middle, halfway := Now(), pool.stocks;
        OneTakenOut(before, middle, root, ready);
        ProcessAll(ready - {root}, eyes);
        ghost var after, has := Now(), pool.stocks;
        OneThenOthers(before, middle, after, root, ready);
        OneThenRest(before, middle, after, had, halfway, has, root, ready, eyes);
      }
    }

    /** `settle`: process every dirty root nobody waits for, and nothing else. */
    method Settle(eyes: Eyes)
      requires Sound() && Sane(eyes)
      modifies this`world, this`dirty, this`waiting, this`covered, this`live, this`probes, pool
      ensures Rested()
      ensures AllProcessedTo(old(Now()), Now(), old(pool.stocks), pool.stocks, old(dirty) - old(waiting), eyes)
    {
      ProcessAll(dirty - waiting, eyes);
      forall root | root in dirty ensures root in world && root in waiting {
        assert Good(root, At(Now(), root));
      }
    }

    // ---------- the cache ----------

    /** `persist`: write what the journal holds to the cache, or give the cache up. */
    method Persist(eyes: Eyes)
      requires Stored()
      modifies this`store, this`checkpoint, pool
      ensures Stored() && pool.stocks == old(pool.stocks)
      ensures store.Some? ==> store.value == View(pool.stocks)
      ensures store.Some? <==>
        old(store).Some? && eyes.saves && old(checkpoint).value !in {0, U64_MAX}
      ensures checkpoint == if old(store).Some? && store.None? then None else old(checkpoint)
    {
      var changes := pool.Changes();
      if store.None? || checkpoint.None? {
        return;
      }
      if eyes.saves && Resumable(checkpoint.value) {
        store := Some(Replayed(store.value, changes));
      } else {
        store, checkpoint := None, None;
      }
    }

    /** `finish_checkpoint`: having heard everything up to a point, write the cache as of that point. */
    method FinishCheckpoint(reached: Option<nat>, eyes: Eyes)
      requires Stored()
      modifies this`store, this`checkpoint, pool
      ensures Stored() && pool.stocks == old(pool.stocks)
      ensures reached.Some? && store.Some? ==>
        store.value == View(pool.stocks) && checkpoint == Later(old(checkpoint), reached)
      ensures reached.None? ==> store == old(store) && checkpoint == old(checkpoint)
      ensures store.Some? <==> old(store).Some? && Saves(old(checkpoint), reached, eyes)
    {
      if reached.None? {
        return;
      }
      if store.Some? {
        checkpoint := Later(checkpoint, reached);
      }
      Persist(eyes);
    }

    /** `abandon_history`: events were lost, so no later checkpoint could be trusted. */
    method AbandonHistory()
      requires Stored()
      modifies this`store, this`checkpoint, pool
      ensures Stored() && pool.stocks == old(pool.stocks) && store.None? && checkpoint.None?
    {
      store, checkpoint := None, None;
      var _ := pool.Changes();
    }

    // ---------- looking again ----------

    /** `reown`: let go of the roots in scope whose owners have. */
    method Reown(scope: Option<set<Path>>, eyes: Eyes)
      requires Stored() && Minded(Now())
      modifies this`world, this`dirty, pool
      ensures Stored() && Minded(Now()) && pool.committed == old(pool.committed)
      ensures forall root :: At(Now(), root) == Reowned(old(At(Now(), root)), root, scope, eyes)
      ensures OnlyFewer(old(pool.stocks), pool.stocks)
    {
      Reap(set root | root in world && InScope(world[root], scope) && eyes.disowned(root));
    }

    /** One directory that is sighted and not let go of. */
    method Sight(found: Found, loss: Loss, eyes: Eyes)
      requires Minded(Now())
      modifies this`world, this`dirty, this`covered
      ensures Minded(Now())
      ensures var root := found.candidate.path;
        OnlyAt(old(Now()), Now(), root) && At(Now(), root) == Seen(old(At(Now(), root)), found, loss, eyes)
    {
      var root := found.candidate.path;
      if root in world {
        Renew(root, found);
        if loss == Lost {
          LostTrack(root);
        }
      } else {
        Adopt(found, false, eyes);
      }
    }

    method Renew(root: Path, found: Found)
      requires Minded(Now()) && root in world && found.candidate.path == root
      modifies this`world
      ensures Minded(Now())
      ensures OnlyAt(old(Now()), Now(), root)
      ensures At(Now(), root) == old(At(Now(), root)).(watched := Some(old(world)[root].(found := found)))
    {
      assert Good(root, At(Now(), root));
      world := world[root := world[root].(found := found)];
      OneChanged(old(Now()), Now(), root);
    }

    method SightAll(remaining: map<Path, Found>, loss: Loss, eyes: Eyes)
      requires Minded(Now())
      requires Keyed(remaining)
      modifies this`world, this`dirty, this`covered
      ensures Minded(Now())
      ensures forall root :: At(Now(), root) == SeenIfIn(old(At(Now(), root)), root, remaining, loss, eyes)
      decreases |remaining|
    {
      if remaining != map[] {
        var root :| root in remaining;
        SightAll(remaining - {root}, loss, eyes);
        Sight(remaining[root], loss, eyes);
      }
    }

    /** Forget what vanished, and let go of what settled. */
    method ForgetUnsighted(eyes: Eyes)
      requires Stored() && Minded(Now())
      modifies this`world, this`dirty, pool
      ensures Stored() && Minded(Now()) && pool.committed == old(pool.committed)
      ensures forall root :: At(Now(), root) == Unsighted(old(At(Now(), root)), root, eyes)
      ensures OnlyFewer(old(pool.stocks), pool.stocks)
    {
      Reap(world.Keys - eyes.sighted.Keys);
      Reap(set root | root in eyes.sighted && eyes.letsGo(root));
    }

    /** `resight`: look at everything again; drop what vanished or was let go of and adopt what is new. */
    method Resight(loss: Loss, eyes: Eyes)
      requires Stored() && Minded(Now()) && Sane(eyes)
      modifies this`world, this`dirty, this`covered, pool
      ensures Stored() && Minded(Now()) && pool.committed == old(pool.committed)
      ensures forall root :: At(Now(), root) == Resighted(old(At(Now(), root)), root, loss, eyes)
      ensures OnlyFewer(old(pool.stocks), pool.stocks)
    {
      covered := covered && eyes.covers;
      ForgetUnsighted(eyes);
      SightAll(map root | root in eyes.sighted && !eyes.letsGo(root) :: eyes.sighted[root], loss, eyes);
    }

    /** `examine`: adopt the directories that appeared, unless they are let go of already. */
    method Examine(eyes: Eyes)
      requires Stored() && Minded(Now()) && Sane(eyes)
      modifies this`world, this`dirty, this`covered, pool
      ensures Stored() && Minded(Now()) && pool.committed == old(pool.committed)
      ensures forall root :: At(Now(), root) == Examined(old(At(Now(), root)), root, eyes)
      ensures OnlyFewer(old(pool.stocks), pool.stocks)
    {
      var novel := map root | root in eyes.appeared && root !in world :: eyes.appeared[root];
      covered := covered && eyes.covers;
      Reap(set root | root in novel && eyes.letsGo(root));
      SightAll(map root | root in novel && !eyes.letsGo(root) :: novel[root], Kept, eyes);
    }

    // ---------- one turn ----------

    method HandleEntry(path: Path, event: Event, eyes: Eyes)
      requires Stored() && Minded(Now())
      modifies this`world, this`dirty, pool
      ensures Stored() && Minded(Now()) && pool.committed == old(pool.committed)
      ensures Now() == EntryIn(old(Now()), path, event, eyes) && OnlyFewer(old(pool.stocks), pool.stocks)
    {
      var owner := OwnerIn(world.Keys, Ancestors(path));
      OwnerIsWatched(world.Keys, Ancestors(path));
      if owner.Some? {
        if event == Event.Vanished && owner.value == path {
          Forget(path);
          SameEverywhere(Now(), ForgottenIn(old(Now()), path));
        } else if world[owner.value].found.written {
          ChangedWithin(owner.value, path, event, eyes);
          SameMarks(old(Now()), Now(), owner.value, path, event, eyes);
        }
      }
    }

    /** A waiter got its lock: the root is dirty again, even one that is no longer watched. */
    method HandleReleased(root: Path)
      requires Minded(Now()) && live == multiset(waiting) && root in live
      modifies this`dirty, this`waiting, this`live
      ensures Minded(Now()) && live == multiset(waiting)
      ensures live == old(live) - multiset{root}
      ensures Now() == old(Now()).(waiting := old(waiting) - {root}, dirty := old(dirty) + {root})
    {
      assert Good(root, At(Now(), root));
      waiting := waiting - {root};
      live := live - multiset{root};
      dirty := dirty + {root};
      OneChanged(old(Now()), Now(), root);
    }

    /** One signal. */
    method Handle(signal: Signal, eyes: Eyes)
      requires Sound()
      requires signal.ReleasedLock? ==> signal.root in live
      modifies this`world, this`dirty, this`waiting, this`live, pool
      ensures Sound() && pool.committed == old(pool.committed)
      ensures live == old(live) - if signal.ReleasedLock? then multiset{signal.root} else multiset{}
      ensures Now() == HandledIn(old(Now()), signal, eyes) && OnlyFewer(old(pool.stocks), pool.stocks)
    {
      if signal.Entry? {
        HandleEntry(signal.path, signal.event, eyes);
      } else if signal.ReleasedLock? {
        HandleReleased(signal.root);
      }
    }

    /** What the signals of one turn say, taken in one after another. */
    method HandleAll(signals: seq<Signal>, eyes: Eyes)
      requires Sound() && Releases(signals) <= live
      modifies this`world, this`dirty, this`waiting, this`live, pool
      ensures Sound() && pool.committed == old(pool.committed)
      ensures Now() == AllHandledIn(old(Now()), signals, eyes) && OnlyFewer(old(pool.stocks), pool.stocks)
      decreases |signals|
    {
      if signals != [] {
        Handle(signals[0], eyes);
        HandleAll(signals[1..], eyes);
      }
    }

    /** What is done about everything that was heard. */
    method React(heard: Heard, eyes: Eyes)
      requires Stored() && Minded(Now()) && Sane(eyes) && heard.covered == covered
      modifies this`world, this`dirty, this`covered, this`store, this`checkpoint, pool
      ensures Stored() && Minded(Now()) && OnlyFewer(old(pool.stocks), pool.stocks)
      ensures forall root :: At(Now(), root) == Reacted(old(At(Now(), root)), root, heard, eyes)
      ensures if heard.lost then store.None? else store == old(store) && checkpoint == old(checkpoint)
    {
      if heard.lost {
        AbandonHistory();
        Resight(Lost, eyes);
      } else {
        Attune(heard, eyes);
        Examine(eyes);
      }
    }

    /** What is done about hooks and about repositories whose references changed. */
    method Attune(heard: Heard, eyes: Eyes)
      requires Stored() && Minded(Now()) && Sane(eyes) && heard.covered == covered
      modifies this`world, this`dirty, this`covered, pool
      ensures Stored() && Minded(Now()) && OnlyFewer(old(pool.stocks), pool.stocks)
      ensures forall root :: At(Now(), root) == Attuned(old(At(Now(), root)), root, heard, eyes)
    {
      if heard.hooked.Some? && !covered {
        Resight(Kept, eyes);
      } else if heard.hooked.Some? {
        Reown(if heard.hooked.value == {} then None else Some(heard.refs + heard.hooked.value), eyes);
      } else if heard.refs != {} {
        Reown(Some(heard.refs), eyes);
      }
    }

    method Conclude(reached: Option<nat>, eyes: Eyes)
      requires Sound() && Sane(eyes)
      modifies this`world, this`dirty, this`waiting, this`covered, this`store, this`checkpoint, this`live, this`probes, pool
      ensures Rested()
      ensures AllProcessedTo(old(Now()), Now(), old(pool.stocks), pool.stocks, old(dirty) - old(waiting), eyes)
      ensures reached.Some? && store.Some? ==>
        store.value == View(pool.stocks) && checkpoint == Later(old(checkpoint), reached)
      ensures store.Some? <==> old(store).Some? && Saves(old(checkpoint), reached, eyes)
    {
      Settle(eyes);
      FinishCheckpoint(reached, eyes);
    }

    /** `turn`: take in a batch of signals and do what they call for. */
    method Turn(signals: seq<Signal>, hooked: Option<set<Path>>, eyes: Eyes)
      requires Rested() && Sane(eyes)
      requires Releases(signals) <= live
      modifies this`world, this`dirty, this`waiting, this`covered, this`store, this`checkpoint, this`live, this`probes, pool
      ensures Rested()
      ensures var heard := Heard(LostEvents in signals, Refs(signals), hooked, old(covered) && eyes.covers);
        TurnedTo(AllHandledIn(old(Now()), signals, eyes), Now(), old(pool.stocks), pool.stocks, heard, eyes)
      ensures Latest(signals).Some? && store.Some? ==>
        store.value == View(pool.stocks) && checkpoint == Later(old(checkpoint), Latest(signals))
      ensures store.Some? <==>
        old(store).Some? && LostEvents !in signals && Saves(old(checkpoint), Latest(signals), eyes)
      ensures forall root :: root in world && world[root].resurvey ==> root in waiting
    {
      HandleAll(signals, eyes);
      label handled:
      covered := covered && eyes.covers;
      var heard := Heard(LostEvents in signals, Refs(signals), hooked, covered);
      React(heard, eyes);
      label reacted:
      Conclude(Latest(signals), eyes);
      TurnComposes(old@handled(Now()), old@reacted(Now()), Now(),
                   old(pool.stocks), old@reacted(pool.stocks), pool.stocks, heard, eyes);
      forall root | root in world && world[root].resurvey ensures root in waiting {
        assert Good(root, At(Now(), root));
      }
    }

    // ---------- the start ----------

    method RestoreOne(candidate: Candidate, cached: CachedStock, eyes: Eyes)
      requires pool.Valid() && cached.root == candidate.path && cached.root in pool.waiting
      requires Holds(pool.committed, cached.root, Remembered(cached, None))
      modifies pool
      ensures pool.Valid() && pool.committed == old(pool.committed)
      ensures OnlyStockAt(old(pool.stocks), pool.stocks, candidate.path)
      ensures StockAt(pool.stocks, candidate.path) == Restored(candidate, cached, eyes)
      ensures pool.waiting == if Restored(candidate, cached, eyes).None? then old(pool.waiting)
                              else old(pool.waiting) - {candidate.path}
    {
      assert JournaledAt(pool.stocks, pool.committed, pool.journal, pool.waiting, candidate.path);
      var _ := pool.Restore(candidate, cached, eyes.admitted(candidate.path));
    }

    method StockOne(found: Found, eyes: Eyes)
      requires pool.Valid()
      modifies pool
      ensures pool.Valid() && pool.committed == old(pool.committed)
      ensures OnlyStockAt(old(pool.stocks), pool.stocks, found.candidate.path)
      ensures StockAt(pool.stocks, found.candidate.path) == Some(ListedAfresh(found, eyes))
      ensures pool.waiting == old(pool.waiting) - {found.candidate.path}
    {
      var _ := pool.Stock(found.candidate, eyes.admitted(found.candidate.path), eyes.tree(found.candidate.path));
    }

    method ForgetOne(root: Path)
      requires pool.Valid()
      modifies pool
      ensures pool.Valid() && pool.committed == old(pool.committed)
      ensures OnlyStockAt(old(pool.stocks), pool.stocks, root) && StockAt(pool.stocks, root) == None
      ensures pool.waiting == old(pool.waiting) - {root}
    {
      pool.Forget(root);
    }

    /** Take over from the cache what can be taken over. */
    method RestoreAll(todo: set<Path>, remaining: map<Path, Found>, cached: map<Path, CachedStock>, eyes: Eyes)
      requires pool.Valid() && todo <= remaining.Keys && todo <= cached.Keys && todo <= pool.waiting
      requires Keyed(remaining) && RowsHeld(pool.committed, cached)
      modifies pool
      ensures pool.Valid() && pool.committed == old(pool.committed)
      ensures forall root :: StockAt(pool.stocks, root) ==
                             (if root in todo then TakenOver(root, remaining, cached, eyes) else old(StockAt(pool.stocks, root)))
      ensures forall root :: root in pool.waiting <==>
                             root in old(pool.waiting) && (root in todo ==> TakenOver(root, remaining, cached, eyes).None?)
      decreases |todo|
    {
      if todo != {} {
        var root :| root in todo;
        RestoreAll(todo - {root}, remaining, cached, eyes);
        RestoreOne(remaining[root].candidate, cached[root], eyes);
      }
    }

    method StockAll(inventoried: map<Path, Found>, eyes: Eyes)
      requires pool.Valid()
      requires Keyed(inventoried)
      modifies pool
      ensures pool.Valid() && pool.committed == old(pool.committed)
      ensures AllStocked(old(pool.stocks), pool.stocks, inventoried, eyes)
      ensures pool.waiting == old(pool.waiting) - inventoried.Keys
      decreases |inventoried|
    {
      if inventoried != map[] {
        var root :| root in inventoried;
        StockAll(inventoried - {root}, eyes);
        label others:
        StockOne(inventoried[root], eyes);
        OthersThenOne(old(pool.stocks), old@others(pool.stocks), pool.stocks, inventoried, root, eyes);
      }
    }

    /** The cached roots that are gone are cleared from the cache. */
    method ForgetAll(gone: set<Path>)
      requires pool.Valid()
      modifies pool
      ensures pool.Valid() && pool.committed == old(pool.committed)
      ensures forall root :: StockAt(pool.stocks, root) == if root in gone then None else old(StockAt(pool.stocks, root))
      ensures pool.waiting == old(pool.waiting) - gone
      decreases |gone|
    {
      if gone != {} {
        var root :| root in gone;
        ForgetOne(root);
        ForgetAll(gone - {root});
      }
    }

    /** The pool as it is when the start has looked at every root. */
    method Fill(remaining: map<Path, Found>, cached: map<Path, CachedStock>, eyes: Eyes)
      requires pool.Valid() && pool.stocks == map[] && pool.waiting == cached.Keys
      requires Keyed(remaining) && RowsHeld(pool.committed, cached)
      modifies pool
      ensures pool.Valid() && pool.committed == old(pool.committed) && pool.waiting == {}
      ensures forall root :: StockAt(pool.stocks, root) == Filled(root, remaining, cached, eyes)
    {
      var shared := remaining.Keys * cached.Keys;
      RestoreAll(shared, remaining, cached, eyes);
      label restored:
      ForgetAll(cached.Keys - remaining.Keys);
      label forgotten:
      WaitingIsNotTakenOver(old@restored(pool.waiting), remaining, cached, eyes);
      StockAll(NotTakenOver(remaining, cached, eyes), eyes);
      FillComposes(old@restored(pool.stocks), old@forgotten(pool.stocks), pool.stocks, remaining, cached, eyes);
    }

    method AdoptAll(found: map<Path, Found>, eyes: Eyes)
      requires world == map[] && dirty == {} && Keyed(found)
      modifies this`world, this`dirty, this`covered
      ensures dirty == {} && world.Keys == found.Keys
      ensures forall root :: root in world ==> world[root] == AdoptedAs(found[root], eyes)
    {
      var todo := found.Keys;
      while todo != {}
        invariant todo <= found.Keys && dirty == {} && world.Keys == found.Keys - todo
        invariant forall root :: root in world ==> world[root] == AdoptedAs(found[root], eyes)
      {
        var root :| root in todo;
        covered := covered && eyes.covers;
        world := world[root :=
          Watched(found[root], eyes.repository(root), eyes.survey(root), map[], false, false)];
        todo := todo - {root};
      }
    }

    /** Everything the start does before the cache is written. */
    method TakeStock(cached: map<Path, CachedStock>, eyes: Eyes)
      requires pool.Valid() && pool.stocks == map[] && pool.waiting == cached.Keys
      requires world == map[] && dirty == {} && Sane(eyes)
      requires RowsHeld(pool.committed, cached)
      modifies this`world, this`dirty, this`covered, pool
      ensures pool.Valid() && pool.waiting == {} && pool.committed == old(pool.committed)
      ensures Minded(Now()) && dirty == {} && world.Keys == Staying(eyes).Keys
      ensures forall root :: root in world ==> world[root] == AdoptedAs(Staying(eyes)[root], eyes)
      ensures forall root :: StockAt(pool.stocks, root) == Filled(root, Staying(eyes), cached, eyes)
    {
      covered := covered && eyes.covers;
      Fill(Staying(eyes), cached, eyes);
      FilledHasAll(pool.stocks, cached, eyes);
      AdoptAll(Staying(eyes), eyes);
      StartedIsMinded(Now(), Staying(eyes), eyes);
    }

    /** `start`: watch every build directory that is not let go of, with its files from the cache where the
        directory is still the same one, and from a fresh listing elsewhere. */
    method Start(cached: map<Path, CachedStock>, eyes: Eyes)
      requires pool.Valid() && pool.stocks == map[] && pool.waiting == cached.Keys
      requires world == map[] && dirty == {} && waiting == {} && live == multiset{}
      requires Faithful(store, checkpoint, pool.committed) && Sane(eyes)
      requires RowsHeld(pool.committed, cached)
      modifies this`world, this`dirty, this`covered, this`store, this`checkpoint, pool
      ensures Rested() && dirty == {} && world.Keys == Staying(eyes).Keys
      ensures forall root :: root in world <==> root in eyes.sighted && !eyes.letsGo(root)
      ensures forall root :: root in world ==>
        world[root] == Watched(eyes.sighted[root], eyes.repository(root), eyes.survey(root), map[], false, false)
      ensures forall root :: StockAt(pool.stocks, root) == Filled(root, Staying(eyes), cached, eyes)
      ensures store.Some? ==> store.value == View(pool.stocks) && checkpoint == old(checkpoint)
      ensures store.Some? <==> old(store).Some? && eyes.saves && Resumable(old(checkpoint).value)
    {
      TakeStock(cached, eyes);
      Persist(eyes);
    }
  }

  lemma WaitingIsNotTakenOver(waiting: set<Path>, remaining: map<Path, Found>, cached: map<Path, CachedStock>, eyes: Eyes)
    requires forall root :: root in waiting ==>
      root in cached && (root in remaining ==> TakenOver(root, remaining, cached, eyes).None?)
    ensures waiting - (cached.Keys - remaining.Keys) - NotTakenOver(remaining, cached, eyes).Keys == {}
  {}

  ghost predicate StockedAt(had: map<Path, Stock>, has: map<Path, Stock>, inventoried: map<Path, Found>, eyes: Eyes, root: Path) {
    StockAt(has, root) ==
    if root in inventoried then Some(ListedAfresh(inventoried[root], eyes)) else StockAt(had, root)
  }

  /** Exactly these roots are stocked, each from its own walk. */
  ghost predicate AllStocked(had: map<Path, Stock>, has: map<Path, Stock>, inventoried: map<Path, Found>, eyes: Eyes) {
    forall root :: StockedAt(had, has, inventoried, eyes, root)
  }

  lemma OthersThenOne(had: map<Path, Stock>, halfway: map<Path, Stock>, has: map<Path, Stock>,
                      inventoried: map<Path, Found>, root: Path, eyes: Eyes)
    requires root in inventoried && AllStocked(had, halfway, inventoried - {root}, eyes)
    requires OnlyStockAt(halfway, has, root) && StockAt(has, root) == Some(ListedAfresh(inventoried[root], eyes))
    ensures AllStocked(had, has, inventoried, eyes)
  {
    forall other ensures StockedAt(had, has, inventoried, eyes, other) {
      assert StockedAt(had, halfway, inventoried - {root}, eyes, other);
    }
  }

  lemma FillComposes(restored: map<Path, Stock>, forgotten: map<Path, Stock>, stocked: map<Path, Stock>,
                     remaining: map<Path, Found>, cached: map<Path, CachedStock>, eyes: Eyes)
    requires forall root :: StockAt(restored, root) ==
                            if root in remaining.Keys * cached.Keys then TakenOver(root, remaining, cached, eyes) else None
    requires forall root :: StockAt(forgotten, root) ==
                            if root in cached.Keys - remaining.Keys then None else StockAt(restored, root)
    requires AllStocked(forgotten, stocked, NotTakenOver(remaining, cached, eyes), eyes)
    ensures forall root :: StockAt(stocked, root) == Filled(root, remaining, cached, eyes)
  {
    forall root ensures StockAt(stocked, root) == Filled(root, remaining, cached, eyes) {
      assert StockedAt(forgotten, stocked, NotTakenOver(remaining, cached, eyes), eyes, root);
      assert StockAt(forgotten, root) == if root in cached.Keys - remaining.Keys then None else StockAt(restored, root);
    }
  }

  lemma FilledHasAll(stocks: map<Path, Stock>, cached: map<Path, CachedStock>, eyes: Eyes)
    requires forall root :: StockAt(stocks, root) == Filled(root, Staying(eyes), cached, eyes)
    ensures stocks.Keys == Staying(eyes).Keys
  {
    forall root ensures root in stocks <==> root in Staying(eyes) {
      assert StockAt(stocks, root).Some? <==> root in stocks;
    }
  }

  lemma StartedIsMinded(mind: Mind, found: map<Path, Found>, eyes: Eyes)
    requires Keyed(found) && mind.world.Keys == found.Keys == mind.stocked && mind.dirty == {}
    requires forall root :: root in mind.world ==> mind.world[root] == AdoptedAs(found[root], eyes)
    ensures Minded(mind)
  {
    forall root ensures Good(root, At(mind, root)) {
    }
  }

  function NotTakenOver(remaining: map<Path, Found>, cached: map<Path, CachedStock>, eyes: Eyes): map<Path, Found> {
    map root | root in remaining && TakenOver(root, remaining, cached, eyes).None? :: remaining[root]
  }

  ghost predicate OnlyStockAt(before: map<Path, Stock>, after: map<Path, Stock>, root: Path) {
    forall other :: other != root ==> StockAt(after, other) == StockAt(before, other)
  }

  function StockAt(stocks: map<Path, Stock>, root: Path): Option<Stock> {
    if root in stocks then Some(stocks[root]) else None
  }

  function Staying(eyes: Eyes): map<Path, Found> {
    map root | root in eyes.sighted && !eyes.letsGo(root) :: eyes.sighted[root]
  }

  /** What restoring makes of a cached root: nothing if the directory was replaced since. */
  function Restored(candidate: Candidate, cached: CachedStock, eyes: Eyes): Option<Stock> {
    var admitted := eyes.admitted(candidate.path);
    if cached.root != candidate.path || cached.identity != candidate.identity then None
    else if admitted.Some? then Some(Remembered(cached, admitted))
    else Some(Journals.Stock(candidate, Rejected, None, map[]))
  }

  function TakenOver(root: Path, remaining: map<Path, Found>, cached: map<Path, CachedStock>, eyes: Eyes): Option<Stock> {
    if root !in remaining || root !in cached then None
    else Restored(remaining[root].candidate, cached[root], eyes)
  }

  ghost function ListedAfresh(found: Found, eyes: Eyes): Stock {
    Listing(found.candidate, eyes.admitted(found.candidate.path), eyes.tree(found.candidate.path))
  }

  ghost function Filled(root: Path, remaining: map<Path, Found>, cached: map<Path, CachedStock>, eyes: Eyes): Option<Stock> {
    if root !in remaining then None
    else match TakenOver(root, remaining, cached, eyes)
         case Some(stock) => Some(stock)
         case None => Some(ListedAfresh(remaining[root], eyes))
  }

  function Refs(signals: seq<Signal>): set<Path> {
    set signal | signal in signals && signal.Repository? :: signal.path
  }

  function ForgottenIn(mind: Mind, root: Path): Mind {
    mind.(world := mind.world - {root}, stocked := mind.stocked - {root}, dirty := mind.dirty - {root})
  }

  /** A change belongs to the nearest watched root: it drops the root that vanished, and otherwise marks a
    root that is written to. */
  function EntryIn(mind: Mind, path: Path, event: Event, eyes: Eyes): Mind {
    match OwnerIn(mind.world.Keys, Ancestors(path))
    case None => mind
    case Some(root) =>
      OwnerIsWatched(mind.world.Keys, Ancestors(path));
      if event == Event.Vanished && root == path then ForgottenIn(mind, root)
      else if !mind.world[root].found.written then mind
      else MarkedIn(mind, root, path, event, eyes)
  }

  function MarkedIn(mind: Mind, root: Path, path: Path, event: Event, eyes: Eyes): Mind
    requires root in mind.world
  {
    mind.(world := mind.world[root := Marked(mind.world[root], root, path, event, eyes)], dirty := mind.dirty + {root})
  }

  function HandledIn(mind: Mind, signal: Signal, eyes: Eyes): Mind {
    match signal
    case Entry(path, event) => EntryIn(mind, path, event, eyes)
    case ReleasedLock(root) => mind.(waiting := mind.waiting - {root}, dirty := mind.dirty + {root})
    case _ => mind
  }

  function AllHandledIn(mind: Mind, signals: seq<Signal>, eyes: Eyes): Mind
    decreases |signals|
  {
    if signals == [] then mind else AllHandledIn(HandledIn(mind, signals[0], eyes), signals[1..], eyes)
  }

  lemma SameEverywhere(a: Mind, b: Mind)
    requires forall root :: At(a, root) == At(b, root)
    requires a.probes == b.probes
    ensures a == b
  {
    forall root
      ensures root in a.world <==> root in b.world
      ensures root in a.world ==> a.world[root] == b.world[root]
      ensures (root in a.stocked <==> root in b.stocked) && (root in a.dirty <==> root in b.dirty)
      ensures root in a.waiting <==> root in b.waiting
    {
      assert At(a, root) == At(b, root);
    }
  }

  lemma SameMarks(before: Mind, after: Mind, root: Path, path: Path, event: Event, eyes: Eyes)
    requires root in before.world && OnlyAt(before, after, root) && after.probes == before.probes
    requires At(after, root) == At(before, root).(
      watched := Some(Marked(before.world[root], root, path, event, eyes)), dirty := true)
    ensures after == MarkedIn(before, root, path, event, eyes)
  {
    forall other ensures At(after, other) == At(MarkedIn(before, root, path, event, eyes), other) {
      if other != root {
        assert At(after, other) == At(before, other);
      }
    }
    SameEverywhere(after, MarkedIn(before, root, path, event, eyes));
  }

  /** What one turn was told besides changes and released locks. */
  datatype Heard = Heard(lost: bool, refs: set<Path>, hooked: Option<set<Path>>, covered: bool)

  function Attuned(was: Local, root: Path, heard: Heard, eyes: Eyes): Local {
    if heard.hooked.Some? && !heard.covered then Resighted(was, root, Kept, eyes)
    else if heard.hooked.Some? then
      Reowned(was, root, if heard.hooked.value == {} then None else Some(heard.refs + heard.hooked.value), eyes)
    else if heard.refs != {} then Reowned(was, root, Some(heard.refs), eyes)
    else was
  }

  /** Lost events make the session look at everything again; else only what may have changed is looked at. */
  function Reacted(was: Local, root: Path, heard: Heard, eyes: Eyes): Local {
    if heard.lost then Resighted(was, root, Lost, eyes)
    else Examined(Attuned(was, root, heard, eyes), root, eyes)
  }

  /** Everything a turn does to one root after its signals were taken in. */
  function Turned(was: Local, root: Path, heard: Heard, eyes: Eyes): Local {
    var now := Reacted(was, root, heard, eyes);
    if now.dirty && !now.waits then Processed(now, root, eyes) else now
  }

  ghost function StockTurned(had: Option<Stock>, was: Local, root: Path, heard: Heard, eyes: Eyes): Option<Stock>
    requires Sane(eyes)
  {
    var now := Reacted(was, root, heard, eyes);
    var kept := if now.stocked then had else None;
    if now.dirty && !now.waits then WorkedAt(kept, now, root, eyes) else kept
  }

  ghost predicate TurnedTo(before: Mind, after: Mind, had: map<Path, Stock>, has: map<Path, Stock>, heard: Heard, eyes: Eyes)
    requires Sane(eyes)
  {
    && (forall root :: At(after, root) == Turned(At(before, root), root, heard, eyes))
    && (forall root :: StockAt(has, root) == StockTurned(StockAt(had, root), At(before, root), root, heard, eyes))
  }

  /** No stock is new or different; some may be gone. */
  ghost predicate OnlyFewer(before: map<Path, Stock>, after: map<Path, Stock>) {
    forall root :: root in after ==> root in before && after[root] == before[root]
  }

  lemma TurnComposes(handled: Mind, reacted: Mind, after: Mind,
                     had: map<Path, Stock>, fewer: map<Path, Stock>, has: map<Path, Stock>, heard: Heard, eyes: Eyes)
    requires Sane(eyes) && OnlyFewer(had, fewer) && reacted.stocked == fewer.Keys
    requires forall root :: At(reacted, root) == Reacted(At(handled, root), root, heard, eyes)
    requires AllProcessedTo(reacted, after, fewer, has, reacted.dirty - reacted.waiting, eyes)
    ensures TurnedTo(handled, after, had, has, heard, eyes)
  {
    forall root
      ensures At(after, root) == Turned(At(handled, root), root, heard, eyes)
      ensures StockAt(has, root) == StockTurned(StockAt(had, root), At(handled, root), root, heard, eyes)
    {
      assert ProcessedAt(reacted, after, fewer, has, reacted.dirty - reacted.waiting, eyes, root);
      assert At(reacted, root) == Reacted(At(handled, root), root, heard, eyes);
      assert StockAt(fewer, root) == if At(reacted, root).stocked then StockAt(had, root) else None;
    }
  }

  lemma ProbedAt(before: Mind, after: Mind, root: Path, holding: Holding)
    requires root !in before.waiting
    requires after == before.(
      probes := before.probes[root := holding], waiting := before.waiting + if holding == Held then {root} else {})
    ensures OnlyAt(before, after, root)
    ensures At(after, root) == At(before, root).(doubted := holding == Holding.Unknown, waits := holding == Held)
  {}

  lemma ProcessedIsGood(local: Local, root: Path, eyes: Eyes)
    requires Good(root, local) && !local.waits
    ensures Good(root, Processed(local, root, eyes)) && !Processed(local, root, eyes).dirty
  {}

  lemma ProcessedKeeps(before: Mind, after: Mind, root: Path, eyes: Eyes)
    requires Minded(before) && root !in before.waiting
    requires OnlyAt(before, after, root) && At(after, root) == Processed(At(before, root), root, eyes)
    ensures Minded(after)
    ensures after.dirty == before.dirty - {root}
    ensures before.waiting <= after.waiting <= before.waiting + {root}
  {
    ProcessedIsGood(At(before, root), root, eyes);
    OneChanged(before, after, root);
    SetsFollow(before, after, root);
  }

  lemma SetsFollow(before: Mind, after: Mind, root: Path)
    requires OnlyAt(before, after, root) && !At(after, root).dirty && !At(before, root).waits
    ensures after.dirty == before.dirty - {root}
    ensures before.waiting <= after.waiting <= before.waiting + {root}
  {
    forall other ensures other in after.dirty <==> other in before.dirty - {root} {
      if other != root {
        assert At(after, other) == At(before, other);
      }
    }
    forall other ensures other in before.waiting ==> other in after.waiting
                 ensures other in after.waiting ==> other in before.waiting + {root} {
      if other != root {
        assert At(after, other) == At(before, other);
      }
    }
  }

  ghost predicate ProcessedAt(before: Mind, after: Mind, had: map<Path, Stock>, has: map<Path, Stock>,
                              ready: set<Path>, eyes: Eyes, root: Path)
    requires Sane(eyes)
  {
    && At(after, root) == (if root in ready then Processed(At(before, root), root, eyes) else At(before, root))
    && StockAt(has, root) ==
         (if root in ready then WorkedAt(StockAt(had, root), At(before, root), root, eyes) else StockAt(had, root))
  }

  /** Exactly these roots are processed, each as one that is processed alone. */
  ghost predicate AllProcessedTo(before: Mind, after: Mind, had: map<Path, Stock>, has: map<Path, Stock>,
                                 ready: set<Path>, eyes: Eyes)
    requires Sane(eyes)
  {
    forall root :: ProcessedAt(before, after, had, has, ready, eyes, root)
  }

  lemma OneThenRest(before: Mind, middle: Mind, after: Mind,
                    had: map<Path, Stock>, halfway: map<Path, Stock>, has: map<Path, Stock>,
                    root: Path, ready: set<Path>, eyes: Eyes)
    requires Sane(eyes) && root in ready
    requires ProcessedTo(before, middle, had, halfway, root, eyes)
    requires AllProcessedTo(middle, after, halfway, has, ready - {root}, eyes)
    ensures AllProcessedTo(before, after, had, has, ready, eyes)
  {
    forall other ensures ProcessedAt(before, after, had, has, ready, eyes, other) {
      assert ProcessedAt(middle, after, halfway, has, ready - {root}, eyes, other);
      if other != root {
        assert At(middle, other) == At(before, other);
        assert StockAt(halfway, other) == StockAt(had, other);
      }
    }
  }

  lemma OneTakenOut(before: Mind, middle: Mind, root: Path, ready: set<Path>)
    requires root in ready && ready !! before.waiting && middle.waiting <= before.waiting + {root}
    ensures ready - {root} !! middle.waiting
    ensures |ready - {root}| < |ready|
  {}

  lemma OneThenOthers(before: Mind, middle: Mind, after: Mind, root: Path, ready: set<Path>)
    requires root in ready && middle.dirty == before.dirty - {root} && after.dirty == middle.dirty - (ready - {root})
    requires before.waiting <= middle.waiting <= before.waiting + {root}
    requires middle.waiting <= after.waiting <= middle.waiting + (ready - {root})
    ensures after.dirty == before.dirty - ready
    ensures before.waiting <= after.waiting <= before.waiting + ready
  {}

  /** One root is processed, in the session and in the pool; nothing else changes. */
  ghost predicate ProcessedTo(before: Mind, after: Mind, had: map<Path, Stock>, has: map<Path, Stock>, root: Path, eyes: Eyes)
    requires Sane(eyes)
  {
    && OnlyAt(before, after, root)
    && At(after, root) == Processed(At(before, root), root, eyes)
    && Worked(had, has, root, At(before, root), eyes)
  }

  predicate InScope(watched: Watched, scope: Option<set<Path>>) {
    scope.None? || (watched.repository.Some? && watched.repository.value in scope.value)
  }

  /** The pool takes in everything recorded for a root: a fresh listing, or each change noted. */
  ghost function TakenIn(had: Option<Stock>, root: Path, was: Watched, eyes: Eyes): Option<Stock>
    requires Sane(eyes)
  {
    if was.whole then Some(Listing(was.found.candidate, eyes.admitted(root), eyes.tree(root)))
    else if had.None? || had.value.via.None? then had
    else Some(had.value.(files := Noted(had.value.files, root, was.changed, SeenAt(eyes, root, was.changed))))
  }

  ghost predicate Handled(before: map<Path, Stock>, after: map<Path, Stock>, root: Path, was: Watched, eyes: Eyes)
    requires Sane(eyes)
  {
    OnlyStockAt(before, after, root) && StockAt(after, root) == TakenIn(StockAt(before, root), root, was, eyes)
  }

  /** What processing a root does to its files in the pool. */
  ghost function WorkedAt(had: Option<Stock>, local: Local, root: Path, eyes: Eyes): Option<Stock>
    requires Sane(eyes)
  {
    if local.watched.None? then had
    else
      var was := Surveyed(local.watched.value, eyes, root);
      if was.survey.None? then None
      else if eyes.holding(root) != Holding.Free then had
      else if eyes.settled(root) then None
      else TakenIn(had, root, was, eyes)
  }

  ghost predicate Worked(before: map<Path, Stock>, after: map<Path, Stock>, root: Path, local: Local, eyes: Eyes)
    requires Sane(eyes)
  {
    OnlyStockAt(before, after, root) && StockAt(after, root) == WorkedAt(StockAt(before, root), local, root, eyes)
  }

  // ---------- when a root is surveyed anew ----------

  /** Processing a watched root, told from what was recorded for it.  A root that was to be listed afresh,
    that was marked for a new survey or that never had one is surveyed first; one whose survey fails then is
    let go of with all its files, as is one whose owners let it go.  Held or unknown locks leave its work and
    its files as they were, and only a free root's work is done. */
  lemma ProcessedMeans(local: Local, had: Option<Stock>, root: Path, eyes: Eyes)
    requires Sane(eyes) && local.watched.Some? && !local.waits
    ensures
      var was, now, has := local.watched.value, Processed(local, root, eyes), WorkedAt(had, local, root, eyes);
      var anew := was.whole || was.resurvey || was.survey.None?;
      var unreadable := anew && eyes.survey(root).None?;
      var free := eyes.holding(root) == Holding.Free;
      && !now.dirty
      && (now.watched.None? <==> unreadable || (free && eyes.settled(root)))
      && (now.watched.None? ==> !now.stocked && has.None?)
      && (!unreadable ==> (now.waits <==> eyes.holding(root) == Held) && (now.doubted <==> eyes.holding(root) == Holding.Unknown))
      && (now.watched.Some? ==>
            var left := now.watched.value;
            && left.found == was.found && left.repository == was.repository && !left.resurvey
            && left.survey == (if anew then eyes.survey(root) else was.survey)
            && (free ==> left.changed == map[] && !left.whole && now.stocked)
            && (!free ==> left.changed == was.changed && left.whole == was.whole && now.stocked == local.stocked && has == had)
            && (free && was.whole ==> has == Some(Listing(was.found.candidate, eyes.admitted(root), eyes.tree(root))))
            && (free && !was.whole ==> has == NotedFrom(had, root, was.changed, eyes)))
  {}

  lemma SurveysWhenDue(before: Mind, after: Mind, had: map<Path, Stock>, has: map<Path, Stock>, root: Path, eyes: Eyes)
    requires Sane(eyes) && ProcessedTo(before, after, had, has, root, eyes) && root !in before.waiting
    ensures root in before.world ==>
      var was := before.world[root];
      if was.whole || was.resurvey || was.survey.None? then
        if eyes.survey(root).None? then root !in after.world && root !in has
        else root in after.world ==> after.world[root].survey == eyes.survey(root) && !after.world[root].resurvey
      else root in after.world ==> after.world[root].survey == was.survey && !after.world[root].resurvey
  {
    if root in before.world {
      ProcessedMeans(At(before, root), StockAt(had, root), root, eyes);
      assert At(after, root).watched.Some? <==> root in after.world;
      assert StockAt(has, root).Some? <==> root in has;
    }
  }

  /** A shared root's files with the given changes taken in. */
  ghost function NotedFrom(had: Option<Stock>, root: Path, changed: Changed, eyes: Eyes): Option<Stock>
    requires Sane(eyes)
  {
    if had.Some? && had.value.via.Some?
    then Some(had.value.(files := Noted(had.value.files, root, changed, map path | path in changed :: eyes.seen(root)(path))))
    else had
  }

  /** A turn comes to a root that is dirty and that nobody waits for, and to no other. */
  lemma TurnedMeans(was: Local, root: Path, heard: Heard, eyes: Eyes)
    ensures
      var due, now := Reacted(was, root, heard, eyes), Turned(was, root, heard, eyes);
      && (!due.dirty || due.waits ==> now == due)
      && (due.dirty && !due.waits && due.watched.None? ==> now == due.(dirty := false))
      && (due.dirty && !due.waits && due.watched.Some? ==> SurveyedIn(due.watched.value, now, root, eyes))
  {}

  /** The root was surveyed anew if there was a reason to, and else keeps its survey. */
  ghost predicate SurveyedIn(was: Watched, now: Local, root: Path, eyes: Eyes) {
    if was.whole || was.resurvey || was.survey.None? then
      if eyes.survey(root).None? then now.watched.None? && !now.stocked
      else now.watched.Some? ==> now.watched.value.survey == eyes.survey(root) && !now.watched.value.resurvey
    else now.watched.Some? ==> now.watched.value.survey == was.survey && !now.watched.value.resurvey
  }

  /** What one change leaves recorded for its root.  It asks for a new survey if it is about a name that tells
    owners or locks, or if the root itself or one of its own entries did more than be written to. */
  lemma MarkedMeans(watched: Watched, root: Path, path: Path, event: Event, eyes: Eyes)
    ensures
      var now := Marked(watched, root, path, event, eyes);
      && now.changed.Keys == watched.changed.Keys + {path} && now.changed[path] == event
      && (forall other :: other in watched.changed && other != path ==> now.changed[other] == watched.changed[other])
      && (now.resurvey <==> watched.resurvey || AsksForSurvey(root, path, event, eyes))
      && now.found == watched.found && now.repository == watched.repository
      && now.survey == watched.survey && now.whole == watched.whole
  {
    if Parent(path) == Some(root) {
      assert path == root + [path[|root|]];
    }
    if |path| == |root| + 1 && root <= path {
      assert path[..|path| - 1] == root;
    }
  }

  predicate AsksForSurvey(root: Path, path: Path, event: Event, eyes: Eyes) {
    || eyes.bookkeeping(path)
    || (event in {Event.Appeared, Event.Vanished, Unsure}
        && root <= path && |path| <= |root| + 1 && (path == root || path[|root|] != RootDir))
  }

  /** Having lost track of a root means to doubt every profile part beside every lock of its survey. */
  lemma UnsettledMeans(watched: Watched)
    ensures
      var now := Unsettled(watched);
      && now.resurvey && now.found == watched.found && now.repository == watched.repository
      && now.survey == watched.survey && now.whole == watched.whole
      && (forall path :: path in now.changed <==> path in watched.changed || IsPartOf(watched, path))
      && (forall path :: path in now.changed ==>
            now.changed[path] == if IsPartOf(watched, path) then Unsure else watched.changed[path])
  {
    forall path ensures path in PartsOf(watched.survey) <==> IsPartOf(watched, path) {
      if IsPartOf(watched, path) {
        var lock :| IsBesideLock(watched, path, lock);
        var i :| 0 <= i < |watched.survey.value.locks| && watched.survey.value.locks[i] == lock;
        var p :| 0 <= p < |PROFILE_PARTS| && PROFILE_PARTS[p] == path[|path| - 1];
        assert path == Parent(lock).value + [PROFILE_PARTS[p]];
      }
      if path in PartsOf(watched.survey) {
        var i, p :| 0 <= i < |watched.survey.value.locks| && Parent(watched.survey.value.locks[i]).Some?
                    && 0 <= p < |PROFILE_PARTS| && path == Parent(watched.survey.value.locks[i]).value + [PROFILE_PARTS[p]];
        assert IsBesideLock(watched, path, watched.survey.value.locks[i]);
      }
    }
  }

  predicate IsBesideLock(watched: Watched, path: Path, lock: Path) {
    && watched.survey.Some? && lock in watched.survey.value.locks
    && path != [] && path[|path| - 1] in PROFILE_PARTS && Parent(lock) == Some(path[..|path| - 1])
  }

  ghost predicate IsPartOf(watched: Watched, path: Path) {
    exists lock :: IsBesideLock(watched, path, lock)
  }

  lemma PartsAreNamed()
    ensures PROFILE_PARTS ==
      [Normal(Ascii("deps")), Normal(Ascii("incremental")), Normal(Ascii("build")), Normal(Ascii("examples"))]
  {
    assert Normal(Ascii("deps")) == PROFILE_PARTS[0];
    assert Normal(Ascii("incremental")) == PROFILE_PARTS[1];
    assert Normal(Ascii("build")) == PROFILE_PARTS[2];
    assert Normal(Ascii("examples")) == PROFILE_PARTS[3];
  }

  /** While every directory is covered, a hook and changed references let go of exactly the settled roots of the
    repositories they are about; a hook that names none is about all. */
  lemma AttunedMeans(was: Local, root: Path, heard: Heard, eyes: Eyes)
    ensures heard.hooked.Some? && !heard.covered ==>
      Attuned(was, root, heard, eyes) == Resighted(was, root, Kept, eyes)
    ensures heard.hooked.None? || heard.covered ==>
      Attuned(was, root, heard, eyes) ==
        if was.watched.Some? && eyes.disowned(root) && IsAbout(heard, was.watched.value.repository)
        then was.(watched := None, stocked := false, dirty := false) else was
  {}

  predicate IsAbout(heard: Heard, repository: Option<Path>) {
    || heard.hooked == Some({})
    || (repository.Some? && repository.value in heard.refs)
    || (repository.Some? && heard.hooked.Some? && repository.value in heard.hooked.value)
  }

  /** A turn's checkpoint is the largest of those it was told. */
  lemma {:induction false} LatestIsLargest(signals: seq<Signal>)
    ensures Latest(signals).None? <==> forall id: nat :: CheckpointAt(id) !in signals
    ensures Latest(signals).Some? ==>
      CheckpointAt(Latest(signals).value) in signals
      && forall id: nat :: CheckpointAt(id) in signals ==> id <= Latest(signals).value
  {
    if signals != [] {
      var front, last := signals[..|signals| - 1], signals[|signals| - 1];
      LatestIsLargest(front);
      assert signals == front + [last];
    }
  }

  /** The root is let go of, or to be surveyed the next time it is processed. */
  predicate GoneOrMarked(local: Local) {
    local.watched.None? || (local.watched.value.resurvey && local.dirty)
  }

  lemma MarkStaysOnce(mind: Mind, root: Path, signal: Signal, eyes: Eyes)
    requires GoneOrMarked(At(mind, root))
    ensures GoneOrMarked(At(HandledIn(mind, signal, eyes), root))
  {
    if signal.Entry? {
      var owner := OwnerIn(mind.world.Keys, Ancestors(signal.path));
      OwnerIsWatched(mind.world.Keys, Ancestors(signal.path));
      if owner.Some? && owner.value == root {
        MarkedMeans(mind.world[root], root, signal.path, signal.event, eyes);
      }
    }
  }

  lemma {:induction false} MarkStays(mind: Mind, root: Path, signals: seq<Signal>, eyes: Eyes)
    requires GoneOrMarked(At(mind, root))
    ensures GoneOrMarked(At(AllHandledIn(mind, signals, eyes), root))
    decreases |signals|
  {
    if signals != [] {
      MarkStaysOnce(mind, root, signals[0], eyes);
      MarkStays(HandledIn(mind, signals[0], eyes), root, signals[1..], eyes);
    }
  }

  lemma {:induction false} HandledInParts(mind: Mind, front: seq<Signal>, rest: seq<Signal>, eyes: Eyes)
    ensures AllHandledIn(mind, front + rest, eyes) == AllHandledIn(AllHandledIn(mind, front, eyes), rest, eyes)
    decreases |front|
  {
    if front == [] {
      assert front + rest == rest;
    } else {
      assert (front + rest)[1..] == front[1..] + rest;
      HandledInParts(HandledIn(mind, front[0], eyes), front[1..], rest, eyes);
    }
  }

  /** Whatever else is in a turn, a change that asks for a new survey of the root it is in gets one: after the
    turn the root is no longer watched, or waits for a lock, or has the survey of this turn. */
  lemma SurveyFollowsTheChange(mind: Mind, signals: seq<Signal>, i: nat, path: Path, event: Event, root: Path,
                               heard: Heard, eyes: Eyes)
    requires i < |signals| && signals[i] == Entry(path, event)
    requires var before := AllHandledIn(mind, signals[..i], eyes);
      OwnerIn(before.world.Keys, Ancestors(path)) == Some(root) && root in before.world && before.world[root].found.written
    requires AsksForSurvey(root, path, event, eyes)
    ensures var now := Turned(At(AllHandledIn(mind, signals, eyes), root), root, heard, eyes);
      || now.watched.None? || now.waits
      || (now.watched.value.survey == eyes.survey(root) && !now.watched.value.resurvey)
  {
    var before := AllHandledIn(mind, signals[..i], eyes);
    MarkedMeans(before.world[root], root, path, event, eyes);
    MarkStays(HandledIn(before, signals[i], eyes), root, signals[i + 1..], eyes);
    assert signals == signals[..i] + ([signals[i]] + signals[i + 1..]);
    HandledInParts(mind, signals[..i], [signals[i]] + signals[i + 1..], eyes);
    assert ([signals[i]] + signals[i + 1..])[1..] == signals[i + 1..];
    MarkIsServed(At(AllHandledIn(mind, signals, eyes), root), root, heard, eyes);
  }

  lemma MarkIsServed(was: Local, root: Path, heard: Heard, eyes: Eyes)
    requires GoneOrMarked(was)
    ensures var now := Turned(was, root, heard, eyes);
      || now.watched.None? || now.waits
      || (now.watched.value.survey == eyes.survey(root) && !now.watched.value.resurvey)
  {
    MarkOutlastsReacting(was, root, heard, eyes);
    TurnedMeans(was, root, heard, eyes);
  }

  lemma MarkOutlastsReacting(was: Local, root: Path, heard: Heard, eyes: Eyes)
    requires GoneOrMarked(was)
    ensures Due(Reacted(was, root, heard, eyes))
  {
    if heard.lost {
      MarkOutlastsResighting(was, root, Lost, eyes);
    } else if heard.hooked.Some? && !heard.covered {
      MarkOutlastsResighting(was, root, Kept, eyes);
      DueOutlastsExamining(Resighted(was, root, Kept, eyes), root, eyes);
    } else {
      AttunedMeans(was, root, heard, eyes);
      DueOutlastsExamining(Attuned(was, root, heard, eyes), root, eyes);
    }
  }

  /** The root is let go of, or to be processed with a new survey. */
  predicate Due(local: Local) {
    local.watched.None? || (local.dirty && (local.watched.value.resurvey || local.watched.value.whole))
  }

  lemma MarkOutlastsResighting(was: Local, root: Path, loss: Loss, eyes: Eyes)
    requires GoneOrMarked(was)
    ensures Due(Resighted(was, root, loss, eyes))
  {}

  lemma DueOutlastsExamining(was: Local, root: Path, eyes: Eyes)
    requires Due(was)
    ensures Due(Examined(was, root, eyes))
  {}

  // ---------- what the record of changes keeps, and what the cache may miss ----------

  /** The changes of one path as they are recorded: a later one replaces an earlier one. */
  function Merged(changed: Changed, path: Path, events: seq<Event>): Changed
    decreases |events|
  {
    if events == [] then changed else Merged(changed[path := events[0]], path, events[1..])
  }

  lemma {:induction false} LastEventStays(changed: Changed, path: Path, events: seq<Event>)
    requires events != []
    ensures Merged(changed, path, events) == changed[path := events[|events| - 1]]
    decreases |events|
  {
    if |events| > 1 {
      LastEventStays(changed[path := events[0]], path, events[1..]);
    }
  }

  /** A chain of directories down to a path, and one directory more. */
  function Chain(path: Path, name: Component): Node
    decreases |path|
  {
    if path == [] then Directory(0, true, map[name := Directory(0, true, map[])])
    else Directory(0, true, map[path[0] := Chain(path[1..], name)])
  }

  lemma {:induction false} ChainReaches(path: Path, name: Component)
    ensures Visible(Chain(path, name), path + [name])
    decreases |path|
  {
    if path == [] {
      assert Visible(Directory(0, true, map[]), ([name])[1..]);
    } else {
      ChainReaches(path[1..], name);
      assert (path + [name])[1..] == path[1..] + [name];
    }
  }

  /** Whatever was reported for a path is still spoken for by what is recorded for it exactly when the last
    event is not an `Unsure` that replaced a more certain one: such an `Unsure` no longer speaks for what
    lies deeper in a directory. */
  lemma RecordSpeaksForAllExactlyWhen(relative: Path, events: seq<Event>)
    requires events != []
    ensures (forall tree, event, path ::
               event in events && Reaches(tree, relative, event, path) ==>
               Reaches(tree, relative, events[|events| - 1], path))
            <==> (events[|events| - 1] == Unsure ==> forall event :: event in events ==> event == Unsure)
  {
    var last := events[|events| - 1];
    if event :| last == Unsure && event in events && event != Unsure {
      var name := Normal([1]);
      var tree, path := Chain(relative, name), relative + [name, name];
      ChainReaches(relative, name);
      assert path[..|relative| + 1] == relative + [name];
      assert Reaches(tree, relative, event, path) && !Reaches(tree, relative, last, path);
    }
  }

  lemma TwoSignals(mind: Mind, a: Signal, b: Signal, eyes: Eyes)
    ensures AllHandledIn(mind, [a, b], eyes) == HandledIn(HandledIn(mind, a, eyes), b, eyes)
    ensures !a.ReleasedLock? && !b.ReleasedLock? ==> Releases([a, b]) == multiset{}
    ensures b.CheckpointAt? ==> Latest([a, b]).Some?
  {
    var middle := HandledIn(mind, a, eyes);
    assert [a, b][1..] == [b] && [b][1..] == [];
    assert AllHandledIn(HandledIn(middle, b, eyes), [], eyes) == HandledIn(middle, b, eyes);
    assert AllHandledIn(middle, [b], eyes) == AllHandledIn(HandledIn(middle, b, eyes), [], eyes);
    assert Releases([]) == multiset{};
    assert Releases([b]) == Releases([]) + if b.ReleasedLock? then multiset{b.root} else multiset{};
  }

  /** The cache may be written as of a checkpoint while a change heard before it waits for a lock: the
    rows of that root are then what they were before the change. */
  method HeldWorkIsNotInTheCache(session: Session, root: Path, path: Path, reached: nat, eyes: Eyes)
    requires session.Rested() && Sane(eyes)
    requires root in session.world && root !in session.waiting && session.world[root].found.written
    requires OwnerIn(session.world.Keys, Ancestors(path)) == Some(root)
    requires eyes.appeared == map[] && eyes.holding(root) == Held
    requires Surveyed(Marked(session.world[root], root, path, Event.Written, eyes), eyes, root).survey.Some?
    modifies session`world, session`dirty, session`waiting, session`covered, session`store, session`checkpoint,
             session`live, session`probes, session.pool
    ensures session.Rested()
    ensures root in session.world && path in session.world[root].changed && root in session.waiting
    ensures StockAt(session.pool.stocks, root) == old(StockAt(session.pool.stocks, root))
    ensures session.store.Some? ==> session.store.value == View(session.pool.stocks)
    ensures old(session.store).Some? && Saves(old(session.checkpoint), Some(reached), eyes) ==>
      && session.store.Some? && session.checkpoint == Later(old(session.checkpoint), Some(reached))
      && (root in old(session.pool.stocks) ==> Holds(session.store.value, root, old(session.pool.stocks)[root]))
  {
    var signals := [Entry(path, Event.Written), CheckpointAt(reached)];
    ghost var before, had := session.Now(), StockAt(session.pool.stocks, root);
    TwoSignals(before, Entry(path, Event.Written), CheckpointAt(reached), eyes);
    assert Refs(signals) == {} && LostEvents !in signals;
    LatestOfTwo(Entry(path, Event.Written), reached);
    HeldStays(before, had, root, path, reached, session.covered && eyes.covers, eyes);
    session.Turn(signals, None, eyes);
    assert At(session.Now(), root).waits && At(session.Now(), root).watched.Some?;
    if root in session.pool.stocks {
      ViewHolds(session.pool.stocks, root);
    }
  }

  lemma LatestOfTwo(first: Signal, reached: nat)
    requires !first.CheckpointAt?
    ensures Latest([first, CheckpointAt(reached)]) == Some(reached)
  {
    assert [first, CheckpointAt(reached)][..1] == [first] && [first][..0] == [];
    assert Latest([first]) == None;
  }

  lemma HeldStays(before: Mind, had: Option<Stock>, root: Path, path: Path, reached: nat, covered: bool, eyes: Eyes)
    requires root in before.world && root !in before.waiting && before.world[root].found.written && Sane(eyes)
    requires OwnerIn(before.world.Keys, Ancestors(path)) == Some(root) && (had.Some? ==> root in before.stocked)
    requires eyes.appeared == map[] && eyes.holding(root) == Held
    requires Surveyed(Marked(before.world[root], root, path, Event.Written, eyes), eyes, root).survey.Some?
    ensures
      var was := At(AllHandledIn(before, [Entry(path, Event.Written), CheckpointAt(reached)], eyes), root);
      var heard := Heard(false, {}, None, covered);
      var now := Turned(was, root, heard, eyes);
      && now.waits && now.watched.Some? && path in now.watched.value.changed
      && StockTurned(had, was, root, heard, eyes) == had
  {
    TwoSignals(before, Entry(path, Event.Written), CheckpointAt(reached), eyes);
    assert EntryIn(before, path, Event.Written, eyes) == MarkedIn(before, root, path, Event.Written, eyes);
  }
}
