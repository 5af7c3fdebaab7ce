/** What a turn of the watch session leaves in the pool and in the cache: when a root's files are those of a
  fresh walk, and when the cache written at a checkpoint accounts for everything heard before it. */
module Accounting {
  import opened Common
  import opened Paths
  import opened Records
  import opened Inventory
  import opened Noting
  import opened Journals
  import opened Pools
  import opened Watching

  // ---------- what is left of a root's work ----------

  /** The settling comes to the root, and nothing is in the way of its work. */
  predicate Free(now: Local, root: Path, eyes: Eyes) {
    && now.watched.Some? && now.dirty && !now.waits
    && Surveyed(now.watched.value, eyes, root).survey.Some?
    && eyes.holding(root) == Holding.Free && !eyes.settled(root)
  }

  /** The root stays watched and its work undone: somebody waits for its lock already, nothing called for
    it, or its locks are held or cannot be probed. */
  predicate LeftBehind(now: Local, root: Path, eyes: Eyes) {
    && now.watched.Some?
    && (|| now.waits || !now.dirty
        || (Surveyed(now.watched.value, eyes, root).survey.Some? && eyes.holding(root) != Holding.Free))
  }

  ghost function KeptStock(had: Option<Stock>, now: Local): Option<Stock> {
    if now.stocked then had else None
  }

  /** Everything recorded for the root, taken in. */
  ghost function Wanted(had: Option<Stock>, now: Local, root: Path, eyes: Eyes): Option<Stock>
    requires Sane(eyes) && now.watched.Some?
  {
    TakenIn(KeptStock(had, now), root, now.watched.value, eyes)
  }

  /** A root that stays watched was either worked off completely or left behind with its stock as it was. */
  lemma WorkedOrLeft(had: Option<Stock>, was: Local, root: Path, heard: Heard, eyes: Eyes)
    requires Sane(eyes) && Turned(was, root, heard, eyes).watched.Some?
    ensures var now := Reacted(was, root, heard, eyes);
      && now.watched.Some?
      && StockTurned(had, was, root, heard, eyes) ==
         if LeftBehind(now, root, eyes) then KeptStock(had, now) else Wanted(had, now, root, eyes)
  {}

  // ---------- against a fresh walk ----------

  /** After a turn in which nothing is in the way, a root's files are those a fresh walk lists, exactly when
    the root is listed afresh anyway or no change lies beyond a mount point with files to list there. */
  lemma TurnIsFreshExactlyWhen(handled: Mind, after: Mind, had: map<Path, Stock>, has: map<Path, Stock>,
                               heard: Heard, eyes: Eyes, root: Path)
    requires Sane(eyes) && TurnedTo(handled, after, had, has, heard, eyes)
    requires var now := Reacted(At(handled, root), root, heard, eyes);
      && Free(now, root, eyes)
      && FreshlySeen(now.watched.value, KeptStock(StockAt(had, root), now), root, eyes)
    ensures var now := Reacted(At(handled, root), root, heard, eyes);
      && root in after.world && !Pending(after.world[root])
      && root in has && has[root].via.Some?
      && (has[root].files == Listing(now.watched.value.found.candidate, has[root].via, eyes.tree(root)).files <==>
          now.watched.value.whole || StaysOnDevice(eyes.tree(root), root, now.watched.value.changed))
  {
    var now := Reacted(At(handled, root), root, heard, eyes);
    var was, tree, kept := now.watched.value, eyes.tree(root), KeptStock(StockAt(had, root), now);
    assert At(after, root) == Turned(At(handled, root), root, heard, eyes);
    assert At(after, root).watched.Some?;
    WorkedOrLeft(StockAt(had, root), At(handled, root), root, heard, eyes);
    assert StockAt(has, root) == Wanted(StockAt(had, root), now, root, eyes);
    if !was.whole {
      assert SeenAt(eyes, root, was.changed) == Steady(tree, was.changed);
      NotedIsFreshExactlyOnDevice(kept.value.files, tree, root, was.changed);
    }
  }

  /** The tree can be walked, every recorded change was looked up in it, and the changes cover every
    difference between it and the recorded files. */
  ghost predicate FreshlySeen(was: Watched, kept: Option<Stock>, root: Path, eyes: Eyes) {
    var tree := eyes.tree(root);
    && tree.Directory? && Named(tree) && Readable(tree, tree.device)
    && (if was.whole then eyes.admitted(root).Some?
        else
          && kept.Some? && kept.value.via.Some? && Covered(kept.value.files, tree, root, was.changed)
          && forall path :: path in was.changed ==> eyes.seen(root)(path) == tree)
  }

  // ---------- what may come of recorded work ----------

  predicate Ordinary(relative: Path) {
    forall i :: 0 <= i < |relative| ==> relative[i].Normal?
  }

  /** Looking a change up may change what is recorded: something can be there, or something was. */
  predicate MayMatter(relative: Path, files: Files) {
    Ordinary(relative) || exists recorded | recorded in files :: relative <= recorded
  }

  /** Doing a root's work may change what is recorded of it. */
  predicate Concerns(was: Watched, kept: Option<Stock>, root: Path) {
    || was.whole
    || (kept.Some? && kept.value.via.Some?
        && exists path | path in was.changed :: root <= path && MayMatter(path[|root|..], kept.value.files))
  }

  /** The same answers to everything but the files: what is found when the work is done at last. */
  ghost predicate SameButFiles(eyes: Eyes, other: Eyes) {
    other == eyes.(tree := other.tree, seen := other.seen, admitted := other.admitted)
  }

  ghost predicate SameRows(a: Option<Stock>, b: Option<Stock>) {
    a.Some? == b.Some? && (a.Some? ==> Row(a.value) == Row(b.value) && a.value.files == b.value.files)
  }

  /** A root that is still watched has the rows that taking in everything recorded for it gives. */
  ghost predicate Accounts(had: Option<Stock>, was: Local, root: Path, heard: Heard, eyes: Eyes)
    requires Sane(eyes)
  {
    Turned(was, root, heard, eyes).watched.Some? ==>
      var now := Reacted(was, root, heard, eyes);
      now.watched.Some? && SameRows(StockTurned(had, was, root, heard, eyes), Wanted(had, now, root, eyes))
  }

  // ---------- work that does not matter ----------

  lemma NothingThere(tree: Node, root: Path, relative: Path, event: Event)
    requires Named(tree) && !Ordinary(relative)
    ensures Present(tree, root, relative, event) == map[]
  {
    if Lookup(tree, relative).Some? {
      LookupIsNamed(tree, relative);
    }
  }

  /** Changes that cannot matter leave the recorded files as they are. */
  lemma NotedAlike(files: Files, root: Path, changed: Changed, seen: map<Path, Node>)
    requires changed.Keys <= seen.Keys && forall path :: path in seen ==> Named(seen[path])
    requires forall path :: path in changed && root <= path ==> !MayMatter(path[|root|..], files)
    ensures Noted(files, root, changed, seen) == files
  {
    var order := Ascending(changed.Keys);
    var progress := After(files, root, changed, seen, order);
    forall path ensures Recorded(progress.files, path) == Recorded(files, path) && path !in progress.added {
      AfterAt(files, root, changed, seen, order, path);
      AddedAt(files, root, changed, seen, order, path);
      forall change | change in order && root <= change ensures !FoundAt(root, changed, seen, change, path) {
        NothingThere(seen[change], root, change[|root|..], changed[change]);
      }
    }
    forall path ensures path in progress.files <==> path in files {
      assert Recorded(progress.files, path) == Recorded(files, path);
    }
    forall path | path in files ensures progress.files[path] == files[path] {
      assert Recorded(progress.files, path) == Recorded(files, path);
    }
  }

  // ---------- work that may matter ----------

  // "x"
  const NEWCOMER := Normal([120])

  function FactsOf(len: U64): FileFacts {
    FileFacts(Identity(0, 0), len, 1, Caller, Plain, Sharing.Unknown)
  }

  /** A directory with one large file. */
  function Holder(len: U64): Node {
    Directory(0, true, map[NEWCOMER := File(len, Some(FactsOf(len)))])
  }

  /** Directories down to a path, with one large file in the last. */
  function Deposit(path: Path, len: U64): Node
    decreases |path|
  {
    if path == [] then Holder(len) else Directory(0, true, map[path[0] := Deposit(path[1..], len)])
  }

  lemma {:induction false} DepositHolds(path: Path, len: U64)
    requires Ordinary(path)
    ensures Named(Deposit(path, len)) && Lookup(Deposit(path, len), path) == Some(Holder(len))
    ensures Deposit(path, len).Directory? && Deposit(path, len).device == 0
    decreases |path|
  {
    if path != [] {
      DepositHolds(path[1..], len);
    }
  }

  lemma HolderLists(len: U64)
    requires len >= MINIMUM
    ensures Readable(Holder(len), 0) && [NEWCOMER] in Listed(Holder(len), 0)
    ensures Listed(Holder(len), 0)[[NEWCOMER]] == FactsOf(len)
  {
    assert Reached(Holder(len), 0, [NEWCOMER]) == Some(File(len, Some(FactsOf(len))));
    assert FactsAt(Holder(len), 0, [NEWCOMER]) == Some(FactsOf(len));
    ListedIsFacts(Holder(len), 0, [NEWCOMER]);
  }

  lemma DepositIsFound(root: Path, relative: Path, event: Event, len: U64)
    requires Ordinary(relative) && len >= MINIMUM
    ensures var present := Present(Deposit(relative, len), root, relative, event);
      relative + [NEWCOMER] in present && present[relative + [NEWCOMER]] == FactsOf(len)
  {
    DepositHolds(relative, len);
    HolderLists(len);
    DeepHolds(Holder(len), 0, relative, [NEWCOMER]);
    assert (relative + [NEWCOMER])[|relative|] == NEWCOMER;
    assert relative + [NEWCOMER] in Shallow(Holder(len), relative);
  }

  /** One change is looked up in a tree, every other one where there is nothing. */
  function OnlyThere(changed: Changed, path: Path, tree: Node): map<Path, Node> {
    map change | change in changed :: if change == path then tree else Other
  }

  lemma NothingInOther(root: Path, relative: Path, event: Event)
    ensures Present(Other, root, relative, event) == map[]
  {}

  /** A change below the root can make a difference: something new may be found there. */
  lemma DepositIsNoted(files: Files, root: Path, changed: Changed, path: Path, len: U64)
    requires path in changed && root <= path && Ordinary(path[|root|..]) && len >= MINIMUM
    ensures Recorded(Noted(files, root, changed, OnlyThere(changed, path, Deposit(path[|root|..], len))),
                     path[|root|..] + [NEWCOMER]) == Some(FactsOf(len))
  {
    var relative := path[|root|..];
    var seen, order, at := OnlyThere(changed, path, Deposit(relative, len)), Ascending(changed.Keys), relative + [NEWCOMER];
    DepositIsFound(root, relative, changed[path], len);
    AddedAt(files, root, changed, seen, order, at);
    assert FoundAt(root, changed, seen, path, at);
    forall change | change in order && FoundAt(root, changed, seen, change, at) ensures change == path {
      NothingInOther(root, change[|root|..], changed[change]);
    }
  }

  /** A change above something recorded can make a difference: it may be gone. */
  lemma LossIsNoted(files: Files, root: Path, changed: Changed, path: Path, recorded: Path, tree: Node)
    requires path in changed && root <= path && recorded in files && path[|root|..] <= recorded && tree == Other
    ensures recorded !in Noted(files, root, changed, OnlyThere(changed, path, tree))
  {
    var seen, order := OnlyThere(changed, path, tree), Ascending(changed.Keys);
    AfterAt(files, root, changed, seen, order, recorded);
    AddedAt(files, root, changed, seen, order, recorded);
    forall change | change in order && root <= change ensures !FoundAt(root, changed, seen, change, recorded) {
      NothingInOther(root, change[|root|..], changed[change]);
    }
    assert Drops(seen[path], path[|root|..], changed[path], recorded);
    assert DroppedBy(root, changed, seen, order, recorded);
  }

  /** For work that may matter there are files that make it matter. */
  lemma SomethingMatters(was: Watched, kept: Option<Stock>, root: Path, eyes: Eyes) returns (other: Eyes)
    requires Sane(eyes) && Concerns(was, kept, root)
    ensures SameButFiles(eyes, other) && Sane(other)
    ensures !SameRows(kept, TakenIn(kept, root, was, other))
  {
    if was.whole {
      other := AnotherListing(was, kept, root, eyes);
    } else {
      other := AnotherNote(was, kept, root, eyes);
    }
  }

  lemma AnotherListing(was: Watched, kept: Option<Stock>, root: Path, eyes: Eyes) returns (other: Eyes)
    requires Sane(eyes) && was.whole
    ensures SameButFiles(eyes, other) && Sane(other)
    ensures !SameRows(kept, TakenIn(kept, root, was, other))
  {
    var len: U64 := if kept.Some? && [NEWCOMER] in kept.value.files && kept.value.files[[NEWCOMER]] == FactsOf(MINIMUM)
      then MINIMUM + 1 else MINIMUM;
    HolderLists(len);
    other := eyes.(tree := (any: Path) => Holder(len), admitted := (any: Path) => Some(CloneAndSwap));
  }

  lemma AnotherNote(was: Watched, kept: Option<Stock>, root: Path, eyes: Eyes) returns (other: Eyes)
    requires Sane(eyes) && !was.whole && Concerns(was, kept, root)
    ensures SameButFiles(eyes, other) && Sane(other)
    ensures !SameRows(kept, TakenIn(kept, root, was, other))
  {
    var files := kept.value.files;
    var path :| path in was.changed && root <= path && MayMatter(path[|root|..], files);
    var relative, tree := path[|root|..], Other;
    if Ordinary(relative) {
      var at := relative + [NEWCOMER];
      var len: U64 := if at in files && files[at] == FactsOf(MINIMUM) then MINIMUM + 1 else MINIMUM;
      tree := Deposit(relative, len);
      DepositHolds(relative, len);
      DepositIsNoted(files, root, was.changed, path, len);
    } else {
      var recorded :| recorded in files && relative <= recorded;
      LossIsNoted(files, root, was.changed, path, recorded, tree);
    }
    other := Seeing(was, kept, root, eyes, path, tree);
  }

  lemma Seeing(was: Watched, kept: Option<Stock>, root: Path, eyes: Eyes, path: Path, tree: Node) returns (other: Eyes)
    requires Sane(eyes) && Named(tree) && !was.whole && kept.Some? && kept.value.via.Some?
    requires Noted(kept.value.files, root, was.changed, OnlyThere(was.changed, path, tree)) != kept.value.files
    ensures SameButFiles(eyes, other) && Sane(other)
    ensures !SameRows(kept, TakenIn(kept, root, was, other))
  {
    other := eyes.(seen := (any: Path) => (change: Path) => if change == path then tree else Other);
    assert SeenAt(other, root, was.changed) == OnlyThere(was.changed, path, tree);
  }

  // ---------- what a checkpoint accounts for ----------

  lemma FilesDecideNothing(was: Local, root: Path, heard: Heard, eyes: Eyes, other: Eyes)
    requires SameButFiles(eyes, other)
    ensures Reacted(was, root, heard, other) == Reacted(was, root, heard, eyes)
    ensures Turned(was, root, heard, other) == Turned(was, root, heard, eyes)
  {
    SightedAlike(was, root, heard, eyes, other);
    ProcessedAlike(Reacted(was, root, heard, eyes), root, eyes, other);
  }

  lemma SightedAlike(was: Local, root: Path, heard: Heard, eyes: Eyes, other: Eyes)
    requires SameButFiles(eyes, other)
    ensures Reacted(was, root, heard, other) == Reacted(was, root, heard, eyes)
  {
    ResightedAlike(was, root, Lost, eyes, other);
    ResightedAlike(was, root, Kept, eyes, other);
    ExaminedAlike(Attuned(was, root, heard, eyes), root, eyes, other);
  }

  lemma ResightedAlike(was: Local, root: Path, loss: Loss, eyes: Eyes, other: Eyes)
    requires SameButFiles(eyes, other)
    ensures Resighted(was, root, loss, other) == Resighted(was, root, loss, eyes)
  {}

  lemma ExaminedAlike(was: Local, root: Path, eyes: Eyes, other: Eyes)
    requires SameButFiles(eyes, other)
    ensures Examined(was, root, other) == Examined(was, root, eyes)
  {}

  lemma ProcessedAlike(now: Local, root: Path, eyes: Eyes, other: Eyes)
    requires SameButFiles(eyes, other)
    ensures Processed(now, root, other) == Processed(now, root, eyes)
  {}

  /** Whatever the files turn out to be, a root's rows account for everything recorded for it exactly when it
    is not left behind with work that may matter. */
  lemma RowsAccountExactlyWhen(had: Option<Stock>, was: Local, root: Path, heard: Heard, eyes: Eyes)
    requires Sane(eyes)
    ensures var now := Reacted(was, root, heard, eyes);
      (forall other :: SameButFiles(eyes, other) && Sane(other) ==> Accounts(had, was, root, heard, other)) <==>
      !(LeftBehind(now, root, eyes) && Concerns(now.watched.value, KeptStock(had, now), root))
  {
    var now := Reacted(was, root, heard, eyes);
    if LeftBehind(now, root, eyes) && Concerns(now.watched.value, KeptStock(had, now), root) {
      var other := SomethingMatters(now.watched.value, KeptStock(had, now), root, eyes);
      FilesDecideNothing(was, root, heard, eyes, other);
      WorkedOrLeft(had, was, root, heard, other);
      assert !Accounts(had, was, root, heard, other);
    } else {
      forall other | SameButFiles(eyes, other) && Sane(other) ensures Accounts(had, was, root, heard, other) {
        RowsAccount(had, was, root, heard, eyes, other);
      }
    }
  }

  lemma RowsAccount(had: Option<Stock>, was: Local, root: Path, heard: Heard, eyes: Eyes, other: Eyes)
    requires Sane(eyes) && Sane(other) && SameButFiles(eyes, other)
    requires var now := Reacted(was, root, heard, eyes);
      !(LeftBehind(now, root, eyes) && Concerns(now.watched.value, KeptStock(had, now), root))
    ensures Accounts(had, was, root, heard, other)
  {
    var now := Reacted(was, root, heard, eyes);
    FilesDecideNothing(was, root, heard, eyes, other);
    if Turned(was, root, heard, other).watched.Some? {
      WorkedOrLeft(had, was, root, heard, other);
      if LeftBehind(now, root, eyes) {
        NothingMatters(now.watched.value, KeptStock(had, now), root, other);
      }
    }
  }

  lemma NothingMatters(was: Watched, kept: Option<Stock>, root: Path, eyes: Eyes)
    requires Sane(eyes) && !Concerns(was, kept, root)
    ensures TakenIn(kept, root, was, eyes) == kept
  {
    if kept.Some? && kept.value.via.Some? {
      NotedAlike(kept.value.files, root, was.changed, SeenAt(eyes, root, was.changed));
    }
  }

  /** The cache has these rows of a root, or none. */
  ghost predicate HoldsAs(cache: Cache, root: Path, stock: Option<Stock>) {
    if stock.Some? then Holds(cache, root, stock.value) else Lacks(cache, root)
  }

  lemma ViewHoldsAs(stocks: map<Path, Stock>, root: Path, stock: Option<Stock>)
    ensures HoldsAs(View(stocks), root, stock) <==> SameRows(StockAt(stocks, root), stock)
  {
    if root in stocks {
      ViewHolds(stocks, root);
      if stock.Some? && HoldsAs(View(stocks), root, stock) {
        SameFiles(stocks[root].files, stock.value.files);
      }
    }
  }

  lemma SameFiles(a: Files, b: Files)
    requires forall path :: Recorded(a, path) == Recorded(b, path)
    ensures a == b
  {
    forall path ensures path in a <==> path in b {
      assert Recorded(a, path) == Recorded(b, path);
    }
    forall path | path in a ensures a[path] == b[path] {
      assert Recorded(a, path) == Recorded(b, path);
    }
  }

  /** The cache accounts for everything that was recorded for the roots that stay watched. */
  ghost predicate CacheAccounts(cache: Cache, had: map<Path, Stock>, handled: Mind, heard: Heard, eyes: Eyes)
    requires Sane(eyes)
  {
    forall root :: CacheAccountsAt(cache, StockAt(had, root), At(handled, root), root, heard, eyes)
  }

  ghost predicate CacheAccountsAt(cache: Cache, had: Option<Stock>, was: Local, root: Path, heard: Heard, eyes: Eyes)
    requires Sane(eyes)
  {
    Turned(was, root, heard, eyes).watched.Some? ==>
      var now := Reacted(was, root, heard, eyes);
      now.watched.Some? && HoldsAs(cache, root, Wanted(had, now, root, eyes))
  }

  lemma CacheFollowsRows(handled: Mind, after: Mind, had: map<Path, Stock>, has: map<Path, Stock>,
                         heard: Heard, eyes: Eyes, root: Path)
    requires Sane(eyes) && TurnedTo(handled, after, had, has, heard, eyes)
    ensures CacheAccountsAt(View(has), StockAt(had, root), At(handled, root), root, heard, eyes) <==>
      Accounts(StockAt(had, root), At(handled, root), root, heard, eyes)
  {
    var now := Reacted(At(handled, root), root, heard, eyes);
    assert StockAt(has, root) == StockTurned(StockAt(had, root), At(handled, root), root, heard, eyes);
    if now.watched.Some? {
      ViewHoldsAs(has, root, Wanted(StockAt(had, root), now, root, eyes));
    }
  }

  /** No root is left behind with work that may matter. */
  ghost predicate NothingLeft(had: map<Path, Stock>, handled: Mind, heard: Heard, eyes: Eyes) {
    forall root :: NothingLeftAt(StockAt(had, root), At(handled, root), root, heard, eyes)
  }

  predicate NothingLeftAt(had: Option<Stock>, was: Local, root: Path, heard: Heard, eyes: Eyes) {
    var now := Reacted(was, root, heard, eyes);
    !(LeftBehind(now, root, eyes) && Concerns(now.watched.value, if now.stocked then had else None, root))
  }

  /** A cache written after a turn accounts for everything, whatever the files turn out to be, exactly when
    no root was left behind with work that may matter. */
  lemma CacheAccountsExactlyWhen(had: map<Path, Stock>, handled: Mind, heard: Heard, eyes: Eyes)
    requires Sane(eyes)
    ensures NothingLeft(had, handled, heard, eyes) <==>
      forall root, other :: SameButFiles(eyes, other) && Sane(other) ==>
        Accounts(StockAt(had, root), At(handled, root), root, heard, other)
  {
    forall root
      ensures NothingLeftAt(StockAt(had, root), At(handled, root), root, heard, eyes) <==>
        forall other :: SameButFiles(eyes, other) && Sane(other) ==>
          Accounts(StockAt(had, root), At(handled, root), root, heard, other)
    {
      RowsAccountExactlyWhen(StockAt(had, root), At(handled, root), root, heard, eyes);
    }
  }

  /** A turn that reaches a checkpoint writes the cache as of it, and the cache then accounts for every change
    heard before, unless a root was left behind: its rows are those it had. */
  method Reach(session: Session, signals: seq<Signal>, hooked: Option<set<Path>>, eyes: Eyes)
    requires session.Rested() && Sane(eyes) && Releases(signals) <= session.live
    requires session.store.Some? && LostEvents !in signals
    requires Latest(signals).Some? && Saves(session.checkpoint, Latest(signals), eyes)
    modifies session`world, session`dirty, session`waiting, session`covered, session`store, session`checkpoint,
             session`live, session`probes, session.pool
    ensures session.Rested() && session.store.Some?
    ensures session.checkpoint == Later(old(session.checkpoint), Latest(signals))
    ensures var had, handled := old(session.pool.stocks), AllHandledIn(old(session.Now()), signals, eyes);
      var heard := Heard(false, Refs(signals), hooked, old(session.covered) && eyes.covers);
      && (CacheAccounts(session.store.value, had, handled, heard, eyes) <==>
          forall root :: Accounts(StockAt(had, root), At(handled, root), root, heard, eyes))
      && (NothingLeft(had, handled, heard, eyes) ==> CacheAccounts(session.store.value, had, handled, heard, eyes))
      && forall root :: LeftBehind(Reacted(At(handled, root), root, heard, eyes), root, eyes) ==>
           HoldsAs(session.store.value, root, KeptStock(StockAt(had, root), Reacted(At(handled, root), root, heard, eyes)))
  {
    ghost var had, handled := session.pool.stocks, AllHandledIn(session.Now(), signals, eyes);
    ghost var heard := Heard(false, Refs(signals), hooked, session.covered && eyes.covers);
    session.Turn(signals, hooked, eyes);
    AccountsAfter(handled, session.Now(), had, session.pool.stocks, heard, eyes);
  }

  lemma AccountsAfter(handled: Mind, after: Mind, had: map<Path, Stock>, has: map<Path, Stock>, heard: Heard, eyes: Eyes)
    requires Sane(eyes) && TurnedTo(handled, after, had, has, heard, eyes)
    ensures CacheAccounts(View(has), had, handled, heard, eyes) <==>
      forall root :: Accounts(StockAt(had, root), At(handled, root), root, heard, eyes)
    ensures NothingLeft(had, handled, heard, eyes) ==> CacheAccounts(View(has), had, handled, heard, eyes)
    ensures forall root :: LeftBehind(Reacted(At(handled, root), root, heard, eyes), root, eyes) ==>
      HoldsAs(View(has), root, KeptStock(StockAt(had, root), Reacted(At(handled, root), root, heard, eyes)))
  {
    forall root
      ensures CacheAccountsAt(View(has), StockAt(had, root), At(handled, root), root, heard, eyes) <==>
        Accounts(StockAt(had, root), At(handled, root), root, heard, eyes)
    {
      CacheFollowsRows(handled, after, had, has, heard, eyes, root);
    }
    if NothingLeft(had, handled, heard, eyes) {
      forall root ensures CacheAccountsAt(View(has), StockAt(had, root), At(handled, root), root, heard, eyes) {
        assert NothingLeftAt(StockAt(had, root), At(handled, root), root, heard, eyes);
        RowsAccount(StockAt(had, root), At(handled, root), root, heard, eyes, eyes);
      }
    }
    forall root | LeftBehind(Reacted(At(handled, root), root, heard, eyes), root, eyes)
      ensures HoldsAs(View(has), root, KeptStock(StockAt(had, root), Reacted(At(handled, root), root, heard, eyes)))
    {
      var now := Reacted(At(handled, root), root, heard, eyes);
      LeftStaysWatched(At(handled, root), root, heard, eyes);
      WorkedOrLeft(StockAt(had, root), At(handled, root), root, heard, eyes);
      assert StockAt(has, root) == StockTurned(StockAt(had, root), At(handled, root), root, heard, eyes);
      ViewHoldsAs(has, root, KeptStock(StockAt(had, root), now));
    }
  }

  lemma LeftStaysWatched(was: Local, root: Path, heard: Heard, eyes: Eyes)
    requires LeftBehind(Reacted(was, root, heard, eyes), root, eyes)
    ensures Turned(was, root, heard, eyes).watched.Some?
  {}

  // ---------- a cache that misses a change ----------

  // "/r"
  const PLACE: Path := [RootDir, Normal([114])]

  const PLACE_FOUND := Watching.Found(Candidate(PLACE, Identity(0, 1)), true)

  const CHANGED_FILE: Path := PLACE + [NEWCOMER]

  const EMPTY_TREE := Directory(0, true, map[])

  /** One watched directory with a tree, and a lock in some state. */
  function Sights(holding: Holding, tree: Node): Eyes {
    Eyes((any: Path) => Some(Survey([])), (any: Path) => None, true, (any: Path) => holding,
         (any: Path) => false, (any: Path) => false, (any: Path) => false,
         (any: Path) => Some(CloneAndSwap), (any: Path) => tree, (any: Path) => (change: Path) => tree,
         (any: Path) => false, map[PLACE := PLACE_FOUND], map[], true)
  }

  lemma OwnerOfFile()
    ensures OwnerIn({PLACE}, Ancestors(CHANGED_FILE)) == Some(PLACE)
  {
    assert CHANGED_FILE[..2] == PLACE;
    assert Parent(CHANGED_FILE) == Some(PLACE);
    assert Ancestors(CHANGED_FILE) == [CHANGED_FILE] + Ancestors(PLACE);
    assert Ancestors(CHANGED_FILE)[0] == CHANGED_FILE;
    assert Ancestors(CHANGED_FILE)[1..] == Ancestors(PLACE) && Ancestors(PLACE)[0] == PLACE;
  }

  lemma NothingInEmpty(root: Path, relative: Path, event: Event)
    ensures Present(EMPTY_TREE, root, relative, event) == map[]
  {
    if relative == [] {
      forall below ensures below !in Listed(EMPTY_TREE, 0) {
        ListedIsFacts(EMPTY_TREE, 0, below);
      }
      assert Shallow(EMPTY_TREE, []) == map[] && Deep(EMPTY_TREE, 0, []) == map[];
    }
  }

  /** Once a file is gone, noting any change of it takes it out. */
  lemma GoneIsNoted(files: Files, changed: Changed, seen: map<Path, Node>)
    requires CHANGED_FILE in changed && changed.Keys <= seen.Keys
    requires forall path :: path in changed ==> seen[path] == EMPTY_TREE
    ensures [NEWCOMER] !in Noted(files, PLACE, changed, seen)
  {
    var order, gone := Ascending(changed.Keys), [NEWCOMER];
    AfterAt(files, PLACE, changed, seen, order, gone);
    AddedAt(files, PLACE, changed, seen, order, gone);
    forall change | change in order && PLACE <= change ensures !FoundAt(PLACE, changed, seen, change, gone) {
      NothingInEmpty(PLACE, change[|PLACE|..], changed[change]);
    }
    assert CHANGED_FILE[|PLACE|..] == gone;
    assert Drops(seen[CHANGED_FILE], CHANGED_FILE[|PLACE|..], changed[CHANGED_FILE], gone);
    assert DroppedBy(PLACE, changed, seen, order, gone);
  }

  lemma HolderIsListed(found: Watching.Found, eyes: Eyes)
    requires eyes == Sights(Holding.Free, Holder(MINIMUM))
    ensures [NEWCOMER] in ListedAfresh(found, eyes).files && ListedAfresh(found, eyes).files[[NEWCOMER]] == FactsOf(MINIMUM)
  {
    HolderLists(MINIMUM);
  }

  /** A session that starts with nothing cached and one directory with one file. */
  method StartWithAFile() returns (session: Session)
    ensures fresh(session) && fresh(session.pool)
    ensures session.Rested() && session.store.Some? && session.checkpoint == Some(1)
    ensures session.world.Keys == {PLACE} && session.waiting == {}
    ensures session.world[PLACE].found.written && PLACE in session.pool.stocks
    ensures Recorded(session.pool.stocks[PLACE].files, [NEWCOMER]) == Some(FactsOf(MINIMUM))
  {
    var eyes := Sights(Holding.Free, Holder(MINIMUM));
    session := new Session(map[], Some(EMPTY_CACHE), Some(1));
    session.Start(map[], eyes);
    StartedWithIt(session.Now(), session.pool.stocks, eyes);
  }

  lemma StartedWithIt(mind: Mind, stocks: map<Path, Stock>, eyes: Eyes)
    requires eyes == Sights(Holding.Free, Holder(MINIMUM))
    requires mind.world.Keys == Staying(eyes).Keys && Minded(mind)
    requires forall root :: StockAt(stocks, root) == Filled(root, Staying(eyes), map[], eyes)
    ensures mind.world.Keys == {PLACE}
    ensures PLACE in stocks && Recorded(stocks[PLACE].files, [NEWCOMER]) == Some(FactsOf(MINIMUM))
  {
    assert Staying(eyes) == map[PLACE := PLACE_FOUND];
    assert StockAt(stocks, PLACE) == Some(ListedAfresh(PLACE_FOUND, eyes));
    HolderIsListed(PLACE_FOUND, eyes);
  }

  /** A session that started with one file, and took in at once that the file changed and that everything up
    to a checkpoint was heard, while the lock was held: the cache is written as of the checkpoint with the
    file in it, although noting the recorded change takes it out. */
  method CacheMissesAChange() returns (session: Session, eyes: Eyes)
    ensures session.Rested() && Sane(eyes) && session.store.Some? && session.checkpoint == Some(2)
    ensures PLACE in session.world && PLACE in session.waiting && CHANGED_FILE in session.world[PLACE].changed
    ensures FileAt(session.store.value, PLACE, [NEWCOMER]) == Some(FactsOf(MINIMUM))
    ensures PLACE in session.pool.stocks
    ensures [NEWCOMER] !in Noted(session.pool.stocks[PLACE].files, PLACE, session.world[PLACE].changed,
                                 SeenAt(eyes, PLACE, session.world[PLACE].changed))
  {
    session := StartWithAFile();
    eyes := Sights(Held, EMPTY_TREE);
    OwnerOfFile();
    HeldWorkIsNotInTheCache(session, PLACE, CHANGED_FILE, 2, eyes);
    var changed := session.world[PLACE].changed;
    GoneIsNoted(session.pool.stocks[PLACE].files, changed, SeenAt(eyes, PLACE, changed));
  }
}
