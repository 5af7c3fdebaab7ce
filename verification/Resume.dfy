/** From the session's cache to the cache file and back: when what was written is accepted by the next start. */
module Resuming {
  import opened Common
  import opened Paths
  import opened Records
  import opened Inventory
  import opened Noting
  import opened Journals
  import opened Pools
  import opened Watching
  import CacheFile

  // ---------- when the cache is accepted ----------

  /** A recorded file is one the cache accepts, on its root's volume. */
  predicate Proper(root: Candidate, facts: FileFacts) {
    CacheFile.Acceptable(facts) && facts.identity.volume == root.identity.volume
  }

  ghost predicate AllProper(root: Candidate, files: Files) {
    forall path :: path in files ==> Proper(root, files[path])
  }

  /** The cache that describes the pool is accepted exactly when every recorded file is proper. */
  lemma ViewIsSoundExactlyWhen(stocks: map<Path, Stock>)
    ensures CacheFile.Sound(View(stocks)) <==>
      forall root :: root in stocks ==> AllProper(stocks[root].candidate, stocks[root].files)
  {
    var view := View(stocks);
    if CacheFile.Sound(view) {
      forall root, path | root in stocks && path in stocks[root].files
        ensures Proper(stocks[root].candidate, stocks[root].files[path])
      {
        assert Member(root, path) in view.files;
      }
    }
    if forall root :: root in stocks ==> AllProper(stocks[root].candidate, stocks[root].files) {
      forall member | member in view.files
        ensures CacheFile.Acceptable(view.files[member]) && member.root in view.roots
        ensures view.files[member].identity.volume == view.roots[member.root].identity.volume
      {
        assert AllProper(stocks[member.root].candidate, stocks[member.root].files);
      }
    }
  }

  /** Whatever a walk of the tree lists is proper: it is the root's volume that is on the root's device. */
  ghost predicate OfOneVolume(root: Candidate, tree: Node)
    requires tree.Directory?
  {
    forall path :: FactsAt(tree, tree.device, path).Some? ==> Proper(root, FactsAt(tree, tree.device, path).value)
  }

  lemma ListingIsProper(candidate: Candidate, admitted: Option<Method>, tree: Node)
    requires tree.Directory? ==> OfOneVolume(candidate, tree)
    ensures AllProper(candidate, Listing(candidate, admitted, tree).files)
  {
    var listing := Listing(candidate, admitted, tree);
    forall path | path in listing.files ensures Proper(candidate, listing.files[path]) {
      ListedIsFacts(tree, tree.device, path);
    }
  }

  /** Noting keeps every recorded file proper as long as no change lies beyond a mount point. */
  lemma NotedIsProper(candidate: Candidate, files: Files, tree: Node, root: Path, changed: Changed)
    requires tree.Directory? && OfOneVolume(candidate, tree) && StaysOnDevice(tree, root, changed)
    requires AllProper(candidate, files)
    ensures AllProper(candidate, Noted(files, root, changed, Steady(tree, changed)))
  {
    var seen, order := Steady(tree, changed), Ascending(changed.Keys);
    var noted := Noted(files, root, changed, seen);
    forall path | path in noted ensures Proper(candidate, noted[path]) {
      AfterAt(files, root, changed, seen, order, path);
      AddedAt(files, root, changed, seen, order, path);
      var added := After(files, root, changed, seen, order).added;
      if path in added {
        var change :| change in order && FoundAt(root, changed, seen, change, path)
          && added[path] == Present(tree, root, change[|root|..], changed[change])[path];
        ListsMeansPresent(tree, root, change[|root|..], changed[change]);
        PresentIsFresh(tree, root, change[|root|..], changed[change], path);
      } else {
        assert Recorded(After(files, root, changed, seen, order).files, path) == Recorded(files, path);
      }
    }
  }

  /** A mount that appears below a root brings in files of another volume, and the cache is then refused. */
  lemma MountedFilesAreRefused(root: Path, identity: Identity, admission: Admission, via: Method)
    requires identity.volume != 2
    ensures
      var changed: Changed := map[root + [Normal([109])] := Appeared];
      var noted := Noted(map[], root, changed, Steady(MOUNT_TREE, changed));
      !CacheFile.Sound(View(map[root := Journals.Stock(Candidate(root, identity), admission, Some(via), noted)]))
  {
    var mount := Normal([109]);
    var change := root + [mount];
    var changed: Changed := map[change := Appeared];
    var noted := Noted(map[], root, changed, Steady(MOUNT_TREE, changed));
    var stocks := map[root := Journals.Stock(Candidate(root, identity), admission, Some(via), noted)];
    MountIsNoted(root);
    ViewIsSoundExactlyWhen(stocks);
    var path := [mount] + [Normal([102])];
    assert !Proper(stocks[root].candidate, noted[path]);
    assert !AllProper(stocks[root].candidate, stocks[root].files);
  }

  // ---------- through the cache file ----------

  method Rewrite(tables: CacheFile.Tables, checkpoint: U64, journal: Journal, ghost cache: Cache, ghost view: Cache)
    returns (written: Result<CacheFile.Tables, CacheFile.Error>,
             loaded: Result<Option<CacheFile.Loaded>, CacheFile.Error>)
    requires CacheFile.Represents(tables, cache) && CacheFile.PlainJournal(journal) && view == Replayed(cache, journal)
    ensures written.Ok? <==> Resumable(checkpoint) && CacheFile.Fits(journal)
    ensures written.Ok? ==> CacheFile.Represents(written.value, view)
    ensures written.Ok? ==>
      loaded == if CacheFile.Sound(view) then Ok(Some(CacheFile.Loaded(checkpoint, view))) else Err(CacheFile.Malformed)
  {
    written := CacheFile.Commit(tables, checkpoint, journal, cache);
    loaded := Ok(None);
    if written.Ok? {
      loaded := CacheFile.Load(written.value, view);
    }
  }

  /** Writing the session's cache to its tables, and loading it at the next start: the tables come to hold what
    the session keeps as its cache, the write fails exactly when the session gives the cache up, and what is
    loaded is the pool, unless some recorded file is not proper. */
  method WriteAndLoad(session: Session, tables: CacheFile.Tables, eyes: Eyes)
    returns (written: Result<CacheFile.Tables, CacheFile.Error>,
             loaded: Result<Option<CacheFile.Loaded>, CacheFile.Error>)
    requires session.Stored() && session.store.Some? && session.checkpoint.value <= U64_MAX
    requires CacheFile.Represents(tables, session.store.value) && CacheFile.PlainJournal(session.pool.journal)
    requires eyes.saves <==> CacheFile.Fits(session.pool.journal)
    modifies session`store, session`checkpoint, session.pool
    ensures session.Stored() && session.pool.stocks == old(session.pool.stocks)
    ensures written.Ok? <==> session.store.Some?
    ensures written.Ok? ==> session.checkpoint == old(session.checkpoint)
    ensures written.Ok? ==> CacheFile.Represents(written.value, session.store.value)
    ensures written.Ok? ==>
      loaded == if CacheFile.Sound(View(session.pool.stocks))
                then Ok(Some(CacheFile.Loaded(old(session.checkpoint.value), View(session.pool.stocks))))
                else Err(CacheFile.Malformed)
  {
    var journal, checkpoint: U64 := session.pool.journal, session.checkpoint.value;
    ghost var cache := session.store.value;
    ReplayGivesThePool(session.pool.stocks, session.pool.committed, journal);
    session.Persist(eyes);
    written, loaded := Rewrite(tables, checkpoint, journal, cache, View(session.pool.stocks));
  }
}
