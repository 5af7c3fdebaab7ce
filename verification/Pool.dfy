/** The sharing pool: the recorded files of every watched root, kept up to date from filesystem events,
  with an index of all of them by length and a journal for the cache. */
module Pools {
  import opened Common
  import opened Paths
  import opened Records
  import opened Inventory
  import opened Noting
  import opened Journals

  type Lengths = map<U64, set<Member>>

  ghost predicate Bucketed(lengths: Lengths, len: U64, member: Member) {
    len in lengths && member in lengths[len]
  }

  ghost predicate NoEmptyBucket(lengths: Lengths) {
    forall len :: len in lengths ==> lengths[len] != {}
  }

  ghost predicate HasLength(files: Files, path: Path, len: U64) {
    path in files && files[path].len == len
  }

  /** A member is in the bucket of its recorded length and in no other. */
  ghost predicate Indexed(lengths: Lengths, stocks: map<Path, Stock>) {
    && NoEmptyBucket(lengths)
    && forall len, member: Member ::
         Bucketed(lengths, len, member) <==>
         member.root in stocks && HasLength(stocks[member.root].files, member.relative, len)
  }

  function AddTo(lengths: Lengths, len: U64, member: Member): Lengths {
    lengths[len := (if len in lengths then lengths[len] else {}) + {member}]
  }

  function TakeFrom(lengths: Lengths, len: U64, member: Member): Lengths {
    if len !in lengths then lengths
    else if lengths[len] - {member} == {} then lengths - {len}
    else lengths[len := lengths[len] - {member}]
  }

  lemma AddToBuckets(lengths: Lengths, len: U64, member: Member)
    requires NoEmptyBucket(lengths)
    ensures NoEmptyBucket(AddTo(lengths, len, member))
    ensures forall l, m: Member :: Bucketed(AddTo(lengths, len, member), l, m) <==>
      Bucketed(lengths, l, m) || (l == len && m == member)
  {}

  lemma TakeFromBuckets(lengths: Lengths, len: U64, member: Member)
    requires NoEmptyBucket(lengths)
    ensures NoEmptyBucket(TakeFrom(lengths, len, member))
    ensures forall l, m: Member :: Bucketed(TakeFrom(lengths, len, member), l, m) <==>
      Bucketed(lengths, l, m) && !(l == len && m == member)
  {
    if len in lengths {
      assert forall m :: m in lengths[len] ==> m == member || m in lengths[len] - {member};
    }
  }

  /** The index gained exactly the files of one root. */
  ghost predicate Grown(before: Lengths, after: Lengths, root: Path, files: Files) {
    && NoEmptyBucket(after)
    && forall len, member: Member :: Bucketed(after, len, member) <==>
         Bucketed(before, len, member) || (member.root == root && HasLength(files, member.relative, len))
  }

  /** The index lost exactly the files of one root. */
  ghost predicate Shrunk(before: Lengths, after: Lengths, root: Path, files: Files) {
    && NoEmptyBucket(after)
    && forall len, member: Member :: Bucketed(after, len, member) <==>
         Bucketed(before, len, member) && !(member.root == root && HasLength(files, member.relative, len))
  }

  lemma IndexWithout(before: Lengths, after: Lengths, stocks: map<Path, Stock>, root: Path)
    requires Indexed(before, stocks) && root in stocks
    requires Shrunk(before, after, root, stocks[root].files)
    ensures Indexed(after, stocks - {root})
  {}

  lemma IndexWith(before: Lengths, after: Lengths, stocks: map<Path, Stock>, root: Path, stock: Stock)
    requires Indexed(before, stocks) && root !in stocks
    requires Grown(before, after, root, stock.files)
    ensures Indexed(after, stocks[root := stock])
  {}

  /** Updating one root in place keeps the index right because nothing added survived the removal. */
  lemma IndexUpdated(before: Lengths, between: Lengths, after: Lengths, stocks: map<Path, Stock>,
                     root: Path, removed: Files, added: Files, files: Files)
    requires Indexed(before, stocks) && root in stocks
    requires Shrunk(before, between, root, removed) && Grown(between, after, root, added)
    requires forall path :: path in removed ==> Recorded(stocks[root].files, path) == Some(removed[path])
    requires forall path :: path in added ==> path !in stocks[root].files || path in removed
    requires forall path :: Recorded(files, path) == AfterNote(stocks[root].files, removed, added, path)
    ensures Indexed(after, stocks[root := stocks[root].(files := files)])
  {
    forall len, relative
      ensures HasLength(files, relative, len) <==>
        (HasLength(stocks[root].files, relative, len) && !HasLength(removed, relative, len)) || HasLength(added, relative, len)
    {
      assert Recorded(files, relative) == AfterNote(stocks[root].files, removed, added, relative);
    }
  }

  // ---------- identities that are new ----------

  /** The identities of the files in iteration order that were not known, each with a recorded length. */
  function Freshened(order: seq<Path>, files: Files, known: set<Identity>): map<Identity, U64>
    requires forall path :: path in order ==> path in files
  {
    if order == [] then map[] else
      var rest, facts := Freshened(order[..|order| - 1], files, known), files[order[|order| - 1]];
      if facts.identity in known then rest else rest[facts.identity := facts.len]
  }

  lemma FreshenedGrows(order: seq<Path>, i: nat, files: Files, known: set<Identity>)
    requires i < |order| && forall path :: path in order ==> path in files
    ensures var rest, facts := Freshened(order[..i], files, known), files[order[i]];
      Freshened(order[..i + 1], files, known) ==
      if facts.identity in known then rest else rest[facts.identity := facts.len]
  {
    assert order[..i + 1][..i] == order[..i];
  }

  function Identities(files: Files): set<Identity> {
    set path | path in files :: files[path].identity
  }

  ghost predicate NamesFile(files: Files, path: Path, identity: Identity, len: U64) {
    path in files && files[path].identity == identity && files[path].len == len
  }

  /** Exactly the unknown identities are novel, and each comes with the length of a file that has it. */
  lemma {:induction false} FreshenedMeaning(order: seq<Path>, files: Files, known: set<Identity>)
    requires forall path :: path in order ==> path in files
    ensures var novel := Freshened(order, files, known);
      && (forall path :: path in order && files[path].identity !in known ==> files[path].identity in novel)
      && (forall identity :: identity in novel ==>
            identity !in known && exists path :: path in order && NamesFile(files, path, identity, novel[identity]))
  {
    if order != [] {
      var rest, path := order[..|order| - 1], order[|order| - 1];
      FreshenedMeaning(rest, files, known);
      assert order == rest + [path];
      assert NamesFile(files, path, files[path].identity, files[path].len);
    }
  }

  method FreshIdentities(files: Files, known: set<Identity>) returns (novel: map<Identity, U64>)
    ensures novel == Freshened(Ascending(files.Keys), files, known)
  {
    var order := Ascending(files.Keys);
    novel := map[];
    for i := 0 to |order|
      invariant novel == Freshened(order[..i], files, known)
    {
      FreshenedGrows(order, i, files, known);
      assert order[i] in order;
      var facts := files[order[i]];
      if facts.identity !in known {
        novel := novel[facts.identity := facts.len];
      }
    }
    assert order[..|order|] == order;
  }

  lemma OnlyGrows(removed: Files, files: Files, gone: set<Path>, path: Path)
    requires path in files
    ensures (removed + Only(files, gone))[path := files[path]] == removed + Only(files, gone + {path})
  {}

  /** One change's removals: the recorded paths at or below it, found by a range query, that it speaks for. */
  method TakeOut(files: Files, removed: Files, relative: Path, drops: Path -> bool)
    returns (left: Files, taken: Files)
    requires forall path :: drops(path) ==> relative <= path
    ensures left == files - Selected(files, drops)
    ensures taken == removed + Only(files, Selected(files, drops))
  {
    left, taken := files, removed;
    var below := RecordedBelow(files, relative);
    for i := 0 to |below|
      invariant left == files - SpokenFor(below[..i], drops)
      invariant taken == removed + Only(files, SpokenFor(below[..i], drops))
    {
      assert below[i] in below;
      OneMoreSpokenFor(below, drops, i);
      if drops(below[i]) && below[i] in left {
        OnlyGrows(removed, files, SpokenFor(below[..i], drops), below[i]);
        TakenAway(files, SpokenFor(below[..i], drops), below[i]);
        taken := taken[below[i] := left[below[i]]];
        left := left - {below[i]};
      }
    }
    AllSpokenFor(files, relative, below, drops);
  }

  /** The recorded paths at or below a path, in order, by the range query. */
  method RecordedBelow(files: Files, relative: Path) returns (below: seq<Path>)
    ensures forall path :: path in below <==> path in files && relative <= path
  {
    below := Below(files.Keys, relative);
    BelowIsPrefixFilter(files.Keys, relative);
  }

  lemma TakenAway(files: Files, gone: set<Path>, path: Path)
    ensures files - gone - {path} == files - (gone + {path})
  {}

  lemma AllSpokenFor(files: Files, relative: Path, below: seq<Path>, drops: Path -> bool)
    requires forall path :: path in below <==> path in files && relative <= path
    requires forall path :: drops(path) ==> relative <= path
    ensures SpokenFor(below[..|below|], drops) == Selected(files, drops)
  {
    assert below[..|below|] == below;
  }

  function SpokenFor(paths: seq<Path>, drops: Path -> bool): set<Path> {
    set path | path in paths && drops(path)
  }

  lemma OneMoreSpokenFor(paths: seq<Path>, drops: Path -> bool, i: nat)
    requires i < |paths|
    ensures drops(paths[i]) ==> SpokenFor(paths[..i + 1], drops) == SpokenFor(paths[..i], drops) + {paths[i]}
    ensures !drops(paths[i]) || paths[i] in SpokenFor(paths[..i], drops) ==>
      SpokenFor(paths[..i + 1], drops) == SpokenFor(paths[..i], drops)
  {
    assert paths[..i + 1] == paths[..i] + [paths[i]];
  }

  method LookUpOne(before: Progress, tree: Node, root: Path, relative: Path, event: Event) returns (progress: Progress)
    ensures progress == Step(before, Dropper(tree, relative, event), Present(tree, root, relative, event))
  {
    var files, removed := TakeOut(before.files, before.removed, relative, Dropper(tree, relative, event));
    progress := Progress(files, removed, before.added + Present(tree, root, relative, event));
  }

  /** The loop of `note` over the changes, in the order given. */
  method LookUp(recorded: Files, root: Path, changed: Changed, seen: map<Path, Node>, order: seq<Path>)
    returns (progress: Progress)
    requires forall path :: path in order ==> path in changed && path in seen
    ensures progress == After(recorded, root, changed, seen, order)
  {
    progress := Progress(recorded, map[], map[]);
    var todo := order;
    ghost var done: seq<Path> := [];
    while todo != []
      invariant done + todo == order
      invariant forall path :: path in done ==> path in order
      invariant progress == After(recorded, root, changed, seen, done)
    {
      var path := todo[0];
      assert path in order;
      AfterOneMore(recorded, root, changed, seen, done, path);
      if root <= path {
        progress := LookUpOne(progress, seen[path], root, path[|root|..], changed[path]);
      }
      done, todo := done + [path], todo[1..];
    }
    assert done == order;
  }

  function Before(progress: Progress, path: Path): Option<FileFacts> {
    if path in progress.removed then Some(progress.removed[path]) else Recorded(progress.files, path)
  }

  /** The progress of a note over these recorded files: what was taken out is no longer recorded, and what
      is added was taken out or never recorded. */
  ghost predicate Consistent(recorded: Files, progress: Progress) {
    && (forall path :: Recorded(recorded, path) == Before(progress, path))
    && (forall path :: path in progress.removed ==> Recorded(progress.files, path) == None)
    && progress.files.Keys !! progress.added.Keys
  }

  /** What `stock` records: the walk's files when the gate admits the root and the walk succeeds. */
  ghost function Listing(candidate: Candidate, admitted: Option<Method>, tree: Node): Stock {
    if admitted.Some? && tree.Directory? && Readable(tree, tree.device) then
      Journals.Stock(candidate, Admitted(|Fresh(tree)|, |Unreadables(tree, tree.device)|), admitted, Fresh(tree))
    else Journals.Stock(candidate, Rejected, None, map[])
  }

  /** The listing `stock` makes: the gate's answer and the walk. */
  method ListRoot(candidate: Candidate, admitted: Option<Method>, tree: Node) returns (stock: Stock)
    ensures stock == Listing(candidate, admitted, tree)
  {
    if admitted.None? || !tree.Directory? {
      return Journals.Stock(candidate, Rejected, None, map[]);
    }
    var found := InventoryUnder(tree, tree.device);
    match found {
      case None => return Journals.Stock(candidate, Rejected, None, map[]);
      case Some(listed) =>
        return Journals.Stock(candidate, Admitted(|listed.files|, listed.unreadable), admitted, listed.files);
    }
  }

  function KnownIn(stocks: map<Path, Stock>, root: Path): set<Identity> {
    if root in stocks then Identities(stocks[root].files) else {}
  }

  /** The rows the cache holds for one root. */
  datatype CachedStock = CachedStock(root: Path, identity: Identity, unreadable: nat, files: Files)

  function Remembered(cached: CachedStock, admitted: Option<Method>): Stock {
    Journals.Stock(Candidate(cached.root, cached.identity), Admitted(|cached.files|, cached.unreadable), admitted, cached.files)
  }

  class Pool {
    var stocks: map<Path, Stock>
    var lengths: Lengths
    var journal: Journal
    ghost var committed: Cache
    ghost var waiting: set<Path>

    ghost predicate Valid()
      reads this
    {
      && Indexed(lengths, stocks)
      && Journaled(stocks, committed, journal, waiting)
    }

    /** An empty pool beside a cache an earlier session may have left. */
    constructor (ghost cached: Cache)
      requires forall member :: member in cached.files ==> member.root in cached.roots
      ensures Valid()
      ensures stocks == map[] && committed == cached && waiting == cached.roots.Keys
    {
      stocks, lengths, journal := map[], map[], EMPTY_JOURNAL;
      committed, waiting := cached, cached.roots.Keys;
      new;
      forall root ensures JournaledAt(stocks, committed, journal, waiting, root) {
      }
    }

    method Index(root: Path, files: Files)
      modifies this`lengths
      requires NoEmptyBucket(lengths)
      ensures Grown(old(lengths), lengths, root, files)
    {
      var todo := files.Keys;
      while todo != {}
        invariant todo <= files.Keys
        invariant NoEmptyBucket(lengths)
        invariant forall len, member: Member :: Bucketed(lengths, len, member) <==>
          || Bucketed(old(lengths), len, member)
          || (member.root == root && member.relative !in todo && HasLength(files, member.relative, len))
      {
        var relative :| relative in todo;
        todo := todo - {relative};
        AddToBuckets(lengths, files[relative].len, Member(root, relative));
        lengths := AddTo(lengths, files[relative].len, Member(root, relative));
      }
    }

    method Unindex(root: Path, files: Files)
      modifies this`lengths
      requires NoEmptyBucket(lengths)
      ensures Shrunk(old(lengths), lengths, root, files)
    {
      var todo := files.Keys;
      while todo != {}
        invariant todo <= files.Keys
        invariant NoEmptyBucket(lengths)
        invariant forall len, member: Member :: Bucketed(lengths, len, member) <==>
          && Bucketed(old(lengths), len, member)
          && !(member.root == root && member.relative !in todo && HasLength(files, member.relative, len))
      {
        var relative :| relative in todo;
        todo := todo - {relative};
        TakeFromBuckets(lengths, files[relative].len, Member(root, relative));
        lengths := TakeFrom(lengths, files[relative].len, Member(root, relative));
      }
    }

    /** Take a root out of the pool and of the index. */
    method Take(root: Path)
      requires Indexed(lengths, stocks) && root in stocks
      modifies this`lengths, this`stocks
      ensures Indexed(lengths, stocks)
      ensures stocks == old(stocks) - {root}
    {
      Unindex(root, stocks[root].files);
      IndexWithout(old(lengths), lengths, stocks, root);
      stocks := stocks - {root};
    }

    /** Put a root into the pool and into the index. */
    method Put(root: Path, stock: Stock)
      requires Indexed(lengths, stocks) && root !in stocks
      modifies this`lengths, this`stocks
      ensures Indexed(lengths, stocks)
      ensures stocks == old(stocks)[root := stock]
    {
      Index(root, stock.files);
      IndexWith(old(lengths), lengths, stocks, root, stock);
      stocks := stocks[root := stock];
    }

    /** Write a root's row and files to the journal in place of whatever it said before. */
    method WriteRoot(root: Path, stock: Stock)
      requires OthersJournaled(stocks, committed, journal, waiting, root)
      modifies this`journal, this`waiting
      ensures Journaled(stocks[root := stock], committed, journal, waiting)
      ensures waiting == old(waiting) - {root}
    {
      ReplaceIsJournaled(stocks, committed, journal, waiting, root, stock);
      journal := Replaced(journal, root, Row(stock), stock.files);
      waiting := waiting - {root};
    }

    /** Leave a root's rows in the cache as they are. */
    method KeepRoot(root: Path, stock: Stock)
      requires Journaled(stocks, committed, journal, waiting)
      requires root in waiting && Holds(committed, root, stock)
      modifies this`waiting
      ensures Journaled(stocks[root := stock], committed, journal, waiting)
      ensures waiting == old(waiting) - {root}
    {
      RestoreIsJournaled(stocks, committed, journal, waiting, root, stock);
      waiting := waiting - {root};
    }

    /** Take a root out of the pool, if it is there. */
    method Remove(root: Path)
      requires Indexed(lengths, stocks)
      modifies this`lengths, this`stocks
      ensures Indexed(lengths, stocks)
      ensures stocks == old(stocks) - {root}
    {
      if root in stocks {
        Take(root);
      }
    }

    /** Put a root into the pool, the index and the journal in place of whatever was there before. */
    method Replace(root: Path, stock: Stock)
      requires Valid()
      modifies this
      ensures Valid()
      ensures committed == old(committed) && waiting == old(waiting) - {root}
      ensures stocks == old(stocks)[root := stock]
    {
      WithoutStock(stocks, committed, journal, waiting, root);
      Remove(root);
      WriteRoot(root, stock);
      Put(root, stock);
    }

    /** `stock`: list a root afresh.  `admitted` is how its files may be shared, if the gate lets them. */
    method Stock(candidate: Candidate, admitted: Option<Method>, tree: Node) returns (novel: map<Identity, U64>)
      requires Valid()
      modifies this
      ensures Valid()
      ensures committed == old(committed) && waiting == old(waiting) - {candidate.path}
      ensures stocks == old(stocks)[candidate.path := Listing(candidate, admitted, tree)]
      ensures
        var files := Listing(candidate, admitted, tree).files;
        novel == Freshened(Ascending(files.Keys), files, KnownIn(old(stocks), candidate.path))
    {
      var root := candidate.path;
      var known := KnownIn(stocks, root);
      var stock := ListRoot(candidate, admitted, tree);
      novel := FreshIdentities(stock.files, known);
      Replace(root, stock);
    }

    /** Replace the files of one root in place, in the pool and the index. */
    method Reindex(root: Path, progress: Progress)
      requires Indexed(lengths, stocks) && root in stocks && Consistent(stocks[root].files, progress)
      modifies this`lengths, this`stocks
      ensures Indexed(lengths, stocks)
      ensures stocks == old(stocks)[root := old(stocks)[root].(files := progress.files + progress.added)]
    {
      var files := progress.files + progress.added;
      forall path
        ensures path in progress.removed ==> Recorded(stocks[root].files, path) == Some(progress.removed[path])
        ensures path in progress.added && path in stocks[root].files ==> path in progress.removed
        ensures Recorded(files, path) == AfterNote(stocks[root].files, progress.removed, progress.added, path)
      {
        assert Recorded(stocks[root].files, path) == Before(progress, path);
      }
      Unindex(root, progress.removed);
      label indexing:
      Index(root, progress.added);
      IndexUpdated(old(lengths), old@indexing(lengths), lengths, stocks, root, progress.removed, progress.added, files);
      stocks := stocks[root := stocks[root].(files := files)];
    }

    /** Write what changed in one root to the journal. */
    method WriteChanges(root: Path, progress: Progress)
      requires Journaled(stocks, committed, journal, waiting)
      requires root in stocks && Consistent(stocks[root].files, progress)
      modifies this`journal
      ensures Journaled(stocks[root := stocks[root].(files := progress.files + progress.added)], committed, journal, waiting)
    {
      NoteIsJournaled(stocks, committed, journal, waiting, root, progress.removed, progress.added,
                      progress.files + progress.added);
      journal := NotedIn(journal, root, progress.removed, progress.added);
    }

    /** `note`: bring one root up to date from what changed in it.  `seen` is the tree as it was when each
        change was looked up. */
    method Note(root: Path, changed: Changed, seen: map<Path, Node>) returns (novel: map<Identity, U64>)
      requires Valid()
      requires changed.Keys <= seen.Keys && forall path :: path in seen ==> Named(seen[path])
      modifies this
      ensures Valid()
      ensures committed == old(committed) && waiting == old(waiting)
      ensures root !in old(stocks) || old(stocks)[root].via.None? ==>
        stocks == old(stocks) && lengths == old(lengths) && journal == old(journal) && novel == map[]
      ensures root in old(stocks) && old(stocks)[root].via.Some? ==>
        var files := old(stocks)[root].files;
        var progress := After(files, root, changed, seen, Ascending(changed.Keys));
        && stocks == old(stocks)[root := old(stocks)[root].(files := Noted(files, root, changed, seen))]
        && novel == Freshened(Ascending(progress.added.Keys), progress.added, Identities(progress.removed))
    {
      if root !in stocks || stocks[root].via.None? {
        return map[];
      }
      var progress := LookUp(stocks[root].files, root, changed, seen, Ascending(changed.Keys));
      novel := FreshIdentities(progress.added, Identities(progress.removed));
      AddedWasNotKept(stocks[root].files, root, changed, seen, Ascending(changed.Keys));
      forall path
        ensures Recorded(stocks[root].files, path) == Before(progress, path)
        ensures path in progress.removed ==> Recorded(progress.files, path) == None
      {
        AfterAt(stocks[root].files, root, changed, seen, Ascending(changed.Keys), path);
      }
      WriteChanges(root, progress);
      Reindex(root, progress);
    }

    /** `forget`: drop a root, and clear it from the cache whether or not it was in the pool. */
    method Forget(root: Path)
      requires Valid()
      modifies this
      ensures Valid()
      ensures stocks == old(stocks) - {root}
      ensures committed == old(committed) && waiting == old(waiting) - {root}
    {
      ForgetIsJournaled(stocks, committed, journal, waiting, root);
      if root in stocks {
        Take(root);
      }
      journal := Forgotten(journal, root);
      waiting := waiting - {root};
      assert stocks == old(stocks) - {root};
    }

    /** `restore`: take over a root from the rows the cache holds for it, unless the directory was replaced. */
    method Restore(candidate: Candidate, cached: CachedStock, admitted: Option<Method>) returns (restored: bool)
      requires Valid()
      requires cached.root in waiting && Holds(committed, cached.root, Remembered(cached, None))
      modifies this
      ensures Valid()
      ensures committed == old(committed)
      ensures restored <==> cached.root == candidate.path && cached.identity == candidate.identity
      ensures !restored ==> stocks == old(stocks) && waiting == old(waiting) && journal == old(journal)
      ensures restored ==> waiting == old(waiting) - {candidate.path}
      ensures restored ==> stocks == old(stocks)[candidate.path :=
        if admitted.Some? then Remembered(cached, admitted) else Journals.Stock(candidate, Rejected, None, map[])]
    {
      var root := candidate.path;
      assert JournaledAt(stocks, committed, journal, waiting, cached.root);
      if cached.root != root || cached.identity != candidate.identity {
        return false;
      }
      var stock := if admitted.Some? then Remembered(cached, admitted) else Journals.Stock(candidate, Rejected, None, map[]);
      if admitted.None? {
        WriteRoot(root, stock);
      } else {
        KeepRoot(root, stock);
      }
      Put(root, stock);
      return true;
    }

    /** `changes`, written to the cache: hand over the journal and start a new one. */
    method Changes() returns (changes: Journal)
      requires Valid()
      modifies this`journal, this`committed
      ensures Valid() && journal == EMPTY_JOURNAL
      ensures changes == old(journal) && committed == Replayed(old(committed), changes)
      ensures waiting == {} ==> committed == View(stocks)
    {
      changes := journal;
      CommitIsJournaled(stocks, committed, journal, waiting);
      if waiting == {} {
        ReplayGivesThePool(stocks, committed, journal);
      }
      journal := EMPTY_JOURNAL;
      committed := Replayed(committed, changes);
    }
  }
}
