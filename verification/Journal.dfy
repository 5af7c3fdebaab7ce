/** The watcher's cache and the journal of inventory changes since it was last written.

  `WatchCache::commit` replays the journal on the cache.  `committed` is what the cache held after the
  last commit, and `waiting` the cached roots of an earlier session the pool has not taken over yet.
 */
module Journals {
  import opened Common
  import opened Paths
  import opened Records
  import opened Inventory
  import opened Noting

  /** A file of the pool: the root it is recorded under and its path inside that root. */
  datatype Member = Member(root: Path, relative: Path)

  datatype Candidate = Candidate(path: Path, identity: Identity)

  datatype Admission = Admitted(files: nat, unreadable: nat) | Rejected

  datatype Stock = Stock(candidate: Candidate, admission: Admission, via: Option<Method>, files: Files)

  // ---------- the cache and the journal ----------

  datatype RootRow = RootRow(identity: Identity, unreadable: nat)

  datatype Cache = Cache(roots: map<Path, RootRow>, files: map<Member, FileFacts>)

  datatype Journal = Journal(cleared: set<Path>, roots: map<Path, RootRow>, files: map<Member, Option<FileFacts>>)

  const EMPTY_JOURNAL := Journal({}, map[], map[])
  const EMPTY_CACHE := Cache(map[], map[])

  /** Committing a journal: clear the cleared roots with all their files, then write the root rows, then
      write or remove the file rows. */
  function Replayed(cache: Cache, journal: Journal): Cache {
    Cache(
      (cache.roots - journal.cleared) + journal.roots,
      map member | member in cache.files.Keys + journal.files.Keys &&
        (if member in journal.files then journal.files[member].Some? else member.root !in journal.cleared)
      :: if member in journal.files then journal.files[member].value else cache.files[member])
  }

  function Row(stock: Stock): RootRow {
    RootRow(stock.candidate.identity, if stock.admission.Admitted? then stock.admission.unreadable else 0)
  }

  /** The row of a root: its identity, and how many files could not be read, none unless it was admitted. */
  lemma RowMeans(stock: Stock)
    ensures Row(stock).identity == stock.candidate.identity
    ensures Row(stock).unreadable == match stock.admission case Admitted(_, unreadable) => unreadable case Rejected => 0
  {}

  function Members(stocks: map<Path, Stock>): set<Member> {
    set root, relative | root in stocks && relative in stocks[root].files :: Member(root, relative)
  }

  /** The cache that describes the pool exactly. */
  function View(stocks: map<Path, Stock>): Cache {
    Cache(map root | root in stocks :: Row(stocks[root]),
          map member | member in Members(stocks) :: stocks[member.root].files[member.relative])
  }

  function FileRows(root: Path, files: Files): map<Member, Option<FileFacts>> {
    map member | member in (set relative | relative in files :: Member(root, relative)) :: Some(files[member.relative])
  }

  function Nothing(member: Member): Option<FileFacts> { None }

  function Removals(root: Path, files: Files): map<Member, Option<FileFacts>> {
    map member | member in (set relative | relative in files :: Member(root, relative)) :: Nothing(member)
  }

  function OtherRoots(rows: map<Member, Option<FileFacts>>, root: Path): map<Member, Option<FileFacts>> {
    map member | member in rows && member.root != root :: rows[member]
  }

  function FileAt(cache: Cache, root: Path, relative: Path): Option<FileFacts> {
    var member := Member(root, relative);
    if member in cache.files then Some(cache.files[member]) else None
  }

  function RootAt(cache: Cache, root: Path): Option<RootRow> {
    if root in cache.roots then Some(cache.roots[root]) else None
  }

  /** The cache holds this root as the stock records it. */
  ghost predicate Holds(cache: Cache, root: Path, stock: Stock) {
    && RootAt(cache, root) == Some(Row(stock))
    && forall relative :: FileAt(cache, root, relative) == Recorded(stock.files, relative)
  }

  /** The cache holds nothing of this root. */
  ghost predicate Lacks(cache: Cache, root: Path) {
    RootAt(cache, root) == None && forall relative :: FileAt(cache, root, relative) == None
  }

  /** The journal says nothing about this root. */
  ghost predicate Silent(journal: Journal, root: Path) {
    root !in journal.cleared && root !in journal.roots && forall member :: member in journal.files ==> member.root != root
  }

  /** The cache, with the journal replayed on it, holds of this root what the pool does; a root that is still
    waiting is not in the pool, and the journal is silent about it. */
  ghost predicate JournaledAt(stocks: map<Path, Stock>, committed: Cache, journal: Journal, waiting: set<Path>, root: Path) {
    if root in waiting then root !in stocks && Silent(journal, root)
    else if root in stocks then Holds(Replayed(committed, journal), root, stocks[root])
    else Lacks(Replayed(committed, journal), root)
  }

  ghost predicate Journaled(stocks: map<Path, Stock>, committed: Cache, journal: Journal, waiting: set<Path>) {
    forall root :: JournaledAt(stocks, committed, journal, waiting, root)
  }

  /** Once every cached root has been taken over, replaying the journal gives exactly the pool. */
  lemma ReplayGivesThePool(stocks: map<Path, Stock>, committed: Cache, journal: Journal)
    requires Journaled(stocks, committed, journal, {})
    ensures Replayed(committed, journal) == View(stocks)
  {
    var replayed, view := Replayed(committed, journal), View(stocks);
    forall root ensures RootAt(replayed, root) == RootAt(view, root) {
      assert JournaledAt(stocks, committed, journal, {}, root);
    }
    forall root, relative ensures FileAt(replayed, root, relative) == FileAt(view, root, relative) {
      assert JournaledAt(stocks, committed, journal, {}, root);
    }
    SameRowsSameCache(replayed, view);
  }

  /** The cache that describes the pool holds each of its roots, with the rows of that root's stock only. */
  lemma ViewHolds(stocks: map<Path, Stock>, root: Path)
    requires root in stocks
    ensures Holds(View(stocks), root, stocks[root])
  {
    forall relative ensures FileAt(View(stocks), root, relative) == Recorded(stocks[root].files, relative) {
      assert Member(root, relative) in Members(stocks) <==> relative in stocks[root].files;
    }
  }

  lemma SameRowsSameCache(left: Cache, right: Cache)
    requires forall root :: RootAt(left, root) == RootAt(right, root)
    requires forall root, relative :: FileAt(left, root, relative) == FileAt(right, root, relative)
    ensures left == right
  {
    forall root
      ensures root in left.roots <==> root in right.roots
      ensures root in left.roots ==> left.roots[root] == right.roots[root]
    {
      assert RootAt(left, root) == RootAt(right, root);
    }
    assert left.roots == right.roots;
    forall member: Member
      ensures member in left.files <==> member in right.files
      ensures member in left.files ==> left.files[member] == right.files[member]
    {
      assert FileAt(left, member.root, member.relative) == FileAt(right, member.root, member.relative);
    }
    assert left.files == right.files;
  }

  // ---------- what each operation writes to the journal ----------

  /** `replace_cached` */
  function Replaced(journal: Journal, root: Path, row: RootRow, files: Files): Journal {
    Journal(journal.cleared + {root}, journal.roots[root := row],
            OtherRoots(journal.files, root) + FileRows(root, files))
  }

  /** `forget_cached` */
  function Forgotten(journal: Journal, root: Path): Journal {
    Journal(journal.cleared + {root}, journal.roots - {root}, OtherRoots(journal.files, root))
  }

  /** `note_cached` */
  function NotedIn(journal: Journal, root: Path, removed: Files, added: Files): Journal {
    journal.(files := journal.files + Removals(root, removed) + FileRows(root, added))
  }

  /** Two caches agree about one root. */
  ghost predicate SameAt(left: Cache, right: Cache, root: Path) {
    && RootAt(left, root) == RootAt(right, root)
    && forall relative :: FileAt(left, root, relative) == FileAt(right, root, relative)
  }

  /** The journal changed for one root only. */
  ghost predicate OnlyTouches(before: Journal, after: Journal, root: Path) {
    && (forall other :: other != root ==> (other in before.cleared <==> other in after.cleared))
    && (forall other :: other != root ==> (other in before.roots <==> other in after.roots))
    && (forall other :: other != root && other in before.roots ==> before.roots[other] == after.roots[other])
    && (forall member: Member :: member.root != root ==> (member in before.files <==> member in after.files))
    && (forall member: Member :: member.root != root && member in before.files ==>
          before.files[member] == after.files[member])
  }

  /** `Journaled` for every root but one. */
  ghost predicate OthersJournaled(stocks: map<Path, Stock>, committed: Cache, journal: Journal, waiting: set<Path>,
                                  root: Path)
  {
    forall other :: other != root ==> JournaledAt(stocks, committed, journal, waiting, other)
  }

  lemma OthersKeepTheirState(stocks: map<Path, Stock>, committed: Cache, before: Journal, after: Journal,
                             waiting: set<Path>, root: Path, other: Path)
    requires OnlyTouches(before, after, root) && other != root
    requires JournaledAt(stocks, committed, before, waiting, other)
    ensures JournaledAt(stocks, committed, after, waiting, other)
  {
    var was, now := Replayed(committed, before), Replayed(committed, after);
    assert SameAt(was, now, other) by {
      forall relative ensures FileAt(was, other, relative) == FileAt(now, other, relative) {
        assert Member(other, relative).root != root;
      }
    }
  }

  lemma FileRowsAt(root: Path, files: Files, member: Member)
    ensures member in FileRows(root, files) <==> member.root == root && member.relative in files
    ensures member in FileRows(root, files) ==> FileRows(root, files)[member] == Some(files[member.relative])
    ensures member in Removals(root, files) <==> member.root == root && member.relative in files
    ensures member in Removals(root, files) ==> Removals(root, files)[member] == None
  {}

  lemma ReplacedFileAt(cache: Cache, journal: Journal, root: Path, row: RootRow, files: Files, relative: Path)
    ensures FileAt(Replayed(cache, Replaced(journal, root, row, files)), root, relative) == Recorded(files, relative)
  {
    FileRowsAt(root, files, Member(root, relative));
  }

  function AfterNote(files: Files, removed: Files, added: Files, path: Path): Option<FileFacts> {
    if path in added then Some(added[path]) else if path in removed then None else Recorded(files, path)
  }

  /** What a replay makes of one file row. */
  lemma ReplayedFileAt(cache: Cache, journal: Journal, member: Member)
    ensures FileAt(Replayed(cache, journal), member.root, member.relative) ==
            if member in journal.files then journal.files[member]
            else if member.root in journal.cleared then None
            else FileAt(cache, member.root, member.relative)
  {}

  lemma NotedRowAt(journal: Journal, root: Path, removed: Files, added: Files, relative: Path)
    ensures NotedIn(journal, root, removed, added).cleared == journal.cleared
    ensures var rows, member := NotedIn(journal, root, removed, added).files, Member(root, relative);
      if relative in added then member in rows && rows[member] == Some(added[relative])
      else if relative in removed then member in rows && rows[member] == None
      else (member in rows <==> member in journal.files) && (member in rows ==> rows[member] == journal.files[member])
  {
    FileRowsAt(root, added, Member(root, relative));
    FileRowsAt(root, removed, Member(root, relative));
  }

  lemma NotedFileAt(cache: Cache, journal: Journal, root: Path, removed: Files, added: Files, relative: Path)
    ensures FileAt(Replayed(cache, NotedIn(journal, root, removed, added)), root, relative) ==
            if relative in added then Some(added[relative]) else if relative in removed then None
            else FileAt(Replayed(cache, journal), root, relative)
  {
    NotedRowAt(journal, root, removed, added, relative);
    ReplayedFileAt(cache, journal, Member(root, relative));
    ReplayedFileAt(cache, NotedIn(journal, root, removed, added), Member(root, relative));
  }

  lemma ReplacedTouchesOne(journal: Journal, root: Path, row: RootRow, files: Files)
    ensures OnlyTouches(journal, Replaced(journal, root, row, files), root)
  {
    forall member: Member | member.root != root
      ensures member in journal.files <==> member in Replaced(journal, root, row, files).files
      ensures member in journal.files ==> journal.files[member] == Replaced(journal, root, row, files).files[member]
    {
      FileRowsAt(root, files, member);
    }
  }

  lemma NotedTouchesOne(journal: Journal, root: Path, removed: Files, added: Files)
    ensures OnlyTouches(journal, NotedIn(journal, root, removed, added), root)
  {
    forall member: Member | member.root != root
      ensures member in journal.files <==> member in NotedIn(journal, root, removed, added).files
      ensures member in journal.files ==> journal.files[member] == NotedIn(journal, root, removed, added).files[member]
    {
      FileRowsAt(root, added, member);
      FileRowsAt(root, removed, member);
    }
  }

  lemma OthersStayJournaled(stocks: map<Path, Stock>, committed: Cache, before: Journal, after: Journal,
                            waiting: set<Path>, root: Path)
    requires OnlyTouches(before, after, root)
    requires OthersJournaled(stocks, committed, before, waiting, root)
    ensures OthersJournaled(stocks, committed, after, waiting, root)
  {
    forall other | other != root ensures JournaledAt(stocks, committed, after, waiting, other) {
      OthersKeepTheirState(stocks, committed, before, after, waiting, root, other);
    }
  }

  /** What is journaled of one root depends on that root alone. */
  lemma AlikeAt(stocks: map<Path, Stock>, updated: map<Path, Stock>, committed: Cache, journal: Journal,
                waiting: set<Path>, fewer: set<Path>, other: Path)
    requires JournaledAt(stocks, committed, journal, waiting, other)
    requires other in updated <==> other in stocks
    requires other in stocks ==> updated[other] == stocks[other]
    requires other in fewer <==> other in waiting
    ensures JournaledAt(updated, committed, journal, fewer, other)
  {}

  /** Taking a root out of the pool leaves the others journaled. */
  lemma WithoutStock(stocks: map<Path, Stock>, committed: Cache, journal: Journal, waiting: set<Path>, root: Path)
    requires Journaled(stocks, committed, journal, waiting)
    ensures OthersJournaled(stocks - {root}, committed, journal, waiting, root)
  {
    var left := stocks - {root};
    forall other | other != root ensures JournaledAt(left, committed, journal, waiting, other) {
      AlikeAt(stocks, left, committed, journal, waiting, waiting, other);
    }
  }

  lemma WithStock(stocks: map<Path, Stock>, committed: Cache, journal: Journal, waiting: set<Path>,
                  root: Path, stock: Stock)
    requires OthersJournaled(stocks, committed, journal, waiting, root)
    requires Holds(Replayed(committed, journal), root, stock)
    ensures Journaled(stocks[root := stock], committed, journal, waiting - {root})
  {
    var updated, fewer := stocks[root := stock], waiting - {root};
    forall other ensures JournaledAt(updated, committed, journal, fewer, other) {
      if other != root {
        AlikeAt(stocks, updated, committed, journal, waiting, fewer, other);
      }
    }
  }

  lemma ReplaceIsJournaled(stocks: map<Path, Stock>, committed: Cache, journal: Journal, waiting: set<Path>,
                           root: Path, stock: Stock)
    requires OthersJournaled(stocks, committed, journal, waiting, root)
    ensures Journaled(stocks[root := stock], committed, Replaced(journal, root, Row(stock), stock.files), waiting - {root})
  {
    var after := Replaced(journal, root, Row(stock), stock.files);
    ReplacedTouchesOne(journal, root, Row(stock), stock.files);
    OthersStayJournaled(stocks, committed, journal, after, waiting, root);
    forall relative ensures FileAt(Replayed(committed, after), root, relative) == Recorded(stock.files, relative) {
      ReplacedFileAt(committed, journal, root, Row(stock), stock.files, relative);
    }
    WithStock(stocks, committed, after, waiting, root, stock);
  }

  lemma ForgetIsJournaled(stocks: map<Path, Stock>, committed: Cache, journal: Journal, waiting: set<Path>, root: Path)
    requires Journaled(stocks, committed, journal, waiting)
    ensures Journaled(stocks - {root}, committed, Forgotten(journal, root), waiting - {root})
  {
    var after := Forgotten(journal, root);
    OthersStayJournaled(stocks, committed, journal, after, waiting, root);
    assert Lacks(Replayed(committed, after), root);
    var left, fewer := stocks - {root}, waiting - {root};
    forall other ensures JournaledAt(left, committed, after, fewer, other) {
      if other != root {
        AlikeAt(stocks, left, committed, after, waiting, fewer, other);
      }
    }
  }

  lemma NoteIsJournaled(stocks: map<Path, Stock>, committed: Cache, journal: Journal, waiting: set<Path>,
                        root: Path, removed: Files, added: Files, files: Files)
    requires Journaled(stocks, committed, journal, waiting)
    requires root in stocks
    requires forall path :: Recorded(files, path) == AfterNote(stocks[root].files, removed, added, path)
    ensures Journaled(stocks[root := stocks[root].(files := files)], committed,
                      NotedIn(journal, root, removed, added), waiting)
  {
    var after, stock := NotedIn(journal, root, removed, added), stocks[root].(files := files);
    NotedTouchesOne(journal, root, removed, added);
    OthersStayJournaled(stocks, committed, journal, after, waiting, root);
    var was, now := Replayed(committed, journal), Replayed(committed, after);
    assert JournaledAt(stocks, committed, journal, waiting, root);
    forall relative ensures FileAt(now, root, relative) == Recorded(files, relative) {
      NotedFileAt(committed, journal, root, removed, added, relative);
      assert FileAt(was, root, relative) == Recorded(stocks[root].files, relative);
      assert Recorded(files, relative) == AfterNote(stocks[root].files, removed, added, relative);
    }
    assert RootAt(now, root) == RootAt(was, root);
    WithStock(stocks, committed, after, waiting, root, stock);
    assert waiting - {root} == waiting;
  }

  lemma EmptyJournalChangesNothing(cache: Cache)
    ensures Replayed(cache, EMPTY_JOURNAL) == cache
  {
    assert Replayed(cache, EMPTY_JOURNAL).roots == cache.roots;
    assert Replayed(cache, EMPTY_JOURNAL).files == cache.files;
  }

  /** Once written, the journal starts again from nothing. */
  lemma CommitIsJournaled(stocks: map<Path, Stock>, committed: Cache, journal: Journal, waiting: set<Path>)
    requires Journaled(stocks, committed, journal, waiting)
    ensures Journaled(stocks, Replayed(committed, journal), EMPTY_JOURNAL, waiting)
  {
    EmptyJournalChangesNothing(Replayed(committed, journal));
    forall root ensures JournaledAt(stocks, Replayed(committed, journal), EMPTY_JOURNAL, waiting, root) {
      assert JournaledAt(stocks, committed, journal, waiting, root);
    }
  }

  /** A root restored from its stored rows needs no journal entry. */
  lemma RestoreIsJournaled(stocks: map<Path, Stock>, committed: Cache, journal: Journal, waiting: set<Path>,
                           root: Path, stock: Stock)
    requires Journaled(stocks, committed, journal, waiting)
    requires root in waiting && Holds(committed, root, stock)
    ensures Journaled(stocks[root := stock], committed, journal, waiting - {root})
  {
    var replayed := Replayed(committed, journal);
    assert JournaledAt(stocks, committed, journal, waiting, root);
    forall relative ensures FileAt(replayed, root, relative) == FileAt(committed, root, relative) {
      assert Member(root, relative).root == root;
    }
    WithStock(stocks, committed, journal, waiting, root, stock);
  }
}
