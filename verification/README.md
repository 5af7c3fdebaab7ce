# storage-scout: a verified model

storage-scout finds and cleans up build caches. Around its filesystem calls it runs a number of protocols
and incremental data structures: a pool of files that is kept up to date from filesystem events and journaled
into a cache, a planner that decides which identical files may share their storage, runs that are coalesced
between processes, a watcher that must not drop work while locks are held, and a monitor that vouches for a
released checkout. This project states what these promise and proves it, for every input and every run.

The filesystem, locks, owners, hashes and the clock are parameters: a directory tree is a value, what a probe
or a survey says is an answer, a print is an arbitrary function. The modules, bottom up:

| module | file | subject |
|---|---|---|
| `Common`, `Records` | Common.dfy, Records.dfy | results, saturating sums, recorded facts of a file |
| `Paths` | Paths.dfy | component-wise path order, range queries, ancestors, the scope of a pruning |
| `Inventory` | Inventory.dfy | directory trees, and the walk that lists the files worth sharing |
| `Noting` | Noting.dfy | how reported changes update an inventory, and when that equals a fresh walk |
| `Journals` | Journal.dfy | the journal, its replay, and how it follows the pool |
| `Pools` | Pool.dfy | the pool: stocks, the index by length, the journal (class `Pool`) |
| `Grouping`, `Planner`, `Focusing` | Grouping.dfy, Plan.dfy, Focus.dfy | groups of alike files, refinement in stages, keepers and pairs, what a focus considers |
| `Coalesce` | Coalesce.dfy | the pending flag and the run lock between any number of processes |
| `Watching` | Watch.dfy | the watch session (class `Session`) |
| `Accounting` | Accounting.dfy | what a turn leaves in the pool and in the cache, against a fresh walk and against what was recorded |
| `Release` | Release.dfy | the release monitor, its event callback and its barrier |
| `Bytes`, `RawPaths`, `Tabled`, `CacheFile` | Bytes.dfy, RawPaths.dfy, Tabled.dfy, CacheFile.dfy | the cache's encodings, tables, commit and load |
| `Resuming` | Resume.dfy | from the session's cache to the cache file and back |
| `Lexer` | Lexer.dfy | finding the comments of a Rust source |
| `Tallies` | Tally.dfy | what files come to, hard links counted once (class `Tally`) |
| `Sizes` | Size.dfy | reading and printing sizes |
| `Locations` | Location.dfy | reading, printing, comparing and keying locations |
| `Gates` | Gate.dfy | settlements of owners, the deletion gates and their explanation |

`dafny verify dfyconfig.toml` checks everything.

Values that the source computes are functions; what it updates in place or loops over are classes and methods,
each proved equal to such a function, about which the lemmas then speak. The two concurrent protocols
(`Coalesce`, `Release`) are transition systems whose steps are the source's atomic operations.

## What turned out not to hold

* A change at or below a mount point inside a root is listed incrementally although a fresh walk stops at the
  mount. `Noting.NotedIsFreshExactlyOnDevice` gives the exact condition, `Noting.NoteCrossesAMount` an instance.
  The files it brings in are of another volume, so the next start refuses the whole cache:
  `Resuming.ViewIsSoundExactlyWhen`, `Resuming.MountedFilesAreRefused`.
* Changes of one path are recorded by overwriting. An unsure event that replaces a more certain one no longer
  speaks for what lies deeper: `Watching.RecordSpeaksForAllExactlyWhen`.
* A cache written as of a checkpoint need not account for every change heard before it. It does exactly when no
  root is left behind with work that may matter, because somebody waits for its lock, its locks are held or
  cannot be probed, or nothing called for it: `Accounting.RowsAccountExactlyWhen`,
  `Accounting.CacheAccountsExactlyWhen`. `Accounting.CacheMissesAChange` is a session in which it does not.
* A record need not be the checkout as it is when the released phase begins. It is exactly when the checkout is
  then what it was at the second snapshot: `Release.RecordIsCurrentExactlyWhen`, with `Release.RecordMayBeStale`
  as an instance in which it is not. A reply is sound all the same, because it is preceded by another snapshot.
* The key of a UNC location has no separator between the share and the first name:
  `Locations.UncKeyMeansSameExactlyWhen`, `Locations.UncKeysCollide`. A UNC location of the server `?` is not read
  back: `Locations.ReadsBackExactlyWhen`.
* Sizes within a twentieth of a pebibyte of 2^64 print as 16384.0 PiB, which is refused when read back:
  `Sizes.RefusedExactlyAtTheTop`.
* A size of more than 38 decimal places is refused as not fitting in 64 bits, however small it is:
  `Sizes.ParseMeans` says exactly when, `Sizes.ManyPlacesAreRefused` for which texts.

## Model

| member | source | states |
|---|---|---|
| Paths.PathOrder | crates/cli/src/dedupe.rs:733-745 | the order of recorded paths, component by component, is irreflexive, asymmetric and total |
| Paths.PathTransitive | crates/cli/src/dedupe.rs:733-745 | that order is transitive |
| Paths.LessExactlyWhen | crates/cli/src/dedupe.rs:733-745 | of two paths the one comes first that ends, or has the earlier component, where they part; a root comes before `.`, then `..`, then names by their bytes |
| Paths.BelowIsConvex | crates/cli/src/dedupe.rs:733-745 | nothing outside a path's descendants lies between it and one of them, which is why a range query may stop at the first path that is not below |
| Paths.BelowIsPrefixFilter | crates/cli/src/dedupe.rs:733-745 | the range from a prefix, taken while paths start with it, is exactly the recorded paths at or below the prefix, in order and without repeats |
| Paths.AncestorsArePrefixes | crates/cli/src/prune.rs:539-553 | the ancestors of a path are its prefixes, except that an absolute path never reaches the empty one |
| Paths.NextIsBelowIfAnyIs | crates/cli/src/prune.rs:539-553 | the next changed path after a directory is below it exactly if any changed path is |
| Paths.TouchesMeansRelated | crates/cli/src/prune.rs:539-553 | a directory is touched exactly when a changed path is an ancestor of it, is it, or is below it |
| Inventory.InventoryUnder | crates/cli/src/dedupe.rs:232-275 | the walk with its stack of directories lists exactly the wanted files reachable without leaving the start's device, with their facts, and counts those whose facts cannot be read; it fails exactly if a directory on the way cannot be listed or an entry in one cannot be inspected |
| Inventory.ListedExactlyWhen | crates/cli/src/dedupe.rs:232-275 | what a walk records for a path: the facts of a file of at least 65536 bytes that it comes to, whose name does not end in `.storage-scout-share`, if they can be read, and nothing else |
| Inventory.BlocksExactlyWhen | crates/cli/src/dedupe.rs:232-275 | a walk ends at an entry that cannot be inspected, unless it is told to be a file and has the name of a temporary |
| Noting.DropsWhatItReaches | crates/cli/src/dedupe.rs:450-458 | a change takes out exactly the recorded paths it speaks for: everything at or below its path, but for an unsure event nothing below an entry that is still there |
| Noting.PresentIsFresh | crates/cli/src/dedupe.rs:460-500 | what looking up a change on the root's device finds has the facts a fresh walk finds |
| Noting.ListsMeansPresent | crates/cli/src/dedupe.rs:460-500 | looking a change up finds something exactly when there is a wanted file at it, directly in it, or reached from it on the device, as the kind of event has it |
| Noting.ReachedFileIsPresent | crates/cli/src/dedupe.rs:460-500 | every wanted file that a change speaks for is found by looking the change up |
| Noting.AddedWasNotKept | crates/cli/src/dedupe.rs:730-757 | no path is added that survived the removals: it was absent, or the same batch took it out |
| Noting.AfterAt | crates/cli/src/dedupe.rs:730-757 | after all changes a path is still recorded exactly as before unless some change speaks for it, whatever the order of the changes |
| Noting.NotedIsFreshExactlyOnDevice | crates/cli/src/dedupe.rs:718-769 | when the changes cover every difference to a readable tree, the noted inventory equals the fresh walk's if and only if at every change beyond a mount point the tree has no wanted file, and no directory from which a wanted file is reached |
| Noting.RunStaysFresh | crates/cli/src/dedupe.rs:718-769 | an inventory that starts as a fresh walk is still one after any number of covered batches of changes |
| Noting.NoteCrossesAMount | crates/cli/src/dedupe.rs:718-769 | a mount point that appears below a root makes the noted inventory differ from the fresh one |
| Journals.ReplayGivesThePool | crates/cli/src/store.rs:679-728 | once every cached root has been taken over, replaying the journal on the committed cache gives exactly the pool's roots and files |
| Journals.ReplaceIsJournaled | crates/cli/src/dedupe.rs:529-546 | rewriting a root in the journal keeps the replay equal to the pool with that root replaced, whatever the journal and the cache said of it before |
| Journals.NoteIsJournaled | crates/cli/src/dedupe.rs:549-565 | journaling removals, then additions, keeps the replay equal to the pool with that root's files updated |
| Journals.ForgetIsJournaled | crates/cli/src/dedupe.rs:568-572 | journaling that a root is gone keeps the replay equal to the pool without it |
| Journals.RestoreIsJournaled | crates/cli/src/dedupe.rs:575-626 | a root restored from its stored rows needs no journal entry for the replay to hold it |
| Journals.CommitIsJournaled | crates/cli/src/dedupe.rs:629-648 | after the journal was applied and emptied, the replay still gives the same pool |
| Pools.IndexUpdated | crates/cli/src/dedupe.rs:508-526 | updating one root's files in place keeps the index right because nothing added survived its removal |
| Pools.FreshenedMeaning | crates/cli/src/dedupe.rs:650-716 | exactly the identities not known before are reported as novel, each with the length of a file that has it |
| Pools.TakeOut | crates/cli/src/dedupe.rs:733-745 | one change's removals, found by a range query over the recorded paths, are exactly the recorded paths it speaks for |
| Pools.LookUp | crates/cli/src/dedupe.rs:724-750 | the loop over a batch of changes computes the removals, additions and remaining files of the batch |
| Pools.ListRoot | crates/cli/src/dedupe.rs:656-692 | a root's listing: rejected by the gate, unlistable, or its walk with how many files there are |
| Pools.Pool.constructor | crates/cli/src/dedupe.rs:504-506 | an empty pool agrees with its index, and with a cache whose roots are all still to be taken over |
| Pools.Pool.Index | crates/cli/src/dedupe.rs:508-515 | adds every file of a root to the bucket of its length, and nothing else |
| Pools.Pool.Unindex | crates/cli/src/dedupe.rs:517-526 | takes every file of a root out of the bucket of its length and leaves no empty bucket |
| Pools.Pool.Stock | crates/cli/src/dedupe.rs:650-716 | a root's stock becomes its fresh listing and no other root changes; the index stays exactly the recorded lengths and the replayed journal exactly the pool |
| Pools.Pool.Note | crates/cli/src/dedupe.rs:718-769 | a sharing root's files become those after the changes, anything else is left alone; index and journal keep agreeing with the pool; novel is what was added without having been among the batch's removals |
| Pools.Pool.Forget | crates/cli/src/dedupe.rs:771-777 | exactly this root leaves the pool, the index and the replayed cache |
| Pools.Pool.Restore | crates/cli/src/dedupe.rs:575-626 | takes over the cached files exactly if path and identity are still the same, empties them if the gate refuses, and keeps index and journal in agreement |
| Pools.Pool.Changes | crates/cli/src/dedupe.rs:629-648 | hands over the journal; once nothing waits to be restored the cache it leads to is the pool |
| Grouping.Classify | crates/core/src/share.rs:298-314 | the loop over members with a key fills exactly the buckets of each key, in order |
| Grouping.KeepMixed | crates/core/src/share.rs:289-314 | of the buckets, in key order, exactly those of more than one family are kept |
| Grouping.GroupBySize | crates/core/src/share.rs:298-314 | the loop groups items of one volume and length, at least the minimum |
| Grouping.TogetherWhenAlike | crates/core/src/share.rs:298-314 | two items of different families are together in a group exactly when both are long enough and agree on volume and length |
| Grouping.GroupsAreSound | crates/core/src/share.rs:298-314 | groups are disjoint, each of one volume and length with at least two families, and no pair worth sharing is lost |
| Grouping.SplitByPrint | crates/core/src/share.rs:320-338 | the loop splits a group by the prints of its members |
| Grouping.SplitMeaning | crates/core/src/share.rs:320-338 | the parts of a group are exactly its members of one print, for each print that more than one family has |
| Grouping.RefineAll | crates/cli/src/dedupe.rs:328-343 | refining is splitting every group by the prints taken of its members |
| Grouping.RefineMeaning | crates/cli/src/dedupe.rs:328-343 | a refined group is a part of one of the groups, and every such part is there |
| Grouping.RefineIsWellGrouped | crates/cli/src/dedupe.rs:328-343 | refining keeps groups disjoint, of one volume and length, and of at least two families |
| Grouping.StagesLoseNothing | crates/cli/src/dedupe.rs:328-343 | refining by sample print and then by full print gives exactly the groups of refining by full print, whenever equal full prints imply equal readable samples |
| Planner.PairUp | crates/core/src/share.rs:268-277 | the loop over the gates with its early return pairs two files as the first gate that does not pass decides |
| Planner.PairMeaning | crates/core/src/share.rs:222-277 | exactly when two files may share, when they already do, and when they are refused for being alike in too little |
| Planner.RefusedExactlyWhen | crates/core/src/share.rs:222-277 | which refusal a pair gets, for every reason and in their order |
| Planner.FixedIsNeverReplaced | crates/core/src/share.rs:222-277 | a fixed file is never replaced, and one that is not is replaced by a keeper of the same attributes |
| Planner.Keeper | crates/core/src/share.rs:348-362 | the loop finds the last best member by family count, fixedness and location |
| Planner.BestIsBest | crates/core/src/share.rs:348-362 | no member is better than the chosen one |
| Planner.KeeperIsOfLargest | crates/core/src/share.rs:348-362 | the keeper's family is outnumbered by no other family of the group |
| Planner.KeeperIsFixedIfAnyCanBe | crates/core/src/share.rs:340-362 | if a file that cannot be replaced is in a largest family, the keeper is such a file |
| Planner.KeeperComesFirst | crates/core/src/share.rs:348-362 | between files of largest families that are equally fixed, the one whose location comes first is kept |
| Planner.KeeperIsOptimal | crates/core/src/share.rs:348-392 | the pairs of a group not already sharing number its members minus its largest family, the least over every choice of keeper |
| Planner.PlanAll | crates/core/src/share.rs:373-392 | the loop over groups and members produces the plan |
| Planner.PlanMeaning | crates/core/src/share.rs:373-392 | a plan's pairs are exactly keeper and every other member of each group |
| Planner.PlanLength | crates/core/src/share.rs:373-392 | a group of n members yields n - 1 pairs |
| Planner.PlanIsOptimal | crates/core/src/share.rs:373-392 | no choice of keepers, one for each group, leaves fewer pairs to work on |
| Planner.PlanIsSound | crates/core/src/share.rs:373-392 | each member of each group is its keeper or exactly one pair's duplicate, no file is both, and no pair joins different volumes, lengths or a file with itself |
| Focusing.ListItems | crates/cli/src/dedupe.rs:800-847 | the loops over lengths and members gather the items of a focus |
| Focusing.LookedAtExactlyWhen | crates/cli/src/dedupe.rs:779-798 | a recorded path is looked at exactly when a second path is recorded with its length and, under a fresh focus, that length is reported |
| Focusing.ItemIsRecorded | crates/cli/src/dedupe.rs:800-847 | every item is a path that is looked at, with the identity, length, links, owner, mode and sharing recorded for it and its root's means of sharing |
| Focusing.RecordedIsItem | crates/cli/src/dedupe.rs:800-847 | every file that is looked at is an item under one of its paths, when all paths can be named |
| Focusing.ItemsAreDistinct | crates/cli/src/dedupe.rs:800-847 | whatever the focus, each file is an item at most once, however many paths it has |
| Focusing.ItemsByLength | crates/cli/src/dedupe.rs:779-847 | when no file is recorded with two lengths, the items are what each length contributes alone |
| Focusing.FocusedExactlyWhen | crates/cli/src/dedupe.rs:423-447 | for any map of fresh files, the groups considered are exactly those of everything that hold a fresh file and have a length the map reports, with the same members in the same order |
| Focusing.FocusedIsFiltered | crates/cli/src/dedupe.rs:439-447 | when what is fresh was reported with its recorded lengths, the groups considered under a fresh focus are exactly those of everything that hold a fresh file |
| Focusing.StockVouches | crates/cli/src/dedupe.rs:650-716 | everything that listing a root reports as fresh is then recorded under it with the reported length |
| Focusing.NoteVouches | crates/cli/src/dedupe.rs:752-769 | everything that noting changes of a root reports as fresh is then recorded under it with the reported length |
| Focusing.VouchedTogether | crates/cli/src/watch.rs:446-456 | the reports of several roots listed one after another can be put together |
| Focusing.VouchedAgrees | crates/cli/src/dedupe.rs:779-798 | when no file has two lengths, such reports agree with every recorded length |
| Focusing.Confirm | crates/cli/src/dedupe.rs:849-903 | group by size, keep what the focus considers, refine by sample and by full print: the result is disjoint groups of alike files; `Focusing.NarrowedMeaning` and `Focusing.TogetherExactlyWhen` say which |
| Focusing.NarrowedMeaning | crates/cli/src/dedupe.rs:439-447 | of the groups exactly those stay that hold a fresh file, or all if everything is considered |
| Focusing.TogetherExactlyWhen | crates/cli/src/dedupe.rs:849-903 | two files end up in one group if and only if both are of one volume, of one length of at least the minimum and of equal full prints, a file like them is of another family, and a file of their size is in focus |
| Focusing.ConfirmedAgree | crates/cli/src/dedupe.rs:849-903 | the members of a confirmed group were all read in full, and their full prints agree |
| Focusing.ShareSafely | crates/cli/src/dedupe.rs:849-934 | whatever the focus, a pair joins two different files of one volume and length with equal full prints, no file is a duplicate twice, and no keeper is a duplicate; and if equal contents have equal samples, two files are joined, by a pair or by one keeper, if and only if they are sharable: nothing that could be shared is left out |
| Coalesce.StepKeepsInv | crates/cli/src/coalesce.rs:42-76 | every operation of every process keeps the lock with one process, a raised flag seen by somebody, and every raise served or about to be |
| Coalesce.RunComesToRest | crates/cli/src/coalesce.rs:42-65 | from any point on, the system comes to rest |
| Coalesce.RunsAreExclusive | crates/cli/src/store.rs:318-329 | at most one run is under way |
| Coalesce.RunsNeverExceedRaises | crates/cli/src/coalesce.rs:42-65 | at every moment no more runs were started than requests were raised |
| Coalesce.CountsArePlaces | crates/cli/src/coalesce.rs:42-65 | the numbers of raises, starts and finished runs are those of the places in the history that record one |
| Coalesce.ReportsItsRuns | crates/cli/src/coalesce.rs:42-65 | a driver reports exactly the runs it finished, and one that was handed off finished none |
| Coalesce.FlagLeftUpMeansFailure | crates/cli/src/coalesce.rs:42-76 | at rest the flag is up only if a driver, a run or the start of a driver failed |
| Coalesce.NoRequestIsLost | crates/cli/src/hook.rs:54-68 | for any number of drivers and hooks in any interleaving, the system comes to rest, and then every raise is followed by a run that started after it, whoever failed, unless the flag is still up, which only a failure explains |
| Coalesce.DriversFollowReplies | crates/cli/src/coalesce.rs:42-65 | a driver in the shared system goes exactly where the replies to its operations take it |
| Coalesce.HooksFollowReplies | crates/cli/src/hook.rs:54-68 | so does a hook, and the one that finds nobody holding the lock adds exactly one driver |
| Coalesce.Drive | crates/cli/src/coalesce.rs:42-65 | the nested loops end as the replies to their operations dictate, and are still driving when the replies run out |
| Coalesce.Detach | crates/cli/src/hook.rs:54-68 | a hook raises, looks for a holder and starts a driver, and ends as the replies to these dictate |
| Coalesce.RunsExist | crates/cli/src/coalesce.rs:42-76 | whoever starts, there are runs of the whole system |
| Watching.LastEventStays | crates/cli/src/watch.rs:867-875 | of the changes reported for one path the last one is recorded |
| Watching.RecordSpeaksForAllExactlyWhen | crates/cli/src/watch.rs:867-875 | the recorded event of a path speaks for everything the reported ones spoke for if and only if it is not an unsure one that replaced a more certain one |
| Watching.OwnerIsNearest | crates/cli/src/watch.rs:316-320 | the owner found for a path is the nearest watched directory at or above it, and none is found only if there is none |
| Watching.Session.constructor | crates/cli/src/watch.rs:1023-1080 | a session begins with nothing watched, nothing dirty and no waiters, and its pool agrees with the cache it was given |
| Watching.Session.Forget | crates/cli/src/watch.rs:360-364 | a forgotten root leaves the watches and the pool, no other root changes, and what every step keeps is kept |
| Watching.Session.Reap | crates/cli/src/watch.rs:352-358 | exactly the given roots are let go of |
| Watching.Session.Adopt | crates/cli/src/watch.rs:366-386 | an adopted root is watched as already listed, or marked to be listed afresh and dirty |
| Watching.Session.LostTrack | crates/cli/src/watch.rs:847-865 | a root that is written to and lost its events has an unsure change recorded for every part of its profiles, is to be surveyed anew and becomes dirty; a root that is not written to is left alone, and no root is marked to be listed afresh |
| Watching.Session.ChangedWithin | crates/cli/src/watch.rs:867-875 | one change is recorded for its root, which becomes dirty, as `Watching.MarkedMeans` tells |
| Watching.MarkedMeans | crates/cli/src/watch.rs:867-875 | the change replaces what was recorded for its path, and asks for a new survey exactly if it is about a bookkeeping name, or the root or one of its own entries appeared, vanished or is unsure |
| Watching.UnsettledMeans | crates/cli/src/watch.rs:847-865 | lost track of, a root doubts exactly the parts `deps`, `incremental`, `build` and `examples` beside each lock of its survey, besides what is recorded, and is marked for a new survey |
| Watching.Session.Probe | crates/cli/src/watch.rs:304-313 | a held root gets a waiter, no root ever gets a second one, and only an undecided probe leaves the root in doubt |
| Watching.Session.Process | crates/cli/src/watch.rs:742-832 | processing one root is what its own state calls for. If it was to be listed afresh, was marked or had no survey, it is surveyed anew: it leaves watches and pool if that fails, and else has the new survey with its mark down; otherwise it keeps its survey. It is dropped if its owners let go, kept with all its work if its locks are held or unknown, and else worked off completely into the pool |
| Watching.ProcessedMeans | crates/cli/src/watch.rs:742-832 | the whole outcome of processing from what was recorded: the survey, the mark, the changes, the waiter, the doubt and the files in the pool, in every case |
| Watching.ProcessedKeeps | crates/cli/src/watch.rs:742-832 | processing keeps every root with recorded work dirty, awaited or in doubt, and leaves exactly this root no longer dirty |
| Watching.Session.ProcessAll | crates/cli/src/watch.rs:834-845 | processing a set of roots one after another processes each as if it were alone |
| Watching.Session.Settle | crates/cli/src/watch.rs:834-845 | exactly the dirty roots without a waiter are processed, and afterwards every dirty root is watched and has a waiter |
| Watching.Session.Persist | crates/cli/src/watch.rs:494-507 | after a successful write the cache is exactly the pool; after a failed one the cache is given up |
| Watching.Session.FinishCheckpoint | crates/cli/src/watch.rs:533-543 | the cache is written as of a checkpoint only if there is one, and then holds exactly the pool |
| Watching.Session.AbandonHistory | crates/cli/src/watch.rs:523-530 | once events were lost no cache is kept |
| Watching.Session.Reown | crates/cli/src/watch.rs:545-583 | of the roots in scope exactly those whose owners let go are dropped |
| Watching.AttunedMeans | crates/cli/src/watch.rs:948-957 | with every directory covered, a hook and changed references let go of exactly the settled roots of the repositories they name, of all of them if a hook names none; without, a hook makes the session look at everything again |
| Watching.Session.Resight | crates/cli/src/watch.rs:585-630 | looking at everything again drops what vanished or was let go of, adopts what is new, renews what moved and keeps the rest with its work |
| Watching.Session.Examine | crates/cli/src/watch.rs:707-740 | directories that appeared are adopted unless watched or let go of already |
| Watching.Session.Handle | crates/cli/src/watch.rs:886-930 | one signal changes only what it speaks of: the nearest owner of a path, or the waiter of a released lock |
| Watching.Session.HandleAll | crates/cli/src/watch.rs:886-930 | the signals of a turn are taken in one after another, and every finished waiter was one that existed |
| Watching.Session.Turn | crates/cli/src/watch.rs:877-967 | a whole turn, root by root, in the session and in the pool; between turns every dirty root is watched and awaited, every pool root is watched, every watched root is stocked or marked whole, recorded work is awaited or in doubt, and a root still marked for a new survey has a waiter |
| Watching.TurnComposes | crates/cli/src/watch.rs:877-967 | the parts of a turn together do to each root what the turn promises |
| Watching.TurnedMeans | crates/cli/src/watch.rs:834-845 | a turn processes exactly the dirty roots nobody waits for, and one surveys a root anew exactly if it was due |
| Watching.SurveyFollowsTheChange | crates/cli/src/watch.rs:742-967 | whatever else is in a turn, after a change that asks for a new survey its root is no longer watched, waits for a lock, or has the survey of this turn |
| Watching.LatestIsLargest | crates/cli/src/watch.rs:891-893 | the checkpoint of a turn is the largest it was told |
| Watching.Session.Start | crates/cli/src/watch.rs:397-491 | at the start every root not let go of is watched, with its files from the cache where the directory is still the same and from a walk elsewhere; nothing is pending, and a kept cache equals the pool |
| Watching.Session.Fill | crates/cli/src/watch.rs:408-460 | restoring, forgetting and stocking leave each root as the start promises, with no cached root left over |
| Watching.HeldWorkIsNotInTheCache | crates/cli/src/watch.rs:533-543 | a change of a root whose lock is held stays recorded and awaited through a checkpoint; the cache is written as of it whenever it can be, and holds the rows the root had before |
| Accounting.WorkedOrLeft | crates/cli/src/watch.rs:742-845 | after a turn a root that stays watched has either taken in everything recorded for it, or was left behind with its stock as it was |
| Accounting.TurnIsFreshExactlyWhen | crates/cli/src/watch.rs:877-967 | after a turn with a free lock, and changes that cover every difference, a root's files are those of a fresh listing if and only if it was listed afresh anyway or no change beyond a mount point has files to list |
| Accounting.RowsAccountExactlyWhen | crates/cli/src/watch.rs:742-845 | whatever the files turn out to be, a root's rows account for everything recorded for it if and only if it is not left behind (awaited, not called for, held or undecided) with work that may matter |
| Accounting.CacheAccountsExactlyWhen | crates/cli/src/watch.rs:533-543 | for all roots together: everything is accounted for, whatever the files turn out to be, if and only if no root is left behind with work that may matter |
| Accounting.CacheFollowsRows | crates/cli/src/watch.rs:494-507 | the cache written after a turn accounts for a root's work exactly when its rows in the pool do |
| Accounting.Reach | crates/cli/src/watch.rs:877-967 | a turn that reaches a checkpoint writes the cache as of it; the cache accounts for every recorded change if no root is left behind, and of a root left behind it has the former rows |
| Accounting.CacheMissesAChange | crates/cli/src/watch.rs:533-543 | a session whose cache is written as of a checkpoint with a file in it that noting the change recorded before would take out |
| Resuming.ViewIsSoundExactlyWhen | crates/cli/src/store.rs:649-677 | the cache of a pool is accepted when it is loaded if and only if every recorded file is acceptable and on its root's volume |
| Resuming.NotedIsProper | crates/cli/src/dedupe.rs:718-769 | noting keeps it so as long as no change lies beyond a mount point with files to list |
| Resuming.MountedFilesAreRefused | crates/cli/src/store.rs:649-677 | a mount that appears below a root makes the next start refuse the whole cache |
| Resuming.WriteAndLoad | crates/cli/src/watch.rs:494-507 | the tables come to hold what the session keeps as its cache, the write fails exactly when the session gives the cache up, and loading gives the pool back if it is accepted |
| Release.PhaseOnlyAdvances | crates/cli/src/release.rs:185-241 | a step leaves the phase or takes it from preparing to released or on to revoked, and answers only while released |
| Release.InvIsKept | crates/cli/src/release.rs:243-349 | every step of callback, monitor and owner keeps the record filed and coverage complete while released |
| Release.RunAdvances | crates/cli/src/release.rs:185-190 | over a whole run the phase never goes back |
| Release.NothingAfterRevocation | crates/cli/src/release.rs:301-349 | once revoked the phase stays and nothing is answered again |
| Release.ReplyIsSound | crates/cli/src/release.rs:301-349 | a reply's snapshot equals the record, it was taken after that request's barrier began, and after it the writers' lock was found free; from entering the released phase to that barrier the checkout did not change |
| Release.UnchangedIsAnswered | crates/cli/src/release.rs:301-349 | a checkout that is as recorded is answered for, when every change of it was heard and nobody writes |
| Release.DecidesExactlyWhen | crates/core/src/ownership.rs:130-136 | a check answers if and only if the phase is released, the snapshot is the recorded one and nobody writes; another snapshot revokes, and a writer only withholds the answer |
| Release.SettlesExactlyWhen | crates/core/src/ownership.rs:130-142 | evidence settles a checkout as released exactly when it vouches for the whole record, the monitor holds its lock and nobody writes |
| Release.EntersExactlyWhen | crates/cli/src/release.rs:243-299 | a preparation enters the released phase exactly when both snapshots agree and the record could be written |
| Release.RevokesExactlyWhen | crates/cli/src/release.rs:185-241 | the release ends exactly when a change is heard of, when it is dropped, or when a check finds another snapshot; its record is then gone unless it could not be removed |
| Release.MonitorFollowsReplies | crates/cli/src/release.rs:243-349 | the monitor in the shared system goes exactly where the replies to its operations take it, and nobody else moves it |
| Release.Prepare | crates/cli/src/release.rs:243-299 | the preparation, operation by operation, ends as the replies to these dictate |
| Release.Serve | crates/cli/src/release.rs:301-349 | the serving loop goes on, starts over or stops as the replies to its operations dictate |
| Release.OnlyTheCheckUnderWay | crates/cli/src/release.rs:301-349 | after a change of the released checkout nothing is answered except the one check whose barrier had already begun |
| Release.RecordIsCurrentExactlyWhen | crates/cli/src/release.rs:243-299 | in every run the record on entering the released phase is what both snapshots found, the second after a barrier that delivered every earlier change; it is the checkout as it is on entry if and only if the checkout is then what it was at the second snapshot, in particular if nothing changed in between |
| Release.RecordMayBeStale | crates/cli/src/release.rs:243-299 | an instance: a change heard of between the second snapshot and the recording leaves a record that is out of date from the start |
| Bytes.LittleReadsBack | crates/cli/src/store.rs:437-453 | a number that fits is read back from its bytes, and the bytes are as many as asked |
| Bytes.LittleIsOnto | crates/cli/src/store.rs:437-442 | every byte string is the encoding of the number read from it |
| RawPaths.RawReadsBack | crates/cli/src/store.rs:562-583 | an ordinary path is read back from its bytes |
| RawPaths.RawIsInjective | crates/cli/src/store.rs:562-583 | different ordinary paths have different bytes |
| RawPaths.JoinedAtTheEnd | crates/cli/src/store.rs:535-549 | the bytes of a path are its names with one separator between each two and none behind |
| RawPaths.TakenExactlyWhen | crates/cli/src/store.rs:562-583 | of stored paths exactly these are taken: a root that begins with a separator, a relative path that does not and does not begin with `.`, and neither with a piece `..` |
| Tabled.DropAll | crates/cli/src/store.rs:586-596 | exactly the rows with the given keys are removed |
| Tabled.WriteAll | crates/cli/src/store.rs:679-728 | inserting and removing rows one by one leaves a table that holds exactly the changed rows |
| CacheFile.ParseRootValue | crates/cli/src/store.rs:445-466 | a root's row is accepted exactly if it is an encoding, and then read back |
| CacheFile.ParseFactsValue | crates/cli/src/store.rs:469-532 | a file's row is accepted exactly if it is the encoding of facts of at least the minimum length with at least one name, and then read back |
| CacheFile.RootValueIsInjective | crates/cli/src/store.rs:445-453 | different roots' rows have different values |
| CacheFile.FactsValueIsInjective | crates/cli/src/store.rs:469-495 | different facts have different values |
| CacheFile.KeySplitsBack | crates/cli/src/store.rs:535-559 | a file's key is taken apart into the root and the path it was made of |
| CacheFile.KeysAreInjective | crates/cli/src/store.rs:535-549 | different files have different keys |
| CacheFile.RootFilesRemoved | crates/cli/src/store.rs:679-728 | clearing a root by the prefix of its keys removes exactly its files |
| CacheFile.Commit | crates/cli/src/store.rs:679-728 | the tables of a cache become the tables of the cache with the journal replayed, or nothing if the checkpoint is unusable or a number does not fit |
| CacheFile.LoadRoots | crates/cli/src/store.rs:626-648 | the roots a table represents are read back, all of them; of any other table, only roots whose key reads as an absolute path and whose value is that row |
| CacheFile.LoadFiles | crates/cli/src/store.rs:649-677 | the files a table represents are read back exactly if each is of a loaded root, on its volume and acceptable; of any other table, only files whose key and value read as that file |
| CacheFile.Load | crates/cli/src/store.rs:626-677 | nothing for another schema or an unusable checkpoint, an error for a cache that is not sound, and otherwise exactly the cache the tables hold |
| CacheFile.CommitThenLoad | crates/cli/src/store.rs:626-728 | loading what was committed gives the replayed cache with its checkpoint |
| Lexer.Find | xtask/src/comments.rs:84-177 | the loop over the bytes finds the comments of the source |
| Lexer.TokenEmits | xtask/src/comments.rs:23-177 | every well-formed token, literals with a prefix included, is passed over as a whole and yields itself if it is a comment, and nothing otherwise |
| Lexer.PassNest | xtask/src/comments.rs:84-177 | the inside of an arbitrarily nested block comment and its closing mark end exactly one level |
| Lexer.RawStringPasses | xtask/src/comments.rs:23-49 | a raw string with any number of hashes ends at its own closing quote and no earlier |
| Lexer.LiteralPasses | xtask/src/comments.rs:51-73 | a string or character literal is passed over as a whole wherever it begins, also right after a prefix |
| Lexer.FindsExactlyTheComments | xtask/src/comments.rs:84-177 | for any source of separated tokens, what is found is exactly the comment tokens in order, each with one plus the newlines before it as its line, and whether it justifies unsafe code |
| Lexer.NewlinesCount | xtask/src/comments.rs:164-174 | lines are counted by the newlines passed over, one for each |
| Lexer.EveryCharacterIsALiteral | xtask/src/comments.rs:51-73 | every character outside ASCII, as UTF-8 encodes it, is a character literal between ticks |
| Tallies.Tally.constructor | crates/cli/src/measure.rs:44-57 | a new tally holds nothing |
| Tallies.Tally.File | crates/cli/src/measure.rs:89-96 | a file's length is added, saturating |
| Tallies.Tally.Allocate | crates/cli/src/measure.rs:112-125 | an allocation is added at once, or recorded for its file with one more name seen |
| Tallies.Tally.Miss | crates/cli/src/measure.rs:139-141 | failures are added, saturating |
| Tallies.Tally.Absorb | crates/cli/src/measure.rs:60-83 | merging another tally adds its sums and joins the linked files, and leaves the other as it is |
| Tallies.Tally.Used | crates/cli/src/measure.rs:149-176 | the usage is the saturated exact sum, whatever order the linked files are added up in |
| Tallies.AnySplitAgrees | crates/cli/src/measure.rs:60-83 | any split of the files into tallies, merged in any shape and order, gives the usage of one pass |
| Tallies.OrderDoesNotMatter | crates/cli/src/measure.rs:60-176 | two passes over the same findings in different orders agree |
| Tallies.PassesMerge | crates/cli/src/measure.rs:60-83 | merging the tallies of two passes is the tally of one pass over both |
| Tallies.MergeCommutes | crates/cli/src/measure.rs:60-83 | merging commutes, also for tallies that disagree about a file |
| Tallies.JointMeans | crates/cli/src/measure.rs:60-83 | a file in both tallies has the larger allocation and link count and the names seen in both; one in a single tally is as it is there |
| Tallies.MergeAssociates | crates/cli/src/measure.rs:60-83 | merging associates |
| Tallies.PassAddsUp | crates/cli/src/measure.rs:89-125 | a pass holds the exact totals saturated once, and each hard-linked file once with the number of its names seen |
| Tallies.UsageAddsUp | crates/cli/src/measure.rs:149-176 | the usage of a pass in closed form: lengths and failures summed and saturated once; allocated is the saturated sum of everything not hard-linked and of each hard-linked file once, and reclaimable the same over the files with all names seen |
| Tallies.ReclaimableWhenAllSeen | crates/cli/src/measure.rs:149-176 | a hard-linked file counts as reclaimable exactly when as many names were seen as it has |
| Tallies.ReclaimableIsAllocated | crates/cli/src/measure.rs:149-176 | reclaimable never exceeds allocated |
| Sizes.Display | crates/core/src/size.rs:172-197 | the loop over units prints a size in the largest unit it reaches, to tenths |
| Sizes.UnitsAreThese | crates/core/src/size.rs:98-116 | a letter alone or with `ib` is a power of 1024, with `b` a power of 1000, no letter is bytes, and nothing else is a unit |
| Sizes.EveryTextIsComposed | crates/core/src/size.rs:121-128 | every text is a number and a unit with white space around them |
| Sizes.ParseMeans | crates/core/src/size.rs:118-169 | what every text is read as: an unknown unit, two points and no digit are refused in this order; else the bytes of the number rounded down, refused exactly if they do not fit in 64 bits or the fraction's digits do not fit in 128 |
| Sizes.ManyPlacesAreRefused | crates/core/src/size.rs:118-169 | any number with more than 38 places is refused as too large |
| Sizes.UnitBounds | crates/core/src/size.rs:172-197 | the printed unit is the largest the value reaches |
| Sizes.ReadsBackRounded | crates/core/src/size.rs:118-197 | reading a printed size gives the value rounded to tenths of its unit, or overflows if that does not fit |
| Sizes.RoundedIsClose | crates/core/src/size.rs:172-197 | rounding moves a value by less than a twentieth of the unit and one byte, and not at all below 1024 |
| Sizes.RoundedIsMonotone | crates/core/src/size.rs:172-197 | a larger size is never read back as a smaller one, even across units |
| Sizes.RefusedExactlyAtTheTop | crates/core/src/size.rs:118-197 | reading back is refused exactly for sizes within a twentieth of a pebibyte of 2^64 |
| Sizes.RefusedPrintsAsTooMuch | crates/core/src/size.rs:172-197 | those sizes print as 16384.0 PiB |
| Sizes.PrintedSizesReadBack | crates/core/src/size.rs:118-198 | the four statements together, for any two sizes that are read back |
| Locations.ParsedIsValid | crates/core/src/location.rs:288-357 | whatever is read is a location of its syntax with proper names |
| Locations.NamesMean | crates/core/src/location.rs:288-293 | any pieces joined by separators name the pieces that are neither empty nor `.`, in order, or are refused for the first bad piece |
| Locations.RefusedExactlyWhen | crates/core/src/location.rs:61-80 | a piece is bad exactly if it is `..` or holds a zero byte |
| Locations.MadeOfPieces | crates/core/src/location.rs:288-293 | every text is made of such pieces |
| Locations.ParsesUnixAs | crates/core/src/location.rs:295-304 | a Unix text names what its pieces name after the leading slash, and is relative exactly when it has none |
| Locations.ParsesDriveAs | crates/core/src/location.rs:339-357 | a drive text, with or without a verbatim lead, names what its pieces name under its letter in upper case |
| Locations.ParsesUncAs | crates/core/src/location.rs:327-337 | a UNC text names server, share and what follows, and misses its share exactly if fewer than two pieces are names |
| Locations.RelativeExactlyWhen | crates/core/src/location.rs:306-357 | which Windows texts are relative |
| Locations.Display | crates/core/src/location.rs:260-279 | the loop prints root and names with a separator between each two |
| Locations.ReadsBackExactlyWhen | crates/core/src/location.rs:170-279 | a location is read back from what it prints as if and only if it is not of the UNC server `?` |
| Locations.ContainmentOrders | crates/core/src/location.rs:222-243 | containment is reflexive and transitive, and two locations contain each other exactly when they are the same |
| Locations.RelativeIsWhatFollows | crates/core/src/location.rs:222-243 | what is relative to a location is exactly what was put after it, where case tells names apart |
| Locations.SameUpToCase | crates/core/src/location.rs:222-243 | where it does not, two locations are the same exactly if root and names are in lower case |
| Locations.SameContainsAlike | crates/core/src/location.rs:222-243 | same locations contain, and are contained in, the same locations |
| Locations.WriteKey | crates/core/src/location.rs:134-148 | the loop appends the folded root and the folded names with a separator between each two |
| Locations.SameHasOneKey | crates/core/src/location.rs:246-256 | same locations have equal keys, whatever their roots |
| Locations.KeyMeansSame | crates/core/src/location.rs:246-256 | under Unix and drive roots keys are equal if and only if the locations are the same |
| Locations.UncKeysAreApart | crates/core/src/location.rs:134-148 | the key of a UNC location is never that of another kind of root |
| Locations.UncKeyMeansSameExactlyWhen | crates/core/src/location.rs:134-148 | two UNC locations with one key are the same if and only if their folded shares have the same length |
| Locations.UncKeysCollide | crates/core/src/location.rs:134-148 | two different UNC locations share a key |
| Gates.StrongestIsSettled | crates/core/src/ownership.rs:314-325 | the strongest of some settlements is settled exactly when all of them are |
| Gates.ResolvedMeans | crates/core/src/ownership.rs:326-355 | what the owners of a directory come to: whatever is kept or active inside or among what decides, and else what its own markers or its worktree come to |
| Gates.DeletableExactlyWhen | crates/core/src/ownership.rs:329-357 | a directory may be deleted exactly when nothing inside protects it and its own markers, or else those beside its worktree, are all settled |
| Gates.Run | crates/core/src/gate.rs:536-556 | the loop over the gates identifies the site or gives the first refusal; that evidence is missing after all gates passed cannot happen |
| Gates.Stages | crates/core/src/gate.rs:721-744 | the explanation holds every gate's outcome up to the first refusal and nothing reached after it |
| Gates.AbstainsExactlyWhen | crates/core/src/gate.rs:305-535 | which gates have nothing to say, by what is asked |
| Gates.PassesWith | crates/core/src/gate.rs:290-535 | what each gate that passes a site notes about it |
| Gates.AdmittedExactlyWhen | crates/core/src/gate.rs:575-580 | a site is admitted exactly when it is an identified, unexcluded directory that crosses no mount and lies in no system area, and in an application's area declares itself |
| Gates.InspectedExactlyWhen | crates/core/src/gate.rs:712-714 | what it takes to pass an inspection, which asks only about the owners and locks it was told of |
| Gates.RecheckedExactlyWhen | crates/core/src/gate.rs:582-584 | what it takes to pass the recheck before a deletion, as one condition; an expensive artifact needs the expensive tier granted and a reinstallable one the reinstallable tier |
| Gates.ClearedExactlyWhen | crates/core/src/gate.rs:612-628 | what it takes to be cleared for deletion, as one condition, the tiers spelled out |
| Gates.ClearedOrRefusedFor | crates/core/src/gate.rs:536-628 | what is not cleared is refused for the first of the reasons in order, with that reason's rejection; what is, is cleared as the artifact identified |
| Gates.SharedExactlyWhen | crates/core/src/gate.rs:655-668 | sharing needs the recorded site unchanged with no tool holding its lock and a filesystem that can share, but nobody's leave |
| Gates.PrunedExactlyWhen | crates/core/src/gate.rs:689-694 | pruning needs the recorded site unchanged with no tool holding its lock, and an owner that does not keep the directory |
| Gates.UsesNeedALock | crates/core/src/gate.rs:428-465 | what a sharing or a pruning of a recorded site is refused for: no lock to hold, a filesystem that cannot share, an owner that keeps it |
| Gates.Clear | crates/core/src/gate.rs:612-628 | clearing is the gates' verdict: the grant asked for after them is never refused |
| Gates.InspectVerified | crates/core/src/gate.rs:717-744 | the explanation holds a rejection if and only if clearing fails, at the same first gate with the same rejection and only unreached gates after it |
| Gates.ClearedIsAdmittedAndRechecked | crates/core/src/gate.rs:575-628 | what is cleared for deletion would also be admitted and pass the recheck, as the same artifact |

## Left out

- Noting.RunStaysFresh: the tree is the same for every change of one batch; a tree that changes while a batch is looked up is only covered by the general `Pools.Pool.Note`, which takes a tree for each change.
- Inventory.InventoryUnder: symbolic links and special files are one kind of node that is not wanted; which of several errors ends a walk is not told apart.
- Pools.Pool.Restore: the row handed in is taken to equal the stored one, as the caller read it from the cache just before.
- Pools.Pool.constructor: counts of listed and unreadable files are natural numbers; the conversion of a count to 64 bits appears only as a failing commit in `CacheFile.Commit`.
- Focusing.FocusedExactlyWhen: a file recorded with two lengths at once is excluded; which of them wins would depend on the iteration order.
- Focusing.FocusedIsFiltered: the fresh files are taken to have their recorded lengths, which `Focusing.StockVouches` and `Focusing.NoteVouches` give for every map the program passes.
- Focusing.ShareSafely: the order pairs are carried out in, the hold on locks, the requests to the filesystem and the settling of their outcomes are not modelled.
- Planner.Keeper: members are indices instead of references, and locations are compared as component sequences.
- Coalesce.NoRequestIsLost: processes do not crash, and the flag is down when they start; a flag left up by a crash would be one more run than there are raises.
- Watching.Session.Turn: a call that fails ends the session, so a turn is one in which none does.
- Watching.Session.HandleAll: waiter threads are the multiset of waiters whose signal is still to come; channels and their capacity are left out.
- Watching.Session.Start: which directories are asked to be watched, what was already walked, and the records of hooks are left out; so is the pruning that the watcher starts.
- Release.ReplyIsSound: snapshots are taken at one instant and a barrier that returns delivered every earlier event; both are the operating system's part.
- Resuming.WriteAndLoad: writing fails for no other reason than a number that does not fit; a full disk or a damaged database is a failing write as well, after which the session gives the cache up.
- CacheFile.Commit: a transaction happens as a whole or not at all; the database's recovery from a crash is left out.
- CacheFile.Load: of tables no commit wrote (paths spelt differently, rows of unknown roots) it states only that what is loaded is sound, not which error or which rows are met first.
- Tallies.Tally.Used: directory markers and the content print that a tally can carry are left out.
- Locations.Display: names are bytes; replacing what is not UTF-8 by a placeholder is left out.
- Locations.KeyMeansSame: lower-casing is any function that keeps names non-empty and makes no separators.
- Gates.DeletableExactlyWhen: the tables that settle a marker or a worktree are replaced by their settlements, and the tier and lock protocol of a kind are fields of the kind.
- The client's side of the release protocol, the byte codec of its record and the proof that a process holds a lock.
- Identifying artifacts, the rule table, and deriving the shape, area and owners of a site: these only supply values that the gates take.
- The clients of Git, Docker, mise and rustup, command line, reports, logging and the repository's own checks.
- Hashes: prints are arbitrary functions; that equal prints mean equal contents is not claimed.
