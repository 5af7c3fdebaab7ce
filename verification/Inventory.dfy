/** The inventory of a build directory: one walk that lists it, and how a reported change is looked up.

  The filesystem is a tree of nodes.  A directory carries the device it is on and whether it can be
  listed; a file carries its length and its facts, unless they cannot be read.  `Blocked` is an entry whose
  metadata cannot be read, with what its directory tells of its type; `Other` stands for links and devices.
 */
module Inventory {
  import opened Common
  import opened Paths
  import opened Records

  datatype Node =
    | File(len: U64, facts: Option<FileFacts>)
    | Directory(device: nat, readable: bool, entries: map<Component, Node>)
    | Blocked(told: Told)
    | Other

  datatype Told = Nothing | IsDirectory | IsFile

  /** A directory lists ordinary names only: never `.`, `..` or a root. */
  predicate Named(node: Node) {
    node.Directory? ==> forall name | name in node.entries :: name.Normal? && Named(node.entries[name])
  }

  type Files = map<Path, FileFacts>

  datatype Event = Appeared | Vanished | Written | Unsure

  // ".storage-scout-share"
  const TEMPORARY_SUFFIX: Name :=
    [46, 115, 116, 111, 114, 97, 103, 101, 45, 115, 99, 111, 117, 116, 45, 115, 104, 97, 114, 101]

  predicate Temporary(name: Component) {
    && name.Normal?
    && |name.name| >= |TEMPORARY_SUFFIX|
    && name.name[|name.name| - |TEMPORARY_SUFFIX|..] == TEMPORARY_SUFFIX
  }

  // ---------- what a walk finds ----------

  function Lookup(node: Node, path: Path): Option<Node> {
    if path == [] then Some(node)
    else if node.Directory? && path[0] in node.entries then Lookup(node.entries[path[0]], path[1..])
    else None
  }

  /** A regular file large enough to share and not one of the program's own temporaries. */
  predicate Wanted(name: Component, node: Node) {
    node.File? && node.len >= MINIMUM && !Temporary(name)
  }

  /** The node a walk from `node` would look at for a path: the walk stays on one device. */
  function Reached(node: Node, device: nat, path: Path): Option<Node> {
    if path == [] then Some(node)
    else if !node.Directory? || path[0] !in node.entries then None
    else
      var child := node.entries[path[0]];
      if |path| == 1 then Some(child)
      else if child.Directory? && child.device == device then Reached(child, device, path[1..])
      else None
  }

  /** The facts a walk from `node` records for a path. */
  function FactsAt(node: Node, device: nat, path: Path): Option<FileFacts> {
    if path == [] then None else
      match Reached(node, device, path)
      case None => None
      case Some(found) => if Wanted(path[|path| - 1], found) then found.facts else None
  }

  /** A file the walk wants whose facts cannot be read. */
  predicate UnreadableAt(node: Node, device: nat, path: Path) {
    && path != []
    && var found := Reached(node, device, path);
       found.Some? && Wanted(path[|path| - 1], found.value) && found.value.facts.None?
  }

  function AllPaths(node: Node): set<Path> {
    if node.Directory? then
      {[]} + set name, below | name in node.entries && below in AllPaths(node.entries[name]) :: [name] + below
    else {[]}
  }

  /** An entry that ends the walk: it has to be inspected and cannot be. */
  predicate Blocks(name: Component, node: Node) {
    node.Blocked? && (node.told.IsFile? ==> !Temporary(name))
  }

  predicate Listable(node: Node) {
    node.Directory? && node.readable && forall name | name in node.entries :: !Blocks(name, node.entries[name])
  }

  /** Every directory the walk enters can be listed, and every entry in it inspected. */
  predicate Readable(node: Node, device: nat) {
    && Listable(node)
    && forall name | name in node.entries ::
         node.entries[name].Directory? && node.entries[name].device == device ==> Readable(node.entries[name], device)
  }

  /** The program's temporaries are the files whose names end in its suffix. */
  lemma TemporaryExactlyWhen(name: Component)
    ensures Temporary(name) <==> exists stem: Name :: name == Normal(stem + Ascii(".storage-scout-share"))
  {
    assert Ascii(".storage-scout-share") == TEMPORARY_SUFFIX;
    if Temporary(name) {
      var stem := name.name[..|name.name| - |TEMPORARY_SUFFIX|];
      assert name == Normal(stem + Ascii(".storage-scout-share"));
    }
    if stem: Name :| name == Normal(stem + Ascii(".storage-scout-share")) {
      assert name.name[|name.name| - |TEMPORARY_SUFFIX|..] == Ascii(".storage-scout-share");
    }
  }

  /** A walk ends at an entry that cannot be inspected, unless that is told to be a file and is a temporary. */
  lemma BlocksExactlyWhen(name: Component, node: Node)
    ensures Blocks(name, node) <==>
      node.Blocked? && !(node.told == IsFile && exists stem: Name :: name == Normal(stem + Ascii(".storage-scout-share")))
  {
    TemporaryExactlyWhen(name);
  }

  /** What a walk records for a path: the facts of a file of 64 KiB or more that it comes to and that is none
    of the program's temporaries, if they can be read. */
  lemma ListedExactlyWhen(node: Node, device: nat, path: Path)
    ensures path in Listed(node, device) <==>
      && path != [] && Reached(node, device, path).Some?
      && var found := Reached(node, device, path).value;
         && found.File? && found.facts.Some? && found.len >= 65536
         && !(exists stem: Name :: path[|path| - 1] == Normal(stem + Ascii(".storage-scout-share")))
    ensures path in Listed(node, device) ==> Listed(node, device)[path] == Reached(node, device, path).value.facts.value
  {
    if path != [] {
      TemporaryExactlyWhen(path[|path| - 1]);
      if Reached(node, device, path).Some? {
        ReachedIsAPath(node, device, path);
      }
    }
  }

  function Listed(node: Node, device: nat): Files {
    map path | path in AllPaths(node) && FactsAt(node, device, path).Some? :: FactsAt(node, device, path).value
  }

  function Unreadables(node: Node, device: nat): set<Path> {
    set path | path in AllPaths(node) && UnreadableAt(node, device, path)
  }

  // ---------- the walk ----------

  /** A directory the walk lists. */
  predicate Entered(node: Node, device: nat, path: Path) {
    var found := Reached(node, device, path);
    found.Some? && found.value.Directory? && (path == [] || found.value.device == device)
  }

  lemma {:induction false} ReachedChild(node: Node, device: nat, path: Path, name: Component)
    ensures Reached(node, device, path + [name]) ==
            if Entered(node, device, path) && name in Reached(node, device, path).value.entries
            then Some(Reached(node, device, path).value.entries[name]) else None
  {
    if path == [] {
      assert path + [name] == [name];
    } else {
      assert (path + [name])[1..] == path[1..] + [name];
      if node.Directory? && path[0] in node.entries {
        var child := node.entries[path[0]];
        if child.Directory? && child.device == device {
          ReachedChild(child, device, path[1..], name);
        }
      }
    }
  }

  lemma {:induction false} ReachedIsAPath(node: Node, device: nat, path: Path)
    requires Reached(node, device, path).Some?
    ensures path in AllPaths(node)
    ensures Lookup(node, path) == Reached(node, device, path)
  {
    if |path| == 1 {
      assert path[1..] == [] && path == [path[0]] + [];
      assert [] in AllPaths(node.entries[path[0]]);
    } else if path != [] {
      ReachedIsAPath(node.entries[path[0]], device, path[1..]);
      assert path == [path[0]] + path[1..];
    }
  }

  lemma {:induction false} ReadableReachesDown(node: Node, device: nat, path: Path)
    requires Readable(node, device) && Entered(node, device, path)
    ensures Readable(Reached(node, device, path).value, device)
  {
    if |path| == 1 {
    } else if path != [] {
      ReadableReachesDown(node.entries[path[0]], device, path[1..]);
    }
  }

  lemma {:induction false} ReadableBuildsUp(node: Node, device: nat)
    requires node.Directory?
    requires forall path :: Entered(node, device, path) ==> Listable(Reached(node, device, path).value)
    ensures Readable(node, device)
  {
    assert Entered(node, device, []);
    forall name | name in node.entries && node.entries[name].Directory? && node.entries[name].device == device
      ensures Readable(node.entries[name], device)
    {
      var child := node.entries[name];
      forall path | Entered(child, device, path) ensures Listable(Reached(child, device, path).value) {
        assert ([name] + path)[1..] == path;
        assert Reached(node, device, [name] + path) == Reached(child, device, path);
        assert Entered(node, device, [name] + path);
      }
      ReadableBuildsUp(child, device);
    }
  }

  ghost predicate Unvisited(pending: seq<Path>, visited: set<Path>) {
    && (forall i :: 0 <= i < |pending| ==> pending[i] !in visited)
    && (forall i, j :: 0 <= i < j < |pending| ==> pending[i] != pending[j])
  }

  /** The frontier: a directory is known exactly when the one that holds it has been listed. */
  ghost predicate Frontier(node: Node, device: nat, pending: seq<Path>, visited: set<Path>) {
    && Unvisited(pending, visited)
    && (forall path :: path in pending || path in visited ==> Entered(node, device, path))
    && ([] in pending || [] in visited)
    && (forall path, name :: Entered(node, device, path + [name]) ==>
          (path in visited <==> (path + [name] in pending || path + [name] in visited)))
  }

  lemma {:induction false} DoneMeansAll(node: Node, device: nat, visited: set<Path>, path: Path)
    requires Frontier(node, device, [], visited)
    requires Entered(node, device, path)
    ensures path in visited
    decreases |path|
  {
    if path != [] {
      var parent, name := path[..|path| - 1], path[|path| - 1];
      assert path == parent + [name];
      ReachedChild(node, device, parent, name);
      DoneMeansAll(node, device, visited, parent);
    }
  }

  /** What has been recorded so far: everything wanted in the directories already listed. */
  ghost predicate Collected(node: Node, device: nat, visited: set<Path>, files: Files, unreadable: set<Path>) {
    && (forall path, name :: path + [name] in files <==>
          path in visited && FactsAt(node, device, path + [name]).Some?)
    && (forall path :: path in files ==> path != [] && FactsAt(node, device, path) == Some(files[path]))
    && (forall path, name :: path + [name] in unreadable <==>
          path in visited && UnreadableAt(node, device, path + [name]))
    && [] !in unreadable
  }

  datatype Found = Found(files: Files, unreadable: nat)

  /** `inventory_under`: what listing `start` on `device` gives, or an error when a directory cannot be listed or
    an entry cannot be inspected. */
  ghost function Inventoried(start: Node, device: nat): Option<Found> {
    if Readable(start, device) then Some(Found(Listed(start, device), |Unreadables(start, device)|)) else None
  }

  /** What one directory contributes, by entry name. */
  datatype Page = Page(below: seq<Component>, files: map<Component, FileFacts>, unreadable: set<Component>)

  ghost predicate Sorts(page: Page, entries: map<Component, Node>, names: set<Component>, device: nat) {
    && (forall i, j :: 0 <= i < j < |page.below| ==> page.below[i] != page.below[j])
    && (forall name :: name in page.below <==>
          name in names && name in entries && entries[name].Directory? && entries[name].device == device)
    && (forall name :: name in page.files <==>
          name in names && name in entries && Wanted(name, entries[name]) && entries[name].facts.Some?)
    && (forall name :: name in page.files ==> entries[name].facts == Some(page.files[name]))
    && (forall name :: name in page.unreadable <==>
          name in names && name in entries && Wanted(name, entries[name]) && entries[name].facts.None?)
  }

  /** The entries of one directory, in whatever order the filesystem returns them; nothing as soon as one of
    them cannot be inspected. */
  method ListDirectory(entries: map<Component, Node>, device: nat) returns (listed: Option<Page>)
    ensures listed.Some? ==> Sorts(listed.value, entries, entries.Keys, device)
    ensures listed.None? <==> exists name :: name in entries && Blocks(name, entries[name])
  {
    var page := Page([], map[], {});
    var todo := entries.Keys;
    while todo != {}
      invariant todo <= entries.Keys
      invariant forall name :: name in entries && name !in todo ==> !Blocks(name, entries[name])
      invariant Sorts(page, entries, entries.Keys - todo, device)
    {
      var name :| name in todo;
      todo := todo - {name};
      var child := entries[name];
      if Blocks(name, child) {
        return None;
      } else if child.Directory? {
        if child.device == device {
          page := page.(below := page.below + [name]);
        }
      } else if Wanted(name, child) {
        match child.facts {
          case Some(facts) => page := page.(files := page.files[name := facts]);
          case None => page := page.(unreadable := page.unreadable + {name});
        }
      }
    }
    return Some(page);
  }

  function Under(directory: Path, names: seq<Component>): (paths: seq<Path>)
    ensures |paths| == |names|
    ensures forall i :: 0 <= i < |names| ==> paths[i] == directory + [names[i]]
  {
    seq(|names|, i requires 0 <= i < |names| => directory + [names[i]])
  }

  function FilesUnder(directory: Path, files: map<Component, FileFacts>): Files {
    map path | path in (set name | name in files :: directory + [name]) :: files[path[|path| - 1]]
  }

  function PathsUnder(directory: Path, names: set<Component>): set<Path> {
    set name | name in names :: directory + [name]
  }

  lemma PathsUnderCount(directory: Path, names: set<Component>)
    ensures |PathsUnder(directory, names)| == |names|
  {
    if names == {} {
      assert PathsUnder(directory, names) == {};
    } else {
      var name :| name in names;
      PathsUnderCount(directory, names - {name});
      var rest := PathsUnder(directory, names - {name});
      forall other | other in names && directory + [other] == directory + [name] ensures other == name {
        JoinIsInjective(directory, other, directory, name);
      }
      assert PathsUnder(directory, names) == rest + {directory + [name]};
    }
  }

  lemma JoinIsInjective(left: Path, x: Component, right: Path, y: Component)
    requires left + [x] == right + [y]
    ensures left == right && x == y
  {
    assert (left + [x])[..|left|] == left && (left + [x])[|left|] == x;
    assert (right + [y])[..|right|] == right && (right + [y])[|right|] == y;
  }

  lemma StepKeepsFrontier(node: Node, device: nat, directory: Path, rest: seq<Path>, visited: set<Path>, page: Page)
    requires Frontier(node, device, rest + [directory], visited)
    requires Entered(node, device, directory)
    requires var entries := Reached(node, device, directory).value.entries; Sorts(page, entries, entries.Keys, device)
    ensures directory !in visited
    ensures Frontier(node, device, rest + Under(directory, page.below), visited + {directory})
  {
    var before, below := rest + [directory], Under(directory, page.below);
    var after := rest + below;
    assert before[|rest|] == directory;
    assert forall i :: 0 <= i < |rest| ==> before[i] == rest[i];
    assert forall path :: path in before <==> path in rest || path == directory;
    assert forall path :: path in after <==> path in rest || path in below;
    forall i | 0 <= i < |below|
      ensures Entered(node, device, below[i]) && below[i] !in before && below[i] !in visited && below[i] != directory
    {
      ReachedChild(node, device, directory, page.below[i]);
    }
    forall i, j | 0 <= i < j < |below| ensures below[i] != below[j] {
      if below[i] == below[j] {
        JoinIsInjective(directory, page.below[i], directory, page.below[j]);
      }
    }
    forall path, name | Entered(node, device, path + [name])
      ensures path in visited + {directory} <==>
              (path + [name] in after || path + [name] in visited + {directory})
    {
      NewlySeen(node, device, directory, page, path, name);
    }
  }

  /** What is below a directory just visited is exactly what its page sorted there. */
  lemma NewlySeen(node: Node, device: nat, directory: Path, page: Page, path: Path, name: Component)
    requires Entered(node, device, directory) && Entered(node, device, path + [name])
    requires var entries := Reached(node, device, directory).value.entries; Sorts(page, entries, entries.Keys, device)
    ensures path + [name] in Under(directory, page.below) <==> path == directory
    ensures path + [name] != path
  {
    var below := Under(directory, page.below);
    ReachedChild(node, device, path, name);
    if path == directory {
      var i :| 0 <= i < |page.below| && page.below[i] == name;
      assert below[i] == path + [name];
    } else if path + [name] in below {
      var i :| 0 <= i < |below| && below[i] == path + [name];
      JoinIsInjective(directory, page.below[i], path, name);
    }
  }

  lemma PageHolds(node: Node, device: nat, directory: Path, page: Page, path: Path, name: Component)
    requires Entered(node, device, directory)
    requires var entries := Reached(node, device, directory).value.entries; Sorts(page, entries, entries.Keys, device)
    ensures path + [name] in FilesUnder(directory, page.files) <==>
            path == directory && FactsAt(node, device, path + [name]).Some?
    ensures path + [name] in FilesUnder(directory, page.files) ==>
            FactsAt(node, device, path + [name]) == Some(FilesUnder(directory, page.files)[path + [name]])
    ensures path + [name] in PathsUnder(directory, page.unreadable) <==>
            path == directory && UnreadableAt(node, device, path + [name])
  {
    assert (path + [name])[|path|] == name;
    ReachedChild(node, device, directory, name);
    if other :| other in page.files && directory + [other] == path + [name] {
      JoinIsInjective(directory, other, path, name);
    }
    if other :| other in page.unreadable && directory + [other] == path + [name] {
      JoinIsInjective(directory, other, path, name);
    }
  }

  lemma StepKeepsCollected(node: Node, device: nat, directory: Path, visited: set<Path>,
                           files: Files, unreadable: set<Path>, page: Page)
    requires Collected(node, device, visited, files, unreadable)
    requires Entered(node, device, directory) && directory !in visited
    requires var entries := Reached(node, device, directory).value.entries; Sorts(page, entries, entries.Keys, device)
    ensures Collected(node, device, visited + {directory}, files + FilesUnder(directory, page.files),
                      unreadable + PathsUnder(directory, page.unreadable))
    ensures unreadable !! PathsUnder(directory, page.unreadable)
  {
    var more, lost := FilesUnder(directory, page.files), PathsUnder(directory, page.unreadable);
    forall path, name
      ensures path + [name] in more <==> path == directory && FactsAt(node, device, path + [name]).Some?
      ensures path + [name] in more ==> FactsAt(node, device, path + [name]) == Some(more[path + [name]])
      ensures path + [name] in lost <==> path == directory && UnreadableAt(node, device, path + [name])
    {
      PageHolds(node, device, directory, page, path, name);
    }
    forall path | path in more ensures path != [] && FactsAt(node, device, path) == Some(more[path]) {
      assert path == path[..|path| - 1] + [path[|path| - 1]];
    }
    forall path | path in lost ensures path !in unreadable {
      assert path == path[..|path| - 1] + [path[|path| - 1]];
    }
  }

  lemma FrontierStarts(node: Node, device: nat)
    requires node.Directory?
    ensures Frontier(node, device, [[]], {})
  {
    forall path, name | Entered(node, device, path + [name]) ensures path + [name] !in [[]] {
      assert path + [name] != [];
    }
  }

  lemma EverythingCollected(node: Node, device: nat, visited: set<Path>, files: Files, unreadable: set<Path>)
    requires Frontier(node, device, [], visited)
    requires Collected(node, device, visited, files, unreadable)
    requires node.Directory?
    requires forall path :: path in visited ==> Entered(node, device, path) && Listable(Reached(node, device, path).value)
    ensures Readable(node, device)
    ensures files == Listed(node, device)
    ensures unreadable == Unreadables(node, device)
  {
    forall path | Entered(node, device, path) ensures path in visited {
      DoneMeansAll(node, device, visited, path);
    }
    ReadableBuildsUp(node, device);
    forall path
      ensures path in files <==> FactsAt(node, device, path).Some?
      ensures path in unreadable <==> UnreadableAt(node, device, path)
      ensures FactsAt(node, device, path).Some? || UnreadableAt(node, device, path) ==> path in AllPaths(node)
    {
      if path != [] {
        var parent, name := path[..|path| - 1], path[|path| - 1];
        assert path == parent + [name];
        ReachedChild(node, device, parent, name);
        if Reached(node, device, path).Some? {
          ReachedIsAPath(node, device, path);
        }
      }
    }
  }

  /** The walk: a stack of directories, each listed once; its answer is the recursive definition's. */
  method InventoryUnder(start: Node, device: nat) returns (found: Option<Found>)
    ensures found == Inventoried(start, device)
  {
    if !start.Directory? {
      return None;
    }
    var pending: seq<Path> := [[]];
    var files: Files := map[];
    var unreadable := 0;
    ghost var lost: set<Path> := {};
    ghost var visited: set<Path> := {};
    FrontierStarts(start, device);
    while pending != []
      invariant Frontier(start, device, pending, visited)
      invariant Collected(start, device, visited, files, lost)
      invariant forall path :: path in visited ==> Listable(Reached(start, device, path).value)
      invariant unreadable == |lost|
      decreases AllPaths(start) - visited
    {
      var directory, rest := pending[|pending| - 1], pending[..|pending| - 1];
      assert pending == rest + [directory];
      ReachedIsAPath(start, device, directory);
      var node := Lookup(start, directory).value;
      if Readable(start, device) {
        ReadableReachesDown(start, device, directory);
      }
      if !node.readable {
        return None;
      }
      var listed := ListDirectory(node.entries, device);
      if listed.None? {
        return None;
      }
      var page := listed.value;
      StepKeepsFrontier(start, device, directory, rest, visited, page);
      StepKeepsCollected(start, device, directory, visited, files, lost, page);
      PathsUnderCount(directory, page.unreadable);
      pending := rest + Under(directory, page.below);
      files := files + FilesUnder(directory, page.files);
      unreadable := unreadable + |page.unreadable|;
      lost := lost + PathsUnder(directory, page.unreadable);
      visited := visited + {directory};
    }
    EverythingCollected(start, device, visited, files, lost);
    return Some(Found(files, unreadable));
  }
}
