/** How a reported change updates an inventory, and when the result is the inventory a fresh walk would give. */
module Noting {
  import opened Common
  import opened Paths
  import opened Records
  import opened Inventory

  type Changed = map<Path, Event>

  // ---------- what is looked up for one change ----------

  function FileName(path: Path): Option<Component> {
    if path != [] && path[|path| - 1].Normal? then Some(path[|path| - 1]) else None
  }

  /** `shallow`: the wanted files directly in a directory; nothing when it cannot be listed. */
  function Shallow(directory: Node, relative: Path): Files
    requires directory.Directory?
  {
    if !directory.readable then map[] else
      map path | path in (set name | name in directory.entries && Wanted(name, directory.entries[name])
                                     && directory.entries[name].facts.Some? :: relative + [name])
        :: directory.entries[path[|path| - 1]].facts.value
  }

  /** `inventory_under(root, path)`: a walk from a directory below the root, staying on the root's device. */
  function Deep(directory: Node, device: nat, relative: Path): Files {
    if !Readable(directory, device) then map[] else
      var listed := Listed(directory, device);
      map path | path in (set below | below in listed :: relative + below) :: listed[path[|relative|..]]
  }

  /** `present`: what is at a changed path now. */
  function Present(tree: Node, root: Path, relative: Path, event: Event): Files {
    match Lookup(tree, relative)
    case Some(Directory(device, readable, entries)) =>
      var directory := Lookup(tree, relative).value;
      if event == Unsure then Shallow(directory, relative)
      else if tree.Directory? then Deep(directory, tree.device, relative)
      else map[]
    case Some(File(len, facts)) =>
      var name := FileName(root + relative);
      if len >= MINIMUM && !(name.Some? && Temporary(name.value)) && facts.Some?
      then map[relative := facts.value] else map[]
    case _ => map[]
  }

  /** Whether there is anything at a path whose metadata can be read. */
  predicate Visible(tree: Node, path: Path) {
    Lookup(tree, path).Some? && !Lookup(tree, path).value.Blocked?
  }

  /** `still_there`: the entry of the directory a recorded path goes through still exists. */
  predicate StillThere(tree: Node, relative: Path, recorded: Path) {
    relative <= recorded && |recorded| > |relative| && Visible(tree, recorded[..|relative| + 1])
  }

  /** The recorded paths one change takes out. */
  predicate Drops(tree: Node, relative: Path, event: Event, recorded: Path) {
    && relative <= recorded
    && (event == Unsure ==> Parent(recorded) == Some(relative) || !StillThere(tree, relative, recorded))
  }

  lemma {:induction false} LookupKeepsNames(node: Node, path: Path)
    requires Named(node) && Lookup(node, path).Some?
    ensures Named(Lookup(node, path).value)
  {
    if path != [] {
      LookupKeepsNames(node.entries[path[0]], path[1..]);
    }
  }

  /** Whatever one change adds was not recorded, or was taken out by the same change. */
  lemma AddsOnlyWhatItDrops(tree: Node, root: Path, relative: Path, event: Event, path: Path)
    requires Named(tree)
    requires path in Present(tree, root, relative, event)
    ensures Drops(tree, relative, event, path)
  {
    LookupKeepsNames(tree, relative);
    var node := Lookup(tree, relative).value;
    if node.Directory? && event == Unsure {
      EntryIsDirect(node, relative, path);
    }
  }

  lemma EntryIsDirect(directory: Node, relative: Path, path: Path)
    requires Named(directory) && directory.Directory? && path in Shallow(directory, relative)
    ensures relative <= path && Parent(path) == Some(relative)
  {
    assert path == relative + [path[|path| - 1]] && path[|path| - 1] in directory.entries;
  }

  // ---------- a whole note ----------

  function Recorded(files: Files, path: Path): Option<FileFacts> {
    if path in files then Some(files[path]) else None
  }

  function Only(files: Files, paths: set<Path>): Files {
    map path | path in files && path in paths :: files[path]
  }

  function Selected(files: Files, drops: Path -> bool): set<Path> {
    set path | path in files && drops(path)
  }

  /** How far `note` has got: the recorded files, what was taken out and what was added. */
  datatype Progress = Progress(files: Files, removed: Files, added: Files)

  function Step(progress: Progress, drops: Path -> bool, present: Files): Progress {
    var gone := Selected(progress.files, drops);
    Progress(progress.files - gone, progress.removed + Only(progress.files, gone), progress.added + present)
  }

  function Dropper(tree: Node, relative: Path, event: Event): Path -> bool {
    recorded => Drops(tree, relative, event, recorded)
  }

  /** The progress after the changes in `order`, each looked up in the tree as it was at that moment. */
  function After(recorded: Files, root: Path, changed: Changed, seen: map<Path, Node>, order: seq<Path>): Progress
    requires forall path :: path in order ==> path in changed && path in seen
  {
    if order == [] then Progress(recorded, map[], map[]) else
      var path, before := order[|order| - 1], After(recorded, root, changed, seen, order[..|order| - 1]);
      if !(root <= path) then before else
        var relative := path[|root|..];
        Step(before, Dropper(seen[path], relative, changed[path]), Present(seen[path], root, relative, changed[path]))
  }

  lemma AfterOneMore(recorded: Files, root: Path, changed: Changed, seen: map<Path, Node>, done: seq<Path>, path: Path)
    requires forall change :: change in done + [path] ==> change in changed && change in seen
    ensures
      var before := After(recorded, root, changed, seen, done);
      After(recorded, root, changed, seen, done + [path]) ==
      if !(root <= path) then before else
        Step(before, Dropper(seen[path], path[|root|..], changed[path]),
             Present(seen[path], root, path[|root|..], changed[path]))
  {
    assert (done + [path])[..|done|] == done;
  }

  /** What `note` leaves recorded. */
  function Noted(files: Files, root: Path, changed: Changed, seen: map<Path, Node>): Files
    requires changed.Keys <= seen.Keys
  {
    var progress := After(files, root, changed, seen, Ascending(changed.Keys));
    progress.files + progress.added
  }

  predicate DroppedBy(root: Path, changed: Changed, seen: map<Path, Node>, order: seq<Path>, recorded: Path)
    requires forall path :: path in order ==> path in changed && path in seen
  {
    exists path | path in order ::
      root <= path && Drops(seen[path], path[|root|..], changed[path], recorded)
  }

  /** A recorded path is taken out when some change speaks for it, and otherwise kept as it was. */
  lemma {:induction false} AfterAt(recorded: Files, root: Path, changed: Changed, seen: map<Path, Node>,
                                   order: seq<Path>, path: Path)
    requires forall change :: change in order ==> change in changed && change in seen
    ensures
      var progress, dropped := After(recorded, root, changed, seen, order), DroppedBy(root, changed, seen, order, path);
      && Recorded(progress.files, path) == (if dropped then None else Recorded(recorded, path))
      && Recorded(progress.removed, path) == (if dropped then Recorded(recorded, path) else None)
  {
    if order != [] {
      var change, rest := order[|order| - 1], order[..|order| - 1];
      assert order == rest + [change];
      AfterAt(recorded, root, changed, seen, rest, path);
    }
  }

  /** Looking a change up finds a wanted file at this path. */
  predicate FoundAt(root: Path, changed: Changed, seen: map<Path, Node>, change: Path, path: Path)
    requires change in changed && change in seen
  {
    root <= change && path in Present(seen[change], root, change[|root|..], changed[change])
  }

  /** An added path was found by some change, which also speaks for it; and what any change finds is added. */
  lemma {:induction false} AddedAt(recorded: Files, root: Path, changed: Changed, seen: map<Path, Node>,
                                   order: seq<Path>, path: Path)
    requires forall change :: change in order ==> change in changed && change in seen
    ensures
      var added := After(recorded, root, changed, seen, order).added;
      && (path in added <==> exists change :: change in order && FoundAt(root, changed, seen, change, path))
      && (path in added ==>
            exists change :: change in order && FoundAt(root, changed, seen, change, path)
              && added[path] == Present(seen[change], root, change[|root|..], changed[change])[path])
  {
    if order != [] {
      var change, rest := order[|order| - 1], order[..|order| - 1];
      assert order == rest + [change];
      AddedAt(recorded, root, changed, seen, rest, path);
      if root <= change {
        assert FoundAt(root, changed, seen, change, path) <==>
               path in Present(seen[change], root, change[|root|..], changed[change]);
      }
    }
  }

  /** No added path survives the removals under another fact: it was absent, or it was dropped. */
  lemma AddedWasNotKept(recorded: Files, root: Path, changed: Changed, seen: map<Path, Node>, order: seq<Path>)
    requires forall path :: path in order ==> path in changed && path in seen
    requires forall path :: path in seen ==> Named(seen[path])
    ensures
      var progress := After(recorded, root, changed, seen, order);
      progress.files.Keys !! progress.added.Keys
  {
    var progress := After(recorded, root, changed, seen, order);
    forall path | path in progress.added ensures Recorded(progress.files, path) == None {
      AddedAt(recorded, root, changed, seen, order, path);
      AfterAt(recorded, root, changed, seen, order, path);
      var change :| change in order && FoundAt(root, changed, seen, change, path);
      AddsOnlyWhatItDrops(seen[change], root, change[|root|..], changed[change], path);
    }
  }

  // ---------- a note against a fresh walk ----------

  /** Every directory on the way to a path, and the path itself if it is one, is on the device. */
  predicate OnDevice(node: Node, device: nat, path: Path) {
    path == [] || !node.Directory? || path[0] !in node.entries ||
    var child := node.entries[path[0]];
    (child.Directory? ==> child.device == device) && OnDevice(child, device, path[1..])
  }

  lemma {:induction false} WalkGoesThrough(node: Node, device: nat, path: Path, below: Path)
    requires Lookup(node, path).Some?
    requires OnDevice(node, device, path)
    ensures Reached(node, device, path + below) ==
            Reached(Lookup(node, path).value, device, below)
    ensures path + below != [] && below != [] ==> (path + below)[|path + below| - 1] == below[|below| - 1]
  {
    if path == [] {
      assert path + below == below;
    } else {
      var child := node.entries[path[0]];
      assert (path + below)[1..] == path[1..] + below;
      WalkGoesThrough(child, device, path[1..], below);
      if path[1..] + below == [] {
        assert Reached(child, device, []) == Some(child);
      }
      if !child.Directory? {
        assert path[1..] == [];
      }
    }
  }

  lemma {:induction false} WalkStopsAtMounts(node: Node, device: nat, path: Path, below: Path)
    requires !OnDevice(node, device, path)
    ensures FactsAt(node, device, path + below).None?
  {
    assert (path + below)[1..] == path[1..] + below;
    var child := node.entries[path[0]];
    if child.Directory? && child.device == device {
      WalkStopsAtMounts(child, device, path[1..], below);
    }
  }

  lemma {:induction false} LookupGoesThrough(node: Node, path: Path, below: Path)
    ensures Lookup(node, path + below) ==
            if Lookup(node, path).Some? then Lookup(Lookup(node, path).value, below) else None
  {
    if path == [] {
      assert path + below == below;
    } else {
      assert (path + below)[1..] == path[1..] + below;
      if node.Directory? && path[0] in node.entries {
        LookupGoesThrough(node.entries[path[0]], path[1..], below);
      }
    }
  }

  /** The files a fresh walk of the root lists. */
  function Fresh(tree: Node): Files
    requires tree.Directory?
  {
    Listed(tree, tree.device)
  }

  lemma ListedIsFacts(node: Node, device: nat, path: Path)
    ensures path in Listed(node, device) <==> FactsAt(node, device, path).Some?
    ensures path in Listed(node, device) ==> FactsAt(node, device, path) == Some(Listed(node, device)[path])
  {
    if path != [] && Reached(node, device, path).Some? {
      ReachedIsAPath(node, device, path);
    }
  }

  lemma FileIsFresh(tree: Node, root: Path, relative: Path, event: Event)
    requires tree.Directory? && OnDevice(tree, tree.device, relative)
    requires Lookup(tree, relative).Some? && Lookup(tree, relative).value.File?
    ensures FactsAt(tree, tree.device, relative).Some? <==> relative in Present(tree, root, relative, event)
    ensures relative in Present(tree, root, relative, event) ==>
      FactsAt(tree, tree.device, relative) == Some(Present(tree, root, relative, event)[relative])
    ensures forall path :: path in Present(tree, root, relative, event) ==> path == relative
  {
    WalkGoesThrough(tree, tree.device, relative, []);
    assert relative + [] == relative;
    assert (root + relative)[|root + relative| - 1] == relative[|relative| - 1];
  }

  lemma ShallowIsFresh(tree: Node, relative: Path, name: Component)
    requires tree.Directory? && OnDevice(tree, tree.device, relative)
    requires Lookup(tree, relative).Some? && Lookup(tree, relative).value.Directory?
    requires Lookup(tree, relative).value.readable
    ensures
      var shallow := Shallow(Lookup(tree, relative).value, relative);
      && (relative + [name] in shallow <==> FactsAt(tree, tree.device, relative + [name]).Some?)
      && (relative + [name] in shallow ==>
            FactsAt(tree, tree.device, relative + [name]) == Some(shallow[relative + [name]]))
  {
    var node := Lookup(tree, relative).value;
    WalkGoesThrough(tree, tree.device, relative, [name]);
    assert (relative + [name])[|relative|] == name;
    if name in node.entries {
      assert Reached(node, tree.device, [name]) == Some(node.entries[name]);
    }
    if other :| other in node.entries && relative + [other] == relative + [name] {
      JoinIsInjective(relative, other, relative, name);
    }
  }

  lemma ShallowKeys(directory: Node, relative: Path, path: Path)
    requires directory.Directory? && path in Shallow(directory, relative)
    ensures path != [] && path == relative + [path[|path| - 1]]
    ensures directory.readable
  {}

  lemma DeepHolds(directory: Node, device: nat, relative: Path, below: Path)
    requires Readable(directory, device)
    ensures relative + below in Deep(directory, device, relative) <==> below in Listed(directory, device)
    ensures relative + below in Deep(directory, device, relative) ==>
      Deep(directory, device, relative)[relative + below] == Listed(directory, device)[below]
  {
    var listed := Listed(directory, device);
    assert (relative + below)[|relative|..] == below;
    forall other | other in listed && relative + other == relative + below ensures other == below {
      assert (relative + other)[|relative|..] == other;
    }
  }

  lemma DeepIsFresh(tree: Node, relative: Path, below: Path)
    requires tree.Directory? && OnDevice(tree, tree.device, relative)
    requires Lookup(tree, relative).Some? && Lookup(tree, relative).value.Directory?
    requires Readable(Lookup(tree, relative).value, tree.device)
    ensures
      var deep := Deep(Lookup(tree, relative).value, tree.device, relative);
      && (relative + below in deep <==> FactsAt(tree, tree.device, relative + below).Some?)
      && (relative + below in deep ==> FactsAt(tree, tree.device, relative + below) == Some(deep[relative + below]))
  {
    var node := Lookup(tree, relative).value;
    DeepHolds(node, tree.device, relative, below);
    ListedIsFacts(node, tree.device, below);
    WalkGoesThrough(tree, tree.device, relative, below);
    if below == [] {
      assert relative + below == relative;
    }
  }

  lemma DeepKeys(directory: Node, device: nat, relative: Path, path: Path)
    requires path in Deep(directory, device, relative)
    ensures relative <= path && path == relative + path[|relative|..]
    ensures Readable(directory, device)
  {}

  /** What a change finds on the root's own device is what the walk finds there. */
  lemma PresentIsFresh(tree: Node, root: Path, relative: Path, event: Event, path: Path)
    requires tree.Directory?
    requires OnDevice(tree, tree.device, relative)
    requires path in Present(tree, root, relative, event)
    ensures FactsAt(tree, tree.device, path) == Some(Present(tree, root, relative, event)[path])
  {
    var node := Lookup(tree, relative).value;
    if node.File? {
      FileIsFresh(tree, root, relative, event);
    } else if event == Unsure {
      ShallowKeys(node, relative, path);
      ShallowIsFresh(tree, relative, path[|path| - 1]);
    } else {
      DeepKeys(node, tree.device, relative, path);
      DeepIsFresh(tree, relative, path[|relative|..]);
    }
  }

  /** A change beyond a mount point finds only files the walk never sees. */
  lemma PresentBeyondMount(tree: Node, root: Path, relative: Path, event: Event, path: Path)
    requires tree.Directory?
    requires !OnDevice(tree, tree.device, relative)
    requires path in Present(tree, root, relative, event)
    ensures FactsAt(tree, tree.device, path).None?
  {
    assert relative <= path && path == relative + path[|relative|..];
    WalkStopsAtMounts(tree, tree.device, relative, path[|relative|..]);
  }

  /** The paths a change speaks for: itself and its entries, and everything below it, except that an
      `Unsure` directory does not speak for what lies below an entry that is still there. */
  predicate Reaches(tree: Node, relative: Path, event: Event, path: Path) {
    && relative <= path
    && (event == Unsure && |path| > |relative| + 1 ==> !Visible(tree, path[..|relative| + 1]))
  }

  /** `note` takes out exactly the recorded paths a change speaks for. */
  lemma DropsWhatItReaches(tree: Node, relative: Path, event: Event, path: Path)
    requires Named(tree)
    ensures Drops(tree, relative, event, path) <==> Reaches(tree, relative, event, path)
  {
    if relative <= path && |path| == |relative| + 1 {
      assert path[..|path| - 1] == relative && path[..|relative| + 1] == path;
      if Lookup(tree, path).Some? {
        LookupIsNamed(tree, path);
      }
    }
  }

  lemma {:induction false} LookupIsNamed(node: Node, path: Path)
    requires Named(node) && Lookup(node, path).Some?
    ensures forall i :: 0 <= i < |path| ==> path[i].Normal?
  {
    if path != [] {
      LookupIsNamed(node.entries[path[0]], path[1..]);
      assert path == [path[0]] + path[1..];
    }
  }

  /** A wanted file a change speaks for is found by looking the change up. */
  lemma ReachedFileIsPresent(tree: Node, root: Path, relative: Path, event: Event, path: Path)
    requires tree.Directory? && Named(tree) && Readable(tree, tree.device)
    requires Reaches(tree, relative, event, path)
    requires FactsAt(tree, tree.device, path).Some?
    ensures path in Present(tree, root, relative, event)
  {
    var device := tree.device;
    var below := path[|relative|..];
    assert path == relative + below;
    if !OnDevice(tree, device, relative) {
      WalkStopsAtMounts(tree, device, relative, below);
    }
    ReachedIsAPath(tree, device, path);
    LookupGoesThrough(tree, relative, below);
    WalkGoesThrough(tree, device, relative, []);
    assert relative + [] == relative;
    var node := Lookup(tree, relative).value;
    if node.File? {
      FileIsFresh(tree, root, relative, event);
    } else {
      WalkGoesThrough(tree, device, relative, below);
      OnDeviceEnters(tree, device, relative);
      ReadableReachesDown(tree, device, relative);
      if event == Unsure {
        if |path| > |relative| + 1 {
          EntryExists(tree, path, |relative| + 1);
        } else {
          assert path == relative + [path[|path| - 1]];
          ShallowIsFresh(tree, relative, path[|path| - 1]);
        }
      } else {
        DeepIsFresh(tree, relative, below);
      }
    }
  }

  lemma {:induction false} OnDeviceEnters(node: Node, device: nat, path: Path)
    requires OnDevice(node, device, path)
    requires Lookup(node, path).Some? && Lookup(node, path).value.Directory?
    ensures Entered(node, device, path)
  {
    if path != [] {
      OnDeviceEnters(node.entries[path[0]], device, path[1..]);
    }
  }

  lemma EntryExists(tree: Node, path: Path, length: nat)
    requires length <= |path| && Lookup(tree, path).Some?
    ensures Lookup(tree, path[..length]).Some?
    ensures length < |path| ==> Visible(tree, path[..length])
  {
    assert path == path[..length] + path[length..];
    LookupGoesThrough(tree, path[..length], path[length..]);
  }

  /** Whether there is something to list at an entry: it is a wanted file, or a directory with wanted files
      directly in it (`Unsure`), or with wanted files that a walk from it on the device comes to. */
  predicate Lists(tree: Node, root: Path, relative: Path, event: Event)
    requires tree.Directory?
  {
    match Lookup(tree, relative)
    case Some(File(len, facts)) =>
      var name := FileName(root + relative);
      len >= MINIMUM && facts.Some? && !(name.Some? && Temporary(name.value))
    case Some(Directory(device, readable, entries)) =>
      if event == Unsure then
        readable && exists name | name in entries :: Wanted(name, entries[name]) && entries[name].facts.Some?
      else
        var directory := Lookup(tree, relative).value;
        && Readable(directory, tree.device)
        && exists below | below in AllPaths(directory) :: FactsAt(directory, tree.device, below).Some?
    case _ => false
  }

  lemma ListsMeansPresent(tree: Node, root: Path, relative: Path, event: Event)
    requires tree.Directory?
    ensures Lists(tree, root, relative, event) <==> Present(tree, root, relative, event) != map[]
  {
    var found, present := Lookup(tree, relative), Present(tree, root, relative, event);
    if found.Some? && found.value.File? {
      assert present != map[] <==> relative in present;
    } else if found.Some? && found.value.Directory? && event == Unsure {
      ShallowLists(found.value, relative);
    } else if found.Some? && found.value.Directory? && Readable(found.value, tree.device) {
      DeepLists(found.value, tree.device, relative);
    }
  }

  lemma ShallowLists(directory: Node, relative: Path)
    requires directory.Directory?
    ensures Shallow(directory, relative) != map[] <==>
      directory.readable && exists name | name in directory.entries ::
        Wanted(name, directory.entries[name]) && directory.entries[name].facts.Some?
  {
    if name :| name in directory.entries && Wanted(name, directory.entries[name])
               && directory.entries[name].facts.Some? && directory.readable {
      assert relative + [name] in Shallow(directory, relative);
    }
    if path :| path in Shallow(directory, relative) {
      ShallowKeys(directory, relative, path);
    }
  }

  lemma DeepLists(directory: Node, device: nat, relative: Path)
    requires Readable(directory, device)
    ensures Deep(directory, device, relative) != map[] <==>
      exists below | below in AllPaths(directory) :: FactsAt(directory, device, below).Some?
  {
    if below :| below in AllPaths(directory) && FactsAt(directory, device, below).Some? {
      assert below in Listed(directory, device);
      DeepHolds(directory, device, relative, below);
    }
    if path :| path in Deep(directory, device, relative) {
      DeepKeys(directory, device, relative, path);
      DeepHolds(directory, device, relative, path[|relative|..]);
    }
  }

  /** The condition under which a note can be trusted: each change inside the root is on the root's
      device, or there is nothing to list at it. */
  predicate StaysOnDevice(tree: Node, root: Path, changed: Changed)
    requires tree.Directory?
  {
    forall path | path in changed && root <= path ::
      OnDevice(tree, tree.device, path[|root|..]) || !Lists(tree, root, path[|root|..], changed[path])
  }

  /** Every path where the recorded files and a fresh walk differ is spoken for by some change. */
  ghost predicate Covered(files: Files, tree: Node, root: Path, changed: Changed)
    requires tree.Directory?
  {
    forall path :: Recorded(files, path) != FactsAt(tree, tree.device, path) ==>
      exists change :: change in changed && root <= change && Reaches(tree, change[|root|..], changed[change], path)
  }

  function Steady(tree: Node, changed: Changed): map<Path, Node> {
    map path | path in changed :: tree
  }

  /** The incremental inventory is the fresh one exactly when no change lies beyond a mount point with
      files to list there. */
  lemma NotedIsFreshExactlyOnDevice(files: Files, tree: Node, root: Path, changed: Changed)
    requires tree.Directory? && Named(tree) && Readable(tree, tree.device)
    requires Covered(files, tree, root, changed)
    ensures Noted(files, root, changed, Steady(tree, changed)) == Fresh(tree) <==> StaysOnDevice(tree, root, changed)
  {
    if StaysOnDevice(tree, root, changed) {
      NotedIsFresh(files, tree, root, changed);
    } else {
      var path :| path in changed && root <= path && !OnDevice(tree, tree.device, path[|root|..])
                  && Lists(tree, root, path[|root|..], changed[path]);
      ListsMeansPresent(tree, root, path[|root|..], changed[path]);
      var present := Present(tree, root, path[|root|..], changed[path]);
      var added :| added in present;
      AddedAt(files, root, changed, Steady(tree, changed), Ascending(changed.Keys), added);
      assert FoundAt(root, changed, Steady(tree, changed), path, added);
      PresentBeyondMount(tree, root, path[|root|..], changed[path], added);
      assert added in Noted(files, root, changed, Steady(tree, changed));
    }
  }

  lemma NotedIsFresh(files: Files, tree: Node, root: Path, changed: Changed)
    requires tree.Directory? && Named(tree) && Readable(tree, tree.device)
    requires Covered(files, tree, root, changed)
    requires StaysOnDevice(tree, root, changed)
    ensures Noted(files, root, changed, Steady(tree, changed)) == Fresh(tree)
  {
    var noted := Noted(files, root, changed, Steady(tree, changed));
    forall path ensures Recorded(noted, path) == FactsAt(tree, tree.device, path) {
      NotedAt(files, tree, root, changed, path);
    }
    forall path ensures path in noted <==> path in Fresh(tree) {
      ListedIsFacts(tree, tree.device, path);
      assert Recorded(noted, path) == FactsAt(tree, tree.device, path);
    }
    forall path | path in noted ensures noted[path] == Fresh(tree)[path] {
      ListedIsFacts(tree, tree.device, path);
      assert Recorded(noted, path) == FactsAt(tree, tree.device, path);
    }
  }

  lemma NotedAt(files: Files, tree: Node, root: Path, changed: Changed, path: Path)
    requires tree.Directory? && Named(tree) && Readable(tree, tree.device)
    requires Covered(files, tree, root, changed)
    requires StaysOnDevice(tree, root, changed)
    ensures Recorded(Noted(files, root, changed, Steady(tree, changed)), path) == FactsAt(tree, tree.device, path)
  {
    var order := Ascending(changed.Keys);
    var seen := Steady(tree, changed);
    AddedAt(files, root, changed, seen, order, path);
    AfterAt(files, root, changed, seen, order, path);
    var added := After(files, root, changed, seen, order).added;
    if path in added {
      var change :| change in order && FoundAt(root, changed, seen, change, path)
        && added[path] == Present(tree, root, change[|root|..], changed[change])[path];
      ListsMeansPresent(tree, root, change[|root|..], changed[change]);
      PresentIsFresh(tree, root, change[|root|..], changed[change], path);
    } else {
      forall change | change in changed && root <= change && Reaches(tree, change[|root|..], changed[change], path)
        ensures FactsAt(tree, tree.device, path).None?
        ensures DroppedBy(root, changed, seen, order, path)
      {
        DropsWhatItReaches(tree, change[|root|..], changed[change], path);
        assert FoundAt(root, changed, seen, change, path) <==>
               path in Present(tree, root, change[|root|..], changed[change]);
        if FactsAt(tree, tree.device, path).Some? {
          ReachedFileIsPresent(tree, root, change[|root|..], changed[change], path);
        }
      }
      if DroppedBy(root, changed, seen, order, path) {
        var change :| change in order && root <= change && Drops(seen[change], change[|root|..], changed[change], path);
        DropsWhatItReaches(tree, change[|root|..], changed[change], path);
        assert Reaches(tree, change[|root|..], changed[change], path);
      }
    }
  }

  /** One batch of changes and the tree they left behind. */
  datatype Batch = Batch(changed: Changed, tree: Node)

  ghost predicate GoodBatch(before: Node, batch: Batch, root: Path) {
    && before.Directory? && batch.tree.Directory?
    && Named(batch.tree) && Readable(batch.tree, batch.tree.device)
    && StaysOnDevice(batch.tree, root, batch.changed)
    && forall path :: FactsAt(before, before.device, path) != FactsAt(batch.tree, batch.tree.device, path) ==>
         exists change :: change in batch.changed && root <= change
           && Reaches(batch.tree, change[|root|..], batch.changed[change], path)
  }

  ghost predicate GoodRun(first: Node, batches: seq<Batch>, root: Path)
    decreases |batches|
  {
    batches != [] ==> GoodBatch(first, batches[0], root) && GoodRun(batches[0].tree, batches[1..], root)
  }

  function AfterRun(files: Files, batches: seq<Batch>, root: Path): Files
    decreases |batches|
  {
    if batches == [] then files
    else AfterRun(Noted(files, root, batches[0].changed, Steady(batches[0].tree, batches[0].changed)), batches[1..], root)
  }

  /** After any number of batches the recorded files are those of a fresh walk of the last tree. */
  lemma {:induction false} RunStaysFresh(first: Node, batches: seq<Batch>, root: Path)
    requires first.Directory?
    requires GoodRun(first, batches, root)
    ensures
      var last := if batches == [] then first else batches[|batches| - 1].tree;
      last.Directory? && AfterRun(Fresh(first), batches, root) == Fresh(last)
    decreases |batches|
  {
    if batches != [] {
      var batch := batches[0];
      forall path ensures Recorded(Fresh(first), path) == FactsAt(first, first.device, path) {
        ListedIsFacts(first, first.device, path);
      }
      NotedIsFresh(Fresh(first), batch.tree, root, batch.changed);
      RunStaysFresh(batch.tree, batches[1..], root);
    }
  }

  // A directory on device 1 that holds nothing but a mount point `m` on device 2 with one large file `f`.
  const MOUNTED_FACTS := FileFacts(Identity(2, 7), MINIMUM, 1, Caller, Plain, Unknown)
  const MOUNTED := Directory(2, true, map[Normal([102]) := File(MINIMUM, Some(MOUNTED_FACTS))])
  const MOUNT_TREE := Directory(1, true, map[Normal([109]) := MOUNTED])

  lemma MountTreeIsReadable()
    ensures Named(MOUNT_TREE) && Readable(MOUNT_TREE, 1)
  {}

  lemma MountTreeHoldsNothing(path: Path)
    ensures FactsAt(MOUNT_TREE, 1, path).None?
  {}

  lemma MountListsItsFile()
    ensures [Normal([102])] in Listed(MOUNTED, 1) && Readable(MOUNTED, 1)
  {
    var name := Normal([102]);
    assert Reached(MOUNTED, 1, [name]) == Some(File(MINIMUM, Some(MOUNTED_FACTS)));
    assert FactsAt(MOUNTED, 1, [name]) == Some(MOUNTED_FACTS);
    ListedIsFacts(MOUNTED, 1, [name]);
  }

  lemma MountIsNoted(root: Path)
    ensures
      var changed: Changed := map[root + [Normal([109])] := Appeared];
      var path := [Normal([109])] + [Normal([102])];
      Recorded(Noted(map[], root, changed, Steady(MOUNT_TREE, changed)), path) == Some(MOUNTED_FACTS)
  {
    var mount := Normal([109]);
    var change := root + [mount];
    var changed: Changed := map[change := Appeared];
    var path := [mount] + [Normal([102])];
    assert change[|root|..] == [mount];
    assert Lookup(MOUNT_TREE, [mount]) == Some(MOUNTED);
    MountListsItsFile();
    ListedIsFacts(MOUNTED, 1, [Normal([102])]);
    assert Reached(MOUNTED, 1, [Normal([102])]) == Some(File(MINIMUM, Some(MOUNTED_FACTS)));
    DeepHolds(MOUNTED, 1, [mount], [Normal([102])]);
    AddedAt(map[], root, changed, Steady(MOUNT_TREE, changed), Ascending(changed.Keys), path);
    assert FoundAt(root, changed, Steady(MOUNT_TREE, changed), change, path);
  }

  /** A mount point below the root: when it appears, `note` lists it although a fresh walk does not. */
  lemma NoteCrossesAMount(root: Path)
    ensures
      var changed: Changed := map[root + [Normal([109])] := Appeared];
      && Covered(map[], MOUNT_TREE, root, changed)
      && Noted(map[], root, changed, Steady(MOUNT_TREE, changed)) != Fresh(MOUNT_TREE)
  {
    var mount := Normal([109]);
    var change := root + [mount];
    var changed: Changed := map[change := Appeared];
    MountTreeIsReadable();
    forall path ensures FactsAt(MOUNT_TREE, 1, path).None? {
      MountTreeHoldsNothing(path);
    }
    assert change[|root|..] == [mount];
    assert Lookup(MOUNT_TREE, [mount]) == Some(MOUNTED);
    MountListsItsFile();
    DeepHolds(MOUNTED, 1, [mount], [Normal([102])]);
    assert [mount] + [Normal([102])] in Present(MOUNT_TREE, root, [mount], Appeared);
    assert !OnDevice(MOUNT_TREE, 1, [mount]);
    assert changed[change] == Appeared;
    assert !StaysOnDevice(MOUNT_TREE, root, changed);
    NotedIsFreshExactlyOnDevice(map[], MOUNT_TREE, root, changed);
  }
}
