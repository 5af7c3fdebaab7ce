/** Paths as component sequences, the order a `BTreeMap` keeps them in, and prefix queries.

  `Path::cmp` compares component by component: `RootDir < CurDir < ParentDir < Normal`, and two normal
  components by their bytes.  Everything below a path is one contiguous stretch of that order, which is
  what `Pool::note` and `Scope::touches` rely on when they use a range instead of testing every key.
 */
module Paths {
  import opened Common

  type Name = seq<Byte>

  datatype Component = RootDir | CurDir | ParentDir | Normal(name: Name)

  type Path = seq<Component>

  // ---------- the order ----------

  predicate NameLess(a: Name, b: Name) {
    b != [] && (a == [] || a[0] < b[0] || (a[0] == b[0] && NameLess(a[1..], b[1..])))
  }

  function Rank(c: Component): nat {
    match c
    case RootDir => 0
    case CurDir => 1
    case ParentDir => 2
    case Normal(_) => 3
  }

  predicate ComponentLess(a: Component, b: Component) {
    Rank(a) < Rank(b) || (a.Normal? && b.Normal? && NameLess(a.name, b.name))
  }

  predicate Less(a: Path, b: Path) {
    b != [] && (a == [] || ComponentLess(a[0], b[0]) || (a[0] == b[0] && Less(a[1..], b[1..])))
  }

  lemma {:induction false} NameOrder(a: Name, b: Name)
    ensures NameLess(a, b) ==> a != b && !NameLess(b, a)
    ensures a == b || NameLess(a, b) || NameLess(b, a)
  {
    if a != [] && b != [] {
      NameOrder(a[1..], b[1..]);
      assert a == [a[0]] + a[1..] && b == [b[0]] + b[1..];
    }
  }

  lemma {:induction false} NameTransitive(a: Name, b: Name, c: Name)
    requires NameLess(a, b) && NameLess(b, c)
    ensures NameLess(a, c)
  {
    if a != [] && a[0] == b[0] == c[0] {
      NameTransitive(a[1..], b[1..], c[1..]);
    }
  }

  lemma ComponentOrder(a: Component, b: Component)
    ensures ComponentLess(a, b) ==> a != b && !ComponentLess(b, a)
    ensures a == b || ComponentLess(a, b) || ComponentLess(b, a)
  {
    if a.Normal? && b.Normal? {
      NameOrder(a.name, b.name);
    }
  }

  lemma ComponentTransitive(a: Component, b: Component, c: Component)
    requires ComponentLess(a, b) && ComponentLess(b, c)
    ensures ComponentLess(a, c)
  {
    if a.Normal? && b.Normal? && c.Normal? {
      NameTransitive(a.name, b.name, c.name);
    }
  }

  // ---------- which order it is ----------

  /** The names part at a byte, or the first ends there. */
  predicate NamePartsAt(a: Name, b: Name, k: nat) {
    k <= |a| && k < |b| && a[..k] == b[..k] && (k == |a| || a[k] < b[k])
  }

  lemma {:induction false} NameParts(a: Name, b: Name) returns (k: nat)
    requires NameLess(a, b)
    ensures NamePartsAt(a, b, k)
  {
    if a == [] || a[0] < b[0] {
      k := 0;
    } else {
      k := NameParts(a[1..], b[1..]);
      k := k + 1;
      assert a[..k] == [a[0]] + a[1..][..k - 1] && b[..k] == [b[0]] + b[1..][..k - 1];
    }
  }

  lemma {:induction false} NameLessIfParts(a: Name, b: Name, k: nat)
    requires NamePartsAt(a, b, k)
    ensures NameLess(a, b)
  {
    if k > 0 {
      assert a[0] == a[..k][0] == b[..k][0] == b[0];
      assert a[1..][..k - 1] == a[..k][1..] && b[1..][..k - 1] == b[..k][1..];
      NameLessIfParts(a[1..], b[1..], k - 1);
    }
  }

  /** A root comes before `.`, that before `..`, and that before names, which go by their bytes. */
  ghost predicate ComesBefore(a: Component, b: Component) {
    match (a, b)
    case (Normal(m), Normal(n)) => exists k: nat :: NamePartsAt(m, n, k)
    case (RootDir, _) => !b.RootDir?
    case (CurDir, _) => b.ParentDir? || b.Normal?
    case (ParentDir, _) => b.Normal?
    case (Normal(_), _) => false
  }

  lemma ComponentLessExactlyWhen(a: Component, b: Component)
    ensures ComponentLess(a, b) <==> ComesBefore(a, b)
  {
    if a.Normal? && b.Normal? {
      if NameLess(a.name, b.name) {
        var k := NameParts(a.name, b.name);
      }
      if k: nat :| NamePartsAt(a.name, b.name, k) {
        NameLessIfParts(a.name, b.name, k);
      }
    }
  }

  ghost predicate PathPartsAt(a: Path, b: Path, k: nat) {
    k <= |a| && k < |b| && a[..k] == b[..k] && (k == |a| || ComesBefore(a[k], b[k]))
  }

  lemma {:induction false} PathParts(a: Path, b: Path) returns (k: nat)
    requires Less(a, b)
    ensures PathPartsAt(a, b, k)
  {
    if a == [] {
      k := 0;
    } else if a[0] == b[0] && Less(a[1..], b[1..]) {
      k := PathParts(a[1..], b[1..]);
      k := k + 1;
      assert a[..k] == [a[0]] + a[1..][..k - 1] && b[..k] == [b[0]] + b[1..][..k - 1];
    } else {
      k := 0;
      ComponentLessExactlyWhen(a[0], b[0]);
    }
  }

  lemma {:induction false} LessIfParts(a: Path, b: Path, k: nat)
    requires PathPartsAt(a, b, k)
    ensures Less(a, b)
  {
    if k > 0 {
      assert a[0] == a[..k][0] == b[..k][0] == b[0];
      assert a[1..][..k - 1] == a[..k][1..] && b[1..][..k - 1] == b[..k][1..];
      LessIfParts(a[1..], b[1..], k - 1);
    } else if a != [] {
      ComponentLessExactlyWhen(a[0], b[0]);
    }
  }

  /** Of two paths the one comes first that ends, or has the earlier component, where they part. */
  lemma LessExactlyWhen(a: Path, b: Path)
    ensures Less(a, b) <==> exists k: nat :: PathPartsAt(a, b, k)
  {
    if Less(a, b) {
      var k := PathParts(a, b);
    }
    if k: nat :| PathPartsAt(a, b, k) {
      LessIfParts(a, b, k);
    }
  }

  /** The path order is a strict total order (with `PathTransitive`). */
  lemma {:induction false} PathOrder(a: Path, b: Path)
    ensures Less(a, b) ==> a != b && !Less(b, a)
    ensures a == b || Less(a, b) || Less(b, a)
  {
    if a != [] && b != [] {
      ComponentOrder(a[0], b[0]);
      PathOrder(a[1..], b[1..]);
      assert a == [a[0]] + a[1..] && b == [b[0]] + b[1..];
    }
  }

  lemma {:induction false} PathTransitive(a: Path, b: Path, c: Path)
    requires Less(a, b) && Less(b, c)
    ensures Less(a, c)
  {
    if a != [] {
      ComponentOrder(a[0], b[0]);
      ComponentOrder(b[0], c[0]);
      if ComponentLess(a[0], b[0]) && ComponentLess(b[0], c[0]) {
        ComponentTransitive(a[0], b[0], c[0]);
      } else if a[0] == b[0] == c[0] {
        PathTransitive(a[1..], b[1..], c[1..]);
      }
    }
  }

  /** A proper prefix comes before what it is a prefix of. */
  lemma {:induction false} PrefixIsLess(prefix: Path, path: Path)
    requires prefix <= path && prefix != path
    ensures Less(prefix, path)
  {
    if prefix != [] {
      assert path[1..][..|prefix| - 1] == prefix[1..];
      PrefixIsLess(prefix[1..], path[1..]);
    }
  }

  /** Everything below a path is contiguous: no path outside it lies between it and something below it. */
  lemma {:induction false} BelowIsConvex(prefix: Path, between: Path, path: Path)
    requires prefix <= path
    requires !Less(between, prefix) && Less(between, path)
    ensures prefix <= between
  {
    if prefix != [] {
      ComponentOrder(prefix[0], between[0]);
      assert path[0] == prefix[0];
      assert between[0] == prefix[0];
      assert path[1..][..|prefix| - 1] == prefix[1..];
      BelowIsConvex(prefix[1..], between[1..], path[1..]);
      assert prefix == [prefix[0]] + prefix[1..] && between == [between[0]] + between[1..];
    }
  }

  // ---------- ordered sets ----------

  ghost predicate Sorted(s: seq<Path>) {
    forall i, j :: 0 <= i < j < |s| ==> Less(s[i], s[j])
  }

  predicate IsLeast(m: Path, keys: set<Path>) {
    m in keys && forall k :: k in keys ==> k == m || Less(m, k)
  }

  lemma {:induction false} LeastExists(keys: set<Path>)
    requires keys != {}
    ensures exists m :: IsLeast(m, keys)
  {
    var k :| k in keys;
    var rest := keys - {k};
    if rest == {} {
      assert keys == {k};
      assert IsLeast(k, keys);
    } else {
      LeastExists(rest);
      var m :| IsLeast(m, rest);
      PathOrder(k, m);
      if Less(k, m) {
        forall x | x in keys ensures x == k || Less(k, x) {
          if x != k && x != m {
            PathTransitive(k, m, x);
          }
        }
        assert IsLeast(k, keys);
      } else {
        assert IsLeast(m, keys);
      }
    }
  }

  lemma LeastIsUnique(keys: set<Path>)
    ensures forall m, n :: IsLeast(m, keys) && IsLeast(n, keys) ==> m == n
  {
    forall m, n | IsLeast(m, keys) && IsLeast(n, keys) ensures m == n {
      PathOrder(m, n);
    }
  }

  function Least(keys: set<Path>): (m: Path)
    requires keys != {}
    ensures IsLeast(m, keys)
  {
    LeastExists(keys);
    LeastIsUnique(keys);
    var m :| m in keys && IsLeast(m, keys);
    m
  }

  /** The keys of an ordered set in iteration order. */
  function Ascending(keys: set<Path>): (s: seq<Path>)
    ensures Sorted(s)
    ensures forall k :: k in s <==> k in keys
  {
    if keys == {} then [] else
      var m := Least(keys);
      [m] + Ascending(keys - {m})
  }

  /** `range((Included(from), Unbounded))` over an iteration in order. */
  function RangeFrom(s: seq<Path>, from: Path): (r: seq<Path>) {
    if s == [] || !Less(s[0], from) then s else RangeFrom(s[1..], from)
  }

  /** `range((Excluded(after), Unbounded))` over an iteration in order. */
  function RangeAfter(s: seq<Path>, after: Path): (r: seq<Path>) {
    if s == [] || Less(after, s[0]) then s else RangeAfter(s[1..], after)
  }

  /** `take_while(|path| path.starts_with(prefix))` */
  function TakeBelow(s: seq<Path>, prefix: Path): (r: seq<Path>) {
    if s == [] || !(prefix <= s[0]) then [] else [s[0]] + TakeBelow(s[1..], prefix)
  }

  lemma SortedTail(s: seq<Path>)
    requires Sorted(s) && s != []
    ensures Sorted(s[1..])
    ensures forall k :: k in s[1..] ==> Less(s[0], k)
    ensures forall k :: k in s <==> k == s[0] || k in s[1..]
    ensures s[0] !in s[1..]
  {
    PathOrder(s[0], s[0]);
    assert s == [s[0]] + s[1..];
  }

  lemma {:induction false} TakeBelowKeepsAll(s: seq<Path>, prefix: Path)
    requires Sorted(s)
    requires s != [] ==> !Less(s[0], prefix)
    ensures forall k :: k in TakeBelow(s, prefix) <==> k in s && prefix <= k
  {
    if s != [] {
      SortedTail(s);
      if prefix <= s[0] {
        if |s| > 1 {
          if Less(s[1], prefix) {
            PathTransitive(s[0], s[1], prefix);
          }
        }
        TakeBelowKeepsAll(s[1..], prefix);
        assert s == [s[0]] + s[1..];
      } else {
        forall k | k in s ensures !(prefix <= k) {
          if prefix <= k && k != s[0] {
            assert s == [s[0]] + s[1..];
            BelowIsConvex(prefix, s[0], k);
          }
        }
      }
    }
  }

  lemma {:induction false} RangeFromDropsSmaller(s: seq<Path>, from: Path)
    requires Sorted(s)
    ensures Sorted(RangeFrom(s, from))
    ensures forall k :: k in RangeFrom(s, from) <==> k in s && !Less(k, from)
    ensures RangeFrom(s, from) != [] ==> !Less(RangeFrom(s, from)[0], from)
  {
    if s != [] {
      SortedTail(s);
      assert s == [s[0]] + s[1..];
      if Less(s[0], from) {
        RangeFromDropsSmaller(s[1..], from);
      } else {
        forall k | k in s ensures !Less(k, from) {
          if k != s[0] && Less(k, from) {
            PathTransitive(s[0], k, from);
          }
        }
      }
    }
  }

  /** The recorded paths at or below a path, collected as `note` does it: range, then take while. */
  function Below(keys: set<Path>, prefix: Path): seq<Path> {
    TakeBelow(RangeFrom(Ascending(keys), prefix), prefix)
  }

  /** The range query collects exactly the keys the prefix test would, in order and without repeats. */
  lemma BelowIsPrefixFilter(keys: set<Path>, prefix: Path)
    ensures forall k :: k in Below(keys, prefix) <==> k in keys && prefix <= k
    ensures Sorted(Below(keys, prefix))
  {
    var from := RangeFrom(Ascending(keys), prefix);
    RangeFromDropsSmaller(Ascending(keys), prefix);
    TakeBelowKeepsAll(from, prefix);
    TakeBelowIsSorted(from, prefix);
    forall k | k in keys && prefix <= k ensures !Less(k, prefix) {
      PathOrder(k, prefix);
      if k != prefix {
        PrefixIsLess(prefix, k);
      }
    }
  }

  lemma {:induction false} TakeBelowIsSorted(s: seq<Path>, prefix: Path)
    requires Sorted(s)
    ensures TakeBelow(s, prefix) <= s
    ensures Sorted(TakeBelow(s, prefix))
  {
    if s != [] && prefix <= s[0] {
      SortedTail(s);
      TakeBelowIsSorted(s[1..], prefix);
      assert s == [s[0]] + s[1..];
    }
  }

  // ---------- ancestors ----------

  /** `Path::parent`: the root and the empty path have none. */
  function Parent(path: Path): Option<Path> {
    if path == [] || path[|path| - 1] == RootDir then None else Some(path[..|path| - 1])
  }

  /** `Path::ancestors`: the path itself, then its parent, and so on. */
  function Ancestors(path: Path): seq<Path> {
    match Parent(path)
    case None => [path]
    case Some(parent) => [path] + Ancestors(parent)
  }

  /** A parsed path has its root, if any, in front only. */
  predicate WellFormed(path: Path) {
    forall i :: 0 < i < |path| ==> path[i] != RootDir
  }

  predicate Absolute(path: Path) {
    path != [] && path[0] == RootDir
  }

  /** The ancestors are the prefixes, except that an absolute path does not reach the empty one. */
  lemma {:induction false} AncestorsArePrefixes(path: Path, candidate: Path)
    requires WellFormed(path)
    ensures candidate in Ancestors(path) <==> candidate <= path && (candidate == [] ==> !Absolute(path))
  {
    match Parent(path)
    case None =>
      assert path == [] || path == [RootDir];
      if candidate <= path && candidate != path {
        assert candidate == [];
      }
    case Some(parent) =>
      AncestorsArePrefixes(parent, candidate);
      PrefixOfParent(path, candidate);
      assert Ancestors(path) == [path] + Ancestors(parent);
  }

  lemma PrefixOfParent(path: Path, candidate: Path)
    requires path != []
    ensures candidate <= path <==> candidate == path || candidate <= path[..|path| - 1]
  {}

  // ---------- Scope::touches ----------

  datatype Scope = Everything | Changed(paths: set<Path>)

  function Touches(scope: Scope, directory: Path): bool {
    match scope
    case Everything => true
    case Changed(changed) =>
      || (exists ancestor | ancestor in Ancestors(directory) :: ancestor in changed)
      || var after := RangeAfter(Ascending(changed), directory);
         after != [] && directory <= after[0]
  }

  lemma {:induction false} RangeAfterStartsAtNext(s: seq<Path>, after: Path)
    requires Sorted(s)
    ensures RangeAfter(s, after) != [] ==>
      var next := RangeAfter(s, after)[0];
      next in s && Less(after, next) && forall k :: k in s && Less(after, k) ==> k == next || Less(next, k)
    ensures RangeAfter(s, after) == [] ==> forall k :: k in s ==> !Less(after, k)
  {
    if s != [] {
      SortedTail(s);
      assert s == [s[0]] + s[1..];
      if !Less(after, s[0]) {
        RangeAfterStartsAtNext(s[1..], after);
      }
    }
  }

  /** Looking only at the next changed path after a directory finds out whether anything below it changed. */
  lemma NextIsBelowIfAnyIs(changed: set<Path>, directory: Path)
    ensures
      var after := RangeAfter(Ascending(changed), directory);
      after != [] && directory <= after[0] <==> exists c :: c in changed && directory <= c && c != directory
  {
    var after := RangeAfter(Ascending(changed), directory);
    RangeAfterStartsAtNext(Ascending(changed), directory);
    if after != [] && directory <= after[0] {
      PathOrder(directory, after[0]);
      assert after[0] in changed;
    }
    if c :| c in changed && directory <= c && c != directory {
      PrefixIsLess(directory, c);
      if after[0] != c {
        PathOrder(directory, after[0]);
        BelowIsConvex(directory, after[0], c);
      }
    }
  }

  /** A directory is pruned again exactly when a changed path is above it, is it, or is below it. */
  lemma TouchesMeansRelated(changed: set<Path>, directory: Path)
    requires WellFormed(directory)
    ensures Touches(Everything, directory)
    ensures Touches(Changed(changed), directory) <==>
      exists c :: c in changed && (directory <= c || (c <= directory && (c == [] ==> !Absolute(directory))))
  {
    NextIsBelowIfAnyIs(changed, directory);
    AncestorsArePrefixes(directory, directory);
    forall c {
      AncestorsArePrefixes(directory, c);
    }
    if c :| c in changed && (directory <= c || (c <= directory && (c == [] ==> !Absolute(directory)))) {
      if c == directory {
        assert c in Ancestors(directory);
      }
    }
  }
}
