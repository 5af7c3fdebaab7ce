/** Paths as the bytes the operating system knows them by, and how they are taken apart. */
module RawPaths {
  import opened Common
  import opened Paths

  const SLASH: Byte := 47
  const DOT: Byte := 46

  /** A name a path component can have: not empty, no separator, and neither `.` nor `..`. */
  predicate Plain(name: Name) {
    name != [] && SLASH !in name && name != [DOT] && name != [DOT, DOT]
  }

  predicate AllPlain(path: Path) {
    forall c :: c in path ==> c.Normal? && Plain(c.name)
  }

  predicate PlainAbsolute(path: Path) {
    path != [] && path[0] == RootDir && AllPlain(path[1..])
  }

  predicate PlainRelative(path: Path) {
    path != [] && AllPlain(path)
  }

  /** Normal components with a separator between each two. */
  function Joined(path: Path): seq<Byte>
    requires AllPlain(path)
  {
    if path == [] then []
    else if |path| == 1 then path[0].name
    else path[0].name + [SLASH] + Joined(path[1..])
  }

  /** The bytes of a path that was put together from its components. */
  function Raw(path: Path): (bytes: seq<Byte>)
    requires PlainAbsolute(path) || PlainRelative(path)
  {
    if path[0] == RootDir then [SLASH] + Joined(path[1..]) else Joined(path)
  }

  /** The bytes up to the first separator. */
  function Head(bytes: seq<Byte>): (head: seq<Byte>)
    ensures |head| <= |bytes| && head == bytes[..|head|] && SLASH !in head
    ensures |head| < |bytes| ==> bytes[|head|] == SLASH
  {
    if bytes == [] || bytes[0] == SLASH then [] else [bytes[0]] + Head(bytes[1..])
  }

  /** One piece between separators: repeated separators and `.` stand for nothing. */
  function Piece(piece: seq<Byte>): seq<Component> {
    if piece == [] || piece == [DOT] then []
    else if piece == [DOT, DOT] then [ParentDir]
    else [Normal(piece)]
  }

  function Pieces(bytes: seq<Byte>): Path
    decreases |bytes|
  {
    var head := Head(bytes);
    if |head| == |bytes| then Piece(head) else Piece(head) + Pieces(bytes[|head| + 1..])
  }

  /** `Path::components`: a leading separator is the root, and a leading `.` of a relative path stays. */
  function Components(bytes: seq<Byte>): Path {
    if bytes != [] && bytes[0] == SLASH then [RootDir] + Pieces(bytes[1..])
    else if Head(bytes) == [DOT] then [CurDir] + Pieces(bytes[1..])
    else Pieces(bytes)
  }

  predicate AllNormal(path: Path) {
    forall c :: c in path ==> c.Normal?
  }

  /** The cache's check of a stored root: absolute, with ordinary names only. */
  function AbsoluteOf(bytes: seq<Byte>): Option<Path> {
    var path := Components(bytes);
    if path != [] && path[0] == RootDir && AllNormal(path[1..]) then Some(path) else None
  }

  /** The cache's check of a stored relative path: not empty, with ordinary names only. */
  function RelativeOf(bytes: seq<Byte>): Option<Path> {
    var path := Components(bytes);
    if bytes != [] && AllNormal(path) then Some(path) else None
  }

  lemma {:induction false} HeadOfName(name: Name, rest: seq<Byte>)
    requires SLASH !in name
    ensures Head(name) == name
    ensures Head(name + [SLASH] + rest) == name
  {
    if name == [] {
      assert name + [SLASH] + rest == [SLASH] + rest;
    } else {
      HeadOfName(name[1..], rest);
      assert (name + [SLASH] + rest)[1..] == name[1..] + [SLASH] + rest;
    }
  }

  lemma {:induction false} PiecesOfJoined(path: Path)
    requires AllPlain(path)
    ensures Pieces(Joined(path)) == path
  {
    if path != [] {
      var name := path[0].name;
      assert path[0] in path;
      if |path| == 1 {
        HeadOfName(name, []);
        assert path == [Normal(name)];
      } else {
        HeadOfName(name, Joined(path[1..]));
        PiecesOfJoined(path[1..]);
        assert Joined(path)[|name| + 1..] == Joined(path[1..]);
        assert path == [Normal(name)] + path[1..];
      }
    }
  }

  lemma JoinedHead(path: Path)
    requires AllPlain(path) && path != []
    ensures Joined(path) != [] && Joined(path)[0] != SLASH && Head(Joined(path)) == path[0].name
  {
    assert path[0] in path;
    HeadOfName(path[0].name, if |path| == 1 then [] else Joined(path[1..]));
    assert path[0].name[0] in path[0].name;
  }

  /** A path written down is read back, so different paths have different bytes. */
  lemma RawReadsBack(path: Path)
    requires PlainAbsolute(path) || PlainRelative(path)
    ensures Components(Raw(path)) == path && Raw(path) != []
    ensures PlainAbsolute(path) ==> AbsoluteOf(Raw(path)) == Some(path)
    ensures PlainRelative(path) ==> RelativeOf(Raw(path)) == Some(path)
  {
    if path[0] == RootDir {
      PiecesOfJoined(path[1..]);
      assert Raw(path)[1..] == Joined(path[1..]);
      assert path == [RootDir] + path[1..];
    } else {
      PiecesOfJoined(path);
      JoinedHead(path);
    }
  }

  lemma RawIsInjective(a: Path, b: Path)
    requires PlainAbsolute(a) || PlainRelative(a)
    requires PlainAbsolute(b) || PlainRelative(b)
    requires Raw(a) == Raw(b)
    ensures a == b
  {
    RawReadsBack(a);
    RawReadsBack(b);
  }

  /** The bytes are the names, with one separator between each two and none behind. */
  lemma {:induction false} JoinedAtTheEnd(path: Path, name: Name)
    requires AllPlain(path) && Plain(name)
    ensures AllPlain(path + [Normal(name)])
    ensures Joined(path + [Normal(name)]) == if path == [] then name else Joined(path) + [SLASH] + name
  {
    if path == [] {
      assert path + [Normal(name)] == [Normal(name)];
    } else {
      JoinedAtTheEnd(path[1..], name);
      assert (path + [Normal(name)])[1..] == path[1..] + [Normal(name)];
      if |path| == 1 {
        assert path[1..] == [];
      }
    }
  }

  /** A piece stands between separators, or at an end. */
  predicate PieceAt(bytes: seq<Byte>, i: nat, piece: seq<Byte>) {
    && i + |piece| <= |bytes| && bytes[i..i + |piece|] == piece
    && (i == 0 || bytes[i - 1] == SLASH) && (i + |piece| == |bytes| || bytes[i + |piece|] == SLASH)
  }

  lemma HeadHasNoSlash(bytes: seq<Byte>)
    ensures forall k :: 0 <= k < |Head(bytes)| ==> bytes[k] != SLASH
  {
    forall k | 0 <= k < |Head(bytes)| ensures bytes[k] != SLASH {
      assert Head(bytes)[k] in Head(bytes);
    }
  }

  lemma PieceInFront(bytes: seq<Byte>, piece: seq<Byte>)
    requires forall k :: 0 <= k < |piece| ==> piece[k] != SLASH
    ensures PieceAt(bytes, 0, piece) <==> Head(bytes) == piece
  {
    HeadHasNoSlash(bytes);
    if PieceAt(bytes, 0, piece) {
      assert forall k :: 0 <= k < |piece| ==> bytes[k] == piece[k];
    }
  }

  lemma PieceFurtherOn(bytes: seq<Byte>, i: nat, piece: seq<Byte>)
    requires |Head(bytes)| < |bytes| && i > 0
    ensures var next := |Head(bytes)| + 1;
      PieceAt(bytes, i, piece) <==> i >= next && PieceAt(bytes[next..], i - next, piece)
  {
    var next := |Head(bytes)| + 1;
    HeadHasNoSlash(bytes);
    if i >= next && i + |piece| <= |bytes| {
      assert bytes[next..][i - next..i - next + |piece|] == bytes[i..i + |piece|];
    }
  }

  ghost predicate GoesUp(bytes: seq<Byte>) {
    exists i: nat :: PieceAt(bytes, i, [46, 46])
  }

  lemma GoesUpLater(bytes: seq<Byte>)
    ensures |Head(bytes)| < |bytes| ==>
      (GoesUp(bytes) <==> Head(bytes) == [46, 46] || GoesUp(bytes[|Head(bytes)| + 1..]))
    ensures |Head(bytes)| == |bytes| ==> (GoesUp(bytes) <==> Head(bytes) == [46, 46])
  {
    PieceInFront(bytes, [46, 46]);
    HeadHasNoSlash(bytes);
    var next := |Head(bytes)| + 1;
    if |Head(bytes)| < |bytes| {
      if i: nat :| PieceAt(bytes, i, [46, 46]) && i > 0 {
        PieceFurtherOn(bytes, i, [46, 46]);
      }
      if i: nat :| PieceAt(bytes[next..], i, [46, 46]) {
        PieceFurtherOn(bytes, i + next, [46, 46]);
      }
    }
  }

  /** The components are names only, unless a piece is `..`. */
  lemma {:induction false} PiecesAreNames(bytes: seq<Byte>)
    ensures AllNormal(Pieces(bytes)) <==> !GoesUp(bytes)
    decreases |bytes|
  {
    GoesUpLater(bytes);
    PieceIsName(Head(bytes));
    if |Head(bytes)| < |bytes| {
      PiecesAreNames(bytes[|Head(bytes)| + 1..]);
      AllNormalAdds(Piece(Head(bytes)), Pieces(bytes[|Head(bytes)| + 1..]));
    }
  }

  lemma PieceIsName(piece: seq<Byte>)
    ensures AllNormal(Piece(piece)) <==> piece != [46, 46]
  {
    assert piece == [46, 46] ==> ParentDir in Piece(piece);
  }

  lemma AllNormalAdds(a: Path, b: Path)
    ensures AllNormal(a + b) <==> AllNormal(a) && AllNormal(b)
  {
    if AllNormal(a + b) {
      forall c | c in a ensures c.Normal? { assert c in a + b; }
      forall c | c in b ensures c.Normal? { assert c in a + b; }
    }
  }

  /** Which stored paths are taken: a root that begins with a separator, a relative path that does not and does
    not begin with `.` either, and neither with a piece `..`. */
  lemma TakenExactlyWhen(bytes: seq<Byte>)
    ensures AbsoluteOf(bytes) ==
      if bytes != [] && bytes[0] == 47 && !GoesUp(bytes[1..]) then Some([RootDir] + Pieces(bytes[1..])) else None
    ensures RelativeOf(bytes) ==
      if bytes != [] && bytes[0] != 47 && !PieceAt(bytes, 0, [46]) && !GoesUp(bytes) then Some(Pieces(bytes)) else None
  {
    PieceInFront(bytes, [46]);
    PiecesAreNames(bytes);
    if bytes != [] {
      PiecesAreNames(bytes[1..]);
      AllNormalAdds([RootDir], Pieces(bytes[1..]));
      AllNormalAdds([CurDir], Pieces(bytes[1..]));
      assert !AllNormal([RootDir]) && !AllNormal([CurDir]) by {
        assert RootDir in [RootDir] && CurDir in [CurDir];
      }
      assert ([RootDir] + Pieces(bytes[1..]))[1..] == Pieces(bytes[1..]);
      NoRootFurtherOn(bytes);
    }
  }

  lemma {:induction false} NoRootFurtherOn(bytes: seq<Byte>)
    ensures RootDir !in Pieces(bytes)
    decreases |bytes|
  {
    if |Head(bytes)| < |bytes| {
      NoRootFurtherOn(bytes[|Head(bytes)| + 1..]);
    }
  }
}
