/** The watcher's cache as tables of bytes: how rows are written and read, how a journal is committed, and
  how the whole cache is loaded. */
module CacheFile {
  import opened Common
  import opened Bytes
  import opened Paths
  import opened RawPaths
  import opened Records
  import opened Journals
  import opened Tabled

  // ---------- rows ----------

  function IdentityBytes(identity: Identity): (bytes: seq<Byte>)
    ensures |bytes| == 24
  {
    Little(identity.volume, 8) + Little(identity.file, 16)
  }

  function RootValue(row: RootRow): seq<Byte> {
    IdentityBytes(row.identity) + Little(row.unreadable, 8)
  }

  function OwnerByte(owner: Owner): Byte { if owner == Caller then 0 else 1 }

  function ModeByte(mode: Mode): Byte { if mode == Plain then 0 else 1 }

  function SharingBytes(sharing: Sharing): seq<Byte> {
    match sharing
    case Unknown => [0] + Little(0, 8)
    case Cluster(cluster) => [1] + Little(cluster, 8)
  }

  function Counts(facts: FileFacts): (bytes: seq<Byte>)
    ensures |bytes| == 16
  {
    Little(facts.len, 8) + Little(facts.links, 8)
  }

  function Flags(facts: FileFacts): (bytes: seq<Byte>)
    ensures |bytes| == 11
  {
    [OwnerByte(facts.owner), ModeByte(facts.mode)] + SharingBytes(facts.sharing)
  }

  /** The 51 bytes of one file's row. */
  function FactsValue(facts: FileFacts): (bytes: seq<Byte>)
    ensures |bytes| == 51
  {
    IdentityBytes(facts.identity) + (Counts(facts) + Flags(facts))
  }

  /** Facts the cache accepts: of a file large enough to share, and with at least one name. */
  predicate Acceptable(facts: FileFacts) {
    facts.len >= MINIMUM && facts.links > 0
  }

  /** `take`: a number off the front of what is left to read. */
  method TakeNumber(rest: seq<Byte>, width: nat) returns (number: Option<nat>, left: seq<Byte>)
    ensures number.Some? <==> |rest| >= width
    ensures number.Some? ==> rest == Little(number.value, width) + left && number.value < Pow256(width)
  {
    if |rest| < width {
      return None, rest;
    }
    LittleIsOnto(rest[..width]);
    assert rest == rest[..width] + rest[width..];
    return Some(FromLittle(rest[..width])), rest[width..];
  }

  method TakeIdentity(rest: seq<Byte>) returns (identity: Option<Identity>, left: seq<Byte>)
    ensures identity.Some? <==> |rest| >= 24
    ensures identity.Some? ==> rest == IdentityBytes(identity.value) + left
  {
    Widths();
    var volume, next := TakeNumber(rest, 8);
    if volume.None? { return None, rest; }
    var file, last := TakeNumber(next, 16);
    if file.None? { return None, rest; }
    assert rest == Little(volume.value, 8) + Little(file.value, 16) + last;
    return Some(Identity(volume.value, file.value)), last;
  }

  lemma {:induction false} LittleIsInjective(a: nat, b: nat, width: nat)
    requires a < Pow256(width) && b < Pow256(width) && Little(a, width) == Little(b, width)
    ensures a == b
  {
    LittleReadsBack(a, width);
    LittleReadsBack(b, width);
  }

  lemma PrefixesAgree(a: seq<Byte>, b: seq<Byte>, moreA: seq<Byte>, moreB: seq<Byte>)
    requires |a| == |b| && a + moreA == b + moreB
    ensures a == b && moreA == moreB
  {
    assert (a + moreA)[..|a|] == a && (b + moreB)[..|b|] == b;
    assert (a + moreA)[|a|..] == moreA && (b + moreB)[|b|..] == moreB;
  }

  lemma IdentityIsInjective(a: Identity, b: Identity)
    requires IdentityBytes(a) == IdentityBytes(b)
    ensures a == b
  {
    Widths();
    PrefixesAgree(Little(a.volume, 8), Little(b.volume, 8), Little(a.file, 16), Little(b.file, 16));
    LittleIsInjective(a.volume, b.volume, 8);
    LittleIsInjective(a.file, b.file, 16);
  }

  lemma RootValueIsInjective(a: RootRow, b: RootRow)
    requires a.unreadable <= U64_MAX && b.unreadable <= U64_MAX && RootValue(a) == RootValue(b)
    ensures a == b
  {
    Widths();
    PrefixesAgree(IdentityBytes(a.identity), IdentityBytes(b.identity), Little(a.unreadable, 8), Little(b.unreadable, 8));
    IdentityIsInjective(a.identity, b.identity);
    LittleIsInjective(a.unreadable, b.unreadable, 8);
  }

  /** A root's row is read exactly from its encoding. */
  method ParseRootValue(value: seq<Byte>) returns (row: Option<RootRow>)
    ensures row.Some? ==> value == RootValue(row.value) && row.value.unreadable <= U64_MAX
    ensures forall r: RootRow :: r.unreadable <= U64_MAX && value == RootValue(r) ==> row == Some(r)
  {
    Widths();
    var identity, next := TakeIdentity(value);
    if identity.None? { return None; }
    var unreadable, last := TakeNumber(next, 8);
    if unreadable.None? || last != [] { return None; }
    row := Some(RootRow(identity.value, unreadable.value));
    assert value == RootValue(row.value);
    forall r: RootRow | r.unreadable <= U64_MAX && value == RootValue(r) ensures row == Some(r) {
      RootValueIsInjective(r, row.value);
    }
  }

  lemma FlagsAreInjective(a: FileFacts, b: FileFacts)
    requires Flags(a) == Flags(b)
    ensures a.owner == b.owner && a.mode == b.mode && a.sharing == b.sharing
  {
    Widths();
    assert Flags(a)[0] == OwnerByte(a.owner) && Flags(b)[0] == OwnerByte(b.owner);
    assert Flags(a)[1] == ModeByte(a.mode) && Flags(b)[1] == ModeByte(b.mode);
    PrefixesAgree([OwnerByte(a.owner), ModeByte(a.mode)], [OwnerByte(b.owner), ModeByte(b.mode)],
                  SharingBytes(a.sharing), SharingBytes(b.sharing));
    assert SharingBytes(a.sharing)[0] == SharingBytes(b.sharing)[0];
    if a.sharing.Cluster? && b.sharing.Cluster? {
      PrefixesAgree([1], [1], Little(a.sharing.cluster, 8), Little(b.sharing.cluster, 8));
      LittleIsInjective(a.sharing.cluster, b.sharing.cluster, 8);
    }
  }

  lemma FactsValueIsInjective(a: FileFacts, b: FileFacts)
    requires FactsValue(a) == FactsValue(b)
    ensures a == b
  {
    Widths();
    PrefixesAgree(IdentityBytes(a.identity), IdentityBytes(b.identity), Counts(a) + Flags(a), Counts(b) + Flags(b));
    PrefixesAgree(Counts(a), Counts(b), Flags(a), Flags(b));
    PrefixesAgree(Little(a.len, 8), Little(b.len, 8), Little(a.links, 8), Little(b.links, 8));
    IdentityIsInjective(a.identity, b.identity);
    LittleIsInjective(a.len, b.len, 8);
    LittleIsInjective(a.links, b.links, 8);
    FlagsAreInjective(a, b);
  }

  method TakeByte(rest: seq<Byte>) returns (byte: Option<Byte>, left: seq<Byte>)
    ensures byte.Some? <==> rest != []
    ensures byte.Some? ==> rest == [byte.value] + left
  {
    if rest == [] { return None, rest; }
    return Some(rest[0]), rest[1..];
  }

  datatype Marks = Marks(owner: Owner, mode: Mode, sharing: Sharing)

  function MarkBytes(marks: Marks): (bytes: seq<Byte>)
    ensures |bytes| == 11 && bytes[0] <= 1 && bytes[1] <= 1
  {
    [OwnerByte(marks.owner), ModeByte(marks.mode)] + SharingBytes(marks.sharing)
  }

  /** The last eleven bytes of a file's row: tags that mean nothing else are refused, and so is a cluster
    number where there is no cluster. */
  method ParseMarks(rest: seq<Byte>) returns (marks: Option<Marks>)
    ensures marks.Some? ==> rest == MarkBytes(marks.value)
    ensures marks.None? ==> forall m: Marks :: rest != MarkBytes(m)
  {
    MarksAreEleven(rest);
    var owner, r1 := TakeByte(rest);
    if owner.None? || owner.value > 1 { return None; }
    var mode, r2 := TakeByte(r1);
    assert mode.Some? ==> rest == [owner.value, mode.value] + r2;
    if mode.None? || mode.value > 1 { return None; }
    var tag, r3 := TakeByte(r2);
    if tag.None? { return None; }
    var cluster, r4 := TakeNumber(r3, 8);
    if cluster.None? { return None; }
    assert rest == [owner.value, mode.value] + ([tag.value] + Little(cluster.value, 8) + r4);
    if tag.value > 1 || (tag.value == 0 && cluster.value != 0) || r4 != [] {
      MarksRefused(owner.value, mode.value, tag.value, cluster.value, r4);
      return None;
    }
    assert [tag.value] + Little(cluster.value, 8) + r4 == [tag.value] + Little(cluster.value, 8);
    marks := Some(MarksOf(owner.value, mode.value, tag.value, cluster.value));
    MarksWriteBack(owner.value, mode.value, tag.value, cluster.value);
  }

  function MarksOf(owner: Byte, mode: Byte, tag: Byte, cluster: U64): Marks {
    Marks(if owner == 0 then Caller else OtherUser, if mode == 0 then Plain else Executable,
          if tag == 0 then Unknown else Cluster(cluster))
  }

  lemma MarksAreEleven(rest: seq<Byte>)
    ensures |rest| != 11 || rest[0] > 1 || rest[1] > 1 ==> forall m: Marks :: rest != MarkBytes(m)
  {}

  lemma MarksWriteBack(owner: Byte, mode: Byte, tag: Byte, cluster: U64)
    requires owner <= 1 && mode <= 1 && tag <= 1 && (tag == 0 ==> cluster == 0)
    ensures MarkBytes(MarksOf(owner, mode, tag, cluster)) == [owner, mode] + ([tag] + Little(cluster, 8))
  {
    Widths();
  }

  lemma MarksRefused(owner: Byte, mode: Byte, tag: Byte, cluster: nat, left: seq<Byte>)
    requires cluster < Pow256(8)
    requires tag > 1 || (tag == 0 && cluster != 0) || left != []
    ensures forall m: Marks :: [owner, mode] + ([tag] + Little(cluster, 8) + left) != MarkBytes(m)
  {
    var rest := [owner, mode] + ([tag] + Little(cluster, 8) + left);
    forall m: Marks ensures rest != MarkBytes(m) {
      if rest == MarkBytes(m) {
        assert rest[2..] == SharingBytes(m.sharing) && rest[2..] == [tag] + Little(cluster, 8) + left;
        SharingRefused(m.sharing, tag, cluster, left);
      }
    }
  }

  lemma SharingRefused(sharing: Sharing, tag: Byte, cluster: nat, left: seq<Byte>)
    requires cluster < Pow256(8)
    requires tag > 1 || (tag == 0 && cluster != 0) || left != []
    ensures SharingBytes(sharing) != [tag] + Little(cluster, 8) + left
  {
    var number := if sharing.Cluster? then sharing.cluster else 0;
    if SharingBytes(sharing) == [tag] + Little(cluster, 8) + left {
      SharingParts(sharing, number);
      assert ([tag] + Little(cluster, 8) + left)[0] == tag;
      assert ([tag] + Little(cluster, 8) + left)[1..9] == Little(cluster, 8);
      Widths();
      LittleIsInjective(number, cluster, 8);
    }
  }

  lemma SharingParts(sharing: Sharing, number: U64)
    requires number == if sharing.Cluster? then sharing.cluster else 0
    ensures |SharingBytes(sharing)| == 9 && SharingBytes(sharing)[0] == (if sharing.Cluster? then 1 else 0)
    ensures SharingBytes(sharing)[1..9] == Little(number, 8)
  {}

  lemma MarksComeLast(value: seq<Byte>, head: seq<Byte>, rest: seq<Byte>, facts: FileFacts)
    requires value == head + rest && |head| == 40
    requires value == FactsValue(facts)
    ensures rest == MarkBytes(Marks(facts.owner, facts.mode, facts.sharing))
  {
    var before := IdentityBytes(facts.identity) + Counts(facts);
    assert value == before + Flags(facts);
    PrefixesAgree(head, before, rest, Flags(facts));
  }

  lemma NoFactsHere(value: seq<Byte>, head: seq<Byte>, rest: seq<Byte>)
    requires value == head + rest && |head| == 40
    requires forall m: Marks :: rest != MarkBytes(m)
    ensures forall facts :: value != FactsValue(facts)
  {
    forall facts ensures value != FactsValue(facts) {
      if value == FactsValue(facts) {
        MarksComeLast(value, head, rest, facts);
      }
    }
  }

  datatype Numbers = Numbers(identity: Identity, len: U64, links: U64)

  function NumberBytes(numbers: Numbers): (bytes: seq<Byte>)
    ensures |bytes| == 40
  {
    IdentityBytes(numbers.identity) + (Little(numbers.len, 8) + Little(numbers.links, 8))
  }

  method TakeNumbers(value: seq<Byte>) returns (numbers: Option<Numbers>, left: seq<Byte>)
    ensures numbers.Some? <==> |value| >= 40
    ensures numbers.Some? ==> value == NumberBytes(numbers.value) + left
  {
    Widths();
    var identity, r1 := TakeIdentity(value);
    if identity.None? { return None, value; }
    var len, r2 := TakeNumber(r1, 8);
    if len.None? { return None, value; }
    var links, r3 := TakeNumber(r2, 8);
    if links.None? { return None, value; }
    assert value == NumberBytes(Numbers(identity.value, len.value, links.value)) + r3;
    return Some(Numbers(identity.value, len.value, links.value)), r3;
  }

  function FactsOf(numbers: Numbers, marks: Marks): FileFacts {
    FileFacts(numbers.identity, numbers.len, numbers.links, marks.owner, marks.mode, marks.sharing)
  }

  lemma FactsTogether(numbers: Numbers, marks: Marks)
    ensures FactsValue(FactsOf(numbers, marks)) == NumberBytes(numbers) + MarkBytes(marks)
  {
    var facts := FactsOf(numbers, marks);
    assert Counts(facts) == Little(numbers.len, 8) + Little(numbers.links, 8) && Flags(facts) == MarkBytes(marks);
    assert IdentityBytes(facts.identity) + (Counts(facts) + Flags(facts)) ==
      (IdentityBytes(facts.identity) + Counts(facts)) + Flags(facts);
  }

  /** A file's row is read exactly from the encoding of facts the cache accepts. */
  method ParseFactsValue(value: seq<Byte>) returns (facts: Option<FileFacts>)
    ensures facts.Some? ==> value == FactsValue(facts.value) && Acceptable(facts.value)
    ensures forall f :: Acceptable(f) && value == FactsValue(f) ==> facts == Some(f)
  {
    var numbers, rest := TakeNumbers(value);
    if numbers.None? { return None; }
    var marks := ParseMarks(rest);
    if marks.None? {
      NoFactsHere(value, NumberBytes(numbers.value), rest);
      return None;
    }
    var found := FactsOf(numbers.value, marks.value);
    FactsTogether(numbers.value, marks.value);
    forall f | value == FactsValue(f) ensures f == found {
      FactsValueIsInjective(f, found);
    }
    if found.len < MINIMUM || found.links == 0 {
      return None;
    }
    return Some(found);
  }

  // ---------- keys ----------

  /** A path pair the cache can have a key for. */
  predicate Storable(member: Member) {
    && PlainAbsolute(member.root) && PlainRelative(member.relative)
    && |Raw(member.root)| <= U32_MAX
  }

  /** The root's length in four bytes, the root, and the path inside it. */
  function FileKey(member: Member): seq<Byte>
    requires Storable(member)
  {
    Big(|Raw(member.root)|, 4) + Raw(member.root) + Raw(member.relative)
  }

  /** A key taken apart, unless it is too short or names no file. */
  function SplitFileKey(key: seq<Byte>): Option<(seq<Byte>, seq<Byte>)> {
    if |key| < 4 then None else
      var len := FromBig(key[..4]);
      if |key| <= 4 + len then None else Some((key[4..4 + len], key[4 + len..]))
  }

  lemma KeySplitsBack(member: Member)
    requires Storable(member)
    ensures SplitFileKey(FileKey(member)) == Some((Raw(member.root), Raw(member.relative)))
  {
    Widths();
    var root, relative, key := Raw(member.root), Raw(member.relative), FileKey(member);
    BigReadsBack(|root|, 4);
    RawReadsBack(member.relative);
    assert key[..4] == Big(|root|, 4);
    assert key[4..4 + |root|] == root;
    assert key[4 + |root|..] == relative;
  }

  /** Different files have different keys. */
  lemma KeysAreInjective(a: Member, b: Member)
    requires Storable(a) && Storable(b) && FileKey(a) == FileKey(b)
    ensures a == b
  {
    KeySplitsBack(a);
    KeySplitsBack(b);
    RawIsInjective(a.root, b.root);
    RawIsInjective(a.relative, b.relative);
  }

  // ---------- the tables ----------

  const CACHE_SCHEMA: U64 := 1

  datatype Tables = Tables(
    roots: Table, files: Table,
    schema: Option<U64>, checkpoint: Option<U64>)

  /** A root's key is its path's bytes. */
  function RootCode(root: Path): Option<Bits> {
    if PlainAbsolute(root) then Some(Raw(root)) else None
  }

  function RowCode(row: RootRow): Option<Bits> {
    if row.unreadable <= U64_MAX then Some(RootValue(row)) else None
  }

  function MemberCode(member: Member): Option<Bits> {
    if Storable(member) then Some(FileKey(member)) else None
  }

  function FactsCode(facts: FileFacts): Option<Bits> {
    Some(FactsValue(facts))
  }

  /** The tables hold the rows of this cache and no others. */
  ghost predicate Represents(tables: Tables, cache: Cache) {
    && Agrees(tables.roots, cache.roots, RootCode, RowCode)
    && Agrees(tables.files, cache.files, MemberCode, FactsCode)
  }

  lemma RootCodeIsInjective()
    ensures Injective(RootCode)
  {
    forall a, b | RootCode(a).Some? && RootCode(a) == RootCode(b) ensures a == b {
      RawIsInjective(a, b);
    }
  }

  lemma MemberCodeIsInjective()
    ensures Injective(MemberCode)
  {
    forall a, b | MemberCode(a).Some? && MemberCode(a) == MemberCode(b) ensures a == b {
      KeysAreInjective(a, b);
    }
  }

  // ---------- committing ----------

  datatype Error = InvalidInput | Malformed

  predicate OfRoot(raw: seq<Byte>, key: seq<Byte>) {
    SplitFileKey(key).Some? && SplitFileKey(key).value.0 == raw
  }

  function KeysElsewhere(table: Table, raw: seq<Byte>): Table {
    map key | key in table && !OfRoot(raw, key) :: table[key]
  }

  function FilesElsewhere(files: map<Member, FileFacts>, root: Path): map<Member, FileFacts> {
    map member | member in files && member.root != root :: files[member]
  }

  function FilesOutside(files: map<Member, FileFacts>, roots: set<Path>): map<Member, FileFacts> {
    map member | member in files && member.root !in roots :: files[member]
  }

  lemma KeyIsOfItsRoot(member: Member, root: Path)
    requires Storable(member) && PlainAbsolute(root)
    ensures OfRoot(Raw(root), FileKey(member)) <==> member.root == root
  {
    KeySplitsBack(member);
    if Raw(member.root) == Raw(root) {
      RawIsInjective(member.root, root);
    }
  }

  /** Clearing a root takes out every file under it, and nothing else. */
  lemma RootFilesRemoved(table: Table, files: map<Member, FileFacts>, root: Path)
    requires Agrees(table, files, MemberCode, FactsCode) && PlainAbsolute(root)
    ensures Agrees(KeysElsewhere(table, Raw(root)), FilesElsewhere(files, root), MemberCode, FactsCode)
  {
    var keys, left := KeysElsewhere(table, Raw(root)), FilesElsewhere(files, root);
    forall member | member in files && MemberCode(member).Some?
      ensures member in left <==> MemberCode(member).value in keys
    {
      assert RowKept(table, MemberCode, FactsCode, member, files[member]);
      KeyIsOfItsRoot(member, root);
    }
    RowsFiltered(table, files, MemberCode, FactsCode, keys, left);
  }

  predicate PlainRoots(roots: set<Path>) {
    forall root | root in roots :: PlainAbsolute(root)
  }

  lemma ClearingComposes(files: map<Member, FileFacts>, roots: set<Path>, root: Path)
    requires root in roots
    ensures FilesOutside(FilesElsewhere(files, root), roots - {root}) == FilesOutside(files, roots)
  {}

  method ClearFiles(table: Table, roots: set<Path>, ghost files: map<Member, FileFacts>) returns (after: Table)
    requires Agrees(table, files, MemberCode, FactsCode) && PlainRoots(roots)
    ensures Agrees(after, FilesOutside(files, roots), MemberCode, FactsCode)
    decreases |roots|
  {
    if roots == {} {
      assert FilesOutside(files, {}) == files;
      after := table;
    } else {
      var root :| root in roots;
      RootFilesRemoved(table, files, root);
      ClearingComposes(files, roots, root);
      after := ClearFiles(KeysElsewhere(table, Raw(root)), roots - {root}, FilesElsewhere(files, root));
    }
  }

  function Somes<K, V>(rows: map<K, V>): map<K, Option<V>> {
    map k | k in rows :: Some(rows[k])
  }

  /** The journal's paths were put together from ordinary names. */
  ghost predicate PlainJournal(journal: Journal) {
    && PlainRoots(journal.cleared)
    && (forall root :: root in journal.roots ==> PlainAbsolute(root))
    && forall member :: member in journal.files ==> PlainAbsolute(member.root) && PlainRelative(member.relative)
  }

  /** What a commit cannot write: a count that does not fit in eight bytes, or a root's length in four. */
  ghost predicate Fits(journal: Journal) {
    && (forall root :: root in journal.roots ==> journal.roots[root].unreadable <= U64_MAX)
    && forall member :: member in journal.files ==> PlainAbsolute(member.root) && |Raw(member.root)| <= U32_MAX
  }

  lemma FitsMeansEncoded(journal: Journal)
    requires PlainJournal(journal)
    ensures Fits(journal) <==>
      AllEncoded(Somes(journal.roots), RootCode, RowCode) && AllEncoded(journal.files, MemberCode, FactsCode)
  {
    forall root | root in journal.roots
      ensures Changes(RootCode, RowCode, root, Some(journal.roots[root])) <==> journal.roots[root].unreadable <= U64_MAX
    {}
    forall member | member in journal.files
      ensures Changes(MemberCode, FactsCode, member, journal.files[member]) <==> |Raw(member.root)| <= U32_MAX
    {}
    if AllEncoded(Somes(journal.roots), RootCode, RowCode) {
      forall root | root in journal.roots ensures journal.roots[root].unreadable <= U64_MAX {
        assert Changes(RootCode, RowCode, root, Somes(journal.roots)[root]);
      }
    }
    if AllEncoded(journal.files, MemberCode, FactsCode) {
      forall member | member in journal.files ensures |Raw(member.root)| <= U32_MAX {
        assert Changes(MemberCode, FactsCode, member, journal.files[member]);
      }
    }
  }

  lemma StepsAreReplay(cache: Cache, journal: Journal)
    ensures Replayed(cache, journal) ==
      Cache(AfterChanges(cache.roots - journal.cleared, Somes(journal.roots)),
            AfterChanges(FilesOutside(cache.files, journal.cleared), journal.files))
  {}

  /** `commit`: the tables of a cache become the tables of the cache the journal turns it into. */
  method Commit(tables: Tables, checkpoint: U64, journal: Journal, ghost cache: Cache) returns (r: Result<Tables, Error>)
    requires Represents(tables, cache) && PlainJournal(journal)
    ensures r.Ok? <==> checkpoint != 0 && checkpoint != U64_MAX && Fits(journal)
    ensures r.Ok? ==> Represents(r.value, Replayed(cache, journal))
    ensures r.Ok? ==> r.value.schema == Some(CACHE_SCHEMA) && r.value.checkpoint == Some(checkpoint)
  {
    if checkpoint == 0 || checkpoint == U64_MAX {
      return Err(InvalidInput);
    }
    RootCodeIsInjective();
    MemberCodeIsInjective();
    FitsMeansEncoded(journal);
    var cleared := DropAll(tables.roots, journal.cleared, RootCode, RowCode, cache.roots);
    var kept := ClearFiles(tables.files, journal.cleared, cache.files);
    var roots := WriteAll(cleared, Somes(journal.roots), RootCode, RowCode, cache.roots - journal.cleared);
    if roots.None? { return Err(InvalidInput); }
    var files := WriteAll(kept, journal.files, MemberCode, FactsCode, FilesOutside(cache.files, journal.cleared));
    if files.None? { return Err(InvalidInput); }
    StepsAreReplay(cache, journal);
    return Ok(Tables(roots.value, files.value, Some(CACHE_SCHEMA), Some(checkpoint)));
  }

  // ---------- loading ----------

  /** A cache the loading accepts: every file of a recorded root, on that root's volume, and acceptable. */
  ghost predicate Sound(cache: Cache) {
    forall member :: member in cache.files ==>
      && Acceptable(cache.files[member])
      && member.root in cache.roots
      && cache.files[member].identity.volume == cache.roots[member.root].identity.volume
  }

  /** The roots' rows: each key an absolute path, each path once, each value a row. */
  method LoadRoots(table: Table, ghost rows: map<Path, RootRow>) returns (loaded: Option<map<Path, RootRow>>)
    ensures Agrees(table, rows, RootCode, RowCode) ==> loaded == Some(rows)
    ensures loaded.Some? ==> forall root :: root in loaded.value ==>
      exists key :: key in table && AbsoluteOf(key) == Some(root) && table[key] == RootValue(loaded.value[root])
  {
    var todo, so := table.Keys, map[];
    ghost var agrees := Agrees(table, rows, RootCode, RowCode);
    RootCodeIsInjective();
    if agrees {
      AllRead(table, rows, RootCode, RowCode);
    }
    while todo != {}
      invariant todo <= table.Keys
      invariant agrees ==> so == ReadSoFar(rows, RootCode, todo)
      invariant forall root :: root in so ==>
        exists key :: key in table && AbsoluteOf(key) == Some(root) && table[key] == RootValue(so[root])
    {
      var key :| key in todo;
      if agrees {
        var expected := OneMoreRead(table, rows, RootCode, RowCode, todo, key);
        RawReadsBack(expected);
      }
      var root := AbsoluteOf(key);
      if root.None? { return None; }
      var row := ParseRootValue(table[key]);
      if row.None? || root.value in so { return None; }
      so := so[root.value := row.value];
      todo := todo - {key};
    }
    return Some(so);
  }

  /** The member a key stands for, if both its paths are ordinary. */
  function MemberOf(key: seq<Byte>): Option<Member> {
    match SplitFileKey(key)
    case None => None
    case Some(parts) =>
      var root, relative := AbsoluteOf(parts.0), RelativeOf(parts.1);
      if root.None? || relative.None? then None else Some(Member(root.value, relative.value))
  }

  lemma KeyReadsBack(member: Member)
    requires Storable(member)
    ensures MemberOf(FileKey(member)) == Some(member)
  {
    KeySplitsBack(member);
    RawReadsBack(member.root);
    RawReadsBack(member.relative);
  }

  /** The files' rows: each of a loaded root and on its volume, each file once. */
  method LoadFiles(table: Table, roots: map<Path, RootRow>, ghost files: map<Member, FileFacts>)
    returns (loaded: Option<map<Member, FileFacts>>)
    ensures Agrees(table, files, MemberCode, FactsCode) ==>
      loaded == if Sound(Cache(roots, files)) then Some(files) else None
    ensures loaded.Some? ==> Sound(Cache(roots, loaded.value))
    ensures loaded.Some? ==> forall member :: member in loaded.value ==>
      exists key :: key in table && MemberOf(key) == Some(member) && table[key] == FactsValue(loaded.value[member])
  {
    var todo, so := table.Keys, map[];
    ghost var agrees := Agrees(table, files, MemberCode, FactsCode);
    MemberCodeIsInjective();
    if agrees {
      AllRead(table, files, MemberCode, FactsCode);
    }
    while todo != {}
      invariant todo <= table.Keys
      invariant agrees ==> so == ReadSoFar(files, MemberCode, todo)
      invariant Sound(Cache(roots, so))
      invariant forall member :: member in so ==>
        exists key :: key in table && MemberOf(key) == Some(member) && table[key] == FactsValue(so[member])
    {
      var key :| key in todo;
      if agrees {
        var expected := OneMoreRead(table, files, MemberCode, FactsCode, todo, key);
        KeyReadsBack(expected);
      }
      var member := MemberOf(key);
      if member.None? { return None; }
      var facts := ParseFactsValue(table[key]);
      if agrees && facts.Some? {
        FactsValueIsInjective(facts.value, files[member.value]);
      }
      if facts.None? || member.value.root !in roots { return None; }
      if facts.value.identity.volume != roots[member.value.root].identity.volume || member.value in so { return None; }
      so := so[member.value := facts.value];
      todo := todo - {key};
    }
    return Some(so);
  }

  datatype Loaded = Loaded(checkpoint: U64, cache: Cache)

  /** `load`: nothing for a cache of another schema or without a usable checkpoint, an error for a malformed
    one, and otherwise exactly the cache that was written. */
  method Load(tables: Tables, ghost cache: Cache) returns (r: Result<Option<Loaded>, Error>)
    ensures tables.schema != Some(CACHE_SCHEMA) || tables.checkpoint in [None, Some(0), Some(U64_MAX)] <==> r == Ok(None)
    ensures r != Ok(None) && Represents(tables, cache) ==>
      r == if Sound(cache) then Ok(Some(Loaded(tables.checkpoint.value, cache))) else Err(Malformed)
    ensures r.Ok? && r.value.Some? ==> Sound(r.value.value.cache)
  {
    if tables.schema != Some(CACHE_SCHEMA) || tables.checkpoint in [None, Some(0), Some(U64_MAX)] {
      return Ok(None);
    }
    var roots := LoadRoots(tables.roots, cache.roots);
    if roots.None? { return Err(Malformed); }
    var files := LoadFiles(tables.files, roots.value, cache.files);
    if files.None? { return Err(Malformed); }
    return Ok(Some(Loaded(tables.checkpoint.value, Cache(roots.value, files.value))));
  }

  method LoadBack(tables: Tables, checkpoint: U64, ghost cache: Cache) returns (r: Result<Option<Loaded>, Error>)
    requires Represents(tables, cache) && tables.schema == Some(CACHE_SCHEMA) && tables.checkpoint == Some(checkpoint)
    requires checkpoint != 0 && checkpoint != U64_MAX
    ensures r == if Sound(cache) then Ok(Some(Loaded(checkpoint, cache))) else Err(Malformed)
  {
    r := Load(tables, cache);
  }

  /** What is committed is what is loaded: the replayed journal, with its checkpoint. */
  method CommitThenLoad(tables: Tables, checkpoint: U64, journal: Journal, ghost cache: Cache)
    returns (r: Result<Option<Loaded>, Error>)
    requires Represents(tables, cache) && PlainJournal(journal) && Fits(journal)
    requires checkpoint != 0 && checkpoint != U64_MAX
    ensures r == if Sound(Replayed(cache, journal)) then Ok(Some(Loaded(checkpoint, Replayed(cache, journal)))) else Err(Malformed)
  {
    var committed := Commit(tables, checkpoint, journal, cache);
    r := LoadBack(committed.value, checkpoint, Replayed(cache, journal));
  }
}
