/** Which recorded files a sharing run considers: everything with a repeated length, or only the lengths of
  files that are new, and the groups either choice leads to. */
module Focusing {
  import opened Common
  import opened Paths
  import opened Records
  import opened Inventory
  import opened Noting
  import opened Journals
  import opened Pools
  import opened Grouping
  import opened Planner

  datatype Focus = Everything | Fresh(novel: map<Identity, U64>)

  predicate Repeated(lengths: Lengths, len: U64) {
    len in lengths && |lengths[len]| > 1
  }

  function LengthsOf(lengths: Lengths, focus: Focus): set<nat> {
    match focus
    case Everything => set len | len in lengths && Repeated(lengths, len) :: len
    case Fresh(novel) => set id | id in novel && Repeated(lengths, novel[id]) :: novel[id]
  }

  function Rooted(bucket: set<Member>, root: Path): set<Path> {
    set m | m in bucket && m.root == root :: m.relative
  }

  function Beneath(root: Path, relatives: seq<Path>): seq<Member> {
    seq(|relatives|, i requires 0 <= i < |relatives| => Member(root, relatives[i]))
  }

  function MembersUnder(bucket: set<Member>, roots: seq<Path>): seq<Member> {
    if roots == [] then [] else
      var root := roots[|roots| - 1];
      MembersUnder(bucket, roots[..|roots| - 1]) + Beneath(root, Ascending(Rooted(bucket, root)))
  }

  /** A bucket in the order of its root and relative paths. */
  function BucketOrder(bucket: set<Member>): seq<Member> {
    MembersUnder(bucket, Ascending(set m | m in bucket :: m.root))
  }

  lemma {:induction false} MembersUnderHolds(bucket: set<Member>, roots: seq<Path>)
    ensures forall m :: m in MembersUnder(bucket, roots) <==> m in bucket && m.root in roots
  {
    if roots != [] {
      var rest, root := roots[..|roots| - 1], roots[|roots| - 1];
      MembersUnderHolds(bucket, rest);
      var order := Ascending(Rooted(bucket, root));
      forall m ensures m in Beneath(root, order) <==> m in bucket && m.root == root {
        if m in Beneath(root, order) {
          var i :| 0 <= i < |order| && m == Member(root, order[i]);
          assert order[i] in order;
        }
        if m in bucket && m.root == root {
          assert m.relative in order;
          var i :| 0 <= i < |order| && order[i] == m.relative;
          assert Beneath(root, order)[i] == m;
        }
      }
      assert roots == rest + [root];
    }
  }

  lemma BucketOrderHolds(bucket: set<Member>)
    ensures forall m :: m in BucketOrder(bucket) <==> m in bucket
  {
    MembersUnderHolds(bucket, Ascending(set m | m in bucket :: m.root));
  }

  /** The members of the given lengths, in order. */
  function MembersOf(lengths: Lengths, order: seq<nat>): seq<Member> {
    if order == [] then [] else
      var len := order[|order| - 1];
      MembersOf(lengths, order[..|order| - 1]) + if len in lengths then BucketOrder(lengths[len]) else []
  }

  datatype Usable = Usable(facts: FileFacts, via: Method)

  /** A member that is still recorded under a root that can share. */
  function UsableAt(stocks: map<Path, Stock>, member: Member): Option<Usable> {
    if member.root !in stocks then None else
      var stock := stocks[member.root];
      if stock.via.None? || member.relative !in stock.files then None
      else Some(Usable(stock.files[member.relative], stock.via.value))
  }

  type Locator = Path -> Option<Path>

  function RecordOf(location: Path, usable: Usable): Record {
    var facts := usable.facts;
    Record(location, facts.len, facts.identity, usable.via, facts.links, facts.owner, facts.mode,
           Unobserved, facts.sharing)
  }

  datatype Gathered = Gathered(seen: set<Identity>, records: seq<Record>)

  const NOTHING := Gathered({}, [])

  /** One more member: skipped if its file was seen, and left out if its path cannot be named. */
  function Include(stocks: map<Path, Stock>, locate: Locator, so: Gathered, member: Member): Gathered {
    match UsableAt(stocks, member)
    case None => so
    case Some(usable) =>
      if usable.facts.identity in so.seen then so
      else Gathered(so.seen + {usable.facts.identity},
                    match locate(member.root + member.relative)
                    case Some(location) => so.records + [RecordOf(location, usable)]
                    case None => so.records)
  }

  function Gather(stocks: map<Path, Stock>, locate: Locator, members: seq<Member>, so: Gathered): Gathered {
    if members == [] then so
    else Include(stocks, locate, Gather(stocks, locate, members[..|members| - 1], so), members[|members| - 1])
  }

  function Items(stocks: map<Path, Stock>, lengths: Lengths, locate: Locator, focus: Focus): seq<Record> {
    Gather(stocks, locate, MembersOf(lengths, InOrder(LengthsOf(lengths, focus))), NOTHING).records
  }

  method ListItems(stocks: map<Path, Stock>, lengths: Lengths, locate: Locator, focus: Focus)
    returns (items: seq<Record>)
    ensures items == Items(stocks, lengths, locate, focus)
  {
    var members := MembersOf(lengths, InOrder(LengthsOf(lengths, focus)));
    var seen: set<Identity> := {};
    items := [];
    for i := 0 to |members|
      invariant Gather(stocks, locate, members[..i], NOTHING) == Gathered(seen, items)
    {
      assert members[..i + 1][..i] == members[..i];
      var usable := UsableAt(stocks, members[i]);
      if usable.Some? && usable.value.facts.identity !in seen {
        seen := seen + {usable.value.facts.identity};
        var location := locate(members[i].root + members[i].relative);
        if location.Some? {
          items := items + [RecordOf(location.value, usable.value)];
        }
      }
    }
    assert members[..|members|] == members;
  }

  // ---------- each file once ----------

  ghost predicate Once(so: Gathered) {
    && (forall r :: r in so.records ==> r.identity in so.seen)
    && DistinctIdentities(so.records)
  }

  lemma {:induction false} GatherKeepsOnce(stocks: map<Path, Stock>, locate: Locator, members: seq<Member>, so: Gathered)
    requires Once(so)
    ensures Once(Gather(stocks, locate, members, so))
  {
    if members != [] {
      GatherKeepsOnce(stocks, locate, members[..|members| - 1], so);
      var before := Gather(stocks, locate, members[..|members| - 1], so);
      forall i | 0 <= i < |before.records| ensures before.records[i].identity in before.seen {
        assert before.records[i] in before.records;
      }
    }
  }

  /** Whatever the focus, each file is considered at most once. */
  lemma ItemsAreDistinct(stocks: map<Path, Stock>, lengths: Lengths, locate: Locator, focus: Focus)
    ensures DistinctIdentities(Items(stocks, lengths, locate, focus))
  {
    GatherKeepsOnce(stocks, locate, MembersOf(lengths, InOrder(LengthsOf(lengths, focus))), NOTHING);
  }

  // ---------- what is an item ----------

  ghost predicate IsRecorded(stocks: map<Path, Stock>, m: Member, len: U64) {
    m.root in stocks && HasLength(stocks[m.root].files, m.relative, len)
  }

  ghost predicate TwoRecorded(stocks: map<Path, Stock>, len: U64) {
    exists m: Member, n: Member :: m != n && IsRecorded(stocks, m, len) && IsRecorded(stocks, n, len)
  }

  /** The run looks at a recorded file: another one has its length, and the length is asked for. */
  ghost predicate LooksAt(stocks: map<Path, Stock>, focus: Focus, m: Member) {
    exists len :: IsRecorded(stocks, m, len) && TwoRecorded(stocks, len) && (focus.Fresh? ==> len in focus.novel.Values)
  }

  /** The file under one of its paths, with everything that was recorded of it, and how its root is shared. */
  ghost predicate IsItemOf(stocks: map<Path, Stock>, locate: Locator, m: Member, r: Record) {
    && m.root in stocks && stocks[m.root].via.Some? && m.relative in stocks[m.root].files
    && var facts := stocks[m.root].files[m.relative];
    && locate(m.root + m.relative) == Some(r.location) && r.via == stocks[m.root].via.value
    && r.identity == facts.identity && r.len == facts.len && r.links == facts.links
    && r.owner == facts.owner && r.mode == facts.mode && r.sharing == facts.sharing && r.extras == Unobserved
  }

  lemma {:induction false} MembersOfHolds(lengths: Lengths, order: seq<nat>, m: Member)
    ensures m in MembersOf(lengths, order) <==> exists len: nat | len in order && len in lengths :: m in lengths[len]
  {
    if order != [] {
      var rest, last := order[..|order| - 1], order[|order| - 1];
      MembersOfHolds(lengths, rest, m);
      assert order == rest + [last];
      if last in lengths {
        BucketOrderHolds(lengths[last]);
      }
    }
  }

  lemma TwoOf<T>(s: set<T>)
    ensures |s| > 1 <==> exists a, b :: a in s && b in s && a != b
  {
    if |s| > 1 {
      var a :| a in s;
      assert |s - {a}| > 0;
      var b :| b in s - {a};
    }
    if a, b :| a in s && b in s && a != b {
      SmallerSet({a, b}, s);
    }
  }

  lemma RepeatedExactlyWhen(stocks: map<Path, Stock>, lengths: Lengths, len: U64)
    requires Indexed(lengths, stocks)
    ensures Repeated(lengths, len) <==> TwoRecorded(stocks, len)
  {
    if len in lengths {
      TwoOf(lengths[len]);
      forall m: Member ensures m in lengths[len] <==> IsRecorded(stocks, m, len) {
        assert Bucketed(lengths, len, m) <==> m in lengths[len];
      }
      if Repeated(lengths, len) {
        var m, n :| m in lengths[len] && n in lengths[len] && m != n;
        assert IsRecorded(stocks, m, len) && IsRecorded(stocks, n, len);
      }
    }
    if m: Member, n: Member :| m != n && IsRecorded(stocks, m, len) && IsRecorded(stocks, n, len) {
      assert Bucketed(lengths, len, m) && Bucketed(lengths, len, n);
    }
  }

  lemma LookedAtExactlyWhen(stocks: map<Path, Stock>, lengths: Lengths, focus: Focus, m: Member)
    requires Indexed(lengths, stocks)
    ensures m in MembersOf(lengths, InOrder(LengthsOf(lengths, focus))) <==> LooksAt(stocks, focus, m)
  {
    var order := InOrder(LengthsOf(lengths, focus));
    MembersOfHolds(lengths, order, m);
    if len: nat :| len in order && len in lengths && m in lengths[len] {
      assert Bucketed(lengths, len, m) && len in LengthsOf(lengths, focus);
      RepeatedExactlyWhen(stocks, lengths, len);
      assert IsRecorded(stocks, m, len);
    }
    if len: U64 :| IsRecorded(stocks, m, len) && TwoRecorded(stocks, len) && (focus.Fresh? ==> len in focus.novel.Values) {
      RepeatedExactlyWhen(stocks, lengths, len);
      assert Bucketed(lengths, len, m);
      if focus.Fresh? {
        var id :| id in focus.novel && focus.novel[id] == len;
      }
      assert len in LengthsOf(lengths, focus);
    }
  }

  ghost predicate ComesFrom(stocks: map<Path, Stock>, locate: Locator, members: seq<Member>, r: Record) {
    exists m: Member :: m in members && IsItemOf(stocks, locate, m, r)
  }

  ghost predicate HasItem(records: seq<Record>, id: Identity) {
    exists r: Record :: r in records && r.identity == id
  }

  ghost predicate CanNameAll(locate: Locator) {
    forall path :: locate(path).Some?
  }

  lemma {:induction false} GatherComesFrom(stocks: map<Path, Stock>, locate: Locator, members: seq<Member>, r: Record)
    requires r in Gather(stocks, locate, members, NOTHING).records
    ensures ComesFrom(stocks, locate, members, r)
  {
    if members != [] {
      var rest, last := members[..|members| - 1], members[|members| - 1];
      assert members == rest + [last];
      if r in Gather(stocks, locate, rest, NOTHING).records {
        GatherComesFrom(stocks, locate, rest, r);
        var m: Member :| m in rest && IsItemOf(stocks, locate, m, r);
        assert m in members;
      } else {
        assert IsItemOf(stocks, locate, last, r);
      }
    }
  }

  lemma {:induction false} GatherSees(stocks: map<Path, Stock>, locate: Locator, members: seq<Member>, m: Member)
    requires m in members && UsableAt(stocks, m).Some?
    ensures UsableAt(stocks, m).value.facts.identity in Gather(stocks, locate, members, NOTHING).seen
  {
    var rest, last := members[..|members| - 1], members[|members| - 1];
    assert members == rest + [last];
    if m in rest {
      GatherSees(stocks, locate, rest, m);
    }
  }

  lemma {:induction false} SeenHasItem(stocks: map<Path, Stock>, locate: Locator, members: seq<Member>, id: Identity)
    requires CanNameAll(locate) && id in Gather(stocks, locate, members, NOTHING).seen
    ensures HasItem(Gather(stocks, locate, members, NOTHING).records, id)
  {
    if members != [] {
      var rest := members[..|members| - 1];
      var before, so := Gather(stocks, locate, rest, NOTHING), Gather(stocks, locate, members, NOTHING);
      if id in before.seen {
        SeenHasItem(stocks, locate, rest, id);
        var r: Record :| r in before.records && r.identity == id;
        assert r in so.records;
      } else {
        assert so.records[|so.records| - 1].identity == id;
      }
    }
  }

  /** An item is a recorded file the run looks at, with what was recorded of it. */
  lemma ItemIsRecorded(stocks: map<Path, Stock>, lengths: Lengths, locate: Locator, focus: Focus, r: Record) returns (m: Member)
    requires Indexed(lengths, stocks) && r in Items(stocks, lengths, locate, focus)
    ensures IsItemOf(stocks, locate, m, r) && LooksAt(stocks, focus, m)
  {
    var members := MembersOf(lengths, InOrder(LengthsOf(lengths, focus)));
    GatherComesFrom(stocks, locate, members, r);
    m :| m in members && IsItemOf(stocks, locate, m, r);
    LookedAtExactlyWhen(stocks, lengths, focus, m);
  }

  /** Every file the run looks at is an item under one of its paths, when all paths can be named. */
  lemma RecordedIsItem(stocks: map<Path, Stock>, lengths: Lengths, locate: Locator, focus: Focus, m: Member)
    requires Indexed(lengths, stocks) && CanNameAll(locate)
    requires m.root in stocks && stocks[m.root].via.Some? && LooksAt(stocks, focus, m)
    ensures HasItem(Items(stocks, lengths, locate, focus), stocks[m.root].files[m.relative].identity)
  {
    var members := MembersOf(lengths, InOrder(LengthsOf(lengths, focus)));
    LookedAtExactlyWhen(stocks, lengths, focus, m);
    GatherSees(stocks, locate, members, m);
    SeenHasItem(stocks, locate, members, stocks[m.root].files[m.relative].identity);
  }

  // ---------- one length at a time ----------

  ghost predicate UsableAs(stocks: map<Path, Stock>, member: Member, identity: Identity, len: U64) {
    && UsableAt(stocks, member).Some?
    && UsableAt(stocks, member).value.facts.identity == identity
    && UsableAt(stocks, member).value.facts.len == len
  }

  /** No file is recorded with two lengths. */
  ghost predicate OneLength(stocks: map<Path, Stock>) {
    forall m, n, identity, a, b :: UsableAs(stocks, m, identity, a) && UsableAs(stocks, n, identity, b) ==> a == b
  }

  /** What is new is still recorded with the length it was reported with, if it is recorded at all. */
  ghost predicate NovelAgrees(stocks: map<Path, Stock>, novel: map<Identity, U64>) {
    forall m, identity, len :: UsableAs(stocks, m, identity, len) && identity in novel ==> len == novel[identity]
  }

  /** What was gathered came from members with one of these lengths. */
  ghost predicate From(stocks: map<Path, Stock>, so: Gathered, lens: set<nat>) {
    && (forall id :: id in so.seen ==> exists m, len :: UsableAs(stocks, m, id, len) && len in lens)
    && forall r :: r in so.records ==> r.len in lens
  }

  lemma {:induction false} GatherFrom(
    stocks: map<Path, Stock>, locate: Locator, members: seq<Member>, so: Gathered, lens: set<nat>)
    requires From(stocks, so, lens)
    requires forall m :: m in members && UsableAt(stocks, m).Some? ==> UsableAt(stocks, m).value.facts.len in lens
    ensures From(stocks, Gather(stocks, locate, members, so), lens)
  {
    if members != [] {
      var last := members[|members| - 1];
      assert last in members;
      GatherFrom(stocks, locate, members[..|members| - 1], so, lens);
      var usable := UsableAt(stocks, last);
      if usable.Some? {
        assert UsableAs(stocks, last, usable.value.facts.identity, usable.value.facts.len);
      }
    }
  }

  /** Gathering on top of unrelated files only appends. */
  lemma {:induction false} GatherAppends(
    stocks: map<Path, Stock>, locate: Locator, members: seq<Member>, so: Gathered)
    requires forall m :: m in members && UsableAt(stocks, m).Some? ==>
      UsableAt(stocks, m).value.facts.identity !in so.seen
    ensures var alone := Gather(stocks, locate, members, NOTHING);
      Gather(stocks, locate, members, so) == Gathered(so.seen + alone.seen, so.records + alone.records)
  {
    if members != [] {
      assert members[|members| - 1] in members;
      GatherAppends(stocks, locate, members[..|members| - 1], so);
    }
  }

  lemma {:induction false} GatherTwice(
    stocks: map<Path, Stock>, locate: Locator, a: seq<Member>, b: seq<Member>, so: Gathered)
    ensures Gather(stocks, locate, a + b, so) == Gather(stocks, locate, b, Gather(stocks, locate, a, so))
  {
    if b == [] {
      assert a + b == a;
    } else {
      GatherTwice(stocks, locate, a, b[..|b| - 1], so);
      assert (a + b)[..|a + b| - 1] == a + b[..|b| - 1];
    }
  }

  /** What one length contributes. */
  function OfLength(stocks: map<Path, Stock>, lengths: Lengths, locate: Locator, len: nat): Gathered {
    if len !in lengths then NOTHING else Gather(stocks, locate, BucketOrder(lengths[len]), NOTHING)
  }

  function OfLengths(stocks: map<Path, Stock>, lengths: Lengths, locate: Locator, order: seq<nat>): seq<Record> {
    if order == [] then [] else
      OfLengths(stocks, lengths, locate, order[..|order| - 1]) +
      OfLength(stocks, lengths, locate, order[|order| - 1]).records
  }

  lemma BucketHasLength(stocks: map<Path, Stock>, lengths: Lengths, len: nat, m: Member)
    requires Indexed(lengths, stocks) && len in lengths && m in BucketOrder(lengths[len])
    requires UsableAt(stocks, m).Some?
    ensures UsableAt(stocks, m).value.facts.len == len
  {
    BucketOrderHolds(lengths[len]);
    assert Bucketed(lengths, len, m);
  }

  lemma OfLengthHas(stocks: map<Path, Stock>, lengths: Lengths, locate: Locator, len: nat)
    requires Indexed(lengths, stocks)
    ensures From(stocks, OfLength(stocks, lengths, locate, len), {len})
  {
    if len in lengths {
      var members := BucketOrder(lengths[len]);
      forall m | m in members && UsableAt(stocks, m).Some?
        ensures UsableAt(stocks, m).value.facts.len in {len}
      {
        BucketHasLength(stocks, lengths, len, m);
      }
      GatherFrom(stocks, locate, members, NOTHING, {len});
    }
  }

  function Lens(order: seq<nat>): set<nat> {
    set len | len in order
  }

  lemma FromMore(stocks: map<Path, Stock>, so: Gathered, fewer: set<nat>, more: set<nat>)
    requires From(stocks, so, fewer) && fewer <= more
    ensures From(stocks, so, more)
  {
    forall id | id in so.seen ensures exists m, len :: UsableAs(stocks, m, id, len) && len in more {
      var m, len :| UsableAs(stocks, m, id, len) && len in fewer;
      assert len in more;
    }
  }

  /** When no file has two lengths, the lengths are gathered independently. */
  lemma {:induction false} ItemsByLength(stocks: map<Path, Stock>, lengths: Lengths, locate: Locator, order: seq<nat>)
    requires Indexed(lengths, stocks) && OneLength(stocks) && Rising(order)
    ensures From(stocks, Gather(stocks, locate, MembersOf(lengths, order), NOTHING), Lens(order))
    ensures Gather(stocks, locate, MembersOf(lengths, order), NOTHING).records ==
      OfLengths(stocks, lengths, locate, order)
  {
    if order != [] {
      var rest, len := order[..|order| - 1], order[|order| - 1];
      ItemsByLength(stocks, lengths, locate, rest);
      assert len !in Lens(rest) && Lens(rest) <= Lens(order);
      var before := Gather(stocks, locate, MembersOf(lengths, rest), NOTHING);
      FromMore(stocks, before, Lens(rest), Lens(order));
      if len in lengths {
        var members := BucketOrder(lengths[len]);
        GatherTwice(stocks, locate, MembersOf(lengths, rest), members, NOTHING);
        forall m | m in members && UsableAt(stocks, m).Some?
          ensures UsableAt(stocks, m).value.facts.identity !in before.seen
          ensures UsableAt(stocks, m).value.facts.len in Lens(order)
        {
          BucketHasLength(stocks, lengths, len, m);
          assert UsableAs(stocks, m, UsableAt(stocks, m).value.facts.identity, len);
        }
        GatherAppends(stocks, locate, members, before);
        GatherFrom(stocks, locate, members, before, Lens(order));
      } else {
        assert MembersOf(lengths, order) == MembersOf(lengths, rest);
      }
    }
  }

  // ---------- the groups ----------

  /** The records with one size key, in order. */
  function WithKey(items: seq<Record>, key: nat): seq<Record> {
    if items == [] then [] else
      var last := items[|items| - 1];
      WithKey(items[..|items| - 1], key) + if SizeKey(last) == Some(key) then [last] else []
  }

  function RecordsOf(items: seq<Record>, members: seq<nat>): seq<Record>
    requires Within(items, members)
  {
    seq(|members|, i requires 0 <= i < |members| => (StillWithin(items, members, 0); items[members[i]]))
  }

  function FamiliesIn(records: seq<Record>): set<Family> {
    set r | r in records :: FamilyOf(r)
  }

  /** A group of exactly these files, in this order, is among the groups of the items. */
  ghost predicate Offers(items: seq<Record>, len: U64, records: seq<Record>) {
    exists g :: g in Groups(items) && Within(items, g.members) && g.len == len && RecordsOf(items, g.members) == records
  }

  lemma {:induction false} BucketRecords(items: seq<Record>, n: nat, key: nat)
    requires n <= |items|
    ensures Within(items, Bucket(Everyone(|items|)[..n], SizeKeys(items)[..n], key))
    ensures RecordsOf(items, Bucket(Everyone(|items|)[..n], SizeKeys(items)[..n], key)) == WithKey(items[..n], key)
  {
    if n > 0 {
      BucketRecords(items, n - 1, key);
      assert Everyone(|items|)[..n][..n - 1] == Everyone(|items|)[..n - 1];
      assert SizeKeys(items)[..n][..n - 1] == SizeKeys(items)[..n - 1];
      assert items[..n][..n - 1] == items[..n - 1];
    }
  }

  lemma FamiliesAgree(items: seq<Record>, members: seq<nat>)
    requires Within(items, members)
    ensures Families(items, members) == FamiliesIn(RecordsOf(items, members))
  {
    StillWithin(items, members, 0);
    forall m | m in members ensures FamilyOf(items[m]) in FamiliesIn(RecordsOf(items, members)) {
      var i :| 0 <= i < |members| && members[i] == m;
      assert RecordsOf(items, members)[i] == items[m];
    }
  }

  ghost predicate KeyOffers(items: seq<Record>, len: U64, records: seq<Record>, key: nat) {
    key % WIDTH == len && records == WithKey(items, key) && |FamiliesIn(records)| > 1
  }

  lemma WholeBucket(items: seq<Record>, key: nat) returns (bucket: seq<nat>)
    ensures bucket == Bucket(Everyone(|items|), SizeKeys(items), key) && Within(items, bucket)
    ensures RecordsOf(items, bucket) == WithKey(items, key)
    ensures Families(items, bucket) == FamiliesIn(WithKey(items, key))
  {
    var all, keys := Everyone(|items|), SizeKeys(items);
    assert all[..|items|] == all && keys[..|items|] == keys && items[..|items|] == items;
    bucket := Bucket(all, keys, key);
    BucketRecords(items, |items|, key);
    FamiliesAgree(items, bucket);
  }

  lemma OfferHasKey(items: seq<Record>, len: U64, records: seq<Record>) returns (key: nat)
    requires Offers(items, len, records)
    ensures KeyOffers(items, len, records, key)
  {
    var g :| g in Groups(items) && Within(items, g.members) && g.len == len && RecordsOf(items, g.members) == records;
    var i :| 0 <= i < |Groups(items)| && Groups(items)[i] == g;
    var bin := GroupBin(items, i);
    key := bin.key;
    var bucket := WholeBucket(items, key);
  }

  lemma KeyIsOffered(items: seq<Record>, len: U64, records: seq<Record>, key: nat)
    requires KeyOffers(items, len, records, key)
    ensures Offers(items, len, records)
  {
    var bucket := WholeBucket(items, key);
    var all, keys, bin := Everyone(|items|), SizeKeys(items), Bin(key, bucket);
    BinsMeaning(items, all, keys);
    BinMeaning(items, all, keys, bin);
    var bins := Bins(items, all, keys);
    var i :| 0 <= i < |bins| && bins[i] == bin;
    assert Groups(items)[i] == Group(len, bucket);
  }

  lemma {:induction false} WithKeyAppends(a: seq<Record>, b: seq<Record>, key: nat)
    ensures WithKey(a + b, key) == WithKey(a, key) + WithKey(b, key)
  {
    if b == [] {
      assert a + b == a;
    } else {
      WithKeyAppends(a, b[..|b| - 1], key);
      assert (a + b)[..|a + b| - 1] == a + b[..|b| - 1];
    }
  }

  lemma {:induction false} NoneWithKey(items: seq<Record>, key: nat)
    requires forall r :: r in items ==> r.len != key % WIDTH
    ensures WithKey(items, key) == []
  {
    if items != [] {
      NoneWithKey(items[..|items| - 1], key);
      assert items[|items| - 1] in items;
      SizeKeyIsThePair(items[|items| - 1], items[|items| - 1]);
    }
  }

  lemma OtherLengthHasNone(stocks: map<Path, Stock>, lengths: Lengths, locate: Locator, len: nat, key: nat)
    requires Indexed(lengths, stocks) && len != key % WIDTH
    ensures WithKey(OfLength(stocks, lengths, locate, len).records, key) == []
  {
    OfLengthHas(stocks, lengths, locate, len);
    NoneWithKey(OfLength(stocks, lengths, locate, len).records, key);
  }

  lemma OneMoreLength(stocks: map<Path, Stock>, lengths: Lengths, locate: Locator, rest: seq<nat>, len: nat, key: nat)
    ensures WithKey(OfLengths(stocks, lengths, locate, rest + [len]), key) ==
      WithKey(OfLengths(stocks, lengths, locate, rest), key) + WithKey(OfLength(stocks, lengths, locate, len).records, key)
  {
    assert (rest + [len])[..|rest|] == rest;
    WithKeyAppends(OfLengths(stocks, lengths, locate, rest), OfLength(stocks, lengths, locate, len).records, key);
  }

  /** The records of one key: those of the last length, or those of the lengths before it. */
  lemma {:induction false} KeyIsOfOneLength(
    stocks: map<Path, Stock>, lengths: Lengths, locate: Locator, order: seq<nat>, key: nat)
    requires Indexed(lengths, stocks) && Rising(order)
    ensures key % WIDTH !in order ==> WithKey(OfLengths(stocks, lengths, locate, order), key) == []
  {
    if order != [] && key % WIDTH !in order {
      var rest, len := order[..|order| - 1], order[|order| - 1];
      assert order == rest + [len] && len in order;
      KeyIsOfOneLength(stocks, lengths, locate, rest, key);
      OneMoreLength(stocks, lengths, locate, rest, len, key);
      OtherLengthHasNone(stocks, lengths, locate, len, key);
    }
  }

  /** Only the key's own length contributes to a key's records. */
  lemma {:induction false} KeyedByLength(
    stocks: map<Path, Stock>, lengths: Lengths, locate: Locator, order: seq<nat>, key: nat)
    requires Indexed(lengths, stocks) && Rising(order)
    ensures WithKey(OfLengths(stocks, lengths, locate, order), key) ==
      if key % WIDTH in order then WithKey(OfLength(stocks, lengths, locate, key % WIDTH).records, key) else []
  {
    if key % WIDTH !in order {
      KeyIsOfOneLength(stocks, lengths, locate, order, key);
    } else {
      var rest, len := order[..|order| - 1], order[|order| - 1];
      assert order == rest + [len];
      OneMoreLength(stocks, lengths, locate, rest, len, key);
      if len == key % WIDTH {
        KeyIsOfOneLength(stocks, lengths, locate, rest, key);
        NothingBefore(WithKey(OfLength(stocks, lengths, locate, len).records, key));
      } else {
        KeyedByLength(stocks, lengths, locate, rest, key);
        OtherLengthHasNone(stocks, lengths, locate, len, key);
        NothingAfter(WithKey(OfLengths(stocks, lengths, locate, rest), key));
      }
    }
  }

  lemma NothingBefore(records: seq<Record>)
    ensures [] + records == records
  {}

  lemma NothingAfter(records: seq<Record>)
    ensures records + [] == records
  {}

  lemma ItemsWithKey(stocks: map<Path, Stock>, lengths: Lengths, locate: Locator, focus: Focus, key: nat)
    requires Indexed(lengths, stocks) && OneLength(stocks)
    ensures WithKey(Items(stocks, lengths, locate, focus), key) ==
      if key % WIDTH in LengthsOf(lengths, focus)
      then WithKey(OfLength(stocks, lengths, locate, key % WIDTH).records, key) else []
  {
    ItemsByLength(stocks, lengths, locate, InOrder(LengthsOf(lengths, focus)));
    KeyedByLength(stocks, lengths, locate, InOrder(LengthsOf(lengths, focus)), key);
  }

  /** `Focus::group`: under a fresh focus, only groups with a new file are considered. */
  predicate Considers(focus: Focus, records: seq<Record>) {
    match focus
    case Everything => true
    case Fresh(novel) => exists r :: r in records && r.identity in novel
  }

  ghost predicate Considered(
    stocks: map<Path, Stock>, lengths: Lengths, locate: Locator, focus: Focus, len: U64, records: seq<Record>)
  {
    Offers(Items(stocks, lengths, locate, focus), len, records) && Considers(focus, records)
  }

  lemma {:induction false} WithKeyIsPart(items: seq<Record>, key: nat, r: Record)
    requires r in WithKey(items, key)
    ensures r in items && SizeKey(r) == Some(key)
  {
    if r in WithKey(items[..|items| - 1], key) {
      WithKeyIsPart(items[..|items| - 1], key, r);
    }
  }

  lemma {:induction false} GatheredWasUsable(
    stocks: map<Path, Stock>, locate: Locator, members: seq<Member>, so: Gathered, r: Record)
    requires r in Gather(stocks, locate, members, so).records
    ensures r in so.records || exists m :: UsableAs(stocks, m, r.identity, r.len)
  {
    if members != [] {
      var before := Gather(stocks, locate, members[..|members| - 1], so);
      if r in before.records {
        GatheredWasUsable(stocks, locate, members[..|members| - 1], so, r);
      } else {
        assert UsableAs(stocks, members[|members| - 1], r.identity, r.len);
      }
    }
  }

  /** A length whose records show up among the items of a focus is one the focus looks at. */
  lemma KeyOfItsFocus(stocks: map<Path, Stock>, lengths: Lengths, locate: Locator, focus: Focus, key: nat)
    requires Indexed(lengths, stocks) && OneLength(stocks)
    requires WithKey(Items(stocks, lengths, locate, focus), key) != []
    ensures key % WIDTH in LengthsOf(lengths, focus) && key % WIDTH in LengthsOf(lengths, Focus.Everything)
    ensures WithKey(Items(stocks, lengths, locate, focus), key) == WithKey(OfLength(stocks, lengths, locate, key % WIDTH).records, key)
  {
    ItemsWithKey(stocks, lengths, locate, focus, key);
  }

  /** The groups a fresh focus considers are exactly the groups of everything that hold a new file and have a
    length reported with a new file, with the same members in the same order. */
  lemma FocusedExactlyWhen(stocks: map<Path, Stock>, lengths: Lengths, locate: Locator,
                           novel: map<Identity, U64>, len: U64, records: seq<Record>)
    requires Indexed(lengths, stocks) && OneLength(stocks)
    ensures Considered(stocks, lengths, locate, Fresh(novel), len, records) <==>
      && Considered(stocks, lengths, locate, Focus.Everything, len, records)
      && Considers(Fresh(novel), records) && len in novel.Values
  {
    var some, all := Items(stocks, lengths, locate, Fresh(novel)), Items(stocks, lengths, locate, Focus.Everything);
    if Considered(stocks, lengths, locate, Fresh(novel), len, records) {
      var key := OfferHasKey(some, len, records);
      KeyOfItsFocus(stocks, lengths, locate, Fresh(novel), key);
      ItemsWithKey(stocks, lengths, locate, Focus.Everything, key);
      KeyIsOffered(all, len, records, key);
    }
    if Offers(all, len, records) && Considers(Fresh(novel), records) && len in novel.Values {
      var key := OfferHasKey(all, len, records);
      KeyOfItsFocus(stocks, lengths, locate, Focus.Everything, key);
      assert len in LengthsOf(lengths, Fresh(novel)) by {
        var id :| id in novel && novel[id] == len;
        assert Repeated(lengths, novel[id]);
      }
      ItemsWithKey(stocks, lengths, locate, Fresh(novel), key);
      KeyIsOffered(some, len, records, key);
    }
  }

  /** When what is new was reported with its recorded lengths, holding a new file is all it takes. */
  lemma FocusedIsFiltered(stocks: map<Path, Stock>, lengths: Lengths, locate: Locator,
                          novel: map<Identity, U64>, len: U64, records: seq<Record>)
    requires Indexed(lengths, stocks) && OneLength(stocks) && NovelAgrees(stocks, novel)
    ensures Considered(stocks, lengths, locate, Fresh(novel), len, records) <==>
      Considered(stocks, lengths, locate, Focus.Everything, len, records) && Considers(Fresh(novel), records)
  {
    FocusedExactlyWhen(stocks, lengths, locate, novel, len, records);
    var all := Items(stocks, lengths, locate, Focus.Everything);
    if Offers(all, len, records) && Considers(Fresh(novel), records) {
      var r :| r in records && r.identity in novel;
      var key := OfferHasKey(all, len, records);
      WithKeyIsPart(all, key, r);
      GatheredWasUsable(stocks, locate, MembersOf(lengths, InOrder(LengthsOf(lengths, Focus.Everything))), NOTHING, r);
      SizeKeyIsThePair(r, r);
      assert novel[r.identity] == r.len == len;
    }
  }

  // ---------- what listing and noting report as new ----------

  /** Everything new is recorded under one of the roots with the length it was reported with. */
  ghost predicate Vouched(stocks: map<Path, Stock>, novel: map<Identity, U64>, roots: set<Path>) {
    forall id :: id in novel ==> exists m: Member :: m.root in roots && UsableAs(stocks, m, id, novel[id])
  }

  lemma VouchedAgrees(stocks: map<Path, Stock>, novel: map<Identity, U64>, roots: set<Path>)
    requires OneLength(stocks) && Vouched(stocks, novel, roots)
    ensures NovelAgrees(stocks, novel)
  {
    forall m, identity, len | UsableAs(stocks, m, identity, len) && identity in novel ensures len == novel[identity] {
      var n: Member :| n.root in roots && UsableAs(stocks, n, identity, novel[identity]);
    }
  }

  lemma FreshenedVouches(stocks: map<Path, Stock>, root: Path, files: Files, known: set<Identity>)
    requires root in stocks && stocks[root].via.Some?
    requires forall path :: path in files ==> path in stocks[root].files && stocks[root].files[path] == files[path]
    ensures Vouched(stocks, Freshened(Ascending(files.Keys), files, known), {root})
  {
    var novel := Freshened(Ascending(files.Keys), files, known);
    FreshenedMeaning(Ascending(files.Keys), files, known);
    forall id | id in novel ensures exists m: Member :: m.root in {root} && UsableAs(stocks, m, id, novel[id]) {
      var path :| path in Ascending(files.Keys) && NamesFile(files, path, id, novel[id]);
      assert UsableAs(stocks, Member(root, path), id, novel[id]);
    }
  }

  /** What `stock` reports as new is recorded so. */
  lemma StockVouches(stocks: map<Path, Stock>, candidate: Candidate, admitted: Option<Method>, tree: Node)
    ensures var listing := Listing(candidate, admitted, tree);
      Vouched(stocks[candidate.path := listing],
              Freshened(Ascending(listing.files.Keys), listing.files, KnownIn(stocks, candidate.path)), {candidate.path})
  {
    var listing := Listing(candidate, admitted, tree);
    if listing.via.Some? {
      FreshenedVouches(stocks[candidate.path := listing], candidate.path, listing.files, KnownIn(stocks, candidate.path));
    } else {
      assert Ascending(listing.files.Keys) == [];
    }
  }

  /** What `note` reports as new is recorded so. */
  lemma NoteVouches(stocks: map<Path, Stock>, root: Path, changed: Changed, seen: map<Path, Node>)
    requires root in stocks && stocks[root].via.Some? && changed.Keys <= seen.Keys
    ensures var files := stocks[root].files;
      var progress := After(files, root, changed, seen, Ascending(changed.Keys));
      Vouched(stocks[root := stocks[root].(files := Noted(files, root, changed, seen))],
              Freshened(Ascending(progress.added.Keys), progress.added, Identities(progress.removed)), {root})
  {
    var files := stocks[root].files;
    var progress := After(files, root, changed, seen, Ascending(changed.Keys));
    FreshenedVouches(stocks[root := stocks[root].(files := Noted(files, root, changed, seen))], root,
                     progress.added, Identities(progress.removed));
  }

  /** What several roots report as new can be put together: listing one more leaves the others as they are. */
  lemma VouchedTogether(stocks: map<Path, Stock>, novel: map<Identity, U64>, roots: set<Path>,
                        root: Path, stock: Stock, more: map<Identity, U64>)
    requires Vouched(stocks, novel, roots) && root !in roots
    requires Vouched(stocks[root := stock], more, {root})
    ensures Vouched(stocks[root := stock], novel + more, roots + {root})
  {
    var after := stocks[root := stock];
    forall id | id in novel + more
      ensures exists m: Member :: m.root in roots + {root} && UsableAs(after, m, id, (novel + more)[id])
    {
      if id in more {
        var m: Member :| m.root in {root} && UsableAs(after, m, id, more[id]);
        assert m.root in roots + {root};
      } else {
        var m: Member :| m.root in roots && UsableAs(stocks, m, id, novel[id]);
        assert UsableAs(after, m, id, novel[id]);
      }
    }
  }

  // ---------- the whole run ----------

  type Print = Record -> Option<nat>

  function PrintsOf(items: seq<Record>, taken: Print): Prints {
    (m: nat) => if m < |items| then taken(items[m]) else None
  }

  /** The groups the focus considers. */
  function Narrowed(items: seq<Record>, focus: Focus, groups: seq<Group>): seq<Group>
    requires AllWithin(items, groups)
  {
    if groups == [] then [] else
      var last := groups[|groups| - 1];
      Narrowed(items, focus, groups[..|groups| - 1]) +
      if Considers(focus, RecordsOf(items, last.members)) then [last] else []
  }

  /** Exactly the groups that hold something new are considered, or all of them. */
  lemma {:induction false} NarrowedMeaning(items: seq<Record>, focus: Focus, groups: seq<Group>)
    requires AllWithin(items, groups)
    ensures forall g :: g in Narrowed(items, focus, groups) <==>
      g in groups && (focus.Everything? || exists m :: m in g.members && items[m].identity in focus.novel)
  {
    if groups != [] {
      var rest, last := groups[..|groups| - 1], groups[|groups| - 1];
      NarrowedMeaning(items, focus, rest);
      assert groups == rest + [last];
      LastConsidered(items, focus, last.members);
    }
  }

  lemma LastConsidered(items: seq<Record>, focus: Focus, members: seq<nat>)
    requires Within(items, members)
    ensures Considers(focus, RecordsOf(items, members)) <==>
      focus.Everything? || exists m :: m in members && items[m].identity in focus.novel
  {
    StillWithin(items, members, 0);
    if m :| focus.Fresh? && m in members && items[m].identity in focus.novel {
      var i :| 0 <= i < |members| && members[i] == m;
      assert RecordsOf(items, members)[i] == items[m];
    }
    if focus.Fresh? && Considers(focus, RecordsOf(items, members)) {
      var r :| r in RecordsOf(items, members) && r.identity in focus.novel;
      var i :| 0 <= i < |members| && RecordsOf(items, members)[i] == r;
      assert members[i] in members;
    }
  }

  /** The items with their flags and attributes looked up, where replacing needs them. */
  function ObservedAs(items: seq<Record>, observe: Record -> Extras): seq<Record> {
    seq(|items|, i requires 0 <= i < |items| =>
      items[i].(extras := if Replaces(items[i].via) then observe(items[i]) else Unobserved))
  }

  lemma {:induction false} NarrowedIsWellGrouped(items: seq<Record>, focus: Focus, groups: seq<Group>)
    requires AllWithin(items, groups) && WellGrouped(items, groups)
    ensures WellGrouped(items, Narrowed(items, focus, groups)) && AllWithin(items, Narrowed(items, focus, groups))
    ensures forall g :: g in Narrowed(items, focus, groups) ==> g in groups
  {
    if groups != [] {
      var rest, last := groups[..|groups| - 1], groups[|groups| - 1];
      assert last in groups;
      NarrowedIsWellGrouped(items, focus, rest);
      forall g | g in Narrowed(items, focus, rest) ensures Disjoint(g, last) {
        forall m | m in g.members ensures m !in last.members {
          assert Covers(rest, m);
          if m in last.members {
            CoveredByOne(items, groups, m);
          }
        }
      }
      WellGroupedTogether(items, Narrowed(items, focus, rest), [last]);
    }
  }

  lemma ObservedIsWellGrouped(items: seq<Record>, observe: Record -> Extras, groups: seq<Group>)
    requires WellGrouped(items, groups)
    ensures WellGrouped(ObservedAs(items, observe), groups) && AllWithin(ObservedAs(items, observe), groups)
  {
    var observed := ObservedAs(items, observe);
    forall g | g in groups ensures Coherent(observed, g) {
      assert Coherent(items, g);
      assert Families(observed, g.members) == Families(items, g.members);
    }
  }

  /** The groups to share: those of one size that the focus lets through, by sample print, then by full
    print. */
  method Confirm(items: seq<Record>, focus: Focus, sample: Print, full: Print) returns (confirmed: seq<Group>)
    ensures WellGrouped(items, confirmed) && IsConfirmed(items, focus, sample, full, confirmed)
  {
    GroupsAreSound(items);
    var sized := GroupBySize(items);
    NarrowedIsWellGrouped(items, focus, sized);
    var considered := Narrowed(items, focus, sized);
    var sampled := RefineAll(items, considered, PrintsOf(items, sample));
    RefineIsWellGrouped(items, considered, PrintsOf(items, sample));
    RefineStaysWithin(items, considered, PrintsOf(items, sample));
    confirmed := RefineAll(items, sampled, PrintsOf(items, full));
    RefineIsWellGrouped(items, sampled, PrintsOf(items, full));
  }

  method PlanSharing(stocks: map<Path, Stock>, lengths: Lengths, locate: Locator, focus: Focus,
                     sample: Print, full: Print, observe: Record -> Extras)
    returns (items: seq<Record>, ghost confirmed: seq<Group>, pairs: seq<Pair>)
    ensures DistinctIdentities(items) && WellGrouped(items, confirmed)
    ensures items == ObservedAs(Items(stocks, lengths, locate, focus), observe)
    ensures AllWithin(items, confirmed) && pairs == Plan(items, confirmed)
    ensures IsConfirmed(Items(stocks, lengths, locate, focus), focus, sample, full, confirmed)
  {
    var listed := ListItems(stocks, lengths, locate, focus);
    ItemsAreDistinct(stocks, lengths, locate, focus);
    var found := Confirm(listed, focus, sample, full);
    ObservedIsWellGrouped(listed, observe, found);
    items, confirmed := ObservedAs(listed, observe), found;
    pairs := PlanAll(items, found);
  }

  /** The groups are what the two stages leave of the considered groups by size. */
  ghost predicate IsConfirmed(items: seq<Record>, focus: Focus, sample: Print, full: Print, confirmed: seq<Group>) {
    && AllWithin(items, Groups(items))
    && var considered := Narrowed(items, focus, Groups(items));
    && AllWithin(items, considered)
    && AllWithin(items, Refine(items, considered, PrintsOf(items, sample)))
    && confirmed == Refine(items, Refine(items, considered, PrintsOf(items, sample)), PrintsOf(items, full))
  }

  /** The members of a confirmed group were all read in full and agree. */
  lemma ConfirmedAgree(items: seq<Record>, focus: Focus, sample: Print, full: Print, confirmed: seq<Group>, g: Group)
    requires IsConfirmed(items, focus, sample, full, confirmed) && g in confirmed
    ensures Within(items, g.members)
    ensures forall m, n :: m in g.members && n in g.members ==>
      full(items[m]).Some? && full(items[m]) == full(items[n])
  {
    var sampled := Refine(items, Narrowed(items, focus, Groups(items)), PrintsOf(items, sample));
    RefineMeaning(items, sampled, PrintsOf(items, full));
    var whole, key :| whole in sampled && PartOf(items, whole, PrintsOf(items, full), key, g);
    WithPrintHolds(whole.members, PrintsOf(items, full), key);
  }

  // ---------- what a run shares ----------

  predicate SameSize(a: Record, b: Record) {
    a.identity.volume == b.identity.volume && a.len == b.len && a.len >= MINIMUM
  }

  predicate SamePrint(taken: Print, a: Record, b: Record) {
    taken(a).Some? && taken(a) == taken(b)
  }

  /** The run is about everything, or about something new of this size. */
  predicate InSight(items: seq<Record>, focus: Focus, a: Record) {
    focus.Everything? || exists n | 0 <= n < |items| :: items[n].identity in focus.novel && SameSize(a, items[n])
  }

  /** Two files are alike in size and print, in sight, and there is something to gain: a file like them is of
    another family. */
  ghost predicate Sharable(items: seq<Record>, focus: Focus, full: Print, a: nat, b: nat) {
    && a < |items| && b < |items|
    && SameSize(items[a], items[b]) && SamePrint(full, items[a], items[b]) && InSight(items, focus, items[a])
    && exists c: nat :: IsUnlike(items, full, a, c)
  }

  ghost predicate IsUnlike(items: seq<Record>, full: Print, a: nat, c: nat) {
    && a < |items| && c < |items| && SameSize(items[a], items[c]) && SamePrint(full, items[a], items[c])
    && FamilyOf(items[c]) != FamilyOf(items[a])
  }

  /** Files with equal contents have equal samples. */
  ghost predicate SamplesFollow(items: seq<Record>, sample: Print, full: Print) {
    forall m, n :: 0 <= m < |items| && 0 <= n < |items| && SamePrint(full, items[m], items[n]) ==>
      SamePrint(sample, items[m], items[n])
  }

  ghost predicate Together(groups: seq<Group>, a: nat, b: nat) {
    exists g :: g in groups && a in g.members && b in g.members
  }

  ghost predicate Linked(pairs: seq<Pair>, keeper: nat, m: nat) {
    m == keeper || exists p :: p in pairs && p.keeper == keeper && p.duplicate == m
  }

  /** One of the two is shared with the other, or both with a third. */
  ghost predicate Joined(pairs: seq<Pair>, a: nat, b: nat) {
    a != b && exists keeper :: Linked(pairs, keeper, a) && Linked(pairs, keeper, b)
  }

  lemma SameSizeSameKey(a: Record, b: Record)
    ensures SameSize(a, b) <==> SizeKey(a).Some? && SizeKey(a) == SizeKey(b)
  {
    SizeKeyIsThePair(a, b);
  }

  /** A group by size has every item of that size. */
  lemma GroupHasAll(items: seq<Record>, g: Group, a: nat, b: nat)
    requires g in Groups(items) && a in g.members && a < |items| && b < |items|
    ensures SameSize(items[a], items[b]) <==> b in g.members
  {
    var i :| 0 <= i < |Groups(items)| && Groups(items)[i] == g;
    var bin := GroupBin(items, i);
    SizeBucket(items, bin.key);
    SameSizeSameKey(items[a], items[b]);
  }

  lemma ConfirmedAsOnce(items: seq<Record>, focus: Focus, sample: Print, full: Print, confirmed: seq<Group>, part: Group)
    requires IsConfirmed(items, focus, sample, full, confirmed) && SamplesFollow(items, sample, full)
    ensures part in confirmed <==> Refines(items, Narrowed(items, focus, Groups(items)), PrintsOf(items, full), part)
  {
    var considered := Narrowed(items, focus, Groups(items));
    SamplesFollowIn(items, considered, sample, full);
    StagesAsOnce(items, considered, PrintsOf(items, sample), PrintsOf(items, full), part);
  }

  lemma SamplesFollowIn(items: seq<Record>, groups: seq<Group>, sample: Print, full: Print)
    requires AllWithin(items, groups) && SamplesFollow(items, sample, full)
    ensures SampleFollows(groups, PrintsOf(items, sample), PrintsOf(items, full))
  {
    forall g, m, n | g in groups && m in g.members && n in g.members
                     && PrintsOf(items, full)(m).Some? && PrintsOf(items, full)(m) == PrintsOf(items, full)(n)
      ensures PrintsOf(items, sample)(m).Some? && PrintsOf(items, sample)(m) == PrintsOf(items, sample)(n)
    {
      assert SamePrint(full, items[m], items[n]);
      assert SamePrint(sample, items[m], items[n]);
    }
  }

  lemma StagesAsOnce(items: seq<Record>, groups: seq<Group>, sample: Prints, full: Prints, part: Group)
    requires AllWithin(items, groups) && SampleFollows(groups, sample, full)
    ensures AllWithin(items, Refine(items, groups, sample))
    ensures part in Refine(items, Refine(items, groups, sample), full) <==> Refines(items, groups, full, part)
  {
    StagesLoseNothing(items, groups, sample, full);
    RefineMeaning(items, groups, full);
  }

  /** Two files end up in one group exactly when they are sharable. */
  lemma TogetherExactlyWhen(items: seq<Record>, focus: Focus, sample: Print, full: Print, confirmed: seq<Group>, a: nat, b: nat)
    requires IsConfirmed(items, focus, sample, full, confirmed) && SamplesFollow(items, sample, full)
    ensures Together(confirmed, a, b) <==> Sharable(items, focus, full, a, b)
  {
    NarrowedMeaning(items, focus, Groups(items));
    if part :| part in confirmed && a in part.members && b in part.members {
      ConfirmedAsOnce(items, focus, sample, full, confirmed, part);
      var whole, key :| whole in Narrowed(items, focus, Groups(items)) && PartOf(items, whole, PrintsOf(items, full), key, part);
      PartIsSharable(items, focus, full, whole, key, part, a, b);
    }
    if Sharable(items, focus, full, a, b) {
      var part := SharableIsPart(items, focus, full, a, b);
      ConfirmedAsOnce(items, focus, sample, full, confirmed, part);
    }
  }

  lemma PartIsSharable(items: seq<Record>, focus: Focus, full: Print, whole: Group, key: nat, part: Group, a: nat, b: nat)
    requires AllWithin(items, Groups(items))
    requires whole in Narrowed(items, focus, Groups(items)) && PartOf(items, whole, PrintsOf(items, full), key, part)
    requires a in part.members && b in part.members
    ensures Sharable(items, focus, full, a, b)
  {
    NarrowedMeaning(items, focus, Groups(items));
    WithPrintHolds(whole.members, PrintsOf(items, full), key);
    GroupHasAll(items, whole, a, b);
    if focus.Fresh? {
      var m :| m in whole.members && items[m].identity in focus.novel;
      GroupHasAll(items, whole, a, m);
    }
    var c := AnotherFamily(items, part.members, a);
    GroupHasAll(items, whole, a, c);
    assert IsUnlike(items, full, a, c);
  }

  lemma AnotherFamily(items: seq<Record>, members: seq<nat>, a: nat) returns (c: nat)
    requires Within(items, members) && |Families(items, members)| > 1 && a in members
    ensures c in members && FamilyOf(items[c]) != FamilyOf(items[a])
  {
    assert Families(items, members) != {FamilyOf(items[a])};
    c :| c in members && FamilyOf(items[c]) != FamilyOf(items[a]);
  }

  lemma SharableIsPart(items: seq<Record>, focus: Focus, full: Print, a: nat, b: nat) returns (part: Group)
    requires AllWithin(items, Groups(items)) && Sharable(items, focus, full, a, b)
    ensures a in part.members && b in part.members
    ensures Refines(items, Narrowed(items, focus, Groups(items)), PrintsOf(items, full), part)
  {
    var c: nat :| IsUnlike(items, full, a, c);
    SameSizeSameKey(items[a], items[c]);
    TogetherWhenAlike(items, a, c);
    var whole :| whole in Groups(items) && a in whole.members && c in whole.members;
    GroupHasAll(items, whole, a, b);
    NarrowedMeaning(items, focus, Groups(items));
    if focus.Fresh? {
      var n :| 0 <= n < |items| && items[n].identity in focus.novel && SameSize(items[a], items[n]);
      GroupHasAll(items, whole, a, n);
    }
    var key := full(items[a]).value;
    part := Group(whole.len, WithPrint(whole.members, PrintsOf(items, full), key));
    WithPrintHolds(whole.members, PrintsOf(items, full), key);
    TwoFamilies(items, part.members, a, c);
    assert PartOf(items, whole, PrintsOf(items, full), key, part);
  }

  /** In a plan, the members of a group are joined, and nothing else is. */
  lemma JoinedIsTogether(items: seq<Record>, groups: seq<Group>, a: nat, b: nat)
    requires WellGrouped(items, groups) && AllWithin(items, groups)
    ensures Joined(Plan(items, groups), a, b) <==> a != b && Together(groups, a, b)
  {
    var pairs := Plan(items, groups);
    PlanMeaning(items, groups);
    if Joined(pairs, a, b) {
      var keeper :| Linked(pairs, keeper, a) && Linked(pairs, keeper, b);
      var m := if a == keeper then b else a;
      var g := LinkedInGroup(items, groups, keeper, m);
      if a != keeper && b != keeper {
        var h := LinkedInGroup(items, groups, keeper, b);
        SameGroup(items, groups, g, h, keeper);
      }
    }
    if a != b && Together(groups, a, b) {
      var g :| g in groups && a in g.members && b in g.members;
      GroupIsLinked(items, groups, g, a);
      GroupIsLinked(items, groups, g, b);
    }
  }

  lemma LinkedInGroup(items: seq<Record>, groups: seq<Group>, keeper: nat, m: nat) returns (g: Group)
    requires WellGrouped(items, groups) && AllWithin(items, groups)
    requires m != keeper && Linked(Plan(items, groups), keeper, m)
    ensures g in groups && keeper in g.members && m in g.members
  {
    PlanMeaning(items, groups);
    var p :| p in Plan(items, groups) && p.keeper == keeper && p.duplicate == m;
    g :| g in groups && Planned(items, g, p);
  }

  lemma GroupIsLinked(items: seq<Record>, groups: seq<Group>, g: Group, m: nat)
    requires WellGrouped(items, groups) && AllWithin(items, groups) && g in groups && m in g.members
    ensures Linked(Plan(items, groups), KeeperOf(items, g.members), m)
  {
    PlanMeaning(items, groups);
    PlanOfMeaning(items, g);
    var kept := KeeperOf(items, g.members);
    if m != kept {
      var p := Pair(kept, m, g.len, PairingOf(items[kept], items[m]));
      assert Planned(items, g, p);
    }
  }

  /** Whatever the focus, every pair joins two different files of one volume and length whose full prints
    agree, no file is a duplicate twice or both kept and replaced, and exactly the sharable files are joined. */
  method ShareSafely(stocks: map<Path, Stock>, lengths: Lengths, locate: Locator, focus: Focus,
                     sample: Print, full: Print, observe: Record -> Extras)
    returns (items: seq<Record>, pairs: seq<Pair>)
    ensures var listed := Items(stocks, lengths, locate, focus);
      |items| == |listed| && forall i :: 0 <= i < |items| ==>
        items[i] == listed[i].(extras := if listed[i].via == CloneAndSwap then observe(listed[i]) else Unobserved)
    ensures NoDuplicateTwice(pairs)
    ensures forall p :: p in pairs ==>
      && !IsDuplicate(pairs, p.keeper)
      && p.keeper < |items| && p.duplicate < |items|
      && Alike(items[p.keeper], items[p.duplicate])
      && p.pairing == PairingOf(items[p.keeper], items[p.duplicate])
    ensures var listed := Items(stocks, lengths, locate, focus);
      forall p :: p in pairs ==>
        && full(listed[p.keeper]).Some?
        && full(listed[p.keeper]) == full(listed[p.duplicate])
    ensures var listed := Items(stocks, lengths, locate, focus);
      SamplesFollow(listed, sample, full) ==>
        forall a: nat, b: nat :: Joined(pairs, a, b) <==> a != b && Sharable(listed, focus, full, a, b)
  {
    ghost var confirmed;
    items, confirmed, pairs := PlanSharing(stocks, lengths, locate, focus, sample, full, observe);
    PlanIsSound(items, confirmed);
    PlanMeaning(items, confirmed);
    forall p | p in pairs
      ensures p.pairing == PairingOf(items[p.keeper], items[p.duplicate])
      ensures var listed := Items(stocks, lengths, locate, focus);
        full(listed[p.keeper]).Some? && full(listed[p.keeper]) == full(listed[p.duplicate])
    {
      var g :| g in confirmed && Planned(items, g, p);
      ConfirmedAgree(Items(stocks, lengths, locate, focus), focus, sample, full, confirmed, g);
    }
    SharesExactly(Items(stocks, lengths, locate, focus), items, focus, sample, full, confirmed);
  }

  lemma SharesExactly(listed: seq<Record>, items: seq<Record>, focus: Focus, sample: Print, full: Print, confirmed: seq<Group>)
    requires IsConfirmed(listed, focus, sample, full, confirmed)
    requires WellGrouped(items, confirmed) && AllWithin(items, confirmed)
    ensures SamplesFollow(listed, sample, full) ==>
      forall a: nat, b: nat :: Joined(Plan(items, confirmed), a, b) <==> a != b && Sharable(listed, focus, full, a, b)
  {
    if SamplesFollow(listed, sample, full) {
      forall a: nat, b: nat ensures Joined(Plan(items, confirmed), a, b) <==> a != b && Sharable(listed, focus, full, a, b) {
        JoinedIsTogether(items, confirmed, a, b);
        TogetherExactlyWhen(listed, focus, sample, full, confirmed, a, b);
      }
    }
  }
}
