/** Which files are worth comparing: grouping by volume and length, then splitting by print.

  Files are referred to by their position in one list of items, as the source refers to them by reference. */
module Grouping {
  import opened Common
  import opened Paths
  import opened Records

  datatype Extras = Simple(attributes: U128) | Special | Unobserved

  datatype Record = Record(
    location: Path, len: U64, identity: Identity, via: Method, links: U64, owner: Owner, mode: Mode,
    extras: Extras, sharing: Sharing)

  datatype Family = Shared(cluster: U64) | Alone(file: U128)

  function FamilyOf(found: Record): Family {
    match found.sharing
    case Cluster(cluster) => Shared(cluster)
    case Unknown => Alone(found.identity.file)
  }

  // ---------- bins of members with the same key ----------

  /** Keys in ascending order, as an ordered map iterates over them. */
  predicate IsSmallest(m: nat, keys: set<nat>) {
    m in keys && forall k :: k in keys ==> m <= k
  }

  lemma {:induction false} SmallestExists(keys: set<nat>)
    requires keys != {}
    ensures exists m :: IsSmallest(m, keys)
  {
    var k :| k in keys;
    if keys == {k} {
      assert IsSmallest(k, keys);
    } else {
      SmallestExists(keys - {k});
      var m :| IsSmallest(m, keys - {k});
      assert forall j :: j in keys ==> j == k || j in keys - {k};
      var least := if k < m then k else m;
      assert IsSmallest(least, keys);
    }
  }

  function Smallest(keys: set<nat>): (m: nat)
    requires keys != {}
    ensures IsSmallest(m, keys)
  {
    SmallestExists(keys);
    var m :| IsSmallest(m, keys);
    m
  }

  ghost predicate Rising(s: seq<nat>) {
    forall i, j :: 0 <= i < j < |s| ==> s[i] < s[j]
  }

  function InOrder(keys: set<nat>): (s: seq<nat>)
    ensures Rising(s)
    ensures forall k :: k in s <==> k in keys
  {
    if keys == {} then [] else
      var m := Smallest(keys);
      [m] + InOrder(keys - {m})
  }

  /** The members whose key is this one, in their order. */
  function Bucket(members: seq<nat>, keys: seq<Option<nat>>, key: nat): seq<nat>
    requires |keys| == |members|
  {
    if members == [] then [] else
      var n := |members| - 1;
      Bucket(members[..n], keys[..n], key) + if keys[n] == Some(key) then [members[n]] else []
  }

  lemma {:induction false} BucketHolds(members: seq<nat>, keys: seq<Option<nat>>, key: nat)
    requires |keys| == |members|
    ensures forall m :: m in Bucket(members, keys, key) <==>
      exists p :: 0 <= p < |members| && members[p] == m && keys[p] == Some(key)
  {
    if members != [] {
      var n := |members| - 1;
      BucketHolds(members[..n], keys[..n], key);
      forall m
        ensures m in Bucket(members, keys, key) <==>
          exists p :: 0 <= p < |members| && members[p] == m && keys[p] == Some(key)
      {
        if p :| 0 <= p < |members| && members[p] == m && keys[p] == Some(key) {
          assert p < n ==> members[..n][p] == m && keys[..n][p] == Some(key);
        }
      }
    }
  }

  lemma {:induction false} BucketWithin(members: seq<nat>, keys: seq<Option<nat>>, key: nat)
    requires |keys| == |members|
    ensures forall m :: m in Bucket(members, keys, key) ==> m in members
  {
    if members != [] {
      BucketWithin(members[..|members| - 1], keys[..|members| - 1], key);
    }
  }

  lemma {:induction false} BucketRises(members: seq<nat>, keys: seq<Option<nat>>, key: nat)
    requires |keys| == |members| && Rising(members)
    ensures Rising(Bucket(members, keys, key))
  {
    if members != [] {
      var n := |members| - 1;
      BucketRises(members[..n], keys[..n], key);
      BucketWithin(members[..n], keys[..n], key);
      var before := Bucket(members[..n], keys[..n], key);
      forall i | 0 <= i < |before| ensures before[i] < members[n] {
        assert before[i] in before;
      }
    }
  }

  method Classify(members: seq<nat>, keys: seq<Option<nat>>) returns (buckets: map<nat, seq<nat>>)
    requires |keys| == |members|
    ensures forall k :: k in buckets <==> Some(k) in keys
    ensures forall k :: k in buckets ==> buckets[k] == Bucket(members, keys, k)
  {
    buckets := map[];
    for n := 0 to |members|
      invariant forall k :: k in buckets <==> Some(k) in keys[..n]
      invariant forall k :: k in buckets ==> buckets[k] == Bucket(members[..n], keys[..n], k)
    {
      assert keys[..n + 1] == keys[..n] + [keys[n]];
      assert members[..n + 1][..n] == members[..n] && keys[..n + 1][..n] == keys[..n];
      if keys[n].Some? {
        var k := keys[n].value;
        if k !in buckets {
          NoneInBucket(members[..n], keys[..n], k);
        }
        buckets := buckets[k := (if k in buckets then buckets[k] else []) + [members[n]]];
      }
    }
    assert members[..|members|] == members && keys[..|keys|] == keys;
  }

  lemma {:induction false} NoneInBucket(members: seq<nat>, keys: seq<Option<nat>>, key: nat)
    requires |keys| == |members| && Some(key) !in keys
    ensures Bucket(members, keys, key) == []
  {
    if members != [] {
      NoneInBucket(members[..|members| - 1], keys[..|members| - 1], key);
    }
  }

  predicate Within(items: seq<Record>, members: seq<nat>) {
    forall m :: m in members ==> m < |items|
  }

  function Families(items: seq<Record>, members: seq<nat>): set<Family>
    requires Within(items, members)
  {
    set m | m in members :: FamilyOf(items[m])
  }

  datatype Bin = Bin(key: nat, members: seq<nat>)

  /** The bucket of one key, if it spans more than one family. */
  function KeptBin(items: seq<Record>, members: seq<nat>, keys: seq<Option<nat>>, key: nat): seq<Bin>
    requires |keys| == |members| && Within(items, members)
  {
    var bucket := Bucket(members, keys, key);
    BucketWithin(members, keys, key);
    if |Families(items, bucket)| > 1 then [Bin(key, bucket)] else []
  }

  function Kept(items: seq<Record>, members: seq<nat>, keys: seq<Option<nat>>, order: seq<nat>): seq<Bin>
    requires |keys| == |members| && Within(items, members)
  {
    if order == [] then [] else
      Kept(items, members, keys, order[..|order| - 1]) + KeptBin(items, members, keys, order[|order| - 1])
  }

  function KeysIn(keys: seq<Option<nat>>): set<nat> {
    set o | o in keys && o.Some? :: o.value
  }

  function Bins(items: seq<Record>, members: seq<nat>, keys: seq<Option<nat>>): seq<Bin>
    requires |keys| == |members| && Within(items, members)
  {
    Kept(items, members, keys, InOrder(KeysIn(keys)))
  }

  ghost predicate IsBin(items: seq<Record>, members: seq<nat>, keys: seq<Option<nat>>, bin: Bin)
    requires |keys| == |members| && Within(items, members)
  {
    KeptBin(items, members, keys, bin.key) == [bin]
  }

  lemma BinMeaning(items: seq<Record>, members: seq<nat>, keys: seq<Option<nat>>, bin: Bin)
    requires |keys| == |members| && Within(items, members)
    ensures IsBin(items, members, keys, bin) <==>
      && bin.members == Bucket(members, keys, bin.key)
      && Within(items, bin.members)
      && |Families(items, bin.members)| > 1
    ensures IsBin(items, members, keys, bin) ==> bin.members != [] && Some(bin.key) in keys
  {
    BucketWithin(members, keys, bin.key);
    NoFamilies(items, Bucket(members, keys, bin.key));
    if Some(bin.key) !in keys {
      NoneInBucket(members, keys, bin.key);
    }
  }

  lemma NoFamilies(items: seq<Record>, members: seq<nat>)
    requires Within(items, members)
    ensures members == [] ==> Families(items, members) == {}
  {}

  lemma {:induction false} KeptMeaning(items: seq<Record>, members: seq<nat>, keys: seq<Option<nat>>, order: seq<nat>)
    requires |keys| == |members| && Within(items, members)
    ensures forall c :: c in Kept(items, members, keys, order) <==> c.key in order && IsBin(items, members, keys, c)
  {
    if order != [] {
      var n := |order| - 1;
      KeptMeaning(items, members, keys, order[..n]);
      assert order == order[..n] + [order[n]];
      assert forall c :: c in KeptBin(items, members, keys, order[n]) <==>
        c.key == order[n] && IsBin(items, members, keys, c);
    }
  }

  ghost predicate KeysRise(bins: seq<Bin>) {
    forall i, j :: 0 <= i < j < |bins| ==> bins[i].key < bins[j].key
  }

  lemma {:induction false} KeptRises(items: seq<Record>, members: seq<nat>, keys: seq<Option<nat>>, order: seq<nat>)
    requires |keys| == |members| && Within(items, members) && Rising(order)
    ensures KeysRise(Kept(items, members, keys, order))
  {
    if order != [] {
      var n := |order| - 1;
      KeptRises(items, members, keys, order[..n]);
      KeptMeaning(items, members, keys, order[..n]);
      var before, last := Kept(items, members, keys, order[..n]), KeptBin(items, members, keys, order[n]);
      forall i | 0 <= i < |before| ensures before[i].key < order[n] {
        assert before[i] in before && before[i].key in order[..n];
      }
      assert Kept(items, members, keys, order) == before + last;
    }
  }

  /** The bins are exactly the buckets that span more than one family, each once. */
  lemma BinsMeaning(items: seq<Record>, members: seq<nat>, keys: seq<Option<nat>>)
    requires |keys| == |members| && Within(items, members)
    ensures forall c :: c in Bins(items, members, keys) <==> IsBin(items, members, keys, c)
    ensures KeysRise(Bins(items, members, keys))
  {
    KeptMeaning(items, members, keys, InOrder(KeysIn(keys)));
    KeptRises(items, members, keys, InOrder(KeysIn(keys)));
    forall c | IsBin(items, members, keys, c) ensures c.key in InOrder(KeysIn(keys)) {
      BinMeaning(items, members, keys, c);
      assert Some(c.key).value in KeysIn(keys);
    }
  }

  lemma BucketKeys(buckets: map<nat, seq<nat>>, keys: seq<Option<nat>>)
    requires forall k :: k in buckets <==> Some(k) in keys
    ensures buckets.Keys == KeysIn(keys)
  {
    forall k: nat ensures k in buckets <==> k in KeysIn(keys) {
      assert Some(k).value == k;
    }
  }

  method KeepMixed(items: seq<Record>, members: seq<nat>, keys: seq<Option<nat>>) returns (bins: seq<Bin>)
    requires |keys| == |members| && Within(items, members)
    ensures bins == Bins(items, members, keys)
  {
    var buckets := Classify(members, keys);
    BucketKeys(buckets, keys);
    var order := InOrder(buckets.Keys);
    bins := [];
    for n := 0 to |order|
      invariant bins == Kept(items, members, keys, order[..n])
    {
      KeptSnoc(items, members, keys, order, n);
      assert order[n] in order;
      BucketWithin(members, keys, order[n]);
      ghost var more := bins + KeptBin(items, members, keys, order[n]);
      if |Families(items, buckets[order[n]])| > 1 {
        bins := bins + [Bin(order[n], buckets[order[n]])];
      }
      assert bins == more;
    }
    assert order[..|order|] == order;
  }

  lemma KeptSnoc(items: seq<Record>, members: seq<nat>, keys: seq<Option<nat>>, order: seq<nat>, n: nat)
    requires |keys| == |members| && Within(items, members) && n < |order|
    ensures Kept(items, members, keys, order[..n + 1]) ==
      Kept(items, members, keys, order[..n]) + KeptBin(items, members, keys, order[n])
  {
    assert order[..n + 1][..n] == order[..n];
  }

  // ---------- groups of one size, and of one print ----------

  datatype Group = Group(len: U64, members: seq<nat>)

  const WIDTH: nat := U64_MAX + 1

  /** Volume and length as one number: the order of the numbers is the order of the pairs. */
  function SizeKey(found: Record): Option<nat> {
    if found.len >= MINIMUM then Some(found.identity.volume * WIDTH + found.len) else None
  }

  lemma SizeKeyIsThePair(a: Record, b: Record)
    ensures SizeKey(a).Some? ==>
      (SizeKey(a) == SizeKey(b) <==>
       b.len >= MINIMUM && a.identity.volume == b.identity.volume && a.len == b.len)
    ensures SizeKey(a).Some? ==> SizeKey(a).value % WIDTH == a.len
  {}

  function Everyone(count: nat): seq<nat> {
    seq(count, i => i)
  }

  function SizeKeys(items: seq<Record>): seq<Option<nat>> {
    seq(|items|, i requires 0 <= i < |items| => SizeKey(items[i]))
  }

  function SizedAs(bins: seq<Bin>): seq<Group> {
    seq(|bins|, i requires 0 <= i < |bins| => Group(bins[i].key % WIDTH, bins[i].members))
  }

  function LengthAs(len: U64, bins: seq<Bin>): seq<Group> {
    seq(|bins|, i requires 0 <= i < |bins| => Group(len, bins[i].members))
  }

  function Groups(items: seq<Record>): seq<Group> {
    SizedAs(Bins(items, Everyone(|items|), SizeKeys(items)))
  }

  method GroupBySize(items: seq<Record>) returns (groups: seq<Group>)
    ensures groups == Groups(items)
  {
    var keys := [];
    for i := 0 to |items|
      invariant keys == SizeKeys(items)[..i]
    {
      keys := keys + [SizeKey(items[i])];
    }
    assert keys == SizeKeys(items);
    var bins := KeepMixed(items, Everyone(|items|), keys);
    groups := SizedAs(bins);
  }

  /** A print may be missing for a member whose file could not be read. */
  type Prints = nat -> Option<nat>

  function Printed(members: seq<nat>, taken: Prints): seq<Option<nat>> {
    seq(|members|, p requires 0 <= p < |members| => taken(members[p]))
  }

  function Split(items: seq<Record>, group: Group, prints: seq<Option<nat>>): seq<Group>
    requires |prints| == |group.members| && Within(items, group.members)
  {
    LengthAs(group.len, Bins(items, group.members, prints))
  }

  predicate AllWithin(items: seq<Record>, groups: seq<Group>) {
    forall g :: g in groups ==> Within(items, g.members)
  }

  /** Every group split by the prints of its members, as `refine` does in parallel. */
  function Refine(items: seq<Record>, groups: seq<Group>, taken: Prints): seq<Group>
    requires AllWithin(items, groups)
  {
    if groups == [] then [] else
      Refine(items, groups[..|groups| - 1], taken) +
      var last := groups[|groups| - 1];
      Split(items, last, Printed(last.members, taken))
  }

  method SplitByPrint(items: seq<Record>, group: Group, prints: seq<Option<nat>>) returns (groups: seq<Group>)
    requires |prints| == |group.members| && Within(items, group.members)
    ensures groups == Split(items, group, prints)
  {
    var bins := KeepMixed(items, group.members, prints);
    groups := LengthAs(group.len, bins);
  }

  method RefineAll(items: seq<Record>, groups: seq<Group>, taken: Prints) returns (refined: seq<Group>)
    requires AllWithin(items, groups)
    ensures refined == Refine(items, groups, taken)
  {
    refined := [];
    for n := 0 to |groups|
      invariant refined == Refine(items, groups[..n], taken)
    {
      assert groups[..n + 1][..n] == groups[..n];
      var parts := SplitByPrint(items, groups[n], Printed(groups[n].members, taken));
      refined := refined + parts;
    }
    assert groups[..|groups|] == groups;
  }

  // ---------- what grouping promises ----------

  /** One group: distinct files of one volume and one sufficient length, from more than one family. */
  ghost predicate Coherent(items: seq<Record>, group: Group) {
    && Within(items, group.members)
    && Rising(group.members)
    && group.len >= MINIMUM
    && (forall m :: m in group.members ==> items[m].len == group.len)
    && (forall m, n :: m in group.members && n in group.members ==>
          items[m].identity.volume == items[n].identity.volume)
    && |Families(items, group.members)| > 1
  }

  ghost predicate Disjoint(a: Group, b: Group) {
    forall m :: m in a.members ==> m !in b.members
  }

  ghost predicate WellGrouped(items: seq<Record>, groups: seq<Group>) {
    && (forall g :: g in groups ==> Coherent(items, g))
    && forall i, j :: 0 <= i < j < |groups| ==> Disjoint(groups[i], groups[j])
  }

  lemma SizeBucket(items: seq<Record>, key: nat)
    ensures forall m: nat :: m in Bucket(Everyone(|items|), SizeKeys(items), key) <==>
      m < |items| && SizeKey(items[m]) == Some(key)
    ensures Rising(Bucket(Everyone(|items|), SizeKeys(items), key))
  {
    BucketRises(Everyone(|items|), SizeKeys(items), key);
    BucketHolds(Everyone(|items|), SizeKeys(items), key);
    forall m: nat | m < |items| && SizeKey(items[m]) == Some(key)
      ensures m in Bucket(Everyone(|items|), SizeKeys(items), key)
    {
      assert Everyone(|items|)[m] == m && SizeKeys(items)[m] == Some(key);
    }
  }

  /** The class a group by size was made of. */
  lemma GroupBin(items: seq<Record>, i: nat) returns (bin: Bin)
    requires i < |Groups(items)|
    ensures bin == Bins(items, Everyone(|items|), SizeKeys(items))[i]
    ensures Groups(items)[i] == Group(bin.key % WIDTH, bin.members)
    ensures bin.members == Bucket(Everyone(|items|), SizeKeys(items), bin.key) != []
    ensures Within(items, bin.members) && |Families(items, bin.members)| > 1
  {
    bin := Bins(items, Everyone(|items|), SizeKeys(items))[i];
    BinsMeaning(items, Everyone(|items|), SizeKeys(items));
    BinMeaning(items, Everyone(|items|), SizeKeys(items), bin);
  }

  lemma GroupIsCoherent(items: seq<Record>, i: nat)
    requires i < |Groups(items)|
    ensures Coherent(items, Groups(items)[i])
  {
    var bin := GroupBin(items, i);
    SizeBucket(items, bin.key);
    var first := bin.members[0];
    assert first in bin.members;
    forall m | m in bin.members
      ensures items[m].len == bin.key % WIDTH >= MINIMUM
      ensures items[m].identity.volume == items[first].identity.volume
    {
      SizeKeyIsThePair(items[first], items[m]);
    }
  }

  lemma GroupsAreDisjoint(items: seq<Record>, i: nat, j: nat)
    requires i < j < |Groups(items)|
    ensures Disjoint(Groups(items)[i], Groups(items)[j])
  {
    var a := GroupBin(items, i);
    var b := GroupBin(items, j);
    BinsMeaning(items, Everyone(|items|), SizeKeys(items));
    SizeBucket(items, a.key);
    SizeBucket(items, b.key);
  }

  /** Two items of different families are together in a group exactly when both are long enough and agree
    on volume and length. */
  lemma TogetherWhenAlike(items: seq<Record>, m: nat, n: nat)
    requires m < |items| && n < |items| && FamilyOf(items[m]) != FamilyOf(items[n])
    ensures (exists g :: g in Groups(items) && m in g.members && n in g.members) <==>
      SizeKey(items[m]).Some? && SizeKey(items[m]) == SizeKey(items[n])
  {
    var all, keys := Everyone(|items|), SizeKeys(items);
    if g :| g in Groups(items) && m in g.members && n in g.members {
      var i :| 0 <= i < |Groups(items)| && Groups(items)[i] == g;
      var bin := GroupBin(items, i);
      SizeBucket(items, bin.key);
    }
    if SizeKey(items[m]).Some? && SizeKey(items[m]) == SizeKey(items[n]) {
      var key := SizeKey(items[m]).value;
      var bin := Bin(key, Bucket(all, keys, key));
      SizeBucket(items, key);
      TwoFamilies(items, bin.members, m, n);
      BinsMeaning(items, all, keys);
      BinMeaning(items, all, keys, bin);
      var i :| 0 <= i < |Bins(items, all, keys)| && Bins(items, all, keys)[i] == bin;
      assert Groups(items)[i] in Groups(items);
    }
  }

  lemma TwoFamilies(items: seq<Record>, members: seq<nat>, m: nat, n: nat)
    requires Within(items, members) && m in members && n in members
    requires FamilyOf(items[m]) != FamilyOf(items[n])
    ensures |Families(items, members)| > 1
  {
    SmallerSet({FamilyOf(items[m]), FamilyOf(items[n])}, Families(items, members));
  }

  /** Grouping by size yields disjoint groups of alike files, and no pair worth sharing is lost. */
  lemma GroupsAreSound(items: seq<Record>)
    ensures WellGrouped(items, Groups(items))
    ensures forall m, n ::
      0 <= m < |items| && 0 <= n < |items| && FamilyOf(items[m]) != FamilyOf(items[n]) ==>
      ((exists g :: g in Groups(items) && m in g.members && n in g.members) <==>
       SizeKey(items[m]).Some? && SizeKey(items[m]) == SizeKey(items[n]))
  {
    forall g | g in Groups(items) ensures Coherent(items, g) {
      var i :| 0 <= i < |Groups(items)| && Groups(items)[i] == g;
      GroupIsCoherent(items, i);
    }
    forall i, j | 0 <= i < j < |Groups(items)| ensures Disjoint(Groups(items)[i], Groups(items)[j]) {
      GroupsAreDisjoint(items, i, j);
    }
    forall m, n | 0 <= m < |items| && 0 <= n < |items| && FamilyOf(items[m]) != FamilyOf(items[n])
      ensures (exists g :: g in Groups(items) && m in g.members && n in g.members) <==>
        SizeKey(items[m]).Some? && SizeKey(items[m]) == SizeKey(items[n])
    {
      TogetherWhenAlike(items, m, n);
    }
  }

  // ---------- splitting by print ----------

  /** The members with one print. */
  function WithPrint(members: seq<nat>, taken: Prints, key: nat): seq<nat> {
    Bucket(members, Printed(members, taken), key)
  }

  lemma WithPrintHolds(members: seq<nat>, taken: Prints, key: nat)
    ensures forall m :: m in WithPrint(members, taken, key) <==> m in members && taken(m) == Some(key)
    ensures Rising(members) ==> Rising(WithPrint(members, taken, key))
  {
    BucketHolds(members, Printed(members, taken), key);
    if Rising(members) {
      BucketRises(members, Printed(members, taken), key);
    }
    forall m | m in members && taken(m) == Some(key) ensures m in WithPrint(members, taken, key) {
      var p :| 0 <= p < |members| && members[p] == m;
      assert Printed(members, taken)[p] == Some(key);
    }
  }

  /** A group is one of another's parts: its members with some print, if they span more than one family. */
  ghost predicate PartOf(items: seq<Record>, whole: Group, taken: Prints, key: nat, part: Group) {
    && part.len == whole.len
    && part.members == WithPrint(whole.members, taken, key)
    && Within(items, part.members)
    && |Families(items, part.members)| > 1
  }

  lemma SplitMeaning(items: seq<Record>, whole: Group, taken: Prints)
    requires Within(items, whole.members)
    ensures forall part :: part in Split(items, whole, Printed(whole.members, taken)) <==>
      exists key :: PartOf(items, whole, taken, key, part)
  {
    var prints := Printed(whole.members, taken);
    BinsMeaning(items, whole.members, prints);
    var bins := Bins(items, whole.members, prints);
    forall part ensures part in Split(items, whole, prints) <==> exists key :: PartOf(items, whole, taken, key, part) {
      if part in Split(items, whole, prints) {
        var i :| 0 <= i < |bins| && Split(items, whole, prints)[i] == part;
        BinMeaning(items, whole.members, prints, bins[i]);
        assert bins[i] in bins && PartOf(items, whole, taken, bins[i].key, part);
      }
      if key :| PartOf(items, whole, taken, key, part) {
        BinMeaning(items, whole.members, prints, Bin(key, part.members));
        assert Bin(key, part.members) in bins;
        var i :| 0 <= i < |bins| && bins[i] == Bin(key, part.members);
        assert Split(items, whole, prints)[i] == part;
      }
    }
  }

  ghost predicate Refines(items: seq<Record>, groups: seq<Group>, taken: Prints, part: Group) {
    exists whole, key :: whole in groups && PartOf(items, whole, taken, key, part)
  }

  lemma {:induction false} RefineMeaning(items: seq<Record>, groups: seq<Group>, taken: Prints)
    requires AllWithin(items, groups)
    ensures forall part :: part in Refine(items, groups, taken) <==> Refines(items, groups, taken, part)
  {
    if groups != [] {
      var rest, last := groups[..|groups| - 1], groups[|groups| - 1];
      RefineMeaning(items, rest, taken);
      SplitMeaning(items, last, taken);
      assert groups == rest + [last];
      forall part ensures part in Refine(items, groups, taken) <==> Refines(items, groups, taken, part) {
        if Refines(items, groups, taken, part) {
          var whole, key :| whole in groups && PartOf(items, whole, taken, key, part);
          assert whole in rest ==> Refines(items, rest, taken, part);
        }
      }
    }
  }

  lemma RefineStaysWithin(items: seq<Record>, groups: seq<Group>, taken: Prints)
    requires AllWithin(items, groups)
    ensures AllWithin(items, Refine(items, groups, taken))
  {
    RefineMeaning(items, groups, taken);
  }

  lemma FamiliesOfFewer(items: seq<Record>, fewer: seq<nat>, more: seq<nat>)
    requires Within(items, more) && forall m :: m in fewer ==> m in more
    ensures |Families(items, fewer)| <= |Families(items, more)|
  {
    SmallerSet(Families(items, fewer), Families(items, more));
  }

  lemma {:induction false} SmallerSet<T>(a: set<T>, b: set<T>)
    requires a <= b
    ensures |a| <= |b|
  {
    if x :| x in a {
      SmallerSet(a - {x}, b - {x});
    }
  }

  /** Filtering twice is filtering by the second print, when the first print is the same for all it keeps. */
  lemma {:induction false} FilterTwice(members: seq<nat>, first: Prints, second: Prints, a: nat, b: nat)
    requires forall m :: m in members && second(m) == Some(b) ==> first(m) == Some(a)
    ensures WithPrint(WithPrint(members, first, a), second, b) == WithPrint(members, second, b)
  {
    if members != [] {
      var n := |members| - 1;
      var rest, last := members[..n], members[n];
      assert last in members;
      FilterTwice(rest, first, second, a, b);
      WithPrintSnoc(rest, last, first, a);
      WithPrintSnoc(rest, last, second, b);
      assert members == rest + [last];
      WithPrintSnoc(WithPrint(rest, first, a), last, second, b);
      if first(last) != Some(a) {
        assert WithPrint(members, first, a) == WithPrint(rest, first, a);
      }
    }
  }

  lemma WithPrintSnoc(rest: seq<nat>, last: nat, taken: Prints, key: nat)
    ensures WithPrint(rest + [last], taken, key) ==
      WithPrint(rest, taken, key) + if taken(last) == Some(key) then [last] else []
  {
    assert (rest + [last])[..|rest|] == rest;
    assert Printed(rest + [last], taken)[..|rest|] == Printed(rest, taken);
  }

  /** Files with the same full print were readable throughout, so their samples were read and agree. */
  ghost predicate SampleFollows(groups: seq<Group>, sample: Prints, full: Prints) {
    forall g, m, n :: g in groups && m in g.members && n in g.members && full(m).Some? && full(m) == full(n) ==>
      sample(m).Some? && sample(m) == sample(n)
  }

  lemma StagedPart(items: seq<Record>, groups: seq<Group>, sample: Prints, full: Prints, part: Group)
    requires AllWithin(items, groups) && SampleFollows(groups, sample, full)
    requires AllWithin(items, Refine(items, groups, sample))
    requires Refines(items, Refine(items, groups, sample), full, part)
    ensures Refines(items, groups, full, part)
  {
    RefineMeaning(items, groups, sample);
    var middle, b :| middle in Refine(items, groups, sample) && PartOf(items, middle, full, b, part);
    var whole, a :| whole in groups && PartOf(items, whole, sample, a, middle);
    var m := SomeMember(items, part.members);
    WithPrintHolds(middle.members, full, b);
    WithPrintHolds(whole.members, sample, a);
    FilterTwice(whole.members, sample, full, a, b);
    assert PartOf(items, whole, full, b, part);
  }

  lemma DirectPart(items: seq<Record>, groups: seq<Group>, sample: Prints, full: Prints, part: Group)
    requires AllWithin(items, groups) && SampleFollows(groups, sample, full)
    requires AllWithin(items, Refine(items, groups, sample))
    requires Refines(items, groups, full, part)
    ensures Refines(items, Refine(items, groups, sample), full, part)
  {
    RefineMeaning(items, groups, sample);
    var whole, b :| whole in groups && PartOf(items, whole, full, b, part);
    var m := SomeMember(items, part.members);
    WithPrintHolds(whole.members, full, b);
    var a := sample(m).value;
    var middle := Group(whole.len, WithPrint(whole.members, sample, a));
    WithPrintHolds(whole.members, sample, a);
    FilterTwice(whole.members, sample, full, a, b);
    FamiliesOfFewer(items, part.members, middle.members);
    assert PartOf(items, whole, sample, a, middle);
    assert PartOf(items, middle, full, b, part);
  }

  lemma SomeMember(items: seq<Record>, members: seq<nat>) returns (m: nat)
    requires Within(items, members) && |Families(items, members)| > 1
    ensures m in members
  {
    NoFamilies(items, members);
    m := members[0];
  }

  /** Splitting by sample first and by full print second finds the same groups as splitting by full print. */
  lemma StagesLoseNothing(items: seq<Record>, groups: seq<Group>, sample: Prints, full: Prints)
    requires AllWithin(items, groups) && SampleFollows(groups, sample, full)
    ensures AllWithin(items, Refine(items, groups, sample))
    ensures forall part :: part in Refine(items, Refine(items, groups, sample), full) <==>
      part in Refine(items, groups, full)
  {
    var sampled := Refine(items, groups, sample);
    RefineStaysWithin(items, groups, sample);
    RefineMeaning(items, sampled, full);
    RefineMeaning(items, groups, full);
    forall part ensures part in Refine(items, sampled, full) <==> part in Refine(items, groups, full) {
      if Refines(items, sampled, full, part) {
        StagedPart(items, groups, sample, full, part);
      }
      if Refines(items, groups, full, part) {
        DirectPart(items, groups, sample, full, part);
      }
    }
  }

  lemma SplitIsWellGrouped(items: seq<Record>, whole: Group, taken: Prints)
    requires Coherent(items, whole)
    ensures WellGrouped(items, Split(items, whole, Printed(whole.members, taken)))
    ensures forall part, m :: part in Split(items, whole, Printed(whole.members, taken)) && m in part.members ==>
      m in whole.members && taken(m).Some?
  {
    var prints := Printed(whole.members, taken);
    var parts, bins := Split(items, whole, prints), Bins(items, whole.members, prints);
    BinsMeaning(items, whole.members, prints);
    forall i | 0 <= i < |parts|
      ensures Coherent(items, parts[i])
      ensures forall m :: m in parts[i].members ==> m in whole.members && taken(m) == Some(bins[i].key)
    {
      assert bins[i] in bins;
      WithPrintHolds(whole.members, taken, bins[i].key);
    }
  }

  ghost predicate Covers(groups: seq<Group>, m: nat) {
    exists whole :: whole in groups && m in whole.members
  }

  lemma RefineOnlyDrops(items: seq<Record>, groups: seq<Group>, taken: Prints, part: Group, m: nat)
    requires AllWithin(items, groups) && part in Refine(items, groups, taken) && m in part.members
    ensures Covers(groups, m)
  {
    RefineMeaning(items, groups, taken);
    var whole, key :| whole in groups && PartOf(items, whole, taken, key, part);
    WithPrintHolds(whole.members, taken, key);
  }

  lemma WellGroupedTogether(items: seq<Record>, before: seq<Group>, parts: seq<Group>)
    requires WellGrouped(items, before) && WellGrouped(items, parts)
    requires forall a, b :: a in before && b in parts ==> Disjoint(a, b)
    ensures WellGrouped(items, before + parts)
  {
    var all := before + parts;
    forall i, j | 0 <= i < j < |all| ensures Disjoint(all[i], all[j]) {
      if i < |before| <= j {
        assert all[i] in before && all[j] in parts;
      }
    }
  }

  lemma CoveredByOne(items: seq<Record>, groups: seq<Group>, m: nat)
    requires WellGrouped(items, groups) && groups != [] && m in groups[|groups| - 1].members
    ensures !Covers(groups[..|groups| - 1], m)
  {
    var rest, last := groups[..|groups| - 1], groups[|groups| - 1];
    forall whole | whole in rest ensures m !in whole.members {
      var i :| 0 <= i < |rest| && rest[i] == whole;
      assert Disjoint(groups[i], last);
    }
  }

  lemma PartsAreApart(items: seq<Record>, groups: seq<Group>, taken: Prints, a: Group, b: Group)
    requires WellGrouped(items, groups) && AllWithin(items, groups) && groups != []
    requires var last := groups[|groups| - 1];
      && AllWithin(items, groups[..|groups| - 1]) && a in Refine(items, groups[..|groups| - 1], taken)
      && Within(items, last.members) && b in Split(items, last, Printed(last.members, taken))
    ensures Disjoint(a, b)
  {
    var rest, last := groups[..|groups| - 1], groups[|groups| - 1];
    SplitMeaning(items, last, taken);
    var key :| PartOf(items, last, taken, key, b);
    WithPrintHolds(last.members, taken, key);
    forall m | m in a.members ensures m !in last.members {
      RefineOnlyDrops(items, rest, taken, a, m);
      if m in last.members {
        CoveredByOne(items, groups, m);
      }
    }
  }

  /** Refining keeps groups coherent and disjoint. */
  lemma {:induction false} RefineIsWellGrouped(items: seq<Record>, groups: seq<Group>, taken: Prints)
    requires WellGrouped(items, groups) && AllWithin(items, groups)
    ensures WellGrouped(items, Refine(items, groups, taken))
  {
    if groups != [] {
      var rest, last := groups[..|groups| - 1], groups[|groups| - 1];
      assert last in groups;
      RefineIsWellGrouped(items, rest, taken);
      SplitIsWellGrouped(items, last, taken);
      var before, parts := Refine(items, rest, taken), Split(items, last, Printed(last.members, taken));
      forall a, b | a in before && b in parts ensures Disjoint(a, b) {
        PartsAreApart(items, groups, taken, a, b);
      }
      WellGroupedTogether(items, before, parts);
    }
  }
}
