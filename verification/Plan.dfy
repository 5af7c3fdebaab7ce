/** Which pairs to make of the groups: the gates one pair passes, the keeper of a group, and the plan. */
module Planner {
  import opened Common
  import opened Paths
  import opened Records
  import opened Grouping

  // ---------- one pair ----------

  datatype PairGate = Distinct | Volume | Size | Together | Owned | Links | Executability | Attributes

  const GATES: seq<PairGate> :=
    [Distinct, Volume, Size, Together, Owned, Links, Executability, Attributes]

  datatype Refusal =
    | SameFile | OtherVolume | SizeDiffers | NotOwned | HardLinked(links: U64)
    | IsExecutable | IsSpecial | AttributesDiffer | NotObserved

  datatype Pairing = Share | AlreadyShared | Refused(refusal: Refusal)

  datatype Verdict = Pass | Joined | Refuse(refusal: Refusal)

  predicate Replaces(via: Method) { via.CloneAndSwap? }

  function Check(gate: PairGate, keeper: Record, duplicate: Record): Verdict {
    var replaced := Replaces(duplicate.via);
    match gate
    case Distinct => if keeper.identity == duplicate.identity then Refuse(SameFile) else Pass
    case Volume => if keeper.identity.volume != duplicate.identity.volume then Refuse(OtherVolume) else Pass
    case Size => if keeper.len != duplicate.len then Refuse(SizeDiffers) else Pass
    case Together => if keeper.sharing.Cluster? && keeper.sharing == duplicate.sharing then Joined else Pass
    case Owned => if duplicate.owner == OtherUser then Refuse(NotOwned) else Pass
    case Links => if replaced && duplicate.links > 1 then Refuse(HardLinked(duplicate.links)) else Pass
    case Executability => if replaced && duplicate.mode == Executable then Refuse(IsExecutable) else Pass
    case Attributes =>
      if !replaced then Pass
      else match (keeper.extras, duplicate.extras)
           case (Simple(left), Simple(right)) => if left == right then Pass else Refuse(AttributesDiffer)
           case (Special, _) => Refuse(IsSpecial)
           case (_, Special) => Refuse(IsSpecial)
           case (Unobserved, _) => Refuse(NotObserved)
           case (_, Unobserved) => Refuse(NotObserved)
  }

  /** The outcome of the gates from one on: the first verdict that is not a pass decides. */
  function PairFrom(i: nat, keeper: Record, duplicate: Record): Pairing
    requires i <= |GATES|
    decreases |GATES| - i
  {
    if i == |GATES| then Share
    else match Check(GATES[i], keeper, duplicate)
         case Pass => PairFrom(i + 1, keeper, duplicate)
         case Joined => AlreadyShared
         case Refuse(refusal) => Refused(refusal)
  }

  function PairingOf(keeper: Record, duplicate: Record): Pairing {
    PairFrom(0, keeper, duplicate)
  }

  method PairUp(keeper: Record, duplicate: Record) returns (pairing: Pairing)
    ensures pairing == PairingOf(keeper, duplicate)
  {
    for i := 0 to |GATES|
      invariant PairFrom(i, keeper, duplicate) == PairingOf(keeper, duplicate)
    {
      match Check(GATES[i], keeper, duplicate) {
        case Pass =>
        case Joined => return AlreadyShared;
        case Refuse(refusal) => return Refused(refusal);
      }
    }
    return Share;
  }

  /** Two different files of one volume and one length. */
  predicate Alike(keeper: Record, duplicate: Record) {
    && keeper.identity != duplicate.identity
    && keeper.identity.volume == duplicate.identity.volume
    && keeper.len == duplicate.len
  }

  predicate SameCluster(a: Record, b: Record) {
    a.sharing.Cluster? && a.sharing == b.sharing
  }

  /** A replacement would lose nothing the duplicate has that the keeper's copy does not. */
  predicate Replaceable(keeper: Record, duplicate: Record) {
    && duplicate.links <= 1
    && duplicate.mode == Mode.Plain
    && keeper.extras.Simple?
    && keeper.extras == duplicate.extras
  }

  /** When the gates let two files share, and when they find that the two already do. */
  lemma PairMeaning(keeper: Record, duplicate: Record)
    ensures PairingOf(keeper, duplicate) == Share <==>
      && Alike(keeper, duplicate)
      && !SameCluster(keeper, duplicate)
      && duplicate.owner == Caller
      && (Replaces(duplicate.via) ==> Replaceable(keeper, duplicate))
    ensures PairingOf(keeper, duplicate) == AlreadyShared <==>
      Alike(keeper, duplicate) && SameCluster(keeper, duplicate)
    ensures PairingOf(keeper, duplicate) in [Refused(SameFile), Refused(OtherVolume), Refused(SizeDiffers)] <==>
      !Alike(keeper, duplicate)
  {
    var failed := seq(|GATES|, i requires 0 <= i < |GATES| => Check(GATES[i], keeper, duplicate));
    assert PairFrom(8, keeper, duplicate) == Share;
    assert failed[7].Pass? ==> PairFrom(7, keeper, duplicate) == Share;
    assert failed[6].Pass? ==> PairFrom(6, keeper, duplicate) == PairFrom(7, keeper, duplicate);
    assert failed[5].Pass? ==> PairFrom(5, keeper, duplicate) == PairFrom(6, keeper, duplicate);
    assert failed[4].Pass? ==> PairFrom(4, keeper, duplicate) == PairFrom(5, keeper, duplicate);
    assert failed[3].Pass? ==> PairFrom(3, keeper, duplicate) == PairFrom(4, keeper, duplicate);
    assert failed[2].Pass? ==> PairFrom(2, keeper, duplicate) == PairFrom(3, keeper, duplicate);
    assert failed[1].Pass? ==> PairFrom(1, keeper, duplicate) == PairFrom(2, keeper, duplicate);
  }

  /** Which refusal a pair gets: the first reason in this order counts. */
  lemma RefusedExactlyWhen(keeper: Record, duplicate: Record)
    ensures var pairing := PairingOf(keeper, duplicate);
      && (pairing == Refused(SameFile) <==> keeper.identity == duplicate.identity)
      && (pairing == Refused(OtherVolume) <==> keeper.identity.volume != duplicate.identity.volume)
      && (pairing == Refused(SizeDiffers) <==>
          keeper.identity != duplicate.identity && keeper.identity.volume == duplicate.identity.volume
          && keeper.len != duplicate.len)
    ensures Alike(keeper, duplicate) && !SameCluster(keeper, duplicate) ==>
      (PairingOf(keeper, duplicate) == Refused(NotOwned) <==> duplicate.owner == OtherUser)
    ensures Alike(keeper, duplicate) && !SameCluster(keeper, duplicate) && duplicate.owner == Caller ==>
      PairingOf(keeper, duplicate) ==
      if duplicate.via == DedupeRange then Share
      else if duplicate.links > 1 then Refused(HardLinked(duplicate.links))
      else if duplicate.mode == Executable then Refused(IsExecutable)
      else if keeper.extras == Special || duplicate.extras == Special then Refused(IsSpecial)
      else if keeper.extras == Unobserved || duplicate.extras == Unobserved then Refused(NotObserved)
      else if keeper.extras != duplicate.extras then Refused(AttributesDiffer)
      else Share
  {
    PairStep(keeper, duplicate);
  }

  /** The gates one by one. */
  lemma PairStep(keeper: Record, duplicate: Record)
    ensures forall i :: 0 <= i < 8 && Check(GATES[i], keeper, duplicate).Pass? ==>
      PairFrom(i, keeper, duplicate) == PairFrom(i + 1, keeper, duplicate)
    ensures PairFrom(8, keeper, duplicate) == Share
  {}

  // ---------- the keeper ----------

  /** A file that a replacement cannot take the place of, so it must be the one kept. */
  predicate Fixed(found: Record) {
    Replaces(found.via) && (found.links > 1 || found.mode == Executable || !found.extras.Simple?)
  }

  /** A fixed file is never replaced, and one that is not is replaced by a keeper that has all it has. */
  lemma FixedIsNeverReplaced(keeper: Record, duplicate: Record)
    requires Alike(keeper, duplicate) && !SameCluster(keeper, duplicate) && duplicate.owner == Caller
    ensures Fixed(duplicate) ==> PairingOf(keeper, duplicate).Refused?
    ensures !Fixed(duplicate) && keeper.extras == duplicate.extras ==> PairingOf(keeper, duplicate) == Share
  {
    RefusedExactlyWhen(keeper, duplicate);
  }

  lemma StillWithin(items: seq<Record>, members: seq<nat>, n: nat)
    requires Within(items, members) && n <= |members|
    ensures Within(items, members[..n])
    ensures forall i :: 0 <= i < |members| ==> members[i] < |items|
  {
    forall m | m in members[..n] ensures m in members {}
    forall i | 0 <= i < |members| ensures members[i] in members {}
  }

  function Count(items: seq<Record>, members: seq<nat>, family: Family): (n: nat)
    requires Within(items, members)
    ensures n <= |members|
  {
    if members == [] then 0 else
      var last := members[|members| - 1];
      StillWithin(items, members, |members| - 1);
      Count(items, members[..|members| - 1], family) + if FamilyOf(items[last]) == family then 1 else 0
  }

  /** How a file compares as a keeper: by the size of its family, then by being fixed, then by coming
    first in the order of locations. */
  predicate WorseKeeper(sizeA: nat, a: Record, sizeB: nat, b: Record) {
    || sizeA < sizeB
    || (sizeA == sizeB && !Fixed(a) && Fixed(b))
    || (sizeA == sizeB && Fixed(a) == Fixed(b) && Less(b.location, a.location))
  }

  predicate Worse(items: seq<Record>, members: seq<nat>, a: nat, b: nat)
    requires Within(items, members) && a < |items| && b < |items|
  {
    WorseKeeper(Count(items, members, FamilyOf(items[a])), items[a],
                Count(items, members, FamilyOf(items[b])), items[b])
  }

  lemma WorseOrder(items: seq<Record>, members: seq<nat>, a: nat, b: nat, c: nat)
    requires Within(items, members) && a < |items| && b < |items| && c < |items|
    ensures !(Worse(items, members, a, b) && Worse(items, members, b, a))
    ensures !Worse(items, members, b, a) && !Worse(items, members, c, b) ==> !Worse(items, members, c, a)
    ensures Worse(items, members, a, b) && !Worse(items, members, c, b) ==> Worse(items, members, a, c)
  {
    var la, lb, lc := items[a].location, items[b].location, items[c].location;
    PathOrder(la, lb);
    PathOrder(lb, lc);
    PathOrder(la, lc);
    LessTransitive(la, lb, lc);
    LessTransitive(lc, lb, la);
  }

  lemma LessTransitive(a: Path, b: Path, c: Path)
    ensures Less(a, b) && Less(b, c) ==> Less(a, c)
  {
    if Less(a, b) && Less(b, c) {
      PathTransitive(a, b, c);
    }
  }

  /** The last of the best among the first members, as an iteration that keeps the later of equals finds it. */
  function BestOf(items: seq<Record>, members: seq<nat>, n: nat): (best: nat)
    requires Within(items, members) && 0 < n <= |members|
    ensures best in members[..n] && best < |items|
  {
    StillWithin(items, members, n);
    if n == 1 then members[0] else
      var best := BestOf(items, members, n - 1);
      if Worse(items, members, members[n - 1], best) then best else members[n - 1]
  }

  function KeeperOf(items: seq<Record>, members: seq<nat>): (kept: nat)
    requires Within(items, members) && members != []
    ensures kept in members
  {
    BestOf(items, members, |members|)
  }

  lemma {:induction false} BestIsBest(items: seq<Record>, members: seq<nat>, n: nat)
    requires Within(items, members) && 0 < n <= |members|
    ensures forall i :: 0 <= i < n ==> members[i] < |items| && !Worse(items, members, BestOf(items, members, n), members[i])
  {
    StillWithin(items, members, n);
    if n == 1 {
      WorseOrder(items, members, members[0], members[0], members[0]);
    } else {
      BestIsBest(items, members, n - 1);
      var before, novel := BestOf(items, members, n - 1), members[n - 1];
      WorseOrder(items, members, novel, novel, novel);
      forall i | 0 <= i < n ensures !Worse(items, members, BestOf(items, members, n), members[i]) {
        WorseOrder(items, members, members[i], before, novel);
      }
    }
  }

  function Tallied(sizes: map<Family, nat>, family: Family): nat {
    if family in sizes then sizes[family] else 0
  }

  method Keeper(items: seq<Record>, group: Group) returns (kept: Option<nat>)
    requires Within(items, group.members)
    ensures kept == if group.members == [] then None else Some(KeeperOf(items, group.members))
  {
    var members := group.members;
    var sizes: map<Family, nat> := map[];
    for n := 0 to |members|
      invariant Within(items, members[..n])
      invariant forall f :: Count(items, members[..n], f) == Tallied(sizes, f)
    {
      StillWithin(items, members, n + 1);
      assert members[..n + 1][..n] == members[..n];
      var family := FamilyOf(items[members[n]]);
      sizes := sizes[family := Tallied(sizes, family) + 1];
    }
    assert members[..|members|] == members;
    if members == [] {
      return None;
    }
    StillWithin(items, members, |members|);
    var best := members[0];
    for n := 1 to |members|
      invariant best == BestOf(items, members, n)
    {
      var next := items[members[n]];
      if !WorseKeeper(Tallied(sizes, FamilyOf(next)), next, Tallied(sizes, FamilyOf(items[best])), items[best]) {
        best := members[n];
      }
    }
    return Some(best);
  }

  // ---------- the plan ----------

  datatype Pair = Pair(keeper: nat, duplicate: nat, len: U64, pairing: Pairing)

  /** One member against the keeper, unless it is the keeper. */
  function PairWith(items: seq<Record>, len: U64, kept: nat, member: nat): seq<Pair>
    requires kept < |items| && member < |items|
  {
    if member == kept then [] else [Pair(kept, member, len, PairingOf(items[kept], items[member]))]
  }

  function PairsOf(items: seq<Record>, len: U64, members: seq<nat>, kept: nat): seq<Pair>
    requires Within(items, members) && kept < |items|
  {
    if members == [] then [] else
      var n := |members| - 1;
      StillWithin(items, members, n);
      PairsOf(items, len, members[..n], kept) + PairWith(items, len, kept, members[n])
  }

  function PlanOf(items: seq<Record>, group: Group): seq<Pair>
    requires Within(items, group.members)
  {
    if group.members == [] then [] else
      StillWithin(items, group.members, 0);
      var kept := KeeperOf(items, group.members);
      PairsOf(items, group.len, group.members, kept)
  }

  function Plan(items: seq<Record>, groups: seq<Group>): seq<Pair>
    requires AllWithin(items, groups)
  {
    if groups == [] then [] else
      Plan(items, groups[..|groups| - 1]) + PlanOf(items, groups[|groups| - 1])
  }

  method PlanAll(items: seq<Record>, groups: seq<Group>) returns (pairs: seq<Pair>)
    requires AllWithin(items, groups)
    ensures pairs == Plan(items, groups)
  {
    pairs := [];
    for n := 0 to |groups|
      invariant pairs == Plan(items, groups[..n])
    {
      assert groups[..n + 1][..n] == groups[..n];
      var kept := Keeper(items, groups[n]);
      if kept.Some? {
        var more := PairGroup(items, groups[n], kept.value);
        pairs := pairs + more;
      }
    }
    assert groups[..|groups|] == groups;
  }

  method PairGroup(items: seq<Record>, group: Group, kept: nat) returns (pairs: seq<Pair>)
    requires Within(items, group.members) && kept < |items|
    ensures pairs == PairsOf(items, group.len, group.members, kept)
  {
    var members := group.members;
    pairs := [];
    for n := 0 to |members|
      invariant Within(items, members[..n])
      invariant pairs == PairsOf(items, group.len, members[..n], kept)
    {
      StillWithin(items, members, n + 1);
      assert members[..n + 1][..n] == members[..n];
      if members[n] != kept {
        var pairing := PairUp(items[kept], items[members[n]]);
        pairs := pairs + [Pair(kept, members[n], group.len, pairing)];
      }
    }
    assert members[..|members|] == members;
  }

  /** The pairs that still have something to share, or are refused. */
  function Work(pairs: seq<Pair>): nat {
    if pairs == [] then 0 else
      Work(pairs[..|pairs| - 1]) + if pairs[|pairs| - 1].pairing.AlreadyShared? then 0 else 1
  }

  lemma {:induction false} WorkAdds(a: seq<Pair>, b: seq<Pair>)
    ensures Work(a + b) == Work(a) + Work(b)
  {
    if b == [] {
      assert a + b == a;
    } else {
      var n := |b| - 1;
      WorkAdds(a, b[..n]);
      assert (a + b)[..|a + b| - 1] == a + b[..n];
    }
  }

  ghost predicate DistinctIdentities(items: seq<Record>) {
    forall i, j :: 0 <= i < j < |items| ==> items[i].identity != items[j].identity
  }

  /** Against one keeper, a member costs a pair exactly when it is of another family. */
  lemma PairCosts(items: seq<Record>, group: Group, kept: nat, member: nat)
    requires DistinctIdentities(items) && Coherent(items, group)
    requires kept in group.members && member in group.members
    ensures Work(PairWith(items, group.len, kept, member)) ==
      if FamilyOf(items[member]) == FamilyOf(items[kept]) then 0 else 1
  {
    if member != kept {
      assert items[kept].identity != items[member].identity;
      PairMeaning(items[kept], items[member]);
    }
  }

  lemma {:induction false} GroupCosts(items: seq<Record>, group: Group, members: seq<nat>, kept: nat)
    requires DistinctIdentities(items) && Coherent(items, group) && kept in group.members
    requires forall m :: m in members ==> m in group.members
    requires Within(items, members)
    ensures Work(PairsOf(items, group.len, members, kept)) == |members| - Count(items, members, FamilyOf(items[kept]))
  {
    if members != [] {
      var n := |members| - 1;
      StillWithin(items, members, n);
      GroupCosts(items, group, members[..n], kept);
      PairCosts(items, group, kept, members[n]);
      WorkAdds(PairsOf(items, group.len, members[..n], kept), PairWith(items, group.len, kept, members[n]));
    }
  }

  ghost predicate LargestFamily(items: seq<Record>, members: seq<nat>, size: int)
    requires Within(items, members)
  {
    && (exists f :: Count(items, members, f) == size)
    && forall f :: Count(items, members, f) <= size
  }

  lemma {:induction false} CountsSome(items: seq<Record>, members: seq<nat>, family: Family) returns (m: nat)
    requires Within(items, members) && Count(items, members, family) > 0
    ensures m in members && FamilyOf(items[m]) == family
  {
    var n := |members| - 1;
    StillWithin(items, members, n);
    if FamilyOf(items[members[n]]) == family {
      m := members[n];
    } else {
      m := CountsSome(items, members[..n], family);
    }
  }

  /** The chosen keeper belongs to a family no other family of the group outnumbers. */
  lemma KeeperIsOfLargest(items: seq<Record>, group: Group)
    requires Coherent(items, group)
    ensures group.members != [] && KeeperOf(items, group.members) < |items|
    ensures LargestFamily(items, group.members, Count(items, group.members, FamilyOf(items[KeeperOf(items, group.members)])))
  {
    var members := group.members;
    NoFamilies(items, members);
    StillWithin(items, members, |members|);
    var kept := KeeperOf(items, members);
    BestIsBest(items, members, |members|);
    forall f ensures Count(items, members, f) <= Count(items, members, FamilyOf(items[kept])) {
      if Count(items, members, f) > 0 {
        var m := CountsSome(items, members, f);
        var i :| 0 <= i < |members| && members[i] == m;
      }
    }
  }

  /** One group of n members costs n minus its largest family, the least of all choices of a keeper. */
  lemma KeeperIsOptimal(items: seq<Record>, group: Group)
    requires DistinctIdentities(items) && Coherent(items, group)
    ensures LargestFamily(items, group.members, |group.members| - Work(PlanOf(items, group)))
    ensures forall other :: other in group.members ==>
      Work(PlanOf(items, group)) <= Work(PairsOf(items, group.len, group.members, other))
  {
    KeeperIsOfLargest(items, group);
    var kept := KeeperOf(items, group.members);
    GroupCosts(items, group, group.members, kept);
    forall other | other in group.members
      ensures Work(PlanOf(items, group)) <= Work(PairsOf(items, group.len, group.members, other))
    {
      GroupCosts(items, group, group.members, other);
    }
  }

  /** Among the members of the largest families, a file that cannot be replaced is kept if there is one. */
  lemma KeeperIsFixedIfAnyCanBe(items: seq<Record>, group: Group, m: nat)
    requires Coherent(items, group) && m in group.members && Fixed(items[m])
    requires LargestFamily(items, group.members, Count(items, group.members, FamilyOf(items[m])))
    ensures group.members != [] && KeeperOf(items, group.members) < |items|
    ensures Fixed(items[KeeperOf(items, group.members)])
  {
    KeeperIsOfLargest(items, group);
    BestIsBest(items, group.members, |group.members|);
    var i :| 0 <= i < |group.members| && group.members[i] == m;
  }

  /** Between families of one size, and as fixed as the other, the file whose location comes first is kept. */
  lemma KeeperComesFirst(items: seq<Record>, group: Group, m: nat)
    requires Coherent(items, group) && m in group.members
    ensures group.members != [] && KeeperOf(items, group.members) < |items|
    ensures var kept := KeeperOf(items, group.members);
      LargestFamily(items, group.members, Count(items, group.members, FamilyOf(items[m]))) && Fixed(items[m]) == Fixed(items[kept])
      ==> items[m].location == items[kept].location || Less(items[kept].location, items[m].location)
  {
    KeeperIsOfLargest(items, group);
    BestIsBest(items, group.members, |group.members|);
    var kept := KeeperOf(items, group.members);
    PathOrder(items[m].location, items[kept].location);
    var i :| 0 <= i < |group.members| && group.members[i] == m;
    LargestIsOne(items, group.members, FamilyOf(items[m]), FamilyOf(items[kept]));
  }

  lemma LargestIsOne(items: seq<Record>, members: seq<nat>, a: Family, b: Family)
    requires Within(items, members)
    ensures LargestFamily(items, members, Count(items, members, a)) && LargestFamily(items, members, Count(items, members, b)) ==>
      Count(items, members, a) == Count(items, members, b)
  {}

  // ---------- what a whole plan promises ----------

  /** A plan that may choose its keepers in any way. */
  function PlanWith(items: seq<Record>, groups: seq<Group>, keepers: seq<nat>): seq<Pair>
    requires AllWithin(items, groups) && Within(items, keepers) && |keepers| == |groups|
  {
    if groups == [] then [] else
      var n := |groups| - 1;
      StillWithin(items, keepers, n);
      PlanWith(items, groups[..n], keepers[..n]) + PairsOf(items, groups[n].len, groups[n].members, keepers[n])
  }

  function MembersIn(groups: seq<Group>): nat {
    if groups == [] then 0 else MembersIn(groups[..|groups| - 1]) + |groups[|groups| - 1].members|
  }

  lemma CoherentPart(items: seq<Record>, groups: seq<Group>)
    requires WellGrouped(items, groups) && groups != []
    ensures WellGrouped(items, groups[..|groups| - 1]) && Coherent(items, groups[|groups| - 1])
    ensures AllWithin(items, groups) && AllWithin(items, groups[..|groups| - 1])
  {
    assert groups[|groups| - 1] in groups;
    forall g | g in groups[..|groups| - 1] ensures g in groups {}
  }

  /** No choice of keepers leaves fewer pairs to work on than the plan's own. */
  lemma {:induction false} PlanIsOptimal(items: seq<Record>, groups: seq<Group>, keepers: seq<nat>)
    requires DistinctIdentities(items) && WellGrouped(items, groups) && AllWithin(items, groups)
    requires |keepers| == |groups| && Within(items, keepers)
    requires forall i :: 0 <= i < |groups| ==> keepers[i] in groups[i].members
    ensures Work(Plan(items, groups)) <= Work(PlanWith(items, groups, keepers))
  {
    if groups != [] {
      var n := |groups| - 1;
      CoherentPart(items, groups);
      StillWithin(items, keepers, n);
      PlanIsOptimal(items, groups[..n], keepers[..n]);
      KeeperIsOptimal(items, groups[n]);
      WorkAdds(Plan(items, groups[..n]), PlanOf(items, groups[n]));
      WorkAdds(PlanWith(items, groups[..n], keepers[..n]),
               PairsOf(items, groups[n].len, groups[n].members, keepers[n]));
    }
  }

  ghost predicate Paired(items: seq<Record>, group: Group, kept: nat, pair: Pair)
    requires kept < |items| && Within(items, group.members)
  {
    && pair.duplicate in group.members && pair.duplicate != kept
    && pair == Pair(kept, pair.duplicate, group.len, PairingOf(items[kept], items[pair.duplicate]))
  }

  ghost predicate DuplicatesRise(pairs: seq<Pair>) {
    forall i, j :: 0 <= i < j < |pairs| ==> pairs[i].duplicate < pairs[j].duplicate
  }

  lemma PairWithMeaning(items: seq<Record>, group: Group, kept: nat, member: nat)
    requires kept < |items| && Within(items, group.members) && member in group.members
    ensures forall p :: p in PairWith(items, group.len, kept, member) <==>
      Paired(items, group, kept, p) && p.duplicate == member
  {}

  lemma {:induction false} PairsContents(items: seq<Record>, group: Group, n: nat, kept: nat)
    requires Within(items, group.members) && kept < |items| && n <= |group.members|
    ensures Within(items, group.members[..n])
    ensures forall p :: p in PairsOf(items, group.len, group.members[..n], kept) <==>
      Paired(items, group, kept, p) && p.duplicate in group.members[..n]
  {
    StillWithin(items, group.members, n);
    if n > 0 {
      var members := group.members;
      PairsContents(items, group, n - 1, kept);
      PairWithMeaning(items, group, kept, members[n - 1]);
      assert members[..n][..n - 1] == members[..n - 1];
      assert members[..n] == members[..n - 1] + [members[n - 1]];
    }
  }

  lemma PairsSnoc(items: seq<Record>, group: Group, n: nat, kept: nat)
    requires Within(items, group.members) && kept < |items| && 0 < n <= |group.members|
    ensures Within(items, group.members[..n]) && Within(items, group.members[..n - 1])
    ensures group.members[n - 1] < |items|
    ensures PairsOf(items, group.len, group.members[..n], kept) ==
      PairsOf(items, group.len, group.members[..n - 1], kept) + PairWith(items, group.len, kept, group.members[n - 1])
  {
    StillWithin(items, group.members, n);
    StillWithin(items, group.members, n - 1);
    assert group.members[..n][..n - 1] == group.members[..n - 1];
  }

  lemma {:induction false} PairsRise(items: seq<Record>, group: Group, n: nat, kept: nat)
    requires Within(items, group.members) && kept < |items| && Rising(group.members) && n <= |group.members|
    ensures Within(items, group.members[..n])
    ensures DuplicatesRise(PairsOf(items, group.len, group.members[..n], kept))
  {
    StillWithin(items, group.members, n);
    if n > 0 {
      PairsRise(items, group, n - 1, kept);
      PairsContents(items, group, n - 1, kept);
      PairsSnoc(items, group, n, kept);
      var before := PairsOf(items, group.len, group.members[..n - 1], kept);
      forall i | 0 <= i < |before| ensures before[i].duplicate < group.members[n - 1] {
        assert before[i] in before;
        BelowTheLast(group.members, n, before[i].duplicate);
      }
      RisesOn(before, PairWith(items, group.len, kept, group.members[n - 1]));
    }
  }

  lemma BelowTheLast(members: seq<nat>, n: nat, m: nat)
    requires Rising(members) && 0 < n <= |members| && m in members[..n - 1]
    ensures m < members[n - 1]
  {
    var j :| 0 <= j < n - 1 && members[..n - 1][j] == m;
    assert members[j] == m;
  }

  lemma RisesOn(before: seq<Pair>, last: seq<Pair>)
    requires DuplicatesRise(before) && |last| <= 1
    requires forall i :: 0 <= i < |before| && last != [] ==> before[i].duplicate < last[0].duplicate
    ensures DuplicatesRise(before + last)
  {}

  lemma {:induction false} PairsLength(items: seq<Record>, group: Group, n: nat, kept: nat)
    requires Within(items, group.members) && kept < |items| && Rising(group.members) && n <= |group.members|
    ensures Within(items, group.members[..n])
    ensures |PairsOf(items, group.len, group.members[..n], kept)| == n - if kept in group.members[..n] then 1 else 0
  {
    StillWithin(items, group.members, n);
    if n > 0 {
      PairsLength(items, group, n - 1, kept);
      PairsSnoc(items, group, n, kept);
      assert group.members[..n] == group.members[..n - 1] + [group.members[n - 1]];
      assert group.members[n - 1] !in group.members[..n - 1];
    }
  }

  /** What one group contributes: each member but the keeper once, always against the keeper. */
  lemma PlanOfMeaning(items: seq<Record>, group: Group)
    requires Coherent(items, group)
    ensures group.members != [] && KeeperOf(items, group.members) < |items|
    ensures forall p :: p in PlanOf(items, group) <==> Paired(items, group, KeeperOf(items, group.members), p)
    ensures DuplicatesRise(PlanOf(items, group))
    ensures |PlanOf(items, group)| == |group.members| - 1
  {
    NoFamilies(items, group.members);
    StillWithin(items, group.members, 0);
    assert group.members[..|group.members|] == group.members;
    PairsContents(items, group, |group.members|, KeeperOf(items, group.members));
    PairsRise(items, group, |group.members|, KeeperOf(items, group.members));
    PairsLength(items, group, |group.members|, KeeperOf(items, group.members));
  }

  ghost predicate Planned(items: seq<Record>, group: Group, pair: Pair) {
    && Within(items, group.members) && group.members != []
    && KeeperOf(items, group.members) < |items|
    && Paired(items, group, KeeperOf(items, group.members), pair)
  }

  ghost predicate PlannedIn(items: seq<Record>, groups: seq<Group>, pair: Pair) {
    exists g :: g in groups && Planned(items, g, pair)
  }

  lemma {:induction false} PlanMeaning(items: seq<Record>, groups: seq<Group>)
    requires WellGrouped(items, groups) && AllWithin(items, groups)
    ensures forall p :: p in Plan(items, groups) <==> PlannedIn(items, groups, p)
  {
    if groups != [] {
      var rest, last := groups[..|groups| - 1], groups[|groups| - 1];
      CoherentPart(items, groups);
      PlanMeaning(items, rest);
      PlanOfMeaning(items, last);
      assert groups == rest + [last];
      forall p ensures PlannedIn(items, groups, p) <==> PlannedIn(items, rest, p) || Planned(items, last, p) {
        if PlannedIn(items, rest, p) {
          var g :| g in rest && Planned(items, g, p);
          assert g in groups;
        }
      }
    }
  }

  /** A group of n members yields n - 1 pairs. */
  lemma {:induction false} PlanLength(items: seq<Record>, groups: seq<Group>)
    requires WellGrouped(items, groups) && AllWithin(items, groups)
    ensures |Plan(items, groups)| == MembersIn(groups) - |groups|
  {
    if groups != [] {
      CoherentPart(items, groups);
      PlanLength(items, groups[..|groups| - 1]);
      PlanOfMeaning(items, groups[|groups| - 1]);
    }
  }

  ghost predicate NoDuplicateTwice(pairs: seq<Pair>) {
    forall i, j :: 0 <= i < j < |pairs| ==> pairs[i].duplicate != pairs[j].duplicate
  }

  lemma {:induction false} DuplicatesAreDistinct(items: seq<Record>, groups: seq<Group>)
    requires WellGrouped(items, groups) && AllWithin(items, groups)
    ensures NoDuplicateTwice(Plan(items, groups))
  {
    if groups != [] {
      var n := |groups| - 1;
      CoherentPart(items, groups);
      DuplicatesAreDistinct(items, groups[..n]);
      PlanMeaning(items, groups[..n]);
      PlanOfMeaning(items, groups[n]);
      var before, last := Plan(items, groups[..n]), PlanOf(items, groups[n]);
      forall i, j | 0 <= i < |before| && 0 <= j < |last| ensures before[i].duplicate != last[j].duplicate {
        assert before[i] in before && last[j] in last;
        var g :| g in groups[..n] && Planned(items, g, before[i]);
        assert Covers(groups[..n], before[i].duplicate);
        if before[i].duplicate == last[j].duplicate {
          CoveredByOne(items, groups, last[j].duplicate);
        }
      }
    }
  }

  lemma SameGroup(items: seq<Record>, groups: seq<Group>, a: Group, b: Group, m: nat)
    requires WellGrouped(items, groups) && a in groups && b in groups && m in a.members && m in b.members
    ensures a == b
  {
    var i :| 0 <= i < |groups| && groups[i] == a;
    var j :| 0 <= j < |groups| && groups[j] == b;
    assert i < j ==> Disjoint(groups[i], groups[j]);
    assert j < i ==> Disjoint(groups[j], groups[i]);
  }

  ghost predicate IsDuplicate(plan: seq<Pair>, m: nat) {
    exists p :: p in plan && p.duplicate == m
  }

  lemma KeptOrDuplicate(items: seq<Record>, groups: seq<Group>, group: Group, m: nat)
    requires WellGrouped(items, groups) && AllWithin(items, groups) && group in groups && m in group.members
    ensures Within(items, group.members) && group.members != []
    ensures IsDuplicate(Plan(items, groups), m) <==> m != KeeperOf(items, group.members)
  {
    PlanMeaning(items, groups);
    PlanOfMeaning(items, group);
    var kept := KeeperOf(items, group.members);
    if IsDuplicate(Plan(items, groups), m) {
      var p :| p in Plan(items, groups) && p.duplicate == m;
      var h :| h in groups && Planned(items, h, p);
      SameGroup(items, groups, group, h, m);
    }
    if m != kept {
      var p := Pair(kept, m, group.len, PairingOf(items[kept], items[m]));
      assert Planned(items, group, p);
      assert p in Plan(items, groups);
    }
  }

  lemma KeeperIsNoDuplicate(items: seq<Record>, groups: seq<Group>, p: Pair)
    requires WellGrouped(items, groups) && AllWithin(items, groups) && p in Plan(items, groups)
    ensures !IsDuplicate(Plan(items, groups), p.keeper)
  {
    PlanMeaning(items, groups);
    var g :| g in groups && Planned(items, g, p);
    KeptOrDuplicate(items, groups, g, p.keeper);
  }

  lemma PairIsAlike(items: seq<Record>, groups: seq<Group>, p: Pair)
    requires DistinctIdentities(items) && WellGrouped(items, groups) && AllWithin(items, groups)
    requires p in Plan(items, groups)
    ensures p.keeper < |items| && p.duplicate < |items| && Alike(items[p.keeper], items[p.duplicate])
  {
    PlanMeaning(items, groups);
    var g :| g in groups && Planned(items, g, p);
    assert Coherent(items, g) && p.keeper in g.members && p.duplicate in g.members;
    assert p.keeper < p.duplicate || p.duplicate < p.keeper;
  }

  /** Every member of every group is handled exactly once: it is its group's keeper or one pair's duplicate.
    No file is both, and no pair joins files of different volumes or lengths or a file with itself. */
  lemma PlanIsSound(items: seq<Record>, groups: seq<Group>)
    requires DistinctIdentities(items) && WellGrouped(items, groups) && AllWithin(items, groups)
    ensures NoDuplicateTwice(Plan(items, groups))
    ensures forall g, m :: g in groups && m in g.members ==>
      g.members != [] && (IsDuplicate(Plan(items, groups), m) <==> m != KeeperOf(items, g.members))
    ensures forall p :: p in Plan(items, groups) ==>
      && !IsDuplicate(Plan(items, groups), p.keeper)
      && p.keeper < |items| && p.duplicate < |items|
      && Alike(items[p.keeper], items[p.duplicate])
  {
    DuplicatesAreDistinct(items, groups);
    forall g, m | g in groups && m in g.members
      ensures g.members != [] && (IsDuplicate(Plan(items, groups), m) <==> m != KeeperOf(items, g.members))
    {
      KeptOrDuplicate(items, groups, g, m);
    }
    forall p | p in Plan(items, groups)
      ensures !IsDuplicate(Plan(items, groups), p.keeper)
      ensures p.keeper < |items| && p.duplicate < |items| && Alike(items[p.keeper], items[p.duplicate])
    {
      KeeperIsNoDuplicate(items, groups, p);
      PairIsAlike(items, groups, p);
    }
  }
}
