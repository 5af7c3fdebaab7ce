/** Measuring a tree: logical size, allocation with every hard-linked file counted once, and failures, in
  tallies that are filled apart and merged. */
module Tallies {
  import opened Common
  import opened Records

  datatype FileMeasure = FileMeasure(identity: Identity, links: U32, allocation: U64)

  datatype Linked = Linked(allocation: U64, links: U32, seen: U32)

  /** The fields of a tally. */
  datatype Summary = Summary(
    logical: U64, unlinked: U64, measured: bool, linked: map<Identity, Linked>, failures: U64)

  /** What a walk tells a tally: a file's length, a file's allocation, or what it could not measure. */
  datatype Finding = Sized(len: U64) | Allocated(measure: FileMeasure) | Missing(failures: U64)

  datatype Allocation = Unmeasured | Measured(total: U64, reclaimable: U64)

  datatype Usage = Usage(logical: U64, allocation: Allocation, failures: U64)

  function Empty(measured: bool): Summary {
    Summary(0, 0, measured, map[], 0)
  }

  function LinkSeen(linked: map<Identity, Linked>, measure: FileMeasure): map<Identity, Linked> {
    if measure.identity in linked
    then linked[measure.identity := linked[measure.identity].(seen := SatAdd32(linked[measure.identity].seen, 1))]
    else linked[measure.identity := Linked(measure.allocation, measure.links, 1)]
  }

  function Add(s: Summary, finding: Finding): Summary {
    match finding
    case Sized(len) => s.(logical := SatAdd(s.logical, len))
    case Allocated(measure) =>
      if measure.links <= 1 then s.(unlinked := SatAdd(s.unlinked, measure.allocation))
      else s.(linked := LinkSeen(s.linked, measure))
    case Missing(failures) => s.(failures := SatAdd(s.failures, failures))
  }

  function Joint(a: Linked, b: Linked): Linked {
    Linked(if a.allocation < b.allocation then b.allocation else a.allocation,
           if a.links < b.links then b.links else a.links,
           SatAdd32(a.seen, b.seen))
  }

  function JointMaps(a: map<Identity, Linked>, b: map<Identity, Linked>): map<Identity, Linked> {
    map identity | identity in a.Keys + b.Keys ::
      if identity !in b then a[identity]
      else if identity !in a then b[identity]
      else Joint(a[identity], b[identity])
  }

  function Merge(a: Summary, b: Summary): Summary {
    Summary(SatAdd(a.logical, b.logical), SatAdd(a.unlinked, b.unlinked), a.measured && b.measured,
            JointMaps(a.linked, b.linked), SatAdd(a.failures, b.failures))
  }

  /** The exact sum over the linked files that satisfy a condition. */
  ghost function Sum(linked: map<Identity, Linked>, counts: Linked -> bool): nat
    decreases |linked|
  {
    if linked == map[] then 0 else
      var identity :| identity in linked;
      Sum(linked - {identity}, counts) + if counts(linked[identity]) then linked[identity].allocation else 0
  }

  lemma {:induction false} SumTakesAny(linked: map<Identity, Linked>, counts: Linked -> bool, identity: Identity)
    requires identity in linked
    ensures Sum(linked, counts) ==
      Sum(linked - {identity}, counts) + if counts(linked[identity]) then linked[identity].allocation else 0
    decreases |linked|
  {
    var first :| first in linked && Sum(linked, counts) ==
      Sum(linked - {first}, counts) + if counts(linked[first]) then linked[first].allocation else 0;
    if first != identity {
      SumTakesAny(linked - {first}, counts, identity);
      SumTakesAny(linked - {identity}, counts, first);
      assert linked - {first} - {identity} == linked - {identity} - {first};
    }
  }

  function Every(link: Linked): bool { true }

  /** Every name of the file was seen, so removing them frees it. */
  function Whole(link: Linked): bool { link.seen >= link.links }

  function Saturated(n: nat): U64 {
    if n <= U64_MAX then n else U64_MAX
  }

  ghost function UsageOf(s: Summary): Usage {
    Usage(s.logical,
          if s.measured then Measured(Saturated(s.unlinked + Sum(s.linked, Every)), Saturated(s.unlinked + Sum(s.linked, Whole)))
          else Unmeasured,
          s.failures)
  }

  /** The linked files added up, in whatever order they come. */
  method AddUp(start: U64, linked: map<Identity, Linked>, ghost all: Linked -> bool, ghost freed: Linked -> bool)
    returns (total: U64, reclaimable: U64)
    requires forall link :: all(link) && (freed(link) <==> link.seen >= link.links)
    ensures total == Saturated(start + Sum(linked, all))
    ensures reclaimable == Saturated(start + Sum(linked, freed))
  {
    total, reclaimable := start, start;
    var todo := linked;
    ghost var every: nat, whole: nat := 0, 0;
    while todo != map[]
      invariant SoFar(linked, todo, all, every) && total == Saturated(start + every)
      invariant SoFar(linked, todo, freed, whole) && reclaimable == Saturated(start + whole)
      decreases |todo|
    {
      var identity :| identity in todo;
      var link := todo[identity];
      every := OneMore(start, linked, todo, all, every, identity);
      whole := OneMore(start, linked, todo, freed, whole, identity);
      total := SatAdd(total, link.allocation);
      if link.seen >= link.links {
        reclaimable := SatAdd(reclaimable, link.allocation);
      }
      todo := todo - {identity};
    }
  }

  ghost predicate SoFar(linked: map<Identity, Linked>, todo: map<Identity, Linked>, counts: Linked -> bool, sum: nat) {
    sum + Sum(todo, counts) == Sum(linked, counts)
  }

  lemma OneMore(start: U64, linked: map<Identity, Linked>, todo: map<Identity, Linked>, counts: Linked -> bool,
                sum: nat, identity: Identity) returns (more: nat)
    requires SoFar(linked, todo, counts, sum) && identity in todo
    ensures SoFar(linked, todo - {identity}, counts, more)
    ensures Saturated(start + more) ==
      if counts(todo[identity]) then SatAdd(Saturated(start + sum), todo[identity].allocation) else Saturated(start + sum)
  {
    SumTakesAny(todo, counts, identity);
    more := sum + if counts(todo[identity]) then todo[identity].allocation else 0;
  }

  method JoinLinks(a: map<Identity, Linked>, b: map<Identity, Linked>) returns (joined: map<Identity, Linked>)
    ensures joined == JointMaps(a, b)
  {
    joined := a;
    var todo := b.Keys;
    while todo != {}
      invariant todo <= b.Keys
      invariant joined == JointMaps(a, b - todo)
    {
      var identity :| identity in todo;
      joined := joined[identity := if identity in joined then Joint(joined[identity], b[identity]) else b[identity]];
      todo := todo - {identity};
    }
    assert b - {} == b;
  }

  class Tally {
    var logical: U64
    var unlinked: U64
    var measured: bool
    var linked: map<Identity, Linked>
    var failures: U64

    ghost function Contents(): Summary
      reads this
    {
      Summary(logical, unlinked, measured, linked, failures)
    }

    constructor (measured: bool)
      ensures Contents() == Empty(measured)
    {
      this.logical, this.unlinked, this.measured, this.linked, this.failures := 0, 0, measured, map[], 0;
    }

    method File(len: U64)
      modifies this
      ensures Contents() == Add(old(Contents()), Sized(len))
    {
      logical := SatAdd(logical, len);
    }

    method Allocate(measure: FileMeasure)
      modifies this
      ensures Contents() == Add(old(Contents()), Allocated(measure))
    {
      if measure.links <= 1 {
        unlinked := SatAdd(unlinked, measure.allocation);
      } else if measure.identity in linked {
        var link := linked[measure.identity];
        linked := linked[measure.identity := link.(seen := SatAdd32(link.seen, 1))];
      } else {
        linked := linked[measure.identity := Linked(measure.allocation, measure.links, 1)];
      }
    }

    method Miss(failures: U64)
      modifies this
      ensures Contents() == Add(old(Contents()), Missing(failures))
    {
      this.failures := SatAdd(this.failures, failures);
    }

    method Absorb(other: Tally)
      requires other != this
      modifies this
      ensures Contents() == Merge(old(Contents()), other.Contents())
    {
      logical := SatAdd(logical, other.logical);
      unlinked := SatAdd(unlinked, other.unlinked);
      failures := SatAdd(failures, other.failures);
      measured := measured && other.measured;
      linked := JoinLinks(linked, other.linked);
    }

    /** `usage`: what the tally comes to, whatever order the linked files are added up in. */
    method Used() returns (usage: Usage)
      ensures usage == UsageOf(Contents())
    {
      if !measured {
        return Usage(logical, Unmeasured, failures);
      }
      var total, reclaimable := AddUp(unlinked, linked, Every, Whole);
      return Usage(logical, Measured(total, reclaimable), failures);
    }
  }

  /** Reclaimable never exceeds allocated. */
  lemma {:induction false} SumIsAtMost(linked: map<Identity, Linked>, counts: Linked -> bool)
    ensures Sum(linked, counts) <= Sum(linked, Every)
    decreases |linked|
  {
    if identity :| identity in linked {
      SumTakesAny(linked, counts, identity);
      SumTakesAny(linked, Every, identity);
      SumIsAtMost(linked - {identity}, counts);
    } else {
      assert linked == map[];
    }
  }

  lemma ReclaimableIsAllocated(s: Summary)
    ensures UsageOf(s).allocation.Measured? ==> UsageOf(s).allocation.reclaimable <= UsageOf(s).allocation.total
  {
    SumIsAtMost(s.linked, Whole);
  }

  // ---------- merging ----------

  lemma MergeCommutes(a: Summary, b: Summary)
    ensures Merge(a, b) == Merge(b, a)
  {}

  /** A file in both tallies has the larger of its two allocations and link counts, and the names seen in both;
    a file in one is as it is there. */
  lemma JointMeans(a: map<Identity, Linked>, b: map<Identity, Linked>, identity: Identity)
    ensures identity in JointMaps(a, b) <==> identity in a || identity in b
    ensures identity in a && identity !in b ==> JointMaps(a, b)[identity] == a[identity]
    ensures identity in b && identity !in a ==> JointMaps(a, b)[identity] == b[identity]
    ensures identity in a && identity in b ==>
      var joint := JointMaps(a, b)[identity];
      && joint.allocation == Max(a[identity].allocation, b[identity].allocation)
      && joint.links == Max(a[identity].links, b[identity].links)
      && joint.seen == Min(a[identity].seen + b[identity].seen, U32_MAX)
  {}

  lemma JointAssociates(a: Linked, b: Linked, c: Linked)
    ensures Joint(Joint(a, b), c) == Joint(a, Joint(b, c))
  {}

  lemma JointMapsAssociate(a: map<Identity, Linked>, b: map<Identity, Linked>, c: map<Identity, Linked>)
    ensures JointMaps(JointMaps(a, b), c) == JointMaps(a, JointMaps(b, c))
  {
    forall identity | identity in a && identity in b && identity in c
      ensures Joint(Joint(a[identity], b[identity]), c[identity]) == Joint(a[identity], Joint(b[identity], c[identity]))
    {
      JointAssociates(a[identity], b[identity], c[identity]);
    }
  }

  lemma MergeAssociates(a: Summary, b: Summary, c: Summary)
    ensures Merge(Merge(a, b), c) == Merge(a, Merge(b, c))
  {
    JointMapsAssociate(a.linked, b.linked, c.linked);
  }

  lemma MergeWithEmpty(s: Summary)
    ensures Merge(s, Empty(s.measured)) == s
  {
    assert JointMaps(s.linked, map[]) == s.linked;
  }

  /** What every file reports, whenever it is asked. */
  type Reports = Identity -> FileMeasure

  predicate Agrees(reports: Reports, finding: Finding) {
    finding.Allocated? ==> finding.measure == reports(finding.measure.identity)
  }

  ghost predicate AllAgree(reports: Reports, findings: seq<Finding>) {
    forall i :: 0 <= i < |findings| ==> Agrees(reports, findings[i])
  }

  /** One pass over the findings. */
  function Pass(measured: bool, findings: seq<Finding>): Summary {
    if findings == [] then Empty(measured)
    else Add(Pass(measured, findings[..|findings| - 1]), findings[|findings| - 1])
  }

  ghost predicate Faithful(reports: Reports, s: Summary) {
    forall identity :: identity in s.linked ==>
      && s.linked[identity].allocation == reports(identity).allocation
      && s.linked[identity].links == reports(identity).links
  }

  lemma {:induction false} PassIsFaithful(reports: Reports, measured: bool, findings: seq<Finding>)
    requires AllAgree(reports, findings)
    ensures Faithful(reports, Pass(measured, findings)) && Pass(measured, findings).measured == measured
  {
    if findings != [] {
      PassIsFaithful(reports, measured, findings[..|findings| - 1]);
    }
  }

  function One(measured: bool, finding: Finding): Summary {
    Add(Empty(measured), finding)
  }

  /** Adding a finding is merging with a tally of just that finding. */
  lemma AddIsMerge(reports: Reports, s: Summary, finding: Finding)
    requires Faithful(reports, s) && Agrees(reports, finding)
    ensures Add(s, finding) == Merge(s, One(s.measured, finding))
  {
    assert JointMaps(s.linked, map[]) == s.linked;
    if finding.Allocated? && finding.measure.links > 1 {
      assert One(s.measured, finding).linked ==
        map[finding.measure.identity := Linked(finding.measure.allocation, finding.measure.links, 1)];
    }
  }

  /** Two passes merged are one pass over both. */
  lemma {:induction false} PassesMerge(reports: Reports, measured: bool, a: seq<Finding>, b: seq<Finding>)
    requires AllAgree(reports, a) && AllAgree(reports, b)
    ensures Pass(measured, a + b) == Merge(Pass(measured, a), Pass(measured, b))
  {
    PassIsFaithful(reports, measured, a);
    if b == [] {
      assert a + b == a;
      MergeWithEmpty(Pass(measured, a));
    } else {
      var rest, last := b[..|b| - 1], b[|b| - 1];
      assert (a + b)[..|a + b| - 1] == a + rest;
      PassesMerge(reports, measured, a, rest);
      PassIsFaithful(reports, measured, a + rest);
      PassIsFaithful(reports, measured, rest);
      AddIsMerge(reports, Pass(measured, a + rest), last);
      AddIsMerge(reports, Pass(measured, rest), last);
      MergeAssociates(Pass(measured, a), Pass(measured, rest), One(measured, last));
    }
  }

  lemma PassMovesFirst(reports: Reports, measured: bool, before: seq<Finding>, finding: Finding, after: seq<Finding>)
    requires AllAgree(reports, before + [finding] + after)
    ensures Pass(measured, before + [finding] + after) == Pass(measured, [finding] + (before + after))
  {
    var all := before + [finding] + after;
    assert forall i :: 0 <= i < |before| ==> before[i] == all[i];
    assert forall i :: 0 <= i < |after| ==> after[i] == all[|before| + 1 + i];
    assert finding == all[|before|];
    PassesMerge(reports, measured, before + [finding], after);
    PassesMerge(reports, measured, before, [finding]);
    PassesMerge(reports, measured, [finding], before + after);
    PassesMerge(reports, measured, before, after);
    var b, f, a := Pass(measured, before), Pass(measured, [finding]), Pass(measured, after);
    MergeCommutes(b, f);
    MergeAssociates(f, b, a);
  }

  lemma AgreeingOnes(reports: Reports, a: seq<Finding>, b: seq<Finding>)
    requires AllAgree(reports, a) && multiset(b) <= multiset(a)
    ensures AllAgree(reports, b)
  {
    forall i | 0 <= i < |b| ensures Agrees(reports, b[i]) {
      assert b[i] in multiset(b);
      assert b[i] in multiset(a);
      var j :| 0 <= j < |a| && a[j] == b[i];
    }
  }

  lemma TakeOut(b: seq<Finding>, finding: Finding) returns (before: seq<Finding>, after: seq<Finding>)
    requires finding in multiset(b)
    ensures b == before + [finding] + after
    ensures multiset(before + after) == multiset(b) - multiset{finding}
  {
    var i :| 0 <= i < |b| && b[i] == finding;
    before, after := b[..i], b[i + 1..];
    assert b == before + [finding] + after;
  }

  /** The order of the findings does not matter. */
  lemma {:induction false} OrderDoesNotMatter(reports: Reports, measured: bool, a: seq<Finding>, b: seq<Finding>)
    requires AllAgree(reports, a) && multiset(a) == multiset(b)
    ensures Pass(measured, a) == Pass(measured, b)
    decreases |a|
  {
    assert |multiset(a)| == |a| && |multiset(b)| == |b|;
    if a != [] {
      var first, rest := a[0], a[1..];
      assert a == [first] + rest && multiset(rest) == multiset(a) - multiset{first};
      var before, after := TakeOut(b, first);
      AgreeingOnes(reports, a, b);
      AgreeingOnes(reports, a, rest);
      AgreeingOnes(reports, a, before + after);
      AgreeingOnes(reports, a, [first]);
      OrderDoesNotMatter(reports, measured, rest, before + after);
      PassMovesFirst(reports, measured, before, first, after);
      PassesMerge(reports, measured, [first], rest);
      PassesMerge(reports, measured, [first], before + after);
    }
  }

  /** Any way to split the findings into tallies and to merge these. */
  datatype Plan = Leaf(findings: seq<Finding>) | Join(left: Plan, right: Plan)

  function Merged(measured: bool, plan: Plan): Summary {
    match plan
    case Leaf(findings) => Pass(measured, findings)
    case Join(left, right) => Merge(Merged(measured, left), Merged(measured, right))
  }

  function Findings(plan: Plan): seq<Finding> {
    match plan
    case Leaf(findings) => findings
    case Join(left, right) => Findings(left) + Findings(right)
  }

  lemma {:induction false} MergedIsPass(reports: Reports, measured: bool, plan: Plan)
    requires AllAgree(reports, Findings(plan))
    ensures Merged(measured, plan) == Pass(measured, Findings(plan))
    decreases plan
  {
    match plan {
      case Leaf(findings) =>
      case Join(left, right) =>
        var l, r := Findings(left), Findings(right);
        assert forall i :: 0 <= i < |l| ==> l[i] == (l + r)[i];
        assert forall i :: 0 <= i < |r| ==> r[i] == (l + r)[|l| + i];
        MergedIsPass(reports, measured, left);
        MergedIsPass(reports, measured, right);
        PassesMerge(reports, measured, l, r);
    }
  }

  /** However the findings are split, ordered and merged, the usage is that of one pass. */
  lemma AnySplitAgrees(reports: Reports, measured: bool, plan: Plan, findings: seq<Finding>)
    requires AllAgree(reports, findings) && multiset(findings) == multiset(Findings(plan))
    ensures UsageOf(Merged(measured, plan)) == UsageOf(Pass(measured, findings))
  {
    OrderDoesNotMatter(reports, measured, findings, Findings(plan));
    AgreeingOnes(reports, findings, Findings(plan));
    MergedIsPass(reports, measured, plan);
  }

  // ---------- what the usage says ----------

  function Names(findings: seq<Finding>, identity: Identity): nat {
    if findings == [] then 0 else
      var last := findings[|findings| - 1];
      Names(findings[..|findings| - 1], identity) +
      if last.Allocated? && last.measure.identity == identity then 1 else 0
  }

  function Saturated32(n: nat): U32 {
    if n <= U32_MAX then n else U32_MAX
  }

  /** The exact total of what findings of one kind add. */
  function Total(findings: seq<Finding>, share: Finding -> nat): nat {
    if findings == [] then 0 else Total(findings[..|findings| - 1], share) + share(findings[|findings| - 1])
  }

  function LenOf(finding: Finding): nat { if finding.Sized? then finding.len else 0 }

  function UnlinkedOf(finding: Finding): nat {
    if finding.Allocated? && finding.measure.links <= 1 then finding.measure.allocation else 0
  }

  function FailuresOf(finding: Finding): nat { if finding.Missing? then finding.failures else 0 }

  function LinkOf(reports: Reports, findings: seq<Finding>, identity: Identity): Linked {
    Linked(reports(identity).allocation, reports(identity).links, Saturated32(Names(findings, identity)))
  }

  lemma {:induction false} TotalsAddUp(measured: bool, findings: seq<Finding>)
    ensures var s := Pass(measured, findings);
      && s.logical == Saturated(Total(findings, LenOf))
      && s.unlinked == Saturated(Total(findings, UnlinkedOf))
      && s.failures == Saturated(Total(findings, FailuresOf))
  {
    if findings != [] {
      TotalsAddUp(measured, findings[..|findings| - 1]);
    }
  }

  lemma {:induction false} LinksAddUp(reports: Reports, measured: bool, findings: seq<Finding>)
    requires AllAgree(reports, findings)
    ensures var s := Pass(measured, findings);
      forall identity ::
        && (identity in s.linked <==> Names(findings, identity) > 0 && reports(identity).links > 1)
        && (identity in s.linked ==> s.linked[identity] == LinkOf(reports, findings, identity))
  {
    if findings != [] {
      LinksAddUp(reports, measured, findings[..|findings| - 1]);
    }
  }

  /** What a pass adds up to: exact totals, saturated once, and each hard-linked file once with the number of
    its names that were seen. */
  lemma PassAddsUp(reports: Reports, measured: bool, findings: seq<Finding>)
    requires AllAgree(reports, findings)
    ensures var s := Pass(measured, findings);
      && s.logical == Saturated(Total(findings, LenOf))
      && s.unlinked == Saturated(Total(findings, UnlinkedOf))
      && s.failures == Saturated(Total(findings, FailuresOf))
    ensures var s := Pass(measured, findings);
      forall identity ::
        && (identity in s.linked <==> Names(findings, identity) > 0 && reports(identity).links > 1)
        && (identity in s.linked ==> s.linked[identity] == LinkOf(reports, findings, identity))
  {
    TotalsAddUp(measured, findings);
    LinksAddUp(reports, measured, findings);
  }

  /** A hard-linked file is reclaimable exactly when as many of its names were seen as it has. */
  lemma ReclaimableWhenAllSeen(reports: Reports, measured: bool, findings: seq<Finding>, identity: Identity)
    requires AllAgree(reports, findings) && identity in Pass(measured, findings).linked
    ensures Whole(Pass(measured, findings).linked[identity]) <==> Names(findings, identity) >= reports(identity).links
  {
    PassAddsUp(reports, measured, findings);
  }

  /** What files allocate together, each counted once. */
  ghost function AllocationOf(reports: Reports, identities: set<Identity>): nat {
    if identities == {} then 0 else
      var identity :| identity in identities;
      AllocationOf(reports, identities - {identity}) + reports(identity).allocation
  }

  lemma {:induction false} AllocationTakesAny(reports: Reports, identities: set<Identity>, identity: Identity)
    requires identity in identities
    ensures AllocationOf(reports, identities) == AllocationOf(reports, identities - {identity}) + reports(identity).allocation
    decreases |identities|
  {
    var first :| first in identities &&
      AllocationOf(reports, identities) == AllocationOf(reports, identities - {first}) + reports(first).allocation;
    if first != identity {
      AllocationTakesAny(reports, identities - {first}, identity);
      AllocationTakesAny(reports, identities - {identity}, first);
      assert identities - {first} - {identity} == identities - {identity} - {first};
    }
  }

  function Counted(linked: map<Identity, Linked>, counts: Linked -> bool): set<Identity> {
    set identity | identity in linked && counts(linked[identity])
  }

  lemma {:induction false} SumIsAllocation(reports: Reports, linked: map<Identity, Linked>, counts: Linked -> bool)
    requires forall identity :: identity in linked ==> linked[identity].allocation == reports(identity).allocation
    ensures Sum(linked, counts) == AllocationOf(reports, Counted(linked, counts))
    decreases |linked|
  {
    if identity :| identity in linked {
      var rest := linked - {identity};
      SumTakesAny(linked, counts, identity);
      SumIsAllocation(reports, rest, counts);
      assert Counted(rest, counts) == Counted(linked, counts) - {identity};
      if counts(linked[identity]) {
        AllocationTakesAny(reports, Counted(linked, counts), identity);
      } else {
        assert Counted(rest, counts) == Counted(linked, counts);
      }
    } else {
      assert linked == map[] && Counted(linked, counts) == {};
    }
  }

  /** The hard-linked files among the findings. */
  function HardLinked(findings: seq<Finding>): set<Identity> {
    set i | 0 <= i < |findings| && findings[i].Allocated? && findings[i].measure.links > 1 :: findings[i].measure.identity
  }

  /** Those of them with as many names among the findings as they have. */
  function WhollySeen(reports: Reports, findings: seq<Finding>): set<Identity> {
    set identity | identity in HardLinked(findings) && Names(findings, identity) >= reports(identity).links
  }

  lemma {:induction false} NamedMeansFound(reports: Reports, findings: seq<Finding>, identity: Identity)
    requires AllAgree(reports, findings)
    ensures identity in HardLinked(findings) <==> Names(findings, identity) > 0 && reports(identity).links > 1
  {
    if findings != [] {
      var rest, last := findings[..|findings| - 1], findings[|findings| - 1];
      NamedMeansFound(reports, rest, identity);
      assert Agrees(reports, last);
      if identity in HardLinked(findings) {
        var i :| 0 <= i < |findings| && findings[i].Allocated? && findings[i].measure.links > 1
                 && findings[i].measure.identity == identity;
        assert i < |rest| ==> rest[i] == findings[i];
      }
      if last.Allocated? && last.measure.identity == identity && last.measure.links > 1 {
        assert findings[|findings| - 1].measure.identity in HardLinked(findings);
      }
      if identity in HardLinked(rest) {
        var i :| 0 <= i < |rest| && rest[i].Allocated? && rest[i].measure.links > 1 && rest[i].measure.identity == identity;
        assert findings[i] == rest[i];
      }
    }
  }

  lemma CountedAre(reports: Reports, measured: bool, findings: seq<Finding>)
    requires AllAgree(reports, findings)
    ensures Counted(Pass(measured, findings).linked, Every) == HardLinked(findings)
    ensures Counted(Pass(measured, findings).linked, Whole) == WhollySeen(reports, findings)
  {
    var linked := Pass(measured, findings).linked;
    LinksAddUp(reports, measured, findings);
    forall identity
      ensures identity in Counted(linked, Every) <==> identity in HardLinked(findings)
      ensures identity in Counted(linked, Whole) <==> identity in WhollySeen(reports, findings)
    {
      NamedMeansFound(reports, findings, identity);
    }
  }

  lemma SumsAre(reports: Reports, measured: bool, findings: seq<Finding>)
    requires AllAgree(reports, findings)
    ensures Sum(Pass(measured, findings).linked, Every) == AllocationOf(reports, HardLinked(findings))
    ensures Sum(Pass(measured, findings).linked, Whole) == AllocationOf(reports, WhollySeen(reports, findings))
  {
    PassIsFaithful(reports, measured, findings);
    SumIsAllocation(reports, Pass(measured, findings).linked, Every);
    SumIsAllocation(reports, Pass(measured, findings).linked, Whole);
    CountedAre(reports, measured, findings);
  }

  lemma UsageFrom(s: Summary, unlinked: nat, all: nat, freed: nat)
    requires s.unlinked == Saturated(unlinked) && Sum(s.linked, Every) == all && Sum(s.linked, Whole) == freed
    ensures UsageOf(s) == Usage(s.logical,
      if s.measured then Measured(Saturated(unlinked + all), Saturated(unlinked + freed)) else Unmeasured, s.failures)
  {}

  /** The usage in closed form: everything saturated once, each hard-linked file allocated once, and
    reclaimable when all its names were found. */
  lemma UsageAddsUp(reports: Reports, measured: bool, findings: seq<Finding>)
    requires AllAgree(reports, findings)
    ensures var unlinked := Total(findings, UnlinkedOf);
      UsageOf(Pass(measured, findings)) == Usage(
        Saturated(Total(findings, LenOf)),
        if measured then
          Measured(Saturated(unlinked + AllocationOf(reports, HardLinked(findings))),
                   Saturated(unlinked + AllocationOf(reports, WhollySeen(reports, findings))))
        else Unmeasured,
        Saturated(Total(findings, FailuresOf)))
  {
    PassIsFaithful(reports, measured, findings);
    TotalsAddUp(measured, findings);
    SumsAre(reports, measured, findings);
    UsageFrom(Pass(measured, findings), Total(findings, UnlinkedOf), AllocationOf(reports, HardLinked(findings)),
              AllocationOf(reports, WhollySeen(reports, findings)));
  }
}
