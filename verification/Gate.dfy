/** The gates a deletion, a sharing or a pruning has to pass, who may be let go of, and the explanation of a
  refusal gate by gate. */
module Gates {
  import opened Common
  import opened Records
  import opened Locations

  // ---------- owners ----------

  datatype Settlement = Released | Landed | Unclaimed | Active | Kept

  function Protection(settlement: Settlement): nat {
    match settlement case Released => 0 case Landed => 1 case Unclaimed => 2 case Active => 3 case Kept => 4
  }

  predicate Protects(settlement: Settlement) {
    settlement.Active? || settlement.Kept?
  }

  /** The most protective of some settlements; nobody's claim if there is none. */
  function Strongest(settlements: seq<Settlement>): Settlement {
    if settlements == [] then Unclaimed
    else if |settlements| == 1 then settlements[0]
    else
      var before, last := Strongest(settlements[..|settlements| - 1]), settlements[|settlements| - 1];
      if Protection(last) < Protection(before) then before else last
  }

  /** Who owns a directory, each marker and worktree by what it settles to. */
  datatype Ownership =
    | Markers(markers: seq<Settlement>)
    | Worktree(worktree: Settlement)
    | Holders(holders: seq<Settlement>, beside: Option<Settlement>)
    | Nobody

  function Protecting(nested: seq<Settlement>): seq<Settlement> {
    if nested == [] then [] else
      (if Protects(nested[0]) then [nested[0]] else []) + Protecting(nested[1..])
  }

  /** Own markers decide together with the protecting ones inside; else those decide beside the worktree. */
  function Resolve(own: seq<Settlement>, nested: seq<Settlement>, worktree: Option<Settlement>): Ownership {
    var holders := Protecting(nested);
    if own != [] then Markers(own + holders)
    else if holders != [] then Holders(holders, worktree)
    else if worktree.Some? then Worktree(worktree.value)
    else Nobody
  }

  function SettlementOf(ownership: Ownership): Settlement {
    match ownership
    case Markers(markers) => Strongest(markers)
    case Worktree(worktree) => worktree
    case Holders(holders, beside) => Strongest(holders + if beside.Some? then [beside.value] else [])
    case Nobody => Unclaimed
  }

  datatype Admits = Anything | Settled | Unkept

  predicate AdmitsSettlement(admits: Admits, settlement: Settlement) {
    match admits
    case Anything => true
    case Settled => settlement.Released? || settlement.Landed?
    case Unkept => !settlement.Kept?
  }

  /** Whatever the caller admits, only what is settled may be deleted. */
  predicate AdmitsDeletion(admits: Admits, settlement: Settlement) {
    AdmitsSettlement(Settled, settlement) && AdmitsSettlement(admits, settlement)
  }

  predicate IsSettled(settlement: Settlement) {
    settlement.Released? || settlement.Landed?
  }

  predicate AllSettled(settlements: seq<Settlement>) {
    forall s :: s in settlements ==> IsSettled(s)
  }

  lemma {:induction false} StrongestIsSettled(settlements: seq<Settlement>)
    ensures IsSettled(Strongest(settlements)) <==> settlements != [] && AllSettled(settlements)
  {
    if |settlements| == 1 {
      assert settlements[0] in settlements;
    } else if settlements != [] {
      var rest, last := settlements[..|settlements| - 1], settlements[|settlements| - 1];
      StrongestIsSettled(rest);
      assert settlements == rest + [last];
    }
  }

  lemma {:induction false} ProtectingHolds(nested: seq<Settlement>)
    ensures forall s :: s in Protecting(nested) <==> s in nested && Protects(s)
  {
    if nested != [] {
      ProtectingHolds(nested[1..]);
      assert nested == [nested[0]] + nested[1..];
    }
  }

  /** A directory may be deleted exactly when nothing inside it is protected and, if it has markers of its
    own, all of them are settled, or, if it has none, it is in a worktree that is. */
  lemma DeletableExactlyWhen(admits: Admits, own: seq<Settlement>, nested: seq<Settlement>, worktree: Option<Settlement>)
    ensures AdmitsDeletion(admits, SettlementOf(Resolve(own, nested, worktree))) <==>
      && Active !in nested && Kept !in nested
      && (if own != [] then AllSettled(own) else worktree.Some? && IsSettled(worktree.value))
  {
    ResolvedMeans(own, nested, worktree);
    AllSettledMeans(own);
  }

  lemma AllSettledMeans(settlements: seq<Settlement>)
    ensures AllSettled(settlements) <==> Kept !in settlements && Active !in settlements && Unclaimed !in settlements
  {}

  /** The settlements in the order of their protection; none at all counts as unclaimed. */
  lemma {:induction false} StrongestExactlyWhen(settlements: seq<Settlement>)
    ensures Strongest(settlements) ==
      if Kept in settlements then Kept
      else if Active in settlements then Active
      else if Unclaimed in settlements || settlements == [] then Unclaimed
      else if Landed in settlements then Landed
      else Released
  {
    if |settlements| == 1 {
      assert settlements == [settlements[0]];
    } else if settlements != [] {
      var rest, last := settlements[..|settlements| - 1], settlements[|settlements| - 1];
      StrongestExactlyWhen(rest);
      assert settlements == rest + [last];
    }
  }

  /** What the owners of a directory come to: whatever is kept or active inside it or among what decides, and
    else what its own markers come to, or without any its worktree's settlement. */
  lemma ResolvedMeans(own: seq<Settlement>, nested: seq<Settlement>, worktree: Option<Settlement>)
    ensures SettlementOf(Resolve(own, nested, worktree)) ==
      if Kept in nested || (if own != [] then Kept in own else worktree == Some(Kept)) then Kept
      else if Active in nested || (if own != [] then Active in own else worktree == Some(Active)) then Active
      else if own == [] then (if worktree.Some? then worktree.value else Unclaimed)
      else if Unclaimed in own then Unclaimed
      else if Landed in own then Landed
      else Released
  {
    var holders := Protecting(nested);
    ProtectingHolds(nested);
    StrongestExactlyWhen(own + holders);
    StrongestExactlyWhen(holders + if worktree.Some? then [worktree.value] else []);
    forall s ensures s in holders <==> s in nested && (s == Active || s == Kept) {}
    if holders != [] {
      assert holders[0] in holders;
    }
  }

  // ---------- what a gate looks at ----------

  datatype Tier = Routine | Reinstallable | Expensive

  datatype TierGrant = TierGrant(reinstallable: bool, expensive: bool)

  predicate Grants(grant: TierGrant, tier: Tier) {
    match tier case Routine => true case Reinstallable => grant.reinstallable case Expensive => grant.expensive
  }

  /** An artifact kind, with what it costs to make again and the lock its writers take. */
  datatype Kind = Kind(code: nat, tier: Tier, protocol: Option<nat>)

  datatype Provenance = Declared | Inferred

  datatype Identification = Identification(kind: Kind, provenance: Provenance)

  datatype Shape = Directory | Link | OtherShape

  datatype Boundary = NoParent | SameDevice(device: nat) | Crossed(leaves: nat, enters: nat) | Unreported

  datatype Area = System(system: nat) | AppOwned(app: nat) | Open

  datatype Liveness = Free | Held(lock: nat, taker: nat) | Unknown(lock: nat, taker: nat)

  datatype Capability = Shares(filesystem: nat, via: Method) | Unsupported(filesystem: nat)

  /** What was measured inside a directory. */
  type Measurement = nat

  datatype Candidate = Candidate(id: nat, location: Location, identity: Identity, kind: Kind, provenance: Provenance)

  /** A directory as it is found; `identified` is what its listing names it as, `area` where it lies, and
    `excluded` the first exclusion that covers it. */
  datatype Site = Site(
    location: Location, shape: Shape, boundary: Boundary, identified: Option<Identification>,
    area: Area, excluded: Option<Location>, lower: Lowering, letters: Case,
    derive: (Identity, Location, Kind, Measurement) -> nat)

  datatype Mandate = Mandate(tiers: TierGrant, settlements: Admits)

  datatype Recheck = Recheck(
    mandate: Mandate, recorded: Candidate, identity: Identity, ownership: Ownership, liveness: Liveness)

  datatype Ask =
    | Discover
    | Inspect(tiers: TierGrant, settlements: Admits, owned: Option<Ownership>, lives: Option<Liveness>)
    | Rechecking(recheck: Recheck)
    | Verifying(recheck: Recheck, measured: Measurement)
    | Sharing(recorded: Candidate, identity: Identity, liveness: Liveness, capability: Capability)
    | Pruning(recorded: Candidate, identity: Identity, ownership: Ownership, liveness: Liveness)

  function RecordedIn(ask: Ask): Option<(Candidate, Identity)> {
    match ask
    case Discover => None
    case Inspect(_, _, _, _) => None
    case Rechecking(recheck) => Some((recheck.recorded, recheck.identity))
    case Verifying(recheck, _) => Some((recheck.recorded, recheck.identity))
    case Sharing(recorded, identity, _, _) => Some((recorded, identity))
    case Pruning(recorded, identity, _, _) => Some((recorded, identity))
  }

  datatype StaleField = CanonicalPath | FileIdentity | Content

  datatype Rejection =
    | IsLink | NotADirectory | MountBoundary(leaves: nat, enters: nat) | Protected(system: nat)
    | ProvenanceTooWeak(app: nat) | Excluded(exclude: Location) | EvidenceLost
    | KindChanged(was: Kind, now: Kind) | ProvenanceChanged(before: Provenance, after: Provenance)
    | TierLocked(tier: Tier) | Owned(settlement: Settlement) | NoLockProtocol(kind: Kind)
    | CannotShare(filesystem: nat) | Busy(lock: nat, taker: nat) | LivenessUnknown(lock: nat, taker: nat) | Stale(field: StaleField)

  datatype Note =
    | IsDirectory | OnDevice(device: nat) | DeviceUnreported | IsOpen | DeclaredIn(app: nat) | OutsideExclusions
    | Identified(identification: Identification) | TierAccepted(tier: Tier) | SettledAs(settlement: Settlement)
    | Locks(protocol: nat) | CanShare(filesystem: nat) | IsFree | SameIdentity | SameContents

  datatype Verdict = Pass(note: Note) | Abstain | Reject(rejection: Rejection)

  // ---------- the gates ----------

  datatype Gate =
    | ShapeGate | MountGate | AreaGate | ExclusionGate | EvidenceGate | TierGate
    | OwnershipGate | ProtocolGate | CapabilityGate | BusyGate | IdentityGate | FreshnessGate

  const GATES: seq<Gate> := [
    ShapeGate, MountGate, AreaGate, ExclusionGate, EvidenceGate, TierGate,
    OwnershipGate, ProtocolGate, CapabilityGate, BusyGate, IdentityGate, FreshnessGate]

  function CheckShape(site: Site): Verdict {
    match site.shape case Directory => Pass(IsDirectory) case Link => Reject(IsLink) case OtherShape => Reject(NotADirectory)
  }

  function CheckMount(site: Site): Verdict {
    match site.boundary
    case NoParent => Abstain
    case SameDevice(device) => Pass(OnDevice(device))
    case Unreported => Pass(DeviceUnreported)
    case Crossed(leaves, enters) => Reject(MountBoundary(leaves, enters))
  }

  /** In an application's own area only a directory that declares itself is let through. */
  function CheckArea(site: Site): Verdict {
    match site.area
    case System(system) => Reject(Protected(system))
    case AppOwned(app) =>
      if site.identified.Some? && site.identified.value.provenance.Declared? then Pass(DeclaredIn(app))
      else Reject(ProvenanceTooWeak(app))
    case Open => Pass(IsOpen)
  }

  function CheckExclusion(site: Site): Verdict {
    if site.excluded.Some? then Reject(Excluded(site.excluded.value)) else Pass(OutsideExclusions)
  }

  function CheckEvidence(site: Site, ask: Ask): Verdict {
    match site.identified
    case None => Reject(EvidenceLost)
    case Some(found) =>
      var recorded := RecordedIn(ask);
      if recorded.Some? && found.kind != recorded.value.0.kind
      then Reject(KindChanged(recorded.value.0.kind, found.kind))
      else if recorded.Some? && found.provenance != recorded.value.0.provenance
      then Reject(ProvenanceChanged(recorded.value.0.provenance, found.provenance))
      else Pass(Identified(found))
  }

  function TiersOf(ask: Ask): Option<TierGrant> {
    match ask
    case Inspect(tiers, _, _, _) => Some(tiers)
    case Rechecking(recheck) => Some(recheck.mandate.tiers)
    case Verifying(recheck, _) => Some(recheck.mandate.tiers)
    case _ => None
  }

  function CheckTier(site: Site, ask: Ask): Verdict {
    match TiersOf(ask)
    case None => Abstain
    case Some(grant) =>
      match site.identified
      case None => Reject(EvidenceLost)
      case Some(found) =>
        if Grants(grant, found.kind.tier) then Pass(TierAccepted(found.kind.tier)) else Reject(TierLocked(found.kind.tier))
  }

  function OwnersOf(ask: Ask): Option<(Ownership, Admits)> {
    match ask
    case Discover => None
    case Sharing(_, _, _, _) => None
    case Inspect(_, settlements, owned, _) => if owned.Some? then Some((owned.value, settlements)) else None
    case Rechecking(recheck) => Some((recheck.ownership, recheck.mandate.settlements))
    case Verifying(recheck, _) => Some((recheck.ownership, recheck.mandate.settlements))
    case Pruning(_, _, ownership, _) => Some((ownership, Unkept))
  }

  /** An inspection and the two checks of a deletion are about deleting; a pruning is not. */
  function CheckOwnership(site: Site, ask: Ask): Verdict {
    match OwnersOf(ask)
    case None => Abstain
    case Some((ownership, admits)) =>
      var settlement := SettlementOf(ownership);
      var deletes := ask.Inspect? || ask.Rechecking? || ask.Verifying?;
      if (if deletes then AdmitsDeletion(admits, settlement) else AdmitsSettlement(admits, settlement))
      then Pass(SettledAs(settlement)) else Reject(Owned(settlement))
  }

  function CheckProtocol(site: Site, ask: Ask): Verdict {
    if !ask.Sharing? && !ask.Pruning? then Abstain
    else match ask.recorded.kind.protocol
         case Some(protocol) => Pass(Locks(protocol))
         case None => Reject(NoLockProtocol(ask.recorded.kind))
  }

  function CheckCapability(site: Site, ask: Ask): Verdict {
    if !ask.Sharing? then Abstain
    else match ask.capability
         case Shares(filesystem, _) => Pass(CanShare(filesystem))
         case Unsupported(filesystem) => Reject(CannotShare(filesystem))
  }

  function LivenessOf(ask: Ask): Option<Liveness> {
    match ask
    case Discover => None
    case Inspect(_, _, _, lives) => lives
    case Rechecking(recheck) => Some(recheck.liveness)
    case Verifying(recheck, _) => Some(recheck.liveness)
    case Sharing(_, _, liveness, _) => Some(liveness)
    case Pruning(_, _, _, liveness) => Some(liveness)
  }

  function CheckBusy(site: Site, ask: Ask): Verdict {
    match LivenessOf(ask)
    case None => Abstain
    case Some(Free) => Pass(IsFree)
    case Some(Held(lock, taker)) => Reject(Busy(lock, taker))
    case Some(Unknown(lock, taker)) => Reject(LivenessUnknown(lock, taker))
  }

  function CheckIdentity(site: Site, ask: Ask): Verdict {
    match RecordedIn(ask)
    case None => Abstain
    case Some((recorded, identity)) =>
      if !Same(site.lower, site.location, recorded.location, site.letters) then Reject(Stale(CanonicalPath))
      else if identity != recorded.identity then Reject(Stale(FileIdentity))
      else Pass(SameIdentity)
  }

  /** The identity of a candidate is derived again from what is there now. */
  function CheckFreshness(site: Site, ask: Ask): Verdict {
    if !ask.Verifying? then Abstain
    else
      var recorded := ask.recheck.recorded;
      if site.derive(ask.recheck.identity, site.location, recorded.kind, ask.measured) == recorded.id
      then Pass(SameContents) else Reject(Stale(Content))
  }

  function Check(gate: Gate, site: Site, ask: Ask): Verdict {
    match gate
    case ShapeGate => CheckShape(site)
    case MountGate => CheckMount(site)
    case AreaGate => CheckArea(site)
    case ExclusionGate => CheckExclusion(site)
    case EvidenceGate => CheckEvidence(site, ask)
    case TierGate => CheckTier(site, ask)
    case OwnershipGate => CheckOwnership(site, ask)
    case ProtocolGate => CheckProtocol(site, ask)
    case CapabilityGate => CheckCapability(site, ask)
    case BusyGate => CheckBusy(site, ask)
    case IdentityGate => CheckIdentity(site, ask)
    case FreshnessGate => CheckFreshness(site, ask)
  }

  // ---------- the pipeline and its explanation ----------

  /** The first gate, from one on, that refuses. */
  function Refuses(site: Site, ask: Ask, i: nat): Option<nat>
    requires i <= |GATES|
    decreases |GATES| - i
  {
    if i == |GATES| then None
    else if Check(GATES[i], site, ask).Reject? then Some(i)
    else Refuses(site, ask, i + 1)
  }

  /** What the evidence gate found, or the first refusal. */
  function Outcome(site: Site, ask: Ask): Result<Identification, Rejection> {
    RefusalIsAGate(site, ask, 0);
    match Refuses(site, ask, 0)
    case Some(i) => Err(Check(GATES[i], site, ask).rejection)
    case None => if site.identified.Some? then Ok(site.identified.value) else Err(EvidenceLost)
  }

  lemma {:induction false} RefusalIsAGate(site: Site, ask: Ask, i: nat)
    requires i <= |GATES|
    ensures Refuses(site, ask, i).Some? ==>
      && i <= Refuses(site, ask, i).value < |GATES|
      && Check(GATES[Refuses(site, ask, i).value], site, ask).Reject?
      && forall j :: i <= j < Refuses(site, ask, i).value ==> !Check(GATES[j], site, ask).Reject?
    ensures Refuses(site, ask, i).None? ==> forall j :: i <= j < |GATES| ==> !Check(GATES[j], site, ask).Reject?
    decreases |GATES| - i
  {
    if i < |GATES| && !Check(GATES[i], site, ask).Reject? {
      RefusalIsAGate(site, ask, i + 1);
    }
  }

  /** Only the evidence gate identifies anything, and it always does when it passes. */
  lemma OnlyEvidenceIdentifies(site: Site, ask: Ask, gate: Gate)
    ensures Check(gate, site, ask).Pass? && Check(gate, site, ask).note.Identified? <==>
      gate.EvidenceGate? && Check(gate, site, ask).Pass?
    ensures Check(EvidenceGate, site, ask).Reject? ||
      (site.identified.Some? && Check(EvidenceGate, site, ask) == Pass(Identified(site.identified.value)))
  {}

  /** `run`: the gates in order.  That the evidence is missing after all gates passed cannot happen. */
  method Run(site: Site, ask: Ask) returns (r: Result<Identification, Rejection>)
    ensures r == Outcome(site, ask)
    ensures r.Ok? ==> site.identified == Some(r.value)
  {
    var identified: Option<Identification> := None;
    RefusalIsAGate(site, ask, 0);
    for i := 0 to |GATES|
      invariant Refuses(site, ask, 0) == Refuses(site, ask, i)
      invariant identified == if i > 4 then site.identified else None
      invariant i > 4 ==> site.identified.Some?
    {
      OnlyEvidenceIdentifies(site, ask, GATES[i]);
      match Check(GATES[i], site, ask) {
        case Pass(Identified(identification)) =>
          identified := Some(identification);
        case Pass(_) =>
        case Abstain =>
        case Reject(rejection) =>
          return Err(rejection);
      }
    }
    match identified {
      case Some(identification) => return Ok(identification);
      case None => assert false;
    }
  }

  datatype StageOutcome = Passed(note: Note) | Abstained | Rejected(rejection: Rejection) | NotReached

  datatype Stage = Stage(gate: Gate, outcome: StageOutcome)

  function OutcomeOf(verdict: Verdict): StageOutcome {
    match verdict case Pass(note) => Passed(note) case Abstain => Abstained case Reject(rejection) => Rejected(rejection)
  }

  /** `stages`: every gate with its outcome; after a refusal none is reached. */
  method Stages(site: Site, ask: Ask) returns (stages: seq<Stage>)
    ensures |stages| == |GATES| && forall i :: 0 <= i < |GATES| ==> stages[i].gate == GATES[i]
    ensures Explains(stages, Outcome(site, ask))
    ensures forall i :: 0 <= i < |GATES| && !stages[i].outcome.NotReached? ==>
      stages[i].outcome == OutcomeOf(Check(GATES[i], site, ask))
  {
    var refused := false;
    stages := [];
    RefusalIsAGate(site, ask, 0);
    EvidenceIsThere(site, ask);
    for i := 0 to |GATES|
      invariant |stages| == i
      invariant refused <==> Refuses(site, ask, 0).Some? && Refuses(site, ask, 0).value < i
      invariant forall j :: 0 <= j < i ==> stages[j].gate == GATES[j]
      invariant forall j :: 0 <= j < i ==>
        stages[j].outcome ==
        (if Refuses(site, ask, 0).Some? && Refuses(site, ask, 0).value < j then NotReached
         else OutcomeOf(Check(GATES[j], site, ask)))
    {
      var outcome := NotReached;
      if !refused {
        var verdict := Check(GATES[i], site, ask);
        outcome := OutcomeOf(verdict);
        refused := verdict.Reject?;
      }
      stages := stages + [Stage(GATES[i], outcome)];
    }
    if Refuses(site, ask, 0).Some? {
      assert RefusedAt(stages, Refuses(site, ask, 0).value, Outcome(site, ask).error);
    }
  }

  /** The stages hold a refusal exactly when the outcome is one: the same one, at the first gate that refuses,
    with nothing refused before it and nothing reached after it. */
  ghost predicate Explains(stages: seq<Stage>, outcome: Result<Identification, Rejection>) {
    if outcome.Ok? then forall i :: 0 <= i < |stages| ==> stages[i].outcome.Passed? || stages[i].outcome.Abstained?
    else exists i: nat :: RefusedAt(stages, i, outcome.error)
  }

  ghost predicate RefusedAt(stages: seq<Stage>, i: nat, rejection: Rejection) {
    && i < |stages| && stages[i].outcome == Rejected(rejection)
    && (forall j :: 0 <= j < i ==> stages[j].outcome.Passed? || stages[j].outcome.Abstained?)
    && (forall j :: i < j < |stages| ==> stages[j].outcome.NotReached?)
  }

  /** When no gate refuses, the evidence gate identified the site. */
  lemma EvidenceIsThere(site: Site, ask: Ask)
    ensures Refuses(site, ask, 0).None? ==> site.identified.Some?
  {
    RefusalIsAGate(site, ask, 0);
    OnlyEvidenceIdentifies(site, ask, EvidenceGate);
    assert GATES[4] == EvidenceGate;
  }

  // ---------- clearances ----------

  datatype Clearance = Clearance(location: Location, identity: Identity, identification: Identification)

  /** `clear`: the gates, and then the grant a deletion needs, which is never refused after them. */
  method Clear(site: Site, recheck: Recheck, measured: Measurement) returns (r: Result<Clearance, Rejection>)
    ensures r == ClearanceOf(site, recheck, measured)
    ensures r.Ok? ==> AdmitsDeletion(recheck.mandate.settlements, SettlementOf(recheck.ownership))
  {
    var ask := Verifying(recheck, measured);
    var identification := Run(site, ask);
    RefusalIsAGate(site, ask, 0);
    if identification.Err? {
      return Err(identification.error);
    }
    var settlement := SettlementOf(recheck.ownership);
    assert GATES[6] == OwnershipGate && !Check(GATES[6], site, ask).Reject?;
    if !AdmitsDeletion(recheck.mandate.settlements, settlement) {
      assert false;
    }
    return Ok(Clearance(site.location, recheck.identity, identification.value));
  }

  function ClearanceOf(site: Site, recheck: Recheck, measured: Measurement): Result<Clearance, Rejection> {
    match Outcome(site, Verifying(recheck, measured))
    case Ok(identification) => Ok(Clearance(site.location, recheck.identity, identification))
    case Err(rejection) => Err(rejection)
  }

  /** A site that is a real directory on its parent's device, in an admissible place, and still evident. */
  predicate Admissible(site: Site) {
    && site.shape.Directory? && !site.boundary.Crossed? && site.excluded.None? && site.identified.Some?
    && !site.area.System? && (site.area.AppOwned? ==> site.identified.value.provenance.Declared?)
  }

  /** What is expensive to make again needs the grant for it, and so does what has to be installed again. */
  predicate Locked(tiers: TierGrant, tier: Tier) {
    (tier == Expensive && !tiers.expensive) || (tier == Reinstallable && !tiers.reinstallable)
  }

  /** The site is what was recorded, and the caller may delete it. */
  predicate StillDeletable(site: Site, recheck: Recheck) {
    && site.identified == Some(Identification(recheck.recorded.kind, recheck.recorded.provenance))
    && !Locked(recheck.mandate.tiers, recheck.recorded.kind.tier)
    && IsSettled(SettlementOf(recheck.ownership))
    && recheck.liveness.Free?
    && Same(site.lower, site.location, recheck.recorded.location, site.letters)
    && recheck.identity == recheck.recorded.identity
  }

  predicate Unchanged(site: Site, recheck: Recheck, measured: Measurement) {
    site.derive(recheck.identity, site.location, recheck.recorded.kind, measured) == recheck.recorded.id
  }

  lemma NoneRefuses(site: Site, ask: Ask)
    ensures Outcome(site, ask).Ok? <==> forall gate: Gate :: !Check(gate, site, ask).Reject?
  {
    RefusalIsAGate(site, ask, 0);
    EvidenceIsThere(site, ask);
    forall gate: Gate | Check(gate, site, ask).Reject? ensures Refuses(site, ask, 0).Some? {
      OneRefuses(site, ask, gate);
    }
  }

  /** No gate refuses, one by one. */
  lemma EachGate(site: Site, ask: Ask)
    ensures (forall gate: Gate :: !Check(gate, site, ask).Reject?) <==>
      && !Check(ShapeGate, site, ask).Reject? && !Check(MountGate, site, ask).Reject? && !Check(AreaGate, site, ask).Reject?
      && !Check(ExclusionGate, site, ask).Reject? && !Check(EvidenceGate, site, ask).Reject?
      && !Check(TierGate, site, ask).Reject? && !Check(OwnershipGate, site, ask).Reject?
      && !Check(ProtocolGate, site, ask).Reject? && !Check(CapabilityGate, site, ask).Reject?
      && !Check(BusyGate, site, ask).Reject? && !Check(IdentityGate, site, ask).Reject?
      && !Check(FreshnessGate, site, ask).Reject?
  {
    forall gate: Gate ensures gate in GATES {
      var i := PlaceOf(gate);
    }
  }

  lemma OneRefuses(site: Site, ask: Ask, gate: Gate)
    requires Check(gate, site, ask).Reject?
    ensures Refuses(site, ask, 0).Some?
  {
    var i := PlaceOf(gate);
    RefusalIsAGate(site, ask, 0);
  }

  lemma PlaceOf(gate: Gate) returns (i: nat)
    ensures i < |GATES| && GATES[i] == gate
  {
    match gate {
      case ShapeGate => i := 0;
      case MountGate => i := 1;
      case AreaGate => i := 2;
      case ExclusionGate => i := 3;
      case EvidenceGate => i := 4;
      case TierGate => i := 5;
      case OwnershipGate => i := 6;
      case ProtocolGate => i := 7;
      case CapabilityGate => i := 8;
      case BusyGate => i := 9;
      case IdentityGate => i := 10;
      case FreshnessGate => i := 11;
    }
  }

  /** What it takes to be admitted, to pass the recheck, and to be cleared for deletion. */
  lemma AdmittedExactlyWhen(site: Site)
    ensures Outcome(site, Discover).Ok? <==> Admissible(site)
  {
    NoneRefuses(site, Discover);
    AdmittedByGates(site);
  }

  lemma AdmittedByGates(site: Site)
    ensures (forall gate: Gate :: !Check(gate, site, Discover).Reject?) <==> Admissible(site)
  {
    EachGate(site, Discover);
  }

  lemma RecheckedExactlyWhen(site: Site, recheck: Recheck)
    ensures Outcome(site, Rechecking(recheck)).Ok? <==> Admissible(site) && StillDeletable(site, recheck)
  {
    NoneRefuses(site, Rechecking(recheck));
    RecheckedByGates(site, recheck);
  }

  lemma RecheckedByGates(site: Site, recheck: Recheck)
    ensures (forall gate: Gate :: !Check(gate, site, Rechecking(recheck)).Reject?) <==> Admissible(site) && StillDeletable(site, recheck)
  {
    EachGate(site, Rechecking(recheck));
  }

  lemma ClearedExactlyWhen(site: Site, recheck: Recheck, measured: Measurement)
    ensures ClearanceOf(site, recheck, measured).Ok? <==>
      Admissible(site) && StillDeletable(site, recheck) && Unchanged(site, recheck, measured)
  {
    NoneRefuses(site, Verifying(recheck, measured));
    ClearedByGates(site, recheck, measured);
  }

  lemma ClearedByGates(site: Site, recheck: Recheck, measured: Measurement)
    ensures (forall gate: Gate :: !Check(gate, site, Verifying(recheck, measured)).Reject?) <==>
      Admissible(site) && StillDeletable(site, recheck) && Unchanged(site, recheck, measured)
  {
    EachGate(site, Verifying(recheck, measured));
  }

  /** What keeps a site from being a candidate, the place it is in first. */
  function WhyNotAdmitted(site: Site): Option<Rejection> {
    if site.shape == Link then Some(IsLink)
    else if site.shape != Directory then Some(NotADirectory)
    else if site.boundary.Crossed? then Some(MountBoundary(site.boundary.leaves, site.boundary.enters))
    else if site.area.System? then Some(Protected(site.area.system))
    else if site.area.AppOwned? && (site.identified.None? || site.identified.value.provenance == Inferred)
    then Some(ProvenanceTooWeak(site.area.app))
    else if site.excluded.Some? then Some(Excluded(site.excluded.value))
    else if site.identified.None? then Some(EvidenceLost)
    else None
  }

  /** What keeps an admitted site from being what was recorded, and deletable: the artifact, the caller's
    grant, the owners, the lock, and only then where and what the directory is. */
  function WhyNotDeletable(site: Site, recheck: Recheck): Option<Rejection>
    requires site.identified.Some?
  {
    var found, recorded := site.identified.value, recheck.recorded;
    if found.kind != recorded.kind then Some(KindChanged(recorded.kind, found.kind))
    else if found.provenance != recorded.provenance then Some(ProvenanceChanged(recorded.provenance, found.provenance))
    else if Locked(recheck.mandate.tiers, recorded.kind.tier) then Some(TierLocked(recorded.kind.tier))
    else if !IsSettled(SettlementOf(recheck.ownership)) then Some(Owned(SettlementOf(recheck.ownership)))
    else if recheck.liveness.Held? then Some(Busy(recheck.liveness.lock, recheck.liveness.taker))
    else if recheck.liveness.Unknown? then Some(LivenessUnknown(recheck.liveness.lock, recheck.liveness.taker))
    else if !Same(site.lower, site.location, recorded.location, site.letters) then Some(Stale(CanonicalPath))
    else if recheck.identity != recorded.identity then Some(Stale(FileIdentity))
    else None
  }

  function WhyNotCleared(site: Site, recheck: Recheck, measured: Measurement): Option<Rejection> {
    if WhyNotAdmitted(site).Some? then WhyNotAdmitted(site)
    else if WhyNotDeletable(site, recheck).Some? then WhyNotDeletable(site, recheck)
    else if !Unchanged(site, recheck, measured) then Some(Stale(Content))
    else None
  }

  /** A gate refuses, and none before it does. */
  lemma {:induction false} FirstIs(site: Site, ask: Ask, from: nat, i: nat)
    requires from <= i < |GATES| && Check(GATES[i], site, ask).Reject?
    requires forall j :: from <= j < i ==> !Check(GATES[j], site, ask).Reject?
    ensures Refuses(site, ask, from) == Some(i)
    decreases i - from
  {
    if from < i {
      FirstIs(site, ask, from + 1, i);
    }
  }

  lemma AdmittedFirst(site: Site, ask: Ask)
    requires WhyNotAdmitted(site).Some?
    ensures Outcome(site, ask) == Err(WhyNotAdmitted(site).value)
  {
    if !site.shape.Directory? {
      FirstIs(site, ask, 0, 0);
    } else if site.boundary.Crossed? {
      FirstIs(site, ask, 0, 1);
    } else if site.area.System? || (site.area.AppOwned? && (site.identified.None? || site.identified.value.provenance == Inferred)) {
      FirstIs(site, ask, 0, 2);
    } else if site.excluded.Some? {
      FirstIs(site, ask, 0, 3);
    } else {
      FirstIs(site, ask, 0, 4);
    }
  }

  lemma NoneBefore(site: Site, ask: Ask)
    requires WhyNotAdmitted(site).None?
    ensures forall j :: 0 <= j < 4 ==> !Check(GATES[j], site, ask).Reject?
  {}

  /** A deletion that is not cleared is refused for the first of these reasons, in this order. */
  lemma ClearedOrRefusedFor(site: Site, recheck: Recheck, measured: Measurement)
    ensures var why := WhyNotCleared(site, recheck, measured);
      ClearanceOf(site, recheck, measured) ==
      if why.Some? then Err(why.value) else Ok(Clearance(site.location, recheck.identity, site.identified.value))
  {
    var ask := Verifying(recheck, measured);
    ClearedExactlyWhen(site, recheck, measured);
    if WhyNotAdmitted(site).Some? {
      AdmittedFirst(site, ask);
    } else if WhyNotDeletable(site, recheck).Some? {
      NoneBefore(site, ask);
      DeletableFirst(site, recheck, measured);
    } else if !Unchanged(site, recheck, measured) {
      NoneBefore(site, ask);
      FirstIs(site, ask, 0, 11);
    }
  }

  lemma DeletableFirst(site: Site, recheck: Recheck, measured: Measurement)
    requires WhyNotAdmitted(site).None? && WhyNotDeletable(site, recheck).Some?
    ensures Outcome(site, Verifying(recheck, measured)) == Err(WhyNotDeletable(site, recheck).value)
  {
    var ask, found, recorded := Verifying(recheck, measured), site.identified.value, recheck.recorded;
    NoneBefore(site, ask);
    if found.kind != recorded.kind || found.provenance != recorded.provenance {
      FirstIs(site, ask, 0, 4);
    } else if Locked(recheck.mandate.tiers, recorded.kind.tier) {
      FirstIs(site, ask, 0, 5);
    } else if !IsSettled(SettlementOf(recheck.ownership)) {
      FirstIs(site, ask, 0, 6);
    } else if !recheck.liveness.Free? {
      FirstIs(site, ask, 0, 9);
    } else {
      FirstIs(site, ask, 0, 10);
    }
  }

  /** The site is what was recorded, and no running tool holds it. */
  predicate StillThere(site: Site, recorded: Candidate, identity: Identity, liveness: Liveness) {
    && site.identified == Some(Identification(recorded.kind, recorded.provenance))
    && recorded.kind.protocol.Some? && liveness.Free?
    && Same(site.lower, site.location, recorded.location, site.letters)
    && identity == recorded.identity
  }

  /** An inspection passes what would be deletable as far as it was told: what it was not told it does not ask. */
  lemma InspectedExactlyWhen(site: Site, tiers: TierGrant, settlements: Admits, owned: Option<Ownership>, lives: Option<Liveness>)
    ensures Outcome(site, Inspect(tiers, settlements, owned, lives)).Ok? <==>
      && Admissible(site) && !Locked(tiers, site.identified.value.kind.tier)
      && (owned.Some? ==> IsSettled(SettlementOf(owned.value)))
      && (lives.Some? ==> lives.value.Free?)
  {
    NoneRefuses(site, Inspect(tiers, settlements, owned, lives));
    InspectedByGates(site, tiers, settlements, owned, lives);
  }

  lemma InspectedByGates(site: Site, tiers: TierGrant, settlements: Admits, owned: Option<Ownership>, lives: Option<Liveness>)
    ensures (forall gate: Gate :: !Check(gate, site, Inspect(tiers, settlements, owned, lives)).Reject?) <==>
      && Admissible(site) && !Locked(tiers, site.identified.value.kind.tier)
      && (owned.Some? ==> IsSettled(SettlementOf(owned.value)))
      && (lives.Some? ==> lives.value.Free?)
  {
    EachGate(site, Inspect(tiers, settlements, owned, lives));
  }

  /** Which gates have nothing to say, by what is asked. */
  lemma AbstainsExactlyWhen(site: Site, ask: Ask, gate: Gate)
    ensures Check(gate, site, ask).Abstain? <==>
      match gate
      case MountGate => site.boundary.NoParent?
      case TierGate => ask.Discover? || ask.Sharing? || ask.Pruning?
      case OwnershipGate => ask.Discover? || ask.Sharing? || (ask.Inspect? && ask.owned.None?)
      case ProtocolGate => !ask.Sharing? && !ask.Pruning?
      case CapabilityGate => !ask.Sharing?
      case BusyGate => ask.Discover? || (ask.Inspect? && ask.lives.None?)
      case IdentityGate => ask.Discover? || ask.Inspect?
      case FreshnessGate => !ask.Verifying?
      case _ => false
  {}

  /** What the gates that pass a site note about it. */
  lemma PassesWith(site: Site, ask: Ask, gate: Gate)
    requires Check(gate, site, ask).Pass?
    ensures var note := Check(gate, site, ask).note;
      match gate
      case ShapeGate => note == IsDirectory
      case MountGate => note == if site.boundary.SameDevice? then OnDevice(site.boundary.device) else DeviceUnreported
      case AreaGate => note == if site.area.AppOwned? then DeclaredIn(site.area.app) else IsOpen
      case ExclusionGate => note == OutsideExclusions
      case EvidenceGate => site.identified.Some? && note == Identified(site.identified.value)
      case TierGate => site.identified.Some? && note == TierAccepted(site.identified.value.kind.tier)
      case OwnershipGate => exists ownership :: note == SettledAs(SettlementOf(ownership))
      case ProtocolGate => note.Locks?
      case CapabilityGate => note.CanShare?
      case BusyGate => note == IsFree
      case IdentityGate => note == SameIdentity
      case FreshnessGate => note == SameContents
  {
    if gate.OwnershipGate? {
      assert Check(gate, site, ask).note == SettledAs(SettlementOf(OwnersOf(ask).value.0));
    }
  }

  /** What a sharing or a pruning is refused for that a deletion is not asked about. */
  lemma UsesNeedALock(site: Site, recorded: Candidate, identity: Identity, ownership: Ownership, liveness: Liveness, capability: Capability)
    requires Admissible(site) && site.identified == Some(Identification(recorded.kind, recorded.provenance))
    ensures recorded.kind.protocol.None? ==>
      Outcome(site, Sharing(recorded, identity, liveness, capability)) == Err(NoLockProtocol(recorded.kind))
    ensures recorded.kind.protocol.Some? && capability.Unsupported? ==>
      Outcome(site, Sharing(recorded, identity, liveness, capability)) == Err(CannotShare(capability.filesystem))
    ensures recorded.kind.protocol.None? && !SettlementOf(ownership).Kept? ==>
      Outcome(site, Pruning(recorded, identity, ownership, liveness)) == Err(NoLockProtocol(recorded.kind))
    ensures SettlementOf(ownership).Kept? ==>
      Outcome(site, Pruning(recorded, identity, ownership, liveness)) == Err(Owned(Kept))
  {
    var share, prune := Sharing(recorded, identity, liveness, capability), Pruning(recorded, identity, ownership, liveness);
    PassesToOwnership(site, share);
    PassesToOwnership(site, prune);
    if recorded.kind.protocol.None? {
      FirstIs(site, share, 0, 7);
    } else if capability.Unsupported? {
      FirstIs(site, share, 0, 8);
    }
    if SettlementOf(ownership).Kept? {
      FirstIs(site, prune, 0, 6);
    } else if recorded.kind.protocol.None? {
      FirstIs(site, prune, 0, 7);
    }
  }

  lemma PassesToOwnership(site: Site, ask: Ask)
    requires Admissible(site) && (ask.Sharing? || ask.Pruning?)
    requires site.identified == Some(Identification(ask.recorded.kind, ask.recorded.provenance))
    ensures forall j :: 0 <= j < 6 ==> !Check(GATES[j], site, ask).Reject?
  {}

  /** Sharing asks nobody's leave, but needs a lock to hold and a filesystem that can share. */
  lemma SharedExactlyWhen(site: Site, recorded: Candidate, identity: Identity, liveness: Liveness, capability: Capability)
    ensures Outcome(site, Sharing(recorded, identity, liveness, capability)).Ok? <==>
      Admissible(site) && StillThere(site, recorded, identity, liveness) && capability.Shares?
  {
    NoneRefuses(site, Sharing(recorded, identity, liveness, capability));
    SharedByGates(site, recorded, identity, liveness, capability);
  }

  lemma SharedByGates(site: Site, recorded: Candidate, identity: Identity, liveness: Liveness, capability: Capability)
    ensures (forall gate: Gate :: !Check(gate, site, Sharing(recorded, identity, liveness, capability)).Reject?) <==>
      Admissible(site) && StillThere(site, recorded, identity, liveness) && capability.Shares?
  {
    EachGate(site, Sharing(recorded, identity, liveness, capability));
  }

  /** Pruning needs a lock to hold, and that the owner does not keep the directory. */
  lemma PrunedExactlyWhen(site: Site, recorded: Candidate, identity: Identity, ownership: Ownership, liveness: Liveness)
    ensures Outcome(site, Pruning(recorded, identity, ownership, liveness)).Ok? <==>
      Admissible(site) && StillThere(site, recorded, identity, liveness) && !SettlementOf(ownership).Kept?
  {
    NoneRefuses(site, Pruning(recorded, identity, ownership, liveness));
    PrunedByGates(site, recorded, identity, ownership, liveness);
  }

  lemma PrunedByGates(site: Site, recorded: Candidate, identity: Identity, ownership: Ownership, liveness: Liveness)
    ensures (forall gate: Gate :: !Check(gate, site, Pruning(recorded, identity, ownership, liveness)).Reject?) <==>
      Admissible(site) && StillThere(site, recorded, identity, liveness) && !SettlementOf(ownership).Kept?
  {
    EachGate(site, Pruning(recorded, identity, ownership, liveness));
  }

  /** Whatever is cleared for deletion would also be admitted and pass the recheck, as the same artifact. */
  lemma ClearedIsAdmittedAndRechecked(site: Site, recheck: Recheck, measured: Measurement)
    requires ClearanceOf(site, recheck, measured).Ok?
    ensures Outcome(site, Discover) == Outcome(site, Rechecking(recheck)) ==
      Ok(ClearanceOf(site, recheck, measured).value.identification)
  {
    ClearedExactlyWhen(site, recheck, measured);
    AdmittedExactlyWhen(site);
    RecheckedExactlyWhen(site, recheck);
  }

  /** `inspect_verified` explains exactly what `clear` decides. */
  method InspectVerified(site: Site, recheck: Recheck, measured: Measurement) returns (stages: seq<Stage>)
    ensures ClearanceOf(site, recheck, measured).Err? <==> exists i :: 0 <= i < |stages| && stages[i].outcome.Rejected?
    ensures ClearanceOf(site, recheck, measured).Err? ==>
      exists i: nat :: RefusedAt(stages, i, ClearanceOf(site, recheck, measured).error)
  {
    stages := Stages(site, Verifying(recheck, measured));
    var outcome := Outcome(site, Verifying(recheck, measured));
    if outcome.Err? {
      ghost var i: nat :| RefusedAt(stages, i, outcome.error);
      assert stages[i].outcome.Rejected?;
    }
  }
}
