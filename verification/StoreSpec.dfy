/**
 The collaboration store as a value, and every atomic store operation as a function from the
 store before the call to the store after it and the outcome. Branches are in source order;
 a rejected call returns whatever the source had already written when it raised.
 */
module StoreSpec {
  import opened Records

  /** Missions, the latest parent readback of each revision, and parent-authored dispositions. */
  datatype ParentTable = ParentTable(
    missions: map<string, Mission>,
    snapshots: map<(string, int), MissionReadback>,
    verifications: map<Digest, MissionVerification>,
    dispositions: map<(string, int, string), RouteDisposition>,
    supersessions: map<(string, int, int, Digest), MissionSupersession>)

  datatype ClaimTable = ClaimTable(
    versions: map<string, int>,
    active: map<Digest, Lease>,
    leases: map<Digest, Lease>,
    packets: map<Digest, TaskPacket>)

  datatype WorkTable = WorkTable(
    started: set<Digest>,
    attempts: map<Digest, ExecutionResult>,
    failures: map<Digest, ExecutionFailure>,
    effectOwner: map<string, Digest>,
    receipts: map<Digest, TerminalReceipt>,
    receiptOf: map<Digest, TerminalReceipt>)

  datatype StepTable = StepTable(
    steps: map<Digest, StepAttempt>,
    stepsOf: map<Digest, seq<Digest>>,
    stepEffectOwner: map<string, Digest>,
    stepReconciliations: map<Digest, StepReconciliation>)

  datatype RecoveryTable = RecoveryTable(
    blockers: map<Digest, BlockerReport>,
    proposals: map<Digest, RecoveryProposal>,
    admissions: map<Digest, RecoveryAdmission>,
    admissionById: map<Digest, RecoveryAdmission>,
    fingerprints: set<Digest>,
    budgetConsumed: map<Digest, int>)

  datatype DeliveryTable = DeliveryTable(
    continuations: map<Digest, Continuation>,
    continuationOf: map<Digest, Digest>,
    acks: map<Digest, Acknowledgement>,
    ackOf: map<Digest, Acknowledgement>)

  datatype Store = Store(parent: ParentTable, claims: ClaimTable, work: WorkTable, trail: StepTable,
                         recovery: RecoveryTable, delivery: DeliveryTable)

  const EMPTY := Store(ParentTable(map[], map[], map[], map[], map[]), ClaimTable(map[], map[], map[], map[]),
                       WorkTable({}, map[], map[], map[], map[], map[]), StepTable(map[], map[], map[], map[]),
                       RecoveryTable(map[], map[], map[], map[], {}, map[]),
                       DeliveryTable(map[], map[], map[], map[]))

  // ----- missions ------------------------------------------------------------------------

  function RegisterMission(s: Store, mission: Mission): (Store, Outcome<()>) {
    if mission.missionId in s.parent.missions && mission == s.parent.missions[mission.missionId] then (s, Accepted(()))
    else if mission.missionId in s.parent.missions
      && mission.revision <= s.parent.missions[mission.missionId].revision then
      (s, Rejected(StaleIdentity))
    else (s.(parent := s.parent.(missions := s.parent.missions[mission.missionId := mission])), Accepted(()))
  }

  /** The first route with this id, as `next(...)` over the mission's routes finds it. */
  function FindRoute(routes: seq<Route>, routeId: string): (r: Option<Route>)
    ensures r.Some? ==> r.value in routes && r.value.routeId == routeId
    ensures r.None? ==> forall x :: x in routes ==> x.routeId != routeId
  {
    if routes == [] then None
    else if routes[0].routeId == routeId then Some(routes[0])
    else FindRoute(routes[1..], routeId)
  }

  function RecordRouteDisposition(s: Store, d: RouteDisposition): (Store, Outcome<RouteDisposition>) {
    var key := (d.body.missionId, d.body.missionRevision, d.body.routeId);
    var route :=
      if d.body.missionId in s.parent.missions && s.parent.missions[d.body.missionId].revision == d.body.missionRevision
      then FindRoute(s.parent.missions[d.body.missionId].routes, d.body.routeId) else None;
    if route.None? || route.value.predicateKey != d.body.predicateKey then (s, Rejected(StaleIdentity))
    else if !DispositionIdentity(d) then (s, Rejected(ReplayIdentityConflict))
    else if key in s.parent.dispositions then
      (s, if s.parent.dispositions[key] == d then Accepted(d) else Rejected(ReplayIdentityConflict))
    else (s.(parent := s.parent.(dispositions := s.parent.dispositions[key := d])), Accepted(d))
  }

  predicate SupersessionBinds(s: Store, d: MissionSupersession) {
    && d.body.missionId in s.parent.missions
    && s.parent.missions[d.body.missionId].revision == d.body.supersedingRevision
    && d.body.ackId in s.delivery.acks
    && d.body.receiptId in s.work.receipts
    && s.delivery.acks[d.body.ackId].body.packetId in s.claims.packets
    && s.delivery.acks[d.body.ackId].body.receiptId == s.work.receipts[d.body.receiptId].receiptId
    && s.claims.packets[s.delivery.acks[d.body.ackId].body.packetId].body.missionId == d.body.missionId
    && s.claims.packets[s.delivery.acks[d.body.ackId].body.packetId].body.missionRevision == d.body.supersededRevision
  }

  function RecordMissionSupersession(s: Store, d: MissionSupersession): (Store, Outcome<MissionSupersession>) {
    var key := (d.body.missionId, d.body.supersededRevision, d.body.supersedingRevision, d.body.ackId);
    if !SupersessionBinds(s, d) then (s, Rejected(StaleIdentity))
    else if !SupersessionIdentity(d) || !AckIdentity(s.delivery.acks[d.body.ackId])
      || !ReceiptIdentity(s.work.receipts[d.body.receiptId])
    then (s, Rejected(ReplayIdentityConflict))
    else if key in s.parent.supersessions then
      (s, if s.parent.supersessions[key] == d then Accepted(d) else Rejected(ReplayIdentityConflict))
    else (s.(parent := s.parent.(supersessions := s.parent.supersessions[key := d])), Accepted(d))
  }

  function FirstIndex(truths: seq<Truth>, wanted: Truth): (i: nat)
    ensures i <= |truths|
    ensures i < |truths| ==> truths[i] == wanted
    ensures forall j :: 0 <= j < i ==> truths[j] != wanted
  {
    if truths == [] || truths[0] == wanted then 0 else 1 + FirstIndex(truths[1..], wanted)
  }

  function DeclaredTruths(predicates: seq<ExitPredicate>): (r: seq<Truth>)
    ensures |r| == |predicates|
  {
    seq(|predicates|, i requires 0 <= i < |predicates| => if predicates[i].satisfied then Satisfied else Unsatisfied)
  }

  function ReadTruths(predicates: seq<PredicateReadback>): (r: seq<Truth>)
    ensures |r| == |predicates|
    ensures forall i :: 0 <= i < |r| ==> r[i] == predicates[i].truth
  {
    seq(|predicates|, i requires 0 <= i < |predicates| => predicates[i].truth)
  }

  function MissionTruths(snapshots: map<(string, int), MissionReadback>, mission: Mission): seq<Truth> {
    var key := (mission.missionId, mission.revision);
    if key in snapshots then ReadTruths(snapshots[key].body.predicates) else DeclaredTruths(mission.predicates)
  }

  /** The first unsatisfied predicate, unless any predicate is indeterminate. Strict zipping
      fails on a length mismatch unless an indeterminate truth is met first. */
  function FirstFalse(snapshots: map<(string, int), MissionReadback>, mission: Mission)
    : Outcome<Option<ExitPredicate>>
  {
    var truths := MissionTruths(snapshots, mission);
    var common := if |truths| < |mission.predicates| then |truths| else |mission.predicates|;
    var unknown := FirstIndex(truths[..common], Indeterminate);
    if unknown < common then Rejected(ReadbackIndeterminate)
    else if |truths| != |mission.predicates| then Crashed
    else
      var open := FirstIndex(truths, Unsatisfied);
      Accepted(if open < |truths| then Some(mission.predicates[open]) else None)
  }

  /** Predicate `i` is the first open one: by the parent's readback where there is one, else as it was declared. */
  ghost predicate OpenFirst(snapshots: map<(string, int), MissionReadback>, mission: Mission, i: nat) {
    && i < |mission.predicates|
    && if (mission.missionId, mission.revision) in snapshots then
         var read := snapshots[(mission.missionId, mission.revision)].body.predicates;
         && |read| == |mission.predicates| && read[i].truth.Unsatisfied?
         && (forall j :: 0 <= j < i ==> read[j].truth.Satisfied?)
         && (forall j :: i < j < |read| ==> !read[j].truth.Indeterminate?)
       else !mission.predicates[i].satisfied && forall j :: 0 <= j < i ==> mission.predicates[j].satisfied
  }

  ghost predicate NothingOpen(snapshots: map<(string, int), MissionReadback>, mission: Mission) {
    if (mission.missionId, mission.revision) in snapshots then
      var read := snapshots[(mission.missionId, mission.revision)].body.predicates;
      |read| == |mission.predicates| && forall j :: 0 <= j < |read| ==> read[j].truth.Satisfied?
    else forall j :: 0 <= j < |mission.predicates| ==> mission.predicates[j].satisfied
  }

  ghost predicate NotRead(snapshots: map<(string, int), MissionReadback>, mission: Mission) {
    && (mission.missionId, mission.revision) in snapshots
    && var read := snapshots[(mission.missionId, mission.revision)].body.predicates;
    && exists j :: 0 <= j < |read| && j < |mission.predicates| && read[j].truth.Indeterminate?
  }

  /** What scanning a mission must answer. */
  ghost predicate Scans(snapshots: map<(string, int), MissionReadback>, mission: Mission,
                        r: Outcome<Option<ExitPredicate>>)
  {
    && (forall i: nat :: i < |mission.predicates| ==>
          (r == Accepted(Some(mission.predicates[i])) <==> OpenFirst(snapshots, mission, i)))
    && (r == Accepted(None) <==> NothingOpen(snapshots, mission))
    && (r == Rejected(ReadbackIndeterminate) <==> NotRead(snapshots, mission))
    && (r.Rejected? ==> r.code == ReadbackIndeterminate)
    && (r.Accepted? && r.value.Some? ==> exists i: nat :: OpenFirst(snapshots, mission, i)
                                                          && r.value.value == mission.predicates[i])
  }

  lemma FirstFalseScans(snapshots: map<(string, int), MissionReadback>, mission: Mission)
    ensures Scans(snapshots, mission, FirstFalse(snapshots, mission))
  {
    var truths, r := MissionTruths(snapshots, mission), FirstFalse(snapshots, mission);
    assert (mission.missionId, mission.revision) !in snapshots ==>
        |truths| == |mission.predicates|
        && forall j :: 0 <= j < |truths| ==> truths[j] == if mission.predicates[j].satisfied then Satisfied
          else Unsatisfied;
    forall i, j | 0 <= i < j < |mission.predicates| ensures mission.predicates[i] != mission.predicates[j] {
      assert Keys(mission.predicates)[i] != Keys(mission.predicates)[j];
    }
    var common := if |truths| < |mission.predicates| then |truths| else |mission.predicates|;
    assert forall j :: 0 <= j < common ==> truths[..common][j] == truths[j];
    if r.Accepted? && r.value.Some? {
      assert OpenFirst(snapshots, mission, FirstIndex(truths, Unsatisfied));
    }
  }

  // ----- packets and leases --------------------------------------------------------------

  predicate RouteMatches(mission: Mission, p: PacketBody) {
    && p.missionMode == mission.mode
    && p.destination == mission.destination
    && var route := FindRoute(mission.routes, p.routeId);
    && route.Some?
    && route.value.predicateKey == p.predicateKey
    && route.value.executorId == p.executorId
    && route.value.scope == p.scope
    && route.value.expectedDelta == p.expectedDelta
    && route.value.abandonIf == p.abandonIf
    && route.value.recoveryBudget == p.recoveryBudget
  }

  predicate CurrentMission(missions: map<string, Mission>, p: PacketBody) {
    p.missionId in missions && missions[p.missionId].revision == p.missionRevision
  }

  predicate RouteDisposed(dispositions: map<(string, int, string), RouteDisposition>, p: PacketBody) {
    (p.missionId, p.missionRevision, p.routeId) in dispositions
  }

  function ValidatePacket(s: Store, packet: TaskPacket): Outcome<()> {
    var p := packet.body;
    if !PacketIdentity(packet) then Rejected(ReplayIdentityConflict)
    else if !CurrentMission(s.parent.missions, p) then Rejected(StaleIdentity)
    else
      var mission := s.parent.missions[p.missionId];
      var first := FirstFalse(s.parent.snapshots, mission);
      if !first.Accepted? then first.Fail()
      else if first.value.None? || first.value.value.key != p.predicateKey then Rejected(StaleIdentity)
      else if FindRoute(mission.routes, p.routeId).Some?
              && (mission.missionId, mission.revision, p.routeId) in s.parent.dispositions then Rejected(StaleIdentity)
      else if !RouteMatches(mission, p) then Rejected(StaleIdentity)
      else Accepted(())
  }

  function ScopeSnapshot(versions: map<string, int>, scope: seq<string>): (r: seq<(string, int)>)
    ensures |r| == |scope|
    ensures forall i :: 0 <= i < |r| ==> r[i] == (scope[i], GetOr(versions, scope[i], 0))
  {
    seq(|scope|, i requires 0 <= i < |scope| => (scope[i], GetOr(versions, scope[i], 0)))
  }

  function Bumped(versions: seq<(string, int)>): (r: seq<(string, int)>)
    ensures |r| == |versions|
    ensures forall i :: 0 <= i < |r| ==> r[i] == (versions[i].0, versions[i].1 + 1)
  {
    seq(|versions|, i requires 0 <= i < |versions| => (versions[i].0, versions[i].1 + 1))
  }

  function SetVersions(versions: map<string, int>, claimed: seq<(string, int)>): map<string, int>
    decreases claimed
  {
    if claimed == [] then versions
    else SetVersions(versions[claimed[0].0 := claimed[0].1], claimed[1..])
  }

  predicate Overlaps(left: seq<string>, right: seq<string>) {
    exists item :: item in left && item in right
  }

  function ClaimGuard(s: Store, packet: TaskPacket): Outcome<()> {
    var check := ValidatePacket(s, packet);
    if !check.Accepted? then check
    else if packet.packetId in s.claims.leases then Rejected(DuplicateOrReplay)
    else if exists id :: id in s.claims.active && Overlaps(packet.body.scope, s.claims.active[id].scope) then
      Rejected(LeaseConflict)
    else if ScopeSnapshot(s.claims.versions, packet.body.scope) != packet.body.scopeVersions then Rejected(CasMismatch)
    else Accepted(())
  }

  function LeaseFor(packet: TaskPacket): Lease {
    var claimed := Bumped(packet.body.scopeVersions);
    Lease(LeaseDigest(packet.packetId, claimed), packet.packetId, packet.body.scope, claimed)
  }

  function AddClaim(t: ClaimTable, packet: TaskPacket): ClaimTable {
    var lease := LeaseFor(packet);
    ClaimTable(SetVersions(t.versions, lease.scopeVersions), t.active[lease.leaseId := lease],
               t.leases[packet.packetId := lease], t.packets[packet.packetId := packet])
  }

  function Claim(s: Store, packet: TaskPacket): (Store, Outcome<Lease>) {
    var check := ClaimGuard(s, packet);
    if !check.Accepted? then (s, check.Fail())
    else (s.(claims := AddClaim(s.claims, packet)), Accepted(LeaseFor(packet)))
  }

  predicate HoldsLease(s: Store, packet: TaskPacket, lease: Lease) {
    && Get(s.claims.active, lease.leaseId) == Some(lease)
    && Get(s.claims.packets, packet.packetId) == Some(packet)
    && Get(s.claims.leases, packet.packetId) == Some(lease)
    && lease.packetId == packet.packetId
  }

  /** `_validate_active_claim`, with and without the current-mission requirement. */
  function ValidateClaim(s: Store, packet: TaskPacket, lease: Lease, currentMission: bool): Outcome<()> {
    var check := if currentMission then ValidatePacket(s, packet) else Accepted(());
    if !check.Accepted? then check
    else if !HoldsLease(s, packet, lease) then Rejected(StaleIdentity)
    else Accepted(())
  }

  function BeginExecution(s: Store, packet: TaskPacket, lease: Lease): (Store, Outcome<()>) {
    if packet.packetId in s.work.started || packet.packetId in s.work.receiptOf then (s, Rejected(DuplicateOrReplay))
    else
      var check := ValidateClaim(s, packet, lease, true);
      if !check.Accepted? then (s, check)
      else (s.(work := s.work.(started := s.work.started + {packet.packetId})), Accepted(()))
  }

  // ----- steps and recovery --------------------------------------------------------------

  function FindAction(graph: seq<RecoveryAction>, actionId: Digest): (r: Option<RecoveryAction>)
    ensures r.Some? ==> r.value in graph && r.value.actionId == actionId
  {
    if graph == [] then None
    else if graph[0].actionId == actionId then Some(graph[0])
    else FindAction(graph[1..], actionId)
  }

  predicate RecoveryParentKnown(t: StepTable, packetId: Digest, binding: RecoveryBinding) {
    binding.parentStepId in t.steps && t.steps[binding.parentStepId].body.packetId == packetId
  }

  /** The step repeats, operation and effect class included, an action of an admitted proposal. */
  predicate RecoveryActionAdmitted(t: RecoveryTable, packetId: Digest, leaseId: Digest, step: StepBody,
                                   binding: RecoveryBinding) {
    && binding.admissionId in t.admissionById
    && var admission := t.admissionById[binding.admissionId].body;
    && admission.state == Admitted
    && admission.packetId == packetId
    && admission.leaseId == leaseId
    && admission.proposalId in t.proposals
    && t.proposals[admission.proposalId].body.blockerId == admission.blockerId
    && var action := FindAction(t.proposals[admission.proposalId].body.actionGraph, binding.actionId);
    && action.Some?
    && action.value.body.operationDigest == step.operationDigest
    && action.value.body.effectClass == step.effectClass
  }

  function StepGuard(s: Store, packet: TaskPacket, lease: Lease, step: StepAttempt): Outcome<()> {
    var check := ValidateClaim(s, packet, lease, true);
    if !check.Accepted? then check
    else if packet.packetId !in s.work.started then Rejected(StaleIdentity)
    else if step.body.packetId != packet.packetId || step.body.leaseId != lease.leaseId then Rejected(StaleIdentity)
    else if !StepIdentity(step) then Rejected(ReplayIdentityConflict)
    else if step.body.recovery.Some? && !RecoveryParentKnown(s.trail, packet.packetId, step.body.recovery.value) then
      Rejected(StaleIdentity)
    else if step.body.recovery.Some?
            && !RecoveryActionAdmitted(s.recovery, packet.packetId, lease.leaseId, step.body,
                                       step.body.recovery.value) then
      Rejected(StaleIdentity)
    else if step.stepId in s.trail.steps then
      if s.trail.steps[step.stepId] == step then Accepted(()) else Rejected(ReplayIdentityConflict)
    else if step.body.effectId.Some? && step.body.effectId.value in s.trail.stepEffectOwner
            && s.trail.stepEffectOwner[step.body.effectId.value] != step.stepId then
      Rejected(ReplayIdentityConflict)
    else Accepted(())
  }

  function AddStep(t: StepTable, step: StepAttempt): StepTable {
    StepTable(t.steps[step.stepId := step],
              t.stepsOf[step.body.packetId := GetOr(t.stepsOf, step.body.packetId, []) + [step.stepId]],
              if step.body.effectId.Some? then t.stepEffectOwner[step.body.effectId.value := step.stepId]
              else t.stepEffectOwner,
              t.stepReconciliations)
  }

  /** Recording an identical step again changes nothing. */
  function RecordStepAttempt(s: Store, packet: TaskPacket, lease: Lease, step: StepAttempt)
    : (Store, Outcome<StepAttempt>)
  {
    var check := StepGuard(s, packet, lease, step);
    if !check.Accepted? then (s, check.Fail())
    else if step.stepId in s.trail.steps then (s, Accepted(step))
    else (s.(trail := AddStep(s.trail, step)), Accepted(step))
  }

  function EffectiveState(t: StepTable, id: Digest): EffectState
    requires id in t.steps
  {
    if id in t.stepReconciliations then t.stepReconciliations[id].body.effectState else t.steps[id].body.effectState
  }

  predicate OpenStep(t: StepTable, id: Digest) {
    id in t.steps && EffectiveState(t, id).Unsettled?
  }

  /** Some recorded step of the packet has an unresolved effect. */
  predicate HasOpenStep(t: StepTable, packetId: Digest) {
    exists id :: id in GetOr(t.stepsOf, packetId, []) && OpenStep(t, id)
  }

  predicate ReconciliationBinds(t: StepTable, packet: TaskPacket, lease: Lease, r: StepReconciliationBody) {
    && r.stepId in t.steps
    && t.steps[r.stepId].body.packetId == packet.packetId
    && t.steps[r.stepId].body.leaseId == lease.leaseId
    && r.packetId == packet.packetId
    && r.leaseId == lease.leaseId
    && t.steps[r.stepId].body.effectState == Unsettled
    && Some(r.effectId) == t.steps[r.stepId].body.effectId
  }

  function AddReconciliation(t: StepTable, id: Digest, r: StepReconciliation): StepTable {
    t.(stepReconciliations := t.stepReconciliations[id := r])
  }

  function ReconcileStepEffect(s: Store, packet: TaskPacket, lease: Lease, r: StepReconciliation)
    : (Store, Outcome<StepReconciliation>)
  {
    var check := ValidateClaim(s, packet, lease, true);
    if !check.Accepted? then (s, check.Fail())
    else if !ReconciliationBinds(s.trail, packet, lease, r.body) then (s, Rejected(StaleIdentity))
    else if !StepReconciliationIdentity(r) then (s, Rejected(ReplayIdentityConflict))
    else
      var id := s.trail.steps[r.body.stepId].stepId;
      if id in s.trail.stepReconciliations then
        (s, if s.trail.stepReconciliations[id] == r then Accepted(r) else Rejected(ReplayIdentityConflict))
      else (s.(trail := AddReconciliation(s.trail, id, r)), Accepted(r))
  }

  predicate BlockerBindsStep(t: StepTable, packetId: Digest, blocker: BlockerBody)
    requires blocker.stepId.Some?
  {
    && blocker.stepId.value in t.steps
    && t.steps[blocker.stepId.value].body.packetId == packetId
    && blocker.effectState == EffectiveState(t, blocker.stepId.value)
    && var effect := t.steps[blocker.stepId.value].body.effectId;
    && blocker.observedEffectIds == if effect.None? then [] else [effect.value]
  }

  function BlockerGuard(s: Store, packet: TaskPacket, lease: Lease, blocker: BlockerReport): Outcome<()> {
    var check := ValidateClaim(s, packet, lease, true);
    var b := blocker.body;
    if !check.Accepted? then check
    else if b.missionId != packet.body.missionId || b.missionRevision != packet.body.missionRevision
            || b.packetId != packet.packetId || b.leaseId != lease.leaseId then Rejected(StaleIdentity)
    else if !BlockerIdentity(blocker) then Rejected(ReplayIdentityConflict)
    else if b.stepId.None? && !b.effectState.NoEffect? then Rejected(StaleIdentity)
    else if b.stepId.Some? && !BlockerBindsStep(s.trail, packet.packetId, b) then Rejected(StaleIdentity)
    else Accepted(())
  }

  function RecordBlocker(s: Store, packet: TaskPacket, lease: Lease, blocker: BlockerReport)
    : (Store, Outcome<BlockerReport>)
  {
    var check := BlockerGuard(s, packet, lease, blocker);
    if !check.Accepted? then (s, check.Fail())
    else if blocker.blockerId in s.recovery.blockers then
      (s, if s.recovery.blockers[blocker.blockerId] == blocker then Accepted(blocker)
       else Rejected(ReplayIdentityConflict))
    else (s.(recovery := s.recovery.(blockers := s.recovery.blockers[blocker.blockerId := blocker])), Accepted(blocker))
  }

  predicate WithinScope(inner: seq<string>, outer: seq<string>) {
    forall item :: item in inner ==> item in outer
  }

  predicate Protected(effectClass: EffectClass) { effectClass.IrreversibleLocal? || effectClass.External? }

  predicate ScopeExpands(packet: PacketBody, p: ProposalBody) {
    || !WithinScope(p.requiredScope, packet.scope)
    || exists a :: a in p.actionGraph && !WithinScope(a.body.scope, packet.scope)
  }

  predicate HasProtectedEffect(p: ProposalBody) {
    exists a :: a in p.actionGraph && Protected(a.body.effectClass)
  }

  function When(condition: bool, reason: Reason): (r: seq<Reason>)
    ensures r == [] <==> !condition
  {
    if condition then [reason] else []
  }

  function ReasonsFor(packet: PacketBody, b: BlockerBody, p: ProposalBody, open: bool, consumed: int): seq<Reason> {
    When(ScopeExpands(packet, p), ScopeExpansion)
    + When(p.authorityDelta != 0, AuthorityExpansion)
    + When(b.retrySafety != SafeLocal, RetryNotSafeLocal)
    + When(b.blockerClass != Diagnostic && b.blockerClass != PlanGap, BlockerRequiresParentAuthority)
    + When(b.effectState.Unsettled? || open, StepEffectUnsettled)
    + When(p.verificationPlan == [], VerificationPlanRequired)
    + When(p.actionGraph == [], ActionGraphRequired)
    + When(HasProtectedEffect(p), NewProtectedEffect)
    + When(p.predicateKey != packet.predicateKey, PredicateMismatch)
    + When(p.expectedDelta != packet.expectedDelta, ExpectedDeltaMismatch)
    + When(p.destination != packet.destination, DestinationMismatch)
    + When(p.budget <= 0 || consumed + p.budget > packet.recoveryBudget, RecoveryBudgetExhausted)
  }

  function AdmissionReasons(s: Store, packet: TaskPacket, b: BlockerBody, p: ProposalBody): seq<Reason> {
    ReasonsFor(packet.body, b, p, HasOpenStep(s.trail, packet.packetId),
               GetOr(s.recovery.budgetConsumed, packet.packetId, 0))
  }

  function RecoveryFingerprint(blocker: BlockerReport, proposal: RecoveryProposal): Digest {
    FingerprintDigest(blocker.blockerId, blocker.body.stateDigest, proposal.actionFingerprint)
  }

  function AdmissionGuard(s: Store, packet: TaskPacket, lease: Lease, blocker: BlockerReport,
                          proposal: RecoveryProposal)
    : Outcome<()>
  {
    var check := ValidateClaim(s, packet, lease, true);
    if !check.Accepted? then check
    else if Get(s.recovery.blockers, blocker.blockerId) != Some(blocker) then Rejected(StaleIdentity)
    else if proposal.body.blockerId != blocker.blockerId || proposal.body.packetId != packet.packetId
            || proposal.body.leaseId != lease.leaseId then Rejected(StaleIdentity)
    else if !ProposalIdentity(proposal) then Rejected(ReplayIdentityConflict)
    else Accepted(())
  }

  function Judgement(s: Store, packet: TaskPacket, lease: Lease, blocker: BlockerReport, proposal: RecoveryProposal)
    : RecoveryAdmission
  {
    var reasons := AdmissionReasons(s, packet, blocker.body, proposal.body);
    var fingerprint := RecoveryFingerprint(blocker, proposal);
    var seen := fingerprint in s.recovery.fingerprints;
    var state := if seen then Duplicate else if reasons != [] then Escalated else Admitted;
    var body := AdmissionBody(proposal.proposalId, blocker.blockerId, packet.packetId, lease.leaseId, state,
                              if seen then [DuplicateFingerprint] else reasons, fingerprint);
    RecoveryAdmission(AdmissionDigest(body), body)
  }

  function AddAdmission(t: RecoveryTable, proposal: RecoveryProposal, admission: RecoveryAdmission): RecoveryTable {
    var a := admission.body;
    RecoveryTable(t.blockers,
                  t.proposals[proposal.proposalId := proposal],
                  t.admissions[proposal.proposalId := admission],
                  t.admissionById[admission.admissionId := admission],
                  if a.state == Admitted then t.fingerprints + {a.recoveryFingerprint} else t.fingerprints,
                  if a.state == Admitted
                  then t.budgetConsumed[a.packetId := GetOr(t.budgetConsumed, a.packetId, 0) + proposal.body.budget]
                  else t.budgetConsumed)
  }

  /** A proposal already judged keeps its first judgement. */
  function AdmitRecovery(s: Store, packet: TaskPacket, lease: Lease, blocker: BlockerReport, proposal: RecoveryProposal)
    : (Store, Outcome<RecoveryAdmission>)
  {
    var check := AdmissionGuard(s, packet, lease, blocker, proposal);
    if !check.Accepted? then (s, check.Fail())
    else if proposal.proposalId in s.recovery.admissions then (s, Accepted(s.recovery.admissions[proposal.proposalId]))
    else
      var admission := Judgement(s, packet, lease, blocker, proposal);
      (s.(recovery := AddAdmission(s.recovery, proposal, admission)), Accepted(admission))
  }

  // ----- terminal receipts ---------------------------------------------------------------

  /** What a terminal receipt says beyond the packet and lease it closes. */
  datatype Ending = Ending(status: TerminalStatus, effectId: Option<string>, effectState: EffectState,
                           outputDigest: Digest, settlementProof: Option<Digest>, predicateSatisfied: bool,
                           failure: Option<(FailureCode, FailureOrigin)>)

  function ReceiptFor(packet: TaskPacket, lease: Lease, e: Ending): TerminalReceipt {
    var body := ReceiptBody(packet.body.missionId, packet.body.missionRevision, packet.packetId, lease.leaseId,
                            packet.body.executorId, e.status, e.effectId, e.effectState, e.outputDigest,
                            e.settlementProof, e.predicateSatisfied, e.failure);
    TerminalReceipt(ReceiptDigest(body), body)
  }

  function AddReceipt(s: Store, receipt: TerminalReceipt): Store {
    s.(work := s.work.(receipts := s.work.receipts[receipt.receiptId := receipt],
                       receiptOf := s.work.receiptOf[receipt.body.packetId := receipt]),
       claims := s.claims.(active := s.claims.active - {receipt.body.leaseId}))
  }

  /** `_persist_terminal` checks everything once more before it writes. */
  function PersistTerminal(s: Store, packet: TaskPacket, lease: Lease, ending: Ending)
    : (Store, Outcome<TerminalReceipt>)
  {
    if packet.packetId in s.work.receiptOf then (s, Rejected(DuplicateOrReplay))
    else if !HoldsLease(s, packet, lease) then (s, Rejected(StaleIdentity))
    else if HasOpenStep(s.trail, packet.packetId) then (s, Rejected(UnsettledEffect))
    else
      var receipt := ReceiptFor(packet, lease, ending);
      (AddReceipt(s, receipt), Accepted(receipt))
  }

  function TerminalizePreExecution(s: Store, packet: TaskPacket, lease: Lease, code: FailureCode, detail: string)
    : (Store, Outcome<TerminalReceipt>)
  {
    if packet.packetId in s.work.started then (s, Rejected(DuplicateOrReplay))
    else if !HoldsLease(s, packet, lease) then (s, Rejected(StaleIdentity))
    else PersistTerminal(s, packet, lease, Ending(Blocked, None, NoEffect, PreExecutionDigest(code, detail), None,
                                                  false,
                                                 Some((code, FromHarness))))
  }

  function RecordExecutionFailure(s: Store, packet: TaskPacket, lease: Lease, code: FailureCode, detail: Digest,
                                  observed: Option<string>, origin: FailureOrigin): (Store, Outcome<ExecutionFailure>)
  {
    if !HoldsLease(s, packet, lease) then (s, Rejected(StaleIdentity))
    else if packet.packetId !in s.work.started then (s, Rejected(StaleIdentity))
    else if packet.packetId in s.work.failures
      || packet.packetId in s.work.receiptOf then (s, Rejected(DuplicateOrReplay))
    else if detail.FreeText? && Blank(detail.text) then (s, Crashed)
    else if !(if origin.FromExecutor? then ExecutorCode(code) else ReconcilableCode(code)) then
      (s, Rejected(InvalidFailureCode))
    else
      var body := FailureBody(packet.packetId, lease.leaseId, code, detail, observed, origin);
      var failure := ExecutionFailure(FailureDigest(body), body);
      (s.(work := s.work.(
            failures := s.work.failures[packet.packetId := failure],
            effectOwner := if observed.Some? && observed.value !in s.work.effectOwner
                         then s.work.effectOwner[observed.value := packet.packetId] else s.work.effectOwner)),
                           Accepted(failure))
  }

  function FailureGuard(s: Store, packet: TaskPacket, lease: Lease, r: FailureReconciliation): Outcome<()> {
    if packet.packetId !in s.work.failures || packet.packetId in s.work.receiptOf then Rejected(DuplicateOrReplay)
    else if !HoldsLease(s, packet, lease) then Rejected(StaleIdentity)
    else if HasOpenStep(s.trail, packet.packetId) then Rejected(UnsettledEffect)
    else
      var failure := s.work.failures[packet.packetId].body;
      if r.packetId != packet.packetId || r.leaseId != lease.leaseId || r.failureCode != failure.failureCode then
        Rejected(StaleIdentity)
      else if r.effectState.Settled? && failure.observedEffectId.Some? && r.effectId != failure.observedEffectId then
        Rejected(StaleIdentity)
      else if r.effectState.Settled? && r.effectId.value in s.work.effectOwner
              && s.work.effectOwner[r.effectId.value] != packet.packetId then Rejected(DuplicateOrReplay)
      else Accepted(())
  }

  /** A settled effect becomes the packet's; a proven absence gives back an effect it only observed. */
  function OwnersAfterFailure(owners: map<string, Digest>, p: Digest, observed: Option<string>,
                              r: FailureReconciliation)
    : map<string, Digest>
  {
    if r.effectState.Settled? then owners[r.effectId.value := p]
    else if observed.Some? && Get(owners, observed.value) == Some(p) then owners - {observed.value}
    else owners
  }

  function ReconcileFailure(s: Store, packet: TaskPacket, lease: Lease, r: FailureReconciliation)
    : (Store, Outcome<TerminalReceipt>)
  {
    var check := FailureGuard(s, packet, lease, r);
    if !check.Accepted? then (s, check.Fail())
    else
      var failure := s.work.failures[packet.packetId].body;
      var owners := OwnersAfterFailure(s.work.effectOwner, packet.packetId, failure.observedEffectId, r);
      PersistTerminal(s.(work := s.work.(effectOwner := owners)), packet, lease,
                      Ending(Failed, r.effectId, r.effectState, r.outputDigest, Some(r.proofDigest), false,
                             Some((failure.failureCode, failure.origin))))
  }

  /** The failure branches record the failure first and then raise; if recording it is itself
      rejected, that rejection propagates instead. */
  function RecordThenReject(s: Store, packet: TaskPacket, lease: Lease, code: FailureCode, detail: Digest,
                            effectId: string): (Store, Outcome<TerminalReceipt>)
  {
    var (s', recorded) := RecordExecutionFailure(s, packet, lease, code, detail, Some(effectId), FromHarness);
    (s', if recorded.Accepted? then Rejected(code) else recorded.Fail())
  }

  function ResultGuard(s: Store, packet: TaskPacket, lease: Lease): Outcome<()> {
    if !HoldsLease(s, packet, lease) then Rejected(StaleIdentity)
    else if HasOpenStep(s.trail, packet.packetId) then Rejected(UnsettledEffect)
    else if packet.packetId !in s.work.started then Rejected(StaleIdentity)
    else if packet.packetId in s.work.attempts then Rejected(DuplicateOrReplay)
    else Accepted(())
  }

  predicate ResultMatches(packet: TaskPacket, lease: Lease, result: ResultRecord) {
    && result.executorId == packet.body.executorId
    && result.packetId == packet.packetId
    && result.leaseId == lease.leaseId
  }

  function AddAttempt(t: WorkTable, p: Digest, result: ExecutionResult): WorkTable {
    t.(attempts := t.attempts[p := result], effectOwner := t.effectOwner[result.effectId := p])
  }

  function RecordExecution(s: Store, packet: TaskPacket, lease: Lease, result: ExecutionResult)
    : (Store, Outcome<TerminalReceipt>)
  {
    var check := ResultGuard(s, packet, lease);
    if !check.Accepted? then (s, check.Fail())
    else if !ResultMatches(packet, lease, result) then
      RecordThenReject(s, packet, lease, StaleIdentity, ResultMismatchDigest(packet.packetId, lease.leaseId),
                       result.effectId)
    else if result.effectId in s.work.effectOwner then
      RecordThenReject(s, packet, lease, DuplicateOrReplay,
                       DuplicateEffectDigest(result.effectId, s.work.effectOwner[result.effectId]), result.effectId)
    else
      var s1 := s.(work := AddAttempt(s.work, packet.packetId, result));
      if !result.effectState.Settled? then (s1, Rejected(UnsettledEffect))
      else PersistTerminal(s1, packet, lease,
                           Ending(Succeeded, Some(result.effectId), Settled, result.outputDigest,
                                  Some(result.outputDigest), result.predicateSatisfied, None))
  }

  function EffectGuard(s: Store, packet: TaskPacket, lease: Lease, r: EffectReconciliation): Outcome<()> {
    if packet.packetId !in s.work.attempts || !s.work.attempts[packet.packetId].effectState.Unsettled? then
      Rejected(DuplicateOrReplay)
    else if !HoldsLease(s, packet, lease) then Rejected(StaleIdentity)
    else if HasOpenStep(s.trail, packet.packetId) then Rejected(UnsettledEffect)
    else if r.packetId != packet.packetId || r.leaseId != lease.leaseId
            || r.effectId != s.work.attempts[packet.packetId].effectId then Rejected(StaleIdentity)
    else if !r.effectState.Settled? then Rejected(UnsettledEffect)
    else Accepted(())
  }

  function ReconcileEffect(s: Store, packet: TaskPacket, lease: Lease, r: EffectReconciliation)
    : (Store, Outcome<TerminalReceipt>)
  {
    var check := EffectGuard(s, packet, lease, r);
    if !check.Accepted? then (s, check.Fail())
    else
      var settled := s.work.attempts[packet.packetId].(effectState := Settled);
      PersistTerminal(s.(work := s.work.(attempts := s.work.attempts[packet.packetId := settled])), packet, lease,
                      Ending(Succeeded, Some(settled.effectId), Settled, settled.outputDigest, Some(r.proofDigest),
                             settled.predicateSatisfied, None))
  }

  // ----- continuations -------------------------------------------------------------------

  function NewContinuation(receiptId: Digest, destination: Destination): Continuation {
    var id := ContinuationDigest(receiptId, destination);
    Continuation(id, receiptId, destination, TurnRequestDigest(id, receiptId, destination), Prepared)
  }

  function PrepareContinuation(s: Store, receipt: TerminalReceipt): (Store, Outcome<Continuation>) {
    if Get(s.work.receipts, receipt.receiptId) != Some(receipt) then (s, Rejected(StaleIdentity))
    else if receipt.receiptId in s.delivery.continuationOf then
      if s.delivery.continuationOf[receipt.receiptId] !in s.delivery.continuations then (s, Crashed)
      else
        var existing := s.delivery.continuations[s.delivery.continuationOf[receipt.receiptId]];
        (s, match existing.state
            case Prepared => Accepted(existing)
            case DeliveryUnsettled => Rejected(CallbackDeliveryUnsettled)
            case _ => Rejected(DuplicateOrReplay))
    else if receipt.body.packetId !in s.claims.packets then (s, Crashed)
    else
      var c := NewContinuation(receipt.receiptId, s.claims.packets[receipt.body.packetId].body.destination);
      (s.(delivery := s.delivery.(
            continuations := s.delivery.continuations[c.continuationId := c],
            continuationOf := s.delivery.continuationOf[receipt.receiptId := c.continuationId])), Accepted(c))
  }

  predicate IsCurrent(s: Store, c: Continuation, state: ContinuationState) {
    Get(s.delivery.continuations, c.continuationId) == Some(c) && c.state == state
  }

  function ValidatePrepared(s: Store, c: Continuation, receipt: TerminalReceipt): Outcome<()> {
    if c.continuationId in s.delivery.continuations
      && s.delivery.continuations[c.continuationId].state == DeliveryUnsettled then
      Rejected(CallbackDeliveryUnsettled)
    else if !IsCurrent(s, c, Prepared) || c.receiptId != receipt.receiptId
            || Get(s.work.receipts, receipt.receiptId) != Some(receipt) then Rejected(ReplayIdentityConflict)
    else Accepted(())
  }

  function ValidateResume(s: Store, c: Continuation, proof: ResumeProof): Outcome<Continuation> {
    if !IsCurrent(s, c, Prepared) then Rejected(DuplicateOrReplay)
    else if proof.continuationId != c.continuationId || proof.destination != c.destination then
      Rejected(CallbackTargetMismatch)
    else if Blank(proof.resumeToken) then Crashed
    else Accepted(c)
  }

  function BeginDelivery(s: Store, c: Continuation, receipt: TerminalReceipt): (Store, Outcome<Continuation>) {
    if !IsCurrent(s, c, Prepared) || c.receiptId != receipt.receiptId
       || Get(s.work.receipts, receipt.receiptId) != Some(receipt) then (s, Rejected(ReplayIdentityConflict))
    else
      var c' := c.(state := DeliveryStarted);
      (s.(delivery := s.delivery.(continuations := s.delivery.continuations[c.continuationId := c'])), Accepted(c'))
  }

  function MarkDeliveryUnsettled(s: Store, c: Continuation, receipt: TerminalReceipt): (Store, Outcome<Continuation>) {
    if !IsCurrent(s, c, DeliveryStarted) || c.receiptId != receipt.receiptId then (s, Rejected(ReplayIdentityConflict))
    else
      var c' := c.(state := DeliveryUnsettled);
      (s.(delivery := s.delivery.(continuations := s.delivery.continuations[c.continuationId := c'])), Accepted(c'))
  }

  /** `_acknowledge_delivery`: the receipt is the caller's and is not looked up. */
  function AcknowledgeDelivery(s: Store, c: Continuation, receipt: TerminalReceipt, proof: ConvergenceProof,
                               expected: ContinuationState): (Store, Outcome<(Continuation, Acknowledgement)>)
  {
    var body := proof.body;
    if !IsCurrent(s, c, expected) then (s, Rejected(DuplicateOrReplay))
    else if c.receiptId != receipt.receiptId || body.continuationId != c.continuationId
            || body.receiptId != receipt.receiptId || body.destination != c.destination
            || body.turnRequestId != c.turnRequestId then (s, Rejected(CallbackTargetMismatch))
    else if !body.completed || Blank(body.completedTurnId) then (s, Rejected(ConvergenceNotProven))
    else if !ConvergenceIdentity(proof) then (s, Rejected(ReplayIdentityConflict))
    else
      var ack := SealAck(AckBody(receipt.body.packetId, receipt.receiptId, c.continuationId, proof.proofId));
      var c' := c.(state := Acknowledged);
      (s.(delivery := s.delivery.(
            continuations := s.delivery.continuations[c.continuationId := c'],
            acks := s.delivery.acks[ack.ackId := ack],
            ackOf := s.delivery.ackOf[receipt.body.packetId := ack])), Accepted((c', ack)))
  }

  predicate ProvesAbsence(c: Continuation, receipt: TerminalReceipt, r: ContinuationReconciliation,
                          proof: Option<DeliveryProof>) {
    && proof.Some? && proof.value.OfAbsence?
    && r.proofDigest == CanonicalProof(proof.value)
    && AbsenceIdentity(proof.value.absence)
    && var absence := proof.value.absence.body;
    && absence.continuationId == c.continuationId
    && absence.receiptId == receipt.receiptId
    && absence.destination == c.destination
    && absence.turnRequestId == c.turnRequestId
  }

  function ReconcileContinuation(s: Store, receipt: TerminalReceipt, r: ContinuationReconciliation,
                                 proof: Option<DeliveryProof>)
    : (Store, Outcome<(Continuation, Option<Acknowledgement>)>)
  {
    if r.continuationId !in s.delivery.continuations
      || s.delivery.continuations[r.continuationId].state != DeliveryUnsettled
       || Get(s.work.receipts, receipt.receiptId) != Some(receipt) then (s, Rejected(DuplicateOrReplay))
    else
      var c := s.delivery.continuations[r.continuationId];
      if r.receiptId != receipt.receiptId || c.receiptId != receipt.receiptId || r.turnRequestId != c.turnRequestId then
        (s, Rejected(StaleIdentity))
      else if r.verdict.NotDelivered? then
        if !ProvesAbsence(c, receipt, r, proof) then (s, Rejected(ConvergenceNotProven))
        else
          var c' := c.(state := Prepared);
          (s.(delivery := s.delivery.(continuations := s.delivery.continuations[c.continuationId := c'])),
           Accepted((c', None)))
      else if !(proof.Some? && proof.value.OfConvergence? && r.proofDigest == CanonicalProof(proof.value)) then
        (s, Rejected(ConvergenceNotProven))
      else
        var (s', outcome) := AcknowledgeDelivery(s, c, receipt, proof.value.convergence, DeliveryUnsettled);
        (s', if outcome.Accepted? then Accepted((outcome.value.0, Some(outcome.value.1))) else outcome.Fail())
  }

  // ----- parent readback -----------------------------------------------------------------

  function ReadKeys(predicates: seq<PredicateReadback>): (r: seq<string>)
    ensures |r| == |predicates|
    ensures forall i :: 0 <= i < |r| ==> r[i] == predicates[i].predicateKey
  {
    seq(|predicates|, i requires 0 <= i < |predicates| => predicates[i].predicateKey)
  }

  function FindReadback(predicates: seq<PredicateReadback>, key: string): (r: Option<PredicateReadback>)
    ensures r.Some? ==> r.value in predicates && r.value.predicateKey == key
    ensures r.None? ==> key !in ReadKeys(predicates)
  {
    if predicates == [] then None
    else if predicates[0].predicateKey == key then Some(predicates[0])
    else
      assert forall i :: 1 <= i < |predicates| ==> ReadKeys(predicates)[i] == ReadKeys(predicates[1..])[i - 1];
      FindReadback(predicates[1..], key)
  }

  /** What the readback says comes next: the first indeterminate predicate, else the first
      unsatisfied one, else nothing. */
  function NextStep(predicates: seq<PredicateReadback>): (Option<string>, NextAction) {
    var truths := ReadTruths(predicates);
    var unknown := FirstIndex(truths, Indeterminate);
    var open := FirstIndex(truths, Unsatisfied);
    if unknown < |truths| then (Some(predicates[unknown].predicateKey), ReadbackRecheck)
    else if open < |truths| then (Some(predicates[open].predicateKey), RouteSelection)
    else (None, MissionComplete)
  }

  function VerificationOf(packet: PacketBody, mission: Mission, truth: Truth, ack: Acknowledgement,
                          readback: MissionReadback)
    : MissionVerification
  {
    var (nextKey, nextAction) := NextStep(readback.body.predicates);
    var body := VerificationBody(mission.missionId, mission.revision, readback.body.parentRevision,
                                 readback.body.parentSequence, packet.predicateKey, truth, nextKey, nextAction,
                                 ack.ackId, readback.readbackId, readback.body.evidenceDigest);
    MissionVerification(VerificationDigest(body), body)
  }

  function VerifyMission(s: Store, ack: Acknowledgement, readback: MissionReadback)
    : (Store, Outcome<MissionVerification>)
  {
    if Get(s.delivery.acks, ack.ackId) != Some(ack) then (s, Rejected(StaleIdentity))
    else if !AckIdentity(ack) || !ReadbackIdentity(readback) then (s, Rejected(ReplayIdentityConflict))
    else if ack.body.packetId !in s.claims.packets then (s, Crashed)
    else
      var packet := s.claims.packets[ack.body.packetId].body;
      if packet.missionId !in s.parent.missions then (s, Crashed)
      else
        var mission := s.parent.missions[packet.missionId];
        var key := (mission.missionId, mission.revision);
        if mission.revision != packet.missionRevision || readback.body.missionId != packet.missionId
           || readback.body.missionRevision != packet.missionRevision then (s, Rejected(StaleIdentity))
        else if ReadKeys(readback.body.predicates) != Keys(mission.predicates) then (s, Rejected(StaleIdentity))
        else if key in s.parent.snapshots
          && readback.body.parentSequence < s.parent.snapshots[key].body.parentSequence then
          (s, Rejected(StaleIdentity))
        else if key in s.parent.snapshots && readback.body.parentSequence == s.parent.snapshots[key].body.parentSequence
                && s.parent.snapshots[key] != readback then (s, Rejected(ReplayIdentityConflict))
        else
          var current := FindReadback(readback.body.predicates, packet.predicateKey);
          if current.None? then (s, Crashed)
          else
            var v := VerificationOf(packet, mission, current.value.truth, ack, readback);
            if v.verificationId in s.parent.verifications then (s, Accepted(s.parent.verifications[v.verificationId]))
            else (s.(parent := s.parent.(
                       snapshots := s.parent.snapshots[key := readback],
                       verifications := s.parent.verifications[v.verificationId := v])), Accepted(v))
  }

  function ReplayAcknowledged(s: Store, c: Continuation): Outcome<Digest> {
    if Get(s.delivery.continuations, c.continuationId) != Some(c) then Rejected(ReplayIdentityConflict)
    else if c.state != Acknowledged then Rejected(DuplicateOrReplay)
    else if c.receiptId !in s.work.receipts then Crashed
    else if s.work.receipts[c.receiptId].body.packetId !in s.delivery.ackOf then Rejected(ReplayIdentityConflict)
    else Accepted(s.work.receipts[c.receiptId].body.packetId)
  }

  // ----- calls and runs ------------------------------------------------------------------

  datatype Call =
    | RegisterMissionCall(mission: Mission)
    | DispositionCall(disposition: RouteDisposition)
    | SupersessionCall(supersession: MissionSupersession)
    | ClaimCall(packet: TaskPacket)
    | BeginCall(packet: TaskPacket, lease: Lease)
    | StepCall(packet: TaskPacket, lease: Lease, step: StepAttempt)
    | ReconcileStepCall(packet: TaskPacket, lease: Lease, stepReconciliation: StepReconciliation)
    | BlockerCall(packet: TaskPacket, lease: Lease, blocker: BlockerReport)
    | AdmitCall(packet: TaskPacket, lease: Lease, blocker: BlockerReport, proposal: RecoveryProposal)
    | PreExecutionCall(packet: TaskPacket, lease: Lease, code: FailureCode, detail: string)
    | FailureCall(packet: TaskPacket, lease: Lease, code: FailureCode, detailDigest: Digest,
                  observed: Option<string>, origin: FailureOrigin)
    | ReconcileFailureCall(packet: TaskPacket, lease: Lease, failureReconciliation: FailureReconciliation)
    | ResultCall(packet: TaskPacket, lease: Lease, result: ExecutionResult)
    | ReconcileEffectCall(packet: TaskPacket, lease: Lease, effectReconciliation: EffectReconciliation)
    | PrepareCall(receipt: TerminalReceipt)
    | BeginDeliveryCall(continuation: Continuation, receipt: TerminalReceipt)
    | MarkUnsettledCall(continuation: Continuation, receipt: TerminalReceipt)
    | AcknowledgeCall(continuation: Continuation, receipt: TerminalReceipt, convergence: ConvergenceProof)
    | ReconcileContinuationCall(receipt: TerminalReceipt, reconciliation: ContinuationReconciliation,
                                proof: Option<DeliveryProof>)
    | VerifyCall(ack: Acknowledgement, readback: MissionReadback)

  datatype Verdict = Done | Refused(code: FailureCode) | Died

  function VerdictOf<T>(outcome: Outcome<T>): Verdict {
    match outcome
    case Accepted(_) => Done
    case Rejected(code) => Refused(code)
    case Crashed => Died
  }

  function Judge<T>(r: (Store, Outcome<T>)): (Store, Verdict) { (r.0, VerdictOf(r.1)) }

  /** One atomic call. */
  function Apply(s: Store, call: Call): (Store, Verdict) {
    match call
    case RegisterMissionCall(m) => Judge(RegisterMission(s, m))
    case DispositionCall(d) => Judge(RecordRouteDisposition(s, d))
    case SupersessionCall(d) => Judge(RecordMissionSupersession(s, d))
    case ClaimCall(p) => Judge(Claim(s, p))
    case BeginCall(p, l) => Judge(BeginExecution(s, p, l))
    case StepCall(p, l, step) => Judge(RecordStepAttempt(s, p, l, step))
    case ReconcileStepCall(p, l, r) => Judge(ReconcileStepEffect(s, p, l, r))
    case BlockerCall(p, l, b) => Judge(RecordBlocker(s, p, l, b))
    case AdmitCall(p, l, b, proposal) => Judge(AdmitRecovery(s, p, l, b, proposal))
    case PreExecutionCall(p, l, code, detail) => Judge(TerminalizePreExecution(s, p, l, code, detail))
    case FailureCall(p, l, code, detail, observed, origin) =>
      Judge(RecordExecutionFailure(s, p, l, code, detail, observed, origin))
    case ReconcileFailureCall(p, l, r) => Judge(ReconcileFailure(s, p, l, r))
    case ResultCall(p, l, result) => Judge(RecordExecution(s, p, l, result))
    case ReconcileEffectCall(p, l, r) => Judge(ReconcileEffect(s, p, l, r))
    case PrepareCall(r) => Judge(PrepareContinuation(s, r))
    case BeginDeliveryCall(c, r) => Judge(BeginDelivery(s, c, r))
    case MarkUnsettledCall(c, r) => Judge(MarkDeliveryUnsettled(s, c, r))
    case AcknowledgeCall(c, r, proof) => Judge(AcknowledgeDelivery(s, c, r, proof, DeliveryStarted))
    case ReconcileContinuationCall(receipt, r, proof) => Judge(ReconcileContinuation(s, receipt, r, proof))
    case VerifyCall(ack, readback) => Judge(VerifyMission(s, ack, readback))
  }

  function Next(s: Store, call: Call): Store { Apply(s, call).0 }

  predicate Accepts(s: Store, call: Call) { Apply(s, call).1.Done? }

  /** The store after a whole run of calls, accepted or not. */
  function Run(s: Store, calls: seq<Call>): Store
    decreases calls
  {
    if calls == [] then s else Run(Next(s, calls[0]), calls[1..])
  }

  ghost predicate Reachable(s: Store) {
    exists calls :: Run(EMPTY, calls) == s
  }
}
