/**
 The inductive invariant of the collaboration store, stated over the fields each part
 depends on, and its preservation by every call.
 */
module StoreInvariant {
  import opened Records
  import opened StoreSpec

  // ----- leases --------------------------------------------------------------------------

  ghost predicate LeaseBinds(lease: Lease, packet: TaskPacket) {
    && |packet.body.scopeVersions| == |packet.body.scope|
    && (forall i :: 0 <= i < |packet.body.scope| ==> packet.body.scopeVersions[i].0 == packet.body.scope[i])
    && lease == LeaseFor(packet)
  }

  ghost predicate LeasesBindPackets(leases: map<Digest, Lease>, packets: map<Digest, TaskPacket>) {
    && leases.Keys == packets.Keys
    && (forall p :: p in packets ==> packets[p].packetId == p && PacketIdentity(packets[p]))
    && (forall p :: p in leases ==> LeaseBinds(leases[p], packets[p]))
  }

  /** A claimed packet's lease is active exactly until the packet has a terminal receipt. */
  ghost predicate ActiveUntilReceipt(active: map<Digest, Lease>, leases: map<Digest, Lease>, receiptOf: map<Digest,
                                     TerminalReceipt>) {
    && (forall id :: id in active ==> active[id].leaseId == id && Get(leases, active[id].packetId) == Some(active[id]))
    && (forall p :: p in leases ==> (leases[p].leaseId in active <==> p !in receiptOf))
    && receiptOf.Keys <= leases.Keys
  }

  ghost predicate Exclusive(active: map<Digest, Lease>) {
    forall a, b :: a in active && b in active && a != b ==> !Overlaps(active[a].scope, active[b].scope)
  }

  /** Every claim ever made on a scope item; leases are never forgotten. */
  ghost function ClaimsOn(leases: map<Digest, Lease>, item: string): set<Digest> {
    set p | p in leases && item in leases[p].scope
  }

  ghost predicate VersionsCountClaims(leases: map<Digest, Lease>, versions: map<string, int>) {
    forall item :: GetOr(versions, item, 0) == |ClaimsOn(leases, item)|
  }

  /** No two leases ever carry the same version of the same item, and none is from the future. */
  ghost predicate VersionsFence(leases: map<Digest, Lease>, versions: map<string, int>) {
    && (forall p, x :: p in leases && x in leases[p].scopeVersions ==> 1 <= x.1 <= GetOr(versions, x.0, 0))
    && (forall p, q, x :: p in leases && q in leases && x in leases[p].scopeVersions && x in leases[q].scopeVersions ==>
          p == q)
  }

  ghost predicate LeaseInv(t: ClaimTable, receiptOf: map<Digest, TerminalReceipt>) {
    && LeasesBindPackets(t.leases, t.packets)
    && ActiveUntilReceipt(t.active, t.leases, receiptOf)
    && Exclusive(t.active)
    && VersionsCountClaims(t.leases, t.versions)
    && VersionsFence(t.leases, t.versions)
  }

  // ----- receipts and effects --------------------------------------------------------------

  ghost predicate ReceiptBinds(r: TerminalReceipt, packets: map<Digest, TaskPacket>, leases: map<Digest, Lease>) {
    && ReceiptIdentity(r)
    && r.body.packetId in packets && r.body.packetId in leases
    && r.body.missionId == packets[r.body.packetId].body.missionId
    && r.body.missionRevision == packets[r.body.packetId].body.missionRevision
    && r.body.leaseId == leases[r.body.packetId].leaseId
    && r.body.executorId == packets[r.body.packetId].body.executorId
    && !r.body.effectState.Unsettled?
    && (r.body.effectState.Settled? <==> r.body.effectId.Some?)
  }

  ghost predicate ReceiptsBindPackets(receipts: map<Digest, TerminalReceipt>, receiptOf: map<Digest, TerminalReceipt>,
                                      packets: map<Digest, TaskPacket>, leases: map<Digest, Lease>) {
    && (forall p :: p in receiptOf ==>
          && receiptOf[p].body.packetId == p
          && ReceiptBinds(receiptOf[p], packets, leases)
          && receiptOf[p].receiptId in receipts && receipts[receiptOf[p].receiptId] == receiptOf[p])
    && (forall id :: id in receipts ==>
          && receipts[id].receiptId == id
          && receipts[id].body.packetId in receiptOf && receiptOf[receipts[id].body.packetId] == receipts[id])
  }

  ghost predicate SettledOwned(receiptOf: map<Digest, TerminalReceipt>, effectOwner: map<string, Digest>) {
    forall p :: p in receiptOf && receiptOf[p].body.effectState.Settled? && receiptOf[p].body.effectId.Some? ==>
      Get(effectOwner, receiptOf[p].body.effectId.value) == Some(p)
  }

  ghost predicate StartedOnly(started: set<Digest>, leases: map<Digest, Lease>, attempts: map<Digest, ExecutionResult>,
                              failures: map<Digest, ExecutionFailure>) {
    started <= leases.Keys && attempts.Keys <= started && failures.Keys <= started
  }

  /** An attempt that is not terminal yet is unsettled and owns its effect. */
  ghost predicate PendingOwned(attempts: map<Digest, ExecutionResult>, terminal: set<Digest>, effectOwner: map<string,
                               Digest>) {
    forall p :: p in attempts && p !in terminal ==>
      attempts[p].effectState.Unsettled? && Get(effectOwner, attempts[p].effectId) == Some(p)
  }

  ghost predicate EffectInv(t: WorkTable, packets: map<Digest, TaskPacket>, leases: map<Digest, Lease>,
                            terminal: set<Digest>) {
    && ReceiptsBindPackets(t.receipts, t.receiptOf, packets, leases)
    && SettledOwned(t.receiptOf, t.effectOwner)
    && StartedOnly(t.started, leases, t.attempts, t.failures)
    && PendingOwned(t.attempts, terminal, t.effectOwner)
  }

  // ----- steps -----------------------------------------------------------------------------

  ghost predicate StepsBind(steps: map<Digest, StepAttempt>, stepsOf: map<Digest, seq<Digest>>,
                            started: set<Digest>, leases: map<Digest, Lease>) {
    forall id :: id in steps ==>
      && steps[id].stepId == id && StepIdentity(steps[id])
      && steps[id].body.packetId in started && steps[id].body.packetId in leases
      && steps[id].body.leaseId == leases[steps[id].body.packetId].leaseId
      && id in GetOr(stepsOf, steps[id].body.packetId, [])
  }

  ghost predicate ListsSteps(steps: map<Digest, StepAttempt>, stepsOf: map<Digest, seq<Digest>>) {
    && (forall p, id :: p in stepsOf && id in stepsOf[p] ==> id in steps && steps[id].body.packetId == p)
    && (forall p :: p in stepsOf ==> Unique(stepsOf[p]))
  }

  ghost predicate Closed(t: StepTable, receiptOf: map<Digest, TerminalReceipt>) {
    forall p :: p in receiptOf ==> !HasOpenStep(t, p)
  }

  ghost predicate StepEffectsOwned(steps: map<Digest, StepAttempt>, stepEffectOwner: map<string, Digest>) {
    forall id :: id in steps && steps[id].body.effectId.Some? ==>
      Get(stepEffectOwner, steps[id].body.effectId.value) == Some(id)
  }

  ghost predicate Precedes(order: seq<Digest>, a: Digest, b: Digest) {
    exists i, j :: 0 <= i < j < |order| && order[i] == a && order[j] == b
  }

  ghost predicate RecoveryOrdered(steps: map<Digest, StepAttempt>, stepsOf: map<Digest, seq<Digest>>) {
    forall id :: id in steps && steps[id].body.recovery.Some? ==>
      Precedes(GetOr(stepsOf, steps[id].body.packetId, []), steps[id].body.recovery.value.parentStepId, id)
  }

  ghost predicate StepInv(t: StepTable, started: set<Digest>, leases: map<Digest, Lease>,
                          receiptOf: map<Digest, TerminalReceipt>) {
    && StepsBind(t.steps, t.stepsOf, started, leases)
    && ListsSteps(t.steps, t.stepsOf)
    && Closed(t, receiptOf)
    && StepEffectsOwned(t.steps, t.stepEffectOwner)
    && RecoveryOrdered(t.steps, t.stepsOf)
  }

  // ----- recovery --------------------------------------------------------------------------

  ghost predicate WithinAuthority(packet: PacketBody, p: ProposalBody) {
    && (forall item :: item in p.requiredScope ==> item in packet.scope)
    && (forall a, item :: a in p.actionGraph && item in a.body.scope ==> item in packet.scope)
    && (forall a :: a in p.actionGraph ==> a.body.effectClass.ReadOnly? || a.body.effectClass.ReversibleLocal?)
    && p.budget > 0
    && p.predicateKey == packet.predicateKey
    && p.expectedDelta == packet.expectedDelta
    && p.destination == packet.destination
  }

  ghost predicate AdmissionBinds(k: Digest, a: RecoveryAdmission, proposal: RecoveryProposal, packets: map<Digest,
                                 TaskPacket>) {
    && a.body.proposalId == k
    && proposal.proposalId == k && ProposalIdentity(proposal)
    && proposal.body.packetId == a.body.packetId
    && a.admissionId == AdmissionDigest(a.body)
    && a.body.packetId in packets
    && (a.body.state == Admitted ==> WithinAuthority(packets[a.body.packetId].body, proposal.body))
  }

  ghost predicate AdmissionsBind(proposals: map<Digest, RecoveryProposal>, admissions: map<Digest, RecoveryAdmission>,
                                 admissionById: map<Digest, RecoveryAdmission>, packets: map<Digest, TaskPacket>) {
    && (forall k :: k in admissions ==> k in proposals && AdmissionBinds(k, admissions[k], proposals[k], packets))
    && (forall a :: a in admissionById ==>
          admissionById[a].body.proposalId in admissions
            && admissions[admissionById[a].body.proposalId] == admissionById[a])
  }

  ghost function AdmittedFor(admissions: map<Digest, RecoveryAdmission>, packetId: Digest): set<Digest> {
    set k | k in admissions && admissions[k].body.state == Admitted && admissions[k].body.packetId == packetId
  }

  /** Total budget of a set of proposals. */
  ghost function TotalBudget(keys: set<Digest>, proposals: map<Digest, RecoveryProposal>): int
    requires keys <= proposals.Keys
  {
    if keys == {} then 0
    else
      var k :| k in keys;
      proposals[k].body.budget + TotalBudget(keys - {k}, proposals)
  }

  ghost predicate BudgetAccounted(proposals: map<Digest, RecoveryProposal>, admissions: map<Digest, RecoveryAdmission>,
                                  budgetConsumed: map<Digest, int>, packets: map<Digest, TaskPacket>) {
    forall p :: AdmittedFor(admissions, p) <= proposals.Keys
                && GetOr(budgetConsumed, p, 0) == TotalBudget(AdmittedFor(admissions, p), proposals)
                && (p in packets ==> GetOr(budgetConsumed, p, 0) <= packets[p].body.recoveryBudget)
  }

  ghost predicate FingerprintsOnce(admissions: map<Digest, RecoveryAdmission>, fingerprints: set<Digest>) {
    && (forall k :: k in admissions && admissions[k].body.state == Admitted ==>
          admissions[k].body.recoveryFingerprint in fingerprints)
    && (forall j, k | j in admissions && k in admissions
                      && admissions[j].body.state == Admitted && admissions[k].body.state == Admitted
          :: admissions[j].body.recoveryFingerprint == admissions[k].body.recoveryFingerprint ==> j == k)
  }

  ghost predicate RecoveryStepAdmitted(step: StepBody, proposals: map<Digest, RecoveryProposal>,
                                       admissions: map<Digest, RecoveryAdmission>)
    requires step.recovery.Some?
  {
    exists k :: && k in admissions && k in proposals
                && admissions[k].body.state == Admitted
                && admissions[k].body.packetId == step.packetId
                && Repeats(step, proposals[k].body.actionGraph)
  }

  ghost predicate Repeats(step: StepBody, graph: seq<RecoveryAction>)
    requires step.recovery.Some?
  {
    exists a :: && a in graph && a.actionId == step.recovery.value.actionId
                && a.body.operationDigest == step.operationDigest && a.body.effectClass == step.effectClass
  }

  ghost predicate RecoveryStepsAdmitted(steps: map<Digest, StepAttempt>, proposals: map<Digest, RecoveryProposal>,
                                        admissions: map<Digest, RecoveryAdmission>) {
    forall id :: id in steps && steps[id].body.recovery.Some? ==>
      RecoveryStepAdmitted(steps[id].body, proposals, admissions)
  }

  ghost predicate RecoveryInv(t: RecoveryTable, packets: map<Digest, TaskPacket>) {
    && AdmissionsBind(t.proposals, t.admissions, t.admissionById, packets)
    && BudgetAccounted(t.proposals, t.admissions, t.budgetConsumed, packets)
    && FingerprintsOnce(t.admissions, t.fingerprints)
  }

  // ----- delivery --------------------------------------------------------------------------

  /** Receipt, destination and turn request are fixed by the receipt's packet, whatever the state. */
  ghost predicate ContinuationBinds(c: Continuation, receipts: map<Digest, TerminalReceipt>, packets: map<Digest,
                                    TaskPacket>) {
    && c.continuationId == ContinuationDigest(c.receiptId, c.destination)
    && c.turnRequestId == TurnRequestDigest(c.continuationId, c.receiptId, c.destination)
    && c.receiptId in receipts
    && receipts[c.receiptId].body.packetId in packets
    && c.destination == packets[receipts[c.receiptId].body.packetId].body.destination
  }

  ghost predicate ContinuationsBind(continuations: map<Digest, Continuation>, continuationOf: map<Digest, Digest>,
                                    receipts: map<Digest, TerminalReceipt>, packets: map<Digest, TaskPacket>) {
    && (forall c :: c in continuations ==>
          && continuations[c].continuationId == c
          && ContinuationBinds(continuations[c], receipts, packets)
          && continuations[c].receiptId in continuationOf && continuationOf[continuations[c].receiptId] == c)
    && (forall r :: r in continuationOf ==>
          continuationOf[r] in continuations && continuations[continuationOf[r]].receiptId == r)
  }

  /** Acknowledgements and acknowledged continuations correspond one to one. */
  ghost predicate AckBinds(ack: Acknowledgement, continuations: map<Digest, Continuation>) {
    && AckIdentity(ack)
    && ack.body.continuationId in continuations
    && continuations[ack.body.continuationId].state == Acknowledged
    && continuations[ack.body.continuationId].receiptId == ack.body.receiptId
  }

  ghost predicate AcksMatch(acks: map<Digest, Acknowledgement>, continuations: map<Digest, Continuation>) {
    && (forall a :: a in acks ==> acks[a].ackId == a && AckBinds(acks[a], continuations))
    && (forall a, b :: a in acks && b in acks && acks[a].body.continuationId == acks[b].body.continuationId ==> a == b)
    && (forall c :: c in continuations && continuations[c].state == Acknowledged ==>
          exists a :: a in acks && acks[a].body.continuationId == c)
  }

  ghost predicate DeliveryInv(t: DeliveryTable, receipts: map<Digest, TerminalReceipt>, packets: map<Digest,
                              TaskPacket>) {
    && ContinuationsBind(t.continuations, t.continuationOf, receipts, packets)
    && AcksMatch(t.acks, t.continuations)
  }

  // ----- missions --------------------------------------------------------------------------

  ghost predicate PacketsPlanned(missions: map<string, Mission>, packets: map<Digest, TaskPacket>) {
    && (forall k :: k in missions ==> missions[k].missionId == k)
    && (forall p :: p in packets ==>
          && packets[p].body.missionId in missions
          && packets[p].body.missionRevision <= missions[packets[p].body.missionId].revision
          && (CurrentMission(missions, packets[p].body) ==>
                RouteMatches(missions[packets[p].body.missionId], packets[p].body)))
  }

  ghost predicate AckedPacketOf(acks: map<Digest, Acknowledgement>, packets: map<Digest, TaskPacket>, a: Digest,
                                key: (string, int)) {
    && a in acks && acks[a].body.packetId in packets
    && packets[acks[a].body.packetId].body.missionId == key.0
    && packets[acks[a].body.packetId].body.missionRevision == key.1
  }

  ghost predicate SnapshotsBind(missions: map<string, Mission>, snapshots: map<(string, int), MissionReadback>,
                                acks: map<Digest, Acknowledgement>, packets: map<Digest, TaskPacket>) {
    forall key :: key in snapshots ==>
      && key.0 in missions && key.1 <= missions[key.0].revision
      && (key.1 == missions[key.0].revision ==>
            ReadKeys(snapshots[key].body.predicates) == Keys(missions[key.0].predicates))
      && ReadbackIdentity(snapshots[key])
      && exists a :: AckedPacketOf(acks, packets, a, key)
  }

  ghost predicate VerificationsBehind(verifications: map<Digest, MissionVerification>,
                                      snapshots: map<(string, int), MissionReadback>) {
    forall v :: v in verifications ==>
      && verifications[v].verificationId == v
      && v == VerificationDigest(verifications[v].body)
      && var key := (verifications[v].body.missionId, verifications[v].body.missionRevision);
      && key in snapshots
      && verifications[v].body.parentSequence <= snapshots[key].body.parentSequence
  }

  ghost predicate DeclaredFirst(mission: Mission, key: string) {
    exists i :: && 0 <= i < |mission.predicates| && mission.predicates[i].key == key
                && !mission.predicates[i].satisfied && forall j :: 0 <= j < i ==> mission.predicates[j].satisfied
  }

  /** Without a readback, every current claimed packet still targets the first false predicate. */
  ghost predicate PlannedFirst(missions: map<string, Mission>, packets: map<Digest, TaskPacket>,
                               snapshots: map<(string, int), MissionReadback>) {
    forall p :: p in packets && CurrentMission(missions, packets[p].body)
                && (packets[p].body.missionId, packets[p].body.missionRevision) !in snapshots ==>
      DeclaredFirst(missions[packets[p].body.missionId], packets[p].body.predicateKey)
  }

  ghost predicate MissionInv(t: ParentTable, packets: map<Digest, TaskPacket>, acks: map<Digest, Acknowledgement>) {
    && PacketsPlanned(t.missions, packets)
    && SnapshotsBind(t.missions, t.snapshots, acks, packets)
    && VerificationsBehind(t.verifications, t.snapshots)
    && PlannedFirst(t.missions, packets, t.snapshots)
  }

  /** The invariant while the packets in `terminal` are being or have been closed. */
  ghost predicate InvClosing(s: Store, terminal: set<Digest>) {
    && LeaseInv(s.claims, s.work.receiptOf)
    && EffectInv(s.work, s.claims.packets, s.claims.leases, terminal)
    && StepInv(s.trail, s.work.started, s.claims.leases, s.work.receiptOf)
    && RecoveryInv(s.recovery, s.claims.packets)
    && RecoveryStepsAdmitted(s.trail.steps, s.recovery.proposals, s.recovery.admissions)
    && DeliveryInv(s.delivery, s.work.receipts, s.claims.packets)
    && MissionInv(s.parent, s.claims.packets, s.delivery.acks)
  }

  ghost predicate Inv(s: Store) {
    InvClosing(s, s.work.receiptOf.Keys)
  }

  lemma InvInit()
    ensures Inv(EMPTY)
  {
    assert forall item :: ClaimsOn(EMPTY.claims.leases, item) == {};
    assert forall p :: AdmittedFor(EMPTY.recovery.admissions, p) == {};
  }
}
