/**
 The honest cycle: a planned packet whose scope is free, an executor that returns one settled, unused effect, and a
 transport that completes the turn, with a newer readback of the parent, go from claim to verified mission without a
 rejection.
 */
module HarnessCycle {
  import opened Records
  import opened StoreSpec
  import opened StoreInvariant
  import opened StorePreservation
  import opened StoreRecovery
  import opened StoreRejections
  import opened StoreReceipts
  import opened Harness

  lemma ClaimEffect(s: Store, packet: TaskPacket)
    requires Inv(s) && ClaimGuard(s, packet).Accepted?
    ensures var s1 := Claim(s, packet).0;
            && Claim(s, packet).1 == Accepted(LeaseFor(packet)) && HoldsLease(s1, packet, LeaseFor(packet))
            && s1 == s.(claims := s1.claims)
    ensures packet.packetId !in s.claims.leases && ValidatePacket(s, packet).Accepted?
  {
    hide Inv, ValidatePacket, SetVersions, Overlaps, ScopeSnapshot;
  }

  lemma UnclaimedUnstarted(s: Store, p: Digest)
    requires Inv(s) && p !in s.claims.leases
    ensures p !in s.work.started && p !in s.work.receiptOf && p !in s.work.attempts && !HasOpenStep(s.trail, p)
  {
    hide EffectInv, RecoveryInv, RecoveryStepsAdmitted, DeliveryInv, MissionInv, StepEffectsOwned, RecoveryOrdered,
         Closed;
    assert StartedOnly(s.work.started, s.claims.leases, s.work.attempts, s.work.failures) by { StartedFacts(s); }
    assert LeaseInv(s.claims, s.work.receiptOf);
  }

  lemma StartedFacts(s: Store)
    requires Inv(s)
    ensures StartedOnly(s.work.started, s.claims.leases, s.work.attempts, s.work.failures)
  {
    hide LeaseInv, StepInv, RecoveryInv, RecoveryStepsAdmitted, DeliveryInv, MissionInv, ReceiptsBindPackets,
         SettledOwned, PendingOwned;
  }

  lemma SameParentValid(s: Store, s1: Store, packet: TaskPacket)
    requires s1.parent == s.parent
    ensures ValidatePacket(s1, packet) == ValidatePacket(s, packet)
  {
    hide FirstFalse, RouteMatches, FindRoute;
  }

  /** A claimed packet starts. */
  lemma ClaimedStarts(s: Store, packet: TaskPacket)
    requires Inv(s) && ClaimGuard(s, packet).Accepted?
    ensures var s1 := Claim(s, packet).0;
            && Inv(s1) && BeginExecution(s1, packet, LeaseFor(packet)).1.Accepted?
            && Ready(BeginExecution(s1, packet, LeaseFor(packet)).0, packet, LeaseFor(packet))
            && BeginExecution(s1, packet, LeaseFor(packet)).0.work.effectOwner == s.work.effectOwner
  {
    hide InvClosing, ClaimGuard, ValidatePacket, HasOpenStep, HoldsLease, LeaseFor;
    ClaimEffect(s, packet);
    UnclaimedUnstarted(s, packet.packetId);
    ClaimKeepsInv(s, packet);
    hide Claim;
    var s1 := Claim(s, packet).0;
    SameParentValid(s, s1, packet);
    BeginKeepsInv(s1, packet, LeaseFor(packet));
    StillHolds(s1, packet, LeaseFor(packet));
  }

  lemma StillHolds(s: Store, packet: TaskPacket, lease: Lease)
    requires HoldsLease(s, packet, lease)
    ensures HoldsLease(s.(work := s.work.(started := s.work.started + {packet.packetId})), packet, lease)
  {
  }

  /** Started under its lease, with nothing recorded and no open step. */
  ghost predicate Ready(s: Store, packet: TaskPacket, lease: Lease) {
    && Inv(s) && HoldsLease(s, packet, lease) && packet.packetId in s.work.started
    && packet.packetId !in s.work.attempts && !HasOpenStep(s.trail, packet.packetId)
  }

  /** A matching, settled result with an unused effect ends in a new receipt. */
  lemma ReadySettles(s: Store, packet: TaskPacket, lease: Lease, result: ExecutionResult)
    requires Ready(s, packet, lease) && ResultMatches(packet, lease, result)
    requires result.effectState.Settled? && result.effectId !in s.work.effectOwner
    ensures var r := RecordExecution(s, packet, lease, result);
            && r.1.Accepted? && Inv(r.0) && r.1.value.receiptId !in s.work.receipts
            && r.0.delivery == s.delivery && r.1.value.body.packetId == packet.packetId
            && lease.leaseId !in r.0.claims.active
            && r.1.value.receiptId in r.0.work.receipts && r.0.work.receipts[r.1.value.receiptId] == r.1.value
            && packet.packetId in r.0.claims.packets
  {
    hide InvClosing, HasOpenStep, ResultMatches;
    ResultKeepsInv(s, packet, lease, result);
    hide HoldsLease;
    var receipt := RecordExecution(s, packet, lease, result).1.value;
    HoldsLeaseFactsOf(s, packet, lease);
    NewReceipt(s, receipt);
  }

  lemma HoldsLeaseFactsOf(s: Store, packet: TaskPacket, lease: Lease)
    requires Inv(s) && HoldsLease(s, packet, lease)
    ensures packet.packetId !in s.work.receiptOf && packet.packetId in s.claims.packets
  {
    hide LeaseInv, EffectInv, StepInv, RecoveryInv, RecoveryStepsAdmitted, DeliveryInv, MissionInv;
    HoldsLeaseFacts(s, packet, lease);
  }

  lemma NewReceipt(s: Store, receipt: TerminalReceipt)
    requires Inv(s) && receipt.body.packetId !in s.work.receiptOf && ReceiptIdentity(receipt)
    ensures receipt.receiptId !in s.work.receipts
  {
    hide LeaseInv, StepInv, RecoveryInv, RecoveryStepsAdmitted, DeliveryInv, MissionInv, SettledOwned, PendingOwned,
         StartedOnly;
  }

  lemma UnpreparedReceipt(s: Store, id: Digest)
    requires Inv(s) && id !in s.work.receipts
    ensures id !in s.delivery.continuationOf
  {
    hide LeaseInv, EffectInv, StepInv, RecoveryInv, RecoveryStepsAdmitted, MissionInv, AcksMatch;
  }

  /** A new receipt is delivered once and acknowledged. */
  lemma ReceiptDelivers(s: Store, receipt: TerminalReceipt)
    requires receipt.receiptId in s.work.receipts && s.work.receipts[receipt.receiptId] == receipt
    requires receipt.receiptId !in s.delivery.continuationOf && receipt.body.packetId in s.claims.packets
    ensures var c := NewContinuation(receipt.receiptId, s.claims.packets[receipt.body.packetId].body.destination);
            PrepareContinuation(s, receipt).1 == Accepted(c) && Delivers(PrepareContinuation(s, receipt).0, c, receipt)
  {
    var c := NewContinuation(receipt.receiptId, s.claims.packets[receipt.body.packetId].body.destination);
    PreparedDelivers(PrepareContinuation(s, receipt).0, c, receipt);
  }

  /** Starting the delivery and acknowledging its completed turn are both accepted. */
  ghost predicate Delivers(s: Store, c: Continuation, receipt: TerminalReceipt) {
    && BeginDelivery(s, c, receipt).1.Accepted?
    && var started := c.(state := DeliveryStarted);
    && var acked := AcknowledgeDelivery(BeginDelivery(s, c, receipt).0, started, receipt, CompletedTurn(started),
                                        DeliveryStarted);
    && acked.1.Accepted? && acked.1.value.1.body.packetId == receipt.body.packetId && AckIdentity(acked.1.value.1)
    && acked.1.value.1.ackId in acked.0.delivery.acks && acked.0.delivery.acks[acked.1.value.1.ackId] == acked.1.value.1
    && acked.0.claims == s.claims && acked.0.work == s.work && acked.0.parent == s.parent
  }

  /** The store and the acknowledgement after a delivery that completed. */
  ghost function Settlement(s: Store, c: Continuation, receipt: TerminalReceipt): (Store, Acknowledgement)
    requires Delivers(s, c, receipt)
  {
    var started := c.(state := DeliveryStarted);
    var acked := AcknowledgeDelivery(BeginDelivery(s, c, receipt).0, started, receipt, CompletedTurn(started),
                                     DeliveryStarted);
    (acked.0, acked.1.value.1)
  }

  /** A parent readback of the current mission revision, newer than what is stored. */
  ghost predicate Answers(t: ParentTable, mission: Mission, readback: MissionReadback) {
    && ReadbackIdentity(readback) && readback.body.missionId == mission.missionId
    && readback.body.missionRevision == mission.revision
    && ReadKeys(readback.body.predicates) == Keys(mission.predicates)
    && ((mission.missionId, mission.revision) in t.snapshots ==>
          t.snapshots[(mission.missionId, mission.revision)].body.parentSequence < readback.body.parentSequence)
  }

  /** The verification is accepted and its verdict is what the planner reads from then on. */
  ghost predicate Verifies(s: Store, ack: Acknowledgement, mission: Mission, readback: MissionReadback) {
    var (s', verified) := VerifyMission(s, ack, readback);
    && verified.Accepted? && (verified.value.body.nextPredicateKey,
                              verified.value.body.nextAction) == NextStep(readback.body.predicates)
    && var first := FirstFalse(s'.parent.snapshots, mission);
    && (verified.value.body.nextAction == ReadbackRecheck <==> first == Rejected(ReadbackIndeterminate))
    && (verified.value.body.nextAction == RouteSelection <==> first.Accepted? && first.value.Some?)
    && (verified.value.body.nextAction == MissionComplete <==> first == Accepted(None))
  }

  lemma AcknowledgedVerifies(s: Store, ack: Acknowledgement, packet: TaskPacket, mission: Mission,
                             readback: MissionReadback)
    requires Inv(s) && ack.ackId in s.delivery.acks && s.delivery.acks[ack.ackId] == ack && AckIdentity(ack)
    requires ack.body.packetId in s.claims.packets && s.claims.packets[ack.body.packetId] == packet
    requires packet.body.missionId == mission.missionId && packet.body.missionRevision == mission.revision
    requires packet.body.predicateKey in Keys(mission.predicates)
    requires mission.missionId in s.parent.missions && s.parent.missions[mission.missionId] == mission
             && Answers(s.parent, mission, readback)
    ensures Verifies(s, ack, mission, readback)
  {
    hide Inv, FirstFalse, NextStep, AckIdentity, ReadbackIdentity;
    VerificationAccepted(s, ack, packet, mission, readback);
    hide VerifyMission;
    VerifiedSnapshot(s, ack, readback);
    var s' := VerifyMission(s, ack, readback).0;
    VerdictMission(s, ack, packet, mission, readback);
    FirstFalseReads(s'.parent.snapshots, mission, readback);
  }

  lemma VerificationAccepted(s: Store, ack: Acknowledgement, packet: TaskPacket, mission: Mission,
                             readback: MissionReadback)
    requires ack.ackId in s.delivery.acks && s.delivery.acks[ack.ackId] == ack && AckIdentity(ack)
    requires ack.body.packetId in s.claims.packets && s.claims.packets[ack.body.packetId] == packet
    requires packet.body.missionId == mission.missionId && packet.body.missionRevision == mission.revision
    requires packet.body.predicateKey in Keys(mission.predicates)
    requires mission.missionId in s.parent.missions && s.parent.missions[mission.missionId] == mission
             && Answers(s.parent, mission, readback)
    ensures VerifyMission(s, ack, readback).1.Accepted?
  {
    hide VerificationOf, Keys, ReadKeys, AckIdentity, ReadbackIdentity;
    assert FindReadback(readback.body.predicates, packet.body.predicateKey).Some?;
  }

  lemma VerdictMission(s: Store, ack: Acknowledgement, packet: TaskPacket, mission: Mission, readback: MissionReadback)
    requires Inv(s) && VerifyMission(s, ack, readback).1.Accepted?
    requires ack.body.packetId in s.claims.packets && s.claims.packets[ack.body.packetId] == packet
    requires packet.body.missionId == mission.missionId
    requires mission.missionId in s.parent.missions && s.parent.missions[mission.missionId] == mission
    ensures VerifyMission(s, ack, readback).1.value.body.missionId == mission.missionId
  {
    hide LeaseInv, EffectInv, StepInv, RecoveryInv, RecoveryStepsAdmitted, DeliveryInv, SnapshotsBind, PlannedFirst,
         RouteMatches,
         NextStep, Keys, ReadKeys, FindReadback, AckIdentity, ReadbackIdentity;
    var current := FindReadback(readback.body.predicates, packet.body.predicateKey);
    var v := VerificationOf(packet.body, mission, current.value.truth, ack, readback);
    if v.verificationId in s.parent.verifications {
      assert s.parent.verifications[v.verificationId].body == v.body;
    }
  }

  lemma PreparedDelivers(s: Store, c: Continuation, receipt: TerminalReceipt)
    requires IsCurrent(s, c, Prepared) && c.receiptId == receipt.receiptId
    requires Get(s.work.receipts, receipt.receiptId) == Some(receipt)
    ensures Delivers(s, c, receipt)
  {
    assert !Whitespace("turn"[0]) && "turn"[0] in "turn";
  }

  /** Everything after the receipt: prepared, delivered, acknowledged and verified. */
  ghost predicate Concludes(s: Store, receipt: TerminalReceipt, mission: Mission, readback: MissionReadback) {
    var prepared := PrepareContinuation(s, receipt);
    && prepared.1.Accepted? && Delivers(prepared.0, prepared.1.value, receipt)
    && var (acked, ack) := Settlement(prepared.0, prepared.1.value, receipt);
    && Verifies(acked, ack, mission, readback)
  }

  lemma ReceiptConcludes(s: Store, receipt: TerminalReceipt, packet: TaskPacket, mission: Mission,
                         readback: MissionReadback)
    requires Inv(s) && receipt.receiptId in s.work.receipts && s.work.receipts[receipt.receiptId] == receipt
    requires receipt.receiptId !in s.delivery.continuationOf
    requires receipt.body.packetId in s.claims.packets && s.claims.packets[receipt.body.packetId] == packet
    requires packet.body.missionId == mission.missionId && packet.body.missionRevision == mission.revision
    requires packet.body.predicateKey in Keys(mission.predicates)
    requires mission.missionId in s.parent.missions && s.parent.missions[mission.missionId] == mission
             && Answers(s.parent, mission, readback)
    ensures Concludes(s, receipt, mission, readback)
  {
    hide Inv, Verifies, Answers, Keys;
    ReceiptDelivers(s, receipt);
    PreparedFrame(s, receipt);
    var prepared := PrepareContinuation(s, receipt);
    var c, s2 := prepared.1.value, prepared.0;
    PrepareKeepsInv(s, receipt);
    BeginDeliveryKeepsInv(s2, c, receipt);
    var started := c.(state := DeliveryStarted);
    AcknowledgeKeepsInv(BeginDelivery(s2, c, receipt).0, started, receipt, CompletedTurn(started), DeliveryStarted);
    hide PrepareContinuation, BeginDelivery, AcknowledgeDelivery;
    var (acked, ack) := Settlement(s2, c, receipt);
    AcknowledgedVerifies(acked, ack, packet, mission, readback);
  }

  lemma PreparedFrame(s: Store, receipt: TerminalReceipt)
    ensures PrepareContinuation(s, receipt).0 == s.(delivery := PrepareContinuation(s, receipt).0.delivery)
  {
  }

  /** The whole cycle from a free scope: claimed, started, settled, released, delivered, acknowledged and verified. */
  lemma HonestCycleCompletes(s: Store, mission: Mission, context: Option<string>, packet: TaskPacket,
                             result: ExecutionResult,
                             readback: MissionReadback)
    requires Inv(s) && Get(s.parent.missions, mission.missionId) == Some(mission)
    requires Plans(s, mission, context, Accepted(packet))
    requires forall id :: id in s.claims.active ==> !Overlaps(packet.body.scope, s.claims.active[id].scope)
    requires ResultMatches(packet, LeaseFor(packet), result) && result.effectState.Settled?
             && result.effectId !in s.work.effectOwner
    requires Answers(s.parent, mission, readback)
    ensures var lease := LeaseFor(packet);
            var started := BeginExecution(Claim(s, packet).0, packet, lease);
            var ended := RecordExecution(started.0, packet, lease, result);
            && Claim(s, packet).1 == Accepted(lease) && started.1.Accepted? && ended.1.Accepted?
            && Writes(started.0, ResultCall(packet, lease, result), ended.1.value.body)
            && lease.leaseId !in ended.0.claims.active && Concludes(ended.0, ended.1.value, mission, readback)
  {
    hide Inv, Plans, Overlaps, ResultMatches, LeaseFor, Answers, Keys;
    PlannedPacketClaims(s, mission, context, packet);
    PlannedFields(s, mission, context, packet);
    assert ClaimGuard(s, packet).Accepted? by { ClaimedGuard(s, packet); }
    ClaimedStarts(s, packet);
    ClaimEffect(s, packet);
    var started := BeginExecution(Claim(s, packet).0, packet, LeaseFor(packet)).0;
    assert started.parent == s.parent && packet.packetId in started.claims.packets
      && started.claims.packets[packet.packetId] == packet by {
      ReadyFacts(started, packet, LeaseFor(packet));
      StartedFrame(Claim(s, packet).0, packet, LeaseFor(packet));
    }
    hide Claim, BeginExecution, ClaimGuard, Ready, Concludes;
    ReadySettles(started, packet, LeaseFor(packet), result);
    ReadyFrame(started, packet, LeaseFor(packet), result);
    ResultWrites(started, packet, LeaseFor(packet), result);
    hide RecordExecution, Writes;
    var ended := RecordExecution(started, packet, LeaseFor(packet), result);
    ReadyInv(started, packet, LeaseFor(packet));
    UnpreparedReceipt(started, ended.1.value.receiptId);
    ReceiptConcludes(ended.0, ended.1.value, packet, mission, readback);
  }

  lemma StartedFrame(s: Store, packet: TaskPacket, lease: Lease)
    ensures BeginExecution(s, packet, lease).0 == s.(work := BeginExecution(s, packet, lease).0.work)
  {
    hide ValidateClaim;
  }

  lemma ReadyFacts(s: Store, packet: TaskPacket, lease: Lease)
    requires Ready(s, packet, lease)
    ensures packet.packetId in s.claims.packets && s.claims.packets[packet.packetId] == packet
  {
    hide Inv, HasOpenStep;
  }

  lemma ReadyFrame(s: Store, packet: TaskPacket, lease: Lease, result: ExecutionResult)
    ensures RecordExecution(s, packet, lease, result).0.parent == s.parent
    ensures RecordExecution(s, packet, lease, result).0.claims.packets == s.claims.packets
  {
    hide HoldsLease, HasOpenStep, ReconcilableCode, ExecutorCode;
  }

  /** What planning put into the packet. */
  lemma PlannedFields(s: Store, mission: Mission, context: Option<string>, packet: TaskPacket)
    requires Plans(s, mission, context, Accepted(packet))
    ensures packet.body.missionId == mission.missionId && packet.body.missionRevision == mission.revision
    ensures packet.body.predicateKey in Keys(mission.predicates)
  {
    hide FirstFalse, Outranks;
    var key := FirstFalse(s.parent.snapshots, mission).value.value.key;
    var route :| Selected(s.parent, mission, key, route)
      && packet == PacketFor(s.claims.versions, mission, key, route, context);
    assert route in mission.routes && route.predicateKey == key;
  }

  lemma ReadyInv(s: Store, packet: TaskPacket, lease: Lease)
    requires Ready(s, packet, lease)
    ensures Inv(s)
  {
    hide Inv;
  }

  lemma ClaimedGuard(s: Store, packet: TaskPacket)
    requires Claim(s, packet).1.Accepted?
    ensures ClaimGuard(s, packet).Accepted?
  {
    hide ClaimGuard;
  }
}
