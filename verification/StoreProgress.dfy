/** What the store lets its callers finish: admitted recovery, unsettled results and deliveries, and disposed routes. */
module StoreProgress {
  import opened Records
  import opened StoreSpec
  import opened StoreInvariant
  import opened StorePreservation
  import opened StoreRuns
  import opened StoreTheorems
  import opened StoreReceipts
  import opened StoreRecords

  // ----- recovery ------------------------------------------------------------------------------

  /** The step repeats the action under the admission, after a step of the packet, with an effect of its own. */
  ghost predicate Carries(s: Store, packet: TaskPacket, lease: Lease, admission: RecoveryAdmission,
                          action: RecoveryAction,
                          step: StepAttempt)
  {
    && StepIdentity(step) && step.body.packetId == packet.packetId && step.body.leaseId == lease.leaseId
    && step.body.operationDigest == action.body.operationDigest && step.body.effectClass == action.body.effectClass
    && step.body.recovery.Some?
    && var binding := step.body.recovery.value;
    && binding.admissionId == admission.admissionId && binding.actionId == action.actionId
    && binding.parentStepId in s.trail.steps && s.trail.steps[binding.parentStepId].body.packetId == packet.packetId
    && step.stepId !in s.trail.steps
    && (step.body.effectId.Some? ==> step.body.effectId.value !in s.trail.stepEffectOwner)
  }

  /** Every action of an admitted proposal can be taken by a step of the packet while it is valid and running. */
  lemma AdmittedActionTaken(s: Store, packet: TaskPacket, lease: Lease, k: Digest, action: RecoveryAction,
                            step: StepAttempt)
    requires Reachable(s) && ValidatePacket(s, packet).Accepted? && HoldsLease(s, packet, lease)
    requires packet.packetId in s.work.started && k in s.recovery.admissions && k in s.recovery.proposals
    requires s.recovery.admissions[k].body.state == Admitted
             && s.recovery.admissions[k].body.packetId == packet.packetId
    requires s.recovery.admissions[k].body.leaseId == lease.leaseId
             && action in s.recovery.proposals[k].body.actionGraph
    requires Carries(s, packet, lease, s.recovery.admissions[k], action, step)
    ensures RecordStepAttempt(s, packet, lease, step).1 == Accepted(step)
    ensures var s' := RecordStepAttempt(s, packet, lease, step).0;
            Get(s'.trail.steps, step.stepId) == Some(step)
              && step.stepId in GetOr(s'.trail.stepsOf, packet.packetId, [])
  {
    hide Run, Inv, ValidatePacket, HoldsLease, RecoveryRecorded, ParentRecorded;
    ReachableInv(s);
    ReachableRecorded(s);
    ActionFound(s, k, action);
    AdmissionFound(s, k);
    StepTaken(s, packet, lease, k, action, step);
  }

  lemma AdmissionFound(s: Store, k: Digest)
    requires RecoveryRecorded(s.recovery, s.claims, s.trail) && k in s.recovery.admissions
    ensures Get(s.recovery.admissionById, s.recovery.admissions[k].admissionId) == Some(s.recovery.admissions[k])
    ensures s.recovery.admissions[k].body.proposalId == k && k in s.recovery.proposals
    ensures s.recovery.proposals[k].body.blockerId == s.recovery.admissions[k].body.blockerId
  {
    hide BlockerRecorded, FingerprintAdmitted;
    assert AdmissionRecorded(s.recovery, k);
  }

  lemma ActionFound(s: Store, k: Digest, action: RecoveryAction)
    requires Inv(s) && k in s.recovery.admissions && k in s.recovery.proposals
    requires action in s.recovery.proposals[k].body.actionGraph
    ensures FindAction(s.recovery.proposals[k].body.actionGraph, action.actionId) == Some(action)
  {
    hide LeaseInv, EffectInv, StepInv, RecoveryStepsAdmitted, DeliveryInv, MissionInv, BudgetAccounted,
         FingerprintsOnce,
         WithinAuthority;
    assert AdmissionBinds(k, s.recovery.admissions[k], s.recovery.proposals[k], s.claims.packets);
    var graph := s.recovery.proposals[k].body.actionGraph;
    FindsSome(graph, action);
  }

  lemma {:induction false} FindsSome(graph: seq<RecoveryAction>, action: RecoveryAction)
    requires action in graph
    ensures FindAction(graph, action.actionId).Some?
  {
    if graph[0].actionId != action.actionId {
      assert action in graph[1..];
      FindsSome(graph[1..], action);
    }
  }

  lemma StepTaken(s: Store, packet: TaskPacket, lease: Lease, k: Digest, action: RecoveryAction, step: StepAttempt)
    requires ValidatePacket(s, packet).Accepted? && HoldsLease(s, packet, lease) && packet.packetId in s.work.started
    requires k in s.recovery.admissions && k in s.recovery.proposals
    requires s.recovery.admissions[k].body.state == Admitted
             && s.recovery.admissions[k].body.packetId == packet.packetId
    requires s.recovery.admissions[k].body.leaseId == lease.leaseId && s.recovery.admissions[k].body.proposalId == k
    requires s.recovery.proposals[k].body.blockerId == s.recovery.admissions[k].body.blockerId
    requires Get(s.recovery.admissionById, s.recovery.admissions[k].admissionId) == Some(s.recovery.admissions[k])
    requires FindAction(s.recovery.proposals[k].body.actionGraph, action.actionId) == Some(action)
    requires Carries(s, packet, lease, s.recovery.admissions[k], action, step)
    ensures RecordStepAttempt(s, packet, lease, step).1 == Accepted(step)
    ensures var s' := RecordStepAttempt(s, packet, lease, step).0;
            Get(s'.trail.steps, step.stepId) == Some(step)
              && step.stepId in GetOr(s'.trail.stepsOf, packet.packetId, [])
  {
    hide ValidatePacket, HoldsLease, FindAction, StepIdentity;
    assert RecoveryActionAdmitted(s.recovery, packet.packetId, lease.leaseId, step.body, step.body.recovery.value);
  }

  // ----- results and failures --------------------------------------------------------------------

  /** A recorded result that is unsettled is settled by a reconciliation of its effect. */
  lemma AttemptSettles(s: Store, packet: TaskPacket, lease: Lease, r: EffectReconciliation)
    requires Reachable(s) && HoldsLease(s, packet, lease) && !HasOpenStep(s.trail, packet.packetId)
    requires packet.packetId in s.work.attempts && r.packetId == packet.packetId && r.leaseId == lease.leaseId
    requires r.effectId == s.work.attempts[packet.packetId].effectId && r.effectState.Settled?
    ensures var (s', outcome) := ReconcileEffect(s, packet, lease, r);
            && outcome.Accepted? && Writes(s, ReconcileEffectCall(packet, lease, r), outcome.value.body)
            && Get(s'.work.receiptOf, packet.packetId) == Some(outcome.value)
  {
    hide Run, Inv, HasOpenStep;
    ReachableInv(s);
    Holder(s, packet, lease);
    assert s.work.attempts[packet.packetId].effectState.Unsettled?;
    ReconcileEffectKeepsInv(s, packet, lease, r);
  }

  /** A recorded failure is ended by a reconciliation that names its code and no effect of another packet. */
  lemma FailureSettles(s: Store, packet: TaskPacket, lease: Lease, r: FailureReconciliation)
    requires Reachable(s) && HoldsLease(s, packet, lease) && !HasOpenStep(s.trail, packet.packetId)
    requires packet.packetId in s.work.failures && r.packetId == packet.packetId && r.leaseId == lease.leaseId
    requires r.failureCode == s.work.failures[packet.packetId].body.failureCode
    requires r.effectState.Settled? ==>
               && (s.work.failures[packet.packetId].body.observedEffectId in {None, r.effectId})
               && GetOr(s.work.effectOwner, r.effectId.value, packet.packetId) == packet.packetId
    ensures var (s', outcome) := ReconcileFailure(s, packet, lease, r);
            && outcome.Accepted? && Writes(s, ReconcileFailureCall(packet, lease, r), outcome.value.body)
            && Get(s'.work.receiptOf, packet.packetId) == Some(outcome.value)
  {
    hide Run, Inv, HasOpenStep, OwnersAfterFailure;
    ReachableInv(s);
    Holder(s, packet, lease);
    ReconcileFailureKeepsInv(s, packet, lease, r);
  }

  // ----- deliveries --------------------------------------------------------------------------------

  ghost predicate Uncertain(s: Store, c: Continuation, receipt: TerminalReceipt) {
    IsCurrent(s, c, DeliveryUnsettled) && c.receiptId == receipt.receiptId
      && Get(s.work.receipts, receipt.receiptId) == Some(receipt)
  }

  /** A proof that an uncertain delivery never took place makes it deliverable again. */
  lemma AbsenceReopens(s: Store, c: Continuation, receipt: TerminalReceipt, proof: AbsenceProof)
    requires Uncertain(s, c, receipt) && AbsenceIdentity(proof)
    requires proof.body.continuationId == c.continuationId && proof.body.receiptId == c.receiptId
    requires proof.body.destination == c.destination && proof.body.turnRequestId == c.turnRequestId
    ensures var r := ContinuationReconciliation(c.continuationId, c.receiptId, c.turnRequestId, NotDelivered,
                                                CanonicalProof(OfAbsence(proof)));
            var (s', outcome) := ReconcileContinuation(s, receipt, r, Some(OfAbsence(proof)));
            && outcome == Accepted((c.(state := Prepared), None)) && s'.delivery.acks == s.delivery.acks
            && BeginDelivery(s', c.(state := Prepared), receipt).1.Accepted?
  {
    hide AbsenceIdentity;
  }

  /** A proof that it did settles it with an acknowledgement of the stored receipt. */
  lemma ConvergenceSettles(s: Store, c: Continuation, receipt: TerminalReceipt, proof: ConvergenceProof)
    requires Uncertain(s, c, receipt) && ConvergenceIdentity(proof) && proof.body.completed
             && !Blank(proof.body.completedTurnId)
    requires proof.body.continuationId == c.continuationId && proof.body.receiptId == c.receiptId
    requires proof.body.destination == c.destination && proof.body.turnRequestId == c.turnRequestId
    ensures var r := ContinuationReconciliation(c.continuationId, c.receiptId, c.turnRequestId, Committed,
                                                CanonicalProof(OfConvergence(proof)));
            var (s', outcome) := ReconcileContinuation(s, receipt, r, Some(OfConvergence(proof)));
            && outcome.Accepted? && outcome.value.0 == c.(state := Acknowledged) && outcome.value.1.Some?
            && var ack := outcome.value.1.value;
            && ack.body == AckBody(receipt.body.packetId, receipt.receiptId, c.continuationId, proof.proofId)
            && Get(s'.delivery.acks, ack.ackId) == Some(ack)
            && Get(s'.delivery.ackOf, receipt.body.packetId) == Some(ack)
  {
    hide ConvergenceIdentity, Blank;
  }

  // ----- routes ------------------------------------------------------------------------------------

  /** Once a route of a mission revision is disposed of, no run makes a packet on it valid again. */
  lemma DisposedForever(s: Store, d: RouteDisposition, calls: seq<Call>, packet: TaskPacket)
    requires Reachable(s) && RecordRouteDisposition(s, d).1.Accepted?
    requires packet.body.missionId == d.body.missionId && packet.body.missionRevision == d.body.missionRevision
    requires packet.body.routeId == d.body.routeId
    ensures !ValidatePacket(Run(RecordRouteDisposition(s, d).0, calls), packet).Accepted?
  {
    hide Run, Inv, RecordRouteDisposition, ValidatePacket, Since;
    ReachableInv(s);
    DispositionKeepsInv(s, d);
    DispositionStored(s, d);
    var s1 := RecordRouteDisposition(s, d).0;
    RunSince(s1, calls);
    RunKeepsInv(s1, calls);
    StillDisposed(s1, Run(s1, calls), d, packet);
  }

  lemma DispositionStored(s: Store, d: RouteDisposition)
    requires RecordRouteDisposition(s, d).1.Accepted?
    ensures (d.body.missionId, d.body.missionRevision, d.body.routeId)
              in RecordRouteDisposition(s, d).0.parent.dispositions
  {
    hide FindRoute, DispositionIdentity;
  }

  lemma StillDisposed(s: Store, s': Store, d: RouteDisposition, packet: TaskPacket)
    requires Inv(s') && Since(s, s')
    requires (d.body.missionId, d.body.missionRevision, d.body.routeId) in s.parent.dispositions
    requires packet.body.missionId == d.body.missionId && packet.body.missionRevision == d.body.missionRevision
    requires packet.body.routeId == d.body.routeId
    ensures !ValidatePacket(s', packet).Accepted?
  {
    hide Inv, ClaimsSince, WorkSince, StepsSince, DeliverySince, ValidatePacket, OpenFirst, OnRoute;
    ValidExactly(s', packet);
    if packet.body.missionId in s'.parent.missions { MissionKeyed(s', packet.body.missionId); }
  }
}
