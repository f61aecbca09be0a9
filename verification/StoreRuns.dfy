/** What whole runs of the store keep: nothing recorded is ever taken back. */
module StoreRuns {
  import opened Records
  import opened StoreSpec
  import opened StoreInvariant
  import opened StorePreservation

  // ----- what later stores keep --------------------------------------------------------------

  ghost predicate ClaimsSince(t: ClaimTable, t': ClaimTable) {
    && Extends(t.leases, t'.leases)
    && Extends(t.packets, t'.packets)
    && (forall item :: GetOr(t.versions, item, 0) <= GetOr(t'.versions, item, 0))
    && (forall p, x :: p in t'.leases && p !in t.leases && x in t'.leases[p].scopeVersions ==>
        x.1 > GetOr(t.versions, x.0, 0))
  }

  ghost predicate WorkSince(t: WorkTable, t': WorkTable) {
    t.started <= t'.started && Extends(t.receiptOf, t'.receiptOf) && Extends(t.failures, t'.failures)
  }

  /** A packet with a receipt gains no further step. */
  ghost predicate StepsSince(t: StepTable, t': StepTable, receiptOf: map<Digest, TerminalReceipt>) {
    && Extends(t.steps, t'.steps)
    && Extends(t.stepReconciliations, t'.stepReconciliations)
    && (forall p :: p in receiptOf ==> GetOr(t'.stepsOf, p, []) == GetOr(t.stepsOf, p, []))
  }

  ghost predicate ParentSince(t: ParentTable, t': ParentTable) {
    && Extends(t.dispositions, t'.dispositions)
    && (forall m :: m in t.missions ==> m in t'.missions && t.missions[m].revision <= t'.missions[m].revision)
    && (forall k :: k in t.snapshots ==>
          k in t'.snapshots && t.snapshots[k].body.parentSequence <= t'.snapshots[k].body.parentSequence)
  }

  ghost predicate SameButState(c: Continuation, c': Continuation) {
    c'.(state := c.state) == c && (c.state == Acknowledged ==> c'.state == Acknowledged)
  }

  ghost predicate DeliverySince(t: DeliveryTable, t': DeliveryTable) {
    && (forall c :: c in t.continuations ==>
        c in t'.continuations && SameButState(t.continuations[c], t'.continuations[c]))
    && Extends(t.acks, t'.acks)
  }

  ghost predicate Since(s: Store, s': Store) {
    && ClaimsSince(s.claims, s'.claims)
    && WorkSince(s.work, s'.work)
    && StepsSince(s.trail, s'.trail, s.work.receiptOf)
    && ParentSince(s.parent, s'.parent)
    && DeliverySince(s.delivery, s'.delivery)
  }

  lemma SinceSame(s: Store)
    ensures ClaimsSince(s.claims, s.claims) && WorkSince(s.work, s.work)
            && StepsSince(s.trail, s.trail, s.work.receiptOf)
    ensures ParentSince(s.parent, s.parent) && DeliverySince(s.delivery, s.delivery)
  {
  }

  lemma SinceTrans(s: Store, s1: Store, s2: Store)
    requires Since(s, s1) && Since(s1, s2)
    ensures Since(s, s2)
  {
    assert ClaimsSince(s.claims, s2.claims) by { ClaimsSinceTrans(s.claims, s1.claims, s2.claims); }
    assert WorkSince(s.work, s2.work) by { WorkSinceTrans(s.work, s1.work, s2.work); }
    assert StepsSince(s.trail, s2.trail, s.work.receiptOf) by { StepsSinceTrans(s, s1, s2); }
    assert ParentSince(s.parent, s2.parent) by { ParentSinceTrans(s.parent, s1.parent, s2.parent); }
    assert DeliverySince(s.delivery, s2.delivery) by { DeliverySinceTrans(s.delivery, s1.delivery, s2.delivery); }
    hide ClaimsSince, WorkSince, StepsSince, ParentSince, DeliverySince;
  }

  lemma ClaimsSinceTrans(t: ClaimTable, t1: ClaimTable, t2: ClaimTable)
    requires ClaimsSince(t, t1) && ClaimsSince(t1, t2)
    ensures ClaimsSince(t, t2)
  {
  }

  lemma WorkSinceTrans(t: WorkTable, t1: WorkTable, t2: WorkTable)
    requires WorkSince(t, t1) && WorkSince(t1, t2)
    ensures WorkSince(t, t2)
  {
  }

  lemma StepsSinceTrans(s: Store, s1: Store, s2: Store)
    requires StepsSince(s.trail, s1.trail, s.work.receiptOf) && StepsSince(s1.trail, s2.trail, s1.work.receiptOf)
    requires WorkSince(s.work, s1.work)
    ensures StepsSince(s.trail, s2.trail, s.work.receiptOf)
  {
  }

  lemma ParentSinceTrans(t: ParentTable, t1: ParentTable, t2: ParentTable)
    requires ParentSince(t, t1) && ParentSince(t1, t2)
    ensures ParentSince(t, t2)
  {
  }

  lemma DeliverySinceTrans(t: DeliveryTable, t1: DeliveryTable, t2: DeliveryTable)
    requires DeliverySince(t, t1) && DeliverySince(t1, t2)
    ensures DeliverySince(t, t2)
  {
  }

  // ----- each call ---------------------------------------------------------------------------

  lemma AddClaimSince(t: ClaimTable, packet: TaskPacket, receiptOf: map<Digest, TerminalReceipt>)
    requires LeaseInv(t, receiptOf) && packet.packetId !in t.leases
    requires ScopeSnapshot(t.versions, packet.body.scope) == packet.body.scopeVersions
    ensures ClaimsSince(t, AddClaim(t, packet))
  {
    AddClaimExtends(t, receiptOf, packet);
    hide LeaseInv, SetVersions, Extends;
    forall item ensures GetOr(t.versions, item, 0) <= GetOr(AddClaim(t, packet).versions, item, 0) {
      ClaimBumps(t.versions, packet.body.scope, item);
    }
  }

  lemma ClaimSince(s: Store, packet: TaskPacket)
    requires Inv(s)
    ensures Since(s, Claim(s, packet).0)
  {
    SinceSame(s);
    hide ClaimGuard, AddClaim, ClaimsSince, WorkSince, StepsSince, ParentSince, DeliverySince, LeaseInv, EffectInv,
         StepInv,
         RecoveryInv, RecoveryStepsAdmitted, DeliveryInv, MissionInv, ScopeSnapshot;
    if ClaimGuard(s, packet).Accepted? {
      ClaimFacts(s, packet);
      AddClaimSince(s.claims, packet, s.work.receiptOf);
    }
  }

  lemma AddReceiptSince(t: WorkTable, t': WorkTable, p: Digest)
    requires p !in t.receiptOf && t'.started == t.started && t'.failures == t.failures
    requires t'.receiptOf == t.receiptOf || (p in t'.receiptOf && t'.receiptOf == t.receiptOf[p := t'.receiptOf[p]])
    ensures WorkSince(t, t')
  {
  }

  lemma PersistSince(s: Store, s1: Store, packet: TaskPacket, lease: Lease, e: Ending)
    requires s1 == s.(work := s1.work) && s1.work.started == s.work.started && s1.work.failures == s.work.failures
    requires s1.work.receiptOf == s.work.receiptOf
    ensures Since(s, PersistTerminal(s1, packet, lease, e).0)
  {
    SinceSame(s);
    hide WorkSince, StepsSince, ParentSince, DeliverySince, HoldsLease, HasOpenStep;
    var s' := PersistTerminal(s1, packet, lease, e).0;
    if packet.packetId !in s.work.receiptOf {
      AddReceiptSince(s.work, s'.work, packet.packetId);
    } else {
      assert s' == s1;
      WorkSinceOwners(s.work, s1.work);
    }
  }

  lemma WorkSinceOwners(t: WorkTable, t': WorkTable)
    requires t'.started == t.started && t'.failures == t.failures && t'.receiptOf == t.receiptOf
    ensures WorkSince(t, t')
  {
  }

  lemma FailureSince(s: Store, packet: TaskPacket, lease: Lease, code: FailureCode, detail: Digest,
                     observed: Option<string>,
                     origin: FailureOrigin)
    ensures Since(s, RecordExecutionFailure(s, packet, lease, code, detail, observed, origin).0)
  {
    SinceSame(s);
    hide ClaimsSince, StepsSince, ParentSince, DeliverySince, HoldsLease, Blank;
  }

  lemma StepSince(s: Store, packet: TaskPacket, lease: Lease, step: StepAttempt)
    requires Inv(s)
    ensures Since(s, RecordStepAttempt(s, packet, lease, step).0)
  {
    SinceSame(s);
    hide ClaimsSince, WorkSince, ParentSince, DeliverySince, StepGuard, HoldsLease, Inv, RecoveryActionAdmitted,
         StepsSince,
         AddStep;
    if StepGuard(s, packet, lease, step).Accepted? && step.stepId !in s.trail.steps {
      StepFacts(s, packet, lease, step);
      NotTerminal(s, packet, lease);
      AddStepSince(s.trail, step, s.work.receiptOf);
    }
  }

  lemma AddStepSince(t: StepTable, step: StepAttempt, receiptOf: map<Digest, TerminalReceipt>)
    requires step.stepId !in t.steps && step.body.packetId !in receiptOf
    ensures StepsSince(t, AddStep(t, step), receiptOf)
  {
  }

  lemma NotTerminal(s: Store, packet: TaskPacket, lease: Lease)
    requires Inv(s) && HoldsLease(s, packet, lease)
    ensures packet.packetId !in s.work.receiptOf
  {
    hide LeaseInv, EffectInv, StepInv, RecoveryInv, RecoveryStepsAdmitted, DeliveryInv, MissionInv;
    HoldsLeaseFacts(s, packet, lease);
  }

  lemma PacketCallSince(s: Store, call: Call)
    requires call.BeginCall? || call.ReconcileStepCall? || call.BlockerCall? || call.AdmitCall?
    ensures Since(s, Next(s, call))
  {
    SinceSame(s);
    hide ClaimsSince, ParentSince, DeliverySince, ValidateClaim, AdmissionGuard, AddAdmission, Judgement,
         BlockerBindsStep,
         ReconciliationBinds, AdmissionReasons;
  }

  lemma ParentCallSince(s: Store, call: Call)
    requires call.DispositionCall? || call.SupersessionCall? || call.RegisterMissionCall?
    ensures Since(s, Next(s, call))
  {
    SinceSame(s);
    hide ClaimsSince, WorkSince, StepsSince, DeliverySince, FindRoute, SupersessionBinds;
  }

  lemma TerminalSince(s: Store, call: Call)
    requires Inv(s)
    requires call.PreExecutionCall? || call.ReconcileFailureCall? || call.ResultCall? || call.ReconcileEffectCall?
    ensures Since(s, Next(s, call))
  {
    SinceSame(s);
    hide ClaimsSince, WorkSince, StepsSince, ParentSince, DeliverySince, HoldsLease, HasOpenStep, PersistTerminal, Inv,
         RecordExecutionFailure, FailureGuard, EffectGuard, ResultGuard, OwnersAfterFailure, ResultMatches;
    match call
    case PreExecutionCall(packet, lease, code, detail) =>
      PersistSince(s, s, packet, lease, Ending(Blocked, None, NoEffect, PreExecutionDigest(code, detail), None, false,
                                               Some((code, FromHarness))));
    case ReconcileFailureCall(packet, lease, r) =>
      if FailureGuard(s, packet, lease, r).Accepted? {
        FailureRecorded(s, packet, lease, r);
        var failure := s.work.failures[packet.packetId].body;
        var owners := OwnersAfterFailure(s.work.effectOwner, packet.packetId, failure.observedEffectId, r);
        PersistSince(s, s.(work := s.work.(effectOwner := owners)), packet, lease,
                     Ending(Failed, r.effectId, r.effectState, r.outputDigest, Some(r.proofDigest), false,
                            Some((failure.failureCode, failure.origin))));
      }
    case ResultCall(packet, lease, result) =>
      FailureSince(s, packet, lease, StaleIdentity, ResultMismatchDigest(packet.packetId, lease.leaseId),
                   Some(result.effectId), FromHarness);
      if result.effectId in s.work.effectOwner {
        FailureSince(s, packet, lease, DuplicateOrReplay,
                     DuplicateEffectDigest(result.effectId, s.work.effectOwner[result.effectId]),
                     Some(result.effectId), FromHarness);
      }
      var s1 := s.(work := AddAttempt(s.work, packet.packetId, result));
      WorkSinceOwners(s.work, s1.work);
      PersistSince(s, s1, packet, lease, Ending(Succeeded, Some(result.effectId), Settled, result.outputDigest,
                                                Some(result.outputDigest), result.predicateSatisfied, None));
    case ReconcileEffectCall(packet, lease, r) =>
      if EffectGuard(s, packet, lease, r).Accepted? {
        AttemptRecorded(s, packet, lease, r);
        var settled: ExecutionResult := s.work.attempts[packet.packetId].(effectState := Settled);
        PersistSince(s, s.(work := s.work.(attempts := s.work.attempts[packet.packetId := settled])), packet, lease,
                     Ending(Succeeded, Some(settled.effectId), Settled, settled.outputDigest, Some(r.proofDigest),
                            settled.predicateSatisfied, None));
      }
  }

  lemma FailureRecorded(s: Store, packet: TaskPacket, lease: Lease, r: FailureReconciliation)
    requires FailureGuard(s, packet, lease, r).Accepted?
    ensures packet.packetId in s.work.failures
  {
  }

  lemma AttemptRecorded(s: Store, packet: TaskPacket, lease: Lease, r: EffectReconciliation)
    requires EffectGuard(s, packet, lease, r).Accepted?
    ensures packet.packetId in s.work.attempts
  {
  }

  lemma MoveSince(t: DeliveryTable, t': DeliveryTable, c: Continuation, state: ContinuationState)
    requires Get(t.continuations, c.continuationId) == Some(c) && c.state != Acknowledged
    requires t'.continuations == t.continuations[c.continuationId := c.(state := state)]
    requires Extends(t.acks, t'.acks)
    ensures DeliverySince(t, t')
  {
  }

  lemma AckExtends(s: Store, c: Continuation, receipt: TerminalReceipt, proof: ConvergenceProof,
                   expected: ContinuationState)
    requires Inv(s) && expected != Acknowledged && AcknowledgeDelivery(s, c, receipt, proof, expected).1.Accepted?
    ensures Extends(s.delivery.acks, AcknowledgeDelivery(s, c, receipt, proof, expected).0.delivery.acks)
    ensures Get(s.delivery.continuations, c.continuationId) == Some(c) && c.state == expected
    ensures AcknowledgeDelivery(s, c, receipt, proof, expected).1.value.1.ackId !in s.delivery.acks
  {
    hide LeaseInv, EffectInv, StepInv, RecoveryInv, RecoveryStepsAdmitted, DeliveryInv, MissionInv,
         ConvergenceIdentity, Blank;
    var r := AcknowledgeDelivery(s, c, receipt, proof, expected);
    AckKeeps(s.delivery, s.work.receipts, s.claims.packets, c, r.1.value.1, r.0.delivery.ackOf);
  }

  lemma AckSince(s: Store, c: Continuation, receipt: TerminalReceipt, proof: ConvergenceProof,
                 expected: ContinuationState)
    requires Inv(s) && expected != Acknowledged
    ensures Since(s, AcknowledgeDelivery(s, c, receipt, proof, expected).0)
  {
    SinceSame(s);
    hide Inv, ClaimsSince, WorkSince, StepsSince, ParentSince, DeliverySince, ConvergenceIdentity, Blank, Extends;
    var r := AcknowledgeDelivery(s, c, receipt, proof, expected);
    if r.1.Accepted? {
      AckExtends(s, c, receipt, proof, expected);
      MoveSince(s.delivery, r.0.delivery, c, Acknowledged);
    }
  }

  lemma PrepareSince(s: Store, receipt: TerminalReceipt)
    requires Inv(s)
    ensures Since(s, PrepareContinuation(s, receipt).0)
  {
    SinceSame(s);
    hide LeaseInv, EffectInv, StepInv, RecoveryInv, RecoveryStepsAdmitted, MissionInv, AcksMatch, ClaimsSince,
         WorkSince,
         StepsSince, ParentSince, ContinuationBinds;
    if && Get(s.work.receipts, receipt.receiptId) == Some(receipt) && receipt.receiptId !in s.delivery.continuationOf
       && receipt.body.packetId in s.claims.packets {
      var c := NewContinuation(receipt.receiptId, s.claims.packets[receipt.body.packetId].body.destination);
      NewContinuationBinds(s, receipt);
      PrepareBinds(s.delivery, s.work.receipts, s.claims.packets, c);
    }
  }

  lemma NewContinuationBinds(s: Store, receipt: TerminalReceipt)
    requires Get(s.work.receipts, receipt.receiptId) == Some(receipt) && receipt.body.packetId in s.claims.packets
    ensures ContinuationBinds(NewContinuation(receipt.receiptId,
                                              s.claims.packets[receipt.body.packetId].body.destination),
                              s.work.receipts, s.claims.packets)
  {
  }

  lemma DeliveriesSince(s: Store, call: Call)
    requires Inv(s)
    requires call.BeginDeliveryCall? || call.MarkUnsettledCall? || call.ReconcileContinuationCall?
    ensures Since(s, Next(s, call))
  {
    SinceSame(s);
    hide Inv, ClaimsSince, WorkSince, StepsSince, ParentSince, DeliverySince, AcknowledgeDelivery, ProvesAbsence;
    if call.ReconcileContinuationCall? {
      var r, proof := call.reconciliation, call.proof;
      if r.continuationId in s.delivery.continuations
        && s.delivery.continuations[r.continuationId].state == DeliveryUnsettled {
        var c := s.delivery.continuations[r.continuationId];
        ContinuationKeyed(s, r.continuationId);
        MoveSince(s.delivery, s.delivery.(continuations :=
                                          s.delivery.continuations[c.continuationId := c.(state := Prepared)]),
                  c, Prepared);
        if proof.Some? && proof.value.OfConvergence? {
          AckSince(s, c, call.receipt, proof.value.convergence, DeliveryUnsettled);
        }
      }
    } else {
      var c := call.continuation;
      if Get(s.delivery.continuations, c.continuationId) == Some(c) && c.state != Acknowledged {
        MoveSince(s.delivery, s.delivery.(continuations :=
                                          s.delivery.continuations[c.continuationId := c.(state := DeliveryStarted)]),
                  c, DeliveryStarted);
        MoveSince(s.delivery, s.delivery.(continuations :=
                                          s.delivery.continuations[c.continuationId := c.(state := DeliveryUnsettled)]),
                  c, DeliveryUnsettled);
      }
    }
  }

  lemma VerifySince(s: Store, ack: Acknowledgement, readback: MissionReadback)
    ensures Since(s, VerifyMission(s, ack, readback).0)
  {
    SinceSame(s);
    hide ClaimsSince, WorkSince, StepsSince, DeliverySince, AckIdentity, NextStep, Keys, ReadKeys, FindReadback,
         VerificationOf,
         ReadbackIdentity;
  }

  /** No call takes anything back. */
  lemma NextSince(s: Store, call: Call)
    requires Inv(s)
    ensures Since(s, Next(s, call))
  {
    hide Inv, Since;
    match call
    case ClaimCall(p) => hide Claim; ClaimSince(s, p);
    case StepCall(p, l, step) => hide RecordStepAttempt; StepSince(s, p, l, step);
    case FailureCall(p, l, code, detail, observed, origin) =>
      hide RecordExecutionFailure;
      FailureSince(s, p, l, code, detail, observed, origin);
    case PrepareCall(r) => hide PrepareContinuation; PrepareSince(s, r);
    case AcknowledgeCall(c, r, proof) => hide AcknowledgeDelivery; AckSince(s, c, r, proof, DeliveryStarted);
    case VerifyCall(ack, readback) => hide VerifyMission; VerifySince(s, ack, readback);
    case _ => {
      hide Next;
      if call.BeginDeliveryCall? || call.MarkUnsettledCall? || call.ReconcileContinuationCall? {
        DeliveriesSince(s, call);
      }
      else if call.PreExecutionCall? || call.ReconcileFailureCall? || call.ResultCall? || call.ReconcileEffectCall? {
        TerminalSince(s, call);
      }
      else if call.DispositionCall? || call.SupersessionCall? || call.RegisterMissionCall? { ParentCallSince(s, call); }
      else { PacketCallSince(s, call); }
    }
  }

  lemma {:induction false} RunSince(s: Store, calls: seq<Call>)
    requires Inv(s)
    ensures Since(s, Run(s, calls))
    decreases calls
  {
    hide Inv, ClaimsSince, WorkSince, StepsSince, ParentSince, DeliverySince, Next;
    if calls == [] {
      SinceSame(s);
    } else {
      var s1 := Next(s, calls[0]);
      NextSince(s, calls[0]);
      NextKeepsInv(s, calls[0]);
      RunSince(s1, calls[1..]);
      SinceTrans(s, s1, Run(s, calls));
    }
  }
}
