/** Rejected calls leave the store as it was, and which acknowledgements are authentic. */
module StoreRejections {
  import opened Records
  import opened StoreSpec
  import opened StoreInvariant
  import opened StorePreservation
  import opened StoreRuns
  import opened StoreTheorems

  // ----- rejections --------------------------------------------------------------------------

  /** The three rejections of an executor result that still record something: a mismatched result, a
      duplicate effect (each unless a failure is already recorded), and an unsettled effect. */
  predicate RecordsOnRejection(s: Store, packet: TaskPacket, lease: Lease, result: ExecutionResult) {
    && ResultGuard(s, packet, lease).Accepted?
    && if !ResultMatches(packet, lease, result) || result.effectId in s.work.effectOwner
       then packet.packetId !in s.work.failures
       else !result.effectState.Settled?
  }

  lemma FailureRejected(s: Store, packet: TaskPacket, lease: Lease, code: FailureCode, detail: Digest, effectId: string)
    requires Inv(s) && ResultGuard(s, packet, lease).Accepted? && ReconcilableCode(code) && !detail.FreeText?
    ensures var (s', outcome) := RecordThenReject(s, packet, lease, code, detail, effectId);
            && !outcome.Accepted?
            && (packet.packetId in s.work.failures ==> s' == s)
            && (packet.packetId !in s.work.failures ==>
                  && s' == s.(work := s.work.(failures := s'.work.failures, effectOwner := s'.work.effectOwner))
                  && packet.packetId in s'.work.failures
                  && s'.work.failures[packet.packetId].body.observedEffectId == Some(effectId))
  {
    hide LeaseInv, EffectInv, StepInv, RecoveryInv, RecoveryStepsAdmitted, DeliveryInv, MissionInv, HasOpenStep,
         HoldsLease,
         ReconcilableCode, ExecutorCode;
    HoldsLeaseFacts(s, packet, lease);
  }

  lemma ResultRejected(s: Store, packet: TaskPacket, lease: Lease, result: ExecutionResult)
    requires Inv(s) && !RecordExecution(s, packet, lease, result).1.Accepted?
    ensures var s' := RecordExecution(s, packet, lease, result).0;
            && (s' != s <==> RecordsOnRejection(s, packet, lease, result))
            && s' == s.(work := s.work.(attempts := s'.work.attempts, failures := s'.work.failures,
                                        effectOwner := s'.work.effectOwner))
            && (s' != s ==> packet.packetId in s'.work.failures || packet.packetId in s'.work.attempts)
  {
    hide Inv, ResultGuard, RecordThenReject, PersistTerminal, ResultMatches;
    if ResultGuard(s, packet, lease).Accepted? {
      if !ResultMatches(packet, lease, result) {
        FailureRejected(s, packet, lease, StaleIdentity, ResultMismatchDigest(packet.packetId, lease.leaseId),
                        result.effectId);
      } else if result.effectId in s.work.effectOwner {
        FailureRejected(s, packet, lease, DuplicateOrReplay,
                        DuplicateEffectDigest(result.effectId, s.work.effectOwner[result.effectId]), result.effectId);
      } else {
        ResultKeepsInv(s, packet, lease, result);
        AttemptIsNew(s, packet, lease, result);
      }
    }
  }

  lemma AttemptIsNew(s: Store, packet: TaskPacket, lease: Lease, result: ExecutionResult)
    requires ResultGuard(s, packet, lease).Accepted?
    ensures AddAttempt(s.work, packet.packetId, result) != s.work
            && packet.packetId in AddAttempt(s.work, packet.packetId, result).attempts
  {
    hide HoldsLease, HasOpenStep;
    assert packet.packetId !in s.work.attempts;
  }

  lemma PersistRejected(s: Store, call: Call)
    requires Inv(s) && !Accepts(s, call)
    requires call.PreExecutionCall? || call.ReconcileFailureCall? || call.ReconcileEffectCall?
    ensures Next(s, call) == s
  {
    hide Inv, HasOpenStep, HoldsLease, FailureGuard, EffectGuard, OwnersAfterFailure, AddReceipt, ReceiptFor;
    match call
    case ReconcileFailureCall(p, l, r) =>
      if FailureGuard(s, p, l, r).Accepted? { ReconcileFailureKeepsInv(s, p, l, r); }
    case ReconcileEffectCall(p, l, r) => if EffectGuard(s, p, l, r).Accepted? { ReconcileEffectKeepsInv(s, p, l, r); }
    case _ =>
  }

  lemma PlainRejected(s: Store, call: Call)
    requires !Accepts(s, call) && !call.ResultCall?
    requires !call.PreExecutionCall? && !call.ReconcileFailureCall? && !call.ReconcileEffectCall?
    ensures Next(s, call) == s
  {
    hide ClaimGuard, AddClaim, ValidateClaim, StepGuard, AddStep, AdmissionGuard, Judgement, AddAdmission, HoldsLease,
         FindRoute, SupersessionBinds, VerificationOf, FindReadback, ProvesAbsence, ReconciliationBinds,
         BlockerBindsStep,
         ConvergenceIdentity, Blank, NewContinuation, AckIdentity, ReadbackIdentity, Keys, ReadKeys;
  }

  /** In every reachable store a rejected call changes nothing, except for exactly the documented recording
      rejections of an executor result. In particular no re-check fails after a caller has already written. */
  lemma RejectionsAtomic(s: Store, call: Call)
    requires Reachable(s) && !Accepts(s, call)
    ensures Next(s, call) != s <==> call.ResultCall? && RecordsOnRejection(s, call.packet, call.lease, call.result)
  {
    hide Run, Inv, Next, Accepts, RecordsOnRejection;
    ReachableInv(s);
    if call.ResultCall? {
      NextResult(s, call.packet, call.lease, call.result);
      ResultRejected(s, call.packet, call.lease, call.result);
    } else if call.PreExecutionCall? || call.ReconcileFailureCall? || call.ReconcileEffectCall? {
      PersistRejected(s, call);
    } else {
      PlainRejected(s, call);
    }
  }

  lemma NextResult(s: Store, p: TaskPacket, l: Lease, result: ExecutionResult)
    ensures Next(s, ResultCall(p, l, result)) == RecordExecution(s, p, l, result).0
    ensures Accepts(s, ResultCall(p, l, result)) <==> RecordExecution(s, p, l, result).1.Accepted?
  {
    hide RecordExecution;
  }

  // ----- authentic acknowledgements ------------------------------------------------------------

  /** Each acknowledgement names its receipt's packet, and the packet index points back to it. */
  ghost predicate AcksAuthentic(t: DeliveryTable, receipts: map<Digest, TerminalReceipt>) {
    && (forall a :: a in t.acks ==>
          && t.acks[a].body.receiptId in receipts
          && t.acks[a].body.packetId == receipts[t.acks[a].body.receiptId].body.packetId
          && t.acks[a].body.packetId in t.ackOf)
    && (forall p :: p in t.ackOf ==> t.ackOf[p].ackId in t.acks && t.acks[t.ackOf[p].ackId] == t.ackOf[p]
                                     && t.ackOf[p].body.packetId == p)
  }

  /** The orchestrator only acknowledges with the receipt that `begin_delivery` found stored. */
  predicate ByHarness(s: Store, call: Call) {
    call.AcknowledgeCall? ==> Get(s.work.receipts, call.receipt.receiptId) == Some(call.receipt)
  }

  lemma AcknowledgeAuthentic(s: Store, c: Continuation, receipt: TerminalReceipt, proof: ConvergenceProof,
                             expected: ContinuationState)
    requires Inv(s) && AcksAuthentic(s.delivery, s.work.receipts) && expected != Acknowledged
    requires Get(s.work.receipts, receipt.receiptId) == Some(receipt)
    ensures var s' := AcknowledgeDelivery(s, c, receipt, proof, expected).0;
            AcksAuthentic(s'.delivery, s'.work.receipts)
  {
    hide Inv, ConvergenceIdentity, Blank, Extends;
    if AcknowledgeDelivery(s, c, receipt, proof, expected).1.Accepted? {
      AckExtends(s, c, receipt, proof, expected);
    }
  }

  lemma DeliveryFrame(s: Store, call: Call)
    requires !call.AcknowledgeCall? && !call.ReconcileContinuationCall?
    ensures Next(s, call).delivery.acks == s.delivery.acks && Next(s, call).delivery.ackOf == s.delivery.ackOf
  {
    hide NewContinuation;
    if !DeliveryCall(call) {
      hide Next;
      if EndingCall(call) { EndingFrame(s, call); } else { OtherFrame(s, call); }
    }
  }

  lemma ReceiptsKept(s: Store, s': Store)
    requires Inv(s) && Inv(s') && Since(s, s')
    ensures Extends(s.work.receipts, s'.work.receipts)
  {
    hide LeaseInv, StepInv, RecoveryInv, RecoveryStepsAdmitted, DeliveryInv, MissionInv, SettledOwned, PendingOwned,
         StartedOnly,
         ClaimsSince, StepsSince, ParentSince, DeliverySince, ReceiptBinds;
    forall r | r in s.work.receipts ensures r in s'.work.receipts && s'.work.receipts[r] == s.work.receipts[r] {
      var p := s.work.receipts[r].body.packetId;
      assert s'.work.receiptOf[p] == s.work.receipts[r];
    }
  }

  lemma ReconcileAuthentic(s: Store, receipt: TerminalReceipt, r: ContinuationReconciliation,
                           proof: Option<DeliveryProof>)
    requires Inv(s) && AcksAuthentic(s.delivery, s.work.receipts)
    ensures var s' := ReconcileContinuation(s, receipt, r, proof).0; AcksAuthentic(s'.delivery, s'.work.receipts)
  {
    hide Inv, AcknowledgeDelivery, ProvesAbsence;
    if && proof.Some? && proof.value.OfConvergence? && r.continuationId in s.delivery.continuations
       && Get(s.work.receipts, receipt.receiptId) == Some(receipt) {
      AcknowledgeAuthentic(s, s.delivery.continuations[r.continuationId], receipt, proof.value.convergence,
                           DeliveryUnsettled);
    }
  }

  lemma NextAcknowledge(s: Store, c: Continuation, receipt: TerminalReceipt, proof: ConvergenceProof,
                        r: ContinuationReconciliation, p: Option<DeliveryProof>)
    ensures Next(s, AcknowledgeCall(c, receipt, proof)) == AcknowledgeDelivery(s, c, receipt, proof, DeliveryStarted).0
    ensures Next(s, ReconcileContinuationCall(receipt, r, p)) == ReconcileContinuation(s, receipt, r, p).0
  {
    hide AcknowledgeDelivery, ReconcileContinuation;
  }

  lemma NextAuthentic(s: Store, call: Call)
    requires Inv(s) && AcksAuthentic(s.delivery, s.work.receipts) && ByHarness(s, call)
    ensures AcksAuthentic(Next(s, call).delivery, Next(s, call).work.receipts)
  {
    hide Inv, Next, Since, AcknowledgeDelivery, ReconcileContinuation;
    match call
    case AcknowledgeCall(c, receipt, proof) =>
      NextAcknowledge(s, c, receipt, proof, ContinuationReconciliation(c.continuationId, c.receiptId, c.turnRequestId,
                                                                       Committed, FreeText("")), None);
      AcknowledgeAuthentic(s, c, receipt, proof, DeliveryStarted);
    case ReconcileContinuationCall(receipt, r, p) =>
      NextAcknowledge(s, Continuation(r.continuationId, r.receiptId, Destination("", ""), r.turnRequestId, Prepared),
                      receipt,
                      CompletedTurn(Continuation(r.continuationId, r.receiptId, Destination("", ""), r.turnRequestId,
                                                 Prepared)), r, p);
      ReconcileAuthentic(s, receipt, r, p);
    case _ =>
      NextKeepsInv(s, call);
      NextSince(s, call);
      ReceiptsKept(s, Next(s, call));
      DeliveryFrame(s, call);
  }

  /** Every run in which each acknowledgement carries the stored receipt keeps all acknowledgements authentic. */
  lemma {:induction false} HarnessRunsAuthentic(calls: seq<Call>, n: nat)
    requires n <= |calls| && forall i :: 0 <= i < |calls| ==> ByHarness(Before(calls, i), calls[i])
    ensures AcksAuthentic(Before(calls, n).delivery, Before(calls, n).work.receipts)
    decreases n
  {
    hide Inv, Next, Since, ByHarness;
    if n == 0 {
      assert calls[..0] == [];
    } else {
      HarnessRunsAuthentic(calls, n - 1);
      BeforeSince(calls, n - 1, n - 1);
      hide AcksAuthentic;
      NextAuthentic(Before(calls, n - 1), calls[n - 1]);
      RunStep(EMPTY, calls, n - 1);
    }
  }

  /** With authentic acknowledgements every acknowledged continuation has the empty replay of its own packet. */
  lemma AcknowledgedReplays(s: Store, c: Continuation)
    requires Inv(s) && AcksAuthentic(s.delivery, s.work.receipts)
    requires Get(s.delivery.continuations, c.continuationId) == Some(c) && c.state == Acknowledged
    ensures c.receiptId in s.work.receipts
    ensures ReplayAcknowledged(s, c) == Accepted(s.work.receipts[c.receiptId].body.packetId)
  {
    hide LeaseInv, EffectInv, StepInv, RecoveryInv, RecoveryStepsAdmitted, MissionInv;
    var a :| a in s.delivery.acks && s.delivery.acks[a].body.continuationId == c.continuationId;
    assert AckBinds(s.delivery.acks[a], s.delivery.continuations);
  }

  /** A well-formed proof that the continuation's turn completed. */
  function CompletedTurn(c: Continuation): ConvergenceProof {
    var body := ConvergenceBody(c.continuationId, c.receiptId, c.destination, c.turnRequestId, "turn", true);
    ConvergenceProof(ConvergenceDigest(body), body)
  }

  /** A receipt with the stored receipt's id but another packet. */
  function Reassigned(stored: TerminalReceipt, packetId: Digest): TerminalReceipt {
    stored.(body := stored.body.(packetId := packetId))
  }

  lemma StartedReceipt(s: Store, c: Continuation)
    requires Inv(s) && Get(s.delivery.continuations, c.continuationId) == Some(c)
    ensures c.receiptId in s.work.receipts && s.work.receipts[c.receiptId].receiptId == c.receiptId
  {
    hide LeaseInv, EffectInv, StepInv, RecoveryInv, RecoveryStepsAdmitted, MissionInv, AcksMatch;
    assert ContinuationBinds(c, s.work.receipts, s.claims.packets);
    ReceiptKeyed(s, c.receiptId);
  }

  /** The store itself does not look the receipt up: any started delivery is acknowledged for whatever packet a
      receipt with the right id names. */
  lemma ForgedReceiptAcknowledged(s: Store, c: Continuation, packetId: Digest)
    requires Inv(s) && IsCurrent(s, c, DeliveryStarted)
    ensures c.receiptId in s.work.receipts
    ensures var outcome := AcknowledgeDelivery(s, c, Reassigned(s.work.receipts[c.receiptId], packetId),
                                               CompletedTurn(c), DeliveryStarted).1;
            outcome.Accepted? && outcome.value.1.body.packetId == packetId
  {
    hide Inv;
    StartedReceipt(s, c);
    assert !Whitespace("turn"[0]) && "turn"[0] in "turn";
  }

  /** So an accepted acknowledgement keeps the acknowledgements authentic exactly when the receipt handed in names
      the packet of the stored receipt. */
  lemma AuthenticExactly(s: Store, c: Continuation, receipt: TerminalReceipt, proof: ConvergenceProof)
    requires Inv(s) && AcksAuthentic(s.delivery, s.work.receipts)
    requires AcknowledgeDelivery(s, c, receipt, proof, DeliveryStarted).1.Accepted?
    ensures receipt.receiptId in s.work.receipts
    ensures var s' := AcknowledgeDelivery(s, c, receipt, proof, DeliveryStarted).0;
            AcksAuthentic(s'.delivery, s'.work.receipts) <==>
              receipt.body.packetId == s.work.receipts[receipt.receiptId].body.packetId
  {
    hide Inv, ConvergenceIdentity, Blank, Extends, AcksAuthentic;
    StartedReceipt(s, c);
    AckExtends(s, c, receipt, proof, DeliveryStarted);
    AckAdded(s.delivery, s.work.receipts, c, receipt, proof.proofId);
  }

  lemma AckAdded(t: DeliveryTable, receipts: map<Digest, TerminalReceipt>, c: Continuation, receipt: TerminalReceipt,
                 proofId: Digest)
    requires AcksAuthentic(t, receipts) && receipt.receiptId in receipts
    requires SealAck(AckBody(receipt.body.packetId, receipt.receiptId, c.continuationId, proofId)).ackId !in t.acks
    ensures var ack := SealAck(AckBody(receipt.body.packetId, receipt.receiptId, c.continuationId, proofId));
            AcksAuthentic(t.(continuations := t.continuations[c.continuationId := c.(state := Acknowledged)],
                             acks := t.acks[ack.ackId := ack], ackOf := t.ackOf[receipt.body.packetId := ack]),
                               receipts)
            <==> receipt.body.packetId == receipts[receipt.receiptId].body.packetId
  {
    var ack := SealAck(AckBody(receipt.body.packetId, receipt.receiptId, c.continuationId, proofId));
    var acks, ackOf := t.acks[ack.ackId := ack], t.ackOf[receipt.body.packetId := ack];
    assert ack.ackId in acks && acks[ack.ackId] == ack;
    assert forall p | p in ackOf :: ackOf[p].ackId in acks && acks[ackOf[p].ackId] == ackOf[p];
    assert forall a | a in acks :: a == ack.ackId || (a in t.acks && acks[a] == t.acks[a]);
  }

  /** Reading the parent back for an acknowledgement of an unclaimed packet dies instead of being rejected. */
  lemma ForgedAcknowledgementDies(s: Store, ack: Acknowledgement, readback: MissionReadback)
    requires Get(s.delivery.acks, ack.ackId) == Some(ack) && AckIdentity(ack) && ReadbackIdentity(readback)
    requires Inv(s)
    ensures VerifyMission(s, ack, readback).1.Crashed? <==> ack.body.packetId !in s.claims.packets
  {
    hide LeaseInv, EffectInv, StepInv, RecoveryInv, RecoveryStepsAdmitted, DeliveryInv, SnapshotsBind,
         VerificationsBehind,
         PlannedFirst, RouteMatches, Keys, ReadKeys, NextStep, AckIdentity, ReadbackIdentity;
    if ack.body.packetId in s.claims.packets {
      var packet := s.claims.packets[ack.body.packetId].body;
      if CurrentMission(s.parent.missions, packet) { CurrentKeyKnown(s.parent.missions[packet.missionId], packet); }
    }
  }

  lemma CurrentKeyKnown(mission: Mission, p: PacketBody)
    ensures RouteMatches(mission, p) ==> p.predicateKey in Keys(mission.predicates)
  {
  }

  lemma ReceiptKeyed(s: Store, id: Digest)
    requires Inv(s) && id in s.work.receipts
    ensures s.work.receipts[id].receiptId == id
  {
    hide LeaseInv, StepInv, RecoveryInv, RecoveryStepsAdmitted, DeliveryInv, MissionInv, SettledOwned, PendingOwned,
         StartedOnly, ReceiptBinds;
  }
}
