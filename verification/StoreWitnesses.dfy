/**
 Runs from an empty store that reach what the store does not promise: a lease that is held forever, responses that
 leave no trace, and an acknowledgement of a packet that was never claimed.
 */
module StoreWitnesses {
  import opened Records
  import opened StoreSpec
  import opened StoreInvariant
  import opened StorePreservation
  import opened StoreRuns
  import opened StoreTheorems
  import opened StoreRelease
  import opened StoreRejections
  import opened Harness
  import opened HarnessCycle

  const ROUTE := Route("r", "k", "x", ["a"], "delta", "never", 0, 5)
  const MISSION: Mission := Revision(1)
  const LATER: Mission := Revision(2)
  const PACKET := PacketFor(map[], MISSION, "k", ROUTE, None)
  const LEASE := LeaseFor(PACKET)

  /** A mission with one open predicate and one route. */
  function Revision(n: int): (m: Mission)
    requires n >= 1
    ensures m == MissionRecord("m", n, "mode", [ExitPredicate("k", false)], [ROUTE], Destination("c", "t"))
  {
    var m := MissionRecord("m", n, "mode", [ExitPredicate("k", false)], [ROUTE], Destination("c", "t"));
    assert Keys(m.predicates)[0] == "k";
    m
  }

  // ----- one call at a time --------------------------------------------------------------------

  lemma RunSnoc(calls: seq<Call>, call: Call)
    ensures Run(EMPTY, calls + [call]) == Next(Run(EMPTY, calls), call)
  {
    hide Next, Run;
    RunConcat(EMPTY, calls, [call]);
    RunOne(Run(EMPTY, calls), call);
  }

  lemma RunOne(s: Store, call: Call)
    ensures Run(s, [call]) == Next(s, call)
  {
    hide Next;
    assert [call][1..] == [];
  }

  lemma NextRegister(s: Store, m: Mission)
    ensures Next(s, RegisterMissionCall(m)) == RegisterMission(s, m).0
  {
    hide RegisterMission;
  }

  lemma NextClaim(s: Store, p: TaskPacket)
    ensures Next(s, ClaimCall(p)) == Claim(s, p).0
  {
    hide Claim;
  }

  lemma NextBegin(s: Store, p: TaskPacket, l: Lease)
    ensures Next(s, BeginCall(p, l)) == BeginExecution(s, p, l).0
  {
    hide BeginExecution;
  }

  lemma NextStepCall(s: Store, p: TaskPacket, l: Lease, step: StepAttempt)
    ensures Next(s, StepCall(p, l, step)) == RecordStepAttempt(s, p, l, step).0
  {
    hide RecordStepAttempt;
  }

  lemma NextPrepare(s: Store, receipt: TerminalReceipt)
    ensures Next(s, PrepareCall(receipt)) == PrepareContinuation(s, receipt).0
  {
    hide PrepareContinuation;
  }

  lemma NextBeginDelivery(s: Store, c: Continuation, receipt: TerminalReceipt)
    ensures Next(s, BeginDeliveryCall(c, receipt)) == BeginDelivery(s, c, receipt).0
  {
    hide BeginDelivery;
  }

  // ----- a started packet ----------------------------------------------------------------------

  function Registered(): Store { RegisterMission(EMPTY, MISSION).0 }
  function Started(): Store { BeginExecution(Claim(Registered(), PACKET).0, PACKET, LEASE).0 }

  const START := [RegisterMissionCall(MISSION), ClaimCall(PACKET), BeginCall(PACKET, LEASE)]

  lemma RegisteredPlans()
    ensures var s := Registered();
            && Inv(s) && s == EMPTY.(parent := EMPTY.parent.(missions := map["m" := MISSION]))
            && Plans(s, MISSION, None, Accepted(PACKET))
  {
    hide Inv, FirstFalse;
    InvInit();
    RegisterKeepsInv(EMPTY, MISSION);
    var s := Registered();
    OpenPredicate(s.parent.snapshots);
    OnlyRoute(s.parent);
  }

  lemma OnlyRoute(t: ParentTable)
    requires t.dispositions == map[]
    ensures Selected(t, MISSION, "k", ROUTE)
  {
    hide Outranks;
  }

  lemma OpenPredicate(snapshots: map<(string, int), MissionReadback>)
    requires snapshots == map[]
    ensures FirstFalse(snapshots, MISSION) == Accepted(Some(ExitPredicate("k", false)))
  {
    var truths := DeclaredTruths(MISSION.predicates);
    assert truths[..1] == truths == [Unsatisfied];
  }

  lemma StartedReady()
    ensures Ready(Started(), PACKET, LEASE) && Run(EMPTY, START) == Started()
    ensures Claim(Registered(), PACKET).1.Accepted?
            && BeginExecution(Claim(Registered(), PACKET).0, PACKET, LEASE).1.Accepted?
    ensures Started().parent == Registered().parent && Started().trail == EMPTY.trail
            && Started().work.effectOwner == map[]
    ensures Started().work.attempts == map[] && Started().work.failures == map[] && Started().work.receiptOf == map[]
    ensures ValidatePacket(Started(), PACKET).Accepted?
  {
    hide Inv, Plans, Ready, ValidatePacket, LeaseFor;
    RegisteredPlans();
    var s := Registered();
    PlannedPacketClaims(s, MISSION, None, PACKET);
    ClaimedGuard(s, PACKET);
    ClaimedStarts(s, PACKET);
    ClaimEffect(s, PACKET);
    hide Claim, ClaimGuard;
    var s1 := Claim(s, PACKET).0;
    BegunEffect(s1, PACKET, LEASE);
    SameParentValid(s, Started(), PACKET);
    StartRuns();
  }

  lemma BegunEffect(s: Store, packet: TaskPacket, lease: Lease)
    requires BeginExecution(s, packet, lease).1.Accepted?
    ensures BeginExecution(s, packet, lease).0 == s.(work := s.work.(started := s.work.started + {packet.packetId}))
  {
    hide ValidateClaim;
  }

  lemma StartRuns()
    ensures Run(EMPTY, START) == Started()
  {
    hide Next, Run, RegisterMission, Claim, BeginExecution, LeaseFor, PacketFor;
    var c1, c2, c3 := RegisterMissionCall(MISSION), ClaimCall(PACKET), BeginCall(PACKET, LEASE);
    assert START == [c1] + [c2] + [c3];
    RunOne(EMPTY, c1);
    RunSnoc([c1], c2);
    RunSnoc([c1] + [c2], c3);
    NextRegister(EMPTY, MISSION);
    NextClaim(Registered(), PACKET);
    NextBegin(Claim(Registered(), PACKET).0, PACKET, LEASE);
  }

  // ----- an unresolved step --------------------------------------------------------------------

  const STEP_BODY := StepBody(PACKET.packetId, LEASE.leaseId, "operation", "tool", "before", External, Some("effect"),
                              Unsettled, "result", None)
  const STEP: StepAttempt := StepRecord(StepDigest(STEP_BODY), STEP_BODY)

  function Stepped(): Store { RecordStepAttempt(Started(), PACKET, LEASE, STEP).0 }

  lemma SteppedOpen()
    ensures RecordStepAttempt(Started(), PACKET, LEASE, STEP).1.Accepted?
    ensures HasOpenStep(Stepped().trail, PACKET.packetId) && Stepped() == Started().(trail := Stepped().trail)
    ensures Run(EMPTY, START + [StepCall(PACKET, LEASE, STEP)]) == Stepped()
  {
    hide Inv, ValidatePacket, Started, Run, Next, LeaseFor, PacketFor;
    StartedReady();
    RunSnoc(START, StepCall(PACKET, LEASE, STEP));
    NextStepCall(Started(), PACKET, LEASE, STEP);
    StepRecorded(Started());
  }

  lemma StepRecorded(s: Store)
    requires Ready(s, PACKET, LEASE) && ValidatePacket(s, PACKET).Accepted? && s.trail == EMPTY.trail
    ensures var r := RecordStepAttempt(s, PACKET, LEASE, STEP);
            r.1.Accepted? && r.0 == s.(trail := r.0.trail) && HasOpenStep(r.0.trail, PACKET.packetId)
  {
    hide Inv, ValidatePacket, HoldsLease, LeaseFor, PacketFor;
    var t := RecordStepAttempt(s, PACKET, LEASE, STEP).0.trail;
    assert t == AddStep(s.trail, STEP);
    assert GetOr(t.stepsOf, PACKET.packetId, []) == [STEP.stepId];
    assert OpenStep(t, STEP.stepId);
  }

  // ----- a lease that is held forever ----------------------------------------------------------

  const STUCK_RUN := START + [StepCall(PACKET, LEASE, STEP), RegisterMissionCall(LATER)]

  /** Superseding the mission while a step is unresolved leaves the lease held for good. */
  lemma LeaseHeldForever()
    ensures var s := Run(EMPTY, STUCK_RUN);
            Stuck(s, PACKET.packetId) && LEASE.leaseId in s.claims.active && !Releasable(s, LEASE.leaseId)
  {
    hide Run, Next, Inv, LeaseFor, PacketFor, HasOpenStep;
    var calls := START + [StepCall(PACKET, LEASE, STEP)];
    assert STUCK_RUN == calls + [RegisterMissionCall(LATER)];
    SteppedOpen();
    RunSnoc(calls, RegisterMissionCall(LATER));
    NextRegister(Stepped(), LATER);
    InvInit();
    RunKeepsInv(EMPTY, STUCK_RUN);
    StartedReady();
    SupersededStuck(Stepped());
    var s := Run(EMPTY, STUCK_RUN);
    StuckForever(s, PACKET.packetId);
    HeldHolds(s, PACKET.packetId);
  }

  lemma SupersededStuck(s: Store)
    requires Ready(Started(), PACKET, LEASE) && s == Started().(trail := s.trail)
             && HasOpenStep(s.trail, PACKET.packetId)
    requires Started().parent == Registered().parent && Started().work.receiptOf == map[]
    ensures var s' := RegisterMission(s, LATER).0;
            Stuck(s', PACKET.packetId) && s'.claims.leases[PACKET.packetId] == LEASE
  {
    hide Inv, HasOpenStep, LeaseFor, Started;
    RegisteredPlans();
    assert s.parent.missions == map["m" := MISSION];
    assert PACKET.packetId in s.claims.packets && s.claims.packets[PACKET.packetId] == PACKET;
  }

  // ----- responses that leave no trace -----------------------------------------------------------

  const RESULT: ExecutionResult := ResultRecord("x", PACKET.packetId, LEASE.leaseId, "other effect", Settled,
                                                FreeText("output"), true)
  const SIGNAL_BODY := FailureBody(PACKET.packetId, LEASE.leaseId, LeaseConflict,
                                   ResultMismatchDigest(PACKET.packetId, LEASE.leaseId), None, FromHarness)
  const SIGNAL: Signal := ExecutionFailure(FailureDigest(SIGNAL_BODY), SIGNAL_BODY)

  /** A step recorded during the execution is still unresolved when the result comes back: nothing is recorded. */
  lemma ResultDropped()
    ensures var s := Run(EMPTY, START[..2]);
            var response, meanwhile := Returned(RESULT), [StepCall(PACKET, LEASE, STEP)];
            && BeginExecution(s, PACKET, LEASE).1.Accepted?
            && Dropped(Run(BeginExecution(s, PACKET, LEASE).0, meanwhile), PACKET, LEASE, response)
            && !Accounted(Executed(s, PACKET, LEASE, "x", response, meanwhile).0.work, PACKET.packetId)
  {
    hide Inv, Run, Next, LeaseFor, PacketFor, HasOpenStep, RecordExecution;
    ClaimedRun();
    StartedReady();
    SteppedOpen();
    RunOne(Started(), StepCall(PACKET, LEASE, STEP));
    NextStepCall(Started(), PACKET, LEASE, STEP);
    hide BeginExecution, Claim, RecordStepAttempt;
    var s := Claim(Registered(), PACKET).0;
    ClaimedExecutor();
    assert Run(BeginExecution(s, PACKET, LEASE).0, [StepCall(PACKET, LEASE, STEP)]) == Stepped();
    SteppedInv();
    ResultAccounted(Stepped(), PACKET, LEASE, RESULT);
  }

  lemma ClaimedExecutor()
    ensures PACKET.body.executorId == "x"
  {
  }

  lemma ClaimedRun()
    ensures Run(EMPTY, START[..2]) == Claim(Registered(), PACKET).0
  {
    hide Next, Run, RegisterMission, Claim, BeginExecution, LeaseFor, PacketFor;
    var c1, c2 := RegisterMissionCall(MISSION), ClaimCall(PACKET);
    assert START[..2] == [c1] + [c2];
    RunOne(EMPTY, c1);
    RunSnoc([c1], c2);
    NextRegister(EMPTY, MISSION);
    NextClaim(Registered(), PACKET);
  }

  lemma SteppedInv()
    ensures Inv(Stepped()) && HoldsLease(Stepped(), PACKET, LEASE) && PACKET.packetId in Stepped().work.started
    ensures !Accounted(Stepped().work, PACKET.packetId)
  {
    hide Inv, Run, Next, LeaseFor, PacketFor, HasOpenStep, Started, Stepped;
    StartedReady();
    SteppedOpen();
    InvInit();
    RunKeepsInv(EMPTY, START + [StepCall(PACKET, LEASE, STEP)]);
  }

  /** A bound signal of harness origin with a code an executor may not report: nothing is recorded. */
  lemma SignalDropped()
    ensures var s, response := Run(EMPTY, START[..2]), Signalled(SIGNAL);
            && BeginExecution(s, PACKET, LEASE).1.Accepted?
            && Dropped(Run(BeginExecution(s, PACKET, LEASE).0, []), PACKET, LEASE, response)
            && !Accounted(Executed(s, PACKET, LEASE, "x", response, []).0.work, PACKET.packetId)
  {
    hide Inv, Run, Next, LeaseFor, PacketFor, HasOpenStep, RecordExecutionFailure;
    ClaimedRun();
    StartedReady();
    NoCalls(Started());
    hide BeginExecution, Claim;
    ClaimedExecutor();
    var s := Claim(Registered(), PACKET).0;
    assert Run(BeginExecution(s, PACKET, LEASE).0, []) == Started();
    FailureAccounted(Started(), PACKET, LEASE, Signalled(SIGNAL));
  }

  lemma NoCalls(s: Store)
    ensures Run(s, []) == s
  {
    hide Next;
  }

  // ----- an attempt that ends in failure ---------------------------------------------------------

  const PENDING: ExecutionResult := RESULT.(effectState := Unsettled)
  const LOST := ExecutorExceptionDigest("TimeoutError", "connection lost")
  const ABSENT: FailureReconciliation :=
    FailureReconciliationRecord(PACKET.packetId, LEASE.leaseId, ExecutorError, NoEffect, None, FreeText("proof"),
                                FreeText("nothing"))

  /** Held and started, with neither failure nor receipt and no open step. */
  ghost predicate Unended(s: Store, packet: TaskPacket, lease: Lease) {
    && HoldsLease(s, packet, lease) && packet.packetId in s.work.started && !HasOpenStep(s.trail, packet.packetId)
    && packet.packetId !in s.work.failures && packet.packetId !in s.work.receiptOf
  }

  lemma PendingRecorded(s: Store, packet: TaskPacket, lease: Lease, result: ExecutionResult)
    requires Unended(s, packet, lease) && packet.packetId !in s.work.attempts && ResultMatches(packet, lease, result)
    requires result.effectState.Unsettled? && result.effectId !in s.work.effectOwner
    ensures var s' := RecordExecution(s, packet, lease, result).0;
            Unended(s', packet, lease) && packet.packetId in s'.work.attempts
  {
    hide HasOpenStep, ResultMatches;
  }

  lemma FailureKept(s: Store, packet: TaskPacket, lease: Lease)
    requires Unended(s, packet, lease) && packet.packetId in s.work.attempts
    ensures var s' := RecordExecutionFailure(s, packet, lease, ExecutorError, LOST, None, FromExecutor).0;
            && HoldsLease(s', packet, lease) && !HasOpenStep(s'.trail, packet.packetId)
            && packet.packetId in s'.work.failures && packet.packetId !in s'.work.receiptOf
            && packet.packetId in s'.work.attempts
            && s'.work.failures[packet.packetId].body.failureCode.ExecutorError?
  {
    hide HasOpenStep;
  }

  lemma AbsenceEnds(s: Store, packet: TaskPacket, lease: Lease, r: FailureReconciliation)
    requires HoldsLease(s, packet, lease) && !HasOpenStep(s.trail, packet.packetId)
    requires packet.packetId in s.work.failures && packet.packetId !in s.work.receiptOf
    requires packet.packetId in s.work.attempts && r.packetId == packet.packetId && r.leaseId == lease.leaseId
    requires r.failureCode == s.work.failures[packet.packetId].body.failureCode && r.effectState.NoEffect?
    ensures var s' := ReconcileFailure(s, packet, lease, r).0;
            && packet.packetId in s'.work.attempts && packet.packetId in s'.work.receiptOf
            && s'.work.receiptOf[packet.packetId].body.status.Failed?
  {
    hide HasOpenStep, OwnersAfterFailure;
  }

  lemma PendingFails(s: Store)
    requires Ready(s, PACKET, LEASE) && s.work.effectOwner == map[] && PACKET.packetId !in s.work.failures
    requires PACKET.packetId !in s.work.receiptOf
    ensures var s1 := RecordExecution(s, PACKET, LEASE, PENDING).0;
            var s2 := RecordExecutionFailure(s1, PACKET, LEASE, ExecutorError, LOST, None, FromExecutor).0;
            var s3 := ReconcileFailure(s2, PACKET, LEASE, ABSENT).0;
            && PACKET.packetId in s3.work.attempts && PACKET.packetId in s3.work.receiptOf
            && s3.work.receiptOf[PACKET.packetId].body.status.Failed?
  {
    assert ResultMatches(PACKET, LEASE, PENDING);
    hide Inv, HasOpenStep, HoldsLease, ResultMatches, LeaseFor, PacketFor, RecordExecution, RecordExecutionFailure,
         ReconcileFailure;
    PendingRecorded(s, PACKET, LEASE, PENDING);
    var s1 := RecordExecution(s, PACKET, LEASE, PENDING).0;
    FailureKept(s1, PACKET, LEASE);
    AbsenceEnds(RecordExecutionFailure(s1, PACKET, LEASE, ExecutorError, LOST, None, FromExecutor).0, PACKET, LEASE,
                ABSENT);
  }

  lemma NextFailed(s: Store)
    ensures Next(s, ResultCall(PACKET, LEASE, PENDING)) == RecordExecution(s, PACKET, LEASE, PENDING).0
    ensures Next(s, FailureCall(PACKET, LEASE, ExecutorError, LOST, None, FromExecutor))
            == RecordExecutionFailure(s, PACKET, LEASE, ExecutorError, LOST, None, FromExecutor).0
    ensures Next(s, ReconcileFailureCall(PACKET, LEASE, ABSENT)) == ReconcileFailure(s, PACKET, LEASE, ABSENT).0
  {
    hide RecordExecution, RecordExecutionFailure, ReconcileFailure;
  }

  /** A packet whose unsettled result was recorded still ends as failed once a failure is recorded and reconciled, so
      having an attempt is not enough for success. */
  lemma FailedDespiteAttempt()
    ensures var s := Run(EMPTY, START + [ResultCall(PACKET, LEASE, PENDING)]
                                + [FailureCall(PACKET, LEASE, ExecutorError, LOST, None, FromExecutor)]
                                + [ReconcileFailureCall(PACKET, LEASE, ABSENT)]);
            && PACKET.packetId in s.work.attempts && PACKET.packetId in s.work.receiptOf
            && s.work.receiptOf[PACKET.packetId].body.status.Failed?
  {
    hide Inv, Run, Next, LeaseFor, PacketFor, Started, Ready, RecordExecution, RecordExecutionFailure, ReconcileFailure;
    StartedReady();
    var s := Started();
    PendingFails(s);
    var c1, c2 := ResultCall(PACKET, LEASE, PENDING),
      FailureCall(PACKET, LEASE, ExecutorError, LOST, None, FromExecutor);
    RunSnoc(START, c1);
    RunSnoc(START + [c1], c2);
    RunSnoc(START + [c1] + [c2], ReconcileFailureCall(PACKET, LEASE, ABSENT));
    NextFailed(s);
    var s1 := RecordExecution(s, PACKET, LEASE, PENDING).0;
    NextFailed(s1);
    NextFailed(RecordExecutionFailure(s1, PACKET, LEASE, ExecutorError, LOST, None, FromExecutor).0);
  }

  // ----- an acknowledgement of a packet that was never claimed -----------------------------------

  const NOBODY := FreeText("nobody")

  function Ended(): (Store, Outcome<TerminalReceipt>) { RecordExecution(Started(), PACKET, LEASE, RESULT) }

  lemma EndedAccepted()
    ensures Ended().1.Accepted? && Inv(Ended().0)
            && Run(EMPTY, START + [ResultCall(PACKET, LEASE, RESULT)]) == Ended().0
    ensures var r := Ended().1.value;
            && r.receiptId in Ended().0.work.receipts && Ended().0.work.receipts[r.receiptId] == r
            && r.receiptId !in Ended().0.delivery.continuationOf && r.body.packetId in Ended().0.claims.packets
  {
    hide Inv, Run, Next, LeaseFor, PacketFor, RecordExecution, Started, Ready;
    StartedReady();
    ResultBinds();
    ReadySettles(Started(), PACKET, LEASE, RESULT);
    ReadyInv(Started(), PACKET, LEASE);
    UnpreparedReceipt(Started(), Ended().1.value.receiptId);
    RunSnoc(START, ResultCall(PACKET, LEASE, RESULT));
    NextResult(Started(), PACKET, LEASE, RESULT);
  }

  lemma ResultBinds()
    ensures ResultMatches(PACKET, LEASE, RESULT)
  {
  }

  lemma NobodyClaimed(s: Store)
    requires Inv(s)
    ensures NOBODY !in s.claims.packets
  {
    hide EffectInv, StepInv, RecoveryInv, RecoveryStepsAdmitted, DeliveryInv, MissionInv, ActiveUntilReceipt, Exclusive,
         VersionsCountClaims, VersionsFence, LeaseBinds;
  }

  /** A run whose last call acknowledges a delivery for a packet that nobody claimed; reading the parent back for that
      acknowledgement dies on the missing packet. */
  lemma ForgedAcknowledgementReached() returns (calls: seq<Call>, ack: Acknowledgement)
    ensures var s := Run(EMPTY, calls);
            && ack.ackId in s.delivery.acks && s.delivery.acks[ack.ackId] == ack && ack.body.packetId == NOBODY
            && NOBODY !in s.claims.packets
            && forall readback :: ReadbackIdentity(readback) ==> VerifyMission(s, ack, readback).1.Crashed?
  {
    hide Inv, Run, Next, LeaseFor, PacketFor, Ended, PrepareContinuation, BeginDelivery, AcknowledgeDelivery,
         VerifyMission;
    EndedAccepted();
    var s, receipt := Ended().0, Ended().1.value;
    var c := NewContinuation(receipt.receiptId, s.claims.packets[receipt.body.packetId].body.destination);
    ReceiptDelivers(s, receipt);
    var started := c.(state := DeliveryStarted);
    var s2 := PrepareContinuation(s, receipt).0;
    var s3 := BeginDelivery(s2, c, receipt).0;
    DeliveryCurrent(s2, c, receipt);
    PrepareKeepsInv(s, receipt);
    BeginDeliveryKeepsInv(s2, c, receipt);
    ForgedReceiptAcknowledged(s3, started, NOBODY);
    var forged := Reassigned(s3.work.receipts[started.receiptId], NOBODY);
    var acked := AcknowledgeDelivery(s3, started, forged, CompletedTurn(started), DeliveryStarted);
    ack := acked.1.value.1;
    var c1, c2, c3, c4 := ResultCall(PACKET, LEASE, RESULT), PrepareCall(receipt), BeginDeliveryCall(c, receipt),
                          AcknowledgeCall(started, forged, CompletedTurn(started));
    calls := START + [c1] + [c2] + [c3] + [c4];
    RunSnoc(START + [c1], c2);
    RunSnoc(START + [c1] + [c2], c3);
    RunSnoc(START + [c1] + [c2] + [c3], c4);
    NextPrepare(s, receipt);
    NextBeginDelivery(s2, c, receipt);
    NextAcknowledge(s3, started, forged, CompletedTurn(started),
                    ContinuationReconciliation(c.continuationId, c.receiptId, c.turnRequestId, Committed, NOBODY),
                    None);
    AcknowledgementStored(s3, started, forged, CompletedTurn(started));
    AcknowledgeKeepsInv(s3, started, forged, CompletedTurn(started), DeliveryStarted);
    NobodyClaimed(acked.0);
    forall readback | ReadbackIdentity(readback) ensures VerifyMission(acked.0, ack, readback).1.Crashed? {
      ForgedAcknowledgementDies(acked.0, ack, readback);
    }
  }

  lemma DeliveryCurrent(s: Store, c: Continuation, receipt: TerminalReceipt)
    requires BeginDelivery(s, c, receipt).1.Accepted?
    ensures IsCurrent(BeginDelivery(s, c, receipt).0, c.(state := DeliveryStarted), DeliveryStarted)
  {
  }

  lemma AcknowledgementStored(s: Store, c: Continuation, receipt: TerminalReceipt, proof: ConvergenceProof)
    requires AcknowledgeDelivery(s, c, receipt, proof, DeliveryStarted).1.Accepted?
    ensures var r := AcknowledgeDelivery(s, c, receipt, proof, DeliveryStarted);
            var ack := r.1.value.1;
            ack.ackId in r.0.delivery.acks && r.0.delivery.acks[ack.ackId] == ack && AckIdentity(ack)
              && ack.body.packetId == receipt.body.packetId
  {
    hide ConvergenceIdentity, Blank;
  }
}
