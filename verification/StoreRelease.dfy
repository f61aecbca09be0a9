/**
 When can a held lease still be released? Exactly when its packet has no unresolved step, or its
 mission revision is current and its route has no terminal disposition.
 */
module StoreRelease {
  import opened Records
  import opened StoreSpec
  import opened StoreInvariant
  import opened StorePreservation
  import opened StoreRuns
  import opened StoreTheorems

  ghost predicate Releasable(s: Store, leaseId: Digest) {
    exists calls :: leaseId !in Run(s, calls).claims.active
  }

  /** The packet is claimed and not terminal: its lease is held. */
  ghost predicate Held(s: Store, p: Digest) {
    p in s.claims.packets && p in s.claims.leases && p !in s.work.receiptOf
  }

  lemma HeldHolds(s: Store, p: Digest)
    requires Inv(s) && Held(s, p)
    ensures HoldsLease(s, s.claims.packets[p], s.claims.leases[p])
    ensures s.claims.packets[p].packetId == p && s.claims.leases[p].leaseId in s.claims.active
    ensures PacketIdentity(s.claims.packets[p])
  {
    hide EffectInv, StepInv, RecoveryInv, RecoveryStepsAdmitted, DeliveryInv, MissionInv, VersionsCountClaims,
         VersionsFence, Exclusive;
    assert LeaseBinds(s.claims.leases[p], s.claims.packets[p]);
    LeaseIdsDiffer(s.claims.leases, s.claims.packets, p);
  }

  lemma ReceiptFrees(s: Store, p: Digest)
    requires Inv(s) && p in s.claims.leases && p in s.work.receiptOf
    ensures s.claims.leases[p].leaseId !in s.claims.active
  {
    hide EffectInv, StepInv, RecoveryInv, RecoveryStepsAdmitted, DeliveryInv, MissionInv, VersionsCountClaims,
         VersionsFence, Exclusive,
         LeasesBindPackets;
  }

  // ----- without unresolved steps: at most two calls -------------------------------------------

  function AbsenceReconciliation(p: Digest, leaseId: Digest, code: FailureCode): FailureReconciliation {
    FailureReconciliationRecord(p, leaseId, code, NoEffect, None, FreeText("proof"), FreeText("output"))
  }

  lemma NextTerminal(s: Store, p: TaskPacket, l: Lease, code: FailureCode, detail: string, r: FailureReconciliation)
    ensures Next(s, PreExecutionCall(p, l, code, detail)) == TerminalizePreExecution(s, p, l, code, detail).0
    ensures Next(s, ReconcileFailureCall(p, l, r)) == ReconcileFailure(s, p, l, r).0
  {
    hide TerminalizePreExecution, ReconcileFailure;
  }

  lemma NextFailure(s: Store, p: TaskPacket, l: Lease, code: FailureCode, detail: Digest, observed: Option<string>,
                    origin: FailureOrigin)
    ensures Next(s, FailureCall(p, l, code, detail, observed, origin)) ==
            RecordExecutionFailure(s, p, l, code, detail, observed, origin).0
  {
    hide RecordExecutionFailure;
  }

  lemma NextReconcileStep(s: Store, p: TaskPacket, l: Lease, r: StepReconciliation)
    ensures Next(s, ReconcileStepCall(p, l, r)) == ReconcileStepEffect(s, p, l, r).0
  {
    hide ReconcileStepEffect;
  }

  lemma NextVerify(s: Store, ack: Acknowledgement, readback: MissionReadback)
    ensures Next(s, VerifyCall(ack, readback)) == VerifyMission(s, ack, readback).0
  {
    hide VerifyMission;
  }

  lemma ReleaseUnstarted(s: Store, p: Digest) returns (call: Call)
    requires Inv(s) && Held(s, p) && !HasOpenStep(s.trail, p) && p !in s.work.started
    ensures p in Next(s, call).work.receiptOf
  {
    hide Inv, HasOpenStep, HoldsLease, Next;
    HeldHolds(s, p);
    var packet, lease := s.claims.packets[p], s.claims.leases[p];
    call := PreExecutionCall(packet, lease, StaleIdentity, "abandoned");
    NextTerminal(s, packet, lease, StaleIdentity, "abandoned", AbsenceReconciliation(p, lease.leaseId, ExecutorError));
  }

  lemma ReleaseFailed(s: Store, p: Digest) returns (call: Call)
    requires Inv(s) && Held(s, p) && !HasOpenStep(s.trail, p) && p in s.work.failures
    ensures p in Next(s, call).work.receiptOf
  {
    hide Inv, HasOpenStep, HoldsLease, Next, ReconcileFailure;
    HeldHolds(s, p);
    var packet, lease := s.claims.packets[p], s.claims.leases[p];
    var r := AbsenceReconciliation(p, lease.leaseId, s.work.failures[p].body.failureCode);
    call := ReconcileFailureCall(packet, lease, r);
    NextTerminal(s, packet, lease, StaleIdentity, "", r);
    ReconcileFailureReceipts(s, packet, lease, r);
  }

  lemma ReconcileFailureReceipts(s: Store, packet: TaskPacket, lease: Lease, r: FailureReconciliation)
    requires Inv(s) && HoldsLease(s, packet, lease) && !HasOpenStep(s.trail, packet.packetId)
    requires packet.packetId in s.work.failures && packet.packetId !in s.work.receiptOf
    requires r == AbsenceReconciliation(packet.packetId, lease.leaseId,
                                        s.work.failures[packet.packetId].body.failureCode)
    ensures packet.packetId in ReconcileFailure(s, packet, lease, r).0.work.receiptOf
  {
    hide Inv, HasOpenStep, HoldsLease, OwnersAfterFailure;
    assert FailureGuard(s, packet, lease, r).Accepted?;
    ReconcileFailureKeepsInv(s, packet, lease, r);
  }

  lemma FailStarted(s: Store, p: Digest) returns (call: Call)
    requires Inv(s) && Held(s, p) && !HasOpenStep(s.trail, p) && p in s.work.started && p !in s.work.failures
    ensures var s' := Next(s, call);
            Inv(s') && Held(s', p) && !HasOpenStep(s'.trail, p) && p in s'.work.failures && s'.claims == s.claims
  {
    hide Inv, HasOpenStep, HoldsLease, Next;
    HeldHolds(s, p);
    var packet, lease := s.claims.packets[p], s.claims.leases[p];
    call := FailureCall(packet, lease, ExecutorError, FreeText("abandoned"), None, FromExecutor);
    NextKeepsInv(s, call);
    NextFailure(s, packet, lease, ExecutorError, FreeText("abandoned"), None, FromExecutor);
    assert !Whitespace("abandoned"[0]);
    assert "abandoned"[0] in "abandoned";
  }

  /** A held lease whose packet has no unresolved step is released by at most two calls. */
  lemma ReleaseClean(s: Store, p: Digest) returns (calls: seq<Call>)
    requires Inv(s) && Held(s, p) && !HasOpenStep(s.trail, p)
    ensures |calls| <= 2 && s.claims.leases[p].leaseId !in Run(s, calls).claims.active
  {
    hide Inv, HasOpenStep, Next, ParentSince, DeliverySince, StepsSince, WorkSince;
    var s1, rest := s, [];
    if p in s.work.started && p !in s.work.failures {
      var fail := FailStarted(s, p);
      s1, rest := Next(s, fail), [fail];
    }
    var last;
    if p in s1.work.failures { last := ReleaseFailed(s1, p); } else { last := ReleaseUnstarted(s1, p); }
    calls := rest + [last];
    if rest == [] { OneCall(s, last); assert calls == [last]; } else {
      TwoCalls(s, rest[0], last);
      assert calls == [rest[0], last];
    }
    var s2 := Next(s1, last);
    NextKeepsInv(s1, last);
    NextSince(s1, last);
    ReceiptFrees(s2, p);
  }

  lemma OneCall(s: Store, a: Call)
    ensures Run(s, [a]) == Next(s, a)
  {
    hide Next;
    assert [a][1..] == [];
  }

  lemma TwoCalls(s: Store, a: Call, b: Call)
    ensures Run(s, [a, b]) == Next(Next(s, a), b)
  {
    hide Next;
    assert [a, b][1..] == [b];
    OneCall(Next(s, a), b);
  }

  // ----- with unresolved steps: resolve them first ---------------------------------------------

  ghost function OpenSteps(t: StepTable, p: Digest): set<Digest> {
    set id | id in GetOr(t.stepsOf, p, []) && OpenStep(t, id)
  }

  lemma ResolveOne(s: Store, p: Digest, id: Digest) returns (call: Call)
    requires Inv(s) && Held(s, p) && ValidatePacket(s, s.claims.packets[p]).Accepted? && id in OpenSteps(s.trail, p)
    ensures var s' := Next(s, call);
            && s' == s.(trail := s'.trail)
            && OpenSteps(s'.trail, p) == OpenSteps(s.trail, p) - {id}
  {
    hide Inv, ValidatePacket, OpenStep, Next, OpenSteps;
    HeldHolds(s, p);
    var packet, lease, t := s.claims.packets[p], s.claims.leases[p], s.trail;
    OpenStepBound(s, p, id);
    var body := StepReconciliationBody(p, lease.leaseId, id, t.steps[id].body.effectId.value, NoEffect, "proof");
    var r: StepReconciliation := StepReconciliationRecord(StepReconciliationDigest(body), body);
    call := ReconcileStepCall(packet, lease, r);
    NextReconcileStep(s, packet, lease, r);
    assert ReconcileStepEffect(s, packet, lease, r).0 == s.(trail := AddReconciliation(t, id, r));
    ReconciliationShrinks(t, p, id, r);
  }

  lemma OpenStepBound(s: Store, p: Digest, id: Digest)
    requires Inv(s) && Held(s, p) && id in OpenSteps(s.trail, p)
    ensures var t := s.trail;
            && id in t.steps && id !in t.stepReconciliations && t.steps[id].body.effectState.Unsettled?
            && t.steps[id].body.effectId.Some?
            && t.steps[id].stepId == id && t.steps[id].body.packetId == p
            && t.steps[id].body.leaseId == s.claims.leases[p].leaseId
  {
    hide LeaseInv, EffectInv, RecoveryInv, RecoveryStepsAdmitted, DeliveryInv, MissionInv, Closed, StepEffectsOwned,
         RecoveryOrdered,
         StepIdentity;
    assert id in GetOr(s.trail.stepsOf, p, []);
  }

  lemma ReconciliationShrinks(t: StepTable, p: Digest, id: Digest, r: StepReconciliation)
    requires id in OpenSteps(t, p)
    ensures OpenSteps(AddReconciliation(t, id, r), p) == OpenSteps(t, p) - {id}
  {
    var t' := AddReconciliation(t, id, r);
    forall x ensures OpenStep(t', x) <==> OpenStep(t, x) && x != id {
    }
  }

  lemma {:induction false} ResolveAll(s: Store, p: Digest) returns (calls: seq<Call>)
    requires Inv(s) && Held(s, p) && ValidatePacket(s, s.claims.packets[p]).Accepted?
    ensures |calls| == |OpenSteps(s.trail, p)|
    ensures var s' := Run(s, calls);
            Inv(s') && Held(s', p) && !HasOpenStep(s'.trail, p) && s'.claims == s.claims
    decreases |OpenSteps(s.trail, p)|
  {
    hide Inv, ValidatePacket, Next, OpenStep;
    var open := OpenSteps(s.trail, p);
    if open == {} {
      calls := [];
      NoneOpen(s.trail, p);
    } else {
      var id :| id in open;
      var call := ResolveOne(s, p, id);
      var s1 := Next(s, call);
      NextKeepsInv(s, call);
      SameValidation(s, s1, s.claims.packets[p]);
      var rest := ResolveAll(s1, p);
      calls := [call] + rest;
      OneCall(s, call);
      RunConcat(s, [call], rest);
    }
  }

  lemma NoneOpen(t: StepTable, p: Digest)
    ensures OpenSteps(t, p) == {} <==> !HasOpenStep(t, p)
  {
    if id :| id in GetOr(t.stepsOf, p, []) && OpenStep(t, id) {
      assert id in OpenSteps(t, p);
    }
  }

  lemma SameValidation(s: Store, s': Store, packet: TaskPacket)
    requires s'.parent == s.parent
    ensures ValidatePacket(s', packet) == ValidatePacket(s, packet)
  {
    hide FirstFalse, RouteMatches, FindRoute;
  }

  // ----- when a readback moved on: a newer readback brings the packet's predicate back ---------

  /** A readback in which only `key` is unsatisfied. */
  function OnlyOpen(predicates: seq<ExitPredicate>, key: string): (r: seq<PredicateReadback>)
    ensures |r| == |predicates|
    ensures forall i :: 0 <= i < |r| ==>
              r[i] == PredicateReadback(predicates[i].key,
                                        if predicates[i].key == key then Unsatisfied else Satisfied, "evidence")
  {
    seq(|predicates|, i requires 0 <= i < |predicates| =>
          PredicateReadback(predicates[i].key, if predicates[i].key == key then Unsatisfied else Satisfied, "evidence"))
  }

  lemma OnlyOpenFirst(snapshots: map<(string, int), MissionReadback>, mission: Mission, readback: MissionReadback,
                      key: string)
    requires Get(snapshots, (mission.missionId, mission.revision)) == Some(readback)
    requires readback.body.predicates == OnlyOpen(mission.predicates, key) && key in Keys(mission.predicates)
    ensures var first := FirstFalse(snapshots, mission);
            first.Accepted? && first.value.Some? && first.value.value.key == key
  {
    var truths := ReadTruths(readback.body.predicates);
    assert truths[..|truths|] == truths;
    var i :| 0 <= i < |mission.predicates| && Keys(mission.predicates)[i] == key;
    assert truths[i] == Unsatisfied;
  }

  lemma OnlyOpenKeys(predicates: seq<ExitPredicate>, key: string)
    ensures ReadKeys(OnlyOpen(predicates, key)) == Keys(predicates)
  {
  }

  lemma RouteKeyKnown(mission: Mission, p: PacketBody)
    requires RouteMatches(mission, p)
    ensures p.predicateKey in Keys(mission.predicates)
  {
  }

  lemma FreshVerification(s: Store, key: (string, int), v: MissionVerification)
    requires Inv(s) && key in s.parent.snapshots && (v.body.missionId, v.body.missionRevision) == key
    requires v.body.parentSequence > s.parent.snapshots[key].body.parentSequence
    requires v.verificationId == VerificationDigest(v.body)
    ensures v.verificationId !in s.parent.verifications
  {
    hide LeaseInv, EffectInv, StepInv, RecoveryInv, RecoveryStepsAdmitted, DeliveryInv, PacketsPlanned, SnapshotsBind,
         PlannedFirst;
  }

  lemma AckFacts(s: Store, key: (string, int)) returns (a: Digest)
    requires Inv(s) && key in s.parent.snapshots
    ensures AckedPacketOf(s.delivery.acks, s.claims.packets, a, key)
    ensures s.delivery.acks[a].ackId == a && AckIdentity(s.delivery.acks[a])
  {
    hide LeaseInv, EffectInv, StepInv, RecoveryInv, RecoveryStepsAdmitted, PacketsPlanned, VerificationsBehind,
         PlannedFirst,
         ContinuationsBind, AckIdentity;
    a :| AckedPacketOf(s.delivery.acks, s.claims.packets, a, key);
    assert AckBinds(s.delivery.acks[a], s.delivery.continuations);
  }

  lemma PlannedFacts(s: Store, p: Digest)
    requires Inv(s) && p in s.claims.packets && CurrentMission(s.parent.missions, s.claims.packets[p].body)
    ensures var body := s.claims.packets[p].body;
            && s.parent.missions[body.missionId].missionId == body.missionId
            && RouteMatches(s.parent.missions[body.missionId], body)
            && ((body.missionId, body.missionRevision) !in s.parent.snapshots ==>
                  DeclaredFirst(s.parent.missions[body.missionId], body.predicateKey))
  {
    hide LeaseInv, EffectInv, StepInv, RecoveryInv, RecoveryStepsAdmitted, DeliveryInv, SnapshotsBind,
         VerificationsBehind,
         RouteMatches, DeclaredFirst;
  }

  lemma Reread(s: Store, p: Digest) returns (call: Call)
    requires Inv(s) && p in s.claims.packets && CurrentMission(s.parent.missions, s.claims.packets[p].body)
    requires (s.claims.packets[p].body.missionId, s.claims.packets[p].body.missionRevision) in s.parent.snapshots
    ensures var s' := Next(s, call);
            var body := s.claims.packets[p].body;
            && s' == s.(parent := s'.parent)
            && s'.parent.missions == s.parent.missions && s'.parent.dispositions == s.parent.dispositions
            && var first := FirstFalse(s'.parent.snapshots, s.parent.missions[body.missionId]);
            && first.Accepted? && first.value.Some? && first.value.value.key == body.predicateKey
  {
    hide Inv, Next, FirstFalse, RouteMatches, DeclaredFirst, Keys, ReadKeys, VerifyMission;
    var body := s.claims.packets[p].body;
    var mission := s.parent.missions[body.missionId];
    var key := (body.missionId, body.missionRevision);
    PlannedFacts(s, p);
    RouteKeyKnown(mission, body);
    var a := AckFacts(s, key);
    var ack := s.delivery.acks[a];
    var other := s.claims.packets[ack.body.packetId].body;
    PlannedFacts(s, ack.body.packetId);
    RouteKeyKnown(mission, other);
    var content := ReadbackBody(body.missionId, body.missionRevision, "reread",
                                s.parent.snapshots[key].body.parentSequence + 1,
                                OnlyOpen(mission.predicates, body.predicateKey), "evidence");
    var readback := MissionReadback(ReadbackDigest(content), content);
    call := VerifyCall(ack, readback);
    NextVerify(s, ack, readback);
    OnlyOpenKeys(mission.predicates, body.predicateKey);
    RereadAccepted(s, ack, readback, key);
    OnlyOpenFirst(s.parent.snapshots[key := readback], mission, readback, body.predicateKey);
  }

  lemma RereadAccepted(s: Store, ack: Acknowledgement, readback: MissionReadback, key: (string, int))
    requires Inv(s) && key in s.parent.snapshots && key.0 in s.parent.missions
    requires AckedPacketOf(s.delivery.acks, s.claims.packets, ack.ackId, key) && s.delivery.acks[ack.ackId] == ack
             && AckIdentity(ack)
    requires ReadbackIdentity(readback) && (readback.body.missionId, readback.body.missionRevision) == key
    requires var mission := s.parent.missions[key.0];
             && mission.missionId == key.0 && mission.revision == key.1
             && ReadKeys(readback.body.predicates) == Keys(mission.predicates)
             && s.claims.packets[ack.body.packetId].body.predicateKey in Keys(mission.predicates)
    requires readback.body.parentSequence == s.parent.snapshots[key].body.parentSequence + 1
    ensures var s' := VerifyMission(s, ack, readback).0;
            && s' == s.(parent := s'.parent)
            && s'.parent.missions == s.parent.missions && s'.parent.dispositions == s.parent.dispositions
            && s'.parent.snapshots == s.parent.snapshots[key := readback]
  {
    hide Inv, Keys, ReadKeys, NextStep, AckIdentity, ReadbackIdentity;
    var packet := s.claims.packets[ack.body.packetId].body;
    var mission := s.parent.missions[key.0];
    var current := FindReadback(readback.body.predicates, packet.predicateKey);
    FreshVerification(s, key, VerificationOf(packet, mission, current.value.truth, ack, readback));
  }

  lemma ValidAgain(s: Store, p: Digest)
    requires Inv(s) && Held(s, p) && CurrentMission(s.parent.missions, s.claims.packets[p].body)
    requires !RouteDisposed(s.parent.dispositions, s.claims.packets[p].body)
    requires var body := s.claims.packets[p].body;
             var first := FirstFalse(s.parent.snapshots, s.parent.missions[body.missionId]);
             first.Accepted? && first.value.Some? && first.value.value.key == body.predicateKey
    ensures ValidatePacket(s, s.claims.packets[p]).Accepted?
  {
    HeldHolds(s, p);
    PlannedFacts(s, p);
    hide Inv, FirstFalse, RouteMatches, FindRoute, HoldsLease, DeclaredFirst;
  }

  lemma DeclaredFirstFalse(snapshots: map<(string, int), MissionReadback>, mission: Mission, key: string)
    requires DeclaredFirst(mission, key) && (mission.missionId, mission.revision) !in snapshots
    ensures var first := FirstFalse(snapshots, mission);
            first.Accepted? && first.value.Some? && first.value.value.key == key
  {
    FirstFalseScans(snapshots, mission);
    hide FirstFalse;
    var i :| && 0 <= i < |mission.predicates| && mission.predicates[i].key == key
             && !mission.predicates[i].satisfied && forall j :: 0 <= j < i ==> mission.predicates[j].satisfied;
    assert OpenFirst(snapshots, mission, i);
  }

  /** While the mission revision is current and the route open, any held lease can be released. */
  lemma ReleaseCurrent(s: Store, p: Digest) returns (calls: seq<Call>)
    requires Inv(s) && Held(s, p) && CurrentMission(s.parent.missions, s.claims.packets[p].body)
    requires !RouteDisposed(s.parent.dispositions, s.claims.packets[p].body)
    ensures |calls| <= |OpenSteps(s.trail, p)| + 3
    ensures s.claims.leases[p].leaseId !in Run(s, calls).claims.active
  {
    hide Inv, Next, ValidatePacket, FirstFalse, RouteMatches, OpenSteps, DeclaredFirst, HasOpenStep;
    var body := s.claims.packets[p].body;
    var s1, first := s, [];
    if (body.missionId, body.missionRevision) in s.parent.snapshots {
      var call := Reread(s, p);
      NextKeepsInv(s, call);
      OneCall(s, call);
      s1, first := Next(s, call), [call];
    } else {
      PlannedFacts(s, p);
      DeclaredFirstFalse(s.parent.snapshots, s.parent.missions[body.missionId], body.predicateKey);
    }
    ValidAgain(s1, p);
    var middle := ResolveAll(s1, p);
    var s2 := Run(s1, middle);
    var last := ReleaseClean(s2, p);
    calls := first + middle + last;
    RunConcat(s, first + middle, last);
    RunConcat(s, first, middle);
  }

  // ----- otherwise the lease is held for ever ----------------------------------------------------

  ghost predicate Stuck(s: Store, p: Digest) {
    && Held(s, p)
    && HasOpenStep(s.trail, p)
    && (!CurrentMission(s.parent.missions, s.claims.packets[p].body)
        || RouteDisposed(s.parent.dispositions, s.claims.packets[p].body))
  }

  lemma StuckInvalid(s: Store, p: Digest)
    requires Inv(s) && Stuck(s, p)
    ensures !ValidatePacket(s, s.claims.packets[p]).Accepted?
  {
    hide LeaseInv, EffectInv, StepInv, RecoveryInv, RecoveryStepsAdmitted, DeliveryInv, SnapshotsBind,
         VerificationsBehind,
         PlannedFirst, FirstFalse, HasOpenStep;
  }

  /** A call that ends attempts leaves the steps alone and never terminates a packet with an open step. */
  lemma EndingKeepsOpen(s: Store, call: Call, p: Digest)
    requires EndingCall(call)
    ensures Next(s, call).trail == s.trail
    ensures p !in s.work.receiptOf && HasOpenStep(s.trail, p) ==> p !in Next(s, call).work.receiptOf
  {
    hide HasOpenStep, HoldsLease, RecordExecutionFailure, OwnersAfterFailure;
    match call
    case FailureCall(packet, l, code, detail, observed, origin) =>
      FailureKeepsReceipts(s, packet, l, code, detail, observed, origin);
    case ResultCall(packet, l, result) =>
      FailureKeepsReceipts(s, packet, l, StaleIdentity, ResultMismatchDigest(packet.packetId, l.leaseId),
                           Some(result.effectId), FromHarness);
      if result.effectId in s.work.effectOwner {
        FailureKeepsReceipts(s, packet, l, DuplicateOrReplay,
                             DuplicateEffectDigest(result.effectId, s.work.effectOwner[result.effectId]),
                             Some(result.effectId), FromHarness);
      }
    case _ =>
  }

  lemma DeliveryKeepsWork(s: Store, call: Call)
    requires DeliveryCall(call)
    ensures Next(s, call).work == s.work && Next(s, call).trail == s.trail
  {
    hide AcknowledgeDelivery, ProvesAbsence, NewContinuation;
    match call
    case AcknowledgeCall(c, r, proof) => AckKeepsWork(s, c, r, proof, DeliveryStarted);
    case ReconcileContinuationCall(r, rec, proof) =>
      if proof.Some? && proof.value.OfConvergence? && rec.continuationId in s.delivery.continuations {
        AckKeepsWork(s, s.delivery.continuations[rec.continuationId], r, proof.value.convergence, DeliveryUnsettled);
      }
    case _ =>
  }

  predicate ParentCall(call: Call) {
    call.RegisterMissionCall? || call.DispositionCall? || call.SupersessionCall? || call.VerifyCall?
  }

  lemma ParentKeepsWork(s: Store, call: Call)
    requires ParentCall(call)
    ensures Next(s, call).work == s.work && Next(s, call).trail == s.trail
  {
    hide FindRoute, SupersessionBinds, VerificationOf, FindReadback, AckIdentity, ReadbackIdentity;
  }

  lemma PacketKeepsReceipts(s: Store, call: Call)
    requires !DeliveryCall(call) && !EndingCall(call) && !ParentCall(call)
    ensures Next(s, call).work.receiptOf == s.work.receiptOf
    ensures !call.ReconcileStepCall? && !call.StepCall? ==> Next(s, call).trail == s.trail
  {
    hide ClaimGuard, AddClaim, ValidateClaim, StepGuard, AddStep, AddReconciliation, AdmissionGuard, Judgement,
         AddAdmission, HoldsLease,
         BlockerGuard;
  }

  lemma OtherKeepsReceipts(s: Store, call: Call)
    requires !DeliveryCall(call) && !EndingCall(call)
    ensures Next(s, call).work.receiptOf == s.work.receiptOf
    ensures !call.ReconcileStepCall? && !call.StepCall? ==> Next(s, call).trail == s.trail
  {
    hide Next;
    if ParentCall(call) { ParentKeepsWork(s, call); } else { PacketKeepsReceipts(s, call); }
  }

  lemma StuckStaysUnterminated(s: Store, call: Call, p: Digest)
    requires p !in s.work.receiptOf && HasOpenStep(s.trail, p)
    ensures p !in Next(s, call).work.receiptOf
  {
    hide HasOpenStep, Next;
    if EndingCall(call) { EndingKeepsOpen(s, call, p); } else if DeliveryCall(call) { DeliveryKeepsWork(s, call); }
      else {
      OtherKeepsReceipts(s, call);
    }
  }

  lemma FailureKeepsReceipts(s: Store, packet: TaskPacket, lease: Lease, code: FailureCode, detail: Digest,
                             observed: Option<string>,
                             origin: FailureOrigin)
    ensures RecordExecutionFailure(s, packet, lease, code, detail, observed,
                                   origin).0.work.receiptOf == s.work.receiptOf
    ensures RecordExecutionFailure(s, packet, lease, code, detail, observed, origin).0.trail == s.trail
  {
    hide HoldsLease, Blank;
  }

  lemma AckKeepsWork(s: Store, c: Continuation, receipt: TerminalReceipt, proof: ConvergenceProof,
                     expected: ContinuationState)
    ensures AcknowledgeDelivery(s, c, receipt, proof, expected).0.work == s.work
    ensures AcknowledgeDelivery(s, c, receipt, proof, expected).0.trail == s.trail
  {
    hide ConvergenceIdentity, Blank;
  }

  lemma OpenStepsStay(s: Store, call: Call, p: Digest)
    requires Inv(s) && Stuck(s, p)
    ensures HasOpenStep(Next(s, call).trail, p)
  {
    if call.ReconcileStepCall? {
      StuckStepUnresolved(s, call.packet, call.lease, call.stepReconciliation, p);
    } else if call.StepCall? {
      StepCallKeepsOpen(s, call.packet, call.lease, call.step, p);
    } else {
      hide Inv, HasOpenStep;
      TrailUntouched(s, call);
    }
  }

  lemma StepCallKeepsOpen(s: Store, packet: TaskPacket, lease: Lease, step: StepAttempt, p: Digest)
    requires HasOpenStep(s.trail, p)
    ensures HasOpenStep(RecordStepAttempt(s, packet, lease, step).0.trail, p)
  {
    hide StepGuard;
    var id :| id in GetOr(s.trail.stepsOf, p, []) && OpenStep(s.trail, id);
    var t' := RecordStepAttempt(s, packet, lease, step).0.trail;
    assert OpenStep(t', id);
    if step.body.packetId == p && t' != s.trail {
      var order := GetOr(s.trail.stepsOf, p, []);
      assert t'.stepsOf[p] == order + [step.stepId];
    }
    assert id in GetOr(t'.stepsOf, p, []);
  }

  lemma StuckStepUnresolved(s: Store, packet: TaskPacket, lease: Lease, r: StepReconciliation, p: Digest)
    requires Inv(s) && Stuck(s, p)
    ensures HasOpenStep(ReconcileStepEffect(s, packet, lease, r).0.trail, p)
  {
    hide Inv, ValidatePacket, HasOpenStep, ReconciliationBinds, Stuck;
    var id := StuckWitness(s, p);
    var t' := ReconcileStepEffect(s, packet, lease, r).0.trail;
    if t' != s.trail {
      ReconcilerHolds(s, packet, lease, r);
      StuckNotHolding(s, packet, lease, p);
      assert OpenStep(t', id);
    }
    OpenWitness(t', p, id);
  }

  lemma StuckWitness(s: Store, p: Digest) returns (id: Digest)
    requires Inv(s) && Stuck(s, p)
    ensures id in GetOr(s.trail.stepsOf, p, []) && OpenStep(s.trail, id) && id in s.trail.steps
            && s.trail.steps[id].body.packetId == p
  {
    hide LeaseInv, EffectInv, StepInv, RecoveryInv, RecoveryStepsAdmitted, DeliveryInv, MissionInv;
    id :| id in GetOr(s.trail.stepsOf, p, []) && OpenStep(s.trail, id);
    OpenStepBound(s, p, id);
  }

  lemma ReconcilerHolds(s: Store, packet: TaskPacket, lease: Lease, r: StepReconciliation)
    requires Inv(s) && ReconcileStepEffect(s, packet, lease, r).0.trail != s.trail
    ensures HoldsLease(s, packet, lease) && ValidatePacket(s, packet).Accepted?
    ensures r.body.stepId in s.trail.steps && s.trail.steps[r.body.stepId].body.packetId == packet.packetId
    ensures s.trail.steps[r.body.stepId].stepId == r.body.stepId
  {
    hide Inv, ValidatePacket, HoldsLease;
    if r.body.stepId in s.trail.steps { StepKeyed(s, r.body.stepId); }
  }

  lemma StuckNotHolding(s: Store, packet: TaskPacket, lease: Lease, p: Digest)
    requires Inv(s) && Stuck(s, p) && HoldsLease(s, packet, lease) && ValidatePacket(s, packet).Accepted?
    ensures packet.packetId != p
  {
    hide Inv, ValidatePacket, HasOpenStep;
    StuckInvalid(s, p);
  }

  lemma StepKeyed(s: Store, id: Digest)
    requires Inv(s) && id in s.trail.steps
    ensures s.trail.steps[id].stepId == id
  {
    hide LeaseInv, EffectInv, RecoveryInv, RecoveryStepsAdmitted, DeliveryInv, MissionInv, Closed, StepEffectsOwned,
         RecoveryOrdered, ListsSteps;
  }

  lemma OpenWitness(t: StepTable, p: Digest, id: Digest)
    requires id in GetOr(t.stepsOf, p, []) && OpenStep(t, id)
    ensures HasOpenStep(t, p)
  {
  }

  lemma TrailUntouched(s: Store, call: Call)
    requires !call.ReconcileStepCall? && !call.StepCall?
    ensures Next(s, call).trail == s.trail
  {
    hide HasOpenStep, Next;
    if EndingCall(call) { EndingKeepsOpen(s, call, FreeText("")); }
      else if DeliveryCall(call) { DeliveryKeepsWork(s, call); } else {
      OtherKeepsReceipts(s, call);
    }
  }

  lemma SupersededStays(s: Store, s': Store, p: Digest)
    requires Inv(s) && Inv(s') && Since(s, s') && Held(s, p)
    requires !CurrentMission(s.parent.missions, s.claims.packets[p].body)
             || RouteDisposed(s.parent.dispositions, s.claims.packets[p].body)
    ensures p in s'.claims.packets && s'.claims.packets[p] == s.claims.packets[p]
    ensures p in s'.claims.leases && s'.claims.leases[p] == s.claims.leases[p]
    ensures !CurrentMission(s'.parent.missions, s.claims.packets[p].body)
            || RouteDisposed(s'.parent.dispositions, s.claims.packets[p].body)
  {
    hide LeaseInv, EffectInv, StepInv, RecoveryInv, RecoveryStepsAdmitted, DeliveryInv, SnapshotsBind,
         VerificationsBehind, PlannedFirst,
         RouteMatches, WorkSince, StepsSince, DeliverySince;
  }

  lemma NextStuck(s: Store, call: Call, p: Digest)
    requires Inv(s) && Stuck(s, p)
    ensures Stuck(Next(s, call), p)
  {
    hide Inv, Next, HasOpenStep, Since;
    var s' := Next(s, call);
    NextKeepsInv(s, call);
    NextSince(s, call);
    StuckStaysUnterminated(s, call, p);
    OpenStepsStay(s, call, p);
    SupersededStays(s, s', p);
  }

  lemma {:induction false} RunStuck(s: Store, calls: seq<Call>, p: Digest)
    requires Inv(s) && Stuck(s, p)
    ensures Stuck(Run(s, calls), p)
    decreases calls
  {
    hide Inv, Stuck, Next;
    if calls != [] {
      NextKeepsInv(s, calls[0]);
      NextStuck(s, calls[0], p);
      RunStuck(Next(s, calls[0]), calls[1..], p);
    }
  }

  lemma StuckForever(s: Store, p: Digest)
    requires Inv(s) && Stuck(s, p)
    ensures !Releasable(s, s.claims.leases[p].leaseId)
  {
    hide Inv, Next, Run, HasOpenStep, CurrentMission, RouteDisposed, WorkSince, StepsSince, ParentSince, DeliverySince;
    forall calls ensures s.claims.leases[p].leaseId in Run(s, calls).claims.active {
      RunKeepsInv(s, calls);
      RunStuck(s, calls, p);
      RunSince(s, calls);
      HeldHolds(Run(s, calls), p);
    }
  }

  lemma ActiveHeld(s: Store, leaseId: Digest)
    requires Inv(s) && leaseId in s.claims.active
    ensures var p := s.claims.active[leaseId].packetId;
            Held(s, p) && s.claims.leases[p].leaseId == leaseId
  {
    hide EffectInv, StepInv, RecoveryInv, RecoveryStepsAdmitted, DeliveryInv, MissionInv, VersionsCountClaims,
         VersionsFence, Exclusive, LeaseBinds;
  }

  /** In every reachable store an active lease can still be released by some run of store calls exactly when
      its packet has no unresolved step, or its mission revision is current and its route not disposed. */
  lemma ReleasableExactly(s: Store, leaseId: Digest)
    requires Reachable(s) && leaseId in s.claims.active
    ensures var p := s.claims.active[leaseId].packetId;
            && p in s.claims.packets
            && (Releasable(s, leaseId) <==>
                  || !HasOpenStep(s.trail, p)
                  || (CurrentMission(s.parent.missions, s.claims.packets[p].body)
                      && !RouteDisposed(s.parent.dispositions, s.claims.packets[p].body)))
  {
    ReachableInv(s);
    hide Inv, Run, HasOpenStep, CurrentMission, RouteDisposed, OpenSteps;
    ActiveHeld(s, leaseId);
    var p := s.claims.active[leaseId].packetId;
    if !HasOpenStep(s.trail, p) {
      var calls := ReleaseClean(s, p);
    } else if CurrentMission(s.parent.missions, s.claims.packets[p].body)
      && !RouteDisposed(s.parent.dispositions, s.claims.packets[p].body) {
      var calls := ReleaseCurrent(s, p);
    } else {
      StuckForever(s, p);
    }
  }
}
