/** Recovery stays inside the packet's authority, and the parent readback agrees with the planner. */
module StoreRecovery {
  import opened Records
  import opened StoreSpec
  import opened StoreInvariant
  import opened StorePreservation
  import opened StoreRuns

  // ----- recovery ----------------------------------------------------------------------------

  /** Consumed budget is the sum of the admitted proposals' budgets, within the packet's; every admitted
      proposal is within the packet's authority; and no recovery fingerprint is admitted twice. */
  lemma RecoveryBounded(s: Store, p: Digest)
    requires Reachable(s) && p in s.claims.packets
    ensures var admitted := AdmittedFor(s.recovery.admissions, p);
            && admitted <= s.recovery.proposals.Keys
            && GetOr(s.recovery.budgetConsumed, p, 0) == TotalBudget(admitted, s.recovery.proposals)
            && TotalBudget(admitted, s.recovery.proposals) <= s.claims.packets[p].body.recoveryBudget
            && (forall k :: k in admitted ==>
                  WithinAuthority(s.claims.packets[p].body, s.recovery.proposals[k].body))
            && (forall j, k | j in admitted && k in admitted && j != k ::
                  s.recovery.admissions[j].body.recoveryFingerprint !=
                  s.recovery.admissions[k].body.recoveryFingerprint)
  {
    ReachableInv(s);
    hide Run, LeaseInv, EffectInv, StepInv, RecoveryStepsAdmitted, DeliveryInv, MissionInv, WithinAuthority,
         ProposalIdentity;
    forall k | k in AdmittedFor(s.recovery.admissions, p)
      ensures k in s.recovery.proposals && WithinAuthority(s.claims.packets[p].body, s.recovery.proposals[k].body)
    {
      assert AdmissionBinds(k, s.recovery.admissions[k], s.recovery.proposals[k], s.claims.packets);
    }
  }

  /** Each recovery fingerprint is admitted at most once in the whole store, and stays consumed. */
  lemma FingerprintsAdmittedOnce(s: Store, j: Digest, k: Digest)
    requires Reachable(s) && j in s.recovery.admissions && k in s.recovery.admissions
    requires s.recovery.admissions[j].body.state == Admitted && s.recovery.admissions[k].body.state == Admitted
    requires s.recovery.admissions[j].body.recoveryFingerprint == s.recovery.admissions[k].body.recoveryFingerprint
    ensures j == k && s.recovery.admissions[k].body.recoveryFingerprint in s.recovery.fingerprints
  {
    ReachableInv(s);
    hide Run, LeaseInv, EffectInv, StepInv, RecoveryStepsAdmitted, DeliveryInv, MissionInv, AdmissionsBind,
         BudgetAccounted;
  }

  /** A recorded recovery step is read-only or reversible and repeats an admitted action inside its packet's scope. */
  lemma RecoveryStepBounded(s: Store, id: Digest)
    requires Reachable(s) && id in s.trail.steps && s.trail.steps[id].body.recovery.Some?
    ensures var step := s.trail.steps[id].body;
            && (step.effectClass.ReadOnly? || step.effectClass.ReversibleLocal?)
            && step.packetId in s.claims.packets
            && exists k, a :: && k in s.recovery.admissions && s.recovery.admissions[k].body.state == Admitted
                              && s.recovery.admissions[k].body.packetId == step.packetId
                              && k in s.recovery.proposals && a in s.recovery.proposals[k].body.actionGraph
                              && a.actionId == step.recovery.value.actionId
                              && a.body.operationDigest == step.operationDigest
                              && a.body.effectClass == step.effectClass
                              && WithinScope(a.body.scope, s.claims.packets[step.packetId].body.scope)
  {
    ReachableInv(s);
    hide Run, LeaseInv, EffectInv, StepInv, DeliveryInv, MissionInv, ProposalIdentity, WithinScope, BudgetAccounted,
         FingerprintsOnce;
    var step := s.trail.steps[id].body;
    assert RecoveryStepAdmitted(step, s.recovery.proposals, s.recovery.admissions);
    var k :| && k in s.recovery.admissions && k in s.recovery.proposals
      && s.recovery.admissions[k].body.state == Admitted
             && s.recovery.admissions[k].body.packetId == step.packetId
             && Repeats(step, s.recovery.proposals[k].body.actionGraph);
    assert AdmissionBinds(k, s.recovery.admissions[k], s.recovery.proposals[k], s.claims.packets);
    var a :| && a in s.recovery.proposals[k].body.actionGraph && a.actionId == step.recovery.value.actionId
             && a.body.operationDigest == step.operationDigest && a.body.effectClass == step.effectClass;
    assert WithinAuthority(s.claims.packets[step.packetId].body, s.recovery.proposals[k].body);
  }

  /** `chain` follows recovery parents: each entry's parent is the next entry. */
  ghost predicate ParentChain(t: StepTable, chain: seq<Digest>) {
    && (forall i :: 0 <= i < |chain| ==> chain[i] in t.steps)
    && (forall i :: 0 <= i < |chain| - 1 ==>
          t.steps[chain[i]].body.recovery.Some? && t.steps[chain[i]].body.recovery.value.parentStepId == chain[i + 1])
  }

  lemma ParentEarlier(t: StepTable, started: set<Digest>, leases: map<Digest, Lease>, receiptOf: map<Digest,
                      TerminalReceipt>, id: Digest)
    requires StepInv(t, started, leases, receiptOf) && id in t.steps && t.steps[id].body.recovery.Some?
    ensures var parent, order := t.steps[id].body.recovery.value.parentStepId,
            GetOr(t.stepsOf, t.steps[id].body.packetId, []);
            && parent in t.steps && t.steps[parent].body.packetId == t.steps[id].body.packetId
            && exists i, j :: 0 <= i < j < |order| && order[i] == parent && order[j] == id
  {
    hide Closed, StepEffectsOwned, StepsBind;
    var order := GetOr(t.stepsOf, t.steps[id].body.packetId, []);
    assert Precedes(order, t.steps[id].body.recovery.value.parentStepId, id);
  }

  lemma StepsListedOnce(t: StepTable, started: set<Digest>, leases: map<Digest, Lease>, receiptOf: map<Digest,
                        TerminalReceipt>, p: Digest)
    requires StepInv(t, started, leases, receiptOf)
    ensures Unique(GetOr(t.stepsOf, p, []))
  {
    hide StepsBind, Closed, StepEffectsOwned, RecoveryOrdered;
  }

  lemma {:induction false} ChainPosition(t: StepTable, started: set<Digest>, leases: map<Digest, Lease>,
                                         receiptOf: map<Digest, TerminalReceipt>, chain: seq<Digest>, k: nat)
    requires StepInv(t, started, leases, receiptOf) && |chain| > 0 && ParentChain(t, chain)
    requires var order := GetOr(t.stepsOf, t.steps[chain[0]].body.packetId, []);
             k < |order| && order[k] == chain[0]
    ensures |chain| <= k + 1
    decreases |chain|
  {
    hide StepInv, GetOr;
    if |chain| > 1 {
      var order := GetOr(t.stepsOf, t.steps[chain[0]].body.packetId, []);
      ParentEarlier(t, started, leases, receiptOf, chain[0]);
      var i, j :| 0 <= i < j < |order| && order[i] == chain[1] && order[j] == chain[0];
      StepsListedOnce(t, started, leases, receiptOf, t.steps[chain[0]].body.packetId);
      assert j == k;
      assert ParentChain(t, chain[1..]);
      ChainPosition(t, started, leases, receiptOf, chain[1..], i);
    }
  }

  /** Recovery chains are well founded: none is longer than the packet's list of steps, so none is cyclic. */
  lemma RecoveryChainsEnd(s: Store, chain: seq<Digest>)
    requires Reachable(s) && |chain| > 0 && ParentChain(s.trail, chain)
    ensures |chain| <= |GetOr(s.trail.stepsOf, s.trail.steps[chain[0]].body.packetId, [])|
  {
    ReachableInv(s);
    hide Run, LeaseInv, EffectInv, RecoveryInv, RecoveryStepsAdmitted, DeliveryInv, MissionInv, Closed,
         StepEffectsOwned,
         RecoveryOrdered, ListsSteps, StepIdentity;
    var order := GetOr(s.trail.stepsOf, s.trail.steps[chain[0]].body.packetId, []);
    assert chain[0] in order;
    var k :| 0 <= k < |order| && order[k] == chain[0];
    ChainPosition(s.trail, s.work.started, s.claims.leases, s.work.receiptOf, chain, k);
  }

  // ----- parent readback and planner ---------------------------------------------------------

  lemma FirstFalseReads(snapshots: map<(string, int), MissionReadback>, mission: Mission, readback: MissionReadback)
    requires Get(snapshots, (mission.missionId, mission.revision)) == Some(readback)
    requires ReadKeys(readback.body.predicates) == Keys(mission.predicates)
    ensures var (nextKey, action) := NextStep(readback.body.predicates);
            var first := FirstFalse(snapshots, mission);
            && (action == ReadbackRecheck <==> first == Rejected(ReadbackIndeterminate))
            && (action == RouteSelection <==> first.Accepted? && first.value.Some?)
            && (action == RouteSelection ==> nextKey == Some(first.value.value.key))
            && (action == MissionComplete <==> first == Accepted(None))
  {
    var truths := ReadTruths(readback.body.predicates);
    assert |readback.body.predicates| == |ReadKeys(readback.body.predicates)| == |mission.predicates|;
    assert truths[..|truths|] == truths;
    var open := FirstIndex(truths, Unsatisfied);
    if open < |truths| {
      assert ReadKeys(readback.body.predicates)[open] == Keys(mission.predicates)[open];
    }
  }

  /** What an accepted verification leaves stored for its mission: exactly its readback, replayed or not. */
  lemma VerifiedSnapshot(s: Store, ack: Acknowledgement, readback: MissionReadback)
    requires Inv(s) && VerifyMission(s, ack, readback).1.Accepted?
    ensures var (s', outcome) := VerifyMission(s, ack, readback);
            var v := outcome.value.body;
            && v.missionId in s'.parent.missions
            && var mission := s'.parent.missions[v.missionId];
            && mission.missionId == v.missionId && mission.revision == v.missionRevision
            && Get(s'.parent.snapshots, (mission.missionId, mission.revision)) == Some(readback)
            && ReadKeys(readback.body.predicates) == Keys(mission.predicates)
            && (v.nextPredicateKey, v.nextAction) == NextStep(readback.body.predicates)
            && s'.parent.missions == s.parent.missions
  {
    hide LeaseInv, EffectInv, StepInv, RecoveryInv, RecoveryStepsAdmitted, DeliveryInv, SnapshotsBind, PlannedFirst,
         RouteMatches,
         NextStep, Keys, ReadKeys, FindReadback, AckIdentity, ReadbackIdentity;
    var packet := s.claims.packets[ack.body.packetId].body;
    var mission := s.parent.missions[packet.missionId];
    assert mission.missionId == packet.missionId;
    var current := FindReadback(readback.body.predicates, packet.predicateKey);
    var v := VerificationOf(packet, mission, current.value.truth, ack, readback);
    if v.verificationId in s.parent.verifications {
      assert s.parent.verifications[v.verificationId].body == v.body;
    }
  }

  /** After an accepted verification the planner reads the same verdict: recheck, route selection for the
      named predicate, or completion. */
  lemma VerifyAgreesWithPlanner(s: Store, ack: Acknowledgement, readback: MissionReadback)
    requires Reachable(s) && VerifyMission(s, ack, readback).1.Accepted?
    ensures var (s', outcome) := VerifyMission(s, ack, readback);
            var v := outcome.value.body;
            && v.missionId in s'.parent.missions
            && var first := FirstFalse(s'.parent.snapshots, s'.parent.missions[v.missionId]);
            && (v.nextAction == ReadbackRecheck <==> first == Rejected(ReadbackIndeterminate))
            && (v.nextAction == RouteSelection <==> first.Accepted? && first.value.Some?)
            && (v.nextAction == RouteSelection ==> v.nextPredicateKey == Some(first.value.value.key))
            && (v.nextAction == MissionComplete <==> first == Accepted(None))
  {
    hide Run, Inv, VerifyMission, FirstFalse, NextStep, Keys, ReadKeys;
    ReachableInv(s);
    VerifiedSnapshot(s, ack, readback);
    var (s', outcome) := VerifyMission(s, ack, readback);
    FirstFalseReads(s'.parent.snapshots, s'.parent.missions[outcome.value.body.missionId], readback);
  }

  /** The stored parent sequence of a mission revision never goes back. */
  lemma ParentSequenceForward(s: Store, calls: seq<Call>, key: (string, int))
    requires Reachable(s) && key in s.parent.snapshots
    ensures var s' := Run(s, calls);
            key in s'.parent.snapshots
              && s.parent.snapshots[key].body.parentSequence <= s'.parent.snapshots[key].body.parentSequence
  {
    hide Next;
    ReachableInv(s);
    RunSince(s, calls);
    hide Run, Inv, ClaimsSince, WorkSince, StepsSince, DeliverySince;
  }
}
