/** Every call keeps the store invariant, so it holds in every reachable store. */
module StorePreservation {
  import opened Records
  import opened StoreSpec
  import opened StoreInvariant

  ghost predicate Extends<K, V>(m: map<K, V>, m': map<K, V>) {
    forall k :: k in m ==> k in m' && m'[k] == m[k]
  }

  // ----- claim -----------------------------------------------------------------------------

  lemma {:induction false} SetVersionsAt(versions: map<string, int>, claimed: seq<(string, int)>, item: string,
                                         version: int)
    requires forall i :: 0 <= i < |claimed| && claimed[i].0 == item ==> claimed[i].1 == version
    ensures GetOr(SetVersions(versions, claimed), item, 0) ==
            if exists i :: 0 <= i < |claimed| && claimed[i].0 == item then version else GetOr(versions, item, 0)
    decreases claimed
  {
    if claimed != [] {
      SetVersionsAt(versions[claimed[0].0 := claimed[0].1], claimed[1..], item, version);
      if i :| 0 <= i < |claimed| && claimed[i].0 == item {
        if i > 0 { assert claimed[1..][i - 1].0 == item; }
      } else {
        assert forall i :: 0 <= i < |claimed[1..]| ==> claimed[1..][i] == claimed[i + 1];
      }
    }
  }

  /** A claim raises the version of exactly the claimed items, each by one. */
  lemma ClaimBumps(versions: map<string, int>, scope: seq<string>, item: string)
    ensures GetOr(SetVersions(versions, Bumped(ScopeSnapshot(versions, scope))), item, 0)
            == GetOr(versions, item, 0) + if item in scope then 1 else 0
  {
    var claimed := Bumped(ScopeSnapshot(versions, scope));
    SetVersionsAt(versions, claimed, item, GetOr(versions, item, 0) + 1);
    assert item in scope <==> exists i :: 0 <= i < |claimed| && claimed[i].0 == item by {
      if item in scope {
        var i :| 0 <= i < |scope| && scope[i] == item;
        assert claimed[i].0 == item;
      }
    }
  }

  lemma ClaimCounted(leases: map<Digest, Lease>, p: Digest, lease: Lease, item: string)
    requires p !in leases
    ensures |ClaimsOn(leases[p := lease], item)| == |ClaimsOn(leases, item)| + if item in lease.scope then 1 else 0
  {
    assert ClaimsOn(leases[p := lease], item) == ClaimsOn(leases, item) + if item in lease.scope then {p} else {};
  }

  lemma ClaimFenced(leases: map<Digest, Lease>, versions: map<string, int>, versions': map<string, int>, p: Digest,
                    lease: Lease)
    requires VersionsFence(leases, versions) && p !in leases
    requires forall item :: GetOr(versions, item, 0) <= GetOr(versions', item, 0)
    requires forall x :: x in lease.scopeVersions ==>
               1 <= x.1 == GetOr(versions, x.0, 0) + 1 <= GetOr(versions', x.0, 0)
    ensures VersionsFence(leases[p := lease], versions')
  {
  }

  lemma AddClaimVersions(t: ClaimTable, packet: TaskPacket)
    requires VersionsCountClaims(t.leases, t.versions) && VersionsFence(t.leases, t.versions)
    requires packet.packetId !in t.leases
    requires ScopeSnapshot(t.versions, packet.body.scope) == packet.body.scopeVersions
    ensures var t' := AddClaim(t, packet);
            VersionsCountClaims(t'.leases, t'.versions) && VersionsFence(t'.leases, t'.versions)
  {
    hide SetVersions, VersionsFence;
    var lease := LeaseFor(packet);
    var versions' := SetVersions(t.versions, lease.scopeVersions);
    forall item ensures GetOr(versions', item, 0) == |ClaimsOn(t.leases[packet.packetId := lease], item)|
                ensures GetOr(versions', item, 0) == GetOr(t.versions, item, 0) + if item in packet.body.scope then 1
                        else 0
    {
      ClaimBumps(t.versions, packet.body.scope, item);
      ClaimCounted(t.leases, packet.packetId, lease, item);
    }
    forall x | x in lease.scopeVersions ensures x.1 == GetOr(t.versions, x.0, 0) + 1 && x.0 in packet.body.scope
      && x.1 >= 1 {
      assert GetOr(t.versions, x.0, 0) == |ClaimsOn(t.leases, x.0)|;
    }
    ClaimFenced(t.leases, t.versions, versions', packet.packetId, lease);
  }

  lemma ClaimActive(active: map<Digest, Lease>, leases: map<Digest, Lease>, receiptOf: map<Digest, TerminalReceipt>,
                    lease: Lease)
    requires ActiveUntilReceipt(active, leases, receiptOf) && lease.packetId !in leases
    requires forall p :: p in leases ==> leases[p].leaseId != lease.leaseId
    ensures ActiveUntilReceipt(active[lease.leaseId := lease], leases[lease.packetId := lease], receiptOf)
    ensures lease.leaseId !in active
  {
  }

  lemma ClaimExclusive(active: map<Digest, Lease>, lease: Lease)
    requires Exclusive(active) && lease.leaseId !in active
    requires forall id :: id in active ==> !Overlaps(lease.scope, active[id].scope)
    ensures Exclusive(active[lease.leaseId := lease])
  {
  }

  lemma LeaseIdNamesPacket(lease: Lease, packet: TaskPacket)
    requires LeaseBinds(lease, packet)
    ensures lease.leaseId.LeaseDigest? && lease.leaseId.leasePacket == packet.packetId
  {
  }

  lemma ClaimBinds(leases: map<Digest, Lease>, packets: map<Digest, TaskPacket>, packet: TaskPacket)
    requires LeasesBindPackets(leases, packets) && PacketIdentity(packet) && packet.packetId !in leases
    requires LeaseBinds(LeaseFor(packet), packet)
    ensures LeasesBindPackets(leases[packet.packetId := LeaseFor(packet)], packets[packet.packetId := packet])
    ensures forall p :: p in leases ==> leases[p].leaseId != LeaseFor(packet).leaseId
  {
    hide LeaseBinds, LeaseFor, PacketIdentity;
    LeaseIdNamesPacket(LeaseFor(packet), packet);
    forall p | p in leases ensures leases[p].leaseId != LeaseFor(packet).leaseId {
      LeaseIdNamesPacket(leases[p], packets[p]);
    }
  }

  lemma AddClaimLeases(t: ClaimTable, packet: TaskPacket, receiptOf: map<Digest, TerminalReceipt>)
    requires LeaseInv(t, receiptOf)
    requires PacketIdentity(packet) && packet.packetId !in t.leases
    requires forall id :: id in t.active ==> !Overlaps(packet.body.scope, t.active[id].scope)
    requires ScopeSnapshot(t.versions, packet.body.scope) == packet.body.scopeVersions
    ensures LeaseInv(AddClaim(t, packet), receiptOf)
  {
    AddClaimVersions(t, packet);
    hide VersionsCountClaims, VersionsFence, SetVersions, Overlaps, ActiveUntilReceipt, Exclusive, LeasesBindPackets;
    ClaimBinds(t.leases, t.packets, packet);
    ClaimActive(t.active, t.leases, receiptOf, LeaseFor(packet));
    ClaimExclusive(t.active, LeaseFor(packet));
  }

  lemma PacketsGrowEffects(t: WorkTable, packets: map<Digest, TaskPacket>, packets': map<Digest, TaskPacket>,
                           leases: map<Digest, Lease>, leases': map<Digest, Lease>, terminal: set<Digest>)
    requires Extends(packets, packets') && Extends(leases, leases') && EffectInv(t, packets, leases, terminal)
    ensures EffectInv(t, packets', leases', terminal)
  {
    hide SettledOwned, PendingOwned, ReceiptIdentity;
  }

  lemma PacketsGrowSteps(t: StepTable, started: set<Digest>, leases: map<Digest, Lease>, leases': map<Digest, Lease>,
                         receiptOf: map<Digest, TerminalReceipt>)
    requires Extends(leases, leases') && StepInv(t, started, leases, receiptOf)
    ensures StepInv(t, started, leases', receiptOf)
  {
    hide Closed, StepEffectsOwned, RecoveryOrdered, ListsSteps, StepIdentity;
  }

  lemma PacketsGrowDelivery(t: DeliveryTable, receipts: map<Digest, TerminalReceipt>, packets: map<Digest, TaskPacket>,
                            packets': map<Digest, TaskPacket>)
    requires Extends(packets, packets') && DeliveryInv(t, receipts, packets)
    ensures DeliveryInv(t, receipts, packets')
  {
    hide AcksMatch;
  }

  lemma AdmissionBindsGrow(k: Digest, a: RecoveryAdmission, p: RecoveryProposal, packets: map<Digest, TaskPacket>,
                           packet: TaskPacket)
    requires AdmissionBinds(k, a, p, packets) && packet.packetId !in packets
    ensures AdmissionBinds(k, a, p, packets[packet.packetId := packet]) && a.body.packetId in packets
  {
    hide WithinAuthority, ProposalIdentity;
  }

  lemma AddClaimRecovery(t: RecoveryTable, packets: map<Digest, TaskPacket>, packet: TaskPacket)
    requires RecoveryInv(t, packets) && packet.packetId !in packets
    ensures RecoveryInv(t, packets[packet.packetId := packet])
  {
    hide FingerprintsOnce, AdmissionBinds;
    forall k | k in t.admissions ensures t.admissions[k].body.packetId in packets {
      AdmissionBindsGrow(k, t.admissions[k], t.proposals[k], packets, packet);
    }
    forall k | k in t.admissions
      ensures AdmissionBinds(k, t.admissions[k], t.proposals[k], packets[packet.packetId := packet])
    {
      AdmissionBindsGrow(k, t.admissions[k], t.proposals[k], packets, packet);
    }
    assert AdmittedFor(t.admissions, packet.packetId) == {};
    assert GetOr(t.budgetConsumed, packet.packetId, 0) == 0;
  }

  lemma FirstFalseDeclared(snapshots: map<(string, int), MissionReadback>, mission: Mission, key: string)
    requires var first := FirstFalse(snapshots, mission);
             first.Accepted? && first.value.Some? && first.value.value.key == key
    requires (mission.missionId, mission.revision) !in snapshots
    ensures DeclaredFirst(mission, key)
  {
    FirstFalseScans(snapshots, mission);
    hide FirstFalse;
  }

  lemma AddClaimSnapshots(missions: map<string, Mission>, snapshots: map<(string, int), MissionReadback>,
                          acks: map<Digest, Acknowledgement>, packets: map<Digest, TaskPacket>, packet: TaskPacket)
    requires SnapshotsBind(missions, snapshots, acks, packets) && packet.packetId !in packets
    ensures SnapshotsBind(missions, snapshots, acks, packets[packet.packetId := packet])
  {
    hide Keys, ReadKeys, ReadbackIdentity;
    forall key, a | AckedPacketOf(acks, packets, a, key)
      ensures AckedPacketOf(acks, packets[packet.packetId := packet], a, key) {
    }
  }

  lemma AddClaimMissions(t: ParentTable, packets: map<Digest, TaskPacket>, acks: map<Digest, Acknowledgement>,
                         packet: TaskPacket)
    requires MissionInv(t, packets, acks) && packet.packetId !in packets
    requires CurrentMission(t.missions, packet.body) && RouteMatches(t.missions[packet.body.missionId], packet.body)
    requires (packet.body.missionId, packet.body.missionRevision) !in t.snapshots ==>
               DeclaredFirst(t.missions[packet.body.missionId], packet.body.predicateKey)
    ensures MissionInv(t, packets[packet.packetId := packet], acks)
  {
    hide RouteMatches, VerificationsBehind, DeclaredFirst, SnapshotsBind;
    AddClaimSnapshots(t.missions, t.snapshots, acks, packets, packet);
  }

  lemma ClaimFacts(s: Store, packet: TaskPacket)
    requires ClaimGuard(s, packet).Accepted?
    ensures PacketIdentity(packet) && packet.packetId !in s.claims.leases
    ensures forall id :: id in s.claims.active ==> !Overlaps(packet.body.scope, s.claims.active[id].scope)
    ensures ScopeSnapshot(s.claims.versions, packet.body.scope) == packet.body.scopeVersions
    ensures CurrentMission(s.parent.missions, packet.body)
    ensures RouteMatches(s.parent.missions[packet.body.missionId], packet.body)
    ensures PacketsPlanned(s.parent.missions, s.claims.packets)
            && (packet.body.missionId, packet.body.missionRevision) !in s.parent.snapshots ==>
              DeclaredFirst(s.parent.missions[packet.body.missionId], packet.body.predicateKey)
  {
    hide DeclaredFirst, RouteMatches, Overlaps, FirstFalse;
    var mission := s.parent.missions[packet.body.missionId];
    if mission.missionId == packet.body.missionId
      && (packet.body.missionId, packet.body.missionRevision) !in s.parent.snapshots {
      FirstFalseDeclared(s.parent.snapshots, mission, packet.body.predicateKey);
    }
  }

  lemma AddClaimExtends(t: ClaimTable, receiptOf: map<Digest, TerminalReceipt>, packet: TaskPacket)
    requires LeaseInv(t, receiptOf) && packet.packetId !in t.leases
    ensures packet.packetId !in t.packets
    ensures var t' := AddClaim(t, packet);
            && t'.packets == t.packets[packet.packetId := packet]
            && Extends(t.packets, t'.packets) && Extends(t.leases, t'.leases)
  {
    hide ActiveUntilReceipt, Exclusive, VersionsCountClaims, VersionsFence, LeaseFor, SetVersions;
  }

  lemma ClaimKeepsInv(s: Store, packet: TaskPacket)
    requires Inv(s) && ClaimGuard(s, packet).Accepted?
    ensures Inv(Claim(s, packet).0)
  {
    ClaimFacts(s, packet);
    AddClaimExtends(s.claims, s.work.receiptOf, packet);
    hide AddClaim, Overlaps, PacketsPlanned, Extends, PacketIdentity, CurrentMission, LeaseInv, EffectInv, StepInv,
         RecoveryInv, RecoveryStepsAdmitted, DeliveryInv, MissionInv, ClaimGuard,
         RouteMatches, DeclaredFirst, SetVersions, Bumped, ScopeSnapshot, LeaseFor;
    AddClaimLeases(s.claims, packet, s.work.receiptOf);
    var t' := AddClaim(s.claims, packet);
    PacketsGrowEffects(s.work, s.claims.packets, t'.packets, s.claims.leases, t'.leases, s.work.receiptOf.Keys);
    PacketsGrowSteps(s.trail, s.work.started, s.claims.leases, t'.leases, s.work.receiptOf);
    PacketsGrowDelivery(s.delivery, s.work.receipts, s.claims.packets, t'.packets);
    AddClaimRecovery(s.recovery, s.claims.packets, packet);
    AddClaimMissions(s.parent, s.claims.packets, s.delivery.acks, packet);
  }

  // ----- steps -----------------------------------------------------------------------------

  lemma AddStepBinds(t: StepTable, started: set<Digest>, leases: map<Digest, Lease>, step: StepAttempt)
    requires StepsBind(t.steps, t.stepsOf, started, leases)
    requires step.stepId !in t.steps && StepIdentity(step)
    requires step.body.packetId in started && step.body.packetId in leases
             && step.body.leaseId == leases[step.body.packetId].leaseId
    ensures var t' := AddStep(t, step); StepsBind(t'.steps, t'.stepsOf, started, leases)
  {
    hide StepIdentity;
    var t', p := AddStep(t, step), step.body.packetId;
    var order := GetOr(t.stepsOf, p, []);
    assert t'.stepsOf[p][|order|] == step.stepId;
    assert forall q, id :: id in GetOr(t.stepsOf, q, []) ==> id in GetOr(t'.stepsOf, q, []);
  }

  lemma AddStepLists(t: StepTable, step: StepAttempt)
    requires ListsSteps(t.steps, t.stepsOf) && step.stepId !in t.steps
    ensures var t' := AddStep(t, step); ListsSteps(t'.steps, t'.stepsOf)
  {
    var t', p := AddStep(t, step), step.body.packetId;
    var order := GetOr(t.stepsOf, p, []);
    assert t'.stepsOf[p] == order + [step.stepId] && step.stepId !in order;
    forall id | id in order + [step.stepId] ensures id in t'.steps && t'.steps[id].body.packetId == p {
      assert id in order || id == step.stepId;
    }
    assert Unique(order + [step.stepId]);
  }

  lemma AddStepClosed(t: StepTable, step: StepAttempt, receiptOf: map<Digest, TerminalReceipt>)
    requires Closed(t, receiptOf) && step.body.packetId !in receiptOf && step.stepId !in t.steps
    requires forall p, id :: p in t.stepsOf && id in t.stepsOf[p] ==> id in t.steps
    ensures Closed(AddStep(t, step), receiptOf)
  {
    var t' := AddStep(t, step);
    forall p | p in receiptOf ensures !HasOpenStep(t', p) {
      forall id | id in GetOr(t'.stepsOf, p, []) ensures !OpenStep(t', id) {
        assert id in GetOr(t.stepsOf, p, []) && !OpenStep(t, id);
      }
    }
  }

  lemma AddStepOrdered(t: StepTable, step: StepAttempt)
    requires RecoveryOrdered(t.steps, t.stepsOf) && step.stepId !in t.steps
    requires step.body.recovery.Some? ==>
               step.body.recovery.value.parentStepId in GetOr(t.stepsOf, step.body.packetId, [])
    ensures var t' := AddStep(t, step); RecoveryOrdered(t'.steps, t'.stepsOf)
  {
    var t', p := AddStep(t, step), step.body.packetId;
    var order := GetOr(t.stepsOf, p, []);
    forall a, b | Precedes(order, a, b) ensures Precedes(order + [step.stepId], a, b) {
      var i, j :| 0 <= i < j < |order| && order[i] == a && order[j] == b;
      assert (order + [step.stepId])[i] == a && (order + [step.stepId])[j] == b;
    }
    if step.body.recovery.Some? {
      var i :| 0 <= i < |order| && order[i] == step.body.recovery.value.parentStepId;
      assert (order + [step.stepId])[i] == order[i] && (order + [step.stepId])[|order|] == step.stepId;
      assert Precedes(order + [step.stepId], step.body.recovery.value.parentStepId, step.stepId);
    }
  }

  lemma StepFacts(s: Store, packet: TaskPacket, lease: Lease, step: StepAttempt)
    requires StepGuard(s, packet, lease, step).Accepted? && step.stepId !in s.trail.steps
    ensures HoldsLease(s, packet, lease) && StepIdentity(step)
    ensures step.body.packetId == packet.packetId && step.body.leaseId == lease.leaseId
            && packet.packetId in s.work.started
    ensures step.body.recovery.Some? ==> RecoveryParentKnown(s.trail, packet.packetId, step.body.recovery.value)
    ensures step.body.recovery.Some? ==>
              RecoveryActionAdmitted(s.recovery, packet.packetId, lease.leaseId, step.body, step.body.recovery.value)
    ensures step.body.effectId.Some? && step.body.effectId.value in s.trail.stepEffectOwner ==>
              s.trail.stepEffectOwner[step.body.effectId.value] == step.stepId
  {
    hide ValidatePacket, RecoveryParentKnown, RecoveryActionAdmitted, HoldsLease;
  }

  lemma HoldsLeaseFacts(s: Store, packet: TaskPacket, lease: Lease)
    requires LeaseInv(s.claims, s.work.receiptOf) && HoldsLease(s, packet, lease)
    ensures packet.packetId !in s.work.receiptOf && packet.packetId in s.claims.leases
            && packet.packetId in s.claims.packets
    ensures s.claims.leases[packet.packetId] == lease && s.claims.packets[packet.packetId] == packet
    ensures PacketIdentity(packet)
  {
    hide VersionsCountClaims, VersionsFence, Exclusive, LeaseBinds;
  }

  lemma AddStepKeeps(t: StepTable, started: set<Digest>, leases: map<Digest, Lease>,
                     receiptOf: map<Digest, TerminalReceipt>, step: StepAttempt)
    requires StepInv(t, started, leases, receiptOf)
    requires step.stepId !in t.steps && StepIdentity(step) && step.body.packetId !in receiptOf
    requires step.body.packetId in started && step.body.packetId in leases
             && step.body.leaseId == leases[step.body.packetId].leaseId
    requires step.body.recovery.Some? ==> RecoveryParentKnown(t, step.body.packetId, step.body.recovery.value)
    requires step.body.effectId.Some? && step.body.effectId.value in t.stepEffectOwner ==>
               t.stepEffectOwner[step.body.effectId.value] == step.stepId
    ensures StepInv(AddStep(t, step), started, leases, receiptOf)
  {
    AddStepBinds(t, started, leases, step);
    AddStepLists(t, step);
    AddStepClosed(t, step, receiptOf);
    AddStepOrdered(t, step);
    hide StepsBind, Closed, RecoveryOrdered, StepIdentity;
  }

  lemma StepKeepsInv(s: Store, packet: TaskPacket, lease: Lease, step: StepAttempt)
    requires Inv(s) && StepGuard(s, packet, lease, step).Accepted? && step.stepId !in s.trail.steps
    ensures Inv(RecordStepAttempt(s, packet, lease, step).0)
  {
    StepFacts(s, packet, lease, step);
    HoldsLeaseFacts(s, packet, lease);
    AddStepKeeps(s.trail, s.work.started, s.claims.leases, s.work.receiptOf, step);
    assert RecoveryStepsAdmitted(AddStep(s.trail, step).steps, s.recovery.proposals, s.recovery.admissions) by {
      AddStepAdmitted(s.trail, s.recovery, s.claims.packets, lease.leaseId, step);
    }
    hide LeaseInv, EffectInv, StepInv, RecoveryInv, RecoveryStepsAdmitted, DeliveryInv, MissionInv, StepGuard, AddStep;
  }

  lemma AddStepAdmitted(t: StepTable, r: RecoveryTable, packets: map<Digest, TaskPacket>, leaseId: Digest,
                        step: StepAttempt)
    requires RecoveryInv(r, packets) && RecoveryStepsAdmitted(t.steps, r.proposals, r.admissions)
    requires step.body.recovery.Some? ==>
               RecoveryActionAdmitted(r, step.body.packetId, leaseId, step.body, step.body.recovery.value)
    ensures RecoveryStepsAdmitted(AddStep(t, step).steps, r.proposals, r.admissions)
  {
    hide BudgetAccounted, FingerprintsOnce, WithinAuthority, ProposalIdentity;
    if step.body.recovery.Some? {
      var b := step.body.recovery.value;
      var k := r.admissionById[b.admissionId].body.proposalId;
      var action := FindAction(r.proposals[k].body.actionGraph, b.actionId).value;
      assert Repeats(step.body, r.proposals[k].body.actionGraph);
      assert RecoveryStepAdmitted(step.body, r.proposals, r.admissions);
    }
  }

  // ----- step reconciliation, blockers, execution start ------------------------------------

  lemma ReconciliationCloses(t: StepTable, id: Digest, r: StepReconciliation, p: Digest)
    requires !HasOpenStep(t, p)
    ensures !HasOpenStep(AddReconciliation(t, id, r), p)
  {
    var t' := AddReconciliation(t, id, r);
    forall x | x in GetOr(t'.stepsOf, p, []) ensures !OpenStep(t', x) {
      assert !OpenStep(t, x);
    }
  }

  lemma AddReconciliationKeeps(t: StepTable, started: set<Digest>, leases: map<Digest, Lease>,
                               receiptOf: map<Digest, TerminalReceipt>, id: Digest, r: StepReconciliation)
    requires StepInv(t, started, leases, receiptOf)
    ensures StepInv(AddReconciliation(t, id, r), started, leases, receiptOf)
  {
    hide StepsBind, ListsSteps, StepEffectsOwned, RecoveryOrdered, HasOpenStep;
    forall p | p in receiptOf ensures !HasOpenStep(AddReconciliation(t, id, r), p) {
      ReconciliationCloses(t, id, r, p);
    }
  }

  lemma ReconcileStepKeepsInv(s: Store, packet: TaskPacket, lease: Lease, r: StepReconciliation)
    requires Inv(s)
    ensures Inv(ReconcileStepEffect(s, packet, lease, r).0)
  {
    hide LeaseInv, EffectInv, StepInv, RecoveryInv, RecoveryStepsAdmitted, DeliveryInv, MissionInv, ValidateClaim;
    if r.body.stepId in s.trail.steps {
      var id := s.trail.steps[r.body.stepId].stepId;
      AddReconciliationKeeps(s.trail, s.work.started, s.claims.leases, s.work.receiptOf, id, r);
    }
  }

  lemma BlockerKeepsInv(s: Store, packet: TaskPacket, lease: Lease, blocker: BlockerReport)
    requires Inv(s)
    ensures Inv(RecordBlocker(s, packet, lease, blocker).0)
  {
    hide LeaseInv, EffectInv, StepInv, RecoveryStepsAdmitted, DeliveryInv, MissionInv, ValidateClaim,
         AdmissionsBind, BudgetAccounted, FingerprintsOnce, BlockerBindsStep;
  }

  lemma BeginKeepsInv(s: Store, packet: TaskPacket, lease: Lease)
    requires Inv(s)
    ensures Inv(BeginExecution(s, packet, lease).0)
  {
    hide ValidatePacket, RecoveryInv, RecoveryStepsAdmitted, DeliveryInv, MissionInv, LeaseInv,
         ReceiptsBindPackets, SettledOwned, PendingOwned, ListsSteps, Closed, StepEffectsOwned, RecoveryOrdered;
    if BeginExecution(s, packet, lease).1.Accepted? {
      HoldsLeaseFacts(s, packet, lease);
    }
  }

  // ----- admission -------------------------------------------------------------------------

  lemma {:induction false} TotalBudgetPick(keys: set<Digest>, proposals: map<Digest, RecoveryProposal>, k: Digest)
    requires keys <= proposals.Keys && k in keys
    ensures TotalBudget(keys, proposals) == proposals[k].body.budget + TotalBudget(keys - {k}, proposals)
  {
    var j :| j in keys && TotalBudget(keys, proposals) == proposals[j].body.budget + TotalBudget(keys - {j}, proposals);
    if j != k {
      TotalBudgetPick(keys - {j}, proposals, k);
      TotalBudgetPick(keys - {k}, proposals, j);
      assert keys - {j} - {k} == keys - {k} - {j};
    }
  }

  lemma {:induction false} TotalBudgetFrame(keys: set<Digest>, m: map<Digest, RecoveryProposal>, m': map<Digest,
                                            RecoveryProposal>)
    requires keys <= m.Keys && keys <= m'.Keys
    requires forall k :: k in keys ==> m[k] == m'[k]
    ensures TotalBudget(keys, m) == TotalBudget(keys, m')
  {
    if keys != {} {
      var k :| k in keys;
      TotalBudgetPick(keys, m, k);
      TotalBudgetPick(keys, m', k);
      TotalBudgetFrame(keys - {k}, m, m');
    }
  }

  lemma AddAdmissionBudget(t: RecoveryTable, packets: map<Digest, TaskPacket>, proposal: RecoveryProposal,
                           a: RecoveryAdmission)
    requires BudgetAccounted(t.proposals, t.admissions, t.budgetConsumed, packets)
    requires proposal.proposalId !in t.admissions
    requires a.body.state == Admitted && a.body.packetId in packets ==>
               GetOr(t.budgetConsumed, a.body.packetId,
                     0) + proposal.body.budget <= packets[a.body.packetId].body.recoveryBudget
    ensures var t' := AddAdmission(t, proposal, a);
            BudgetAccounted(t'.proposals, t'.admissions, t'.budgetConsumed, packets)
  {
    var t', k := AddAdmission(t, proposal, a), proposal.proposalId;
    forall p ensures && AdmittedFor(t'.admissions, p) <= t'.proposals.Keys
                     && GetOr(t'.budgetConsumed, p, 0) == TotalBudget(AdmittedFor(t'.admissions, p), t'.proposals)
                     && (p in packets ==> GetOr(t'.budgetConsumed, p, 0) <= packets[p].body.recoveryBudget)
    {
      var before, after := AdmittedFor(t.admissions, p), AdmittedFor(t'.admissions, p);
      TotalBudgetFrame(before, t.proposals, t'.proposals);
      if a.body.state == Admitted && a.body.packetId == p {
        assert after == before + {k} && after - {k} == before;
        TotalBudgetPick(after, t'.proposals, k);
      } else {
        assert after == before;
      }
    }
  }

  lemma AdmissionBindsOne(packets: map<Digest, TaskPacket>, proposal: RecoveryProposal, a: RecoveryAdmission)
    requires ProposalIdentity(proposal)
    requires a.body.proposalId == proposal.proposalId && a.admissionId == AdmissionDigest(a.body)
    requires a.body.packetId == proposal.body.packetId && a.body.packetId in packets
    requires a.body.state == Admitted ==> WithinAuthority(packets[a.body.packetId].body, proposal.body)
    ensures AdmissionBinds(proposal.proposalId, a, proposal, packets)
  {
  }

  lemma AddAdmissionBinds(t: RecoveryTable, packets: map<Digest, TaskPacket>, proposal: RecoveryProposal,
                          a: RecoveryAdmission)
    requires AdmissionsBind(t.proposals, t.admissions, t.admissionById, packets)
    requires proposal.proposalId !in t.admissions && ProposalIdentity(proposal)
    requires a.body.proposalId == proposal.proposalId && a.admissionId == AdmissionDigest(a.body)
    requires a.body.packetId == proposal.body.packetId && a.body.packetId in packets
    requires a.body.state == Admitted ==> WithinAuthority(packets[a.body.packetId].body, proposal.body)
    ensures var t' := AddAdmission(t, proposal, a);
            AdmissionsBind(t'.proposals, t'.admissions, t'.admissionById, packets)
  {
    hide AdmissionBinds;
    assert AdmissionBinds(proposal.proposalId, a, proposal, packets) by { AdmissionBindsOne(packets, proposal, a); }
  }

  lemma AddAdmissionFingerprints(t: RecoveryTable, proposal: RecoveryProposal, a: RecoveryAdmission)
    requires FingerprintsOnce(t.admissions, t.fingerprints) && proposal.proposalId !in t.admissions
    requires a.body.state == Admitted ==> a.body.recoveryFingerprint !in t.fingerprints
    ensures var t' := AddAdmission(t, proposal, a); FingerprintsOnce(t'.admissions, t'.fingerprints)
  {
  }

  lemma AdmittedMeans(s: Store, packet: TaskPacket, lease: Lease, blocker: BlockerReport, proposal: RecoveryProposal)
    requires Judgement(s, packet, lease, blocker, proposal).body.state == Admitted
    ensures WithinAuthority(packet.body, proposal.body)
    ensures GetOr(s.recovery.budgetConsumed, packet.packetId, 0) + proposal.body.budget <= packet.body.recoveryBudget
    ensures RecoveryFingerprint(blocker, proposal) !in s.recovery.fingerprints
    ensures !HasOpenStep(s.trail, packet.packetId)
  {
    hide ScopeExpands, HasOpenStep;
    assert AdmissionReasons(s, packet, blocker.body, proposal.body) == [];
    InScopeMeans(packet.body, proposal.body);
  }

  lemma InScopeMeans(packet: PacketBody, p: ProposalBody)
    ensures !ScopeExpands(packet, p) <==>
            && (forall item :: item in p.requiredScope ==> item in packet.scope)
            && (forall a, item :: a in p.actionGraph && item in a.body.scope ==> item in packet.scope)
  {
  }

  lemma RecoveryStepsGrow(steps: map<Digest, StepAttempt>, t: RecoveryTable, t': RecoveryTable)
    requires RecoveryStepsAdmitted(steps, t.proposals, t.admissions)
    requires forall k :: k in t.admissions && k in t.proposals ==>
               Get(t'.admissions, k) == Some(t.admissions[k]) && Get(t'.proposals, k) == Some(t.proposals[k])
    ensures RecoveryStepsAdmitted(steps, t'.proposals, t'.admissions)
  {
    hide Repeats;
    forall id | id in steps && steps[id].body.recovery.Some?
      ensures RecoveryStepAdmitted(steps[id].body, t'.proposals, t'.admissions)
    {
      var k :| && k in t.admissions && k in t.proposals && t.admissions[k].body.state == Admitted
               && t.admissions[k].body.packetId == steps[id].body.packetId
               && Repeats(steps[id].body, t.proposals[k].body.actionGraph);
      assert k in t'.admissions && k in t'.proposals;
    }
  }

  lemma AdmissionFacts(s: Store, packet: TaskPacket, lease: Lease, blocker: BlockerReport, proposal: RecoveryProposal)
    requires AdmissionGuard(s, packet, lease, blocker, proposal).Accepted?
    ensures HoldsLease(s, packet, lease) && ProposalIdentity(proposal) && proposal.body.packetId == packet.packetId
  {
    hide ValidatePacket, HoldsLease, ProposalIdentity;
  }

  lemma JudgementKeeps(s: Store, packet: TaskPacket, lease: Lease, blocker: BlockerReport, proposal: RecoveryProposal)
    requires Inv(s) && HoldsLease(s, packet, lease) && ProposalIdentity(proposal)
    requires proposal.body.packetId == packet.packetId && proposal.proposalId !in s.recovery.admissions
    ensures RecoveryInv(AddAdmission(s.recovery, proposal, Judgement(s, packet, lease, blocker, proposal)),
                        s.claims.packets)
  {
    HoldsLeaseFacts(s, packet, lease);
    hide LeaseInv, EffectInv, StepInv, RecoveryInv, RecoveryStepsAdmitted, DeliveryInv, MissionInv, AddAdmission,
         AdmissionReasons, WithinAuthority, HasOpenStep, HoldsLease;
    var a := Judgement(s, packet, lease, blocker, proposal);
    if a.body.state == Admitted { AdmittedMeans(s, packet, lease, blocker, proposal); }
    AddAdmissionKeeps(s.recovery, s.claims.packets, proposal, a);
  }

  lemma AddAdmissionExtends(t: RecoveryTable, proposal: RecoveryProposal, a: RecoveryAdmission)
    requires proposal.proposalId !in t.admissions
    ensures var t' := AddAdmission(t, proposal, a);
            forall k :: k in t.admissions && k in t.proposals ==>
              Get(t'.admissions, k) == Some(t.admissions[k]) && Get(t'.proposals, k) == Some(t.proposals[k])
  {
  }

  lemma AdmitKeepsInv(s: Store, packet: TaskPacket, lease: Lease, blocker: BlockerReport, proposal: RecoveryProposal)
    requires Inv(s)
    ensures Inv(AdmitRecovery(s, packet, lease, blocker, proposal).0)
  {
    hide LeaseInv, EffectInv, StepInv, RecoveryInv, RecoveryStepsAdmitted, DeliveryInv, MissionInv, AdmissionGuard,
         AddAdmission, Judgement, HoldsLease, ProposalIdentity;
    var guard := AdmissionGuard(s, packet, lease, blocker, proposal);
    if guard.Accepted? && proposal.proposalId !in s.recovery.admissions {
      AdmissionFacts(s, packet, lease, blocker, proposal);
      var a := Judgement(s, packet, lease, blocker, proposal);
      JudgementKeeps(s, packet, lease, blocker, proposal);
      AddAdmissionExtends(s.recovery, proposal, a);
      RecoveryStepsGrow(s.trail.steps, s.recovery, AddAdmission(s.recovery, proposal, a));
    }
  }

  lemma AddAdmissionKeeps(t: RecoveryTable, packets: map<Digest, TaskPacket>, proposal: RecoveryProposal,
                          a: RecoveryAdmission)
    requires RecoveryInv(t, packets)
    requires proposal.proposalId !in t.admissions && ProposalIdentity(proposal)
    requires a.body.proposalId == proposal.proposalId && a.admissionId == AdmissionDigest(a.body)
    requires a.body.packetId == proposal.body.packetId && a.body.packetId in packets
    requires a.body.state == Admitted ==>
               && WithinAuthority(packets[a.body.packetId].body, proposal.body)
               && GetOr(t.budgetConsumed, a.body.packetId,
                        0) + proposal.body.budget <= packets[a.body.packetId].body.recoveryBudget
               && a.body.recoveryFingerprint !in t.fingerprints
    ensures RecoveryInv(AddAdmission(t, proposal, a), packets)
  {
    AddAdmissionBinds(t, packets, proposal, a);
    AddAdmissionBudget(t, packets, proposal, a);
    AddAdmissionFingerprints(t, proposal, a);
    hide AdmissionsBind, BudgetAccounted, FingerprintsOnce, AddAdmission;
  }

  // ----- terminal receipts -----------------------------------------------------------------

  lemma LeaseIdsDiffer(leases: map<Digest, Lease>, packets: map<Digest, TaskPacket>, p: Digest)
    requires LeasesBindPackets(leases, packets) && p in leases
    ensures forall q :: q in leases && leases[q].leaseId == leases[p].leaseId ==> q == p
  {
    hide LeaseBinds, PacketIdentity;
    LeaseIdNamesPacket(leases[p], packets[p]);
    forall q | q in leases ensures leases[q].leaseId == leases[p].leaseId ==> q == p {
      LeaseIdNamesPacket(leases[q], packets[q]);
    }
  }

  lemma ReleaseActive(active: map<Digest, Lease>, leases: map<Digest, Lease>, receiptOf: map<Digest, TerminalReceipt>,
                      p: Digest, receipt: TerminalReceipt)
    requires ActiveUntilReceipt(active, leases, receiptOf) && Exclusive(active) && p in leases
    requires forall q :: q in leases && leases[q].leaseId == leases[p].leaseId ==> q == p
    ensures ActiveUntilReceipt(active - {leases[p].leaseId}, leases, receiptOf[p := receipt])
    ensures Exclusive(active - {leases[p].leaseId})
  {
    hide Overlaps;
  }

  lemma ReceiptReleases(t: ClaimTable, receiptOf: map<Digest, TerminalReceipt>, p: Digest, receipt: TerminalReceipt)
    requires LeaseInv(t, receiptOf) && p in t.leases
    ensures LeaseInv(t.(active := t.active - {t.leases[p].leaseId}), receiptOf[p := receipt])
  {
    hide VersionsCountClaims, VersionsFence, Exclusive, LeasesBindPackets, ActiveUntilReceipt;
    LeaseIdsDiffer(t.leases, t.packets, p);
    ReleaseActive(t.active, t.leases, receiptOf, p, receipt);
  }

  lemma ReceiptFresh(receipts: map<Digest, TerminalReceipt>, receiptOf: map<Digest, TerminalReceipt>,
                     packets: map<Digest, TaskPacket>, leases: map<Digest, Lease>, r: TerminalReceipt)
    requires ReceiptsBindPackets(receipts, receiptOf, packets, leases)
    requires ReceiptBinds(r, packets, leases) && r.body.packetId !in receiptOf
    ensures r.receiptId !in receipts
    ensures forall p :: p in receiptOf ==> receiptOf[p].receiptId != r.receiptId
  {
    forall id | id in receipts ensures id == ReceiptDigest(receipts[id].body) {
      assert ReceiptBinds(receiptOf[receipts[id].body.packetId], packets, leases);
    }
  }

  lemma ReceiptBindsNew(receipts: map<Digest, TerminalReceipt>, receiptOf: map<Digest, TerminalReceipt>,
                        packets: map<Digest, TaskPacket>, leases: map<Digest, Lease>, r: TerminalReceipt)
    requires ReceiptsBindPackets(receipts, receiptOf, packets, leases)
    requires ReceiptBinds(r, packets, leases) && r.body.packetId !in receiptOf
    ensures ReceiptsBindPackets(receipts[r.receiptId := r], receiptOf[r.body.packetId := r], packets, leases)
    ensures r.receiptId !in receipts
  {
    ReceiptFresh(receipts, receiptOf, packets, leases, r);
    hide ReceiptBinds;
  }

  lemma ReceiptEffects(t: WorkTable, packets: map<Digest, TaskPacket>, leases: map<Digest, Lease>, r: TerminalReceipt)
    requires EffectInv(t, packets, leases, t.receiptOf.Keys + {r.body.packetId})
    requires ReceiptBinds(r, packets, leases) && r.body.packetId !in t.receiptOf
    requires r.body.effectId.Some? ==> Get(t.effectOwner, r.body.effectId.value) == Some(r.body.packetId)
    ensures EffectInv(t.(receipts := t.receipts[r.receiptId := r], receiptOf := t.receiptOf[r.body.packetId := r]),
                      packets, leases, (t.receiptOf[r.body.packetId := r]).Keys)
    ensures r.receiptId !in t.receipts
  {
    ReceiptBindsNew(t.receipts, t.receiptOf, packets, leases, r);
    hide ReceiptsBindPackets, ReceiptBinds;
    assert (t.receiptOf[r.body.packetId := r]).Keys == t.receiptOf.Keys + {r.body.packetId};
  }

  lemma ReceiptContinuation(c: Continuation, receipts: map<Digest, TerminalReceipt>, packets: map<Digest, TaskPacket>,
                            r: TerminalReceipt)
    requires ContinuationBinds(c, receipts, packets) && r.receiptId !in receipts
    ensures ContinuationBinds(c, receipts[r.receiptId := r], packets)
  {
  }

  lemma ReceiptDelivery(t: DeliveryTable, receipts: map<Digest, TerminalReceipt>, packets: map<Digest, TaskPacket>,
                        r: TerminalReceipt)
    requires DeliveryInv(t, receipts, packets) && r.receiptId !in receipts
    ensures DeliveryInv(t, receipts[r.receiptId := r], packets)
  {
    hide AcksMatch, ContinuationBinds;
    forall c | c in t.continuations ensures ContinuationBinds(t.continuations[c], receipts[r.receiptId := r], packets) {
      ReceiptContinuation(t.continuations[c], receipts, packets, r);
    }
  }

  lemma ReceiptSteps(t: StepTable, started: set<Digest>, leases: map<Digest, Lease>,
                     receiptOf: map<Digest, TerminalReceipt>, r: TerminalReceipt)
    requires StepInv(t, started, leases, receiptOf) && !HasOpenStep(t, r.body.packetId)
    ensures StepInv(t, started, leases, receiptOf[r.body.packetId := r])
  {
    hide StepsBind, ListsSteps, StepEffectsOwned, RecoveryOrdered, HasOpenStep;
  }

  /** What an ending must satisfy for its receipt to be sound. */
  ghost predicate SoundEnding(effectOwner: map<string, Digest>, p: Digest, e: Ending) {
    && !e.effectState.Unsettled?
    && (e.effectState.Settled? <==> e.effectId.Some?)
    && (e.effectId.Some? ==> Get(effectOwner, e.effectId.value) == Some(p))
  }

  lemma PersistKeepsInv(s: Store, packet: TaskPacket, lease: Lease, e: Ending)
    requires InvClosing(s, s.work.receiptOf.Keys + {packet.packetId})
    requires HoldsLease(s, packet, lease) && !HasOpenStep(s.trail, packet.packetId)
    requires SoundEnding(s.work.effectOwner, packet.packetId, e)
    ensures PersistTerminal(s, packet, lease, e).1.Accepted?
    ensures Inv(PersistTerminal(s, packet, lease, e).0)
  {
    HoldsLeaseFacts(s, packet, lease);
    var r := ReceiptFor(packet, lease, e);
    assert ReceiptBinds(r, s.claims.packets, s.claims.leases);
    hide LeaseInv, EffectInv, StepInv, RecoveryInv, RecoveryStepsAdmitted, DeliveryInv, MissionInv, HasOpenStep,
         ReceiptBinds;
    ReceiptReleases(s.claims, s.work.receiptOf, packet.packetId, r);
    ReceiptEffects(s.work, s.claims.packets, s.claims.leases, r);
    ReceiptDelivery(s.delivery, s.work.receipts, s.claims.packets, r);
    ReceiptSteps(s.trail, s.work.started, s.claims.leases, s.work.receiptOf, r);
  }

  lemma OwnersChange(t: WorkTable, packets: map<Digest, TaskPacket>, leases: map<Digest, Lease>, owners: map<string,
                     Digest>, p: Digest)
    requires EffectInv(t, packets, leases, t.receiptOf.Keys) && p !in t.receiptOf
    requires forall e :: e in t.effectOwner && t.effectOwner[e] != p ==> Get(owners, e) == Some(t.effectOwner[e])
    ensures EffectInv(t.(effectOwner := owners), packets, leases, t.receiptOf.Keys + {p})
  {
    hide ReceiptsBindPackets;
  }

  lemma PreExecutionKeepsInv(s: Store, packet: TaskPacket, lease: Lease, code: FailureCode, detail: string)
    requires Inv(s)
    ensures Inv(TerminalizePreExecution(s, packet, lease, code, detail).0)
  {
    hide LeaseInv, EffectInv, StepInv, RecoveryInv, RecoveryStepsAdmitted, DeliveryInv, MissionInv, HoldsLease,
         HasOpenStep,
         AddReceipt, ReceiptFor, InvClosing;
    if HoldsLease(s, packet, lease) && !HasOpenStep(s.trail, packet.packetId) && packet.packetId !in s.work.started {
      ClosingWeakens(s, packet.packetId);
      PersistKeepsInv(s, packet, lease, Ending(Blocked, None, NoEffect, PreExecutionDigest(code, detail), None, false,
                                               Some((code, FromHarness))));
    }
  }

  lemma ClosingWeakens(s: Store, p: Digest)
    requires Inv(s)
    ensures InvClosing(s, s.work.receiptOf.Keys + {p})
  {
    hide LeaseInv, StepInv, RecoveryInv, RecoveryStepsAdmitted, DeliveryInv, MissionInv, ReceiptsBindPackets,
         SettledOwned,
         StartedOnly;
  }

  lemma AddFailureKeeps(t: WorkTable, packets: map<Digest, TaskPacket>, leases: map<Digest, Lease>, p: Digest,
                        failure: ExecutionFailure, observed: Option<string>)
    requires EffectInv(t, packets, leases, t.receiptOf.Keys) && p in t.started
    ensures EffectInv(t.(failures := t.failures[p := failure],
                         effectOwner := if observed.Some? && observed.value !in t.effectOwner
                                        then t.effectOwner[observed.value := p] else t.effectOwner),
                      packets, leases, t.receiptOf.Keys)
  {
    hide ReceiptsBindPackets;
  }

  lemma FailureKeepsInv(s: Store, packet: TaskPacket, lease: Lease, code: FailureCode, detail: Digest,
                        observed: Option<string>, origin: FailureOrigin)
    requires Inv(s)
    ensures Inv(RecordExecutionFailure(s, packet, lease, code, detail, observed, origin).0)
  {
    hide LeaseInv, EffectInv, StepInv, RecoveryInv, RecoveryStepsAdmitted, DeliveryInv, MissionInv, HoldsLease,
         ExecutorCode, ReconcilableCode, Blank;
    var r := RecordExecutionFailure(s, packet, lease, code, detail, observed, origin);
    if r.1.Accepted? {
      AddFailureKeeps(s.work, s.claims.packets, s.claims.leases, packet.packetId, r.1.value, observed);
    }
  }

  lemma OwnersAfterFailureKeep(t: WorkTable, packets: map<Digest, TaskPacket>, leases: map<Digest, Lease>, p: Digest,
                               observed: Option<string>, r: FailureReconciliation)
    requires EffectInv(t, packets, leases, t.receiptOf.Keys) && p !in t.receiptOf
    requires r.effectId.Some? && r.effectId.value in t.effectOwner ==> t.effectOwner[r.effectId.value] == p
    ensures EffectInv(t.(effectOwner := OwnersAfterFailure(t.effectOwner, p, observed, r)), packets, leases,
                      t.receiptOf.Keys + {p})
    ensures r.effectId.Some? ==> Get(OwnersAfterFailure(t.effectOwner, p, observed, r), r.effectId.value) == Some(p)
  {
    hide EffectInv;
    OwnersChange(t, packets, leases, OwnersAfterFailure(t.effectOwner, p, observed, r), p);
  }

  lemma ReconcileFailureKeepsInv(s: Store, packet: TaskPacket, lease: Lease, r: FailureReconciliation)
    requires Inv(s) && FailureGuard(s, packet, lease, r).Accepted?
    ensures Inv(ReconcileFailure(s, packet, lease, r).0) && ReconcileFailure(s, packet, lease, r).1.Accepted?
  {
    hide LeaseInv, EffectInv, StepInv, RecoveryInv, RecoveryStepsAdmitted, DeliveryInv, MissionInv, HasOpenStep,
         PersistTerminal, OwnersAfterFailure;
    var failure := s.work.failures[packet.packetId].body;
    var owners := OwnersAfterFailure(s.work.effectOwner, packet.packetId, failure.observedEffectId, r);
    OwnersAfterFailureKeep(s.work, s.claims.packets, s.claims.leases, packet.packetId, failure.observedEffectId, r);
    PersistKeepsInv(s.(work := s.work.(effectOwner := owners)), packet, lease,
                    Ending(Failed, r.effectId, r.effectState, r.outputDigest, Some(r.proofDigest), false,
                           Some((failure.failureCode, failure.origin))));
  }

  lemma AddAttemptKeeps(t: WorkTable, packets: map<Digest, TaskPacket>, leases: map<Digest, Lease>, p: Digest,
                        result: ExecutionResult)
    requires EffectInv(t, packets, leases, t.receiptOf.Keys) && p in t.started && result.effectId !in t.effectOwner
    ensures EffectInv(AddAttempt(t, p, result), packets, leases, t.receiptOf.Keys + {p})
    ensures result.effectState.Unsettled? ==> EffectInv(AddAttempt(t, p, result), packets, leases, t.receiptOf.Keys)
  {
    hide ReceiptsBindPackets;
  }

  lemma ResultKeepsInv(s: Store, packet: TaskPacket, lease: Lease, result: ExecutionResult)
    requires Inv(s) && ResultGuard(s, packet, lease).Accepted?
    requires ResultMatches(packet, lease, result) && result.effectId !in s.work.effectOwner
    ensures Inv(RecordExecution(s, packet, lease, result).0)
    ensures RecordExecution(s, packet, lease, result).1.Accepted? <==> result.effectState.Settled?
  {
    hide LeaseInv, EffectInv, StepInv, RecoveryInv, RecoveryStepsAdmitted, DeliveryInv, MissionInv, HasOpenStep,
         PersistTerminal;
    AddAttemptKeeps(s.work, s.claims.packets, s.claims.leases, packet.packetId, result);
    if result.effectState.Settled? {
      PersistKeepsInv(s.(work := AddAttempt(s.work, packet.packetId, result)), packet, lease,
                      Ending(Succeeded, Some(result.effectId), Settled, result.outputDigest,
                             Some(result.outputDigest), result.predicateSatisfied, None));
    }
  }

  lemma SettleAttemptKeeps(t: WorkTable, packets: map<Digest, TaskPacket>, leases: map<Digest, Lease>, p: Digest,
                           result: ExecutionResult)
    requires EffectInv(t, packets, leases, t.receiptOf.Keys) && p in t.attempts && p !in t.receiptOf
    ensures EffectInv(t.(attempts := t.attempts[p := result]), packets, leases, t.receiptOf.Keys + {p})
    ensures Get(t.effectOwner, t.attempts[p].effectId) == Some(p)
  {
    hide ReceiptsBindPackets;
  }

  lemma ReconcileEffectKeepsInv(s: Store, packet: TaskPacket, lease: Lease, r: EffectReconciliation)
    requires Inv(s) && EffectGuard(s, packet, lease, r).Accepted?
    ensures Inv(ReconcileEffect(s, packet, lease, r).0) && ReconcileEffect(s, packet, lease, r).1.Accepted?
  {
    hide LeaseInv, EffectInv, StepInv, RecoveryInv, RecoveryStepsAdmitted, DeliveryInv, MissionInv, HasOpenStep,
         PersistTerminal;
    HoldsLeaseFacts(s, packet, lease);
    var settled: ExecutionResult := s.work.attempts[packet.packetId].(effectState := Settled);
    SettleAttemptKeeps(s.work, s.claims.packets, s.claims.leases, packet.packetId, settled);
    PersistKeepsInv(s.(work := s.work.(attempts := s.work.attempts[packet.packetId := settled])), packet, lease,
                    Ending(Succeeded, Some(settled.effectId), Settled, settled.outputDigest, Some(r.proofDigest),
                           settled.predicateSatisfied, None));
  }

  lemma ExecutionKeepsInv(s: Store, packet: TaskPacket, lease: Lease, result: ExecutionResult)
    requires Inv(s)
    ensures Inv(RecordExecution(s, packet, lease, result).0)
  {
    hide LeaseInv, EffectInv, StepInv, RecoveryInv, RecoveryStepsAdmitted, DeliveryInv, MissionInv, PersistTerminal,
         RecordExecutionFailure, ResultGuard, ResultMatches, AddAttempt;
    FailureKeepsInv(s, packet, lease, StaleIdentity, ResultMismatchDigest(packet.packetId, lease.leaseId),
                    Some(result.effectId), FromHarness);
    if result.effectId in s.work.effectOwner {
      FailureKeepsInv(s, packet, lease, DuplicateOrReplay,
                      DuplicateEffectDigest(result.effectId, s.work.effectOwner[result.effectId]),
                      Some(result.effectId), FromHarness);
    } else if ResultGuard(s, packet, lease).Accepted? && ResultMatches(packet, lease, result) {
      ResultKeepsInv(s, packet, lease, result);
    }
  }

  // ----- delivery --------------------------------------------------------------------------

  lemma PrepareBinds(t: DeliveryTable, receipts: map<Digest, TerminalReceipt>, packets: map<Digest, TaskPacket>,
                     c: Continuation)
    requires ContinuationsBind(t.continuations, t.continuationOf, receipts, packets)
    requires ContinuationBinds(c, receipts, packets) && c.receiptId !in t.continuationOf
    ensures ContinuationsBind(t.continuations[c.continuationId := c], t.continuationOf[c.receiptId := c.continuationId],
                              receipts, packets)
    ensures c.continuationId !in t.continuations
  {
    hide ContinuationBinds;
    forall id | id in t.continuations ensures id != c.continuationId {
      SameContinuation(t.continuations[id], c, receipts, packets);
    }
  }

  lemma SameContinuation(c: Continuation, d: Continuation, receipts: map<Digest, TerminalReceipt>,
                         packets: map<Digest, TaskPacket>)
    requires ContinuationBinds(c, receipts, packets) && ContinuationBinds(d, receipts, packets)
    ensures c.continuationId == d.continuationId ==> c.receiptId == d.receiptId
  {
  }

  lemma AnyState(c: Continuation, state: ContinuationState, receipts: map<Digest, TerminalReceipt>,
                 packets: map<Digest, TaskPacket>)
    requires ContinuationBinds(c, receipts, packets)
    ensures ContinuationBinds(c.(state := state), receipts, packets)
  {
  }

  lemma PrepareAcks(acks: map<Digest, Acknowledgement>, continuations: map<Digest, Continuation>, c: Continuation)
    requires AcksMatch(acks, continuations) && c.continuationId !in continuations && c.state != Acknowledged
    ensures AcksMatch(acks, continuations[c.continuationId := c])
  {
    hide AckIdentity;
  }

  lemma PrepareKeeps(t: DeliveryTable, receipts: map<Digest, TerminalReceipt>, packets: map<Digest, TaskPacket>,
                     receiptId: Digest)
    requires DeliveryInv(t, receipts, packets)
    requires receiptId in receipts && receipts[receiptId].body.packetId in packets && receiptId !in t.continuationOf
    ensures var c := NewContinuation(receiptId, packets[receipts[receiptId].body.packetId].body.destination);
            DeliveryInv(t.(continuations := t.continuations[c.continuationId := c],
                           continuationOf := t.continuationOf[receiptId := c.continuationId]), receipts, packets)
  {
    hide ContinuationsBind, AcksMatch;
    var c := NewContinuation(receiptId, packets[receipts[receiptId].body.packetId].body.destination);
    PrepareBinds(t, receipts, packets, c);
    PrepareAcks(t.acks, t.continuations, c);
  }

  lemma PrepareKeepsInv(s: Store, receipt: TerminalReceipt)
    requires Inv(s)
    ensures Inv(PrepareContinuation(s, receipt).0)
  {
    hide LeaseInv, EffectInv, StepInv, RecoveryInv, RecoveryStepsAdmitted, DeliveryInv, MissionInv, NewContinuation;
    if && Get(s.work.receipts, receipt.receiptId) == Some(receipt) && receipt.receiptId !in s.delivery.continuationOf
       && receipt.body.packetId in s.claims.packets {
      PrepareKeeps(s.delivery, s.work.receipts, s.claims.packets, receipt.receiptId);
    }
  }

  lemma MoveBinds(t: DeliveryTable, receipts: map<Digest, TerminalReceipt>, packets: map<Digest, TaskPacket>,
                  c: Continuation, state: ContinuationState)
    requires ContinuationsBind(t.continuations, t.continuationOf, receipts, packets)
    requires Get(t.continuations, c.continuationId) == Some(c)
    ensures ContinuationsBind(t.continuations[c.continuationId := c.(state := state)], t.continuationOf, receipts,
                              packets)
  {
    hide ContinuationBinds;
    AnyState(c, state, receipts, packets);
  }

  lemma MoveAcks(acks: map<Digest, Acknowledgement>, continuations: map<Digest, Continuation>, c: Continuation,
                 state: ContinuationState)
    requires AcksMatch(acks, continuations)
    requires Get(continuations, c.continuationId) == Some(c) && c.state != Acknowledged && state != Acknowledged
    ensures AcksMatch(acks, continuations[c.continuationId := c.(state := state)])
  {
    hide AckIdentity;
  }

  lemma MoveKeeps(t: DeliveryTable, receipts: map<Digest, TerminalReceipt>, packets: map<Digest, TaskPacket>,
                  c: Continuation, state: ContinuationState)
    requires DeliveryInv(t, receipts, packets)
    requires Get(t.continuations, c.continuationId) == Some(c) && c.state != Acknowledged && state != Acknowledged
    ensures DeliveryInv(t.(continuations := t.continuations[c.continuationId := c.(state := state)]), receipts, packets)
  {
    hide ContinuationsBind, AcksMatch;
    MoveBinds(t, receipts, packets, c, state);
    MoveAcks(t.acks, t.continuations, c, state);
  }

  lemma AckAcks(acks: map<Digest, Acknowledgement>, continuations: map<Digest, Continuation>, c: Continuation,
                ack: Acknowledgement)
    requires AcksMatch(acks, continuations)
    requires Get(continuations, c.continuationId) == Some(c) && c.state != Acknowledged
    requires AckIdentity(ack) && ack.body.continuationId == c.continuationId && ack.body.receiptId == c.receiptId
    ensures AcksMatch(acks[ack.ackId := ack], continuations[c.continuationId := c.(state := Acknowledged)])
    ensures ack.ackId !in acks
  {
    hide AckIdentity, AckBinds;
    var acks', continuations' := acks[ack.ackId := ack], continuations[c.continuationId := c.(state := Acknowledged)];
    forall a | a in acks
      ensures acks[a].ackId != ack.ackId && acks[a].body.continuationId != c.continuationId
              && AckBinds(acks[a], continuations')
    {
      AckBindsOther(acks[a], continuations, c, ack);
    }
    AckBindsThis(ack, continuations, c);
    forall x | x in continuations' && continuations'[x].state == Acknowledged
      ensures exists a :: a in acks' && acks'[a].body.continuationId == x
    {
      if x == c.continuationId {
        assert acks'[ack.ackId].body.continuationId == x;
      } else {
        var a :| a in acks && acks[a].body.continuationId == x;
        assert acks'[a].body.continuationId == x;
      }
    }
  }

  lemma AckBindsOther(ack: Acknowledgement, continuations: map<Digest, Continuation>, c: Continuation,
                      new': Acknowledgement)
    requires AckBinds(ack, continuations)
    requires Get(continuations, c.continuationId) == Some(c) && c.state != Acknowledged
    requires AckIdentity(new') && new'.body.continuationId == c.continuationId
    ensures ack.body.continuationId != c.continuationId && ack.ackId != new'.ackId
    ensures AckBinds(ack, continuations[c.continuationId := c.(state := Acknowledged)])
  {
  }

  lemma AckBindsThis(ack: Acknowledgement, continuations: map<Digest, Continuation>, c: Continuation)
    requires AckIdentity(ack) && ack.body.continuationId == c.continuationId && ack.body.receiptId == c.receiptId
    ensures AckBinds(ack, continuations[c.continuationId := c.(state := Acknowledged)])
  {
  }

  lemma AckKeeps(t: DeliveryTable, receipts: map<Digest, TerminalReceipt>, packets: map<Digest, TaskPacket>,
                 c: Continuation, ack: Acknowledgement, ackOf: map<Digest, Acknowledgement>)
    requires DeliveryInv(t, receipts, packets)
    requires Get(t.continuations, c.continuationId) == Some(c) && c.state != Acknowledged
    requires ack == SealAck(ack.body) && ack.body.continuationId == c.continuationId
             && ack.body.receiptId == c.receiptId
    ensures DeliveryInv(DeliveryTable(t.continuations[c.continuationId := c.(state := Acknowledged)], t.continuationOf,
                                      t.acks[ack.ackId := ack], ackOf), receipts, packets)
    ensures ack.ackId !in t.acks
  {
    hide ContinuationsBind, AcksMatch;
    MoveBinds(t, receipts, packets, c, Acknowledged);
    AckAcks(t.acks, t.continuations, c, ack);
  }

  lemma AcksGrow(t: ParentTable, packets: map<Digest, TaskPacket>, acks: map<Digest, Acknowledgement>,
                 ack: Acknowledgement)
    requires MissionInv(t, packets, acks) && ack.ackId !in acks
    ensures MissionInv(t, packets, acks[ack.ackId := ack])
  {
    hide PacketsPlanned, VerificationsBehind, PlannedFirst, Keys, ReadKeys;
    forall key, a | AckedPacketOf(acks, packets, a, key)
      ensures AckedPacketOf(acks[ack.ackId := ack], packets, a, key) {
    }
  }

  lemma AcknowledgeKeepsInv(s: Store, c: Continuation, receipt: TerminalReceipt, proof: ConvergenceProof,
                            expected: ContinuationState)
    requires Inv(s) && expected != Acknowledged
    ensures Inv(AcknowledgeDelivery(s, c, receipt, proof, expected).0)
  {
    hide LeaseInv, EffectInv, StepInv, RecoveryInv, RecoveryStepsAdmitted, DeliveryInv, MissionInv,
         ConvergenceIdentity, Blank;
    var r := AcknowledgeDelivery(s, c, receipt, proof, expected);
    if r.1.Accepted? {
      AckKeeps(s.delivery, s.work.receipts, s.claims.packets, c, r.1.value.1, r.0.delivery.ackOf);
      AcksGrow(s.parent, s.claims.packets, s.delivery.acks, r.1.value.1);
    }
  }

  lemma BeginDeliveryKeepsInv(s: Store, c: Continuation, receipt: TerminalReceipt)
    requires Inv(s)
    ensures Inv(BeginDelivery(s, c, receipt).0) && Inv(MarkDeliveryUnsettled(s, c, receipt).0)
  {
    hide LeaseInv, EffectInv, StepInv, RecoveryInv, RecoveryStepsAdmitted, DeliveryInv, MissionInv;
    if Get(s.delivery.continuations, c.continuationId) == Some(c) && c.state != Acknowledged {
      MoveKeeps(s.delivery, s.work.receipts, s.claims.packets, c, DeliveryStarted);
      MoveKeeps(s.delivery, s.work.receipts, s.claims.packets, c, DeliveryUnsettled);
    }
  }

  lemma ReconcileContinuationKeepsInv(s: Store, receipt: TerminalReceipt, r: ContinuationReconciliation,
                                      proof: Option<DeliveryProof>)
    requires Inv(s)
    ensures Inv(ReconcileContinuation(s, receipt, r, proof).0)
  {
    hide LeaseInv, EffectInv, StepInv, RecoveryInv, RecoveryStepsAdmitted, DeliveryInv, MissionInv, ProvesAbsence,
         AcknowledgeDelivery;
    if r.continuationId in s.delivery.continuations
      && s.delivery.continuations[r.continuationId].state == DeliveryUnsettled {
      var c := s.delivery.continuations[r.continuationId];
      ContinuationKeyed(s, r.continuationId);
      MoveKeeps(s.delivery, s.work.receipts, s.claims.packets, c, Prepared);
      if proof.Some? && proof.value.OfConvergence? {
        AcknowledgeKeepsInv(s, c, receipt, proof.value.convergence, DeliveryUnsettled);
      }
    }
  }

  lemma ContinuationKeyed(s: Store, id: Digest)
    requires Inv(s) && id in s.delivery.continuations
    ensures s.delivery.continuations[id].continuationId == id
  {
    hide LeaseInv, EffectInv, StepInv, RecoveryInv, RecoveryStepsAdmitted, MissionInv, AcksMatch;
  }

  // ----- missions --------------------------------------------------------------------------

  lemma RegisterPlanned(missions: map<string, Mission>, packets: map<Digest, TaskPacket>, mission: Mission)
    requires PacketsPlanned(missions, packets)
    requires mission.missionId in missions ==> mission.revision > missions[mission.missionId].revision
    ensures PacketsPlanned(missions[mission.missionId := mission], packets)
  {
    hide RouteMatches;
  }

  lemma RegisterSnapshots(t: ParentTable, packets: map<Digest, TaskPacket>, acks: map<Digest, Acknowledgement>,
                          mission: Mission)
    requires SnapshotsBind(t.missions, t.snapshots, acks, packets)
    requires mission.missionId in t.missions ==> mission.revision > t.missions[mission.missionId].revision
    ensures SnapshotsBind(t.missions[mission.missionId := mission], t.snapshots, acks, packets)
  {
    hide Keys, ReadKeys, AckedPacketOf, ReadbackIdentity;
  }

  lemma RegisterFirst(missions: map<string, Mission>, packets: map<Digest, TaskPacket>,
                      snapshots: map<(string, int), MissionReadback>, mission: Mission)
    requires PacketsPlanned(missions, packets) && PlannedFirst(missions, packets, snapshots)
    requires mission.missionId in missions ==> mission.revision > missions[mission.missionId].revision
    ensures PlannedFirst(missions[mission.missionId := mission], packets, snapshots)
  {
    hide RouteMatches, DeclaredFirst;
  }

  lemma RegisterKeeps(t: ParentTable, packets: map<Digest, TaskPacket>, acks: map<Digest, Acknowledgement>,
                      mission: Mission)
    requires MissionInv(t, packets, acks)
    requires mission.missionId in t.missions ==> mission.revision > t.missions[mission.missionId].revision
    ensures MissionInv(t.(missions := t.missions[mission.missionId := mission]), packets, acks)
  {
    hide PacketsPlanned, SnapshotsBind, VerificationsBehind, PlannedFirst;
    RegisterPlanned(t.missions, packets, mission);
    RegisterSnapshots(t, packets, acks, mission);
    RegisterFirst(t.missions, packets, t.snapshots, mission);
  }

  lemma RegisterKeepsInv(s: Store, mission: Mission)
    requires Inv(s)
    ensures Inv(RegisterMission(s, mission).0)
  {
    hide LeaseInv, EffectInv, StepInv, RecoveryInv, RecoveryStepsAdmitted, DeliveryInv, MissionInv;
    if mission.missionId in s.parent.missions ==> mission.revision > s.parent.missions[mission.missionId].revision {
      RegisterKeeps(s.parent, s.claims.packets, s.delivery.acks, mission);
    }
  }

  lemma DispositionKeepsInv(s: Store, d: RouteDisposition)
    requires Inv(s)
    ensures Inv(RecordRouteDisposition(s, d).0)
  {
    hide LeaseInv, EffectInv, StepInv, RecoveryInv, RecoveryStepsAdmitted, DeliveryInv,
         PacketsPlanned, SnapshotsBind, VerificationsBehind, PlannedFirst, DispositionIdentity, FindRoute;
  }

  lemma SupersessionKeepsInv(s: Store, d: MissionSupersession)
    requires Inv(s)
    ensures Inv(RecordMissionSupersession(s, d).0)
  {
    hide LeaseInv, EffectInv, StepInv, RecoveryInv, RecoveryStepsAdmitted, DeliveryInv,
         PacketsPlanned, SnapshotsBind, VerificationsBehind, PlannedFirst, SupersessionIdentity, AckIdentity,
         ReceiptIdentity;
  }

  lemma SnapshotKeeps(t: ParentTable, packets: map<Digest, TaskPacket>, acks: map<Digest, Acknowledgement>,
                      key: (string, int), readback: MissionReadback, v: MissionVerification, a: Digest)
    requires MissionInv(t, packets, acks)
    requires key.0 in t.missions && key.1 == t.missions[key.0].revision
    requires ReadKeys(readback.body.predicates) == Keys(t.missions[key.0].predicates) && ReadbackIdentity(readback)
    requires AckedPacketOf(acks, packets, a, key)
    requires key in t.snapshots ==> t.snapshots[key].body.parentSequence <= readback.body.parentSequence
    requires v.verificationId == VerificationDigest(v.body) && (v.body.missionId, v.body.missionRevision) == key
             && v.body.parentSequence == readback.body.parentSequence
    ensures MissionInv(t.(snapshots := t.snapshots[key := readback],
                          verifications := t.verifications[v.verificationId := v]),
                       packets, acks)
  {
    hide PacketsPlanned, SnapshotsBind, VerificationsBehind, PlannedFirst, Keys, ReadKeys, AckedPacketOf,
         ReadbackIdentity;
    SnapshotBinds(t, packets, acks, key, readback, a);
    SnapshotBehind(t.verifications, t.snapshots, key, readback, v);
    SnapshotFirst(t.missions, packets, t.snapshots, key, readback);
  }

  lemma SnapshotBinds(t: ParentTable, packets: map<Digest, TaskPacket>, acks: map<Digest, Acknowledgement>,
                      key: (string, int), readback: MissionReadback, a: Digest)
    requires SnapshotsBind(t.missions, t.snapshots, acks, packets)
    requires key.0 in t.missions && key.1 == t.missions[key.0].revision
    requires ReadKeys(readback.body.predicates) == Keys(t.missions[key.0].predicates) && ReadbackIdentity(readback)
    requires AckedPacketOf(acks, packets, a, key)
    ensures SnapshotsBind(t.missions, t.snapshots[key := readback], acks, packets)
  {
    hide Keys, ReadKeys, AckedPacketOf, ReadbackIdentity;
  }

  lemma SnapshotBehind(verifications: map<Digest, MissionVerification>, snapshots: map<(string, int), MissionReadback>,
                       key: (string, int), readback: MissionReadback, v: MissionVerification)
    requires VerificationsBehind(verifications, snapshots)
    requires key in snapshots ==> snapshots[key].body.parentSequence <= readback.body.parentSequence
    requires v.verificationId == VerificationDigest(v.body) && (v.body.missionId, v.body.missionRevision) == key
             && v.body.parentSequence == readback.body.parentSequence
    ensures VerificationsBehind(verifications[v.verificationId := v], snapshots[key := readback])
  {
  }

  lemma SnapshotFirst(missions: map<string, Mission>, packets: map<Digest, TaskPacket>,
                      snapshots: map<(string, int), MissionReadback>, key: (string, int), readback: MissionReadback)
    requires PlannedFirst(missions, packets, snapshots)
    ensures PlannedFirst(missions, packets, snapshots[key := readback])
  {
    hide DeclaredFirst;
  }

  lemma VerifyKeepsInv(s: Store, ack: Acknowledgement, readback: MissionReadback)
    requires Inv(s)
    ensures Inv(VerifyMission(s, ack, readback).0)
  {
    hide LeaseInv, EffectInv, StepInv, RecoveryInv, RecoveryStepsAdmitted, DeliveryInv, MissionInv,
         AckIdentity, NextStep, Keys, ReadKeys, FindReadback;
    if && Get(s.delivery.acks, ack.ackId) == Some(ack) && ack.body.packetId in s.claims.packets
       && s.claims.packets[ack.body.packetId].body.missionId in s.parent.missions {
      var packet := s.claims.packets[ack.body.packetId].body;
      var mission := s.parent.missions[packet.missionId];
      MissionKeyed(s, packet.missionId);
      var key := (mission.missionId, mission.revision);
      var current := FindReadback(readback.body.predicates, packet.predicateKey);
      if && packet.missionRevision == mission.revision && ReadbackIdentity(readback)
         && ReadKeys(readback.body.predicates) == Keys(mission.predicates) && current.Some?
         && (key in s.parent.snapshots ==>
             s.parent.snapshots[key].body.parentSequence <= readback.body.parentSequence) {
        assert AckedPacketOf(s.delivery.acks, s.claims.packets, ack.ackId, key);
        SnapshotKeeps(s.parent, s.claims.packets, s.delivery.acks, key, readback,
                      VerificationOf(packet, mission, current.value.truth, ack, readback), ack.ackId);
      }
    }
  }

  lemma MissionKeyed(s: Store, id: string)
    requires Inv(s) && id in s.parent.missions
    ensures s.parent.missions[id].missionId == id
  {
    hide LeaseInv, EffectInv, StepInv, RecoveryInv, RecoveryStepsAdmitted, DeliveryInv, SnapshotsBind,
         VerificationsBehind,
         PlannedFirst;
  }

  // ----- every call, every run ---------------------------------------------------------------

  lemma NextKeepsInv(s: Store, call: Call)
    requires Inv(s)
    ensures Inv(Next(s, call))
  {
    hide Inv, RegisterMission, RecordRouteDisposition, RecordMissionSupersession, ClaimGuard, AddClaim, BeginExecution,
         StepGuard, AddStep, ReconcileStepEffect, RecordBlocker, AdmitRecovery, TerminalizePreExecution,
         RecordExecutionFailure, FailureGuard, PersistTerminal, RecordExecution, EffectGuard, PrepareContinuation,
         BeginDelivery, MarkDeliveryUnsettled, AcknowledgeDelivery, ReconcileContinuation, VerifyMission,
         OwnersAfterFailure;
    match call
    case RegisterMissionCall(m) => RegisterKeepsInv(s, m);
    case DispositionCall(d) => DispositionKeepsInv(s, d);
    case SupersessionCall(d) => SupersessionKeepsInv(s, d);
    case ClaimCall(p) => if ClaimGuard(s, p).Accepted? { ClaimKeepsInv(s, p); }
    case BeginCall(p, l) => BeginKeepsInv(s, p, l);
    case StepCall(p, l, step) =>
      if StepGuard(s, p, l, step).Accepted? && step.stepId !in s.trail.steps { StepKeepsInv(s, p, l, step); }
    case ReconcileStepCall(p, l, r) => ReconcileStepKeepsInv(s, p, l, r);
    case BlockerCall(p, l, b) => BlockerKeepsInv(s, p, l, b);
    case AdmitCall(p, l, b, proposal) => AdmitKeepsInv(s, p, l, b, proposal);
    case PreExecutionCall(p, l, code, detail) => PreExecutionKeepsInv(s, p, l, code, detail);
    case FailureCall(p, l, code, detail, observed, origin) => FailureKeepsInv(s, p, l, code, detail, observed, origin);
    case ReconcileFailureCall(p, l, r) =>
      if FailureGuard(s, p, l, r).Accepted? { ReconcileFailureKeepsInv(s, p, l, r); }
    case ResultCall(p, l, result) => ExecutionKeepsInv(s, p, l, result);
    case ReconcileEffectCall(p, l, r) => if EffectGuard(s, p, l, r).Accepted? { ReconcileEffectKeepsInv(s, p, l, r); }
    case PrepareCall(r) => PrepareKeepsInv(s, r);
    case BeginDeliveryCall(c, r) => BeginDeliveryKeepsInv(s, c, r);
    case MarkUnsettledCall(c, r) => BeginDeliveryKeepsInv(s, c, r);
    case AcknowledgeCall(c, r, proof) => AcknowledgeKeepsInv(s, c, r, proof, DeliveryStarted);
    case ReconcileContinuationCall(receipt, r, proof) => ReconcileContinuationKeepsInv(s, receipt, r, proof);
    case VerifyCall(ack, readback) => VerifyKeepsInv(s, ack, readback);
  }

  lemma {:induction false} RunKeepsInv(s: Store, calls: seq<Call>)
    requires Inv(s)
    ensures Inv(Run(s, calls))
    decreases calls
  {
    if calls != [] {
      NextKeepsInv(s, calls[0]);
      RunKeepsInv(Next(s, calls[0]), calls[1..]);
    }
  }

  lemma ReachableInv(s: Store)
    requires Reachable(s)
    ensures Inv(s)
  {
    InvInit();
    var calls :| Run(EMPTY, calls) == s;
    RunKeepsInv(EMPTY, calls);
  }
}
