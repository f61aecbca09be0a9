/**
 The store as the object the harness shares: its dictionaries, grouped into six tables, are fields that each
 atomic method reassigns. Every method keeps the invariant and takes the store's value exactly where its specification
 function takes it, so all theorems about runs hold of the object.
 */
module ReferenceStore {
  import opened Records
  import opened StoreSpec
  import opened StoreInvariant
  import opened StorePreservation

  class InMemoryStore {
    var parent: ParentTable
    var claims: ClaimTable
    var work: WorkTable
    var trail: StepTable
    var recovery: RecoveryTable
    var delivery: DeliveryTable

    /** The abstract store this object stands for. */
    ghost function Value(): Store reads this {
      Store(parent, claims, work, trail, recovery, delivery)
    }

    ghost predicate Valid() reads this { Inv(Value()) }

    constructor ()
      ensures Value() == EMPTY && Valid()
    {
      parent := ParentTable(map[], map[], map[], map[], map[]);
      claims := ClaimTable(map[], map[], map[], map[]);
      work := WorkTable({}, map[], map[], map[], map[], map[]);
      trail := StepTable(map[], map[], map[], map[]);
      recovery := RecoveryTable(map[], map[], map[], map[], {}, map[]);
      delivery := DeliveryTable(map[], map[], map[], map[]);
      new;
      hide Inv;
      InvInit();
    }

    // ----- missions ------------------------------------------------------------------------

    method RegisterMission(mission: Mission) returns (r: Outcome<()>)
      requires Valid()
      modifies this`parent
      ensures Valid()
      ensures (Value(), r) == StoreSpec.RegisterMission(old(Value()), mission)
    {
      hide Inv;
      RegisterKeepsInv(Value(), mission);
      if mission.missionId in parent.missions {
        var current := parent.missions[mission.missionId];
        if mission == current { return Accepted(()); }
        if mission.revision <= current.revision { return Rejected(StaleIdentity); }
      }
      parent := parent.(missions := parent.missions[mission.missionId := mission]);
      return Accepted(());
    }

    method RecordRouteDisposition(d: RouteDisposition) returns (r: Outcome<RouteDisposition>)
      requires Valid()
      modifies this`parent
      ensures Valid()
      ensures (Value(), r) == StoreSpec.RecordRouteDisposition(old(Value()), d)
    {
      hide Inv, DispositionIdentity;
      DispositionKeepsInv(Value(), d);
      var route: Option<Route> := None;
      if d.body.missionId in parent.missions && parent.missions[d.body.missionId].revision == d.body.missionRevision {
        route := FindRoute(parent.missions[d.body.missionId].routes, d.body.routeId);
      }
      if route.None? || route.value.predicateKey != d.body.predicateKey { return Rejected(StaleIdentity); }
      if !DispositionIdentity(d) { return Rejected(ReplayIdentityConflict); }
      var key := (d.body.missionId, d.body.missionRevision, d.body.routeId);
      if key in parent.dispositions {
        return if parent.dispositions[key] == d then Accepted(d) else Rejected(ReplayIdentityConflict);
      }
      parent := parent.(dispositions := parent.dispositions[key := d]);
      return Accepted(d);
    }

    method RecordMissionSupersession(d: MissionSupersession) returns (r: Outcome<MissionSupersession>)
      requires Valid()
      modifies this`parent
      ensures Valid()
      ensures (Value(), r) == StoreSpec.RecordMissionSupersession(old(Value()), d)
    {
      hide Inv, SupersessionIdentity, AckIdentity, ReceiptIdentity;
      SupersessionKeepsInv(Value(), d);
      var b := d.body;
      if b.missionId !in parent.missions || parent.missions[b.missionId].revision != b.supersedingRevision {
        return Rejected(StaleIdentity);
      }
      if b.ackId !in delivery.acks || b.receiptId !in work.receipts { return Rejected(StaleIdentity); }
      var ack, receipt := delivery.acks[b.ackId], work.receipts[b.receiptId];
      if ack.body.packetId !in claims.packets || ack.body.receiptId != receipt.receiptId {
        return Rejected(StaleIdentity);
      }
      var packet := claims.packets[ack.body.packetId].body;
      if packet.missionId != b.missionId || packet.missionRevision != b.supersededRevision {
        return Rejected(StaleIdentity);
      }
      if !SupersessionIdentity(d) || !AckIdentity(ack) || !ReceiptIdentity(receipt) {
        return Rejected(ReplayIdentityConflict);
      }
      var key := (b.missionId, b.supersededRevision, b.supersedingRevision, b.ackId);
      if key in parent.supersessions {
        return if parent.supersessions[key] == d then Accepted(d) else Rejected(ReplayIdentityConflict);
      }
      parent := parent.(supersessions := parent.supersessions[key := d]);
      return Accepted(d);
    }

    /** The scan stops at the first unsatisfied predicate once no predicate is indeterminate. */
    method FirstFalse(mission: Mission) returns (r: Outcome<Option<ExitPredicate>>)
      ensures r == StoreSpec.FirstFalse(parent.snapshots, mission) && Scans(parent.snapshots, mission, r)
    {
      FirstFalseScans(parent.snapshots, mission);
      hide Scans;
      var truths := MissionTruths(parent.snapshots, mission);
      var i := 0;
      while i < |truths| && i < |mission.predicates|
        invariant 0 <= i <= |truths| && i <= |mission.predicates|
        invariant forall j :: 0 <= j < i ==> truths[j] != Indeterminate
      {
        if truths[i] == Indeterminate { return Rejected(ReadbackIndeterminate); }
        i := i + 1;
      }
      if |truths| != |mission.predicates| { return Crashed; }
      assert truths[..|truths|] == truths;
      i := 0;
      while i < |truths|
        invariant 0 <= i <= |truths|
        invariant forall j :: 0 <= j < i ==> truths[j] != Unsatisfied
      {
        if truths[i] == Unsatisfied { return Accepted(Some(mission.predicates[i])); }
        i := i + 1;
      }
      return Accepted(None);
    }

    // ----- packets and leases --------------------------------------------------------------

    method ValidatePacket(packet: TaskPacket) returns (r: Outcome<()>)
      ensures r == StoreSpec.ValidatePacket(Value(), packet)
    {
      hide PacketIdentity, StoreSpec.FirstFalse;
      var p := packet.body;
      if !PacketIdentity(packet) { return Rejected(ReplayIdentityConflict); }
      if p.missionId !in parent.missions || parent.missions[p.missionId].revision != p.missionRevision {
        return Rejected(StaleIdentity);
      }
      var mission := parent.missions[p.missionId];
      var first := FirstFalse(mission);
      if !first.Accepted? { return first.Fail(); }
      if first.value.None? || first.value.value.key != p.predicateKey { return Rejected(StaleIdentity); }
      var route := FindRoute(mission.routes, p.routeId);
      if route.Some? && (mission.missionId, mission.revision, route.value.routeId) in parent.dispositions {
        return Rejected(StaleIdentity);
      }
      if p.missionMode != mission.mode || p.destination != mission.destination || route.None?
         || (route.value.predicateKey, route.value.executorId, route.value.scope) != (p.predicateKey, p.executorId,
             p.scope)
         || (route.value.expectedDelta, route.value.abandonIf, route.value.recoveryBudget)
            != (p.expectedDelta, p.abandonIf, p.recoveryBudget) {
        return Rejected(StaleIdentity);
      }
      return Accepted(());
    }

    /** Scans the active leases for one that shares a scope item. */
    method Conflicts(scope: seq<string>) returns (conflict: bool)
      ensures conflict <==> exists id :: id in claims.active && Overlaps(scope, claims.active[id].scope)
    {
      var rest := claims.active.Keys;
      while rest != {}
        invariant rest <= claims.active.Keys
        invariant forall id | id in claims.active :: id !in rest ==> !Overlaps(scope, claims.active[id].scope)
      {
        var id :| id in rest;
        if Overlaps(scope, claims.active[id].scope) { return true; }
        rest := rest - {id};
      }
      return false;
    }

    method CheckClaim(packet: TaskPacket) returns (r: Outcome<()>)
      ensures r == ClaimGuard(Value(), packet)
    {
      hide StoreSpec.ValidatePacket, Overlaps;
      r := ValidatePacket(packet);
      if !r.Accepted? { return; }
      if packet.packetId in claims.leases { return Rejected(DuplicateOrReplay); }
      var conflict := Conflicts(packet.body.scope);
      if conflict { return Rejected(LeaseConflict); }
      if ScopeSnapshot(claims.versions, packet.body.scope) != packet.body.scopeVersions {
        return Rejected(CasMismatch);
      }
      return Accepted(());
    }

    method Claim(packet: TaskPacket) returns (r: Outcome<Lease>)
      requires Valid()
      modifies this`claims
      ensures Valid()
      ensures (Value(), r) == StoreSpec.Claim(old(Value()), packet)
    {
      hide Inv, ClaimGuard, SetVersions, Bumped;
      var check := CheckClaim(packet);
      if !check.Accepted? { return check.Fail(); }
      ClaimKeepsInv(Value(), packet);
      var claimed := Bumped(packet.body.scopeVersions);
      WriteVersions(claimed);
      var lease := Lease(LeaseDigest(packet.packetId, claimed), packet.packetId, packet.body.scope, claimed);
      claims := claims.(packets := claims.packets[packet.packetId := packet]);
      claims := claims.(active := claims.active[lease.leaseId := lease]);
      claims := claims.(leases := claims.leases[packet.packetId := lease]);
      return Accepted(lease);
    }

    method WriteVersions(claimed: seq<(string, int)>)
      modifies this`claims
      ensures claims == old(claims).(versions := SetVersions(old(claims.versions), claimed))
    {
      var i := 0;
      while i < |claimed|
        invariant 0 <= i <= |claimed|
        invariant claims == old(claims).(versions := claims.versions)
        invariant SetVersions(claims.versions, claimed[i..]) == SetVersions(old(claims.versions), claimed)
      {
        claims := claims.(versions := claims.versions[claimed[i].0 := claimed[i].1]);
        i := i + 1;
      }
    }

    method ValidateActiveClaim(packet: TaskPacket, lease: Lease, currentMission: bool) returns (r: Outcome<()>)
      ensures r == ValidateClaim(Value(), packet, lease, currentMission)
    {
      hide StoreSpec.ValidatePacket;
      if currentMission {
        r := ValidatePacket(packet);
        if !r.Accepted? { return; }
      }
      if || Get(claims.active, lease.leaseId) != Some(lease) || Get(claims.packets, packet.packetId) != Some(packet)
         || Get(claims.leases, packet.packetId) != Some(lease) || lease.packetId != packet.packetId {
        return Rejected(StaleIdentity);
      }
      return Accepted(());
    }

    method BeginExecution(packet: TaskPacket, lease: Lease) returns (r: Outcome<()>)
      requires Valid()
      modifies this`work
      ensures Valid()
      ensures (Value(), r) == StoreSpec.BeginExecution(old(Value()), packet, lease)
    {
      hide Inv, ValidateClaim;
      BeginKeepsInv(Value(), packet, lease);
      if packet.packetId in work.started || packet.packetId in work.receiptOf { return Rejected(DuplicateOrReplay); }
      r := ValidateActiveClaim(packet, lease, true);
      if !r.Accepted? { return; }
      work := work.(started := work.started + {packet.packetId});
      return Accepted(());
    }

    // ----- steps and recovery --------------------------------------------------------------

    method CheckStep(packet: TaskPacket, lease: Lease, step: StepAttempt) returns (r: Outcome<()>)
      ensures r == StepGuard(Value(), packet, lease, step)
    {
      hide ValidateClaim, StepIdentity, RecoveryParentKnown, RecoveryActionAdmitted;
      r := ValidateActiveClaim(packet, lease, true);
      if !r.Accepted? { return; }
      if packet.packetId !in work.started { return Rejected(StaleIdentity); }
      if step.body.packetId != packet.packetId || step.body.leaseId != lease.leaseId { return Rejected(StaleIdentity); }
      if !StepIdentity(step) { return Rejected(ReplayIdentityConflict); }
      if step.body.recovery.Some? {
        var admitted := BindsRecovery(packet, lease, step);
        if !admitted { return Rejected(StaleIdentity); }
      }
      if step.stepId in trail.steps {
        return if trail.steps[step.stepId] == step then Accepted(()) else Rejected(ReplayIdentityConflict);
      }
      if step.body.effectId.Some? {
        var effectId := step.body.effectId.value;
        if effectId in trail.stepEffectOwner && trail.stepEffectOwner[effectId] != step.stepId {
          return Rejected(ReplayIdentityConflict);
        }
      }
      return Accepted(());
    }

    method RecordStepAttempt(packet: TaskPacket, lease: Lease, step: StepAttempt) returns (r: Outcome<StepAttempt>)
      requires Valid()
      modifies this`trail
      ensures Valid()
      ensures (Value(), r) == StoreSpec.RecordStepAttempt(old(Value()), packet, lease, step)
    {
      hide Inv, StepGuard, GetOr, WellFormedStep;
      var check := CheckStep(packet, lease, step);
      if !check.Accepted? { return check.Fail(); }
      if step.stepId in trail.steps { return Accepted(step); }
      StepKeepsInv(Value(), packet, lease, step);
      if step.body.effectId.Some? {
        trail := trail.(stepEffectOwner := trail.stepEffectOwner[step.body.effectId.value := step.stepId]);
      }
      trail := trail.(steps := trail.steps[step.stepId := step]);
      trail := trail.(stepsOf := trail.stepsOf[step.body.packetId :=
                                               GetOr(trail.stepsOf, step.body.packetId, []) + [step.stepId]]);
      return Accepted(step);
    }

    method BindsRecovery(packet: TaskPacket, lease: Lease, step: StepAttempt) returns (ok: bool)
      requires step.body.recovery.Some?
      ensures ok <==> && RecoveryParentKnown(trail, packet.packetId, step.body.recovery.value)
                      && RecoveryActionAdmitted(recovery, packet.packetId, lease.leaseId, step.body,
                                                step.body.recovery.value)
    {
      var binding := step.body.recovery.value;
      if binding.parentStepId !in trail.steps || trail.steps[binding.parentStepId].body.packetId != packet.packetId {
        return false;
      }
      if binding.admissionId !in recovery.admissionById { return false; }
      var admission := recovery.admissionById[binding.admissionId].body;
      if admission.proposalId !in recovery.proposals { return false; }
      var proposal := recovery.proposals[admission.proposalId].body;
      var action := FindAction(proposal.actionGraph, binding.actionId);
      return && admission.state == Admitted && admission.packetId == packet.packetId
        && admission.leaseId == lease.leaseId
             && proposal.blockerId == admission.blockerId
             && action.Some? && action.value.body.operationDigest == step.body.operationDigest
             && action.value.body.effectClass == step.body.effectClass;
    }

    /** Scans the packet's recorded steps for an unresolved effect; every listed step is recorded. */
    method AnyOpenStep(packetId: Digest, ghost closing: set<Digest>) returns (open: bool)
      requires InvClosing(Value(), work.receiptOf.Keys + closing)
      ensures open <==> HasOpenStep(trail, packetId)
    {
      hide InvClosing;
      var ids := GetOr(trail.stepsOf, packetId, []);
      ListedSteps(Value(), work.receiptOf.Keys + closing, packetId);
      var i := 0;
      while i < |ids|
        invariant 0 <= i <= |ids|
        invariant forall j :: 0 <= j < i ==> !OpenStep(trail, ids[j])
      {
        var step := trail.steps[ids[i]];
        var state := if step.stepId in trail.stepReconciliations then
          trail.stepReconciliations[step.stepId].body.effectState
                     else step.body.effectState;
        if state.Unsettled? { return true; }
        i := i + 1;
      }
      return false;
    }

    method ReconcileStepEffect(packet: TaskPacket, lease: Lease, s: StepReconciliation)
      returns (r: Outcome<StepReconciliation>)
      requires Valid()
      modifies this`trail
      ensures Valid()
      ensures (Value(), r) == StoreSpec.ReconcileStepEffect(old(Value()), packet, lease, s)
    {
      hide Inv, ValidateClaim, StepReconciliationIdentity;
      ReconcileStepKeepsInv(Value(), packet, lease, s);
      var check := ValidateActiveClaim(packet, lease, true);
      if !check.Accepted? { return check.Fail(); }
      if s.body.stepId !in trail.steps { return Rejected(StaleIdentity); }
      var step := trail.steps[s.body.stepId];
      if || step.body.packetId != packet.packetId || step.body.leaseId != lease.leaseId
         || s.body.packetId != packet.packetId || s.body.leaseId != lease.leaseId
         || step.body.effectState != Unsettled || Some(s.body.effectId) != step.body.effectId {
        return Rejected(StaleIdentity);
      }
      if !StepReconciliationIdentity(s) { return Rejected(ReplayIdentityConflict); }
      if step.stepId in trail.stepReconciliations {
        return if trail.stepReconciliations[step.stepId] == s then Accepted(s) else Rejected(ReplayIdentityConflict);
      }
      trail := trail.(stepReconciliations := trail.stepReconciliations[step.stepId := s]);
      return Accepted(s);
    }

    method CheckBlocker(packet: TaskPacket, lease: Lease, blocker: BlockerReport) returns (r: Outcome<()>)
      ensures r == BlockerGuard(Value(), packet, lease, blocker)
    {
      hide ValidateClaim, BlockerIdentity;
      r := ValidateActiveClaim(packet, lease, true);
      var b := blocker.body;
      if !r.Accepted? { return; }
      if || b.missionId != packet.body.missionId || b.missionRevision != packet.body.missionRevision
         || b.packetId != packet.packetId || b.leaseId != lease.leaseId {
        return Rejected(StaleIdentity);
      }
      if !BlockerIdentity(blocker) { return Rejected(ReplayIdentityConflict); }
      if b.stepId.None? {
        if !b.effectState.NoEffect? { return Rejected(StaleIdentity); }
      } else {
        if b.stepId.value !in trail.steps { return Rejected(StaleIdentity); }
        var step := trail.steps[b.stepId.value];
        var state := if b.stepId.value in trail.stepReconciliations then
          trail.stepReconciliations[b.stepId.value].body.effectState
                     else step.body.effectState;
        if step.body.packetId != packet.packetId || b.effectState != state { return Rejected(StaleIdentity); }
        var expected := if step.body.effectId.None? then [] else [step.body.effectId.value];
        if b.observedEffectIds != expected { return Rejected(StaleIdentity); }
      }
      return Accepted(());
    }

    method RecordBlocker(packet: TaskPacket, lease: Lease, blocker: BlockerReport) returns (r: Outcome<BlockerReport>)
      requires Valid()
      modifies this`recovery
      ensures Valid()
      ensures (Value(), r) == StoreSpec.RecordBlocker(old(Value()), packet, lease, blocker)
    {
      hide Inv, BlockerGuard;
      BlockerKeepsInv(Value(), packet, lease, blocker);
      var check := CheckBlocker(packet, lease, blocker);
      if !check.Accepted? { return check.Fail(); }
      if blocker.blockerId in recovery.blockers {
        return if recovery.blockers[blocker.blockerId] == blocker then Accepted(blocker)
          else Rejected(ReplayIdentityConflict);
      }
      recovery := recovery.(blockers := recovery.blockers[blocker.blockerId := blocker]);
      return Accepted(blocker);
    }

    method CollectReasons(packet: TaskPacket, b: BlockerBody, p: ProposalBody) returns (reasons: seq<Reason>)
      requires Valid()
      ensures reasons == AdmissionReasons(Value(), packet, b, p)
    {
      hide InvClosing, HasOpenStep, ReasonsFor;
      assert work.receiptOf.Keys + {} == work.receiptOf.Keys;
      var open := AnyOpenStep(packet.packetId, {});
      reasons := ListReasons(packet.body, b, p, open, GetOr(recovery.budgetConsumed, packet.packetId, 0));
    }

    method CheckProposal(packet: TaskPacket, lease: Lease, blocker: BlockerReport, proposal: RecoveryProposal)
      returns (r: Outcome<()>)
      ensures r == AdmissionGuard(Value(), packet, lease, blocker, proposal)
    {
      hide ValidateClaim, ProposalIdentity;
      r := ValidateActiveClaim(packet, lease, true);
      if !r.Accepted? { return; }
      if Get(recovery.blockers, blocker.blockerId) != Some(blocker) { return Rejected(StaleIdentity); }
      if || proposal.body.blockerId != blocker.blockerId || proposal.body.packetId != packet.packetId
         || proposal.body.leaseId != lease.leaseId {
        return Rejected(StaleIdentity);
      }
      if !ProposalIdentity(proposal) { return Rejected(ReplayIdentityConflict); }
      return Accepted(());
    }

    method AdmitRecovery(packet: TaskPacket, lease: Lease, blocker: BlockerReport, proposal: RecoveryProposal)
      returns (r: Outcome<RecoveryAdmission>)
      requires Valid()
      modifies this`recovery
      ensures Valid()
      ensures (Value(), r) == StoreSpec.AdmitRecovery(old(Value()), packet, lease, blocker, proposal)
    {
      hide Inv, AdmissionGuard, AdmissionReasons;
      AdmitKeepsInv(Value(), packet, lease, blocker, proposal);
      var check := CheckProposal(packet, lease, blocker, proposal);
      if !check.Accepted? { return check.Fail(); }
      if proposal.proposalId in recovery.admissions { return Accepted(recovery.admissions[proposal.proposalId]); }
      var reasons := CollectReasons(packet, blocker.body, proposal.body);
      var fingerprint := RecoveryFingerprint(blocker, proposal);
      var state := Admitted;
      if fingerprint in recovery.fingerprints {
        state := Duplicate;
        reasons := [DuplicateFingerprint];
      } else if reasons != [] {
        state := Escalated;
      } else {
        var consumed := GetOr(recovery.budgetConsumed, packet.packetId, 0);
        recovery := recovery.(fingerprints := recovery.fingerprints + {fingerprint});
        recovery := recovery.(budgetConsumed :=
                              recovery.budgetConsumed[packet.packetId := consumed + proposal.body.budget]);
      }
      var body := AdmissionBody(proposal.proposalId, blocker.blockerId, packet.packetId, lease.leaseId, state,
                                reasons, fingerprint);
      var admission := RecoveryAdmission(AdmissionDigest(body), body);
      recovery := recovery.(proposals := recovery.proposals[proposal.proposalId := proposal]);
      recovery := recovery.(admissions := recovery.admissions[proposal.proposalId := admission]);
      recovery := recovery.(admissionById := recovery.admissionById[admission.admissionId := admission]);
      return Accepted(admission);
    }

    // ----- terminal receipts ---------------------------------------------------------------

    /** Re-checks everything, then writes both receipt indexes and drops the lease. The caller may have changed
        ownership or attempts already, so the invariant only holds up to the packet being closed. */
    method PersistTerminal(packet: TaskPacket, lease: Lease, ending: Ending) returns (r: Outcome<TerminalReceipt>)
      requires InvClosing(Value(), work.receiptOf.Keys + {packet.packetId})
      modifies this`work, this`claims
      ensures (Value(), r) == StoreSpec.PersistTerminal(old(Value()), packet, lease, ending)
    {
      hide InvClosing, ValidateClaim, HasOpenStep, HoldsLease, ReceiptFor;
      if packet.packetId in work.receiptOf { return Rejected(DuplicateOrReplay); }
      var check := ValidateActiveClaim(packet, lease, false);
      NoMission(Value(), packet, lease);
      if !check.Accepted? { return check.Fail(); }
      var open := AnyOpenStep(packet.packetId, {packet.packetId});
      if open { return Rejected(UnsettledEffect); }
      var receipt := ReceiptFor(packet, lease, ending);
      WriteReceipt(receipt);
      return Accepted(receipt);
    }

    method WriteReceipt(receipt: TerminalReceipt)
      modifies this`work, this`claims
      ensures Value() == AddReceipt(old(Value()), receipt)
    {
      work := work.(receipts := work.receipts[receipt.receiptId := receipt]);
      work := work.(receiptOf := work.receiptOf[receipt.body.packetId := receipt]);
      claims := claims.(active := claims.active - {receipt.body.leaseId});
    }

    method TerminalizePreExecution(packet: TaskPacket, lease: Lease, code: FailureCode, detail: string)
      returns (r: Outcome<TerminalReceipt>)
      requires Valid()
      modifies this`work, this`claims
      ensures Valid()
      ensures (Value(), r) == StoreSpec.TerminalizePreExecution(old(Value()), packet, lease, code, detail)
    {
      hide InvClosing, ValidateClaim, HoldsLease, StoreSpec.PersistTerminal;
      PreExecutionKeepsInv(Value(), packet, lease, code, detail);
      if packet.packetId in work.started { return Rejected(DuplicateOrReplay); }
      NoMission(Value(), packet, lease);
      var check := ValidateActiveClaim(packet, lease, false);
      if !check.Accepted? { return check.Fail(); }
      StillClosing(Value(), packet.packetId);
      r := PersistTerminal(packet, lease, Ending(Blocked, None, NoEffect, PreExecutionDigest(code, detail), None, false,
                                                 Some((code, FromHarness))));
    }

    method RecordExecutionFailure(packet: TaskPacket, lease: Lease, code: FailureCode, detail: Digest,
                                  observed: Option<string>,
                                  origin: FailureOrigin) returns (r: Outcome<ExecutionFailure>)
      requires Valid()
      modifies this`work
      ensures Valid()
      ensures (Value(), r) == StoreSpec.RecordExecutionFailure(old(Value()), packet, lease, code, detail, observed,
                                                               origin)
    {
      hide Inv, ValidateClaim, HoldsLease, ExecutorCode, ReconcilableCode, Blank;
      FailureKeepsInv(Value(), packet, lease, code, detail, observed, origin);
      NoMission(Value(), packet, lease);
      var check := ValidateActiveClaim(packet, lease, false);
      if !check.Accepted? { return check.Fail(); }
      if packet.packetId !in work.started { return Rejected(StaleIdentity); }
      if packet.packetId in work.failures || packet.packetId in work.receiptOf { return Rejected(DuplicateOrReplay); }
      if detail.FreeText? && Blank(detail.text) { return Crashed; }
      if origin.FromExecutor? && !ExecutorCode(code) { return Rejected(InvalidFailureCode); }
      if origin.FromHarness? && !ReconcilableCode(code) { return Rejected(InvalidFailureCode); }
      var body := FailureBody(packet.packetId, lease.leaseId, code, detail, observed, origin);
      var failure := ExecutionFailure(FailureDigest(body), body);
      work := work.(failures := work.failures[packet.packetId := failure]);
      if observed.Some? && observed.value !in work.effectOwner {
        work := work.(effectOwner := work.effectOwner[observed.value := packet.packetId]);
      }
      return Accepted(failure);
    }

    method CheckFailure(packet: TaskPacket, lease: Lease, s: FailureReconciliation) returns (r: Outcome<()>)
      requires Valid()
      ensures r == FailureGuard(Value(), packet, lease, s)
    {
      hide InvClosing, ValidateClaim, HoldsLease, HasOpenStep;
      if packet.packetId !in work.failures || packet.packetId in work.receiptOf { return Rejected(DuplicateOrReplay); }
      var failure := work.failures[packet.packetId].body;
      NoMission(Value(), packet, lease);
      r := ValidateActiveClaim(packet, lease, false);
      if !r.Accepted? { return; }
      assert work.receiptOf.Keys + {} == work.receiptOf.Keys;
      var open := AnyOpenStep(packet.packetId, {});
      if open { return Rejected(UnsettledEffect); }
      if s.packetId != packet.packetId || s.leaseId != lease.leaseId || s.failureCode != failure.failureCode {
        return Rejected(StaleIdentity);
      }
      if s.effectState.Settled? {
        if failure.observedEffectId.Some? && s.effectId != failure.observedEffectId { return Rejected(StaleIdentity); }
        if s.effectId.value in work.effectOwner && work.effectOwner[s.effectId.value] != packet.packetId {
          return Rejected(DuplicateOrReplay);
        }
      }
      return Accepted(());
    }

    method ReconcileFailure(packet: TaskPacket, lease: Lease, s: FailureReconciliation)
      returns (r: Outcome<TerminalReceipt>)
      requires Valid()
      modifies this`work, this`claims
      ensures Valid()
      ensures (Value(), r) == StoreSpec.ReconcileFailure(old(Value()), packet, lease, s)
    {
      hide InvClosing, FailureGuard, StoreSpec.PersistTerminal;
      var check := CheckFailure(packet, lease, s);
      if !check.Accepted? { return check.Fail(); }
      ReconcileFailureKeepsInv(Value(), packet, lease, s);
      FailureClosing(Value(), packet, lease, s);
      var failure := work.failures[packet.packetId].body;
      if s.effectState.Settled? {
        work := work.(effectOwner := work.effectOwner[s.effectId.value := packet.packetId]);
      } else if failure.observedEffectId.Some?
        && Get(work.effectOwner, failure.observedEffectId.value) == Some(packet.packetId) {
        work := work.(effectOwner := work.effectOwner - {failure.observedEffectId.value});
      }
      r := PersistTerminal(packet, lease, Ending(Failed, s.effectId, s.effectState, s.outputDigest,
                                                 Some(s.proofDigest), false,
                                                 Some((failure.failureCode, failure.origin))));
    }

    method CheckResult(packet: TaskPacket, lease: Lease) returns (r: Outcome<()>)
      requires Valid()
      ensures r == ResultGuard(Value(), packet, lease)
    {
      hide InvClosing, ValidateClaim, HoldsLease, HasOpenStep;
      NoMission(Value(), packet, lease);
      r := ValidateActiveClaim(packet, lease, false);
      if !r.Accepted? { return; }
      assert work.receiptOf.Keys + {} == work.receiptOf.Keys;
      var open := AnyOpenStep(packet.packetId, {});
      if open { return Rejected(UnsettledEffect); }
      if packet.packetId !in work.started { return Rejected(StaleIdentity); }
      if packet.packetId in work.attempts { return Rejected(DuplicateOrReplay); }
      return Accepted(());
    }

    method RecordExecution(packet: TaskPacket, lease: Lease, result: ExecutionResult)
      returns (r: Outcome<TerminalReceipt>)
      requires Valid()
      modifies this`work, this`claims
      ensures Valid()
      ensures (Value(), r) == StoreSpec.RecordExecution(old(Value()), packet, lease, result)
    {
      hide InvClosing, ResultGuard, StoreSpec.PersistTerminal, StoreSpec.RecordExecutionFailure;
      ExecutionKeepsInv(Value(), packet, lease, result);
      var check := CheckResult(packet, lease);
      if !check.Accepted? { return check.Fail(); }
      if result.executorId != packet.body.executorId || result.packetId != packet.packetId
        || result.leaseId != lease.leaseId {
        r := FailThenReject(packet, lease, StaleIdentity, ResultMismatchDigest(packet.packetId, lease.leaseId),
                            result.effectId);
        return;
      }
      if result.effectId in work.effectOwner {
        r := FailThenReject(packet, lease, DuplicateOrReplay,
                            DuplicateEffectDigest(result.effectId, work.effectOwner[result.effectId]), result.effectId);
        return;
      }
      AttemptClosing(Value(), packet, lease, result);
      work := work.(attempts := work.attempts[packet.packetId := result]);
      work := work.(effectOwner := work.effectOwner[result.effectId := packet.packetId]);
      if !result.effectState.Settled? { return Rejected(UnsettledEffect); }
      r := PersistTerminal(packet, lease, Ending(Succeeded, Some(result.effectId), Settled, result.outputDigest,
                                                 Some(result.outputDigest), result.predicateSatisfied, None));
    }

    method FailThenReject(packet: TaskPacket, lease: Lease, code: FailureCode, detail: Digest, effectId: string)
      returns (r: Outcome<TerminalReceipt>)
      requires Valid()
      modifies this`work
      ensures Valid()
      ensures (Value(), r) == RecordThenReject(old(Value()), packet, lease, code, detail, effectId)
    {
      hide Inv, StoreSpec.RecordExecutionFailure;
      var recorded := RecordExecutionFailure(packet, lease, code, detail, Some(effectId), FromHarness);
      return if recorded.Accepted? then Rejected(code) else recorded.Fail();
    }

    method CheckEffect(packet: TaskPacket, lease: Lease, s: EffectReconciliation) returns (r: Outcome<()>)
      requires Valid()
      ensures r == EffectGuard(Value(), packet, lease, s)
    {
      hide InvClosing, ValidateClaim, HoldsLease, HasOpenStep;
      if packet.packetId !in work.attempts || !work.attempts[packet.packetId].effectState.Unsettled? {
        return Rejected(DuplicateOrReplay);
      }
      NoMission(Value(), packet, lease);
      r := ValidateActiveClaim(packet, lease, false);
      if !r.Accepted? { return; }
      assert work.receiptOf.Keys + {} == work.receiptOf.Keys;
      var open := AnyOpenStep(packet.packetId, {});
      if open { return Rejected(UnsettledEffect); }
      if s.packetId != packet.packetId || s.leaseId != lease.leaseId
        || s.effectId != work.attempts[packet.packetId].effectId {
        return Rejected(StaleIdentity);
      }
      if !s.effectState.Settled? { return Rejected(UnsettledEffect); }
      return Accepted(());
    }

    method ReconcileEffect(packet: TaskPacket, lease: Lease, s: EffectReconciliation)
      returns (r: Outcome<TerminalReceipt>)
      requires Valid()
      modifies this`work, this`claims
      ensures Valid()
      ensures (Value(), r) == StoreSpec.ReconcileEffect(old(Value()), packet, lease, s)
    {
      hide InvClosing, EffectGuard, StoreSpec.PersistTerminal;
      var check := CheckEffect(packet, lease, s);
      if !check.Accepted? { return check.Fail(); }
      ReconcileEffectKeepsInv(Value(), packet, lease, s);
      EffectClosing(Value(), packet, lease, s);
      var settled: ExecutionResult := work.attempts[packet.packetId].(effectState := Settled);
      work := work.(attempts := work.attempts[packet.packetId := settled]);
      r := PersistTerminal(packet, lease, Ending(Succeeded, Some(settled.effectId), Settled, settled.outputDigest,
                                                 Some(s.proofDigest), settled.predicateSatisfied, None));
    }

    // ----- continuations -------------------------------------------------------------------

    method PrepareContinuation(receipt: TerminalReceipt) returns (r: Outcome<Continuation>)
      requires Valid()
      modifies this`delivery
      ensures Valid()
      ensures (Value(), r) == StoreSpec.PrepareContinuation(old(Value()), receipt)
      ensures !r.Crashed?
    {
      hide Inv;
      PrepareKeepsInv(Value(), receipt);
      if Get(work.receipts, receipt.receiptId) != Some(receipt) { return Rejected(StaleIdentity); }
      DeliveryKeys(Value(), receipt.receiptId);
      if receipt.receiptId in delivery.continuationOf {
        var existing := delivery.continuations[delivery.continuationOf[receipt.receiptId]];
        match existing.state
        case Prepared => return Accepted(existing);
        case DeliveryUnsettled => return Rejected(CallbackDeliveryUnsettled);
        case _ => return Rejected(DuplicateOrReplay);
      }
      var c := NewContinuation(receipt.receiptId, claims.packets[receipt.body.packetId].body.destination);
      delivery := delivery.(continuations := delivery.continuations[c.continuationId := c]);
      delivery := delivery.(continuationOf := delivery.continuationOf[receipt.receiptId := c.continuationId]);
      return Accepted(c);
    }

    /** Accepts exactly what a delivery could be started for right now: then the continuation carries the receipt to
        the destination of the packet that the receipt closed. */
    method ValidatePreparedContinuation(c: Continuation, receipt: TerminalReceipt) returns (r: Outcome<()>)
      requires Valid()
      ensures r == ValidatePrepared(Value(), c, receipt)
      ensures r.Accepted? <==> StoreSpec.BeginDelivery(Value(), c, receipt).1.Accepted?
      ensures r.Accepted? ==> && receipt.body.packetId in claims.packets && receipt.body.packetId in work.receiptOf
                              && work.receiptOf[receipt.body.packetId] == receipt
                              && c == NewContinuation(receipt.receiptId,
                                                      claims.packets[receipt.body.packetId].body.destination)
    {
      hide Inv;
      if StoreSpec.BeginDelivery(Value(), c, receipt).1.Accepted? { PreparedFacts(Value(), c, receipt); }
      var current := Get(delivery.continuations, c.continuationId);
      if current.Some? && current.value.state == DeliveryUnsettled { return Rejected(CallbackDeliveryUnsettled); }
      if || current != Some(c) || c.state != Prepared || c.receiptId != receipt.receiptId
         || Get(work.receipts, receipt.receiptId) != Some(receipt) {
        return Rejected(ReplayIdentityConflict);
      }
      return Accepted(());
    }

    /** Accepts a resumed thread exactly when it is the one the current prepared continuation must go to, the
        destination of its receipt's packet. */
    method ValidateResume(c: Continuation, proof: ResumeProof) returns (r: Outcome<Continuation>)
      requires Valid()
      ensures r == StoreSpec.ValidateResume(Value(), c, proof)
      ensures r.Accepted? <==>
                && IsCurrent(Value(), c, Prepared) && !Blank(proof.resumeToken)
                && proof.continuationId == c.continuationId
                && c.receiptId in work.receipts
                && work.receipts[c.receiptId].body.packetId in claims.packets
                && proof.destination ==
                claims.packets[work.receipts[c.receiptId].body.packetId].body.destination
      ensures r.Accepted? ==> StoreSpec.BeginDelivery(Value(), c, work.receipts[c.receiptId]).1.Accepted?
    {
      hide Blank, Inv;
      if IsCurrent(Value(), c, Prepared) { StoredFacts(Value(), c); }
      if Get(delivery.continuations, c.continuationId) != Some(c) || c.state != Prepared {
        return Rejected(DuplicateOrReplay);
      }
      if proof.continuationId != c.continuationId || proof.destination != c.destination {
        return Rejected(CallbackTargetMismatch);
      }
      if Blank(proof.resumeToken) { return Crashed; }
      return Accepted(c);
    }

    method BeginDelivery(c: Continuation, receipt: TerminalReceipt) returns (r: Outcome<Continuation>)
      requires Valid()
      modifies this`delivery
      ensures Valid()
      ensures (Value(), r) == StoreSpec.BeginDelivery(old(Value()), c, receipt)
    {
      hide Inv;
      BeginDeliveryKeepsInv(Value(), c, receipt);
      if || Get(delivery.continuations, c.continuationId) != Some(c) || c.state != Prepared
        || c.receiptId != receipt.receiptId
         || Get(work.receipts, receipt.receiptId) != Some(receipt) {
        return Rejected(ReplayIdentityConflict);
      }
      var started := c.(state := DeliveryStarted);
      delivery := delivery.(continuations := delivery.continuations[c.continuationId := started]);
      return Accepted(started);
    }

    method MarkDeliveryUnsettled(c: Continuation, receipt: TerminalReceipt) returns (r: Outcome<Continuation>)
      requires Valid()
      modifies this`delivery
      ensures Valid()
      ensures (Value(), r) == StoreSpec.MarkDeliveryUnsettled(old(Value()), c, receipt)
    {
      hide Inv;
      BeginDeliveryKeepsInv(Value(), c, receipt);
      if Get(delivery.continuations, c.continuationId) != Some(c) || c.state != DeliveryStarted
        || c.receiptId != receipt.receiptId {
        return Rejected(ReplayIdentityConflict);
      }
      var unsettled := c.(state := DeliveryUnsettled);
      delivery := delivery.(continuations := delivery.continuations[c.continuationId := unsettled]);
      return Accepted(unsettled);
    }

    method AcknowledgeDelivery(c: Continuation, receipt: TerminalReceipt, proof: ConvergenceProof,
                               expected: ContinuationState)
      returns (r: Outcome<(Continuation, Acknowledgement)>)
      requires Valid() && expected != Acknowledged
      modifies this`delivery
      ensures Valid()
      ensures (Value(), r) == StoreSpec.AcknowledgeDelivery(old(Value()), c, receipt, proof, expected)
    {
      hide Inv, ConvergenceIdentity, Blank;
      AcknowledgeKeepsInv(Value(), c, receipt, proof, expected);
      if Get(delivery.continuations, c.continuationId) != Some(c) || c.state != expected {
        return Rejected(DuplicateOrReplay);
      }
      if || c.receiptId != receipt.receiptId || proof.body.continuationId != c.continuationId
         || proof.body.receiptId != receipt.receiptId || proof.body.destination != c.destination
         || proof.body.turnRequestId != c.turnRequestId {
        return Rejected(CallbackTargetMismatch);
      }
      if !proof.body.completed || Blank(proof.body.completedTurnId) { return Rejected(ConvergenceNotProven); }
      if !ConvergenceIdentity(proof) { return Rejected(ReplayIdentityConflict); }
      var ack := SealAck(AckBody(receipt.body.packetId, receipt.receiptId, c.continuationId, proof.proofId));
      var acknowledged := c.(state := Acknowledged);
      delivery := delivery.(continuations := delivery.continuations[c.continuationId := acknowledged]);
      delivery := delivery.(acks := delivery.acks[ack.ackId := ack]);
      delivery := delivery.(ackOf := delivery.ackOf[receipt.body.packetId := ack]);
      return Accepted((acknowledged, ack));
    }

    method ReconcileContinuation(receipt: TerminalReceipt, s: ContinuationReconciliation, proof: Option<DeliveryProof>)
      returns (r: Outcome<(Continuation, Option<Acknowledgement>)>)
      requires Valid()
      modifies this`delivery
      ensures Valid()
      ensures (Value(), r) == StoreSpec.ReconcileContinuation(old(Value()), receipt, s, proof)
    {
      hide InvClosing, ProvesAbsence, StoreSpec.AcknowledgeDelivery;
      ReconcileContinuationKeepsInv(Value(), receipt, s, proof);
      if || s.continuationId !in delivery.continuations
        || delivery.continuations[s.continuationId].state != DeliveryUnsettled
         || Get(work.receipts, receipt.receiptId) != Some(receipt) {
        return Rejected(DuplicateOrReplay);
      }
      var current := delivery.continuations[s.continuationId];
      if s.receiptId != receipt.receiptId || current.receiptId != receipt.receiptId
        || s.turnRequestId != current.turnRequestId {
        return Rejected(StaleIdentity);
      }
      if s.verdict.NotDelivered? {
        if !ProvesAbsence(current, receipt, s, proof) { return Rejected(ConvergenceNotProven); }
        var prepared := current.(state := Prepared);
        delivery := delivery.(continuations := delivery.continuations[current.continuationId := prepared]);
        return Accepted((prepared, None));
      }
      if proof.None? || !proof.value.OfConvergence? || s.proofDigest != CanonicalProof(proof.value) {
        return Rejected(ConvergenceNotProven);
      }
      var acked := AcknowledgeDelivery(current, receipt, proof.value.convergence, DeliveryUnsettled);
      return if acked.Accepted? then Accepted((acked.value.0, Some(acked.value.1))) else acked.Fail();
    }

    // ----- parent readback -----------------------------------------------------------------

    method VerifyMission(ack: Acknowledgement, readback: MissionReadback) returns (r: Outcome<MissionVerification>)
      requires Valid()
      modifies this`parent
      ensures Valid()
      ensures (Value(), r) == StoreSpec.VerifyMission(old(Value()), ack, readback)
    {
      hide Inv, AckIdentity, ReadbackIdentity, VerificationOf;
      VerifyKeepsInv(Value(), ack, readback);
      if Get(delivery.acks, ack.ackId) != Some(ack) { return Rejected(StaleIdentity); }
      if !AckIdentity(ack) || !ReadbackIdentity(readback) { return Rejected(ReplayIdentityConflict); }
      if ack.body.packetId !in claims.packets { return Crashed; }
      var packet := claims.packets[ack.body.packetId].body;
      if packet.missionId !in parent.missions { return Crashed; }
      var mission := parent.missions[packet.missionId];
      if || mission.revision != packet.missionRevision || readback.body.missionId != packet.missionId
         || readback.body.missionRevision != packet.missionRevision {
        return Rejected(StaleIdentity);
      }
      if ReadKeys(readback.body.predicates) != Keys(mission.predicates) { return Rejected(StaleIdentity); }
      var key := (mission.missionId, mission.revision);
      if key in parent.snapshots {
        var previous := parent.snapshots[key];
        if readback.body.parentSequence < previous.body.parentSequence { return Rejected(StaleIdentity); }
        if readback.body.parentSequence == previous.body.parentSequence && previous != readback {
          return Rejected(ReplayIdentityConflict);
        }
      }
      var current := FindReadback(readback.body.predicates, packet.predicateKey);
      if current.None? { return Crashed; }
      var v := VerificationOf(packet, mission, current.value.truth, ack, readback);
      if v.verificationId in parent.verifications { return Accepted(parent.verifications[v.verificationId]); }
      parent := parent.(snapshots := parent.snapshots[key := readback]);
      parent := parent.(verifications := parent.verifications[v.verificationId := v]);
      return Accepted(v);
    }

    /** One atomic call, as other holders of the store make it. */
    method Perform(call: Call) returns (verdict: Verdict)
      requires Valid()
      modifies this
      ensures Valid()
      ensures (Value(), verdict) == Apply(old(Value()), call)
    {
      hide Inv, StoreSpec.RegisterMission, StoreSpec.RecordRouteDisposition, StoreSpec.RecordMissionSupersession,
           StoreSpec.Claim,
           StoreSpec.BeginExecution, StoreSpec.RecordStepAttempt, StoreSpec.ReconcileStepEffect,
           StoreSpec.RecordBlocker,
           StoreSpec.AdmitRecovery, StoreSpec.TerminalizePreExecution, StoreSpec.RecordExecutionFailure,
           StoreSpec.ReconcileFailure, StoreSpec.RecordExecution, StoreSpec.ReconcileEffect,
           StoreSpec.PrepareContinuation,
           StoreSpec.BeginDelivery, StoreSpec.MarkDeliveryUnsettled, StoreSpec.AcknowledgeDelivery,
           StoreSpec.ReconcileContinuation, StoreSpec.VerifyMission;
      match call {
        case RegisterMissionCall(m) => var r := RegisterMission(m); return VerdictOf(r);
        case DispositionCall(d) => var r := RecordRouteDisposition(d); return VerdictOf(r);
        case SupersessionCall(d) => var r := RecordMissionSupersession(d); return VerdictOf(r);
        case ClaimCall(p) => var r := Claim(p); return VerdictOf(r);
        case BeginCall(p, l) => var r := BeginExecution(p, l); return VerdictOf(r);
        case StepCall(p, l, step) => var r := RecordStepAttempt(p, l, step); return VerdictOf(r);
        case ReconcileStepCall(p, l, s) => var r := ReconcileStepEffect(p, l, s); return VerdictOf(r);
        case BlockerCall(p, l, b) => var r := RecordBlocker(p, l, b); return VerdictOf(r);
        case AdmitCall(p, l, b, proposal) => var r := AdmitRecovery(p, l, b, proposal); return VerdictOf(r);
        case PreExecutionCall(p, l, code, detail) =>
          var r := TerminalizePreExecution(p, l, code, detail); return VerdictOf(r);
        case FailureCall(p, l, code, detail, observed, origin) =>
          var r := RecordExecutionFailure(p, l, code, detail, observed, origin);
          return VerdictOf(r);
        case ReconcileFailureCall(p, l, s) => var r := ReconcileFailure(p, l, s); return VerdictOf(r);
        case ResultCall(p, l, result) => var r := RecordExecution(p, l, result); return VerdictOf(r);
        case ReconcileEffectCall(p, l, s) => var r := ReconcileEffect(p, l, s); return VerdictOf(r);
        case PrepareCall(receipt) => var r := PrepareContinuation(receipt); return VerdictOf(r);
        case BeginDeliveryCall(c, receipt) => var r := BeginDelivery(c, receipt); return VerdictOf(r);
        case MarkUnsettledCall(c, receipt) => var r := MarkDeliveryUnsettled(c, receipt); return VerdictOf(r);
        case AcknowledgeCall(c, receipt, proof) =>
          var r := AcknowledgeDelivery(c, receipt, proof, DeliveryStarted);
          return VerdictOf(r);
        case ReconcileContinuationCall(receipt, s, proof) =>
          var r := ReconcileContinuation(receipt, s, proof); return VerdictOf(r);
        case VerifyCall(ack, readback) => var r := VerifyMission(ack, readback); return VerdictOf(r);
      }
    }
  }

  method Noted(reasons: seq<Reason>, condition: bool, reason: Reason) returns (r: seq<Reason>)
    ensures r == reasons + When(condition, reason)
  {
    if condition { return reasons + [reason]; }
    return reasons;
  }

  /** The reasons so far: exactly those among the first `n` whose condition holds, in order and without repetition. */
  ghost predicate Listed(reasons: seq<Reason>, n: nat, packet: PacketBody, b: BlockerBody, p: ProposalBody,
                         open: bool, consumed: int) {
    && (forall reason :: reason in reasons <==> Position(reason) < n && Holds(reason, packet, b, p, open, consumed))
    && forall i, j :: 0 <= i < j < |reasons| ==> Position(reasons[i]) < Position(reasons[j])
  }

  lemma NextListed(reasons: seq<Reason>, next: Reason, packet: PacketBody, b: BlockerBody, p: ProposalBody,
                   open: bool, consumed: int)
    requires Listed(reasons, Position(next), packet, b, p, open, consumed)
    ensures Listed(reasons + When(Holds(next, packet, b, p, open, consumed), next), Position(next) + 1, packet, b, p,
                   open, consumed)
  {
    hide Holds;
    assert forall reason :: Position(reason) == Position(next) ==> reason == next;
    assert forall i :: 0 <= i < |reasons| ==> reasons[i] in reasons;
  }

  /** The first six checks. */
  function AuthorityReasons(packet: PacketBody, b: BlockerBody, p: ProposalBody, open: bool): seq<Reason> {
    When(ScopeExpands(packet, p), ScopeExpansion)
    + When(p.authorityDelta != 0, AuthorityExpansion)
    + When(b.retrySafety != SafeLocal, RetryNotSafeLocal)
    + When(b.blockerClass != Diagnostic && b.blockerClass != PlanGap, BlockerRequiresParentAuthority)
    + When(b.effectState.Unsettled? || open, StepEffectUnsettled)
    + When(p.verificationPlan == [], VerificationPlanRequired)
  }

  lemma AuthorityReasonsListed(packet: PacketBody, b: BlockerBody, p: ProposalBody, open: bool, consumed: int)
    ensures Listed(AuthorityReasons(packet, b, p, open), 6, packet, b, p, open, consumed)
  {
    hide ScopeExpands, HasProtectedEffect, When, Listed;
    NoneListed(packet, b, p, open, consumed);
    NextListed([], ScopeExpansion, packet, b, p, open, consumed);
    var r1 := [] + When(ScopeExpands(packet, p), ScopeExpansion);
    NextListed(r1, AuthorityExpansion, packet, b, p, open, consumed);
    var r2 := r1 + When(p.authorityDelta != 0, AuthorityExpansion);
    NextListed(r2, RetryNotSafeLocal, packet, b, p, open, consumed);
    var r3 := r2 + When(b.retrySafety != SafeLocal, RetryNotSafeLocal);
    NextListed(r3, BlockerRequiresParentAuthority, packet, b, p, open, consumed);
    var r4 := r3 + When(b.blockerClass != Diagnostic && b.blockerClass != PlanGap, BlockerRequiresParentAuthority);
    NextListed(r4, StepEffectUnsettled, packet, b, p, open, consumed);
    var r5 := r4 + When(b.effectState.Unsettled? || open, StepEffectUnsettled);
    NextListed(r5, VerificationPlanRequired, packet, b, p, open, consumed);
    var r6 := r5 + When(p.verificationPlan == [], VerificationPlanRequired);
    assert r1 == When(ScopeExpands(packet, p), ScopeExpansion);
  }

  lemma ReasonsListed(packet: PacketBody, b: BlockerBody, p: ProposalBody, open: bool, consumed: int)
    ensures Listed(ReasonsFor(packet, b, p, open, consumed), 12, packet, b, p, open, consumed)
  {
    hide ScopeExpands, HasProtectedEffect, When, Listed;
    AuthorityReasonsListed(packet, b, p, open, consumed);
    var r6 := AuthorityReasons(packet, b, p, open);
    NextListed(r6, ActionGraphRequired, packet, b, p, open, consumed);
    var r7 := r6 + When(p.actionGraph == [], ActionGraphRequired);
    NextListed(r7, NewProtectedEffect, packet, b, p, open, consumed);
    var r8 := r7 + When(HasProtectedEffect(p), NewProtectedEffect);
    NextListed(r8, PredicateMismatch, packet, b, p, open, consumed);
    var r9 := r8 + When(p.predicateKey != packet.predicateKey, PredicateMismatch);
    NextListed(r9, ExpectedDeltaMismatch, packet, b, p, open, consumed);
    var r10 := r9 + When(p.expectedDelta != packet.expectedDelta, ExpectedDeltaMismatch);
    NextListed(r10, DestinationMismatch, packet, b, p, open, consumed);
    var r11 := r10 + When(p.destination != packet.destination, DestinationMismatch);
    NextListed(r11, RecoveryBudgetExhausted, packet, b, p, open, consumed);
    var r12 := r11 + When(p.budget <= 0 || consumed + p.budget > packet.recoveryBudget, RecoveryBudgetExhausted);
  }

  lemma NoneListed(packet: PacketBody, b: BlockerBody, p: ProposalBody, open: bool, consumed: int)
    ensures Listed([], 0, packet, b, p, open, consumed)
  {
  }

  method ListAuthorityReasons(packet: PacketBody, b: BlockerBody, p: ProposalBody, open: bool)
    returns (reasons: seq<Reason>)
    ensures reasons == AuthorityReasons(packet, b, p, open)
  {
    hide ScopeExpands, When;
    reasons := Noted([], ScopeExpands(packet, p), ScopeExpansion);
    assert reasons == When(ScopeExpands(packet, p), ScopeExpansion);
    reasons := Noted(reasons, p.authorityDelta != 0, AuthorityExpansion);
    reasons := Noted(reasons, b.retrySafety != SafeLocal, RetryNotSafeLocal);
    reasons := Noted(reasons, b.blockerClass != Diagnostic && b.blockerClass != PlanGap,
                     BlockerRequiresParentAuthority);
    reasons := Noted(reasons, b.effectState.Unsettled? || open, StepEffectUnsettled);
    reasons := Noted(reasons, p.verificationPlan == [], VerificationPlanRequired);
  }

  /** The reasons are collected one check after another: exactly those whose condition holds, each once and in the
      source's order, and none exactly when the proposal is within the packet's authority and budget. */
  method ListReasons(packet: PacketBody, b: BlockerBody, p: ProposalBody, open: bool, consumed: int)
    returns (reasons: seq<Reason>)
    ensures reasons == ReasonsFor(packet, b, p, open, consumed)
    ensures Listed(reasons, 12, packet, b, p, open, consumed)
    ensures reasons == [] <==> Admissible(packet, b, p, open, consumed)
  {
    ReasonsListed(packet, b, p, open, consumed);
    NoneMeansAdmissible(packet, b, p, open, consumed);
    hide ScopeExpands, HasProtectedEffect, When, Listed, Admissible;
    reasons := ListAuthorityReasons(packet, b, p, open);
    reasons := Noted(reasons, p.actionGraph == [], ActionGraphRequired);
    reasons := Noted(reasons, HasProtectedEffect(p), NewProtectedEffect);
    reasons := Noted(reasons, p.predicateKey != packet.predicateKey, PredicateMismatch);
    reasons := Noted(reasons, p.expectedDelta != packet.expectedDelta, ExpectedDeltaMismatch);
    reasons := Noted(reasons, p.destination != packet.destination, DestinationMismatch);
    reasons := Noted(reasons, p.budget <= 0 || consumed + p.budget > packet.recoveryBudget, RecoveryBudgetExhausted);
  }

  lemma StoredFacts(s: Store, c: Continuation)
    requires Inv(s) && c.continuationId in s.delivery.continuations && s.delivery.continuations[c.continuationId] == c
    ensures c.receiptId in s.work.receipts && s.work.receipts[c.receiptId].receiptId == c.receiptId
    ensures var p := s.work.receipts[c.receiptId].body.packetId;
            && p in s.claims.packets && p in s.work.receiptOf && s.work.receiptOf[p] == s.work.receipts[c.receiptId]
            && c.(state := Prepared) == NewContinuation(c.receiptId, s.claims.packets[p].body.destination)
  {
    hide LeaseInv, StepInv, RecoveryInv, RecoveryStepsAdmitted, MissionInv, AcksMatch, SettledOwned, PendingOwned,
         StartedOnly, ReceiptBinds;
    assert ContinuationBinds(c, s.work.receipts, s.claims.packets);
  }

  lemma PreparedFacts(s: Store, c: Continuation, receipt: TerminalReceipt)
    requires Inv(s) && BeginDelivery(s, c, receipt).1.Accepted?
    ensures receipt.body.packetId in s.claims.packets && receipt.body.packetId in s.work.receiptOf
    ensures s.work.receiptOf[receipt.body.packetId] == receipt
    ensures c == NewContinuation(receipt.receiptId, s.claims.packets[receipt.body.packetId].body.destination)
  {
    hide Inv, NewContinuation;
    StoredFacts(s, c);
  }

  /** Everything that makes a recovery proposal admissible, apart from its fingerprint. */
  ghost predicate Admissible(packet: PacketBody, b: BlockerBody, p: ProposalBody, open: bool, consumed: int) {
    && WithinAuthority(packet, p) && p.authorityDelta == 0 && consumed + p.budget <= packet.recoveryBudget
    && p.actionGraph != [] && p.verificationPlan != []
    && b.retrySafety == SafeLocal && (b.blockerClass == Diagnostic || b.blockerClass == PlanGap)
    && !b.effectState.Unsettled? && !open
  }

  /** The condition that a reason names. */
  predicate Holds(reason: Reason, packet: PacketBody, b: BlockerBody, p: ProposalBody, open: bool, consumed: int) {
    match reason
    case ScopeExpansion => ScopeExpands(packet, p)
    case AuthorityExpansion => p.authorityDelta != 0
    case RetryNotSafeLocal => b.retrySafety != SafeLocal
    case BlockerRequiresParentAuthority => b.blockerClass != Diagnostic && b.blockerClass != PlanGap
    case StepEffectUnsettled => b.effectState.Unsettled? || open
    case VerificationPlanRequired => p.verificationPlan == []
    case ActionGraphRequired => p.actionGraph == []
    case NewProtectedEffect => HasProtectedEffect(p)
    case PredicateMismatch => p.predicateKey != packet.predicateKey
    case ExpectedDeltaMismatch => p.expectedDelta != packet.expectedDelta
    case DestinationMismatch => p.destination != packet.destination
    case RecoveryBudgetExhausted => p.budget <= 0 || consumed + p.budget > packet.recoveryBudget
    case DuplicateFingerprint => false
  }

  function Position(reason: Reason): nat {
    match reason
    case ScopeExpansion => 0
    case AuthorityExpansion => 1
    case RetryNotSafeLocal => 2
    case BlockerRequiresParentAuthority => 3
    case StepEffectUnsettled => 4
    case VerificationPlanRequired => 5
    case ActionGraphRequired => 6
    case NewProtectedEffect => 7
    case PredicateMismatch => 8
    case ExpectedDeltaMismatch => 9
    case DestinationMismatch => 10
    case RecoveryBudgetExhausted => 11
    case DuplicateFingerprint => 12
  }

  lemma AdmissibleMeans(packet: PacketBody, b: BlockerBody, p: ProposalBody, open: bool, consumed: int)
    ensures Admissible(packet, b, p, open, consumed) <==> forall reason :: !Holds(reason, packet, b, p, open, consumed)
  {
    hide ScopeExpands;
    InScopeMeans(packet, p);
    if forall reason :: !Holds(reason, packet, b, p, open, consumed) {
      assert forall reason :: Position(reason) <= 12 ==> !Holds(reason, packet, b, p, open, consumed);
      assert !Holds(ScopeExpansion, packet, b, p, open, consumed)
        && !Holds(AuthorityExpansion, packet, b, p, open, consumed)
             && !Holds(RetryNotSafeLocal, packet, b, p, open, consumed)
             && !Holds(BlockerRequiresParentAuthority, packet, b, p, open, consumed)
             && !Holds(StepEffectUnsettled, packet, b, p, open, consumed)
             && !Holds(VerificationPlanRequired, packet, b, p, open, consumed)
             && !Holds(ActionGraphRequired, packet, b, p, open, consumed)
             && !Holds(NewProtectedEffect, packet, b, p, open, consumed)
             && !Holds(PredicateMismatch, packet, b, p, open, consumed)
             && !Holds(ExpectedDeltaMismatch, packet, b, p, open, consumed)
             && !Holds(DestinationMismatch, packet, b, p, open, consumed)
             && !Holds(RecoveryBudgetExhausted, packet, b, p, open, consumed);
    }
  }

  lemma NoneMeansAdmissible(packet: PacketBody, b: BlockerBody, p: ProposalBody, open: bool, consumed: int)
    ensures ReasonsFor(packet, b, p, open, consumed) == [] <==> Admissible(packet, b, p, open, consumed)
  {
    ReasonsListed(packet, b, p, open, consumed);
    AdmissibleMeans(packet, b, p, open, consumed);
    hide ReasonsFor, Holds, Admissible;
    var reasons := ReasonsFor(packet, b, p, open, consumed);
    if reasons != [] { assert reasons[0] in reasons; }
    assert forall reason :: Holds(reason, packet, b, p, open, consumed) ==>
      Position(reason) < 12 by { AllPlaced(packet, b, p, open, consumed); }
  }

  lemma AllPlaced(packet: PacketBody, b: BlockerBody, p: ProposalBody, open: bool, consumed: int)
    ensures forall reason :: Holds(reason, packet, b, p, open, consumed) ==> Position(reason) < 12
  {
    hide ScopeExpands, HasProtectedEffect;
  }

  lemma ListedSteps(s: Store, terminal: set<Digest>, p: Digest)
    requires InvClosing(s, terminal)
    ensures var ids := GetOr(s.trail.stepsOf, p, []);
            forall i :: 0 <= i < |ids| ==> ids[i] in s.trail.steps && s.trail.steps[ids[i]].stepId == ids[i]
  {
    hide LeaseInv, EffectInv, RecoveryInv, RecoveryStepsAdmitted, DeliveryInv, MissionInv, Closed, StepEffectsOwned,
         RecoveryOrdered, StepIdentity;
  }

  lemma NoMission(s: Store, packet: TaskPacket, lease: Lease)
    ensures ValidateClaim(s, packet, lease, false) == if HoldsLease(s, packet, lease) then Accepted(())
            else Rejected(StaleIdentity)
  {
    hide HoldsLease;
  }

  /** What a later terminal write may rely on while one packet is being closed. */
  lemma StillClosing(s: Store, packetId: Digest)
    requires Inv(s)
    ensures InvClosing(s, s.work.receiptOf.Keys + {packetId})
  {
    hide LeaseInv, ReceiptsBindPackets, SettledOwned, StartedOnly, StepInv, RecoveryInv, RecoveryStepsAdmitted,
         DeliveryInv, MissionInv;
  }

  lemma FailureClosing(s: Store, packet: TaskPacket, lease: Lease, r: FailureReconciliation)
    requires Inv(s) && FailureGuard(s, packet, lease, r).Accepted?
    ensures packet.packetId in s.work.failures
    ensures var owners := OwnersAfterFailure(s.work.effectOwner, packet.packetId,
                                             s.work.failures[packet.packetId].body.observedEffectId, r);
            InvClosing(s.(work := s.work.(effectOwner := owners)), s.work.receiptOf.Keys + {packet.packetId})
  {
    hide LeaseInv, EffectInv, StepInv, RecoveryInv, RecoveryStepsAdmitted, DeliveryInv, MissionInv, HasOpenStep,
         HoldsLease, OwnersAfterFailure;
    OwnersAfterFailureKeep(s.work, s.claims.packets, s.claims.leases, packet.packetId,
                           s.work.failures[packet.packetId].body.observedEffectId, r);
  }

  lemma AttemptClosing(s: Store, packet: TaskPacket, lease: Lease, result: ExecutionResult)
    requires Inv(s) && ResultGuard(s, packet, lease).Accepted?
    requires ResultMatches(packet, lease, result) && result.effectId !in s.work.effectOwner
    ensures InvClosing(s.(work := AddAttempt(s.work, packet.packetId, result)),
                       s.work.receiptOf.Keys + {packet.packetId})
  {
    hide LeaseInv, EffectInv, StepInv, RecoveryInv, RecoveryStepsAdmitted, DeliveryInv, MissionInv, HasOpenStep,
         HoldsLease;
    AddAttemptKeeps(s.work, s.claims.packets, s.claims.leases, packet.packetId, result);
  }

  lemma EffectClosing(s: Store, packet: TaskPacket, lease: Lease, r: EffectReconciliation)
    requires Inv(s) && EffectGuard(s, packet, lease, r).Accepted?
    ensures packet.packetId in s.work.attempts
    ensures var settled: ExecutionResult := s.work.attempts[packet.packetId].(effectState := Settled);
            InvClosing(s.(work := s.work.(attempts := s.work.attempts[packet.packetId := settled])),
                       s.work.receiptOf.Keys + {packet.packetId})
  {
    hide LeaseInv, EffectInv, StepInv, RecoveryInv, RecoveryStepsAdmitted, DeliveryInv, MissionInv, HasOpenStep,
         HoldsLease;
    HoldsLeaseFacts(s, packet, lease);
    var settled: ExecutionResult := s.work.attempts[packet.packetId].(effectState := Settled);
    SettleAttemptKeeps(s.work, s.claims.packets, s.claims.leases, packet.packetId, settled);
  }

  lemma DeliveryKeys(s: Store, receiptId: Digest)
    requires Inv(s) && receiptId in s.work.receipts
    ensures s.work.receipts[receiptId].body.packetId in s.claims.packets
    ensures receiptId in s.delivery.continuationOf ==> s.delivery.continuationOf[receiptId] in s.delivery.continuations
  {
    hide LeaseInv, SettledOwned, PendingOwned, StartedOnly, StepInv, RecoveryInv, RecoveryStepsAdmitted, MissionInv,
         AcksMatch;
  }
}
