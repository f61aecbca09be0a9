/** What the store's other records say: blockers, admissions, dispositions, supersessions and verifications. */
module StoreRecords {
  import opened Records
  import opened StoreSpec
  import opened StoreInvariant
  import opened StorePreservation
  import opened StoreRuns
  import opened StoreTheorems
  import opened ReferenceStore

  // ----- packets -------------------------------------------------------------------------------

  ghost predicate OnRoute(mission: Mission, p: PacketBody, route: Route) {
    && route in mission.routes && route.routeId == p.routeId && route.predicateKey == p.predicateKey
    && route.executorId == p.executorId && route.scope == p.scope && route.expectedDelta == p.expectedDelta
    && route.abandonIf == p.abandonIf && route.recoveryBudget == p.recoveryBudget
  }

  /** A packet is valid exactly when it has its own identity, belongs to the current revision of its mission, is for
      the first open predicate, and repeats one of the mission's routes that was not disposed of. */
  lemma ValidExactly(s: Store, packet: TaskPacket)
    ensures ValidatePacket(s, packet).Accepted? <==>
            && packet.packetId == PacketDigest(packet.body) && packet.body.missionId in s.parent.missions
            && var mission := s.parent.missions[packet.body.missionId];
            && mission.revision == packet.body.missionRevision && mission.mode == packet.body.missionMode
            && mission.destination == packet.body.destination
            && (exists i: nat :: OpenFirst(s.parent.snapshots, mission, i)
                                 && mission.predicates[i].key == packet.body.predicateKey)
            && (mission.missionId, mission.revision, packet.body.routeId) !in s.parent.dispositions
            && exists route :: OnRoute(mission, packet.body, route)
  {
    if CurrentMission(s.parent.missions, packet.body) {
      var mission := s.parent.missions[packet.body.missionId];
      FirstFalseScans(s.parent.snapshots, mission);
      RouteExactly(mission, packet.body);
      hide FirstFalse, OpenFirst, RouteMatches, FindRoute, OnRoute;
      var first := FirstFalse(s.parent.snapshots, mission);
      forall i: nat | OpenFirst(s.parent.snapshots, mission, i) ensures first == Accepted(Some(mission.predicates[i])) {
        OpenWithin(s.parent.snapshots, mission, i);
      }
    }
  }

  lemma OpenWithin(snapshots: map<(string, int), MissionReadback>, mission: Mission, i: nat)
    requires OpenFirst(snapshots, mission, i)
    ensures i < |mission.predicates|
  {
  }

  lemma RouteExactly(mission: Mission, p: PacketBody)
    ensures RouteMatches(mission, p) <==>
            mission.mode == p.missionMode && mission.destination == p.destination
              && exists route :: OnRoute(mission, p, route)
    ensures RouteMatches(mission, p) ==> FindRoute(mission.routes, p.routeId).Some?
  {
    var found := FindRoute(mission.routes, p.routeId);
    if found.Some? && RouteMatches(mission, p) { assert OnRoute(mission, p, found.value); }
    forall route | OnRoute(mission, p, route) ensures found == Some(route) {
      var i :| 0 <= i < |mission.routes| && mission.routes[i] == route;
      var j :| 0 <= j < |mission.routes| && mission.routes[j] == found.value;
    }
  }

  // ----- recovery ------------------------------------------------------------------------------

  ghost predicate BlockerRecorded(b: BlockerReport, claims: ClaimTable, trail: StepTable) {
    && BlockerIdentity(b) && b.body.packetId in claims.packets && b.body.packetId in claims.leases
    && b.body.missionId == claims.packets[b.body.packetId].body.missionId
    && b.body.missionRevision == claims.packets[b.body.packetId].body.missionRevision
    && b.body.leaseId == claims.leases[b.body.packetId].leaseId
    && match b.body.stepId
       case None => b.body.effectState.NoEffect?
       case Some(id) =>
         && id in trail.steps && trail.steps[id].body.packetId == b.body.packetId
         && b.body.observedEffectIds == (match trail.steps[id].body.effectId case None => [] case Some(e) => [e])
         && (|| b.body.effectState == trail.steps[id].body.effectState
             || (id in trail.stepReconciliations && b.body.effectState ==
                 trail.stepReconciliations[id].body.effectState))
  }

  /** The judgement of a proposal names its blocker, packet and lease, and its fingerprint is that of the blocker, the
      blocked state and the action graph. */
  ghost predicate AdmissionRecorded(t: RecoveryTable, k: Digest)
    requires k in t.admissions
  {
    && k in t.proposals && t.admissions[k].body.blockerId in t.blockers
    && var a, p, b := t.admissions[k].body, t.proposals[k].body, t.blockers[t.admissions[k].body.blockerId];
    && a.blockerId == p.blockerId && a.packetId == p.packetId && a.leaseId == p.leaseId
    && a.recoveryFingerprint == FingerprintDigest(a.blockerId, b.body.stateDigest, ActionGraphDigest(p.actionGraph))
    && t.admissions[k].admissionId == AdmissionDigest(a) && a.proposalId == k
    && Get(t.admissionById, t.admissions[k].admissionId) == Some(t.admissions[k])
  }

  ghost predicate FingerprintAdmitted(t: RecoveryTable, f: Digest) {
    exists k :: k in t.admissions && t.admissions[k].body.state == Admitted
      && t.admissions[k].body.recoveryFingerprint == f
  }

  ghost predicate RecoveryRecorded(t: RecoveryTable, claims: ClaimTable, trail: StepTable) {
    && (forall b :: b in t.blockers ==> t.blockers[b].blockerId == b && BlockerRecorded(t.blockers[b], claims, trail))
    && (forall k :: k in t.admissions ==> AdmissionRecorded(t, k))
    && (forall f :: f in t.fingerprints ==> FingerprintAdmitted(t, f))
  }

  lemma BlockerStays(b: BlockerReport, claims: ClaimTable, trail: StepTable, claims': ClaimTable, trail': StepTable)
    requires BlockerRecorded(b, claims, trail)
    requires Extends(claims.packets, claims'.packets) && Extends(claims.leases, claims'.leases)
    requires Extends(trail.steps, trail'.steps) && Extends(trail.stepReconciliations, trail'.stepReconciliations)
    ensures BlockerRecorded(b, claims', trail')
  {
    hide BlockerIdentity;
  }

  lemma RecoveryStays(s: Store, s': Store)
    requires RecoveryRecorded(s.recovery, s.claims, s.trail) && Since(s, s') && s'.recovery == s.recovery
    ensures RecoveryRecorded(s'.recovery, s'.claims, s'.trail)
  {
    hide BlockerRecorded, AdmissionRecorded, FingerprintAdmitted, Extends, WorkSince, ParentSince, DeliverySince;
    forall b | b in s.recovery.blockers ensures BlockerRecorded(s.recovery.blockers[b], s'.claims, s'.trail) {
      BlockerStays(s.recovery.blockers[b], s.claims, s.trail, s'.claims, s'.trail);
    }
  }

  lemma BlockerCallRecorded(s: Store, packet: TaskPacket, lease: Lease, blocker: BlockerReport)
    requires RecoveryRecorded(s.recovery, s.claims, s.trail)
    ensures RecoveryRecorded(RecordBlocker(s, packet, lease, blocker).0.recovery, s.claims, s.trail)
  {
    hide BlockerRecorded, BlockerGuard;
    var r := RecordBlocker(s, packet, lease, blocker);
    if r.1.Accepted? && blocker.blockerId !in s.recovery.blockers {
      BlockerRecords(s, packet, lease, blocker);
      var t := r.0.recovery;
      forall k | k in t.admissions ensures AdmissionRecorded(t, k) { assert AdmissionRecorded(s.recovery, k); }
      forall f | f in t.fingerprints ensures FingerprintAdmitted(t, f) { assert FingerprintAdmitted(s.recovery, f); }
    }
  }

  lemma BlockerRecords(s: Store, packet: TaskPacket, lease: Lease, blocker: BlockerReport)
    requires BlockerGuard(s, packet, lease, blocker).Accepted?
    ensures BlockerRecorded(blocker, s.claims, s.trail)
  {
    hide ValidatePacket, BlockerIdentity;
  }

  lemma AddAdmissionRecorded(t: RecoveryTable, proposal: RecoveryProposal, a: RecoveryAdmission)
    requires forall k :: k in t.admissions ==> AdmissionRecorded(t, k)
    requires forall f :: f in t.fingerprints ==> FingerprintAdmitted(t, f)
    requires proposal.proposalId !in t.admissions && a.body.blockerId in t.blockers
             && a.body.blockerId == proposal.body.blockerId
    requires a.body.packetId == proposal.body.packetId && a.body.leaseId == proposal.body.leaseId
    requires a.admissionId == AdmissionDigest(a.body) && a.body.proposalId == proposal.proposalId
    requires a.body.recoveryFingerprint ==
             FingerprintDigest(a.body.blockerId, t.blockers[a.body.blockerId].body.stateDigest,
                               ActionGraphDigest(proposal.body.actionGraph))
    ensures var t' := AddAdmission(t, proposal, a);
            && (forall k :: k in t'.admissions ==> AdmissionRecorded(t', k))
            && (forall f :: f in t'.fingerprints ==> FingerprintAdmitted(t', f))
  {
    hide FingerprintAdmitted, AdmissionRecorded, AddAdmission;
    var t' := AddAdmission(t, proposal, a);
    assert t'.admissions == t.admissions[proposal.proposalId := a] by { AdmissionAdded(t, proposal, a); }
    forall f | f in t'.fingerprints ensures FingerprintAdmitted(t', f) { FingerprintsAdmitted(t, proposal, a, f); }
    forall k | k in t'.admissions ensures AdmissionRecorded(t', k) {
      if k == proposal.proposalId { NewAdmission(t, proposal, a); } else { OldAdmission(t, proposal, a, k); }
    }
  }

  lemma AdmissionAdded(t: RecoveryTable, proposal: RecoveryProposal, a: RecoveryAdmission)
    ensures AddAdmission(t, proposal, a).admissions == t.admissions[proposal.proposalId := a]
  {
  }

  lemma NewAdmission(t: RecoveryTable, proposal: RecoveryProposal, a: RecoveryAdmission)
    requires a.body.blockerId in t.blockers && a.body.blockerId == proposal.body.blockerId
    requires a.body.packetId == proposal.body.packetId && a.body.leaseId == proposal.body.leaseId
    requires a.admissionId == AdmissionDigest(a.body) && a.body.proposalId == proposal.proposalId
    requires a.body.recoveryFingerprint ==
             FingerprintDigest(a.body.blockerId, t.blockers[a.body.blockerId].body.stateDigest,
                               ActionGraphDigest(proposal.body.actionGraph))
    ensures proposal.proposalId in AddAdmission(t, proposal, a).admissions
    ensures AdmissionRecorded(AddAdmission(t, proposal, a), proposal.proposalId)
  {
  }

  lemma OldAdmission(t: RecoveryTable, proposal: RecoveryProposal, a: RecoveryAdmission, k: Digest)
    requires k in t.admissions && k != proposal.proposalId && AdmissionRecorded(t, k)
    requires a.admissionId == AdmissionDigest(a.body) && a.body.proposalId == proposal.proposalId
    ensures k in AddAdmission(t, proposal, a).admissions && AdmissionRecorded(AddAdmission(t, proposal, a), k)
  {
  }

  lemma FingerprintsAdmitted(t: RecoveryTable, proposal: RecoveryProposal, a: RecoveryAdmission, f: Digest)
    requires proposal.proposalId !in t.admissions && (f in t.fingerprints ==> FingerprintAdmitted(t, f))
    ensures f in AddAdmission(t, proposal, a).fingerprints ==> FingerprintAdmitted(AddAdmission(t, proposal, a), f)
  {
    var t' := AddAdmission(t, proposal, a);
    if f in t.fingerprints {
      var k :| k in t.admissions && t.admissions[k].body.state == Admitted
        && t.admissions[k].body.recoveryFingerprint == f;
      assert t'.admissions[k].body.recoveryFingerprint == f;
    } else if f in t'.fingerprints {
      assert t'.admissions[proposal.proposalId].body.recoveryFingerprint == f;
    }
  }

  lemma AdmitRecorded(s: Store, packet: TaskPacket, lease: Lease, blocker: BlockerReport, proposal: RecoveryProposal)
    requires RecoveryRecorded(s.recovery, s.claims, s.trail)
    ensures RecoveryRecorded(AdmitRecovery(s, packet, lease, blocker, proposal).0.recovery, s.claims, s.trail)
  {
    hide ValidateClaim, BlockerRecorded, AdmissionReasons, AdmissionRecorded, FingerprintAdmitted;
    if AdmissionGuard(s, packet, lease, blocker, proposal).Accepted? && proposal.proposalId !in s.recovery.admissions {
      AddAdmissionRecorded(s.recovery, proposal, Judgement(s, packet, lease, blocker, proposal));
    }
  }

  // ----- the parent ----------------------------------------------------------------------------

  ghost predicate DispositionRecorded(key: (string, int, string), d: RouteDisposition, missions: map<string, Mission>) {
    && DispositionIdentity(d) && key == (d.body.missionId, d.body.missionRevision, d.body.routeId)
    && d.body.missionId in missions && d.body.missionRevision <= missions[d.body.missionId].revision
    && (d.body.missionRevision == missions[d.body.missionId].revision ==>
          exists route :: && route in missions[d.body.missionId].routes && route.routeId == d.body.routeId
                          && route.predicateKey == d.body.predicateKey)
  }

  /** An old revision is superseded by evidence: the acknowledged receipt of a packet of that revision. */
  ghost predicate SupersessionRecorded(key: (string, int, int, Digest), d: MissionSupersession, missions: map<string,
                                       Mission>,
                                       acks: map<Digest, Acknowledgement>, packets: map<Digest, TaskPacket>)
  {
    && SupersessionIdentity(d)
    && key == (d.body.missionId, d.body.supersededRevision, d.body.supersedingRevision, d.body.ackId)
    && d.body.missionId in missions && d.body.supersedingRevision <= missions[d.body.missionId].revision
    && d.body.ackId in acks && acks[d.body.ackId].body.receiptId == d.body.receiptId
    && acks[d.body.ackId].body.packetId in packets
    && var packet := packets[acks[d.body.ackId].body.packetId].body;
    && packet.missionId == d.body.missionId && packet.missionRevision == d.body.supersededRevision
  }

  /** What a readback says comes next: the first indeterminate predicate, else the first unsatisfied one. */
  ghost predicate SaysNext(read: seq<PredicateReadback>, key: Option<string>, action: NextAction) {
    && (action == ReadbackRecheck <==> exists i :: 0 <= i < |read| && read[i].truth.Indeterminate?)
    && (action == MissionComplete <==> forall i :: 0 <= i < |read| ==> read[i].truth.Satisfied?)
    && (action == MissionComplete <==> key.None?)
    && (action != MissionComplete ==>
          exists i :: && 0 <= i < |read| && key == Some(read[i].predicateKey)
                      && read[i].truth == (if action == ReadbackRecheck then Indeterminate else Unsatisfied)
                      && forall j :: 0 <= j < i ==> read[j].truth != read[i].truth)
  }

  /** The verification repeats the readback it was made from, for the predicate of the acknowledged packet. */
  ghost predicate Reports(v: VerificationBody, readback: ReadbackBody, packet: PacketBody) {
    && v.missionId == packet.missionId == readback.missionId
    && v.missionRevision == packet.missionRevision == readback.missionRevision
    && v.parentRevision == readback.parentRevision && v.parentSequence == readback.parentSequence
    && v.evidenceDigest == readback.evidenceDigest && v.predicateKey == packet.predicateKey
    && (exists i :: && 0 <= i < |readback.predicates| && readback.predicates[i].predicateKey == v.predicateKey
                    && readback.predicates[i].truth == v.predicateTruth)
    && SaysNext(readback.predicates, v.nextPredicateKey, v.nextAction)
  }

  ghost predicate VerificationRecorded(v: VerificationBody, acks: map<Digest, Acknowledgement>, packets: map<Digest,
                                       TaskPacket>) {
    && v.ackId in acks && acks[v.ackId].body.packetId in packets && v.readbackId.ReadbackDigest?
    && Reports(v, v.readbackId.readback, packets[acks[v.ackId].body.packetId].body)
  }

  ghost predicate ParentRecorded(t: ParentTable, acks: map<Digest, Acknowledgement>, packets: map<Digest, TaskPacket>) {
    && (forall key :: key in t.dispositions ==> DispositionRecorded(key, t.dispositions[key], t.missions))
    && (forall key :: key in t.supersessions ==>
          SupersessionRecorded(key, t.supersessions[key], t.missions, acks, packets))
    && (forall v :: v in t.verifications ==> VerificationRecorded(t.verifications[v].body, acks, packets))
  }

  lemma DispositionStays(key: (string, int, string), d: RouteDisposition, missions: map<string, Mission>,
                         missions': map<string, Mission>)
    requires DispositionRecorded(key, d, missions)
    requires d.body.missionId in missions'
    requires missions'[d.body.missionId] == missions[d.body.missionId]
             || missions'[d.body.missionId].revision > missions[d.body.missionId].revision
    ensures DispositionRecorded(key, d, missions')
  {
    hide DispositionIdentity;
  }

  lemma SupersessionStays(key: (string, int, int, Digest), d: MissionSupersession, s: Store, s': Store)
    requires SupersessionRecorded(key, d, s.parent.missions, s.delivery.acks, s.claims.packets) && Since(s, s')
    ensures SupersessionRecorded(key, d, s'.parent.missions, s'.delivery.acks, s'.claims.packets)
  {
    hide SupersessionIdentity, WorkSince, StepsSince, SameButState;
  }

  lemma VerificationStays(v: VerificationBody, s: Store, s': Store)
    requires VerificationRecorded(v, s.delivery.acks, s.claims.packets) && Since(s, s')
    ensures VerificationRecorded(v, s'.delivery.acks, s'.claims.packets)
  {
    hide Reports, WorkSince, StepsSince, ParentSince, SameButState;
  }

  ghost predicate NewerMissions(missions: map<string, Mission>, missions': map<string, Mission>) {
    forall m :: m in missions ==>
      m in missions' && (missions'[m] == missions[m] || missions'[m].revision > missions[m].revision)
  }

  /** A call that adds none of these records keeps them all. */
  lemma ParentStays(s: Store, s': Store)
    requires ParentRecorded(s.parent, s.delivery.acks, s.claims.packets) && Since(s, s')
    requires s'.parent.dispositions == s.parent.dispositions && s'.parent.supersessions == s.parent.supersessions
    requires s'.parent.verifications == s.parent.verifications && NewerMissions(s.parent.missions, s'.parent.missions)
    ensures ParentRecorded(s'.parent, s'.delivery.acks, s'.claims.packets)
  {
    hide DispositionRecorded, SupersessionRecorded, VerificationRecorded, Since;
    var t := s.parent;
    forall key | key in t.dispositions ensures DispositionRecorded(key, t.dispositions[key], s'.parent.missions) {
      DispositionMission(key, t.dispositions[key], t.missions);
      DispositionStays(key, t.dispositions[key], t.missions, s'.parent.missions);
    }
    forall key | key in t.supersessions
      ensures SupersessionRecorded(key, t.supersessions[key], s'.parent.missions, s'.delivery.acks, s'.claims.packets)
    {
      SupersessionStays(key, t.supersessions[key], s, s');
    }
    forall v | v in t.verifications
      ensures VerificationRecorded(t.verifications[v].body, s'.delivery.acks, s'.claims.packets)
    {
      VerificationStays(t.verifications[v].body, s, s');
    }
  }

  lemma DispositionMission(key: (string, int, string), d: RouteDisposition, missions: map<string, Mission>)
    requires DispositionRecorded(key, d, missions)
    ensures d.body.missionId in missions
  {
  }

  lemma DispositionCallRecorded(s: Store, d: RouteDisposition)
    requires Inv(s) && ParentRecorded(s.parent, s.delivery.acks, s.claims.packets)
    ensures ParentRecorded(RecordRouteDisposition(s, d).0.parent, s.delivery.acks, s.claims.packets)
  {
    hide Inv, SupersessionRecorded, VerificationRecorded, DispositionIdentity;
  }

  lemma SupersessionCallRecorded(s: Store, d: MissionSupersession)
    requires Inv(s) && ParentRecorded(s.parent, s.delivery.acks, s.claims.packets)
    ensures ParentRecorded(RecordMissionSupersession(s, d).0.parent, s.delivery.acks, s.claims.packets)
  {
    hide Inv, DispositionRecorded, VerificationRecorded, SupersessionRecorded, SupersessionBinds, AckIdentity,
         ReceiptIdentity;
    if SupersessionBinds(s, d) && SupersessionIdentity(d) { SupersessionRecords(s, d); }
  }

  lemma SupersessionRecords(s: Store, d: MissionSupersession)
    requires Inv(s) && SupersessionBinds(s, d) && SupersessionIdentity(d)
    ensures SupersessionRecorded((d.body.missionId, d.body.supersededRevision, d.body.supersedingRevision,
                                  d.body.ackId), d,
                                 s.parent.missions, s.delivery.acks, s.claims.packets)
  {
    hide Inv, SupersessionIdentity;
    ReceiptKeyed(s, d.body.receiptId);
  }

  lemma ReceiptKeyed(s: Store, id: Digest)
    requires Inv(s) && id in s.work.receipts
    ensures s.work.receipts[id].receiptId == id
  {
    hide LeaseInv, StepInv, RecoveryInv, RecoveryStepsAdmitted, DeliveryInv, MissionInv, SettledOwned, PendingOwned,
         StartedOnly, ReceiptBinds;
  }

  lemma NextStepSays(read: seq<PredicateReadback>)
    ensures SaysNext(read, NextStep(read).0, NextStep(read).1)
  {
    var truths := ReadTruths(read);
    var unknown, open := FirstIndex(truths, Indeterminate), FirstIndex(truths, Unsatisfied);
    assert forall i :: 0 <= i < |read| ==> truths[i] == read[i].truth;
  }

  lemma VerificationReports(packet: PacketBody, mission: Mission, current: PredicateReadback, ack: Acknowledgement,
                            readback: MissionReadback)
    requires packet.missionId == mission.missionId == readback.body.missionId
    requires packet.missionRevision == mission.revision == readback.body.missionRevision
    requires current in readback.body.predicates && current.predicateKey == packet.predicateKey
    ensures Reports(VerificationOf(packet, mission, current.truth, ack, readback).body, readback.body, packet)
  {
    hide SaysNext, NextStep;
    NextStepSays(readback.body.predicates);
  }

  lemma VerifyCallRecorded(s: Store, ack: Acknowledgement, readback: MissionReadback)
    requires Inv(s) && ParentRecorded(s.parent, s.delivery.acks, s.claims.packets)
    ensures ParentRecorded(VerifyMission(s, ack, readback).0.parent, s.delivery.acks, s.claims.packets)
  {
    hide Inv, DispositionRecorded, SupersessionRecorded, Reports, NextStep, AckIdentity, Keys, ReadKeys;
    var r := VerifyMission(s, ack, readback);
    if r.1.Accepted? {
      var packet := s.claims.packets[ack.body.packetId].body;
      var mission := s.parent.missions[packet.missionId];
      MissionKeyed(s, packet.missionId);
      VerificationReports(packet, mission, FindReadback(readback.body.predicates, packet.predicateKey).value, ack,
                          readback);
    }
  }

  // ----- every run -----------------------------------------------------------------------------

  ghost predicate Recorded(s: Store) {
    RecoveryRecorded(s.recovery, s.claims, s.trail) && ParentRecorded(s.parent, s.delivery.acks, s.claims.packets)
  }

  predicate ParentCall(call: Call) {
    call.RegisterMissionCall? || call.DispositionCall? || call.SupersessionCall? || call.VerifyCall?
  }

  lemma OtherParent(s: Store, call: Call)
    requires !ParentCall(call)
    ensures Next(s, call).parent == s.parent
  {
    if EndingCall(call) {
      hide HoldsLease, HasOpenStep, ExecutorCode, ReconcilableCode, Blank, OwnersAfterFailure, ResultMatches;
    } else {
      hide ClaimGuard, AddClaim, ValidateClaim, StepGuard, AddStep, AdmissionGuard, Judgement, AddAdmission, HoldsLease,
           HasOpenStep, ProvesAbsence, ConvergenceIdentity, BlockerBindsStep, ReconciliationBinds;
    }
  }

  lemma OtherRecovery(s: Store, call: Call)
    requires !call.AdmitCall? && !call.BlockerCall?
    ensures Next(s, call).recovery == s.recovery
  {
    if EndingCall(call) {
      hide HoldsLease, HasOpenStep, ExecutorCode, ReconcilableCode, Blank, OwnersAfterFailure, ResultMatches;
    } else {
      hide ClaimGuard, AddClaim, ValidateClaim, StepGuard, AddStep, HoldsLease, HasOpenStep, ProvesAbsence,
           ConvergenceIdentity, ReconciliationBinds, FindRoute, SupersessionBinds, VerificationOf, FindReadback;
    }
  }

  lemma NextRecovery(s: Store, call: Call)
    requires Inv(s) && Recorded(s)
    ensures RecoveryRecorded(Next(s, call).recovery, Next(s, call).claims, Next(s, call).trail)
  {
    hide Inv, RecoveryRecorded, ParentRecorded;
    match call
    case BlockerCall(p, l, b) => hide BlockerGuard; BlockerCallRecorded(s, p, l, b);
    case AdmitCall(p, l, b, proposal) =>
      hide AdmissionGuard, Judgement, AddAdmission;
      AdmitRecorded(s, p, l, b, proposal);
    case _ =>
      hide Next, Since;
      NextSince(s, call);
      OtherRecovery(s, call);
      RecoveryStays(s, Next(s, call));
  }

  lemma RegisterNewer(s: Store, mission: Mission)
    ensures NewerMissions(s.parent.missions, RegisterMission(s, mission).0.parent.missions)
  {
  }

  lemma NextParent(s: Store, call: Call)
    requires Inv(s) && Recorded(s)
    ensures ParentRecorded(Next(s, call).parent, Next(s, call).delivery.acks, Next(s, call).claims.packets)
  {
    hide Inv, RecoveryRecorded, ParentRecorded, Since;
    NextSince(s, call);
    match call
    case RegisterMissionCall(m) =>
      RegisterNewer(s, m);
      hide NewerMissions;
      ParentStays(s, Next(s, call));
    case DispositionCall(d) => hide RecordRouteDisposition; DispositionCallRecorded(s, d); ParentFrames(s, call);
    case SupersessionCall(d) => hide RecordMissionSupersession; SupersessionCallRecorded(s, d); ParentFrames(s, call);
    case VerifyCall(ack, readback) => hide VerifyMission; VerifyCallRecorded(s, ack, readback); ParentFrames(s, call);
    case _ =>
      hide Next;
      OtherParent(s, call);
      ParentStays(s, Next(s, call));
  }

  lemma ParentFrames(s: Store, call: Call)
    requires call.DispositionCall? || call.SupersessionCall? || call.VerifyCall?
    ensures Next(s, call) == s.(parent := Next(s, call).parent)
  {
    hide FindRoute, SupersessionBinds, VerificationOf, FindReadback, AckIdentity, ReadbackIdentity;
  }

  lemma {:induction false} RunRecorded(s: Store, calls: seq<Call>)
    requires Inv(s) && Recorded(s)
    ensures Recorded(Run(s, calls))
    decreases calls
  {
    hide Inv, RecoveryRecorded, ParentRecorded, Next;
    if calls != [] {
      NextRecovery(s, calls[0]);
      NextParent(s, calls[0]);
      NextKeepsInv(s, calls[0]);
      RunRecorded(Next(s, calls[0]), calls[1..]);
    }
  }

  /** In every reachable store every blocker, judgement, disposition, supersession and verification is bound to what it
      was recorded for, and fingerprints are taken by admitted proposals only. */
  lemma ReachableRecorded(s: Store)
    requires Reachable(s)
    ensures RecoveryRecorded(s.recovery, s.claims, s.trail)
    ensures ParentRecorded(s.parent, s.delivery.acks, s.claims.packets)
  {
    hide Inv, Run;
    var calls :| Run(EMPTY, calls) == s;
    InvInit();
    RunRecorded(EMPTY, calls);
  }

  // ----- judging a proposal ----------------------------------------------------------------------

  /** The same actions were admitted before for the same blocker. */
  ghost predicate TriedBefore(t: RecoveryTable, blocker: BlockerReport, proposal: RecoveryProposal) {
    exists k :: && k in t.admissions && k in t.proposals && t.admissions[k].body.state == Admitted
                && t.admissions[k].body.blockerId == blocker.blockerId
                && t.proposals[k].body.actionGraph == proposal.body.actionGraph
  }

  lemma SeenExactly(s: Store, blocker: BlockerReport, proposal: RecoveryProposal)
    requires Inv(s) && RecoveryRecorded(s.recovery, s.claims, s.trail)
    requires Get(s.recovery.blockers, blocker.blockerId) == Some(blocker) && ProposalIdentity(proposal)
    ensures RecoveryFingerprint(blocker, proposal) in s.recovery.fingerprints <==>
            TriedBefore(s.recovery, blocker, proposal)
  {
    hide LeaseInv, EffectInv, StepInv, RecoveryStepsAdmitted, DeliveryInv, MissionInv, AdmissionsBind, BudgetAccounted,
         BlockerRecorded;
    var f := RecoveryFingerprint(blocker, proposal);
    if f in s.recovery.fingerprints {
      assert FingerprintAdmitted(s.recovery, f);
      var k :| k in s.recovery.admissions && s.recovery.admissions[k].body.state == Admitted
               && s.recovery.admissions[k].body.recoveryFingerprint == f;
      assert AdmissionRecorded(s.recovery, k);
    }
    if k :| && k in s.recovery.admissions && k in s.recovery.proposals
            && s.recovery.admissions[k].body.state == Admitted
            && s.recovery.admissions[k].body.blockerId == blocker.blockerId
            && s.recovery.proposals[k].body.actionGraph == proposal.body.actionGraph {
      assert AdmissionRecorded(s.recovery, k);
    }
  }

  /** A new proposal is a duplicate exactly when the same actions were admitted before for the same blocker, admitted
      exactly when not and it is admissible, and otherwise escalated with exactly the conditions that fail. */
  lemma JudgedExactly(s: Store, packet: TaskPacket, lease: Lease, blocker: BlockerReport, proposal: RecoveryProposal)
    requires Reachable(s) && AdmissionGuard(s, packet, lease, blocker, proposal).Accepted?
    requires proposal.proposalId !in s.recovery.admissions
    ensures AdmitRecovery(s, packet, lease, blocker, proposal).1.Accepted?
    ensures var (s', r) := AdmitRecovery(s, packet, lease, blocker, proposal);
            var consumed := GetOr(s.recovery.budgetConsumed, packet.packetId, 0);
            var open := exists id :: id in GetOr(s.trail.stepsOf, packet.packetId, []) && OpenStep(s.trail, id);
            && (r.value.body.state == Duplicate <==> TriedBefore(s.recovery, blocker, proposal))
            && (r.value.body.state == Admitted <==>
                  && !TriedBefore(s.recovery, blocker, proposal)
                  && Admissible(packet.body, blocker.body, proposal.body, open, consumed))
            && (if r.value.body.state == Duplicate then r.value.body.reasons == [DuplicateFingerprint]
                else Listed(r.value.body.reasons, 12, packet.body, blocker.body, proposal.body, open, consumed))
            && GetOr(s'.recovery.budgetConsumed, packet.packetId, 0) ==
               consumed + (if r.value.body.state == Admitted then proposal.body.budget else 0)
  {
    hide Run, Inv, RecoveryRecorded, ParentRecorded, Admissible, Listed, ValidateClaim, TriedBefore, ReasonsFor;
    ReachableInv(s);
    ReachableRecorded(s);
    SeenExactly(s, blocker, proposal);
    var consumed, open := GetOr(s.recovery.budgetConsumed, packet.packetId, 0), HasOpenStep(s.trail, packet.packetId);
    ReasonsListed(packet.body, blocker.body, proposal.body, open, consumed);
    NoneMeansAdmissible(packet.body, blocker.body, proposal.body, open, consumed);
  }

  /** An accepted verification reports its readback, for the predicate of the packet it acknowledges. */
  lemma VerifiedReports(s: Store, ack: Acknowledgement, readback: MissionReadback)
    requires Reachable(s) && VerifyMission(s, ack, readback).1.Accepted?
    ensures ack.body.packetId in s.claims.packets
    ensures Reports(VerifyMission(s, ack, readback).1.value.body, readback.body,
                    s.claims.packets[ack.body.packetId].body)
    ensures VerifyMission(s, ack, readback).1.value.body.ackId == ack.ackId
  {
    hide Run, Inv, Reports, AckIdentity, ReadbackIdentity, Keys, ReadKeys, VerificationOf;
    ReachableInv(s);
    var packet := s.claims.packets[ack.body.packetId].body;
    var mission := s.parent.missions[packet.missionId];
    MissionKeyed(s, packet.missionId);
    var current := FindReadback(readback.body.predicates, packet.predicateKey);
    VerificationReports(packet, mission, current.value, ack, readback);
    var v := VerificationOf(packet, mission, current.value.truth, ack, readback);
    VerificationStored(s, v);
    assert v.body.ackId == ack.ackId && v.verificationId ==
      VerificationDigest(v.body) by { OfAck(packet, mission, current.value.truth, ack, readback); }
  }

  lemma OfAck(packet: PacketBody, mission: Mission, truth: Truth, ack: Acknowledgement, readback: MissionReadback)
    ensures var v := VerificationOf(packet, mission, truth, ack, readback);
            v.body.ackId == ack.ackId && v.verificationId == VerificationDigest(v.body)
  {
    hide NextStep;
  }

  lemma VerificationStored(s: Store, v: MissionVerification)
    requires Inv(s)
    ensures v.verificationId in s.parent.verifications && v.verificationId == VerificationDigest(v.body) ==>
              s.parent.verifications[v.verificationId].body == v.body
  {
    hide LeaseInv, EffectInv, StepInv, RecoveryInv, RecoveryStepsAdmitted, DeliveryInv, PacketsPlanned, SnapshotsBind,
         PlannedFirst;
  }
}
