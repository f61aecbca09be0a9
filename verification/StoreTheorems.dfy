/** The promises of the collaboration store, over every reachable store and every run. */
module StoreTheorems {
  import opened Records
  import opened StoreSpec
  import opened StoreInvariant
  import opened StorePreservation
  import opened StoreRuns

  // ----- effects and receipts ----------------------------------------------------------------

  /** Every receipt is effect-free or settled, no two settled receipts share an effect, and a packet
      with a receipt has no unresolved step. */
  lemma EffectsExclusive(s: Store)
    requires Reachable(s)
    ensures forall r :: r in s.work.receipts ==>
              s.work.receipts[r].body.effectState.NoEffect? || s.work.receipts[r].body.effectState.Settled?
    ensures forall r, q | r in s.work.receipts && q in s.work.receipts && r != q ::
              s.work.receipts[r].body.effectState.Settled? && s.work.receipts[q].body.effectState.Settled? ==>
                s.work.receipts[r].body.effectId != s.work.receipts[q].body.effectId
    ensures forall p :: p in s.work.receiptOf ==> !HasOpenStep(s.trail, p)
  {
    ReachableInv(s);
    hide LeaseInv, StepsBind, ListsSteps, StepEffectsOwned, RecoveryOrdered, RecoveryInv, RecoveryStepsAdmitted,
         DeliveryInv,
         MissionInv, PendingOwned, StartedOnly, HasOpenStep, ReceiptIdentity, Run;
    forall r | r in s.work.receipts
      ensures ReceiptBinds(s.work.receipts[r], s.claims.packets, s.claims.leases)
    {
      assert s.work.receiptOf[s.work.receipts[r].body.packetId] == s.work.receipts[r];
    }
  }

  /** Whatever calls follow, a packet keeps its receipt and its settled effect, and gains no step. */
  lemma TerminalForever(s: Store, calls: seq<Call>, p: Digest)
    requires Reachable(s) && p in s.work.receiptOf
    ensures var s' := Run(s, calls);
            && Get(s'.work.receiptOf, p) == Some(s.work.receiptOf[p])
            && p in s'.claims.leases && s'.claims.leases[p].leaseId !in s'.claims.active
            && GetOr(s'.trail.stepsOf, p, []) == GetOr(s.trail.stepsOf, p, [])
            && !HasOpenStep(s'.trail, p)
            && (s.work.receiptOf[p].body.effectId.Some? ==>
                  Get(s'.work.effectOwner, s.work.receiptOf[p].body.effectId.value) == Some(p))
  {
    ReachableInv(s);
    RunKeepsInv(s, calls);
    RunSince(s, calls);
    hide Run, StepsBind, ListsSteps, StepEffectsOwned, RecoveryOrdered, RecoveryInv, RecoveryStepsAdmitted, DeliveryInv,
         MissionInv, PendingOwned, StartedOnly, HasOpenStep, ReceiptIdentity, ClaimsSince, ParentSince, DeliverySince,
         VersionsCountClaims, VersionsFence, Exclusive;
  }

  // ----- leases ------------------------------------------------------------------------------

  /** Active leases never overlap, a claimed packet's lease is active exactly while it has no receipt,
      and the version of a scope item counts the claims ever made on it. */
  lemma LeasesExclusive(s: Store)
    requires Reachable(s)
    ensures forall a, b :: a in s.claims.active && b in s.claims.active && a != b ==>
              !Overlaps(s.claims.active[a].scope, s.claims.active[b].scope)
    ensures forall p :: p in s.claims.leases ==>
              (s.claims.leases[p].leaseId in s.claims.active <==> p !in s.work.receiptOf)
    ensures forall item :: GetOr(s.claims.versions, item, 0) == |ClaimsOn(s.claims.leases, item)|
  {
    ReachableInv(s);
    hide Run, EffectInv, StepInv, RecoveryInv, RecoveryStepsAdmitted, DeliveryInv, MissionInv, Overlaps, VersionsFence,
         LeasesBindPackets, ClaimsOn;
  }

  /** A lease claimed later carries a larger version of every item it shares with an earlier one. */
  lemma VersionsFollowClaims(s: Store, calls: seq<Call>, earlier: Digest, later: Digest, item: string, v: int, w: int)
    requires Reachable(s)
    requires earlier in s.claims.leases && later !in s.claims.leases && later in Run(s, calls).claims.leases
    requires (item, v) in s.claims.leases[earlier].scopeVersions
    requires (item, w) in Run(s, calls).claims.leases[later].scopeVersions
    ensures v < w
  {
    ReachableInv(s);
    RunSince(s, calls);
    hide Run, EffectInv, StepInv, RecoveryInv, RecoveryStepsAdmitted, DeliveryInv, MissionInv, LeasesBindPackets,
         ActiveUntilReceipt, Exclusive, VersionsCountClaims, WorkSince, StepsSince, ParentSince, DeliverySince;
    assert v <= GetOr(s.claims.versions, item, 0);
  }

  // ----- runs, call by call --------------------------------------------------------------------

  lemma {:induction false} RunStep(s: Store, calls: seq<Call>, i: nat)
    requires i < |calls|
    ensures Run(s, calls[..i + 1]) == Next(Run(s, calls[..i]), calls[i])
    decreases i
  {
    hide Next;
    if i == 0 {
      assert calls[..1][1..] == [] && calls[..0] == [];
      assert Run(s, calls[..1]) == Run(Next(s, calls[0]), calls[..1][1..]);
    } else {
      RunStep(Next(s, calls[0]), calls[1..], i - 1);
      assert calls[..i + 1][1..] == calls[1..][..i] && calls[..i][1..] == calls[1..][..i - 1];
      assert Run(s, calls[..i + 1]) == Run(Next(s, calls[0]), calls[..i + 1][1..]);
      assert Run(s, calls[..i]) == Run(Next(s, calls[0]), calls[..i][1..]);
    }
  }

  lemma {:induction false} RunConcat(s: Store, a: seq<Call>, b: seq<Call>)
    ensures Run(s, a + b) == Run(Run(s, a), b)
    decreases a
  {
    hide Next;
    if a == [] {
      assert a + b == b;
    } else {
      assert (a + b)[1..] == a[1..] + b;
      RunConcat(Next(s, a[0]), a[1..], b);
    }
  }

  /** The store just before call `i` of a run from an empty store. */
  ghost function Before(calls: seq<Call>, i: nat): Store
    requires i <= |calls|
  {
    Run(EMPTY, calls[..i])
  }

  lemma BeforeSince(calls: seq<Call>, i: nat, j: nat)
    requires i <= j <= |calls|
    ensures Inv(Before(calls, i)) && Since(Before(calls, i), Before(calls, j))
  {
    hide Inv, Since, Next;
    InvInit();
    RunKeepsInv(EMPTY, calls[..i]);
    assert calls[..j] == calls[..i] + calls[i..j];
    RunConcat(EMPTY, calls[..i], calls[i..j]);
    RunSince(Before(calls, i), calls[i..j]);
  }

  ghost predicate AcceptedAt(calls: seq<Call>, i: nat) {
    i < |calls| && Accepts(Before(calls, i), calls[i])
  }

  lemma BeginMarks(s: Store, call: Call)
    requires call.BeginCall? && Accepts(s, call)
    ensures call.packet.packetId !in s.work.started && call.packet.packetId in Next(s, call).work.started
  {
    hide ValidateClaim;
  }

  /** Over every run a packet's execution is admitted at most once. */
  lemma ExecutedOnce(calls: seq<Call>, i: nat, j: nat)
    requires i < j && AcceptedAt(calls, i) && AcceptedAt(calls, j)
    requires calls[i].BeginCall? && calls[j].BeginCall?
    ensures calls[i].packet.packetId != calls[j].packet.packetId
  {
    hide Run, Inv, Next, Accepts, Apply, ClaimsSince, StepsSince, ParentSince, DeliverySince;
    RunStep(EMPTY, calls, i);
    BeforeSince(calls, i + 1, j);
    BeginMarks(Before(calls, i), calls[i]);
    BeginMarks(Before(calls, j), calls[j]);
  }

  // ----- delivery ----------------------------------------------------------------------------

  predicate StartsDelivery(call: Call, id: Digest) {
    call.BeginDeliveryCall? && call.continuation.continuationId == id
  }

  predicate ProvesNotDelivered(call: Call, id: Digest) {
    call.ReconcileContinuationCall? && call.reconciliation.continuationId == id
      && call.reconciliation.verdict.NotDelivered?
  }

  predicate InFlight(t: DeliveryTable, id: Digest) {
    id in t.continuations && t.continuations[id].state != Prepared
  }

  lemma ReconciledInFlight(s: Store, receipt: TerminalReceipt, r: ContinuationReconciliation,
                           proof: Option<DeliveryProof>, id: Digest)
    requires Inv(s) && InFlight(s.delivery, id)
    requires !(ReconcileContinuation(s, receipt, r, proof).1.Accepted? && r.continuationId == id
               && r.verdict.NotDelivered?)
    ensures InFlight(ReconcileContinuation(s, receipt, r, proof).0.delivery, id)
  {
    hide Inv, ConvergenceIdentity, Blank, ProvesAbsence;
    if r.continuationId in s.delivery.continuations {
      ContinuationKeyed(s, r.continuationId);
    }
  }

  /** Only an accepted absence proof makes a continuation deliverable again. */
  lemma StaysInFlight(s: Store, call: Call, id: Digest)
    requires Inv(s) && InFlight(s.delivery, id)
    requires !(Accepts(s, call) && ProvesNotDelivered(call, id))
    ensures InFlight(Next(s, call).delivery, id)
  {
    hide Inv, PrepareContinuation, ReconcileContinuation;
    if call.PrepareCall? {
      PreparedOnce(s, call.receipt);
    } else if call.ReconcileContinuationCall? {
      ReconciledInFlight(s, call.receipt, call.reconciliation, call.proof, id);
    } else {
      hide Next, Apply, Accepts;
      DeliveryUntouched(s, call);
    }
  }

  lemma PreparedOnce(s: Store, receipt: TerminalReceipt)
    requires Inv(s)
    ensures var s' := PrepareContinuation(s, receipt).0;
            forall id :: id in s.delivery.continuations ==>
              id in s'.delivery.continuations && s'.delivery.continuations[id] == s.delivery.continuations[id]
  {
    hide LeaseInv, EffectInv, StepInv, RecoveryInv, RecoveryStepsAdmitted, MissionInv, AcksMatch, ContinuationBinds;
    if && Get(s.work.receipts, receipt.receiptId) == Some(receipt) && receipt.receiptId !in s.delivery.continuationOf
       && receipt.body.packetId in s.claims.packets {
      NewContinuationBinds(s, receipt);
      PrepareBinds(s.delivery, s.work.receipts, s.claims.packets,
                   NewContinuation(receipt.receiptId, s.claims.packets[receipt.body.packetId].body.destination));
    }
  }

  predicate DeliveryCall(call: Call) {
    || call.PrepareCall? || call.BeginDeliveryCall? || call.MarkUnsettledCall? || call.AcknowledgeCall?
    || call.ReconcileContinuationCall?
  }

  predicate EndingCall(call: Call) {
    call.PreExecutionCall? || call.FailureCall? || call.ReconcileFailureCall? || call.ResultCall?
      || call.ReconcileEffectCall?
  }

  lemma EndingFrame(s: Store, call: Call)
    requires EndingCall(call)
    ensures Next(s, call).delivery == s.delivery
  {
    hide HoldsLease, HasOpenStep, RecordExecutionFailure, FailureGuard, ResultGuard, EffectGuard;
    match call
    case FailureCall(p, l, code, detail, observed, origin) => FailureFrame(s, p, l, code, detail, observed, origin);
    case ResultCall(p, l, result) =>
      FailureFrame(s, p, l, StaleIdentity, ResultMismatchDigest(p.packetId, l.leaseId), Some(result.effectId),
                   FromHarness);
      if result.effectId in s.work.effectOwner {
        FailureFrame(s, p, l, DuplicateOrReplay,
                     DuplicateEffectDigest(result.effectId, s.work.effectOwner[result.effectId]),
                     Some(result.effectId), FromHarness);
      }
    case _ =>
  }

  lemma OtherFrame(s: Store, call: Call)
    requires !DeliveryCall(call) && !EndingCall(call)
    ensures Next(s, call).delivery == s.delivery
  {
    hide ClaimGuard, AddClaim, ValidateClaim, StepGuard, AddStep, RecoveryActionAdmitted, AdmissionGuard, Judgement,
         AddAdmission,
         HoldsLease, HasOpenStep, FindRoute, SupersessionBinds, VerificationOf, FindReadback;
  }

  lemma DeliveryUntouched(s: Store, call: Call)
    requires !call.PrepareCall? && !call.ReconcileContinuationCall?
    ensures forall id :: InFlight(s.delivery, id) ==> InFlight(Next(s, call).delivery, id)
  {
    if DeliveryCall(call) {
      hide ConvergenceIdentity;
    } else {
      hide Next;
      if EndingCall(call) { EndingFrame(s, call); } else { OtherFrame(s, call); }
    }
  }

  lemma FailureFrame(s: Store, packet: TaskPacket, lease: Lease, code: FailureCode, detail: Digest,
                     observed: Option<string>,
                     origin: FailureOrigin)
    ensures RecordExecutionFailure(s, packet, lease, code, detail, observed, origin).0.delivery == s.delivery
  {
    hide HoldsLease, Blank;
  }

  lemma DeliveryStarts(s: Store, call: Call, id: Digest)
    requires StartsDelivery(call, id) && Accepts(s, call)
    ensures !InFlight(s.delivery, id) && InFlight(Next(s, call).delivery, id)
  {
  }

  /** Between two delivery starts of one continuation there is an accepted absence proof. */
  lemma {:induction false} RedeliveryNeedsProof(calls: seq<Call>, i: nat, j: nat, id: Digest)
    requires i < j && AcceptedAt(calls, i) && AcceptedAt(calls, j)
    requires StartsDelivery(calls[i], id) && StartsDelivery(calls[j], id)
    ensures exists k :: i < k < j && AcceptedAt(calls, k) && ProvesNotDelivered(calls[k], id)
  {
    hide Run, Inv, Next, Accepts, Apply, InFlight;
    if forall k :: i < k < j && AcceptedAt(calls, k) ==> !ProvesNotDelivered(calls[k], id) {
      DeliveryStarts(Before(calls, i), calls[i], id);
      RunStep(EMPTY, calls, i);
      var n := i + 1;
      while n < j
        invariant i < n <= j
        invariant InFlight(Before(calls, n).delivery, id)
      {
        BeforeSince(calls, n, n);
        StaysInFlight(Before(calls, n), calls[n], id);
        RunStep(EMPTY, calls, n);
        n := n + 1;
      }
      DeliveryStarts(Before(calls, j), calls[j], id);
      assert false;
    }
  }

  /** A continuation never changes receipt, destination or turn request, and stays acknowledged. */
  lemma ContinuationForever(s: Store, calls: seq<Call>, id: Digest)
    requires Reachable(s) && id in s.delivery.continuations
    ensures var s' := Run(s, calls);
            && id in s'.delivery.continuations
            && var c, c' := s.delivery.continuations[id], s'.delivery.continuations[id];
            && c'.receiptId == c.receiptId && c'.destination == c.destination && c'.turnRequestId == c.turnRequestId
            && (c.state == Acknowledged ==> c'.state == Acknowledged)
  {
    hide Next;
    ReachableInv(s);
    RunSince(s, calls);
    hide Run, Inv, ClaimsSince, WorkSince, StepsSince, ParentSince;
  }

  /** Acknowledgements and acknowledged continuations correspond one to one. */
  lemma AcknowledgedExactlyOnce(s: Store, id: Digest)
    requires Reachable(s)
    ensures (id in s.delivery.continuations && s.delivery.continuations[id].state == Acknowledged) <==>
            exists a :: a in s.delivery.acks && s.delivery.acks[a].body.continuationId == id
    ensures forall a, b | a in s.delivery.acks && b in s.delivery.acks ::
              s.delivery.acks[a].body.continuationId == id == s.delivery.acks[b].body.continuationId ==> a == b
  {
    ReachableInv(s);
    hide Run, LeaseInv, EffectInv, StepInv, RecoveryInv, RecoveryStepsAdmitted, MissionInv, ContinuationsBind,
         AckIdentity;
  }
}
