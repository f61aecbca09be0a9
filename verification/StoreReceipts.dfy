/** What a terminal receipt records: the one ending of its packet, with the evidence that ended it. */
module StoreReceipts {
  import opened Records
  import opened StoreSpec
  import opened StoreInvariant
  import opened StorePreservation
  import opened StoreRuns
  import opened StoreTheorems

  // ----- receipts against the records they close ------------------------------------------------

  ghost predicate SettledAttempt(t: WorkTable, p: Digest) {
    p in t.attempts && t.attempts[p].effectState.Settled?
  }

  /** The status says whether the packet was started and how it ended; the other fields repeat the evidence. */
  ghost predicate Tells(t: WorkTable, p: Digest, r: ReceiptBody) {
    && (r.status.Blocked? <==> p !in t.started)
    && (r.status.Succeeded? <==> SettledAttempt(t, p))
    && match r.status
       case Blocked =>
         && r.effectState.NoEffect? && r.settlementProof.None? && !r.predicateSatisfied
         && r.failure.Some? && r.failure.value.1.FromHarness?
         && r.outputDigest.PreExecutionDigest? && r.outputDigest.code == r.failure.value.0
       case Succeeded =>
         && r.effectState.Settled? && r.effectId == Some(t.attempts[p].effectId) && r.settlementProof.Some?
         && r.outputDigest == t.attempts[p].outputDigest && r.failure.None?
         && r.predicateSatisfied == t.attempts[p].predicateSatisfied
       case Failed =>
         && p in t.failures && !r.predicateSatisfied && r.settlementProof.Some?
         && r.failure == Some((t.failures[p].body.failureCode, t.failures[p].body.origin))
         && (r.effectState.Settled? && t.failures[p].body.observedEffectId.Some? ==>
               r.effectId == t.failures[p].body.observedEffectId)
  }

  ghost predicate AllTell(t: WorkTable) {
    forall p :: p in t.receiptOf ==> Tells(t, p, t.receiptOf[p].body)
  }

  predicate AllowedCode(f: FailureBody) {
    if f.origin.FromExecutor? then ExecutorCode(f.failureCode) else ReconcilableCode(f.failureCode)
  }

  ghost predicate FailureBound(f: ExecutionFailure, p: Digest, lease: Lease) {
    && f.failureId == FailureDigest(f.body) && f.body.packetId == p && f.body.leaseId == lease.leaseId
    && AllowedCode(f.body)
  }

  /** An attempt comes from the packet's executor under its lease, a failure carries its own identity and a code its
      origin may report. */
  ghost predicate RecordsBind(t: WorkTable, packets: map<Digest, TaskPacket>, leases: map<Digest, Lease>) {
    && (forall p :: p in t.attempts ==>
          p in packets && p in leases && ResultMatches(packets[p], leases[p], t.attempts[p]))
    && (forall p :: p in t.failures ==> p in leases && FailureBound(t.failures[p], p, leases[p]))
  }

  ghost predicate Told(s: Store) {
    AllTell(s.work) && RecordsBind(s.work, s.claims.packets, s.claims.leases)
  }

  /** Work tables that differ only in what they say about one packet. */
  ghost predicate SameElsewhere(t: WorkTable, t': WorkTable, p: Digest) {
    forall q :: q != p ==>
      && (q in t.started <==> q in t'.started) && Get(t.attempts, q) == Get(t'.attempts, q)
      && Get(t.failures, q) == Get(t'.failures, q) && Get(t.receiptOf, q) == Get(t'.receiptOf, q)
  }

  ghost predicate RecordBinds(t: WorkTable, packet: TaskPacket, lease: Lease) {
    && (packet.packetId in t.attempts ==> ResultMatches(packet, lease, t.attempts[packet.packetId]))
    && (packet.packetId in t.failures ==> FailureBound(t.failures[packet.packetId], packet.packetId, lease))
  }

  lemma OthersTell(t: WorkTable, t': WorkTable, p: Digest)
    requires AllTell(t) && SameElsewhere(t, t', p)
    requires p in t'.receiptOf ==> Tells(t', p, t'.receiptOf[p].body)
    ensures AllTell(t')
  {
    hide Tells;
    forall q | q in t'.receiptOf ensures Tells(t', q, t'.receiptOf[q].body) {
      if q != p {
        assert Get(t.receiptOf, q) == Get(t'.receiptOf, q);
        assert Tells(t, q, t.receiptOf[q].body);
        TellsElsewhere(t, t', q, p);
      }
    }
  }

  lemma OthersBind(t: WorkTable, t': WorkTable, packets: map<Digest, TaskPacket>, leases: map<Digest, Lease>,
                   packet: TaskPacket, lease: Lease)
    requires RecordsBind(t, packets, leases) && SameElsewhere(t, t', packet.packetId) && RecordBinds(t', packet, lease)
    requires Get(packets, packet.packetId) == Some(packet) && Get(leases, packet.packetId) == Some(lease)
    ensures RecordsBind(t', packets, leases)
  {
    hide ResultMatches, FailureBound;
    forall q | q in t'.attempts
      ensures q in packets && q in leases && ResultMatches(packets[q], leases[q], t'.attempts[q])
    {
      if q != packet.packetId { assert Get(t.attempts, q) == Get(t'.attempts, q); }
    }
    forall q | q in t'.failures ensures q in leases && FailureBound(t'.failures[q], q, leases[q]) {
      if q != packet.packetId { assert Get(t.failures, q) == Get(t'.failures, q); }
    }
  }

  /** A call that ends a packet only changes what is said about that packet. */
  lemma OneTold(s: Store, s': Store, packet: TaskPacket, lease: Lease)
    requires Told(s) && SameElsewhere(s.work, s'.work, packet.packetId)
    requires s'.claims.packets == s.claims.packets && s'.claims.leases == s.claims.leases
    requires Get(s.claims.packets, packet.packetId) == Some(packet)
             && Get(s.claims.leases, packet.packetId) == Some(lease)
    requires RecordBinds(s'.work, packet, lease)
    requires packet.packetId in s'.work.receiptOf ==>
               Tells(s'.work, packet.packetId, s'.work.receiptOf[packet.packetId].body)
    ensures Told(s')
  {
    hide AllTell, RecordsBind, SameElsewhere, RecordBinds, Tells;
    OthersTell(s.work, s'.work, packet.packetId);
    OthersBind(s.work, s'.work, s.claims.packets, s.claims.leases, packet, lease);
  }

  lemma TellsElsewhere(t: WorkTable, t': WorkTable, q: Digest, p: Digest)
    requires SameElsewhere(t, t', p) && q != p
    ensures forall r: ReceiptBody :: Tells(t, q, r) <==> Tells(t', q, r)
  {
    assert Get(t.attempts, q) == Get(t'.attempts, q) && Get(t.failures, q) == Get(t'.failures, q);
  }

  // ----- each call -----------------------------------------------------------------------------

  lemma ToldInit()
    ensures Told(EMPTY)
  {
  }

  lemma Holder(s: Store, packet: TaskPacket, lease: Lease)
    requires Inv(s) && HoldsLease(s, packet, lease)
    ensures packet.packetId !in s.work.receiptOf && !SettledAttempt(s.work, packet.packetId)
    ensures Get(s.claims.packets, packet.packetId) == Some(packet)
            && Get(s.claims.leases, packet.packetId) == Some(lease)
  {
    NotTerminal(s, packet, lease);
    hide LeaseInv, StepInv, RecoveryInv, RecoveryStepsAdmitted, DeliveryInv, MissionInv, ReceiptsBindPackets,
         SettledOwned, StartedOnly;
  }

  lemma FailureTold(s: Store, packet: TaskPacket, lease: Lease, code: FailureCode, detail: Digest,
                    observed: Option<string>, origin: FailureOrigin)
    requires Inv(s) && Told(s)
    ensures Told(RecordExecutionFailure(s, packet, lease, code, detail, observed, origin).0)
  {
    hide Inv, HoldsLease, Blank, ExecutorCode, ReconcilableCode, Tells;
    var r := RecordExecutionFailure(s, packet, lease, code, detail, observed, origin);
    if r.1.Accepted? {
      Holder(s, packet, lease);
      OneTold(s, r.0, packet, lease);
    }
  }

  /** What ending a packet needs, with the records as they stand when the receipt is written. */
  lemma PersistTold(s: Store, s1: Store, packet: TaskPacket, lease: Lease, e: Ending)
    requires Inv(s) && Told(s) && s1 == s.(work := s1.work) && s1.work.receiptOf == s.work.receiptOf
    requires HoldsLease(s, packet, lease) && SameElsewhere(s.work, s1.work, packet.packetId)
    requires RecordBinds(s1.work, packet, lease)
    requires Tells(s1.work, packet.packetId, ReceiptFor(packet, lease, e).body)
    ensures PersistTerminal(s1, packet, lease, e).1.Accepted? ==> Told(PersistTerminal(s1, packet, lease, e).0)
  {
    hide Inv, HasOpenStep, ResultMatches, AllowedCode, Tells;
    Holder(s, packet, lease);
    var r := PersistTerminal(s1, packet, lease, e);
    if r.1.Accepted? {
      SameTells(s1.work, r.0.work, packet.packetId);
      OneTold(s, r.0, packet, lease);
    }
  }

  lemma SameTells(t: WorkTable, t': WorkTable, p: Digest)
    requires t'.started == t.started && t'.attempts == t.attempts && t'.failures == t.failures
    ensures forall r: ReceiptBody :: Tells(t, p, r) <==> Tells(t', p, r)
  {
  }

  lemma PreExecutionTold(s: Store, packet: TaskPacket, lease: Lease, code: FailureCode, detail: string)
    requires Inv(s) && Told(s)
    ensures Told(TerminalizePreExecution(s, packet, lease, code, detail).0)
  {
    var e := Ending(Blocked, None, NoEffect, PreExecutionDigest(code, detail), None, false, Some((code, FromHarness)));
    hide Inv, HoldsLease, HasOpenStep, ResultMatches, AllowedCode;
    if packet.packetId !in s.work.started && HoldsLease(s, packet, lease) {
      Holder(s, packet, lease);
      PersistTold(s, s, packet, lease, e);
    }
  }

  lemma ReconcileFailureTold(s: Store, packet: TaskPacket, lease: Lease, r: FailureReconciliation)
    requires Inv(s) && Told(s) && FailureGuard(s, packet, lease, r).Accepted?
    ensures Told(ReconcileFailure(s, packet, lease, r).0)
  {
    hide Inv, HoldsLease, HasOpenStep, ResultMatches, AllowedCode, OwnersAfterFailure;
    Holder(s, packet, lease);
    ReconcileFailureKeepsInv(s, packet, lease, r);
    StartedFailure(s, packet.packetId);
    var failure := s.work.failures[packet.packetId].body;
    var owners := OwnersAfterFailure(s.work.effectOwner, packet.packetId, failure.observedEffectId, r);
    PersistTold(s, s.(work := s.work.(effectOwner := owners)), packet, lease,
                Ending(Failed, r.effectId, r.effectState, r.outputDigest, Some(r.proofDigest), false,
                       Some((failure.failureCode, failure.origin))));
  }

  lemma StartedFailure(s: Store, p: Digest)
    requires Inv(s)
    ensures p in s.work.failures || p in s.work.attempts ==> p in s.work.started
  {
    hide LeaseInv, StepInv, RecoveryInv, RecoveryStepsAdmitted, DeliveryInv, MissionInv, ReceiptsBindPackets,
         SettledOwned, PendingOwned;
  }

  lemma ResultTold(s: Store, packet: TaskPacket, lease: Lease, result: ExecutionResult)
    requires Inv(s) && Told(s) && ResultGuard(s, packet, lease).Accepted?
    requires ResultMatches(packet, lease, result) && result.effectId !in s.work.effectOwner
    ensures Told(RecordExecution(s, packet, lease, result).0)
  {
    hide Inv, HoldsLease, HasOpenStep, ResultMatches, AllowedCode;
    Holder(s, packet, lease);
    ResultKeepsInv(s, packet, lease, result);
    var s1 := s.(work := AddAttempt(s.work, packet.packetId, result));
    if result.effectState.Settled? {
      PersistTold(s, s1, packet, lease,
                  Ending(Succeeded, Some(result.effectId), Settled, result.outputDigest, Some(result.outputDigest),
                         result.predicateSatisfied, None));
    } else {
      OneTold(s, s1, packet, lease);
    }
  }

  lemma ExecutionTold(s: Store, packet: TaskPacket, lease: Lease, result: ExecutionResult)
    requires Inv(s) && Told(s)
    ensures Told(RecordExecution(s, packet, lease, result).0)
  {
    hide Inv, Told, RecordExecutionFailure, ResultGuard, ResultMatches, AddAttempt, PersistTerminal;
    FailureTold(s, packet, lease, StaleIdentity, ResultMismatchDigest(packet.packetId, lease.leaseId),
                Some(result.effectId), FromHarness);
    if result.effectId in s.work.effectOwner {
      FailureTold(s, packet, lease, DuplicateOrReplay,
                  DuplicateEffectDigest(result.effectId, s.work.effectOwner[result.effectId]),
                  Some(result.effectId), FromHarness);
    } else if ResultGuard(s, packet, lease).Accepted? && ResultMatches(packet, lease, result) {
      ResultTold(s, packet, lease, result);
    }
  }

  lemma ReconcileEffectTold(s: Store, packet: TaskPacket, lease: Lease, r: EffectReconciliation)
    requires Inv(s) && Told(s) && EffectGuard(s, packet, lease, r).Accepted?
    ensures Told(ReconcileEffect(s, packet, lease, r).0)
  {
    hide Inv, HoldsLease, HasOpenStep, AllowedCode;
    Holder(s, packet, lease);
    ReconcileEffectKeepsInv(s, packet, lease, r);
    StartedFailure(s, packet.packetId);
    var settled: ExecutionResult := s.work.attempts[packet.packetId].(effectState := Settled);
    PersistTold(s, s.(work := s.work.(attempts := s.work.attempts[packet.packetId := settled])), packet, lease,
                Ending(Succeeded, Some(settled.effectId), Settled, settled.outputDigest, Some(r.proofDigest),
                       settled.predicateSatisfied, None));
  }

  lemma BeginTold(s: Store, packet: TaskPacket, lease: Lease)
    requires Inv(s) && Told(s)
    ensures Told(BeginExecution(s, packet, lease).0)
  {
    hide Inv, ValidatePacket, HoldsLease, ResultMatches, AllowedCode, Tells;
    var r := BeginExecution(s, packet, lease);
    if r.1.Accepted? {
      Holder(s, packet, lease);
      OneTold(s, r.0, packet, lease);
    }
  }

  lemma OtherWork(s: Store, call: Call)
    requires !EndingCall(call) && !call.BeginCall?
    ensures Next(s, call).work == s.work
  {
    hide ClaimGuard, AddClaim, ValidateClaim, StepGuard, AddStep, AdmissionGuard, Judgement, AddAdmission, HoldsLease,
         HasOpenStep, FindRoute, SupersessionBinds, VerificationOf, FindReadback, ProvesAbsence, ConvergenceIdentity,
         BlockerBindsStep, ReconciliationBinds;
  }

  lemma OtherTold(s: Store, call: Call)
    requires Inv(s) && Told(s) && !EndingCall(call) && !call.BeginCall?
    ensures Told(Next(s, call))
  {
    hide Next, Inv, Told, EndingCall, WorkSince, StepsSince, ParentSince, DeliverySince, Extends;
    OtherWork(s, call);
    NextSince(s, call);
    MoreClaimsTold(s, Next(s, call));
  }

  lemma MoreClaimsTold(s: Store, s': Store)
    requires Told(s) && s'.work == s.work
    requires Extends(s.claims.packets, s'.claims.packets) && Extends(s.claims.leases, s'.claims.leases)
    ensures Told(s')
  {
    hide ResultMatches, AllowedCode, Tells;
  }

  lemma NextTold(s: Store, call: Call)
    requires Inv(s) && Told(s)
    ensures Told(Next(s, call))
  {
    hide Inv, Told, BeginExecution, TerminalizePreExecution, RecordExecutionFailure, RecordExecution, FailureGuard,
         EffectGuard, PersistTerminal, OwnersAfterFailure;
    match call
    case BeginCall(p, l) => BeginTold(s, p, l);
    case PreExecutionCall(p, l, code, detail) => PreExecutionTold(s, p, l, code, detail);
    case FailureCall(p, l, code, detail, observed, origin) => FailureTold(s, p, l, code, detail, observed, origin);
    case ReconcileFailureCall(p, l, r) => if FailureGuard(s, p, l, r).Accepted? { ReconcileFailureTold(s, p, l, r); }
    case ResultCall(p, l, result) => ExecutionTold(s, p, l, result);
    case ReconcileEffectCall(p, l, r) => if EffectGuard(s, p, l, r).Accepted? { ReconcileEffectTold(s, p, l, r); }
    case _ => hide Next; OtherTold(s, call);
  }

  lemma {:induction false} RunTold(s: Store, calls: seq<Call>)
    requires Inv(s) && Told(s)
    ensures Told(Run(s, calls))
    decreases calls
  {
    hide Inv, Told, Next;
    if calls != [] {
      NextTold(s, calls[0]);
      NextKeepsInv(s, calls[0]);
      RunTold(Next(s, calls[0]), calls[1..]);
    }
  }

  /** In every reachable store each receipt tells how its packet ended: blocked exactly when it was never started,
      succeeded exactly when it has a settled attempt and then with that attempt's effect, output and predicate, and
      otherwise failed with the code and origin of its recorded failure. */
  lemma ReceiptsTell(s: Store, p: Digest)
    requires Reachable(s) && p in s.work.receiptOf
    ensures Tells(s.work, p, s.work.receiptOf[p].body)
    ensures s.work.receiptOf[p].body.status.Failed? <==> p in s.work.started && !SettledAttempt(s.work, p)
  {
    hide Inv, Run;
    var calls :| Run(EMPTY, calls) == s;
    InvInit();
    ToldInit();
    RunTold(EMPTY, calls);
  }

  /** In every reachable store attempts and failures are bound to their packet, lease and executor. */
  lemma RecordsBound(s: Store)
    requires Reachable(s)
    ensures RecordsBind(s.work, s.claims.packets, s.claims.leases)
  {
    hide Inv, Run;
    var calls :| Run(EMPTY, calls) == s;
    InvInit();
    ToldInit();
    RunTold(EMPTY, calls);
  }

  // ----- receipts against the calls that wrote them ----------------------------------------------

  /** The call ends its packet in store `s` with this receipt; the settlement proof is what the call handed in. */
  ghost predicate Writes(s: Store, call: Call, r: ReceiptBody) {
    && r.packetId !in s.work.receiptOf
    && match call
       case PreExecutionCall(packet, _, code, detail) =>
         && packet.packetId == r.packetId && r.status.Blocked? && r.effectId.None? && r.settlementProof.None?
         && r.outputDigest == PreExecutionDigest(code, detail) && r.failure == Some((code, FromHarness))
       case ResultCall(packet, _, result) =>
         && packet.packetId == r.packetId && r.status.Succeeded? && result.effectState.Settled?
         && r.effectId == Some(result.effectId) && r.outputDigest == result.outputDigest
         && r.settlementProof == Some(result.outputDigest)
         && r.predicateSatisfied == result.predicateSatisfied && r.failure.None?
       case ReconcileEffectCall(packet, _, reconciliation) =>
         && packet.packetId == r.packetId && r.status.Succeeded? && r.packetId in s.work.attempts
         && var attempt := s.work.attempts[r.packetId];
         && attempt.effectState.Unsettled? && r.effectId == Some(attempt.effectId) == Some(reconciliation.effectId)
         && r.outputDigest == attempt.outputDigest && r.settlementProof == Some(reconciliation.proofDigest)
         && r.predicateSatisfied == attempt.predicateSatisfied && r.failure.None?
       case ReconcileFailureCall(packet, _, reconciliation) =>
         && packet.packetId == r.packetId && r.status.Failed? && r.packetId in s.work.failures
         && var failure := s.work.failures[r.packetId].body;
         && reconciliation.failureCode == failure.failureCode
         && r.failure == Some((failure.failureCode, failure.origin))
         && r.effectState == reconciliation.effectState && r.effectId == reconciliation.effectId
         && r.outputDigest == reconciliation.outputDigest && r.settlementProof == Some(reconciliation.proofDigest)
         && !r.predicateSatisfied
       case _ => false
  }

  lemma EndingWrites(s: Store, call: Call, p: Digest)
    requires p !in s.work.receiptOf && p in Next(s, call).work.receiptOf && EndingCall(call)
    ensures Accepts(s, call) && Writes(s, call, Next(s, call).work.receiptOf[p].body)
  {
    hide HoldsLease, HasOpenStep, ExecutorCode, ReconcilableCode, Blank, OwnersAfterFailure, ResultMatches;
  }

  lemma NextWrites(s: Store, call: Call, p: Digest)
    requires p !in s.work.receiptOf && p in Next(s, call).work.receiptOf
    ensures Accepts(s, call) && Writes(s, call, Next(s, call).work.receiptOf[p].body)
  {
    if EndingCall(call) {
      hide Next, Accepts, Writes;
      EndingWrites(s, call, p);
    } else if call.BeginCall? {
      hide ValidateClaim;
    } else {
      hide Next;
      OtherWork(s, call);
    }
  }

  /** A result that is accepted ends its packet with a receipt of that result. */
  lemma ResultWrites(s: Store, packet: TaskPacket, lease: Lease, result: ExecutionResult)
    requires RecordExecution(s, packet, lease, result).1.Accepted?
    ensures Writes(s, ResultCall(packet, lease, result), RecordExecution(s, packet, lease, result).1.value.body)
  {
    hide HoldsLease, HasOpenStep, ExecutorCode, ReconcilableCode, Blank, ResultMatches;
  }

  /** Over every run each receipt was written by one accepted call, and says what that call handed in. */
  lemma {:induction false} ReceiptWritten(calls: seq<Call>, p: Digest) returns (i: nat)
    requires p in Before(calls, |calls|).work.receiptOf
    ensures i < |calls| && AcceptedAt(calls, i)
    ensures Writes(Before(calls, i), calls[i], Before(calls, |calls|).work.receiptOf[p].body)
    ensures forall j :: 0 <= j < |calls| ==> (p in Before(calls, j).work.receiptOf <==> i < j)
  {
    hide Run, Inv, Next, Accepts, Apply, Writes, ClaimsSince, StepsSince, ParentSince, DeliverySince;
    i := 0;
    EmptyRun(calls);
    while p !in Before(calls, i + 1).work.receiptOf
      invariant i < |calls| && p !in Before(calls, i).work.receiptOf
      decreases |calls| - i
    {
      i := i + 1;
    }
    RunStep(EMPTY, calls, i);
    NextWrites(Before(calls, i), calls[i], p);
    BeforeSince(calls, i + 1, |calls|);
    forall j | 0 <= j < |calls| ensures p in Before(calls, j).work.receiptOf <==> i < j {
      if j <= i { BeforeSince(calls, j, i); } else { BeforeSince(calls, i + 1, j); }
    }
  }

  lemma EmptyRun(calls: seq<Call>)
    ensures Before(calls, 0) == EMPTY
  {
    hide Next;
  }
}
