/**
 Immutable records of the collaboration cycle. SHA-256 over canonical public data is
 modelled as a free, hence injective, datatype: an identity *is* the payload it was
 computed from, and a record may still carry an identity that does not match its body.
 */
module Records {

  datatype Option<+T> = None | Some(value: T)

  function Get<K, V>(m: map<K, V>, k: K): (r: Option<V>)
    ensures r.Some? <==> k in m
    ensures r.Some? ==> r.value == m[k]
  {
    if k in m then Some(m[k]) else None
  }

  function GetOr<K, V>(m: map<K, V>, k: K, default: V): V {
    if k in m then m[k] else default
  }

  datatype EffectState = NoEffect | Settled | Unsettled
  datatype ContinuationState = Prepared | DeliveryStarted | DeliveryUnsettled | Acknowledged
  datatype TerminalStatus = Succeeded | Blocked | Failed
  datatype NextAction = RouteSelection | ReadbackRecheck | MissionComplete
  datatype Truth = Satisfied | Unsatisfied | Indeterminate
  datatype DispositionState = Abandoned | RouteBlocked | Exhausted
  datatype SupersessionState = Obsolete | Adopted
  datatype BlockerClass = Diagnostic | PlanGap | CapabilityGap | StateConflict | EffectUncertainty
                        | PolicyAuthority | MissionAmbiguity
  datatype RetrySafety = SafeLocal | ReconciliationOnly | Escalate
  datatype EffectClass = ReadOnly | ReversibleLocal | IrreversibleLocal | External
  datatype AdmissionState = Admitted | Escalated | Duplicate
  datatype FailureOrigin = FromExecutor | FromHarness
  datatype DeliveryVerdict = NotDelivered | Committed

  datatype FailureCode =
    | StaleIdentity | DuplicateOrReplay | UnsettledEffect | LeaseConflict | CasMismatch
    | CallbackTargetMismatch | ConvergenceNotProven | ReplayIdentityConflict | ExecutorError
    | CallbackDeliveryUnsettled | ReadbackIndeterminate | InvalidFailureCode
    | MissionIsComplete | NoRoute

  datatype Reason =
    | ScopeExpansion | AuthorityExpansion | RetryNotSafeLocal | BlockerRequiresParentAuthority
    | StepEffectUnsettled | VerificationPlanRequired | ActionGraphRequired | NewProtectedEffect
    | PredicateMismatch | ExpectedDeltaMismatch | DestinationMismatch | RecoveryBudgetExhausted
    | DuplicateFingerprint

  /** A store call returns a value, raises a typed violation, or dies on an untyped error
      (a missing key, an exhausted iterator, a bad argument). */
  datatype Outcome<+T> = Accepted(value: T) | Rejected(code: FailureCode) | Crashed {
    function Fail<U>(): Outcome<U>
      requires !Accepted?
    {
      if Crashed? then Crashed else Rejected(code)
    }
  }

  datatype Digest =
    | FreeText(text: string)
    | PacketDigest(packet: PacketBody)
    | LeaseDigest(leasePacket: Digest, leaseVersions: seq<(string, int)>)
    | StepDigest(step: StepBody)
    | StepReconciliationDigest(stepReconciliation: StepReconciliationBody)
    | BlockerDigest(blocker: BlockerBody)
    | ActionDigest(action: ActionBody)
    | ActionGraphDigest(graph: seq<RecoveryAction>)
    | ProposalDigest(proposal: ProposalBody, actionFingerprint: Digest)
    | FingerprintDigest(blockerId: Digest, stateDigest: string, graphFingerprint: Digest)
    | AdmissionDigest(admission: AdmissionBody)
    | FailureDigest(failure: FailureBody)
    | ReceiptDigest(receipt: ReceiptBody)
    | ContinuationDigest(receiptId: Digest, destination: Destination)
    | TurnRequestDigest(continuationId: Digest, turnReceiptId: Digest, turnDestination: Destination)
    | AbsenceDigest(absence: AbsenceBody)
    | ConvergenceDigest(convergence: ConvergenceBody)
    | CanonicalProof(proof: DeliveryProof)
    | AckDigest(kind: AckKind, ack: AckBody)
    | ReadbackDigest(readback: ReadbackBody)
    | VerificationDigest(verification: VerificationBody)
    | DispositionDigest(disposition: DispositionBody)
    | SupersessionDigest(supersession: SupersessionBody)
    | PreExecutionDigest(code: FailureCode, detail: string)
    | ResultMismatchDigest(mismatchPacket: Digest, mismatchLease: Digest)
    | DuplicateEffectDigest(effectId: string, owner: Digest)
    | SignalMismatchDigest(sourceDetail: Digest)
    | ExecutorViolationDigest(sourceCode: FailureCode, violation: string)
    | ExecutorExceptionDigest(errorType: string, message: string)
    | MalformedResultDigest(resultType: string)

  datatype AckKind = WholeAck | CallbackAck | ReceiptAck | ContinuationAck

  datatype Destination = Destination(coordinatorId: string, threadId: string)
  datatype ExitPredicate = ExitPredicate(key: string, satisfied: bool)
  datatype Route = Route(routeId: string, predicateKey: string, executorId: string, scope: seq<string>,
                         expectedDelta: string, abandonIf: string, rank: nat, recoveryBudget: nat)
  datatype MissionRecord = MissionRecord(missionId: string, revision: int, mode: string,
                                         predicates: seq<ExitPredicate>, routes: seq<Route>,
                                         destination: Destination)

  predicate Unique<T(==)>(items: seq<T>) {
    forall i, j :: 0 <= i < j < |items| ==> items[i] != items[j]
  }

  function Keys(predicates: seq<ExitPredicate>): (r: seq<string>)
    ensures |r| == |predicates|
    ensures forall i :: 0 <= i < |r| ==> r[i] == predicates[i].key
  {
    seq(|predicates|, i requires 0 <= i < |predicates| => predicates[i].key)
  }

  /** What constructing a mission record enforces. */
  predicate WellFormedMission(m: MissionRecord) {
    && m.revision >= 1
    && |m.predicates| > 0
    && Unique(Keys(m.predicates))
    && (forall i, j :: 0 <= i < j < |m.routes| ==> m.routes[i].routeId != m.routes[j].routeId)
    && (forall r :: r in m.routes ==> r.predicateKey in Keys(m.predicates))
    && (forall r :: r in m.routes ==> |r.scope| > 0 && Unique(r.scope))
  }

  type Mission = m: MissionRecord | WellFormedMission(m)
    witness MissionRecord("m", 1, "mode", [ExitPredicate("k", false)], [], Destination("c", "t"))

  datatype PacketBody = PacketBody(missionId: string, missionRevision: int, missionMode: string,
                                   predicateKey: string, routeId: string, executorId: string,
                                   scope: seq<string>, scopeVersions: seq<(string, int)>,
                                   expectedDelta: string, abandonIf: string, recoveryBudget: nat,
                                   destination: Destination, context: Option<string>)
  datatype TaskPacket = TaskPacket(packetId: Digest, body: PacketBody)
  datatype Lease = Lease(leaseId: Digest, packetId: Digest, scope: seq<string>,
                         scopeVersions: seq<(string, int)>)

  datatype RecoveryBinding = RecoveryBinding(parentStepId: Digest, admissionId: Digest, actionId: Digest)
  datatype StepBody = StepBody(packetId: Digest, leaseId: Digest, operationDigest: string, toolId: string,
                               preconditionDigest: string, effectClass: EffectClass,
                               effectId: Option<string>, effectState: EffectState,
                               resultDigest: string, recovery: Option<RecoveryBinding>)
  datatype StepRecord = StepRecord(stepId: Digest, body: StepBody)
  predicate WellFormedStep(s: StepRecord) {
    && (s.body.effectClass.ReadOnly? ==> s.body.effectState.NoEffect?)
    && (s.body.effectState.NoEffect? <==> s.body.effectId.None?)
  }
  type StepAttempt = s: StepRecord | WellFormedStep(s)
    witness StepRecord(FreeText("s"), StepBody(FreeText("p"), FreeText("l"), "o", "t", "c", ReadOnly, None, NoEffect,
                                               "r", None))

  datatype StepReconciliationBody = StepReconciliationBody(packetId: Digest, leaseId: Digest, stepId: Digest,
                                                           effectId: string, effectState: EffectState,
                                                           proofDigest: string)
  datatype StepReconciliationRecord = StepReconciliationRecord(reconciliationId: Digest, body: StepReconciliationBody)
  type StepReconciliation = r: StepReconciliationRecord | !r.body.effectState.Unsettled?
    witness StepReconciliationRecord(FreeText("r"),
                                     StepReconciliationBody(FreeText("p"), FreeText("l"), FreeText("s"), "e",
                                                            NoEffect, "d"))

  datatype BlockerBody = BlockerBody(missionId: string, missionRevision: int, packetId: Digest, leaseId: Digest,
                                     stepId: Option<Digest>, blockerClass: BlockerClass, stateDigest: string,
                                     evidence: string, effectState: EffectState,
                                     observedEffectIds: seq<string>, retrySafety: RetrySafety)
  datatype BlockerReport = BlockerReport(blockerId: Digest, body: BlockerBody)

  datatype ActionBody = ActionBody(actionKind: string, scope: seq<string>, effectClass: EffectClass,
                                   operationDigest: string)
  datatype RecoveryAction = RecoveryAction(actionId: Digest, body: ActionBody)
  datatype ProposalBody = ProposalBody(blockerId: Digest, packetId: Digest, leaseId: Digest,
                                       predicateKey: string, expectedDelta: string, destination: Destination,
                                       actionGraph: seq<RecoveryAction>, requiredScope: seq<string>,
                                       authorityDelta: int, verificationPlan: seq<string>, budget: int)
  datatype RecoveryProposal = RecoveryProposal(proposalId: Digest, actionFingerprint: Digest, body: ProposalBody)
  datatype AdmissionBody = AdmissionBody(proposalId: Digest, blockerId: Digest, packetId: Digest, leaseId: Digest,
                                         state: AdmissionState, reasons: seq<Reason>,
                                         recoveryFingerprint: Digest)
  datatype RecoveryAdmission = RecoveryAdmission(admissionId: Digest, body: AdmissionBody)

  datatype ResultRecord = ResultRecord(executorId: string, packetId: Digest, leaseId: Digest,
                                       effectId: string, effectState: EffectState,
                                       outputDigest: Digest, predicateSatisfied: bool)
  type ExecutionResult = r: ResultRecord | !r.effectState.NoEffect?
    witness ResultRecord("x", FreeText("p"), FreeText("l"), "e", Settled, FreeText("o"), false)
  datatype EffectReconciliation = EffectReconciliation(packetId: Digest, leaseId: Digest, effectId: string,
                                                       effectState: EffectState, proofDigest: Digest)
  datatype FailureBody = FailureBody(packetId: Digest, leaseId: Digest, failureCode: FailureCode,
                                     detailDigest: Digest, observedEffectId: Option<string>,
                                     origin: FailureOrigin)
  datatype ExecutionFailure = ExecutionFailure(failureId: Digest, body: FailureBody)
  datatype FailureReconciliationRecord =
    FailureReconciliationRecord(packetId: Digest, leaseId: Digest, failureCode: FailureCode,
                                effectState: EffectState, effectId: Option<string>,
                                proofDigest: Digest, outputDigest: Digest)
  type FailureReconciliation = r: FailureReconciliationRecord |
    && !r.effectState.Unsettled?
    && (r.effectState.Settled? <==> r.effectId.Some?)
    witness FailureReconciliationRecord(FreeText("p"), FreeText("l"), ExecutorError, NoEffect, None, FreeText("d"),
                                        FreeText("o"))

  datatype ReceiptBody = ReceiptBody(missionId: string, missionRevision: int, packetId: Digest, leaseId: Digest,
                                     executorId: string, status: TerminalStatus, effectId: Option<string>,
                                     effectState: EffectState, outputDigest: Digest,
                                     settlementProof: Option<Digest>, predicateSatisfied: bool,
                                     failure: Option<(FailureCode, FailureOrigin)>)
  datatype TerminalReceipt = TerminalReceipt(receiptId: Digest, body: ReceiptBody)

  datatype Continuation = Continuation(continuationId: Digest, receiptId: Digest, destination: Destination,
                                       turnRequestId: Digest, state: ContinuationState)
  datatype ContinuationReconciliation =
    ContinuationReconciliation(continuationId: Digest, receiptId: Digest, turnRequestId: Digest,
                               verdict: DeliveryVerdict, proofDigest: Digest)
  datatype AbsenceBody = AbsenceBody(continuationId: Digest, receiptId: Digest, destination: Destination,
                                     turnRequestId: Digest, authoritySource: string, evidenceDigest: string)
  datatype ConvergenceBody = ConvergenceBody(continuationId: Digest, receiptId: Digest, destination: Destination,
                                             turnRequestId: Digest, completedTurnId: string, completed: bool)
  datatype AbsenceProof = AbsenceProof(proofId: Digest, body: AbsenceBody)
  datatype ConvergenceProof = ConvergenceProof(proofId: Digest, body: ConvergenceBody)
  datatype DeliveryProof = OfAbsence(absence: AbsenceProof) | OfConvergence(convergence: ConvergenceProof)
  datatype ResumeProof = ResumeProof(continuationId: Digest, destination: Destination, resumeToken: string)
  datatype AckBody = AckBody(packetId: Digest, receiptId: Digest, continuationId: Digest, proofId: Digest)
  datatype Acknowledgement = Acknowledgement(ackId: Digest, body: AckBody, callbackAckId: Digest,
                                             receiptAckId: Digest, continuationAckId: Digest)

  datatype PredicateReadback = PredicateReadback(predicateKey: string, truth: Truth, evidenceDigest: string)
  datatype ReadbackBody = ReadbackBody(missionId: string, missionRevision: int, parentRevision: string,
                                       parentSequence: nat, predicates: seq<PredicateReadback>,
                                       evidenceDigest: string)
  datatype MissionReadback = MissionReadback(readbackId: Digest, body: ReadbackBody)
  datatype VerificationBody = VerificationBody(missionId: string, missionRevision: int, parentRevision: string,
                                               parentSequence: nat, predicateKey: string, predicateTruth: Truth,
                                               nextPredicateKey: Option<string>, nextAction: NextAction,
                                               ackId: Digest, readbackId: Digest, evidenceDigest: string)
  datatype MissionVerification = MissionVerification(verificationId: Digest, body: VerificationBody)

  datatype DispositionBody = DispositionBody(missionId: string, missionRevision: int, predicateKey: string,
                                             routeId: string, state: DispositionState, evidenceDigest: string)
  datatype RouteDisposition = RouteDisposition(dispositionId: Digest, body: DispositionBody)
  datatype SupersessionBody = SupersessionBody(missionId: string, supersededRevision: int,
                                               supersedingRevision: int, ackId: Digest, receiptId: Digest,
                                               state: SupersessionState, evidenceDigest: string)
  datatype MissionSupersession = MissionSupersession(dispositionId: Digest, body: SupersessionBody)

  /** `verify_identity`, one clause per record kind. */
  predicate PacketIdentity(p: TaskPacket) { p.packetId == PacketDigest(p.body) }
  predicate StepIdentity(s: StepRecord) { s.stepId == StepDigest(s.body) }
  predicate StepReconciliationIdentity(r: StepReconciliationRecord) {
    r.reconciliationId == StepReconciliationDigest(r.body)
  }
  predicate BlockerIdentity(b: BlockerReport) { b.blockerId == BlockerDigest(b.body) }
  predicate ActionIdentity(a: RecoveryAction) { a.actionId == ActionDigest(a.body) }
  predicate ProposalIdentity(p: RecoveryProposal) {
    && p.actionFingerprint == ActionGraphDigest(p.body.actionGraph)
    && p.proposalId == ProposalDigest(p.body, p.actionFingerprint)
    && (forall a :: a in p.body.actionGraph ==> ActionIdentity(a))
  }
  predicate ReceiptIdentity(r: TerminalReceipt) { r.receiptId == ReceiptDigest(r.body) }
  predicate AbsenceIdentity(p: AbsenceProof) { p.proofId == AbsenceDigest(p.body) }
  predicate ConvergenceIdentity(p: ConvergenceProof) { p.proofId == ConvergenceDigest(p.body) }
  predicate ReadbackIdentity(r: MissionReadback) { r.readbackId == ReadbackDigest(r.body) }
  predicate DispositionIdentity(d: RouteDisposition) { d.dispositionId == DispositionDigest(d.body) }
  predicate SupersessionIdentity(d: MissionSupersession) { d.dispositionId == SupersessionDigest(d.body) }
  function SealAck(body: AckBody): Acknowledgement {
    Acknowledgement(AckDigest(WholeAck, body), body, AckDigest(CallbackAck, body),
                    AckDigest(ReceiptAck, body), AckDigest(ContinuationAck, body))
  }
  predicate AckIdentity(a: Acknowledgement) { a == SealAck(a.body) }

  predicate Whitespace(c: char) {
    var n := c as int;
    || 9 <= n <= 13 || 28 <= n <= 32 || n == 0x85 || n == 0xA0 || n == 0x1680 || 0x2000 <= n <= 0x200A
    || n == 0x2028 || n == 0x2029 || n == 0x202F || n == 0x205F || n == 0x3000
  }

  /** `not text.strip()`. */
  predicate Blank(text: string) {
    forall c :: c in text ==> Whitespace(c)
  }

  predicate ExecutorCode(code: FailureCode) {
    code in {StaleIdentity, UnsettledEffect, CasMismatch, ExecutorError, InvalidFailureCode}
  }

  /** What a structured executor failure signal can carry. */
  predicate WellFormedSignal(f: ExecutionFailure) {
    && (if f.body.origin.FromExecutor? then ExecutorCode(f.body.failureCode) else ReconcilableCode(f.body.failureCode))
    && !(f.body.detailDigest.FreeText? && Blank(f.body.detailDigest.text))
  }

  predicate ReconcilableCode(code: FailureCode) {
    code !in {CallbackDeliveryUnsettled, ConvergenceNotProven, ReadbackIndeterminate, MissionIsComplete, NoRoute}
  }
}
