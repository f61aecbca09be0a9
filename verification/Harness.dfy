/**
 The orchestrator over the shared store. Executors and transports are inputs: what they return or raise. No lock
 is held while they run, so any calls that others make meanwhile are inputs too, and nothing is assumed of them.
 */
module Harness {
  import opened Records
  import opened StoreSpec
  import opened StoreInvariant
  import opened StorePreservation
  import opened StoreRuns
  import opened ReferenceStore

  // ----- route selection -------------------------------------------------------------------

  /** Python's order on strings: by code point, a proper prefix first. */
  predicate StringLess(a: string, b: string) {
    b != [] && (a == [] || a[0] < b[0] || (a[0] == b[0] && StringLess(a[1..], b[1..])))
  }

  predicate Outranks(a: Route, b: Route) {
    a.rank < b.rank || (a.rank == b.rank && StringLess(a.routeId, b.routeId))
  }

  lemma {:induction false} StringsOrdered(a: string, b: string)
    ensures a != b ==> StringLess(a, b) || StringLess(b, a)
    decreases |a|
  {
    if a != [] && b != [] && a[0] == b[0] {
      StringsOrdered(a[1..], b[1..]);
      assert a == [a[0]] + a[1..] && b == [b[0]] + b[1..];
    }
  }

  lemma {:induction false} StringsTransitive(a: string, b: string, c: string)
    requires StringLess(a, b) && StringLess(b, c)
    ensures StringLess(a, c)
    decreases |a|
  {
    if a != [] && a[0] == b[0] && b[0] == c[0] {
      StringsTransitive(a[1..], b[1..], c[1..]);
    }
  }

  ghost predicate Candidate(t: ParentTable, mission: Mission, key: string, route: Route) {
    && route in mission.routes && route.predicateKey == key
    && (mission.missionId, mission.revision, route.routeId) !in t.dispositions
  }

  /** The best-ranked route that is still open for the predicate. */
  ghost predicate Selected(t: ParentTable, mission: Mission, key: string, route: Route) {
    && Candidate(t, mission, key, route)
    && forall other :: Candidate(t, mission, key, other) && other != route ==> Outranks(route, other)
  }

  function PacketFor(versions: map<string, int>, mission: Mission, key: string, route: Route, context: Option<string>)
    : TaskPacket
  {
    var body := PacketBody(mission.missionId, mission.revision, mission.mode, key, route.routeId, route.executorId,
                           route.scope,
                           ScopeSnapshot(versions, route.scope), route.expectedDelta, route.abandonIf,
                           route.recoveryBudget,
                           mission.destination, context);
    TaskPacket(PacketDigest(body), body)
  }

  /** What planning must return in a store where the mission is registered. */
  ghost predicate Plans(s: Store, mission: Mission, context: Option<string>, r: Outcome<TaskPacket>) {
    var first := FirstFalse(s.parent.snapshots, mission);
    if !first.Accepted? then r == first.Fail()
    else if first.value.None? then r == Rejected(MissionIsComplete)
    else
      var key := first.value.value.key;
      if r.Accepted? then exists route :: Selected(s.parent, mission, key, route)
                                          && r.value == PacketFor(s.claims.versions, mission, key, route, context)
      else r == Rejected(NoRoute) && forall route :: !Candidate(s.parent, mission, key, route)
  }

  /** Whatever others call before each of the planner's questions about a route. */
  type Interference = nat -> seq<Call>

  /** The store after the first `n` interferences. */
  ghost function After(s: Store, others: Interference, n: nat): Store {
    if n == 0 then s else Run(After(s, others, n - 1), others(n - 1))
  }

  /** Route `i` was open when the planner asked about it. */
  ghost predicate FoundOpen(s: Store, others: Interference, mission: Mission, key: string, i: nat) {
    i < |mission.routes| && Candidate(After(s, others, i + 1).parent, mission, key, mission.routes[i])
  }

  /** The best-ranked of the first `n` routes that were found open, each in its own store. */
  ghost predicate Best(s: Store, others: Interference, mission: Mission, key: string, n: nat, i: nat) {
    && i < n <= |mission.routes| && FoundOpen(s, others, mission, key, i)
    && forall j: nat :: j < n && j != i && FoundOpen(s, others, mission, key, j) ==>
      Outranks(mission.routes[i], mission.routes[j])
  }

  ghost predicate NoneOpen(s: Store, others: Interference, mission: Mission, key: string, n: nat) {
    forall j: nat :: j < n ==> !FoundOpen(s, others, mission, key, j)
  }

  /** The same when others call between the reads: predicate, routes and versions come from their own stores. */
  ghost predicate PlansAcross(scanned: Store, others: Interference, versioned: Store, mission: Mission,
                              context: Option<string>, r: Outcome<TaskPacket>)
  {
    var first := FirstFalse(scanned.parent.snapshots, mission);
    if !first.Accepted? then r == first.Fail()
    else if first.value.None? then r == Rejected(MissionIsComplete)
    else
      var key := first.value.value.key;
      if r.Accepted? then PlannedFor(scanned, others, versioned.claims.versions, mission, key, context, r.value)
      else r == Rejected(NoRoute) && NoneOpen(scanned, others, mission, key, |mission.routes|)
  }

  ghost predicate PlannedFor(s: Store, others: Interference, versions: map<string, int>, mission: Mission, key: string,
                             context: Option<string>, packet: TaskPacket)
  {
    exists i: nat :: && Best(s, others, mission, key, |mission.routes|, i)
                     && packet == PacketFor(versions, mission, key, mission.routes[i], context)
  }

  /** The packet is for the first open predicate. */
  ghost predicate TargetsFirst(snapshots: map<(string, int), MissionReadback>, mission: Mission, packet: TaskPacket) {
    exists i: nat :: OpenFirst(snapshots, mission, i) && packet.body.predicateKey == mission.predicates[i].key
  }

  // ----- execution -------------------------------------------------------------------------

  type Signal = f: ExecutionFailure | WellFormedSignal(f)
    witness ExecutionFailure(FreeText("f"),
                             FailureBody(FreeText("p"), FreeText("l"), ExecutorError,
                                         ResultMismatchDigest(FreeText("p"), FreeText("l")), None, FromExecutor))

  /** What running an executor once comes to. */
  datatype Response =
    | Returned(result: ExecutionResult)
    | Malformed(resultType: string)
    | Signalled(failure: Signal)
    | Violated(code: FailureCode, detail: string)
    | Raised(errorType: string, message: string)

  /** The packet's one execution left a result, a failure or a receipt behind. */
  predicate Accounted(t: WorkTable, p: Digest) {
    p in t.attempts || p in t.failures || p in t.receiptOf
  }

  /** The two responses the store refuses without recording anything: a result while a step effect is open, and a
      bound signal whose code an executor may not report. */
  predicate Dropped(s: Store, packet: TaskPacket, lease: Lease, response: Response) {
    || (response.Returned? && HasOpenStep(s.trail, packet.packetId))
    || (response.Signalled? && SignalBinds(packet, lease, response.failure)
        && !ExecutorCode(response.failure.body.failureCode))
  }

  predicate SignalBinds(packet: TaskPacket, lease: Lease, failure: ExecutionFailure) {
    failure.body.packetId == packet.packetId && failure.body.leaseId == lease.leaseId
  }

  /** A recorded failure says what the executor did: which code it reported, in whose words, and on whose behalf. */
  predicate Explains(packet: TaskPacket, lease: Lease, response: Response, f: FailureBody) {
    && f.packetId == packet.packetId && f.leaseId == lease.leaseId
    && match response
       case Returned(result) =>
         && f.origin.FromHarness? && f.observedEffectId == Some(result.effectId)
         && (if ResultMatches(packet, lease, result) then
               && f.failureCode.DuplicateOrReplay? && f.detailDigest.DuplicateEffectDigest?
               && f.detailDigest.effectId == result.effectId
             else
               && f.failureCode.StaleIdentity?
               && f.detailDigest == ResultMismatchDigest(packet.packetId, lease.leaseId))
       case Signalled(signal) =>
         && f.origin.FromExecutor? && f.observedEffectId == signal.body.observedEffectId
         && (SignalBinds(packet, lease, signal) ==>
               f.failureCode == signal.body.failureCode && f.detailDigest == signal.body.detailDigest)
         && (!SignalBinds(packet, lease, signal) ==>
               f.failureCode.StaleIdentity? && f.detailDigest == SignalMismatchDigest(signal.body.detailDigest))
       case Violated(code, detail) =>
         && f.origin.FromExecutor? && f.observedEffectId.None?
         && f.detailDigest == ExecutorViolationDigest(code, detail)
         && (f.failureCode == code <==>
               code in {StaleIdentity, UnsettledEffect, CasMismatch, ExecutorError, InvalidFailureCode})
         && (f.failureCode != code ==> f.failureCode.InvalidFailureCode?)
       case Raised(errorType, message) =>
         && f.origin.FromExecutor? && f.observedEffectId.None? && f.failureCode.ExecutorError?
         && f.detailDigest == ExecutorExceptionDigest(errorType, message)
       case Malformed(resultType) =>
         && f.origin.FromHarness? && f.observedEffectId.None? && f.failureCode.ExecutorError?
         && f.detailDigest == MalformedResultDigest(resultType)
  }

  const MISMATCH := "selected executor does not match the bounded route"

  /** What is recorded once the executor answered in store `s`. */
  function Answered(s: Store, packet: TaskPacket, lease: Lease, response: Response): (Store, Outcome<TerminalReceipt>) {
    if response.Returned? then RecordExecution(s, packet, lease, response.result)
    else
      var p := ReportOf(packet, lease, response);
      var r := RecordExecutionFailure(s, packet, lease, p.code, p.detail, p.observed, p.origin);
      (r.0, if r.1.Accepted? then Rejected(p.code) else r.1.Fail())
  }

  /** One call of the orchestrator: an early rejection ends the packet without running the executor. */
  function Executed(s: Store, packet: TaskPacket, lease: Lease, executorId: string, response: Response,
                    meanwhile: seq<Call>)
    : (Store, Outcome<TerminalReceipt>)
  {
    var begun := BeginExecution(s, packet, lease);
    if executorId != packet.body.executorId then TerminalizePreExecution(s, packet, lease, StaleIdentity, MISMATCH)
    else if begun.1 == Rejected(StaleIdentity) then TerminalizePreExecution(s, packet, lease, StaleIdentity, "")
    else if !begun.1.Accepted? then (s, begun.1.Fail())
    else Answered(Run(begun.0, meanwhile), packet, lease, response)
  }

  /** The end of a delivery that was started: acknowledged, or marked as unsettled. */
  function Turned(s: Store, c: Continuation, receipt: TerminalReceipt, turn: Option<ConvergenceProof>)
    : (Store, Outcome<Acknowledgement>)
  {
    var acked := if turn.Some? then AcknowledgeDelivery(s, c, receipt, turn.value, DeliveryStarted) else (s, Crashed);
    if acked.1.Accepted? then (acked.0, Accepted(acked.1.value.1))
    else
      var marked := MarkDeliveryUnsettled(s, c, receipt);
      (marked.0, if marked.1.Accepted? then Rejected(CallbackDeliveryUnsettled) else marked.1.Fail())
  }

  /** One submission of a prepared continuation, and whether its delivery was started. */
  function Continued(s: Store, c: Continuation, receipt: TerminalReceipt, resume: Option<ResumeProof>,
                     whileResuming: seq<Call>,
                     turn: Option<ConvergenceProof>, whileTurning: seq<Call>): (Store, Outcome<Acknowledgement>, bool)
  {
    var prepared := ValidatePrepared(s, c, receipt);
    if !prepared.Accepted? then (s, prepared.Fail(), false)
    else
      var ready := Run(s, whileResuming);
      var resumed := if resume.Some? then ValidateResume(ready, c, resume.value) else Crashed;
      if !resumed.Accepted? then (ready, resumed.Fail(), false)
      else
        var begun := BeginDelivery(ready, c, receipt);
        if !begun.1.Accepted? then (begun.0, begun.1.Fail(), false)
        else
          var (s', r) := Turned(Run(begun.0, whileTurning), begun.1.value, receipt, turn);
          (s', r, true)
  }

  class CollaborationHarness {
    const store: InMemoryStore

    constructor (s: InMemoryStore)
      ensures store == s
    {
      store := s;
    }

    /** Whatever other holders of the store call while no lock is held. */
    method Others(calls: seq<Call>)
      requires store.Valid()
      modifies store
      ensures store.Valid() && store.Value() == Run(old(store.Value()), calls)
    {
      hide Apply, Inv;
      var i := 0;
      while i < |calls|
        invariant 0 <= i <= |calls| && store.Valid()
        invariant Run(store.Value(), calls[i..]) == Run(old(store.Value()), calls)
      {
        var verdict := store.Perform(calls[i]);
        i := i + 1;
      }
    }

    /** Asks route by route, with calls by others before each question; the best route so far is kept. */
    method SelectRoute(mission: Mission, key: string, others: Interference) returns (best: Option<nat>)
      requires store.Valid()
      modifies store
      ensures store.Valid() && store.Value() == After(old(store.Value()), others, |mission.routes|)
      ensures best.None? ==> NoneOpen(old(store.Value()), others, mission, key, |mission.routes|)
      ensures best.Some? ==> Best(old(store.Value()), others, mission, key, |mission.routes|, best.value)
    {
      hide Inv, Run, Outranks;
      ghost var s := store.Value();
      best := None;
      var i := 0;
      while i < |mission.routes|
        invariant 0 <= i <= |mission.routes| && store.Valid() && store.Value() == After(s, others, i)
        invariant best.None? ==> NoneOpen(s, others, mission, key, i)
        invariant best.Some? ==> Best(s, others, mission, key, i, best.value)
      {
        Others(others(i));
        var route := mission.routes[i];
        var open := route.predicateKey == key && (mission.missionId, mission.revision,
                                                  route.routeId) !in store.parent.dispositions;
        assert open <==> FoundOpen(s, others, mission, key, i);
        if open && (best.None? || Outranks(route, mission.routes[best.value])) {
          NewBest(s, others, mission, key, i, best);
          best := Some(i);
        } else if open {
          DistinctRoutes(mission, route, mission.routes[best.value]);
        }
        i := i + 1;
      }
    }

    /** Registers the mission, scans it, selects a route and reads the versions; others may call in between. */
    method Plan(mission: Mission, context: Option<string>, beforeScan: seq<Call>, others: Interference,
                beforeVersions: seq<Call>)
      returns (r: Outcome<TaskPacket>)
      requires store.Valid()
      modifies store
      ensures store.Valid()
      ensures var registered := RegisterMission(old(store.Value()), mission);
              if !registered.1.Accepted? then r == Rejected(StaleIdentity) && store.Value() == registered.0
              else
                var scanned := Run(registered.0, beforeScan);
                var first := FirstFalse(scanned.parent.snapshots, mission);
                var routed := After(scanned, others, |mission.routes|);
                var versioned := Run(routed, beforeVersions);
                && PlansAcross(scanned, others, versioned, mission, context, r)
                && (r == Rejected(MissionIsComplete) <==> NothingOpen(scanned.parent.snapshots, mission))
                && (r == Rejected(ReadbackIndeterminate) <==> NotRead(scanned.parent.snapshots, mission))
                && (r.Accepted? ==> TargetsFirst(scanned.parent.snapshots, mission, r.value))
                && store.Value() == (if r.Accepted? then versioned
                                     else if r == Rejected(NoRoute) && first.Accepted? then routed
                                     else scanned)
    {
      hide Inv, FirstFalse, Best, NoneOpen, Run, After, OpenFirst, NothingOpen, NotRead;
      var registered := store.RegisterMission(mission);
      if !registered.Accepted? { return registered.Fail(); }
      Others(beforeScan);
      var first := store.FirstFalse(mission);
      if !first.Accepted? { return first.Fail(); }
      if first.value.None? { return Rejected(MissionIsComplete); }
      ghost var scanned := store.Value();
      var best := SelectRoute(mission, first.value.value.key, others);
      if best.None? { return Rejected(NoRoute); }
      assert best.value < |mission.routes| by { BestWithin(scanned, others, mission, first.value.value.key,
                                                           |mission.routes|, best.value); }
      Others(beforeVersions);
      return Accepted(PacketFor(store.claims.versions, mission, first.value.value.key, mission.routes[best.value],
                                context));
    }

    /** Runs the executor at most once, only after the start was recorded. Whatever others did meanwhile, the packet is
        afterwards accounted for unless its response was one of the two that the store drops. */
    method Execute(packet: TaskPacket, lease: Lease, executorId: string, response: Response, meanwhile: seq<Call>)
      returns (r: Outcome<TerminalReceipt>, invoked: bool)
      requires store.Valid()
      modifies store
      ensures store.Valid()
      ensures (store.Value(), r) == Executed(old(store.Value()), packet, lease, executorId, response, meanwhile)
      ensures invoked <==> executorId == packet.body.executorId
                           && BeginExecution(old(store.Value()), packet, lease).1.Accepted?
      ensures invoked ==> var before := Run(BeginExecution(old(store.Value()), packet, lease).0, meanwhile);
                (Accounted(store.work, packet.packetId) <==>
                   Accounted(before.work, packet.packetId) || !Dropped(before, packet, lease, response))
      ensures r.Accepted? ==> Get(store.work.receiptOf, packet.packetId) == Some(r.value)
      ensures invoked ==>
                var before := Run(BeginExecution(old(store.Value()), packet, lease).0, meanwhile);
                packet.packetId in store.work.failures && packet.packetId !in before.work.failures ==>
                  Explains(packet, lease, response, store.work.failures[packet.packetId].body)
    {
      hide Inv, Run, HasOpenStep, SignalBinds, Accounted, Explains, BeginExecution, RecordExecution,
           TerminalizePreExecution,
           RecordExecutionFailure;
      if executorId != packet.body.executorId {
        r := store.TerminalizePreExecution(packet, lease, StaleIdentity, MISMATCH);
        PreExecutionReceipt(old(store.Value()), packet, lease, StaleIdentity, MISMATCH);
        return r, false;
      }
      var begun := store.BeginExecution(packet, lease);
      if !begun.Accepted? {
        BeginRejected(old(store.Value()), packet, lease);
        if begun == Rejected(StaleIdentity) {
          r := store.TerminalizePreExecution(packet, lease, StaleIdentity, "");
          PreExecutionReceipt(old(store.Value()), packet, lease, StaleIdentity, "");
          return r, false;
        }
        return begun.Fail(), false;
      }
      ghost var began := store.Value();
      Others(meanwhile);
      ghost var before := store.Value();
      StillStarted(old(store.Value()), packet, lease, meanwhile);
      if response.Returned? {
        r := store.RecordExecution(packet, lease, response.result);
        ResultAccounted(before, packet, lease, response.result);
        AnswerExplained(before, packet, lease, response);
        return r, true;
      }
      var report := ReportOf(packet, lease, response);
      var recorded := store.RecordExecutionFailure(packet, lease, report.code, report.detail, report.observed,
                                                   report.origin);
      FailureAccounted(before, packet, lease, response);
      AnswerExplained(before, packet, lease, response);
      r := if recorded.Accepted? then Rejected(report.code) else recorded.Fail();
      return r, true;
    }

    /** Submits a prepared continuation once. Whatever others do while the transport runs, a delivery this call started
        is never left started, and it is only acknowledged with the stored receipt. */
    method ContinueExisting(c: Continuation, receipt: TerminalReceipt, resume: Option<ResumeProof>,
                            whileResuming: seq<Call>,
                            turn: Option<ConvergenceProof>, whileTurning: seq<Call>)
      returns (r: Outcome<Acknowledgement>, started: bool)
      requires store.Valid()
      modifies store
      ensures store.Valid()
      ensures (store.Value(), r, started) == Continued(old(store.Value()), c, receipt, resume, whileResuming, turn,
                                                       whileTurning)
      ensures started ==> && c.continuationId in store.delivery.continuations
                          && SameButState(c, store.delivery.continuations[c.continuationId])
                          && store.delivery.continuations[c.continuationId].state != DeliveryStarted
      ensures r.Accepted? ==> && started && Get(store.delivery.acks, r.value.ackId) == Some(r.value)
                              && store.delivery.continuations[c.continuationId].state == Acknowledged
                              && Get(store.work.receipts, receipt.receiptId) == Some(receipt)
                              && r.value.body.packetId == receipt.body.packetId
                              && r.value.body.receiptId == receipt.receiptId
    {
      hide Inv, Run, BeginDelivery, AcknowledgeDelivery, MarkDeliveryUnsettled, ValidatePrepared, ValidateResume;
      var prepared := store.ValidatePreparedContinuation(c, receipt);
      if !prepared.Accepted? { return prepared.Fail(), false; }
      Others(whileResuming);
      if resume.None? { return Crashed, false; }
      var resumed := store.ValidateResume(c, resume.value);
      if !resumed.Accepted? { return resumed.Fail(), false; }
      ResumedSame(store.Value(), c, resume.value);
      ghost var ready := store.Value();
      var begun := store.BeginDelivery(c, receipt);
      if !begun.Accepted? { return begun.Fail(), false; }
      BeginFacts(ready, c, receipt);
      ghost var begunStore := store.Value();
      Others(whileTurning);
      ghost var turned := store.Value();
      StillThere(begunStore, begun.value, receipt, whileTurning);
      if turn.Some? {
        var acked := store.AcknowledgeDelivery(begun.value, receipt, turn.value, DeliveryStarted);
        Acked(turned, begun.value, receipt, turn.value);
        if acked.Accepted? { return Accepted(acked.value.1), true; }
      }
      var unsettled := store.MarkDeliveryUnsettled(begun.value, receipt);
      Marked(turned, c, receipt);
      if unsettled.Accepted? { return Rejected(CallbackDeliveryUnsettled), true; }
      return unsettled.Fail(), true;
    }
  }

  datatype Report = Report(code: FailureCode, detail: Digest, observed: Option<string>, origin: FailureOrigin)

  /** The failure the orchestrator records for a response that is not a result. */
  function ReportOf(packet: TaskPacket, lease: Lease, response: Response): Report
    requires !response.Returned?
  {
    match response
    case Signalled(failure) =>
      if SignalBinds(packet, lease, failure)
      then Report(failure.body.failureCode, failure.body.detailDigest, failure.body.observedEffectId, FromExecutor)
      else Report(StaleIdentity, SignalMismatchDigest(failure.body.detailDigest), failure.body.observedEffectId,
                  FromExecutor)
    case Violated(code, detail) =>
      Report(if ExecutorCode(code) then code else InvalidFailureCode, ExecutorViolationDigest(code, detail), None,
             FromExecutor)
    case Raised(errorType, message) =>
      Report(ExecutorError, ExecutorExceptionDigest(errorType, message), None, FromExecutor)
    case Malformed(resultType) => Report(ExecutorError, MalformedResultDigest(resultType), None, FromHarness)
  }

  lemma OutranksTransitive(a: Route, b: Route, c: Route)
    requires Outranks(a, b) && Outranks(b, c)
    ensures Outranks(a, c)
  {
    if a.rank == b.rank && b.rank == c.rank { StringsTransitive(a.routeId, b.routeId, c.routeId); }
  }

  lemma DistinctRoutes(mission: Mission, a: Route, b: Route)
    requires a in mission.routes && b in mission.routes && !Outranks(a, b)
    ensures a != b ==> Outranks(b, a)
  {
    if a.routeId == b.routeId {
      var i :| 0 <= i < |mission.routes| && mission.routes[i] == a;
      var j :| 0 <= j < |mission.routes| && mission.routes[j] == b;
    } else {
      StringsOrdered(a.routeId, b.routeId);
    }
  }

  // ----- planning and claiming -----------------------------------------------------------------

  /** A packet that carries the current versions was never claimed before: whatever happened since it was planned,
      claiming it is rejected by validation, by a lease conflict, or not at all. */
  lemma CurrentVersionsClaim(s: Store, packet: TaskPacket)
    requires Inv(s) && PacketIdentity(packet) && |packet.body.scope| > 0
    requires packet.body.scopeVersions == ScopeSnapshot(s.claims.versions, packet.body.scope)
    ensures packet.packetId !in s.claims.leases
    ensures Claim(s, packet).1 ==
            if !ValidatePacket(s, packet).Accepted? then ValidatePacket(s, packet).Fail()
            else if exists id :: id in s.claims.active
                                 && Overlaps(packet.body.scope, s.claims.active[id].scope) then Rejected(LeaseConflict)
            else Accepted(LeaseFor(packet))
  {
    hide Inv, ValidatePacket, Overlaps, AddClaim, LeaseFor;
    if packet.packetId in s.claims.leases { ClaimedVersionsPassed(s, packet.packetId); }
  }

  lemma BestWithin(s: Store, others: Interference, mission: Mission, key: string, n: nat, i: nat)
    requires Best(s, others, mission, key, n, i)
    ensures i < |mission.routes|
  {
  }

  /** An open route that outranks the best so far outranks all open routes before it. */
  lemma NewBest(s: Store, others: Interference, mission: Mission, key: string, i: nat, best: Option<nat>)
    requires i < |mission.routes| && FoundOpen(s, others, mission, key, i)
    requires best.None? ==> NoneOpen(s, others, mission, key, i)
    requires best.Some? ==> Best(s, others, mission, key, i, best.value)
                            && Outranks(mission.routes[i], mission.routes[best.value])
    ensures Best(s, others, mission, key, i + 1, i)
  {
    hide FoundOpen, Outranks;
    forall j: nat | j < i && FoundOpen(s, others, mission, key, j)
      ensures Outranks(mission.routes[i], mission.routes[j]) {
      if best.Some? && j != best.value {
        OutranksTransitive(mission.routes[i], mission.routes[best.value], mission.routes[j]);
      }
    }
  }

  /** What is planned while others call carries the versions that were read last, so it can be claimed as above. */
  lemma PlannedCarriesVersions(scanned: Store, others: Interference, versioned: Store, mission: Mission,
                               context: Option<string>, packet: TaskPacket)
    requires PlansAcross(scanned, others, versioned, mission, context, Accepted(packet))
    ensures PacketIdentity(packet) && |packet.body.scope| > 0
    ensures packet.body.scopeVersions == ScopeSnapshot(versioned.claims.versions, packet.body.scope)
    ensures packet.body.context == context && RouteMatches(mission, packet.body)
    ensures packet.body.missionId == mission.missionId && packet.body.missionRevision == mission.revision
  {
    hide FirstFalse, Outranks, After;
    var key := FirstFalse(scanned.parent.snapshots, mission).value.value.key;
    var i: nat :| && Best(scanned, others, mission, key, |mission.routes|, i)
                  && packet == PacketFor(versioned.claims.versions, mission, key, mission.routes[i], context);
    RouteFound(mission, mission.routes[i]);
  }

  lemma {:induction false} AfterSince(s: Store, others: Interference, i: nat, n: nat)
    requires Inv(s) && i <= n
    ensures Inv(After(s, others, n)) && Since(After(s, others, i), After(s, others, n))
    decreases n
  {
    hide Inv, ClaimsSince, WorkSince, StepsSince, ParentSince, DeliverySince, Run;
    if n == 0 {
      SinceSame(s);
    } else {
      AfterSince(s, others, if i == n then n - 1 else i, n - 1);
      var before := After(s, others, n - 1);
      RunSince(before, others(n - 1));
      RunKeepsInv(before, others(n - 1));
      if i == n { SinceSame(After(s, others, n)); } else {
        SinceTrans(After(s, others, i), before, After(s, others, n));
      }
    }
  }

  /** Dispositions stay, so every route that is still open once all were asked was considered: the selected route
      outranks it, and without a selected route there is none. */
  lemma StillOpenConsidered(s: Store, others: Interference, mission: Mission, key: string, route: Route)
    requires Inv(s) && Candidate(After(s, others, |mission.routes|).parent, mission, key, route)
    ensures !NoneOpen(s, others, mission, key, |mission.routes|)
    ensures forall i: nat :: Best(s, others, mission, key, |mission.routes|, i) && mission.routes[i] != route ==>
              Outranks(mission.routes[i], route)
  {
    hide Inv, After, Outranks;
    var j: nat :| j < |mission.routes| && mission.routes[j] == route;
    AfterSince(s, others, j + 1, |mission.routes|);
    assert FoundOpen(s, others, mission, key, j);
  }

  /** Planning that nobody interferes with is planning in one store. */
  lemma UndisturbedPlan(s: Store, others: Interference, mission: Mission, context: Option<string>,
                        r: Outcome<TaskPacket>)
    requires PlansAcross(s, others, s, mission, context, r) && forall i: nat :: others(i) == []
    ensures Plans(s, mission, context, r)
  {
    hide FirstFalse, Outranks, PacketFor;
    forall n: nat ensures After(s, others, n) == s { Quiet(s, others, n); }
    forall route | route in mission.routes ensures exists j: nat :: j < |mission.routes|
                                                                    && mission.routes[j] == route {}
    var first := FirstFalse(s.parent.snapshots, mission);
    if first.Accepted? && first.value.Some? {
      var key := first.value.value.key;
      if r.Accepted? {
        var i: nat :| Best(s, others, mission, key, |mission.routes|, i)
          && r.value == PacketFor(s.claims.versions, mission, key, mission.routes[i], context);
        forall route | Candidate(s.parent, mission, key, route) && route != mission.routes[i]
          ensures Outranks(mission.routes[i], route) {
          var j: nat :| j < |mission.routes| && mission.routes[j] == route;
          assert FoundOpen(s, others, mission, key, j);
        }
        assert Selected(s.parent, mission, key, mission.routes[i]);
      } else {
        forall route ensures !Candidate(s.parent, mission, key, route) {
          if route in mission.routes {
            var j: nat :| j < |mission.routes| && mission.routes[j] == route;
            assert !FoundOpen(s, others, mission, key, j);
          }
        }
      }
    }
  }

  lemma {:induction false} Quiet(s: Store, others: Interference, n: nat)
    requires forall i: nat :: others(i) == []
    ensures After(s, others, n) == s
  {
    if n > 0 { Quiet(s, others, n - 1); }
  }

  /** Without interference claiming a planned packet succeeds exactly when no active lease shares a scope item, and
      otherwise reports the conflict. */
  lemma PlannedPacketClaims(s: Store, mission: Mission, context: Option<string>, packet: TaskPacket)
    requires Inv(s) && Get(s.parent.missions, mission.missionId) == Some(mission)
    requires Plans(s, mission, context, Accepted(packet))
    ensures ValidatePacket(s, packet).Accepted? && packet.packetId !in s.claims.leases
    ensures Claim(s, packet).1 ==
            if exists id :: id in s.claims.active && Overlaps(packet.body.scope, s.claims.active[id].scope)
            then Rejected(LeaseConflict) else Accepted(LeaseFor(packet))
  {
    hide Inv, FirstFalse, Overlaps, Claim, LeaseFor;
    var key := FirstFalse(s.parent.snapshots, mission).value.value.key;
    var route :| Selected(s.parent, mission, key, route)
      && packet == PacketFor(s.claims.versions, mission, key, route, context);
    RouteFound(mission, route);
    CurrentVersionsClaim(s, packet);
  }

  lemma RouteFound(mission: Mission, route: Route)
    requires route in mission.routes
    ensures FindRoute(mission.routes, route.routeId) == Some(route) && |route.scope| > 0
  {
    var found := FindRoute(mission.routes, route.routeId);
    var i :| 0 <= i < |mission.routes| && mission.routes[i] == route;
    var j :| 0 <= j < |mission.routes| && mission.routes[j] == found.value;
  }

  lemma ClaimedVersionsPassed(s: Store, p: Digest)
    requires Inv(s) && p in s.claims.leases
    ensures p in s.claims.packets && p == PacketDigest(s.claims.packets[p].body)
    ensures var body := s.claims.packets[p].body;
            |body.scope| > 0 ==> |body.scopeVersions| > 0
                                 && body.scopeVersions[0].1 < GetOr(s.claims.versions, body.scope[0], 0)
  {
    hide EffectInv, StepInv, RecoveryInv, RecoveryStepsAdmitted, DeliveryInv, MissionInv, ActiveUntilReceipt, Exclusive,
         VersionsCountClaims;
    var lease := s.claims.leases[p];
    assert LeaseBinds(lease, s.claims.packets[p]);
    if |s.claims.packets[p].body.scope| > 0 { assert lease.scopeVersions[0] in lease.scopeVersions; }
  }

  // ----- execution ---------------------------------------------------------------------------

  lemma PreExecutionReceipt(s: Store, packet: TaskPacket, lease: Lease, code: FailureCode, detail: string)
    ensures var r := TerminalizePreExecution(s, packet, lease, code, detail);
            r.1.Accepted? ==> Get(r.0.work.receiptOf, packet.packetId) == Some(r.1.value)
  {
    hide HoldsLease, HasOpenStep;
  }

  lemma BeginRejected(s: Store, packet: TaskPacket, lease: Lease)
    ensures !BeginExecution(s, packet, lease).1.Accepted? ==> BeginExecution(s, packet, lease).0 == s
  {
    hide ValidateClaim;
  }

  /** A started packet keeps its lease until it has a receipt. */
  lemma StillStarted(s: Store, packet: TaskPacket, lease: Lease, calls: seq<Call>)
    requires Inv(s) && BeginExecution(s, packet, lease).1.Accepted?
    ensures var s' := Run(BeginExecution(s, packet, lease).0, calls);
            && packet.packetId in s'.work.started
            && (packet.packetId in s'.work.receiptOf || HoldsLease(s', packet, lease))
  {
    hide BeginExecution, Run, Inv, HoldsLease, Since;
    var began := BeginExecution(s, packet, lease).0;
    BegunHolds(s, packet, lease);
    BeginKeepsInv(s, packet, lease);
    RunSince(began, calls);
    RunKeepsInv(began, calls);
    ActiveOrClosed(began, Run(began, calls), packet, lease);
  }

  lemma BegunHolds(s: Store, packet: TaskPacket, lease: Lease)
    requires BeginExecution(s, packet, lease).1.Accepted?
    ensures var began := BeginExecution(s, packet, lease).0;
            HoldsLease(began, packet, lease) && packet.packetId in began.work.started
  {
    hide ValidatePacket;
  }

  lemma ActiveOrClosed(s: Store, s': Store, packet: TaskPacket, lease: Lease)
    requires Inv(s') && Since(s, s') && HoldsLease(s, packet, lease) && packet.packetId in s.work.started
    ensures packet.packetId in s'.work.started
            && (packet.packetId in s'.work.receiptOf || HoldsLease(s', packet, lease))
  {
    hide LeaseInv, EffectInv, StepInv, RecoveryInv, RecoveryStepsAdmitted, DeliveryInv, MissionInv, StepsSince,
         ParentSince,
         DeliverySince;
    assert packet.packetId in s'.claims.leases && s'.claims.leases[packet.packetId] == lease;
    assert packet.packetId in s'.claims.packets && s'.claims.packets[packet.packetId] == packet;
    LeaseActiveOrClosed(s'.claims, s'.work.receiptOf, packet.packetId);
  }

  lemma LeaseActiveOrClosed(t: ClaimTable, receiptOf: map<Digest, TerminalReceipt>, p: Digest)
    requires LeaseInv(t, receiptOf) && p in t.leases
    ensures p in receiptOf || (t.leases[p].leaseId in t.active && t.active[t.leases[p].leaseId] == t.leases[p])
  {
    hide Exclusive, VersionsCountClaims, VersionsFence;
    LeaseIdsDiffer(t.leases, t.packets, p);
  }

  lemma ResultAccounted(s: Store, packet: TaskPacket, lease: Lease, result: ExecutionResult)
    requires Inv(s) && packet.packetId in s.work.started
    requires packet.packetId in s.work.receiptOf || HoldsLease(s, packet, lease)
    ensures var r := RecordExecution(s, packet, lease, result);
            && (Accounted(r.0.work, packet.packetId) <==>
                Accounted(s.work, packet.packetId) || !HasOpenStep(s.trail, packet.packetId))
            && (r.1.Accepted? ==> Get(r.0.work.receiptOf, packet.packetId) == Some(r.1.value))
  {
    hide Inv, HoldsLease, HasOpenStep;
  }

  lemma AnswerExplained(s: Store, packet: TaskPacket, lease: Lease, response: Response)
    ensures var s' := Answered(s, packet, lease, response).0;
            packet.packetId in s'.work.failures && packet.packetId !in s.work.failures ==>
              Explains(packet, lease, response, s'.work.failures[packet.packetId].body)
  {
    hide HoldsLease, HasOpenStep, Blank, PersistTerminal, ReconcilableCode, SignalBinds;
    if response.Returned? { ResultFailures(s, packet, lease, response.result); }
  }

  lemma ResultFailures(s: Store, packet: TaskPacket, lease: Lease, result: ExecutionResult)
    ensures var s' := RecordExecution(s, packet, lease, result).0;
            packet.packetId in s'.work.failures && packet.packetId !in s.work.failures ==>
              Explains(packet, lease, Returned(result), s'.work.failures[packet.packetId].body)
  {
    hide RecordExecutionFailure, ResultMatches, ResultGuard;
    NewFailure(s, packet, lease, StaleIdentity, ResultMismatchDigest(packet.packetId, lease.leaseId),
               Some(result.effectId), FromHarness);
    if result.effectId in s.work.effectOwner {
      NewFailure(s, packet, lease, DuplicateOrReplay,
                 DuplicateEffectDigest(result.effectId, s.work.effectOwner[result.effectId]), Some(result.effectId),
                 FromHarness);
    }
  }

  lemma NewFailure(s: Store, packet: TaskPacket, lease: Lease, code: FailureCode, detail: Digest,
                   observed: Option<string>, origin: FailureOrigin)
    ensures var s' := RecordExecutionFailure(s, packet, lease, code, detail, observed, origin).0;
            packet.packetId in s'.work.failures && packet.packetId !in s.work.failures ==>
              s'.work.failures[packet.packetId].body ==
              FailureBody(packet.packetId, lease.leaseId, code, detail, observed, origin)
  {
    hide HoldsLease, Blank;
  }

  lemma FailureAccounted(s: Store, packet: TaskPacket, lease: Lease, response: Response)
    requires packet.packetId in s.work.started && !response.Returned?
    requires packet.packetId in s.work.receiptOf || HoldsLease(s, packet, lease)
    ensures var p := ReportOf(packet, lease, response);
            var s' := RecordExecutionFailure(s, packet, lease, p.code, p.detail, p.observed, p.origin).0;
            Accounted(s'.work, packet.packetId) <==>
              Accounted(s.work, packet.packetId) || !Dropped(s, packet, lease, response)
  {
    hide HoldsLease, HasOpenStep, Blank;
  }

  // ----- delivery ----------------------------------------------------------------------------

  lemma ResumedSame(s: Store, c: Continuation, proof: ResumeProof)
    ensures ValidateResume(s, c, proof).Accepted? ==> ValidateResume(s, c, proof).value == c
  {
    hide Blank;
  }

  lemma BeginFacts(s: Store, c: Continuation, receipt: TerminalReceipt)
    requires BeginDelivery(s, c, receipt).1.Accepted?
    ensures var begun := BeginDelivery(s, c, receipt);
            && begun.1.value == c.(state := DeliveryStarted) && c.receiptId == receipt.receiptId && c.state == Prepared
            && begun.0.work == s.work && receipt.receiptId in s.work.receipts
            && s.work.receipts[receipt.receiptId] == receipt
            && c.continuationId in begun.0.delivery.continuations
            && begun.0.delivery.continuations[c.continuationId] == c.(state := DeliveryStarted)
  {
  }

  /** Whatever is called after a delivery started, the continuation and its receipt stay what they are. */
  lemma StillThere(s: Store, c: Continuation, receipt: TerminalReceipt, calls: seq<Call>)
    requires Inv(s) && c.continuationId in s.delivery.continuations && s.delivery.continuations[c.continuationId] == c
    requires receipt.receiptId in s.work.receipts && s.work.receipts[receipt.receiptId] == receipt
    ensures var s' := Run(s, calls);
            && c.continuationId in s'.delivery.continuations
            && SameButState(c, s'.delivery.continuations[c.continuationId])
            && Get(s'.work.receipts, receipt.receiptId) == Some(receipt)
  {
    hide Run, Inv, Since;
    RunSince(s, calls);
    RunKeepsInv(s, calls);
    KeptSince(s, Run(s, calls), c.continuationId, receipt.receiptId);
  }

  lemma KeptSince(s: Store, s': Store, id: Digest, receiptId: Digest)
    requires Inv(s) && Inv(s') && Since(s, s') && id in s.delivery.continuations && receiptId in s.work.receipts
    ensures id in s'.delivery.continuations && SameButState(s.delivery.continuations[id], s'.delivery.continuations[id])
    ensures receiptId in s'.work.receipts && s'.work.receipts[receiptId] == s.work.receipts[receiptId]
  {
    hide LeaseInv, StepInv, RecoveryInv, RecoveryStepsAdmitted, DeliveryInv, MissionInv, SettledOwned, PendingOwned,
         StartedOnly,
         ClaimsSince, StepsSince, ParentSince, ReceiptBinds;
    var p := s.work.receipts[receiptId].body.packetId;
    assert s'.work.receiptOf[p] == s.work.receipts[receiptId];
  }

  lemma Acked(s: Store, c: Continuation, receipt: TerminalReceipt, proof: ConvergenceProof)
    ensures var r := AcknowledgeDelivery(s, c, receipt, proof, DeliveryStarted);
            if r.1.Accepted? then
              && r.0.work == s.work && Get(r.0.delivery.acks, r.1.value.1.ackId) == Some(r.1.value.1)
              && c.continuationId in r.0.delivery.continuations
              && r.0.delivery.continuations[c.continuationId] == c.(state := Acknowledged)
              && r.1.value.1.body.packetId == receipt.body.packetId && r.1.value.1.body.receiptId == receipt.receiptId
            else r.0 == s
  {
    hide ConvergenceIdentity, Blank;
  }

  lemma Marked(s: Store, c: Continuation, receipt: TerminalReceipt)
    requires c.state == Prepared && c.receiptId == receipt.receiptId
    requires c.continuationId in s.delivery.continuations
             && SameButState(c.(state := DeliveryStarted), s.delivery.continuations[c.continuationId])
    ensures var s' := MarkDeliveryUnsettled(s, c.(state := DeliveryStarted), receipt).0;
            && c.continuationId in s'.delivery.continuations
            && SameButState(c, s'.delivery.continuations[c.continuationId])
            && s'.delivery.continuations[c.continuationId].state != DeliveryStarted
  {
  }
}
