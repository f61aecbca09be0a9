/**
 Durable recovery: one loop folds the session context and then the session feed, two logs with different clocks,
 into a command index, the edits and the postimages that a later read proved. Checks on a single record that do not
 depend on earlier ones are summarised by flags of the event.
 */
module RecoveryMerge {
  import opened Records

  datatype Source = SessionContext | SessionFeed

  datatype Receipt = Settled(exitCode: int, success: bool) | Unproven | Inadmissible

  /** What a completed command did; `None` for a change or read whose description is not admissible. */
  datatype Work =
    | TaskStatus
    | Patch(changes: seq<Option<string>>, receipt: Receipt)
    | SourceRead(path: Option<string>, sha: string, receipt: Receipt)
    | OtherWork(receipt: Receipt)

  /** A record of either log. `admissible` covers the record's own identity fields; `command`, `value` and `attempts`
      are canonical digests. Records of any other kind are passed over. */
  datatype Event =
    | OtherRecord(sequence: nat, source: Source)
    | UsageRecord(sequence: nat, source: Source, admissible: bool, runtime: string)
    | ObservationRecord(sequence: nat, source: Source, admissible: bool, runtime: string, attempts: Option<string>)
    | ReadyEvent(sequence: nat, source: Source, admissible: bool, id: string, command: string)
    | DeniedEvent(sequence: nat, source: Source, admissible: bool, id: string, command: string, value: string)
    | CompletedEvent(sequence: nat, source: Source, admissible: bool, id: string, command: string, value: string,
                     work: Work)

  datatype Proof = KnownSuccess | KnownFailure | Unavailable | NotStarted
  datatype Row = Row(id: string, sequence: nat, source: Source, proof: Proof)
  datatype Edit = Edit(path: string, sequence: nat, source: Source, id: string)
  datatype Postimage = Postimage(sha: string, sequence: nat)

  datatype Recovered = Recovered(ready: map<string, string>, done: map<string, string>, commands: seq<Row>,
                                 edits: seq<Edit>,
                                 postimages: map<string, Postimage>, usage: set<string>, failedAttempts: map<string,
                                 string>)

  const NOTHING := Recovered(map[], map[], [], [], map[], {}, map[])
  const LIMIT := 128

  function ProofOf(receipt: Receipt): Proof {
    match receipt
    case Settled(code, success) =>
      if code == 0 && success then KnownSuccess else if code != 0 then KnownFailure else Unavailable
    case _ => Unavailable
  }

  predicate Edited(edits: seq<Edit>, path: string) {
    exists i :: 0 <= i < |edits| && edits[i].path == path
  }

  /** The changes of one patch, in order: each is an edit and outdates the postimage of its path. */
  function ApplyChanges(s: Recovered, e: Event, changes: seq<Option<string>>): Option<Recovered>
    requires e.CompletedEvent?
    decreases |changes|
  {
    if changes == [] then Some(s)
    else if changes[0].None? || |s.edits| >= LIMIT then None
    else ApplyChanges(s.(edits := s.edits + [Edit(changes[0].value, e.sequence, e.source, e.id)],
                         postimages := s.postimages - {changes[0].value}), e, changes[1..])
  }

  /** The effect of a completion that is the first of its command. */
  function Record(s: Recovered, e: Event): Option<Recovered>
    requires e.CompletedEvent? && !e.work.TaskStatus?
  {
    if e.work.receipt.Inadmissible? || |s.commands| >= LIMIT then None
    else
      var s1 := s.(commands := s.commands + [Row(e.id, e.sequence, e.source, ProofOf(e.work.receipt))]);
      if e.work.receipt.Unproven? then Some(if e.work.Patch? then s1.(postimages := map[]) else s1)
      else match e.work
        case Patch(changes, _) => if changes == [] then None else ApplyChanges(s1, e, changes)
        case SourceRead(path, sha, receipt) =>
          if e.source.SessionContext? && ProofOf(receipt) == KnownSuccess && path.Some? && Edited(s1.edits, path.value)
          then Some(s1.(postimages := s1.postimages[path.value := Postimage(sha, e.sequence)])) else Some(s1)
        case _ => Some(s1)
  }

  predicate IsCommand(e: Event) { e.ReadyEvent? || e.DeniedEvent? || e.CompletedEvent? }

  /** A command event. A repeated one is only accepted from the feed, and then ignored. */
  function StepCommand(s: Recovered, e: Event): Option<Recovered>
    requires IsCommand(e)
  {
    if !e.admissible then None
    else if e.ReadyEvent? then
      if e.id in s.ready then if e.source.SessionFeed? && s.ready[e.id] == e.command then Some(s) else None
      else if |s.ready| >= LIMIT then None
      else Some(s.(ready := s.ready[e.id := e.command]))
    else if e.id !in s.ready || s.ready[e.id] != e.command then None
    else if e.id in s.done then if e.source.SessionFeed? && s.done[e.id] == e.value then Some(s) else None
    else
      var s1 := s.(done := s.done[e.id := e.value]);
      if e.DeniedEvent? then
        if |s.commands| >= LIMIT then None
        else Some(s1.(commands := s.commands + [Row(e.id, e.sequence, e.source, NotStarted)]))
      else if e.work.TaskStatus? then Some(s1)
      else Record(s1, e)
  }

  /** One record. Each runtime reports its usage once and never two different sets of failed attempts. */
  function Step(s: Recovered, e: Event): Option<Recovered> {
    if e.OtherRecord? then Some(s)
    else if IsCommand(e) then StepCommand(s, e)
    else if !e.admissible then None
    else if e.UsageRecord? then if e.runtime in s.usage then None else Some(s.(usage := s.usage + {e.runtime}))
    else if e.attempts.None? then Some(s)
    else if e.runtime in s.failedAttempts && s.failedAttempts[e.runtime] != e.attempts.value then None
    else Some(s.(failedAttempts := s.failedAttempts[e.runtime := e.attempts.value]))
  }

  function Merge(events: seq<Event>): Option<Recovered> {
    if events == [] then Some(NOTHING)
    else
      var s := Merge(events[..|events| - 1]);
      if s.None? then None else Step(s.value, events[|events| - 1])
  }

  // ----- the loop ----------------------------------------------------------------------------

  method Recover(events: seq<Event>) returns (r: Option<Recovered>)
    ensures r == Merge(events)
  {
    hide StepCommand, Merge;
    var s := NOTHING;
    assert Merge(events[..0]) == Some(s) by { MergeNothing(events); }
    var n := 0;
    while n < |events|
      invariant 0 <= n <= |events| && Merge(events[..n]) == Some(s)
    {
      var e := events[n];
      MergeNext(events, n);
      if !e.OtherRecord? {
        if IsCommand(e) {
          var taken := TakeCommand(s, e);
          if taken.None? { MergeStops(events, n + 1); return None; }
          s := taken.value;
        } else if !e.admissible {
          MergeStops(events, n + 1);
          return None;
        } else if e.UsageRecord? {
          if e.runtime in s.usage { MergeStops(events, n + 1); return None; }
          s := s.(usage := s.usage + {e.runtime});
        } else if e.attempts.Some? {
          if e.runtime in s.failedAttempts && s.failedAttempts[e.runtime] != e.attempts.value {
            MergeStops(events, n + 1);
            return None;
          }
          s := s.(failedAttempts := s.failedAttempts[e.runtime := e.attempts.value]);
        }
      }
      n := n + 1;
    }
    assert events[..n] == events;
    return Some(s);
  }

  method TakeCommand(was: Recovered, e: Event) returns (r: Option<Recovered>)
    requires IsCommand(e)
    ensures r == StepCommand(was, e)
  {
    hide Record;
    if !e.admissible { return None; }
    var s := was;
    if e.ReadyEvent? {
      if e.id in s.ready {
        if e.source.SessionContext? || s.ready[e.id] != e.command { return None; }
        return Some(s);
      }
      if |s.ready| >= LIMIT { return None; }
      return Some(s.(ready := s.ready[e.id := e.command]));
    }
    if e.id !in s.ready || s.ready[e.id] != e.command { return None; }
    if e.id in s.done {
      if e.source.SessionContext? || s.done[e.id] != e.value { return None; }
      return Some(s);
    }
    s := s.(done := s.done[e.id := e.value]);
    if e.DeniedEvent? {
      if |s.commands| >= LIMIT { return None; }
      return Some(s.(commands := s.commands + [Row(e.id, e.sequence, e.source, NotStarted)]));
    }
    if e.work.TaskStatus? { return Some(s); }
    r := RecordCompletion(s, e);
  }

  method RecordCompletion(was: Recovered, e: Event) returns (r: Option<Recovered>)
    requires e.CompletedEvent? && !e.work.TaskStatus?
    ensures r == Record(was, e)
  {
    hide Edited;
    if e.work.receipt.Inadmissible? || |was.commands| >= LIMIT { return None; }
    var s := was.(commands := was.commands + [Row(e.id, e.sequence, e.source, ProofOf(e.work.receipt))]);
    if e.work.receipt.Unproven? {
      if e.work.Patch? { s := s.(postimages := map[]); }
      return Some(s);
    }
    if e.work.Patch? {
      if e.work.changes == [] { return None; }
      var i := 0;
      ghost var start := s;
      while i < |e.work.changes|
        invariant 0 <= i <= |e.work.changes|
        invariant ApplyChanges(s, e, e.work.changes[i..]) == ApplyChanges(start, e, e.work.changes)
      {
        var change := e.work.changes[i];
        if change.None? || |s.edits| >= LIMIT { return None; }
        s := s.(edits := s.edits + [Edit(change.value, e.sequence, e.source, e.id)],
                postimages := s.postimages - {change.value});
        i := i + 1;
      }
    } else if e.work.SourceRead? && e.source.SessionContext? && ProofOf(e.work.receipt) == KnownSuccess {
      if e.work.path.Some? && Edited(s.edits, e.work.path.value) {
        s := s.(postimages := s.postimages[e.work.path.value := Postimage(e.work.sha, e.sequence)]);
      }
    }
    return Some(s);
  }

  lemma MergeNothing(events: seq<Event>)
    ensures Merge(events[..0]) == Some(NOTHING)
  {
  }

  lemma MergeNext(events: seq<Event>, n: nat)
    requires n < |events|
    ensures Merge(events[..n + 1]) == if Merge(events[..n]).None? then None
            else Step(Merge(events[..n]).value, events[n])
  {
    assert events[..n + 1][..n] == events[..n];
  }

  lemma {:induction false} MergeStops(events: seq<Event>, n: nat)
    requires n <= |events| && Merge(events[..n]).None?
    ensures Merge(events).None?
    decreases |events| - n
  {
    if n == |events| {
      assert events[..n] == events;
    } else {
      MergeNext(events, n);
      MergeStops(events, n + 1);
    }
  }

  // ----- what every accepted log keeps -----------------------------------------------------------

  /** Commands are listed once each, only after they were declared and completed. */
  ghost predicate Indexed(s: Recovered) {
    && s.done.Keys <= s.ready.Keys
    && (forall i :: 0 <= i < |s.commands| ==> s.commands[i].id in s.done)
    && (forall i, j :: 0 <= i < j < |s.commands| ==> s.commands[i].id != s.commands[j].id)
  }

  lemma {:induction false} ChangesFrame(s: Recovered, e: Event, changes: seq<Option<string>>)
    requires e.CompletedEvent?
    ensures var r := ApplyChanges(s, e, changes);
            r.Some? ==> && r.value.ready == s.ready && r.value.done == s.done && r.value.commands == s.commands
                        && (forall p :: p in r.value.postimages <==> p in s.postimages && Some(p) !in changes)
                        && (forall p :: p in r.value.postimages ==> r.value.postimages[p] == s.postimages[p])
                        && (forall p :: Edited(s.edits, p) ==> Edited(r.value.edits, p))
    decreases changes
  {
    if changes != [] && changes[0].Some? && |s.edits| < LIMIT {
      var edits := s.edits + [Edit(changes[0].value, e.sequence, e.source, e.id)];
      forall p | Edited(s.edits, p) ensures Edited(edits, p) {
        var i :| 0 <= i < |s.edits| && s.edits[i].path == p;
        assert edits[i].path == p;
      }
      ChangesFrame(s.(edits := edits, postimages := s.postimages - {changes[0].value}), e, changes[1..]);
      assert changes == [changes[0]] + changes[1..];
    }
  }

  lemma RecordFrame(s: Recovered, e: Event)
    requires e.CompletedEvent? && !e.work.TaskStatus?
    ensures var r := Record(s, e);
            r.Some? ==> && r.value.ready == s.ready && r.value.done == s.done
                        && |r.value.commands| == |s.commands| + 1 && r.value.commands[..|s.commands|] == s.commands
                        && r.value.commands[|s.commands|].id == e.id
  {
    hide Edited, ProofOf;
    if e.work.Patch? {
      ChangesFrame(s.(commands := s.commands + [Row(e.id, e.sequence, e.source, ProofOf(e.work.receipt))]), e,
                   e.work.changes);
    }
  }

  lemma StepIndexed(s: Recovered, e: Event)
    requires Indexed(s) && Step(s, e).Some?
    ensures Indexed(Step(s, e).value)
    ensures forall id :: id in s.ready ==> id in Step(s, e).value.ready && Step(s, e).value.ready[id] == s.ready[id]
    ensures forall id :: id in s.done ==> id in Step(s, e).value.done && Step(s, e).value.done[id] == s.done[id]
  {
    hide Record;
    if e.CompletedEvent? && e.id !in s.done && !e.work.TaskStatus? {
      RecordFrame(s.(done := s.done[e.id := e.value]), e);
      var r := Step(s, e).value;
      assert forall i :: 0 <= i < |s.commands| ==> r.commands[i] == s.commands[i];
    }
  }

  /** No command id is listed twice, and only declared commands are completed. */
  lemma {:induction false} MergeIndexed(events: seq<Event>)
    ensures Merge(events).Some? ==> Indexed(Merge(events).value)
    decreases |events|
  {
    hide Step;
    if events != [] {
      MergeIndexed(events[..|events| - 1]);
      if Merge(events).Some? { StepIndexed(Merge(events[..|events| - 1]).value, events[|events| - 1]); }
    }
  }

  // ----- replays -----------------------------------------------------------------------------

  /** The event was taken in: its command is declared, or completed with the same value. */
  ghost predicate Taken(s: Recovered, e: Event)
    requires IsCommand(e)
  {
    && e.admissible && e.id in s.ready && s.ready[e.id] == e.command
    && (!e.ReadyEvent? ==> e.id in s.done && s.done[e.id] == e.value)
  }

  /** The feed delivers a command event of the log again, under any number of its own. */
  ghost predicate IsReplay(events: seq<Event>, e: Event) {
    exists k :: 0 <= k < |events| && IsCommand(events[k])
      && e == events[k].(source := SessionFeed, sequence := e.sequence)
  }

  lemma StepTakes(s: Recovered, e: Event)
    requires Step(s, e).Some? && IsCommand(e)
    ensures Taken(Step(s, e).value, e)
  {
    hide Record;
    if e.CompletedEvent? && !e.work.TaskStatus? { RecordFrame(s.(done := s.done[e.id := e.value]), e); }
  }

  lemma {:induction false} AllTaken(events: seq<Event>, k: nat)
    requires Merge(events).Some? && k < |events| && IsCommand(events[k])
    ensures Taken(Merge(events).value, events[k])
    decreases |events|
  {
    hide Step;
    var last := |events| - 1;
    var s := Merge(events[..last]).value;
    if k == last {
      StepTakes(s, events[last]);
    } else {
      AllTaken(events[..last], k);
      MergeIndexed(events[..last]);
      StepIndexed(s, events[last]);
    }
  }

  lemma TakenIgnored(s: Recovered, e: Event, replay: Event)
    requires IsCommand(e) && Taken(s, e) && replay == e.(source := SessionFeed, sequence := replay.sequence)
    ensures Step(s, replay) == Some(s)
  {
    hide Record;
  }

  lemma MergeSnoc(events: seq<Event>, e: Event)
    ensures Merge(events + [e]) == if Merge(events).None? then None else Step(Merge(events).value, e)
  {
    hide Step;
    assert (events + [e])[..|events|] == events;
  }

  lemma {:induction false} ReplaysAppended(events: seq<Event>, replays: seq<Event>)
    requires forall i :: 0 <= i < |replays| ==> IsReplay(events, replays[i])
    ensures Merge(events + replays) == Merge(events)
    decreases |replays|
  {
    hide Step, Merge;
    if replays == [] {
      assert events + replays == events;
    } else {
      var last := |replays| - 1;
      assert IsReplay(events, replays[last]);
      var k :| 0 <= k < |events| && IsCommand(events[k])
        && replays[last] == events[k].(source := SessionFeed, sequence := replays[last].sequence);
      ReplaysAppended(events, replays[..last]);
      assert events + replays == (events + replays[..last]) + [replays[last]];
      MergeSnoc(events + replays[..last], replays[last]);
      if Merge(events).Some? {
        AllTaken(events, k);
        TakenIgnored(Merge(events).value, events[k], replays[last]);
      }
    }
  }

  /** What follows a log only depends on what the log merged to. */
  lemma {:induction false} MergeContinues(a: seq<Event>, b: seq<Event>, rest: seq<Event>)
    requires Merge(a) == Merge(b)
    ensures Merge(a + rest) == Merge(b + rest)
    decreases |rest|
  {
    hide Step, Merge;
    if rest == [] {
      assert a + rest == a && b + rest == b;
    } else {
      var last := |rest| - 1;
      MergeContinues(a, b, rest[..last]);
      assert a + rest == (a + rest[..last]) + [rest[last]] && b + rest == (b + rest[..last]) + [rest[last]];
      MergeSnoc(a + rest[..last], rest[last]);
      MergeSnoc(b + rest[..last], rest[last]);
    }
  }

  /** Replays of what a log already holds, in any number and order and at any point, change neither the result nor
      whether the log is accepted. */
  lemma ReplaysChangeNothing(log: seq<Event>, replays: seq<Event>, rest: seq<Event>)
    requires forall i :: 0 <= i < |replays| ==> IsReplay(log, replays[i])
    ensures Merge(log + replays + rest) == Merge(log + rest)
  {
    hide Merge;
    ReplaysAppended(log, replays);
    MergeContinues(log + replays, log, rest);
  }

  // ----- postimages --------------------------------------------------------------------------

  /** The context comes first, in increasing order; the feed follows on its own clock. */
  ghost predicate TwoLogs(events: seq<Event>, context: nat) {
    && (forall i :: 0 <= i < |events| && i < context ==> events[i].source.SessionContext?)
    && (forall i, j :: 0 <= i < j < |events| && j < context ==> events[i].sequence < events[j].sequence)
    && (forall i :: context <= i < |events| ==> events[i].source.SessionFeed?)
  }

  /** The first completion of its command: later ones are replays. */
  ghost predicate FirstCompletion(events: seq<Event>, j: nat) {
    && j < |events| && events[j].CompletedEvent? && Merge(events[..j]).Some?
    && events[j].id !in Merge(events[..j]).value.done
  }

  /** A patch of the path, or one whose effects are not proven at all. */
  ghost predicate Outdates(e: Event, path: string) {
    e.CompletedEvent? && e.work.Patch? && (e.work.receipt.Unproven? || Some(path) in e.work.changes)
  }

  /** The event that a postimage reports: a proven read of the path in the session context. */
  ghost predicate Reads(e: Event, path: string, post: Postimage) {
    && e.CompletedEvent? && e.work.SourceRead? && e.work.path == Some(path) && e.work.sha == post.sha
    && e.source.SessionContext? && ProofOf(e.work.receipt) == KnownSuccess
  }

  /** Every edit comes from an event of its log. */
  ghost predicate EditsWithin(s: Recovered, events: seq<Event>, context: nat) {
    forall i :: 0 <= i < |s.edits| ==>
      if s.edits[i].source.SessionFeed? then |events| > context
        else exists j :: 0 <= j < |events| && j < context && events[j].sequence == s.edits[i].sequence
  }

  /** The path was edited, only in the context, and only before the read. */
  ghost predicate ReadLast(s: Recovered, path: string)
    requires path in s.postimages
  {
    && Edited(s.edits, path)
    && forall i :: 0 <= i < |s.edits| && s.edits[i].path == path ==>
         s.edits[i].source.SessionContext? && s.edits[i].sequence < s.postimages[path].sequence
  }

  lemma {:induction false} ChangesEdit(s: Recovered, e: Event, changes: seq<Option<string>>)
    requires e.CompletedEvent?
    ensures var r := ApplyChanges(s, e, changes);
            r.Some? ==> && |r.value.edits| >= |s.edits| && r.value.edits[..|s.edits|] == s.edits
                        && forall i :: |s.edits| <= i < |r.value.edits| ==>
                             Some(r.value.edits[i].path) in changes && r.value.edits[i].sequence == e.sequence
                               && r.value.edits[i].source == e.source
    decreases |changes|
  {
    if changes != [] && changes[0].Some? && |s.edits| < LIMIT {
      var s' := s.(edits := s.edits + [Edit(changes[0].value, e.sequence, e.source, e.id)],
                   postimages := s.postimages - {changes[0].value});
      ChangesEdit(s', e, changes[1..]);
      var r := ApplyChanges(s', e, changes[1..]);
      if r.Some? {
        assert r.value.edits[..|s.edits|] == s'.edits[..|s.edits|] == s.edits;
        assert r.value.edits[|s.edits|] == s'.edits[|s.edits|];
      }
    }
  }

  /** What recording a completion does to edits and postimages. */
  lemma RecordEffect(s: Recovered, e: Event)
    requires e.CompletedEvent? && !e.work.TaskStatus? && Record(s, e).Some?
    ensures var r := Record(s, e).value;
            && |r.edits| >= |s.edits| && r.edits[..|s.edits|] == s.edits
            && (forall i :: |s.edits| <= i < |r.edits| ==>
                Outdates(e, r.edits[i].path) && r.edits[i].sequence == e.sequence && r.edits[i].source == e.source)
            && (forall p :: p in r.postimages ==> !Outdates(e, p))
            && (forall p :: p in r.postimages ==>
                  (p in s.postimages && r.postimages[p] == s.postimages[p])
                  || (Reads(e, p, r.postimages[p]) && r.postimages[p].sequence == e.sequence && Edited(s.edits, p)
                      && r.edits == s.edits))
  {
    hide Edited, ProofOf;
    if e.work.Patch? {
      var s1 := s.(commands := s.commands + [Row(e.id, e.sequence, e.source, ProofOf(e.work.receipt))]);
      ChangesFrame(s1, e, e.work.changes);
      ChangesEdit(s1, e, e.work.changes);
    }
  }

  ghost predicate Fresh(events: seq<Event>, s: Recovered, context: nat, path: string)
    requires path in s.postimages
  {
    ReadLast(s, path) && exists r :: FreshSince(events, s.postimages[path], context, path, r)
  }

  /** Event `r` is the reported read, and nothing taken in after it outdates it. */
  ghost predicate FreshSince(events: seq<Event>, post: Postimage, context: nat, path: string, r: nat) {
    && r < context && r < |events| && events[r].sequence == post.sequence && Reads(events[r], path, post)
    && FirstCompletion(events, r)
    && forall j :: r < j < |events| && FirstCompletion(events, j) ==> !Outdates(events[j], path)
  }

  lemma StepUnrecorded(s: Recovered, e: Event)
    requires Step(s, e).Some? && (e.CompletedEvent? && !e.work.TaskStatus? ==> e.id in s.done)
    ensures Step(s, e).value.edits == s.edits && Step(s, e).value.postimages == s.postimages
  {
  }

  lemma CompletionsStay(events: seq<Event>, n: nat)
    requires n + 1 == |events|
    ensures forall j :: 0 <= j < n ==> (FirstCompletion(events, j) <==> FirstCompletion(events[..n], j))
  {
    hide Merge;
    forall j | 0 <= j < n ensures FirstCompletion(events, j) <==> FirstCompletion(events[..n], j) {
      assert events[..n][..j] == events[..j];
    }
  }

  lemma StaysFresh(before: seq<Event>, events: seq<Event>, post: Postimage, context: nat, path: string)
    requires |events| > 0 && before == events[..|events| - 1] && exists r :: FreshSince(before, post, context, path, r)
    requires FirstCompletion(events, |events| - 1) ==> !Outdates(events[|events| - 1], path)
    ensures exists r :: FreshSince(events, post, context, path, r)
  {
    hide Reads, Outdates, FirstCompletion;
    var r :| FreshSince(before, post, context, path, r);
    CompletionsStay(events, |events| - 1);
    assert FreshSince(events, post, context, path, r);
  }

  /** A step that records nothing about files keeps every postimage fresh. */
  lemma KeepsFresh(events: seq<Event>, s: Recovered, context: nat, path: string)
    requires |events| > 0 && path in s.postimages && Fresh(events[..|events| - 1], s, context, path)
    requires FirstCompletion(events, |events| - 1) ==> !Outdates(events[|events| - 1], path)
    ensures Fresh(events, s, context, path)
  {
    hide ReadLast, FreshSince, Outdates, FirstCompletion;
    StaysFresh(events[..|events| - 1], events, s.postimages[path], context, path);
  }

  lemma RecordKeepsFresh(events: seq<Event>, s: Recovered, s': Recovered, context: nat, path: string)
    requires |events| > 0 && TwoLogs(events, context) && EditsWithin(s, events[..|events| - 1], context)
    requires FirstCompletion(events, |events| - 1)
    requires path in s'.postimages && !Outdates(events[|events| - 1], path)
    requires var e := events[|events| - 1];
             && |s'.edits| >= |s.edits| && s'.edits[..|s.edits|] == s.edits
             && (forall i :: |s.edits| <= i < |s'.edits| ==> Outdates(e, s'.edits[i].path))
             && ((path in s.postimages && s'.postimages[path] == s.postimages[path]
                  && Fresh(events[..|events| - 1], s, context, path))
                 || ReadNow(e, s, s', path))
    ensures Fresh(events, s', context, path)
  {
    hide Outdates, FirstCompletion, ProofOf, Merge;
    var n := |events| - 1;
    if ReadNow(events[n], s, s', path) {
      assert n < context;
      assert FreshSince(events, s'.postimages[path], context, path, n);
    } else {
      forall i | 0 <= i < |s.edits| ensures s'.edits[i] == s.edits[i] { assert s'.edits[..|s.edits|][i] == s.edits[i]; }
      assert ReadLast(s', path) by { assert ReadLast(s, path); }
      hide FreshSince;
      StaysFresh(events[..n], events, s'.postimages[path], context, path);
    }
  }

  /** The event reads the path and becomes its postimage. */
  ghost predicate ReadNow(e: Event, s: Recovered, s': Recovered, path: string)
    requires path in s'.postimages
  {
    Reads(e, path, s'.postimages[path]) && s'.postimages[path].sequence == e.sequence && Edited(s.edits, path)
      && s'.edits == s.edits
  }

  lemma EditsStayWithin(s: Recovered, s': Recovered, events: seq<Event>, context: nat)
    requires |events| > 0 && EditsWithin(s, events[..|events| - 1], context) && TwoLogs(events, context)
    requires |s'.edits| >= |s.edits| && s'.edits[..|s.edits|] == s.edits
    requires var e := events[|events| - 1];
             forall i :: |s.edits| <= i < |s'.edits| ==>
               s'.edits[i].sequence == e.sequence && s'.edits[i].source == e.source
    ensures EditsWithin(s', events, context)
  {
    forall i | 0 <= i < |s.edits| ensures s'.edits[i] == s.edits[i] { assert s'.edits[..|s.edits|][i] == s.edits[i]; }
    forall i | 0 <= i < |s.edits| && s.edits[i].source.SessionContext?
      ensures exists j :: 0 <= j < |events| && j < context && events[j].sequence == s.edits[i].sequence
    {
      var j :| 0 <= j < |events| - 1 && j < context && events[..|events| - 1][j].sequence == s.edits[i].sequence;
      assert events[j].sequence == s.edits[i].sequence;
    }
  }

  /** Every reported postimage was read in the context after every edit of its path; no feed edit of the path and no
      unproven patch was taken in later. */
  lemma {:induction false} PostimagesFresh(events: seq<Event>, context: nat)
    requires TwoLogs(events, context) && Merge(events).Some?
    ensures EditsWithin(Merge(events).value, events, context)
    ensures forall path :: path in Merge(events).value.postimages ==> Fresh(events, Merge(events).value, context, path)
    decreases |events|
  {
    if events != [] {
      var n := |events| - 1;
      var e, s, s' := events[n], Merge(events[..n]).value, Merge(events).value;
      PostimagesFresh(events[..n], context);
      var records := e.CompletedEvent? && !e.work.TaskStatus? && e.id !in s.done;
      if records {
        assert FirstCompletion(events, n);
        RecordEffect(s.(done := s.done[e.id := e.value]), e);
        hide Merge, Step, Record, Fresh, Edited, Reads, Outdates, EditsWithin, TwoLogs;
        EditsStayWithin(s, s', events, context);
        forall path | path in s'.postimages ensures Fresh(events, s', context, path) {
          RecordKeepsFresh(events, s, s', context, path);
        }
      } else {
        StepUnrecorded(s, e);
        hide Merge, Step, Fresh, EditsWithin;
        EditsStayWithin(s, s', events, context);
        forall path | path in s'.postimages ensures Fresh(events, s', context, path) {
          SameFiles(events[..n], s, s', context, path);
          NotOutdating(events, n, path);
          KeepsFresh(events, s', context, path);
        }
      }
    }
  }

  lemma SameFiles(events: seq<Event>, s: Recovered, s': Recovered, context: nat, path: string)
    requires s'.edits == s.edits && s'.postimages == s.postimages && path in s.postimages
             && Fresh(events, s, context, path)
    ensures Fresh(events, s', context, path)
  {
    hide FreshSince;
  }

  lemma NotOutdating(events: seq<Event>, n: nat, path: string)
    requires n < |events| && Merge(events[..n]).Some?
    requires !(events[n].CompletedEvent? && !events[n].work.TaskStatus?
               && events[n].id !in Merge(events[..n]).value.done)
    ensures FirstCompletion(events, n) ==> !Outdates(events[n], path)
  {
    hide Merge;
  }

  // ----- what an accepted log lists ----------------------------------------------------------------

  predicate Settles(e: Event) { e.DeniedEvent? || e.CompletedEvent? }

  /** Event `j` settles its command, and no earlier event did. */
  ghost predicate FirstOf(events: seq<Event>, j: nat) {
    && j < |events| && Settles(events[j])
    && forall k :: 0 <= k < j && Settles(events[k]) ==> events[k].id != events[j].id
  }

  predicate Listable(e: Event) { e.DeniedEvent? || (e.CompletedEvent? && !e.work.TaskStatus?) }

  /** The events that are listed as commands, in order. */
  ghost function Listing(events: seq<Event>): (r: seq<nat>)
    ensures forall i :: 0 <= i < |r| ==> r[i] < |events|
  {
    if events == [] then []
    else
      var n := |events| - 1;
      Listing(events[..n]) + if FirstOf(events, n) && Listable(events[n]) then [n] else []
  }

  lemma FirstStays(events: seq<Event>, n: nat, j: nat)
    requires j < n <= |events|
    ensures FirstOf(events[..n], j) <==> FirstOf(events, j)
  {
    assert forall k :: 0 <= k < n ==> events[..n][k] == events[k];
  }

  /** The listing is in order, and holds exactly the first denial or recorded completion of each command. */
  lemma {:induction false} ListingExactly(events: seq<Event>)
    ensures forall i, j :: 0 <= i < j < |Listing(events)| ==> Listing(events)[i] < Listing(events)[j]
    ensures forall j: nat :: j in Listing(events) <==> FirstOf(events, j) && Listable(events[j])
    decreases |events|
  {
    hide Listable, Settles;
    if events != [] {
      var n := |events| - 1;
      ListingExactly(events[..n]);
      forall j: nat | j < n ensures FirstOf(events[..n], j) <==> FirstOf(events, j) { FirstStays(events, n, j); }
    }
  }

  /** The row repeats the event, and its proof says what the receipt proves. */
  ghost predicate RowTells(row: Row, e: Event)
    requires Listable(e)
  {
    && row.id == e.id && row.sequence == e.sequence && row.source == e.source
    && (row.proof.NotStarted? <==> e.DeniedEvent?)
    && (row.proof.KnownSuccess? <==>
          e.CompletedEvent? && e.work.receipt.Settled? && e.work.receipt.exitCode == 0 && e.work.receipt.success)
    && (row.proof.KnownFailure? <==> e.CompletedEvent? && e.work.receipt.Settled? && e.work.receipt.exitCode != 0)
  }

  /** Every change of a patch whose receipt settled, under the patch's own command. */
  ghost function EditsOf(e: Event): (r: seq<Edit>) {
    if e.CompletedEvent? && e.work.Patch? && e.work.receipt.Settled? then
      seq(|e.work.changes|, i requires 0 <= i < |e.work.changes| =>
            Edit(if e.work.changes[i].Some? then e.work.changes[i].value else "", e.sequence, e.source, e.id))
    else []
  }

  ghost function AllEdits(events: seq<Event>): seq<Edit> {
    if events == [] then []
    else
      var n := |events| - 1;
      AllEdits(events[..n]) + if FirstOf(events, n) then EditsOf(events[n]) else []
  }

  ghost predicate Declared(events: seq<Event>, id: string) {
    exists j :: 0 <= j < |events| && events[j].ReadyEvent? && events[j].id == id
  }

  ghost predicate WasSettled(events: seq<Event>, id: string) {
    exists j :: 0 <= j < |events| && Settles(events[j]) && events[j].id == id
  }

  /** What the state after a log lists, in terms of the log alone. */
  ghost predicate Lists(s: Recovered, events: seq<Event>) {
    && |s.commands| == |Listing(events)|
    && (forall i :: 0 <= i < |s.commands| ==>
          Listable(events[Listing(events)[i]]) && RowTells(s.commands[i], events[Listing(events)[i]]))
    && s.edits == AllEdits(events)
    && (forall id :: id in s.ready <==> Declared(events, id))
    && (forall id :: id in s.done <==> WasSettled(events, id))
  }

  lemma {:induction false} ChangesListed(s: Recovered, e: Event, changes: seq<Option<string>>, from: nat)
    requires e.CompletedEvent? && e.work.Patch? && e.work.receipt.Settled?
    requires from <= |e.work.changes| && changes == e.work.changes[from..]
    ensures var r := ApplyChanges(s, e, changes);
            && (r.Some? <==> (forall i :: 0 <= i < |changes| ==> changes[i].Some?)
                             && (changes == [] || |s.edits| + |changes| <= LIMIT))
            && (r.Some? ==> r.value.edits == s.edits + EditsOf(e)[from..])
    decreases |changes|
  {
    if changes == [] {
      assert s.edits + EditsOf(e)[from..] == s.edits;
    } else if changes[0].Some? && |s.edits| < LIMIT {
      var s' := s.(edits := s.edits + [Edit(changes[0].value, e.sequence, e.source, e.id)],
                   postimages := s.postimages - {changes[0].value});
      assert changes[0] == e.work.changes[from] && changes[1..] == e.work.changes[from + 1..];
      ChangesListed(s', e, changes[1..], from + 1);
      assert EditsOf(e)[from..] == [EditsOf(e)[from]] + EditsOf(e)[from + 1..];
      assert forall i :: 0 <= i < |changes[1..]| ==> changes[1..][i] == changes[i + 1];
      assert (forall i :: 0 <= i < |changes| ==> changes[i].Some?) <==>
             (forall i :: 0 <= i < |changes[1..]| ==> changes[1..][i].Some?) by {
        if forall i :: 0 <= i < |changes[1..]| ==> changes[1..][i].Some? {
          forall i | 0 <= i < |changes| ensures changes[i].Some? { if i > 0 { assert changes[1..][i - 1].Some?; } }
        }
      }
    }
  }

  lemma RecordLists(s: Recovered, e: Event)
    requires e.CompletedEvent? && !e.work.TaskStatus? && Record(s, e).Some?
    ensures var r := Record(s, e).value;
            && r.ready == s.ready && r.done == s.done && r.edits == s.edits + EditsOf(e)
            && |r.commands| == |s.commands| + 1 && r.commands[..|s.commands|] == s.commands
            && RowTells(r.commands[|s.commands|], e)
  {
    hide Edited;
    if e.work.Patch? && e.work.receipt.Settled? {
      var s1 := s.(commands := s.commands + [Row(e.id, e.sequence, e.source, ProofOf(e.work.receipt))]);
      ChangesFrame(s1, e, e.work.changes);
      assert e.work.changes == e.work.changes[0..] && EditsOf(e)[0..] == EditsOf(e);
      ChangesListed(s1, e, e.work.changes, 0);
    } else {
      assert s.edits + EditsOf(e) == s.edits;
    }
  }

  lemma StepLists(s: Recovered, e: Event)
    requires Step(s, e).Some?
    ensures var r := Step(s, e).value;
            && (forall id :: id in r.ready <==> id in s.ready || (e.ReadyEvent? && id == e.id))
            && (forall id :: id in r.done <==> id in s.done || (Settles(e) && id == e.id))
            && (if Settles(e) && e.id !in s.done then
                  && r.edits == s.edits + EditsOf(e)
                  && (if Listable(e) then && |r.commands| == |s.commands| + 1
                      && r.commands[..|s.commands|] == s.commands
                                          && RowTells(r.commands[|s.commands|], e)
                      else r.commands == s.commands)
                else r.commands == s.commands && r.edits == s.edits)
  {
    hide Record;
    if e.CompletedEvent? && !e.work.TaskStatus? && e.id !in s.done {
      hide RowTells;
      RecordLists(s.(done := s.done[e.id := e.value]), e);
    } else if Settles(e) && e.id !in s.done {
      assert s.edits + EditsOf(e) == s.edits;
    }
  }

  lemma KnownStays(events: seq<Event>, id: string)
    requires events != []
    ensures var n := |events| - 1;
            && (Declared(events, id) <==> Declared(events[..n], id) || (events[n].ReadyEvent? && events[n].id == id))
            && (WasSettled(events, id) <==> WasSettled(events[..n], id) || (Settles(events[n]) && events[n].id == id))
  {
    var n := |events| - 1;
    if j :| 0 <= j < n && events[..n][j].ReadyEvent? && events[..n][j].id == id { assert events[j].id == id; }
    if j :| 0 <= j < n && Settles(events[..n][j]) && events[..n][j].id == id { assert events[j].id == id; }
    if j :| 0 <= j < |events| && events[j].ReadyEvent? && events[j].id == id {
      if j < n { assert events[..n][j] == events[j]; }
    }
    if j :| 0 <= j < |events| && Settles(events[j]) && events[j].id == id {
      if j < n { assert events[..n][j] == events[j]; }
    }
  }

  lemma FirstUnsettled(events: seq<Event>)
    requires events != []
    ensures var n := |events| - 1; FirstOf(events, n) <==> Settles(events[n]) && !WasSettled(events[..n], events[n].id)
  {
    var n := |events| - 1;
    if Settles(events[n]) {
      if k :| 0 <= k < n && Settles(events[k]) && events[k].id == events[n].id { assert events[..n][k] == events[k]; }
    }
  }

  lemma NextLists(s: Recovered, s': Recovered, events: seq<Event>)
    requires events != [] && Lists(s, events[..|events| - 1]) && Step(s, events[|events| - 1]) == Some(s')
    ensures Lists(s', events)
  {
    hide Step, RowTells, Declared, WasSettled, EditsOf;
    var n := |events| - 1;
    var front, e := events[..n], events[n];
    StepLists(s, e);
    FirstUnsettled(events);
    forall id ensures id in s'.ready <==> Declared(events, id) { KnownStays(events, id); }
    forall id ensures id in s'.done <==> WasSettled(events, id) { KnownStays(events, id); }
    assert FirstOf(events, n) <==> Settles(e) && e.id !in s.done;
    assert s'.edits == AllEdits(events) by {
      hide FirstOf, Listing;
      assert s.edits == AllEdits(front) && AllEdits(front) + [] == AllEdits(front);
    }
    hide FirstOf, AllEdits;
    var listing := Listing(events);
    assert listing[..|s.commands|] == Listing(front);
    forall i | 0 <= i < |s'.commands|
      ensures Listable(events[listing[i]]) && RowTells(s'.commands[i], events[listing[i]])
    {
      if i < |s.commands| {
        assert listing[i] == Listing(front)[i] && events[listing[i]] == front[listing[i]];
        assert s'.commands[..|s.commands|][i] == s.commands[i];
      }
    }
  }

  /** An accepted log lists one row for the first denial or recorded completion of each command, with that event's
      number and source and what its receipt proves, and every change of every settled patch. */
  lemma {:induction false} MergeLists(events: seq<Event>)
    ensures Merge(events).Some? ==> Lists(Merge(events).value, events)
    decreases |events|
  {
    hide Lists, Step;
    if events == [] {
      assert Lists(NOTHING, []) by { NothingListed(); }
    } else if Merge(events).Some? {
      MergeLists(events[..|events| - 1]);
      NextLists(Merge(events[..|events| - 1]).value, Merge(events).value, events);
    }
  }

  lemma NothingListed()
    ensures Lists(NOTHING, [])
  {
  }

  // ----- exactly which postimages are reported -------------------------------------------------

  ghost predicate EditedBefore(events: seq<Event>, r: nat, path: string)
    requires r <= |events|
  {
    Edited(AllEdits(events[..r]), path)
  }

  predicate ReadsPath(e: Event, path: string) {
    && e.CompletedEvent? && e.work.SourceRead? && e.work.path == Some(path) && e.source.SessionContext?
    && e.work.receipt.Settled? && e.work.receipt.exitCode == 0 && e.work.receipt.success
  }

  /** Event `r` read the path in the context after an edit of it, and nothing taken in later outdates it. */
  ghost predicate ReadAfterEdits(events: seq<Event>, path: string, r: nat) {
    && FirstOf(events, r) && ReadsPath(events[r], path) && EditedBefore(events, r, path)
    && forall j :: r < j < |events| && FirstOf(events, j) ==> !Outdates(events[j], path)
  }

  /** What one recorded completion does to the postimages. */
  lemma RecordPostimages(s: Recovered, e: Event, path: string)
    requires e.CompletedEvent? && !e.work.TaskStatus? && Record(s, e).Some?
    ensures path in Record(s, e).value.postimages <==>
            (path in s.postimages && !Outdates(e, path)) || (ReadsPath(e, path) && Edited(s.edits, path))
  {
    hide Edited;
    if e.work.Patch? && e.work.receipt.Settled? {
      ChangesFrame(s.(commands := s.commands + [Row(e.id, e.sequence, e.source, ProofOf(e.work.receipt))]), e,
                   e.work.changes);
    }
  }

  lemma StepPostimages(s: Recovered, e: Event, path: string)
    requires Step(s, e).Some?
    ensures path in Step(s, e).value.postimages <==>
            if Settles(e) && e.id !in s.done then
              (path in s.postimages && !Outdates(e, path)) || (ReadsPath(e, path) && Edited(s.edits, path))
            else path in s.postimages
  {
    hide Record, Edited;
    if e.CompletedEvent? && !e.work.TaskStatus? && e.id !in s.done {
      RecordPostimages(s.(done := s.done[e.id := e.value]), e, path);
    }
  }

  lemma ReadStays(events: seq<Event>, path: string, r: nat)
    requires events != [] && r < |events| - 1
    ensures var n := |events| - 1;
            ReadAfterEdits(events, path, r) <==>
            ReadAfterEdits(events[..n], path, r) && !(FirstOf(events, n) && Outdates(events[n], path))
  {
    hide Outdates, ReadsPath, AllEdits, Edited;
    var n := |events| - 1;
    forall j: nat | j < n ensures (FirstOf(events[..n], j) <==> FirstOf(events, j)) && events[..n][j] == events[j] {
      FirstStays(events, n, j);
    }
    assert events[..n][..r] == events[..r];
    hide FirstOf;
    if ReadAfterEdits(events, path, r) {
      forall j | r < j < n && FirstOf(events[..n], j) ensures !Outdates(events[..n][j], path) {
        assert FirstOf(events, j);
      }
    }
    if ReadAfterEdits(events[..n], path, r) && !(FirstOf(events, n) && Outdates(events[n], path)) {
      forall j | r < j < |events| && FirstOf(events, j) ensures !Outdates(events[j], path) {
        if j < n { assert FirstOf(events[..n], j); }
      }
    }
  }

  /** A postimage is reported exactly for the paths that were read in the context after an edit, with nothing taken in
      later that outdates the read. */
  lemma {:induction false} PostimagesExactly(events: seq<Event>, path: string)
    requires Merge(events).Some?
    ensures path in Merge(events).value.postimages <==> exists r: nat :: ReadAfterEdits(events, path, r)
    decreases |events|
  {
    hide Step, Outdates, ReadsPath, AllEdits, Edited, FirstOf, Lists;
    if events != [] {
      var n := |events| - 1;
      var front, e, s := events[..n], events[n], Merge(events[..n]).value;
      PostimagesExactly(front, path);
      MergeLists(front);
      StepPostimages(s, e, path);
      FirstUnsettled(events);
      Listed(s, front);
      assert FirstOf(events, n) <==> Settles(e) && e.id !in s.done;
      forall r: nat | r < n ensures ReadAfterEdits(events, path, r) <==>
                                    ReadAfterEdits(front, path, r) && !(FirstOf(events, n) && Outdates(e, path)) {
        ReadStays(events, path, r);
      }
      assert ReadAfterEdits(events, path, n) <==> FirstOf(events, n) && ReadsPath(e, path) && Edited(s.edits, path);
      hide ReadAfterEdits;
      if path in Merge(events).value.postimages {
        if path in s.postimages && !(FirstOf(events, n) && Outdates(e, path)) {
          var r: nat :| ReadAfterEdits(front, path, r);
          ReadWithin(front, path, r);
          assert ReadAfterEdits(events, path, r);
        } else {
          assert ReadAfterEdits(events, path, n);
        }
      }
      if r: nat :| ReadAfterEdits(events, path, r) {
        ReadWithin(events, path, r);
        if r < n { assert ReadAfterEdits(front, path, r); }
      }
    } else {
      NoneFirst(events);
    }
  }

  lemma NoneFirst(events: seq<Event>)
    requires events == []
    ensures forall r: nat :: !FirstOf(events, r)
  {
  }

  lemma ReadWithin(events: seq<Event>, path: string, r: nat)
    requires ReadAfterEdits(events, path, r)
    ensures r < |events|
  {
  }

  lemma Listed(s: Recovered, events: seq<Event>)
    requires Lists(s, events)
    ensures s.edits == AllEdits(events) && |s.commands| == |Listing(events)|
    ensures forall id :: id in s.done <==> WasSettled(events, id)
    ensures forall id :: id in s.ready <==> Declared(events, id)
  {
    hide RowTells, Listing, AllEdits, WasSettled, Declared;
  }

  // ----- exactly which logs are accepted ---------------------------------------------------------

  ghost function DeclaredIds(events: seq<Event>): set<string> {
    set j | 0 <= j < |events| && events[j].ReadyEvent? :: events[j].id
  }

  /** The usage and the failed attempts that a log reported. */
  ghost predicate Reported(s: Recovered, events: seq<Event>) {
    && (forall r :: r in s.usage <==> exists j :: 0 <= j < |events| && events[j].UsageRecord? && events[j].runtime == r)
    && (forall r :: r in s.failedAttempts <==>
          exists j :: 0 <= j < |events| && events[j].ObservationRecord? && events[j].runtime == r
            && events[j].attempts.Some?)
    && (forall j :: 0 <= j < |events| && events[j].ObservationRecord? && events[j].attempts.Some? ==>
          Get(s.failedAttempts, events[j].runtime) == events[j].attempts)
  }

  /** A completion can be recorded: its receipt is bound, there is room, and a settled patch describes its changes. */
  ghost predicate Recordable(front: seq<Event>, e: Event)
    requires e.CompletedEvent? && !e.work.TaskStatus?
  {
    && !e.work.receipt.Inadmissible? && |Listing(front)| < LIMIT
    && (e.work.Patch? && e.work.receipt.Settled? ==>
          && e.work.changes != [] && (forall i :: 0 <= i < |e.work.changes| ==> e.work.changes[i].Some?)
          && |AllEdits(front)| + |e.work.changes| <= LIMIT)
  }

  /** The next event of an accepted log, in terms of the events before it. */
  ghost predicate Acceptable(front: seq<Event>, e: Event) {
    match e
    case OtherRecord(_, _) => true
    case UsageRecord(_, _, admissible, runtime) =>
      admissible && forall k :: 0 <= k < |front| && front[k].UsageRecord? ==> front[k].runtime != runtime
    case ObservationRecord(_, _, admissible, runtime, attempts) =>
      && admissible
      && (attempts.Some? ==>
            forall k :: 0 <= k < |front| && front[k].ObservationRecord? && front[k].runtime == runtime ==>
              front[k].attempts.None? || front[k].attempts == attempts)
    case ReadyEvent(_, source, admissible, id, command) =>
      && admissible
      && if Declared(front, id) then
           && source.SessionFeed?
           && forall k :: 0 <= k < |front| && front[k].ReadyEvent? && front[k].id == id ==> front[k].command == command
         else |DeclaredIds(front)| < LIMIT
    case DeniedEvent(_, _, _, id, _, _) =>
      Expected(front, e) && (WasSettled(front, id) || |Listing(front)| < LIMIT)
    case CompletedEvent(_, _, _, id, _, _, work) =>
      Expected(front, e) && (WasSettled(front, id) || work.TaskStatus? || Recordable(front, e))
  }

  /** The command was declared as this event repeats it, and was not settled before except as the feed repeats it. */
  ghost predicate Expected(front: seq<Event>, e: Event)
    requires Settles(e)
  {
    && e.admissible && Declared(front, e.id)
    && (forall k :: 0 <= k < |front| && front[k].ReadyEvent? && front[k].id == e.id ==> front[k].command == e.command)
    && (WasSettled(front, e.id) ==>
          && e.source.SessionFeed?
          && forall k :: 0 <= k < |front| && Settles(front[k]) && front[k].id == e.id ==> front[k].value == e.value)
  }

  lemma RecordExactly(s: Recovered, front: seq<Event>, e: Event)
    requires e.CompletedEvent? && !e.work.TaskStatus? && s.edits == AllEdits(front) && |s.commands| == |Listing(front)|
    ensures Record(s, e).Some? <==> Recordable(front, e)
  {
    hide Edited, AllEdits, Listing;
    if e.work.Patch? && e.work.receipt.Settled? {
      var s1 := s.(commands := s.commands + [Row(e.id, e.sequence, e.source, ProofOf(e.work.receipt))]);
      assert e.work.changes == e.work.changes[0..];
      ChangesListed(s1, e, e.work.changes, 0);
    }
  }

  /** The maps hold what every event of the log said. */
  ghost predicate Says(s: Recovered, events: seq<Event>) {
    && (forall k :: 0 <= k < |events| && events[k].ReadyEvent? ==>
        Get(s.ready, events[k].id) == Some(events[k].command))
    && (forall k :: 0 <= k < |events| && Settles(events[k]) ==> Get(s.done, events[k].id) == Some(events[k].value))
  }

  lemma MergeSays(events: seq<Event>)
    requires Merge(events).Some?
    ensures Says(Merge(events).value, events)
  {
    hide Merge;
    forall k | 0 <= k < |events| && IsCommand(events[k]) ensures Taken(Merge(events).value, events[k]) {
      AllTaken(events, k);
    }
  }

  lemma DeclaredAre(s: Recovered, front: seq<Event>)
    requires forall id :: id in s.ready <==> Declared(front, id)
    ensures s.ready.Keys == DeclaredIds(front) && |s.ready| == |DeclaredIds(front)|
  {
    assert |s.ready| == |s.ready.Keys|;
  }

  lemma CommandExactly(s: Recovered, front: seq<Event>, e: Event)
    requires Lists(s, front) && Says(s, front) && IsCommand(e)
    ensures Step(s, e).Some? <==> Acceptable(front, e)
  {
    Listed(s, front);
    DeclaredAre(s, front);
    hide Record, Recordable, Lists, Listing, AllEdits, DeclaredIds;
    if e.CompletedEvent? && !e.work.TaskStatus? { RecordExactly(s.(done := s.done[e.id := e.value]), front, e); }
  }

  lemma ReportExactly(s: Recovered, front: seq<Event>, e: Event)
    requires Reported(s, front) && !IsCommand(e)
    ensures Step(s, e).Some? <==> Acceptable(front, e)
  {
    if e.ObservationRecord? && e.attempts.Some? && e.runtime in s.failedAttempts {
      var j :| 0 <= j < |front| && front[j].ObservationRecord? && front[j].runtime == e.runtime
        && front[j].attempts.Some?;
    }
  }

  lemma StepReports(s: Recovered, e: Event)
    requires Step(s, e).Some?
    ensures Step(s, e).value.usage == s.usage + if e.UsageRecord? then {e.runtime} else {}
    ensures Step(s, e).value.failedAttempts ==
            if e.ObservationRecord? && e.attempts.Some? then s.failedAttempts[e.runtime := e.attempts.value]
              else s.failedAttempts
    ensures e.ObservationRecord? && e.attempts.Some? && e.runtime in s.failedAttempts ==>
              s.failedAttempts[e.runtime] == e.attempts.value
  {
    hide StepCommand;
    if IsCommand(e) { CommandUnreported(s, e); }
  }

  lemma UsageReported(s: Recovered, s': Recovered, front: seq<Event>, e: Event)
    requires Reported(s, front) && s'.usage == s.usage + if e.UsageRecord? then {e.runtime} else {}
    ensures var events := front + [e];
            forall r :: r in s'.usage <==> exists j :: 0 <= j < |events| && events[j].UsageRecord?
                                                       && events[j].runtime == r
  {
    var events := front + [e];
    forall r | r in s'.usage ensures exists j :: 0 <= j < |events| && events[j].UsageRecord? && events[j].runtime == r {
      if r in s.usage {
        var j :| 0 <= j < |front| && front[j].UsageRecord? && front[j].runtime == r;
        assert events[j].runtime == r;
      } else {
        assert events[|front|].runtime == r;
      }
    }
  }

  lemma AttemptsReported(s: Recovered, s': Recovered, front: seq<Event>, e: Event)
    requires Reported(s, front)
    requires s'.failedAttempts ==
             if e.ObservationRecord? && e.attempts.Some? then s.failedAttempts[e.runtime := e.attempts.value]
               else s.failedAttempts
    requires e.ObservationRecord? && e.attempts.Some? && e.runtime in s.failedAttempts ==>
               s.failedAttempts[e.runtime] == e.attempts.value
    ensures var events := front + [e];
            && (forall r :: r in s'.failedAttempts <==>
                  exists j :: && 0 <= j < |events| && events[j].ObservationRecord? && events[j].runtime == r
                              && events[j].attempts.Some?)
            && (forall j :: 0 <= j < |events| && events[j].ObservationRecord? && events[j].attempts.Some? ==>
                  Get(s'.failedAttempts, events[j].runtime) == events[j].attempts)
  {
    var events := front + [e];
    forall r | r in s'.failedAttempts
      ensures exists j :: && 0 <= j < |events| && events[j].ObservationRecord? && events[j].runtime == r
                          && events[j].attempts.Some?
    {
      if r in s.failedAttempts {
        var j :| 0 <= j < |front| && front[j].ObservationRecord? && front[j].runtime == r && front[j].attempts.Some?;
        assert events[j].runtime == r;
      } else {
        assert events[|front|].runtime == r;
      }
    }
  }

  lemma NextReported(s: Recovered, s': Recovered, events: seq<Event>)
    requires events != [] && Reported(s, events[..|events| - 1]) && Step(s, events[|events| - 1]) == Some(s')
    ensures Reported(s', events)
  {
    hide Step;
    var front, e := events[..|events| - 1], events[|events| - 1];
    StepReports(s, e);
    UsageReported(s, s', front, e);
    AttemptsReported(s, s', front, e);
    assert front + [e] == events;
  }

  lemma CommandUnreported(s: Recovered, e: Event)
    requires IsCommand(e) && Step(s, e).Some?
    ensures Step(s, e).value.usage == s.usage && Step(s, e).value.failedAttempts == s.failedAttempts
  {
    hide Edited;
    if e.CompletedEvent? && e.work.Patch? {
      ChangesUnreported(s.(done := s.done[e.id := e.value],
                           commands := s.commands + [Row(e.id, e.sequence, e.source, ProofOf(e.work.receipt))]),
                        e, e.work.changes);
    }
  }

  lemma {:induction false} ChangesUnreported(s: Recovered, e: Event, changes: seq<Option<string>>)
    requires e.CompletedEvent?
    ensures var r := ApplyChanges(s, e, changes);
            r.Some? ==> r.value.usage == s.usage && r.value.failedAttempts == s.failedAttempts
    decreases |changes|
  {
    if changes != [] && changes[0].Some? {
      ChangesUnreported(s.(edits := s.edits + [Edit(changes[0].value, e.sequence, e.source, e.id)],
                           postimages := s.postimages - {changes[0].value}), e, changes[1..]);
    }
  }

  lemma {:induction false} MergeReported(events: seq<Event>)
    ensures Merge(events).Some? ==> Reported(Merge(events).value, events)
    decreases |events|
  {
    hide Step, Reported;
    if events == [] {
      assert Reported(NOTHING, []) by { NothingReported(); }
    } else if Merge(events).Some? {
      MergeReported(events[..|events| - 1]);
      NextReported(Merge(events[..|events| - 1]).value, Merge(events).value, events);
    }
  }

  lemma NothingReported()
    ensures Reported(NOTHING, [])
  {
  }

  /** A log is accepted exactly when each of its events is acceptable after the events before it. */
  lemma {:induction false} AcceptedExactly(events: seq<Event>)
    ensures Merge(events).Some? <==> forall n :: 0 <= n < |events| ==> Acceptable(events[..n], events[n])
    decreases |events|
  {
    hide Step, Acceptable, Lists, Says, Reported;
    if events != [] {
      var last := |events| - 1;
      var front := events[..last];
      AcceptedExactly(front);
      assert forall n :: 0 <= n < last ==> front[..n] == events[..n] && front[n] == events[n];
      if Merge(front).Some? {
        MergeLists(front);
        MergeSays(front);
        MergeReported(front);
        if IsCommand(events[last]) { CommandExactly(Merge(front).value, front, events[last]); }
        else { ReportExactly(Merge(front).value, front, events[last]); }
      }
      if forall n :: 0 <= n < |events| ==> Acceptable(events[..n], events[n]) {
        forall n | 0 <= n < |front| ensures Acceptable(front[..n], front[n]) {
          assert Acceptable(events[..n], events[n]);
        }
      }
      if Merge(events).Some? {
        forall n | 0 <= n < |events| ensures Acceptable(events[..n], events[n]) {
          if n < last { assert Acceptable(front[..n], front[n]); }
        }
      }
    }
  }

  // ----- an ordinary log -----------------------------------------------------------------------

  const USAGE := UsageRecord(0, SessionContext, true, "runtime")
  const EDIT_READY := ReadyEvent(1, SessionContext, true, "edit", "patch")
  const NOTE := OtherRecord(2, SessionContext)
  const EDIT_DONE := CompletedEvent(3, SessionContext, true, "edit", "patch", "edited",
                                    Patch([Some("file")], Receipt.Settled(0, true)))
  const READ_READY := ReadyEvent(4, SessionContext, true, "read", "source")
  const READ_DONE := CompletedEvent(5, SessionContext, true, "read", "source", "shown",
                                    SourceRead(Some("file"), "sha", Receipt.Settled(0, true)))

  /** A context with usage and other records between its commands reports the postimage read after the edit. */
  lemma PostimageReported()
    ensures var log := [USAGE, EDIT_READY, NOTE, EDIT_DONE, READ_READY, READ_DONE];
            TwoLogs(log, 6) && Merge(log).Some? && Merge(log).value.postimages == map["file" := Postimage("sha", 5)]
  {
    hide Merge, Record, Step, TwoLogs;
    LogOrdered();
    var l1, l2, l3 := [USAGE], [USAGE] + [EDIT_READY], [USAGE] + [EDIT_READY] + [NOTE];
    var l4, l5 := l3 + [EDIT_DONE], l3 + [EDIT_DONE] + [READ_READY];
    assert l5 + [READ_DONE] == [USAGE, EDIT_READY, NOTE, EDIT_DONE, READ_READY, READ_DONE];
    MergeNothing([]);
    assert [] + [USAGE] == l1;
    MergeSnoc([], USAGE);
    MergeSnoc(l1, EDIT_READY);
    MergeSnoc(l2, NOTE);
    PlainTaken(NOTHING, USAGE, EDIT_READY, NOTE);
    MergeSnoc(l3, EDIT_DONE);
    EditTaken(Merge(l3).value);
    MergeSnoc(l4, READ_READY);
    DeclarationTaken(Merge(l4).value, READ_READY);
    MergeSnoc(l5, READ_DONE);
    ReadTaken(Merge(l5).value);
  }

  lemma LogOrdered()
    ensures TwoLogs([USAGE, EDIT_READY, NOTE, EDIT_DONE, READ_READY, READ_DONE], 6)
  {
  }

  lemma DeclarationTaken(s: Recovered, e: Event)
    requires e.ReadyEvent? && e.admissible && e.id !in s.ready && |s.ready| < LIMIT
    ensures Step(s, e) == Some(s.(ready := s.ready[e.id := e.command]))
  {
    hide Record;
  }

  lemma PlainTaken(s: Recovered, usage: Event, ready: Event, note: Event)
    requires usage.UsageRecord? && usage.admissible && usage.runtime !in s.usage && note.OtherRecord?
    requires ready.ReadyEvent? && ready.admissible && ready.id !in s.ready && |s.ready| < LIMIT
    ensures Step(s, usage) == Some(s.(usage := s.usage + {usage.runtime}))
    ensures Step(s.(usage := s.usage + {usage.runtime}), ready)
            == Some(s.(usage := s.usage + {usage.runtime}, ready := s.ready[ready.id := ready.command]))
    ensures forall r: Recovered :: Step(r, note) == Some(r)
  {
    hide Record;
  }

  lemma EditTaken(s: Recovered)
    requires "edit" in s.ready && s.ready["edit"] == "patch" && s.done == map[] && s.commands == [] && s.edits == []
    ensures Step(s, EDIT_DONE).Some?
    ensures var r := Step(s, EDIT_DONE).value;
            r.ready == s.ready && r.done == map["edit" := "edited"] && |r.commands| == 1 && |r.edits| == 1
              && r.edits[0].path == "file" && r.postimages == s.postimages - {"file"}
  {
    var s1 := s.(done := map["edit" := "edited"], commands := [Row("edit", 3, SessionContext, KnownSuccess)]);
    assert s.done["edit" := "edited"] == map["edit" := "edited"]
      && s.commands + [Row("edit", 3, SessionContext, KnownSuccess)] == s1.commands;
    var none: seq<Option<string>> := [];
    assert [Some("file")][1..] == none;
    assert ApplyChanges(s1, EDIT_DONE, [Some("file")]).Some?;
  }

  lemma ReadTaken(s: Recovered)
    requires "read" in s.ready && s.ready["read"] == "source" && "read" !in s.done && |s.commands| == 1
             && |s.edits| == 1 && s.edits[0].path == "file"
    ensures Step(s, READ_DONE).Some? && Step(s,
                                             READ_DONE).value.postimages == s.postimages["file" := Postimage("sha", 5)]
  {
  }
}
