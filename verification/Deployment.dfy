/**
 Deployment of one action id: three admitted commands and an optional closeout, run at most once over any number
 of calls, with a create-only run directory as the only memory. The environment answers every question and decides
 the fate of every effect: it may complete, raise before or after taking place, leave a torn file, or kill the
 caller at that point.
 */
module Deployment {
  import opened Records

  datatype Command = Preflight | ApplyRelease | VerifyRelease | Closeout

  const STAGES := [Preflight, ApplyRelease, VerifyRelease]

  function Rank(c: Command): nat {
    match c case Preflight => 0 case ApplyRelease => 1 case VerifyRelease => 2 case Closeout => 3
  }

  /** One spawned command as the outside world saw it. `attested` is the stage's attestation on standard output,
      or for the closeout its completion receipt. */
  datatype Execution = Execution(command: Command, returncode: int, failed: bool, clean: bool, attested: bool)

  predicate Exited(x: Execution) { x.returncode == 0 && !x.failed && x.clean }

  predicate RanWell(x: Execution) { Exited(x) && (x.command.ApplyRelease? || x.attested) }

  function Commands(log: seq<Execution>): (r: seq<Command>)
    ensures |r| == |log|
    ensures forall i :: 0 <= i < |r| ==> r[i] == log[i].command
  {
    seq(|log|, i requires 0 <= i < |log| => log[i].command)
  }

  predicate Ran(log: seq<Execution>, commands: seq<Command>) {
    Commands(log) == commands && forall i :: 0 <= i < |log| ==> RanWell(log[i])
  }

  datatype Fate = Completes | RaisesBefore | RaisesAfter | DiesBefore | DiesAfter
  datatype Answer = Answer(fate: Fate, torn: bool, ok: bool, returncode: int, failed: bool, clean: bool, attested: bool)

  datatype Plan = Plan(digest: string, closeout: bool)

  datatype File = PlanFile | PinFile | StartedFile(command: Command) | ResultFile(command: Command)
                | SupervisionFile | TerminalFile
  datatype Document = PlanDocument(plan: Plan) | TerminalDocument(terminal: Terminal) | OtherDocument | Torn

  datatype Status = Verified | CloseoutBlocked | EffectUncertain | BlockedBeforeEffect
  datatype Terminal = Terminal(digest: string, status: Status, blocked: bool, attempted: bool, deploymentVerified: bool,
                               rows: seq<Execution>)

  datatype Reply = Ready | Replayed(terminal: Terminal) | Finished(terminal: Terminal) | Refused | Died
  datatype Effect = Ok | Raised | Gone

  /** What a run of the stages reports; `blocked` is the first typed blocker being set. */
  datatype Report = Report(rows: seq<Execution>, blocked: bool, cleanupPass: bool)

  /** What a terminal of a deployment may claim about the commands that were spawned. */
  ghost predicate Sound(t: Terminal, plan: Plan, log: seq<Execution>) {
    && (t.status.Verified? ==> Ran(log, if plan.closeout then STAGES + [Closeout] else STAGES))
    && (t.status.CloseoutBlocked? || t.deploymentVerified ==> |log| >= 3 && Ran(log[..3], STAGES))
    && (t.status.CloseoutBlocked? ==> plan.closeout)
    && (t.status.BlockedBeforeEffect? ==> forall x :: x in log ==> x.command.Preflight?)
  }

  /** How a deployment went: whether the stages' report was lost, whether they were blocked, whether the report was
      saved, and whether the closeout ran and was verified. */
  datatype Course = Course(lost: bool, stagesBlocked: bool, supervised: bool, closeoutRan: bool, closeoutVerified: bool)

  /** What a deployment hands to its terminal. */
  datatype Run = Run(report: Report, lost: bool, closeoutRan: bool, blocked: bool)

  ghost predicate Went(r: Run, c: Course, plan: Plan, log: seq<Execution>) {
    && c.stagesBlocked == r.report.blocked && c.lost == r.lost && c.closeoutRan == r.closeoutRan
    && |r.report.rows| <= |log| && r.report.rows == log[..|r.report.rows|] && (c.lost ==> r.report.rows == [])
    && (!r.report.blocked ==> |r.report.rows| == 3)
    && (r.report.cleanupPass <==> r.report.rows != [] && forall x :: x in r.report.rows ==> x.clean)
    && (r.blocked <==> || r.report.blocked || !r.report.cleanupPass || !c.supervised
                       || (plan.closeout && !c.closeoutVerified))
    && (plan.closeout && !r.report.blocked && r.report.cleanupPass && c.supervised ==> c.closeoutRan)
    && (c.closeoutRan ==> r.report.cleanupPass)
    && (!r.blocked ==> Ran(log, if plan.closeout then STAGES + [Closeout] else STAGES))
    && (!r.report.blocked && !r.closeoutRan ==> Ran(log, STAGES))
  }

  ghost predicate Digested(t: Terminal, plan: Plan) { t.digest == plan.digest }

  lemma AssembledDigest(plan: Plan, report: Report, lost: bool, closeoutRan: bool, blocked: bool, attempted: bool)
    ensures Digested(Assemble(plan, report, lost, closeoutRan, blocked, attempted), plan)
  {
  }

  /** What is known of a course from the directory and from the commands that were spawned. */
  ghost predicate Took(c: Course, plan: Plan, files: map<File, Document>, log: seq<Execution>) {
    && (!c.stagesBlocked ==> |log| >= 3 && Ran(log[..3], STAGES))
    && (c.lost ==> c.stagesBlocked && !c.supervised)
    && (c.supervised ==> SupervisionFile in files)
    && (c.closeoutRan ==> plan.closeout && !c.stagesBlocked && c.supervised)
    && (!c.closeoutRan ==> |log| <= 3)
    && (c.closeoutVerified ==> c.closeoutRan && |log| == 4 && RanWell(log[3]))
  }

  /** The terminal says exactly how the deployment went. */
  ghost predicate Tells(t: Terminal, c: Course, plan: Plan, files: map<File, Document>, log: seq<Execution>) {
    && t.digest == plan.digest && (t.attempted <==> StartedFile(ApplyRelease) in files)
    && |t.rows| <= |log| && t.rows == log[..|t.rows|]
    && (c.lost ==> t.rows == []) && (!c.stagesBlocked ==> |t.rows| == 3)
    && (t.blocked <==>
          || c.stagesBlocked || !c.supervised || (exists i :: 0 <= i < |t.rows| && !t.rows[i].clean)
          || (plan.closeout && !c.closeoutVerified))
    && (t.deploymentVerified <==>
          && !c.stagesBlocked && (forall i :: 0 <= i < |t.rows| ==> t.rows[i].clean)
          && (c.supervised && (plan.closeout ==> c.closeoutRan)))
    && (t.status.Verified? <==> !t.blocked)
    && (t.status.CloseoutBlocked? <==> t.blocked && c.closeoutRan)
    && (t.status.BlockedBeforeEffect? <==> t.blocked && !c.closeoutRan && !c.lost
                                           && StartedFile(ApplyRelease) !in files)
    && (t.status.EffectUncertain? <==>
          t.blocked && !c.closeoutRan && (c.lost || StartedFile(ApplyRelease) in files))
  }

  /** What a terminal of a standalone closeout may claim. */
  ghost predicate CloseoutSound(t: Terminal, log: seq<Execution>) {
    && (t.status.Verified? ==> Ran(log, [Closeout]))
    && (t.status.BlockedBeforeEffect? ==> log == [])
    && !t.status.CloseoutBlocked? && !t.deploymentVerified
  }

  /** The terminal of a standalone closeout: verified, uncertain exactly when it was started, or blocked before. */
  ghost predicate CloseoutTells(t: Terminal, plan: Plan, files: map<File, Document>, log: seq<Execution>) {
    && t.digest == plan.digest && t.rows == log && !t.deploymentVerified && (t.blocked <==> !t.status.Verified?)
    && (t.attempted <==> StartedFile(Closeout) in files)
    && (t.status.EffectUncertain? <==> t.blocked && t.attempted)
    && (t.status.BlockedBeforeEffect? <==> t.blocked && !t.attempted)
    && (t.status.Verified? ==> |log| == 1 && RanWell(log[0]) && log[0].command.Closeout?)
  }

  /** The run directory of one action. A deployment starts with the preflight, a standalone closeout with itself. */
  class RunDirectory {
    const answers: nat -> Answer
    const first: Command
    var clock: nat
    var created: bool
    var files: map<File, Document>
    var log: seq<Execution>

    /** Commands are spawned at most once each, in order from the first, after their start was recorded. */
    ghost predicate OnceInOrder()
      reads this`created, this`files, this`log
    {
      && (!created ==> files == map[] && log == [])
      && (forall i :: 0 <= i < |log| ==> Rank(log[i].command) == Rank(first) + i
                                         && StartedFile(log[i].command) in files)
    }

    ghost predicate Valid()
      reads this`created, this`files, this`log
    {
      && OnceInOrder()
      && (TerminalFile in files && files[TerminalFile].TerminalDocument? ==>
            && PlanFile in files && files[PlanFile].PlanDocument?
            && Claims(files[TerminalFile].terminal, files[PlanFile].plan))
    }

    ghost predicate Claims(t: Terminal, plan: Plan)
      reads this`log
    {
      if first.Closeout? then CloseoutSound(t, log) else Sound(t, plan, log)
    }

    /** An environment in which every check holds, every effect completes and every command succeeds. */
    ghost predicate Smooth() {
      forall n :: answers(n).fate.Completes? && answers(n).ok && answers(n).returncode == 0 && !answers(n).failed
        && answers(n).clean && answers(n).attested
    }

    /** Nothing was recorded yet for the commands from this rank on, nor at the end. */
    ghost predicate Clear(rank: nat)
      reads this`files
    {
      && SupervisionFile !in files && TerminalFile !in files
      && forall c :: Rank(c) >= rank ==> StartedFile(c) !in files && ResultFile(c) !in files
    }

    constructor (environment: nat -> Answer, start: Command)
      ensures Valid() && !created && log == [] && first == start
    {
      answers, first := environment, start;
      clock, created, files, log := 0, false, map[], [];
    }

    method Ask() returns (a: Answer)
      modifies this`clock
      ensures Smooth() ==> a.fate.Completes? && a.ok && a.returncode == 0 && !a.failed && a.clean && a.attested
    {
      a := answers(clock);
      clock := clock + 1;
    }

    /** An exclusive create followed by a durable write. */
    method Save(file: File, document: Document) returns (e: Effect)
      modifies this`clock, this`files
      ensures e.Ok? ==> file !in old(files) && files == old(files)[file := document]
      ensures Smooth() && file !in old(files) ==> e.Ok?
      ensures !e.Ok? ==> || files == old(files)
                         || (file !in old(files) && (files == old(files)[file := document]
                                                     || files == old(files)[file := Torn]))
    {
      var a := Ask();
      if a.fate.DiesBefore? { return Gone; }
      if a.fate.RaisesBefore? || file in files { return Raised; }
      if a.fate.Completes? {
        files := files[file := document];
        return Ok;
      }
      files := files[file := if a.torn then Torn else document];
      return if a.fate.RaisesAfter? then Raised else Gone;
    }

    method Spawn(command: Command) returns (e: Effect, x: Execution)
      modifies this`clock, this`log
      ensures x.command == command
      ensures log == old(log) + [x] || (log == old(log) && !e.Ok?)
      ensures Smooth() ==> e.Ok? && Exited(x) && x.attested
    {
      var a := Ask();
      x := Execution(command, a.returncode, a.failed, a.clean, a.attested);
      if a.fate.DiesBefore? { return Gone, x; }
      if a.fate.RaisesBefore? { return Raised, x; }
      log := log + [x];
      return match a.fate case Completes => Ok case RaisesAfter => Raised case _ => Gone, x;
    }

    /** Records the start and spawns the next command in order; a command whose start is already recorded is not run. */
    method StartAndSpawn(command: Command) returns (e: Effect, x: Execution)
      requires OnceInOrder() && created && TerminalFile !in files && Rank(command) == Rank(first) + |log|
      modifies this`clock, this`files, this`log
      ensures OnceInOrder() && TerminalFile !in files && Keeps(old(files), files)
      ensures x.command == command
      ensures log == old(log) + [x] || (log == old(log) && !e.Ok?)
      ensures Smooth() && StartedFile(command) !in old(files) ==>
                e.Ok? && Exited(x) && x.attested && files == old(files)[StartedFile(command) := OtherDocument]
    {
      x := Execution(command, 0, true, false, false);
      e := Save(StartedFile(command), OtherDocument);
      if e.Ok? { e, x := Spawn(command); }
    }

    /** Freshness, lease and cancellation checks, start record, command, result record, attestation; failures raise. */
    method RunStage(stage: Command) returns (e: Effect, row: Option<Execution>)
      requires OnceInOrder() && created && TerminalFile !in files && Rank(stage) == Rank(first) + |log|
      modifies this`clock, this`files, this`log
      ensures OnceInOrder() && TerminalFile !in files && Keeps(old(files), files)
      ensures log == old(log) || exists x: Execution :: log == old(log) + [x]
      ensures row.Some? ==> log == old(log) + [row.value]
      ensures e.Ok? ==> row.Some? && RanWell(row.value) && row.value.command == stage && log == old(log) + [row.value]
      ensures Smooth() && old(Clear(Rank(stage))) ==> e.Ok? && row.value.clean && Clear(Rank(stage) + 1)
    {
      hide OnceInOrder;
      row := None;
      var checks := Ask();
      if !checks.ok { return Raised, None; }
      var x;
      e, x := StartAndSpawn(stage);
      if !e.Ok? { return; }
      row := Some(x);
      var saved := SaveResult(stage);
      if !saved.Ok? { return saved, row; }
      if !Exited(x) || !(stage.ApplyRelease? || x.attested) { return Raised, row; }
    }

    method SaveResult(command: Command) returns (e: Effect)
      requires OnceInOrder() && created && TerminalFile !in files
      modifies this`clock, this`files
      ensures OnceInOrder() && TerminalFile !in files && Keeps(old(files), files)
      ensures Smooth() && ResultFile(command) !in old(files) ==>
                e.Ok? && files == old(files)[ResultFile(command) := OtherDocument]
    {
      e := Save(ResultFile(command), OtherDocument);
    }

    method RunStages() returns (died: bool, report: Report)
      requires OnceInOrder() && created && first.Preflight? && log == [] && TerminalFile !in files
      modifies this`clock, this`files, this`log
      ensures OnceInOrder() && TerminalFile !in files && Keeps(old(files), files)
      ensures |log| <= 3
      ensures !died ==> && |report.rows| <= |log| && report.rows == log[..|report.rows|]
                        && (report.cleanupPass <==> report.rows != [] && forall x :: x in report.rows ==> x.clean)
      ensures !died && !report.blocked ==> Ran(log, STAGES) && report.rows == log
      ensures Smooth() && old(Clear(0)) ==> !died && !report.blocked && report.cleanupPass && Clear(3)
    {
      hide OnceInOrder;
      var i, blocked := 0, false;
      var rows := [];
      while i < |STAGES| && !blocked
        invariant 0 <= i <= |STAGES| && OnceInOrder() && TerminalFile !in files && Keeps(old(files), files)
        invariant |log| <= i + (if blocked then 1 else 0) && (blocked ==> i < |STAGES|)
        invariant !blocked ==> rows == log && Ran(log, STAGES[..i])
        invariant |rows| <= |log| && rows == log[..|rows|]
        invariant Smooth() && old(Clear(0)) ==> !blocked && Clear(i) && forall x :: x in rows ==> x.clean
        decreases |STAGES| - i, if blocked then 0 else 1
      {
        assert Rank(STAGES[i]) == i;
        var e, row := RunStage(STAGES[i]);
        if row.Some? { rows := rows + [row.value]; }
        if e.Gone? { return true, Report(rows, true, false); }
        if e.Raised? { blocked := true; } else { i := i + 1; }
      }
      if !blocked {
        assert STAGES[..i] == STAGES;
        var late := Ask();
        blocked := !late.ok;
      }
      return false, Report(rows, blocked, |rows| > 0 && forall x :: x in rows ==> x.clean);
    }

    /** Never re-runs an uncertain finish: an existing completion receipt or start record blocks it. */
    method RunCloseout() returns (e: Effect, verified: bool)
      requires OnceInOrder() && created && TerminalFile !in files && Rank(Closeout) == Rank(first) + |log|
      modifies this`clock, this`files, this`log
      ensures OnceInOrder() && TerminalFile !in files && Keeps(old(files), files)
      ensures log == old(log) || exists x: Execution :: log == old(log) + [x]
      ensures !e.Raised?
      ensures Smooth() && StartedFile(Closeout) !in old(files) && ResultFile(Closeout) !in old(files) ==>
                e.Ok? && verified
      ensures e.Ok? && verified ==> exists x: Execution :: RanWell(x) && x.command.Closeout? && log == old(log) + [x]
    {
      hide OnceInOrder;
      verified := false;
      var checks := Ask();
      if checks.ok {
        var x;
        e, x := StartAndSpawn(Closeout);
        if e.Gone? { return e, false; }
        verified := e.Ok? && Exited(x) && x.attested;
      }
      e := SaveResult(Closeout);
      if e.Gone? { return e, false; }
      return Ok, verified && e.Ok?;
    }

    /** What an existing run directory answers: its own terminal, or a refusal. Nothing is run or written. */
    method Replay(plan: Plan) returns (reply: Reply)
      requires Valid() && created
      ensures reply == ReplayOf(files, plan)
    {
      if PlanFile !in files || files[PlanFile] != PlanDocument(plan) { return Refused; }
      if TerminalFile !in files { return Refused; }
      match files[TerminalFile]
      case TerminalDocument(terminal) => return if terminal.digest == plan.digest then Replayed(terminal) else Refused;
      case _ => return Refused;
    }

    /** Creates the directory and saves the plan and, with a closeout, the pinned paths. */
    method Prepare(plan: Plan) returns (e: Effect)
      requires Valid() && !created
      modifies this`clock, this`created, this`files
      ensures OnceInOrder() && TerminalFile !in files
      ensures e.Ok? ==> created && PlanFile in files && files[PlanFile] == PlanDocument(plan)
      ensures Smooth() ==> e.Ok? && Clear(0)
    {
      var made := Ask();
      if made.fate.DiesBefore? { return Gone; }
      if made.fate.RaisesBefore? { return Raised; }
      created := true;
      if !made.fate.Completes? { return if made.fate.RaisesAfter? then Raised else Gone; }
      e := Save(PlanFile, PlanDocument(plan));
      if !e.Ok? || !plan.closeout { return; }
      e := Save(PinFile, OtherDocument);
    }

    /** Saves the terminal; one that is not durable is returned as uncertain. */
    method Conclude(terminal: Terminal, plan: Plan) returns (reply: Reply)
      requires OnceInOrder() && created && TerminalFile !in files && PlanFile in files
               && files[PlanFile] == PlanDocument(plan)
      requires Claims(terminal, plan)
      modifies this`clock, this`files
      ensures Valid()
      ensures reply.Died? || (reply.Finished? && Claims(reply.terminal, plan))
      ensures reply.Finished? ==> reply.terminal == terminal || reply.terminal == terminal.(status := EffectUncertain)
      ensures Smooth() || (reply.Finished? && !reply.terminal.status.EffectUncertain?) ==>
                reply == Finished(terminal) && TerminalFile in files
                  && files[TerminalFile] == TerminalDocument(terminal)
      ensures files.Keys - {TerminalFile} == old(files).Keys && Keeps(old(files), files)
      ensures TerminalFile in files ==> files[TerminalFile] == TerminalDocument(terminal) || files[TerminalFile].Torn?
    {
      var e := Save(TerminalFile, TerminalDocument(terminal));
      if e.Gone? { return Died; }
      return Finished(if e.Ok? then terminal else terminal.(status := EffectUncertain));
    }

    /** The reply is the terminal that was meant, or says that it may not be durable. A terminal that was saved whole
        is what later calls replay, and so is every reply that is not uncertain. */
    ghost predicate Answers(reply: Reply, meant: Terminal, plan: Plan)
      requires reply.Finished?
      reads this`files
    {
      && (reply.terminal == meant || reply.terminal == meant.(status := EffectUncertain))
      && (TerminalFile in files && files[TerminalFile].TerminalDocument? ==> ReplayOf(files, plan) == Replayed(meant))
      && (!reply.terminal.status.EffectUncertain? ==> ReplayOf(files, plan) == Replayed(reply.terminal))
    }

    /** At most one call per directory ever runs anything; every other call only reads. */
    method Execute(plan: Plan, checkOnly: bool)
      returns (reply: Reply, ghost course: Course, ghost meant: Option<Terminal>)
      requires Valid() && first.Preflight?
      modifies this
      ensures Valid()
      ensures old(created) || checkOnly ==> log == old(log) && files == old(files) && created == old(created)
      ensures reply.Replayed? ==> TerminalDocument(reply.terminal) in old(files).Values
      ensures reply.Replayed? ==> reply.terminal.digest == plan.digest && PlanDocument(plan) in old(files).Values
      ensures reply.Replayed? || reply.Finished? ==> Sound(reply.terminal, plan, log)
      ensures old(created) ==> reply == ReplayOf(old(files), plan)
      ensures reply.Finished? ==>
                && meant.Some? && Took(course, plan, files, log) && Tells(meant.value, course, plan, files, log)
                && Answers(reply, meant.value, plan)
      ensures Smooth() && !old(created) && !checkOnly ==>
                reply.Finished? && reply.terminal.status.Verified? && ReplayOf(files, plan) == Replayed(reply.terminal)
    {
      hide OnceInOrder, Sound, Ran;
      course, meant := Course(false, true, false, false, false), None;
      if created {
        reply := Replay(plan);
        return;
      }
      var checks := Ask();
      if !checks.ok { reply := Refused; return; }
      if checkOnly { reply := Ready; return; }
      assert log == [] by { Idle(); }
      var e := Prepare(plan);
      if !e.Ok? { reply := if e.Gone? then Died else Refused; return; }
      var died, run;
      died, run, course := Deploy(plan);
      if died { reply := Died; return; }
      var terminal := Assemble(plan, run.report, run.lost, run.closeoutRan, run.blocked,
                               StartedFile(ApplyRelease) in files);
      meant := Some(terminal);
      Assembled(plan, run.report, run.lost, run.closeoutRan, run.blocked);
      CourseTold(plan, run.report, course, run.blocked, files, log);
      hide Assemble, Took, Tells;
      ghost var before := files;
      assert Digested(terminal, plan) by {
        AssembledDigest(plan, run.report, run.lost, run.closeoutRan, run.blocked, StartedFile(ApplyRelease) in files);
      }
      reply := Conclude(terminal, plan);
      StillTells(terminal, course, plan, before, files, log);
    }

    /** The stages, their saved report and, if the plan has one, the closeout. */
    method Deploy(plan: Plan) returns (died: bool, run: Run, ghost course: Course)
      requires OnceInOrder() && created && first.Preflight? && log == [] && TerminalFile !in files
      modifies this`clock, this`files, this`log
      ensures OnceInOrder() && TerminalFile !in files && Keeps(old(files), files)
      ensures !died ==> Took(course, plan, files, log) && Went(run, course, plan, log)
      ensures Smooth() && old(Clear(0)) ==> !died && !run.blocked
    {
      hide OnceInOrder, Ran;
      run := Run(Report([], true, false), false, false, true);
      course := Course(false, true, false, false, false);
      died := false;
      var lease := Ask();
      if plan.closeout && !lease.ok { return; }
      var report;
      died, report := RunStages();
      if died { return; }
      if !report.blocked { RanLength(log, STAGES); assert log[..3] == log; }
      var restored := Ask();
      if !restored.ok {
        run, course := run.(lost := true), course.(lost := true);
        return;
      }
      var e := SaveSupervision();
      if e.Gone? { died := true; return; }
      var blocked := report.blocked || !report.cleanupPass || Commands(report.rows) != STAGES || e.Raised?;
      run, course := Run(report, false, false, blocked), Course(false, report.blocked, e.Ok?, false, false);
      if !blocked && plan.closeout {
        ghost var staged := log;
        var verified;
        e, verified := RunCloseout();
        if e.Gone? { died := true; return; }
        CloseoutAppended(staged, log, verified);
        run := run.(closeoutRan := true, blocked := !verified);
        course := course.(closeoutRan := true, closeoutVerified := verified);
      }
    }

    method SaveSupervision() returns (e: Effect)
      requires OnceInOrder() && created && TerminalFile !in files
      modifies this`clock, this`files
      ensures OnceInOrder() && TerminalFile !in files && Keeps(old(files), files)
      ensures e.Ok? ==> SupervisionFile in files
      ensures Smooth() && old(Clear(3)) ==> e.Ok? && StartedFile(Closeout) !in files && ResultFile(Closeout) !in files
    {
      e := Save(SupervisionFile, OtherDocument);
    }

    /** The standalone closeout of a source task. */
    method ExecuteCloseout(plan: Plan, checkOnly: bool) returns (reply: Reply, ghost meant: Option<Terminal>)
      requires Valid() && first.Closeout? && plan.closeout
      modifies this
      ensures Valid()
      ensures old(created) || checkOnly ==> log == old(log) && files == old(files) && created == old(created)
      ensures reply.Replayed? ==> TerminalDocument(reply.terminal) in old(files).Values
      ensures reply.Replayed? ==> reply.terminal.digest == plan.digest && PlanDocument(plan) in old(files).Values
      ensures reply.Replayed? || reply.Finished? ==> CloseoutSound(reply.terminal, log)
      ensures old(created) ==> reply == ReplayOf(old(files), plan)
      ensures reply.Finished? ==> meant.Some? && CloseoutTells(meant.value, plan, files, log)
                                  && Answers(reply, meant.value, plan)
      ensures Smooth() && !old(created) && !checkOnly ==>
                reply.Finished? && reply.terminal.status.Verified? && ReplayOf(files, plan) == Replayed(reply.terminal)
    {
      hide OnceInOrder;
      meant := None;
      if created {
        reply := Replay(plan);
        return;
      }
      var checks := Ask();
      if !checks.ok { reply := Refused; return; }
      if checkOnly { reply := Ready; return; }
      assert log == [] by { Idle(); }
      var e := Prepare(plan);
      if !e.Ok? { reply := if e.Gone? then Died else Refused; return; }
      var verified;
      e, verified := RunCloseout();
      if e.Gone? { reply := Died; return; }
      var attempted := StartedFile(Closeout) in files;
      var status := if verified then Verified else if attempted then EffectUncertain else BlockedBeforeEffect;
      CloseoutStarted();
      var terminal := Terminal(plan.digest, status, !verified, attempted, false, log);
      meant := Some(terminal);
      reply := Conclude(terminal, plan);
      assert StartedFile(Closeout) in files <==> StartedFile(Closeout) in files.Keys - {TerminalFile};
    }

    /** A second call for the same plan replays what the first one finished with. */
    method ExecuteTwice(plan: Plan) returns (one: Reply, two: Reply)
      requires Valid() && first.Preflight? && !created
      modifies this
      ensures Valid()
      ensures one.Finished? && !one.terminal.status.EffectUncertain? ==> two == Replayed(one.terminal)
      ensures Smooth() ==> one.Finished? && one.terminal.status.Verified? && two == Replayed(one.terminal)
    {
      hide Valid, Took, Tells, Sound;
      ghost var course, meant;
      one, course, meant := Execute(plan, false);
      if ReplayOf(files, plan).Replayed? { RunExists(plan); }
      two, course, meant := Execute(plan, false);
    }

    /** Whatever was called and wherever it died, no command was ever spawned twice. */
    lemma SpawnedAtMostOnce(i: nat, j: nat)
      requires Valid() && i < j < |log|
      ensures log[i].command != log[j].command
    {
      assert Rank(log[i].command) < Rank(log[j].command);
    }

    /** A directory that replays a plan exists. */
    lemma RunExists(plan: Plan)
      requires Valid() && ReplayOf(files, plan).Replayed?
      ensures created
    {
    }

    lemma Idle()
      requires OnceInOrder() && !created
      ensures log == []
    {
    }

    lemma CloseoutStarted()
      requires OnceInOrder() && first.Closeout?
      ensures log != [] ==> StartedFile(Closeout) in files
    {
      assert log != [] ==> Rank(log[0].command) == Rank(Closeout);
    }

    lemma Assembled(plan: Plan, report: Report, lost: bool, closeoutRan: bool, blocked: bool)
      requires OnceInOrder() && first.Preflight?
      requires !blocked ==> Ran(log, if plan.closeout then STAGES + [Closeout] else STAGES)
      requires closeoutRan ==> plan.closeout
      requires closeoutRan ==> |log| >= 3 && Ran(log[..3], STAGES)
      requires !report.blocked && !closeoutRan ==> Ran(log, STAGES)
      ensures Sound(Assemble(plan, report, lost, closeoutRan, blocked, StartedFile(ApplyRelease) in files), plan, log)
    {
      assert |log| == 3 ==> log[..3] == log;
      if StartedFile(ApplyRelease) !in files {
        assert |log| > 1 ==> Rank(log[1].command) == 1;
      }
    }
  }

  /** A directory answers with its own complete terminal of the same plan, or not at all. */
  function ReplayOf(files: map<File, Document>, plan: Plan): Reply {
    if && PlanFile in files && files[PlanFile] == PlanDocument(plan)
       && TerminalFile in files && files[TerminalFile].TerminalDocument?
       && files[TerminalFile].terminal.digest == plan.digest
    then Replayed(files[TerminalFile].terminal) else Refused
  }

  /** A lost stage report may hide an effect, so it is never advertised as blocked before the effect. */
  function Assemble(plan: Plan, report: Report, lost: bool, closeoutRan: bool, blocked: bool, attempted: bool)
    : Terminal
  {
    var status := if closeoutRan && blocked then CloseoutBlocked
                  else if !blocked then Verified
                  else if attempted || lost then EffectUncertain
                  else BlockedBeforeEffect;
    var deploymentVerified := |report.rows| == |STAGES| && !report.blocked && report.cleanupPass
      && (!blocked || closeoutRan);
    Terminal(plan.digest, status, blocked, attempted, deploymentVerified, report.rows)
  }

  /** The assembled terminal says how the deployment went. */
  lemma CourseTold(plan: Plan, report: Report, c: Course, blocked: bool, files: map<File, Document>,
                   log: seq<Execution>)
    requires Took(c, plan, files, log) && Went(Run(report, c.lost, c.closeoutRan, blocked), c, plan, log)
    ensures Tells(Assemble(plan, report, c.lost, c.closeoutRan, blocked, StartedFile(ApplyRelease) in files), c, plan,
                  files,
                  log)
  {
    hide Ran;
    var rows := report.rows;
    assert (forall x :: x in rows ==> x.clean) <==> forall i :: 0 <= i < |rows| ==> rows[i].clean;
  }

  lemma StillTells(t: Terminal, c: Course, plan: Plan, files: map<File, Document>, after: map<File, Document>,
                   log: seq<Execution>)
    requires Took(c, plan, files, log) && Tells(t, c, plan, files, log) && after.Keys - {TerminalFile} == files.Keys
    ensures Took(c, plan, after, log) && Tells(t, c, plan, after, log)
  {
    hide Ran;
    assert StartedFile(ApplyRelease) in after.Keys - {TerminalFile} <==> StartedFile(ApplyRelease) in after;
    assert SupervisionFile in files.Keys ==> SupervisionFile in after.Keys - {TerminalFile};
  }

  ghost predicate Keeps(before: map<File, Document>, after: map<File, Document>) {
    forall f :: f in before ==> f in after && after[f] == before[f]
  }

  lemma RanLength(log: seq<Execution>, commands: seq<Command>)
    requires Ran(log, commands)
    ensures |log| == |commands| && Commands(log) == commands
  {
  }

  lemma CloseoutAppended(staged: seq<Execution>, after: seq<Execution>, verified: bool)
    requires Ran(staged, STAGES)
    requires after == staged || exists x: Execution :: after == staged + [x]
    requires verified ==> exists x: Execution :: RanWell(x) && x.command.Closeout? && after == staged + [x]
    ensures |after| >= 3 && after[..3] == staged
    ensures verified ==> Ran(after, STAGES + [Closeout])
  {
  }
}
