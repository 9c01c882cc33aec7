/**
 * `recoverInterruptedRun` as the program it is: an object with the files of the interrupted run, changed step by
 * step. It carries the states of the machine of `UpdateProtocol` along, as the object of `UpdaterAgent` does; no
 * request is answered before it ends, so nobody else changes the files.
 */
module RecoveryAgent {
  import opened Text
  import opened EnvFile
  import opened UpdateDomain
  import opened UpdatePlan
  import opened UpdateProtocol
  import opened UpdateInvariant
  import opened UpdateExecuteAll
  import opened UpdateRecovery

  /** What the recovery makes of a run that was interrupted in phase `p`. */
  predicate Decision(p: Phase, r: UpdateRun) {
    match p
    case Migrating => Manual(r, RestartDuringMigration)
    case Deploying => Manual(r, RestartDuringDeployment)
    case Healthcheck => r.phase.Completed? || Manual(r, RestartHealthUnconfirmed)
    case RollingBack =>
      (r.phase.Failed? && r.failure == Some(RestartRollbackRecovered) && r.rollback.RollbackCompleted?)
      || Manual(r, RestartRollbackUnconfirmed)
    case _ => r.phase.Failed? && r.failure == Some(RestartSafeToRetry)
  }

  predicate Manual(r: UpdateRun, code: ErrorCode) {
    r.phase.ManualIntervention? && r.failure == Some(code) && r.rollback.Unsafe?
  }

  class Recoverer {
    // the run's files and the commands issued so far
    var record: Option<UpdateRun>
    var events: seq<LogEvent>
    var env: string
    var issued: seq<Entry>
    // the run in memory
    var run: UpdateRun
    // the states of the machine so far
    ghost var past: seq<Local>

    /** Files and run are those of the machine, which has come here by its own steps. */
    ghost predicate Stands(pc: PC)
      reads this
    {
      past != [] && Shows(Last(past), pc) && Course(past)
    }

    ghost predicate Shows(l: Local, pc: PC)
      reads this
    {
      true <==>
      && record == l.d.record && events == l.d.events && issued == l.d.trace && env == l.env
      && l.act == Activity(Recovery, run, "", None, pc)
    }

    /** The run that `takeInterruptedRun` returned. */
    constructor (d: Dossier, text: string, interrupted: UpdateRun)
      requires Resumable(d, text) && d.record == Some(interrupted) && !Terminal(interrupted.phase)
      ensures past == [Resume(d, text, interrupted)] && Stands(At(RecoveryStart(run.phase))) && run == interrupted
        && env == text
      ensures record == d.record && events == d.events && issued == d.trace
    {
      record, events, env, issued, run := d.record, d.events, text, d.trace, interrupted;
      past := [Resume(d, text, interrupted)];
      new;
      ResumeOK(d, text, interrupted);
      CourseBegins(Resume(d, text, interrupted));
    }

    /** The installed version is written over the text just read. */
    method RestoreVersion()
      requires Stands(At(RecoverEnv))
      modifies `env, `past
      ensures Stands(At(RecoverFail)) && old(past) <= past
      ensures WriteVersion(old(env), run.installed) == Some(env)
    {
      ghost var l' := VersionRestored(past);
      env := WriteVersion(env, run.installed).value;
      past := past + [l'];
    }

    /** A look at the outside world, which may fail. */
    method Look(op: Operation, ghost here: Label) returns (ok: bool)
      requires Stands(At(here)) && OpAt(here, run) == Some(op)
      modifies `issued, `past
      ensures Stands(At(AfterLook(here, ok))) && old(past) <= past
      ensures issued == old(issued) + [Entry(Recovery, op, env, if ok then Succeeded else Broke)]
    {
      ok := *;
      ghost var l' := Looked(past, here, op, ok);
      issued := issued + [Entry(Recovery, op, env, if ok then Succeeded else Broke)];
      past := past + [l'];
      assert Last(past) == l' && Shows(l', At(AfterLook(here, ok)));
    }

    /** `transitionRun`, the fields set with it, and `saveRun`. */
    method Decide(next: Phase, failure: Option<ErrorCode>, rollback: Option<RollbackStatus>, ghost here: Label)
      requires Stands(At(here)) && RecoveryEnd(here, next, failure) && rollback == RecoveryRollback(here)
      modifies `run, `record, `past
      ensures Stands(Logged(Done)) && old(past) <= past && run.lastSequence == old(run.lastSequence)
      ensures run.phase == next && (failure.Some? ==> run.failure == failure)
        && (rollback.Some? ==> run.rollback == rollback.value)
    {
      var now: int := *;
      ghost var moved := Decided(past, here, next, now, failure, rollback);
      run := Updated(run, next, now, failure, rollback);
      record := Some(run);
      past := past + [moved];
    }

    /** `log` */
    method LogLine()
      requires Stands(Logged(Done))
      modifies `run, `record, `events, `past
      ensures Stands(At(Done)) && old(past) <= past
      ensures run == old(run).(lastSequence := run.lastSequence)
      ensures events == old(events) + [LogEvent(old(run.lastSequence) + 1, run.phase)]
    {
      AppendLine();
      ghost var saved := LineSaved(past);
      record := Some(run);
      past := past + [saved];
    }

    method AppendLine()
      requires Stands(Logged(Done))
      modifies `run, `events, `past
      ensures Stands(Save(At(Done))) && old(past) <= past
      ensures run == old(run).(lastSequence := run.lastSequence)
      ensures events == old(events) + [LogEvent(old(run.lastSequence) + 1, run.phase)]
    {
      var event := LogEvent(run.lastSequence + 1, run.phase);
      ghost var logged := LineAppended(past, event);
      run := run.(lastSequence := event.sequence);
      events := events + [event];
      past := past + [logged];
    }

    method Finish(next: Phase, failure: Option<ErrorCode>, rollback: Option<RollbackStatus>, ghost here: Label)
      requires Stands(At(here)) && RecoveryEnd(here, next, failure) && rollback == RecoveryRollback(here)
      modifies `run, `record, `events, `past
      ensures Stands(At(Done)) && old(past) <= past
      ensures run.phase == next && (failure.Some? ==> run.failure == failure)
        && (rollback.Some? ==> run.rollback == rollback.value)
      ensures events == old(events) + [LogEvent(old(run.lastSequence) + 1, next)]
    {
      Decide(next, failure, rollback, here);
      LogLine();
    }

    /** `manualRecovery` */
    method ManualRecovery(code: ErrorCode)
      requires Stands(At(RecoverManual(code)))
      modifies `run, `record, `events, `past
      ensures Stands(At(Done)) && old(past) <= past && Manual(run, code)
      ensures events == old(events) + [LogEvent(old(run.lastSequence) + 1, ManualIntervention)]
    {
      Finish(ManualIntervention, Some(code), Some(Unsafe), RecoverManual(code));
    }

    /** The end of each branch: the run as the phase it was interrupted in demands, one event, `.env` as given. */
    twostate predicate Ended(p: Phase, text: string)
      reads this
    {
      true <==>
      && Stands(At(Done)) && old(past) <= past && Decision(p, run) && env == text
      && events == old(events) + [LogEvent(old(run.lastSequence) + 1, run.phase)]
    }

    method RecoverEarly()
      requires Stands(At(RecoverEnv)) && Early(run.phase)
      modifies this
      ensures WriteVersion(old(env), old(run.installed)).Some?
      ensures Ended(old(run.phase), WriteVersion(old(env), old(run.installed)).value) && issued == old(issued)
    {
      RestoreVersion();
      Finish(Failed, Some(RestartSafeToRetry), None, RecoverFail);
    }

    method RecoverMigrating()
      requires Stands(At(RecoverMigration))
      modifies this
      ensures Ended(Migrating, old(env)) && Looks(old(issued), issued, MigrateStatus, env)
    {
      var _ := Look(MigrateStatus, RecoverMigration);
      ManualRecovery(RestartDuringMigration);
    }

    method RecoverHealthcheck()
      requires Stands(At(RecoverTarget))
      modifies this
      ensures Ended(Healthcheck, old(env)) && Looks(old(issued), issued, HealthCheck(old(run.target)), env)
    {
      var healthy := Look(HealthCheck(run.target), RecoverTarget);
      if healthy { Finish(Completed, None, None, RecoverComplete); } else { ManualRecovery(RestartHealthUnconfirmed); }
      assert Decision(Healthcheck, run);
    }

    method RecoverRollback()
      requires Stands(At(RecoverOld))
      modifies this
      ensures Ended(RollingBack, old(env)) && Looks(old(issued), issued, HealthCheck(old(run.installed)), env)
    {
      var healthy := Look(HealthCheck(run.installed), RecoverOld);
      if healthy { Finish(Failed, Some(RestartRollbackRecovered), Some(RollbackCompleted), RecoverRolledBack); }
      else { ManualRecovery(RestartRollbackUnconfirmed); }
      assert Decision(RollingBack, run);
    }

    method RecoverDeploying()
      requires Stands(At(RecoverDeployment))
      modifies this
      ensures Ended(Deploying, old(env)) && Looks(old(issued), issued, InspectDeployment, env)
    {
      var _ := Look(InspectDeployment, RecoverDeployment);
      ManualRecovery(RestartDuringDeployment);
    }

    /** What the recovery of a run interrupted in phase `p` adds to the commands issued. */
    twostate predicate Issued(p: Phase)
      reads this
    {
      if Early(p) then issued == old(issued) else exists op :: Looks(old(issued), issued, op, env) && !IsMutation(op)
    }

    /** The branches on the stored phase; no phase is left over for the last line of `recoverInterruptedRun`. */
    method Branch()
      requires Stands(At(RecoveryStart(run.phase))) && !Terminal(run.phase)
      modifies this
      ensures Early(old(run.phase)) ==> WriteVersion(old(env), old(run.installed)).Some?
      ensures Ended(old(run.phase),
        if Early(old(run.phase)) then WriteVersion(old(env), old(run.installed)).value else old(env))
      ensures Issued(old(run.phase))
    {
      if Early(run.phase) { RecoverEarly(); }
      else if run.phase.Migrating? { RecoverMigrating(); }
      else if run.phase.Healthcheck? { RecoverHealthcheck(); }
      else if run.phase.RollingBack? { RecoverRollback(); }
      else if run.phase.Deploying? { RecoverDeploying(); }
      else { assert false; }
    }

    /**
     * `recoverInterruptedRun`: decides from the stored phase alone. It changes nothing outside the updater's files,
     * looks at most once, writes `.env` only for the phases before the migration, and always ends the run, with one
     * event and within the bounds of its new phase on `.env`.
     */
    method RecoverInterruptedRun()
      requires Stands(At(RecoveryStart(run.phase))) && !Terminal(run.phase)
      modifies this
      ensures Early(old(run.phase)) ==> WriteVersion(old(env), old(run.installed)).Some?
      ensures Ended(old(run.phase),
        if Early(old(run.phase)) then WriteVersion(old(env), old(run.installed)).value else old(env))
      ensures Issued(old(run.phase))
      ensures record == Some(run) && Terminal(run.phase) && DossierOK(Last(past).d)
      ensures EnvBounds(run, Last(past).d, env) && Last(past).d.origin == past[0].d.origin
    {
      Branch();
      RecoveredRun(past);
    }
  }

  /** One more command, `op`, whatever came of it. */
  predicate Looks(before: seq<Entry>, after: seq<Entry>, op: Operation, env: string) {
    after == before + [Entry(Recovery, op, env, Succeeded)] || after == before + [Entry(Recovery, op, env, Broke)]
  }

  /** Where a look leads. */
  function AfterLook(here: Label, ok: bool): Label {
    match here
    case RecoverMigration => RecoverManual(RestartDuringMigration)
    case RecoverTarget => if ok then RecoverComplete else RecoverManual(RestartHealthUnconfirmed)
    case RecoverOld => if ok then RecoverRolledBack else RecoverManual(RestartRollbackUnconfirmed)
    case _ => RecoverManual(RestartDuringDeployment)
  }

  /** The rollback status stored with the outcome. */
  function RecoveryRollback(here: Label): Option<RollbackStatus> {
    if here.RecoverRolledBack? then Some(RollbackCompleted) else if here.RecoverManual? then Some(Unsafe) else None
  }

  // ---------------------------------------------------------------- the machine's next states

  /** A transition changes the run, its record and history, and where the program stands. */
  predicate MovedTo(l: Local, l': Local, updated: UpdateRun, pc: PC) {
    && l'.d == l.d.(record := Some(updated), history := Extend(l.d.history, updated.phase))
    && l'.env == l.env && l'.locked == l.locked && l'.act == l.act.(run := updated, pc := pc)
  }

  /** The end of an operation changes the trace and where the program stands. */
  predicate EndedTo(l: Local, l': Local, op: Operation, result: Result, pc: PC) {
    && l'.d == l.d.(trace := l.d.trace + [Entry(l.act.actor, op, l.env, result)])
    && l'.env == l.env && l'.locked == l.locked && l'.act == l.act.(pc := pc)
  }

  /** State `i` is one in which a recovery can stand, or follows from the state before it by a step of the machine. */
  ghost predicate Steps(past: seq<Local>, i: nat)
    requires i < |past|
  {
    if i == 0 then RecoverOK(past[0]) else Follows(past[i - 1], past[i])
  }

  /** The machine makes the step from the one state to the other, on some answer. */
  ghost predicate Follows(l: Local, l': Local) { exists o, now :: Leads(l, o, now, l') }

  predicate Leads(l: Local, o: Outcome, now: int, l': Local) { l' == Tick(l, o, now) }

  ghost predicate Course(past: seq<Local>) {
    true <==>
    && past != []
    && forall i: nat {:trigger Steps(past, i)} :: i < |past| ==> Steps(past, i)
  }

  lemma CourseBegins(l: Local)
    requires RecoverOK(l)
    ensures Course([l])
  {
  }

  lemma CourseOn(past: seq<Local>, o: Outcome, now: int)
    requires Course(past)
    ensures Course(past + [Tick(Last(past), o, now)])
  {
    var more := past + [Tick(Last(past), o, now)];
    forall i: nat | i < |more| ensures Steps(more, i) {
      if i < |past| { assert Steps(past, i); } else { assert Leads(more[i - 1], o, now, more[i]); }
    }
  }

  lemma {:induction false} CourseOK(past: seq<Local>)
    requires Course(past)
    ensures RecoverOK(Last(past)) && Last(past).d.origin == past[0].d.origin
  {
    if |past| > 1 {
      CourseBefore(past);
      CourseOK(past[..|past| - 1]);
      StepKeeps(Last(past[..|past| - 1]), Last(past));
    } else {
      CourseStart(past);
    }
  }

  lemma CourseBefore(past: seq<Local>)
    requires Course(past) && |past| > 1
    ensures Course(past[..|past| - 1]) && Follows(Last(past[..|past| - 1]), Last(past))
  {
    var before := past[..|past| - 1];
    forall i: nat | i < |before| ensures Steps(before, i) {
      assert Steps(past, i);
    }
    assert Steps(past, |past| - 1);
  }

  lemma CourseStart(past: seq<Local>)
    requires Course(past) && |past| == 1
    ensures RecoverOK(Last(past))
  {
    assert Steps(past, 0);
  }

  lemma StepKeeps(l: Local, l': Local)
    requires RecoverOK(l) && Follows(l, l')
    ensures RecoverOK(l') && l'.d.origin == l.d.origin
  {
    var o, now :| Leads(l, o, now, l');
    RecoverTick(l, o, now);
    TickFrame(l, o, now);
  }

  lemma VersionRestored(past: seq<Local>) returns (l': Local)
    requires Course(past) && Last(past).act.pc == At(RecoverEnv)
    ensures Course(past + [l']) && WriteVersion(Last(past).env, Last(past).act.run.installed).Some?
    ensures var l := Last(past);
      l' == l.(env := WriteVersion(l.env, l.act.run.installed).value, act := l.act.(pc := At(RecoverFail)))
  {
    CourseOK(past);
    InstalledWritten(Last(past));
    l' := EndStep(Last(past), RecoverEnv, 0);
    CourseOn(past, Ok, 0);
  }

  lemma Looked(past: seq<Local>, here: Label, op: Operation, ok: bool) returns (l': Local)
    requires Course(past) && Last(past).act.pc == At(here) && OpAt(here, Last(past).act.run) == Some(op)
    ensures Course(past + [l']) && EndedTo(Last(past), l', op, if ok then Succeeded else Broke, At(AfterLook(here, ok)))
  {
    CourseOK(past);
    LookStep(Last(past), here, op, ok);
    l' := Goto(Issue(Last(past), op, if ok then Succeeded else Broke), At(AfterLook(here, ok)));
    CourseOn(past, if ok then Ok else Fail(""), 0);
  }

  lemma LookStep(l: Local, here: Label, op: Operation, ok: bool)
    requires RecoverOK(l) && l.act.pc == At(here) && OpAt(here, l.act.run) == Some(op)
    ensures Tick(l, if ok then Ok else Fail(""), 0) ==
      Goto(Issue(l, op, if ok then Succeeded else Broke), At(AfterLook(here, ok)))
  {
  }

  lemma Decided(past: seq<Local>, here: Label, next: Phase, now: int, failure: Option<ErrorCode>,
    rollback: Option<RollbackStatus>)
    returns (l': Local)
    requires Course(past) && Last(past).act.pc == At(here) && RecoveryEnd(here, next, failure)
      && rollback == RecoveryRollback(here)
    ensures var l := Last(past);
      && CanMove(l.act.run.phase, next) && Course(past + [l'])
      && MovedTo(l, l', Updated(l.act.run, next, now, failure, rollback), Logged(Done))
  {
    var l := Last(past);
    CourseOK(past);
    MayDecide(l, here, next, failure);
    DecisionStep(l, here, next, now, failure, rollback);
    l' := Move(l, next, now, failure, rollback, Logged(Done));
    CourseOn(past, Ok, now);
  }

  lemma MayDecide(l: Local, here: Label, next: Phase, failure: Option<ErrorCode>)
    requires RecoverOK(l) && l.act.pc == At(here) && RecoveryEnd(here, next, failure)
    ensures CanMove(l.act.run.phase, next)
  {
    RecoveryGoal(here, next, failure);
    RecoveryEndFits(l.act.run, l.d, l.env, here, next, failure);
  }

  lemma DecisionStep(l: Local, here: Label, next: Phase, now: int, failure: Option<ErrorCode>,
    rollback: Option<RollbackStatus>)
    requires l.act.pc == At(here) && RecoveryEnd(here, next, failure) && rollback == RecoveryRollback(here)
    ensures Tick(l, Ok, now) == Move(l, next, now, failure, rollback, Logged(Done))
  {
  }

  lemma LineAppended(past: seq<Local>, event: LogEvent) returns (l': Local)
    requires Course(past) && Last(past).act.pc == Logged(Done)
    requires event == LogEvent(Last(past).act.run.lastSequence + 1, Last(past).act.run.phase)
    ensures var l := Last(past);
      && Course(past + [l']) && l'.env == l.env && l'.locked == l.locked
      && l'.d == l.d.(events := l.d.events + [event])
      && l'.act == l.act.(run := l.act.run.(lastSequence := event.sequence), pc := Save(At(Done)))
  {
    l' := Tick(Last(past), Ok, 0);
    CourseOn(past, Ok, 0);
  }

  lemma LineSaved(past: seq<Local>) returns (l': Local)
    requires Course(past) && Last(past).act.pc == Save(At(Done))
    ensures var l := Last(past);
      && Course(past + [l']) && l'.env == l.env && l'.locked == l.locked && l'.act == l.act.(pc := At(Done))
      && l'.d == l.d.(record := Some(l.act.run), history := l'.d.history)
  {
    l' := Tick(Last(past), Ok, 0);
    CourseOn(past, Ok, 0);
  }

  lemma RecoveredRun(past: seq<Local>)
    requires Course(past) && Last(past).act.pc == At(Done)
    ensures var l := Last(past);
      && DossierOK(l.d) && Terminal(l.act.run.phase) && EnvBounds(l.act.run, l.d, l.env)
      && l.d.record == Some(l.act.run) && l.d.origin == past[0].d.origin
  {
    CourseOK(past);
    assert Last(past).act.pc.Goal() == Done;
  }
}
