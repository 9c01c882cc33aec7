/** Every step of the recovery after a restart keeps its own invariant, and the recovery ends the run. */
module UpdateRecovery {
  import opened Text
  import opened EnvFile
  import opened UpdateDomain
  import opened UpdatePlan
  import opened UpdateProtocol
  import opened UpdateInvariant

  predicate Early(p: Phase) { p.Pending? || p.Preflight? || p.Backup? || p.Pulling? || p.Verifying? }

  /** What holds on the way to a label of the recovery. */
  predicate RecoveryFacts(run: UpdateRun, d: Dossier, env: string, here: Label) {
    match here
    case RecoverEnv => Early(run.phase) && EnvBounds(run, d, env)
    case RecoverFail => Early(run.phase) && env == Rewritten(d.origin, d.origin.installed)
    case RecoverMigration => run.phase.Migrating? && EnvBounds(run, d, env) && !ProgressOfDossier(d).Recovered?
    case RecoverTarget => run.phase.Healthcheck? && EnvBounds(run, d, env) && !ProgressOfDossier(d).Recovered?
    case RecoverComplete => run.phase.Healthcheck? && EnvBounds(run, d, env)
    case RecoverOld => run.phase.RollingBack? && EnvBounds(run, d, env) && !ProgressOfDossier(d).Recovered?
    case RecoverRolledBack => run.phase.RollingBack? && EnvBounds(run, d, env)
    case RecoverDeployment => run.phase.Deploying? && EnvBounds(run, d, env) && !ProgressOfDossier(d).Recovered?
    case RecoverManual(_) =>
      (run.phase.Migrating? || run.phase.Healthcheck? || run.phase.RollingBack? || run.phase.Deploying?)
        && EnvBounds(run, d, env)
    case Done => Terminal(run.phase) && EnvBounds(run, d, env)
    case _ => false
  }

  /** The log before the recovery's one line: complete, or one event ahead of the record. */
  predicate LogBefore(d: Dossier, run: UpdateRun) {
    && Numbered(d.events, |d.events|)
    && (run.lastSequence == |d.events| || run.lastSequence + 1 == |d.events|)
  }

  /** The recovery's shape: one move, then one log line. */
  predicate RecoveryPC(pc: PC) {
    match pc
    case At(_) => true
    case Append(next) => next == Save(At(Done))
    case Save(next) => next == At(Done)
  }

  predicate RecoverOK(l: Local) {
    true <==>
    && !l.locked && l.act.actor.Recovery? && RecoveryPC(l.act.pc)
    && DossierOK(l.d) && l.d.record.Some? && RunOK(l.act.run, l.d)
    && l.d.record.value ==
        (if l.act.pc.Save? then l.act.run.(lastSequence := l.d.record.value.lastSequence) else l.act.run)
    && RecoveryFacts(l.act.run, l.d, l.env, l.act.pc.Goal())
    && (l.act.pc.Save? || l.act.pc == At(Done) || LogBefore(l.d, l.act.run))
  }

  /** A resumable run whose phase is not final starts its recovery; line 284 is not where it starts. */
  lemma ResumeOK(d: Dossier, env: string, run: UpdateRun)
    requires Resumable(d, env) && d.record == Some(run) && !Terminal(run.phase)
    ensures RecoverOK(Resume(d, env, run))
    ensures !RecoveryStart(run.phase).RecoverManual?
  {
    var l := Resume(d, env, run);
    assert RunOK(run, d) && EnvBounds(run, d, env);
    StartFacts(run, d, env);
    assert l.act.pc.Goal() == RecoveryStart(run.phase);
  }

  lemma StartFacts(run: UpdateRun, d: Dossier, env: string)
    requires EnvBounds(run, d, env) && !Terminal(run.phase) && !ProgressOfDossier(d).Recovered?
    ensures RecoveryFacts(run, d, env, RecoveryStart(run.phase)) && !RecoveryStart(run.phase).RecoverManual?
  {
  }

  lemma RecoverAppend(l: Local, o: Outcome, now: int)
    requires RecoverOK(l) && l.act.pc.Append?
    ensures RecoverOK(Tick(l, o, now))
  {
    var l' := Tick(l, o, now);
    RunFrame(l.act.run, l.d, l'.act.run, l'.d);
    RunFrame(l.d.record.value, l.d, l.d.record.value, l'.d);
    RecoveryEvent(l.d.events, l.act.run.lastSequence, LogEvent(l'.act.run.lastSequence, l'.act.run.phase));
  }

  lemma RecoverSave(l: Local, o: Outcome, now: int)
    requires RecoverOK(l) && l.act.pc.Save?
    ensures RecoverOK(Tick(l, o, now))
  {
    var l' := Tick(l, o, now);
    RunFrame(l.act.run, l.d, l'.act.run, l'.d);
  }

  /** The recovery's line takes the next number, or repeats the last one when the record was one event behind. */
  lemma RecoveryEvent(events: seq<LogEvent>, n: nat, e: LogEvent)
    requires Numbered(events, |events|) && (n == |events| || n + 1 == |events|) && e.sequence == n + 1
    ensures LogOK(events + [e])
  {
    assert (events + [e])[..|events|] == events;
  }

  /** The moves that end a recovery. */
  predicate RecoveryEnd(here: Label, next: Phase, failure: Option<ErrorCode>) {
    match here
    case RecoverFail => next.Failed? && failure == Some(RestartSafeToRetry)
    case RecoverComplete => next.Completed? && failure.None?
    case RecoverRolledBack => next.Failed? && failure == Some(RestartRollbackRecovered)
    case RecoverManual(code) => next.ManualIntervention? && failure == Some(code)
    case _ => false
  }

  lemma RecoveryEndFits(run: UpdateRun, d: Dossier, env: string, here: Label, next: Phase, failure: Option<ErrorCode>)
    requires RecoveryFacts(run, d, env, here) && RecoveryEnd(here, next, failure) && RunOK(run, d)
    ensures MayMove(run, d, next) && Terminal(next)
    ensures EnvBounds(run.(phase := next, failure := if failure.Some? then failure else run.failure), d, env)
  {
  }

  lemma RecoverMove(l: Local, here: Label, next: Phase, now: int, failure: Option<ErrorCode>,
    rollback: Option<RollbackStatus>)
    requires RecoverOK(l) && l.act.pc == At(here) && RecoveryEnd(here, next, failure)
    ensures RecoverOK(Move(l, next, now, failure, rollback, Logged(Done)))
  {
    RecoveryGoal(here, next, failure);
    RecoveryEndFits(l.act.run, l.d, l.env, here, next, failure);
    var l' := Move(l, next, now, failure, rollback, Logged(Done));
    MoveMemory(l, next, now, failure, rollback, Logged(Done));
    RecoverMoveDossier(l, next, now, failure, rollback);
    EndBounds(l.act.run.(phase := next, failure := if failure.Some? then failure else l.act.run.failure), l'.act.run,
      l.d, l'.d, l.env);
    MoveCounter(l, next, now, failure, rollback, Logged(Done));
    RecoverLogged(l');
  }

  lemma MoveCounter(l: Local, next: Phase, now: int, failure: Option<ErrorCode>, rollback: Option<RollbackStatus>,
    pc: PC)
    requires CanMove(l.act.run.phase, next)
    ensures Move(l, next, now, failure, rollback, pc).act.run.lastSequence == l.act.run.lastSequence
  {
  }

  /** The outcome is stored; its log line comes next. */
  lemma RecoverLogged(l: Local)
    requires !l.locked && l.act.actor.Recovery? && l.act.pc == Logged(Done) && Terminal(l.act.run.phase)
    requires DossierOK(l.d) && RunOK(l.act.run, l.d) && l.d.record == Some(l.act.run)
    requires EnvBounds(l.act.run, l.d, l.env) && LogBefore(l.d, l.act.run)
    ensures RecoverOK(l)
  {
    GoalOfLogged(At(Done));
    assert At(Done).Goal() == Done;
    assert RecoveryFacts(l.act.run, l.d, l.env, l.act.pc.Goal());
  }

  lemma RecoveryGoal(here: Label, next: Phase, failure: Option<ErrorCode>)
    requires RecoveryEnd(here, next, failure)
    ensures At(here).Goal() == here && Terminal(next) && !here.Done?
  {
  }

  lemma EndBounds(r: UpdateRun, r': UpdateRun, d: Dossier, d': Dossier, env: string)
    requires EnvBounds(r, d, env) && r'.phase == r.phase && r'.failure == r.failure && d'.origin == d.origin
    ensures EnvBounds(r', d', env)
  {
  }

  lemma RecoverMoveDossier(l: Local, next: Phase, now: int, failure: Option<ErrorCode>,
    rollback: Option<RollbackStatus>)
    requires DossierOK(l.d) && RunOK(l.act.run, l.d) && MayMove(l.act.run, l.d, next)
    ensures var l' := Move(l, next, now, failure, rollback, Logged(Done));
      DossierOK(l'.d) && RunOK(l'.act.run, l'.d) && l'.d.record == Some(l'.act.run) && l'.d.events == l.d.events
  {
    var l' := Move(l, next, now, failure, rollback, Logged(Done));
    ChainExtends(l.d.history, next);
    ReachedMove(l.act.run, l.d, l'.act.run, l'.d, next);
  }

  /** The recovery's look at the outside world, whatever it finds. */
  lemma RecoverIssue(l: Local, here: Label, op: Operation, result: Result, goal: Label)
    requires RecoverOK(l) && l.act.pc == At(here) && OpAt(here, l.act.run) == Some(op)
    requires goal == (match here
      case RecoverMigration => RecoverManual(RestartDuringMigration)
      case RecoverTarget => if result.Succeeded? then RecoverComplete else RecoverManual(RestartHealthUnconfirmed)
      case RecoverOld => if result.Succeeded? then RecoverRolledBack else RecoverManual(RestartRollbackUnconfirmed)
      case _ => RecoverManual(RestartDuringDeployment))
    ensures RecoverOK(Goto(Issue(l, op, result), At(goal)))
  {
    var m := Issue(l, op, result);
    RecoverIssueDossier(l, op, result);
    assert RecoveryFacts(l.act.run, m.d, m.env, goal);
  }

  lemma RecoverIssueDossier(l: Local, op: Operation, result: Result)
    requires RecoverOK(l) && !Terminal(l.act.run.phase) && !ProgressOfDossier(l.d).Recovered? && l.act.pc.At?
    requires op.MigrateStatus? || op.HealthCheck? || op.InspectDeployment?
    ensures DossierOK(Issue(l, op, result).d) && RunOK(l.act.run, Issue(l, op, result).d)
  {
    AppendAdvances(l.d.origin, l.d.trace, Entry(Recovery, op, l.env, result));
    assert ReachedOK(l.act.run, Issue(l, op, result).d);
  }

  /** The installed version is written over whichever version the crash left. */
  lemma RecoverEnvKeeps(l: Local, now: int)
    requires RecoverOK(l) && l.act.pc == At(RecoverEnv)
    ensures RecoverOK(EndStep(l, RecoverEnv, now))
  {
    InstalledWritten(l);
    RecoverRewritten(l, l.(env := Rewritten(l.d.origin, l.d.origin.installed), act := l.act.(pc := At(RecoverFail))));
  }

  lemma InstalledWritten(l: Local)
    requires RecoverOK(l) && l.act.pc == At(RecoverEnv)
    ensures WriteVersion(l.env, l.act.run.installed) == Some(Rewritten(l.d.origin, l.d.origin.installed))
    ensures EndAt(l, RecoverEnv) ==
      Writes(Rewritten(l.d.origin, l.d.origin.installed), l.act.originalEnv, At(RecoverFail))
  {
    assert RecoveryFacts(l.act.run, l.d, l.env, RecoverEnv);
    WriteOverrides(l.d.origin.env, l.d.origin.target, l.d.origin.installed);
  }

  lemma RecoverRewritten(l: Local, l': Local)
    requires RecoverOK(l) && l.act.pc == At(RecoverEnv)
    requires l' == l.(env := Rewritten(l.d.origin, l.d.origin.installed), act := l.act.(pc := At(RecoverFail)))
    ensures RecoverOK(l')
  {
    assert l'.act.pc.Goal() == RecoverFail && RecoveryFacts(l.act.run, l.d, l.env, RecoverEnv);
  }

  lemma RecoverCommand(l: Local, here: Label, op: Operation, o: Outcome)
    requires RecoverOK(l) && l.act.pc == At(here) && OpAt(here, l.act.run) == Some(op)
    ensures RecoverOK(CommandStep(l, here, op, o))
  {
    match o
    case Fail(_) =>
      RecoverIssue(l, here, op, Broke, match here
        case RecoverMigration => RecoverManual(RestartDuringMigration)
        case RecoverTarget => RecoverManual(RestartHealthUnconfirmed)
        case RecoverOld => RecoverManual(RestartRollbackUnconfirmed)
        case _ => RecoverManual(RestartDuringDeployment));
    case Ok =>
      RecoverIssue(l, here, op, Succeeded, match here
        case RecoverMigration => RecoverManual(RestartDuringMigration)
        case RecoverTarget => RecoverComplete
        case RecoverOld => RecoverRolledBack
        case _ => RecoverManual(RestartDuringDeployment));
    case _ =>
  }

  lemma RecoverInternal(l: Local, here: Label, now: int)
    requires RecoverOK(l) && l.act.pc == At(here) && OpAt(here, l.act.run).None?
    ensures RecoverOK(InternalStep(l, here, now))
  {
    if here.RecoverEnv? { RecoverEnvKeeps(l, now); }
    else if here.RecoverFail? { RecoverMove(l, here, Failed, now, Some(RestartSafeToRetry), None); }
    else if here.RecoverComplete? { RecoverMove(l, here, Completed, now, None, None); }
    else if here.RecoverRolledBack? {
      RecoverMove(l, here, Failed, now, Some(RestartRollbackRecovered), Some(RollbackCompleted));
    }
    else if here.RecoverManual? { RecoverMove(l, here, ManualIntervention, now, Some(here.code), Some(Unsafe)); }
  }

  /** The invariant of the recovery is inductive. */
  lemma RecoverTick(l: Local, o: Outcome, now: int)
    requires RecoverOK(l)
    ensures RecoverOK(Tick(l, o, now))
  {
    match l.act.pc
    case At(here) =>
      match OpAt(here, l.act.run) {
      case Some(op) => RecoverCommand(l, here, op, o);
      case None => RecoverInternal(l, here, now);
      }
    case Append(_) => RecoverAppend(l, o, now);
    case Save(_) => RecoverSave(l, o, now);
  }

  /** A crash of the recovery leaves the run as sound as any other, though nothing will resume it. */
  lemma RecoverCrash(l: Local)
    requires RecoverOK(l)
    ensures DossierOK(AfterCrash(l))
  {
    if l.act.pc.At? && OpAt(l.act.pc.here, l.act.run).Some? {
      RecoverIssueDossier(l, OpAt(l.act.pc.here, l.act.run).value, Interrupted);
    }
  }
}
