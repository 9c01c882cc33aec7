/** Where the protocol gives less than an operator might expect, with the exact conditions. */
module UpdateLimits {
  import opened Text
  import opened EnvFile
  import opened UpdateDomain
  import opened UpdatePlan
  import opened UpdateProtocol
  import opened UpdateInvariant
  import opened UpdateExecute
  import opened UpdateExecuteAll
  import opened UpdateRecovery
  import opened UpdateCourse
  import opened UpdateEnds

  // ---------------------------------------------------------------- a crash during the rollback

  /** A recovery from ROLLING_BACK that finds the old release healthy. */
  predicate OnOldPath(l: Local) {
    var goal := l.act.pc.Goal();
    && RecoverOK(l)
    && (goal.RecoverOld? || goal.RecoverRolledBack?
        || (goal.Done? && l.act.run.phase.Failed? && l.act.run.failure == Some(RestartRollbackRecovered)))
  }

  lemma OldPathStep(l: Local, now: int)
    requires OnOldPath(l)
    ensures OnOldPath(Tick(l, Ok, now)) && Tick(l, Ok, now).env == l.env
  {
    RecoverTick(l, Ok, now);
    match l.act.pc
    case At(here) => if here.RecoverRolledBack? { RolledBackStep(l, now); }
    case _ =>
  }

  lemma RolledBackStep(l: Local, now: int)
    requires OnOldPath(l) && l.act.pc == At(RecoverRolledBack)
    ensures var l' := Tick(l, Ok, now);
      l'.act.pc == Logged(Done) && l'.act.run.phase.Failed? && l'.act.run.failure == Some(RestartRollbackRecovered)
        && l'.env == l.env
    ensures Tick(l, Ok, now).act.pc.Goal().Done?
  {
    MoveMemory(l, Failed, now, Some(RestartRollbackRecovered), Some(RollbackCompleted), Logged(Done));
    RolledBackResult(l, now);
    LoggedFacts(Done);
  }

  lemma RolledBackResult(l: Local, now: int)
    requires l.act.pc == At(RecoverRolledBack)
    ensures Tick(l, Ok, now) ==
      Move(l, Failed, now, Some(RestartRollbackRecovered), Some(RollbackCompleted), Logged(Done))
  {
  }

  lemma {:induction false} OldPathEnds(l: Local, answers: seq<Outcome>, now: int)
    requires OnOldPath(l) && RecoverWeight(l.act.pc) <= |answers| && forall i :: 0 <= i < |answers| ==> answers[i].Ok?
    ensures var l' := Ticks(l, answers, now); OnOldPath(l') && l'.act.pc == At(Done) && l'.env == l.env
    decreases |answers|
  {
    RecoveryHasWay(l);
    if l.act.pc != At(Done) {
      OldPathStep(l, now);
      RecoverDescends(l, Ok, now);
      OldPathEnds(Tick(l, Ok, now), answers[1..], now);
    }
  }

  /** `.env` during the rollback: the target until the step that restores it, the old text from then on. */
  lemma RollbackText(l: Local)
    requires ExecuteOK(l) && l.d.record.Some? && l.d.record.value.phase.RollingBack?
    ensures l.env == (if l.act.pc.Goal().RollbackEnv? then NewText(l.d) else l.d.origin.env)
  {
    RecordPhase(l);
    RollbackStage(l, l.act.pc.Goal());
  }

  lemma RollbackStage(l: Local, goal: Label)
    requires AtStage(l, goal) && l.act.run.phase.RollingBack?
    ensures l.env == (if goal.RollbackEnv? then NewText(l.d) else l.d.origin.env)
  {
    if ForwardStage(goal).Some? { NoForwardRollback(goal); }
  }

  lemma NoForwardRollback(goal: Label)
    requires ForwardStage(goal).Some?
    ensures !ForwardStage(goal).value.phase.RollingBack?
  {
  }

  /**
   * The recovery from ROLLING_BACK does not write `.env`. If the process died before the rollback restored the old
   * text, and only then, the run ends FAILED with the target version in `.env`.
   */
  lemma RollbackRecoveryText(l: Local, answers: seq<Outcome>, now: int)
    requires ExecuteOK(l) && l.d.record.Some? && l.d.record.value.phase.RollingBack?
    requires |answers| == 6 && forall i :: 0 <= i < |answers| ==> answers[i].Ok?
    ensures var l' := Ticks(Resume(AfterCrash(l), l.env, l.d.record.value), answers, now);
      && l'.act.pc == At(Done) && l'.d.record.Some? && l'.d.record.value.phase.Failed?
      && l'.d.record.value.failure == Some(RestartRollbackRecovered)
      && l'.env == (if l.act.pc.Goal().RollbackEnv? then NewText(l.d) else l.d.origin.env)
  {
    RollbackText(l);
    var m := Resumed(l);
    OldPathEnds(m, answers, now);
  }

  /** The recovery that follows a crash of `execute`. */
  lemma Resumed(l: Local) returns (m: Local)
    requires ExecuteOK(l) && l.d.record.Some? && !Terminal(l.d.record.value.phase)
    ensures m == Resume(AfterCrash(l), l.env, l.d.record.value) && RecoverOK(m) && RecoverWeight(m.act.pc) == 6
    ensures m.env == l.env && m.d.events == l.d.events && m.act.run == l.d.record.value && Unlogged(m.act.pc)
    ensures m.act.run.phase.RollingBack? ==> OnOldPath(m)
  {
    CrashKeeps(l);
    ResumeOK(AfterCrash(l), l.env, l.d.record.value);
    m := Resume(AfterCrash(l), l.env, l.d.record.value);
    StartWeight(l.d.record.value.phase);
    CrashFiles(l);
    if m.act.run.phase.RollingBack? { StartsOnOldPath(m); }
  }

  lemma CrashFiles(l: Local)
    ensures AfterCrash(l).events == l.d.events && AfterCrash(l).record == l.d.record
  {
  }

  lemma StartsOnOldPath(m: Local)
    requires RecoverOK(m) && m.act.pc == At(RecoverOld)
    ensures OnOldPath(m)
  {
  }

  lemma StartWeight(p: Phase)
    requires !Terminal(p)
    ensures RecoverWeight(At(RecoveryStart(p))) == 6
  {
  }

  /** An update that reaches its health check, fails it, and dies as soon as ROLLING_BACK is stored. */
  lemma TargetLeftBehind(o: Origin, m: ReleaseManifest, digest: string, detail: string, now: int)
    returns (answers: seq<Outcome>, l: Local)
    requires HasVersionLine(o.env) && Installable(m, o)
    requires m.compatibility == NoMigration || m.compatibility == BackwardCompatible
    ensures l == Tick(Tick(Ticks(Begin(o), answers, now), Fail(detail), now), Ok, now)
    ensures ExecuteOK(l) && l.d.record.Some? && l.d.record.value.phase.RollingBack? && l.act.pc.Goal().RollbackEnv?
      && l.d.origin == o
  {
    BeginOnCourse(o, m);
    answers := CourseReaches(Begin(o), m, digest, now, CheckTarget);
    var a := Ticks(Begin(o), answers, now);
    l := RollbackStarts(a, m, detail, now);
  }

  lemma RollbackStarts(a: Local, m: ReleaseManifest, detail: string, now: int) returns (l: Local)
    requires ExecuteOK(a) && OnCourse(a, m) && a.act.pc == At(CheckTarget) && RollbackAllowed(m)
    ensures l == Tick(Tick(a, Fail(detail), now), Ok, now) && ExecuteOK(l) && l.d.origin == a.d.origin
    ensures l.d.record.Some? && l.d.record.value.phase.RollingBack? && l.act.pc.Goal().RollbackEnv?
  {
    var st := Stage(Healthcheck, 14, true, true, 4);
    CheckTargetStage();
    StandingForward(a, CheckTarget, st);
    ManifestKnown(a, CheckTarget, st);
    EnvKnown(a);
    RollbackChosen(a, m, detail, now);
    TickKeeps(a, Fail(detail), now);
    TickFrame(a, Fail(detail), now);
    l := RollbackStep(Tick(a, Fail(detail), now), OtherError(detail), now);
  }

  lemma EnvKnown(a: Local)
    requires ExecuteOK(a)
    ensures a.d.origin.env != ""
  {
    LineNotEmpty(a.d);
  }

  lemma RollbackStep(b: Local, code: ErrorCode, now: int) returns (l: Local)
    requires ExecuteOK(b) && b.act.pc == At(RollbackBegin(code)) && b.act.run.phase in {Deploying, Healthcheck}
    ensures l == Tick(b, Ok, now) && ExecuteOK(l) && l.d.origin == b.d.origin
    ensures l.d.record.Some? && l.d.record.value.phase.RollingBack? && l.act.pc.Goal().RollbackEnv?
  {
    l := Tick(b, Ok, now);
    TickKeeps(b, Ok, now);
    RollbackStored(b, code, now);
  }

  lemma RollbackChosen(a: Local, m: ReleaseManifest, detail: string, now: int)
    requires a.act.pc == At(CheckTarget) && a.act.manifest == Some(m) && RollbackAllowed(m)
    requires InStage(a, Stage(Healthcheck, 14, true, true, 4)) && a.d.origin.env != ""
    ensures var b := Tick(a, Fail(detail), now);
      b.act.pc == At(RollbackBegin(OtherError(detail))) && b.act.run.phase.Healthcheck?
  {
    TargetFails(a, detail, now);
    DeployedCatch(a.act, m, OtherError(detail));
  }

  lemma TargetFails(a: Local, detail: string, now: int)
    requires a.act.pc == At(CheckTarget)
    ensures Tick(a, Fail(detail), now) ==
      Goto(Issue(a, HealthCheck(a.act.run.target), Broke), At(Catch(a.act, OtherError(detail))))
  {
  }

  lemma DeployedCatch(a: Activity, m: ReleaseManifest, code: ErrorCode)
    requires a.run.phase.Healthcheck? && a.manifest == Some(m) && RollbackAllowed(m) && a.originalEnv != ""
      && code.OtherError?
    ensures Catch(a, code) == RollbackBegin(code)
  {
  }

  lemma RollbackStored(b: Local, code: ErrorCode, now: int)
    requires b.act.pc == At(RollbackBegin(code)) && b.act.run.phase in {Deploying, Healthcheck}
    ensures var l := Tick(b, Ok, now);
      l.d.origin == b.d.origin && l.d.record.Some? && l.d.record.value.phase.RollingBack?
        && l.act.pc.Goal().RollbackEnv?
  {
    MoveMemory(b, RollingBack, now, None, None, Logged(RollbackEnv(code)));
    MoveStored(b, RollingBack, now, None, None, Logged(RollbackEnv(code)));
    RollbackResult(b, code, now);
    LoggedFacts(RollbackEnv(code));
  }

  lemma RollbackResult(b: Local, code: ErrorCode, now: int)
    requires b.act.pc == At(RollbackBegin(code))
    ensures Tick(b, Ok, now) == Move(b, RollingBack, now, None, None, Logged(RollbackEnv(code)))
  {
  }

  lemma MoveStored(l: Local, next: Phase, now: int, failure: Option<ErrorCode>, rollback: Option<RollbackStatus>,
    pc: PC)
    requires CanMove(l.act.run.phase, next)
    ensures Move(l, next, now, failure, rollback, pc).d.record ==
      Some(Move(l, next, now, failure, rollback, pc).act.run)
  {
  }

  // ---------------------------------------------------------------- a deployment that fails

  /**
   * What a failed deployment or health check leads to is decided by the migration of the release: without one, or with
   * one the old release can live with, ROLLING_BACK is stored next; otherwise MANUAL_INTERVENTION_REQUIRED is, with the
   * code thrown, and nothing is taken back.
   */
  lemma FailedDeployment(l: Local, detail: string, now: int)
    requires ExecuteOK(l) && (l.act.pc == At(Deploy) || l.act.pc == At(CheckTarget))
    ensures l.act.run.snapshot.Some?
    ensures var l' := Tick(Tick(l, Fail(detail), now), Ok, now);
      && l'.d.record.Some? && l'.env == l.env
      && if l.act.run.snapshot.value.compatibility in {NoMigration, BackwardCompatible}
        then l'.d.record.value.phase == RollingBack && l'.act.pc.Goal() == RollbackEnv(OtherError(detail))
        else GivenUp(l'.d.record.value, OtherError(detail)) && l'.act.pc.Goal() == ReleasingLock
  {
    var m := DeployedStage(l);
    DeploymentFails(l, m, detail, now);
    var b := Tick(l, Fail(detail), now);
    if m.compatibility in {NoMigration, BackwardCompatible} {
      RollbackStored(b, OtherError(detail), now);
      RollbackKeepsText(b, OtherError(detail), now);
    } else {
      UnsafeStored(b, OtherError(detail), now);
    }
  }

  predicate GivenUp(r: UpdateRun, code: ErrorCode) {
    r.phase == ManualIntervention && r.failure == Some(code) && r.rollback == Unsafe
  }

  lemma DeployedStage(l: Local) returns (m: ReleaseManifest)
    requires ExecuteOK(l) && (l.act.pc == At(Deploy) || l.act.pc == At(CheckTarget))
    ensures l.act.run.snapshot == Some(m) && l.act.manifest == Some(m) && l.act.originalEnv != ""
    ensures l.act.run.phase in {Deploying, Healthcheck}
  {
    var here := l.act.pc.here;
    var st := if here == Deploy then Stage(Deploying, 13, true, true, 4) else Stage(Healthcheck, 14, true, true, 4);
    CheckTargetStage();
    DeployStage();
    StandingForward(l, here, st);
    EnvKnown(l);
    m := StageManifest(l, st);
  }

  lemma StageManifest(l: Local, st: Stage) returns (m: ReleaseManifest)
    requires InStage(l, st) && st.evidence == 4 && st.kept && l.d.origin.env != ""
    ensures l.act.run.snapshot == Some(m) && l.act.manifest == Some(m) && l.act.originalEnv != ""
    ensures l.act.run.phase == st.phase
  {
    m := l.act.manifest.value;
  }

  lemma DeploymentFails(l: Local, m: ReleaseManifest, detail: string, now: int)
    requires l.act.pc == At(Deploy) || l.act.pc == At(CheckTarget)
    requires l.act.run.phase in {Deploying, Healthcheck} && l.act.manifest == Some(m) && l.act.originalEnv != ""
    ensures var b, code := Tick(l, Fail(detail), now), OtherError(detail);
      && b.act.run == l.act.run && b.env == l.env && b.d.record == l.d.record
      && b.act.pc == At(if m.compatibility in {NoMigration, BackwardCompatible} then RollbackBegin(code)
                        else FailingUnsafe(code))
  {
  }

  lemma RollbackKeepsText(b: Local, code: ErrorCode, now: int)
    requires b.act.pc == At(RollbackBegin(code)) && b.act.run.phase in {Deploying, Healthcheck}
    ensures Tick(b, Ok, now).env == b.env && Tick(b, Ok, now).act.pc.Goal() == RollbackEnv(code)
  {
    MoveMemory(b, RollingBack, now, None, None, Logged(RollbackEnv(code)));
    RollbackResult(b, code, now);
    LoggedFacts(RollbackEnv(code));
  }

  lemma UnsafeStored(b: Local, code: ErrorCode, now: int)
    requires b.act.pc == At(FailingUnsafe(code)) && b.act.run.phase in {Deploying, Healthcheck}
    ensures var l := Tick(b, Ok, now);
      l.d.record.Some? && GivenUp(l.d.record.value, code) && l.env == b.env && l.act.pc.Goal() == ReleasingLock
  {
    MoveMemory(b, ManualIntervention, now, Some(code), Some(Unsafe), FailureLog(code));
    UnsafeResult(b, code, now);
    LoggedFacts(ReleasingLock);
  }

  lemma UnsafeResult(b: Local, code: ErrorCode, now: int)
    requires b.act.pc == At(FailingUnsafe(code)) && b.act.run.phase in {Deploying, Healthcheck}
    ensures var l := Tick(b, Ok, now);
      && l == Move(b, ManualIntervention, now, Some(code), Some(Unsafe), FailureLog(code))
      && l.d.record == Some(l.act.run) && l.act.run.rollback == Unsafe
  {
  }

  // ---------------------------------------------------------------- a crash between an event and its record

  /** The recovery has not written its log line yet. */
  predicate Unlogged(pc: PC) { !pc.Save? && pc != At(Done) }

  lemma UnloggedStep(l: Local, o: Outcome, now: int)
    requires RecoverOK(l) && Answered(o) && l.act.pc.At? && l.act.pc != At(Done)
    ensures var l' := Tick(l, o, now);
      Unlogged(l'.act.pc) && l'.d.events == l.d.events && l'.act.run.lastSequence == l.act.run.lastSequence
  {
    var here := l.act.pc.here;
    TickAt(l, here, o, now);
    RecoveryLabel(l, here);
    if OpAt(here, l.act.run).None? {
      ApplyFacts(l, EffectAt(l, here), now);
      ApplyLog(l, EffectAt(l, here), now);
      EffectUnlogged(l, here);
    } else {
      LookUnlogged(l, here, OpAt(here, l.act.run).value, o);
    }
  }

  lemma RecoveryLabel(l: Local, here: Label)
    requires RecoverOK(l) && l.act.pc == At(here) && !here.Done?
    ensures Recovering(here)
  {
    assert l.act.pc.Goal() == here;
  }

  predicate Recovering(here: Label) {
    || here.RecoverEnv? || here.RecoverFail? || here.RecoverMigration? || here.RecoverTarget? || here.RecoverComplete?
    || here.RecoverOld? || here.RecoverRolledBack? || here.RecoverDeployment? || here.RecoverManual?
  }

  lemma EffectUnlogged(l: Local, here: Label)
    requires Recovering(here) && OpAt(here, l.act.run).None?
    ensures Unlogged(PCOf(EffectAt(l, here))) && !EffectAt(l, here).Reloads?
  {
  }

  lemma LookUnlogged(l: Local, here: Label, op: Operation, o: Outcome)
    requires Recovering(here) && Answered(o) && OpAt(here, l.act.run) == Some(op)
    ensures var l' := CommandStep(l, here, op, o);
      Unlogged(l'.act.pc) && l'.d.events == l.d.events && l'.act.run == l.act.run
  {
  }

  lemma ApplyLog(l: Local, e: Effect, now: int)
    ensures Apply(l, e, now).d.events == l.d.events
    ensures !e.Reloads? ==> Apply(l, e, now).act.run.lastSequence == l.act.run.lastSequence
  {
  }

  lemma {:induction false} RecoveryLogs(l: Local, answers: seq<Outcome>, now: int)
    requires RecoverOK(l) && RecoverWeight(l.act.pc) <= |answers|
      && forall i :: 0 <= i < |answers| ==> Answered(answers[i])
    ensures var events := Ticks(l, answers, now).d.events;
      if Unlogged(l.act.pc)
      then |events| == |l.d.events| + 1 && events[..|l.d.events|] == l.d.events
        && events[|l.d.events|].sequence == l.act.run.lastSequence + 1
      else events == l.d.events
    decreases |answers|
  {
    RecoveryHasWay(l);
    if l.act.pc != At(Done) {
      var l' := Tick(l, answers[0], now);
      if l.act.pc.At? { UnloggedStep(l, answers[0], now); }
      RecoverDescends(l, answers[0], now);
      RecoverTick(l, answers[0], now);
      RecoveryLogs(l', answers[1..], now);
    }
  }

  lemma NumberedExtends(events: seq<LogEvent>, e: LogEvent)
    requires Numbered(events, |events|)
    ensures Numbered(events + [e], |events| + 1) <==> e.sequence == |events| + 1
  {
    assert (events + [e])[|events|] == e;
  }

  /**
   * After a crash and the recovery, the stored sequences are 1, 2, ..., n if and only if the crash did not fall
   * between the append of an event and the save of its record; otherwise the recovery's event repeats the last one.
   */
  lemma SequenceRepeatsExactly(l: Local, answers: seq<Outcome>, now: int)
    requires ExecuteOK(l) && l.d.record.Some? && !Terminal(l.d.record.value.phase)
    requires |answers| == 6 && forall i :: 0 <= i < |answers| ==> Answered(answers[i])
    ensures var events := Ticks(Resume(AfterCrash(l), l.env, l.d.record.value), answers, now).d.events;
      && |events| == |l.d.events| + 1 && events[..|l.d.events|] == l.d.events
      && (Numbered(events, |events|) <==> !l.act.pc.Save?)
      && (l.act.pc.Save? ==> events[|l.d.events|].sequence == |l.d.events|)
  {
    LagAtSave(l);
    var m := Resumed(l);
    RecoveryLogs(m, answers, now);
    LogExtends(l.d.events, Ticks(m, answers, now).d.events);
  }

  lemma LogExtends(before: seq<LogEvent>, events: seq<LogEvent>)
    requires Numbered(before, |before|) && |events| == |before| + 1 && events[..|before|] == before
    ensures Numbered(events, |events|) <==> events[|before|].sequence == |before| + 1
  {
    assert events == before + [events[|before|]];
    NumberedExtends(before, events[|before|]);
  }

  lemma LagAtSave(l: Local)
    requires ExecuteOK(l) && l.d.record.Some?
    ensures Numbered(l.d.events, |l.d.events|)
    ensures l.d.record.value.lastSequence + (if l.act.pc.Save? then 1 else 0) == |l.d.events|
  {
    RecordPhase(l);
  }

  /** The opening save, the transition to PREFLIGHT and the append of its event. */
  function FirstAppend(o: Origin, now: int): Local { Tick(Tick(Tick(Begin(o), Ok, now), Ok, now), Ok, now) }

  lemma FirstAppendIs(o: Origin, now: int)
    ensures var l := FirstAppend(o, now);
      && l.act.pc.Save? && l.d.record.Some? && l.d.record.value.phase.Preflight?
      && l.d.events == [LogEvent(1, Preflight)]
  {
  }

  /** Every run passes a moment at which a crash makes its recovery use an event number twice: the first append. */
  lemma RepeatReachable(o: Origin, answers: seq<Outcome>, now: int)
    requires HasVersionLine(o.env) && |answers| == 6 && forall i :: 0 <= i < |answers| ==> Answered(answers[i])
    ensures var l := FirstAppend(o, now);
      && ExecuteOK(l) && l.d.record.Some?
      && var events := Ticks(Resume(AfterCrash(l), l.env, l.d.record.value), answers, now).d.events;
        |events| == 2 && events[0].sequence == events[1].sequence == 1
  {
    FirstAppendOK(o, now);
    FirstAppendIs(o, now);
    RepeatsFirst(FirstAppend(o, now), answers, now);
  }

  lemma FirstAppendOK(o: Origin, now: int)
    requires HasVersionLine(o.env)
    ensures ExecuteOK(FirstAppend(o, now))
  {
    var l0, l1 := Begin(o), Tick(Begin(o), Ok, now);
    BeginOK(o);
    TickKeeps(l0, Ok, now);
    TickKeeps(l1, Ok, now);
    TickKeeps(Tick(l1, Ok, now), Ok, now);
  }

  lemma RepeatsFirst(l: Local, answers: seq<Outcome>, now: int)
    requires ExecuteOK(l) && l.act.pc.Save? && l.d.record.Some? && !Terminal(l.d.record.value.phase)
    requires |l.d.events| == 1 && l.d.events[0].sequence == 1
    requires |answers| == 6 && forall i :: 0 <= i < |answers| ==> Answered(answers[i])
    ensures var events := Ticks(Resume(AfterCrash(l), l.env, l.d.record.value), answers, now).d.events;
      |events| == 2 && events[0].sequence == events[1].sequence == 1
  {
    SequenceRepeatsExactly(l, answers, now);
    var events := Ticks(Resume(AfterCrash(l), l.env, l.d.record.value), answers, now).d.events;
    assert events[0] == events[..1][0];
  }

  // ---------------------------------------------------------------- cancellations

  /** On the way to CANCELLED, or there. */
  predicate OnCancelPath(l: Local) {
    var goal := l.act.pc.Goal();
    && ExecuteOK(l)
    && (goal.CancelRestoring? || goal.Cancelling?
        || (l.act.run.phase.Cancelled? && (goal == Raising(CancelledError) || goal.ReleasingLock? || goal.Done?)))
  }

  lemma CancelPathStep(l: Local, o: Outcome, now: int)
    requires OnCancelPath(l) && l.act.pc != At(Done)
    ensures OnCancelPath(Tick(l, o, now)) && Final(l, o) && Tick(l, o, now).d.trace == l.d.trace
      && Tick(l, o, now).d.origin == l.d.origin
  {
    TickKeeps(l, o, now);
    match l.act.pc
    case At(here) => if here.Cancelling? { CancellingStep(l, o, now); } else { CancelledStep(l, here, o, now); }
    case _ => LogStep(l, o, now);
  }

  lemma LogStep(l: Local, o: Outcome, now: int)
    requires !l.act.pc.At?
    ensures var l' := Tick(l, o, now);
      l'.act.pc.Goal() == l.act.pc.Goal() && l'.act.run.phase == l.act.run.phase && l'.d.trace == l.d.trace
        && l'.d.origin == l.d.origin
  {
  }

  /** The steps before and after the one that stores CANCELLED. */
  lemma CancelledStep(l: Local, here: Label, o: Outcome, now: int)
    requires l.act.pc == At(here) && (here.CancelRestoring? || here == Raising(CancelledError) || here.ReleasingLock?)
    ensures var l' := Tick(l, o, now);
      && l'.act.pc ==
        (if here.CancelRestoring? then At(Cancelling) else if here.Raising? then At(ReleasingLock) else At(Done))
      && l'.act.run == l.act.run && l'.d == l.d && Final(l, o)
  {
  }

  lemma CancellingStep(l: Local, o: Outcome, now: int)
    requires ExecuteOK(l) && l.act.pc == At(Cancelling)
    ensures var l' := Tick(l, o, now);
      l'.act.run.phase.Cancelled? && l'.act.pc.Goal() == Raising(CancelledError) && l'.d.trace == l.d.trace
        && l'.d.origin == l.d.origin
  {
    CancellingLabel();
    StandingCatch(l, Cancelling);
    MoveMemory(l, Cancelled, now, None, None, Logged(Raising(CancelledError)));
    LoggedFacts(Raising(CancelledError));
  }

  lemma CancellingLabel()
    ensures ForwardStage(Cancelling).None?
  {
  }

  lemma {:induction false} CancelPathEnds(l: Local, answers: seq<Outcome>, now: int)
    requires OnCancelPath(l)
    ensures var l' := Ticks(l, answers, now); OnCancelPath(l') && l'.d.trace == l.d.trace && l'.d.origin == l.d.origin
    ensures LeftWeight(l.act.pc) <= |answers| ==> Ticks(l, answers, now).act.pc == At(Done)
    decreases |answers|
  {
    if answers == [] {
      if l.act.pc != At(Done) { NotYetDone(l); }
    } else if l.act.pc != At(Done) {
      CancelPathStep(l, answers[0], now);
      LeftDescends(l, answers[0], now);
      CancelPathEnds(Tick(l, answers[0], now), answers[1..], now);
    }
  }

  lemma CancelledEnd(l: Local)
    requires OnCancelPath(l) && l.act.pc == At(Done)
    ensures l.d.record.Some? && l.d.record.value.phase.Cancelled? && l.env == l.d.origin.env && !l.locked
  {
    ExecuteEnd(l);
    ResumableNow(l);
  }

  lemma CheckpointTaken(l: Local, o: Outcome, now: int)
    requires Requested(l.d) && (l.act.pc == At(CancelCheckEarly) || l.act.pc == At(CancelCheckLate))
    ensures var l' := Tick(l, o, now);
      (l'.act.pc.Goal().Cancelling? || l'.act.pc.Goal().CancelRestoring?) && l'.d == l.d && Final(l, o)
  {
  }

  /**
   * A cancellation that is in the record when `execute` looks for one is honoured, after the host checks or after
   * the pull: no further operation is issued, `.env` gets its old text back, the run ends CANCELLED.
   */
  lemma CancellationHonoured(l: Local, answers: seq<Outcome>, now: int)
    requires ExecuteOK(l) && Requested(l.d) && (l.act.pc == At(CancelCheckEarly) || l.act.pc == At(CancelCheckLate))
    requires |answers| >= LeftWeight(l.act.pc)
    ensures var l' := Ticks(l, answers, now);
      && l'.act.pc == At(Done) && !l'.locked && l'.d.trace == l.d.trace && l'.env == l.d.origin.env
      && l'.d.record.Some? && l'.d.record.value.phase.Cancelled?
  {
    var l1 := Tick(l, answers[0], now);
    TickKeeps(l, answers[0], now);
    CheckpointTaken(l, answers[0], now);
    LeftDescends(l, answers[0], now);
    CancelPathEnds(l1, answers[1..], now);
    assert Ticks(l, answers, now) == Ticks(l1, answers[1..], now);
    CancelledEnd(Ticks(l1, answers[1..], now));
  }

  /**
   * Whether `execute` will see a request that is in the record now: it stands before a look at the record, or
   * before the compatibility check, the host checks or the pull, and these succeed without a line of output.
   */
  predicate WillSee(l: Local, answers: seq<Outcome>) {
    match l.act.pc
    case At(Validating) =>
      && l.act.manifest.Some? && ValidateCompatibility(l.act.run, l.act.manifest.value).None?
      && |answers| > 1 && answers[1].Ok?
    case At(CheckingHost) => answers != [] && answers[0].Ok?
    case At(PullingImages) => answers != [] && answers[0].Ok?
    case At(CancelCheckEarly) => true
    case At(CancelCheckLate) => true
    case _ => false
  }

  /** A run that left with a request it never heard is not CANCELLED. */
  lemma DeafEnd(l: Local)
    requires ExecuteOK(l) && l.act.pc == At(Done) && Deaf(l)
    ensures l.d.record.Some? && !l.d.record.value.phase.Cancelled?
  {
    ExecuteEnd(l);
  }

  lemma {:induction false} DeafEnds(l: Local, answers: seq<Outcome>, now: int)
    requires ExecuteOK(l) && Deaf(l) && Ticks(l, answers, now).act.pc == At(Done)
    ensures var l' := Ticks(l, answers, now); l'.d.record.Some? && !l'.d.record.value.phase.Cancelled?
    decreases |answers|
  {
    if l.act.pc == At(Done) || answers == [] {
      DeafEnd(l);
    } else {
      ShapedNow(l);
      DeafStays(l, answers[0], now);
      TickKeeps(l, answers[0], now);
      DeafEnds(Tick(l, answers[0], now), answers[1..], now);
    }
  }

  lemma ShapedNow(l: Local)
    requires ExecuteOK(l)
    ensures Shaped(l.act.pc)
  {
  }

  /** A listening await other than a look at the record: a failure or a line of output makes the run deaf. */
  lemma TurnsDeaf(l: Local, o: Outcome, now: int)
    requires Listening(l.act.pc) && !l.act.run.cancellationRequested && Fits(l, o)
    requires l.act.pc == At(CheckingHost) || l.act.pc == At(PullingImages)
    ensures !o.Ok? ==> Deaf(Tick(l, o, now))
    ensures o.Ok? ==> Looking(Tick(l, o, now)) && Tick(l, o, now).d.record == l.d.record
  {
    if o.Fail? { BrokenUnheard(l.act, l.act.pc.here, OtherError(o.detail)); }
  }

  /** Before a look at the record. */
  predicate Looking(l: Local) { l.act.pc == At(CancelCheckEarly) || l.act.pc == At(CancelCheckLate) }

  lemma ValidatingTurns(l: Local, o: Outcome, now: int)
    requires l.act.pc == At(Validating) && !l.act.run.cancellationRequested
    ensures var l' := Tick(l, o, now);
      && l'.d.record == l.d.record && !l'.act.run.cancellationRequested
      && (if l.act.manifest.Some? && ValidateCompatibility(l.act.run, l.act.manifest.value).None?
          then l'.act.pc == At(CheckingHost) else !Listening(l'.act.pc))
  {
  }

  lemma {:induction false} LookHeard(l: Local, answers: seq<Outcome>, now: int)
    requires ExecuteOK(l) && Requested(l.d) && Looking(l) && Ticks(l, answers, now).act.pc == At(Done)
    ensures var l' := Ticks(l, answers, now); l'.d.record.Some? && l'.d.record.value.phase.Cancelled?
  {
    TickKeeps(l, answers[0], now);
    CheckpointTaken(l, answers[0], now);
    CancelPathEnds(Tick(l, answers[0], now), answers[1..], now);
    CancelledEnd(Ticks(l, answers, now));
  }

  /** From the host checks or the pull. */
  lemma HeardFromCommand(l: Local, answers: seq<Outcome>, now: int)
    requires ExecuteOK(l) && Requested(l.d) && !l.act.run.cancellationRequested && AllFit(l, answers, now)
    requires l.act.pc == At(CheckingHost) || l.act.pc == At(PullingImages)
    requires Ticks(l, answers, now).act.pc == At(Done)
    ensures answers != []
    ensures var l' := Ticks(l, answers, now);
      l'.d.record.Some? && (l'.d.record.value.phase.Cancelled? <==> answers[0].Ok?)
  {
    TurnsDeaf(l, answers[0], now);
    TickKeeps(l, answers[0], now);
    if answers[0].Ok? { LookHeard(Tick(l, answers[0], now), answers[1..], now); }
    else { DeafEnds(Tick(l, answers[0], now), answers[1..], now); }
  }

  lemma HeardFromCheck(l: Local, answers: seq<Outcome>, now: int)
    requires ExecuteOK(l) && Requested(l.d) && !l.act.run.cancellationRequested && AllFit(l, answers, now)
    requires l.act.pc == At(Validating) && Ticks(l, answers, now).act.pc == At(Done)
    ensures var l' := Ticks(l, answers, now);
      l'.d.record.Some? && (l'.d.record.value.phase.Cancelled? <==> WillSee(l, answers))
  {
    var l1 := Tick(l, answers[0], now);
    ValidatingTurns(l, answers[0], now);
    TickKeeps(l, answers[0], now);
    if l1.act.pc == At(CheckingHost) {
      HeardFromCommand(l1, answers[1..], now);
    } else {
      DeafEnds(l1, answers[1..], now);
    }
  }

  /**
   * An accepted cancellation is honoured if and only if `execute` looks at the record before it stores the run it
   * holds in memory: the run, left to finish with whatever answers, ends CANCELLED exactly when `WillSee` holds of
   * the moment of the request.
   */
  lemma CancellationHonouredExactly(l: Local, answers: seq<Outcome>, now: int)
    requires ExecuteOK(l) && l.d.record.Some? && CanCancel(l.d.record.value.phase) && !l.act.run.cancellationRequested
    requires AllFit(l.(d := Cancel(l.d)), answers, now) && Ticks(l.(d := Cancel(l.d)), answers, now).act.pc == At(Done)
    ensures Requested(Cancel(l.d))
    ensures var l' := Ticks(l.(d := Cancel(l.d)), answers, now);
      l'.d.record.Some? && (l'.d.record.value.phase.Cancelled? <==> WillSee(l, answers))
  {
    var c := l.(d := Cancel(l.d));
    CancelKeeps(l);
    if Looking(c) { LookHeard(c, answers, now); }
    else if c.act.pc == At(Validating) { HeardFromCheck(c, answers, now); }
    else if c.act.pc == At(CheckingHost) || c.act.pc == At(PullingImages) { HeardFromCommand(c, answers, now); }
    else { DeafEnds(c, answers, now); }
  }

  /**
   * A run that loses its cancellation: accepted while the release is looked up, it is stored over, and the update
   * completes.
   */
  lemma CancellationLost(o: Origin, m: ReleaseManifest, digest: string, now: int)
    returns (before: seq<Outcome>, l: Local, after: seq<Outcome>)
    requires HasVersionLine(o.env) && Installable(m, o)
    ensures l == Ticks(Begin(o), before, now) && l.d.record.Some? && CanCancel(l.d.record.value.phase)
      && Requested(Cancel(l.d))
    ensures var l' := Ticks(l.(d := Cancel(l.d)), after, now);
      l'.act.pc == At(Done) && l'.d.record.Some? && l'.d.record.value.phase.Completed? && l'.env == NewText(l'.d)
  {
    BeginOnCourse(o, m);
    before := CourseReaches(Begin(o), m, digest, now, Fetching);
    l := Ticks(Begin(o), before, now);
    CancelKeeps(l);
    FetchingRequest(l, m);
    after := CourseCompletes(l.(d := Cancel(l.d)), m, digest, now);
  }

  lemma FetchingRequest(l: Local, m: ReleaseManifest)
    requires ExecuteOK(l) && OnCourse(l, m) && l.act.pc == At(Fetching)
    ensures l.d.record.Some? && CanCancel(l.d.record.value.phase) && Requested(Cancel(l.d))
    ensures OnCourse(l.(d := Cancel(l.d)), m)
  {
    FetchingStage();
    StandingForward(l, Fetching, Stage(Preflight, 0, false, false, 0));
    StageRecorded(l, Fetching, Stage(Preflight, 0, false, false, 0));
  }
}
