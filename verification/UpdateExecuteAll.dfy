/** The step lemmas of `execute` put together, and what a crash leaves. */
module UpdateExecuteAll {
  import opened Text
  import opened UpdateDomain
  import opened UpdatePlan
  import opened UpdateProtocol
  import opened UpdateInvariant
  import opened UpdateExecute

  /** Labels of the recovery and the throw that leaves `execute`: never reached by it. */
  predicate OutsideExecute(here: Label) {
    || here.Thrown? || here.RecoverEnv? || here.RecoverFail? || here.RecoverMigration? || here.RecoverTarget?
    || here.RecoverComplete? || here.RecoverOld? || here.RecoverRolledBack? || here.RecoverDeployment?
        || here.RecoverManual?
  }

  lemma StaysInside(l: Local)
    requires ExecuteOK(l)
    ensures !OutsideExecute(l.act.pc.Goal())
  {
    StageInside(l, l.act.pc.Goal());
  }

  lemma StageInside(l: Local, goal: Label)
    requires AtStage(l, goal)
    ensures !OutsideExecute(goal)
  {
    if OutsideExecute(goal) {
      OutsideLabels(goal);
      OutsideCatch(l.act.run, l.act.originalEnv, l.env, l.d.origin, ProgressOfDossier(l.d), goal);
    }
  }

  lemma OutsideLabels(goal: Label)
    requires OutsideExecute(goal)
    ensures ForwardStage(goal).None?
  {
  }

  lemma OutsideCatch(run: UpdateRun, originalEnv: string, env: string, o: Origin, p: Progress, goal: Label)
    requires OutsideExecute(goal)
    ensures !CatchFacts(run, originalEnv, env, o, p, goal)
  {
  }

  /** Outcomes the operation cannot have, and the finished activity, change nothing. */
  lemma CommandKeeps(l: Local, here: Label, op: Operation, o: Outcome)
    requires ExecuteOK(l) && l.act.pc == At(here) && OpAt(here, l.act.run) == Some(op) && !OutsideExecute(here)
    ensures ExecuteOK(CommandStep(l, here, op, o))
  {
    if here.Fetching? { FetchingKeeps(l, op, o); }
    else if here.Inspecting? { InspectingKeeps(l, here, op, o); }
    else if here.VerifyingImage? { VerifyingKeeps(l, here, op, o); }
    else if here.RollbackUp? || here.RollbackCheck? { RollingKeeps(l, here, op, o); }
    else { OthersPlain(here, l.act.run); PlainKeeps(l, here, op, o); }
  }

  lemma OthersPlain(here: Label, run: UpdateRun)
    requires OpAt(here, run).Some? && !OutsideExecute(here) && !here.Fetching? && !here.Inspecting?
      && !here.VerifyingImage? && !here.RollbackUp? && !here.RollbackCheck?
    ensures PlainCommand(here)
  {
  }

  lemma FetchingKeeps(l: Local, op: Operation, o: Outcome)
    requires ExecuteOK(l) && l.act.pc == At(Fetching) && op == FetchRelease
    ensures ExecuteOK(CommandStep(l, Fetching, op, o))
  {
    match o
    case Fail(detail) => FetchThrow(l, OtherError(detail));
    case FailWith(code) => if !code.CancelledError? { FetchThrow(l, code); }
    case Fetched(m, digest) => FetchKeeps(l, m, digest);
    case _ =>
  }

  lemma InspectingKeeps(l: Local, here: Label, op: Operation, o: Outcome)
    requires ExecuteOK(l) && l.act.pc == At(here) && here.Inspecting? && op == InspectImage(here.s)
    ensures ExecuteOK(CommandStep(l, here, op, o))
  {
    match o
    case Fail(detail) => InspectThrow(l, here.s, OtherError(detail));
    case Inspected(images) => InspectedBoth(l, here, images);
    case _ =>
  }

  lemma InspectedBoth(l: Local, here: Label, images: set<Image>)
    requires ExecuteOK(l) && l.act.pc == At(here) && here.Inspecting?
    ensures ExecuteOK(CommandStep(l, here, InspectImage(here.s), Inspected(images)))
  {
    InspectedResult(l, here.s, images);
    if l.act.manifest.Some? {
      if l.act.manifest.value.images.Of(here.s) in images { InspectedKeeps(l, here.s); }
      else { InspectThrow(l, here.s, OtherError("DIGEST_MISMATCH")); }
    }
  }

  lemma InspectedResult(l: Local, s: Service, images: set<Image>)
    ensures CommandStep(l, Inspecting(s), InspectImage(s), Inspected(images)) ==
      if l.act.manifest.None? then l
      else if l.act.manifest.value.images.Of(s) in images
        then Goto(Issue(l, InspectImage(s), Succeeded), At(CheckingPolicy(s)))
      else Goto(Issue(l, InspectImage(s), Broke), At(Catch(l.act, OtherError("DIGEST_MISMATCH"))))
  {
  }

  lemma VerifyingKeeps(l: Local, here: Label, op: Operation, o: Outcome)
    requires ExecuteOK(l) && l.act.pc == At(here) && here.VerifyingImage? && op == VerifyProvenance(here.s)
    ensures ExecuteOK(CommandStep(l, here, op, o))
  {
    VerifyingResult(l, here.s, o);
    match o
    case Fail(detail) => EvidenceThrow(l, here.s, OtherError(detail));
    case Ok => ManifestAtVerify(l, here.s); EvidenceKeeps(l, here.s, l.act.manifest.value);
    case _ =>
  }

  lemma VerifyingResult(l: Local, s: Service, o: Outcome)
    ensures var op := VerifyProvenance(s); var r := CommandStep(l, VerifyingImage(s), op, o);
      if o.Fail? then r == Goto(Issue(l, op, Broke), Logged(Raising(OtherError(o.detail))))
      else if o.Ok? then l.act.manifest.Some? ==> r == AddEvidence(Issue(l, op, Succeeded), l.act.manifest.value, s)
      else r == l
  {
  }

  lemma ManifestAtInspect(l: Local, s: Service)
    requires ExecuteOK(l) && l.act.pc == At(Inspecting(s))
    ensures l.act.manifest.Some?
  {
    VerifyStages(s);
    StandingForward(l, Inspecting(s), StageOf(s, 0));
    ManifestKnown(l, Inspecting(s), StageOf(s, 0));
  }

  lemma ManifestAtVerify(l: Local, s: Service)
    requires ExecuteOK(l) && l.act.pc == At(VerifyingImage(s))
    ensures l.act.manifest.Some?
  {
    VerifyStages(s);
    StandingForward(l, VerifyingImage(s), StageOf(s, 1));
    ManifestKnown(l, VerifyingImage(s), StageOf(s, 1));
  }

  lemma RollingKeeps(l: Local, here: Label, op: Operation, o: Outcome)
    requires ExecuteOK(l) && l.act.pc == At(here) && (here.RollbackUp? || here.RollbackCheck?)
      && OpAt(here, l.act.run) == Some(op)
    ensures ExecuteOK(CommandStep(l, here, op, o))
  {
    TargetOfRun(l);
    match o
    case Fail(detail) => RollbackKeeps(l, here, false); RollbackEqual(l, here, op, o, false);
    case Ok => RollbackKeeps(l, here, true); RollbackEqual(l, here, op, o, true);
    case _ =>
  }

  lemma RollbackEqual(l: Local, here: Label, op: Operation, o: Outcome, ok: bool)
    requires (here.RollbackUp? || here.RollbackCheck?) && OpAt(here, l.act.run) == Some(op)
      && l.act.run.installed == l.d.origin.installed
    requires if ok then o.Ok? else o.Fail?
    ensures CommandStep(l, here, op, o) ==
      Goto(Issue(l, RollbackOp(here, l.d.origin), if ok then Succeeded else Broke), At(AfterRollback(here, ok)))
  {
  }

  lemma PlainKeeps(l: Local, here: Label, op: Operation, o: Outcome)
    requires ExecuteOK(l) && l.act.pc == At(here) && PlainCommand(here) && OpAt(here, l.act.run) == Some(op)
    ensures ExecuteOK(CommandStep(l, here, op, o))
  {
    match o
    case Fail(detail) => ThrowStageOf(here); PlainThrow(l, here, op, OtherError(detail));
    case Ok => PlainSucceed(Issue(l, op, Succeeded), here); PlainSuccess(l, here, op);
    case Output => if Streams(here) { OutputKeeps(l, here); }
    case _ =>
  }

  lemma InternalKeeps(l: Local, here: Label, now: int)
    requires ExecuteOK(l) && l.act.pc == At(here) && OpAt(here, l.act.run).None? && !OutsideExecute(here)
    ensures ExecuteOK(InternalStep(l, here, now))
  {
    if MovesOn(here) { MovingKeeps(l, here, now); } else { OtherInternalKeeps(l, here, now); }
  }

  predicate MovesOn(here: Label) {
    || here.BeginPreflight? || here.BeginBackup? || here.BeginPulling? || here.BeginVerifying? || here.BeginMigrating?
    || here.BeginDeploying? || here.BeginHealthcheck?
  }

  lemma MovingKeeps(l: Local, here: Label, now: int)
    requires ExecuteOK(l) && l.act.pc == At(here) && MovesOn(here)
    ensures ExecuteOK(InternalStep(l, here, now))
  {
    match here
    case BeginPreflight => MainMoveKeeps(l, here, Preflight, now, Fetching);
    case BeginBackup => MainMoveKeeps(l, here, Backup, now, BackingUp);
    case BeginPulling => MainMoveKeeps(l, here, Pulling, now, PullingImages);
    case BeginVerifying => MainMoveKeeps(l, here, Verifying, now, CheckingRepository(Api));
    case BeginMigrating => MainMoveKeeps(l, here, Migrating, now, Migrate);
    case BeginDeploying => MainMoveKeeps(l, here, Deploying, now, Deploy);
    case BeginHealthcheck => MainMoveKeeps(l, here, Healthcheck, now, CheckTarget);
  }

  /** The steps of the main line that are neither moves nor operations. */
  predicate ChecksOn(here: Label) {
    || here.SavingSnapshot? || here.Validating? || here.CancelCheckEarly? || here.WritingTarget?
        || here.CancelCheckLate?
    || here.CancelRestoring? || here.CheckingRepository? || here.CheckingPolicy? || here.SavingEvidence?
  }

  lemma CheckingKeeps(l: Local, here: Label, now: int)
    requires ExecuteOK(l) && l.act.pc == At(here) && ChecksOn(here)
    ensures ExecuteOK(InternalStep(l, here, now))
  {
    match here
    case SavingSnapshot => SnapshotKeeps(l);
    case Validating => ValidatingKeeps(l, now);
    case CancelCheckEarly => CancelEarlyKeeps(l, now);
    case WritingTarget => WriteTargetKeeps(l, now);
    case CancelCheckLate => CancelLateKeeps(l, now);
    case CancelRestoring => CancelRestoreKeeps(l, now);
    case CheckingRepository(s) => RepositoryKeeps(l, s, now);
    case CheckingPolicy(s) => PolicyKeeps(l, s, now);
    case SavingEvidence(s) => SaveEvidenceKeeps(l, s);
  }

  lemma OtherInternalKeeps(l: Local, here: Label, now: int)
    requires ExecuteOK(l) && l.act.pc == At(here) && OpAt(here, l.act.run).None? && !OutsideExecute(here)
      && !MovesOn(here)
    ensures ExecuteOK(InternalStep(l, here, now))
  {
    if ChecksOn(here) { CheckingKeeps(l, here, now); }
    else if here.Completing? { CompletingIs(l, now); CompletingKeeps(l, now); }
    else if EndsAt(here) { EndingKeeps(l, here, now); }
    else { CatchingKeeps(l, here, now); }
  }

  lemma CompletingIs(l: Local, now: int)
    ensures InternalStep(l, Completing, now) ==
      Move(l, Completed, now, None, Some(NotRequired), Logged(ReleasingLock))
  {
  }

  /** The labels at which the end of a run is stored. */
  predicate EndsAt(here: Label) {
    || here.Cancelling? || here.Maintenance? || here.FailingUnsafe? || here.FailingNow? || here.RollbackDone?
        || here.RollbackFailing?
  }

  lemma EndEffect(l: Local, here: Label)
    requires EndsAt(here)
    ensures var e := EffectAt(l, here); e.Moves? && EndsWith(here, e.next, e.failure, e.pc)
  {
  }

  lemma EndingKeeps(l: Local, here: Label, now: int)
    requires ExecuteOK(l) && l.act.pc == At(here) && EndsAt(here)
    ensures ExecuteOK(InternalStep(l, here, now))
  {
    EndEffect(l, here);
    var e := EffectAt(l, here);
    EndKeeps(l, here, e.next, now, e.failure, e.rollback, e.pc);
  }

  lemma CatchingKeeps(l: Local, here: Label, now: int)
    requires ExecuteOK(l) && l.act.pc == At(here) && OpAt(here, l.act.run).None? && !OutsideExecute(here)
    requires !MovesOn(here) && !ChecksOn(here) && !EndsAt(here) && !here.Completing?
    ensures ExecuteOK(InternalStep(l, here, now))
  {
    CatchEffect(l, here);
    match here
    case RestoringEnv(code) => RestoringKeeps(l, here, FailingNow(code), now);
    case RollbackEnv(code) => RestoringKeeps(l, here, RollbackUp(code), now);
    case Raising(code) => RaisingKeeps(l, code);
    case RollbackBegin(code) => RollbackBeginKeeps(l, code, now);
    case ReleasingLock => ReleaseKeeps(l);
    case _ =>
  }

  lemma RestoringKeeps(l: Local, here: Label, goal: Label, now: int)
    requires ExecuteOK(l) && l.act.pc == At(here)
      && EffectAt(l, here) == Writes(l.act.originalEnv, l.act.originalEnv, At(goal))
    requires (here.RestoringEnv? && goal == FailingNow(here.code))
      || (here.RollbackEnv? && goal == RollbackUp(here.code))
    ensures ExecuteOK(InternalStep(l, here, now))
  {
    RestoreKeeps(l, here, goal);
  }

  lemma CatchEffect(l: Local, here: Label)
    requires OpAt(here, l.act.run).None? && !OutsideExecute(here)
    requires !MovesOn(here) && !ChecksOn(here) && !EndsAt(here) && !here.Completing?
    ensures EffectAt(l, here) == match here
      case RestoringEnv(code) => Writes(l.act.originalEnv, l.act.originalEnv, At(FailingNow(code)))
      case RollbackEnv(code) => Writes(l.act.originalEnv, l.act.originalEnv, At(RollbackUp(code)))
      case Raising(code) => Goes(At(Catch(l.act, code)))
      case RollbackBegin(code) => Moves(RollingBack, None, None, Logged(RollbackEnv(code)))
      case ReleasingLock => Frees
      case _ => Goes(At(here))
  {
  }

  /** The invariant of `execute` is inductive: whatever the environment answers, every step keeps it. */
  lemma TickKeeps(l: Local, o: Outcome, now: int)
    requires ExecuteOK(l)
    ensures ExecuteOK(Tick(l, o, now))
  {
    match l.act.pc
    case Append(_) => AppendKeeps(l, o, now);
    case Save(_) => SaveKeeps(l, o, now);
    case At(here) =>
      StaysInside(l);
      assert !OutsideExecute(here);
      TickAt(l, here, o, now);
      if OpAt(here, l.act.run).Some? {
        CommandKeeps(l, here, OpAt(here, l.act.run).value, o);
      } else {
        InternalKeeps(l, here, now);
      }
  }

  lemma TickAt(l: Local, here: Label, o: Outcome, now: int)
    requires l.act.pc == At(here)
    ensures Tick(l, o, now) ==
      match OpAt(here, l.act.run) case Some(op) => CommandStep(l, here, op, o) case None => InternalStep(l, here, now)
  {
  }

  // ---------------------------------------------------------------- crash and cancel

  /** Before the record is sealed in memory it lags in evidence only, which no phase reached so far asks for. */
  lemma ResumableNow(l: Local)
    requires ExecuteOK(l)
    ensures Resumable(l.d, l.env)
  {
    if l.d.record.Some? { RecordPhase(l); }
  }

  lemma RecordPhase(l: Local)
    requires ExecuteOK(l) && l.d.record.Some?
    ensures l.d.record.value.phase == l.act.run.phase
    ensures !l.act.run.phase.Failed? || l.d.record.value.failure == l.act.run.failure
    ensures LagOf(l.act.pc).OneEvent? ==> l.d.record.value.lastSequence + 1 == l.act.run.lastSequence
    ensures !LagOf(l.act.pc).OneEvent? ==> l.d.record.value.lastSequence == l.act.run.lastSequence
  {
    assert LagOf(l.act.pc).Fields? ==> l.act.run.phase.Preflight? || l.act.run.phase.Verifying?;
  }

  /** An operation cut off by the crash extends the trace legally. */
  lemma CutLegal(l: Local, op: Operation)
    requires ExecuteOK(l) && l.act.pc.At? && OpAt(l.act.pc.here, l.act.run) == Some(op)
    ensures var p := Advance(l.d.origin, ProgressOfDossier(l.d), Entry(Executor, op, l.env, Interrupted)); p.Cut?
    ensures !Terminal(l.act.run.phase) && l.d.record.Some? && l.d.record.value.phase == l.act.run.phase
  {
    var here := l.act.pc.here;
    TargetOfRun(l);
    StaysInside(l);
    RecordPhase(l);
    if here.RollbackUp? || here.RollbackCheck? {
      RollbackLabels(here, true);
      StandingCatch(l, here);
      RollbackCut(l, here, op);
    } else {
      CommandForward(here, l.act.run);
      StandingForward(l, here, ForwardStage(here).value);
      ScriptedAt(here, l.d.origin, l.act.run);
      ForwardCut(l, here, op, ForwardStage(here).value);
    }
  }

  lemma CommandForward(here: Label, run: UpdateRun)
    requires OpAt(here, run).Some? && !OutsideExecute(here) && !here.RollbackUp? && !here.RollbackCheck?
    ensures ForwardStage(here).Some?
  {
  }

  lemma ScriptedAt(here: Label, o: Origin, run: UpdateRun)
    requires ForwardStage(here).Some? && OpAt(here, run).Some? && run.target == o.target
    ensures NextOfScript(o, run, here, OpAt(here, run).value, ForwardStage(here).value)
  {
    match here
    case Inspecting(s) => VerifyStages(s); VerifyScript(s, o, run);
    case VerifyingImage(s) => VerifyStages(s); VerifyScript(s, o, run);
    case _ =>
  }

  lemma ForwardCut(l: Local, here: Label, op: Operation, st: Stage)
    requires AtForward(l, here, st) && NextOfScript(l.d.origin, l.act.run, here, op, st)
    ensures Advance(l.d.origin, ProgressOfDossier(l.d), Entry(Executor, op, l.env, Interrupted)).Cut?
    ensures !Terminal(l.act.run.phase)
  {
    IssueExpected(l, here, op, st, Interrupted);
    ForwardGoesOn(here, st);
  }

  lemma ForwardGoesOn(here: Label, st: Stage)
    requires ForwardStage(here) == Some(st)
    ensures !Terminal(st.phase)
  {
  }

  lemma RollbackCut(l: Local, here: Label, op: Operation)
    requires InCatch(l, here) && (here.RollbackUp? || here.RollbackCheck?) && op == RollbackOp(here, l.d.origin)
    ensures Advance(l.d.origin, ProgressOfDossier(l.d), Entry(Executor, op, l.env, Interrupted)).Cut?
    ensures !Terminal(l.act.run.phase)
  {
  }

  /** The trace may grow under a dossier whose record is not final. */
  lemma TraceGrows(d: Dossier, env: string, e: Entry)
    requires Resumable(d, env) && d.record.Some? && !Terminal(d.record.value.phase)
    requires Advance(d.origin, ProgressOfDossier(d), e).Cut?
    ensures Resumable(d.(trace := d.trace + [e]), env)
  {
    AppendAdvances(d.origin, d.trace, e);
    var d' := d.(trace := d.trace + [e]);
    assert ReachedOK(d.record.value, d');
  }

  /** Whenever `execute` dies, what it leaves can be resumed. */
  lemma CrashKeeps(l: Local)
    requires ExecuteOK(l)
    ensures Resumable(AfterCrash(l), l.env)
  {
    ResumableNow(l);
    if l.act.pc.At? && OpAt(l.act.pc.here, l.act.run).Some? {
      var op := OpAt(l.act.pc.here, l.act.run).value;
      CutLegal(l, op);
      TraceGrows(l.d, l.env, Entry(Executor, op, l.env, Interrupted));
    }
  }

  /** A cancellation only sets the flag of the stored record. */
  lemma CancelDossier(d: Dossier)
    requires DossierOK(d)
    ensures DossierOK(Cancel(d))
  {
    if d.record.Some? && CanCancel(d.record.value.phase) {
      RunFrame(d.record.value, d, Cancel(d).record.value, Cancel(d));
    }
  }

  lemma CancelKeeps(l: Local)
    requires ExecuteOK(l)
    ensures ExecuteOK(l.(d := Cancel(l.d)))
  {
    var l' := l.(d := Cancel(l.d));
    if l.d.record.Some? && CanCancel(l.d.record.value.phase) {
      CancelDossier(l.d);
      RunFrame(l.act.run, l.d, l.act.run, l'.d);
      StageFrame(l, l', l.act.pc.Goal());
      CancelFiles(l, l');
    }
  }

  lemma CancelFiles(l: Local, l': Local)
    requires FilesOK(l) && l' == l.(d := Cancel(l.d)) && DossierOK(l'.d) && RunOK(l.act.run, l'.d)
    requires l.d.record.Some? && CanCancel(l.d.record.value.phase)
    ensures FilesOK(l')
  {
  }

  // ---------------------------------------------------------------- what no await changes

  lemma TickFrame(l: Local, o: Outcome, now: int)
    ensures Tick(l, o, now).d.origin == l.d.origin && Tick(l, o, now).act.actor == l.act.actor
  {
    match l.act.pc
    case At(here) =>
      match OpAt(here, l.act.run) {
      case Some(op) => CommandFrame(l, here, op, o);
      case None => InternalFrame(l, here, now);
      }
    case _ =>
  }

  /** An operation leaves record, `.env` and origin alone. */
  predicate Untouched(l: Local, l': Local) {
    l'.d.origin == l.d.origin && l'.d.record == l.d.record && l'.env == l.env && l'.act.actor == l.act.actor
  }

  lemma CommandFrame(l: Local, here: Label, op: Operation, o: Outcome)
    ensures Untouched(l, CommandStep(l, here, op, o))
  {
    match o
    case Ok => SucceedFrame(Issue(l, op, Succeeded), here);
    case Inspected(_) => InspectedFrame(l, here, op, o);
    case _ =>
  }

  lemma InspectedFrame(l: Local, here: Label, op: Operation, o: Outcome)
    requires o.Inspected?
    ensures Untouched(l, CommandStep(l, here, op, o))
  {
  }

  lemma SucceedFrame(l: Local, here: Label)
    ensures Untouched(l, Succeed(l, here))
  {
  }

  lemma InternalFrame(l: Local, here: Label, now: int)
    ensures InternalStep(l, here, now).d.origin == l.d.origin && InternalStep(l, here, now).act.actor == l.act.actor
  {
    ApplyFrame(l, EffectAt(l, here), now);
  }

  lemma ApplyFrame(l: Local, e: Effect, now: int)
    ensures Apply(l, e, now).d.origin == l.d.origin && Apply(l, e, now).act.actor == l.act.actor
  {
  }

  // ---------------------------------------------------------------- the end

  lemma ExecuteEnd(l: Local)
    requires ExecuteOK(l) && l.act.pc == At(Done)
    ensures !l.locked && Terminal(l.act.run.phase) && l.d.record.Some? && l.d.record.value.phase == l.act.run.phase
  {
    RecordThere(l);
    if l.d.record.Some? { RecordPhase(l); }
    DoneIsFinal(l);
  }

  lemma DoneIsFinal(l: Local)
    requires AtStage(l, l.act.pc.Goal()) && l.act.pc == At(Done)
    ensures Terminal(l.act.run.phase)
  {
    assert l.act.pc.Goal() == Done && ForwardStage(Done).None?;
    assert InCatch(l, Done);
  }

  lemma RecordThere(l: Local)
    requires ExecuteOK(l) && l.act.pc == At(Done)
    ensures l.d.record.Some?
  {
  }

  // ---------------------------------------------------------------- for programs that carry the machine along

  function Last(past: seq<Local>): Local
    requires past != []
  {
    past[|past| - 1]
  }

  /** The record a transition stores. */
  function Updated(run: UpdateRun, next: Phase, now: int, failure: Option<ErrorCode>,
    rollback: Option<RollbackStatus>): UpdateRun
    requires CanMove(run.phase, next)
  {
    var r := TransitionRun(run, next, now).value;
    r.(failure := if failure.Some? then failure else r.failure,
       rollback := if rollback.Some? then rollback.value else r.rollback)
  }
}
