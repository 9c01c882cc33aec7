/** Every step of `execute` keeps the invariant. */
module UpdateExecute {
  import opened Text
  import opened EnvFile
  import opened UpdateDomain
  import opened UpdatePlan
  import opened UpdateProtocol
  import opened UpdateInvariant

  // ---------------------------------------------------------------- glue

  /** `execute` stands at `here` with the lock held and files in order. */
  predicate Standing(l: Local, here: Label) {
    FilesOK(l) && l.act.actor.Executor? && l.locked && l.act.pc == At(here)
  }

  predicate AtForward(l: Local, here: Label, st: Stage) {
    Standing(l, here) && ForwardStage(here) == Some(st) && InStage(l, st)
  }

  predicate AtCatch(l: Local, here: Label) {
    Standing(l, here) && ForwardStage(here).None? && InCatch(l, here)
  }

  lemma StandingForward(l: Local, here: Label, st: Stage)
    requires ExecuteOK(l) && l.act.pc == At(here) && ForwardStage(here) == Some(st)
    ensures AtForward(l, here, st)
    ensures here.CancelRestoring? ==> l.act.run.cancellationRequested
  {
    assert l.act.pc.Goal() == here;
  }

  lemma StandingCatch(l: Local, here: Label)
    requires ExecuteOK(l) && l.act.pc == At(here) && ForwardStage(here).None? && !here.Done?
    ensures AtCatch(l, here) && !ProgressOfDossier(l.d).Recovered?
  {
    assert l.act.pc.Goal() == here;
  }

  /** Going on to a stage of the main line. */
  lemma EnterForward(m: Local, pc: PC, goal: Label, st: Stage)
    requires FilesOK(m) && m.act.actor.Executor? && m.locked && Synced(m.act.pc)
    requires Towards(pc, goal) && !AtSave(goal) && ForwardStage(goal) == Some(st) && InStage(m, st)
    requires goal.CancelRestoring? ==> m.act.run.cancellationRequested
    ensures ExecuteOK(Goto(m, pc))
  {
    FilesFrame(m, Goto(m, pc));
    AssembleForward(Goto(m, pc), goal, st);
  }

  /** Going on to a stage of the catch block. */
  lemma EnterCatch(m: Local, pc: PC, goal: Label)
    requires FilesOK(m) && m.act.actor.Executor? && m.locked && Synced(m.act.pc)
    requires Towards(pc, goal) && !AtSave(goal) && ForwardStage(goal).None? && InCatch(m, goal) && !goal.Done?
    requires !ProgressOfDossier(m.d).Recovered?
    ensures ExecuteOK(Goto(m, pc))
  {
    FilesFrame(m, Goto(m, pc));
    assert InCatch(Goto(m, pc), goal);
    Assemble(Goto(m, pc), goal);
  }

  /** The operation of a stage is the next one of the script. */
  predicate NextOfScript(o: Origin, run: UpdateRun, here: Label, op: Operation, st: Stage) {
    && OpAt(here, run) == Some(op) && st.done < STEPS && op == Script(st.done, o.target)
    && st.rewritten == (st.done >= 4) && !Terminal(st.phase) && !AtSave(here)
  }

  /** The entry an operation of the main line adds to the trace. */
  lemma IssueExpected(l: Local, here: Label, op: Operation, st: Stage, result: Result)
    requires AtForward(l, here, st) && NextOfScript(l.d.origin, l.act.run, here, op, st)
    ensures FilesOK(Issue(l, op, result))
    ensures ProgressOfDossier(Issue(l, op, result).d) ==
      (match result case Succeeded => Forward(st.done + 1) case Broke => Halted(st.done)
        case Interrupted => Cut(st.done))
  {
    StageExpects(l, here, op, st, result);
    IssueFiles(l, op, result);
  }

  lemma StageExpects(l: Local, here: Label, op: Operation, st: Stage, result: Result)
    requires AtForward(l, here, st) && NextOfScript(l.d.origin, l.act.run, here, op, st)
    ensures ProgressOfDossier(l.d) == Forward(st.done)
      && Expected(l.d.origin, st.done, Entry(l.act.actor, op, l.env, result))
    ensures Advance(l.d.origin, Forward(st.done), Entry(l.act.actor, op, l.env, result)) ==
      (match result case Succeeded => Forward(st.done + 1) case Broke => Halted(st.done)
        case Interrupted => Cut(st.done))
    ensures !Terminal(l.act.run.phase) && l.d.record.Some? && l.d.record.value.phase == l.act.run.phase
  {
    StageRecorded(l, here, st);
  }

  lemma StageRecorded(l: Local, here: Label, st: Stage)
    requires AtForward(l, here, st) && !AtSave(here)
    ensures l.d.record.Some? && l.d.record.value.phase == l.act.run.phase
  {
  }

  lemma DoneGrows(l: Local, m: Local, st: Stage)
    requires InStage(l, st) && m.act == l.act && m.env == l.env && m.d.origin == l.d.origin
    requires ProgressOfDossier(m.d) == Forward(st.done + 1) && st.done >= 2
    ensures InStage(m, st.(done := st.done + 1))
  {
  }

  /** An operation of the main line succeeds. */
  lemma ForwardSuccess(l: Local, here: Label, op: Operation, goal: Label, st: Stage, pc: PC)
    requires AtForward(l, here, st) && NextOfScript(l.d.origin, l.act.run, here, op, st) && st.done >= 2
    requires ForwardStage(goal) == Some(st.(done := st.done + 1))
    requires Towards(pc, goal) && !AtSave(goal) && !goal.CancelRestoring?
    ensures ExecuteOK(Goto(Issue(l, op, Succeeded), pc))
  {
    IssueExpected(l, here, op, st, Succeeded);
    DoneGrows(l, Issue(l, op, Succeeded), st);
    EnterForward(Issue(l, op, Succeeded), pc, goal, st.(done := st.done + 1));
  }

  // ---------------------------------------------------------------- commands of the main line

  /** The operations of the main line other than the release lookup and the image checks. */
  predicate PlainCommand(here: Label) {
    || here.CheckingHost? || here.BackingUp? || here.PullingImages? || here.Migrate? || here.MigrationStatus?
    || here.Deploy? || here.CheckTarget?
  }

  function AfterCommand(here: Label): Label
    requires PlainCommand(here)
  {
    match here
    case CheckingHost => CancelCheckEarly
    case BackingUp => WritingTarget
    case PullingImages => CancelCheckLate
    case Migrate => MigrationStatus
    case MigrationStatus => BeginDeploying
    case Deploy => BeginHealthcheck
    case CheckTarget => Completing
  }

  function AfterCommandPC(here: Label): PC
    requires PlainCommand(here)
  {
    if here.BackingUp? || here.MigrationStatus? then Logged(AfterCommand(here)) else At(AfterCommand(here))
  }

  lemma StageOfCommand(here: Label, o: Origin, run: UpdateRun)
    requires PlainCommand(here) && run.target == o.target
    ensures ForwardStage(here).Some? && OpAt(here, run).Some?
    ensures NextOfScript(o, run, here, OpAt(here, run).value, ForwardStage(here).value)
      && ForwardStage(here).value.done >= 2
  {
  }

  lemma StageAfterCommand(here: Label)
    requires PlainCommand(here) && ForwardStage(here).Some?
    ensures ForwardStage(AfterCommand(here)) ==
      Some(ForwardStage(here).value.(done := ForwardStage(here).value.done + 1))
    ensures !AtSave(AfterCommand(here)) && !AfterCommand(here).CancelRestoring? && !AfterCommand(here).BeginPreflight?
    ensures Towards(AfterCommandPC(here), AfterCommand(here))
  {
  }

  lemma TargetOfRun(l: Local)
    requires FilesOK(l)
    ensures l.act.run.target == l.d.origin.target && l.act.run.installed == l.d.origin.installed
  {
  }

  lemma PlainSuccess(l: Local, here: Label, op: Operation)
    requires ExecuteOK(l) && l.act.pc == At(here) && PlainCommand(here) && OpAt(here, l.act.run) == Some(op)
    ensures ExecuteOK(Goto(Issue(l, op, Succeeded), AfterCommandPC(here)))
  {
    TargetOfRun(l);
    StageOfCommand(here, l.d.origin, l.act.run);
    StandingForward(l, here, ForwardStage(here).value);
    StageAfterCommand(here);
    ForwardSuccess(l, here, op, AfterCommand(here), ForwardStage(here).value, AfterCommandPC(here));
  }

  lemma PlainSucceed(m: Local, here: Label)
    requires PlainCommand(here)
    ensures Succeed(m, here) == Goto(m, AfterCommandPC(here))
  {
  }

  /** A chunk of output is logged and the command goes on. */
  lemma OutputKeeps(l: Local, here: Label)
    requires ExecuteOK(l) && l.act.pc == At(here) && Streams(here)
    ensures ExecuteOK(Goto(l, Logged(here)))
  {
    StandingForward(l, here, ForwardStage(here).value);
    EnterForward(l, Logged(here), here, ForwardStage(here).value);
  }

  // ---------------------------------------------------------------- throws

  lemma LineNotEmpty(d: Dossier)
    requires DossierOK(d)
    ensures d.origin.env != ""
  {
  }

  /** Where a throw leads, by the phase it happens in. */
  predicate ThrowFits(l: Local, p: Progress, code: ErrorCode) {
    && l.act.originalEnv == (if BeforeDeploy(l.act.run.phase) || Deployed(l.act.run.phase) then l.d.origin.env else "")
    && !code.CancelledError?
    && (NeedsMaintenance(code) ==> l.act.run.phase.Preflight? && (p == Halted(0) || p == Halted(1)))
    && (match l.act.run.phase
        case Preflight => l.env == l.d.origin.env
        case Backup => l.env == l.d.origin.env
        case Deploying =>
          && l.env == NewText(l.d) && BrokeAt13Or14(p)
          && l.act.manifest.Some? && l.act.run.snapshot == l.act.manifest
        case Healthcheck =>
          && l.env == NewText(l.d) && BrokeAt13Or14(p)
          && l.act.manifest.Some? && l.act.run.snapshot == l.act.manifest
        case ph => BeforeDeploy(ph))
  }

  lemma CatchOfThrow(l: Local, code: ErrorCode)
    requires ThrowFits(l, ProgressOfDossier(l.d), code) && l.d.origin.env != ""
    ensures InCatch(l, Catch(l.act, code)) && ForwardStage(Catch(l.act, code)).None?
    ensures !Catch(l.act, code).Done? && !AtSave(Catch(l.act, code))
  {
    CatchLabels(l.act, code);
    if Deployed(l.act.run.phase) { CatchDeployed(l, code); } else { CatchUndeployed(l, code); }
  }

  lemma CatchLabels(a: Activity, code: ErrorCode)
    requires !code.CancelledError?
    ensures ForwardStage(Catch(a, code)).None? && !Catch(a, code).Done? && !AtSave(Catch(a, code))
  {
  }

  lemma CatchDeployed(l: Local, code: ErrorCode)
    requires ThrowFits(l, ProgressOfDossier(l.d), code) && l.d.origin.env != "" && Deployed(l.act.run.phase)
    ensures InCatch(l, Catch(l.act, code))
  {
    assert !NeedsMaintenance(code);
    if RollbackAllowed(l.act.manifest.value) {
      assert Catch(l.act, code) == RollbackBegin(code);
    } else {
      assert Catch(l.act, code) == FailingUnsafe(code);
    }
  }

  lemma CatchUndeployed(l: Local, code: ErrorCode)
    requires ThrowFits(l, ProgressOfDossier(l.d), code) && l.d.origin.env != "" && !Deployed(l.act.run.phase)
    ensures InCatch(l, Catch(l.act, code))
  {
    if NeedsMaintenance(code) {
      assert Catch(l.act, code) == Maintenance(code);
    } else if BeforeDeploy(l.act.run.phase) {
      assert Catch(l.act, code) == RestoringEnv(code);
    } else {
      assert Catch(l.act, code) == FailingNow(code);
    }
  }

  /** A throw goes to the catch block. */
  lemma ThrowKeeps(m: Local, code: ErrorCode)
    requires FilesOK(m) && m.act.actor.Executor? && m.locked && Synced(m.act.pc)
    requires ThrowFits(m, ProgressOfDossier(m.d), code) && !ProgressOfDossier(m.d).Recovered?
    ensures ExecuteOK(Goto(m, At(Catch(m.act, code))))
  {
    LineNotEmpty(m.d);
    CatchOfThrow(m, code);
    EnterCatch(m, At(Catch(m.act, code)), Catch(m.act, code));
  }

  /** What a stage says about a throw from it. */
  lemma StageThrow(l: Local, m: Local, st: Stage, code: ErrorCode)
    requires InStage(l, st) && m.act == l.act && m.env == l.env && m.d.origin == l.d.origin
    requires st.kept == (BeforeDeploy(st.phase) || Deployed(st.phase)) && st.rewritten == st.kept
    requires st.phase.Preflight? || st.phase.Backup? || BeforeDeploy(st.phase) || Deployed(st.phase)
    requires Deployed(st.phase) ==> st.evidence == 4 && BrokeAt13Or14(ProgressOfDossier(m.d))
    requires code.OtherError?
      || (st.phase.Preflight? && !code.CancelledError?
        && (ProgressOfDossier(m.d) == Halted(0) || ProgressOfDossier(m.d) == Halted(1)))
    ensures ThrowFits(m, ProgressOfDossier(m.d), code)
  {
  }

  /** A stage from which an operation may throw. */
  predicate ThrowStage(st: Stage) {
    && st.kept == (BeforeDeploy(st.phase) || Deployed(st.phase)) && st.rewritten == st.kept
    && (st.phase.Preflight? || st.phase.Backup? || BeforeDeploy(st.phase) || Deployed(st.phase))
    && (Deployed(st.phase) ==> st.evidence == 4 && (st.done == 13 || st.done == 14))
  }

  /** An operation of the main line throws. */
  lemma ForwardThrow(l: Local, here: Label, op: Operation, st: Stage, code: ErrorCode)
    requires AtForward(l, here, st) && NextOfScript(l.d.origin, l.act.run, here, op, st) && ThrowStage(st)
    requires code.OtherError? || (st.phase.Preflight? && !code.CancelledError? && (st.done == 0 || st.done == 1))
    ensures ExecuteOK(Goto(Issue(l, op, Broke), At(Catch(l.act, code))))
  {
    IssueExpected(l, here, op, st, Broke);
    StageThrow(l, Issue(l, op, Broke), st, code);
    ThrowKeeps(Issue(l, op, Broke), code);
  }

  lemma ThrowStageOf(here: Label)
    requires PlainCommand(here)
    ensures ForwardStage(here).Some? && ThrowStage(ForwardStage(here).value)
    ensures forall m, code :: Broken(m, here, code) == Goto(m, At(Catch(m.act, code)))
  {
  }

  lemma PlainThrow(l: Local, here: Label, op: Operation, code: ErrorCode)
    requires ExecuteOK(l) && l.act.pc == At(here) && PlainCommand(here) && OpAt(here, l.act.run) == Some(op)
      && code.OtherError?
    ensures ExecuteOK(Goto(Issue(l, op, Broke), At(Catch(l.act, code))))
  {
    TargetOfRun(l);
    StageOfCommand(here, l.d.origin, l.act.run);
    StandingForward(l, here, ForwardStage(here).value);
    ThrowStageOf(here);
    ForwardThrow(l, here, op, ForwardStage(here).value, code);
  }

  // ---------------------------------------------------------------- release lookup and compatibility

  /** The release arrives: manifest, its evidence and the rollback verdict enter the record in memory. */
  lemma FetchKeeps(l: Local, m: ReleaseManifest, digest: string)
    requires ExecuteOK(l) && l.act.pc == At(Fetching)
    ensures ExecuteOK(Fetch(Issue(l, FetchRelease, Succeeded), m, digest))
  {
    var st := Stage(Preflight, 0, false, false, 0);
    FetchingStage();
    StandingForward(l, Fetching, st);
    IssueExpected(l, Fetching, FetchRelease, st, Succeeded);
    var l1 := Issue(l, FetchRelease, Succeeded);
    var l2 := Fetch(l1, m, digest);
    FetchStage(l, l1, l2, m, digest);
    FetchFiles(l1, l2);
    AssembleForward(l2, SavingSnapshot, Stage(Preflight, 1, false, false, 1));
  }

  lemma FetchStage(l: Local, l1: Local, l2: Local, m: ReleaseManifest, digest: string)
    requires InStage(l, Stage(Preflight, 0, false, false, 0)) && l1.env == l.env && l1.d.origin == l.d.origin
      && l1.act == l.act
    requires ProgressOfDossier(l1.d) == Forward(1) && l2 == Fetch(l1, m, digest)
    ensures InStage(l2, Stage(Preflight, 1, false, false, 1))
  {
    assert l2.act.run.provenance[1..] == ImageEvidence(m, 0);
  }

  lemma FetchFiles(l: Local, l': Local)
    requires FilesOK(l) && l.act.pc == At(Fetching) && l.act.run.phase.Preflight? && l.act.run.snapshot.None?
    requires l'.d == l.d && l'.env == l.env && l'.act.pc == At(SavingSnapshot)
    requires l'.act.run ==
      l.act.run.(snapshot := l'.act.run.snapshot, provenance := l'.act.run.provenance, rollback := l'.act.run.rollback)
    ensures FilesOK(l')
  {
  }

  /** The release lookup breaks, with whatever code. */
  lemma FetchThrow(l: Local, code: ErrorCode)
    requires ExecuteOK(l) && l.act.pc == At(Fetching) && !code.CancelledError?
    ensures ExecuteOK(Goto(Issue(l, FetchRelease, Broke), At(Catch(l.act, code))))
  {
    var st := Stage(Preflight, 0, false, false, 0);
    FetchingStage();
    StandingForward(l, Fetching, st);
    ForwardThrow(l, Fetching, FetchRelease, st, code);
  }

  /** Saving the run in memory brings record and memory together. */
  lemma StoreFiles(l: Local, pc: PC)
    requires FilesOK(l) && l.act.pc.At? && pc.Append?
    ensures FilesOK(Store(l, l.act.run, pc))
  {
    assert Extend(l.d.history, l.act.run.phase) == l.d.history;
    RunFrame(l.act.run, l.d, l.act.run, Store(l, l.act.run, pc).d);
  }

  lemma StoreStage(l: Local, pc: PC, st: Stage)
    requires InStage(l, st)
    ensures InStage(Store(l, l.act.run, pc), st)
  {
  }

  /** A save at which new evidence reaches the record. */
  lemma SaveEvidence(l: Local, here: Label, goal: Label, st: Stage, pc: PC)
    requires AtForward(l, here, st) && ForwardStage(goal) == Some(st) && Towards(pc, goal) && pc.Append?
      && !goal.CancelRestoring?
    ensures ExecuteOK(Store(l, l.act.run, pc))
  {
    StoreFiles(l, pc);
    StoreStage(l, pc, st);
    AssembleForward(Store(l, l.act.run, pc), goal, st);
  }

  lemma SnapshotKeeps(l: Local)
    requires ExecuteOK(l) && l.act.pc == At(SavingSnapshot)
    ensures ExecuteOK(Store(l, l.act.run, Logged(Validating)))
  {
    var st := Stage(Preflight, 1, false, false, 1);
    StandingForward(l, SavingSnapshot, st);
    SaveEvidence(l, SavingSnapshot, Validating, st, Logged(Validating));
  }

  lemma CheckRecorded(l: Local, st: Stage, result: Result)
    requires AtForward(l, Validating, st)
    ensures FilesOK(Issue(l, CheckCompatibility, result))
    ensures ProgressOfDossier(Issue(l, CheckCompatibility, result).d) ==
      (match result case Succeeded => Forward(2) case Broke => Halted(1) case Interrupted => Cut(1))
  {
    assert Expected(l.d.origin, 1, Entry(Executor, CheckCompatibility, l.env, result));
    IssueFiles(l, CheckCompatibility, result);
  }

  /** The compatibility check passes. */
  lemma CompatibleKeeps(l: Local)
    requires ExecuteOK(l) && l.act.pc == At(Validating)
    requires l.act.manifest.Some? && ValidateCompatibility(l.act.run, l.act.manifest.value).None?
    ensures ExecuteOK(Goto(Issue(l, CheckCompatibility, Succeeded), At(CheckingHost)))
  {
    var st := Stage(Preflight, 1, false, false, 1);
    ValidatingStage();
    StandingForward(l, Validating, st);
    CheckRecorded(l, st, Succeeded);
    EnterForward(Issue(l, CheckCompatibility, Succeeded), At(CheckingHost), CheckingHost,
      Stage(Preflight, 2, false, false, 1));
  }

  /** The compatibility check throws its code. */
  lemma IncompatibleKeeps(l: Local, code: ErrorCode)
    requires ExecuteOK(l) && l.act.pc == At(Validating) && l.act.manifest.Some?
    requires ValidateCompatibility(l.act.run, l.act.manifest.value) == Some(code)
    ensures ExecuteOK(Goto(Issue(l, CheckCompatibility, Broke), At(Catch(l.act, code))))
  {
    var st := Stage(Preflight, 1, false, false, 1);
    ValidatingStage();
    StandingForward(l, Validating, st);
    CheckRecorded(l, st, Broke);
    StageThrow(l, Issue(l, CheckCompatibility, Broke), st, code);
    ThrowKeeps(Issue(l, CheckCompatibility, Broke), code);
  }

  lemma ManifestKnown(l: Local, here: Label, st: Stage)
    requires AtForward(l, here, st) && st.evidence > 0
    ensures l.act.manifest.Some?
  {
  }

  lemma ValidatingStage()
    ensures ForwardStage(Validating) == Some(Stage(Preflight, 1, false, false, 1))
  {
  }

  lemma ValidatingResult(l: Local, now: int)
    requires l.act.manifest.Some?
    ensures InternalStep(l, Validating, now) ==
      match ValidateCompatibility(l.act.run, l.act.manifest.value)
      case None => Goto(Issue(l, CheckCompatibility, Succeeded), At(CheckingHost))
      case Some(code) => Goto(Issue(l, CheckCompatibility, Broke), At(Catch(l.act, code)))
  {
  }

  lemma ValidatingKeeps(l: Local, now: int)
    requires ExecuteOK(l) && l.act.pc == At(Validating)
    ensures ExecuteOK(InternalStep(l, Validating, now))
  {
    ValidatingStage();
    StandingForward(l, Validating, Stage(Preflight, 1, false, false, 1));
    ManifestKnown(l, Validating, Stage(Preflight, 1, false, false, 1));
    ValidatingResult(l, now);
    match ValidateCompatibility(l.act.run, l.act.manifest.value)
    case None => CompatibleKeeps(l);
    case Some(code) => IncompatibleKeeps(l, code);
  }

  // ---------------------------------------------------------------- image checks

  function StageOf(s: Service, step: nat): Stage
    requires step <= 2
  {
    Stage(Verifying, 5 + step + 2 * Index(s), true, true, if step == 2 then 2 + Index(s) else 1 + Index(s))
  }

  function AfterEvidenceLabel(s: Service): Label {
    match s case Api => CheckingRepository(Web) case Web => CheckingRepository(Worker) case Worker => BeginMigrating
  }

  /** The stages of the image checks, by service. */
  lemma VerifyStages(s: Service)
    ensures ForwardStage(CheckingRepository(s)) == Some(StageOf(s, 0))
      && ForwardStage(Inspecting(s)) == Some(StageOf(s, 0))
    ensures ForwardStage(CheckingPolicy(s)) == Some(StageOf(s, 1))
      && ForwardStage(VerifyingImage(s)) == Some(StageOf(s, 1))
    ensures ForwardStage(SavingEvidence(s)) == Some(StageOf(s, 2))
      && ForwardStage(AfterEvidenceLabel(s)) == Some(StageOf(s, 2))
    ensures StageOf(s, 1) == StageOf(s, 0).(done := StageOf(s, 0).done + 1) && StageOf(s, 0).done >= 2
    ensures ThrowStage(StageOf(s, 0)) && ThrowStage(StageOf(s, 1))
  {
  }

  lemma VerifyScript(s: Service, o: Origin, run: UpdateRun)
    ensures NextOfScript(o, run, Inspecting(s), InspectImage(s), StageOf(s, 0))
    ensures NextOfScript(o, run, VerifyingImage(s), VerifyProvenance(s), StageOf(s, 1))
  {
  }

  /** The pulled image carries the manifest's digest. */
  lemma InspectedKeeps(l: Local, s: Service)
    requires ExecuteOK(l) && l.act.pc == At(Inspecting(s))
    ensures ExecuteOK(Goto(Issue(l, InspectImage(s), Succeeded), At(CheckingPolicy(s))))
  {
    VerifyStages(s);
    VerifyScript(s, l.d.origin, l.act.run);
    StandingForward(l, Inspecting(s), StageOf(s, 0));
    ForwardSuccess(l, Inspecting(s), InspectImage(s), CheckingPolicy(s), StageOf(s, 0), At(CheckingPolicy(s)));
  }

  lemma InspectThrow(l: Local, s: Service, code: ErrorCode)
    requires ExecuteOK(l) && l.act.pc == At(Inspecting(s)) && code.OtherError?
    ensures ExecuteOK(Goto(Issue(l, InspectImage(s), Broke), At(Catch(l.act, code))))
  {
    VerifyStages(s);
    VerifyScript(s, l.d.origin, l.act.run);
    StandingForward(l, Inspecting(s), StageOf(s, 0));
    ForwardThrow(l, Inspecting(s), InspectImage(s), StageOf(s, 0), code);
  }

  lemma ImageEvidenceGrows(m: ReleaseManifest, s: Service, p: seq<Provenance>)
    requires |p| == 1 + Index(s) && p[1..] == ImageEvidence(m, Index(s))
    ensures (p + [Provenance(ServiceImage(s), m.images.Of(s).digest)])[1..] == ImageEvidence(m, Index(s) + 1)
  {
    assert (p + [Provenance(ServiceImage(s), m.images.Of(s).digest)])[1..] ==
      p[1..] + [Provenance(ServiceImage(s), m.images.Of(s).digest)];
  }

  lemma EvidenceStage(l: Local, l1: Local, m: ReleaseManifest, s: Service)
    requires InStage(l, StageOf(s, 1)) && l1.env == l.env && l1.d.origin == l.d.origin && l1.act == l.act
      && l.act.manifest == Some(m)
    requires ProgressOfDossier(l1.d) == Forward(StageOf(s, 1).done + 1)
    ensures InStage(AddEvidence(l1, m, s), StageOf(s, 2))
  {
    ImageEvidenceGrows(m, s, l.act.run.provenance);
    assert AddEvidence(l1, m, s).act.run.provenance[0] == l.act.run.provenance[0];
  }

  lemma EvidenceFiles(l: Local, l': Local)
    requires FilesOK(l) && Synced(l.act.pc) && l.act.run.phase.Verifying?
    requires l'.d == l.d && l'.env == l.env && l'.act.pc.At? && AtSave(l'.act.pc.here)
    requires l'.act.run == l.act.run.(provenance := l'.act.run.provenance)
    ensures FilesOK(l')
  {
  }

  /** The provenance check succeeds: its result, made for the manifest's digest, is added. */
  lemma EvidenceKeeps(l: Local, s: Service, m: ReleaseManifest)
    requires ExecuteOK(l) && l.act.pc == At(VerifyingImage(s)) && l.act.manifest == Some(m)
    ensures ExecuteOK(AddEvidence(Issue(l, VerifyProvenance(s), Succeeded), m, s))
  {
    VerifyStages(s);
    VerifyScript(s, l.d.origin, l.act.run);
    StandingForward(l, VerifyingImage(s), StageOf(s, 1));
    IssueExpected(l, VerifyingImage(s), VerifyProvenance(s), StageOf(s, 1), Succeeded);
    var l1 := Issue(l, VerifyProvenance(s), Succeeded);
    EvidenceStage(l, l1, m, s);
    EvidenceFiles(l1, AddEvidence(l1, m, s));
    AssembleForward(AddEvidence(l1, m, s), SavingEvidence(s), StageOf(s, 2));
  }

  lemma SaveEvidenceKeeps(l: Local, s: Service)
    requires ExecuteOK(l) && l.act.pc == At(SavingEvidence(s))
    ensures ExecuteOK(Store(l, l.act.run, AfterEvidence(s)))
  {
    VerifyStages(s);
    StandingForward(l, SavingEvidence(s), StageOf(s, 2));
    SaveEvidence(l, SavingEvidence(s), AfterEvidenceLabel(s), StageOf(s, 2), AfterEvidence(s));
  }

  lemma RaisingFits(l: Local, m: Local, s: Service, code: ErrorCode)
    requires InStage(l, StageOf(s, 1)) && m.act == l.act && m.env == l.env && m.d.origin == l.d.origin
      && code.OtherError?
    ensures InCatch(m, Raising(code))
  {
  }

  /** The image's provenance check breaks: one log line, then the throw. */
  lemma EvidenceThrow(l: Local, s: Service, code: ErrorCode)
    requires ExecuteOK(l) && l.act.pc == At(VerifyingImage(s)) && code.OtherError?
    ensures ExecuteOK(Goto(Issue(l, VerifyProvenance(s), Broke), Logged(Raising(code))))
  {
    VerifyStages(s);
    VerifyScript(s, l.d.origin, l.act.run);
    StandingForward(l, VerifyingImage(s), StageOf(s, 1));
    IssueExpected(l, VerifyingImage(s), VerifyProvenance(s), StageOf(s, 1), Broke);
    RaisingFits(l, Issue(l, VerifyProvenance(s), Broke), s, code);
    EnterCatch(Issue(l, VerifyProvenance(s), Broke), Logged(Raising(code)), Raising(code));
  }

  /** The policy asserted again before an image check has already passed with the compatibility check. */
  lemma PolicyHolds(run: UpdateRun, m: ReleaseManifest)
    requires ValidateCompatibility(run, m).None?
    ensures VerificationPolicy(m).None?
  {
  }

  lemma StageCompatible(l: Local, st: Stage)
    requires InStage(l, st) && st.done >= 2
    ensures l.act.manifest.Some? && ValidateCompatibility(l.act.run, l.act.manifest.value).None?
  {
  }

  /** So the four maintenance codes are never thrown after PREFLIGHT. */
  lemma PolicyKeeps(l: Local, s: Service, now: int)
    requires ExecuteOK(l) && l.act.pc == At(CheckingPolicy(s))
    ensures InternalStep(l, CheckingPolicy(s), now) == Goto(l, At(VerifyingImage(s)))
    ensures ExecuteOK(Goto(l, At(VerifyingImage(s))))
  {
    VerifyStages(s);
    StandingForward(l, CheckingPolicy(s), StageOf(s, 1));
    StageCompatible(l, StageOf(s, 1));
    PolicyHolds(l.act.run, l.act.manifest.value);
    PolicyResult(l, s, now);
    EnterForward(l, At(VerifyingImage(s)), VerifyingImage(s), StageOf(s, 1));
  }

  lemma PolicyResult(l: Local, s: Service, now: int)
    requires l.act.manifest.Some? && VerificationPolicy(l.act.manifest.value).None?
    ensures InternalStep(l, CheckingPolicy(s), now) == Goto(l, At(VerifyingImage(s)))
  {
  }

  lemma RepositoryResult(l: Local, s: Service, now: int)
    requires l.act.manifest.Some?
    ensures InternalStep(l, CheckingRepository(s), now) ==
      if l.act.manifest.value.images.Of(s).repository != l.d.origin.repositories.Of(s).repository
      then Goto(l, At(Catch(l.act, OtherError("REPOSITORY_MISMATCH")))) else Goto(l, At(Inspecting(s)))
  {
  }

  lemma RepositoryOther(l: Local, s: Service)
    requires AtForward(l, CheckingRepository(s), StageOf(s, 0)) && ThrowStage(StageOf(s, 0))
    ensures ExecuteOK(Goto(l, At(Catch(l.act, OtherError("REPOSITORY_MISMATCH")))))
  {
    StageThrow(l, l, StageOf(s, 0), OtherError("REPOSITORY_MISMATCH"));
    ThrowKeeps(l, OtherError("REPOSITORY_MISMATCH"));
  }

  lemma RepositoryKeeps(l: Local, s: Service, now: int)
    requires ExecuteOK(l) && l.act.pc == At(CheckingRepository(s))
    ensures ExecuteOK(InternalStep(l, CheckingRepository(s), now))
  {
    VerifyStages(s);
    StandingForward(l, CheckingRepository(s), StageOf(s, 0));
    StageCompatible(l, StageOf(s, 0));
    RepositoryResult(l, s, now);
    if l.act.manifest.value.images.Of(s).repository != l.d.origin.repositories.Of(s).repository {
      RepositoryOther(l, s);
    } else {
      EnterForward(l, At(Inspecting(s)), Inspecting(s), StageOf(s, 0));
    }
  }

  // ---------------------------------------------------------------- cancellation and the target version

  /** The stored record, with its flag, replaces the run in memory. */
  lemma TakeRecord(l: Local, pc: PC, st: Stage)
    requires FilesOK(l) && Synced(l.act.pc) && l.act.pc.At? && Synced(pc) && InStage(l, st)
    ensures l.d.record.Some?
    ensures FilesOK(l.(act := l.act.(run := l.d.record.value, pc := pc)))
    ensures InStage(l.(act := l.act.(run := l.d.record.value, pc := pc)), st)
  {
    RecordIsRun(l);
    TakenFiles(l, pc);
  }

  lemma RecordIsRun(l: Local)
    requires FilesOK(l) && Synced(l.act.pc)
    ensures l.d.record.Some? && DossierOK(l.d)
    ensures var r := l.d.record.value; r == l.act.run.(cancellationRequested := r.cancellationRequested)
  {
  }

  lemma TakenFiles(l: Local, pc: PC)
    requires FilesOK(l) && Synced(l.act.pc) && Synced(pc) && l.d.record.Some? && DossierOK(l.d)
    requires var r := l.d.record.value; r == l.act.run.(cancellationRequested := r.cancellationRequested)
    ensures FilesOK(l.(act := l.act.(run := l.d.record.value, pc := pc)))
  {
  }

  lemma CancelEarlyKeeps(l: Local, now: int)
    requires ExecuteOK(l) && l.act.pc == At(CancelCheckEarly)
    ensures ExecuteOK(InternalStep(l, CancelCheckEarly, now))
  {
    var st := Stage(Preflight, 3, false, false, 1);
    CheckpointStages();
    CheckpointResult(l, false, now);
    StandingForward(l, CancelCheckEarly, st);
    if Requested(l.d) { CancelEarly(l, st); } else { NotCancelled(l, CancelCheckEarly, BeginBackup, st); }
  }

  lemma NotCancelled(l: Local, here: Label, goal: Label, st: Stage)
    requires AtForward(l, here, st) && ForwardStage(goal) == Some(st) && (goal.BeginBackup? || goal.BeginVerifying?)
    requires here.CancelCheckEarly? || here.CancelCheckLate?
    ensures ExecuteOK(Goto(l, At(goal)))
  {
    EnterForward(l, At(goal), goal, st);
  }

  lemma CancelEarly(l: Local, st: Stage)
    requires AtForward(l, CancelCheckEarly, st) && Requested(l.d) && st == Stage(Preflight, 3, false, false, 1)
    ensures ExecuteOK(l.(act := l.act.(run := l.d.record.value, pc := At(Cancelling))))
  {
    TakeRecord(l, At(Cancelling), st);
    var l' := l.(act := l.act.(run := l.d.record.value, pc := At(Cancelling)));
    EarlyStage(l', st);
    Assemble(l', Cancelling);
  }

  lemma EarlyStage(l: Local, st: Stage)
    requires InStage(l, st) && st == Stage(Preflight, 3, false, false, 1) && l.act.run.cancellationRequested
    ensures AtStage(l, Cancelling) && !ProgressOfDossier(l.d).Recovered?
  {
    CheckpointStages();
  }

  /** The stages around the two looks for a cancellation. */
  lemma CheckpointStages()
    ensures ForwardStage(CancelCheckEarly) == Some(Stage(Preflight, 3, false, false, 1))
      && ForwardStage(BeginBackup) == ForwardStage(CancelCheckEarly)
    ensures ForwardStage(CancelCheckLate) == Some(Stage(Pulling, 5, true, true, 1))
      && ForwardStage(BeginVerifying) == ForwardStage(CancelCheckLate)
    ensures ForwardStage(CancelRestoring) == ForwardStage(CancelCheckLate) && ForwardStage(Cancelling).None?
  {
  }

  lemma CheckpointResult(l: Local, late: bool, now: int)
    ensures InternalStep(l, if late then CancelCheckLate else CancelCheckEarly, now) == if Requested(l.d)
      then l.(act := l.act.(run := l.d.record.value, pc := At(if late then CancelRestoring else Cancelling)))
      else Goto(l, At(if late then BeginVerifying else BeginBackup))
  {
  }

  lemma CancelLateKeeps(l: Local, now: int)
    requires ExecuteOK(l) && l.act.pc == At(CancelCheckLate)
    ensures ExecuteOK(InternalStep(l, CancelCheckLate, now))
  {
    var st := Stage(Pulling, 5, true, true, 1);
    CheckpointStages();
    CheckpointResult(l, true, now);
    StandingForward(l, CancelCheckLate, st);
    if Requested(l.d) {
      CancelLate(l, st);
    } else {
      NotCancelled(l, CancelCheckLate, BeginVerifying, st);
    }
  }

  lemma CancelLate(l: Local, st: Stage)
    requires AtForward(l, CancelCheckLate, st) && Requested(l.d) && st == Stage(Pulling, 5, true, true, 1)
    ensures ExecuteOK(l.(act := l.act.(run := l.d.record.value, pc := At(CancelRestoring))))
  {
    CheckpointStages();
    TakeRecord(l, At(CancelRestoring), st);
    AssembleForward(l.(act := l.act.(run := l.d.record.value, pc := At(CancelRestoring))), CancelRestoring, st);
  }

  /** `.env` is written while the stored phase allows both texts. */
  lemma EnvFiles(l: Local, l': Local)
    requires FilesOK(l) && Synced(l.act.pc) && Synced(l'.act.pc)
    requires l'.d == l.d && l'.act.run == l.act.run && EnvBounds(l.act.run, l.d, l'.env)
    ensures FilesOK(l')
  {
  }

  lemma CancelRestoreKeeps(l: Local, now: int)
    requires ExecuteOK(l) && l.act.pc == At(CancelRestoring)
    ensures ExecuteOK(InternalStep(l, CancelRestoring, now))
  {
    CheckpointStages();
    StandingForward(l, CancelRestoring, Stage(Pulling, 5, true, true, 1));
    RestoreResult(l, now);
    CancelRestored(l, l.(env := l.act.originalEnv, act := l.act.(pc := At(Cancelling))));
  }

  lemma RestoreResult(l: Local, now: int)
    ensures InternalStep(l, CancelRestoring, now) == l.(env := l.act.originalEnv, act := l.act.(pc := At(Cancelling)))
  {
  }

  lemma CancelRestored(l: Local, l': Local)
    requires FilesOK(l) && InStage(l, Stage(Pulling, 5, true, true, 1)) && l.act.run.cancellationRequested
      && Synced(l.act.pc)
    requires l' == l.(env := l.act.originalEnv, act := l.act.(pc := At(Cancelling))) && l.locked
      && l.act.actor.Executor?
    ensures ExecuteOK(l')
  {
    EnvFiles(l, l');
    assert AtStage(l', Cancelling);
    Assemble(l', Cancelling);
  }

  /** The target version is written; `.env` has a version line, so the write cannot be refused. */
  lemma WriteTargetKeeps(l: Local, now: int)
    requires ExecuteOK(l) && l.act.pc == At(WritingTarget)
    ensures ExecuteOK(InternalStep(l, WritingTarget, now))
  {
    WritingStages();
    StandingForward(l, WritingTarget, Stage(Backup, 4, false, false, 1));
    TargetOfRun(l);
    var l' := l.(env := NewText(l.d), act := l.act.(originalEnv := l.env, pc := At(BeginPulling)));
    EnvFiles(l, l');
    WriteResult(l, now);
    AssembleForward(l', BeginPulling, Stage(Backup, 4, true, true, 1));
  }

  lemma WritingStages()
    ensures ForwardStage(WritingTarget) == Some(Stage(Backup, 4, false, false, 1))
      && ForwardStage(BeginPulling) == Some(Stage(Backup, 4, true, true, 1))
  {
  }

  lemma WriteResult(l: Local, now: int)
    requires l.env == l.d.origin.env && l.act.run.target == l.d.origin.target && HasVersionLine(l.env)
    ensures InternalStep(l, WritingTarget, now) ==
      l.(env := NewText(l.d), act := l.act.(originalEnv := l.env, pc := At(BeginPulling)))
  {
  }

  // ---------------------------------------------------------------- moves

  /** The seven phase changes of the main line: where each starts, what it enters, what follows. */
  predicate MainMove(here: Label, next: Phase, goal: Label) {
    match here
    case BeginPreflight => next.Preflight? && goal.Fetching?
    case BeginBackup => next.Backup? && goal.BackingUp?
    case BeginPulling => next.Pulling? && goal.PullingImages?
    case BeginVerifying => next.Verifying? && goal == CheckingRepository(Api)
    case BeginMigrating => next.Migrating? && goal.Migrate?
    case BeginDeploying => next.Deploying? && goal.Deploy?
    case BeginHealthcheck => next.Healthcheck? && goal.CheckTarget?
    case _ => false
  }

  lemma MainMoveStages(here: Label, next: Phase, goal: Label)
    requires MainMove(here, next, goal)
    ensures ForwardStage(here).Some? && !AtSave(here) && !goal.CancelRestoring? && !goal.BeginPreflight?
    ensures ForwardStage(goal) == Some(ForwardStage(here).value.(phase := next))
    ensures CanMove(ForwardStage(here).value.phase, next) && !Terminal(next) && !next.RollingBack?
    ensures next.Migrating? ==> ForwardStage(here).value.evidence == 4
    ensures next.Backup? ==> ForwardStage(here).value.done == 3 && ForwardStage(here).value.evidence == 1
  {
  }

  lemma StageMayMove(l: Local, st: Stage, next: Phase)
    requires InStage(l, st) && CanMove(st.phase, next) && !Terminal(next) && !next.RollingBack?
    requires next.Migrating? ==> st.evidence == 4
    requires next.Backup? ==> st.done == 3 && st.evidence == 1
    ensures MayMove(l.act.run, l.d, next)
  {
    if next.Backup? { StageCompatible(l, st); }
  }

  lemma MainMoveKeeps(l: Local, here: Label, next: Phase, now: int, goal: Label)
    requires ExecuteOK(l) && l.act.pc == At(here) && MainMove(here, next, goal)
    ensures ExecuteOK(Move(l, next, now, None, None, Logged(goal)))
  {
    MainMoveStages(here, next, goal);
    StandingForward(l, here, ForwardStage(here).value);
    StageMayMove(l, ForwardStage(here).value, next);
    ForwardMove(l, here, next, now, goal, ForwardStage(here).value);
  }

  /** A move that ends the run: what is left is to log and to release the lock. */
  lemma EndMove(l: Local, here: Label, next: Phase, now: int, failure: Option<ErrorCode>,
    rollback: Option<RollbackStatus>, pc: PC, goal: Label)
    requires Standing(l, here) && !AtSave(here)
    requires pc.Append? && Towards(pc, goal) && (goal.ReleasingLock? || goal == Raising(CancelledError))
    requires MayMove(l.act.run, l.d, next) && Terminal(next) && !ProgressOfDossier(l.d).Recovered?
    requires EnvBounds(l.act.run.(phase := next, failure := if failure.Some? then failure else l.act.run.failure),
      l.d, l.env)
    ensures ExecuteOK(Move(l, next, now, failure, rollback, pc))
  {
    MoveMemory(l, next, now, failure, rollback, pc);
    BoundsFrame(l.act.run.(phase := next, failure := if failure.Some? then failure else l.act.run.failure),
                Move(l, next, now, failure, rollback, pc).act.run, l.d, l.env);
    MoveFiles(l, next, now, failure, rollback, pc);
    EndStage(Move(l, next, now, failure, rollback, pc), goal);
    Assemble(Move(l, next, now, failure, rollback, pc), goal);
  }

  lemma BoundsFrame(r: UpdateRun, r': UpdateRun, d: Dossier, env: string)
    requires EnvBounds(r, d, env) && r'.phase == r.phase && r'.failure == r.failure
    ensures EnvBounds(r', d, env)
  {
  }

  lemma EndStage(l: Local, goal: Label)
    requires Terminal(l.act.run.phase) && (goal.ReleasingLock? || goal == Raising(CancelledError))
    ensures AtStage(l, goal)
  {
  }

  /** How a run may end at a label: the phase entered, and the code and rollback status stored with it. */
  predicate EndsWith(here: Label, next: Phase, failure: Option<ErrorCode>, pc: PC) {
    match here
    case Cancelling => next.Cancelled? && failure.None? && pc == Logged(Raising(CancelledError))
    case Maintenance(code) => next.ManualIntervention? && failure == Some(code) && pc == Logged(ReleasingLock)
    case FailingUnsafe(code) => next.ManualIntervention? && failure == Some(code) && pc == FailureLog(code)
    case FailingNow(code) => next.Failed? && failure == Some(code) && pc == FailureLog(code)
    case RollbackDone(code) => next.Failed? && failure == Some(code) && pc == Logged(ReleasingLock)
    case RollbackFailing => next.ManualIntervention? && failure == Some(RollbackError) && pc == Logged(ReleasingLock)
    case _ => false
  }

  /** Each of these ends is legal and leaves `.env` within the bounds of the phase entered. */
  lemma EndFits(l: Local, here: Label, next: Phase, failure: Option<ErrorCode>, pc: PC)
    requires InCatch(l, here) && EndsWith(here, next, failure, pc)
    ensures MayMove(l.act.run, l.d, next) && Terminal(next)
    ensures EnvBounds(l.act.run.(phase := next, failure := if failure.Some? then failure else l.act.run.failure),
      l.d, l.env)
  {
  }

  lemma EndPC(here: Label, next: Phase, failure: Option<ErrorCode>, pc: PC)
    requires EndsWith(here, next, failure, pc)
    ensures pc.Append? && ForwardStage(here).None? && !here.Done? && !AtSave(here)
    ensures Towards(pc, if here.Cancelling? then Raising(CancelledError) else ReleasingLock)
  {
  }

  lemma EndKeeps(l: Local, here: Label, next: Phase, now: int, failure: Option<ErrorCode>,
    rollback: Option<RollbackStatus>, pc: PC)
    requires ExecuteOK(l) && l.act.pc == At(here) && EndsWith(here, next, failure, pc)
    ensures ExecuteOK(Move(l, next, now, failure, rollback, pc))
  {
    EndPC(here, next, failure, pc);
    StandingCatch(l, here);
    EndFits(l, here, next, failure, pc);
    EndMove(l, here, next, now, failure, rollback, pc,
      if here.Cancelling? then Raising(CancelledError) else ReleasingLock);
  }

  lemma CompletingKeeps(l: Local, now: int)
    requires ExecuteOK(l) && l.act.pc == At(Completing)
    ensures ExecuteOK(Move(l, Completed, now, None, Some(NotRequired), Logged(ReleasingLock)))
  {
    CompletingStage();
    StandingForward(l, Completing, Stage(Healthcheck, 15, true, true, 4));
    CompletedFits(l);
    EndMove(l, Completing, Completed, now, None, Some(NotRequired), Logged(ReleasingLock), ReleasingLock);
  }

  lemma FetchingStage()
    ensures ForwardStage(Fetching) == Some(Stage(Preflight, 0, false, false, 0))
  {
  }

  lemma DeployStage()
    ensures ForwardStage(Deploy) == Some(Stage(Deploying, 13, true, true, 4))
  {
  }

  lemma CheckTargetStage()
    ensures ForwardStage(CheckTarget) == Some(Stage(Healthcheck, 14, true, true, 4))
  {
  }

  lemma CompletingStage()
    ensures ForwardStage(Completing) == Some(Stage(Healthcheck, 15, true, true, 4)) && !AtSave(Completing)
  {
  }

  lemma CompletedFits(l: Local)
    requires InStage(l, Stage(Healthcheck, 15, true, true, 4))
    ensures MayMove(l.act.run, l.d, Completed) && EnvBounds(l.act.run.(phase := Completed), l.d, l.env)
    ensures !ProgressOfDossier(l.d).Recovered?
  {
    assert l.act.run.phase.Healthcheck? && ProgressOfDossier(l.d) == Forward(15) && l.env == NewText(l.d);
  }

  // ---------------------------------------------------------------- catch block and rollback

  lemma RaisedFits(l: Local, code: ErrorCode)
    requires InCatch(l, Raising(code)) && l.d.origin.env != ""
    ensures InCatch(l, Catch(l.act, code)) && ForwardStage(Catch(l.act, code)).None?
    ensures !Catch(l.act, code).Done? && !AtSave(Catch(l.act, code))
  {
  }

  lemma RaisingKeeps(l: Local, code: ErrorCode)
    requires ExecuteOK(l) && l.act.pc == At(Raising(code))
    ensures ExecuteOK(Goto(l, At(Catch(l.act, code))))
  {
    CatchLabel(Raising(code));
    StandingCatch(l, Raising(code));
    LineNotEmpty(l.d);
    RaisedFits(l, code);
    EnterCatch(l, At(Catch(l.act, code)), Catch(l.act, code));
  }

  /** `.env` is put back to the text it had before. */
  lemma RestoreKeeps(l: Local, here: Label, goal: Label)
    requires ExecuteOK(l) && l.act.pc == At(here)
    requires (here.RestoringEnv? && goal == FailingNow(here.code))
      || (here.RollbackEnv? && goal == RollbackUp(here.code))
    ensures ExecuteOK(l.(env := l.act.originalEnv, act := l.act.(pc := At(goal))))
  {
    CatchLabel(here);
    StandingCatch(l, here);
    var l' := l.(env := l.act.originalEnv, act := l.act.(pc := At(goal)));
    Restored(l, l', here, goal);
  }

  /** The labels of the catch block are not on the main line. */
  predicate CatchAt(here: Label) {
    || here.RestoringEnv? || here.RollbackEnv? || here.RollbackBegin? || here.ReleasingLock? || here.Raising?
    || here.FailingNow? || here.RollbackUp?
  }

  lemma CatchLabel(here: Label)
    requires CatchAt(here)
    ensures ForwardStage(here).None? && !here.Done? && !AtSave(here)
  {
  }

  lemma Restored(l: Local, l': Local, here: Label, goal: Label)
    requires FilesOK(l) && l.act.actor.Executor? && l.locked && Synced(l.act.pc) && InCatch(l, here)
      && l' == l.(env := l.act.originalEnv, act := l.act.(pc := At(goal))) && !ProgressOfDossier(l.d).Recovered?
    requires (here.RestoringEnv? && goal == FailingNow(here.code))
      || (here.RollbackEnv? && goal == RollbackUp(here.code))
    ensures ExecuteOK(l')
  {
    CatchLabel(goal);
    RestoreFits(l, l', here, goal);
    EnvFiles(l, l');
    Assemble(l', goal);
  }

  lemma RestoreFits(l: Local, l': Local, here: Label, goal: Label)
    requires InCatch(l, here) && l' == l.(env := l.act.originalEnv, act := l.act.(pc := At(goal)))
    requires (here.RestoringEnv? && goal == FailingNow(here.code))
      || (here.RollbackEnv? && goal == RollbackUp(here.code))
    ensures AtStage(l', goal) && EnvBounds(l.act.run, l.d, l'.env)
  {
  }

  lemma RollbackBeginKeeps(l: Local, code: ErrorCode, now: int)
    requires ExecuteOK(l) && l.act.pc == At(RollbackBegin(code))
    ensures ExecuteOK(Move(l, RollingBack, now, None, None, Logged(RollbackEnv(code))))
  {
    CatchLabel(RollbackBegin(code));
    StandingCatch(l, RollbackBegin(code));
    var l' := Move(l, RollingBack, now, None, None, Logged(RollbackEnv(code)));
    RollbackMove(l, code);
    MoveMemory(l, RollingBack, now, None, None, Logged(RollbackEnv(code)));
    RollbackStage(l, l', code);
    MoveFiles(l, RollingBack, now, None, None, Logged(RollbackEnv(code)));
    Assemble(l', RollbackEnv(code));
  }

  lemma RollbackMove(l: Local, code: ErrorCode)
    requires InCatch(l, RollbackBegin(code))
    ensures MayMove(l.act.run, l.d, RollingBack)
  {
  }

  lemma RollbackStage(l: Local, l': Local, code: ErrorCode)
    requires InCatch(l, RollbackBegin(code)) && l'.env == l.env && l'.d.origin == l.d.origin && l'.d.trace == l.d.trace
    requires l'.act.originalEnv == l.act.originalEnv && l'.act.run.phase.RollingBack?
      && l'.act.run.snapshot == l.act.run.snapshot
    ensures AtStage(l', RollbackEnv(code)) && EnvBounds(l'.act.run, l.d, l.env)
  {
  }

  /** The operations of the rollback. */
  function RollbackOp(here: Label, o: Origin): Operation {
    if here.RollbackUp? then ComposeUp else HealthCheck(o.installed)
  }

  function AfterRollback(here: Label, ok: bool): Label
    requires here.RollbackUp? || here.RollbackCheck?
  {
    if !ok then RollbackFailing else if here.RollbackUp? then RollbackCheck(here.code) else RollbackDone(here.code)
  }

  lemma RollbackAdvance(l: Local, here: Label, ok: bool)
    requires InCatch(l, here) && (here.RollbackUp? || here.RollbackCheck?)
    ensures var p := Advance(l.d.origin, ProgressOfDossier(l.d),
      Entry(Executor, RollbackOp(here, l.d.origin), l.env, if ok then Succeeded else Broke));
      !p.Recovered? && !p.Illegal?
        && CatchFacts(l.act.run, l.act.originalEnv, l.env, l.d.origin, p, AfterRollback(here, ok))
  {
  }

  lemma RollbackLabels(here: Label, ok: bool)
    requires here.RollbackUp? || here.RollbackCheck?
    ensures ForwardStage(AfterRollback(here, ok)).None? && !AfterRollback(here, ok).Done?
      && !AtSave(AfterRollback(here, ok))
    ensures ForwardStage(here).None? && !here.Done?
  {
  }

  lemma RollbackIssue(l: Local, here: Label, ok: bool)
    requires AtCatch(l, here) && (here.RollbackUp? || here.RollbackCheck?)
    ensures var m := Issue(l, RollbackOp(here, l.d.origin), if ok then Succeeded else Broke);
      FilesOK(m) && InCatch(m, AfterRollback(here, ok)) && !ProgressOfDossier(m.d).Recovered?
  {
    RollbackAdvance(l, here, ok);
    IssueFiles(l, RollbackOp(here, l.d.origin), if ok then Succeeded else Broke);
  }

  /** Starting and checking the old release, either result. */
  lemma RollbackKeeps(l: Local, here: Label, ok: bool)
    requires ExecuteOK(l) && l.act.pc == At(here) && (here.RollbackUp? || here.RollbackCheck?)
    ensures ExecuteOK(Goto(Issue(l, RollbackOp(here, l.d.origin), if ok then Succeeded else Broke),
      At(AfterRollback(here, ok))))
  {
    RollbackLabels(here, ok);
    StandingCatch(l, here);
    RollbackIssue(l, here, ok);
    var m := Issue(l, RollbackOp(here, l.d.origin), if ok then Succeeded else Broke);
    EnterCatch(m, At(AfterRollback(here, ok)), AfterRollback(here, ok));
  }

  lemma ReleaseKeeps(l: Local)
    requires ExecuteOK(l) && l.act.pc == At(ReleasingLock)
    ensures ExecuteOK(l.(locked := false, act := l.act.(pc := At(Done))))
  {
    CatchLabel(ReleasingLock);
    StandingCatch(l, ReleasingLock);
    var l' := l.(locked := false, act := l.act.(pc := At(Done)));
    Released(l, l');
  }

  lemma Released(l: Local, l': Local)
    requires FilesOK(l) && InCatch(l, ReleasingLock) && Synced(l.act.pc) && l.act.actor.Executor?
      && !ProgressOfDossier(l.d).Recovered?
    requires l' == l.(locked := false, act := l.act.(pc := At(Done)))
    ensures ExecuteOK(l')
  {
    FilesFrame(l, l');
    DoneStage(l, l');
    Assemble(l', Done);
  }

  lemma DoneStage(l: Local, l': Local)
    requires InCatch(l, ReleasingLock) && l'.act.run == l.act.run
    ensures AtStage(l', Done)
  {
    assert ForwardStage(Done).None?;
  }
}
