/**
 * One run of the updater as a step machine: `execute`, its catch block, and the recovery after a restart.
 *
 * A step ends at an await. A step performs one durable effect (a record saved, an event appended, `.env` written,
 * the lock removed) or one external operation together with the synchronous code around it, so a crash between
 * steps is a crash at an await. Saves, appends and writes of `.env` succeed; every other operation may fail.
 */
module UpdateProtocol {
  import opened Text
  import opened EnvFile
  import opened UpdateDomain
  import opened UpdatePlan

  datatype LogEvent = LogEvent(sequence: nat, phase: Phase)

  /**
   * Everything kept about one run: the stored record (None before the first save or after pruning), the stored
   * event log, and three histories that no code reads: the phases the record went through, the operations
   * issued, and the phases in which a cancellation was accepted.
   */
  datatype Dossier = Dossier(
    origin: Origin, record: Option<UpdateRun>, events: seq<LogEvent>,
    history: seq<Phase>, trace: seq<Entry>, requested: set<Phase>)

  /** The await at which the activity stands, named by what comes next. */
  datatype Label =
    | BeginPreflight | Fetching | SavingSnapshot | Validating | CheckingHost | CancelCheckEarly
    | BeginBackup | BackingUp | WritingTarget
    | BeginPulling | PullingImages | CancelCheckLate | CancelRestoring | Cancelling
    | BeginVerifying | CheckingRepository(s: Service) | Inspecting(s: Service) | CheckingPolicy(s: Service)
    | VerifyingImage(s: Service) | SavingEvidence(s: Service)
    | BeginMigrating | Migrate | MigrationStatus | BeginDeploying | Deploy | BeginHealthcheck | CheckTarget | Completing
    | Raising(code: ErrorCode) | Maintenance(code: ErrorCode) | FailingUnsafe(code: ErrorCode)
    | RestoringEnv(code: ErrorCode) | FailingNow(code: ErrorCode)
    | RollbackBegin(code: ErrorCode) | RollbackEnv(code: ErrorCode) | RollbackUp(code: ErrorCode)
    | RollbackCheck(code: ErrorCode) | RollbackDone(code: ErrorCode) | RollbackFailing
    | ReleasingLock
    | RecoverEnv | RecoverFail | RecoverMigration | RecoverTarget | RecoverComplete | RecoverOld | RecoverRolledBack
    | RecoverDeployment | RecoverManual(code: ErrorCode)
    | Done | Thrown

  /** At a label, or with an event append or a record save of `log` still to come first. */
  datatype PC = At(here: Label) | Append(next: PC) | Save(next: PC) {
    function Goal(): Label {
      match this case At(l) => l case Append(k) => k.Goal() case Save(k) => k.Goal()
    }
  }

  /** The volatile state of `execute` or of a recovery. */
  datatype Activity = Activity(
    actor: Actor, run: UpdateRun, originalEnv: string, manifest: Option<ReleaseManifest>, pc: PC)

  /** One run's share of the world. */
  datatype Local = Local(d: Dossier, env: string, locked: bool, act: Activity)

  /** What the environment answers at an await. */
  datatype Outcome =
    | Ok
    | Output                                                // a chunk of a streaming command
    | Fail(detail: string)
    | FailWith(code: ErrorCode)                             // release lookup only
    | Fetched(manifest: ReleaseManifest, digest: string)    // release lookup: manifest and its attested digest
    | Inspected(images: set<Image>)                         // the pulled image's repository digests

  /** The operation in progress at a label. */
  function OpAt(l: Label, run: UpdateRun): Option<Operation> {
    match l
    case Fetching => Some(FetchRelease)
    case CheckingHost => Some(CheckHost)
    case BackingUp => Some(TakeBackup)
    case PullingImages => Some(PullImages)
    case Inspecting(s) => Some(InspectImage(s))
    case VerifyingImage(s) => Some(VerifyProvenance(s))
    case Migrate => Some(MigrateDeploy)
    case MigrationStatus => Some(MigrateStatus)
    case Deploy => Some(ComposeUp)
    case CheckTarget => Some(HealthCheck(run.target))
    case RollbackUp(_) => Some(ComposeUp)
    case RollbackCheck(_) => Some(HealthCheck(run.installed))
    case RecoverMigration => Some(MigrateStatus)
    case RecoverTarget => Some(HealthCheck(run.target))
    case RecoverOld => Some(HealthCheck(run.installed))
    case RecoverDeployment => Some(InspectDeployment)
    case _ => None
  }

  /** Commands run through `composeWithLogs`. */
  predicate Streams(l: Label) { l.PullingImages? || l.Migrate? || l.MigrationStatus? || l.Deploy? }

  function Logged(l: Label): PC { Append(Save(At(l))) }

  function LoggedTwice(l: Label): PC { Append(Save(Append(Save(At(l))))) }

  function Goto(l: Local, pc: PC): Local { l.(act := l.act.(pc := pc)) }

  function Issue(l: Local, op: Operation, result: Result): Local {
    l.(d := l.d.(trace := l.d.trace + [Entry(l.act.actor, op, l.env, result)]))
  }

  function Extend(history: seq<Phase>, p: Phase): seq<Phase> {
    if history != [] && history[|history| - 1] == p then history else history + [p]
  }

  /** `saveRun` of the run in memory. */
  function Store(l: Local, run: UpdateRun, pc: PC): Local {
    l.(d := l.d.(record := Some(run), history := Extend(l.d.history, run.phase)), act := l.act.(run := run, pc := pc))
  }

  /** `transitionRun`, the fields set with it, and the save that follows. */
  function Move(l: Local, next: Phase, now: int, failure: Option<ErrorCode>, rollback: Option<RollbackStatus>,
    pc: PC): Local {
    match TransitionRun(l.act.run, next, now)
    case None => Goto(l, At(Thrown))
    case Some(r) =>
      Store(l, r.(failure := if failure.Some? then failure else r.failure,
                  rollback := if rollback.Some? then rollback.value else r.rollback), pc)
  }

  /** Where the catch block goes on a thrown code. */
  function Catch(a: Activity, code: ErrorCode): Label {
    if code.CancelledError? then ReleasingLock
    else if NeedsMaintenance(code) then Maintenance(code)
    else if a.run.phase.Deploying? || a.run.phase.Healthcheck? then
      if a.manifest.Some? && RollbackAllowed(a.manifest.value) && a.originalEnv != "" then RollbackBegin(code)
      else FailingUnsafe(code)
    else if a.originalEnv != "" then RestoringEnv(code) else FailingNow(code)
  }

  /** The final log lines of a failed run. */
  function FailureLog(code: ErrorCode): PC {
    if code.ManifestError? then LoggedTwice(ReleasingLock) else Logged(ReleasingLock)
  }

  function AfterEvidence(s: Service): PC {
    match s
    case Api => Logged(CheckingRepository(Web))
    case Web => Logged(CheckingRepository(Worker))
    case Worker => LoggedTwice(BeginMigrating)
  }

  /** Where a broken operation leads. */
  function BrokenPC(a: Activity, here: Label, code: ErrorCode): PC {
    match here
    case VerifyingImage(_) => Logged(Raising(code))
    case RollbackUp(_) => At(RollbackFailing)
    case RollbackCheck(_) => At(RollbackFailing)
    case RecoverMigration => At(RecoverManual(RestartDuringMigration))
    case RecoverTarget => At(RecoverManual(RestartHealthUnconfirmed))
    case RecoverOld => At(RecoverManual(RestartRollbackUnconfirmed))
    case RecoverDeployment => At(RecoverManual(RestartDuringDeployment))
    case _ => At(Catch(a, code))
  }

  function Broken(l: Local, here: Label, code: ErrorCode): Local { Goto(l, BrokenPC(l.act, here, code)) }

  function Fetch(l: Local, m: ReleaseManifest, digest: string): Local {
    l.(act := l.act.(
      manifest := Some(m), pc := At(SavingSnapshot),
      run := l.act.run.(snapshot := Some(m), provenance := [Provenance(ManifestFile, digest)],
                        rollback := if RollbackAllowed(m) then Available else Unsafe)))
  }

  function AddEvidence(l: Local, m: ReleaseManifest, s: Service): Local {
    l.(act := l.act.(
      pc := At(SavingEvidence(s)),
      run := l.act.run.(provenance := l.act.run.provenance + [Provenance(ServiceImage(s), m.images.Of(s).digest)])))
  }

  /** Where a successful operation leads. */
  function SucceedPC(here: Label): PC {
    match here
    case CheckingHost => At(CancelCheckEarly)
    case BackingUp => Logged(WritingTarget)
    case PullingImages => At(CancelCheckLate)
    case Migrate => At(MigrationStatus)
    case MigrationStatus => Logged(BeginDeploying)
    case Deploy => At(BeginHealthcheck)
    case CheckTarget => At(Completing)
    case RollbackUp(code) => At(RollbackCheck(code))
    case RollbackCheck(code) => At(RollbackDone(code))
    case RecoverMigration => At(RecoverManual(RestartDuringMigration))
    case RecoverTarget => At(RecoverComplete)
    case RecoverOld => At(RecoverRolledBack)
    case RecoverDeployment => At(RecoverManual(RestartDuringDeployment))
    case _ => At(here)
  }

  function Succeed(l: Local, here: Label): Local {
    if !here.VerifyingImage? then Goto(l, SucceedPC(here))
    else if l.act.manifest.Some? then AddEvidence(l, l.act.manifest.value, here.s)
    else Goto(l, At(Thrown))
  }

  /** An await on an external operation. Outcomes the operation cannot have change nothing. */
  function CommandStep(l: Local, here: Label, op: Operation, o: Outcome): Local {
    match o
    case Output => if Streams(here) then Goto(l, Logged(here)) else l
    case Fail(detail) => Broken(Issue(l, op, Broke), here, OtherError(detail))
    case FailWith(code) =>
      if here.Fetching? && !code.CancelledError? then Broken(Issue(l, op, Broke), here, code) else l
    case Fetched(m, digest) => if here.Fetching? then Fetch(Issue(l, op, Succeeded), m, digest) else l
    case Inspected(images) =>
      if here.Inspecting? && l.act.manifest.Some? then
        if l.act.manifest.value.images.Of(here.s) in images
          then Goto(Issue(l, op, Succeeded), At(CheckingPolicy(here.s)))
        else Broken(Issue(l, op, Broke), here, OtherError("DIGEST_MISMATCH"))
      else l
    case Ok =>
      if here.Fetching? || here.Inspecting? then l else Succeed(Issue(l, op, Succeeded), here)
  }

  predicate Requested(d: Dossier) { d.record.Some? && d.record.value.cancellationRequested }

  /** What happens at an await on the updater's own files, with the synchronous code before it. */
  datatype Effect =
    // the run makes a transition and is saved, or it is only saved, or nothing durable happens
    | Moves(next: Phase, failure: Option<ErrorCode>, rollback: Option<RollbackStatus>, pc: PC)
    | Saves(pc: PC)
    | Goes(pc: PC)
    // the compatibility has been checked; the stored run is taken; `.env` is written; the lock is removed
    | Checks(result: Result, pc: PC)
    | Reloads(run: UpdateRun, pc: PC)
    | Writes(text: string, kept: string, pc: PC)
    | Frees

  function Apply(l: Local, e: Effect, now: int): Local {
    match e
    case Moves(next, failure, rollback, pc) => Move(l, next, now, failure, rollback, pc)
    case Saves(pc) => Store(l, l.act.run, pc)
    case Goes(pc) => Goto(l, pc)
    case Checks(result, pc) => Goto(Issue(l, CheckCompatibility, result), pc)
    case Reloads(run, pc) => l.(act := l.act.(run := run, pc := pc))
    case Writes(text, kept, pc) => l.(env := text, act := l.act.(originalEnv := kept, pc := pc))
    case Frees => l.(locked := false, act := l.act.(pc := At(Done)))
  }

  /** Where an effect leads. */
  function PCOf(e: Effect): PC { if e.Frees? then At(Done) else e.pc }

  function Validation(a: Activity): Effect {
    if a.manifest.None? then Goes(At(Thrown))
    else (match ValidateCompatibility(a.run, a.manifest.value)
      case None => Checks(Succeeded, At(CheckingHost))
      case Some(code) => Checks(Broke, At(Catch(a, code))))
  }

  function TargetWritten(a: Activity, env: string): Effect {
    match WriteVersion(env, a.run.target)
    case None => Writes(env, env, At(Catch(a.(originalEnv := env), OtherError("CURRENT_VERSION_MISSING"))))
    case Some(text) => Writes(text, env, At(BeginPulling))
  }

  function RepositoryChecked(a: Activity, s: Service, repositories: Images): Effect {
    if a.manifest.None? then Goes(At(Thrown))
    else if a.manifest.value.images.Of(s).repository != repositories.Of(s).repository
      then Goes(At(Catch(a, OtherError("REPOSITORY_MISMATCH"))))
    else Goes(At(Inspecting(s)))
  }

  function PolicyChecked(a: Activity, s: Service): Effect {
    if a.manifest.None? then Goes(At(Thrown))
    else (match VerificationPolicy(a.manifest.value)
      case None => Goes(At(VerifyingImage(s)))
      case Some(code) => Goes(Logged(Raising(code))))
  }

  function InstalledRestored(a: Activity, env: string): Effect {
    match WriteVersion(env, a.run.installed)
    case None => Goes(At(Thrown))
    case Some(text) => Writes(text, a.originalEnv, At(RecoverFail))
  }

  /** `execute`, its try block. */
  function EffectAt(l: Local, here: Label): Effect {
    match here
    case BeginPreflight => Moves(Preflight, None, None, Logged(Fetching))
    case SavingSnapshot => Saves(Logged(Validating))
    case Validating => Validation(l.act)
    case CancelCheckEarly => if Requested(l.d) then Reloads(l.d.record.value, At(Cancelling)) else Goes(At(BeginBackup))
    case BeginBackup => Moves(Backup, None, None, Logged(BackingUp))
    case WritingTarget => TargetWritten(l.act, l.env)
    case BeginPulling => Moves(Pulling, None, None, Logged(PullingImages))
    case CancelCheckLate =>
      if Requested(l.d) then Reloads(l.d.record.value, At(CancelRestoring)) else Goes(At(BeginVerifying))
    case CancelRestoring => Writes(l.act.originalEnv, l.act.originalEnv, At(Cancelling))
    case Cancelling => Moves(Cancelled, None, None, Logged(Raising(CancelledError)))
    case BeginVerifying => Moves(Verifying, None, None, Logged(CheckingRepository(Api)))
    case CheckingRepository(s) => RepositoryChecked(l.act, s, l.d.origin.repositories)
    case CheckingPolicy(s) => PolicyChecked(l.act, s)
    case SavingEvidence(s) => Saves(AfterEvidence(s))
    case BeginMigrating => Moves(Migrating, None, None, Logged(Migrate))
    case BeginDeploying => Moves(Deploying, None, None, Logged(Deploy))
    case BeginHealthcheck => Moves(Healthcheck, None, None, Logged(CheckTarget))
    case Completing => Moves(Completed, None, Some(NotRequired), Logged(ReleasingLock))
    case _ => EndAt(l, here)
  }

  /** The catch block, the rollback, the release of the lock, and the recovery. */
  function EndAt(l: Local, here: Label): Effect {
    match here
    case Raising(code) => Goes(At(Catch(l.act, code)))
    case Maintenance(code) => Moves(ManualIntervention, Some(code), Some(Unsafe), Logged(ReleasingLock))
    case FailingUnsafe(code) => Moves(ManualIntervention, Some(code), Some(Unsafe), FailureLog(code))
    case RestoringEnv(code) => Writes(l.act.originalEnv, l.act.originalEnv, At(FailingNow(code)))
    case FailingNow(code) => Moves(Failed, Some(code), None, FailureLog(code))
    case RollbackBegin(code) => Moves(RollingBack, None, None, Logged(RollbackEnv(code)))
    case RollbackEnv(code) => Writes(l.act.originalEnv, l.act.originalEnv, At(RollbackUp(code)))
    case RollbackDone(code) => Moves(Failed, Some(code), Some(RollbackCompleted), Logged(ReleasingLock))
    case RollbackFailing => Moves(ManualIntervention, Some(RollbackError), Some(RollbackFailed), Logged(ReleasingLock))
    case ReleasingLock => Frees
    case RecoverEnv => InstalledRestored(l.act, l.env)
    case RecoverFail => Moves(Failed, Some(RestartSafeToRetry), None, Logged(Done))
    case RecoverComplete => Moves(Completed, None, None, Logged(Done))
    case RecoverRolledBack => Moves(Failed, Some(RestartRollbackRecovered), Some(RollbackCompleted), Logged(Done))
    case RecoverManual(code) => Moves(ManualIntervention, Some(code), Some(Unsafe), Logged(Done))
    case _ => Goes(At(here))
  }

  function InternalStep(l: Local, here: Label, now: int): Local { Apply(l, EffectAt(l, here), now) }

  function EndStep(l: Local, here: Label, now: int): Local { Apply(l, EndAt(l, here), now) }

  /** The next await of the activity completes with outcome `o` at time `now`. */
  function Tick(l: Local, o: Outcome, now: int): Local {
    match l.act.pc
    case Append(next) =>
      var run := l.act.run.(lastSequence := l.act.run.lastSequence + 1);
      l.(d := l.d.(events := l.d.events + [LogEvent(run.lastSequence, run.phase)]),
         act := l.act.(run := run, pc := next))
    case Save(next) => Store(l, l.act.run, next)
    case At(here) =>
      match OpAt(here, l.act.run)
      case Some(op) => CommandStep(l, here, op, o)
      case None => InternalStep(l, here, now)
  }

  /** A run that has just taken the lock and is about to be saved for the first time. */
  function Begin(o: Origin): Local {
    Local(Dossier(o, None, [], [], [], {}), o.env, true,
      Activity(Executor, NewRun(o.id, o.key, o.installed, o.target), "", None, Save(At(BeginPreflight))))
  }

  /** Where `recoverInterruptedRun` starts for a stored phase. */
  function RecoveryStart(p: Phase): Label {
    match p
    case Pending => RecoverEnv case Preflight => RecoverEnv case Backup => RecoverEnv
    case Pulling => RecoverEnv case Verifying => RecoverEnv
    case Migrating => RecoverMigration
    case Healthcheck => RecoverTarget
    case RollingBack => RecoverOld
    case Deploying => RecoverDeployment
    case _ => RecoverManual(RestartUnsafePhase)
  }

  /** `takeInterruptedRun` found the stored run `run` and dropped the lock. */
  function Resume(d: Dossier, env: string, run: UpdateRun): Local {
    Local(d, env, false, Activity(Recovery, run, "", None, At(RecoveryStart(run.phase))))
  }

  /** What a crash leaves of the run: the operation in flight, if any, stays in the trace without a result. */
  function AfterCrash(l: Local): Dossier {
    if l.act.pc.At? && OpAt(l.act.pc.here, l.act.run).Some?
      then Issue(l, OpAt(l.act.pc.here, l.act.run).value, Interrupted).d
    else l.d
  }

  /** `cancel`: accepted in a cancellable stored phase, refused otherwise. */
  function Cancel(d: Dossier): Dossier {
    if d.record.Some? && CanCancel(d.record.value.phase)
      then d.(record := Some(d.record.value.(cancellationRequested := true)),
              requested := d.requested + {d.record.value.phase})
    else d
  }
}
