/**
 * What every await of one run keeps: the inductive invariant of the run machine.
 *
 * A conjunction over many parts is written `true <==> A && B …`: a caller then proves it as one fact, from the lemma
 * that establishes it, and is not asked for each part again.
 */
module UpdateInvariant {
  import opened Text
  import opened EnvFile
  import opened UpdateDomain
  import opened UpdatePlan
  import opened UpdateProtocol

  function ProgressOfDossier(d: Dossier): Progress { ProgressOf(d.origin, d.trace) }

  function NewText(d: Dossier): string { Rewritten(d.origin, d.origin.target) }

  // ---------------------------------------------------------------- records

  /** The fields that never change. */
  predicate BelongsTo(r: UpdateRun, o: Origin) {
    true <==>
    && r.id == o.id && r.idempotencyKey == o.key && r.installed == o.installed && r.target == o.target
  }

  /** A run record agrees with the history of its run. */
  predicate RunOK(r: UpdateRun, d: Dossier) {
    true <==>
    && r.status == r.phase
    && (r.completedAt.Some? <==> Terminal(r.phase))
    && BelongsTo(r, d.origin)
    && d.history != [] && d.history[|d.history| - 1] == r.phase
    && (r.cancellationRequested ==> d.requested != {})
    && ReachedOK(r, d)
  }

  /** The two points at which a cancellation can be honoured. */
  predicate Cancellable(p: Progress) { p == Forward(3) || p == Forward(5) }

  /** MIGRATING and the phases reachable from it. */
  predicate FromMigration(p: Phase) {
    p.Migrating? || p.Deploying? || p.Healthcheck? || p.RollingBack? || p.Completed? || p.Failed?
      || p.ManualIntervention?
  }

  /** The release recorded may be installed. */
  predicate Compatible(r: UpdateRun) {
    true <==>
    r.snapshot.Some? && ValidateCompatibility(r, r.snapshot.value).None?
  }

  /** What a record must hold because of the phases its run went through. */
  predicate ReachedOK(r: UpdateRun, d: Dossier) {
    true <==>
    && (r.phase.Cancelled? ==> r.cancellationRequested && Cancellable(ProgressOfDossier(d)))
    && (Backup in d.history ==> Compatible(r))
    && (Migrating in d.history ==> FullyProven(r) && FromMigration(r.phase))
    && (Deploying in d.history ==> Migrating in d.history && r.phase != Migrating)
    && (RollingBack in d.history ==> r.snapshot.Some? && RollbackAllowed(r.snapshot.value))
    && (Deploying in d.history && Terminal(r.phase) && r.snapshot.Some? && !RollbackAllowed(r.snapshot.value)
        ==> r.phase.Completed? || r.phase.ManualIntervention?)
  }

  /** The stored phase bounds the text of `.env`. */
  predicate EnvBounds(r: UpdateRun, d: Dossier, env: string) {
    var before, after := d.origin.env, NewText(d);
    match r.phase
    case Pending => env == before
    case Preflight => env == before
    case Cancelled => env == before
    case Deploying => env == after
    case Healthcheck => env == after
    case Completed => env == after
    case Failed =>
      env == before || env == Rewritten(d.origin, d.origin.installed)
      || (r.failure == Some(RestartRollbackRecovered) && env == after)
    case _ => env == before || env == after
  }

  /** Sequences 1, 2, ..., n. */
  predicate Numbered(events: seq<LogEvent>, n: nat) {
    |events| == n && forall i :: 0 <= i < n ==> events[i].sequence == i + 1
  }

  /** Sequences 1, 2, ..., n, or the same with the last number used twice. */
  predicate LogOK(events: seq<LogEvent>) {
    || Numbered(events, |events|)
    || (|events| >= 2 && Numbered(events[..|events| - 1], |events| - 1)
        && events[|events| - 1].sequence == |events| - 1)
  }

  /** What holds of every run at all times, whatever happened to it. */
  predicate DossierOK(d: Dossier) {
    true <==>
    && HasVersionLine(d.origin.env)
    && Follows(d.origin, d.trace)
    && PhaseChain(d.history)
    && d.requested <= {Pending, Preflight, Pulling}
    && LogOK(d.events)
    && (d.record.Some? ==> RunOK(d.record.value, d))
  }

  /** What a crash of `execute` leaves: enough for the restart to finish the run. */
  predicate Resumable(d: Dossier, env: string) {
    true <==>
    && DossierOK(d)
    && !ProgressOfDossier(d).Recovered?
    && (d.record.None? ==> d.history == [] && d.trace == [] && env == d.origin.env)
    && (d.record.Some? ==>
        && EnvBounds(d.record.value, d, env)
        && Numbered(d.events, |d.events|)
        && (d.record.value.lastSequence == |d.events| || d.record.value.lastSequence + 1 == |d.events|))
  }

  // ---------------------------------------------------------------- stages

  /** What holds in memory on the way to a label. */
  datatype Stage = Stage(phase: Phase, done: nat, rewritten: bool, kept: bool, evidence: nat)

  /** The stages of an undisturbed update. */
  function ForwardStage(l: Label): Option<Stage> {
    match l
    case BeginPreflight => Some(Stage(Pending, 0, false, false, 0))
    case Fetching => Some(Stage(Preflight, 0, false, false, 0))
    case SavingSnapshot => Some(Stage(Preflight, 1, false, false, 1))
    case Validating => Some(Stage(Preflight, 1, false, false, 1))
    case CheckingHost => Some(Stage(Preflight, 2, false, false, 1))
    case CancelCheckEarly => Some(Stage(Preflight, 3, false, false, 1))
    case BeginBackup => Some(Stage(Preflight, 3, false, false, 1))
    case BackingUp => Some(Stage(Backup, 3, false, false, 1))
    case WritingTarget => Some(Stage(Backup, 4, false, false, 1))
    case BeginPulling => Some(Stage(Backup, 4, true, true, 1))
    case PullingImages => Some(Stage(Pulling, 4, true, true, 1))
    case CancelCheckLate => Some(Stage(Pulling, 5, true, true, 1))
    case CancelRestoring => Some(Stage(Pulling, 5, true, true, 1))
    case BeginVerifying => Some(Stage(Pulling, 5, true, true, 1))
    case CheckingRepository(s) => Some(Stage(Verifying, 5 + 2 * Index(s), true, true, 1 + Index(s)))
    case Inspecting(s) => Some(Stage(Verifying, 5 + 2 * Index(s), true, true, 1 + Index(s)))
    case CheckingPolicy(s) => Some(Stage(Verifying, 6 + 2 * Index(s), true, true, 1 + Index(s)))
    case VerifyingImage(s) => Some(Stage(Verifying, 6 + 2 * Index(s), true, true, 1 + Index(s)))
    case SavingEvidence(s) => Some(Stage(Verifying, 7 + 2 * Index(s), true, true, 2 + Index(s)))
    case BeginMigrating => Some(Stage(Verifying, 11, true, true, 4))
    case Migrate => Some(Stage(Migrating, 11, true, true, 4))
    case MigrationStatus => Some(Stage(Migrating, 12, true, true, 4))
    case BeginDeploying => Some(Stage(Migrating, 13, true, true, 4))
    case Deploy => Some(Stage(Deploying, 13, true, true, 4))
    case BeginHealthcheck => Some(Stage(Deploying, 14, true, true, 4))
    case CheckTarget => Some(Stage(Healthcheck, 14, true, true, 4))
    case Completing => Some(Stage(Healthcheck, 15, true, true, 4))
    case _ => None
  }

  function Index(s: Service): nat { match s case Api => 0 case Web => 1 case Worker => 2 }

  /** The run holds the manifest in memory, the manifest's evidence, and that of the first `n - 1` images. */
  predicate Evidence(run: UpdateRun, manifest: Option<ReleaseManifest>, n: nat)
    requires n <= 4
  {
    if n == 0 then run.snapshot.None? && run.provenance == [] && manifest.None?
    else
      && manifest.Some? && run.snapshot == manifest
      && |run.provenance| == n && run.provenance[0].subject == ManifestFile
      && run.provenance[1..] == ImageEvidence(manifest.value, n - 1)
  }

  /** The facts of a stage, about the parts it speaks of. */
  predicate StageFacts(run: UpdateRun, manifest: Option<ReleaseManifest>, originalEnv: string, env: string, o: Origin,
    p: Progress, st: Stage) {
    true <==>
    && st.evidence <= 4
    && run.phase == st.phase && p == Forward(st.done)
    && env == (if st.rewritten then Rewritten(o, o.target) else o.env)
    && originalEnv == (if st.kept then o.env else "")
    && Evidence(run, manifest, st.evidence)
    && (st.done >= 2 ==> manifest.Some? && ValidateCompatibility(run, manifest.value).None?)
  }

  predicate InStage(l: Local, st: Stage) {
    StageFacts(l.act.run, l.act.manifest, l.act.originalEnv, l.env, l.d.origin, ProgressOfDossier(l.d), st)
  }

  /** The rollback: the release allows it, and its script operation 13 or 14 broke. */
  predicate Rolling(run: UpdateRun, originalEnv: string, o: Origin) {
    run.snapshot.Some? && RollbackAllowed(run.snapshot.value) && originalEnv == o.env
  }

  predicate BrokeAt13Or14(p: Progress) { p == Halted(13) || p == Halted(14) }

  predicate Deployed(p: Phase) { p.Deploying? || p.Healthcheck? }

  predicate BeforeDeploy(p: Phase) { p.Pulling? || p.Verifying? || p.Migrating? }

  /** The facts of the catch block, the rollback and the release of the lock. */
  predicate CatchFacts(run: UpdateRun, originalEnv: string, env: string, o: Origin, p: Progress, here: Label) {
    var after := Rewritten(o, o.target);
    match here
    case Cancelling =>
      run.cancellationRequested && env == o.env
        && ((run.phase.Preflight? && p == Forward(3)) || (run.phase.Pulling? && p == Forward(5)))
    case Raising(code) =>
      if code.CancelledError? then Terminal(run.phase)
      else run.phase.Verifying? && code.OtherError? && env == after && originalEnv == o.env
    case Maintenance(code) =>
      run.phase.Preflight? && NeedsMaintenance(code) && env == o.env && (p == Halted(0) || p == Halted(1))
    case FailingUnsafe(code) =>
      Deployed(run.phase) && env == after && run.snapshot.Some? && !RollbackAllowed(run.snapshot.value)
    case RestoringEnv(code) => BeforeDeploy(run.phase) && originalEnv == o.env
    case FailingNow(code) => (run.phase.Preflight? || run.phase.Backup? || BeforeDeploy(run.phase)) && env == o.env
    case RollbackBegin(code) => Rolling(run, originalEnv, o) && Deployed(run.phase) && env == after && BrokeAt13Or14(p)
    case RollbackEnv(code) => Rolling(run, originalEnv, o) && run.phase.RollingBack? && env == after && BrokeAt13Or14(p)
    case RollbackUp(code) => Rolling(run, originalEnv, o) && run.phase.RollingBack? && env == o.env && BrokeAt13Or14(p)
    case RollbackCheck(code) => Rolling(run, originalEnv, o) && run.phase.RollingBack? && env == o.env && p.RolledUp?
    case RollbackDone(code) =>
      Rolling(run, originalEnv, o) && run.phase.RollingBack? && env == o.env && p.RolledChecked?
    case RollbackFailing => run.phase.RollingBack? && env == o.env && p.RollbackBroke?
    case ReleasingLock => Terminal(run.phase)
    case Done => Terminal(run.phase)
    case _ => false
  }

  predicate InCatch(l: Local, here: Label) {
    CatchFacts(l.act.run, l.act.originalEnv, l.env, l.d.origin, ProgressOfDossier(l.d), here)
  }

  // ---------------------------------------------------------------- execute

  /** Record and memory differ at most in the cancellation flag and in `gap` sequence numbers. */
  predicate InStep(record: UpdateRun, run: UpdateRun, gap: nat) {
    true <==>
    && record.(cancellationRequested := false) ==
        run.(cancellationRequested := false, lastSequence := record.lastSequence)
    && record.lastSequence + gap == run.lastSequence
  }

  /** Labels at which the run in memory is about to be saved with new evidence. */
  predicate AtSave(here: Label) { here.SavingSnapshot? || here.SavingEvidence? }

  /** How far the stored record is behind the run in memory. */
  datatype Lag = Opening | Even | OneEvent | Fields

  function LagOf(pc: PC): Lag {
    match pc
    case Save(next) => if next == At(BeginPreflight) then Opening else OneEvent
    case Append(_) => Even
    case At(here) => if AtSave(here) then Fields else Even
  }

  predicate Saved(d: Dossier, run: UpdateRun, lag: Lag) {
    match lag
    case Opening =>
      && d.record.None? && d.history == [] && d.trace == [] && d.events == []
      && run.lastSequence == 0 && run.phase.Pending?
    case Even => d.record.Some? && InStep(d.record.value, run, 0)
    case OneEvent => d.record.Some? && InStep(d.record.value, run, 1)
    case Fields =>
      d.record.Some? && d.record.value.phase == run.phase && d.record.value.lastSequence == run.lastSequence
  }

  /** The run in memory is fit to be saved. */
  predicate MemoryOK(d: Dossier, run: UpdateRun) {
    true <==>
    && run.status == run.phase && (run.completedAt.Some? <==> Terminal(run.phase))
    && BelongsTo(run, d.origin)
    && (run.cancellationRequested ==> d.requested != {})
    && (d.history != [] ==> RunOK(run, d))
  }

  /** Every append is followed by its save; no log line precedes the opening label. */
  predicate Shaped(pc: PC) {
    match pc
    case At(_) => true
    case Append(next) => next.Save? && next != Save(At(BeginPreflight)) && Shaped(next)
    case Save(next) => !next.Save? && Shaped(next)
  }

  /** The activity stands where its label says. */
  predicate AtStage(l: Local, goal: Label) {
    match ForwardStage(goal)
    case Some(st) => InStage(l, st) && (goal.CancelRestoring? ==> l.act.run.cancellationRequested)
    case None => InCatch(l, goal)
  }

  /** Stored files and memory agree. */
  predicate Files(d: Dossier, env: string, run: UpdateRun, lag: Lag) {
    true <==>
    && DossierOK(d) && MemoryOK(d, run) && Saved(d, run, lag)
    && Numbered(d.events, run.lastSequence)
    && (if d.record.None? then env == d.origin.env else EnvBounds(run, d, env))
  }

  predicate FilesOK(l: Local) { Files(l.d, l.env, l.act.run, LagOf(l.act.pc)) }

  /** The invariant of `execute`. */
  predicate ExecuteOK(l: Local) {
    true <==>
    && l.act.actor.Executor? && l.locked == !l.act.pc.Goal().Done? && (l.act.pc.Goal().Done? ==> l.act.pc.At?)
    && Shaped(l.act.pc) && FilesOK(l) && AtStage(l, l.act.pc.Goal())
    && !ProgressOfDossier(l.d).Recovered?
  }

  lemma BeginOK(o: Origin)
    requires HasVersionLine(o.env)
    ensures ExecuteOK(Begin(o))
  {
  }

  // ---------------------------------------------------------------- log lines

  /** The stage does not depend on the sequence counter, the record or the log. */
  predicate SameButLog(l: Local, l': Local) {
    && l'.env == l.env && l'.d.origin == l.d.origin && l'.d.trace == l.d.trace
    && l'.act.run == l.act.run.(lastSequence := l'.act.run.lastSequence)
    && l'.act.manifest == l.act.manifest && l'.act.originalEnv == l.act.originalEnv
  }

  lemma StageFrame(l: Local, l': Local, goal: Label)
    requires AtStage(l, goal) && SameButLog(l, l')
    ensures AtStage(l', goal)
  {
    match ForwardStage(goal)
    case Some(st) =>
    case None => CatchFrame(l, l', goal);
  }

  lemma CatchFrame(l: Local, l': Local, goal: Label)
    requires InCatch(l, goal) && SameButLog(l, l')
    ensures InCatch(l', goal)
  {
  }

  lemma NumberedAppend(events: seq<LogEvent>, n: nat, e: LogEvent)
    requires Numbered(events, n) && e.sequence == n + 1
    ensures Numbered(events + [e], n + 1) && LogOK(events + [e])
  {
  }

  /** Nor does the soundness of the record. */
  lemma RunFrame(r: UpdateRun, d: Dossier, r': UpdateRun, d': Dossier)
    requires RunOK(r, d) && d'.origin == d.origin && d'.trace == d.trace && d'.history == d.history
      && d'.requested >= d.requested
    requires r'.(cancellationRequested := r.cancellationRequested, lastSequence := r.lastSequence) == r
    requires r'.cancellationRequested ==> d'.requested != {}
    requires r.cancellationRequested ==> r'.cancellationRequested
    ensures RunOK(r', d')
  {
  }

  lemma AppendKeeps(l: Local, o: Outcome, now: int)
    requires ExecuteOK(l) && l.act.pc.Append?
    ensures ExecuteOK(Tick(l, o, now))
  {
    StageFrame(l, Tick(l, o, now), l.act.pc.Goal());
    AppendFiles(l, o, now);
  }

  lemma AppendFiles(l: Local, o: Outcome, now: int)
    requires FilesOK(l) && l.act.pc.Append? && Shaped(l.act.pc)
    ensures FilesOK(Tick(l, o, now))
  {
    var l' := Tick(l, o, now);
    NumberedAppend(l.d.events, l.act.run.lastSequence, LogEvent(l.act.run.lastSequence + 1, l.act.run.phase));
    RunFrame(l.d.record.value, l.d, l.d.record.value, l'.d);
    RunFrame(l.act.run, l.d, l'.act.run, l'.d);
  }

  lemma SaveKeeps(l: Local, o: Outcome, now: int)
    requires ExecuteOK(l) && l.act.pc.Save?
    ensures ExecuteOK(Tick(l, o, now))
  {
    var l' := Tick(l, o, now);
    StageFrame(l, l', l.act.pc.Goal());
    SaveFiles(l, o, now);
  }

  lemma SaveFiles(l: Local, o: Outcome, now: int)
    requires FilesOK(l) && l.act.pc.Save? && Shaped(l.act.pc)
    ensures FilesOK(Tick(l, o, now))
  {
    var l' := Tick(l, o, now);
    if l.d.record.Some? {
      assert l'.d.history == l.d.history;
      RunFrame(l.act.run, l.d, l.act.run, l'.d);
    } else {
      OpeningSave(l, l');
    }
  }

  lemma OpeningSave(l: Local, l': Local)
    requires FilesOK(l) && l.d.record.None? && l.act.pc == Save(At(BeginPreflight))
      && l' == Store(l, l.act.run, At(BeginPreflight))
    ensures FilesOK(l')
  {
    assert l'.d.history == [Pending];
  }

  // ---------------------------------------------------------------- steps between two labels

  /** Memory and record agree here, up to the cancellation flag. */
  predicate Synced(pc: PC) { LagOf(pc).Even? }

  /** Files and memory do not change between two synced points. */
  lemma FilesFrame(l: Local, l': Local)
    requires FilesOK(l) && Synced(l.act.pc) && Synced(l'.act.pc)
    requires l'.d == l.d && l'.env == l.env && l'.act.run == l.act.run
    ensures FilesOK(l')
  {
  }

  /** Only a cancelled record speaks of the trace. */
  lemma RunTrace(r: UpdateRun, d: Dossier, d': Dossier)
    requires RunOK(r, d) && !r.phase.Cancelled? && d' == d.(trace := d'.trace)
    ensures RunOK(r, d')
  {
    assert ReachedOK(r, d');
  }

  /** An operation is added to the trace. */
  lemma IssueFiles(l: Local, op: Operation, result: Result)
    requires FilesOK(l) && !Terminal(l.act.run.phase) && l.d.record.Some? && l.d.record.value.phase == l.act.run.phase
    requires !Advance(l.d.origin, ProgressOfDossier(l.d), Entry(l.act.actor, op, l.env, result)).Illegal?
    ensures FilesOK(Issue(l, op, result))
    ensures ProgressOfDossier(Issue(l, op, result).d) ==
      Advance(l.d.origin, ProgressOfDossier(l.d), Entry(l.act.actor, op, l.env, result))
  {
    IssueProgress(l, op, result);
    IssueRuns(l, Issue(l, op, result).d);
  }

  lemma IssueProgress(l: Local, op: Operation, result: Result)
    ensures ProgressOfDossier(Issue(l, op, result).d) ==
      Advance(l.d.origin, ProgressOfDossier(l.d), Entry(l.act.actor, op, l.env, result))
  {
    AppendAdvances(l.d.origin, l.d.trace, Entry(l.act.actor, op, l.env, result));
  }

  lemma IssueRuns(l: Local, d': Dossier)
    requires FilesOK(l) && !Terminal(l.act.run.phase) && l.d.record.Some? && l.d.record.value.phase == l.act.run.phase
    requires d' == l.d.(trace := d'.trace) && !ProgressOfDossier(d').Illegal?
    ensures FilesOK(l.(d := d'))
  {
    RunTrace(l.d.record.value, l.d, d');
    if l.d.history != [] { RunTrace(l.act.run, l.d, d'); }
  }

  lemma ChainExtends(h: seq<Phase>, p: Phase)
    requires PhaseChain(h) && h != [] && CanMove(h[|h| - 1], p)
    ensures Extend(h, p) == h + [p] && PhaseChain(h + [p])
  {
    assert (h + [p])[..|h|] == h;
  }

  /** What the record's history demands of a move to `next`. */
  predicate MayMove(r: UpdateRun, d: Dossier, next: Phase) {
    && CanMove(r.phase, next)
    && (next.Cancelled? ==> r.cancellationRequested && Cancellable(ProgressOfDossier(d)))
    && (next.Backup? ==> Compatible(r))
    && (next.Migrating? ==> FullyProven(r))
    && (next.RollingBack? ==> r.snapshot.Some? && RollbackAllowed(r.snapshot.value))
    && (next.Failed? ==> !r.phase.Deploying? && !r.phase.Healthcheck?)
  }

  lemma ReachedMove(r: UpdateRun, d: Dossier, r': UpdateRun, d': Dossier, next: Phase)
    requires RunOK(r, d) && MayMove(r, d, next)
    requires r'.phase == next && r'.snapshot == r.snapshot && r'.provenance == r.provenance
      && r'.cancellationRequested == r.cancellationRequested
      && r'.installed == r.installed && r'.target == r.target
    requires d'.history == d.history + [next] && d'.trace == d.trace && d'.origin == d.origin
    ensures ReachedOK(r', d')
  {
    assert r.phase in d.history;
    assert forall p :: p in d'.history <==> p in d.history || p == next;
  }

  /** A move keeps files and memory in agreement. */
  lemma MoveFiles(l: Local, next: Phase, now: int, failure: Option<ErrorCode>, rollback: Option<RollbackStatus>, pc: PC)
    requires FilesOK(l) && Synced(l.act.pc) && pc.Append? && l.d.record.Some?
    requires MayMove(l.act.run, l.d, next)
    requires EnvBounds(Move(l, next, now, failure, rollback, pc).act.run, l.d, l.env)
    ensures FilesOK(Move(l, next, now, failure, rollback, pc))
  {
    var l' := Move(l, next, now, failure, rollback, pc);
    ChainExtends(l.d.history, next);
    ReachedMove(l.act.run, l.d, l'.act.run, l'.d, next);
  }

  /** What a legal move leaves in memory. */
  lemma MoveMemory(l: Local, next: Phase, now: int, failure: Option<ErrorCode>, rollback: Option<RollbackStatus>,
    pc: PC)
    requires CanMove(l.act.run.phase, next)
    ensures var l' := Move(l, next, now, failure, rollback, pc);
      && l'.d.trace == l.d.trace && l'.d.origin == l.d.origin && l'.env == l.env && l'.locked == l.locked
      && l'.act.pc == pc && l'.act.actor == l.act.actor
      && l'.act.manifest == l.act.manifest && l'.act.originalEnv == l.act.originalEnv
      && l'.act.run.phase == next && l'.act.run.id == l.act.run.id
      && l'.act.run.snapshot == l.act.run.snapshot && l'.act.run.provenance == l.act.run.provenance
      && l'.act.run.installed == l.act.run.installed && l'.act.run.target == l.act.run.target
      && l'.act.run.cancellationRequested == l.act.run.cancellationRequested
      && l'.act.run.failure == (if failure.Some? then failure else l.act.run.failure)
  {
  }

  /** Only the phase of a stage changes with a move. */
  lemma StageMove(l: Local, l': Local, st: Stage, next: Phase)
    requires st.evidence <= 4 && InStage(l, st)
    requires l'.env == l.env && l'.d.origin == l.d.origin && l'.d.trace == l.d.trace
    requires l'.act.manifest == l.act.manifest && l'.act.originalEnv == l.act.originalEnv
    requires l'.act.run.phase == next && l'.act.run.snapshot == l.act.run.snapshot
      && l'.act.run.provenance == l.act.run.provenance
    requires l'.act.run.installed == l.act.run.installed && l'.act.run.target == l.act.run.target
    ensures InStage(l', st.(phase := next))
  {
  }

  lemma RewrittenBy(here: Label)
    requires ForwardStage(here).Some?
    ensures match ForwardStage(here).value.phase
      case Pending => !ForwardStage(here).value.rewritten
      case Preflight => !ForwardStage(here).value.rewritten
      case Migrating => ForwardStage(here).value.rewritten
      case Deploying => ForwardStage(here).value.rewritten
      case _ => true
  {
  }

  /** The main line's moves keep the bounds on `.env`. */
  lemma ForwardEnv(l: Local, here: Label, next: Phase, r: UpdateRun)
    requires FilesOK(l) && l.d.record.Some? && ForwardStage(here).Some? && ForwardStage(here).value.evidence <= 4
    requires InStage(l, ForwardStage(here).value) && CanMove(l.act.run.phase, next) && !Terminal(next)
      && !next.RollingBack?
    requires r.phase == next
    ensures EnvBounds(r, l.d, l.env)
  {
    RewrittenBy(here);
  }

  /** The three forms of a pending label. */
  predicate Towards(pc: PC, goal: Label) {
    pc == At(goal) || (!goal.BeginPreflight? && !goal.Done? && (pc == Logged(goal) || pc == LoggedTwice(goal)))
  }

  lemma TowardsGoal(pc: PC, goal: Label)
    requires Towards(pc, goal)
    ensures Shaped(pc) && pc.Goal() == goal
  {
    if !goal.BeginPreflight? {
      GoalOfLogged(At(goal));
      GoalOfLogged(Logged(goal));
    }
  }

  lemma GoalOfLogged(pc: PC)
    requires Shaped(pc) && !pc.Save? && pc != At(BeginPreflight)
    ensures Shaped(Append(Save(pc))) && Append(Save(pc)).Goal() == pc.Goal()
  {
    assert Save(pc).Goal() == pc.Goal() && Shaped(Save(pc));
  }

  lemma Assemble(l: Local, goal: Label)
    requires Towards(l.act.pc, goal)
    requires FilesOK(l) && AtStage(l, goal) && !ProgressOfDossier(l.d).Recovered?
    requires l.act.actor.Executor? && l.locked == !goal.Done?
    ensures ExecuteOK(l)
  {
    TowardsGoal(l.act.pc, goal);
  }

  lemma AssembleForward(l: Local, goal: Label, st: Stage)
    requires Towards(l.act.pc, goal)
    requires FilesOK(l) && ForwardStage(goal) == Some(st) && st.evidence <= 4 && InStage(l, st)
    requires l.act.actor.Executor? && l.locked && (goal.CancelRestoring? ==> l.act.run.cancellationRequested)
    ensures ExecuteOK(l)
  {
    ForwardAt(l, goal, st);
    Assemble(l, goal);
  }

  lemma ForwardAt(l: Local, goal: Label, st: Stage)
    requires ForwardStage(goal) == Some(st) && InStage(l, st)
      && (goal.CancelRestoring? ==> l.act.run.cancellationRequested)
    ensures AtStage(l, goal) && !ProgressOfDossier(l.d).Recovered? && !goal.Done?
  {
  }

  lemma ForwardNotDone(goal: Label)
    requires ForwardStage(goal).Some?
    ensures !goal.Done?
  {
  }

  /** A move along the main line. */
  lemma ForwardMove(l: Local, here: Label, next: Phase, now: int, goal: Label, st: Stage)
    requires FilesOK(l) && l.act.actor.Executor? && l.locked && l.act.pc == At(here) && !AtSave(here)
    requires ForwardStage(here) == Some(st) && st.evidence <= 4 && InStage(l, st)
    requires ForwardStage(goal) == Some(st.(phase := next)) && !goal.CancelRestoring? && !goal.BeginPreflight?
    requires MayMove(l.act.run, l.d, next) && !Terminal(next) && !next.RollingBack?
    ensures ExecuteOK(Move(l, next, now, None, None, Logged(goal)))
  {
    ForwardNotDone(goal);
    var l' := Move(l, next, now, None, None, Logged(goal));
    MoveMemory(l, next, now, None, None, Logged(goal));
    StageMove(l, l', st, next);
    ForwardEnv(l, here, next, l'.act.run);
    MoveFiles(l, next, now, None, None, Logged(goal));
    AssembleForward(l', goal, st.(phase := next));
  }
}
