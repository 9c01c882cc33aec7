/** Run records, release manifests and the phase table of the updater. */
module UpdateDomain {
  import opened Text
  import opened Versions

  datatype Phase =
    | Pending | Preflight | Backup | Pulling | Verifying | Migrating | Deploying | Healthcheck | RollingBack
    | Completed | Failed | ManualIntervention | Cancelled

  /** The `transitions` table. */
  predicate CanMove(p: Phase, q: Phase) {
    match p
    case Pending => q.Preflight? || q.Cancelled? || q.Failed?
    case Preflight => q.Backup? || q.Cancelled? || q.Failed? || q.ManualIntervention?
    case Backup => q.Pulling? || q.Failed? || q.ManualIntervention?
    case Pulling => q.Verifying? || q.Cancelled? || q.Failed? || q.ManualIntervention?
    case Verifying => q.Migrating? || q.Failed? || q.ManualIntervention?
    case Migrating => q.Deploying? || q.Failed? || q.ManualIntervention?
    case Deploying => q.Healthcheck? || q.RollingBack? || q.Failed? || q.ManualIntervention?
    case Healthcheck => q.Completed? || q.RollingBack? || q.Failed? || q.ManualIntervention?
    case RollingBack => q.Failed? || q.ManualIntervention?
    case _ => false
  }

  predicate Terminal(p: Phase) { p.Completed? || p.Failed? || p.ManualIntervention? || p.Cancelled? }

  /** `canCancel` */
  predicate CanCancel(p: Phase) { p.Pending? || p.Preflight? || p.Pulling? }

  datatype Service = Api | Web | Worker

  datatype Image = Image(repository: string, digest: string)

  datatype Images = Images(api: Image, web: Image, worker: Image) {
    function Of(s: Service): Image {
      match s case Api => api case Web => web case Worker => worker
    }
  }

  datatype Compatibility = NoMigration | BackwardCompatible | ForwardOnly | ManualRecovery

  datatype AttestationPolicy = DigestOnly | GithubProvenanceRequired

  datatype ReleaseManifest = ReleaseManifest(
    version: Version, minimumVersion: Version, minimumUpdaterVersion: Version,
    images: Images, compatibility: Compatibility, policy: AttestationPolicy, requiresManualAction: bool)

  const UPDATER_VERSION: Version := Parts(1, 4, 0)

  /** `automaticRollbackAllowed` */
  predicate RollbackAllowed(m: ReleaseManifest) { m.compatibility.NoMigration? || m.compatibility.BackwardCompatible? }

  datatype Subject = ManifestFile | ServiceImage(service: Service)

  /** One successful attestation check and the digest it was made for. */
  datatype Provenance = Provenance(subject: Subject, digest: string)

  datatype RollbackStatus = NotRequired | Available | RollbackCompleted | RollbackFailed | Unsafe

  datatype ErrorCode =
    | CancelledError
    | ManualActionRequired | MinimumVersionUnmet | UpdaterMaintenanceRequired | LegacyReleaseManualRequired
    | ManifestError(detail: string)
    | OtherError(detail: string)
    | RollbackError
    | RestartSafeToRetry | RestartDuringMigration | RestartHealthUnconfirmed | RestartRollbackRecovered
    | RestartRollbackUnconfirmed | RestartDuringDeployment | RestartUnsafePhase

  /** The four codes that end a run for operator maintenance. */
  predicate NeedsMaintenance(c: ErrorCode) {
    c.ManualActionRequired? || c.MinimumVersionUnmet? || c.UpdaterMaintenanceRequired? || c.LegacyReleaseManualRequired?
  }

  type RunId = string

  datatype UpdateRun = UpdateRun(
    id: RunId, idempotencyKey: string, installed: Version, target: Version, status: Phase, phase: Phase,
    startedAt: Option<int>, completedAt: Option<int>, failure: Option<ErrorCode>, rollback: RollbackStatus,
    snapshot: Option<ReleaseManifest>, provenance: seq<Provenance>, lastSequence: nat, cancellationRequested: bool)

  function NewRun(id: RunId, key: string, installed: Version, target: Version): UpdateRun {
    UpdateRun(id, key, installed, target, Pending, Pending, None, None, None, NotRequired, None, [], 0, false)
  }

  /** `transitionRun`; None stands for the throw on a move the table does not list. */
  function TransitionRun(run: UpdateRun, next: Phase, now: int): Option<UpdateRun> {
    if !CanMove(run.phase, next) then None
    else Some(run.(phase := next, status := next,
      startedAt := if run.startedAt.Some? then run.startedAt else if next.Preflight? then Some(now) else None,
      completedAt := if Terminal(next) then Some(now) else None))
  }

  /** `validateCompatibility`: None when the release may be installed, otherwise the thrown code. */
  function ValidateCompatibility(run: UpdateRun, m: ReleaseManifest): Option<ErrorCode> {
    if CompareParts(m.version, run.target) != 0 then Some(ManifestError("VERSION_MISMATCH"))
    else if m.requiresManualAction then Some(ManualActionRequired)
    else if !m.policy.GithubProvenanceRequired? then Some(LegacyReleaseManualRequired)
    else if CompareParts(run.installed, m.minimumVersion) < 0 then Some(MinimumVersionUnmet)
    else if CompareParts(UPDATER_VERSION, m.minimumUpdaterVersion) < 0 then Some(UpdaterMaintenanceRequired)
    else None
  }

  /** `assertReleaseVerificationPolicy`: None when it passes, otherwise the thrown code. */
  function VerificationPolicy(m: ReleaseManifest): Option<ErrorCode> {
    if m.requiresManualAction then Some(OtherError("REQUIRES_MANUAL_ACTION"))
    else if !m.policy.GithubProvenanceRequired? then Some(LegacyReleaseManualRequired)
    else if CompareParts(UPDATER_VERSION, m.minimumUpdaterVersion) < 0 then Some(UpdaterMaintenanceRequired)
    else None
  }

  /**
   * The full evidence of an installable release: the manifest file, then the three images at their manifest
   * digests.
   */
  predicate FullyProven(run: UpdateRun) {
    && run.snapshot.Some? && |run.provenance| == 4
    && run.provenance[0].subject == ManifestFile
    && run.provenance[1..] == ImageEvidence(run.snapshot.value, 3)
  }

  function ServiceAt(i: nat): Service
    requires i < 3
  {
    if i == 0 then Api else if i == 1 then Web else Worker
  }

  /** The evidence for the first `n` services. */
  function ImageEvidence(m: ReleaseManifest, n: nat): seq<Provenance>
    requires n <= 3
  {
    [Provenance(ServiceImage(Api), m.images.api.digest), Provenance(ServiceImage(Web), m.images.web.digest),
     Provenance(ServiceImage(Worker), m.images.worker.digest)][..n]
  }

  /** A bound on the moves still possible. */
  function Rank(p: Phase): nat {
    match p
    case Pending => 9 case Preflight => 8 case Backup => 7 case Pulling => 6 case Verifying => 5
    case Migrating => 4 case Deploying => 3 case Healthcheck => 2 case RollingBack => 1
    case _ => 0
  }

  /** The phases a record went through: PENDING first, every change listed in the table. */
  predicate PhaseChain(h: seq<Phase>) {
    h != [] ==>
      if |h| == 1 then h[0] == Pending
      else PhaseChain(h[..|h| - 1]) && CanMove(h[|h| - 2], h[|h| - 1])
  }

  /** Moves strictly descend, so a chain holds at most ten phases and never returns to one. */
  lemma {:induction false} ChainDescends(h: seq<Phase>)
    requires PhaseChain(h) && h != []
    ensures |h| + Rank(h[|h| - 1]) <= 10
    ensures forall i, j :: 0 <= i < j < |h| ==> Rank(h[i]) > Rank(h[j])
    ensures forall i :: 0 <= i < |h| - 1 ==> !Terminal(h[i])
  {
    if |h| > 1 {
      var g := h[..|h| - 1];
      ChainDescends(g);
      assert h == g + [h[|h| - 1]];
      assert Rank(g[|g| - 1]) > Rank(h[|h| - 1]);
    }
  }

  // ---------------------------------------------------------------- the table and the policies in so many words

  const MAIN_LINE: seq<Phase> :=
    [Pending, Preflight, Backup, Pulling, Verifying, Migrating, Deploying, Healthcheck, Completed]

  const ENDS: set<Phase> := {Completed, Failed, ManualIntervention, Cancelled}

  /**
   * A phase leads to the next one of the main line; every phase that is not an end leads to FAILED and, PENDING apart,
   * to an operator; those in which a run can be cancelled lead to CANCELLED, the two after the deployment to
   * ROLLING_BACK.
   */
  lemma TableExactly(p: Phase, q: Phase)
    ensures CanMove(p, q) <==>
      || NextOnLine(p, q)
      || (q == Failed && p !in ENDS)
      || (q == ManualIntervention && p !in ENDS && p != Pending)
      || (q == Cancelled && p in {Pending, Preflight, Pulling})
      || (q == RollingBack && p in {Deploying, Healthcheck})
  {
    LineMoves(p, q);
  }

  predicate OnMainLine(p: Phase) { !p.Failed? && !p.ManualIntervention? && !p.Cancelled? && !p.RollingBack? }

  predicate NextOnLine(p: Phase, q: Phase) { exists i: nat :: i < 8 && p == MAIN_LINE[i] && q == MAIN_LINE[i + 1] }

  lemma LineMoves(p: Phase, q: Phase)
    ensures NextOnLine(p, q) ==> CanMove(p, q)
    ensures CanMove(p, q) && OnMainLine(q) ==> NextOnLine(p, q)
  {
    if NextOnLine(p, q) {
      var i: nat :| i < 8 && p == MAIN_LINE[i] && q == MAIN_LINE[i + 1];
      LineAt(i);
    }
    if CanMove(p, q) && OnMainLine(q) {
      PlaceAt(p);
      PlaceAt(q);
      assert PlaceOf(q) == PlaceOf(p) + 1;
    }
  }

  lemma LineAt(i: nat)
    requires i < 8
    ensures CanMove(MAIN_LINE[i], MAIN_LINE[i + 1])
  {
  }

  function PlaceOf(p: Phase): nat { if p.Completed? then 8 else 9 - Rank(p) }

  lemma PlaceAt(p: Phase)
    requires OnMainLine(p)
    ensures PlaceOf(p) < 9 && MAIN_LINE[PlaceOf(p)] == p
  {
  }

  lemma EndsExactly(p: Phase)
    ensures Terminal(p) <==> p in ENDS
    ensures CanMove(p, Cancelled) <==> CanCancel(p)
  {
  }

  /** The only way to the phases of the main line is the main line: a COMPLETED run has been through all of it. */
  lemma {:induction false} MainLineOnly(h: seq<Phase>, i: nat)
    requires PhaseChain(h) && h != [] && i < 9 && h[|h| - 1] == MAIN_LINE[i]
    ensures h == MAIN_LINE[..i + 1]
  {
    LineDistinct();
    if |h| == 1 {
      assert i == 0;
    } else {
      var g := h[..|h| - 1];
      LineBefore(g[|g| - 1], i);
      MainLineOnly(g, i - 1);
      assert h == g + [MAIN_LINE[i]];
    }
  }

  lemma LineBefore(p: Phase, i: nat)
    requires i < 9 && CanMove(p, MAIN_LINE[i])
    ensures i > 0 && p == MAIN_LINE[i - 1]
  {
    LineDistinct();
    LineMoves(p, MAIN_LINE[i]);
    var j: nat :| j < 8 && p == MAIN_LINE[j] && MAIN_LINE[i] == MAIN_LINE[j + 1];
    assert i == j + 1;
  }

  lemma LineDistinct()
    ensures forall i, j :: 0 <= i < j < 9 ==> MAIN_LINE[i] != MAIN_LINE[j]
    ensures forall i :: 0 <= i < 9 ==> OnMainLine(MAIN_LINE[i])
  {
  }

  datatype Timed = Timed(next: Phase, now: int)

  /** The moves one after the other; None when one of them throws. */
  function Moved(run: UpdateRun, moves: seq<Timed>): Option<UpdateRun> {
    if moves == [] then Some(run)
    else
      match Moved(run, moves[..|moves| - 1])
      case None => None
      case Some(r) => TransitionRun(r, moves[|moves| - 1].next, moves[|moves| - 1].now)
  }

  /**
   * A run keeps as its start the moment it entered PREFLIGHT, if it did, and gets as its completion the moment it came
   * to an end; transitions change nothing else but phase and status.
   */
  lemma {:induction false} TimesKept(run: UpdateRun, moves: seq<Timed>)
    requires run.phase == Pending && run.startedAt.None? && moves != [] && Moved(run, moves).Some?
    ensures var r, last := Moved(run, moves).value, moves[|moves| - 1];
      && r.phase == last.next && r.status == last.next
      && r.startedAt == (if moves[0].next == Preflight then Some(moves[0].now) else None)
      && r.completedAt == (if last.next in ENDS then Some(last.now) else None)
      && r.(phase := run.phase, status := run.status, startedAt := None, completedAt := run.completedAt) == run
  {
    var before := moves[..|moves| - 1];
    if before != [] {
      TimesKept(run, before);
      assert before[0] == moves[0];
    }
  }

  /** The condition that fails first decides the code; numbers decide what is older. */
  predicate RefusedWith(installed: Version, target: Version, m: ReleaseManifest, c: Option<ErrorCode>) {
    true <==>
    && (m.version != target ==> c == Some(ManifestError("VERSION_MISMATCH")))
    && (m.version == target && m.requiresManualAction ==> c == Some(ManualActionRequired))
    && (m.version == target && !m.requiresManualAction ==>
      && (m.policy == DigestOnly ==> c == Some(LegacyReleaseManualRequired))
      && (m.policy == GithubProvenanceRequired ==>
        && (Below(installed, m.minimumVersion) ==> c == Some(MinimumVersionUnmet))
        && (!Below(installed, m.minimumVersion) ==>
          && (Below(Parts(1, 4, 0), m.minimumUpdaterVersion) ==> c == Some(UpdaterMaintenanceRequired))
          && (!Below(Parts(1, 4, 0), m.minimumUpdaterVersion) ==> c == None))))
  }

  lemma CompatibilityCodes(run: UpdateRun, m: ReleaseManifest)
    ensures RefusedWith(run.installed, run.target, m, ValidateCompatibility(run, m))
  {
    CompareIsNumeric(m.version, run.target);
    CompareIsNumeric(run.installed, m.minimumVersion);
    CompareIsNumeric(Parts(1, 4, 0), m.minimumUpdaterVersion);
  }

  /** A release that fits: the target itself, with provenance, without manual action, and not too new to install. */
  predicate ReleaseFits(installed: Version, target: Version, m: ReleaseManifest) {
    && m.version == target && !m.requiresManualAction && m.policy == GithubProvenanceRequired
    && !Below(installed, m.minimumVersion) && !Below(Parts(1, 4, 0), m.minimumUpdaterVersion)
  }

  lemma CompatibleExactly(run: UpdateRun, m: ReleaseManifest)
    ensures ValidateCompatibility(run, m) == None <==> ReleaseFits(run.installed, run.target, m)
  {
    CompatibilityCodes(run, m);
  }

  /** The policy that every image check repeats. */
  lemma PolicyCodes(m: ReleaseManifest)
    ensures var c := VerificationPolicy(m);
      && (m.requiresManualAction ==> c == Some(OtherError("REQUIRES_MANUAL_ACTION")))
      && (!m.requiresManualAction && m.policy == DigestOnly ==> c == Some(LegacyReleaseManualRequired))
      && (!m.requiresManualAction && m.policy == GithubProvenanceRequired ==>
        c == if Below(Parts(1, 4, 0), m.minimumUpdaterVersion) then Some(UpdaterMaintenanceRequired) else None)
  {
    CompareIsNumeric(Parts(1, 4, 0), m.minimumUpdaterVersion);
  }
}
