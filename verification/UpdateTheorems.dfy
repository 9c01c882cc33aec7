/**
 * The updater's guarantees, for every sequence of events from every first start. `Reached` is the world after
 * the events; `ReachableOK` says it satisfies the invariant, and the theorems here read its consequences.
 */
module UpdateTheorems {
  import opened Text
  import opened Versions
  import opened EnvFile
  import opened UpdateDomain
  import opened UpdatePlan
  import opened UpdateProtocol
  import opened UpdateInvariant
  import opened UpdateExecuteAll
  import opened UpdateWorld
  import opened UpdateSafety

  function Reached(env: string, repositories: Images, events: seq<Event>): World {
    Run(Boot(env, repositories), events)
  }

  // ---------------------------------------------------------------- the version in `.env`

  /** `.env` names version `v`. */
  predicate Names(env: string, v: Version) { InstalledVersion(env) == Some(v) }

  /** What a stored record says about the version in `.env`. */
  predicate PhaseNames(r: UpdateRun, env: string) {
    match r.phase
    case Pending => Names(env, r.installed)
    case Preflight => Names(env, r.installed)
    case Cancelled => Names(env, r.installed)
    case Deploying => Names(env, r.target)
    case Healthcheck => Names(env, r.target)
    case Completed => Names(env, r.target)
    case Failed => Names(env, r.installed) || (r.failure == Some(RestartRollbackRecovered) && Names(env, r.target))
    case _ => Names(env, r.installed) || Names(env, r.target)
  }

  lemma BoundedNames(d: Dossier, env: string)
    requires DossierOK(d) && Bounded(d, env) && d.record.Some? && Names(d.origin.env, d.origin.installed)
    ensures PhaseNames(d.record.value, env)
  {
    InstalledAfterWrite(d.origin.env, d.origin.target);
    InstalledAfterWrite(d.origin.env, d.origin.installed);
  }

  /**
   * The phase of the run that took the lock last bounds the version in `.env` at every moment, provided `.env`
   * still named the version the call had read when it took the lock.
   */
  lemma PhaseBoundsVersion(env: string, repositories: Images, events: seq<Event>)
    ensures var w := Reached(env, repositories, events);
      w.latest.Some? ==>
        && w.latest.value in w.dossiers
        && var d := w.dossiers[w.latest.value];
          d.record.Some? && Names(d.origin.env, d.origin.installed) ==> PhaseNames(d.record.value, w.env)
  {
    ReachableOK(env, repositories, events);
    var w := Reached(env, repositories, events);
    if w.latest.Some? {
      var d := w.dossiers[w.latest.value];
      if d.record.Some? && Names(d.origin.env, d.origin.installed) { BoundedNames(d, w.env); }
    }
  }

  /** While a lock stands, the stored phase of the run it names bounds the whole text of `.env`. */
  lemma LockedBounds(env: string, repositories: Images, events: seq<Event>)
    requires Reached(env, repositories, events).lock.Some?
    ensures var w := Reached(env, repositories, events);
      && w.lock.value in w.dossiers && w.latest == w.lock
      && var d := w.dossiers[w.lock.value]; d.record.Some? ==> EnvBounds(d.record.value, d, w.env)
  {
    ReachableOK(env, repositories, events);
    LockBounds(Reached(env, repositories, events));
  }

  lemma LockBounds(w: World)
    requires WorldOK(w) && w.lock.Some?
    ensures w.lock.value in w.dossiers && w.latest == w.lock
    ensures var d := w.dossiers[w.lock.value]; d.record.Some? ==> EnvBounds(d.record.value, d, w.env)
  {
    match w.process
    case Busy(a) => ResumableNow(LocalOf(w, a));
    case _ =>
  }

  lemma UntouchedText(d: Dossier, env: string)
    requires DossierOK(d) && d.record.Some? && Bounded(d, env)
    requires d.record.value.phase.Cancelled? || d.record.value.phase.Pending? || d.record.value.phase.Preflight?
    requires EnvBounds(d.record.value, d, env) || d.record.value.phase.Cancelled?
    ensures env == d.origin.env && d.record.value.installed == d.origin.installed
  {
  }

  // ---------------------------------------------------------------- what is done to the deployment

  predicate DoneAt(trace: seq<Entry>, i: nat, op: Operation) {
    i < |trace| && trace[i].op == op && trace[i].result.Succeeded? && trace[i].actor.Executor?
  }

  /** Compatibility, backup, and for each image the digest and its attestation. */
  predicate Prepared(trace: seq<Entry>) {
    && DoneAt(trace, 1, CheckCompatibility) && DoneAt(trace, 3, TakeBackup)
    && DoneAt(trace, 5, InspectImage(Api)) && DoneAt(trace, 6, VerifyProvenance(Api))
    && DoneAt(trace, 7, InspectImage(Web)) && DoneAt(trace, 8, VerifyProvenance(Web))
    && DoneAt(trace, 9, InspectImage(Worker)) && DoneAt(trace, 10, VerifyProvenance(Worker))
  }

  lemma PreparedBefore(o: Origin, trace: seq<Entry>, i: nat)
    requires Follows(o, trace) && i < |trace| && (trace[i].op.MigrateDeploy? || trace[i].op.ComposeUp?)
    ensures Prepared(trace[..i])
  {
    MutationsAreScripted(o, trace, i);
    forall j: nat | j < 11 ensures j < i && DoneAt(trace[..i], j, Script(j, o.target)) {
      TraceShape(o, trace, i);
      TraceShape(o, trace, j);
    }
    assert forall j: nat :: j < 11 ==> DoneAt(trace[..i], j, Script(j, o.target));
    PreparedParts(trace[..i], o.target);
  }

  lemma PreparedParts(trace: seq<Entry>, target: Version)
    requires forall j: nat :: j < 11 ==> DoneAt(trace, j, Script(j, target))
    ensures Prepared(trace)
  {
    assert DoneAt(trace, 1, Script(1, target)) && DoneAt(trace, 3, Script(3, target))
      && DoneAt(trace, 5, Script(5, target));
    assert DoneAt(trace, 6, Script(6, target)) && DoneAt(trace, 7, Script(7, target))
      && DoneAt(trace, 8, Script(8, target));
    assert DoneAt(trace, 9, Script(9, target)) && DoneAt(trace, 10, Script(10, target));
  }

  /**
   * Whatever is done to images, data and services is done by `execute`, never by a recovery; every operation of
   * it at most once per run, but for `up`, once with the target in `.env` and once with the old text; and no
   * migration or deployment happens before compatibility, backup, digests and attestations were all in order.
   */
  lemma MutationsControlled(env: string, repositories: Images, events: seq<Event>, id: RunId, i: nat)
    requires id in Reached(env, repositories, events).dossiers
    requires i < |Reached(env, repositories, events).dossiers[id].trace|
    requires IsMutation(Reached(env, repositories, events).dossiers[id].trace[i].op)
    ensures var d := Reached(env, repositories, events).dossiers[id]; var e := d.trace[i];
      && e.actor.Executor?
      && (!e.op.PullImages? ==> Prepared(d.trace[..i]))
      && (e.env == NewText(d) || (e.op.ComposeUp? && e.env == d.origin.env && i > 0 && d.trace[i - 1].result.Broke?))
      && forall j :: i < j < |d.trace| && d.trace[j].op == e.op ==>
          e.op.ComposeUp? && e.env == NewText(d) && d.trace[j].env == d.origin.env && d.trace[j].actor.Executor?
  {
    ReachableOK(env, repositories, events);
    var d := Reached(env, repositories, events).dossiers[id];
    MutationsAreScripted(d.origin, d.trace, i);
    if !d.trace[i].op.PullImages? { PreparedBefore(d.origin, d.trace, i); }
    forall j | i < j < |d.trace| && d.trace[j].op == d.trace[i].op
      ensures d.trace[i].op.ComposeUp? && d.trace[i].env == NewText(d) && d.trace[j].env == d.origin.env
        && d.trace[j].actor.Executor?
    {
      MutationsAtMostOnce(d.origin, d.trace, i, j);
      MutationsAreScripted(d.origin, d.trace, j);
    }
  }

  /** Each of these operations is issued in its own stored phase, with its own text of `.env`. */
  predicate InItsPhase(l: Local, op: Operation) {
    && (op.PullImages? ==> l.act.run.phase.Pulling? && l.env == NewText(l.d))
    && (op.MigrateDeploy? ==> l.act.run.phase.Migrating? && l.env == NewText(l.d))
    && (op.ComposeUp? ==>
        (l.act.run.phase.Deploying? && l.env == NewText(l.d))
          || (l.act.run.phase.RollingBack? && l.env == l.d.origin.env))
  }

  /**
   * `pull` runs in PULLING, `migrate deploy` in MIGRATING, `up` of the target in DEPLOYING, of the old release in
   * ROLLING_BACK.
   */
  lemma MutationsInPhase(env: string, repositories: Images, events: seq<Event>, op: Operation)
    ensures var w := Reached(env, repositories, events);
      w.process.Busy? && w.process.act.actor.Executor? && w.process.act.run.id in w.dossiers ==>
        var l := LocalOf(w, w.process.act);
        l.act.pc.At? && OpAt(l.act.pc.here, l.act.run) == Some(op) ==>
          InItsPhase(l, op) && l.d.record.Some? && l.d.record.value.phase == l.act.run.phase
  {
    ReachableOK(env, repositories, events);
    var w := Reached(env, repositories, events);
    if w.process.Busy? && w.process.act.actor.Executor? && w.process.act.run.id in w.dossiers {
      var l := LocalOf(w, w.process.act);
      if l.act.pc.At? && OpAt(l.act.pc.here, l.act.run) == Some(op) { OperationInPhase(l, l.act.pc.here, op); }
    }
  }

  lemma OperationInPhase(l: Local, here: Label, op: Operation)
    requires ExecuteOK(l) && l.act.pc == At(here) && OpAt(here, l.act.run) == Some(op)
    ensures InItsPhase(l, op) && l.d.record.Some? && l.d.record.value.phase == l.act.run.phase
  {
    CutLegal(l, op);
    if op.PullImages? || op.MigrateDeploy? || op.ComposeUp? {
      assert l.act.pc.Goal() == here;
      MutationLabels(here, l.act.run, op);
      if here.RollbackUp? { assert InCatch(l, here); }
    }
  }

  lemma MutationLabels(here: Label, run: UpdateRun, op: Operation)
    requires OpAt(here, run) == Some(op) && (op.PullImages? || op.MigrateDeploy? || op.ComposeUp?)
    ensures here.RollbackUp? ==> op.ComposeUp? && ForwardStage(here).None?
    ensures !here.RollbackUp? ==> ForwardStage(here).Some? && ForwardStage(here).value.rewritten
    ensures !here.RollbackUp? ==>
      ForwardStage(here).value.phase ==
      (if op.PullImages? then Pulling else if op.MigrateDeploy? then Migrating else Deploying)
  {
  }

  /** A release that asks for maintenance is refused in PREFLIGHT, before `.env` is touched, and with no other code. */
  lemma MaintenanceBeforeChanges(env: string, repositories: Images, events: seq<Event>)
    ensures var w := Reached(env, repositories, events);
      w.process.Busy? && w.process.act.actor.Executor? && w.process.act.run.id in w.dossiers ==>
        var l := LocalOf(w, w.process.act); var goal := l.act.pc.Goal();
        goal.Maintenance? ==>
          && goal.code in {ManualActionRequired, MinimumVersionUnmet, UpdaterMaintenanceRequired,
                           LegacyReleaseManualRequired}
          && l.act.run.phase == Preflight && w.env == l.d.origin.env
  {
    ReachableOK(env, repositories, events);
    var w := Reached(env, repositories, events);
    if w.process.Busy? && w.process.act.actor.Executor? && w.process.act.run.id in w.dossiers {
      if w.process.act.pc.Goal().Maintenance? { MaintenanceStage(LocalOf(w, w.process.act), w.process.act.pc.Goal()); }
    }
  }

  lemma MaintenanceStage(l: Local, goal: Label)
    requires AtStage(l, goal) && goal.Maintenance?
    ensures NeedsMaintenance(goal.code) && l.act.run.phase.Preflight? && l.env == l.d.origin.env
  {
    MaintenanceLabel(goal);
    assert InCatch(l, goal);
  }

  lemma MaintenanceLabel(goal: Label)
    requires goal.Maintenance?
    ensures ForwardStage(goal).None?
  {
  }

  // ---------------------------------------------------------------- phases

  /** Everything a stored record says about its own past. */
  lemma RecordsSound(env: string, repositories: Images, events: seq<Event>, id: RunId)
    requires id in Reached(env, repositories, events).dossiers
    ensures var d := Reached(env, repositories, events).dossiers[id];
      && PhaseChain(d.history) && |d.history| <= 10
      && (forall i, j :: 0 <= i < j < |d.history| ==> Rank(d.history[i]) > Rank(d.history[j]))
      && (d.record.Some? ==>
        var r := d.record.value;
        && d.history != [] && r.phase == d.history[|d.history| - 1] && r.status == r.phase
        && (r.completedAt.Some? <==> r.phase in ENDS)
        && (r.phase == Completed ==> d.history == MAIN_LINE)
        && (Migrating in d.history ==> FullyProven(r)))
  {
    ReachedDossier(env, repositories, events, id);
    var d := Reached(env, repositories, events).dossiers[id];
    if d.history != [] { ChainDescends(d.history); }
    if d.record.Some? { RecordSound(d); }
  }

  lemma ReachedDossier(env: string, repositories: Images, events: seq<Event>, id: RunId)
    requires id in Reached(env, repositories, events).dossiers
    ensures DossierOK(Reached(env, repositories, events).dossiers[id])
    ensures PhaseChain(Reached(env, repositories, events).dossiers[id].history)
  {
    ReachableOK(env, repositories, events);
  }

  lemma RecordSound(d: Dossier)
    requires DossierOK(d) && d.record.Some?
    ensures var r := d.record.value;
      && d.history != [] && r.phase == d.history[|d.history| - 1] && r.status == r.phase
      && (r.completedAt.Some? <==> r.phase in ENDS)
      && (r.phase == Completed ==> d.history == MAIN_LINE)
      && (Migrating in d.history ==> FullyProven(r))
  {
    var r := d.record.value;
    assert RunOK(r, d);
    EndsExactly(r.phase);
    if r.phase == Completed { MainLineOnly(d.history, 8); }
  }

  /** No transition the code asks for is refused: no activity ever ends in the throw of `transitionRun`. */
  lemma NoTransitionThrows(env: string, repositories: Images, events: seq<Event>)
    ensures var w := Reached(env, repositories, events); w.process.Busy? ==> !w.process.act.pc.Goal().Thrown?
  {
    ReachableOK(env, repositories, events);
    var w := Reached(env, repositories, events);
    match w.process
    case Busy(a) => LiveInside(LocalOf(w, a));
    case _ =>
  }

  lemma LiveInside(l: Local)
    requires Live(l)
    ensures !l.act.pc.Goal().Thrown?
  {
    if l.act.actor.Executor? { StaysInside(l); }
  }

  /**
   * A run of a release whose migration cannot be taken back is never rolled back; once deploying, it ends COMPLETED
   * or with an operator.
   */
  lemma ForwardOnlyNeverRolledBack(env: string, repositories: Images, events: seq<Event>, id: RunId)
    requires id in Reached(env, repositories, events).dossiers
    ensures var d := Reached(env, repositories, events).dossiers[id];
      d.record.Some? && d.record.value.snapshot.Some?
        && (d.record.value.snapshot.value.compatibility == ForwardOnly
          || d.record.value.snapshot.value.compatibility == ManualRecovery) ==>
        && RollingBack !in d.history
        && (Deploying in d.history && d.record.value.phase in ENDS ==>
              d.record.value.phase == Completed || d.record.value.phase == ManualIntervention)
  {
    ReachedDossier(env, repositories, events, id);
    var d := Reached(env, repositories, events).dossiers[id];
    if d.record.Some? && d.record.value.snapshot.Some?
      && (d.record.value.snapshot.value.compatibility == ForwardOnly
        || d.record.value.snapshot.value.compatibility == ManualRecovery) {
      NoWayBack(d);
    }
  }

  lemma NoWayBack(d: Dossier)
    requires DossierOK(d) && d.record.Some? && d.record.value.snapshot.Some?
    requires d.record.value.snapshot.value.compatibility == ForwardOnly
      || d.record.value.snapshot.value.compatibility == ManualRecovery
    ensures RollingBack !in d.history
    ensures Deploying in d.history && d.record.value.phase in ENDS ==>
      d.record.value.phase == Completed || d.record.value.phase == ManualIntervention
  {
    assert ReachedOK(d.record.value, d);
  }

  /**
   * Nothing is backed up, fetched, migrated or deployed for a release that does not fit: one that is not the target,
   * asks for manual action, has no provenance, or needs a newer installed version or a newer updater.
   */
  lemma OnlyFittingReleases(env: string, repositories: Images, events: seq<Event>, id: RunId)
    requires id in Reached(env, repositories, events).dossiers
    ensures var d := Reached(env, repositories, events).dossiers[id];
      d.record.Some? && Backup in d.history ==>
        && d.record.value.snapshot.Some?
        && ReleaseFits(d.origin.installed, d.origin.target, d.record.value.snapshot.value)
  {
    ReachedDossier(env, repositories, events, id);
    var d := Reached(env, repositories, events).dossiers[id];
    if d.record.Some? && Backup in d.history { FittingDossier(d); }
  }

  lemma FittingDossier(d: Dossier)
    requires DossierOK(d) && d.record.Some? && Backup in d.history
    ensures d.record.value.snapshot.Some?
    ensures ReleaseFits(d.origin.installed, d.origin.target, d.record.value.snapshot.value)
  {
    assert RunOK(d.record.value, d) && Compatible(d.record.value);
    CompatibleExactly(d.record.value, d.record.value.snapshot.value);
  }

  /** A cancelled run was asked to be, in a phase that allows it, and left no migration or deployment behind. */
  lemma CancelledRunsClean(env: string, repositories: Images, events: seq<Event>, id: RunId)
    requires id in Reached(env, repositories, events).dossiers
    ensures var w := Reached(env, repositories, events); var d := w.dossiers[id];
      d.record.Some? && d.record.value.phase.Cancelled? ==>
        && d.requested != {} && d.requested <= {Pending, Preflight, Pulling}
        && (forall i :: 0 <= i < |d.trace| ==> !d.trace[i].op.MigrateDeploy? && !d.trace[i].op.ComposeUp?)
        && (w.latest == Some(id) ==> w.env == d.origin.env)
  {
    ReachableOK(env, repositories, events);
    var d := Reached(env, repositories, events).dossiers[id];
    var w := Reached(env, repositories, events);
    if d.record.Some? && d.record.value.phase.Cancelled? {
      CancelledDossier(d);
      if w.latest == Some(id) { UntouchedText(d, w.env); }
    }
  }

  lemma CancelledDossier(d: Dossier)
    requires DossierOK(d) && d.record.Some? && d.record.value.phase.Cancelled?
    ensures d.requested != {} && d.requested <= {Pending, Preflight, Pulling}
    ensures forall i :: 0 <= i < |d.trace| ==> !d.trace[i].op.MigrateDeploy? && !d.trace[i].op.ComposeUp?
  {
    assert RunOK(d.record.value, d);
    CancellableTrace(d.origin, d.trace);
  }

  lemma CancellableTrace(o: Origin, trace: seq<Entry>)
    requires Cancellable(ProgressOf(o, trace))
    ensures forall i :: 0 <= i < |trace| ==> !trace[i].op.MigrateDeploy? && !trace[i].op.ComposeUp?
  {
    LengthBound(o, trace);
    forall i | 0 <= i < |trace| ensures !trace[i].op.MigrateDeploy? && !trace[i].op.ComposeUp? {
      TraceShape(o, trace, i);
    }
  }

  // ---------------------------------------------------------------- one run at a time

  /** A crash that hits the recovery of run `id` before it saved its outcome. */
  predicate CutsRecovery(w: World, e: Event, id: RunId) {
    && e.Crash? && w.process.Busy? && w.process.act.actor.Recovery? && w.process.act.run.id == id
    && id in w.dossiers && Unfinished(w.dossiers[id])
  }

  /** Some event of the list cuts the recovery of run `id` off. */
  ghost predicate CutOff(env: string, repositories: Images, events: seq<Event>, id: RunId) {
    exists i: nat :: i < |events| && CutAt(env, repositories, events, id, i)
  }

  predicate CutAt(env: string, repositories: Images, events: seq<Event>, id: RunId, i: nat)
    requires i < |events|
  {
    CutsRecovery(Reached(env, repositories, events[..i]), events[i], id)
  }

  lemma CutBefore(env: string, repositories: Images, events: seq<Event>, id: RunId, i: nat)
    requires i < |events| - 1
    ensures CutAt(env, repositories, events[..|events| - 1], id, i) == CutAt(env, repositories, events, id, i)
  {
    var before := events[..|events| - 1];
    assert before[..i] == events[..i] && before[i] == events[i];
  }

  lemma OrphansStep(w: World, e: Event, id: RunId)
    ensures id in Step(w, e).orphans <==> id in w.orphans || CutsRecovery(w, e, id)
  {
  }

  lemma CutExtends(env: string, repositories: Images, events: seq<Event>, id: RunId)
    requires events != []
    ensures var n := |events| - 1;
      CutOff(env, repositories, events, id) <==>
        CutOff(env, repositories, events[..n], id)
          || CutsRecovery(Reached(env, repositories, events[..n]), events[n], id)
  {
    var n := |events| - 1;
    forall i: nat | i < n
      ensures CutAt(env, repositories, events[..n], id, i) == CutAt(env, repositories, events, id, i) {
      CutBefore(env, repositories, events, id, i);
    }
    assert CutAt(env, repositories, events, id, n) <==>
      CutsRecovery(Reached(env, repositories, events[..n]), events[n], id);
  }

  lemma {:induction false} OrphansRecorded(env: string, repositories: Images, events: seq<Event>, id: RunId)
    ensures id in Reached(env, repositories, events).orphans <==> CutOff(env, repositories, events, id)
  {
    if events != [] {
      var n := |events| - 1;
      OrphansRecorded(env, repositories, events[..n], id);
      OrphansStep(Reached(env, repositories, events[..n]), events[n], id);
      CutExtends(env, repositories, events, id);
    }
  }

  /** An unfinished record that neither the lock nor a recovery names. */
  predicate Orphaned(w: World, id: RunId) { id in w.dossiers && Unfinished(w.dossiers[id]) && Current(w) != Some(id) }

  /**
   * A run is left unfinished, without lock or recovery, if and only if a crash hit its recovery before the outcome
   * was saved.
   */
  lemma OrphansExactly(env: string, repositories: Images, events: seq<Event>, id: RunId)
    ensures Orphaned(Reached(env, repositories, events), id) <==> CutOff(env, repositories, events, id)
  {
    ReachableOK(env, repositories, events);
    OrphansRecorded(env, repositories, events, id);
    OrphansAre(Reached(env, repositories, events), id);
  }

  lemma OrphansAre(w: World, id: RunId)
    requires WorldOK(w)
    ensures Orphaned(w, id) <==> id in w.orphans
  {
  }

  /** An orphaned run stays one for ever: no event finishes it, removes it, or makes it current again. */
  lemma OrphansStay(w: World, e: Event, id: RunId)
    requires WorldOK(w) && Orphaned(w, id)
    ensures Orphaned(Step(w, e), id)
  {
    OrphansAre(w, id);
    OrphansStep(w, e, id);
    StepOK(w, e);
    OrphansAre(Step(w, e), id);
  }

  /** Of the runs whose recovery was not cut off at most one is unfinished, and the lock or the recovery names it. */
  lemma OneRunAtATime(env: string, repositories: Images, events: seq<Event>, a: RunId, b: RunId)
    requires a in Reached(env, repositories, events).dossiers && b in Reached(env, repositories, events).dossiers
    requires !CutOff(env, repositories, events, a) && !CutOff(env, repositories, events, b)
    ensures var w := Reached(env, repositories, events);
      Unfinished(w.dossiers[a]) && Unfinished(w.dossiers[b]) ==>
        a == b && (w.lock == Some(a) || (w.process.Busy? && w.process.act.actor.Recovery? && w.process.act.run.id == a))
  {
    OrphansExactly(env, repositories, events, a);
    OrphansExactly(env, repositories, events, b);
    ReachableOK(env, repositories, events);
  }

  /**
   * When the socket is open and no run executes, there is no lock, and only runs whose recovery was cut off are
   * unfinished.
   */
  lemma IdleIsClean(env: string, repositories: Images, events: seq<Event>, id: RunId)
    requires Reached(env, repositories, events).process.Ready?
    ensures var w := Reached(env, repositories, events);
      w.lock.None? && (id in w.dossiers && Unfinished(w.dossiers[id]) <==> CutOff(env, repositories, events, id))
  {
    OrphansExactly(env, repositories, events, id);
    ReachableOK(env, repositories, events);
  }

  // ---------------------------------------------------------------- install calls

  /** A call that returns a stored run returns one with its own key. */
  lemma OwnKeyReturned(env: string, repositories: Images, events: seq<Event>, c: nat)
    requires c in Reached(env, repositories, events).calls
    ensures var call := Reached(env, repositories, events).calls[c];
      call.state.Returned? ==> call.state.run.idempotencyKey == call.key
  {
    ReachableOK(env, repositories, events);
  }

  /** Some stored run has the key. */
  predicate KeyStored(w: World, key: string) {
    exists id :: id in w.dossiers && w.dossiers[id].record.Some? && w.dossiers[id].record.value.idempotencyKey == key
  }

  /** A lookup returns a stored run with the key whenever there is one; otherwise the call goes on without. */
  lemma LookupExactly(w: World, c: nat, pick: Option<RunId>, drawn: RunId)
    requires Serving(w) && c in w.calls && (w.calls[c].state.Looking? || w.calls[c].state.Retrying?)
    ensures c in Step(w, CallStep(c, pick, drawn)).calls
    ensures var call, next := w.calls[c], Step(w, CallStep(c, pick, drawn)).calls[c];
      && (pick.Some? && pick.value in w.dossiers && w.dossiers[pick.value].record.Some?
          && w.dossiers[pick.value].record.value.idempotencyKey == call.key ==>
            next == call.(state := Returned(w.dossiers[pick.value].record.value)))
      && (KeyStored(w, call.key) && !next.state.Returned? ==> next == call)
      && (!KeyStored(w, call.key) && pick.None? ==>
            next.state == if call.state.Looking? then Reading
              else if call.state.attempt < 9 then Retrying(call.state.attempt + 1) else Rejected(UpdateInProgress))
  {
  }

  /** Runs are created only by a call that finds the lock free. */
  lemma CreationNeedsFreeLock(w: World, e: Event)
    requires Step(w, e).dossiers.Keys != w.dossiers.Keys
    ensures w.lock.None? && e.CallStep? && e.call in w.calls && w.calls[e.call].state.Locking?
    ensures Step(w, e).calls[e.call].state == Created(e.drawn)
    ensures Step(w, e).dossiers.Keys == w.dossiers.Keys + {e.drawn} && e.drawn !in w.dossiers
    ensures var call, w' := w.calls[e.call], Step(w, e);
      && w'.dossiers[e.drawn].origin ==
        Origin(e.drawn, call.key, w.env, call.state.installed, call.target, w.repositories)
      && w'.process.Busy? && IsNew(w'.process.act.run, w'.dossiers[e.drawn].origin) && w'.env == w.env
  {
    if !e.CallStep? { CallsCreate(w, e); }
  }

  /** A PENDING run of the call, about which nothing else is known yet. */
  predicate IsNew(r: UpdateRun, o: Origin) {
    && r.id == o.id && r.idempotencyKey == o.key && r.installed == o.installed && r.target == o.target
    && r.phase == Pending && r.status == Pending && r.startedAt.None? && r.completedAt.None? && r.failure.None?
    && r.rollback == NotRequired && r.snapshot.None? && r.provenance == [] && r.lastSequence == 0
    && !r.cancellationRequested
  }

  // ---------------------------------------------------------------- newer targets

  /** A call goes on to the lock if and only if its target is above the version that `.env` names, if it names one. */
  lemma OnlyUpgrades(w: World, c: nat, pick: Option<RunId>, drawn: RunId)
    requires Serving(w) && c in w.calls && w.calls[c].state == Reading
    ensures var w' := Step(w, CallStep(c, pick, drawn));
      && c in w'.calls
      && w'.calls[c].state ==
        match InstalledVersion(w.env)
        case None => Rejected(EnvUnreadable)
        case Some(v) => if Below(v, w.calls[c].target) then Locking(v) else Rejected(TargetNotNewer)
  {
    if InstalledVersion(w.env).Some? { CompareIsNumeric(w.calls[c].target, InstalledVersion(w.env).value); }
  }

  /** Every run, and every call on its way to the lock, has a target above the version that was read. */
  predicate TargetsAbove(w: World) {
    true <==>
    && (forall id :: id in w.dossiers ==> Below(w.dossiers[id].origin.installed, w.dossiers[id].origin.target))
    && (forall c :: c in w.calls && w.calls[c].state.Locking? ==> Below(w.calls[c].state.installed, w.calls[c].target))
  }

  lemma CallStepAbove(w: World, c: nat, call: Call, pick: Option<RunId>, drawn: RunId)
    requires TargetsAbove(w) && c in w.calls && w.calls[c] == call
    ensures TargetsAbove(StepCall(w, c, call, pick, drawn))
  {
    if call.state.Reading? && InstalledVersion(w.env).Some? {
      CompareIsNumeric(call.target, InstalledVersion(w.env).value);
    }
    OtherCalls(w, c, call, pick, drawn);
  }

  lemma OtherCalls(w: World, c: nat, call: Call, pick: Option<RunId>, drawn: RunId)
    requires c in w.calls && w.calls[c] == call
    ensures forall b :: b in StepCall(w, c, call, pick, drawn).calls && b != c ==>
      b in w.calls && StepCall(w, c, call, pick, drawn).calls[b] == w.calls[b]
  {
  }

  /** No event but a call's step changes where a run comes from. */
  lemma OriginsStay(w: World, e: Event)
    requires !e.CallStep?
    ensures Step(w, e).dossiers.Keys == w.dossiers.Keys
    ensures forall id :: id in w.dossiers ==> Step(w, e).dossiers[id].origin == w.dossiers[id].origin
    ensures forall c :: c in Step(w, e).calls ==>
      (c in w.calls && Step(w, e).calls[c] == w.calls[c]) || Step(w, e).calls[c].state.Looking?
  {
    CallsCreate(w, e);
    match e
    case Proceed(o, now) =>
      if w.process.Busy? && w.process.act.run.id in w.dossiers {
        TickFrame(LocalOf(w, w.process.act), o, now);
        StepIsPut(w, w.process.act, o, now);
      } else if !w.process.Busy? {
        NothingProceeds(w, o, now);
      }
    case _ =>
  }

  lemma StepAbove(w: World, e: Event)
    requires TargetsAbove(w)
    ensures TargetsAbove(Step(w, e))
  {
    if e.CallStep? {
      if Serving(w) && e.call in w.calls { CallStepAbove(w, e.call, w.calls[e.call], e.pick, e.drawn); }
    } else {
      OriginsStay(w, e);
    }
  }

  /** No run leads from a version to the same or an older one. */
  lemma {:induction false} TargetsNewer(env: string, repositories: Images, events: seq<Event>)
    ensures TargetsAbove(Reached(env, repositories, events))
  {
    if events != [] {
      TargetsNewer(env, repositories, events[..|events| - 1]);
      StepAbove(Reached(env, repositories, events[..|events| - 1]), events[|events| - 1]);
    }
  }

  /** Only the steps of calls add runs. */
  lemma CallsCreate(w: World, e: Event)
    requires !e.CallStep?
    ensures Step(w, e).dossiers.Keys == w.dossiers.Keys
  {
    match e
    case Proceed(o, now) => assert Step(w, e).dossiers.Keys == w.dossiers.Keys;
    case Crash => assert Step(w, e).dossiers.Keys == w.dossiers.Keys;
    case CancelRun(id) => assert Step(w, e).dossiers.Keys == w.dossiers.Keys;
    case PruneRuns(ids) => assert Step(w, e).dossiers.Keys == w.dossiers.Keys;
    case _ =>
  }

  /** A call that met a held lock looks up its key ten times and then gives up; it never creates a run. */
  predicate Refused(s: CallState) { s.Retrying? || s.Returned? || s.Rejected? }

  lemma RefusedStaysRefused(w: World, e: Event, c: nat)
    requires c in w.calls && c in Step(w, e).calls && Refused(w.calls[c].state)
    ensures Refused(Step(w, e).calls[c].state) && Step(w, e).calls[c].key == w.calls[c].key
    ensures w.calls[c].state.Retrying? && Step(w, e).calls[c].state.Retrying? && Step(w, e).calls[c] != w.calls[c] ==>
      Step(w, e).calls[c].state.attempt == w.calls[c].state.attempt + 1 < 10
  {
    if e.CallStep? && e.call == c && Serving(w) {
      RefusedSteps(w, c, w.calls[c], e.pick, e.drawn);
    } else {
      OthersUntouched(w, e, c);
    }
  }

  lemma RefusedSteps(w: World, c: nat, call: Call, pick: Option<RunId>, drawn: RunId)
    requires c in w.calls && w.calls[c] == call && Refused(call.state)
    ensures var w' := StepCall(w, c, call, pick, drawn);
      && c in w'.calls && Refused(w'.calls[c].state) && w'.calls[c].key == call.key
      && (call.state.Retrying? && w'.calls[c].state.Retrying? && w'.calls[c] != call
          ==> w'.calls[c].state.attempt == call.state.attempt + 1 < 10)
  {
  }

  lemma OthersUntouched(w: World, e: Event, c: nat)
    requires c in w.calls && !(e.CallStep? && e.call == c && Serving(w))
    ensures c in Step(w, e).calls ==> Step(w, e).calls[c] == w.calls[c]
  {
  }

  /** `n` lookups of a call, none of which finds a run. */
  function Lookups(c: nat, n: nat): seq<Event> { seq(n, i => CallStep(c, None, "")) }

  lemma LookupAgain(w: World, c: nat)
    requires Serving(w) && c in w.calls && w.calls[c].state.Retrying? && KeyUnknown(w, w.calls[c].key)
    ensures var n := w.calls[c].state.attempt;
      Step(w, CallStep(c, None, "")) ==
        SetCall(w, c, w.calls[c], if n + 1 < 10 then Retrying(n + 1) else Rejected(UpdateInProgress))
  {
  }

  /** A call that met a held lock looks for a run with its key ten times, no more and no less, before it is refused. */
  lemma {:induction false} RefusedAfterTen(w: World, c: nat, n: nat)
    requires Serving(w) && c in w.calls && w.calls[c].state == Retrying(0) && KeyUnknown(w, w.calls[c].key) && n <= 10
    ensures Run(w, Lookups(c, n)) ==
      w.(calls := w.calls[c := w.calls[c].(state := if n < 10 then Retrying(n) else Rejected(UpdateInProgress))])
  {
    if n > 0 {
      RefusedAfterTen(w, c, n - 1);
      assert Lookups(c, n)[..n - 1] == Lookups(c, n - 1) && Lookups(c, n)[n - 1] == CallStep(c, None, "");
      LookupAgain(Run(w, Lookups(c, n - 1)), c);
    } else {
      assert w.calls[c := w.calls[c].(state := Retrying(0))] == w.calls;
    }
  }
}
