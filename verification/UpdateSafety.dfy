/** What every reachable world satisfies, whatever calls, failures, cancellations, crashes and restarts led to it. */
module UpdateSafety {
  import opened Text
  import opened Versions
  import opened EnvFile
  import opened UpdateDomain
  import opened UpdatePlan
  import opened UpdateProtocol
  import opened UpdateInvariant
  import opened UpdateExecuteAll
  import opened UpdateRecovery
  import opened UpdateWorld

  // ---------------------------------------------------------------- one activity, executing or recovering

  predicate Live(l: Local) {
    true <==>
    (if l.act.actor.Executor? then ExecuteOK(l) else RecoverOK(l))
  }

  /**
   * The stored phase bounds `.env`; a recovery that has written the installed version may not have saved FAILED
   * yet.
   */
  predicate Bounded(d: Dossier, env: string) {
    true <==>
    (if d.record.None? then d.history == [] ==> env == d.origin.env
    else
      || EnvBounds(d.record.value, d, env)
      || (Early(d.record.value.phase) && env == Rewritten(d.origin, d.origin.installed)))
  }

  lemma LiveStep(l: Local, o: Outcome, now: int)
    requires Live(l)
    ensures Live(Tick(l, o, now))
    ensures Tick(l, o, now).d.origin == l.d.origin && Tick(l, o, now).act.actor == l.act.actor
  {
    TickFrame(l, o, now);
    if l.act.actor.Executor? { TickKeeps(l, o, now); } else { RecoverTick(l, o, now); }
  }

  lemma LiveFacts(l: Local)
    requires Live(l)
    ensures DossierOK(l.d) && Bounded(l.d, l.env) && (l.d.record.Some? || l.d.history == [])
    ensures l.act.run.id == l.d.origin.id
  {
    if l.act.actor.Executor? { ExecuteFacts(l); } else { RecoverFacts(l); }
  }

  lemma ExecuteFacts(l: Local)
    requires ExecuteOK(l)
    ensures DossierOK(l.d) && Bounded(l.d, l.env) && (l.d.record.Some? || l.d.history == [])
    ensures l.act.run.id == l.d.origin.id
  {
    ResumableNow(l);
  }

  lemma RecoverFacts(l: Local)
    requires RecoverOK(l)
    ensures DossierOK(l.d) && Bounded(l.d, l.env) && l.d.record.Some?
    ensures l.act.run.id == l.d.origin.id
  {
    RecoverBounded(l);
  }

  lemma RecoverBounded(l: Local)
    requires RecoverOK(l)
    ensures Bounded(l.d, l.env)
  {
    assert EnvBounds(l.act.run, l.d, l.env)
      || (Early(l.act.run.phase) && l.env == Rewritten(l.d.origin, l.d.origin.installed));
  }

  lemma LiveEnd(l: Local)
    requires Live(l)
    ensures l.act.pc == At(Done) ==> !l.locked && !Unfinished(l.d)
    ensures l.act.pc != At(Done) && l.act.actor.Executor? ==> l.locked
  {
    if l.act.pc == At(Done) && l.act.actor.Executor? { ExecuteEnd(l); }
  }

  // ---------------------------------------------------------------- the world

  predicate DossiersOK(dossiers: map<RunId, Dossier>) {
    true <==>
    (forall id :: id in dossiers ==> DossierOK(dossiers[id]) && dossiers[id].origin.id == id)
  }

  /** The process: what it works on is in order, and the lock names it. */
  predicate ProcessOK(w: World) {
    true <==>
    (match w.process
    case Down => w.lock.Some? ==> w.lock.value in w.dossiers && Resumable(w.dossiers[w.lock.value], w.env)
    case Ready => w.lock.None?
    case Busy(a) =>
      && a.run.id in w.dossiers && Live(LocalOf(w, a)) && a.pc != At(Done)
      && w.lock == (if a.actor.Executor? then Some(a.run.id) else None))
  }

  /** A run is unfinished exactly while it is the current one, or when its recovery was cut off. */
  predicate RunsOK(w: World) {
    true <==>
    && (forall id :: id in w.dossiers && Unfinished(w.dossiers[id]) ==> Current(w) == Some(id) || id in w.orphans)
    && (forall id :: id in w.orphans ==> id in w.dossiers && Unfinished(w.dossiers[id]) && Current(w) != Some(id))
  }

  predicate CallOK(w: World, c: Call) {
    && (c.state.Returned? ==> c.state.run.idempotencyKey == c.key)
    && (c.state.Locking? ==> HasVersionLine(w.env))
  }

  predicate CallsOK(w: World) {
    true <==>
    && (!Serving(w) ==> w.calls == map[])
    && forall c :: c in w.calls ==> CallOK(w, w.calls[c])
  }

  /** The run that took the lock last bounds `.env`, from its first moment until the next run takes the lock. */
  predicate LatestOK(w: World) {
    true <==>
    (match w.latest
    case None => w.dossiers == map[] && w.lock.None?
    case Some(id) =>
      && id in w.dossiers && Bounded(w.dossiers[id], w.env) && HasVersionLine(w.env)
      && (Current(w).Some? ==> Current(w) == Some(id)))
  }

  /** The invariant of the updater. */
  predicate WorldOK(w: World) {
    true <==>
    && DossiersOK(w.dossiers) && ProcessOK(w) && RunsOK(w) && CallsOK(w) && LatestOK(w)
  }

  lemma BootOK(env: string, repositories: Images)
    ensures WorldOK(Boot(env, repositories))
  {
  }

  // ---------------------------------------------------------------- calls

  /** Only the calls changed. */
  lemma CallsOnly(w: World, c: nat, call: Call)
    requires WorldOK(w) && Serving(w) && CallOK(w, call)
    ensures WorldOK(w.(calls := w.calls[c := call]))
  {
    CallsProcess(w, w.calls[c := call]);
    CallsRest(w, w.calls[c := call]);
  }

  lemma CallsProcess(w: World, calls: map<nat, Call>)
    requires ProcessOK(w)
    ensures ProcessOK(w.(calls := calls))
  {
    match w.process
    case Busy(a) => assert LocalOf(w.(calls := calls), a) == LocalOf(w, a);
    case _ =>
  }

  lemma CallsRest(w: World, calls: map<nat, Call>)
    requires RunsOK(w) && LatestOK(w)
    ensures RunsOK(w.(calls := calls)) && LatestOK(w.(calls := calls))
  {
    assert Current(w.(calls := calls)) == Current(w);
  }

  lemma LookupOK(w: World, c: nat, call: Call, pick: Option<RunId>, missing: CallState)
    requires WorldOK(w) && Serving(w) && !missing.Returned? && !missing.Locking?
    ensures WorldOK(Lookup(w, c, call, pick, missing))
  {
    match pick
    case Some(id) =>
      if id in w.dossiers && HasKey(w.dossiers[id], call.key) {
        CallsOnly(w, c, call.(state := Returned(w.dossiers[id].record.value)));
      }
    case None => CallsOnly(w, c, call.(state := missing));
  }

  lemma ReadingOK(w: World, c: nat, call: Call)
    requires WorldOK(w) && Serving(w) && call.state.Reading?
    ensures WorldOK(StepCall(w, c, call, None, ""))
  {
    match InstalledVersion(w.env)
    case None => CallsOnly(w, c, call.(state := Rejected(EnvUnreadable)));
    case Some(v) =>
      InstalledHasLine(w.env);
      CallsOnly(w, c,
        call.(state := if CompareParts(call.target, v) <= 0 then Rejected(TargetNotNewer) else Locking(v)));
  }

  /** A run begins: the lock was free, so nothing else is current. */
  lemma TakeLockOK(w: World, c: nat, call: Call, installed: Version, id: RunId)
    requires WorldOK(w) && w.process.Ready? && id !in w.dossiers && HasVersionLine(w.env) && w.lock.None?
    ensures WorldOK(TakeLock(w, c, call, installed, id))
  {
    var w' := TakeLock(w, c, call, installed, id);
    TakeLockProcess(w, c, call, installed, id);
    TakeLockRuns(w, w', id);
    TakeLockCalls(w, c, call, installed, id);
  }

  lemma TakeLockProcess(w: World, c: nat, call: Call, installed: Version, id: RunId)
    requires HasVersionLine(w.env) && DossiersOK(w.dossiers)
    ensures ProcessOK(TakeLock(w, c, call, installed, id)) && DossiersOK(TakeLock(w, c, call, installed, id).dossiers)
    ensures LatestOK(TakeLock(w, c, call, installed, id))
  {
    var o := Origin(id, call.key, w.env, installed, call.target, w.repositories);
    var w' := TakeLock(w, c, call, installed, id);
    BeginOK(o);
    assert LocalOf(w', w'.process.act) == Begin(o);
    LiveFacts(Begin(o));
  }

  lemma TakeLockCalls(w: World, c: nat, call: Call, installed: Version, id: RunId)
    requires CallsOK(w) && Serving(w)
    ensures CallsOK(TakeLock(w, c, call, installed, id))
  {
  }

  lemma TakeLockRuns(w: World, w': World, id: RunId)
    requires RunsOK(w) && Current(w).None? && id !in w.dossiers && id in w'.dossiers
      && w'.dossiers == w.dossiers[id := w'.dossiers[id]]
    requires Current(w') == Some(id) && w'.orphans == w.orphans
    ensures RunsOK(w')
  {
  }

  lemma StepCallOK(w: World, c: nat, pick: Option<RunId>, drawn: RunId)
    requires WorldOK(w) && Serving(w) && c in w.calls
    ensures WorldOK(StepCall(w, c, w.calls[c], pick, drawn))
  {
    var call := w.calls[c];
    match call.state
    case Looking => LookupOK(w, c, call, pick, Reading);
    case Reading => ReadingOK(w, c, call);
    case Locking(v) =>
      if w.lock.Some? { CallsOnly(w, c, call.(state := Retrying(0))); }
      else if drawn !in w.dossiers && w.process.Ready? { TakeLockOK(w, c, call, v, drawn); }
    case Retrying(n) => LookupOK(w, c, call, pick, if n + 1 < 10 then Retrying(n + 1) else Rejected(UpdateInProgress));
    case _ =>
  }

  // ---------------------------------------------------------------- steps of the activity

  lemma LineOf(d: Dossier, env: string)
    requires DossierOK(d) && Bounded(d, env) && (d.record.Some? || d.history == [])
    ensures HasVersionLine(env)
  {
    RewrittenHasLine(d.origin, d.origin.target);
    RewrittenHasLine(d.origin, d.origin.installed);
    ThreeTexts(d, env);
  }

  lemma RewrittenHasLine(o: Origin, v: Version)
    requires HasVersionLine(o.env)
    ensures HasVersionLine(Rewritten(o, v))
  {
    WriteOverrides(o.env, v, v);
  }

  /** `.env` is the text found at the lock, or that text with the target's or the installed version. */
  lemma ThreeTexts(d: Dossier, env: string)
    requires Bounded(d, env) && (d.record.Some? || d.history == [])
    ensures env == d.origin.env || env == NewText(d) || env == Rewritten(d.origin, d.origin.installed)
  {
  }

  lemma ProceedProcess(w: World, a: Activity, o: Outcome, now: int)
    requires WorldOK(w) && w.process == Busy(a)
    ensures ProcessOK(Put(w, a.run.id, Tick(LocalOf(w, a), o, now)))
  {
    var l, l' := LocalOf(w, a), Tick(LocalOf(w, a), o, now);
    LiveFacts(l);
    LiveStep(l, o, now);
    LiveFacts(l');
    LiveEnd(l');
    assert l'.act.run.id == a.run.id;
    if l'.act.pc != At(Done) { assert LocalOf(Put(w, a.run.id, l'), l'.act) == l'; }
  }

  /** What a step of the activity leaves, seen from the world. */
  lemma ProceedFacts(w: World, a: Activity, o: Outcome, now: int) returns (l': Local)
    requires WorldOK(w) && w.process == Busy(a)
    ensures l' == Tick(LocalOf(w, a), o, now)
    ensures DossierOK(l'.d) && l'.d.origin.id == a.run.id && l'.act.actor == a.actor
    ensures Bounded(l'.d, l'.env) && HasVersionLine(l'.env)
    ensures l'.act.run.id == a.run.id && l'.locked == (a.actor.Executor? && l'.act.pc != At(Done))
    ensures l'.act.pc == At(Done) ==> !Unfinished(l'.d)
    ensures w.latest == Some(a.run.id)
  {
    var l := LocalOf(w, a);
    l' := Tick(l, o, now);
    LiveFacts(l);
    LiveStep(l, o, now);
    LiveFacts(l');
    LiveEnd(l');
    LineOf(l'.d, l'.env);
    if a.actor.Recovery? { assert !l'.locked; }
  }

  lemma ProceedRuns(w: World, a: Activity, l': Local)
    requires RunsOK(w) && w.process == Busy(a) && a.run.id in w.dossiers && Current(w) == Some(a.run.id)
    requires l'.act.run.id == a.run.id && (l'.locked ==> l'.act.pc != At(Done))
      && (l'.act.pc == At(Done) ==> !Unfinished(l'.d))
    ensures RunsOK(Put(w, a.run.id, l'))
  {
    assert a.run.id !in w.orphans;
  }

  lemma ProceedOK(w: World, o: Outcome, now: int)
    requires WorldOK(w) && w.process.Busy?
    ensures WorldOK(Put(w, w.process.act.run.id, Tick(LocalOf(w, w.process.act), o, now)))
  {
    ProceedProcess(w, w.process.act, o, now);
    var l' := ProceedFacts(w, w.process.act, o, now);
    ProceedRuns(w, w.process.act, l');
    ProceedRest(w, w.process.act, l');
  }

  lemma ProceedRest(w: World, a: Activity, l': Local)
    requires DossiersOK(w.dossiers) && CallsOK(w) && w.process == Busy(a) && w.latest == Some(a.run.id)
    requires DossierOK(l'.d) && l'.d.origin.id == a.run.id && l'.act.actor == a.actor && l'.act.run.id == a.run.id
    requires Bounded(l'.d, l'.env) && HasVersionLine(l'.env)
    ensures var w' := Put(w, a.run.id, l'); DossiersOK(w'.dossiers) && CallsOK(w') && LatestOK(w')
  {
  }

  // ---------------------------------------------------------------- cancellation and pruning

  lemma CancelFacts(d: Dossier, env: string)
    requires DossierOK(d)
    ensures DossierOK(Cancel(d)) && Cancel(d).origin == d.origin && Unfinished(Cancel(d)) == Unfinished(d)
    ensures Bounded(d, env) ==> Bounded(Cancel(d), env)
  {
    CancelDossier(d);
  }

  /** A cancellation reaches the record of any run, current or not, in a cancellable phase. */
  lemma CancelOK(w: World, id: RunId)
    requires WorldOK(w) && Serving(w) && id in w.dossiers
    ensures WorldOK(w.(dossiers := w.dossiers[id := Cancel(w.dossiers[id])]))
  {
    CancelProcess(w, id);
    CancelRest(w, id);
  }

  lemma CancelRest(w: World, id: RunId)
    requires DossiersOK(w.dossiers) && RunsOK(w) && CallsOK(w) && LatestOK(w) && id in w.dossiers
    ensures var w' := w.(dossiers := w.dossiers[id := Cancel(w.dossiers[id])]);
      DossiersOK(w'.dossiers) && RunsOK(w') && CallsOK(w') && LatestOK(w')
  {
    var d := Cancel(w.dossiers[id]);
    CancelFacts(w.dossiers[id], w.env);
    RunsReplaced(w, id, d);
    LatestReplaced(w, id, d);
    CallsReplaced(w, id, d);
  }

  lemma CallsReplaced(w: World, id: RunId, d: Dossier)
    requires CallsOK(w)
    ensures CallsOK(w.(dossiers := w.dossiers[id := d]))
  {
  }

  lemma RunsReplaced(w: World, id: RunId, d: Dossier)
    requires RunsOK(w) && id in w.dossiers && Unfinished(d) == Unfinished(w.dossiers[id])
    ensures RunsOK(w.(dossiers := w.dossiers[id := d]))
  {
  }

  lemma LatestReplaced(w: World, id: RunId, d: Dossier)
    requires LatestOK(w) && id in w.dossiers && (Bounded(w.dossiers[id], w.env) ==> Bounded(d, w.env))
    ensures LatestOK(w.(dossiers := w.dossiers[id := d]))
  {
  }

  lemma CancelProcess(w: World, id: RunId)
    requires ProcessOK(w) && Serving(w) && id in w.dossiers
    ensures ProcessOK(w.(dossiers := w.dossiers[id := Cancel(w.dossiers[id])]))
  {
    var w' := w.(dossiers := w.dossiers[id := Cancel(w.dossiers[id])]);
    match w.process
    case Busy(a) =>
      if id == a.run.id {
        CancelKeeps(LocalOf(w, a));
        assert LocalOf(w', a) == LocalOf(w, a).(d := Cancel(LocalOf(w, a).d));
      } else {
        assert LocalOf(w', a) == LocalOf(w, a);
      }
    case _ =>
  }

  /** Pruning removes records of finished runs other than the current one. */
  lemma PruneOK(w: World, ids: set<RunId>)
    requires WorldOK(w) && Serving(w)
    ensures WorldOK(Prune(w, ids))
  {
    PruneProcess(w, ids);
    PruneRunsOK(w, ids);
    PruneDossiers(w, ids);
    PruneLatest(w, ids);
  }

  lemma PruneProcess(w: World, ids: set<RunId>)
    requires ProcessOK(w) && Serving(w)
    ensures ProcessOK(Prune(w, ids))
  {
    match w.process
    case Busy(a) => assert LocalOf(Prune(w, ids), a) == LocalOf(w, a);
    case _ =>
  }

  lemma PruneRunsOK(w: World, ids: set<RunId>)
    requires RunsOK(w)
    ensures RunsOK(Prune(w, ids))
  {
    assert Current(Prune(w, ids)) == Current(w);
  }

  lemma PruneDossiers(w: World, ids: set<RunId>)
    requires DossiersOK(w.dossiers)
    ensures DossiersOK(Prune(w, ids).dossiers)
  {
  }

  lemma PruneLatest(w: World, ids: set<RunId>)
    requires LatestOK(w) && DossiersOK(w.dossiers)
    ensures LatestOK(Prune(w, ids))
  {
    assert Current(Prune(w, ids)) == Current(w);
  }

  // ---------------------------------------------------------------- crash and restart

  lemma ExecutorCrash(w: World, a: Activity)
    requires WorldOK(w) && w.process == Busy(a) && a.actor.Executor?
    ensures var d := AfterCrash(LocalOf(w, a));
      Resumable(d, w.env) && DossierOK(d) && CrashFrame(w.dossiers[a.run.id], d)
  {
    CrashKeeps(LocalOf(w, a));
  }

  lemma RecoveryCrash(w: World, a: Activity)
    requires WorldOK(w) && w.process == Busy(a) && a.actor.Recovery?
    ensures var d := AfterCrash(LocalOf(w, a)); DossierOK(d) && CrashFrame(w.dossiers[a.run.id], d)
  {
    RecoverCrash(LocalOf(w, a));
  }

  /** A crash changes nothing but the trace. */
  predicate CrashFrame(d: Dossier, d': Dossier) { d' == d.(trace := d'.trace) }

  lemma BoundedFrame(d: Dossier, d': Dossier, env: string)
    requires CrashFrame(d, d') && Bounded(d, env)
    ensures Bounded(d', env)
  {
  }

  lemma DieOK(w: World)
    requires WorldOK(w)
    ensures WorldOK(Die(w))
  {
    match w.process
    case Busy(a) => DieBusy(w, a);
    case _ => DieIdle(w);
  }

  lemma DieIdle(w: World)
    requires WorldOK(w) && !w.process.Busy?
    ensures WorldOK(Die(w))
  {
    var w' := w.(calls := map[], process := Down);
    assert Die(w) == w' && ProcessOK(w') && Current(w') == Current(w);
    IdleFrame(w, w');
  }

  lemma IdleFrame(w: World, w': World)
    requires RunsOK(w) && LatestOK(w) && Current(w') == Current(w)
    requires w' == w.(calls := map[], process := Down)
    ensures RunsOK(w') && CallsOK(w') && LatestOK(w')
  {
  }

  lemma DieBusy(w: World, a: Activity)
    requires WorldOK(w) && w.process == Busy(a)
    ensures WorldOK(Die(w))
  {
    var d := AfterCrash(LocalOf(w, a));
    if a.actor.Executor? { ExecutorCrash(w, a); } else { RecoveryCrash(w, a); }
    DieFacts(w, a);
    BoundedFrame(w.dossiers[a.run.id], d, w.env);
    DieRuns(w, a);
    DieLatest(w, a, d);
    DieRest(w, a, d);
  }

  lemma DieFacts(w: World, a: Activity)
    requires ProcessOK(w) && LatestOK(w) && w.process == Busy(a)
    ensures a.run.id in w.dossiers && Current(w) == Some(a.run.id)
      && w.lock == (if a.actor.Executor? then Some(a.run.id) else None)
    ensures Bounded(w.dossiers[a.run.id], w.env)
  {
  }

  lemma DieRest(w: World, a: Activity, d: Dossier)
    requires DossiersOK(w.dossiers) && w.process == Busy(a) && a.run.id in w.dossiers && d == AfterCrash(LocalOf(w, a))
    requires DossierOK(d) && CrashFrame(w.dossiers[a.run.id], d)
    requires w.lock == (if a.actor.Executor? then Some(a.run.id) else None)
      && (a.actor.Executor? ==> Resumable(d, w.env))
    ensures DossiersOK(Die(w).dossiers) && CallsOK(Die(w)) && ProcessOK(Die(w))
  {
  }

  lemma DieLatest(w: World, a: Activity, d: Dossier)
    requires LatestOK(w) && w.process == Busy(a) && a.run.id in w.dossiers && Current(w) == Some(a.run.id)
    requires d == AfterCrash(LocalOf(w, a)) && Bounded(d, w.env) && (w.lock.Some? ==> w.lock == Some(a.run.id))
    ensures LatestOK(Die(w))
  {
  }

  lemma DieRuns(w: World, a: Activity)
    requires RunsOK(w) && w.process == Busy(a) && a.run.id in w.dossiers && Current(w) == Some(a.run.id)
    requires w.lock == (if a.actor.Executor? then Some(a.run.id) else None)
    requires CrashFrame(w.dossiers[a.run.id], AfterCrash(LocalOf(w, a)))
    ensures RunsOK(Die(w))
  {
  }

  lemma InitializeOK(w: World)
    requires WorldOK(w) && w.process.Down?
    ensures WorldOK(Initialize(w))
  {
    if w.lock.Some? && Unfinished(w.dossiers[w.lock.value]) { ResumedOK(w, w.lock.value); } else { NothingToResume(w); }
  }

  /** The recovery of the run the lock named. */
  lemma ResumedOK(w: World, id: RunId)
    requires WorldOK(w) && w.process.Down? && w.lock == Some(id) && Unfinished(w.dossiers[id])
    ensures WorldOK(Initialize(w))
  {
    var r := w.dossiers[id].record.value;
    var l := Resume(w.dossiers[id], w.env, r);
    StoredIsOwn(w, id);
    ResumeOK(w.dossiers[id], w.env, r);
    var w' := w.(lock := None, process := Busy(l.act));
    assert LocalOf(w', l.act) == l;
    RestartFrame(w, Busy(l.act));
  }

  lemma StoredIsOwn(w: World, id: RunId)
    requires WorldOK(w) && w.process.Down? && w.lock == Some(id) && Unfinished(w.dossiers[id])
    ensures w.dossiers[id].record.value.id == id && Resumable(w.dossiers[id], w.env)
  {
  }

  lemma RestartFrame(w: World, p: Process)
    requires WorldOK(w) && w.process.Down? && !p.Down?
    requires var w' := w.(lock := None, process := p);
      Current(w') == if w.lock.Some? && Unfinished(w.dossiers[w.lock.value]) then w.lock else None
    ensures var w' := w.(lock := None, process := p); RunsOK(w') && CallsOK(w') && LatestOK(w')
  {
  }

  lemma NothingToResume(w: World)
    requires WorldOK(w) && w.process.Down? && (w.lock.Some? ==> !Unfinished(w.dossiers[w.lock.value]))
    ensures WorldOK(Initialize(w))
  {
    RestartFrame(w, Ready);
    assert Initialize(w) == w.(lock := None, process := Ready);
  }

  // ---------------------------------------------------------------- every reachable world

  lemma StepOK(w: World, e: Event)
    requires WorldOK(w)
    ensures WorldOK(Step(w, e))
  {
    match e
    case Arrive(c, key, target) => ArriveStep(w, c, key, target);
    case CallStep(c, pick, drawn) => CallStepOK(w, c, pick, drawn);
    case CancelRun(id) => CancelStep(w, id);
    case PruneRuns(ids) => PruneStep(w, ids);
    case Proceed(o, now) => ProceedStep(w, o, now);
    case Crash => CrashStep(w);
    case Restart => RestartStep(w);
  }

  lemma ArriveStep(w: World, c: nat, key: string, target: Version)
    requires WorldOK(w)
    ensures WorldOK(Step(w, Arrive(c, key, target)))
  {
    if Serving(w) && c !in w.calls { CallsOnly(w, c, Call(key, target, Looking)); }
  }

  lemma CallStepOK(w: World, c: nat, pick: Option<RunId>, drawn: RunId)
    requires WorldOK(w)
    ensures WorldOK(Step(w, CallStep(c, pick, drawn)))
  {
    if Serving(w) && c in w.calls { StepCallOK(w, c, pick, drawn); }
  }

  lemma CancelStep(w: World, id: RunId)
    requires WorldOK(w)
    ensures WorldOK(Step(w, CancelRun(id)))
  {
    CancelIs(w, id);
    if Serving(w) && id in w.dossiers { CancelOK(w, id); }
  }

  lemma CancelIs(w: World, id: RunId)
    ensures Step(w, CancelRun(id)) ==
      if Serving(w) && id in w.dossiers then w.(dossiers := w.dossiers[id := Cancel(w.dossiers[id])]) else w
  {
  }

  lemma PruneStep(w: World, ids: set<RunId>)
    requires WorldOK(w)
    ensures WorldOK(Step(w, PruneRuns(ids)))
  {
    if Serving(w) { PruneOK(w, ids); }
  }

  lemma ProceedStep(w: World, o: Outcome, now: int)
    requires WorldOK(w)
    ensures WorldOK(Step(w, Proceed(o, now)))
  {
    if w.process.Busy? {
      LiveNow(w, w.process.act);
      ProceedOK(w, o, now);
      StepIsPut(w, w.process.act, o, now);
    } else {
      NothingProceeds(w, o, now);
    }
  }

  lemma LiveNow(w: World, a: Activity)
    requires WorldOK(w) && w.process == Busy(a)
    ensures a.run.id in w.dossiers && Live(LocalOf(w, a))
  {
  }

  lemma StepIsPut(w: World, a: Activity, o: Outcome, now: int)
    requires w.process == Busy(a) && a.run.id in w.dossiers
    ensures Step(w, Proceed(o, now)) == Put(w, a.run.id, Tick(LocalOf(w, a), o, now))
  {
  }

  lemma NothingProceeds(w: World, o: Outcome, now: int)
    requires !w.process.Busy?
    ensures Step(w, Proceed(o, now)) == w
  {
  }

  lemma CrashStep(w: World)
    requires WorldOK(w)
    ensures WorldOK(Step(w, Crash))
  {
    DieOK(w);
  }

  lemma RestartStep(w: World)
    requires WorldOK(w)
    ensures WorldOK(Step(w, Restart))
  {
    if w.process.Down? { InitializeOK(w); }
  }

  /** The invariant holds in every reachable world. */
  lemma {:induction false} ReachableOK(env: string, repositories: Images, events: seq<Event>)
    ensures WorldOK(Run(Boot(env, repositories), events))
  {
    if events == [] {
      BootOK(env, repositories);
    } else {
      ReachableOK(env, repositories, events[..|events| - 1]);
      StepOK(Run(Boot(env, repositories), events[..|events| - 1]), events[|events| - 1]);
    }
  }
}
