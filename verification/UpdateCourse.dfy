/** An update that meets no failure completes: the main line, and the recovery, come to an end. */
module UpdateCourse {
  import opened Text
  import opened Versions
  import opened EnvFile
  import opened UpdateDomain
  import opened UpdatePlan
  import opened UpdateProtocol
  import opened UpdateInvariant
  import opened UpdateExecute
  import opened UpdateExecuteAll
  import opened UpdateRecovery

  /** A release that may be installed over `o.installed` in this deployment. */
  predicate Installable(m: ReleaseManifest, o: Origin) {
    true <==>
    && CompareParts(m.version, o.target) == 0 && !m.requiresManualAction && m.policy.GithubProvenanceRequired?
    && CompareParts(o.installed, m.minimumVersion) >= 0 && CompareParts(UPDATER_VERSION, m.minimumUpdaterVersion) >= 0
    && forall s: Service :: m.images.Of(s).repository == o.repositories.Of(s).repository
  }

  /** The answer at each await that lets the update go on. */
  function Smooth(l: Local, m: ReleaseManifest, digest: string): Outcome {
    match l.act.pc
    case At(Fetching) => Fetched(m, digest)
    case At(Inspecting(s)) => Inspected({m.images.Of(s)})
    case _ => Ok
  }

  /** The labels still ahead on the main line. */
  function Ahead(l: Label): nat {
    match l
    case BeginPreflight => 37 case Fetching => 36 case SavingSnapshot => 35 case Validating => 34
    case CheckingHost => 33 case CancelCheckEarly => 32 case BeginBackup => 31 case BackingUp => 30
    case WritingTarget => 29 case BeginPulling => 28 case PullingImages => 27
    case CancelCheckLate => 26 case BeginVerifying => 25
    case CheckingRepository(s) => 24 - 5 * Index(s) case Inspecting(s) => 23 - 5 * Index(s)
    case CheckingPolicy(s) => 22 - 5 * Index(s) case VerifyingImage(s) => 21 - 5 * Index(s)
    case SavingEvidence(s) => 20 - 5 * Index(s)
    case BeginMigrating => 9 case Migrate => 8 case MigrationStatus => 7 case BeginDeploying => 6 case Deploy => 5
    case BeginHealthcheck => 4 case CheckTarget => 3 case Completing => 2 case ReleasingLock => 1 case Done => 0
    case _ => 38
  }

  function Depth(pc: PC): nat {
    match pc case At(_) => 0 case Append(next) => 1 + Depth(next) case Save(next) => 1 + Depth(next)
  }

  function Weight(pc: PC): nat { 5 * Ahead(pc.Goal()) + Depth(pc) }

  /** The awaits after which `execute` looks for a cancellation before it stores the run again. */
  predicate Listening(pc: PC) {
    pc.At? && (pc.here.Validating? || pc.here.CheckingHost? || pc.here.CancelCheckEarly? || pc.here.PullingImages?
      || pc.here.CancelCheckLate?)
  }

  /** No cancellation is asked for, or the request will be stored over before `execute` looks. */
  predicate Deaf(l: Local) { !l.act.run.cancellationRequested && (Requested(l.d) ==> !Listening(l.act.pc)) }

  predicate OnCourse(l: Local, m: ReleaseManifest) {
    true <==>
    && Ahead(l.act.pc.Goal()) <= 37 && Deaf(l) && Installable(m, l.d.origin)
    && (l.act.manifest.Some? ==> l.act.manifest.value == m)
    && (Ahead(l.act.pc.Goal()) <= 1 ==> l.act.run.phase.Completed?)
  }

  /** Where a label leads when nothing fails. */
  function Onward(here: Label): PC {
    match here
    case BeginPreflight => Logged(Fetching) case Fetching => At(SavingSnapshot)
    case SavingSnapshot => Logged(Validating)
    case Validating => At(CheckingHost) case CheckingHost => At(CancelCheckEarly)
    case CancelCheckEarly => At(BeginBackup)
    case BeginBackup => Logged(BackingUp) case BackingUp => Logged(WritingTarget) case WritingTarget => At(BeginPulling)
    case BeginPulling => Logged(PullingImages) case PullingImages => At(CancelCheckLate)
    case CancelCheckLate => At(BeginVerifying) case BeginVerifying => Logged(CheckingRepository(Api))
    case CheckingRepository(s) => At(Inspecting(s)) case Inspecting(s) => At(CheckingPolicy(s))
    case CheckingPolicy(s) => At(VerifyingImage(s)) case VerifyingImage(s) => At(SavingEvidence(s))
    case SavingEvidence(s) => AfterEvidence(s)
    case BeginMigrating => Logged(Migrate) case Migrate => At(MigrationStatus)
    case MigrationStatus => Logged(BeginDeploying)
    case BeginDeploying => Logged(Deploy) case Deploy => At(BeginHealthcheck)
    case BeginHealthcheck => Logged(CheckTarget)
    case CheckTarget => At(Completing) case Completing => Logged(ReleasingLock)
    case _ => At(Done)
  }

  lemma LoggedFacts(l: Label)
    ensures Logged(l).Goal() == l && Depth(Logged(l)) == 2
    ensures LoggedTwice(l).Goal() == l && Depth(LoggedTwice(l)) == 4
  {
    assert Save(At(l)).Goal() == l && Depth(Save(At(l))) == 1;
    assert Append(Save(At(l))).Goal() == l && Depth(Append(Save(At(l)))) == 2;
    assert Save(Append(Save(At(l)))).Goal() == l && Depth(Save(Append(Save(At(l))))) == 3;
  }

  /** The label a pending activity leads to, after at most two log lines. */
  function Target(pc: PC): Label {
    match pc
    case At(l) => l
    case Append(Save(At(l))) => l
    case Append(Save(Append(Save(At(l))))) => l
    case _ => Thrown
  }

  predicate LeadsTo(pc: PC, g: Label) { pc == At(g) || pc == Logged(g) || pc == LoggedTwice(g) }

  lemma OnwardAhead(here: Label)
    requires 0 < Ahead(here) <= 37
    ensures LeadsTo(Onward(here), Target(Onward(here))) && Ahead(Target(Onward(here))) == Ahead(here) - 1
    ensures Ahead(here) <= 2 ==> here.Completing? || here.ReleasingLock?
  {
    if Ahead(here) > 24 { EarlyOnward(here); }
    else if Ahead(here) > 9 { ImagesOnward(here); }
    else { LateOnward(here); }
  }

  lemma EarlyOnward(here: Label)
    requires 24 < Ahead(here) <= 37
    ensures LeadsTo(Onward(here), Target(Onward(here))) && Ahead(Target(Onward(here))) == Ahead(here) - 1
  {
  }

  lemma ImagesOnward(here: Label)
    requires 9 < Ahead(here) <= 24
    ensures LeadsTo(Onward(here), Target(Onward(here))) && Ahead(Target(Onward(here))) == Ahead(here) - 1
  {
  }

  lemma LateOnward(here: Label)
    requires 0 < Ahead(here) <= 9
    ensures LeadsTo(Onward(here), Target(Onward(here))) && Ahead(Target(Onward(here))) == Ahead(here) - 1
    ensures Ahead(here) <= 2 ==> here.Completing? || here.ReleasingLock?
  {
  }

  lemma OnwardDescends(here: Label)
    requires 0 < Ahead(here) <= 37
    ensures Weight(Onward(here)) < Weight(At(here)) && Ahead(Onward(here).Goal()) == Ahead(here) - 1
    ensures Ahead(Onward(here).Goal()) <= 1 ==> here.Completing? || here.ReleasingLock?
  {
    OnwardAhead(here);
    LoggedFacts(Target(Onward(here)));
  }

  // ---------------------------------------------------------------- a request nobody hears

  /** What an effect does to run and record. */
  lemma ApplyFacts(l: Local, e: Effect, now: int)
    ensures var l' := Apply(l, e, now);
      && l'.act.manifest == l.act.manifest && (l'.act.pc == PCOf(e) || l'.act.pc == At(Thrown))
      && (!e.Reloads? ==> l'.act.run.cancellationRequested == l.act.run.cancellationRequested)
      && (l'.d.record == l.d.record || l'.d.record == Some(l'.act.run))
      && (e.Moves? && l'.act.pc != At(Thrown) ==> l'.act.run.phase == e.next)
      && (e.Moves? || e.Saves? ==> l'.act.pc == At(Thrown) || l'.d.record == Some(l'.act.run))
      && (e.Frees? ==> l'.act.run == l.act.run)
  {
  }

  lemma EffectUnheard(l: Local, here: Label)
    requires !Listening(At(here))
    ensures var e := EffectAt(l, here); !e.Reloads? && (e.Moves? || e.Saves? || !Listening(PCOf(e)))
  {
  }

  lemma EffectHeard(l: Local, here: Label)
    ensures EffectAt(l, here).Reloads? ==> Requested(l.d)
  {
    if !Listening(At(here)) { EffectUnheard(l, here); }
  }

  lemma CommandUnheard(l: Local, here: Label, op: Operation, o: Outcome)
    requires OpAt(here, l.act.run) == Some(op) && l.act.pc == At(here)
    ensures var l' := CommandStep(l, here, op, o);
      && l'.act.run.cancellationRequested == l.act.run.cancellationRequested && l'.d.record == l.d.record
      && (!Listening(At(here)) ==> !Listening(l'.act.pc))
  {
    match o
    case Fail(detail) => BrokenUnheard(l.act, here, OtherError(detail));
    case FailWith(code) => BrokenUnheard(l.act, here, code);
    case Inspected(_) => BrokenUnheard(l.act, here, OtherError("DIGEST_MISMATCH"));
    case Ok => if !Listening(At(here)) { SucceedUnheard(here); }
    case _ =>
  }

  lemma BrokenUnheard(a: Activity, here: Label, code: ErrorCode)
    ensures !Listening(BrokenPC(a, here, code))
  {
    CatchUnheard(a, code);
  }

  lemma CatchUnheard(a: Activity, code: ErrorCode)
    ensures !Listening(At(Catch(a, code)))
  {
  }

  lemma SucceedUnheard(here: Label)
    requires !Listening(At(here))
    ensures !Listening(SucceedPC(here))
  {
  }

  /** What will not be heard will not be heard later either. */
  lemma DeafStays(l: Local, o: Outcome, now: int)
    requires Deaf(l) && Shaped(l.act.pc)
    ensures Deaf(Tick(l, o, now))
  {
    match l.act.pc
    case At(here) =>
      TickAt(l, here, o, now);
      if OpAt(here, l.act.run).Some? {
        CommandUnheard(l, here, OpAt(here, l.act.run).value, o);
      } else {
        ApplyFacts(l, EffectAt(l, here), now);
        EffectHeard(l, here);
        if Requested(l.d) { EffectUnheard(l, here); }
      }
    case _ =>
  }

  // ---------------------------------------------------------------- one smooth step

  lemma SmoothCommand(l: Local, here: Label, m: ReleaseManifest, digest: string, op: Operation)
    requires ExecuteOK(l) && OnCourse(l, m) && l.act.pc == At(here) && OpAt(here, l.act.run) == Some(op)
      && 2 < Ahead(here) <= 37
    ensures var l' := CommandStep(l, here, op, Smooth(l, m, digest));
      l'.act.pc == Onward(here) && (l'.act.manifest == l.act.manifest || l'.act.manifest == Some(m))
  {
    CourseManifest(l, m, here);
    match here
    case Fetching => FetchOnward(l, m, digest, op);
    case Inspecting(s) =>
      ManifestAtInspect(l, s);
      InspectOnward(l, m, digest, s, op);
    case VerifyingImage(s) =>
      ManifestAtVerify(l, s);
      VerifyOnward(l, s, op);
    case _ => PlainOnward(l, here, op);
  }

  lemma CourseManifest(l: Local, m: ReleaseManifest, here: Label)
    requires OnCourse(l, m)
    ensures l.act.manifest.Some? ==> l.act.manifest.value == m
  {
  }

  lemma FetchOnward(l: Local, m: ReleaseManifest, digest: string, op: Operation)
    requires l.act.pc == At(Fetching)
    ensures var l' := CommandStep(l, Fetching, op, Smooth(l, m, digest));
      l'.act.pc == Onward(Fetching) && l'.act.manifest == Some(m)
  {
  }

  lemma InspectOnward(l: Local, m: ReleaseManifest, digest: string, s: Service, op: Operation)
    requires l.act.pc == At(Inspecting(s)) && l.act.manifest == Some(m)
    ensures var l' := CommandStep(l, Inspecting(s), op, Smooth(l, m, digest));
      l'.act.pc == Onward(Inspecting(s)) && l'.act.manifest == Some(m)
  {
  }

  lemma VerifyOnward(l: Local, s: Service, op: Operation)
    requires l.act.manifest.Some?
    ensures var l' := CommandStep(l, VerifyingImage(s), op, Ok);
      l'.act.pc == Onward(VerifyingImage(s)) && l'.act.manifest == l.act.manifest
  {
  }

  lemma PlainOnward(l: Local, here: Label, op: Operation)
    requires OpAt(here, l.act.run).Some? && 2 < Ahead(here) <= 37 && !here.Fetching? && !here.Inspecting?
      && !here.VerifyingImage?
    ensures CommandStep(l, here, op, Ok) == Goto(Issue(l, op, Succeeded), Onward(here))
  {
  }

  lemma InstallablePasses(r: UpdateRun, m: ReleaseManifest, o: Origin)
    requires Installable(m, o) && BelongsTo(r, o)
    ensures ValidateCompatibility(r, m).None? && VerificationPolicy(m).None?
  {
  }

  /** What the checks of the main line find. */
  lemma ChecksPass(l: Local, here: Label, m: ReleaseManifest)
    requires ExecuteOK(l) && OnCourse(l, m) && l.act.pc == At(here)
    ensures here.Validating? || here.CheckingRepository? || here.CheckingPolicy? ==> l.act.manifest == Some(m)
    ensures ValidateCompatibility(l.act.run, m).None? && VerificationPolicy(m).None?
    ensures here.WritingTarget? ==> WriteVersion(l.env, l.act.run.target).Some?
    ensures forall s: Service :: m.images.Of(s).repository == l.d.origin.repositories.Of(s).repository
  {
    assert BelongsTo(l.act.run, l.d.origin);
    InstallablePasses(l.act.run, m, l.d.origin);
    if ForwardStage(here).Some? { StandingForward(l, here, ForwardStage(here).value); }
    match here
    case CheckingRepository(s) => VerifyStages(s);
    case CheckingPolicy(s) => VerifyStages(s);
    case _ =>
  }

  lemma SmoothEffect(l: Local, here: Label, m: ReleaseManifest)
    requires Deaf(l) && l.act.pc == At(here) && OpAt(here, l.act.run).None? && 0 < Ahead(here) <= 37
    requires here.Validating? || here.CheckingRepository? || here.CheckingPolicy? ==> l.act.manifest == Some(m)
    requires ValidateCompatibility(l.act.run, m).None? && VerificationPolicy(m).None?
    requires here.WritingTarget? ==> WriteVersion(l.env, l.act.run.target).Some?
    requires forall s: Service :: m.images.Of(s).repository == l.d.origin.repositories.Of(s).repository
    ensures PCOf(EffectAt(l, here)) == Onward(here)
    ensures here.Completing? ==> EffectAt(l, here).Moves? && EffectAt(l, here).next.Completed?
    ensures here.ReleasingLock? ==> EffectAt(l, here).Frees?
  {
  }

  /** Every smooth step leads onward. */
  lemma SmoothStep(l: Local, m: ReleaseManifest, digest: string, now: int)
    requires ExecuteOK(l) && OnCourse(l, m) && l.act.pc.At? && l.act.pc != At(Done)
    ensures var l' := Tick(l, Smooth(l, m, digest), now); var here := l.act.pc.here;
      && l'.act.pc == Onward(here) && (l'.act.manifest.Some? ==> l'.act.manifest.value == m)
      && (here.Completing? || here.ReleasingLock? ==> l'.act.run.phase.Completed?)
  {
    var here := l.act.pc.here;
    AheadHere(l, m, here);
    if OpAt(here, l.act.run).Some? {
      SmoothAnswer(l, here, m, digest, now);
    } else {
      SmoothStorage(l, here, m, Smooth(l, m, digest), now);
    }
  }

  lemma SmoothAnswer(l: Local, here: Label, m: ReleaseManifest, digest: string, now: int)
    requires ExecuteOK(l) && OnCourse(l, m) && l.act.pc == At(here) && OpAt(here, l.act.run).Some?
    requires 0 < Ahead(here) <= 37
    ensures !here.Completing? && !here.ReleasingLock?
    ensures var l' := Tick(l, Smooth(l, m, digest), now);
      l'.act.pc == Onward(here) && (l'.act.manifest == l.act.manifest || l'.act.manifest == Some(m))
  {
    CommandAhead(here, l.act.run);
    TickAt(l, here, Smooth(l, m, digest), now);
    SmoothCommand(l, here, m, digest, OpAt(here, l.act.run).value);
  }

  lemma SmoothStorage(l: Local, here: Label, m: ReleaseManifest, o: Outcome, now: int)
    requires ExecuteOK(l) && OnCourse(l, m) && l.act.pc == At(here) && OpAt(here, l.act.run).None?
    requires 0 < Ahead(here) <= 37
    ensures var l' := Tick(l, o, now);
      && l'.act.pc == Onward(here) && l'.act.manifest == l.act.manifest
      && (here.Completing? || (here.ReleasingLock? && l.act.run.phase.Completed?) ==> l'.act.run.phase.Completed?)
  {
    TickKeeps(l, o, now);
    NotThrown(Tick(l, o, now));
    TickAt(l, here, o, now);
    SmoothInternal(l, here, m, now);
  }

  lemma SmoothInternal(l: Local, here: Label, m: ReleaseManifest, now: int)
    requires ExecuteOK(l) && OnCourse(l, m) && l.act.pc == At(here) && OpAt(here, l.act.run).None?
    requires 0 < Ahead(here) <= 37 && InternalStep(l, here, now).act.pc != At(Thrown)
    ensures var l' := InternalStep(l, here, now);
      && l'.act.pc == Onward(here) && l'.act.manifest == l.act.manifest
      && (here.Completing? || (here.ReleasingLock? && l.act.run.phase.Completed?) ==> l'.act.run.phase.Completed?)
  {
    ChecksPass(l, here, m);
    SmoothEffect(l, here, m);
    ApplyFacts(l, EffectAt(l, here), now);
  }

  lemma AheadHere(l: Local, m: ReleaseManifest, here: Label)
    requires OnCourse(l, m) && l.act.pc == At(here) && !here.Done?
    ensures 0 < Ahead(here) <= 37 && Deaf(l) && (l.act.manifest.Some? ==> l.act.manifest.value == m)
    ensures here.ReleasingLock? ==> l.act.run.phase.Completed?
  {
    assert l.act.pc.Goal() == here;
    NotDoneAhead(here);
  }

  lemma CourseRange(l: Local, m: ReleaseManifest, here: Label)
    requires OnCourse(l, m) && l.act.pc == At(here)
    ensures Ahead(here) <= 37 && l.act.pc.Goal() == here
  {
  }

  lemma CommandAhead(here: Label, run: UpdateRun)
    requires OpAt(here, run).Some? && 0 < Ahead(here) <= 37
    ensures 2 < Ahead(here) && !here.Completing? && !here.ReleasingLock?
  {
  }

  lemma NotThrown(l: Local)
    requires ExecuteOK(l)
    ensures l.act.pc != At(Thrown)
  {
    StaysInside(l);
  }

  lemma SmoothLog(l: Local, m: ReleaseManifest, now: int)
    requires OnCourse(l, m) && !l.act.pc.At? && Deaf(Tick(l, Ok, now))
    ensures OnCourse(Tick(l, Ok, now), m) && Weight(Tick(l, Ok, now).act.pc) < Weight(l.act.pc)
    ensures Tick(l, Ok, now).act.pc.Goal() == l.act.pc.Goal()
  {
  }

  /** Every smooth step keeps the course and comes closer to its end. */
  lemma CourseKept(l: Local, m: ReleaseManifest, digest: string, now: int)
    requires ExecuteOK(l) && OnCourse(l, m) && l.act.pc != At(Done)
    ensures var l' := Tick(l, Smooth(l, m, digest), now);
      && ExecuteOK(l') && OnCourse(l', m) && Weight(l'.act.pc) < Weight(l.act.pc) && l'.d.origin == l.d.origin
      && Ahead(l'.act.pc.Goal()) == Ahead(l.act.pc.Goal()) - (if l.act.pc.At? then 1 else 0)
  {
    var o := Smooth(l, m, digest);
    TickKeeps(l, o, now);
    TickFrame(l, o, now);
    DeafStays(l, o, now);
    match l.act.pc
    case At(here) =>
      SmoothStep(l, m, digest, now);
      NotDoneAhead(here);
      OnwardDescends(here);
      assert l.act.pc.Goal() == here;
    case _ =>
      SmoothLog(l, m, now);
  }

  lemma NotDoneAhead(here: Label)
    requires !here.Done?
    ensures Ahead(here) > 0
  {
  }

  // ---------------------------------------------------------------- whole activities

  /** The awaits of an activity answered one after the other, until it is done. */
  function Ticks(l: Local, answers: seq<Outcome>, now: int): Local
    decreases |answers|
  {
    if answers == [] || l.act.pc == At(Done) then l else Ticks(Tick(l, answers[0], now), answers[1..], now)
  }

  lemma TicksCons(l: Local, o: Outcome, answers: seq<Outcome>, now: int)
    requires l.act.pc != At(Done)
    ensures Ticks(l, [o] + answers, now) == Ticks(Tick(l, o, now), answers, now)
  {
    assert ([o] + answers)[1..] == answers;
  }

  lemma AheadInjective(a: Label, b: Label)
    requires Ahead(a) == Ahead(b) <= 37
    ensures a == b
  {
    AheadRange(a);
    AheadRange(b);
    if 10 <= Ahead(a) <= 24 { ImagesInjective(a, b); } else { PlainInjective(a, b); }
  }

  lemma ImagesInjective(a: Label, b: Label)
    requires 10 <= Ahead(a) == Ahead(b) <= 24
    ensures a == b
  {
  }

  lemma PlainInjective(a: Label, b: Label)
    requires Ahead(a) == Ahead(b) <= 37 && !(10 <= Ahead(a) <= 24)
    ensures a == b
  {
  }

  /** Which labels the numbers stand for. */
  lemma AheadRange(a: Label)
    requires Ahead(a) <= 37
    ensures 10 <= Ahead(a) <= 24
      <==> a.CheckingRepository? || a.Inspecting? || a.CheckingPolicy? || a.VerifyingImage? || a.SavingEvidence?
  {
  }

  predicate Arrived(l: Local, stop: Label) { l.act.pc.At? && Ahead(l.act.pc.here) == Ahead(stop) }

  lemma NotArrived(l: Local, stop: Label)
    requires Ahead(stop) <= Ahead(l.act.pc.Goal()) && !Arrived(l, stop)
    ensures l.act.pc != At(Done) && (l.act.pc.At? ==> Ahead(stop) < Ahead(l.act.pc.Goal()))
  {
  }

  lemma ArrivedAt(l: Local, m: ReleaseManifest, stop: Label)
    requires OnCourse(l, m) && Arrived(l, stop)
    ensures l.act.pc == At(stop)
  {
    CourseRange(l, m, l.act.pc.here);
    AheadInjective(l.act.pc.here, stop);
  }

  /** An update on course reaches every label ahead of it. */
  lemma {:induction false} CourseReaches(l: Local, m: ReleaseManifest, digest: string, now: int, stop: Label)
    returns (answers: seq<Outcome>)
    requires ExecuteOK(l) && OnCourse(l, m) && Ahead(stop) <= Ahead(l.act.pc.Goal())
    ensures var l' := Ticks(l, answers, now);
      l'.act.pc == At(stop) && ExecuteOK(l') && OnCourse(l', m) && l'.d.origin == l.d.origin
    decreases Weight(l.act.pc)
  {
    if Arrived(l, stop) {
      ArrivedAt(l, m, stop);
      answers := [];
    } else {
      var o := Smooth(l, m, digest);
      NotArrived(l, stop);
      CourseKept(l, m, digest, now);
      var rest := CourseReaches(Tick(l, o, now), m, digest, now, stop);
      answers := [o] + rest;
      TicksCons(l, o, rest, now);
    }
  }

  lemma BeginOnCourse(o: Origin, m: ReleaseManifest)
    requires HasVersionLine(o.env) && Installable(m, o)
    ensures ExecuteOK(Begin(o)) && OnCourse(Begin(o), m) && Ahead(Begin(o).act.pc.Goal()) == 37
  {
    BeginOK(o);
    assert Begin(o).act.pc == Save(At(BeginPreflight));
  }

  /** If nothing fails, an update of an installable release completes: the lock is gone and `.env` names the target. */
  lemma RunCompletes(o: Origin, m: ReleaseManifest, digest: string, now: int) returns (answers: seq<Outcome>)
    requires HasVersionLine(o.env) && Installable(m, o)
    ensures var l := Ticks(Begin(o), answers, now);
      && l.act.pc == At(Done) && !l.locked && l.d.origin == o && l.env == NewText(l.d)
      && l.d.record.Some? && l.d.record.value.phase.Completed?
  {
    BeginOnCourse(o, m);
    answers := CourseCompletes(Begin(o), m, digest, now);
  }

  lemma NothingAhead(here: Label)
    ensures Ahead(Done) <= Ahead(here)
  {
  }

  lemma CourseCompletes(l: Local, m: ReleaseManifest, digest: string, now: int) returns (answers: seq<Outcome>)
    requires ExecuteOK(l) && OnCourse(l, m)
    ensures var l' := Ticks(l, answers, now);
      && l'.act.pc == At(Done) && !l'.locked && l'.d.origin == l.d.origin && l'.env == NewText(l'.d)
      && l'.d.record.Some? && l'.d.record.value.phase.Completed?
  {
    NothingAhead(l.act.pc.Goal());
    answers := CourseReaches(l, m, digest, now, Done);
    CompletedEnd(Ticks(l, answers, now), m);
  }

  lemma CompletedEnd(l: Local, m: ReleaseManifest)
    requires ExecuteOK(l) && OnCourse(l, m) && l.act.pc == At(Done)
    ensures l.d.record.Some? && l.d.record.value.phase.Completed? && l.env == NewText(l.d) && !l.locked
  {
    ExecuteEnd(l);
    ResumableNow(l);
  }

  // ---------------------------------------------------------------- the recovery ends

  function RecoverAhead(l: Label): nat {
    match l
    case RecoverEnv => 2 case RecoverMigration => 2 case RecoverTarget => 2 case RecoverOld => 2
    case RecoverDeployment => 2
    case RecoverFail => 1 case RecoverComplete => 1 case RecoverRolledBack => 1 case RecoverManual(_) => 1
    case _ => 0
  }

  function RecoverWeight(pc: PC): nat { 3 * RecoverAhead(pc.Goal()) + Depth(pc) }

  /** An operation answers: it succeeds or it fails. */
  predicate Answered(o: Outcome) { o.Ok? || o.Fail? }

  lemma RecoverDescends(l: Local, o: Outcome, now: int)
    requires RecoverOK(l) && Answered(o) && l.act.pc != At(Done)
    ensures RecoverWeight(Tick(l, o, now).act.pc) < RecoverWeight(l.act.pc)
  {
    match l.act.pc
    case At(here) =>
      TickAt(l, here, o, now);
      match OpAt(here, l.act.run) {
      case Some(op) => RecoverAsks(l, here, op, o);
      case None => RecoverLeads(l, here, now);
      }
    case _ =>
  }

  lemma RecoverAsks(l: Local, here: Label, op: Operation, o: Outcome)
    requires RecoverOK(l) && Answered(o) && l.act.pc == At(here) && OpAt(here, l.act.run) == Some(op)
    ensures RecoverWeight(CommandStep(l, here, op, o).act.pc) < RecoverWeight(At(here))
  {
    AsksInRecovery(l, here);
    RecoverAnswered(l, here, op, o);
  }

  lemma AsksInRecovery(l: Local, here: Label)
    requires RecoverOK(l) && l.act.pc == At(here) && OpAt(here, l.act.run).Some?
    ensures here.RecoverMigration? || here.RecoverTarget? || here.RecoverOld? || here.RecoverDeployment?
  {
  }

  lemma RecoverAnswered(l: Local, here: Label, op: Operation, o: Outcome)
    requires here.RecoverMigration? || here.RecoverTarget? || here.RecoverOld? || here.RecoverDeployment?
    requires Answered(o)
    ensures RecoverWeight(CommandStep(l, here, op, o).act.pc) < RecoverWeight(At(here))
  {
    if o.Ok? { AnswerSucceeds(here); } else { AnswerBreaks(l.act, here, OtherError(o.detail)); }
  }

  lemma AnswerSucceeds(here: Label)
    requires here.RecoverMigration? || here.RecoverTarget? || here.RecoverOld? || here.RecoverDeployment?
    ensures RecoverWeight(SucceedPC(here)) < RecoverWeight(At(here))
  {
  }

  lemma AnswerBreaks(a: Activity, here: Label, code: ErrorCode)
    requires here.RecoverMigration? || here.RecoverTarget? || here.RecoverOld? || here.RecoverDeployment?
    ensures RecoverWeight(BrokenPC(a, here, code)) < RecoverWeight(At(here))
  {
  }

  lemma RecoverLeads(l: Local, here: Label, now: int)
    requires RecoverOK(l) && l.act.pc == At(here) && !here.Done? && OpAt(here, l.act.run).None?
    ensures RecoverWeight(InternalStep(l, here, now).act.pc) < RecoverWeight(At(here))
  {
    LoggedFacts(Done);
    RecoveryStores(l, here);
    if here.RecoverEnv? { RecoverEnvLeads(l, now); } else { RecoverMoves(l, here, now); }
  }

  lemma RecoveryStores(l: Local, here: Label)
    requires RecoverOK(l) && l.act.pc == At(here) && !here.Done? && OpAt(here, l.act.run).None?
    ensures here.RecoverEnv? || here.RecoverFail? || here.RecoverComplete? || here.RecoverRolledBack?
      || here.RecoverManual?
  {
  }

  lemma RecoverEnvLeads(l: Local, now: int)
    requires RecoverOK(l) && l.act.pc == At(RecoverEnv)
    ensures InternalStep(l, RecoverEnv, now).act.pc == At(RecoverFail)
  {
    InstalledWritten(l);
  }

  lemma RecoverMoves(l: Local, here: Label, now: int)
    requires RecoverOK(l) && l.act.pc == At(here)
      && (here.RecoverFail? || here.RecoverComplete? || here.RecoverRolledBack? || here.RecoverManual?)
    ensures InternalStep(l, here, now).act.pc == Logged(Done)
  {
    var failure := if here.RecoverFail? then Some(RestartSafeToRetry) else if here.RecoverComplete? then None
      else if here.RecoverRolledBack? then Some(RestartRollbackRecovered) else Some(here.code);
    var next := if here.RecoverComplete? then Completed else if here.RecoverManual? then ManualIntervention else Failed;
    RecoveryEndFits(l.act.run, l.d, l.env, here, next, failure);
  }

  lemma RecoveryHasWay(l: Local)
    requires RecoverOK(l)
    ensures RecoverWeight(l.act.pc) <= 6 && (RecoverWeight(l.act.pc) == 0 ==> l.act.pc == At(Done))
  {
    match l.act.pc
    case At(here) =>
    case _ => LoggedFacts(Done);
  }

  /** A recovery whose operations all answer comes to its end, whatever they answer. */
  lemma {:induction false} RecoveryEnds(l: Local, answers: seq<Outcome>, now: int)
    requires RecoverOK(l) && RecoverWeight(l.act.pc) <= |answers|
    requires forall i :: 0 <= i < |answers| ==> Answered(answers[i])
    ensures Ticks(l, answers, now).act.pc == At(Done) && RecoverOK(Ticks(l, answers, now))
    decreases |answers|
  {
    RecoveryHasWay(l);
    if l.act.pc != At(Done) {
      RecoverDescends(l, answers[0], now);
      RecoverTick(l, answers[0], now);
      RecoveryEnds(Tick(l, answers[0], now), answers[1..], now);
    }
  }
}
