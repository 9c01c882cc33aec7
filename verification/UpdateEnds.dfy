/** Every run comes to an end: a measure that every final answer lowers. */
module UpdateEnds {
  import opened Text
  import opened UpdateDomain
  import opened UpdatePlan
  import opened UpdateProtocol
  import opened UpdateInvariant
  import opened UpdateExecuteAll
  import opened UpdateCourse

  // ---------------------------------------------------------------- every run ends

  /**
   * An answer after which the await is over: the operation succeeded or failed, the release lookup with whatever
   * code; a chunk of output is not one.
   */
  predicate Final(l: Local, o: Outcome) {
    match l.act.pc
    case At(here) =>
      OpAt(here, l.act.run).Some? ==>
        o.Fail? || (if here.Fetching? then o.Fetched? || (o.FailWith? && !o.code.CancelledError?)
                    else if here.Inspecting? then o.Inspected? else o.Ok?)
    case _ => true
  }

  /** A chunk of output from a streaming command. */
  predicate Chunk(l: Local, o: Outcome) { l.act.pc.At? && Streams(l.act.pc.here) && o.Output? }

  /** An answer that the await can have. */
  predicate Fits(l: Local, o: Outcome) { Final(l, o) || Chunk(l, o) }

  predicate AllFit(l: Local, answers: seq<Outcome>, now: int)
    decreases |answers|
  {
    answers != [] && l.act.pc != At(Done) ==> Fits(l, answers[0]) && AllFit(Tick(l, answers[0], now), answers[1..], now)
  }

  /** How many of the answers are chunks of output. */
  function Chunks(l: Local, answers: seq<Outcome>, now: int): nat
    decreases |answers|
  {
    if answers == [] || l.act.pc == At(Done) then 0
    else (if Chunk(l, answers[0]) then 1 else 0) + Chunks(Tick(l, answers[0], now), answers[1..], now)
  }

  /** The labels still ahead on any way through `execute`. */
  function Left(l: Label): nat {
    match l
    case Done => 0 case Thrown => 0 case ReleasingLock => 1
    case FailingNow(_) => 2 case Maintenance(_) => 2 case FailingUnsafe(_) => 2 case RollbackFailing => 2
    case RollbackDone(_) => 2
    case RestoringEnv(_) => 3 case RollbackCheck(_) => 3 case RollbackUp(_) => 4 case RollbackEnv(_) => 5
    case RollbackBegin(_) => 6
    case Raising(_) => 7 case Cancelling => 8 case CancelRestoring => 9
    case _ => 10 + Ahead(l)
  }

  function LeftWeight(pc: PC): nat { 5 * Left(pc.Goal()) + Depth(pc) }

  lemma CloserDescends(pc: PC, here: Label)
    requires LeadsTo(pc, Target(pc)) && Left(Target(pc)) < Left(here)
    ensures LeftWeight(pc) < LeftWeight(At(here))
  {
    LoggedFacts(Target(pc));
  }

  /** Comes closer to the end. */
  predicate Closer(pc: PC, here: Label) { LeadsTo(pc, Target(pc)) && Left(Target(pc)) < Left(here) }

  lemma CatchLeft(a: Activity, code: ErrorCode)
    ensures Left(Catch(a, code)) <= 6 && Left(Raising(code)) == 7
  {
    var c := Catch(a, code);
    assert c.ReleasingLock? || c.Maintenance? || c.RollbackBegin? || c.FailingUnsafe? || c.RestoringEnv?
      || c.FailingNow?;
  }

  lemma CommandCloser(l: Local, here: Label, op: Operation, o: Outcome)
    requires l.act.pc == At(here) && OpAt(here, l.act.run) == Some(op) && !OutsideExecute(here) && Final(l, o)
    requires here.Inspecting? || here.VerifyingImage? ==> l.act.manifest.Some?
    ensures Closer(CommandStep(l, here, op, o).act.pc, here)
  {
    if o.Fail? { BrokenCloser(l.act, here, OtherError(o.detail)); }
    else if o.FailWith? { BrokenCloser(l.act, here, o.code); }
    else if here.Inspecting? { InspectCloser(l, here.s, op, o); }
    else if !here.Fetching? && !here.VerifyingImage? { SucceedCloser(here, l.act.run); }
  }

  lemma InspectCloser(l: Local, s: Service, op: Operation, o: Outcome)
    requires l.act.manifest.Some? && o.Inspected?
    ensures Closer(CommandStep(l, Inspecting(s), op, o).act.pc, Inspecting(s))
  {
    CatchLeft(l.act, OtherError("DIGEST_MISMATCH"));
  }

  lemma SucceedCloser(here: Label, run: UpdateRun)
    requires OpAt(here, run).Some? && !OutsideExecute(here) && !here.Fetching? && !here.Inspecting?
      && !here.VerifyingImage?
    ensures Closer(SucceedPC(here), here)
  {
  }

  lemma BrokenCloser(a: Activity, here: Label, code: ErrorCode)
    requires OpAt(here, a.run).Some? && !OutsideExecute(here)
    ensures Closer(BrokenPC(a, here, code), here)
  {
    if here.RollbackUp? || here.RollbackCheck? || here.VerifyingImage? { ElsewhereCloser(a, here, code); }
    else { AsksEarly(here, a.run); CatchCloser(a, code, here); }
  }

  lemma AsksEarly(here: Label, run: UpdateRun)
    requires OpAt(here, run).Some? && !OutsideExecute(here) && !here.RollbackUp? && !here.RollbackCheck?
    ensures Left(here) > 6
  {
  }

  /** Operations whose failure does not lead straight to the catch block. */
  lemma ElsewhereCloser(a: Activity, here: Label, code: ErrorCode)
    requires here.RollbackUp? || here.RollbackCheck? || here.VerifyingImage?
    ensures Closer(BrokenPC(a, here, code), here)
  {
  }

  /** The awaits of the main line that may leave it. */
  predicate Branches(here: Label) {
    || here.Validating? || here.CancelCheckEarly? || here.CancelCheckLate? || here.CancelRestoring?
        || here.WritingTarget?
    || here.CheckingRepository? || here.CheckingPolicy?
  }

  lemma EffectCloser(l: Local, here: Label)
    requires OpAt(here, l.act.run).None? && !OutsideExecute(here) && !here.Done?
    ensures Closer(PCOf(EffectAt(l, here)), here)
  {
    if Branches(here) { BranchCloser(l, here); }
    else if Left(here) > 10 { MainCloser(l, here); }
    else if Left(here) == 2 { FinalCloser(l, here); }
    else { EndCloser(l, here); }
  }

  lemma BranchCloser(l: Local, here: Label)
    requires Branches(here)
    ensures Closer(PCOf(EffectAt(l, here)), here)
  {
    if here.Validating? || here.CheckingRepository? || here.CheckingPolicy? { CheckCloser(l, here); }
    else if here.WritingTarget? { TargetCloser(l); }
  }

  lemma TargetCloser(l: Local)
    ensures Closer(PCOf(EffectAt(l, WritingTarget)), WritingTarget)
  {
    CatchLeft(l.act.(originalEnv := l.env), OtherError("CURRENT_VERSION_MISSING"));
  }

  lemma CheckCloser(l: Local, here: Label)
    requires here.Validating? || here.CheckingRepository? || here.CheckingPolicy?
    ensures Closer(PCOf(EffectAt(l, here)), here)
  {
    match here
    case Validating => ValidationCloser(l);
    case CheckingRepository(s) => RepositoryCloser(l, s);
    case CheckingPolicy(s) => PolicyCloser(l, s);
  }

  lemma ValidationCloser(l: Local)
    ensures Closer(PCOf(EffectAt(l, Validating)), Validating)
  {
    if l.act.manifest.Some? && ValidateCompatibility(l.act.run, l.act.manifest.value).Some? {
      CatchLeft(l.act, ValidateCompatibility(l.act.run, l.act.manifest.value).value);
    }
  }

  lemma RepositoryCloser(l: Local, s: Service)
    ensures Closer(PCOf(EffectAt(l, CheckingRepository(s))), CheckingRepository(s))
  {
    CatchCloser(l.act, OtherError("REPOSITORY_MISMATCH"), CheckingRepository(s));
    InspectingCloser(s);
    RepositoryPlaces(l, s);
  }

  lemma InspectingCloser(s: Service)
    ensures Closer(At(Inspecting(s)), CheckingRepository(s)) && Closer(At(Thrown), CheckingRepository(s))
  {
  }

  lemma RepositoryPlaces(l: Local, s: Service)
    ensures PCOf(EffectAt(l, CheckingRepository(s))) == At(Catch(l.act, OtherError("REPOSITORY_MISMATCH")))
      || PCOf(EffectAt(l, CheckingRepository(s))) == At(Inspecting(s))
      || PCOf(EffectAt(l, CheckingRepository(s))) == At(Thrown)
  {
  }

  lemma CatchCloser(a: Activity, code: ErrorCode, here: Label)
    requires Left(here) > 6
    ensures Closer(At(Catch(a, code)), here)
  {
    CatchLeft(a, code);
  }

  lemma PolicyCloser(l: Local, s: Service)
    ensures Closer(PCOf(EffectAt(l, CheckingPolicy(s))), CheckingPolicy(s))
  {
  }

  lemma MainCloser(l: Local, here: Label)
    requires OpAt(here, l.act.run).None? && !Branches(here) && !OutsideExecute(here) && Left(here) > 10
    ensures Closer(PCOf(EffectAt(l, here)), here)
  {
    StraightOn(l, here);
    OnwardAhead(here);
  }

  lemma StraightOn(l: Local, here: Label)
    requires OpAt(here, l.act.run).None? && !Branches(here) && !OutsideExecute(here) && Left(here) > 10
    ensures PCOf(EffectAt(l, here)) == Onward(here) && 1 < Ahead(here) <= 37
  {
  }

  /** The awaits that store how the run ended. */
  lemma FinalCloser(l: Local, here: Label)
    requires Left(here) == 2
    ensures Closer(PCOf(EffectAt(l, here)), here)
  {
    if here.FailingNow? || here.FailingUnsafe? { FailureCloser(l, here); }
  }

  lemma FailureCloser(l: Local, here: Label)
    requires here.FailingNow? || here.FailingUnsafe?
    ensures Closer(PCOf(EffectAt(l, here)), here)
  {
  }

  lemma EndCloser(l: Local, here: Label)
    requires OpAt(here, l.act.run).None? && !Branches(here) && !OutsideExecute(here) && 0 < Left(here) <= 10
      && Left(here) != 2
    ensures Closer(PCOf(EffectAt(l, here)), here)
  {
    if here.Raising? { RaisingCloser(l, here.code); }
    else if here.RollbackBegin? || here.RollbackEnv? { RollbackCloser(l, here); }
  }

  lemma RollbackCloser(l: Local, here: Label)
    requires here.RollbackBegin? || here.RollbackEnv?
    ensures Closer(PCOf(EffectAt(l, here)), here)
  {
  }

  lemma RaisingCloser(l: Local, code: ErrorCode)
    ensures Closer(PCOf(EffectAt(l, Raising(code))), Raising(code))
  {
    CatchLeft(l.act, code);
  }

  lemma LeftDescends(l: Local, o: Outcome, now: int)
    requires ExecuteOK(l) && l.act.pc != At(Done) && Final(l, o)
    ensures LeftWeight(Tick(l, o, now).act.pc) < LeftWeight(l.act.pc)
  {
    match l.act.pc
    case At(here) =>
      StaysInside(l);
      TickKeeps(l, o, now);
      NotThrown(Tick(l, o, now));
      TickAt(l, here, o, now);
      if OpAt(here, l.act.run).Some? {
        if here.Inspecting? { ManifestAtInspect(l, here.s); }
        if here.VerifyingImage? { ManifestAtVerify(l, here.s); }
        CommandCloser(l, here, OpAt(here, l.act.run).value, o);
      } else {
        EffectCloser(l, here);
        ApplyFacts(l, EffectAt(l, here), now);
      }
      CloserDescends(Tick(l, o, now).act.pc, here);
    case _ =>
  }

  /** A chunk of output is logged, and the same await comes again. */
  lemma ChunkLogged(l: Local, o: Outcome, now: int)
    requires ExecuteOK(l) && Chunk(l, o)
    ensures LeftWeight(Tick(l, o, now).act.pc) == LeftWeight(l.act.pc) + 2 && l.act.pc != At(Done)
  {
    ChunkGoes(l, l.act.pc.here, o, now);
    LoggedFacts(l.act.pc.here);
  }

  lemma ChunkGoes(l: Local, here: Label, o: Outcome, now: int)
    requires l.act.pc == At(here) && Streams(here) && o.Output?
    ensures Tick(l, o, now) == Goto(l, Logged(here))
  {
    TickAt(l, here, o, now);
  }

  /**
   * Whatever its operations answer and however much they print, a run that is not interrupted ends: in a final phase,
   * with the lock released. A chunk of output takes three awaits, its own and those of its log line.
   */
  lemma {:induction false} EveryRunEnds(l: Local, answers: seq<Outcome>, now: int)
    requires ExecuteOK(l) && AllFit(l, answers, now)
    requires LeftWeight(l.act.pc) + 3 * Chunks(l, answers, now) <= |answers|
    ensures var l' := Ticks(l, answers, now);
      && l'.act.pc == At(Done) && ExecuteOK(l') && !l'.locked
      && l'.d.record.Some? && Terminal(l'.d.record.value.phase)
    decreases |answers|
  {
    if l.act.pc == At(Done) {
      ExecuteEnd(l);
    } else {
      if answers == [] { NotYetDone(l); }
      if Chunk(l, answers[0]) { ChunkLogged(l, answers[0], now); } else { LeftDescends(l, answers[0], now); }
      TickKeeps(l, answers[0], now);
      EveryRunEnds(Tick(l, answers[0], now), answers[1..], now);
    }
  }

  lemma NotYetDone(l: Local)
    requires ExecuteOK(l) && l.act.pc != At(Done)
    ensures LeftWeight(l.act.pc) > 0
  {
    if l.act.pc.At? {
      StaysInside(l);
      SomeLeft(l.act.pc.here);
    }
  }

  lemma SomeLeft(here: Label)
    requires !here.Done? && !OutsideExecute(here)
    ensures Left(here) > 0
  {
  }
}
