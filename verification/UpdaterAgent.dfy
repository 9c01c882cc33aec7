/**
 * `execute` as the program it is: an object with the run's files and the variables of the running update, changed
 * await by await. What answers at each await is given: the outcome of the operation in progress, the time, and whether
 * another request cancels the run meanwhile. Every method is tied to the machine of `UpdateProtocol` under the same
 * answers, so at each await the object holds exactly what the machine holds.
 */
module UpdaterAgent {
  import opened Text
  import opened Versions
  import opened EnvFile
  import opened UpdateDomain
  import opened UpdatePlan
  import opened UpdateProtocol
  import opened UpdateInvariant
  import opened UpdateExecute
  import opened UpdateExecuteAll

  // ---------------------------------------------------------------- the machine under given answers

  datatype Answer = Answer(outcome: Outcome, now: int, cancel: bool)

  /** An outcome the operation at `here` cannot have counts as a failure. */
  function Fitted(here: Label, o: Outcome): Outcome {
    if o.Fail? then o
    else if here.Fetching? then if o.Fetched? || (o.FailWith? && !o.code.CancelledError?) then o else Fail("")
    else if here.Inspecting? then if o.Inspected? then o else Fail("")
    else if o.Ok? || (o.Output? && Streams(here)) then o else Fail("")
  }

  function Heard(pc: PC, o: Outcome): Outcome { if pc.At? then Fitted(pc.here, o) else o }

  /** One await: the answer arrives, and perhaps a cancellation. */
  function Beat(l: Local, a: Answer): Local {
    var l' := Tick(l, Heard(l.act.pc, a.outcome), a.now);
    if a.cancel then l'.(d := Cancel(l'.d)) else l'
  }

  /** State `i` of a list of states is the start of a run, or what the answer before it made of the state before it. */
  predicate Plays(past: seq<Local>, answers: nat -> Answer, i: nat)
    requires i < |past|
  {
    if i == 0 then past[0] == Begin(past[0].d.origin) && HasVersionLine(past[0].d.origin.env)
    else past[i] == Beat(past[i - 1], answers(i - 1))
  }

  /** The states are those of the machine under the answers, from the start of a run on. */
  ghost predicate Played(past: seq<Local>, answers: nat -> Answer) {
    true <==>
    && past != []
    && forall i: nat {:trigger Plays(past, answers, i)} :: i < |past| ==> Plays(past, answers, i)
  }

  /** The last of them satisfies the invariant, as all did before it. */
  lemma {:induction false} PlayedOK(past: seq<Local>, answers: nat -> Answer)
    requires Played(past, answers)
    ensures ExecuteOK(Last(past))
  {
    if |past| > 1 {
      PlayedBefore(past, answers);
      PlayedOK(past[..|past| - 1], answers);
      BeatOK(Last(past[..|past| - 1]), answers(|past| - 2));
    } else {
      StartOK(past, answers);
    }
  }

  lemma PlayedBefore(past: seq<Local>, answers: nat -> Answer)
    requires Played(past, answers) && |past| > 1
    ensures Played(past[..|past| - 1], answers)
    ensures Last(past) == Beat(Last(past[..|past| - 1]), answers(|past| - 2))
  {
    var before := past[..|past| - 1];
    forall i: nat | i < |before| ensures Plays(before, answers, i) {
      assert Plays(past, answers, i);
    }
    assert Plays(past, answers, |past| - 1);
  }

  lemma StartOK(past: seq<Local>, answers: nat -> Answer)
    requires Played(past, answers) && |past| == 1
    ensures ExecuteOK(Last(past))
  {
    assert Plays(past, answers, 0);
    BeginOK(past[0].d.origin);
  }

  lemma BeatOK(l: Local, a: Answer)
    requires ExecuteOK(l)
    ensures ExecuteOK(Beat(l, a))
  {
    TickKeeps(l, Heard(l.act.pc, a.outcome), a.now);
    CancelKeeps(Tick(l, Heard(l.act.pc, a.outcome), a.now));
  }

  lemma PlayOn(past: seq<Local>, answers: nat -> Answer)
    requires Played(past, answers)
    ensures Played(past + [Beat(Last(past), answers(|past| - 1))], answers)
  {
    var more := past + [Beat(Last(past), answers(|past| - 1))];
    forall i: nat | i < |more| ensures Plays(more, answers, i) {
      if i < |past| { assert Plays(past, answers, i); }
    }
  }

  predicate Ceases(answers: nat -> Answer, i: nat, k: nat) { !answers(i + 3 * k).outcome.Output? }

  /** The output of every command comes to an end; a chunk takes three awaits, its own and those of its log line. */
  ghost predicate Quiet(answers: nat -> Answer) { forall i: nat :: Ceasing(answers, i) }

  ghost predicate Ceasing(answers: nat -> Answer, i: nat) { exists k: nat :: Ceases(answers, i, k) }

  // ---------------------------------------------------------------- what a program can see of the machine

  datatype View = View(record: Option<UpdateRun>, events: seq<LogEvent>, env: string, locked: bool,
    issued: seq<Entry>, act: Activity)

  function ViewOf(l: Local): View { View(l.d.record, l.d.events, l.env, l.locked, l.d.trace, l.act) }

  /** The record after a cancellation. */
  function Flagged(record: Option<UpdateRun>): Option<UpdateRun> {
    if record.Some? && CanCancel(record.value.phase) then Some(record.value.(cancellationRequested := true)) else record
  }

  function EffectView(v: View, e: Effect, now: int): View
    requires e.Moves? ==> CanMove(v.act.run.phase, e.next)
  {
    match e
    case Moves(next, failure, rollback, pc) =>
      var run := Updated(v.act.run, next, now, failure, rollback);
      v.(record := Some(run), act := v.act.(run := run, pc := pc))
    case Saves(pc) => v.(record := Some(v.act.run), act := v.act.(pc := pc))
    case Goes(pc) => v.(act := v.act.(pc := pc))
    case Checks(result, pc) => Ended(v, CheckCompatibility, result, pc)
    case Reloads(run, pc) => v.(act := v.act.(run := run, pc := pc))
    case Writes(text, kept, pc) => v.(env := text, act := v.act.(originalEnv := kept, pc := pc))
    case Frees => v.(locked := false, act := v.act.(pc := At(Done)))
  }

  /** An operation has ended. */
  function Ended(v: View, op: Operation, result: Result, pc: PC): View {
    v.(issued := v.issued + [Entry(v.act.actor, op, v.env, result)], act := v.act.(pc := pc))
  }

  lemma UpdatedFacts(run: UpdateRun, next: Phase, now: int)
    ensures CanMove(run.phase, next) ==>
      var r := Updated(run, next, now, None, None);
      r.phase == next && r.target == run.target && r.installed == run.installed && r.lastSequence == run.lastSequence
  {
  }

  lemma MoveView(l: Local, next: Phase, now: int, failure: Option<ErrorCode>, rollback: Option<RollbackStatus>, pc: PC)
    requires CanMove(l.act.run.phase, next)
    ensures ViewOf(Move(l, next, now, failure, rollback, pc)) ==
      EffectView(ViewOf(l), Moves(next, failure, rollback, pc), now)
  {
  }

  lemma ApplyView(l: Local, e: Effect, now: int)
    requires e.Moves? ==> CanMove(l.act.run.phase, e.next)
    ensures ViewOf(Apply(l, e, now)) == EffectView(ViewOf(l), e, now)
  {
    if e.Moves? { MoveView(l, e.next, now, e.failure, e.rollback, e.pc); }
  }

  /** A refused transition would throw; the invariant rules that out. */
  lemma MoveAllowed(l: Local, here: Label, now: int)
    requires ExecuteOK(l) && l.act.pc == At(here) && OpAt(here, l.act.run).None? && EffectAt(l, here).Moves?
    ensures CanMove(l.act.run.phase, EffectAt(l, here).next)
  {
    TickAt(l, here, Ok, now);
    TickKeeps(l, Ok, now);
    StaysInside(Tick(l, Ok, now));
    var e := EffectAt(l, here);
    if !CanMove(l.act.run.phase, e.next) { RefusedThrows(l, e, now); }
  }

  lemma RefusedThrows(l: Local, e: Effect, now: int)
    requires e.Moves? && !CanMove(l.act.run.phase, e.next)
    ensures Apply(l, e, now).act.pc.Goal() == Thrown
  {
  }

  /** An await on the updater's own files. */
  lemma EffectTick(l: Local, here: Label, o: Outcome, now: int)
    requires ExecuteOK(l) && l.act.pc == At(here) && OpAt(here, l.act.run).None?
    ensures EffectAt(l, here).Moves? ==> CanMove(l.act.run.phase, EffectAt(l, here).next)
    ensures ViewOf(Tick(l, o, now)) == EffectView(ViewOf(l), EffectAt(l, here), now)
  {
    TickAt(l, here, o, now);
    if EffectAt(l, here).Moves? { MoveAllowed(l, here, now); }
    ApplyView(l, EffectAt(l, here), now);
  }

  /** An operation that breaks, or succeeds with nothing to bring back. */
  function PlainView(v: View, here: Label, op: Operation, o: Outcome): View {
    match o
    case Output => v.(act := v.act.(pc := Logged(here)))
    case Ok => Ended(v, op, Succeeded, SucceedPC(here))
    case Fail(detail) => Ended(v, op, Broke, BrokenPC(v.act, here, OtherError(detail)))
    case FailWith(code) => Ended(v, op, Broke, BrokenPC(v.act, here, code))
    case _ => v
  }

  lemma PlainTick(l: Local, here: Label, op: Operation, o: Outcome, now: int)
    requires l.act.pc == At(here) && OpAt(here, l.act.run) == Some(op) && Fitted(here, o) == o
    requires o.Output? || o.Fail? || o.FailWith? || (o.Ok? && !here.VerifyingImage?)
    ensures ViewOf(Tick(l, o, now)) == PlainView(ViewOf(l), here, op, o)
  {
    TickAt(l, here, o, now);
  }

  /** The record with a release. */
  function WithRelease(run: UpdateRun, m: ReleaseManifest, digest: string): UpdateRun {
    run.(snapshot := Some(m), provenance := [Provenance(ManifestFile, digest)],
         rollback := if RollbackAllowed(m) then Available else Unsafe)
  }

  /** The release has arrived. */
  function Received(v: View, m: ReleaseManifest, digest: string): View {
    var w := Ended(v, FetchRelease, Succeeded, At(SavingSnapshot));
    w.(act := w.act.(manifest := Some(m), run := WithRelease(w.act.run, m, digest)))
  }

  lemma FetchTick(l: Local, m: ReleaseManifest, digest: string, now: int)
    requires l.act.pc == At(Fetching)
    ensures ViewOf(Tick(l, Fetched(m, digest), now)) == Received(ViewOf(l), m, digest)
  {
    TickAt(l, Fetching, Fetched(m, digest), now);
  }

  /** The digests of a pulled image have been compared. */
  function Compared(v: View, s: Service, found: bool): View {
    if found then Ended(v, InspectImage(s), Succeeded, At(CheckingPolicy(s)))
    else Ended(v, InspectImage(s), Broke, At(Catch(v.act, OtherError("DIGEST_MISMATCH"))))
  }

  lemma InspectTick(l: Local, s: Service, images: set<Image>, now: int)
    requires ExecuteOK(l) && l.act.pc == At(Inspecting(s))
    ensures l.act.manifest.Some?
    ensures ViewOf(Tick(l, Inspected(images), now)) ==
      Compared(ViewOf(l), s, l.act.manifest.value.images.Of(s) in images)
  {
    ManifestAtInspect(l, s);
    InspectView(l, s, images, now);
  }

  lemma InspectView(l: Local, s: Service, images: set<Image>, now: int)
    requires l.act.pc == At(Inspecting(s)) && l.act.manifest.Some?
    ensures ViewOf(Tick(l, Inspected(images), now)) ==
      Compared(ViewOf(l), s, l.act.manifest.value.images.Of(s) in images)
  {
    TickAt(l, Inspecting(s), Inspected(images), now);
  }

  /** The record with one more provenance result. */
  function WithResult(run: UpdateRun, s: Service, m: ReleaseManifest): UpdateRun {
    run.(provenance := run.provenance + [Provenance(ServiceImage(s), m.images.Of(s).digest)])
  }

  /** The provenance of an image has been verified. */
  function Proven(v: View, s: Service, m: ReleaseManifest): View {
    var w := Ended(v, VerifyProvenance(s), Succeeded, At(SavingEvidence(s)));
    w.(act := w.act.(run := WithResult(w.act.run, s, m)))
  }

  lemma VerifyTick(l: Local, s: Service, now: int)
    requires ExecuteOK(l) && l.act.pc == At(VerifyingImage(s))
    ensures l.act.manifest.Some? && ViewOf(Tick(l, Ok, now)) == Proven(ViewOf(l), s, l.act.manifest.value)
  {
    ManifestAtVerify(l, s);
    VerifyView(l, s, now);
  }

  lemma VerifyView(l: Local, s: Service, now: int)
    requires l.act.pc == At(VerifyingImage(s)) && l.act.manifest.Some?
    ensures ViewOf(Tick(l, Ok, now)) == Proven(ViewOf(l), s, l.act.manifest.value)
  {
    TickAt(l, VerifyingImage(s), Ok, now);
  }

  /** An event has been appended. */
  function Appended(v: View, next: PC): View {
    var run := v.act.run.(lastSequence := v.act.run.lastSequence + 1);
    v.(events := v.events + [LogEvent(run.lastSequence, run.phase)], act := v.act.(run := run, pc := next))
  }

  lemma AppendTick(l: Local, next: PC, o: Outcome, now: int)
    requires l.act.pc == Append(next)
    ensures ViewOf(Tick(l, o, now)) == Appended(ViewOf(l), next)
  {
  }

  lemma SaveTick(l: Local, next: PC, o: Outcome, now: int)
    requires l.act.pc == Save(next)
    ensures ViewOf(Tick(l, o, now)) == EffectView(ViewOf(l), Saves(next), 0)
  {
  }

  function MaybeFlag(v: View, cancel: bool): View { if cancel then v.(record := Flagged(v.record)) else v }

  lemma BeatView(l: Local, a: Answer)
    ensures ViewOf(Beat(l, a)) == MaybeFlag(ViewOf(Tick(l, Heard(l.act.pc, a.outcome), a.now)), a.cancel)
    ensures Beat(l, a).d.origin == l.d.origin
  {
    TickFrame(l, Heard(l.act.pc, a.outcome), a.now);
  }

  /** The machine's next state, and what it shows. */
  lemma Next(past: seq<Local>, answers: nat -> Answer, shown: View) returns (l': Local)
    requires Played(past, answers)
    requires var a, l := answers(|past| - 1), Last(past); ViewOf(Tick(l, Heard(l.act.pc, a.outcome), a.now)) == shown
    ensures Played(past + [l'], answers) && l'.d.origin == Last(past).d.origin
    ensures ViewOf(l') == MaybeFlag(shown, answers(|past| - 1).cancel)
  {
    l' := Beat(Last(past), answers(|past| - 1));
    BeatView(Last(past), answers(|past| - 1));
    PlayOn(past, answers);
  }

  lemma NextEffect(past: seq<Local>, answers: nat -> Answer, here: Label) returns (l': Local)
    requires Played(past, answers) && Last(past).act.pc == At(here) && OpAt(here, Last(past).act.run).None?
    ensures Played(past + [l'], answers) && l'.d.origin == Last(past).d.origin
    ensures var e, a := EffectAt(Last(past), here), answers(|past| - 1);
      && (e.Moves? ==> CanMove(Last(past).act.run.phase, e.next))
      && ViewOf(l') == MaybeFlag(EffectView(ViewOf(Last(past)), e, a.now), a.cancel)
  {
    var a := answers(|past| - 1);
    PlayedOK(past, answers);
    EffectTick(Last(past), here, Heard(At(here), a.outcome), a.now);
    l' := Next(past, answers, EffectView(ViewOf(Last(past)), EffectAt(Last(past), here), a.now));
  }

  lemma NextPlain(past: seq<Local>, answers: nat -> Answer, here: Label, op: Operation) returns (l': Local)
    requires Played(past, answers) && Last(past).act.pc == At(here) && OpAt(here, Last(past).act.run) == Some(op)
    requires var o := Fitted(here, answers(|past| - 1).outcome);
      o.Output? || o.Fail? || o.FailWith? || (o.Ok? && !here.VerifyingImage?)
    ensures Played(past + [l'], answers) && l'.d.origin == Last(past).d.origin
    ensures var a := answers(|past| - 1);
      ViewOf(l') == MaybeFlag(PlainView(ViewOf(Last(past)), here, op, Fitted(here, a.outcome)), a.cancel)
  {
    var a := answers(|past| - 1);
    PlainTick(Last(past), here, op, Fitted(here, a.outcome), a.now);
    l' := Next(past, answers, PlainView(ViewOf(Last(past)), here, op, Fitted(here, a.outcome)));
  }

  /** The compatibility check passes or throws its code. */
  function Checked(v: View, m: ReleaseManifest): View {
    match ValidateCompatibility(v.act.run, m)
    case None => Ended(v, CheckCompatibility, Succeeded, At(CheckingHost))
    case Some(code) => Ended(v, CheckCompatibility, Broke, At(Catch(v.act, code)))
  }

  lemma NextValidated(past: seq<Local>, answers: nat -> Answer) returns (l': Local)
    requires Played(past, answers) && Last(past).act.pc == At(Validating) && Last(past).act.manifest.Some?
    ensures Played(past + [l'], answers) && l'.d.origin == Last(past).d.origin
    ensures ViewOf(l') ==
      MaybeFlag(Checked(ViewOf(Last(past)), Last(past).act.manifest.value), answers(|past| - 1).cancel)
  {
    l' := NextEffect(past, answers, Validating);
  }

  /** The release lookup or the comparison of digests breaks with this code. */
  lemma NextBroken(past: seq<Local>, answers: nat -> Answer, here: Label, op: Operation, code: ErrorCode)
    returns (l': Local)
    requires Played(past, answers) && Last(past).act.pc == At(here) && OpAt(here, Last(past).act.run) == Some(op)
    requires here.Fetching? || here.Inspecting?
    requires var o := Fitted(here, answers(|past| - 1).outcome);
      (o.Fail? && code == OtherError(o.detail)) || (o.FailWith? && code == o.code)
    ensures Played(past + [l'], answers) && l'.d.origin == Last(past).d.origin
    ensures var v := ViewOf(Last(past));
      ViewOf(l') == MaybeFlag(Ended(v, op, Broke, At(Catch(v.act, code))), answers(|past| - 1).cancel)
  {
    l' := NextPlain(past, answers, here, op);
  }

  lemma NextOutput(past: seq<Local>, answers: nat -> Answer, here: Label, op: Operation) returns (l': Local)
    requires Played(past, answers) && Last(past).act.pc == At(here) && OpAt(here, Last(past).act.run) == Some(op)
    requires answers(|past| - 1).outcome.Output? && Streams(here)
    ensures Played(past + [l'], answers) && l'.d.origin == Last(past).d.origin
    ensures var v := ViewOf(Last(past));
      ViewOf(l') == MaybeFlag(v.(act := v.act.(pc := Logged(here))), answers(|past| - 1).cancel)
  {
    l' := NextPlain(past, answers, here, op);
  }

  lemma NextRelease(past: seq<Local>, answers: nat -> Answer) returns (l': Local)
    requires Played(past, answers) && Last(past).act.pc == At(Fetching) && answers(|past| - 1).outcome.Fetched?
    ensures Played(past + [l'], answers) && l'.d.origin == Last(past).d.origin
    ensures var a := answers(|past| - 1);
      ViewOf(l') == MaybeFlag(Received(ViewOf(Last(past)), a.outcome.manifest, a.outcome.digest), a.cancel)
  {
    var a := answers(|past| - 1);
    FetchTick(Last(past), a.outcome.manifest, a.outcome.digest, a.now);
    l' := Next(past, answers, Received(ViewOf(Last(past)), a.outcome.manifest, a.outcome.digest));
  }

  lemma NextInspected(past: seq<Local>, answers: nat -> Answer, s: Service) returns (l': Local)
    requires Played(past, answers) && Last(past).act.pc == At(Inspecting(s)) && answers(|past| - 1).outcome.Inspected?
    ensures Last(past).act.manifest.Some? && Played(past + [l'], answers) && l'.d.origin == Last(past).d.origin
    ensures var a := answers(|past| - 1);
      ViewOf(l') == MaybeFlag(Compared(ViewOf(Last(past)), s,
        Last(past).act.manifest.value.images.Of(s) in a.outcome.images), a.cancel)
  {
    var a := answers(|past| - 1);
    PlayedOK(past, answers);
    InspectTick(Last(past), s, a.outcome.images, a.now);
    l' := Next(past, answers,
      Compared(ViewOf(Last(past)), s, Last(past).act.manifest.value.images.Of(s) in a.outcome.images));
  }

  lemma NextResult(past: seq<Local>, answers: nat -> Answer, s: Service) returns (l': Local)
    requires Played(past, answers) && Last(past).act.pc == At(VerifyingImage(s)) && answers(|past| - 1).outcome.Ok?
    ensures Last(past).act.manifest.Some? && Played(past + [l'], answers) && l'.d.origin == Last(past).d.origin
    ensures ViewOf(l') ==
      MaybeFlag(Proven(ViewOf(Last(past)), s, Last(past).act.manifest.value), answers(|past| - 1).cancel)
  {
    var a := answers(|past| - 1);
    PlayedOK(past, answers);
    VerifyTick(Last(past), s, a.now);
    l' := Next(past, answers, Proven(ViewOf(Last(past)), s, Last(past).act.manifest.value));
  }

  lemma NextAppend(past: seq<Local>, answers: nat -> Answer, next: PC) returns (l': Local)
    requires Played(past, answers) && Last(past).act.pc == Append(next)
    ensures Played(past + [l'], answers) && l'.d.origin == Last(past).d.origin
    ensures ViewOf(l') == MaybeFlag(Appended(ViewOf(Last(past)), next), answers(|past| - 1).cancel)
  {
    var a := answers(|past| - 1);
    AppendTick(Last(past), next, a.outcome, a.now);
    l' := Next(past, answers, Appended(ViewOf(Last(past)), next));
  }

  lemma NextSave(past: seq<Local>, answers: nat -> Answer, next: PC) returns (l': Local)
    requires Played(past, answers) && Last(past).act.pc == Save(next)
    ensures Played(past + [l'], answers) && l'.d.origin == Last(past).d.origin
    ensures ViewOf(l') == MaybeFlag(EffectView(ViewOf(Last(past)), Saves(next), 0), answers(|past| - 1).cancel)
  {
    var a := answers(|past| - 1);
    SaveTick(Last(past), next, a.outcome, a.now);
    l' := Next(past, answers, EffectView(ViewOf(Last(past)), Saves(next), 0));
  }

  /** The catch block depends on run, manifest and kept text only. */
  lemma CatchIs(a: Activity, pc: PC, code: ErrorCode)
    ensures Catch(a.(pc := pc), code) == Catch(a, code)
  {
  }

  // ---------------------------------------------------------------- the object

  class Agent {
    // the run's files, the lock, and the commands issued so far
    var record: Option<UpdateRun>
    var events: seq<LogEvent>
    var env: string
    var locked: bool
    var issued: seq<Entry>
    // the variables of `execute`
    var run: UpdateRun
    var originalEnv: string
    var manifest: Option<ReleaseManifest>
    // the call that took the lock, and the configuration
    ghost const origin: Origin
    const repositories: Images
    // the environment, and how many awaits are over
    const answers: nat -> Answer
    var step: nat
    // the machine's states so far
    ghost var past: seq<Local>

    /** The fields are what the machine, begun with the same call, holds after the same answers, here before `pc`. */
    ghost predicate Stands(pc: PC)
      reads this
    {
      true <==>
      && Played(past, answers) && Quiet(answers) && |past| == step + 1
      && Last(past).d.origin == origin && repositories == origin.repositories
      && ViewOf(Last(past)) == Here(pc)
    }

    /** What the fields say when the program stands before `pc`. */
    ghost function Here(pc: PC): View
      reads this
    {
      View(record, events, env, locked, issued, Activity(Executor, run, originalEnv, manifest, pc))
    }

    ghost function Now(): Local
      requires past != []
      reads this
    {
      Last(past)
    }

    /** Where a throw of `code` leads from here. */
    ghost function Caught(code: ErrorCode): PC
      reads this
    {
      At(Catch(Activity(Executor, run, originalEnv, manifest, At(Done)), code))
    }

    /** A call to `install` that has just taken the lock. */
    constructor (o: Origin, environment: nat -> Answer)
      requires HasVersionLine(o.env) && Quiet(environment)
      ensures Stands(Save(At(BeginPreflight))) && origin == o && answers == environment && past == [Begin(o)]
    {
      record, events, env, locked, issued := None, [], o.env, true, [];
      origin, repositories := o, o.repositories;
      run, originalEnv, manifest := NewRun(o.id, o.key, o.installed, o.target), "", None;
      answers, step, past := environment, 0, [Begin(o)];
      new;
      assert Plays(past, answers, 0);
    }

    /** The await is over, with the machine at `l'`; another request may have cancelled the run meanwhile. */
    method Pass(ghost pc: PC, ghost l': Local)
      requires past != [] && |past| == step + 1 && Played(past + [l'], answers) && Quiet(answers)
      requires ViewOf(l') == MaybeFlag(Here(pc), answers(step).cancel)
      requires l'.d.origin == origin && repositories == origin.repositories
      modifies `record, `step, `past
      ensures Stands(pc) && step == old(step) + 1 && past == old(past) + [l']
      ensures Flagged(record) == Flagged(old(record))
    {
      if answers(step).cancel { record := Flagged(record); }
      step := step + 1;
      past := past + [l'];
    }

    /** `log` */
    method Log(ghost next: PC)
      requires Stands(Append(Save(next)))
      modifies `run, `events, `record, `step, `past
      ensures Stands(next) && step == old(step) + 2
      ensures events == old(events) + [LogEvent(old(run.lastSequence) + 1, old(run.phase))]
      ensures run == old(run).(lastSequence := old(run.lastSequence) + 1) && Flagged(record) == Flagged(Some(run))
    {
      ghost var l' := NextAppend(past, answers, Save(next));
      run := run.(lastSequence := run.lastSequence + 1);
      events := events + [LogEvent(run.lastSequence, run.phase)];
      Pass(Save(next), l');
      SaveRun(next);
    }

    /** `saveRun` after an append, or of a new run. */
    method SaveRun(ghost next: PC)
      requires Stands(Save(next))
      modifies `record, `step, `past
      ensures Stands(next) && step == old(step) + 1 && Flagged(record) == Flagged(Some(run))
    {
      ghost var l' := NextSave(past, answers, next);
      record := Some(run);
      Pass(next, l');
    }

    /** `transitionRun`, the fields set with it, and `saveRun`. */
    method Transition(next: Phase, failure: Option<ErrorCode>, rollback: Option<RollbackStatus>, ghost here: Label,
      ghost pc: PC)
      requires Stands(At(here)) && OpAt(here, run).None? && EffectAt(Now(), here) == Moves(next, failure, rollback, pc)
      modifies `run, `record, `step, `past
      ensures Stands(pc) && CanMove(old(run.phase), next)
      ensures run == Updated(old(run), next, answers(old(step)).now, failure, rollback)
    {
      ghost var l' := NextEffect(past, answers, here);
      run := Updated(run, next, answers(step).now, failure, rollback);
      record := Some(run);
      Pass(pc, l');
    }

    /** `phase` */
    method Enter(next: Phase, ghost here: Label, ghost goal: Label)
      requires Stands(At(here)) && OpAt(here, run).None?
        && EffectAt(Now(), here) == Moves(next, None, None, Logged(goal))
      modifies `run, `events, `record, `step, `past
      ensures Stands(At(goal)) && run.phase == next && run.target == old(run.target)
        && run.installed == old(run.installed)
      ensures events == old(events) + [LogEvent(old(run.lastSequence) + 1, next)]
    {
      UpdatedFacts(run, next, answers(step).now);
      Transition(next, None, None, here, Logged(goal));
      assert LogEvent(run.lastSequence + 1, run.phase) == LogEvent(old(run.lastSequence) + 1, next);
      Log(At(goal));
    }

    /** Synchronous code that changes nothing. */
    method GoOn(ghost here: Label, ghost pc: PC)
      requires Stands(At(here)) && OpAt(here, run).None? && EffectAt(Now(), here) == Goes(pc)
      modifies `record, `step, `past
      ensures Stands(pc)
    {
      ghost var l' := NextEffect(past, answers, here);
      Pass(pc, l');
    }

    /** An operation has ended with `result`. */
    method Issued(op: Operation, result: Result, ghost pc: PC, ghost l': Local)
      requires past != [] && |past| == step + 1 && Played(past + [l'], answers) && Quiet(answers)
      requires ViewOf(l') == MaybeFlag(Ended(Here(At(Done)), op, result, pc), answers(step).cancel)
      requires l'.d.origin == origin && repositories == origin.repositories
      modifies `issued, `record, `step, `past
      ensures Stands(pc) && issued == old(issued) + [Entry(Executor, op, env, result)]
    {
      issued := issued + [Entry(Executor, op, env, result)];
      Pass(pc, l');
    }

    /** `executor.run`: the command either succeeds or throws. */
    method Command(op: Operation, ghost here: Label) returns (thrown: Option<ErrorCode>)
      requires Stands(At(here)) && PlainCommand(here) && OpAt(here, run) == Some(op)
        && !Fitted(here, answers(step).outcome).Output?
      modifies `issued, `record, `step, `past
      ensures Stands(if thrown.None? then AfterCommandPC(here) else Caught(thrown.value))
      ensures thrown.None? <==> answers(old(step)).outcome.Ok?
      ensures thrown.Some? ==> thrown.value.OtherError?
      ensures issued == old(issued) + [Entry(Executor, op, env, if thrown.None? then Succeeded else Broke)]
    {
      PlainEnds(Now(), here);
      ghost var l' := NextPlain(past, answers, here, op);
      var outcome := answers(step).outcome;
      if outcome.Ok? {
        thrown := None;
        Issued(op, Succeeded, AfterCommandPC(here), l');
      } else {
        thrown := Some(OtherError(if outcome.Fail? then outcome.detail else ""));
        CatchIs(Now().act, At(Done), thrown.value);
        Issued(op, Broke, Caught(thrown.value), l');
      }
    }

    /** `composeWithLogs`: chunks of output are logged while the command runs. */
    method ComposeWithLogs(op: Operation, ghost here: Label) returns (thrown: Option<ErrorCode>)
      requires Stands(At(here)) && PlainCommand(here) && Streams(here) && OpAt(here, run) == Some(op)
      modifies this
      ensures Stands(if thrown.None? then AfterCommandPC(here) else Caught(thrown.value))
      ensures thrown.Some? ==> thrown.value.OtherError?
      ensures issued == old(issued) + [Entry(Executor, op, env, if thrown.None? then Succeeded else Broke)]
        && env == old(env)
      ensures Grown(old(events), events, run.phase) && run == old(run).(lastSequence := run.lastSequence)
      ensures manifest == old(manifest) && originalEnv == old(originalEnv)
    {
      ReceiveAll(op, here);
      thrown := Command(op, here);
    }

    /** The chunks of output, until the command ends. */
    method ReceiveAll(op: Operation, ghost here: Label)
      requires Stands(At(here)) && Streams(here) && OpAt(here, run) == Some(op)
      modifies `run, `events, `record, `step, `past
      ensures Stands(At(here)) && OpAt(here, run) == Some(op) && !answers(step).outcome.Output?
      ensures Grown(old(events), events, run.phase) && run == old(run).(lastSequence := run.lastSequence)
    {
      ghost var first, c := step, 0;
      assert Ceasing(answers, first);
      ghost var k: nat :| Ceases(answers, first, k);
      while answers(step).outcome.Output?
        invariant Stands(At(here)) && c <= k && step == first + 3 * c
        invariant Grown(old(events), events, run.phase) && run == old(run).(lastSequence := run.lastSequence)
        decreases k - c
      {
        SameOp(old(run), run, here);
        Receive(op, here);
        c := c + 1;
      }
      SameOp(old(run), run, here);
    }

    /** A chunk of output. */
    method Receive(op: Operation, ghost here: Label)
      requires Stands(At(here)) && Streams(here) && OpAt(here, run) == Some(op) && answers(step).outcome.Output?
      modifies `run, `events, `record, `step, `past
      ensures Stands(At(here)) && step == old(step) + 3
      ensures events == old(events) + [LogEvent(old(run.lastSequence) + 1, old(run.phase))]
      ensures run == old(run).(lastSequence := old(run.lastSequence) + 1)
    {
      ghost var l' := NextOutput(past, answers, here, op);
      Pass(Logged(here), l');
      Log(At(here));
    }

    // ---------------------------------------------------------------- the try block

    /** `releases.target`: the release is recorded and saved, or the lookup throws. */
    method FetchTarget() returns (thrown: Option<ErrorCode>)
      requires Stands(At(Fetching))
      modifies this
      ensures Stands(if thrown.None? then At(Validating) else Caught(thrown.value))
      ensures thrown.None? <==> answers(old(step)).outcome.Fetched?
      ensures thrown.None? ==> manifest == Some(answers(old(step)).outcome.manifest) && run.snapshot == manifest
      ensures thrown.None? ==>
        (run.rollback == Available <==> manifest.value.compatibility in {NoMigration, BackwardCompatible})
      ensures run.phase == old(run.phase) && run.target == old(run.target) && run.installed == old(run.installed)
    {
      var outcome := answers(step).outcome;
      if outcome.Fetched? {
        thrown := None;
        TakeRelease(outcome.manifest, outcome.digest);
      } else {
        thrown := Some(if outcome.FailWith? && !outcome.code.CancelledError? then outcome.code
                       else OtherError(if outcome.Fail? then outcome.detail else ""));
        ghost var l' := NextBroken(past, answers, Fetching, FetchRelease, thrown.value);
        CatchIs(Now().act, At(Done), thrown.value);
        Issued(FetchRelease, Broke, Caught(thrown.value), l');
      }
    }

    method TakeRelease(m: ReleaseManifest, digest: string)
      requires Stands(At(Fetching)) && answers(step).outcome == Fetched(m, digest)
      modifies `manifest, `run, `events, `issued, `record, `step, `past
      ensures Stands(At(Validating)) && manifest == Some(m)
      ensures run == WithRelease(old(run), m, digest).(lastSequence := run.lastSequence)
    {
      ghost var l' := NextRelease(past, answers);
      manifest := Some(m);
      run := WithRelease(run, m, digest);
      Issued(FetchRelease, Succeeded, At(SavingSnapshot), l');
      SaveEvidence(SavingSnapshot, Logged(Validating));
      Log(At(Validating));
    }

    /** `saveRun` of new evidence. */
    method SaveEvidence(ghost here: Label, ghost pc: PC)
      requires Stands(At(here)) && OpAt(here, run).None? && EffectAt(Now(), here) == Saves(pc)
      modifies `record, `step, `past
      ensures Stands(pc)
    {
      ghost var l' := NextEffect(past, answers, here);
      record := Some(run);
      Pass(pc, l');
    }

    /** `validateCompatibility` */
    method Validate() returns (thrown: Option<ErrorCode>)
      requires Stands(At(Validating)) && manifest.Some?
      modifies `issued, `record, `step, `past
      ensures Stands(if thrown.None? then At(CheckingHost) else Caught(thrown.value))
      ensures thrown == ValidateCompatibility(run, manifest.value)
      ensures RefusedWith(run.installed, run.target, manifest.value, thrown)
    {
      ghost var l' := NextValidated(past, answers);
      thrown := ValidateCompatibility(run, manifest.value);
      CompatibilityCodes(run, manifest.value);
      Issued(CheckCompatibility, if thrown.None? then Succeeded else Broke,
        if thrown.None? then At(CheckingHost) else Caught(thrown.value), l');
    }

    /** `cancelIfRequested`; after the pull the old text of `.env` is put back first. */
    method CancelIfRequested(restore: bool) returns (thrown: Option<ErrorCode>)
      requires Stands(At(if restore then CancelCheckLate else CancelCheckEarly))
      modifies this
      ensures Stands(if thrown.None? then At(if restore then BeginVerifying else BeginBackup) else Caught(thrown.value))
      ensures thrown ==
        if old(record).Some? && old(record).value.cancellationRequested then Some(CancelledError) else None
      ensures thrown.Some? ==>
        run.phase.Cancelled? && env == (if restore then old(originalEnv) else old(env)) && |events| == |old(events)| + 1
      ensures thrown.None? ==>
        run == old(run) && env == old(env) && manifest == old(manifest) && originalEnv == old(originalEnv)
    {
      if record.Some? && record.value.cancellationRequested {
        TakeRecord(restore);
        if restore { WriteBack(CancelRestoring, Cancelling); }
        CancelNow();
        thrown := Some(CancelledError);
      } else {
        GoOn(if restore then CancelCheckLate else CancelCheckEarly,
          At(if restore then BeginVerifying else BeginBackup));
        thrown := None;
      }
    }

    method CancelNow()
      requires Stands(At(Cancelling))
      modifies `run, `events, `record, `step, `past
      ensures Stands(Caught(CancelledError)) && run.phase.Cancelled? && |events| == |old(events)| + 1
    {
      Transition(Cancelled, None, None, Cancelling, Logged(Raising(CancelledError)));
      Log(At(Raising(CancelledError)));
      ThrowOn(CancelledError);
    }

    method TakeRecord(restore: bool)
      requires Stands(At(if restore then CancelCheckLate else CancelCheckEarly)) && record.Some?
        && record.value.cancellationRequested
      modifies `run, `record, `step, `past
      ensures Stands(At(if restore then CancelRestoring else Cancelling)) && run == old(record).value
    {
      ghost var here := if restore then CancelCheckLate else CancelCheckEarly;
      ghost var l' := NextEffect(past, answers, here);
      run := record.value;
      Pass(At(if restore then CancelRestoring else Cancelling), l');
    }

    /** `writeFile(envFile, originalEnv)` */
    method WriteBack(ghost here: Label, ghost goal: Label)
      requires Stands(At(here)) && OpAt(here, run).None?
        && EffectAt(Now(), here) == Writes(originalEnv, originalEnv, At(goal))
      modifies `env, `record, `step, `past
      ensures Stands(At(goal)) && env == originalEnv
    {
      ghost var l' := NextEffect(past, answers, here);
      env := originalEnv;
      Pass(At(goal), l');
    }

    /** The target version is written over the text just read. */
    method WriteTarget()
      requires Stands(At(WritingTarget))
      modifies `env, `originalEnv, `record, `step, `past
      ensures Stands(At(BeginPulling)) && originalEnv == old(env) && WriteVersion(old(env), run.target) == Some(env)
    {
      LineThere(past, answers);
      ghost var l' := NextEffect(past, answers, WritingTarget);
      originalEnv := env;
      env := WriteVersion(env, run.target).value;
      Pass(At(BeginPulling), l');
    }

    /** `throw error` after the log line. */
    method ThrowOn(code: ErrorCode)
      requires Stands(At(Raising(code)))
      modifies `record, `step, `past
      ensures Stands(Caught(code))
    {
      CatchIs(Now().act, At(Done), code);
      GoOn(Raising(code), Caught(code));
    }

    /** `verifyImages`: repository, digest and provenance of one image after the other. */
    method VerifyImages() returns (thrown: Option<ErrorCode>)
      requires Stands(At(CheckingRepository(Api))) && manifest.Some?
      modifies this
      ensures Stands(if thrown.None? then Logged(BeginMigrating) else Caught(thrown.value))
      ensures thrown.None? ==> |events| == |old(events)| + 3 && |run.provenance| == |old(run.provenance)| + 3
      ensures Kept(old(run), run) && manifest == old(manifest) && originalEnv == old(originalEnv) && env == old(env)
    {
      thrown := None;
      var i := 0;
      while i < 3 && thrown.None?
        invariant i <= 3 && Stands(if thrown.None? then Turn(i) else Caught(thrown.value))
        invariant thrown.None? ==> |events| == |old(events)| + i && |run.provenance| == |old(run.provenance)| + i
        invariant Kept(old(run), run) && manifest == old(manifest) && originalEnv == old(originalEnv) && env == old(env)
      {
        thrown := VerifyImage(ServiceAt(i));
        i := i + 1;
      }
    }

    /** One turn of the loop. */
    method VerifyImage(s: Service) returns (thrown: Option<ErrorCode>)
      requires Stands(At(CheckingRepository(s))) && manifest.Some?
      modifies this
      ensures Stands(if thrown.None? then AfterImage(s) else Caught(thrown.value))
      ensures thrown.None? ==>
        |events| == |old(events)| + 1 && run.provenance == WithResult(old(run), s, old(manifest).value).provenance
      ensures Kept(old(run), run) && manifest == old(manifest) && originalEnv == old(originalEnv) && env == old(env)
    {
      thrown := CheckRepository(s);
      if thrown.None? { thrown := Inspect(s); }
      if thrown.None? { thrown := VerifyManifestImage(s); }
    }

    method CheckRepository(s: Service) returns (thrown: Option<ErrorCode>)
      requires Stands(At(CheckingRepository(s))) && manifest.Some?
      modifies `record, `step, `past
      ensures Stands(if thrown.None? then At(Inspecting(s)) else Caught(thrown.value))
      ensures thrown.None? <==> manifest.value.images.Of(s).repository == repositories.Of(s).repository
    {
      var ok := manifest.value.images.Of(s).repository == repositories.Of(s).repository;
      thrown := if ok then None else Some(OtherError("REPOSITORY_MISMATCH"));
      CatchIs(Now().act, At(Done), OtherError("REPOSITORY_MISMATCH"));
      GoOn(CheckingRepository(s), if ok then At(Inspecting(s)) else Caught(OtherError("REPOSITORY_MISMATCH")));
    }

    /** `docker image inspect`: the manifest's image must be among the repository digests. */
    method Inspect(s: Service) returns (thrown: Option<ErrorCode>)
      requires Stands(At(Inspecting(s))) && manifest.Some?
      modifies `issued, `record, `step, `past
      ensures Stands(if thrown.None? then At(CheckingPolicy(s)) else Caught(thrown.value))
      ensures thrown.None? <==>
        answers(old(step)).outcome.Inspected? && manifest.value.images.Of(s) in answers(old(step)).outcome.images
    {
      var outcome := answers(step).outcome;
      if outcome.Inspected? {
        ghost var l' := NextInspected(past, answers, s);
        var found := manifest.value.images.Of(s) in outcome.images;
        thrown := if found then None else Some(OtherError("DIGEST_MISMATCH"));
        CatchIs(Now().act, At(Done), OtherError("DIGEST_MISMATCH"));
        Issued(InspectImage(s), if found then Succeeded else Broke,
          if found then At(CheckingPolicy(s)) else Caught(OtherError("DIGEST_MISMATCH")), l');
      } else {
        thrown := Some(OtherError(if outcome.Fail? then outcome.detail else ""));
        ghost var l' := NextBroken(past, answers, Inspecting(s), InspectImage(s), thrown.value);
        CatchIs(Now().act, At(Done), thrown.value);
        Issued(InspectImage(s), Broke, Caught(thrown.value), l');
      }
    }

    /** `verifyManifestImage` inside its own try: a failure is logged and thrown on. */
    method VerifyManifestImage(s: Service) returns (thrown: Option<ErrorCode>)
      requires Stands(At(CheckingPolicy(s)))
      modifies this
      ensures Stands(if thrown.None? then AfterImage(s) else Caught(thrown.value)) && |events| == |old(events)| + 1
      ensures thrown.None? ==> manifest.Some? && run.provenance == WithResult(old(run), s, manifest.value).provenance
      ensures Kept(old(run), run) && manifest == old(manifest) && originalEnv == old(originalEnv) && env == old(env)
    {
      PolicyPasses(past, answers, s);
      GoOn(CheckingPolicy(s), At(VerifyingImage(s)));
      if answers(step).outcome.Ok? {
        thrown := None;
        RecordResult(s);
      } else {
        thrown := ReportFailure(s);
      }
    }

    /** The result is added, saved and logged. */
    method RecordResult(s: Service)
      requires Stands(At(VerifyingImage(s))) && answers(step).outcome.Ok?
      modifies `run, `events, `issued, `record, `step, `past
      ensures Stands(AfterImage(s)) && |events| == |old(events)| + 1 && manifest.Some?
      ensures run == WithResult(old(run), s, manifest.value).(lastSequence := run.lastSequence)
    {
      AddResult(s);
      SaveEvidence(SavingEvidence(s), AfterEvidence(s));
      Log(AfterImage(s));
    }

    /** A failed attestation is logged, then thrown. */
    method ReportFailure(s: Service) returns (thrown: Option<ErrorCode>)
      requires Stands(At(VerifyingImage(s))) && !answers(step).outcome.Ok?
      modifies `run, `events, `issued, `record, `step, `past
      ensures thrown.Some? && Stands(Caught(thrown.value)) && |events| == |old(events)| + 1
      ensures run == old(run).(lastSequence := run.lastSequence)
    {
      var code := AttestationBreaks(s);
      Log(At(Raising(code)));
      ThrowOn(code);
      thrown := Some(code);
    }

    method AttestationBreaks(s: Service) returns (code: ErrorCode)
      requires Stands(At(VerifyingImage(s))) && !answers(step).outcome.Ok?
      modifies `issued, `record, `step, `past
      ensures Stands(Logged(Raising(code)))
    {
      var outcome := answers(step).outcome;
      code := OtherError(if outcome.Fail? then outcome.detail else "");
      ghost var l' := NextPlain(past, answers, VerifyingImage(s), VerifyProvenance(s));
      Issued(VerifyProvenance(s), Broke, Logged(Raising(code)), l');
    }

    method AddResult(s: Service)
      requires Stands(At(VerifyingImage(s))) && answers(step).outcome.Ok?
      modifies `run, `issued, `record, `step, `past
      ensures Stands(At(SavingEvidence(s))) && manifest.Some? && run == WithResult(old(run), s, manifest.value)
    {
      ghost var l' := NextResult(past, answers, s);
      run := WithResult(run, s, manifest.value);
      Issued(VerifyProvenance(s), Succeeded, At(SavingEvidence(s)), l');
    }

    /** PREFLIGHT: the release. */
    method CheckRelease() returns (thrown: Option<ErrorCode>)
      requires Stands(At(BeginPreflight))
      modifies this
      ensures Stands(if thrown.None? then At(CheckingHost) else Caught(thrown.value))
      ensures thrown.None? ==> manifest.Some?
    {
      Enter(Preflight, BeginPreflight, Fetching);
      thrown := FetchTarget();
      if thrown.None? { thrown := Validate(); }
    }

    /** PREFLIGHT: the host, and the first look for a cancellation. */
    method CheckDeployment() returns (thrown: Option<ErrorCode>)
      requires Stands(At(CheckingHost))
      modifies this
      ensures Stands(if thrown.None? then At(BeginBackup) else Caught(thrown.value))
      ensures thrown.None? ==> manifest == old(manifest)
    {
      thrown := Command(CheckHost, CheckingHost);
      if thrown.None? { thrown := CancelIfRequested(false); }
    }

    /** BACKUP, and the target version in `.env`. */
    method BackUp() returns (thrown: Option<ErrorCode>)
      requires Stands(At(BeginBackup))
      modifies this
      ensures Stands(if thrown.None? then At(BeginPulling) else Caught(thrown.value))
      ensures thrown.None? ==> manifest == old(manifest)
    {
      Enter(Backup, BeginBackup, BackingUp);
      thrown := Command(TakeBackup, BackingUp);
      if thrown.None? {
        Log(At(WritingTarget));
        WriteTarget();
      }
    }

    /** PULLING, and the second look for a cancellation. */
    method Pull() returns (thrown: Option<ErrorCode>)
      requires Stands(At(BeginPulling))
      modifies this
      ensures Stands(if thrown.None? then At(BeginVerifying) else Caught(thrown.value))
      ensures thrown.None? ==> manifest == old(manifest)
    {
      Enter(Pulling, BeginPulling, PullingImages);
      thrown := ComposeWithLogs(PullImages, PullingImages);
      if thrown.None? { thrown := CancelIfRequested(true); }
    }

    /** VERIFYING */
    method Verify() returns (thrown: Option<ErrorCode>)
      requires Stands(At(BeginVerifying)) && manifest.Some?
      modifies this
      ensures Stands(if thrown.None? then At(BeginMigrating) else Caught(thrown.value))
    {
      Enter(Verifying, BeginVerifying, CheckingRepository(Api));
      thrown := VerifyImages();
      if thrown.None? { Log(At(BeginMigrating)); }
    }

    /** MIGRATING */
    method MigrateDatabase() returns (thrown: Option<ErrorCode>)
      requires Stands(At(BeginMigrating))
      modifies this
      ensures Stands(if thrown.None? then At(BeginDeploying) else Caught(thrown.value))
    {
      Enter(Migrating, BeginMigrating, Migrate);
      thrown := ComposeWithLogs(MigrateDeploy, Migrate);
      if thrown.None? { thrown := ComposeWithLogs(MigrateStatus, MigrationStatus); }
      if thrown.None? { Log(At(BeginDeploying)); }
    }

    /** DEPLOYING */
    method DeployServices() returns (thrown: Option<ErrorCode>)
      requires Stands(At(BeginDeploying))
      modifies this
      ensures Stands(if thrown.None? then At(BeginHealthcheck) else Caught(thrown.value))
    {
      Enter(Deploying, BeginDeploying, Deploy);
      thrown := ComposeWithLogs(ComposeUp, Deploy);
    }

    /** HEALTHCHECK and COMPLETED */
    method CheckHealth() returns (thrown: Option<ErrorCode>)
      requires Stands(At(BeginHealthcheck))
      modifies this
      ensures Stands(if thrown.None? then At(ReleasingLock) else Caught(thrown.value))
      ensures thrown.None? ==> run.phase.Completed?
    {
      Enter(Healthcheck, BeginHealthcheck, CheckTarget);
      thrown := Command(HealthCheck(run.target), CheckTarget);
      if thrown.None? {
        Transition(Completed, None, Some(NotRequired), Completing, Logged(ReleasingLock));
        Log(At(ReleasingLock));
      }
    }

    /** The try block: None when it completes, otherwise the code thrown. */
    method Try() returns (thrown: Option<ErrorCode>)
      requires Stands(At(BeginPreflight))
      modifies this
      ensures Stands(if thrown.None? then At(ReleasingLock) else Caught(thrown.value))
      ensures thrown.None? ==> run.phase.Completed?
    {
      thrown := CheckRelease();
      if thrown.None? { thrown := CheckDeployment(); }
      if thrown.None? { thrown := BackUp(); }
      if thrown.None? { thrown := Pull(); }
      if thrown.None? { thrown := Verify(); }
      if thrown.None? { thrown := MigrateDatabase(); }
      if thrown.None? { thrown := DeployServices(); }
      if thrown.None? { thrown := CheckHealth(); }
    }

    // ---------------------------------------------------------------- the catch block

    /** The catch block, entered with the thrown code. */
    method Handle(code: ErrorCode)
      requires Stands(Caught(code))
      modifies this
      ensures Stands(At(ReleasingLock)) && Handled(code, old(run), old(manifest), old(originalEnv), run)
    {
      if code.CancelledError? { return; }
      if NeedsMaintenance(code) {
        AskForMaintenance(code);
      } else if run.phase.Deploying? || run.phase.Healthcheck? {
        if manifest.Some? && RollbackAllowed(manifest.value) && originalEnv != "" {
          RollBack(code);
        } else {
          FailDeployed(code);
        }
      } else {
        Fail(code);
      }
    }

    /** Nothing has been changed yet; an operator has to do the update by hand. */
    method AskForMaintenance(code: ErrorCode)
      requires Stands(At(Maintenance(code)))
      modifies `run, `events, `record, `step, `past
      ensures Stands(At(ReleasingLock))
      ensures run.phase.ManualIntervention? && run.failure == Some(code) && run.rollback.Unsafe?
    {
      Transition(ManualIntervention, Some(code), Some(Unsafe), Maintenance(code), Logged(ReleasingLock));
      Log(At(ReleasingLock));
    }

    /** A failure after the deployment that cannot be rolled back. */
    method FailDeployed(code: ErrorCode)
      requires Stands(At(FailingUnsafe(code)))
      modifies `run, `events, `record, `step, `past
      ensures Stands(At(ReleasingLock))
      ensures run.phase.ManualIntervention? && run.failure == Some(code) && run.rollback.Unsafe?
    {
      Transition(ManualIntervention, Some(code), Some(Unsafe), FailingUnsafe(code), FailureLog(code));
      LogFailure(code);
    }

    /** A failure before the deployment: the old text is put back if `.env` was written. */
    method Fail(code: ErrorCode)
      requires Stands(At(if originalEnv != "" then RestoringEnv(code) else FailingNow(code)))
      modifies this
      ensures Stands(At(ReleasingLock)) && run.phase.Failed? && run.failure == Some(code)
    {
      if originalEnv != "" { WriteBack(RestoringEnv(code), FailingNow(code)); }
      Transition(Failed, Some(code), None, FailingNow(code), FailureLog(code));
      LogFailure(code);
    }

    /** One line for a failure, with one before it when the release could not be verified. */
    method LogFailure(code: ErrorCode)
      requires Stands(FailureLog(code))
      modifies `run, `events, `record, `step, `past
      ensures Stands(At(ReleasingLock)) && run == old(run).(lastSequence := run.lastSequence)
    {
      if code.ManifestError? { Log(Logged(ReleasingLock)); }
      Log(At(ReleasingLock));
    }

    /** ROLLING_BACK: the old release is started again and checked. */
    method RollBack(code: ErrorCode)
      requires Stands(At(RollbackBegin(code)))
      modifies this
      ensures Stands(At(ReleasingLock)) && env == originalEnv == old(originalEnv) && RolledBack(code, run)
      ensures Restarted(old(issued), issued, env, old(run.installed), run.phase.Failed?)
    {
      Enter(RollingBack, RollbackBegin(code), RollbackEnv(code));
      WriteBack(RollbackEnv(code), RollbackUp(code));
      var ok := StartAndCheck(code);
      EndRollback(code, ok);
    }

    method EndRollback(code: ErrorCode, ok: bool)
      requires Stands(At(if ok then RollbackDone(code) else RollbackFailing))
      modifies `run, `events, `record, `step, `past
      ensures Stands(At(ReleasingLock)) && RolledBack(code, run) && run.phase.Failed? == ok
        && run.installed == old(run.installed)
    {
      if ok {
        Transition(Failed, Some(code), Some(RollbackCompleted), RollbackDone(code), Logged(ReleasingLock));
      } else {
        Transition(ManualIntervention, Some(RollbackError), Some(RollbackFailed), RollbackFailing,
          Logged(ReleasingLock));
      }
      Log(At(ReleasingLock));
    }

    method StartAndCheck(code: ErrorCode) returns (ok: bool)
      requires Stands(At(RollbackUp(code)))
      modifies `issued, `record, `step, `past
      ensures Stands(At(if ok then RollbackDone(code) else RollbackFailing))
      ensures Restarted(old(issued), issued, env, run.installed, ok)
    {
      ok := RollbackStep(ComposeUp, RollbackUp(code), RollbackCheck(code));
      if ok { ok := RollbackStep(HealthCheck(run.installed), RollbackCheck(code), RollbackDone(code)); }
    }

    method RollbackStep(op: Operation, ghost here: Label, ghost goal: Label) returns (ok: bool)
      requires Stands(At(here)) && (here.RollbackUp? || here.RollbackCheck?) && OpAt(here, run) == Some(op)
        && SucceedPC(here) == At(goal)
      modifies `issued, `record, `step, `past
      ensures Stands(At(if ok then goal else RollbackFailing)) && (ok <==> answers(old(step)).outcome.Ok?)
      ensures issued == old(issued) + [Entry(Executor, op, env, if ok then Succeeded else Broke)]
    {
      ghost var l' := NextPlain(past, answers, here, op);
      ok := answers(step).outcome.Ok?;
      Issued(op, if ok then Succeeded else Broke, At(if ok then goal else RollbackFailing), l');
    }

    /** `releaseLock` in the finally block. */
    method ReleaseLock()
      requires Stands(At(ReleasingLock))
      modifies `locked, `record, `step, `past
      ensures Stands(At(Done)) && !locked
    {
      ghost var l' := NextEffect(past, answers, ReleasingLock);
      locked := false;
      Pass(At(Done), l');
    }

    /**
     * `execute` from the first save to the release of the lock. Under the answers given it takes exactly the steps of
     * the machine, to its end: a finished record within the bounds of its phase on `.env`, the lock gone, the events
     * numbered without a gap, and the commands those of the plan.
     */
    method Execute()
      requires Stands(Save(At(BeginPreflight)))
      modifies this
      ensures Stands(At(Done)) && !locked && record.Some? && Terminal(record.value.phase)
      ensures DossierOK(Now().d) && EnvBounds(record.value, Now().d, env) && Numbered(events, record.value.lastSequence)
    {
      SaveRun(At(BeginPreflight));
      var thrown := Try();
      if thrown.Some? { Handle(thrown.value); }
      ReleaseLock();
      EndFacts(past, answers);
    }
  }

  // ---------------------------------------------------------------- facts used above

  /** The log grew, by events of one phase. */
  predicate Grown(before: seq<LogEvent>, after: seq<LogEvent>, phase: Phase) {
    before <= after && forall i :: |before| <= i < |after| ==> after[i].phase == phase
  }

  /** The fields of the record that the image checks leave alone. */
  predicate Kept(before: UpdateRun, after: UpdateRun) {
    after == before.(lastSequence := after.lastSequence, provenance := after.provenance)
  }

  /** What follows the check of an image. */
  function AfterImage(s: Service): PC {
    match s case Api => At(CheckingRepository(Web)) case Web => At(CheckingRepository(Worker))
      case Worker => Logged(BeginMigrating)
  }

  /** Where turn `i` of the loop over the images starts. */
  function Turn(i: nat): PC { if i < 3 then At(CheckingRepository(ServiceAt(i))) else Logged(BeginMigrating) }

  /** The old release was started and, if that succeeded, checked; `ok` says whether both succeeded. */
  predicate Restarted(before: seq<Entry>, after: seq<Entry>, env: string, installed: Version, ok: bool) {
    var up := Entry(Executor, ComposeUp, env, Succeeded);
    if ok then after == before + [up] + [Entry(Executor, HealthCheck(installed), env, Succeeded)]
    else
      || after == before + [up.(result := Broke)]
      || after == before + [up] + [Entry(Executor, HealthCheck(installed), env, Broke)]
  }

  predicate RolledBack(code: ErrorCode, r: UpdateRun) {
    || (r.phase.Failed? && r.failure == Some(code) && r.rollback.RollbackCompleted?)
    || (r.phase.ManualIntervention? && r.failure == Some(RollbackError) && r.rollback.RollbackFailed?)
  }

  /** What the catch block makes of a run. */
  predicate Handled(code: ErrorCode, before: UpdateRun, m: Option<ReleaseManifest>, kept: string, r: UpdateRun) {
    if code.CancelledError? then r == before
    else if code in {ManualActionRequired, MinimumVersionUnmet, UpdaterMaintenanceRequired, LegacyReleaseManualRequired}
      then r.phase.ManualIntervention? && r.failure == Some(code) && r.rollback.Unsafe?
    else if before.phase.Deploying? || before.phase.Healthcheck? then
      if m.Some? && m.value.compatibility in {NoMigration, BackwardCompatible} && kept != "" then RolledBack(code, r)
      else r.phase.ManualIntervention? && r.failure == Some(code) && r.rollback.Unsafe?
    else r.phase.Failed? && r.failure == Some(code)
  }

  lemma PlainEnds(l: Local, here: Label)
    requires PlainCommand(here)
    ensures SucceedPC(here) == AfterCommandPC(here) && !here.VerifyingImage? && !here.Fetching? && !here.Inspecting?
    ensures forall code :: BrokenPC(l.act, here, code) == At(Catch(l.act, code))
  {
  }

  lemma SameOp(before: UpdateRun, after: UpdateRun, here: Label)
    requires after == before.(lastSequence := after.lastSequence)
    ensures OpAt(here, after) == OpAt(here, before)
  {
  }

  lemma LineThere(past: seq<Local>, answers: nat -> Answer)
    requires Played(past, answers) && Last(past).act.pc == At(WritingTarget)
    ensures WriteVersion(Last(past).env, Last(past).act.run.target).Some?
  {
    PlayedOK(past, answers);
    WritingStages();
    StandingForward(Last(past), WritingTarget, Stage(Backup, 4, false, false, 1));
    LineRewritten(Last(past));
  }

  lemma LineRewritten(l: Local)
    requires InStage(l, Stage(Backup, 4, false, false, 1)) && DossierOK(l.d)
    ensures WriteVersion(l.env, l.act.run.target).Some?
  {
  }

  lemma PolicyPasses(past: seq<Local>, answers: nat -> Answer, s: Service)
    requires Played(past, answers) && Last(past).act.pc == At(CheckingPolicy(s))
    ensures EffectAt(Last(past), CheckingPolicy(s)) == Goes(At(VerifyingImage(s)))
  {
    PlayedOK(past, answers);
    PolicyEffect(Last(past), s);
  }

  lemma PolicyEffect(l: Local, s: Service)
    requires ExecuteOK(l) && l.act.pc == At(CheckingPolicy(s))
    ensures EffectAt(l, CheckingPolicy(s)) == Goes(At(VerifyingImage(s)))
  {
    VerifyStages(s);
    StandingForward(l, CheckingPolicy(s), StageOf(s, 1));
    StageCompatible(l, StageOf(s, 1));
    PolicyHolds(l.act.run, l.act.manifest.value);
    PolicyGoes(l, s);
  }

  lemma PolicyGoes(l: Local, s: Service)
    requires l.act.manifest.Some? && VerificationPolicy(l.act.manifest.value).None?
    ensures EffectAt(l, CheckingPolicy(s)) == Goes(At(VerifyingImage(s)))
  {
  }

  lemma EndFacts(past: seq<Local>, answers: nat -> Answer)
    requires Played(past, answers) && Last(past).act.pc == At(Done)
    ensures var l := Last(past);
      && l.d.record.Some? && Terminal(l.d.record.value.phase) && DossierOK(l.d)
      && EnvBounds(l.d.record.value, l.d, l.env) && Numbered(l.d.events, l.d.record.value.lastSequence)
  {
    PlayedOK(past, answers);
    DoneFacts(Last(past));
  }

  lemma DoneFacts(l: Local)
    requires ExecuteOK(l) && l.act.pc == At(Done)
    ensures l.d.record.Some? && Terminal(l.d.record.value.phase) && DossierOK(l.d)
    ensures EnvBounds(l.d.record.value, l.d, l.env) && Numbered(l.d.events, l.d.record.value.lastSequence)
  {
    ExecuteEnd(l);
    ResumableNow(l);
    RecordPhase(l);
    assert FilesOK(l) && Files(l.d, l.env, l.act.run, LagOf(l.act.pc));
  }
}
