/** How runs end, and the exact conditions of what the code does not guarantee. */
module UpdateOutcomes {
  import opened Text
  import opened Versions
  import opened EnvFile
  import opened UpdateDomain
  import opened UpdatePlan
  import opened UpdateProtocol
  import opened UpdateWorld
  import opened UpdateSafety
  import opened UpdateTheorems
  import opened UpdateCourse

  lemma RunSnoc(w: World, events: seq<Event>, e: Event)
    ensures Run(w, events + [e]) == Step(Run(w, events), e)
  {
    assert (events + [e])[..|events|] == events;
  }

  lemma {:induction false} RunCons(w: World, e: Event, events: seq<Event>)
    ensures Run(w, [e] + events) == Run(Step(w, e), events)
  {
    if events == [] {
      assert [e] + events == [] + [e];
      RunSnoc(w, [], e);
    } else {
      RunCons(w, e, events[..|events| - 1]);
      assert ([e] + events)[..|events|] == [e] + events[..|events| - 1];
    }
  }

  lemma RunStep(w: World, w': World, e: Event, events: seq<Event>)
    requires Step(w, e) == w'
    ensures Run(w, [e] + events) == Run(w', events)
  {
    RunCons(w, e, events);
  }

  // ---------------------------------------------------------------- whole activities in the world

  /** The awaits of the activity in progress, each answered at time `now`. */
  function Proceeds(answers: seq<Outcome>, now: int): seq<Event> {
    if answers == [] then [] else [Proceed(answers[0], now)] + Proceeds(answers[1..], now)
  }

  /** The process works on the activity of `l`. */
  predicate Working(w: World, l: Local) {
    true <==>
    && w.process == Busy(l.act) && l.act.run.id in w.dossiers && LocalOf(w, l.act) == l && l.act.pc != At(Done)
  }

  lemma ProceedIs(w: World, l: Local, o: Outcome, now: int)
    requires Working(w, l)
    ensures Step(w, Proceed(o, now)) == Put(w, l.act.run.id, Tick(l, o, now))
  {
  }

  lemma PutPut(w: World, id: RunId, l: Local, l': Local)
    requires id in w.dossiers
    ensures Put(Put(w, id, l), id, l') == Put(w, id, l')
  {
  }

  lemma PutWorking(w: World, id: RunId, l: Local)
    requires id in w.dossiers && l.act.run.id == id && l.act.pc != At(Done)
    ensures Working(Put(w, id, l), l)
  {
  }

  lemma {:induction false} ReadyStays(w: World, answers: seq<Outcome>, now: int)
    requires w.process.Ready?
    ensures Run(w, Proceeds(answers, now)) == w
    decreases |answers|
  {
    if answers != [] {
      RunCons(w, Proceed(answers[0], now), Proceeds(answers[1..], now));
      ReadyStays(w, answers[1..], now);
    }
  }

  /** An activity runs in the world as it does alone. */
  lemma {:induction false} ActivityRuns(w: World, l: Local, answers: seq<Outcome>, now: int)
    requires Live(l) && Working(w, l) && answers != []
    ensures Run(w, Proceeds(answers, now)) == Put(w, l.act.run.id, Ticks(l, answers, now))
    decreases |answers|
  {
    var id, l1 := l.act.run.id, Tick(l, answers[0], now);
    var w1 := Put(w, id, l1);
    LiveStep(l, answers[0], now);
    LiveFacts(l);
    LiveFacts(l1);
    ProceedIs(w, l, answers[0], now);
    RunCons(w, Proceed(answers[0], now), Proceeds(answers[1..], now));
    if l1.act.pc == At(Done) {
      ReadyStays(w1, answers[1..], now);
    } else if answers[1..] != [] {
      PutWorking(w, id, l1);
      ActivityRuns(w1, l1, answers[1..], now);
      PutPut(w, id, l1, Ticks(l1, answers[1..], now));
    }
  }

  /**
   * `initialize`, left alone, ends: once six awaits have each succeeded or failed the process is ready, there is
   * no lock, and no run is unfinished but those orphaned before.
   */
  lemma InitializeEnds(w: World, answers: seq<Outcome>, now: int)
    requires WorldOK(w) && w.process.Down? && |answers| >= 6
    requires forall i :: 0 <= i < |answers| ==> Answered(answers[i])
    ensures var w' := Run(w, [Restart] + Proceeds(answers, now));
      && w'.process.Ready? && w'.lock.None? && w'.orphans == w.orphans
      && forall id :: id in w'.dossiers ==> (Unfinished(w'.dossiers[id]) <==> id in w.orphans)
  {
    RestartRuns(w, Proceeds(answers, now));
    RestartOK(w);
    RestartedEnds(Initialize(w), answers, now);
    AnyRunOK(Initialize(w), Proceeds(answers, now));
    ReadyIsClean(Run(Initialize(w), Proceeds(answers, now)));
  }

  lemma RestartRuns(w: World, events: seq<Event>)
    requires w.process.Down?
    ensures Run(w, [Restart] + events) == Run(Initialize(w), events)
  {
    RunCons(w, Restart, events);
    RestartIs(w);
  }

  lemma ReadyIsClean(w: World)
    requires WorldOK(w) && w.process.Ready?
    ensures w.lock.None? && forall id :: id in w.dossiers ==> (Unfinished(w.dossiers[id]) <==> id in w.orphans)
  {
  }

  lemma RestartOK(w: World)
    requires WorldOK(w) && w.process.Down?
    ensures WorldOK(Initialize(w)) && Initialize(w).orphans == w.orphans && !Initialize(w).process.Down?
    ensures Initialize(w).process.Busy? ==> Initialize(w).process.act.actor.Recovery?
  {
    InitializeOK(w);
    InitializeShape(w);
  }

  lemma InitializeShape(w: World)
    ensures Initialize(w).orphans == w.orphans && !Initialize(w).process.Down?
    ensures Initialize(w).process.Busy? ==> Initialize(w).process.act.actor.Recovery?
  {
  }

  lemma RestartIs(w: World)
    requires w.process.Down?
    ensures Step(w, Restart) == Initialize(w)
  {
  }

  lemma RestartedEnds(w: World, answers: seq<Outcome>, now: int)
    requires WorldOK(w) && |answers| >= 6 && (w.process.Busy? ==> w.process.act.actor.Recovery?) && !w.process.Down?
    requires forall i :: 0 <= i < |answers| ==> Answered(answers[i])
    ensures Run(w, Proceeds(answers, now)).process.Ready? && Run(w, Proceeds(answers, now)).orphans == w.orphans
  {
    match w.process
    case Busy(a) =>
      var l := LocalOf(w, a);
      RecoveryHasWay(l);
      RecoveryEnds(l, answers, now);
      ActivityRuns(w, l, answers, now);
    case _ => ReadyStays(w, answers, now);
  }

  lemma {:induction false} AnyRunOK(w: World, events: seq<Event>)
    requires WorldOK(w)
    ensures WorldOK(Run(w, events))
  {
    if events != [] {
      AnyRunOK(w, events[..|events| - 1]);
      StepOK(Run(w, events[..|events| - 1]), events[|events| - 1]);
    }
  }

  // ---------------------------------------------------------------- two calls, one key, one stale version

  /** Two calls with the same key that have both looked up the key and read the version. */
  function BothReady(env: string, repositories: Images, call: Call): World {
    World(map[], None, env, map[0 := call, 1 := call], Ready, repositories, None, {})
  }

  /** A call looks up its key, then reads the version. */
  function CallReading(n: nat): seq<Event> { [CallStep(n, None, "")] + [CallStep(n, None, "")] }

  function TwoCalls(key: string, target: Version): seq<Event> {
    [Restart] + ([Arrive(0, key, target)] + ([Arrive(1, key, target)] + (CallReading(0) + (CallReading(1) + []))))
  }

  lemma TwoCallsReach(env: string, repositories: Images, key: string, target: Version, v: Version)
    requires Names(env, v) && CompareParts(target, v) > 0
    ensures Reached(env, repositories, TwoCalls(key, target)) ==
      BothReady(env, repositories, Call(key, target, Locking(v)))
  {
    var c := Call(key, target, Looking);
    var w3 := TwoCallsArrive(env, repositories, key, target);
    var w5 := SetCall(w3, 0, c, Locking(v));
    CallReadsRun(w3, 0, c, v, CallReading(1) + []);
    CallReadsRun(w5, 1, c, v, []);
    assert SetCall(w5, 1, c, Locking(v)).calls == map[0 := c.(state := Locking(v)), 1 := c.(state := Locking(v))];
  }

  lemma TwoCallsArrive(env: string, repositories: Images, key: string, target: Version) returns (w3: World)
    ensures w3 == Boot(env, repositories).(
      process := Ready, calls := map[0 := Call(key, target, Looking), 1 := Call(key, target, Looking)])
    ensures Reached(env, repositories, TwoCalls(key, target)) == Run(w3, CallReading(0) + (CallReading(1) + []))
  {
    var c := Call(key, target, Looking);
    var w1 := Boot(env, repositories).(process := Ready);
    var w2 := w1.(calls := map[0 := c]);
    w3 := w1.(calls := map[0 := c, 1 := c]);
    var rest := CallReading(0) + (CallReading(1) + []);
    RestartIs(Boot(env, repositories));
    RunCons(Boot(env, repositories), Restart, [Arrive(0, key, target)] + ([Arrive(1, key, target)] + rest));
    CallsArrive(w1, key, target);
    RunCons(w1, Arrive(0, key, target), [Arrive(1, key, target)] + rest);
    RunCons(w2, Arrive(1, key, target), rest);
  }

  lemma CallsArrive(w: World, key: string, target: Version)
    requires w.process.Ready? && w.calls == map[]
    ensures Step(w, Arrive(0, key, target)) == w.(calls := map[0 := Call(key, target, Looking)])
    ensures Step(w.(calls := map[0 := Call(key, target, Looking)]), Arrive(1, key, target))
      == w.(calls := map[0 := Call(key, target, Looking), 1 := Call(key, target, Looking)])
  {
  }

  lemma CallReads(w: World, n: nat, c: Call, v: Version)
    requires w.process.Ready? && w.dossiers == map[] && n in w.calls && w.calls[n] == c && c.state.Looking?
    requires Names(w.env, v) && CompareParts(c.target, v) > 0
    ensures Step(w, CallStep(n, None, "")) == SetCall(w, n, c, Reading)
    ensures Step(SetCall(w, n, c, Reading), CallStep(n, None, "")) == SetCall(w, n, c, Locking(v))
  {
  }

  lemma CallReadsRun(w: World, n: nat, c: Call, v: Version, es: seq<Event>)
    requires w.process.Ready? && w.dossiers == map[] && n in w.calls && w.calls[n] == c && c.state.Looking?
    requires Names(w.env, v) && CompareParts(c.target, v) > 0
    ensures Run(w, CallReading(n) + es) == Run(SetCall(w, n, c, Locking(v)), es)
  {
    var e := CallStep(n, None, "");
    CallReads(w, n, c, v);
    assert CallReading(n) + es == [e] + ([e] + es);
    RunStep(w, SetCall(w, n, c, Reading), e, [e] + es);
    RunStep(SetCall(w, n, c, Reading), SetCall(w, n, c, Locking(v)), e, es);
  }

  lemma LockTaken(w: World, n: nat, c: Call, v: Version, id: RunId)
    requires w.process.Ready? && w.lock.None? && id !in w.dossiers && n in w.calls && w.calls[n] == c
      && c.state == Locking(v)
    ensures Step(w, CallStep(n, None, id)) == TakeLock(w, n, c, v, id)
  {
  }

  /** The first call takes the lock and its run completes. */
  lemma FirstCompletes(env: string, repositories: Images, c: Call, v: Version, first: RunId, m: ReleaseManifest,
    digest: string)
    returns (answers: seq<Outcome>, l: Local)
    requires Names(env, v) && c.state == Locking(v)
      && Installable(m, Origin(first, c.key, env, v, c.target, repositories))
    ensures var w := TakeLock(BothReady(env, repositories, c), 0, c, v, first);
      Run(w, Proceeds(answers, 0)) == Put(w, first, l)
    ensures l.act.pc == At(Done) && !l.locked
      && l.env == Rewritten(Origin(first, c.key, env, v, c.target, repositories), c.target)
    ensures l.d.origin.key == c.key && l.d.record.Some? && l.d.record.value.phase.Completed?
  {
    var o := Origin(first, c.key, env, v, c.target, repositories);
    InstalledHasLine(env);
    BeginOnCourse(o, m);
    answers := RunCompletes(o, m, digest, 0);
    l := Ticks(Begin(o), answers, 0);
    ActivityRuns(TakeLock(BothReady(env, repositories, c), 0, c, v, first), Begin(o), answers, 0);
  }

  /**
   * `install` reads the version and looks up its key before it takes the lock, and repeats neither afterwards. Two
   * calls with one key can therefore both create a run, and the second records a version that `.env` no longer
   * names: here it starts from `v` although the target is already installed.
   */
  lemma SecondRunForOneKey(env: string, repositories: Images, key: string, v: Version, target: Version,
                           first: RunId, second: RunId, m: ReleaseManifest, digest: string) returns (events: seq<Event>)
    requires Names(env, v) && CompareParts(target, v) > 0 && first != second
    requires Installable(m, Origin(first, key, env, v, target, repositories))
    ensures var w := Reached(env, repositories, events);
      && first in w.dossiers && HasOrigin(w.dossiers[first], key) && w.dossiers[first].record.Some?
      && w.dossiers[first].record.value.phase.Completed?
      && second in w.dossiers && HasOrigin(w.dossiers[second], key) && w.lock == Some(second)
      && w.dossiers[second].origin.installed == v && Names(w.env, target) && w.dossiers[second].origin.env == w.env
          && target != v
  {
    var c := Call(key, target, Locking(v));
    var w0 := BothReady(env, repositories, c);
    var answers, l := FirstCompletes(env, repositories, c, v, first, m, digest);
    var w1 := TakeLock(w0, 0, c, v, first);
    var w2 := Put(w1, first, l);
    events := (TwoCalls(key, target) + [CallStep(0, None, first)]) + Proceeds(answers, 0) + [CallStep(1, None, second)];
    TwoCallsReach(env, repositories, key, target, v);
    RunSnoc(Boot(env, repositories), TwoCalls(key, target), CallStep(0, None, first));
    LockTaken(w0, 0, c, v, first);
    RunAppend(Boot(env, repositories), TwoCalls(key, target) + [CallStep(0, None, first)], Proceeds(answers, 0));
    RunSnoc(Boot(env, repositories), TwoCalls(key, target) + [CallStep(0, None, first)] + Proceeds(answers, 0),
      CallStep(1, None, second));
    LockTaken(w2, 1, c, v, second);
    InstalledHasLine(env);
    InstalledAfterWrite(env, target);
  }

  // ---------------------------------------------------------------- a run that no restart finishes

  /** A run whose record is stored under its own id and not finished. */
  predicate Open(w: World, id: RunId) {
    id in w.dossiers && Unfinished(w.dossiers[id]) && w.dossiers[id].record.value.id == id
  }

  /** It holds the lock and stands at a save of `execute`. */
  predicate Underway(w: World, id: RunId) {
    Open(w, id) && w.lock == Some(id) && w.process.Busy? && w.process.act.run.id == id
      && w.process.act.pc == At(BeginPreflight)
  }

  lemma FirstSaved(w: World, n: nat, c: Call, v: Version, id: RunId)
    ensures Underway(Step(TakeLock(w, n, c, v, id), Proceed(Ok, 0)), id)
  {
  }

  lemma CrashWithLock(w: World, id: RunId)
    requires Underway(w, id)
    ensures var w' := Step(w, Crash); Open(w', id) && w'.lock == Some(id) && w'.process.Down?
  {
  }

  lemma RestartRecovers(w: World, id: RunId)
    requires Open(w, id) && w.lock == Some(id) && w.process.Down?
    ensures var w' := Step(w, Restart);
      Open(w', id) && w'.lock.None? && w'.process.Busy? && w'.process.act.run.id == id
  {
  }

  lemma CrashWithoutLock(w: World, id: RunId)
    requires Open(w, id) && w.lock.None? && w.process.Busy? && w.process.act.run.id == id
    ensures Orphaned(Step(w, Crash), id)
  {
  }

  /** Two crashes orphan any run: one when it has just been saved, one in the recovery that the restart begins. */
  lemma OrphanReachable(env: string, repositories: Images, key: string, target: Version, v: Version, id: RunId)
    returns (events: seq<Event>)
    requires Names(env, v) && CompareParts(target, v) > 0
    ensures Orphaned(Reached(env, repositories, events), id)
  {
    var c, boot := Call(key, target, Locking(v)), Boot(env, repositories);
    var w := BothReady(env, repositories, c);
    var taken := TwoCalls(key, target) + [CallStep(0, None, id)];
    TwoCallsReach(env, repositories, key, target, v);
    RunSnoc(boot, TwoCalls(key, target), CallStep(0, None, id));
    LockTaken(w, 0, c, v, id);
    FirstSaved(w, 0, c, v, id);
    var saved := taken + [Proceed(Ok, 0)];
    RunSnoc(boot, taken, Proceed(Ok, 0));
    CrashWithLock(Run(boot, saved), id);
    RunSnoc(boot, saved, Crash);
    RestartRecovers(Run(boot, saved + [Crash]), id);
    RunSnoc(boot, saved + [Crash], Restart);
    CrashWithoutLock(Run(boot, saved + [Crash] + [Restart]), id);
    RunSnoc(boot, saved + [Crash] + [Restart], Crash);
    events := saved + [Crash] + [Restart] + [Crash];
  }

  predicate HasOrigin(d: Dossier, key: string) { d.origin.key == key }

  lemma {:induction false} RunAppend(w: World, a: seq<Event>, b: seq<Event>)
    ensures Run(w, a + b) == Run(Run(w, a), b)
  {
    if b == [] {
      assert a + b == a;
    } else {
      var c := b[..|b| - 1];
      RunAppend(w, a, c);
      assert b == c + [b[|b| - 1]] && a + b == (a + c) + [b[|b| - 1]];
      RunSnoc(w, a + c, b[|b| - 1]);
      RunSnoc(Run(w, a), c, b[|b| - 1]);
    }
  }
}
