/** The updater process: install calls interleaved at their awaits, cancellations, pruning, crashes and restarts. */
module UpdateWorld {
  import opened Text
  import opened Versions
  import opened EnvFile
  import opened UpdateDomain
  import opened UpdatePlan
  import opened UpdateProtocol

  datatype Refusal = EnvUnreadable | TargetNotNewer | UpdateInProgress

  /** Where an `install` call stands. */
  datatype CallState =
    | Looking                        // first lookup by idempotency key
    | Reading                        // reads the installed version
    | Locking(installed: Version)    // tries to create the lock
    | Retrying(attempt: nat)         // the lock was held: looks up again, ten times
    | Returned(run: UpdateRun) | Created(id: RunId) | Rejected(reason: Refusal)

  datatype Call = Call(key: string, target: Version, state: CallState)

  datatype Process = Down | Ready | Busy(act: Activity)

  /**
   * Files, live calls, the process, and two histories that no code reads: the run that took the lock last, and
   * the runs whose recovery died before it saved an outcome.
   */
  datatype World = World(
    dossiers: map<RunId, Dossier>, lock: Option<RunId>, env: string, calls: map<nat, Call>, process: Process,
    repositories: Images, latest: Option<RunId>, orphans: set<RunId>)

  datatype Event =
    | Arrive(call: nat, key: string, target: Version)
    | CallStep(call: nat, pick: Option<RunId>, drawn: RunId)   // `pick`: what a lookup finds; `drawn`: the id drawn
    | CancelRun(id: RunId)
    | PruneRuns(ids: set<RunId>)
    | Proceed(outcome: Outcome, now: int)
    | Crash
    | Restart

  function Boot(env: string, repositories: Images): World {
    World(map[], None, env, map[], Down, repositories, None, {})
  }

  /** The socket is open: requests are answered. It is opened after `initialize`. */
  predicate Serving(w: World) { w.process.Ready? || (w.process.Busy? && w.process.act.actor.Executor?) }

  /** The run that holds the lock or is being recovered. */
  function Current(w: World): Option<RunId> {
    if w.lock.Some? then w.lock else if w.process.Busy? then Some(w.process.act.run.id) else None
  }

  function LocalOf(w: World, a: Activity): Local
    requires a.run.id in w.dossiers
  {
    Local(w.dossiers[a.run.id], w.env, w.lock == Some(a.run.id), a)
  }

  /** The world after the activity of run `id` moved to `l`. */
  function Put(w: World, id: RunId, l: Local): World {
    w.(dossiers := w.dossiers[id := l.d], env := l.env, lock := if l.locked then Some(id) else None,
       process := if l.act.pc == At(Done) then Ready else Busy(l.act))
  }

  /** The stored record is in a phase that is not final. */
  predicate Unfinished(d: Dossier) { d.record.Some? && !Terminal(d.record.value.phase) }

  predicate HasKey(d: Dossier, key: string) { d.record.Some? && d.record.value.idempotencyKey == key }

  /** No stored record carries the key. */
  predicate KeyUnknown(w: World, key: string) { forall id :: id in w.dossiers ==> !HasKey(w.dossiers[id], key) }

  function SetCall(w: World, c: nat, call: Call, state: CallState): World {
    w.(calls := w.calls[c := call.(state := state)])
  }

  /** A lookup by idempotency key: what it finds is returned, otherwise the call goes on as `missing`. */
  function Lookup(w: World, c: nat, call: Call, pick: Option<RunId>, missing: CallState): World {
    match pick
    case Some(id) =>
      if id in w.dossiers && HasKey(w.dossiers[id], call.key)
        then SetCall(w, c, call, Returned(w.dossiers[id].record.value)) else w
    case None => if KeyUnknown(w, call.key) then SetCall(w, c, call, missing) else w
  }

  /** The lock is taken for a new run; its first save is the next step of the new activity. */
  function TakeLock(w: World, c: nat, call: Call, installed: Version, drawn: RunId): World {
    var l := Begin(Origin(drawn, call.key, w.env, installed, call.target, w.repositories));
    SetCall(w, c, call, Created(drawn)).(
      dossiers := w.dossiers[drawn := l.d], lock := Some(drawn), latest := Some(drawn), process := Busy(l.act))
  }

  function StepCall(w: World, c: nat, call: Call, pick: Option<RunId>, drawn: RunId): World {
    match call.state
    case Looking => Lookup(w, c, call, pick, Reading)
    case Reading =>
      (match InstalledVersion(w.env)
      case None => SetCall(w, c, call, Rejected(EnvUnreadable))
      case Some(v) =>
        SetCall(w, c, call, if CompareParts(call.target, v) <= 0 then Rejected(TargetNotNewer) else Locking(v)))
    case Locking(v) =>
      if w.lock.Some? then SetCall(w, c, call, Retrying(0))
      else if drawn !in w.dossiers && w.process.Ready? then TakeLock(w, c, call, v, drawn) else w
    case Retrying(n) => Lookup(w, c, call, pick, if n + 1 < 10 then Retrying(n + 1) else Rejected(UpdateInProgress))
    case _ => w
  }

  /** Old records of finished runs are removed; which ones does not matter here. */
  function Prune(w: World, ids: set<RunId>): World {
    w.(dossiers := map id | id in w.dossiers ::
      if id in ids && Current(w) != Some(id) && w.dossiers[id].record.Some?
        && Terminal(w.dossiers[id].record.value.phase)
      then w.dossiers[id].(record := None) else w.dossiers[id])
  }

  /** The process dies. */
  function Die(w: World): World {
    match w.process
    case Busy(a) =>
      if a.run.id in w.dossiers then
        w.(dossiers := w.dossiers[a.run.id := AfterCrash(LocalOf(w, a))], calls := map[], process := Down,
           orphans :=
             if a.actor.Recovery? && Unfinished(w.dossiers[a.run.id]) then w.orphans + {a.run.id} else w.orphans)
      else w
    case _ => w.(calls := map[], process := Down)
  }

  /** `initialize`: an interrupted run is taken, the lock dropped, and the recovery begins. */
  function Initialize(w: World): World {
    match w.lock
    case None => w.(process := Ready)
    case Some(id) =>
      if id in w.dossiers && Unfinished(w.dossiers[id])
      then w.(lock := None, process := Busy(Resume(w.dossiers[id], w.env, w.dossiers[id].record.value).act))
      else w.(lock := None, process := Ready)
  }

  /** One event; an event that is not possible in `w` changes nothing. */
  function Step(w: World, e: Event): World {
    match e
    case Arrive(c, key, target) =>
      if Serving(w) && c !in w.calls then w.(calls := w.calls[c := Call(key, target, Looking)]) else w
    case CallStep(c, pick, drawn) => if Serving(w) && c in w.calls then StepCall(w, c, w.calls[c], pick, drawn) else w
    case CancelRun(id) =>
      if Serving(w) && id in w.dossiers then w.(dossiers := w.dossiers[id := Cancel(w.dossiers[id])]) else w
    case PruneRuns(ids) => if Serving(w) then Prune(w, ids) else w
    case Proceed(o, now) =>
      if w.process.Busy? && w.process.act.run.id in w.dossiers
      then Put(w, w.process.act.run.id, Tick(LocalOf(w, w.process.act), o, now)) else w
    case Crash => Die(w)
    case Restart => if w.process.Down? then Initialize(w) else w
  }

  function Run(w: World, events: seq<Event>): World {
    if events == [] then w else Step(Run(w, events[..|events| - 1]), events[|events| - 1])
  }
}
