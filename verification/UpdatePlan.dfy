/**
 * What a run may do to the outside world, as a language of operation traces.
 * The trace of a run is the list of operations issued on its behalf, each with the text of `.env`
 * at that moment and its result; `Interrupted` marks an operation cut off by a crash.
 */
module UpdatePlan {
  import opened Versions
  import opened EnvFile
  import opened UpdateDomain

  /** The circumstances in which a run took the lock. */
  datatype Origin = Origin(id: RunId, key: string, env: string, installed: Version, target: Version,
    repositories: Images)

  datatype Actor = Executor | Recovery

  datatype Operation =
    | FetchRelease | CheckCompatibility | CheckHost | TakeBackup | PullImages
    | InspectImage(service: Service) | VerifyProvenance(service: Service)
    | MigrateDeploy | MigrateStatus | ComposeUp | HealthCheck(version: Version) | InspectDeployment

  datatype Result = Succeeded | Broke | Interrupted

  datatype Entry = Entry(actor: Actor, op: Operation, env: string, result: Result)

  /** The operations of a complete update, in order. */
  const STEPS: nat := 15

  function Script(k: nat, target: Version): Operation
    requires k < STEPS
  {
    match k
    case 0 => FetchRelease case 1 => CheckCompatibility case 2 => CheckHost case 3 => TakeBackup case 4 => PullImages
    case 5 => InspectImage(Api) case 6 => VerifyProvenance(Api)
    case 7 => InspectImage(Web) case 8 => VerifyProvenance(Web)
    case 9 => InspectImage(Worker) case 10 => VerifyProvenance(Worker)
    case 11 => MigrateDeploy case 12 => MigrateStatus case 13 => ComposeUp
    case _ => HealthCheck(target)
  }

  /** The text of `.env` that names `v` in the place of the text at the start of the run. */
  function Rewritten(o: Origin, v: Version): string {
    match WriteVersion(o.env, v) case Some(text) => text case None => o.env
  }

  /** Progress through the script, or the way it was left. */
  datatype Progress =
    | Forward(done: nat)        // the first `done` operations succeeded
    | Halted(done: nat)         // operation `done` broke
    | Cut(done: nat)            // a crash cut off an operation after `done` successes
    | RolledUp(done: nat)       // the old release was started again
    | RolledChecked(done: nat)  // and found healthy
    | RollbackBroke(done: nat)  // starting or checking the old release broke
    | Recovered(done: nat)      // a restart looked at the outcome
    | Illegal
  {
    /** How many operations of the script succeeded. */
    function Done(): nat { if Illegal? then 0 else done }
  }

  /** `e` is operation `k` of the script, issued with the text of `.env` the script prescribes. */
  predicate Expected(o: Origin, k: nat, e: Entry) {
    k < STEPS && e.op == Script(k, o.target) && e.env == (if k < 4 then o.env else Rewritten(o, o.target))
  }

  function Advance(o: Origin, p: Progress, e: Entry): Progress {
    if e.actor.Recovery? then
      if (p.Illegal? || p.Recovered?)
        || !(e.op.MigrateStatus? || e.op.HealthCheck? || e.op.InspectDeployment?) then Illegal
      else Recovered(p.Done())
    else match p
      case Forward(k) =>
        if Expected(o, k, e) then
          match e.result case Succeeded => Forward(k + 1) case Broke => Halted(k) case Interrupted => Cut(k)
        else Illegal
      case Halted(k) =>
        if (k == 13 || k == 14) && e.op.ComposeUp? && e.env == o.env then
          match e.result case Succeeded => RolledUp(k) case Broke => RollbackBroke(k) case Interrupted => Cut(k)
        else Illegal
      case RolledUp(k) =>
        if e.op == HealthCheck(o.installed) && e.env == o.env then
          match e.result case Succeeded => RolledChecked(k) case Broke => RollbackBroke(k) case Interrupted => Cut(k)
        else Illegal
      case _ => Illegal
  }

  function ProgressOf(o: Origin, trace: seq<Entry>): Progress {
    if trace == [] then Forward(0) else Advance(o, ProgressOf(o, trace[..|trace| - 1]), trace[|trace| - 1])
  }

  /** The trace follows the plan. */
  predicate Follows(o: Origin, trace: seq<Entry>) { !ProgressOf(o, trace).Illegal? }

  /** The operations that change images, data or services. */
  predicate IsMutation(op: Operation) { op.PullImages? || op.MigrateDeploy? || op.ComposeUp? }

  lemma AppendAdvances(o: Origin, trace: seq<Entry>, e: Entry)
    ensures ProgressOf(o, trace + [e]) == Advance(o, ProgressOf(o, trace), e)
  {
    assert (trace + [e])[..|trace|] == trace;
  }

  predicate LengthFits(p: Progress, n: nat) {
    match p
    case Forward(k) => n == k <= STEPS
    case Halted(k) => n == k + 1 <= STEPS
    case Cut(k) => k + 1 <= n <= k + 3 && k < STEPS && (n > k + 1 ==> (k == 13 || k == 14))
    case RolledUp(k) => n == k + 2 && (k == 13 || k == 14)
    case RolledChecked(k) => n == k + 3 && (k == 13 || k == 14)
    case RollbackBroke(k) => k + 2 <= n <= k + 3 && (k == 13 || k == 14)
    case Recovered(k) => k + 1 <= n <= k + 4 && k <= STEPS
    case Illegal => false
  }

  /** How long the trace is, read off the progress. */
  lemma {:induction false} LengthBound(o: Origin, trace: seq<Entry>)
    requires Follows(o, trace)
    ensures LengthFits(ProgressOf(o, trace), |trace|)
  {
    if trace != [] { LengthBound(o, trace[..|trace| - 1]); }
  }

  /** What the entry at position `i` of a trace with `done` successes may be. */
  predicate FitsAt(o: Origin, done: nat, i: nat, e: Entry) {
    if i < done then Expected(o, i, e) && e.actor.Executor? && e.result.Succeeded?
    else if e.actor.Recovery? then !IsMutation(e.op)
    else if i == done then Expected(o, i, e) && !e.result.Succeeded?
    else
      && (done == 13 || done == 14) && e.env == o.env
      && ((e.op.ComposeUp? && i == done + 1) || (e.op == HealthCheck(o.installed) && i == done + 2))
  }

  lemma PrefixFollows(o: Origin, trace: seq<Entry>)
    requires Follows(o, trace) && trace != []
    ensures Follows(o, trace[..|trace| - 1])
    ensures ProgressOf(o, trace) == Advance(o, ProgressOf(o, trace[..|trace| - 1]), trace[|trace| - 1])
  {
  }

  /**
   * The shape of every trace that follows the plan: the successful script operations stand at its head in
   * script order; after them come at most one broken script operation, the rollback, and the restart's look.
   */
  lemma {:induction false} TraceShape(o: Origin, trace: seq<Entry>, i: nat)
    requires Follows(o, trace) && i < |trace|
    ensures FitsAt(o, ProgressOf(o, trace).Done(), i, trace[i])
  {
    var t := trace[..|trace| - 1];
    PrefixFollows(o, trace);
    if i < |t| { TraceShape(o, t, i); }
    ShapeStep(o, t, trace[|trace| - 1], i, trace[i]);
  }

  lemma ShapeStep(o: Origin, t: seq<Entry>, last: Entry, i: nat, e: Entry)
    requires Follows(o, t) && !Advance(o, ProgressOf(o, t), last).Illegal? && i <= |t|
    requires if i < |t| then e == t[i] && FitsAt(o, ProgressOf(o, t).Done(), i, e) else e == last
    ensures FitsAt(o, Advance(o, ProgressOf(o, t), last).Done(), i, e)
  {
    LengthBound(o, t);
    if i < |t| { EarlierFits(o, t, last, i); } else { LastFits(o, t, last); }
  }

  lemma EarlierFits(o: Origin, t: seq<Entry>, e: Entry, i: nat)
    requires i < |t| && FitsAt(o, ProgressOf(o, t).Done(), i, t[i]) && !Advance(o, ProgressOf(o, t), e).Illegal?
    requires LengthFits(ProgressOf(o, t), |t|)
    ensures FitsAt(o, Advance(o, ProgressOf(o, t), e).Done(), i, t[i])
  {
  }

  lemma LastFits(o: Origin, t: seq<Entry>, e: Entry)
    requires !Advance(o, ProgressOf(o, t), e).Illegal?
    requires LengthFits(ProgressOf(o, t), |t|)
    ensures FitsAt(o, Advance(o, ProgressOf(o, t), e).Done(), |t|, e)
  {
  }

  /**
   * Where images, data and services are changed: `pull` is entry 4, `migrate deploy` entry 11 and the first `up`
   * entry 13, each with `.env` naming the target and everything before it done; any other change is the one `up`
   * of the rollback, with the old text of `.env`, after script operation 13 or 14 broke.
   */
  lemma MutationsAreScripted(o: Origin, trace: seq<Entry>, i: nat)
    requires Follows(o, trace) && i < |trace| && IsMutation(trace[i].op)
    ensures trace[i].actor.Executor?
    ensures
      || (&& i == (if trace[i].op.PullImages? then 4 else if trace[i].op.MigrateDeploy? then 11 else 13)
          && trace[i].env == Rewritten(o, o.target)
          && forall j :: 0 <= j < i ==> trace[j].op == Script(j, o.target) && trace[j].result.Succeeded?)
      || (&& trace[i].op.ComposeUp? && trace[i].env == o.env && (i == 14 || i == 15)
          && trace[i - 1].op == Script(i - 1, o.target) && trace[i - 1].result.Broke?)
  {
    var done := ProgressOf(o, trace).Done();
    TraceShape(o, trace, i);
    if i <= done {
      forall j | 0 <= j < i ensures trace[j].op == Script(j, o.target) && trace[j].result.Succeeded? {
        TraceShape(o, trace, j);
      }
    } else {
      TraceShape(o, trace, i - 1);
      BrokeBeforeRollback(o, trace, i);
    }
  }

  /** Only a broken operation is rolled back; a crash never is. */
  lemma {:induction false} BrokeBeforeRollback(o: Origin, trace: seq<Entry>, i: nat)
    requires Follows(o, trace) && 0 < i < |trace| && trace[i].op.ComposeUp? && trace[i].actor.Executor?
    requires i == ProgressOf(o, trace).Done() + 1
    ensures trace[i - 1].result.Broke? && trace[i - 1].actor.Executor?
  {
    var t := trace[..|trace| - 1];
    LengthBound(o, trace);
    LengthBound(o, t);
    if i < |t| {
      BrokeBeforeRollback(o, t, i);
    } else if t != [] {
      LastIsBroke(o, t);
    }
  }

  lemma LastIsBroke(o: Origin, t: seq<Entry>)
    requires t != [] && ProgressOf(o, t).Halted?
    ensures t[|t| - 1].result.Broke? && t[|t| - 1].actor.Executor?
  {
  }

  /** Every change is made at most once, `up` at most once for each of the two texts of `.env`. */
  lemma MutationsAtMostOnce(o: Origin, trace: seq<Entry>, i: nat, j: nat)
    requires Follows(o, trace) && i < j < |trace| && IsMutation(trace[i].op) && trace[i].op == trace[j].op
    ensures trace[i].op.ComposeUp? && trace[i].env == Rewritten(o, o.target) && trace[j].env == o.env
    ensures i == 13 && (j == 14 || j == 15)
  {
    MutationsAreScripted(o, trace, i);
    MutationsAreScripted(o, trace, j);
    TraceShape(o, trace, i);
    TraceShape(o, trace, j);
  }
}
