/**
 * What `install` found out before it took the lock, the version in `.env` and that its key is new, and what can make
 * it untrue before the lock is taken.
 */
module UpdateKeys {
  import opened Text
  import opened Versions
  import opened EnvFile
  import opened UpdateDomain
  import opened UpdatePlan
  import opened UpdateProtocol
  import opened UpdateInvariant
  import opened UpdateExecute
  import opened UpdateExecuteAll
  import opened UpdateRecovery
  import opened UpdateWorld
  import opened UpdateSafety

  function KeyOf(w: World, id: RunId): string
    requires id in w.dossiers
  {
    w.dossiers[id].origin.key
  }

  predicate StoredRun(w: World, id: RunId) { id in w.dossiers && w.dossiers[id].record.Some? }

  /** A stored record carries the key of the call that created it. */
  lemma StoredKey(w: World, id: RunId, key: string)
    requires WorldOK(w) && id in w.dossiers
    ensures HasKey(w.dossiers[id], key) <==> StoredRun(w, id) && KeyOf(w, id) == key
  {
    assert DossierOK(w.dossiers[id]);
    if StoredRun(w, id) { assert RunOK(w.dossiers[id].record.value, w.dossiers[id]); }
  }

  // ---------------------------------------------------------------- first saves

  /** The first save of run `id`. */
  predicate FirstSave(w: World, e: Event, id: RunId) {
    e.Proceed? && w.process.Busy? && w.process.act.run.id == id && id in w.dossiers && w.dossiers[id].record.None?
  }

  lemma TickStores(l: Local, o: Outcome, now: int)
    requires Live(l)
    ensures Tick(l, o, now).d.record.Some?
  {
    if l.act.actor.Executor? && l.d.record.None? { OpeningStores(l, o, now); } else { RecordStays(l, o, now); }
  }

  lemma OpeningStores(l: Local, o: Outcome, now: int)
    requires ExecuteOK(l) && l.d.record.None?
    ensures Tick(l, o, now).d.record.Some?
  {
    assert FilesOK(l);
    assert LagOf(l.act.pc).Opening?;
  }

  lemma RecordStays(l: Local, o: Outcome, now: int)
    requires Live(l) && (l.d.record.None? ==> l.act.actor.Recovery?)
    ensures Tick(l, o, now).d.record.Some?
  {
    if l.act.actor.Recovery? { RecoverTick(l, o, now); } else { TickRecord(l, o, now); }
  }

  /** No step removes a record. */
  lemma TickRecord(l: Local, o: Outcome, now: int)
    requires l.d.record.Some?
    ensures Tick(l, o, now).d.record.Some?
  {
    match l.act.pc
    case At(here) =>
      TickAt(l, here, o, now);
      match OpAt(here, l.act.run) {
      case Some(op) => CommandFrame(l, here, op, o);
      case None => ApplyRecord(l, EffectAt(l, here), now);
      }
    case _ =>
  }

  lemma ApplyRecord(l: Local, e: Effect, now: int)
    requires l.d.record.Some?
    ensures Apply(l, e, now).d.record.Some?
  {
  }

  /** Records appear by first saves only. */
  lemma StoredStep(w: World, e: Event, id: RunId)
    requires WorldOK(w)
    ensures StoredRun(Step(w, e), id) ==> StoredRun(w, id) || FirstSave(w, e, id)
    ensures FirstSave(w, e, id) ==> StoredRun(Step(w, e), id)
    ensures id in w.dossiers ==> id in Step(w, e).dossiers && KeyOf(Step(w, e), id) == KeyOf(w, id)
  {
    if !e.Proceed? { OtherStored(w, e, id); }
    else if w.process.Busy? { ProceedStored(w, w.process.act, e.outcome, e.now, id); }
    else { NothingProceeds(w, e.outcome, e.now); }
  }

  lemma OtherStored(w: World, e: Event, id: RunId)
    requires !e.Proceed?
    ensures var w' := Step(w, e);
      (StoredRun(w', id) ==> StoredRun(w, id))
        && (id in w.dossiers ==> id in w'.dossiers && KeyOf(w', id) == KeyOf(w, id))
  {
    match e
    case Crash => if w.process.Busy? { DieStored(w, w.process.act, id); }
    case CallStep(c, pick, drawn) => if Serving(w) && c in w.calls { CallStored(w, c, pick, drawn, id); }
    case CancelRun(_) => CancelStored(w, e, id);
    case PruneRuns(_) => CancelStored(w, e, id);
    case _ =>
  }

  lemma CallStored(w: World, c: nat, pick: Option<RunId>, drawn: RunId, id: RunId)
    requires c in w.calls
    ensures var w' := StepCall(w, c, w.calls[c], pick, drawn);
      (StoredRun(w', id) ==> StoredRun(w, id))
        && (id in w.dossiers ==> id in w'.dossiers && KeyOf(w', id) == KeyOf(w, id))
  {
  }

  lemma CancelStored(w: World, e: Event, id: RunId)
    requires e.CancelRun? || e.PruneRuns?
    ensures var w' := Step(w, e);
      (StoredRun(w', id) ==> StoredRun(w, id))
        && (id in w.dossiers ==> id in w'.dossiers && KeyOf(w', id) == KeyOf(w, id))
  {
  }

  lemma ProceedStored(w: World, a: Activity, o: Outcome, now: int, id: RunId)
    requires WorldOK(w) && w.process == Busy(a)
    ensures var w' := Step(w, Proceed(o, now));
      && (StoredRun(w', id) ==> StoredRun(w, id) || FirstSave(w, Proceed(o, now), id))
      && (FirstSave(w, Proceed(o, now), id) ==> StoredRun(w', id))
      && (id in w.dossiers ==> id in w'.dossiers && KeyOf(w', id) == KeyOf(w, id))
  {
    var l' := Proceeded(w, a, o, now);
  }

  /** What a step of the activity leaves. */
  lemma Proceeded(w: World, a: Activity, o: Outcome, now: int) returns (l': Local)
    requires WorldOK(w) && w.process == Busy(a)
    ensures a.run.id in w.dossiers && Step(w, Proceed(o, now)) == Put(w, a.run.id, l')
    ensures l'.d.record.Some? && l'.d.origin == w.dossiers[a.run.id].origin && l'.act.run.id == a.run.id
  {
    LiveNow(w, a);
    TickStores(LocalOf(w, a), o, now);
    TickFrame(LocalOf(w, a), o, now);
    StepIsPut(w, a, o, now);
    l' := ProceedFacts(w, a, o, now);
  }

  lemma DieStored(w: World, a: Activity, id: RunId)
    requires w.process == Busy(a)
    ensures StoredRun(Die(w), id) ==> StoredRun(w, id)
    ensures id in w.dossiers ==> id in Die(w).dossiers && KeyOf(Die(w), id) == KeyOf(w, id)
  {
  }

  /** A record that was not there at first was saved for the first time by some event. */
  ghost predicate SavedBy(w: World, events: seq<Event>, id: RunId, i: nat) {
    i < |events| && FirstSave(Run(w, events[..i]), events[i], id)
  }

  lemma {:induction false} RunKeeps(w: World, events: seq<Event>, id: RunId)
    requires WorldOK(w)
    ensures WorldOK(Run(w, events))
    ensures id in w.dossiers ==> id in Run(w, events).dossiers && KeyOf(Run(w, events), id) == KeyOf(w, id)
  {
    if events != [] {
      var before := events[..|events| - 1];
      RunKeeps(w, before, id);
      StepOK(Run(w, before), events[|events| - 1]);
      StoredStep(Run(w, before), events[|events| - 1], id);
    }
  }

  lemma {:induction false} SavedSometime(w: World, events: seq<Event>, id: RunId) returns (i: nat)
    requires WorldOK(w) && StoredRun(Run(w, events), id) && !StoredRun(w, id)
    ensures SavedBy(w, events, id, i)
  {
    var n := |events| - 1;
    var before := events[..n];
    RunKeeps(w, before, id);
    StoredStep(Run(w, before), events[n], id);
    if StoredRun(Run(w, before), id) {
      i := SavedSometime(w, before, id);
      assert before[..i] == events[..i] && before[i] == events[i];
    } else {
      i := n;
    }
  }

  lemma {:induction false} KeyKept(w: World, events: seq<Event>, id: RunId, i: nat)
    requires WorldOK(w) && i <= |events| && id in Run(w, events[..i]).dossiers
    ensures id in Run(w, events).dossiers && KeyOf(Run(w, events), id) == KeyOf(Run(w, events[..i]), id)
  {
    if i == |events| {
      assert events[..i] == events;
    } else {
      var before := events[..|events| - 1];
      assert before[..i] == events[..i];
      KeyKept(w, before, id, i);
      RunKeeps(w, before, id);
      StoredStep(Run(w, before), events[|events| - 1], id);
    }
  }

  /** Some event is the first save of a run with the key, and its record is still stored. */
  ghost predicate SavedSince(w: World, events: seq<Event>, key: string) {
    exists i: nat, id ::
      SavedBy(w, events, id, i) && KeyOf(Run(w, events[..i]), id) == key && StoredRun(Run(w, events), id)
  }

  /** A key found to be unknown stays so until, and exactly until, a run with that key is saved. */
  lemma KeyFoundExactly(w: World, events: seq<Event>, key: string)
    requires WorldOK(w) && KeyUnknown(w, key)
    ensures !KeyUnknown(Run(w, events), key) <==> SavedSince(w, events, key)
  {
    var w' := Run(w, events);
    RunKeeps(w, events, "");
    if SavedSince(w, events, key) {
      var i: nat, id :| SavedBy(w, events, id, i) && KeyOf(Run(w, events[..i]), id) == key && StoredRun(w', id);
      KeyKept(w, events, id, i);
      StoredKey(w', id, key);
    }
    if !KeyUnknown(w', key) {
      var id :| id in w'.dossiers && HasKey(w'.dossiers[id], key);
      StoredKey(w', id, key);
      if StoredRun(w, id) {
        RunKeeps(w, events, id);
        StoredKey(w, id, key);
        assert false;
      } else {
        var i := SavedSometime(w, events, id);
        KeyKept(w, events, id, i);
      }
    }
  }

  // ---------------------------------------------------------------- calls that do not overlap

  /** A call that may still create a run or has created one that is not saved yet. */
  predicate InFlight(w: World, c: nat) {
    c in w.calls && match w.calls[c].state
      case Looking => true case Reading => true case Locking(_) => true
      case Created(id) => Unsaved(w, id)
      case _ => false
  }

  predicate Unsaved(w: World, id: RunId) {
    w.process.Busy? && w.process.act.run.id == id && id in w.dossiers && w.dossiers[id].record.None?
  }

  /** No two calls with one key are in flight together. */
  ghost predicate Serial(w: World) {
    forall b, c :: InFlight(w, b) && InFlight(w, c) && w.calls[b].key == w.calls[c].key ==> b == c
  }

  /** No stored run has the key. */
  ghost predicate Fresh(w: World, key: string) { forall id :: StoredRun(w, id) ==> KeyOf(w, id) != key }

  ghost predicate UniqueKeys(w: World) {
    forall a, b :: StoredRun(w, a) && StoredRun(w, b) && KeyOf(w, a) == KeyOf(w, b) ==> a == b
  }

  /** Past its lookup, a call in flight has a key that no stored run has. */
  ghost predicate CallsFresh(w: World) {
    forall c :: InFlight(w, c) && !w.calls[c].state.Looking? ==> Fresh(w, w.calls[c].key)
  }

  /** Call `c` has created the run that is about to be saved. */
  predicate Creates(w: World, c: nat, id: RunId) {
    c in w.calls && w.calls[c].state == Created(id) && id in w.dossiers && w.calls[c].key == KeyOf(w, id)
  }

  ghost predicate HasCreator(w: World) {
    w.process.Busy? && Unsaved(w, w.process.act.run.id) ==> exists c :: Creates(w, c, w.process.act.run.id)
  }

  predicate CreatedKnown(w: World) {
    forall c :: c in w.calls && w.calls[c].state.Created? ==> w.calls[c].state.id in w.dossiers
  }

  ghost predicate KeysOK(w: World) {
    true <==>
    && UniqueKeys(w) && CallsFresh(w) && HasCreator(w) && CreatedKnown(w)
  }

  lemma FreshIsUnknown(w: World, key: string)
    requires WorldOK(w) && KeyUnknown(w, key)
    ensures Fresh(w, key)
  {
    forall id | StoredRun(w, id) ensures KeyOf(w, id) != key { StoredKey(w, id, key); }
  }

  /** The stored runs and their keys do not grow. */
  ghost predicate NoMore(w: World, w': World) {
    forall id :: StoredRun(w', id) ==> StoredRun(w, id) && KeyOf(w', id) == KeyOf(w, id)
  }

  lemma NoMoreKeys(w: World, w': World)
    requires UniqueKeys(w) && NoMore(w, w')
    ensures UniqueKeys(w')
  {
  }

  lemma CallKeys(w: World, c: nat, pick: Option<RunId>, drawn: RunId)
    requires WorldOK(w) && c in w.calls && KeysOK(w)
    ensures KeysOK(StepCall(w, c, w.calls[c], pick, drawn))
  {
    var w' := StepCall(w, c, w.calls[c], pick, drawn);
    CallStores(w, c, pick, drawn);
    NoMoreKeys(w, w');
    if KeyUnknown(w, w.calls[c].key) { FreshIsUnknown(w, w.calls[c].key); }
    CallFresh(w, c, pick, drawn);
    CallCreator(w, c, pick, drawn);
  }

  lemma CallStores(w: World, c: nat, pick: Option<RunId>, drawn: RunId)
    requires c in w.calls
    ensures NoMore(w, StepCall(w, c, w.calls[c], pick, drawn))
  {
  }

  lemma CallFresh(w: World, c: nat, pick: Option<RunId>, drawn: RunId)
    requires CallsFresh(w) && CreatedKnown(w) && c in w.calls
      && (KeyUnknown(w, w.calls[c].key) ==> Fresh(w, w.calls[c].key))
    requires NoMore(w, StepCall(w, c, w.calls[c], pick, drawn))
    ensures CallsFresh(StepCall(w, c, w.calls[c], pick, drawn))
  {
    var w' := StepCall(w, c, w.calls[c], pick, drawn);
    forall b | InFlight(w', b) && !w'.calls[b].state.Looking? ensures Fresh(w', w'.calls[b].key) {
      if b == c { CallMoves(w, c, pick, drawn); } else { CallOthers(w, c, pick, drawn, b); }
      assert Fresh(w, w'.calls[b].key);
    }
  }

  lemma CallMoves(w: World, c: nat, pick: Option<RunId>, drawn: RunId)
    requires c in w.calls && InFlight(StepCall(w, c, w.calls[c], pick, drawn), c)
    requires !StepCall(w, c, w.calls[c], pick, drawn).calls[c].state.Looking?
    ensures StepCall(w, c, w.calls[c], pick, drawn).calls[c].key == w.calls[c].key
    ensures (w.calls[c].state.Looking? && KeyUnknown(w, w.calls[c].key))
      || (InFlight(w, c) && !w.calls[c].state.Looking?)
  {
  }

  lemma CallOthers(w: World, c: nat, pick: Option<RunId>, drawn: RunId, b: nat)
    requires CreatedKnown(w) && c in w.calls && b != c && InFlight(StepCall(w, c, w.calls[c], pick, drawn), b)
    ensures InFlight(w, b) && StepCall(w, c, w.calls[c], pick, drawn).calls[b] == w.calls[b]
  {
  }

  lemma CallCreator(w: World, c: nat, pick: Option<RunId>, drawn: RunId)
    requires HasCreator(w) && CreatedKnown(w) && c in w.calls
    ensures HasCreator(StepCall(w, c, w.calls[c], pick, drawn)) && CreatedKnown(StepCall(w, c, w.calls[c], pick, drawn))
  {
    var w' := StepCall(w, c, w.calls[c], pick, drawn);
    if w'.process.Busy? && Unsaved(w', w'.process.act.run.id) {
      if w'.process == w.process {
        var b :| Creates(w, b, w.process.act.run.id);
        assert Creates(w', b, w'.process.act.run.id);
      } else {
        assert Creates(w', c, drawn);
      }
    }
  }

  /** A step that adds no stored run, no call past its lookup and no run about to be saved. */
  ghost predicate Harmless(w: World, w': World) {
    && NoMore(w, w')
    && (forall c :: c in w'.calls ==> (c in w.calls && w'.calls[c] == w.calls[c]) || w'.calls[c].state.Looking?)
    && (forall id :: id in w.dossiers ==> id in w'.dossiers && KeyOf(w', id) == KeyOf(w, id))
    && (forall id :: Unsaved(w', id) ==>
        Unsaved(w, id) && w'.calls.Keys >= w.calls.Keys && forall c :: c in w.calls ==> w'.calls[c] == w.calls[c])
  }

  lemma HarmlessKeys(w: World, w': World)
    requires KeysOK(w) && Harmless(w, w')
    ensures KeysOK(w')
  {
    NoMoreKeys(w, w');
    forall c | InFlight(w', c) && !w'.calls[c].state.Looking? ensures Fresh(w', w'.calls[c].key) {
      assert InFlight(w, c) && Fresh(w, w.calls[c].key);
    }
    if w'.process.Busy? && Unsaved(w', w'.process.act.run.id) {
      assert Unsaved(w, w'.process.act.run.id);
      var c :| Creates(w, c, w.process.act.run.id);
      assert Creates(w', c, w'.process.act.run.id);
    }
  }

  lemma CrashHarmless(w: World)
    ensures Harmless(w, Die(w))
  {
    match w.process
    case Busy(a) =>
      if a.run.id in w.dossiers {
        assert AfterCrash(LocalOf(w, a)).record == w.dossiers[a.run.id].record;
      }
    case _ =>
  }

  lemma OtherHarmless(w: World, e: Event)
    requires ProcessOK(w) && DossiersOK(w.dossiers) && (e.Arrive? || e.CancelRun? || e.PruneRuns? || e.Restart?)
    ensures Harmless(w, Step(w, e))
  {
    if e.CancelRun? || e.PruneRuns? { CancelHarmless(w, e); }
    else if e.Arrive? { ArriveHarmless(w, e); }
    else if w.process.Down? { RestartHarmless(w); }
  }

  lemma ArriveHarmless(w: World, e: Event)
    requires e.Arrive?
    ensures Harmless(w, Step(w, e))
  {
  }

  lemma CancelHarmless(w: World, e: Event)
    requires ProcessOK(w) && (e.CancelRun? || e.PruneRuns?)
    ensures Harmless(w, Step(w, e))
  {
    forall id ensures StoredRun(Step(w, e), id) ==> StoredRun(w, id) && KeyOf(Step(w, e), id) == KeyOf(w, id) {
      CancelStored(w, e, id);
    }
    if !Serving(w) {
    } else if e.PruneRuns? {
      PruneHarmless(w, e.ids);
    } else if e.id in w.dossiers {
      FlagHarmless(w, e.id);
    }
  }

  lemma PruneHarmless(w: World, ids: set<RunId>)
    requires ProcessOK(w) && Serving(w) && NoMore(w, Prune(w, ids))
    ensures Harmless(w, Prune(w, ids))
  {
    if w.process.Busy? { assert Current(w) == Some(w.process.act.run.id); }
  }

  lemma FlagHarmless(w: World, id: RunId)
    requires Serving(w) && id in w.dossiers
    requires NoMore(w, w.(dossiers := w.dossiers[id := Cancel(w.dossiers[id])]))
    ensures Harmless(w, w.(dossiers := w.dossiers[id := Cancel(w.dossiers[id])]))
  {
  }

  lemma RestartHarmless(w: World)
    requires DossiersOK(w.dossiers) && w.process.Down?
    ensures Harmless(w, Initialize(w))
  {
    if w.lock.Some? && w.lock.value in w.dossiers && Unfinished(w.dossiers[w.lock.value]) {
      OwnId(w, w.lock.value);
      ActivityHarmless(w, Busy(Resume(w.dossiers[w.lock.value], w.env, w.dossiers[w.lock.value].record.value).act));
    } else {
      ActivityHarmless(w, Ready);
    }
  }

  /** Nothing but the activity and the lock changes, and no run is waiting to be saved. */
  lemma ActivityHarmless(w: World, p: Process)
    requires p.Busy? ==> p.act.run.id in w.dossiers && w.dossiers[p.act.run.id].record.Some?
    ensures Harmless(w, w.(lock := None, process := p))
  {
  }

  lemma OwnId(w: World, id: RunId)
    requires DossiersOK(w.dossiers) && StoredRun(w, id)
    ensures w.dossiers[id].record.value.id == id
  {
    assert DossierOK(w.dossiers[id]) && RunOK(w.dossiers[id].record.value, w.dossiers[id]);
  }

  lemma PutHarmless(w: World, id: RunId, l': Local)
    requires id in w.dossiers && w.dossiers[id].record.Some? && l'.d.record.Some?
      && l'.d.origin == w.dossiers[id].origin && l'.act.run.id == id
    ensures Harmless(w, Put(w, id, l'))
  {
  }

  /** A step of a run that is already stored. */
  lemma ProceedHarmless(w: World, a: Activity, o: Outcome, now: int)
    requires WorldOK(w) && w.process == Busy(a) && a.run.id in w.dossiers && w.dossiers[a.run.id].record.Some?
    ensures Harmless(w, Step(w, Proceed(o, now)))
  {
    var l' := Proceeded(w, a, o, now);
    PutHarmless(w, a.run.id, l');
  }

  /** The first save of a run: its creator was the only call in flight with that key. */
  lemma FirstSaveKeys(w: World, a: Activity, o: Outcome, now: int)
    requires WorldOK(w) && KeysOK(w) && Serial(w) && w.process == Busy(a) && FirstSave(w, Proceed(o, now), a.run.id)
    ensures KeysOK(Step(w, Proceed(o, now)))
  {
    var l' := Proceeded(w, a, o, now);
    PutFirst(w, a, l');
  }

  lemma PutFirst(w: World, a: Activity, l': Local)
    requires KeysOK(w) && Serial(w) && w.process == Busy(a) && Unsaved(w, a.run.id)
    requires l'.d.record.Some? && l'.d.origin == w.dossiers[a.run.id].origin && l'.act.run.id == a.run.id
    ensures KeysOK(Put(w, a.run.id, l'))
  {
    var w' := Put(w, a.run.id, l');
    var c :| Creates(w, c, a.run.id);
    assert InFlight(w, c) && Fresh(w, KeyOf(w, a.run.id));
    assert forall id :: StoredRun(w', id) ==> (StoredRun(w, id) || id == a.run.id) && KeyOf(w', id) == KeyOf(w, id);
    forall b | InFlight(w', b) && !w'.calls[b].state.Looking? ensures Fresh(w', w'.calls[b].key) {
      assert InFlight(w, b) && b != c && Fresh(w, w.calls[b].key);
    }
  }

  lemma KeysStep(w: World, e: Event)
    requires WorldOK(w) && KeysOK(w) && Serial(w)
    ensures KeysOK(Step(w, e))
  {
    match e
    case CallStep(c, pick, drawn) => if Serving(w) && c in w.calls { CallKeys(w, c, pick, drawn); }
    case Proceed(o, now) =>
      if w.process.Busy? {
        var a := w.process.act;
        LiveNow(w, a);
        if w.dossiers[a.run.id].record.None? { FirstSaveKeys(w, a, o, now); }
        else { ProceedHarmless(w, a, o, now); HarmlessKeys(w, Step(w, e)); }
      }
    case Crash => CrashHarmless(w); HarmlessKeys(w, Step(w, e));
    case _ => OtherHarmless(w, e); HarmlessKeys(w, Step(w, e));
  }

  /** If no two calls with one key are ever in flight together, no two stored runs ever have one key. */
  lemma {:induction false} SerialCallsUnique(env: string, repositories: Images, events: seq<Event>)
    requires forall i :: 0 <= i < |events| ==> Serial(Run(Boot(env, repositories), events[..i]))
    ensures KeysOK(Run(Boot(env, repositories), events)) && UniqueKeys(Run(Boot(env, repositories), events))
  {
    if events != [] {
      var n := |events| - 1;
      var before := events[..n];
      assert forall i :: 0 <= i < n ==> before[..i] == events[..i];
      assert before == events[..n];
      SerialCallsUnique(env, repositories, before);
      ReachableOK(env, repositories, before);
      KeysStep(Run(Boot(env, repositories), before), events[n]);
    }
  }

  // ---------------------------------------------------------------- writes of `.env`

  /** The text that an event writes into `.env`. */
  function Written(w: World, e: Event): Option<string> {
    if e.Proceed? && w.process.Busy? && w.process.act.run.id in w.dossiers && w.process.act.pc.At?
    then WrittenAt(w.dossiers[w.process.act.run.id], w.process.act.pc.here) else None
  }

  /** The text written at an await: the target's, the one found at the lock, or the installed version's. */
  function WrittenAt(d: Dossier, here: Label): Option<string> {
    match here
    case WritingTarget => Some(NewText(d))
    case CancelRestoring => Some(d.origin.env)
    case RestoringEnv(_) => Some(d.origin.env)
    case RollbackEnv(_) => Some(d.origin.env)
    case RecoverEnv => Some(Rewritten(d.origin, d.origin.installed))
    case _ => None
  }

  /** The text the last of the events that wrote `.env` wrote. */
  function LastWritten(w: World, events: seq<Event>): Option<string> {
    if events == [] then None
    else
      var before := events[..|events| - 1];
      var last := Written(Run(w, before), events[|events| - 1]);
      if last.Some? then last else LastWritten(w, before)
  }

  function Or(text: Option<string>, other: string): string { if text.Some? then text.value else other }

  lemma TickWrites(l: Local, o: Outcome, now: int)
    requires Live(l)
    ensures Tick(l, o, now).env == Or(if l.act.pc.At? then WrittenAt(l.d, l.act.pc.here) else None, l.env)
  {
    match l.act.pc
    case At(here) =>
      TickAt(l, here, o, now);
      if OpAt(here, l.act.run).Some? { CommandEnv(l, here, OpAt(here, l.act.run).value, o); }
      else if l.act.actor.Executor? { ExecuteWrites(l, here, now); }
      else { RecoverWrites(l, here, now); }
    case _ =>
  }

  lemma CommandEnv(l: Local, here: Label, op: Operation, o: Outcome)
    requires OpAt(here, l.act.run) == Some(op)
    ensures CommandStep(l, here, op, o).env == l.env && WrittenAt(l.d, here).None?
  {
    CommandFrame(l, here, op, o);
    OperationWritesNot(l.d, here, l.act.run);
  }

  lemma OperationWritesNot(d: Dossier, here: Label, run: UpdateRun)
    requires OpAt(here, run).Some?
    ensures WrittenAt(d, here).None?
  {
  }

  /** What an effect does to `.env`. */
  lemma ApplyEnv(l: Local, e: Effect, now: int)
    ensures Apply(l, e, now).env == if e.Writes? then e.text else l.env
  {
  }

  lemma EffectWrites(l: Local, here: Label)
    ensures WrittenAt(l.d, here).None? ==> !EffectAt(l, here).Writes?
    ensures here.CancelRestoring? || here.RestoringEnv? || here.RollbackEnv? ==>
      EffectAt(l, here).Writes? && EffectAt(l, here).text == l.act.originalEnv
  {
    if WrittenAt(l.d, here).None? { WritesNothing(l, here); }
  }

  lemma WritesNothing(l: Local, here: Label)
    requires WrittenAt(l.d, here).None?
    ensures !EffectAt(l, here).Writes?
  {
  }

  lemma ExecuteWrites(l: Local, here: Label, now: int)
    requires ExecuteOK(l) && l.act.pc == At(here)
    ensures InternalStep(l, here, now).env == Or(WrittenAt(l.d, here), l.env)
  {
    if here.WritingTarget? {
      TargetWrites(l, now);
    } else if here.CancelRestoring? || here.RestoringEnv? || here.RollbackEnv? {
      KeptText(l, here);
      RestoreWrites(l, here, now);
    } else if WrittenAt(l.d, here).None? {
      EffectWrites(l, here);
      ApplyEnv(l, EffectAt(l, here), now);
    } else {
      StaysInside(l);
      assert false;
    }
  }

  lemma TargetWrites(l: Local, now: int)
    requires ExecuteOK(l) && l.act.pc == At(WritingTarget)
    ensures InternalStep(l, WritingTarget, now).env == NewText(l.d)
  {
    WritingStages();
    StandingForward(l, WritingTarget, Stage(Backup, 4, false, false, 1));
    TargetOfRun(l);
    WriteResult(l, now);
  }

  lemma KeptText(l: Local, here: Label)
    requires ExecuteOK(l) && l.act.pc == At(here) && (here.CancelRestoring? || here.RestoringEnv? || here.RollbackEnv?)
    ensures l.act.originalEnv == l.d.origin.env
  {
    if here.CancelRestoring? {
      CheckpointStages();
      StandingForward(l, CancelRestoring, Stage(Pulling, 5, true, true, 1));
    } else {
      CatchLabel(here);
      StandingCatch(l, here);
      CatchKept(l, here);
    }
  }

  lemma CatchKept(l: Local, here: Label)
    requires InCatch(l, here) && (here.RestoringEnv? || here.RollbackEnv?)
    ensures l.act.originalEnv == l.d.origin.env
  {
  }

  lemma RestoreWrites(l: Local, here: Label, now: int)
    requires here.CancelRestoring? || here.RestoringEnv? || here.RollbackEnv?
    ensures InternalStep(l, here, now).env == l.act.originalEnv
  {
    EffectWrites(l, here);
    ApplyEnv(l, EffectAt(l, here), now);
  }

  lemma RecoverWrites(l: Local, here: Label, now: int)
    requires RecoverOK(l) && l.act.pc == At(here)
    ensures InternalStep(l, here, now).env == Or(WrittenAt(l.d, here), l.env)
  {
    ApplyEnv(l, EffectAt(l, here), now);
    EffectWrites(l, here);
    RecoverPlaces(l, here);
    if here.RecoverEnv? { RecoverEnvWrites(l); }
  }

  lemma RecoverPlaces(l: Local, here: Label)
    requires RecoverOK(l) && l.act.pc == At(here)
    ensures here.RecoverEnv? || WrittenAt(l.d, here).None?
  {
  }

  lemma RecoverEnvWrites(l: Local)
    requires RecoverOK(l) && l.act.pc == At(RecoverEnv)
    ensures EffectAt(l, RecoverEnv).Writes?
    ensures EffectAt(l, RecoverEnv).text == Rewritten(l.d.origin, l.d.origin.installed)
  {
    InstalledWritten(l);
  }

  lemma StepWrites(w: World, e: Event)
    requires WorldOK(w)
    ensures Step(w, e).env == Or(Written(w, e), w.env)
  {
    if e.Proceed? && w.process.Busy? {
      LiveNow(w, w.process.act);
      TickWrites(LocalOf(w, w.process.act), e.outcome, e.now);
    } else {
      OtherEnv(w, e);
    }
  }

  lemma OtherEnv(w: World, e: Event)
    requires !e.Proceed? || !w.process.Busy?
    ensures Step(w, e).env == w.env
  {
    if e.CallStep? && Serving(w) && e.call in w.calls { CallEnv(w, e.call, e.pick, e.drawn); }
  }

  lemma CallEnv(w: World, c: nat, pick: Option<RunId>, drawn: RunId)
    requires c in w.calls
    ensures StepCall(w, c, w.calls[c], pick, drawn).env == w.env
  {
  }

  /** `.env` holds what the last write put there, whichever run, recovery or rollback made it. */
  lemma {:induction false} EnvIsLastWritten(w: World, events: seq<Event>)
    requires WorldOK(w)
    ensures Run(w, events).env == Or(LastWritten(w, events), w.env)
  {
    if events != [] {
      var before := events[..|events| - 1];
      EnvIsLastWritten(w, before);
      RunKeeps(w, before, "");
      StepWrites(Run(w, before), events[|events| - 1]);
    }
  }

  /**
   * `install` takes the lock with the version it read before. That version is the one `.env` names at the lock if
   * and only if the last write of `.env` since the read, if there was one, wrote it.
   */
  lemma StaleReadExactly(w: World, events: seq<Event>, c: nat, drawn: RunId, v: Version)
    requires WorldOK(w) && InstalledVersion(w.env) == Some(v)
    requires var w1 := Run(w, events);
      && Serving(w1) && c in w1.calls && w1.calls[c].state == Locking(v)
      && w1.lock.None? && w1.process.Ready? && drawn !in w1.dossiers
    ensures var w2 := Step(Run(w, events), CallStep(c, None, drawn));
      && drawn in w2.dossiers && w2.dossiers[drawn].origin.installed == v && w2.lock == Some(drawn)
      && (InstalledVersion(w2.dossiers[drawn].origin.env) == Some(v) <==>
            LastWritten(w, events).None? || InstalledVersion(LastWritten(w, events).value) == Some(v))
  {
    EnvIsLastWritten(w, events);
  }
}
