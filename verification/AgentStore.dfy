/** The updater's directory: the lock, one record and one event log per run, and their pruning. */
module AgentStore {
  import opened Text
  import opened UpdateDomain
  import opened UpdateProtocol
  import opened StableSort

  /** A stored record with the time its run was created. */
  datatype Stored = Stored(run: UpdateRun, createdAt: int)

  /** How many finished runs `pruneRuns` keeps when it is not told. */
  const KEEP: nat := 200

  /** `^[a-f0-9-]{36}$` */
  predicate IsRunId(id: string) {
    |id| == 36 && forall k :: 0 <= k < 36 ==> 'a' <= id[k] <= 'f' || IsDigit(id[k]) || id[k] == '-'
  }

  /** The texts that `randomUUID` gives are ids. */
  lemma UuidIsId(h: string)
    requires |h| == 32 && forall k :: 0 <= k < 32 ==> h[k] in "0123456789abcdef"
    ensures IsRunId(h[..8] + "-" + h[8..12] + "-" + h[12..16] + "-" + h[16..20] + "-" + h[20..])
  {
    var id := h[..8] + "-" + h[8..12] + "-" + h[12..16] + "-" + h[16..20] + "-" + h[20..];
    forall k | 0 <= k < 36 ensures 'a' <= id[k] <= 'f' || IsDigit(id[k]) || id[k] == '-' {
      assert id[k] == '-' || id[k] in h;
    }
  }

  /** No id leads out of the directory of records or to a file of another kind. */
  lemma IdIsOneName(id: string)
    requires IsRunId(id)
    ensures |id| == 36 && forall c :: c in id ==> c in "0123456789abcdef-"
  {
  }

  predicate Finished(s: Stored) { Terminal(s.run.status) }

  /** The events with a sequence above `after`. */
  function Newer(log: seq<LogEvent>, after: int): (r: seq<LogEvent>) {
    if log == [] then []
    else if log[0].sequence > after then [log[0]] + Newer(log[1..], after) else Newer(log[1..], after)
  }

  /** Above `after` a reader finds what was there before and then, if its number is larger, `e`. */
  predicate GivesAfter(log: seq<LogEvent>, e: LogEvent, log': seq<LogEvent>, after: int) {
    Newer(log', after) == Newer(log, after) + (if e.sequence > after then [e] else [])
  }

  /** Every reader, wherever it stands, is given `e` when it is due. */
  ghost predicate Grows(log: seq<LogEvent>, e: LogEvent, log': seq<LogEvent>) {
    forall after: int :: GivesAfter(log, e, log', after)
  }

  lemma {:induction false} NewerAppend(log: seq<LogEvent>, e: LogEvent, after: int)
    ensures GivesAfter(log, e, log + [e], after)
  {
    if log != [] {
      NewerAppend(log[1..], e, after);
      assert (log + [e])[1..] == log[1..] + [e];
    }
  }

  function Recency(s: Stored): int { -s.createdAt }

  /** The run with this id stands in the listing from `from` up to `to`. */
  predicate RemovedBy(listing: seq<Stored>, from: nat, to: nat, id: RunId) {
    exists k :: from <= k < to && k < |listing| && listing[k].run.id == id
  }

  /** `sorted` lists the finished runs, newest first; those beyond the first `keep`, and nothing else, are gone. */
  ghost predicate Pruned(before: map<RunId, Stored>, after: map<RunId, Stored>, sorted: seq<Stored>, keep: nat) {
    && (forall s :: s in sorted <==> s.run.id in before && before[s.run.id] == s && Finished(s))
    && (forall i, j :: 0 <= i < j < |sorted| ==>
        sorted[i].createdAt >= sorted[j].createdAt && sorted[i].run.id != sorted[j].run.id)
    && (forall id :: id in after <==> id in before && !RemovedBy(sorted, if keep > 1 then keep else 1, |sorted|, id))
    && (forall id :: id in after ==> after[id] == before[id])
  }

  class Store {
    var lock: Option<RunId>
    var runs: map<RunId, Stored>
    var logs: map<RunId, seq<LogEvent>>

    /** Every record lies in the file of its id. */
    ghost predicate Valid()
      reads this
    {
      forall id :: id in runs ==> runs[id].run.id == id && IsRunId(id)
    }

    constructor ()
      ensures Valid() && lock.None? && runs == map[] && logs == map[]
    {
      lock, runs, logs := None, map[], map[];
    }

    /** `acquireLock`: false stands for the throw of UPDATE_IN_PROGRESS. */
    method AcquireLock(id: RunId) returns (taken: bool)
      modifies `lock
      ensures taken == old(lock).None?
      ensures lock == if taken then Some(id) else old(lock)
    {
      taken := lock.None?;
      if taken { lock := Some(id); }
    }

    method ReleaseLock()
      modifies `lock
      ensures lock.None?
    {
      lock := None;
    }

    method SaveRun(s: Stored)
      requires Valid() && IsRunId(s.run.id)
      modifies `runs
      ensures Valid() && runs == old(runs)[s.run.id := s]
    {
      runs := runs[s.run.id := s];
    }

    method LoadRun(id: RunId) returns (r: Option<Stored>)
      requires Valid()
      ensures r == if id in runs then Some(runs[id]) else None
    {
      if !IsRunId(id) { return None; }
      r := if id in runs then Some(runs[id]) else None;
    }

    /** `findByIdempotencyKey`: the first record with the key, in whatever order the directory is listed. */
    method FindByIdempotencyKey(key: string) returns (r: Option<Stored>)
      requires Valid()
      ensures r.Some? ==> r.value.run.idempotencyKey == key && exists id :: id in runs && runs[id] == r.value
      ensures r.None? <==> forall id :: id in runs ==> runs[id].run.idempotencyKey != key
    {
      var entries := runs.Keys;
      r := None;
      while entries != {}
        invariant entries <= runs.Keys && r.None?
        invariant forall id :: id in runs && id !in entries ==> runs[id].run.idempotencyKey != key
        decreases |entries|
      {
        var id :| id in entries;
        entries := entries - {id};
        if runs[id].run.idempotencyKey == key { return Some(runs[id]); }
      }
    }

    /** `appendEvent`: whoever has read up to a smaller number will be given the event, after all the others. */
    method AppendEvent(id: RunId, e: LogEvent)
      modifies `logs
      ensures logs == old(logs)[id := (if id in old(logs) then old(logs)[id] else []) + [e]]
      ensures Grows(if id in old(logs) then old(logs)[id] else [], e, logs[id])
    {
      ghost var log := if id in logs then logs[id] else [];
      forall after: int ensures GivesAfter(log, e, log + [e], after) {
        NewerAppend(log, e, after);
      }
      logs := logs[id := (if id in logs then logs[id] else []) + [e]];
    }

    /** `events` */
    method Events(id: RunId, after: int) returns (r: seq<LogEvent>)
      ensures r == if IsRunId(id) && id in logs then Newer(logs[id], after) else []
    {
      if !IsRunId(id) || id !in logs { return []; }
      var log := logs[id];
      r := [];
      var i := 0;
      while i < |log|
        invariant i <= |log| && r + Newer(log[i..], after) == Newer(log, after)
      {
        assert log[i..][1..] == log[i + 1..];
        if log[i].sequence > after { r := r + [log[i]]; }
        i := i + 1;
      }
      assert log[i..] == [];
    }

    /** `takeInterruptedRun`: the lock is dropped whatever it names; its run is returned when it is not finished. */
    method TakeInterruptedRun() returns (r: Option<Stored>)
      requires Valid()
      modifies `lock
      ensures lock.None?
      ensures r == if old(lock).Some? && old(lock).value in runs && !Finished(runs[old(lock).value])
        then Some(runs[old(lock).value]) else None
    {
      if lock.None? { return None; }
      var run := LoadRun(lock.value);
      ReleaseLock();
      r := if run.None? || Finished(run.value) then None else run;
    }

    /** The finished runs, in the order the directory is listed. */
    method ListFinished() returns (r: seq<Stored>)
      requires Valid()
      ensures forall i, j :: 0 <= i < j < |r| ==> r[i].run.id != r[j].run.id
      ensures forall s :: s in r <==> s.run.id in runs && runs[s.run.id] == s && Finished(s)
    {
      var entries := runs.Keys;
      r := [];
      while entries != {}
        invariant entries <= runs.Keys
        invariant forall i, j :: 0 <= i < j < |r| ==> r[i].run.id != r[j].run.id
        invariant forall s :: s in r <==> s.run.id in runs && s.run.id !in entries && runs[s.run.id] == s && Finished(s)
        decreases |entries|
      {
        var id :| id in entries;
        entries := entries - {id};
        if Finished(runs[id]) { r := r + [runs[id]]; }
      }
    }

    /** `pruneRuns`: the finished runs but the newest are removed with their logs. */
    method PruneRuns(keep: nat := KEEP) returns (ghost sorted: seq<Stored>)
      requires Valid()
      modifies `runs, `logs
      ensures Valid() && Pruned(old(runs), runs, sorted, keep)
      ensures forall id :: id in logs <==> id in old(logs) && (id in old(runs) ==> id in runs)
      ensures forall id :: id in logs ==> logs[id] == old(logs)[id]
    {
      var finished := ListFinished();
      sorted := Sort(finished, Recency);
      SortedListing(finished, runs);
      RemoveFrom(Sort(finished, Recency), if keep > 1 then keep else 1);
    }

    /** The records and logs of the listing from `start` on are deleted. */
    method RemoveFrom(listing: seq<Stored>, start: nat)
      modifies `runs, `logs
      ensures forall id :: id in runs <==> id in old(runs) && !RemovedBy(listing, start, |listing|, id)
      ensures forall id :: id in runs ==> runs[id] == old(runs)[id]
      ensures forall id :: id in logs <==> id in old(logs) && !RemovedBy(listing, start, |listing|, id)
      ensures forall id :: id in logs ==> logs[id] == old(logs)[id]
    {
      var i := start;
      while i < |listing|
        invariant start <= i
        invariant forall id :: id in runs <==> id in old(runs) && !RemovedBy(listing, start, i, id)
        invariant forall id :: id in runs ==> runs[id] == old(runs)[id]
        invariant forall id :: id in logs <==> id in old(logs) && !RemovedBy(listing, start, i, id)
        invariant forall id :: id in logs ==> logs[id] == old(logs)[id]
      {
        forall id
          ensures RemovedBy(listing, start, i + 1, id)
            <==> RemovedBy(listing, start, i, id) || id == listing[i].run.id {
          if id == listing[i].run.id { assert listing[i].run.id == id; }
        }
        runs := runs - {listing[i].run.id};
        logs := logs - {listing[i].run.id};
        i := i + 1;
      }
    }
  }

  lemma SortedListing(listing: seq<Stored>, runs: map<RunId, Stored>)
    requires forall i, j :: 0 <= i < j < |listing| ==> listing[i].run.id != listing[j].run.id
    ensures var sorted := Sort(listing, Recency);
      && (forall s :: s in sorted <==> s in listing)
      && (forall i, j :: 0 <= i < j < |sorted| ==>
          sorted[i].createdAt >= sorted[j].createdAt && sorted[i].run.id != sorted[j].run.id)
  {
    var sorted := Sort(listing, Recency);
    SortIsStable(listing, Recency);
    forall s ensures s in sorted <==> s in listing {
      assert s in multiset(sorted) <==> s in multiset(listing);
    }
    forall i, j | 0 <= i < j < |sorted|
      ensures sorted[i].createdAt >= sorted[j].createdAt
        && sorted[i].run.id != sorted[j].run.id {
      assert Recency(sorted[i]) <= Recency(sorted[j]);
      NoDoubles(listing, sorted, i, j);
    }
  }

  lemma NoDoubles(listing: seq<Stored>, sorted: seq<Stored>, i: nat, j: nat)
    requires forall a, b :: 0 <= a < b < |listing| ==> listing[a].run.id != listing[b].run.id
    requires multiset(sorted) == multiset(listing) && i < j < |sorted|
    ensures sorted[i].run.id != sorted[j].run.id
  {
    var x, y := sorted[i], sorted[j];
    assert x in multiset(listing) && y in multiset(listing);
    if x == y {
      assert sorted == sorted[..i] + [x] + sorted[i + 1..j] + [y] + sorted[j + 1..];
      assert multiset(sorted)[x] >= 2;
      SingleInListing(listing, x);
    }
  }

  lemma {:induction false} SingleInListing(listing: seq<Stored>, x: Stored)
    requires forall a, b :: 0 <= a < b < |listing| ==> listing[a].run.id != listing[b].run.id
    ensures multiset(listing)[x] <= 1
  {
    if listing != [] {
      SingleInListing(listing[1..], x);
      assert listing == [listing[0]] + listing[1..];
      assert forall k :: 0 <= k < |listing[1..]| ==> listing[1..][k] == listing[k + 1];
    }
  }

  /**
   * No unfinished run is ever pruned, a finished one only when at least `keep` others, and at least one, are no
   * older.
   */
  lemma PruneSpares(before: map<RunId, Stored>, after: map<RunId, Stored>, sorted: seq<Stored>, keep: nat, id: RunId)
    requires Pruned(before, after, sorted, keep) && id in before && id !in after
    ensures Finished(before[id])
    ensures keep <= |sorted| && 1 <= |sorted| && forall k :: 0 <= k < (if keep > 1 then keep else 1) && k < |sorted| ==>
      sorted[k].run.id in after && sorted[k].createdAt >= before[id].createdAt && sorted[k].run.id != id
  {
    var n := if keep > 1 then keep else 1;
    var m :| n <= m < |sorted| && sorted[m].run.id == id;
    assert sorted[m] in sorted;
    forall k | 0 <= k < n
      ensures sorted[k].run.id in after && sorted[k].createdAt >= before[id].createdAt
        && sorted[k].run.id != id {
      assert sorted[k] in sorted;
    }
  }

  /** Without a number 200 finished runs are kept. */
  lemma DefaultSpares(before: map<RunId, Stored>, after: map<RunId, Stored>, sorted: seq<Stored>, id: RunId)
    requires Pruned(before, after, sorted, KEEP) && id in before && id !in after
    ensures |sorted| > 200 && forall k :: 0 <= k < 200 ==> sorted[k].run.id in after
  {
    PruneSpares(before, after, sorted, KEEP, id);
    var m :| KEEP <= m < |sorted| && sorted[m].run.id == id;
  }
}
