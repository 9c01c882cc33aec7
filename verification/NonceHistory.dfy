/** The replay store agrees with the unbounded history of accepted requests, whenever the process restarts. */
module NonceHistory {
  import opened Text
  import opened StableSort
  import opened NonceStore

  // ---------------------------------------------------------------- a store that is never restarted

  /** By how much the timestamp of a request may differ from the clock. */
  const FRESHNESS: int := 30_000

  /** No more than 60 seconds old or ahead. */
  predicate Live(e: Entry, now: int) { now - 60_000 <= e.timestamp <= now + 60_000 }

  /** The map after the first `k` requests. */
  function Served(rs: seq<Request>, k: nat): Entries
    requires k <= |rs|
    decreases k, 0
  {
    if k == 0 then [] else Admit(Found(rs, k - 1), rs[k - 1])
  }

  /** The map as request `k` finds it, pruned. */
  function Found(rs: seq<Request>, k: nat): Entries
    requires k < |rs|
    decreases k, 1
  {
    Prune(Served(rs, k), rs[k].now)
  }

  predicate Accepted(rs: seq<Request>, k: nat)
    requires k < |rs|
  {
    !Has(Found(rs, k), rs[k].nonce)
  }

  function EntryOf(r: Request): Entry { Entry(r.nonce, r.timestamp) }

  /** The entry request `k` drives out. */
  function Evicted(rs: seq<Request>, k: nat): Option<Entry>
    requires k < |rs|
  {
    if Accepted(rs, k) && |Found(rs, k)| >= CAPACITY then Some(Oldest(Found(rs, k))) else None
  }

  /**
   * The timestamp of every request differed by at most 30 seconds from the clock when it was checked, which was at
   * most 30 seconds before it reached the store, and time does not go back.
   */
  predicate WellTimed(rs: seq<Request>) {
    && (forall i :: 0 <= i < |rs| ==>
        -30_000 <= rs[i].checkedAt - rs[i].timestamp <= 30_000 && 0 <= rs[i].now - rs[i].checkedAt <= 30_000)
    && (forall i, j :: 0 <= i < j < |rs| ==> rs[i].now <= rs[j].now)
  }

  /** What the map satisfies after requests up to time `last`. */
  predicate Sound(s: Entries, last: int) {
    Distinct(s) && |s| <= CAPACITY && forall e :: e in s ==> e.timestamp <= last + FRESHNESS
  }

  lemma AppendDistinct(s: Entries, e: Entry)
    requires Distinct(s) && !Has(s, e.nonce)
    ensures Distinct(s + [e])
  {
    forall i | 0 <= i < |s| ensures s[i].nonce != e.nonce { assert s[i] in s; }
  }

  lemma OldestFacts(s: Entries)
    requires s != []
    ensures Oldest(s) in s && Has(s, Oldest(s).nonce)
    ensures forall e :: e in s ==> Oldest(s).timestamp <= e.timestamp
    ensures exists i ::
      0 <= i < |s| && s[i] == Oldest(s) && forall j :: 0 <= j < i ==> Oldest(s).timestamp < s[j].timestamp
  {
    FirstOfSort(s, TimestampOf);
    var i :| 0 <= i < |s| && s[i] == Sort(s, TimestampOf)[0]
      && forall j :: 0 <= j < i ==> TimestampOf(s[i]) < TimestampOf(s[j]);
    assert s[i] in s;
    forall e | e in s ensures Oldest(s).timestamp <= e.timestamp {
      var j :| 0 <= j < |s| && s[j] == e;
      assert TimestampOf(Sort(s, TimestampOf)[0]) <= TimestampOf(s[j]);
    }
    forall j | 0 <= j < i ensures Oldest(s).timestamp < s[j].timestamp {
      assert TimestampOf(s[i]) < TimestampOf(s[j]);
    }
  }

  /** Admitting a fresh request keeps the map sound. */
  lemma AdmitSound(s: Entries, r: Request)
    requires Sound(s, r.now) && r.timestamp <= r.now + FRESHNESS
    ensures Sound(Admit(s, r), r.now)
    ensures forall e :: e in Admit(s, r) ==> e in s || e == EntryOf(r)
  {
    if !Has(s, r.nonce) {
      if |s| >= CAPACITY {
        OldestFacts(s);
        RemoveFacts(s, Oldest(s).nonce);
        AppendDistinct(Remove(s, Oldest(s).nonce), EntryOf(r));
      } else {
        AppendDistinct(s, EntryOf(r));
      }
    }
  }

  lemma {:induction false} ServedSound(rs: seq<Request>, k: nat, now: int)
    requires k <= |rs| && WellTimed(rs) && (k > 0 ==> rs[k - 1].now <= now)
    ensures Sound(Served(rs, k), now)
  {
    if k > 0 {
      ServedSound(rs, k - 1, rs[k - 1].now);
      PruneDistinct(Served(rs, k - 1), rs[k - 1].now);
      AdmitSound(Found(rs, k - 1), rs[k - 1]);
    }
  }

  lemma FoundSound(rs: seq<Request>, k: nat)
    requires k < |rs| && WellTimed(rs)
    ensures Sound(Found(rs, k), rs[k].now) && Sound(Served(rs, k), rs[k].now)
  {
    ServedSound(rs, k, rs[k].now);
    PruneDistinct(Served(rs, k), rs[k].now);
  }

  /**
   * The map never holds more than 4096 entries, and gives one up only when it holds exactly 4096 live ones: the
   * one with the least timestamp, the first inserted among equals.
   */
  lemma EvictionIsMinimal(rs: seq<Request>, k: nat)
    requires k < |rs| && WellTimed(rs)
    ensures |Served(rs, k)| <= 4_096 && |Served(rs, k + 1)| <= 4_096
    ensures Evicted(rs, k).Some? ==>
      var s, e := Found(rs, k), Evicted(rs, k).value;
      && |s| == 4_096 && (forall x :: x in s ==> Live(x, rs[k].now) && e.timestamp <= x.timestamp)
      && (exists i :: 0 <= i < |s| && s[i] == e && forall j :: 0 <= j < i ==> e.timestamp < s[j].timestamp)
      && e !in Served(rs, k + 1)
  {
    FoundSound(rs, k);
    ServedSound(rs, k + 1, rs[k].now);
    if Evicted(rs, k).Some? {
      OldestFacts(Found(rs, k));
      RemoveFacts(Found(rs, k), Oldest(Found(rs, k)).nonce);
    }
  }

  // ---------------------------------------------------------------- replays

  /** Request `i` was accepted and no later one before `k` with its nonce was. */
  predicate LatestAcceptance(rs: seq<Request>, i: nat, k: nat)
    requires k <= |rs|
  {
    i < k && Accepted(rs, i) && forall m :: i < m < k && rs[m].nonce == rs[i].nonce ==> !Accepted(rs, m)
  }

  predicate EvictedBetween(rs: seq<Request>, i: nat, k: nat, e: Entry)
    requires k <= |rs|
  {
    exists m :: i < m < k && Evicted(rs, m) == Some(e)
  }

  /** The nonce of request `i` is in the map under its entry, or not at all. */
  predicate Tracks(s: Entries, e: Entry, present: bool) {
    (e in s <==> present) && forall x :: x in s && x.nonce == e.nonce ==> x == e
  }

  /** An entry that is live at a later request was live at every request since its acceptance. */
  lemma StaysKept(rs: seq<Request>, i: nat, m: nat, j: nat)
    requires WellTimed(rs) && i <= m <= j < |rs| && Kept(EntryOf(rs[i]), rs[j].now)
    ensures Kept(EntryOf(rs[i]), rs[m].now)
  {
    assert rs[i].now <= rs[m].now <= rs[j].now;
  }

  /** At a replay of nonce and timestamp the entry is live. */
  lemma ReplayKept(rs: seq<Request>, i: nat, j: nat)
    requires WellTimed(rs) && i < j < |rs| && rs[j].timestamp == rs[i].timestamp
    ensures Kept(EntryOf(rs[i]), rs[j].now)
  {
  }

  lemma AdmitTracks(s: Entries, r: Request, e: Entry, present: bool)
    requires Tracks(s, e, present) && Distinct(s) && (r.nonce == e.nonce ==> Has(s, r.nonce))
    ensures Tracks(Admit(s, r), e, present && !(!Has(s, r.nonce) && |s| >= CAPACITY && Oldest(s) == e))
  {
    if !Has(s, r.nonce) && |s| >= CAPACITY {
      var o := Oldest(s);
      OldestFacts(s);
      RemoveFacts(s, o.nonce);
      if o.nonce == e.nonce { assert o == e; }
      var t := Remove(s, o.nonce);
      forall x | x in t + [EntryOf(r)] && x.nonce == e.nonce ensures x == e { assert x in t; }
    } else if !Has(s, r.nonce) {
      forall x | x in s + [EntryOf(r)] && x.nonce == e.nonce ensures x == e { assert x in s; }
    }
  }

  lemma AcceptedTracks(s: Entries, r: Request)
    requires Distinct(s) && !Has(s, r.nonce)
    ensures Tracks(Admit(s, r), EntryOf(r), true)
  {
    if |s| >= CAPACITY {
      forall x | x in Remove(s, Oldest(s).nonce) + [EntryOf(r)] && x.nonce == r.nonce ensures x == EntryOf(r) {}
    } else {
      forall x | x in s + [EntryOf(r)] && x.nonce == r.nonce ensures x == EntryOf(r) {}
    }
  }

  lemma {:induction false} EntryTracked(rs: seq<Request>, i: nat, k: nat, j: nat)
    requires WellTimed(rs) && i < k <= j < |rs| && Kept(EntryOf(rs[i]), rs[j].now) && LatestAcceptance(rs, i, k)
    ensures Tracks(Served(rs, k), EntryOf(rs[i]), !EvictedBetween(rs, i, k, EntryOf(rs[i])))
  {
    var e := EntryOf(rs[i]);
    if k == i + 1 {
      FoundSound(rs, i);
      AcceptedTracks(Found(rs, i), rs[i]);
    } else {
      var m := k - 1;
      EntryTracked(rs, i, m, j);
      StaysKept(rs, i, m, j);
      FoundSound(rs, m);
      var present := !EvictedBetween(rs, i, m, e);
      assert Tracks(Found(rs, m), e, present);
      AdmitTracks(Found(rs, m), rs[m], e, present);
      assert EvictedBetween(rs, i, k, e) <==> EvictedBetween(rs, i, m, e) || Evicted(rs, m) == Some(e);
    }
  }

  /** Until a nonce is accepted again, the map holds it with the timestamp last accepted or not at all. */
  lemma {:induction false} OnlyEntry(rs: seq<Request>, i: nat, k: nat)
    requires WellTimed(rs) && i < k <= |rs| && LatestAcceptance(rs, i, k)
    ensures forall x :: x in Served(rs, k) && x.nonce == rs[i].nonce ==> x == EntryOf(rs[i])
  {
    var m := k - 1;
    FoundSound(rs, m);
    if m == i {
      AcceptedTracks(Found(rs, i), rs[i]);
    } else {
      OnlyEntry(rs, i, m);
      FoundOnly(rs, m, EntryOf(rs[i]));
      AdmitOnly(Found(rs, m), rs[m], EntryOf(rs[i]));
    }
    assert Served(rs, k) == Admit(Found(rs, m), rs[m]);
  }

  lemma FoundOnly(rs: seq<Request>, m: nat, e: Entry)
    requires m < |rs| && forall x :: x in Served(rs, m) && x.nonce == e.nonce ==> x == e
    ensures forall x :: x in Found(rs, m) && x.nonce == e.nonce ==> x == e
  {
  }

  lemma AdmitOnly(s: Entries, r: Request, e: Entry)
    requires Distinct(s) && (forall x :: x in s && x.nonce == e.nonce ==> x == e)
      && (r.nonce == e.nonce ==> Has(s, r.nonce))
    ensures forall x :: x in Admit(s, r) && x.nonce == e.nonce ==> x == e
  {
    if !Has(s, r.nonce) && |s| >= CAPACITY { RemoveFacts(s, Oldest(s).nonce); }
  }

  /**
   * A nonce is accepted again if and only if its entry is no longer live, or the map, full, gave it up in between.
   */
  lemma ReplayExactly(rs: seq<Request>, i: nat, j: nat)
    requires WellTimed(rs) && i < j < |rs| && rs[j].nonce == rs[i].nonce && LatestAcceptance(rs, i, j)
    ensures Accepted(rs, j) <==> EvictedBetween(rs, i, j, EntryOf(rs[i])) || !Live(EntryOf(rs[i]), rs[j].now)
  {
    var s, e := Served(rs, j), EntryOf(rs[i]);
    OnlyEntry(rs, i, j);
    if Kept(e, rs[j].now) {
      EntryTracked(rs, i, j, j);
      if e in s { assert e in Found(rs, j); }
    }
    if Has(Found(rs, j), e.nonce) {
      var x :| x in Found(rs, j) && x.nonce == e.nonce;
      assert x in s;
    }
  }

  lemma {:induction false} EntryStays(rs: seq<Request>, i: nat, k: nat, j: nat)
    requires WellTimed(rs) && i < k <= j < |rs| && Kept(EntryOf(rs[i]), rs[j].now) && Accepted(rs, i)
    requires !EvictedBetween(rs, i, k, EntryOf(rs[i]))
    ensures EntryOf(rs[i]) in Served(rs, k)
  {
    var e := EntryOf(rs[i]);
    if k > i + 1 {
      var m := k - 1;
      assert !EvictedBetween(rs, i, m, e);
      EntryStays(rs, i, m, j);
      StaysKept(rs, i, m, j);
      FoundSound(rs, m);
      assert e in Found(rs, m) && Evicted(rs, m) != Some(e);
      AdmitStays(Found(rs, m), rs[m], e);
    }
  }

  lemma AdmitStays(s: Entries, r: Request, e: Entry)
    requires Distinct(s) && e in s && (!Has(s, r.nonce) && |s| >= CAPACITY ==> Oldest(s) != e)
    ensures e in Admit(s, r)
  {
    if !Has(s, r.nonce) && |s| >= CAPACITY {
      OldestFacts(s);
      RemoveFacts(s, Oldest(s).nonce);
      var i, j :| 0 <= i < |s| && 0 <= j < |s| && s[i] == e && s[j] == Oldest(s);
      assert e.nonce != Oldest(s).nonce;
    }
  }

  /** No pair of nonce and timestamp is accepted twice unless the capacity drove its entry out in between. */
  lemma AcceptedOnce(rs: seq<Request>, i: nat, j: nat)
    requires WellTimed(rs) && i < j < |rs| && rs[j].nonce == rs[i].nonce && rs[j].timestamp == rs[i].timestamp
    requires Accepted(rs, i) && Accepted(rs, j)
    ensures EvictedBetween(rs, i, j, EntryOf(rs[i]))
  {
    ReplayKept(rs, i, j);
    if !EvictedBetween(rs, i, j, EntryOf(rs[i])) {
      EntryStays(rs, i, j, j);
      StaysKept(rs, i, j, j);
      KeptIsFound(rs, j, EntryOf(rs[i]));
    }
  }

  lemma KeptIsFound(rs: seq<Request>, k: nat, e: Entry)
    requires k < |rs| && e in Served(rs, k) && Kept(e, rs[k].now)
    ensures Has(Found(rs, k), e.nonce)
  {
    assert e in Found(rs, k);
  }

  /** One request, then one for each of the other nonces, then the first again, all within the same millisecond. */
  function Flood(nonces: seq<Nonce>, t: int): seq<Request>
    requires nonces != []
  {
    seq(|nonces| + 1, i requires 0 <= i <= |nonces| => Request(nonces[if i == |nonces| then 0 else i], t, t, t))
  }

  function FloodEntries(nonces: seq<Nonce>, t: int, k: nat): Entries
    requires k <= |nonces|
  {
    seq(k, i requires 0 <= i < k => Entry(nonces[i], t))
  }

  lemma {:induction false} PruneAll(s: Entries, now: int)
    requires forall e :: e in s ==> Kept(e, now)
    ensures Prune(s, now) == s
  {
    if s != [] { PruneAll(s[1..], now); }
  }

  lemma {:induction false} FloodServed(nonces: seq<Nonce>, t: int, k: nat)
    requires nonces != [] && (forall i, j :: 0 <= i < j < |nonces| ==> nonces[i] != nonces[j])
    requires k <= |nonces| && k <= CAPACITY
    ensures Served(Flood(nonces, t), k) == FloodEntries(nonces, t, k)
  {
    if k > 0 {
      FloodServed(nonces, t, k - 1);
      FloodAdmits(nonces, t, k - 1);
    }
  }

  lemma FloodAdmits(nonces: seq<Nonce>, t: int, k: nat)
    requires k < |nonces| && k < CAPACITY && (forall i, j :: 0 <= i < j < |nonces| ==> nonces[i] != nonces[j])
    ensures Admit(Prune(FloodEntries(nonces, t, k), t), Request(nonces[k], t, t, t)) == FloodEntries(nonces, t, k + 1)
  {
    var s := FloodEntries(nonces, t, k);
    PruneAll(s, t);
    assert FloodEntries(nonces, t, k + 1) == s + [Entry(nonces[k], t)];
  }

  /** The full map gives up its first entry. */
  lemma FloodEvicts(nonces: seq<Nonce>, t: int) returns (s: Entries)
    requires |nonces| == CAPACITY + 1 && (forall i, j :: 0 <= i < j < |nonces| ==> nonces[i] != nonces[j])
    ensures s == FloodEntries(nonces, t, CAPACITY) && Prune(s, t) == s && Oldest(s) == Entry(nonces[0], t)
    ensures !Has(s, nonces[CAPACITY]) && |s| == CAPACITY
    ensures Admit(s, Request(nonces[CAPACITY], t, t, t)) == s[1..] + [Entry(nonces[CAPACITY], t)]
  {
    s := FloodEntries(nonces, t, CAPACITY);
    PruneAll(s, t);
    SortOfOrdered(s, TimestampOf);
  }

  lemma FloodForgets(nonces: seq<Nonce>, t: int)
    requires |nonces| == CAPACITY + 1 && (forall i, j :: 0 <= i < j < |nonces| ==> nonces[i] != nonces[j])
    ensures !Has(Prune(FloodEntries(nonces, t, CAPACITY)[1..] + [Entry(nonces[CAPACITY], t)], t), nonces[0])
  {
    var after := FloodEntries(nonces, t, CAPACITY)[1..] + [Entry(nonces[CAPACITY], t)];
    forall e | e in after ensures e.nonce != nonces[0] {}
  }

  /**
   * The bound is reached: 4096 other requests within the window make room for a replay. The documentation's
   * "accepted only once" holds up to the capacity.
   */
  lemma FloodedReplay(nonces: seq<Nonce>, t: int)
    requires |nonces| == 4_097 && (forall i, j :: 0 <= i < j < |nonces| ==> nonces[i] != nonces[j])
    ensures var rs := Flood(nonces, t);
      && WellTimed(rs) && rs[0] == rs[|nonces|] && Accepted(rs, 0) && Accepted(rs, |nonces|)
      && Evicted(rs, 4_096) == Some(EntryOf(rs[0]))
  {
    FloodTimed(nonces, t);
    FloodFinds(nonces, t);
    var s := FloodEvicts(nonces, t);
    var rs := Flood(nonces, t);
    FloodForgets(nonces, t);
    FloodLast(rs, s, Request(nonces[CAPACITY], t, t, t));
  }

  /** What the request that fills the map up finds. */
  lemma FloodFinds(nonces: seq<Nonce>, t: int)
    requires |nonces| == CAPACITY + 1 && (forall i, j :: 0 <= i < j < |nonces| ==> nonces[i] != nonces[j])
    ensures Found(Flood(nonces, t), CAPACITY) == FloodEntries(nonces, t, CAPACITY)
  {
    FloodServed(nonces, t, CAPACITY);
    PruneAll(FloodEntries(nonces, t, CAPACITY), t);
  }

  lemma FloodTimed(nonces: seq<Nonce>, t: int)
    requires nonces != []
    ensures WellTimed(Flood(nonces, t))
  {
  }

  lemma FloodLast(rs: seq<Request>, s: Entries, r: Request)
    requires |rs| == CAPACITY + 2 && Found(rs, CAPACITY) == s && rs[CAPACITY] == r
    ensures Served(rs, CAPACITY + 1) == Admit(s, r)
  {
  }

  // ---------------------------------------------------------------- the unbounded history

  /** `Remove` of one entry. */
  function Without(s: Entries, e: Entry): Entries {
    if s == [] then [] else if s[0] == e then s[1..] else [s[0]] + Without(s[1..], e)
  }

  /** Every request accepted so far, whatever its age, less those given up for lack of room. */
  function History(rs: seq<Request>, k: nat): Entries
    requires k <= |rs|
  {
    if k == 0 then []
    else
      var h := History(rs, k - 1);
      var kept := if Evicted(rs, k - 1).Some? then Without(h, Evicted(rs, k - 1).value) else h;
      if Accepted(rs, k - 1) then kept + [EntryOf(rs[k - 1])] else kept
  }

  lemma {:induction false} PruneWithout(s: Entries, e: Entry, now: int)
    requires Kept(e, now)
    ensures Prune(Without(s, e), now) == Without(Prune(s, now), e)
  {
    if s != [] && s[0] != e { PruneWithout(s[1..], e, now); }
  }

  lemma {:induction false} WithoutIsRemove(s: Entries, e: Entry)
    requires Distinct(s) && e in s
    ensures Without(s, e) == Remove(s, e.nonce)
  {
    if s[0] != e {
      assert e in s[1..];
      WithoutIsRemove(s[1..], e);
    }
  }

  lemma {:induction false} WithoutBound(s: Entries, e: Entry)
    ensures forall x :: x in Without(s, e) ==> x in s
    ensures forall x :: x in s && x != e ==> x in Without(s, e)
  {
    if s != [] { WithoutBound(s[1..], e); }
  }

  lemma {:induction false} HistoryBound(rs: seq<Request>, k: nat, now: int)
    requires k <= |rs| && WellTimed(rs) && (k > 0 ==> rs[k - 1].now <= now)
    ensures forall e :: e in History(rs, k) ==> e.timestamp <= now + FRESHNESS
  {
    if k > 0 {
      HistoryBound(rs, k - 1, rs[k - 1].now);
      if Evicted(rs, k - 1).Some? { WithoutBound(History(rs, k - 1), Evicted(rs, k - 1).value); }
    }
  }

  /** One request keeps map and history the same up to pruning. */
  lemma AdmitAgrees(s: Entries, h: Entries, r: Request, later: int)
    requires Sound(s, r.now) && s == Prune(h, r.now) && r.now <= later
    requires forall e :: e in h ==> e.timestamp <= r.now + FRESHNESS
    ensures var kept := if !Has(s, r.nonce) && |s| >= CAPACITY then Without(h, Oldest(s)) else h;
      Prune(Admit(s, r), later) == Prune(if !Has(s, r.nonce) then kept + [EntryOf(r)] else kept, later)
  {
    PruneTwice(h, r.now, later);
    if !Has(s, r.nonce) {
      var kept := h;
      var t := s;
      if |s| >= CAPACITY {
        var o := Oldest(s);
        OldestFacts(s);
        WithoutIsRemove(s, o);
        PruneWithout(h, o, r.now);
        kept, t := Without(h, o), Remove(s, o.nonce);
        WithoutBound(h, o);
        PruneTwice(kept, r.now, later);
      }
      assert Prune(t, later) == Prune(kept, later);
      PruneConcat(t, [EntryOf(r)], later);
      PruneConcat(kept, [EntryOf(r)], later);
    }
  }

  /**
   * The bounded, pruned map decides as the unbounded history would: a request finds in it exactly the entries of
   * the history that are inside the window, in order of acceptance.
   */
  lemma {:induction false} AgreesWithHistory(rs: seq<Request>, k: nat, now: int)
    requires k <= |rs| && WellTimed(rs) && (k > 0 ==> rs[k - 1].now <= now)
    ensures Prune(Served(rs, k), now) == Prune(History(rs, k), now)
  {
    if k > 0 {
      var r := rs[k - 1];
      AgreesWithHistory(rs, k - 1, r.now);
      FoundSound(rs, k - 1);
      HistoryBound(rs, k - 1, r.now);
      AdmitAgrees(Found(rs, k - 1), History(rs, k - 1), r, now);
    }
  }

  /** So a nonce is refused exactly when the history holds it with a timestamp inside the window. */
  lemma DecidedByHistory(rs: seq<Request>, k: nat)
    requires k < |rs| && WellTimed(rs)
    ensures Accepted(rs, k) <==> forall e :: e in History(rs, k) && e.nonce == rs[k].nonce ==> !Live(e, rs[k].now)
  {
    AgreesWithHistory(rs, k, rs[k].now);
    assert Found(rs, k) == Prune(History(rs, k), rs[k].now);
  }

  /** Nothing else leaves the history: what was accepted is in it unless it was given up. */
  lemma {:induction false} HistoryComplete(rs: seq<Request>, i: nat, k: nat)
    requires i < k <= |rs| && Accepted(rs, i) && !EvictedBetween(rs, i, k, EntryOf(rs[i]))
    ensures EntryOf(rs[i]) in History(rs, k)
  {
    if k > i + 1 {
      assert !EvictedBetween(rs, i, k - 1, EntryOf(rs[i]));
      HistoryComplete(rs, i, k - 1);
      if Evicted(rs, k - 1).Some? { WithoutBound(History(rs, k - 1), Evicted(rs, k - 1).value); }
    }
  }

  // ---------------------------------------------------------------- restarts

  datatype Event = Ask(r: Request) | Restart

  /** A restart loses the memory and keeps the file. */
  function After(d: Store, e: Event): Store {
    match e case Ask(r) => Asked(d, r) case Restart => Store(false, [], d.file)
  }

  function Ran(events: seq<Event>): Store {
    if events == [] then Store(false, [], []) else After(Ran(events[..|events| - 1]), events[|events| - 1])
  }

  function RequestsOf(events: seq<Event>): seq<Request> {
    if events == [] then []
    else
      var rs := RequestsOf(events[..|events| - 1]);
      match events[|events| - 1] case Ask(r) => rs + [r] case Restart => rs
  }

  lemma {:induction false} ServedPrefix(rs: seq<Request>, r: Request, k: nat)
    requires k <= |rs|
    ensures Served(rs + [r], k) == Served(rs, k)
  {
    if k > 0 { ServedPrefix(rs, r, k - 1); }
  }

  lemma {:induction false} PutNew(s: Entries, e: Entry)
    requires !Has(s, e.nonce)
    ensures NonceStore.Put(s, e) == s + [e]
  {
    if s != [] {
      assert s[0] in s;
      assert forall x :: x in s[1..] ==> x in s;
      PutNew(s[1..], e);
    }
  }

  lemma LastIsNew(s: Entries)
    requires Distinct(s) && s != []
    ensures Distinct(s[..|s| - 1]) && !Has(s[..|s| - 1], s[|s| - 1].nonce)
  {
    forall x | x in s[..|s| - 1] ensures x.nonce != s[|s| - 1].nonce {}
  }

  /** What was saved is read back as it was. */
  lemma {:induction false} LoadedIsSaved(s: Entries)
    requires Distinct(s)
    ensures Loaded([], s) == s
  {
    if s != [] {
      var n := |s| - 1;
      LastIsNew(s);
      LoadedIsSaved(s[..n]);
      PutNew(s[..n], s[n]);
      assert s == s[..n] + [s[n]];
    }
  }

  /** The restarted store against the map `s` of the one that never was. */
  predicate Matches(d: Store, s: Entries, last: int) {
    && (d.loaded ==> d.entries == s)
    && Sound(s, last) && Sound(d.file, last) && Prune(d.file, last) == Prune(s, last)
  }

  /** However the stores came there, the next request finds the same map. */
  lemma MatchesFinds(d: Store, s: Entries, last: int, now: int)
    requires Matches(d, s, last) && last <= now
    ensures Current(d, now) == Prune(s, now) && Matches(d, s, now)
  {
    PruneTwice(d.file, last, now);
    PruneTwice(s, last, now);
    LoadedIsSaved(d.file);
  }

  lemma MatchesAsk(d: Store, s: Entries, last: int, r: Request)
    requires Matches(d, s, last) && last <= r.now && r.timestamp <= r.now + FRESHNESS
    ensures Accepts(d, r) == !Has(Prune(s, r.now), r.nonce)
    ensures Matches(Asked(d, r), Admit(Prune(s, r.now), r), r.now)
  {
    MatchesFinds(d, s, last, r.now);
    PruneDistinct(s, r.now);
    AdmitSound(Prune(s, r.now), r);
    PruneAgain(s, r.now);
  }

  /** All of them no later than `last`. */
  predicate Until(rs: seq<Request>, last: int) { rs != [] ==> rs[|rs| - 1].now <= last }

  lemma WellTimedPrefix(rs: seq<Request>, r: Request)
    requires WellTimed(rs + [r])
    ensures WellTimed(rs) && Until(rs, r.now) && r.timestamp <= r.now + FRESHNESS
  {
    assert forall i :: 0 <= i < |rs| ==> rs[i] == (rs + [r])[i];
    assert (rs + [r])[|rs|] == r;
  }

  lemma ServedSnoc(rs: seq<Request>, r: Request)
    ensures Served(rs + [r], |rs| + 1) == Admit(Prune(Served(rs, |rs|), r.now), r)
  {
    ServedPrefix(rs, r, |rs|);
  }

  lemma RanAsk(d: Store, s: Entries, r: Request, last: int)
    requires r.timestamp <= r.now + FRESHNESS && Matches(d, s, r.now) && r.now <= last
    ensures Matches(Asked(d, r), Admit(Prune(s, r.now), r), last)
  {
    MatchesAsk(d, s, r.now, r);
    MatchesFinds(Asked(d, r), Admit(Prune(s, r.now), r), r.now, last);
  }

  lemma {:induction false} RanMatches(events: seq<Event>, last: int)
    requires WellTimed(RequestsOf(events)) && Until(RequestsOf(events), last)
    ensures Matches(Ran(events), Served(RequestsOf(events), |RequestsOf(events)|), last)
  {
    if events != [] {
      var before, e := events[..|events| - 1], events[|events| - 1];
      match e
      case Restart => RanMatches(before, last);
      case Ask(r) =>
        WellTimedPrefix(RequestsOf(before), r);
        RanMatches(before, r.now);
        RanAsk(Ran(before), Served(RequestsOf(before), |RequestsOf(before)|), r, last);
        ServedSnoc(RequestsOf(before), r);
    }
  }

  /** Restarts between requests change no decision. */
  lemma RestartsInvisible(events: seq<Event>, r: Request)
    requires WellTimed(RequestsOf(events) + [r])
    ensures Accepts(Ran(events), r) <==> Accepted(RequestsOf(events) + [r], |RequestsOf(events)|)
  {
    var rs := RequestsOf(events);
    WellTimedPrefix(rs, r);
    assert (rs + [r])[|rs|] == r;
    RanMatches(events, r.now);
    ServedPrefix(rs, r, |rs|);
    MatchesFinds(Ran(events), Served(rs, |rs|), r.now, r.now);
  }
}
