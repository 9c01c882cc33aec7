/**
 * The replay protection of the updater's socket: a map from nonces to the timestamps of the requests that used
 * them, pruned by age, bounded in size, saved after every accepted request and read back after a restart.
 */
module NonceStore {
  import opened StableSort

  const TTL: int := 60_000
  const CAPACITY: nat := 4_096

  type Nonce = string

  datatype Entry = Entry(nonce: Nonce, timestamp: int)

  /** A map in insertion order. */
  type Entries = seq<Entry>

  predicate Has(s: Entries, nonce: Nonce) { exists e :: e in s && e.nonce == nonce }

  /** No key occurs twice. */
  predicate Distinct(s: Entries) { forall i, j :: 0 <= i < j < |s| ==> s[i].nonce != s[j].nonce }

  /** Inside the window that `prune` keeps. */
  predicate Kept(e: Entry, now: int) { now - TTL <= e.timestamp <= now + TTL }

  /** `prune` */
  function Prune(s: Entries, now: int): (r: Entries)
    ensures forall e :: e in r <==> e in s && Kept(e, now)
    ensures |r| <= |s|
  {
    if s == [] then [] else if Kept(s[0], now) then [s[0]] + Prune(s[1..], now) else Prune(s[1..], now)
  }

  /** `Map.set`: an existing key keeps its place. */
  function Put(s: Entries, e: Entry): Entries {
    if s == [] then [e] else if s[0].nonce == e.nonce then [e] + s[1..] else [s[0]] + Put(s[1..], e)
  }

  /** `Map.delete` */
  function Remove(s: Entries, nonce: Nonce): (r: Entries)
    ensures forall e :: e in r ==> e in s
    ensures |r| <= |s|
  {
    if s == [] then [] else if s[0].nonce == nonce then s[1..] else [s[0]] + Remove(s[1..], nonce)
  }

  function TimestampOf(e: Entry): int { e.timestamp }

  /** The entry that a full map gives up. */
  function Oldest(s: Entries): Entry
    requires s != []
  {
    Sort(s, TimestampOf)[0]
  }

  /** The map after `parsed` was read back. */
  function Loaded(s: Entries, parsed: Entries): Entries {
    if parsed == [] then s else Put(Loaded(s, parsed[..|parsed| - 1]), parsed[|parsed| - 1])
  }

  /** The last `n` entries, or all. */
  function LastOf(s: Entries, n: nat): Entries { if |s| <= n then s else s[|s| - n..] }

  /** Reading back, a file that is too long loses its first entries and no others. */
  lemma LastOfKeeps(s: Entries) returns (dropped: Entries)
    ensures s == dropped + LastOf(s, CAPACITY) && |LastOf(s, CAPACITY)| <= 4_096
    ensures dropped != [] ==> |LastOf(s, CAPACITY)| == 4_096
  {
    dropped := s[..|s| - |LastOf(s, CAPACITY)|];
  }

  datatype Request = Request(nonce: Nonce, timestamp: int, checkedAt: int, now: int)

  /** What one request does to a map that has been pruned. */
  function Admit(s: Entries, r: Request): Entries {
    if Has(s, r.nonce) then s
    else if |s| >= CAPACITY then Remove(s, Oldest(s).nonce) + [Entry(r.nonce, r.timestamp)]
    else s + [Entry(r.nonce, r.timestamp)]
  }

  /** The store: the map in memory, whether it has been read back, and the file. */
  datatype Store = Store(loaded: bool, entries: Entries, file: Entries)

  /** The map as a request at time `now` finds it: read back first after a restart, and pruned. */
  function Current(d: Store, now: int): Entries {
    Prune(if d.loaded then d.entries else Loaded([], LastOf(d.file, CAPACITY)), now)
  }

  predicate Accepts(d: Store, r: Request) { !Has(Current(d, r.now), r.nonce) }

  /** `consume`: only an accepted request is saved. */
  function Asked(d: Store, r: Request): Store {
    var s := Admit(Current(d, r.now), r);
    Store(true, s, if Accepts(d, r) then s else d.file)
  }

  class ReplayNonceStore {
    var loaded: bool
    var entries: Entries
    var file: Entries     // an absent file reads as empty

    ghost predicate Valid()
      reads this
    {
      !loaded ==> entries == []
    }

    ghost function Value(): Store
      reads this
    {
      Store(loaded, entries, file)
    }

    constructor (saved: Entries)
      ensures Valid() && Value() == Store(false, [], saved)
    {
      loaded, entries, file := false, [], saved;
    }

    /** `consumeLocked` */
    method Consume(r: Request) returns (accepted: bool)
      requires Valid()
      modifies this
      ensures Valid() && Value() == Asked(old(Value()), r)
      ensures accepted == Accepts(old(Value()), r)
    {
      if !loaded { Load(r.now); }
      PruneEntries(r.now);
      accepted := !HasEntry(r.nonce);
      if accepted {
        if |entries| >= CAPACITY {
          var oldest := Sort(entries, TimestampOf)[0];
          entries := Remove(entries, oldest.nonce);
        }
        entries := entries + [Entry(r.nonce, r.timestamp)];
        file := entries;
      }
    }

    /** `entries.has` */
    predicate HasEntry(nonce: Nonce)
      reads this
    {
      exists i :: 0 <= i < |entries| && entries[i].nonce == nonce
    }

    /** `load` */
    method Load(now: int)
      requires Valid() && !loaded
      modifies `loaded, `entries
      ensures loaded && entries == old(Current(Value(), now)) && Prune(entries, now) == entries
    {
      var parsed := LastOf(file, CAPACITY);
      var i := 0;
      while i < |parsed|
        invariant i <= |parsed| && entries == Loaded([], parsed[..i])
      {
        assert parsed[..i + 1][..i] == parsed[..i];
        entries := Put(entries, parsed[i]);
        i := i + 1;
      }
      assert parsed[..i] == parsed;
      loaded := true;
      PruneEntries(now);
      PruneAgain(Loaded([], parsed), now);
    }

    /** `prune`: entries are deleted under the iteration. */
    method PruneEntries(now: int)
      modifies `entries
      ensures entries == Prune(old(entries), now)
    {
      var i := 0;
      while i < |entries|
        invariant i <= |entries| && entries[..i] + Prune(entries[i..], now) == Prune(old(entries), now)
        decreases |entries| - i
      {
        if Kept(entries[i], now) {
          PruneKeeps(entries, i, now);
          i := i + 1;
        } else {
          PruneDrops(entries, i, now);
          entries := entries[..i] + entries[i + 1..];
        }
      }
      assert entries[i..] == [] && entries[..i] == entries;
    }
  }

  /** Setting a key changes the entry that has it, in its place, and adds one at the end when there is none. */
  lemma {:induction false} PutKeepsPlaces(s: Entries, e: Entry)
    requires Distinct(s)
    ensures Distinct(Put(s, e)) && e in Put(s, e) && |Put(s, e)| == (if Has(s, e.nonce) then |s| else |s| + 1)
    ensures forall i :: 0 <= i < |s| ==> Put(s, e)[i] == if s[i].nonce == e.nonce then e else s[i]
  {
    if s != [] && s[0].nonce != e.nonce {
      PutKeepsPlaces(s[1..], e);
      assert Has(s, e.nonce) <==> Has(s[1..], e.nonce);
      var r := Put(s[1..], e);
      forall j | 0 <= j < |r| ensures r[j].nonce != s[0].nonce { if j < |s| - 1 { assert s[1..][j] == s[j + 1]; } }
    }
  }

  // ---------------------------------------------------------------- pruning

  lemma PruneKeeps(s: Entries, i: nat, now: int)
    requires i < |s| && Kept(s[i], now)
    ensures s[..i] + Prune(s[i..], now) == s[..i + 1] + Prune(s[i + 1..], now)
  {
    assert s[i..][1..] == s[i + 1..];
  }

  lemma PruneDrops(s: Entries, i: nat, now: int)
    requires i < |s| && !Kept(s[i], now)
    ensures var t := s[..i] + s[i + 1..]; t[..i] + Prune(t[i..], now) == s[..i] + Prune(s[i..], now)
  {
    var t := s[..i] + s[i + 1..];
    assert s[i..][1..] == s[i + 1..] && t[..i] == s[..i] && t[i..] == s[i + 1..];
  }

  /** Pruning early changes nothing for a later pruning, as long as no entry is too far ahead of the earlier time. */
  lemma {:induction false} PruneTwice(s: Entries, early: int, late: int)
    requires early <= late && forall e :: e in s ==> e.timestamp <= early + TTL
    ensures Prune(Prune(s, early), late) == Prune(s, late)
  {
    if s != [] {
      PruneTwice(s[1..], early, late);
    }
  }

  lemma {:induction false} PruneAgain(s: Entries, now: int)
    ensures Prune(Prune(s, now), now) == Prune(s, now)
  {
    if s != [] { PruneAgain(s[1..], now); }
  }

  lemma {:induction false} PruneConcat(s: Entries, t: Entries, now: int)
    ensures Prune(s + t, now) == Prune(s, now) + Prune(t, now)
  {
    if s == [] {
      assert s + t == t;
    } else {
      assert (s + t)[1..] == s[1..] + t;
      PruneConcat(s[1..], t, now);
    }
  }

  lemma {:induction false} PruneDistinct(s: Entries, now: int)
    requires Distinct(s)
    ensures Distinct(Prune(s, now))
  {
    if s != [] {
      PruneDistinct(s[1..], now);
      var r := Prune(s[1..], now);
      forall j | 0 <= j < |r| ensures r[j].nonce != s[0].nonce {
        assert r[j] in s[1..];
      }
    }
  }

  lemma {:induction false} RemoveFacts(s: Entries, nonce: Nonce)
    requires Distinct(s)
    ensures Distinct(Remove(s, nonce)) && !Has(Remove(s, nonce), nonce)
    ensures forall e :: e in s && e.nonce != nonce ==> e in Remove(s, nonce)
    ensures Has(s, nonce) ==> |Remove(s, nonce)| == |s| - 1
  {
    if s != [] {
      RemoveFacts(s[1..], nonce);
      var r := Remove(s[1..], nonce);
      if s[0].nonce == nonce {
        forall e | e in s[1..] ensures e.nonce != nonce {}
      } else {
        forall j | 0 <= j < |r| ensures r[j].nonce != s[0].nonce { assert r[j] in s[1..]; }
        if Has(s, nonce) {
          var e :| e in s && e.nonce == nonce;
          assert e in s[1..];
        }
      }
    }
  }
}
