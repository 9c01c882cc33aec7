/** The event log as a client sees it: command output turned into events, and polling by the last seen sequence. */
module EventFeed {
  import opened UpdateProtocol
  import opened UpdateInvariant
  import opened AgentStore

  // ---------------------------------------------------------------- command output

  const MAX_STREAM_EVENTS: nat := 1_000

  /** What a streaming command logs: a sanitized chunk, or the one warning that more was left out. */
  datatype Line = Chunk(text: string) | Truncated

  /** The sanitized chunks that are not empty, in order. */
  function Sanitized(chunks: seq<string>, sanitize: string -> string): seq<string> {
    if chunks == [] then []
    else
      var before := Sanitized(chunks[..|chunks| - 1], sanitize);
      var text := sanitize(chunks[|chunks| - 1]);
      if text == "" then before else before + [text]
  }

  /** The first 1000 chunks, and the warning exactly when there are more. */
  predicate LinesFor(lines: seq<Line>, texts: seq<string>) {
    && |lines| == (if |texts| > 1_000 then 1_001 else |texts|)
    && (forall i :: 0 <= i < |lines| && i < 1_000 ==> lines[i] == Chunk(texts[i]))
    && (|texts| > 1_000 ==> lines[1_000] == Truncated)
  }

  /** `composeWithLogs`: the output callback, chunk after chunk. */
  method ComposeOutput(chunks: seq<string>, sanitize: string -> string) returns (lines: seq<Line>)
    ensures LinesFor(lines, Sanitized(chunks, sanitize))
  {
    lines := [];
    var eventCount, truncated := 0, false;
    var i := 0;
    while i < |chunks|
      invariant i <= |chunks| && LinesFor(lines, Sanitized(chunks[..i], sanitize))
      invariant eventCount ==
        (if |Sanitized(chunks[..i], sanitize)| > MAX_STREAM_EVENTS then MAX_STREAM_EVENTS
        else |Sanitized(chunks[..i], sanitize)|)
      invariant truncated <==> |Sanitized(chunks[..i], sanitize)| > MAX_STREAM_EVENTS
    {
      assert chunks[..i + 1][..i] == chunks[..i];
      var message := sanitize(chunks[i]);
      if message != "" {
        if eventCount >= MAX_STREAM_EVENTS {
          if !truncated {
            truncated := true;
            lines := lines + [Truncated];
          }
        } else {
          eventCount := eventCount + 1;
          lines := lines + [Chunk(message)];
        }
      }
      i := i + 1;
    }
    assert chunks[..i] == chunks;
  }

  // ---------------------------------------------------------------- a polling client

  /** The stored log and what a client has received of it. */
  datatype Feed = Feed(log: seq<LogEvent>, received: seq<LogEvent>)

  datatype Action = AppendOne(e: LogEvent) | Poll

  /** The sequence the client polls with: 0 at first, then that of the last event it has. */
  function LastSeen(received: seq<LogEvent>): int { if received == [] then 0 else received[|received| - 1].sequence }

  function Act(f: Feed, a: Action): Feed {
    match a
    case AppendOne(e) => f.(log := f.log + [e])
    case Poll => f.(received := f.received + Newer(f.log, LastSeen(f.received)))
  }

  function Acts(actions: seq<Action>): Feed {
    if actions == [] then Feed([], []) else Act(Acts(actions[..|actions| - 1]), actions[|actions| - 1])
  }

  lemma {:induction false} NewerAll(log: seq<LogEvent>, after: int)
    requires forall i :: 0 <= i < |log| ==> log[i].sequence > after
    ensures Newer(log, after) == log
  {
    if log != [] { NewerAll(log[1..], after); }
  }

  lemma {:induction false} NewerNone(log: seq<LogEvent>, after: int)
    requires forall i :: 0 <= i < |log| ==> log[i].sequence <= after
    ensures Newer(log, after) == []
  {
    if log != [] { NewerNone(log[1..], after); }
  }

  lemma {:induction false} NewerConcat(a: seq<LogEvent>, b: seq<LogEvent>, after: int)
    ensures Newer(a + b, after) == Newer(a, after) + Newer(b, after)
  {
    if a == [] {
      assert a + b == b;
    } else {
      assert (a + b)[1..] == a[1..] + b;
      NewerConcat(a[1..], b, after);
    }
  }

  /** In a numbered log the events above `k` are those from position `k` on. */
  lemma NewerOfNumbered(log: seq<LogEvent>, k: nat)
    requires Numbered(log, |log|) && k <= |log|
    ensures Newer(log, k) == log[k..]
  {
    assert log == log[..k] + log[k..];
    NewerConcat(log[..k], log[k..], k);
    NewerNone(log[..k], k);
    NewerAll(log[k..], k);
  }

  lemma PollNumbered(f: Feed)
    requires Numbered(f.log, |f.log|) && f.received <= f.log
    ensures Act(f, Poll).received == f.log
  {
    NewerOfNumbered(f.log, |f.received|);
    assert LastSeen(f.received) == |f.received|;
    assert f.log == f.log[..|f.received|] + f.log[|f.received|..];
  }

  lemma NumberedPrefix(log: seq<LogEvent>, e: LogEvent)
    requires Numbered(log + [e], |log| + 1)
    ensures Numbered(log, |log|)
  {
    assert forall i :: 0 <= i < |log| ==> log[i] == (log + [e])[i];
  }

  /**
   * While the log carries 1, 2, 3, ..., a client that polls with its last sequence has at every moment a prefix of
   * the log, however polls and appends are interleaved, and after a poll all of it: every event once, in order.
   */
  lemma {:induction false} ClientFollows(actions: seq<Action>)
    requires Numbered(Acts(actions).log, |Acts(actions).log|)
    ensures Acts(actions).received <= Acts(actions).log
    ensures actions != [] && actions[|actions| - 1].Poll? ==> Acts(actions).received == Acts(actions).log
  {
    if actions != [] {
      var before, a := actions[..|actions| - 1], actions[|actions| - 1];
      var f := Acts(before);
      match a
      case AppendOne(e) =>
        NumberedPrefix(f.log, e);
        ClientFollows(before);
        assert f.received <= f.log + [e];
      case Poll =>
        ClientFollows(before);
        PollNumbered(f);
    }
  }

  /**
   * The recovery of a run that died between an event and its record repeats the last number. A client that polls
   * afterwards receives the recovery's event if and only if it had not yet received the event that number was first
   * given to.
   */
  lemma RepeatedNumberExactly(f: Feed, e: LogEvent)
    requires Numbered(f.log, |f.log|) && f.log != [] && f.received <= f.log && e.sequence == |f.log|
    ensures var g := Act(Act(f, AppendOne(e)), Poll);
      && (g.received == g.log <==> |f.received| < |f.log|)
      && (|f.received| == |f.log| ==> g.received == f.log)
  {
    var k := |f.received|;
    assert LastSeen(f.received) == k;
    NewerConcat(f.log, [e], k);
    NewerOfNumbered(f.log, k);
    if k < |f.log| {
      NewerAll([e], k);
      assert f.log + [e] == f.log[..k] + (f.log[k..] + [e]);
    } else {
      NewerNone([e], k);
      assert |f.log + [e]| == k + 1;
    }
  }
}
