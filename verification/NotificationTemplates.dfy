/** The two scanners of notification templates: the one that validates and the one that renders. */
module NotificationTemplates {
  import opened Text

  // ---------------------------------------------------------------- trimming

  /** The first position from `i` on that is not blank. */
  function SkipSpace(s: string, i: nat): (k: nat)
    requires i <= |s|
    ensures i <= k <= |s| && (k < |s| ==> !IsSpace(s[k])) && forall m :: i <= m < k ==> IsSpace(s[m])
    decreases |s| - i
  {
    if i == |s| || !IsSpace(s[i]) then i else SkipSpace(s, i + 1)
  }

  /** The end of the text before `j` without its trailing blanks. */
  function BackSpace(s: string, j: nat): (k: nat)
    requires j <= |s|
    ensures k <= j && (k > 0 ==> !IsSpace(s[k - 1])) && forall m :: k <= m < j ==> IsSpace(s[m])
  {
    if j == 0 || !IsSpace(s[j - 1]) then j else BackSpace(s, j - 1)
  }

  function Trim(s: string): string {
    if SkipSpace(s, 0) <= BackSpace(s, |s|) then s[SkipSpace(s, 0)..BackSpace(s, |s|)] else ""
  }

  /** Trimming leaves the stretch that ends in no blank and has only blanks around it. */
  lemma TrimIs(s: string, lo: nat, hi: nat)
    requires lo < hi <= |s| && !IsSpace(s[lo]) && !IsSpace(s[hi - 1])
    requires (forall m :: 0 <= m < lo ==> IsSpace(s[m])) && (forall m :: hi <= m < |s| ==> IsSpace(s[m]))
    ensures Trim(s) == s[lo..hi]
  {
  }

  lemma TrimOfBlank(s: string)
    requires forall m :: 0 <= m < |s| ==> IsSpace(s[m])
    ensures Trim(s) == ""
  {
  }

  /** `u` is the stretch of `s` that starts at `a`. */
  predicate Inside(u: string, s: string, a: nat) {
    a + |u| <= |s| && forall m :: 0 <= m < |u| ==> u[m] == s[a + m]
  }

  /** Only blanks lie around the stretch. */
  predicate BlankAround(s: string, a: nat, c: nat) {
    && a <= c <= |s|
    && (forall m :: 0 <= m < a ==> IsSpace(s[m])) && (forall m :: c <= m < |s| ==> IsSpace(s[m]))
  }

  lemma InsideSlice(u: string, s: string, a: nat, lo: nat, hi: nat)
    requires Inside(u, s, a) && lo <= hi <= |u|
    ensures u[lo..hi] == s[a + lo..a + hi]
  {
    forall m | 0 <= m < hi - lo ensures u[lo..hi][m] == s[a + lo..a + hi][m] {
      assert u[lo + m] == s[a + (lo + m)];
    }
  }

  lemma BlankWidens(u: string, s: string, a: nat, lo: nat, hi: nat)
    requires Inside(u, s, a) && BlankAround(s, a, a + |u|) && BlankAround(u, lo, hi)
    ensures BlankAround(s, a + lo, a + hi)
  {
    forall m | 0 <= m < a + lo ensures IsSpace(s[m]) { if a <= m { assert u[m - a] == s[a + (m - a)]; } }
    forall m | a + hi <= m < |s| ensures IsSpace(s[m]) { if m < a + |u| { assert u[m - a] == s[a + (m - a)]; } }
  }

  /** Cutting blanks off does not change what trimming leaves. */
  lemma TrimInner(u: string, s: string, a: nat)
    requires Inside(u, s, a) && BlankAround(s, a, a + |u|)
    ensures Trim(u) == Trim(s)
  {
    var lo, hi := SkipSpace(u, 0), BackSpace(u, |u|);
    if lo < |u| {
      assert hi > lo;
      BlankWidens(u, s, a, lo, hi);
      TrimIs(u, lo, hi);
      TrimTight(u, s, a, lo, hi);
    } else {
      BlankWidens(u, s, a, |u|, |u|);
      TrimOfBlank(u);
      TrimOfBlank(s);
    }
  }

  lemma TrimTight(u: string, s: string, a: nat, lo: nat, hi: nat)
    requires Inside(u, s, a) && lo < hi <= |u| && !IsSpace(u[lo]) && !IsSpace(u[hi - 1])
      && BlankAround(s, a + lo, a + hi)
    ensures Trim(s) == u[lo..hi]
  {
    assert u[hi - 1] == s[a + (hi - 1)];
    TrimIs(s, a + lo, a + hi);
    InsideSlice(u, s, a, lo, hi);
  }

  /** A text without blanks at its ends is left as it is. */
  lemma TrimOfTight(s: string)
    requires s != "" && !IsSpace(s[0]) && !IsSpace(s[|s| - 1])
    ensures Trim(s) == s
  {
  }

  // ---------------------------------------------------------------- the two patterns

  predicate IsBrace(c: char) { c == '{' || c == '}' }

  predicate IsAlphanumeric(c: char) { 'a' <= c <= 'z' || 'A' <= c <= 'Z' || '0' <= c <= '9' }

  /** `^[a-zA-Z0-9]+$` */
  predicate IsName(s: string) { s != "" && forall k :: 0 <= k < |s| ==> IsAlphanumeric(s[k]) }

  /** Two opening braces at `i`, blanks up to `a`, a group up to `c`, blanks, two closing braces that end at `j`. */
  predicate Framed(t: string, i: nat, a: nat, c: nat, j: nat) {
    && i + 2 <= a < c && c + 2 <= j <= |t|
    && t[i] == '{' && t[i + 1] == '{' && t[j - 2] == '}' && t[j - 1] == '}'
    && (forall k :: i + 2 <= k < a ==> IsSpace(t[k])) && (forall k :: c <= k < j - 2 ==> IsSpace(t[k]))
  }

  /** The validator's pattern: the group is anything but braces. */
  predicate WideMatch(t: string, i: nat, a: nat, c: nat, j: nat) {
    Framed(t, i, a, c, j) && forall k :: a <= k < c ==> t[k] != '{' && t[k] != '}'
  }

  /** The renderer's pattern: the group is letters and digits. */
  predicate NarrowMatch(t: string, i: nat, a: nat, c: nat, j: nat) {
    Framed(t, i, a, c, j) && forall k :: a <= k < c ==>
      'a' <= t[k] <= 'z' || 'A' <= t[k] <= 'Z' || '0' <= t[k] <= '9'
  }

  /** The first brace from `k` on. */
  function NextBrace(t: string, k: nat): (b: nat)
    requires k <= |t|
    ensures k <= b <= |t| && (b < |t| ==> IsBrace(t[b])) && forall m :: k <= m < b ==> !IsBrace(t[m])
    decreases |t| - k
  {
    if k == |t| || IsBrace(t[k]) then k else NextBrace(t, k + 1)
  }

  /** The end of the validator's match at `i`, found without backtracking. */
  function SpanEnd(t: string, i: nat): (r: Option<nat>)
    ensures r.Some? ==> i + 5 <= r.value <= |t|
  {
    if i + 2 > |t| || t[i] != '{' || t[i + 1] != '{' then None
    else
      var b := NextBrace(t, i + 2);
      if i + 2 < b && b + 2 <= |t| && t[b] == '}' && t[b + 1] == '}' then Some(b + 2) else None
  }

  /** The text between the braces, trimmed. */
  function KeyOf(t: string, i: nat, j: nat): string
    requires i + 4 <= j <= |t|
  {
    Trim(t[i + 2..j - 2])
  }

  lemma SpaceIsNoBrace(c: char)
    ensures IsSpace(c) || IsAlphanumeric(c) ==> !IsBrace(c)
    ensures !(IsSpace(c) && IsAlphanumeric(c))
  {
  }

  /** However a match is split into blanks and group, it ends where `SpanEnd` says. */
  lemma WideMatchEnds(t: string, i: nat, a: nat, c: nat, j: nat)
    requires WideMatch(t, i, a, c, j)
    ensures SpanEnd(t, i) == Some(j)
  {
    forall k | i + 2 <= k < j - 2 ensures !IsBrace(t[k]) { SpaceIsNoBrace(t[k]); }
    assert NextBrace(t, i + 2) == j - 2;
  }

  /** And its trimmed group is the key. */
  lemma FramedKey(t: string, i: nat, a: nat, c: nat, j: nat)
    requires Framed(t, i, a, c, j)
    ensures Trim(t[a..c]) == KeyOf(t, i, j)
  {
    GroupInside(t, i, a, c, j);
    TrimInner(t[a..c], t[i + 2..j - 2], a - i - 2);
  }

  lemma GroupInside(t: string, i: nat, a: nat, c: nat, j: nat)
    requires Framed(t, i, a, c, j)
    ensures var s := t[i + 2..j - 2]; Inside(t[a..c], s, a - i - 2) && BlankAround(s, a - i - 2, c - i - 2)
  {
    var s := t[i + 2..j - 2];
    forall m | 0 <= m < a - i - 2 ensures IsSpace(s[m]) { assert s[m] == t[i + 2 + m]; }
    forall m | c - i - 2 <= m < |s| ensures IsSpace(s[m]) { assert s[m] == t[i + 2 + m]; }
  }

  /** The validator's pattern matches at `i` up to `j` exactly when the direct scan says so. */
  lemma WideMatchExactly(t: string, i: nat, j: nat)
    ensures (exists a, c :: WideMatch(t, i, a, c, j)) <==> SpanEnd(t, i) == Some(j)
  {
    if SpanEnd(t, i) == Some(j) {
      assert WideMatch(t, i, i + 2, j - 2, j);
    } else if exists a, c :: WideMatch(t, i, a, c, j) {
      var a, c :| WideMatch(t, i, a, c, j);
      WideMatchEnds(t, i, a, c, j);
      assert false;
    }
  }

  lemma NarrowIsWide(t: string, i: nat, a: nat, c: nat, j: nat)
    requires NarrowMatch(t, i, a, c, j)
    ensures WideMatch(t, i, a, c, j) && t[a..c] == KeyOf(t, i, j) && IsName(t[a..c])
  {
    forall k | a <= k < c ensures !IsBrace(t[k]) && !IsSpace(t[k]) { SpaceIsNoBrace(t[k]); }
    TrimOfTight(t[a..c]);
    FramedKey(t, i, a, c, j);
  }

  lemma NameGivesMatch(t: string, i: nat, j: nat)
    requires SpanEnd(t, i) == Some(j) && IsName(KeyOf(t, i, j))
    ensures exists a, c :: NarrowMatch(t, i, a, c, j)
  {
    var s := t[i + 2..j - 2];
    var lo, hi := SkipSpace(s, 0), BackSpace(s, |s|);
    var key := s[lo..hi];
    assert forall m :: 0 <= m < |s| ==> s[m] == t[i + 2 + m];
    var a, c := i + 2 + lo, i + 2 + hi;
    forall k | i + 2 <= k < a ensures IsSpace(t[k]) { assert s[k - i - 2] == t[k]; }
    forall k | c <= k < j - 2 ensures IsSpace(t[k]) { assert s[k - i - 2] == t[k]; }
    forall k | a <= k < c ensures IsAlphanumeric(t[k]) { assert key[k - a] == s[k - i - 2]; }
    assert NarrowMatch(t, i, a, c, j);
  }

  /** The renderer's pattern matches exactly the validator's spans whose key is a name. */
  lemma NarrowMatchExactly(t: string, i: nat, j: nat)
    ensures (exists a, c :: NarrowMatch(t, i, a, c, j)) <==> SpanEnd(t, i) == Some(j) && IsName(KeyOf(t, i, j))
  {
    if SpanEnd(t, i) == Some(j) && IsName(KeyOf(t, i, j)) {
      NameGivesMatch(t, i, j);
    }
    forall a, c | NarrowMatch(t, i, a, c, j) ensures SpanEnd(t, i) == Some(j) && IsName(KeyOf(t, i, j)) {
      NarrowIsWide(t, i, a, c, j);
      WideMatchEnds(t, i, a, c, j);
    }
  }

  /** Spans never overlap: no match starts inside another. */
  lemma SpansApart(t: string, i: nat, j: nat, k: nat)
    requires SpanEnd(t, i) == Some(j) && SpanEnd(t, k).Some? && i < k
    ensures j <= k
  {
    assert t[k] == '{' && t[k + 1] == '{';
    assert !IsBrace(t[i + 2]);
  }

  // ---------------------------------------------------------------- scanning

  datatype Span = Span(start: nat, end: nat)

  /** The match of the validator's or the renderer's pattern at `i`. */
  function EndAt(t: string, i: nat, narrow: bool): (r: Option<nat>)
    ensures r.Some? ==> i + 5 <= r.value <= |t|
  {
    match SpanEnd(t, i)
    case None => None
    case Some(j) => if narrow && !IsName(KeyOf(t, i, j)) then None else Some(j)
  }

  /** `matchAll`: leftmost matches, each search starting where the last match ended. */
  function Scan(t: string, from: nat, narrow: bool): seq<Span>
    requires from <= |t|
    decreases |t| - from
  {
    if from == |t| then []
    else match EndAt(t, from, narrow)
      case Some(j) => [Span(from, j)] + Scan(t, j, narrow)
      case None => Scan(t, from + 1, narrow)
  }

  /** The search misses nothing: it lists every position at which the pattern matches, in order. */
  lemma {:induction false} ScanComplete(t: string, from: nat, narrow: bool, i: nat, j: nat)
    requires from <= |t|
    ensures Span(i, j) in Scan(t, from, narrow) <==> from <= i && EndAt(t, i, narrow) == Some(j)
    decreases |t| - from
  {
    if from < |t| {
      match EndAt(t, from, narrow)
      case Some(e) =>
        ScanComplete(t, e, narrow, i, j);
        if from < i && EndAt(t, i, narrow) == Some(j) { SpansApart(t, from, e, i); }
      case None => ScanComplete(t, from + 1, narrow, i, j);
    }
  }

  predicate Unknown(key: string, allowed: seq<string>) { !IsName(key) || key !in allowed }

  /** Every placeholder of the text is a known name. */
  ghost predicate Valid(t: string, allowed: seq<string>) {
    forall i: nat, j: nat :: SpanEnd(t, i) == Some(j) ==> !Unknown(KeyOf(t, i, j), allowed)
  }

  /** The key of the placeholder at `i`, when there is one and its key is unknown. */
  function UnknownAt(t: string, i: nat, allowed: seq<string>): Option<string> {
    match SpanEnd(t, i)
    case None => None
    case Some(j) => if Unknown(KeyOf(t, i, j), allowed) then Some(KeyOf(t, i, j)) else None
  }

  /** `key` belongs to the first unknown placeholder. */
  ghost predicate FirstUnknown(t: string, key: string, allowed: seq<string>) {
    exists i: nat :: UnknownAt(t, i, allowed) == Some(key) && forall k: nat :: k < i ==> UnknownAt(t, k, allowed).None?
  }

  /** The values of `f` before `from`, each once, the first one first. */
  ghost predicate Collected(f: nat -> Option<string>, from: nat, values: seq<string>) {
    && (forall v :: v in values ==> exists i: nat :: i < from && f(i) == Some(v))
    && (forall i: nat :: i < from && f(i).Some? ==> f(i).value in values)
    && (forall a, b :: 0 <= a < b < |values| ==> values[a] != values[b])
    && (values != [] ==> exists i: nat :: f(i) == Some(values[0]) && forall k: nat :: k < i ==> f(k).None?)
  }

  function WithValue(values: seq<string>, v: Option<string>): seq<string> {
    if v.Some? && v.value !in values then values + [v.value] else values
  }

  lemma CollectedStep(f: nat -> Option<string>, from: nat, end: nat, values: seq<string>)
    requires from < end && Collected(f, from, values) && forall i: nat :: from < i < end ==> f(i).None?
    ensures Collected(f, end, WithValue(values, f(from)))
  {
    var more := WithValue(values, f(from));
    if values == [] && more != [] { assert f(from) == Some(more[0]) && forall k: nat :: k < from ==> f(k).None?; }
    forall v | v in more ensures exists i: nat :: i < end && f(i) == Some(v) {
      if v in values {
        var i: nat :| i < from && f(i) == Some(v);
        assert i < end;
      } else {
        assert f(from) == Some(v);
      }
    }
  }

  lemma NoSpanInside(t: string, from: nat, end: nat, allowed: seq<string>)
    requires SpanEnd(t, from) == Some(end)
    ensures forall i: nat :: from < i < end ==> UnknownAt(t, i, allowed).None?
  {
    forall i: nat | from < i < end && SpanEnd(t, i).Some? ensures false { SpansApart(t, from, end, i); }
  }

  lemma UnknownIsPlaceholder(t: string, i: nat, allowed: seq<string>)
    requires UnknownAt(t, i, allowed).Some?
    ensures i < |t| && Unknown(UnknownAt(t, i, allowed).value, allowed)
  {
  }

  lemma ValidIs(t: string, allowed: seq<string>)
    ensures Valid(t, allowed) <==> forall i: nat :: UnknownAt(t, i, allowed).None?
  {
    if forall i: nat :: UnknownAt(t, i, allowed).None? {
      forall i: nat, j: nat | SpanEnd(t, i) == Some(j) ensures !Unknown(KeyOf(t, i, j), allowed) {
        assert UnknownAt(t, i, allowed).None?;
      }
    }
  }

  /** `unknownPlaceholders`: the unknown keys, each once, the first offender first. */
  method UnknownPlaceholders(t: string, allowed: seq<string>) returns (unknown: seq<string>)
    ensures unknown == [] <==> Valid(t, allowed)
    ensures forall k :: k in unknown <==> exists i: nat :: UnknownAt(t, i, allowed) == Some(k)
    ensures forall a, b :: 0 <= a < b < |unknown| ==> unknown[a] != unknown[b]
    ensures unknown != [] ==> FirstUnknown(t, unknown[0], allowed)
  {
    ghost var f := (i: nat) => UnknownAt(t, i, allowed);
    unknown := [];
    var from := 0;
    while from < |t|
      invariant from <= |t| && Collected(f, from, unknown)
      decreases |t| - from
    {
      match SpanEnd(t, from)
      case None =>
        CollectedStep(f, from, from + 1, unknown);
        from := from + 1;
      case Some(end) =>
        NoSpanInside(t, from, end, allowed);
        CollectedStep(f, from, end, unknown);
        var key := KeyOf(t, from, end);
        if Unknown(key, allowed) && key !in unknown { unknown := unknown + [key]; }
        from := end;
    }
    ValidIs(t, allowed);
    CollectedAll(t, allowed, f, unknown);
  }

  lemma CollectedAll(t: string, allowed: seq<string>, f: nat -> Option<string>, unknown: seq<string>)
    requires Collected(f, |t|, unknown) && forall i: nat :: f(i) == UnknownAt(t, i, allowed)
    ensures unknown == [] <==> forall i: nat :: UnknownAt(t, i, allowed).None?
    ensures forall k :: k in unknown <==> exists i: nat :: UnknownAt(t, i, allowed) == Some(k)
    ensures unknown != [] ==> FirstUnknown(t, unknown[0], allowed)
  {
    forall i: nat | UnknownAt(t, i, allowed).Some? ensures UnknownAt(t, i, allowed).value in unknown {
      UnknownIsPlaceholder(t, i, allowed);
      assert f(i) == UnknownAt(t, i, allowed);
    }
    if unknown != [] { assert unknown[0] in unknown; }
  }

  lemma MatchInside(u: string, s: string, a: nat, i: nat, j: nat)
    requires Inside(u, s, a) && i + 5 <= j <= |u|
    ensures WideMatch(u, i, i + 2, j - 2, j) <==> WideMatch(s, a + i, a + i + 2, a + j - 2, a + j)
    ensures KeyOf(u, i, j) == KeyOf(s, a + i, a + j)
  {
    assert u[i] == s[a + i] && u[i + 1] == s[a + (i + 1)] && u[j - 2] == s[a + (j - 2)] && u[j - 1] == s[a + (j - 1)];
    forall k | a + i + 2 <= k < a + j - 2 ensures s[k] == u[k - a] { assert u[k - a] == s[a + (k - a)]; }
    InsideSlice(u, s, a, i + 2, j - 2);
  }

  lemma SpanMatches(t: string, i: nat, j: nat)
    requires i + 5 <= j <= |t|
    ensures SpanEnd(t, i) == Some(j) <==> WideMatch(t, i, i + 2, j - 2, j)
  {
    if WideMatch(t, i, i + 2, j - 2, j) { WideMatchEnds(t, i, i + 2, j - 2, j); }
  }

  /** The spans of a text are those of its trimmed text, shifted. */
  lemma SpansInside(u: string, s: string, a: nat, i: nat, j: nat)
    requires Inside(u, s, a) && BlankAround(s, a, a + |u|) && SpanEnd(s, i) == Some(j)
    ensures a <= i && j <= a + |u| && SpanEnd(u, i - a) == Some(j - a) && KeyOf(u, i - a, j - a) == KeyOf(s, i, j)
  {
    BracesInside(s, a, a + |u|, i, j);
    SpanShifts(u, s, a, i - a, j - a);
  }

  /** Braces are not blank. */
  lemma BracesInside(s: string, a: nat, c: nat, i: nat, j: nat)
    requires BlankAround(s, a, c) && SpanEnd(s, i) == Some(j)
    ensures a <= i && j <= c
  {
    assert s[i] == '{' && s[j - 1] == '}';
  }

  lemma SpanShifts(u: string, s: string, a: nat, i: nat, j: nat)
    requires Inside(u, s, a) && i + 5 <= j <= |u| && SpanEnd(s, a + i) == Some(a + j)
    ensures SpanEnd(u, i) == Some(j) && KeyOf(u, i, j) == KeyOf(s, a + i, a + j)
  {
    SpanMatches(s, a + i, a + j);
    MatchInside(u, s, a, i, j);
    SpanMatches(u, i, j);
  }

  lemma TrimmedInside(s: string) returns (a: nat)
    ensures Inside(Trim(s), s, a) && BlankAround(s, a, a + |Trim(s)|)
  {
    a := if SkipSpace(s, 0) <= BackSpace(s, |s|) then SkipSpace(s, 0) else 0;
  }

  lemma SpansOutside(u: string, s: string, a: nat, i: nat, j: nat)
    requires Inside(u, s, a) && SpanEnd(u, i) == Some(j)
    ensures SpanEnd(s, a + i) == Some(a + j) && KeyOf(s, a + i, a + j) == KeyOf(u, i, j)
  {
    SpanMatches(u, i, j);
    MatchInside(u, s, a, i, j);
    SpanMatches(s, a + i, a + j);
  }

  lemma ValidInner(u: string, s: string, a: nat, allowed: seq<string>)
    requires Inside(u, s, a) && Valid(s, allowed)
    ensures Valid(u, allowed)
  {
    forall i: nat, j: nat | SpanEnd(u, i) == Some(j) ensures !Unknown(KeyOf(u, i, j), allowed) {
      SpansOutside(u, s, a, i, j);
    }
  }

  lemma ValidOuter(u: string, s: string, a: nat, allowed: seq<string>)
    requires Inside(u, s, a) && BlankAround(s, a, a + |u|) && Valid(u, allowed)
    ensures Valid(s, allowed)
  {
    forall i: nat, j: nat | SpanEnd(s, i) == Some(j) ensures !Unknown(KeyOf(s, i, j), allowed) {
      SpansInside(u, s, a, i, j);
    }
  }

  /** Validating the trimmed text validates the text. */
  lemma ValidTrimmed(s: string, allowed: seq<string>)
    ensures Valid(Trim(s), allowed) <==> Valid(s, allowed)
  {
    var a := TrimmedInside(s);
    if Valid(s, allowed) { ValidInner(Trim(s), s, a, allowed); }
    if Valid(Trim(s), allowed) { ValidOuter(Trim(s), s, a, allowed); }
  }

  datatype Input = Words(text: string) | Other

  const FIELDS: seq<string> := [
    "subjectEn", "subjectFr", "inAppTitleEn", "inAppTitleFr", "inAppBodyEn", "inAppBodyFr",
    "emailTitleEn", "emailTitleFr", "emailBodyEn", "emailBodyFr", "buttonLabelEn", "buttonLabelFr"]

  /** Each of six texts in two languages. */
  lemma FieldsAre(i: nat)
    requires i < 6
    ensures |FIELDS| == 12
    ensures var name := ["subject", "inAppTitle", "inAppBody", "emailTitle", "emailBody", "buttonLabel"][i];
      FIELDS[2 * i] == name + "En" && FIELDS[2 * i + 1] == name + "Fr"
  {
  }

  /** Field `n` is given, and the first unknown placeholder of its trimmed text has the key `key`. */
  ghost predicate Offends(input: map<string, Input>, n: nat, key: string, allowed: seq<string>) {
    n < |FIELDS| && FIELDS[n] in input && input[FIELDS[n]].Words?
      && FirstUnknown(Trim(input[FIELDS[n]].text), key, allowed)
  }

  ghost predicate ValidBefore(input: map<string, Input>, n: nat, allowed: seq<string>) {
    forall m: nat :: m < n && m < |FIELDS| && FIELDS[m] in input && input[FIELDS[m]].Words?
      ==> Valid(input[FIELDS[m]].text, allowed)
  }

  /**
   * `validateNotificationTemplatePlaceholders`: None when it returns, otherwise the placeholder of the thrown
   * error.
   */
  method ValidatePlaceholders(input: map<string, Input>, allowed: seq<string>) returns (error: Option<string>)
    ensures error.None? <==> forall f :: f in FIELDS && f in input && input[f].Words? ==> Valid(input[f].text, allowed)
    ensures error.Some? ==> exists n: nat :: Offends(input, n, error.value, allowed) && ValidBefore(input, n, allowed)
  {
    error := None;
    var n := 0;
    while n < |FIELDS|
      invariant n <= |FIELDS| && error.None?
      invariant forall m :: 0 <= m < n && FIELDS[m] in input && input[FIELDS[m]].Words? ==>
        Valid(input[FIELDS[m]].text, allowed)
    {
      var field := FIELDS[n];
      if field in input && input[field].Words? {
        ValidTrimmed(input[field].text, allowed);
        var value := Trim(input[field].text);
        if value != "" {
          var unknown := UnknownPlaceholders(value, allowed);
          if unknown != [] {
            assert field in FIELDS && Offends(input, n, unknown[0], allowed) && ValidBefore(input, n, allowed);
            return Some(unknown[0]);
          }
        }
      }
      n := n + 1;
    }
  }

  // ---------------------------------------------------------------- rendering

  /** `normalizeVariables` */
  function Normalized(values: map<string, Option<string>>, allowed: seq<string>): (r: map<string, string>)
    ensures forall k :: k in r <==> k in allowed
  {
    map k | k in allowed :: if k in values && values[k].Some? then values[k].value else ""
  }

  /** What stands for a placeholder. */
  function ValueOf(vars: map<string, string>, key: string, allowed: seq<string>): string {
    if key in allowed && key in vars then vars[key] else ""
  }

  /** `renderControlledTemplate`: `replace` with the renderer's pattern. */
  function Render(t: string, from: nat, vars: map<string, string>, allowed: seq<string>): string
    requires from <= |t|
    decreases |t| - from
  {
    if from == |t| then ""
    else match EndAt(t, from, true)
      case Some(j) => ValueOf(vars, KeyOf(t, from, j), allowed) + Render(t, j, vars, allowed)
      case None => [t[from]] + Render(t, from + 1, vars, allowed)
  }

  /** Spans of `t` in order, from `pos` on. */
  predicate InOrder(t: string, pos: nat, spans: seq<Span>)
    decreases |spans|
  {
    pos <= |t| && (spans != [] ==>
      pos <= spans[0].start && spans[0].start + 5 <= spans[0].end <= |t| && InOrder(t, spans[0].end, spans[1..]))
  }

  /** The literal pieces in order, with the normalized value of its key between them for every span. */
  function Filled(t: string, pos: nat, spans: seq<Span>, vars: map<string, string>): string
    requires InOrder(t, pos, spans)
    decreases |spans|
  {
    if spans == [] then t[pos..]
    else
      var key := KeyOf(t, spans[0].start, spans[0].end);
      t[pos..spans[0].start] + (if key in vars then vars[key] else "") + Filled(t, spans[0].end, spans[1..], vars)
  }

  lemma {:induction false} ScanInOrder(t: string, from: nat, pos: nat, narrow: bool)
    requires pos <= from <= |t|
    ensures InOrder(t, pos, Scan(t, from, narrow))
    decreases |t| - from
  {
    if from < |t| {
      match EndAt(t, from, narrow)
      case Some(j) => ScanInOrder(t, j, j, narrow); assert Scan(t, from, narrow)[1..] == Scan(t, j, narrow);
      case None => ScanInOrder(t, from + 1, pos, narrow);
    }
  }

  /** Every placeholder of the text is a name, known or not. */
  ghost predicate AllNames(t: string) { forall i: nat, j: nat :: SpanEnd(t, i) == Some(j) ==> IsName(KeyOf(t, i, j)) }

  /** If all placeholders are names, as in a valid text, both patterns match at the same places. */
  lemma {:induction false} SameSpans(t: string, from: nat)
    requires from <= |t| && AllNames(t)
    ensures Scan(t, from, true) == Scan(t, from, false)
    decreases |t| - from
  {
    if from < |t| {
      match SpanEnd(t, from)
      case Some(j) => SameSpans(t, j);
      case None => SameSpans(t, from + 1);
    }
  }

  lemma {:induction false} FilledFrom(t: string, pos: nat, spans: seq<Span>, vars: map<string, string>)
    requires InOrder(t, pos, spans) && InOrder(t, pos + 1, spans)
    ensures Filled(t, pos, spans, vars) == [t[pos]] + Filled(t, pos + 1, spans, vars)
  {
    if spans == [] {
      assert t[pos..] == [t[pos]] + t[pos + 1..];
    } else {
      assert t[pos..spans[0].start] == [t[pos]] + t[pos + 1..spans[0].start];
    }
  }

  /** Rendering fills the renderer's own spans; what is put in is not scanned again. */
  lemma {:induction false} RenderFills(t: string, from: nat, vars: map<string, string>, allowed: seq<string>)
    requires from <= |t| && forall k :: k in vars <==> k in allowed
    ensures InOrder(t, from, Scan(t, from, true))
      && Render(t, from, vars, allowed) == Filled(t, from, Scan(t, from, true), vars)
    decreases |t| - from
  {
    ScanInOrder(t, from, from, true);
    if from < |t| {
      match EndAt(t, from, true)
      case Some(j) =>
        RenderFills(t, j, vars, allowed);
        FilledSpan(t, from, j, Scan(t, j, true), vars);
      case None =>
        RenderFills(t, from + 1, vars, allowed);
        FilledFrom(t, from, Scan(t, from, true), vars);
    }
  }

  lemma FilledSpan(t: string, from: nat, j: nat, spans: seq<Span>, vars: map<string, string>)
    requires from + 5 <= j <= |t| && InOrder(t, j, spans)
    ensures InOrder(t, from, [Span(from, j)] + spans)
    ensures var key := KeyOf(t, from, j);
      Filled(t, from, [Span(from, j)] + spans, vars) ==
        (if key in vars then vars[key] else "") + Filled(t, j, spans, vars)
  {
    assert ([Span(from, j)] + spans)[1..] == spans && t[from..from] == "";
  }

  /** The text given for a key, nothing when none is. */
  function GivenFor(values: map<string, Option<string>>, key: string): string {
    if key in values && values[key].Some? then values[key].value else ""
  }

  /** The literal pieces in order, with the text given for its key between them for every span. */
  function FilledBy(t: string, pos: nat, spans: seq<Span>, values: map<string, Option<string>>): string
    requires InOrder(t, pos, spans)
    decreases |spans|
  {
    if spans == [] then t[pos..]
    else
      t[pos..spans[0].start] + GivenFor(values, KeyOf(t, spans[0].start, spans[0].end))
        + FilledBy(t, spans[0].end, spans[1..], values)
  }

  lemma {:induction false} SameFilling(t: string, pos: nat, spans: seq<Span>, values: map<string, Option<string>>,
    allowed: seq<string>)
    requires InOrder(t, pos, spans)
    requires forall sp :: sp in spans ==> sp.start + 5 <= sp.end <= |t| && KeyOf(t, sp.start, sp.end) in allowed
    ensures Filled(t, pos, spans, Normalized(values, allowed)) == FilledBy(t, pos, spans, values)
    decreases |spans|
  {
    if spans != [] {
      assert spans[0] in spans;
      SameFilling(t, spans[0].end, spans[1..], values, allowed);
    }
  }

  /**
   * A template that passed validation is rendered as its literal text with every placeholder the validator saw
   * replaced, once, by the text given for its key, or by nothing.
   */
  lemma RenderOfValid(t: string, values: map<string, Option<string>>, allowed: seq<string>)
    requires Valid(t, allowed)
    ensures var vars, spans := Normalized(values, allowed), Scan(t, 0, false);
      && InOrder(t, 0, spans) && Render(t, 0, vars, allowed) == FilledBy(t, 0, spans, values)
      && forall sp :: sp in spans ==> SpanEnd(t, sp.start) == Some(sp.end) && KeyOf(t, sp.start, sp.end) in vars
  {
    var vars := Normalized(values, allowed);
    assert AllNames(t);
    SameSpans(t, 0);
    RenderFills(t, 0, vars, allowed);
    forall sp | sp in Scan(t, 0, false)
      ensures SpanEnd(t, sp.start) == Some(sp.end)
        && KeyOf(t, sp.start, sp.end) in vars {
      ScanComplete(t, 0, false, sp.start, sp.end);
    }
    SameFilling(t, 0, Scan(t, 0, false), values, allowed);
  }

  /**
   * The two scanners agree on a text if and only if all its placeholders are names; one that is not is left
   * standing.
   */
  lemma ScannersAgreeExactly(t: string)
    ensures Scan(t, 0, true) == Scan(t, 0, false) <==> AllNames(t)
    ensures forall i: nat, j: nat ::
      SpanEnd(t, i) == Some(j) && !IsName(KeyOf(t, i, j)) ==> Span(i, j) !in Scan(t, 0, true)
  {
    forall i: nat, j: nat | SpanEnd(t, i) == Some(j) && !IsName(KeyOf(t, i, j))
      ensures Span(i, j) in Scan(t, 0, false) && Span(i, j) !in Scan(t, 0, true)
    {
      ScanComplete(t, 0, false, i, j);
      ScanComplete(t, 0, true, i, j);
    }
    if AllNames(t) { SameSpans(t, 0); }
  }
}
