/**
 * The deployed version as the text of `.env`: the value of one line `PE_COMMUNITY_VERSION=...`.
 * The scanners take the key as a parameter; the two operations on the file fix it to `KEY`.
 */
module EnvFile {
  import opened Text
  import opened Versions

  const KEY := "PE_COMMUNITY_VERSION="

  predicate AtLineStart(s: string, i: nat)
    requires i <= |s|
  {
    i == 0 || IsLineTerminator(s[i - 1])
  }

  /** `^<key>` matches at `i`. */
  predicate KeyAt(key: string, s: string, i: nat) {
    OccursAt(key, s, i) && AtLineStart(s, i)
  }

  /** The first position from `from` on at which the key starts a line. */
  function FindKey(key: string, s: string, from: nat): (r: Option<nat>)
    requires from <= |s|
    ensures r.Some? ==> from <= r.value && KeyAt(key, s, r.value)
    ensures r.Some? ==> forall j :: from <= j < r.value ==> !KeyAt(key, s, j)
    ensures r.None? ==> forall j :: from <= j ==> !KeyAt(key, s, j)
    decreases |s| - from
  {
    if KeyAt(key, s, from) then Some(from)
    else if from == |s| then None
    else FindKey(key, s, from + 1)
  }

  /** The first line end at or after `i`: where `.*` stops. */
  function LineEnd(s: string, i: nat): (e: nat)
    requires i <= |s|
    ensures i <= e <= |s| && (e < |s| ==> IsLineTerminator(s[e]))
    ensures forall k :: i <= k < e ==> !IsLineTerminator(s[k])
    decreases |s| - i
  {
    if i == |s| || IsLineTerminator(s[i]) then i else LineEnd(s, i + 1)
  }

  /** The text with the rest of the key's line replaced by `"value"`; None without such a line. */
  function ReplaceValue(key: string, source: string, value: string): (r: Option<string>) {
    match FindKey(key, source, 0)
    case None => None
    case Some(i) => Some(source[..i + |key|] + ("\"" + value + "\"") + source[LineEnd(source, i + |key|)..])
  }

  /** The first position from `i` on that holds `c`. */
  function IndexOf(s: string, c: char, i: nat): (r: Option<nat>)
    requires i <= |s|
    ensures r.Some? ==> i <= r.value < |s| && s[r.value] == c && forall k :: i <= k < r.value ==> s[k] != c
    ensures r.None? ==> forall k :: i <= k < |s| ==> s[k] != c
    decreases |s| - i
  {
    if i == |s| then None else if s[i] == c then Some(i) else IndexOf(s, c, i + 1)
  }

  /** A value between two `quote` characters, at least one character long. */
  function QuotedAt(s: string, quote: char, j: nat): (r: Option<string>)
    requires j <= |s|
  {
    if j == |s| || s[j] != quote then None
    else match IndexOf(s, quote, j + 1)
      case None => None
      case Some(k) => if k == j + 1 then None else Some(s[j + 1..k])
  }

  /** The end of the longest run of characters that are neither blank nor `#`. */
  function BareEnd(s: string, j: nat): (e: nat)
    requires j <= |s|
    ensures j <= e <= |s|
    decreases |s| - j
  {
    if j == |s| || IsSpace(s[j]) || s[j] == '#' then j else BareEnd(s, j + 1)
  }

  /** The three alternatives in their order: double-quoted, single-quoted, bare. */
  function ValueAt(s: string, j: nat): (r: Option<string>)
    requires j <= |s|
  {
    var double := QuotedAt(s, '"', j);
    if double.Some? then double
    else
      var single := QuotedAt(s, '\'', j);
      if single.Some? then single
      else if BareEnd(s, j) > j then Some(s[j..BareEnd(s, j)]) else None
  }

  /** The value of the first key line whose value matches; later lines are tried when one does not. */
  function MatchValue(key: string, s: string, from: nat): (r: Option<string>)
    requires from <= |s|
    decreases |s| - from
  {
    match FindKey(key, s, from)
    case None => None
    case Some(i) =>
      var v := ValueAt(s, i + |key|);
      if v.Some? then v else if i == |s| then None else MatchValue(key, s, i + 1)
  }

  predicate HasVersionLine(s: string) { FindKey(KEY, s, 0).Some? }

  /** `installedVersion`; None stands for the throw on a missing or unacceptable version. */
  function InstalledVersion(s: string): (r: Option<Version>) {
    match MatchValue(KEY, s, 0)
    case None => None
    case Some(text) => ParseVersion(text)
  }

  /** The text `writeVersion` stores; None when it throws because no version line exists. */
  function WriteVersion(source: string, v: Version): (r: Option<string>) {
    ReplaceValue(KEY, source, PrintVersion(v))
  }

  /** A readable version implies a version line. */
  lemma InstalledHasLine(s: string)
    requires InstalledVersion(s).Some?
    ensures HasVersionLine(s)
  {
  }

  /** Texts that agree up to the end of the first key both have it as their first key. */
  lemma {:induction false} FindKeyAgree(key: string, s: string, t: string, i: nat, from: nat)
    requires from <= i && KeyAt(key, s, i) && (forall j :: from <= j < i ==> !KeyAt(key, s, j))
    requires i + |key| <= |t| && s[..i + |key|] == t[..i + |key|]
    ensures FindKey(key, t, from) == Some(i)
    decreases i - from
  {
    var n := i + |key|;
    OccursAtAgree(key, s, t, from, n);
    assert from > 0 ==> s[from - 1] == s[..n][from - 1] && t[from - 1] == t[..n][from - 1];
    assert KeyAt(key, s, from) == KeyAt(key, t, from);
    if from < i {
      FindKeyAgree(key, s, t, i, from + 1);
    }
  }

  lemma {:induction false} LineEndIs(s: string, i: nat, e: nat)
    requires i <= e <= |s| && (forall k :: i <= k < e ==> !IsLineTerminator(s[k]))
    requires e < |s| ==> IsLineTerminator(s[e])
    ensures LineEnd(s, i) == e
    decreases e - i
  {
    if i < e { LineEndIs(s, i + 1, e); }
  }

  lemma {:induction false} IndexOfIs(s: string, c: char, i: nat, k: nat)
    requires i <= k < |s| && s[k] == c && forall j :: i <= j < k ==> s[j] != c
    ensures IndexOf(s, c, i) == Some(k)
    decreases k - i
  {
    if i < k { IndexOfIs(s, c, i + 1, k); }
  }

  /** A value that can stand between double quotes on one line. */
  predicate Plain(p: string) {
    p != [] && forall k :: 0 <= k < |p| ==> p[k] != '"' && !IsLineTerminator(p[k])
  }

  /** `quoted` is `"p"`. */
  predicate Quoted(quoted: string, p: string) {
    && |quoted| == |p| + 2 && quoted[0] == '"' && quoted[|p| + 1] == '"'
    && forall k :: 0 <= k < |p| ==> quoted[k + 1] == p[k]
  }

  /** A text laid out as: something, a plain value in quotes, the rest of the lines. */
  predicate Layout(head: string, quoted: string, rest: string, t: string) {
    && |t| == |head| + |quoted| + |rest|
    && t[..|head|] == head && t[|head| + |quoted|..] == rest
    && (forall k :: |head| <= k < |head| + |quoted| ==> t[k] == quoted[k - |head|])
    && (rest != [] ==> t[|head| + |quoted|] == rest[0])
  }

  lemma ReadLayout(head: string, p: string, quoted: string, rest: string, t: string)
    requires Plain(p) && Quoted(quoted, p) && Layout(head, quoted, rest, t)
    requires rest != [] ==> IsLineTerminator(rest[0])
    ensures ValueAt(t, |head|) == Some(p)
    ensures LineEnd(t, |head|) == |head| + |quoted|
  {
    ReadQuoted(t, |head|, p, quoted);
    EndOfQuoted(t, |head|, p, quoted);
  }

  lemma ReadQuoted(t: string, j: nat, p: string, quoted: string)
    requires Plain(p) && Quoted(quoted, p) && j + |quoted| <= |t|
    requires forall k :: j <= k < j + |quoted| ==> t[k] == quoted[k - j]
    ensures ValueAt(t, j) == Some(p)
  {
    forall k | j < k < j + 1 + |p| ensures t[k] == p[k - j - 1] && t[k] != '"' {
      assert quoted[k - j - 1 + 1] == p[k - j - 1];
    }
    IndexOfIs(t, '"', j + 1, j + 1 + |p|);
    SliceIs(t, j + 1, p);
  }

  lemma EndOfQuoted(t: string, j: nat, p: string, quoted: string)
    requires Plain(p) && Quoted(quoted, p) && j + |quoted| <= |t|
    requires forall k :: j <= k < j + |quoted| ==> t[k] == quoted[k - j]
    requires j + |quoted| < |t| ==> IsLineTerminator(t[j + |quoted|])
    ensures LineEnd(t, j) == j + |quoted|
  {
    forall k | j <= k < j + |quoted| ensures !IsLineTerminator(t[k]) {
      if j < k < j + 1 + |p| {
        assert quoted[k - j - 1 + 1] == p[k - j - 1];
      }
    }
    LineEndIs(t, j, j + |quoted|);
  }

  lemma Pieces(head: string, quoted: string, rest: string, t: string)
    requires t == head + quoted + rest
    ensures Layout(head, quoted, rest, t)
  {
  }

  lemma SliceIs(t: string, i: nat, p: string)
    requires i + |p| <= |t| && forall k :: i <= k < i + |p| ==> t[k] == p[k - i]
    ensures t[i..i + |p|] == p
  {
  }

  /** A text put together from the source's head, a quoted value and the source's rest of lines. */
  lemma PutTogether(key: string, s: string, p: string, i: nat, e: nat, t: string)
    requires Plain(p) && i + |key| <= e <= |s| && (e < |s| ==> IsLineTerminator(s[e]))
    requires t == s[..i + |key|] + ("\"" + p + "\"") + s[e..]
    ensures i + |key| <= |t| && t[..i + |key|] == s[..i + |key|] && ValueAt(t, i + |key|) == Some(p)
    ensures t[LineEnd(t, i + |key|)..] == s[e..]
  {
    var head, quoted, rest := s[..i + |key|], "\"" + p + "\"", s[e..];
    Pieces(head, quoted, rest, t);
    ReadLayout(head, p, quoted, rest, t);
  }

  /** Everything the two operations need about a text whose value was replaced. */
  lemma Replaced(key: string, s: string, p: string) returns (i: nat, e: nat, t: string)
    requires Plain(p) && FindKey(key, s, 0).Some?
    ensures FindKey(key, s, 0) == Some(i) && i + |key| <= e <= |s| && e == LineEnd(s, i + |key|)
    ensures ReplaceValue(key, s, p) == Some(t) && FindKey(key, t, 0) == Some(i) && t[..i + |key|] == s[..i + |key|]
    ensures ValueAt(t, i + |key|) == Some(p) && t[LineEnd(t, i + |key|)..] == s[e..]
  {
    i := FindKey(key, s, 0).value;
    e := LineEnd(s, i + |key|);
    t := s[..i + |key|] + ("\"" + p + "\"") + s[e..];
    ReplacedAt(key, s, p, i, e, t);
  }

  lemma ReplacedAt(key: string, s: string, p: string, i: nat, e: nat, t: string)
    requires Plain(p) && FindKey(key, s, 0) == Some(i) && i + |key| <= e <= |s| && (e < |s| ==> IsLineTerminator(s[e]))
    requires t == s[..i + |key|] + ("\"" + p + "\"") + s[e..]
    ensures FindKey(key, t, 0) == Some(i) && t[..i + |key|] == s[..i + |key|]
    ensures ValueAt(t, i + |key|) == Some(p) && t[LineEnd(t, i + |key|)..] == s[e..]
  {
    PutTogether(key, s, p, i, e, t);
    FindKeyAgree(key, s, t, i, 0);
  }

  lemma PrintedPlain(v: Version)
    ensures Plain(PrintVersion(v))
  {
    PrintedIsPlain(v);
  }

  /** Reading back gives the version that was written. */
  lemma InstalledAfterWrite(s: string, v: Version)
    requires HasVersionLine(s)
    ensures InstalledVersion(WriteVersion(s, v).value) == Some(v)
  {
    PrintedPlain(v);
    ParseOfPrint(v);
    var i, e, t := Replaced(KEY, s, PrintVersion(v));
  }

  /** Only the rest of the version line changes: the text around it is the source's, character for character. */
  lemma WriteKeepsTheRest(s: string, v: Version) returns (i: nat, e: nat)
    requires HasVersionLine(s)
    ensures i <= e <= |s| && i >= |KEY| && KeyAt(KEY, s, i - |KEY|)
      && forall j :: 0 <= j < i - |KEY| ==> !KeyAt(KEY, s, j)
    ensures (forall k :: i <= k < e ==> !IsLineTerminator(s[k])) && (e < |s| ==> IsLineTerminator(s[e]))
    ensures WriteVersion(s, v).value == s[..i] + ("\"" + PrintVersion(v) + "\"") + s[e..]
  {
    i := FindKey(KEY, s, 0).value + |KEY|;
    e := LineEnd(s, i);
  }

  /** A second write overrides the first. */
  lemma WriteOverrides(s: string, v: Version, u: Version)
    requires HasVersionLine(s)
    ensures HasVersionLine(WriteVersion(s, v).value)
    ensures WriteVersion(WriteVersion(s, v).value, u) == WriteVersion(s, u)
  {
    PrintedPlain(v);
    var i, e, t := Replaced(KEY, s, PrintVersion(v));
  }

  // ---------------------------------------------------------------- which text is read

  /** The key at the start of a line, in so many characters. */
  predicate KeyLine(s: string, i: nat) {
    && i + 21 <= |s| && s[i..i + 21] == "PE_COMMUNITY_VERSION="
    && (i > 0 ==> s[i - 1] == '\n' || s[i - 1] == '\r' || s[i - 1] == '\U{2028}' || s[i - 1] == '\U{2029}')
  }

  /** Nothing but the key at the very start of a line makes a version line. */
  lemma VersionLineExactly(s: string)
    ensures forall i: nat :: KeyAt(KEY, s, i) <==> KeyLine(s, i)
    ensures HasVersionLine(s) <==> exists i: nat :: KeyLine(s, i)
  {
  }

  /** A value is missing only at a blank, at a `#` and at the end. */
  lemma ValueExactly(s: string, j: nat)
    requires j <= |s|
    ensures ValueAt(s, j).None? <==> j == |s| || IsSpace(s[j]) || s[j] == '#'
  {
  }

  /** In quotes of either kind everything up to the next one is the value, if that is anything. */
  lemma QuotedValue(s: string, j: nat, quote: char, k: nat)
    requires (quote == '"' || quote == '\'') && j + 1 < k < |s| && s[j] == quote && s[k] == quote
    requires forall m :: j < m < k ==> s[m] != quote
    ensures ValueAt(s, j) == Some(s[j + 1..k])
  {
    IndexOfIs(s, quote, j + 1, k);
  }

  /** No quoted value starts at `j`: there is no quote, or none closes it, or nothing stands between the two. */
  predicate Unquoted(s: string, j: nat)
    requires j < |s|
  {
    s[j] == '"' || s[j] == '\'' ==> (j + 1 < |s| && s[j + 1] == s[j]) || s[j] !in s[j + 1..]
  }

  /** Without a quoted value everything up to the next blank or `#` is the value, a quote included. */
  lemma BareValue(s: string, j: nat, e: nat)
    requires j < e <= |s| && Unquoted(s, j)
    requires forall m :: j <= m < e ==> !IsSpace(s[m]) && s[m] != '#'
    requires e < |s| ==> IsSpace(s[e]) || s[e] == '#'
    ensures ValueAt(s, j) == Some(s[j..e])
  {
    BareEndIs(s, j, e);
    match IndexOf(s, s[j], j + 1)
    case None =>
    case Some(k) =>
      if s[j] == '"' || s[j] == '\'' {
        assert s[j + 1..][k - j - 1] == s[j];
      }
  }

  lemma {:induction false} BareEndIs(s: string, j: nat, e: nat)
    requires j <= e <= |s| && forall m :: j <= m < e ==> !IsSpace(s[m]) && s[m] != '#'
    requires e < |s| ==> IsSpace(s[e]) || s[e] == '#'
    ensures BareEnd(s, j) == e
    decreases e - j
  {
    if j < e { BareEndIs(s, j + 1, e); }
  }

  /** A version line with a value. */
  predicate Readable(s: string, i: nat) { KeyAt(KEY, s, i) && ValueAt(s, i + |KEY|).Some? }

  /** The first of them from `from` on. */
  function FirstReadable(s: string, from: nat): (r: Option<nat>)
    requires from <= |s|
    ensures r.Some? ==> from <= r.value && r.value + |KEY| <= |s|
    decreases |s| - from
  {
    if Readable(s, from) then Some(from) else if from == |s| then None else FirstReadable(s, from + 1)
  }

  function FirstValue(s: string, from: nat): Option<string>
    requires from <= |s|
  {
    match FirstReadable(s, from) case None => None case Some(i) => ValueAt(s, i + |KEY|)
  }

  /** What is read is the value of the first version line that has one. */
  lemma {:induction false} MatchIsFirst(s: string, from: nat)
    requires from <= |s|
    ensures MatchValue(KEY, s, from) == FirstValue(s, from)
    decreases |s| - from
  {
    MatchSteps(s, from);
    FirstSteps(s, from);
    if from < |s| { MatchIsFirst(s, from + 1); }
  }

  lemma FirstSteps(s: string, from: nat)
    requires from <= |s|
    ensures FirstValue(s, from) ==
      if Readable(s, from) then ValueAt(s, from + |KEY|)
      else if from == |s| then None else FirstValue(s, from + 1)
  {
  }

  lemma MatchSteps(s: string, from: nat)
    requires from <= |s|
    ensures MatchValue(KEY, s, from) ==
      if Readable(s, from) then ValueAt(s, from + |KEY|)
      else if from == |s| then None else MatchValue(KEY, s, from + 1)
  {
  }

  /** A whole number of lines. */
  predicate EndsLine(p: string) {
    p != "" ==> p[|p| - 1] == '\n' || p[|p| - 1] == '\r' || p[|p| - 1] == '\U{2028}' || p[|p| - 1] == '\U{2029}'
  }

  lemma {:induction false} IndexOfShifts(p: string, t: string, c: char, i: nat)
    requires i <= |t|
    ensures IndexOf(p + t, c, |p| + i) == match IndexOf(t, c, i) case None => None case Some(k) => Some(|p| + k)
    decreases |t| - i
  {
    if i < |t| && t[i] != c { IndexOfShifts(p, t, c, i + 1); }
  }

  lemma {:induction false} BareEndShifts(p: string, t: string, i: nat)
    requires i <= |t|
    ensures BareEnd(p + t, |p| + i) == |p| + BareEnd(t, i)
    decreases |t| - i
  {
    if i < |t| && !IsSpace(t[i]) && t[i] != '#' { BareEndShifts(p, t, i + 1); }
  }

  lemma QuotedShifts(p: string, t: string, quote: char, j: nat)
    requires j <= |t|
    ensures QuotedAt(p + t, quote, |p| + j) == QuotedAt(t, quote, j)
  {
    if j < |t| && t[j] == quote {
      IndexOfShifts(p, t, quote, j + 1);
      match IndexOf(t, quote, j + 1)
      case None =>
      case Some(k) => assert (p + t)[|p| + j + 1..|p| + k] == t[j + 1..k];
    }
  }

  /** A value does not depend on what stands before it. */
  lemma ValueShifts(p: string, t: string, j: nat)
    requires j <= |t|
    ensures ValueAt(p + t, |p| + j) == ValueAt(t, j)
  {
    QuotedShifts(p, t, '"', j);
    QuotedShifts(p, t, '\'', j);
    BareEndShifts(p, t, j);
    assert (p + t)[|p| + j..|p| + BareEnd(t, j)] == t[j..BareEnd(t, j)];
  }

  lemma KeyShifts(p: string, t: string, i: nat)
    requires EndsLine(p)
    ensures KeyAt(KEY, p + t, |p| + i) <==> KeyAt(KEY, t, i)
  {
    if i + |KEY| <= |t| { assert (p + t)[|p| + i..|p| + i + |KEY|] == t[i..i + |KEY|]; }
  }

  /** No key line begins in a whole number of lines and ends behind them. */
  lemma KeyStaysInside(p: string, t: string, j: nat)
    requires EndsLine(p) && j < |p| && KeyAt(KEY, p + t, j)
    ensures j + |KEY| < |p| && KeyAt(KEY, p, j)
  {
    var s := p + t;
    KeyOnOneLine(s, j);
    assert s[|p| - 1] == p[|p| - 1];
    assert s[j..j + |KEY|] == p[j..j + |KEY|];
  }

  lemma KeyOnOneLine(s: string, j: nat)
    requires KeyAt(KEY, s, j)
    ensures forall m :: j <= m < j + |KEY| ==> !IsLineTerminator(s[m])
  {
    forall m | j <= m < j + |KEY| ensures !IsLineTerminator(s[m]) {
      assert s[m] == s[j..j + |KEY|][m - j] == KEY[m - j];
    }
  }

  lemma NoValueStays(p: string, t: string, j: nat)
    requires EndsLine(p) && j < |p| && !Readable(p, j)
    ensures !Readable(p + t, j)
  {
    if KeyAt(KEY, p + t, j) {
      KeyStaysInside(p, t, j);
      ValueExactly(p, j + |KEY|);
      ValueExactly(p + t, j + |KEY|);
    }
  }

  lemma {:induction false} SkipsLines(p: string, t: string, j: nat)
    requires EndsLine(p) && j <= |p| && FirstReadable(p, j).None?
    ensures FirstReadable(p + t, j) == FirstReadable(p + t, |p|)
    decreases |p| - j
  {
    if j < |p| {
      NoValueStays(p, t, j);
      SkipsLines(p, t, j + 1);
    }
  }

  lemma ReadableShifts(p: string, t: string, i: nat)
    requires EndsLine(p)
    ensures Readable(p + t, |p| + i) <==> Readable(t, i)
  {
    KeyShifts(p, t, i);
    if KeyAt(KEY, t, i) { ValueShifts(p, t, i + |KEY|); }
  }

  function Shifted(n: nat, i: Option<nat>): Option<nat> { if i.Some? then Some(n + i.value) else None }

  lemma {:induction false} FirstShifts(p: string, t: string, s: string, i: nat)
    requires EndsLine(p) && i <= |t| && s == p + t
    ensures FirstReadable(s, |p| + i) == Shifted(|p|, FirstReadable(t, i))
    decreases |t| - i
  {
    ReadableShifts(p, t, i);
    if i < |t| { FirstShifts(p, t, s, i + 1); }
  }

  /** Lines before that hold no readable value are skipped, version lines among them. */
  lemma NothingBefore(p: string, t: string)
    requires EndsLine(p) && MatchValue(KEY, p, 0).None?
    ensures MatchValue(KEY, p + t, 0) == MatchValue(KEY, t, 0)
  {
    MatchIsFirst(p, 0);
    MatchIsFirst(t, 0);
    MatchIsFirst(p + t, 0);
    FirstValueShifts(p, t, p + t);
  }

  lemma FirstValueShifts(p: string, t: string, s: string)
    requires EndsLine(p) && FirstValue(p, 0).None? && s == p + t
    ensures FirstValue(s, 0) == FirstValue(t, 0)
  {
    NoValueNone(p);
    FirstAfter(p, t, s);
    var i := FirstReadable(t, 0);
    if i.Some? { ValueBehind(p, t, s, i.value); }
  }

  lemma NoValueNone(s: string)
    requires FirstValue(s, 0).None?
    ensures FirstReadable(s, 0).None?
  {
    NoneReadable(s, 0);
  }

  lemma ValueBehind(p: string, t: string, s: string, i: nat)
    requires i + |KEY| <= |t| && s == p + t
    ensures ValueAt(s, |p| + i + |KEY|) == ValueAt(t, i + |KEY|)
  {
    ValueShifts(p, t, i + |KEY|);
    assert |p| + i + |KEY| == |p| + (i + |KEY|);
  }

  lemma FirstAfter(p: string, t: string, s: string)
    requires EndsLine(p) && FirstReadable(p, 0).None? && s == p + t
    ensures FirstReadable(s, 0) == Shifted(|p|, FirstReadable(t, 0))
  {
    SkipsLines(p, t, 0);
    FirstShifts(p, t, s, 0);
  }

  lemma {:induction false} NoneReadable(s: string, from: nat)
    requires from <= |s|
    ensures FirstReadable(s, from).Some? ==> ValueAt(s, FirstReadable(s, from).value + |KEY|).Some?
    decreases |s| - from
  {
    if from < |s| { NoneReadable(s, from + 1); }
  }

  lemma PrintedChars(v: Version)
    ensures PrintVersion(v) != [] && PrintVersion(v)[0] == 'v'
    ensures forall c :: c in PrintVersion(v) ==> c == 'v' || c == '.' || IsDigit(c)
  {
    var a, b, c := Decimal(v.major), Decimal(v.minor), Decimal(v.patch);
    forall ch | ch in PrintVersion(v) ensures ch == 'v' || ch == '.' || IsDigit(ch) {
      assert ch == 'v' || ch == '.' || ch in a || ch in b || ch in c;
    }
  }

  /** The key at the start of a text, and a value behind it. */
  lemma KeyFirst(value: string)
    ensures KeyAt(KEY, KEY + value, 0) && (KEY + value)[|KEY|..] == value
  {
  }

  /**
   * A version is read from its line with or without quotes of either kind, whatever lines without a readable value
   * stand before it, and whatever follows it: anything behind a quote, otherwise a blank, a line end or a `#`.
   */
  lemma InstalledReads(p: string, v: Version, rest: string)
    requires EndsLine(p) && MatchValue(KEY, p, 0).None?
    ensures rest == "" || IsSpace(rest[0]) || rest[0] == '#' ==>
      InstalledVersion(p + ("PE_COMMUNITY_VERSION=" + (PrintVersion(v) + rest))) == Some(v)
    ensures InstalledVersion(p + ("PE_COMMUNITY_VERSION=" + ("'" + PrintVersion(v) + "'" + rest))) == Some(v)
    ensures InstalledVersion(p + ("PE_COMMUNITY_VERSION=" + ("\"" + PrintVersion(v) + "\"" + rest))) == Some(v)
  {
    ParseOfPrint(v);
    if rest == "" || IsSpace(rest[0]) || rest[0] == '#' {
      ReadsBare(v, rest);
      ReadAfter(p, PrintVersion(v) + rest, v);
    }
    ReadsQuoted(v, rest, '\'');
    ReadAfter(p, "'" + PrintVersion(v) + "'" + rest, v);
    ReadsQuoted(v, rest, '"');
    ReadAfter(p, "\"" + PrintVersion(v) + "\"" + rest, v);
  }

  lemma ReadAfter(p: string, value: string, v: Version)
    requires EndsLine(p) && MatchValue(KEY, p, 0).None? && ValueAt(value, 0) == Some(PrintVersion(v))
    ensures InstalledVersion(p + ("PE_COMMUNITY_VERSION=" + value)) == Some(v)
  {
    var t := "PE_COMMUNITY_VERSION=" + value;
    ParseOfPrint(v);
    NothingBefore(p, t);
    KeyFirst(value);
    ValueShifts(KEY, value, 0);
    assert Readable(t, 0);
    MatchIsFirst(t, 0);
  }

  lemma ReadsBare(v: Version, rest: string)
    requires rest == "" || IsSpace(rest[0]) || rest[0] == '#'
    ensures ValueAt(PrintVersion(v) + rest, 0) == Some(PrintVersion(v))
  {
    var n, s := |PrintVersion(v)|, PrintVersion(v) + rest;
    PrintedChars(v);
    forall m | 0 <= m < n ensures !IsSpace(s[m]) && s[m] != '#' { assert s[m] in PrintVersion(v); }
    BareValue(s, 0, n);
    assert s[0..n] == PrintVersion(v);
  }

  lemma ReadsQuoted(v: Version, rest: string, quote: char)
    requires quote == '"' || quote == '\''
    ensures ValueAt([quote] + PrintVersion(v) + [quote] + rest, 0) == Some(PrintVersion(v))
  {
    var n, s := |PrintVersion(v)|, [quote] + PrintVersion(v) + [quote] + rest;
    PrintedChars(v);
    forall m | 0 < m < n + 1 ensures s[m] != quote { assert s[m] in PrintVersion(v); }
    QuotedValue(s, 0, quote, n + 1);
    assert s[1..n + 1] == PrintVersion(v);
  }
}
