/** Release version text: `v<major>.<minor>.<patch>` without leading zeros. */
module Versions {
  import opened Text

  const MAX_SAFE_INTEGER: nat := 9007199254740991

  /** The three numbers of an accepted version; none exceeds the safe-integer limit. */
  datatype Parts = Parts(major: nat, minor: nat, patch: nat)

  predicate Safe(p: Parts) {
    p.major <= MAX_SAFE_INTEGER && p.minor <= MAX_SAFE_INTEGER && p.patch <= MAX_SAFE_INTEGER
  }

  type Version = p: Parts | Safe(p) witness Parts(0, 0, 0)

  /** `0|[1-9]\d*` */
  predicate IsNumeral(s: string) {
    && s != [] && (forall k :: 0 <= k < |s| ==> IsDigit(s[k]))
    && (s[0] == '0' ==> |s| == 1)
  }

  function Digit(c: char): (d: nat)
    requires IsDigit(c)
  {
    c as int - '0' as int
  }

  function Value(s: string): nat
    requires forall k :: 0 <= k < |s| ==> IsDigit(s[k])
  {
    if s == [] then 0 else Value(s[..|s| - 1]) * 10 + Digit(s[|s| - 1])
  }

  function DigitChar(d: nat): (c: char)
    requires d < 10
    ensures IsDigit(c) && Digit(c) == d
  {
    ('0' as int + d) as char
  }

  function Decimal(n: nat): (s: string)
    ensures IsNumeral(s) && (n > 0 ==> s[0] != '0')
  {
    if n < 10 then [DigitChar(n)] else Decimal(n / 10) + [DigitChar(n % 10)]
  }

  lemma {:induction false} ValueOfDecimal(n: nat)
    ensures Value(Decimal(n)) == n
  {
    if n < 10 {
      assert Decimal(n)[..0] == [];
    } else {
      ValueOfDecimal(n / 10);
      var s := Decimal(n);
      assert s[..|s| - 1] == Decimal(n / 10);
    }
  }

  lemma {:induction false} DecimalOfValue(s: string)
    requires IsNumeral(s)
    ensures Decimal(Value(s)) == s
    ensures s[0] != '0' ==> Value(s) > 0
  {
    if |s| == 1 {
      assert s[..0] == [];
      assert Value(s) == Digit(s[0]);
      assert s == [s[0]];
      DigitCharOfDigit(s[0]);
    } else {
      var t := s[..|s| - 1];
      DecimalOfValue(t);
      DigitCharOfDigit(s[|s| - 1]);
      var d := Digit(s[|s| - 1]);
      assert Value(t) > 0;
      assert Value(s) == Value(t) * 10 + d && d < 10;
      assert Value(s) / 10 == Value(t) && Value(s) % 10 == d;
      assert s == t + [s[|s| - 1]];
    }
  }

  lemma DigitCharOfDigit(c: char)
    requires IsDigit(c)
    ensures DigitChar(Digit(c)) == c
  {
  }

  /** `split('.')` */
  function Split(s: string): (parts: seq<string>)
    ensures |parts| > 0
  {
    if s == [] then [[]]
    else
      var rest := Split(s[1..]);
      if s[0] == '.' then [[]] + rest else [[s[0]] + rest[0]] + rest[1..]
  }

  /** The part before the first dot, put back in front of the rest. */
  lemma {:induction false} SplitAtDot(s: string, t: string)
    requires forall k :: 0 <= k < |s| ==> s[k] != '.'
    ensures Split(s + "." + t) == [s] + Split(t)
  {
    if s == [] {
      assert s + "." + t == "." + t;
      assert ("." + t)[1..] == t;
    } else {
      SplitAtDot(s[1..], t);
      assert (s + "." + t)[1..] == s[1..] + "." + t;
      assert s == [s[0]] + s[1..];
    }
  }

  lemma {:induction false} SplitWithoutDot(s: string)
    requires forall k :: 0 <= k < |s| ==> s[k] != '.'
    ensures Split(s) == [s]
  {
    if s != [] {
      SplitWithoutDot(s[1..]);
      assert s == [s[0]] + s[1..];
    }
  }

  function Join(parts: seq<string>): string
    requires |parts| > 0
  {
    if |parts| == 1 then parts[0] else parts[0] + "." + Join(parts[1..])
  }

  lemma {:induction false} JoinOfSplit(s: string)
    ensures Join(Split(s)) == s
  {
    if s != [] {
      JoinOfSplit(s[1..]);
      var rest := Split(s[1..]);
      assert s == [s[0]] + s[1..];
      if s[0] == '.' {
        assert Split(s)[1..] == rest;
      } else {
        var parts := Split(s);
        assert parts[1..] == rest[1..];
        if |rest| > 1 {
          assert [s[0]] + (rest[0] + "." + Join(rest[1..])) == ([s[0]] + rest[0]) + "." + Join(rest[1..]);
        }
      }
    }
  }

  function ParseVersion(s: string): (r: Option<Version>) {
    if s == [] || s[0] != 'v' then None
    else
      var parts := Split(s[1..]);
      if |parts| != 3 || !IsNumeral(parts[0]) || !IsNumeral(parts[1]) || !IsNumeral(parts[2]) then None
      else
        var p := Parts(Value(parts[0]), Value(parts[1]), Value(parts[2]));
        if Safe(p) then Some(p) else None
  }

  function PrintVersion(v: Version): string {
    "v" + Decimal(v.major) + "." + Decimal(v.minor) + "." + Decimal(v.patch)
  }

  /** Every printed version is accepted again, with the same three numbers. */
  lemma ParseOfPrint(v: Version)
    ensures ParseVersion(PrintVersion(v)) == Some(v)
  {
    var a, b, c := Decimal(v.major), Decimal(v.minor), Decimal(v.patch);
    ValueOfDecimal(v.major); ValueOfDecimal(v.minor); ValueOfDecimal(v.patch);
    SplitOfThree(a, b, c);
    assert PrintVersion(v)[1..] == a + "." + (b + "." + c);
  }

  lemma SplitOfThree(a: string, b: string, c: string)
    requires IsNumeral(a) && IsNumeral(b) && IsNumeral(c)
    ensures Split(a + "." + (b + "." + c)) == [a, b, c]
  {
    NumeralHasNoDot(a); NumeralHasNoDot(b); NumeralHasNoDot(c);
    SplitAtDot(a, b + "." + c);
    SplitAtDot(b, c);
    SplitWithoutDot(c);
  }

  /** Three decimal numbers are a version if and only if none exceeds the greatest safe integer. */
  lemma SafeNumbersOnly(x: nat, y: nat, z: nat)
    ensures ParseVersion("v" + Decimal(x) + "." + Decimal(y) + "." + Decimal(z)).Some? <==>
      x <= 9007199254740991 && y <= 9007199254740991 && z <= 9007199254740991
  {
    ValueOfDecimal(x); ValueOfDecimal(y); ValueOfDecimal(z);
    var s := "v" + Decimal(x) + "." + Decimal(y) + "." + Decimal(z);
    AfterPrefix(Decimal(x), Decimal(y), Decimal(z), s);
    ParseOfThree(s, Decimal(x), Decimal(y), Decimal(z));
  }

  lemma AfterPrefix(a: string, b: string, c: string, s: string)
    requires s == "v" + a + "." + b + "." + c
    ensures s[0] == 'v' && s[1..] == a + "." + (b + "." + c)
  {
  }

  lemma ParseOfThree(s: string, a: string, b: string, c: string)
    requires IsNumeral(a) && IsNumeral(b) && IsNumeral(c) && s != [] && s[0] == 'v'
    requires s[1..] == a + "." + (b + "." + c)
    ensures ParseVersion(s).Some? <==>
      Value(a) <= 9007199254740991 && Value(b) <= 9007199254740991 && Value(c) <= 9007199254740991
  {
    SplitOfThree(a, b, c);
    assert Split(s[1..])[0] == a && Split(s[1..])[1] == b && Split(s[1..])[2] == c;
  }

  /** An accepted text is already its own normal form: printing its numbers gives it back. */
  lemma PrintOfParse(s: string)
    requires ParseVersion(s).Some?
    ensures PrintVersion(ParseVersion(s).value) == s
  {
    var parts := Split(s[1..]);
    DecimalOfValue(parts[0]); DecimalOfValue(parts[1]); DecimalOfValue(parts[2]);
    JoinOfSplit(s[1..]);
    JoinOfThree(parts);
    var a, b, c := parts[0], parts[1], parts[2];
    assert a + "." + b + "." + c == s[1..];
    assert "v" + a + "." + b + "." + c == "v" + (a + "." + b + "." + c);
  }

  lemma JoinOfThree(parts: seq<string>)
    requires |parts| == 3
    ensures Join(parts) == parts[0] + "." + parts[1] + "." + parts[2]
  {
    assert Join(parts[1..][1..]) == parts[2];
    assert Join(parts[1..]) == parts[1] + "." + parts[2];
    assert parts[0] + "." + (parts[1] + "." + parts[2]) == parts[0] + "." + parts[1] + "." + parts[2];
  }

  lemma NumeralHasNoDot(s: string)
    requires IsNumeral(s)
    ensures forall k :: 0 <= k < |s| ==> s[k] != '.'
  {
    forall k | 0 <= k < |s| ensures s[k] != '.' { assert IsDigit(s[k]); }
  }

  /** The printed text holds neither a quote nor a line end, so it can stand inside a quoted line. */
  lemma PrintedIsPlain(v: Version)
    ensures PrintVersion(v) != []
    ensures forall k :: 0 <= k < |PrintVersion(v)| ==>
      PrintVersion(v)[k] != '"' && !IsLineTerminator(PrintVersion(v)[k])
  {
    var a, b, c := Decimal(v.major), Decimal(v.minor), Decimal(v.patch);
    forall k | 0 <= k < |PrintVersion(v)|
      ensures PrintVersion(v)[k] != '"' && !IsLineTerminator(PrintVersion(v)[k])
    {
      var ch := PrintVersion(v)[k];
      assert ch == 'v' || ch == '.' || ch in a || ch in b || ch in c;
      assert ch == 'v' || ch == '.' || IsDigit(ch);
    }
  }

  /** -1, 0 or 1, the first differing number deciding. */
  function CompareParts(a: Version, b: Version): int {
    if a.major != b.major then if a.major < b.major then -1 else 1
    else if a.minor != b.minor then if a.minor < b.minor then -1 else 1
    else if a.patch != b.patch then if a.patch < b.patch then -1 else 1
    else 0
  }

  /** The number that a version's three numbers write in base 2^53, one more than the greatest of them. */
  function Weight(v: Version): nat {
    (v.major * 9007199254740992 + v.minor) * 9007199254740992 + v.patch
  }

  /** Major number before minor, minor before patch. */
  predicate Below(a: Version, b: Version) { Weight(a) < Weight(b) }

  /** The first number in which two versions differ decides which is below, whatever follows it. */
  lemma FirstDifference(a: Version, b: Version)
    ensures a.major < b.major ==> Below(a, b) && !Below(b, a)
    ensures a.major == b.major && a.minor < b.minor ==> Below(a, b) && !Below(b, a)
    ensures a.major == b.major && a.minor == b.minor ==> (Below(a, b) <==> a.patch < b.patch)
  {
  }

  /** -1 for an older version on the left, 1 for a newer one, 0 for the same. */
  lemma CompareIsNumeric(a: Version, b: Version)
    ensures CompareParts(a, b) == if Below(a, b) then -1 else if Below(b, a) then 1 else 0
    ensures CompareVersions(PrintVersion(a), PrintVersion(b)) == Some(CompareParts(a, b))
    ensures CompareParts(a, b) == 0 <==> a == b
  {
    FirstDifference(a, b);
    FirstDifference(b, a);
    ParseOfPrint(a);
    ParseOfPrint(b);
  }

  /** `compareVersions`; None stands for the throw on an unacceptable text. */
  function CompareVersions(left: string, right: string): Option<int> {
    match (ParseVersion(left), ParseVersion(right))
    case (Some(a), Some(b)) => Some(CompareParts(a, b))
    case _ => None
  }

  /** On accepted texts the comparison is a total order whose ties are identical texts. */
  lemma CompareIsTotalOrder(x: string, y: string, z: string)
    requires ParseVersion(x).Some? && ParseVersion(y).Some? && ParseVersion(z).Some?
    ensures CompareVersions(x, y) == Some(0) <==> x == y
    ensures CompareVersions(x, y).value == -CompareVersions(y, x).value
    ensures CompareVersions(x, y).value <= 0 && CompareVersions(y, z).value <= 0 ==> CompareVersions(x, z).value <= 0
  {
    PrintOfParse(x);
    PrintOfParse(y);
  }
}
