/** Character classes and small sequence tools shared by the text-handling modules. */
module Text {
  datatype Option<+T> = None | Some(value: T)

  /** The four line terminators that `.` skips and that `^` and `$` see in multiline mode. */
  predicate IsLineTerminator(c: char) {
    c == '\n' || c == '\r' || c == '\U{2028}' || c == '\U{2029}'
  }

  /** The class `\s`, which is also the set of characters that `trim` removes. */
  predicate IsSpace(c: char) {
    || c == ' ' || '\t' <= c <= '\r' || c == '\U{A0}' || c == '\U{1680}'
    || '\U{2000}' <= c <= '\U{200A}' || c == '\U{2028}' || c == '\U{2029}'
    || c == '\U{202F}' || c == '\U{205F}' || c == '\U{3000}' || c == '\U{FEFF}'
  }

  predicate IsDigit(c: char) { '0' <= c <= '9' }

  /** The code points of section 12.3 of ECMA-262. */
  lemma LineTerminatorsAre(c: char)
    ensures IsLineTerminator(c) <==> c as int in {10, 13, 8232, 8233}
  {
  }

  /** The code points of sections 12.2 and 12.3: tabs, blanks, the byte order mark, the separators, line ends. */
  lemma SpacesAre(c: char)
    ensures IsSpace(c) <==>
      IsLineTerminator(c) || 8192 <= c as int <= 8202
      || c as int in {9, 11, 12, 65279, 32, 160, 5760, 8239, 8287, 12288}
  {
  }

  /** `s` occurs in `t` at position `i`. */
  predicate OccursAt(s: string, t: string, i: nat) {
    i + |s| <= |t| && t[i..i + |s|] == s
  }

  /** Two texts that agree on the window of an occurrence agree on the occurrence. */
  lemma OccursAtAgree(s: string, t: string, u: string, i: nat, n: nat)
    requires n <= |t| && n <= |u| && t[..n] == u[..n] && i + |s| <= n
    ensures OccursAt(s, t, i) == OccursAt(s, u, i)
  {
    assert t[i..i + |s|] == t[..n][i..i + |s|];
    assert u[i..i + |s|] == u[..n][i..i + |s|];
  }
}
