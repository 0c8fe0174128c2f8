/** NUL-terminated C character strings, as the line front-end reads them.
    A `char*` that points at a string becomes the string's visible characters
    (everything before the terminating NUL); a pointer into that string becomes
    an offset; `nullptr` becomes `None`. */
module CStrings {

  datatype Option<+T> = None | Some(value: T)

  /** The characters of a C string before its terminator: they contain no NUL. */
  type CString = s: string | '\0' !in s

  /** Reading `src[i]`. Position `|s|` holds the terminator; reading beyond it is
      undefined behaviour, so it is excluded. */
  function At(s: CString, i: nat): (c: char)
    requires i <= |s|
    ensures c == '\0' <==> i == |s|
    ensures i < |s| ==> c == s[i]
  {
    if i < |s| then s[i] else '\0'
  }

  /** The first `n` characters of `s`, or all of `s` when it is shorter. */
  function Truncate(s: string, n: nat): (r: string)
    ensures |r| == if n <= |s| then n else |s|
    ensures r <= s
  {
    if n <= |s| then s[..n] else s
  }

  /** `strncmp(s + i, t + i, n - i) == 0`: compare character by character,
      stopping at the first difference, at a common terminator or after `n`
      characters. */
  function StrNCmpZeroFrom(s: CString, t: CString, n: nat, i: nat): bool
    requires i <= |s| && i <= |t|
    decreases n - i
  {
    if n <= i then true
    else if At(s, i) != At(t, i) then false
    else if At(s, i) == '\0' then true
    else StrNCmpZeroFrom(s, t, n, i + 1)
  }

  /** `strncmp(s, t, n) == 0`. */
  function StrNCmpZero(s: CString, t: CString, n: nat): bool
  {
    StrNCmpZeroFrom(s, t, n, 0)
  }

  /** Once the first `i` characters agree, the scan succeeds exactly when the
      two strings agree on their first `n` characters. */
  lemma {:induction false} StrNCmpZeroFromMeaning(s: CString, t: CString, n: nat, i: nat)
    requires i <= |s| && i <= |t| && i <= n
    requires s[..i] == t[..i]
    ensures StrNCmpZeroFrom(s, t, n, i) <==> Truncate(s, n) == Truncate(t, n)
    decreases n - i
  {
    if n <= i {
      assert Truncate(s, n) == s[..i] && Truncate(t, n) == t[..i];
    } else if At(s, i) != At(t, i) {
      if i < |s| && i < |t| {
        assert Truncate(s, n)[i] == s[i] && Truncate(t, n)[i] == t[i];
      } else {
        assert |Truncate(s, n)| != |Truncate(t, n)|;
      }
    } else if At(s, i) == '\0' {
      assert s == s[..i] && t == t[..i];
    } else {
      assert s[..i + 1] == s[..i] + [s[i]] && t[..i + 1] == t[..i] + [t[i]];
      StrNCmpZeroFromMeaning(s, t, n, i + 1);
    }
  }

  /** `strncmp(s, t, n) == 0` holds exactly when `s` and `t` agree on their
      first `n` characters (counting a shorter string as ending early). */
  lemma StrNCmpZeroMeaning(s: CString, t: CString, n: nat)
    ensures StrNCmpZero(s, t, n) <==> Truncate(s, n) == Truncate(t, n)
  {
    StrNCmpZeroFromMeaning(s, t, n, 0);
  }

  /** Comparing against a literal over the literal's whole length is a prefix test. */
  lemma StrNCmpZeroPrefix(s: CString, t: CString)
    ensures StrNCmpZero(s, t, |t|) <==> t <= s
  {
    StrNCmpZeroMeaning(s, t, |t|);
    assert Truncate(t, |t|) == t;
    if t <= s {
      assert Truncate(s, |t|) == s[..|t|] == t;
    }
  }

  /** `isdigit` on an ASCII character. */
  predicate IsDigit(c: char)
  {
    '0' <= c <= '9'
  }
}
