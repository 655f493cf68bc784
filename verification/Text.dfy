/** Line counting on strings, as the renderer uses it: a text of n line breaks is n + 1 rows high. */
module Text {

  /** The number of line breaks among the first n characters of `s`. */
  function Breaks(s: string, n: nat): nat
    requires n <= |s|
  {
    if n == 0 then 0 else Breaks(s, n - 1) + (if s[n - 1] == '\n' then 1 else 0)
  }

  /** The number of line breaks in `s`. */
  function Newlines(s: string): nat {
    Breaks(s, |s|)
  }

  /** lipgloss.Height: the number of rows `s` occupies. */
  function Height(s: string): nat {
    Newlines(s) + 1
  }

  lemma {:induction false} BreaksAlike(s: string, t: string, n: nat)
    requires n <= |s| && n <= |t| && s[..n] == t[..n]
    ensures Breaks(s, n) == Breaks(t, n)
  {
    if n > 0 {
      assert s[n - 1] == s[..n][n - 1] == t[..n][n - 1] == t[n - 1];
      assert s[..n - 1] == s[..n][..n - 1] == t[..n][..n - 1] == t[..n - 1];
      BreaksAlike(s, t, n - 1);
    }
  }

  lemma {:induction false} NewlinesConcat(a: string, b: string)
    ensures Newlines(a + b) == Newlines(a) + Newlines(b)
  {
    if b == "" {
      assert a + b == a;
    } else {
      var b' := b[..|b| - 1];
      NewlinesConcat(a, b');
      BreaksAlike(a + b, a + b', |a + b'|);
      BreaksAlike(b, b', |b'|);
    }
  }

  /** strings.TrimRight(s, "\n"). */
  function TrimNewlines(s: string): string {
    if s != "" && s[|s| - 1] == '\n' then TrimNewlines(s[..|s| - 1]) else s
  }

  /** Trimming takes away trailing line breaks and nothing else. */
  lemma {:induction false} TrimNewlinesIsPrefix(s: string)
    ensures |TrimNewlines(s)| <= |s| && TrimNewlines(s) == s[..|TrimNewlines(s)|]
    ensures forall k :: |TrimNewlines(s)| <= k < |s| ==> s[k] == '\n'
    ensures TrimNewlines(s) != "" ==> TrimNewlines(s)[|TrimNewlines(s)| - 1] != '\n'
  {
    if s != "" && s[|s| - 1] == '\n' {
      TrimNewlinesIsPrefix(s[..|s| - 1]);
    }
  }
}
