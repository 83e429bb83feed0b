/** The text a command signature covers, and why it names one command only. */
module CanonicalRequest {
  predicate OneLine(s: string) { '\n' !in s }

  // A header or request-line token: HTTP lets no line break into it.
  type Line = s: string | OneLine(s)

  function UpperChar(c: char): char {
    if 'a' <= c <= 'z' then c - 'a' + 'A' else c
  }

  function Upper(s: string): (u: string)
    ensures |u| == |s|
    ensures OneLine(s) ==> OneLine(u)
  {
    seq(|s|, i requires 0 <= i < |s| => UpperChar(s[i]))
  }

  function Canonical(method_: string, path: string, timestamp: string, nonce: string, hash: string): string {
    Upper(method_) + "\n" + path + "\n" + timestamp + "\n" + nonce + "\n" + hash
  }

  // u is s with each of its letters a to z raised, and nothing else changed.
  predicate Raises(u: string, s: string) {
    |u| == |s| &&
    forall i :: 0 <= i < |s| ==> u[i] as int == if 97 <= s[i] as int <= 122 then s[i] as int - 32 else s[i] as int
  }

  /** The signed text, written out: five lines, the method raised letter by letter. */
  lemma CanonicalWrittenOut(m: string, p: string, t: string, n: string, h: string, u: string)
    requires Raises(u, m)
    ensures Canonical(m, p, t, n, h) == u + "\n" + p + "\n" + t + "\n" + n + "\n" + h
  {
    assert u == Upper(m);
  }

  // Where the first and the last line break of a text stand; |s| and -1 when there is none.
  function FirstBreak(s: string): int {
    if s == "" || s[0] == '\n' then 0 else 1 + FirstBreak(s[1..])
  }

  function LastBreak(s: string): int {
    if s == "" || s[|s| - 1] == '\n' then |s| - 1 else LastBreak(s[..|s| - 1])
  }

  lemma {:induction false} FirstBreakAt(a: string, rest: string)
    requires OneLine(a)
    ensures FirstBreak(a + "\n" + rest) == |a|
  {
    var t := a + "\n" + rest;
    if a == "" {
      assert t[0] == '\n';
    } else {
      assert t[0] == a[0] && t[1..] == a[1..] + "\n" + rest;
      FirstBreakAt(a[1..], rest);
    }
  }

  lemma {:induction false} LastBreakAt(rest: string, z: string)
    requires OneLine(z)
    ensures LastBreak(rest + "\n" + z) == |rest|
  {
    var t := rest + "\n" + z;
    if z == "" {
      assert t[|t| - 1] == '\n';
    } else {
      var last := |z| - 1;
      assert t[|t| - 1] == z[last] && t[..|t| - 1] == rest + "\n" + z[..last];
      LastBreakAt(rest, z[..last]);
    }
  }

  lemma SplitFirstLine(a: string, rest: string, a': string, rest': string)
    requires OneLine(a) && OneLine(a')
    requires a + "\n" + rest == a' + "\n" + rest'
    ensures a == a' && rest == rest'
  {
    FirstBreakAt(a, rest);
    FirstBreakAt(a', rest');
    var t := a + "\n" + rest;
    assert a == t[..|a|] && rest == t[|a| + 1..];
    assert a' == t[..|a'|] && rest' == t[|a'| + 1..];
  }

  lemma SplitLastLine(rest: string, z: string, rest': string, z': string)
    requires OneLine(z) && OneLine(z')
    requires rest + "\n" + z == rest' + "\n" + z'
    ensures rest == rest' && z == z'
  {
    LastBreakAt(rest, z);
    LastBreakAt(rest', z');
    var t := rest + "\n" + z;
    assert rest == t[..|rest|] && z == t[|rest| + 1..];
    assert rest' == t[..|rest'|] && z' == t[|rest'| + 1..];
  }

  /** Two commands share a canonical text exactly when they agree on every signed field;
      the path is the only field that may hold line breaks. */
  lemma CanonicalInjective(m: Line, p: string, t: Line, n: Line, h: Line,
                           m': Line, p': string, t': Line, n': Line, h': Line)
    ensures Canonical(m, p, t, n, h) == Canonical(m', p', t', n', h') <==>
            Upper(m) == Upper(m') && p == p' && t == t' && n == n' && h == h'
  {
    if Canonical(m, p, t, n, h) == Canonical(m', p', t', n', h') {
      var u, u' := Upper(m), Upper(m');
      SplitLastLine(u + "\n" + p + "\n" + t + "\n" + n, h, u' + "\n" + p' + "\n" + t' + "\n" + n', h');
      SplitLastLine(u + "\n" + p + "\n" + t, n, u' + "\n" + p' + "\n" + t', n');
      SplitLastLine(u + "\n" + p, t, u' + "\n" + p', t');
      SplitFirstLine(u, p, u', p');
    }
  }

  /** The one-line condition is needed: a break in the timestamp moves the field boundary. */
  lemma LineBreakMovesBoundary(m: Line, p: string, a: Line, t: Line, n: Line, h: Line)
    ensures Canonical(m, p + "\n" + a, t, n, h) == Canonical(m, p, a + "\n" + t, n, h)
    ensures p + "\n" + a != p
  {
    assert Upper(m) + "\n" + (p + "\n" + a) + "\n" + t == Upper(m) + "\n" + p + "\n" + (a + "\n" + t);
    assert |p + "\n" + a| > |p|;
  }
}
