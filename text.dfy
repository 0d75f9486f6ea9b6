/**
 * The few .NET string operations the kubectl wrappers rely on, stated over
 * Dafny strings. A .NET string that may be null is represented by "" wherever
 * every use of it treats null and "" alike (IsNullOrEmpty, IsNullOrWhiteSpace,
 * string interpolation).
 */
module Text {
  import opened Wrappers

  /**
   * char.IsWhiteSpace: the separators of Unicode categories Zs, Zl and Zp plus
   * the controls U+0009..U+000D and U+0085. The \s class of .NET regular
   * expressions is the same set. The common ASCII separators are white space;
   * no character a Kubernetes pod name is made of is.
   */
  predicate IsWhiteSpace(c: char): (r: bool)
    ensures c == ' ' || c == '\t' || c == '\n' || c == '\r' ==> r
    ensures ('a' <= c <= 'z' || 'A' <= c <= 'Z' || '0' <= c <= '9' || c == '-' || c == '.') ==> !r
  {
    || ('\U{9}' <= c <= '\U{D}')
    || c == ' '
    || c == '\U{85}'
    || c == '\U{A0}'
    || c == '\U{1680}'
    || ('\U{2000}' <= c <= '\U{200A}')
    || c == '\U{2028}'
    || c == '\U{2029}'
    || c == '\U{202F}'
    || c == '\U{205F}'
    || c == '\U{3000}'
  }

  /** string.IsNullOrEmpty, with null represented as "". */
  predicate IsNullOrEmpty(s: string) {
    |s| == 0
  }

  /** string.IsNullOrWhiteSpace, with null represented as "": a null or empty string is blank. */
  predicate IsNullOrWhiteSpace(s: string): (r: bool)
    ensures IsNullOrEmpty(s) ==> r
  {
    forall i :: 0 <= i < |s| ==> IsWhiteSpace(s[i])
  }

  /** An ordinal string.StartsWith. */
  predicate StartsWith(s: string, prefix: string) {
    |prefix| <= |s| && s[..|prefix|] == prefix
  }

  /** An ordinal string.EndsWith. */
  predicate EndsWith(s: string, suffix: string) {
    |suffix| <= |s| && s[|s| - |suffix|..] == suffix
  }

  /** A prefix of a blank string is blank. */
  lemma PrefixOfBlankIsBlank(s: string, prefix: string)
    requires StartsWith(s, prefix) && IsNullOrWhiteSpace(s)
    ensures IsNullOrWhiteSpace(prefix)
  {
    forall i | 0 <= i < |prefix| ensures IsWhiteSpace(prefix[i]) {
      assert prefix[i] == s[..|prefix|][i] == s[i];
    }
  }

  /**
   * string.TrimEnd() with no arguments: the longest prefix of s after which
   * only white space follows.
   */
  function TrimEnd(s: string): (r: string)
    ensures StartsWith(s, r)
    ensures forall i :: |r| <= i < |s| ==> IsWhiteSpace(s[i])
    ensures r == [] || !IsWhiteSpace(r[|r| - 1])
  {
    if s == [] || !IsWhiteSpace(s[|s| - 1]) then s else TrimEnd(s[..|s| - 1])
  }

  /** Trimming twice is trimming once. */
  lemma TrimEndIdempotent(s: string)
    ensures TrimEnd(TrimEnd(s)) == TrimEnd(s)
  {
  }

  /**
   * TrimEnd leaves exactly the text up to the last character that is not
   * white space: any prefix t with only white space after it and no white
   * space at its end is the result.
   */
  lemma {:induction false} TrimEndUnique(s: string, t: string)
    requires StartsWith(s, t)
    requires forall i :: |t| <= i < |s| ==> IsWhiteSpace(s[i])
    requires t == [] || !IsWhiteSpace(t[|t| - 1])
    ensures TrimEnd(s) == t
  {
    var r := TrimEnd(s);
    assert |r| == |t|;
    assert r == s[..|r|] == t;
  }

  /** A string is blank exactly when trimming its end leaves nothing. */
  lemma BlankIffTrimsToEmpty(s: string)
    ensures IsNullOrWhiteSpace(s) <==> TrimEnd(s) == []
  {
  }

  /** No character of s is one of seps. */
  predicate NoneIn(s: string, seps: string) {
    forall i :: 0 <= i < |s| ==> s[i] !in seps
  }

  /** Index of the first character of s that is one of seps, or |s|. */
  function LineEnd(s: string, seps: string): (n: nat)
    ensures n <= |s|
    ensures NoneIn(s[..n], seps)
    ensures n < |s| ==> s[n] in seps
  {
    if s == [] || s[0] in seps then 0 else 1 + LineEnd(s[1..], seps)
  }

  /**
   * s.Split(seps.ToCharArray(), StringSplitOptions.RemoveEmptyEntries): the
   * maximal runs of characters that are not separators, in order.
   */
  function Lines(s: string, seps: string): (r: seq<string>)
    ensures forall k :: 0 <= k < |r| ==> r[k] != [] && NoneIn(r[k], seps)
    decreases |s|
  {
    if s == [] then []
    else if s[0] in seps then Lines(s[1..], seps)
    else
      var n := LineEnd(s, seps);
      [s[..n]] + Lines(s[n..], seps)
  }

  /** A non-empty string without separators is a single line. */
  lemma LinesOfOneLine(s: string, seps: string)
    requires s != [] && NoneIn(s, seps)
    ensures Lines(s, seps) == [s]
  {
    assert s[0] !in seps;
    var n := LineEnd(s, seps);
    assert s[..n] == s;
    assert s[n..] == [];
  }

  /** LineEnd only looks at the text up to the first separator. */
  lemma {:induction false} LineEndAppend(a: string, b: string, seps: string)
    requires LineEnd(a, seps) < |a|
    ensures LineEnd(a + b, seps) == LineEnd(a, seps)
  {
    if a[0] !in seps {
      assert (a + b)[1..] == a[1..] + b;
      LineEndAppend(a[1..], b, seps);
    }
  }

  /** LineEnd of a separator-free string followed by a separator. */
  lemma {:induction false} LineEndAtSeparator(a: string, b: string, seps: string)
    requires NoneIn(a, seps) && b != [] && b[0] in seps
    ensures LineEnd(a + b, seps) == |a|
  {
    if a != [] {
      assert (a + b)[1..] == a[1..] + b;
      LineEndAtSeparator(a[1..], b, seps);
    }
  }

  /**
   * Splitting at a separator splits the result: Lines is the homomorphism
   * that, with LinesOfOneLine and Lines("") == [], determines it.
   */
  lemma {:induction false} LinesSplitAt(a: string, c: char, b: string, seps: string)
    requires c in seps
    ensures Lines(a + [c] + b, seps) == Lines(a, seps) + Lines(b, seps)
    decreases |a|
  {
    var s := a + [c] + b;
    if a == [] {
      assert s == [c] + b;
      assert s[1..] == b;
    } else if a[0] in seps {
      assert s[1..] == a[1..] + [c] + b;
      LinesSplitAt(a[1..], c, b, seps);
    } else {
      var n := LineEnd(a, seps);
      if n < |a| {
        LineEndAppend(a, [c] + b, seps);
        assert s == a + ([c] + b);
        assert LineEnd(s, seps) == n;
        assert s[..n] == a[..n];
        assert s[n..] == a[n..] + [c] + b;
        LinesSplitAt(a[n..], c, b, seps);
      } else {
        LineEndAtSeparator(a, [c] + b, seps);
        assert s == a + ([c] + b);
        assert LineEnd(s, seps) == |a|;
        assert s[..|a|] == a;
        assert s[|a|..] == [c] + b;
        assert ([c] + b)[1..] == b;
        LinesOfOneLine(a, seps);
      }
    }
  }

  /** Index of the last occurrence of c in s, or -1: String.LastIndexOf(char). */
  function LastIndexOf(s: string, c: char): (k: int)
    ensures -1 <= k < |s|
    ensures k >= 0 ==> s[k] == c
    ensures forall j :: k < j < |s| ==> s[j] != c
  {
    if s == [] then -1
    else if s[|s| - 1] == c then |s| - 1
    else LastIndexOf(s[..|s| - 1], c)
  }

  /** The last c in a + [c] + b is the one after a when b has none. */
  lemma {:induction false} LastIndexOfAfter(a: string, c: char, b: string)
    requires c !in b
    ensures LastIndexOf(a + [c] + b, c) == |a|
    decreases |b|
  {
    var s := a + [c] + b;
    if b != [] {
      assert s[..|s| - 1] == a + [c] + b[..|b| - 1];
      assert s[|s| - 1] == b[|b| - 1];
      LastIndexOfAfter(a, c, b[..|b| - 1]);
    }
  }

  /** The text before and after the last c in s, or None when s has no c. */
  function SplitAtLast(s: string, c: char): (r: Option<(string, string)>)
    ensures r.Some? ==> r.value.0 + [c] + r.value.1 == s && c !in r.value.1
    ensures r.None? <==> c !in s
  {
    var k := LastIndexOf(s, c);
    if k < 0 then None
    else
      assert s == s[..k] + [c] + s[k + 1..];
      Some((s[..k], s[k + 1..]))
  }

  /** Splitting at the last c undoes a + [c] + b when b holds no c. */
  lemma SplitAtLastAfter(a: string, c: char, b: string)
    requires c !in b
    ensures SplitAtLast(a + [c] + b, c) == Some((a, b))
  {
    var s := a + [c] + b;
    LastIndexOfAfter(a, c, b);
    assert s[..|a|] == a;
    assert s[|a| + 1..] == b;
  }

  // ---------------------------------------------------------------------
  // Decimal rendering of integers, as string interpolation of an int does
  // ---------------------------------------------------------------------

  predicate IsDigit(c: char) {
    '0' <= c <= '9'
  }

  /** A non-empty string of decimal digits. */
  predicate IsDigits(s: string) {
    |s| > 0 && forall i :: 0 <= i < |s| ==> IsDigit(s[i])
  }

  function DigitChar(d: nat): (c: char)
    requires d < 10
    ensures IsDigit(c)
  {
    (48 + d) as char
  }

  function DigitValue(c: char): (d: nat)
    requires IsDigit(c)
    ensures d < 10
  {
    c as int - 48
  }

  /** The shortest decimal numeral of n. */
  function NatToString(n: nat): (s: string)
    ensures IsDigits(s)
    ensures |s| > 1 ==> s[0] != '0'
  {
    if n < 10 then [DigitChar(n)] else NatToString(n / 10) + [DigitChar(n % 10)]
  }

  /** The value of a decimal numeral. */
  function ParseNat(s: string): (n: nat)
    requires forall i :: 0 <= i < |s| ==> IsDigit(s[i])
    ensures s == [] ==> n == 0
  {
    if s == [] then 0 else 10 * ParseNat(s[..|s| - 1]) + DigitValue(s[|s| - 1])
  }

  lemma {:induction false} ParseNatToString(n: nat)
    ensures ParseNat(NatToString(n)) == n
  {
    if n >= 10 {
      var s := NatToString(n);
      assert s[..|s| - 1] == NatToString(n / 10);
      ParseNatToString(n / 10);
    }
  }

  /** int.ToString() under the invariant culture: an optional '-' and digits. */
  function IntToString(i: int): (s: string)
    ensures s != [] && (s[0] == '-' <==> i < 0)
  {
    if i < 0 then "-" + NatToString(-i) else NatToString(i)
  }

  /** Reads back a rendered integer; None for any other text. */
  function ParseInt(s: string): (r: Option<int>)
    ensures r.Some? ==> s != [] && (r.value < 0 ==> s[0] == '-')
  {
    if IsDigits(s) then Some(ParseNat(s))
    else if |s| >= 2 && s[0] == '-' && IsDigits(s[1..]) then var v: int := ParseNat(s[1..]); Some(-v)
    else None
  }

  /** A rendered integer reads back as itself. */
  lemma IntToStringRoundTrip(i: int)
    ensures ParseInt(IntToString(i)) == Some(i)
  {
    if i < 0 {
      var s := IntToString(i);
      assert s[1..] == NatToString(-i);
      assert !IsDigit(s[0]);
      ParseNatToString(-i);
    } else {
      ParseNatToString(i);
    }
  }

  /** A rendered integer contains no ':', '.' or ' '. */
  lemma IntToStringHasNoSeparators(i: int)
    ensures ':' !in IntToString(i) && '.' !in IntToString(i) && ' ' !in IntToString(i)
  {
    var s := IntToString(i);
    forall k | 0 <= k < |s| ensures s[k] != ':' && s[k] != '.' && s[k] != ' ' {
      if i < 0 && k > 0 {
        assert s[k] == NatToString(-i)[k - 1];
      }
    }
  }
}
