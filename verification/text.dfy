/**
 * String operations the source takes from its host languages: decimal rendering of
 * integers (Python `str(int)`, JavaScript template literals), `sep.join(parts)`,
 * JavaScript `String.prototype.split` with a non-empty separator, Python's
 * code-point order on strings, and ASCII `upper()` / `strip()`.
 */
module Text {

  // ---------------------------------------------------------------------------
  // Decimal rendering

  function DigitChar(d: nat): (c: char)
    requires d < 10
    ensures '0' <= c <= '9'
  {
    (48 + d) as char
  }

  predicate IsDigit(c: char) { '0' <= c <= '9' }

  /** The decimal digits of `n`, most significant first, without leading zeros. */
  function NatToString(n: nat): (s: string)
    ensures |s| >= 1
    ensures n >= 10 ==> |s| >= 2
    ensures forall k :: 0 <= k < |s| ==> IsDigit(s[k])
    ensures s[|s| - 1] == DigitChar(n % 10)
    decreases n
  {
    if n < 10 then [DigitChar(n)] else NatToString(n / 10) + [DigitChar(n % 10)]
  }

  /** Python `str(i)`: an optional minus sign, then the digits of |i|. */
  function IntToString(i: int): (s: string)
    ensures |s| >= 1
    ensures forall k :: 0 <= k < |s| ==> IsDigit(s[k]) || s[k] == '-'
  {
    if i < 0 then "-" + NatToString(-i) else NatToString(i)
  }

  /** Distinct numbers render to distinct strings. */
  lemma {:induction false} NatToStringInjective(a: nat, b: nat)
    requires NatToString(a) == NatToString(b)
    ensures a == b
    decreases a
  {
    var sa, sb := NatToString(a), NatToString(b);
    assert DigitChar(a % 10) == sa[|sa| - 1] == sb[|sb| - 1] == DigitChar(b % 10);
    if a >= 10 && b >= 10 {
      var pa, pb := NatToString(a / 10), NatToString(b / 10);
      assert sa == pa + [DigitChar(a % 10)];
      assert sb == pb + [DigitChar(b % 10)];
      assert pa == sa[..|sa| - 1] == sb[..|sb| - 1] == pb;
      NatToStringInjective(a / 10, b / 10);
    }
  }

  lemma IntToStringInjective(a: int, b: int)
    requires IntToString(a) == IntToString(b)
    ensures a == b
  {
    var sa, sb := IntToString(a), IntToString(b);
    assert sa[0] == '-' <==> a < 0;
    assert sb[0] == '-' <==> b < 0;
    if a < 0 {
      assert NatToString(-a) == sa[1..] == sb[1..] == NatToString(-b);
      NatToStringInjective(-a, -b);
    } else {
      NatToStringInjective(a, b);
    }
  }

  // ---------------------------------------------------------------------------
  // Join and split

  /** Python `sep.join(parts)`. */
  function Join(parts: seq<string>, sep: string): string
  {
    if |parts| == 0 then ""
    else if |parts| == 1 then parts[0]
    else parts[0] + sep + Join(parts[1..], sep)
  }

  /**
   * JavaScript `s.split(sep)` for a non-empty separator: cut at each leftmost
   * non-overlapping occurrence of `sep`; empty pieces are kept.
   */
  function SplitOn(s: string, sep: string): (parts: seq<string>)
    requires |sep| > 0
    ensures |parts| >= 1
    decreases |s|
  {
    if |s| < |sep| then [s]
    else if s[..|sep|] == sep then [""] + SplitOn(s[|sep|..], sep)
    else
      var rest := SplitOn(s[1..], sep);
      [[s[0]] + rest[0]] + rest[1..]
  }

  lemma JoinConsFirst(c: string, parts: seq<string>, sep: string)
    requires |parts| >= 1
    ensures Join([c + parts[0]] + parts[1..], sep) == c + Join(parts, sep)
  {
    var ps := [c + parts[0]] + parts[1..];
    if |parts| > 1 {
      assert ps[1..] == parts[1..];
    }
  }

  /** Splitting and joining again with the same separator gives back the input. */
  lemma {:induction false} SplitJoin(s: string, sep: string)
    requires |sep| > 0
    ensures Join(SplitOn(s, sep), sep) == s
    decreases |s|
  {
    if |s| < |sep| {
    } else if s[..|sep|] == sep {
      var rest := SplitOn(s[|sep|..], sep);
      SplitJoin(s[|sep|..], sep);
      assert ([""] + rest)[1..] == rest;
      assert s == s[..|sep|] + s[|sep|..];
    } else {
      var rest := SplitOn(s[1..], sep);
      SplitJoin(s[1..], sep);
      JoinConsFirst([s[0]], rest, sep);
      assert s == [s[0]] + s[1..];
    }
  }

  /** The non-empty pieces, in order (`.filter(Boolean)`). */
  function NonEmpty(parts: seq<string>): (r: seq<string>)
    ensures forall k :: 0 <= k < |r| ==> r[k] != ""
    ensures forall p :: p in r <==> p in parts && p != ""
  {
    if parts == [] then []
    else if parts[0] == "" then NonEmpty(parts[1..])
    else [parts[0]] + NonEmpty(parts[1..])
  }

  /**
   * `NonEmpty` is a filter: it distributes over concatenation and keeps a
   * single piece exactly when it is non-empty, so the result is the
   * non-empty pieces in their original order, each as often as it occurs.
   */
  lemma {:induction false} NonEmptyFilters(a: seq<string>, b: seq<string>, p: string)
    ensures NonEmpty(a + b) == NonEmpty(a) + NonEmpty(b)
    ensures NonEmpty([p]) == if p == "" then [] else [p]
  {
    if a == [] {
      assert a + b == b;
    } else {
      NonEmptyFilters(a[1..], b, p);
      assert (a + b)[0] == a[0] && (a + b)[1..] == a[1..] + b;
    }
    assert [p][1..] == [];
  }

  // ---------------------------------------------------------------------------
  // Python string order (code point by code point)

  predicate LexLeq(a: string, b: string)
  {
    if |a| == 0 then true
    else if |b| == 0 then false
    else if a[0] != b[0] then a[0] < b[0]
    else LexLeq(a[1..], b[1..])
  }

  lemma {:induction false} LexLeqTotal(a: string, b: string)
    ensures LexLeq(a, b) || LexLeq(b, a)
  {
    if |a| > 0 && |b| > 0 && a[0] == b[0] {
      LexLeqTotal(a[1..], b[1..]);
    }
  }

  lemma {:induction false} LexLeqAntisymmetric(a: string, b: string)
    requires LexLeq(a, b) && LexLeq(b, a)
    ensures a == b
  {
    if |a| > 0 && |b| > 0 {
      LexLeqAntisymmetric(a[1..], b[1..]);
      assert a == [a[0]] + a[1..] && b == [b[0]] + b[1..];
    }
  }

  lemma {:induction false} LexLeqTransitive(a: string, b: string, c: string)
    requires LexLeq(a, b) && LexLeq(b, c)
    ensures LexLeq(a, c)
  {
    if |a| > 0 && |b| > 0 && |c| > 0 && a[0] == b[0] == c[0] {
      LexLeqTransitive(a[1..], b[1..], c[1..]);
    }
  }

  // ---------------------------------------------------------------------------
  // Case and whitespace (ASCII characters only)

  function UpperChar(c: char): (u: char)
    ensures !('a' <= u <= 'z')
  {
    if 'a' <= c <= 'z' then (c as int - 32) as char else c
  }

  /** Python `str.upper()` restricted to ASCII letters. */
  function Upper(s: string): (u: string)
    ensures |u| == |s|
    ensures forall k :: 0 <= k < |s| ==> u[k] == UpperChar(s[k])
  {
    seq(|s|, k requires 0 <= k < |s| => UpperChar(s[k]))
  }

  predicate IsSpace(c: char)
  {
    c == ' ' || c == '\t' || c == '\n' || c == '\r' || c == '\U{B}' || c == '\U{C}'
    || '\U{1C}' <= c <= '\U{1F}'
  }

  function StripStart(s: string): (r: string)
    ensures |r| <= |s| && r == s[|s| - |r|..]
    ensures r == [] || !IsSpace(r[0])
    ensures forall k :: 0 <= k < |s| - |r| ==> IsSpace(s[k])
  {
    if s != [] && IsSpace(s[0]) then StripStart(s[1..]) else s
  }

  function StripEnd(s: string): (r: string)
    ensures |r| <= |s| && r == s[..|r|]
    ensures r == [] || !IsSpace(r[|r| - 1])
    ensures forall k :: |r| <= k < |s| ==> IsSpace(s[k])
  {
    if s != [] && IsSpace(s[|s| - 1]) then StripEnd(s[..|s| - 1]) else s
  }

  /** Python `str.strip()` for ASCII whitespace: the input with the whitespace at both ends removed. */
  function Strip(s: string): (r: string)
    ensures exists i, j ::
              && 0 <= i <= j <= |s| && r == s[i..j]
              && (forall k :: 0 <= k < i ==> IsSpace(s[k]))
              && (forall k :: j <= k < |s| ==> IsSpace(s[k]))
    ensures r == [] || (!IsSpace(r[0]) && !IsSpace(r[|r| - 1]))
  {
    var t := StripStart(s);
    var r := StripEnd(t);
    var i := |s| - |t|;
    assert r == s[i..i + |r|];
    r
  }
}
