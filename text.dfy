/** String helpers with the meaning Python gives them: `str.replace`, slicing,
    `str.split`, `str.strip` and the decimal rendering of an integer. */
module Text {

  /** Python's `s.replace(pat, rep)`: every non-overlapping occurrence of `pat`,
      scanning left to right, is replaced by `rep`; the result is not rescanned. */
  function ReplaceAll(s: string, pat: string, rep: string): (r: string)
    requires |pat| > 0
    ensures |rep| <= |pat| ==> |r| <= |s|
    ensures |rep| == |pat| ==> |r| == |s|
    ensures |rep| >= |pat| ==> |r| >= |s|
    decreases |s|
  {
    if |s| < |pat| then s
    else if s[..|pat|] == pat then rep + ReplaceAll(s[|pat|..], pat, rep)
    else [s[0]] + ReplaceAll(s[1..], pat, rep)
  }

  /** `pat` occurs in `s` at position `i`. */
  predicate OccursAt(s: string, pat: string, i: int)
  {
    0 <= i && i + |pat| <= |s| && s[i..i + |pat|] == pat
  }

  /** Text that holds no occurrence of `pat` comes out of `ReplaceAll` unchanged. */
  lemma {:induction false} ReplaceAllAbsent(s: string, pat: string, rep: string)
    requires |pat| > 0
    requires forall i :: 0 <= i <= |s| - |pat| ==> !OccursAt(s, pat, i)
    ensures ReplaceAll(s, pat, rep) == s
    decreases |s|
  {
    if |s| >= |pat| {
      assert !OccursAt(s, pat, 0);
      forall i | 0 <= i <= |s[1..]| - |pat|
        ensures !OccursAt(s[1..], pat, i)
      {
        assert !OccursAt(s, pat, i + 1);
        assert s[1..][i..i + |pat|] == s[i + 1..i + 1 + |pat|];
      }
      ReplaceAllAbsent(s[1..], pat, rep);
      assert [s[0]] + s[1..] == s;
    }
  }

  /** A prefix without the first character of `pat` is copied through as it is. */
  lemma {:induction false} ReplaceAllPlainPrefix(a: string, t: string, pat: string, rep: string)
    requires |pat| > 0
    requires pat[0] !in a
    ensures ReplaceAll(a + t, pat, rep) == a + ReplaceAll(t, pat, rep)
    decreases |a|
  {
    if a != [] {
      var s := a + t;
      if |s| < |pat| {
        assert ReplaceAll(t, pat, rep) == t;
        assert ReplaceAll(s, pat, rep) == s;
      } else {
        assert s[..|pat|][0] == a[0] != pat[0];
        assert s[1..] == a[1..] + t;
        ReplaceAllPlainPrefix(a[1..], t, pat, rep);
        calc {
          ReplaceAll(s, pat, rep);
          [s[0]] + ReplaceAll(a[1..] + t, pat, rep);
          [a[0]] + (a[1..] + ReplaceAll(t, pat, rep));
          { assert [a[0]] + a[1..] == a; }
          a + ReplaceAll(t, pat, rep);
        }
      }
    } else {
      assert a + t == t;
    }
  }

  /** A first character that does not start an occurrence of `pat` is copied through. */
  lemma ReplaceAllNoMatchHead(s: string, pat: string, rep: string)
    requires |pat| > 0 && |s| > 0
    requires !OccursAt(s, pat, 0)
    ensures ReplaceAll(s, pat, rep) == [s[0]] + ReplaceAll(s[1..], pat, rep)
  {
    if |s| < |pat| {
      assert ReplaceAll(s[1..], pat, rep) == s[1..];
      assert [s[0]] + s[1..] == s;
    }
  }

  /** A prefix that differs from `pat` at some position does not start an occurrence. */
  lemma MismatchNotAt(a: string, t: string, pat: string, d: nat)
    requires d < |a| && d < |pat| && a[d] != pat[d]
    ensures !OccursAt(a + t, pat, 0)
  {
    var s := a + t;
    assert s[d] == a[d];
    assert |pat| <= |s| ==> s[0..|pat|][d] == s[d];
  }

  /** A prefix that differs from `pat` somewhere within both, and holds the first
      character of `pat` at most at its head, is copied through as it is. */
  lemma ReplaceAllMismatchPrefix(a: string, t: string, pat: string, rep: string, d: nat)
    requires |pat| > 0 && d < |a| && d < |pat| && a[d] != pat[d]
    requires pat[0] !in a[1..]
    ensures ReplaceAll(a + t, pat, rep) == a + ReplaceAll(t, pat, rep)
  {
    MismatchNotAt(a, t, pat, d);
    ConsSplit(a, t);
    ReplaceAllNoMatchHead(a + t, pat, rep);
    ReplaceAllPlainPrefix(a[1..], t, pat, rep);
    ConsSplit(a, ReplaceAll(t, pat, rep));
  }

  /** Splitting off the head of a non-empty prefix. */
  lemma ConsSplit(a: string, t: string)
    requires |a| > 0
    ensures (a + t)[0] == a[0] && (a + t)[1..] == a[1..] + t
    ensures [a[0]] + (a[1..] + t) == a + t
  {
  }

  /** An occurrence of `pat` at the head is replaced and the scan resumes after it. */
  lemma ReplaceAllMatchHead(t: string, pat: string, rep: string)
    requires |pat| > 0
    ensures ReplaceAll(pat + t, pat, rep) == rep + ReplaceAll(t, pat, rep)
  {
    assert (pat + t)[..|pat|] == pat;
    assert (pat + t)[|pat|..] == t;
  }

  /** Python's slice `s[:n]` for a non-negative `n`. */
  function Take(s: string, n: nat): (r: string)
    ensures |r| <= n && |r| <= |s|
    ensures r == s[..|r|]
    ensures |s| <= n ==> r == s
    ensures n <= |s| ==> |r| == n
  {
    if |s| <= n then s else s[..n]
  }

  /** The character of a single decimal digit. */
  function Digit(d: nat): (c: char)
    requires d < 10
    ensures '0' <= c <= '9' && c as int - '0' as int == d
  {
    ((d + '0' as int) as char)
  }

  predicate IsDigits(s: string)
  {
    forall i :: 0 <= i < |s| ==> '0' <= s[i] <= '9'
  }

  /** Python's `str(n)` for a non-negative integer. */
  function NatText(n: nat): (r: string)
    ensures |r| >= 1 && IsDigits(r)
    decreases n
  {
    if n < 10 then [Digit(n)] else NatText(n / 10) + [Digit(n % 10)]
  }

  /** Reads a decimal numeral back; the inverse of `NatText`. */
  function ParseNat(s: string): nat
    requires IsDigits(s)
    decreases |s|
  {
    if s == [] then 0
    else ParseNat(s[..|s| - 1]) * 10 + (s[|s| - 1] as int - '0' as int)
  }

  lemma {:induction false} ParseNatText(n: nat)
    ensures ParseNat(NatText(n)) == n
    decreases n
  {
    var r := NatText(n);
    if n >= 10 {
      ParseNatText(n / 10);
      assert r[..|r| - 1] == NatText(n / 10);
    }
  }

  /** Distinct numbers render as distinct numerals. */
  lemma NatTextInjective(m: nat, n: nat)
    requires NatText(m) == NatText(n)
    ensures m == n
  {
    ParseNatText(m);
    ParseNatText(n);
  }

  /** Python's `str(i)` for any integer. */
  function IntText(i: int): (r: string)
    ensures |r| >= 1
    ensures i >= 0 ==> r == NatText(i)
    ensures i < 0 ==> r == "-" + NatText(-i)
  {
    if i < 0 then "-" + NatText(-i) else NatText(i)
  }

  /** Python's `s.split(sep)` for a one-character separator. */
  function Split(s: string, sep: char): (r: seq<string>)
    ensures |r| >= 1
    ensures forall i :: 0 <= i < |r| ==> sep !in r[i]
    decreases |s|
  {
    if s == [] then [[]]
    else
      var rest := Split(s[1..], sep);
      if s[0] == sep then [[]] + rest
      else [[s[0]] + rest[0]] + rest[1..]
  }

  /** Python's `sep.join(parts)`. */
  function Join(parts: seq<string>, sep: char): string
    decreases |parts|
  {
    if parts == [] then []
    else if |parts| == 1 then parts[0]
    else parts[0] + [sep] + Join(parts[1..], sep)
  }

  /** Splitting loses nothing: joining the pieces restores the text. */
  lemma {:induction false} JoinSplit(s: string, sep: char)
    ensures Join(Split(s, sep), sep) == s
    decreases |s|
  {
    if s != [] {
      var rest := Split(s[1..], sep);
      JoinSplit(s[1..], sep);
      if s[0] == sep {
        assert Split(s, sep) == [[]] + rest;
        assert ([[]] + rest)[1..] == rest;
        assert s == [sep] + s[1..];
      } else {
        var r := Split(s, sep);
        assert r == [[s[0]] + rest[0]] + rest[1..];
        if |rest| == 1 {
          assert Join(rest, sep) == rest[0];
        } else {
          assert r[1..] == rest[1..];
          assert Join(rest, sep) == rest[0] + [sep] + Join(rest[1..], sep);
        }
        assert s == [s[0]] + s[1..];
      }
    }
  }

  /** Python's `str.isspace` for one character. */
  predicate IsSpace(c: char)
  {
    || c == ' ' || ('\t' <= c <= '\r') || ('\U{1c}' <= c <= '\U{1f}')
    || c == '\U{85}' || c == '\U{a0}' || c == '\U{1680}' || ('\U{2000}' <= c <= '\U{200a}')
    || c == '\U{2028}' || c == '\U{2029}' || c == '\U{202f}' || c == '\U{205f}' || c == '\U{3000}'
  }

  predicate IsBlank(s: string)
  {
    forall i :: 0 <= i < |s| ==> IsSpace(s[i])
  }

  /** Cutting `s` at `k` after its first character has been set aside. */
  lemma SplitAfterHead(s: string, k: nat)
    requires 1 <= k <= |s|
    ensures s[..k] == [s[0]] + s[1..][..k - 1]
    ensures s[k..] == s[1..][k - 1..]
  {
  }

  /** Cutting `s` at `k` before its last character has been set aside. */
  lemma SplitBeforeLast(s: string, k: nat)
    requires k <= |s| - 1
    ensures s[k..] == s[..|s| - 1][k..] + [s[|s| - 1]]
    ensures s[..k] == s[..|s| - 1][..k]
  {
  }

  lemma BlankCons(c: char, u: string)
    requires IsSpace(c) && IsBlank(u)
    ensures IsBlank([c] + u)
  {
    assert forall i :: 1 <= i < |u| + 1 ==> ([c] + u)[i] == u[i - 1];
  }

  lemma BlankSnoc(u: string, c: char)
    requires IsBlank(u) && IsSpace(c)
    ensures IsBlank(u + [c])
  {
    assert forall i :: 0 <= i < |u| ==> (u + [c])[i] == u[i];
  }

  function TrimLeft(s: string): (r: string)
    ensures |r| <= |s| && r == s[|s| - |r|..]
    ensures IsBlank(s[..|s| - |r|])
    ensures r == [] || !IsSpace(r[0])
    decreases |s|
  {
    if s != [] && IsSpace(s[0]) then
      var r := TrimLeft(s[1..]);
      SplitAfterHead(s, |s| - |r|);
      BlankCons(s[0], s[1..][..|s| - 1 - |r|]);
      r
    else s
  }

  function TrimRight(s: string): (r: string)
    ensures |r| <= |s| && r == s[..|r|]
    ensures IsBlank(s[|r|..])
    ensures r == [] || !IsSpace(r[|r| - 1])
    decreases |s|
  {
    if s != [] && IsSpace(s[|s| - 1]) then
      var r := TrimRight(s[..|s| - 1]);
      SplitBeforeLast(s, |r|);
      BlankSnoc(s[..|s| - 1][|r|..], s[|s| - 1]);
      r
    else s
  }

  /** Trimming the back of the trimmed front leaves a piece of `s` with only blanks
      around it, empty exactly when `s` is blank. */
  lemma TrimmedPiece(s: string, left: string, r: string)
    requires |left| <= |s| && left == s[|s| - |left|..] && IsBlank(s[..|s| - |left|])
    requires left == [] || !IsSpace(left[0])
    requires |r| <= |left| && r == left[..|r|] && IsBlank(left[|r|..])
    requires r == [] || !IsSpace(r[|r| - 1])
    ensures BlankFramed(s, |s| - |left|, r)
    ensures (r == []) <==> IsBlank(s)
    ensures r != [] ==> !IsSpace(r[0]) && !IsSpace(r[|r| - 1])
  {
    var k := |s| - |left|;
    assert s[k + |r|..] == left[|r|..];
    assert r != [] ==> r[0] == left[0];
    BlankAround(s, k, r);
  }

  /** A piece of `s` with only blanks around it, and not starting with a blank, is empty
      exactly when `s` is blank. */
  lemma BlankAround(s: string, k: nat, r: string)
    requires k + |r| <= |s| && r == s[k..k + |r|]
    requires IsBlank(s[..k]) && IsBlank(s[k + |r|..])
    requires r == [] || !IsSpace(r[0])
    ensures r == [] <==> IsBlank(s)
  {
    if r == [] {
      forall i | 0 <= i < |s|
        ensures IsSpace(s[i])
      {
        if i < k {
          assert s[..k][i] == s[i];
        } else {
          assert s[k..][i - k] == s[i];
        }
      }
    } else {
      assert s[k] == r[0];
    }
  }

  /** `r` occurs in `s` at position `k`, with only whitespace before and after it. */
  predicate BlankFramed(s: string, k: int, r: string)
  {
    0 <= k <= |s| - |r| && r == s[k..k + |r|] && IsBlank(s[..k]) && IsBlank(s[k + |r|..])
  }

  /** Python's `s.strip()`: the text between the leading and the trailing whitespace. */
  function Strip(s: string): (r: string)
    ensures (r == []) <==> IsBlank(s)
    ensures r != [] ==> !IsSpace(r[0]) && !IsSpace(r[|r| - 1])
    ensures exists k :: BlankFramed(s, k, r)
  {
    TrimmedPiece(s, TrimLeft(s), TrimRight(TrimLeft(s)));
    TrimRight(TrimLeft(s))
  }
}
