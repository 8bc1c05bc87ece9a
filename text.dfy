/** String operations the Python source takes from `str`: ASCII character
    classes, `lower()`, `startswith`, the `in` substring test, `replace`,
    `rstrip`/`lstrip` of one character, `split()` on whitespace, `str(int)`,
    and the 200-character content preview the analytics records keep. */
module Text {

  // ---------------------------------------------------------------------
  // Character classes (ASCII; see README "Left out" for Unicode classes)
  // ---------------------------------------------------------------------

  predicate IsDigit(c: char) { '0' <= c <= '9' }
  predicate IsUpper(c: char) { 'A' <= c <= 'Z' }
  predicate IsLower(c: char) { 'a' <= c <= 'z' }
  predicate IsAlnum(c: char) { IsUpper(c) || IsLower(c) || IsDigit(c) }

  /** The characters of the regular-expression class `\w`. */
  predicate IsWordChar(c: char) { IsAlnum(c) || c == '_' }

  /** The characters of `\s` and of `str.split()` (ASCII part). */
  predicate IsSpace(c: char) { c == ' ' || ('\t' <= c <= '\r') || ('\U{1C}' <= c <= '\U{1F}') }

  predicate NotSpace(c: char) { !IsSpace(c) }

  // ---------------------------------------------------------------------
  // lower()
  // ---------------------------------------------------------------------

  function LowerChar(c: char): (r: char)
    ensures !IsUpper(r)
    ensures IsUpper(c) ==> IsLower(r)
    ensures !IsUpper(c) ==> r == c
  {
    if IsUpper(c) then (c as int + 32) as char else c
  }

  function Lower(s: string): (r: string)
    ensures |r| == |s|
    ensures forall i :: 0 <= i < |s| ==> r[i] == LowerChar(s[i])
  {
    seq(|s|, i requires 0 <= i < |s| => LowerChar(s[i]))
  }

  lemma LowerIdempotent(s: string)
    ensures Lower(Lower(s)) == Lower(s)
  {
  }

  // ---------------------------------------------------------------------
  // startswith and the `in` test
  // ---------------------------------------------------------------------

  predicate StartsWith(s: string, prefix: string) {
    |prefix| <= |s| && s[..|prefix|] == prefix
  }

  /** `sub` occurs in `s` starting at index `i`. */
  predicate OccursAt(s: string, sub: string, i: int) {
    0 <= i && i + |sub| <= |s| && s[i..i + |sub|] == sub
  }

  /** Python's `sub in s`, computed by scanning from the left. */
  function Contains(s: string, sub: string): (b: bool)
    ensures b <==> exists i :: OccursAt(s, sub, i)
    decreases |s|
  {
    if |sub| > |s| then false
    else if s[..|sub|] == sub then (assert OccursAt(s, sub, 0); true)
    else
      ShiftOccurrence(s, sub);
      Contains(s[1..], sub)
  }

  /** An occurrence in `s` other than at 0 is an occurrence in `s[1..]`. */
  lemma ShiftOccurrence(s: string, sub: string)
    requires |sub| <= |s| && s[..|sub|] != sub
    ensures (exists i :: OccursAt(s, sub, i)) <==> (exists i :: OccursAt(s[1..], sub, i))
  {
    if exists i :: OccursAt(s, sub, i) {
      var i :| OccursAt(s, sub, i);
      assert i != 0;
      assert s[1..][i - 1..i - 1 + |sub|] == s[i..i + |sub|];
      assert OccursAt(s[1..], sub, i - 1);
    }
    if exists i :: OccursAt(s[1..], sub, i) {
      var i :| OccursAt(s[1..], sub, i);
      assert s[i + 1..i + 1 + |sub|] == s[1..][i..i + |sub|];
      assert OccursAt(s, sub, i + 1);
    }
  }

  lemma OccursInLarger(s: string, sub: string, i: int, pre: string, post: string)
    requires OccursAt(s, sub, i)
    ensures OccursAt(pre + s + post, sub, |pre| + i)
  {
    assert (pre + s + post)[|pre| + i..|pre| + i + |sub|] == s[i..i + |sub|];
  }

  /** A needle holding a character the text lacks does not occur in it. */
  lemma NotContainsChar(s: string, sub: string, c: char)
    requires c in sub && c !in s
    ensures !Contains(s, sub)
  {
    var k :| 0 <= k < |sub| && sub[k] == c;
    forall i ensures !OccursAt(s, sub, i) {
      if 0 <= i && i + |sub| <= |s| {
        assert s[i + k] in s;
        assert s[i..i + |sub|][k] != sub[k];
      }
    }
  }

  /** Any of the needles occurs in `s`. */
  predicate ContainsAny(s: string, needles: seq<string>) {
    exists k :: 0 <= k < |needles| && Contains(s, needles[k])
  }

  // ---------------------------------------------------------------------
  // replace, rstrip, lstrip
  // ---------------------------------------------------------------------

  /** Python's `s.replace(pat, rep)`: left-to-right, non-overlapping. */
  function Replace(s: string, pat: string, rep: string): (r: string)
    requires pat != []
    decreases |s|
  {
    if |s| < |pat| then s
    else if s[..|pat|] == pat then rep + Replace(s[|pat|..], pat, rep)
    else [s[0]] + Replace(s[1..], pat, rep)
  }

  /** A text without the pattern is left as it is. */
  lemma {:induction false} ReplaceAbsent(s: string, pat: string, rep: string)
    requires pat != [] && !Contains(s, pat)
    ensures Replace(s, pat, rep) == s
    decreases |s|
  {
    if |s| >= |pat| {
      assert !OccursAt(s, pat, 0);
      ShiftOccurrence(s, pat);
      ReplaceAbsent(s[1..], pat, rep);
    }
  }

  /** Deleting a pattern never lengthens a text. */
  lemma {:induction false} ReplaceByEmptyShrinks(s: string, pat: string)
    requires pat != []
    ensures |Replace(s, pat, [])| <= |s|
    decreases |s|
  {
    if |s| >= |pat| {
      if s[..|pat|] == pat {
        ReplaceByEmptyShrinks(s[|pat|..], pat);
      } else {
        ReplaceByEmptyShrinks(s[1..], pat);
      }
    }
  }

  /** Replacing a single character by a text without it removes it everywhere. */
  lemma {:induction false} ReplaceCharRemoves(s: string, c: char, rep: string)
    requires c !in rep
    ensures c !in Replace(s, [c], rep)
    decreases |s|
  {
    if |s| >= 1 {
      ReplaceCharRemoves(s[1..], c, rep);
    }
  }

  /** Replacing a character keeps every character that is not `c`, or comes from `rep`. */
  lemma {:induction false} ReplaceCharKeeps(s: string, c: char, rep: string, d: char)
    requires d in Replace(s, [c], rep)
    ensures d in s || d in rep
    decreases |s|
  {
    if |s| >= 1 {
      if s[..1] == [c] {
        if d !in rep { ReplaceCharKeeps(s[1..], c, rep, d); }
      } else {
        if d != s[0] { ReplaceCharKeeps(s[1..], c, rep, d); }
      }
    }
  }

  /** Every character of a replaced text comes from the text or from `rep`. */
  lemma {:induction false} ReplaceKeeps(s: string, pat: string, rep: string, d: char)
    requires pat != [] && d in Replace(s, pat, rep)
    ensures d in s || d in rep
    decreases |s|
  {
    if |s| >= |pat| {
      if s[..|pat|] == pat {
        if d !in rep {
          ReplaceKeeps(s[|pat|..], pat, rep, d);
          var i :| 0 <= i < |s[|pat|..]| && s[|pat|..][i] == d;
          assert s[|pat| + i] == d;
        }
      } else {
        if d != s[0] && d !in rep {
          ReplaceKeeps(s[1..], pat, rep, d);
          var i :| 0 <= i < |s[1..]| && s[1..][i] == d;
          assert s[1 + i] == d;
        }
      }
    }
  }

  /** Python's `s.rstrip(c)` for one character `c`. */
  function RStrip(s: string, c: char): (r: string)
    ensures |r| <= |s| && r == s[..|r|]
    ensures r == [] || r[|r| - 1] != c
    ensures forall i :: |r| <= i < |s| ==> s[i] == c
    decreases |s|
  {
    if s != [] && s[|s| - 1] == c then RStrip(s[..|s| - 1], c) else s
  }

  /** Python's `s.lstrip(c)` for one character `c`. */
  function LStrip(s: string, c: char): (r: string)
    ensures |r| <= |s| && r == s[|s| - |r|..]
    ensures r == [] || r[0] != c
    ensures forall i :: 0 <= i < |s| - |r| ==> s[i] == c
    decreases |s|
  {
    if s != [] && s[0] == c then LStrip(s[1..], c) else s
  }

  // ---------------------------------------------------------------------
  // Maximal runs: `re.findall(r'\b\w+\b', ...)` and `str.split()`
  // ---------------------------------------------------------------------

  /** Length of the run of characters satisfying `p` at the start of `s`. */
  function RunLength(s: string, p: char -> bool): (n: nat)
    ensures n <= |s|
    ensures forall i :: 0 <= i < n ==> p(s[i])
    ensures n < |s| ==> !p(s[n])
  {
    if s == [] || !p(s[0]) then 0 else 1 + RunLength(s[1..], p)
  }

  /** The maximal runs of `p`-characters in `s`, left to right. */
  function Runs(s: string, p: char -> bool): (r: seq<string>)
    ensures forall k :: 0 <= k < |r| ==> r[k] != [] && forall i :: 0 <= i < |r[k]| ==> p(r[k][i])
    decreases |s|
  {
    if s == [] then []
    else if !p(s[0]) then Runs(s[1..], p)
    else
      var n := RunLength(s, p);
      [s[..n]] + Runs(s[n..], p)
  }

  /** A text with no `p`-character has no runs; one made only of them is one run. */
  lemma {:induction false} RunsOfUniform(s: string, p: char -> bool)
    ensures (forall i :: 0 <= i < |s| ==> !p(s[i])) ==> Runs(s, p) == []
    ensures s != [] && (forall i :: 0 <= i < |s| ==> p(s[i])) ==> Runs(s, p) == [s]
    decreases |s|
  {
    if s != [] {
      RunsOfUniform(s[1..], p);
      if forall i :: 0 <= i < |s| ==> p(s[i]) {
        var n := RunLength(s, p);
        assert n == |s|;
        assert s[..n] == s && s[n..] == [];
      }
    }
  }

  /** `s[i..j]` is a maximal run of `p`-characters: non-empty, and neither
      the character before nor the one after satisfies `p`. */
  predicate MaximalRun(s: string, p: char -> bool, i: int, j: int) {
    0 <= i < j <= |s| && (i == 0 || !p(s[i - 1])) && (j == |s| || !p(s[j]))
    && forall m :: i <= m < j ==> p(s[m])
  }

  /** A maximal run of `p`-characters begins at `i`. */
  predicate RunStartsAt(s: string, p: char -> bool, i: int) {
    0 <= i < |s| && p(s[i]) && (i == 0 || !p(s[i - 1]))
  }

  /** The number of positions from `k` on where a maximal run begins. */
  function StartsFrom(s: string, p: char -> bool, k: nat): nat
    requires k <= |s|
    decreases |s| - k
  {
    if k == |s| then 0 else (if RunStartsAt(s, p, k) then 1 else 0) + StartsFrom(s, p, k + 1)
  }

  /** No run begins in `[a, b)`, so counting from `a` or from `b` agrees. */
  lemma {:induction false} StartsSkip(s: string, p: char -> bool, a: nat, b: nat)
    requires a <= b <= |s|
    requires forall m :: a <= m < b ==> !RunStartsAt(s, p, m)
    ensures StartsFrom(s, p, a) == StartsFrom(s, p, b)
    decreases b - a
  {
    if a < b {
      StartsSkip(s, p, a + 1, b);
    }
  }

  /** At a run start, the first run of the suffix from `k` is the maximal
      run `s[k..k + n]`, and the rest are the runs of the suffix from `k + n`. */
  lemma RunAtStart(s: string, p: char -> bool, k: nat) returns (n: nat)
    requires k < |s| && p(s[k])
    requires k == 0 || !p(s[k - 1])
    ensures k < k + n <= |s| && MaximalRun(s, p, k, k + n)
    ensures Runs(s[k..], p) == [s[k..k + n]] + Runs(s[k + n..], p)
    ensures forall j :: MaximalRun(s, p, k, j) ==> j == k + n
    ensures forall i, j :: k < i && MaximalRun(s, p, i, j) ==> k + n <= i
  {
    var t := s[k..];
    n := RunLength(t, p);
    assert t[..n] == s[k..k + n] && t[n..] == s[k + n..];
    forall m | k <= m < k + n ensures p(s[m]) { assert s[m] == t[m - k]; }
    assert k + n < |s| ==> !p(s[k + n]) by { if k + n < |s| { assert s[k + n] == t[n]; } }
  }

  /** The suffix from `k`, when `k` does not cut a run in two, has one run
      per position from `k` on where a maximal run begins. */
  lemma {:induction false} RunsCountFrom(s: string, p: char -> bool, k: nat)
    requires k <= |s|
    requires k < |s| && p(s[k]) ==> k == 0 || !p(s[k - 1])
    ensures |Runs(s[k..], p)| == StartsFrom(s, p, k)
    decreases |s| - k
  {
    if k < |s| {
      if !p(s[k]) {
        assert s[k..][1..] == s[k + 1..];
        RunsCountFrom(s, p, k + 1);
      } else {
        var n := RunAtStart(s, p, k);
        RunsCountFrom(s, p, k + n);
        StartsSkip(s, p, k + 1, k + n);
      }
    }
  }

  /** The runs of the suffix from `k`, when `k` does not cut a run in two,
      are the maximal runs of `s` that begin at or after `k`. */
  lemma {:induction false} RunsMembersFrom(s: string, p: char -> bool, k: nat)
    requires k <= |s|
    requires k < |s| && p(s[k]) ==> k == 0 || !p(s[k - 1])
    ensures forall x :: x in Runs(s[k..], p) <==> exists i, j :: k <= i && MaximalRun(s, p, i, j) && x == s[i..j]
    decreases |s| - k
  {
    if k == |s| {
      forall i, j | k <= i && MaximalRun(s, p, i, j) ensures false { }
    } else if !p(s[k]) {
      assert s[k..][1..] == s[k + 1..];
      RunsMembersFrom(s, p, k + 1);
      forall i, j | k <= i && MaximalRun(s, p, i, j) ensures k + 1 <= i { }
    } else {
      var n := RunAtStart(s, p, k);
      RunsMembersFrom(s, p, k + n);
      forall x ensures x in Runs(s[k..], p) <==> exists i, j :: k <= i && MaximalRun(s, p, i, j) && x == s[i..j] {
        RunMemberAtStart(s, p, k, n, x);
      }
    }
  }

  /** One step of `RunsMembersFrom` at a run start `k` whose run ends at `k + n`. */
  lemma RunMemberAtStart(s: string, p: char -> bool, k: nat, n: nat, x: string)
    requires k < k + n <= |s| && MaximalRun(s, p, k, k + n)
    requires Runs(s[k..], p) == [s[k..k + n]] + Runs(s[k + n..], p)
    requires forall j :: MaximalRun(s, p, k, j) ==> j == k + n
    requires forall i, j :: k < i && MaximalRun(s, p, i, j) ==> k + n <= i
    requires x in Runs(s[k + n..], p) <==> exists i, j :: k + n <= i && MaximalRun(s, p, i, j) && x == s[i..j]
    ensures x in Runs(s[k..], p) <==> exists i, j :: k <= i && MaximalRun(s, p, i, j) && x == s[i..j]
  {
    if x in Runs(s[k..], p) && x != s[k..k + n] {
      assert x in Runs(s[k + n..], p);
    }
    if exists i, j :: k <= i && MaximalRun(s, p, i, j) && x == s[i..j] {
      var i, j :| k <= i && MaximalRun(s, p, i, j) && x == s[i..j];
      if i != k {
        assert k + n <= i && MaximalRun(s, p, i, j) && x == s[i..j];
      }
    }
  }

  /** `Runs` lists exactly the maximal runs of `s`, one entry per position
      where a run begins. */
  lemma RunsCharacterised(s: string, p: char -> bool)
    ensures |Runs(s, p)| == StartsFrom(s, p, 0)
    ensures forall t :: t in Runs(s, p) <==> exists i, j :: MaximalRun(s, p, i, j) && t == s[i..j]
  {
    RunsCountFrom(s, p, 0);
    RunsMembersFrom(s, p, 0);
    assert s[0..] == s;
  }

  // ---------------------------------------------------------------------
  // str(int) and its inverse
  // ---------------------------------------------------------------------

  function DigitChar(d: nat): (c: char)
    requires d < 10
    ensures IsDigit(c)
  {
    ('0' as int + d) as char
  }

  function DigitValue(c: char): (d: nat)
    requires IsDigit(c)
    ensures d < 10
  {
    c as int - '0' as int
  }

  /** Decimal digits of `n`, most significant first, no leading zeros. */
  function NatToString(n: nat): (r: string)
    ensures |r| >= 1
    ensures forall i :: 0 <= i < |r| ==> IsDigit(r[i])
    ensures |r| > 1 ==> r[0] != '0'
  {
    if n < 10 then [DigitChar(n)] else NatToString(n / 10) + [DigitChar(n % 10)]
  }

  function ParseDigits(s: string): nat
    requires forall i :: 0 <= i < |s| ==> IsDigit(s[i])
  {
    if s == [] then 0 else ParseDigits(s[..|s| - 1]) * 10 + DigitValue(s[|s| - 1])
  }

  /** Reading the decimal text back gives the number. */
  lemma {:induction false} NatToStringRoundTrip(n: nat)
    ensures ParseDigits(NatToString(n)) == n
  {
    if n >= 10 {
      var r := NatToString(n);
      assert r[..|r| - 1] == NatToString(n / 10);
      NatToStringRoundTrip(n / 10);
    }
  }

  /** Python's `str(n)` for an integer. */
  function IntToString(n: int): (r: string)
    ensures r != []
  {
    if n < 0 then "-" + NatToString(-n) else NatToString(n)
  }

  /** Inverse of `IntToString`. */
  function ParseInt(s: string): int
    requires s != []
    requires forall i :: (if s[0] == '-' then 1 else 0) <= i < |s| ==> IsDigit(s[i])
  {
    if s[0] == '-' then -(ParseDigits(s[1..]) as int) else ParseDigits(s)
  }

  lemma IntToStringRoundTrip(n: int)
    ensures var r := IntToString(n);
      (forall i :: (if r[0] == '-' then 1 else 0) <= i < |r| ==> IsDigit(r[i])) && ParseInt(r) == n
  {
    if n < 0 {
      assert IntToString(n)[1..] == NatToString(-n);
      NatToStringRoundTrip(-n);
    } else {
      NatToStringRoundTrip(n);
    }
  }

  /** Distinct numbers print differently. */
  lemma IntToStringInjective(m: int, n: int)
    requires IntToString(m) == IntToString(n)
    ensures m == n
  {
    IntToStringRoundTrip(m);
    IntToStringRoundTrip(n);
  }

  // ---------------------------------------------------------------------
  // Splitting on a separator
  // ---------------------------------------------------------------------

  /** `s.split(sep)` */
  function Split(s: string, sep: char): (r: seq<string>)
    ensures |r| >= 1
    ensures forall k :: 0 <= k < |r| ==> sep !in r[k]
  {
    if s == [] then [[]]
    else
      var rest := Split(s[1..], sep);
      if s[0] == sep then [[]] + rest else [[s[0]] + rest[0]] + rest[1..]
  }

  /** `sep.join(parts)` */
  function Join(parts: seq<string>, sep: char): (r: string)
    requires |parts| >= 1
  {
    if |parts| == 1 then parts[0] else parts[0] + [sep] + Join(parts[1..], sep)
  }

  /** Splitting and joining again gives the text back. */
  lemma {:induction false} SplitJoin(s: string, sep: char)
    ensures Join(Split(s, sep), sep) == s
  {
    if s != [] {
      var rest := Split(s[1..], sep);
      SplitJoin(s[1..], sep);
      if s[0] == sep {
        assert Split(s, sep)[1..] == rest;
      } else {
        var r := Split(s, sep);
        if |rest| == 1 {
          assert r == [[s[0]] + rest[0]];
        } else {
          assert r[1..] == rest[1..];
          assert Join(r, sep) == [s[0]] + rest[0] + [sep] + Join(rest[1..], sep);
        }
      }
    }
  }

  /** A text without the separator is one piece. */
  lemma {:induction false} SplitNoSep(s: string, sep: char)
    requires sep !in s
    ensures Split(s, sep) == [s]
  {
    if s != [] {
      SplitNoSep(s[1..], sep);
      assert [s[0]] + s[1..] == s;
    }
  }

  /** The text before the first separator is the first piece. */
  lemma {:induction false} SplitAt(a: string, b: string, sep: char)
    requires sep !in a
    ensures Split(a + [sep] + b, sep) == [a] + Split(b, sep)
  {
    if a == [] {
      assert ([] + [sep] + b)[1..] == b;
    } else {
      SplitAt(a[1..], b, sep);
      assert (a + [sep] + b)[1..] == a[1..] + [sep] + b;
      assert [a[0]] + a[1..] == a;
    }
  }

  /** Every character other than the separator lies in one of the pieces. */
  lemma {:induction false} SplitKeeps(s: string, sep: char, i: nat)
    requires i < |s| && s[i] != sep
    ensures exists k :: 0 <= k < |Split(s, sep)| && s[i] in Split(s, sep)[k]
  {
    var rest := Split(s[1..], sep);
    var r := Split(s, sep);
    if i == 0 {
      assert s[0] in r[0];
    } else {
      SplitKeeps(s[1..], sep, i - 1);
      var k :| 0 <= k < |rest| && s[1..][i - 1] in rest[k];
      if s[0] == sep {
        assert r[k + 1] == rest[k];
      } else if k == 0 {
        assert rest[0] <= r[0][1..];
        assert s[i] in r[0];
      } else {
        assert r[k] == rest[k];
      }
    }
  }

  // ---------------------------------------------------------------------
  // Content preview
  // ---------------------------------------------------------------------

  /** `content[:200] + '...' if len(content) > 200 else content`. */
  function Preview(content: string): (r: string)
    ensures |content| <= 200 ==> r == content
    ensures |content| > 200 ==> |r| == 203 && r[..200] == content[..200] && r[200..] == "..."
  {
    if |content| > 200 then content[..200] + "..." else content
  }
}
