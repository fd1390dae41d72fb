/** Text operations the Python code takes from `str`: substring search (`in`),
    `split`, `replace`, `upper`/`lower`, `endswith` and `str(int)`. */
module Strings {

  /** `pat` occurs in `s` starting at index `i`. */
  predicate OccursAt(s: string, pat: string, i: int) {
    0 <= i && i + |pat| <= |s| && s[i..i + |pat|] == pat
  }

  /** Python's `pat in s` for two strings. */
  predicate Contains(s: string, pat: string) {
    exists i | 0 <= i <= |s| - |pat| :: OccursAt(s, pat, i)
  }

  /** No occurrence of `pat` starts anywhere in `s`. */
  ghost predicate PatFree(s: string, pat: string) {
    forall i :: !OccursAt(s, pat, i)
  }

  /** Left-to-right scan behind `s.split(pat)`: `acc` is the piece read so far. */
  function SplitFrom(s: string, pat: string, acc: string): (r: seq<string>)
    requires |pat| > 0
    ensures |r| >= 1
    decreases |s|
  {
    if |s| < |pat| then [acc + s]
    else if s[..|pat|] == pat then [acc] + SplitFrom(s[|pat|..], pat, "")
    else SplitFrom(s[1..], pat, acc + [s[0]])
  }

  /** `sep.join(parts)`. */
  function JoinWith(parts: seq<string>, sep: string): string {
    if |parts| == 0 then ""
    else if |parts| == 1 then parts[0]
    else parts[0] + sep + JoinWith(parts[1..], sep)
  }

  lemma {:induction false} SplitFromJoin(s: string, pat: string, acc: string)
    requires |pat| > 0
    ensures JoinWith(SplitFrom(s, pat, acc), pat) == acc + s
    decreases |s|
  {
    if |s| < |pat| {
    } else if s[..|pat|] == pat {
      var rest := s[|pat|..];
      SplitFromJoin(rest, pat, "");
      assert s == pat + rest;
    } else {
      SplitFromJoin(s[1..], pat, acc + [s[0]]);
      assert acc + [s[0]] + s[1..] == acc + s;
    }
  }

  lemma {:induction false} SplitFromPatFree(s: string, pat: string, acc: string)
    requires |pat| > 0
    requires forall i :: 0 <= i < |acc| ==> !OccursAt(acc + s, pat, i)
    ensures forall k :: 0 <= k < |SplitFrom(s, pat, acc)| ==> PatFree(SplitFrom(s, pat, acc)[k], pat)
    decreases |s|
  {
    var r := SplitFrom(s, pat, acc);
    if |s| < |pat| {
      assert forall i :: !OccursAt(acc + s, pat, i);
    } else if s[..|pat|] == pat {
      forall i ensures !OccursAt(acc, pat, i) {
        if OccursAt(acc, pat, i) {
          assert (acc + s)[i..i + |pat|] == acc[i..i + |pat|];
          assert OccursAt(acc + s, pat, i);
        }
      }
      SplitFromPatFree(s[|pat|..], pat, "");
      assert r == [acc] + SplitFrom(s[|pat|..], pat, "");
      forall k | 0 <= k < |r| ensures PatFree(r[k], pat) {
        if k > 0 {
          assert r[k] == SplitFrom(s[|pat|..], pat, "")[k - 1];
        }
      }
    } else {
      var acc' := acc + [s[0]];
      assert acc' + s[1..] == acc + s;
      forall i | 0 <= i < |acc'| ensures !OccursAt(acc' + s[1..], pat, i) {
        if i == |acc| {
          assert (acc + s)[i..i + |pat|] == s[..|pat|];
        }
      }
      SplitFromPatFree(s[1..], pat, acc');
    }
  }

  /** `s.split(pat)`: the pieces of `s` between the non-overlapping occurrences
      of `pat`, read from the left. Joining them with `pat` gives `s` back, and
      no piece contains `pat`. */
  function Split(s: string, pat: string): (r: seq<string>)
    requires |pat| > 0
    ensures |r| >= 1
    ensures JoinWith(r, pat) == s
    ensures forall k :: 0 <= k < |r| ==> PatFree(r[k], pat)
  {
    SplitFromJoin(s, pat, "");
    assert "" + s == s;
    SplitFromPatFree(s, pat, "");
    SplitFrom(s, pat, "")
  }

  /** `s.replace(pat, rep)`: every occurrence of `pat`, read left to right
      without overlap, becomes `rep`. */
  function Replace(s: string, pat: string, rep: string): string
    requires |pat| > 0
  {
    JoinWith(Split(s, pat), rep)
  }

  lemma {:induction false} SplitFromAbsent(s: string, pat: string, acc: string)
    requires |pat| > 0
    requires PatFree(acc + s, pat)
    ensures SplitFrom(s, pat, acc) == [acc + s]
    decreases |s|
  {
    if |s| >= |pat| {
      assert (acc + s)[|acc|..|acc| + |pat|] == s[..|pat|];
      assert !OccursAt(acc + s, pat, |acc|);
      assert s[..|pat|] != pat;
      assert acc + [s[0]] + s[1..] == acc + s;
      SplitFromAbsent(s[1..], pat, acc + [s[0]]);
    }
  }

  /** A string without the pattern is left unchanged by `replace`. */
  lemma ReplaceAbsent(s: string, pat: string, rep: string)
    requires |pat| > 0
    requires PatFree(s, pat)
    ensures Replace(s, pat, rep) == s
  {
    assert "" + s == s;
    SplitFromAbsent(s, pat, "");
  }

  /** A pattern that begins with a character absent from `s` never occurs in it. */
  lemma PatFreeByFirstChar(s: string, pat: string)
    requires |pat| > 0
    requires pat[0] !in s
    ensures PatFree(s, pat)
  {
    forall i | 0 <= i && i + |pat| <= |s| ensures !OccursAt(s, pat, i) {
      assert s[i..i + |pat|][0] == s[i];
    }
  }

  function UpperChar(c: char): char {
    if 'a' <= c <= 'z' then (c as int - 32) as char else c
  }

  function LowerChar(c: char): char {
    if 'A' <= c <= 'Z' then (c as int + 32) as char else c
  }

  /** `s.upper()` on ASCII letters. */
  function Upper(s: string): (r: string)
    ensures |r| == |s|
  {
    seq(|s|, i requires 0 <= i < |s| => UpperChar(s[i]))
  }

  /** `s.lower()` on ASCII letters. */
  function Lower(s: string): (r: string)
    ensures |r| == |s|
  {
    seq(|s|, i requires 0 <= i < |s| => LowerChar(s[i]))
  }

  /** Lower-case ASCII text survives a trip through `upper()` and `lower()`. */
  lemma LowerUpper(s: string)
    requires forall i :: 0 <= i < |s| ==> 'a' <= s[i] <= 'z'
    ensures Lower(Upper(s)) == s
  {
  }

  /** `lower()` applied twice is `lower()` applied once. */
  lemma LowerLower(s: string)
    ensures Lower(Lower(s)) == Lower(s)
  {
  }

  /** `s.endswith(c)` for one character. */
  predicate EndsWithChar(s: string, c: char) {
    |s| > 0 && s[|s| - 1] == c
  }

  function DigitChar(d: int): char
    requires 0 <= d < 10
  {
    ('0' as int + d) as char
  }

  function NatToDecimal(n: nat): (r: string)
    ensures |r| >= 1
    ensures forall i :: 0 <= i < |r| ==> '0' <= r[i] <= '9'
  {
    if n < 10 then [DigitChar(n)] else NatToDecimal(n / 10) + [DigitChar(n % 10)]
  }

  /** `str(n)` for a Python integer. */
  function IntToDecimal(n: int): string {
    if n < 0 then "-" + NatToDecimal(-n) else NatToDecimal(n)
  }
}
