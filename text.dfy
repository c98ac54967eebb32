/** String operations the screens use: ASCII lower-casing (`toLowerCase`), substring search
    (`includes`) and digit stripping (`replace(/\D/g, '')`). */
module Text {
  import Seqs

  /** ASCII lower-casing of one character; other characters are left as they are. */
  function LowerChar(c: char): (r: char)
    ensures 'A' <= c <= 'Z' ==> r as int == c as int + 32
    ensures !('A' <= c <= 'Z') ==> r == c
  {
    if 'A' <= c <= 'Z' then (c as int + 32) as char else c
  }

  /** `s.toLowerCase()`, character by character. */
  function Lower(s: string): (r: string)
    ensures |r| == |s|
    ensures forall k :: 0 <= k < |s| ==> r[k] == LowerChar(s[k])
  {
    seq(|s|, k requires 0 <= k < |s| => LowerChar(s[k]))
  }

  /** Lower-casing twice is lower-casing once. */
  lemma LowerIdempotent(s: string)
    ensures Lower(Lower(s)) == Lower(s)
  {
  }

  /** `t` occurs in `s` starting at offset `i`. */
  predicate OccursAt(s: string, t: string, i: int)
  {
    0 <= i && i + |t| <= |s| && s[i..i + |t|] == t
  }

  /** `s.includes(t)`: `t` occurs in `s` at some offset. */
  predicate Contains(s: string, t: string)
  {
    exists i :: 0 <= i <= |s| && OccursAt(s, t, i)
  }

  /** Every string contains the empty string, so an empty search term matches everything. */
  lemma ContainsEmpty(s: string)
    ensures Contains(s, "")
  {
    assert OccursAt(s, "", 0);
  }

  /** A string contains each piece it is built from. */
  lemma ContainsMiddle(a: string, t: string, b: string)
    ensures Contains(a + t + b, t)
  {
    var s := a + t + b;
    assert s[|a|..|a| + |t|] == t;
    assert OccursAt(s, t, |a|);
  }

  /** A longer needle than the haystack never matches. */
  lemma ContainsTooLong(s: string, t: string)
    requires |t| > |s|
    ensures !Contains(s, t)
  {
  }

  /** ASCII decimal digit (the complement of the regular-expression class `\D`). */
  predicate IsDigit(c: char)
  {
    '0' <= c <= '9'
  }

  /** `s.replace(/\D/g, '')`: the digits of `s`, in order. */
  function OnlyDigits(s: string): (r: string)
    ensures |r| <= |s|
    ensures forall k :: 0 <= k < |r| ==> IsDigit(r[k])
  {
    Seqs.Filter(s, IsDigit)
  }

  /** Stripping is idempotent and leaves a digits-only string as it is. */
  lemma {:induction false} OnlyDigitsOfDigits(s: string)
    requires forall k :: 0 <= k < |s| ==> IsDigit(s[k])
    ensures OnlyDigits(s) == s
  {
    Seqs.FilterAll(s, IsDigit);
  }

  /** A non-digit is removed. */
  lemma OnlyDigitsDrops(c: char)
    requires !IsDigit(c)
    ensures OnlyDigits([c]) == []
  {
  }

  /** Stripping a concatenation strips each part. */
  lemma OnlyDigitsAppend(a: string, b: string)
    ensures OnlyDigits(a + b) == OnlyDigits(a) + OnlyDigits(b)
  {
    Seqs.FilterAppend(a, b, IsDigit);
  }

  /** Every digit of `s` survives the stripping. */
  lemma OnlyDigitsKeeps(s: string, c: char)
    requires c in s && IsDigit(c)
    ensures c in OnlyDigits(s)
  {
    Seqs.FilterKeeps(s, IsDigit, c);
  }
}
