/** Character-sequence helpers that mirror the few Python `str` operations the
    route layer relies on: `startswith`, `''.join`, `sep.join`, `split(' ', 1)`
    and ASCII `lower`. */
module Strings {

  predicate StartsWith(s: string, prefix: string) {
    |prefix| <= |s| && s[..|prefix|] == prefix
  }

  predicate EndsWith(s: string, suffix: string) {
    |suffix| <= |s| && s[|s| - |suffix|..] == suffix
  }

  /** `''.join(parts)` */
  function Concat(parts: seq<string>): string {
    if |parts| == 0 then "" else parts[0] + Concat(parts[1..])
  }

  lemma {:induction false} ConcatAppend(a: seq<string>, b: seq<string>)
    ensures Concat(a + b) == Concat(a) + Concat(b)
  {
    if |a| == 0 {
      assert a + b == b;
    } else {
      assert (a + b)[1..] == a[1..] + b;
      ConcatAppend(a[1..], b);
    }
  }

  /** `sep.join(parts)` */
  function Join(parts: seq<string>, sep: string): string {
    if |parts| == 0 then ""
    else if |parts| == 1 then parts[0]
    else parts[0] + sep + Join(parts[1..], sep)
  }

  /** Index of the first `c` at or after `from`, or `|s|` when there is none. */
  function Find(s: string, c: char, from: nat): (r: nat)
    requires from <= |s|
    ensures from <= r <= |s|
    ensures forall i :: from <= i < r ==> s[i] != c
    ensures r < |s| ==> s[r] == c
    decreases |s| - from
  {
    if from == |s| then from
    else if s[from] == c then from
    else Find(s, c, from + 1)
  }

  /** The ensures of `Find` pin its result down: any index with the same two
      properties is the one `Find` returns. */
  lemma FindIs(s: string, c: char, from: nat, k: nat)
    requires from <= k <= |s|
    requires forall i :: from <= i < k ==> s[i] != c
    requires k < |s| ==> s[k] == c
    ensures Find(s, c, from) == k
  {
  }

  /** `s.split(sep, 1)[1]`: everything after the first `sep`. */
  function AfterFirst(s: string, sep: char): (r: string)
    requires sep in s
    ensures |r| < |s|
  {
    s[Find(s, sep, 0) + 1..]
  }

  function LowerChar(c: char): char {
    if 'A' <= c <= 'Z' then (c as int + 32) as char else c
  }

  /** `s.lower()` on ASCII letters. */
  function Lower(s: string): (r: string)
    ensures |r| == |s|
    ensures forall i :: 0 <= i < |s| ==> r[i] == LowerChar(s[i])
  {
    seq(|s|, i requires 0 <= i < |s| => LowerChar(s[i]))
  }
}
