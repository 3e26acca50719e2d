/** Python's `str.find` for a single character and `str` slicing, with the
    index conventions `format_links` relies on: `find` answers -1 on a miss,
    a negative index counts from the end, out-of-range indices are clamped,
    and a slice whose start is at or past its stop is empty. */
module PyStr {

  /** The position Python uses for index `x` of a string of length `n`
      (negative counts from the end, then clamped into 0..n). */
  function Clamp(n: nat, x: int): (k: nat)
    ensures k <= n
    ensures 0 <= x <= n ==> k == x
    ensures x < 0 && n + x >= 0 ==> k == n + x
  {
    if x < 0 then (if n + x < 0 then 0 else n + x)
    else if x > n then n
    else x
  }

  /** First position at or after `i` holding `c`, or -1 (FindFromIsFirst). */
  function FindFrom(s: string, c: char, i: nat): (r: int)
    decreases |s| - i
  {
    if i >= |s| then -1
    else if s[i] == c then i
    else FindFrom(s, c, i + 1)
  }

  /** `s.find(c, start)`. */
  function Find(s: string, c: char, start: int): (r: int)
  {
    FindFrom(s, c, Clamp(|s|, start))
  }

  /** FindFrom answers -1 or a position at or after `i` holding `c`;
      nothing between `i` and that answer holds `c`, and on a miss nothing from
      `i` on does. (Kept out of FindFrom's own contract so that callers pay
      for these facts only where they use them.) */
  lemma {:induction false} FindFromIsFirst(s: string, c: char, i: nat)
    ensures FindFrom(s, c, i) == -1 || (i <= FindFrom(s, c, i) < |s| && s[FindFrom(s, c, i)] == c)
    ensures FindFrom(s, c, i) == -1 ==> forall k :: i <= k < |s| ==> s[k] != c
    ensures FindFrom(s, c, i) != -1 ==> forall k :: i <= k < FindFrom(s, c, i) ==> s[k] != c
    decreases |s| - i
  {
    if i < |s| && s[i] != c {
      FindFromIsFirst(s, c, i + 1);
    }
  }

  /** `s.find(c, start)` answers `x` when `x` holds the first `c` at or after
      `start`. */
  lemma FindAt(s: string, c: char, start: nat, x: nat)
    requires start <= x < |s| && s[x] == c
    requires forall k :: start <= k < x ==> s[k] != c
    ensures Find(s, c, start) == x
  {
    FindFromIsFirst(s, c, start);
  }

  /** `s.find(c, start)` answers -1 when no `c` sits at or after `start`. */
  lemma FindMiss(s: string, c: char, start: nat)
    requires start <= |s|
    requires forall k :: start <= k < |s| ==> s[k] != c
    ensures Find(s, c, start) == -1
  {
    FindFromIsFirst(s, c, start);
  }

  /** The characters of `s` from position `a` up to, not including, `b`. */
  function Range(s: string, a: nat, b: nat): (r: string)
    requires a <= |s| && b <= |s|
    decreases b - a
  {
    if a < b then [s[a]] + Range(s, a + 1, b) else []
  }

  lemma {:induction false} RangeIs(s: string, a: nat, b: nat)
    requires a <= |s| && b <= |s|
    ensures Range(s, a, b) == if a < b then s[a..b] else []
    decreases b - a
  {
    if a < b {
      RangeIs(s, a + 1, b);
    }
  }

  /** `s[lo:hi]` (the facts about it are SliceIs). */
  function Slice(s: string, lo: int, hi: int): (r: string)
  {
    Range(s, Clamp(|s|, lo), Clamp(|s|, hi))
  }

  /** Python's slice conventions: in-range bounds select `s[lo..hi]`, a stop
      of -1 means "up to the last character", and a start at or past the stop
      gives the empty string. */
  lemma SliceIs(s: string, lo: int, hi: int)
    ensures 0 <= lo <= hi <= |s| ==> Slice(s, lo, hi) == s[lo..hi]
    ensures 0 <= lo < |s| && hi == -1 ==> Slice(s, lo, hi) == s[lo..|s| - 1]
    ensures 0 <= hi <= lo ==> Slice(s, lo, hi) == []
  {
    RangeIs(s, Clamp(|s|, lo), Clamp(|s|, hi));
  }
}
