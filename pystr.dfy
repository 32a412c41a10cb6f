/**
 * Python string built-ins with CPython's semantics. The launcher calls
 * `str.find`, slicing with negative and out-of-range bounds, and `str(n)`
 * for a non-negative integer. `str.split(sep)` and the decimal reading
 * `ParseDecimal` (as `int()` reads digits) are not called by the launcher;
 * they are here to state what its port mapping and `str(n)` mean.
 */
module PyStr {

  /** `sub` occurs in `s` starting at index `i`. */
  predicate OccursAt(s: string, sub: string, i: int) {
    0 <= i && i + |sub| <= |s| && s[i..i + |sub|] == sub
  }

  /**
   * `s.find(sub)`: the lowest index at which `sub` occurs in `s`, or -1 when
   * it occurs nowhere.
   */
  function Find(s: string, sub: string): (r: int)
    ensures -1 <= r <= |s|
    ensures r == -1 <==> forall i :: !OccursAt(s, sub, i)
    ensures r >= 0 ==> OccursAt(s, sub, r) && forall i :: 0 <= i < r ==> !OccursAt(s, sub, i)
  {
    FindFrom(s, sub, 0)
  }

  /** The search of `Find`, resumed at index `k` once no earlier index matched. */
  function FindFrom(s: string, sub: string, k: nat): (r: int)
    requires forall i :: 0 <= i < k ==> !OccursAt(s, sub, i)
    ensures -1 <= r <= |s|
    ensures r == -1 <==> forall i :: !OccursAt(s, sub, i)
    ensures r >= 0 ==> OccursAt(s, sub, r) && forall i :: 0 <= i < r ==> !OccursAt(s, sub, i)
    decreases |s| - k
  {
    if k + |sub| > |s| then -1
    else if s[k..k + |sub|] == sub then assert OccursAt(s, sub, k); k
    else FindFrom(s, sub, k + 1)
  }

  /** A first occurrence pins down what `Find` returns. */
  lemma FindIsFirst(s: string, sub: string, k: nat)
    requires OccursAt(s, sub, k)
    requires forall i :: 0 <= i < k ==> !OccursAt(s, sub, i)
    ensures Find(s, sub) == k
  {
  }

  /** Searching for one character finds nothing exactly when the character is absent. */
  lemma FindChar(s: string, c: char)
    ensures Find(s, [c]) < 0 <==> c !in s
  {
    if c in s {
      var i :| 0 <= i < |s| && s[i] == c;
      assert s[i..i + 1] == [c];
      assert OccursAt(s, [c], i);
    } else {
      forall i | 0 <= i < |s| ensures !OccursAt(s, [c], i) {
        assert s[i..i + 1] == [s[i]];
      }
    }
  }

  /** A marker whose first character appears nowhere in `s` does not occur in `s`. */
  lemma AbsentWithoutLead(s: string, m: string)
    requires |m| >= 1 && m[0] !in s
    ensures forall i :: !OccursAt(s, m, i)
  {
  }

  /**
   * In `a + m + b`, the first occurrence of `m` is the one placed after `a`,
   * provided `m` does not occur within `a` and `m`'s first character does not
   * recur inside `m` (so no occurrence can straddle the end of `a`).
   */
  lemma {:induction false} FindAfterPrefix(a: string, m: string, b: string)
    requires |m| >= 1
    requires forall k :: 1 <= k < |m| ==> m[k] != m[0]
    requires forall i :: !OccursAt(a, m, i)
    ensures Find(a + m + b, m) == |a|
  {
    var s := a + m + b;
    assert s[|a|..|a| + |m|] == m;
    forall i | 0 <= i < |a| ensures !OccursAt(s, m, i) {
      if i + |m| <= |a| {
        assert s[i..i + |m|] == a[i..i + |m|];
        assert !OccursAt(a, m, i);
      } else if i + |m| <= |s| {
        var k := |a| - i;
        assert s[i..i + |m|][k] == s[|a|] == m[0] != m[k];
      }
    }
    FindIsFirst(s, m, |a|);
  }

  /** Python's normalisation of one slice bound against a sequence of length `n`. */
  function SliceBound(i: int, n: nat): (b: nat)
    ensures b <= n
  {
    if i < 0 then (if i + n < 0 then 0 else i + n)
    else if i > n then n
    else i
  }

  /**
   * `s[start:stop]`: negative bounds count from the end, bounds are clamped
   * to the sequence, and an empty slice results when the start is not
   * before the stop.
   */
  function Slice(s: string, start: int, stop: int): (r: string)
    ensures |r| <= |s|
    ensures 0 <= start <= stop <= |s| ==> r == s[start..stop]
    ensures stop == -1 && 0 <= start < |s| ==> r == s[start..|s| - 1]
    ensures stop == -1 && start >= |s| ==> r == []
    ensures start == stop ==> r == []
  {
    var lo, hi := SliceBound(start, |s|), SliceBound(stop, |s|);
    if lo <= hi then s[lo..hi] else []
  }

  /** The character for decimal digit `d`. */
  function DigitChar(d: nat): char
    requires d < 10
  {
    ('0' as int + d) as char
  }

  predicate IsDigits(s: string) {
    forall i :: 0 <= i < |s| ==> '0' <= s[i] <= '9'
  }

  /** `str(n)` for a non-negative integer: its decimal digits, without leading zeros. */
  function Decimal(n: nat): (r: string)
    ensures |r| >= 1 && IsDigits(r)
    ensures |r| > 1 ==> r[0] != '0'
    decreases n
  {
    if n < 10 then [DigitChar(n)] else Decimal(n / 10) + [DigitChar(n % 10)]
  }

  /** `int(s)` for a string of decimal digits. */
  function ParseDecimal(s: string): nat
    requires IsDigits(s)
  {
    if s == [] then 0 else ParseDecimal(s[..|s| - 1]) * 10 + (s[|s| - 1] as int - '0' as int)
  }

  /** `int(str(n)) == n`. */
  lemma {:induction false} DecimalRoundTrip(n: nat)
    ensures ParseDecimal(Decimal(n)) == n
    decreases n
  {
    if n >= 10 {
      var d := Decimal(n);
      assert d[..|d| - 1] == Decimal(n / 10);
      DecimalRoundTrip(n / 10);
    }
  }

  /** `s.split(sep)`: the maximal pieces of `s` between occurrences of `sep`. */
  function Split(s: string, sep: char): (parts: seq<string>)
    ensures |parts| >= 1
    ensures forall k :: 0 <= k < |parts| ==> sep !in parts[k]
    decreases |s|
  {
    if s == [] then [[]]
    else if s[0] == sep then [[]] + Split(s[1..], sep)
    else
      var rest := Split(s[1..], sep);
      [[s[0]] + rest[0]] + rest[1..]
  }

  /** A piece free of the separator, followed by the separator, splits off as one part. */
  lemma {:induction false} SplitAfterPiece(a: string, sep: char, b: string)
    requires sep !in a
    ensures Split(a + [sep] + b, sep) == [a] + Split(b, sep)
    decreases |a|
  {
    if a == [] {
      assert a + [sep] + b == [sep] + b;
      assert ([sep] + b)[1..] == b;
    } else {
      var s := a + [sep] + b;
      assert s[1..] == a[1..] + [sep] + b;
      SplitAfterPiece(a[1..], sep, b);
      assert [a[0]] + a[1..] == a;
    }
  }

  /** A string free of the separator is a single part. */
  lemma {:induction false} SplitWhole(a: string, sep: char)
    requires sep !in a
    ensures Split(a, sep) == [a]
    decreases |a|
  {
    if a != [] {
      SplitWhole(a[1..], sep);
      assert [a[0]] + a[1..] == a;
    }
  }
}
