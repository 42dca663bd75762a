/** String helpers that the Python code gets from `str`: substring search (`in`, `re.search` on a
    literal), `lower()`, `strip()` and decimal formatting of integers. */
module Text {

  /** `w in s` for Python strings: `w` occurs in `s` at some position. */
  predicate Contains(s: string, w: string)
  {
    exists i | 0 <= i <= |s| - |w| :: OccursAt(s, w, i)
  }

  /** `w` occurs in `s` at position `i`. */
  predicate OccursAt(s: string, w: string, i: int)
  {
    0 <= i && i + |w| <= |s| && s[i..i + |w|] == w
  }

  lemma ContainsAt(s: string, w: string, i: int)
    requires OccursAt(s, w, i)
    ensures Contains(s, w)
  {
  }

  /** A string that contains `w + x` contains `w`. */
  lemma {:induction false} ContainsPrefixOfWord(s: string, w: string, x: string)
    requires Contains(s, w + x)
    ensures Contains(s, w)
  {
    var i :| 0 <= i <= |s| - |w + x| && OccursAt(s, w + x, i);
    assert s[i..i + |w|] == (w + x)[..|w|] == w;
    assert OccursAt(s, w, i);
  }

  /** A word that occurs in `s` occurs in every string that has `s` as a prefix. */
  lemma {:induction false} ContainsInExtension(s: string, t: string, w: string)
    requires Contains(s, w)
    ensures Contains(s + t, w)
  {
    var i :| 0 <= i <= |s| - |w| && OccursAt(s, w, i);
    assert (s + t)[i..i + |w|] == s[i..i + |w|];
    assert OccursAt(s + t, w, i);
  }

  /** `c` occurs at offset `|a|` of `a + c + d`. */
  lemma OccursInMiddle(a: string, c: string, d: string)
    ensures OccursAt(a + c + d, c, |a|)
  {
    assert (a + c + d)[|a|..|a| + |c|] == c;
  }

  /** The three pieces of `a + b + c` are where they were put. */
  lemma PiecesOf(a: string, b: string, c: string)
    ensures (a + b + c)[..|a|] == a
    ensures (a + b + c)[|a|..|a| + |b|] == b
    ensures (a + b + c)[|a| + |b|..] == c
  {
  }

  // ---------------------------------------------------------------- lower()

  /** `str.lower()` on one character, for the ASCII letters (other characters are left as they are). */
  function LowerChar(c: char): char
  {
    if 'A' <= c <= 'Z' then (c as int + 32) as char else c
  }

  function Lower(s: string): (r: string)
    ensures |r| == |s|
    ensures forall i :: 0 <= i < |s| ==> r[i] == LowerChar(s[i])
  {
    seq(|s|, i requires 0 <= i < |s| => LowerChar(s[i]))
  }

  // ---------------------------------------------------------------- strip()

  /** The characters for which Python's `str.isspace()` holds. */
  predicate IsSpace(c: char)
  {
    var n := c as int;
    || n == 0x20 || 0x09 <= n <= 0x0D || 0x1C <= n <= 0x1F || n == 0x85 || n == 0xA0
    || n == 0x1680 || 0x2000 <= n <= 0x200A || n == 0x2028 || n == 0x2029
    || n == 0x202F || n == 0x205F || n == 0x3000
  }

  /** The index of the first non-space character at or after `i`, or `|s|`. */
  function SkipSpaces(s: string, i: nat): (k: nat)
    requires i <= |s|
    ensures i <= k <= |s|
    ensures forall j :: i <= j < k ==> IsSpace(s[j])
    ensures k < |s| ==> !IsSpace(s[k])
    decreases |s| - i
  {
    if i < |s| && IsSpace(s[i]) then SkipSpaces(s, i + 1) else i
  }

  /** The end of `s[lo..j]` once trailing spaces are dropped. */
  function TrimEnd(s: string, lo: nat, j: nat): (k: nat)
    requires lo <= j <= |s|
    ensures lo <= k <= j
    ensures forall m :: k <= m < j ==> IsSpace(s[m])
    ensures k > lo ==> !IsSpace(s[k - 1])
    decreases j
  {
    if j > lo && IsSpace(s[j - 1]) then TrimEnd(s, lo, j - 1) else j
  }

  /** `str.strip()`: the slice `s[lo..hi]` left once leading and trailing spaces are removed. */
  function StripBounds(s: string): (b: (nat, nat))
    ensures b.0 <= b.1 <= |s|
    ensures forall j :: 0 <= j < b.0 ==> IsSpace(s[j])
    ensures forall j :: b.1 <= j < |s| ==> IsSpace(s[j])
    ensures b.0 < b.1 ==> !IsSpace(s[b.0]) && !IsSpace(s[b.1 - 1])
  {
    var lo := SkipSpaces(s, 0);
    (lo, TrimEnd(s, lo, |s|))
  }

  function Strip(s: string): (r: string)
    ensures |r| <= |s|
    ensures r == s[StripBounds(s).0..StripBounds(s).1]
  {
    s[StripBounds(s).0..StripBounds(s).1]
  }

  lemma SliceOfSlice(s: string, lo: nat, hi: nat, a: nat, b: nat)
    requires lo <= hi <= |s| && a <= b <= hi - lo
    ensures s[lo..hi][a..b] == s[lo + a..lo + b]
  {
    var t := s[lo..hi];
    assert |t[a..b]| == |s[lo + a..lo + b]|;
    forall k | 0 <= k < b - a ensures t[a..b][k] == s[lo + a..lo + b][k] {
      assert t[a..b][k] == t[a + k] == s[lo + a + k];
    }
  }

  /** No word that starts and ends with a non-space character can tell `s` and `Strip(s)` apart. */
  lemma {:induction false} StripKeepsWords(s: string, w: string)
    requires |w| > 0 && !IsSpace(w[0]) && !IsSpace(w[|w| - 1])
    ensures Contains(Strip(s), w) <==> Contains(s, w)
  {
    var (lo, hi) := StripBounds(s);
    var r := Strip(s);
    if Contains(r, w) {
      var i :| 0 <= i <= |r| - |w| && OccursAt(r, w, i);
      SliceOfSlice(s, lo, hi, i, i + |w|);
      assert OccursAt(s, w, lo + i);
    }
    if Contains(s, w) {
      var i :| 0 <= i <= |s| - |w| && OccursAt(s, w, i);
      assert s[i] == w[0] && s[i + |w| - 1] == w[|w| - 1];
      assert lo <= i;
      assert i + |w| <= hi;
      assert r == s[lo..hi];
      SliceOfSlice(s, lo, hi, i - lo, i - lo + |w|);
      assert OccursAt(r, w, i - lo);
    }
  }

  // ---------------------------------------------------------------- integers as text

  predicate IsDigit(c: char)
  {
    '0' <= c <= '9'
  }

  function DigitChar(d: nat): (c: char)
    requires d < 10
    ensures IsDigit(c)
  {
    ('0' as int + d) as char
  }

  /** `str(n)` for a natural number. */
  function NatToString(n: nat): (r: string)
    ensures |r| >= 1
    ensures forall i :: 0 <= i < |r| ==> IsDigit(r[i])
    ensures n < 10 ==> r == [DigitChar(n)]
  {
    if n < 10 then [DigitChar(n)] else NatToString(n / 10) + [DigitChar(n % 10)]
  }

  /** Different numbers are written differently. */
  lemma {:induction false} NatToStringInjective(m: nat, n: nat)
    requires NatToString(m) == NatToString(n)
    ensures m == n
  {
    if m >= 10 && n >= 10 {
      var a, b := NatToString(m / 10), NatToString(n / 10);
      assert NatToString(m) == a + [DigitChar(m % 10)];
      assert NatToString(n) == b + [DigitChar(n % 10)];
      assert a == NatToString(m)[..|a|];
      assert |a| == |b|;
      assert b == NatToString(n)[..|b|];
      NatToStringInjective(m / 10, n / 10);
    }
  }

  function Pow10(k: nat): (p: nat)
    ensures p >= 1
  {
    if k == 0 then 1 else 10 * Pow10(k - 1)
  }

  /** A number below `10^k` takes at most `k` digits (and always at least one). */
  lemma {:induction false} NatToStringLength(n: nat, k: nat)
    requires n < Pow10(k)
    ensures |NatToString(n)| <= if k == 0 then 1 else k
  {
    if n >= 10 {
      assert k >= 2;
      NatToStringLength(n / 10, k - 1);
    }
  }

  /** `f"{n:02d}"` and the like: `str(n)` left-padded with zeros to `width` characters. */
  function ZeroPad(n: nat, width: nat): (r: string)
    ensures |r| >= width
    ensures forall i :: 0 <= i < |r| ==> IsDigit(r[i])
    ensures |NatToString(n)| <= width ==> |r| == width
  {
    var s := NatToString(n);
    if |s| >= width then s else seq(width - |s|, _ => '0') + s
  }
}
