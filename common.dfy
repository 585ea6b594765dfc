/** Small pieces of JavaScript behaviour that several components rely on:
    digit stripping, Math.round of a quotient, and the string tests
    startsWith, includes and an ASCII toLowerCase. */
module Common {

  datatype Option<+T> = None | Some(value: T)

  predicate IsDigit(c: char) {
    '0' <= c <= '9'
  }

  predicate AllDigits(s: string) {
    forall i :: 0 <= i < |s| ==> IsDigit(s[i])
  }

  function Max(a: int, b: int): int {
    if a >= b then a else b
  }

  /** `s.replace(/\D/g, "")`: the digits of `s`, in their order. */
  function OnlyDigits(s: string): (r: string)
    ensures AllDigits(r)
    ensures |r| <= |s|
  {
    if s == [] then []
    else if IsDigit(s[0]) then [s[0]] + OnlyDigits(s[1..])
    else OnlyDigits(s[1..])
  }

  /** Stripping distributes over concatenation. */
  lemma {:induction false} OnlyDigitsAppend(a: string, b: string)
    ensures OnlyDigits(a + b) == OnlyDigits(a) + OnlyDigits(b)
  {
    if a == [] {
      assert a + b == b;
    } else {
      assert (a + b)[0] == a[0] && (a + b)[1..] == a[1..] + b;
      OnlyDigitsAppend(a[1..], b);
    }
  }

  /** A string of digits is left as it is. */
  lemma {:induction false} OnlyDigitsOfDigits(s: string)
    requires AllDigits(s)
    ensures OnlyDigits(s) == s
  {
    if s != [] {
      OnlyDigitsOfDigits(s[1..]);
    }
  }

  /** A string without digits strips to nothing. */
  lemma {:induction false} OnlyDigitsOfSeparators(s: string)
    requires forall i :: 0 <= i < |s| ==> !IsDigit(s[i])
    ensures OnlyDigits(s) == []
  {
    if s != [] {
      OnlyDigitsOfSeparators(s[1..]);
    }
  }

  /** `Math.round(a * b / c)` for non-negative integers: the integer r with
      a*b/c - 1/2 < r <= a*b/c + 1/2, halves being rounded up. */
  function RoundedQuotient(a: nat, b: nat, c: nat): (r: nat)
    requires c > 0
    ensures 2 * c * r <= 2 * a * b + c < 2 * c * r + 2 * c
  {
    (2 * a * b + c) / (2 * c)
  }

  /** Multiplying by a non-negative factor keeps an ordering. */
  lemma MulMonotone(c: nat, x: int, y: int)
    requires x <= y
    ensures c * x <= c * y
  {
    assert c * y - c * x == c * (y - x);
  }

  /** A quotient is below k when the dividend is below d * k. */
  lemma DivBelow(n: nat, d: nat, k: nat)
    requires d > 0 && n < d * k
    ensures n / d < k
  {
    var q := n / d;
    assert d * q <= n;
    if q >= k {
      MulMonotone(d, k, q);
    }
  }

  /** `s.startsWith(p)`. */
  predicate StartsWith(s: string, p: string) {
    |p| <= |s| && s[..|p|] == p
  }

  /** `s.includes(t)`: `t` occurs somewhere in `s`. */
  predicate Includes(s: string, t: string)
    decreases |s|
  {
    |t| <= |s| && (s[..|t|] == t || (s != [] && Includes(s[1..], t)))
  }

  /** `t` occurs in `s` at position `k`. */
  predicate WindowAt(s: string, t: string, k: nat) {
    k + |t| <= |s| && s[k..k + |t|] == t
  }

  /** A window of `s` equal to `t` is found by `Includes`. */
  lemma {:induction false} IncludesAt(s: string, t: string, k: nat)
    requires WindowAt(s, t, k)
    ensures Includes(s, t)
  {
    if k > 0 {
      assert s[1..][k - 1..k - 1 + |t|] == s[k..k + |t|];
      IncludesAt(s[1..], t, k - 1);
    }
  }

  /** Conversely, `Includes` only holds when some window of `s` is `t`. */
  lemma {:induction false} IncludesHasWindow(s: string, t: string)
    requires Includes(s, t)
    ensures exists k: nat :: WindowAt(s, t, k)
    decreases |s|
  {
    if s[..|t|] == t {
      assert WindowAt(s, t, 0);
    } else {
      IncludesHasWindow(s[1..], t);
      var k: nat :| WindowAt(s[1..], t, k);
      assert s[1..][k..k + |t|] == s[k + 1..k + 1 + |t|];
      assert WindowAt(s, t, k + 1);
    }
  }

  /** `Includes` holds exactly when some window of `s` is `t`. */
  lemma IncludesIff(s: string, t: string)
    ensures Includes(s, t) <==> exists k: nat :: WindowAt(s, t, k)
  {
    if Includes(s, t) {
      IncludesHasWindow(s, t);
    }
    forall k: nat | WindowAt(s, t, k)
      ensures Includes(s, t)
    {
      IncludesAt(s, t, k);
    }
  }

  /** Every string includes the empty string (`"".includes` always holds). */
  lemma IncludesEmpty(s: string)
    ensures Includes(s, "")
  {
  }

  /** ASCII lower-casing of one character. */
  function LowerChar(c: char): (r: char)
    ensures 'A' <= c <= 'Z' ==> 'a' <= r <= 'z' && r as int == c as int + 32
    ensures !('A' <= c <= 'Z') ==> r == c
  {
    if 'A' <= c <= 'Z' then (c as int + 32) as char else c
  }

  /** `s.toLowerCase()` restricted to ASCII letters. */
  function Lower(s: string): (r: string)
    ensures |r| == |s|
    ensures forall i :: 0 <= i < |s| ==> r[i] == LowerChar(s[i])
  {
    seq(|s|, i requires 0 <= i < |s| => LowerChar(s[i]))
  }

  /** `s.length` in JavaScript: UTF-16 code units, two for a character
      outside the Basic Multilingual Plane. */
  function Utf16Length(s: string): (n: nat)
    ensures |s| <= n <= 2 * |s|
  {
    if s == [] then 0
    else (if s[0] as int >= 0x1_0000 then 2 else 1) + Utf16Length(s[1..])
  }

  /** On the Basic Multilingual Plane the two lengths agree. */
  lemma {:induction false} Utf16LengthOfBmp(s: string)
    requires forall i :: 0 <= i < |s| ==> (s[i] as int) < 0x1_0000
    ensures Utf16Length(s) == |s|
  {
    if s != [] {
      Utf16LengthOfBmp(s[1..]);
    }
  }
}
