/** Shared vocabulary: failure-carrying datatypes and the decimal formatting
    that Python's `str(int)`, f-strings and `'{:03d}'.format(...)` perform. */
module Common {

  datatype Option<T> = None | Some(value: T)

  /** Success or a failure value, for operations that return nothing useful. */
  datatype Outcome<E> = Pass | Fail(error: E)

  datatype Result<T, E> = Ok(value: T) | Err(error: E)

  function Max(a: int, b: int): int { if a < b then b else a }

  predicate IsDigit(c: char) { '0' <= c <= '9' }

  predicate AllDigits(s: string) { forall i :: 0 <= i < |s| ==> IsDigit(s[i]) }

  function DigitChar(d: nat): (c: char)
    requires d < 10
    ensures IsDigit(c)
  {
    ('0' as int + d) as char
  }

  function DigitValue(c: char): (d: nat)
    requires IsDigit(c)
    ensures d < 10 && DigitChar(d) == c
  {
    c as int - '0' as int
  }

  /** The number a string of decimal digits denotes (leading zeros allowed). */
  function DigitsValue(s: string): nat
    requires AllDigits(s)
  {
    if s == [] then 0 else DigitsValue(s[..|s| - 1]) * 10 + DigitValue(s[|s| - 1])
  }

  function Pow10(k: nat): (p: nat)
    ensures p >= 1
  {
    if k == 0 then 1 else 10 * Pow10(k - 1)
  }

  /** Decimal rendering of a natural number, as Python's `str(n)` gives it. */
  function NatToString(n: nat): (s: string)
    ensures 1 <= |s| && AllDigits(s)
    ensures |s| > 1 ==> s[0] != '0'
    decreases n
  {
    if n < 10 then [DigitChar(n)] else NatToString(n / 10) + [DigitChar(n % 10)]
  }

  /** Decimal rendering of an integer with a leading '-' when negative. */
  function IntToString(i: int): (s: string)
    ensures 1 <= |s|
    ensures i < 0 <==> s[0] == '-'
  {
    if i < 0 then "-" + NatToString(-i) else NatToString(i)
  }

  function Zeros(k: nat): (s: string)
    ensures |s| == k && AllDigits(s)
  {
    if k == 0 then "" else "0" + Zeros(k - 1)
  }

  /** Python's `format(i, '0<width>d')`: the sign comes first and zeros fill
      the gap up to `width` characters; longer numbers are never cut. */
  function ZeroPad(i: int, width: nat): string
  {
    if i < 0 then
      var d := NatToString(-i);
      "-" + Zeros(Max(width - 1 - |d|, 0)) + d
    else
      var d := NatToString(i);
      Zeros(Max(width - |d|, 0)) + d
  }

  /** Concatenate `items`, with `sep` between neighbours (Python's `sep.join`). */
  function Join(sep: string, items: seq<string>): string
  {
    if |items| == 0 then ""
    else if |items| == 1 then items[0]
    else items[0] + sep + Join(sep, items[1..])
  }

  function Concat<T>(ss: seq<seq<T>>): seq<T>
  {
    if ss == [] then [] else ss[0] + Concat(ss[1..])
  }

  lemma {:induction false} ConcatAppend<T>(ss: seq<seq<T>>, tail: seq<T>)
    ensures Concat(ss + [tail]) == Concat(ss) + tail
  {
    if ss == [] {
      assert ss + [tail] == [tail];
    } else {
      assert (ss + [tail])[1..] == ss[1..] + [tail];
      ConcatAppend(ss[1..], tail);
    }
  }

  lemma {:induction false} ConcatLength<T>(ss: seq<seq<T>>, k: nat)
    requires forall i :: 0 <= i < |ss| ==> |ss[i]| == k
    ensures |Concat(ss)| == |ss| * k
  {
    if ss != [] {
      ConcatLength(ss[1..], k);
    }
  }

  /** In a concatenation of blocks of size p, element k of block t sits at
      position t * p + k. */
  lemma {:induction false} ConcatIndex<T>(ss: seq<seq<T>>, p: nat, t: nat, k: nat)
    requires forall i :: 0 <= i < |ss| ==> |ss[i]| == p
    requires t < |ss| && k < p
    ensures t * p + k < |Concat(ss)|
    ensures Concat(ss)[t * p + k] == ss[t][k]
  {
    assert Concat(ss) == ss[0] + Concat(ss[1..]);
    if t > 0 {
      ConcatIndex(ss[1..], p, t - 1, k);
      assert t * p + k == p + ((t - 1) * p + k);
    }
  }

  // ---------------------------------------------------------------------
  // Reading the digits back

  lemma {:induction false} DigitsValueAppend(a: string, b: string)
    requires AllDigits(a) && AllDigits(b)
    ensures AllDigits(a + b)
    ensures DigitsValue(a + b) == DigitsValue(a) * Pow10(|b|) + DigitsValue(b)
  {
    if b == [] {
      assert a + b == a;
    } else {
      var b' := b[..|b| - 1];
      assert (a + b)[..|a + b| - 1] == a + b';
      DigitsValueAppend(a, b');
      assert (a + b)[|a + b| - 1] == b[|b| - 1];
      var x, p, y, d := DigitsValue(a), Pow10(|b'|), DigitsValue(b'), DigitValue(b[|b| - 1]);
      assert DigitsValue(a + b) == DigitsValue(a + b') * 10 + d;
      ShiftDecimal(x, p, y, d);
    }
  }

  lemma ShiftDecimal(x: int, p: int, y: int, d: int)
    ensures (x * p + y) * 10 + d == x * (10 * p) + (y * 10 + d)
  {
  }

  lemma {:induction false} ZerosValue(k: nat)
    ensures DigitsValue(Zeros(k)) == 0
  {
    if k > 0 {
      ZerosValue(k - 1);
      DigitsValueAppend("0", Zeros(k - 1));
      assert "0" + Zeros(k - 1) == Zeros(k);
    }
  }

  /** Reading `NatToString(n)` back as a decimal number gives `n`. */
  lemma {:induction false} NatToStringRoundTrip(n: nat)
    ensures DigitsValue(NatToString(n)) == n
  {
    if n >= 10 {
      var s := NatToString(n);
      NatToStringRoundTrip(n / 10);
      assert s[..|s| - 1] == NatToString(n / 10);
    }
  }

  /** Different numbers render differently. */
  lemma NatToStringInjective(a: nat, b: nat)
    ensures NatToString(a) == NatToString(b) ==> a == b
  {
    NatToStringRoundTrip(a);
    NatToStringRoundTrip(b);
  }

  /** Different integers render differently (the sign tells the two halves apart). */
  lemma IntToStringInjective(a: int, b: int)
    ensures IntToString(a) == IntToString(b) ==> a == b
  {
    if IntToString(a) == IntToString(b) {
      if a < 0 {
        assert b < 0;
        assert IntToString(a)[1..] == NatToString(-a);
        assert IntToString(b)[1..] == NatToString(-b);
        NatToStringInjective(-a, -b);
      } else {
        NatToStringInjective(a, b);
      }
    }
  }

  /** A zero-padded non-negative number is all digits, exactly `width` long
      unless the number itself is longer, and reads back as the number. */
  lemma ZeroPadNat(n: nat, width: nat)
    ensures AllDigits(ZeroPad(n, width))
    ensures |ZeroPad(n, width)| == Max(width, |NatToString(n)|)
    ensures DigitsValue(ZeroPad(n, width)) == n
  {
    var d := NatToString(n);
    var z := Zeros(Max(width - |d|, 0));
    assert ZeroPad(n, width) == z + d;
    ZerosValue(|z|);
    PaddedValue(z, d);
    NatToStringRoundTrip(n);
  }

  /** Leading zeros do not change the value read back. */
  lemma PaddedValue(z: string, d: string)
    requires AllDigits(z) && AllDigits(d) && DigitsValue(z) == 0
    ensures AllDigits(z + d) && DigitsValue(z + d) == DigitsValue(d)
  {
    DigitsValueAppend(z, d);
    assert DigitsValue(z) * Pow10(|d|) == 0;
  }

  /** A number below 10^k has at most k digits. */
  lemma {:induction false} NatToStringLength(n: nat, k: nat)
    requires k >= 1 && n < Pow10(k)
    ensures |NatToString(n)| <= k
  {
    if n >= 10 {
      assert k >= 2;
      assert n / 10 < Pow10(k - 1);
      NatToStringLength(n / 10, k - 1);
    }
  }
}
