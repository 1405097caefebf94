/** The decimal text that sprintf("%d") writes and atoi reads back. */
module Decimal {
  import opened Frames

  const ZERO: Byte := 48
  const MINUS: Byte := 45
  const PLUS: Byte := 43

  predicate IsDigit(b: Byte) {
    48 <= b <= 57
  }

  predicate IsSpace(b: Byte) {
    b == 32 || 9 <= b <= 13
  }

  /** sprintf("%d") for a number that is not negative. */
  function Print(n: nat): (f: Frame)
    ensures |f| > 0 && forall i :: 0 <= i < |f| ==> IsDigit(f[i])
  {
    if n < 10 then [48 + n] else Print(n / 10) + [48 + n % 10]
  }

  function SkipSpace(f: Frame): Frame {
    if |f| > 0 && IsSpace(f[0]) then SkipSpace(f[1..]) else f
  }

  /** The value of the longest run of digits at the front, added to acc as strtol does. */
  function Digits(f: Frame, acc: nat): nat {
    if |f| > 0 && IsDigit(f[0]) then Digits(f[1..], 10 * acc + (f[0] - 48)) else acc
  }

  function Atoi(text: Frame): int {
    var f := SkipSpace(text);
    if |f| > 0 && f[0] == MINUS then 0 - Digits(f[1..], 0)
    else if |f| > 0 && f[0] == PLUS then Digits(f[1..], 0)
    else Digits(f, 0)
  }

  lemma {:induction false} DigitsSnoc(f: Frame, b: Byte, acc: nat)
    requires forall i :: 0 <= i < |f| ==> IsDigit(f[i])
    requires IsDigit(b)
    ensures Digits(f + [b], acc) == 10 * Digits(f, acc) + (b - 48)
  {
    if f == [] {
      assert (f + [b])[1..] == [];
    } else {
      assert (f + [b])[1..] == f[1..] + [b];
      DigitsSnoc(f[1..], b, 10 * acc + (f[0] - 48));
    }
  }

  lemma {:induction false} DigitsPrint(n: nat)
    ensures Digits(Print(n), 0) == n
  {
    if n < 10 {
      assert Print(n)[1..] == [];
    } else {
      DigitsPrint(n / 10);
      DigitsSnoc(Print(n / 10), 48 + n % 10, 0);
    }
  }

  /** Reading back what was printed gives the number: the request text identifies its sequence number. */
  lemma {:induction false} RoundTrip(n: nat)
    ensures Atoi(Print(n)) == n
  {
    DigitsPrint(n);
  }

  lemma {:induction false} SpacesSkipped(ws: Frame, f: Frame)
    requires (forall i :: 0 <= i < |ws| ==> IsSpace(ws[i])) && (|f| > 0 ==> !IsSpace(f[0]))
    ensures SkipSpace(ws + f) == f
  {
    if ws == [] {
      assert ws + f == f;
    } else {
      assert (ws + f)[1..] == ws[1..] + f;
      SpacesSkipped(ws[1..], f);
    }
  }

  /** Reading stops at the first byte that is no digit. */
  lemma {:induction false} DigitsStop(f: Frame, rest: Frame, acc: nat)
    requires (forall i :: 0 <= i < |f| ==> IsDigit(f[i])) && (|rest| > 0 ==> !IsDigit(rest[0]))
    ensures Digits(f + rest, acc) == Digits(f, acc)
  {
    if f == [] {
      assert f + rest == rest;
    } else {
      assert (f + rest)[1..] == f[1..] + rest;
      DigitsStop(f[1..], rest, 10 * acc + (f[0] - 48));
    }
  }

  /** atoi in full: leading spaces, then a sign if there is one, then a number, then anything but a digit. */
  lemma {:induction false} AtoiReads(ws: Frame, sign: Frame, n: nat, rest: Frame)
    requires forall i :: 0 <= i < |ws| ==> ws[i] in {9, 10, 11, 12, 13, 32}
    requires (sign == [] || sign == [MINUS] || sign == [PLUS]) && (|rest| > 0 ==> !IsDigit(rest[0]))
    ensures Atoi(ws + sign + Print(n) + rest) == if sign == [MINUS] then 0 - n else n
  {
    var f := sign + (Print(n) + rest);
    assert ws + sign + Print(n) + rest == ws + f;
    assert f[0] == if sign == [] then Print(n)[0] else sign[0];
    SpacesSkipped(ws, f);
    DigitsStop(Print(n), rest, 0);
    DigitsPrint(n);
    if sign == [] {
      assert f == Print(n) + rest;
    } else {
      assert f[1..] == Print(n) + rest;
    }
  }

  /** Text without a number reads 0. */
  lemma AtoiOfNothing(text: Frame)
    requires text == [] || !(IsSpace(text[0]) || IsDigit(text[0]) || text[0] == MINUS || text[0] == PLUS)
    ensures Atoi(text) == 0
  {
  }

  lemma PrintInjective(m: nat, n: nat)
    requires Print(m) == Print(n)
    ensures m == n
  {
    RoundTrip(m);
    RoundTrip(n);
  }

  function Pow10(k: nat): nat {
    if k == 0 then 1 else 10 * Pow10(k - 1)
  }

  /** A number needs at most k digits exactly when it is below ten to the k. */
  lemma {:induction false} PrintLength(n: nat, k: nat)
    requires k > 0
    ensures |Print(n)| <= k <==> n < Pow10(k)
  {
    if n >= 10 {
      if k == 1 {
        assert Pow10(1) == 10;
      } else {
        PrintLength(n / 10, k - 1);
      }
    } else {
      assert Pow10(k) >= 10 by { Pow10Grows(k); }
    }
  }

  lemma {:induction false} Pow10Grows(k: nat)
    requires k > 0
    ensures Pow10(k) >= 10
  {
    if k > 1 {
      Pow10Grows(k - 1);
    }
  }

  /** The ten-byte request buffer, terminator included, holds exactly the numbers up to 999999999. */
  lemma FitsRequestBuffer(n: nat)
    ensures |Print(n)| + 1 <= 10 <==> n <= 999999999
  {
    PrintLength(n, 9);
    assert Pow10(9) == 1000000000;
  }
}
