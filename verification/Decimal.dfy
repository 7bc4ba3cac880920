/** Whole numbers as text: how Rust prints them and how it reads them back. */
module Decimal {
  import opened Platform

  function Digit(d: nat): char
    requires d < 10
  {
    '0' + d as char
  }

  predicate IsDigit(c: char) { '0' <= c <= '9' }

  predicate AllDigits(s: string) {
    forall i :: 0 <= i < |s| ==> IsDigit(s[i])
  }

  /** `to_string` of a number that is not negative. */
  function Show(n: nat): (s: string)
    ensures s != "" && AllDigits(s)
  {
    if n < 10 then [Digit(n)] else Show(n / 10) + [Digit(n % 10)]
  }

  /** `to_string` of a signed number. */
  function ShowSigned(n: int): string {
    if n < 0 then "-" + Show(-n) else Show(n)
  }

  function ValueOf(s: string): nat
    requires AllDigits(s)
  {
    if s == "" then 0 else 10 * ValueOf(s[..|s| - 1]) + (s[|s| - 1] - '0') as nat
  }

  function ReadDigits(s: string): Option<nat> {
    if s != "" && AllDigits(s) then Some(ValueOf(s)) else None
  }

  /** `parse::<u32>`: an optional plus sign and digits, in range. */
  function ReadU32(s: string): Option<U32> {
    match ReadDigits(if s != "" && s[0] == '+' then s[1..] else s)
    case Some(n) => if n <= U32_MAX then Some(n) else None
    case None => None
  }

  /** `parse::<i64>`: an optional sign and digits, in range. */
  function ReadI64(s: string): Option<int> {
    if s != "" && s[0] == '-' then
      match ReadDigits(s[1..])
      case Some(n) => var i: int := n; if i <= I64_MAX + 1 then Some(-i) else None
      case None => None
    else
      match ReadDigits(if s != "" && s[0] == '+' then s[1..] else s)
      case Some(n) => if n <= I64_MAX then Some(n) else None
      case None => None
  }

  lemma {:induction false} ValueOfShown(n: nat)
    ensures ValueOf(Show(n)) == n
  {
    if n < 10 {
      assert Show(n)[..0] == "" && ValueOf("") == 0;
    } else {
      ValueOfShown(n / 10);
      assert Show(n)[..|Show(n)| - 1] == Show(n / 10);
    }
  }

  /** Numbers in range are read back as they were printed. */
  lemma ReadBack(n: nat)
    ensures n <= U32_MAX ==> ReadU32(Show(n)) == Some(n)
    ensures n <= I64_MAX ==> ReadI64(Show(n)) == Some(n)
  {
    ValueOfShown(n);
    assert IsDigit(Show(n)[0]);
  }

  /** So are signed ones, down to the smallest. */
  lemma SignedReadBack(n: int)
    requires -I64_MAX - 1 <= n <= I64_MAX
    ensures ReadI64(ShowSigned(n)) == Some(n)
  {
    if n < 0 {
      ValueOfShown(-n);
      assert ShowSigned(n)[1..] == Show(-n);
    } else {
      ReadBack(n);
    }
  }

  /** Digits with an optional sign are read as the number they spell, if it is in range. */
  lemma DigitsAreRead(s: string)
    requires s != "" && AllDigits(s)
    ensures ReadI64(s) == ReadI64("+" + s) == if ValueOf(s) <= I64_MAX then Some(ValueOf(s)) else None
    ensures ReadI64("-" + s) == if ValueOf(s) <= I64_MAX + 1 then Some(0 - ValueOf(s)) else None
    ensures ReadU32(s) == ReadU32("+" + s) == if ValueOf(s) <= U32_MAX then Some(ValueOf(s)) else None
  {
    assert IsDigit(s[0]) && ("+" + s)[1..] == s && ("-" + s)[1..] == s;
  }

  /** Nothing else is read as a number. */
  lemma OnlyDigitsAreRead(s: string)
    ensures ReadI64(s).Some? ==> s != "" && (AllDigits(s) || (s[0] in "+-" && |s| > 1 && AllDigits(s[1..])))
    ensures ReadU32(s).Some? ==> s != "" && (AllDigits(s) || (s[0] == '+' && |s| > 1 && AllDigits(s[1..])))
  {
  }

  function TenToThe(k: nat): nat { if k == 0 then 1 else 10 * TenToThe(k - 1) }

  lemma TenTimes(a: nat, b: nat)
    ensures a * (10 * b) == 10 * (a * b)
  {
  }

  /** What digits spell: those in front count ten times as much for every digit behind them. */
  lemma {:induction false} DecimalPlaces(front: string, back: string)
    requires AllDigits(front) && AllDigits(back)
    ensures AllDigits(front + back)
    ensures ValueOf(front + back) == ValueOf(front) * TenToThe(|back|) + ValueOf(back)
    ensures ValueOf(back) < TenToThe(|back|)
    ensures |back| == 1 ==> ValueOf(back) == back[0] as int - 48
  {
    if back == "" {
      assert front + back == front;
    } else {
      var n := |back| - 1;
      DecimalPlaces(front, back[..n]);
      assert (front + back)[..|front| + n] == front + back[..n];
      TenTimes(ValueOf(front), TenToThe(n));
      assert n == 0 ==> back[..n] == "";
    }
  }
}
