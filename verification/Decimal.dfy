/** Decimal numbers as the protocol and the database arguments write them. */
module Decimal {
  import opened Geometry

  datatype Option<+T> = None | Some(value: T)

  predicate IsDigit(c: char) {
    '0' <= c <= '9'
  }

  predicate AllDigits(s: string) {
    forall i :: 0 <= i < |s| ==> IsDigit(s[i])
  }

  predicate IsUnsignedNumber(s: string) {
    s != "" && AllDigits(s)
  }

  predicate IsSignedNumber(s: string) {
    s != "" &&
    var start := if s[0] == '-' then 1 else 0;
    start < |s| && AllDigits(s[start..])
  }

  function DigitValue(c: char): nat
    requires IsDigit(c)
  {
    (c - '0') as int
  }

  function Digit(d: nat): (c: char)
    requires d < 10
    ensures IsDigit(c) && DigitValue(c) == d
  {
    '0' + d as char
  }

  function UnsignedValue(s: string): nat
    requires AllDigits(s)
  {
    if s == "" then 0 else 10 * UnsignedValue(s[..|s| - 1]) + DigitValue(s[|s| - 1])
  }

  function SignedValue(s: string): int
    requires IsSignedNumber(s)
  {
    if s[0] == '-' then -(UnsignedValue(s[1..]) as int) else UnsignedValue(s)
  }

  // `std::stoi` on text that passed the signed-number test; it throws outside 32 bits.
  function Stoi(s: string): Option<int>
    requires IsSignedNumber(s)
  {
    var v := SignedValue(s);
    if FitsInt(v) then Some(v) else None
  }

  // `std::to_string`.
  function NatToString(n: nat): string {
    if n < 10 then [Digit(n)] else NatToString(n / 10) + [Digit(n % 10)]
  }

  function ToString(n: int): string {
    if n < 0 then "-" + NatToString(-n) else NatToString(n)
  }

  lemma {:induction false} NatRoundTrip(n: nat)
    ensures IsUnsignedNumber(NatToString(n)) && UnsignedValue(NatToString(n)) == n
  {
    var s := NatToString(n);
    if n < 10 {
      assert s[..0] == "";
    } else {
      NatRoundTrip(n / 10);
      assert s[..|s| - 1] == NatToString(n / 10);
    }
  }

  /** Printing a number gives text that passes the protocol's test for signed numbers and reads back
      as that number; reading it back as an `int` fails exactly outside the 32-bit range. */
  lemma RoundTrip(n: int)
    ensures IsSignedNumber(ToString(n)) && SignedValue(ToString(n)) == n
    ensures Stoi(ToString(n)) == Some(n) <==> FitsInt(n)
    ensures Stoi(ToString(n)) == None <==> !FitsInt(n)
  {
    var s := ToString(n);
    if n < 0 {
      NatRoundTrip(-n);
      assert s[1..] == NatToString(-n);
    } else {
      NatRoundTrip(n);
      assert IsDigit(s[0]);
      assert s[0..] == s;
    }
  }
}
