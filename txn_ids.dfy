/** Transaction identifiers: the `TXN%05d` scheme of BankService.recordTransaction,
    i.e. "TXN" followed by the counter in decimal, zero-padded to at least five digits,
    together with the parser that reads the counter back. */
module TxnIds {

  datatype Option<T> = None | Some(value: T)

  predicate IsDigit(c: char) {
    '0' <= c <= '9'
  }

  predicate AllDigits(s: string) {
    forall i :: 0 <= i < |s| ==> IsDigit(s[i])
  }

  function DigitChar(d: nat): (c: char)
    requires d < 10
    ensures IsDigit(c)
  {
    ('0' as int + d) as char
  }

  function DigitValue(c: char): (d: nat)
    requires IsDigit(c)
    ensures d < 10
  {
    c as int - '0' as int
  }

  /** The decimal digits of `n`, without leading zeros ("0" for zero). */
  function Decimal(n: nat): string {
    if n < 10 then [DigitChar(n)] else Decimal(n / 10) + [DigitChar(n % 10)]
  }

  /** The number a string of decimal digits denotes (most significant digit first). */
  function DigitsValue(s: string): nat
    requires AllDigits(s)
  {
    if s == [] then 0 else DigitsValue(s[..|s| - 1]) * 10 + DigitValue(s[|s| - 1])
  }

  /** `s` preceded by as many '0' as it takes to reach `width` characters. */
  function ZeroPad(s: string, width: nat): string {
    if |s| < width then seq(width - |s|, _ => '0') + s else s
  }

  /** `String.format("TXN%05d", counter)` for a non-negative counter, written with the
      ASCII digits '0' to '9' (a default locale whose zero digit is '0'). */
  function TxnId(counter: nat): string {
    "TXN" + ZeroPad(Decimal(counter), 5)
  }

  /** Decimal writes at least one digit, and exactly one for a number below ten. */
  lemma {:induction false} DecimalDigits(n: nat)
    ensures 1 <= |Decimal(n)| && AllDigits(Decimal(n))
    ensures n < 10 <==> |Decimal(n)| == 1
  {
    if n >= 10 {
      DecimalDigits(n / 10);
    }
  }

  /** Padding keeps `s` as the tail and puts only zeros in front of it. */
  lemma ZeroPadShape(s: string, width: nat)
    ensures |ZeroPad(s, width)| == if |s| < width then width else |s|
    ensures ZeroPad(s, width) == ZeroPad(s, width)[..|ZeroPad(s, width)| - |s|] + s
    ensures forall i :: 0 <= i < |ZeroPad(s, width)| - |s| ==> ZeroPad(s, width)[i] == '0'
  {
  }

  /** Every identifier is "TXN" followed by at least five decimal digits. */
  lemma TxnIdShape(counter: nat)
    ensures |TxnId(counter)| >= 8 && TxnId(counter)[..3] == "TXN" && AllDigits(TxnId(counter)[3..])
  {
    var d := Decimal(counter);
    DecimalDigits(counter);
    ZeroPadShape(d, 5);
    assert TxnId(counter)[3..] == ZeroPad(d, 5);
  }

  /** Reads the counter back out of an identifier; `None` for anything not of the form
      "TXN" followed by at least one digit. */
  function ParseTxnId(id: string): Option<nat> {
    if |id| > 3 && id[..3] == "TXN" && AllDigits(id[3..]) then Some(DigitsValue(id[3..])) else None
  }

  lemma {:induction false} DecimalValue(n: nat)
    ensures AllDigits(Decimal(n)) && DigitsValue(Decimal(n)) == n
  {
    DecimalDigits(n);
    if n >= 10 {
      var s := Decimal(n);
      assert s[..|s| - 1] == Decimal(n / 10);
      DecimalValue(n / 10);
    }
  }

  /** Leading zeros do not change the value of a digit string. */
  lemma {:induction false} LeadingZerosValue(z: string, s: string)
    requires forall i :: 0 <= i < |z| ==> z[i] == '0'
    requires AllDigits(s)
    ensures AllDigits(z + s) && DigitsValue(z + s) == DigitsValue(s)
  {
    if s == [] {
      assert z + s == z;
      ZerosValue(z);
    } else {
      var w := z + s;
      assert w[..|w| - 1] == z + s[..|s| - 1];
      LeadingZerosValue(z, s[..|s| - 1]);
    }
  }

  lemma {:induction false} ZerosValue(z: string)
    requires forall i :: 0 <= i < |z| ==> z[i] == '0'
    ensures AllDigits(z) && DigitsValue(z) == 0
  {
    if z != [] {
      ZerosValue(z[..|z| - 1]);
    }
  }

  /** Round trip: the parser recovers the counter every identifier was made from. */
  lemma {:induction false} TxnIdRoundTrip(counter: nat)
    ensures ParseTxnId(TxnId(counter)) == Some(counter)
  {
    var d := Decimal(counter);
    var p := ZeroPad(d, 5);
    var id := TxnId(counter);
    assert id[3..] == p;
    DecimalDigits(counter);
    ZeroPadShape(d, 5);
    LeadingZerosValue(p[..|p| - |d|], d);
    DecimalValue(counter);
  }

  /** Distinct counters give distinct identifiers. */
  lemma {:induction false} TxnIdInjective(a: nat, b: nat)
    ensures TxnId(a) == TxnId(b) <==> a == b
  {
    TxnIdRoundTrip(a);
    TxnIdRoundTrip(b);
  }

  /** The first identifier of a fresh ledger. */
  lemma FirstTxnId()
    ensures TxnId(1) == "TXN00001"
  {
    assert Decimal(1) == "1";
    assert seq(4, _ => '0') == "0000";
  }
}
