/** `DateOfBirth`: a customer's birth date, marshalled to JSON as
    `YYYY-MM-DD` with month and day zero padded. */
module DateOfBirth {
  import opened Text

  /** The constructor stores its three numbers unchanged. Numbers are
      integers here. */
  datatype DateOfBirth = DateOfBirth(year: int, month: int, day: int)

  /** `zeroPadded(num)`: `String(num).padStart(2, "0")`. */
  function ZeroPadded(n: int): (r: string)
    ensures 0 <= n < 10 ==> r == "0" + IntToString(n)
    ensures !(0 <= n < 10) ==> r == IntToString(n)
    ensures 2 <= |r|
  {
    PadStart(IntToString(n), 2, '0')
  }

  /** `toJSON()`. */
  function ToJson(d: DateOfBirth): string {
    IntToString(d.year) + "-" + ZeroPadded(d.month) + "-" + ZeroPadded(d.day)
  }

  /** Month and day in 1..99 give exactly two characters each. */
  lemma PaddedPartsHaveTwoChars(n: int)
    requires 0 <= n <= 99
    ensures |ZeroPadded(n)| == 2
  {
  }

  /** Padding never shortens a number's digits. */
  lemma PaddingNeverShortens(n: int)
    ensures |ZeroPadded(n)| >= |IntToString(n)|
    ensures IntToString(n) == ZeroPadded(n)[|ZeroPadded(n)| - |IntToString(n)|..]
  {
  }

  lemma PaddedNatDigits(n: nat)
    ensures AllDigits(ZeroPadded(n))
    ensures '-' !in ZeroPadded(n)
    ensures ParseNat(ZeroPadded(n)) == n
  {
    var s := NatToString(n);
    ParseNatToString(n);
    if n < 10 {
      ParseNatLeadingZero(s);
    }
    assert forall i :: 0 <= i < |ZeroPadded(n)| ==> IsDigit(ZeroPadded(n)[i]);
  }

  lemma Regroup(y: string, m: string, d: string)
    ensures y + "-" + m + "-" + d == y + ['-'] + (m + ['-'] + d)
  {
    assert "-" == ['-'];
  }

  /** For natural numbers the JSON form splits on "-" into three digit
      strings that parse back to year, month and day. */
  lemma ToJsonRoundTrip(year: nat, month: nat, day: nat)
    ensures var parts := Split(ToJson(DateOfBirth(year, month, day)), '-');
      && |parts| == 3
      && AllDigits(parts[0]) && AllDigits(parts[1]) && AllDigits(parts[2])
      && ParseNat(parts[0]) == year && ParseNat(parts[1]) == month && ParseNat(parts[2]) == day
  {
    var y := IntToString(year);
    var m := ZeroPadded(month);
    var d := ZeroPadded(day);
    assert forall i :: 0 <= i < |y| ==> IsDigit(y[i]);
    assert '-' !in y;
    ParseNatToString(year);
    PaddedNatDigits(month);
    PaddedNatDigits(day);
    Regroup(y, m, d);
    SplitAppend(y, '-', m + ['-'] + d);
    SplitAppend(m, '-', d);
    SplitWithout(d, '-');
  }
}
