/** Invoice numbers: "F-" followed by the checkout time formatted with the
    pattern yyyyMMddHHmmss (four-digit year, then two digits each for month,
    day, hour, minute and second).  The clock itself is not modelled: the
    time is an input. */
module InvoiceNumber {
  import opened Domain

  predicate IsLeapYear(y: int) {
    y % 4 == 0 && (y % 100 != 0 || y % 400 == 0)
  }

  function DaysInMonth(y: int, m: int): int
    requires 1 <= m <= 12
  {
    if m == 2 then (if IsLeapYear(y) then 29 else 28)
    else if m == 4 || m == 6 || m == 9 || m == 11 then 30
    else 31
  }

  /** A calendar date-time whose year the four-digit pattern prints without
      a sign. */
  predicate ValidDateTime(t: DateTime) {
    && 1 <= t.year <= 9999
    && 1 <= t.month <= 12
    && 1 <= t.day <= DaysInMonth(t.year, t.month)
    && 0 <= t.hour < 24 && 0 <= t.minute < 60 && 0 <= t.second < 60
  }

  function Pow10(n: nat): nat {
    if n == 0 then 1 else 10 * Pow10(n - 1)
  }

  predicate IsDigit(c: char) {
    '0' <= c <= '9'
  }

  predicate AllDigits(s: string) {
    forall i :: 0 <= i < |s| ==> IsDigit(s[i])
  }

  /** `n` in decimal, zero-padded to `width` digits. */
  function Digits(n: nat, width: nat): (s: string)
    requires n < Pow10(width)
    ensures |s| == width && AllDigits(s)
  {
    if width == 0 then "" else Digits(n / 10, width - 1) + [('0' as int + n % 10) as char]
  }

  /** The number a string of decimal digits denotes. */
  function Value(s: string): (n: nat)
    requires AllDigits(s)
    ensures n < Pow10(|s|)
  {
    if s == [] then 0 else Value(s[..|s| - 1]) * 10 + (s[|s| - 1] as int - '0' as int)
  }

  lemma {:induction false} ValueOfDigits(n: nat, width: nat)
    requires n < Pow10(width)
    ensures Value(Digits(n, width)) == n
  {
    if width > 0 {
      var s := Digits(n, width);
      assert s[..width - 1] == Digits(n / 10, width - 1);
      ValueOfDigits(n / 10, width - 1);
    }
  }

  lemma {:induction false} DigitsOfValue(s: string)
    requires AllDigits(s)
    ensures Digits(Value(s), |s|) == s
  {
    if s != [] {
      var init := s[..|s| - 1];
      var d := s[|s| - 1] as int - '0' as int;
      assert Value(s) == Value(init) * 10 + d;
      assert Value(s) / 10 == Value(init) && Value(s) % 10 == d;
      DigitsOfValue(init);
      assert s == init + [s[|s| - 1]];
    }
  }

  /** The timestamp part, pattern yyyyMMddHHmmss. */
  function Stamp(t: DateTime): string
    requires ValidDateTime(t)
  {
    Digits(t.year, 4) + Digits(t.month, 2) + Digits(t.day, 2)
      + Digits(t.hour, 2) + Digits(t.minute, 2) + Digits(t.second, 2)
  }

  /** The number given to an invoice issued at `t`. */
  function Number(t: DateTime): (s: string)
    requires ValidDateTime(t)
    ensures |s| == 16 && s[..2] == "F-"
    ensures forall i :: 2 <= i < 16 ==> IsDigit(s[i])
  {
    "F-" + Stamp(t)
  }

  /** Reads an invoice number back into the time it was issued at. */
  function Parse(s: string): (r: Option<DateTime>)
    ensures r.Some? ==> ValidDateTime(r.value)
  {
    if |s| == 16 && s[..2] == "F-" && (forall i :: 2 <= i < 16 ==> IsDigit(s[i])) then
      var t := DateTime(Value(s[2..6]), Value(s[6..8]), Value(s[8..10]),
                        Value(s[10..12]), Value(s[12..14]), Value(s[14..16]));
      if ValidDateTime(t) then Some(t) else None
    else None
  }

  /** Every invoice number can be read back into the time it encodes. */
  lemma ParseNumber(t: DateTime)
    requires ValidDateTime(t)
    ensures Parse(Number(t)) == Some(t)
  {
    var s := Number(t);
    assert s[2..6] == Digits(t.year, 4);
    assert s[6..8] == Digits(t.month, 2);
    assert s[8..10] == Digits(t.day, 2);
    assert s[10..12] == Digits(t.hour, 2);
    assert s[12..14] == Digits(t.minute, 2);
    assert s[14..16] == Digits(t.second, 2);
    ValueOfDigits(t.year, 4);
    ValueOfDigits(t.month, 2);
    ValueOfDigits(t.day, 2);
    ValueOfDigits(t.hour, 2);
    ValueOfDigits(t.minute, 2);
    ValueOfDigits(t.second, 2);
  }

  /** Every string that reads as an invoice number is the number of the time
      it reads as. */
  lemma NumberOfParse(s: string)
    requires Parse(s).Some?
    ensures Number(Parse(s).value) == s
  {
    var t := Parse(s).value;
    var stamp := s[2..16];
    assert s == "F-" + stamp;
    assert stamp[..4] == s[2..6] && stamp[4..6] == s[6..8] && stamp[6..8] == s[8..10];
    assert stamp[8..10] == s[10..12] && stamp[10..12] == s[12..14] && stamp[12..14] == s[14..16];
    assert t == DateTime(Value(stamp[..4]), Value(stamp[4..6]), Value(stamp[6..8]),
                         Value(stamp[8..10]), Value(stamp[10..12]), Value(stamp[12..14]));
    StampOfFields(stamp, t);
  }

  /** A 14-digit stamp is the stamp of the time its fields read as. */
  lemma StampOfFields(stamp: string, t: DateTime)
    requires |stamp| == 14 && AllDigits(stamp) && ValidDateTime(t)
    requires t == DateTime(Value(stamp[..4]), Value(stamp[4..6]), Value(stamp[6..8]),
                           Value(stamp[8..10]), Value(stamp[10..12]), Value(stamp[12..14]))
    ensures Stamp(t) == stamp
  {
    var date, time := stamp[..8], stamp[8..];
    assert stamp == date + time;
    assert date[..4] == stamp[..4] && date[4..6] == stamp[4..6] && date[6..] == stamp[6..8];
    assert time[..2] == stamp[8..10] && time[2..4] == stamp[10..12] && time[4..] == stamp[12..14];
    ThreeFields(date, t.year, 4, t.month, 2, t.day);
    ThreeFields(time, t.hour, 2, t.minute, 2, t.second);
  }

  /** Three consecutive zero-padded fields print back the digits they were
      read from. */
  lemma ThreeFields(s: string, a: nat, wa: nat, b: nat, wb: nat, c: nat)
    requires AllDigits(s) && wa + wb <= |s|
    requires a == Value(s[..wa]) && b == Value(s[wa..wa + wb]) && c == Value(s[wa + wb..])
    ensures a < Pow10(wa) && b < Pow10(wb) && c < Pow10(|s| - wa - wb)
    ensures Digits(a, wa) + Digits(b, wb) + Digits(c, |s| - wa - wb) == s
  {
    var x, y, z := s[..wa], s[wa..wa + wb], s[wa + wb..];
    assert s == x + y + z;
    assert AllDigits(x) && AllDigits(y) && AllDigits(z);
    DigitsOfValue(x);
    DigitsOfValue(y);
    DigitsOfValue(z);
  }

  /** Two checkouts get the same invoice number exactly when they happen in
      the same second. */
  lemma NumberInjective(t1: DateTime, t2: DateTime)
    requires ValidDateTime(t1) && ValidDateTime(t2)
    ensures Number(t1) == Number(t2) <==> t1 == t2
  {
    ParseNumber(t1);
    ParseNumber(t2);
  }
}
