/** The `MM:SS` text the timer shows for the time left: whole minutes and
    remaining seconds, each written in decimal and padded with zeros on the
    left to at least two characters. JavaScript's `Math.floor`, truncating
    `%`, `toString` and `padStart(2, '0')` are written out. */
module Display {
  import opened Optional

  /** The decimal digit character for `d`. */
  function DigitChar(d: int): (c: char)
    requires 0 <= d < 10
    ensures '0' <= c <= '9' && c as int - '0' as int == d
  {
    (d + '0' as int) as char
  }

  /** The decimal digits of `n`, without leading zeros (`Number.toString`
      of a non-negative integer). */
  function Digits(n: nat): string
    decreases n
  {
    if n < 10 then [DigitChar(n)] else Digits(n / 10) + [DigitChar(n % 10)]
  }

  /** `Number.toString` of an integer: a minus sign before the digits of a
      negative number. */
  function IntToString(n: int): (r: string)
    ensures n >= 0 ==> AllDigits(r) && Value(r) == n
    ensures n < 0 ==> |r| >= 2 && r[0] == '-' && AllDigits(r[1..]) && Value(r[1..]) == -n
    ensures n >= 0 ==> |r| >= 1 && (|r| == 1 || r[0] != '0')
    ensures n < 0 ==> |r[1..]| == 1 || r[1] != '0'
  {
    if n < 0 then
      DigitsValue(-n);
      CanonicalDigits(-n);
      assert ("-" + Digits(-n))[1..] == Digits(-n);
      "-" + Digits(-n)
    else
      DigitsValue(n);
      CanonicalDigits(n);
      Digits(n)
  }

  /** `padStart(2, '0')`: zeros on the left up to two characters; a longer
      string is left as it is. */
  function PadStart2(s: string): (r: string)
    ensures |r| == if |s| < 2 then 2 else |s|
    ensures r[|r| - |s|..] == s
    ensures forall i :: 0 <= i < |r| - |s| ==> r[i] == '0'
  {
    if |s| == 0 then "00" else if |s| == 1 then "0" + s else s
  }

  /** JavaScript's `%`: the remainder takes the sign of the dividend. */
  function JsRem(a: int, b: int): (r: int)
    requires b > 0
    ensures a >= 0 ==> 0 <= r < b && (a / b) * b + r == a
    ensures a < 0 ==> -b < r <= 0 && a == -((-a) / b) * b + r
  {
    if a >= 0 then a % b else -((-a) % b)
  }

  /** The minutes and seconds shown for `timeLeft` (`Math.floor(t / 60)`,
      `t % 60`). For a non-negative time they split it exactly. */
  function Split(timeLeft: int): (r: (int, int))
    ensures timeLeft >= 0 ==> 0 <= r.1 < 60 && 0 <= r.0 && r.0 * 60 + r.1 == timeLeft
  {
    (timeLeft / 60, JsRem(timeLeft, 60))
  }

  /** The text shown for `timeLeft` seconds. For a non-negative time it is
      the minutes in at least two digits, a colon, and the seconds in
      exactly two digits below 60; and reading it back gives the time. */
  function FormatTime(timeLeft: int): (text: string)
    ensures timeLeft >= 0 ==>
              && |text| >= 5 && text[|text| - 3] == ':'
              && AllDigits(text[..|text| - 3]) && AllDigits(text[|text| - 2..])
              && Value(text[|text| - 2..]) < 60
              && ParseTime(text) == Some(timeLeft)
    ensures 0 <= timeLeft < 6000 ==> |text| == 5
  {
    var parts := Split(timeLeft);
    var text := PadStart2(IntToString(parts.0)) + ":" + PadStart2(IntToString(parts.1));
    if timeLeft >= 0 then
      Reads(timeLeft);
      if timeLeft < 6000 then
        TwoDigits(parts.0);
        text
      else
        text
    else
      text
  }

  // ---------------------------------------------------------------------
  // Reading the text back: the partner of FormatTime.

  predicate IsDigit(c: char)
  {
    '0' <= c <= '9'
  }

  predicate AllDigits(s: string)
  {
    forall i :: 0 <= i < |s| ==> IsDigit(s[i])
  }

  /** The number a string of decimal digits denotes (leading zeros allowed). */
  function Value(s: string): nat
    requires AllDigits(s)
  {
    if s == [] then 0 else Value(s[..|s| - 1]) * 10 + (s[|s| - 1] as int - '0' as int)
  }

  /** Reads `MM:SS` back into seconds: digits, a colon, and two digits. */
  function ParseTime(text: string): (r: Option<nat>)
  {
    if |text| >= 3 && text[|text| - 3] == ':'
       && AllDigits(text[..|text| - 3]) && AllDigits(text[|text| - 2..])
    then Some(Value(text[..|text| - 3]) * 60 + Value(text[|text| - 2..]))
    else None
  }

  /** Reading a number's digits back gives the number. */
  lemma {:induction false} DigitsValue(n: nat)
    ensures AllDigits(Digits(n)) && Value(Digits(n)) == n
    decreases n
  {
    var s := Digits(n);
    if n >= 10 {
      DigitsValue(n / 10);
      assert s[..|s| - 1] == Digits(n / 10);
    }
  }

  /** The digits of a number have no leading zero: zero is the single
      digit `0`, and a positive number's first digit is not `0`. */
  lemma {:induction false} CanonicalDigits(n: nat)
    ensures |Digits(n)| >= 1
    ensures n == 0 ==> Digits(n) == "0"
    ensures n > 0 ==> Digits(n)[0] != '0'
    decreases n
  {
    if n >= 10 {
      CanonicalDigits(n / 10);
    }
  }

  /** A string of zeros denotes zero. */
  lemma {:induction false} ZerosDenoteZero(z: string)
    requires forall i :: 0 <= i < |z| ==> z[i] == '0'
    ensures AllDigits(z) && Value(z) == 0
    decreases |z|
  {
    if z != [] {
      ZerosDenoteZero(z[..|z| - 1]);
    }
  }

  /** Leading zeros do not change the value of a digit string. */
  lemma {:induction false} PaddedValue(z: string, s: string)
    requires forall i :: 0 <= i < |z| ==> z[i] == '0'
    requires AllDigits(s)
    ensures AllDigits(z + s) && Value(z + s) == Value(s)
    decreases |s|
  {
    if s == [] {
      assert z + s == z;
      ZerosDenoteZero(z);
    } else {
      PaddedValue(z, s[..|s| - 1]);
      assert (z + s)[..|z + s| - 1] == z + s[..|s| - 1];
    }
  }

  /** A non-negative number's text, zero-padded, is at least two digits
      that denote the number. */
  lemma PadDigitsValue(n: nat)
    ensures var p := PadStart2(IntToString(n));
            && AllDigits(p) && Value(p) == n && |p| >= 2
  {
    var s := IntToString(n);
    if |s| == 1 {
      PaddedValue("0", s);
    }
  }

  /** A number below 100 has at most two digits, so padding gives exactly two. */
  lemma TwoDigits(n: nat)
    requires n < 100
    ensures |PadStart2(IntToString(n))| == 2
  {
    assert IntToString(n) == Digits(n);
    if n >= 10 {
      assert Digits(n / 10) == [DigitChar(n / 10)];
    }
  }

  /** Minutes text, a colon and a two-digit seconds text read back as
      minutes * 60 + seconds. */
  lemma ParseJoined(mm: string, ss: string)
    requires AllDigits(mm) && AllDigits(ss) && |mm| >= 2 && |ss| == 2
    ensures var text := mm + ":" + ss;
            && |text| >= 5 && text[|text| - 3] == ':'
            && text[..|text| - 3] == mm && text[|text| - 2..] == ss
            && ParseTime(text) == Some(Value(mm) * 60 + Value(ss))
  {
  }

  /** The text built for a non-negative time has the `MM:SS` shape and
      reads back as that time. */
  lemma Reads(timeLeft: nat)
    ensures var text := PadStart2(IntToString(Split(timeLeft).0)) + ":" + PadStart2(IntToString(Split(timeLeft).1));
            && |text| >= 5 && text[|text| - 3] == ':'
            && AllDigits(text[..|text| - 3]) && AllDigits(text[|text| - 2..])
            && Value(text[|text| - 2..]) < 60
            && ParseTime(text) == Some(timeLeft)
  {
    var m: nat := Split(timeLeft).0;
    var sec: nat := Split(timeLeft).1;
    var mm := PadStart2(IntToString(m));
    var ss := PadStart2(IntToString(sec));
    PadDigitsValue(m);
    PadDigitsValue(sec);
    TwoDigits(sec);
    ParseJoined(mm, ss);
    assert Value(mm) * 60 + Value(ss) == timeLeft;
  }
}
