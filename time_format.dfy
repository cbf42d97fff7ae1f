/** Elapsed-time values and their `M:SS` rendering (class `Time` of the
    birthday player component). A `Time` is never changed after it is
    built, so it is a value here. */
module TimeFormat {

  datatype Option<T> = None | Some(value: T)

  /** Minutes and seconds of elapsed playback. The component only ever
      builds them from `Math.floor` of a non-negative position, so both
      are natural numbers. */
  datatype Time = Time(minutes: nat, seconds: nat)

  predicate IsDigit(c: char) {
    '0' <= c <= '9'
  }

  predicate AllDigits(s: string) {
    forall i :: 0 <= i < |s| ==> IsDigit(s[i])
  }

  function DigitChar(d: nat): (c: char)
    requires d < 10
    ensures IsDigit(c) && c as int - '0' as int == d
  {
    ('0' as int + d) as char
  }

  function DigitValue(c: char): (d: nat)
    requires IsDigit(c)
    ensures d < 10
  {
    c as int - '0' as int
  }

  /** Decimal rendering of a natural number, as JavaScript's template
      literal `${n}` gives it for a non-negative integer below 2^53: no
      sign, no leading zero except for zero itself. */
  function Digits(n: nat): (r: string)
    ensures |r| >= 1 && AllDigits(r)
    ensures r[0] == '0' <==> n == 0
    ensures |r| == 1 <==> n < 10
    ensures |r| <= 2 <==> n < 100
    decreases n
  {
    if n < 10 then [DigitChar(n)] else Digits(n / 10) + [DigitChar(n % 10)]
  }

  /** The number a string of decimal digits denotes (leading zeros allowed). */
  function DigitsValue(s: string): nat
    requires AllDigits(s)
    decreases |s|
  {
    if s == [] then 0 else DigitsValue(s[..|s| - 1]) * 10 + DigitValue(s[|s| - 1])
  }

  /** Reading back a rendered number gives the number. */
  lemma {:induction false} DigitsRoundTrip(n: nat)
    ensures DigitsValue(Digits(n)) == n
    decreases n
  {
    var r := Digits(n);
    if n < 10 {
      assert r[..|r| - 1] == [];
    } else {
      assert r[..|r| - 1] == Digits(n / 10);
      DigitsRoundTrip(n / 10);
    }
  }

  /** A leading zero does not change the value of a digit string. */
  lemma {:induction false} LeadingZeroValue(s: string)
    requires AllDigits(s)
    ensures AllDigits("0" + s) && DigitsValue("0" + s) == DigitsValue(s)
    decreases |s|
  {
    var z := "0" + s;
    if s == [] {
      assert z[..|z| - 1] == [];
    } else {
      assert z[..|z| - 1] == "0" + s[..|s| - 1];
      LeadingZeroValue(s[..|s| - 1]);
    }
  }

  /** One side of the display: the number with a `0` in front when it is
      below ten, against which the four-branch `ToString` is proved equal. */
  function Pad(n: nat): string {
    if n < 10 then "0" + Digits(n) else Digits(n)
  }

  lemma PadProperties(n: nat)
    ensures AllDigits(Pad(n)) && |Pad(n)| >= 2
    ensures Pad(n)[0] == '0' <==> n < 10
    ensures |Pad(n)| == 2 <==> n < 100
    ensures DigitsValue(Pad(n)) == n
  {
    DigitsRoundTrip(n);
    if n < 10 {
      LeadingZeroValue(Digits(n));
    }
  }

  /** `Time.toString`, branch for branch: whichever branch is taken, the
      result is the padded minutes, a colon and the padded seconds. */
  function ToString(t: Time): (r: string)
    ensures r == Pad(t.minutes) + ":" + Pad(t.seconds)
  {
    if t.seconds < 10 && t.minutes < 10 then
      "0" + Digits(t.minutes) + ":0" + Digits(t.seconds)
    else if t.seconds < 10 then
      Digits(t.minutes) + ":0" + Digits(t.seconds)
    else if t.minutes < 10 then
      "0" + Digits(t.minutes) + ":" + Digits(t.seconds)
    else
      Digits(t.minutes) + ":" + Digits(t.seconds)
  }

  /** Position of the first `c` in `s`, or `|s|` when there is none. */
  function IndexOf(s: string, c: char): (i: nat)
    ensures i <= |s|
    ensures i < |s| ==> s[i] == c
    ensures forall j :: 0 <= j < i ==> s[j] != c
    decreases |s|
  {
    if s == [] then 0 else if s[0] == c then 0 else 1 + IndexOf(s[1..], c)
  }

  /** Reads a displayed time back: digits, one colon, digits. */
  function ParseTime(s: string): Option<Time> {
    var c := IndexOf(s, ':');
    if c == |s| then None
    else
      var mm, ss := s[..c], s[c + 1..];
      if mm != [] && ss != [] && AllDigits(mm) && AllDigits(ss)
      then Some(Time(DigitsValue(mm), DigitsValue(ss)))
      else None
  }

  /** The colon after the minutes is the only one in the output. */
  lemma ToStringLayout(t: Time)
    ensures IndexOf(ToString(t), ':') == |Pad(t.minutes)|
    ensures forall j :: |Pad(t.minutes)| < j < |ToString(t)| ==> ToString(t)[j] != ':'
  {
    var r := ToString(t);
    var m := Pad(t.minutes);
    PadProperties(t.minutes);
    PadProperties(t.seconds);
    assert forall j :: 0 <= j < |m| ==> r[j] == m[j] && r[j] != ':';
    assert r[|m|] == ':';
    assert forall j :: |m| < j < |r| ==> r[j] == Pad(t.seconds)[j - |m| - 1];
  }

  /** Each side of the colon carries a leading `0` exactly when its number
      is below ten. */
  lemma ToStringLeadingZeros(t: Time)
    ensures var r := ToString(t); var c := IndexOf(r, ':');
      c + 1 < |r| &&
      r[..c] == (if t.minutes < 10 then "0" else "") + Digits(t.minutes) &&
      r[c + 1..] == (if t.seconds < 10 then "0" else "") + Digits(t.seconds) &&
      (r[0] == '0' <==> t.minutes < 10) &&
      (r[c + 1] == '0' <==> t.seconds < 10)
  {
    ToStringLayout(t);
    PadProperties(t.minutes);
    PadProperties(t.seconds);
    var r := ToString(t);
    var c := |Pad(t.minutes)|;
    assert r[..c] == Pad(t.minutes);
    assert r[c + 1..] == Pad(t.seconds);
    assert r[c + 1] == Pad(t.seconds)[0];
  }

  /** Both sides are at least two characters; a side is exactly two
      characters when its number is below 100 (so always for seconds below
      60), and the whole display is five characters exactly when both are. */
  lemma ToStringLength(t: Time)
    ensures var r := ToString(t); var c := IndexOf(r, ':');
      c + 1 < |r| &&
      |r[..c]| >= 2 && |r[c + 1..]| >= 2 &&
      (|r[..c]| == 2 <==> t.minutes < 100) &&
      (|r[c + 1..]| == 2 <==> t.seconds < 100) &&
      (t.seconds < 60 ==> |r[c + 1..]| == 2) &&
      (|r| == 5 <==> t.minutes < 100 && t.seconds < 100)
  {
    ToStringLayout(t);
    PadProperties(t.minutes);
    PadProperties(t.seconds);
  }

  /** The display loses nothing: reading it back gives the same time. */
  lemma ToStringRoundTrip(t: Time)
    ensures ParseTime(ToString(t)) == Some(t)
  {
    ToStringLayout(t);
    PadProperties(t.minutes);
    PadProperties(t.seconds);
    var r := ToString(t);
    var c := |Pad(t.minutes)|;
    assert r[..c] == Pad(t.minutes);
    assert r[c + 1..] == Pad(t.seconds);
  }

  /** Two displayed times are equal only when the times are. */
  lemma ToStringInjective(t: Time, u: Time)
    requires ToString(t) == ToString(u)
    ensures t == u
  {
    ToStringRoundTrip(t);
    ToStringRoundTrip(u);
  }

  /** Sample renderings. */
  lemma ToStringExamples()
    ensures ToString(Time(3, 5)) == "03:05"
    ensures ToString(Time(12, 5)) == "12:05"
    ensures ToString(Time(3, 45)) == "03:45"
    ensures ToString(Time(12, 45)) == "12:45"
    ensures ToString(Time(1, 5)) == "01:05"
  {
  }
}
