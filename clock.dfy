/** The voice-call clock face: `formatTime` turns elapsed whole seconds into
    `MM:SS`, minutes and seconds each rendered by `toString()` and left-padded
    with '0' to width 2. `ParseClock` reads such a face back. */
module Clock {

  datatype Option<T> = None | Some(value: T)

  predicate IsDigit(c: char) {
    '0' <= c <= '9'
  }

  predicate AllDigits(s: string) {
    forall i :: 0 <= i < |s| ==> IsDigit(s[i])
  }

  function DigitChar(d: nat): (c: char)
    requires d < 10
    ensures IsDigit(c) && c as int - '0' as int == d
  {
    ('0' as int + d) as char
  }

  function DigitValue(c: char): nat
    requires IsDigit(c)
  {
    c as int - '0' as int
  }

  /** `n.toString()` for a non-negative integer: its decimal digits, most
      significant first, with no leading zero. */
  function Decimal(n: nat): (r: string)
    ensures |r| >= 1 && AllDigits(r)
    ensures |r| > 1 ==> r[0] != '0'
  {
    if n < 10 then [DigitChar(n)] else Decimal(n / 10) + [DigitChar(n % 10)]
  }

  /** The number a string of decimal digits denotes. */
  function Value(s: string): nat
    requires AllDigits(s)
  {
    if s == [] then 0 else Value(s[..|s| - 1]) * 10 + DigitValue(s[|s| - 1])
  }

  /** Reading back what `toString()` wrote gives the number again. */
  lemma {:induction false} DecimalValue(n: nat)
    ensures Value(Decimal(n)) == n
  {
    if n >= 10 {
      var d := Decimal(n);
      assert d[..|d| - 1] == Decimal(n / 10);
      DecimalValue(n / 10);
    }
  }

  /** One digit below ten, at most two below a hundred, three or more from a
      hundred on. */
  lemma {:induction false} DecimalLength(n: nat)
    ensures |Decimal(n)| == 1 <==> n < 10
    ensures |Decimal(n)| <= 2 <==> n < 100
  {
    if n >= 10 {
      DecimalLength(n / 10);
    }
  }

  /** `n` copies of `c`. */
  function Repeat(c: char, n: nat): (r: string)
    ensures |r| == n
    ensures forall i :: 0 <= i < n ==> r[i] == c
  {
    if n == 0 then [] else [c] + Repeat(c, n - 1)
  }

  /** `s.padStart(width, fill)` for a one-character `fill`: `s` is kept as the
      tail and the front is filled up to `width` characters. */
  function PadStart(s: string, width: nat, fill: char): (r: string)
    ensures |r| == if |s| < width then width else |s|
    ensures r[|r| - |s|..] == s
    ensures forall i :: 0 <= i < |r| - |s| ==> r[i] == fill
  {
    if |s| >= width then s else Repeat(fill, width - |s|) + s
  }

  /** A leading zero does not change what a digit string denotes. */
  lemma {:induction false} LeadingZeroValue(s: string)
    requires AllDigits(s)
    ensures AllDigits(['0'] + s) && Value(['0'] + s) == Value(s)
  {
    if s != [] {
      var z := ['0'] + s;
      assert z[..|z| - 1] == ['0'] + s[..|s| - 1];
      LeadingZeroValue(s[..|s| - 1]);
    }
  }

  /** Any number of leading zeros leaves the digits and their value. */
  lemma {:induction false} LeadingZerosValue(s: string, k: nat)
    requires AllDigits(s)
    ensures AllDigits(Repeat('0', k) + s) && Value(Repeat('0', k) + s) == Value(s)
  {
    if k > 0 {
      var t := Repeat('0', k - 1) + s;
      LeadingZerosValue(s, k - 1);
      assert Repeat('0', k) + s == ['0'] + t;
      LeadingZeroValue(t);
    } else {
      assert Repeat('0', k) + s == s;
    }
  }

  /** Zero-padding keeps the digits and what they denote. */
  lemma ZeroPadValue(s: string, width: nat)
    requires AllDigits(s)
    ensures AllDigits(PadStart(s, width, '0'))
    ensures Value(PadStart(s, width, '0')) == Value(s)
  {
    if |s| < width {
      LeadingZerosValue(s, width - |s|);
    }
  }

  /** Two-digit field of the clock face. */
  function Pad2(n: nat): string {
    PadStart(Decimal(n), 2, '0')
  }

  /** `formatTime(seconds)`: whole minutes (`Math.floor(seconds / 60)`), a
      colon, the remaining seconds (`seconds % 60`), each padded to two. */
  function FormatTime(seconds: nat): string {
    Pad2(seconds / 60) + ":" + Pad2(seconds % 60)
  }

  /** Everything before the colon of a face. */
  function MinutePart(face: string): string
    requires |face| >= 3
  {
    face[..|face| - 3]
  }

  /** The two characters after the colon of a face. */
  function SecondPart(face: string): string
    requires |face| >= 2
  {
    face[|face| - 2..]
  }

  /** A well-formed clock face: at least two minute digits, a colon, and
      exactly two second digits denoting less than 60. */
  predicate IsFace(face: string) {
    |face| >= 5 && face[|face| - 3] == ':' && AllDigits(MinutePart(face))
    && AllDigits(SecondPart(face)) && Value(SecondPart(face)) < 60
  }

  /** Reads a clock face back into seconds. */
  function FaceSeconds(face: string): nat
    requires IsFace(face)
  {
    Value(MinutePart(face)) * 60 + Value(SecondPart(face))
  }

  /** Reads any string as a clock face, if it is one. */
  function ParseClock(face: string): Option<nat> {
    if IsFace(face) then Some(FaceSeconds(face)) else None
  }

  /** A two-digit field: digits only, denoting `n`, two characters below 100
      and as many as `toString()` gives from 100 on. */
  lemma Pad2Facts(n: nat)
    ensures AllDigits(Pad2(n)) && Value(Pad2(n)) == n
    ensures |Pad2(n)| == if n < 100 then 2 else |Decimal(n)|
    ensures |Pad2(n)| == 2 <==> n < 100
  {
    DecimalLength(n);
    ZeroPadValue(Decimal(n), 2);
    DecimalValue(n);
  }

  /** Where the colon of a face `m + ":" + s` with a two-character second
      field sits, and what lies either side of it. */
  lemma FaceSplit(m: string, s: string)
    requires |s| == 2
    ensures var face := m + ":" + s;
      |face| == |m| + 3 && face[|m|] == ':' && MinutePart(face) == m && SecondPart(face) == s
  {
    var face := m + ":" + s;
    assert face[..|m|] == m;
    assert face[|m| + 1..] == s;
  }

  /** The clock face is well formed; its minute field is the padded whole
      minutes and its second field the padded remaining seconds, denoting
      `seconds / 60` and `seconds % 60`. */
  lemma FormatTimeFields(seconds: nat)
    ensures IsFace(FormatTime(seconds))
    ensures MinutePart(FormatTime(seconds)) == Pad2(seconds / 60)
    ensures SecondPart(FormatTime(seconds)) == Pad2(seconds % 60)
    ensures Value(MinutePart(FormatTime(seconds))) == seconds / 60
    ensures Value(SecondPart(FormatTime(seconds))) == seconds % 60
  {
    var q, r := seconds / 60, seconds % 60;
    var m, s := Pad2(q), Pad2(r);
    Pad2Facts(q);
    Pad2Facts(r);
    FaceSplit(m, s);
    assert FormatTime(seconds) == m + ":" + s;
  }

  /** Whole minutes and remaining seconds recombine into the seconds. */
  lemma DivMod60(seconds: nat, mins: nat, secs: nat)
    requires mins == seconds / 60 && secs == seconds % 60
    ensures mins * 60 + secs == seconds
  {
  }

  /** Reading the clock face back gives the elapsed seconds. */
  lemma FormatTimeReadsBack(seconds: nat)
    ensures IsFace(FormatTime(seconds)) && FaceSeconds(FormatTime(seconds)) == seconds
  {
    var face := FormatTime(seconds);
    FormatTimeFields(seconds);
    var mins, secs := Value(MinutePart(face)), Value(SecondPart(face));
    assert FaceSeconds(face) == mins * 60 + secs;
    DivMod60(seconds, mins, secs);
  }

  /** Parsing the clock face always succeeds with the elapsed seconds. */
  lemma FormatTimeRoundTrip(seconds: nat)
    ensures ParseClock(FormatTime(seconds)) == Some(seconds)
  {
    FormatTimeReadsBack(seconds);
  }

  /** The face is exactly five characters long for every call shorter than
      100 minutes, and longer from then on. */
  lemma FormatTimeLength(seconds: nat)
    ensures |FormatTime(seconds)| == 5 <==> seconds < 6000
  {
    var q, r := seconds / 60, seconds % 60;
    Pad2Facts(q);
    Pad2Facts(r);
    assert |FormatTime(seconds)| == |Pad2(q)| + 3;
    assert q < 100 <==> seconds < 6000;
  }

  /** 65 seconds show as "01:05". */
  lemma FormatTimeExample()
    ensures FormatTime(65) == "01:05"
  {
    assert 65 / 60 == 1 && 65 % 60 == 5;
    assert DigitChar(1) == '1' && DigitChar(5) == '5';
    assert Decimal(1) == "1" && Decimal(5) == "5";
    assert Repeat('0', 1) == "0";
    assert Pad2(1) == PadStart("1", 2, '0') == "01";
    assert Pad2(5) == PadStart("5", 2, '0') == "05";
    assert FormatTime(65) == Pad2(1) + ":" + Pad2(5);
  }
}
