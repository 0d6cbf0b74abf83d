/** The string conversions the projection applies to field values: the
    `HH:MM` to `HHMM` time format, `Number.prototype.toString` on integers
    and `Boolean.prototype.toString`. */
module Text {

  /** Index of the first `c` in `s`, or `|s|` when there is none. */
  function FirstIndex(s: string, c: char): (k: nat)
    ensures k <= |s|
    ensures forall i :: 0 <= i < k ==> s[i] != c
    ensures k < |s| ==> s[k] == c
    ensures k == |s| <==> c !in s
  {
    if |s| == 0 then 0
    else if s[0] == c then 0
    else 1 + FirstIndex(s[1..], c)
  }

  /** `time_string.replace(":", "")`: a string pattern makes JavaScript's
      `replace` remove the first occurrence only. */
  function FormatTimeHhmm(t: string): (r: string)
    ensures ':' !in t ==> r == t
    ensures ':' in t ==> r == t[..FirstIndex(t, ':')] + t[FirstIndex(t, ':') + 1..]
  {
    if |t| == 0 then t
    else if t[0] == ':' then t[1..]
    else
      var rest := FormatTimeHhmm(t[1..]);
      assert ':' in t ==> FirstIndex(t, ':') == 1 + FirstIndex(t[1..], ':');
      [t[0]] + rest
  }

  /** Exactly one colon goes, when there is one, and nothing else. */
  lemma {:induction false} FormatTimeRemovesOneColon(t: string)
    ensures ':' in t ==> |FormatTimeHhmm(t)| == |t| - 1
    ensures ':' in t ==> multiset(FormatTimeHhmm(t)) == multiset(t) - multiset{':'}
    ensures ':' !in t ==> FormatTimeHhmm(t) == t
  {
    if ':' in t {
      var k := FirstIndex(t, ':');
      assert t == t[..k] + [t[k]] + t[k + 1..];
      assert multiset(t) == multiset(t[..k]) + multiset{':'} + multiset(t[k + 1..]);
    }
  }

  /** A time written `hh:mm` becomes `hhmm`, whatever `mm` holds: a second
      colon, in `mm`, is kept. */
  lemma FormatTimeOfHourMinute(hh: string, mm: string)
    requires ':' !in hh
    ensures FormatTimeHhmm(hh + ":" + mm) == hh + mm
  {
    var t := hh + ":" + mm;
    assert t[|hh|] == ':';
    assert forall i :: 0 <= i < |hh| ==> t[i] == hh[i];
    assert FirstIndex(t, ':') == |hh|;
    assert t[..|hh|] == hh;
    assert t[|hh| + 1..] == mm;
  }

  /** A store time as it is stored, and as the catalog carries it. */
  lemma FormatTimeExample()
    ensures FormatTimeHhmm("09:30") == "0930"
  {
    var hh, mm := "09", "30";
    FormatTimeOfHourMinute(hh, mm);
    assert hh + ":" + mm == "09:30";
    assert hh + mm == "0930";
  }

  predicate IsDigit(c: char) {
    '0' <= c <= '9'
  }

  function DigitChar(d: nat): (c: char)
    requires d < 10
    ensures IsDigit(c)
  {
    ('0' as int + d) as char
  }

  function DigitValue(c: char): (d: nat)
    requires IsDigit(c)
    ensures d < 10
  {
    c as int - '0' as int
  }

  /** The decimal numeral of `n`, with no leading zero. */
  function NatToDecimal(n: nat): (s: string)
    ensures |s| >= 1
    ensures forall i :: 0 <= i < |s| ==> IsDigit(s[i])
    ensures |s| > 1 ==> s[0] != '0'
    decreases n
  {
    if n < 10 then [DigitChar(n)] else NatToDecimal(n / 10) + [DigitChar(n % 10)]
  }

  /** The value of a string of decimal digits. */
  function DecimalValue(s: string): nat
    requires forall i :: 0 <= i < |s| ==> IsDigit(s[i])
  {
    if |s| == 0 then 0 else 10 * DecimalValue(s[..|s| - 1]) + DigitValue(s[|s| - 1])
  }

  lemma {:induction false} DecimalRoundTrip(n: nat)
    ensures DecimalValue(NatToDecimal(n)) == n
    decreases n
  {
    var s := NatToDecimal(n);
    if n >= 10 {
      DecimalRoundTrip(n / 10);
      assert s[..|s| - 1] == NatToDecimal(n / 10);
    }
  }

  /** `Number.prototype.toString` on an integer (a safe integer, which the
      counts, sequence numbers and day numbers of the catalog are). */
  function IntToDecimal(i: int): string {
    if i < 0 then "-" + NatToDecimal(-i) else NatToDecimal(i)
  }

  /** Distinct naturals never render alike. */
  lemma {:induction false} NatToDecimalInjective(a: nat, b: nat)
    requires NatToDecimal(a) == NatToDecimal(b)
    ensures a == b
  {
    DecimalRoundTrip(a);
    DecimalRoundTrip(b);
  }

  /** Distinct numbers never render alike, so ids built from them stay apart. */
  lemma {:induction false} IntToDecimalInjective(a: int, b: int)
    requires IntToDecimal(a) == IntToDecimal(b)
    ensures a == b
  {
    var s := IntToDecimal(a);
    if a < 0 && b < 0 {
      assert NatToDecimal(-a) == s[1..] == NatToDecimal(-b);
      NatToDecimalInjective(-a, -b);
    } else if a >= 0 && b >= 0 {
      NatToDecimalInjective(a, b);
    }
  }

  /** `Boolean.prototype.toString`. */
  function BoolText(b: bool): string {
    if b then "true" else "false"
  }
}
