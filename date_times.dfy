/**
 * Points in time as Python `datetime` fields, and the two `strftime`
 * formats the core renders: `%Y%m%d_%H%M%S` for file names and
 * `%d.%m.%Y %H:%M` for the report header. The clock itself is not modelled:
 * callers pass the time in.
 */
module DateTimes {
  import Text

  datatype DateTime = DateTime(year: nat, month: nat, day: nat, hour: nat, minute: nat, second: nat)

  /** The ranges a Python `datetime` guarantees for its fields. */
  predicate Valid(t: DateTime)
  {
    1 <= t.year <= 9999 && 1 <= t.month <= 12 && 1 <= t.day <= 31 &&
    t.hour < 24 && t.minute < 60 && t.second < 60
  }

  function Zeros(n: nat): (r: string)
    ensures |r| == n && forall i :: 0 <= i < n ==> r[i] == '0'
  {
    if n == 0 then "" else "0" + Zeros(n - 1)
  }

  /** The decimal digits of `n`, with leading zeros up to `width` characters. */
  function ZeroPad(n: nat, width: nat): (r: string)
    ensures forall i :: 0 <= i < |r| ==> Text.IsDigit(r[i])
  {
    var s := Text.NatToString(n);
    if |s| >= width then s else Zeros(width - |s|) + s
  }

  /** Leading zeros do not change the number a digit string denotes. */
  lemma {:induction false} LeadingZeros(z: nat, s: string)
    requires forall i :: 0 <= i < |s| ==> Text.IsDigit(s[i])
    ensures Text.DecimalValue(Zeros(z) + s) == Text.DecimalValue(s)
  {
    if s == [] {
      assert Zeros(z) + s == Zeros(z);
      AllZeros(z);
    } else {
      var init := s[..|s| - 1];
      assert (Zeros(z) + s)[..|Zeros(z) + s| - 1] == Zeros(z) + init;
      LeadingZeros(z, init);
    }
  }

  lemma {:induction false} AllZeros(z: nat)
    ensures Text.DecimalValue(Zeros(z)) == 0
  {
    if z > 0 {
      assert Zeros(z) == Zeros(z - 1) + "0" by { ZerosSnoc(z - 1); }
      assert Zeros(z)[..z - 1] == Zeros(z - 1);
      AllZeros(z - 1);
    }
  }

  lemma {:induction false} ZerosSnoc(n: nat)
    ensures Zeros(n + 1) == Zeros(n) + "0"
  {
    if n > 0 {
      ZerosSnoc(n - 1);
    }
  }

  /** A number below `10^width` pads to exactly `width` digits that read back as the number. */
  lemma ZeroPadFits(n: nat, width: nat)
    requires 1 <= width <= 4
    requires n < Pow10(width)
    ensures |ZeroPad(n, width)| == width
    ensures Text.DecimalValue(ZeroPad(n, width)) == n
  {
    var s := Text.NatToString(n);
    DigitCount(n, width);
    Text.NatToStringRoundTrip(n);
    if |s| < width {
      LeadingZeros(width - |s|, s);
    }
  }

  function Pow10(k: nat): nat
  {
    if k == 0 then 1 else 10 * Pow10(k - 1)
  }

  lemma {:induction false} DigitCount(n: nat, width: nat)
    requires 1 <= width && n < Pow10(width)
    ensures |Text.NatToString(n)| <= width
  {
    if n >= 10 {
      DigitCount(n / 10, width - 1);
    }
  }

  /** `t.strftime("%Y%m%d_%H%M%S")`. */
  function Compact(t: DateTime): string
  {
    ZeroPad(t.year, 4) + ZeroPad(t.month, 2) + ZeroPad(t.day, 2) + "_" +
    ZeroPad(t.hour, 2) + ZeroPad(t.minute, 2) + ZeroPad(t.second, 2)
  }

  /** `t.strftime("%d.%m.%Y %H:%M")`. */
  function Display(t: DateTime): string
  {
    ZeroPad(t.day, 2) + "." + ZeroPad(t.month, 2) + "." + ZeroPad(t.year, 4) + " " +
    ZeroPad(t.hour, 2) + ":" + ZeroPad(t.minute, 2)
  }

  /**
   * `c` is laid out as `YYYYMMDD_HHMMSS` for `t`: fifteen characters, `_`
   * at index 8 and digits elsewhere, each field of `t` at its fixed position.
   */
  predicate CompactReadsBack(c: string, t: DateTime)
  {
    |c| == 15 && c[8] == '_' &&
    (forall i :: 0 <= i < 15 && i != 8 ==> Text.IsDigit(c[i])) &&
    Text.DecimalValue(c[0..4]) == t.year && Text.DecimalValue(c[4..6]) == t.month &&
    Text.DecimalValue(c[6..8]) == t.day && Text.DecimalValue(c[9..11]) == t.hour &&
    Text.DecimalValue(c[11..13]) == t.minute && Text.DecimalValue(c[13..15]) == t.second
  }

  /**
   * The compact stamp is `YYYYMMDD_HHMMSS`: fifteen characters, an underscore
   * at index 8 and digits elsewhere, and each field reads back from its
   * fixed position.
   */
  lemma CompactLayout(t: DateTime)
    requires Valid(t)
    ensures CompactReadsBack(Compact(t), t)
  {
    ZeroPadFits(t.year, 4);
    ZeroPadFits(t.month, 2);
    ZeroPadFits(t.day, 2);
    ZeroPadFits(t.hour, 2);
    ZeroPadFits(t.minute, 2);
    ZeroPadFits(t.second, 2);
    StampLayout(ZeroPad(t.year, 4), ZeroPad(t.month, 2), ZeroPad(t.day, 2),
      ZeroPad(t.hour, 2), ZeroPad(t.minute, 2), ZeroPad(t.second, 2), t);
  }

  /** Six digit fields of the right widths, laid out `YYYYMMDD_HHMMSS`, read back as `t`. */
  lemma StampLayout(y: string, mo: string, d: string, h: string, mi: string, se: string, t: DateTime)
    requires |y| == 4 && |mo| == 2 && |d| == 2 && |h| == 2 && |mi| == 2 && |se| == 2
    requires forall i :: 0 <= i < |y| ==> Text.IsDigit(y[i])
    requires forall i :: 0 <= i < 2 ==> Text.IsDigit(mo[i]) && Text.IsDigit(d[i])
    requires forall i :: 0 <= i < 2 ==> Text.IsDigit(h[i]) && Text.IsDigit(mi[i]) && Text.IsDigit(se[i])
    requires Text.DecimalValue(y) == t.year && Text.DecimalValue(mo) == t.month && Text.DecimalValue(d) == t.day
    requires Text.DecimalValue(h) == t.hour && Text.DecimalValue(mi) == t.minute && Text.DecimalValue(se) == t.second
    ensures CompactReadsBack(y + mo + d + "_" + h + mi + se, t)
  {
    var c := y + mo + d + "_" + h + mi + se;
    forall i | 0 <= i < 15 && i != 8 ensures Text.IsDigit(c[i]) {
      if i < 4 { assert c[i] == y[i]; }
      else if i < 6 { assert c[i] == mo[i - 4]; }
      else if i < 8 { assert c[i] == d[i - 6]; }
      else if i < 11 { assert c[i] == h[i - 9]; }
      else if i < 13 { assert c[i] == mi[i - 11]; }
      else { assert c[i] == se[i - 13]; }
    }
    assert c[0..4] == y;
    assert c[4..6] == mo;
    assert c[6..8] == d;
    assert c[9..11] == h;
    assert c[11..13] == mi;
    assert c[13..15] == se;
  }

}
