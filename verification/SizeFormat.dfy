/** Human-readable file sizes (app/modules/reporting/service.py, format_bytes). The
    divisions are by 1024, which a float does exactly up to 2^53 bytes, so exact
    reals stand for the floats. */
module SizeFormat {
  import opened Prelude
  import opened Rounding
  import Decimal

  const UNITS: seq<string> := ["B", "KB", "MB", "GB", "TB"]
  const NOTHING: string := "\U{2014}"

  /** The size of a unit in bytes. */
  function Bytes(unit: nat): int
    requires unit < 5
    ensures Bytes(unit) >= 1
  {
    if unit == 0 then 1
    else if unit == 1 then 1024
    else if unit == 2 then 1_048_576
    else if unit == 3 then 1_073_741_824
    else 1_099_511_627_776
  }

  /** The largest unit not above n, at least bytes and at most terabytes. */
  function UnitOf(n: int): (u: nat)
    ensures u < 5
    ensures u == 0 || Bytes(u) <= n
    ensures u == 4 || n < Bytes(u + 1)
  {
    if n < Bytes(1) then 0
    else if n < Bytes(2) then 1
    else if n < Bytes(3) then 2
    else if n < Bytes(4) then 3
    else 4
  }

  /** `n` bytes in tenths of a unit, as one decimal shows them. */
  function Tenths(n: int, unit: nat): int
    requires unit < 5
  {
    RoundHalfEven(n as real / Bytes(unit) as real * 10.0)
  }

  function PrintInt(n: int): string {
    if n < 0 then "-" + Decimal.Print(-n) else Decimal.Print(n)
  }

  function PrintTenths(t: nat): string {
    Decimal.Print(t / 10) + "." + [Decimal.Digit(t % 10)]
  }

  lemma TenthsPositive(n: int, unit: nat)
    requires unit < 5 && Bytes(unit) <= n
    ensures Tenths(n, unit) >= 10
  {
    var p := Bytes(unit);
    assert n as real / p as real >= 1.0;
  }

  /** The text for a size: its largest unit, and one decimal except for bytes. */
  function Text(num: Option<int>): string {
    if num.None? || num.value == 0 then NOTHING
    else
      var u := UnitOf(num.value);
      if u == 0 then PrintInt(num.value) + " B"
      else
        TenthsPositive(num.value, u);
        PrintTenths(Tenths(num.value, u)) + " " + UNITS[u]
  }

  /** Divides by 1024 until the value is below 1024 or the units run out. */
  method FormatBytes(num: Option<int>) returns (s: string)
    ensures s == Text(num)
  {
    if num.None? || num.value == 0 {
      return NOTHING;
    }
    var size := num.value as real;
    var unit := 0;
    while true
      invariant 0 <= unit < 5
      invariant size == num.value as real / Bytes(unit) as real
      invariant unit == 0 || Bytes(unit) <= num.value
      decreases 5 - unit
    {
      Scaled(num.value, unit);
      if size < 1024.0 || unit == 4 {
        assert unit == UnitOf(num.value);
        if unit != 0 {
          TenthsPositive(num.value, unit);
          return PrintTenths(RoundHalfEven(size * 10.0)) + " " + UNITS[unit];
        }
        return PrintInt(size.Floor) + " " + UNITS[unit];
      }
      size := size / 1024.0;
      unit := unit + 1;
    }
  }

  /** A value is below 1024 units exactly when it is below the next unit. */
  lemma Scaled(n: int, unit: nat)
    requires unit < 5
    ensures var x := n as real / Bytes(unit) as real;
      unit < 4 ==> (x < 1024.0 <==> n < Bytes(unit + 1))
                   && x / 1024.0 == n as real / Bytes(unit + 1) as real
  {
    if unit < 4 {
      assert Bytes(unit + 1) == Bytes(unit) * 1024;
      assert Bytes(unit + 1) as real == Bytes(unit) as real * 1024.0;
    }
  }

  // --- What the text means ---------------------------------------------------------------

  /** The number of bytes the text stands for. */
  function Represented(n: int): real {
    var u := UnitOf(n);
    if u == 0 then n as real else Tenths(n, u) as real / 10.0 * Bytes(u) as real
  }

  /** The shown value is within a twentieth of a unit of the size. */
  lemma ShownIsClose(n: int)
    ensures var u := UnitOf(n);
      -(Bytes(u) as real) / 20.0 <= Represented(n) - n as real <= Bytes(u) as real / 20.0
  {
    var u := UnitOf(n);
    var p := Bytes(u) as real;
    if u != 0 {
      var x := n as real / p * 10.0;
      RoundIsNear(x);
      var d := Tenths(n, u) as real - x;
      assert x / 10.0 * p == n as real;
      assert Represented(n) - n as real == d / 10.0 * p;
      Bounded(d, p);
    }
  }

  lemma Bounded(d: real, p: real)
    requires -0.5 <= d <= 0.5 && p >= 0.0
    ensures -p / 20.0 <= d / 10.0 * p <= p / 20.0
  {
    assert (0.5 - d) * p >= 0.0;
    assert (d + 0.5) * p >= 0.0;
  }

  /** A size below the next unit is never shown as more than that unit. */
  lemma ShownBelowNextUnit(n: int)
    requires UnitOf(n) < 4
    ensures Represented(n) <= Bytes(UnitOf(n) + 1) as real
  {
    var u := UnitOf(n);
    if u != 0 {
      Scaled(n, u);
      RoundIsMonotone(n as real / Bytes(u) as real * 10.0, 10240.0);
      assert Tenths(n, u) as real / 10.0 <= 1024.0;
      assert Bytes(u + 1) as real == Bytes(u) as real * 1024.0;
    }
  }

  lemma ShownAtLeastUnit(n: int)
    requires UnitOf(n) > 0
    ensures Represented(n) >= Bytes(UnitOf(n)) as real
  {
    var u := UnitOf(n);
    TenthsPositive(n, u);
    assert Tenths(n, u) as real / 10.0 >= 1.0;
  }

  lemma UnitsInOrder(a: nat, b: nat)
    requires a <= b < 5
    ensures Bytes(a) <= Bytes(b)
  {
  }

  /** A larger size is never shown as a smaller one, also across a unit boundary,
      where rounding can reach "1024.0 KB" just below "1.0 MB". */
  lemma ShownIsMonotone(a: int, b: int)
    requires a <= b
    ensures Represented(a) <= Represented(b)
  {
    var u, v := UnitOf(a), UnitOf(b);
    if u == v {
      if u != 0 {
        var p := Bytes(u) as real;
        assert a as real / p <= b as real / p;
        RoundIsMonotone(a as real / p * 10.0, b as real / p * 10.0);
        assert Tenths(a, u) as real / 10.0 <= Tenths(b, u) as real / 10.0;
      }
    } else {
      assert u < v;
      UnitsInOrder(u + 1, v);
      ShownBelowNextUnit(a);
      ShownAtLeastUnit(b);
    }
  }

  /** The boundary case: one byte short of a megabyte reads "1024.0 KB". */
  lemma JustBelowMegabyte()
    ensures Tenths(1_048_575, UnitOf(1_048_575)) == 10240 && Represented(1_048_575) == Represented(1_048_576)
  {
  }

  // --- The text itself --------------------------------------------------------------------

  /** Each unit is 1024 of the one before. */
  lemma UnitSizes()
    ensures Bytes(0) == 1 && forall u | 0 <= u < 4 :: Bytes(u + 1) == 1024 * Bytes(u)
  {
  }

  lemma PointAndDigit(p: string, d: char)
    requires d != '.' && d != ','
    ensures Decimal.DigitsOf(p + "." + [d]) == Decimal.DigitsOf(p) + [d]
  {
    assert p + "." == p + ['.'];
    Decimal.DigitsAppend(p, '.');
    Decimal.DigitsAppend(p + ".", d);
  }

  lemma TenthsDigits(t: nat)
    ensures Decimal.DigitsOf(PrintTenths(t)) == Decimal.Print(t / 10) + [Decimal.Digit(t % 10)]
  {
    Decimal.PrintIsDigits(t / 10);
    PointAndDigit(Decimal.Print(t / 10), Decimal.Digit(t % 10));
  }

  /** Tenths are shown with one decimal, and read back as the same number of tenths. */
  lemma TenthsReadBack(t: nat)
    ensures var s := PrintTenths(t);
      && |s| >= 3 && s[|s| - 2] == '.' && Decimal.Parse(Decimal.DigitsOf(s)) == t
  {
    TenthsDigits(t);
    Decimal.ParseAppend(Decimal.Print(t / 10), t % 10);
    Decimal.ParsePrint(t / 10);
  }

  /** The whole text, range by range. */
  lemma TextByRange(n: int)
    ensures Text(None) == "\U{2014}" && Text(Some(0)) == "\U{2014}"
    ensures n != 0 && n < 1024 ==> Text(Some(n)) == PrintInt(n) + " B"
    ensures 1024 <= n < 1_048_576 ==> Tenths(n, 1) >= 10 && Text(Some(n)) == PrintTenths(Tenths(n, 1)) + " KB"
    ensures 1_048_576 <= n < 1_073_741_824 ==> Tenths(n, 2) >= 10 && Text(Some(n)) == PrintTenths(Tenths(n, 2)) + " MB"
    ensures 1_073_741_824 <= n < 1_099_511_627_776 ==>
              Tenths(n, 3) >= 10 && Text(Some(n)) == PrintTenths(Tenths(n, 3)) + " GB"
    ensures 1_099_511_627_776 <= n ==> Tenths(n, 4) >= 10 && Text(Some(n)) == PrintTenths(Tenths(n, 4)) + " TB"
  {
    if n >= 1024 {
      TenthsPositive(n, UnitOf(n));
    }
    assert " " + UNITS[0] == " B" && " " + UNITS[1] == " KB" && " " + UNITS[2] == " MB";
    assert " " + UNITS[3] == " GB" && " " + UNITS[4] == " TB";
  }
}
