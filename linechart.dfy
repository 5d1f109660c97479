/** The line chart's y-axis: the largest data value is printed, as a percentage or in a
    short form with a "K" or "M" suffix, and the axis is made wide enough for that text. */
module LineChart {
  import opened Text
  import opened Numbers

  datatype ChartDataItem = ChartDataItem(value: real)

  /** `Math.max(...data.map(item => item.value))`: `-Infinity` for no data. */
  function MaxValue(data: seq<ChartDataItem>): (m: Num)
    ensures data == [] ==> m == Infinite(true)
    ensures data != [] ==> m.Finite?
    ensures data != [] ==> exists i :: 0 <= i < |data| && data[i].value == m.value
    ensures data != [] ==> forall i :: 0 <= i < |data| ==> data[i].value <= m.value
  {
    if data == [] then Infinite(true)
    else
      var rest := MaxValue(data[1..]);
      if rest.Finite? && rest.value > data[0].value then
        assert forall i :: 1 <= i < |data| ==> data[i] == data[1..][i - 1];
        rest
      else
        assert forall i :: 1 <= i < |data| ==> data[i] == data[1..][i - 1];
        Finite(data[0].value)
  }

  /** `value >= bound` */
  predicate AtLeast(n: Num, bound: real) {
    match n
    case Finite(x) => x >= bound
    case NaN => false
    case Infinite(negative) => !negative
  }

  function Over(n: Num, d: real): Num
    requires d > 0.0
  {
    match n
    case Finite(x) => Finite(x / d)
    case _ => n
  }

  /** `Math.round(value / 1000 * 10) / 10`: thousands to one decimal place. */
  function Thousands(x: real): real {
    Round(x / 100.0) as real / 10.0
  }

  /** `formatNumber(value)`; `show` prints a finite number the way `String` does. */
  function FormatNumber(n: Num, show: real -> string): (r: string)
    ensures AtLeast(n, 100000.0) ==> r == ToFixed(Over(n, 1000000.0), 1) + "M"
    ensures !AtLeast(n, 100000.0) && AtLeast(n, 1000.0) ==> n.Finite? && r == show(Thousands(n.value)) + "K"
    ensures !AtLeast(n, 1000.0) ==> r == Show(n, show)
  {
    if AtLeast(n, 100000.0) then ToFixed(Over(n, 1000000.0), 1) + "M"
    else if AtLeast(n, 1000.0) then Show(Finite(Thousands(n.value)), show) + "K"
    else Show(n, show)
  }

  /** A value of a hundred thousand or more prints as its count of millions to one place,
      then "M". */
  lemma MillionsText(x: real, millions: real, show: real -> string)
    requires x >= 100000.0 && x == millions * 1000000.0
    ensures FormatNumber(Finite(x), show) == ToFixed(Finite(millions), 1) + "M"
  {
    assert AtLeast(Finite(x), 100000.0);
    assert x / 1000000.0 == millions;
  }

  /** Such a label is at least four characters long and ends in "M", and the numeral before
      the "M" reads back as the count of millions rounded to one place. */
  lemma MillionsReadBack(x: real, millions: real, show: real -> string)
    requires x >= 100000.0 && x == millions * 1000000.0
    ensures |FormatNumber(Finite(x), show)| >= 4 && EndsWith(FormatNumber(Finite(x), show), "M")
    ensures exists t :: FormatNumber(Finite(x), show) == t + "M"
                        && ParseFloat(t) == Finite(RoundedTo(millions, 1))
  {
    MillionsText(x, millions, show);
    var t := ToFixed(Finite(millions), 1);
    var r := t + "M";
    assert r[|r| - 1..] == "M";
    ToFixedParsesBack(millions, 1);
  }

  /** The thousands shown are the value in thousands within half a tenth, between 1 and
      100. */
  lemma ThousandsClose(x: real)
    requires 1000.0 <= x < 100000.0
    ensures -0.05 <= Thousands(x) - x / 1000.0 <= 0.05
    ensures 1.0 <= Thousands(x) <= 100.0
  {
    var k := Round(x / 100.0);
    assert x / 100.0 - 0.5 < k as real <= x / 100.0 + 0.5;
    assert 10 <= k <= 1000;
  }

  /** The axis width for a label of `len` characters: `len` times 11, 13 or 9. */
  function Multiplier(len: nat): (m: nat)
    ensures m == 11 <==> len == 2
    ensures m == 13 <==> len == 3
    ensures m == 9 <==> len != 2 && len != 3
  {
    if len == 2 then 11 else if len == 3 then 13 else 9
  }

  /** The text the axis is sized for. */
  function FormattedMax(max: Num, isPercentage: bool, show: real -> string): (f: string)
    ensures isPercentage ==> f == Show(max, show) + "%"
    ensures !isPercentage ==> f == FormatNumber(max, show)
  {
    if isPercentage then Show(max, show) + "%" else FormatNumber(max, show)
  }

  lemma MultiplierBounds(n: nat)
    ensures 9 * n <= n * Multiplier(n) <= 13 * n
  {
  }

  /** `calculateYAxisWidth(data, isPercentage)` */
  function YAxisWidth(data: seq<ChartDataItem>, isPercentage: bool, show: real -> string): (w: nat)
    ensures var f := FormattedMax(MaxValue(data), isPercentage, show);
            w == |f| * Multiplier(|f|) && 9 * |f| <= w <= 13 * |f|
  {
    var f := FormattedMax(MaxValue(data), isPercentage, show);
    MultiplierBounds(|f|);
    |f| * Multiplier(|f|)
  }

  /** The values the chart plots. */
  function Values(data: seq<ChartDataItem>): set<real> {
    set i | 0 <= i < |data| :: data[i].value
  }

  /** Data plotting the same values, in any order and with any repetition, get the same
      axis. */
  lemma WidthOnlyFromValues(a: seq<ChartDataItem>, b: seq<ChartDataItem>, isPercentage: bool, show: real -> string)
    requires Values(a) == Values(b)
    ensures YAxisWidth(a, isPercentage, show) == YAxisWidth(b, isPercentage, show)
  {
    if a != [] {
      assert a[0].value in Values(b);
    }
    if b != [] {
      assert b[0].value in Values(a);
    }
    var ma := MaxValue(a);
    var mb := MaxValue(b);
    if a != [] && b != [] {
      var i :| 0 <= i < |a| && a[i].value == ma.value;
      var j :| 0 <= j < |b| && b[j].value == mb.value;
      assert ma.value in Values(b);
      assert mb.value in Values(a);
      var j' :| 0 <= j' < |b| && b[j'].value == ma.value;
      var i' :| 0 <= i' < |a| && a[i'].value == mb.value;
      assert ma == mb;
    }
  }

  /** Without data the label is "-Infinity", nine characters nine wide; with the percent
      sign it is ten. */
  lemma EmptyWidth(show: real -> string)
    ensures YAxisWidth([], false, show) == 81
    ensures YAxisWidth([], true, show) == 90
  {
    assert FormattedMax(Infinite(true), false, show) == "-Infinity";
    assert FormattedMax(Infinite(true), true, show) == "-Infinity" + "%";
  }

  lemma MillionsLabelWidth(x: real, millions: real, show: real -> string)
    requires x >= 100000.0 && x == millions * 1000000.0
    ensures var n := |FormatNumber(Finite(x), show)|; n * Multiplier(n) == 9 * n
  {
    MillionsReadBack(x, millions, show);
    var n := |FormatNumber(Finite(x), show)|;
    assert Multiplier(n) == 9;
  }

  /** A largest value of a hundred thousand or more sizes the axis at 9 per character. */
  lemma MillionsWidth(data: seq<ChartDataItem>, show: real -> string)
    requires data != [] && MaxValue(data).value >= 100000.0
    ensures YAxisWidth(data, false, show) == 9 * |FormatNumber(MaxValue(data), show)|
  {
    var x := MaxValue(data).value;
    MillionsLabelWidth(x, x / 1000000.0, show);
  }
}
