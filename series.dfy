/**
 * Forecast frames: the `ds`/`yhat1` rows that the forecasting model returns
 * and that utili.py scales, rebases, cuts with `tail` and sums.
 */
module Series {
  import opened Wrappers

  /** A calendar month: the model's form of a month-start timestamp in column `ds`. */
  datatype Month = Month(year: int, month: int)

  /** One row of a frame: its date and its predicted value. */
  datatype Point = Point(ds: Month, yhat1: real)

  /** What can stop an estimate once validation has passed. */
  datatype EstimateError =
    | BadHorizon     // `months` is not a positive whole number of months
    | AnchorMissing  // no row is dated 2023-01: `.values[0]` raises IndexError
    | AnchorZero     // the anchor row's value is 0: the rebasing ratio is undefined
    | NullValue      // None is used as a factor: TypeError
    | NoMaterial     // no material block ran, so no frame supplies the `ds` column

  /** The `ds` column. */
  function Dates(rows: seq<Point>): (r: seq<Month>)
    ensures |r| == |rows|
    ensures forall i {:trigger r[i]} :: 0 <= i < |rows| ==> r[i] == rows[i].ds
  {
    seq(|rows|, i requires 0 <= i < |rows| => rows[i].ds)
  }

  /** The `yhat1` column. */
  function Values(rows: seq<Point>): (r: seq<real>)
    ensures |r| == |rows|
    ensures forall i :: 0 <= i < |rows| ==> r[i] == rows[i].yhat1
  {
    seq(|rows|, i requires 0 <= i < |rows| => rows[i].yhat1)
  }

  /** `frame.tail(n)`: the last n rows, or all of them when there are fewer. */
  function Tail<T>(s: seq<T>, n: nat): (r: seq<T>)
    ensures |r| == if n < |s| then n else |s|
    ensures n < |s| ==> forall i, j {:trigger r[i], s[j]} :: 0 <= i < n && j == |s| - n + i ==> r[i] == s[j]
    ensures |s| <= n ==> r == s
    decreases |s|
  {
    if |s| <= n then s else Tail(s[1..], n)
  }

  /** Row i of the last n elements is element j = |s| - n + i, when there are at least n. */
  lemma TailAt<T>(s: seq<T>, n: nat, i: nat, j: nat)
    requires n <= |s| && i < n && j == |s| - n + i
    ensures |Tail(s, n)| == n && Tail(s, n)[i] == s[j]
  {
  }

  /** The rows with every value multiplied by q, dates untouched. */
  function Scaled(rows: seq<Point>, q: real): (r: seq<Point>)
    ensures |r| == |rows| && Dates(r) == Dates(rows)
    ensures forall i :: 0 <= i < |rows| ==> r[i].yhat1 == rows[i].yhat1 * q
  {
    seq(|rows|, i requires 0 <= i < |rows| => Point(rows[i].ds, rows[i].yhat1 * q))
  }

  /** Cutting a tail and scaling commute. */
  lemma {:induction false} TailOfScaled(rows: seq<Point>, q: real, n: nat)
    ensures Tail(Scaled(rows, q), n) == Scaled(Tail(rows, n), q)
  {
    if n < |rows| {
      ScaledSlice(rows, q, 1);
      TailOfScaled(rows[1..], q, n);
    }
  }

  /** Dropping the first k rows and scaling commute. */
  lemma ScaledSlice(rows: seq<Point>, q: real, k: nat)
    requires k <= |rows|
    ensures Scaled(rows, q)[k..] == Scaled(rows[k..], q)
  {
    var a, b := Scaled(rows, q)[k..], Scaled(rows[k..], q);
    forall i | 0 <= i < |a|
      ensures a[i] == b[i]
    {
      ScaledAt(rows, q, k + i);
      ScaledAt(rows[k..], q, i);
    }
  }

  /** Dropping the first k rows drops the first k dates. */
  lemma DatesSlice(rows: seq<Point>, k: nat)
    requires k <= |rows|
    ensures Dates(rows[k..]) == Dates(rows)[k..]
  {
    var a, b := Dates(rows[k..]), Dates(rows)[k..];
    forall i | 0 <= i < |a|
      ensures a[i] == b[i]
    {
      assert a[i] == rows[k + i].ds;
    }
  }

  /** Row i of a scaled frame, written out. */
  lemma ScaledAt(rows: seq<Point>, q: real, i: nat)
    requires i < |rows|
    ensures Scaled(rows, q)[i] == Point(rows[i].ds, rows[i].yhat1 * q)
  {
  }

  /** A forecast frame that utili.py updates in place. */
  class Frame {
    var rows: seq<Point>

    constructor (rows: seq<Point>)
      ensures this.rows == rows
    {
      this.rows := rows;
    }

    /** `frame['yhat1'] *= q` */
    method ScaleBy(q: real)
      modifies this
      ensures rows == Scaled(old(rows), q)
    {
      rows := Scaled(rows, q);
    }

    /** `frame.tail(n)`: a new frame; this one is left as it is. */
    method TakeTail(n: nat) returns (t: Frame)
      ensures fresh(t) && t.rows == Tail(rows, n)
    {
      t := new Frame(Tail(rows, n));
    }
  }

  // ---------------------------------------------------------------------
  // `ds.dt.strftime('%Y-%m')`

  /** A month that renders as `YYYY-MM`: pandas timestamps have four-digit years. */
  predicate ValidMonth(m: Month) {
    1000 <= m.year <= 9999 && 1 <= m.month <= 12
  }

  function DigitChar(d: int): char
    requires 0 <= d <= 9
  {
    ('0' as int + d) as char
  }

  predicate IsDigit(c: char) {
    '0' <= c <= '9'
  }

  function DigitValue(c: char): int {
    c as int - '0' as int
  }

  /** The `YYYY-MM` rendering of a month. */
  function FormatMonth(m: Month): (s: string)
    requires ValidMonth(m)
    ensures |s| == 7 && s[4] == '-'
    ensures forall i :: 0 <= i < 7 && i != 4 ==> IsDigit(s[i])
  {
    var y := m.year;
    [DigitChar(y / 1000), DigitChar(y / 100 % 10), DigitChar(y / 10 % 10), DigitChar(y % 10),
     '-', DigitChar(m.month / 10), DigitChar(m.month % 10)]
  }

  /** Reads a `YYYY-MM` string back; anything else is None. */
  function ParseMonth(s: string): (r: Option<Month>)
    ensures r.Some? ==> ValidMonth(r.value)
  {
    if |s| == 7 && s[4] == '-' && IsDigit(s[0]) && IsDigit(s[1]) && IsDigit(s[2]) && IsDigit(s[3])
       && IsDigit(s[5]) && IsDigit(s[6])
    then
      var y := 1000 * DigitValue(s[0]) + 100 * DigitValue(s[1]) + 10 * DigitValue(s[2]) + DigitValue(s[3]);
      var mo := 10 * DigitValue(s[5]) + DigitValue(s[6]);
      if ValidMonth(Month(y, mo)) then Some(Month(y, mo)) else None
    else None
  }

  lemma DigitRoundTrip(d: int)
    requires 0 <= d <= 9
    ensures IsDigit(DigitChar(d)) && DigitValue(DigitChar(d)) == d
  {
  }

  /** A number is the sum of its decimal digits times their place values. */
  lemma DigitsRebuild(n: int, places: nat)
    requires places == 2 || places == 4
    requires 0 <= n < (if places == 2 then 100 else 10000)
    ensures places == 2 ==> 0 <= n / 10 <= 9 && 10 * (n / 10) + n % 10 == n
    ensures places == 4 ==>
      && 0 <= n / 1000 <= 9 && 0 <= n / 100 % 10 <= 9 && 0 <= n / 10 % 10 <= 9
      && 1000 * (n / 1000) + 100 * (n / 100 % 10) + 10 * (n / 10 % 10) + n % 10 == n
  {
    var q := n / 10;
    assert n == 10 * q + n % 10;
    if places == 4 {
      assert q / 10 == n / 100 && q / 100 == n / 1000;
      assert q == 10 * (q / 10) + q % 10;
      var t := q / 10;
      assert t == 10 * (t / 10) + t % 10 && t / 10 == n / 1000 && t % 10 == n / 100 % 10;
    }
  }

  /** Rendering loses nothing: the month can be read back from its string. */
  lemma FormatThenParse(m: Month)
    requires ValidMonth(m)
    ensures ParseMonth(FormatMonth(m)) == Some(m)
  {
    var s := FormatMonth(m);
    var y := m.year;
    DigitsRebuild(y, 4);
    DigitsRebuild(m.month, 2);
    DigitRoundTrip(y / 1000);
    DigitRoundTrip(y / 100 % 10);
    DigitRoundTrip(y / 10 % 10);
    DigitRoundTrip(y % 10);
    DigitRoundTrip(m.month / 10);
    DigitRoundTrip(m.month % 10);
    var yy := 1000 * DigitValue(s[0]) + 100 * DigitValue(s[1]) + 10 * DigitValue(s[2]) + DigitValue(s[3]);
    var mo := 10 * DigitValue(s[5]) + DigitValue(s[6]);
    assert yy == y && mo == m.month;
  }

  lemma YearDigits(d0: int, d1: int, d2: int, d3: int)
    requires 0 <= d0 <= 9 && 0 <= d1 <= 9 && 0 <= d2 <= 9 && 0 <= d3 <= 9
    ensures var y := 1000 * d0 + 100 * d1 + 10 * d2 + d3;
      y / 1000 == d0 && y / 100 % 10 == d1 && y / 10 % 10 == d2 && y % 10 == d3
  {
    var y := 1000 * d0 + 100 * d1 + 10 * d2 + d3;
    assert y / 10 == 100 * d0 + 10 * d1 + d2 && y % 10 == d3;
    assert y / 100 == 10 * d0 + d1;
    assert y / 1000 == d0;
  }

  /** Every string that parses is the rendering of what it parses to. */
  lemma ParseThenFormat(s: string)
    requires ParseMonth(s).Some?
    ensures FormatMonth(ParseMonth(s).value) == s
  {
    var m := ParseMonth(s).value;
    var t := FormatMonth(m);
    var d0, d1, d2, d3 := DigitValue(s[0]), DigitValue(s[1]), DigitValue(s[2]), DigitValue(s[3]);
    var e0, e1 := DigitValue(s[5]), DigitValue(s[6]);
    assert m.year == 1000 * d0 + 100 * d1 + 10 * d2 + d3;
    assert m.month == 10 * e0 + e1;
    YearDigits(d0, d1, d2, d3);
    assert m.month / 10 == e0 && m.month % 10 == e1;
    assert t[0] == s[0] && t[1] == s[1] && t[2] == s[2] && t[3] == s[3];
    assert t[4] == s[4] && t[5] == s[5] && t[6] == s[6];
  }

  /** Two different months never render alike. */
  lemma FormatMonthInjective(m1: Month, m2: Month)
    requires ValidMonth(m1) && ValidMonth(m2) && FormatMonth(m1) == FormatMonth(m2)
    ensures m1 == m2
  {
    FormatThenParse(m1);
    FormatThenParse(m2);
  }
}
