/**
 A running metric: least, greatest and mean value. The mean is updated value by value; over durations
 the division truncates, so the mean drifts from the true one.
 */
module Metrics {
  datatype Measure = Measure(min: int, max: int, avg: int, count: nat) {
    function Add(value: int): Measure {
      var n := count + 1;
      Measure(
        if value < min then value else min,
        if value > max then value else max,
        if value > avg then avg + (value - avg) / n else avg - (avg - value) / n,
        n)
    }
  }

  function NewMeasure(default: int): Measure { Measure(default, default, default, 0) }

  function Collect(default: int, values: seq<int>): Measure {
    if values == [] then NewMeasure(default)
    else Collect(default, values[..|values| - 1]).Add(values[|values| - 1])
  }

  function Sum(values: seq<int>): int {
    if values == [] then 0 else Sum(values[..|values| - 1]) + values[|values| - 1]
  }

  function Abs(x: int): nat { if x < 0 then -x else x }

  /** One update moves `count * mean - sum` by less than the new count. */
  lemma UpdateError(m: Measure, value: int)
    ensures Abs(m.Add(value).count * m.Add(value).avg - (m.count * m.avg + value)) <= m.count
  {
    var n := m.count + 1;
    var d := if value > m.avg then value - m.avg else m.avg - value;
    Quotient(d, n);
    var q := d / n;
    assert n * m.avg == m.count * m.avg + m.avg;
    assert n * (m.avg + q) == n * m.avg + n * q;
    assert n * (m.avg - q) == n * m.avg - n * q;
  }

  /** After `n` values the truncating mean is off by at most `(n - 1) / 2`, whatever the default. */
  lemma {:induction false} MeanErrorBound(default: int, values: seq<int>)
    ensures var m := Collect(default, values);
            m.count == |values| && 2 * Abs(m.count * m.avg - Sum(values)) <= m.count * (m.count - 1)
  {
    if values != [] {
      var n := |values|;
      var rest := values[..n - 1];
      var m := Collect(default, rest);
      var r := m.Add(values[n - 1]);
      MeanErrorBound(default, rest);
      UpdateError(m, values[n - 1]);
      ErrorGrows(n, m.count * m.avg - Sum(rest), r.count * r.avg - Sum(values));
    }
  }

  lemma ErrorGrows(n: nat, before: int, after: int)
    requires n > 0 && 2 * Abs(before) <= (n - 1) * (n - 2) && Abs(after - before) <= n - 1
    ensures 2 * Abs(after) <= n * (n - 1)
  {
    assert n * (n - 1) == (n - 1) * (n - 2) + 2 * (n - 1);
  }

  /** The recorded extremes bracket the mean and every value, and each is a value or the default. */
  lemma {:induction false} MeasureBrackets(default: int, values: seq<int>)
    ensures var m := Collect(default, values);
      && m.min <= m.avg <= m.max
      && (forall i :: 0 <= i < |values| ==> m.min <= values[i] <= m.max)
      && (m.min == default || m.min in values) && (m.max == default || m.max in values)
  {
    if values != [] {
      var n := |values|;
      var rest := values[..n - 1];
      var m := Collect(default, rest);
      MeasureBrackets(default, rest);
      QuotientWithin(m, values[n - 1]);
      forall i | 0 <= i < n ensures m.Add(values[n - 1]).min <= values[i] <= m.Add(values[n - 1]).max {
        if i < n - 1 { assert rest[i] == values[i]; }
      }
      assert values == rest + [values[n - 1]];
    }
  }

  /** Each update leaves the mean between the old mean and the new value. */
  lemma QuotientWithin(m: Measure, value: int)
    ensures m.avg <= value ==> m.avg <= m.Add(value).avg <= value
    ensures value <= m.avg ==> value <= m.Add(value).avg <= m.avg
  {
    Quotient(if value > m.avg then value - m.avg else m.avg - value, m.count + 1);
  }

  /** The mean moves towards the value by the distance divided by the new count, what is left over being dropped. */
  lemma UpdateTruncates(m: Measure, value: int)
    ensures var r, n := m.Add(value), m.count + 1;
      && r.count == n
      && (m.avg <= value ==> 0 <= n * (r.avg - m.avg) <= value - m.avg < n * (r.avg - m.avg) + n)
      && (value <= m.avg ==> 0 <= n * (m.avg - r.avg) <= m.avg - value < n * (m.avg - r.avg) + n)
  {
    var n := m.count + 1;
    var d := if value > m.avg then value - m.avg else m.avg - value;
    Quotient(d, n);
    assert m.Add(value).avg == if value > m.avg then m.avg + d / n else m.avg - d / n;
    assert n * (d / n) >= 0;
  }

  /** A truncated quotient of a distance lies within the distance. */
  lemma Quotient(d: nat, n: nat)
    requires n > 0
    ensures 0 <= d / n <= d
    ensures d - n < n * (d / n) <= d
  {
    assert d == n * (d / n) + d % n;
    AtMostMultiple(d / n, n);
  }

  lemma AtMostMultiple(q: nat, n: nat)
    requires n > 0
    ensures q <= n * q
  {
    assert n * q == q + (n - 1) * q;
    assert (n - 1) * q >= 0;
  }

  /** From the first value on the default has no influence on the mean: it stays between recorded values. */
  lemma {:induction false} MeanWithinValues(default: int, values: seq<int>, low: int, high: int)
    requires values != [] && forall i :: 0 <= i < |values| ==> low <= values[i] <= high
    ensures low <= Collect(default, values).avg <= high
  {
    var n := |values|;
    var m := Collect(default, values[..n - 1]);
    if n == 1 {
      assert m.Add(values[0]).avg == values[0];
    } else {
      MeanWithinValues(default, values[..n - 1], low, high);
      QuotientWithin(m, values[n - 1]);
    }
  }

  // The same update over exact numbers, as used for the averages of counts.

  function ExactMean(default: real, values: seq<real>): real {
    if values == [] then default
    else
      var n := |values|;
      var avg := ExactMean(default, values[..n - 1]);
      var value := values[n - 1];
      if value > avg then avg + (value - avg) / (n as real) else avg - (avg - value) / (n as real)
  }

  function RealSum(values: seq<real>): real {
    if values == [] then 0.0 else RealSum(values[..|values| - 1]) + values[|values| - 1]
  }

  lemma {:induction false} ExactMeanIsMean(default: real, values: seq<real>)
    requires values != []
    ensures |values| as real * ExactMean(default, values) == RealSum(values)
  {
    var n := |values|;
    var rest := values[..n - 1];
    var avg := ExactMean(default, rest);
    var v := values[n - 1];
    if n > 1 { ExactMeanIsMean(default, rest); }
    var nr := n as real;
    assert (n - 1) as real == nr - 1.0;
    var q := (v - avg) / nr;
    assert nr * q == v - avg;
    assert (avg - v) / nr == -q;
    assert ExactMean(default, values) == avg + q;
    assert nr * (avg + q) == nr * avg + nr * q == (nr - 1.0) * avg + v;
    assert n == 1 ==> rest == [] && RealSum(rest) == 0.0;
  }

  class Metric {
    var min: int
    var max: int
    var avg: int
    var count: nat

    function Value(): Measure
      reads this
    {
      Measure(min, max, avg, count)
    }

    constructor (default: int)
      ensures Value() == NewMeasure(default)
    {
      min, max, avg, count := default, default, default, 0;
    }

    method AddValue(value: int)
      modifies this
      ensures Value() == old(Value()).Add(value)
    {
      count := count + 1;
      if value < min { min := value; }
      if value > max { max := value; }
      if value > avg {
        avg := avg + (value - avg) / count;
      } else {
        avg := avg - (avg - value) / count;
      }
    }
  }
}
