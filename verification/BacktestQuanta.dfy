/** Rounding to a quantum, on exact reals. */
module BacktestQuanta {

  type Positive = x: real | x > 0.0 witness 1.0
  type NonNegative = x: real | x >= 0.0

  /** A whole number of quanta. */
  function Quanta(count: int, quantum: real): real {
    count as real * quantum
  }

  lemma QuantaMonotone(m: int, n: int, quantum: real)
    requires quantum > 0.0
    ensures m <= n <==> Quanta(m, quantum) <= Quanta(n, quantum)
    ensures Quanta(n + 1, quantum) == Quanta(n, quantum) + quantum
    ensures Quanta(m - n, quantum) == Quanta(m, quantum) - Quanta(n, quantum)
  {
    var a, b := m as real, n as real;
    assert (m - n) as real == a - b && (n + 1) as real == b + 1.0;
    assert (a - b) * quantum == a * quantum - b * quantum;
    if m > n {
      assert a - b >= 1.0;
      assert (a - b) * quantum >= 1.0 * quantum;
    } else {
      assert b - a >= 0.0;
      assert (b - a) * quantum >= 0.0 * quantum;
    }
  }

  lemma DivideCancels(value: real, quantum: real)
    requires quantum > 0.0
    ensures value / quantum * quantum == value
  {
  }

  lemma ScaleBetween(whole: int, ratio: real, value: real, quantum: real)
    requires quantum > 0.0 && whole as real <= ratio < whole as real + 1.0 && ratio * quantum == value
    ensures Quanta(whole, quantum) <= value < Quanta(whole, quantum) + quantum
  {
    var above := ratio - whole as real;
    assert value == whole as real * quantum + above * quantum;
    assert 0.0 <= above * quantum < 1.0 * quantum;
  }

  lemma FloorScaled(value: real, quantum: real)
    requires quantum > 0.0
    ensures var whole := (value / quantum).Floor;
            Quanta(whole, quantum) <= value < Quanta(whole, quantum) + quantum
  {
    DivideCancels(value, quantum);
    ScaleBetween((value / quantum).Floor, value / quantum, value, quantum);
  }

  /** `floor_quantum`: the largest multiple of the quantum not above the value. */
  function FloorQuantum(value: real, quantum: real): (r: real)
    requires quantum > 0.0
    ensures r <= value < r + quantum
  {
    FloorScaled(value, quantum);
    Quanta((value / quantum).Floor, quantum)
  }

  /** `ceil_quantum`: the smallest multiple of the quantum not below the value. */
  function CeilQuantum(value: real, quantum: real): (r: real)
    requires quantum > 0.0
    ensures r - quantum < value <= r
  {
    -FloorQuantum(-value, quantum)
  }

  /** Whether a value is an exact multiple of a quantum; nothing is, of a quantum that is not positive. */
  predicate IsQuantized(value: real, quantum: real) {
    quantum > 0.0 && FloorQuantum(value, quantum) == value
  }

  lemma QuantaAreQuantized(count: int, quantum: real)
    requires quantum > 0.0
    ensures FloorQuantum(Quanta(count, quantum), quantum) == Quanta(count, quantum)
  {
    var whole := (Quanta(count, quantum) / quantum).Floor;
    assert FloorQuantum(Quanta(count, quantum), quantum) == Quanta(whole, quantum);
    QuantaMonotone(whole, count, quantum);
    QuantaMonotone(count, whole, quantum);
    QuantaMonotone(whole + 1, count, quantum);
  }

  lemma QuantaOf(value: real, quantum: real) returns (count: int)
    requires IsQuantized(value, quantum)
    ensures value == Quanta(count, quantum)
  {
    count := (value / quantum).Floor;
  }

  lemma FloorIsQuantized(value: real, quantum: real)
    requires quantum > 0.0
    ensures IsQuantized(FloorQuantum(value, quantum), quantum)
  {
    QuantaAreQuantized((value / quantum).Floor, quantum);
  }

  lemma QuantizedDifference(a: real, b: real, quantum: real)
    requires IsQuantized(a, quantum) && IsQuantized(b, quantum)
    ensures IsQuantized(a - b, quantum)
  {
    var m := QuantaOf(a, quantum);
    var n := QuantaOf(b, quantum);
    QuantaMonotone(m, n, quantum);
    QuantaAreQuantized(m - n, quantum);
  }

  /** A whole multiple not above the value is not above its floor either. */
  lemma FloorAbsorbs(multiple: real, value: real, quantum: real)
    requires IsQuantized(multiple, quantum) && multiple <= value
    ensures multiple <= FloorQuantum(value, quantum)
  {
    var m := QuantaOf(multiple, quantum);
    var n := (value / quantum).Floor;
    QuantaMonotone(m, n, quantum);
    QuantaMonotone(n + 1, m, quantum);
    QuantaMonotone(m, n + 1, quantum);
  }
}
