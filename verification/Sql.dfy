/** The part of SQL the guards depend on: NULL, three-valued conditions, rows selected by key. */
module Sql {
  import opened Wrappers

  datatype Truth = True | False | Unknown

  type Hash = string

  function Of(b: bool): Truth {
    if b then True else False
  }

  function Or(a: Truth, b: Truth): Truth {
    if a.True? || b.True? then True else if a.False? && b.False? then False else Unknown
  }

  function And(a: Truth, b: Truth): Truth {
    if a.False? || b.False? then False else if a.True? && b.True? then True else Unknown
  }

  /** `a <> b`: unknown as soon as one side is NULL. */
  function NotEqual<T(==)>(a: Option<T>, b: Option<T>): Truth {
    if a.None? || b.None? then Unknown else Of(a.value != b.value)
  }

  /** `a < b` on nullable numbers. */
  function Less(a: Option<int>, b: Option<int>): Truth {
    if a.None? || b.None? then Unknown else Of(a.value < b.value)
  }

  /** `IF cond THEN RAISE`: an unknown condition does not raise. */
  predicate Raises(condition: Truth) {
    condition.True?
  }

  /** `CHECK (cond)`: an unknown condition passes. */
  predicate Passes(condition: Truth) {
    !condition.False?
  }

  /** `mod(x, quantum) = 0`. */
  predicate IsMultiple(x: real, quantum: real)
    requires quantum != 0.0
  {
    (x / quantum).Floor as real == x / quantum
  }

  /** A whole number of quanta. */
  ghost predicate Whole(x: real, quantum: real) {
    exists n: int :: Times(n, quantum) == x
  }

  function Times(n: int, quantum: real): real { n as real * quantum }

  lemma WholeIs(x: real, quantum: real)
    requires quantum > 0.0
    ensures IsMultiple(x, quantum) <==> Whole(x, quantum)
  {
    var ratio := x / quantum;
    assert ratio * quantum == x;
    if IsMultiple(x, quantum) {
      assert Times(ratio.Floor, quantum) == x;
    }
    if n: int :| Times(n, quantum) == x {
      SameRatio(n as real, ratio, quantum);
    }
  }

  lemma SameRatio(a: real, b: real, quantum: real)
    requires quantum > 0.0 && a * quantum == b * quantum
    ensures a == b
  {
    assert (a - b) * quantum == 0.0;
  }

  datatype Entry<K, V> = Entry(key: K, row: V)

  /** `select … where key = …`, in insertion order. */
  function Select<K(==), V>(table: seq<Entry<K, V>>, key: K): (rows: seq<V>) {
    if table == [] then []
    else
      var n := |table| - 1;
      Select(table[..n], key) + if table[n].key == key then [table[n].row] else []
  }

  lemma SelectAppend<K, V>(table: seq<Entry<K, V>>, e: Entry<K, V>, key: K)
    ensures e.key == key ==> Select(table + [e], key) == Select(table, key) + [e.row]
    ensures e.key != key ==> Select(table + [e], key) == Select(table, key)
  {
    assert (table + [e])[..|table|] == table;
  }

  lemma {:induction false} SelectMembers<K, V>(table: seq<Entry<K, V>>, key: K)
    ensures forall v :: v in Select(table, key) <==> Entry(key, v) in table
  {
    if table != [] {
      var n := |table| - 1;
      SelectMembers(table[..n], key);
      assert table == table[..n] + [table[n]];
    }
  }

  /** Appending to a table only ever appends to what a key selects. */
  lemma {:induction false} SelectGrows<K, V>(before: seq<Entry<K, V>>, after: seq<Entry<K, V>>, key: K)
    requires before <= after
    ensures Select(before, key) <= Select(after, key)
    decreases |after|
  {
    if |before| < |after| {
      SelectGrows(before, after[..|after| - 1], key);
    } else {
      assert before == after;
    }
  }
}
