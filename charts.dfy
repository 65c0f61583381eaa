/** The chart: one set of Earley items per input position `0..n`, filled in place. */
module Charts {
  import opened Items

  class Chart {
    /** The `n + 1` columns; the array itself is never replaced, only its sets grow. */
    const columns: array<set<State>>

    /** A chart for an input of `length` tokens: `length + 1` empty columns. */
    constructor (length: nat)
      ensures fresh(columns)
      ensures columns.Length == length + 1
      ensures forall k :: 0 <= k < columns.Length ==> columns[k] == {}
    {
      columns := new set<State>[length + 1](_ => {});
    }

    /**
     * Insert `state` into column `idx`; report whether the column changed.
     * No other column is touched.
     */
    method Add(idx: nat, state: State) returns (added: bool)
      requires idx < columns.Length
      modifies columns
      ensures added <==> state !in old(columns[idx])
      ensures columns[..] == old(columns[..])[idx := old(columns[idx]) + {state}]
    {
      if state !in columns[idx] {
        columns[idx] := columns[idx] + {state};
        return true;
      }
      assert old(columns[idx]) + {state} == columns[idx];
      return false;
    }

    /** The current contents of column `idx`, as a value (a snapshot). */
    function At(idx: nat): (column: set<State>)
      requires idx < columns.Length
      reads columns
      ensures column == columns[idx]
    {
      columns[idx]
    }
  }

  /** Adding the same item twice: the second insertion reports no change and leaves the chart as the first left it. */
  method AddTwice(chart: Chart, idx: nat, state: State) returns (first: bool, second: bool)
    requires idx < chart.columns.Length
    modifies chart.columns
    ensures first <==> state !in old(chart.columns[idx])
    ensures !second
    ensures state in chart.columns[idx]
    ensures chart.columns[..] == old(chart.columns[..])[idx := old(chart.columns[idx]) + {state}]
  {
    first := chart.Add(idx, state);
    ghost var between := chart.columns[..];
    second := chart.Add(idx, state);
    assert chart.columns[..] == between;
  }
}
