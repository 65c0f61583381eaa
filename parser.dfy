/**
 * The recognizer engine: seed column 0, close each column in turn under the
 * predictor, completer and scanner rules by repeating passes until a pass
 * adds nothing, then count the accepting items of the last column.
 */
module Parser {
  import opened Wrappers
  import opened Items
  import opened Grammars
  import opened Charts
  import opened Closure
  import opened Sets
  import opened Derivations

  /** From `C` to `D` only columns `i` and `i + 1` changed, and they only grew. */
  ghost predicate GrowsAt(C: seq<set<State>>, D: seq<set<State>>, i: nat) {
    && |C| == |D| && i < |C|
    && forall k :: 0 <= k < |C| ==> C[k] <= D[k] && (k != i && k != i + 1 ==> C[k] == D[k])
  }

  /**
   * Chart `C` holds what the three rules derive from item `st` of column `i`,
   * the completer reading its origin column in the earlier chart `B`.
   */
  ghost predicate Reached(g: Grammar, tokens: seq<string>, B: seq<set<State>>, C: seq<set<State>>, i: nat, st: State)
    requires i < |C|
  {
    && Predicted(g, st, i) + Completed(st, B) <= C[i]
    && (i + 1 < |C| ==> Scanned(tokens, i, st) <= C[i + 1])
  }

  /**
   * Item `st` was processed between `C` and `D`, so it is reached in `D`;
   * the items reached in `C` stay reached because `D` only grew.
   */
  lemma ReachedStep(g: Grammar, tokens: seq<string>, B: seq<set<State>>, C: seq<set<State>>, D: seq<set<State>>,
                    i: nat, done: set<State>, st: State)
    requires GrowsAt(B, C, i) && GrowsAt(C, D, i)
    requires forall s :: s in done ==> Reached(g, tokens, B, C, i, s)
    requires D[i] == C[i] + Predicted(g, st, i) + Completed(st, C)
    requires i + 1 < |D| ==> D[i + 1] == C[i + 1] + Scanned(tokens, i, st)
    ensures forall s :: s in done + {st} ==> Reached(g, tokens, B, D, i, s)
  {
    CompletedMonotone(st, B, C);
  }

  /** Column `i` of `B` is column `i` of `A` extended by `X`, and every other column is the same: `B` is that update of `A`. */
  lemma ColumnsUpdated(A: seq<set<State>>, B: seq<set<State>>, i: nat, X: set<State>)
    requires |A| == |B| && i < |A|
    requires forall k :: 0 <= k < |A| && k != i ==> B[k] == A[k]
    requires B[i] == A[i] + X
    ensures B == A[i := A[i] + X]
  {
  }

  /** What is left to add to columns `i` and `i + 1`: the termination measure of the fixpoint loop. */
  ghost function Remaining(g: Grammar, C: seq<set<State>>, i: nat): nat
    requires i < |C|
  {
    |Universe(g, i) - C[i]| + (if i + 1 < |C| then |Universe(g, i + 1) - C[i + 1]| else 0)
  }

  lemma RemainingShrinks(g: Grammar, tokens: seq<string>, C: seq<set<State>>, D: seq<set<State>>, i: nat)
    requires GrowsAt(C, D, i) && Sound(g, tokens, D) && C != D
    ensures Remaining(g, D, i) < Remaining(g, C, i)
  {
    var L := Least(g, tokens);
    forall k, s | 0 <= k < |D| && s in D[k] ensures s in Universe(g, k) {
      LeastWellFormed(g, tokens, k, s);
      UniverseMembership(g, k, s);
    }
    if C[i] != D[i] {
      assert C[i] <= D[i];
      assert exists s :: s in D[i] && s !in C[i];
      var s :| s in D[i] && s !in C[i];
      SubtractStrictlySmaller(Universe(g, i), C[i], D[i], s);
      if i + 1 < |C| {
        SubtractSmaller(Universe(g, i + 1), C[i + 1], D[i + 1]);
      }
    } else if i + 1 < |C| && C[i + 1] != D[i + 1] {
      var j := i + 1;
      assert C[j] <= D[j];
      assert exists s :: s in D[j] && s !in C[j];
      var s :| s in D[j] && s !in C[j];
      SubtractStrictlySmaller(Universe(g, j), C[j], D[j], s);
    } else {
      assert false;
    }
  }

  /** Adding `X` to column `k` (one of `i`, `i + 1`) is growth at `i`, and a change exactly when `X` was not all there. */
  lemma UpdateGrows(C: seq<set<State>>, k: nat, X: set<State>, i: nat)
    requires k == i || k == i + 1
    requires k < |C|
    ensures GrowsAt(C, C[k := C[k] + X], i)
    ensures C[k := C[k] + X] == C <==> X <= C[k]
  {
    assert C[k := C[k] + X][k] == C[k] + X;
    if X <= C[k] {
      assert C[k] + X == C[k];
    }
  }

  lemma GrowsAtTrans(A: seq<set<State>>, B: seq<set<State>>, D: seq<set<State>>, i: nat)
    requires GrowsAt(A, B, i) && GrowsAt(B, D, i)
    ensures GrowsAt(A, D, i)
    ensures A != B ==> A != D
  {
    if A != B {
      assert exists k :: 0 <= k < |A| && A[k] != B[k];
      var k :| 0 <= k < |A| && A[k] != B[k];
      assert exists x :: x in B[k] && x !in A[k];
      var x :| x in B[k] && x !in A[k];
      assert x in D[k];
    }
  }

  /**
   * The effect of processing item `st` of column `i`: the rule that applies
   * adds its consequences `X` to column `k`, which is `i` for the predictor
   * and the completer and `i + 1` for the scanner.
   */
  lemma ProcessEffect(g: Grammar, tokens: seq<string>, C: seq<set<State>>, D: seq<set<State>>,
                      i: nat, st: State, k: nat, X: set<State>, added: bool)
    requires Sound(g, tokens, C) && i < |C| && st in C[i]
    requires k == i || (k == i + 1 && k < |C|)
    requires k == i ==> X == Predicted(g, st, i) + Completed(st, C) && Scanned(tokens, i, st) == {}
    requires k == i + 1 ==> X == Scanned(tokens, i, st) && Predicted(g, st, i) + Completed(st, C) == {}
    requires D == C[k := C[k] + X] && (added <==> !(X <= C[k]))
    ensures Sound(g, tokens, D) && GrowsAt(C, D, i)
    ensures added <==> D != C
    ensures !added ==> ItemClosed(g, tokens, D, i, st)
    ensures D[i] == C[i] + Predicted(g, st, i) + Completed(st, C)
    ensures i + 1 < |D| ==> D[i + 1] == C[i + 1] + Scanned(tokens, i, st)
  {
    ConsequencesSound(g, tokens, C, i, st);
    UpdateGrows(C, k, X, i);
    UpdateColumns(C, k, X, i);
    UpdateSound(g, tokens, C, k, X);
  }

  /** One `Add` of `s` to column `i` inside a loop that has so far added `F` there and changed nothing else. */
  lemma AddStep(A: seq<set<State>>, C: seq<set<State>>, D: seq<set<State>>, i: nat, F: set<State>, s: State)
    requires |A| == |C| && i < |C|
    requires forall k :: 0 <= k < |C| && k != i ==> C[k] == A[k]
    requires C[i] == A[i] + F
    requires D == C[i := C[i] + {s}]
    ensures |D| == |A|
    ensures forall k :: 0 <= k < |D| && k != i ==> D[k] == A[k]
    ensures D[i] == A[i] + (F + {s})
    ensures !(F + {s} <= A[i]) <==> !(F <= A[i]) || s !in C[i]
  {
  }

  lemma UpdateSound(g: Grammar, tokens: seq<string>, C: seq<set<State>>, k: nat, X: set<State>)
    requires Sound(g, tokens, C) && k < |C| && X <= Least(g, tokens)[k]
    ensures Sound(g, tokens, C[k := C[k] + X])
  {
  }

  /** Extending column `k` by `X` adds `X` to column `i` or `i + 1`, whichever `k` is, and nothing to the other. */
  lemma UpdateColumns(C: seq<set<State>>, k: nat, X: set<State>, i: nat)
    requires k < |C| && (k == i || k == i + 1)
    ensures C[k := C[k] + X][i] == C[i] + (if k == i then X else {})
    ensures i + 1 < |C| ==> C[k := C[k] + X][i + 1] == C[i + 1] + (if k == i + 1 then X else {})
  {
  }

  /**
   * An item closed in `C` stays closed in `D` when nothing at or before its
   * column changed and the next column only grew.
   */
  lemma ItemClosedStable(g: Grammar, tokens: seq<string>, C: seq<set<State>>, D: seq<set<State>>, k: nat, st: State)
    requires |C| == |D| && k < |C| && st.start <= k
    requires forall j :: 0 <= j <= k ==> C[j] == D[j]
    requires k + 1 < |C| ==> C[k + 1] <= D[k + 1]
    requires ItemClosed(g, tokens, C, k, st)
    ensures ItemClosed(g, tokens, D, k, st)
  {
    assert C[st.start] == D[st.start];
  }

  class EarleyParser {
    const grammar: Grammar

    constructor (grammar: Grammar)
      ensures this.grammar == grammar
    {
      this.grammar := grammar;
    }

    /**
     * The number of complete start-symbol items with origin 0 in the last
     * column of the least closed chart; nonzero exactly when the start symbol
     * derives the input. Whatever order the sets are visited in, the result
     * is the same.
     */
    method Parse(tokens: seq<string>) returns (count: nat)
      ensures count == |Accepting(grammar, Least(grammar, tokens)[|tokens|])|
      ensures count > 0 <==> Accepts(grammar, tokens)
      ensures count > 0 <==> Generates(grammar, tokens)
    {
      var n := |tokens|;
      var chart := new Chart(n);
      Seed(chart, tokens);
      for i := 0 to n + 1
        invariant Sound(grammar, tokens, chart.columns[..])
        invariant Seeds(grammar) <= chart.columns[0]
        invariant forall k, st :: 0 <= k < i && st in chart.columns[k] ==>
          ItemClosed(grammar, tokens, chart.columns[..], k, st)
      {
        ghost var C := chart.columns[..];
        CloseColumn(chart, tokens, i);
        ClosedColumnsStay(grammar, tokens, C, chart.columns[..], i);
      }
      ClosedSoundIsLeast(grammar, tokens, chart.columns[..]);
      count := |Accepting(grammar, chart.At(n))|;
      AcceptsIffGenerates(grammar, tokens);
    }

    /** Seed column 0 of a fresh chart with every start production, dot and origin at 0. */
    method Seed(chart: Chart, tokens: seq<string>)
      requires chart.columns.Length == |tokens| + 1
      requires forall k :: 0 <= k < chart.columns.Length ==> chart.columns[k] == {}
      modifies chart.columns
      ensures chart.columns[0] == Seeds(grammar)
      ensures forall k :: 1 <= k < chart.columns.Length ==> chart.columns[k] == {}
      ensures Sound(grammar, tokens, chart.columns[..])
    {
      var prods := grammar.ProductionsFor(grammar.start);
      var j := 0;
      while j < |prods|
        invariant 0 <= j <= |prods|
        invariant chart.columns[0] == Fresh(prods[..j], 0)
        invariant forall k :: 1 <= k < chart.columns.Length ==> chart.columns[k] == {}
      {
        assert prods[..j + 1] == prods[..j] + [prods[j]];
        FreshAppend(prods[..j], prods[j], 0);
        var _ := chart.Add(0, State(prods[j], 0, 0));
        j := j + 1;
      }
      assert prods[..j] == prods;
      SeedsSound(grammar, tokens);
    }

    /**
     * The `while changed` loop for column `i`: repeat passes until one adds
     * nothing; afterwards every item of column `i` has all its consequences
     * in the chart.
     */
    method CloseColumn(chart: Chart, tokens: seq<string>, i: nat)
      requires chart.columns.Length == |tokens| + 1 && i < chart.columns.Length
      requires Sound(grammar, tokens, chart.columns[..])
      modifies chart.columns
      ensures Sound(grammar, tokens, chart.columns[..])
      ensures GrowsAt(old(chart.columns[..]), chart.columns[..], i)
      ensures forall st :: st in chart.columns[i] ==> ItemClosed(grammar, tokens, chart.columns[..], i, st)
    {
      var changed := true;
      while changed
        invariant Sound(grammar, tokens, chart.columns[..])
        invariant GrowsAt(old(chart.columns[..]), chart.columns[..], i)
        invariant !changed ==> forall st :: st in chart.columns[i] ==> ItemClosed(grammar, tokens, chart.columns[..], i, st)
        decreases Remaining(grammar, chart.columns[..], i), changed
      {
        ghost var C := chart.columns[..];
        changed := Pass(chart, tokens, i);
        GrowsAtTrans(old(chart.columns[..]), C, chart.columns[..], i);
        if changed {
          RemainingShrinks(grammar, tokens, C, chart.columns[..], i);
        }
      }
    }

    /**
     * One pass over a snapshot of column `i`, applying the completer,
     * predictor or scanner to each item. Every item of the snapshot gets its
     * consequences added. It reports a change exactly when the chart changed;
     * a pass that changes nothing leaves every item of column `i` closed.
     */
    method Pass(chart: Chart, tokens: seq<string>, i: nat) returns (changed: bool)
      requires chart.columns.Length == |tokens| + 1 && i < chart.columns.Length
      requires Sound(grammar, tokens, chart.columns[..])
      modifies chart.columns
      ensures Sound(grammar, tokens, chart.columns[..])
      ensures GrowsAt(old(chart.columns[..]), chart.columns[..], i)
      ensures changed <==> chart.columns[..] != old(chart.columns[..])
      ensures !changed ==> forall st :: st in chart.columns[i] ==> ItemClosed(grammar, tokens, chart.columns[..], i, st)
      ensures forall st :: st in old(chart.columns[i]) ==>
        Reached(grammar, tokens, old(chart.columns[..]), chart.columns[..], i, st)
    {
      changed := false;
      var snapshot := chart.At(i);
      var todo := snapshot;
      while todo != {}
        invariant todo <= snapshot
        invariant Sound(grammar, tokens, chart.columns[..])
        invariant GrowsAt(old(chart.columns[..]), chart.columns[..], i)
        invariant changed <==> chart.columns[..] != old(chart.columns[..])
        invariant !changed ==> forall st :: st in snapshot - todo ==> ItemClosed(grammar, tokens, chart.columns[..], i, st)
        invariant forall st :: st in snapshot - todo ==>
          Reached(grammar, tokens, old(chart.columns[..]), chart.columns[..], i, st)
        decreases todo
      {
        var st :| st in todo;
        ghost var done := snapshot - todo;
        todo := todo - {st};
        assert snapshot - todo == done + {st};
        ghost var C := chart.columns[..];
        var added := Process(chart, tokens, i, st);
        ReachedStep(grammar, tokens, old(chart.columns[..]), C, chart.columns[..], i, done, st);
        GrowsAtTrans(old(chart.columns[..]), C, chart.columns[..], i);
        if added { changed := true; }
      }
    }

    /**
     * The body of a pass for item `st` of column `i`: the completer when it is
     * complete, the predictor when a nonterminal is next, the scanner when a
     * terminal is next (which alone writes to column `i + 1`, and only when
     * the token at `i` is that terminal). It reports a change exactly when the
     * chart changed; when nothing changed, `st` is closed.
     */
    method Process(chart: Chart, tokens: seq<string>, i: nat, st: State) returns (added: bool)
      requires chart.columns.Length == |tokens| + 1 && i < chart.columns.Length
      requires Sound(grammar, tokens, chart.columns[..]) && st in chart.columns[i]
      modifies chart.columns
      ensures Sound(grammar, tokens, chart.columns[..])
      ensures GrowsAt(old(chart.columns[..]), chart.columns[..], i)
      ensures added <==> chart.columns[..] != old(chart.columns[..])
      ensures !added ==> ItemClosed(grammar, tokens, chart.columns[..], i, st)
      ensures chart.columns[i] == old(chart.columns[i]) + Predicted(grammar, st, i) + Completed(st, old(chart.columns[..]))
      ensures i + 1 < chart.columns.Length ==> chart.columns[i + 1] == old(chart.columns[i + 1]) + Scanned(tokens, i, st)
    {
      ghost var C := chart.columns[..];
      added := false;
      ghost var k: nat, X: set<State> := i, {};
      match st.NextSymbol() {
        case None =>
          added := Complete(chart, i, st);
          X := Completed(st, C);
          assert Predicted(grammar, st, i) == {} && Scanned(tokens, i, st) == {};
        case Some(NT(x)) =>
          added := Predict(chart, i, x);
          X := Fresh(grammar.ProductionsFor(x), i);
          assert X == Predicted(grammar, st, i);
          assert Completed(st, C) == {} && Scanned(tokens, i, st) == {};
        case Some(T(a)) =>
          if i < |tokens| && tokens[i] == a {
            added := chart.Add(i + 1, st.Advance());
            k, X := i + 1, {st.Advance()};
          } else {
            assert C[i] + X == C[i];
          }
          assert X == Scanned(tokens, i, st);
          assert Predicted(grammar, st, i) == {} && Completed(st, C) == {};
      }
      ProcessEffect(grammar, tokens, C, chart.columns[..], i, st, k, X, added);
    }

    /**
     * Completer for the complete item `st` of column `i`: advance into column
     * `i` every item of a snapshot of column `st.start` that waits for
     * `st`'s left-hand side. Only column `i` changes.
     */
    method Complete(chart: Chart, i: nat, st: State) returns (changed: bool)
      requires i < chart.columns.Length && st.start <= i && st.IsComplete()
      modifies chart.columns
      ensures chart.columns[..] == old(chart.columns[..])[i := old(chart.columns[i]) + Completed(st, old(chart.columns[..]))]
      ensures changed <==> !(Completed(st, old(chart.columns[..])) <= old(chart.columns[i]))
    {
      var lhs := st.production.lhs;
      var prevs := chart.At(st.start);
      assert Completed(st, old(chart.columns[..])) == AdvancedOver(prevs, lhs);
      var todo := prevs;
      ghost var done: set<State> := {};
      changed := false;
      while todo != {}
        invariant done + todo == prevs && done !! todo
        invariant forall k :: 0 <= k < chart.columns.Length && k != i ==> chart.columns[k] == old(chart.columns[k])
        invariant chart.columns[i] == old(chart.columns[i]) + AdvancedOver(done, lhs)
        invariant changed <==> !(AdvancedOver(done, lhs) <= old(chart.columns[i]))
        decreases todo
      {
        var prev :| prev in todo;
        AdvancedOverAdd(done, prev, lhs);
        if prev.NextSymbol() == Some(NT(lhs)) {
          ghost var C := chart.columns[..];
          var added := chart.Add(i, prev.Advance());
          AddStep(old(chart.columns[..]), C, chart.columns[..], i, AdvancedOver(done, lhs), prev.Advance());
          if added { changed := true; }
        }
        todo := todo - {prev};
        done := done + {prev};
      }
      ColumnsUpdated(old(chart.columns[..]), chart.columns[..], i, AdvancedOver(prevs, lhs));
    }

    /**
     * Predictor for nonterminal `x` at column `i`: add every production of
     * `x` with the dot at 0 and origin `i`. Only column `i` changes.
     */
    method Predict(chart: Chart, i: nat, x: NonTerminal) returns (changed: bool)
      requires i < chart.columns.Length
      modifies chart.columns
      ensures chart.columns[..] == old(chart.columns[..])[i := old(chart.columns[i]) + Fresh(grammar.ProductionsFor(x), i)]
      ensures changed <==> !(Fresh(grammar.ProductionsFor(x), i) <= old(chart.columns[i]))
    {
      var prods := grammar.ProductionsFor(x);
      changed := false;
      var j := 0;
      while j < |prods|
        invariant 0 <= j <= |prods|
        invariant forall k :: 0 <= k < chart.columns.Length && k != i ==> chart.columns[k] == old(chart.columns[k])
        invariant chart.columns[i] == old(chart.columns[i]) + Fresh(prods[..j], i)
        invariant changed <==> !(Fresh(prods[..j], i) <= old(chart.columns[i]))
      {
        var item := State(prods[j], 0, i);
        assert prods[..j + 1] == prods[..j] + [prods[j]];
        FreshAppend(prods[..j], prods[j], i);
        ghost var C := chart.columns[..];
        var added := chart.Add(i, item);
        AddStep(old(chart.columns[..]), C, chart.columns[..], i, Fresh(prods[..j], i), item);
        if added { changed := true; }
        j := j + 1;
      }
      assert prods[..j] == prods;
      ColumnsUpdated(old(chart.columns[..]), chart.columns[..], i, Fresh(prods, i));
    }
  }

  /** The seeds are in the least chart. */
  lemma SeedsSound(g: Grammar, tokens: seq<string>)
    ensures Sound(g, tokens, [Seeds(g)] + seq(|tokens|, _ => {}))
  {
    LeastClosed(g, tokens);
  }

  /** Closing column `i` keeps the columns before it closed, and adds column `i` to them. */
  lemma ClosedColumnsStay(g: Grammar, tokens: seq<string>, C: seq<set<State>>, D: seq<set<State>>, i: nat)
    requires GrowsAt(C, D, i) && Sound(g, tokens, C)
    requires forall k, st :: 0 <= k < i && st in C[k] ==> ItemClosed(g, tokens, C, k, st)
    requires forall st :: st in D[i] ==> ItemClosed(g, tokens, D, i, st)
    ensures forall k, st :: 0 <= k < i + 1 && st in D[k] ==> ItemClosed(g, tokens, D, k, st)
  {
    forall k, st | 0 <= k < i && st in D[k] ensures ItemClosed(g, tokens, D, k, st) {
      assert st in C[k];
      LeastWellFormed(g, tokens, k, st);
      ItemClosedStable(g, tokens, C, D, k, st);
    }
  }

  lemma FreshAppend(prods: seq<Production>, p: Production, i: nat)
    ensures Fresh(prods + [p], i) == Fresh(prods, i) + {State(p, 0, i)}
  {
  }

  lemma AdvancedOverAdd(items: set<State>, prev: State, x: NonTerminal)
    ensures AdvancedOver(items + {prev}, x) ==
      AdvancedOver(items, x) + (if prev.NextSymbol() == Some(NT(x)) then {prev.Advance()} else {})
  {
  }
}
