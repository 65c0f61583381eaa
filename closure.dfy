/**
 * The declarative meaning of the recognizer: the chart it builds is the
 * least one that contains the seed items and is closed under the predictor,
 * completer and scanner rules, and the input is accepted when the last
 * column of that chart holds a complete start item that began at column 0.
 */
module Closure {
  import opened Wrappers
  import opened Items
  import opened Grammars

  /** Fresh items for the productions `prods`, with the dot at 0 and origin `i`. */
  ghost function Fresh(prods: seq<Production>, i: nat): set<State> {
    set p | p in prods :: State(p, 0, i)
  }

  /** Items seeded into column 0: every start production with the dot at 0. */
  ghost function Seeds(g: Grammar): set<State> {
    Fresh(g.ProductionsFor(g.start), 0)
  }

  /** Predictor: the fresh items an incomplete item `st` in column `i` asks for. */
  ghost function Predicted(g: Grammar, st: State, i: nat): set<State> {
    match st.NextSymbol()
    case Some(NT(x)) => Fresh(g.ProductionsFor(x), i)
    case _ => {}
  }

  /** The items of `items` waiting for nonterminal `x`, each advanced past it. */
  ghost function AdvancedOver(items: set<State>, x: NonTerminal): set<State> {
    set prev | prev in items && prev.NextSymbol() == Some(NT(x)) :: prev.Advance()
  }

  /** Completer: a complete item advances the items of its origin column that wait for its left-hand side. */
  ghost function Completed(st: State, C: seq<set<State>>): set<State> {
    if st.IsComplete() && st.start < |C| then AdvancedOver(C[st.start], st.production.lhs) else {}
  }

  /** Scanner: an item waiting for the terminal that equals token `i` moves past it. */
  ghost function Scanned(tokens: seq<string>, i: nat, st: State): set<State> {
    match st.NextSymbol()
    case Some(T(a)) => if i < |tokens| && tokens[i] == a then {st.Advance()} else {}
    case _ => {}
  }

  /** Every consequence of item `st` of column `i` is already in chart `C`. */
  ghost predicate ItemClosed(g: Grammar, tokens: seq<string>, C: seq<set<State>>, i: nat, st: State)
    requires i < |C|
  {
    && Predicted(g, st, i) <= C[i]
    && Completed(st, C) <= C[i]
    && (i + 1 < |C| ==> Scanned(tokens, i, st) <= C[i + 1])
  }

  /** `C` has one column per input position, holds the seeds and is closed under all three rules. */
  ghost predicate Closed(g: Grammar, tokens: seq<string>, C: seq<set<State>>) {
    && |C| == |tokens| + 1
    && Seeds(g) <= C[0]
    && forall i, st {:trigger ItemClosed(g, tokens, C, i, st)} ::
         0 <= i < |C| && st in C[i] ==> ItemClosed(g, tokens, C, i, st)
  }

  /** The items that can ever stand in column `k`: a grammar production, a dot inside it, an origin at most `k`. */
  ghost predicate InUniverse(g: Grammar, k: nat, st: State) {
    st.production in g.AllProductions() && st.WellFormed() && st.start <= k
  }

  ghost function Universe(g: Grammar, k: nat): set<State> {
    set p, d: nat, o: nat | p in g.AllProductions() && d <= |p.rhs| && o <= k :: State(p, d, o)
  }

  lemma UniverseMembership(g: Grammar, k: nat, st: State)
    ensures st in Universe(g, k) <==> InUniverse(g, k, st)
  {
    if InUniverse(g, k, st) {
      assert st == State(st.production, st.dot, st.start);
    }
  }

  /** The least closed chart: the items of the universe that every closed chart holds. */
  ghost function Least(g: Grammar, tokens: seq<string>): (L: seq<set<State>>)
    ensures |L| == |tokens| + 1
  {
    seq(|tokens| + 1, k requires 0 <= k <= |tokens| =>
      set st | st in Universe(g, k) && forall D :: Closed(g, tokens, D) ==> st in D[k])
  }

  /** Chart `C` lies inside the least closed chart, column by column. */
  ghost predicate Sound(g: Grammar, tokens: seq<string>, C: seq<set<State>>) {
    |C| == |tokens| + 1 && forall k :: 0 <= k < |C| ==> C[k] <= Least(g, tokens)[k]
  }

  /** The accepting items of a column: complete start-symbol items that began at column 0. */
  function Accepting(g: Grammar, column: set<State>): set<State> {
    set st | st in column && st.production.lhs == g.start && st.start == 0 && st.IsComplete()
  }

  /** Whether the recognizer accepts `tokens`. */
  ghost predicate Accepts(g: Grammar, tokens: seq<string>) {
    Accepting(g, Least(g, tokens)[|tokens|]) != {}
  }

  // ---------------------------------------------------------------------------
  // Properties of the least closed chart

  /** Every closed chart contains the least one. */
  lemma LeastBelow(g: Grammar, tokens: seq<string>, D: seq<set<State>>)
    requires Closed(g, tokens, D)
    ensures forall k :: 0 <= k < |D| ==> Least(g, tokens)[k] <= D[k]
  {
  }

  /** An item of the universe that every closed chart holds is in the least chart. */
  lemma InLeast(g: Grammar, tokens: seq<string>, k: nat, st: State)
    requires k <= |tokens| && InUniverse(g, k, st)
    requires forall D :: Closed(g, tokens, D) ==> st in D[k]
    ensures st in Least(g, tokens)[k]
  {
    UniverseMembership(g, k, st);
  }

  /** Items of the least chart respect the dot and origin bounds of their column. */
  lemma LeastWellFormed(g: Grammar, tokens: seq<string>, k: nat, st: State)
    requires k <= |tokens| && st in Least(g, tokens)[k]
    ensures InUniverse(g, k, st)
    ensures st.WellFormed() && st.start <= k
  {
    UniverseMembership(g, k, st);
  }

  /** The completer only looks at one column, so it is monotone in it. */
  lemma CompletedMonotone(st: State, C: seq<set<State>>, D: seq<set<State>>)
    requires |C| == |D|
    requires st.start < |C| ==> C[st.start] <= D[st.start]
    ensures Completed(st, C) <= Completed(st, D)
  {
  }

  /** Each rule maps an item of the universe (and completed items of an earlier column) into the universe. */
  lemma ConsequencesInUniverse(g: Grammar, tokens: seq<string>, C: seq<set<State>>, i: nat, st: State)
    requires i < |C| && InUniverse(g, i, st)
    requires forall k, s :: 0 <= k <= i && s in C[k] ==> InUniverse(g, k, s)
    ensures forall q :: q in Predicted(g, st, i) ==> InUniverse(g, i, q)
    ensures forall q :: q in Completed(st, C) ==> InUniverse(g, i, q)
    ensures forall q :: q in Scanned(tokens, i, st) ==> InUniverse(g, i + 1, q)
  {
    forall q | q in Predicted(g, st, i) ensures InUniverse(g, i, q) {
      var x := st.NextSymbol().value.nt;
      var p :| p in g.ProductionsFor(x) && q == State(p, 0, i);
      ProductionsForMembership(g, x, p);
    }
    forall q | q in Completed(st, C) ensures InUniverse(g, i, q) {
      var prev :| prev in C[st.start] && prev.NextSymbol() == Some(NT(st.production.lhs)) && q == prev.Advance();
      assert InUniverse(g, st.start, prev);
    }
  }

  /** The least closed chart is itself closed: it is the least fixpoint of the rules. */
  lemma LeastClosed(g: Grammar, tokens: seq<string>)
    ensures Closed(g, tokens, Least(g, tokens))
  {
    var L := Least(g, tokens);
    forall st | st in Seeds(g) ensures st in L[0] {
      var p :| p in g.ProductionsFor(g.start) && st == State(p, 0, 0);
      ProductionsForMembership(g, g.start, p);
      InLeast(g, tokens, 0, st);
    }
    forall i, st | 0 <= i < |L| && st in L[i] ensures ItemClosed(g, tokens, L, i, st) {
      ItemInLeastClosed(g, tokens, i, st);
    }
  }

  lemma ItemInLeastClosed(g: Grammar, tokens: seq<string>, i: nat, st: State)
    requires i <= |tokens| && st in Least(g, tokens)[i]
    ensures ItemClosed(g, tokens, Least(g, tokens), i, st)
  {
    var L := Least(g, tokens);
    forall k, s | 0 <= k <= i && s in L[k] ensures InUniverse(g, k, s) {
      LeastWellFormed(g, tokens, k, s);
    }
    LeastWellFormed(g, tokens, i, st);
    ConsequencesInUniverse(g, tokens, L, i, st);
    forall q | q in Predicted(g, st, i) ensures q in L[i] {
      forall D | Closed(g, tokens, D) ensures q in D[i] {
        assert st in D[i];
        assert ItemClosed(g, tokens, D, i, st);
      }
      InLeast(g, tokens, i, q);
    }
    forall q | q in Completed(st, L) ensures q in L[i] {
      forall D | Closed(g, tokens, D) ensures q in D[i] {
        assert st in D[i];
        assert ItemClosed(g, tokens, D, i, st);
        LeastBelow(g, tokens, D);
        CompletedMonotone(st, L, D);
      }
      InLeast(g, tokens, i, q);
    }
    if i + 1 < |L| {
      forall q | q in Scanned(tokens, i, st) ensures q in L[i + 1] {
        forall D | Closed(g, tokens, D) ensures q in D[i + 1] {
          assert st in D[i];
          assert ItemClosed(g, tokens, D, i, st);
        }
        InLeast(g, tokens, i + 1, q);
      }
    }
  }

  /** A closed chart inside the least one is the least one. */
  lemma ClosedSoundIsLeast(g: Grammar, tokens: seq<string>, C: seq<set<State>>)
    requires Closed(g, tokens, C) && Sound(g, tokens, C)
    ensures C == Least(g, tokens)
  {
    LeastBelow(g, tokens, C);
    var L := Least(g, tokens);
    forall k | 0 <= k < |C| ensures C[k] == L[k] {
    }
  }

  /** The consequences of an item of a sound chart are in the least chart, so adding them keeps the chart sound. */
  lemma ConsequencesSound(g: Grammar, tokens: seq<string>, C: seq<set<State>>, i: nat, st: State)
    requires Sound(g, tokens, C) && i < |C| && st in C[i]
    ensures Predicted(g, st, i) <= Least(g, tokens)[i]
    ensures Completed(st, C) <= Least(g, tokens)[i]
    ensures i + 1 < |C| ==> Scanned(tokens, i, st) <= Least(g, tokens)[i + 1]
  {
    var L := Least(g, tokens);
    ItemInLeastClosed(g, tokens, i, st);
    LeastWellFormed(g, tokens, i, st);
    CompletedMonotone(st, C, L);
  }
}
