/**
 * Grammar symbols, productions and Earley items (the `State` value type).
 * All of them are immutable values compared structurally, as the frozen
 * dataclasses of the recognizer are.
 */
module Items {
  import opened Wrappers

  /** The closed set of nonterminals of the recognizer. */
  datatype NonTerminal = S | NP | VP | PP | N | V | P

  /** A right-hand-side symbol: a nonterminal, or a terminal matched against a token by exact equality. */
  datatype Sym = NT(nt: NonTerminal) | T(tok: string)

  /** One rewrite rule `lhs -> rhs`. */
  datatype Production = Production(lhs: NonTerminal, rhs: seq<Sym>)

  /**
   * An Earley item: a production, how much of its right-hand side has been
   * matched (`dot`) and the chart column where the match began (`start`).
   */
  datatype State = State(production: Production, dot: nat, start: nat)
  {
    /** The whole right-hand side has been matched. */
    predicate IsComplete() {
      dot >= |production.rhs|
    }

    /** The symbol right after the dot, or `None` when the item is complete. */
    function NextSymbol(): Option<Sym> {
      if IsComplete() then None else Some(production.rhs[dot])
    }

    /** The same item with the dot moved one symbol to the right. */
    function Advance(): State {
      State(production, dot + 1, start)
    }

    /** The dot lies inside the right-hand side (both ends included). */
    predicate WellFormed() {
      dot <= |production.rhs|
    }

    /** The part of the right-hand side already matched. */
    function Matched(): seq<Sym>
      requires WellFormed()
    {
      production.rhs[..dot]
    }
  }

  /** `NextSymbol` is absent exactly for complete items and is the symbol at the dot otherwise. */
  lemma NextSymbolIffIncomplete(st: State)
    ensures st.NextSymbol() == None <==> st.dot >= |st.production.rhs|
    ensures st.NextSymbol() != None ==>
      st.dot < |st.production.rhs| && st.NextSymbol().value == st.production.rhs[st.dot]
  {
  }

  /**
   * `Advance` keeps the production and the origin and moves the dot by one;
   * applied to an incomplete well-formed item it stays well-formed and its
   * matched prefix grows by exactly the symbol that was next.
   */
  lemma AdvanceConsumesNext(st: State)
    requires st.WellFormed() && st.NextSymbol().Some?
    ensures st.Advance().production == st.production && st.Advance().start == st.start
    ensures st.Advance().dot == st.dot + 1
    ensures st.Advance().WellFormed()
    ensures st.Advance().Matched() == st.Matched() + [st.NextSymbol().value]
  {
    var rhs := st.production.rhs;
    assert rhs[..st.dot + 1] == rhs[..st.dot] + [rhs[st.dot]];
  }
}
