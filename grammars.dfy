/** Grammars: a map from each nonterminal to its ordered alternatives, plus a start symbol. */
module Grammars {
  import opened Items

  datatype Grammar = Grammar(rules: map<NonTerminal, seq<seq<Sym>>>, start: NonTerminal)
  {
    /** The alternatives declared for `nt`; none when `nt` has no entry. */
    function Alternatives(nt: NonTerminal): seq<seq<Sym>> {
      if nt in rules then rules[nt] else []
    }

    /** One production `nt -> alt` per declared alternative `alt`, in declaration order. */
    function ProductionsFor(nt: NonTerminal): (r: seq<Production>)
      ensures |r| == |Alternatives(nt)|
      ensures forall k :: 0 <= k < |r| ==> r[k].lhs == nt && r[k].rhs == Alternatives(nt)[k]
      ensures nt !in rules ==> r == []
    {
      Pair(nt, Alternatives(nt))
    }

    /** Every production of the grammar. */
    ghost function AllProductions(): set<Production> {
      set nt, alt | nt in rules && alt in rules[nt] :: Production(nt, alt)
    }
  }

  /** The list comprehension of `productions_for`: pair `nt` with each alternative in turn. */
  function Pair(nt: NonTerminal, alts: seq<seq<Sym>>): (r: seq<Production>)
    ensures |r| == |alts|
    ensures forall k :: 0 <= k < |r| ==> r[k] == Production(nt, alts[k])
  {
    if alts == [] then [] else [Production(nt, alts[0])] + Pair(nt, alts[1..])
  }

  /** A production is offered for `nt` exactly when it is `nt -> alt` for a declared alternative `alt`. */
  lemma ProductionsForMembership(g: Grammar, nt: NonTerminal, p: Production)
    ensures p in g.ProductionsFor(nt) <==> p.lhs == nt && nt in g.rules && p.rhs in g.rules[nt]
    ensures p in g.ProductionsFor(nt) ==> p in g.AllProductions()
  {
    var r := g.ProductionsFor(nt);
    if p in r {
      var k :| 0 <= k < |r| && r[k] == p;
    }
    if p.lhs == nt && nt in g.rules && p.rhs in g.rules[nt] {
      var k :| 0 <= k < |g.rules[nt]| && g.rules[nt][k] == p.rhs;
      assert r[k] == p;
    }
  }

  /** A production belongs to the grammar exactly when its right-hand side is declared for its left-hand side. */
  lemma AllProductionsMembership(g: Grammar, p: Production)
    ensures p in g.AllProductions() <==> p.lhs in g.rules && p.rhs in g.rules[p.lhs]
  {
    if p.lhs in g.rules && p.rhs in g.rules[p.lhs] {
      assert p == Production(p.lhs, p.rhs);
    }
  }

  /** The sample grammar used by the recognizer's own driver. */
  const Rules: map<NonTerminal, seq<seq<Sym>>> := map[
    S  := [[NT(NP), NT(VP)]],
    NP := [[NT(N), NT(PP)], [NT(N)]],
    PP := [[NT(P), NT(NP)]],
    VP := [[NT(VP), NT(PP)], [NT(V), NT(VP)], [NT(V), NT(NP)], [NT(V)]],
    N  := [[T("can")], [T("fish")], [T("they")], [T("rivers")], [T("December")]],
    P  := [[T("in")]],
    V  := [[T("can")], [T("they")]]
  ]

  const SampleGrammar: Grammar := Grammar(Rules, S)
}
