/**
 * Derivability in the grammar, by parse trees, and its link to the
 * recognizer: the least closed chart accepts an input exactly when the
 * start symbol derives it.
 */
module Derivations {
  import opened Wrappers
  import opened Items
  import opened Grammars
  import opened Closure

  /** A parse tree: a token, or a production applied to one subtree per right-hand-side symbol. */
  datatype Tree = Leaf(tok: string) | Node(production: Production, kids: seq<Tree>)
  {
    /** The symbol the tree stands for. */
    function Root(): Sym {
      match this
      case Leaf(a) => T(a)
      case Node(p, _) => NT(p.lhs)
    }
  }

  /** Every node of `t` applies a production of `g`, with subtrees rooted at its right-hand side in order. */
  ghost predicate Valid(g: Grammar, t: Tree)
    decreases t
  {
    match t
    case Leaf(_) => true
    case Node(p, kids) =>
      && p in g.AllProductions()
      && |kids| == |p.rhs|
      && forall k :: 0 <= k < |kids| ==> kids[k].Root() == p.rhs[k] && Valid(g, kids[k])
  }

  /** The tokens at the leaves of `t`, left to right. */
  function Yield(t: Tree): seq<string>
    decreases t
  {
    match t
    case Leaf(a) => [a]
    case Node(_, kids) => Flatten(kids)
  }

  /** The leaves of a forest, tree after tree. */
  function Flatten(ts: seq<Tree>): seq<string>
    decreases ts
  {
    if ts == [] then [] else Yield(ts[0]) + Flatten(ts[1..])
  }

  /** `ts` holds one valid tree per symbol of `syms`, and its leaves spell `toks`. */
  ghost predicate Spells(g: Grammar, ts: seq<Tree>, syms: seq<Sym>, toks: seq<string>) {
    && |ts| == |syms|
    && (forall k :: 0 <= k < |ts| ==> ts[k].Root() == syms[k] && Valid(g, ts[k]))
    && Flatten(ts) == toks
  }

  /** The symbols `syms` derive the tokens `toks`. */
  ghost predicate Derives(g: Grammar, syms: seq<Sym>, toks: seq<string>) {
    exists ts :: Spells(g, ts, syms, toks)
  }

  /** The start symbol of `g` derives `tokens`: the input is a sentence of the grammar. */
  ghost predicate Generates(g: Grammar, tokens: seq<string>) {
    Derives(g, [NT(g.start)], tokens)
  }

  lemma {:induction false} FlattenAppend(ts: seq<Tree>, t: Tree)
    ensures Flatten(ts + [t]) == Flatten(ts) + Yield(t)
    decreases ts
  {
    if ts == [] {
      assert [] + [t] == [t];
    } else {
      assert (ts + [t])[1..] == ts[1..] + [t];
      FlattenAppend(ts[1..], t);
    }
  }

  /** A forest spelling `syms` / `toks` extended by one more tree spells one more symbol and its leaves. */
  lemma SpellsAppend(g: Grammar, ts: seq<Tree>, syms: seq<Sym>, toks: seq<string>, t: Tree)
    requires Spells(g, ts, syms, toks) && Valid(g, t)
    ensures Spells(g, ts + [t], syms + [t.Root()], toks + Yield(t))
  {
    FlattenAppend(ts, t);
  }

  // ---------------------------------------------------------------------------
  // Soundness: every item of the least chart records a derivation

  /** Item `st` of column `k` is justified: its matched prefix derives the tokens from its origin to `k`. */
  ghost predicate Justified(g: Grammar, tokens: seq<string>, st: State, k: nat) {
    && st.start <= k <= |tokens|
    && st.WellFormed()
    && Derives(g, st.Matched(), tokens[st.start..k])
  }

  /** The chart of all justified items of the universe. */
  ghost function JustifiedChart(g: Grammar, tokens: seq<string>): (J: seq<set<State>>)
    ensures |J| == |tokens| + 1
  {
    seq(|tokens| + 1, k requires 0 <= k <= |tokens| =>
      set st | st in Universe(g, k) && Justified(g, tokens, st, k))
  }

  lemma InJustifiedChart(g: Grammar, tokens: seq<string>, k: nat, st: State)
    requires k <= |tokens|
    ensures st in JustifiedChart(g, tokens)[k] <==> InUniverse(g, k, st) && Justified(g, tokens, st, k)
  {
    UniverseMembership(g, k, st);
  }

  /** A fresh item of column `i` is justified by the empty forest. */
  lemma FreshJustified(g: Grammar, tokens: seq<string>, p: Production, i: nat)
    requires i <= |tokens|
    ensures Justified(g, tokens, State(p, 0, i), i)
  {
    assert Spells(g, [], [], tokens[i..i]);
  }

  /** The scanner keeps items justified: the scanned token is a leaf. */
  lemma ScanJustified(g: Grammar, tokens: seq<string>, st: State, i: nat)
    requires Justified(g, tokens, st, i) && i < |tokens|
    requires st.NextSymbol() == Some(T(tokens[i]))
    ensures Justified(g, tokens, st.Advance(), i + 1)
  {
    var ts :| Spells(g, ts, st.Matched(), tokens[st.start..i]);
    AdvanceConsumesNext(st);
    SpellsAppend(g, ts, st.Matched(), tokens[st.start..i], Leaf(tokens[i]));
    assert tokens[st.start..i] + [tokens[i]] == tokens[st.start..i + 1];
  }

  /** The completer keeps items justified: the complete item becomes one subtree of the waiting item. */
  lemma CompleteJustified(g: Grammar, tokens: seq<string>, st: State, i: nat, prev: State)
    requires Justified(g, tokens, st, i) && InUniverse(g, i, st) && st.IsComplete()
    requires Justified(g, tokens, prev, st.start) && prev.NextSymbol() == Some(NT(st.production.lhs))
    ensures Justified(g, tokens, prev.Advance(), i)
  {
    var p := st.production;
    var kids :| Spells(g, kids, st.Matched(), tokens[st.start..i]);
    assert st.Matched() == p.rhs;
    var node := Node(p, kids);
    assert Valid(g, node);
    var ts :| Spells(g, ts, prev.Matched(), tokens[prev.start..st.start]);
    AdvanceConsumesNext(prev);
    SpellsAppend(g, ts, prev.Matched(), tokens[prev.start..st.start], node);
    assert tokens[prev.start..st.start] + tokens[st.start..i] == tokens[prev.start..i];
  }

  lemma JustifiedItemClosed(g: Grammar, tokens: seq<string>, i: nat, st: State)
    requires i <= |tokens| && st in JustifiedChart(g, tokens)[i]
    ensures ItemClosed(g, tokens, JustifiedChart(g, tokens), i, st)
  {
    var J := JustifiedChart(g, tokens);
    forall k, s | 0 <= k <= i && s in J[k] ensures InUniverse(g, k, s) {
      InJustifiedChart(g, tokens, k, s);
    }
    InJustifiedChart(g, tokens, i, st);
    ConsequencesInUniverse(g, tokens, J, i, st);
    forall q | q in Predicted(g, st, i) ensures q in J[i] {
      FreshJustified(g, tokens, q.production, i);
      InJustifiedChart(g, tokens, i, q);
    }
    forall q | q in Completed(st, J) ensures q in J[i] {
      var prev: State :| prev in J[st.start] && prev.NextSymbol() == Some(NT(st.production.lhs)) && q == prev.Advance();
      InJustifiedChart(g, tokens, st.start, prev);
      CompleteJustified(g, tokens, st, i, prev);
      InJustifiedChart(g, tokens, i, q);
    }
    if i + 1 < |J| {
      forall q | q in Scanned(tokens, i, st) ensures q in J[i + 1] {
        ScanJustified(g, tokens, st, i);
        InJustifiedChart(g, tokens, i + 1, q);
      }
    }
  }

  /** The chart of justified items is closed, so it contains the least closed chart. */
  lemma JustifiedChartClosed(g: Grammar, tokens: seq<string>)
    ensures Closed(g, tokens, JustifiedChart(g, tokens))
  {
    var J := JustifiedChart(g, tokens);
    forall st | st in Seeds(g) ensures st in J[0] {
      ProductionsForMembership(g, g.start, st.production);
      FreshJustified(g, tokens, st.production, 0);
      InJustifiedChart(g, tokens, 0, st);
    }
    forall i, st | 0 <= i < |J| && st in J[i] ensures ItemClosed(g, tokens, J, i, st) {
      JustifiedItemClosed(g, tokens, i, st);
    }
  }

  /** Soundness: an accepted input is a sentence of the grammar. */
  lemma AcceptsSound(g: Grammar, tokens: seq<string>)
    requires Accepts(g, tokens)
    ensures Generates(g, tokens)
  {
    var n := |tokens|;
    var st :| st in Accepting(g, Least(g, tokens)[n]);
    JustifiedChartClosed(g, tokens);
    LeastBelow(g, tokens, JustifiedChart(g, tokens));
    InJustifiedChart(g, tokens, n, st);
    var p := st.production;
    var kids :| Spells(g, kids, st.Matched(), tokens[0..n]);
    assert st.Matched() == p.rhs && tokens[0..n] == tokens;
    var t := Node(p, kids);
    assert Valid(g, t);
    assert Flatten([t]) == Yield(t) + Flatten([]);
    assert Spells(g, [t], [NT(g.start)], tokens);
  }

  // ---------------------------------------------------------------------------
  // Completeness: every closed chart follows every derivation

  /** The tokens from column `m` on spell `w`. */
  ghost predicate SpelledFrom(tokens: seq<string>, m: nat, w: seq<string>) {
    m + |w| <= |tokens| && tokens[m..m + |w|] == w
  }

  /** An item of column `m` waiting for the root of tree `t` advances into the column where `t`'s leaves end. */
  lemma {:induction false} TreeFollowed(g: Grammar, tokens: seq<string>, D: seq<set<State>>, st: State, m: nat, t: Tree)
    requires Closed(g, tokens, D) && m < |D| && st in D[m]
    requires st.NextSymbol() == Some(t.Root()) && Valid(g, t) && SpelledFrom(tokens, m, Yield(t))
    ensures st.Advance() in D[m + |Yield(t)|]
    decreases t, 0
  {
    assert ItemClosed(g, tokens, D, m, st);
    match t
    case Leaf(a) =>
      assert Scanned(tokens, m, st) == {st.Advance()};
    case Node(q, kids) =>
      AllProductionsMembership(g, q);
      ProductionsForMembership(g, q.lhs, q);
      assert State(q, 0, m) in Predicted(g, st, m);
      KidsFollowed(g, tokens, D, q, kids, 0, m, m);
      var e := m + |Yield(t)|;
      var done := State(q, |q.rhs|, m);
      assert ItemClosed(g, tokens, D, e, done);
      assert st.Advance() in AdvancedOver(D[m], q.lhs);
  }

  /** An item at dot `d` in column `m` whose remaining subtrees spell the tokens from `m` on completes where they end. */
  lemma {:induction false} KidsFollowed(g: Grammar, tokens: seq<string>, D: seq<set<State>>,
                                        p: Production, kids: seq<Tree>, d: nat, j: nat, m: nat)
    requires Closed(g, tokens, D) && m < |D| && State(p, d, j) in D[m]
    requires d <= |kids| == |p.rhs|
    requires forall k :: 0 <= k < |kids| ==> kids[k].Root() == p.rhs[k] && Valid(g, kids[k])
    requires SpelledFrom(tokens, m, Flatten(kids[d..]))
    ensures State(p, |p.rhs|, j) in D[m + |Flatten(kids[d..])|]
    decreases kids, |kids| - d
  {
    if d < |kids| {
      var w := Yield(kids[d]);
      var rest := Flatten(kids[d + 1..]);
      assert kids[d..][1..] == kids[d + 1..];
      assert Flatten(kids[d..]) == w + rest;
      assert tokens[m..m + |w|] == (w + rest)[..|w|];
      TreeFollowed(g, tokens, D, State(p, d, j), m, kids[d]);
      assert tokens[m + |w|..m + |w| + |rest|] == (w + rest)[|w|..];
      KidsFollowed(g, tokens, D, p, kids, d + 1, j, m + |w|);
    }
  }

  /** Completeness: a sentence of the grammar is accepted. */
  lemma GeneratesAccepted(g: Grammar, tokens: seq<string>)
    requires Generates(g, tokens)
    ensures Accepts(g, tokens)
  {
    var n := |tokens|;
    var ts :| Spells(g, ts, [NT(g.start)], tokens);
    var t := ts[0];
    assert Flatten(ts) == Yield(t) + Flatten(ts[1..]);
    assert t.Node?;
    var p, kids := t.production, t.kids;
    var item := State(p, |p.rhs|, 0);
    forall D | Closed(g, tokens, D) ensures item in D[n] {
      AllProductionsMembership(g, p);
      ProductionsForMembership(g, g.start, p);
      assert State(p, 0, 0) in Seeds(g);
      assert kids[0..] == kids && tokens[0..n] == tokens;
      KidsFollowed(g, tokens, D, p, kids, 0, 0, 0);
    }
    InLeast(g, tokens, n, item);
    assert item in Accepting(g, Least(g, tokens)[n]);
  }

  /** The recognizer's acceptance is exactly derivability from the start symbol. */
  lemma AcceptsIffGenerates(g: Grammar, tokens: seq<string>)
    ensures Accepts(g, tokens) <==> Generates(g, tokens)
  {
    if Accepts(g, tokens) {
      AcceptsSound(g, tokens);
    }
    if Generates(g, tokens) {
      GeneratesAccepted(g, tokens);
    }
  }
}
