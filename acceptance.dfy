/**
 * What acceptance means on concrete inputs and in general: the sample
 * sentences are accepted, inputs that cannot start a derivation are
 * rejected, and the returned count is bounded by the start symbol's
 * alternatives (so it is not a derivation count).
 */
module Acceptance {
  import opened Wrappers
  import opened Items
  import opened Grammars
  import opened Closure
  import opened Sets

  // ---------------------------------------------------------------------------
  // One rule application inside an arbitrary closed chart

  lemma SeedStep(g: Grammar, tokens: seq<string>, D: seq<set<State>>, p: Production)
    requires Closed(g, tokens, D) && p in g.ProductionsFor(g.start)
    ensures State(p, 0, 0) in D[0]
  {
    assert State(p, 0, 0) in Seeds(g);
  }

  lemma PredictStep(g: Grammar, tokens: seq<string>, D: seq<set<State>>, i: nat, st: State, p: Production)
    requires Closed(g, tokens, D) && i < |D| && st in D[i]
    requires st.NextSymbol() == Some(NT(p.lhs)) && p in g.ProductionsFor(p.lhs)
    ensures State(p, 0, i) in D[i]
  {
    assert ItemClosed(g, tokens, D, i, st);
    assert State(p, 0, i) in Predicted(g, st, i);
  }

  lemma ScanStep(g: Grammar, tokens: seq<string>, D: seq<set<State>>, i: nat, st: State)
    requires Closed(g, tokens, D) && i < |tokens| && st in D[i]
    requires st.NextSymbol() == Some(T(tokens[i]))
    ensures st.Advance() in D[i + 1]
  {
    assert ItemClosed(g, tokens, D, i, st);
  }

  lemma CompleteStep(g: Grammar, tokens: seq<string>, D: seq<set<State>>, i: nat, st: State, prev: State)
    requires Closed(g, tokens, D) && i < |D| && st in D[i]
    requires st.IsComplete() && st.start <= i && prev in D[st.start]
    requires prev.NextSymbol() == Some(NT(st.production.lhs))
    ensures prev.Advance() in D[i]
  {
    assert ItemClosed(g, tokens, D, i, st);
    assert prev.Advance() in AdvancedOver(D[st.start], st.production.lhs);
  }

  /** Alternative `k` of `nt` is offered by `ProductionsFor(nt)`. */
  lemma Offered(g: Grammar, nt: NonTerminal, k: nat)
    requires nt in g.rules && k < |g.rules[nt]|
    ensures Production(nt, g.rules[nt][k]) in g.ProductionsFor(nt)
    ensures Production(nt, g.rules[nt][k]) in g.AllProductions()
  {
    assert g.ProductionsFor(nt)[k] == Production(nt, g.rules[nt][k]);
  }

  /** A complete start item with origin 0 in the last column of the least chart means acceptance. */
  lemma AcceptedBy(g: Grammar, tokens: seq<string>, p: Production)
    requires p.lhs == g.start && p in g.AllProductions()
    requires forall D :: Closed(g, tokens, D) ==> State(p, |p.rhs|, 0) in D[|tokens|]
    ensures Accepts(g, tokens)
  {
    var n := |tokens|;
    InLeast(g, tokens, n, State(p, |p.rhs|, 0));
    assert State(p, |p.rhs|, 0) in Accepting(g, Least(g, tokens)[n]);
  }

  // ---------------------------------------------------------------------------
  // The sample grammar

  const SentenceRule := Production(S, [NT(NP), NT(VP)])
  const NounPhrase := Production(NP, [NT(N)])
  const NounWithPP := Production(NP, [NT(N), NT(PP)])
  const PrepPhrase := Production(PP, [NT(P), NT(NP)])
  const VerbObject := Production(VP, [NT(V), NT(NP)])

  /** The sample grammar offers `nt -> [T(w)]` as its alternative `k`. */
  ghost predicate Word(nt: NonTerminal, w: string, k: nat) {
    nt in Rules && k < |Rules[nt]| && Rules[nt][k] == [T(w)]
  }

  /** A chart closed for `tokens` whose first token is a noun holds `S -> NP . VP` from 0 in column 1. */
  lemma {:induction false} SubjectNoun(tokens: seq<string>, D: seq<set<State>>, ka: nat)
    requires Closed(SampleGrammar, tokens, D) && |tokens| >= 1 && Word(N, tokens[0], ka)
    ensures State(SentenceRule, 1, 0) in D[1]
  {
    var g := SampleGrammar;
    Offered(g, S, 0);
    SeedStep(g, tokens, D, SentenceRule);
    BareNoun(tokens, D, 0, State(SentenceRule, 0, 0), ka);
    CompleteStep(g, tokens, D, 1, State(NounPhrase, 1, 0), State(SentenceRule, 0, 0));
  }

  /** Waiting for a VP at column `i` and reading a verb there, a closed chart holds `VP -> V . NP` from `i` in column `i + 1`. */
  lemma {:induction false} VerbThenObject(tokens: seq<string>, D: seq<set<State>>, i: nat, st: State, kb: nat)
    requires Closed(SampleGrammar, tokens, D) && i < |tokens| && st in D[i]
    requires st.NextSymbol() == Some(NT(VP)) && Word(V, tokens[i], kb)
    ensures State(VerbObject, 1, i) in D[i + 1]
  {
    var g := SampleGrammar;
    var vb := Production(V, [T(tokens[i])]);
    Offered(g, VP, 2); Offered(g, V, kb);
    PredictStep(g, tokens, D, i, st, VerbObject);
    PredictStep(g, tokens, D, i, State(VerbObject, 0, i), vb);
    ScanStep(g, tokens, D, i, State(vb, 0, i));
    CompleteStep(g, tokens, D, i + 1, State(vb, 1, i), State(VerbObject, 0, i));
  }

  /** Waiting for an NP at column `i` and reading a noun there, a closed chart holds `NP -> N .` from `i` in column `i + 1`. */
  lemma {:induction false} BareNoun(tokens: seq<string>, D: seq<set<State>>, i: nat, st: State, kc: nat)
    requires Closed(SampleGrammar, tokens, D) && i < |tokens| && st in D[i]
    requires st.NextSymbol() == Some(NT(NP)) && Word(N, tokens[i], kc)
    ensures State(NounPhrase, 1, i) in D[i + 1]
  {
    var g := SampleGrammar;
    var nc := Production(N, [T(tokens[i])]);
    Offered(g, NP, 1); Offered(g, N, kc);
    PredictStep(g, tokens, D, i, st, NounPhrase);
    PredictStep(g, tokens, D, i, State(NounPhrase, 0, i), nc);
    ScanStep(g, tokens, D, i, State(nc, 0, i));
    CompleteStep(g, tokens, D, i + 1, State(nc, 1, i), State(NounPhrase, 0, i));
  }

  /** Every sentence `noun verb noun` of the sample grammar is accepted, as NP(N) VP(V NP(N)). */
  lemma {:induction false} NounVerbNounAccepted(tokens: seq<string>, ka: nat, kb: nat, kc: nat)
    requires |tokens| == 3 && Word(N, tokens[0], ka) && Word(V, tokens[1], kb) && Word(N, tokens[2], kc)
    ensures Accepts(SampleGrammar, tokens)
  {
    var g := SampleGrammar;
    forall D | Closed(g, tokens, D) ensures State(SentenceRule, 2, 0) in D[3] {
      SubjectNoun(tokens, D, ka);
      VerbThenObject(tokens, D, 1, State(SentenceRule, 1, 0), kb);
      BareNoun(tokens, D, 2, State(VerbObject, 1, 1), kc);
      CompleteStep(g, tokens, D, 3, State(NounPhrase, 1, 2), State(VerbObject, 1, 1));
      CompleteStep(g, tokens, D, 3, State(VerbObject, 2, 1), State(SentenceRule, 1, 0));
    }
    Offered(g, S, 0);
    AcceptedBy(g, tokens, SentenceRule);
  }

  /** Waiting for an NP at column `i` and reading a noun there, a closed chart holds `NP -> N . PP` from `i` in column `i + 1`. */
  lemma {:induction false} NounBeforePP(tokens: seq<string>, D: seq<set<State>>, i: nat, st: State, kn: nat)
    requires Closed(SampleGrammar, tokens, D) && i < |tokens| && st in D[i]
    requires st.NextSymbol() == Some(NT(NP)) && Word(N, tokens[i], kn)
    ensures State(NounWithPP, 1, i) in D[i + 1]
  {
    var g := SampleGrammar;
    var nn := Production(N, [T(tokens[i])]);
    Offered(g, NP, 0); Offered(g, N, kn);
    PredictStep(g, tokens, D, i, st, NounWithPP);
    PredictStep(g, tokens, D, i, State(NounWithPP, 0, i), nn);
    ScanStep(g, tokens, D, i, State(nn, 0, i));
    CompleteStep(g, tokens, D, i + 1, State(nn, 1, i), State(NounWithPP, 0, i));
  }

  /** Waiting for a PP at column `i` and reading "in" there, a closed chart holds `PP -> P . NP` from `i` in column `i + 1`. */
  lemma {:induction false} Preposition(tokens: seq<string>, D: seq<set<State>>, i: nat, st: State)
    requires Closed(SampleGrammar, tokens, D) && i < |tokens| && st in D[i]
    requires st.NextSymbol() == Some(NT(PP)) && tokens[i] == "in"
    ensures State(PrepPhrase, 1, i) in D[i + 1]
  {
    var g := SampleGrammar;
    var pin := Production(P, [T("in")]);
    Offered(g, PP, 0); Offered(g, P, 0);
    PredictStep(g, tokens, D, i, st, PrepPhrase);
    PredictStep(g, tokens, D, i, State(PrepPhrase, 0, i), pin);
    ScanStep(g, tokens, D, i, State(pin, 0, i));
    CompleteStep(g, tokens, D, i + 1, State(pin, 1, i), State(PrepPhrase, 0, i));
  }

  /** The driver's first sentence is accepted, as they (can (fish (in (rivers (in December))))). */
  lemma TheyCanFishInRiversInDecemberAccepted()
    ensures Accepts(SampleGrammar, ["they", "can", "fish", "in", "rivers", "in", "December"])
  {
    var g, tokens := SampleGrammar, ["they", "can", "fish", "in", "rivers", "in", "December"];
    forall D | Closed(g, tokens, D) ensures State(SentenceRule, 2, 0) in D[7] {
      LeftToRight(tokens, D);
      RightSpine(tokens, D);
    }
    Offered(g, S, 0);
    AcceptedBy(g, tokens, SentenceRule);
  }

  /** Waiting for an NP at column `i`, reading a noun and then "in", a closed chart has started the PP after the noun. */
  lemma {:induction false} NounThenIn(tokens: seq<string>, D: seq<set<State>>, i: nat, st: State, kn: nat)
    requires Closed(SampleGrammar, tokens, D) && i + 1 < |tokens| && st in D[i]
    requires st.NextSymbol() == Some(NT(NP)) && Word(N, tokens[i], kn) && tokens[i + 1] == "in"
    ensures State(NounWithPP, 1, i) in D[i + 1] && State(PrepPhrase, 1, i + 1) in D[i + 2]
  {
    NounBeforePP(tokens, D, i, st, kn);
    Preposition(tokens, D, i + 1, State(NounWithPP, 1, i));
  }

  /** Reading the first sample sentence left to right: each phrase is started and its head word consumed. */
  lemma {:induction false} LeftToRight(tokens: seq<string>, D: seq<set<State>>)
    requires tokens == ["they", "can", "fish", "in", "rivers", "in", "December"]
    requires Closed(SampleGrammar, tokens, D)
    ensures State(SentenceRule, 1, 0) in D[1] && State(VerbObject, 1, 1) in D[2]
    ensures State(NounWithPP, 1, 2) in D[3] && State(PrepPhrase, 1, 3) in D[4]
    ensures State(NounWithPP, 1, 4) in D[5] && State(PrepPhrase, 1, 5) in D[6]
    ensures State(NounPhrase, 1, 6) in D[7]
  {
    TheyCanFishIn(tokens, D);
    RiversInDecember(tokens, D);
  }

  /** "rivers in December", the object of the first "in". */
  lemma {:induction false} RiversInDecember(tokens: seq<string>, D: seq<set<State>>)
    requires |tokens| == 7 && tokens[4] == "rivers" && tokens[5] == "in" && tokens[6] == "December"
    requires Closed(SampleGrammar, tokens, D) && State(PrepPhrase, 1, 3) in D[4]
    ensures State(NounWithPP, 1, 4) in D[5] && State(PrepPhrase, 1, 5) in D[6]
    ensures State(NounPhrase, 1, 6) in D[7]
  {
    SampleWords();
    NounThenIn(tokens, D, 4, State(PrepPhrase, 1, 3), 3);
    BareNoun(tokens, D, 6, State(PrepPhrase, 1, 5), 4);
  }

  /** "they can fish in": up to the first preposition. */
  lemma {:induction false} TheyCanFishIn(tokens: seq<string>, D: seq<set<State>>)
    requires tokens == ["they", "can", "fish", "in", "rivers", "in", "December"]
    requires Closed(SampleGrammar, tokens, D)
    ensures State(SentenceRule, 1, 0) in D[1] && State(VerbObject, 1, 1) in D[2]
    ensures State(NounWithPP, 1, 2) in D[3] && State(PrepPhrase, 1, 3) in D[4]
  {
    TheyCan(tokens, D);
    SampleWords();
    NounThenIn(tokens, D, 2, State(VerbObject, 1, 1), 1);
  }

  lemma SampleWords()
    ensures Word(N, "can", 0) && Word(N, "fish", 1) && Word(N, "they", 2)
    ensures Word(N, "rivers", 3) && Word(N, "December", 4)
    ensures Word(V, "can", 0) && Word(V, "they", 1)
  {
  }

  /** "they can": the subject NP is complete and the verb of `VP -> V NP` consumed. */
  lemma {:induction false} TheyCan(tokens: seq<string>, D: seq<set<State>>)
    requires |tokens| >= 2 && tokens[0] == "they" && tokens[1] == "can"
    requires Closed(SampleGrammar, tokens, D)
    ensures State(SentenceRule, 1, 0) in D[1] && State(VerbObject, 1, 1) in D[2]
  {
    SampleWords();
    SubjectNoun(tokens, D, 2);
    VerbThenObject(tokens, D, 1, State(SentenceRule, 1, 0), 0);
  }

  /** The completions at the end of the first sample sentence, from the innermost NP out to S. */
  lemma {:induction false} RightSpine(tokens: seq<string>, D: seq<set<State>>)
    requires |tokens| == 7 && Closed(SampleGrammar, tokens, D)
    requires State(SentenceRule, 1, 0) in D[1] && State(VerbObject, 1, 1) in D[2]
    requires State(NounWithPP, 1, 2) in D[3] && State(PrepPhrase, 1, 3) in D[4]
    requires State(NounWithPP, 1, 4) in D[5] && State(PrepPhrase, 1, 5) in D[6]
    requires State(NounPhrase, 1, 6) in D[7]
    ensures State(SentenceRule, 2, 0) in D[7]
  {
    var g := SampleGrammar;
    CompleteStep(g, tokens, D, 7, State(NounPhrase, 1, 6), State(PrepPhrase, 1, 5));
    CompleteStep(g, tokens, D, 7, State(PrepPhrase, 2, 5), State(NounWithPP, 1, 4));
    CompleteStep(g, tokens, D, 7, State(NounWithPP, 2, 4), State(PrepPhrase, 1, 3));
    CompleteStep(g, tokens, D, 7, State(PrepPhrase, 2, 3), State(NounWithPP, 1, 2));
    CompleteStep(g, tokens, D, 7, State(NounWithPP, 2, 2), State(VerbObject, 1, 1));
    CompleteStep(g, tokens, D, 7, State(VerbObject, 2, 1), State(SentenceRule, 1, 0));
  }

  /** The driver's second sentence is accepted. */
  lemma TheyCanFishAccepted()
    ensures Accepts(SampleGrammar, ["they", "can", "fish"])
  {
    NounVerbNounAccepted(["they", "can", "fish"], 2, 0, 1);
  }

  /** "fish they can" is accepted too: NP(fish) VP(V(they) NP(can)). */
  lemma FishTheyCanAccepted()
    ensures Accepts(SampleGrammar, ["fish", "they", "can"])
  {
    NounVerbNounAccepted(["fish", "they", "can"], 1, 1, 0);
  }

  // ---------------------------------------------------------------------------
  // Rejection

  /** No alternative of `g` is empty, so no nonterminal derives the empty input. */
  ghost predicate NoEmptyAlternative(g: Grammar) {
    forall p :: p in g.AllProductions() ==> |p.rhs| > 0
  }

  /** No alternative of `g` begins with the terminal `w`. */
  ghost predicate NoAlternativeStartsWith(g: Grammar, w: string) {
    forall p :: p in g.AllProductions() && |p.rhs| > 0 ==> p.rhs[0] != T(w)
  }

  /** Every production with the dot and origin at 0. */
  ghost function Initial(g: Grammar): set<State> {
    set p | p in g.AllProductions() :: State(p, 0, 0)
  }

  /**
   * Without empty alternatives, and when no alternative begins with the first
   * token, the chart holding only the initial items in column 0 is closed.
   */
  lemma InitialChartClosed(g: Grammar, tokens: seq<string>)
    requires NoEmptyAlternative(g)
    requires |tokens| > 0 ==> NoAlternativeStartsWith(g, tokens[0])
    ensures Closed(g, tokens, [Initial(g)] + seq(|tokens|, _ => {}))
  {
    var C: seq<set<State>> := [Initial(g)] + seq(|tokens|, _ => {});
    forall st | st in Seeds(g) ensures st in C[0] {
      var p :| p in g.ProductionsFor(g.start) && st == State(p, 0, 0);
      ProductionsForMembership(g, g.start, p);
    }
    forall i, st | 0 <= i < |C| && st in C[i] ensures ItemClosed(g, tokens, C, i, st) {
      assert i == 0;
      var p :| p in g.AllProductions() && st == State(p, 0, 0);
      assert !st.IsComplete();
      forall q | q in Predicted(g, st, 0) ensures q in C[0] {
        var x := st.NextSymbol().value.nt;
        var r :| r in g.ProductionsFor(x) && q == State(r, 0, 0);
        ProductionsForMembership(g, x, r);
      }
    }
  }

  /** Without empty alternatives the empty input is rejected. */
  lemma EmptyInputRejected(g: Grammar)
    requires NoEmptyAlternative(g)
    ensures !Accepts(g, [])
  {
    InitialChartClosed(g, []);
    LeastBelow(g, [], [Initial(g)]);
    forall st | st in Least(g, [])[0] ensures !st.IsComplete() {
      var p :| p in g.AllProductions() && st == State(p, 0, 0);
    }
  }

  /** Without empty alternatives, an input whose first token begins no alternative is rejected. */
  lemma FirstTokenUnusableRejected(g: Grammar, tokens: seq<string>)
    requires NoEmptyAlternative(g) && |tokens| > 0 && NoAlternativeStartsWith(g, tokens[0])
    ensures !Accepts(g, tokens)
  {
    InitialChartClosed(g, tokens);
    LeastBelow(g, tokens, [Initial(g)] + seq(|tokens|, _ => {}));
    assert Least(g, tokens)[|tokens|] == {};
  }

  lemma SampleAlternatives()
    ensures NoEmptyAlternative(SampleGrammar)
    ensures NoAlternativeStartsWith(SampleGrammar, "zzz")
  {
    forall p | p in SampleGrammar.AllProductions() ensures |p.rhs| > 0 && p.rhs[0] != T("zzz") {
      var nt, alt :| nt in Rules && alt in Rules[nt] && p == Production(nt, alt);
    }
  }

  /** The sample grammar rejects the empty input. */
  lemma SampleRejectsEmpty()
    ensures !Accepts(SampleGrammar, [])
  {
    SampleAlternatives();
    EmptyInputRejected(SampleGrammar);
  }

  /** The sample grammar rejects a single unknown word. */
  lemma SampleRejectsUnknownWord()
    ensures !Accepts(SampleGrammar, ["zzz"])
  {
    SampleAlternatives();
    FirstTokenUnusableRejected(SampleGrammar, ["zzz"]);
  }

  // ---------------------------------------------------------------------------
  // What the count counts

  /** An accepting item is a start production fully matched from column 0. */
  lemma AcceptingAreStartCompletions(g: Grammar, tokens: seq<string>, st: State)
    requires st in Accepting(g, Least(g, tokens)[|tokens|])
    ensures st.production in g.ProductionsFor(g.start)
    ensures st == State(st.production, |st.production.rhs|, 0)
  {
    LeastWellFormed(g, tokens, |tokens|, st);
    ProductionsForMembership(g, g.start, st.production);
  }

  /**
   * There is at most one accepting item per alternative of the start symbol,
   * however many derivations the input has: the count is not a derivation count.
   */
  lemma AcceptingBounded(g: Grammar, tokens: seq<string>)
    ensures |Accepting(g, Least(g, tokens)[|tokens|])| <= |g.Alternatives(g.start)|
  {
    var prods := g.ProductionsFor(g.start);
    var complete := (p: Production) => State(p, |p.rhs|, 0);
    forall st | st in Accepting(g, Least(g, tokens)[|tokens|]) ensures st in Image(prods, complete) {
      AcceptingAreStartCompletions(g, tokens, st);
      assert st == complete(st.production);
    }
    SubsetSmaller(Accepting(g, Least(g, tokens)[|tokens|]), Image(prods, complete));
    ImageSmaller(prods, complete);
  }

  /** With the sample grammar, whose start symbol has one alternative, the count is 0 or 1. */
  lemma SampleCountAtMostOne(tokens: seq<string>)
    ensures |Accepting(SampleGrammar, Least(SampleGrammar, tokens)[|tokens|])| <= 1
  {
    AcceptingBounded(SampleGrammar, tokens);
  }
}
