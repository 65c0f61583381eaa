# Earley recognizer, modelled and verified in Dafny

This project models `EarleyParser.py`, a chart-based recognizer for
context-free grammars that follows Earley's algorithm. It has these parts:

- **Value types.** A closed `NonTerminal` enumeration. Symbols are nonterminals or terminal strings.
- **Productions and items.** A `Production` is an `lhs -> rhs` rule. An Earley item (`State`) is a production plus a dot and an origin column.
- **Grammar lookup.** `Grammar.productions_for` gives the productions of a nonterminal.
- **Chart.** The `Chart` is a list of `n + 1` item sets, filled through an idempotent `add`.
- **Engine.** `EarleyParser.parse` seeds column 0. It then closes each column under the predictor, completer and scanner rules by repeating passes until a pass adds nothing. It returns the number of complete start-symbol items with origin 0 in the last column.

Modules, one per component:

| file | module | what |
|---|---|---|
| `items.dfy` | `Items` | `NonTerminal`, `Sym`, `Production` and `State`, with `IsComplete`, `NextSymbol` and `Advance` |
| `grammars.dfy` | `Grammars` | `Grammar` (rules map and start symbol), `ProductionsFor`, and the sample grammar `Rules` |
| `charts.dfy` | `Charts` | class `Chart` over a fixed `array<set<State>>`, with `Add` and `At` |
| `closure.dfy` | `Closure` | what the recognizer computes: the least chart closed under the rules, and its accepting items |
| `derivations.dfy` | `Derivations` | parse trees, derivability from the start symbol, and the proof that the least closed chart accepts exactly the derivable inputs |
| `parser.dfy` | `Parser` | class `EarleyParser`: `Parse` and its loops, proved against `Closure` |
| `acceptance.dfy` | `Acceptance` | the sample sentences, general rejection results, and what the count counts |
| `sets.dfy`, `wrappers.dfy` | `Sets`, `Wrappers` | cardinality lemmas and `Option` |

**The specification of `Parse`.**
- A chart is *closed* when it has `n + 1` columns and holds the seed items. It must also hold, for every item `st` of column `i`:
  - what the predictor derives from `st` at column `i`;
  - what the completer derives from `st` and column `st.start`;
  - when `i < n`, what the scanner puts in column `i + 1`.
- `Least(g, tokens)` is the intersection of all closed charts. It is restricted to the finite universe of items: a grammar production, a dot within its right-hand side and an origin no later than the column.
- `Parse` is proved to build exactly `Least(g, tokens)` and to return the size of its accepting set in column `n`. That value is the same whatever order the sets are visited in.
- `Least` is proved to be closed itself (`LeastClosed`), so it is the least fixpoint of the three rules.
- `Least` accepts an input exactly when the start symbol derives it by a parse tree of the grammar (`AcceptsIffGenerates`). So `Parse` returns a nonzero count exactly for the sentences of the grammar. This holds for every grammar, including ones with empty alternatives or left recursion.

**Termination.** The `while changed` loop terminates because each pass that reports a change strictly grows column `i` or column `i + 1`. Both columns lie inside a finite universe. The loop's measure is the number of universe items still missing from those two columns, then the flag.

## Model

| member | source | states |
|---|---|---|
| `Items.NextSymbolIffIncomplete` | EarleyParser.py:47-51 | the next symbol is absent exactly when `dot >= len(rhs)` (the item is complete); otherwise it is `rhs[dot]` |
| `Items.AdvanceConsumesNext` | EarleyParser.py:53-54 | `advance` keeps the production and the origin and adds 1 to the dot; on an incomplete well-formed item the result stays well-formed and its matched prefix grows by exactly the symbol that was next |
| `Grammars.Grammar.ProductionsFor` | EarleyParser.py:67-68 | one production per declared alternative, in order; production `k` has `lhs == nt` and the `k`-th alternative as `rhs`; an undeclared nonterminal gives the empty list |
| `Grammars.Pair` | EarleyParser.py:68 | the list comprehension pairs `nt` with every alternative, keeping length and order |
| `Grammars.ProductionsForMembership` | EarleyParser.py:67-68 | a production is offered for `nt` if and only if its lhs is `nt` and its rhs is a declared alternative of `nt` |
| `Charts.Chart.constructor` | EarleyParser.py:71-72 | a chart for `length` tokens has exactly `length + 1` columns, all empty |
| `Charts.Chart.Add` | EarleyParser.py:74-78 | returns true iff the item was not in column `idx`; afterwards the item is in that column and no other column changed |
| `Charts.Chart.At` | EarleyParser.py:80-81 | `chart[idx]` returns the current contents of column `idx`; the engine takes it as a set value before iterating, as `list(chart[i])` does |
| `Charts.AddTwice` | EarleyParser.py:74-78 | a second identical `add` returns false and leaves the chart as the first call left it |
| `Parser.EarleyParser.constructor` | EarleyParser.py:91-92 | the parser keeps the grammar it is given |
| `Parser.EarleyParser.Parse` | EarleyParser.py:94-124 | returns the number of complete start-symbol items with origin 0 in the last column of the least closed chart; the result is nonzero iff the start symbol derives the input |
| `Parser.EarleyParser.Seed` | EarleyParser.py:96-98 | column 0 holds exactly the start productions with dot and origin 0; the other columns stay empty |
| `Parser.EarleyParser.CloseColumn` | EarleyParser.py:100-120 | the `while changed` loop terminates; only columns `i` and `i + 1` grow; the chart stays inside the least closed chart; afterwards every item of column `i` has all its consequences in the chart |
| `Parser.EarleyParser.Pass` | EarleyParser.py:102-120 | one pass visits every item of a snapshot of column `i`: afterwards the chart holds what the predictor and completer derive from each of them in column `i`, and what the scanner derives in column `i + 1`; it reports a change iff the chart changed; columns only grow; a pass that changes nothing leaves every item of column `i` closed |
| `Parser.EarleyParser.Process` | EarleyParser.py:104-120 | column `i` gains exactly what the predictor and the completer derive from the item, and column `i + 1` exactly what the scanner derives (nothing unless `i < n` and the token at `i` is the next terminal); no other column changes; reports a change iff something was new |
| `Parser.EarleyParser.Complete` | EarleyParser.py:105-110 | column `i` gains exactly the advanced items of a snapshot of column `st.start` that wait for `st`'s lhs; nothing else changes; reports a change iff one was new |
| `Parser.EarleyParser.Predict` | EarleyParser.py:111-115 | column `i` gains exactly one item `(p, 0, i)` per production `p` of the nonterminal; nothing else changes; reports a change iff one was new |
| `Parser.RemainingShrinks` | EarleyParser.py:100-120 | a pass that changed the chart strictly decreases the number of possible items still missing from columns `i` and `i + 1`; this is the termination argument |
| `Parser.ClosedColumnsStay` | EarleyParser.py:99-120 | closing column `i` keeps every earlier column closed, so the columns can be closed strictly left to right |
| `Closure.LeastClosed` | EarleyParser.py:97-120 | the least chart holds the seeds and is closed under predictor, completer and scanner |
| `Closure.ClosedSoundIsLeast` | EarleyParser.py:99-124 | a closed chart lying inside the least chart is the least chart; this is how `Parse`'s result is identified |
| `Closure.LeastWellFormed` | EarleyParser.py:97-120 | every item of column `k` has `start <= k`, `0 <= dot <= len(rhs)` and a production of the grammar |
| `Closure.ConsequencesInUniverse` | EarleyParser.py:104-120 | the completer and scanner advance only items whose next symbol exists, so advanced items keep `dot <= len(rhs)`; every rule yields items within the dot and origin bounds of its target column |
| `Derivations.AcceptsSound` | EarleyParser.py:94-124 | an input the least closed chart accepts is derived from the start symbol by a parse tree of the grammar |
| `Derivations.GeneratesAccepted` | EarleyParser.py:94-124 | an input the start symbol derives is accepted: every closed chart follows each parse tree item by item |
| `Derivations.AcceptsIffGenerates` | EarleyParser.py:94-124 | acceptance by the least closed chart holds if and only if the start symbol derives the input |
| `Derivations.JustifiedChartClosed` | EarleyParser.py:104-120 | the items whose matched prefix derives the tokens between their origin and their column form a closed chart: predictor, completer and scanner each preserve that invariant |
| `Derivations.TreeFollowed` | EarleyParser.py:104-120 | in a closed chart, an item waiting for the root of a parse tree advances into the column where the tree's tokens end: by the scanner for a token, by the predictor and then the completer for a subtree |
| `Closure.ConsequencesSound` | EarleyParser.py:104-120 | what the three rules derive from a chart inside the least chart is again inside it |
| `Acceptance.TheyCanFishInRiversInDecemberAccepted` | EarleyParser.py:129-132 | the driver's first sentence is accepted with the sample grammar and start `S` |
| `Acceptance.TheyCanFishAccepted` | EarleyParser.py:129-132 | the driver's second sentence is accepted |
| `Acceptance.NounVerbNounAccepted` | EarleyParser.py:17-30 | every three-word sentence noun-verb-noun of the sample grammar is accepted |
| `Acceptance.FishTheyCanAccepted` | EarleyParser.py:17-30 | "fish they can" is accepted, as NP(fish) VP(V(they) NP(can)) |
| `Acceptance.EmptyInputRejected` | EarleyParser.py:94-124 | with no empty alternative, the empty input is rejected |
| `Acceptance.FirstTokenUnusableRejected` | EarleyParser.py:116-120 | with no empty alternative, an input whose first token begins no alternative is rejected |
| `Acceptance.SampleRejectsEmpty` | EarleyParser.py:17-30 | the sample grammar rejects the empty input |
| `Acceptance.SampleRejectsUnknownWord` | EarleyParser.py:17-30 | the sample grammar rejects `["zzz"]` |
| `Acceptance.AcceptingAreStartCompletions` | EarleyParser.py:121-124 | every counted item is a start production matched completely from column 0 |
| `Acceptance.AcceptingBounded` | EarleyParser.py:121-124 | the count is at most the number of alternatives of the start symbol, however many derivations the input has |
| `Acceptance.SampleCountAtMostOne` | EarleyParser.py:121-124 | with the sample grammar the count is 0 or 1 |

## Notes on behaviour

- **The count is not a derivation count.** The count is at most the number of alternatives of the start symbol (`AcceptingBounded`). `S` has one alternative, so with the sample grammar at most one accepting item exists, even for the ambiguous sentence "they can fish in rivers in December" (`SampleCountAtMostOne`).
- **"fish they can" is accepted.** The sample grammar derives it as NP(fish) VP(V(they) NP(can)), because `V -> they` and `N -> can` exist (`FishTheyCanAccepted`).

## Left out

- The `__repr__` methods of `Production`, `State` and `Chart` (EarleyParser.py:37-39, 56-60, 83-88): string formatting only.
- The `__main__` driver and its `print` calls (EarleyParser.py:126-132): console I/O. Its two sentences are proved accepted as lemmas.
- Negative `dot` or `start` values. `State` uses `nat` fields, because the code only builds items with 0 and advances them.
- The `list(...)` snapshots of a column. They are modelled as a set value taken before the loop. Sets are visited in an unspecified order (`:|`), as Python's set iteration is; `Parse`'s result is proved not to depend on that order.
- The `-> bool` annotation of `parse`. The code returns the `sum` of booleans, an integer. It is modelled as the cardinality of the set of accepting items.
- `Chart.add` and `Chart.__getitem__` take any Python index. A negative index from `-(n + 1)` to `-1` addresses a column from the end, and any other index out of range raises `IndexError`. `Add` and `At` take a `nat` below the number of columns instead, which every call in the engine supplies.
- `Grammar` and `EarleyParser` hold data the code never changes. `Grammar` is a datatype, and the parser keeps its grammar in a `const` field.
- Grammar validation, such as nonterminals referenced but not declared, is not done by the code and not modelled. An undeclared nonterminal simply has no productions.
