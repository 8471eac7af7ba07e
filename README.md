# Propositional logic: operator conversions, proof maneuvers and the 3-colouring reduction

This project models three modules of a propositional-logic course library in
Dafny and proves properties of them:

- **Operator conversions** (`propositions/operators.py`). Five functions
  rewrite a formula so that it uses only a given set of connectives: `~&|`,
  `~&`, `-&`, `->~` and `->F`. Each is a structural recursion over the
  formula tree (`operators.dfy`, module `Operators`). The model proves that
  every conversion keeps the formula's truth table in every model. It also
  proves that the result uses only the target connectives and that it adds
  no variable except the `p` of the constant encodings. The `~&|` and `~&`
  conversions leave a formula already in their basis unchanged. The other
  three first convert to `~&|`, so they rewrite even formulas already in
  their own basis.
- **Proof maneuvers** (`propositions/deduction.py`). `prove_corollary`,
  `combine_proofs`, `prove_from_opposites` and `remove_assumption` build a
  new Hilbert-style proof by copying and shifting the lines of given proofs
  and appending axiom instances and Modus Ponens lines (`deduction.dfy`,
  module `Deduction`). These functions build lists line by line, so each is
  a method with loops, proved against the exact line layout it produces.
  Lemmas then relate that layout to proof validity.
- **3-colouring to satisfiability** (`propositions/reductions.py`).
  `is_graph` and `is_valid_3coloring` are loops modelled as methods proved
  equal to predicates. `graph3coloring_to_formula` appends clauses to a list
  in nested loops and folds the list into a conjunction. It is modelled as a
  method proved equal to a clause-level specification (`reductions.dfy`,
  module `Reductions`). The main theorem is that for a well-formed graph,
  the formula is satisfiable exactly when the graph is 3-colourable.

The library's formula, semantics, proof and axiom modules are outside this
model. Small stand-ins replace them:

- `syntax.dfy` (module `Syntax`): the formula tree, its variables and
  operators, and substitution.
- `semantics.dfy` (module `Semantics`): evaluation in a model.
- `proofs.dfy` (module `Proofs`): inference rules, specialization, proof
  lines, line-by-line validity, and the axioms MP, I0, I1, D and I2.

## Model

| member | source | states |
|---|---|---|
| Operators.ToNotAndOr | propositions/operators.py:13-74 | the result contains no operator other than `~`, `&`, `|`, and no variable beyond those of the input and `p` (used by the `T`/`F` encodings) |
| Operators.ToNotAndOrEquivalent | propositions/operators.py:26-72 | the `~&|` conversion has the same truth value as the input in every model, case by case for `T`, `F`, `->`, `+`, `<->`, `-&`, `-|` |
| Operators.ToNotAndOrIdentity | propositions/operators.py:26-42 | a formula already over variables, `~`, `&` and `|` is returned unchanged |
| Operators.ReplaceOr | propositions/operators.py:90-105 | on a `~&|` formula the rewriting leaves only `~` and `&`, and it keeps exactly the input's variables |
| Operators.ReplaceOrEquivalent | propositions/operators.py:100-103 | rewriting `A|B` as `~(~A&~B)` keeps the truth value in every model |
| Operators.ReplaceOrIdentity | propositions/operators.py:90-105 | a formula over `~` and `&` is not changed by the rewriting |
| Operators.ToNotAnd | propositions/operators.py:76-107 | the result uses only `~` and `&` and adds no variable beyond `p` |
| Operators.ToNotAndEquivalent | propositions/operators.py:76-107 | the `~&` conversion keeps the truth value in every model |
| Operators.ToNotAndIdentity | propositions/operators.py:76-107 | a formula already over `~` and `&` is returned unchanged |
| Operators.ReplaceWithNand | propositions/operators.py:124-138 | on a `~&` formula the rewriting leaves only `-&`, with the same variables |
| Operators.ReplaceWithNandEquivalent | propositions/operators.py:128-136 | `~A` as `(A-&A)` and `A&B` as `((A-&B)-&(A-&B))` keep the truth value |
| Operators.ToNand | propositions/operators.py:109-140 | the result uses only `-&` and adds no variable beyond `p` |
| Operators.ToNandEquivalent | propositions/operators.py:109-140 | the `-&` conversion keeps the truth value in every model |
| Operators.ReplaceAndOr | propositions/operators.py:156-176 | on a formula over `~&|->` the rewriting leaves only `->` and `~`, with the same variables |
| Operators.ReplaceAndOrEquivalent | propositions/operators.py:163-171 | `A&B` as `~(A->~B)` and `A|B` as `(~A->B)` keep the truth value |
| Operators.ToImpliesNot | propositions/operators.py:142-178 | the result uses only `->` and `~` and adds no variable beyond `p` |
| Operators.ToImpliesNotEquivalent | propositions/operators.py:142-178 | the `->~` conversion keeps the truth value in every model |
| Operators.ReplaceNot | propositions/operators.py:194-206 | on a `->~` formula the rewriting leaves only `->` and `F`, with the same variables |
| Operators.ReplaceNotEquivalent | propositions/operators.py:198-201 | `~A` as `(A->F)` keeps the truth value |
| Operators.ToImpliesFalse | propositions/operators.py:180-208 | the result uses only `->` and `F` and adds no variable beyond `p` |
| Operators.ToImpliesFalseEquivalent | propositions/operators.py:180-208 | the `->F` conversion keeps the truth value in every model |
| Operators.ConversionsEquivalent | propositions/operators.py:20-23 | each of the five conversions has the same truth table as its input |
| Deduction.AppendLines | propositions/deduction.py:58-61 | copying a proof's lines one by one appends exactly those lines |
| Deduction.AppendShifted | propositions/deduction.py:136-141 | copying the second proof adds the offset to every reference of each non-assumption line, keeps assumption lines, and leaves the earlier lines alone |
| Deduction.SplicedLinesValid | propositions/deduction.py:131-141 | every line of a valid proof stays valid once shifted into a proof with the same assumptions and more rules |
| Deduction.CorollaryLayoutValidity | propositions/deduction.py:55-73 | in the corollary layout every line except the cited one is valid, and the whole proof is valid exactly when the cited rule is among the rules and `(antecedent->consequent)` is a specialization of it |
| Deduction.ProveCorollary | propositions/deduction.py:13-82 | as written: the exact lines, statement and rules produced; every reference points backward; the result is valid if and only if the specialized conditional, which is what line 65 cites, happens to be one of the rules |
| Deduction.CorollaryCounterexample | propositions/deduction.py:63-67 | with proof of `x` from `[x]`, conditional `(p->~~p)` and map `p := x`, the cited specialized rule is not among the rules |
| Deduction.CorollaryAsWrittenInvalid | propositions/deduction.py:58-82 | the proof the as-written layout yields on that input (`x`, the cited `(x->~~x)`, then `~~x` by Modus Ponens) is not valid |
| Deduction.ProveCorollaryCorrected | propositions/deduction.py:13-82 | citing `conditional` itself, the result is a valid proof of the consequent from the same assumptions via the rules plus MP and the conditional |
| Deduction.TwoProofSpliceValid | propositions/deduction.py:131-141 | both spliced proofs' lines are valid in the combined proof and their conclusions sit at the expected line numbers |
| Deduction.CombineLayoutValidity | propositions/deduction.py:128-161 | in the combined layout every line except the cited one is valid, and the proof is valid exactly when the cited rule is a rule with `(a1->(a2->c))` as a specialization |
| Deduction.CombineProofs | propositions/deduction.py:84-170 | as written: the exact layout (both proofs, the second shifted, then three lines), statement and rules; the result is valid if and only if the specialized double conditional is among the rules |
| Deduction.CombineCounterexample | propositions/deduction.py:143-147 | with proofs of `x` and `y` from `[x, y]` and rule `(p->(q->(p&q)))`, the cited specialized rule is not among the rules |
| Deduction.CombineAsWrittenInvalid | propositions/deduction.py:131-170 | the proof the as-written layout yields on that input (`x`, `y`, the cited `(x->(y->(x&y)))`, two Modus Ponens lines) is not valid |
| Deduction.CombineProofsCorrected | propositions/deduction.py:84-170 | citing `double_conditional` itself, the result is a valid proof of the consequent |
| Deduction.ProveFromOpposites | propositions/deduction.py:261-334 | the exact layout, statement and rules, and the result is a valid proof of the conclusion from the same assumptions via the rules plus MP and I2 |
| Deduction.OppositesLayoutValid | propositions/deduction.py:290-325 | the I2 line and the two Modus Ponens lines are justified, so the whole layout is valid |
| Deduction.ValidLineShape | propositions/deduction.py:220-225 | a line of a valid proof refers backward, and an MP line has two references, the second holding the implication from the first to the line |
| Deduction.EmitLine | propositions/deduction.py:202-251 | one loop step appends the I0 line, the I1 line, the D line, or the three-line block `ψ`, I1, MP, as the line's kind selects |
| Deduction.RemoveAssumption | propositions/deduction.py:172-259 | as written: the statement drops the last assumption and concludes `(φ->conclusion)`, the rules gain MP, I0, I1, D, the line list returned is empty, and the lines built by the loop are the emission of every input line |
| Deduction.RemoveAssumptionResultInvalid | propositions/deduction.py:253-259 | the returned proof has no lines and so is never valid |
| Deduction.EmissionLength | propositions/deduction.py:202-251 | `k` input lines emit between `k` and `3k` lines |
| Deduction.EmissionPrefix | propositions/deduction.py:202-251 | the loop only appends: an earlier stage is a prefix of a later one |
| Deduction.EmissionRefsBackward | propositions/deduction.py:245-251 | every reference in the built lines points to an earlier built line |
| Deduction.DFormulaAsWrittenNotInstance | propositions/deduction.py:227-236 | the D line built for an MP step, `((φ->(χ->(χ->ψ)))->((φ->χ)->(φ->ψ)))`, is never a specialization of D |
| Deduction.EmittedLineValidity | propositions/deduction.py:202-251 | a built line is valid in the full built list exactly when it does not come from an MP line (the D lines are the only invalid ones) |
| Deduction.BlockLineValidity | propositions/deduction.py:202-251 | the same, for the list built up to and including that input line |
| Deduction.KeptLinesValid | propositions/deduction.py:202-251 | when no input line cites Modus Ponens and the last is not an assumption other than φ, the built lines, had they been returned, form a valid proof of `(φ->conclusion)` |
| Deduction.KeptLinesValidExample | propositions/deduction.py:205-211 | for the proof of `p` from `[q, p]` whose two lines are the assumption `p`, the built lines are two `(p->p)` lines citing I0 and form a valid proof |
| Reductions.IsGraph | propositions/reductions.py:20-37 | returns true exactly when every edge has both endpoints in `1..n` and they differ |
| Reductions.IsValid3Coloring | propositions/reductions.py:39-60 | for a graph, returns true exactly when every vertex `1..n` has a colour in `{1,2,3}` and no edge joins two vertices of the same colour |
| Reductions.DecimalInjective | propositions/reductions.py:81 | distinct numbers have distinct decimal numerals |
| Reductions.IntDecimalInjective | propositions/reductions.py:81 | distinct integers have distinct numerals, sign included |
| Reductions.VarNameInjective | propositions/reductions.py:81 | two variable names `x{v}_{c}` are equal only for the same vertex and colour |
| Reductions.Graph3ColoringToFormula | propositions/reductions.py:62-113 | the returned formula is the reduction's formula: `T` without clauses, else the left-nested conjunction of all clauses in order |
| Reductions.AppendAtLeastOneClauses | propositions/reductions.py:78-85 | the first loop nest appends `((x{v}_1|x{v}_2)|x{v}_3)` for `v` in `1..n`, in order |
| Reductions.AppendAtMostOneClauses | propositions/reductions.py:87-95 | the second loop nest appends the at-most-one clauses of `1..n`, in order |
| Reductions.AppendVertexAtMostOne | propositions/reductions.py:88-95 | for one vertex, appends `(~x{v}_{c1}|~x{v}_{c2})` for the pairs (1,2), (1,3), (2,3) |
| Reductions.AppendEdgeClauses | propositions/reductions.py:97-104 | appends `(~x{u}_{c}|~x{w}_{c})` for every edge and colour, in order |
| Reductions.AppendEdgeColors | propositions/reductions.py:98-104 | for one edge `(u, w)`, appends `(~x{u}_{c}|~x{w}_{c})` for c = 1, 2, 3, in order |
| Reductions.FoldConjunction | propositions/reductions.py:109-113 | the loop builds the left-nested conjunction of the list |
| Reductions.AtLeastOneClausesMembers | propositions/reductions.py:78-85 | there are `n` at-least-one clauses, one for each vertex `1..n` and no other |
| Reductions.AtMostOneClausesMembers | propositions/reductions.py:87-95 | there are `3n` at-most-one clauses, exactly the vertices `1..n` with colour pairs `c1 < c2` in `1..3` |
| Reductions.EdgeClausesMembers | propositions/reductions.py:97-104 | there are `3|E|` edge clauses, exactly the edges with the colours `1..3` |
| Reductions.ClauseCount | propositions/reductions.py:76-104 | the formula has `4n + 3|E|` clauses |
| Reductions.ClausesMembers | propositions/reductions.py:76-104 | a clause is produced if and only if it is of one of the three kinds for a vertex or an edge of the graph |
| Reductions.FoldAndEvaluate | propositions/reductions.py:109-111 | the folded conjunction is true exactly when every conjunct is true |
| Reductions.FoldAndVariables | propositions/reductions.py:109-111 | the variables of the fold are exactly those of its conjuncts |
| Reductions.ColoringFormulaEvaluate | propositions/reductions.py:106-113 | the reduction's formula is true in a model exactly when every clause is |
| Reductions.ColoringFormulaTrivial | propositions/reductions.py:106-107 | the formula is `T` exactly when the graph has no vertices and no edges |
| Reductions.ColoringFormulaVariables | propositions/reductions.py:76-104 | every variable of the formula is `x{v}_{c}` for a vertex `v` in `1..n` and a colour `c` in `1..3` |
| Reductions.ColoringModelAt | propositions/reductions.py:81 | the model built from a colouring makes `x{v}_{c}` true exactly when `v` has colour `c` |
| Reductions.ValidColoringSatisfies | propositions/reductions.py:62-72 | the model of a valid 3-colouring satisfies the formula |
| Reductions.FirstTrueColorHolds | propositions/reductions.py:78-85 | in a model where a vertex's at-least-one clause holds, the first true colour of that vertex is true |
| Reductions.EdgeEndsDiffer | propositions/reductions.py:97-104 | in a model where every clause holds, the two ends of an edge get different first true colours |
| Reductions.SatisfyingModelColors | propositions/reductions.py:62-72 | colouring each vertex by its first true colour in a satisfying model gives a valid 3-colouring |
| Reductions.ColoringFormulaSatisfiableIffColorable | propositions/reductions.py:62-72 | for a graph, the formula is satisfiable if and only if the graph is 3-colourable |

## Left out

- The formula class, its parser and printer, the semantics module, the proof
  classes and the axiomatic-system constants are not part of this model.
  `syntax.dfy`, `semantics.dfy` and `proofs.dfy` are stand-ins that state
  only what the modelled code relies on.
- Models are total functions from variable names to truth values, not
  finite dictionaries.
- The spelling of variable names is modelled as `"x" + numeral + "_" +
  numeral`. Python's f-string formatting is not reproduced beyond that.
- The `ValueError` branch for an unknown operator (`propositions/operators.py:71-72`)
  cannot be reached, because the formula datatype has only the eleven node kinds.
- `InferenceRule.specialization_map` is not modelled. `ProveCorollary` and
  `CombineProofs` take the specialization map as a parameter, and their
  precondition says the map yields the required instance. The source asserts
  only that such a map exists.
- The assertions at the head of each maneuver become preconditions.
  `Proof.is_valid` is replaced by the stand-in `IsValid`. Likewise, the
  `assert is_graph(graph)` of `is_valid_3coloring` and
  `graph3coloring_to_formula` (`propositions/reductions.py:52`, `73`)
  becomes `requires WellFormed(g)`.
- Python sets of rules and edges become a Dafny `set` and a `seq` of edges.
  The order in which a set is iterated is not modelled. Edge order affects
  only the order of the clauses.
- `ClauseCount`: a `seq` of edges may hold the same edge twice, which a
  Python set cannot. The `3|E|` in `ClauseCount` counts repeated edges once
  per occurrence. For edges without repeats, it matches the set's size.
- `RemoveAssumption`: the model does not claim the result is valid. The
  code has three gaps:
  - It returns an empty line list, discarding the lines it built (line 259).
    This makes every result invalid.
  - It builds a D line that is not a specialization of D (lines 229-231).
    This makes the built lines invalid as soon as the proof has a Modus
    Ponens line.
  - It omits lines in two branches. For an assumption other than φ it emits
    only the I1 line (lines 213-217), with no ψ line and no Modus Ponens line
    to reach `(φ->ψ)`. For a Modus Ponens line it emits only the D line
    (line 236), with no Modus Ponens lines after it. The I1 gap makes the
    built lines invalid when the last line is an assumption other than φ.

  Keeping the built lines alone therefore already gives a valid proof when
  there is no Modus Ponens line and the last line is not an assumption
  other than φ (`KeptLinesValid`, `KeptLinesValidExample`). The model
  proves the first gap (`RemoveAssumptionResultInvalid`) and the D shape
  (`DFormulaAsWrittenNotInstance`), and states exactly which lines are
  emitted (`EmitLine`, `Emission`). The full deduction-theorem construction
  is not modelled.
- `prove_by_way_of_contradiction` is not modelled: it refers to a name the
  module never defines (`propositions/deduction.py:371`).
- `assignment_to_3coloring` is not modelled: it prints a debug line and uses
  an undefined `n_vertices` (`propositions/reductions.py:139-141`). Its
  intended behaviour, colouring each vertex by its first true colour, is the
  witness `ModelColoring` in the satisfiability proof.
- `tricolor_graph` is not modelled: it enumerates all models through the
  semantics module.
- The unused objects `implication_proof` (`propositions/deduction.py:47-53`)
  and `i2_specialized` (`propositions/deduction.py:294`) are not modelled.

## Findings

| source | as written | input that shows it | evidently intended | confidence | as-written member | corrected member |
|---|---|---|---|---|---|---|
| propositions/deduction.py:63-67 | the new line cites the specialized conditional, which is not among the proof's rules | a proof of `x` from `[x]`, conditional `(p->~~p)`: the line cites `(x->~~x)`, a rule not in the rule set | cite `conditional` itself, so that the line is valid | high (the rule-membership check of line validity fails); not executed | Deduction.ProveCorollary, Deduction.CorollaryCounterexample, Deduction.CorollaryAsWrittenInvalid | Deduction.ProveCorollaryCorrected |
| propositions/deduction.py:143-147 | the new line cites the specialized double conditional, which is not among the proof's rules | proofs of `x` and `y` from `[x, y]`, rule `(p->(q->(p&q)))`: the line cites `(x->(y->(x&y)))` | cite `double_conditional` itself | high (the same check); not executed | Deduction.CombineProofs, Deduction.CombineCounterexample, Deduction.CombineAsWrittenInvalid | Deduction.CombineProofsCorrected |
